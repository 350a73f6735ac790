/** The messages that the services exchange (`shared/schemas/models.py`). */
module Schemas {
  import opened PyText

  datatype SensorMessage = SensorMessage(
    sensorId: PyStr,
    symbol: PyStr,
    assetClass: PyStr,
    price: real,
    volume: real,
    source: PyStr,
    eventTime: PyStr)

  datatype MarketEvent = MarketEvent(
    eventId: PyStr,
    symbol: PyStr,
    assetClass: PyStr,
    price: real,
    volume: real,
    source: PyStr,
    ingestedAt: PyStr,
    window: map<string, real>)

  const PRICE_CHANGE := "price_change_1m"
  const VOLUME_CHANGE := "volume_change_1m"
  const NOTIONAL := "notional_value"

  datatype Position = Position(symbol: PyStr, weight: real)

  datatype Portfolio = Portfolio(portfolioId: PyStr, positions: seq<Position>)

  datatype RiskSnapshot = RiskSnapshot(
    snapshotId: PyStr,
    portfolioId: PyStr,
    asOf: PyStr,
    volatility: real,
    valueAtRisk95: real,
    maxDrawdown: real,
    rollingReturn1d: real)
}
