/** `simulator/mqtt_publisher/generator.py`: the random walk that feeds the pipeline. */
module Simulator {
  import opened PyText
  import opened Numbers
  import opened Schemas
  import opened RiskMath
  import opened PortfolioMath

  datatype Quote = Quote(price: real, volume: real, assetClass: PyStr)

  /** The random numbers of one message: the two uniform draws, and the coin of an injected anomaly. */
  datatype Draw = Draw(price: real, volume: real, up: bool)

  /** `uniform(-0.007, 0.007)` and `uniform(-0.12, 0.12)`. */
  predicate InRange(d: Draw) {
    -0.007 <= d.price <= 0.007 && -0.12 <= d.volume <= 0.12
  }

  function PriceShift(d: Draw, anomaly: bool): real {
    if !anomaly then d.price else if d.up then d.price + 0.08 else d.price - 0.08
  }

  function VolumeShift(d: Draw, anomaly: bool): real {
    if anomaly then d.volume + 0.45 else d.volume
  }

  /** The moved price before rounding, never below a cent. */
  function Moved(price: real, shift: real): real {
    Max(0.01, price * (1.0 + shift))
  }

  function NextPrice(price: real, shift: real): real {
    Round6(Moved(price, shift))
  }

  function NextVolume(volume: real, shift: real): real {
    Round6(Max(1.0, volume * (1.0 + shift)))
  }

  /** At least one cent, and a multiple of 10^-6. */
  predicate Quotable(price: real) {
    price >= 0.01 && OnGrid(price)
  }

  /** The largest relative move: 8.7 % and what rounding can add to it at a price of one cent. */
  const MAX_MOVE := 0.08705

  lemma NextPriceIsQuotable(price: real, shift: real)
    ensures Quotable(NextPrice(price, shift))
  {
    var m := Moved(price, shift);
    Round6IsClose(m);
    Round6IsMonotone(0.01, m);
    Round6KeepsGrid(0.01);
  }

  lemma FlooredMove(price: real, shift: real, bound: real)
    requires price >= 0.01 && -bound <= shift <= bound
    ensures Abs(Moved(price, shift) - price) <= bound * price
  {
    assert price * (1.0 + shift) == price + shift * price;
    ProductWithin(price, shift, bound);
  }

  /** What rounding can add to a relative move at a price of one cent. */
  const ROUNDING := 0.00005

  lemma AddRounding(price: real, rounded: real, move: real, bound: real)
    requires price >= 0.01 && Abs(move) <= bound * price && Abs(rounded - move) <= 0.0000005
    ensures -((bound + ROUNDING) * price) <= rounded <= (bound + ROUNDING) * price
  {
    assert (bound + ROUNDING) * price == bound * price + ROUNDING * price;
  }

  lemma MoveOfRounded(price: real, next: real, moved: real, bound: real)
    requires price >= 0.01 && Abs(moved - price) <= bound * price && Abs(next - moved) <= 0.0000005
    ensures -(bound + ROUNDING) <= (next - price) / price <= bound + ROUNDING
  {
    AddRounding(price, next - price, moved - price, bound);
    QuotientWithin(next - price, price, bound + ROUNDING);
  }

  lemma MoveWithin(price: real, shift: real, bound: real)
    requires price >= 0.01 && -bound <= shift <= bound
    ensures -(bound + ROUNDING) <= (NextPrice(price, shift) - price) / price <= bound + ROUNDING
  {
    FlooredMove(price, shift, bound);
    Round6IsClose(Moved(price, shift));
    MoveOfRounded(price, NextPrice(price, shift), Moved(price, shift), bound);
  }

  lemma NextPriceMove(price: real, shift: real)
    requires price >= 0.01 && -0.087 <= shift <= 0.087
    ensures -MAX_MOVE <= (NextPrice(price, shift) - price) / price <= MAX_MOVE
  {
    MoveWithin(price, shift, 0.087);
  }

  lemma QuotientWithin(y: real, x: real, bound: real)
    requires x > 0.0 && -(bound * x) <= y <= bound * x
    ensures -bound <= y / x <= bound
  {
    var q := y / x;
    assert q * x == y;
    assert (bound - q) * x >= 0.0 && (q + bound) * x >= 0.0;
    Signs(bound - q, x);
    Signs(q + bound, x);
  }

  lemma NextPriceIsMonotone(price: real, low: real, high: real)
    requires price > 0.0 && low <= high
    ensures NextPrice(price, low) <= NextPrice(price, high)
  {
    MovedIsMonotone(price, low, high);
    Round6IsMonotone(Moved(price, low), Moved(price, high));
  }

  lemma MovedIsMonotone(price: real, low: real, high: real)
    requires price > 0.0 && low <= high
    ensures Moved(price, low) <= Moved(price, high)
  {
    var gap := (high - low) * price;
    Signs(high - low, price);
    assert gap >= 0.0;
    assert price * (1.0 + high) == price * (1.0 + low) + gap;
    MaxIsMonotone(0.01, price * (1.0 + low), price * (1.0 + high));
  }

  lemma MaxIsMonotone(floor: real, x: real, y: real)
    requires x <= y
    ensures Max(floor, x) <= Max(floor, y)
  {
  }

  /** From this price no draw moves the price by more than 8.7 %. */
  ghost predicate MovesWithinDrawRange(price: real) {
    forall shift :: -0.087 <= shift <= 0.087 ==>
      0.913 * price <= NextPrice(price, shift) <= 1.087 * price
  }

  /** That is so iff rounding does not push either of the two extreme draws outwards. */
  lemma DrawRangeHoldsIffExtremesDo(price: real)
    requires Quotable(price)
    ensures MovesWithinDrawRange(price) <==>
            0.913 * price <= NextPrice(price, -0.087) && NextPrice(price, 0.087) <= 1.087 * price
  {
    if 0.913 * price <= NextPrice(price, -0.087) && NextPrice(price, 0.087) <= 1.087 * price {
      forall shift | -0.087 <= shift <= 0.087
        ensures 0.913 * price <= NextPrice(price, shift) <= 1.087 * price
      {
        NextPriceIsMonotone(price, -0.087, shift);
        NextPriceIsMonotone(price, shift, 0.087);
      }
    }
  }

  /** A price on the grid, in units of 10^-6. */
  function Units(price: real): int {
    (price * 1000000.0).Floor
  }

  /**
   The thousandths that 8.7 % of a price leave beyond a whole unit are rounded
   inwards: there are less than 500, or there are 500 and the even unit is inwards.
   */
  predicate RoundsInwards(units: int) {
    87 * units % 1000 < 500 || (87 * units % 1000 == 500 && (units + 87 * units / 1000) % 2 == 0)
  }

  lemma RoundedThousandths(whole: int, part: int)
    requires 0 <= part < 1000
    ensures RoundHalfEven(whole as real + part as real / 1000.0)
            == if part < 500 || (part == 500 && whole % 2 == 0) then whole else whole + 1
  {
    var y := whole as real + part as real / 1000.0;
    FloorIs(y, whole);
  }

  lemma FloorIs(y: real, n: int)
    requires n as real <= y < n as real + 1.0
    ensures y.Floor == n
  {
  }

  /** In units, with the 8.7 % as whole units and thousandths. */
  lemma ExtremesInUnits(n: int, whole: int, part: int)
    requires whole == 87 * n / 1000 && part == 87 * n % 1000
    ensures 1.087 * n as real == (n + whole) as real + part as real / 1000.0
    ensures 0.913 * n as real == (n - whole) as real - part as real / 1000.0
  {
    assert 87 * n == 1000 * whole + part;
    assert 87.0 * n as real == 1000.0 * whole as real + part as real;
  }

  lemma UpperExtreme(n: int)
    requires n >= 10000
    ensures RoundHalfEven(1.087 * n as real) as real <= 1.087 * n as real <==> RoundsInwards(n)
  {
    var whole, part := 87 * n / 1000, 87 * n % 1000;
    ExtremesInUnits(n, whole, part);
    RoundedThousandths(n + whole, part);
  }

  lemma RoundedBelow(whole: int, part: int)
    requires 0 <= part < 1000
    ensures RoundHalfEven(whole as real - part as real / 1000.0)
            == if part < 500 || (part == 500 && whole % 2 == 0) then whole else whole - 1
  {
    if part == 0 {
      RoundedThousandths(whole, 0);
    } else {
      assert whole as real - part as real / 1000.0 == (whole - 1) as real + (1000 - part) as real / 1000.0;
      RoundedThousandths(whole - 1, 1000 - part);
    }
  }

  lemma LowerExtreme(n: int)
    requires n >= 10000
    ensures RoundHalfEven(0.913 * n as real) as real >= 0.913 * n as real <==> RoundsInwards(n)
  {
    var whole, part := 87 * n / 1000, 87 * n % 1000;
    ExtremesInUnits(n, whole, part);
    RoundedBelow(n - whole, part);
    SameParity(n, whole);
  }

  lemma SameParity(n: int, k: int)
    ensures (n - k) % 2 == (n + k) % 2
  {
  }

  lemma UnitsOf(price: real)
    requires Quotable(price)
    ensures Units(price) >= 10000 && price == Units(price) as real / 1000000.0
  {
  }

  /** The extreme draws in units; the lower one may be cut off at a cent. */
  lemma ExtremePrices(price: real)
    requires Quotable(price)
    ensures var n := Units(price) as real;
            && NextPrice(price, 0.087) == RoundHalfEven(1.087 * n) as real / 1000000.0
            && NextPrice(price, -0.087) == RoundHalfEven(Max(10000.0, 0.913 * n)) as real / 1000000.0
  {
    UnitsOf(price);
    var n := Units(price) as real;
    assert Moved(price, 0.087) * 1000000.0 == 1.087 * n;
    assert Moved(price, -0.087) * 1000000.0 == Max(10000.0, 0.913 * n);
  }

  lemma LowerHolds(price: real)
    requires Quotable(price) && RoundsInwards(Units(price))
    ensures 0.913 * price <= NextPrice(price, -0.087)
  {
    UnitsOf(price);
    ExtremePrices(price);
    LowerExtreme(Units(price));
    RoundedThousandths(10000, 0);
  }

  lemma UpperHoldsIff(price: real)
    requires Quotable(price)
    ensures NextPrice(price, 0.087) <= 1.087 * price <==> RoundsInwards(Units(price))
  {
    UnitsOf(price);
    ExtremePrices(price);
    UpperExtreme(Units(price));
  }

  /** From which prices no draw moves the price by more than 8.7 %. */
  lemma DrawRangeHoldsIffRoundsInwards(price: real)
    requires Quotable(price)
    ensures MovesWithinDrawRange(price) <==> RoundsInwards(Units(price))
  {
    DrawRangeHoldsIffExtremesDo(price);
    UpperHoldsIff(price);
    if RoundsInwards(Units(price)) {
      LowerHolds(price);
    }
  }

  /** Some draw, with or without an anomaly, takes the price there. */
  ghost predicate PossibleMove(price: real, next: real) {
    exists shift :: -0.087 <= shift <= 0.087 && next == NextPrice(price, shift)
  }

  /** The prices of one symbol over a run of the simulator. */
  ghost predicate IsWalk(prices: seq<real>) {
    prices != [] &&
    (var n := |prices| - 1;
     if n == 0 then Quotable(prices[0]) else IsWalk(prices[..n]) && PossibleMove(prices[n - 1], prices[n]))
  }

  /** Every price of a run is quotable, and every return stays within `MAX_MOVE`. */
  lemma {:induction false} WalkIsTame(prices: seq<real>)
    requires IsWalk(prices)
    ensures forall i :: 0 <= i < |prices| ==> Quotable(prices[i])
    ensures |Returns(prices)| == |prices| - 1 && Within(Returns(prices), MAX_MOVE)
  {
    var n := |prices| - 1;
    if n > 0 {
      WalkIsTame(prices[..n]);
      var price := prices[n - 1];
      var shift :| -0.087 <= shift <= 0.087 && prices[n] == NextPrice(price, shift);
      NextPriceIsQuotable(price, shift);
      NextPriceMove(price, shift);
      assert Returns(prices) == Returns(prices[..n]) + [(prices[n] - price) / price];
    }
  }

  /**
   The draws alone do not give the bound: two messages for AAPL, the second an
   injected anomaly at full draw, and the price has moved by more than 8.7 %.
   */
  lemma RoundingExceedsDrawRange()
    ensures var first := Draw(0.000006 / 210.0, 0.0, true);
            var second := Draw(0.007, 0.0, true);
            && InRange(first) && InRange(second)
            && NextPrice(210.0, PriceShift(first, false)) == 210.000006
            && NextPrice(210.000006, PriceShift(second, true)) == 228.270007
            && (228.270007 - 210.000006) / 210.000006 > 0.087
  {
    assert 210.0 * (1.0 + 0.000006 / 210.0) == 210.000006;
    assert Moved(210.0, 0.000006 / 210.0) == 210.000006;
    assert Moved(210.000006, 0.087) == 228.270006522;
  }

  /** No returns, or those of a walk the simulator can produce. */
  ghost predicate FromWalk(rs: seq<real>) {
    rs == [] || exists prices :: IsWalk(prices) && rs == Returns(prices)
  }

  lemma FromWalkIsTame(rs: seq<real>)
    requires FromWalk(rs)
    ensures Within(rs, MAX_MOVE)
  {
    if rs != [] {
      var prices :| IsWalk(prices) && rs == Returns(prices);
      WalkIsTame(prices);
    }
  }

  /**
   For a portfolio without short positions or leverage over simulated prices,
   every measure of every run is defined and every portfolio return within `MAX_MOVE`.
   */
  lemma SimulatedRiskIsDefined(positions: seq<Position>, series: SeriesOf)
    requires LongOnly(positions) && forall p :: p in positions ==> FromWalk(series(p.symbol))
    ensures var rs := PortfolioSeries(positions, series);
            Within(rs, MAX_MOVE) && !HasZeroPeak(Curve(rs)) && -1.0 < Drawdown(Curve(rs)) <= 0.0
  {
    forall p | p in positions
      ensures Within(series(p.symbol), MAX_MOVE)
    {
      FromWalkIsTame(series(p.symbol));
    }
    SeriesStaysWithin(positions, series, MAX_MOVE);
    BoundedSeriesHasMeasures(PortfolioSeries(positions, series), MAX_MOVE);
  }

  /** The prices that these messages carry for one symbol. */
  function PricesFor(messages: seq<SensorMessage>, symbol: PyStr): seq<real> {
    if messages == [] then []
    else
      var last := messages[|messages| - 1];
      PricesFor(messages[..|messages| - 1], symbol) + if last.symbol == symbol then [last.price] else []
  }

  const SYMBOLS: seq<PyStr> := [Lit("BTCUSD"), Lit("ETHUSD"), Lit("AAPL"), Lit("MSFT")]

  /** The quotes after one draw for a symbol, which must be among them. */
  function Step(quotes: map<PyStr, Quote>, symbol: PyStr, draw: Draw, anomaly: bool): map<PyStr, Quote> {
    if symbol !in quotes then quotes
    else
      var quote := quotes[symbol];
      quotes[symbol := Quote(NextPrice(quote.price, PriceShift(draw, anomaly)),
                             NextVolume(quote.volume, VolumeShift(draw, anomaly)), quote.assetClass)]
  }

  /** The quotes after one draw for each symbol in turn, where only one symbol has anomalies. */
  function Steps(quotes: map<PyStr, Quote>, symbols: seq<PyStr>, anomalySymbol: Option<PyStr>, draws: nat -> Draw): map<PyStr, Quote> {
    if symbols == [] then quotes
    else
      var n := |symbols| - 1;
      Step(Steps(quotes, symbols[..n], anomalySymbol, draws), symbols[n], draws(n), Some(symbols[n]) == anomalySymbol)
  }

  /** `symbols or list(self._state)`. */
  function Selected(symbols: seq<PyStr>): seq<PyStr> {
    if symbols == [] then SYMBOLS else symbols
  }

  // ----- what one message does to a quote -------------------------------------------

  /** The least relative price move of an injected anomaly that the floor does not hold. */
  const INJECTED_MOVE := 0.07295

  /** The unrounded price is at least a cent, so that the floor does not hold it. */
  predicate OffFloor(price: real, shift: real) {
    price * (1.0 + shift) >= 0.01
  }

  /** An ordinary message: less than 0.71 % in the price, at most 12 % and rounding in the volume. */
  predicate MovesLittle(before: Quote, after: Quote) {
    && Abs(after.price - before.price) <= 0.00705 * before.price
    && Abs(after.volume - before.volume) <= 0.12 * before.volume + 0.0000005
  }

  /** An injected anomaly: more than 7.2 % in the price, the way the coin says. */
  predicate PriceJumps(before: Quote, after: Quote, up: bool) {
    if up then after.price - before.price >= 0.07295 * before.price
    else after.price - before.price <= -(0.07295 * before.price)
  }

  /** And from 32 % to 58 % in the volume, always up. */
  predicate VolumeJumps(before: Quote, after: Quote) {
    0.32 * before.volume <= after.volume - before.volume <= 0.58 * before.volume
  }

  lemma MoveBeyond(price: real, shift: real, y: real)
    requires price >= 0.01 && (shift >= 0.073 || shift <= -0.073) && Abs(y - shift * price) <= 0.0000005
    ensures y >= INJECTED_MOVE * price || y <= -(INJECTED_MOVE * price)
  {
    if shift >= 0.073 {
      assert (shift - 0.073) * price == shift * price - 0.073 * price;
      ProductOfPositives(shift - 0.073, price);
    } else {
      assert (-0.073 - shift) * price == -0.073 * price - shift * price;
      ProductOfPositives(-0.073 - shift, price);
    }
  }

  lemma ProductOfPositives(x: real, y: real)
    requires x >= 0.0 && y >= 0.0
    ensures x * y >= 0.0
  {
  }

  lemma VolumeGrows(volume: real, shift: real)
    requires volume >= 1.0 && shift >= 0.33
    ensures NextVolume(volume, shift) - volume >= 0.32 * volume
  {
    var moved := volume * (1.0 + shift);
    ProductOfPositives(shift - 0.33, volume);
    assert moved == 1.33 * volume + (shift - 0.33) * volume;
    Round6IsClose(moved);
  }

  lemma VolumeWithin(volume: real, shift: real, bound: real)
    requires volume >= 1.0 && -bound <= shift <= bound
    ensures Abs(NextVolume(volume, shift) - volume) <= bound * volume + 0.0000005
  {
    var moved := Max(1.0, volume * (1.0 + shift));
    assert volume * (1.0 + shift) == volume + shift * volume;
    ProductWithin(volume, shift, bound);
    Round6IsClose(moved);
  }

  lemma OrdinaryMessage(quote: Quote, draw: Draw)
    requires Quotable(quote.price) && quote.volume >= 1.0 && InRange(draw)
    ensures MovesLittle(quote, Quote(NextPrice(quote.price, PriceShift(draw, false)),
                                     NextVolume(quote.volume, VolumeShift(draw, false)), quote.assetClass))
  {
    OrdinaryPrice(quote.price, draw.price);
    VolumeWithin(quote.volume, draw.volume, 0.12);
  }

  lemma OrdinaryPrice(price: real, shift: real)
    requires Quotable(price) && -0.007 <= shift <= 0.007
    ensures Abs(NextPrice(price, shift) - price) <= 0.00705 * price
  {
    FlooredMove(price, shift, 0.007);
    Round6IsClose(Moved(price, shift));
    AddRounding(price, NextPrice(price, shift) - price, Moved(price, shift) - price, 0.007);
  }

  lemma InjectedMessage(quote: Quote, draw: Draw)
    requires Quotable(quote.price) && quote.volume >= 1.0 && InRange(draw)
    ensures var next := Quote(NextPrice(quote.price, PriceShift(draw, true)),
                              NextVolume(quote.volume, VolumeShift(draw, true)), quote.assetClass);
            && VolumeJumps(quote, next)
            && (draw.up || quote.price * (1.0 + (draw.price - 0.08)) >= 0.01 ==> PriceJumps(quote, next, draw.up))
  {
    VolumeGrows(quote.volume, VolumeShift(draw, true));
    VolumeWithin(quote.volume, VolumeShift(draw, true), 0.57);
    if draw.up || quote.price * (1.0 + (draw.price - 0.08)) >= 0.01 {
      InjectedPrice(quote.price, PriceShift(draw, true));
    }
  }

  lemma InjectedPrice(price: real, shift: real)
    requires price >= 0.01 && (0.073 <= shift <= 0.087 || (-0.087 <= shift <= -0.073 && OffFloor(price, shift)))
    ensures if shift > 0.0 then NextPrice(price, shift) - price >= INJECTED_MOVE * price
            else NextPrice(price, shift) - price <= -(INJECTED_MOVE * price)
  {
    var y := NextPrice(price, shift) - price;
    assert price * (1.0 + shift) == price + shift * price;
    if shift > 0.0 {
      ProductOfPositives(shift, price);
    }
    Round6IsClose(Moved(price, shift));
    MoveBeyond(price, shift, y);
    SameSide(price, shift, y);
  }

  lemma SameSide(price: real, shift: real, y: real)
    requires price >= 0.01 && (shift >= 0.073 || shift <= -0.073) && Abs(y - shift * price) <= 0.0000005
    ensures y > 0.0 <==> shift > 0.0
  {
    if shift > 0.0 {
      ProductOfPositives(shift - 0.073, price);
      assert (shift - 0.073) * price == shift * price - 0.073 * price;
    } else {
      ProductOfPositives(-0.073 - shift, price);
      assert (-0.073 - shift) * price == -0.073 * price - shift * price;
    }
  }

  /** What one draw does to a quote. */
  predicate MovesAsDrawn(before: Quote, after: Quote, draw: Draw, anomaly: bool) {
    if !anomaly then MovesLittle(before, after)
    else VolumeJumps(before, after)
         && (draw.up || before.price * (1.0 + (draw.price - 0.08)) >= 0.01 ==> PriceJumps(before, after, draw.up))
  }

  lemma MessageMoves(quote: Quote, draw: Draw, anomaly: bool)
    requires Quotable(quote.price) && quote.volume >= 1.0 && InRange(draw)
    ensures MovesAsDrawn(quote, Quote(NextPrice(quote.price, PriceShift(draw, anomaly)),
                                      NextVolume(quote.volume, VolumeShift(draw, anomaly)), quote.assetClass), draw, anomaly)
  {
    if anomaly {
      InjectedMessage(quote, draw);
    } else {
      OrdinaryMessage(quote, draw);
    }
  }

  /** The first quote of AAPL with an anomaly, both draws 0 and the coin up. */
  lemma InjectedIntoApple()
    ensures NextPrice(210.0, PriceShift(Draw(0.0, 0.0, true), true)) == 226.8
    ensures NextVolume(1500000.0, VolumeShift(Draw(0.0, 0.0, true), true)) == 2175000.0
  {
  }

  // ----- messages and the quotes before them ------------------------------------------

  function QuoteOf(m: SensorMessage): Quote {
    Quote(m.price, m.volume, m.assetClass)
  }

  /** The message that a draw makes of a quote. */
  predicate FollowsQuote(quote: Quote, next: SensorMessage, draw: Draw, anomaly: bool) {
    && next.price == NextPrice(quote.price, PriceShift(draw, anomaly))
    && next.volume == NextVolume(quote.volume, VolumeShift(draw, anomaly))
    && next.assetClass == quote.assetClass
  }

  predicate Follows(prev: SensorMessage, next: SensorMessage, draw: Draw, anomaly: bool) {
    FollowsQuote(QuoteOf(prev), next, draw, anomaly)
  }

  /** A symbol's quote after these messages: that of its last message, or the one it started with. */
  function QuoteAfter(quotes: map<PyStr, Quote>, messages: seq<SensorMessage>, symbol: PyStr): Quote
    requires symbol in quotes
  {
    if messages == [] then quotes[symbol]
    else
      var last := messages[|messages| - 1];
      if last.symbol == symbol then QuoteOf(last) else QuoteAfter(quotes, messages[..|messages| - 1], symbol)
  }

  /** The k-th message follows the quote that the messages before it leave for its symbol. */
  predicate ChainedAt(quotes: map<PyStr, Quote>, messages: seq<SensorMessage>, k: nat, draw: Draw, anomaly: bool)
    requires k < |messages|
  {
    messages[k].symbol in quotes
    && FollowsQuote(QuoteAfter(quotes, messages[..k], messages[k].symbol), messages[k], draw, anomaly)
  }

  /** Each message follows the quote before it, with an anomaly injected for one symbol only. */
  ghost predicate Chain(quotes: map<PyStr, Quote>, messages: seq<SensorMessage>, anomalySymbol: Option<PyStr>,
                        draws: nat -> Draw)
  {
    forall k :: 0 <= k < |messages| ==>
      ChainedAt(quotes, messages, k, draws(k), Some(messages[k].symbol) == anomalySymbol)
  }

  /** The quotes are those that the messages leave. */
  ghost predicate QuotesAfter(quotes: map<PyStr, Quote>, messages: seq<SensorMessage>, state: map<PyStr, Quote>) {
    state.Keys == quotes.Keys && forall s :: s in quotes ==> state[s] == QuoteAfter(quotes, messages, s)
  }

  lemma QuoteAfterOneMore(quotes: map<PyStr, Quote>, messages: seq<SensorMessage>, m: SensorMessage, symbol: PyStr)
    requires symbol in quotes
    ensures QuoteAfter(quotes, messages + [m], symbol) ==
            if m.symbol == symbol then QuoteOf(m) else QuoteAfter(quotes, messages, symbol)
  {
    assert (messages + [m])[..|messages|] == messages;
  }

  lemma QuotesAfterOneMore(quotes: map<PyStr, Quote>, messages: seq<SensorMessage>, state: map<PyStr, Quote>,
                           m: SensorMessage, after: map<PyStr, Quote>)
    requires QuotesAfter(quotes, messages, state) && m.symbol in quotes && after == state[m.symbol := QuoteOf(m)]
    ensures QuotesAfter(quotes, messages + [m], after)
  {
    forall s | s in quotes
      ensures after[s] == QuoteAfter(quotes, messages + [m], s)
    {
      QuoteAfterOneMore(quotes, messages, m, s);
    }
  }

  lemma ChainOneMore(quotes: map<PyStr, Quote>, messages: seq<SensorMessage>, m: SensorMessage,
                     anomalySymbol: Option<PyStr>, draws: nat -> Draw)
    requires Chain(quotes, messages, anomalySymbol, draws) && m.symbol in quotes
    requires FollowsQuote(QuoteAfter(quotes, messages, m.symbol), m, draws(|messages|), Some(m.symbol) == anomalySymbol)
    ensures Chain(quotes, messages + [m], anomalySymbol, draws)
  {
    var all := messages + [m];
    forall k | 0 <= k < |all|
      ensures ChainedAt(quotes, all, k, draws(k), Some(all[k].symbol) == anomalySymbol)
    {
      if k < |messages| {
        assert all[..k] == messages[..k];
        assert ChainedAt(quotes, messages, k, draws(k), Some(messages[k].symbol) == anomalySymbol);
      } else {
        assert all[..k] == messages;
      }
    }
  }

  predicate AllKnown(symbols: seq<PyStr>, keys: set<PyStr>) {
    forall i :: 0 <= i < |symbols| ==> symbols[i] in keys
  }

  ghost predicate OnePerSymbol(messages: seq<SensorMessage>, symbols: seq<PyStr>) {
    |messages| == |symbols| && forall i :: 0 <= i < |symbols| ==> messages[i].symbol == symbols[i]
  }

  /** What drawing for these symbols, all known, has made of quotes and prices, and the messages it gave. */
  ghost predicate Drawn(quotes: map<PyStr, Quote>, start: map<PyStr, seq<real>>, state: map<PyStr, Quote>,
                        prices: map<PyStr, seq<real>>, messages: seq<SensorMessage>, symbols: seq<PyStr>,
                        anomalySymbol: Option<PyStr>, draws: nat -> Draw)
  {
    && AllKnown(symbols, quotes.Keys) && OnePerSymbol(messages, symbols)
    && state.Keys == quotes.Keys && state == Steps(quotes, symbols, anomalySymbol, draws)
    && Sent(start, prices, messages) && QuotesAfter(quotes, messages, state)
    && Chain(quotes, messages, anomalySymbol, draws)
  }

  /** The k-th symbol is the first unknown one, and those before it have been drawn for. */
  ghost predicate StoppedAt(quotes: map<PyStr, Quote>, state: map<PyStr, Quote>, symbols: seq<PyStr>, k: int,
                            anomalySymbol: Option<PyStr>, draws: nat -> Draw)
  {
    && 0 <= k < |symbols| && symbols[k] !in quotes.Keys && AllKnown(symbols[..k], quotes.Keys)
    && state == Steps(quotes, symbols[..k], anomalySymbol, draws)
  }

  lemma StoppedIsUnknown(quotes: map<PyStr, Quote>, state: map<PyStr, Quote>, symbols: seq<PyStr>,
                         anomalySymbol: Option<PyStr>, draws: nat -> Draw)
    ensures (exists k :: StoppedAt(quotes, state, symbols, k, anomalySymbol, draws)) ==> !AllKnown(symbols, quotes.Keys)
  {
  }

  lemma DrawnOneMore(quotes: map<PyStr, Quote>, start: map<PyStr, seq<real>>, state: map<PyStr, Quote>,
                     prices: map<PyStr, seq<real>>, messages: seq<SensorMessage>, symbols: seq<PyStr>, i: nat,
                     m: SensorMessage, anomalySymbol: Option<PyStr>, draws: nat -> Draw)
    requires i < |symbols| && Drawn(quotes, start, state, prices, messages, symbols[..i], anomalySymbol, draws)
    requires symbols[i] in state && m.symbol == symbols[i] && prices.Keys == state.Keys
    requires FollowsQuote(state[m.symbol], m, draws(i), Some(symbols[i]) == anomalySymbol)
    ensures Drawn(quotes, start, Step(state, symbols[i], draws(i), Some(symbols[i]) == anomalySymbol),
                  Extended(prices, m.symbol, m.price), messages + [m], symbols[..i + 1],
                  anomalySymbol, draws)
  {
    OneMoreKnown(symbols, i, quotes.Keys);
    OneMoreMessage(messages, symbols, i, m);
    OneMoreStep(quotes, symbols, i, anomalySymbol, draws);
    OneMoreSent(start, prices, messages, m);
    QuotesAfterOneMore(quotes, messages, state, m, Step(state, symbols[i], draws(i), Some(symbols[i]) == anomalySymbol));
    ChainOneMore(quotes, messages, m, anomalySymbol, draws);
  }

  lemma OneMoreKnown(symbols: seq<PyStr>, i: nat, keys: set<PyStr>)
    requires i < |symbols| && AllKnown(symbols[..i], keys) && symbols[i] in keys
    ensures AllKnown(symbols[..i + 1], keys)
  {
  }

  lemma OneMoreMessage(messages: seq<SensorMessage>, symbols: seq<PyStr>, i: nat, m: SensorMessage)
    requires i < |symbols| && OnePerSymbol(messages, symbols[..i]) && m.symbol == symbols[i]
    ensures OnePerSymbol(messages + [m], symbols[..i + 1])
  {
  }

  lemma OneMoreStep(quotes: map<PyStr, Quote>, symbols: seq<PyStr>, i: nat, anomalySymbol: Option<PyStr>, draws: nat -> Draw)
    requires i < |symbols|
    ensures Steps(quotes, symbols[..i + 1], anomalySymbol, draws) ==
            Step(Steps(quotes, symbols[..i], anomalySymbol, draws), symbols[i], draws(i), Some(symbols[i]) == anomalySymbol)
  {
    assert symbols[..i + 1][..i] == symbols[..i];
  }

  /** One more price of a symbol. */
  ghost function Extended(prices: map<PyStr, seq<real>>, symbol: PyStr, price: real): map<PyStr, seq<real>> {
    if symbol in prices then prices[symbol := prices[symbol] + [price]] else prices
  }

  /** Each symbol's prices have grown by exactly those its messages carry. */
  ghost predicate Sent(before: map<PyStr, seq<real>>, after: map<PyStr, seq<real>>, messages: seq<SensorMessage>) {
    after.Keys == before.Keys && forall s :: s in before ==> after[s] == before[s] + PricesFor(messages, s)
  }

  lemma OneMoreSent(before: map<PyStr, seq<real>>, mid: map<PyStr, seq<real>>, messages: seq<SensorMessage>, m: SensorMessage)
    requires Sent(before, mid, messages) && m.symbol in mid
    ensures Sent(before, Extended(mid, m.symbol, m.price), messages + [m])
  {
    forall s | s in before
      ensures Extended(mid, m.symbol, m.price)[s] == before[s] + PricesFor(messages + [m], s)
    {
      OneMorePrice(messages, m, s);
      ExtendedAt(mid, m.symbol, m.price, s);
      Assoc(before[s], PricesFor(messages, s), if m.symbol == s then [m.price] else []);
    }
  }

  lemma ExtendedAt(prices: map<PyStr, seq<real>>, symbol: PyStr, price: real, s: PyStr)
    requires symbol in prices && s in prices
    ensures Extended(prices, symbol, price)[s] == prices[s] + if symbol == s then [price] else []
  {
  }

  lemma Assoc(a: seq<real>, b: seq<real>, c: seq<real>)
    ensures (a + b) + c == a + (b + c)
  {
  }

  lemma OneMorePrice(messages: seq<SensorMessage>, m: SensorMessage, symbol: PyStr)
    ensures PricesFor(messages + [m], symbol) ==
            PricesFor(messages, symbol) + if m.symbol == symbol then [m.price] else []
  {
    assert (messages + [m])[..|messages|] == messages;
  }

  /** For each symbol a walk that ends in the present quote. */
  ghost predicate Quoted(state: map<PyStr, Quote>, prices: map<PyStr, seq<real>>) {
    && prices.Keys == state.Keys
    && forall s :: s in state ==>
         && IsWalk(prices[s]) && prices[s][|prices[s]| - 1] == state[s].price
         && Quotable(state[s].price) && state[s].volume >= 1.0
  }

  lemma QuotedGoesOn(state: map<PyStr, Quote>, prices: map<PyStr, seq<real>>, symbol: PyStr, shift: real, volume: real)
    requires Quoted(state, prices) && symbol in state && -0.087 <= shift <= 0.087 && volume >= 1.0
    ensures var next := NextPrice(state[symbol].price, shift);
            Quoted(state[symbol := Quote(next, volume, state[symbol].assetClass)],
                   Extended(prices, symbol, next))
  {
    NextPriceIsQuotable(state[symbol].price, shift);
    WalkGoesOn(prices[symbol], NextPrice(state[symbol].price, shift));
  }

  lemma WalkGoesOn(prices: seq<real>, next: real)
    requires IsWalk(prices) && PossibleMove(prices[|prices| - 1], next)
    ensures IsWalk(prices + [next])
  {
    assert (prices + [next])[..|prices|] == prices;
  }

  /** The prices sent, which leave out the initial quote, are a walk themselves. */
  lemma {:induction false} SentPricesAreWalk(prices: seq<real>)
    requires IsWalk(prices) && |prices| > 1
    ensures IsWalk(prices[1..])
  {
    var n := |prices| - 1;
    if n == 1 {
      WalkIsTame(prices);
    } else {
      SentPricesAreWalk(prices[..n]);
      assert prices[1..][..n - 1] == prices[..n][1..];
    }
  }

  lemma VolumeAtLeastOne(volume: real, shift: real)
    ensures NextVolume(volume, shift) >= 1.0
  {
    Round6IsMonotone(1.0, Max(1.0, volume * (1.0 + shift)));
    Round6KeepsGrid(1.0);
  }

  class MarketSensorSimulator {
    var state: map<PyStr, Quote>
    /** For each symbol its prices so far, the present one last. */
    ghost var prices: map<PyStr, seq<real>>

    ghost predicate Valid()
      reads this
    {
      Quoted(state, prices)
    }

    constructor ()
      ensures Valid() && AllKnown(SYMBOLS, state.Keys)
      ensures state == map[
                         Lit("BTCUSD") := Quote(68000.0, 120000.0, Lit("crypto")),
                         Lit("ETHUSD") := Quote(3200.0, 210000.0, Lit("crypto")),
                         Lit("AAPL") := Quote(210.0, 1500000.0, Lit("equity")),
                         Lit("MSFT") := Quote(430.0, 1100000.0, Lit("equity"))]
      ensures forall s :: s in state ==> prices[s] == [state[s].price]
    {
      var quotes := map[
        Lit("BTCUSD") := Quote(68000.0, 120000.0, Lit("crypto")),
        Lit("ETHUSD") := Quote(3200.0, 210000.0, Lit("crypto")),
        Lit("AAPL") := Quote(210.0, 1500000.0, Lit("equity")),
        Lit("MSFT") := Quote(430.0, 1100000.0, Lit("equity"))];
      state := quotes;
      prices := map s | s in quotes :: [quotes[s].price];
      new;
      forall s | s in state
        ensures IsWalk(prices[s]) && Quotable(state[s].price) && state[s].volume >= 1.0
      {
        assert Quotable(state[s].price);
      }
    }

    /** None for an unknown symbol, where the source raises. */
    method NextMessage(symbol: PyStr, draw: Draw, anomaly: bool, sensorId: PyStr, source: PyStr, at: PyStr)
      returns (m: Option<SensorMessage>)
      requires Valid() && InRange(draw)
      modifies this
      ensures Valid() && state == Step(old(state), symbol, draw, anomaly)
      ensures m == None <==> symbol !in old(state)
      ensures m == None ==> prices == old(prices)
      ensures m.Some? ==>
                && m.value.symbol == symbol && Quotable(m.value.price) && m.value.volume >= 1.0
                && state[symbol] == Quote(m.value.price, m.value.volume, m.value.assetClass)
                && m.value.sensorId == sensorId && m.value.source == source && m.value.eventTime == at
                && prices == Extended(old(prices), symbol, m.value.price)
                && FollowsQuote(old(state[symbol]), m.value, draw, anomaly)
      // little without an anomaly, a lot with one, the price unless the floor holds it
      ensures m.Some? ==> MovesAsDrawn(old(state[symbol]), state[symbol], draw, anomaly)
    {
      if symbol !in state {
        return None;
      }
      var quote := state[symbol];
      var price := NextPrice(quote.price, PriceShift(draw, anomaly));
      var volume := NextVolume(quote.volume, VolumeShift(draw, anomaly));
      NextPriceIsQuotable(quote.price, PriceShift(draw, anomaly));
      VolumeAtLeastOne(quote.volume, VolumeShift(draw, anomaly));
      QuotedGoesOn(state, prices, symbol, PriceShift(draw, anomaly), volume);
      MessageMoves(quote, draw, anomaly);
      state := state[symbol := Quote(price, volume, quote.assetClass)];
      prices := Extended(prices, symbol, price);
      m := Some(SensorMessage(sensorId, symbol, quote.assetClass, price, volume, source, at));
    }

    /** The i-th message of a cycle; None where the symbol is unknown. */
    method DrawNext(selected: seq<PyStr>, i: nat, anomalySymbol: Option<PyStr>, draws: nat -> Draw,
                    sensorIds: PyStr -> PyStr, source: PyStr, at: PyStr,
                    ghost quotes: map<PyStr, Quote>, ghost start: map<PyStr, seq<real>>, messages: seq<SensorMessage>)
      returns (m: Option<SensorMessage>)
      requires Valid() && i < |selected| && InRange(draws(i))
      requires Drawn(quotes, start, state, prices, messages, selected[..i], anomalySymbol, draws)
      modifies this
      ensures Valid()
      ensures m.Some? ==>
                Drawn(quotes, start, state, prices, messages + [m.value], selected[..i + 1], anomalySymbol, draws)
      ensures m == None ==> state.Keys == quotes.Keys && StoppedAt(quotes, state, selected, i, anomalySymbol, draws)
    {
      ghost var quotesBefore, pricesBefore := state, prices;
      m := NextMessage(selected[i], draws(i), Some(selected[i]) == anomalySymbol, sensorIds(selected[i]), source, at);
      if m.Some? {
        DrawnOneMore(quotes, start, quotesBefore, pricesBefore, messages, selected, i, m.value, anomalySymbol, draws);
      }
    }

    /** The comprehension of `generate_cycle`. */
    method DrawAll(selected: seq<PyStr>, anomalySymbol: Option<PyStr>, draws: nat -> Draw,
                   sensorIds: PyStr -> PyStr, source: PyStr, at: PyStr)
      returns (r: Option<seq<SensorMessage>>)
      requires Valid() && forall i :: InRange(draws(i))
      modifies this
      ensures Valid() && state.Keys == old(state.Keys)
      ensures r.Some? ==> Drawn(old(state), old(prices), state, prices, r.value, selected, anomalySymbol, draws)
      ensures r == None ==> exists k :: StoppedAt(old(state), state, selected, k, anomalySymbol, draws)
    {
      ghost var start, quotes := prices, state;
      var messages: seq<SensorMessage> := [];
      var i := 0;
      while i < |selected|
        invariant i <= |selected|
        invariant Valid() && Drawn(quotes, start, state, prices, messages, selected[..i], anomalySymbol, draws)
      {
        var m := DrawNext(selected, i, anomalySymbol, draws, sensorIds, source, at, quotes, start, messages);
        if m == None {
          return None;
        }
        messages := messages + [m.value];
        i := i + 1;
      }
      assert selected[..i] == selected;
      r := Some(messages);
    }

    /** `generate_cycle`: all four symbols for an empty selection. None where an unknown symbol makes it raise. */
    method GenerateCycle(symbols: seq<PyStr>, anomalySymbol: Option<PyStr>, draws: nat -> Draw,
                         sensorIds: PyStr -> PyStr, source: PyStr, at: PyStr)
      returns (r: Option<seq<SensorMessage>>)
      requires Valid() && forall i :: InRange(draws(i))
      modifies this
      ensures Valid() && state.Keys == old(state.Keys)
      ensures r.Some? <==> AllKnown(Selected(symbols), old(state.Keys))
      ensures r.Some? && symbols == [] ==>
                && |r.value| == 4 && r.value[0].symbol == Lit("BTCUSD") && r.value[1].symbol == Lit("ETHUSD")
                && r.value[2].symbol == Lit("AAPL") && r.value[3].symbol == Lit("MSFT")
      // one message each, the walks go on with their prices, and the quotes are those of the draws
      ensures r.Some? ==> Drawn(old(state), old(prices), state, prices, r.value, Selected(symbols), anomalySymbol, draws)
      // it stops at the first unknown symbol, with the draws before it made
      ensures r == None ==> exists k :: StoppedAt(old(state), state, Selected(symbols), k, anomalySymbol, draws)
    {
      ghost var quotes := state;
      var selected := Selected(symbols);
      r := DrawAll(selected, anomalySymbol, draws, sensorIds, source, at);
      StoppedIsUnknown(quotes, state, selected, anomalySymbol, draws);
    }
  }
}
