/** `gcp_risk/service.py`: the service that keeps prices and computes risk snapshots. */
module RiskService {
  import opened PyText
  import opened Numbers
  import opened RiskMath
  import opened PortfolioMath
  import opened Schemas

  const CONFIDENCE := 0.95
  const WINDOW := 24

  /** What a risk computation gives: a snapshot, or one of the source's two exceptions. */
  datatype RiskResult = Computed(snapshot: RiskSnapshot) | PortfolioRequired | DivisionByZero

  datatype Saved = Saved(events: map<PyStr, seq<MarketEvent>>, portfolio: Option<Portfolio>, snapshots: seq<RiskSnapshot>)

  function Prices(events: seq<MarketEvent>): (r: seq<real>)
    ensures |r| == |events|
    ensures forall i :: 0 <= i < |r| ==> r[i] == events[i].price
  {
    seq(|events|, i requires 0 <= i < |events| => events[i].price)
  }

  /** The stored events of a symbol, none for an unknown one. */
  function EventsOf(events: map<PyStr, seq<MarketEvent>>, symbol: PyStr): seq<MarketEvent> {
    if symbol in events then events[symbol] else []
  }

  /** What `ingest_event` does to the stored events. */
  function StoreEvent(events: map<PyStr, seq<MarketEvent>>, e: MarketEvent): map<PyStr, seq<MarketEvent>> {
    events[e.symbol := EventsOf(events, e.symbol) + [e]]
  }

  function StoreAll(events: map<PyStr, seq<MarketEvent>>, arrived: seq<MarketEvent>): map<PyStr, seq<MarketEvent>> {
    if arrived == [] then events
    else StoreEvent(StoreAll(events, arrived[..|arrived| - 1]), arrived[|arrived| - 1])
  }

  /** One symbol's events, in order. */
  function ForSymbol(events: seq<MarketEvent>, symbol: PyStr): seq<MarketEvent> {
    if events == [] then []
    else
      var last := events[|events| - 1];
      ForSymbol(events[..|events| - 1], symbol) + if last.symbol == symbol then [last] else []
  }

  lemma StoreEventAppends(events: map<PyStr, seq<MarketEvent>>, e: MarketEvent, symbol: PyStr)
    ensures EventsOf(StoreEvent(events, e), symbol) ==
            EventsOf(events, symbol) + if e.symbol == symbol then [e] else []
  {
  }

  /** The stored events of a symbol are those that were there and those that have arrived for it. */
  lemma {:induction false} StoreAllAppends(events: map<PyStr, seq<MarketEvent>>, arrived: seq<MarketEvent>, symbol: PyStr)
    ensures EventsOf(StoreAll(events, arrived), symbol) == EventsOf(events, symbol) + ForSymbol(arrived, symbol)
  {
    if arrived != [] {
      var front, last := arrived[..|arrived| - 1], arrived[|arrived| - 1];
      StoreAllAppends(events, front, symbol);
      StoreEventAppends(StoreAll(events, front), last, symbol);
      Assoc(EventsOf(events, symbol), ForSymbol(front, symbol), if last.symbol == symbol then [last] else []);
    }
  }

  lemma Assoc<T>(a: seq<T>, b: seq<T>, c: seq<T>)
    ensures (a + b) + c == a + (b + c)
  {
  }

  function SymbolSeries(events: map<PyStr, seq<MarketEvent>>): SeriesOf {
    (symbol: PyStr) => Returns(Prices(EventsOf(events, symbol)))
  }

  function AnnualVolatility(rs: seq<real>, sigma: real, root252: real): real {
    if |rs| > 1 then sigma * root252 else 0.0
  }

  /** With `sigma` the population deviation, the volatility is the deviation of a year of 252 periods. */
  lemma VolatilityIsAnnualDeviation(rs: seq<real>, sigma: real, root252: real)
    requires |rs| > 1 && IsPstdev(rs, sigma) && root252 >= 0.0 && Square(root252) == 252.0
    ensures AnnualVolatility(rs, sigma, root252) >= 0.0
    ensures Square(AnnualVolatility(rs, sigma, root252)) == 252.0 * Variance(rs)
  {
    assert Square(sigma * root252) == Square(sigma) * Square(root252);
  }

  /** The snapshot of a portfolio series whose population deviation is `sigma`; `root252` is the root of 252. */
  function SnapshotOf(rs: seq<real>, id: PyStr, portfolioId: PyStr, asOf: PyStr, sigma: real, root252: real): RiskSnapshot
    requires !HasZeroPeak(Curve(rs))
  {
    RiskSnapshot(
      id, portfolioId, asOf,
      Round6(AnnualVolatility(rs, sigma, root252)),
      Round6(HistoricalVar(rs, CONFIDENCE)),
      Round6(Drawdown(Curve(rs))),
      Round6(RollingReturn(rs, WINDOW)))
  }

  function RiskOfSeries(rs: seq<real>, id: PyStr, portfolioId: PyStr, asOf: PyStr, sigma: real, root252: real): RiskResult {
    if HasZeroPeak(Curve(rs)) then DivisionByZero
    else Computed(SnapshotOf(rs, id, portfolioId, asOf, sigma, root252))
  }

  function RiskOf(events: map<PyStr, seq<MarketEvent>>, portfolio: Option<Portfolio>, id: PyStr, asOf: PyStr,
                  sigma: real, root252: real): RiskResult
  {
    match portfolio
    case None => PortfolioRequired
    case Some(p) =>
      RiskOfSeries(PortfolioSeries(p.positions, SymbolSeries(events)), id, p.portfolioId, asOf, sigma, root252)
  }

  /** The first loop of `_max_drawdown`. */
  method EquityCurve(rs: seq<real>) returns (equity: seq<real>)
    ensures equity == Curve(rs)
  {
    var running := 1.0;
    equity := [];
    for i := 0 to |rs|
      invariant running == Growth(rs[..i]) && equity == Curve(rs[..i])
    {
      assert rs[..i + 1][..i] == rs[..i];
      running := running * (1.0 + rs[i]);
      equity := equity + [running];
    }
    assert rs[..|rs|] == rs;
  }

  /** The second loop; None where it divides by zero. */
  method WorstFall(equity: seq<real>) returns (r: Option<real>)
    requires equity != []
    ensures r == None <==> HasZeroPeak(equity)
    ensures r.Some? ==> r.value == Drawdown(equity)
    ensures AllPositive(equity) ==> r.Some? && IsWorstFall(equity, |equity|, r.value)
  {
    if AllPositive(equity) {
      DrawdownIsWorstFall(equity);
    }
    var peak, worst := equity[0], 0.0;
    for k := 0 to |equity|
      invariant peak == if k == 0 then equity[0] else PrefixMax(equity, k - 1)
      invariant forall j :: 0 <= j < k ==> PrefixMax(equity, j) != 0.0
      invariant worst == DrawdownUpTo(equity, k)
    {
      peak := Max(peak, equity[k]);
      assert peak == PrefixMax(equity, k);
      if peak == 0.0 {
        return None;
      }
      worst := Min(worst, (equity[k] - peak) / peak);
    }
    r := Some(worst);
  }

  /** `_max_drawdown`: None, where it divides by zero, exactly on returns that wipe the portfolio out. */
  method MaxDrawdown(rs: seq<real>) returns (r: Option<real>)
    ensures r == None <==> WipedOut(rs)
    ensures r == None <==> HasZeroPeak(Curve(rs))
    ensures r.Some? ==> r.value == Drawdown(Curve(rs))
    ensures AllAboveMinusOne(rs) && rs != [] ==> r.Some? && AllPositive(Curve(rs)) && IsWorstFall(Curve(rs), |rs|, r.value)
  {
    ZeroPeakIffWipedOut(rs);
    if AllAboveMinusOne(rs) {
      CurveIsPositive(rs);
    }
    if rs == [] {
      return Some(0.0);
    }
    var equity := EquityCurve(rs);
    r := WorstFall(equity);
  }

  method RollingReturnOf(rs: seq<real>, window: int) returns (r: real)
    ensures r == RollingReturn(rs, window)
  {
    if rs == [] {
      return 0.0;
    }
    var selected := LastWindow(rs, window);
    var result := 1.0;
    for i := 0 to |selected|
      invariant result == Growth(selected[..i])
    {
      assert selected[..i + 1][..i] == selected[..i];
      result := result * (1.0 + selected[i]);
    }
    assert selected[..|selected|] == selected;
    r := result - 1.0;
  }

  /** The four measures of a portfolio series. */
  method Measure(rs: seq<real>, id: PyStr, portfolioId: PyStr, asOf: PyStr, sigma: real, root252: real)
    returns (r: RiskResult)
    ensures r == RiskOfSeries(rs, id, portfolioId, asOf, sigma, root252)
  {
    var volatility := AnnualVolatility(rs, sigma, root252);
    var valueAtRisk := HistoricalVar(rs, CONFIDENCE);
    var drawdown := MaxDrawdown(rs);
    if drawdown == None {
      return DivisionByZero;
    }
    var rolling := RollingReturnOf(rs, WINDOW);
    r := Computed(RiskSnapshot(id, portfolioId, asOf,
                               Round6(volatility), Round6(valueAtRisk), Round6(drawdown.value), Round6(rolling)));
  }

  lemma SumOneMore(f: Position -> real, positions: seq<Position>, j: nat)
    requires j < |positions|
    ensures Sum(f, positions[..j + 1]) == Sum(f, positions[..j]) + f(positions[j])
  {
    assert positions[..j + 1] == positions[..j] + [positions[j]];
    SumAppend(f, positions[..j], [positions[j]]);
    assert [positions[j]][1..] == [];
  }

  /** The series of every position has been looked up. */
  predicate Holds(bySymbol: map<PyStr, seq<real>>, positions: seq<Position>, series: SeriesOf) {
    forall p :: p in positions ==> p.symbol in bySymbol && bySymbol[p.symbol] == series(p.symbol)
  }

  lemma HoldsOneMore(bySymbol: map<PyStr, seq<real>>, positions: seq<Position>, i: nat, series: SeriesOf)
    requires i < |positions| && Holds(bySymbol, positions[..i], series)
    ensures var symbol := positions[i].symbol;
            Holds(bySymbol[symbol := series(symbol)], positions[..i + 1], series)
  {
    assert positions[..i + 1] == positions[..i] + [positions[i]];
  }

  /** `compute_risk` divides by zero exactly on these portfolio series. */
  lemma RaisesIffWipedOut(events: map<PyStr, seq<MarketEvent>>, p: Portfolio, id: PyStr, asOf: PyStr, sigma: real, root252: real)
    ensures RiskOf(events, Some(p), id, asOf, sigma, root252) == DivisionByZero
            <==> WipedOut(PortfolioSeries(p.positions, SymbolSeries(events)))
  {
    ZeroPeakIffWipedOut(PortfolioSeries(p.positions, SymbolSeries(events)));
  }

  /** A portfolio that holds one symbol and nothing else. */
  predicate HoldsOnly(p: Portfolio, symbol: PyStr) {
    p.positions == [Position(symbol, 1.0)]
  }

  lemma RiskOfOneSymbol(events: map<PyStr, seq<MarketEvent>>, p: Portfolio, symbol: PyStr,
                        id: PyStr, asOf: PyStr, sigma: real, root252: real)
    requires HoldsOnly(p, symbol)
    ensures RiskOf(events, Some(p), id, asOf, sigma, root252)
            == RiskOfSeries(SymbolSeries(events)(symbol), id, p.portfolioId, asOf, sigma, root252)
  {
    SinglePositionSeries(symbol, SymbolSeries(events));
  }

  /** For one symbol, prices not negative: it raises iff the first price that is not zero is followed by a zero. */
  lemma RaisesIffFallsToZeroFirst(events: map<PyStr, seq<MarketEvent>>, p: Portfolio, symbol: PyStr,
                                  id: PyStr, asOf: PyStr, sigma: real, root252: real)
    requires HoldsOnly(p, symbol) && AllNotNegative(Prices(EventsOf(events, symbol)))
    ensures RiskOf(events, Some(p), id, asOf, sigma, root252) == DivisionByZero
            <==> FallsToZeroFirst(Prices(EventsOf(events, symbol)))
  {
    SinglePositionSeries(symbol, SymbolSeries(events));
    ZeroPeakIffFallsToZeroFirst(Prices(EventsOf(events, symbol)));
  }

  lemma RaisesIffSymbolWipedOut(events: map<PyStr, seq<MarketEvent>>, p: Portfolio, symbol: PyStr,
                                id: PyStr, asOf: PyStr, sigma: real, root252: real)
    requires HoldsOnly(p, symbol)
    ensures RiskOf(events, Some(p), id, asOf, sigma, root252) == DivisionByZero
            <==> WipedOut(SymbolSeries(events)(symbol))
  {
    SinglePositionSeries(symbol, SymbolSeries(events));
    RaisesIffWipedOut(events, p, id, asOf, sigma, root252);
  }

  lemma StoredPricesGoOn(events: map<PyStr, seq<MarketEvent>>, later: seq<MarketEvent>, symbol: PyStr)
    ensures Prices(EventsOf(StoreAll(events, later), symbol))
            == Prices(EventsOf(events, symbol)) + Prices(ForSymbol(later, symbol))
  {
    StoreAllAppends(events, later, symbol);
  }

  lemma StoredReturnsGoOn(events: map<PyStr, seq<MarketEvent>>, later: seq<MarketEvent>, symbol: PyStr)
    ensures SymbolSeries(events)(symbol) <= SymbolSeries(StoreAll(events, later))(symbol)
  {
    var prices, more := Prices(EventsOf(events, symbol)), Prices(ForSymbol(later, symbol));
    StoredPricesGoOn(events, later, symbol);
    assert Returns(prices) <= Returns(prices + more) by {
      ReturnsGoOn(prices, more);
    }
  }

  /** Once it has raised for a symbol it raises after every later event, whatever that is: the first returns stay. */
  lemma RaisesForEver(events: map<PyStr, seq<MarketEvent>>, later: seq<MarketEvent>, p: Portfolio, symbol: PyStr,
                      id: PyStr, asOf: PyStr, sigma: real, root252: real)
    requires HoldsOnly(p, symbol) && RiskOf(events, Some(p), id, asOf, sigma, root252) == DivisionByZero
    ensures RiskOf(StoreAll(events, later), Some(p), id, asOf, sigma, root252) == DivisionByZero
  {
    RaisesIffSymbolWipedOut(events, p, symbol, id, asOf, sigma, root252);
    RaisesIffSymbolWipedOut(StoreAll(events, later), p, symbol, id, asOf, sigma, root252);
    StoredReturnsGoOn(events, later, symbol);
    WipedOutForEver(SymbolSeries(events)(symbol), SymbolSeries(StoreAll(events, later))(symbol));
  }

  /** A price of 1 and then of 0 is enough. */
  lemma FallToZeroRaises(p: Portfolio, symbol: PyStr, a: MarketEvent, b: MarketEvent,
                         id: PyStr, asOf: PyStr, sigma: real, root252: real)
    requires HoldsOnly(p, symbol) && a.symbol == b.symbol == symbol && a.price == 1.0 && b.price == 0.0
    ensures RiskOf(map[symbol := [a, b]], Some(p), id, asOf, sigma, root252) == DivisionByZero
  {
    assert FallsToZeroAt(Prices([a, b]), 0);
    RaisesIffFallsToZeroFirst(map[symbol := [a, b]], p, symbol, id, asOf, sigma, root252);
  }

  // ----- what the fields of a snapshot are -----------------------------------------

  lemma TailIndexIsTwentieth(n: nat)
    requires n > 0
    ensures TailIndex(n, CONFIDENCE) == n / 20
  {
    var x := (1.0 - CONFIDENCE) * n as real;
    assert 20.0 * x == n as real;
    assert n == 20 * (n / 20) + n % 20;
    assert (n / 20) as real <= x < (n / 20) as real + 1.0;
  }

  /** The root of 252 times the population variance. */
  ghost predicate IsVolatility(rs: seq<real>, v: real) {
    |rs| > 1 && v >= 0.0 && Square(v) == 252.0 * Variance(rs)
  }

  lemma VolatilityIsUnique(rs: seq<real>, v: real, w: real)
    requires IsVolatility(rs, v) && IsVolatility(rs, w)
    ensures v == w
  {
    RootIsUnique(v, w);
  }

  lemma SnapshotVolatility(rs: seq<real>, id: PyStr, portfolioId: PyStr, asOf: PyStr, sigma: real, root252: real)
    requires !HasZeroPeak(Curve(rs))
    requires |rs| > 1 ==> IsPstdev(rs, sigma) && root252 >= 0.0 && Square(root252) == 252.0
    ensures var s := SnapshotOf(rs, id, portfolioId, asOf, sigma, root252);
            && (|rs| < 2 ==> s.volatility == 0.0)
            && (|rs| > 1 ==> exists v :: IsVolatility(rs, v) && s.volatility == Round6(v))
  {
    if |rs| > 1 {
      VolatilityIsAnnualDeviation(rs, sigma, root252);
      assert IsVolatility(rs, AnnualVolatility(rs, sigma, root252));
    }
  }

  /** One of the returns, with at most a twentieth of them below it and more than a twentieth at or below it. */
  ghost predicate IsTwentieth(rs: seq<real>, x: real) {
    x in rs && CountBelow(rs, x) <= |rs| / 20 && CountAtMost(rs, x) >= |rs| / 20 + 1
  }

  lemma SnapshotValueAtRisk(rs: seq<real>, id: PyStr, portfolioId: PyStr, asOf: PyStr, sigma: real, root252: real)
    requires !HasZeroPeak(Curve(rs))
    ensures var s := SnapshotOf(rs, id, portfolioId, asOf, sigma, root252);
            && (rs == [] ==> s.valueAtRisk95 == 0.0)
            && (rs != [] ==> exists x :: IsTwentieth(rs, x) && s.valueAtRisk95 == Round6(x))
  {
    if rs != [] {
      VarIsOrderStatistic(rs, CONFIDENCE);
      TailIndexIsTwentieth(|rs|);
      assert IsTwentieth(rs, HistoricalVar(rs, CONFIDENCE));
    }
  }

  /** The drawdown is the worst fall of the equity curve. */
  lemma SnapshotDrawdown(rs: seq<real>, id: PyStr, portfolioId: PyStr, asOf: PyStr, sigma: real, root252: real)
    requires rs != [] && AllAboveMinusOne(rs) && !HasZeroPeak(Curve(rs))
    ensures AllPositive(Curve(rs))
    ensures var s := SnapshotOf(rs, id, portfolioId, asOf, sigma, root252);
            exists d :: IsWorstFall(Curve(rs), |rs|, d) && s.maxDrawdown == Round6(d)
  {
    CurveIsPositive(rs);
    DrawdownIsWorstFall(Curve(rs));
  }

  /** What a snapshot says, for whatever portfolio and prices it was computed. */
  ghost predicate SnapshotSays(s: RiskSnapshot, rs: seq<real>) {
    && (|rs| < 2 ==> s.volatility == 0.0)
    && (|rs| > 1 ==> exists v :: IsVolatility(rs, v) && s.volatility == Round6(v))
    && (rs == [] ==> s.valueAtRisk95 == 0.0 && s.maxDrawdown == 0.0 && s.rollingReturn1d == 0.0)
    && (rs != [] ==> exists x :: IsTwentieth(rs, x) && s.valueAtRisk95 == Round6(x))
    && (rs != [] && AllAboveMinusOne(rs) && AllPositive(Curve(rs)) ==>
          exists d :: IsWorstFall(Curve(rs), |rs|, d) && s.maxDrawdown == Round6(d))
  }

  /** Every computed snapshot says so, field by field, of the portfolio's series. */
  lemma ComputedSays(events: map<PyStr, seq<MarketEvent>>, p: Portfolio, id: PyStr, asOf: PyStr, sigma: real, root252: real)
    requires var rs := PortfolioSeries(p.positions, SymbolSeries(events));
             |rs| > 1 ==> IsPstdev(rs, sigma) && root252 >= 0.0 && Square(root252) == 252.0
    ensures var r := RiskOf(events, Some(p), id, asOf, sigma, root252);
            r.Computed? ==>
              && SnapshotSays(r.snapshot, PortfolioSeries(p.positions, SymbolSeries(events)))
              && r.snapshot.snapshotId == id && r.snapshot.portfolioId == p.portfolioId && r.snapshot.asOf == asOf
  {
    var rs := PortfolioSeries(p.positions, SymbolSeries(events));
    if !HasZeroPeak(Curve(rs)) {
      SnapshotVolatility(rs, id, p.portfolioId, asOf, sigma, root252);
      SnapshotValueAtRisk(rs, id, p.portfolioId, asOf, sigma, root252);
      if rs == [] {
        EmptySnapshot(id, p.portfolioId, asOf, sigma, root252);
      } else if AllAboveMinusOne(rs) {
        SnapshotDrawdown(rs, id, p.portfolioId, asOf, sigma, root252);
      }
    }
  }

  lemma EmptySnapshot(id: PyStr, portfolioId: PyStr, asOf: PyStr, sigma: real, root252: real)
    ensures !HasZeroPeak(Curve([]))
    ensures var s := SnapshotOf([], id, portfolioId, asOf, sigma, root252);
            s.maxDrawdown == 0.0 && s.rollingReturn1d == 0.0
  {
    assert LastWindow([], WINDOW) == [];
  }

  /** The price 24 steps before the last, or the first if there are fewer. */
  function DayBefore(prices: seq<real>): real
    requires prices != []
  {
    if |prices| > 25 then prices[|prices| - 25] else prices[0]
  }

  function DayChange(prices: seq<real>): real
    requires prices != [] && DayBefore(prices) != 0.0
  {
    (prices[|prices| - 1] - DayBefore(prices)) / DayBefore(prices)
  }

  lemma WindowChangeIs(prices: seq<real>)
    requires AllPositive(prices) && prices != []
    ensures DayBefore(prices) > 0.0 && WindowChange(prices, WINDOW) == DayChange(prices)
  {
    RelativeChange(DayBefore(prices), prices[|prices| - 1]);
  }

  lemma SnapshotRolling(prices: seq<real>, rs: seq<real>, id: PyStr, portfolioId: PyStr, asOf: PyStr, sigma: real, root252: real)
    requires AllPositive(prices) && prices != [] && rs == Returns(prices)
    ensures DayBefore(prices) > 0.0
    ensures var r := RiskOfSeries(rs, id, portfolioId, asOf, sigma, root252);
            r.Computed? && r.snapshot.rollingReturn1d == Round6(DayChange(prices))
  {
    assert !HasZeroPeak(Curve(rs)) by {
      PositivePricesHaveNoZeroPeak(prices);
    }
    assert RollingReturn(rs, WINDOW) == WindowChange(prices, WINDOW) by {
      RollingReturnIsPriceChange(prices, WINDOW);
    }
    WindowChangeIs(prices);
  }

  /** For one symbol with positive prices, the rolling return is the relative change of the price over 24 steps. */
  lemma RollingReturnSays(events: map<PyStr, seq<MarketEvent>>, p: Portfolio, symbol: PyStr,
                          id: PyStr, asOf: PyStr, sigma: real, root252: real)
    requires HoldsOnly(p, symbol) && Prices(EventsOf(events, symbol)) != [] && AllPositive(Prices(EventsOf(events, symbol)))
    ensures var prices := Prices(EventsOf(events, symbol));
            var r := RiskOf(events, Some(p), id, asOf, sigma, root252);
            DayBefore(prices) > 0.0 && r.Computed? && r.snapshot.rollingReturn1d == Round6(DayChange(prices))
  {
    RiskOfOneSymbol(events, p, symbol, id, asOf, sigma, root252);
    SnapshotRolling(Prices(EventsOf(events, symbol)), SymbolSeries(events)(symbol), id, p.portfolioId, asOf, sigma, root252);
  }

  lemma PositivePricesHaveNoZeroPeak(prices: seq<real>)
    requires AllPositive(prices)
    ensures !HasZeroPeak(Curve(Returns(prices)))
  {
    ZeroPeakIffFallsToZeroFirst(prices);
  }

  class Service {
    var eventsBySymbol: map<PyStr, seq<MarketEvent>>
    var portfolio: Option<Portfolio>
    var snapshots: seq<RiskSnapshot>
    /** The snapshots handed to the ledger. */
    var recorded: seq<RiskSnapshot>
    var disk: Saved
    const autoCompute: bool

    predicate Valid()
      reads this
    {
      disk == Saved(eventsBySymbol, portfolio, snapshots)
    }

    /** Starting on a saved state. */
    constructor (saved: Saved, autoCompute: bool)
      ensures Valid() && disk == saved && recorded == [] && this.autoCompute == autoCompute
    {
      eventsBySymbol, portfolio, snapshots := saved.events, saved.portfolio, saved.snapshots;
      recorded, disk := [], saved;
      this.autoCompute := autoCompute;
    }

    method SaveState()
      modifies this`disk
      ensures Valid()
    {
      disk := Saved(eventsBySymbol, portfolio, snapshots);
    }

    method SetPortfolio(p: Portfolio)
      requires Valid()
      modifies this`portfolio, this`disk
      ensures Valid() && portfolio == Some(p)
    {
      portfolio := Some(p);
      SaveState();
    }

    /** The return series of each distinct symbol, and the length of the shortest non-empty one. */
    method SeriesBySymbol(positions: seq<Position>) returns (bySymbol: map<PyStr, seq<real>>, common: nat)
      ensures Holds(bySymbol, positions, SymbolSeries(eventsBySymbol))
      ensures common == CommonLength(positions, SymbolSeries(eventsBySymbol))
    {
      ghost var series := SymbolSeries(eventsBySymbol);
      bySymbol, common := map[], 0;
      for i := 0 to |positions|
        invariant Holds(bySymbol, positions[..i], series)
        invariant common == CommonLength(positions[..i], series)
      {
        var symbol := positions[i].symbol;
        var own := Returns(Prices(EventsOf(eventsBySymbol, symbol)));
        HoldsOneMore(bySymbol, positions, i, series);
        CommonLengthOneMore(positions, i, series);
        bySymbol := bySymbol[symbol := own];
        if own != [] && (common == 0 || |own| < common) {
          common := |own|;
        }
      }
      assert positions[..|positions|] == positions;
    }

    /** The weighted sum of the entries `back` steps from the end; every index is in bounds. */
    method PortfolioReturnAt(positions: seq<Position>, bySymbol: map<PyStr, seq<real>>, ghost series: SeriesOf, index: int)
      returns (total: real)
      requires Holds(bySymbol, positions, series)
      requires index < 0 && forall p :: p in positions && series(p.symbol) != [] ==> -index <= |series(p.symbol)|
      ensures total == PortfolioReturn(positions, series, -index)
    {
      total := 0.0;
      ghost var f := Contribution(series, -index);
      for j := 0 to |positions|
        invariant total == Sum(f, positions[..j])
      {
        var position := positions[j];
        var own := bySymbol[position.symbol];
        var symbolReturn := if own != [] then own[|own| + index] else 0.0;
        SumOneMore(f, positions, j);
        assert symbolReturn == FromEnd(series(position.symbol), -index);
        total := total + position.weight * symbolReturn;
      }
      assert positions[..|positions|] == positions;
    }

    /** The outer loop, over the indices from -common to -1. */
    method WeightedSeries(positions: seq<Position>, bySymbol: map<PyStr, seq<real>>, common: nat, ghost series: SeriesOf)
      returns (r: seq<real>)
      requires Holds(bySymbol, positions, series)
      requires common == CommonLength(positions, series)
      ensures r == PortfolioSeries(positions, series)
    {
      CommonLengthFits(positions, series);
      r := [];
      var index: int := -(common as int);
      while index < 0
        invariant index <= 0 && |r| == common + index
        invariant forall k :: 0 <= k < |r| ==> r[k] == PortfolioReturn(positions, series, common - k)
      {
        var total := PortfolioReturnAt(positions, bySymbol, series, index);
        r := r + [total];
        index := index + 1;
      }
    }

    method PortfolioReturns(positions: seq<Position>) returns (r: seq<real>)
      ensures r == PortfolioSeries(positions, SymbolSeries(eventsBySymbol))
    {
      var bySymbol, common := SeriesBySymbol(positions);
      r := WeightedSeries(positions, bySymbol, common, SymbolSeries(eventsBySymbol));
    }

    /**
     `compute_risk`. `sigma` is what `pstdev` returns on the series, `root252` the
     square root of 252; an exception leaves the service as it was.
     */
    method ComputeRisk(given: Option<Portfolio>, id: PyStr, asOf: PyStr, sigma: real, root252: real)
      returns (r: RiskResult)
      requires Valid()
      modifies this`snapshots, this`recorded, this`disk
      ensures Valid()
      ensures r == RiskOf(eventsBySymbol, if given.Some? then given else portfolio, id, asOf, sigma, root252)
      ensures r.Computed? ==> snapshots == old(snapshots) + [r.snapshot] && recorded == old(recorded) + [r.snapshot]
      ensures !r.Computed? ==> snapshots == old(snapshots) && recorded == old(recorded)
    {
      r := Evaluate(if given.Some? then given else portfolio, id, asOf, sigma, root252);
      if r.Computed? {
        Publish(r.snapshot);
      }
    }

    /** A snapshot is listed, recorded in the ledger, and saved. */
    method Publish(snapshot: RiskSnapshot)
      modifies this`snapshots, this`recorded, this`disk
      ensures Valid()
      ensures snapshots == old(snapshots) + [snapshot] && recorded == old(recorded) + [snapshot]
    {
      snapshots := snapshots + [snapshot];
      recorded := recorded + [snapshot];
      SaveState();
    }

    /** The part of `compute_risk` that changes nothing. */
    method Evaluate(effective: Option<Portfolio>, id: PyStr, asOf: PyStr, sigma: real, root252: real)
      returns (r: RiskResult)
      ensures r == RiskOf(eventsBySymbol, effective, id, asOf, sigma, root252)
    {
      if effective == None {
        return PortfolioRequired;
      }
      var rs := PortfolioReturns(effective.value.positions);
      r := Measure(rs, id, effective.value.portfolioId, asOf, sigma, root252);
    }

    /** The event is stored whether or not the computation it sets off succeeds. */
    method IngestEvent(event: MarketEvent, id: PyStr, asOf: PyStr, sigma: real, root252: real)
      returns (r: Option<RiskResult>)
      requires Valid()
      modifies this`eventsBySymbol, this`snapshots, this`recorded, this`disk
      ensures Valid()
      ensures eventsBySymbol == StoreEvent(old(eventsBySymbol), event)
      ensures EventsOf(eventsBySymbol, event.symbol) == EventsOf(old(eventsBySymbol), event.symbol) + [event]
      ensures forall s :: s != event.symbol ==> EventsOf(eventsBySymbol, s) == EventsOf(old(eventsBySymbol), s)
      // a snapshot is listed and recorded iff one was computed
      ensures r.Some? && r.value.Computed? ==>
                snapshots == old(snapshots) + [r.value.snapshot] && recorded == old(recorded) + [r.value.snapshot]
      ensures !(r.Some? && r.value.Computed?) ==> snapshots == old(snapshots) && recorded == old(recorded)
      ensures r == if autoCompute && portfolio.Some?
                   then Some(RiskOf(eventsBySymbol, portfolio, id, asOf, sigma, root252)) else None
    {
      eventsBySymbol := eventsBySymbol[event.symbol := EventsOf(eventsBySymbol, event.symbol) + [event]];
      SaveState();
      r := None;
      if autoCompute && portfolio.Some? {
        var result := ComputeRisk(None, id, asOf, sigma, root252);
        r := Some(result);
      }
    }
  }
}
