/** From the simulator through ingestion to the risk service. */
module Pipeline {
  import opened PyText
  import opened Numbers
  import opened RiskMath
  import opened PortfolioMath
  import opened Schemas
  import opened Ingestion
  import opened RiskService
  import opened CrossService
  import opened Simulator
  import opened Redelivery
  import opened ServiceRuntime

  /** Every symbol's messages are a run of the simulator. */
  ghost predicate SimulatedFeed(ops: seq<Op>) {
    forall symbol :: SymbolPrices(ops, symbol) == [] || IsWalk(SymbolPrices(ops, symbol))
  }

  /** The prices of one symbol's events, in order. */
  function EventPrices(events: seq<MarketEvent>, symbol: PyStr): seq<real> {
    Prices(ForSymbol(events, symbol))
  }

  /** Prices given to six decimals, and only those, arrive at the risk peer as they were sent. */
  lemma PricesArriveUnchangedIff(nodeId: PyStr, ops: seq<Op>, symbol: PyStr)
    ensures EventPrices(Forwarded(nodeId, Load([], []), ops), symbol) == SymbolPrices(ops, symbol)
            <==> AllOnGrid(SymbolPrices(ops, symbol))
  {
    ServicesAgreeIff(nodeId, ops, symbol);
    RoundAllIsIdentityIff(SymbolPrices(ops, symbol));
  }

  /** What ingestion forwards of a simulated feed. */
  lemma SimulatedPricesArrive(nodeId: PyStr, ops: seq<Op>, symbol: PyStr)
    requires SimulatedFeed(ops)
    ensures var prices := EventPrices(Forwarded(nodeId, Load([], []), ops), symbol);
            AllPositive(prices) && Within(Returns(prices), MAX_MOVE)
  {
    PricesArriveUnchangedIff(nodeId, ops, symbol);
    if SymbolPrices(ops, symbol) != [] {
      WalkIsTame(SymbolPrices(ops, symbol));
    }
  }

  // ----- what reaches the risk peer --------------------------------------------------

  /** The fates of the POSTs of each event's route. */
  type Fates = nat -> (int -> Attempt)

  /** The events that the risk peer processes when each is routed with retries, and so stored. */
  function Arrived(events: seq<MarketEvent>, fates: Fates, retries: int): seq<MarketEvent> {
    if events == [] then []
    else
      var n := |events| - 1;
      Arrived(events[..n], fates, retries)
      + Repeat(events[n], ProcessedCount(fates(n), AttemptCount(fates(n), retries)))
  }

  lemma {:induction false} RepeatsOneMore<T>(once: seq<T>, arrived: seq<T>, x: T, n: nat)
    requires Repeats(once, arrived) && n >= 1
    ensures Repeats(once + [x], arrived + Repeat(x, n))
    decreases n
  {
    if n == 1 {
      RepeatsNext(once, arrived, x);
      assert Repeat(x, 1) == [x];
    } else {
      RepeatsOneMore(once, arrived, x, n - 1);
      RepeatsAgain(once + [x], arrived + Repeat(x, n - 1), x);
      RepeatOnce(x, n - 1);
      assert arrived + Repeat(x, n) == arrived + Repeat(x, n - 1) + [x];
    }
  }

  /** If every route is delivered, every event arrives at least once and in order. */
  lemma {:induction false} DeliveredRoutesRepeat(events: seq<MarketEvent>, fates: Fates, retries: int)
    requires forall i :: 0 <= i < |events| ==> Succeeds(fates(i), retries)
    ensures Repeats(events, Arrived(events, fates, retries))
  {
    if events != [] {
      var n := |events| - 1;
      DeliveredRoutesRepeat(events[..n], fates, retries);
      DeliveredMeansProcessed(fates(n), retries);
      RepeatsOneMore(events[..n], Arrived(events[..n], fates, retries), events[n],
                     ProcessedCount(fates(n), AttemptCount(fates(n), retries)));
      assert events == events[..n] + [events[n]];
    }
  }

  lemma EventPricesOneMore(events: seq<MarketEvent>, symbol: PyStr)
    requires events != []
    ensures var n := |events| - 1;
            EventPrices(events, symbol) ==
            if events[n].symbol == symbol then EventPrices(events[..n], symbol) + [events[n].price]
            else EventPrices(events[..n], symbol)
  {
  }

  /** Repeats of all events are repeats of each symbol's. */
  lemma {:induction false} RepeatsForSymbol(once: seq<MarketEvent>, arrived: seq<MarketEvent>, symbol: PyStr)
    requires Repeats(once, arrived)
    ensures Repeats(EventPrices(once, symbol), EventPrices(arrived, symbol))
    decreases |arrived|
  {
    if arrived != [] {
      var n, m := |once| - 1, |arrived| - 1;
      var a, x := EventPrices(arrived[..m], symbol), arrived[m];
      EventPricesOneMore(once, symbol);
      EventPricesOneMore(arrived, symbol);
      if Repeats(once, arrived[..m]) {
        RepeatsForSymbol(once, arrived[..m], symbol);
        if x.symbol == symbol {
          RepeatsAgain(EventPrices(once, symbol), a, x.price);
        }
      } else {
        RepeatsForSymbol(once[..n], arrived[..m], symbol);
        if x.symbol == symbol {
          RepeatsNext(EventPrices(once[..n], symbol), a, x.price);
        }
      }
    }
  }

  lemma {:induction false} ForSymbolKeeps(events: seq<MarketEvent>, symbol: PyStr)
    ensures forall e :: e in ForSymbol(events, symbol) <==> e in events && e.symbol == symbol
  {
    if events != [] {
      var n := |events| - 1;
      ForSymbolKeeps(events[..n], symbol);
      assert events == events[..n] + [events[n]];
    }
  }

  // ----- from end to end -------------------------------------------------------------

  /** The events stored by a risk peer that started without any. */
  function StoredBy(arrived: seq<MarketEvent>): map<PyStr, seq<MarketEvent>> {
    StoreAll(map[], arrived)
  }

  lemma StoredPrices(arrived: seq<MarketEvent>, symbol: PyStr)
    ensures EventsOf(StoredBy(arrived), symbol) == ForSymbol(arrived, symbol)
  {
    StoreAllAppends(map[], arrived, symbol);
  }

  /** Positive prices give every portfolio without short positions or leverage a snapshot, whatever else they do. */
  lemma PositivePricesHaveSnapshot(events: map<PyStr, seq<MarketEvent>>, portfolio: Portfolio,
                                   id: PyStr, asOf: PyStr, sigma: real, root252: real)
    requires LongOnly(portfolio.positions)
    requires forall p :: p in portfolio.positions ==> AllPositive(Prices(EventsOf(events, p.symbol)))
    ensures var r := RiskOf(events, Some(portfolio), id, asOf, sigma, root252);
            && r.Computed? && -1.0 <= r.snapshot.maxDrawdown <= 0.0 && -1.0 <= r.snapshot.valueAtRisk95
  {
    var series := SymbolSeries(events);
    forall p | p in portfolio.positions
      ensures AllAboveMinusOne(series(p.symbol))
    {
      ReturnsAboveMinusOne(Prices(EventsOf(events, p.symbol)));
    }
    SeriesStaysAboveMinusOne(portfolio.positions, series);
    var rs := PortfolioSeries(portfolio.positions, series);
    DrawdownRange(rs);
    RoundWithin(Drawdown(Curve(rs)), -1.0, 0.0);
    VarAtLeast(rs, -1.0);
  }

  lemma VarAtLeast(rs: seq<real>, low: real)
    requires (forall i :: 0 <= i < |rs| ==> rs[i] >= low) && low <= 0.0 && OnGrid(low)
    ensures Round6(HistoricalVar(rs, CONFIDENCE)) >= low
  {
    if rs != [] {
      VarIsOrderStatistic(rs, CONFIDENCE);
    }
    Round6IsMonotone(low, HistoricalVar(rs, CONFIDENCE));
    Round6KeepsGrid(low);
  }

  /**
   Whatever the simulator draws, however ingestion restarts, and whichever of the
   forwarded events reach the risk peer, repeated or out of order: every portfolio
   without short positions or leverage gets a snapshot.
   */
  lemma SimulatedFeedAlwaysHasSnapshot(nodeId: PyStr, ops: seq<Op>, arrived: seq<MarketEvent>, portfolio: Portfolio,
                                       id: PyStr, asOf: PyStr, sigma: real, root252: real)
    requires SimulatedFeed(ops) && LongOnly(portfolio.positions)
    requires forall e :: e in arrived ==> e in Forwarded(nodeId, Load([], []), ops)
    ensures var r := RiskOf(StoredBy(arrived), Some(portfolio), id, asOf, sigma, root252);
            && r.Computed? && -1.0 <= r.snapshot.maxDrawdown <= 0.0 && -1.0 <= r.snapshot.valueAtRisk95
  {
    forall p | p in portfolio.positions
      ensures AllPositive(Prices(EventsOf(StoredBy(arrived), p.symbol)))
    {
      StoredPrices(arrived, p.symbol);
      ArrivedPricesArePositive(nodeId, ops, arrived, p.symbol);
    }
    PositivePricesHaveSnapshot(StoredBy(arrived), portfolio, id, asOf, sigma, root252);
  }

  lemma ArrivedPricesArePositive(nodeId: PyStr, ops: seq<Op>, arrived: seq<MarketEvent>, symbol: PyStr)
    requires SimulatedFeed(ops) && forall e :: e in arrived ==> e in Forwarded(nodeId, Load([], []), ops)
    ensures AllPositive(EventPrices(arrived, symbol))
  {
    var forwarded := Forwarded(nodeId, Load([], []), ops);
    SimulatedPricesArrive(nodeId, ops, symbol);
    ForSymbolKeeps(arrived, symbol);
    ForSymbolKeeps(forwarded, symbol);
    forall e | e in ForSymbol(forwarded, symbol)
      ensures e.price > 0.0
    {
      var i :| 0 <= i < |ForSymbol(forwarded, symbol)| && ForSymbol(forwarded, symbol)[i] == e;
      assert EventPrices(forwarded, symbol)[i] > 0.0;
    }
    forall i | 0 <= i < |ForSymbol(arrived, symbol)|
      ensures EventPrices(arrived, symbol)[i] > 0.0
    {
      assert ForSymbol(arrived, symbol)[i] in ForSymbol(forwarded, symbol);
    }
  }

  /**
   If every route is delivered, with as many repeats as lost replies cause, value
   at risk stays within the simulator's bound as well.
   */
  lemma DeliveredFeedKeepsBounds(nodeId: PyStr, ops: seq<Op>, fates: Fates, retries: int, portfolio: Portfolio,
                                 id: PyStr, asOf: PyStr, sigma: real, root252: real)
    requires SimulatedFeed(ops) && LongOnly(portfolio.positions)
    requires forall i :: 0 <= i < |Forwarded(nodeId, Load([], []), ops)| ==> Succeeds(fates(i), retries)
    ensures var arrived := Arrived(Forwarded(nodeId, Load([], []), ops), fates, retries);
            var r := RiskOf(StoredBy(arrived), Some(portfolio), id, asOf, sigma, root252);
            && r.Computed?
            && -1.0 <= r.snapshot.maxDrawdown <= 0.0
            && -MAX_MOVE <= r.snapshot.valueAtRisk95 <= MAX_MOVE
  {
    var arrived := Arrived(Forwarded(nodeId, Load([], []), ops), fates, retries);
    var rs := PortfolioSeries(portfolio.positions, SymbolSeries(StoredBy(arrived)));
    forall p | p in portfolio.positions
      ensures Within(SymbolSeries(StoredBy(arrived))(p.symbol), MAX_MOVE)
    {
      DeliveredReturnsWithin(nodeId, ops, fates, retries, p.symbol);
    }
    SeriesStaysWithin(portfolio.positions, SymbolSeries(StoredBy(arrived)), MAX_MOVE);
    BoundedSeriesHasMeasures(rs, MAX_MOVE);
    SnapshotRange(rs, id, portfolio.portfolioId, asOf, sigma, root252);
  }

  lemma DeliveredReturnsWithin(nodeId: PyStr, ops: seq<Op>, fates: Fates, retries: int, symbol: PyStr)
    requires SimulatedFeed(ops)
    requires forall i :: 0 <= i < |Forwarded(nodeId, Load([], []), ops)| ==> Succeeds(fates(i), retries)
    ensures var arrived := Arrived(Forwarded(nodeId, Load([], []), ops), fates, retries);
            Within(SymbolSeries(StoredBy(arrived))(symbol), MAX_MOVE)
  {
    var forwarded := Forwarded(nodeId, Load([], []), ops);
    var arrived := Arrived(forwarded, fates, retries);
    DeliveredRoutesRepeat(forwarded, fates, retries);
    RepeatsForSymbol(forwarded, arrived, symbol);
    SimulatedPricesArrive(nodeId, ops, symbol);
    RepeatsStayWithin(EventPrices(forwarded, symbol), EventPrices(arrived, symbol), MAX_MOVE);
    StoredPrices(arrived, symbol);
  }

  /** Repeats of a symbol's events after its first leave its drawdown and its total growth as they would have been. */
  lemma RedeliveryKeepsDrawdown(once: seq<MarketEvent>, arrived: seq<MarketEvent>, portfolio: Portfolio, symbol: PyStr,
                                id: PyStr, asOf: PyStr, sigma: real, root252: real)
    requires HoldsOnly(portfolio, symbol) && AllPositive(EventPrices(once, symbol))
    requires RepeatsAfterFirst(EventPrices(once, symbol), EventPrices(arrived, symbol))
    ensures var r := RiskOf(StoredBy(once), Some(portfolio), id, asOf, sigma, root252);
            var q := RiskOf(StoredBy(arrived), Some(portfolio), id, asOf, sigma, root252);
            && r.Computed? && q.Computed? && q.snapshot.maxDrawdown == r.snapshot.maxDrawdown
            && Growth(SymbolSeries(StoredBy(arrived))(symbol)) == Growth(SymbolSeries(StoredBy(once))(symbol))
  {
    StoredPrices(once, symbol);
    StoredPrices(arrived, symbol);
    RepeatsAfterFirstKeepDrawdown(EventPrices(once, symbol), EventPrices(arrived, symbol));
    RiskOfOneSymbol(StoredBy(once), portfolio, symbol, id, asOf, sigma, root252);
    RiskOfOneSymbol(StoredBy(arrived), portfolio, symbol, id, asOf, sigma, root252);
  }

  lemma SnapshotRange(rs: seq<real>, id: PyStr, portfolioId: PyStr, asOf: PyStr, sigma: real, root252: real)
    requires Within(rs, MAX_MOVE) && !HasZeroPeak(Curve(rs)) && -1.0 < Drawdown(Curve(rs)) <= 0.0
    ensures var s := SnapshotOf(rs, id, portfolioId, asOf, sigma, root252);
            -1.0 <= s.maxDrawdown <= 0.0 && -MAX_MOVE <= s.valueAtRisk95 <= MAX_MOVE
  {
    var v := HistoricalVar(rs, CONFIDENCE);
    if rs != [] {
      VarIsOrderStatistic(rs, CONFIDENCE);
    }
    assert -MAX_MOVE <= v <= MAX_MOVE;
    RoundWithin(v, -MAX_MOVE, MAX_MOVE);
    RoundWithin(Drawdown(Curve(rs)), -1.0, 0.0);
  }

  lemma RoundWithin(x: real, low: real, high: real)
    requires low <= x <= high && OnGrid(low) && OnGrid(high)
    ensures low <= Round6(x) <= high
  {
    Round6IsMonotone(low, x);
    Round6IsMonotone(x, high);
    Round6KeepsGrid(low);
    Round6KeepsGrid(high);
  }
}
