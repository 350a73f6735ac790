/** Ingestion and risk agree on how far each price moved. */
module CrossService {
  import opened PyText
  import opened Numbers
  import opened RiskMath
  import opened Schemas
  import opened Ingestion
  import opened RiskService

  /** The events that ingestion forwards in the course of a run. */
  function Forwarded(nodeId: PyStr, f: Feed, ops: seq<Op>): seq<MarketEvent>
    decreases |ops|
  {
    if ops == [] then []
    else
      var front, op := ops[..|ops| - 1], ops[|ops| - 1];
      Forwarded(nodeId, f, front) +
      match op
      case Ingest(m, id, at) => [Normalized(nodeId, m, LastMessage(Run(nodeId, f, front).last, m.symbol), id, at)]
      case _ => []
  }

  /** One symbol's messages, in order. */
  function SymbolMessages(ops: seq<Op>, symbol: PyStr): seq<SensorMessage> {
    if ops == [] then []
    else
      var op := ops[|ops| - 1];
      SymbolMessages(ops[..|ops| - 1], symbol) + if op.Ingest? && op.message.symbol == symbol then [op.message] else []
  }

  /** Their prices, as the sensor sent them. */
  function SymbolPrices(ops: seq<Op>, symbol: PyStr): (r: seq<real>)
    ensures |r| == |SymbolMessages(ops, symbol)|
  {
    var messages := SymbolMessages(ops, symbol);
    seq(|messages|, i requires 0 <= i < |messages| => messages[i].price)
  }

  function Before(messages: seq<SensorMessage>, k: nat): Option<SensorMessage>
    requires k < |messages|
  {
    if k == 0 then None else Some(messages[k - 1])
  }

  /** Each event is made of its message and the message before. */
  predicate Made(events: seq<MarketEvent>, messages: seq<SensorMessage>) {
    |events| == |messages| && forall k :: 0 <= k < |events| ==> MadeAt(events[k], messages, k)
  }

  predicate MadeAt(e: MarketEvent, messages: seq<SensorMessage>, k: nat)
    requires k < |messages|
  {
    e == Normalized(e.source, messages[k], Before(messages, k), e.eventId, e.ingestedAt)
  }

  /** The index holds the last message for the symbol. */
  predicate Linked(f: Feed, messages: seq<SensorMessage>, symbol: PyStr) {
    LastMessage(f.last, symbol) == if messages == [] then None else Some(messages[|messages| - 1])
  }

  function RoundAll(xs: seq<real>): (r: seq<real>)
    ensures |r| == |xs|
  {
    seq(|xs|, i requires 0 <= i < |xs| => Round6(xs[i]))
  }

  /** Each event carries the rounded price, and the rounded move from the price sent before it. */
  predicate Carries(events: seq<MarketEvent>, prices: seq<real>) {
    |events| == |prices| && forall k :: 0 <= k < |events| ==> CarriesAt(events[k], prices, k)
  }

  predicate CarriesAt(e: MarketEvent, prices: seq<real>, k: nat)
    requires k < |prices|
  {
    && e.price == Round6(prices[k]) && PRICE_CHANGE in e.window
    && e.window[PRICE_CHANGE] == Round6(RelativeMove(if k == 0 then None else Some(prices[k - 1]), prices[k]))
  }

  /** The moves that ingestion attached, dropping events whose predecessor was sent with price zero. */
  function AttachedMoves(events: seq<MarketEvent>, prices: seq<real>): seq<real>
    requires Carries(events, prices)
  {
    if |events| < 2 then []
    else
      var n := |events| - 1;
      AttachedMoves(events[..n], prices[..n]) + if prices[n - 1] != 0.0 then [events[n].window[PRICE_CHANGE]] else []
  }

  lemma SymbolsForwarded(nodeId: PyStr, f: Feed, ops: seq<Op>, symbol: PyStr)
    requires ops != []
    ensures var front, op := ops[..|ops| - 1], ops[|ops| - 1];
            ForSymbol(Forwarded(nodeId, f, ops), symbol) == ForSymbol(Forwarded(nodeId, f, front), symbol) +
            (if op.Ingest? && op.message.symbol == symbol
             then [Normalized(nodeId, op.message, LastMessage(Run(nodeId, f, front).last, symbol), op.id, op.at)] else [])
  {
    var front, op := ops[..|ops| - 1], ops[|ops| - 1];
    var before := Forwarded(nodeId, f, front);
    if op.Ingest? {
      var e := Normalized(nodeId, op.message, LastMessage(Run(nodeId, f, front).last, op.message.symbol), op.id, op.at);
      assert (before + [e])[..|before|] == before;
    } else {
      assert before + [] == before;
    }
  }

  /** Started afresh, ingestion makes each symbol's events of its messages, restarts and other symbols notwithstanding. */
  lemma {:induction false} ForwardedAreMade(nodeId: PyStr, ops: seq<Op>, symbol: PyStr)
    ensures var messages := SymbolMessages(ops, symbol);
            && Made(ForSymbol(Forwarded(nodeId, Load([], []), ops), symbol), messages)
            && Linked(Run(nodeId, Load([], []), ops), messages, symbol)
    decreases |ops|
  {
    var start := Load([], []);
    if ops != [] {
      var front, op := ops[..|ops| - 1], ops[|ops| - 1];
      ForwardedAreMade(nodeId, front, symbol);
      SymbolsForwarded(nodeId, start, ops, symbol);
      IndexEqualsScan(nodeId, [], [], front);
      var f := Run(nodeId, start, front);
      var events := ForSymbol(Forwarded(nodeId, start, front), symbol);
      if op.Ingest? && op.message.symbol == symbol {
        MadeOneMore(nodeId, f, events, SymbolMessages(front, symbol), op);
      } else {
        LinkKept(nodeId, f, SymbolMessages(front, symbol), op, symbol);
      }
    }
  }

  lemma LinkKept(nodeId: PyStr, f: Feed, messages: seq<SensorMessage>, op: Op, symbol: PyStr)
    requires Linked(f, messages, symbol) && Indexed(f) && !(op.Ingest? && op.message.symbol == symbol)
    ensures Linked(Apply(nodeId, f, op), messages, symbol)
  {
  }

  lemma MadeOneMore(nodeId: PyStr, f: Feed, events: seq<MarketEvent>, messages: seq<SensorMessage>, op: Op)
    requires op.Ingest? && Made(events, messages) && Linked(f, messages, op.message.symbol)
    ensures var e := Normalized(nodeId, op.message, LastMessage(f.last, op.message.symbol), op.id, op.at);
            && Made(events + [e], messages + [op.message])
            && Linked(Apply(nodeId, f, op), messages + [op.message], op.message.symbol)
  {
    var e := Normalized(nodeId, op.message, LastMessage(f.last, op.message.symbol), op.id, op.at);
    forall k | 0 <= k < |events + [e]|
      ensures MadeAt((events + [e])[k], messages + [op.message], k)
    {
      if k < |events| {
        assert MadeAt(events[k], messages, k);
      }
    }
  }

  /** So the events carry the rounded prices and the rounded moves between the prices sent. */
  lemma ForwardedCarries(nodeId: PyStr, ops: seq<Op>, symbol: PyStr)
    ensures Carries(ForSymbol(Forwarded(nodeId, Load([], []), ops), symbol), SymbolPrices(ops, symbol))
  {
    var events, messages := ForSymbol(Forwarded(nodeId, Load([], []), ops), symbol), SymbolMessages(ops, symbol);
    ForwardedAreMade(nodeId, ops, symbol);
    forall k | 0 <= k < |events|
      ensures CarriesAt(events[k], SymbolPrices(ops, symbol), k)
    {
      assert MadeAt(events[k], messages, k);
    }
  }

  lemma ReturnsOneMore(prices: seq<real>)
    requires |prices| >= 2
    ensures var n := |prices| - 1;
            Returns(prices) == Returns(prices[..n]) +
            (if prices[n - 1] != 0.0 then [RelativeMove(Some(prices[n - 1]), prices[n])] else [])
  {
  }

  lemma RoundAllAppend(xs: seq<real>, ys: seq<real>)
    ensures RoundAll(xs + ys) == RoundAll(xs) + RoundAll(ys)
  {
  }

  /** The attached moves are the rounded returns of the prices sent. */
  lemma {:induction false} AttachedAreRoundedReturns(events: seq<MarketEvent>, prices: seq<real>)
    requires Carries(events, prices)
    ensures AttachedMoves(events, prices) == RoundAll(Returns(prices))
  {
    if |events| >= 2 {
      var n := |events| - 1;
      AttachedAreRoundedReturns(events[..n], prices[..n]);
      ReturnsOneMore(prices);
      assert CarriesAt(events[n], prices, n);
      var last := if prices[n - 1] != 0.0 then [RelativeMove(Some(prices[n - 1]), prices[n])] else [];
      RoundAllAppend(Returns(prices[..n]), last);
      assert AttachedMoves(events, prices) == AttachedMoves(events[..n], prices[..n]) + RoundAll(last);
    }
  }

  /** Two series of the same length that differ by at most `eps` entry by entry. */
  predicate Close(a: seq<real>, b: seq<real>, eps: real) {
    |a| == |b| && forall k :: 0 <= k < |a| ==> Abs(a[k] - b[k]) <= eps
  }

  const HALF_UNIT := 0.0000005

  /** The returns of the rounded prices are the rounded returns, to half a unit in the sixth decimal. */
  predicate Agree(prices: seq<real>) {
    Close(Returns(RoundAll(prices)), RoundAll(Returns(prices)), HALF_UNIT)
  }

  /** The two services agree on a symbol's moves iff rounding its prices agrees with rounding its returns. */
  lemma ServicesAgreeIff(nodeId: PyStr, ops: seq<Op>, symbol: PyStr)
    ensures var events, prices := ForSymbol(Forwarded(nodeId, Load([], []), ops), symbol), SymbolPrices(ops, symbol);
            && Prices(events) == RoundAll(prices) && Carries(events, prices)
            && (Close(Returns(Prices(events)), AttachedMoves(events, prices), HALF_UNIT) <==> Agree(prices))
  {
    var events, prices := ForSymbol(Forwarded(nodeId, Load([], []), ops), symbol), SymbolPrices(ops, symbol);
    ForwardedCarries(nodeId, ops, symbol);
    forall k | 0 <= k < |events|
      ensures Prices(events)[k] == RoundAll(prices)[k]
    {
      assert CarriesAt(events[k], prices, k);
    }
    assert Prices(events) == RoundAll(prices);
    AttachedAreRoundedReturns(events, prices);
  }

  predicate AllOnGrid(prices: seq<real>) {
    forall i :: 0 <= i < |prices| ==> OnGrid(prices[i])
  }

  /** Rounding changes nothing iff every price is given to six decimals. */
  lemma RoundAllIsIdentityIff(prices: seq<real>)
    ensures RoundAll(prices) == prices <==> AllOnGrid(prices)
  {
    forall i | 0 <= i < |prices|
      ensures Round6(prices[i]) == prices[i] <==> OnGrid(prices[i])
    {
      OnGridIffRoundKeeps(prices[i]);
    }
    if RoundAll(prices) == prices {
      forall i | 0 <= i < |prices|
        ensures OnGrid(prices[i])
      {
        assert RoundAll(prices)[i] == prices[i];
      }
    }
  }

  lemma OnGridIffRoundKeeps(x: real)
    ensures Round6(x) == x <==> OnGrid(x)
  {
    Round6IsClose(x);
    if OnGrid(x) {
      Round6KeepsGrid(x);
    }
  }

  lemma GridAgrees(prices: seq<real>)
    requires AllOnGrid(prices)
    ensures Agree(prices)
  {
    RoundAllIsIdentityIff(prices);
    var rs := Returns(prices);
    forall k | 0 <= k < |rs|
      ensures Abs(rs[k] - RoundAll(rs)[k]) <= HALF_UNIT
    {
      Round6IsClose(rs[k]);
    }
  }

  /**
   If the risk peer gets each event once and in order, the returns it derives for
   a symbol are the moves that ingestion attached, to half a unit in the sixth
   decimal, for prices given to six decimals.
   */
  lemma ReturnsMatchAttachedMoves(nodeId: PyStr, ops: seq<Op>, symbol: PyStr)
    requires AllOnGrid(SymbolPrices(ops, symbol))
    ensures var events, prices := ForSymbol(Forwarded(nodeId, Load([], []), ops), symbol), SymbolPrices(ops, symbol);
            Carries(events, prices) && Close(Returns(Prices(events)), AttachedMoves(events, prices), HALF_UNIT)
  {
    ServicesAgreeIff(nodeId, ops, symbol);
    GridAgrees(SymbolPrices(ops, symbol));
  }

  // ----- the six decimals are needed -----------------------------------------------

  /** Whatever is sent around it, to six decimals, the two services agree. */
  ghost predicate NeverDisturbs(price: real) {
    forall before, after :: AllOnGrid(before) && AllOnGrid(after) ==> Agree(before + [price] + after)
  }

  lemma Inverses(p: real, r: real)
    requires p != 0.0 && r != 0.0 && p != r
    ensures 1.0 / r - 1.0 / p != 0.0
  {
    assert (1.0 / r) * r == 1.0 && (1.0 / p) * p == 1.0;
  }

  lemma QuotientByInverse(q: real, r: real)
    requires r != 0.0
    ensures (q - r) / r == q * (1.0 / r) - 1.0
  {
    RelativeChange(r, q);
    assert (1.0 / r) * r == 1.0;
    assert (q * (1.0 / r)) * r == q * ((1.0 / r) * r);
    QuotientIs(q, r, q * (1.0 / r));
  }

  /** A whole number that takes a slope, however small, beyond a millionth. */
  lemma BigEnough(d: real) returns (n: int)
    requires d != 0.0
    ensures Abs(n as real * d) > 0.000001
  {
    var step := 0.000001 / Abs(d);
    QuotientTimes(0.000001, Abs(d));
    n := step.Floor + 1;
    assert n as real > step;
    Beyond(n as real, step, Abs(d));
    AbsOfProduct(n as real, d);
  }

  lemma Beyond(m: real, step: real, d: real)
    requires m > step && d > 0.0
    ensures m * d > step * d
  {
    assert (m - step) * d == m * d - step * d;
    Signs(m - step, d);
  }

  lemma AbsOfProduct(m: real, d: real)
    requires m * Abs(d) > 0.0
    ensures Abs(m * d) == m * Abs(d)
  {
    assert m * -d == -(m * d);
  }

  lemma FarFromRounded(x: real, y: real)
    requires Abs(x - y) > 0.000001
    ensures Abs(x - Round6(y)) > HALF_UNIT
  {
    Round6IsClose(y);
  }

  lemma MovesDiffer(q: real, p: real, r: real)
    requires p != 0.0 && r != 0.0 && Abs(q * (1.0 / r - 1.0 / p)) > 0.000001
    ensures Abs((q - r) / r - Round6((q - p) / p)) > HALF_UNIT
  {
    var u, v := 1.0 / r, 1.0 / p;
    var x, y := (q - r) / r, (q - p) / p;
    QuotientByInverse(q, r);
    QuotientByInverse(q, p);
    assert x - y == q * u - q * v == q * (u - v);
    FarFromRounded(x, y);
  }

  /** Some whole price moves far enough from a price off the grid to show the difference. */
  lemma OffGridDisagrees(p: real) returns (q: real)
    requires !OnGrid(p) && p != 0.0 && Round6(p) != 0.0
    ensures OnGrid(q) && Abs((q - Round6(p)) / Round6(p) - Round6((q - p) / p)) > HALF_UNIT
  {
    var n := WholeBeyond(p, Round6(p)) by {
      OnGridIffRoundKeeps(p);
    }
    WholeIsOnGrid(n);
    q := n as real;
    MovesDiffer(q, p, Round6(p));
  }

  lemma WholeBeyond(p: real, r: real) returns (n: int)
    requires p != 0.0 && r != 0.0 && p != r
    ensures Abs(n as real * (1.0 / r - 1.0 / p)) > 0.000001
  {
    Inverses(p, r);
    n := BigEnough(1.0 / r - 1.0 / p);
  }

  lemma WholeIsOnGrid(n: int)
    ensures OnGrid(n as real)
  {
    FloorOfInt(n * 1000000);
    assert n as real * 1000000.0 == (n * 1000000) as real;
  }

  lemma ReturnsOfTwo(p: real, q: real)
    ensures Returns([p, q]) == if p == 0.0 then [] else [(q - p) / p]
  {
    assert [p, q][..1] == [p];
  }

  lemma TwoRounded(p: real, q: real)
    requires OnGrid(q)
    ensures RoundAll([p, q]) == [Round6(p), q]
  {
    OnGridIffRoundKeeps(q);
  }

  lemma LostReturnDisagrees(p: real, q: real)
    requires OnGrid(q) && p != 0.0 && Round6(p) == 0.0
    ensures !Agree([p, q])
  {
    TwoRounded(p, q);
    ReturnsOfTwo(p, q);
    ReturnsOfTwo(0.0, q);
  }

  lemma FarApartAt(a: seq<real>, b: seq<real>, k: nat, eps: real)
    requires k < |a| && k < |b| && Abs(a[k] - b[k]) > eps
    ensures !Close(a, b, eps)
  {
  }

  lemma FarReturnDisagrees(p: real, q: real)
    requires OnGrid(q) && p != 0.0 && Round6(p) != 0.0
    requires Abs((q - Round6(p)) / Round6(p) - Round6((q - p) / p)) > HALF_UNIT
    ensures !Agree([p, q])
  {
    var x, y := (q - Round6(p)) / Round6(p), (q - p) / p;
    FarApartAt([x], [Round6(y)], 0, HALF_UNIT);
    assert Returns(RoundAll([p, q])) == [x] by {
      TwoRounded(p, q);
      ReturnsOfTwo(Round6(p), q);
    }
    assert RoundAll(Returns([p, q])) == [Round6(y)] by {
      ReturnsOfTwo(p, q);
    }
  }

  /** A price is safe in every feed of prices to six decimals iff it is given to six decimals itself. */
  lemma NeverDisturbsIffOnGrid(price: real)
    ensures NeverDisturbs(price) <==> OnGrid(price)
  {
    if OnGrid(price) {
      forall before, after | AllOnGrid(before) && AllOnGrid(after)
        ensures Agree(before + [price] + after)
      {
        GridAgrees(before + [price] + after);
      }
    } else {
      assert price != 0.0 by {
        assert OnGrid(0.0);
      }
      var q := 1.0;
      WholeIsOnGrid(1);
      if Round6(price) == 0.0 {
        LostReturnDisagrees(price, q);
      } else {
        q := OffGridDisagrees(price);
        FarReturnDisagrees(price, q);
      }
      assert [] + [price] + [q] == [price, q];
      assert AllOnGrid([]) && AllOnGrid([q]);
    }
  }

  /** A price off the grid whose return is far from the attached move: 999999 against about 714285. */
  lemma OffGridPriceDisagrees()
    ensures Round6(0.0000014) == 0.000001 && !Agree([0.0000014, 1.0])
  {
    assert OnGrid(1.0) by {
      WholeIsOnGrid(1);
    }
    FarMoves();
    FarReturnDisagrees(0.0000014, 1.0);
  }

  lemma FarMoves()
    ensures Round6(0.0000014) == 0.000001
    ensures Abs((1.0 - 0.000001) / 0.000001 - Round6((1.0 - 0.0000014) / 0.0000014)) > HALF_UNIT
  {
    Round6IsClose((1.0 - 0.0000014) / 0.0000014);
  }

  /** A price below the grid is stored as zero, and the return after it is lost. */
  lemma OffGridPriceLosesReturn()
    ensures Returns(RoundAll([0.0000004, 1.0])) == [] && Returns([0.0000004, 1.0]) == [2499999.0]
    ensures !Agree([0.0000004, 1.0])
  {
    WholeIsOnGrid(1);
    assert Round6(0.0000004) == 0.0;
    TwoRounded(0.0000004, 1.0);
    ReturnsOfTwo(0.0, 1.0);
    ReturnsOfTwo(0.0000004, 1.0);
    assert (1.0 - 0.0000004) / 0.0000004 == 2499999.0;
    LostReturnDisagrees(0.0000004, 1.0);
  }
}
