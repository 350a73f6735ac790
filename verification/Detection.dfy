/** From the simulator through ingestion to the anomaly service: injected anomalies are found. */
module Detection {
  import opened PyText
  import opened Numbers
  import opened Schemas
  import opened RiskMath
  import opened Ingestion
  import opened RiskService
  import opened CrossService
  import opened Simulator
  import opened AnomalyMath
  import AnomalyService

  /** A bound on the attached price moves of ordinary messages. */
  const ORDINARY_MOVE := 0.00705

  // ----- what the moves look like ----------------------------------------------------

  lemma RoundWithin(x: real, bound: real)
    requires -bound <= x <= bound && OnGrid(bound) && OnGrid(-bound)
    ensures Abs(Round6(x)) <= bound
  {
    Round6IsMonotone(-bound, x);
    Round6IsMonotone(x, bound);
    Round6KeepsGrid(bound);
    Round6KeepsGrid(-bound);
  }

  lemma RoundBeyond(x: real, bound: real)
    requires (x >= bound || x <= -bound) && OnGrid(bound) && OnGrid(-bound) && bound >= 0.0
    ensures Abs(Round6(x)) >= bound
  {
    Round6KeepsGrid(bound);
    Round6KeepsGrid(-bound);
    if x >= bound {
      Round6IsMonotone(bound, x);
    } else {
      Round6IsMonotone(x, -bound);
    }
  }

  lemma OrdinaryMoveIsSmall(price: real, shift: real)
    requires Quotable(price) && -0.007 <= shift <= 0.007
    ensures Abs(Round6(RelativeMove(Some(price), NextPrice(price, shift)))) <= ORDINARY_MOVE
  {
    MoveWithin(price, shift, 0.007);
    RoundWithin((NextPrice(price, shift) - price) / price, ORDINARY_MOVE);
  }

  /** A bound from below on a quotient, on either side of zero. */
  lemma QuotientBeyond(y: real, x: real, bound: real)
    requires x > 0.0
    ensures y >= bound * x ==> y / x >= bound
    ensures y <= -(bound * x) ==> y / x <= -bound
  {
    var q := y / x;
    assert q * x == y;
    assert (q - bound) * x == y - bound * x && (q + bound) * x == y + bound * x;
    Signs(q - bound, x);
    Signs(q + bound, x);
  }

  lemma InjectedMoveIsLarge(price: real, shift: real)
    requires Quotable(price) && (0.073 <= shift <= 0.087 || -0.087 <= shift <= -0.073) && OffFloor(price, shift)
    ensures Abs(Round6(RelativeMove(Some(price), NextPrice(price, shift)))) >= INJECTED_MOVE
  {
    var y := NextPrice(price, shift) - price;
    Round6IsClose(Moved(price, shift));
    assert price * (1.0 + shift) == price + shift * price;
    MoveBeyond(price, shift, y);
    QuotientBeyond(y, price, INJECTED_MOVE);
    RoundBeyond(y / price, INJECTED_MOVE);
  }

  lemma InjectedVolumeIsLarge(volume: real, shift: real)
    requires volume >= 1.0 && shift >= 0.33
    ensures Round6(RelativeMove(Some(volume), NextVolume(volume, shift))) >= 0.32
  {
    var y := NextVolume(volume, shift) - volume;
    VolumeGrows(volume, shift);
    QuotientBeyond(y, volume, 0.32);
    Round6IsMonotone(0.32, y / volume);
    Round6KeepsGrid(0.32);
  }

  // ----- the baseline of small moves ---------------------------------------------------

  predicate Small(xs: seq<real>, bound: real) {
    forall i :: 0 <= i < |xs| ==> 0.0 <= xs[i] <= bound
  }

  lemma {:induction false} SumOfSmall(f: real -> real, xs: seq<real>, low: real, high: real)
    requires forall i :: 0 <= i < |xs| ==> low <= f(xs[i]) <= high
    ensures low * |xs| as real <= Sum(f, xs) <= high * |xs| as real
  {
    if xs != [] {
      SumOfSmall(f, xs[1..], low, high);
      assert low * |xs| as real == low + low * |xs[1..]| as real;
      assert high * |xs| as real == high + high * |xs[1..]| as real;
    }
  }

  lemma QuotientBetween(total: real, n: real, low: real, high: real)
    requires n > 0.0 && low * n <= total <= high * n
    ensures low <= total / n <= high
  {
    var q := total / n;
    assert q * n == total;
    assert (q - low) * n == q * n - low * n && (high - q) * n == high * n - q * n;
    Signs(q - low, n);
    Signs(high - q, n);
  }

  lemma MeanWithin(f: real -> real, xs: seq<real>, low: real, high: real)
    requires xs != [] && forall i :: 0 <= i < |xs| ==> low <= f(xs[i]) <= high
    ensures low <= Sum(f, xs) / |xs| as real <= high
  {
    SumOfSmall(f, xs, low, high);
    QuotientBetween(Sum(f, xs), |xs| as real, low, high);
  }

  lemma SquareWithin(x: real, bound: real)
    requires -bound <= x <= bound
    ensures 0.0 <= Square(x) <= Square(bound)
  {
    SquareIsNotNegative(x);
    ProductOfPositives(bound - x, bound + x);
    assert (bound - x) * (bound + x) == bound * bound - x * x;
  }

  /** The baseline of moves within a bound is at most three times the bound. */
  lemma BaselineOfSmall(xs: seq<real>, sigma: real, bound: real)
    requires xs != [] && Small(xs, bound) && bound >= 0.0 && IsPstdev(xs, sigma)
    ensures Baseline(xs, sigma) <= 3.0 * bound
  {
    MeanWithin(IDENTITY, xs, 0.0, bound);
    var m := Mean(xs);
    forall i | 0 <= i < |xs|
      ensures 0.0 <= SquareAbout(m)(xs[i]) <= Square(bound)
    {
      SquareWithin(xs[i] - m, bound);
    }
    MeanWithin(SquareAbout(m), xs, 0.0, Square(bound));
    if sigma > bound {
      SquareGrows(bound, sigma);
    }
  }

  // ----- detection -------------------------------------------------------------------

  /** Every price move of the window is one of ordinary messages. */
  predicate OrdinaryWindow(window: seq<Features>) {
    forall i :: 0 <= i < |window| ==> Abs(window[i].priceChange) <= ORDINARY_MOVE
  }

  /** The scale that a window of ordinary moves gives the price score. */
  lemma OrdinaryScale(window: seq<Features>, sigma: real)
    requires window != [] && OrdinaryWindow(window) && IsPstdev(PriceMoves(window), sigma)
    ensures Baseline(PriceMoves(window), sigma) <= 0.02115
  {
    forall i | 0 <= i < |window|
      ensures 0.0 <= PriceMoves(window)[i] <= ORDINARY_MOVE
    {
      MapAt(PRICE_MOVE, window, i);
    }
    BaselineOfSmall(PriceMoves(window), sigma, ORDINARY_MOVE);
  }

  lemma LargeOverSmall(move: real, scale: real)
    requires move >= INJECTED_MOVE && 0.0 < scale <= 0.02115
    ensures 0.65 * (move / scale) >= 1.0
  {
    QuotientBeyond(move, scale, 2.0);
  }

  /** Against ordinary price moves an injected one has the full score; against no sample at all, with its volume. */
  lemma InjectedScoreIsFull(f: Features, window: seq<Features>, priceSigma: real, volumeSigma: real)
    requires Abs(f.priceChange) >= INJECTED_MOVE && f.volumeChange >= 0.32 && OrdinaryWindow(window)
    requires window != [] ==> IsPstdev(PriceMoves(window), priceSigma)
    ensures RuleScore(f, window, priceSigma, volumeSigma) == 1.0
  {
    if window != [] {
      OrdinaryScale(window, priceSigma);
      var scale := Max(Baseline(PriceMoves(window), priceSigma), 0.01);
      LargeOverSmall(Abs(f.priceChange), scale);
      QuotientIsMonotone(0.0, Abs(f.volumeChange), Max(Baseline(VolumeMoves(window), volumeSigma), 0.02));
    }
  }

  /** One symbol's messages: quotes of the simulator, ordinary up to the last. */
  ghost predicate OrdinaryUntilLast(messages: seq<SensorMessage>) {
    && messages != [] && Quotable(messages[0].price) && messages[0].volume >= 1.0
    && forall k :: 1 <= k < |messages| - 1 ==> OrdinaryAt(messages, k)
  }

  ghost predicate OrdinaryAt(messages: seq<SensorMessage>, k: nat)
    requires 1 <= k < |messages|
  {
    exists draw :: InRange(draw) && Follows(messages[k - 1], messages[k], draw, false)
  }

  lemma {:induction false} OrdinaryQuote(messages: seq<SensorMessage>, k: nat)
    requires OrdinaryUntilLast(messages) && k < |messages| - 1
    ensures Quotable(messages[k].price) && messages[k].volume >= 1.0
  {
    if k > 0 {
      assert OrdinaryAt(messages, k);
      var draw :| InRange(draw) && Follows(messages[k - 1], messages[k], draw, false);
      NextPriceIsQuotable(messages[k - 1].price, PriceShift(draw, false));
      VolumeAtLeastOne(messages[k - 1].volume, VolumeShift(draw, false));
    }
  }

  lemma OrdinaryEventIsSmall(messages: seq<SensorMessage>, k: nat, e: MarketEvent)
    requires OrdinaryUntilLast(messages) && k < |messages| - 1 && MadeAt(e, messages, k)
    ensures Abs(AnomalyService.FeaturesOf(e).priceChange) <= ORDINARY_MOVE
  {
    if k > 0 {
      assert OrdinaryAt(messages, k);
      var draw :| InRange(draw) && Follows(messages[k - 1], messages[k], draw, false);
      OrdinaryQuote(messages, k - 1);
      OrdinaryMoveIsSmall(messages[k - 1].price, draw.price);
    }
  }

  /** The window holds samples of these events, in whatever order and number. */
  ghost predicate SamplesOf(window: seq<Features>, events: seq<MarketEvent>) {
    forall i :: 0 <= i < |window| ==> IsSample(window[i], events)
  }

  ghost predicate IsSample(f: Features, events: seq<MarketEvent>) {
    exists k :: 0 <= k < |events| && f == AnomalyService.FeaturesOf(events[k])
  }

  lemma SamplesAreOrdinary(window: seq<Features>, events: seq<MarketEvent>, messages: seq<SensorMessage>)
    requires OrdinaryUntilLast(messages) && Made(events, messages)
    requires SamplesOf(window, events[..|events| - 1])
    ensures OrdinaryWindow(window)
  {
    var front := events[..|events| - 1];
    forall i | 0 <= i < |window|
      ensures Abs(window[i].priceChange) <= ORDINARY_MOVE
    {
      assert IsSample(window[i], front);
      var k :| 0 <= k < |front| && window[i] == AnomalyService.FeaturesOf(front[k]);
      assert front[k] == events[k];
      assert MadeAt(events[k], messages, k);
      OrdinaryEventIsSmall(messages, k, events[k]);
    }
  }

  lemma InjectedEventIsLarge(prev: SensorMessage, next: SensorMessage, draw: Draw, nodeId: PyStr, id: PyStr, at: PyStr)
    requires Quotable(prev.price) && prev.volume >= 1.0 && InRange(draw) && Follows(prev, next, draw, true)
    requires OffFloor(prev.price, PriceShift(draw, true))
    ensures var f := AnomalyService.FeaturesOf(Normalized(nodeId, next, Some(prev), id, at));
            Abs(f.priceChange) >= INJECTED_MOVE && f.volumeChange >= 0.32
  {
    InjectedMoveIsLarge(prev.price, PriceShift(draw, true));
    InjectedVolumeIsLarge(prev.volume, VolumeShift(draw, true));
  }

  lemma LastEventIsLarge(messages: seq<SensorMessage>, events: seq<MarketEvent>, draw: Draw)
    requires |messages| >= 2 && OrdinaryUntilLast(messages) && Made(events, messages) && InRange(draw)
    requires var n := |messages| - 1;
             Follows(messages[n - 1], messages[n], draw, true) && OffFloor(messages[n - 1].price, PriceShift(draw, true))
    ensures var f := AnomalyService.FeaturesOf(events[|events| - 1]);
            Abs(f.priceChange) >= INJECTED_MOVE && f.volumeChange >= 0.32
  {
    var n := |messages| - 1;
    var e := events[n];
    OrdinaryQuote(messages, n - 1);
    assert MadeAt(e, messages, n);
    InjectedEventIsLarge(messages[n - 1], messages[n], draw, e.source, e.eventId, e.ingestedAt);
  }

  /** A critical alert of full score. */
  predicate IsCriticalAlert(r: Option<AnomalyService.Alert>) {
    r.Some? && r.value.severity == AnomalyService.Critical && r.value.score == 1.0
  }

  lemma FullScoreAlerts(e: MarketEvent, window: seq<Features>, threshold: real, priceSigma: real, volumeSigma: real,
                        forest: Option<real>, id: PyStr, at: PyStr)
    requires AnomalyService.RuleScoreOf(e, window, priceSigma, volumeSigma) == 1.0 && threshold <= 1.0
    ensures IsCriticalAlert(AnomalyService.AlertFor(e, window, threshold, priceSigma, volumeSigma, forest, id, at))
  {
    AnomalyService.AlertIffScoreReaches(e, window, threshold, priceSigma, volumeSigma, forest, id, at);
  }

  /** The last message is an injected anomaly that the price floor does not hold. */
  predicate InjectedLast(messages: seq<SensorMessage>, draw: Draw)
    requires |messages| >= 2
  {
    var prev, last := messages[|messages| - 2], messages[|messages| - 1];
    InRange(draw) && Follows(prev, last, draw, true) && OffFloor(prev.price, PriceShift(draw, true))
  }

  lemma LastIsFlagged(messages: seq<SensorMessage>, events: seq<MarketEvent>, draw: Draw, window: seq<Features>,
                      threshold: real, priceSigma: real, volumeSigma: real, forest: Option<real>, id: PyStr, at: PyStr)
    requires |messages| >= 2 && OrdinaryUntilLast(messages) && InjectedLast(messages, draw) && Made(events, messages)
    requires SamplesOf(window, events[..|events| - 1])
    requires window != [] ==> IsPstdev(PriceMoves(window), priceSigma)
    requires threshold <= 1.0
    ensures IsCriticalAlert(AnomalyService.AlertFor(events[|events| - 1], window, threshold, priceSigma, volumeSigma,
                                                    forest, id, at))
  {
    SamplesAreOrdinary(window, events, messages);
    LastEventIsLarge(messages, events, draw);
    InjectedScoreIsFull(AnomalyService.FeaturesOf(events[|events| - 1]), window, priceSigma, volumeSigma);
    FullScoreAlerts(events[|events| - 1], window, threshold, priceSigma, volumeSigma, forest, id, at);
  }

  /** The events that ingestion, started afresh, forwards for a symbol. */
  function EventsFor(nodeId: PyStr, ops: seq<Op>, symbol: PyStr): seq<MarketEvent> {
    ForSymbol(Forwarded(nodeId, Load([], []), ops), symbol)
  }

  /**
   After ordinary messages of its symbol, an injected anomaly that the price floor
   does not hold raises a critical alert, whatever the forest says, whatever other
   symbols and restarts do to ingestion, and whichever samples the window has kept.
   */
  lemma InjectedAnomalyIsFlagged(nodeId: PyStr, ops: seq<Op>, symbol: PyStr, messages: seq<SensorMessage>,
                                 events: seq<MarketEvent>, draw: Draw, window: seq<Features>, threshold: real,
                                 priceSigma: real, volumeSigma: real, forest: Option<real>, id: PyStr, at: PyStr)
    requires messages == SymbolMessages(ops, symbol) && events == EventsFor(nodeId, ops, symbol)
    requires |messages| >= 2 && OrdinaryUntilLast(messages) && InjectedLast(messages, draw)
    requires events != [] && SamplesOf(window, events[..|events| - 1])
    requires window != [] ==> IsPstdev(PriceMoves(window), priceSigma)
    requires threshold <= 1.0
    ensures IsCriticalAlert(AnomalyService.AlertFor(events[|events| - 1], window, threshold, priceSigma, volumeSigma,
                                                    forest, id, at))
  {
    assert Made(events, messages) by {
      ForwardedAreMade(nodeId, ops, symbol);
    }
    LastIsFlagged(messages, events, draw, window, threshold, priceSigma, volumeSigma, forest, id, at);
  }

  // ----- the messages of the simulator's cycles ----------------------------------------

  /** One symbol's messages among all. */
  function OfSymbol(messages: seq<SensorMessage>, symbol: PyStr): seq<SensorMessage> {
    if messages == [] then []
    else
      var last := messages[|messages| - 1];
      OfSymbol(messages[..|messages| - 1], symbol) + if last.symbol == symbol then [last] else []
  }

  /** Every message that ingestion was sent, in order. */
  function MessagesOf(ops: seq<Op>): seq<SensorMessage> {
    if ops == [] then []
    else
      var op := ops[|ops| - 1];
      MessagesOf(ops[..|ops| - 1]) + if op.Ingest? then [op.message] else []
  }

  lemma {:induction false} SymbolMessagesAreOfSymbol(ops: seq<Op>, symbol: PyStr)
    ensures SymbolMessages(ops, symbol) == OfSymbol(MessagesOf(ops), symbol)
  {
    if ops != [] {
      var front, op := ops[..|ops| - 1], ops[|ops| - 1];
      SymbolMessagesAreOfSymbol(front, symbol);
      if op.Ingest? {
        OfSymbolOneMore(MessagesOf(front), op.message, symbol);
      } else {
        assert MessagesOf(ops) == MessagesOf(front);
      }
    }
  }

  lemma OfSymbolOneMore(messages: seq<SensorMessage>, m: SensorMessage, symbol: PyStr)
    ensures OfSymbol(messages + [m], symbol) == OfSymbol(messages, symbol) + if m.symbol == symbol then [m] else []
  {
    assert (messages + [m])[..|messages|] == messages;
  }

  /** No message up to n is an anomaly of this symbol. */
  predicate QuietFor(messages: seq<SensorMessage>, symbol: PyStr, anomalies: nat -> bool, n: nat)
    requires n <= |messages|
  {
    forall k :: 0 <= k < n && messages[k].symbol == symbol ==> !anomalies(k)
  }

  /** Cycle upon cycle: each message follows the quote that those before it leave. */
  ghost predicate LongChain(quotes: map<PyStr, Quote>, messages: seq<SensorMessage>, draws: nat -> Draw, anomalies: nat -> bool) {
    forall k :: 0 <= k < |messages| ==> InRange(draws(k)) && ChainedAt(quotes, messages, k, draws(k), anomalies(k))
  }

  lemma {:induction false} QuoteAfterIsLast(quotes: map<PyStr, Quote>, messages: seq<SensorMessage>, symbol: PyStr)
    requires symbol in quotes
    ensures var own := OfSymbol(messages, symbol);
            QuoteAfter(quotes, messages, symbol) == if own == [] then quotes[symbol] else QuoteOf(own[|own| - 1])
  {
    if messages != [] {
      QuoteAfterIsLast(quotes, messages[..|messages| - 1], symbol);
    }
  }

  /** All of a symbol's messages are ordinary. */
  ghost predicate AllOrdinary(own: seq<SensorMessage>) {
    && (own != [] ==> Quotable(own[0].price) && own[0].volume >= 1.0)
    && forall k :: 1 <= k < |own| ==> OrdinaryAt(own, k)
  }

  lemma OrdinaryOneMore(own: seq<SensorMessage>, m: SensorMessage)
    requires AllOrdinary(own)
    requires own == [] ==> Quotable(m.price) && m.volume >= 1.0
    requires own != [] ==> exists draw :: InRange(draw) && Follows(own[|own| - 1], m, draw, false)
    ensures AllOrdinary(own + [m])
  {
    forall k | 1 <= k < |own + [m]|
      ensures OrdinaryAt(own + [m], k)
    {
      if k < |own| {
        assert OrdinaryAt(own, k);
      }
    }
  }

  lemma {:induction false} QuietChainIsOrdinary(quotes: map<PyStr, Quote>, messages: seq<SensorMessage>, draws: nat -> Draw,
                                                anomalies: nat -> bool, symbol: PyStr)
    requires LongChain(quotes, messages, draws, anomalies) && QuietFor(messages, symbol, anomalies, |messages|)
    ensures AllOrdinary(OfSymbol(messages, symbol))
  {
    if messages != [] {
      var n := |messages| - 1;
      var front, m := messages[..n], messages[n];
      FrontOfChain(quotes, messages, draws, anomalies);
      QuietChainIsOrdinary(quotes, front, draws, anomalies, symbol);
      if m.symbol == symbol {
        assert ChainedAt(quotes, messages, n, draws(n), anomalies(n));
        var own := OfSymbol(front, symbol);
        QuoteAfterIsLast(quotes, front, symbol);
        NextPriceIsQuotable(QuoteAfter(quotes, front, symbol).price, PriceShift(draws(n), false));
        VolumeAtLeastOne(QuoteAfter(quotes, front, symbol).volume, VolumeShift(draws(n), false));
        if own != [] {
          assert Follows(own[|own| - 1], m, draws(n), false);
        }
        OrdinaryOneMore(own, m);
        assert OfSymbol(messages, symbol) == own + [m];
      } else {
        assert OfSymbol(messages, symbol) == OfSymbol(front, symbol);
      }
    }
  }

  lemma FrontOfChain(quotes: map<PyStr, Quote>, messages: seq<SensorMessage>, draws: nat -> Draw, anomalies: nat -> bool)
    requires messages != [] && LongChain(quotes, messages, draws, anomalies)
    ensures LongChain(quotes, messages[..|messages| - 1], draws, anomalies)
  {
    var front := messages[..|messages| - 1];
    forall k | 0 <= k < |front|
      ensures InRange(draws(k)) && ChainedAt(quotes, front, k, draws(k), anomalies(k))
    {
      assert front[..k] == messages[..k];
      assert ChainedAt(quotes, messages, k, draws(k), anomalies(k));
    }
  }

  lemma OrdinaryThenLast(own: seq<SensorMessage>, m: SensorMessage)
    requires AllOrdinary(own) && own != []
    ensures OrdinaryUntilLast(own + [m])
  {
    forall k | 1 <= k < |own + [m]| - 1
      ensures OrdinaryAt(own + [m], k)
    {
      assert OrdinaryAt(own, k);
    }
  }

  /** The last message is its symbol's first anomaly, after an ordinary one, off the price floor. */
  ghost predicate FirstAnomalyLast(quotes: map<PyStr, Quote>, messages: seq<SensorMessage>, draws: nat -> Draw,
                                   anomalies: nat -> bool)
  {
    && messages != [] && LongChain(quotes, messages, draws, anomalies)
    && (var n, symbol := |messages| - 1, messages[|messages| - 1].symbol;
        && anomalies(n) && QuietFor(messages, symbol, anomalies, n) && symbol in quotes
        && OfSymbol(messages[..n], symbol) != []
        && OffFloor(QuoteAfter(quotes, messages[..n], symbol).price, PriceShift(draws(n), true)))
  }

  lemma LastOfChain(quotes: map<PyStr, Quote>, messages: seq<SensorMessage>, draws: nat -> Draw, anomalies: nat -> bool)
    requires FirstAnomalyLast(quotes, messages, draws, anomalies)
    ensures var own := OfSymbol(messages, messages[|messages| - 1].symbol);
            |own| >= 2 && OrdinaryUntilLast(own) && InjectedLast(own, draws(|messages| - 1))
  {
    var n, m := |messages| - 1, messages[|messages| - 1];
    var front := messages[..n];
    var own := OfSymbol(front, m.symbol);
    FrontOfChain(quotes, messages, draws, anomalies);
    QuietChainIsOrdinary(quotes, front, draws, anomalies, m.symbol);
    QuoteAfterIsLast(quotes, front, m.symbol);
    assert ChainedAt(quotes, messages, n, draws(n), anomalies(n));
    OrdinaryThenLast(own, m);
    assert OfSymbol(messages, m.symbol) == own + [m];
  }

  /**
   The simulator's first anomaly for a symbol, after at least one ordinary message
   for it and off the price floor, is flagged: the messages of cycle after cycle
   are what the theorem asks for.
   */
  lemma SimulatedAnomalyIsFlagged(nodeId: PyStr, ops: seq<Op>, quotes: map<PyStr, Quote>, messages: seq<SensorMessage>,
                                  events: seq<MarketEvent>, draws: nat -> Draw, anomalies: nat -> bool,
                                  window: seq<Features>, threshold: real, priceSigma: real, volumeSigma: real,
                                  forest: Option<real>, id: PyStr, at: PyStr)
    requires messages == MessagesOf(ops) && FirstAnomalyLast(quotes, messages, draws, anomalies)
    requires events == EventsFor(nodeId, ops, messages[|messages| - 1].symbol)
    requires events != [] && SamplesOf(window, events[..|events| - 1])
    requires window != [] ==> IsPstdev(PriceMoves(window), priceSigma)
    requires threshold <= 1.0
    ensures IsCriticalAlert(AnomalyService.AlertFor(events[|events| - 1], window, threshold, priceSigma, volumeSigma,
                                                    forest, id, at))
  {
    var symbol := messages[|messages| - 1].symbol;
    var own := OfSymbol(messages, symbol);
    LastOfChain(quotes, messages, draws, anomalies);
    assert own == SymbolMessages(ops, symbol) by {
      SymbolMessagesAreOfSymbol(ops, symbol);
    }
    InjectedAnomalyIsFlagged(nodeId, ops, symbol, own, events, draws(|messages| - 1), window,
                             threshold, priceSigma, volumeSigma, forest, id, at);
  }

  /** A cycle's chain from the quotes that earlier messages have left goes on with theirs. */
  lemma CycleGoesOn(quotes: map<PyStr, Quote>, earlier: seq<SensorMessage>, state: map<PyStr, Quote>,
                    cycle: seq<SensorMessage>, k: nat, draw: Draw, anomaly: bool)
    requires QuotesAfter(quotes, earlier, state) && k < |cycle| && ChainedAt(state, cycle, k, draw, anomaly)
    ensures ChainedAt(quotes, earlier + cycle, |earlier| + k, draw, anomaly)
  {
    assert (earlier + cycle)[..|earlier| + k] == earlier + cycle[..k];
    QuoteAfterBoth(quotes, earlier, state, cycle[..k], cycle[k].symbol);
  }

  lemma {:induction false} QuoteAfterBoth(quotes: map<PyStr, Quote>, earlier: seq<SensorMessage>, state: map<PyStr, Quote>,
                                          later: seq<SensorMessage>, symbol: PyStr)
    requires QuotesAfter(quotes, earlier, state) && symbol in quotes
    ensures QuoteAfter(quotes, earlier + later, symbol) == QuoteAfter(state, later, symbol)
    decreases |later|
  {
    if later == [] {
      assert earlier + later == earlier;
    } else {
      var n := |later| - 1;
      assert (earlier + later)[..|earlier| + n] == earlier + later[..n];
      QuoteAfterBoth(quotes, earlier, state, later[..n], symbol);
    }
  }

  // ----- where it can be missed --------------------------------------------------------

  /** A symbol's first message has no moves, so the rule is silent about it, whatever was injected. */
  lemma FirstMessageScoresZero(nodeId: PyStr, m: SensorMessage, window: seq<Features>, priceSigma: real, volumeSigma: real,
                               id: PyStr, at: PyStr)
    ensures AnomalyService.RuleScoreOf(Normalized(nodeId, m, None, id, at), window, priceSigma, volumeSigma) == 0.0
  {
  }

  /**
   A price at the floor of one cent cannot fall. Injected there, an anomaly shows in
   the volume only, and two ordinary samples are enough to hide it.
   */
  lemma FloorCanHideInjected(nodeId: PyStr, prev: SensorMessage, next: SensorMessage, window: seq<Features>,
                             id: PyStr, at: PyStr)
    requires prev.price == 0.01 && prev.volume == 100.0 && Follows(prev, next, Draw(0.0, -0.12, false), true)
    requires window == [Features(0.0, 0.12, 0.01, 100.0), Features(0.0, 0.0, 0.01, 100.0)]
    ensures OrdinaryWindow(window) && IsPstdev(PriceMoves(window), 0.0) && IsPstdev(VolumeMoves(window), 0.06)
    ensures AnomalyService.RuleScoreOf(Normalized(nodeId, next, Some(prev), id, at), window, 0.0, 0.06) < 0.65
  {
    assert next.price == 0.01 && next.volume == 133.0;
    MovesOfTwo(window);
    StatisticsOfTwo(0.0, 0.0);
    StatisticsOfTwo(0.12, 0.0);
    assert Square(0.06) == 0.0036;
    assert 0.33 / 0.18 < 1.84;
  }

  lemma MovesOfTwo(window: seq<Features>)
    requires |window| == 2
    ensures PriceMoves(window) == [Abs(window[0].priceChange), Abs(window[1].priceChange)]
    ensures VolumeMoves(window) == [Abs(window[0].volumeChange), Abs(window[1].volumeChange)]
  {
    MapAt(PRICE_MOVE, window, 0);
    MapAt(PRICE_MOVE, window, 1);
    MapAt(VOLUME_MOVE, window, 0);
    MapAt(VOLUME_MOVE, window, 1);
  }
}
