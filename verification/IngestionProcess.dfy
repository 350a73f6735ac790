/**
 `ingest_message` under threads: the handlers of `aws_ingestion/main.py` run without
 a lock, so another request can come between any two changes of the shared lists.
 */
module IngestionProcess {
  import opened PyText
  import opened Schemas
  import opened Ingestion

  /** How far a handler has come: it has read the index, listed the message, listed the event. */
  datatype Phase = IndexRead | MessageListed | EventListed

  datatype Handler = Handler(message: SensorMessage, event: MarketEvent, phase: Phase)

  /** The shared state, and the handlers under way; a handler that has written the index is done with it. */
  datatype Process = Process(feed: Feed, handlers: map<nat, Handler>)

  datatype Step =
    | ReadIndex(h: nat, message: SensorMessage, id: PyStr, at: PyStr)
    | ListMessage(h: nat)
    | ListEvent(h: nat)
    | WriteIndex(h: nat)
    | StoreCall(event: MarketEvent)

  predicate At(p: Process, h: nat, phase: Phase) {
    h in p.handlers && p.handlers[h].phase == phase
  }

  /** One change of the shared state; a step that cannot happen changes nothing. */
  function Next(nodeId: PyStr, p: Process, step: Step): Process {
    match step
    case ReadIndex(h, m, id, at) =>
      if h in p.handlers then p
      else
        var event := Normalized(nodeId, m, LastMessage(p.feed.last, m.symbol), id, at);
        p.(handlers := p.handlers[h := Handler(m, event, IndexRead)])
    case ListMessage(h) =>
      if !At(p, h, IndexRead) then p
      else Process(p.feed.(raw := p.feed.raw + [p.handlers[h].message]),
                   p.handlers[h := p.handlers[h].(phase := MessageListed)])
    case ListEvent(h) =>
      if !At(p, h, MessageListed) then p
      else Process(p.feed.(events := p.feed.events + [p.handlers[h].event]),
                   p.handlers[h := p.handlers[h].(phase := EventListed)])
    case WriteIndex(h) =>
      if !At(p, h, EventListed) then p
      else
        var m := p.handlers[h].message;
        Process(p.feed.(last := p.feed.last[m.symbol := m]), p.handlers - {h})
    case StoreCall(event) => p.(feed := p.feed.(events := p.feed.events + [event]))
  }

  function Run(nodeId: PyStr, p: Process, steps: seq<Step>): Process
    decreases |steps|
  {
    if steps == [] then p else Next(nodeId, Run(nodeId, p, steps[..|steps| - 1]), steps[|steps| - 1])
  }

  /** The handler has listed its message and not yet written the index. */
  predicate Between(p: Process, h: nat, symbol: PyStr) {
    h in p.handlers && p.handlers[h].phase != IndexRead && p.handlers[h].message.symbol == symbol
  }

  ghost predicate Busy(p: Process, symbol: PyStr) {
    exists h :: Between(p, h, symbol)
  }

  /** The step lists a message while another handler of that symbol is between listing and writing. */
  ghost predicate Overlaps(p: Process, step: Step) {
    step.ListMessage? && At(p, step.h, IndexRead) && Busy(p, p.handlers[step.h].message.symbol)
  }

  ghost predicate NoneOverlaps(nodeId: PyStr, p: Process, steps: seq<Step>)
    decreases |steps|
  {
    steps == [] ||
    (var front := steps[..|steps| - 1];
     NoneOverlaps(nodeId, p, front) && !Overlaps(Run(nodeId, p, front), steps[|steps| - 1]))
  }

  /** What a scan of the listed messages finds for a symbol. */
  function Scanned(p: Process, symbol: PyStr): Option<SensorMessage> {
    LastMessage(LastMessages(p.feed.raw), symbol)
  }

  /** A symbol is handled by one at a time, its message is the last listed; else the index is what a scan finds. */
  ghost predicate Inv(p: Process) {
    && (forall h, k, symbol :: Between(p, h, symbol) && Between(p, k, symbol) ==> h == k)
    && (forall h, symbol :: Between(p, h, symbol) ==> Scanned(p, symbol) == Some(p.handlers[h].message))
    && (forall symbol :: Busy(p, symbol) || LastMessage(p.feed.last, symbol) == Scanned(p, symbol))
  }

  lemma ScanOneMore(raw: seq<SensorMessage>, m: SensorMessage, symbol: PyStr)
    ensures LastMessage(LastMessages(raw + [m]), symbol) ==
            if m.symbol == symbol then Some(m) else LastMessage(LastMessages(raw), symbol)
  {
    assert (raw + [m])[..|raw|] == raw;
  }

  lemma ListMessageKeepsInv(nodeId: PyStr, p: Process, h: nat)
    requires Inv(p) && At(p, h, IndexRead) && !Busy(p, p.handlers[h].message.symbol)
    ensures Inv(Next(nodeId, p, ListMessage(h)))
  {
    var q, m := Next(nodeId, p, ListMessage(h)), p.handlers[h].message;
    forall symbol
      ensures Scanned(q, symbol) == if m.symbol == symbol then Some(m) else Scanned(p, symbol)
    {
      ScanOneMore(p.feed.raw, m, symbol);
    }
    forall k, symbol
      ensures Between(q, k, symbol) <==> if k == h then symbol == m.symbol else Between(p, k, symbol)
    {
    }
    assert Between(q, h, m.symbol);
    forall symbol | !Busy(q, symbol)
      ensures LastMessage(q.feed.last, symbol) == Scanned(q, symbol)
    {
      assert forall k :: Between(p, k, symbol) ==> Between(q, k, symbol);
    }
    forall k, symbol | Between(q, k, symbol)
      ensures Scanned(q, symbol) == Some(q.handlers[k].message)
    {
      assert k != h ==> Between(p, k, symbol);
    }
  }

  lemma WriteIndexKeepsInv(nodeId: PyStr, p: Process, h: nat)
    requires Inv(p) && At(p, h, EventListed)
    ensures Inv(Next(nodeId, p, WriteIndex(h)))
  {
    var q, m := Next(nodeId, p, WriteIndex(h)), p.handlers[h].message;
    assert Between(p, h, m.symbol);
    forall k, symbol
      ensures Between(q, k, symbol) <==> k != h && Between(p, k, symbol)
    {
    }
    forall symbol | !Busy(q, symbol)
      ensures LastMessage(q.feed.last, symbol) == Scanned(q, symbol)
    {
      if symbol != m.symbol {
        assert !Busy(p, symbol) by {
          assert forall k :: Between(p, k, symbol) ==> Between(q, k, symbol);
        }
        assert LastMessage(p.feed.last, symbol) == Scanned(p, symbol);
      } else {
        assert Scanned(p, symbol) == Some(m);
      }
    }
    forall k, symbol | Between(q, k, symbol)
      ensures Scanned(q, symbol) == Some(q.handlers[k].message)
    {
      assert Between(p, k, symbol);
    }
  }

  lemma SameBetweenKeepsInv(p: Process, q: Process)
    requires Inv(p) && q.feed.raw == p.feed.raw && q.feed.last == p.feed.last
    requires forall h, symbol :: Between(q, h, symbol) <==> Between(p, h, symbol)
    requires forall h, symbol :: Between(q, h, symbol) ==> q.handlers[h].message == p.handlers[h].message
    ensures Inv(q)
  {
    forall symbol
      ensures Busy(q, symbol) <==> Busy(p, symbol)
    {
      assert forall h :: Between(q, h, symbol) <==> Between(p, h, symbol);
    }
  }

  lemma NextKeepsInv(nodeId: PyStr, p: Process, step: Step)
    requires Inv(p) && !Overlaps(p, step)
    ensures Inv(Next(nodeId, p, step))
  {
    match step
    case ListMessage(h) =>
      if At(p, h, IndexRead) {
        ListMessageKeepsInv(nodeId, p, h);
      }
    case WriteIndex(h) =>
      if At(p, h, EventListed) {
        WriteIndexKeepsInv(nodeId, p, h);
      }
    case _ => SameBetweenKeepsInv(p, Next(nodeId, p, step));
  }

  /** Handlers may interleave as they like: unless two of one symbol overlap between listing and writing, the index is what a scan finds. */
  lemma {:induction false} IndexEqualsScanUnlessOverlap(nodeId: PyStr, raw: seq<SensorMessage>, events: seq<MarketEvent>, steps: seq<Step>)
    requires NoneOverlaps(nodeId, Process(Load(raw, events), map[]), steps)
    ensures var p := Run(nodeId, Process(Load(raw, events), map[]), steps);
            && (forall symbol :: Busy(p, symbol) || LastMessage(p.feed.last, symbol) == Scanned(p, symbol))
            && Inv(p)
    decreases |steps|
  {
    var start := Process(Load(raw, events), map[]);
    if steps != [] {
      var front := steps[..|steps| - 1];
      IndexEqualsScanUnlessOverlap(nodeId, raw, events, front);
      NextKeepsInv(nodeId, Run(nodeId, start, front), steps[|steps| - 1]);
    }
  }

  /** So once no handler is under way the state is one that a restart rebuilds. */
  lemma QuietIsIndexed(p: Process)
    requires Inv(p) && p.handlers == map[]
    ensures Indexed(p.feed)
  {
    forall symbol
      ensures LastMessage(p.feed.last, symbol) == LastMessage(LastMessages(p.feed.raw), symbol)
    {
      assert !Busy(p, symbol);
    }
    forall symbol
      ensures symbol in p.feed.last <==> symbol in LastMessages(p.feed.raw)
      ensures symbol in p.feed.last ==> p.feed.last[symbol] == LastMessages(p.feed.raw)[symbol]
    {
      assert LastMessage(p.feed.last, symbol) == LastMessage(LastMessages(p.feed.raw), symbol);
    }
  }

  /** The steps of one handler, undisturbed. */
  function Undisturbed(h: nat, m: SensorMessage, id: PyStr, at: PyStr): seq<Step> {
    [ReadIndex(h, m, id, at), ListMessage(h), ListEvent(h), WriteIndex(h)]
  }

  lemma RunOneMore(nodeId: PyStr, p: Process, steps: seq<Step>, step: Step)
    ensures Run(nodeId, p, steps + [step]) == Next(nodeId, Run(nodeId, p, steps), step)
  {
    assert (steps + [step])[..|steps|] == steps;
  }

  lemma {:induction false} RunTwice(nodeId: PyStr, p: Process, first: seq<Step>, second: seq<Step>)
    ensures Run(nodeId, p, first + second) == Run(nodeId, Run(nodeId, p, first), second)
    decreases |second|
  {
    if second == [] {
      assert first + second == first;
    } else {
      var front, last := second[..|second| - 1], second[|second| - 1];
      RunTwice(nodeId, p, first, front);
      RunOneMore(nodeId, p, first + front, last);
      RunOneMore(nodeId, Run(nodeId, p, first), front, last);
      assert second == front + [last] && first + second == (first + front) + [last];
    }
  }

  lemma RunTwo(nodeId: PyStr, p: Process, a: Step, b: Step)
    ensures Run(nodeId, p, [a, b]) == Next(nodeId, Next(nodeId, p, a), b)
  {
    RunOneMore(nodeId, p, [], a);
    RunOneMore(nodeId, p, [a], b);
    assert [] + [a] == [a] && [a] + [b] == [a, b];
  }

  lemma RunFour(nodeId: PyStr, p: Process, mid: Process, a: Step, b: Step, c: Step, d: Step)
    requires mid == Next(nodeId, Next(nodeId, p, a), b)
    ensures Run(nodeId, p, [a, b, c, d]) == Next(nodeId, Next(nodeId, mid, c), d)
  {
    RunTwo(nodeId, p, a, b);
    RunTwo(nodeId, mid, c, d);
    assert [a, b] + [c, d] == [a, b, c, d];
    RunTwice(nodeId, p, [a, b], [c, d]);
  }

  /** Undisturbed, they are one ingest. */
  lemma UndisturbedIsIngest(nodeId: PyStr, p: Process, h: nat, m: SensorMessage, id: PyStr, at: PyStr)
    requires h !in p.handlers
    ensures Run(nodeId, p, Undisturbed(h, m, id, at)) == Process(Apply(nodeId, p.feed, Ingest(m, id, at)), p.handlers)
  {
    var event := Normalized(nodeId, m, LastMessage(p.feed.last, m.symbol), id, at);
    var mid := Process(p.feed.(raw := p.feed.raw + [m]), p.handlers[h := Handler(m, event, MessageListed)]);
    assert Next(nodeId, Next(nodeId, p, ReadIndex(h, m, id, at)), ListMessage(h)) == mid;
    RunFour(nodeId, p, mid, ReadIndex(h, m, id, at), ListMessage(h), ListEvent(h), WriteIndex(h));
    assert p.handlers[h := Handler(m, event, EventListed)] - {h} == p.handlers;
  }

  /** Two handlers that list in one order and write in the other. */
  function Listing(m: SensorMessage, n: SensorMessage, id: PyStr, at: PyStr): seq<Step> {
    [ReadIndex(0, m, id, at), ReadIndex(1, n, id, at), ListMessage(0), ListMessage(1)]
  }

  const WRITING: seq<Step> := [ListEvent(0), ListEvent(1), WriteIndex(1), WriteIndex(0)]

  lemma AfterListing(nodeId: PyStr, m: SensorMessage, n: SensorMessage, id: PyStr, at: PyStr)
    ensures var e, f := Normalized(nodeId, m, None, id, at), Normalized(nodeId, n, None, id, at);
            Run(nodeId, Process(Load([], []), map[]), Listing(m, n, id, at)) ==
            Process(Feed([m, n], [], map[]), map[0 := Handler(m, e, MessageListed), 1 := Handler(n, f, MessageListed)])
  {
    var e, f := Normalized(nodeId, m, None, id, at), Normalized(nodeId, n, None, id, at);
    var start := Process(Load([], []), map[]);
    var p := Process(Feed([], [], map[]), map[0 := Handler(m, e, IndexRead), 1 := Handler(n, f, IndexRead)]);
    assert Next(nodeId, Next(nodeId, start, ReadIndex(0, m, id, at)), ReadIndex(1, n, id, at)) == p;
    RunFour(nodeId, start, p, ReadIndex(0, m, id, at), ReadIndex(1, n, id, at), ListMessage(0), ListMessage(1));
    var q := Process(Feed([m], [], map[]), map[0 := Handler(m, e, MessageListed), 1 := Handler(n, f, IndexRead)]);
    assert Next(nodeId, p, ListMessage(0)) == q;
  }

  lemma AfterWriting(nodeId: PyStr, m: SensorMessage, n: SensorMessage, e: MarketEvent, f: MarketEvent)
    requires m.symbol == n.symbol
    ensures Run(nodeId, Process(Feed([m, n], [], map[]),
                                map[0 := Handler(m, e, MessageListed), 1 := Handler(n, f, MessageListed)]), WRITING)
            == Process(Feed([m, n], [e, f], map[m.symbol := m]), map[])
  {
    var start := Process(Feed([m, n], [], map[]),
                         map[0 := Handler(m, e, MessageListed), 1 := Handler(n, f, MessageListed)]);
    var p := Process(Feed([m, n], [e, f], map[]), map[0 := Handler(m, e, EventListed), 1 := Handler(n, f, EventListed)]);
    assert Next(nodeId, Next(nodeId, start, ListEvent(0)), ListEvent(1)) == p;
    RunFour(nodeId, start, p, ListEvent(0), ListEvent(1), WriteIndex(1), WriteIndex(0));
    var q := Process(Feed([m, n], [e, f], map[m.symbol := n]), map[0 := Handler(m, e, EventListed)]);
    assert Next(nodeId, p, WriteIndex(1)) == q;
  }

  lemma ScanOfTwo(m: SensorMessage, n: SensorMessage)
    requires m.symbol == n.symbol
    ensures LastMessages([m, n]) == map[m.symbol := n]
  {
    assert [m][..0] == [] && [m, n][..1] == [m];
    assert LastMessages([m]) == LastMessages([])[m.symbol := m];
    assert LastMessages([m, n]) == LastMessages([m])[n.symbol := n];
  }

  /** An overlap can leave an older message in the index than a scan, and so a restart, finds. */
  lemma OverlapLosesIndex(nodeId: PyStr, m: SensorMessage, n: SensorMessage, id: PyStr, at: PyStr)
    requires m.symbol == n.symbol
    ensures var p := Run(nodeId, Process(Load([], []), map[]), Listing(m, n, id, at) + WRITING);
            && p.handlers == map[] && p.feed.raw == [m, n]
            && p.feed.last == map[m.symbol := m] && LastMessages(p.feed.raw) == map[m.symbol := n]
  {
    RunTwice(nodeId, Process(Load([], []), map[]), Listing(m, n, id, at), WRITING);
    AfterListing(nodeId, m, n, id, at);
    AfterWriting(nodeId, m, n, Normalized(nodeId, m, None, id, at), Normalized(nodeId, n, None, id, at));
    ScanOfTwo(m, n);
  }

  /** The next event tells the two apart. */
  lemma LostIndexShows(nodeId: PyStr, m: SensorMessage, n: SensorMessage, next: SensorMessage, id: PyStr, at: PyStr)
    requires m.price == 1.0 && n.price == 2.0 && next.price == 1.0
    ensures Normalized(nodeId, next, Some(m), id, at).window[PRICE_CHANGE] == 0.0
    ensures Normalized(nodeId, next, Some(n), id, at).window[PRICE_CHANGE] == -0.5
  {
  }
}
