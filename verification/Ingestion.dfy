/** `aws_ingestion/service.py`: normalising sensor messages, and the index of last messages. */
module Ingestion {
  import opened PyText
  import opened Numbers
  import opened Schemas

  /** The service's lists and its index from a symbol to the last message for it. */
  datatype Feed = Feed(raw: seq<SensorMessage>, events: seq<MarketEvent>, last: map<PyStr, SensorMessage>)

  /** The relative change from an earlier value, 0 without one or from zero. */
  function RelativeMove(previous: Option<real>, current: real): real {
    if previous.Some? && previous.value != 0.0 then (current - previous.value) / previous.value else 0.0
  }

  function LastMessage(last: map<PyStr, SensorMessage>, symbol: PyStr): Option<SensorMessage> {
    if symbol in last then Some(last[symbol]) else None
  }

  function PriceOf(m: Option<SensorMessage>): Option<real> {
    if m.Some? then Some(m.value.price) else None
  }

  function VolumeOf(m: Option<SensorMessage>): Option<real> {
    if m.Some? then Some(m.value.volume) else None
  }

  /** The event made of a message, given the message before it for the same symbol. */
  function Normalized(nodeId: PyStr, m: SensorMessage, previous: Option<SensorMessage>, id: PyStr, at: PyStr): MarketEvent {
    MarketEvent(
      id, m.symbol, m.assetClass, Round6(m.price), Round6(m.volume), nodeId, at,
      map[PRICE_CHANGE := Round6(RelativeMove(PriceOf(previous), m.price)),
          VOLUME_CHANGE := Round6(RelativeMove(VolumeOf(previous), m.volume)),
          NOTIONAL := Round6(m.price * m.volume)])
  }

  predicate Near(x: real, y: real) {
    Abs(x - y) <= 0.0000005
  }

  /** A rounded relative change, 0 without an earlier value or from zero. */
  predicate SaysMove(x: real, previous: Option<real>, current: real) {
    if previous.Some? && previous.value != 0.0 then Near(x, (current - previous.value) / previous.value) else x == 0.0
  }

  lemma MoveIsSaid(previous: Option<real>, current: real)
    ensures SaysMove(Round6(RelativeMove(previous, current)), previous, current)
  {
    Round6IsClose(RelativeMove(previous, current));
  }

  /** What an event says of its message, under the keys that its readers use. */
  predicate SaysMessage(e: MarketEvent, m: SensorMessage, previous: Option<SensorMessage>) {
    && e.symbol == m.symbol && e.assetClass == m.assetClass && Near(e.price, m.price) && Near(e.volume, m.volume)
    && e.window.Keys == {"price_change_1m", "volume_change_1m", "notional_value"}
    && SaysMove(e.window["price_change_1m"], PriceOf(previous), m.price)
    && SaysMove(e.window["volume_change_1m"], VolumeOf(previous), m.volume)
    && Near(e.window["notional_value"], m.price * m.volume)
  }

  /** The event of a message says it, field by field. */
  lemma NormalizedSays(nodeId: PyStr, m: SensorMessage, previous: Option<SensorMessage>, id: PyStr, at: PyStr)
    ensures var e := Normalized(nodeId, m, previous, id, at);
            e.eventId == id && e.source == nodeId && e.ingestedAt == at && SaysMessage(e, m, previous)
  {
    Round6IsClose(m.price);
    Round6IsClose(m.volume);
    Round6IsClose(m.price * m.volume);
    MoveIsSaid(PriceOf(previous), m.price);
    MoveIsSaid(VolumeOf(previous), m.volume);
  }

  datatype Op =
    | Ingest(message: SensorMessage, id: PyStr, at: PyStr)
    | Store(event: MarketEvent)
    | Restart

  /** The dict comprehension of `_load_state`: a scan of the raw messages. */
  function LastMessages(raw: seq<SensorMessage>): map<PyStr, SensorMessage> {
    if raw == [] then map[]
    else LastMessages(raw[..|raw| - 1])[raw[|raw| - 1].symbol := raw[|raw| - 1]]
  }

  function Load(raw: seq<SensorMessage>, events: seq<MarketEvent>): Feed {
    Feed(raw, events, LastMessages(raw))
  }

  function Apply(nodeId: PyStr, f: Feed, op: Op): Feed {
    match op
    case Ingest(m, id, at) =>
      Feed(f.raw + [m],
           f.events + [Normalized(nodeId, m, LastMessage(f.last, m.symbol), id, at)],
           f.last[m.symbol := m])
    case Store(event) => f.(events := f.events + [event])
    case Restart => Load(f.raw, f.events)
  }

  function Run(nodeId: PyStr, f: Feed, ops: seq<Op>): Feed
    decreases |ops|
  {
    if ops == [] then f else Apply(nodeId, Run(nodeId, f, ops[..|ops| - 1]), ops[|ops| - 1])
  }

  /** The index is what a scan of the raw messages would find. */
  predicate Indexed(f: Feed) {
    f.last == LastMessages(f.raw)
  }

  lemma ApplyKeepsIndexed(nodeId: PyStr, f: Feed, op: Op)
    requires Indexed(f)
    ensures Indexed(Apply(nodeId, f, op))
  {
    if op.Ingest? {
      assert (f.raw + [op.message])[..|f.raw|] == f.raw;
    }
  }

  /** In every reachable state the index maps a symbol to the last raw message for it, and to nothing else. */
  lemma {:induction false} IndexEqualsScan(nodeId: PyStr, raw: seq<SensorMessage>, events: seq<MarketEvent>, ops: seq<Op>)
    ensures Indexed(Run(nodeId, Load(raw, events), ops))
    decreases |ops|
  {
    if ops != [] {
      IndexEqualsScan(nodeId, raw, events, ops[..|ops| - 1]);
      ApplyKeepsIndexed(nodeId, Run(nodeId, Load(raw, events), ops[..|ops| - 1]), ops[|ops| - 1]);
    }
  }

  /** What the scan finds. */
  lemma {:induction false} ScanFindsLast(raw: seq<SensorMessage>, i: nat)
    requires i < |raw| && forall j :: i < j < |raw| ==> raw[j].symbol != raw[i].symbol
    ensures raw[i].symbol in LastMessages(raw) && LastMessages(raw)[raw[i].symbol] == raw[i]
  {
    if i < |raw| - 1 {
      ScanFindsLast(raw[..|raw| - 1], i);
    }
  }

  function WithoutRestarts(ops: seq<Op>): seq<Op> {
    if ops == [] then []
    else WithoutRestarts(ops[..|ops| - 1]) + if ops[|ops| - 1].Restart? then [] else [ops[|ops| - 1]]
  }

  /** Restarts anywhere in a run leave every later event as it would have been. */
  lemma {:induction false} RestartsChangeNothing(nodeId: PyStr, raw: seq<SensorMessage>, events: seq<MarketEvent>, ops: seq<Op>)
    ensures Run(nodeId, Load(raw, events), ops) == Run(nodeId, Load(raw, events), WithoutRestarts(ops))
    decreases |ops|
  {
    if ops != [] {
      var front, op := ops[..|ops| - 1], ops[|ops| - 1];
      RestartsChangeNothing(nodeId, raw, events, front);
      if op.Restart? {
        IndexEqualsScan(nodeId, raw, events, front);
        assert WithoutRestarts(ops) == WithoutRestarts(front);
      } else {
        var kept := WithoutRestarts(front);
        assert (kept + [op])[..|kept|] == kept;
      }
    }
  }
}
