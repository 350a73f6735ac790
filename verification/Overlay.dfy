/**
 Timed liveness of the overlay: one peer's heartbeat loop, a registry that other
 peers use too and that may lose its state, and requests or replies that get lost.
 */
module Overlay {
  import opened PyText
  import opened Registry
  import opened RegistryProcess
  import opened ServiceRuntime

  datatype Event =
    | TickAt(stamp: Stamp, delivery: Delivery)
    | OtherUpsert(peer: Peer, stamp: Stamp)
    | OtherBeat(nodeId: PyStr, beat: HeartbeatRequest)
    | Forget

  /** The link, and for the timing: the last tick, ticks lost in a row, ticks since the start or the last loss of state. */
  datatype World = World(link: Link, lastTick: int, misses: nat, ticks: nat)

  /** A peer that starts at `now` against a registry holding any table. */
  function Begin(peers: seq<Peer>, now: int): World {
    World(Link(peers, false), now, 0, 0)
  }

  function Apply(me: Peer, w: World, e: Event): World {
    match e
    case TickAt(stamp, delivery) =>
      World(Tick(w.link, me, stamp, delivery), if stamp.second.Some? then stamp.second.value else w.lastTick,
            if delivery == RequestLost then w.misses + 1 else 0, w.ticks + 1)
    case OtherUpsert(peer, stamp) => w.(link := w.link.(peers := Upsert(w.link.peers, peer, stamp)))
    case OtherBeat(nodeId, beat) =>
      (match Heartbeat(w.link.peers, nodeId, beat)
       case None => w
       case Some(peers) => w.(link := w.link.(peers := peers)))
    case Forget => w.(link := w.link.(peers := []), ticks := 0)
  }

  /**
   Ticks come at most `interval` apart, stamped by the registry's clock, and at most
   `m` requests in a row get lost; others use other ids, and any stamps.
   */
  predicate Allowed(me: Peer, interval: nat, m: nat, w: World, e: Event) {
    match e
    case TickAt(stamp, delivery) =>
      && stamp.second.Some? && w.lastTick <= stamp.second.value <= w.lastTick + interval
      && (delivery == RequestLost ==> w.misses < m)
    case OtherUpsert(peer, _) => peer.nodeId != me.nodeId
    case OtherBeat(nodeId, _) => nodeId != me.nodeId
    case Forget => true
  }

  function After(me: Peer, w: World, events: seq<Event>): World
    decreases |events|
  {
    if events == [] then w
    else Apply(me, After(me, w, events[..|events| - 1]), events[|events| - 1])
  }

  predicate AllowedRun(me: Peer, interval: nat, m: nat, w: World, events: seq<Event>)
    decreases |events|
  {
    events == [] ||
    (var front := events[..|events| - 1];
     AllowedRun(me, interval, m, w, front) &&
     Allowed(me, interval, m, After(me, w, front), events[|events| - 1]))
  }

  /** A moment at which the next tick is not yet overdue. */
  predicate Due(interval: nat, w: World, t: int) {
    w.lastTick <= t <= w.lastTick + interval
  }

  predicate ReportedOnline(me: Peer, w: World, t: int) {
    var found := Lookup(w.link.peers, me.nodeId);
    found.Some? && Readable(found.value) && FreshStatus(found.value, t) == Online
  }

  /** The registry has heard from the peer no longer ago than the lost ticks explain. */
  predicate Heard(me: Peer, interval: nat, w: World) {
    var found := Lookup(w.link.peers, me.nodeId);
    found.Some? && Readable(found.value) && found.value.lastHeartbeat.second.value >= w.lastTick - w.misses * interval
  }

  /** The peer was heard, or is about to register again, or has not ticked yet. */
  predicate Settling(me: Peer, interval: nat, m: nat, w: World) {
    && w.misses <= m
    && (Heard(me, interval, w) || w.ticks == 0 || (!w.link.registered && w.ticks <= w.misses + 1))
  }

  lemma ReachedTick(me: Peer, link: Link, stamp: Stamp, delivery: Delivery)
    requires delivery != RequestLost
    ensures var after := Tick(link, me, stamp, delivery);
            if link.registered && !Known(link.peers, me.nodeId)
            then after == Link(link.peers, false)
            else var found := Lookup(after.peers, me.nodeId); found.Some? && found.value.lastHeartbeat == stamp
  {
    var found := Lookup(link.peers, me.nodeId);
    if !link.registered {
      PutThenLookup(link.peers, Refreshed(me, stamp), me.nodeId);
    } else if found.Some? {
      PutThenLookup(link.peers, Beaten(found.value, HeartbeatRequest(Online, stamp)), me.nodeId);
    }
  }

  lemma StepKeepsSettling(me: Peer, interval: nat, m: nat, w: World, e: Event)
    requires Settling(me, interval, m, w) && Allowed(me, interval, m, w, e)
    ensures Settling(me, interval, m, Apply(me, w, e))
  {
    match e
    case TickAt(stamp, delivery) =>
      if delivery == RequestLost {
        assert (w.misses + 1) * interval == w.misses * interval + interval;
      } else {
        ReachedTick(me, w.link, stamp, delivery);
        if w.link.registered && !Known(w.link.peers, me.nodeId) {
          assert !Heard(me, interval, w);
        }
      }
    case OtherUpsert(peer, stamp) => PutThenLookup(w.link.peers, Refreshed(peer, stamp), me.nodeId);
    case OtherBeat(nodeId, beat) =>
      var found := Lookup(w.link.peers, nodeId);
      if found.Some? {
        PutThenLookup(w.link.peers, Beaten(found.value, beat), me.nodeId);
      }
    case Forget =>
  }

  lemma {:induction false} RunKeepsSettling(me: Peer, interval: nat, m: nat, w: World, events: seq<Event>)
    requires Settling(me, interval, m, w) && AllowedRun(me, interval, m, w, events)
    ensures Settling(me, interval, m, After(me, w, events))
    decreases |events|
  {
    if events != [] {
      var front := events[..|events| - 1];
      RunKeepsSettling(me, interval, m, w, front);
      StepKeepsSettling(me, interval, m, After(me, w, front), events[|events| - 1]);
    }
  }

  /** In every allowed run, from m + 2 ticks after the start or the last loss of state on, the peer is online. */
  ghost predicate OnlineOnceSettled(me: Peer, interval: nat, m: nat) {
    forall peers, now, events, t ::
      AllowedRun(me, interval, m, Begin(peers, now), events) ==>
        var w := After(me, Begin(peers, now), events);
        w.ticks >= m + 2 && Due(interval, w, t) ==> ReportedOnline(me, w, t)
  }

  lemma SettledIsOnline(me: Peer, interval: nat, m: nat, w: World, t: int)
    requires Settling(me, interval, m, w) && w.ticks >= m + 2 && Due(interval, w, t)
    requires (m + 1) * interval <= 90
    ensures ReportedOnline(me, w, t)
  {
    LostTime(w.misses, m, interval);
  }

  lemma LostTime(misses: nat, m: nat, interval: nat)
    requires misses <= m
    ensures misses * interval + interval <= (m + 1) * interval
  {
    assert (m + 1) * interval == misses * interval + interval + (m - misses) * interval;
  }

  /** The second of the k-th tick at full spacing. */
  function TickTime(interval: nat, k: nat): nat {
    if k == 0 then 0 else TickTime(interval, k - 1) + interval
  }

  lemma {:induction false} TickTimeIsMultiple(interval: nat, k: nat)
    ensures TickTime(interval, k) == k * interval
  {
    if k > 0 {
      TickTimeIsMultiple(interval, k - 1);
      assert k * interval == (k - 1) * interval + interval;
    }
  }

  /** A run that is as silent as allowed: m + 2 answered ticks at second 0, then k lost ones. */
  function Silent(interval: nat, m: nat, k: nat): seq<Event> {
    if k > 0 then Silent(interval, m, k - 1) + [TickAt(Stamp([], Some(TickTime(interval, k))), RequestLost)]
    else seq(m + 2, _ => TickAt(Stamp([], Some(0)), Answered))
  }

  lemma {:induction false} AnsweredRun(me: Peer, interval: nat, m: nat, n: nat)
    ensures var events := seq(n, _ => TickAt(Stamp([], Some(0)), Answered));
            var w := After(me, Begin([], 0), events);
            && AllowedRun(me, interval, m, Begin([], 0), events)
            && w.lastTick == 0 && w.misses == 0 && w.ticks == n
            && (n > 0 ==> w.link.registered && Lookup(w.link.peers, me.nodeId).Some?
                          && Lookup(w.link.peers, me.nodeId).value.lastHeartbeat.second == Some(0))
  {
    if n > 0 {
      var events := seq(n, _ => TickAt(Stamp([], Some(0)), Answered));
      assert events[..n - 1] == seq(n - 1, _ => TickAt(Stamp([], Some(0)), Answered));
      AnsweredRun(me, interval, m, n - 1);
      var w := After(me, Begin([], 0), events[..n - 1]);
      ReachedTick(me, w.link, Stamp([], Some(0)), Answered);
    }
  }

  lemma EventOneMore(me: Peer, interval: nat, m: nat, w: World, events: seq<Event>, e: Event)
    ensures After(me, w, events + [e]) == Apply(me, After(me, w, events), e)
    ensures AllowedRun(me, interval, m, w, events + [e]) <==>
            AllowedRun(me, interval, m, w, events) && Allowed(me, interval, m, After(me, w, events), e)
  {
    assert (events + [e])[..|events|] == events;
  }

  /** The peer was heard at second 0, and k ticks at full spacing have been lost since. */
  ghost predicate SilentWorld(me: Peer, interval: nat, m: nat, k: nat, w: World) {
    && w.lastTick == TickTime(interval, k) && w.misses == k && w.ticks == m + 2 + k
    && Lookup(w.link.peers, me.nodeId).Some?
    && Lookup(w.link.peers, me.nodeId).value.lastHeartbeat.second == Some(0)
  }

  function LostTick(interval: nat, k: nat): Event {
    TickAt(Stamp([], Some(TickTime(interval, k))), RequestLost)
  }

  lemma OneMoreLost(me: Peer, interval: nat, m: nat, k: nat, w: World)
    requires k < m && SilentWorld(me, interval, m, k, w)
    ensures Allowed(me, interval, m, w, LostTick(interval, k + 1))
    ensures SilentWorld(me, interval, m, k + 1, Apply(me, w, LostTick(interval, k + 1)))
  {
    assert Apply(me, w, LostTick(interval, k + 1)) ==
           World(Link(w.link.peers, false), TickTime(interval, k + 1), w.misses + 1, w.ticks + 1);
  }

  lemma SilentOneMore(interval: nat, m: nat, k: nat)
    requires k > 0
    ensures Silent(interval, m, k) == Silent(interval, m, k - 1) + [LostTick(interval, k)]
  {
  }

  lemma SilentStep(me: Peer, interval: nat, m: nat, k: nat, events: seq<Event>)
    requires k < m && AllowedRun(me, interval, m, Begin([], 0), events)
    requires SilentWorld(me, interval, m, k, After(me, Begin([], 0), events))
    ensures AllowedRun(me, interval, m, Begin([], 0), events + [LostTick(interval, k + 1)])
    ensures SilentWorld(me, interval, m, k + 1, After(me, Begin([], 0), events + [LostTick(interval, k + 1)]))
  {
    OneMoreLost(me, interval, m, k, After(me, Begin([], 0), events));
    EventOneMore(me, interval, m, Begin([], 0), events, LostTick(interval, k + 1));
  }

  ghost predicate SilentTo(me: Peer, interval: nat, m: nat, k: nat) {
    && AllowedRun(me, interval, m, Begin([], 0), Silent(interval, m, k))
    && SilentWorld(me, interval, m, k, After(me, Begin([], 0), Silent(interval, m, k)))
  }

  lemma SilentStart(me: Peer, interval: nat, m: nat)
    ensures SilentTo(me, interval, m, 0)
  {
    AnsweredRun(me, interval, m, m + 2);
  }

  lemma SilentNext(me: Peer, interval: nat, m: nat, k: nat)
    requires k < m && SilentTo(me, interval, m, k)
    ensures SilentTo(me, interval, m, k + 1)
  {
    SilentStep(me, interval, m, k, Silent(interval, m, k));
    SilentOneMore(interval, m, k + 1);
  }

  lemma {:induction false} SilentRun(me: Peer, interval: nat, m: nat, k: nat)
    requires k <= m
    ensures SilentTo(me, interval, m, k)
  {
    if k == 0 {
      SilentStart(me, interval, m);
    } else {
      SilentRun(me, interval, m, k - 1);
      SilentNext(me, interval, m, k - 1);
    }
  }

  /**
   With ticks at most `interval` seconds apart and at most `m` lost in a row, the
   peer is reported online at every query iff (m + 1) * interval <= 90.
   */
  lemma OnlineIffWithinNinetySeconds(me: Peer, interval: nat, m: nat)
    ensures OnlineOnceSettled(me, interval, m) <==> (m + 1) * interval <= 90
  {
    if (m + 1) * interval <= 90 {
      forall peers, now, events, t |
        AllowedRun(me, interval, m, Begin(peers, now), events)
        && After(me, Begin(peers, now), events).ticks >= m + 2
        && Due(interval, After(me, Begin(peers, now), events), t)
        ensures ReportedOnline(me, After(me, Begin(peers, now), events), t)
      {
        RunKeepsSettling(me, interval, m, Begin(peers, now), events);
        SettledIsOnline(me, interval, m, After(me, Begin(peers, now), events), t);
      }
    } else {
      var events := Silent(interval, m, m);
      SilentRun(me, interval, m, m);
      var w := After(me, Begin([], 0), events);
      var t := TickTime(interval, m + 1);
      TickTimeIsMultiple(interval, m + 1);
      assert Due(interval, w, t) && !ReportedOnline(me, w, t);
    }
  }

  /** A tick of a peer that is in the table, lost reply or not, leaves the set of nodes as it was. */
  lemma TickKeepsNodes(me: Peer, link: Link, stamp: Stamp, delivery: Delivery, id: PyStr)
    requires Known(link.peers, me.nodeId)
    ensures Known(Tick(link, me, stamp, delivery).peers, id) <==> Known(link.peers, id)
  {
    PutThenLookup(link.peers, Refreshed(me, stamp), id);
    var found := Lookup(link.peers, me.nodeId).value;
    PutThenLookup(link.peers, Beaten(found, HeartbeatRequest(Online, stamp)), id);
  }

  /**
   Whatever the registry holds, two ticks that reach it put the peer back into the
   table, heard at the second one: a 404 and a registration at worst.
   */
  lemma TwoReachedTicksRestore(me: Peer, link: Link, first: Stamp, d1: Delivery, second: Stamp, d2: Delivery)
    requires d1 != RequestLost && d2 != RequestLost
    ensures var found := Lookup(Tick(Tick(link, me, first, d1), me, second, d2).peers, me.nodeId);
            found.Some? && found.value.lastHeartbeat == second
  {
    ReachedTick(me, link, first, d1);
    ReachedTick(me, Tick(link, me, first, d1), second, d2);
  }

  /** Nothing that reaches the registry concerns the peer: its own ticks are lost, the rest is others' traffic. */
  predicate Unheard(me: Peer, e: Event) {
    match e
    case TickAt(_, delivery) => delivery == RequestLost
    case OtherUpsert(peer, _) => peer.nodeId != me.nodeId
    case OtherBeat(nodeId, _) => nodeId != me.nodeId
    case Forget => false
  }

  lemma {:induction false} UnheardKeepsEntry(me: Peer, w: World, events: seq<Event>)
    requires forall e :: e in events ==> Unheard(me, e)
    ensures Lookup(After(me, w, events).link.peers, me.nodeId) == Lookup(w.link.peers, me.nodeId)
    decreases |events|
  {
    if events != [] {
      var front, e := events[..|events| - 1], events[|events| - 1];
      UnheardKeepsEntry(me, w, front);
      assert Unheard(me, e);
      var peers := After(me, w, front).link.peers;
      match e
      case OtherUpsert(peer, stamp) => PutThenLookup(peers, Refreshed(peer, stamp), me.nodeId);
      case OtherBeat(nodeId, beat) =>
        var found := Lookup(peers, nodeId);
        if found.Some? {
          PutThenLookup(peers, Beaten(found.value, beat), me.nodeId);
        }
      case _ =>
    }
  }

  /**
   A peer last heard at `heard` and silent since is online for 90 seconds, stale
   for 90 more and offline from then on, whatever the other peers do meanwhile.
   */
  lemma SilenceIsReported(me: Peer, w: World, events: seq<Event>, heard: int, t: int)
    requires Lookup(w.link.peers, me.nodeId).Some?
    requires Lookup(w.link.peers, me.nodeId).value.lastHeartbeat.second == Some(heard)
    requires forall e :: e in events ==> Unheard(me, e)
    ensures var found := Lookup(After(me, w, events).link.peers, me.nodeId);
            && found.Some? && Readable(found.value)
            && (FreshStatus(found.value, t) == Online <==> t <= heard + 90)
            && (FreshStatus(found.value, t) == Stale <==> heard + 90 < t <= heard + 180)
            && (FreshStatus(found.value, t) == Offline <==> heard + 180 < t)
  {
    UnheardKeepsEntry(me, w, events);
  }
}
