/** `shared/runtime/service_runtime.py`: a peer's side of the overlay. */
module ServiceRuntime {
  import opened PyText
  import opened CanonicalJson
  import opened Ledger
  import opened Registry
  import opened RegistryProcess
  import opened RegistryApp

  /** A request to the registry: answered, processed with its reply lost, or never processed. */
  datatype Delivery = Answered | ReplyLost | RequestLost

  /** What one tick of the heartbeat loop does to the peer table and to the peer's `_registered` flag. */
  datatype Link = Link(peers: seq<Peer>, registered: bool)

  function Tick(link: Link, me: Peer, stamp: Stamp, delivery: Delivery): Link {
    if delivery == RequestLost then Link(link.peers, false)
    else if !link.registered then Link(Upsert(link.peers, me, stamp), delivery == Answered)
    else
      match Heartbeat(link.peers, me.nodeId, HeartbeatRequest(Online, stamp))
      case None => Link(link.peers, false)
      case Some(peers) => Link(peers, delivery == Answered)
  }

  /** One POST of `route_with_retries`. */
  datatype Attempt =
    | Accepted(body: Option<Json>)        // processed, and a good reply came back
    | Processed(error: PyStr)             // processed, but the reply was lost or unusable
    | Refused(error: PyStr)               // never processed

  function Pow2(n: nat): nat {
    if n == 0 then 1 else 2 * Pow2(n - 1)
  }

  /** The first k pauses of the exponential backoff, added up. */
  function Pauses(backoff: real, k: nat): real {
    if k == 0 then 0.0 else Pauses(backoff, k - 1) + backoff * Pow2(k - 1) as real
  }

  lemma {:induction false} PausesClosedForm(backoff: real, k: nat)
    ensures Pauses(backoff, k) == backoff * (Pow2(k) as real - 1.0)
  {
    if k > 0 {
      PausesClosedForm(backoff, k - 1);
      var p := Pow2(k - 1) as real;
      assert Pow2(k) as real == 2.0 * p;
      assert backoff * (p - 1.0) + backoff * p == backoff * (2.0 * p - 1.0);
    }
  }

  /** Some attempt in 1..upTo is accepted. */
  predicate Succeeds(net: int -> Attempt, upTo: int) {
    exists a :: 1 <= a <= upTo && net(a).Accepted?
  }

  /** The number of POSTs: up to the first accepted one, all of them if none is. */
  function AttemptCount(net: int -> Attempt, retries: int): (a: nat)
    ensures Succeeds(net, retries) ==> 1 <= a <= retries && net(a).Accepted? && !Succeeds(net, a - 1)
    ensures !Succeeds(net, retries) ==> a == if retries > 0 then retries else 0
  {
    if retries <= 0 then 0
    else
      var before := AttemptCount(net, retries - 1);
      assert Succeeds(net, retries) <==> Succeeds(net, retries - 1) || net(retries).Accepted?;
      if Succeeds(net, retries - 1) then before else retries
  }

  /** The attempts in 1..upTo that the target processed. */
  function ProcessedCount(net: int -> Attempt, upTo: nat): (n: nat)
    ensures n <= upTo
    ensures upTo > 0 && !net(upTo).Refused? ==> n >= 1
  {
    if upTo == 0 then 0
    else ProcessedCount(net, upTo - 1) + if net(upTo).Refused? then 0 else 1
  }

  /** The audit record of a route that was given up. */
  function RoutingFailed(nodeId: PyStr, context: seq<Member>, target: Peer, path: PyStr, eventType: PyStr,
                         retries: int, lastError: Option<PyStr>): AppendRequest
  {
    AppendRequest(Lit("routing_failed"), nodeId, Object(context + [
      Member(Lit("target_node"), String(target.nodeId)),
      Member(Lit("target_url"), String(target.baseUrl + path)),
      Member(Lit("event_type"), String(eventType)),
      Member(Lit("attempts"), Int(retries)),
      Member(Lit("error"), String(match lastError case None => Lit("unknown") case Some(e) => e))
    ]))
  }

  /** What the record of a failed route says, by key. */
  predicate SaysFailedRoute(payload: Json, eventId: PyStr, symbol: PyStr, target: Peer, path: PyStr, eventType: PyStr,
                            retries: int, error: PyStr)
  {
    && Field(payload, "event_id") == Some(String(eventId)) && Field(payload, "symbol") == Some(String(symbol))
    && Field(payload, "target_node") == Some(String(target.nodeId))
    && Field(payload, "target_url") == Some(String(target.baseUrl + path))
    && Field(payload, "event_type") == Some(String(eventType))
    && Field(payload, "attempts") == Some(Int(retries)) && Field(payload, "error") == Some(String(error))
  }

  /** The context that ingestion gives its routes. */
  function RouteContext(eventId: PyStr, symbol: PyStr): seq<Member> {
    [Member(Lit("event_id"), String(eventId)), Member(Lit("symbol"), String(symbol))]
  }

  lemma FailedRouteKeysDiffer()
    ensures Lit("event_id") != Lit("symbol")
    ensures Lit("target_node") != Lit("event_id") && Lit("target_node") != Lit("symbol")
    ensures Lit("target_url") != Lit("event_id") && Lit("target_url") != Lit("symbol")
    ensures Lit("target_url") != Lit("target_node")
    ensures Lit("event_type") != Lit("event_id") && Lit("event_type") != Lit("symbol")
    ensures Lit("event_type") != Lit("target_node") && Lit("event_type") != Lit("target_url")
    ensures Lit("attempts") != Lit("event_id") && Lit("attempts") != Lit("symbol")
    ensures Lit("attempts") != Lit("target_node") && Lit("attempts") != Lit("target_url")
    ensures Lit("attempts") != Lit("event_type")
  {
    UnlikeTextsDiffer("event_id", "symbol");
    UnlikeTextsDiffer("target_node", "event_id");
    UnlikeTextsDiffer("target_node", "symbol");
    UnlikeTextsDiffer("target_url", "event_id");
    UnlikeTextsDiffer("target_url", "symbol");
    UnlikeTextsDiffer("target_url", "target_node");
    UnlikeTextsDiffer("event_type", "event_id");
    UnlikeTextsDiffer("event_type", "symbol");
    UnlikeTextsDiffer("event_type", "target_node");
    UnlikeTextsDiffer("event_type", "target_url");
    UnlikeTextsDiffer("attempts", "event_id");
    UnlikeTextsDiffer("attempts", "symbol");
    UnlikeTextsDiffer("attempts", "target_node");
    UnlikeTextsDiffer("attempts", "target_url");
    UnlikeTextsDiffer("attempts", "event_type");
  }

  lemma FailedRouteSays(nodeId: PyStr, eventId: PyStr, symbol: PyStr, target: Peer, path: PyStr, eventType: PyStr,
                        retries: int, lastError: Option<PyStr>)
    ensures var r := RoutingFailed(nodeId, RouteContext(eventId, symbol), target, path, eventType, retries, lastError);
            && r.eventType == Lit("routing_failed") && r.actorNode == nodeId
            && SaysFailedRoute(r.payload, eventId, symbol, target, path, eventType, retries,
                               if lastError == None then Lit("unknown") else lastError.value)
  {
    var members := RoutingFailed(nodeId, RouteContext(eventId, symbol), target, path, eventType, retries, lastError)
      .payload.members;
    FailedRouteKeysDiffer();
    FieldIsAt(members, "event_id", 0);
    FieldIsAt(members, "symbol", 1);
    FieldIsAt(members, "target_node", 2);
    FieldIsAt(members, "target_url", 3);
    FieldIsAt(members, "event_type", 4);
    FieldIsAt(members, "attempts", 5);
    UnlikeTextsDiffer("error", "event_id");
    UnlikeTextsDiffer("error", "symbol");
    UnlikeTextsDiffer("error", "target_node");
    UnlikeTextsDiffer("error", "target_url");
    UnlikeTextsDiffer("error", "event_type");
    UnlikeTextsDiffer("error", "attempts");
    FieldIsAt(members, "error", 6);
  }

  function Repeat<T>(x: T, n: nat): seq<T> {
    seq(n, _ => x)
  }

  lemma RepeatOnce<T>(x: T, n: nat)
    ensures Repeat(x, n + 1) == Repeat(x, n) + [x]
  {
  }

  /** The error that is left when all attempts have failed. */
  function LastError(net: int -> Attempt, retries: int): Option<PyStr>
    requires !Succeeds(net, retries)
  {
    if retries <= 0 then None else Some(net(retries).error)
  }

  /** A delivered route was processed at least once, and at most `retries` times. */
  lemma DeliveredMeansProcessed(net: int -> Attempt, retries: int)
    requires Succeeds(net, retries)
    ensures 1 <= ProcessedCount(net, AttemptCount(net, retries)) <= retries
  {
  }

  class Runtime {
    const nodeId: PyStr
    var registered: bool
    /** Every ledger append this node has tried, delivered or not: `append_ledger` swallows its errors. */
    var appends: seq<AppendRequest>
    /** Seconds slept between attempts, and the target of every POST to another peer. */
    var slept: real
    var posts: seq<PyStr>

    constructor (nodeId: PyStr)
      ensures this.nodeId == nodeId && !registered && appends == [] && slept == 0.0 && posts == []
    {
      this.nodeId, registered, appends, slept, posts := nodeId, false, [], 0.0, [];
    }

    method RegisterOrHeartbeat(app: App, me: Peer, stamp: Stamp, now: PyStr, delivery: Delivery)
      requires app.store.Valid()
      modifies this`registered, app.store, app.store.disk
      ensures app.store.Valid()
      ensures Link(app.store.peers, registered) == Tick(old(Link(app.store.peers, registered)), me, stamp, delivery)
      ensures old(app.store.ledger) <= app.store.ledger
      // registered from now on iff a good answer has come back; a heartbeat of a forgotten peer has none
      ensures registered <==> delivery == Answered && (old(registered) ==> old(Known(app.store.peers, me.nodeId)))
      // what reaches the registry is a registration until one was answered, then a heartbeat
      ensures delivery == RequestLost ==> app.store.Contents() == old(app.store.Contents())
      ensures delivery != RequestLost && !old(registered) ==>
                && |app.store.ledger| == |old(app.store.ledger)| + 1
                && Lookup(app.store.peers, me.nodeId) == Some(me.(status := Online, lastHeartbeat := stamp))
                && app.store.ledger[|app.store.ledger| - 1].eventType == Lit("peer_registered")
      ensures delivery != RequestLost && old(registered) && old(Known(app.store.peers, me.nodeId)) ==>
                && |app.store.ledger| == |old(app.store.ledger)| + 1
                && app.store.ledger[|app.store.ledger| - 1].eventType == Lit("peer_heartbeat")
      ensures delivery != RequestLost && old(registered) && !old(Known(app.store.peers, me.nodeId)) ==>
                app.store.Contents() == old(app.store.Contents())
    {
      if delivery == RequestLost {
        registered := false;
      } else if !registered {
        PostRegistration(app, me, stamp, now, delivery);
      } else {
        PostHeartbeat(app, me, stamp, now, delivery);
      }
    }

    /** The request of a peer that is not registered. */
    method PostRegistration(app: App, me: Peer, stamp: Stamp, now: PyStr, delivery: Delivery)
      requires app.store.Valid() && !registered && delivery != RequestLost
      modifies this`registered, app.store, app.store.disk
      ensures app.store.Valid() && (registered <==> delivery == Answered)
      ensures app.store.peers == Upsert(old(app.store.peers), me, stamp) && old(app.store.ledger) <= app.store.ledger
      ensures |app.store.ledger| == |old(app.store.ledger)| + 1
      ensures app.store.ledger[|app.store.ledger| - 1].eventType == Lit("peer_registered")
      ensures Lookup(app.store.peers, me.nodeId) == Some(me.(status := Online, lastHeartbeat := stamp))
    {
      var _ := app.RegisterPeer(me, stamp, now);
      registered := delivery == Answered;
    }

    /** The request of a peer that is. */
    method PostHeartbeat(app: App, me: Peer, stamp: Stamp, now: PyStr, delivery: Delivery)
      requires app.store.Valid() && registered && delivery != RequestLost
      modifies this`registered, app.store, app.store.disk
      ensures app.store.Valid() && (registered <==> delivery == Answered && old(Known(app.store.peers, me.nodeId)))
      ensures match Heartbeat(old(app.store.peers), me.nodeId, HeartbeatRequest(Online, stamp))
              case None => app.store.Contents() == old(app.store.Contents())
              case Some(peers) => app.store.peers == peers
      ensures old(app.store.ledger) <= app.store.ledger
      ensures old(Known(app.store.peers, me.nodeId)) ==>
                && |app.store.ledger| == |old(app.store.ledger)| + 1
                && app.store.ledger[|app.store.ledger| - 1].eventType == Lit("peer_heartbeat")
    {
      var updated := app.PeerHeartbeat(me.nodeId, HeartbeatRequest(Online, stamp), now);
      registered := updated.Some? && delivery == Answered;
    }

    method AppendLedger(request: AppendRequest)
      modifies this`appends
      ensures appends == old(appends) + [request]
    {
      appends := appends + [request];
    }

    /** The loop of `route_with_retries`. */
    method TryRoute(target: PyStr, retries: int, backoff: real, net: int -> Attempt)
      returns (body: Option<Json>, lastError: Option<PyStr>, accepted: bool)
      modifies this`slept, this`posts
      ensures posts == old(posts) + Repeat(target, AttemptCount(net, retries))
      ensures var a := AttemptCount(net, retries); slept == old(slept) + Pauses(backoff, if a == 0 then 0 else a - 1)
      ensures accepted <==> Succeeds(net, retries)
      ensures accepted ==> net(AttemptCount(net, retries)) == Accepted(body) && lastError == None
      ensures !accepted ==> body == None && lastError == LastError(net, retries)
    {
      body, lastError, accepted := None, None, false;
      var attempt := 1;
      while attempt <= retries
        invariant 1 <= attempt && (attempt <= retries + 1 || attempt == 1)
        invariant !Succeeds(net, attempt - 1) && lastError == LastError(net, attempt - 1)
        invariant posts == old(posts) + Repeat(target, attempt - 1)
        invariant slept == old(slept) + Pauses(backoff, if 1 < attempt == retries + 1 then attempt - 2 else attempt - 1)
      {
        RepeatOnce(target, attempt - 1);
        posts := posts + [target];
        match net(attempt) {
          case Accepted(reply) =>
            assert AttemptCount(net, retries) == attempt;
            return reply, None, true;
          case Processed(error) => lastError := Some(error);
          case Refused(error) => lastError := Some(error);
        }
        if attempt < retries {
          slept := slept + backoff * Pow2(attempt - 1) as real;
        }
        attempt := attempt + 1;
      }
    }

    /**
     Returns the body and the last error; the error is what callers read as failure.
     Without a positive number of retries nothing is posted and an audit record is
     tried, and yet no error is returned.
     */
    method RouteWithRetries(target: Peer, path: PyStr, eventType: PyStr, context: seq<Member>,
                            retries: int, backoff: real, net: int -> Attempt)
      returns (body: Option<Json>, lastError: Option<PyStr>)
      modifies this`appends, this`slept, this`posts
      ensures posts == old(posts) + Repeat(target.nodeId, AttemptCount(net, retries))
      ensures var a := AttemptCount(net, retries); slept == old(slept) + Pauses(backoff, if a == 0 then 0 else a - 1)
      // accepted: nothing is left to audit
      ensures Succeeds(net, retries) ==>
                net(AttemptCount(net, retries)) == Accepted(body) && lastError == None && appends == old(appends)
      // given up: exactly one audit record is tried
      ensures !Succeeds(net, retries) ==>
                && body == None && lastError == LastError(net, retries)
                && appends == old(appends) + [RoutingFailed(nodeId, context, target, path, eventType, retries, lastError)]
      ensures retries > 0 ==> (lastError == None <==> exists a :: 1 <= a <= retries && net(a).Accepted?)
      ensures retries <= 0 ==> lastError == None && posts == old(posts) && |appends| == |old(appends)| + 1
    {
      var accepted;
      body, lastError, accepted := TryRoute(target.nodeId, retries, backoff, net);
      if !accepted {
        AppendLedger(RoutingFailed(nodeId, context, target, path, eventType, retries, lastError));
      }
    }
  }
}
