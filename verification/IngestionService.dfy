/** The ingestion peer: `aws_ingestion/service.py` with the routing of `aws_ingestion/main.py`. */
module IngestionService {
  import opened PyText
  import opened CanonicalJson
  import opened Ledger
  import opened Registry
  import opened Schemas
  import opened Ingestion
  import opened ServiceRuntime

  /** A discovered peer, and how it and the network answer each attempt to reach it. */
  datatype Route = Route(target: Peer, net: int -> Attempt)

  /** What capability discovery returned for one event; an unreachable registry returns no peer. */
  datatype Plan = Plan(detect: seq<Route>, store: seq<Route>, compute: seq<Route>)

  const RETRIES := 3
  const BACKOFF := 0.25

  predicate Delivered(r: Route) {
    Succeeds(r.net, RETRIES)
  }

  function FailureCount(routes: seq<Route>): nat {
    if routes == [] then 0
    else FailureCount(routes[..|routes| - 1]) + if Delivered(routes[|routes| - 1]) then 0 else 1
  }

  function Context(event: MarketEvent): seq<Member> {
    RouteContext(event.eventId, event.symbol)
  }

  function Routed(nodeId: PyStr, event: MarketEvent, kind: PyStr, target: Peer): AppendRequest {
    AppendRequest(kind, nodeId, Object(Context(event) + [Member(Lit("target_node"), String(target.nodeId))]))
  }

  /** The ledger appends of one route: a record of failure, or of success where `audited`. */
  function RouteAppends(nodeId: PyStr, event: MarketEvent, path: PyStr, kind: PyStr, audited: bool, r: Route): seq<AppendRequest> {
    if Delivered(r) then if audited then [Routed(nodeId, event, kind, r.target)] else []
    else [RoutingFailed(nodeId, Context(event), r.target, path, kind, RETRIES, LastError(r.net, RETRIES))]
  }

  function AllAppends(nodeId: PyStr, event: MarketEvent, path: PyStr, kind: PyStr, audited: bool, routes: seq<Route>): seq<AppendRequest> {
    if routes == [] then []
    else AllAppends(nodeId, event, path, kind, audited, routes[..|routes| - 1])
         + RouteAppends(nodeId, event, path, kind, audited, routes[|routes| - 1])
  }

  lemma ThreeAttempts(net: int -> Attempt)
    ensures AttemptCount(net, RETRIES) == if net(1).Accepted? then 1 else if net(2).Accepted? then 2 else 3
    ensures Pauses(BACKOFF, 0) == 0.0 && Pauses(BACKOFF, 1) == 0.25 && Pauses(BACKOFF, 2) == 0.75
  {
    var a := AttemptCount(net, RETRIES);
    assert Succeeds(net, 1) <==> net(1).Accepted?;
    assert Succeeds(net, 2) <==> net(1).Accepted? || net(2).Accepted?;
    PausesClosedForm(BACKOFF, 1);
    PausesClosedForm(BACKOFF, 2);
  }

  /** The target of each attempt of one route. */
  function RoutePosts(r: Route): seq<PyStr> {
    Repeat(r.target.nodeId, AttemptCount(r.net, RETRIES))
  }

  /** The targets contacted: every route's, once for each of its attempts. */
  function AllPosts(routes: seq<Route>): seq<PyStr> {
    if routes == [] then [] else AllPosts(routes[..|routes| - 1]) + RoutePosts(routes[|routes| - 1])
  }

  lemma RoutesOneMore(nodeId: PyStr, event: MarketEvent, path: PyStr, kind: PyStr, audited: bool, routes: seq<Route>, i: nat)
    requires i < |routes|
    ensures FailureCount(routes[..i + 1]) == FailureCount(routes[..i]) + if Delivered(routes[i]) then 0 else 1
    ensures AllAppends(nodeId, event, path, kind, audited, routes[..i + 1]) ==
            AllAppends(nodeId, event, path, kind, audited, routes[..i])
            + RouteAppends(nodeId, event, path, kind, audited, routes[i])
    ensures AllPosts(routes[..i + 1]) == AllPosts(routes[..i]) + RoutePosts(routes[i])
  {
    assert routes[..i + 1][..i] == routes[..i];
  }

  lemma Assoc<T>(a: seq<T>, b: seq<T>, c: seq<T>)
    ensures (a + b) + c == a + (b + c)
  {
  }

  lemma {:induction false} AppendCount(nodeId: PyStr, event: MarketEvent, path: PyStr, kind: PyStr, audited: bool, routes: seq<Route>)
    ensures FailureCount(routes) <= |routes|
    ensures |AllAppends(nodeId, event, path, kind, audited, routes)| ==
            FailureCount(routes) + if audited then |routes| - FailureCount(routes) else 0
  {
    if routes != [] {
      AppendCount(nodeId, event, path, kind, audited, routes[..|routes| - 1]);
    }
  }

  /** Every discovered peer is contacted, whatever happened to those before it. */
  lemma {:induction false} EveryPeerIsContacted(routes: seq<Route>, i: nat)
    requires i < |routes|
    ensures routes[i].target.nodeId in AllPosts(routes)
  {
    var n := |routes| - 1;
    if i < n {
      EveryPeerIsContacted(routes[..n], i);
    } else {
      var a := AttemptCount(routes[n].net, RETRIES);
      assert a > 0;
      assert Repeat(routes[n].target.nodeId, a)[0] == routes[n].target.nodeId;
    }
  }

  function PlanFailures(plan: Plan): nat {
    FailureCount(plan.detect) + FailureCount(plan.store) + FailureCount(plan.compute)
  }

  const ANALYZE_PATH: PyStr := Lit("/anomaly/analyze")
  const EVENTS_PATH: PyStr := Lit("/risk/events")
  const COMPUTE_PATH: PyStr := Lit("/risk/compute")
  const TO_ANOMALY: PyStr := Lit("event_routed_to_anomaly")
  const TO_RISK: PyStr := Lit("event_routed_to_risk")
  const TO_COMPUTE: PyStr := Lit("event_routed_to_compute")

  function PlanAppends(nodeId: PyStr, event: MarketEvent, plan: Plan): seq<AppendRequest> {
    AllAppends(nodeId, event, ANALYZE_PATH, TO_ANOMALY, true, plan.detect)
    + AllAppends(nodeId, event, EVENTS_PATH, TO_RISK, true, plan.store)
    + AllAppends(nodeId, event, COMPUTE_PATH, TO_COMPUTE, false, plan.compute)
  }

  function PlanPosts(plan: Plan): seq<PyStr> {
    AllPosts(plan.detect) + AllPosts(plan.store) + AllPosts(plan.compute)
  }

  // ----- what the appends say ----------------------------------------------------

  /** The record of a delivered route. */
  predicate SaysRouted(a: AppendRequest, nodeId: PyStr, event: MarketEvent, kind: PyStr, target: Peer) {
    && a.eventType == kind && a.actorNode == nodeId
    && Field(a.payload, "event_id") == Some(String(event.eventId))
    && Field(a.payload, "symbol") == Some(String(event.symbol))
    && Field(a.payload, "target_node") == Some(String(target.nodeId))
  }

  /** The record of a route that was given up after three attempts, with the error of the third. */
  predicate SaysGivenUp(a: AppendRequest, nodeId: PyStr, event: MarketEvent, path: PyStr, kind: PyStr, r: Route) {
    && a.eventType == Lit("routing_failed") && a.actorNode == nodeId && !r.net(3).Accepted?
    && SaysFailedRoute(a.payload, event.eventId, event.symbol, r.target, path, kind, 3, r.net(3).error)
  }

  lemma RouteSays(nodeId: PyStr, event: MarketEvent, path: PyStr, kind: PyStr, audited: bool, r: Route)
    ensures var appends := RouteAppends(nodeId, event, path, kind, audited, r);
            && (Delivered(r) && audited ==> |appends| == 1 && SaysRouted(appends[0], nodeId, event, kind, r.target))
            && (Delivered(r) && !audited ==> appends == [])
            && (!Delivered(r) ==> |appends| == 1 && SaysGivenUp(appends[0], nodeId, event, path, kind, r))
  {
    if Delivered(r) {
      var members := Routed(nodeId, event, kind, r.target).payload.members;
      FailedRouteKeysDiffer();
      FieldIsAt(members, "event_id", 0);
      FieldIsAt(members, "symbol", 1);
      FieldIsAt(members, "target_node", 2);
    } else {
      FailedRouteSays(nodeId, event.eventId, event.symbol, r.target, path, kind, RETRIES, LastError(r.net, RETRIES));
    }
  }

  /** The i-th append of audited routes is the record of the i-th peer. */
  lemma {:induction false} AuditedRoutesSay(nodeId: PyStr, event: MarketEvent, path: PyStr, kind: PyStr, routes: seq<Route>, i: nat)
    requires i < |routes|
    ensures var appends := AllAppends(nodeId, event, path, kind, true, routes);
            && |appends| == |routes|
            && (Delivered(routes[i]) ==> SaysRouted(appends[i], nodeId, event, kind, routes[i].target))
            && (!Delivered(routes[i]) ==> SaysGivenUp(appends[i], nodeId, event, path, kind, routes[i]))
  {
    var n := |routes| - 1;
    RouteSays(nodeId, event, path, kind, true, routes[n]);
    if i < n {
      AuditedRoutesSay(nodeId, event, path, kind, routes[..n], i);
    } else {
      AppendCount(nodeId, event, path, kind, true, routes[..n]);
    }
  }

  /** The appends of unaudited routes are the records of those given up, in order. */
  lemma {:induction false} UnauditedRoutesSay(nodeId: PyStr, event: MarketEvent, path: PyStr, kind: PyStr, routes: seq<Route>)
    ensures var appends, failed := AllAppends(nodeId, event, path, kind, false, routes), GivenUp(routes);
            && |appends| == |failed|
            && forall i :: 0 <= i < |failed| ==> SaysGivenUp(appends[i], nodeId, event, path, kind, failed[i])
  {
    if routes != [] {
      var n := |routes| - 1;
      UnauditedRoutesSay(nodeId, event, path, kind, routes[..n]);
      RouteSays(nodeId, event, path, kind, false, routes[n]);
    }
  }

  function GivenUp(routes: seq<Route>): seq<Route> {
    if routes == [] then []
    else
      var n := |routes| - 1;
      GivenUp(routes[..n]) + if Delivered(routes[n]) then [] else [routes[n]]
  }

  /** The i-th append is the record of the i-th audited route. */
  ghost predicate AllSaid(appends: seq<AppendRequest>, nodeId: PyStr, event: MarketEvent, path: PyStr, kind: PyStr,
                          routes: seq<Route>)
  {
    && |appends| == |routes|
    && forall i :: 0 <= i < |routes| ==>
         if Delivered(routes[i]) then SaysRouted(appends[i], nodeId, event, kind, routes[i].target)
         else SaysGivenUp(appends[i], nodeId, event, path, kind, routes[i])
  }

  ghost predicate AllGivenUp(appends: seq<AppendRequest>, nodeId: PyStr, event: MarketEvent, path: PyStr, kind: PyStr,
                             failed: seq<Route>)
  {
    && |appends| == |failed|
    && forall i :: 0 <= i < |failed| ==> SaysGivenUp(appends[i], nodeId, event, path, kind, failed[i])
  }

  lemma AuditedSay(nodeId: PyStr, event: MarketEvent, path: PyStr, kind: PyStr, routes: seq<Route>)
    ensures AllSaid(AllAppends(nodeId, event, path, kind, true, routes), nodeId, event, path, kind, routes)
  {
    AppendCount(nodeId, event, path, kind, true, routes);
    forall i | 0 <= i < |routes|
      ensures var appends := AllAppends(nodeId, event, path, kind, true, routes);
              if Delivered(routes[i]) then SaysRouted(appends[i], nodeId, event, kind, routes[i].target)
              else SaysGivenUp(appends[i], nodeId, event, path, kind, routes[i])
    {
      AuditedRoutesSay(nodeId, event, path, kind, routes, i);
    }
  }

  lemma Parts<T>(a: seq<T>, b: seq<T>, c: seq<T>)
    ensures (a + b + c)[..|a|] == a && (a + b + c)[|a|..|a| + |b|] == b && (a + b + c)[|a| + |b|..] == c
  {
  }

  /** The appends of one fan-out: one for each detecting peer, then one for each storing peer, then the failed computing ones. */
  lemma FanOutSays(nodeId: PyStr, event: MarketEvent, plan: Plan)
    ensures var appends, d, s := PlanAppends(nodeId, event, plan), |plan.detect|, |plan.store|;
            && |appends| == d + s + |GivenUp(plan.compute)|
            && AllSaid(appends[..d], nodeId, event, Lit("/anomaly/analyze"), Lit("event_routed_to_anomaly"), plan.detect)
            && AllSaid(appends[d..d + s], nodeId, event, Lit("/risk/events"), Lit("event_routed_to_risk"), plan.store)
            && AllGivenUp(appends[d + s..], nodeId, event, Lit("/risk/compute"), Lit("event_routed_to_compute"),
                          GivenUp(plan.compute))
  {
    AuditedSay(nodeId, event, ANALYZE_PATH, TO_ANOMALY, plan.detect);
    AuditedSay(nodeId, event, EVENTS_PATH, TO_RISK, plan.store);
    UnauditedRoutesSay(nodeId, event, COMPUTE_PATH, TO_COMPUTE, plan.compute);
    Parts(AllAppends(nodeId, event, ANALYZE_PATH, TO_ANOMALY, true, plan.detect),
          AllAppends(nodeId, event, EVENTS_PATH, TO_RISK, true, plan.store),
          AllAppends(nodeId, event, COMPUTE_PATH, TO_COMPUTE, false, plan.compute));
  }

  /** The ledger record of a normalised event; its numbers are not shown. */
  function EventRecord(nodeId: PyStr, kind: PyStr, event: MarketEvent): AppendRequest {
    AppendRequest(kind, nodeId, Object([
      Member(Lit("event_id"), String(event.eventId)),
      Member(Lit("symbol"), String(event.symbol)),
      Member(Lit("asset_class"), String(event.assetClass)),
      Member(Lit("source"), String(event.source)),
      Member(Lit("ingested_at"), String(event.ingestedAt))
    ]))
  }

  const INGESTED: PyStr := Lit("market_event_ingested")
  const STORED: PyStr := Lit("market_event_stored")

  /** The records of an event that was ingested, and of one that was stored. */
  lemma EventRecordSays(nodeId: PyStr, event: MarketEvent)
    ensures EventRecord(nodeId, INGESTED, event).eventType == Lit("market_event_ingested")
    ensures EventRecord(nodeId, STORED, event).eventType == Lit("market_event_stored")
    ensures forall kind :: var r := EventRecord(nodeId, kind, event);
              && r.actorNode == nodeId
              && Field(r.payload, "event_id") == Some(String(event.eventId))
              && Field(r.payload, "symbol") == Some(String(event.symbol))
              && Field(r.payload, "asset_class") == Some(String(event.assetClass))
              && Field(r.payload, "source") == Some(String(event.source))
              && Field(r.payload, "ingested_at") == Some(String(event.ingestedAt))
  {
    var members := EventRecord(nodeId, INGESTED, event).payload.members;
    UnlikeTextsDiffer("event_id", "symbol");
    UnlikeTextsDiffer("event_id", "asset_class");
    UnlikeTextsDiffer("event_id", "source");
    UnlikeTextsDiffer("event_id", "ingested_at");
    UnlikeTextsDiffer("symbol", "asset_class");
    assert Lit("symbol") != Lit("source") by {
      assert Lit("symbol")[1] != Lit("source")[1];
    }
    UnlikeTextsDiffer("symbol", "ingested_at");
    UnlikeTextsDiffer("asset_class", "source");
    UnlikeTextsDiffer("asset_class", "ingested_at");
    UnlikeTextsDiffer("source", "ingested_at");
    FieldIsAt(members, "event_id", 0);
    FieldIsAt(members, "symbol", 1);
    FieldIsAt(members, "asset_class", 2);
    FieldIsAt(members, "source", 3);
    FieldIsAt(members, "ingested_at", 4);
    forall kind
      ensures EventRecord(nodeId, kind, event).payload.members == members
    {
    }
  }

  datatype Saved = Saved(raw: seq<SensorMessage>, events: seq<MarketEvent>)

  lemma Regroup<T>(start: seq<T>, a: seq<T>, b: seq<T>, c: seq<T>)
    ensures ((start + a) + b) + c == start + (a + b + c)
  {
  }

  /**
   The appends that one ingest tries: one for the event, one for each detect and
   each store peer, delivered or not, and one for each compute peer that failed.
   */
  lemma IngestAppendCount(nodeId: PyStr, event: MarketEvent, plan: Plan)
    ensures |[EventRecord(nodeId, INGESTED, event)] + PlanAppends(nodeId, event, plan)|
            == 1 + (|plan.detect| - FailureCount(plan.detect)) + (|plan.store| - FailureCount(plan.store)) + PlanFailures(plan)
    ensures |PlanAppends(nodeId, event, plan)| == |plan.detect| + |plan.store| + FailureCount(plan.compute)
  {
    AppendCount(nodeId, event, ANALYZE_PATH, TO_ANOMALY, true, plan.detect);
    AppendCount(nodeId, event, EVENTS_PATH, TO_RISK, true, plan.store);
    AppendCount(nodeId, event, COMPUTE_PATH, TO_COMPUTE, false, plan.compute);
  }

  class Service {
    const runtime: Runtime
    var raw: seq<SensorMessage>
    var events: seq<MarketEvent>
    var last: map<PyStr, SensorMessage>
    var forwarded: nat
    var failures: nat
    var disk: Saved
    /** The messages ingested since the service started. */
    ghost var ingested: nat

    function Contents(): Feed
      reads this
    {
      Feed(raw, events, last)
    }

    /** Memory and file agree, the index is exact, and each ingest was forwarded or failed. */
    ghost predicate Valid()
      reads this
    {
      disk == Saved(raw, events) && Indexed(Contents()) && forwarded + failures == ingested
    }

    /** Starting on a saved state: the counters start again at 0. */
    constructor (runtime: Runtime, saved: Saved)
      ensures Valid() && this.runtime == runtime && disk == saved
      ensures Contents() == Load(saved.raw, saved.events) && forwarded == 0 && failures == 0 && ingested == 0
    {
      this.runtime := runtime;
      raw, events, last := saved.raw, saved.events, LastMessages(saved.raw);
      forwarded, failures, disk, ingested := 0, 0, saved, 0;
    }

    method RouteOne(event: MarketEvent, path: PyStr, kind: PyStr, audited: bool, route: Route) returns (failed: bool)
      modifies runtime
      ensures failed <==> !Delivered(route)
      ensures runtime.appends == old(runtime.appends) + RouteAppends(runtime.nodeId, event, path, kind, audited, route)
      ensures runtime.posts == old(runtime.posts) + RoutePosts(route)
      // at most three attempts, with pauses of a quarter and half a second between them
      ensures |RoutePosts(route)| == if route.net(1).Accepted? then 1 else if route.net(2).Accepted? then 2 else 3
      ensures runtime.slept == old(runtime.slept)
                               + if route.net(1).Accepted? then 0.0 else if route.net(2).Accepted? then 0.25 else 0.75
    {
      ThreeAttempts(route.net);
      var _, error := runtime.RouteWithRetries(route.target, path, kind, Context(event), RETRIES, BACKOFF, route.net);
      failed := error.Some?;
      if !failed && audited {
        runtime.AppendLedger(Routed(runtime.nodeId, event, kind, route.target));
      }
    }

    /** `_route_to_capability`, and the unaudited loop over the compute peers. */
    method RouteToCapability(event: MarketEvent, path: PyStr, kind: PyStr, audited: bool, routes: seq<Route>)
      returns (failed: nat)
      modifies runtime
      ensures failed == FailureCount(routes)
      ensures runtime.appends == old(runtime.appends) + AllAppends(runtime.nodeId, event, path, kind, audited, routes)
      ensures runtime.posts == old(runtime.posts) + AllPosts(routes)
    {
      ghost var appends, posts := runtime.appends, runtime.posts;
      failed := 0;
      for i := 0 to |routes|
        invariant failed == FailureCount(routes[..i])
        invariant runtime.appends == appends + AllAppends(runtime.nodeId, event, path, kind, audited, routes[..i])
        invariant runtime.posts == posts + AllPosts(routes[..i])
      {
        RoutesOneMore(runtime.nodeId, event, path, kind, audited, routes, i);
        Assoc(appends, AllAppends(runtime.nodeId, event, path, kind, audited, routes[..i]),
              RouteAppends(runtime.nodeId, event, path, kind, audited, routes[i]));
        Assoc(posts, AllPosts(routes[..i]), RoutePosts(routes[i]));
        var missed := RouteOne(event, path, kind, audited, routes[i]);
        if missed {
          failed := failed + 1;
        }
      }
      assert routes[..|routes|] == routes;
    }

    /** `route_event`; `ok` is false where it raises. */
    method RouteEvent(event: MarketEvent, plan: Plan) returns (ok: bool)
      modifies runtime
      ensures ok <==> PlanFailures(plan) == 0
      ensures runtime.appends == old(runtime.appends) + PlanAppends(runtime.nodeId, event, plan)
      ensures runtime.posts == old(runtime.posts) + PlanPosts(plan)
    {
      ghost var appends, posts := runtime.appends, runtime.posts;
      var detect := RouteToCapability(event, ANALYZE_PATH, TO_ANOMALY, true, plan.detect);
      ghost var appends1, posts1 := runtime.appends, runtime.posts;
      var store := RouteToCapability(event, EVENTS_PATH, TO_RISK, true, plan.store);
      ghost var appends2, posts2 := runtime.appends, runtime.posts;
      var compute := RouteToCapability(event, COMPUTE_PATH, TO_COMPUTE, false, plan.compute);
      ok := detect + store + compute == 0;
      Regroup(appends, appends1[|appends|..], appends2[|appends1|..], runtime.appends[|appends2|..]);
      Regroup(posts, posts1[|posts|..], posts2[|posts1|..], runtime.posts[|posts2|..]);
    }

    method IngestMessage(message: SensorMessage, id: PyStr, at: PyStr, plan: Plan) returns (event: MarketEvent)
      requires Valid()
      modifies this, runtime
      ensures Valid()
      ensures Contents() == Apply(runtime.nodeId, old(Contents()), Ingest(message, id, at))
      ensures event == events[|events| - 1]
      // exactly one of the two counters goes up
      ensures ingested == old(ingested) + 1
      ensures forwarded == old(forwarded) + (if PlanFailures(plan) == 0 then 1 else 0)
      ensures failures == old(failures) + (if PlanFailures(plan) == 0 then 0 else 1)
      ensures runtime.appends == old(runtime.appends)
              + [EventRecord(runtime.nodeId, INGESTED, event)] + PlanAppends(runtime.nodeId, event, plan)
      ensures runtime.posts == old(runtime.posts) + PlanPosts(plan)
    {
      event := Record(message, id, at);
      RecordAndForward(event, plan);
    }

    /** The rest of `ingest_message`: the ledger's record, and the fan-out. */
    method RecordAndForward(event: MarketEvent, plan: Plan)
      requires Valid()
      modifies this`forwarded, this`failures, this`ingested, runtime
      ensures Valid() && ingested == old(ingested) + 1
      ensures forwarded == old(forwarded) + (if PlanFailures(plan) == 0 then 1 else 0)
      ensures failures == old(failures) + (if PlanFailures(plan) == 0 then 0 else 1)
      ensures runtime.appends == old(runtime.appends)
              + [EventRecord(runtime.nodeId, INGESTED, event)] + PlanAppends(runtime.nodeId, event, plan)
      ensures runtime.posts == old(runtime.posts) + PlanPosts(plan)
    {
      runtime.AppendLedger(EventRecord(runtime.nodeId, INGESTED, event));
      ForwardEvent(event, plan);
    }

    /** `_forward_event`: the fan-out, and its outcome in one of the two counters. */
    method ForwardEvent(event: MarketEvent, plan: Plan)
      requires Valid()
      modifies this`forwarded, this`failures, this`ingested, runtime
      ensures Valid() && ingested == old(ingested) + 1
      ensures forwarded == old(forwarded) + (if PlanFailures(plan) == 0 then 1 else 0)
      ensures failures == old(failures) + (if PlanFailures(plan) == 0 then 0 else 1)
      ensures runtime.appends == old(runtime.appends) + PlanAppends(runtime.nodeId, event, plan)
      ensures runtime.posts == old(runtime.posts) + PlanPosts(plan)
    {
      var ok := RouteEvent(event, plan);
      ingested := ingested + 1;
      if ok {
        forwarded := forwarded + 1;
      } else {
        failures := failures + 1;
      }
    }

    /** The part of `ingest_message` up to the save. */
    method Record(message: SensorMessage, id: PyStr, at: PyStr) returns (event: MarketEvent)
      requires Valid()
      modifies this`raw, this`events, this`last, this`disk
      ensures Valid() && Contents() == Apply(runtime.nodeId, old(Contents()), Ingest(message, id, at))
      ensures event == events[|events| - 1]
    {
      event := Normalized(runtime.nodeId, message, LastMessage(last, message.symbol), id, at);
      ApplyKeepsIndexed(runtime.nodeId, Contents(), Ingest(message, id, at));
      raw := raw + [message];
      events := events + [event];
      last := last[message.symbol := message];
      disk := Saved(raw, events);
    }

    method StoreNormalizedEvent(event: MarketEvent)
      requires Valid()
      modifies this, runtime
      ensures Valid() && Contents() == Apply(runtime.nodeId, old(Contents()), Store(event))
      ensures forwarded == old(forwarded) && failures == old(failures) && ingested == old(ingested)
      ensures runtime.appends == old(runtime.appends) + [EventRecord(runtime.nodeId, STORED, event)]
    {
      events := events + [event];
      disk := Saved(raw, events);
      runtime.AppendLedger(EventRecord(runtime.nodeId, STORED, event));
    }
  }
}
