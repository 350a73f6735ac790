/**
 `registry_service/main.py` as a transition system. The lock covers one store call,
 so a handler that makes two calls can be overtaken between them.
 */
module RegistryProcess {
  import opened PyText
  import opened CanonicalJson
  import opened Ledger
  import opened Registry

  datatype Beat = Beat(nodeId: PyStr, request: HeartbeatRequest)

  /** Where a block comes from. */
  datatype Origin =
    | Loaded
    | FromRegister(peer: Peer)
    | FromHeartbeat(beat: Beat)
    | FromRequest(request: AppendRequest)
    | FromVerifier(result: Verification)

  /** The append that an origin stands for. */
  function OriginRequest(o: Origin): AppendRequest
    requires o != Loaded
  {
    match o
    case FromRegister(peer) => AppendRequest(Lit("peer_registered"), peer.nodeId, PeerJson(peer))
    case FromHeartbeat(beat) => AppendRequest(Lit("peer_heartbeat"), beat.nodeId, HeartbeatJson(beat.request))
    case FromRequest(request) => request
    case FromVerifier(result) =>
      AppendRequest(Lit("ledger_verification_failed"), Lit("registry_service"), Object([
        Member(Lit("error"), String(match result.error case None => Lit("unknown") case Some(e) => ErrorText(e))),
        Member(Lit("block_count"), Int(result.blockCount))
      ]))
  }

  /** Handlers and verifier between store calls, the verifier's counters, and the history of the run. */
  datatype Process = Process(
    state: State,
    registering: multiset<Peer>,
    beating: multiset<Beat>,
    reporting: Option<Verification>,
    runs: nat,
    failures: nat,
    history: History)

  /** What happened so far: each block's origin, accepted calls, and calls cut off by a restart. */
  datatype History = History(
    origins: seq<Origin>,
    upserts: nat,
    beats: nat,
    failuresEver: nat,
    cutRegisters: nat,
    cutBeats: nat,
    cutReports: nat)

  function Start(state: State): Process {
    Process(state, multiset{}, multiset{}, None, 0, 0,
            History(seq(|state.ledger|, _ => Loaded), 0, 0, 0, 0, 0, 0))
  }

  datatype Step =
    | UpsertCall(peer: Peer, stamp: Stamp)
    | RegisterAppendCall(registered: Peer, now: PyStr)
    | HeartbeatCall(beat: Beat)
    | HeartbeatAppendCall(accepted: Beat, now: PyStr)
    | AppendCall(request: AppendRequest, now: PyStr)
    | VerifyCall
    | ReportCall(now: PyStr)
    | RestartCall
  {
    predicate Appends() {
      RegisterAppendCall? || HeartbeatAppendCall? || AppendCall? || ReportCall?
    }
  }

  /** The origin of the block that an appending step writes; None if nobody is paused there. */
  function AppendOrigin(p: Process, step: Step): (o: Option<Origin>)
    requires step.Appends()
    ensures o != Some(Loaded)
  {
    match step
    case RegisterAppendCall(peer, _) => if peer in p.registering then Some(FromRegister(peer)) else None
    case HeartbeatAppendCall(beat, _) => if beat in p.beating then Some(FromHeartbeat(beat)) else None
    case AppendCall(request, _) => Some(FromRequest(request))
    case ReportCall(_) => if p.reporting.Some? then Some(FromVerifier(p.reporting.value)) else None
  }

  /** The handler that was paused before this append has made its last store call. */
  function Finished(p: Process, o: Origin): Process {
    match o
    case FromRegister(peer) => p.(registering := p.registering - multiset{peer})
    case FromHeartbeat(beat) => p.(beating := p.beating - multiset{beat})
    case FromVerifier(_) => p.(reporting := None)
    case _ => p
  }

  function AppendFrom(sha: PyStr -> PyStr, p: Process, o: Origin, now: PyStr): Process
    requires o != Loaded
  {
    Finished(p, o).(state := p.state.(ledger := Append(sha, p.state.ledger, OriginRequest(o), now)),
                    history := p.history.(origins := p.history.origins + [o]))
  }

  /** One store call, or a restart on the files as they are; a call that cannot happen changes nothing. */
  function Next(sha: PyStr -> PyStr, p: Process, step: Step): Process {
    if step.Appends() then
      match AppendOrigin(p, step)
      case None => p
      case Some(o) => AppendFrom(sha, p, o, step.now)
    else NextOther(sha, p, step)
  }

  function NextOther(sha: PyStr -> PyStr, p: Process, step: Step): Process
    requires !step.Appends()
  {
    match step
    case UpsertCall(peer, stamp) =>
      p.(state := p.state.(peers := Upsert(p.state.peers, peer, stamp)),
         registering := p.registering + multiset{Refreshed(peer, stamp)},
         history := p.history.(upserts := p.history.upserts + 1))
    case HeartbeatCall(beat) =>
      (match Heartbeat(p.state.peers, beat.nodeId, beat.request)
       case None => p
       case Some(peers) =>
         p.(state := p.state.(peers := peers),
            beating := p.beating + multiset{beat},
            history := p.history.(beats := p.history.beats + 1)))
    case VerifyCall =>
      if p.reporting.Some? then p
      else
        var result := Verify(sha, p.state.ledger);
        if result.valid then p.(runs := p.runs + 1)
        else p.(runs := p.runs + 1, failures := p.failures + 1, reporting := Some(result),
                history := p.history.(failuresEver := p.history.failuresEver + 1))
    case RestartCall =>
      Process(p.state, multiset{}, multiset{}, None, 0, 0,
              p.history.(cutRegisters := p.history.cutRegisters + |p.registering|,
                         cutBeats := p.history.cutBeats + |p.beating|,
                         cutReports := p.history.cutReports + Pending(p)))
  }

  function Pending(p: Process): nat {
    if p.reporting.Some? then 1 else 0
  }

  function Run(sha: PyStr -> PyStr, p: Process, steps: seq<Step>): Process
    decreases |steps|
  {
    if steps == [] then p else Next(sha, Run(sha, p, steps[..|steps| - 1]), steps[|steps| - 1])
  }

  function Count(origins: seq<Origin>, kind: Origin -> bool): nat {
    if origins == [] then 0
    else Count(origins[..|origins| - 1], kind) + if kind(origins[|origins| - 1]) then 1 else 0
  }

  const IS_REGISTER := (o: Origin) => o.FromRegister?
  const IS_HEARTBEAT := (o: Origin) => o.FromHeartbeat?
  const IS_VERIFIER := (o: Origin) => o.FromVerifier?

  /** The ledger extends the one the run began with, and each new block is its origin's append. */
  ghost predicate LedgerInv(sha: PyStr -> PyStr, start: State, p: Process) {
    var ledger, origins := p.state.ledger, p.history.origins;
    && start.ledger <= ledger && |origins| == |ledger|
    && (forall i :: 0 <= i < |start.ledger| ==> origins[i] == Loaded)
    && forall i :: |start.ledger| <= i < |ledger| ==> NewBlockMatches(sha, ledger, origins, i)
  }

  ghost predicate NewBlockMatches(sha: PyStr -> PyStr, ledger: seq<Block>, origins: seq<Origin>, i: nat)
    requires i < |ledger| == |origins|
  {
    && origins[i] != Loaded && ledger[i].blockId == i + 1
    && ledger[i].eventType == OriginRequest(origins[i]).eventType
    && ledger[i].actorNode == OriginRequest(origins[i]).actorNode
    && ledger[i].payloadHash == HashJson(sha, OriginRequest(origins[i]).payload)
  }

  /** The verdict is the one the run began with, and only a bad one is ever counted. */
  ghost predicate VerdictInv(sha: PyStr -> PyStr, start: State, p: Process) {
    var before, after := Verify(sha, start.ledger), Verify(sha, p.state.ledger);
    && after.valid == before.valid && after.error == before.error
    && p.failures == (if before.valid then 0 else p.runs)
    && (before.valid ==> p.history.failuresEver == 0)
  }

  /** Every accepted call has its block, is still between its two store calls, or was cut off. */
  ghost predicate ConservationInv(p: Process) {
    var h := p.history;
    && h.upserts == Count(h.origins, IS_REGISTER) + |p.registering| + h.cutRegisters
    && h.beats == Count(h.origins, IS_HEARTBEAT) + |p.beating| + h.cutBeats
    && h.failuresEver == Count(h.origins, IS_VERIFIER) + Pending(p) + h.cutReports
  }

  /** The peer table has one entry a node, no node is ever dropped, and every registration has its node. */
  ghost predicate PeersInv(start: State, p: Process) {
    PeersOk(start, p.state.peers, p.registering, p.history.origins)
  }

  ghost predicate PeersOk(start: State, peers: seq<Peer>, registering: multiset<Peer>, origins: seq<Origin>) {
    && UniqueIds(peers)
    && (forall id :: Known(start.peers, id) ==> Known(peers, id))
    && (forall peer :: peer in registering ==> Known(peers, peer.nodeId))
    && (forall o :: o in origins && o.FromRegister? ==> Known(peers, o.peer.nodeId))
  }

  lemma {:induction false} CountLoaded(n: nat, kind: Origin -> bool)
    requires !kind(Loaded)
    ensures Count(seq(n, _ => Loaded), kind) == 0
  {
    if n > 0 {
      assert seq(n, _ => Loaded)[..n - 1] == seq(n - 1, _ => Loaded);
      CountLoaded(n - 1, kind);
    }
  }

  lemma CountOneMore(origins: seq<Origin>, o: Origin, kind: Origin -> bool)
    ensures Count(origins + [o], kind) == Count(origins, kind) + if kind(o) then 1 else 0
  {
    assert (origins + [o])[..|origins|] == origins;
  }

  lemma AppendFromKeepsLedger(sha: PyStr -> PyStr, start: State, p: Process, o: Origin, now: PyStr)
    requires o != Loaded && LedgerInv(sha, start, p)
    ensures LedgerInv(sha, start, AppendFrom(sha, p, o, now))
  {
    var q := AppendFrom(sha, p, o, now);
    forall i | |start.ledger| <= i < |q.state.ledger|
      ensures NewBlockMatches(sha, q.state.ledger, q.history.origins, i)
    {
      if i < |p.state.ledger| {
        assert NewBlockMatches(sha, p.state.ledger, p.history.origins, i);
      }
    }
  }

  lemma NextKeepsLedger(sha: PyStr -> PyStr, start: State, p: Process, step: Step)
    requires LedgerInv(sha, start, p)
    ensures LedgerInv(sha, start, Next(sha, p, step))
  {
    if step.Appends() {
      var o := AppendOrigin(p, step);
      if o.Some? {
        AppendFromKeepsLedger(sha, start, p, o.value, step.now);
      }
    } else {
      assert Next(sha, p, step).state.ledger == p.state.ledger;
      assert Next(sha, p, step).history.origins == p.history.origins;
    }
  }

  lemma NextKeepsVerdict(sha: PyStr -> PyStr, start: State, p: Process, step: Step)
    requires VerdictInv(sha, start, p)
    ensures VerdictInv(sha, start, Next(sha, p, step))
  {
    if step.Appends() {
      var o := AppendOrigin(p, step);
      if o.Some? {
        AppendFromKeepsVerdict(sha, start, p, o.value, step.now);
      }
    } else {
      NextOtherKeepsVerdict(sha, start, p, step);
    }
  }

  lemma AppendFromKeepsVerdict(sha: PyStr -> PyStr, start: State, p: Process, o: Origin, now: PyStr)
    requires o != Loaded && VerdictInv(sha, start, p)
    ensures VerdictInv(sha, start, AppendFrom(sha, p, o, now))
  {
    AppendKeepsVerdict(sha, p.state.ledger, OriginRequest(o), now);
  }

  lemma NextOtherKeepsVerdict(sha: PyStr -> PyStr, start: State, p: Process, step: Step)
    requires !step.Appends() && VerdictInv(sha, start, p)
    ensures VerdictInv(sha, start, NextOther(sha, p, step))
  {
    assert NextOther(sha, p, step).state.ledger == p.state.ledger;
  }

  lemma FinishedSizes(p: Process, o: Origin)
    requires o.FromRegister? ==> o.peer in p.registering
    requires o.FromHeartbeat? ==> o.beat in p.beating
    requires o.FromVerifier? ==> p.reporting.Some?
    ensures var q := Finished(p, o);
            && |q.registering| == |p.registering| - (if o.FromRegister? then 1 else 0)
            && |q.beating| == |p.beating| - (if o.FromHeartbeat? then 1 else 0)
            && Pending(q) == Pending(p) - (if o.FromVerifier? then 1 else 0)
  {
  }

  lemma AppendConserves(sha: PyStr -> PyStr, p: Process, o: Origin, now: PyStr)
    requires ConservationInv(p) && o != Loaded
    requires o.FromRegister? ==> o.peer in p.registering
    requires o.FromHeartbeat? ==> o.beat in p.beating
    requires o.FromVerifier? ==> p.reporting.Some?
    ensures ConservationInv(AppendFrom(sha, p, o, now))
  {
    FinishedSizes(p, o);
    CountOneMore(p.history.origins, o, IS_REGISTER);
    CountOneMore(p.history.origins, o, IS_HEARTBEAT);
    CountOneMore(p.history.origins, o, IS_VERIFIER);
  }

  lemma NextConserves(sha: PyStr -> PyStr, p: Process, step: Step)
    requires ConservationInv(p)
    ensures ConservationInv(Next(sha, p, step))
  {
    if step.Appends() {
      var o := AppendOrigin(p, step);
      if o.Some? {
        AppendConserves(sha, p, o.value, step.now);
      }
    } else {
      NextOtherConserves(sha, p, step);
    }
  }

  lemma NextOtherConserves(sha: PyStr -> PyStr, p: Process, step: Step)
    requires ConservationInv(p) && !step.Appends()
    ensures ConservationInv(NextOther(sha, p, step))
  {
    assert NextOther(sha, p, step).history.origins == p.history.origins;
  }

  lemma PutKeepsKnown(before: seq<Peer>, peer: Peer)
    ensures forall id :: Known(Put(before, peer), id) <==> id == peer.nodeId || Known(before, id)
  {
    forall id
      ensures Known(Put(before, peer), id) <==> id == peer.nodeId || Known(before, id)
    {
      PutThenLookup(before, peer, id);
    }
  }

  lemma TableChangeKeepsPeers(start: State, peers: seq<Peer>, registering: multiset<Peer>, origins: seq<Origin>,
                              peer: Peer, upserted: bool)
    requires PeersOk(start, peers, registering, origins)
    ensures PeersOk(start, Put(peers, peer),
                    if upserted then registering + multiset{peer} else registering, origins)
  {
    PutKeepsKnown(peers, peer);
    PutKeepsUniqueIds(peers, peer);
  }

  lemma AppendKeepsPeers(start: State, p: Process, o: Origin)
    requires PeersInv(start, p) && (o.FromRegister? ==> o.peer in p.registering)
    ensures PeersOk(start, p.state.peers, Finished(p, o).registering, p.history.origins + [o])
  {
    assert Finished(p, o).registering <= p.registering;
  }

  lemma NextKeepsPeers(sha: PyStr -> PyStr, start: State, p: Process, step: Step)
    requires PeersInv(start, p)
    ensures PeersInv(start, Next(sha, p, step))
  {
    if step.Appends() {
      var o := AppendOrigin(p, step);
      if o.Some? {
        AppendFromParts(sha, p, o.value, step.now);
        AppendKeepsPeers(start, p, o.value);
      }
    } else {
      NextOtherKeepsPeers(sha, start, p, step);
    }
  }

  lemma NextOtherKeepsPeers(sha: PyStr -> PyStr, start: State, p: Process, step: Step)
    requires PeersInv(start, p) && !step.Appends()
    ensures PeersInv(start, NextOther(sha, p, step))
  {
    var peers, registering, origins := p.state.peers, p.registering, p.history.origins;
    if step.UpsertCall? {
      TableChangeKeepsPeers(start, peers, registering, origins, Refreshed(step.peer, step.stamp), true);
    } else if step.HeartbeatCall? && Lookup(peers, step.beat.nodeId).Some? {
      var found := Lookup(peers, step.beat.nodeId).value;
      TableChangeKeepsPeers(start, peers, registering, origins, Beaten(found, step.beat.request), false);
    }
  }

  lemma AppendFromParts(sha: PyStr -> PyStr, p: Process, o: Origin, now: PyStr)
    requires o != Loaded
    ensures var q := AppendFrom(sha, p, o, now);
            && q.state.peers == p.state.peers && q.registering == Finished(p, o).registering
            && q.history.origins == p.history.origins + [o]
  {
  }

  ghost predicate Inv(sha: PyStr -> PyStr, start: State, p: Process) {
    LedgerInv(sha, start, p) && VerdictInv(sha, start, p) && ConservationInv(p) && PeersInv(start, p)
  }

  /** Whatever the ledger at the start, every interleaving of store calls and restarts keeps the invariant. */
  lemma {:induction false} EveryRunKeepsInv(sha: PyStr -> PyStr, start: State, steps: seq<Step>)
    requires UniqueIds(start.peers)
    ensures Inv(sha, start, Run(sha, Start(start), steps))
    decreases |steps|
  {
    if steps == [] {
      CountLoaded(|start.ledger|, IS_REGISTER);
      CountLoaded(|start.ledger|, IS_HEARTBEAT);
      CountLoaded(|start.ledger|, IS_VERIFIER);
    } else {
      var front, last := steps[..|steps| - 1], steps[|steps| - 1];
      EveryRunKeepsInv(sha, start, front);
      var p := Run(sha, Start(start), front);
      NextKeepsLedger(sha, start, p, last);
      NextKeepsVerdict(sha, start, p, last);
      NextConserves(sha, p, last);
      NextKeepsPeers(sha, start, p, last);
    }
  }

  /** From an empty ledger, no interleaving ever breaks the chain or the numbering, or counts a failure. */
  lemma FromEmptyLedgerAlwaysVerifies(sha: PyStr -> PyStr, peers: seq<Peer>, steps: seq<Step>)
    requires UniqueIds(peers)
    ensures var p := Run(sha, Start(State(peers, [])), steps);
            && Verify(sha, p.state.ledger) == Verification(true, |p.state.ledger|, None)
            && Numbered(p.state.ledger)
            && p.failures == 0 && Count(p.history.origins, IS_VERIFIER) == 0
  {
    var start := State(peers, []);
    EveryRunKeepsInv(sha, start, steps);
    assert Verify(sha, start.ledger).valid;
    var p := Run(sha, Start(start), steps);
    forall i | 0 <= i < |p.state.ledger|
      ensures p.state.ledger[i].blockId == i + 1
    {
      assert NewBlockMatches(sha, p.state.ledger, p.history.origins, i);
    }
  }

  /** Once the stored ledger has been altered, each verifier run counts one failure, for ever the same one. */
  lemma AlteredLedgerFailsForEver(sha: PyStr -> PyStr, start: State, steps: seq<Step>)
    requires UniqueIds(start.peers) && !Verify(sha, start.ledger).valid
    ensures var p := Run(sha, Start(start), steps);
            && !Verify(sha, p.state.ledger).valid
            && Verify(sha, p.state.ledger).error == Verify(sha, start.ledger).error
            && p.failures == p.runs
            && p.history.failuresEver == Count(p.history.origins, IS_VERIFIER) + Pending(p) + p.history.cutReports
  {
    EveryRunKeepsInv(sha, start, steps);
  }

  /** Every earlier ledger is a prefix of every later one. */
  lemma {:induction false} LedgerOnlyGrows(sha: PyStr -> PyStr, p: Process, steps: seq<Step>)
    ensures p.state.ledger <= Run(sha, p, steps).state.ledger
    decreases |steps|
  {
    if steps != [] {
      var front := steps[..|steps| - 1];
      LedgerOnlyGrows(sha, p, front);
      NextOnlyAppends(sha, Run(sha, p, front), steps[|steps| - 1]);
    }
  }

  lemma NextOnlyAppends(sha: PyStr -> PyStr, p: Process, step: Step)
    ensures p.state.ledger <= Next(sha, p, step).state.ledger
  {
  }

  // ----- what the blocks say ---------------------------------------------------

  /** The blocks from `from` on that carry this event type. */
  function BlocksOf(ledger: seq<Block>, from: nat, eventType: PyStr): nat {
    if |ledger| <= from then 0
    else
      var n := |ledger| - 1;
      BlocksOf(ledger[..n], from, eventType) + if ledger[n].eventType == eventType then 1 else 0
  }

  /** The appends that callers of the ledger endpoint asked for under this event type. */
  function AskedFor(origins: seq<Origin>, eventType: PyStr): nat {
    if origins == [] then 0
    else
      var n := |origins| - 1;
      AskedFor(origins[..n], eventType)
      + if origins[n].FromRequest? && origins[n].request.eventType == eventType then 1 else 0
  }

  predicate TypeMatches(b: Block, o: Origin) {
    o != Loaded && b.eventType == OriginRequest(o).eventType
  }

  predicate AsksFor(o: Origin, eventType: PyStr) {
    o.FromRequest? && o.request.eventType == eventType
  }

  lemma EventTypesDiffer()
    ensures Lit("peer_registered") != Lit("peer_heartbeat")
    ensures Lit("peer_registered") != Lit("ledger_verification_failed")
    ensures Lit("peer_heartbeat") != Lit("ledger_verification_failed")
  {
    UnlikeTextsDiffer("peer_registered", "peer_heartbeat");
    UnlikeTextsDiffer("peer_registered", "ledger_verification_failed");
    UnlikeTextsDiffer("peer_heartbeat", "ledger_verification_failed");
  }

  /** Only one kind of handler writes this event type, and callers may ask for it. */
  ghost predicate WrittenBy(eventType: PyStr, kind: Origin -> bool) {
    && !kind(Loaded)
    && forall o: Origin :: o != Loaded ==>
         && (OriginRequest(o).eventType == eventType <==> kind(o) || AsksFor(o, eventType))
         && !(kind(o) && AsksFor(o, eventType))
  }

  /** Blocks of a type are those of the handler that writes it, and those asked for by callers. */
  lemma {:induction false} BlocksAreCounted(ledger: seq<Block>, origins: seq<Origin>, from: nat, eventType: PyStr,
                                            kind: Origin -> bool)
    requires |ledger| == |origins| && WrittenBy(eventType, kind)
    requires forall i :: 0 <= i < from && i < |origins| ==> origins[i] == Loaded
    requires forall i :: from <= i < |ledger| ==> TypeMatches(ledger[i], origins[i])
    ensures BlocksOf(ledger, from, eventType) == Count(origins, kind) + AskedFor(origins, eventType)
  {
    if ledger != [] {
      var n := |ledger| - 1;
      BlocksAreCounted(ledger[..n], origins[..n], from, eventType, kind);
      if n >= from {
        assert TypeMatches(ledger[n], origins[n]);
        assert AsksFor(origins[n], eventType) ==> !kind(origins[n]);
      } else {
        assert origins[n] == Loaded;
      }
    }
  }

  lemma HandlersWriteTheirTypes()
    ensures WrittenBy(Lit("peer_registered"), IS_REGISTER)
    ensures WrittenBy(Lit("peer_heartbeat"), IS_HEARTBEAT)
    ensures WrittenBy(Lit("ledger_verification_failed"), IS_VERIFIER)
  {
    EventTypesDiffer();
  }

  /**
   Over every run: the new blocks that say peer_registered, less those asked for,
   with the handlers paused or cut off before their block, are the accepted
   registrations; and likewise for heartbeats and for failed verifications.
   */
  lemma AcceptedCallsAreRecorded(sha: PyStr -> PyStr, start: State, steps: seq<Step>)
    requires UniqueIds(start.peers)
    ensures var p := Run(sha, Start(start), steps);
            var ledger, from, h := p.state.ledger, |start.ledger|, p.history;
            && BlocksOf(ledger, from, Lit("peer_registered")) + |p.registering| + h.cutRegisters
               == h.upserts + AskedFor(h.origins, Lit("peer_registered"))
            && BlocksOf(ledger, from, Lit("peer_heartbeat")) + |p.beating| + h.cutBeats
               == h.beats + AskedFor(h.origins, Lit("peer_heartbeat"))
            && BlocksOf(ledger, from, Lit("ledger_verification_failed")) + Pending(p) + h.cutReports
               == h.failuresEver + AskedFor(h.origins, Lit("ledger_verification_failed"))
  {
    EveryRunKeepsInv(sha, start, steps);
    var p := Run(sha, Start(start), steps);
    forall i | |start.ledger| <= i < |p.state.ledger|
      ensures TypeMatches(p.state.ledger[i], p.history.origins[i])
    {
      assert NewBlockMatches(sha, p.state.ledger, p.history.origins, i);
    }
    HandlersWriteTheirTypes();
    var ledger, origins, from := p.state.ledger, p.history.origins, |start.ledger|;
    BlocksAreCounted(ledger, origins, from, Lit("peer_registered"), IS_REGISTER);
    BlocksAreCounted(ledger, origins, from, Lit("peer_heartbeat"), IS_HEARTBEAT);
    BlocksAreCounted(ledger, origins, from, Lit("ledger_verification_failed"), IS_VERIFIER);
  }

  function UpsertCalls(steps: seq<Step>): nat {
    if steps == [] then 0
    else UpsertCalls(steps[..|steps| - 1]) + if steps[|steps| - 1].UpsertCall? then 1 else 0
  }

  /** Every upsert is accepted. */
  lemma {:induction false} EveryUpsertIsAccepted(sha: PyStr -> PyStr, start: State, steps: seq<Step>)
    ensures Run(sha, Start(start), steps).history.upserts == UpsertCalls(steps)
    decreases |steps|
  {
    if steps != [] {
      EveryUpsertIsAccepted(sha, start, steps[..|steps| - 1]);
    }
  }

  // ----- what a payload says, by key ---------------------------------------------

  predicate SaysStatus(v: Option<Json>, status: PeerStatus) {
    && (status == Online ==> v == Some(String(Lit("online"))))
    && (status == Stale ==> v == Some(String(Lit("stale"))))
    && (status == Offline ==> v == Some(String(Lit("offline"))))
  }

  predicate SaysTexts(v: Option<Json>, texts: seq<PyStr>) {
    && v.Some? && v.value.Array? && |v.value.items| == |texts|
    && forall i :: 0 <= i < |texts| ==> v.value.items[i] == String(texts[i])
  }

  predicate SaysRegistration(payload: Json, p: Peer) {
    && Field(payload, "node_id") == Some(String(p.nodeId))
    && Field(payload, "node_type") == Some(String(p.nodeType))
    && Field(payload, "cloud") == Some(String(p.cloud))
    && Field(payload, "base_url") == Some(String(p.baseUrl))
    && SaysTexts(Field(payload, "capabilities"), p.capabilities)
    && SaysStatus(Field(payload, "status"), p.status)
    && Field(payload, "last_heartbeat") == Some(String(p.lastHeartbeat.text))
    && Field(payload, "metadata") == Some(p.metadata)
    && payload.Object? && |payload.members| >= 8 && payload.members[8..] == p.extra
  }

  predicate SaysHeartbeat(payload: Json, b: HeartbeatRequest) {
    SaysStatus(Field(payload, "status"), b.status) && Field(payload, "observed_at") == Some(String(b.observedAt.text))
  }

  predicate SaysReport(payload: Json, r: Verification)
    requires r.error.Some?
  {
    && Field(payload, "block_count") == Some(Int(r.blockCount))
    && Field(payload, "error") == Some(String(
         Lit("block ") + IntText(r.error.value.blockId)
         + if r.error.value.InvalidPreviousHash? then Lit(" has invalid previous_hash") else Lit(" hash mismatch")))
  }

  /** The key of a registration's i-th entry. */
  function PeerKey(i: nat): string
    requires i < 8
    ensures forall k :: 0 <= k < |PeerKey(i)| ==> PeerKey(i)[k] as int < 128
  {
    match i
    case 0 => "node_id"
    case 1 => "node_type"
    case 2 => "cloud"
    case 3 => "base_url"
    case 4 => "capabilities"
    case 5 => "status"
    case 6 => "last_heartbeat"
    case 7 => "metadata"
  }

  lemma PeerKeysDiffer(i: nat, j: nat)
    requires i < j < 8
    ensures Lit(PeerKey(i)) != Lit(PeerKey(j))
  {
    UnlikeTextsDiffer(PeerKey(i), PeerKey(j));
  }

  lemma PeerFieldAt(p: Peer, i: nat)
    requires i < 8
    ensures |PeerJson(p).members| >= 8
    ensures Field(PeerJson(p), PeerKey(i)) == Some(PeerJson(p).members[i].value)
  {
    var members := PeerJson(p).members;
    forall j | 0 <= j < i
      ensures members[j].key != Lit(PeerKey(i))
    {
      PeerKeysDiffer(j, i);
      PeerKeyAt(p, j);
    }
    PeerKeyAt(p, i);
    FieldIsAt(members, PeerKey(i), i);
  }

  lemma PeerKeyAt(p: Peer, i: nat)
    requires i < 8
    ensures |PeerJson(p).members| >= 8 && PeerJson(p).members[i].key == Lit(PeerKey(i))
  {
  }

  lemma RegistrationSays(p: Peer)
    ensures SaysRegistration(PeerJson(p), p)
  {
    PeerFieldAt(p, 0);
    PeerFieldAt(p, 1);
    PeerFieldAt(p, 2);
    PeerFieldAt(p, 3);
    PeerFieldAt(p, 4);
    PeerFieldAt(p, 5);
    PeerFieldAt(p, 6);
    PeerFieldAt(p, 7);
    assert PeerJson(p).members[8..] == p.extra;
  }

  lemma HeartbeatSays(b: HeartbeatRequest)
    ensures SaysHeartbeat(HeartbeatJson(b), b)
  {
    var members := HeartbeatJson(b).members;
    UnlikeTextsDiffer("status", "observed_at");
    FieldIsAt(members, "status", 0);
    FieldIsAt(members, "observed_at", 1);
  }

  lemma ReportSays(r: Verification)
    requires r.error.Some?
    ensures SaysReport(OriginRequest(FromVerifier(r)).payload, r)
  {
    var members := OriginRequest(FromVerifier(r)).payload.members;
    UnlikeTextsDiffer("error", "block_count");
    FieldIsAt(members, "error", 0);
    FieldIsAt(members, "block_count", 1);
  }

  /** The block records an event of this type by this node, at this time, with this payload. */
  predicate Tells(sha: PyStr -> PyStr, b: Block, eventType: PyStr, node: PyStr, now: PyStr, payload: Json) {
    && b.eventType == eventType && b.actorNode == node && b.timestamp == now
    && b.payloadHash == HashJson(sha, payload)
  }
}
