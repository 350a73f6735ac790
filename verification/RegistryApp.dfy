/** The request handlers and the verifier task of `registry_service/main.py`, run without interference. */
module RegistryApp {
  import opened PyText
  import opened CanonicalJson
  import opened Ledger
  import opened Registry
  import opened RegistryStore
  import opened RegistryProcess

  lemma RegistrationCalls(sha: PyStr -> PyStr, s: State, peer: Peer, stamp: Stamp, now: PyStr)
    ensures Next(sha, Next(sha, Start(s), UpsertCall(peer, stamp)), RegisterAppendCall(Refreshed(peer, stamp), now)).state
            == State(Upsert(s.peers, peer, stamp),
                     Append(sha, s.ledger, OriginRequest(FromRegister(Refreshed(peer, stamp))), now))
  {
  }

  lemma HeartbeatCalls(sha: PyStr -> PyStr, s: State, beat: Beat, now: PyStr)
    ensures Next(sha, Next(sha, Start(s), HeartbeatCall(beat)), HeartbeatAppendCall(beat, now)).state
            == match Heartbeat(s.peers, beat.nodeId, beat.request)
               case None => s
               case Some(peers) => State(peers, Append(sha, s.ledger, OriginRequest(FromHeartbeat(beat)), now))
  {
  }

  /** The block tells of a registration, its payload holding every field of the stored peer. */
  ghost predicate RecordsRegistration(sha: PyStr -> PyStr, b: Block, peer: Peer, now: PyStr) {
    exists payload :: SaysRegistration(payload, peer) && Tells(sha, b, Lit("peer_registered"), peer.nodeId, now, payload)
  }

  ghost predicate RecordsHeartbeat(sha: PyStr -> PyStr, b: Block, nodeId: PyStr, beat: HeartbeatRequest, now: PyStr) {
    exists payload :: SaysHeartbeat(payload, beat) && Tells(sha, b, Lit("peer_heartbeat"), nodeId, now, payload)
  }

  ghost predicate RecordsFailure(sha: PyStr -> PyStr, b: Block, result: Verification, now: PyStr)
    requires result.error.Some?
  {
    exists payload ::
      SaysReport(payload, result) && Tells(sha, b, Lit("ledger_verification_failed"), Lit("registry_service"), now, payload)
  }

  class App {
    const store: InMemoryRegistryStore
    var runs: nat
    var failures: nat
    var lastResult: Option<Verification>
    var lastCheckedAt: Option<PyStr>

    constructor (store: InMemoryRegistryStore)
      ensures this.store == store && runs == 0 && failures == 0 && lastResult == None && lastCheckedAt == None
    {
      this.store, runs, failures, lastResult, lastCheckedAt := store, 0, 0, None, None;
    }

    /** `register_peer`: the two store calls of one registration. */
    method RegisterPeer(peer: Peer, stamp: Stamp, now: PyStr) returns (registered: Peer)
      requires store.Valid()
      modifies store, store.disk
      ensures store.Valid() && registered == peer.(status := Online, lastHeartbeat := stamp)
      ensures store.Contents() ==
              Next(store.sha, Next(store.sha, Start(old(store.Contents())), UpsertCall(peer, stamp)),
                   RegisterAppendCall(registered, now)).state
      ensures |store.ledger| == |old(store.ledger)| + 1 && Lookup(store.peers, peer.nodeId) == Some(registered)
      ensures RecordsRegistration(store.sha, store.ledger[|store.ledger| - 1], registered, now)
    {
      RegistrationCalls(store.sha, store.Contents(), peer, stamp, now);
      PutThenLookup(store.peers, Refreshed(peer, stamp), peer.nodeId);
      registered := store.UpsertPeer(peer, stamp);
      RegistrationSays(registered);
      var block := store.AppendBlock(OriginRequest(FromRegister(registered)), now);
      assert Tells(store.sha, block, Lit("peer_registered"), registered.nodeId, now, PeerJson(registered));
    }

    /** `peer_heartbeat`: None is the 404 answer, which writes nothing. */
    method PeerHeartbeat(nodeId: PyStr, beat: HeartbeatRequest, now: PyStr) returns (updated: Option<Peer>)
      requires store.Valid()
      modifies store, store.disk
      ensures store.Valid()
      ensures updated == match Lookup(old(store.peers), nodeId)
                         case None => None
                         case Some(peer) => Some(peer.(status := beat.status, lastHeartbeat := beat.observedAt))
      ensures store.Contents() ==
              Next(store.sha, Next(store.sha, Start(old(store.Contents())), HeartbeatCall(Beat(nodeId, beat))),
                   HeartbeatAppendCall(Beat(nodeId, beat), now)).state
      ensures updated == None ==> store.Contents() == old(store.Contents())
      ensures updated.Some? ==>
                && |store.ledger| == |old(store.ledger)| + 1
                && RecordsHeartbeat(store.sha, store.ledger[|store.ledger| - 1], nodeId, beat, now)
    {
      HeartbeatCalls(store.sha, store.Contents(), Beat(nodeId, beat), now);
      updated := store.HeartbeatPeer(nodeId, beat);
      if updated == None {
        return;
      }
      HeartbeatSays(beat);
      var block := store.AppendBlock(OriginRequest(FromHeartbeat(Beat(nodeId, beat))), now);
      assert Tells(store.sha, block, Lit("peer_heartbeat"), nodeId, now, HeartbeatJson(beat));
    }

    /** One round of `_periodic_verifier`. */
    method VerifierRound(now: PyStr)
      requires store.Valid()
      modifies this, store, store.disk
      ensures store.Valid() && runs == old(runs) + 1 && store.peers == old(store.peers)
      ensures lastResult == Some(Verify(store.sha, old(store.ledger))) && lastCheckedAt == Some(now)
      ensures Verify(store.sha, old(store.ledger)).valid ==>
                failures == old(failures) && store.ledger == old(store.ledger)
      ensures !Verify(store.sha, old(store.ledger)).valid ==>
                && failures == old(failures) + 1
                && store.ledger == Append(store.sha, old(store.ledger),
                                          OriginRequest(FromVerifier(Verify(store.sha, old(store.ledger)))), now)
                && RecordsFailure(store.sha, store.ledger[|store.ledger| - 1], Verify(store.sha, old(store.ledger)), now)
    {
      var result := store.VerifyLedger();
      runs := runs + 1;
      lastResult, lastCheckedAt := Some(result), Some(now);
      if !result.valid {
        failures := failures + 1;
        ReportSays(result);
        ghost var request := OriginRequest(FromVerifier(result));
        var block := store.AppendBlock(OriginRequest(FromVerifier(result)), now);
        assert Tells(store.sha, block, Lit("ledger_verification_failed"), Lit("registry_service"), now, request.payload);
      }
    }
  }
}
