/** `registry_service/store.py`: the store that holds the registry's state under its lock. */
module RegistryStore {
  import opened PyText
  import opened CanonicalJson
  import opened Ledger
  import opened JsonState
  import opened Registry

  /** A crash during an append leaves a ledger with the verdict it had before, the block it names included. */
  lemma CrashKeepsVerdict(sha: PyStr -> PyStr, states: seq<Files<Document>>, pre: State, request: AppendRequest,
                          now: PyStr, i: nat)
    requires CrashAtomic(states, pre, State(pre.peers, Append(sha, pre.ledger, request, now))) && i < |states|
    ensures var recovered := Recover(states[i]);
            && recovered.Some?
            && Verify(sha, recovered.value.ledger).valid == Verify(sha, pre.ledger).valid
            && Verify(sha, recovered.value.ledger).error == Verify(sha, pre.ledger).error
  {
    AppendKeepsVerdict(sha, pre.ledger, request, now);
    assert Recover(states[i]) in [Some(pre), Some(State(pre.peers, Append(sha, pre.ledger, request, now)))];
  }

  lemma RecoveredIsUnique(files: Files<Document>)
    ensures Recover(files).Some? ==> UniqueIds(Recover(files).value.peers)
  {
    var loaded: Option<Document> := LoadJsonFile(files, PEERS_FILE, PeersDocument([]));
    match loaded
    case Some(PeersDocument(items)) => FromItemsIsUnique(items);
    case _ =>
  }

  // ----- queries -----------------------------------------------------------------

  datatype Counts = Counts(online: nat, stale: nat, offline: nat)

  predicate AllReadable(peers: seq<Peer>) {
    forall i :: 0 <= i < |peers| ==> Readable(peers[i])
  }

  lemma ReadableOneMore(peers: seq<Peer>, i: nat)
    requires i < |peers|
    ensures AllReadable(peers[..i + 1]) <==> AllReadable(peers[..i]) && Readable(peers[i])
    ensures peers[..i + 1][..i] == peers[..i]
  {
    if AllReadable(peers[..i + 1]) {
      assert peers[..i + 1][i] == peers[i];
      forall k | 0 <= k < i
        ensures Readable(peers[..i][k])
      {
        assert peers[..i + 1][k] == peers[..i][k];
      }
    }
  }

  function StatusCount(peers: seq<Peer>, now: int, status: PeerStatus): nat {
    if peers == [] then 0
    else
      var n := |peers| - 1;
      StatusCount(peers[..n], now, status)
      + if Readable(peers[n]) && FreshStatus(peers[n], now) == status then 1 else 0
  }

  function Matching(peers: seq<Peer>, capability: PyStr): seq<Peer> {
    if peers == [] then []
    else
      var n := |peers| - 1;
      Matching(peers[..n], capability) + if capability in peers[n].capabilities then [peers[n]] else []
  }

  /** Each peer with its present status; None where a timestamp cannot be read. */
  function Refresh(peers: seq<Peer>, now: int): Option<seq<Peer>> {
    if peers == [] then Some([])
    else
      var n := |peers| - 1;
      match (Refresh(peers[..n], now), WithFreshStatus(peers[n], now))
      case (Some(front), Some(last)) => Some(front + [last])
      case _ => None
  }

  /** The peers that advertise a capability, in table order, each with its present status. */
  function Capable(peers: seq<Peer>, capability: PyStr, now: int): Option<seq<Peer>> {
    Refresh(Matching(peers, capability), now)
  }

  lemma {:induction false} RefreshIffReadable(peers: seq<Peer>, now: int)
    ensures Refresh(peers, now).Some? <==> AllReadable(peers)
    ensures Refresh(peers, now).Some? ==>
              && |Refresh(peers, now).value| == |peers|
              && forall i :: 0 <= i < |peers| ==> Some(Refresh(peers, now).value[i]) == WithFreshStatus(peers[i], now)
  {
    if peers != [] {
      var n := |peers| - 1;
      RefreshIffReadable(peers[..n], now);
      ReadableOneMore(peers, n);
      assert peers[..n + 1] == peers;
    }
  }

  lemma {:induction false} MatchingFilters(peers: seq<Peer>, capability: PyStr)
    ensures forall p :: p in Matching(peers, capability) <==> p in peers && capability in p.capabilities
  {
    if peers != [] {
      var n := |peers| - 1;
      MatchingFilters(peers[..n], capability);
      assert peers == peers[..n] + [peers[n]];
    }
  }

  /** The places of the matching peers. */
  function MatchingAt(peers: seq<Peer>, capability: PyStr): (at: seq<nat>)
    ensures forall k :: 0 <= k < |at| ==> at[k] < |peers|
    ensures forall j, k :: 0 <= j < k < |at| ==> at[j] < at[k]
  {
    if peers == [] then []
    else
      var n := |peers| - 1;
      MatchingAt(peers[..n], capability) + if capability in peers[n].capabilities then [n] else []
  }

  lemma {:induction false} MatchingAtIsComplete(peers: seq<Peer>, capability: PyStr, i: nat)
    requires i < |peers|
    ensures i in MatchingAt(peers, capability) <==> capability in peers[i].capabilities
  {
    var n := |peers| - 1;
    if i < n {
      MatchingAtIsComplete(peers[..n], capability, i);
    }
  }

  lemma {:induction false} MatchingIsAt(peers: seq<Peer>, capability: PyStr, k: nat)
    requires k < |MatchingAt(peers, capability)|
    ensures |Matching(peers, capability)| == |MatchingAt(peers, capability)|
    ensures Matching(peers, capability)[k] == peers[MatchingAt(peers, capability)[k]]
  {
    var n := |peers| - 1;
    SameLength(peers, capability);
    SameLength(peers[..n], capability);
    if k < |MatchingAt(peers[..n], capability)| {
      MatchingIsAt(peers[..n], capability, k);
    }
  }

  lemma {:induction false} SameLength(peers: seq<Peer>, capability: PyStr)
    ensures |Matching(peers, capability)| == |MatchingAt(peers, capability)|
  {
    if peers != [] {
      SameLength(peers[..|peers| - 1], capability);
    }
  }

  /** Each matching peer is found once, in table order. */
  lemma MatchingInOrder(peers: seq<Peer>, capability: PyStr)
    ensures var at := MatchingAt(peers, capability);
            && |Matching(peers, capability)| == |at|
            && (forall k :: 0 <= k < |at| ==> Matching(peers, capability)[k] == peers[at[k]])
            && (forall j, k :: 0 <= j < k < |at| ==> at[j] < at[k])
            && (forall i: nat :: i < |peers| ==> (i in at <==> capability in peers[i].capabilities))
  {
    SameLength(peers, capability);
    var at := MatchingAt(peers, capability);
    forall k | 0 <= k < |at|
      ensures Matching(peers, capability)[k] == peers[at[k]]
    {
      MatchingIsAt(peers, capability, k);
    }
    forall i: nat | i < |peers|
      ensures i in at <==> capability in peers[i].capabilities
    {
      MatchingAtIsComplete(peers, capability, i);
    }
  }

  /** A capability query answers iff the timestamp of every peer with the capability can be read. */
  lemma CapableAnswersIffReadable(peers: seq<Peer>, capability: PyStr, now: int)
    ensures Capable(peers, capability, now).Some? <==>
            forall p :: p in peers && capability in p.capabilities ==> Readable(p)
  {
    var matching := Matching(peers, capability);
    RefreshIffReadable(matching, now);
    MatchingFilters(peers, capability);
    if AllReadable(matching) {
      forall p | p in peers && capability in p.capabilities
        ensures Readable(p)
      {
        assert p in matching;
      }
    } else {
      var i :| 0 <= i < |matching| && !Readable(matching[i]);
      assert matching[i] in matching;
    }
  }

  /**
   Discovery returns a peer iff it advertises the capability: a peer that is
   stale or offline is returned too, marked so.
   */
  lemma CapableIgnoresStatus(peers: seq<Peer>, capability: PyStr, now: int, peer: Peer)
    requires Capable(peers, capability, now).Some?
    ensures peer in Capable(peers, capability, now).value <==>
            exists p :: p in peers && capability in p.capabilities && Some(peer) == WithFreshStatus(p, now)
  {
    var matching := Matching(peers, capability);
    var found := Capable(peers, capability, now).value;
    RefreshIffReadable(matching, now);
    MatchingFilters(peers, capability);
    if peer in found {
      var i :| 0 <= i < |found| && found[i] == peer;
      assert matching[i] in matching;
    }
    if p :| p in peers && capability in p.capabilities && Some(peer) == WithFreshStatus(p, now) {
      var i :| 0 <= i < |matching| && matching[i] == p;
      assert found[i] == peer;
    }
  }

  /** What other nodes do to the peer table. */
  datatype TableOp = Registers(peer: Peer, stamp: Stamp) | Beats(nodeId: PyStr, beat: HeartbeatRequest)
  {
    function NodeId(): PyStr {
      match this
      case Registers(peer, _) => peer.nodeId
      case Beats(nodeId, _) => nodeId
    }
  }

  function ApplyOp(peers: seq<Peer>, op: TableOp): seq<Peer> {
    match op
    case Registers(peer, stamp) => Upsert(peers, peer, stamp)
    case Beats(nodeId, beat) => (match Heartbeat(peers, nodeId, beat) case None => peers case Some(table) => table)
  }

  function ApplyAll(peers: seq<Peer>, ops: seq<TableOp>): seq<Peer>
    decreases |ops|
  {
    if ops == [] then peers else ApplyOp(ApplyAll(peers, ops[..|ops| - 1]), ops[|ops| - 1])
  }

  lemma OtherOpKeepsEntry(peers: seq<Peer>, op: TableOp, nodeId: PyStr)
    requires op.NodeId() != nodeId
    ensures Lookup(ApplyOp(peers, op), nodeId) == Lookup(peers, nodeId)
  {
    match op
    case Registers(peer, stamp) => PutThenLookup(peers, Refreshed(peer, stamp), nodeId);
    case Beats(id, beat) =>
      if Lookup(peers, id).Some? {
        PutThenLookup(peers, Beaten(Lookup(peers, id).value, beat), nodeId);
      }
  }

  lemma {:induction false} OtherOpsKeepEntry(peers: seq<Peer>, ops: seq<TableOp>, nodeId: PyStr)
    requires forall op :: op in ops ==> op.NodeId() != nodeId
    ensures Lookup(ApplyAll(peers, ops), nodeId) == Lookup(peers, nodeId)
    decreases |ops|
  {
    if ops != [] {
      OtherOpsKeepEntry(peers, ops[..|ops| - 1], nodeId);
      OtherOpKeepsEntry(ApplyAll(peers, ops[..|ops| - 1]), ops[|ops| - 1], nodeId);
    }
  }

  /**
   One heartbeat whose timestamp cannot be read stops every query for a capability
   of that node, and all counts, whatever the other nodes do, until the node itself
   is heard again.
   */
  lemma UnreadableHeartbeatStopsQueries(peers: seq<Peer>, nodeId: PyStr, beat: HeartbeatRequest, ops: seq<TableOp>,
                                        capability: PyStr, now: int)
    requires Known(peers, nodeId) && beat.observedAt.second == None
    requires capability in Lookup(peers, nodeId).value.capabilities
    requires forall op :: op in ops ==> op.NodeId() != nodeId
    ensures var table := ApplyAll(ApplyOp(peers, Beats(nodeId, beat)), ops);
            Capable(table, capability, now) == None && !AllReadable(table)
  {
    var beaten := Beaten(Lookup(peers, nodeId).value, beat);
    var table := ApplyAll(ApplyOp(peers, Beats(nodeId, beat)), ops);
    PutThenLookup(peers, beaten, nodeId);
    OtherOpsKeepEntry(ApplyOp(peers, Beats(nodeId, beat)), ops, nodeId);
    assert Lookup(table, nodeId) == Some(beaten);
    assert beaten in table && !Readable(beaten);
    CapableAnswersIffReadable(table, capability, now);
  }

  class InMemoryRegistryStore {
    const sha: PyStr -> PyStr
    const disk: FileSystem<Document>
    var peers: seq<Peer>
    var ledger: seq<Block>

    ghost predicate Valid()
      reads this, disk
    {
      disk.Valid() && UniqueIds(peers) && Recover(disk.files) == Some(Contents())
    }

    ghost function Contents(): State
      reads this
    {
      State(peers, ledger)
    }

    constructor (sha: PyStr -> PyStr, disk: FileSystem<Document>, loaded: State)
      requires disk.Valid() && Recover(disk.files) == Some(loaded) && UniqueIds(loaded.peers)
      ensures Valid() && this.sha == sha && this.disk == disk && Contents() == loaded
    {
      this.sha, this.disk := sha, disk;
      peers, ledger := loaded.peers, loaded.ledger;
    }

    /** Starting on a disk that an earlier process left; None where `_load_state` raises. */
    static method Open(sha: PyStr -> PyStr, disk: FileSystem<Document>) returns (store: InMemoryRegistryStore?)
      requires disk.Valid()
      ensures store == null <==> Recover(disk.files).None?
      ensures store != null ==>
                fresh(store) && store.Valid() && store.sha == sha && store.disk == disk &&
                Some(store.Contents()) == Recover(disk.files)
    {
      match Recover(disk.files) {
        case None => store := null;
        case Some(loaded) =>
          RecoveredIsUnique(disk.files);
          store := new InMemoryRegistryStore(sha, disk, loaded);
      }
    }

    method SaveState()
      requires disk.Valid() && UniqueIds(peers)
      modifies disk
      ensures Valid()
      ensures |old(disk.trace)| <= |disk.trace|
      ensures disk.trace[..|old(disk.trace)|] == old(disk.trace)
      ensures disk.trace[|old(disk.trace)|..] == SaveStateStates(old(disk.files), old(disk.nextSerial), Contents())
    {
      disk.SaveJsonFile(PEERS_FILE, PeersDocument(peers));
      disk.SaveJsonFile(LEDGER_FILE, LedgerDocument(ledger));
      ghost var afterPeers := old(disk.files)[Named(PEERS_FILE) := Whole(PeersDocument(peers))];
      assert disk.trace == old(disk.trace)
             + SaveStates(old(disk.files), PEERS_FILE, old(disk.nextSerial), PeersDocument(peers))
             + SaveStates(afterPeers, LEDGER_FILE, old(disk.nextSerial) + 1, LedgerDocument(ledger));
      FromItemsIsIdentity(peers);
    }

    /** The disk states written since `mark` leave a restart with `pre` or with the present contents. */
    ghost predicate CrashAtomicSince(mark: nat, pre: State)
      reads this, disk
    {
      mark <= |disk.trace| && CrashAtomic(disk.trace[mark..], pre, Contents())
    }

    method UpsertPeer(peer: Peer, now: Stamp) returns (normalized: Peer)
      requires Valid()
      modifies this, disk
      ensures Valid() && normalized == peer.(status := Online, lastHeartbeat := now)
      ensures Contents() == State(Upsert(old(peers), peer, now), old(ledger))
      ensures CrashAtomicSince(old(|disk.trace|), old(Contents()))
    {
      ghost var pre := Contents();
      normalized := Refreshed(peer, now);
      PutKeepsUniqueIds(peers, normalized);
      peers := Put(peers, normalized);
      CrashAtomicIffOneFileChanges(disk.files, disk.nextSerial, pre, Contents());
      SaveState();
    }

    method HeartbeatPeer(nodeId: PyStr, beat: HeartbeatRequest) returns (updated: Option<Peer>)
      requires Valid()
      modifies this, disk
      ensures Valid()
      ensures match Heartbeat(old(peers), nodeId, beat)
              case None => updated == None && Contents() == old(Contents()) && disk.trace == old(disk.trace)
              case Some(table) =>
                && Contents() == State(table, old(ledger))
                && updated == Some(Lookup(old(peers), nodeId).value.(status := beat.status, lastHeartbeat := beat.observedAt))
      ensures CrashAtomicSince(old(|disk.trace|), old(Contents()))
    {
      var found := Lookup(peers, nodeId);
      if found == None {
        return None;
      }
      ghost var pre := Contents();
      var peer := Beaten(found.value, beat);
      PutKeepsUniqueIds(peers, peer);
      peers := Put(peers, peer);
      CrashAtomicIffOneFileChanges(disk.files, disk.nextSerial, pre, Contents());
      SaveState();
      updated := Some(peer);
    }

    method AppendBlock(request: AppendRequest, now: PyStr) returns (block: Block)
      requires Valid()
      modifies this, disk
      ensures Valid() && ledger != [] && block == ledger[|ledger| - 1]
      ensures Contents() == State(old(peers), Append(sha, old(ledger), request, now))
      ensures CrashAtomicSince(old(|disk.trace|), old(Contents()))
    {
      ghost var pre := Contents();
      var previousHash := if ledger == [] then None else Some(ledger[|ledger| - 1].blockHash);
      block := Block(|ledger| + 1, now, request.eventType, request.actorNode,
                     HashJson(sha, request.payload), previousHash, []);
      block := block.(blockHash := BlockHash(sha, block));
      ledger := ledger + [block];
      CrashAtomicIffOneFileChanges(disk.files, disk.nextSerial, pre, Contents());
      SaveState();
    }

    method VerifyLedger() returns (r: Verification)
      ensures r == Verify(sha, ledger)
    {
      var previousHash: Option<PyStr> := None;
      for i := 0 to |ledger|
        invariant previousHash == TipHash(ledger[..i])
        invariant forall j :: 0 <= j < i ==> BlockOk(sha, ledger, j)
      {
        var block := ledger[i];
        var expectedHash := BlockHash(sha, block);
        if block.previousHash != previousHash {
          VerifyNamesFirstBad(sha, ledger, i);
          return Verification(false, |ledger|, Some(InvalidPreviousHash(block.blockId)));
        }
        if block.blockHash != expectedHash {
          VerifyNamesFirstBad(sha, ledger, i);
          return Verification(false, |ledger|, Some(HashMismatch(block.blockId)));
        }
        previousHash := Some(block.blockHash);
      }
      r := Verification(true, |ledger|, None);
    }

    /** `peer_counts`; None where a timestamp cannot be read. */
    method PeerCounts(now: int) returns (r: Option<Counts>)
      ensures r.Some? <==> AllReadable(peers)
      ensures r.Some? ==>
                && r.value == Counts(StatusCount(peers, now, Online), StatusCount(peers, now, Stale),
                                     StatusCount(peers, now, Offline))
                && r.value.online + r.value.stale + r.value.offline == |peers|
    {
      var online, stale, offline := 0, 0, 0;
      for i := 0 to |peers|
        invariant AllReadable(peers[..i])
        invariant online == StatusCount(peers[..i], now, Online)
        invariant stale == StatusCount(peers[..i], now, Stale)
        invariant offline == StatusCount(peers[..i], now, Offline)
        invariant online + stale + offline == i
      {
        ReadableOneMore(peers, i);
        var peer := WithFreshStatus(peers[i], now);
        if peer == None {
          return None;
        }
        match peer.value.status {
          case Online => online := online + 1;
          case Stale => stale := stale + 1;
          case Offline => offline := offline + 1;
        }
      }
      assert peers[..|peers|] == peers;
      r := Some(Counts(online, stale, offline));
    }

    /** The two comprehensions of `peers_with_capability`; None where a timestamp cannot be read. */
    method PeersWithCapability(capability: PyStr, now: int) returns (r: Option<seq<Peer>>)
      ensures r == Capable(peers, capability, now)
    {
      var matching: seq<Peer> := [];
      for i := 0 to |peers|
        invariant matching == Matching(peers[..i], capability)
      {
        assert peers[..i + 1][..i] == peers[..i];
        if capability in peers[i].capabilities {
          matching := matching + [peers[i]];
        }
      }
      assert peers[..|peers|] == peers;
      var found: seq<Peer> := [];
      for i := 0 to |matching|
        invariant matching == Matching(peers, capability)
        invariant Refresh(matching[..i], now) == Some(found)
      {
        assert matching[..i + 1][..i] == matching[..i];
        var peer := WithFreshStatus(matching[i], now);
        if peer == None {
          RefreshIffReadable(matching, now);
          return None;
        }
        found := found + [peer.value];
      }
      assert matching[..|matching|] == matching;
      r := Some(found);
    }
  }
}
