/** The registry's state as a value: the peer table, the ledger, and their two files. */
module Registry {
  import opened PyText
  import opened CanonicalJson
  import opened Ledger
  import opened JsonState

  // ----- peers ---------------------------------------------------------------

  datatype PeerStatus = Online | Stale | Offline

  /** A timestamp: its text, and the second that `fromisoformat` reads from it, None where it raises. */
  datatype Stamp = Stamp(text: PyStr, second: Option<int>)

  datatype Peer = Peer(
    nodeId: PyStr,
    nodeType: PyStr,
    cloud: PyStr,
    baseUrl: PyStr,
    capabilities: seq<PyStr>,
    status: PeerStatus,
    lastHeartbeat: Stamp,
    metadata: Json,
    extra: seq<Member>)

  datatype HeartbeatRequest = HeartbeatRequest(status: PeerStatus, observedAt: Stamp)

  /** A dict from node id to peer, as its values in insertion order. */
  predicate UniqueIds(peers: seq<Peer>) {
    forall i, j :: 0 <= i < j < |peers| ==> peers[i].nodeId != peers[j].nodeId
  }

  predicate Known(peers: seq<Peer>, nodeId: PyStr) {
    exists i :: 0 <= i < |peers| && peers[i].nodeId == nodeId
  }

  /** `dict.get`. */
  function Lookup(peers: seq<Peer>, nodeId: PyStr): (r: Option<Peer>)
    ensures r.Some? <==> Known(peers, nodeId)
    ensures r.Some? ==> r.value in peers && r.value.nodeId == nodeId
  {
    if peers == [] then None
    else if peers[0].nodeId == nodeId then Some(peers[0])
    else
      var r := Lookup(peers[1..], nodeId);
      assert forall i :: 0 <= i < |peers[1..]| ==> peers[1..][i] == peers[i + 1];
      assert Known(peers[1..], nodeId) <==> Known(peers, nodeId) by {
        if Known(peers, nodeId) {
          var i :| 0 <= i < |peers| && peers[i].nodeId == nodeId;
          assert peers[1..][i - 1] == peers[i];
        }
      }
      r
  }

  /** Assignment to a dict key: an old key keeps its place, a new one comes last. */
  function Put(peers: seq<Peer>, peer: Peer): seq<Peer> {
    if peers == [] then [peer]
    else if peers[0].nodeId == peer.nodeId then [peer] + peers[1..]
    else [peers[0]] + Put(peers[1..], peer)
  }

  lemma {:induction false} PutThenLookup(peers: seq<Peer>, peer: Peer, nodeId: PyStr)
    ensures Lookup(Put(peers, peer), nodeId) == if nodeId == peer.nodeId then Some(peer) else Lookup(peers, nodeId)
    ensures Known(Put(peers, peer), nodeId) <==> nodeId == peer.nodeId || Known(peers, nodeId)
  {
    if peers == [] {
    } else if peers[0].nodeId == peer.nodeId {
      assert ([peer] + peers[1..])[1..] == peers[1..];
    } else {
      PutThenLookup(peers[1..], peer, nodeId);
      assert ([peers[0]] + Put(peers[1..], peer))[1..] == Put(peers[1..], peer);
    }
    assert Lookup(Put(peers, peer), nodeId).Some? <==> Known(Put(peers, peer), nodeId);
    assert Lookup(peers, nodeId).Some? <==> Known(peers, nodeId);
  }

  lemma {:induction false} PutKeepsUniqueIds(peers: seq<Peer>, peer: Peer)
    requires UniqueIds(peers)
    ensures UniqueIds(Put(peers, peer))
  {
    if peers != [] && peers[0].nodeId != peer.nodeId {
      var rest := peers[1..];
      PutKeepsUniqueIds(rest, peer);
      assert !Known(rest, peers[0].nodeId) by {
        assert forall i :: 0 <= i < |rest| ==> rest[i] == peers[i + 1];
      }
      PutThenLookup(rest, peer, peers[0].nodeId);
    }
  }

  /** `upsert_peer`: the peer is stored as online and heard from now. */
  function Refreshed(peer: Peer, now: Stamp): Peer {
    peer.(status := Online, lastHeartbeat := now)
  }

  function Upsert(peers: seq<Peer>, peer: Peer, now: Stamp): seq<Peer> {
    Put(peers, Refreshed(peer, now))
  }

  /** The stored peer after a heartbeat. */
  function Beaten(peer: Peer, beat: HeartbeatRequest): Peer {
    peer.(status := beat.status, lastHeartbeat := beat.observedAt)
  }

  /** `heartbeat`: None for an unknown node. */
  function Heartbeat(peers: seq<Peer>, nodeId: PyStr, beat: HeartbeatRequest): Option<seq<Peer>> {
    match Lookup(peers, nodeId)
    case None => None
    case Some(peer) => Some(Put(peers, Beaten(peer, beat)))
  }

  /** The age that a reading of the second gives, never negative. */
  function SecondsSince(second: int, now: int): nat {
    if now - second > 0 then now - second else 0
  }

  function StatusOfAge(age: nat): PeerStatus {
    if age > 180 then Offline else if age > 90 then Stale else Online
  }

  predicate Readable(peer: Peer) {
    peer.lastHeartbeat.second.Some?
  }

  function FreshStatus(peer: Peer, now: int): PeerStatus
    requires Readable(peer)
  {
    StatusOfAge(SecondsSince(peer.lastHeartbeat.second.value, now))
  }

  /** `_with_fresh_status`; None where it raises. */
  function WithFreshStatus(peer: Peer, now: int): Option<Peer> {
    if Readable(peer) then Some(peer.(status := FreshStatus(peer, now))) else None
  }

  function StatusText(s: PeerStatus): PyStr {
    match s
    case Online => Lit("online")
    case Stale => Lit("stale")
    case Offline => Lit("offline")
  }

  function TextItems(ss: seq<PyStr>): (r: seq<Json>)
    ensures |r| == |ss|
  {
    seq(|ss|, i requires 0 <= i < |ss| => String(ss[i]))
  }

  /** `PeerRegistration.model_dump`: fields that the model does not declare come last. */
  function PeerJson(p: Peer): Json {
    Object([
      Member(Lit("node_id"), String(p.nodeId)),
      Member(Lit("node_type"), String(p.nodeType)),
      Member(Lit("cloud"), String(p.cloud)),
      Member(Lit("base_url"), String(p.baseUrl)),
      Member(Lit("capabilities"), Array(TextItems(p.capabilities))),
      Member(Lit("status"), String(StatusText(p.status))),
      Member(Lit("last_heartbeat"), String(p.lastHeartbeat.text)),
      Member(Lit("metadata"), p.metadata)
    ] + p.extra)
  }

  /** `PeerHeartbeat.model_dump`. */
  function HeartbeatJson(b: HeartbeatRequest): Json {
    Object([
      Member(Lit("status"), String(StatusText(b.status))),
      Member(Lit("observed_at"), String(b.observedAt.text))
    ])
  }

  // ----- the two state files -------------------------------------------------

  datatype State = State(peers: seq<Peer>, ledger: seq<Block>)

  datatype Document = PeersDocument(items: seq<Peer>) | LedgerDocument(blocks: seq<Block>)

  const PEERS_FILE := "peers.json"
  const LEDGER_FILE := "ledger.json"

  /** The dict comprehension of `_load_state`. */
  function FromItems(items: seq<Peer>): seq<Peer> {
    if items == [] then [] else Put(FromItems(items[..|items| - 1]), items[|items| - 1])
  }

  lemma {:induction false} PutNewIsLast(peers: seq<Peer>, peer: Peer)
    requires !Known(peers, peer.nodeId)
    ensures Put(peers, peer) == peers + [peer]
  {
    if peers != [] {
      assert peers[0].nodeId != peer.nodeId;
      assert !Known(peers[1..], peer.nodeId) by {
        assert forall i :: 0 <= i < |peers[1..]| ==> peers[1..][i] == peers[i + 1];
      }
      PutNewIsLast(peers[1..], peer);
      assert peers == [peers[0]] + peers[1..];
    }
  }

  /** A saved peer table loads as itself. */
  lemma {:induction false} FromItemsIsIdentity(peers: seq<Peer>)
    requires UniqueIds(peers)
    ensures FromItems(peers) == peers
  {
    if peers != [] {
      var n := |peers| - 1;
      FromItemsIsIdentity(peers[..n]);
      assert !Known(peers[..n], peers[n].nodeId);
      PutNewIsLast(peers[..n], peers[n]);
      assert peers == peers[..n] + [peers[n]];
    }
  }

  lemma {:induction false} FromItemsIsUnique(items: seq<Peer>)
    ensures UniqueIds(FromItems(items))
  {
    if items != [] {
      FromItemsIsUnique(items[..|items| - 1]);
      PutKeepsUniqueIds(FromItems(items[..|items| - 1]), items[|items| - 1]);
    }
  }

  /** `_load_state` on these files; None where it raises. */
  function Recover(files: Files<Document>): Option<State> {
    match (LoadJsonFile(files, PEERS_FILE, PeersDocument([])), LoadJsonFile(files, LEDGER_FILE, LedgerDocument([])))
    case (Some(PeersDocument(items)), Some(LedgerDocument(blocks))) => Some(State(FromItems(items), blocks))
    case _ => None
  }

  /** Every disk state in the course of one `_save_state`: first the peers' file, then the ledger's. */
  function SaveStateStates(files: Files<Document>, serial: nat, s: State): seq<Files<Document>> {
    var afterPeers := files[Named(PEERS_FILE) := Whole(PeersDocument(s.peers))];
    SaveStates(files, PEERS_FILE, serial, PeersDocument(s.peers))
    + SaveStates(afterPeers, LEDGER_FILE, serial + 1, LedgerDocument(s.ledger))
  }

  /** What a restart finds after a stop at the i-th step of saving `post` over `pre`. */
  lemma RecoverDuringSave(files: Files<Document>, serial: nat, pre: State, post: State, i: nat)
    requires Recover(files) == Some(pre) && UniqueIds(post.peers) && i < 6
    ensures |SaveStateStates(files, serial, post)| == 6
    ensures Recover(SaveStateStates(files, serial, post)[i]) ==
            Some(if i < 2 then pre else if i < 5 then State(post.peers, pre.ledger) else post)
  {
    FromItemsIsIdentity(post.peers);
    var afterPeers := files[Named(PEERS_FILE) := Whole(PeersDocument(post.peers))];
    var peersDefault, ledgerDefault := PeersDocument([]), LedgerDocument([]);
    if i < 3 {
      SaveIsAtomic(files, PEERS_FILE, serial, PeersDocument(post.peers), PEERS_FILE, peersDefault, i);
      SaveIsAtomic(files, PEERS_FILE, serial, PeersDocument(post.peers), LEDGER_FILE, ledgerDefault, i);
    } else {
      SaveIsAtomic(files, PEERS_FILE, serial, PeersDocument(post.peers), LEDGER_FILE, ledgerDefault, 2);
      SaveIsAtomic(afterPeers, LEDGER_FILE, serial + 1, LedgerDocument(post.ledger), PEERS_FILE, peersDefault, i - 3);
      SaveIsAtomic(afterPeers, LEDGER_FILE, serial + 1, LedgerDocument(post.ledger), LEDGER_FILE, ledgerDefault, i - 3);
    }
  }

  /** Wherever the process stops, a restart finds the state before or the state after. */
  ghost predicate CrashAtomic(states: seq<Files<Document>>, pre: State, post: State) {
    forall i :: 0 <= i < |states| ==> Recover(states[i]) in [Some(pre), Some(post)]
  }

  /** A save is crash-atomic iff at most one of the two files changes. */
  lemma CrashAtomicIffOneFileChanges(files: Files<Document>, serial: nat, pre: State, post: State)
    requires Recover(files) == Some(pre) && UniqueIds(post.peers)
    ensures CrashAtomic(SaveStateStates(files, serial, post), pre, post) <==>
            pre.peers == post.peers || pre.ledger == post.ledger
  {
    var states := SaveStateStates(files, serial, post);
    forall i | 0 <= i < 6
      ensures |states| == 6
      ensures Recover(states[i]) == Some(if i < 2 then pre else if i < 5 then State(post.peers, pre.ledger) else post)
    {
      RecoverDuringSave(files, serial, pre, post, i);
    }
    assert Recover(states[3]) == Some(State(post.peers, pre.ledger));
  }
}
