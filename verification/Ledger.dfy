/** The hash-chained ledger as a value: blocks, appending, and the verifier's verdict. */
module Ledger {
  import opened PyText
  import opened CanonicalJson

  datatype Block = Block(
    blockId: int,
    timestamp: PyStr,
    eventType: PyStr,
    actorNode: PyStr,
    payloadHash: PyStr,
    previousHash: Option<PyStr>,
    blockHash: PyStr)

  datatype AppendRequest = AppendRequest(eventType: PyStr, actorNode: PyStr, payload: Json)

  function OptionalText(s: Option<PyStr>): Json {
    match s
    case None => Null
    case Some(t) => String(t)
  }

  /** The dict that `_compute_block_hash` hashes, entries in source order. */
  function HeaderJson(b: Block): Json {
    Object([
      Member(Lit("block_id"), Int(b.blockId)),
      Member(Lit("timestamp"), String(b.timestamp)),
      Member(Lit("event_type"), String(b.eventType)),
      Member(Lit("actor_node"), String(b.actorNode)),
      Member(Lit("payload_hash"), String(b.payloadHash)),
      Member(Lit("previous_hash"), OptionalText(b.previousHash))
    ])
  }

  function BlockHash(sha: PyStr -> PyStr, b: Block): PyStr {
    HashJson(sha, HeaderJson(b))
  }

  function TipHash(ledger: seq<Block>): Option<PyStr> {
    if ledger == [] then None else Some(ledger[|ledger| - 1].blockHash)
  }

  /** The block that `append_block` makes, `now` being what `utc_now` returns. */
  function NewBlock(sha: PyStr -> PyStr, ledger: seq<Block>, request: AppendRequest, now: PyStr): Block {
    var block := Block(|ledger| + 1, now, request.eventType, request.actorNode,
                       HashJson(sha, request.payload), TipHash(ledger), []);
    block.(blockHash := BlockHash(sha, block))
  }

  function Append(sha: PyStr -> PyStr, ledger: seq<Block>, request: AppendRequest, now: PyStr): (r: seq<Block>)
    ensures ledger <= r && |r| == |ledger| + 1
  {
    ledger + [NewBlock(sha, ledger, request, now)]
  }

  predicate LinkOk(ledger: seq<Block>, i: nat)
    requires i < |ledger|
  {
    ledger[i].previousHash == TipHash(ledger[..i])
  }

  predicate BlockOk(sha: PyStr -> PyStr, ledger: seq<Block>, i: nat)
    requires i < |ledger|
  {
    LinkOk(ledger, i) && ledger[i].blockHash == BlockHash(sha, ledger[i])
  }

  ghost predicate Intact(sha: PyStr -> PyStr, ledger: seq<Block>) {
    forall i :: 0 <= i < |ledger| ==> BlockOk(sha, ledger, i)
  }

  datatype VerifyError = InvalidPreviousHash(blockId: int) | HashMismatch(blockId: int)

  datatype Verification = Verification(valid: bool, blockCount: nat, error: Option<VerifyError>)

  /** The message of a `LedgerVerificationResult`. */
  function ErrorText(e: VerifyError): PyStr {
    Lit("block ") + IntText(e.blockId) +
    match e
    case InvalidPreviousHash(_) => Lit(" has invalid previous_hash")
    case HashMismatch(_) => Lit(" hash mismatch")
  }

  /** The position of the first failing block, or the length of the ledger. */
  function FirstBad(sha: PyStr -> PyStr, ledger: seq<Block>, from: nat): (k: nat)
    requires from <= |ledger|
    ensures from <= k <= |ledger|
    ensures forall j :: from <= j < k ==> BlockOk(sha, ledger, j)
    ensures k < |ledger| ==> !BlockOk(sha, ledger, k)
    decreases |ledger| - from
  {
    if from < |ledger| && BlockOk(sha, ledger, from) then FirstBad(sha, ledger, from + 1) else from
  }

  /** `verify_ledger`. */
  function Verify(sha: PyStr -> PyStr, ledger: seq<Block>): (r: Verification)
    ensures r.valid <==> Intact(sha, ledger)
    ensures r.valid <==> r.error.None?
  {
    var k := FirstBad(sha, ledger, 0);
    Verification(
      k == |ledger|,
      |ledger|,
      if k == |ledger| then None
      else if !LinkOk(ledger, k) then Some(InvalidPreviousHash(ledger[k].blockId))
      else Some(HashMismatch(ledger[k].blockId)))
  }

  /** The verdict is a failure naming block `k` iff `k` is the first block with a wrong link or hash. */
  lemma VerifyNamesFirstBad(sha: PyStr -> PyStr, ledger: seq<Block>, k: nat)
    requires k < |ledger|
    requires !BlockOk(sha, ledger, k) && forall j :: 0 <= j < k ==> BlockOk(sha, ledger, j)
    ensures Verify(sha, ledger) ==
            Verification(false, |ledger|,
                         Some(if ledger[k].previousHash != TipHash(ledger[..k])
                              then InvalidPreviousHash(ledger[k].blockId)
                              else HashMismatch(ledger[k].blockId)))
  {
    assert FirstBad(sha, ledger, 0) == k;
  }

  lemma BlockOkInPrefix(sha: PyStr -> PyStr, ledger: seq<Block>, longer: seq<Block>, i: nat)
    requires ledger <= longer && i < |ledger|
    ensures BlockOk(sha, ledger, i) <==> BlockOk(sha, longer, i)
    ensures LinkOk(ledger, i) <==> LinkOk(longer, i)
  {
    assert ledger[..i] == longer[..i];
  }

  lemma AppendedBlockIsOk(sha: PyStr -> PyStr, ledger: seq<Block>, request: AppendRequest, now: PyStr)
    ensures BlockOk(sha, Append(sha, ledger, request, now), |ledger|)
  {
    var r := Append(sha, ledger, request, now);
    assert r[..|ledger|] == ledger;
    var block := r[|ledger|];
    SameHashedFields(block, block.(blockHash := []));
  }

  /** An append never changes the verdict or the block that is named, broken ledger or not. */
  lemma AppendKeepsVerdict(sha: PyStr -> PyStr, ledger: seq<Block>, request: AppendRequest, now: PyStr)
    ensures var before, after := Verify(sha, ledger), Verify(sha, Append(sha, ledger, request, now));
            after.valid == before.valid && after.error == before.error && after.blockCount == before.blockCount + 1
  {
    var r := Append(sha, ledger, request, now);
    AppendedBlockIsOk(sha, ledger, request, now);
    var k := FirstBad(sha, ledger, 0);
    forall j | 0 <= j < |ledger|
      ensures BlockOk(sha, ledger, j) <==> BlockOk(sha, r, j)
      ensures LinkOk(ledger, j) <==> LinkOk(r, j)
    {
      BlockOkInPrefix(sha, ledger, r, j);
    }
    if k < |ledger| {
      VerifyNamesFirstBad(sha, r, k);
      assert r[..k] == ledger[..k];
    }
  }

  /** Position and identifier agree. */
  ghost predicate Numbered(ledger: seq<Block>) {
    forall i :: 0 <= i < |ledger| ==> ledger[i].blockId == i + 1
  }

  /** Any prefix of a verified ledger is verified: a cut at the end goes unnoticed. */
  lemma TruncationVerifies(sha: PyStr -> PyStr, ledger: seq<Block>, k: nat)
    requires k <= |ledger| && Verify(sha, ledger).valid
    ensures Verify(sha, ledger[..k]) == Verification(true, k, None)
  {
    forall i | 0 <= i < k
      ensures BlockOk(sha, ledger[..k], i)
    {
      BlockOkInPrefix(sha, ledger[..k], ledger, i);
    }
  }

  /** The block with its link and hash computed afresh. */
  function Relinked(sha: PyStr -> PyStr, b: Block, tip: Option<PyStr>): Block {
    var linked := b.(previousHash := tip);
    linked.(blockHash := BlockHash(sha, linked))
  }

  lemma RelinkedIsOk(sha: PyStr -> PyStr, b: Block, tip: Option<PyStr>)
    ensures Relinked(sha, b, tip).previousHash == tip
    ensures Relinked(sha, b, tip).blockHash == BlockHash(sha, Relinked(sha, b, tip))
    ensures Relinked(sha, b, tip) == b <==> b.previousHash == tip && b.blockHash == BlockHash(sha, b)
  {
    SameHashedFields(b.(previousHash := tip), Relinked(sha, b, tip));
    if b.previousHash == tip {
      SameHashedFields(b.(previousHash := tip), b);
    }
  }

  /** The same block contents with every link and hash computed afresh. */
  function Rechain(sha: PyStr -> PyStr, ledger: seq<Block>): (r: seq<Block>)
    ensures |r| == |ledger|
  {
    if ledger == [] then []
    else
      var front := Rechain(sha, ledger[..|ledger| - 1]);
      front + [Relinked(sha, ledger[|ledger| - 1], TipHash(front))]
  }

  /**
   The verifier accepts a ledger iff it is its own re-chaining. In particular it
   constrains no identifier, time, event type, actor or payload hash.
   */
  lemma {:induction false} VerifiedIffRechained(sha: PyStr -> PyStr, ledger: seq<Block>)
    ensures Verify(sha, ledger).valid <==> Rechain(sha, ledger) == ledger
    ensures Verify(sha, Rechain(sha, ledger)).valid
  {
    if ledger != [] {
      var n := |ledger| - 1;
      var front, r := Rechain(sha, ledger[..n]), Rechain(sha, ledger);
      VerifiedIffRechained(sha, ledger[..n]);
      assert r[..n] == front && r[n] == Relinked(sha, ledger[n], TipHash(front));
      RelinkedIsOk(sha, ledger[n], TipHash(front));
      IntactIffLast(sha, r);
      IntactIffLast(sha, ledger);
      assert ledger == ledger[..n] + [ledger[n]];
    }
  }

  lemma IntactIffLast(sha: PyStr -> PyStr, ledger: seq<Block>)
    requires ledger != []
    ensures var n := |ledger| - 1; Intact(sha, ledger) <==> Intact(sha, ledger[..n]) && BlockOk(sha, ledger, n)
  {
    var n := |ledger| - 1;
    var front := ledger[..n];
    forall i | 0 <= i < n
      ensures BlockOk(sha, front, i) <==> BlockOk(sha, ledger, i)
    {
      BlockOkInPrefix(sha, front, ledger, i);
    }
    if Intact(sha, ledger) {
      assert forall i :: 0 <= i < n ==> BlockOk(sha, ledger, i);
      assert BlockOk(sha, ledger, n);
    } else {
      var i :| 0 <= i < |ledger| && !BlockOk(sha, ledger, i);
      assert i < n ==> !BlockOk(sha, front, i);
    }
  }

  lemma SameHashedFields(a: Block, b: Block)
    requires a.(blockHash := []) == b.(blockHash := [])
    ensures HeaderJson(a) == HeaderJson(b)
  {
  }
}
