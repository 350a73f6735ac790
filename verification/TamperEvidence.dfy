/** What an unchanged tip hash says about everything below it. */
module TamperEvidence {
  import opened PyText
  import opened CanonicalJson
  import opened JsonCanonical
  import opened Ledger

  function HeaderText(b: Block): PyStr {
    StableJsonDumps(HeaderJson(b))
  }

  /** No string of the header has an adjacent surrogate pair; validated text has no surrogates at all. */
  predicate PairedBlock(b: Block) {
    && Paired(b.timestamp) && Paired(b.eventType) && Paired(b.actorNode) && Paired(b.payloadHash)
    && (b.previousHash.Some? ==> Paired(b.previousHash.value))
  }

  ghost predicate PairedLedger(ledger: seq<Block>) {
    forall i :: 0 <= i < |ledger| ==> PairedBlock(ledger[i])
  }

  /** Equal in everything that is hashed. */
  predicate SameHeader(a: Block, b: Block) {
    a.(blockHash := []) == b.(blockHash := [])
  }

  /** The key of a header's i-th entry. */
  function HeaderKey(i: nat): string
    requires i < 6
    ensures forall k :: 0 <= k < |HeaderKey(i)| ==> HeaderKey(i)[k] as int < 128
  {
    match i
    case 0 => "block_id"
    case 1 => "timestamp"
    case 2 => "event_type"
    case 3 => "actor_node"
    case 4 => "payload_hash"
    case 5 => "previous_hash"
  }

  lemma HeaderKeyAt(b: Block, i: nat)
    requires i < 6
    ensures |HeaderJson(b).members| == 6 && HeaderJson(b).members[i].key == Lit(HeaderKey(i))
  {
  }

  lemma HeaderKeysDiffer(i: nat, j: nat)
    requires i < j < 6
    ensures Lit(HeaderKey(i)) != Lit(HeaderKey(j))
  {
    if i == 2 && j == 3 {
      assert Lit("event_type")[0] == 'e' as int && Lit("actor_node")[0] == 'a' as int;
    } else {
      assert |Lit(HeaderKey(i))| != |Lit(HeaderKey(j))|;
    }
  }

  lemma HeaderKeysDistinct(b: Block)
    ensures DistinctKeys(HeaderJson(b).members)
  {
    forall i, j | 0 <= i < j < |HeaderJson(b).members|
      ensures HeaderJson(b).members[i].key != HeaderJson(b).members[j].key
    {
      HeaderKeyAt(b, i);
      HeaderKeyAt(b, j);
      HeaderKeysDiffer(i, j);
    }
  }

  lemma HeaderValueAt(b: Block, i: nat)
    requires i < 6
    ensures var v := HeaderJson(b).members[i].value;
            IsPython(v) && (PairedBlock(b) ==> AllPaired(v))
  {
  }

  lemma HeaderIsPython(b: Block)
    ensures IsPython(HeaderJson(b))
    ensures PairedBlock(b) ==> AllPaired(HeaderJson(b))
  {
    HeaderKeysDistinct(b);
    var m := HeaderJson(b).members;
    forall i | 0 <= i < |m|
      ensures IsPython(m[i].value)
      ensures Paired(m[i].key) && (PairedBlock(b) ==> AllPaired(m[i].value))
    {
      HeaderKeyAt(b, i);
      HeaderValueAt(b, i);
    }
    MembersArePythonFrom(m);
    if PairedBlock(b) {
      MembersPairedFrom(m);
    }
  }

  lemma HeaderValuesAgree(a: Block, b: Block, i: nat)
    requires i < 6 && Denote(HeaderJson(a)) == Denote(HeaderJson(b))
    ensures Denote(HeaderJson(a).members[i].value) == Denote(HeaderJson(b).members[i].value)
  {
    HeaderKeyAt(a, i);
    HeaderKeyAt(b, i);
    HeaderKeysDistinct(a);
    HeaderKeysDistinct(b);
    SameMapSameValue(HeaderJson(a).members, HeaderJson(b).members, i);
  }

  lemma SameMapSameValue(a: seq<Member>, b: seq<Member>, i: nat)
    requires DistinctKeys(a) && DistinctKeys(b) && DenoteMembers(a) == DenoteMembers(b)
    requires i < |a| && i < |b| && a[i].key == b[i].key
    ensures Denote(a[i].value) == Denote(b[i].value)
  {
    DenoteAt(a, i);
    DenoteAt(b, i);
  }

  /** The dict of a header determines every field of the header. */
  lemma HeaderMeaningFixesHeader(a: Block, b: Block)
    requires Denote(HeaderJson(a)) == Denote(HeaderJson(b))
    ensures SameHeader(a, b)
  {
    HeaderValuesAgree(a, b, 0);
    HeaderValuesAgree(a, b, 1);
    HeaderValuesAgree(a, b, 2);
    HeaderValuesAgree(a, b, 3);
    HeaderValuesAgree(a, b, 4);
    HeaderValuesAgree(a, b, 5);
    assert Denote(OptionalText(a.previousHash)) == Denote(OptionalText(b.previousHash));
  }

  /** Equal block hashes come from equal headers, or the two header texts collide. */
  lemma EqualHashEqualHeaderOrCollision(sha: PyStr -> PyStr, a: Block, b: Block)
    requires PairedBlock(a) && PairedBlock(b) && BlockHash(sha, a) == BlockHash(sha, b)
    ensures SameHeader(a, b) || Collision(sha, HeaderText(a), HeaderText(b))
  {
    HeaderIsPython(a);
    HeaderIsPython(b);
    EqualHashEqualValueOrCollision(sha, HeaderJson(a), HeaderJson(b));
    if Denote(HeaderJson(a)) == Denote(HeaderJson(b)) {
      HeaderMeaningFixesHeader(a, b);
    }
  }

  /** How far below the tips the first two different headers stand, or None if the ledgers are equal. */
  function FindDivergence(a: seq<Block>, b: seq<Block>): (r: Option<nat>)
    ensures r.Some? ==> r.value < |a| && r.value < |b|
  {
    if a == [] || b == [] then None
    else if !SameHeader(a[|a| - 1], b[|b| - 1]) then Some(0)
    else
      match FindDivergence(a[..|a| - 1], b[..|b| - 1])
      case None => None
      case Some(k) => Some(k + 1)
  }

  /** Two headers at the same depth below their tips that differ and yet have one SHA-256 digest. */
  ghost predicate CollidesAt(sha: PyStr -> PyStr, a: seq<Block>, b: seq<Block>, k: nat) {
    k < |a| && k < |b| &&
    Collision(sha, HeaderText(a[|a| - 1 - k]), HeaderText(b[|b| - 1 - k]))
  }

  /** The collision that `FindDivergence` finds. */
  ghost predicate HeadersCollide(sha: PyStr -> PyStr, a: seq<Block>, b: seq<Block>) {
    FindDivergence(a, b).Some? && CollidesAt(sha, a, b, FindDivergence(a, b).value)
  }

  lemma CollisionBelow(sha: PyStr -> PyStr, a: seq<Block>, b: seq<Block>)
    requires a != [] && b != [] && SameHeader(a[|a| - 1], b[|b| - 1])
    requires HeadersCollide(sha, a[..|a| - 1], b[..|b| - 1])
    ensures HeadersCollide(sha, a, b)
  {
  }

  lemma IntactPrefix(sha: PyStr -> PyStr, ledger: seq<Block>, k: nat)
    requires k <= |ledger| && Intact(sha, ledger) && PairedLedger(ledger)
    ensures Intact(sha, ledger[..k]) && PairedLedger(ledger[..k])
  {
    TruncationVerifies(sha, ledger, k);
  }

  /** The tips of two verified ledgers with the same tip hash. */
  lemma TipsAgreeOrCollide(sha: PyStr -> PyStr, a: seq<Block>, b: seq<Block>)
    requires a != [] && b != [] && TipHash(a) == TipHash(b)
    requires Intact(sha, a) && Intact(sha, b) && PairedLedger(a) && PairedLedger(b)
    ensures SameHeader(a[|a| - 1], b[|b| - 1]) ==>
              a[|a| - 1] == b[|b| - 1] && TipHash(a[..|a| - 1]) == TipHash(b[..|b| - 1])
    ensures !SameHeader(a[|a| - 1], b[|b| - 1]) ==> HeadersCollide(sha, a, b)
  {
    assert BlockOk(sha, a, |a| - 1) && BlockOk(sha, b, |b| - 1);
    EqualHashEqualHeaderOrCollision(sha, a[|a| - 1], b[|b| - 1]);
  }

  lemma {:induction false} TipBindingIntact(sha: PyStr -> PyStr, a: seq<Block>, b: seq<Block>)
    requires Intact(sha, a) && Intact(sha, b) && PairedLedger(a) && PairedLedger(b)
    requires TipHash(a) == TipHash(b)
    ensures a == b || HeadersCollide(sha, a, b)
  {
    if a != [] && b != [] {
      TipsAgreeOrCollide(sha, a, b);
      if SameHeader(a[|a| - 1], b[|b| - 1]) {
        IntactPrefix(sha, a, |a| - 1);
        IntactPrefix(sha, b, |b| - 1);
        TipBindingIntact(sha, a[..|a| - 1], b[..|b| - 1]);
        if HeadersCollide(sha, a[..|a| - 1], b[..|b| - 1]) {
          CollisionBelow(sha, a, b);
        } else {
          assert a == a[..|a| - 1] + [a[|a| - 1]] && b == b[..|b| - 1] + [b[|b| - 1]];
        }
      }
    }
  }

  /**
   Tip binding. Two verified ledgers with the same tip hash are equal block for
   block, length included, or `FindDivergence` exhibits a SHA-256 collision. So
   any edit, deletion, insertion or reordering below an unchanged tip is caught.
   */
  lemma TipBinding(sha: PyStr -> PyStr, a: seq<Block>, b: seq<Block>)
    requires Verify(sha, a).valid && Verify(sha, b).valid
    requires PairedLedger(a) && PairedLedger(b)
    requires TipHash(a) == TipHash(b)
    ensures a == b || HeadersCollide(sha, a, b)
  {
    TipBindingIntact(sha, a, b);
  }

  /** A block hash found at any height of a verified ledger fixes that height and everything below it. */
  lemma HashBindsPrefix(sha: PyStr -> PyStr, a: seq<Block>, i: nat, b: seq<Block>, j: nat)
    requires Verify(sha, a).valid && Verify(sha, b).valid
    requires PairedLedger(a) && PairedLedger(b)
    requires i < |a| && j < |b| && a[i].blockHash == b[j].blockHash
    ensures (i == j && a[..i + 1] == b[..j + 1]) || HeadersCollide(sha, a[..i + 1], b[..j + 1])
  {
    var x, y := a[..i + 1], b[..j + 1];
    IntactPrefix(sha, a, i + 1);
    IntactPrefix(sha, b, j + 1);
    TipBindingIntact(sha, x, y);
    assert |x| == i + 1 && |y| == j + 1;
  }

  // ----- from the tip to the history of requests -----------------------------

  datatype Entry = Entry(request: AppendRequest, now: PyStr)

  function Built(sha: PyStr -> PyStr, entries: seq<Entry>): (r: seq<Block>)
    ensures |r| == |entries|
  {
    if entries == [] then []
    else
      var e := entries[|entries| - 1];
      Append(sha, Built(sha, entries[..|entries| - 1]), e.request, e.now)
  }

  /** The block records this append. */
  predicate Records(sha: PyStr -> PyStr, b: Block, e: Entry) {
    && b.timestamp == e.now && b.eventType == e.request.eventType && b.actorNode == e.request.actorNode
    && b.payloadHash == HashJson(sha, e.request.payload)
  }

  ghost predicate LedgerRecords(sha: PyStr -> PyStr, ledger: seq<Block>, entries: seq<Entry>) {
    |ledger| == |entries| && forall i :: 0 <= i < |ledger| ==> Records(sha, ledger[i], entries[i])
  }

  lemma AppendRecords(sha: PyStr -> PyStr, ledger: seq<Block>, entries: seq<Entry>, e: Entry)
    requires Intact(sha, ledger) && Numbered(ledger) && LedgerRecords(sha, ledger, entries)
    ensures var r := Append(sha, ledger, e.request, e.now);
            Intact(sha, r) && Numbered(r) && LedgerRecords(sha, r, entries + [e])
  {
    assert Verify(sha, ledger).valid;
    AppendKeepsVerdict(sha, ledger, e.request, e.now);
  }

  /** Appending a history of requests gives a numbered, verified ledger that records it. */
  lemma {:induction false} BuiltRecords(sha: PyStr -> PyStr, entries: seq<Entry>)
    ensures var ledger := Built(sha, entries);
            Intact(sha, ledger) && Numbered(ledger) && LedgerRecords(sha, ledger, entries)
  {
    if entries != [] {
      var n := |entries| - 1;
      BuiltRecords(sha, entries[..n]);
      AppendRecords(sha, Built(sha, entries[..n]), entries[..n], entries[n]);
      assert entries == entries[..n] + [entries[n]];
    }
  }

  /** A payload within the encoder's exact fragment. */
  predicate Readable(e: Entry) {
    IsPython(e.request.payload) && AllPaired(e.request.payload)
  }

  /** What a block says of an append, the payload up to the order of dict entries. */
  predicate SameEntry(a: Entry, b: Entry) {
    && a.now == b.now && a.request.eventType == b.request.eventType && a.request.actorNode == b.request.actorNode
    && Denote(a.request.payload) == Denote(b.request.payload)
  }

  /** Two appends agree, or their payload texts collide. */
  predicate SameEntryOrCollision(sha: PyStr -> PyStr, a: Entry, b: Entry) {
    || SameEntry(a, b)
    || Collision(sha, StableJsonDumps(a.request.payload), StableJsonDumps(b.request.payload))
  }

  lemma SameBlockSameEntry(sha: PyStr -> PyStr, block: Block, a: Entry, b: Entry)
    requires Records(sha, block, a) && Records(sha, block, b) && Readable(a) && Readable(b)
    ensures SameEntryOrCollision(sha, a, b)
  {
    EqualHashEqualValueOrCollision(sha, a.request.payload, b.request.payload);
  }

  /**
   The tip hash fixes the whole history of appends: how many there were, and
   each one's time, event, actor and payload, unless two header texts or two
   payload texts collide.
   */
  lemma TipBindsHistory(sha: PyStr -> PyStr, x: seq<Block>, a: seq<Entry>, y: seq<Block>, b: seq<Entry>)
    requires Verify(sha, x).valid && Verify(sha, y).valid && TipHash(x) == TipHash(y)
    requires PairedLedger(x) && PairedLedger(y)
    requires LedgerRecords(sha, x, a) && LedgerRecords(sha, y, b)
    requires forall e :: e in a || e in b ==> Readable(e)
    ensures || (|a| == |b| && forall i :: 0 <= i < |a| ==> SameEntryOrCollision(sha, a[i], b[i]))
            || HeadersCollide(sha, x, y)
  {
    TipBindingIntact(sha, x, y);
    if x == y {
      forall i | 0 <= i < |a|
        ensures SameEntryOrCollision(sha, a[i], b[i])
      {
        SameBlockSameEntry(sha, x[i], a[i], b[i]);
      }
    }
  }
}
