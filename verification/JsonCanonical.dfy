/** The canonical text decides equality of values, and nothing but equality. */
module JsonCanonical {
  import opened PyText
  import opened CanonicalJson
  import opened JsonParser
  import opened JsonRoundTrip

  // ----- sorting -----------------------------------------------------------

  predicate Sorted(members: seq<Member>) {
    forall i, j :: 0 <= i < j < |members| ==> Before(members[i].key, members[j].key)
  }

  lemma {:induction false} InsertKeepsSorted(m: Member, sorted: seq<Member>)
    requires Sorted(sorted) && forall i :: 0 <= i < |sorted| ==> sorted[i].key != m.key
    ensures Sorted(Insert(m, sorted))
    ensures forall x :: x in Insert(m, sorted) <==> x == m || x in sorted
  {
    if sorted != [] {
      BeforeIsTotal(m.key, sorted[0].key);
      var r := Insert(m, sorted);
      if Before(m.key, sorted[0].key) {
        forall j | 0 < j < |sorted|
          ensures Before(m.key, sorted[j].key)
        {
          BeforeIsTransitive(m.key, sorted[0].key, sorted[j].key);
        }
      } else {
        InsertKeepsSorted(m, sorted[1..]);
        var tail := Insert(m, sorted[1..]);
        assert r == [sorted[0]] + tail;
        forall j | 0 <= j < |tail|
          ensures Before(sorted[0].key, tail[j].key)
        {
          assert tail[j] in tail;
        }
        assert forall x :: x in sorted <==> x == sorted[0] || x in sorted[1..];
      }
    }
  }

  lemma {:induction false} SortMembersSorts(members: seq<Member>)
    requires DistinctKeys(members)
    ensures Sorted(SortMembers(members))
    ensures forall x :: x in SortMembers(members) <==> x in members
  {
    if members != [] {
      var rest := members[1..];
      SortMembersSorts(rest);
      var sorted := SortMembers(rest);
      forall i | 0 <= i < |sorted|
        ensures sorted[i].key != members[0].key
      {
        assert sorted[i] in rest;
        var j :| 0 <= j < |rest| && rest[j] == sorted[i];
        assert members[j + 1] == sorted[i];
      }
      InsertKeepsSorted(members[0], sorted);
      assert forall x :: x in members <==> x == members[0] || x in rest;
    }
  }

  /** A sorted list of entries is determined by the set of its entries. */
  lemma {:induction false} SortedIsUnique(a: seq<Member>, b: seq<Member>)
    requires Sorted(a) && Sorted(b)
    requires forall x :: x in a <==> x in b
    ensures a == b
  {
    assert a != [] ==> a[0] in a;
    assert b != [] ==> b[0] in b;
    if a != [] {
      HeadsAgree(a, b);
      var a', b' := a[1..], b[1..];
      TailOfSorted(a);
      TailOfSorted(b);
      SortedIsUnique(a', b');
      assert a == [a[0]] + a' && b == [b[0]] + b';
    }
  }

  lemma HeadsAgree(a: seq<Member>, b: seq<Member>)
    requires Sorted(a) && Sorted(b) && a != [] && b != []
    requires forall x :: x in a <==> x in b
    ensures a[0] == b[0]
  {
    assert a[0] in b && b[0] in a by {
      assert a[0] in a && b[0] in b;
    }
    var i :| 0 <= i < |b| && b[i] == a[0];
    var j :| 0 <= j < |a| && a[j] == b[0];
    if i != 0 && j != 0 {
      BeforeIsTotal(a[0].key, b[0].key);
    }
  }

  lemma TailOfSorted(a: seq<Member>)
    requires Sorted(a) && a != []
    ensures Sorted(a[1..])
    ensures forall x :: x in a[1..] <==> x in a && x != a[0]
  {
    forall x | x in a[1..]
      ensures x in a && x != a[0]
    {
      var i :| 0 <= i < |a[1..]| && a[1..][i] == x;
      assert a[i + 1] == x;
      BeforeIsTotal(a[0].key, a[0].key);
    }
    forall x | x in a && x != a[0]
      ensures x in a[1..]
    {
      var i :| 0 <= i < |a| && a[i] == x;
      assert a[1..][i - 1] == x;
    }
  }

  // ----- dicts as maps -----------------------------------------------------

  lemma {:induction false} DenoteAt(members: seq<Member>, i: nat)
    requires DistinctKeys(members) && i < |members|
    ensures members[i].key in DenoteMembers(members)
    ensures DenoteMembers(members)[members[i].key] == Denote(members[i].value)
  {
    var rest := members[1..];
    if i == 0 {
      assert !HasKey(rest, members[0].key) by {
        forall j | 0 <= j < |rest|
          ensures rest[j].key != members[0].key
        {
          assert rest[j] == members[j + 1];
        }
      }
    } else {
      assert rest[i - 1] == members[i];
      DenoteAt(rest, i - 1);
    }
  }

  lemma {:induction false} CanonMembersAt(members: seq<Member>, i: nat)
    requires i < |members|
    ensures CanonMembers(members)[i] == Member(members[i].key, Canon(members[i].value))
  {
    if i > 0 {
      CanonMembersAt(members[1..], i - 1);
    }
  }

  lemma {:induction false} MembersArePythonAt(members: seq<Member>, i: nat)
    requires MembersArePython(members) && i < |members|
    ensures IsPython(members[i].value)
  {
    if i > 0 {
      MembersArePythonAt(members[1..], i - 1);
    }
  }

  lemma {:induction false} MembersArePythonFrom(members: seq<Member>)
    requires forall i :: 0 <= i < |members| ==> IsPython(members[i].value)
    ensures MembersArePython(members)
  {
    if members != [] {
      forall i | 0 <= i < |members[1..]|
        ensures IsPython(members[1..][i].value)
      {
        assert members[1..][i] == members[i + 1];
      }
      MembersArePythonFrom(members[1..]);
    }
  }

  lemma SortedKeysAreDistinct(members: seq<Member>)
    requires Sorted(members)
    ensures DistinctKeys(members)
  {
    forall i, j | 0 <= i < j < |members|
      ensures members[i].key != members[j].key
    {
      BeforeIsTotal(members[i].key, members[i].key);
    }
  }

  lemma CanonEntries(members: seq<Member>)
    requires DistinctKeys(members)
    ensures var sorted := SortMembers(CanonMembers(members));
            && Sorted(sorted) && DistinctKeys(sorted)
            && forall m :: m in sorted <==> m in CanonMembers(members)
  {
    SortMembersSorts(CanonMembers(members));
    SortedKeysAreDistinct(SortMembers(CanonMembers(members)));
  }

  /** Sorting the keys of a value does not change what it means. */
  lemma {:induction false} CanonKeepsMeaning(v: Json)
    requires IsPython(v)
    ensures Denote(Canon(v)) == Denote(v)
    decreases v, 0
  {
    match v
    case Array(items) => CanonItemsKeepMeaning(items);
    case Object(members) =>
      CanonMembersKeepMeaning(members);
      SortKeepsMap(CanonMembers(members));
    case _ =>
  }

  lemma {:induction false} CanonMembersKeepMeaning(members: seq<Member>)
    requires MembersArePython(members)
    ensures DenoteMembers(CanonMembers(members)) == DenoteMembers(members)
    decreases members, 0
  {
    if members != [] {
      CanonKeepsMeaning(members[0].value);
      CanonMembersKeepMeaning(members[1..]);
      assert CanonMembers(members)[1..] == CanonMembers(members[1..]);
    }
  }

  /** The map of a dict depends on the set of its entries only. */
  lemma EntriesFixMap(a: seq<Member>, b: seq<Member>)
    requires DistinctKeys(a) && DistinctKeys(b) && forall m :: m in a ==> m in b
    ensures forall k :: k in DenoteMembers(a) ==> k in DenoteMembers(b) && DenoteMembers(b)[k] == DenoteMembers(a)[k]
  {
    forall k | k in DenoteMembers(a)
      ensures k in DenoteMembers(b) && DenoteMembers(b)[k] == DenoteMembers(a)[k]
    {
      var i :| 0 <= i < |a| && a[i].key == k;
      assert a[i] in b;
      var j :| 0 <= j < |b| && b[j] == a[i];
      DenoteAt(a, i);
      DenoteAt(b, j);
    }
  }

  lemma SortKeepsMap(members: seq<Member>)
    requires DistinctKeys(members)
    ensures DenoteMembers(SortMembers(members)) == DenoteMembers(members)
  {
    SortMembersSorts(members);
    SortedKeysAreDistinct(SortMembers(members));
    EntriesFixMap(members, SortMembers(members));
    EntriesFixMap(SortMembers(members), members);
  }

  lemma {:induction false} CanonItemsKeepMeaning(items: seq<Json>)
    requires ArePython(items)
    ensures DenoteItems(CanonItems(items)) == DenoteItems(items)
    decreases items, 0
  {
    if items != [] {
      CanonKeepsMeaning(items[0]);
      CanonItemsKeepMeaning(items[1..]);
    }
  }

  /** Values that mean the same have the same canonical form, whatever their insertion order. */
  lemma {:induction false} MeaningFixesCanon(v: Json, w: Json)
    requires IsPython(v) && IsPython(w) && Denote(v) == Denote(w)
    ensures Canon(v) == Canon(w)
    decreases v, 0
  {
    match v
    case Array(items) => MeaningFixesCanonItems(items, w.items);
    case Object(a) =>
      var b := w.members;
      forall i | 0 <= i < |a|
        ensures CanonMembers(a)[i] in CanonMembers(b)
      {
        DenoteAt(a, i);
        var j := SameEntry(a, b, i);
        MembersArePythonAt(a, i);
        MembersArePythonAt(b, j);
        MeaningFixesCanon(a[i].value, b[j].value);
        CanonMembersAt(a, i);
        CanonMembersAt(b, j);
      }
      forall j | 0 <= j < |b|
        ensures CanonMembers(b)[j] in CanonMembers(a)
      {
        var i := SameEntry(b, a, j);
        MembersArePythonAt(a, i);
        MembersArePythonAt(b, j);
        MeaningFixesCanon(a[i].value, b[j].value);
        CanonMembersAt(a, i);
        CanonMembersAt(b, j);
      }
      CanonEntries(a);
      CanonEntries(b);
      SortedIsUnique(SortMembers(CanonMembers(a)), SortMembers(CanonMembers(b)));
    case _ =>
  }

  lemma SameEntry(a: seq<Member>, b: seq<Member>, i: nat) returns (j: nat)
    requires DistinctKeys(a) && DistinctKeys(b) && DenoteMembers(a) == DenoteMembers(b)
    requires i < |a|
    ensures j < |b| && b[j].key == a[i].key && Denote(b[j].value) == Denote(a[i].value)
  {
    DenoteAt(a, i);
    assert HasKey(b, a[i].key);
    j :| 0 <= j < |b| && b[j].key == a[i].key;
    DenoteAt(b, j);
  }

  lemma {:induction false} MeaningFixesCanonItems(a: seq<Json>, b: seq<Json>)
    requires ArePython(a) && ArePython(b) && DenoteItems(a) == DenoteItems(b)
    ensures CanonItems(a) == CanonItems(b)
    decreases a, 0
  {
    if a != [] {
      assert DenoteItems(a)[0] == Denote(a[0]) && DenoteItems(b)[0] == Denote(b[0]);
      assert DenoteItems(a)[1..] == DenoteItems(a[1..]) && DenoteItems(b)[1..] == DenoteItems(b[1..]);
      MeaningFixesCanon(a[0], b[0]);
      MeaningFixesCanonItems(a[1..], b[1..]);
    } else {
      assert |DenoteItems(a)| == |DenoteItems(b)|;
    }
  }

  // ----- surrogates --------------------------------------------------------

  /** No string of the value, keys included, has an adjacent surrogate pair. */
  predicate AllPaired(v: Json)
    decreases v, 0
  {
    match v
    case String(s) => Paired(s)
    case Array(items) => ItemsPaired(items)
    case Object(members) => MembersPaired(members)
    case _ => true
  }

  predicate ItemsPaired(items: seq<Json>)
    decreases items, 0
  {
    items == [] || (AllPaired(items[0]) && ItemsPaired(items[1..]))
  }

  predicate MembersPaired(members: seq<Member>)
    decreases members, 0
  {
    members == [] ||
    (Paired(members[0].key) && AllPaired(members[0].value) && MembersPaired(members[1..]))
  }

  lemma {:induction false} MembersPairedFrom(members: seq<Member>)
    requires forall i :: 0 <= i < |members| ==> Paired(members[i].key) && AllPaired(members[i].value)
    ensures MembersPaired(members)
  {
    if members != [] {
      forall i | 0 <= i < |members[1..]|
        ensures Paired(members[1..][i].key) && AllPaired(members[1..][i].value)
      {
        assert members[1..][i] == members[i + 1];
      }
      MembersPairedFrom(members[1..]);
    }
  }

  lemma ConsEqual<T>(x: T, xs: seq<T>, y: T, ys: seq<T>)
    ensures [x] + xs == [y] + ys <==> x == y && xs == ys
  {
    assert ([x] + xs)[0] == x && ([y] + ys)[0] == y;
    assert ([x] + xs)[1..] == xs && ([y] + ys)[1..] == ys;
  }

  lemma {:induction false} MergedIsIdentityIffPaired(v: Json)
    ensures Merged(v) == v <==> AllPaired(v)
    decreases v, 0
  {
    match v
    case String(s) => MergeIsIdentityIffPaired(s);
    case Array(items) => MergedItemsIffPaired(items);
    case Object(members) => MergedMembersIffPaired(members);
    case _ =>
  }

  lemma {:induction false} MergedItemsIffPaired(items: seq<Json>)
    ensures MergedItems(items) == items <==> ItemsPaired(items)
    decreases items, 0
  {
    if items != [] {
      MergedIsIdentityIffPaired(items[0]);
      MergedItemsIffPaired(items[1..]);
      ConsEqual(Merged(items[0]), MergedItems(items[1..]), items[0], items[1..]);
      assert items == [items[0]] + items[1..];
    }
  }

  lemma {:induction false} MergedMembersIffPaired(members: seq<Member>)
    ensures MergedMembers(members) == members <==> MembersPaired(members)
    decreases members, 0
  {
    if members != [] {
      MergeIsIdentityIffPaired(members[0].key);
      MergedIsIdentityIffPaired(members[0].value);
      MergedMembersIffPaired(members[1..]);
      var m, rest := members[0], members[1..];
      var n := Member(Merge(m.key), Merged(m.value));
      ConsEqual(n, MergedMembers(rest), m, rest);
      assert members == [m] + rest;
    }
  }

  lemma {:induction false} InsertPaired(m: Member, sorted: seq<Member>)
    ensures MembersPaired(Insert(m, sorted)) <==>
            Paired(m.key) && AllPaired(m.value) && MembersPaired(sorted)
  {
    if sorted != [] {
      InsertPaired(m, sorted[1..]);
      assert ([m] + sorted)[1..] == sorted;
      assert ([sorted[0]] + Insert(m, sorted[1..]))[1..] == Insert(m, sorted[1..]);
    }
  }

  lemma {:induction false} SortPaired(members: seq<Member>)
    ensures MembersPaired(SortMembers(members)) <==> MembersPaired(members)
  {
    if members != [] {
      SortPaired(members[1..]);
      InsertPaired(members[0], SortMembers(members[1..]));
    }
  }

  lemma {:induction false} CanonPaired(v: Json)
    ensures AllPaired(Canon(v)) <==> AllPaired(v)
    decreases v, 0
  {
    match v
    case Array(items) => CanonItemsPaired(items);
    case Object(members) =>
      CanonMembersPaired(members);
      SortPaired(CanonMembers(members));
    case _ =>
  }

  lemma {:induction false} CanonItemsPaired(items: seq<Json>)
    ensures ItemsPaired(CanonItems(items)) <==> ItemsPaired(items)
    decreases items, 0
  {
    if items != [] {
      CanonPaired(items[0]);
      CanonItemsPaired(items[1..]);
      assert CanonItems(items)[1..] == CanonItems(items[1..]);
    }
  }

  lemma {:induction false} CanonMembersPaired(members: seq<Member>)
    ensures MembersPaired(CanonMembers(members)) <==> MembersPaired(members)
    decreases members, 0
  {
    if members != [] {
      CanonPaired(members[0].value);
      CanonMembersPaired(members[1..]);
      assert CanonMembers(members)[1..] == CanonMembers(members[1..]);
    }
  }

  // ----- what the text forgets ---------------------------------------------

  lemma SplitOfCombine(high: int, low: int)
    requires IsHigh(high) && IsLow(low)
    ensures HighOf(Combine(high, low)) == high && LowOf(Combine(high, low)) == low
  {
  }

  lemma {:induction false} EscapeForgetsPairing(s: PyStr)
    ensures EscapeAll(Merge(s)) == EscapeAll(s)
    decreases |s|
  {
    if s == [] {
    } else if |s| >= 2 && IsHigh(s[0]) && IsLow(s[1]) {
      var c := Combine(s[0], s[1]);
      SplitOfCombine(s[0], s[1]);
      EscapeForgetsPairing(s[2..]);
      assert Merge(s)[1..] == Merge(s[2..]);
      assert EscapeAll(s[1..]) == Escape(s[1]) + EscapeAll(s[1..][1..]) && s[1..][1..] == s[2..];
      assert Escape(c) == Escape(s[0]) + Escape(s[1]);
      Assoc(Escape(s[0]), Escape(s[1]), EscapeAll(s[2..]));
    } else {
      EscapeForgetsPairing(s[1..]);
      assert Merge(s)[1..] == Merge(s[1..]);
    }
  }

  /** The text of a value does not tell a surrogate pair from the character it stands for. */
  lemma {:induction false} RenderForgetsPairing(v: Json)
    ensures Render(Merged(v)) == Render(v)
    decreases v, 0
  {
    match v
    case String(s) => EscapeForgetsPairing(s);
    case Array(items) =>
      if items != [] {
        ItemsForgetPairing(items);
      }
    case Object(members) =>
      if members != [] {
        MembersForgetPairing(members);
      }
    case _ =>
  }

  lemma {:induction false} ItemsForgetPairing(items: seq<Json>)
    requires items != []
    ensures RenderItems(MergedItems(items)) == RenderItems(items)
    decreases items, 0
  {
    RenderForgetsPairing(items[0]);
    assert MergedItems(items)[1..] == MergedItems(items[1..]);
    if |items| > 1 {
      ItemsForgetPairing(items[1..]);
    }
  }

  lemma {:induction false} MembersForgetPairing(members: seq<Member>)
    requires members != []
    ensures RenderMembers(MergedMembers(members)) == RenderMembers(members)
    decreases members, 0
  {
    EscapeForgetsPairing(members[0].key);
    RenderForgetsPairing(members[0].value);
    assert MergedMembers(members)[1..] == MergedMembers(members[1..]);
    if |members| > 1 {
      MembersForgetPairing(members[1..]);
    }
  }

  // ----- main results ------------------------------------------------------

  /** `json.loads` undoes `stable_json_dumps`, up to entry order, iff no string has an adjacent surrogate pair. */
  lemma RoundTripIffPaired(v: Json)
    ensures Loads(StableJsonDumps(v)) == Some(Canon(v)) <==> AllPaired(v)
  {
    LoadsOfDumps(v);
    MergedIsIdentityIffPaired(Canon(v));
    CanonPaired(v);
  }

  /** Dicts that differ in insertion order only have the same text, surrogates or not. */
  lemma SameMeaningSameText(v: Json, w: Json)
    requires IsPython(v) && IsPython(w) && Denote(v) == Denote(w)
    ensures StableJsonDumps(v) == StableJsonDumps(w)
  {
    MeaningFixesCanon(v, w);
  }

  /** Two values, whatever their strings, have one text iff they are equal once sorted and merged. */
  lemma SameTextIffSameMerged(v: Json, w: Json)
    ensures StableJsonDumps(v) == StableJsonDumps(w) <==> Merged(Canon(v)) == Merged(Canon(w))
  {
    LoadsOfDumps(v);
    LoadsOfDumps(w);
    RenderForgetsPairing(Canon(v));
    RenderForgetsPairing(Canon(w));
  }

  /** Without adjacent surrogate pairs, equal text means an equal value. */
  lemma TextDecidesMeaning(v: Json, w: Json)
    requires IsPython(v) && IsPython(w) && AllPaired(v) && AllPaired(w)
    ensures StableJsonDumps(v) == StableJsonDumps(w) <==> Denote(v) == Denote(w)
  {
    if StableJsonDumps(v) == StableJsonDumps(w) {
      RoundTripIffPaired(v);
      RoundTripIffPaired(w);
      CanonKeepsMeaning(v);
      CanonKeepsMeaning(w);
    } else if Denote(v) == Denote(w) {
      SameMeaningSameText(v, w);
    }
  }

  /** Exactly when two strings share a text: when their merged forms are equal. */
  lemma StringsShareTextIffMergedEqual(s: PyStr, t: PyStr)
    ensures StableJsonDumps(String(s)) == StableJsonDumps(String(t)) <==> Merge(s) == Merge(t)
  {
    SameTextIffSameMerged(String(s), String(t));
  }

  /** So different strings can share a text: every surrogate pair, and the character it stands for. */
  lemma SurrogatePairSharesText(high: CodePoint, low: CodePoint)
    requires IsHigh(high) && IsLow(low)
    ensures var split, whole := String([high, low]), String([Combine(high, low)]);
            StableJsonDumps(split) == StableJsonDumps(whole) && Denote(split) != Denote(whole)
  {
    var split: PyStr, whole: PyStr := [high, low], [Combine(high, low)];
    assert split[2..] == [] && whole[1..] == [];
    assert Merge(split) == whole == Merge(whole);
    StringsShareTextIffMergedEqual(split, whole);
    assert |split| != |whole|;
  }

  /** Two texts with one digest. */
  predicate Collision(sha: PyStr -> PyStr, x: PyStr, y: PyStr) {
    x != y && sha(x) == sha(y)
  }

  /** Equal `hash_json` values mean one text, or the two texts collide under SHA-256. */
  lemma EqualHashSameTextOrCollision(sha: PyStr -> PyStr, v: Json, w: Json)
    ensures HashJson(sha, v) == HashJson(sha, w) <==>
            StableJsonDumps(v) == StableJsonDumps(w) || Collision(sha, StableJsonDumps(v), StableJsonDumps(w))
  {
    var p := Lit("sha256:");
    assert HashJson(sha, v)[|p|..] == sha(StableJsonDumps(v));
    assert HashJson(sha, w)[|p|..] == sha(StableJsonDumps(w));
  }

  /** So they mean values equal once sorted and merged, or a collision; the former are equal values without surrogate pairs. */
  lemma EqualHashEqualValueOrCollision(sha: PyStr -> PyStr, v: Json, w: Json)
    ensures HashJson(sha, v) == HashJson(sha, w) <==>
            Merged(Canon(v)) == Merged(Canon(w)) || Collision(sha, StableJsonDumps(v), StableJsonDumps(w))
    ensures IsPython(v) && IsPython(w) && AllPaired(v) && AllPaired(w) ==>
              (Merged(Canon(v)) == Merged(Canon(w)) <==> Denote(v) == Denote(w))
  {
    EqualHashSameTextOrCollision(sha, v, w);
    SameTextIffSameMerged(v, w);
    if IsPython(v) && IsPython(w) && AllPaired(v) && AllPaired(w) {
      TextDecidesMeaning(v, w);
    }
  }
}
