/** The canonical text spelled out: the order of keys, the escapes, and the text of a block header. */
module JsonSpelling {
  import opened PyText
  import opened CanonicalJson
  import opened JsonCanonical
  import opened Ledger
  import TamperEvidence

  // ----- key order -----------------------------------------------------------

  /** The two agree up to d, where `a` ends or has the smaller code point. */
  predicate LessAt(a: PyStr, b: PyStr, d: nat) {
    d <= |a| && d < |b| && a[..d] == b[..d] && (d == |a| || a[d] < b[d])
  }

  ghost predicate Less(a: PyStr, b: PyStr) {
    exists d: nat :: LessAt(a, b, d)
  }

  /** The order of keys is that of the first difference. */
  lemma {:induction false} BeforeIffLess(a: PyStr, b: PyStr)
    ensures Before(a, b) <==> Less(a, b)
  {
    if b != [] && a != [] && a[0] == b[0] {
      BeforeIffLess(a[1..], b[1..]);
      assert a == [a[0]] + a[1..] && b == [b[0]] + b[1..];
      if d: nat :| LessAt(a[1..], b[1..], d) {
        assert a[..d + 1] == [a[0]] + a[1..][..d] && b[..d + 1] == [b[0]] + b[1..][..d];
        assert LessAt(a, b, d + 1);
      }
      if d: nat :| LessAt(a, b, d) {
        assert d > 0;
        assert a[1..][..d - 1] == a[..d][1..] && b[1..][..d - 1] == b[..d][1..];
        assert LessAt(a[1..], b[1..], d - 1);
      }
    } else if b != [] && (a == [] || a[0] < b[0]) {
      assert LessAt(a, b, 0);
    } else if b != [] {
      forall d: nat
        ensures !LessAt(a, b, d)
      {
        if d > 0 && d <= |a| && d < |b| {
          assert a[..d][0] == a[0] && b[..d][0] == b[0];
        }
      }
    }
  }

  /** In every dict, at any depth, each key is below the keys after it. */
  ghost predicate KeysAscend(v: Json)
    decreases v, 0
  {
    match v
    case Array(items) => ItemsAscend(items)
    case Object(members) => Ascending(members) && MembersAscend(members)
    case _ => true
  }

  ghost predicate Ascending(members: seq<Member>) {
    forall i, j :: 0 <= i < j < |members| ==> Less(members[i].key, members[j].key)
  }

  ghost predicate ItemsAscend(items: seq<Json>)
    decreases items, 0
  {
    items == [] || (KeysAscend(items[0]) && ItemsAscend(items[1..]))
  }

  ghost predicate MembersAscend(members: seq<Member>)
    decreases members, 0
  {
    members == [] || (KeysAscend(members[0].value) && MembersAscend(members[1..]))
  }

  lemma {:induction false} MembersAscendFrom(members: seq<Member>)
    requires forall m :: m in members ==> KeysAscend(m.value)
    ensures MembersAscend(members)
  {
    if members != [] {
      MembersAscendFrom(members[1..]);
    }
  }

  lemma {:induction false} MembersAscendAt(members: seq<Member>, i: nat)
    requires MembersAscend(members) && i < |members|
    ensures KeysAscend(members[i].value)
  {
    if i > 0 {
      MembersAscendAt(members[1..], i - 1);
    }
  }

  /** Sorting the keys puts them in ascending order. */
  lemma {:induction false} CanonAscends(v: Json)
    requires IsPython(v)
    ensures KeysAscend(Canon(v))
    decreases v, 0
  {
    match v
    case Array(items) => CanonItemsAscend(items);
    case Object(members) =>
      CanonMembersAscend(members);
      SortedAscends(members);
    case _ =>
  }

  lemma {:induction false} CanonItemsAscend(items: seq<Json>)
    requires ArePython(items)
    ensures ItemsAscend(CanonItems(items))
    decreases items, 0
  {
    if items != [] {
      CanonAscends(items[0]);
      CanonItemsAscend(items[1..]);
      assert CanonItems(items)[1..] == CanonItems(items[1..]);
    }
  }

  lemma {:induction false} CanonMembersAscend(members: seq<Member>)
    requires MembersArePython(members)
    ensures MembersAscend(CanonMembers(members))
    decreases members, 0
  {
    if members != [] {
      CanonAscends(members[0].value);
      CanonMembersAscend(members[1..]);
      assert CanonMembers(members)[1..] == CanonMembers(members[1..]);
    }
  }

  lemma SortedAscends(members: seq<Member>)
    requires DistinctKeys(members) && MembersAscend(CanonMembers(members))
    ensures var sorted := SortMembers(CanonMembers(members)); Ascending(sorted) && MembersAscend(sorted)
  {
    var canon := CanonMembers(members);
    var sorted := SortMembers(canon);
    CanonEntries(members);
    forall i, j | 0 <= i < j < |sorted|
      ensures Less(sorted[i].key, sorted[j].key)
    {
      BeforeIffLess(sorted[i].key, sorted[j].key);
    }
    forall m | m in sorted
      ensures KeysAscend(m.value)
    {
      assert m in canon;
      var i :| 0 <= i < |canon| && canon[i] == m;
      MembersAscendAt(canon, i);
    }
    MembersAscendFrom(sorted);
  }

  // ----- escapes -------------------------------------------------------------

  /** A printable ASCII character that needs no escape. */
  predicate Plain(c: int) {
    32 <= c <= 126 && c != 34 && c != 92
  }

  /** `\u` and the four lower-case hexadecimal digits of a code unit. */
  function UnitText(u: int): PyStr
    requires 0 <= u < 0x1_0000
  {
    var digits := "0123456789abcdef";
    Lit("\\u" + [digits[u / 4096], digits[u / 256 % 16], digits[u / 16 % 16], digits[u % 16]])
  }

  lemma HexIsSpelled(d: int)
    requires 0 <= d < 16
    ensures HexDigit(d) == "0123456789abcdef"[d] as int
  {
  }

  lemma UnitIsSpelled(u: int)
    requires 0 <= u < 0x1_0000
    ensures UnitEscape(u) == UnitText(u)
  {
    HexIsSpelled(u / 4096);
    HexIsSpelled(u / 256 % 16);
    HexIsSpelled(u / 16 % 16);
    HexIsSpelled(u % 16);
  }

  lemma ShortIsSpelled(c: CodePoint)
    ensures Plain(c) ==> Escape(c) == [c]
    ensures c == 34 ==> Escape(c) == Lit("\\\"")
    ensures c == 92 ==> Escape(c) == Lit("\\\\")
    ensures c == 10 ==> Escape(c) == Lit("\\n")
    ensures c == 13 ==> Escape(c) == Lit("\\r")
    ensures c == 9 ==> Escape(c) == Lit("\\t")
    ensures c == 12 ==> Escape(c) == Lit("\\f")
    ensures c == 8 ==> Escape(c) == Lit("\\b")
  {
  }

  lemma UnitEscapeIsSpelled(c: CodePoint)
    requires !Plain(c) && c !in [34, 92, 10, 13, 9, 12, 8] && c < 0x1_0000
    ensures Escape(c) == UnitText(c)
  {
    UnitIsSpelled(c);
  }

  lemma SurrogatesAreSpelled(c: CodePoint)
    requires c >= 0x1_0000
    ensures Escape(c) == UnitText(0xD800 + (c - 0x1_0000) / 1024) + UnitText(0xDC00 + (c - 0x1_0000) % 1024)
  {
    UnitIsSpelled(HighOf(c));
    UnitIsSpelled(LowOf(c));
  }

  /** The escape of every character, as text. */
  lemma EscapeIsSpelled(c: CodePoint)
    ensures Plain(c) ==> Escape(c) == [c]
    ensures c == 34 ==> Escape(c) == Lit("\\\"")
    ensures c == 92 ==> Escape(c) == Lit("\\\\")
    ensures c == 10 ==> Escape(c) == Lit("\\n")
    ensures c == 13 ==> Escape(c) == Lit("\\r")
    ensures c == 9 ==> Escape(c) == Lit("\\t")
    ensures c == 12 ==> Escape(c) == Lit("\\f")
    ensures c == 8 ==> Escape(c) == Lit("\\b")
    ensures !Plain(c) && c !in [34, 92, 10, 13, 9, 12, 8] && c < 0x1_0000 ==> Escape(c) == UnitText(c)
    ensures c >= 0x1_0000 ==>
              Escape(c) == UnitText(0xD800 + (c - 0x1_0000) / 1024) + UnitText(0xDC00 + (c - 0x1_0000) % 1024)
  {
    ShortIsSpelled(c);
    if c >= 0x1_0000 {
      SurrogatesAreSpelled(c);
    } else if !Plain(c) && c !in [34, 92, 10, 13, 9, 12, 8] {
      UnitEscapeIsSpelled(c);
    }
  }

  // ----- whole texts -----------------------------------------------------------

  predicate AllPlain(s: PyStr) {
    forall i :: 0 <= i < |s| ==> Plain(s[i])
  }

  lemma {:induction false} PlainIsItself(s: PyStr)
    requires AllPlain(s)
    ensures EscapeAll(s) == s
  {
    if s != [] {
      PlainIsItself(s[1..]);
      assert s == [s[0]] + s[1..];
    }
  }

  /** A key as it stands in the text, with its colon. */
  lemma KeyText(key: string)
    requires forall i :: 0 <= i < |key| ==> Plain(key[i] as int)
    ensures Quote(Lit(key)) + [COLON] == Lit("\"" + key + "\":")
  {
    PlainIsItself(Lit(key));
  }

  /** The entries of a header in key order. */
  function SortedHeader(b: Block): seq<Member> {
    [Member(Lit("actor_node"), String(b.actorNode)),
     Member(Lit("block_id"), Int(b.blockId)),
     Member(Lit("event_type"), String(b.eventType)),
     Member(Lit("payload_hash"), String(b.payloadHash)),
     Member(Lit("previous_hash"), OptionalText(b.previousHash)),
     Member(Lit("timestamp"), String(b.timestamp))]
  }

  lemma {:induction false} AdjacentAreSorted(members: seq<Member>)
    requires forall i :: 0 <= i < |members| - 1 ==> Before(members[i].key, members[i + 1].key)
    ensures Sorted(members)
  {
    forall i, j | 0 <= i < j < |members|
      ensures Before(members[i].key, members[j].key)
    {
      BeforeFurther(members, i, j);
    }
  }

  lemma {:induction false} BeforeFurther(members: seq<Member>, i: nat, j: nat)
    requires forall k :: 0 <= k < |members| - 1 ==> Before(members[k].key, members[k + 1].key)
    requires i < j < |members|
    ensures Before(members[i].key, members[j].key)
  {
    if i + 1 < j {
      BeforeFurther(members, i, j - 1);
      BeforeIsTransitive(members[i].key, members[j - 1].key, members[j].key);
    }
  }

  lemma KeyBefore(a: string, b: string, d: nat)
    requires d < |a| && d < |b| && a[..d] == b[..d] && a[d] < b[d]
    requires (forall i :: 0 <= i < |a| ==> a[i] as int < 128) && forall i :: 0 <= i < |b| ==> b[i] as int < 128
    ensures Before(Lit(a), Lit(b))
  {
    forall i | 0 <= i < d
      ensures Lit(a)[i] == Lit(b)[i]
    {
      assert a[..d][i] == b[..d][i];
    }
    assert LessAt(Lit(a), Lit(b), d);
    BeforeIffLess(Lit(a), Lit(b));
  }

  lemma SortedHeaderIsSorted(b: Block)
    ensures Sorted(SortedHeader(b))
  {
    KeyBefore("actor_node", "block_id", 0);
    KeyBefore("block_id", "event_type", 0);
    KeyBefore("event_type", "payload_hash", 0);
    KeyBefore("payload_hash", "previous_hash", 1);
    KeyBefore("previous_hash", "timestamp", 0);
    AdjacentAreSorted(SortedHeader(b));
  }

  lemma {:induction false} ScalarsStay(members: seq<Member>)
    requires forall i :: 0 <= i < |members| ==> Canon(members[i].value) == members[i].value
    ensures CanonMembers(members) == members
  {
    if members != [] {
      ScalarsStay(members[1..]);
      assert members == [members[0]] + members[1..];
    }
  }

  lemma SameEntries(b: Block, x: Member)
    ensures x in HeaderJson(b).members <==> x in SortedHeader(b)
  {
    var m, c := HeaderJson(b).members, SortedHeader(b);
    assert m[3] == c[0] && m[0] == c[1] && m[2] == c[2] && m[4] == c[3] && m[5] == c[4] && m[1] == c[5];
    if x in m {
      var i :| 0 <= i < 6 && m[i] == x;
      assert x in [c[0], c[1], c[2], c[3], c[4], c[5]];
    }
    if x in c {
      var i :| 0 <= i < 6 && c[i] == x;
      assert x in [m[0], m[1], m[2], m[3], m[4], m[5]];
    }
  }

  lemma CanonOfHeader(b: Block)
    ensures Canon(HeaderJson(b)) == Object(SortedHeader(b))
  {
    var m := HeaderJson(b).members;
    ScalarsStay(m);
    TamperEvidence.HeaderKeysDistinct(b);
    SortMembersSorts(m);
    SortedHeaderIsSorted(b);
    forall x
      ensures x in SortMembers(m) <==> x in SortedHeader(b)
    {
      SameEntries(b, x);
    }
    SortedIsUnique(SortMembers(m), SortedHeader(b));
  }

  /** A key and the text of its value. */
  datatype Entry = Entry(key: string, value: PyStr)

  predicate PlainKey(key: string) {
    forall i :: 0 <= i < |key| ==> Plain(key[i] as int)
  }

  /** An entry's text: the quoted key, a colon, the value. */
  function EntryText(e: Entry): PyStr {
    Lit("\"" + e.key + "\":") + e.value
  }

  /** The texts of entries, with commas between them. */
  function Joined(entries: seq<Entry>): PyStr {
    if entries == [] then []
    else if |entries| == 1 then EntryText(entries[0])
    else EntryText(entries[0]) + (Lit(",") + Joined(entries[1..]))
  }

  /** The members have these keys, and their values these texts. */
  predicate Spells(members: seq<Member>, entries: seq<Entry>) {
    |members| == |entries| && forall i :: 0 <= i < |members| ==> SpellsAt(members[i], entries[i])
  }

  predicate SpellsAt(m: Member, e: Entry) {
    PlainKey(e.key) && m.key == Lit(e.key) && Render(m.value) == e.value
  }

  lemma Regroup(a: PyStr, b: PyStr, c: PyStr, d: PyStr)
    ensures a + (b + (c + d)) == ((a + b) + c) + d
  {
  }

  lemma FirstEntry(m: Member, e: Entry, tail: PyStr)
    requires SpellsAt(m, e)
    ensures Quote(m.key) + ([COLON] + (Render(m.value) + tail)) == EntryText(e) + tail
  {
    KeyText(e.key);
    Regroup(Quote(m.key), [COLON], e.value, tail);
  }

  lemma {:induction false} MembersAreSpelled(members: seq<Member>, entries: seq<Entry>)
    requires members != [] && Spells(members, entries)
    ensures RenderMembers(members) == Joined(entries) + Lit("}")
  {
    assert Lit("}") == [RBRACE] && Lit(",") == [COMMA];
    if |members| == 1 {
      FirstEntry(members[0], entries[0], [RBRACE]);
    } else {
      MembersAreSpelled(members[1..], entries[1..]);
      var rest := Joined(entries[1..]);
      FirstEntry(members[0], entries[0], [COMMA] + RenderMembers(members[1..]));
      Tails(EntryText(entries[0]), Lit(","), rest, Lit("}"));
    }
  }

  lemma Tails(a: PyStr, b: PyStr, c: PyStr, d: PyStr)
    ensures a + (b + (c + d)) == (a + (b + c)) + d
  {
  }

  /** The header's fields under their names, in the order of these names. */
  function HeaderEntries(b: Block): seq<Entry> {
    [Entry("actor_node", Quote(b.actorNode)),
     Entry("block_id", IntText(b.blockId)),
     Entry("event_type", Quote(b.eventType)),
     Entry("payload_hash", Quote(b.payloadHash)),
     Entry("previous_hash", if b.previousHash == None then Lit("null") else Quote(b.previousHash.value)),
     Entry("timestamp", Quote(b.timestamp))]
  }

  lemma HeaderKeysArePlain()
    ensures PlainKey("actor_node") && PlainKey("block_id") && PlainKey("event_type")
    ensures PlainKey("payload_hash") && PlainKey("previous_hash") && PlainKey("timestamp")
  {
  }

  lemma StringSpells(key: string, s: PyStr)
    requires PlainKey(key)
    ensures SpellsAt(Member(Lit(key), String(s)), Entry(key, Quote(s)))
  {
  }

  lemma IntSpells(key: string, n: int)
    requires PlainKey(key)
    ensures SpellsAt(Member(Lit(key), Int(n)), Entry(key, IntText(n)))
  {
  }

  lemma OptionalSpells(key: string, s: Option<PyStr>)
    requires PlainKey(key)
    ensures SpellsAt(Member(Lit(key), OptionalText(s)), Entry(key, if s == None then Lit("null") else Quote(s.value)))
  {
    assert NULL_TEXT == Lit("null");
  }

  lemma HeaderSpells(b: Block)
    ensures Spells(SortedHeader(b), HeaderEntries(b))
  {
    HeaderKeysArePlain();
    var c, e := SortedHeader(b), HeaderEntries(b);
    assert SpellsAt(c[0], e[0]) by { StringSpells("actor_node", b.actorNode); }
    assert SpellsAt(c[1], e[1]) by { IntSpells("block_id", b.blockId); }
    assert SpellsAt(c[2], e[2]) by { StringSpells("event_type", b.eventType); }
    assert SpellsAt(c[3], e[3]) by { StringSpells("payload_hash", b.payloadHash); }
    assert SpellsAt(c[4], e[4]) by { OptionalSpells("previous_hash", b.previousHash); }
    assert SpellsAt(c[5], e[5]) by { StringSpells("timestamp", b.timestamp); }
    SixSpell(c, e);
  }

  lemma SixSpell(members: seq<Member>, entries: seq<Entry>)
    requires |members| == 6 && |entries| == 6
    requires SpellsAt(members[0], entries[0]) && SpellsAt(members[1], entries[1]) && SpellsAt(members[2], entries[2])
    requires SpellsAt(members[3], entries[3]) && SpellsAt(members[4], entries[4]) && SpellsAt(members[5], entries[5])
    ensures Spells(members, entries)
  {
  }

  lemma DictIsSpelled(members: seq<Member>, entries: seq<Entry>)
    requires members != [] && Spells(members, entries)
    ensures Render(Object(members)) == Lit("{") + (Joined(entries) + Lit("}"))
  {
    MembersAreSpelled(members, entries);
    assert Lit("{") == [LBRACE];
  }

  /** What a block's hash is taken of, in full. */
  lemma HeaderIsSpelled(b: Block)
    ensures TamperEvidence.HeaderText(b) == Lit("{") + (Joined(HeaderEntries(b)) + Lit("}"))
  {
    CanonOfHeader(b);
    HeaderSpells(b);
    DictIsSpelled(SortedHeader(b), HeaderEntries(b));
  }

  /** The hash of that text, marked as SHA-256. */
  lemma HashIsSpelled(sha: PyStr -> PyStr, v: Json)
    ensures HashJson(sha, v) == Lit("sha256:") + sha(StableJsonDumps(v))
  {
  }

  // ----- lists and scalars -----------------------------------------------------

  /** These texts, with commas between them. */
  function Commas(items: seq<Json>): PyStr {
    if items == [] then []
    else if |items| == 1 then StableJsonDumps(items[0])
    else StableJsonDumps(items[0]) + (Lit(",") + Commas(items[1..]))
  }

  lemma {:induction false} ItemsAreSpelled(items: seq<Json>)
    requires items != []
    ensures RenderItems(CanonItems(items)) == Commas(items) + Lit("]")
  {
    assert Lit("]") == [RBRACKET] && Lit(",") == [COMMA];
    if |items| > 1 {
      ItemsAreSpelled(items[1..]);
      assert CanonItems(items)[1..] == CanonItems(items[1..]);
      Tails(StableJsonDumps(items[0]), Lit(","), Commas(items[1..]), Lit("]"));
    }
  }

  /** The text of a list is made of those of its items; the other texts are as they are. */
  lemma ValuesAreSpelled(items: seq<Json>)
    ensures StableJsonDumps(Array(items)) == Lit("[") + (Commas(items) + Lit("]"))
    ensures StableJsonDumps(Object([])) == Lit("{}")
    ensures StableJsonDumps(Null) == Lit("null")
    ensures StableJsonDumps(Bool(true)) == Lit("true") && StableJsonDumps(Bool(false)) == Lit("false")
  {
    assert Lit("[") == [LBRACKET] && Lit("]") == [RBRACKET];
    if items != [] {
      ItemsAreSpelled(items);
    }
  }
}
