/**
 The encoder of `shared/utils/hashing.py` on null, bool, int, str, list and
 str-keyed dict. A dict is the sequence of its entries in insertion order.
 */
module CanonicalJson {
  import opened PyText

  datatype Json =
    | Null
    | Bool(b: bool)
    | Int(n: int)
    | String(s: PyStr)
    | Array(items: seq<Json>)
    | Object(members: seq<Member>)

  datatype Member = Member(key: PyStr, value: Json)

  const QUOTE: CodePoint := 34
  const BACKSLASH: CodePoint := 92
  const COMMA: CodePoint := 44
  const COLON: CodePoint := 58
  const MINUS: CodePoint := 45
  const LBRACKET: CodePoint := 91
  const RBRACKET: CodePoint := 93
  const LBRACE: CodePoint := 123
  const RBRACE: CodePoint := 125
  const NULL_TEXT: PyStr := [110, 117, 108, 108]
  const TRUE_TEXT: PyStr := [116, 114, 117, 101]
  const FALSE_TEXT: PyStr := [102, 97, 108, 115, 101]

  // ----- what a value means ------------------------------------------------

  /** A Python value with its dicts as maps: insertion order is forgotten. */
  datatype Value =
    | VNull
    | VBool(b: bool)
    | VInt(n: int)
    | VStr(s: PyStr)
    | VList(items: seq<Value>)
    | VDict(entries: map<PyStr, Value>)

  function Denote(v: Json): Value
    decreases v, 0
  {
    match v
    case Null => VNull
    case Bool(b) => VBool(b)
    case Int(n) => VInt(n)
    case String(s) => VStr(s)
    case Array(items) => VList(DenoteItems(items))
    case Object(members) => VDict(DenoteMembers(members))
  }

  function DenoteItems(items: seq<Json>): (r: seq<Value>)
    ensures |r| == |items|
    decreases items, 0
  {
    if items == [] then [] else [Denote(items[0])] + DenoteItems(items[1..])
  }

  function DenoteMembers(members: seq<Member>): (r: map<PyStr, Value>)
    ensures forall k :: k in r <==> HasKey(members, k)
    decreases members, 0
  {
    if members == [] then map[]
    else
      var r := map[members[0].key := Denote(members[0].value)] + DenoteMembers(members[1..]);
      assert forall k :: HasKey(members, k) <==> k == members[0].key || HasKey(members[1..], k);
      r
  }

  predicate HasKey(members: seq<Member>, k: PyStr) {
    exists i :: 0 <= i < |members| && members[i].key == k
  }

  predicate DistinctKeys(members: seq<Member>) {
    forall i, j :: 0 <= i < j < |members| ==> members[i].key != members[j].key
  }

  /** The keys of every dict are distinct, as they are in Python. */
  predicate IsPython(v: Json)
    decreases v, 0
  {
    match v
    case Array(items) => ArePython(items)
    case Object(members) => DistinctKeys(members) && MembersArePython(members)
    case _ => true
  }

  predicate ArePython(items: seq<Json>)
    decreases items, 0
  {
    items == [] || (IsPython(items[0]) && ArePython(items[1..]))
  }

  predicate MembersArePython(members: seq<Member>)
    decreases members, 0
  {
    members == [] || (IsPython(members[0].value) && MembersArePython(members[1..]))
  }

  /** The value that a dict has under a key, None without one. */
  function Field(v: Json, key: string): Option<Json> {
    if v.Object? then FieldOf(v.members, key) else None
  }

  function FieldOf(members: seq<Member>, key: string): Option<Json> {
    if members == [] then None
    else if members[0].key == Lit(key) then Some(members[0].value)
    else FieldOf(members[1..], key)
  }

  lemma {:induction false} FieldIsAt(members: seq<Member>, key: string, i: nat)
    requires i < |members| && members[i].key == Lit(key)
    requires forall j :: 0 <= j < i ==> members[j].key != Lit(key)
    ensures FieldOf(members, key) == Some(members[i].value)
  {
    if i > 0 {
      assert members[0].key != Lit(key);
      FieldIsAt(members[1..], key, i - 1);
    }
  }

  // ----- sort_keys=True ----------------------------------------------------

  function Insert(m: Member, sorted: seq<Member>): (r: seq<Member>)
    ensures |r| == |sorted| + 1
  {
    if sorted == [] then [m]
    else if Before(m.key, sorted[0].key) then [m] + sorted
    else [sorted[0]] + Insert(m, sorted[1..])
  }

  function SortMembers(members: seq<Member>): (r: seq<Member>)
    ensures |r| == |members|
  {
    if members == [] then [] else Insert(members[0], SortMembers(members[1..]))
  }

  /** The same value with the entries of every dict in key order. */
  function Canon(v: Json): Json
    decreases v, 0
  {
    match v
    case Array(items) => Array(CanonItems(items))
    case Object(members) => Object(SortMembers(CanonMembers(members)))
    case _ => v
  }

  function CanonItems(items: seq<Json>): (r: seq<Json>)
    ensures |r| == |items|
    decreases items, 0
  {
    if items == [] then [] else [Canon(items[0])] + CanonItems(items[1..])
  }

  function CanonMembers(members: seq<Member>): (r: seq<Member>)
    ensures |r| == |members|
    ensures forall i :: 0 <= i < |r| ==> r[i].key == members[i].key
    decreases members, 0
  {
    if members == [] then []
    else [Member(members[0].key, Canon(members[0].value))] + CanonMembers(members[1..])
  }

  // ----- rendering ---------------------------------------------------------

  function NatText(n: nat): (r: PyStr)
    ensures r != []
  {
    if n < 10 then [48 + n] else NatText(n / 10) + [48 + n % 10]
  }

  function IntText(n: int): PyStr {
    if n < 0 then [MINUS] + NatText(-n) else NatText(n)
  }

  /** A lower-case hexadecimal digit. */
  function HexDigit(d: int): CodePoint
    requires 0 <= d < 16
  {
    if d < 10 then 48 + d else 87 + d
  }

  /** `\uXXXX` for one UTF-16 code unit. */
  function UnitEscape(u: int): (r: PyStr)
    requires 0 <= u < 0x1_0000
    ensures |r| == 6
  {
    [BACKSLASH, 117, HexDigit(u / 4096), HexDigit(u / 256 % 16), HexDigit(u / 16 % 16), HexDigit(u % 16)]
  }

  /** One character under `ensure_ascii`. */
  function Escape(c: CodePoint): (r: PyStr)
    ensures r != []
  {
    if c == QUOTE then [BACKSLASH, QUOTE]
    else if c == BACKSLASH then [BACKSLASH, BACKSLASH]
    else if c == 10 then [BACKSLASH, 110]
    else if c == 13 then [BACKSLASH, 114]
    else if c == 9 then [BACKSLASH, 116]
    else if c == 12 then [BACKSLASH, 102]
    else if c == 8 then [BACKSLASH, 98]
    else if 32 <= c <= 126 then [c]
    else if c < 0x1_0000 then UnitEscape(c)
    else UnitEscape(HighOf(c)) + UnitEscape(LowOf(c))
  }

  function EscapeAll(s: PyStr): PyStr {
    if s == [] then [] else Escape(s[0]) + EscapeAll(s[1..])
  }

  function Quote(s: PyStr): PyStr {
    [QUOTE] + EscapeAll(s) + [QUOTE]
  }

  /** The compact text of a value, entries in the order they stand. */
  function Render(v: Json): (r: PyStr)
    ensures r != []
    decreases v, 0
  {
    match v
    case Null => NULL_TEXT
    case Bool(b) => if b then TRUE_TEXT else FALSE_TEXT
    case Int(n) => IntText(n)
    case String(s) => Quote(s)
    case Array(items) => if items == [] then [LBRACKET, RBRACKET] else [LBRACKET] + RenderItems(items)
    case Object(members) => if members == [] then [LBRACE, RBRACE] else [LBRACE] + RenderMembers(members)
  }

  /** The items of a non-empty list and its closing bracket. */
  function RenderItems(items: seq<Json>): PyStr
    requires items != []
    decreases items, 0
  {
    Render(items[0]) + if |items| == 1 then [RBRACKET] else [COMMA] + RenderItems(items[1..])
  }

  /** The entries of a non-empty dict and its closing brace. */
  function RenderMembers(members: seq<Member>): PyStr
    requires members != []
    decreases members, 0
  {
    Quote(members[0].key) + ([COLON] + (Render(members[0].value) +
    if |members| == 1 then [RBRACE] else [COMMA] + RenderMembers(members[1..])))
  }

  /** `stable_json_dumps`. */
  function StableJsonDumps(v: Json): PyStr {
    Render(Canon(v))
  }

  /** `hash_json`, for an unspecified function standing for SHA-256 in hexadecimal. */
  function HashJson(sha: PyStr -> PyStr, v: Json): PyStr {
    Lit("sha256:") + sha(StableJsonDumps(v))
  }
}
