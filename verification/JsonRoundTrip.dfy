/** Reading back what the encoder writes: exact for every value. */
module JsonRoundTrip {
  import opened PyText
  import opened CanonicalJson
  import opened JsonParser

  /** A value with every string, keys included, merged. */
  function Merged(v: Json): Json
    decreases v, 0
  {
    match v
    case String(s) => String(Merge(s))
    case Array(items) => Array(MergedItems(items))
    case Object(members) => Object(MergedMembers(members))
    case _ => v
  }

  function MergedItems(items: seq<Json>): (r: seq<Json>)
    ensures |r| == |items|
    decreases items, 0
  {
    if items == [] then [] else [Merged(items[0])] + MergedItems(items[1..])
  }

  function MergedMembers(members: seq<Member>): (r: seq<Member>)
    ensures |r| == |members|
    decreases members, 0
  {
    if members == [] then []
    else [Member(Merge(members[0].key), Merged(members[0].value))] + MergedMembers(members[1..])
  }

  lemma Assoc(a: PyStr, b: PyStr, c: PyStr)
    ensures (a + b) + c == a + (b + c)
  {
  }

  // ----- numbers -----------------------------------------------------------

  lemma {:induction false} NatTextIsDecimal(n: nat)
    ensures forall i :: 0 <= i < |NatText(n)| ==> IsDigit(NatText(n)[i])
    ensures NatValue(NatText(n)) == n
    ensures n > 0 ==> NatText(n)[0] != 48
    ensures n < 10 ==> |NatText(n)| == 1
  {
    if n < 10 {
      assert NatText(n)[..0] == [];
    } else {
      NatTextIsDecimal(n / 10);
      var front := NatText(n / 10);
      var last: CodePoint := 48 + n % 10;
      assert NatText(n) == front + [last];
      assert NatText(n)[..|front|] == front;
    }
  }

  lemma {:induction false} DigitSpanStops(digits: PyStr, rest: PyStr)
    requires forall i :: 0 <= i < |digits| ==> IsDigit(digits[i])
    requires rest == [] || !IsDigit(rest[0])
    ensures DigitSpan(digits + rest) == |digits|
  {
    if digits == [] {
      assert digits + rest == rest;
    } else {
      assert (digits + rest)[1..] == digits[1..] + rest;
      DigitSpanStops(digits[1..], rest);
    }
  }

  /** What may follow a value inside a compact text. */
  predicate Delimited(rest: PyStr) {
    rest == [] || rest[0] == COMMA || rest[0] == RBRACKET || rest[0] == RBRACE
  }

  lemma ParseNatText(n: nat, rest: PyStr)
    requires Delimited(rest)
    ensures ParseNat(NatText(n) + rest) == Got(n, rest)
  {
    NatTextIsDecimal(n);
    DigitSpanStops(NatText(n), rest);
    var t := NatText(n) + rest;
    assert t[..|NatText(n)|] == NatText(n) && t[|NatText(n)|..] == rest;
  }

  // ----- strings -----------------------------------------------------------

  lemma HexDigits(u: int)
    requires 0 <= u < 0x1_0000
    ensures u / 4096 < 16
    ensures u / 4096 * 4096 + u / 256 % 16 * 256 + u / 16 % 16 * 16 + u % 16 == u
  {
    assert u / 256 == u / 4096 * 16 + u / 256 % 16;
    assert u / 16 == u / 256 * 16 + u / 16 % 16;
  }

  lemma HexOfDigit(d: int)
    requires 0 <= d < 16
    ensures HexValue(HexDigit(d)) == Some(d)
  {
  }

  lemma ParseUnitEscape(u: int, rest: PyStr)
    requires 0 <= u < 0x1_0000
    ensures ParseUnit(UnitEscape(u) + rest) == Some(u)
    ensures (UnitEscape(u) + rest)[6..] == rest
  {
    var t := UnitEscape(u) + rest;
    HexDigits(u);
    var a, b, c, d := u / 4096, u / 256 % 16, u / 16 % 16, u % 16;
    HexOfDigit(a);
    HexOfDigit(b);
    HexOfDigit(c);
    HexOfDigit(d);
    assert t[..6] == UnitEscape(u);
    assert t[0] == BACKSLASH && t[1] == 117 && t[2] == HexDigit(a) && t[3] == HexDigit(b)
           && t[4] == HexDigit(c) && t[5] == HexDigit(d);
  }

  /** A single escaped unit reads back as itself unless a surrogate pair is completed. */
  lemma ScanUnit(u: int, rest: PyStr)
    requires 0 <= u < 0x1_0000
    requires IsHigh(u) ==> !(ParseUnit(rest).Some? && IsLow(ParseUnit(rest).value))
    ensures ScanString(UnitEscape(u) + rest) == Prepend(u, ScanString(rest))
  {
    ParseUnitEscape(u, rest);
  }

  lemma ScanPair(high: int, low: int, rest: PyStr)
    requires IsHigh(high) && IsLow(low)
    ensures ScanString(UnitEscape(high) + (UnitEscape(low) + rest)) == Prepend(Combine(high, low), ScanString(rest))
  {
    ParseUnitEscape(high, UnitEscape(low) + rest);
    ParseUnitEscape(low, rest);
    var t := UnitEscape(high) + (UnitEscape(low) + rest);
    assert t[12..] == t[6..][6..];
  }

  lemma ScanPlain(c: CodePoint, rest: PyStr)
    requires 32 <= c <= 126 && c != QUOTE && c != BACKSLASH
    ensures ScanString([c] + rest) == Prepend(c, ScanString(rest))
  {
    assert ([c] + rest)[1..] == rest;
  }

  lemma ScanShort(e: CodePoint, rest: PyStr)
    requires e != 117 && ShortEscape(e).Some?
    ensures ScanString([BACKSLASH, e] + rest) == Prepend(ShortEscape(e).value, ScanString(rest))
  {
    var t := [BACKSLASH, e] + rest;
    assert t[0] == BACKSLASH && t[1] == e && t[2..] == rest;
  }

  lemma ScanAstral(c: CodePoint, rest: PyStr)
    requires c >= 0x1_0000
    ensures ScanString(Escape(c) + rest) == Prepend(c, ScanString(rest))
  {
    Assoc(UnitEscape(HighOf(c)), UnitEscape(LowOf(c)), rest);
    ScanPair(HighOf(c), LowOf(c), rest);
  }

  /** A character that does not begin a surrogate pair. */
  lemma ScanScalar(c: CodePoint, rest: PyStr)
    requires !IsHigh(c)
    ensures ScanString(Escape(c) + rest) == Prepend(c, ScanString(rest))
  {
    if c >= 0x1_0000 {
      ScanAstral(c, rest);
    } else if c in [QUOTE, BACKSLASH, 10, 13, 9, 12, 8] {
      var e := Escape(c)[1];
      assert Escape(c) == [BACKSLASH, e] && ShortEscape(e) == Some(c);
      ScanShort(e, rest);
    } else if 32 <= c <= 126 {
      ScanPlain(c, rest);
    } else {
      ScanUnit(c, rest);
    }
  }

  lemma EscapeAllSplit(s: PyStr, rest: PyStr)
    requires s != []
    ensures EscapeAll(s) + [QUOTE] + rest == Escape(s[0]) + (EscapeAll(s[1..]) + [QUOTE] + rest)
  {
  }

  lemma LowShows(c: CodePoint, tail: PyStr)
    ensures var p := ParseUnit(Escape(c) + tail); p.Some? && IsLow(p.value) ==> IsLow(c)
  {
    var t := Escape(c) + tail;
    if c >= 0x1_0000 {
      Assoc(UnitEscape(HighOf(c)), UnitEscape(LowOf(c)), tail);
      ParseUnitEscape(HighOf(c), UnitEscape(LowOf(c)) + tail);
    } else if |Escape(c)| == 6 {
      ParseUnitEscape(c, tail);
    } else {
      assert t[0] == Escape(c)[0];
      if |Escape(c)| == 2 {
        assert t[1] == Escape(c)[1];
      }
    }
  }

  /** Where an escaped text shows a low surrogate first, the string starts with one. */
  lemma LowShowsFirst(s: PyStr, rest: PyStr)
    ensures var p := ParseUnit(EscapeAll(s) + [QUOTE] + rest);
            p.Some? && IsLow(p.value) ==> s != [] && IsLow(s[0])
  {
    if s == [] {
      assert (EscapeAll(s) + [QUOTE] + rest)[0] == QUOTE;
    } else {
      EscapeAllSplit(s, rest);
      LowShows(s[0], EscapeAll(s[1..]) + [QUOTE] + rest);
    }
  }

  lemma ScanSurrogates(s: PyStr, rest: PyStr)
    requires |s| >= 2 && IsHigh(s[0]) && IsLow(s[1])
    ensures ScanString(EscapeAll(s) + [QUOTE] + rest) ==
            Prepend(Combine(s[0], s[1]), ScanString(EscapeAll(s[2..]) + [QUOTE] + rest))
  {
    EscapeAllSplit(s, rest);
    EscapeAllSplit(s[1..], rest);
    assert s[1..][1..] == s[2..] && Escape(s[0]) == UnitEscape(s[0]) && Escape(s[1]) == UnitEscape(s[1]);
    ScanPair(s[0], s[1], EscapeAll(s[2..]) + [QUOTE] + rest);
  }

  lemma ScanFirst(s: PyStr, rest: PyStr)
    requires s != [] && !(|s| >= 2 && IsHigh(s[0]) && IsLow(s[1]))
    ensures ScanString(EscapeAll(s) + [QUOTE] + rest) ==
            Prepend(s[0], ScanString(EscapeAll(s[1..]) + [QUOTE] + rest))
  {
    EscapeAllSplit(s, rest);
    var tail := EscapeAll(s[1..]) + [QUOTE] + rest;
    if IsHigh(s[0]) {
      LowShowsFirst(s[1..], rest);
      ScanUnit(s[0], tail);
    } else {
      ScanScalar(s[0], tail);
    }
  }

  /** Reading a written string gives its merged form: the string itself iff it is paired. */
  lemma {:induction false} ScanEscaped(s: PyStr, rest: PyStr)
    ensures ScanString(EscapeAll(s) + [QUOTE] + rest) == Got(Merge(s), rest)
    decreases |s|
  {
    if s == [] {
      assert EscapeAll(s) + [QUOTE] + rest == [QUOTE] + rest;
      assert ([QUOTE] + rest)[1..] == rest;
    } else if |s| >= 2 && IsHigh(s[0]) && IsLow(s[1]) {
      ScanSurrogates(s, rest);
      ScanEscaped(s[2..], rest);
    } else {
      ScanFirst(s, rest);
      ScanEscaped(s[1..], rest);
    }
  }

  // ----- values ------------------------------------------------------------

  lemma DropFirst(c: CodePoint, a: PyStr, b: PyStr)
    ensures ([c] + a + b)[1..] == a + b
  {
    Assoc([c], a, b);
  }

  /** The values that hold no other value. */
  lemma ParseScalar(v: Json, rest: PyStr)
    requires Delimited(rest)
    requires v.Null? || v.Bool?
    ensures ParseValue(Render(v) + rest) == Got(v, rest)
  {
    var t := Render(v) + rest;
    if v == Null {
      assert t[..4] == NULL_TEXT && t[4..] == rest;
    } else if v.b {
      assert t[0] == 116 && t[..4] == TRUE_TEXT && t[4..] == rest;
    } else {
      assert t[0] == 102 && t[..5] == FALSE_TEXT && t[5..] == rest;
      assert !(TRUE_TEXT <= t) && !(NULL_TEXT <= t) && FALSE_TEXT <= t;
    }
  }

  lemma NumberFirst(t: PyStr)
    requires t != [] && (IsDigit(t[0]) || t[0] == MINUS)
    ensures !(NULL_TEXT <= t) && !(TRUE_TEXT <= t) && !(FALSE_TEXT <= t)
  {
  }

  lemma ParseNumber(n: int, rest: PyStr)
    requires Delimited(rest)
    ensures ParseValue(IntText(n) + rest) == Got(Int(n), rest)
  {
    var t := IntText(n) + rest;
    if n < 0 {
      Assoc([MINUS], NatText(-n), rest);
      assert t[1..] == NatText(-n) + rest;
      ParseNatText(-n, rest);
    } else {
      NatTextIsDecimal(n);
      assert t[0] == NatText(n)[0];
      ParseNatText(n, rest);
    }
    NumberFirst(t);
  }

  lemma ParseQuoted(s: PyStr, rest: PyStr)
    ensures ParseValue(Quote(s) + rest) == Got(String(Merge(s)), rest)
  {
    var t := Quote(s) + rest;
    assert t[0] == QUOTE && t[1..] == EscapeAll(s) + [QUOTE] + rest;
    ScanEscaped(s, rest);
  }

  /** An opening bracket that is not closed at once. */
  lemma ParseBracketed(open: CodePoint, inner: PyStr)
    requires inner != []
    ensures open == LBRACKET && inner[0] != RBRACKET ==>
              ParseValue([open] + inner) == match ParseItems(inner)
                                            case Fail => Fail
                                            case Got(items, r) => Got(Array(items), r)
    ensures open == LBRACE && inner[0] != RBRACE ==>
              ParseValue([open] + inner) == match ParseMembers(inner)
                                            case Fail => Fail
                                            case Got(members, r) => Got(Object(members), r)
  {
    assert ([open] + inner)[1..] == inner;
  }

  lemma ParseEmpty(rest: PyStr)
    ensures ParseValue([LBRACKET, RBRACKET] + rest) == Got(Array([]), rest)
    ensures ParseValue([LBRACE, RBRACE] + rest) == Got(Object([]), rest)
  {
    var t, u := [LBRACKET, RBRACKET] + rest, [LBRACE, RBRACE] + rest;
    assert t[0] == LBRACKET && t[1] == RBRACKET && t[2..] == rest;
    assert u[0] == LBRACE && u[1] == RBRACE && u[2..] == rest;
  }

  lemma {:induction false} ParseRendered(v: Json, rest: PyStr)
    requires Delimited(rest)
    ensures ParseValue(Render(v) + rest) == Got(Merged(v), rest)
    decreases v, 0
  {
    match v
    case Null => ParseScalar(v, rest);
    case Bool(b) => ParseScalar(v, rest);
    case Int(n) => ParseNumber(n, rest);
    case String(s) => ParseQuoted(s, rest);
    case Array(items) =>
      if items == [] {
        ParseEmpty(rest);
      } else {
        Assoc([LBRACKET], RenderItems(items), rest);
        FirstCharacter(items[0]);
        ParseBracketed(LBRACKET, RenderItems(items) + rest);
        ParseRenderedItems(items, rest);
      }
    case Object(members) =>
      if members == [] {
        ParseEmpty(rest);
      } else {
        Assoc([LBRACE], RenderMembers(members), rest);
        ParseBracketed(LBRACE, RenderMembers(members) + rest);
        ParseRenderedMembers(members, rest);
      }
  }

  lemma FirstCharacter(v: Json)
    ensures Render(v)[0] != RBRACKET
  {
    match v
    case Int(n) => if n >= 0 { NatTextIsDecimal(n); }
    case _ =>
  }

  /** Everything of a rendered list after its first item. */
  function ItemsTail(items: seq<Json>): PyStr
    requires items != []
  {
    if |items| == 1 then [RBRACKET] else [COMMA] + RenderItems(items[1..])
  }

  /** Reading the first item of a rendered list. */
  lemma ParseItem(value: PyStr, v: Json, tail: PyStr)
    requires ParseValue(value + tail) == Got(v, tail) && tail != []
    ensures tail[0] == RBRACKET ==> ParseItems(value + tail) == Got([v], tail[1..])
    ensures tail[0] == COMMA ==>
              ParseItems(value + tail) == match ParseItems(tail[1..])
                                          case Fail => Fail
                                          case Got(vs, r) => Got([v] + vs, r)
  {
  }

  lemma SplitItems(items: seq<Json>, rest: PyStr)
    requires items != []
    ensures RenderItems(items) + rest == Render(items[0]) + (ItemsTail(items) + rest)
    ensures |items| > 1 ==> (ItemsTail(items) + rest)[1..] == RenderItems(items[1..]) + rest
    ensures |items| == 1 ==> (ItemsTail(items) + rest)[1..] == rest
  {
    Assoc(Render(items[0]), ItemsTail(items), rest);
    if |items| == 1 {
      assert ([RBRACKET] + rest)[1..] == rest;
    } else {
      DropFirst(COMMA, RenderItems(items[1..]), rest);
    }
  }

  lemma {:induction false} ParseRenderedItems(items: seq<Json>, rest: PyStr)
    requires items != [] && Delimited(rest)
    ensures ParseItems(RenderItems(items) + rest) == Got(MergedItems(items), rest)
    decreases items, 0
  {
    var value, v, tail := Render(items[0]), Merged(items[0]), ItemsTail(items) + rest;
    ParseRendered(items[0], tail);
    ParseItem(value, v, tail);
    SplitItems(items, rest);
    if |items| == 1 {
      assert MergedItems(items) == [v];
    } else {
      ParseRenderedItems(items[1..], rest);
      assert ParseItems(value + tail) == Got([v] + MergedItems(items[1..]), rest);
    }
  }

  /** Everything of a rendered dict after its first entry. */
  function MembersTail(members: seq<Member>): PyStr
    requires members != []
  {
    if |members| == 1 then [RBRACE] else [COMMA] + RenderMembers(members[1..])
  }

  lemma SplitMembers(members: seq<Member>, rest: PyStr)
    requires members != []
    ensures RenderMembers(members) + rest ==
            Quote(members[0].key) + ([COLON] + (Render(members[0].value) + (MembersTail(members) + rest)))
    ensures |members| > 1 ==> (MembersTail(members) + rest)[1..] == RenderMembers(members[1..]) + rest
    ensures |members| == 1 ==> (MembersTail(members) + rest)[1..] == rest
  {
    var value, tail := Render(members[0].value), MembersTail(members);
    Assoc(Quote(members[0].key), [COLON] + (value + tail), rest);
    Assoc([COLON], value + tail, rest);
    Assoc(value, tail, rest);
    if |members| == 1 {
      assert ([RBRACE] + rest)[1..] == rest;
    } else {
      DropFirst(COMMA, RenderMembers(members[1..]), rest);
    }
  }

  lemma ParseQuotedKey(key: PyStr, rest: PyStr)
    ensures ParseKey(Quote(key) + ([COLON] + rest)) == Got(Merge(key), rest)
  {
    var t := Quote(key) + ([COLON] + rest);
    assert t[0] == QUOTE && t[1..] == EscapeAll(key) + [QUOTE] + ([COLON] + rest);
    ScanEscaped(key, [COLON] + rest);
    assert ([COLON] + rest)[1..] == rest;
  }

  /** Reading the first entry of a rendered dict. */
  lemma ParseEntry(key: PyStr, value: PyStr, v: Json, tail: PyStr)
    requires ParseValue(value + tail) == Got(v, tail) && tail != []
    ensures var t := Quote(key) + ([COLON] + (value + tail));
            && (tail[0] == RBRACE ==> ParseMembers(t) == Got([Member(Merge(key), v)], tail[1..]))
            && (tail[0] == COMMA ==>
                  ParseMembers(t) == match ParseMembers(tail[1..])
                                     case Fail => Fail
                                     case Got(ms, r) => Got([Member(Merge(key), v)] + ms, r))
  {
    ParseQuotedKey(key, value + tail);
  }

  lemma {:induction false} ParseRenderedMembers(members: seq<Member>, rest: PyStr)
    requires members != [] && Delimited(rest)
    ensures ParseMembers(RenderMembers(members) + rest) == Got(MergedMembers(members), rest)
    decreases members, 0
  {
    var m, tail := members[0], MembersTail(members) + rest;
    var value, v := Render(m.value), Merged(m.value);
    ParseRendered(m.value, tail);
    ParseEntry(m.key, value, v, tail);
    SplitMembers(members, rest);
    var t := Quote(m.key) + ([COLON] + (value + tail));
    if |members| == 1 {
      assert MergedMembers(members) == [Member(Merge(m.key), v)];
    } else {
      ParseRenderedMembers(members[1..], rest);
      assert ParseMembers(t) == Got([Member(Merge(m.key), v)] + MergedMembers(members[1..]), rest);
    }
  }

  /** For every value, reading the canonical text gives the canonical value, merged. */
  lemma LoadsOfDumps(v: Json)
    ensures Loads(StableJsonDumps(v)) == Some(Merged(Canon(v)))
  {
    ParseRendered(Canon(v), []);
    assert Render(Canon(v)) + [] == Render(Canon(v));
  }
}
