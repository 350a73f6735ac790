/**
 A reader for compact JSON text without fractions or exponents (sections 3 to 7
 of RFC 8259), with Python's treatment of surrogate escapes.
 */
module JsonParser {
  import opened PyText
  import opened CanonicalJson

  datatype Parsed<+T> = Fail | Got(value: T, rest: PyStr)

  predicate IsDigit(c: int) {
    48 <= c <= 57
  }

  /** The number of digits at the front of a text. */
  function DigitSpan(t: PyStr): (k: nat)
    ensures k <= |t|
  {
    if t != [] && IsDigit(t[0]) then 1 + DigitSpan(t[1..]) else 0
  }

  function NatValue(digits: PyStr): (n: nat)
    requires forall i :: 0 <= i < |digits| ==> IsDigit(digits[i])
  {
    if digits == [] then 0
    else
      var last: int := digits[|digits| - 1];
      assert IsDigit(last);
      NatValue(digits[..|digits| - 1]) * 10 + (last - 48)
  }

  lemma {:induction false} DigitSpanIsDigits(t: PyStr)
    ensures forall i :: 0 <= i < DigitSpan(t) ==> IsDigit(t[i])
  {
    if t != [] && IsDigit(t[0]) {
      DigitSpanIsDigits(t[1..]);
      forall i | 0 <= i < DigitSpan(t)
        ensures IsDigit(t[i])
      {
        if i > 0 {
          assert t[i] == t[1..][i - 1];
        }
      }
    }
  }

  /** Digits without a superfluous leading zero, not followed by a fraction or an exponent. */
  function ParseNat(t: PyStr): (r: Parsed<nat>)
    ensures r.Got? ==> |r.rest| < |t|
  {
    var k := DigitSpan(t);
    if k == 0 || (k > 1 && t[0] == 48) then Fail
    else if k < |t| && t[k] in [46, 69, 101] then Fail
    else
      DigitSpanIsDigits(t);
      Got(NatValue(t[..k]), t[k..])
  }

  function HexValue(c: int): (r: Option<int>)
    ensures r.Some? ==> 0 <= r.value < 16
  {
    if 48 <= c <= 57 then Some(c - 48)
    else if 97 <= c <= 102 then Some(c - 87)
    else if 65 <= c <= 70 then Some(c - 55)
    else None
  }

  /** The code unit of a `\uXXXX` at the front of a text. */
  function ParseUnit(t: PyStr): (r: Option<int>)
    ensures r.Some? ==> |t| >= 6 && 0 <= r.value < 0x1_0000
  {
    if |t| < 6 || t[0] != BACKSLASH || t[1] != 117 then None
    else
      var a, b, c, d := HexValue(t[2]), HexValue(t[3]), HexValue(t[4]), HexValue(t[5]);
      if a.None? || b.None? || c.None? || d.None? then None
      else Some(a.value * 4096 + b.value * 256 + c.value * 16 + d.value)
  }

  function ShortEscape(c: int): Option<CodePoint> {
    if c == QUOTE || c == BACKSLASH || c == 47 then Some(c)
    else if c == 98 then Some(8)
    else if c == 102 then Some(12)
    else if c == 110 then Some(10)
    else if c == 114 then Some(13)
    else if c == 116 then Some(9)
    else None
  }

  function Prepend(c: CodePoint, p: Parsed<PyStr>): (r: Parsed<PyStr>)
    ensures r.Got? <==> p.Got?
    ensures r.Got? ==> r.rest == p.rest
  {
    match p
    case Fail => Fail
    case Got(s, rest) => Got([c] + s, rest)
  }

  /** The string whose opening quote has been read. */
  function ScanString(t: PyStr): (r: Parsed<PyStr>)
    ensures r.Got? ==> |r.rest| < |t|
    decreases |t|
  {
    if t == [] || t[0] < 32 then Fail
    else if t[0] == QUOTE then Got([], t[1..])
    else if t[0] != BACKSLASH then Prepend(t[0], ScanString(t[1..]))
    else if |t| < 2 then Fail
    else
      match (ParseUnit(t), ShortEscape(t[1]))
      case (Some(u), _) =>
        (match ParseUnit(t[6..])
         case Some(u2) =>
           if IsHigh(u) && IsLow(u2) then Prepend(Combine(u, u2), ScanString(t[12..]))
           else Prepend(u, ScanString(t[6..]))
         case None => Prepend(u, ScanString(t[6..])))
      case (None, Some(c)) => Prepend(c, ScanString(t[2..]))
      case (None, None) => Fail
  }

  /** A quoted key and its colon. */
  function ParseKey(t: PyStr): (r: Parsed<PyStr>)
    ensures r.Got? ==> |r.rest| < |t|
  {
    if t == [] || t[0] != QUOTE then Fail
    else
      match ScanString(t[1..])
      case Fail => Fail
      case Got(key, rest) => if rest == [] || rest[0] != COLON then Fail else Got(key, rest[1..])
  }

  function ParseValue(t: PyStr): (r: Parsed<Json>)
    ensures r.Got? ==> |r.rest| < |t|
    decreases |t|, 0
  {
    if t == [] then Fail
    else if NULL_TEXT <= t then Got(Null, t[4..])
    else if TRUE_TEXT <= t then Got(Bool(true), t[4..])
    else if FALSE_TEXT <= t then Got(Bool(false), t[5..])
    else if t[0] == QUOTE then
      (match ScanString(t[1..])
       case Fail => Fail
       case Got(s, rest) => Got(String(s), rest))
    else if t[0] == LBRACKET then
      if |t| >= 2 && t[1] == RBRACKET then Got(Array([]), t[2..])
      else
        (match ParseItems(t[1..])
         case Fail => Fail
         case Got(items, rest) => Got(Array(items), rest))
    else if t[0] == LBRACE then
      if |t| >= 2 && t[1] == RBRACE then Got(Object([]), t[2..])
      else
        (match ParseMembers(t[1..])
         case Fail => Fail
         case Got(members, rest) => Got(Object(members), rest))
    else if t[0] == MINUS then
      (match ParseNat(t[1..])
       case Fail => Fail
       case Got(n, rest) => Got(Int(-(n as int)), rest))
    else
      (match ParseNat(t)
       case Fail => Fail
       case Got(n, rest) => Got(Int(n), rest))
  }

  function ParseItems(t: PyStr): (r: Parsed<seq<Json>>)
    ensures r.Got? ==> |r.rest| < |t|
    decreases |t|, 1
  {
    match ParseValue(t)
    case Fail => Fail
    case Got(v, rest) =>
      if rest != [] && rest[0] == RBRACKET then Got([v], rest[1..])
      else if rest != [] && rest[0] == COMMA then
        (match ParseItems(rest[1..])
         case Fail => Fail
         case Got(vs, rest') => Got([v] + vs, rest'))
      else Fail
  }

  function ParseMembers(t: PyStr): (r: Parsed<seq<Member>>)
    ensures r.Got? ==> |r.rest| < |t|
    decreases |t|, 1
  {
    match ParseKey(t)
    case Fail => Fail
    case Got(key, afterKey) =>
      (match ParseValue(afterKey)
       case Fail => Fail
       case Got(v, rest) =>
         if rest != [] && rest[0] == RBRACE then Got([Member(key, v)], rest[1..])
         else if rest != [] && rest[0] == COMMA then
           (match ParseMembers(rest[1..])
            case Fail => Fail
            case Got(ms, rest') => Got([Member(key, v)] + ms, rest'))
         else Fail)
  }

  /**
   A whole compact text: no blanks are skipped, and a repeated key keeps all its
   entries, where `json.loads` would keep the last.
   */
  function Loads(t: PyStr): Option<Json> {
    match ParseValue(t)
    case Fail => None
    case Got(v, rest) => if rest == [] then Some(v) else None
  }
}
