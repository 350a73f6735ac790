/** Python text: a `str` is a sequence of Unicode code points, surrogates included. */
module PyText {

  type CodePoint = c: int | 0 <= c < 0x11_0000

  type PyStr = seq<CodePoint>

  datatype Option<+T> = None | Some(value: T)

  /** The text of a Dafny string literal. */
  function Lit(s: string): (r: PyStr)
    ensures |r| == |s|
    ensures forall i :: 0 <= i < |s| ==> r[i] == s[i] as int
  {
    seq(|s|, i requires 0 <= i < |s| => s[i] as int)
  }

  /** Two texts that differ in length or in their first character. */
  predicate Unlike(a: string, b: string) {
    |a| != |b| || (a != [] && a[0] != b[0])
  }

  lemma UnlikeTextsDiffer(a: string, b: string)
    requires Unlike(a, b)
    ensures Lit(a) != Lit(b)
  {
    if |a| == |b| {
      assert Lit(a)[0] != Lit(b)[0];
    } else {
      assert |Lit(a)| != |Lit(b)|;
    }
  }

  predicate IsHigh(c: int) {
    0xD800 <= c < 0xDC00
  }

  predicate IsLow(c: int) {
    0xDC00 <= c < 0xE000
  }

  /** The code point that a high and a low surrogate stand for together. */
  function Combine(high: int, low: int): (c: CodePoint)
    requires IsHigh(high) && IsLow(low)
    ensures 0x1_0000 <= c
  {
    0x1_0000 + (high - 0xD800) * 1024 + (low - 0xDC00)
  }

  /** The surrogates of a code point beyond the basic plane. */
  function HighOf(c: CodePoint): (h: int)
    requires c >= 0x1_0000
    ensures IsHigh(h)
  {
    0xD800 + (c - 0x1_0000) / 1024
  }

  function LowOf(c: CodePoint): (l: int)
    requires c >= 0x1_0000
    ensures IsLow(l)
    ensures Combine(HighOf(c), l) == c
  {
    0xDC00 + (c - 0x1_0000) % 1024
  }

  /** No high surrogate stands directly before a low one. */
  predicate Paired(s: PyStr) {
    forall i :: 0 <= i < |s| - 1 ==> !(IsHigh(s[i]) && IsLow(s[i + 1]))
  }

  /** Every adjacent surrogate pair replaced by the code point it stands for. */
  function Merge(s: PyStr): (r: PyStr)
    ensures |r| <= |s|
  {
    if s == [] then []
    else if |s| >= 2 && IsHigh(s[0]) && IsLow(s[1]) then [Combine(s[0], s[1])] + Merge(s[2..])
    else [s[0]] + Merge(s[1..])
  }

  lemma {:induction false} MergeIsIdentityIffPaired(s: PyStr)
    ensures Merge(s) == s <==> Paired(s)
    ensures !Paired(s) ==> |Merge(s)| < |s|
  {
    if s == [] {
    } else if |s| >= 2 && IsHigh(s[0]) && IsLow(s[1]) {
      assert !Paired(s);
    } else {
      var t := s[1..];
      MergeIsIdentityIffPaired(t);
      assert Merge(s) == [s[0]] + Merge(t);
      assert Merge(s)[1..] == Merge(t);
      if Paired(t) {
        forall i | 0 <= i < |s| - 1
          ensures !(IsHigh(s[i]) && IsLow(s[i + 1]))
        {
          if i > 0 {
            assert s[i] == t[i - 1] && s[i + 1] == t[i];
          }
        }
      } else {
        var i :| 0 <= i < |t| - 1 && IsHigh(t[i]) && IsLow(t[i + 1]);
        assert s[i + 1] == t[i] && s[i + 2] == t[i + 1];
      }
    }
  }

  /** Python's `<` on two different strings: by code point, a proper prefix first. */
  predicate Before(a: PyStr, b: PyStr) {
    b != [] && (a == [] || a[0] < b[0] || (a[0] == b[0] && Before(a[1..], b[1..])))
  }

  lemma {:induction false} BeforeIsTotal(a: PyStr, b: PyStr)
    ensures a == b || Before(a, b) || Before(b, a)
    ensures !(Before(a, b) && Before(b, a))
    ensures !Before(a, a)
  {
    if a != [] && b != [] && a[0] == b[0] {
      BeforeIsTotal(a[1..], b[1..]);
      assert a == [a[0]] + a[1..] && b == [b[0]] + b[1..];
    }
    if a != [] {
      BeforeIsTotal(a[1..], a[1..]);
    }
  }

  lemma {:induction false} BeforeIsTransitive(a: PyStr, b: PyStr, c: PyStr)
    requires Before(a, b) && Before(b, c)
    ensures Before(a, c)
  {
    if a != [] && a[0] == b[0] && b[0] == c[0] {
      BeforeIsTransitive(a[1..], b[1..], c[1..]);
    }
  }
}
