/** Arithmetic over the reals that the services share: rounding, sums, population variance. */
module Numbers {

  function Abs(x: real): real {
    if x < 0.0 then -x else x
  }

  function Max(x: real, y: real): real {
    if x < y then y else x
  }

  function Min(x: real, y: real): real {
    if y < x then y else x
  }

  // ----- round(x, 6) ---------------------------------------------------------

  /** The nearest integer, ties to the even one. */
  function RoundHalfEven(y: real): int {
    var f := y.Floor;
    var d := y - f as real;
    if d < 0.5 || (d == 0.5 && f % 2 == 0) then f else f + 1
  }

  function Round6(x: real): real {
    RoundHalfEven(x * 1000000.0) as real / 1000000.0
  }

  function Round4(x: real): real {
    RoundHalfEven(x * 10000.0) as real / 10000.0
  }

  /** A multiple of 10^-6. */
  predicate OnGrid(x: real) {
    (x * 1000000.0).Floor as real == x * 1000000.0
  }

  lemma FloorOfInt(n: int)
    ensures (n as real).Floor == n
  {
  }

  lemma Round6IsClose(x: real)
    ensures Abs(Round6(x) - x) <= 0.0000005
    ensures OnGrid(Round6(x))
  {
    var y := x * 1000000.0;
    var n := RoundHalfEven(y);
    assert -0.5 <= n as real - y <= 0.5;
    assert Round6(x) * 1000000.0 == n as real;
    assert Round6(x) - x == (n as real - y) / 1000000.0;
    FloorOfInt(n);
  }

  lemma Round6KeepsGrid(x: real)
    requires OnGrid(x)
    ensures Round6(x) == x
  {
  }

  lemma Round6IsMonotone(x: real, y: real)
    requires x <= y
    ensures Round6(x) <= Round6(y)
  {
    var a, b := x * 1000000.0, y * 1000000.0;
    assert a <= b;
    assert a.Floor <= b.Floor;
    assert RoundHalfEven(a) <= RoundHalfEven(b);
  }

  // ----- quotients -----------------------------------------------------------

  lemma QuotientIs(y: real, x: real, q: real)
    requires x != 0.0 && q * x == y
    ensures y / x == q
  {
    assert (y / x) * x == y;
    assert (y / x - q) * x == 0.0;
  }

  lemma RelativeChange(x: real, y: real)
    requires x != 0.0
    ensures (y - x) / x == y / x - 1.0
  {
    var q := y / x;
    assert q * x == y;
    assert (q - 1.0) * x == y - x;
    QuotientIs(y - x, x, q - 1.0);
  }

  lemma QuotientBounds(x: real, y: real)
    requires x > 0.0
    ensures y > 0.0 ==> y / x > 0.0
    ensures y / x >= 1.0 <==> y >= x
  {
    var q := y / x;
    assert q * x == y;
    assert (q - 1.0) * x == y - x;
    Signs(q, x);
    Signs(q - 1.0, x);
  }

  lemma Signs(a: real, x: real)
    requires x > 0.0
    ensures a > 0.0 <==> a * x > 0.0
    ensures a < 0.0 <==> a * x < 0.0
  {
  }

  lemma QuotientTimes(y: real, x: real)
    requires x != 0.0
    ensures y / x * x == y
  {
  }

  /** A larger base makes a smaller quotient. */
  lemma QuotientOfLarger(value: real, low: real, high: real)
    requires 0.0 < low <= high && value > 0.0
    ensures value / high <= value / low
  {
    var a, b := value / high, value / low;
    assert a * high == value && b * low == value;
    QuotientBounds(low, value);
    assert b * high - b * low == b * (high - low);
    assert (b - a) * high == b * (high - low);
    if high > low {
      Signs(b, high - low);
    }
    Signs(b - a, high);
  }

  // ----- sums ----------------------------------------------------------------

  function Sum<T>(f: T -> real, xs: seq<T>): real {
    if xs == [] then 0.0 else f(xs[0]) + Sum(f, xs[1..])
  }

  lemma {:induction false} SumAppend<T>(f: T -> real, xs: seq<T>, ys: seq<T>)
    ensures Sum(f, xs + ys) == Sum(f, xs) + Sum(f, ys)
  {
    if xs == [] {
      assert xs + ys == ys;
    } else {
      assert (xs + ys)[1..] == xs[1..] + ys;
      SumAppend(f, xs[1..], ys);
    }
  }

  lemma SumAround<T>(f: T -> real, front: seq<T>, x: T, tail: seq<T>)
    ensures Sum(f, front + ([x] + tail)) == f(x) + Sum(f, front + tail)
  {
    SumAppend(f, front, [x] + tail);
    SumAppend(f, front, tail);
    assert ([x] + tail)[1..] == tail;
  }

  lemma MultisetAround<T>(front: seq<T>, x: T, tail: seq<T>)
    ensures multiset(front + ([x] + tail)) == multiset{x} + multiset(front + tail)
  {
  }

  lemma MultisetOfTail<T>(xs: seq<T>)
    requires xs != []
    ensures multiset(xs) == multiset{xs[0]} + multiset(xs[1..])
  {
    assert xs == [xs[0]] + xs[1..];
  }

  lemma SplitAt<T>(ys: seq<T>, x: T) returns (front: seq<T>, tail: seq<T>)
    requires x in ys
    ensures ys == front + ([x] + tail)
  {
    var i :| 0 <= i < |ys| && ys[i] == x;
    front, tail := ys[..i], ys[i + 1..];
  }

  lemma SameMembers<T>(xs: seq<T>, ys: seq<T>, x: T)
    requires multiset(xs) == multiset(ys) && x in xs
    ensures x in ys
  {
    assert x in multiset(xs);
  }

  /** The head of one sequence, found in a permutation of it. */
  lemma AroundHead<T>(xs: seq<T>, ys: seq<T>) returns (front: seq<T>, tail: seq<T>)
    requires xs != [] && multiset(xs) == multiset(ys)
    ensures ys == front + ([xs[0]] + tail) && multiset(xs[1..]) == multiset(front + tail)
  {
    SameMembers(xs, ys, xs[0]);
    front, tail := SplitAt(ys, xs[0]);
    MultisetOfTail(xs);
    MultisetAround(front, xs[0], tail);
    CancelOne(xs[0], multiset(xs[1..]), multiset(front + tail));
  }

  lemma CancelOne<T>(x: T, a: multiset<T>, b: multiset<T>)
    requires multiset{x} + a == multiset{x} + b
    ensures a == b
  {
    assert a == multiset{x} + a - multiset{x};
    assert b == multiset{x} + b - multiset{x};
  }

  /** A sum depends on its terms as a multiset. */
  lemma {:induction false} SumOfPermutation<T>(f: T -> real, xs: seq<T>, ys: seq<T>)
    requires multiset(xs) == multiset(ys)
    ensures Sum(f, xs) == Sum(f, ys)
    decreases |xs|
  {
    if xs == [] {
      assert |multiset(ys)| == |ys|;
    } else {
      var front, tail := AroundHead(xs, ys);
      SumOfPermutation(f, xs[1..], front + tail);
      SumAround(f, front, xs[0], tail);
    }
  }

  /** A function applied to every element. */
  function Map<T, U>(f: T -> U, xs: seq<T>): (r: seq<U>)
    ensures |r| == |xs|
  {
    if xs == [] then [] else [f(xs[0])] + Map(f, xs[1..])
  }

  lemma {:induction false} MapAppend<T, U>(f: T -> U, xs: seq<T>, ys: seq<T>)
    ensures Map(f, xs + ys) == Map(f, xs) + Map(f, ys)
  {
    if xs == [] {
      assert xs + ys == ys;
    } else {
      assert (xs + ys)[1..] == xs[1..] + ys;
      MapAppend(f, xs[1..], ys);
    }
  }

  lemma MapAround<T, U>(f: T -> U, front: seq<T>, x: T, tail: seq<T>)
    ensures multiset(Map(f, front + ([x] + tail))) == multiset{f(x)} + multiset(Map(f, front + tail))
  {
    MapAppend(f, front, [x] + tail);
    MapAppend(f, front, tail);
    MapCons(f, x, tail);
    MultisetAround(Map(f, front), f(x), Map(f, tail));
  }

  lemma MapCons<T, U>(f: T -> U, x: T, tail: seq<T>)
    ensures Map(f, [x] + tail) == [f(x)] + Map(f, tail)
  {
    assert ([x] + tail)[1..] == tail;
  }

  lemma {:induction false} MapOfPermutation<T, U>(f: T -> U, xs: seq<T>, ys: seq<T>)
    requires multiset(xs) == multiset(ys)
    ensures multiset(Map(f, xs)) == multiset(Map(f, ys))
    decreases |xs|
  {
    if xs == [] {
      assert |multiset(ys)| == |ys|;
    } else {
      var front, tail := AroundHead(xs, ys);
      MapOfPermutation(f, xs[1..], front + tail);
      MapAround(f, front, xs[0], tail);
      assert xs == [xs[0]] + xs[1..];
      MapCons(f, xs[0], xs[1..]);
    }
  }

  lemma {:induction false} MapAt<T, U>(f: T -> U, xs: seq<T>, i: nat)
    requires i < |xs|
    ensures Map(f, xs)[i] == f(xs[i])
  {
    if i > 0 {
      MapAt(f, xs[1..], i - 1);
    }
  }

  // ----- population statistics -------------------------------------------------

  const IDENTITY := (x: real) => x

  function Square(x: real): real {
    x * x
  }

  /** The squared distance from `a`. */
  function SquareAbout(a: real): real -> real {
    (x: real) => Square(x - a)
  }

  function Mean(xs: seq<real>): real
    requires xs != []
  {
    Sum(IDENTITY, xs) / |xs| as real
  }

  /** The mean squared deviation from the mean. */
  function Variance(xs: seq<real>): real
    requires xs != []
  {
    Sum(SquareAbout(Mean(xs)), xs) / |xs| as real
  }

  /** What `statistics.pstdev` returns, in exact arithmetic. */
  predicate IsPstdev(xs: seq<real>, sigma: real)
    requires xs != []
  {
    sigma >= 0.0 && Square(sigma) == Variance(xs)
  }

  lemma SquareIsNotNegative(x: real)
    ensures Square(x) >= 0.0
  {
  }

  lemma SquareGrows(x: real, y: real)
    requires 0.0 <= x < y
    ensures Square(x) < Square(y)
  {
    assert (y - x) * (y + x) == y * y - x * x;
    Signs(y - x, y + x);
  }

  lemma RootIsUnique(s: real, t: real)
    requires s >= 0.0 && t >= 0.0 && Square(s) == Square(t)
    ensures s == t
  {
    if s < t {
      SquareGrows(s, t);
    } else if t < s {
      SquareGrows(t, s);
    }
  }

  lemma StatisticsOfPermutation(xs: seq<real>, ys: seq<real>)
    requires xs != [] && multiset(xs) == multiset(ys)
    ensures ys != [] && Mean(xs) == Mean(ys) && Variance(xs) == Variance(ys)
  {
    assert |multiset(xs)| == |xs| && |multiset(ys)| == |ys|;
    SumOfPermutation(IDENTITY, xs, ys);
    SumOfPermutation(SquareAbout(Mean(xs)), xs, ys);
  }

  lemma SumOfTwo(f: real -> real, x: real, y: real)
    ensures Sum(f, [x, y]) == f(x) + f(y)
  {
    assert [x, y][1..] == [y] && [y][1..] == [];
    assert Sum(f, [y]) == f(y) + Sum(f, []);
  }

  lemma StatisticsOfTwo(x: real, y: real)
    ensures Mean([x, y]) == (x + y) / 2.0
    ensures Variance([x, y]) == Square((x - y) / 2.0)
  {
    var m := (x + y) / 2.0;
    SumOfTwo(IDENTITY, x, y);
    SumOfTwo(SquareAbout(m), x, y);
    var d := (x - y) / 2.0;
    assert x - m == d && y - m == -d && Square(-d) == Square(d);
    assert |[x, y]| as real == 2.0 && Mean([x, y]) == m;
    assert Variance([x, y]) == (Square(d) + Square(d)) / 2.0;
  }

  /** The population deviation of two numbers is half their distance. */
  lemma PstdevOfTwo(x: real, y: real, sigma: real)
    requires IsPstdev([x, y], sigma)
    ensures sigma == Abs(x - y) / 2.0
  {
    StatisticsOfTwo(x, y);
    var d := (x - y) / 2.0;
    assert Square(Abs(d)) == Square(d);
    RootIsUnique(sigma, Abs(d));
  }

  lemma {:induction false} SumOfEqual<T>(f: T -> real, xs: seq<T>, v: real)
    requires forall i :: 0 <= i < |xs| ==> f(xs[i]) == v
    ensures Sum(f, xs) == v * |xs| as real
  {
    if xs != [] {
      SumOfEqual(f, xs[1..], v);
      assert |xs| as real == 1.0 + |xs[1..]| as real;
    }
  }

  /** Equal numbers have themselves for a mean and no deviation. */
  lemma StatisticsOfEqual(xs: seq<real>, v: real, sigma: real)
    requires xs != [] && (forall i :: 0 <= i < |xs| ==> xs[i] == v) && IsPstdev(xs, sigma)
    ensures Mean(xs) == v && sigma == 0.0
  {
    SumOfEqual(IDENTITY, xs, v);
    QuotientIs(v * |xs| as real, |xs| as real, v);
    SumOfEqual(SquareAbout(v), xs, 0.0);
    RootIsUnique(sigma, 0.0);
  }

  lemma Round4IsClose(x: real)
    ensures Abs(Round4(x) - x) <= 0.00005
  {
    var y := x * 10000.0;
    assert -0.5 <= RoundHalfEven(y) as real - y <= 0.5;
    assert Round4(x) - x == (RoundHalfEven(y) as real - y) / 10000.0;
  }
}
