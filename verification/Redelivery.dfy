/** A retry can store an event again: what that does to a symbol's returns, and to what is computed from them. */
module Redelivery {
  import opened Numbers
  import opened RiskMath
  import opened PortfolioMath

  /** Everything arrives at least once and in order, repeats directly after each other. */
  ghost predicate Repeats<T>(once: seq<T>, arrived: seq<T>)
    decreases |arrived|
  {
    if arrived == [] then once == []
    else
      var n, m := |once| - 1, |arrived| - 1;
      && once != [] && once[n] == arrived[m]
      && (Repeats(once, arrived[..m]) || Repeats(once[..n], arrived[..m]))
  }

  /** The first arrives once only. */
  ghost predicate RepeatsAfterFirst<T>(once: seq<T>, arrived: seq<T>) {
    once != [] && arrived != [] && once[0] == arrived[0] && Repeats(once[1..], arrived[1..])
  }

  lemma RepeatsKeepLast<T>(once: seq<T>, arrived: seq<T>)
    requires Repeats(once, arrived) && once != []
    ensures arrived != [] && arrived[|arrived| - 1] == once[|once| - 1]
  {
  }

  lemma RepeatsAgain<T>(once: seq<T>, arrived: seq<T>, x: T)
    requires Repeats(once, arrived) && once != [] && once[|once| - 1] == x
    ensures Repeats(once, arrived + [x])
  {
    assert (arrived + [x])[..|arrived|] == arrived;
  }

  lemma RepeatsNext<T>(once: seq<T>, arrived: seq<T>, x: T)
    requires Repeats(once, arrived)
    ensures Repeats(once + [x], arrived + [x])
  {
    assert (once + [x])[..|once|] == once && (arrived + [x])[..|arrived|] == arrived;
  }

  lemma StepBetween(prices: seq<real>, price: real, next: real)
    requires prices != [] && prices[|prices| - 1] == price && price > 0.0
    ensures Returns(prices + [next]) == Returns(prices) + [(next - price) / price]
  {
    var all := prices + [next];
    assert all[..|prices|] == prices && all[|prices|] == next && all[|prices| - 1] == price;
  }

  lemma FlatMove(price: real)
    requires price > 0.0
    ensures (price - price) / price == 0.0
  {
    QuotientIs(price - price, price, 0.0);
  }

  lemma FlatReturn(prices: seq<real>, price: real)
    requires prices != [] && prices[|prices| - 1] == price && price > 0.0
    ensures Returns(prices + [price]) == Returns(prices) + [0.0]
  {
    FlatMove(price);
    StepBetween(prices, price, price);
  }

  lemma WithinAppend(rs: seq<real>, r: real, bound: real)
    ensures Within(rs + [r], bound) <==> Within(rs, bound) && -bound <= r <= bound
  {
    if Within(rs + [r], bound) {
      assert (rs + [r])[|rs|] == r;
      forall i | 0 <= i < |rs|
        ensures -bound <= rs[i] <= bound
      {
        assert (rs + [r])[i] == rs[i];
      }
    }
  }

  lemma FlatStaysWithin(prices: seq<real>, price: real, bound: real)
    requires AllPositive(prices) && prices != [] && prices[|prices| - 1] == price
    requires Within(Returns(prices), bound) && bound >= 0.0
    ensures AllPositive(prices + [price]) && Within(Returns(prices + [price]), bound)
  {
    FlatReturn(prices, price);
    WithinAppend(Returns(prices), 0.0, bound);
  }

  /** Repeated prices give no return that was not there, except zero. */
  lemma {:induction false} RepeatsStayWithin(once: seq<real>, arrived: seq<real>, bound: real)
    requires AllPositive(once) && Repeats(once, arrived) && Within(Returns(once), bound) && bound >= 0.0
    ensures AllPositive(arrived) && Within(Returns(arrived), bound)
    decreases |arrived|, 0
  {
    if arrived != [] {
      var n, m := |once| - 1, |arrived| - 1;
      var o, a, x := once[..n], arrived[..m], arrived[m];
      assert once == o + [x] && arrived == a + [x];
      if Repeats(once, a) {
        RepeatsStayWithin(once, a, bound);
        RepeatsKeepLast(once, a);
        FlatStaysWithin(a, x, bound);
      } else if o != [] {
        StepStaysWithin(o, a, x, bound);
      } else {
        RepeatsOfNothing(a);
      }
    }
  }

  lemma {:induction false} StepStaysWithin(o: seq<real>, a: seq<real>, x: real, bound: real)
    requires o != [] && AllPositive(o) && x > 0.0 && Repeats(o, a) && Within(Returns(o + [x]), bound) && bound >= 0.0
    ensures AllPositive(a) && Within(Returns(a + [x]), bound)
    decreases |a|, 1
  {
    var y := o[|o| - 1];
    StepBetween(o, y, x);
    WithinAppend(Returns(o), (x - y) / y, bound);
    RepeatsStayWithin(o, a, bound);
    RepeatsKeepLast(o, a);
    StepBetween(a, y, x);
    WithinAppend(Returns(a), (x - y) / y, bound);
  }

  lemma RepeatsOfNothing<T>(arrived: seq<T>)
    requires Repeats([], arrived)
    ensures arrived == []
  {
  }

  // ----- what the drawdown loop remembers ------------------------------------------

  function Peak(e: seq<real>): real
    requires e != []
  {
    PrefixMax(e, |e| - 1)
  }

  lemma {:induction false} PrefixMaxOfLonger(e: seq<real>, x: real, k: nat)
    requires k < |e|
    ensures PrefixMax(e + [x], k) == PrefixMax(e, k)
  {
    if k > 0 {
      PrefixMaxOfLonger(e, x, k - 1);
    }
  }

  lemma {:induction false} DrawdownOfLonger(e: seq<real>, x: real, n: nat)
    requires n <= |e| && !HasZeroPeak(e) && !HasZeroPeak(e + [x])
    ensures DrawdownUpTo(e + [x], n) == DrawdownUpTo(e, n)
  {
    if n > 0 {
      DrawdownOfLonger(e, x, n - 1);
      PrefixMaxOfLonger(e, x, n - 1);
    }
  }

  lemma OneMorePoint(e: seq<real>, x: real)
    requires AllPositive(e) && x > 0.0 && e != []
    ensures !HasZeroPeak(e) && !HasZeroPeak(e + [x])
    ensures var peak := Peak(e + [x]);
            && peak == Max(Peak(e), x) && peak > 0.0
            && Drawdown(e + [x]) == Min(Drawdown(e), (x - peak) / peak)
  {
    PositiveCurveHasNoZeroPeak(e);
    PositiveCurveHasNoZeroPeak(e + [x]);
    PrefixMaxOfLonger(e, x, |e| - 1);
    DrawdownOfLonger(e, x, |e|);
    PrefixMaxIsMax(e, |e| - 1);
    assert e[0] <= Peak(e);
  }

  /** After both series the loop holds the same equity, peak and drawdown. */
  ghost predicate SameMeasures(rs: seq<real>, qs: seq<real>) {
    && rs != [] && qs != [] && AllAboveMinusOne(rs) && AllAboveMinusOne(qs)
    && Growth(rs) == Growth(qs) && Peak(Curve(rs)) == Peak(Curve(qs))
    && !HasZeroPeak(Curve(rs)) && !HasZeroPeak(Curve(qs)) && Drawdown(Curve(rs)) == Drawdown(Curve(qs))
  }

  lemma SameAsItself(rs: seq<real>)
    requires rs != [] && AllAboveMinusOne(rs)
    ensures SameMeasures(rs, rs)
  {
    CurveIsPositive(rs);
    PositiveCurveHasNoZeroPeak(Curve(rs));
  }

  lemma OneMoreReturn(rs: seq<real>, r: real)
    requires rs != [] && AllAboveMinusOne(rs) && r > -1.0
    ensures AllAboveMinusOne(rs + [r]) && Growth(rs + [r]) == Compound(Growth(rs), r) && Growth(rs + [r]) > 0.0
    ensures AllPositive(Curve(rs)) && Curve(rs) != [] && Curve(rs + [r]) == Curve(rs) + [Growth(rs + [r])]
  {
    assert (rs + [r])[..|rs|] == rs;
    CurveIsPositive(rs);
    CurveIsPositive(rs + [r]);
  }

  lemma SameReturnKeepsSame(rs: seq<real>, qs: seq<real>, r: real)
    requires SameMeasures(rs, qs) && r > -1.0
    ensures SameMeasures(rs + [r], qs + [r])
  {
    OneMoreReturn(rs, r);
    OneMoreReturn(qs, r);
    OneMorePoint(Curve(rs), Growth(rs + [r]));
    OneMorePoint(Curve(qs), Growth(qs + [r]));
  }

  lemma FlatReturnKeepsSame(rs: seq<real>, qs: seq<real>)
    requires SameMeasures(rs, qs)
    ensures SameMeasures(rs, qs + [0.0])
  {
    var e := Curve(qs);
    OneMoreReturn(qs, 0.0);
    FlatStep(Growth(qs));
    OneMorePoint(e, Growth(qs));
    PrefixMaxIsMax(e, |e| - 1);
    assert Growth(qs) == e[|e| - 1] <= Peak(e);
  }

  lemma PositiveReturn(price: real, next: real)
    requires price > 0.0 && next > 0.0
    ensures (next - price) / price > -1.0
  {
    RelativeChange(price, next);
    QuotientBounds(price, next);
  }

  lemma {:induction false} ReturnsAboveMinusOne(prices: seq<real>)
    requires AllPositive(prices)
    ensures AllAboveMinusOne(Returns(prices)) && (|prices| > 1 ==> Returns(prices) != [])
  {
    if |prices| > 1 {
      var n := |prices| - 1;
      ReturnsAboveMinusOne(prices[..n]);
      PositiveReturn(prices[n - 1], prices[n]);
    }
  }

  /** Repeats of prices that have a price before them leave equity, peak and drawdown as they were. */
  lemma {:induction false} RepeatsKeepMeasures(head: seq<real>, once: seq<real>, arrived: seq<real>)
    requires head != [] && once != [] && AllPositive(head) && AllPositive(once) && Repeats(once, arrived)
    ensures SameMeasures(Returns(head + once), Returns(head + arrived))
    decreases |arrived|
  {
    var n, m := |once| - 1, |arrived| - 1;
    var o, a, x := once[..n], arrived[..m], arrived[m];
    assert head + once == (head + o) + [x] && head + arrived == (head + a) + [x];
    if Repeats(once, a) {
      RepeatsKeepMeasures(head, once, a);
      RepeatsKeepLast(once, a);
      FlatReturn(head + a, x);
      FlatReturnKeepsSame(Returns(head + once), Returns(head + a));
    } else if o != [] {
      RepeatsKeepMeasures(head, o, a);
      RepeatsKeepLast(o, a);
      StepKeepsMeasures(head + o, head + a, x);
    } else {
      RepeatsOfNothing(a);
      ReturnsAboveMinusOne(head + once);
      SameAsItself(Returns(head + once));
    }
  }

  /** Repeats of prices after the first leave drawdown and growth as they were. */
  lemma RepeatsAfterFirstKeepDrawdown(once: seq<real>, arrived: seq<real>)
    requires AllPositive(once) && RepeatsAfterFirst(once, arrived)
    ensures var rs, qs := Returns(once), Returns(arrived);
            && Growth(rs) == Growth(qs)
            && !HasZeroPeak(Curve(rs)) && !HasZeroPeak(Curve(qs)) && Drawdown(Curve(rs)) == Drawdown(Curve(qs))
  {
    assert once == once[..1] + once[1..] && arrived == once[..1] + arrived[1..];
    if once[1..] == [] {
      RepeatsOfNothing(arrived[1..]);
    } else {
      RepeatsKeepMeasures(once[..1], once[1..], arrived[1..]);
    }
  }

  lemma StepKeepsMeasures(once: seq<real>, arrived: seq<real>, next: real)
    requires SameMeasures(Returns(once), Returns(arrived)) && next > 0.0 && once != [] && arrived != []
    requires arrived[|arrived| - 1] == once[|once| - 1] > 0.0
    ensures SameMeasures(Returns(once + [next]), Returns(arrived + [next]))
  {
    var price := once[|once| - 1];
    StepBetween(once, price, next);
    StepBetween(arrived, price, next);
    PositiveReturn(price, next);
    SameReturnKeepsSame(Returns(once), Returns(arrived), (next - price) / price);
  }

  // ----- a repeat of the very first price ------------------------------------------

  lemma {:induction false} CurveAfterFlatStart(rs: seq<real>)
    ensures Curve([0.0] + rs) == [1.0] + Curve(rs) && Growth([0.0] + rs) == Growth(rs)
  {
    var longer := [0.0] + rs;
    if rs == [] {
      assert longer[..0] == [];
      FlatStep(1.0);
    } else {
      var n := |rs| - 1;
      CurveAfterFlatStart(rs[..n]);
      assert longer[..n + 1] == [0.0] + rs[..n];
    }
  }

  /** However far below 1 the curve lies at a point, it falls at least as far somewhere. */
  ghost predicate FallsMatched(e: seq<real>)
    requires AllPositive(e)
  {
    forall k :: 0 <= k < |e| ==> HasFall(e, e[k] - 1.0)
  }

  ghost predicate HasFall(e: seq<real>, d: real)
    requires AllPositive(e)
  {
    exists i, j :: 0 <= i <= j < |e| && Change(e, i, j) <= d
  }

  lemma FallsMatchedIff(e: seq<real>, d: real)
    requires AllPositive(e) && e != [] && IsWorstFall(e, |e|, d)
    ensures FallsMatched(e) <==> forall k :: 0 <= k < |e| ==> e[k] - 1.0 >= d
  {
    var i, j :| 0 <= i <= j < |e| && d == Change(e, i, j);
    forall k | 0 <= k < |e|
      ensures HasFall(e, e[k] - 1.0) <==> e[k] - 1.0 >= d
    {
      assert Change(e, i, j) <= e[k] - 1.0 <==> e[k] - 1.0 >= d;
    }
  }

  /** A repeat of the first price puts the starting equity of 1 before the curve. */
  lemma StartKeepsDrawdownIff(rs: seq<real>)
    requires rs != [] && AllAboveMinusOne(rs)
    ensures AllPositive(Curve(rs)) && !HasZeroPeak(Curve(rs)) && !HasZeroPeak(Curve([0.0] + rs))
    ensures Drawdown(Curve([0.0] + rs)) == Drawdown(Curve(rs)) <==> FallsMatched(Curve(rs))
  {
    CurveIsPositive(rs);
    CurveAfterFlatStart(rs);
    StartKeepsFallIff(Curve(rs), [1.0] + Curve(rs));
  }

  lemma StartChanges(e: seq<real>, f: seq<real>)
    requires AllPositive(e) && AllPositive(f) && e != [] && f == [1.0] + e
    ensures forall i, j :: 0 <= i <= j < |e| ==> Change(e, i, j) == Change(f, i + 1, j + 1)
    ensures forall k :: 0 <= k < |e| ==> Change(f, 0, k + 1) == e[k] - 1.0
    ensures Change(f, 0, 0) == 0.0
  {
    forall k | 0 <= k < |e|
      ensures Change(f, 0, k + 1) == e[k] - 1.0
    {
      QuotientIs(e[k] - 1.0, 1.0, e[k] - 1.0);
    }
  }

  lemma StartBoundsFall(e: seq<real>, f: seq<real>, d: real, c: real)
    requires AllPositive(e) && AllPositive(f) && e != [] && f == [1.0] + e
    requires IsWorstFall(e, |e|, d) && IsWorstFall(f, |f|, c)
    ensures c <= d <= 0.0 && forall k :: 0 <= k < |e| ==> c <= e[k] - 1.0
  {
    StartChanges(e, f);
    var i, j :| 0 <= i <= j < |e| && d == Change(e, i, j);
    assert c <= Change(f, i + 1, j + 1);
    assert d <= Change(e, 0, 0);
    forall k | 0 <= k < |e|
      ensures c <= e[k] - 1.0
    {
      assert c <= Change(f, 0, k + 1);
    }
  }

  lemma StartReachesFall(e: seq<real>, f: seq<real>, d: real, c: real)
    requires AllPositive(e) && AllPositive(f) && e != [] && f == [1.0] + e
    requires IsWorstFall(e, |e|, d) && IsWorstFall(f, |f|, c)
    ensures c >= d || c == 0.0 || exists k :: 0 <= k < |e| && c == e[k] - 1.0
  {
    StartChanges(e, f);
    var i, j :| 0 <= i <= j < |f| && c == Change(f, i, j);
    if i > 0 {
      assert d <= Change(e, i - 1, j - 1) == Change(f, i, j);
    } else if j > 0 {
      assert Change(f, 0, j) == e[j - 1] - 1.0;
    }
  }

  lemma StartKeepsFallIff(e: seq<real>, f: seq<real>)
    requires AllPositive(e) && e != [] && f == [1.0] + e
    ensures !HasZeroPeak(e) && !HasZeroPeak(f)
    ensures Drawdown(f) == Drawdown(e) <==> FallsMatched(e)
  {
    DrawdownIsWorstFall(e);
    DrawdownIsWorstFall(f);
    StartBoundsFall(e, f, Drawdown(e), Drawdown(f));
    StartReachesFall(e, f, Drawdown(e), Drawdown(f));
    FallsMatchedIff(e, Drawdown(e));
  }

  /** However far a price lies below the first, some later fall, from a price after the first, is at least as deep. */
  ghost predicate LaterFallsMatch(prices: seq<real>) {
    forall k :: 1 <= k < |prices| ==> LaterFallMatches(prices, k)
  }

  ghost predicate LaterFallMatches(prices: seq<real>, k: nat)
    requires 1 <= k < |prices|
  {
    exists i, j :: 1 <= i <= j < |prices| && prices[j] * prices[0] <= prices[k] * prices[i]
  }

  lemma CompareRatios(a: real, b: real, c: real, d: real)
    requires b > 0.0 && d > 0.0
    ensures a / b <= c / d <==> a * d <= c * b
  {
    var u, v := a / b, c / d;
    assert a == u * b && c == v * d;
    assert a * d == u * (b * d) && c * b == v * (b * d);
    assert (v - u) * (b * d) == c * b - a * d;
    Signs(b, d);
    Signs(v - u, b * d);
  }

  lemma ChangeIsRatio(prices: seq<real>, e: seq<real>, i: nat, j: nat)
    requires AllPositive(prices) && AllPositive(e) && |prices| == |e| + 1 && i < |e| && j < |e|
    requires e[i] == Ratio(prices[i + 1], prices[0]) && e[j] == Ratio(prices[j + 1], prices[0])
    ensures Change(e, i, j) == Ratio(prices[j + 1], prices[i + 1]) - 1.0
  {
    var p, x, y := prices[0], prices[i + 1], prices[j + 1];
    RelativeChange(e[i], e[j]);
    assert x == e[i] * p && y == e[j] * p;
    var q := y / x;
    assert (e[j] / e[i]) * e[i] == e[j];
    assert (e[j] / e[i]) * x == ((e[j] / e[i]) * e[i]) * p;
    QuotientIs(y, x, e[j] / e[i]);
  }

  /** The equity curve of prices, in units of the first. */
  ghost predicate IsCurveOf(e: seq<real>, prices: seq<real>)
    requires AllPositive(prices)
  {
    |prices| == |e| + 1 && forall k :: 0 <= k < |e| ==> e[k] == Ratio(prices[k + 1], prices[0])
  }

  lemma MatchOnPrices(prices: seq<real>, e: seq<real>)
    requires AllPositive(prices) && AllPositive(e) && IsCurveOf(e, prices)
    ensures FallsMatched(e) <==> LaterFallsMatch(prices)
  {
    forall i, j, k | 0 <= i <= j < |e| && 0 <= k < |e|
      ensures Change(e, i, j) <= e[k] - 1.0 <==> prices[j + 1] * prices[0] <= prices[k + 1] * prices[i + 1]
    {
      ChangeIsRatio(prices, e, i, j);
      CompareRatios(prices[j + 1], prices[i + 1], prices[k + 1], prices[0]);
    }
    forall k | 0 <= k < |e|
      ensures HasFall(e, e[k] - 1.0) <==> LaterFallMatches(prices, k + 1)
    {
      if HasFall(e, e[k] - 1.0) {
        var i, j :| 0 <= i <= j < |e| && Change(e, i, j) <= e[k] - 1.0;
        assert prices[j + 1] * prices[0] <= prices[k + 1] * prices[i + 1];
      }
      if LaterFallMatches(prices, k + 1) {
        var i, j :| 1 <= i <= j < |prices| && prices[j] * prices[0] <= prices[k + 1] * prices[i];
        assert Change(e, i - 1, j - 1) <= e[k] - 1.0;
      }
    }
    if FallsMatched(e) {
      forall k | 1 <= k < |prices|
        ensures LaterFallMatches(prices, k)
      {
        assert HasFall(e, e[k - 1] - 1.0);
      }
    }
    if LaterFallsMatch(prices) {
      forall k | 0 <= k < |e|
        ensures HasFall(e, e[k] - 1.0)
      {
        assert LaterFallMatches(prices, k + 1);
      }
    }
  }

  lemma PricesAreCurve(prices: seq<real>)
    requires AllPositive(prices) && prices != []
    ensures IsCurveOf(Curve(Returns(prices)), prices)
  {
    CompoundingUndoesReturns(prices, 0, 0);
    forall k | 0 <= k < |prices| - 1
      ensures Curve(Returns(prices))[k] == Ratio(prices[k + 1], prices[0])
    {
      EquityIsRelativePrice(prices, k);
    }
  }

  lemma {:induction false} ReturnsAfterRepeat(prices: seq<real>)
    requires AllPositive(prices) && prices != []
    ensures Returns([prices[0]] + prices) == [0.0] + Returns(prices)
  {
    var n := |prices| - 1;
    var longer := [prices[0]] + prices;
    if n == 0 {
      FlatReturn(prices, prices[0]);
      assert longer == prices + [prices[0]];
    } else {
      ReturnsAfterRepeat(prices[..n]);
      assert longer == ([prices[0]] + prices[..n]) + [prices[n]] && prices == prices[..n] + [prices[n]];
      StepBetween([prices[0]] + prices[..n], prices[n - 1], prices[n]);
      StepBetween(prices[..n], prices[n - 1], prices[n]);
    }
  }

  /** A repeat of the first price keeps the drawdown iff every fall from the first price is matched by a later one. */
  lemma FirstRepeatKeepsDrawdownIff(prices: seq<real>)
    requires AllPositive(prices) && |prices| > 1
    ensures var rs, qs := Returns(prices), Returns([prices[0]] + prices);
            && !HasZeroPeak(Curve(rs)) && !HasZeroPeak(Curve(qs))
            && (Drawdown(Curve(qs)) == Drawdown(Curve(rs)) <==> LaterFallsMatch(prices))
  {
    ReturnsAboveMinusOne(prices);
    ReturnsAfterRepeat(prices);
    StartKeepsDrawdownIff(Returns(prices));
    PricesAreCurve(prices);
    MatchOnPrices(prices, Curve(Returns(prices)));
  }

  /** A fall right after the first price, which the drawdown does not count, counts once the first price is repeated. */
  lemma FirstRepeatChangesDrawdown(p: real, q: real)
    requires 0.0 < q < p
    ensures !HasZeroPeak(Curve(Returns([p, q]))) && Drawdown(Curve(Returns([p, q]))) == 0.0
    ensures !HasZeroPeak(Curve(Returns([p, p, q]))) && Drawdown(Curve(Returns([p, p, q]))) < 0.0
  {
    var r := (q - p) / p;
    PositiveReturn(p, q);
    QuotientBounds(p, q);
    RelativeChange(p, q);
    FlatReturn([p], p);
    StepBetween([p], p, q);
    StepBetween([p, p], p, q);
    assert [p] + [q] == [p, q] && [p] + [p] == [p, p] && [p, p] + [q] == [p, p, q];
    assert Returns([p, q]) == [r] && Returns([p, p, q]) == [0.0, r];
    DrawdownRange([r]);
    DrawdownRange([0.0, r]);
  }
}
