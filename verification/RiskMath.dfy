/** The measures of `gcp_risk/service.py`, over exact reals, and what they mean. */
module RiskMath {
  import opened Numbers

  // ----- returns and compounding -----------------------------------------------

  /** `_returns_for_symbol` on a price series: a step from price zero gives no return. */
  function Returns(prices: seq<real>): (r: seq<real>)
    ensures |r| <= if |prices| == 0 then 0 else |prices| - 1
  {
    if |prices| < 2 then []
    else
      var n := |prices| - 1;
      Returns(prices[..n]) +
      if prices[n - 1] != 0.0 then [(prices[n] - prices[n - 1]) / prices[n - 1]] else []
  }

  /** The equity after one more return. */
  function Compound(equity: real, r: real): real {
    equity * (1.0 + r)
  }

  lemma CompoundBounds(equity: real, r: real)
    requires equity > 0.0
    ensures r > -1.0 ==> Compound(equity, r) > 0.0
    ensures Compound(equity, r) < equity <==> r < 0.0
    ensures r == 0.0 ==> Compound(equity, r) == equity
  {
    Signs(1.0 + r, equity);
    Signs(r, equity);
    assert Compound(equity, r) == equity + r * equity;
  }

  /** The factor by which a run of returns compounds. */
  function Growth(rs: seq<real>): real {
    if rs == [] then 1.0 else Compound(Growth(rs[..|rs| - 1]), rs[|rs| - 1])
  }

  /** The equity curve of `_max_drawdown`: it starts after the first return, not at 1. */
  function Curve(rs: seq<real>): (e: seq<real>)
    ensures |e| == |rs|
    ensures rs != [] ==> e[|e| - 1] == Growth(rs)
  {
    if rs == [] then [] else Curve(rs[..|rs| - 1]) + [Growth(rs)]
  }

  function Ratio(y: real, x: real): real
    requires x != 0.0
  {
    y / x
  }

  predicate AllPositive(xs: seq<real>) {
    forall i :: 0 <= i < |xs| ==> xs[i] > 0.0
  }

  predicate AllAboveMinusOne(rs: seq<real>) {
    forall i :: 0 <= i < |rs| ==> rs[i] > -1.0
  }

  lemma {:induction false} CurveAt(rs: seq<real>, k: nat)
    requires k < |rs|
    ensures Curve(rs)[k] == Growth(rs[..k + 1])
  {
    if k < |rs| - 1 {
      CurveAt(rs[..|rs| - 1], k);
      assert rs[..|rs| - 1][..k + 1] == rs[..k + 1];
    } else {
      assert rs[..k + 1] == rs;
    }
  }

  lemma GrowthPrefix(rs: seq<real>, k: nat)
    requires k < |rs|
    ensures Growth(rs[..k + 1]) == Compound(Growth(rs[..k]), rs[k])
  {
    assert rs[..k + 1][..k] == rs[..k];
  }

  lemma CurveStep(rs: seq<real>, k: nat)
    requires 0 < k < |rs|
    ensures Curve(rs)[k] == Compound(Curve(rs)[k - 1], rs[k])
  {
    CurveAt(rs, k);
    CurveAt(rs, k - 1);
    GrowthPrefix(rs, k);
  }

  lemma {:induction false} CurveIsPositive(rs: seq<real>)
    requires AllAboveMinusOne(rs)
    ensures AllPositive(Curve(rs)) && Growth(rs) > 0.0
  {
    if rs != [] {
      var front := rs[..|rs| - 1];
      CurveIsPositive(front);
      CompoundBounds(Growth(front), rs[|rs| - 1]);
      assert Curve(rs) == Curve(front) + [Growth(rs)];
    }
  }

  lemma {:induction false} ReturnsAt(prices: seq<real>, k: nat)
    requires AllPositive(prices) && k + 1 < |prices|
    ensures |Returns(prices)| == |prices| - 1
    ensures Returns(prices)[k] == (prices[k + 1] - prices[k]) / prices[k]
    ensures 1.0 + Returns(prices)[k] == Ratio(prices[k + 1], prices[k])
    decreases |prices|
  {
    var n := |prices| - 1;
    var front := prices[..n];
    if n >= 2 {
      ReturnsAt(front, if k + 1 < n then k else 0);
    }
    RelativeChange(prices[k], prices[k + 1]);
  }

  /** Compounding the returns between two moments gives back the ratio of the two prices. */
  lemma {:induction false} CompoundingUndoesReturns(prices: seq<real>, a: nat, b: nat)
    requires AllPositive(prices) && a <= b < |prices|
    ensures |Returns(prices)| == |prices| - 1
    ensures Growth(Returns(prices)[a..b]) == Ratio(prices[b], prices[a])
    decreases b
  {
    if |prices| > 1 {
      ReturnsAt(prices, 0);
    }
    if a < b {
      CompoundingUndoesReturns(prices, a, b - 1);
      ReturnsAt(prices, b - 1);
      var rs := Returns(prices)[a..b];
      assert rs[..|rs| - 1] == Returns(prices)[a..b - 1];
      RatioChain(prices[a], prices[b - 1], prices[b], Returns(prices)[b - 1]);
    } else {
      QuotientIs(prices[b], prices[a], 1.0);
      assert Returns(prices)[a..b] == [];
    }
  }

  lemma RatioChain(x: real, y: real, z: real, r: real)
    requires x > 0.0 && y > 0.0 && 1.0 + r == Ratio(z, y)
    ensures Compound(Ratio(y, x), r) == Ratio(z, x)
  {
    var u, v := y / x, z / y;
    assert y == u * x && z == v * y;
    assert z == (u * v) * x;
    QuotientIs(z, x, u * v);
  }

  /** On positive prices the equity curve is the price curve, in units of the first price. */
  lemma EquityIsRelativePrice(prices: seq<real>, k: nat)
    requires AllPositive(prices) && k + 1 < |prices|
    ensures |Returns(prices)| == |prices| - 1
    ensures Curve(Returns(prices))[k] == Ratio(prices[k + 1], prices[0])
  {
    CompoundingUndoesReturns(prices, 0, k + 1);
    CurveAt(Returns(prices), k);
  }

  // ----- rolling return ----------------------------------------------------------

  /** Python's `rs[-window:]`. */
  function LastWindow(rs: seq<real>, window: int): seq<real> {
    if window > |rs| then rs
    else if window > 0 then rs[|rs| - window..]
    else if -window < |rs| then rs[-window..]
    else []
  }

  function RollingReturn(rs: seq<real>, window: int): real {
    Growth(LastWindow(rs, window)) - 1.0
  }

  /** The length of Python's `rs[-window:]`, of n entries. */
  function Clipped(window: nat, n: nat): (k: nat)
    ensures k <= n
  {
    if window < n then window else n
  }

  /** The relative change of the last price over the window. */
  function WindowChange(prices: seq<real>, window: nat): real
    requires AllPositive(prices) && prices != []
  {
    var n := |prices| - 1;
    Ratio(prices[n], prices[n - Clipped(window, n)]) - 1.0
  }

  lemma RollingReturnOfTail(rs: seq<real>, window: nat, growth: real)
    requires window > 0 && growth == Growth(rs[|rs| - Clipped(window, |rs|)..|rs|])
    ensures RollingReturn(rs, window) == growth - 1.0
  {
    assert LastWindow(rs, window) == rs[|rs| - Clipped(window, |rs|)..|rs|];
  }

  /** Compounding these returns gives the ratios of these prices. */
  ghost predicate Compounds(rs: seq<real>, prices: seq<real>)
    requires AllPositive(prices)
  {
    |rs| + 1 == |prices| &&
    forall a, b :: 0 <= a <= b < |prices| ==> Growth(rs[a..b]) == Ratio(prices[b], prices[a])
  }

  lemma ReturnsCompound(prices: seq<real>)
    requires AllPositive(prices) && prices != []
    ensures Compounds(Returns(prices), prices)
  {
    var rs := Returns(prices);
    CompoundingUndoesReturns(prices, 0, 0);
    forall a, b | 0 <= a <= b < |prices|
      ensures Growth(rs[a..b]) == Ratio(prices[b], prices[a])
    {
      CompoundingUndoesReturns(prices, a, b);
    }
  }

  lemma RollingReturnOfCompounds(rs: seq<real>, prices: seq<real>, window: nat)
    requires AllPositive(prices) && Compounds(rs, prices) && window > 0
    ensures RollingReturn(rs, window) == WindowChange(prices, window)
  {
    RollingReturnOfTail(rs, window, Growth(rs[|rs| - Clipped(window, |rs|)..|rs|]));
  }

  /** Over positive prices the rolling return is the relative price change over the window. */
  lemma RollingReturnIsPriceChange(prices: seq<real>, window: nat)
    requires AllPositive(prices) && prices != [] && window > 0
    ensures RollingReturn(Returns(prices), window) == WindowChange(prices, window)
  {
    ReturnsCompound(prices);
    RollingReturnOfCompounds(Returns(prices), prices, window);
  }

  // ----- drawdown ------------------------------------------------------------------

  function PrefixMax(e: seq<real>, k: nat): real
    requires k < |e|
  {
    if k == 0 then e[0] else Max(PrefixMax(e, k - 1), e[k])
  }

  lemma {:induction false} PrefixMaxIsMax(e: seq<real>, k: nat)
    requires k < |e|
    ensures forall i :: 0 <= i <= k ==> e[i] <= PrefixMax(e, k)
    ensures exists i :: 0 <= i <= k && e[i] == PrefixMax(e, k)
  {
    if k == 0 {
      assert e[0] == PrefixMax(e, 0);
    } else {
      PrefixMaxIsMax(e, k - 1);
      var i :| 0 <= i <= k - 1 && e[i] == PrefixMax(e, k - 1);
      assert e[i] == PrefixMax(e, k) || e[k] == PrefixMax(e, k);
    }
  }

  /** A peak of zero makes the loop divide by zero. */
  predicate HasZeroPeak(e: seq<real>) {
    exists k :: 0 <= k < |e| && PrefixMax(e, k) == 0.0
  }

  /**
   The return at k takes everything: it is the first, or the equity has been
   negative since the first return, which lost more than everything.
   */
  predicate TakesAll(rs: seq<real>, k: nat)
    requires k < |rs|
  {
    rs[k] == -1.0 && (k == 0 || (rs[0] < -1.0 && forall j :: 1 <= j < k ==> rs[j] > -1.0))
  }

  predicate WipedOut(rs: seq<real>) {
    exists k :: 0 <= k < |rs| && TakesAll(rs, k)
  }

  lemma CompoundSigns(equity: real, r: real)
    requires equity < 0.0
    ensures Compound(equity, r) < 0.0 <==> r > -1.0
    ensures Compound(equity, r) == 0.0 <==> r == -1.0
  {
    Signs(1.0 + r, -equity);
    assert Compound(equity, r) == -((1.0 + r) * -equity);
  }

  lemma FirstEquity(rs: seq<real>)
    requires rs != []
    ensures Curve(rs)[0] == 1.0 + rs[0]
  {
    CurveAt(rs, 0);
    assert rs[..1][..0] == [];
    assert Growth(rs[..1]) == Compound(1.0, rs[0]);
  }

  /** The equity is negative up to k iff the first return lost more than everything and none since lost everything. */
  lemma {:induction false} NegativeSoFar(rs: seq<real>, k: nat)
    requires k < |rs|
    ensures (forall j :: 0 <= j <= k ==> Curve(rs)[j] < 0.0) <==>
            rs[0] < -1.0 && forall j :: 1 <= j <= k ==> rs[j] > -1.0
  {
    FirstEquity(rs);
    if k > 0 {
      NegativeSoFar(rs, k - 1);
      if forall j :: 0 <= j <= k - 1 ==> Curve(rs)[j] < 0.0 {
        CurveStep(rs, k);
        CompoundSigns(Curve(rs)[k - 1], rs[k]);
      }
    }
  }

  /** The equity turns from negative to zero at k, or is zero at once. */
  lemma TakesAllIffFirstZero(rs: seq<real>, k: nat)
    requires k < |rs|
    ensures TakesAll(rs, k) <==> Curve(rs)[k] == 0.0 && forall j :: 0 <= j < k ==> Curve(rs)[j] < 0.0
  {
    FirstEquity(rs);
    if k > 0 {
      NegativeSoFar(rs, k - 1);
      CurveStep(rs, k);
      if Curve(rs)[k - 1] < 0.0 {
        CompoundSigns(Curve(rs)[k - 1], rs[k]);
      }
    }
  }

  lemma {:induction false} FirstZero(e: seq<real>, n: nat) returns (k: nat)
    requires n < |e| && e[n] == 0.0 && forall j :: 0 <= j <= n ==> e[j] <= 0.0
    ensures k <= n && e[k] == 0.0 && forall j :: 0 <= j < k ==> e[j] < 0.0
  {
    if j :| 0 <= j < n && e[j] == 0.0 {
      k := FirstZero(e, j);
    } else {
      k := n;
    }
  }

  /** The loop divides by zero exactly on these returns. */
  lemma ZeroPeakIffWipedOut(rs: seq<real>)
    ensures HasZeroPeak(Curve(rs)) <==> WipedOut(rs)
  {
    var e := Curve(rs);
    if HasZeroPeak(e) {
      var n :| 0 <= n < |e| && PrefixMax(e, n) == 0.0;
      PrefixMaxIsMax(e, n);
      var i :| 0 <= i <= n && e[i] == 0.0;
      var k := FirstZero(e, i);
      TakesAllIffFirstZero(rs, k);
    }
    if WipedOut(rs) {
      var k :| 0 <= k < |rs| && TakesAll(rs, k);
      TakesAllIffFirstZero(rs, k);
      PrefixMaxIsMax(e, k);
    }
  }

  /** More returns at the end never mend it. */
  lemma WipedOutForEver(rs: seq<real>, all: seq<real>)
    requires WipedOut(rs) && rs <= all
    ensures WipedOut(all)
  {
    var k :| 0 <= k < |rs| && TakesAll(rs, k);
    assert TakesAll(all, k);
  }

  predicate AllNotNegative(xs: seq<real>) {
    forall i :: 0 <= i < |xs| ==> xs[i] >= 0.0
  }

  /** The first price that is not zero is followed by a zero. */
  ghost predicate FallsToZeroFirst(prices: seq<real>) {
    exists k :: FallsToZeroAt(prices, k)
  }

  predicate FallsToZeroAt(prices: seq<real>, k: int) {
    0 <= k < |prices| - 1 && prices[k] != 0.0 && prices[k + 1] == 0.0 && forall j :: 0 <= j < k ==> prices[j] == 0.0
  }

  /** On prices that are not negative a return loses everything iff it goes to zero, and none loses more. */
  lemma LossBounds(price: real, next: real)
    requires price > 0.0 && next >= 0.0
    ensures (next - price) / price >= -1.0
    ensures (next - price) / price == -1.0 <==> next == 0.0
  {
    RelativeChange(price, next);
    QuotientTimes(next, price);
    Signs(next / price, price);
  }

  /** The returns of a longer price series begin with those of the shorter. */
  lemma {:induction false} ReturnsGoOn(prices: seq<real>, later: seq<real>)
    ensures Returns(prices) <= Returns(prices + later)
    decreases |later|
  {
    if later == [] {
      assert prices + later == prices;
    } else if prices + later != [] {
      var n := |later| - 1;
      ReturnsGoOn(prices, later[..n]);
      assert (prices + later)[..|prices| + n] == prices + later[..n];
    }
  }

  lemma {:induction false} ReturnsLoseAtMostAll(prices: seq<real>)
    requires AllNotNegative(prices)
    ensures forall i :: 0 <= i < |Returns(prices)| ==> Returns(prices)[i] >= -1.0
  {
    if |prices| >= 2 {
      var n := |prices| - 1;
      ReturnsLoseAtMostAll(prices[..n]);
      if prices[n - 1] != 0.0 {
        LossBounds(prices[n - 1], prices[n]);
      }
    }
  }

  lemma {:induction false} ZerosHaveNoReturns(prices: seq<real>)
    requires forall i :: 0 <= i < |prices| - 1 ==> prices[i] == 0.0
    ensures Returns(prices) == []
  {
    if |prices| >= 2 {
      ZerosHaveNoReturns(prices[..|prices| - 1]);
    }
  }

  /** Only the last step starts from a price other than zero. */
  lemma OnlyReturn(prices: seq<real>)
    requires |prices| >= 2 && AllNotNegative(prices) && prices[|prices| - 2] != 0.0
    requires forall j :: 0 <= j < |prices| - 2 ==> prices[j] == 0.0
    ensures |Returns(prices)| == 1
    ensures Returns(prices)[0] == -1.0 <==> prices[|prices| - 1] == 0.0
  {
    var n := |prices| - 1;
    ZerosHaveNoReturns(prices[..n]);
    LossBounds(prices[n - 1], prices[n]);
  }

  /** The first return is that of the first price that is not zero. */
  lemma FirstReturn(prices: seq<real>, k: nat)
    requires AllNotNegative(prices) && k + 1 < |prices| && prices[k] != 0.0
    requires forall j :: 0 <= j < k ==> prices[j] == 0.0
    ensures Returns(prices) != []
    ensures Returns(prices)[0] == -1.0 <==> prices[k + 1] == 0.0
  {
    OnlyReturn(prices[..k + 2]);
    ReturnsGoOn(prices[..k + 2], prices[k + 2..]);
    assert prices == prices[..k + 2] + prices[k + 2..];
  }

  lemma {:induction false} FirstNotZero(prices: seq<real>, n: nat) returns (k: nat)
    requires n < |prices| && prices[n] != 0.0
    ensures k <= n && prices[k] != 0.0 && forall j :: 0 <= j < k ==> prices[j] == 0.0
  {
    if j :| 0 <= j < n && prices[j] != 0.0 {
      k := FirstNotZero(prices, j);
    } else {
      k := n;
    }
  }

  /** The first return is a total loss iff the first price that is not zero falls to zero. */
  lemma FirstReturnIsLossOfAll(prices: seq<real>)
    requires AllNotNegative(prices)
    ensures Returns(prices) != [] && Returns(prices)[0] == -1.0 <==> FallsToZeroFirst(prices)
  {
    if n :| 0 <= n < |prices| - 1 && prices[n] != 0.0 {
      var k := FirstNotZero(prices, n);
      FirstReturn(prices, k);
      if prices[k + 1] == 0.0 {
        assert FallsToZeroAt(prices, k);
      } else {
        assert forall i :: FallsToZeroAt(prices, i) ==> i == k;
      }
    } else {
      ZerosHaveNoReturns(prices);
    }
  }

  /** On prices that are not negative the drawdown divides by zero iff the first price that is not zero falls to zero. */
  lemma ZeroPeakIffFallsToZeroFirst(prices: seq<real>)
    requires AllNotNegative(prices)
    ensures HasZeroPeak(Curve(Returns(prices))) <==> FallsToZeroFirst(prices)
  {
    var rs := Returns(prices);
    ReturnsLoseAtMostAll(prices);
    FirstReturnIsLossOfAll(prices);
    ZeroPeakIffWipedOut(rs);
    if WipedOut(rs) {
      var k :| 0 <= k < |rs| && TakesAll(rs, k);
      assert k == 0;
    }
    if rs != [] && rs[0] == -1.0 {
      assert TakesAll(rs, 0);
    }
  }

  /** The relative change from `e[i]` to `e[j]`. */
  function Change(e: seq<real>, i: nat, j: nat): real
    requires i < |e| && j < |e| && e[i] != 0.0
  {
    (e[j] - e[i]) / e[i]
  }

  /** The loop of `_max_drawdown` over the first `n` points of the curve. */
  function DrawdownUpTo(e: seq<real>, n: nat): real
    requires n <= |e| && forall k :: 0 <= k < n ==> PrefixMax(e, k) != 0.0
  {
    if n == 0 then 0.0
    else
      var peak := PrefixMax(e, n - 1);
      Min(DrawdownUpTo(e, n - 1), (e[n - 1] - peak) / peak)
  }

  function Drawdown(e: seq<real>): real
    requires !HasZeroPeak(e)
  {
    DrawdownUpTo(e, |e|)
  }

  lemma PositiveCurveHasNoZeroPeak(e: seq<real>)
    requires AllPositive(e)
    ensures !HasZeroPeak(e)
  {
    forall k | 0 <= k < |e|
      ensures PrefixMax(e, k) > 0.0
    {
      PrefixMaxIsMax(e, k);
      assert e[0] <= PrefixMax(e, k);
    }
  }

  lemma ChangeIsSmallerFromHigher(value: real, low: real, high: real)
    requires 0.0 < low <= high && value > 0.0
    ensures (value - high) / high <= (value - low) / low
  {
    QuotientOfLarger(value, low, high);
    RelativeChange(high, value);
    RelativeChange(low, value);
  }

  /** `d` is the least relative change from any point to itself or a later one. */
  ghost predicate IsWorstFall(e: seq<real>, n: nat, d: real)
    requires n <= |e| && AllPositive(e)
  {
    && (forall i, j :: 0 <= i <= j < n ==> d <= Change(e, i, j))
    && (exists i, j :: 0 <= i <= j < n && d == Change(e, i, j))
  }

  lemma {:induction false} DrawdownUpToIsWorstFall(e: seq<real>, n: nat)
    requires AllPositive(e) && 0 < n <= |e| && !HasZeroPeak(e)
    ensures IsWorstFall(e, n, DrawdownUpTo(e, n))
  {
    var d := DrawdownUpTo(e, n);
    PrefixMaxIsMax(e, n - 1);
    var peak := PrefixMax(e, n - 1);
    var top :| 0 <= top <= n - 1 && e[top] == peak;
    assert Change(e, top, n - 1) == (e[n - 1] - peak) / peak;
    forall i, j | 0 <= i <= j == n - 1
      ensures d <= Change(e, i, j)
    {
      ChangeIsSmallerFromHigher(e[n - 1], e[i], peak);
    }
    if n > 1 {
      DrawdownUpToIsWorstFall(e, n - 1);
    } else {
      assert Change(e, 0, 0) == 0.0;
    }
  }

  /** The one-pass loop finds the minimum of a quadratic specification. */
  lemma DrawdownIsWorstFall(e: seq<real>)
    requires AllPositive(e) && e != []
    ensures !HasZeroPeak(e) && IsWorstFall(e, |e|, Drawdown(e))
  {
    PositiveCurveHasNoZeroPeak(e);
    DrawdownUpToIsWorstFall(e, |e|);
  }

  lemma RatioOfPositives(e: seq<real>, i: nat, j: nat)
    requires AllPositive(e) && i < |e| && j < |e|
    ensures Change(e, i, j) > -1.0
    ensures Change(e, i, j) >= 0.0 <==> e[i] <= e[j]
  {
    RelativeChange(e[i], e[j]);
    QuotientBounds(e[i], e[j]);
  }

  /** The drawdown of returns above -1 lies in (-1, 0]; it is 0 iff no return after the first is a loss. */
  lemma DrawdownRange(rs: seq<real>)
    requires AllAboveMinusOne(rs)
    ensures !HasZeroPeak(Curve(rs)) && -1.0 < Drawdown(Curve(rs)) <= 0.0
    ensures Drawdown(Curve(rs)) == 0.0 <==> forall k :: 1 <= k < |rs| ==> rs[k] >= 0.0
  {
    var e := Curve(rs);
    CurveIsPositive(rs);
    PositiveCurveHasNoZeroPeak(e);
    if rs != [] {
      FallRange(e);
      if forall k :: 1 <= k < |rs| ==> rs[k] >= 0.0 {
        NoLossNoFall(rs);
      } else {
        var k :| 1 <= k < |rs| && rs[k] < 0.0;
        LossIsFall(rs, k);
      }
    }
  }

  lemma FallRange(e: seq<real>)
    requires AllPositive(e) && e != []
    ensures !HasZeroPeak(e) && -1.0 < Drawdown(e) <= 0.0
  {
    DrawdownIsWorstFall(e);
    var d := Drawdown(e);
    var i, j :| 0 <= i <= j < |e| && d == Change(e, i, j);
    RatioOfPositives(e, i, j);
    assert d <= Change(e, 0, 0);
  }

  lemma NoLossNoFall(rs: seq<real>)
    requires AllAboveMinusOne(rs) && rs != [] && forall k :: 1 <= k < |rs| ==> rs[k] >= 0.0
    ensures !HasZeroPeak(Curve(rs)) && Drawdown(Curve(rs)) >= 0.0
  {
    var e := Curve(rs);
    CurveIsPositive(rs);
    DrawdownIsWorstFall(e);
    var i, j :| 0 <= i <= j < |e| && Drawdown(e) == Change(e, i, j);
    RatioOfPositives(e, i, j);
    CurveRises(rs, i, j);
  }

  lemma LossIsFall(rs: seq<real>, k: nat)
    requires AllAboveMinusOne(rs) && 1 <= k < |rs| && rs[k] < 0.0
    ensures !HasZeroPeak(Curve(rs)) && Drawdown(Curve(rs)) < 0.0
  {
    var e := Curve(rs);
    CurveIsPositive(rs);
    DrawdownIsWorstFall(e);
    CurveStep(rs, k);
    CompoundBounds(e[k - 1], rs[k]);
    RatioOfPositives(e, k - 1, k);
    assert Drawdown(e) <= Change(e, k - 1, k);
  }

  lemma {:induction false} CurveRises(rs: seq<real>, i: nat, j: nat)
    requires AllAboveMinusOne(rs) && (forall k :: 1 <= k < |rs| ==> rs[k] >= 0.0)
    requires i <= j < |rs|
    ensures Curve(rs)[i] <= Curve(rs)[j]
    decreases j
  {
    if i < j {
      CurveRises(rs, i, j - 1);
      CurveStep(rs, j);
      CurveIsPositive(rs);
      CompoundBounds(Curve(rs)[j - 1], rs[j]);
    }
  }

  // ----- a flat period changes nothing -----------------------------------------------

  /** The curve with a zero return inserted at k repeats its point k - 1. */
  lemma {:induction false} CurveWithFlatPeriod(rs: seq<real>, k: nat)
    requires 1 <= k <= |rs|
    ensures Curve(rs[..k] + [0.0] + rs[k..]) == Curve(rs)[..k] + [Curve(rs)[k - 1]] + Curve(rs)[k..]
    decreases |rs|
  {
    var longer := rs[..k] + [0.0] + rs[k..];
    var n := |rs|;
    var e := Curve(rs);
    if k == n {
      assert longer[..n] == rs && longer[n] == 0.0;
      assert e[..k] == e && e[k..] == [];
      FlatStep(Growth(rs));
      assert Curve(longer) == e + [Growth(rs)];
    } else {
      var front := rs[..n - 1];
      CurveWithFlatPeriod(front, k);
      assert longer[..n] == front[..k] + [0.0] + front[k..] && longer[n] == rs[n - 1];
      CurveExtends(longer);
      CurveExtends(rs);
      RepeatThenExtend(Curve(front), k, e[n - 1]);
    }
  }

  lemma FlatStep(equity: real)
    ensures Compound(equity, 0.0) == equity
  {
  }

  lemma CurveExtends(rs: seq<real>)
    requires |rs| > 1
    ensures var c := Curve(rs[..|rs| - 1]);
            Curve(rs) == c + [Compound(c[|c| - 1], rs[|rs| - 1])]
  {
  }

  lemma RepeatThenExtend(c: seq<real>, k: nat, x: real)
    requires 1 <= k <= |c|
    ensures (c[..k] + [c[k - 1]] + c[k..])[|c|] == c[|c| - 1]
    ensures var e := c + [x];
            (c[..k] + [c[k - 1]] + c[k..]) + [x] == e[..k] + [e[k - 1]] + e[k..]
  {
  }

  /** Two non-empty positive curves that show the same changes have the same worst fall. */
  lemma SameChangesSameFall(e: seq<real>, f: seq<real>)
    requires AllPositive(e) && AllPositive(f) && e != [] && f != []
    requires forall i, j :: 0 <= i <= j < |e| ==> HasChange(f, Change(e, i, j))
    requires forall i, j :: 0 <= i <= j < |f| ==> HasChange(e, Change(f, i, j))
    ensures !HasZeroPeak(e) && !HasZeroPeak(f) && Drawdown(e) == Drawdown(f)
  {
    DrawdownIsWorstFall(e);
    DrawdownIsWorstFall(f);
    assert HasChange(f, Drawdown(e)) && HasChange(e, Drawdown(f));
  }

  ghost predicate HasChange(e: seq<real>, d: real)
    requires AllPositive(e)
  {
    exists i, j :: 0 <= i <= j < |e| && d == Change(e, i, j)
  }

  /** A zero return inserted anywhere after the first return leaves the drawdown as it was. */
  lemma FlatPeriodKeepsDrawdown(rs: seq<real>, k: nat)
    requires AllAboveMinusOne(rs) && 1 <= k <= |rs|
    ensures var longer := rs[..k] + [0.0] + rs[k..];
            && !HasZeroPeak(Curve(rs)) && !HasZeroPeak(Curve(longer))
            && Drawdown(Curve(longer)) == Drawdown(Curve(rs))
  {
    var longer := rs[..k] + [0.0] + rs[k..];
    FlatPeriodAboveMinusOne(rs, k);
    CurveIsPositive(rs);
    CurveIsPositive(longer);
    CurveWithFlatPeriod(rs, k);
    RepeatedPointKeepsDrawdown(Curve(rs), Curve(longer), k);
  }

  lemma FlatPeriodAboveMinusOne(rs: seq<real>, k: nat)
    requires AllAboveMinusOne(rs) && k <= |rs|
    ensures AllAboveMinusOne(rs[..k] + [0.0] + rs[k..])
  {
  }

  lemma RepeatedPointKeepsDrawdown(e: seq<real>, f: seq<real>, k: nat)
    requires AllPositive(e) && AllPositive(f)
    requires 1 <= k <= |e| && f == e[..k] + [e[k - 1]] + e[k..]
    ensures !HasZeroPeak(e) && !HasZeroPeak(f) && Drawdown(e) == Drawdown(f)
  {
    RepeatedPointKeepsChanges(e, f, k);
    SameChangesSameFall(e, f);
  }

  lemma RepeatedPointKeepsChanges(e: seq<real>, f: seq<real>, k: nat)
    requires AllPositive(e) && AllPositive(f)
    requires 1 <= k <= |e| && f == e[..k] + [e[k - 1]] + e[k..]
    ensures forall i, j :: 0 <= i <= j < |e| ==> HasChange(f, Change(e, i, j))
    ensures forall i, j :: 0 <= i <= j < |f| ==> HasChange(e, Change(f, i, j))
  {
    forall i, j | 0 <= i <= j < |e|
      ensures HasChange(f, Change(e, i, j))
    {
      var i', j' := if i < k then i else i + 1, if j < k then j else j + 1;
      assert f[i'] == e[i] && f[j'] == e[j];
      assert Change(f, i', j') == Change(e, i, j);
    }
    forall i, j | 0 <= i <= j < |f|
      ensures HasChange(e, Change(f, i, j))
    {
      var i', j' := if i < k then i else i - 1, if j < k then j else j - 1;
      assert e[i'] == f[i] && e[j'] == f[j];
      assert Change(e, i', j') == Change(f, i, j);
    }
  }

  // ----- value at risk ----------------------------------------------------------------

  function InsertSorted(x: real, s: seq<real>): (r: seq<real>)
    ensures |r| == |s| + 1
  {
    if s == [] || x <= s[0] then [x] + s else [s[0]] + InsertSorted(x, s[1..])
  }

  /** Python's `sorted`. */
  function Sorted(xs: seq<real>): (r: seq<real>)
    ensures |r| == |xs|
  {
    if xs == [] then [] else InsertSorted(xs[0], Sorted(xs[1..]))
  }

  predicate Ascending(s: seq<real>) {
    forall i, j :: 0 <= i < j < |s| ==> s[i] <= s[j]
  }

  lemma {:induction false} InsertKeepsOrder(x: real, s: seq<real>)
    requires Ascending(s)
    ensures Ascending(InsertSorted(x, s))
  {
    if s != [] && !(x <= s[0]) {
      InsertKeepsOrder(x, s[1..]);
      var t := InsertSorted(x, s[1..]);
      assert InsertSorted(x, s) == [s[0]] + t;
      forall j | 0 <= j < |t|
        ensures s[0] <= t[j]
      {
        MembersOfInsert(x, s[1..], t[j]);
      }
    }
  }

  lemma {:induction false} InsertIsPermutation(x: real, s: seq<real>)
    ensures multiset(InsertSorted(x, s)) == multiset(s) + multiset{x}
  {
    if s != [] && !(x <= s[0]) {
      InsertIsPermutation(x, s[1..]);
      MultisetOfTail(s);
    }
  }

  lemma {:induction false} MembersOfInsert(x: real, s: seq<real>, y: real)
    requires y in InsertSorted(x, s)
    ensures y == x || y in s
  {
    if s != [] && !(x <= s[0]) && y != s[0] {
      MembersOfInsert(x, s[1..], y);
    }
  }

  lemma {:induction false} SortedSorts(xs: seq<real>)
    ensures Ascending(Sorted(xs)) && multiset(Sorted(xs)) == multiset(xs)
  {
    if xs != [] {
      SortedSorts(xs[1..]);
      InsertKeepsOrder(xs[0], Sorted(xs[1..]));
      InsertIsPermutation(xs[0], Sorted(xs[1..]));
      MultisetOfTail(xs);
    }
  }

  /** Python's `int` on a float: towards zero. */
  function Truncate(x: real): int {
    if x >= 0.0 then x.Floor else -((-x).Floor)
  }

  function TailIndex(n: nat, confidence: real): int
    requires n > 0
  {
    var t := Truncate((1.0 - confidence) * n as real);
    var capped := if t < n - 1 then t else n - 1;
    if capped > 0 then capped else 0
  }

  function HistoricalVar(rs: seq<real>, confidence: real): real {
    if rs == [] then 0.0 else Sorted(rs)[TailIndex(|rs|, confidence)]
  }

  function CountBelow(xs: seq<real>, v: real): nat {
    if xs == [] then 0 else CountBelow(xs[1..], v) + if xs[0] < v then 1 else 0
  }

  function CountAtMost(xs: seq<real>, v: real): nat {
    if xs == [] then 0 else CountAtMost(xs[1..], v) + if xs[0] <= v then 1 else 0
  }

  lemma {:induction false} InsertCounts(x: real, s: seq<real>, v: real)
    ensures CountBelow(InsertSorted(x, s), v) == CountBelow(s, v) + if x < v then 1 else 0
    ensures CountAtMost(InsertSorted(x, s), v) == CountAtMost(s, v) + if x <= v then 1 else 0
  {
    if s == [] || x <= s[0] {
      assert ([x] + s)[1..] == s;
    } else {
      InsertCounts(x, s[1..], v);
      assert ([s[0]] + InsertSorted(x, s[1..]))[1..] == InsertSorted(x, s[1..]);
    }
  }

  lemma {:induction false} SortedCounts(xs: seq<real>, v: real)
    ensures CountBelow(Sorted(xs), v) == CountBelow(xs, v)
    ensures CountAtMost(Sorted(xs), v) == CountAtMost(xs, v)
  {
    if xs != [] {
      SortedCounts(xs[1..], v);
      InsertCounts(xs[0], Sorted(xs[1..]), v);
    }
  }

  lemma {:induction false} CountsInOrder(s: seq<real>, t: nat)
    requires Ascending(s) && t < |s|
    ensures CountBelow(s, s[t]) <= t
    ensures CountAtMost(s, s[t]) >= t + 1
  {
    if t == 0 {
      CountBelowNone(s, s[0]);
    } else {
      CountsInOrder(s[1..], t - 1);
    }
  }

  lemma {:induction false} CountBelowNone(s: seq<real>, v: real)
    requires forall i :: 0 <= i < |s| ==> v <= s[i]
    ensures CountBelow(s, v) == 0
  {
    if s != [] {
      CountBelowNone(s[1..], v);
    }
  }

  /** The value at risk is one of the returns, with at most t of them below it and more than t at or below it. */
  lemma VarIsOrderStatistic(rs: seq<real>, confidence: real)
    requires rs != []
    ensures var v, t := HistoricalVar(rs, confidence), TailIndex(|rs|, confidence);
            v in rs && CountBelow(rs, v) <= t && CountAtMost(rs, v) >= t + 1
  {
    var t := TailIndex(|rs|, confidence);
    var s := Sorted(rs);
    SortedSorts(rs);
    CountsInOrder(s, t);
    SortedCounts(rs, s[t]);
    assert s[t] in multiset(s);
  }

  lemma SameLeast(s: seq<real>, t: seq<real>)
    requires Ascending(s) && Ascending(t) && multiset(s) == multiset(t) && s != []
    ensures t != [] && s[0] == t[0]
  {
    assert |multiset(s)| == |s| && |multiset(t)| == |t|;
    SameMembers(s, t, s[0]);
    SameMembers(t, s, t[0]);
  }

  lemma {:induction false} AscendingIsUnique(s: seq<real>, t: seq<real>)
    requires Ascending(s) && Ascending(t) && multiset(s) == multiset(t)
    ensures s == t
    decreases |s|
  {
    if s == [] {
      assert |multiset(t)| == |t|;
    } else {
      SameLeast(s, t);
      MultisetOfTail(s);
      MultisetOfTail(t);
      CancelOne(s[0], multiset(s[1..]), multiset(t[1..]));
      AscendingIsUnique(s[1..], t[1..]);
      assert s == [s[0]] + s[1..] && t == [t[0]] + t[1..];
    }
  }

  /** The order in which the returns were collected does not matter. */
  lemma VarOfPermutation(rs: seq<real>, qs: seq<real>, confidence: real)
    requires multiset(rs) == multiset(qs)
    ensures HistoricalVar(rs, confidence) == HistoricalVar(qs, confidence)
  {
    SortedSorts(rs);
    SortedSorts(qs);
    AscendingIsUnique(Sorted(rs), Sorted(qs));
  }

  /** More confidence never gives a higher value. */
  lemma VarFallsWithConfidence(rs: seq<real>, low: real, high: real)
    requires low <= high
    ensures HistoricalVar(rs, high) <= HistoricalVar(rs, low)
  {
    if rs != [] {
      TailIndexFalls(|rs|, low, high);
      SortedSorts(rs);
      InOrder(Sorted(rs), TailIndex(|rs|, high), TailIndex(|rs|, low));
    }
  }

  lemma TailIndexFalls(n: nat, low: real, high: real)
    requires n > 0 && low <= high
    ensures TailIndex(n, high) <= TailIndex(n, low)
  {
    ScaledIsMonotone(1.0 - high, 1.0 - low, n as real);
    TruncateIsMonotone((1.0 - high) * n as real, (1.0 - low) * n as real);
  }

  lemma InOrder(s: seq<real>, i: nat, j: nat)
    requires Ascending(s) && i <= j < |s|
    ensures s[i] <= s[j]
  {
  }

  lemma ScaledIsMonotone(x: real, y: real, n: real)
    requires x <= y && n >= 0.0
    ensures x * n <= y * n
  {
  }

  lemma TruncateIsMonotone(x: real, y: real)
    requires x <= y
    ensures Truncate(x) <= Truncate(y)
  {
    assert x.Floor <= y.Floor && (-y).Floor <= (-x).Floor;
  }
}
