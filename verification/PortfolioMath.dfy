/** The right-aligned, weighted return series of a portfolio. */
module PortfolioMath {
  import opened PyText
  import opened Numbers
  import opened RiskMath
  import opened Schemas

  /** The return series of each symbol. */
  type SeriesOf = PyStr -> seq<real>

  /** The length of the shortest non-empty series of a portfolio, 0 if all are empty. */
  function CommonLength(positions: seq<Position>, series: SeriesOf): nat {
    if positions == [] then 0
    else
      var front := CommonLength(positions[..|positions| - 1], series);
      var n := |series(positions[|positions| - 1].symbol)|;
      if n == 0 then front else if front == 0 || n < front then n else front
  }

  lemma CommonLengthOneMore(positions: seq<Position>, i: nat, series: SeriesOf)
    requires i < |positions|
    ensures var front, n := CommonLength(positions[..i], series), |series(positions[i].symbol)|;
            CommonLength(positions[..i + 1], series)
            == if n == 0 then front else if front == 0 || n < front then n else front
  {
    assert positions[..i + 1][..i] == positions[..i];
  }

  function SymbolsOf(positions: seq<Position>): set<PyStr> {
    set p | p in positions :: p.symbol
  }

  lemma {:induction false} CommonLengthIsLeast(positions: seq<Position>, series: SeriesOf)
    ensures var l := CommonLength(positions, series);
            && (forall s :: s in SymbolsOf(positions) && series(s) != [] ==> 0 < l <= |series(s)|)
            && (l > 0 ==> exists s :: s in SymbolsOf(positions) && |series(s)| == l)
  {
    if positions != [] {
      var front, last := positions[..|positions| - 1], positions[|positions| - 1];
      CommonLengthIsLeast(front, series);
      assert positions == front + [last];
      assert SymbolsOf(positions) == SymbolsOf(front) + {last.symbol};
    }
  }

  lemma CommonLengthFits(positions: seq<Position>, series: SeriesOf)
    ensures forall p :: p in positions && series(p.symbol) != [] ==>
              CommonLength(positions, series) <= |series(p.symbol)|
  {
    CommonLengthIsLeast(positions, series);
    assert forall p :: p in positions ==> p.symbol in SymbolsOf(positions);
  }

  /** Python's `rs[-back]`, and 0 for an empty series. */
  function FromEnd(rs: seq<real>, back: nat): real {
    if 1 <= back <= |rs| then rs[|rs| - back] else 0.0
  }

  /** What one position adds to the portfolio return `back` steps from the end. */
  function Contribution(series: SeriesOf, back: nat): Position -> real {
    (p: Position) => p.weight * FromEnd(series(p.symbol), back)
  }

  function PortfolioReturn(positions: seq<Position>, series: SeriesOf, back: nat): real {
    Sum(Contribution(series, back), positions)
  }

  /** The portfolio's series: its last entry weighs the last returns, and so on backwards. */
  function PortfolioSeries(positions: seq<Position>, series: SeriesOf): (r: seq<real>)
    ensures |r| == CommonLength(positions, series)
  {
    var l := CommonLength(positions, series);
    seq(l, k requires 0 <= k < l => PortfolioReturn(positions, series, l - k))
  }

  /** Two portfolios with the same common length and the same returns have the same series. */
  lemma SameSeries(a: seq<Position>, b: seq<Position>, series: SeriesOf)
    requires CommonLength(a, series) == CommonLength(b, series)
    requires forall back: nat :: PortfolioReturn(a, series, back) == PortfolioReturn(b, series, back)
    ensures PortfolioSeries(a, series) == PortfolioSeries(b, series)
  {
  }

  /** The common length depends on the set of symbols only. */
  lemma CommonLengthOfSameSymbols(a: seq<Position>, b: seq<Position>, series: SeriesOf)
    requires SymbolsOf(a) == SymbolsOf(b)
    ensures CommonLength(a, series) == CommonLength(b, series)
  {
    CommonLengthIsLeast(a, series);
    CommonLengthIsLeast(b, series);
  }

  /** The order of the positions does not matter. */
  lemma SeriesOfPermutation(a: seq<Position>, b: seq<Position>, series: SeriesOf)
    requires multiset(a) == multiset(b)
    ensures PortfolioSeries(a, series) == PortfolioSeries(b, series)
  {
    forall p
      ensures p in a <==> p in b
    {
      assert p in multiset(a) <==> p in multiset(b);
    }
    assert SymbolsOf(a) == SymbolsOf(b);
    CommonLengthOfSameSymbols(a, b, series);
    forall back: nat
      ensures PortfolioReturn(a, series, back) == PortfolioReturn(b, series, back)
    {
      SumOfPermutation(Contribution(series, back), a, b);
    }
    SameSeries(a, b, series);
  }

  /** A position may be split into two of the same symbol. */
  lemma SeriesOfSplit(front: seq<Position>, back: seq<Position>, symbol: PyStr, w1: real, w2: real, series: SeriesOf)
    ensures PortfolioSeries(front + [Position(symbol, w1 + w2)] + back, series)
            == PortfolioSeries(front + [Position(symbol, w1), Position(symbol, w2)] + back, series)
  {
    var x, y, z := Position(symbol, w1 + w2), Position(symbol, w1), Position(symbol, w2);
    SymbolsOfSplit(front, back, x, y, z);
    CommonLengthOfSameSymbols(front + [x] + back, front + [y, z] + back, series);
    forall n: nat
      ensures PortfolioReturn(front + [x] + back, series, n) == PortfolioReturn(front + [y, z] + back, series, n)
    {
      SplitContribution(series, n, x, y, z);
      SumOfSplit(Contribution(series, n), front, x, y, z, back);
    }
    SameSeries(front + [x] + back, front + [y, z] + back, series);
  }

  lemma SplitContribution(series: SeriesOf, n: nat, x: Position, y: Position, z: Position)
    requires x.symbol == y.symbol == z.symbol && x.weight == y.weight + z.weight
    ensures Contribution(series, n)(x) == Contribution(series, n)(y) + Contribution(series, n)(z)
  {
    var r := FromEnd(series(x.symbol), n);
    assert (y.weight + z.weight) * r == y.weight * r + z.weight * r;
  }

  lemma SymbolsOfSplit(front: seq<Position>, back: seq<Position>, x: Position, y: Position, z: Position)
    requires x.symbol == y.symbol == z.symbol
    ensures SymbolsOf(front + [x] + back) == SymbolsOf(front + [y, z] + back)
  {
    assert SymbolsOf(front + [x] + back) == SymbolsOf(front) + {x.symbol} + SymbolsOf(back) by {
      assert x in front + [x] + back;
    }
    assert SymbolsOf(front + [y, z] + back) == SymbolsOf(front) + {x.symbol} + SymbolsOf(back) by {
      assert y in front + [y, z] + back;
    }
  }

  lemma SumOfSplit(f: Position -> real, front: seq<Position>, x: Position, y: Position, z: Position, back: seq<Position>)
    requires f(x) == f(y) + f(z)
    ensures Sum(f, front + [x] + back) == Sum(f, front + [y, z] + back)
  {
    SumAppend(f, front + [x], back);
    SumAppend(f, front, [x]);
    SumAppend(f, front + [y, z], back);
    SumAppend(f, front, [y, z]);
    assert [y, z][1..] == [z] && [z][1..] == [] && [x][1..] == [];
    assert Sum(f, [x]) == f(x) && Sum(f, [z]) == f(z) && Sum(f, [y, z]) == f(y) + Sum(f, [z]);
  }

  lemma EntryAt(positions: seq<Position>, series: SeriesOf, k: nat)
    requires k < CommonLength(positions, series)
    ensures PortfolioSeries(positions, series)[k] == PortfolioReturn(positions, series, CommonLength(positions, series) - k)
  {
  }

  /** A single position of weight 1 has its symbol's own series. */
  lemma SinglePositionSeries(symbol: PyStr, series: SeriesOf)
    ensures PortfolioSeries([Position(symbol, 1.0)], series) == series(symbol)
  {
    var ps := [Position(symbol, 1.0)];
    assert ps[..0] == [] && CommonLength(ps[..0], series) == 0;
    assert CommonLength(ps, series) == |series(symbol)|;
    forall k | 0 <= k < |series(symbol)|
      ensures PortfolioSeries(ps, series)[k] == series(symbol)[k]
    {
      EntryAt(ps, series, k);
      var f := Contribution(series, |series(symbol)| - k);
      assert ps[1..] == [] && Sum(f, ps) == f(ps[0]) + Sum(f, ps[1..]);
      assert f(ps[0]) == 1.0 * series(symbol)[k];
    }
  }

  predicate Within(rs: seq<real>, bound: real) {
    forall i :: 0 <= i < |rs| ==> -bound <= rs[i] <= bound
  }

  const WEIGHT_OF := (p: Position) => p.weight

  /** Weights that are not negative and add up to at most 1. */
  predicate LongOnly(positions: seq<Position>) {
    (forall p :: p in positions ==> p.weight >= 0.0) && Sum(WEIGHT_OF, positions) <= 1.0
  }

  /** The part of a bound that a weight takes up. */
  function Share(w: real, bound: real): real {
    w * bound
  }

  lemma ProductWithin(w: real, r: real, bound: real)
    requires w >= 0.0 && -bound <= r <= bound
    ensures -Share(w, bound) <= w * r <= Share(w, bound)
  {
  }

  lemma SharesAdd(v: real, w: real, bound: real)
    ensures Share(v + w, bound) == Share(v, bound) + Share(w, bound)
  {
  }

  lemma {:induction false} SumWithin(f: Position -> real, positions: seq<Position>, bound: real)
    requires forall p :: p in positions ==> p.weight >= 0.0 && -Share(p.weight, bound) <= f(p) <= Share(p.weight, bound)
    ensures var total := Sum(WEIGHT_OF, positions);
            total >= 0.0 && -Share(total, bound) <= Sum(f, positions) <= Share(total, bound)
  {
    if positions != [] {
      assert positions[0] in positions;
      SumWithin(f, positions[1..], bound);
      SharesAdd(positions[0].weight, Sum(WEIGHT_OF, positions[1..]), bound);
    }
  }

  /** A portfolio without short positions or leverage stays within the bound of its symbols. */
  lemma SeriesStaysWithin(positions: seq<Position>, series: SeriesOf, bound: real)
    requires LongOnly(positions) && bound >= 0.0
    requires forall p :: p in positions ==> Within(series(p.symbol), bound)
    ensures Within(PortfolioSeries(positions, series), bound)
  {
    var l := CommonLength(positions, series);
    forall k | 0 <= k < l
      ensures -bound <= PortfolioSeries(positions, series)[k] <= bound
    {
      EntryAt(positions, series, k);
      ReturnStaysWithin(positions, series, bound, l - k);
    }
  }

  lemma ReturnStaysWithin(positions: seq<Position>, series: SeriesOf, bound: real, back: nat)
    requires LongOnly(positions) && bound >= 0.0
    requires forall p :: p in positions ==> Within(series(p.symbol), bound)
    ensures -bound <= PortfolioReturn(positions, series, back) <= bound
  {
    ContributionsWithin(positions, series, bound, back);
    SumWithin(Contribution(series, back), positions, bound);
    ShareWithin(Sum(WEIGHT_OF, positions), PortfolioReturn(positions, series, back), bound);
  }

  lemma ContributionsWithin(positions: seq<Position>, series: SeriesOf, bound: real, back: nat)
    requires LongOnly(positions) && bound >= 0.0
    requires forall p :: p in positions ==> Within(series(p.symbol), bound)
    ensures forall p :: p in positions ==>
              var c := Contribution(series, back)(p); -Share(p.weight, bound) <= c <= Share(p.weight, bound)
  {
    forall p | p in positions
      ensures var c := Contribution(series, back)(p); -Share(p.weight, bound) <= c <= Share(p.weight, bound)
    {
      ContributionWithin(p, series, bound, back);
    }
  }

  lemma ContributionWithin(p: Position, series: SeriesOf, bound: real, back: nat)
    requires p.weight >= 0.0 && bound >= 0.0 && Within(series(p.symbol), bound)
    ensures var c := Contribution(series, back)(p); -Share(p.weight, bound) <= c <= Share(p.weight, bound)
  {
    FromEndWithin(series(p.symbol), bound, back);
    ProductWithin(p.weight, FromEnd(series(p.symbol), back), bound);
  }

  lemma FromEndWithin(rs: seq<real>, bound: real, back: nat)
    requires Within(rs, bound) && bound >= 0.0
    ensures -bound <= FromEnd(rs, back) <= bound
  {
  }

  lemma ShareWithin(total: real, sum: real, bound: real)
    requires 0.0 <= total <= 1.0 && bound >= 0.0 && -Share(total, bound) <= sum <= Share(total, bound)
    ensures -bound <= sum <= bound
  {
    ProductWithin(bound, total, 1.0);
  }

  /** More than all that the weight stands for is left, or the weight is zero. */
  predicate AboveLoss(total: real, weight: real) {
    total > -weight || total == 0.0 == weight
  }

  lemma {:induction false} SumAboveLoss(f: Position -> real, positions: seq<Position>)
    requires forall p :: p in positions ==> p.weight >= 0.0 && AboveLoss(f(p), p.weight)
    ensures AboveLoss(Sum(f, positions), Sum(WEIGHT_OF, positions))
  {
    if positions != [] {
      assert positions[0] in positions;
      SumAboveLoss(f, positions[1..]);
    }
  }

  lemma WeightedAbove(w: real, r: real)
    requires w >= 0.0 && r > -1.0
    ensures AboveLoss(w * r, w)
  {
    if w > 0.0 {
      Signs(r + 1.0, w);
      assert (r + 1.0) * w == w * r + w;
    }
  }

  /** Returns above -1 give such a portfolio returns above -1. */
  lemma SeriesStaysAboveMinusOne(positions: seq<Position>, series: SeriesOf)
    requires LongOnly(positions) && forall p :: p in positions ==> AllAboveMinusOne(series(p.symbol))
    ensures AllAboveMinusOne(PortfolioSeries(positions, series))
  {
    var l := CommonLength(positions, series);
    forall k | 0 <= k < l
      ensures PortfolioSeries(positions, series)[k] > -1.0
    {
      EntryAt(positions, series, k);
      ReturnAboveMinusOne(positions, series, l - k);
    }
  }

  lemma ReturnAboveMinusOne(positions: seq<Position>, series: SeriesOf, back: nat)
    requires LongOnly(positions) && forall p :: p in positions ==> AllAboveMinusOne(series(p.symbol))
    ensures PortfolioReturn(positions, series, back) > -1.0
  {
    forall p | p in positions
      ensures p.weight >= 0.0 && AboveLoss(Contribution(series, back)(p), p.weight)
    {
      ContributionAbove(p, series, back);
    }
    SumAboveLoss(Contribution(series, back), positions);
  }

  lemma ContributionAbove(p: Position, series: SeriesOf, back: nat)
    requires p.weight >= 0.0 && AllAboveMinusOne(series(p.symbol))
    ensures AboveLoss(Contribution(series, back)(p), p.weight)
  {
    var r := FromEnd(series(p.symbol), back);
    FromEndAbove(series(p.symbol), back);
    WeightedAbove(p.weight, r);
    assert Contribution(series, back)(p) == p.weight * r;
  }

  lemma FromEndAbove(rs: seq<real>, back: nat)
    requires AllAboveMinusOne(rs)
    ensures FromEnd(rs, back) > -1.0
  {
  }

  /** Within a bound below 1 no equity curve touches zero, so every measure is defined. */
  lemma BoundedSeriesHasMeasures(rs: seq<real>, bound: real)
    requires Within(rs, bound) && bound < 1.0
    ensures AllAboveMinusOne(rs) && !HasZeroPeak(Curve(rs)) && -1.0 < Drawdown(Curve(rs)) <= 0.0
  {
    assert AllAboveMinusOne(rs);
    DrawdownRange(rs);
  }
}
