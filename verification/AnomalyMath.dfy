/** The rule score of `azure_anomaly/service.py` and the statistics behind its baseline. */
module AnomalyMath {
  import opened Numbers

  datatype Features = Features(priceChange: real, volumeChange: real, price: real, volume: real)

  const PRICE_MOVE := (f: Features) => Abs(f.priceChange)
  const VOLUME_MOVE := (f: Features) => Abs(f.volumeChange)

  function PriceMoves(history: seq<Features>): (r: seq<real>)
    ensures |r| == |history|
  {
    Map(PRICE_MOVE, history)
  }

  function VolumeMoves(history: seq<Features>): (r: seq<real>)
    ensures |r| == |history|
  {
    Map(VOLUME_MOVE, history)
  }

  /** The mean plus two population deviations, `sigma` being the deviation. */
  function Baseline(moves: seq<real>, sigma: real): real
    requires moves != []
  {
    Mean(moves) + if |moves| > 1 then 2.0 * sigma else 0.0
  }

  /** A weighted sum of two moves, each in units of its own scale, capped at 1. */
  function Combined(priceMove: real, priceScale: real, volumeMove: real, volumeScale: real): real
    requires priceScale > 0.0 && volumeScale > 0.0
  {
    Min(1.0, 0.65 * (priceMove / priceScale) + 0.35 * (volumeMove / volumeScale))
  }

  /** `_rule_based_score`; the two sigmas are what `pstdev` returns on the two histories. */
  function RuleScore(f: Features, history: seq<Features>, priceSigma: real, volumeSigma: real): real {
    var p, v := Abs(f.priceChange), Abs(f.volumeChange);
    if history == [] then Min(1.0, p * 8.0 + v * 3.0)
    else
      Combined(p, Max(Baseline(PriceMoves(history), priceSigma), 0.01),
               v, Max(Baseline(VolumeMoves(history), volumeSigma), 0.02))
  }

  lemma QuotientIsMonotone(a: real, b: real, scale: real)
    requires a <= b && scale > 0.0
    ensures a / scale <= b / scale
    ensures a >= 0.0 ==> a / scale >= 0.0
  {
    var x, y := a / scale, b / scale;
    assert x * scale == a && y * scale == b;
    assert (y - x) * scale == b - a;
    Signs(y - x, scale);
    Signs(x, scale);
  }

  /** The score lies in [0, 1] and never falls when either move grows. */
  lemma ScoreRangeAndMonotone(f: Features, g: Features, history: seq<Features>, priceSigma: real, volumeSigma: real)
    requires Abs(f.priceChange) <= Abs(g.priceChange) && Abs(f.volumeChange) <= Abs(g.volumeChange)
    ensures 0.0 <= RuleScore(f, history, priceSigma, volumeSigma)
                <= RuleScore(g, history, priceSigma, volumeSigma) <= 1.0
  {
    if history != [] {
      var priceScale := Max(Baseline(PriceMoves(history), priceSigma), 0.01);
      var volumeScale := Max(Baseline(VolumeMoves(history), volumeSigma), 0.02);
      QuotientIsMonotone(Abs(f.priceChange), Abs(g.priceChange), priceScale);
      QuotientIsMonotone(Abs(f.volumeChange), Abs(g.volumeChange), volumeScale);
    }
  }

  lemma BaselineOfPermutation(xs: seq<real>, ys: seq<real>, s: real, t: real)
    requires xs != [] && ys != [] && multiset(xs) == multiset(ys) && IsPstdev(xs, s) && IsPstdev(ys, t)
    ensures Baseline(xs, s) == Baseline(ys, t)
  {
    assert |multiset(xs)| == |xs| && |multiset(ys)| == |ys|;
    StatisticsOfPermutation(xs, ys);
    RootIsUnique(s, t);
  }

  /** The score depends on the window as a multiset: the order of the samples is irrelevant. */
  lemma ScoreOfPermutation(f: Features, a: seq<Features>, b: seq<Features>, pa: real, va: real, pb: real, vb: real)
    requires multiset(a) == multiset(b)
    requires a != [] ==> IsPstdev(PriceMoves(a), pa) && IsPstdev(VolumeMoves(a), va)
    requires b != [] ==> IsPstdev(PriceMoves(b), pb) && IsPstdev(VolumeMoves(b), vb)
    ensures RuleScore(f, a, pa, va) == RuleScore(f, b, pb, vb)
  {
    assert |multiset(a)| == |a| && |multiset(b)| == |b|;
    if a != [] {
      MapOfPermutation(PRICE_MOVE, a, b);
      MapOfPermutation(VOLUME_MOVE, a, b);
      BaselineOfPermutation(PriceMoves(a), PriceMoves(b), pa, pb);
      BaselineOfPermutation(VolumeMoves(a), VolumeMoves(b), va, vb);
    }
  }

  // ----- the score on particular windows -------------------------------------------

  /** Without samples: eight times the price move and three times the volume move. */
  lemma ScoreWithoutSamples(f: Features, priceSigma: real, volumeSigma: real)
    ensures RuleScore(f, [], priceSigma, volumeSigma) ==
            Min(1.0, 8.0 * Abs(f.priceChange) + 3.0 * Abs(f.volumeChange))
  {
  }

  predicate AllMoves(window: seq<Features>, price: real, volume: real) {
    forall i :: 0 <= i < |window| ==> Abs(window[i].priceChange) == price && Abs(window[i].volumeChange) == volume
  }

  lemma MovesOfEqual(window: seq<Features>, price: real, volume: real)
    requires AllMoves(window, price, volume)
    ensures forall i :: 0 <= i < |window| ==> PriceMoves(window)[i] == price
    ensures forall i :: 0 <= i < |window| ==> VolumeMoves(window)[i] == volume
  {
    forall i | 0 <= i < |window|
      ensures PriceMoves(window)[i] == price && VolumeMoves(window)[i] == volume
    {
      MapAt(PRICE_MOVE, window, i);
      MapAt(VOLUME_MOVE, window, i);
    }
  }

  /** The deviations of a window, which must have samples. */
  predicate Deviations(window: seq<Features>, priceSigma: real, volumeSigma: real) {
    window != [] && IsPstdev(PriceMoves(window), priceSigma) && IsPstdev(VolumeMoves(window), volumeSigma)
  }

  /** Against samples that all moved alike, each move counts in units of theirs: 65 % the price, 35 % the volume. */
  lemma ScoreOfSteadyWindow(f: Features, window: seq<Features>, price: real, volume: real, priceSigma: real, volumeSigma: real)
    requires AllMoves(window, price, volume) && price >= 0.01 && volume >= 0.02
    requires Deviations(window, priceSigma, volumeSigma)
    ensures RuleScore(f, window, priceSigma, volumeSigma) ==
            Min(1.0, 0.65 * (Abs(f.priceChange) / price) + 0.35 * (Abs(f.volumeChange) / volume))
  {
    MovesOfEqual(window, price, volume);
    StatisticsOfEqual(PriceMoves(window), price, priceSigma);
    StatisticsOfEqual(VolumeMoves(window), volume, volumeSigma);
  }

  /** Against samples that moved less than the floors, in units of 1 % and 2 %. */
  lemma ScoreOfStillWindow(f: Features, window: seq<Features>, price: real, volume: real, priceSigma: real, volumeSigma: real)
    requires AllMoves(window, price, volume) && price <= 0.01 && volume <= 0.02
    requires Deviations(window, priceSigma, volumeSigma)
    ensures RuleScore(f, window, priceSigma, volumeSigma) ==
            Min(1.0, 65.0 * Abs(f.priceChange) + 17.5 * Abs(f.volumeChange))
  {
    MovesOfEqual(window, price, volume);
    StatisticsOfEqual(PriceMoves(window), price, priceSigma);
    StatisticsOfEqual(VolumeMoves(window), volume, volumeSigma);
  }

  /** The baseline of two moves: the larger, and half of their distance on top. */
  lemma BaselineOfTwo(x: real, y: real, sigma: real)
    requires IsPstdev([x, y], sigma)
    ensures Baseline([x, y], sigma) == Max(x, y) + Abs(x - y) / 2.0
  {
    PstdevOfTwo(x, y, sigma);
    StatisticsOfTwo(x, y);
  }

  // ----- how much of a window can exceed its own baseline ------------------------

  function CountAbove(xs: seq<real>, v: real): nat {
    if xs == [] then 0 else CountAbove(xs[1..], v) + if xs[0] > v then 1 else 0
  }

  /** What moving the centre of n squares, whose bases add up to s, from m to a adds to their sum. */
  function Shift(a: real, m: real, s: real, n: real): real {
    2.0 * (m - a) * (s - n * m) + n * Square(m - a)
  }

  lemma ShiftStep(a: real, m: real, s: real, n: real, x: real)
    ensures Shift(a, m, x + s, n + 1.0) == Shift(a, m, s, n) + Shift(a, m, x, 1.0)
    ensures SquareAbout(a)(x) == SquareAbout(m)(x) + Shift(a, m, x, 1.0)
  {
    var u, v := x - m, m - a;
    assert x - a == u + v;
    assert Square(u + v) == Square(u) + (2.0 * v * u + Square(v));
  }

  lemma {:induction false} SquaresAboutOther(xs: seq<real>, a: real, m: real)
    ensures Sum(SquareAbout(a), xs) == Sum(SquareAbout(m), xs) + Shift(a, m, Sum(IDENTITY, xs), |xs| as real)
  {
    if xs != [] {
      SquaresAboutOther(xs[1..], a, m);
      ShiftStep(a, m, Sum(IDENTITY, xs[1..]), |xs[1..]| as real, xs[0]);
      assert |xs| as real == |xs[1..]| as real + 1.0;
    }
  }

  function Times(k: nat, w: real): real {
    k as real * w
  }

  lemma TimesNext(k: nat, w: real)
    ensures Times(k + 1, w) == Times(k, w) + w && Times(0, w) == 0.0
  {
  }

  /** A sum of squares outweighs the squares above a threshold. */
  lemma {:induction false} TailWeighs(xs: seq<real>, a: real, t: real)
    requires t >= a
    ensures Sum(SquareAbout(a), xs) >= Times(CountAbove(xs, t), Square(t - a))
    ensures CountAbove(xs, t) > 0 ==> Sum(SquareAbout(a), xs) > Times(CountAbove(xs, t), Square(t - a))
  {
    if xs == [] {
      TimesNext(0, Square(t - a));
    } else {
      TailWeighs(xs[1..], a, t);
      SquareIsNotNegative(xs[0] - a);
      TimesNext(CountAbove(xs[1..], t), Square(t - a));
      if xs[0] > t {
        SquareGrows(t - a, xs[0] - a);
      }
    }
  }

  /** Less than a fifth of a window lies more than two population deviations above its mean. */
  lemma TailBound(xs: seq<real>, sigma: real)
    requires xs != [] && IsPstdev(xs, sigma)
    ensures 5 * CountAbove(xs, Mean(xs) + 2.0 * sigma) < |xs|
  {
    var m, n := Mean(xs), |xs| as real;
    var a, t := m - sigma / 2.0, m + 2.0 * sigma;
    var total := Sum(SquareAbout(a), xs);
    assert total == 1.25 * (Square(sigma) * n) by {
      SquaresAboutOther(xs, a, m);
      QuotientTimes(Sum(IDENTITY, xs), n);
      QuotientTimes(Sum(SquareAbout(m), xs), n);
      CentredSquares(m, n, sigma, Sum(IDENTITY, xs), Sum(SquareAbout(m), xs));
    }
    assert CountAbove(xs, t) > 0 ==> total > Times(CountAbove(xs, t), Square(2.5 * sigma)) by {
      TailWeighs(xs, a, t);
      assert t - a == 2.5 * sigma;
    }
    FifthOf(CountAbove(xs, t), |xs|, sigma, total);
  }

  /** The squares about half a deviation below the mean add up to five quarters of those about it. */
  lemma CentredSquares(m: real, n: real, sigma: real, s: real, squares: real)
    requires s == m * n && squares == Square(sigma) * n
    ensures squares + Shift(m - sigma / 2.0, m, s, n) == 1.25 * (Square(sigma) * n)
  {
    var w := Square(sigma);
    assert Square(sigma / 2.0) == w / 4.0;
    assert n * (w / 4.0) == 0.25 * (w * n);
  }

  lemma FifthOf(k: nat, n: nat, sigma: real, total: real)
    requires n > 0 && total == 1.25 * (Square(sigma) * n as real)
    requires k > 0 ==> total > Times(k, Square(2.5 * sigma))
    ensures 5 * k < n
  {
    if k > 0 {
      var w := Square(sigma);
      assert Square(2.5 * sigma) == 6.25 * w;
      assert Times(k, 6.25 * w) == 6.25 * (w * k as real);
      assert w * n as real > 5.0 * (w * k as real);
      SquareIsNotNegative(sigma);
      CancelFactor(w, n as real, 5.0 * k as real);
    }
  }

  lemma CancelFactor(w: real, x: real, y: real)
    requires w >= 0.0 && w * x > w * y
    ensures x > y
  {
    assert w * (x - y) == w * x - w * y;
  }

  lemma {:induction false} CountAboveFalls(xs: seq<real>, low: real, high: real)
    requires low <= high
    ensures CountAbove(xs, high) <= CountAbove(xs, low)
  {
    if xs != [] {
      CountAboveFalls(xs[1..], low, high);
    }
  }

  lemma {:induction false} CountAboveLeast(xs: seq<real>, v: real)
    requires forall i :: 0 <= i < |xs| ==> xs[i] <= v
    ensures CountAbove(xs, v) == 0
  {
    if xs != [] {
      CountAboveLeast(xs[1..], v);
    }
  }

  /** Less than a fifth of a window exceeds the baseline that the score is measured against, whatever its floor. */
  lemma BaselineTailBound(moves: seq<real>, sigma: real, floor: real)
    requires moves != [] && IsPstdev(moves, sigma)
    ensures 5 * CountAbove(moves, Max(Baseline(moves, sigma), floor)) < |moves|
  {
    CountAboveFalls(moves, Baseline(moves, sigma), Max(Baseline(moves, sigma), floor));
    if |moves| > 1 {
      TailBound(moves, sigma);
    } else {
      assert moves[1..] == [] && Sum(IDENTITY, moves) == moves[0] + Sum(IDENTITY, moves[1..]);
      QuotientIs(moves[0], 1.0, moves[0]);
      CountAboveLeast(moves, moves[0]);
    }
  }
}
