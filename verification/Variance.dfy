/** The variance a contestant has after a number of rated contests, and the weights of past
    performances built from it. */
module Variance {
  import opened Options
  import opened RealArithmetic

  const BETA2: real := 328.33 * 328.33
  const SCALE: real := BETA2 / (212.0 * 212.0)
  const VAR_INIT: real := 350.0 * 350.0 * SCALE
  const VAR_PER_CONTEST: real := 1219.047619 * SCALE

  /** VAR_LIM, given the square root in its formula. */
  function VarLim(root: real): real {
    (root - VAR_PER_CONTEST) / 2.0
  }

  const DISCRIMINANT: real := VAR_PER_CONTEST * VAR_PER_CONTEST + 4.0 * BETA2 * VAR_PER_CONTEST

  function NextVar(v: real): (next: real)
    requires v > 0.0
    ensures next > 0.0
  {
    ReciprocalSum(v + VAR_PER_CONTEST, BETA2);
    1.0 / (1.0 / (v + VAR_PER_CONTEST) + 1.0 / BETA2)
  }

  /** The recurrence the cache unrolls. */
  function Var(n: nat): (v: real)
    ensures v > 0.0
  {
    if n == 0 then VAR_INIT else NextVar(Var(n - 1))
  }

  // ---------- the shared cache ----------

  /** The list that lives on between calls as a default argument. */
  class VarCache {
    var cache: seq<real>

    ghost predicate Valid()
      reads this
    {
      |cache| >= 1 && forall i :: 0 <= i < |cache| ==> cache[i] == Var(i)
    }

    constructor ()
      ensures Valid() && cache == [VAR_INIT]
    {
      cache := [VAR_INIT];
    }

    /** Whatever has been asked before, the answer is the recurrence, and the cache only grows.  A
        negative argument reads the cache as it is from its end, None standing for the index
        error. */
    method GetVar(timesRanked: int) returns (v: Option<real>)
      requires Valid()
      modifies this
      ensures Valid() && old(cache) <= cache
      ensures |cache| == if timesRanked < old(|cache|) then old(|cache|) else timesRanked + 1
      ensures timesRanked >= 0 ==> v == Some(Var(timesRanked))
      ensures timesRanked < 0 ==> v == if -timesRanked <= |cache| then Some(Var(|cache| + timesRanked)) else None
    {
      while timesRanked >= |cache|
        invariant Valid() && old(cache) <= cache
        invariant |cache| <= if timesRanked < old(|cache|) then old(|cache|) else timesRanked + 1
        decreases timesRanked + 1 - |cache|
      {
        ReciprocalSum(cache[|cache| - 1] + VAR_PER_CONTEST, BETA2);
        var next := 1.0 / (1.0 / (cache[|cache| - 1] + VAR_PER_CONTEST) + 1.0 / BETA2);
        cache := cache + [next];
      }
      var at := if timesRanked >= 0 then timesRanked else |cache| + timesRanked;
      return if at >= 0 then Some(cache[at]) else None;
    }
  }

  // ---------- the limit ----------

  lemma RootOf(c: real, B: real, root: real)
    requires c > 0.0 && B > 0.0 && IsSqrt(root, c * c + 4.0 * B * c)
    ensures var lim := (root - c) / 2.0; 0.0 < lim < B && lim * lim + c * lim == c * B
  {
    assert B * c > 0.0 && B * B > 0.0;
    SqrtLess(c, root);
    assert (c + 2.0 * B) * (c + 2.0 * B) == c * c + 4.0 * (B * c) + 4.0 * (B * B);
    SqrtLess(root, c + 2.0 * B);
    var lim := (root - c) / 2.0;
    assert root == 2.0 * lim + c;
    assert root * root == 4.0 * (lim * lim + c * lim) + c * c;
  }

  /** VAR_LIM is the positive root of v*v + c*v = c*BETA2. */
  lemma LimitRoot(root: real)
    requires IsSqrt(root, DISCRIMINANT)
    ensures var lim := VarLim(root);
      0.0 < lim < BETA2 && lim * lim + VAR_PER_CONTEST * lim == VAR_PER_CONTEST * BETA2
  {
    RootOf(VAR_PER_CONTEST, BETA2, root);
  }

  /** Above the limit the step stays above it. */
  lemma StepAbove(c: real, B: real, v: real, lim: real, w: real)
    requires c > 0.0 && B > 0.0 && 0.0 < lim < B && lim * lim + c * lim == c * B
    requires v > lim && w * (v + c + B) == (v + c) * B
    ensures lim < w
  {
  }

  /** Above the limit the step goes down. */
  lemma StepDown(c: real, B: real, v: real, lim: real, w: real)
    requires c > 0.0 && B > 0.0 && 0.0 < lim && lim * lim + c * lim == c * B
    requires v > lim && w * (v + c + B) == (v + c) * B
    ensures w < v
  {
  }

  /** One step from above the limit goes down and stays above it. */
  lemma NextVarDown(v: real, lim: real)
    requires 0.0 < lim < BETA2 && lim * lim + VAR_PER_CONTEST * lim == VAR_PER_CONTEST * BETA2
    requires v > lim
    ensures lim < NextVar(v) < v
  {
    ReciprocalSum(v + VAR_PER_CONTEST, BETA2);
    StepAbove(VAR_PER_CONTEST, BETA2, v, lim, NextVar(v));
    StepDown(VAR_PER_CONTEST, BETA2, v, lim, NextVar(v));
  }

  lemma InitAboveLimit(root: real)
    requires IsSqrt(root, DISCRIMINANT)
    ensures VarLim(root) < VAR_INIT
  {
  }

  /** The variances strictly decrease and stay above the limit. */
  lemma {:induction false} VarDecreases(n: nat, root: real)
    requires IsSqrt(root, DISCRIMINANT)
    ensures VarLim(root) < Var(n + 1) < Var(n)
  {
    LimitRoot(root);
    if n == 0 { InitAboveLimit(root); } else { VarDecreases(n - 1, root); }
    NextVarDown(Var(n), VarLim(root));
  }

  /** The deduction from the displayed rating is positive and shrinks with every contest. */
  lemma DeductionShrinks(n: nat, root: real, sdLim: real, sd: real, sdNext: real)
    requires IsSqrt(root, DISCRIMINANT) && IsSqrt(sdLim, VarLim(root))
    requires IsSqrt(sd, Var(n)) && IsSqrt(sdNext, Var(n + 1))
    ensures 0.0 < sdNext - sdLim < sd - sdLim
  {
    VarDecreases(n, root);
    SqrtLess(sdLim, sdNext);
    SqrtLess(sdNext, sd);
  }

  // ---------- the weights of past performances ----------

  /** The factor by which the weight of older performances shrinks when going back to the
      time of n rated contests; the current performance has factor 1. */
  function Shrink(n: nat): (k: real)
    ensures 0.0 < k < 1.0
  {
    RatioBelowOne(Var(n), VAR_PER_CONTEST);
    Var(n) / (Var(n) + VAR_PER_CONTEST)
  }

  /** Sum over the current performance and m past ones of weight/BETA2, when n contests are
      rated including the current one: each step back multiplies by a squared factor. */
  function WeightSum(n: nat, m: nat): real
    requires m <= n
  {
    1.0 / BETA2 + if m == 0 then 0.0 else Times(Squared(Shrink(n - 1)), WeightSum(n - 1, m - 1))
  }

  lemma SplitPrecision(v: real, c: real, b: real)
    requires v > 0.0 && c > 0.0 && b > 0.0
    ensures var s := 1.0 / (v + c) + 1.0 / b; s > 0.0 && 1.0 / (1.0 / s) == s
    ensures 1.0 / (v + c) == Times(v / (v + c), 1.0 / v)
  {
    ReciprocalSum(v + c, b);
    DoubleReciprocal(1.0 / (v + c) + 1.0 / b);
    RatioOfReciprocals(v, v + c);
  }

  /** One term of the recurrence: 1/Var(n) in terms of 1/Var(n - 1). */
  lemma Precision(n: nat)
    requires n >= 1
    ensures 1.0 / Var(n) == 1.0 / (Var(n - 1) + VAR_PER_CONTEST) + 1.0 / BETA2
    ensures 1.0 / (Var(n - 1) + VAR_PER_CONTEST) == Times(Shrink(n - 1), 1.0 / Var(n - 1))
  {
    SplitPrecision(Var(n - 1), VAR_PER_CONTEST, BETA2);
  }

  /** A squared factor of less than the older precision is less than the factor times it. */
  lemma SquaredShare(k: real, w: real, p: real)
    requires 0.0 < k < 1.0 && 0.0 < w < p
    ensures 0.0 < Times(Squared(k), w) < Times(k, p)
  {
    TimesPositive(k, k);
    TimesBelow(k, k);
    TimesLess(k, Squared(k), w, p);
  }

  /** When the sum is below the precision one contest earlier, so it is now. */
  lemma SumBelowPrecision(n: nat, m: nat)
    requires 0 < m <= n && 0.0 < WeightSum(n - 1, m - 1) < 1.0 / Var(n - 1)
    ensures 0.0 < WeightSum(n, m) < 1.0 / Var(n)
  {
    Precision(n);
    ReciprocalPositive(BETA2);
    SquaredShare(Shrink(n - 1), WeightSum(n - 1, m - 1), 1.0 / Var(n - 1));
  }

  /** The weights never use up the total precision as long as no more past performances are
      taken than contests were rated: the sum of products of squared factors is dominated by
      the unrolled recurrence for 1/Var. */
  lemma {:induction false} WeightsBelowPrecision(n: nat, m: nat)
    requires m < n
    ensures 0.0 < WeightSum(n, m) < 1.0 / Var(n)
  {
    if m > 0 {
      WeightsBelowPrecision(n - 1, m - 1);
      SumBelowPrecision(n, m);
    } else {
      Precision(n);
      ReciprocalPositive(Var(n - 1) + VAR_PER_CONTEST);
      ReciprocalPositive(BETA2);
    }
  }

  // ---------- one past performance more than contests rated ----------

  const DRIFT: real := 1219.047619 / (212.0 * 212.0)

  /** Precision and weight sum in units of 1/BETA2. */
  function Scaled(n: nat): (p: real)
    ensures p > 0.0
  {
    BETA2 / Var(n)
  }

  function ScaledSum(n: nat): real { Times(BETA2, WeightSum(n, n)) }

  lemma ShrinkFromScaled(n: nat)
    ensures Times(Shrink(n), 1.0 + Times(DRIFT, Scaled(n))) == 1.0
  {
    var v, c := Var(n), VAR_PER_CONTEST;
    assert DRIFT * BETA2 == c;
    assert DRIFT * (BETA2 / v) == c / v;
    assert 1.0 + c / v == (v + c) / v;
    assert v / (v + c) * ((v + c) / v) == 1.0;
  }

  lemma ScaledStep(n: nat)
    requires n >= 1
    ensures Scaled(n) == 1.0 + Times(Shrink(n - 1), Scaled(n - 1))
    ensures ScaledSum(n) == 1.0 + Times(Squared(Shrink(n - 1)), ScaledSum(n - 1))
  {
    Precision(n);
    FactorOut(BETA2, Var(n), Shrink(n - 1), Var(n - 1));
    DistributeSum(BETA2, Squared(Shrink(n - 1)), WeightSum(n - 1, n - 1));
  }

  lemma FactorOut(b: real, v: real, k: real, u: real)
    requires b > 0.0 && v > 0.0 && u > 0.0 && 1.0 / v == Times(k, 1.0 / u) + 1.0 / b
    ensures b / v == 1.0 + Times(k, b / u)
  {
    assert b / v == b * (1.0 / v) && b / u == b * (1.0 / u);
  }

  lemma DistributeSum(b: real, kk: real, w: real)
    requires b > 0.0
    ensures Times(b, 1.0 / b + Times(kk, w)) == 1.0 + Times(kk, Times(b, w))
  {
  }

  ghost predicate Between(lo: real, x: real, hi: real) { lo <= x <= hi }

  lemma TimesBetween(a: real, x: real, b: real, c: real, y: real, d: real)
    requires 0.0 <= a && 0.0 <= c && Between(a, x, b) && Between(c, y, d)
    ensures Between(Times(a, c), Times(x, y), Times(b, d))
  {
    WeakScale(a, c, y);
    WeakScaleRight(y, a, x);
    WeakScale(x, y, d);
    WeakScaleRight(d, x, b);
  }

  lemma Cancel(a: real, b: real, x: real)
    requires x > 0.0 && Times(a, x) <= Times(b, x)
    ensures a <= b
  {
    if b < a { TimesMonotone(x, b, a); }
  }

  lemma ReciprocalBetween(k: real, lo: real, x: real, hi: real, kLo: real, kHi: real)
    requires 0.0 < lo && Between(lo, x, hi) && k > 0.0 && Times(k, x) == 1.0
    requires kLo > 0.0 && kHi > 0.0 && Times(kLo, hi) <= 1.0 <= Times(kHi, lo)
    ensures Between(kLo, k, kHi)
  {
    WeakScale(kLo, x, hi);
    WeakScale(kHi, lo, x);
    Cancel(kLo, k, x);
    Cancel(k, kHi, x);
  }

  /** Interval arithmetic for one step: a product of bounded factors, plus one. */
  lemma OneMoreBetween(a: real, x: real, b: real, c: real, y: real, d: real, z: real)
    requires 0.0 <= a && 0.0 <= c && Between(a, x, b) && Between(c, y, d) && z == 1.0 + Times(x, y)
    ensures Between(1.0 + Times(a, c), z, 1.0 + Times(b, d))
  {
    TimesBetween(a, x, b, c, y, d);
  }

  /** Bounds on precision and weight sum after n contests. */
  datatype Bounds = Bounds(pLo: real, pHi: real, sLo: real, sHi: real)

  ghost predicate Bounded(n: nat, b: Bounds) {
    b.pLo > 0.0 && b.sLo > 0.0 && Between(b.pLo, Scaled(n), b.pHi) && Between(b.sLo, ScaledSum(n), b.sHi)
  }

  /** The bounds one contest later, given bounds on the factor. */
  function NextBounds(b: Bounds, kLo: real, kHi: real): Bounds {
    Bounds(1.0 + Times(kLo, b.pLo), 1.0 + Times(kHi, b.pHi),
           1.0 + Times(Squared(kLo), b.sLo), 1.0 + Times(Squared(kHi), b.sHi))
  }

  /** Bounds on a factor that shrinks with the precision. */
  lemma FactorBetween(k: real, pLo: real, p: real, pHi: real, kLo: real, kHi: real)
    requires 0.0 < pLo && Between(pLo, p, pHi) && k > 0.0 && Times(k, 1.0 + Times(DRIFT, p)) == 1.0
    requires kLo > 0.0 && Times(kLo, 1.0 + Times(DRIFT, pHi)) <= 1.0
    requires kHi > 0.0 && 1.0 <= Times(kHi, 1.0 + Times(DRIFT, pLo))
    ensures Between(kLo, k, kHi)
  {
    OneMoreBetween(DRIFT, DRIFT, DRIFT, pLo, p, pHi, 1.0 + Times(DRIFT, p));
    ReciprocalBetween(k, 1.0 + Times(DRIFT, pLo), 1.0 + Times(DRIFT, p), 1.0 + Times(DRIFT, pHi), kLo, kHi);
  }

  lemma BoundsStep(n: nat, b: Bounds, kLo: real, kHi: real)
    requires Bounded(n, b) && kLo > 0.0 && Between(kLo, Shrink(n), kHi)
    ensures Bounded(n + 1, NextBounds(b, kLo, kHi))
  {
    var k := Shrink(n);
    ScaledStep(n + 1);
    OneMoreBetween(kLo, k, kHi, b.pLo, Scaled(n), b.pHi, Scaled(n + 1));
    TimesBetween(kLo, k, kHi, kLo, k, kHi);
    OneMoreBetween(Squared(kLo), Squared(k), Squared(kHi), b.sLo, ScaledSum(n), b.sHi, ScaledSum(n + 1));
    TimesPositive(kLo, b.pLo);
    TimesPositive(kLo, kLo);
    TimesPositive(Squared(kLo), b.sLo);
  }

  /** Up to four contests one performance too many uses up more than the precision; at five it
      no longer does. */
  lemma EarlySums()
    ensures forall n :: 0 <= n <= 4 ==> ScaledSum(n) > Scaled(n)
    ensures ScaledSum(5) < Scaled(5)
  {
    var b0 := Bounds(0.36688, 0.36689, 1.0, 1.0);
    var b1 := NextBounds(b0, 0.99014, 0.99015);
    var b2 := NextBounds(b1, 0.96434, 0.96435);
    var b3 := NextBounds(b2, 0.94092, 0.94093);
    var b4 := NextBounds(b3, 0.92064, 0.92065);
    assert Bounded(0, b0);
    ShrinkFromScaled(0);
    FactorBetween(Shrink(0), b0.pLo, Scaled(0), b0.pHi, 0.99014, 0.99015);
    BoundsStep(0, b0, 0.99014, 0.99015);
    ShrinkFromScaled(1);
    FactorBetween(Shrink(1), b1.pLo, Scaled(1), b1.pHi, 0.96434, 0.96435);
    BoundsStep(1, b1, 0.96434, 0.96435);
    ShrinkFromScaled(2);
    FactorBetween(Shrink(2), b2.pLo, Scaled(2), b2.pHi, 0.94092, 0.94093);
    BoundsStep(2, b2, 0.94092, 0.94093);
    ShrinkFromScaled(3);
    FactorBetween(Shrink(3), b3.pLo, Scaled(3), b3.pHi, 0.92064, 0.92065);
    BoundsStep(3, b3, 0.92064, 0.92065);
    ShrinkFromScaled(4);
    FactorBetween(Shrink(4), b4.pLo, Scaled(4), b4.pHi, 0.90376, 0.90377);
    BoundsStep(4, b4, 0.90376, 0.90377);
  }

  lemma ScaleBoth(b: real, x: real, y: real)
    requires b > 0.0
    ensures Times(b, x) < Times(b, y) <==> x < y
  {
    if x < y { TimesMonotone(b, x, y); } else if y < x { TimesMonotone(b, y, x); }
  }

  lemma Unscale(b: real, v: real, w: real)
    requires b > 0.0 && v > 0.0
    ensures Times(b, w) < b / v <==> w < 1.0 / v
    ensures Times(b, w) > b / v <==> w > 1.0 / v
  {
    assert b / v == Times(b, 1.0 / v);
    ScaleBoth(b, w, 1.0 / v);
    ScaleBoth(b, 1.0 / v, w);
  }

  lemma UnscaleAt(n: nat)
    ensures ScaledSum(n) < Scaled(n) <==> WeightSum(n, n) < 1.0 / Var(n)
    ensures ScaledSum(n) > Scaled(n) <==> WeightSum(n, n) > 1.0 / Var(n)
  {
    Unscale(BETA2, Var(n), WeightSum(n, n));
  }

  /** Once the sum has fallen below the precision it stays there. */
  lemma {:induction false} LaterSums(k: nat, n: nat)
    requires k <= n && 0.0 < WeightSum(k, k) < 1.0 / Var(k)
    ensures 0.0 < WeightSum(n, n) < 1.0 / Var(n)
  {
    if k < n {
      LaterSums(k, n - 1);
      SumBelowPrecision(n, n);
    }
  }

  lemma {:induction false} WeightSumPositive(n: nat)
    ensures WeightSum(n, n) > 0.0
  {
    if n > 0 {
      WeightSumPositive(n - 1);
      TimesPositive(Shrink(n - 1), Shrink(n - 1));
      TimesPositive(Squared(Shrink(n - 1)), WeightSum(n - 1, n - 1));
    }
  }

  /** The weight sum stays below the precision exactly when no more past performances are taken
      than contests were rated, or one more and at least four contests were; it never equals it. */
  lemma PrecisionExact(n: nat, m: nat)
    requires m <= n
    ensures WeightSum(n, m) < 1.0 / Var(n) <==> m < n || n >= 5
    ensures WeightSum(n, m) != 1.0 / Var(n)
  {
    if m < n {
      WeightsBelowPrecision(n, m);
    } else if n >= 5 {
      EarlySums();
      UnscaleAt(5);
      WeightSumPositive(5);
      LaterSums(5, n);
    } else {
      EarlySums();
      UnscaleAt(n);
    }
  }
}
