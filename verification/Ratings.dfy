/** The rating engine: performances by divide and conquer, means by weighting past
    performances, and the displayed rating. */
module Ratings {
  import opened Options
  import opened RealArithmetic
  import opened Bisection
  import opened Variance

  const MEAN_INIT: real := 1500.0

  /** The mathematical functions the engine calls. */
  datatype Maths = Maths(tanh: real -> real, sqrt: real -> real, pi: real, round: real -> int)

  ghost predicate Sound(m: Maths) {
    && Nondecreasing(m.tanh)
    && (forall x :: x >= 0.0 ==> IsSqrt(m.sqrt(x), x))
    && m.pi > 0.0
    && (forall x, y :: x <= y ==> m.round(x) <= m.round(y))
  }

  function TanhC(m: Maths): real
    requires m.pi != 0.0
  {
    m.sqrt(3.0) / m.pi
  }

  lemma SqrtPositive(m: Maths, x: real)
    requires Sound(m) && x > 0.0
    ensures m.sqrt(x) > 0.0
  {
  }

  lemma TanhCPositive(m: Maths)
    requires Sound(m)
    ensures TanhC(m) > 0.0
  {
  }

  // ---------- the objective ----------

  datatype Term = Term(mu: real, sd: real, wt: real)

  predicate Positive(terms: seq<Term>) {
    forall t :: t in terms ==> t.sd > 0.0 && t.wt >= 0.0
  }

  function TermAt(tanh: real -> real, t: Term, x: real): real
    requires t.sd > 0.0
  {
    (t.wt / t.sd) * tanh((x - t.mu) / (2.0 * t.sd))
  }

  function EvalTanhs(tanh: real -> real, terms: seq<Term>, x: real): real
    requires Positive(terms)
  {
    if terms == [] then 0.0
    else
      assert terms[0] in terms;
      TermAt(tanh, terms[0], x) + EvalTanhs(tanh, terms[1..], x)
  }

  function Objective(tanh: real -> real, terms: seq<Term>, lin: real): real -> real
    requires Positive(terms)
  {
    x => Times(lin, x) + EvalTanhs(tanh, terms, x)
  }

  lemma DivideLess(a: real, b: real, d: real)
    requires d > 0.0 && a <= b
    ensures a / d <= b / d
  {
  }

  lemma WeightNonnegative(t: Term)
    requires t.sd > 0.0 && t.wt >= 0.0
    ensures t.wt / t.sd >= 0.0
  {
  }

  /** Moving the point up, or the centre of a term down, never lowers a term. */
  lemma TermMonotone(tanh: real -> real, t: Term, t': Term, x: real, x': real)
    requires Nondecreasing(tanh) && t.sd > 0.0 && t.wt >= 0.0
    requires t'.sd == t.sd && t'.wt == t.wt && x - t.mu <= x' - t'.mu
    ensures TermAt(tanh, t, x) <= TermAt(tanh, t', x')
  {
    DivideLess(x - t.mu, x' - t'.mu, 2.0 * t.sd);
    WeightNonnegative(t);
    Apart(tanh, (x - t.mu) / (2.0 * t.sd), (x' - t'.mu) / (2.0 * t'.sd));
    WeakScale(t.wt / t.sd, tanh((x - t.mu) / (2.0 * t.sd)), tanh((x' - t'.mu) / (2.0 * t'.sd)));
  }

  lemma SumLess(a: real, b: real, a': real, b': real)
    requires a <= a' && b <= b'
    ensures a + b <= a' + b'
  {
  }

  lemma {:induction false} EvalMonotone(tanh: real -> real, terms: seq<Term>, x: real, x': real)
    requires Nondecreasing(tanh) && Positive(terms) && x <= x'
    ensures EvalTanhs(tanh, terms, x) <= EvalTanhs(tanh, terms, x')
  {
    if terms != [] {
      EvalMonotone(tanh, terms[1..], x, x');
      TermMonotone(tanh, terms[0], terms[0], x, x');
      SumLess(TermAt(tanh, terms[0], x), EvalTanhs(tanh, terms[1..], x),
              TermAt(tanh, terms[0], x'), EvalTanhs(tanh, terms[1..], x'));
    }
  }

  lemma ObjectiveAt(tanh: real -> real, terms: seq<Term>, lin: real, x: real, y: real)
    requires Nondecreasing(tanh) && Positive(terms) && lin >= 0.0 && x <= y
    ensures Objective(tanh, terms, lin)(x) <= Objective(tanh, terms, lin)(y)
    ensures lin > 0.0 && x < y ==> Objective(tanh, terms, lin)(x) < Objective(tanh, terms, lin)(y)
  {
    EvalMonotone(tanh, terms, x, y);
    LinearPart(lin, x, y, EvalTanhs(tanh, terms, x), EvalTanhs(tanh, terms, y));
  }

  lemma LinearPart(lin: real, x: real, y: real, a: real, b: real)
    requires lin >= 0.0 && x <= y && a <= b
    ensures Times(lin, x) + a <= Times(lin, y) + b
    ensures lin > 0.0 && x < y ==> Times(lin, x) + a < Times(lin, y) + b
  {
    WeakScale(lin, x, y);
    if lin > 0.0 && x < y { TimesMonotone(lin, x, y); }
  }

  lemma ObjectiveMonotone(tanh: real -> real, terms: seq<Term>, lin: real)
    requires Nondecreasing(tanh) && Positive(terms) && lin >= 0.0
    ensures Nondecreasing(Objective(tanh, terms, lin))
  {
    var f := Objective(tanh, terms, lin);
    forall x, y | InOrder(x, y) ensures f(x) <= f(y) { ObjectiveAt(tanh, terms, lin, x, y); }
  }

  // ---------- performances ----------

  function Delta(m: Maths, t: nat): real
    requires m.pi != 0.0
  {
    TanhC(m) * m.sqrt(Var(t) + VAR_PER_CONTEST + BETA2)
  }

  lemma DeltaPositive(m: Maths, t: nat)
    requires Sound(m)
    ensures Delta(m, t) > 0.0
  {
    TanhCPositive(m);
    SqrtPositive(m, Var(t) + VAR_PER_CONTEST + BETA2);
    TimesPositive(TanhC(m), m.sqrt(Var(t) + VAR_PER_CONTEST + BETA2));
  }

  function Deltas(m: Maths, times: seq<nat>): (ds: seq<real>)
    requires m.pi != 0.0
    ensures |ds| == |times| && forall i :: 0 <= i < |ds| ==> ds[i] == Delta(m, times[i])
  {
    seq(|times|, i requires 0 <= i < |times| => Delta(m, times[i]))
  }

  predicate AllPositive(ds: seq<real>) {
    forall i :: 0 <= i < |ds| ==> ds[i] > 0.0
  }

  function PerfTerms(means: seq<real>, ds: seq<real>): (terms: seq<Term>)
    requires |means| == |ds|
    ensures AllPositive(ds) ==> Positive(terms)
  {
    seq(|means|, i requires 0 <= i < |means| => Term(means[i], ds[i], 1.0))
  }

  /** What the first n contestants add to the target of one ranked r: those it beats count
      for it, those that beat it against, a tie for neither. */
  function Target(ranking: seq<real>, ds: seq<real>, r: real, n: nat): real
    requires n <= |ranking| == |ds| && AllPositive(ds)
  {
    if n == 0 then 0.0
    else
      var s, d := ranking[n - 1], ds[n - 1];
      Target(ranking, ds, r, n - 1) + (if s > r then 1.0 / d else if s < r then -(1.0 / d) else 0.0)
  }

  function Targets(ranking: seq<real>, ds: seq<real>): (ys: seq<real>)
    requires |ranking| == |ds| && AllPositive(ds)
    ensures |ys| == |ranking|
  {
    seq(|ranking|, i requires 0 <= i < |ranking| => Target(ranking, ds, ranking[i], |ranking|))
  }

  /** A better (smaller) rank never has a lower target. */
  lemma {:induction false} TargetAntitone(ranking: seq<real>, ds: seq<real>, r: real, r': real, n: nat)
    requires n <= |ranking| == |ds| && AllPositive(ds) && r <= r'
    ensures Target(ranking, ds, r, n) >= Target(ranking, ds, r', n)
  {
    if n > 0 {
      TargetAntitone(ranking, ds, r, r', n - 1);
      ReciprocalPositive(ds[n - 1]);
    }
  }

  predicate NondecreasingSeq(s: seq<real>) {
    forall i, j :: 0 <= i <= j < |s| ==> s[i] <= s[j]
  }

  lemma TargetsNonincreasing(ranking: seq<real>, ds: seq<real>)
    requires |ranking| == |ds| && AllPositive(ds) && NondecreasingSeq(ranking)
    ensures NonincreasingSeq(Targets(ranking, ds))
  {
    forall i, j | 0 <= i <= j < |ranking| ensures Targets(ranking, ds)[i] >= Targets(ranking, ds)[j] {
      TargetAntitone(ranking, ds, ranking[i], ranking[j], |ranking|);
    }
  }

  function LowBound(m: Maths): real { MEAN_INIT - 20.0 * m.sqrt(VAR_INIT) }

  function HighBound(m: Maths, ceiling: Option<real>): real {
    var top := MEAN_INIT + 20.0 * m.sqrt(VAR_INIT);
    if ceiling.Some? && ceiling.value < top then ceiling.value else top
  }

  /** The performances of a contest with at least two contestants. */
  function ContestPerformances(m: Maths, ranking: seq<real>, means: seq<real>, ds: seq<real>, ceiling: Option<real>)
    : (ps: seq<real>)
    requires |ranking| == |means| == |ds| >= 2 && AllPositive(ds)
    ensures |ps| == |ranking|
  {
    Performances(Objective(m.tanh, PerfTerms(means, ds), 0.0), Targets(ranking, ds), LowBound(m), HighBound(m, ceiling))
  }

  /** With ranks in order and bounds not crossed, a better rank never gets a lower performance,
      and each performance is as accurate as a bisection over the whole valid range.  With
      crossed bounds each performance is one of the two bounds, and a better rank never gets a
      higher one. */
  lemma PerformancesSound(m: Maths, ranking: seq<real>, means: seq<real>, ds: seq<real>, ceiling: Option<real>)
    requires Sound(m) && |ranking| == |means| == |ds| >= 2 && AllPositive(ds) && NondecreasingSeq(ranking)
    ensures var f, ys := Objective(m.tanh, PerfTerms(means, ds), 0.0), Targets(ranking, ds);
      var lo, hi := LowBound(m), HighBound(m, ceiling);
      var ps := ContestPerformances(m, ranking, means, ds, ceiling);
      && (lo <= hi ==> Filled(f, ys, lo, hi, ps, 0, |ranking| - 1))
      && (hi < lo ==> CrossedFilled(f, ys, lo, hi, ps, 0, |ranking| - 1) && NondecreasingSeq(ps))
  {
    var f, ys := Objective(m.tanh, PerfTerms(means, ds), 0.0), Targets(ranking, ds);
    var lo, hi := LowBound(m), HighBound(m, ceiling);
    ObjectiveMonotone(m.tanh, PerfTerms(means, ds), 0.0);
    TargetsNonincreasing(ranking, ds);
    if lo <= hi { PerformancesFilled(f, ys, lo, hi); } else { PerformancesCrossed(f, ys, lo, hi); }
  }

  /** The bounds are not crossed exactly when the ceiling is not below the valid range. */
  lemma BoundsInOrder(m: Maths, ceiling: Option<real>)
    requires Sound(m)
    ensures LowBound(m) <= HighBound(m, ceiling) <==> ceiling.None? || LowBound(m) <= ceiling.value
  {
  }

  // ---------- means ----------

  /** Weight of the j-th most recent performance, the current one being number 0. */
  function Weight(n: nat, j: nat): (w: real)
    requires j <= n
    ensures w > 0.0
  {
    if j == 0 then 1.0
    else
      TimesPositive(Shrink(n - j), Shrink(n - j));
      TimesPositive(Weight(n, j - 1), Squared(Shrink(n - j)));
      Times(Weight(n, j - 1), Squared(Shrink(n - j)))
  }

  function WeightPrefix(n: nat, j: nat): real
    requires j <= n
  {
    Weight(n, j) / BETA2 + if j == 0 then 0.0 else WeightPrefix(n, j - 1)
  }

  /** Going back one more contest shifts the weights. */
  lemma {:induction false} WeightShift(n: nat, j: nat)
    requires 1 <= j <= n
    ensures Weight(n, j) == Times(Squared(Shrink(n - 1)), Weight(n - 1, j - 1))
  {
    if j > 1 {
      WeightShift(n, j - 1);
      TimesAssociative(Squared(Shrink(n - 1)), Weight(n - 1, j - 2), Squared(Shrink(n - j)));
    } else {
      TimesOne(Squared(Shrink(n - 1)));
    }
  }

  lemma TimesDistributes(a: real, b: real, c: real, d: real)
    requires d > 0.0
    ensures Times(a, b) / d + Times(a, c) == Times(a, b / d + c)
  {
  }

  /** The running sum of the loop is the nested sum that is bounded by the precision. */
  lemma {:induction false} PrefixIsWeightSum(n: nat, j: nat)
    requires j <= n
    ensures WeightPrefix(n, j) == WeightSum(n, j)
  {
    if j > 0 {
      PrefixShift(n, j);
      PrefixIsWeightSum(n - 1, j - 1);
    }
  }

  lemma {:induction false} PrefixShift(n: nat, j: nat)
    requires 1 <= j <= n
    ensures WeightPrefix(n, j) == 1.0 / BETA2 + Times(Squared(Shrink(n - 1)), WeightPrefix(n - 1, j - 1))
  {
    var k := Squared(Shrink(n - 1));
    WeightShift(n, j);
    if j == 1 {
      TimesDistributes(k, Weight(n - 1, 0), 0.0, BETA2);
    } else {
      PrefixShift(n, j - 1);
      TimesDistributes(k, Weight(n - 1, j - 1), WeightPrefix(n - 1, j - 2), BETA2);
    }
  }

  /** The residual precision left for the prior mean. */
  function Residual(n: nat, past: nat): real
    requires past <= n
  {
    1.0 / Var(n) - WeightPrefix(n, past)
  }

  /** It is positive exactly when no more past performances are given than contests were rated
      before, or one more and at least four contests were; and it is never zero, so the
      division by it is defined. */
  lemma ResidualExact(t: nat, past: nat)
    requires past <= t + 1
    ensures Residual(t + 1, past) > 0.0 <==> past <= t || t >= 4
    ensures Residual(t + 1, past) != 0.0
  {
    PrefixIsWeightSum(t + 1, past);
    PrecisionExact(t + 1, past);
  }

  /** The spread of every term of the mean. */
  function TermSd(m: Maths): real
    requires m.pi != 0.0
  {
    Times(m.sqrt(BETA2), TanhC(m))
  }

  function MeanTerms(m: Maths, hs: seq<real>, n: nat): (terms: seq<Term>)
    requires m.pi != 0.0 && |hs| <= n + 1
    ensures |terms| == |hs|
    ensures TermSd(m) > 0.0 ==> Positive(terms)
  {
    seq(|hs|, j requires 0 <= j < |hs| => Term(hs[j], TermSd(m), Weight(n, j)))
  }

  lemma MeanTermsPositive(m: Maths, hs: seq<real>, n: nat)
    requires Sound(m) && |hs| <= n + 1
    ensures Positive(MeanTerms(m, hs, n))
  {
    SqrtPositive(m, BETA2);
    TanhCPositive(m);
    TimesPositive(m.sqrt(BETA2), TanhC(m));
  }

  /** The current performance weighs 1 and an older one less than a more recent one. */
  lemma WeightsFade(m: Maths, hs: seq<real>, n: nat, j: nat)
    requires Sound(m) && j < |hs| <= n + 1
    ensures var terms := MeanTerms(m, hs, n);
      && terms[j].mu == hs[j] && terms[j].wt > 0.0 && terms[0].wt == 1.0
      && (j > 0 ==> terms[j].wt < terms[j - 1].wt)
  {
    if j > 0 {
      var k := Shrink(n - j);
      TimesBelow(k, k);
      TimesBelow(Weight(n, j - 1), Squared(k));
    }
  }

  function SumWeights(terms: seq<Term>): real {
    if terms == [] then 0.0 else SumWeights(terms[..|terms| - 1]) + terms[|terms| - 1].wt
  }

  lemma {:induction false} WeightsAdd(m: Maths, hs: seq<real>, n: nat)
    requires m.pi != 0.0 && 0 < |hs| <= n + 1
    ensures SumWeights(MeanTerms(m, hs, n)) / BETA2 == WeightPrefix(n, |hs| - 1)
  {
    var terms, k := MeanTerms(m, hs, n), |hs| - 1;
    assert terms[..k] == MeanTerms(m, hs[..k], n);
    if k > 0 { WeightsAdd(m, hs[..k], n); }
  }

  /** The weights of the performances and of the prior add up to the precision of the variance:
      none is lost, whatever the history. */
  lemma PrecisionSplit(m: Maths, p: real, past: seq<real>, t: nat)
    requires m.pi != 0.0 && |past| <= t + 1
    ensures SumWeights(MeanTerms(m, [p] + past, t + 1)) / BETA2 + Residual(t + 1, |past|) == 1.0 / Var(t + 1)
  {
    WeightsAdd(m, [p] + past, t + 1);
  }

  /** While the residual is positive the objective the mean is solved from increases strictly,
      whatever the history. */
  lemma MeanObjectiveIncreases(m: Maths, p: real, past: seq<real>, t: nat, x: real, y: real)
    requires Sound(m) && x < y
    requires |past| <= t || (|past| == t + 1 && t >= 4)
    ensures Positive(MeanTerms(m, [p] + past, t + 1))
    ensures var f := Objective(m.tanh, MeanTerms(m, [p] + past, t + 1), Residual(t + 1, |past|)); f(x) < f(y)
  {
    MeanTermsPositive(m, [p] + past, t + 1);
    ResidualExact(t, |past|);
    ObjectiveAt(m.tanh, MeanTerms(m, [p] + past, t + 1), Residual(t + 1, |past|), x, y);
  }

  /** The target of the mean: the residual weight times the prior that balances the past. */
  function PriorTarget(m: Maths, past: seq<Term>, oldMean: real, w0: real): real
    requires Positive(past) && w0 != 0.0
  {
    var p0 := EvalTanhs(m.tanh, past, oldMean) / w0 + oldMean;
    w0 * p0
  }

  /** The new mean of a contestant with performance p, `t` contests rated before. */
  ghost function NewMean(m: Maths, p: real, past: seq<real>, t: nat, oldMean: real, ceiling: Option<real>): real
    requires Sound(m) && |past| <= t + 1
  {
    MeanTermsPositive(m, [p] + past, t + 1);
    ResidualExact(t, |past|);
    var terms := MeanTerms(m, [p] + past, t + 1);
    assert Positive(terms[1..]);
    var w0 := Residual(t + 1, |past|);
    Solve(Objective(m.tanh, terms, w0), PriorTarget(m, terms[1..], oldMean, w0), LowBound(m), HighBound(m, ceiling))
  }

  /** At the old mean only the term of the new performance sets the objective apart from its
      target; at the new performance only the past does. */
  lemma MeanTargetMet(m: Maths, p: real, past: seq<real>, t: nat, oldMean: real)
    requires Sound(m) && m.tanh(0.0) == 0.0
    requires |past| <= t || (|past| == t + 1 && t >= 4)
    ensures Positive(MeanTerms(m, [p] + past, t + 1)) && Positive(MeanTerms(m, [p] + past, t + 1)[1..])
    ensures Residual(t + 1, |past|) > 0.0
    ensures var terms, w0 := MeanTerms(m, [p] + past, t + 1), Residual(t + 1, |past|);
      var f, y := Objective(m.tanh, terms, w0), PriorTarget(m, terms[1..], oldMean, w0);
      f(RealMin(p, oldMean)) <= y <= f(RealMax(p, oldMean))
  {
    MeanTermsPositive(m, [p] + past, t + 1);
    ResidualExact(t, |past|);
    var terms, w0 := MeanTerms(m, [p] + past, t + 1), Residual(t + 1, |past|);
    assert Positive(terms[1..]);
    PriorTargetIs(m, terms[1..], oldMean, w0);
    TermSign(m.tanh, terms[0], oldMean);
    TermSign(m.tanh, terms[0], p);
    ObjectiveMonotone(m.tanh, terms[1..], w0);
    Apart(Objective(m.tanh, terms[1..], w0), RealMin(p, oldMean), RealMax(p, oldMean));
  }

  /** The target is what the past and the linear part come to at the old mean. */
  lemma PriorTargetIs(m: Maths, past: seq<Term>, oldMean: real, w0: real)
    requires Positive(past) && w0 != 0.0
    ensures PriorTarget(m, past, oldMean, w0) == Objective(m.tanh, past, w0)(oldMean)
  {
    var e := EvalTanhs(m.tanh, past, oldMean);
    assert w0 * (e / w0) == e;
    assert w0 * (e / w0 + oldMean) == w0 * (e / w0) + w0 * oldMean;
  }

  /** A term pulls towards its centre. */
  lemma TermSign(tanh: real -> real, t: Term, x: real)
    requires Nondecreasing(tanh) && tanh(0.0) == 0.0 && t.sd > 0.0 && t.wt >= 0.0
    ensures x >= t.mu ==> TermAt(tanh, t, x) >= 0.0
    ensures x <= t.mu ==> TermAt(tanh, t, x) <= 0.0
  {
    var at := t.(mu := x);
    assert (x - x) / (2.0 * t.sd) == 0.0;
    assert TermAt(tanh, at, x) == 0.0;
    if x >= t.mu { TermMonotone(tanh, at, t, x, x); }
    if x <= t.mu { TermMonotone(tanh, t, at, x, x); }
  }

  /** A term at u times twice its spread from its centre. */
  lemma TermScale(tanh: real -> real, t: Term, u: real)
    requires t.sd > 0.0
    ensures Times(TermAt(tanh, t, t.mu + Times(2.0 * t.sd, u)), t.sd) == Times(t.wt, tanh(u))
  {
    assert Times(2.0 * t.sd, u) / (2.0 * t.sd) == u;
    assert t.mu + Times(2.0 * t.sd, u) - t.mu == Times(2.0 * t.sd, u);
    ScaleBack(t.wt, t.sd, tanh(u));
  }

  lemma ScaleBack(w: real, d: real, v: real)
    requires d > 0.0
    ensures Times((w / d) * v, d) == Times(w, v)
  {
    assert (w / d) * d == w;
  }

  /** The new mean lies between the old mean and the new performance, to within 2 and as far as
      the bounds let it: nothing else moves a mean. */
  lemma NewMeanBetween(m: Maths, p: real, past: seq<real>, t: nat, oldMean: real, ceiling: Option<real>)
    requires Sound(m) && m.tanh(0.0) == 0.0 && LowBound(m) <= HighBound(m, ceiling)
    requires |past| <= t || (|past| == t + 1 && t >= 4)
    ensures
      RealMin(RealMin(p, oldMean) - 2.0, HighBound(m, ceiling))
        <= NewMean(m, p, past, t, oldMean, ceiling)
        <= RealMax(RealMax(p, oldMean) + 2.0, LowBound(m))
  {
    MeanTargetMet(m, p, past, t, oldMean);
    var terms, w0 := MeanTerms(m, [p] + past, t + 1), Residual(t + 1, |past|);
    var f, y := Objective(m.tanh, terms, w0), PriorTarget(m, terms[1..], oldMean, w0);
    forall u, v | Below(u, v) ensures f(u) < f(v) { ObjectiveAt(m.tanh, terms, w0, u, v); }
    SolveNear(f, y, LowBound(m), HighBound(m, ceiling), RealMin(p, oldMean), RealMax(p, oldMean));
  }

  /** With all else fixed a higher performance never lowers the new mean when the bounds are not
      crossed, and never raises it when they are. */
  lemma NewMeanMonotone(m: Maths, p: real, p': real, past: seq<real>, t: nat, oldMean: real, ceiling: Option<real>)
    requires Sound(m) && |past| <= t + 1 && p <= p'
    ensures var mean, mean' := NewMean(m, p, past, t, oldMean, ceiling), NewMean(m, p', past, t, oldMean, ceiling);
      if LowBound(m) <= HighBound(m, ceiling) then mean <= mean' else mean >= mean'
  {
    MeanTermsPositive(m, [p] + past, t + 1);
    MeanTermsPositive(m, [p'] + past, t + 1);
    var terms, terms' := MeanTerms(m, [p] + past, t + 1), MeanTerms(m, [p'] + past, t + 1);
    assert terms[1..] == terms'[1..];
    var w0 := Residual(t + 1, |past|);
    ResidualExact(t, |past|);
    assert Positive(terms[1..]);
    var y := PriorTarget(m, terms[1..], oldMean, w0);
    HigherFirstTerm(m.tanh, terms, terms', w0);
    var f, f' := Objective(m.tanh, terms, w0), Objective(m.tanh, terms', w0);
    if LowBound(m) <= HighBound(m, ceiling) {
      SolveMonotone(f, y, f', y, LowBound(m), HighBound(m, ceiling));
    } else {
      SolveAntitone(f, y, f', y, LowBound(m), HighBound(m, ceiling));
    }
  }

  /** Moving the centre of the first term up lowers the objective everywhere. */
  lemma HigherFirstTerm(tanh: real -> real, terms: seq<Term>, terms': seq<Term>, lin: real)
    requires Nondecreasing(tanh) && Positive(terms) && Positive(terms')
    requires |terms| == |terms'| > 0 && terms[1..] == terms'[1..]
    requires terms[0].mu <= terms'[0].mu && terms[0].sd == terms'[0].sd && terms[0].wt == terms'[0].wt
    ensures forall x :: Objective(tanh, terms, lin)(x) >= Objective(tanh, terms', lin)(x)
  {
    forall x ensures Objective(tanh, terms, lin)(x) >= Objective(tanh, terms', lin)(x) {
      TermMonotone(tanh, terms'[0], terms[0], x, x);
    }
  }

  // ---------- the displayed rating ----------

  function SdLim(m: Maths): real { m.sqrt(VarLim(m.sqrt(DISCRIMINANT))) }

  function Displayed(m: Maths, mean: real, t: nat): int {
    var shown := m.round(mean - (m.sqrt(Var(t + 1)) - SdLim(m)));
    if shown > 1 then shown else 1
  }

  /** The displayed rating follows the mean, never exceeds it, and for the same mean grows with
      the number of contests. */
  lemma DisplayedSound(m: Maths, mean: real, mean': real, t: nat)
    requires Sound(m) && mean <= mean'
    ensures Displayed(m, mean, t) <= Displayed(m, mean', t)
    ensures Displayed(m, mean, t) <= if m.round(mean) > 1 then m.round(mean) else 1
    ensures Displayed(m, mean, t) <= Displayed(m, mean, t + 1)
  {
    var root := m.sqrt(DISCRIMINANT);
    assert IsSqrt(root, DISCRIMINANT);
    LimitRoot(root);
    assert IsSqrt(SdLim(m), VarLim(root));
    DeductionShrinks(t + 1, root, SdLim(m), m.sqrt(Var(t + 1)), m.sqrt(Var(t + 2)));
  }

  /** With rounding to the nearest the displayed rating is the mean less what the deviation still
      has to shrink by, to within a half, or else 1. */
  lemma DisplayedExact(m: Maths, mean: real, t: nat, deviation: real, limit: real)
    requires Sound(m) && forall x :: -0.5 <= m.round(x) as real - x <= 0.5
    requires IsSqrt(deviation, Var(t + 1)) && IsSqrt(limit, VarLim(m.sqrt(DISCRIMINANT)))
    ensures Displayed(m, mean, t) >= 1
    ensures var shown := Displayed(m, mean, t) as real + deviation - limit;
      mean - 0.5 <= shown && (shown <= mean + 0.5 || Displayed(m, mean, t) == 1)
  {
    LimitRoot(m.sqrt(DISCRIMINANT));
    SameRoot(deviation, m.sqrt(Var(t + 1)));
    SameRoot(limit, SdLim(m));
  }

  lemma SameRoot(a: real, b: real)
    requires a >= 0.0 && b >= 0.0 && a * a == b * b
    ensures a == b
  {
    assert Times(a - b, a + b) == 0.0;
    if a < b { TimesPositive(b - a, a + b); }
    if b < a { TimesPositive(a - b, a + b); }
  }

  lemma RatingMonotone(m: Maths, p: real, p': real, past: seq<real>, t: nat, oldMean: real, ceiling: Option<real>)
    requires Sound(m) && |past| <= t + 1 && p <= p'
    ensures var mean, mean' := NewMean(m, p, past, t, oldMean, ceiling), NewMean(m, p', past, t, oldMean, ceiling);
      if LowBound(m) <= HighBound(m, ceiling) then Displayed(m, mean, t) <= Displayed(m, mean', t)
      else Displayed(m, mean, t) >= Displayed(m, mean', t)
  {
    var mean, mean' := NewMean(m, p, past, t, oldMean, ceiling), NewMean(m, p', past, t, oldMean, ceiling);
    NewMeanMonotone(m, p, p', past, t, oldMean, ceiling);
    if mean <= mean' { DisplayedSound(m, mean, mean', t); } else { DisplayedSound(m, mean', mean, t); }
  }
}
