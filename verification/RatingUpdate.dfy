/** The rating update as it runs: loops that fill the result arrays in place. */
module RatingUpdate {
  import opened Options
  import opened RealArithmetic
  import opened Bisection
  import opened Variance
  import opened Ratings
  import TieRanker

  method TargetOf(ranking: seq<real>, ds: seq<real>, i: nat) returns (y: real)
    requires i < |ranking| == |ds| && AllPositive(ds)
    ensures y == Targets(ranking, ds)[i]
  {
    y := 0.0;
    var r := ranking[i];
    for n := 0 to |ranking|
      invariant y == Target(ranking, ds, r, n)
    {
      var d, s := ds[n], ranking[n];
      if s > r {
        y := y + 1.0 / d;
      } else if s < r {
        y := y - 1.0 / d;
      }
    }
  }

  /** Solve one index inside the given bounds, store the result, and note the index. */
  method SolveIndex(f: real -> real, ranking: seq<real>, ds: seq<real>, p: array<real>, i: nat, lo: real, hi: real,
                    ghost solved: seq<nat>)
    returns (ghost now: seq<nat>)
    requires i < p.Length == |ranking| == |ds| && AllPositive(ds)
    modifies p
    ensures p[..] == old(p[..])[i := Solve(f, Targets(ranking, ds)[i], lo, hi)]
    ensures now == solved + [i]
  {
    var y := TargetOf(ranking, ds, i);
    p[i] := SolveLoop(f, y, lo, hi);
    now := solved + [i];
  }

  /** The recursion in place on the result array; `solved` are the indices noted so far. */
  method DivConqInPlace(f: real -> real, ranking: seq<real>, ds: seq<real>, p: array<real>, i: nat, j: nat,
                        ghost solved: seq<nat>)
    returns (ghost now: seq<nat>)
    requires p.Length == |ranking| == |ds| && AllPositive(ds) && i <= j < p.Length
    modifies p
    ensures p[..] == DivConq(f, Targets(ranking, ds), old(p[..]), i, j)
    ensures now == solved + Visits(i, j)
    decreases j - i
  {
    now := solved;
    if j - i > 1 {
      var k := (i + j) / 2;
      now := SolveIndex(f, ranking, ds, p, k, p[j], p[i], now);
      now := DivConqInPlace(f, ranking, ds, p, i, k, now);
      now := DivConqInPlace(f, ranking, ds, p, k, j, now);
      NotedInOrder(solved, k, Visits(i, k), Visits(k, j));
    }
  }

  lemma NotedInOrder(solved: seq<nat>, k: nat, left: seq<nat>, right: seq<nat>)
    ensures ((solved + [k]) + left) + right == solved + ([k] + left + right)
  {
  }

  /** The weight of the performance j contests back, from the one before it. */
  method WeightAt(n: nat, j: nat, wPrev: real, vars: VarCache) returns (w: real)
    requires vars.Valid() && j <= n && wPrev == if j == 0 then 1.0 else Weight(n, j - 1)
    modifies vars
    ensures vars.Valid() && w == Weight(n, j)
  {
    var gamma2 := if j > 0 then VAR_PER_CONTEST else 0.0;
    var hVar := vars.GetVar(n - j);
    var k := hVar.value / (hVar.value + gamma2);
    if j == 0 { OneSquared(k); }
    w := Times(wPrev, Squared(k));
  }

  lemma OneSquared(k: real)
    requires k == 1.0
    ensures Times(1.0, Squared(k)) == 1.0
  {
  }

  /** The terms of one contestant and their total weight, most recent performance first. */
  method CollectTerms(m: Maths, hs: seq<real>, t: nat, vars: VarCache) returns (terms: seq<Term>, wSum: real)
    requires Sound(m) && vars.Valid() && 1 <= |hs| <= t + 2
    modifies vars
    ensures vars.Valid()
    ensures terms == MeanTerms(m, hs, t + 1) && wSum == WeightPrefix(t + 1, |hs| - 1)
  {
    terms := [];
    var wPrev := 1.0;
    wSum := 0.0;
    var sd := TermSd(m);
    for j := 0 to |hs|
      invariant vars.Valid()
      invariant |terms| == j && forall k :: 0 <= k < j ==> terms[k] == Term(hs[k], sd, Weight(t + 1, k))
      invariant wPrev == if j == 0 then 1.0 else Weight(t + 1, j - 1)
      invariant wSum == if j == 0 then 0.0 else WeightPrefix(t + 1, j - 1)
    {
      var w := WeightAt(t + 1, j, wPrev, vars);
      terms := terms + [Term(hs[j], sd, w)];
      wPrev := w;
      wSum := wSum + w / BETA2;
    }
  }

  method NewMeanOf(m: Maths, p: real, past: seq<real>, t: nat, oldMean: real, ceiling: Option<real>, vars: VarCache)
    returns (mean: real)
    requires Sound(m) && vars.Valid() && |past| <= t + 1
    modifies vars
    ensures vars.Valid() && mean == NewMean(m, p, past, t, oldMean, ceiling)
  {
    var terms, wSum := CollectTerms(m, [p] + past, t, vars);
    MeanTermsPositive(m, [p] + past, t + 1);
    ResidualExact(t, |past|);
    var v := vars.GetVar(t + 1);
    var w0 := 1.0 / v.value - wSum;
    assert w0 == Residual(t + 1, |past|);
    assert Positive(terms[1..]);
    var target := PriorTarget(m, terms[1..], oldMean, w0);
    mean := SolveLoop(Objective(m.tanh, terms, w0), target, LowBound(m), HighBound(m, ceiling));
  }

  /** The whole update.  With fewer than two contestants nobody's performance or mean changes. */
  method RecalculateRatings(m: Maths, ranking: seq<real>, oldMean: seq<real>, times: seq<nat>,
                            past: seq<seq<real>>, ceiling: Option<real>, vars: VarCache)
    returns (newRating: seq<int>, newMean: seq<real>, newP: seq<real>)
    requires Sound(m) && vars.Valid()
    requires |ranking| == |oldMean| == |times| == |past|
    requires forall i :: 0 <= i < |past| ==> |past[i]| <= times[i] + 1
    modifies vars
    ensures vars.Valid() && |newRating| == |newMean| == |newP| == |ranking|
    ensures |ranking| < 2 ==> newP == oldMean && newMean == oldMean
    ensures |ranking| >= 2 ==>
      AllPositive(Deltas(m, times)) && newP == ContestPerformances(m, ranking, oldMean, Deltas(m, times), ceiling)
    ensures |ranking| >= 2 ==> forall i :: 0 <= i < |ranking| ==>
      newMean[i] == NewMean(m, newP[i], past[i], times[i], oldMean[i], ceiling)
    ensures forall i :: 0 <= i < |ranking| ==> newRating[i] == Displayed(m, newMean[i], times[i])
  {
    var n := |ranking|;
    if n < 2 {
      newP, newMean := oldMean, oldMean;
    } else {
      var ds := ComputeDeltas(m, times, vars);
      newP := FillPerformances(m, ranking, oldMean, ds, ceiling);
      newMean := FillMeans(m, newP, past, times, oldMean, ceiling, vars);
    }
    newRating := FillRatings(m, newMean, times, vars);
  }

  method FillMeans(m: Maths, newP: seq<real>, past: seq<seq<real>>, times: seq<nat>, oldMean: seq<real>,
                   ceiling: Option<real>, vars: VarCache)
    returns (newMean: seq<real>)
    requires Sound(m) && vars.Valid()
    requires |newP| == |oldMean| == |times| == |past|
    requires forall i :: 0 <= i < |past| ==> |past[i]| <= times[i] + 1
    modifies vars
    ensures vars.Valid() && |newMean| == |newP|
    ensures forall i :: 0 <= i < |newP| ==> newMean[i] == NewMean(m, newP[i], past[i], times[i], oldMean[i], ceiling)
  {
    newMean := [];
    for i := 0 to |newP|
      invariant vars.Valid() && |newMean| == i
      invariant forall k :: 0 <= k < i ==> newMean[k] == NewMean(m, newP[k], past[k], times[k], oldMean[k], ceiling)
    {
      var mean := NewMeanOf(m, newP[i], past[i], times[i], oldMean[i], ceiling, vars);
      newMean := newMean + [mean];
    }
  }

  method FillRatings(m: Maths, newMean: seq<real>, times: seq<nat>, vars: VarCache) returns (newRating: seq<int>)
    requires Sound(m) && vars.Valid() && |newMean| == |times|
    modifies vars
    ensures vars.Valid() && |newRating| == |newMean|
    ensures forall i :: 0 <= i < |newMean| ==> newRating[i] == Displayed(m, newMean[i], times[i])
  {
    newRating := [];
    for i := 0 to |newMean|
      invariant vars.Valid() && |newRating| == i
      invariant forall k :: 0 <= k < i ==> newRating[k] == Displayed(m, newMean[k], times[k])
    {
      var v := vars.GetVar(times[i] + 1);
      var shown := m.round(newMean[i] - (m.sqrt(v.value) - SdLim(m)));
      newRating := newRating + [if shown > 1 then shown else 1];
    }
  }

  method ComputeDeltas(m: Maths, times: seq<nat>, vars: VarCache) returns (ds: seq<real>)
    requires Sound(m) && vars.Valid()
    modifies vars
    ensures vars.Valid() && ds == Deltas(m, times) && AllPositive(ds)
  {
    ds := [];
    for i := 0 to |times|
      invariant vars.Valid() && |ds| == i
      invariant forall k :: 0 <= k < i ==> ds[k] == Delta(m, times[k])
    {
      var v := vars.GetVar(times[i]);
      ds := ds + [TanhC(m) * m.sqrt(v.value + VAR_PER_CONTEST + BETA2)];
    }
    forall i | 0 <= i < |ds| ensures ds[i] > 0.0 { DeltaPositive(m, times[i]); }
  }

  method FillPerformances(m: Maths, ranking: seq<real>, oldMean: seq<real>, ds: seq<real>, ceiling: Option<real>)
    returns (newP: seq<real>)
    requires |ranking| == |oldMean| == |ds| >= 2 && AllPositive(ds)
    ensures newP == ContestPerformances(m, ranking, oldMean, ds, ceiling)
  {
    var f := Objective(m.tanh, PerfTerms(oldMean, ds), 0.0);
    ghost var solved;
    newP, solved := FillBetween(f, ranking, ds, LowBound(m), HighBound(m, ceiling));
  }

  /** The two ends, then everything between them: every index is solved exactly once. */
  method FillBetween(f: real -> real, ranking: seq<real>, ds: seq<real>, lo: real, hi: real)
    returns (q: seq<real>, ghost solved: seq<nat>)
    requires |ranking| == |ds| >= 2 && AllPositive(ds)
    ensures q == Performances(f, Targets(ranking, ds), lo, hi)
    ensures forall k: nat :: multiset(solved)[k] == if k < |ranking| then 1 else 0
  {
    var n := |ranking|;
    var p := new real[n](_ => 0.0);
    solved := SolveIndex(f, ranking, ds, p, 0, lo, hi, []);
    solved := SolveIndex(f, ranking, ds, p, n - 1, lo, hi, solved);
    ghost var ys := Targets(ranking, ds);
    assert p[..] == Ends(n, Solve(f, ys[0], lo, hi), Solve(f, ys[n - 1], lo, hi));
    solved := DivConqInPlace(f, ranking, ds, p, 0, n - 1, solved);
    q := p[..];
    SolvedOnce(solved, Visits(0, n - 1), 0, n - 1);
  }

  lemma SolvedOnce(solved: seq<nat>, visits: seq<nat>, i: nat, j: nat)
    requires i < j && visits == Visits(i, j) && solved == [] + [i] + [j] + visits
    ensures forall k: nat :: multiset(solved)[k] == if i <= k <= j then 1 else 0
  {
    forall k: nat ensures multiset(solved)[k] == if i <= k <= j then 1 else 0 {
      VisitsEachOnce(i, j, k);
      EndsToo(solved, visits, i, j, k);
    }
  }

  lemma EndsToo(solved: seq<nat>, visits: seq<nat>, i: nat, j: nat, k: nat)
    requires i < j && solved == [] + [i] + [j] + visits && multiset(visits)[k] == if i < k < j then 1 else 0
    ensures multiset(solved)[k] == if i <= k <= j then 1 else 0
  {
    assert solved == [i] + [j] + visits;
    Occurrences([i], [j], visits, k);
  }

  /** The ranking a contest passes in is the tie ranker's, so it is in order, and the
      performances of a contest never increase along it; with a ceiling below the valid range
      they never decrease. */
  lemma ContestInOrder<K>(m: Maths, keys: seq<K>, ranking: seq<real>, means: seq<real>, ds: seq<real>,
                          ceiling: Option<real>)
    requires Sound(m) && |keys| == |ranking| == |means| == |ds| >= 2 && AllPositive(ds)
    requires forall i :: 0 <= i < |keys| ==> ranking[i] == TieRanker.Rank(keys, i)
    ensures var ps := ContestPerformances(m, ranking, means, ds, ceiling);
      if ceiling.None? || LowBound(m) <= ceiling.value then NonincreasingSeq(ps) else NondecreasingSeq(ps)
  {
    forall i, j | 0 <= i <= j < |keys| ensures ranking[i] <= ranking[j] { TieRanker.RanksNondecreasing(keys, i, j); }
    BoundsInOrder(m, ceiling);
    PerformancesSound(m, ranking, means, ds, ceiling);
  }
}
