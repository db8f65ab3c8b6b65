/** What the targets of a contest mean: they are a zero-sum count of wins and losses. */
module RatingTargets {
  import opened Basics
  import opened RealArithmetic
  import opened Ratings
  import opened TieRanker
  import opened Variance

  // ---------- wins and losses cancel ----------

  /** The targets, over n contestants, of the first k of them, each divided by its spread. */
  function Balance(ranking: seq<real>, ds: seq<real>, k: nat, n: nat): real
    requires k <= |ranking| == |ds| && n <= |ranking| && AllPositive(ds)
  {
    if k == 0 then 0.0
    else Balance(ranking, ds, k - 1, n) + Times(1.0 / ds[k - 1], Target(ranking, ds, ranking[k - 1], n))
  }

  /** What one more contestant takes from the others it gets itself. */
  lemma {:induction false} BalanceStep(ranking: seq<real>, ds: seq<real>, k: nat, n: nat)
    requires k <= |ranking| == |ds| && n < |ranking| && AllPositive(ds)
    ensures Balance(ranking, ds, k, n + 1)
         == Balance(ranking, ds, k, n) - Times(1.0 / ds[n], Target(ranking, ds, ranking[n], k))
  {
    if k > 0 {
      BalanceStep(ranking, ds, k - 1, n);
      var a, b := 1.0 / ds[k - 1], 1.0 / ds[n];
      var mine, before := Target(ranking, ds, ranking[k - 1], n), Target(ranking, ds, ranking[n], k - 1);
      Opposite(a, b, mine, before, ranking[k - 1], ranking[n]);
    }
  }

  lemma Opposite(a: real, b: real, mine: real, before: real, r: real, s: real)
    ensures Times(a, mine + if s > r then b else if s < r then -b else 0.0) - Times(a, mine)
         == Times(b, before) - Times(b, before + if r > s then a else if r < s then -a else 0.0)
  {
  }

  /** Whatever the ranking, ties and spreads: each target divided by its spread, the whole contest
      adds up to zero. */
  lemma {:induction false} TargetsCancel(ranking: seq<real>, ds: seq<real>, n: nat)
    requires n <= |ranking| == |ds| && AllPositive(ds)
    ensures Balance(ranking, ds, n, n) == 0.0
  {
    if n > 0 {
      TargetsCancel(ranking, ds, n - 1);
      BalanceStep(ranking, ds, n - 1, n - 1);
    }
  }

  // ---------- the target and the rank ----------

  /** The ranks of other runs are smaller before the run of i and greater after it. */
  lemma RanksAround<K>(keys: seq<K>, i: nat, j: nat)
    requires i < |keys| && j < |keys|
    ensures j < RunStart(keys, i) ==> Rank(keys, j) < Rank(keys, i)
    ensures RunStart(keys, i) <= j < RunEnd(keys, i) ==> Rank(keys, j) == Rank(keys, i)
    ensures j >= RunEnd(keys, i) ==> Rank(keys, j) > Rank(keys, i)
  {
    var s, e := RunStart(keys, i), RunEnd(keys, i);
    if s <= j < e {
      RunIs(keys, s, e, j);
    } else if j < s {
      assert RunEnd(keys, j) <= s;
    } else {
      assert RunStart(keys, j) >= e;
    }
  }

  /** All have the spread d, and the ranks are the tie ranker's. */
  ghost predicate OneSpread<K>(keys: seq<K>, ranking: seq<real>, ds: seq<real>, d: real) {
    && |keys| == |ranking| == |ds| && d > 0.0
    && forall k :: 0 <= k < |keys| ==> ranking[k] == Rank(keys, k) && ds[k] == d
  }

  /** What contestant n adds for the run [s, e). */
  function Share(d: real, n: nat, s: nat, e: nat): real
    requires d > 0.0
  {
    if n < s then -(1.0 / d) else if n < e then 0.0 else 1.0 / d
  }

  /** The contestants before the run of i count against it and those after it for it. */
  lemma {:induction false} TargetCounts<K>(keys: seq<K>, ranking: seq<real>, ds: seq<real>, d: real, i: nat, n: nat)
    requires OneSpread(keys, ranking, ds, d) && i < |keys| && n <= |keys|
    ensures Times(Target(ranking, ds, ranking[i], n), d) == Counted(n, RunStart(keys, i), RunEnd(keys, i))
  {
    if n > 0 {
      TargetCounts(keys, ranking, ds, d, i, n - 1);
      CountsOn(keys, ranking, ds, d, i, n - 1);
    } else {
      assert Times(0.0, d) == 0.0;
    }
  }

  lemma CountsOn<K>(keys: seq<K>, ranking: seq<real>, ds: seq<real>, d: real, i: nat, n: nat)
    requires OneSpread(keys, ranking, ds, d) && i < |keys| && n < |keys|
    ensures var s, e := RunStart(keys, i), RunEnd(keys, i);
      Times(Target(ranking, ds, ranking[i], n), d) == Counted(n, s, e) ==>
        Times(Target(ranking, ds, ranking[i], n + 1), d) == Counted(n + 1, s, e)
  {
    var s, e := RunStart(keys, i), RunEnd(keys, i);
    TargetStep(keys, ranking, ds, d, i, n);
    if Times(Target(ranking, ds, ranking[i], n), d) == Counted(n, s, e) {
      CountStep(Target(ranking, ds, ranking[i], n), d, n, s, e);
    }
  }

  function Counted(n: nat, s: nat, e: nat): real { (n - Min(n, e) - Min(n, s)) as real }

  lemma TargetStep<K>(keys: seq<K>, ranking: seq<real>, ds: seq<real>, d: real, i: nat, n: nat)
    requires OneSpread(keys, ranking, ds, d) && i < |keys| && n < |keys|
    ensures Target(ranking, ds, ranking[i], n + 1)
         == Target(ranking, ds, ranking[i], n) + Share(d, n, RunStart(keys, i), RunEnd(keys, i))
  {
    RanksAround(keys, i, n);
  }

  lemma CountStep(t: real, d: real, n: nat, s: nat, e: nat)
    requires d > 0.0 && s < e && Times(t, d) == Counted(n, s, e)
    ensures Times(t + Share(d, n, s, e), d) == Counted(n + 1, s, e)
  {
    AddReciprocal(t, d);
  }

  lemma AddReciprocal(a: real, d: real)
    requires d > 0.0
    ensures Times(a + 1.0 / d, d) == Times(a, d) + 1.0
    ensures Times(a + -(1.0 / d), d) == Times(a, d) - 1.0
    ensures Times(a + 0.0, d) == Times(a, d)
  {
    assert (1.0 / d) * d == 1.0;
  }

  /** So the target of rank r among n contestants of one spread is (n + 1 - 2r)/d. */
  lemma TargetOfRank<K>(keys: seq<K>, ranking: seq<real>, ds: seq<real>, d: real, i: nat)
    requires OneSpread(keys, ranking, ds, d) && i < |keys|
    ensures Times(Target(ranking, ds, ranking[i], |keys|), d) == |keys| as real + 1.0 - 2.0 * ranking[i]
  {
    TargetCounts(keys, ranking, ds, d, i, |keys|);
  }

  // ---------- what a performance balances ----------

  /** What playing at level x against one of mean mu and spread d should have brought, less what it
      brought: 1 for a win, -1 for a loss, 0 for a tie. */
  function Surprise(tanh: real -> real, x: real, mu: real, d: real, r: real, s: real): real
    requires d > 0.0
  {
    Times(1.0 / d, tanh((x - mu) / (2.0 * d)) - if r < s then 1.0 else if s < r then -1.0 else 0.0)
  }

  function Surprises(tanh: real -> real, x: real, means: seq<real>, ds: seq<real>, r: real, ranking: seq<real>): real
    requires |means| == |ds| == |ranking| && AllPositive(ds)
  {
    if ds == [] then 0.0
    else
      var n := |ds| - 1;
      Surprises(tanh, x, means[..n], ds[..n], r, ranking[..n]) + Surprise(tanh, x, means[n], ds[n], r, ranking[n])
  }

  /** The performance is solved from: objective less target is the sum of the surprises, so it is
      the level at which they cancel. */
  lemma {:induction false} PerformanceBalances(
    tanh: real -> real, x: real, means: seq<real>, ds: seq<real>, r: real, ranking: seq<real>)
    requires |means| == |ds| == |ranking| && AllPositive(ds)
    ensures Objective(tanh, PerfTerms(means, ds), 0.0)(x) - Target(ranking, ds, r, |ds|)
         == Surprises(tanh, x, means, ds, r, ranking)
    decreases |ds|
  {
    assert Times(0.0, x) == 0.0;
    if ds != [] {
      var n := |ds| - 1;
      var last := Term(means[n], ds[n], 1.0);
      PerformanceBalances(tanh, x, means[..n], ds[..n], r, ranking[..n]);
      assert PerfTerms(means, ds) == PerfTerms(means[..n], ds[..n]) + [last];
      EvalLast(tanh, PerfTerms(means[..n], ds[..n]), last, x);
      TargetPrefix(ranking, ds, r, n, n);
      OneSurprise(tanh, x, means[n], ds[n], r, ranking[n]);
    }
  }

  lemma {:induction false} EvalLast(tanh: real -> real, terms: seq<Term>, last: Term, x: real)
    requires Positive(terms + [last])
    ensures last in terms + [last] && Positive(terms)
    ensures EvalTanhs(tanh, terms + [last], x) == EvalTanhs(tanh, terms, x) + TermAt(tanh, last, x)
    decreases |terms|
  {
    assert (terms + [last])[|terms|] == last;
    forall t | t in terms ensures t in terms + [last] { }
    if terms != [] {
      assert (terms + [last])[1..] == terms[1..] + [last];
      EvalLast(tanh, terms[1..], last, x);
    } else {
      assert (terms + [last])[1..] == [];
    }
  }

  lemma {:induction false} TargetPrefix(ranking: seq<real>, ds: seq<real>, r: real, k: nat, n: nat)
    requires k <= n <= |ranking| == |ds| && AllPositive(ds)
    ensures Target(ranking, ds, r, k) == Target(ranking[..n], ds[..n], r, k)
  {
    if k > 0 { TargetPrefix(ranking, ds, r, k - 1, n); }
  }

  lemma OneSurprise(tanh: real -> real, x: real, mu: real, d: real, r: real, s: real)
    requires d > 0.0
    ensures Surprise(tanh, x, mu, d, r, s) == TermAt(tanh, Term(mu, d, 1.0), x)
              - if s > r then 1.0 / d else if s < r then -(1.0 / d) else 0.0
  {
  }

  /** The more contests, the smaller the spread. */
  lemma DeltaShrinks(m: Maths, t: nat)
    requires Sound(m)
    ensures 0.0 < Delta(m, t + 1) < Delta(m, t)
  {
    var root := m.sqrt(DISCRIMINANT);
    assert IsSqrt(root, DISCRIMINANT);
    VarDecreases(t, root);
    DeltaPositive(m, t + 1);
    TanhCPositive(m);
    DeltaIs(m, t);
    DeltaIs(m, t + 1);
    RootLess(m, TanhC(m), Var(t + 1) + VAR_PER_CONTEST + BETA2, Var(t) + VAR_PER_CONTEST + BETA2);
  }

  lemma DeltaIs(m: Maths, t: nat)
    requires Sound(m)
    ensures Delta(m, t) == Times(TanhC(m), m.sqrt(Var(t) + VAR_PER_CONTEST + BETA2))
  {
  }

  lemma RootLess(m: Maths, k: real, x: real, y: real)
    requires Sound(m) && k > 0.0 && 0.0 <= x < y
    ensures Times(k, m.sqrt(x)) < Times(k, m.sqrt(y))
  {
    SqrtLess(m.sqrt(x), m.sqrt(y));
    TimesMonotone(k, m.sqrt(x), m.sqrt(y));
  }
}
