/** Weighted performance points: the best score of each problem, in descending order, times a
    decreasing table of weights, plus a bonus for the number of solved problems. */
module PerformancePoints {
  import opened Options
  import opened RealArithmetic

  // ---------- the table ----------

  function Pow(x: real, n: nat): real {
    if n == 0 then 1.0 else Times(x, Pow(x, n - 1))
  }

  function Table(step: real, entries: nat): (table: seq<real>)
    ensures |table| == entries && forall i :: 0 <= i < entries ==> table[i] == Pow(step, i)
  {
    seq(entries, i requires 0 <= i < entries => Pow(step, i))
  }

  lemma {:induction false} PowDecreases(x: real, n: nat)
    requires 0.0 < x <= 1.0
    ensures 0.0 < Pow(x, n + 1) <= Pow(x, n) <= 1.0
  {
    if n == 0 { TimesOne(x); } else { PowDecreases(x, n - 1); }
    TimesPositive(x, Pow(x, n));
    WeakScaleRight(Pow(x, n), x, 1.0);
  }

  /** Powers: the weight of rank a + b is the product of those of a and b. */
  lemma {:induction false} PowAdds(x: real, a: nat, b: nat)
    ensures Pow(x, a + b) == Times(Pow(x, a), Pow(x, b)) && Pow(x, 1) == x && Pow(x, 0) == 1.0
  {
    TimesOne(x);
    if a == 0 { TimesOne(Pow(x, b)); } else {
      PowAdds(x, a - 1, b);
      TimesAssociative(x, Pow(x, a - 1), Pow(x, b));
    }
  }

  ghost predicate Weights(table: seq<real>) {
    && (forall i :: 0 <= i < |table| ==> table[i] >= 0.0)
    && (forall i :: 0 <= i < |table| - 1 ==> table[i] >= table[i + 1])
  }

  lemma TableIsWeights(step: real, entries: nat)
    requires 0.0 < step <= 1.0
    ensures Weights(Table(step, entries))
  {
    forall i | 0 <= i < entries ensures Table(step, entries)[i] >= 0.0 { PowDecreases(step, i); }
    forall i | 0 <= i < entries - 1 ensures Table(step, entries)[i] >= Table(step, entries)[i + 1] {
      PowDecreases(step, i);
    }
  }

  // ---------- the computation ----------

  /** Sum of the first k products. */
  function Dot(w: seq<real>, a: seq<real>, k: nat): real
    requires k <= |w| && k <= |a|
  {
    if k == 0 then 0.0 else Dot(w, a, k - 1) + Times(w[k - 1], a[k - 1])
  }

  function Sum(s: seq<real>): real {
    if s == [] then 0.0 else s[0] + Sum(s[1..])
  }

  function Entries(table: seq<real>, data: seq<real>): nat {
    if |data| < |table| then |data| else |table|
  }

  function WeightedPart(table: seq<real>, data: seq<real>): real {
    Dot(table, data, Entries(table, data))
  }

  function Bonus(solved: nat): real {
    Times(300.0, 1.0 - Pow(0.997, solved))
  }

  /** No problem solved brings nothing; each further one brings 0.3% of what is missing to 300. */
  lemma BonusSteps(solved: nat)
    ensures Bonus(0) == 0.0
    ensures Bonus(solved + 1) - Bonus(solved) == Times(0.003, 300.0 - Bonus(solved))
  {
  }

  function Points(table: seq<real>, data: seq<real>, solved: nat): real {
    WeightedPart(table, data) + Bonus(solved)
  }

  /** The query result: all best scores, in descending order. */
  ghost predicate Ranked(best: seq<real>, data: seq<real>) {
    multiset(best) == multiset(data) && Descending(data)
  }

  ghost predicate Descending(data: seq<real>) {
    forall i, j :: 0 <= i <= j < |data| ==> data[i] >= data[j]
  }

  ghost predicate Nonnegative(s: seq<real>) {
    forall i :: 0 <= i < |s| ==> s[i] >= 0.0
  }

  class Profile {
    var points: real
    var problemCount: nat
    var performancePoints: real

    constructor () { points, problemCount, performancePoints := 0.0, 0, 0.0; }

    /** Recompute the three figures; they are stored only when one of them has changed. */
    method CalculatePoints(data: seq<real>, solved: nat, table: seq<real>) returns (total: real, stored: bool)
      modifies this
      ensures total == points == Sum(data) && problemCount == solved
      ensures performancePoints == Points(table, data, solved)
      ensures stored <==>
        old(points) != points || old(problemCount) != problemCount || old(performancePoints) != performancePoints
    {
      total := Sum(data);
      var pp := WeightedPart(table, data) + Bonus(solved);
      stored := points != total || problemCount != solved || performancePoints != pp;
      if stored { points, problemCount, performancePoints := total, solved, pp; }
    }
  }

  // ---------- assignments of weights to problems ----------

  /** Weight r goes to problem pick[r], if any; no problem gets two weights. */
  ghost predicate Assignment(pick: seq<Option<nat>>, problems: nat) {
    && (forall r :: 0 <= r < |pick| && pick[r].Some? ==> pick[r].value < problems)
    && (forall r, q :: 0 <= r < q < |pick| && pick[r].Some? && pick[q].Some? ==> pick[r].value != pick[q].value)
  }

  function Scores(best: seq<real>, pick: seq<Option<nat>>): (a: seq<real>)
    ensures |a| == |pick|
  {
    seq(|pick|, r requires 0 <= r < |pick| =>
      if pick[r].Some? && pick[r].value < |best| then best[pick[r].value] else 0.0)
  }

  // ---------- sums of sequences ----------

  lemma {:induction false} SumAppend(s: seq<real>, x: real)
    ensures Sum(s + [x]) == Sum(s) + x
  {
    if s != [] {
      assert (s + [x])[1..] == s[1..] + [x];
      SumAppend(s[1..], x);
    }
  }

  function RemoveAt<T>(s: seq<T>, t: nat): seq<T>
    requires t < |s|
  {
    s[..t] + s[t + 1..]
  }

  lemma {:induction false} SumRemove(s: seq<real>, t: nat)
    requires t < |s|
    ensures Sum(s) == s[t] + Sum(RemoveAt(s, t))
  {
    if t == 0 {
      assert RemoveAt(s, 0) == s[1..];
    } else {
      assert RemoveAt(s, t)[1..] == RemoveAt(s[1..], t - 1);
      SumRemove(s[1..], t - 1);
    }
  }

  lemma MultisetRemove<T>(s: seq<T>, t: nat)
    requires t < |s|
    ensures multiset(s) == multiset(RemoveAt(s, t)) + multiset{s[t]}
  {
    assert s == s[..t] + [s[t]] + s[t + 1..];
  }

  lemma DropOne(c: seq<real>, d: real, rest: seq<real>, t: nat)
    requires t < |c| && multiset(c) <= multiset{d} + multiset(rest)
    requires d in c ==> c[t] == d
    ensures multiset(RemoveAt(c, t)) <= multiset(rest)
  {
    MultisetRemove(c, t);
    forall x ensures multiset(RemoveAt(c, t))[x] <= multiset(rest)[x] {
      assert multiset(c)[x] <= multiset{d}[x] + multiset(rest)[x];
      if x == d && d !in c { assert multiset(c)[x] == 0; }
    }
  }

  lemma RemoveSame<T>(a: seq<T>, s: nat, b: seq<T>, t: nat)
    requires s < |a| && t < |b| && a[s] == b[t] && multiset(a) == multiset(b)
    ensures multiset(RemoveAt(a, s)) == multiset(RemoveAt(b, t))
  {
    MultisetRemove(a, s);
    MultisetRemove(b, t);
    forall x ensures multiset(RemoveAt(a, s))[x] == multiset(RemoveAt(b, t))[x] {
      assert multiset(a)[x] == multiset(b)[x];
    }
  }

  lemma SubLength(c: seq<real>, data: seq<real>)
    requires multiset(c) <= multiset(data)
    ensures |c| <= |data|
  {
    assert |multiset(data) - multiset(c)| == |multiset(data)| - |multiset(c)|;
  }

  /** A member of a descending sequence is at most its first. */
  lemma AtMostFirst(c: seq<real>, data: seq<real>, t: nat)
    requires Descending(data) && multiset(c) <= multiset(data) && t < |c|
    ensures data != [] && c[t] <= data[0]
  {
    assert c[t] in multiset(c);
    assert c[t] in data;
  }

  lemma SumFirst(data: seq<real>, n: nat)
    requires 0 < n <= |data|
    ensures Sum(data[..n]) == data[0] + Sum(data[1..][..n - 1])
  {
    assert data[..n][1..] == data[1..][..n - 1];
  }

  /** No choice of members of a descending sequence beats its beginning. */
  lemma {:induction false} TopSum(c: seq<real>, data: seq<real>)
    requires Descending(data) && multiset(c) <= multiset(data)
    ensures |c| <= |data| && Sum(c) <= Sum(data[..|c|])
  {
    SubLength(c, data);
    if c != [] {
      var t := MatchFirst(c, data);
      SumRemove(c, t);
      TopSum(RemoveAt(c, t), data[1..]);
      SumFirst(data, |c|);
    }
  }

  /** A choice to leave out together with the first, greatest value. */
  lemma MatchFirst(c: seq<real>, data: seq<real>) returns (t: nat)
    requires Descending(data) && multiset(c) <= multiset(data) && c != [] && data != []
    ensures t < |c| && c[t] <= data[0] && multiset(RemoveAt(c, t)) <= multiset(data[1..])
  {
    var d, rest := data[0], data[1..];
    assert data == [d] + rest;
    t := if d in c then PositionOf(c, d) else 0;
    DropOne(c, d, rest, t);
    AtMostFirst(c, data, t);
  }

  function PositionOf(c: seq<real>, d: real): (t: nat)
    requires d in c
    ensures t < |c| && c[t] == d
  {
    if c[0] == d then 0 else 1 + PositionOf(c[1..], d)
  }

  // ---------- dominance of prefix sums ----------

  /** Weights that do not increase turn dominance of all prefix sums into dominance of the
      weighted sum (summation by parts). */
  lemma {:induction false} PrefixDominance(w: seq<real>, a: seq<real>, b: seq<real>, k: nat)
    requires Weights(w) && 0 < k <= |w| && k <= |a| && k <= |b|
    requires forall j :: 0 <= j <= k ==> Sum(a[..j]) <= Sum(b[..j])
    ensures Dot(w, b, k) - Dot(w, a, k) >= Times(w[k - 1], Sum(b[..k]) - Sum(a[..k]))
    ensures Dot(w, a, k) <= Dot(w, b, k)
  {
    var d := Sum(b[..k]) - Sum(a[..k]);
    assert a[..k] == a[..k - 1] + [a[k - 1]] && b[..k] == b[..k - 1] + [b[k - 1]];
    SumAppend(a[..k - 1], a[k - 1]);
    SumAppend(b[..k - 1], b[k - 1]);
    assert Sum(a[..k]) <= Sum(b[..k]);
    TimesNonnegative(w[k - 1], d);
    if k == 1 {
      assert a[..0] == [] && b[..0] == [];
      ByParts(w[0], w[0], 0.0, b[0], a[0]);
    } else {
      var e := Sum(b[..k - 1]) - Sum(a[..k - 1]);
      PrefixDominance(w, a, b, k - 1);
      assert Sum(a[..k - 1]) <= Sum(b[..k - 1]);
      ByParts(w[k - 2], w[k - 1], e, b[k - 1], a[k - 1]);
    }
  }

  lemma TimesNonnegative(x: real, y: real)
    requires x >= 0.0 && y >= 0.0
    ensures Times(x, y) >= 0.0
  {
  }

  lemma ByParts(v: real, w: real, e: real, x: real, y: real)
    requires v >= w && e >= 0.0
    ensures Times(v, e) + Times(w, x) - Times(w, y) >= Times(w, e + x - y)
  {
  }

  // ---------- distinct picks are a sub-multiset ----------

  ghost predicate Within(idx: seq<nat>, n: nat) {
    forall r :: 0 <= r < |idx| ==> idx[r] < n
  }

  ghost function ValuesAt(best: seq<real>, idx: seq<nat>): (c: seq<real>)
    requires Within(idx, |best|)
    ensures |c| == |idx|
  {
    seq(|idx|, r requires 0 <= r < |idx| => best[idx[r]])
  }

  ghost predicate Distinct(idx: seq<nat>) {
    forall r, q :: 0 <= r < q < |idx| ==> idx[r] != idx[q]
  }

  /** Leaving out the pick of the last value. */
  lemma LeaveOut(best: seq<real>, idx: seq<nat>, t: nat)
    requires Distinct(idx) && Within(idx, |best|) && t < |idx| && idx[t] == |best| - 1
    ensures var rest := RemoveAt(idx, t);
      && Distinct(rest) && Within(rest, |best| - 1)
      && ValuesAt(best[..|best| - 1], rest) == RemoveAt(ValuesAt(best, idx), t)
  {
    var rest := RemoveAt(idx, t);
    forall r | 0 <= r < |rest| ensures rest[r] < |best| - 1 {
      assert rest[r] == idx[if r < t then r else r + 1];
    }
  }

  /** When the last value is not picked it may be dropped. */
  lemma DropUnpicked(best: seq<real>, idx: seq<nat>)
    requires best != [] && Within(idx, |best|) && forall r :: 0 <= r < |idx| ==> idx[r] != |best| - 1
    ensures Within(idx, |best| - 1) && ValuesAt(best[..|best| - 1], idx) == ValuesAt(best, idx)
  {
  }

  lemma LastValue(best: seq<real>)
    requires best != []
    ensures multiset(best) == multiset(best[..|best| - 1]) + multiset{best[|best| - 1]}
  {
    assert best == best[..|best| - 1] + [best[|best| - 1]];
  }

  lemma AddBoth(c: multiset<real>, best: multiset<real>, x: real)
    requires c <= best
    ensures c + multiset{x} <= best + multiset{x}
  {
  }

  lemma {:induction false} DistinctValues(best: seq<real>, idx: seq<nat>)
    requires Distinct(idx) && Within(idx, |best|)
    ensures multiset(ValuesAt(best, idx)) <= multiset(best)
    decreases |best|
  {
    if idx != [] {
      assert idx[0] < |best|;
      var last := |best| - 1;
      if t :| 0 <= t < |idx| && idx[t] == last {
        PickedLast(best, idx, t);
        DistinctValues(best[..last], RemoveAt(idx, t));
        AddBoth(multiset(ValuesAt(best[..last], RemoveAt(idx, t))), multiset(best[..last]), best[last]);
      } else {
        LastValue(best);
        DropUnpicked(best, idx);
        DistinctValues(best[..last], idx);
      }
    }
  }

  /** The values when the last one is picked, without it and with it. */
  lemma PickedLast(best: seq<real>, idx: seq<nat>, t: nat)
    requires Distinct(idx) && Within(idx, |best|) && t < |idx| && idx[t] == |best| - 1
    ensures var init, rest, x := best[..|best| - 1], RemoveAt(idx, t), best[|best| - 1];
      && Distinct(rest) && Within(rest, |init|)
      && multiset(ValuesAt(best, idx)) == multiset(ValuesAt(init, rest)) + multiset{x}
      && multiset(best) == multiset(init) + multiset{x}
  {
    LastValue(best);
    LeaveOut(best, idx, t);
    MultisetRemove(ValuesAt(best, idx), t);
  }

  /** The problems among the first j weights. */
  function Picked(pick: seq<Option<nat>>, j: nat): (idx: seq<nat>)
    requires j <= |pick|
    ensures |idx| <= j && forall x :: x in idx ==> exists r :: 0 <= r < j && pick[r] == Some(x)
  {
    if j == 0 then [] else Picked(pick, j - 1) + (if pick[j - 1].Some? then [pick[j - 1].value] else [])
  }

  lemma {:induction false} PickedDistinct(pick: seq<Option<nat>>, problems: nat, j: nat)
    requires Assignment(pick, problems) && j <= |pick|
    ensures Distinct(Picked(pick, j)) && Within(Picked(pick, j), problems)
  {
    if j > 0 {
      PickedDistinct(pick, problems, j - 1);
      var idx := Picked(pick, j - 1);
      if pick[j - 1].Some? { assert forall x :: x in idx ==> x != pick[j - 1].value; }
    }
  }

  lemma ValuesAppend(best: seq<real>, idx: seq<nat>, x: nat)
    requires Within(idx, |best|) && x < |best|
    ensures Within(idx + [x], |best|) && ValuesAt(best, idx + [x]) == ValuesAt(best, idx) + [best[x]]
  {
  }

  lemma WithinPrefix(idx: seq<nat>, more: seq<nat>, n: nat)
    requires Within(idx + more, n)
    ensures Within(idx, n)
  {
    forall r | 0 <= r < |idx| ensures idx[r] < n { assert (idx + more)[r] == idx[r]; }
  }

  lemma ScoreAdded(best: seq<real>, pick: seq<Option<nat>>, j: nat)
    requires 0 < j <= |pick|
    ensures var a := Scores(best, pick); Sum(a[..j]) == Sum(a[..j - 1]) + a[j - 1]
  {
    var a := Scores(best, pick);
    assert a[..j] == a[..j - 1] + [a[j - 1]];
    SumAppend(a[..j - 1], a[j - 1]);
  }

  lemma {:induction false} PickedSum(best: seq<real>, pick: seq<Option<nat>>, j: nat)
    requires Assignment(pick, |best|) && j <= |pick|
    requires Within(Picked(pick, j), |best|)
    ensures Sum(Scores(best, pick)[..j]) == Sum(ValuesAt(best, Picked(pick, j)))
  {
    if j > 0 {
      var idx := Picked(pick, j - 1);
      var added := if pick[j - 1].Some? then [pick[j - 1].value] else [];
      WithinPrefix(idx, added, |best|);
      PickedSum(best, pick, j - 1);
      ScoreAdded(best, pick, j);
      if pick[j - 1].Some? {
        ValuesAppend(best, idx, pick[j - 1].value);
        SumAppend(ValuesAt(best, idx), best[pick[j - 1].value]);
      } else {
        assert Picked(pick, j) == idx;
      }
    }
  }

  // ---------- the sorted weighting is optimal ----------

  /** The descending scores, cut or filled with zeros to n places. */
  function Padded(data: seq<real>, n: nat): (b: seq<real>)
    ensures |b| == n
  {
    seq(n, r => if 0 <= r < |data| then data[r] else 0.0)
  }

  lemma {:induction false} PaddedDot(table: seq<real>, data: seq<real>, k: nat)
    requires k <= |table|
    ensures Dot(table, Padded(data, |table|), k) == Dot(table, data, if k <= |data| then k else |data|)
  {
    if k > 0 { PaddedDot(table, data, k - 1); }
  }

  lemma {:induction false} PaddedSum(data: seq<real>, n: nat, m: nat, j: nat)
    requires Nonnegative(data) && m <= j <= n && m <= |data|
    ensures Sum(data[..m]) <= Sum(Padded(data, n)[..j])
    decreases j
  {
    var b := Padded(data, n);
    if m == j {
      assert data[..m] == b[..j];
    } else {
      PaddedSum(data, n, m, j - 1);
      assert b[..j] == b[..j - 1] + [b[j - 1]];
      SumAppend(b[..j - 1], b[j - 1]);
    }
  }

  /** Optimality: no assignment of distinct weights to problems is worth more than weighting
      the scores in descending order. */
  lemma SortedIsOptimal(table: seq<real>, best: seq<real>, data: seq<real>, pick: seq<Option<nat>>)
    requires Weights(table) && Nonnegative(best) && Ranked(best, data)
    requires |pick| == |table| && Assignment(pick, |best|)
    ensures Dot(table, Scores(best, pick), |table|) <= WeightedPart(table, data)
  {
    var n, a, b := |table|, Scores(best, pick), Padded(data, |table|);
    assert Nonnegative(data) by {
      forall i | 0 <= i < |data| ensures data[i] >= 0.0 { assert data[i] in multiset(best); }
    }
    forall j | 0 <= j <= n ensures Sum(a[..j]) <= Sum(b[..j]) {
      PickedDistinct(pick, |best|, j);
      PickedSum(best, pick, j);
      var c := ValuesAt(best, Picked(pick, j));
      DistinctValues(best, Picked(pick, j));
      TopSum(c, data);
      PaddedSum(data, n, |c|, j);
    }
    if n > 0 { PrefixDominance(table, a, b, n); }
    PaddedDot(table, data, n);
  }

  /** Where the last score stands in another order of the same scores. */
  lemma LastAmong(best: seq<real>, data: seq<real>) returns (t: nat)
    requires best != [] && multiset(best) == multiset(data)
    ensures t < |data| && data[t] == best[|best| - 1]
    ensures multiset(best[..|best| - 1]) == multiset(RemoveAt(data, t))
  {
    var last := |best| - 1;
    assert best[last] in multiset(data) by { assert best[last] in multiset(best); }
    t := PositionOf(data, best[last]);
    RemoveSame(best, last, data, t);
    assert RemoveAt(best, last) == best[..last];
  }

  /** A descending order of the scores is itself an assignment. */
  lemma {:induction false} Sorting(best: seq<real>, data: seq<real>) returns (pick: seq<nat>)
    requires multiset(best) == multiset(data)
    ensures Distinct(pick) && Within(pick, |best|) && ValuesAt(best, pick) == data
    decreases |best|
  {
    if best == [] {
      SubLength(data, best);
      pick := [];
    } else {
      var last := |best| - 1;
      var t := LastAmong(best, data);
      var p := Sorting(best[..last], RemoveAt(data, t));
      InsertPick(best, data, t, p);
      pick := p[..t] + [last] + p[t..];
    }
  }

  lemma InsertPick(best: seq<real>, data: seq<real>, t: nat, p: seq<nat>)
    requires best != [] && t < |data| && data[t] == best[|best| - 1]
    requires Distinct(p) && Within(p, |best| - 1) && ValuesAt(best[..|best| - 1], p) == RemoveAt(data, t)
    ensures var pick := p[..t] + [|best| - 1] + p[t..];
      Distinct(pick) && Within(pick, |best|) && ValuesAt(best, pick) == data
  {
    var pick := p[..t] + [|best| - 1] + p[t..];
    forall r | 0 <= r < |pick| ensures best[pick[r]] == data[r] {
      if r < t { assert RemoveAt(data, t)[r] == data[r]; }
      else if r > t { assert RemoveAt(data, t)[r - 1] == data[r]; }
    }
  }

  /** The assignment that gives weight r to the problem ranked r. */
  function Assign(order: seq<nat>, n: nat): (pick: seq<Option<nat>>)
    ensures |pick| == n
  {
    seq(n, r => if 0 <= r < |order| then Some(order[r]) else None)
  }

  lemma {:induction false} DotMonotone(w: seq<real>, a: seq<real>, b: seq<real>, k: nat)
    requires Weights(w) && k <= |w| && k <= |a| && k <= |b|
    requires forall i :: 0 <= i < k ==> a[i] <= b[i]
    ensures Dot(w, a, k) <= Dot(w, b, k)
  {
    if k > 0 {
      DotMonotone(w, a, b, k - 1);
      TimesWeak(w[k - 1], a[k - 1], b[k - 1]);
    }
  }

  /** The bound is attained: some assignment is worth exactly the sorted weighting. */
  lemma SortedIsAttained(table: seq<real>, best: seq<real>, data: seq<real>) returns (pick: seq<Option<nat>>)
    requires Weights(table) && multiset(best) == multiset(data)
    ensures |pick| == |table| && Assignment(pick, |best|)
    ensures Dot(table, Scores(best, pick), |table|) == WeightedPart(table, data)
  {
    var order := Sorting(best, data);
    pick := Assign(order, |table|);
    assert forall r :: 0 <= r < |data| ==> data[r] == ValuesAt(best, order)[r];
    assert Scores(best, pick) == Padded(data, |table|);
    PaddedDot(table, data, |table|);
  }

  /** Raising scores and adding scored problems never lowers the weighted part, however the
      order changes. */
  lemma WeightedPartMonotone(table: seq<real>, best: seq<real>, data: seq<real>, best': seq<real>, data': seq<real>)
    requires Weights(table) && Nonnegative(best) && Nonnegative(best') && Ranked(best, data) && Ranked(best', data')
    requires |best| <= |best'| && forall i :: 0 <= i < |best| ==> best[i] <= best'[i]
    ensures WeightedPart(table, data) <= WeightedPart(table, data')
  {
    var order := Sorting(best, data);
    var n, pick := |table|, Assign(order, |table|);
    SortedIsOptimal(table, best', data', pick);
    assert forall r :: 0 <= r < |data| ==> data[r] == ValuesAt(best, order)[r];
    DotMonotone(table, Padded(data, n), Scores(best', pick), n);
    PaddedDot(table, data, n);
  }

  lemma {:induction false} BonusMonotone(m: nat, n: nat)
    requires m <= n
    ensures Bonus(m) <= Bonus(n)
  {
    if m < n {
      BonusMonotone(m, n - 1);
      PowDecreases(0.997, n - 1);
      WeakScale(300.0, 1.0 - Pow(0.997, n - 1), 1.0 - Pow(0.997, n));
    }
  }

  /** Performance points never fall when a best score rises, a scored problem is added or the
      solved count grows, all at once or one by one. */
  lemma PointsMonotone(step: real, entries: nat, best: seq<real>, data: seq<real>, solved: nat,
                       best': seq<real>, data': seq<real>, solved': nat)
    requires 0.0 < step <= 1.0 && solved <= solved'
    requires Nonnegative(best) && Nonnegative(best') && Ranked(best, data) && Ranked(best', data')
    requires |best| <= |best'| && forall i :: 0 <= i < |best| ==> best[i] <= best'[i]
    ensures Points(Table(step, entries), data, solved) <= Points(Table(step, entries), data', solved')
  {
    TableIsWeights(step, entries);
    WeightedPartMonotone(Table(step, entries), best, data, best', data');
    BonusMonotone(solved, solved');
  }

  // ---------- the breakdown page ----------

  datatype Row = Row(points: real, weight: real, scaled: real)

  /** The rows the query with LIMIT end - start + 1 OFFSET start returns. */
  function Fetch(rows: seq<real>, start: nat, end: nat): seq<real>
    requires start <= end
  {
    if start >= |rows| then [] else rows[start..(if end + 1 <= |rows| then end + 1 else |rows|)]
  }

  function Clamp(x: int, lo: int, hi: int): int
    requires lo <= hi
  {
    if x < lo then lo else if x > hi then hi else x
  }

  /** One page: the weighted rows start, ..., end - 1, and whether a further one exists. */
  method Breakdown(rows: seq<real>, table: seq<real>, start: nat, end: nat) returns (page: seq<Row>, hasMore: bool)
    requires start <= end
    ensures |page| == Clamp(Entries(table, rows), start, end) - start
    ensures forall i :: 0 <= i < |page| ==>
      && page[i].points == rows[start + i] && page[i].weight == table[start + i] * 100.0
      && page[i].scaled == Times(table[start + i], rows[start + i])
    ensures hasMore <==> end < Entries(table, rows)
  {
    var data := Fetch(rows, start, end);
    var weights := if start >= |table| then [] else table[start..(if end <= |table| then end else |table|)];
    page := [];
    var i := 0;
    while i < |weights| && i < |data|
      invariant 0 <= i <= |weights| && i <= |data| && |page| == i
      invariant forall k :: 0 <= k < i ==>
        && page[k].points == rows[start + k] && page[k].weight == table[start + k] * 100.0
        && page[k].scaled == Times(table[start + k], rows[start + k])
    {
      page := page + [Row(data[i], weights[i] * 100.0, Times(weights[i], data[i]))];
      i := i + 1;
    }
    hasMore := end < (if |table| < start + |data| then |table| else start + |data|);
  }

  function ScaledSum(page: seq<Row>): real {
    if page == [] then 0.0 else ScaledSum(page[..|page| - 1]) + page[|page| - 1].scaled
  }

  ghost predicate IsPage(rows: seq<real>, table: seq<real>, start: nat, end: nat, page: seq<Row>) {
    && start <= end
    && |page| == Clamp(Entries(table, rows), start, end) - start
    && forall i :: 0 <= i < |page| ==> page[i].scaled == Times(table[start + i], rows[start + i])
  }

  /** A page adds exactly its stretch of the weighted part, so consecutive pages add up to it. */
  lemma {:induction false} PageSum(rows: seq<real>, table: seq<real>, start: nat, end: nat, page: seq<Row>)
    requires IsPage(rows, table, start, end, page)
    ensures var n := Entries(table, rows);
      ScaledSum(page) == Dot(table, rows, Clamp(end, 0, n)) - Dot(table, rows, Clamp(start, 0, n))
    decreases |page|
  {
    if page != [] {
      var init := page[..|page| - 1];
      PageSum(rows, table, start, start + |init|, init);
      assert page[|page| - 1].scaled == Times(table[start + |init|], rows[start + |init|]);
    }
  }

  function PagesTotal(pages: seq<seq<Row>>): real {
    if pages == [] then 0.0 else PagesTotal(pages[..|pages| - 1]) + ScaledSum(pages[|pages| - 1])
  }

  /** Reading any consecutive pages from the start until one reports no more yields the whole
      weighted part. */
  lemma PagesComplete(rows: seq<real>, table: seq<real>, cuts: seq<nat>, pages: seq<seq<Row>>)
    requires |cuts| == |pages| + 1 && cuts[0] == 0
    requires forall i :: 0 <= i < |pages| ==> IsPage(rows, table, cuts[i], cuts[i + 1], pages[i])
    requires !(cuts[|pages|] < Entries(table, rows))
    ensures PagesTotal(pages) == WeightedPart(table, rows)
  {
    PagesAdd(rows, table, cuts, pages);
  }

  lemma {:induction false} PagesAdd(rows: seq<real>, table: seq<real>, cuts: seq<nat>, pages: seq<seq<Row>>)
    requires |cuts| == |pages| + 1 && cuts[0] == 0
    requires forall i :: 0 <= i < |pages| ==> IsPage(rows, table, cuts[i], cuts[i + 1], pages[i])
    ensures PagesTotal(pages) == Dot(table, rows, Clamp(cuts[|pages|], 0, Entries(table, rows)))
  {
    if pages != [] {
      var n := |pages| - 1;
      PagesAdd(rows, table, cuts[..n + 1], pages[..n]);
      PageSum(rows, table, cuts[n], cuts[n + 1], pages[n]);
    }
  }
}
