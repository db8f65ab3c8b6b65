/** Bisection with a final interpolation, and the divide and conquer that reuses solutions
    already found as brackets for the indices between them. */
module Bisection {
  import opened Options
  import opened RealArithmetic

  ghost predicate Nondecreasing(f: real -> real) {
    forall x, y {:trigger InOrder(x, y)} :: InOrder(x, y) ==> f(x) <= f(y)
  }

  predicate InOrder(x: real, y: real) { x <= y }

  lemma Apart(f: real -> real, x: real, y: real)
    requires Nondecreasing(f) && x <= y
    ensures f(x) <= f(y)
  {
    assert InOrder(x, y);
  }

  ghost predicate NonincreasingSeq(s: seq<real>) {
    forall i, j :: 0 <= i <= j < |s| ==> s[i] >= s[j]
  }

  // ---------- solve ----------

  function Interpolate(f: real -> real, y: real, L: real, R: real): real {
    if y <= f(L) then L
    else if y >= f(R) then R
    else
      var ratio := (y - f(L)) / (f(R) - f(L));
      L * (1.0 - ratio) + R * ratio
  }

  /** The point the bisection of [L, R] for f(x) = y ends at. */
  function Solve(f: real -> real, y: real, L: real, R: real): real
    decreases R - L
  {
    if R - L > 2.0 then
      var x := (L + R) / 2.0;
      if f(x) > y then Solve(f, y, L, x) else if f(x) < y then Solve(f, y, x, R) else x
    else Interpolate(f, y, L, R)
  }

  /** The loop: the values at the ends are computed only when an end has not moved. */
  method SolveLoop(f: real -> real, y: real, lo: real, hi: real) returns (root: real)
    ensures root == Solve(f, y, lo, hi)
  {
    var L, R := lo, hi;
    var Ly: Option<real> := None;
    var Ry: Option<real> := None;
    while R - L > 2.0
      invariant Ly.Some? ==> Ly.value == f(L)
      invariant Ry.Some? ==> Ry.value == f(R)
      invariant Solve(f, y, L, R) == Solve(f, y, lo, hi)
      decreases R - L
    {
      var x := (L + R) / 2.0;
      var v := f(x);
      if v > y {
        R, Ry := x, Some(v);
      } else if v < y {
        L, Ly := x, Some(v);
      } else {
        return x;
      }
    }
    if Ly.None? { Ly := Some(f(L)); }
    if y <= Ly.value { return L; }
    if Ry.None? { Ry := Some(f(R)); }
    if y >= Ry.value { return R; }
    var ratio := (y - Ly.value) / (Ry.value - Ly.value);
    return L * (1.0 - ratio) + R * ratio;
  }

  lemma RatioBounds(a: real, b: real, L: real, R: real)
    requires a > 0.0 && b > 0.0 && L <= R
    ensures 0.0 < a / (a + b) < 1.0
    ensures var r := a / (a + b); L * (1.0 - r) + R * r == L + (R - L) * r && L <= L + (R - L) * r <= R
  {
  }

  lemma InterpolateInside(f: real -> real, y: real, L: real, R: real)
    requires L <= R
    ensures L <= Interpolate(f, y, L, R) <= R
  {
    if f(L) < y < f(R) { RatioBounds(y - f(L), f(R) - y, L, R); }
  }

  lemma {:induction false} SolveInside(f: real -> real, y: real, L: real, R: real)
    requires L <= R
    ensures L <= Solve(f, y, L, R) <= R
    decreases R - L
  {
    if R - L > 2.0 {
      var x := (L + R) / 2.0;
      if f(x) > y { SolveInside(f, y, L, x); } else if f(x) < y { SolveInside(f, y, x, R); }
    } else {
      InterpolateInside(f, y, L, R);
    }
  }

  // ---------- monotonicity ----------

  lemma RatioMonotone(a: real, b: real, a': real, b': real)
    requires 0.0 < a <= a' && 0.0 < b' <= b
    ensures a / (a + b) <= a' / (a' + b')
  {
    WeakScale(a, b', b);
    WeakScale(b, a, a');
    assert a * (a' + b') == a * a' + a * b' && a' * (a + b) == a * a' + a' * b;
    CrossMultiply(a, a + b, a', a' + b');
  }

  lemma InterpolateMonotone(f: real -> real, y: real, g: real -> real, z: real, L: real, R: real)
    requires L <= R
    requires f(L) - y >= g(L) - z && f(R) - y >= g(R) - z
    ensures Interpolate(f, y, L, R) <= Interpolate(g, z, L, R)
  {
    InterpolateInside(f, y, L, R);
    InterpolateInside(g, z, L, R);
    if f(L) < y < f(R) && g(L) < z < g(R) {
      var a, b, a', b' := y - f(L), f(R) - y, z - g(L), g(R) - z;
      RatioBounds(a, b, L, R);
      RatioBounds(a', b', L, R);
      RatioMonotone(a, b, a', b');
      WeakScale(R - L, a / (a + b), a' / (a' + b'));
    }
  }

  /** Raising the target, or lowering the objective pointwise, never lowers the result, whether
      the two bisections run in step, part ways, or interpolate; f need not be monotone. */
  lemma {:induction false} SolveMonotone(f: real -> real, y: real, g: real -> real, z: real, L: real, R: real)
    requires L <= R
    requires forall x :: f(x) - y >= g(x) - z
    ensures Solve(f, y, L, R) <= Solve(g, z, L, R)
    decreases R - L
  {
    if R - L > 2.0 {
      var x := (L + R) / 2.0;
      assert f(x) - y >= g(x) - z;
      SolveInside(f, y, L, x);
      SolveInside(g, z, x, R);
      if f(x) > y && g(x) > z {
        SolveMonotone(f, y, g, z, L, x);
      } else if f(x) < y {
        SolveMonotone(f, y, g, z, x, R);
      }
    } else {
      InterpolateMonotone(f, y, g, z, L, R);
    }
  }

  /** Interpolating between crossed ends. */
  lemma InterpolateCrossed(a: real, b: real, L: real, R: real)
    requires a > 0.0 && b > 0.0 && R <= L
    ensures var r := a / (a + b);
      0.0 < r < 1.0 && L * (1.0 - r) + R * r == L - Times(L - R, r) && R <= L - Times(L - R, r) <= L
  {
    RatioBounds(a, b, 0.0, 1.0);
    Blend(L, R, a / (a + b));
    TimesWeak(L - R, 0.0, a / (a + b));
    TimesWeak(L - R, a / (a + b), 1.0);
  }

  lemma Blend(L: real, R: real, r: real)
    ensures L * (1.0 - r) + R * r == L - Times(L - R, r)
    ensures Times(L - R, 0.0) == 0.0 && Times(L - R, 1.0) == L - R
  {
    assert (L - R) * r == L * r - R * r;
    assert L * (1.0 - r) == L - L * r;
  }

  /** With crossed bounds (a ceiling below the valid range) the order is reversed: raising the
      target, or lowering the objective pointwise, never raises the result. */
  lemma SolveAntitone(f: real -> real, y: real, g: real -> real, z: real, L: real, R: real)
    requires R <= L
    requires forall x :: f(x) - y >= g(x) - z
    ensures Solve(f, y, L, R) >= Solve(g, z, L, R)
  {
    var a, b, a', b' := y - f(L), f(R) - y, z - g(L), g(R) - z;
    assert f(L) - y >= g(L) - z && f(R) - y >= g(R) - z;
    assert a <= a' && b' <= b && a + b == f(R) - f(L) && a' + b' == g(R) - g(L);
    if a > 0.0 && b > 0.0 { InterpolateCrossed(a, b, L, R); }
    if a' > 0.0 && b' > 0.0 { InterpolateCrossed(a', b', L, R); }
    if a > 0.0 && b' > 0.0 {
      RatioMonotone(a, b, a', b');
      TimesWeak(L - R, a / (a + b), a' / (a' + b'));
    }
  }

  /** For a nondecreasing objective the result is then one of the two ends, and the higher target
      gets the lower one. */
  lemma CrossedBounds(f: real -> real, y: real, lo: real, hi: real)
    requires Nondecreasing(f) && hi < lo
    ensures Solve(f, y, lo, hi) == if y <= f(lo) then lo else hi
  {
    Apart(f, hi, lo);
  }

  /** So the monotonicity holds for all targets exactly when the bounds are not crossed. */
  lemma MonotoneExact(f: real -> real, lo: real, hi: real)
    requires Nondecreasing(f)
    ensures (forall y, z :: y <= z ==> Solve(f, y, lo, hi) <= Solve(f, z, lo, hi)) <==> lo <= hi
  {
    if lo <= hi {
      forall y, z | y <= z ensures Solve(f, y, lo, hi) <= Solve(f, z, lo, hi) { SolveMonotone(f, y, f, z, lo, hi); }
    } else {
      CrossedBounds(f, f(lo), lo, hi);
      CrossedBounds(f, f(lo) + 1.0, lo, hi);
      assert Solve(f, f(lo), lo, hi) > Solve(f, f(lo) + 1.0, lo, hi);
    }
  }

  // ---------- accuracy ----------

  /** A result away from an end lies within 2 of where the objective meets the target. */
  lemma {:induction false} SolveBrackets(f: real -> real, y: real, L: real, R: real)
    requires Nondecreasing(f) && L <= R
    ensures var r := Solve(f, y, L, R);
      && (r == L || f(r - 2.0) <= y)
      && (r == R || f(r + 2.0) >= y)
  {
    SolveBracketsFrom(f, y, L, R, L, R);
  }

  /** Between the ends the point is where the chord meets the target. */
  lemma InterpolateChord(f: real -> real, y: real, L: real, R: real)
    requires f(L) < y < f(R)
    ensures Times(Interpolate(f, y, L, R) - L, f(R) - f(L)) == Times(R - L, y - f(L))
  {
    ChordPoint(y - f(L), f(R) - f(L), L, R);
  }

  lemma ChordPoint(a: real, b: real, L: real, R: real)
    requires b > 0.0
    ensures var r := a / b; Times(L * (1.0 - r) + R * r - L, b) == Times(R - L, a)
  {
    var r := a / b;
    assert r * b == a;
    assert L * (1.0 - r) + R * r - L == (R - L) * r;
    assert ((R - L) * r) * b == (R - L) * (r * b);
  }

  /** For an affine objective the result is exact wherever the range reaches the target. */
  lemma {:induction false} SolveAffine(f: real -> real, k: real, c: real, y: real, L: real, R: real)
    requires forall x :: f(x) == Times(k, x) + c
    requires L <= R && f(L) <= y <= f(R)
    ensures f(Solve(f, y, L, R)) == y
    decreases R - L
  {
    if R - L > 2.0 {
      var x := (L + R) / 2.0;
      if f(x) > y { SolveAffine(f, k, c, y, L, x); } else if f(x) < y { SolveAffine(f, k, c, y, x, R); }
    } else if f(L) < y < f(R) {
      var r := Interpolate(f, y, L, R);
      InterpolateChord(f, y, L, R);
      SlopeCancels(k, r - L, R - L, y - f(L));
      TimesDifference(k, r, L);
      TimesDifference(k, R, L);
    }
  }

  lemma TimesDifference(k: real, a: real, b: real)
    ensures Times(k, a - b) == Times(k, a) - Times(k, b)
  {
  }

  lemma SlopeCancels(k: real, p: real, q: real, rise: real)
    requires q >= 0.0 && Times(k, q) > 0.0 && Times(p, Times(k, q)) == Times(q, rise)
    ensures Times(k, p) == rise
  {
    assert q > 0.0;
    assert Times(q, Times(k, p)) == Times(q, rise);
  }

  predicate Below(x: real, y: real) { x < y }

  ghost predicate Increasing(f: real -> real) {
    forall x, y {:trigger Below(x, y)} :: Below(x, y) ==> f(x) < f(y)
  }

  /** An increasing objective meets the target between a and b: the result is within 2 of there,
      as far as the bounds let it. */
  lemma SolveNear(f: real -> real, y: real, L: real, R: real, a: real, b: real)
    requires Increasing(f) && L <= R && f(a) <= y <= f(b)
    ensures RealMin(a - 2.0, R) <= Solve(f, y, L, R) <= RealMax(b + 2.0, L)
  {
    var r := Solve(f, y, L, R);
    forall u, v | InOrder(u, v) ensures f(u) <= f(v) { assert Below(u, v) || u == v; }
    SolveBrackets(f, y, L, R);
    assert r + 2.0 < a ==> Below(r + 2.0, a);
    assert b < r - 2.0 ==> Below(b, r - 2.0);
  }

  lemma {:induction false} SolveBracketsFrom(f: real -> real, y: real, lo: real, hi: real, L: real, R: real)
    requires Nondecreasing(f) && lo <= L <= R <= hi
    requires (L == lo || f(L) < y) && (R == hi || f(R) > y)
    ensures var r := Solve(f, y, L, R);
      && (r == lo || f(r - 2.0) <= y)
      && (r == hi || f(r + 2.0) >= y)
    decreases R - L
  {
    var r := Solve(f, y, L, R);
    SolveInside(f, y, L, R);
    if R - L > 2.0 {
      var x := (L + R) / 2.0;
      if f(x) > y {
        SolveBracketsFrom(f, y, lo, hi, L, x);
      } else if f(x) < y {
        SolveBracketsFrom(f, y, lo, hi, x, R);
      } else {
        Apart(f, r - 2.0, r);
        Apart(f, r, r + 2.0);
      }
    } else {
      Apart(f, r - 2.0, L);
      Apart(f, R, r + 2.0);
      if y <= f(L) { Apart(f, L, r + 2.0); }
      else if y >= f(R) { Apart(f, r - 2.0, R); }
    }
  }

  // ---------- divide and conquer ----------

  /** The result is as accurate as one bisection of the whole range [lo, hi] would be. */
  ghost predicate Accurate(f: real -> real, y: real, lo: real, hi: real, r: real) {
    && lo <= r <= hi
    && (r - 2.0 <= lo || f(r - 2.0) <= y)
    && (r + 2.0 >= hi || f(r + 2.0) >= y)
  }

  function DivConq(f: real -> real, ys: seq<real>, p: seq<real>, i: nat, j: nat): (q: seq<real>)
    requires |p| == |ys| && i <= j < |p|
    ensures |q| == |p|
    decreases j - i
  {
    if j - i > 1 then
      var k := (i + j) / 2;
      var solved := p[k := Solve(f, ys[k], p[j], p[i])];
      DivConq(f, ys, DivConq(f, ys, solved, i, k), k, j)
    else p
  }

  /** The indices in the order in which they are solved. */
  function Visits(i: nat, j: nat): seq<nat>
    requires i <= j
    decreases j - i
  {
    if j - i > 1 then
      var k := (i + j) / 2;
      [k] + Visits(i, k) + Visits(k, j)
    else []
  }

  lemma Occurrences(a: seq<nat>, b: seq<nat>, c: seq<nat>, m: nat)
    ensures multiset(a + b + c)[m] == multiset(a)[m] + multiset(b)[m] + multiset(c)[m]
  {
    assert multiset(a + b + c) == multiset(a) + multiset(b) + multiset(c);
  }

  /** Every interior index is solved exactly once, and no other. */
  lemma {:induction false} VisitsEachOnce(i: nat, j: nat, m: nat)
    requires i <= j
    ensures multiset(Visits(i, j))[m] == if i < m < j then 1 else 0
    decreases j - i
  {
    if j - i > 1 {
      var k := (i + j) / 2;
      VisitsEachOnce(i, k, m);
      VisitsEachOnce(k, j, m);
      Occurrences([k], Visits(i, k), Visits(k, j), m);
    }
  }

  ghost predicate Filled(f: real -> real, ys: seq<real>, lo: real, hi: real, q: seq<real>, i: nat, j: nat)
    requires |q| == |ys| && i <= j < |q|
  {
    && (forall a, b :: i <= a <= b <= j ==> q[a] >= q[b])
    && (forall k :: i <= k <= j ==> Accurate(f, ys[k], lo, hi, q[k]))
  }

  /** Solving inside a bracket of two accurate neighbours is as accurate as in the full range. */
  lemma SolveBetween(f: real -> real, yj: real, y: real, yi: real, lo: real, hi: real, pj: real, pi: real)
    requires Nondecreasing(f) && yj <= y <= yi && pj <= pi
    requires Accurate(f, yj, lo, hi, pj) && Accurate(f, yi, lo, hi, pi)
    ensures pj <= Solve(f, y, pj, pi) <= pi
    ensures Accurate(f, y, lo, hi, Solve(f, y, pj, pi))
  {
    SolveInside(f, y, pj, pi);
    SolveBrackets(f, y, pj, pi);
  }

  lemma JoinFilled(f: real -> real, ys: seq<real>, lo: real, hi: real, left: seq<real>, q: seq<real>,
                   i: nat, k: nat, j: nat)
    requires |left| == |q| == |ys| && i <= k <= j < |q|
    requires Filled(f, ys, lo, hi, left, i, k) && Filled(f, ys, lo, hi, q, k, j)
    requires forall a :: i <= a <= k ==> q[a] == left[a]
    ensures Filled(f, ys, lo, hi, q, i, j)
  {
    forall a, b | i <= a <= b <= j ensures q[a] >= q[b] {
      if a < k < b { assert q[a] == left[a] >= left[k] == q[k] >= q[b]; }
    }
  }

  /** Nothing but the interior changes. */
  lemma {:induction false} DivConqFrame(f: real -> real, ys: seq<real>, p: seq<real>, i: nat, j: nat)
    requires |p| == |ys| && i <= j < |p|
    ensures forall k :: 0 <= k < |p| && !(i < k < j) ==> DivConq(f, ys, p, i, j)[k] == p[k]
    decreases j - i
  {
    if j - i > 1 {
      var k := (i + j) / 2;
      var solved := p[k := Solve(f, ys[k], p[j], p[i])];
      DivConqFrame(f, ys, solved, i, k);
      DivConqFrame(f, ys, DivConq(f, ys, solved, i, k), k, j);
    }
  }

  /** The divide and conquer loses no accuracy: between two accurate ends every index gets an
      accurate value, the values do not increase, and nothing outside changes. */
  lemma {:induction false} DivConqFills(f: real -> real, ys: seq<real>, lo: real, hi: real, p: seq<real>,
                                        i: nat, j: nat)
    requires Nondecreasing(f) && NonincreasingSeq(ys)
    requires |p| == |ys| && i <= j < |p| && p[i] >= p[j]
    requires Accurate(f, ys[i], lo, hi, p[i]) && Accurate(f, ys[j], lo, hi, p[j])
    ensures var q := DivConq(f, ys, p, i, j);
      && (forall k :: 0 <= k < |p| && !(i < k < j) ==> q[k] == p[k])
      && Filled(f, ys, lo, hi, q, i, j)
    decreases j - i
  {
    DivConqFrame(f, ys, p, i, j);
    if j - i > 1 {
      var k := (i + j) / 2;
      var root := Solve(f, ys[k], p[j], p[i]);
      SolveBetween(f, ys[j], ys[k], ys[i], lo, hi, p[j], p[i]);
      var solved := p[k := root];
      var left := DivConq(f, ys, solved, i, k);
      DivConqFills(f, ys, lo, hi, solved, i, k);
      assert left[k] == root && left[j] == p[j];
      DivConqFills(f, ys, lo, hi, left, k, j);
      JoinFilled(f, ys, lo, hi, left, DivConq(f, ys, left, k, j), i, k, j);
    }
  }

  /** n places, the two ends filled. */
  function Ends(n: nat, first: real, last: real): (p: seq<real>)
    requires n >= 2
    ensures |p| == n && p[0] == first && p[n - 1] == last
  {
    seq(n, _ => 0.0)[0 := first][n - 1 := last]
  }

  /** All indices: the two ends over the whole range, then everything between them. */
  function Performances(f: real -> real, ys: seq<real>, lo: real, hi: real): (q: seq<real>)
    requires |ys| >= 2
    ensures |q| == |ys|
  {
    var n := |ys|;
    DivConq(f, ys, Ends(n, Solve(f, ys[0], lo, hi), Solve(f, ys[n - 1], lo, hi)), 0, n - 1)
  }

  lemma SolveAccurate(f: real -> real, y: real, lo: real, hi: real)
    requires Nondecreasing(f) && lo <= hi
    ensures Accurate(f, y, lo, hi, Solve(f, y, lo, hi))
  {
    SolveInside(f, y, lo, hi);
    SolveBrackets(f, y, lo, hi);
  }

  lemma PerformancesFilled(f: real -> real, ys: seq<real>, lo: real, hi: real)
    requires Nondecreasing(f) && NonincreasingSeq(ys) && |ys| >= 2 && lo <= hi
    ensures Filled(f, ys, lo, hi, Performances(f, ys, lo, hi), 0, |ys| - 1)
  {
    var n := |ys|;
    SolveAccurate(f, ys[0], lo, hi);
    SolveAccurate(f, ys[n - 1], lo, hi);
    SolveMonotone(f, ys[n - 1], f, ys[0], lo, hi);
    DivConqFills(f, ys, lo, hi, Ends(n, Solve(f, ys[0], lo, hi), Solve(f, ys[n - 1], lo, hi)), 0, n - 1);
  }

  // ---------- crossed bounds ----------

  /** The end a target gets. */
  function CrossedEnd(f: real -> real, y: real, lo: real, hi: real): real {
    if y <= f(lo) then lo else hi
  }

  ghost predicate CrossedFilled(f: real -> real, ys: seq<real>, lo: real, hi: real, q: seq<real>, i: nat, j: nat)
    requires |q| == |ys| && i <= j < |q|
  {
    forall k :: i <= k <= j ==> q[k] == CrossedEnd(f, ys[k], lo, hi)
  }

  /** Between two ends solved with crossed bounds every index is solved the same way. */
  lemma {:induction false} DivConqCrossed(f: real -> real, ys: seq<real>, lo: real, hi: real, p: seq<real>,
                                          i: nat, j: nat)
    requires Nondecreasing(f) && NonincreasingSeq(ys) && hi < lo
    requires |p| == |ys| && i <= j < |p|
    requires p[i] == CrossedEnd(f, ys[i], lo, hi) && p[j] == CrossedEnd(f, ys[j], lo, hi)
    ensures var q := DivConq(f, ys, p, i, j);
      && (forall k :: 0 <= k < |p| && !(i < k < j) ==> q[k] == p[k])
      && CrossedFilled(f, ys, lo, hi, q, i, j)
    decreases j - i
  {
    if j - i > 1 {
      var k := (i + j) / 2;
      CrossedBetween(f, ys[j], ys[k], ys[i], lo, hi);
      var solved := p[k := Solve(f, ys[k], p[j], p[i])];
      DivConqCrossed(f, ys, lo, hi, solved, i, k);
      DivConqCrossed(f, ys, lo, hi, DivConq(f, ys, solved, i, k), k, j);
    }
  }

  lemma CrossedBetween(f: real -> real, yj: real, y: real, yi: real, lo: real, hi: real)
    requires Nondecreasing(f) && yj <= y <= yi && hi < lo
    ensures Solve(f, y, CrossedEnd(f, yj, lo, hi), CrossedEnd(f, yi, lo, hi)) == CrossedEnd(f, y, lo, hi)
  {
    if yj <= f(lo) < yi { CrossedBounds(f, y, lo, hi); }
  }

  /** With crossed bounds every index gets one of the two ends, and a better rank the lower one. */
  lemma PerformancesCrossed(f: real -> real, ys: seq<real>, lo: real, hi: real)
    requires Nondecreasing(f) && NonincreasingSeq(ys) && |ys| >= 2 && hi < lo
    ensures CrossedFilled(f, ys, lo, hi, Performances(f, ys, lo, hi), 0, |ys| - 1)
    ensures forall a, b :: 0 <= a <= b < |ys| ==> Performances(f, ys, lo, hi)[a] <= Performances(f, ys, lo, hi)[b]
  {
    var n := |ys|;
    CrossedBounds(f, ys[0], lo, hi);
    CrossedBounds(f, ys[n - 1], lo, hi);
    DivConqCrossed(f, ys, lo, hi, Ends(n, Solve(f, ys[0], lo, hi), Solve(f, ys[n - 1], lo, hi)), 0, n - 1);
  }
}
