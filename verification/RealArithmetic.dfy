/** Facts about products and fractions of reals that the solver needs spelled out. */
module RealArithmetic {

  ghost predicate IsSqrt(root: real, x: real) {
    root >= 0.0 && root * root == x
  }

  lemma ReciprocalPositive(x: real)
    requires x > 0.0
    ensures 1.0 / x > 0.0 && (1.0 / x) * x == 1.0
  {
  }

  lemma ReciprocalSum(x: real, y: real)
    requires x > 0.0 && y > 0.0
    ensures 1.0 / x > 0.0 && 1.0 / y > 0.0
    ensures 1.0 / (1.0 / x + 1.0 / y) > 0.0
    ensures 1.0 / (1.0 / x + 1.0 / y) * (x + y) == x * y
  {
  }

  lemma WeakScaleRight(k: real, a: real, b: real)
    requires k >= 0.0 && a <= b
    ensures a * k <= b * k
  {
  }

  lemma SqrtLess(a: real, b: real)
    requires a >= 0.0 && b >= 0.0 && a * a < b * b
    ensures a < b
  {
  }

  lemma WeakScale(k: real, a: real, b: real)
    requires k >= 0.0 && a <= b
    ensures k * a <= k * b
  {
  }

  /** Comparing fractions by cross multiplication. */
  lemma CrossMultiply(x: real, n: real, y: real, m: real)
    requires n > 0.0 && m > 0.0 && x * m <= y * n
    ensures x / n <= y / m
  {
  }

  lemma RatioBelowOne(v: real, c: real)
    requires v > 0.0 && c > 0.0
    ensures 0.0 < v / (v + c) < 1.0
    ensures v / (v + c) * (v + c) == v
  {
  }

  lemma DoubleReciprocal(s: real)
    requires s > 0.0
    ensures 1.0 / s > 0.0 && 1.0 / (1.0 / s) == s
  {
  }

  lemma RatioOfReciprocals(v: real, w: real)
    requires v > 0.0 && w > 0.0
    ensures 1.0 / w == (v / w) * (1.0 / v)
  {
  }

  function Times(a: real, b: real): real { a * b }

  function Squared(k: real): real { Times(k, k) }

  function RealMin(a: real, b: real): real { if b < a then b else a }

  function RealMax(a: real, b: real): real { if b > a then b else a }

  lemma TimesOne(a: real)
    ensures Times(1.0, a) == a && Times(a, 1.0) == a
  {
  }

  lemma TimesAssociative(a: real, b: real, c: real)
    ensures Times(Times(a, b), c) == Times(a, Times(b, c))
  {
  }

  lemma TimesWeak(k: real, a: real, b: real)
    requires k >= 0.0 && a <= b
    ensures Times(k, a) <= Times(k, b)
  {
    WeakScale(k, a, b);
  }

  lemma TimesPositive(a: real, b: real)
    requires a > 0.0 && b > 0.0
    ensures Times(a, b) > 0.0
  {
  }

  lemma TimesMonotone(k: real, a: real, b: real)
    requires k > 0.0 && a < b
    ensures Times(k, a) < Times(k, b)
  {
  }

  lemma TimesBelow(a: real, b: real)
    requires 0.0 < a && b < 1.0
    ensures Times(a, b) < a
  {
  }

  lemma TimesLess(k: real, q: real, w: real, p: real)
    requires 0.0 < q < k && 0.0 < w < p
    ensures 0.0 < q * w < k * p
  {
  }
}
