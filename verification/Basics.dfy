/** Small facts about integers and sequences that several modules need. */
module Basics {

  function Min(a: int, b: int): int { if b < a then b else a }

  function Max(a: int, b: int): int { if b > a then b else a }

  /** Division undoes multiplying and adding a remainder. */
  lemma QuotientRemainder(q: int, r: int, b: int)
    requires 0 <= r < b
    ensures (q * b + r) / b == q && (q * b + r) % b == r
  {
    SameQuotient(q, r, (q * b + r) / b, (q * b + r) % b, b);
  }

  lemma SameQuotient(q: int, r: int, d: int, m: int, b: int)
    requires 0 <= r < b && 0 <= m < b && q * b + r == d * b + m
    ensures q == d && r == m
  {
    assert (q - d) * b == q * b - d * b;
    if d < q { Multiple(q - d, b); } else if q < d { Multiple(d - q, b); }
  }

  lemma Multiple(k: int, b: int)
    requires k >= 1 && b > 0
    ensures k * b >= b
  {
  }

  lemma Associate<T>(a: seq<T>, b: seq<T>, c: seq<T>)
    ensures (a + b) + c == a + (b + c)
  {
  }

  lemma Empty<T>(a: seq<T>)
    ensures [] + a == a && a + [] == a
  {
  }
}
