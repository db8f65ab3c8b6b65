/** Ranks with ties: every member of a maximal run of equal keys gets the run's average position. */
module TieRanker {
  import opened Basics
  import opened Options
  import opened RealArithmetic

  /** First index of the maximal run of equal keys around i. */
  function RunStart<K(==)>(keys: seq<K>, i: nat): (s: nat)
    requires i < |keys|
    ensures s <= i && (forall k :: s <= k <= i ==> keys[k] == keys[i]) && (s > 0 ==> keys[s - 1] != keys[s])
  {
    if i > 0 && keys[i - 1] == keys[i] then RunStart(keys, i - 1) else i
  }

  /** One past its last index. */
  function RunEnd<K(==)>(keys: seq<K>, i: nat): (e: nat)
    requires i < |keys|
    ensures i < e <= |keys| && (forall k :: i <= k < e ==> keys[k] == keys[i])
    ensures e < |keys| ==> keys[e] != keys[e - 1]
    decreases |keys| - i
  {
    if i + 1 < |keys| && keys[i + 1] == keys[i] then RunEnd(keys, i + 1) else i + 1
  }

  /** The average of the 1-based positions RunStart + 1, ..., RunEnd. */
  function Rank<K(==)>(keys: seq<K>, i: nat): real
    requires i < |keys|
  {
    (RunStart(keys, i) + 1 + RunEnd(keys, i)) as real / 2.0
  }

  ghost predicate IsRun<K>(keys: seq<K>, s: nat, e: nat) {
    && s < e <= |keys|
    && (forall k :: s <= k < e ==> keys[k] == keys[s])
    && (s > 0 ==> keys[s - 1] != keys[s])
    && (e < |keys| ==> keys[e] != keys[s])
  }

  lemma RunIs<K>(keys: seq<K>, s: nat, e: nat, i: nat)
    requires IsRun(keys, s, e) && s <= i < e
    ensures RunStart(keys, i) == s && RunEnd(keys, i) == e
  {
  }

  /** The generator: a run is held back in `buf` until its length is known. */
  method TieRank<K(==)>(keys: seq<K>) returns (ranks: seq<real>)
    ensures |ranks| == |keys|
    ensures forall i :: 0 <= i < |keys| ==> ranks[i] == Rank(keys, i)
  {
    var rank, delta := 0, 1;
    var last: Option<K> := None;
    var buf: seq<K> := [];
    ranks := [];
    var i := 0;
    while i < |keys|
      invariant 0 <= i <= |keys| && |ranks| + |buf| == i
      invariant i == 0 ==> rank == 0 && delta == 1 && last == None
      invariant i > 0 ==> rank == |ranks| + 1 && delta == |buf| > 0 && last == Some(keys[i - 1])
      invariant i > 0 ==> RunStart(keys, i - 1) == |ranks|
      invariant forall k :: 0 <= k < |ranks| ==> ranks[k] == Rank(keys, k)
    {
      var key := keys[i];
      if last != Some(key) {
        if i > 0 { RunRanks(keys, |ranks|, i); }
        ranks := Flush(ranks, buf, rank, delta);
        rank, delta, buf := rank + delta, 0, [];
      }
      delta := delta + 1;
      buf := buf + [keys[i]];
      last := Some(keys[i]);
      i := i + 1;
    }
    if i > 0 { RunRanks(keys, |ranks|, i); }
    ranks := Flush(ranks, buf, rank, delta);
  }

  /** Yield one equal rank per buffered item. */
  function Flush<K>(ranks: seq<real>, buf: seq<K>, rank: int, delta: int): seq<real> {
    ranks + seq(|buf|, _ => rank as real + (delta - 1) as real / 2.0)
  }

  lemma RunRanks<K>(keys: seq<K>, s: nat, e: nat)
    requires s < e <= |keys| && RunStart(keys, e - 1) == s && (e < |keys| ==> keys[e] != keys[e - 1])
    ensures forall k :: s <= k < e ==> Rank(keys, k) == (s + 1) as real + (e - s - 1) as real / 2.0
  {
  }

  // ---------- what the ranks are ----------

  /** Ranks never decrease along the list. */
  lemma RanksNondecreasing<K>(keys: seq<K>, i: nat, j: nat)
    requires i <= j < |keys|
    ensures Rank(keys, i) <= Rank(keys, j)
  {
  }

  function SumTo(ranks: seq<real>, m: nat): real
    requires m <= |ranks|
  {
    if m == 0 then 0.0 else SumTo(ranks, m - 1) + ranks[m - 1]
  }

  lemma OneMore(a: real, c: real)
    ensures Times(a + 1.0, c) == Times(a, c) + c
  {
  }

  lemma {:induction false} SumConstant(ranks: seq<real>, s: nat, m: nat, c: real)
    requires s <= m <= |ranks| && forall k :: s <= k < m ==> ranks[k] == c
    ensures SumTo(ranks, m) == SumTo(ranks, s) + Times(m as real - s as real, c)
  {
    if m > s {
      SumConstant(ranks, s, m - 1, c);
      OneMore((m - 1) as real - s as real, c);
    }
  }

  function Triangle(n: real): real { n * (n + 1.0) / 2.0 }

  lemma RunArea(s: real, e: real)
    ensures Times(e - s, (s + 1.0 + e) / 2.0) == Triangle(e) - Triangle(s)
  {
  }

  /** Whatever the ties, the ranks up to the end of a run add up to 1 + 2 + ... + e; so all n
      ranks add up to n(n + 1)/2. */
  lemma {:induction false} RanksSum<K>(keys: seq<K>, ranks: seq<real>, e: nat)
    requires |ranks| == |keys| && forall i :: 0 <= i < |keys| ==> ranks[i] == Rank(keys, i)
    requires e <= |keys| && (0 < e < |keys| ==> keys[e] != keys[e - 1])
    ensures SumTo(ranks, e) == Triangle(e as real)
  {
    if e > 0 {
      var s := RunStart(keys, e - 1);
      RanksSum(keys, ranks, s);
      RunSum(keys, ranks, s, e);
    }
  }

  lemma RunSum<K>(keys: seq<K>, ranks: seq<real>, s: nat, e: nat)
    requires |ranks| == |keys| && forall i :: 0 <= i < |keys| ==> ranks[i] == Rank(keys, i)
    requires IsRun(keys, s, e)
    ensures SumTo(ranks, e) == SumTo(ranks, s) + Triangle(e as real) - Triangle(s as real)
  {
    var c := (s as real + 1.0 + e as real) / 2.0;
    forall k | s <= k < e ensures ranks[k] == c {
      RunIs(keys, s, e, k);
      HalfSum(s, e);
    }
    SumConstant(ranks, s, e, c);
    RunArea(s as real, e as real);
  }

  lemma HalfSum(s: nat, e: nat)
    ensures (s + 1 + e) as real / 2.0 == (s as real + 1.0 + e as real) / 2.0
  {
  }

  predicate Sorted(keys: seq<int>) {
    forall i, j :: 0 <= i <= j < |keys| ==> keys[i] <= keys[j]
  }

  function CountLess(keys: seq<int>, x: int): nat {
    if keys == [] then 0 else CountLess(keys[..|keys| - 1], x) + (if keys[|keys| - 1] < x then 1 else 0)
  }

  function CountEqual(keys: seq<int>, x: int): nat {
    if keys == [] then 0 else CountEqual(keys[..|keys| - 1], x) + (if keys[|keys| - 1] == x then 1 else 0)
  }

  /** In sorted keys the smaller ones stand before the run and the equal ones are the run. */
  lemma SortedAround(keys: seq<int>, s: nat, e: nat, k: nat)
    requires Sorted(keys) && IsRun(keys, s, e) && k < |keys|
    ensures keys[k] < keys[s] <==> k < s
    ensures keys[k] == keys[s] <==> s <= k < e
  {
    if k < s { assert keys[k] <= keys[s - 1] <= keys[s]; }
    if k >= e { assert keys[s] <= keys[e] <= keys[k]; }
  }

  lemma RunAround(keys: seq<int>, i: nat)
    requires i < |keys|
    ensures IsRun(keys, RunStart(keys, i), RunEnd(keys, i)) && keys[RunStart(keys, i)] == keys[i]
  {
  }

  lemma {:induction false} CountPrefix(keys: seq<int>, m: nat, s: nat, e: nat)
    requires Sorted(keys) && m <= |keys| && IsRun(keys, s, e)
    ensures CountLess(keys[..m], keys[s]) == Min(m, s)
    ensures CountEqual(keys[..m], keys[s]) == Min(m, e) - Min(m, s)
  {
    if m > 0 {
      CountPrefix(keys, m - 1, s, e);
      assert keys[..m][..m - 1] == keys[..m - 1];
      SortedAround(keys, s, e, m - 1);
    }
  }

  /** On sorted keys the rank is the number strictly better plus half of one more than the
      number tied. */
  lemma RankCounts(keys: seq<int>, i: nat)
    requires Sorted(keys) && i < |keys|
    ensures Rank(keys, i) == CountLess(keys, keys[i]) as real + (CountEqual(keys, keys[i]) + 1) as real / 2.0
  {
    RunAround(keys, i);
    CountPrefix(keys, |keys|, RunStart(keys, i), RunEnd(keys, i));
    assert keys[..|keys|] == keys;
  }
}
