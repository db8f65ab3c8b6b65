/** ICPC problem labels A, B, ..., Z, AA, AB, ...: bijective base 26. */
module IcpcLabel {
  import opened Basics

  predicate Letter(c: char) { 'A' <= c <= 'Z' }

  predicate IsLabel(s: string) {
    s != [] && forall i :: 0 <= i < |s| ==> Letter(s[i])
  }

  function LetterOf(d: nat): (c: char)
    requires d < 26
    ensures Letter(c)
  {
    (d + 65) as char
  }

  function Digit(c: char): (d: nat)
    requires Letter(c)
    ensures d < 26
  {
    c as int - 65
  }

  /** The label of the positive number n; "" for 0. */
  function Numeral(n: nat): (s: string)
    ensures n > 0 <==> s != []
    ensures forall i :: 0 <= i < |s| ==> Letter(s[i])
  {
    if n == 0 then "" else Numeral((n - 1) / 26) + [LetterOf((n - 1) % 26)]
  }

  function Label(index: nat): (s: string)
    ensures IsLabel(s)
  {
    Numeral(index + 1)
  }

  function Reverse(s: string): (r: string)
    ensures |r| == |s|
  {
    if s == [] then [] else Reverse(s[1..]) + [s[0]]
  }

  /** The loop collects the letters from the last to the first and reverses them. */
  method GetLabelForProblem(index: nat) returns (name: string)
    ensures name == Label(index)
  {
    var n: nat := index + 1;
    var ret := "";
    assert Numeral(n) + Reverse(ret) == Label(index);
    while n > 0
      invariant Numeral(n) + Reverse(ret) == Label(index)
      decreases n
    {
      var c := LetterOf((n - 1) % 26);
      ReverseAppend(ret, c);
      assert Numeral((n - 1) / 26) + ([c] + Reverse(ret)) == Numeral(n) + Reverse(ret);
      ret := ret + [c];
      n := (n - 1) / 26;
    }
    assert "" + Reverse(ret) == Reverse(ret);
    name := Reverse(ret);
  }

  lemma {:induction false} ReverseAppend(s: string, c: char)
    ensures Reverse(s + [c]) == [c] + Reverse(s)
  {
    if s != [] {
      assert (s + [c])[1..] == s[1..] + [c];
      ReverseAppend(s[1..], c);
    }
  }

  // ---------- the decoder ----------

  /** Read a label as a number in bijective base 26. */
  function Value(s: string): nat
    requires forall i :: 0 <= i < |s| ==> Letter(s[i])
  {
    if s == [] then 0 else Value(s[..|s| - 1]) * 26 + Digit(s[|s| - 1]) + 1
  }

  lemma {:induction false} ValueOfNumeral(n: nat)
    ensures Value(Numeral(n)) == n
  {
    if n > 0 {
      var s := Numeral(n);
      ValueOfNumeral((n - 1) / 26);
      assert s[..|s| - 1] == Numeral((n - 1) / 26);
    }
  }

  lemma NumeralAppend(v: nat, d: nat)
    requires d < 26
    ensures Numeral(v * 26 + d + 1) == Numeral(v) + [LetterOf(d)]
  {
    QuotientRemainder(v, d, 26);
  }

  lemma {:induction false} NumeralOfValue(s: string)
    requires forall i :: 0 <= i < |s| ==> Letter(s[i])
    ensures Numeral(Value(s)) == s
    decreases |s|
  {
    if s != [] {
      var init, d := s[..|s| - 1], Digit(s[|s| - 1]);
      NumeralOfValue(init);
      NumeralAppend(Value(init), d);
      assert s == init + [s[|s| - 1]];
    }
  }

  lemma DecodeLabel(index: nat)
    ensures Value(Label(index)) == index + 1
  {
    ValueOfNumeral(index + 1);
  }

  lemma LabelDecoded(s: string)
    requires IsLabel(s)
    ensures Value(s) >= 1 && Label(Value(s) - 1) == s
  {
    NumeralOfValue(s);
  }

  /** Decoding inverts labelling, and every nonempty string of capital letters is the label of
      exactly one index. */
  lemma LabelBijective(index: nat, s: string)
    requires IsLabel(s)
    ensures Value(Label(index)) - 1 == index
    ensures Value(s) >= 1 && Label(Value(s) - 1) == s
    ensures Label(index) == s <==> index == Value(s) - 1
  {
    DecodeLabel(index);
    LabelDecoded(s);
  }

  // ---------- order ----------

  /** Shorter first, then letter by letter. */
  predicate Before(s: string, t: string) {
    |s| < |t| || (|s| == |t| && LexBefore(s, t))
  }

  predicate LexBefore(s: string, t: string)
    requires |s| == |t|
  {
    s != [] && (LexBefore(s[..|s| - 1], t[..|t| - 1]) || (s[..|s| - 1] == t[..|t| - 1] && s[|s| - 1] < t[|t| - 1]))
  }

  /** The strings agree before k and s is smaller there. */
  predicate SmallerAt(s: string, t: string, k: int)
    requires |s| == |t|
  {
    0 <= k < |s| && s[..k] == t[..k] && s[k] < t[k]
  }

  lemma SmallerInFront(s: string, t: string, k: nat)
    requires |s| == |t| && k < |s| - 1
    ensures SmallerAt(s, t, k) <==> SmallerAt(s[..|s| - 1], t[..|t| - 1], k)
  {
    var n := |s| - 1;
    assert s[..n][..k] == s[..k] && t[..n][..k] == t[..k];
  }

  /** LexBefore compares at the first place where the strings differ. */
  lemma {:induction false} LexIsFirstDifference(s: string, t: string)
    requires |s| == |t|
    ensures LexBefore(s, t) <==> exists k :: SmallerAt(s, t, k)
  {
    if s != [] {
      var n := |s| - 1;
      LexIsFirstDifference(s[..n], t[..n]);
      if k :| SmallerAt(s[..n], t[..n], k) { SmallerInFront(s, t, k); }
      if k :| SmallerAt(s, t, k) {
        if k < n { SmallerInFront(s, t, k); }
      }
      assert s[..n] == t[..n] && s[n] < t[n] <==> SmallerAt(s, t, n);
    }
  }

  /** Labels come in length-then-lexicographic order of the index. */
  lemma {:induction false} NumeralIncreases(m: nat, n: nat)
    requires m < n
    ensures Before(Numeral(m), Numeral(n))
    decreases n
  {
    if m > 0 {
      var p, q := (m - 1) / 26, (n - 1) / 26;
      var s, t := Numeral(m), Numeral(n);
      assert s[..|s| - 1] == Numeral(p) && t[..|t| - 1] == Numeral(q);
      assert p <= q;
      if p < q { NumeralIncreases(p, q); }
    }
  }

  lemma LabelsIncrease(i: nat, j: nat)
    ensures i < j <==> Before(Label(i), Label(j))
  {
    if i < j { NumeralIncreases(i + 1, j + 1); }
    else if j < i {
      NumeralIncreases(j + 1, i + 1);
      BeforeAsymmetric(Label(j), Label(i));
    } else { LexIrreflexive(Label(i)); }
  }

  lemma {:induction false} LexIrreflexive(s: string)
    ensures !LexBefore(s, s)
  {
    if s != [] { LexIrreflexive(s[..|s| - 1]); }
  }

  lemma BeforeAsymmetric(s: string, t: string)
    requires Before(s, t)
    ensures !Before(t, s)
  {
    if |s| == |t| { LexAsymmetric(s, t); }
  }

  lemma {:induction false} LexAsymmetric(s: string, t: string)
    requires |s| == |t| && LexBefore(s, t)
    ensures !LexBefore(t, s)
  {
    var a, b := s[..|s| - 1], t[..|t| - 1];
    if LexBefore(a, b) {
      LexAsymmetric(a, b);
      if a == b { LexIrreflexive(a); }
    } else {
      LexIrreflexive(a);
    }
  }
}
