/** Sums of real sequences. `Sum` is the reference definition; `FoldSum` is the
    left-to-right accumulation that JavaScript's `reduce((a, x) => a + x, acc)`
    and Python's built-in `sum` perform. Floating-point rounding is not
    modelled: the numbers are mathematical reals. */
module Sums {

  function Sum(s: seq<real>): real {
    if s == [] then 0.0 else Sum(s[..|s| - 1]) + s[|s| - 1]
  }

  function FoldSum(acc: real, s: seq<real>): real
    decreases |s|
  {
    if s == [] then acc else FoldSum(acc + s[0], s[1..])
  }

  lemma {:induction false} SumAppend(a: seq<real>, b: seq<real>)
    ensures Sum(a + b) == Sum(a) + Sum(b)
    decreases |b|
  {
    if b == [] {
      assert a + b == a;
    } else {
      var c := a + b;
      assert c[..|c| - 1] == a + b[..|b| - 1];
      SumAppend(a, b[..|b| - 1]);
    }
  }

  lemma SumCons(x: real, s: seq<real>)
    ensures Sum([x] + s) == x + Sum(s)
  {
    SumAppend([x], s);
    assert Sum([x]) == Sum([]) + x by { assert [x][..0] == []; }
  }

  /** The left fold computes the reference sum, shifted by its start value. */
  lemma {:induction false} FoldSumIsSum(acc: real, s: seq<real>)
    ensures FoldSum(acc, s) == acc + Sum(s)
    decreases |s|
  {
    if s != [] {
      FoldSumIsSum(acc + s[0], s[1..]);
      assert s == [s[0]] + s[1..];
      SumCons(s[0], s[1..]);
    }
  }

  /** Bounds on every element bound the sum. */
  lemma {:induction false} SumBounds(s: seq<real>, lo: real, hi: real)
    requires forall i :: 0 <= i < |s| ==> lo <= s[i] <= hi
    ensures (|s| as real) * lo <= Sum(s) <= (|s| as real) * hi
    decreases |s|
  {
    if s != [] {
      var p := s[..|s| - 1];
      assert forall i :: 0 <= i < |p| ==> p[i] == s[i];
      SumBounds(p, lo, hi);
      var n := |p| as real;
      var m := |s| as real;
      assert Sum(s) == Sum(p) + s[|s| - 1];
      assert lo <= s[|s| - 1] <= hi;
      assert m == n + 1.0;
      assert m * lo == n * lo + lo;
      assert m * hi == n * hi + hi;
    }
  }
}
