/** Integer helpers for the averages the tool computes. */
module Arith {
  import opened Wrappers

  function Sum(xs: seq<int>): int
  {
    if xs == [] then 0 else Sum(xs[..|xs| - 1]) + xs[|xs| - 1]
  }

  /** Python's `int(a / b)`: the quotient truncated toward zero (Dafny's own
      `/` rounds toward minus infinity for a negative dividend). */
  function TruncDiv(a: int, b: nat): (q: int)
    requires b > 0
    ensures a >= 0 ==> 0 <= q * b <= a < q * b + b
    ensures a < 0 ==> q * b - b < a <= q * b <= 0
  {
    if a >= 0 then DivFacts(a, b); a / b
    else DivFacts(-a, b); NegMul((-a) / b, b); -((-a) / b)
  }

  /** `int(sum(xs) / len(xs)) if xs else None`. */
  function TruncatedMean(xs: seq<int>): (r: Option<int>)
    ensures r.None? <==> xs == []
  {
    if xs == [] then None else Some(TruncDiv(Sum(xs), |xs|))
  }

  lemma {:induction false} SumBounds(xs: seq<int>, lo: int, hi: int)
    requires forall i :: 0 <= i < |xs| ==> lo <= xs[i] <= hi
    ensures |xs| * lo <= Sum(xs) <= |xs| * hi
  {
    if xs != [] {
      SumBounds(xs[..|xs| - 1], lo, hi);
    }
  }

  lemma CancelFactor(a: int, b: int, n: int)
    requires n > 0 && a * n < b * n + n
    ensures a <= b
  {
    if a > b {
      MulNonNegative(a - b - 1, n);
      assert false;
    }
  }

  /** The truncated mean of a non-empty list lies between any lower and
      upper bound of its elements. */
  lemma MeanWithinBounds(xs: seq<int>, lo: int, hi: int)
    requires xs != []
    requires forall i :: 0 <= i < |xs| ==> lo <= xs[i] <= hi
    ensures lo <= TruncatedMean(xs).value <= hi
  {
    SumBounds(xs, lo, hi);
    var n, s := |xs|, Sum(xs);
    var q := TruncDiv(s, n);
    if s >= 0 {
      CancelFactor(q, hi, n);
      CancelFactor(lo - 1, q, n);
    } else {
      CancelFactor(lo - 1, q - 1, n);
      CancelFactor(q - 1, hi - 1, n);
    }
  }

  /** The truncated mean lies between the least and the greatest element. */
  lemma MeanBetweenMinAndMax(xs: seq<int>, i: nat, j: nat)
    requires i < |xs| && j < |xs|
    requires forall k :: 0 <= k < |xs| ==> xs[i] <= xs[k] <= xs[j]
    ensures xs[i] <= TruncatedMean(xs).value <= xs[j]
  {
    MeanWithinBounds(xs, xs[i], xs[j]);
  }

  // ------------------------------------------------------ solver aids
  // Plain arithmetic facts the proofs above call; they state nothing
  // about the source.

  lemma DivFacts(a: nat, b: nat)
    requires b > 0
    ensures 0 <= (a / b) * b <= a < (a / b) * b + b
  {
  }

  lemma NegMul(m: int, b: int)
    ensures (-m) * b == -(m * b)
  {
  }

  lemma MulNonNegative(d: int, n: int)
    requires d >= 0 && n >= 0
    ensures d * n >= 0
  {
  }
}
