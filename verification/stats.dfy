/** Descriptive statistics over sequences of numbers: the `reduce` sums and
    the spread `Math.max(...xs)` / `Math.min(...xs)` calls of the charts. */
module Stats {

  /** `xs.reduce((sum, v) => sum + v, 0)`. */
  function Sum(xs: seq<real>): real
  {
    if |xs| == 0 then 0.0 else xs[0] + Sum(xs[1..])
  }

  /** `Math.max(...xs)` on a non-empty array: an element that bounds all others. */
  function SeqMax(xs: seq<real>): (r: real)
    requires |xs| > 0
    ensures r in xs
    ensures forall i :: 0 <= i < |xs| ==> xs[i] <= r
  {
    if |xs| == 1 then xs[0]
    else
      var rest := SeqMax(xs[1..]);
      if xs[0] >= rest then xs[0] else rest
  }

  /** `Math.min(...xs)` on a non-empty array: an element bounded by all others. */
  function SeqMin(xs: seq<real>): (r: real)
    requires |xs| > 0
    ensures r in xs
    ensures forall i :: 0 <= i < |xs| ==> r <= xs[i]
  {
    if |xs| == 1 then xs[0]
    else
      var rest := SeqMin(xs[1..]);
      if xs[0] <= rest then xs[0] else rest
  }

  /** The arithmetic mean of a non-empty sequence. */
  function Mean(xs: seq<real>): real
    requires |xs| > 0
  {
    Sum(xs) / (|xs| as real)
  }

  /** Bounding every element bounds the sum by the length times the bound. */
  lemma {:induction false} SumBounds(xs: seq<real>, lo: real, hi: real)
    requires forall i :: 0 <= i < |xs| ==> lo <= xs[i] <= hi
    ensures (|xs| as real) * lo <= Sum(xs) <= (|xs| as real) * hi
  {
    if |xs| > 0 {
      SumBounds(xs[1..], lo, hi);
      assert (|xs| as real) * lo == lo + ((|xs| - 1) as real) * lo;
      assert (|xs| as real) * hi == hi + ((|xs| - 1) as real) * hi;
    }
  }

  /** A mean lies between the smallest and the largest element. */
  lemma {:induction false} MeanWithinSpread(xs: seq<real>)
    requires |xs| > 0
    ensures SeqMin(xs) <= Mean(xs) <= SeqMax(xs)
  {
    var n, lo, hi := |xs| as real, SeqMin(xs), SeqMax(xs);
    SumBounds(xs, lo, hi);
    QuotientBounds(Sum(xs), n, lo, hi);
    assert Mean(xs) == Sum(xs) / n;
  }

  lemma QuotientBounds(s: real, n: real, lo: real, hi: real)
    requires n > 0.0
    requires n * lo <= s <= n * hi
    ensures lo <= s / n <= hi
  {
    var q := s / n;
    assert s == n * q;
    assert n * (q - lo) >= 0.0;
    assert n * (hi - q) >= 0.0;
  }

  /** The sum of a concatenation is the sum of the parts. */
  lemma {:induction false} SumAppend(a: seq<real>, b: seq<real>)
    ensures Sum(a + b) == Sum(a) + Sum(b)
  {
    if |a| > 0 {
      assert (a + b)[1..] == a[1..] + b;
      SumAppend(a[1..], b);
    } else {
      assert a + b == b;
    }
  }
}
