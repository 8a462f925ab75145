/** Small value types and list reductions shared by the other modules:
    Python's `None`, error-or-value returns, and the built-ins `min`, `max`
    and `sum` over lists of numbers. */
module Common {

  datatype Option<T> = None | Some(value: T)

  /** A successful value or one of the error dictionaries the analyzer returns. */
  datatype Result<T, E> = Success(value: T) | Failure(error: E)

  /** `s[:k]` for a non-negative `k`. */
  function Take<T>(s: seq<T>, k: nat): (r: seq<T>)
    ensures |r| == if k <= |s| then k else |s|
    ensures r == s[..|r|]
  {
    if k <= |s| then s[..k] else s
  }

  /** `s[:k]` for any integer `k`: a negative `k` drops `-k` elements from the end. */
  function PySlicePrefix<T>(s: seq<T>, k: int): (r: seq<T>)
    ensures k >= 0 ==> r == Take(s, k)
    ensures k < 0 ==> |r| == if |s| + k < 0 then 0 else |s| + k
    ensures r == s[..|r|]
  {
    if k >= 0 then Take(s, k)
    else if |s| + k < 0 then []
    else s[..|s| + k]
  }

  /** Python's `min` over a non-empty list: the first minimal element. */
  function MinOf(s: seq<real>): (m: real)
    requires |s| > 0
    ensures m in s
    ensures forall i :: 0 <= i < |s| ==> m <= s[i]
  {
    if |s| == 1 then s[0]
    else
      var rest := MinOf(s[..|s| - 1]);
      if s[|s| - 1] < rest then s[|s| - 1] else rest
  }

  /** Python's `max` over a non-empty list. */
  function MaxOf(s: seq<real>): (m: real)
    requires |s| > 0
    ensures m in s
    ensures forall i :: 0 <= i < |s| ==> s[i] <= m
  {
    if |s| == 1 then s[0]
    else
      var rest := MaxOf(s[..|s| - 1]);
      if s[|s| - 1] > rest then s[|s| - 1] else rest
  }

  /** The minimum is the one element of the list that bounds all the others. */
  lemma MinOfUnique(s: seq<real>, m: real)
    requires m in s
    requires forall i :: 0 <= i < |s| ==> m <= s[i]
    ensures MinOf(s) == m
  {
  }

  /** The minimum of a concatenation is the smaller of the two minima. */
  lemma MinOfConcat(x: seq<real>, y: seq<real>)
    requires |x| > 0 && |y| > 0
    ensures MinOf(x + y) == if MinOf(y) < MinOf(x) then MinOf(y) else MinOf(x)
  {
    var m := if MinOf(y) < MinOf(x) then MinOf(y) else MinOf(x);
    forall i | 0 <= i < |x + y|
      ensures m <= (x + y)[i]
    {
      if i < |x| {
        assert (x + y)[i] == x[i];
      } else {
        assert (x + y)[i] == y[i - |x|];
      }
    }
    assert m in x + y;
    MinOfUnique(x + y, m);
  }

  /** Python's `sum`, adding from the left. */
  function Sum(s: seq<real>): real
  {
    if s == [] then 0.0 else Sum(s[..|s| - 1]) + s[|s| - 1]
  }

  /** A lower bound on every element bounds the sum from below. */
  lemma {:induction false} SumAtLeast(s: seq<real>, lo: real)
    requires forall i :: 0 <= i < |s| ==> lo <= s[i]
    ensures Sum(s) >= |s| as real * lo
  {
    if s != [] {
      SumAtLeast(s[..|s| - 1], lo);
    }
  }

  /** An upper bound on every element bounds the sum from above. */
  lemma {:induction false} SumAtMost(s: seq<real>, hi: real)
    requires forall i :: 0 <= i < |s| ==> s[i] <= hi
    ensures Sum(s) <= |s| as real * hi
  {
    if s != [] {
      SumAtMost(s[..|s| - 1], hi);
    }
  }

  /** The mean of a non-empty list lies between any bounds on its elements. */
  lemma MeanWithin(s: seq<real>, lo: real, hi: real)
    requires |s| > 0
    requires forall i :: 0 <= i < |s| ==> lo <= s[i] <= hi
    ensures lo <= Sum(s) / (|s| as real) <= hi
  {
    SumAtLeast(s, lo);
    SumAtMost(s, hi);
    DividedBounds(Sum(s), |s| as real, lo, hi);
  }

  lemma DividedBounds(a: real, n: real, lo: real, hi: real)
    requires n > 0.0 && n * lo <= a <= n * hi
    ensures lo <= a / n <= hi
  {
  }

  /** The mean of a non-empty list lies between its minimum and its maximum. */
  lemma MeanBetweenMinAndMax(s: seq<real>)
    requires |s| > 0
    ensures MinOf(s) <= Sum(s) / (|s| as real) <= MaxOf(s)
  {
    MeanWithin(s, MinOf(s), MaxOf(s));
  }

  predicate Distinct<T(==)>(s: seq<T>)
  {
    forall i, j :: 0 <= i < j < |s| ==> s[i] != s[j]
  }
}
