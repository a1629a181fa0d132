/** Shared vocabulary of the analysis pipeline: missing values, error outcomes
    and the numpy/pandas reductions (sum, mean, max, argmax, min, argmin) that
    the indicator, pattern and backtest stages apply to slices of a series. */
module Common {

  /** A cell of a pandas column: None stands for NaN. */
  datatype Option<+T> = None | Some(value: T)

  /** The outcome of an operation that can raise. */
  datatype Result<+T, +E> = Ok(value: T) | Err(error: E)

  function Abs(x: real): (r: real)
    ensures r >= 0.0 && (r == x || r == -x)
  {
    if x < 0.0 then -x else x
  }

  function MaxOf(a: real, b: real): (r: real)
    ensures r >= a && r >= b && (r == a || r == b)
  {
    if a >= b then a else b
  }

  lemma MulNonNegative(a: real, b: real)
    requires a >= 0.0 && b >= 0.0
    ensures a * b >= 0.0
  {
  }

  /** Sum of a series, accumulated left to right. */
  function Sum(s: seq<real>): real
  {
    if |s| == 0 then 0.0 else Sum(s[..|s| - 1]) + s[|s| - 1]
  }

  /** Sum of an integer series, accumulated left to right. */
  function SumInt(s: seq<int>): int
  {
    if |s| == 0 then 0 else SumInt(s[..|s| - 1]) + s[|s| - 1]
  }

  function Mean(s: seq<real>): real
    requires |s| > 0
  {
    Sum(s) / (|s| as real)
  }

  lemma {:induction false} SumBounds(s: seq<real>, lo: real, hi: real)
    requires forall i :: 0 <= i < |s| ==> lo <= s[i] <= hi
    ensures (|s| as real) * lo <= Sum(s) <= (|s| as real) * hi
  {
    if |s| > 0 {
      SumBounds(s[..|s| - 1], lo, hi);
    }
  }

  /** A mean lies between any lower and upper bound of its elements. */
  lemma MeanBounds(s: seq<real>, lo: real, hi: real)
    requires |s| > 0
    requires forall i :: 0 <= i < |s| ==> lo <= s[i] <= hi
    ensures lo <= Mean(s) <= hi
  {
    SumBounds(s, lo, hi);
    var n := |s| as real;
    assert Sum(s) / n >= lo by {
      assert Sum(s) >= n * lo;
    }
    assert Sum(s) / n <= hi by {
      assert Sum(s) <= n * hi;
    }
  }

  lemma {:induction false} SumOfConstant(s: seq<real>, c: real)
    requires forall i :: 0 <= i < |s| ==> s[i] == c
    ensures Sum(s) == (|s| as real) * c
  {
    if |s| > 0 {
      SumOfConstant(s[..|s| - 1], c);
    }
  }

  /** numpy's argmax over xs[lo..hi], as an index into xs: the FIRST index
      holding the largest element. Its defining properties are stated by
      ArgMaxIsFirstMax rather than here, so that every use of a maximum does
      not bring them along. */
  function ArgMaxIn(xs: seq<real>, lo: int, hi: int): (k: int)
    requires 0 <= lo < hi <= |xs|
    ensures lo <= k < hi
    decreases hi - lo
  {
    if hi == lo + 1 then lo
    else
      var k := ArgMaxIn(xs, lo, hi - 1);
      if xs[hi - 1] > xs[k] then hi - 1 else k
  }

  /** numpy's argmin over xs[lo..hi]: the FIRST index holding the smallest
      element. */
  function ArgMinIn(xs: seq<real>, lo: int, hi: int): (k: int)
    requires 0 <= lo < hi <= |xs|
    ensures lo <= k < hi
    decreases hi - lo
  {
    if hi == lo + 1 then lo
    else
      var k := ArgMinIn(xs, lo, hi - 1);
      if xs[hi - 1] < xs[k] then hi - 1 else k
  }

  /** `xs[lo:hi].max()` */
  function MaxIn(xs: seq<real>, lo: int, hi: int): real
    requires 0 <= lo < hi <= |xs|
  {
    xs[ArgMaxIn(xs, lo, hi)]
  }

  /** `xs[lo:hi].min()` */
  function MinIn(xs: seq<real>, lo: int, hi: int): real
    requires 0 <= lo < hi <= |xs|
  {
    xs[ArgMinIn(xs, lo, hi)]
  }

  function Max(s: seq<real>): real
    requires |s| > 0
  {
    MaxIn(s, 0, |s|)
  }

  function Min(s: seq<real>): real
    requires |s| > 0
  {
    MinIn(s, 0, |s|)
  }

  /** ArgMaxIn holds a largest element of the range, and every earlier
      element of the range is strictly smaller. */
  lemma {:induction false} ArgMaxIsFirstMax(xs: seq<real>, lo: int, hi: int)
    requires 0 <= lo < hi <= |xs|
    ensures forall j :: lo <= j < hi ==> xs[j] <= xs[ArgMaxIn(xs, lo, hi)]
    ensures forall j :: lo <= j < ArgMaxIn(xs, lo, hi) ==> xs[j] < xs[ArgMaxIn(xs, lo, hi)]
    decreases hi - lo
  {
    if hi > lo + 1 {
      ArgMaxIsFirstMax(xs, lo, hi - 1);
    }
  }

  /** ArgMinIn holds a smallest element of the range, and every earlier
      element of the range is strictly larger. */
  lemma {:induction false} ArgMinIsFirstMin(xs: seq<real>, lo: int, hi: int)
    requires 0 <= lo < hi <= |xs|
    ensures forall j :: lo <= j < hi ==> xs[ArgMinIn(xs, lo, hi)] <= xs[j]
    ensures forall j :: lo <= j < ArgMinIn(xs, lo, hi) ==> xs[ArgMinIn(xs, lo, hi)] < xs[j]
    decreases hi - lo
  {
    if hi > lo + 1 {
      ArgMinIsFirstMin(xs, lo, hi - 1);
    }
  }

  lemma MaxIsUpperBound(s: seq<real>)
    requires |s| > 0
    ensures forall j :: 0 <= j < |s| ==> s[j] <= Max(s)
  {
    ArgMaxIsFirstMax(s, 0, |s|);
  }

  lemma MinIsLowerBound(s: seq<real>)
    requires |s| > 0
    ensures forall j :: 0 <= j < |s| ==> Min(s) <= s[j]
  {
    ArgMinIsFirstMin(s, 0, |s|);
  }

  /** The first-maximum index is pinned down by its two defining properties. */
  lemma ArgMaxUnique(xs: seq<real>, lo: int, hi: int, k: int)
    requires 0 <= lo <= k < hi <= |xs|
    requires forall j :: lo <= j < hi ==> xs[j] <= xs[k]
    requires forall j :: lo <= j < k ==> xs[j] < xs[k]
    ensures ArgMaxIn(xs, lo, hi) == k
  {
    ArgMaxIsFirstMax(xs, lo, hi);
  }

  /** Splitting a range at `mid`: the maximum of the whole is the larger of
      the two maxima, and its first index lies in the left part exactly when
      the left maximum is not smaller than the right one. */
  lemma ArgMaxSplit(xs: seq<real>, lo: int, mid: int, hi: int)
    requires 0 <= lo < mid < hi <= |xs|
    ensures MaxIn(xs, lo, hi) == MaxOf(MaxIn(xs, lo, mid), MaxIn(xs, mid, hi))
    ensures MaxIn(xs, lo, mid) >= MaxIn(xs, mid, hi) ==> ArgMaxIn(xs, lo, hi) == ArgMaxIn(xs, lo, mid)
    ensures MaxIn(xs, lo, mid) < MaxIn(xs, mid, hi) ==> ArgMaxIn(xs, lo, hi) == ArgMaxIn(xs, mid, hi)
  {
    ArgMaxIsFirstMax(xs, lo, mid);
    ArgMaxIsFirstMax(xs, mid, hi);
    if MaxIn(xs, lo, mid) >= MaxIn(xs, mid, hi) {
      ArgMaxUnique(xs, lo, hi, ArgMaxIn(xs, lo, mid));
    } else {
      ArgMaxUnique(xs, lo, hi, ArgMaxIn(xs, mid, hi));
    }
  }
}
