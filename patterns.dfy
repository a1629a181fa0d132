/** The chart-pattern detectors. Each detector allocates a zero marker array
    as long as the series and slides a centred window over positions
    i in [window, n - window), writing a marker at the index it takes as the
    pattern's confirmation point. Support and resistance levels are taken
    from bars whose high (low) equals the centred rolling maximum (minimum). */
module Patterns {
  import opened Common

  const DETECT_WINDOW: nat := 30
  const SR_WINDOW: nat := 20
  const SR_THRESHOLD: real := 0.02

  /** numpy refuses `.min()` of an empty slice; the head-and-shoulders scan
      raises it at scan position `at`. */
  datatype PatternError = EmptyNeckline(at: int)

  function Zeros(n: nat): (z: seq<int>)
    ensures |z| == n && forall j :: 0 <= j < n ==> z[j] == 0
  {
    seq(n, _ => 0)
  }

  // ---------------------------------------------------------------------------
  // Head and shoulders
  // ---------------------------------------------------------------------------

  /** Scan position i has a full window of `w` bars on each side. */
  predicate Scannable(n: int, w: nat, i: int)
  {
    w <= i && i + w <= n
  }

  /** left_shoulder: the highest high of the left half [i-w, i) ... */
  function LeftHigh(high: seq<real>, w: nat, i: int): real
    requires w >= 1 && Scannable(|high|, w, i)
  {
    MaxIn(high, i - w, i)
  }

  /** ... and the index of its first occurrence. */
  function LeftIdx(high: seq<real>, w: nat, i: int): (k: int)
    requires w >= 1 && Scannable(|high|, w, i)
    ensures i - w <= k < i
  {
    ArgMaxIn(high, i - w, i)
  }

  /** head: the highest high of the whole window [i-w, i+w). */
  function HeadHigh(high: seq<real>, w: nat, i: int): real
    requires w >= 1 && Scannable(|high|, w, i)
  {
    MaxIn(high, i - w, i + w)
  }

  function HeadIdx(high: seq<real>, w: nat, i: int): (k: int)
    requires w >= 1 && Scannable(|high|, w, i)
    ensures i - w <= k < i + w
  {
    ArgMaxIn(high, i - w, i + w)
  }

  /** right_shoulder: the highest high of the right half [i, i+w). */
  function RightHigh(high: seq<real>, w: nat, i: int): real
    requires w >= 1 && Scannable(|high|, w, i)
  {
    MaxIn(high, i, i + w)
  }

  function RightIdx(high: seq<real>, w: nat, i: int): (k: int)
    requires w >= 1 && Scannable(|high|, w, i)
    ensures i <= k < i + w
  {
    ArgMaxIn(high, i, i + w)
  }

  /** The confirmation condition as written, at a position whose neckline
      slice low[leftIdx:headIdx] is not empty. */
  predicate HeadShouldersFires(high: seq<real>, low: seq<real>, w: nat, i: int)
    requires |low| == |high| && w >= 1
  {
    && Scannable(|high|, w, i)
    && LeftIdx(high, w, i) < HeadIdx(high, w, i)
    && var leftHigh, headHigh, rightHigh := LeftHigh(high, w, i), HeadHigh(high, w, i), RightHigh(high, w, i);
       var necklineLow := MinIn(low, LeftIdx(high, w, i), HeadIdx(high, w, i));
       && leftHigh < headHigh && rightHigh < headHigh
       && leftHigh > necklineLow && rightHigh > necklineLow
       && Abs(leftHigh - rightHigh) < 0.02 * headHigh
       && LeftIdx(high, w, i) < HeadIdx(high, w, i) < RightIdx(high, w, i)
  }

  /** The "head" is the highest bar of the whole window, so it is always the
      higher of the two shoulders, and its first index coincides with the
      left shoulder's when the left shoulder is not lower and with the right
      shoulder's otherwise. */
  lemma HeadIsHigherShoulder(high: seq<real>, w: nat, i: int)
    requires w >= 1 && Scannable(|high|, w, i)
    ensures HeadHigh(high, w, i) == MaxOf(LeftHigh(high, w, i), RightHigh(high, w, i))
    ensures LeftHigh(high, w, i) >= RightHigh(high, w, i) ==> HeadIdx(high, w, i) == LeftIdx(high, w, i)
    ensures LeftHigh(high, w, i) < RightHigh(high, w, i) ==> HeadIdx(high, w, i) == RightIdx(high, w, i)
  {
    ArgMaxSplit(high, i - w, i, i + w);
  }

  /** The neckline slice low[leftIdx:headIdx] is non-empty exactly when the
      right shoulder is strictly higher than the left one. */
  lemma NecklineNonEmptyIff(high: seq<real>, w: nat, i: int)
    requires w >= 1 && Scannable(|high|, w, i)
    ensures LeftIdx(high, w, i) < HeadIdx(high, w, i) <==> LeftHigh(high, w, i) < RightHigh(high, w, i)
  {
    HeadIsHigherShoulder(high, w, i);
  }

  /** "Both shoulders strictly below the head" cannot hold, so the detector
      never confirms a pattern. */
  lemma HeadShouldersNeverFires(high: seq<real>, low: seq<real>, w: nat, i: int)
    requires |low| == |high| && w >= 1
    ensures !HeadShouldersFires(high, low, w, i)
  {
    if Scannable(|high|, w, i) {
      HeadIsHigherShoulder(high, w, i);
    }
  }

  /** Every scan position has a non-empty neckline slice. */
  predicate NecklinesNonEmpty(high: seq<real>, w: nat)
    requires w >= 1
  {
    forall i :: w <= i < |high| - w ==> LeftHigh(high, w, i) < RightHigh(high, w, i)
  }

  /** The first scan position whose neckline slice is empty. */
  predicate FirstEmptyNeckline(high: seq<real>, w: nat, at: int)
    requires w >= 1
  {
    && w <= at < |high| - w
    && LeftHigh(high, w, at) >= RightHigh(high, w, at)
    && forall i :: w <= i < at ==> LeftHigh(high, w, i) < RightHigh(high, w, i)
  }

  /** One iteration of the scan: both shoulders, the head and the neckline.
      Reports instead of writing when the neckline slice low[leftIdx:headIdx]
      is empty, which is where numpy raises. */
  method MarkHeadShouldersAt(patterns: array<int>, high: seq<real>, low: seq<real>, window: nat, i: int)
    returns (emptyNeckline: bool)
    requires |low| == |high| && window >= 1 && Scannable(|high|, window, i) && patterns.Length == |high|
    modifies patterns
    ensures emptyNeckline <==> HeadIdx(high, window, i) <= LeftIdx(high, window, i)
    ensures patterns[..] == old(patterns[..])
  {
    var leftHigh := MaxIn(high, i - window, i);
    var leftIdx := ArgMaxIn(high, i - window, i);
    var headHigh := MaxIn(high, i - window, i + window);
    var headIdx := ArgMaxIn(high, i - window, i + window);
    var rightHigh := MaxIn(high, i, i + window);
    var rightIdx := ArgMaxIn(high, i, i + window);
    if headIdx <= leftIdx {
      return true;
    }
    var necklineLow := MinIn(low, leftIdx, headIdx);
    if leftHigh < headHigh && rightHigh < headHigh &&
       leftHigh > necklineLow && rightHigh > necklineLow &&
       Abs(leftHigh - rightHigh) < 0.02 * headHigh &&
       leftIdx < headIdx < rightIdx
    {
      patterns[rightIdx] := -1;
    }
    // the write above is dead: see HeadShouldersNeverFires
    HeadIsHigherShoulder(high, window, i);
    return false;
  }

  /** Raises at the first position whose head index equals the left
      shoulder's index, and otherwise returns all zeros: the bearish marker
      is never written. */
  method DetectHeadShoulders(high: seq<real>, low: seq<real>, window: nat) returns (r: Result<seq<int>, PatternError>)
    requires |low| == |high| && window >= 1
    ensures r.Ok? <==> NecklinesNonEmpty(high, window)
    ensures r.Err? ==> FirstEmptyNeckline(high, window, r.error.at)
    ensures r.Ok? ==> r.value == Zeros(|high|)
  {
    var n := |high|;
    var patterns := new int[n](_ => 0);
    var i := window;
    while i < n - window
      invariant window <= i && (i <= n - window || i == window)
      invariant forall k :: window <= k < i ==> LeftHigh(high, window, k) < RightHigh(high, window, k)
      invariant patterns[..] == Zeros(n)
    {
      var emptyNeckline := MarkHeadShouldersAt(patterns, high, low, window, i);
      NecklineNonEmptyIff(high, window, i);
      if emptyNeckline {
        assert FirstEmptyNeckline(high, window, i);
        return Err(EmptyNeckline(i));
      }
      i := i + 1;
    }
    assert NecklinesNonEmpty(high, window);
    r := Ok(patterns[..]);
  }

  // ---------------------------------------------------------------------------
  // Double top / double bottom
  // ---------------------------------------------------------------------------

  datatype DoubleKind = Top | Bottom

  /** A double top is marked -1 and a double bottom +1. */
  function DoubleMarker(kind: DoubleKind): int
  {
    if kind == Top then -1 else 1
  }

  /** peak1_idx (top) or trough1_idx (bottom): the first extreme of the left half. */
  function FirstExtremeIdx(high: seq<real>, low: seq<real>, kind: DoubleKind, w: nat, i: int): (k: int)
    requires |low| == |high| && w >= 1 && Scannable(|high|, w, i)
    ensures i - w <= k < i
  {
    if kind == Top then ArgMaxIn(high, i - w, i) else ArgMinIn(low, i - w, i)
  }

  /** peak2_idx (top) or trough2_idx (bottom): the first extreme of the right half. */
  function SecondExtremeIdx(high: seq<real>, low: seq<real>, kind: DoubleKind, w: nat, i: int): (k: int)
    requires |low| == |high| && w >= 1 && Scannable(|high|, w, i)
    ensures i <= k < i + w
  {
    if kind == Top then ArgMaxIn(high, i, i + w) else ArgMinIn(low, i, i + w)
  }

  /** Two peaks (troughs) within 2% of the first, the bars between them
      dipping below (rising above) it, at least w/2 bars apart. */
  predicate DoubleFires(high: seq<real>, low: seq<real>, kind: DoubleKind, w: nat, i: int)
    requires |low| == |high| && w >= 1
  {
    && Scannable(|high|, w, i)
    && var first, second := FirstExtremeIdx(high, low, kind, w, i), SecondExtremeIdx(high, low, kind, w, i);
       match kind
       case Top =>
         var peak1, peak2 := MaxIn(high, i - w, i), MaxIn(high, i, i + w);
         var trough := MinIn(low, first, second);
         Abs(peak1 - peak2) < 0.02 * peak1 && trough < peak1 && second - first >= w / 2
       case Bottom =>
         var trough1, trough2 := MinIn(low, i - w, i), MinIn(low, i, i + w);
         var peak := MaxIn(high, first, second);
         Abs(trough1 - trough2) < 0.02 * trough1 && peak > trough1 && second - first >= w / 2
  }

  /** Some scan position in [w, upto) confirms a formation whose second
      extreme is bar j. */
  predicate DoubleMarkedBefore(high: seq<real>, low: seq<real>, kind: DoubleKind, w: nat, upto: int, j: int)
    requires |low| == |high| && w >= 1
  {
    exists k :: w <= k < upto && DoubleFires(high, low, kind, w, k) && SecondExtremeIdx(high, low, kind, w, k) == j
  }

  /** The marker column after the scan positions below `upto`, position by
      position: a confirming position writes the kind's marker at its second
      extreme. */
  function DoubleMarkersBefore(high: seq<real>, low: seq<real>, kind: DoubleKind, w: nat, upto: int): (m: seq<int>)
    requires |low| == |high| && w >= 1
    ensures |m| == |high|
    decreases upto
  {
    if upto <= w then Zeros(|high|)
    else
      var prev := DoubleMarkersBefore(high, low, kind, w, upto - 1);
      if DoubleFires(high, low, kind, w, upto - 1)
      then prev[SecondExtremeIdx(high, low, kind, w, upto - 1) := DoubleMarker(kind)]
      else prev
  }

  /** The marker column the full scan produces. */
  function DoubleMarkers(high: seq<real>, low: seq<real>, kind: DoubleKind, w: nat): (m: seq<int>)
    requires |low| == |high| && w >= 1
    ensures |m| == |high|
  {
    DoubleMarkersBefore(high, low, kind, w, |high| - w)
  }

  /** Every marked bar is the second extreme of a confirming position. */
  lemma {:induction false} DoubleMarkersBeforeSound(high: seq<real>, low: seq<real>, kind: DoubleKind, w: nat,
                                                    upto: int, j: int)
    requires |low| == |high| && w >= 1 && 0 <= j < |high|
    ensures DoubleMarkersBefore(high, low, kind, w, upto)[j] in {0, DoubleMarker(kind)}
    ensures DoubleMarkersBefore(high, low, kind, w, upto)[j] != 0 ==> DoubleMarkedBefore(high, low, kind, w, upto, j)
    decreases upto
  {
    if upto > w {
      var k := upto - 1;
      DoubleMarkersBeforeSound(high, low, kind, w, k, j);
      if DoubleMarkedBefore(high, low, kind, w, k, j) {
        var k' :| w <= k' < k && DoubleFires(high, low, kind, w, k') && SecondExtremeIdx(high, low, kind, w, k') == j;
        assert w <= k' < upto;
      }
    }
  }

  /** Every confirming position's second extreme holds the marker. */
  lemma {:induction false} DoubleMarkersBeforeComplete(high: seq<real>, low: seq<real>, kind: DoubleKind, w: nat,
                                                       upto: int, k: int)
    requires |low| == |high| && w >= 1 && w <= k < upto && DoubleFires(high, low, kind, w, k)
    ensures DoubleMarkersBefore(high, low, kind, w, upto)[SecondExtremeIdx(high, low, kind, w, k)] == DoubleMarker(kind)
    decreases upto
  {
    if k < upto - 1 {
      DoubleMarkersBeforeComplete(high, low, kind, w, upto - 1, k);
    }
  }

  /** One scan position changes at most its second extreme. */
  lemma DoubleMarkersStep(high: seq<real>, low: seq<real>, kind: DoubleKind, w: nat, i: int)
    requires |low| == |high| && w >= 1 && w <= i
    ensures DoubleMarkersBefore(high, low, kind, w, i + 1) ==
              if DoubleFires(high, low, kind, w, i)
              then DoubleMarkersBefore(high, low, kind, w, i)[SecondExtremeIdx(high, low, kind, w, i) := DoubleMarker(kind)]
              else DoubleMarkersBefore(high, low, kind, w, i)
  {
  }

  /** One iteration of the scan: the extremes of both halves, the bars
      between them, and the marker write when the formation is confirmed. */
  method MarkDoubleAt(patterns: array<int>, high: seq<real>, low: seq<real>, kind: DoubleKind, window: nat, i: int)
    requires |low| == |high| && window >= 1 && Scannable(|high|, window, i) && patterns.Length == |high|
    modifies patterns
    ensures patterns[..] ==
              if DoubleFires(high, low, kind, window, i)
              then old(patterns[..])[SecondExtremeIdx(high, low, kind, window, i) := DoubleMarker(kind)]
              else old(patterns[..])
  {
    if kind == Top {
      var peak1 := MaxIn(high, i - window, i);
      var peak1Idx := ArgMaxIn(high, i - window, i);
      var peak2 := MaxIn(high, i, i + window);
      var peak2Idx := ArgMaxIn(high, i, i + window);
      var trough := MinIn(low, peak1Idx, peak2Idx);
      if Abs(peak1 - peak2) < 0.02 * peak1 && trough < peak1 && peak2Idx - peak1Idx >= window / 2 {
        patterns[peak2Idx] := -1;
      }
    } else {
      var trough1 := MinIn(low, i - window, i);
      var trough1Idx := ArgMinIn(low, i - window, i);
      var trough2 := MinIn(low, i, i + window);
      var trough2Idx := ArgMinIn(low, i, i + window);
      var peak := MaxIn(high, trough1Idx, trough2Idx);
      if Abs(trough1 - trough2) < 0.02 * trough1 && peak > trough1 && trough2Idx - trough1Idx >= window / 2 {
        patterns[trough2Idx] := 1;
      }
    }
  }

  /** The scan's step: after position i the column is the one the
      positions up to i produce. */
  method ScanDoubleAt(patterns: array<int>, high: seq<real>, low: seq<real>, kind: DoubleKind, window: nat, i: int)
    requires |low| == |high| && window >= 1 && Scannable(|high|, window, i) && patterns.Length == |high|
    requires patterns[..] == DoubleMarkersBefore(high, low, kind, window, i)
    modifies patterns
    ensures patterns[..] == DoubleMarkersBefore(high, low, kind, window, i + 1)
  {
    DoubleMarkersStep(high, low, kind, window, i);
    MarkDoubleAt(patterns, high, low, kind, window, i);
  }

  method DetectDoubleTopBottom(high: seq<real>, low: seq<real>, kind: DoubleKind, window: nat) returns (m: seq<int>)
    requires |low| == |high| && window >= 1
    ensures m == DoubleMarkers(high, low, kind, window)
  {
    var n := |high|;
    var patterns := new int[n](_ => 0);
    var i := window;
    assert patterns[..] == DoubleMarkersBefore(high, low, kind, window, i);
    while i < n - window
      invariant window <= i && (i <= n - window || i == window)
      invariant patterns[..] == DoubleMarkersBefore(high, low, kind, window, i)
    {
      ScanDoubleAt(patterns, high, low, kind, window, i);
      i := i + 1;
    }
    m := patterns[..];
  }

  /** A double-top column holds only 0 and -1, a double-bottom column only 0
      and +1, and a bar holds the marker exactly when some scan position
      confirms a formation whose second extreme is that bar (which lies in
      the right half [i, i+w) of that position, after the first extreme). */
  lemma DoubleMarkersPlacement(high: seq<real>, low: seq<real>, kind: DoubleKind, w: nat, j: int)
    requires |low| == |high| && w >= 1 && 0 <= j < |high|
    ensures DoubleMarkers(high, low, kind, w)[j] in {0, DoubleMarker(kind)}
    ensures DoubleMarkers(high, low, kind, w)[j] != 0 <==> DoubleMarkedBefore(high, low, kind, w, |high| - w, j)
  {
    DoubleMarkersBeforeSound(high, low, kind, w, |high| - w, j);
    if DoubleMarkedBefore(high, low, kind, w, |high| - w, j) {
      var i :| w <= i < |high| - w && DoubleFires(high, low, kind, w, i) && SecondExtremeIdx(high, low, kind, w, i) == j;
      DoubleMarkersBeforeComplete(high, low, kind, w, |high| - w, i);
    }
  }

  /** A series of at most 2w bars leaves no room for a scan position, so it
      gets no marker at all. */
  lemma DoubleMarkersShortSeries(high: seq<real>, low: seq<real>, kind: DoubleKind, w: nat)
    requires |low| == |high| && w >= 1 && |high| <= 2 * w
    ensures DoubleMarkers(high, low, kind, w) == Zeros(|high|)
  {
  }

  // ---------------------------------------------------------------------------
  // Triangles
  // ---------------------------------------------------------------------------

  datatype TriangleKind = Ascending | Descending | Symmetrical

  /** How many bars `s[:5]` and `s[-5:]` hold for a span of n bars. */
  function EdgeCount(n: nat): (k: nat)
    ensures k <= n && k <= 5 && (n > 0 ==> k > 0)
  {
    if n <= 5 then n else 5
  }

  /** Sum of k * ys[k]. */
  function WeightedSum(ys: seq<real>): real
  {
    if |ys| == 0 then 0.0 else WeightedSum(ys[..|ys| - 1]) + (|ys| - 1) as real * ys[|ys| - 1]
  }

  /** `np.polyfit(range(n), ys, 1)[0]`: the slope of the least-squares line
      through the points (k, ys[k]). With x = 0..n-1 the normal equations
      give (n Sxy - Sx Sy) / (n Sxx - Sx^2), and Sx = n(n-1)/2 together with
      n Sxx - Sx^2 = n^2 (n^2 - 1) / 12 reduce it to the form below. */
  function LeastSquaresSlope(ys: seq<real>): real
    requires |ys| >= 2
  {
    SlopeFromSums(|ys| as real, Sum(ys), WeightedSum(ys))
  }

  /** The slope in terms of n, the sum s and the weighted sum ws. */
  function SlopeFromSums(n: real, s: real, ws: real): real
    requires n >= 2.0
  {
    PositiveCubic(n);
    (12.0 * ws - 6.0 * (n - 1.0) * s) / (n * (n * n - 1.0))
  }

  lemma PositiveCubic(n: real)
    requires n >= 2.0
    ensures n * (n * n - 1.0) > 0.0
  {
    assert n * n >= 2.0 * n by {
      MulNonNegative(n - 2.0, n);
    }
    MulNonNegative(n, n * n - 4.0);
  }

  /** The sum and the weighted sum of the line a + b*k over k = 0..n-1,
      point by point. */
  function LineSum(n: nat, a: real, b: real): real
  {
    if n == 0 then 0.0 else LineSum(n - 1, a, b) + (a + b * (n - 1) as real)
  }

  function LineWeightedSum(n: nat, a: real, b: real): real
  {
    if n == 0 then 0.0 else LineWeightedSum(n - 1, a, b) + (n - 1) as real * (a + b * (n - 1) as real)
  }

  /** A series on the line has the line's sums. */
  lemma {:induction false} SumsOfLine(ys: seq<real>, a: real, b: real)
    requires forall k :: 0 <= k < |ys| ==> ys[k] == a + b * (k as real)
    ensures Sum(ys) == LineSum(|ys|, a, b) && WeightedSum(ys) == LineWeightedSum(|ys|, a, b)
  {
    if |ys| > 0 {
      SumsOfLine(ys[..|ys| - 1], a, b);
    }
  }

  /** The closed form of the line's sum. */
  lemma {:induction false} LineSumClosed(n: nat, a: real, b: real)
    ensures 2.0 * LineSum(n, a, b) == 2.0 * (n as real) * a + b * (n as real) * (n as real - 1.0)
  {
    if n > 0 {
      LineSumClosed(n - 1, a, b);
      SumStep((n - 1) as real, n as real, a, b, LineSum(n - 1, a, b));
    }
  }

  /** The closed form of the line's weighted sum. */
  lemma {:induction false} LineWeightedSumClosed(n: nat, a: real, b: real)
    ensures 6.0 * LineWeightedSum(n, a, b) ==
            3.0 * a * (n as real) * (n as real - 1.0) + b * (n as real - 1.0) * (n as real) * (2.0 * (n as real) - 1.0)
  {
    if n > 0 {
      LineWeightedSumClosed(n - 1, a, b);
      var m, wp := (n - 1) as real, LineWeightedSum(n - 1, a, b);
      assert n as real == m + 1.0;
      assert 6.0 * wp == 3.0 * a * m * (m - 1.0) + b * (m - 1.0) * m * (2.0 * m - 1.0);
      WeightedSumStep(m, n as real, a, b, wp);
    }
  }

  /** One more point on the line, for the sum: its closed form at n = m + 1
      from the one at m. */
  lemma SumStep(m: real, n: real, a: real, b: real, sp: real)
    requires n == m + 1.0
    requires 2.0 * sp == 2.0 * m * a + b * m * (m - 1.0)
    ensures 2.0 * (sp + (a + b * m)) == 2.0 * n * a + b * n * (n - 1.0)
  {
  }

  /** The same step for the weighted sum. */
  lemma WeightedSumStep(m: real, n: real, a: real, b: real, wp: real)
    requires n == m + 1.0
    requires 6.0 * wp == 3.0 * a * m * (m - 1.0) + b * (m - 1.0) * m * (2.0 * m - 1.0)
    ensures 6.0 * (wp + m * (a + b * m)) == 3.0 * a * n * (n - 1.0) + b * (n - 1.0) * n * (2.0 * n - 1.0)
  {
  }

  /** The fit recovers the slope of points that lie on a line exactly; in
      particular a flat series has slope zero. */
  lemma LeastSquaresSlopeOfLine(ys: seq<real>, a: real, b: real)
    requires |ys| >= 2
    requires forall k :: 0 <= k < |ys| ==> ys[k] == a + b * (k as real)
    ensures LeastSquaresSlope(ys) == b
  {
    SumsOfLine(ys, a, b);
    LineSumClosed(|ys|, a, b);
    LineWeightedSumClosed(|ys|, a, b);
    SlopeNumerator(|ys| as real, a, b, LineSum(|ys|, a, b), LineWeightedSum(|ys|, a, b));
  }

  /** The algebra behind LeastSquaresSlopeOfLine, over plain reals. */
  lemma SlopeNumerator(n: real, a: real, b: real, s: real, ws: real)
    requires n >= 2.0
    requires 2.0 * s == 2.0 * n * a + b * n * (n - 1.0)
    requires 6.0 * ws == 3.0 * a * n * (n - 1.0) + b * (n - 1.0) * n * (2.0 * n - 1.0)
    ensures SlopeFromSums(n, s, ws) == b
  {
    var u := n * (n - 1.0);
    var d := n * (n * n - 1.0);
    assert d == u * (n + 1.0);
    assert u >= 2.0 by {
      assert n - 1.0 >= 1.0;
      assert u >= n * 1.0;
    }
    var num := 12.0 * ws - 6.0 * (n - 1.0) * s;
    assert 12.0 * ws == 6.0 * a * u + 2.0 * b * u * (2.0 * n - 1.0);
    assert 6.0 * (n - 1.0) * s == 3.0 * (n - 1.0) * (2.0 * s);
    assert 3.0 * (n - 1.0) * (2.0 * n * a + b * u) == 6.0 * a * u + 3.0 * b * u * (n - 1.0);
    assert num == b * u * (n + 1.0);
    assert num == b * d;
  }

  /** The intercept that goes with LeastSquaresSlope: the fitted line passes
      through the point of means ((n-1)/2, Sum(ys)/n). */
  function LeastSquaresIntercept(ys: seq<real>): real
    requires |ys| >= 2
  {
    InterceptFromSums(|ys| as real, Sum(ys), LeastSquaresSlope(ys))
  }

  function InterceptFromSums(n: real, s: real, b: real): real
    requires n >= 2.0
  {
    (s - b * n * (n - 1.0) / 2.0) / n
  }

  /** The normal equations of the degree-1 least-squares fit: the fitted line
      has the data's sum and weighted sum, that is its residuals sum to zero
      and are orthogonal to k. For n >= 2 these two equations have exactly
      one solution, so LeastSquaresSlope is the slope `np.polyfit` returns. */
  lemma NormalEquations(ys: seq<real>)
    requires |ys| >= 2
    ensures var a, b := LeastSquaresIntercept(ys), LeastSquaresSlope(ys);
            Sum(ys) == LineSum(|ys|, a, b) && WeightedSum(ys) == LineWeightedSum(|ys|, a, b)
  {
    var a, b := LeastSquaresIntercept(ys), LeastSquaresSlope(ys);
    LineSumClosed(|ys|, a, b);
    LineWeightedSumClosed(|ys|, a, b);
    FittedSums(|ys| as real, Sum(ys), WeightedSum(ys), a, b, LineSum(|ys|, a, b), LineWeightedSum(|ys|, a, b));
  }

  /** The algebra behind NormalEquations, over plain reals. */
  lemma FittedSums(n: real, s: real, ws: real, a: real, b: real, ls: real, lws: real)
    requires n >= 2.0
    requires b == SlopeFromSums(n, s, ws)
    requires a == InterceptFromSums(n, s, b)
    requires 2.0 * ls == 2.0 * n * a + b * n * (n - 1.0)
    requires 6.0 * lws == 3.0 * a * n * (n - 1.0) + b * (n - 1.0) * n * (2.0 * n - 1.0)
    ensures s == ls && ws == lws
  {
    var d := n * (n * n - 1.0);
    PositiveCubic(n);
    assert b * d == 12.0 * ws - 6.0 * (n - 1.0) * s;
    assert n * a == s - b * n * (n - 1.0) / 2.0;
    assert 2.0 * ls == 2.0 * s;
    calc {
      3.0 * a * n * (n - 1.0) + b * (n - 1.0) * n * (2.0 * n - 1.0);
      3.0 * (n - 1.0) * (n * a) + b * (n - 1.0) * n * (2.0 * n - 1.0);
      3.0 * (n - 1.0) * s - 1.5 * b * n * (n - 1.0) * (n - 1.0) + b * (n - 1.0) * n * (2.0 * n - 1.0);
      3.0 * (n - 1.0) * s + 0.5 * (b * d);
      6.0 * ws;
    }
  }

  /** The condition at scan position i over the span [i-w, i+w): the marker
      goes to bar i+w, so position i must leave that bar inside the series. */
  predicate TriangleFires(high: seq<real>, low: seq<real>, kind: TriangleKind, w: nat, i: int)
    requires |low| == |high| && w >= 1
  {
    && w <= i && i + w < |high|
    && match kind
       case Ascending => AscendingAt(high, low, i - w, i + w)
       case Descending => DescendingAt(high, low, i - w, i + w)
       case Symmetrical => SymmetricalAt(high, low, i - w, i + w)
  }

  /** A flat top (the highest of the first and of the last five highs within
      1% of the span's maximum) over rising lows. */
  predicate AscendingAt(high: seq<real>, low: seq<real>, lo: int, hi: int)
    requires |low| == |high| && 0 <= lo && lo + 2 <= hi <= |high|
  {
    var k := EdgeCount(hi - lo);
    Abs(MaxIn(high, hi - k, hi) - MaxIn(high, lo, lo + k)) < 0.01 * MaxIn(high, lo, hi) &&
    LeastSquaresSlope(low[lo .. hi]) > 0.0
  }

  /** A flat bottom (the lowest of the first and of the last five lows within
      1% of the span's minimum) under falling highs. */
  predicate DescendingAt(high: seq<real>, low: seq<real>, lo: int, hi: int)
    requires |low| == |high| && 0 <= lo && lo + 2 <= hi <= |high|
  {
    var k := EdgeCount(hi - lo);
    Abs(MinIn(low, hi - k, hi) - MinIn(low, lo, lo + k)) < 0.01 * MinIn(low, lo, hi) &&
    LeastSquaresSlope(high[lo .. hi]) < 0.0
  }

  /** Falling highs and rising lows whose final gap is under 70% of the first. */
  predicate SymmetricalAt(high: seq<real>, low: seq<real>, lo: int, hi: int)
    requires |low| == |high| && 0 <= lo && lo + 2 <= hi <= |high|
  {
    LeastSquaresSlope(high[lo .. hi]) < 0.0 && LeastSquaresSlope(low[lo .. hi]) > 0.0 &&
    Abs(high[hi - 1] - low[hi - 1]) < 0.7 * Abs(high[lo] - low[lo])
  }

  /** With the lows of the span on a line of slope b, the ascending test
      fires exactly when b is positive and the top is flat: lows that do not
      rise never confirm an ascending triangle. */
  lemma AscendingOnLinearLows(high: seq<real>, low: seq<real>, lo: int, hi: int, a: real, b: real)
    requires |low| == |high| && 0 <= lo && lo + 2 <= hi <= |high|
    requires forall k :: lo <= k < hi ==> low[k] == a + b * ((k - lo) as real)
    ensures var e := EdgeCount(hi - lo);
            AscendingAt(high, low, lo, hi) <==>
              b > 0.0 && Abs(MaxIn(high, hi - e, hi) - MaxIn(high, lo, lo + e)) < 0.01 * MaxIn(high, lo, hi)
  {
    OnLine(low, lo, hi, a, b);
  }

  /** With the highs of the span on a line of slope b, the descending test
      fires exactly when b is negative and the bottom is flat. */
  lemma DescendingOnLinearHighs(high: seq<real>, low: seq<real>, lo: int, hi: int, a: real, b: real)
    requires |low| == |high| && 0 <= lo && lo + 2 <= hi <= |high|
    requires forall k :: lo <= k < hi ==> high[k] == a + b * ((k - lo) as real)
    ensures var e := EdgeCount(hi - lo);
            DescendingAt(high, low, lo, hi) <==>
              b < 0.0 && Abs(MinIn(low, hi - e, hi) - MinIn(low, lo, lo + e)) < 0.01 * MinIn(low, lo, hi)
  {
    OnLine(high, lo, hi, a, b);
  }

  /** With highs on a line of slope bh and lows on one of slope bl, the
      symmetrical test fires exactly when the lines converge (bh < 0 < bl)
      and the last gap is under 70% of the first; parallel or widening lines
      never confirm a symmetrical triangle. */
  lemma SymmetricalOnLinearBounds(high: seq<real>, low: seq<real>, lo: int, hi: int,
                                  ah: real, bh: real, al: real, bl: real)
    requires |low| == |high| && 0 <= lo && lo + 2 <= hi <= |high|
    requires forall k :: lo <= k < hi ==> high[k] == ah + bh * ((k - lo) as real)
    requires forall k :: lo <= k < hi ==> low[k] == al + bl * ((k - lo) as real)
    ensures SymmetricalAt(high, low, lo, hi) <==>
              bh < 0.0 && 0.0 < bl && Abs(high[hi - 1] - low[hi - 1]) < 0.7 * Abs(high[lo] - low[lo])
  {
    OnLine(high, lo, hi, ah, bh);
    OnLine(low, lo, hi, al, bl);
  }

  /** The slope of a span whose points lie on a line. */
  lemma OnLine(xs: seq<real>, lo: int, hi: int, a: real, b: real)
    requires 0 <= lo && lo + 2 <= hi <= |xs|
    requires forall k :: lo <= k < hi ==> xs[k] == a + b * ((k - lo) as real)
    ensures LeastSquaresSlope(xs[lo .. hi]) == b
  {
    var ys := xs[lo .. hi];
    forall k | 0 <= k < |ys|
      ensures ys[k] == a + b * (k as real)
    {
      assert ys[k] == xs[lo + k];
    }
    LeastSquaresSlopeOfLine(ys, a, b);
  }

  /** Ascending marks +1, descending -1; symmetrical +1 when the close at the
      marked bar is above the midpoint of the span's last high and low. */
  function TriangleValue(high: seq<real>, low: seq<real>, close: seq<real>, kind: TriangleKind, w: nat, i: int): int
    requires |low| == |high| && |close| == |high| && w >= 1 && w <= i && i + w < |high|
  {
    match kind
    case Ascending => 1
    case Descending => -1
    case Symmetrical => if close[i + w] > (high[i + w - 1] + low[i + w - 1]) / 2.0 then 1 else -1
  }

  /** What scan position i leaves at bar i+w: its value when the span
      fires, and otherwise the 0 the bar already holds. */
  function TriangleMark(high: seq<real>, low: seq<real>, close: seq<real>, kind: TriangleKind, w: nat,
                        i: int): int
    requires |low| == |high| && |close| == |high| && w >= 1 && w <= i && i + w < |high|
  {
    if TriangleFires(high, low, kind, w, i) then TriangleValue(high, low, close, kind, w, i) else 0
  }

  /** The marker column after the scan positions below `upto`. */
  function TriangleMarkersBefore(high: seq<real>, low: seq<real>, close: seq<real>, kind: TriangleKind, w: nat,
                                 upto: int): (m: seq<int>)
    requires |low| == |high| && |close| == |high| && w >= 1
    ensures |m| == |high|
  {
    seq(|high|, j requires 0 <= j < |high| =>
      if w <= j - w < upto then TriangleMark(high, low, close, kind, w, j - w) else 0)
  }

  /** The marker column the full scan produces. */
  function TriangleMarkers(high: seq<real>, low: seq<real>, close: seq<real>, kind: TriangleKind, w: nat): (m: seq<int>)
    requires |low| == |high| && |close| == |high| && w >= 1
    ensures |m| == |high|
  {
    TriangleMarkersBefore(high, low, close, kind, w, |high| - w)
  }

  /** One scan position decides exactly one bar, w bars to its right. */
  lemma TriangleMarkersStep(high: seq<real>, low: seq<real>, close: seq<real>, kind: TriangleKind, w: nat,
                            i: int)
    requires |low| == |high| && |close| == |high| && w >= 1 && w <= i < |high| - w
    ensures TriangleMarkersBefore(high, low, close, kind, w, i + 1) ==
            TriangleMarkersBefore(high, low, close, kind, w, i)[i + w := TriangleMark(high, low, close, kind, w, i)]
  {
    var next := TriangleMarkersBefore(high, low, close, kind, w, i + 1);
    var prev := TriangleMarkersBefore(high, low, close, kind, w, i);
    assert forall j :: 0 <= j < |high| && j != i + w ==> next[j] == prev[j];
  }

  /** One iteration of the scan over the span [i-w, i+w): the kind's test,
      and the marker write at bar i+w when it holds. */
  method MarkTriangleAt(patterns: array<int>, high: seq<real>, low: seq<real>, close: seq<real>, kind: TriangleKind,
                        window: nat, i: int)
    requires |low| == |high| && |close| == |high| && window >= 1 && window <= i && i + window < |high|
    requires patterns.Length == |high|
    modifies patterns
    ensures patterns[..] ==
              if TriangleFires(high, low, kind, window, i)
              then old(patterns[..])[i + window := TriangleValue(high, low, close, kind, window, i)]
              else old(patterns[..])
  {
    var lo, hi := i - window, i + window;
    match kind {
      case Ascending =>
        if AscendingAt(high, low, lo, hi) {
          patterns[i + window] := 1;
        }
      case Descending =>
        if DescendingAt(high, low, lo, hi) {
          patterns[i + window] := -1;
        }
      case Symmetrical =>
        if SymmetricalAt(high, low, lo, hi) {
          patterns[i + window] := if close[i + window] > (high[hi - 1] + low[hi - 1]) / 2.0 then 1 else -1;
        }
    }
  }

  method DetectTrianglePatterns(high: seq<real>, low: seq<real>, close: seq<real>, kind: TriangleKind, window: nat) returns (m: seq<int>)
    requires |low| == |high| && |close| == |high| && window >= 1
    ensures m == TriangleMarkers(high, low, close, kind, window)
  {
    var n := |high|;
    var patterns := new int[n](_ => 0);
    var i := window;
    assert patterns[..] == TriangleMarkersBefore(high, low, close, kind, window, i);
    while i < n - window
      invariant window <= i && (i <= n - window || i == window)
      invariant patterns[..] == TriangleMarkersBefore(high, low, close, kind, window, i)
    {
      TriangleMarkersStep(high, low, close, kind, window, i);
      MarkTriangleAt(patterns, high, low, close, kind, window, i);
      i := i + 1;
    }
    m := patterns[..];
    assert m == TriangleMarkersBefore(high, low, close, kind, window, n - window);
  }

  /** Markers sit only at bars j in [2w, n), at a bar whose scan position
      j-w fires; an ascending triangle marks +1, a descending one -1, and a
      symmetrical one marks +1 exactly when the close at j exceeds the
      midpoint of bar j-1's high and low (the last bar of the span) and -1
      otherwise. */
  lemma TriangleMarkersPlacement(high: seq<real>, low: seq<real>, close: seq<real>, kind: TriangleKind, w: nat,
                                 j: int)
    requires |low| == |high| && |close| == |high| && w >= 1 && 0 <= j < |high|
    ensures var m := TriangleMarkers(high, low, close, kind, w);
            && (m[j] != 0 <==> 2 * w <= j && TriangleFires(high, low, kind, w, j - w))
            && (kind == Ascending ==> m[j] in {0, 1})
            && (kind == Descending ==> m[j] in {0, -1})
            && (kind == Symmetrical && m[j] != 0 ==>
                  (m[j] == 1 <==> close[j] > (high[j - 1] + low[j - 1]) / 2.0))
  {
    var m := TriangleMarkers(high, low, close, kind, w);
    if w <= j - w {
      assert m[j] == TriangleMark(high, low, close, kind, w, j - w);
    } else {
      assert m[j] == 0;
    }
  }

  // ---------------------------------------------------------------------------
  // Support and resistance
  // ---------------------------------------------------------------------------

  /** `rolling(w, center=True).max()` (or `.min()`): pandas centres the window
      on row t as rows [t+1+(w-1)/2-w, t+1+(w-1)/2) and leaves NaN unless all
      w rows exist. */
  function CenteredExtreme(xs: seq<real>, w: nat, t: nat, isMax: bool): (r: Option<real>)
    requires w >= 1 && t < |xs|
  {
    var end := t + 1 + (w - 1) / 2;
    var start := end - w;
    if start < 0 || end > |xs| then None
    else if isMax then Some(MaxIn(xs, start, end)) else Some(MinIn(xs, start, end))
  }

  function Pivots(xs: seq<real>, w: nat, isMax: bool): (p: seq<Option<real>>)
    requires w >= 1
    ensures |p| == |xs|
  {
    seq(|xs|, t requires 0 <= t < |xs| => CenteredExtreme(xs, w, t, isMax))
  }

  /** The values of the bars equal to their pivot, in row order
      (`df[df['high'] == df['pivot_high']]['high']`). */
  function Candidates(xs: seq<real>, pivot: seq<Option<real>>): seq<real>
    requires |pivot| == |xs|
  {
    if |xs| == 0 then []
    else
      Candidates(xs[..|xs| - 1], pivot[..|xs| - 1]) +
      (if pivot[|xs| - 1] == Some(xs[|xs| - 1]) then [xs[|xs| - 1]] else [])
  }

  lemma {:induction false} CandidatesAreOwnPivots(xs: seq<real>, pivot: seq<Option<real>>, x: real)
    requires |pivot| == |xs|
    ensures x in Candidates(xs, pivot) <==> exists t :: 0 <= t < |xs| && xs[t] == x && pivot[t] == Some(x)
  {
    if |xs| > 0 {
      var n := |xs| - 1;
      CandidatesAreOwnPivots(xs[..n], pivot[..n], x);
      if x in Candidates(xs[..n], pivot[..n]) {
        var t :| 0 <= t < n && xs[..n][t] == x && pivot[..n][t] == Some(x);
        assert xs[t] == x && pivot[t] == Some(x);
      }
      if exists t :: 0 <= t < |xs| && xs[t] == x && pivot[t] == Some(x) {
        var t :| 0 <= t < |xs| && xs[t] == x && pivot[t] == Some(x);
        if t < n {
          assert xs[..n][t] == x && pivot[..n][t] == Some(x);
        }
      }
    }
  }

  /** `drop_duplicates()`: keep the first occurrence of every value. */
  function Dedup(s: seq<real>): seq<real>
  {
    if |s| == 0 then []
    else if s[|s| - 1] in s[..|s| - 1] then Dedup(s[..|s| - 1])
    else Dedup(s[..|s| - 1]) + [s[|s| - 1]]
  }

  predicate Distinct(s: seq<real>)
  {
    forall i, j :: 0 <= i < j < |s| ==> s[i] != s[j]
  }

  /** The index of the first occurrence of x in s. */
  function FirstIdx(s: seq<real>, x: real): (r: nat)
    requires x in s
    ensures r < |s| && s[r] == x
    ensures forall k :: 0 <= k < r ==> s[k] != x
  {
    if x in s[..|s| - 1] then FirstIdx(s[..|s| - 1], x) else |s| - 1
  }

  /** Deduplication keeps every value once and starts with the first value. */
  lemma {:induction false} DedupProperties(s: seq<real>)
    ensures forall x :: x in Dedup(s) <==> x in s
    ensures Distinct(Dedup(s))
    ensures |s| > 0 ==> |Dedup(s)| > 0 && Dedup(s)[0] == s[0]
  {
    if |s| > 0 {
      var p := s[..|s| - 1];
      DedupProperties(p);
      assert forall x :: x in s <==> x in p || x == s[|s| - 1];
      if |p| > 0 {
        assert s[0] == p[0];
      }
    }
  }

  /** Deduplication lists the kept values in the order of their first
      occurrences (keep='first'). */
  lemma {:induction false} DedupKeepsFirstOrder(s: seq<real>)
    ensures forall x :: x in Dedup(s) ==> x in s
    ensures forall i, j :: 0 <= i < j < |Dedup(s)| ==> FirstIdx(s, Dedup(s)[i]) < FirstIdx(s, Dedup(s)[j])
  {
    DedupProperties(s);
    if |s| > 0 {
      var p := s[..|s| - 1];
      DedupKeepsFirstOrder(p);
      DedupProperties(p);
      var d := Dedup(s);
      forall i, j | 0 <= i < j < |d|
        ensures FirstIdx(s, d[i]) < FirstIdx(s, d[j])
      {
        assert d[i] in p;
        if j < |Dedup(p)| {
          assert d[j] in p;
        }
      }
    }
  }

  /** The retention rule applied to consecutive candidates: a resistance
      level must exceed its predecessor by more than threshold times itself,
      a support level must fall below it by more than that. */
  predicate Keeps(prev: real, x: real, threshold: real, rising: bool)
  {
    if rising then x - prev > x * threshold else x - prev < -x * threshold
  }

  /** `s[s.diff() > s * threshold]` (or `< -s * threshold`); the first entry
      has no difference and is dropped. */
  function Retained(s: seq<real>, threshold: real, rising: bool): seq<real>
  {
    if |s| <= 1 then []
    else
      Retained(s[..|s| - 1], threshold, rising) +
      (if Keeps(s[|s| - 2], s[|s| - 1], threshold, rising) then [s[|s| - 1]] else [])
  }

  lemma {:induction false} RetainedMembers(s: seq<real>, threshold: real, rising: bool, x: real)
    ensures x in Retained(s, threshold, rising) <==>
              exists k :: 1 <= k < |s| && s[k] == x && Keeps(s[k - 1], s[k], threshold, rising)
  {
    if |s| > 1 {
      var n := |s| - 1;
      var p := s[..n];
      RetainedMembers(p, threshold, rising, x);
      if x in Retained(p, threshold, rising) {
        var k :| 1 <= k < |p| && p[k] == x && Keeps(p[k - 1], p[k], threshold, rising);
        assert s[k] == x && s[k - 1] == p[k - 1];
      }
      if exists k :: 1 <= k < |s| && s[k] == x && Keeps(s[k - 1], s[k], threshold, rising) {
        var k :| 1 <= k < |s| && s[k] == x && Keeps(s[k - 1], s[k], threshold, rising);
        if k < n {
          assert p[k] == x && p[k - 1] == s[k - 1];
        }
      }
    }
  }

  /** The retained levels, from the bars whose high (rising) or low equals the
      centred rolling max (min), de-duplicated. */
  function Levels(xs: seq<real>, w: nat, threshold: real, rising: bool): seq<real>
    requires w >= 1
  {
    Retained(Dedup(Candidates(xs, Pivots(xs, w, rising))), threshold, rising)
  }

  /** Every retained level is the value of a bar that equals its own centred
      rolling extreme, and it exceeds (resistance) or undercuts (support) the
      preceding distinct candidate by more than the threshold. The first
      candidate is never retained. */
  lemma LevelsAreFilteredPivots(xs: seq<real>, w: nat, threshold: real, rising: bool, x: real)
    requires w >= 1
    ensures var d := Dedup(Candidates(xs, Pivots(xs, w, rising)));
            && (x in Levels(xs, w, threshold, rising) <==>
                  exists k :: 1 <= k < |d| && d[k] == x && Keeps(d[k - 1], d[k], threshold, rising))
            && (x in Levels(xs, w, threshold, rising) ==>
                  exists t :: 0 <= t < |xs| && xs[t] == x && CenteredExtreme(xs, w, t, rising) == Some(x))
            && (|d| > 0 ==> d[0] !in Levels(xs, w, threshold, rising))
  {
    var c := Candidates(xs, Pivots(xs, w, rising));
    var d := Dedup(c);
    DedupProperties(c);
    RetainedMembers(d, threshold, rising, x);
    if x in Levels(xs, w, threshold, rising) {
      CandidatesAreOwnPivots(xs, Pivots(xs, w, rising), x);
      var t :| 0 <= t < |xs| && xs[t] == x && Pivots(xs, w, rising)[t] == Some(x);
    }
    if |d| > 0 {
      RetainedMembers(d, threshold, rising, d[0]);
    }
  }

  /** `df.loc[df[column] == level, target] = level` over a column of prices. */
  function MarkLevel(target: seq<Option<real>>, xs: seq<real>, level: real): (r: seq<Option<real>>)
    requires |target| == |xs|
    ensures |r| == |xs|
  {
    seq(|xs|, t requires 0 <= t < |xs| => if xs[t] == level then Some(level) else target[t])
  }

  /** Fills the resistance (support) column: each bar whose high (low) equals
      a retained level gets that level, every other bar stays NaN. The pivot
      columns are not part of the result and the input is not changed. */
  method IdentifySupportResistance(high: seq<real>, low: seq<real>, window: nat, threshold: real)
    returns (resistance: seq<Option<real>>, support: seq<Option<real>>)
    requires |low| == |high| && window >= 1
    ensures |resistance| == |high| && |support| == |high|
    ensures forall t :: 0 <= t < |high| ==>
              resistance[t] == if high[t] in Levels(high, window, threshold, true) then Some(high[t]) else None
    ensures forall t :: 0 <= t < |high| ==>
              support[t] == if low[t] in Levels(low, window, threshold, false) then Some(low[t]) else None
  {
    var n := |high|;
    var resistanceLevels := Levels(high, window, threshold, true);
    var supportLevels := Levels(low, window, threshold, false);
    resistance := seq(n, _ => None);
    support := seq(n, _ => None);
    for k := 0 to |resistanceLevels|
      invariant |resistance| == n
      invariant forall t :: 0 <= t < n ==>
                  resistance[t] == if high[t] in resistanceLevels[..k] then Some(high[t]) else None
    {
      assert resistanceLevels[..k + 1] == resistanceLevels[..k] + [resistanceLevels[k]];
      resistance := MarkLevel(resistance, high, resistanceLevels[k]);
    }
    for k := 0 to |supportLevels|
      invariant |support| == n
      invariant forall t :: 0 <= t < n ==>
                  support[t] == if low[t] in supportLevels[..k] then Some(low[t]) else None
    {
      assert supportLevels[..k + 1] == supportLevels[..k] + [supportLevels[k]];
      support := MarkLevel(support, low, supportLevels[k]);
    }
    assert resistanceLevels[..|resistanceLevels|] == resistanceLevels;
    assert supportLevels[..|supportLevels|] == supportLevels;
  }

  // ---------------------------------------------------------------------------
  // All detectors on a copy of the frame
  // ---------------------------------------------------------------------------

  datatype PatternColumns = PatternColumns(
    hsPattern: seq<int>,
    doubleTop: seq<int>,
    doubleBottom: seq<int>,
    triangleAsc: seq<int>,
    triangleDesc: seq<int>,
    triangleSym: seq<int>,
    resistance: seq<Option<real>>,
    support: seq<Option<real>>)

  /** Runs every detector with its default window; the head-and-shoulders
      scan runs first, so its error stops the whole step. */
  method DetectAllPatterns(high: seq<real>, low: seq<real>, close: seq<real>)
    returns (r: Result<PatternColumns, PatternError>)
    requires |low| == |high| && |close| == |high|
    ensures r.Ok? <==> NecklinesNonEmpty(high, DETECT_WINDOW)
    ensures r.Err? ==> FirstEmptyNeckline(high, DETECT_WINDOW, r.error.at)
    ensures r.Ok? ==>
              var p := r.value;
              && p.hsPattern == Zeros(|high|)
              && p.doubleTop == DoubleMarkers(high, low, Top, DETECT_WINDOW)
              && p.doubleBottom == DoubleMarkers(high, low, Bottom, DETECT_WINDOW)
              && p.triangleAsc == TriangleMarkers(high, low, close, Ascending, DETECT_WINDOW)
              && p.triangleDesc == TriangleMarkers(high, low, close, Descending, DETECT_WINDOW)
              && p.triangleSym == TriangleMarkers(high, low, close, Symmetrical, DETECT_WINDOW)
              && |p.resistance| == |high| && |p.support| == |high|
              && (forall t :: 0 <= t < |high| ==>
                    p.resistance[t] == if high[t] in Levels(high, SR_WINDOW, SR_THRESHOLD, true) then Some(high[t]) else None)
              && (forall t :: 0 <= t < |high| ==>
                    p.support[t] == if low[t] in Levels(low, SR_WINDOW, SR_THRESHOLD, false) then Some(low[t]) else None)
  {
    var hs := DetectHeadShoulders(high, low, DETECT_WINDOW);
    if hs.Err? {
      return Err(hs.error);
    }
    var top := DetectDoubleTopBottom(high, low, Top, DETECT_WINDOW);
    var bottom := DetectDoubleTopBottom(high, low, Bottom, DETECT_WINDOW);
    var asc := DetectTrianglePatterns(high, low, close, Ascending, DETECT_WINDOW);
    var desc := DetectTrianglePatterns(high, low, close, Descending, DETECT_WINDOW);
    var sym := DetectTrianglePatterns(high, low, close, Symmetrical, DETECT_WINDOW);
    var resistance, support := IdentifySupportResistance(high, low, SR_WINDOW, SR_THRESHOLD);
    r := Ok(PatternColumns(hs.value, top, bottom, asc, desc, sym, resistance, support));
  }
}
