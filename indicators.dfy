/** The indicator engine: trailing moving averages, exponential moving
    averages, RSI, Bollinger bands, MACD and Fibonacci retracement levels.
    Every rolling window uses pandas' `min_periods=1` semantics unless stated,
    so the leading rows are computed from the partial history available. */
module Indicators {
  import opened Common

  const SMA_SHORT: nat := 20
  const SMA_LONG: nat := 50
  const EMA_FAST: nat := 12
  const EMA_SLOW: nat := 26
  const MACD_SIGNAL_SPAN: nat := 9
  const RSI_WINDOW: nat := 14
  const BB_WINDOW: nat := 20
  const BB_WIDTH: real := 2.0
  const FIB_WINDOW: nat := 20
  /** Added to the average loss so that a loss-free window does not divide by zero. */
  const RSI_EPSILON: real := 0.0000000001

  // ---------------------------------------------------------------------------
  // Trailing windows and simple moving averages
  // ---------------------------------------------------------------------------

  /** The rows a `rolling(w, min_periods=1)` window sees at row t:
      max(0, t-w+1) .. t, clipped to the available history. */
  function Trailing(xs: seq<real>, w: nat, t: nat): (s: seq<real>)
    requires w >= 1 && t < |xs|
    ensures |s| == if t + 1 < w then t + 1 else w
    ensures forall j :: 0 <= j < |s| ==> s[j] == xs[t + 1 - |s| + j]
  {
    xs[if t + 1 < w then 0 else t + 1 - w .. t + 1]
  }

  /** `rolling(window=w, min_periods=1).mean()` */
  function RollingMean(xs: seq<real>, w: nat): (r: seq<real>)
    requires w >= 1
    ensures |r| == |xs|
  {
    seq(|xs|, t requires 0 <= t < |xs| => Mean(Trailing(xs, w, t)))
  }

  /** The first simple moving average is the first price itself. */
  lemma RollingMeanStartsAtFirst(xs: seq<real>, w: nat)
    requires w >= 1 && |xs| > 0
    ensures RollingMean(xs, w)[0] == xs[0]
  {
    var s := Trailing(xs, w, 0);
    assert s == [xs[0]];
    assert Sum(s) == Sum(s[..0]) + s[0];
  }

  /** Each simple moving average lies between the smallest and the largest
      price of the (possibly partial) window it averages. */
  lemma RollingMeanWithinWindow(xs: seq<real>, w: nat, t: nat)
    requires w >= 1 && t < |xs|
    ensures Min(Trailing(xs, w, t)) <= RollingMean(xs, w)[t] <= Max(Trailing(xs, w, t))
  {
    var s := Trailing(xs, w, t);
    MinIsLowerBound(s);
    MaxIsUpperBound(s);
    MeanBounds(s, Min(s), Max(s));
  }

  // ---------------------------------------------------------------------------
  // Exponential moving averages: ewm(span, adjust=False)
  // ---------------------------------------------------------------------------

  /** The smoothing factor pandas derives from a span. */
  function Alpha(span: nat): (a: real)
    requires span >= 1
    ensures 0.0 < a <= 1.0
  {
    2.0 / (span as real + 1.0)
  }

  /** The recurrence seeded at the first value: ema[0] = x[0] and
      ema[t] = alpha*x[t] + (1-alpha)*ema[t-1]. */
  function EmaAt(xs: seq<real>, alpha: real, t: nat): real
    requires t < |xs|
  {
    if t == 0 then xs[0] else alpha * xs[t] + (1.0 - alpha) * EmaAt(xs, alpha, t - 1)
  }

  function Ema(xs: seq<real>, span: nat): (r: seq<real>)
    requires span >= 1
    ensures |r| == |xs|
  {
    seq(|xs|, t requires 0 <= t < |xs| => EmaAt(xs, Alpha(span), t))
  }

  lemma ConvexWithin(alpha: real, x: real, y: real, lo: real, hi: real)
    requires 0.0 < alpha <= 1.0 && lo <= x <= hi && lo <= y <= hi
    ensures lo <= alpha * x + (1.0 - alpha) * y <= hi
  {
    MulNonNegative(alpha, x - lo);
    MulNonNegative(1.0 - alpha, y - lo);
    MulNonNegative(alpha, hi - x);
    MulNonNegative(1.0 - alpha, hi - y);
    assert alpha * (x - lo) + (1.0 - alpha) * (y - lo) == alpha * x + (1.0 - alpha) * y - lo;
    assert alpha * (hi - x) + (1.0 - alpha) * (hi - y) == hi - (alpha * x + (1.0 - alpha) * y);
  }

  /** An exponential average is a convex combination of the prices seen so
      far, so every bound on those prices bounds it too. */
  lemma {:induction false} EmaWithinBounds(xs: seq<real>, alpha: real, t: nat, lo: real, hi: real)
    requires 0.0 < alpha <= 1.0 && t < |xs|
    requires forall i :: 0 <= i <= t ==> lo <= xs[i] <= hi
    ensures lo <= EmaAt(xs, alpha, t) <= hi
  {
    if t > 0 {
      EmaWithinBounds(xs, alpha, t - 1, lo, hi);
      ConvexWithin(alpha, xs[t], EmaAt(xs, alpha, t - 1), lo, hi);
    }
  }

  /** ema[t] lies between the minimum and the maximum of the prices up to t. */
  lemma EmaWithinPrefixRange(xs: seq<real>, span: nat, t: nat)
    requires span >= 1 && t < |xs|
    ensures Min(xs[..t + 1]) <= Ema(xs, span)[t] <= Max(xs[..t + 1])
  {
    var p := xs[..t + 1];
    assert forall i :: 0 <= i <= t ==> p[i] == xs[i];
    MinIsLowerBound(p);
    MaxIsUpperBound(p);
    EmaWithinBounds(xs, Alpha(span), t, Min(p), Max(p));
  }

  // ---------------------------------------------------------------------------
  // RSI
  // ---------------------------------------------------------------------------

  /** `delta.where(delta > 0, 0)`: the undefined first difference counts as 0. */
  function Gains(close: seq<real>): (g: seq<real>)
    ensures |g| == |close|
    ensures forall t :: 0 <= t < |g| ==> g[t] >= 0.0
  {
    seq(|close|, t requires 0 <= t < |close| =>
      if t > 0 && close[t] - close[t - 1] > 0.0 then close[t] - close[t - 1] else 0.0)
  }

  /** `-delta.where(delta < 0, 0)` */
  function Losses(close: seq<real>): (l: seq<real>)
    ensures |l| == |close|
    ensures forall t :: 0 <= t < |l| ==> l[t] >= 0.0
  {
    seq(|close|, t requires 0 <= t < |close| =>
      if t > 0 && close[t] - close[t - 1] < 0.0 then close[t - 1] - close[t] else 0.0)
  }

  /** 100 - 100/(1+rs) with rs = avgGain/(avgLoss + epsilon). */
  function RsiOf(avgGain: real, avgLoss: real): real
    requires avgGain >= 0.0 && avgLoss >= 0.0
  {
    100.0 - 100.0 / (1.0 + avgGain / (avgLoss + RSI_EPSILON))
  }

  /** A non-negative rs keeps the oscillator in [0, 100); no gain gives 0. */
  lemma RsiOfRange(avgGain: real, avgLoss: real)
    requires avgGain >= 0.0 && avgLoss >= 0.0
    ensures 0.0 <= RsiOf(avgGain, avgLoss) < 100.0
    ensures avgGain == 0.0 ==> RsiOf(avgGain, avgLoss) == 0.0
  {
    var rs := avgGain / (avgLoss + RSI_EPSILON);
    assert rs >= 0.0;
    assert 100.0 / (1.0 + rs) <= 100.0;
  }

  lemma RollingMeanNonNegative(xs: seq<real>, w: nat)
    requires w >= 1
    requires forall i :: 0 <= i < |xs| ==> xs[i] >= 0.0
    ensures forall t :: 0 <= t < |xs| ==> RollingMean(xs, w)[t] >= 0.0
  {
    forall t | 0 <= t < |xs| ensures RollingMean(xs, w)[t] >= 0.0 {
      var s := Trailing(xs, w, t);
      MaxIsUpperBound(s);
      MeanBounds(s, 0.0, Max(s));
    }
  }

  function Rsi(close: seq<real>, w: nat): (r: seq<real>)
    requires w >= 1
    ensures |r| == |close|
  {
    var avgGain := RollingMean(Gains(close), w);
    var avgLoss := RollingMean(Losses(close), w);
    RollingMeanNonNegative(Gains(close), w);
    RollingMeanNonNegative(Losses(close), w);
    seq(|close|, t requires 0 <= t < |close| => RsiOf(avgGain[t], avgLoss[t]))
  }

  /** Averages of non-negative gains and losses give a non-negative rs, so
      the oscillator stays in [0, 100). */
  lemma RsiInRange(close: seq<real>, w: nat, t: nat)
    requires w >= 1 && t < |close|
    ensures 0.0 <= Rsi(close, w)[t] < 100.0
  {
    RollingMeanNonNegative(Gains(close), w);
    RollingMeanNonNegative(Losses(close), w);
    RsiOfRange(RollingMean(Gains(close), w)[t], RollingMean(Losses(close), w)[t]);
  }

  /** With no gain in the window the oscillator reads exactly 0; this is the
      case at row 0 and at every row of a flat price series. */
  lemma RsiZeroWithoutGains(close: seq<real>, w: nat, t: nat)
    requires w >= 1 && t < |close|
    requires forall i :: 0 < i <= t ==> close[i] <= close[i - 1]
    ensures Rsi(close, w)[t] == 0.0
  {
    var g := Trailing(Gains(close), w, t);
    assert forall j :: 0 <= j < |g| ==> g[j] == 0.0;
    SumOfConstant(g, 0.0);
    assert RollingMean(Gains(close), w)[t] == 0.0;
    RollingMeanNonNegative(Losses(close), w);
    RsiOfRange(0.0, RollingMean(Losses(close), w)[t]);
  }

  lemma RsiFirstRowIsZero(close: seq<real>, w: nat)
    requires w >= 1 && |close| > 0
    ensures Rsi(close, w)[0] == 0.0
  {
    RsiZeroWithoutGains(close, w, 0);
  }

  lemma RsiFlatSeriesIsZero(close: seq<real>, w: nat, t: nat)
    requires w >= 1 && t < |close|
    requires forall i :: 0 <= i < |close| ==> close[i] == close[0]
    ensures Rsi(close, w)[t] == 0.0
  {
    RsiZeroWithoutGains(close, w, t);
  }

  // ---------------------------------------------------------------------------
  // Bollinger bands
  // ---------------------------------------------------------------------------

  /** `rolling(w, min_periods=1).std()`: the sample standard deviation `sd`
      of the trailing window, undefined for a window of one price. */
  function RollingStd(close: seq<real>, w: nat, sd: seq<real> -> real): (r: seq<Option<real>>)
    requires w >= 1
    ensures |r| == |close|
  {
    seq(|close|, t requires 0 <= t < |close| =>
      if |Trailing(close, w, t)| < 2 then None else Some(sd(Trailing(close, w, t))))
  }

  /** middle + k*std, undefined where std is. */
  function Band(middle: seq<real>, std: seq<Option<real>>, k: real): (r: seq<Option<real>>)
    requires |std| == |middle|
    ensures |r| == |middle|
  {
    seq(|middle|, t requires 0 <= t < |middle| =>
      if std[t].None? then None else Some(middle[t] + std[t].value * k))
  }

  /** The upper and lower bands sit 2 standard deviations either side of the
      middle band, they are defined exactly from row 1 on, and with a
      non-negative deviation they bracket the middle band. */
  lemma BollingerBandsSymmetric(close: seq<real>, sd: seq<real> -> real, t: nat)
    requires t < |close|
    ensures var middle := RollingMean(close, BB_WINDOW);
            var std := RollingStd(close, BB_WINDOW, sd);
            var upper := Band(middle, std, BB_WIDTH);
            var lower := Band(middle, std, -BB_WIDTH);
            && (upper[t].Some? <==> t >= 1)
            && (lower[t].Some? <==> t >= 1)
            && (t >= 1 ==> upper[t].value - middle[t] == middle[t] - lower[t].value == 2.0 * std[t].value)
            && (t >= 1 && std[t].value >= 0.0 ==> lower[t].value <= middle[t] <= upper[t].value)
  {
  }

  // ---------------------------------------------------------------------------
  // MACD
  // ---------------------------------------------------------------------------

  function Difference(a: seq<real>, b: seq<real>): (r: seq<real>)
    requires |a| == |b|
    ensures |r| == |a|
    ensures forall t :: 0 <= t < |r| ==> r[t] + b[t] == a[t]
  {
    seq(|a|, t requires 0 <= t < |a| => a[t] - b[t])
  }

  /** The MACD line, its span-9 signal line and the histogram. */
  datatype Macd = Macd(line: seq<real>, signal: seq<real>, hist: seq<real>)

  function MacdOf(emaFast: seq<real>, emaSlow: seq<real>): Macd
    requires |emaFast| == |emaSlow|
  {
    var line := Difference(emaFast, emaSlow);
    var signal := Ema(line, MACD_SIGNAL_SPAN);
    Macd(line, signal, Difference(line, signal))
  }

  /** The histogram is the MACD line minus the signal line, which is the
      span-9 average of the fast-minus-slow line; the signal line starts
      on the MACD line. */
  lemma MacdRelations(emaFast: seq<real>, emaSlow: seq<real>, t: nat)
    requires |emaFast| == |emaSlow| && t < |emaFast|
    ensures var m := MacdOf(emaFast, emaSlow);
            && |m.line| == |m.signal| == |m.hist| == |emaFast|
            && m.line[t] == emaFast[t] - emaSlow[t]
            && m.hist[t] == m.line[t] - m.signal[t]
            && m.signal[0] == m.line[0]
  {
  }

  // ---------------------------------------------------------------------------
  // Fibonacci retracement levels (computed on a copy of the frame)
  // ---------------------------------------------------------------------------

  datatype FibLevels = FibLevels(fib0: real, fib236: real, fib382: real, fib5: real, fib618: real, fib1: real)

  function LevelsBetween(top: real, bottom: real): FibLevels
  {
    var diff := top - bottom;
    FibLevels(top, top - 0.236 * diff, top - 0.382 * diff, top - 0.5 * diff, top - 0.618 * diff, bottom)
  }

  /** `rolling(w)` with the default full-window requirement: the levels are
      undefined until w rows are available. */
  function FibonacciLevels(high: seq<real>, low: seq<real>, w: nat): (r: seq<Option<FibLevels>>)
    requires |high| == |low| && w >= 1
    ensures |r| == |high|
  {
    seq(|high|, t requires 0 <= t < |high| =>
      if t + 1 < w then None
      else Some(LevelsBetween(Max(high[t + 1 - w .. t + 1]), Min(low[t + 1 - w .. t + 1]))))
  }

  /** The levels descend from the rolling high to the rolling low when the
      high is not below the low, the 0.5 level is the midpoint, the 0 and 1
      levels bound every high and low of the window, and nothing is defined
      in the first w-1 rows. */
  lemma FibonacciOrdered(high: seq<real>, low: seq<real>, w: nat, t: nat)
    requires |high| == |low| && w >= 1 && t < |high|
    ensures var r := FibonacciLevels(high, low, w);
            && (r[t].None? <==> t < w - 1)
            && (r[t].Some? ==>
                  var f := r[t].value;
                  && f.fib5 == (f.fib0 + f.fib1) / 2.0
                  && f.fib0 == Max(high[t + 1 - w .. t + 1])
                  && f.fib1 == Min(low[t + 1 - w .. t + 1])
                  && (forall k :: t + 1 - w <= k <= t ==> high[k] <= f.fib0 && f.fib1 <= low[k])
                  && (f.fib0 >= f.fib1 ==>
                        f.fib0 >= f.fib236 >= f.fib382 >= f.fib5 >= f.fib618 >= f.fib1))
  {
    if t + 1 >= w {
      var hs, ls := high[t + 1 - w .. t + 1], low[t + 1 - w .. t + 1];
      MaxIsUpperBound(hs);
      MinIsLowerBound(ls);
      forall k | t + 1 - w <= k <= t
        ensures high[k] <= Max(hs) && Min(ls) <= low[k]
      {
        assert hs[k - (t + 1 - w)] == high[k] && ls[k - (t + 1 - w)] == low[k];
      }
    }
  }

  // ---------------------------------------------------------------------------
  // The frame the add_* steps extend in place
  // ---------------------------------------------------------------------------

  predicate Fits<T>(column: Option<seq<T>>, n: nat)
  {
    column.None? || |column.value| == n
  }

  /** A price table whose indicator columns are added in place; a column
      that has not been added yet is None. */
  class Frame {
    var high: seq<real>
    var low: seq<real>
    var close: seq<real>
    var sma20: Option<seq<real>>
    var sma50: Option<seq<real>>
    var ema12: Option<seq<real>>
    var ema26: Option<seq<real>>
    var rsi14: Option<seq<real>>
    var bbMiddle: Option<seq<real>>
    var bbUpper: Option<seq<Option<real>>>
    var bbLower: Option<seq<Option<real>>>
    var macd: Option<seq<real>>
    var macdSignal: Option<seq<real>>
    var macdHist: Option<seq<real>>

    ghost predicate Valid()
      reads this
    {
      |high| == |close| && |low| == |close| && Fits(ema12, |close|) && Fits(ema26, |close|)
    }

    /** A raw price table: no indicator column yet. */
    constructor (high: seq<real>, low: seq<real>, close: seq<real>)
      requires |high| == |close| && |low| == |close|
      ensures Valid()
      ensures this.high == high && this.low == low && this.close == close
      ensures sma20.None? && sma50.None? && ema12.None? && ema26.None? && rsi14.None?
      ensures bbMiddle.None? && bbUpper.None? && bbLower.None?
      ensures macd.None? && macdSignal.None? && macdHist.None?
    {
      this.high, this.low, this.close := high, low, close;
      sma20, sma50, ema12, ema26, rsi14 := None, None, None, None, None;
      bbMiddle, bbUpper, bbLower := None, None, None;
      macd, macdSignal, macdHist := None, None, None;
    }

    method AddMovingAverages()
      requires Valid()
      modifies this`sma20, this`sma50, this`ema12, this`ema26
      ensures Valid()
      ensures sma20 == Some(RollingMean(close, SMA_SHORT)) && sma50 == Some(RollingMean(close, SMA_LONG))
      ensures ema12 == Some(Ema(close, EMA_FAST)) && ema26 == Some(Ema(close, EMA_SLOW))
    {
      sma20 := Some(RollingMean(close, SMA_SHORT));
      sma50 := Some(RollingMean(close, SMA_LONG));
      ema12 := Some(Ema(close, EMA_FAST));
      ema26 := Some(Ema(close, EMA_SLOW));
    }

    method AddRsi()
      requires Valid()
      modifies this`rsi14
      ensures Valid()
      ensures rsi14 == Some(Rsi(close, RSI_WINDOW))
    {
      rsi14 := Some(Rsi(close, RSI_WINDOW));
    }

    /** `sd` is the sample standard deviation of a window of two or more prices. */
    method AddBollingerBands(sd: seq<real> -> real)
      requires Valid()
      modifies this`bbMiddle, this`bbUpper, this`bbLower
      ensures Valid()
      ensures bbMiddle == Some(RollingMean(close, BB_WINDOW))
      ensures bbUpper == Some(Band(bbMiddle.value, RollingStd(close, BB_WINDOW, sd), BB_WIDTH))
      ensures bbLower == Some(Band(bbMiddle.value, RollingStd(close, BB_WINDOW, sd), -BB_WIDTH))
    {
      var middle := RollingMean(close, BB_WINDOW);
      var std := RollingStd(close, BB_WINDOW, sd);
      bbMiddle := Some(middle);
      bbUpper := Some(Band(middle, std, BB_WIDTH));
      bbLower := Some(Band(middle, std, -BB_WIDTH));
    }

    /** Adds the moving averages first when either EMA column is missing, and
        otherwise uses the EMA columns already present. */
    method AddMacd()
      requires Valid()
      modifies this`sma20, this`sma50, this`ema12, this`ema26, this`macd, this`macdSignal, this`macdHist
      ensures Valid() && ema12.Some? && ema26.Some?
      ensures old(ema12).None? || old(ema26).None? ==>
                sma20 == Some(RollingMean(close, SMA_SHORT)) && sma50 == Some(RollingMean(close, SMA_LONG)) &&
                ema12 == Some(Ema(close, EMA_FAST)) && ema26 == Some(Ema(close, EMA_SLOW))
      ensures old(ema12).Some? && old(ema26).Some? ==>
                unchanged(this`sma20, this`sma50, this`ema12, this`ema26)
      ensures var m := MacdOf(ema12.value, ema26.value);
              macd == Some(m.line) && macdSignal == Some(m.signal) && macdHist == Some(m.hist)
    {
      if ema12.None? || ema26.None? {
        AddMovingAverages();
      }
      var m := MacdOf(ema12.value, ema26.value);
      macd := Some(m.line);
      macdSignal := Some(m.signal);
      macdHist := Some(m.hist);
    }

    /** Moving averages, then RSI, then Bollinger bands, then MACD (which
        therefore reuses the averages just added). */
    method CalculateAllIndicators(sd: seq<real> -> real)
      requires Valid()
      modifies this
      ensures Valid()
      ensures high == old(high) && low == old(low) && close == old(close)
      ensures sma20 == Some(RollingMean(close, SMA_SHORT)) && sma50 == Some(RollingMean(close, SMA_LONG))
      ensures ema12 == Some(Ema(close, EMA_FAST)) && ema26 == Some(Ema(close, EMA_SLOW))
      ensures rsi14 == Some(Rsi(close, RSI_WINDOW))
      ensures bbMiddle == Some(RollingMean(close, BB_WINDOW))
      ensures bbUpper == Some(Band(bbMiddle.value, RollingStd(close, BB_WINDOW, sd), BB_WIDTH))
      ensures bbLower == Some(Band(bbMiddle.value, RollingStd(close, BB_WINDOW, sd), -BB_WIDTH))
      ensures var m := MacdOf(Ema(close, EMA_FAST), Ema(close, EMA_SLOW));
              macd == Some(m.line) && macdSignal == Some(m.signal) && macdHist == Some(m.hist)
    {
      AddMovingAverages();
      AddRsi();
      AddBollingerBands(sd);
      AddMacd();
    }
  }
}
