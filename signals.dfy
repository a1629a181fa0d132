/** Signal fusion: per-bar sub-signals from comparison rules over the
    indicator and pattern columns, a weighted composite score, and its
    discretisation into buy / hold / sell; plus the lookup and label part of
    the per-date explanation. */
module Signals {
  import opened Common

  // ---------------------------------------------------------------------------
  // Input rows
  // ---------------------------------------------------------------------------

  /** One row of the analysed frame. Every price or indicator cell may be
      NaN (None); the six pattern cells are the detectors' integer markers. */
  datatype Bar = Bar(
    close: Option<real>,
    ema12: Option<real>, ema26: Option<real>, sma20: Option<real>, sma50: Option<real>,
    macd: Option<real>, macdSignal: Option<real>, macdHist: Option<real>,
    rsi14: Option<real>,
    bbUpper: Option<real>, bbMiddle: Option<real>, bbLower: Option<real>,
    support: Option<real>, resistance: Option<real>,
    hsPattern: int, doubleTop: int, doubleBottom: int,
    triangleAsc: int, triangleDesc: int, triangleSym: int)

  /** The six pattern columns; a frame may lack any of them. */
  datatype PatternColumn = HsPattern | DoubleTop | DoubleBottom | TriangleAsc | TriangleDesc | TriangleSym

  function PatternValue(b: Bar, p: PatternColumn): int
  {
    match p
    case HsPattern => b.hsPattern
    case DoubleTop => b.doubleTop
    case DoubleBottom => b.doubleBottom
    case TriangleAsc => b.triangleAsc
    case TriangleDesc => b.triangleDesc
    case TriangleSym => b.triangleSym
  }

  /** Columns whose +1 adds to the pattern signal, in the order they are scanned. */
  const BULLISH: seq<PatternColumn> := [DoubleBottom, TriangleAsc, TriangleSym]
  /** Columns whose -1 subtracts from the pattern signal, in scan order. */
  const BEARISH: seq<PatternColumn> := [DoubleTop, HsPattern, TriangleDesc]

  const RSI_OVERSOLD: real := 30.0
  const RSI_OVERBOUGHT: real := 70.0
  const BUY_THRESHOLD: real := 3.0
  const SELL_THRESHOLD: real := -3.0

  /** pandas element-wise comparisons: false whenever either side is NaN. */
  predicate Gt(a: Option<real>, b: Option<real>)
  {
    a.Some? && b.Some? && a.value > b.value
  }

  predicate Lt(a: Option<real>, b: Option<real>)
  {
    a.Some? && b.Some? && a.value < b.value
  }

  predicate Ge(a: Option<real>, b: Option<real>)
  {
    a.Some? && b.Some? && a.value >= b.value
  }

  predicate Le(a: Option<real>, b: Option<real>)
  {
    a.Some? && b.Some? && a.value <= b.value
  }

  // ---------------------------------------------------------------------------
  // The sub-signals, stated declaratively
  // ---------------------------------------------------------------------------

  /** Bullish when both fast averages are above the slow ones, bearish when
      both are below. */
  function MaSignal(b: Bar): int
  {
    if Gt(b.ema12, b.ema26) && Gt(b.sma20, b.sma50) then 1
    else if Lt(b.ema12, b.ema26) && Lt(b.sma20, b.sma50) then -1
    else 0
  }

  function MacdSignal(b: Bar): int
  {
    if Gt(b.macd, b.macdSignal) then 1 else if Lt(b.macd, b.macdSignal) then -1 else 0
  }

  function RsiSignal(b: Bar): int
  {
    if Gt(b.rsi14, Some(RSI_OVERBOUGHT)) then -1 else if Lt(b.rsi14, Some(RSI_OVERSOLD)) then 1 else 0
  }

  function BbSignal(b: Bar): int
  {
    if Gt(b.close, b.bbUpper) then -1 else if Lt(b.close, b.bbLower) then 1 else 0
  }

  /** How many of the listed columns are present and hold `v`. */
  function CountValued(ps: seq<PatternColumn>, columns: set<PatternColumn>, b: Bar, v: int): int
  {
    if |ps| == 0 then 0
    else CountValued(ps[..|ps| - 1], columns, b, v) + (if ps[|ps| - 1] in columns && PatternValue(b, ps[|ps| - 1]) == v then 1 else 0)
  }

  /** Present bullish columns at +1 minus present bearish columns at -1. */
  function PatternSignal(b: Bar, columns: set<PatternColumn>): int
  {
    CountValued(BULLISH, columns, b, 1) - CountValued(BEARISH, columns, b, -1)
  }

  /** A close at or above resistance is bearish; otherwise one at or below
      support is bullish. */
  function SrSignal(b: Bar): int
  {
    if Ge(b.close, b.resistance) then -1 else if Le(b.close, b.support) then 1 else 0
  }

  /** The six sub-signals of one bar, the weighted score and the decision. */
  datatype SignalRow = SignalRow(
    signal: int, ma: int, macd: int, rsi: int, bb: int, pattern: int, sr: int, composite: real)

  function Composite(ma: int, macd: int, rsi: int, bb: int, pattern: int, sr: int): real
  {
    2.0 * ma as real + 1.5 * macd as real + 1.0 * rsi as real + 1.0 * bb as real
    + 2.0 * pattern as real + 1.5 * sr as real
  }

  /** Strong sell at or below -3, strong buy at or above 3, hold between. */
  function Decision(score: real): int
  {
    if score <= SELL_THRESHOLD then -1 else if score >= BUY_THRESHOLD then 1 else 0
  }

  function SignalsOf(b: Bar, columns: set<PatternColumn>): SignalRow
  {
    var ma, macd, rsi, bb := MaSignal(b), MacdSignal(b), RsiSignal(b), BbSignal(b);
    var pattern, sr := PatternSignal(b, columns), SrSignal(b);
    var score := Composite(ma, macd, rsi, bb, pattern, sr);
    SignalRow(Decision(score), ma, macd, rsi, bb, pattern, sr, score)
  }

  function Signals(data: seq<Bar>, columns: set<PatternColumn>): (r: seq<SignalRow>)
    ensures |r| == |data|
  {
    seq(|data|, t requires 0 <= t < |data| => SignalsOf(data[t], columns))
  }

  // ---------------------------------------------------------------------------
  // The rules as the generator applies them
  // ---------------------------------------------------------------------------

  /** The pattern column's two loops: +1 per present bullish column at 1,
      then -1 per present bearish column at -1. */
  method PatternSum(b: Bar, columns: set<PatternColumn>) returns (pattern: int)
    ensures pattern == PatternSignal(b, columns)
  {
    pattern := 0;
    for k := 0 to |BULLISH|
      invariant pattern == CountValued(BULLISH[..k], columns, b, 1)
    {
      assert BULLISH[..k + 1][..k] == BULLISH[..k];
      if BULLISH[k] in columns && PatternValue(b, BULLISH[k]) == 1 {
        pattern := pattern + 1;
      }
    }
    assert BULLISH[..|BULLISH|] == BULLISH;
    for k := 0 to |BEARISH|
      invariant pattern == CountValued(BULLISH, columns, b, 1) - CountValued(BEARISH[..k], columns, b, -1)
    {
      assert BEARISH[..k + 1][..k] == BEARISH[..k];
      if BEARISH[k] in columns && PatternValue(b, BEARISH[k]) == -1 {
        pattern := pattern - 1;
      }
    }
    assert BEARISH[..|BEARISH|] == BEARISH;
  }

  /** The masked overwrites of one bar, in the order the generator applies
      them column by column: each column starts at 0, the bullish mask is
      written first and the bearish mask second, so where both hold the
      bearish value stays. */
  method RowSignals(b: Bar, columns: set<PatternColumn>) returns (s: SignalRow)
    ensures s == SignalsOf(b, columns)
  {
    var ma := 0;
    if Gt(b.ema12, b.ema26) && Gt(b.sma20, b.sma50) {
      ma := 1;
    }
    if Lt(b.ema12, b.ema26) && Lt(b.sma20, b.sma50) {
      ma := -1;
    }
    assert ma == MaSignal(b);

    var macd := 0;
    if Gt(b.macd, b.macdSignal) {
      macd := 1;
    }
    if Lt(b.macd, b.macdSignal) {
      macd := -1;
    }
    assert macd == MacdSignal(b);

    var rsi := 0;
    if Lt(b.rsi14, Some(RSI_OVERSOLD)) {
      rsi := 1;
    }
    if Gt(b.rsi14, Some(RSI_OVERBOUGHT)) {
      rsi := -1;
    }
    assert rsi == RsiSignal(b);

    var bb := 0;
    if Lt(b.close, b.bbLower) {
      bb := 1;
    }
    if Gt(b.close, b.bbUpper) {
      bb := -1;
    }
    assert bb == BbSignal(b);

    var pattern := PatternSum(b, columns);

    var sr := 0;
    if Le(b.close, b.support) {
      sr := 1;
    }
    if Ge(b.close, b.resistance) {
      sr := -1;
    }
    assert sr == SrSignal(b);

    var score := Composite(ma, macd, rsi, bb, pattern, sr);
    var signal := 0;
    if score >= BUY_THRESHOLD {
      signal := 1;
    }
    if score <= SELL_THRESHOLD {
      signal := -1;
    }
    s := SignalRow(signal, ma, macd, rsi, bb, pattern, sr, score);
  }

  // ---------------------------------------------------------------------------
  // Explanation of one date
  // ---------------------------------------------------------------------------

  /** A date label of the frame's index. */
  type Date = string

  datatype ExplainError = EmptyIndex | NoData(date: Date)

  /** One indicator's entry of an explanation: the sub-signal and its texts. */
  datatype Status = Status(value: int, status: seq<string>)

  datatype Explanation = Explanation(
    date: Date, finalSignal: string, compositeScore: real, movingAverages: Status, macd: Status,
    chartPatterns: Status)

  const NO_PATTERNS: string := "No significant patterns detected"

  function Label(signal: int): string
  {
    if signal == 1 then "Buy" else if signal == -1 then "Sell" else "Hold"
  }

  const MA_BULLISH: string := "Bullish crossover (EMA12 > EMA26 and SMA20 > SMA50)"
  const MA_BEARISH: string := "Bearish crossover (EMA12 < EMA26 and SMA20 < SMA50)"
  const MA_NEUTRAL: string := "No clear MA crossover"

  function MaStatus(s: SignalRow): Status
  {
    Status(s.ma, [if s.ma == 1 then MA_BULLISH else if s.ma == -1 then MA_BEARISH else MA_NEUTRAL])
  }

  const MACD_BULLISH: string := "Bullish crossover (MACD > Signal Line)"
  const MACD_BEARISH: string := "Bearish crossover (MACD < Signal Line)"
  const MACD_NEUTRAL: string := "No MACD crossover"
  const HIST_ABOVE: string := "MACD histogram above zero (bullish momentum)"
  const HIST_BELOW: string := "MACD histogram below zero (bearish momentum)"

  /** The crossover text, then, when the frame has a histogram column, its
      side of zero (a NaN histogram reads as below). */
  function MacdStatus(s: SignalRow, b: Bar, hasHist: bool): Status
  {
    var crossover := if s.macd == 1 then MACD_BULLISH else if s.macd == -1 then MACD_BEARISH else MACD_NEUTRAL;
    var momentum :=
      if !hasHist then []
      else if Gt(b.macdHist, Some(0.0)) then [HIST_ABOVE]
      else [HIST_BELOW];
    Status(s.macd, [crossover] + momentum)
  }

  /** The columns in the order the explanation lists them, with their names. */
  const PATTERN_ORDER: seq<PatternColumn> := [HsPattern, DoubleTop, DoubleBottom, TriangleAsc, TriangleDesc, TriangleSym]

  function PatternName(p: PatternColumn): string
  {
    match p
    case HsPattern => "Head and Shoulders"
    case DoubleTop => "Double Top"
    case DoubleBottom => "Double Bottom"
    case TriangleAsc => "Ascending Triangle"
    case TriangleDesc => "Descending Triangle"
    case TriangleSym => "Symmetrical Triangle"
  }

  /** A present column whose cell is +1 or -1. */
  predicate Active(b: Bar, columns: set<PatternColumn>, p: PatternColumn)
  {
    p in columns && (PatternValue(b, p) == 1 || PatternValue(b, p) == -1)
  }

  function Phrase(b: Bar, p: PatternColumn): string
  {
    (if PatternValue(b, p) == -1 then "bearish" else "bullish") + " " + PatternName(p)
  }

  /** The phrases of the active columns among `ps`, in order. */
  function ActivePhrases(b: Bar, columns: set<PatternColumn>, ps: seq<PatternColumn>): seq<string>
  {
    if |ps| == 0 then []
    else ActivePhrases(b, columns, ps[..|ps| - 1])
         + (if Active(b, columns, ps[|ps| - 1]) then [Phrase(b, ps[|ps| - 1])] else [])
  }

  function PatternStatus(s: SignalRow, b: Bar, columns: set<PatternColumn>): Status
  {
    var active := ActivePhrases(b, columns, PATTERN_ORDER);
    Status(s.pattern, if |active| > 0 then active else [NO_PATTERNS])
  }

  /** Where `d` first occurs in the index. */
  function IndexOf(index: seq<Date>, d: Date): (k: int)
    requires d in index
    ensures 0 <= k < |index| && index[k] == d && forall j :: 0 <= j < k ==> index[j] != d
  {
    if index[0] == d then 0 else 1 + IndexOf(index[1..], d)
  }

  /** The explanation of `date` (the last indexed date when absent), built
      from the row's signals and the analysed frame's own cells. */
  function Explain(data: seq<Bar>, index: seq<Date>, columns: set<PatternColumn>, hasHist: bool,
                   date: Option<Date>): Result<Explanation, ExplainError>
    requires |index| == |data|
  {
    if date.None? && |index| == 0 then Err(EmptyIndex)
    else
      var d := if date.Some? then date.value else index[|index| - 1];
      if d !in index then Err(NoData(d))
      else
        var k := IndexOf(index, d);
        var row := SignalsOf(data[k], columns);
        Ok(Explanation(d, Label(row.signal), row.composite, MaStatus(row),
                       MacdStatus(row, data[k], hasHist), PatternStatus(row, data[k], columns)))
  }

  /** The generator over one analysed frame, caching the signals it last built. */
  class SignalGenerator {
    const data: seq<Bar>
    const index: seq<Date>
    const columns: set<PatternColumn>
    const hasHist: bool
    var signals: Option<seq<SignalRow>>

    ghost predicate Valid()
      reads this
    {
      |index| == |data| && (signals.Some? ==> signals.value == Signals(data, columns))
    }

    constructor (data: seq<Bar>, index: seq<Date>, columns: set<PatternColumn>, hasHist: bool)
      requires |index| == |data|
      ensures Valid()
      ensures this.data == data && this.index == index && this.columns == columns && this.hasHist == hasHist
      ensures signals.None?
    {
      this.data, this.index, this.columns, this.hasHist := data, index, columns, hasHist;
      signals := None;
    }

    method GenerateSignals() returns (r: seq<SignalRow>)
      requires Valid()
      modifies this`signals
      ensures Valid()
      ensures r == Signals(data, columns) && signals == Some(r)
    {
      r := [];
      for t := 0 to |data|
        invariant |r| == t && forall j :: 0 <= j < t ==> r[j] == SignalsOf(data[j], columns)
      {
        var row := RowSignals(data[t], columns);
        r := r + [row];
      }
      signals := Some(r);
    }

    /** Builds the signals first when none are cached. */
    method ExplainSignal(date: Option<Date>) returns (e: Result<Explanation, ExplainError>)
      requires Valid()
      modifies this`signals
      ensures Valid()
      ensures signals == Some(Signals(data, columns))
      ensures e == Explain(data, index, columns, hasHist, date)
    {
      if signals.None? {
        var _ := GenerateSignals();
      }
      if date.None? && |index| == 0 {
        return Err(EmptyIndex);
      }
      var d := if date.Some? then date.value else index[|index| - 1];
      if d !in index {
        return Err(NoData(d));
      }
      var k := IndexOf(index, d);
      var row := signals.value[k];
      e := Ok(Explanation(d, Label(row.signal), row.composite, MaStatus(row),
                          MacdStatus(row, data[k], hasHist), PatternStatus(row, data[k], columns)));
    }
  }

  // ---------------------------------------------------------------------------
  // Properties
  // ---------------------------------------------------------------------------

  /** The two moving-average masks are disjoint, so their order does not
      matter: 1 exactly on the bullish mask, -1 exactly on the bearish one. */
  lemma MaSignalMeaning(b: Bar)
    ensures MaSignal(b) == 1 <==> Gt(b.ema12, b.ema26) && Gt(b.sma20, b.sma50)
    ensures MaSignal(b) == -1 <==> Lt(b.ema12, b.ema26) && Lt(b.sma20, b.sma50)
    ensures MaSignal(b) in {-1, 0, 1}
  {
  }

  /** The MACD sub-signal is the sign of macd - signal line, 0 when either is NaN. */
  lemma MacdSignalIsSign(b: Bar)
    ensures b.macd.Some? && b.macdSignal.Some? ==>
              MacdSignal(b) as real * Abs(b.macd.value - b.macdSignal.value) == b.macd.value - b.macdSignal.value
    ensures MacdSignal(b) == 0 <==> b.macd.None? || b.macdSignal.None? || b.macd == b.macdSignal
  {
  }

  lemma RsiSignalMeaning(b: Bar)
    ensures RsiSignal(b) == 1 <==> b.rsi14.Some? && b.rsi14.value < RSI_OVERSOLD
    ensures RsiSignal(b) == -1 <==> b.rsi14.Some? && b.rsi14.value > RSI_OVERBOUGHT
  {
  }

  /** An undefined band never fires on its side. */
  lemma BbSignalMeaning(b: Bar)
    ensures BbSignal(b) == 1 <==> Lt(b.close, b.bbLower) && !Gt(b.close, b.bbUpper)
    ensures BbSignal(b) == -1 <==> Gt(b.close, b.bbUpper)
    ensures b.bbLower.None? && b.bbUpper.None? ==> BbSignal(b) == 0
  {
  }

  /** Resistance wins: a close at or above resistance is -1 even when it is
      also at or below support; an absent level never fires. */
  lemma SrSignalPrecedence(b: Bar)
    ensures Ge(b.close, b.resistance) ==> SrSignal(b) == -1
    ensures SrSignal(b) == 1 <==> Le(b.close, b.support) && !Ge(b.close, b.resistance)
    ensures b.support.None? && b.resistance.None? ==> SrSignal(b) == 0
  {
  }

  lemma {:induction false} CountValuedBounds(ps: seq<PatternColumn>, columns: set<PatternColumn>, b: Bar, v: int)
    ensures 0 <= CountValued(ps, columns, b, v) <= |ps|
  {
    if |ps| > 0 {
      CountValuedBounds(ps[..|ps| - 1], columns, b, v);
    }
  }

  lemma PatternSignalBounds(b: Bar, columns: set<PatternColumn>)
    ensures -3 <= PatternSignal(b, columns) <= 3
  {
    CountValuedBounds(BULLISH, columns, b, 1);
    CountValuedBounds(BEARISH, columns, b, -1);
  }

  /** The symmetrical triangle is scanned only as bullish, so its -1
      (a bearish breakout) contributes nothing. */
  lemma TriangleSymBearishIgnored(b: Bar, columns: set<PatternColumn>)
    requires b.triangleSym == -1
    ensures PatternSignal(b, columns) == PatternSignal(b.(triangleSym := 0), columns)
  {
    var b0 := b.(triangleSym := 0);
    assert BULLISH[..2][..1] == BULLISH[..1] && BULLISH[..3][..2] == BULLISH[..2] && BULLISH[..3] == BULLISH;
    assert BEARISH[..2][..1] == BEARISH[..1] && BEARISH[..3][..2] == BEARISH[..2] && BEARISH[..3] == BEARISH;
    assert CountValued(BULLISH[..1], columns, b, 1) == CountValued(BULLISH[..1], columns, b0, 1);
    assert CountValued(BULLISH[..2], columns, b, 1) == CountValued(BULLISH[..2], columns, b0, 1);
    assert CountValued(BEARISH[..1], columns, b, -1) == CountValued(BEARISH[..1], columns, b0, -1);
    assert CountValued(BEARISH[..2], columns, b, -1) == CountValued(BEARISH[..2], columns, b0, -1);
  }

  /** Every sub-signal is in range, so the composite lies in [-13, 13]. */
  lemma CompositeBounds(b: Bar, columns: set<PatternColumn>)
    ensures var s := SignalsOf(b, columns);
            && s.ma in {-1, 0, 1} && s.macd in {-1, 0, 1} && s.rsi in {-1, 0, 1}
            && s.bb in {-1, 0, 1} && s.sr in {-1, 0, 1} && -3 <= s.pattern <= 3
            && -13.0 <= s.composite <= 13.0
  {
    PatternSignalBounds(b, columns);
  }

  /** The bound is reached: every rule bullish at once scores 13. */
  lemma CompositeBoundAttained()
    ensures var all := {HsPattern, DoubleTop, DoubleBottom, TriangleAsc, TriangleDesc, TriangleSym};
            var b := Bar(Some(1.0), Some(2.0), Some(1.0), Some(2.0), Some(1.0), Some(1.0), Some(0.0), Some(0.0),
                         Some(10.0), Some(3.0), Some(2.5), Some(2.0), Some(1.0), None, 0, 0, 1, 1, 0, 1);
            SignalsOf(b, all).composite == 13.0 && SignalsOf(b, all).signal == 1
  {
    var all := {HsPattern, DoubleTop, DoubleBottom, TriangleAsc, TriangleDesc, TriangleSym};
    var b := Bar(Some(1.0), Some(2.0), Some(1.0), Some(2.0), Some(1.0), Some(1.0), Some(0.0), Some(0.0),
                 Some(10.0), Some(3.0), Some(2.5), Some(2.0), Some(1.0), None, 0, 0, 1, 1, 0, 1);
    assert BULLISH[..2][..1] == BULLISH[..1] && BULLISH[..3][..2] == BULLISH[..2] && BULLISH[..3] == BULLISH;
    assert BEARISH[..2][..1] == BEARISH[..1] && BEARISH[..3][..2] == BEARISH[..2] && BEARISH[..3] == BEARISH;
    assert CountValued(BULLISH[..1], all, b, 1) == 1;
    assert CountValued(BULLISH[..2], all, b, 1) == 2;
    assert CountValued(BULLISH, all, b, 1) == 3;
    assert CountValued(BEARISH[..1], all, b, -1) == 0;
    assert CountValued(BEARISH[..2], all, b, -1) == 0;
    assert CountValued(BEARISH, all, b, -1) == 0;
  }

  /** The decision is 1 exactly at or above 3, -1 exactly at or below -3. */
  lemma DecisionMeaning(score: real)
    ensures Decision(score) == 1 <==> score >= 3.0
    ensures Decision(score) == -1 <==> score <= -3.0
    ensures Decision(score) == 0 <==> -3.0 < score < 3.0
  {
  }

  lemma DecisionMonotone(s1: real, s2: real)
    requires s1 <= s2
    ensures Decision(s1) <= Decision(s2)
  {
  }

  /** Buy, Sell and Hold name the three decisions and nothing else. */
  lemma LabelMeaning(signal: int)
    ensures Label(signal) == "Buy" <==> signal == 1
    ensures Label(signal) == "Sell" <==> signal == -1
    ensures Label(signal) == "Hold" <==> signal != 1 && signal != -1
  {
  }

  /** The default date is the last one of the index; an unknown date is an
      error, and a known one explains the row it first labels. */
  lemma ExplainLookup(data: seq<Bar>, index: seq<Date>, columns: set<PatternColumn>, hasHist: bool,
                      date: Option<Date>)
    requires |index| == |data|
    ensures var e := Explain(data, index, columns, hasHist, date);
            && (date.None? ==> (e.Err? <==> |index| == 0))
            && (date.None? && |index| > 0 ==> e.value.date == index[|index| - 1])
            && (date.Some? ==> (e == Err(NoData(date.value)) <==> date.value !in index))
            && (e.Ok? ==> exists k :: 0 <= k < |data| && index[k] == e.value.date &&
                            e.value.finalSignal == Label(Signals(data, columns)[k].signal))
  {
    var e := Explain(data, index, columns, hasHist, date);
    if e.Ok? {
      var k := IndexOf(index, e.value.date);
      assert index[k] == e.value.date;
    }
  }

  lemma {:induction false} ActivePhrasesSound(b: Bar, columns: set<PatternColumn>, ps: seq<PatternColumn>, i: int)
    requires 0 <= i < |ActivePhrases(b, columns, ps)|
    ensures exists p :: p in ps && Active(b, columns, p) && ActivePhrases(b, columns, ps)[i] == Phrase(b, p)
  {
    var init := ps[..|ps| - 1];
    if i < |ActivePhrases(b, columns, init)| {
      ActivePhrasesSound(b, columns, init, i);
      var p :| p in init && Active(b, columns, p) && ActivePhrases(b, columns, init)[i] == Phrase(b, p);
      assert p in ps;
    } else {
      assert ActivePhrases(b, columns, ps)[i] == Phrase(b, ps[|ps| - 1]);
    }
  }

  lemma {:induction false} ActivePhrasesComplete(b: Bar, columns: set<PatternColumn>, ps: seq<PatternColumn>, p: PatternColumn)
    requires p in ps && Active(b, columns, p)
    ensures Phrase(b, p) in ActivePhrases(b, columns, ps)
  {
    var init := ps[..|ps| - 1];
    if p != ps[|ps| - 1] {
      assert p in init;
      ActivePhrasesComplete(b, columns, init, p);
    }
  }

  lemma {:induction false} ActivePhrasesEmpty(b: Bar, columns: set<PatternColumn>, ps: seq<PatternColumn>)
    ensures |ActivePhrases(b, columns, ps)| == 0 <==> forall p :: p in ps ==> !Active(b, columns, p)
  {
    if |ps| > 0 {
      var init := ps[..|ps| - 1];
      ActivePhrasesEmpty(b, columns, init);
      assert forall p :: p in ps ==> p in init || p == ps[|ps| - 1];
    }
  }

  /** The moving-average text tells the truth about the bar: the bullish text
      exactly when both fast averages are above the slow ones, the bearish
      text exactly when both are below, the neutral text otherwise. */
  lemma MaStatusMeaning(b: Bar, columns: set<PatternColumn>)
    ensures var st := MaStatus(SignalsOf(b, columns));
            && st.value == MaSignal(b)
            && (st.status == [MA_BULLISH] <==> Gt(b.ema12, b.ema26) && Gt(b.sma20, b.sma50))
            && (st.status == [MA_BEARISH] <==> Lt(b.ema12, b.ema26) && Lt(b.sma20, b.sma50))
            && (st.status == [MA_NEUTRAL] <==>
                  !(Gt(b.ema12, b.ema26) && Gt(b.sma20, b.sma50)) && !(Lt(b.ema12, b.ema26) && Lt(b.sma20, b.sma50)))
  {
  }

  /** The MACD text names the side of the signal line the MACD is on, and,
      when the frame has a histogram column, adds the histogram's side of
      zero, a NaN histogram reading as below. */
  lemma MacdStatusMeaning(b: Bar, columns: set<PatternColumn>, hasHist: bool)
    ensures var st := MacdStatus(SignalsOf(b, columns), b, hasHist);
            && st.value == MacdSignal(b)
            && |st.status| == (if hasHist then 2 else 1)
            && (st.status[0] == MACD_BULLISH <==> Gt(b.macd, b.macdSignal))
            && (st.status[0] == MACD_BEARISH <==> Lt(b.macd, b.macdSignal))
            && (st.status[0] == MACD_NEUTRAL <==> !Gt(b.macd, b.macdSignal) && !Lt(b.macd, b.macdSignal))
            && (hasHist ==> (st.status[1] == HIST_ABOVE <==> b.macdHist.Some? && b.macdHist.value > 0.0))
            && (hasHist ==> (st.status[1] == HIST_BELOW <==> b.macdHist.None? || b.macdHist.value <= 0.0))
  {
    assert MACD_BULLISH[1] != MACD_BEARISH[1] && MACD_BULLISH[0] != MACD_NEUTRAL[0] && MACD_BEARISH[0] != MACD_NEUTRAL[0];
    assert HIST_ABOVE[15] != HIST_BELOW[15];
  }

  /** The pattern texts list one "bullish X" / "bearish X" phrase for each
      active column and nothing else, or exactly the no-pattern text when no
      column is active. */
  lemma PatternStatusMeaning(s: SignalRow, b: Bar, columns: set<PatternColumn>)
    ensures var st := PatternStatus(s, b, columns).status;
            && (st == [NO_PATTERNS] <==> forall p :: !Active(b, columns, p))
            && (forall p :: Active(b, columns, p) ==> Phrase(b, p) in st)
            && (forall i :: 0 <= i < |st| && st != [NO_PATTERNS] ==>
                  exists p :: Active(b, columns, p) && st[i] == Phrase(b, p))
  {
    var active := ActivePhrases(b, columns, PATTERN_ORDER);
    var st := PatternStatus(s, b, columns).status;
    assert forall p: PatternColumn :: p in PATTERN_ORDER by {
      forall p: PatternColumn ensures p in PATTERN_ORDER {
        match p
        case HsPattern => assert PATTERN_ORDER[0] == p;
        case DoubleTop => assert PATTERN_ORDER[1] == p;
        case DoubleBottom => assert PATTERN_ORDER[2] == p;
        case TriangleAsc => assert PATTERN_ORDER[3] == p;
        case TriangleDesc => assert PATTERN_ORDER[4] == p;
        case TriangleSym => assert PATTERN_ORDER[5] == p;
      }
    }
    ActivePhrasesEmpty(b, columns, PATTERN_ORDER);
    forall p | Active(b, columns, p)
      ensures Phrase(b, p) in st
    {
      ActivePhrasesComplete(b, columns, PATTERN_ORDER, p);
    }
    forall i | 0 <= i < |st| && st != [NO_PATTERNS]
      ensures exists p :: Active(b, columns, p) && st[i] == Phrase(b, p)
    {
      ActivePhrasesSound(b, columns, PATTERN_ORDER, i);
    }
    if |active| > 0 {
      var p :| p in PATTERN_ORDER && Active(b, columns, p) && active[0] == Phrase(b, p);
      assert active[0][0] == 'b';
    }
  }
}
