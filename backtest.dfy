/** Backtest accounting: decisions shifted by one bar become cumulative
    positions; a cash ledger is charged for position changes with commission;
    equity, drawdown, trade counts and the five-trades-later success rates
    are derived from them. Every column may hold NaN, written None. */
module Backtest {
  import opened Common

  // ---------------------------------------------------------------------------
  // Column operations, with pandas' NaN handling
  // ---------------------------------------------------------------------------

  /** `signal.shift(1)`: row 0 has no decision, row t holds row t-1's. */
  function Shifted(decisions: seq<int>): (r: seq<Option<real>>)
    ensures |r| == |decisions|
  {
    seq(|decisions|, t requires 0 <= t < |decisions| => if t == 0 then None else Some(decisions[t - 1] as real))
  }

  /** The sum of the defined cells. */
  function SumDefined(xs: seq<Option<real>>): real
  {
    if |xs| == 0 then 0.0
    else SumDefined(xs[..|xs| - 1]) + (if xs[|xs| - 1].Some? then xs[|xs| - 1].value else 0.0)
  }

  /** `cumsum()`: NaN stays NaN; a defined cell holds the sum of the defined
      cells up to it. */
  function CumSum(xs: seq<Option<real>>): (r: seq<Option<real>>)
    ensures |r| == |xs|
  {
    seq(|xs|, t requires 0 <= t < |xs| => if xs[t].None? then None else Some(SumDefined(xs[..t + 1])))
  }

  /** `diff()`: NaN at row 0 and wherever either neighbour is NaN. */
  function Diff(xs: seq<Option<real>>): (r: seq<Option<real>>)
    ensures |r| == |xs|
  {
    seq(|xs|, t requires 0 <= t < |xs| =>
      if t == 0 || xs[t].None? || xs[t - 1].None? then None else Some(xs[t].value - xs[t - 1].value))
  }

  /** The largest defined cell, None when there is none. */
  function MaxDefined(xs: seq<Option<real>>): Option<real>
  {
    if |xs| == 0 then None
    else
      var m, x := MaxDefined(xs[..|xs| - 1]), xs[|xs| - 1];
      if x.None? then m else if m.None? then x else Some(MaxOf(m.value, x.value))
  }

  /** `cummax()`: NaN stays NaN; a defined cell holds the largest defined
      cell up to it. */
  function CumMax(xs: seq<Option<real>>): (r: seq<Option<real>>)
    ensures |r| == |xs|
  {
    seq(|xs|, t requires 0 <= t < |xs| => if xs[t].None? then None else MaxDefined(xs[..t + 1]))
  }

  // ---------------------------------------------------------------------------
  // The ledger
  // ---------------------------------------------------------------------------

  function Positions(decisions: seq<int>): (r: seq<Option<real>>)
    ensures |r| == |decisions|
  {
    CumSum(Shifted(decisions))
  }

  function Holdings(decisions: seq<int>, close: seq<real>): (r: seq<Option<real>>)
    requires |close| == |decisions|
    ensures |r| == |decisions|
  {
    var pos := Positions(decisions);
    seq(|pos|, t requires 0 <= t < |pos| => if pos[t].None? then None else Some(pos[t].value * close[t]))
  }

  /** What each bar's position change costs, commission included. */
  function CashFlows(decisions: seq<int>, close: seq<real>, commission: real): (r: seq<Option<real>>)
    requires |close| == |decisions|
    ensures |r| == |decisions|
  {
    var d := Diff(Positions(decisions));
    seq(|d|, t requires 0 <= t < |d| => if d[t].None? then None else Some(d[t].value * close[t] * (1.0 + commission)))
  }

  function Cash(decisions: seq<int>, close: seq<real>, initial: real, commission: real): (r: seq<Option<real>>)
    requires |close| == |decisions|
    ensures |r| == |decisions|
  {
    var spent := CumSum(CashFlows(decisions, close, commission));
    seq(|spent|, t requires 0 <= t < |spent| => if spent[t].None? then None else Some(initial - spent[t].value))
  }

  function Total(decisions: seq<int>, close: seq<real>, initial: real, commission: real): (r: seq<Option<real>>)
    requires |close| == |decisions|
    ensures |r| == |decisions|
  {
    var cash, holdings := Cash(decisions, close, initial, commission), Holdings(decisions, close);
    seq(|cash|, t requires 0 <= t < |cash| =>
      if cash[t].None? || holdings[t].None? then None else Some(cash[t].value + holdings[t].value))
  }

  /** `(final / initial - 1) * 100`; None stands for a NaN or infinite result. */
  function TotalReturnPct(final: Option<real>, initial: real): Option<real>
  {
    if final.None? || initial == 0.0 then None else Some((final.value / initial - 1.0) * 100.0)
  }

  /** `(cummax - total) / cummax` row by row; a zero running maximum gives
      no finite value. */
  function Drawdown(total: seq<Option<real>>): (r: seq<Option<real>>)
    ensures |r| == |total|
  {
    var peak := CumMax(total);
    seq(|total|, t requires 0 <= t < |total| =>
      if peak[t].None? || total[t].None? || peak[t].value == 0.0 then None
      else Some((peak[t].value - total[t].value) / peak[t].value))
  }

  function MaxDrawdownPct(total: seq<Option<real>>): Option<real>
  {
    var m := MaxDefined(Drawdown(total));
    if m.None? then None else Some(m.value * 100.0)
  }

  /** `returns.mean() / returns.std() * sqrt(252)` when there are at least two
      returns and their deviation `sd` is not zero, 0 otherwise; `ratio` is
      that quotient. */
  function SharpeRatio(count: nat, sd: real, ratio: real): (r: real)
    ensures count <= 1 || sd == 0.0 ==> r == 0.0
    ensures count > 1 && sd != 0.0 ==> r == ratio
  {
    if count > 1 && sd != 0.0 then ratio else 0.0
  }

  // ---------------------------------------------------------------------------
  // Trades
  // ---------------------------------------------------------------------------

  /** `position.diff().fillna(0)` */
  function Trades(decisions: seq<int>): (r: seq<real>)
    ensures |r| == |decisions|
  {
    var d := Diff(Positions(decisions));
    seq(|d|, t requires 0 <= t < |d| => if d[t].Some? then d[t].value else 0.0)
  }

  /** The rows whose trade is a buy (`buy`) or a sell, in order. */
  function TradeRows(trades: seq<real>, buy: bool): (rows: seq<nat>)
    ensures forall k :: 0 <= k < |rows| ==> rows[k] < |trades|
  {
    if |trades| == 0 then []
    else
      var last := |trades| - 1;
      TradeRows(trades[..last], buy) + (if (buy && trades[last] > 0.0) || (!buy && trades[last] < 0.0) then [last] else [])
  }

  /** Among the trades' closes, how many of the first m are beaten by the
      close five trades later (rising for buys, falling for sells); the last
      five have no such trade and never count. */
  function Successes(closes: seq<real>, buy: bool, m: nat): nat
    requires m <= |closes|
  {
    if m == 0 then 0
    else
      var k := m - 1;
      Successes(closes, buy, k)
      + (if k + 5 < |closes| && ((buy && closes[k + 5] > closes[k]) || (!buy && closes[k + 5] < closes[k])) then 1 else 0)
  }

  function SuccessRate(close: seq<real>, rows: seq<nat>, buy: bool): real
    requires forall k :: 0 <= k < |rows| ==> rows[k] < |close|
  {
    if |rows| == 0 then 0.0
    else
      var closes := seq(|rows|, k requires 0 <= k < |rows| => close[rows[k]]);
      Successes(closes, buy, |closes|) as real / |closes| as real * 100.0
  }

  // ---------------------------------------------------------------------------
  // The run
  // ---------------------------------------------------------------------------

  datatype Performance = Performance(
    initialCapital: real, finalValue: Option<real>, totalReturnPct: Option<real>,
    maxDrawdownPct: Option<real>, sharpeRatio: real,
    totalTrades: nat, buyTrades: nat, sellTrades: nat,
    buySuccessRate: real, sellSuccessRate: real,
    positions: seq<Option<real>>, cash: seq<Option<real>>, holdings: seq<Option<real>>, total: seq<Option<real>>)

  /** An empty frame has no last row to value. */
  datatype BacktestError = EmptyFrame

  /** The whole run over one decision and one close column on the same
      index; `sd` and `ratio` are the returns' deviation and Sharpe quotient. */
  function Backtest(decisions: seq<int>, close: seq<real>, initial: real, commission: real,
                    sd: real, ratio: real): Result<Performance, BacktestError>
    requires |close| == |decisions|
  {
    if |decisions| == 0 then Err(EmptyFrame)
    else
      var total := Total(decisions, close, initial, commission);
      var final := total[|total| - 1];
      var trades := Trades(decisions);
      var buys, sells := TradeRows(trades, true), TradeRows(trades, false);
      Ok(Performance(
        initial, final, TotalReturnPct(final, initial), MaxDrawdownPct(total),
        SharpeRatio(|decisions|, sd, ratio),
        |buys| + |sells|, |buys|, |sells|,
        SuccessRate(close, buys, true), SuccessRate(close, sells, false),
        Positions(decisions), Cash(decisions, close, initial, commission), Holdings(decisions, close), total))
  }

  /** The backtester over one frame and its signals, keeping the last
      performance it computed. */
  class Backtester {
    const decisions: seq<int>
    const close: seq<real>
    var performance: Option<Performance>

    constructor (decisions: seq<int>, close: seq<real>)
      requires |close| == |decisions|
      ensures this.decisions == decisions && this.close == close && performance.None?
    {
      this.decisions, this.close := decisions, close;
      performance := None;
    }

    /** A run that raises leaves the cached performance as it was. */
    method RunBacktest(initial: real, commission: real, sd: real, ratio: real)
      returns (r: Result<Performance, BacktestError>)
      requires |close| == |decisions|
      modifies this`performance
      ensures r == Backtest(decisions, close, initial, commission, sd, ratio)
      ensures performance == if r.Ok? then Some(r.value) else old(performance)
    {
      r := Backtest(decisions, close, initial, commission, sd, ratio);
      if r.Ok? {
        performance := Some(r.value);
      }
    }
  }

  // ---------------------------------------------------------------------------
  // Positions
  // ---------------------------------------------------------------------------

  lemma {:induction false} ShiftedPrefixSum(decisions: seq<int>, t: int)
    requires 0 <= t < |decisions|
    ensures SumDefined(Shifted(decisions)[..t + 1]) == SumInt(decisions[..t]) as real
  {
    var sh := Shifted(decisions);
    if t > 0 {
      ShiftedPrefixSum(decisions, t - 1);
      assert sh[..t + 1][..t] == sh[..t];
      assert decisions[..t][..t - 1] == decisions[..t - 1];
    } else {
      assert sh[..1] == [None];
      assert SumDefined([]) == 0.0;
    }
  }

  /** The position at row t is the sum of the decisions of rows before t;
      row 0 has none. */
  lemma PositionIsPrefixSum(decisions: seq<int>, t: int)
    requires 0 <= t < |decisions|
    ensures Positions(decisions)[t] == if t == 0 then None else Some(SumInt(decisions[..t]) as real)
  {
    if t > 0 {
      ShiftedPrefixSum(decisions, t);
    }
  }

  /** No look-ahead: decisions from row t on do not move positions at rows up to t. */
  lemma PositionsIgnoreLaterDecisions(d1: seq<int>, d2: seq<int>, t: int)
    requires |d1| == |d2| && 0 <= t < |d1| && d1[..t] == d2[..t]
    ensures forall s :: 0 <= s <= t ==> Positions(d1)[s] == Positions(d2)[s]
  {
    forall s | 0 <= s <= t
      ensures Positions(d1)[s] == Positions(d2)[s]
    {
      PositionIsPrefixSum(d1, s);
      PositionIsPrefixSum(d2, s);
      assert d1[..s] == d1[..t][..s] == d2[..t][..s] == d2[..s];
    }
  }

  /** The trade at row t is the decision of row t-1, except at rows 0 and 1,
      where the position's difference is NaN and counts as no trade. */
  lemma TradeIsPreviousDecision(decisions: seq<int>, t: int)
    requires 0 <= t < |decisions|
    ensures Diff(Positions(decisions))[t] == if t < 2 then None else Some(decisions[t - 1] as real)
    ensures Trades(decisions)[t] == if t < 2 then 0.0 else decisions[t - 1] as real
  {
    PositionIsPrefixSum(decisions, t);
    if t >= 1 {
      PositionIsPrefixSum(decisions, t - 1);
    }
    if t >= 2 {
      assert decisions[..t] == decisions[..t - 1] + [decisions[t - 1]];
      assert decisions[..t][..t - 1] == decisions[..t - 1];
    }
  }

  /** Decisions in {-1, 0, 1} trade one unit at a time. */
  lemma TradesAreUnit(decisions: seq<int>, t: int)
    requires forall k :: 0 <= k < |decisions| ==> -1 <= decisions[k] <= 1
    requires 0 <= t < |decisions|
    ensures Trades(decisions)[t] in {-1.0, 0.0, 1.0}
  {
    TradeIsPreviousDecision(decisions, t);
  }

  // ---------------------------------------------------------------------------
  // Cash and equity
  // ---------------------------------------------------------------------------

  /** The ledger's charges through row t: every position change from row 2
      on at its close, plus commission. */
  function Charged(decisions: seq<int>, close: seq<real>, commission: real, t: int): real
    requires |close| == |decisions| && t < |decisions|
  {
    if t < 2 then 0.0
    else Charged(decisions, close, commission, t - 1) + decisions[t - 1] as real * close[t] * (1.0 + commission)
  }

  /** Row t's charge: nothing at rows 0 and 1, then the previous decision at
      this close plus commission. */
  lemma CashFlowAt(decisions: seq<int>, close: seq<real>, commission: real, t: int)
    requires |close| == |decisions| && 0 <= t < |decisions|
    ensures CashFlows(decisions, close, commission)[t] ==
              if t < 2 then None else Some(decisions[t - 1] as real * close[t] * (1.0 + commission))
  {
    TradeIsPreviousDecision(decisions, t);
    var flows := CashFlows(decisions, close, commission);
    if t >= 2 {
      assert flows[t].value == decisions[t - 1] as real * close[t] * (1.0 + commission);
    }
  }

  lemma {:induction false} SpentIsCharged(decisions: seq<int>, close: seq<real>, commission: real, t: int)
    requires |close| == |decisions| && 0 <= t < |decisions|
    ensures SumDefined(CashFlows(decisions, close, commission)[..t + 1]) == Charged(decisions, close, commission, t)
  {
    var flows := CashFlows(decisions, close, commission);
    CashFlowAt(decisions, close, commission, t);
    if t > 0 {
      SpentIsCharged(decisions, close, commission, t - 1);
      assert flows[..t + 1][..t] == flows[..t];
      assert flows[..t + 1][t] == flows[t];
    } else {
      assert flows[..1] == [None];
      assert SumDefined([]) == 0.0;
    }
  }

  /** Cash is undefined at rows 0 and 1; from row 2 it is the initial capital
      less every charge so far. */
  lemma CashClosedForm(decisions: seq<int>, close: seq<real>, initial: real, commission: real, t: int)
    requires |close| == |decisions| && 0 <= t < |decisions|
    ensures Cash(decisions, close, initial, commission)[t] ==
              if t < 2 then None else Some(initial - Charged(decisions, close, commission, t))
  {
    TradeIsPreviousDecision(decisions, t);
    SpentIsCharged(decisions, close, commission, t);
  }

  lemma {:induction false} ChargedIgnoresFirstDecision(d1: seq<int>, d2: seq<int>, close: seq<real>, commission: real,
                                                      t: int)
    requires |d1| == |d2| == |close| && t < |d1| && forall k :: 1 <= k < |d1| ==> d1[k] == d2[k]
    ensures Charged(d1, close, commission, t) == Charged(d2, close, commission, t)
  {
    if t >= 2 {
      ChargedIgnoresFirstDecision(d1, d2, close, commission, t - 1);
    }
  }

  /** The decision of row 0, acted on at row 1, is never paid for: cash does
      not depend on it at all, though the holdings carry it from row 1 on. */
  lemma CashIgnoresFirstDecision(d1: seq<int>, d2: seq<int>, close: seq<real>, initial: real, commission: real)
    requires |d1| == |d2| == |close| && forall k :: 1 <= k < |d1| ==> d1[k] == d2[k]
    ensures Cash(d1, close, initial, commission) == Cash(d2, close, initial, commission)
  {
    forall t | 0 <= t < |d1|
      ensures Cash(d1, close, initial, commission)[t] == Cash(d2, close, initial, commission)[t]
    {
      CashClosedForm(d1, close, initial, commission, t);
      CashClosedForm(d2, close, initial, commission, t);
      ChargedIgnoresFirstDecision(d1, d2, close, commission, t);
    }
  }

  /** The holdings are the position valued at the close. */
  lemma HoldingsAt(decisions: seq<int>, close: seq<real>, t: int)
    requires |close| == |decisions| && 0 <= t < |decisions|
    ensures Holdings(decisions, close)[t] ==
              if t == 0 then None else Some(SumInt(decisions[..t]) as real * close[t])
  {
    PositionIsPrefixSum(decisions, t);
    var holdings := Holdings(decisions, close);
    if t > 0 {
      assert holdings[t].value == SumInt(decisions[..t]) as real * close[t];
    }
  }

  /** Equity is cash plus the position valued at the close, from row 2 on. */
  lemma TotalIsCashPlusHoldings(decisions: seq<int>, close: seq<real>, initial: real, commission: real, t: int)
    requires |close| == |decisions| && 0 <= t < |decisions|
    ensures Total(decisions, close, initial, commission)[t] ==
              if t < 2 then None
              else Some(initial - Charged(decisions, close, commission, t) + SumInt(decisions[..t]) as real * close[t])
  {
    HoldingsAt(decisions, close, t);
    CashClosedForm(decisions, close, initial, commission, t);
    var total := Total(decisions, close, initial, commission);
    if t >= 2 {
      assert total[t].value == Cash(decisions, close, initial, commission)[t].value + Holdings(decisions, close)[t].value;
    }
  }

  /** A lone buy at row 0 is held for free: equity gains the whole close. */
  lemma FreeFirstPosition(decisions: seq<int>, close: seq<real>, initial: real, commission: real)
    requires |close| == |decisions| >= 3
    requires decisions[0] == 1 && forall k :: 1 <= k < |decisions| ==> decisions[k] == 0
    ensures Total(decisions, close, initial, commission)[|decisions| - 1] == Some(initial + close[|decisions| - 1])
  {
    var d0 := seq(|decisions|, k => 0);
    var t := |decisions| - 1;
    TotalIsCashPlusHoldings(decisions, close, initial, commission, t);
    ChargedIgnoresFirstDecision(decisions, d0, close, commission, t);
    ChargedOfNoDecisions(d0, close, commission, t);
    PrefixSumOfLoneFirst(decisions, t);
  }

  /** From row 3 on, cash moves by the previous decision's position change
      at this close with the commission factor, sign included: a buy pays
      close * (1 + commission), a sell receives close * (1 + commission), so
      the commission is credited on sells rather than charged. */
  lemma CashStep(decisions: seq<int>, close: seq<real>, initial: real, commission: real, t: int)
    requires |close| == |decisions| && 3 <= t < |decisions|
    ensures Cash(decisions, close, initial, commission)[t] ==
              Some(Cash(decisions, close, initial, commission)[t - 1].value
                   - decisions[t - 1] as real * close[t] * (1.0 + commission))
  {
    CashClosedForm(decisions, close, initial, commission, t);
    CashClosedForm(decisions, close, initial, commission, t - 1);
  }

  /** A lone sell decided at row 1 raises equity by the commission on the
      close it sells at: equity ends at initial + commission * close[2]. */
  lemma SellCreditsCommission(decisions: seq<int>, close: seq<real>, initial: real, commission: real)
    requires |decisions| == |close| == 3 && decisions[0] == 0 && decisions[1] == -1 && decisions[2] == 0
    ensures Total(decisions, close, initial, commission)[2] == Some(initial + commission * close[2])
    ensures commission > 0.0 && close[2] > 0.0 ==> Total(decisions, close, initial, commission)[2].value > initial
  {
    assert decisions[..2][..1] == decisions[..1] && decisions[..1][..0] == [];
    assert SumInt(decisions[..1]) == SumInt(decisions[..1][..0]) + decisions[0] == 0;
    assert SumInt(decisions[..2]) == SumInt(decisions[..2][..1]) + decisions[1] == -1;
    assert Charged(decisions, close, commission, 1) == 0.0;
    assert Charged(decisions, close, commission, 2) == -1.0 * close[2] * (1.0 + commission);
    TotalIsCashPlusHoldings(decisions, close, initial, commission, 2);
    var total := Total(decisions, close, initial, commission)[2];
    assert total.Some? && total.value == initial - Charged(decisions, close, commission, 2) + SumInt(decisions[..2]) as real * close[2];
    SellTotal(total.value, initial, Charged(decisions, close, commission, 2), SumInt(decisions[..2]), close[2], commission);
  }

  lemma SellTotal(total: real, initial: real, charged: real, position: int, c: real, p: real)
    requires total == initial - charged + position as real * c
    requires charged == -1.0 * c * (1.0 + p) && position == -1
    ensures total == initial + p * c
  {
    assert charged == -(c + c * p);
    assert position as real * c == -c;
  }

  lemma {:induction false} ChargedOfNoDecisions(decisions: seq<int>, close: seq<real>, commission: real, t: int)
    requires |close| == |decisions| && t < |decisions|
    requires forall k :: 0 <= k < |decisions| ==> decisions[k] == 0
    ensures Charged(decisions, close, commission, t) == 0.0
  {
    if t >= 2 {
      ChargedOfNoDecisions(decisions, close, commission, t - 1);
    }
  }

  lemma {:induction false} PrefixSumOfLoneFirst(decisions: seq<int>, t: int)
    requires 1 <= t <= |decisions|
    requires decisions[0] == 1 && forall k :: 1 <= k < |decisions| ==> decisions[k] == 0
    ensures SumInt(decisions[..t]) == 1
  {
    if t > 1 {
      PrefixSumOfLoneFirst(decisions, t - 1);
      assert decisions[..t][..t - 1] == decisions[..t - 1];
    } else {
      assert decisions[..1][..0] == [];
    }
  }

  /** With positive capital the return is positive exactly when the final
      value exceeds it. */
  lemma TotalReturnSign(final: real, initial: real)
    requires initial > 0.0
    ensures TotalReturnPct(Some(final), initial).Some?
    ensures TotalReturnPct(Some(final), initial).value > 0.0 <==> final > initial
    ensures TotalReturnPct(Some(final), initial).value == 0.0 <==> final == initial
  {
    var q := final / initial;
    assert final == q * initial;
    if final > initial {
      assert q > 1.0;
    } else if final < initial {
      assert q < 1.0;
    }
  }

  // ---------------------------------------------------------------------------
  // Drawdown
  // ---------------------------------------------------------------------------

  /** The largest defined cell is defined exactly when some cell is, is one
      of them and bounds them all. */
  lemma {:induction false} MaxDefinedIsMax(xs: seq<Option<real>>)
    ensures MaxDefined(xs).Some? <==> exists k :: 0 <= k < |xs| && xs[k].Some?
    ensures MaxDefined(xs).Some? ==> exists k :: 0 <= k < |xs| && xs[k] == MaxDefined(xs)
    ensures forall k :: 0 <= k < |xs| && xs[k].Some? ==> xs[k].value <= MaxDefined(xs).value
  {
    if |xs| > 0 {
      var init := xs[..|xs| - 1];
      MaxDefinedIsMax(init);
      if MaxDefined(init).Some? {
        var k :| 0 <= k < |init| && init[k] == MaxDefined(init);
        assert xs[k] == init[k];
      }
      forall k | 0 <= k < |xs| - 1 && xs[k].Some?
        ensures init[k].Some?
      {
        assert init[k] == xs[k];
      }
    }
  }

  /** The running maximum is never below the equity it follows. */
  lemma PeakAtLeastTotal(total: seq<Option<real>>, t: int)
    requires 0 <= t < |total| && total[t].Some?
    ensures CumMax(total)[t].Some? && CumMax(total)[t].value >= total[t].value
  {
    var pre := total[..t + 1];
    assert pre[t] == total[t];
    MaxDefinedIsMax(pre);
  }

  /** Under a positive peak the drawdown is at least 0, and at most 1 while
      equity is not negative. */
  lemma DrawdownBounds(total: seq<Option<real>>, t: int)
    requires 0 <= t < |total| && total[t].Some?
    requires CumMax(total)[t].value > 0.0
    ensures Drawdown(total)[t].Some?
    ensures Drawdown(total)[t].value >= 0.0
    ensures total[t].value >= 0.0 ==> Drawdown(total)[t].value <= 1.0
  {
    PeakAtLeastTotal(total, t);
    var p, x := CumMax(total)[t].value, total[t].value;
    assert Drawdown(total)[t] == Some((p - x) / p);
    assert (p - x) / p >= 0.0 by {
      assert p - x >= 0.0;
    }
    if x >= 0.0 {
      assert (p - x) / p <= p / p by {
        assert p - x <= p;
      }
    }
  }

  /** The maximum drawdown is 100 times the largest defined drawdown, bounding
      every row's. */
  lemma MaxDrawdownIsLargest(total: seq<Option<real>>, t: int)
    requires 0 <= t < |total| && Drawdown(total)[t].Some?
    ensures MaxDrawdownPct(total).Some? && MaxDrawdownPct(total).value >= Drawdown(total)[t].value * 100.0
  {
    MaxDefinedIsMax(Drawdown(total));
  }

  // ---------------------------------------------------------------------------
  // Trade statistics
  // ---------------------------------------------------------------------------

  /** The buy rows are exactly the rows with a positive trade, the sell rows
      those with a negative one. */
  lemma {:induction false} TradeRowsExact(trades: seq<real>, buy: bool)
    ensures forall t :: 0 <= t < |trades| ==>
              (t in TradeRows(trades, buy) <==> if buy then trades[t] > 0.0 else trades[t] < 0.0)
  {
    if |trades| > 0 {
      var last := |trades| - 1;
      var init := TradeRows(trades[..last], buy);
      TradeRowsExact(trades[..last], buy);
      forall t | 0 <= t < |trades|
        ensures t in TradeRows(trades, buy) <==> if buy then trades[t] > 0.0 else trades[t] < 0.0
      {
        if t < last {
          assert trades[..last][t] == trades[t];
          assert t in TradeRows(trades, buy) <==> t in init;
        }
      }
    }
  }

  /** The rows are listed in increasing order, each once. */
  lemma {:induction false} TradeRowsIncreasing(trades: seq<real>, buy: bool)
    ensures forall i, j :: 0 <= i < j < |TradeRows(trades, buy)| ==> TradeRows(trades, buy)[i] < TradeRows(trades, buy)[j]
  {
    if |trades| > 0 {
      TradeRowsIncreasing(trades[..|trades| - 1], buy);
    }
  }

  /** Every trade is a buy or a sell, never both, so the total is their sum
      and counts the rows with a non-zero trade. */
  lemma {:induction false} TradeCountsPartition(trades: seq<real>)
    ensures |TradeRows(trades, true)| + |TradeRows(trades, false)| == NonZero(trades)
  {
    if |trades| > 0 {
      TradeCountsPartition(trades[..|trades| - 1]);
    }
  }

  function NonZero(trades: seq<real>): nat
  {
    if |trades| == 0 then 0 else NonZero(trades[..|trades| - 1]) + (if trades[|trades| - 1] != 0.0 then 1 else 0)
  }

  lemma {:induction false} SuccessesBound(closes: seq<real>, buy: bool, m: nat)
    requires m <= |closes|
    ensures Successes(closes, buy, m) <= m
    ensures |closes| >= 5 ==> Successes(closes, buy, m) <= if m <= |closes| - 5 then m else |closes| - 5
    ensures |closes| < 5 ==> Successes(closes, buy, m) == 0
    ensures 5 <= |closes| && |closes| - 5 <= m ==> Successes(closes, buy, m) == Successes(closes, buy, |closes| - 5)
  {
    if m > 0 {
      SuccessesBound(closes, buy, m - 1);
    }
  }

  /** Dividing by a positive count keeps the order. */
  lemma DivideMonotone(x: real, y: real, n: real)
    requires n > 0.0 && x <= y
    ensures x / n <= y / n
  {
    assert y / n - x / n == (y - x) / n;
  }

  /** A rate lies in [0, 100]; with no trades it is 0, and since the last
      five trades always count as failures it is 0 for five trades or fewer
      and at most 100 (n - 5) / n for n trades. */
  lemma SuccessRateBounds(close: seq<real>, rows: seq<nat>, buy: bool)
    requires forall k :: 0 <= k < |rows| ==> rows[k] < |close|
    ensures 0.0 <= SuccessRate(close, rows, buy) <= 100.0
    ensures |rows| <= 5 ==> SuccessRate(close, rows, buy) == 0.0
    ensures |rows| > 5 ==> SuccessRate(close, rows, buy) <= (|rows| - 5) as real / |rows| as real * 100.0
  {
    if |rows| > 0 {
      var closes := seq(|rows|, k requires 0 <= k < |rows| => close[rows[k]]);
      SuccessesBound(closes, buy, |closes|);
      var n := |rows| as real;
      var s := Successes(closes, buy, |closes|) as real;
      assert SuccessRate(close, rows, buy) == s / n * 100.0;
      assert s / n >= 0.0;
      DivideMonotone(s, n, n);
      assert n / n == 1.0;
      if |rows| > 5 {
        DivideMonotone(s, n - 5.0, n);
      }
    }
  }
}
