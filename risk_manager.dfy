// The live trader's drawdown stop: the cumulative profit by day, its
// deepest drawdown as a fraction of the running peak, and a halt flag that
// is raised when that drawdown reaches the limit. The halt flag, a file in
// the source, is a boolean field; the drawdown limit, which the source
// imports from its configuration, is a parameter (config.py is not part of
// this model).
module RiskManager {
  import opened Wrappers
  import Numeric
  import CumulativePnl
  import PeriodicReport

  /** The running totals after each day. */
  function RunningSums(xs: seq<int>): (r: seq<int>)
    ensures |r| == |xs|
    ensures xs != [] ==> r[0] == xs[0] && r[|r| - 1] == Numeric.SumInt(xs)
  {
    if xs == [] then []
    else
      assert |xs| == 1 ==> Numeric.SumInt(xs) == xs[0] by {
        if |xs| == 1 {
          assert xs[..0] == [];
        }
      }
      RunningSums(xs[..|xs| - 1]) + [Numeric.SumInt(xs)]
  }

  /** Each running total is the sum of the days up to it. */
  lemma {:induction false} RunningSumsRule(xs: seq<int>)
    ensures forall i :: 0 <= i < |xs| ==> RunningSums(xs)[i] == Numeric.SumInt(xs[..i + 1])
  {
    if xs != [] {
      var n := |xs| - 1;
      RunningSumsRule(xs[..n]);
      assert xs[..n + 1] == xs;
      forall i | 0 <= i < n ensures RunningSums(xs)[i] == Numeric.SumInt(xs[..i + 1]) {
        assert xs[..n][..i + 1] == xs[..i + 1];
      }
    }
  }

  /** The second loop's peak and worst drawdown over the running totals,
      the peak starting at `peak0`. */
  function PeakWorst(cum: seq<int>, peak0: int): (int, real)
  {
    if cum == [] then (peak0, 0.0)
    else
      var (peak, worst) := PeakWorst(cum[..|cum| - 1], peak0);
      var x := cum[|cum| - 1];
      var peak' := if x > peak then x else peak;
      (peak', Numeric.MinReal(worst, PeriodicReport.Drawdown(x, peak')))
  }

  datatype Status = Status(totalDays: nat, cumPnl: int, mdd: real, mddLimit: real)

  /** The status over the daily profits, in date order; none for no day. */
  function PnlStatus(values: seq<int>, mddLimit: real): Option<Status>
  {
    if values == [] then None
    else
      var cum := RunningSums(values);
      Some(Status(|cum|, cum[|cum| - 1], PeakWorst(cum, cum[0]).1, mddLimit))
  }

  /** The two loops compute what the periodic report's single loop does:
      the peak starting at the first running total and the same worst
      drawdown fraction. */
  lemma {:induction false} SameAsPeriodic(xs: seq<int>)
    requires xs != []
    ensures PeakWorst(RunningSums(xs), xs[0]) == (PeriodicReport.MddOf(xs).peak.value, PeriodicReport.MddOf(xs).worst)
  {
    var n := |xs| - 1;
    var init := xs[..n];
    PeriodicReport.MddPeak(xs);
    assert xs[..|xs|] == xs;
    if n == 0 {
      assert init == [];
      assert RunningSums(xs) == [xs[0]];
      assert RunningSums(xs)[..0] == [];
    } else {
      SameAsPeriodic(init);
      PeriodicReport.MddPeak(init);
      assert RunningSums(xs)[..n] == RunningSums(init);
      assert init[0] == xs[0];
    }
  }

  /** With some day, the status counts the days, its profit is the total
      and its drawdown is the periodic report's for the same days: never
      positive, and at most the fall of each day against the peak up to
      it; none without a day. */
  lemma PnlStatusRule(values: seq<int>, mddLimit: real)
    ensures PnlStatus(values, mddLimit).None? <==> values == []
    ensures values != [] ==>
      var s := PnlStatus(values, mddLimit).value;
      s.totalDays == |values| && s.cumPnl == Numeric.SumInt(values)
      && s.mdd == PeriodicReport.MddOf(values).worst && s.mdd <= 0.0 && s.mddLimit == mddLimit
  {
    if values != [] {
      SameAsPeriodic(values);
      PeriodicReport.MddBound(values);
      assert values[..|values|] == values;
    }
  }

  /** As in the periodic report, a negative peak hides a further fall:
      two losing days of 100 report no drawdown. */
  lemma NegativePeakHidesLoss()
    ensures PnlStatus([-100, -100], -0.1).value.mdd == 0.0
    ensures PnlStatus([-100, -100], -0.1).value.cumPnl == -200
  {
    SameAsPeriodic([-100, -100]);
    PeriodicReport.NegativePeakHidesLoss();
  }

  /** The first loop of `get_pnl_status`: the running totals. */
  method AccumulateDays(values: seq<int>) returns (cum: seq<int>)
    ensures cum == RunningSums(values)
  {
    cum := [];
    var running := 0;
    var i := 0;
    while i < |values|
      invariant i <= |values| && cum == RunningSums(values[..i]) && running == Numeric.SumInt(values[..i])
    {
      assert values[..i + 1][..i] == values[..i];
      running := running + values[i];
      cum := cum + [running];
      i := i + 1;
    }
    assert values[..i] == values;
  }

  /** The second loop of `get_pnl_status`: the peak starts at the first
      running total and the worst drawdown fraction at zero. */
  method WorstDrawdown(cum: seq<int>) returns (worst: real)
    requires cum != []
    ensures worst == PeakWorst(cum, cum[0]).1
  {
    var peak := cum[0];
    worst := 0.0;
    var j := 0;
    while j < |cum|
      invariant j <= |cum| && (peak, worst) == PeakWorst(cum[..j], cum[0])
    {
      assert cum[..j + 1][..j] == cum[..j];
      var x := cum[j];
      if x > peak {
        peak := x;
      }
      var dd := PeriodicReport.Drawdown(x, peak);
      worst := Numeric.MinReal(worst, dd);
      j := j + 1;
    }
    assert cum[..j] == cum;
  }

  /** `get_pnl_status`: the daily table built from the logs, the running
      totals, then the peak and the worst drawdown over them. */
  method GetPnlStatus(logs: seq<CumulativePnl.TradeLog>, mddLimit: real) returns (status: Option<Status>)
    ensures status == PnlStatus(CumulativePnl.Values(CumulativePnl.Daily(logs)), mddLimit)
  {
    var daily := CumulativePnl.BuildDaily(logs);
    if |daily| == 0 {
      return None;
    }
    var cum := AccumulateDays(CumulativePnl.Values(daily));
    var worst := WorstDrawdown(cum);
    status := Some(Status(|cum|, cum[|cum| - 1], worst, mddLimit));
  }

  /** The drawdown stop and its halt flag. */
  class RiskManager {
    var halted: bool

    constructor (halted: bool)
      ensures this.halted == halted
    {
      this.halted := halted;
    }

    /** `is_trading_halted`. */
    function IsTradingHalted(): bool
      reads this
    {
      halted
    }

    /** `halt_trading`: raise the flag; raising it again changes nothing. */
    method HaltTrading()
      modifies this
      ensures halted
    {
      if !halted {
        halted := true;
      }
    }

    /** `clear_halt`: lower the flag; lowering it again changes nothing. */
    method ClearHalt()
      modifies this
      ensures !halted
    {
      if halted {
        halted := false;
      }
    }

    /** `check_mdd_and_halt`: halt and answer true exactly when there is a
        status and its drawdown is at or below the limit; otherwise the
        flag is left as it was. */
    method CheckMddAndHalt(logs: seq<CumulativePnl.TradeLog>, mddLimit: real) returns (tripped: bool)
      modifies this
      ensures var s := PnlStatus(CumulativePnl.Values(CumulativePnl.Daily(logs)), mddLimit);
        tripped <==> s.Some? && s.value.mdd <= mddLimit
      ensures halted == (old(halted) || tripped)
    {
      var status := GetPnlStatus(logs, mddLimit);
      if status.None? {
        return false;
      }
      if status.value.mdd <= mddLimit {
        HaltTrading();
        return true;
      }
      return false;
    }
  }

  /** Without any trade log there is no status, so the stop never trips;
      with logs, the status's profit is that of all the logs. */
  lemma StatusFromLogs(logs: seq<CumulativePnl.TradeLog>, mddLimit: real)
    ensures var s := PnlStatus(CumulativePnl.Values(CumulativePnl.Daily(logs)), mddLimit);
      (s.None? <==> logs == [])
      && (s.Some? ==> s.value.cumPnl == CumulativePnl.GrandTotal(logs) && s.value.mdd <= 0.0)
  {
    var values := CumulativePnl.Values(CumulativePnl.Daily(logs));
    CumulativePnl.StatusRule(logs);
    CumulativePnl.DailySum(logs);
    PnlStatusRule(values, mddLimit);
  }
}
