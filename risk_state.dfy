// The live trader's account-level profit-and-loss state: the day's profit,
// the cumulative profit, its running peak and the maximum drawdown below
// that peak. Today's date, which the source reads from the clock, is a
// parameter.
module RiskState {
  import Numeric

  datatype Risk = Risk(date: string, dailyPnl: real, cumPnl: real, peakPnl: real, mdd: real)

  /** The state at start-up: everything zero. */
  function Initial(today: string): Risk
  {
    Risk(today, 0.0, 0.0, 0.0, 0.0)
  }

  /** The peak is never below the cumulative profit and the drawdown is
      never positive. */
  predicate Valid(r: Risk)
  {
    r.peakPnl >= r.cumPnl && r.mdd <= 0.0
  }

  /** `add_trade_pnl`: the trade's profit goes to the day and to the total,
      the peak follows a new high, and the drawdown keeps the worst fall
      below the peak. */
  function AddTrade(r: Risk, pnl: real): Risk
  {
    var cum := r.cumPnl + pnl;
    var peak := if cum > r.peakPnl then cum else r.peakPnl;
    r.(dailyPnl := r.dailyPnl + pnl, cumPnl := cum, peakPnl := peak, mdd := Numeric.MinReal(r.mdd, cum - peak))
  }

  /** `reset_daily_risk`: a new day with no profit yet, the peak at the
      current total and no drawdown; the total is kept. */
  function ResetDaily(r: Risk, today: string): Risk
  {
    Risk(today, 0.0, r.cumPnl, r.cumPnl, 0.0)
  }

  /** A trade adds its profit to the day and the total, raises the peak to
      at least the new total, keeps the state valid, and never lowers the
      drawdown's magnitude. */
  lemma AddTradeRule(r: Risk, pnl: real)
    ensures var a := AddTrade(r, pnl);
      a.date == r.date && a.dailyPnl == r.dailyPnl + pnl && a.cumPnl == r.cumPnl + pnl
      && a.peakPnl == Numeric.MaxReal(r.peakPnl, a.cumPnl)
      && a.mdd <= r.mdd && a.mdd <= a.cumPnl - a.peakPnl
      && (Valid(r) ==> Valid(a))
  {
  }

  /** A reset keeps the total and leaves a valid state with the peak at the
      total. */
  lemma ResetDailyRule(r: Risk, today: string)
    ensures var a := ResetDaily(r, today);
      Valid(a) && a.cumPnl == r.cumPnl && a.peakPnl == a.cumPnl && a.dailyPnl == 0.0 && a.mdd == 0.0
  {
  }

  /** The state after a day's trades, in order. */
  function Run(r: Risk, pnls: seq<real>): Risk
  {
    if pnls == [] then r else AddTrade(Run(r, pnls[..|pnls| - 1]), pnls[|pnls| - 1])
  }

  /** After a run of trades the totals have grown by the trades' sum, and
      the peak is at least the starting peak and every total reached. */
  lemma {:induction false} RunPeak(r: Risk, pnls: seq<real>)
    requires Valid(r)
    ensures Valid(Run(r, pnls))
    ensures Run(r, pnls).cumPnl == r.cumPnl + Numeric.SumReal(pnls)
    ensures Run(r, pnls).dailyPnl == r.dailyPnl + Numeric.SumReal(pnls)
    ensures Run(r, pnls).peakPnl >= r.peakPnl && Run(r, pnls).mdd <= r.mdd
    ensures forall j :: 0 <= j <= |pnls| ==> Run(r, pnls).peakPnl >= r.cumPnl + Numeric.SumReal(pnls[..j])
  {
    if pnls != [] {
      var init := pnls[..|pnls| - 1];
      RunPeak(r, init);
      AddTradeRule(Run(r, init), pnls[|pnls| - 1]);
      assert pnls[..|pnls|] == pnls;
      forall j | 0 <= j < |pnls| ensures pnls[..j] == init[..j] {
      }
    }
  }

  /** The drawdown is at most every fall of the total during the run: for
      any earlier point j and later point i, the drawdown is no greater
      than the total at i minus the total at j. */
  lemma {:induction false} RunDrops(r: Risk, pnls: seq<real>)
    requires Valid(r)
    ensures forall j, i :: 0 <= j <= i <= |pnls| ==>
      Run(r, pnls).mdd <= Numeric.SumReal(pnls[..i]) - Numeric.SumReal(pnls[..j])
  {
    if pnls != [] {
      var init := pnls[..|pnls| - 1];
      RunDrops(r, init);
      RunPeak(r, init);
      RunPeak(r, pnls);
      AddTradeRule(Run(r, init), pnls[|pnls| - 1]);
      assert pnls[..|pnls|] == pnls;
      forall j | 0 <= j < |pnls| ensures pnls[..j] == init[..j] {
      }
    }
  }

  /** The state object, its fields updated by trades and daily resets. */
  class LiveRisk {
    var date: string
    var dailyPnl: real
    var cumPnl: real
    var peakPnl: real
    var mdd: real

    function Snapshot(): Risk
      reads this
    {
      Risk(date, dailyPnl, cumPnl, peakPnl, mdd)
    }

    constructor (today: string)
      ensures Snapshot() == Initial(today)
    {
      date, dailyPnl, cumPnl, peakPnl, mdd := today, 0.0, 0.0, 0.0, 0.0;
    }

    method AddTradePnl(pnl: real)
      modifies this
      ensures Snapshot() == AddTrade(old(Snapshot()), pnl)
    {
      dailyPnl := dailyPnl + pnl;
      cumPnl := cumPnl + pnl;
      if cumPnl > peakPnl {
        peakPnl := cumPnl;
      }
      var drawdown := cumPnl - peakPnl;
      mdd := Numeric.MinReal(mdd, drawdown);
    }

    /** `get_risk_state`: a copy of the state. */
    function GetRiskState(): Risk
      reads this
    {
      Snapshot()
    }

    method ResetDailyRisk(today: string)
      modifies this
      ensures Snapshot() == ResetDaily(old(Snapshot()), today)
    {
      date := today;
      dailyPnl := 0.0;
      peakPnl := cumPnl;
      mdd := 0.0;
    }
  }
}
