// The daily drawdown guard of the research trader: the day's accumulated
// profit rate, and a switch that turns trading off once that rate falls to
// the daily limit and back on only by an explicit resume or a new day.
// Today's date and the current time, which the source reads from the
// clock, are parameters; so is the daily limit, which the source imports
// from its configuration (config.py is not part of this model).
module RiskGuard {
  import opened Wrappers

  /** A calendar day, as a day number. */
  type Day = int

  /** A point in time. */
  type Instant = int

  datatype Guard = Guard(tradingEnabled: bool, dayPnlPct: real, mddTriggered: bool,
                         lastUpdate: Option<Instant>, riskDate: Day)

  /** The guard at start-up: trading on, nothing accumulated. */
  function Initial(today: Day): Guard
  {
    Guard(true, 0.0, false, None, today)
  }

  /** Trading is on exactly when the drawdown stop has not fired. */
  predicate Valid(g: Guard)
  {
    g.tradingEnabled == !g.mddTriggered
  }

  /** `_reset_if_new_day`: on a new day the rate, the stop and the update
      time are cleared and trading is back on. */
  function RollOver(g: Guard, today: Day): Guard
  {
    if g.riskDate != today then Guard(true, 0.0, false, None, today) else g
  }

  /** `add_trade_pnl`: the trade's rate is added to the day's, and trading
      stops once the day's rate is at or below the limit. */
  function AddTrade(g: Guard, pnlPct: real, today: Day, now: Instant, limit: real): Guard
  {
    var base := RollOver(g, today);
    var day := base.dayPnlPct + pnlPct;
    var after := base.(dayPnlPct := day, lastUpdate := Some(now));
    if day <= limit then after.(mddTriggered := true, tradingEnabled := false) else after
  }

  /** `resume_trading`: trading back on, the stop cleared, and the day's
      rate cleared only when asked. */
  function Resume(g: Guard, resetPnl: bool, today: Day, now: Instant): Guard
  {
    var base := RollOver(g, today);
    base.(tradingEnabled := true, mddTriggered := false,
          dayPnlPct := if resetPnl then 0.0 else base.dayPnlPct, lastUpdate := Some(now))
  }

  /** A new day clears the rate and turns trading on; the same day changes
      nothing. Either way the guard is for today and stays valid. */
  lemma RollOverRule(g: Guard, today: Day)
    ensures var r := RollOver(g, today);
      r.riskDate == today
      && (g.riskDate != today ==> r.tradingEnabled && r.dayPnlPct == 0.0 && !r.mddTriggered && r.lastUpdate.None?)
      && (g.riskDate == today ==> r == g)
      && (Valid(g) ==> Valid(r))
  {
  }

  /** A trade adds its rate to the day's (cleared first on a new day); the
      stop fires exactly when it had fired earlier the same day or the new
      total is at or below the limit; validity is kept. */
  lemma AddTradeRule(g: Guard, pnlPct: real, today: Day, now: Instant, limit: real)
    ensures var a := AddTrade(g, pnlPct, today, now, limit);
      var start := if g.riskDate == today then g.dayPnlPct else 0.0;
      a.riskDate == today && a.lastUpdate == Some(now)
      && a.dayPnlPct == start + pnlPct
      && (a.dayPnlPct <= limit ==> a.mddTriggered && !a.tradingEnabled)
      && (a.mddTriggered <==> a.dayPnlPct <= limit || (g.riskDate == today && g.mddTriggered))
      && (Valid(g) ==> Valid(a))
  {
  }

  /** A resume always leaves trading on and the stop cleared, and clears
      the rate only when asked. */
  lemma ResumeRule(g: Guard, resetPnl: bool, today: Day, now: Instant)
    ensures var r := Resume(g, resetPnl, today, now);
      Valid(r) && r.tradingEnabled && !r.mddTriggered && r.riskDate == today
      && r.dayPnlPct == (if resetPnl || g.riskDate != today then 0.0 else g.dayPnlPct)
  {
  }

  /** Once the stop fires, further trades the same day cannot turn trading
      back on, whatever their profit. */
  lemma {:induction false} StopHolds(g: Guard, pnls: seq<real>, today: Day, now: Instant, limit: real)
    requires g.riskDate == today && g.mddTriggered
    ensures var r := Trades(g, pnls, today, now, limit);
      r.mddTriggered && r.riskDate == today && (Valid(g) ==> !r.tradingEnabled)
  {
    if pnls != [] {
      StopHolds(g, pnls[..|pnls| - 1], today, now, limit);
    }
  }

  /** A series of trades on one day. */
  function Trades(g: Guard, pnls: seq<real>, today: Day, now: Instant, limit: real): Guard
  {
    if pnls == [] then g else AddTrade(Trades(g, pnls[..|pnls| - 1], today, now, limit), pnls[|pnls| - 1], today, now, limit)
  }

  /** What `get_risk_status` reports. */
  datatype Status = Status(tradingEnabled: bool, dayPnlPct: real, mddTriggered: bool,
                           riskDate: Day, lastUpdate: Option<Instant>)

  function StatusOf(g: Guard): Status
  {
    Status(g.tradingEnabled, g.dayPnlPct, g.mddTriggered, g.riskDate, g.lastUpdate)
  }

  /** The guard object; every operation first rolls over to today. */
  class RiskGuard {
    var tradingEnabled: bool
    var dayPnlPct: real
    var mddTriggered: bool
    var lastUpdate: Option<Instant>
    var riskDate: Day
    /** The daily limit on the accumulated rate. */
    const limit: real

    function Snapshot(): Guard
      reads this
    {
      Guard(tradingEnabled, dayPnlPct, mddTriggered, lastUpdate, riskDate)
    }

    constructor (today: Day, limit: real)
      ensures Snapshot() == Initial(today) && this.limit == limit
    {
      tradingEnabled, dayPnlPct, mddTriggered, lastUpdate, riskDate := true, 0.0, false, None, today;
      this.limit := limit;
    }

    method ResetIfNewDay(today: Day)
      modifies this
      ensures Snapshot() == RollOver(old(Snapshot()), today)
    {
      if riskDate != today {
        riskDate := today;
        dayPnlPct := 0.0;
        mddTriggered := false;
        tradingEnabled := true;
        lastUpdate := None;
      }
    }

    method AddTradePnl(pnlPct: real, today: Day, now: Instant)
      modifies this
      ensures Snapshot() == AddTrade(old(Snapshot()), pnlPct, today, now, limit)
    {
      ResetIfNewDay(today);
      dayPnlPct := dayPnlPct + pnlPct;
      lastUpdate := Some(now);
      if dayPnlPct <= limit {
        mddTriggered := true;
        tradingEnabled := false;
      }
    }

    method IsTradingEnabled(today: Day) returns (enabled: bool)
      modifies this
      ensures Snapshot() == RollOver(old(Snapshot()), today)
      ensures enabled == Snapshot().tradingEnabled
    {
      ResetIfNewDay(today);
      enabled := tradingEnabled;
    }

    method ResumeTrading(resetPnl: bool, today: Day, now: Instant)
      modifies this
      ensures Snapshot() == Resume(old(Snapshot()), resetPnl, today, now)
    {
      ResetIfNewDay(today);
      tradingEnabled := true;
      mddTriggered := false;
      if resetPnl {
        dayPnlPct := 0.0;
      }
      lastUpdate := Some(now);
    }

    method GetRiskStatus(today: Day) returns (status: Status)
      modifies this
      ensures Snapshot() == RollOver(old(Snapshot()), today)
      ensures status == StatusOf(Snapshot())
    {
      ResetIfNewDay(today);
      status := Status(tradingEnabled, dayPnlPct, mddTriggered, riskDate, lastUpdate);
    }
  }
}
