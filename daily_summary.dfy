// The live trader's end-of-day summary: the day's trade log is read row by
// row into a trade count, a profit total and a count of winning trades,
// from which a win rate follows. The log is a parameter (absent when the
// day has no log file); so is today's date, which the source reads from the
// clock when no date is given. Writing the summary file is left out; its
// path is part of the result.
module DailySummary {
  import opened Wrappers
  import Numeric
  import CumulativePnl

  datatype Summary = Summary(date: string, totalTrades: nat, totalPnl: int, winRate: real, summaryPath: string)

  /** No log for the day, a row whose "pnl" is missing or not a number
      (the source raises there), or the summary. */
  datatype Outcome = NoLog | Raised | Summarized(summary: Summary)

  /** The rows' profits, or none when some row's cell does not parse. */
  function Parsed(cells: seq<CumulativePnl.Cell>): (r: Option<seq<real>>)
    ensures r.Some? <==> forall i :: 0 <= i < |cells| ==> cells[i].Number?
    ensures r.Some? ==> |r.value| == |cells| && forall i :: 0 <= i < |cells| ==> r.value[i] == cells[i].value
  {
    if cells == [] then Some([])
    else
      var init, last := Parsed(cells[..|cells| - 1]), cells[|cells| - 1];
      if init.Some? && last.Number? then Some(init.value + [last.value])
      else
        assert !last.Number? ==> !cells[|cells| - 1].Number?;
        None
  }

  /** The number of winning (positive) trades. */
  function Wins(pnls: seq<real>): nat
  {
    if pnls == [] then 0 else Wins(pnls[..|pnls| - 1]) + (if pnls[|pnls| - 1] > 0.0 then 1 else 0)
  }

  /** The share of winning trades in percent, zero without trades. */
  function WinRate(wins: nat, trades: nat): real
  {
    if trades > 0 then wins as real / trades as real * 100.0 else 0.0
  }

  function SummaryPath(date: string): string
  {
    "daily_summary/daily_summary_" + date + ".csv"
  }

  /** What `generate_daily_summary` returns. */
  function Expected(dateStr: Option<string>, today: string, log: Option<seq<CumulativePnl.Cell>>): Outcome
  {
    if log.None? then NoLog
    else
      var date := dateStr.GetOr(today);
      var pnls := Parsed(log.value);
      if pnls.None? then Raised
      else
        var p := pnls.value;
        Summarized(Summary(date, |p|, Numeric.Trunc(Numeric.SumReal(p)), WinRate(Wins(p), |p|), SummaryPath(date)))
  }

  /** `generate_daily_summary`: one pass over the rows, then the win
      rate. */
  method GenerateDailySummary(dateStr: Option<string>, today: string, log: Option<seq<CumulativePnl.Cell>>)
    returns (r: Outcome)
    ensures r == Expected(dateStr, today, log)
  {
    var date := if dateStr.Some? then dateStr.value else today;
    if log.None? {
      return NoLog;
    }
    var rows := log.value;
    var totalPnl := 0.0;
    var totalTrades := 0;
    var winCount := 0;
    ghost var seen: seq<real> := [];
    var i := 0;
    while i < |rows|
      invariant i <= |rows| && Parsed(rows[..i]) == Some(seen)
      invariant totalPnl == Numeric.SumReal(seen) && totalTrades == |seen| && winCount == Wins(seen)
    {
      if !rows[i].Number? {
        assert !Parsed(rows).Some? by {
          assert !rows[i].Number?;
        }
        return Raised;
      }
      var pnl := rows[i].value;
      totalPnl := totalPnl + pnl;
      totalTrades := totalTrades + 1;
      if pnl > 0.0 {
        winCount := winCount + 1;
      }
      RowStep(rows, i, seen);
      seen := seen + [pnl];
      i := i + 1;
    }
    assert rows[..i] == rows;
    var winRate := if totalTrades > 0 then winCount as real / totalTrades as real * 100.0 else 0.0;
    r := Summarized(Summary(date, totalTrades, Numeric.Trunc(totalPnl), winRate, SummaryPath(date)));
  }

  /** One more parsed row extends the profits, their sum and the wins. */
  lemma RowStep(rows: seq<CumulativePnl.Cell>, i: nat, seen: seq<real>)
    requires i < |rows| && rows[i].Number? && Parsed(rows[..i]) == Some(seen)
    ensures Parsed(rows[..i + 1]) == Some(seen + [rows[i].value])
    ensures Numeric.SumReal(seen + [rows[i].value]) == Numeric.SumReal(seen) + rows[i].value
    ensures Wins(seen + [rows[i].value]) == Wins(seen) + (if rows[i].value > 0.0 then 1 else 0)
  {
    assert rows[..i + 1][..i] == rows[..i];
    assert (seen + [rows[i].value])[..|seen|] == seen;
  }

  /** At most every trade wins; all win exactly when every profit is
      positive, and none exactly when none is. */
  lemma {:induction false} WinsRule(pnls: seq<real>)
    ensures Wins(pnls) <= |pnls|
    ensures Wins(pnls) == |pnls| <==> forall i :: 0 <= i < |pnls| ==> pnls[i] > 0.0
    ensures Wins(pnls) == 0 <==> forall i :: 0 <= i < |pnls| ==> pnls[i] <= 0.0
  {
    if pnls != [] {
      var init := pnls[..|pnls| - 1];
      WinsRule(init);
      assert forall i :: 0 <= i < |init| ==> init[i] == pnls[i];
    }
  }

  /** The win rate is a percentage: between 0 and 100, 100 exactly when
      every trade won, 0 exactly when none did or there was no trade. */
  lemma WinRateRule(pnls: seq<real>)
    ensures 0.0 <= WinRate(Wins(pnls), |pnls|) <= 100.0
    ensures |pnls| > 0 ==> (WinRate(Wins(pnls), |pnls|) == 100.0 <==> forall i :: 0 <= i < |pnls| ==> pnls[i] > 0.0)
    ensures WinRate(Wins(pnls), |pnls|) == 0.0 <==> forall i :: 0 <= i < |pnls| ==> pnls[i] <= 0.0
  {
    WinsRule(pnls);
    if |pnls| > 0 {
      var w, n := Wins(pnls) as real, |pnls| as real;
      Numeric.QuotientBelow(w, n, 1.0);
      assert w / n * 100.0 == 100.0 <==> w / n == 1.0;
      assert w / n == 1.0 <==> w == n;
    }
  }

  /** Without a log there is no summary, and a log with a row that does
      not parse raises. */
  lemma OutcomeRule(dateStr: Option<string>, today: string, cells: seq<CumulativePnl.Cell>)
    ensures Expected(dateStr, today, None) == NoLog
    ensures Expected(dateStr, today, Some(cells)).Raised? <==> exists i :: 0 <= i < |cells| && !cells[i].Number?
    ensures !Expected(dateStr, today, Some(cells)).NoLog?
  {
  }

  /** With a log whose every row parses, the summary counts the rows, its
      profit is the rows' total cut toward zero to a whole number, its win
      rate is a percentage, its date is the one asked for (today
      otherwise), and its file is named after that date. */
  lemma SummaryRule(dateStr: Option<string>, today: string, cells: seq<CumulativePnl.Cell>)
    requires forall i :: 0 <= i < |cells| ==> cells[i].Number?
    ensures Expected(dateStr, today, Some(cells)).Summarized?
    ensures var s := Expected(dateStr, today, Some(cells)).summary;
      var total := Numeric.SumReal(Parsed(cells).value);
      s.totalTrades == |cells| && s.date == dateStr.GetOr(today) && s.summaryPath == SummaryPath(s.date)
      && Numeric.Abs(s.totalPnl as real) <= Numeric.Abs(total) && Numeric.Abs(total - s.totalPnl as real) < 1.0
      && 0.0 <= s.winRate <= 100.0
  {
    var p := Parsed(cells).value;
    WinRateRule(p);
  }
}
