// The live trader's cumulative profit summary: each day's trade log is
// summed into a profit per date, the dates are sorted, and a running total
// over them gives the cumulative profit and its maximum drawdown. The trade
// logs, which the source finds on disk, are a parameter: one entry per log
// file, its date and the "pnl" cell of each row.
module CumulativePnl {
  import Text
  import Numeric

  /** A row's "pnl" cell: absent, a number, or text that is not one. */
  datatype Cell = Missing | Number(value: real) | Malformed

  datatype TradeLog = TradeLog(date: string, pnls: seq<Cell>)

  /** `_safe_int`: the number truncated toward zero, zero for an absent
      cell (whose stand-in is 0), and the default when the text does not
      parse. */
  function SafeInt(c: Cell, default: int): (n: int)
    ensures c.Missing? ==> n == 0
    ensures c.Malformed? ==> n == default
    ensures c.Number? && c.value >= 0.0 ==> n as real <= c.value < n as real + 1.0
    ensures c.Number? && c.value < 0.0 ==> n as real - 1.0 < c.value <= n as real
  {
    match c
    case Missing => 0
    case Number(x) => Numeric.Trunc(x)
    case Malformed => default
  }

  /** The profit of one log: the sum of its rows' profits. */
  function DaySum(cells: seq<Cell>): int
  {
    if cells == [] then 0 else DaySum(cells[..|cells| - 1]) + SafeInt(cells[|cells| - 1], 0)
  }

  /** The dates of the logs, in order, repeats kept. */
  function Dates(logs: seq<TradeLog>): (r: seq<string>)
    ensures |r| == |logs| && forall i :: 0 <= i < |logs| ==> r[i] == logs[i].date
  {
    if logs == [] then [] else Dates(logs[..|logs| - 1]) + [logs[|logs| - 1].date]
  }

  /** The profit of a date: the profits of all its logs together. */
  function Total(logs: seq<TradeLog>, d: string): int
  {
    if logs == [] then 0
    else Total(logs[..|logs| - 1], d) + (if logs[|logs| - 1].date == d then DaySum(logs[|logs| - 1].pnls) else 0)
  }

  /** The profit of every log together. */
  function GrandTotal(logs: seq<TradeLog>): int
  {
    if logs == [] then 0 else GrandTotal(logs[..|logs| - 1]) + DaySum(logs[|logs| - 1].pnls)
  }

  /** The daily table: one (date, profit) pair per date, by date. */
  function Daily(logs: seq<TradeLog>): seq<(string, int)>
  {
    var ks := Text.SortedUnique(Dates(logs));
    seq(|ks|, k requires 0 <= k < |ks| => (ks[k], Total(logs, ks[k])))
  }

  function Keys(daily: seq<(string, int)>): seq<string>
  {
    seq(|daily|, k requires 0 <= k < |daily| => daily[k].0)
  }

  function Values(daily: seq<(string, int)>): seq<int>
  {
    seq(|daily|, k requires 0 <= k < |daily| => daily[k].1)
  }

  /** A date without a log has no profit. */
  lemma {:induction false} TotalAbsent(logs: seq<TradeLog>, d: string)
    requires d !in Dates(logs)
    ensures Total(logs, d) == 0
  {
    if logs != [] {
      var init := logs[..|logs| - 1];
      assert Dates(logs) == Dates(init) + [logs[|logs| - 1].date];
      TotalAbsent(init, d);
    }
  }

  /** One more log adds its date to the dates and its profit to its
      date's total. */
  lemma PrefixStep(logs: seq<TradeLog>, i: nat)
    requires i < |logs|
    ensures forall d :: d in Dates(logs[..i + 1]) <==> d in Dates(logs[..i]) || d == logs[i].date
    ensures forall d :: Total(logs[..i + 1], d) == Total(logs[..i], d) + (if logs[i].date == d then DaySum(logs[i].pnls) else 0)
  {
    assert logs[..i + 1][..i] == logs[..i];
  }

  /** The inner loop: one log's rows summed. */
  method SumLog(cells: seq<Cell>) returns (daySum: int)
    ensures daySum == DaySum(cells)
  {
    daySum := 0;
    var j := 0;
    while j < |cells|
      invariant j <= |cells| && daySum == DaySum(cells[..j])
    {
      assert cells[..j + 1][..j] == cells[..j];
      daySum := daySum + SafeInt(cells[j], 0);
      j := j + 1;
    }
    assert cells[..j] == cells;
  }

  /** `build_daily_pnl_from_trade_logs`: the logs summed into a
      dictionary by date, then sorted by date. */
  method BuildDaily(logs: seq<TradeLog>) returns (daily: seq<(string, int)>)
    ensures daily == Daily(logs)
  {
    var m: map<string, int> := map[];
    var order: seq<string> := [];
    var i := 0;
    while i < |logs|
      invariant i <= |logs|
      invariant forall d :: d in m <==> d in order
      invariant forall d :: d in order <==> d in Dates(logs[..i])
      invariant forall d :: d in m ==> m[d] == Total(logs[..i], d)
    {
      PrefixStep(logs, i);
      var daySum := SumLog(logs[i].pnls);
      var date := logs[i].date;
      if date in m {
        m := m[date := m[date] + daySum];
      } else {
        TotalAbsent(logs[..i], date);
        m := m[date := daySum];
        order := order + [date];
      }
      i := i + 1;
    }
    assert logs[..i] == logs;
    var keys := Text.SortedUnique(order);
    Text.StrictlySortedUnique(keys, Text.SortedUnique(Dates(logs)));
    daily := seq(|keys|, k requires 0 <= k < |keys| => (keys[k], m[keys[k]]));
  }

  /** The table's dates are strictly increasing, are exactly the dates of
      the logs, and each carries the total of that date's logs. */
  lemma DailyRule(logs: seq<TradeLog>)
    ensures Text.StrictlySorted(Keys(Daily(logs)))
    ensures forall d :: d in Keys(Daily(logs)) <==> exists i :: 0 <= i < |logs| && logs[i].date == d
    ensures forall k :: 0 <= k < |Daily(logs)| ==> Daily(logs)[k].1 == Total(logs, Daily(logs)[k].0)
  {
    var ks := Text.SortedUnique(Dates(logs));
    assert Keys(Daily(logs)) == ks;
    forall d ensures d in ks <==> exists i :: 0 <= i < |logs| && logs[i].date == d {
      if d in Dates(logs) {
        var i :| 0 <= i < |Dates(logs)| && Dates(logs)[i] == d;
        assert logs[i].date == d;
      }
    }
  }

  /** The sum of the totals of the dates in `ks`. */
  function TotalsOf(ks: seq<string>, logs: seq<TradeLog>): int
  {
    if ks == [] then 0 else TotalsOf(ks[..|ks| - 1], logs) + Total(logs, ks[|ks| - 1])
  }

  /** How often `x` occurs in `ks`. */
  function Occurrences(ks: seq<string>, x: string): nat
  {
    if ks == [] then 0 else Occurrences(ks[..|ks| - 1], x) + (if ks[|ks| - 1] == x then 1 else 0)
  }

  lemma {:induction false} OccurrencesOfNoDups(ks: seq<string>, x: string)
    requires Text.NoDups(ks)
    ensures Occurrences(ks, x) == if x in ks then 1 else 0
  {
    if ks != [] {
      var init := ks[..|ks| - 1];
      assert Text.NoDups(init);
      OccurrencesOfNoDups(init, x);
      assert ks == init + [ks[|ks| - 1]];
      assert ks[|ks| - 1] !in init;
    }
  }

  lemma {:induction false} TotalsOfNothing(ks: seq<string>)
    ensures TotalsOf(ks, []) == 0
  {
    if ks != [] {
      TotalsOfNothing(ks[..|ks| - 1]);
    }
  }

  /** One more log adds its profit once for each time its date is listed. */
  lemma {:induction false} TotalsOfSnoc(ks: seq<string>, logs: seq<TradeLog>)
    requires logs != []
    ensures var last := logs[|logs| - 1];
      TotalsOf(ks, logs) == TotalsOf(ks, logs[..|logs| - 1]) + Occurrences(ks, last.date) * DaySum(last.pnls)
  {
    if ks != [] {
      var n, last := |ks| - 1, logs[|logs| - 1];
      var o, d := Occurrences(ks[..n], last.date), DaySum(last.pnls);
      TotalsOfSnoc(ks[..n], logs);
      assert Total(logs, ks[n]) == Total(logs[..|logs| - 1], ks[n]) + (if ks[n] == last.date then d else 0);
      if ks[n] == last.date {
        assert Occurrences(ks, last.date) == o + 1;
        assert (o + 1) * d == o * d + d;
      }
    }
  }

  /** Summing the totals over every date once, each log is counted exactly
      once: the table holds all the profit of the logs. */
  lemma {:induction false} TotalsConserve(ks: seq<string>, logs: seq<TradeLog>)
    requires Text.NoDups(ks)
    requires forall i :: 0 <= i < |logs| ==> logs[i].date in ks
    ensures TotalsOf(ks, logs) == GrandTotal(logs)
  {
    if logs == [] {
      TotalsOfNothing(ks);
    } else {
      var init := logs[..|logs| - 1];
      TotalsConserve(ks, init);
      TotalsOfSnoc(ks, logs);
      OccurrencesOfNoDups(ks, logs[|logs| - 1].date);
    }
  }

  lemma {:induction false} ValuesAreTotals(ks: seq<string>, logs: seq<TradeLog>, daily: seq<(string, int)>)
    requires |daily| == |ks| && forall k :: 0 <= k < |ks| ==> daily[k] == (ks[k], Total(logs, ks[k]))
    ensures Numeric.SumInt(Values(daily)) == TotalsOf(ks, logs)
  {
    if ks != [] {
      var n := |ks| - 1;
      ValuesAreTotals(ks[..n], logs, daily[..n]);
      assert Values(daily)[..n] == Values(daily[..n]);
    }
  }

  /** The daily profits add up to the profit of all the logs. */
  lemma DailySum(logs: seq<TradeLog>)
    ensures Numeric.SumInt(Values(Daily(logs))) == GrandTotal(logs)
  {
    var ks := Text.SortedUnique(Dates(logs));
    Text.StrictlySortedHasNoDups(ks);
    assert forall i :: 0 <= i < |logs| ==> logs[i].date in ks by {
      forall i | 0 <= i < |logs| ensures logs[i].date in ks {
        assert Dates(logs)[i] == logs[i].date;
      }
    }
    ValuesAreTotals(ks, logs, Daily(logs));
    TotalsConserve(ks, logs);
  }

  /** The running total, its peak (starting at zero) and the deepest drop
      below the peak. */
  datatype Scan = Scan(running: int, peak: int, mdd: int)

  function Step(s: Scan, p: int): Scan
  {
    var running := s.running + p;
    var peak := if running > s.peak then running else s.peak;
    var drawdown := running - peak;
    Scan(running, peak, if drawdown < s.mdd then drawdown else s.mdd)
  }

  function ScanOf(pnls: seq<int>): Scan
  {
    if pnls == [] then Scan(0, 0, 0) else Step(ScanOf(pnls[..|pnls| - 1]), pnls[|pnls| - 1])
  }

  /** The running total is the sum, and the peak is the largest running
      total seen, the empty start included. */
  lemma {:induction false} ScanPeak(pnls: seq<int>)
    ensures ScanOf(pnls).running == Numeric.SumInt(pnls)
    ensures forall j :: 0 <= j <= |pnls| ==> ScanOf(pnls).peak >= Numeric.SumInt(pnls[..j])
    ensures exists j :: 0 <= j <= |pnls| && ScanOf(pnls).peak == Numeric.SumInt(pnls[..j])
  {
    if pnls == [] {
      assert pnls[..0] == [];
    } else {
      var n := |pnls| - 1;
      ScanPeak(pnls[..n]);
      assert pnls[..|pnls|] == pnls;
      forall j | 0 <= j <= n ensures pnls[..j] == pnls[..n][..j] {
      }
      var j :| 0 <= j <= n && ScanOf(pnls[..n]).peak == Numeric.SumInt(pnls[..n][..j]);
      assert pnls[..j] == pnls[..n][..j];
    }
  }

  /** The drawdown is at most every fall of the running total from an
      earlier running total, the empty start (zero) included; so it is
      never positive. */
  lemma {:induction false} ScanDrops(pnls: seq<int>)
    ensures ScanOf(pnls).mdd <= 0
    ensures forall j, i :: 0 <= j <= i <= |pnls| ==>
      ScanOf(pnls).mdd <= Numeric.SumInt(pnls[..i]) - Numeric.SumInt(pnls[..j])
  {
    if pnls != [] {
      var n := |pnls| - 1;
      ScanDrops(pnls[..n]);
      ScanPeak(pnls);
      assert pnls[..|pnls|] == pnls;
      forall j | 0 <= j <= n ensures pnls[..j] == pnls[..n][..j] {
      }
    }
  }

  /** The drawdown is one of those falls, so it is exactly the deepest. */
  lemma {:induction false} ScanDropAttained(pnls: seq<int>)
    ensures exists j, i :: 0 <= j <= i <= |pnls| && ScanOf(pnls).mdd == Numeric.SumInt(pnls[..i]) - Numeric.SumInt(pnls[..j])
  {
    if pnls == [] {
      assert pnls[..0] == [];
      assert ScanOf(pnls).mdd == Numeric.SumInt(pnls[..0]) - Numeric.SumInt(pnls[..0]);
    } else {
      var n := |pnls| - 1;
      ScanDropAttained(pnls[..n]);
      ScanPeak(pnls);
      var j0, i0 :| 0 <= j0 <= i0 <= n && ScanOf(pnls[..n]).mdd == Numeric.SumInt(pnls[..n][..i0]) - Numeric.SumInt(pnls[..n][..j0]);
      var p :| 0 <= p <= |pnls| && ScanOf(pnls).peak == Numeric.SumInt(pnls[..p]);
      if ScanOf(pnls).mdd == ScanOf(pnls[..n]).mdd {
        assert pnls[..n][..i0] == pnls[..i0] && pnls[..n][..j0] == pnls[..j0];
        assert ScanOf(pnls).mdd == Numeric.SumInt(pnls[..i0]) - Numeric.SumInt(pnls[..j0]);
      } else {
        assert pnls[..|pnls|] == pnls;
        assert ScanOf(pnls).mdd == Numeric.SumInt(pnls[..|pnls|]) - Numeric.SumInt(pnls[..p]);
      }
    }
  }

  /** What `get_cumulative_status` reports. */
  datatype Status = Status(totalDays: nat, cumPnl: int, mdd: int)

  /** `get_cumulative_status`: the number of dates, the final running
      total and the drawdown; zeros when there is no log. */
  method GetCumulativeStatus(logs: seq<TradeLog>) returns (s: Status)
    ensures var daily := Daily(logs);
      s == Status(|daily|, ScanOf(Values(daily)).running, ScanOf(Values(daily)).mdd)
  {
    var daily := BuildDaily(logs);
    if |daily| == 0 {
      return Status(0, 0, 0);
    }
    var pnls := Values(daily);
    var running, peak, mdd := 0, 0, 0;
    var i := 0;
    while i < |pnls|
      invariant i <= |pnls| && Scan(running, peak, mdd) == ScanOf(pnls[..i])
    {
      assert pnls[..i + 1][..i] == pnls[..i];
      running := running + pnls[i];
      if running > peak {
        peak := running;
      }
      var drawdown := running - peak;
      if drawdown < mdd {
        mdd := drawdown;
      }
      i := i + 1;
    }
    assert pnls[..i] == pnls;
    s := Status(|daily|, running, mdd);
  }

  /** The summary counts the distinct dates, its profit is that of all the
      logs, and with an empty history everything is zero. */
  lemma StatusRule(logs: seq<TradeLog>)
    ensures var daily := Daily(logs);
      ScanOf(Values(daily)).running == GrandTotal(logs)
      && (|daily| == 0 <==> logs == [])
      && ScanOf(Values(daily)).mdd <= 0
  {
    ScanPeak(Values(Daily(logs)));
    ScanDrops(Values(Daily(logs)));
    DailySum(logs);
    DailyRule(logs);
    if logs != [] {
      assert logs[0].date in Keys(Daily(logs));
    }
  }
}
