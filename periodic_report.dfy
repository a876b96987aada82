// The weekly and monthly profit reports of the test trader: the daily
// profits inside a date window, in date order, with their total, their
// truncated average and the deepest drawdown as a fraction of the running
// peak. The daily profits, which the source reads from the trade logs, and
// today's date, which it reads from the clock, are parameters; so is the
// drawdown limit the report carries, which the source imports from its
// configuration (config.py is not part of this model).
module PeriodicReport {
  import opened Wrappers
  import Numeric

  /** A calendar day, as a day number. */
  type Day = int

  /** Today: its day number and its day of the month (1 for the first). */
  datatype Today = Today(ordinal: Day, dayOfMonth: int)

  // ---------------------------------------------------------------------
  // `_calc_mdd`
  // ---------------------------------------------------------------------

  /** The running total, the peak so far (none before the first day) and
      the worst drawdown fraction. */
  datatype MddScan = MddScan(running: int, peak: Option<int>, worst: real)

  /** The drawdown of a running total below a peak, as a fraction of the
      peak; zero when the peak is zero. */
  function Drawdown(running: int, peak: int): real
  {
    if peak != 0 then (running - peak) as real / peak as real else 0.0
  }

  function MddStep(s: MddScan, p: int): MddScan
  {
    var running := s.running + p;
    var peak := if s.peak.None? || running > s.peak.value then running else s.peak.value;
    MddScan(running, Some(peak), Numeric.MinReal(s.worst, Drawdown(running, peak)))
  }

  function MddOf(pnls: seq<int>): (r: MddScan)
    ensures r.peak.Some? <==> pnls != []
  {
    if pnls == [] then MddScan(0, None, 0.0) else MddStep(MddOf(pnls[..|pnls| - 1]), pnls[|pnls| - 1])
  }

  /** `_calc_mdd`: a running total, a running peak that starts at the
      first total, and the least drawdown fraction seen. */
  method CalcMdd(pnls: seq<int>) returns (worst: real)
    ensures worst == MddOf(pnls).worst
  {
    var peak: Option<int> := None;
    worst := 0.0;
    var running := 0;
    var i := 0;
    while i < |pnls|
      invariant i <= |pnls| && MddScan(running, peak, worst) == MddOf(pnls[..i])
    {
      assert pnls[..i + 1][..i] == pnls[..i];
      running := running + pnls[i];
      if peak.None? || running > peak.value {
        peak := Some(running);
      }
      var dd := Drawdown(running, peak.value);
      worst := Numeric.MinReal(worst, dd);
      i := i + 1;
    }
    assert pnls[..i] == pnls;
  }

  /** The running total is the sum, and the peak is the largest running
      total after the first day. */
  lemma {:induction false} MddPeak(pnls: seq<int>)
    ensures MddOf(pnls).running == Numeric.SumInt(pnls)
    ensures pnls != [] ==> forall j :: 1 <= j <= |pnls| ==> MddOf(pnls).peak.value >= Numeric.SumInt(pnls[..j])
    ensures pnls != [] ==> exists j :: 1 <= j <= |pnls| && MddOf(pnls).peak.value == Numeric.SumInt(pnls[..j])
  {
    if pnls != [] {
      var n := |pnls| - 1;
      MddPeak(pnls[..n]);
      assert pnls[..|pnls|] == pnls;
      forall j | 0 <= j <= n ensures pnls[..j] == pnls[..n][..j] {
      }
      if n > 0 {
        var j :| 1 <= j <= n && MddOf(pnls[..n]).peak.value == Numeric.SumInt(pnls[..n][..j]);
        assert pnls[..j] == pnls[..n][..j];
      }
    }
  }

  /** The result is never positive (zero for no days), and it is at most
      the drawdown of every day against the peak up to that day. */
  lemma {:induction false} MddBound(pnls: seq<int>)
    ensures MddOf(pnls).worst <= 0.0
    ensures pnls == [] ==> MddOf(pnls).worst == 0.0
    ensures forall i :: 1 <= i <= |pnls| ==>
      MddOf(pnls).worst <= Drawdown(Numeric.SumInt(pnls[..i]), MddOf(pnls[..i]).peak.value)
  {
    if pnls != [] {
      var n := |pnls| - 1;
      MddBound(pnls[..n]);
      MddPeak(pnls);
      assert pnls[..|pnls|] == pnls;
      var worst := MddOf(pnls).worst;
      assert worst <= MddOf(pnls[..n]).worst;
      forall i | 1 <= i <= |pnls|
        ensures worst <= Drawdown(Numeric.SumInt(pnls[..i]), MddOf(pnls[..i]).peak.value)
      {
        if i <= n {
          assert pnls[..i] == pnls[..n][..i];
        }
      }
    }
  }

  /** Only a positive peak lowers the result: a peak at or below zero
      gives a drawdown of at least zero. */
  lemma DrawdownSign(running: int, peak: int)
    requires running <= peak
    ensures peak > 0 ==> Drawdown(running, peak) <= 0.0 && Drawdown(running, peak) >= -1.0 * ((peak - running) as real / peak as real)
    ensures peak <= 0 ==> Drawdown(running, peak) >= 0.0
  {
    if peak < 0 {
      assert (running - peak) as real / peak as real == (peak - running) as real / (-peak) as real;
    }
  }

  /** The result is zero or the drawdown of some day whose peak is
      positive. */
  lemma {:induction false} MddAttained(pnls: seq<int>)
    ensures MddOf(pnls).worst == 0.0 || exists i :: (1 <= i <= |pnls| && MddOf(pnls[..i]).peak.value > 0 &&
      MddOf(pnls).worst == Drawdown(Numeric.SumInt(pnls[..i]), MddOf(pnls[..i]).peak.value))
  {
    if pnls != [] {
      var n := |pnls| - 1;
      MddAttained(pnls[..n]);
      MddPeak(pnls);
      MddBound(pnls[..n]);
      assert pnls[..|pnls|] == pnls;
      var s := MddOf(pnls);
      var peak := s.peak.value;
      assert peak >= Numeric.SumInt(pnls[..|pnls|]);
      DrawdownSign(s.running, peak);
      if s.worst != MddOf(pnls[..n]).worst {
        assert s.worst == Drawdown(Numeric.SumInt(pnls[..|pnls|]), MddOf(pnls[..|pnls|]).peak.value);
      } else if s.worst != 0.0 {
        var i :| 1 <= i <= n && MddOf(pnls[..n][..i]).peak.value > 0 &&
          s.worst == Drawdown(Numeric.SumInt(pnls[..n][..i]), MddOf(pnls[..n][..i]).peak.value);
        assert pnls[..n][..i] == pnls[..i];
      }
    }
  }

  /** With a running total that starts below zero and keeps falling, the
      peak is negative and the fall does not show: two losing days of 100
      report no drawdown. */
  lemma NegativePeakHidesLoss()
    ensures MddOf([-100, -100]).worst == 0.0
    ensures MddOf([-100, -100]).running < MddOf([-100]).running
  {
    assert [-100, -100][..1] == [-100];
    assert [-100][..0] == [];
  }

  // ---------------------------------------------------------------------
  // The date windows and the reports
  // ---------------------------------------------------------------------

  /** `weekly_report`'s window: the last `days` days up to today. */
  predicate InWeek(today: Today, days: int, d: Day)
  {
    today.ordinal - (days - 1) <= d <= today.ordinal
  }

  /** `monthly_report`'s window: from the first of this month, moved back
      30 days per extra month, with no upper bound. */
  predicate InMonths(today: Today, months: int, d: Day)
  {
    d >= today.ordinal - (today.dayOfMonth - 1) - 30 * (months - 1)
  }

  /** Tuples compare by date, then by profit. */
  predicate PairLe(a: (Day, int), b: (Day, int))
  {
    a.0 < b.0 || (a.0 == b.0 && a.1 <= b.1)
  }

  /** Each tuple is at most the next. */
  predicate SortedPairs(s: seq<(Day, int)>)
  {
    forall i :: 0 <= i < |s| - 1 ==> PairLe(s[i], s[i + 1])
  }

  function Insert(x: (Day, int), s: seq<(Day, int)>): (r: seq<(Day, int)>)
    requires SortedPairs(s)
    ensures SortedPairs(r) && multiset(r) == multiset(s) + multiset{x}
    ensures r[0] == x || (s != [] && r[0] == s[0])
  {
    if s == [] then [x]
    else if PairLe(x, s[0]) then [x] + s
    else
      assert s == [s[0]] + s[1..];
      [s[0]] + Insert(x, s[1..])
  }

  /** `list.sort` on (date, profit) tuples: ordered, and the same tuples. */
  function SortPairs(xs: seq<(Day, int)>): (r: seq<(Day, int)>)
    ensures SortedPairs(r) && multiset(r) == multiset(xs)
  {
    if xs == [] then []
    else
      assert xs == xs[..|xs| - 1] + [xs[|xs| - 1]];
      Insert(xs[|xs| - 1], SortPairs(xs[..|xs| - 1]))
  }

  /** The entries whose date passes `keep`, in order. */
  function Filter(daily: seq<(Day, int)>, keep: Day -> bool): (r: seq<(Day, int)>)
    ensures forall x :: x in r <==> x in daily && keep(x.0)
    ensures multiset(r) <= multiset(daily)
  {
    if daily == [] then []
    else
      var init, last := daily[..|daily| - 1], daily[|daily| - 1];
      assert daily == init + [last];
      Filter(init, keep) + (if keep(last.0) then [last] else [])
  }

  function Profits(s: seq<(Day, int)>): (r: seq<int>)
    ensures |r| == |s| && forall i :: 0 <= i < |s| ==> r[i] == s[i].1
  {
    seq(|s|, i requires 0 <= i < |s| => s[i].1)
  }

  datatype Report = Report(days: nat, totalPnl: int, avgPnl: int, mdd: real, mddLimit: real)

  /** The report over the days that pass `keep`, none when there is no
      day at all or none in the window. */
  function Summarize(daily: seq<(Day, int)>, keep: Day -> bool, mddLimit: real): Option<Report>
  {
    if daily == [] then None
    else
      var filtered := Filter(daily, keep);
      if filtered == [] then None
      else
        var pnls := Profits(SortPairs(filtered));
        var total := Numeric.SumInt(pnls);
        Some(Report(|pnls|, total, Numeric.Trunc(total as real / |pnls| as real), MddOf(pnls).worst, mddLimit))
  }

  function WeeklyReport(daily: seq<(Day, int)>, today: Today, days: int, mddLimit: real): Option<Report>
  {
    Summarize(daily, d => InWeek(today, days, d), mddLimit)
  }

  function MonthlyReport(daily: seq<(Day, int)>, today: Today, months: int, mddLimit: real): Option<Report>
  {
    Summarize(daily, d => InMonths(today, months, d), mddLimit)
  }

  /** A report exists exactly when some day passes the window; it then
      covers exactly the days in the window, in date order, its total is
      their sum, its average the total over the count truncated toward
      zero, and its drawdown is never positive. */
  lemma SummarizeRule(daily: seq<(Day, int)>, keep: Day -> bool, mddLimit: real)
    ensures Summarize(daily, keep, mddLimit).Some? <==> exists i :: 0 <= i < |daily| && keep(daily[i].0)
    ensures Summarize(daily, keep, mddLimit).Some? ==>
      var r := Summarize(daily, keep, mddLimit).value;
      var sorted := SortPairs(Filter(daily, keep));
      && SortedPairs(sorted)
      && (forall x :: x in sorted <==> x in daily && keep(x.0))
      && r.days == |sorted| > 0
      && r.totalPnl == Numeric.SumInt(Profits(sorted))
      && r.avgPnl == Numeric.Trunc(r.totalPnl as real / r.days as real)
      && r.mdd <= 0.0 && r.mddLimit == mddLimit
  {
    var filtered := Filter(daily, keep);
    if exists i :: 0 <= i < |daily| && keep(daily[i].0) {
      var i :| 0 <= i < |daily| && keep(daily[i].0);
      assert daily[i] in filtered;
    }
    if filtered != [] {
      assert filtered[0] in daily;
      var sorted := SortPairs(filtered);
      forall x ensures x in sorted <==> x in filtered {
        assert x in sorted <==> x in multiset(sorted);
      }
      MddBound(Profits(sorted));
    }
  }

  /** The weekly window holds exactly the `days` days ending today. */
  lemma WeeklyWindow(today: Today, days: int, d: Day)
    ensures InWeek(today, days, d) <==> today.ordinal - days < d <= today.ordinal
    ensures days >= 1 ==> InWeek(today, days, today.ordinal)
    ensures days <= 0 ==> !InWeek(today, days, d)
  {
  }

  /** The monthly window for one month starts on the first of this month;
      each further month reaches 30 days further back. */
  lemma MonthlyWindow(today: Today, months: int, d: Day)
    ensures months == 1 ==> (InMonths(today, months, d) <==> d >= today.ordinal - today.dayOfMonth + 1)
    ensures InMonths(today, months, d) ==> InMonths(today, months + 1, d)
    ensures InMonths(today, months + 1, d) && !InMonths(today, months, d) ==>
      today.ordinal - today.dayOfMonth + 1 - 30 * months <= d < today.ordinal - today.dayOfMonth + 1 - 30 * (months - 1)
  {
  }
}
