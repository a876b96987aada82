// Building the daily report from the observer aggregation: the per-stock
// statistics are copied, closed cycles are counted by exit type, the first
// two cycle summaries become representative cycles, and the hints name the
// most frequent exit type and the mean cycle duration. The current time,
// which the source reads from the system clock, is a parameter.
module DailyReportBuilder {
  import opened Wrappers
  import Numeric
  import opened DailyReportSchema

  /** A time field: missing or empty, present but not an ISO time, or an
      instant in seconds. */
  datatype Stamp = Absent | Bad | At(sec: real)

  datatype StockIn = StockIn(records: Option<int>, triggeredRecords: Option<int>)

  /** A closed cycle; `exitType` is "" when the field is missing. */
  datatype CycleIn = CycleIn(exitType: string, startTime: Stamp, endTime: Stamp)

  /** An entry of the cycle summary list. */
  datatype SummaryIn = SummaryIn(cycleId: Option<string>, stock: Option<string>, startTime: Stamp,
                                 endTime: Stamp, durationSec: Option<int>, exitType: Option<string>)

  /** The observer summary section; a missing section reads as all fields
      absent. */
  datatype ObserverSummaryIn = ObserverSummaryIn(
    triggeredRecords: Option<int>, triggeredCyclesCount: Option<int>, openCyclesCount: Option<int>,
    triggeredCycle: seq<CycleIn>, cycleSummary: seq<SummaryIn>)

  /** The aggregation the report is built from. */
  datatype StatsIn = StatsIn(totalRecords: Option<int>, byStock: map<string, StockIn>,
                             observerSummary: ObserverSummaryIn)

  // ---------------------------------------------------------------------
  // [B] observer statistics and [C] cycle summary
  // ---------------------------------------------------------------------

  function ObserverStatsOf(s: StatsIn): ObserverStats
  {
    ObserverStats(s.totalRecords.GetOr(0), |s.byStock|,
                  map k | k in s.byStock :: ObserverStockStats(s.byStock[k].records.GetOr(0),
                                                               s.byStock[k].triggeredRecords.GetOr(0)))
  }

  function CycleSummaryOf(o: ObserverSummaryIn): CycleSummary
  {
    CycleSummary(o.triggeredRecords.GetOr(0), o.triggeredCyclesCount.GetOr(0), o.openCyclesCount.GetOr(0))
  }

  // ---------------------------------------------------------------------
  // [D] exit-type distribution
  // ---------------------------------------------------------------------

  /** The distribution after one more cycle: the matching counter goes up,
      an exit type outside the four changes nothing. */
  function Tally(d: CycleOutcomeDistribution, exitType: string): CycleOutcomeDistribution
  {
    if exitType == "reached_1pct" then d.(reached1pct := d.reached1pct + 1)
    else if exitType == "no_reaction" then d.(noReaction := d.noReaction + 1)
    else if exitType == "timeout" then d.(timeout := d.timeout + 1)
    else if exitType == "manual_stop" then d.(manualStop := d.manualStop + 1)
    else d
  }

  function OutcomesOf(cs: seq<CycleIn>): CycleOutcomeDistribution
  {
    if cs == [] then DefaultOutcomes else Tally(OutcomesOf(cs[..|cs| - 1]), cs[|cs| - 1].exitType)
  }

  /** How many cycles ended with exit type `t`. */
  function CountExit(cs: seq<CycleIn>, t: string): (n: nat)
    ensures n <= |cs|
  {
    if cs == [] then 0 else CountExit(cs[..|cs| - 1], t) + (if cs[|cs| - 1].exitType == t then 1 else 0)
  }

  predicate Counted(t: string)
  {
    t == "reached_1pct" || t == "no_reaction" || t == "timeout" || t == "manual_stop"
  }

  /** The loop over the closed cycles that fills the distribution. */
  method CountOutcomes(cs: seq<CycleIn>) returns (d: CycleOutcomeDistribution)
    ensures d == OutcomesOf(cs)
  {
    d := DefaultOutcomes;
    var i := 0;
    while i < |cs|
      invariant i <= |cs|
      invariant d == OutcomesOf(cs[..i])
    {
      assert cs[..i + 1][..i] == cs[..i];
      var exitType := cs[i].exitType;
      if exitType == "reached_1pct" {
        d := d.(reached1pct := d.reached1pct + 1);
      } else if exitType == "no_reaction" {
        d := d.(noReaction := d.noReaction + 1);
      } else if exitType == "timeout" {
        d := d.(timeout := d.timeout + 1);
      } else if exitType == "manual_stop" {
        d := d.(manualStop := d.manualStop + 1);
      }
      i := i + 1;
    }
    assert cs[..i] == cs;
  }

  /** Each counter is the number of cycles with its exit type, so the
      counters add up to the cycles with one of the four types and never to
      more than the number of cycles. */
  lemma {:induction false} OutcomeCounts(cs: seq<CycleIn>)
    ensures OutcomesOf(cs) == CycleOutcomeDistribution(CountExit(cs, "reached_1pct"), CountExit(cs, "no_reaction"),
                                                       CountExit(cs, "timeout"), CountExit(cs, "manual_stop"))
    ensures OutcomeTotal(OutcomesOf(cs)) == CountIfCounted(cs) <= |cs|
  {
    if cs != [] {
      var init, t := cs[..|cs| - 1], cs[|cs| - 1].exitType;
      OutcomeCounts(init);
      TallyStep(OutcomesOf(init), t);
    }
  }

  /** One cycle adds one to the counter of its own exit type only. */
  lemma TallyStep(d: CycleOutcomeDistribution, t: string)
    ensures Tally(d, t) == CycleOutcomeDistribution(
      d.reached1pct + (if t == "reached_1pct" then 1 else 0), d.noReaction + (if t == "no_reaction" then 1 else 0),
      d.timeout + (if t == "timeout" then 1 else 0), d.manualStop + (if t == "manual_stop" then 1 else 0))
    ensures OutcomeTotal(Tally(d, t)) == OutcomeTotal(d) + (if Counted(t) then 1 else 0)
  {
  }

  /** How many cycles have one of the four counted exit types. */
  function CountIfCounted(cs: seq<CycleIn>): (n: nat)
    ensures n <= |cs|
  {
    if cs == [] then 0 else CountIfCounted(cs[..|cs| - 1]) + (if Counted(cs[|cs| - 1].exitType) then 1 else 0)
  }

  // ---------------------------------------------------------------------
  // [E] representative cycles
  // ---------------------------------------------------------------------

  /** A time for the representative: the current time when absent, none
      when it does not parse. */
  function TimeOr(s: Stamp, now: real): Option<real>
  {
    match s
    case Absent => Some(now)
    case Bad => None
    case At(t) => Some(t)
  }

  /** The representative for one summary entry, or none when a time does not
      parse (the entry is skipped). */
  function RepresentativeOf(c: SummaryIn, now: real): Option<RepresentativeCycle>
  {
    var start, end := TimeOr(c.startTime, now), TimeOr(c.endTime, now);
    if start.None? || end.None? then None
    else Some(RepresentativeCycle(c.cycleId.GetOr(""), c.stock.GetOr(""), start.value, end.value,
                                  c.durationSec.GetOr(0), c.exitType.GetOr("unknown")))
  }

  /** The representatives of the entries, skipped ones left out, in order. */
  function RepresentativesFrom(cs: seq<SummaryIn>, now: real): seq<RepresentativeCycle>
  {
    if cs == [] then []
    else
      var init, r := RepresentativesFrom(cs[..|cs| - 1], now), RepresentativeOf(cs[|cs| - 1], now);
      if r.Some? then init + [r.value] else init
  }

  /** `xs[:2]`. */
  function FirstTwo<T>(xs: seq<T>): (r: seq<T>)
    ensures |r| <= 2 && r <= xs
    ensures |xs| >= 2 ==> |r| == 2
    ensures |xs| < 2 ==> r == xs
  {
    if |xs| <= 2 then xs else xs[..2]
  }

  /** The loop over the first two summary entries. */
  method BuildRepresentatives(cs: seq<SummaryIn>, now: real) returns (reps: seq<RepresentativeCycle>)
    ensures reps == RepresentativesFrom(FirstTwo(cs), now)
  {
    var head := FirstTwo(cs);
    reps := [];
    var i := 0;
    while i < |head|
      invariant i <= |head|
      invariant reps == RepresentativesFrom(head[..i], now)
    {
      assert head[..i + 1][..i] == head[..i];
      var r := RepresentativeOf(head[i], now);
      if r.Some? {
        reps := reps + [r.value];
      }
      i := i + 1;
    }
    assert head[..i] == head;
  }

  /** Skipping never adds entries, every representative comes from one of
      the entries, and without skipped entries the representatives are the
      entries' own, one for one. */
  lemma {:induction false} RepresentativesFromRule(cs: seq<SummaryIn>, now: real)
    ensures |RepresentativesFrom(cs, now)| <= |cs|
    ensures forall r :: r in RepresentativesFrom(cs, now) ==>
      exists i :: 0 <= i < |cs| && RepresentativeOf(cs[i], now) == Some(r)
    ensures (forall i :: 0 <= i < |cs| ==> RepresentativeOf(cs[i], now).Some?) ==>
      |RepresentativesFrom(cs, now)| == |cs|
      && forall i :: 0 <= i < |cs| ==> RepresentativesFrom(cs, now)[i] == RepresentativeOf(cs[i], now).value
  {
    if cs != [] {
      var init := cs[..|cs| - 1];
      RepresentativesFromRule(init, now);
      assert forall i :: 0 <= i < |init| ==> init[i] == cs[i];
    }
  }

  /** At most two representatives, all taken from the first two entries of
      the cycle summary; when neither has an unparseable time they are
      exactly those entries' representatives. */
  lemma RepresentativesRule(cs: seq<SummaryIn>, now: real)
    ensures |RepresentativesFrom(FirstTwo(cs), now)| <= 2
    ensures forall r :: r in RepresentativesFrom(FirstTwo(cs), now) ==>
      exists i :: 0 <= i < 2 && i < |cs| && RepresentativeOf(cs[i], now) == Some(r)
    ensures (forall i :: 0 <= i < |FirstTwo(cs)| ==> RepresentativeOf(cs[i], now).Some?) ==>
      |RepresentativesFrom(FirstTwo(cs), now)| == |FirstTwo(cs)|
  {
    var head := FirstTwo(cs);
    RepresentativesFromRule(head, now);
    assert forall i :: 0 <= i < |head| ==> head[i] == cs[i];
  }

  // ---------------------------------------------------------------------
  // [F] observation hints
  // ---------------------------------------------------------------------

  /** `exit_type_counts`: a dictionary in insertion order, as pairs. */
  type Counts = seq<(string, nat)>

  function Keys(items: Counts): seq<string>
  {
    if items == [] then [] else [items[0].0] + Keys(items[1..])
  }

  /** The count stored for `k`, 0 when absent. */
  function Lookup(items: Counts, k: string): nat
  {
    if items == [] then 0 else if items[0].0 == k then items[0].1 else Lookup(items[1..], k)
  }

  predicate DistinctKeys(items: Counts)
  {
    forall i, j :: 0 <= i < j < |items| ==> items[i].0 != items[j].0
  }

  /** `counts[k] = counts.get(k, 0) + 1`: an existing key keeps its place,
      a new key goes at the end. */
  function Bump(items: Counts, k: string): Counts
  {
    if items == [] then [(k, 1)]
    else if items[0].0 == k then [(k, items[0].1 + 1)] + items[1..]
    else [items[0]] + Bump(items[1..], k)
  }

  /** Bumping adds one to `k`'s count and nothing to any other, keeps the
      keys distinct, and adds `k` at the end when it was new. */
  lemma {:induction false} BumpRule(items: Counts, k: string)
    requires DistinctKeys(items)
    ensures DistinctKeys(Bump(items, k))
    ensures forall x :: Lookup(Bump(items, k), x) == Lookup(items, x) + (if x == k then 1 else 0)
    ensures Keys(Bump(items, k)) == if k in Keys(items) then Keys(items) else Keys(items) + [k]
  {
    if items != [] && items[0].0 != k {
      var rest := items[1..];
      assert DistinctKeys(rest) by {
        forall i, j | 0 <= i < j < |rest| ensures rest[i].0 != rest[j].0 {
          assert rest[i] == items[i + 1] && rest[j] == items[j + 1];
        }
      }
      BumpRule(rest, k);
      KeysIn(items);
      KeysIn(Bump(rest, k));
      var b := Bump(items, k);
      assert b == [items[0]] + Bump(rest, k);
      forall i, j | 0 <= i < j < |b| ensures b[i].0 != b[j].0 {
        if i == 0 {
          assert b[j] == Bump(rest, k)[j - 1];
          KeysIn(rest);
          assert items[0].0 !in Keys(rest) by {
            forall m | 0 <= m < |rest| ensures rest[m].0 != items[0].0 {
              assert rest[m] == items[m + 1];
            }
          }
        } else {
          assert b[i] == Bump(rest, k)[i - 1] && b[j] == Bump(rest, k)[j - 1];
        }
      }
    }
  }

  /** The keys are the first components, in order. */
  lemma {:induction false} KeysIn(items: Counts)
    ensures |Keys(items)| == |items|
    ensures forall i :: 0 <= i < |items| ==> Keys(items)[i] == items[i].0
  {
    if items != [] {
      KeysIn(items[1..]);
    }
  }

  /** The counts after the closed cycles: every non-empty exit type counted. */
  function ExitCountsOf(cs: seq<CycleIn>): Counts
  {
    if cs == [] then []
    else
      var init, t := ExitCountsOf(cs[..|cs| - 1]), cs[|cs| - 1].exitType;
      if t != "" then Bump(init, t) else init
  }

  /** Each non-empty exit type is counted once per cycle that has it, the
      keys are distinct, and a key is present exactly when its count is
      positive. */
  lemma {:induction false} ExitCountsRule(cs: seq<CycleIn>)
    ensures DistinctKeys(ExitCountsOf(cs))
    ensures forall x :: x != "" ==> Lookup(ExitCountsOf(cs), x) == CountExit(cs, x)
    ensures Lookup(ExitCountsOf(cs), "") == 0
    ensures forall x :: x in Keys(ExitCountsOf(cs)) <==> x != "" && CountExit(cs, x) > 0
  {
    if cs != [] {
      var init, t := cs[..|cs| - 1], cs[|cs| - 1].exitType;
      ExitCountsRule(init);
      if t != "" {
        BumpRule(ExitCountsOf(init), t);
      }
    }
  }

  /** `max(counts.items(), key=count)`: the first pair with the largest
      count. */
  function MaxItem(items: Counts): (r: (string, nat))
    requires items != []
    ensures r in items
    ensures forall i :: 0 <= i < |items| ==> items[i].1 <= r.1
    ensures exists j :: 0 <= j < |items| && items[j] == r && forall i :: 0 <= i < j ==> items[i].1 < r.1
  {
    if |items| == 1 then items[0]
    else
      var init, last := items[..|items| - 1], items[|items| - 1];
      assert items == init + [last];
      var best := MaxItem(init);
      if last.1 > best.1 then last else best
  }

  /** The most frequent exit type, none when nothing was counted. */
  function Dominant(items: Counts): Option<string>
  {
    if items == [] then None else Some(MaxItem(items).0)
  }

  /** How long a cycle lasted, when both times are present and parse. */
  function DurationOf(c: CycleIn): Option<real>
  {
    if c.startTime.Absent? || c.endTime.Absent? then None
    else if c.startTime.Bad? || c.endTime.Bad? then None
    else Some(c.endTime.sec - c.startTime.sec)
  }

  /** The durations that could be measured, in order. */
  function Durations(cs: seq<CycleIn>): (ds: seq<real>)
    ensures |ds| <= |cs|
  {
    if cs == [] then []
    else
      var init, d := Durations(cs[..|cs| - 1]), DurationOf(cs[|cs| - 1]);
      if d.Some? then init + [d.value] else init
  }

  /** The hints: the defaults for no closed cycles, otherwise the dominant
      exit type and the mean of the measured durations. */
  function HintsOf(cs: seq<CycleIn>): ObservationHints
  {
    if cs == [] then DefaultHints
    else
      var ds := Durations(cs);
      ObservationHints(Dominant(ExitCountsOf(cs)), if |ds| > 0 then Some(Numeric.Mean(ds)) else None)
  }

  /** The loop over the closed cycles that counts exit types and sums the
      measurable durations. */
  method BuildHints(cs: seq<CycleIn>) returns (hints: ObservationHints)
    ensures hints == HintsOf(cs)
  {
    if cs == [] {
      return DefaultHints;
    }
    var counts: Counts := [];
    var total := 0.0;
    var valid := 0;
    var i := 0;
    while i < |cs|
      invariant i <= |cs|
      invariant counts == ExitCountsOf(cs[..i])
      invariant total == Numeric.SumReal(Durations(cs[..i]))
      invariant valid == |Durations(cs[..i])|
    {
      assert cs[..i + 1][..i] == cs[..i];
      var c := cs[i];
      if c.exitType != "" {
        counts := Bump(counts, c.exitType);
      }
      var d := DurationOf(c);
      if d.Some? {
        total := total + d.value;
        valid := valid + 1;
      }
      i := i + 1;
    }
    assert cs[..i] == cs;
    var dominant := if counts == [] then None else Some(MaxItem(counts).0);
    var avg := if valid > 0 then Some(total / valid as real) else None;
    hints := ObservationHints(dominant, avg);
  }

  /** Every measured duration is some cycle's, and a cycle with both times
      parsed is measured. */
  lemma {:induction false} DurationsRule(cs: seq<CycleIn>)
    ensures Durations(cs) == [] <==> forall i :: 0 <= i < |cs| ==> DurationOf(cs[i]).None?
    ensures forall k :: 0 <= k < |Durations(cs)| ==>
      exists i :: 0 <= i < |cs| && DurationOf(cs[i]) == Some(Durations(cs)[k])
  {
    if cs != [] {
      var init := cs[..|cs| - 1];
      DurationsRule(init);
      assert forall i :: 0 <= i < |init| ==> init[i] == cs[i];
    }
  }

  /** The dominant exit type is absent exactly when no closed cycle has a
      non-empty exit type (in particular for no cycles); otherwise it is a
      non-empty type no other type outnumbers. */
  lemma DominantRule(cs: seq<CycleIn>)
    ensures HintsOf(cs).dominantExitType.None? <==> forall i :: 0 <= i < |cs| ==> cs[i].exitType == ""
    ensures HintsOf(cs).dominantExitType.Some? ==>
      var t := HintsOf(cs).dominantExitType.value;
      t != "" && CountExit(cs, t) > 0 && forall x :: x != "" ==> CountExit(cs, x) <= CountExit(cs, t)
  {
    ExitCountsRule(cs);
    var items := ExitCountsOf(cs);
    KeysIn(items);
    NoKeysNoExits(cs);
    if items != [] {
      var best := MaxItem(items);
      LookupIn(items, best.0);
      forall x | x != ""
        ensures CountExit(cs, x) <= CountExit(cs, best.0)
      {
        if CountExit(cs, x) > 0 {
          LookupIn(items, x);
        }
      }
    }
  }

  /** The mean duration is absent exactly when no cycle has both times
      parsed, and it lies within any bounds every measured duration
      respects. */
  lemma MeanDurationRule(cs: seq<CycleIn>, lo: real, hi: real)
    ensures HintsOf(cs).avgCycleDurationSec.None? <==> forall i :: 0 <= i < |cs| ==> DurationOf(cs[i]).None?
    ensures (forall i :: 0 <= i < |cs| && DurationOf(cs[i]).Some? ==> lo <= DurationOf(cs[i]).value <= hi) ==>
      (HintsOf(cs).avgCycleDurationSec.Some? ==> lo <= HintsOf(cs).avgCycleDurationSec.value <= hi)
  {
    DurationsRule(cs);
    var ds := Durations(cs);
    if ds != [] && (forall i :: 0 <= i < |cs| && DurationOf(cs[i]).Some? ==> lo <= DurationOf(cs[i]).value <= hi) {
      forall k | 0 <= k < |ds| ensures lo <= ds[k] <= hi {
        var i :| 0 <= i < |cs| && DurationOf(cs[i]) == Some(ds[k]);
      }
      Numeric.MeanBounds(ds, lo, hi);
    }
  }

  /** With distinct keys, the stored count of a present key is the count in
      its pair. */
  lemma {:induction false} LookupIn(items: Counts, k: string)
    requires DistinctKeys(items) && k in Keys(items)
    ensures exists i :: 0 <= i < |items| && items[i] == (k, Lookup(items, k))
  {
    KeysIn(items);
    if items[0].0 != k {
      var rest := items[1..];
      assert DistinctKeys(rest) by {
        forall i, j | 0 <= i < j < |rest| ensures rest[i].0 != rest[j].0 {
          assert rest[i] == items[i + 1] && rest[j] == items[j + 1];
        }
      }
      KeysIn(rest);
      assert k in Keys(rest) by {
        var m :| 0 <= m < |items| && Keys(items)[m] == k;
        assert m > 0 && Keys(rest)[m - 1] == k;
      }
      LookupIn(rest, k);
      var i :| 0 <= i < |rest| && rest[i] == (k, Lookup(rest, k));
      assert items[i + 1] == rest[i];
    }
  }

  /** Nothing is counted exactly when no cycle has a non-empty exit type. */
  lemma {:induction false} NoKeysNoExits(cs: seq<CycleIn>)
    ensures ExitCountsOf(cs) == [] <==> forall i :: 0 <= i < |cs| ==> cs[i].exitType == ""
  {
    if cs != [] {
      var init := cs[..|cs| - 1];
      NoKeysNoExits(init);
      assert forall i :: 0 <= i < |init| ==> init[i] == cs[i];
      if cs[|cs| - 1].exitType != "" {
        BumpNonEmpty(ExitCountsOf(init), cs[|cs| - 1].exitType);
      }
    }
  }

  lemma BumpNonEmpty(items: Counts, k: string)
    ensures Bump(items, k) != []
  {
  }

  // ---------------------------------------------------------------------
  // The report
  // ---------------------------------------------------------------------

  function DailyReportOf(date: string, stats: StatsIn, scoutVersion: string, testMode: bool,
                         conditionId: Option<string>, now: real): DailyReport
  {
    var o := stats.observerSummary;
    DailyReport(ReportMeta(date, now, scoutVersion, testMode, conditionId),
                ObserverStatsOf(stats), CycleSummaryOf(o), OutcomesOf(o.triggeredCycle),
                RepresentativesFrom(FirstTwo(o.cycleSummary), now), HintsOf(o.triggeredCycle),
                DefaultZones, DefaultNotes)
  }

  /** `build_daily_report`. */
  method BuildDailyReport(date: string, stats: StatsIn, scoutVersion: string, testMode: bool,
                          conditionId: Option<string>, now: real) returns (report: DailyReport)
    ensures report == DailyReportOf(date, stats, scoutVersion, testMode, conditionId, now)
  {
    var meta := ReportMeta(date, now, scoutVersion, testMode, conditionId);
    var observerStats := ObserverStatsOf(stats);
    var o := stats.observerSummary;
    var cycleSummary := CycleSummaryOf(o);
    var outcomes := CountOutcomes(o.triggeredCycle);
    var reps := BuildRepresentatives(o.cycleSummary, now);
    var hints := BuildHints(o.triggeredCycle);
    report := DailyReport(meta, observerStats, cycleSummary, outcomes, reps, hints, DefaultZones, DefaultNotes);
  }

  /** The statistics are copied stock by stock, a missing count reading as
      0, and `total_stocks` is the number of stocks; the price zones are
      empty and the notes unset; with no closed cycles the counters are all
      0 and both hints unset. */
  lemma ReportRule(date: string, stats: StatsIn, scoutVersion: string, testMode: bool,
                   conditionId: Option<string>, now: real)
    ensures var r := DailyReportOf(date, stats, scoutVersion, testMode, conditionId, now);
      r.observerStats.totalStocks == |r.observerStats.byStock.Keys|
      && r.observerStats.byStock.Keys == stats.byStock.Keys
      && (forall k :: k in stats.byStock ==>
            r.observerStats.byStock[k].records == stats.byStock[k].records.GetOr(0)
            && r.observerStats.byStock[k].observerTriggeredRecords == stats.byStock[k].triggeredRecords.GetOr(0))
      && r.priceZoneSummary.zones == []
      && r.manualNotes == ManualNotes(None, None, None, None)
      && (stats.observerSummary.triggeredCycle == [] ==>
            r.cycleOutcomeDistribution == CycleOutcomeDistribution(0, 0, 0, 0)
            && r.observationHints == ObservationHints(None, None))
  {
    var m := DailyReportOf(date, stats, scoutVersion, testMode, conditionId, now).observerStats.byStock;
    assert m.Keys == stats.byStock.Keys;
  }
}
