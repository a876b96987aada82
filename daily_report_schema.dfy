// The daily report's record types: report identity, observer statistics,
// the cycle summary, the exit-type distribution, representative cycles,
// observation hints, price zones and the notes left for a person. Times are
// seconds on one clock.
module DailyReportSchema {
  import opened Wrappers

  datatype ReportMeta = ReportMeta(date: string, generatedAt: real, scoutVersion: string,
                                   testMode: bool, conditionId: Option<string>)

  datatype ObserverStockStats = ObserverStockStats(records: int, observerTriggeredRecords: int)

  datatype ObserverStats = ObserverStats(totalRecords: int, totalStocks: nat,
                                         byStock: map<string, ObserverStockStats>)

  datatype CycleSummary = CycleSummary(triggeredRecords: int, triggeredCycles: int, openCycles: int)

  /** How many closed cycles ended each of the four ways. */
  datatype CycleOutcomeDistribution = CycleOutcomeDistribution(
    reached1pct: nat, noReaction: nat, timeout: nat, manualStop: nat)

  datatype RepresentativeCycle = RepresentativeCycle(cycleId: string, stock: string, startTime: real,
                                                     endTime: real, durationSec: int, exitType: string)

  datatype ObservationHints = ObservationHints(dominantExitType: Option<string>, avgCycleDurationSec: Option<real>)

  datatype PriceZoneStat = PriceZoneStat(priceZone: string, exitCount: int, noReactionCount: int)

  datatype PriceZoneSummary = PriceZoneSummary(zones: seq<PriceZoneStat>)

  datatype ManualNotes = ManualNotes(marketOneLiner: Option<string>, confusingCycleId: Option<string>,
                                     unnecessaryActionNote: Option<string>, freeMemo: Option<string>)

  datatype DailyReport = DailyReport(
    meta: ReportMeta,
    observerStats: ObserverStats,
    cycleSummary: CycleSummary,
    cycleOutcomeDistribution: CycleOutcomeDistribution,
    representativeCycles: seq<RepresentativeCycle>,
    observationHints: ObservationHints,
    priceZoneSummary: PriceZoneSummary,
    manualNotes: ManualNotes)

  /** The field defaults: counters at zero, hints and notes unset, no zones. */
  const DefaultOutcomes: CycleOutcomeDistribution := CycleOutcomeDistribution(0, 0, 0, 0)
  const DefaultHints: ObservationHints := ObservationHints(None, None)
  const DefaultZones: PriceZoneSummary := PriceZoneSummary([])
  const DefaultNotes: ManualNotes := ManualNotes(None, None, None, None)

  /** The sum of the four counters. */
  function OutcomeTotal(d: CycleOutcomeDistribution): nat
  {
    d.reached1pct + d.noReaction + d.timeout + d.manualStop
  }
}
