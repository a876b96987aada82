// The scout record, version 2: one observation of one stock, with a meta
// section and sections for the market snapshot, the observer, the base
// candle, the box, the outcome, the expectation, the reasons no event
// occurred and the environment. A section the caller leaves out, or passes
// empty, gets its default. The current time, which the source reads from
// the system clock, is a parameter already rendered as text.
module ScoutRecord {
  import opened Wrappers

  /** A JSON value as the sections hold them. */
  datatype Value = Null | Bool(b: bool) | Int(i: int) | Real(r: real) | Str(s: string) | List(items: seq<Value>)

  /** Python truthiness of a value. */
  predicate Truthy(v: Value)
  {
    match v
    case Null => false
    case Bool(b) => b
    case Int(i) => i != 0
    case Real(r) => r != 0.0
    case Str(s) => s != ""
    case List(items) => items != []
  }

  type Dict = map<string, Value>

  datatype Meta = Meta(schemaVersion: string, botId: string, date: string, time: string, timestamp: string,
                       session: string, stockCode: string, isLargeCap: bool)

  datatype Record = Record(
    meta: Meta, snapshot: Dict, observer: Dict, baseCandle: Dict, box: Dict,
    outcome: Dict, expectation: Dict, noEventReason: seq<string>, environment: Dict, intervalMin: int)

  /** The current time as `%Y-%m-%d`, `%H:%M:%S` and an ISO timestamp. */
  datatype Clock = Clock(date: string, time: string, timestamp: string)

  const SchemaVersion := "v2"

  /** `given or default` for a section: the default replaces a section that
      is missing or empty. */
  function OrDict(given: Option<Dict>, default: Dict): (r: Dict)
    ensures given.Some? && given.value != map[] ==> r == given.value
    ensures given.None? || given.value == map[] ==> r == default
  {
    if given.Some? && given.value != map[] then given.value else default
  }

  /** `build_scout_record_v2`: the meta section records schema version
      "v2", the clock and the caller's bot, session, stock and large-cap
      flag; the sections are the given ones or their defaults. */
  function BuildScoutRecordV2(botId: string, stockCode: string, session: string, intervalMin: int,
                              isLargeCap: bool, snapshot: Option<Dict>, observer: Option<Dict>,
                              baseCandle: Option<Dict>, box: Option<Dict>, outcome: Option<Dict>,
                              expectation: Option<Dict>, noEventReason: Option<seq<string>>,
                              environment: Option<Dict>, now: Clock): (r: Record)
    ensures r.meta.schemaVersion == "v2"
    ensures r.meta.botId == botId && r.meta.stockCode == stockCode && r.meta.session == session
    ensures r.meta.isLargeCap == isLargeCap && r.intervalMin == intervalMin
    ensures r.meta.date == now.date && r.meta.time == now.time && r.meta.timestamp == now.timestamp
  {
    Record(
      Meta(SchemaVersion, botId, now.date, now.time, now.timestamp, session, stockCode, isLargeCap),
      OrDict(snapshot, map[]),
      OrDict(observer, map["triggered" := Bool(false)]),
      OrDict(baseCandle, map["exists" := Bool(false)]),
      OrDict(box, map["formed" := Bool(false)]),
      OrDict(outcome, map[]),
      OrDict(expectation, map[]),
      if noEventReason.Some? && noEventReason.value != [] then noEventReason.value else [],
      OrDict(environment, map[]),
      intervalMin)
  }

  /** A flag as the analyses read it: present and truthy. */
  predicate Flag(d: Dict, key: string)
  {
    key in d && Truthy(d[key])
  }

  /** Without the three observation sections a record is untriggered, has no
      base candle and no formed box, and each of those flags holds the value
      the caller gave; the other sections default to empty. */
  lemma SectionDefaults(botId: string, stockCode: string, session: string, intervalMin: int,
                        isLargeCap: bool, snapshot: Option<Dict>, observer: Option<Dict>,
                        baseCandle: Option<Dict>, box: Option<Dict>, outcome: Option<Dict>,
                        expectation: Option<Dict>, noEventReason: Option<seq<string>>,
                        environment: Option<Dict>, now: Clock)
    ensures var r := BuildScoutRecordV2(botId, stockCode, session, intervalMin, isLargeCap, snapshot, observer,
                                        baseCandle, box, outcome, expectation, noEventReason, environment, now);
      (Flag(r.observer, "triggered") <==> observer.Some? && Flag(observer.value, "triggered"))
      && (Flag(r.baseCandle, "exists") <==> baseCandle.Some? && Flag(baseCandle.value, "exists"))
      && (Flag(r.box, "formed") <==> box.Some? && Flag(box.value, "formed"))
      && (observer.None? ==> r.observer == map["triggered" := Bool(false)])
      && (baseCandle.None? ==> r.baseCandle == map["exists" := Bool(false)])
      && (box.None? ==> r.box == map["formed" := Bool(false)])
      && (snapshot.None? ==> r.snapshot == map[]) && (outcome.None? ==> r.outcome == map[])
      && (expectation.None? ==> r.expectation == map[]) && (environment.None? ==> r.environment == map[])
      && (noEventReason.None? ==> r.noEventReason == [])
  {
  }
}
