// The post-market analysis of one day's scout records: per-record counters,
// the cycle state machine (per stock, IDLE until a triggered record opens a
// cycle, ACTIVE until a record carries a valid exit type), and the market
// character derived from the trigger and box rates. Reading the record files,
// sorting them by timestamp and writing the reports are left out: the
// records arrive already in timestamp order.
module PostMarketAnalyzer {
  import opened Wrappers
  import Counters
  import Numeric

  // ---------------------------------------------------------------------
  // Exit types
  // ---------------------------------------------------------------------

  /** The four exit types a cycle may end with. */
  const ValidExitTypes: set<string> := {"reached_1pct", "no_reaction", "timeout", "manual_stop"}

  /** Which exit type wins when a record carries several. */
  const ExitTypePriority: seq<string> := ["manual_stop", "reached_1pct", "timeout", "no_reaction"]

  /** The raw `outcome.exit_type` value: absent or null, a string, a list
      (whose non-string elements are `None`), or any other value. */
  datatype ExitArg = ExitNone | ExitStr(s: string) | ExitList(items: seq<Option<string>>) | ExitOther

  /** The candidates `select_exit_type` looks at: none for a falsy or
      unsupported value, the string itself, or the list. */
  function Candidates(arg: ExitArg): seq<Option<string>>
  {
    match arg
    case ExitNone => []
    case ExitStr(s) => if s == "" then [] else [Some(s)]
    case ExitList(items) => items
    case ExitOther => []
  }

  /** The candidates that are strings naming a valid exit type, in order. */
  function ValidCandidates(items: seq<Option<string>>): (r: seq<string>)
    ensures forall t :: t in r <==> Some(t) in items && t in ValidExitTypes
  {
    if items == [] then []
    else
      var rest := ValidCandidates(items[1..]);
      assert items == [items[0]] + items[1..];
      if items[0].Some? && items[0].value in ValidExitTypes then [items[0].value] + rest else rest
  }

  /** The first entry of `priorities` that is among `valid`. */
  function FirstByPriority(priorities: seq<string>, valid: seq<string>): (r: Option<string>)
    ensures r.Some? ==> r.value in priorities && r.value in valid
    ensures r.None? ==> forall p :: p in priorities ==> p !in valid
  {
    if priorities == [] then None
    else if priorities[0] in valid then Some(priorities[0])
    else FirstByPriority(priorities[1..], valid)
  }

  /** `select_exit_type`: one exit type out of the raw value, or `None`. */
  function SelectExitType(arg: ExitArg): (r: Option<string>)
    ensures r.Some? ==> r.value in ValidExitTypes && Some(r.value) in Candidates(arg)
  {
    var valid := ValidCandidates(Candidates(arg));
    if valid == [] then None
    else
      var first := FirstByPriority(ExitTypePriority, valid);
      if first.Some? then first else Some(valid[0])
  }

  /** The first priority found among the valid types is the answer. */
  lemma {:induction false} FirstByPriorityAt(priorities: seq<string>, valid: seq<string>, i: nat)
    requires i < |priorities| && priorities[i] in valid
    requires forall j :: 0 <= j < i ==> priorities[j] !in valid
    ensures FirstByPriority(priorities, valid) == Some(priorities[i])
  {
    if i > 0 {
      FirstByPriorityAt(priorities[1..], valid, i - 1);
    }
  }

  /** A type is selected exactly when some candidate is a valid exit type,
      and the selected type is the one of highest priority among them. */
  lemma SelectExitTypeRule(arg: ExitArg)
    ensures SelectExitType(arg).Some? <==> exists t :: Some(t) in Candidates(arg) && t in ValidExitTypes
    ensures var c := Candidates(arg); var r := SelectExitType(arg);
      (Some("manual_stop") in c ==> r == Some("manual_stop"))
      && (Some("manual_stop") !in c && Some("reached_1pct") in c ==> r == Some("reached_1pct"))
      && (Some("manual_stop") !in c && Some("reached_1pct") !in c && Some("timeout") in c ==> r == Some("timeout"))
      && ((Some("manual_stop") !in c && Some("reached_1pct") !in c && Some("timeout") !in c
           && Some("no_reaction") in c) ==> r == Some("no_reaction"))
  {
    var c := Candidates(arg);
    var valid := ValidCandidates(c);
    var p := ExitTypePriority;
    if exists t :: Some(t) in c && t in ValidExitTypes {
      var t :| Some(t) in c && t in ValidExitTypes;
      assert t in valid;
    }
    if Some("manual_stop") in c {
      FirstByPriorityAt(p, valid, 0);
    } else if Some("reached_1pct") in c {
      FirstByPriorityAt(p, valid, 1);
    } else if Some("timeout") in c {
      FirstByPriorityAt(p, valid, 2);
    } else if Some("no_reaction") in c {
      FirstByPriorityAt(p, valid, 3);
    }
  }

  /** A falsy value, a value of another kind and a list without a valid
      string all select nothing. */
  lemma SelectExitTypeNone(items: seq<Option<string>>)
    requires forall k :: 0 <= k < |items| ==> items[k].None? || items[k].value !in ValidExitTypes
    ensures SelectExitType(ExitNone).None? && SelectExitType(ExitOther).None?
    ensures SelectExitType(ExitStr("")).None? && SelectExitType(ExitList([])).None?
    ensures SelectExitType(ExitList(items)).None?
  {
  }

  // ---------------------------------------------------------------------
  // Records and cycles
  // ---------------------------------------------------------------------

  /** One scout record, as the analysis reads it: the `meta` fields (missing
      ones are `None`), whether `observer.triggered` is truthy, the raw exit
      type, the box and base-candle flags and the no-event reasons. */
  datatype Rec = Rec(stockCode: Option<string>, session: Option<string>, timestamp: Option<string>,
                     date: Option<string>, triggered: bool, exitType: ExitArg, boxFormed: bool,
                     baseCandleExists: bool, noEventReasons: seq<string>)

  function Stock(r: Rec): string { r.stockCode.GetOr("UNKNOWN") }
  function Session(r: Rec): string { r.session.GetOr("UNKNOWN") }
  function Timestamp(r: Rec): string { r.timestamp.GetOr("") }

  /** A cycle still open for its stock. */
  datatype OpenCycle = OpenCycle(stock: string, startTimeStr: string, startRecordIndex: nat,
                                 startSession: string, recordsInCycle: nat)

  /** A finished cycle: closed by a record, or at the end of the session
      (then without end index and session, and with an end reason). */
  datatype Cycle = Cycle(stock: string, startTimeStr: string, startRecordIndex: nat, startSession: string,
                         recordsInCycle: nat, endTimeStr: string, endRecordIndex: Option<nat>,
                         endSession: Option<string>, exitType: string, endReason: Option<string>)

  /** The position of `stock`'s open cycle. */
  function FindOpen(open: seq<OpenCycle>, stock: string): (r: Option<nat>)
    ensures r.Some? ==> r.value < |open| && open[r.value].stock == stock
    ensures r.None? ==> forall i :: 0 <= i < |open| ==> open[i].stock != stock
  {
    if open == [] then None
    else if open[|open| - 1].stock == stock then Some(|open| - 1)
    else FindOpen(open[..|open| - 1], stock)
  }

  predicate IsOpen(open: seq<OpenCycle>, stock: string)
  {
    exists i :: 0 <= i < |open| && open[i].stock == stock
  }

  /** At most one open cycle per stock, each holding at least its opening
      record. */
  predicate WellFormed(open: seq<OpenCycle>)
  {
    (forall i, j :: 0 <= i < j < |open| ==> open[i].stock != open[j].stock)
    && forall i :: 0 <= i < |open| ==> open[i].recordsInCycle >= 1
  }

  /** `del open_cycles[stock]` on an insertion-ordered dictionary. */
  function RemoveAt(open: seq<OpenCycle>, k: nat): (r: seq<OpenCycle>)
    requires k < |open|
    ensures |r| == |open| - 1
    ensures forall i :: 0 <= i < |r| ==> r[i] == (if i < k then open[i] else open[i + 1])
  {
    open[..k] + open[k + 1..]
  }

  /** Step 4 of the walk: a triggered record of an idle stock opens a
      cycle; a record of an active stock is counted into its cycle. */
  function Opened(open: seq<OpenCycle>, rec: Rec, idx: nat): seq<OpenCycle>
  {
    var stock := Stock(rec);
    match FindOpen(open, stock)
    case None =>
      if rec.triggered then open + [OpenCycle(stock, Timestamp(rec), idx, Session(rec), 1)] else open
    case Some(k) =>
      open[k := open[k].(recordsInCycle := open[k].recordsInCycle + 1)]
  }

  /** The cycle an exit type closes at record `idx`. */
  function Closed(c: OpenCycle, rec: Rec, idx: nat, exitType: string): Cycle
  {
    Cycle(c.stock, c.startTimeStr, c.startRecordIndex, c.startSession, c.recordsInCycle,
          Timestamp(rec), Some(idx), Some(Session(rec)), exitType, None)
  }

  /** The state of the machine: the open cycles in insertion order and the
      cycles closed so far. */
  datatype Machine = Machine(open: seq<OpenCycle>, closed: seq<Cycle>)

  /** Step 5 of the walk: a valid exit type closes the stock's open cycle,
      moving it to the closed cycles; an invalid one leaves it open. */
  function CloseStep(open: seq<OpenCycle>, closed: seq<Cycle>, rec: Rec, idx: nat): Machine
  {
    var exit := SelectExitType(rec.exitType);
    match FindOpen(open, Stock(rec))
    case Some(k) =>
      if exit.Some? then Machine(RemoveAt(open, k), closed + [Closed(open[k], rec, idx, exit.value)])
      else Machine(open, closed)
    case None => Machine(open, closed)
  }

  /** One record through the machine (steps 4 and 5). */
  function Step(m: Machine, rec: Rec, idx: nat): Machine
  {
    CloseStep(Opened(m.open, rec, idx), m.closed, rec, idx)
  }

  /** The machine after the records, the i-th record having index i. */
  function Run(records: seq<Rec>): Machine
  {
    if records == [] then Machine([], [])
    else Step(Run(records[..|records| - 1]), records[|records| - 1], |records| - 1)
  }

  /** Every cycle closed so far has a valid exit type and was opened
      before or by the record that closed it. */
  predicate ClosedValid(closed: seq<Cycle>)
  {
    forall i :: 0 <= i < |closed| ==> closed[i].exitType in ValidExitTypes && closed[i].recordsInCycle >= 1
  }

  lemma OpenedFacts(open: seq<OpenCycle>, rec: Rec, idx: nat)
    requires WellFormed(open)
    ensures WellFormed(Opened(open, rec, idx))
    ensures IsOpen(Opened(open, rec, idx), Stock(rec)) <==> IsOpen(open, Stock(rec)) || rec.triggered
    ensures forall s :: s != Stock(rec) ==> (IsOpen(Opened(open, rec, idx), s) <==> IsOpen(open, s))
  {
    var stock := Stock(rec);
    var o := Opened(open, rec, idx);
    match FindOpen(open, stock)
    case None =>
      if rec.triggered {
        assert o[|open|].stock == stock;
        forall s | s != stock && IsOpen(o, s)
          ensures IsOpen(open, s)
        {
          var i :| 0 <= i < |o| && o[i].stock == s;
          assert i < |open|;
        }
        forall s | IsOpen(open, s)
          ensures IsOpen(o, s)
        {
          var i :| 0 <= i < |open| && open[i].stock == s;
          assert o[i].stock == s;
        }
      }
    case Some(k) =>
      assert o[k].stock == stock;
      forall s | IsOpen(open, s)
        ensures IsOpen(o, s)
      {
        var i :| 0 <= i < |open| && open[i].stock == s;
        assert o[i].stock == s;
      }
      forall s | IsOpen(o, s)
        ensures IsOpen(open, s)
      {
        var i :| 0 <= i < |o| && o[i].stock == s;
        assert open[i].stock == s;
      }
  }

  lemma RemoveAtFacts(open: seq<OpenCycle>, k: nat)
    requires WellFormed(open) && k < |open|
    ensures WellFormed(RemoveAt(open, k))
    ensures !IsOpen(RemoveAt(open, k), open[k].stock)
    ensures forall s :: s != open[k].stock ==> (IsOpen(RemoveAt(open, k), s) <==> IsOpen(open, s))
  {
    var r := RemoveAt(open, k);
    forall s | s != open[k].stock && IsOpen(open, s)
      ensures IsOpen(r, s)
    {
      var i :| 0 <= i < |open| && open[i].stock == s;
      if i < k {
        assert r[i].stock == s;
      } else {
        assert r[i - 1].stock == s;
      }
    }
  }

  /** The machine keeps at most one open cycle per stock; a stock's cycle
      opens only on a triggered record while it has none; a record with a
      valid exit type closes its stock's cycle, appending exactly one cycle
      with that exit type, and any other record leaves it open; other
      stocks are untouched. */
  lemma StepRule(m: Machine, rec: Rec, idx: nat)
    requires WellFormed(m.open) && ClosedValid(m.closed)
    ensures var n := Step(m, rec, idx); var s := Stock(rec); var exit := SelectExitType(rec.exitType);
      WellFormed(n.open) && ClosedValid(n.closed)
      && (!IsOpen(m.open, s) && !rec.triggered ==> n == m)
      && (IsOpen(m.open, s) || rec.triggered ==>
            (exit.Some? ==> (!IsOpen(n.open, s) && |n.closed| == |m.closed| + 1
               && n.closed[..|m.closed|] == m.closed && n.closed[|m.closed|].exitType == exit.value
               && n.closed[|m.closed|].stock == s && n.closed[|m.closed|].endRecordIndex == Some(idx)))
            && (exit.None? ==> IsOpen(n.open, s) && n.closed == m.closed))
      && forall t :: t != s ==> (IsOpen(n.open, t) <==> IsOpen(m.open, t))
  {
    var s := Stock(rec);
    var open := Opened(m.open, rec, idx);
    OpenedFacts(m.open, rec, idx);
    var exit := SelectExitType(rec.exitType);
    match FindOpen(open, s)
    case Some(k) =>
      assert IsOpen(open, s);
      if exit.Some? {
        RemoveAtFacts(open, k);
        var n := Step(m, rec, idx);
        assert n.closed == m.closed + [Closed(open[k], rec, idx, exit.value)];
        assert n.closed[..|m.closed|] == m.closed;
      }
    case None =>
      assert !IsOpen(open, s);
      if !IsOpen(m.open, s) && !rec.triggered {
        assert FindOpen(m.open, s).None?;
      }
  }

  /** Every state the walk reaches is well formed. */
  lemma {:induction false} RunWellFormed(records: seq<Rec>)
    ensures WellFormed(Run(records).open) && ClosedValid(Run(records).closed)
  {
    if records != [] {
      RunWellFormed(records[..|records| - 1]);
      StepRule(Run(records[..|records| - 1]), records[|records| - 1], |records| - 1);
    }
  }

  /** Step 6: a cycle still open when the records end, closed as a timeout
      at the session's end, at the last record's time. */
  function SessionEnded(c: OpenCycle, lastTs: string): (r: Cycle)
    ensures r.exitType == "timeout" && r.endReason == Some("session_end") && r.stock == c.stock
  {
    Cycle(c.stock, c.startTimeStr, c.startRecordIndex, c.startSession, c.recordsInCycle,
          lastTs, None, None, "timeout", Some("session_end"))
  }

  function SessionEndedAll(open: seq<OpenCycle>, lastTs: string): (r: seq<Cycle>)
    ensures |r| == |open|
    ensures forall i :: 0 <= i < |r| ==> r[i] == SessionEnded(open[i], lastTs)
  {
    if open == [] then [] else [SessionEnded(open[0], lastTs)] + SessionEndedAll(open[1..], lastTs)
  }

  function LastTimestamp(records: seq<Rec>): string
  {
    if records == [] then "" else Timestamp(records[|records| - 1])
  }

  // ---------------------------------------------------------------------
  // Record counters
  // ---------------------------------------------------------------------

  /** The per-stock counters. */
  datatype StockCounts = StockCounts(records: nat, triggeredRecords: nat, boxFormed: nat, baseCandleExists: nat)

  /** One trigger entry. */
  datatype Trigger = Trigger(stock: string, time: string, session: string, recordIndex: nat)

  datatype Counts = Counts(triggeredRecords: nat, triggeredStocks: set<string>, triggers: seq<Trigger>,
                           byStock: map<string, StockCounts>, boxFormedCount: nat, formedStocks: set<string>,
                           baseExistsCount: nat, existsStocks: set<string>,
                           sessionDistribution: map<string, nat>, noEventReasons: map<string, nat>)

  const NoCounts: Counts := Counts(0, {}, [], map[], 0, {}, 0, {}, map[], map[])

  /** Counting every reason once more. */
  function BumpAll(m: map<string, nat>, reasons: seq<string>): map<string, nat>
  {
    if reasons == [] then m else Counters.Bump(BumpAll(m, reasons[..|reasons| - 1]), reasons[|reasons| - 1])
  }

  function StockEntry(byStock: map<string, StockCounts>, stock: string): StockCounts
  {
    if stock in byStock then byStock[stock] else StockCounts(0, 0, 0, 0)
  }

  /** 1 for a set flag, 0 otherwise. */
  function Flag(b: bool): nat
  {
    if b then 1 else 0
  }

  /** The set with `stock` added when the flag is set. */
  function Mark(stocks: set<string>, b: bool, stock: string): set<string>
  {
    if b then stocks + {stock} else stocks
  }

  /** A stock's counters after one more of its records. */
  function EntryStep(e: StockCounts, rec: Rec): StockCounts
  {
    StockCounts(e.records + 1, e.triggeredRecords + Flag(rec.triggered), e.boxFormed + Flag(rec.boxFormed),
                e.baseCandleExists + Flag(rec.baseCandleExists))
  }

  /** A triggered record with a timestamp is listed as a trigger. */
  function TriggerStep(triggers: seq<Trigger>, rec: Rec, idx: nat): seq<Trigger>
  {
    if rec.triggered && Timestamp(rec) != "" then triggers + [Trigger(Stock(rec), Timestamp(rec), Session(rec), idx)]
    else triggers
  }

  /** The counters after one more record. */
  function CountStep(c: Counts, rec: Rec, idx: nat): Counts
  {
    var stock := Stock(rec);
    Counts(c.triggeredRecords + Flag(rec.triggered), Mark(c.triggeredStocks, rec.triggered, stock),
           TriggerStep(c.triggers, rec, idx),
           c.byStock[stock := EntryStep(StockEntry(c.byStock, stock), rec)],
           c.boxFormedCount + Flag(rec.boxFormed), Mark(c.formedStocks, rec.boxFormed, stock),
           c.baseExistsCount + Flag(rec.baseCandleExists), Mark(c.existsStocks, rec.baseCandleExists, stock),
           Counters.Bump(c.sessionDistribution, Session(rec)),
           BumpAll(c.noEventReasons, rec.noEventReasons))
  }

  function CountRun(records: seq<Rec>): Counts
  {
    if records == [] then NoCounts
    else CountStep(CountRun(records[..|records| - 1]), records[|records| - 1], |records| - 1)
  }

  /** The analysis result. */
  datatype ObserverStats = ObserverStats(totalRecords: nat, counts: Counts, triggeredCycle: seq<Cycle>,
                                         triggeredCyclesCount: nat, openCyclesCount: nat)

  /** What `aggregate_observers` computes for records in timestamp order. */
  function ObserverStatsOf(records: seq<Rec>): ObserverStats
  {
    var m := Run(records);
    var cycles := m.closed + SessionEndedAll(m.open, LastTimestamp(records));
    ObserverStats(|records|, CountRun(records), cycles, |cycles|, |m.open|)
  }

  // ---------------------------------------------------------------------
  // aggregate_observers
  // ---------------------------------------------------------------------

  /** Step 4 on the open cycles. */
  method OpenOrCount(open: seq<OpenCycle>, rec: Rec, idx: nat) returns (r: seq<OpenCycle>)
    ensures r == Opened(open, rec, idx)
  {
    var stock := Stock(rec);
    var k := FindOpen(open, stock);
    if k.None? {
      r := open;
      if rec.triggered {
        r := r + [OpenCycle(stock, Timestamp(rec), idx, Session(rec), 1)];
      }
    } else {
      var c := open[k.value];
      r := open[k.value := c.(recordsInCycle := c.recordsInCycle + 1)];
    }
  }

  /** Step 5 on the open and closed cycles. */
  method CloseOnExit(open: seq<OpenCycle>, closed: seq<Cycle>, rec: Rec, idx: nat)
    returns (open': seq<OpenCycle>, closed': seq<Cycle>)
    ensures Machine(open', closed') == CloseStep(open, closed, rec, idx)
  {
    open', closed' := open, closed;
    var k := FindOpen(open, Stock(rec));
    if k.Some? {
      var exitType := SelectExitType(rec.exitType);
      if exitType.Some? {
        closed' := closed + [Closed(open[k.value], rec, idx, exitType.value)];
        open' := RemoveAt(open, k.value);
      }
    }
  }

  /** `aggregate_observers` on records already in timestamp order: walks
      the records once, counting and driving the cycle machine, then closes
      the cycles still open as session-end timeouts. */
  method AggregateObservers(records: seq<Rec>) returns (stats: ObserverStats)
    ensures stats == ObserverStatsOf(records)
  {
    var counts := NoCounts;
    var open: seq<OpenCycle> := [];
    var closed: seq<Cycle> := [];
    var i := 0;
    while i < |records|
      invariant 0 <= i <= |records|
      invariant counts == CountRun(records[..i])
      invariant Machine(open, closed) == Run(records[..i])
    {
      var rec := records[i];
      assert records[..i + 1][..i] == records[..i];
      assert CountRun(records[..i + 1]) == CountStep(CountRun(records[..i]), rec, i);
      assert Run(records[..i + 1]) == Step(Run(records[..i]), rec, i);
      counts := CountRecord(counts, rec, i);
      open := OpenOrCount(open, rec, i);
      open, closed := CloseOnExit(open, closed, rec, i);
      i := i + 1;
    }
    assert records[..i] == records;
    var lastTs := if records == [] then "" else Timestamp(records[|records| - 1]);
    var cycles := CloseAtSessionEnd(open, closed, lastTs);
    stats := ObserverStats(|records|, counts, cycles, |cycles|, |open|);
  }

  /** Step 6: the cycles still open are appended, in the order they were
      opened, as session-end timeouts. */
  method CloseAtSessionEnd(open: seq<OpenCycle>, closed: seq<Cycle>, lastTs: string) returns (cycles: seq<Cycle>)
    ensures cycles == closed + SessionEndedAll(open, lastTs)
  {
    cycles := closed;
    var j := 0;
    while j < |open|
      invariant 0 <= j <= |open|
      invariant |cycles| == |closed| + j
      invariant cycles[..|closed|] == closed
      invariant forall k :: 0 <= k < j ==> cycles[|closed| + k] == SessionEnded(open[k], lastTs)
    {
      cycles := cycles + [SessionEnded(open[j], lastTs)];
      j := j + 1;
    }
    assert cycles == closed + SessionEndedAll(open, lastTs);
  }

  /** `for reason in no_event_reasons: counter[reason] += 1`. */
  method CountReasons(counter: map<string, nat>, reasons: seq<string>) returns (r: map<string, nat>)
    ensures r == BumpAll(counter, reasons)
  {
    r := counter;
    var j := 0;
    while j < |reasons|
      invariant 0 <= j <= |reasons|
      invariant r == BumpAll(counter, reasons[..j])
    {
      assert reasons[..j + 1][..j] == reasons[..j];
      r := Counters.Bump(r, reasons[j]);
      j := j + 1;
    }
    assert reasons[..j] == reasons;
  }

  /** A stock's counters after one more of its records. */
  method CountStockEntry(e: StockCounts, rec: Rec) returns (r: StockCounts)
    ensures r == EntryStep(e, rec)
  {
    r := e.(records := e.records + 1);
    if rec.triggered {
      r := r.(triggeredRecords := r.triggeredRecords + 1);
    }
    if rec.boxFormed {
      r := r.(boxFormed := r.boxFormed + 1);
    }
    if rec.baseCandleExists {
      r := r.(baseCandleExists := r.baseCandleExists + 1);
    }
  }

  /** The trigger counters after one more record. */
  method CountTrigger(c: Counts, rec: Rec, idx: nat)
    returns (triggeredRecords: nat, triggeredStocks: set<string>, triggers: seq<Trigger>)
    ensures triggeredRecords == c.triggeredRecords + Flag(rec.triggered)
    ensures triggeredStocks == Mark(c.triggeredStocks, rec.triggered, Stock(rec))
    ensures triggers == TriggerStep(c.triggers, rec, idx)
  {
    triggeredRecords, triggeredStocks, triggers := c.triggeredRecords, c.triggeredStocks, c.triggers;
    if rec.triggered {
      triggeredRecords := triggeredRecords + 1;
      triggeredStocks := triggeredStocks + {Stock(rec)};
      if Timestamp(rec) != "" {
        triggers := triggers + [Trigger(Stock(rec), Timestamp(rec), Session(rec), idx)];
      }
    }
  }

  /** The counters of one record. */
  method CountRecord(c: Counts, rec: Rec, idx: nat) returns (r: Counts)
    ensures r == CountStep(c, rec, idx)
  {
    var stock := Stock(rec);
    var triggeredRecords, triggeredStocks, triggers := CountTrigger(c, rec, idx);
    var entry := CountStockEntry(StockEntry(c.byStock, stock), rec);
    var boxFormedCount, formedStocks := c.boxFormedCount, c.formedStocks;
    if rec.boxFormed {
      boxFormedCount, formedStocks := boxFormedCount + 1, formedStocks + {stock};
    }
    var baseExistsCount, existsStocks := c.baseExistsCount, c.existsStocks;
    if rec.baseCandleExists {
      baseExistsCount, existsStocks := baseExistsCount + 1, existsStocks + {stock};
    }
    var reasons := CountReasons(c.noEventReasons, rec.noEventReasons);
    r := Counts(triggeredRecords, triggeredStocks, triggers, c.byStock[stock := entry],
                boxFormedCount, formedStocks, baseExistsCount, existsStocks,
                Counters.Bump(c.sessionDistribution, Session(rec)), reasons);
  }

  // ---------------------------------------------------------------------
  // What the walk yields
  // ---------------------------------------------------------------------

  /** The number of triggered records, counted from the front. */
  function TriggeredCount(records: seq<Rec>): (n: nat)
    ensures n <= |records|
  {
    if records == [] then 0 else Flag(records[0].triggered) + TriggeredCount(records[1..])
  }

  lemma {:induction false} TriggeredCountSnoc(records: seq<Rec>, rec: Rec)
    ensures TriggeredCount(records + [rec]) == TriggeredCount(records) + Flag(rec.triggered)
  {
    if records != [] {
      assert (records + [rec])[1..] == records[1..] + [rec];
      TriggeredCountSnoc(records[1..], rec);
    }
  }

  /** The counters count what they say: triggered records, and the stocks
      with one. */
  lemma {:induction false} CountRunTriggers(records: seq<Rec>)
    ensures CountRun(records).triggeredRecords == TriggeredCount(records)
    ensures forall s :: s in CountRun(records).triggeredStocks <==>
      exists i :: 0 <= i < |records| && records[i].triggered && Stock(records[i]) == s
  {
    if records != [] {
      var pre := records[..|records| - 1];
      var last := records[|records| - 1];
      CountRunTriggers(pre);
      assert records == pre + [last];
      TriggeredCountSnoc(pre, last);
      forall s ensures s in CountRun(records).triggeredStocks <==>
        exists i :: 0 <= i < |records| && records[i].triggered && Stock(records[i]) == s
      {
        if s in CountRun(pre).triggeredStocks {
          var i :| 0 <= i < |pre| && pre[i].triggered && Stock(pre[i]) == s;
          assert records[i] == pre[i];
        }
        if exists i :: 0 <= i < |records| && records[i].triggered && Stock(records[i]) == s {
          var i :| 0 <= i < |records| && records[i].triggered && Stock(records[i]) == s;
          if i < |pre| {
            assert pre[i] == records[i];
          }
        }
      }
    }
  }

  /** `aggregate_observers`' totals and cycles: every record is counted,
      triggered records are counted once each, every listed cycle has one
      valid exit type, the cycles still open at the end are listed last as
      session-end timeouts, and their number is `open_cycles_count`. */
  lemma ObserverStatsFacts(records: seq<Rec>)
    ensures var st := ObserverStatsOf(records);
      st.totalRecords == |records| && st.counts.triggeredRecords == TriggeredCount(records)
      && st.triggeredCyclesCount == |st.triggeredCycle|
      && (forall i :: 0 <= i < |st.triggeredCycle| ==>
            st.triggeredCycle[i].exitType in ValidExitTypes && st.triggeredCycle[i].recordsInCycle >= 1)
      && |st.triggeredCycle| >= st.openCyclesCount
      && (forall i :: |st.triggeredCycle| - st.openCyclesCount <= i < |st.triggeredCycle| ==>
            st.triggeredCycle[i].exitType == "timeout" && st.triggeredCycle[i].endReason == Some("session_end"))
    ensures records == [] ==> ObserverStatsOf(records).triggeredCycle == []
  {
    CountRunTriggers(records);
    RunWellFormed(records);
    var m := Run(records);
    var ended := SessionEndedAll(m.open, LastTimestamp(records));
    var cycles := m.closed + ended;
    forall i | 0 <= i < |cycles|
      ensures cycles[i].exitType in ValidExitTypes && cycles[i].recordsInCycle >= 1
    {
      if i >= |m.closed| {
        assert cycles[i] == ended[i - |m.closed|];
      }
    }
  }

  /** The stocks with a cycle open at the end are distinct: no stock ever
      has two cycles open at once. */
  lemma OpenCyclesDistinct(records: seq<Rec>)
    ensures var open := Run(records).open;
      forall i, j :: 0 <= i < j < |open| ==> open[i].stock != open[j].stock
  {
    RunWellFormed(records);
  }

  // ---------------------------------------------------------------------
  // Market character
  // ---------------------------------------------------------------------

  const ActiveDescription: string := "활발한 시장: Observer 트리거 비율이 높음. 기회가 많은 날로 판단됨."
  const ModerateDescription: string := "보통 시장: 적당한 기회가 있었던 날."
  const QuietDescription: string := "조용한 시장: 기회가 적었던 날."
  const DeadDescription: string := "침체 시장: 거의 기회가 없었던 날."
  const HighBoxNote: string := " Box 형성 비율이 높아 패턴 형성이 활발함."
  const LowBoxNote: string := " Box 형성 비율이 낮아 패턴 형성이 부족함."

  /** The four characters of a market day. */
  datatype Character = Active | Moderate | Quiet | Dead
  {
    /** The label the summary writes. */
    function Name(): string
    {
      match this
      case Active => "ACTIVE"
      case Moderate => "MODERATE"
      case Quiet => "QUIET"
      case Dead => "DEAD"
    }
  }

  datatype MarketCharacter = MarketCharacter(date: string, totalScouts: nat, triggerRate: real, boxRate: real,
                                             activeStocks: nat, sessionDistribution: map<string, nat>,
                                             character: Character, description: string)

  /** A percentage of `total`, or 0 when there is nothing to divide by. */
  function Rate(part: nat, total: nat): (r: real)
    ensures total == 0 ==> r == 0.0
    ensures total > 0 ==> r * total as real == part as real * 100.0
    ensures r >= 0.0 && (part <= total ==> r <= 100.0)
  {
    if total > 0 then
      assert part <= total ==> part as real / total as real <= 1.0 by {
        Numeric.QuotientBelow(part as real, total as real, 1.0);
      }
      part as real / total as real * 100.0
    else 0.0
  }

  /** For a positive total, a rate threshold is a product test. */
  lemma RateAtLeast(part: nat, total: nat, k: real)
    requires total > 0
    ensures Rate(part, total) >= k <==> part as real * 100.0 >= k * total as real
  {
    Numeric.QuotientBelow(part as real * 100.0, total as real, k);
  }

  lemma OneInFive(a: real, b: real)
    ensures a * 100.0 >= 20.0 * b <==> a * 5.0 >= b
  {
  }

  /** The character and its description for a trigger rate. */
  function CharacterOf(triggerRate: real): (Character, string)
  {
    if triggerRate >= 20.0 then (Active, ActiveDescription)
    else if triggerRate >= 10.0 then (Moderate, ModerateDescription)
    else if triggerRate >= 5.0 then (Quiet, QuietDescription)
    else (Dead, DeadDescription)
  }

  /** The remark the box rate adds. */
  function BoxNote(boxRate: real): string
  {
    if boxRate >= 30.0 then HighBoxNote else if boxRate < 10.0 then LowBoxNote else ""
  }

  /** `generate_market_character_summary`: `None` where the source raises,
      which is when the first record has no date. */
  function GenerateMarketCharacterSummary(stats: ObserverStats, records: seq<Rec>): (r: Option<MarketCharacter>)
    ensures r.None? <==> records != [] && records[0].date.None?
    ensures r.Some? ==> (r.value.totalScouts == |records|
      && r.value.triggerRate == Rate(stats.counts.triggeredRecords, |records|)
      && r.value.boxRate == Rate(stats.counts.boxFormedCount, |records|)
      && r.value.activeStocks == |stats.counts.triggeredStocks|)
  {
    if records != [] && records[0].date.None? then None
    else
      var total := |records|;
      var triggerRate := Rate(stats.counts.triggeredRecords, total);
      var boxRate := Rate(stats.counts.boxFormedCount, total);
      var (character, description) := CharacterOf(triggerRate);
      Some(MarketCharacter(if records == [] then "" else records[0].date.value, total, triggerRate, boxRate,
                           |stats.counts.triggeredStocks|, stats.counts.sessionDistribution,
                           character, description + BoxNote(boxRate)))
  }

  /** The character follows the trigger rate's bands (at least 20 ACTIVE,
      10 MODERATE, 5 QUIET, else DEAD), and no records means rate 0 and
      DEAD. */
  lemma MarketCharacterBands(stats: ObserverStats, records: seq<Rec>)
    requires records == [] || records[0].date.Some?
    ensures var mc := GenerateMarketCharacterSummary(stats, records).value;
      (mc.character == Active <==> mc.triggerRate >= 20.0)
      && (mc.character == Moderate <==> 10.0 <= mc.triggerRate < 20.0)
      && (mc.character == Quiet <==> 5.0 <= mc.triggerRate < 10.0)
      && (mc.character == Dead <==> mc.triggerRate < 5.0)
      && (records == [] ==> mc.triggerRate == 0.0 && mc.character == Dead && mc.date == "")
  {
  }

  /** The day is ACTIVE exactly when at least one record in five
      triggered. */
  lemma ActiveOneInFive(n: nat, total: nat)
    requires total > 0
    ensures CharacterOf(Rate(n, total)).0 == Active <==> n as real * 5.0 >= total as real
  {
    RateAtLeast(n, total, 20.0);
    OneInFive(n as real, total as real);
  }

  /** With statistics that count the triggered records (as the walk's
      do, by `ObserverStatsFacts`), the trigger rate is at most 100, and
      the day is ACTIVE exactly when at least one record in five
      triggered. */
  lemma MarketCharacterOfWalk(stats: ObserverStats, records: seq<Rec>)
    requires records == [] || records[0].date.Some?
    requires stats.counts.triggeredRecords == TriggeredCount(records)
    ensures var mc := GenerateMarketCharacterSummary(stats, records).value;
      0.0 <= mc.triggerRate <= 100.0
      && (mc.character == Active <==> records != [] && TriggeredCount(records) as real * 5.0 >= |records| as real)
  {
    var mc := GenerateMarketCharacterSummary(stats, records).value;
    var n := TriggeredCount(records);
    assert mc.triggerRate == Rate(n, |records|);
    assert mc.character == CharacterOf(mc.triggerRate).0;
    if records != [] {
      ActiveOneInFive(n, |records|);
    }
  }
}
