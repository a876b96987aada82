// The base-candle observer: it records whether the base candle was
// confirmed, when, and whether a new high or low followed it. It reacts to
// the text tags "BASE_CANDLE_CONFIRMED" and "BASE_CANDLE_HIGH_LOW_UPDATED"
// and ignores every other event.
module BaseCandle {
  import opened Wrappers
  import opened EngineEvents

  datatype State = State(formed: bool, confirmedTime: Option<Time>, highLowUpdated: bool)

  /** The state after construction and after `reset`. */
  const Initial: State := State(false, None, false)

  /** What `get_record` reports. */
  datatype Record = Record(formed: bool, confirmedTime: Option<string>, highLowUpdated: bool)

  predicate Confirms(e: Event)
  {
    IsNamed(e, "BASE_CANDLE_CONFIRMED")
  }

  predicate UpdatesHighLow(e: Event)
  {
    IsNamed(e, "BASE_CANDLE_HIGH_LOW_UPDATED")
  }

  /** The effect of one event on the state. */
  function Step(s: State, e: Event): State
  {
    if Confirms(e) then s.(formed := true, confirmedTime := e.time)
    else if UpdatesHighLow(e) then s.(highLowUpdated := true)
    else s
  }

  /** The state after a sequence of events. */
  function Run(s: State, es: seq<Event>): State
  {
    if es == [] then s else Step(Run(s, es[..|es| - 1]), es[|es| - 1])
  }

  /** The record shows the flags as they are and the time as HH:MM. */
  function RecordOf(s: State): (r: Record)
    ensures r.formed == s.formed && r.highLowUpdated == s.highLowUpdated
    ensures r.confirmedTime.Some? <==> s.confirmedTime.Some?
    ensures r.confirmedTime.Some? ==> r.confirmedTime.value == HourMinute(s.confirmedTime.value)
  {
    Record(s.formed, ShowTime(s.confirmedTime), s.highLowUpdated)
  }

  /** A confirmation sets the flag and takes the event's time (none when
      the event has none); a high/low update sets only its own flag; any
      other event, an enumeration-typed one included, changes nothing.
      Delivering the same event twice is the same as delivering it once. */
  lemma StepRule(s: State, e: Event)
    ensures Confirms(e) ==> Step(s, e) == State(true, e.time, s.highLowUpdated)
    ensures UpdatesHighLow(e) ==> Step(s, e) == State(s.formed, s.confirmedTime, true)
    ensures !Confirms(e) && !UpdatesHighLow(e) ==> Step(s, e) == s
    ensures e.kind.Some? && e.kind.value.Member? ==> Step(s, e) == s
    ensures Step(Step(s, e), e) == Step(s, e)
  {
  }

  /** After a run of events from the initial state, the candle is formed
      exactly when some event confirmed it, its time is that of the last
      confirmation, and the high/low flag is set exactly when some event
      updated it. */
  lemma {:induction false} RunRule(es: seq<Event>)
    ensures Run(Initial, es).formed <==> exists i :: 0 <= i < |es| && Confirms(es[i])
    ensures Run(Initial, es).confirmedTime == (if Last(es, Confirms).Some? then Last(es, Confirms).value.time else None)
    ensures Run(Initial, es).highLowUpdated <==> exists i :: 0 <= i < |es| && UpdatesHighLow(es[i])
  {
    LastRule(es, Confirms);
    LastRule(es, UpdatesHighLow);
    if es != [] {
      var init := es[..|es| - 1];
      RunRule(init);
      LastRule(init, Confirms);
      LastRule(init, UpdatesHighLow);
      assert forall i :: 0 <= i < |init| ==> init[i] == es[i];
    }
  }

  /** The observer object, its three fields updated by `on_event` and
      `reset`. */
  class BaseCandleObserver {
    var formed: bool
    var confirmedTime: Option<Time>
    var highLowUpdated: bool

    function Snapshot(): State
      reads this
    {
      State(formed, confirmedTime, highLowUpdated)
    }

    constructor ()
      ensures Snapshot() == Initial
    {
      formed, confirmedTime, highLowUpdated := false, None, false;
    }

    method OnEvent(e: Event)
      modifies this
      ensures Snapshot() == Step(old(Snapshot()), e)
    {
      if e.kind == Some(Named("BASE_CANDLE_CONFIRMED")) {
        formed := true;
        confirmedTime := e.time;
      } else if e.kind == Some(Named("BASE_CANDLE_HIGH_LOW_UPDATED")) {
        highLowUpdated := true;
      }
    }

    function GetRecord(): Record
      reads this
    {
      RecordOf(Snapshot())
    }

    method Reset()
      modifies this
      ensures Snapshot() == Initial
    {
      formed, confirmedTime, highLowUpdated := false, None, false;
    }
  }
}
