// The volume observer: it records whether a volume spike occurred and
// when. It reacts to the text tag "VOLUME_SPIKE" and ignores every other
// event, the enumeration member VOLUME_SPIKE included.
module Volume {
  import opened Wrappers
  import opened EngineEvents

  datatype State = State(occurred: bool, time: Option<Time>)

  /** The state after construction and after `reset`. */
  const Initial: State := State(false, None)

  /** What `get_record` reports. */
  datatype Record = Record(occurred: bool, time: Option<string>)

  predicate Spikes(e: Event)
  {
    IsNamed(e, "VOLUME_SPIKE")
  }

  /** The effect of one event on the state. */
  function Step(s: State, e: Event): State
  {
    if Spikes(e) then State(true, e.time) else s
  }

  /** The state after a sequence of events. */
  function Run(s: State, es: seq<Event>): State
  {
    if es == [] then s else Step(Run(s, es[..|es| - 1]), es[|es| - 1])
  }

  /** The record shows the flag as it is and the time as HH:MM. */
  function RecordOf(s: State): (r: Record)
    ensures r.occurred == s.occurred
    ensures r.time.Some? <==> s.time.Some?
    ensures r.time.Some? ==> r.time.value == HourMinute(s.time.value)
  {
    Record(s.occurred, ShowTime(s.time))
  }

  /** A spike sets the flag and takes the event's time; any other event,
      the enumeration member VOLUME_SPIKE included, changes nothing.
      Delivering the same event twice is the same as delivering it once. */
  lemma StepRule(s: State, e: Event)
    ensures Spikes(e) ==> Step(s, e) == State(true, e.time)
    ensures !Spikes(e) ==> Step(s, e) == s
    ensures IsMember(e, VolumeSpike) ==> Step(s, e) == s
    ensures Step(Step(s, e), e) == Step(s, e)
  {
  }

  /** After a run of events from the initial state, a spike occurred
      exactly when some event was one, and the time is that of the last. */
  lemma {:induction false} RunRule(es: seq<Event>)
    ensures Run(Initial, es).occurred <==> exists i :: 0 <= i < |es| && Spikes(es[i])
    ensures Run(Initial, es).time == (if Last(es, Spikes).Some? then Last(es, Spikes).value.time else None)
  {
    LastRule(es, Spikes);
    if es != [] {
      var init := es[..|es| - 1];
      RunRule(init);
      LastRule(init, Spikes);
      assert forall i :: 0 <= i < |init| ==> init[i] == es[i];
    }
  }

  /** The observer object, its two fields updated by `on_event` and
      `reset`. */
  class VolumeObserver {
    var occurred: bool
    var time: Option<Time>

    function Snapshot(): State
      reads this
    {
      State(occurred, time)
    }

    constructor ()
      ensures Snapshot() == Initial
    {
      occurred, time := false, None;
    }

    method OnEvent(e: Event)
      modifies this
      ensures Snapshot() == Step(old(Snapshot()), e)
    {
      if e.kind == Some(Named("VOLUME_SPIKE")) {
        occurred := true;
        time := e.time;
      }
    }

    function GetRecord(): Record
      reads this
    {
      RecordOf(Snapshot())
    }

    method Reset()
      modifies this
      ensures Snapshot() == Initial
    {
      occurred, time := false, None;
    }
  }
}
