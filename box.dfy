// The box observer: it records whether a price box formed, how long it
// lasted and how often it was touched. It reacts to the enumeration members
// BOX_FORMED and BOX_UPDATED and ignores every other event.
module Box {
  import opened Wrappers
  import opened EngineEvents

  datatype State = State(formed: bool, duration: Option<string>, touchCount: Option<string>)

  /** The state after construction and after `reset`. */
  const Initial: State := State(false, None, None)

  predicate Forms(e: Event)
  {
    IsMember(e, BoxFormed)
  }

  predicate Updates(e: Event)
  {
    IsMember(e, BoxUpdated)
  }

  /** The effect of one event on the state. */
  function Step(s: State, e: Event): State
  {
    if Forms(e) then s.(formed := true, duration := e.duration)
    else if Updates(e) then s.(touchCount := e.touchCount)
    else s
  }

  /** The state after a sequence of events. */
  function Run(s: State, es: seq<Event>): State
  {
    if es == [] then s else Step(Run(s, es[..|es| - 1]), es[|es| - 1])
  }

  /** A formation sets the flag and takes the event's duration; an update
      takes only the event's touch count and leaves the flag alone; any
      other event, a text-tagged one included, changes nothing. Delivering
      the same event twice is the same as delivering it once. */
  lemma StepRule(s: State, e: Event)
    ensures Forms(e) ==> Step(s, e) == State(true, e.duration, s.touchCount)
    ensures Updates(e) ==> Step(s, e) == State(s.formed, s.duration, e.touchCount)
    ensures !Forms(e) && !Updates(e) ==> Step(s, e) == s
    ensures e.kind.Some? && e.kind.value.Named? ==> Step(s, e) == s
    ensures Step(Step(s, e), e) == Step(s, e)
  {
  }

  /** After a run of events from the initial state, the box is formed
      exactly when some event formed it; the duration is that of the last
      formation and the touch count that of the last update. */
  lemma {:induction false} RunRule(es: seq<Event>)
    ensures Run(Initial, es).formed <==> exists i :: 0 <= i < |es| && Forms(es[i])
    ensures Run(Initial, es).duration == (if Last(es, Forms).Some? then Last(es, Forms).value.duration else None)
    ensures Run(Initial, es).touchCount == (if Last(es, Updates).Some? then Last(es, Updates).value.touchCount else None)
  {
    LastRule(es, Forms);
    if es != [] {
      var init := es[..|es| - 1];
      RunRule(init);
      LastRule(init, Forms);
      assert forall i :: 0 <= i < |init| ==> init[i] == es[i];
    }
  }

  /** The observer object, its three fields updated by `on_event` and
      `reset`. Its record is the state itself. */
  class BoxObserver {
    var formed: bool
    var duration: Option<string>
    var touchCount: Option<string>

    function Snapshot(): State
      reads this
    {
      State(formed, duration, touchCount)
    }

    constructor ()
      ensures Snapshot() == Initial
    {
      formed, duration, touchCount := false, None, None;
    }

    method OnEvent(e: Event)
      modifies this
      ensures Snapshot() == Step(old(Snapshot()), e)
    {
      if e.kind == Some(Member(BoxFormed)) {
        formed := true;
        duration := e.duration;
      } else if e.kind == Some(Member(BoxUpdated)) {
        touchCount := e.touchCount;
      }
    }

    function GetRecord(): State
      reads this
    {
      Snapshot()
    }

    method Reset()
      modifies this
      ensures Snapshot() == Initial
    {
      formed, duration, touchCount := false, None, None;
    }
  }
}
