// The events the replay engine hands to the observers. An event's type is
// either a member of the engine's event-type enumeration or a plain text
// tag; the two never compare equal, so an observer that waits for the text
// "VOLUME_SPIKE" does not react to the enumeration member of that name.
module EngineEvents {
  import opened Wrappers
  import Text

  /** The engine's event-type enumeration. */
  datatype EventType =
    | VolumeSpike
    | BaseCandleConfirmed
    | BaseCandleHighLowUpdated
    | BoxFormed
    | BoxUpdated
    | BreakoutOccurred
    | BreakoutFailed
    | EnvSnapshot

  /** The value under an event's "type" key. */
  datatype Tag = Named(name: string) | Member(member: EventType)

  type Hour = h: nat | h < 24
  type Minute = m: nat | m < 60

  /** A time of day as the observers keep it; only hour and minute are
      ever shown. */
  datatype Time = Time(hour: Hour, minute: Minute)

  /** An event: its type and the optional values some observers read. */
  datatype Event = Event(kind: Option<Tag>, time: Option<Time>, duration: Option<string>, touchCount: Option<string>)

  predicate IsNamed(e: Event, name: string)
  {
    e.kind == Some(Named(name))
  }

  predicate IsMember(e: Event, t: EventType)
  {
    e.kind == Some(Member(t))
  }

  /** `strftime("%H:%M")`: two digits, a colon, two digits. */
  function HourMinute(t: Time): (r: string)
    ensures |r| == 5 && r[2] == ':'
    ensures r[0] == ('0' as int + t.hour / 10) as char && r[1] == ('0' as int + t.hour % 10) as char
    ensures r[3] == ('0' as int + t.minute / 10) as char && r[4] == ('0' as int + t.minute % 10) as char
  {
    Text.Pad2Digits(t.hour);
    Text.Pad2Digits(t.minute);
    Text.Pad2(t.hour) + ":" + Text.Pad2(t.minute)
  }

  /** A time shown as HH:MM, or none when unset. */
  function ShowTime(t: Option<Time>): (r: Option<string>)
    ensures r.Some? <==> t.Some?
    ensures r.Some? ==> |r.value| == 5 && r.value[2] == ':'
  {
    if t.Some? then Some(HourMinute(t.value)) else None
  }

  /** The last event of a sequence that satisfies `p`, if any. */
  function Last(es: seq<Event>, p: Event -> bool): Option<Event>
  {
    if es == [] then None
    else if p(es[|es| - 1]) then Some(es[|es| - 1])
    else Last(es[..|es| - 1], p)
  }

  /** `Last` finds an event exactly when one satisfies `p`, and what it
      finds is such an event, with none satisfying `p` after it. */
  lemma {:induction false} LastRule(es: seq<Event>, p: Event -> bool)
    ensures Last(es, p).Some? <==> exists i :: 0 <= i < |es| && p(es[i])
    ensures Last(es, p).Some? ==>
      exists i :: 0 <= i < |es| && es[i] == Last(es, p).value && p(es[i])
                  && forall j :: i < j < |es| ==> !p(es[j])
  {
    if es != [] && !p(es[|es| - 1]) {
      var init := es[..|es| - 1];
      LastRule(init, p);
      assert forall i :: 0 <= i < |init| ==> init[i] == es[i];
    }
  }
}
