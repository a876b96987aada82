// The observer registry: the observers in registration order, each event
// delivered to all of them, their records collected under their class
// names, and all of them reset together. The same observer object may be
// registered more than once.
module ObserverRegistry {
  import opened Wrappers
  import opened EngineEvents
  import BaseCandle
  import Box
  import Volume

  /** A registered observer, of one of the three kinds. */
  datatype Entry =
    | BaseCandleEntry(baseCandle: BaseCandle.BaseCandleObserver)
    | BoxEntry(box: Box.BoxObserver)
    | VolumeEntry(volume: Volume.VolumeObserver)

  /** The state of an observer of any kind. */
  datatype AnyState =
    | BaseCandleState(baseCandle: BaseCandle.State)
    | BoxState(box: Box.State)
    | VolumeState(volume: Volume.State)

  /** The record of an observer of any kind. */
  datatype AnyRecord =
    | BaseCandleRecord(baseCandle: BaseCandle.Record)
    | BoxRecord(box: Box.State)
    | VolumeRecord(volume: Volume.Record)

  function ObjectOf(en: Entry): object
  {
    match en
    case BaseCandleEntry(o) => o
    case BoxEntry(o) => o
    case VolumeEntry(o) => o
  }

  /** The class name the records are keyed by. */
  function ClassName(en: Entry): string
  {
    match en
    case BaseCandleEntry(_) => "BaseCandleObserver"
    case BoxEntry(_) => "BoxObserver"
    case VolumeEntry(_) => "VolumeObserver"
  }

  function StateOf(en: Entry): AnyState
    reads ObjectOf(en)
  {
    match en
    case BaseCandleEntry(o) => BaseCandleState(o.Snapshot())
    case BoxEntry(o) => BoxState(o.Snapshot())
    case VolumeEntry(o) => VolumeState(o.Snapshot())
  }

  /** The effect of one event on an observer of any kind. */
  function StepAny(s: AnyState, e: Event): AnyState
  {
    match s
    case BaseCandleState(b) => BaseCandleState(BaseCandle.Step(b, e))
    case BoxState(b) => BoxState(Box.Step(b, e))
    case VolumeState(v) => VolumeState(Volume.Step(v, e))
  }

  /** The reset state of an observer of the same kind. */
  function InitialLike(s: AnyState): AnyState
  {
    match s
    case BaseCandleState(_) => BaseCandleState(BaseCandle.Initial)
    case BoxState(_) => BoxState(Box.Initial)
    case VolumeState(_) => VolumeState(Volume.Initial)
  }

  function RecordOf(s: AnyState): AnyRecord
  {
    match s
    case BaseCandleState(b) => BaseCandleRecord(BaseCandle.RecordOf(b))
    case BoxState(b) => BoxRecord(b)
    case VolumeState(v) => VolumeRecord(Volume.RecordOf(v))
  }

  /** Every kind of observer ignores a repeated delivery of the same event,
      so an observer registered twice ends as if it had been sent the event
      once; and every event keeps an observer's kind. */
  lemma StepAnyIdempotent(s: AnyState, e: Event)
    ensures StepAny(StepAny(s, e), e) == StepAny(s, e)
    ensures InitialLike(StepAny(s, e)) == InitialLike(s)
  {
    match s {
      case BaseCandleState(b) => BaseCandle.StepRule(b, e);
      case BoxState(b) => Box.StepRule(b, e);
      case VolumeState(v) => Volume.StepRule(v, e);
    }
  }

  /** The dictionary comprehension over (class name, record) pairs: a later
      pair overwrites an earlier one with the same name. */
  function Collect(named: seq<(string, AnyRecord)>): map<string, AnyRecord>
  {
    if named == [] then map[]
    else Collect(named[..|named| - 1])[named[|named| - 1].0 := named[|named| - 1].1]
  }

  /** The collected names are exactly the class names present. */
  lemma {:induction false} CollectKeys(named: seq<(string, AnyRecord)>)
    ensures forall k :: k in Collect(named) <==> exists i :: 0 <= i < |named| && named[i].0 == k
  {
    if named != [] {
      var init := named[..|named| - 1];
      CollectKeys(init);
      assert forall i :: 0 <= i < |init| ==> init[i] == named[i];
    }
  }

  /** Each name maps to the record of the last pair with that name, so
      observers of one class collapse to the last registered. */
  lemma {:induction false} CollectLastWins(named: seq<(string, AnyRecord)>, i: nat)
    requires i < |named|
    requires forall j :: i < j < |named| ==> named[j].0 != named[i].0
    ensures named[i].0 in Collect(named) && Collect(named)[named[i].0] == named[i].1
  {
    if i < |named| - 1 {
      var init := named[..|named| - 1];
      assert forall j :: i < j < |init| ==> init[j] == named[j];
      CollectLastWins(init, i);
    }
  }

  /** Entries holding the same object are the same entry: an object has
      one class. */
  lemma SameObjectSameEntry(a: Entry, b: Entry)
    requires ObjectOf(a) == ObjectOf(b)
    ensures a == b
  {
  }

  /** One observer's `on_event`. */
  method Deliver(en: Entry, e: Event)
    modifies ObjectOf(en)
    ensures StateOf(en) == StepAny(old(StateOf(en)), e)
  {
    match en {
      case BaseCandleEntry(o) => o.OnEvent(e);
      case BoxEntry(o) => o.OnEvent(e);
      case VolumeEntry(o) => o.OnEvent(e);
    }
  }

  class ObserverRegistry {
    var observers: seq<Entry>

    /** The observer objects, the only things dispatch and reset change. */
    function Objects(): set<object>
      reads this
    {
      set en | en in observers :: ObjectOf(en)
    }

    constructor ()
      ensures observers == []
    {
      observers := [];
    }

    /** `register`: append, keeping registration order. */
    method Register(en: Entry)
      modifies this
      ensures observers == old(observers) + [en]
    {
      observers := observers + [en];
    }

    /** `dispatch`: every registered observer takes the event, in
        registration order; nothing but the observers changes. */
    method Dispatch(e: Event)
      modifies Objects()
      ensures forall j :: 0 <= j < |observers| ==> StateOf(observers[j]) == StepAny(old(StateOf(observers[j])), e)
    {
      var i := 0;
      while i < |observers|
        invariant i <= |observers| && observers == old(observers)
        invariant forall j :: 0 <= j < |observers| ==>
          StateOf(observers[j]) == old(StateOf(observers[j])) || StateOf(observers[j]) == StepAny(old(StateOf(observers[j])), e)
        invariant forall j :: 0 <= j < i ==> StateOf(observers[j]) == StepAny(old(StateOf(observers[j])), e)
      {
        var en := observers[i];
        assert ObjectOf(en) in Objects();
        StepAnyIdempotent(old(StateOf(en)), e);
        Deliver(en, e);
        forall j | 0 <= j < |observers| && ObjectOf(observers[j]) == ObjectOf(en)
          ensures StateOf(observers[j]) == StepAny(old(StateOf(observers[j])), e)
        {
          SameObjectSameEntry(observers[j], en);
        }
        i := i + 1;
      }
    }

    /** The (class name, record) pairs in registration order. */
    function Named(): seq<(string, AnyRecord)>
      reads this, Objects()
    {
      seq(|observers|, j reads this, Objects() requires 0 <= j < |observers| =>
        (ClassName(observers[j]), RecordOf(StateOf(observers[j]))))
    }

    /** `collect_records`: the records keyed by class name. */
    function CollectRecords(): map<string, AnyRecord>
      reads this, Objects()
    {
      Collect(Named())
    }

    /** `reset_all`: every registered observer returns to its initial
        state; nothing but the observers changes. */
    method ResetAll()
      modifies Objects()
      ensures forall j :: 0 <= j < |observers| ==> StateOf(observers[j]) == InitialLike(old(StateOf(observers[j])))
    {
      var i := 0;
      while i < |observers|
        invariant i <= |observers| && observers == old(observers)
        invariant forall j :: 0 <= j < |observers| ==>
          StateOf(observers[j]) == old(StateOf(observers[j])) || StateOf(observers[j]) == InitialLike(old(StateOf(observers[j])))
        invariant forall j :: 0 <= j < i ==> StateOf(observers[j]) == InitialLike(old(StateOf(observers[j])))
      {
        var en := observers[i];
        assert ObjectOf(en) in Objects();
        match en {
          case BaseCandleEntry(o) => o.Reset();
          case BoxEntry(o) => o.Reset();
          case VolumeEntry(o) => o.Reset();
        }
        i := i + 1;
      }
    }
  }
}
