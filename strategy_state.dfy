// The live strategy's per-stock state: where each stock is in the
// anchor-candle, box, buy and trailing-stop sequence. Each stock's state is
// a dictionary of named fields created from a fixed template. The clock
// that stamps updates is a parameter.
module StrategyState {
  /** A point in time, in seconds. */
  type Instant = int

  /** A field value: unset, a label, a price or volume, a flag or a time. */
  datatype Field = Unset | Label(text: string) | Amount(value: real) | Flag(on: bool) | At(instant: Instant)

  /** A field name: the template's sixteen, or any other name a caller
      passes to `update_state`. */
  datatype Key =
    | Stage | AnchorTime | AnchorOpen | AnchorClose | AnchorVolume
    | BoxHigh | BoxLow | BoxStartTime
    | SignalWickBear | SignalThreeBull | SignalEngulf
    | BuyPrice | BuyTime | TrailingActive | TrailingPrice | LastUpdated
    | Extra(name: string)

  type State = map<Key, Field>

  /** `_empty_state`: stage "NONE", every price and time unset, every
      signal and the trailing stop off; the template has each named field
      and no other. */
  function EmptyState(): (s: State)
    ensures forall k :: k in s <==> !k.Extra?
    ensures s[Stage] == Label("NONE") && s[LastUpdated] == Unset
    ensures forall k :: k in s && k != Stage ==> s[k] == Unset || s[k] == Flag(false)
  {
    map[
      Stage := Label("NONE"),
      AnchorTime := Unset, AnchorOpen := Unset, AnchorClose := Unset, AnchorVolume := Unset,
      BoxHigh := Unset, BoxLow := Unset, BoxStartTime := Unset,
      SignalWickBear := Flag(false), SignalThreeBull := Flag(false), SignalEngulf := Flag(false),
      BuyPrice := Unset, BuyTime := Unset,
      TrailingActive := Flag(false), TrailingPrice := Unset,
      LastUpdated := Unset]
  }

  /** The state after setting the given fields in order. */
  function Patched(s: State, updates: seq<(Key, Field)>): State
  {
    if updates == [] then s
    else Patched(s, updates[..|updates| - 1])[updates[|updates| - 1].0 := updates[|updates| - 1].1]
  }

  /** Patching keeps every field and adds the named ones; a field no update
      names keeps its value. */
  lemma {:induction false} PatchedKeeps(s: State, updates: seq<(Key, Field)>)
    ensures forall k :: k in Patched(s, updates) <==> k in s || exists i :: 0 <= i < |updates| && updates[i].0 == k
    ensures forall k :: k in s && (forall i :: 0 <= i < |updates| ==> updates[i].0 != k) ==> Patched(s, updates)[k] == s[k]
  {
    if updates != [] {
      var init := updates[..|updates| - 1];
      PatchedKeeps(s, init);
      assert forall i :: 0 <= i < |init| ==> init[i] == updates[i];
    }
  }

  /** A named field takes the value of the last update naming it. */
  lemma {:induction false} PatchedSets(s: State, updates: seq<(Key, Field)>, i: nat)
    requires i < |updates|
    requires forall j :: i < j < |updates| ==> updates[j].0 != updates[i].0
    ensures updates[i].0 in Patched(s, updates) && Patched(s, updates)[updates[i].0] == updates[i].1
  {
    if i < |updates| - 1 {
      var init := updates[..|updates| - 1];
      assert forall j :: i < j < |init| ==> init[j] == updates[j];
      PatchedSets(s, init, i);
    }
  }

  /** The stored state of a stock, or the template for an unknown one. */
  function Base(states: map<string, State>, code: string): State
  {
    if code in states then states[code] else EmptyState()
  }

  /** `dump_state` on the stored states: a marker for an unknown stock or
      an empty state, else the state as the given rendering shows it. */
  function Dump(states: map<string, State>, code: string, render: State -> string): (r: string)
    ensures code !in states ==> r == "[" + code + "] 상태 없음"
  {
    if code !in states || states[code] == map[] then "[" + code + "] 상태 없음"
    else "[" + code + "] " + render(states[code])
  }

  /** The store of all stocks' states. */
  class Store {
    var states: map<string, State>

    constructor ()
      ensures states == map[]
    {
      states := map[];
    }

    /** `get_state`: the stored state, creating the template for an unknown
        stock. */
    method GetState(code: string) returns (s: State)
      modifies this
      ensures s == Base(old(states), code)
      ensures states == old(states)[code := s]
    {
      if code !in states {
        states := states[code := EmptyState()];
      }
      s := states[code];
    }

    /** `update_state`: set the given fields, then stamp the update time;
        other stocks are untouched. */
    method UpdateState(code: string, updates: seq<(Key, Field)>, now: Instant)
      modifies this
      ensures states == old(states)[code := Patched(Base(old(states), code), updates)[LastUpdated := At(now)]]
    {
      if code !in states {
        states := states[code := EmptyState()];
      }
      var i := 0;
      while i < |updates|
        invariant i <= |updates|
        invariant states == old(states)[code := Patched(Base(old(states), code), updates[..i])]
      {
        assert updates[..i + 1][..i] == updates[..i];
        states := states[code := states[code][updates[i].0 := updates[i].1]];
        i := i + 1;
      }
      assert updates[..i] == updates;
      states := states[code := states[code][LastUpdated := At(now)]];
    }

    /** `reset_state`: the template again, for this stock only. */
    method ResetState(code: string)
      modifies this
      ensures states == old(states)[code := EmptyState()]
    {
      states := states[code := EmptyState()];
    }

    /** `reset_all_states`: no stock has a state. */
    method ResetAllStates()
      modifies this
      ensures states == map[]
    {
      states := map[];
    }

    function DumpState(code: string, render: State -> string): string
      reads this
    {
      Dump(states, code, render)
    }
  }

  /** After an update the named fields hold their last given values, the
      update time is stamped, and every other field is what it was before
      (or the template's, for a new stock). */
  lemma UpdateRule(states: map<string, State>, code: string, updates: seq<(Key, Field)>, now: Instant, k: Key)
    requires k in Base(states, code) && k != LastUpdated
    ensures var after := Patched(Base(states, code), updates)[LastUpdated := At(now)];
      after[LastUpdated] == At(now)
      && k in after
      && ((forall i :: 0 <= i < |updates| ==> updates[i].0 != k) ==> after[k] == Base(states, code)[k])
  {
    PatchedKeeps(Base(states, code), updates);
  }
}
