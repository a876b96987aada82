// The condition-search store: the stocks the broker's condition search
// currently lists and when each of them entered it. The system clock, which
// the source reads on every call, is a parameter.
module ConditionStore {
  import opened Wrappers

  /** A point in time, in seconds. */
  type Instant = int

  function SetOf(list: seq<string>): set<string>
  {
    set s | s in list
  }

  /** The entry times after a sync to `list` at `now`: stocks that stay keep
      their time, new ones get `now`, and the others lose theirs. */
  function Synced(target: set<string>, times: map<string, Instant>, list: seq<string>, now: Instant): map<string, Instant>
  {
    map s | s in SetOf(list) :: if s in target && s in times then times[s] else now
  }

  /** A sync lists exactly the given stocks, each with an entry time;
      a stock that stays keeps its time and a stock that enters gets the
      current one. */
  lemma SyncedRule(target: set<string>, times: map<string, Instant>, list: seq<string>, now: Instant)
    requires times.Keys == target
    ensures Synced(target, times, list, now).Keys == SetOf(list)
    ensures forall s :: s in list && s in target ==> Synced(target, times, list, now)[s] == times[s]
    ensures forall s :: s in list && s !in target ==> Synced(target, times, list, now)[s] == now
  {
  }

  /** The store, its two collections updated in place. */
  class Store {
    var targetStocks: set<string>
    var enterTime: map<string, Instant>

    /** Every listed stock has an entry time, and only they do. */
    predicate Valid()
      reads this
    {
      enterTime.Keys == targetStocks
    }

    constructor ()
      ensures Valid() && targetStocks == {} && enterTime == map[]
    {
      targetStocks, enterTime := {}, map[];
    }

    /** `set_stocks`: record the entry time of the new stocks, drop the
        times of the stocks that left, and list exactly the given ones. */
    method SetStocks(list: seq<string>, now: Instant)
      requires Valid()
      modifies this
      ensures Valid()
      ensures targetStocks == SetOf(list)
      ensures enterTime == Synced(old(targetStocks), old(enterTime), list, now)
    {
      var i := 0;
      while i < |list|
        invariant i <= |list| && targetStocks == old(targetStocks)
        invariant enterTime.Keys == targetStocks + SetOf(list[..i])
        invariant forall s :: s in targetStocks ==> enterTime[s] == old(enterTime)[s]
        invariant forall s :: s in SetOf(list[..i]) && s !in targetStocks ==> enterTime[s] == now
      {
        assert list[..i + 1] == list[..i] + [list[i]];
        if list[i] !in targetStocks {
          enterTime := enterTime[list[i] := now];
        }
        i := i + 1;
      }
      assert list[..i] == list;
      var removed := targetStocks - SetOf(list);
      var gone: set<string> := {};
      while removed != {}
        invariant targetStocks == old(targetStocks)
        invariant removed !! gone && removed + gone == targetStocks - SetOf(list)
        invariant enterTime.Keys == targetStocks + SetOf(list) - gone
        invariant forall s :: s in enterTime && s in targetStocks ==> enterTime[s] == old(enterTime)[s]
        invariant forall s :: s in enterTime && s !in targetStocks ==> enterTime[s] == now
        decreases removed
      {
        var s :| s in removed;
        enterTime := enterTime - {s};
        removed, gone := removed - {s}, gone + {s};
      }
      ghost var synced := Synced(targetStocks, old(enterTime), list, now);
      assert enterTime.Keys == synced.Keys;
      assert forall s :: s in enterTime ==> enterTime[s] == synced[s];
      targetStocks := SetOf(list);
    }

    /** `add_stock`: a new stock is listed with the current time; a listed
        one keeps its time. */
    method AddStock(code: string, now: Instant)
      requires Valid()
      modifies this
      ensures Valid()
      ensures targetStocks == old(targetStocks) + {code}
      ensures enterTime == if code in old(targetStocks) then old(enterTime) else old(enterTime)[code := now]
    {
      if code !in targetStocks {
        targetStocks := targetStocks + {code};
        enterTime := enterTime[code := now];
      }
    }

    /** `remove_stock`: the stock and its time are gone; others stay. */
    method RemoveStock(code: string)
      requires Valid()
      modifies this
      ensures Valid()
      ensures targetStocks == old(targetStocks) - {code} && enterTime == old(enterTime) - {code}
    {
      targetStocks := targetStocks - {code};
      enterTime := enterTime - {code};
    }

    method ClearStocks()
      modifies this
      ensures Valid() && targetStocks == {} && enterTime == map[]
    {
      targetStocks, enterTime := {}, map[];
    }

    /** `get_enter_time`: the stock's entry time, if listed. */
    function GetEnterTime(code: string): (t: Option<Instant>)
      requires Valid()
      reads this
      ensures t.Some? <==> code in targetStocks
    {
      if code in enterTime then Some(enterTime[code]) else None
    }
  }
}
