// The scan watchlist: a fixed list of three stocks followed by a dynamic
// list of at most three more, which stocks join and leave at run time.
module WatchlistStore {
  import Text

  const FixedWatchlist: seq<string> := ["005930", "000660", "035420"]

  /** The most stocks the dynamic list takes. */
  const DynamicCap: nat := 3

  /** `add_stock` on the dynamic list: append when absent and not full. */
  function Added(dynamic: seq<string>, code: string): seq<string>
  {
    if code !in dynamic && |dynamic| < DynamicCap then dynamic + [code] else dynamic
  }

  /** `list.remove`: drop the first occurrence, if any. */
  function Removed(dynamic: seq<string>, code: string): seq<string>
  {
    if dynamic == [] then []
    else if dynamic[0] == code then dynamic[1..]
    else [dynamic[0]] + Removed(dynamic[1..], code)
  }

  /** What `add_stock` keeps true: at most three stocks, none twice. */
  predicate Capped(dynamic: seq<string>)
  {
    |dynamic| <= DynamicCap && Text.NoDups(dynamic)
  }

  /** A stock is added exactly when it is absent and there is room, and
      then at the end; adding keeps the list capped. */
  lemma AddedRule(dynamic: seq<string>, code: string)
    ensures Added(dynamic, code) != dynamic <==> code !in dynamic && |dynamic| < DynamicCap
    ensures Added(dynamic, code) != dynamic ==> Added(dynamic, code) == dynamic + [code]
    ensures code in Added(dynamic, code) <==> code in dynamic || |dynamic| < DynamicCap
    ensures Capped(dynamic) ==> Capped(Added(dynamic, code))
  {
    if Capped(dynamic) && code !in dynamic && |dynamic| < DynamicCap {
      Text.NoDupsSnoc(dynamic, code);
    }
  }

  /** Removing takes exactly one occurrence away when there is one and
      changes nothing otherwise. */
  lemma {:induction false} RemovedCount(dynamic: seq<string>, code: string)
    ensures multiset(Removed(dynamic, code)) == multiset(dynamic) - multiset{code}
    ensures code !in dynamic ==> Removed(dynamic, code) == dynamic
  {
    if dynamic != [] {
      var head, tail := dynamic[0], dynamic[1..];
      RemovedCount(tail, code);
      assert multiset(dynamic) == multiset{head} + multiset(tail) by {
        assert dynamic == [head] + tail;
      }
      if head != code {
        assert Removed(dynamic, code) == [head] + Removed(tail, code);
        assert multiset(Removed(dynamic, code)) == multiset{head} + multiset(Removed(tail, code));
        assert code !in dynamic ==> code !in tail;
      }
    }
  }

  /** Removing a present stock cuts out its first occurrence and keeps the
      rest in order. */
  lemma {:induction false} RemovedSlice(dynamic: seq<string>, code: string)
    requires code in dynamic
    ensures var k := Text.FirstIndex(dynamic, code);
      Removed(dynamic, code) == dynamic[..k] + dynamic[k + 1..]
  {
    if dynamic[0] != code {
      var tail := dynamic[1..];
      assert code in tail by {
        var k := Text.FirstIndex(dynamic, code);
        assert tail[k - 1] == code;
      }
      RemovedSlice(tail, code);
      var k := Text.FirstIndex(tail, code);
      assert Text.FirstIndex(dynamic, code) == k + 1;
      assert dynamic[..k + 1] == [dynamic[0]] + tail[..k];
      assert dynamic[k + 2..] == tail[k + 1..];
    }
  }

  /** Cutting one element out of a duplicate-free list leaves it
      duplicate-free and without that element. */
  lemma CutNoDups(xs: seq<string>, k: nat)
    requires Text.NoDups(xs) && k < |xs|
    ensures Text.NoDups(xs[..k] + xs[k + 1..]) && xs[k] !in xs[..k] + xs[k + 1..]
  {
    var r := xs[..k] + xs[k + 1..];
    forall i | 0 <= i < |r| ensures r[i] == xs[if i < k then i else i + 1] {
    }
  }

  /** Removing keeps the list capped, and the stock is then gone. */
  lemma RemovedCapped(dynamic: seq<string>, code: string)
    requires Capped(dynamic)
    ensures Capped(Removed(dynamic, code)) && code !in Removed(dynamic, code)
  {
    RemovedCount(dynamic, code);
    if code in dynamic {
      RemovedSlice(dynamic, code);
      var k := Text.FirstIndex(dynamic, code);
      CutNoDups(dynamic, k);
      assert |Removed(dynamic, code)| == |dynamic| - 1;
    }
  }

  /** `add_stock` looks only at the dynamic list, so a fixed stock added to
      it is listed twice by `get_watchlist`. */
  lemma FixedStockListedTwice()
    ensures var w := FixedWatchlist + Added([], "005930"); |w| == 4 && w[0] == w[3] == "005930"
  {
  }

  /** The store, its dynamic list updated in place. */
  class Store {
    var dynamic: seq<string>

    constructor ()
      ensures dynamic == []
    {
      dynamic := [];
    }

    /** `get_watchlist`: the three fixed stocks, then the dynamic ones. */
    function GetWatchlist(): (w: seq<string>)
      reads this
      ensures |w| == |FixedWatchlist| + |dynamic|
      ensures w[..|FixedWatchlist|] == FixedWatchlist && w[|FixedWatchlist|..] == dynamic
    {
      FixedWatchlist + dynamic
    }

    method AddStock(code: string)
      modifies this
      ensures dynamic == Added(old(dynamic), code)
      ensures Capped(old(dynamic)) ==> Capped(dynamic)
    {
      AddedRule(dynamic, code);
      if code !in dynamic && |dynamic| < DynamicCap {
        dynamic := dynamic + [code];
      }
    }

    method RemoveStock(code: string)
      modifies this
      ensures dynamic == Removed(old(dynamic), code)
      ensures Capped(old(dynamic)) ==> Capped(dynamic) && code !in dynamic
    {
      RemovedCount(dynamic, code);
      if Capped(dynamic) {
        RemovedCapped(dynamic, code);
      }
      if code in dynamic {
        dynamic := Removed(dynamic, code);
      }
    }

    method ClearDynamic()
      modifies this
      ensures dynamic == []
    {
      dynamic := [];
    }
  }
}
