// The live account state the strategy reads: the orderable cash, capped at
// the strategy's limit, and the holdings the broker reports. The broker's
// answers and the cap are parameters of the constructor and of `Refresh`.
module LiveAccount {

  /** One holding: its quantity and average purchase price. */
  datatype Position = Position(qty: int, avgPrice: real)

  class AccountState {
    var cash: int
    var holdings: map<string, Position>

    /** `__init__`: starts empty, then refreshes. */
    constructor (rawCash: int, reported: map<string, Position>, maxCash: int)
      ensures cash == (if rawCash <= maxCash then rawCash else maxCash)
      ensures cash <= maxCash
      ensures holdings == reported
    {
      cash := 0;
      holdings := map[];
      cash := if rawCash <= maxCash then rawCash else maxCash;
      holdings := reported;
    }

    /** `refresh`: the reported cash capped at `maxCash`, and the reported
        holdings. */
    method Refresh(rawCash: int, reported: map<string, Position>, maxCash: int)
      modifies this
      ensures cash == (if rawCash <= maxCash then rawCash else maxCash)
      ensures cash <= maxCash && (cash == rawCash || cash == maxCash)
      ensures holdings == reported
    {
      cash := if rawCash <= maxCash then rawCash else maxCash;
      holdings := reported;
    }

    /** `has_position`. */
    predicate HasPosition(symbol: string)
      reads this
    {
      symbol in holdings
    }

    /** `position_qty`: the held quantity, 0 for a symbol not held. */
    function PositionQty(symbol: string): (q: int)
      reads this
      ensures !HasPosition(symbol) ==> q == 0
      ensures HasPosition(symbol) ==> q == holdings[symbol].qty
    {
      if symbol !in holdings then 0 else holdings[symbol].qty
    }

    /** `holding_count`: the number of symbols held. */
    function HoldingCount(): (n: nat)
      reads this
      ensures n == |holdings.Keys|
      ensures n == 0 <==> forall s :: !HasPosition(s)
    {
      forall s | s in holdings ensures |holdings.Keys| > 0 {
        assert s in holdings.Keys;
      }
      assert |holdings.Keys| > 0 ==> exists s :: HasPosition(s) by {
        if |holdings.Keys| > 0 {
          var s :| s in holdings.Keys;
          assert HasPosition(s);
        }
      }
      |holdings.Keys|
    }
  }
}
