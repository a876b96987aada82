// The holdings book of the test trader: quantity and buy price by stock
// code, filled after a purchase, emptied by a full sale and cleared at the
// end of the day.
module Holding {
  import opened Wrappers

  datatype Entry = Entry(qty: int, buyPrice: int)

  class Book {
    var holdings: map<string, Entry>

    constructor ()
      ensures holdings == map[]
    {
      holdings := map[];
    }

    /** `add_holding`: set or overwrite this code's entry only. */
    method AddHolding(code: string, qty: int, buyPrice: int)
      modifies this
      ensures holdings == old(holdings)[code := Entry(qty, buyPrice)]
    {
      holdings := holdings[code := Entry(qty, buyPrice)];
    }

    /** `remove_holding`: drop a held code; other codes are untouched. */
    method RemoveHolding(code: string)
      modifies this
      ensures holdings == old(holdings) - {code}
    {
      if code in holdings {
        holdings := holdings - {code};
      }
    }

    /** `get_holding`: the code's entry, or none. */
    function GetHolding(code: string): (r: Option<Entry>)
      reads this
      ensures r.Some? <==> code in holdings
      ensures r.Some? ==> r.value == holdings[code]
    {
      if code in holdings then Some(holdings[code]) else None
    }

    /** `get_all_holdings`: a map is a value, so what the caller receives
        is a copy that later changes to the book do not reach. */
    function GetAllHoldings(): map<string, Entry>
      reads this
    {
      holdings
    }

    /** `reset_all`: an empty book. */
    method ResetAll()
      modifies this
      ensures holdings == map[]
    {
      holdings := map[];
    }
  }
}
