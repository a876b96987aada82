// The in-memory order tracker: orders by order number, registered when
// placed and updated from the broker's status reports. The reports are
// given as values (the broker call that produces them is not part of this
// model).
module OrderTracker {
  import opened Wrappers

  datatype Order = Order(symbol: string, orderQty: int, filledQty: int, status: string)

  /** One line of a broker status report. */
  datatype StatusItem = StatusItem(orderNo: string, filledQty: int, status: string)

  /** The orders after applying a report, line by line. */
  function Applied(orders: map<string, Order>, items: seq<StatusItem>): map<string, Order>
  {
    if items == [] then orders
    else
      var before := Applied(orders, items[..|items| - 1]);
      var item := items[|items| - 1];
      if item.orderNo in before
      then before[item.orderNo := before[item.orderNo].(filledQty := item.filledQty, status := item.status)]
      else before
  }

  /** The last line of a report about an order, if any. */
  function LastFor(items: seq<StatusItem>, orderNo: string): (r: Option<StatusItem>)
    ensures r.Some? ==> r.value in items && r.value.orderNo == orderNo
    ensures r.None? <==> forall i :: 0 <= i < |items| ==> items[i].orderNo != orderNo
  {
    if items == [] then None
    else if items[|items| - 1].orderNo == orderNo then Some(items[|items| - 1])
    else
      var r := LastFor(items[..|items| - 1], orderNo);
      assert forall i :: 0 <= i < |items| - 1 ==> items[..|items| - 1][i] == items[i];
      r
  }

  /** A report registers nothing and forgets nothing; an order's symbol and
      quantity never change; its fill and status are those of the last line
      about it, and orders no line mentions are untouched. Lines about
      unknown orders are ignored. */
  lemma {:induction false} AppliedRule(orders: map<string, Order>, items: seq<StatusItem>)
    ensures Applied(orders, items).Keys == orders.Keys
    ensures forall k :: k in orders ==>
      var o := Applied(orders, items)[k];
      o.symbol == orders[k].symbol && o.orderQty == orders[k].orderQty
      && (LastFor(items, k).None? ==> o == orders[k])
      && (LastFor(items, k).Some? ==> o.filledQty == LastFor(items, k).value.filledQty
                                      && o.status == LastFor(items, k).value.status)
  {
    if items != [] {
      AppliedRule(orders, items[..|items| - 1]);
    }
  }

  /** Whether an order is still open: any status but "FILLED". */
  predicate IsOpen(o: Order)
  {
    o.status != "FILLED"
  }

  class Tracker {
    var orders: map<string, Order>

    constructor ()
      ensures orders == map[]
    {
      orders := map[];
    }

    /** `register`: a new or replaced entry, open and unfilled. */
    method Register(orderNo: string, symbol: string, qty: int)
      modifies this
      ensures orders == old(orders)[orderNo := Order(symbol, qty, 0, "OPEN")]
    {
      orders := orders[orderNo := Order(symbol, qty, 0, "OPEN")];
    }

    /** `update`: each line for a known order overwrites its fill and
        status. */
    method Update(items: seq<StatusItem>)
      modifies this
      ensures orders == Applied(old(orders), items)
    {
      var i := 0;
      while i < |items|
        invariant i <= |items|
        invariant orders == Applied(old(orders), items[..i])
      {
        assert items[..i + 1][..i] == items[..i];
        var item := items[i];
        if item.orderNo in orders {
          orders := orders[item.orderNo := orders[item.orderNo].(filledQty := item.filledQty, status := item.status)];
        }
        i := i + 1;
      }
      assert items[..i] == items;
    }

    /** `get_open_orders`: exactly the entries not yet filled. */
    function GetOpenOrders(): (open: map<string, Order>)
      reads this
      ensures forall k :: k in open <==> k in orders && IsOpen(orders[k])
      ensures forall k :: k in open ==> open[k] == orders[k]
    {
      map k | k in orders && IsOpen(orders[k]) :: orders[k]
    }
  }
}
