// The sell planner: in test mode every check sells one share; otherwise a
// held symbol is sold in full once the price is at least 1% above its
// average price. The test-mode switch and the holdings are parameters.
module SellPlanner {
  import LiveAccount

  /** The price a holding must reach, as a multiple of its average price. */
  const TakeProfit: real := 1.01

  /** `should_sell`. */
  function ShouldSell(testMode: bool, holdings: map<string, LiveAccount.Position>, code: string,
                      currentPrice: real): (r: bool)
    ensures testMode ==> r
    ensures !testMode && code !in holdings ==> !r
    ensures !testMode && code in holdings ==> (r <==> currentPrice >= holdings[code].avgPrice * TakeProfit)
  {
    if testMode then true
    else if code !in holdings then false
    else currentPrice >= holdings[code].avgPrice * TakeProfit
  }

  /** `sell_qty`. */
  function SellQty(testMode: bool, holdings: map<string, LiveAccount.Position>, code: string): (q: int)
    ensures testMode ==> q == 1
    ensures !testMode && code !in holdings ==> q == 0
    ensures !testMode && code in holdings ==> q == holdings[code].qty
  {
    if testMode then 1
    else if code !in holdings then 0
    else holdings[code].qty
  }

  /** Outside test mode a sale only happens for a held symbol, sells all of
      it, and, for a positive average price, only above that price. */
  lemma SaleIsProfitable(holdings: map<string, LiveAccount.Position>, code: string, currentPrice: real)
    requires ShouldSell(false, holdings, code, currentPrice)
    ensures code in holdings && SellQty(false, holdings, code) == holdings[code].qty
    ensures holdings[code].avgPrice > 0.0 ==> currentPrice > holdings[code].avgPrice
  {
    var avg := holdings[code].avgPrice;
    assert avg > 0.0 ==> avg * TakeProfit > avg;
  }
}
