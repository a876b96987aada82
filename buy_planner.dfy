// The buy planner: whether new buys are allowed today, whether one symbol
// may be bought, and the cash given to each buy, an equal share of the
// available cash over the free holding slots. The account's values (cash,
// the number of holdings, whether a symbol is held) are parameters.
module BuyPlanner {

  /** The most symbols held at once. */
  const MaxHoldings: int := 5
  /** The smallest order, in won. */
  const MinOrderCash: int := 100000

  /** `can_buy_today`: a free holding slot and at least the minimum order in
      cash. */
  function CanBuyToday(holdingCount: nat, cash: int): (r: bool)
    ensures r <==> holdingCount < MaxHoldings && cash >= MinOrderCash
  {
    if holdingCount >= MaxHoldings then false
    else if cash < MinOrderCash then false
    else true
  }

  /** `can_buy_symbol`: never for a symbol already held; otherwise as
      `can_buy_today`. */
  function CanBuySymbol(held: bool, holdingCount: nat, cash: int): (r: bool)
    ensures held ==> !r
    ensures r ==> CanBuyToday(holdingCount, cash)
    ensures !held ==> r == CanBuyToday(holdingCount, cash)
  {
    if held then false else CanBuyToday(holdingCount, cash)
  }

  /** `calc_buy_cash`: the floor of the cash over the free slots when that
      reaches the minimum order, else 0. A non-zero amount spent on every
      free slot never exceeds the cash, and it is the largest such amount;
      it is non-zero exactly when there is a free slot and the cash covers
      the minimum order on each. */
  function CalcBuyCash(holdingCount: nat, cash: int): (r: int)
    ensures holdingCount >= MaxHoldings ==> r == 0
    ensures r != 0 ==> (r >= MinOrderCash
      && r * (MaxHoldings - holdingCount) <= cash < (r + 1) * (MaxHoldings - holdingCount))
    ensures r != 0 <==> holdingCount < MaxHoldings && cash >= MinOrderCash * (MaxHoldings - holdingCount)
    ensures r >= 0
  {
    var remainSlots := MaxHoldings - holdingCount;
    if remainSlots <= 0 then 0
    else
      var cashPerSymbol := cash / remainSlots;
      FloorDivision(cash, remainSlots);
      if cashPerSymbol < MinOrderCash then 0 else cashPerSymbol
  }

  /** Floor division by one to five slots, as a product bound. */
  lemma FloorDivision(cash: int, slots: int)
    requires 1 <= slots <= 5
    ensures (cash / slots) * slots <= cash < (cash / slots + 1) * slots
    ensures cash / slots >= MinOrderCash <==> cash >= MinOrderCash * slots
  {
    if slots == 1 {
    } else if slots == 2 {
    } else if slots == 3 {
    } else if slots == 4 {
    } else {
    }
  }
}
