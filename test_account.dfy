// The account state of the test trader: in test mode a refresh touches
// nothing; otherwise it takes the reported cash, capped at the strategy's
// limit, when that cash is truthy. Holdings are never filled in here.
module TestAccount {

  class AccountState {
    var cash: int
    var holdings: set<string>

    /** `__init__`: zero cash, no holdings, then one refresh. */
    constructor (testMode: bool, rawCash: int, maxCash: int)
      ensures holdings == {}
      ensures testMode || rawCash == 0 ==> cash == 0
      ensures !testMode && rawCash != 0 ==> cash == (if rawCash <= maxCash then rawCash else maxCash)
    {
      cash := 0;
      holdings := {};
      new;
      Refresh(testMode, rawCash, maxCash);
    }

    /** `refresh`: no change in test mode or when the reported cash is 0 (or
        absent); otherwise the cash becomes the reported amount capped at
        `maxCash`. Holdings never change. */
    method Refresh(testMode: bool, rawCash: int, maxCash: int)
      modifies this
      ensures holdings == old(holdings)
      ensures testMode || rawCash == 0 ==> cash == old(cash)
      ensures !testMode && rawCash != 0 ==> cash == (if rawCash <= maxCash then rawCash else maxCash)
    {
      if testMode {
        return;
      }
      if rawCash != 0 {
        cash := if rawCash <= maxCash then rawCash else maxCash;
      }
    }

    /** `has_position`. */
    predicate HasPosition(symbol: string)
      reads this
    {
      symbol in holdings
    }
  }
}
