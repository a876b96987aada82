// Daily condition-search statistics of the test trader: the stocks that
// entered the condition search and those bought successfully, kept as sets,
// and the day's success rate. Writing the CSV file is not part of this
// model; the date the summary carries is a parameter.
module ConditionStats {
  /** The day's summary. */
  datatype Summary = Summary(date: string, conditionEnter: nat, buySuccess: nat, successRate: real)

  /** Purchases per hundred entries, or 0 with no entries. */
  function SuccessRate(enter: nat, buy: nat): (r: real)
    ensures enter == 0 ==> r == 0.0
    ensures r >= 0.0
    ensures enter > 0 ==> (r == 0.0 <==> buy == 0) && (r <= 100.0 <==> buy <= enter)
  {
    if enter > 0 then buy as real / enter as real * 100.0 else 0.0
  }

  class Stats {
    var conditionEnter: set<string>
    var buySuccess: set<string>

    constructor ()
      ensures conditionEnter == {} && buySuccess == {}
    {
      conditionEnter, buySuccess := {}, {};
    }

    /** `record_condition_enter`: recording a stock again changes nothing. */
    method RecordConditionEnter(code: string)
      modifies this
      ensures conditionEnter == old(conditionEnter) + {code} && buySuccess == old(buySuccess)
    {
      conditionEnter := conditionEnter + {code};
    }

    /** `record_buy_success`: recording a stock again changes nothing. */
    method RecordBuySuccess(code: string)
      modifies this
      ensures buySuccess == old(buySuccess) + {code} && conditionEnter == old(conditionEnter)
    {
      buySuccess := buySuccess + {code};
    }

    /** `save_daily_stats`: the counts are the set sizes and the rate their
        ratio in percent. */
    function DailyStats(date: string): (s: Summary)
      reads this
      ensures s.date == date && s.conditionEnter == |conditionEnter| && s.buySuccess == |buySuccess|
      ensures s.successRate == SuccessRate(|conditionEnter|, |buySuccess|)
    {
      Summary(date, |conditionEnter|, |buySuccess|, SuccessRate(|conditionEnter|, |buySuccess|))
    }

    /** `reset_daily_stats`: both sets empty. */
    method ResetDailyStats()
      modifies this
      ensures conditionEnter == {} && buySuccess == {}
    {
      conditionEnter, buySuccess := {}, {};
    }
  }

  /** Recording is idempotent: adding a stock twice is adding it once, so
      the counts are numbers of distinct stocks. */
  lemma RecordTwice(s: set<string>, code: string)
    ensures s + {code} + {code} == s + {code}
    ensures |s + {code}| == if code in s then |s| else |s| + 1
  {
    if code in s {
      assert s + {code} == s;
    } else {
      assert s !! {code};
    }
  }
}
