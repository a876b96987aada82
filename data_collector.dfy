// The event data collector: per-symbol running day range (open, high, low)
// fed by each valid price, minute volume and turnover histories trimmed to
// the configured window, and the snapshot the detector reads. The current
// price comes from a market-data call, so it is a parameter; `None` stands
// for a failed call.
module EventDataCollector {
  import opened Wrappers
  import Numeric
  import ConfigLoaders
  import EventDefinitions

  /** The day's open, high and low of one symbol. */
  datatype DayRange = DayRange(high: real, low: real, open: real)

  /** The snapshot dictionary `collect_snapshot` returns. */
  datatype Snapshot = Snapshot(symbol: string, timestamp: EventDefinitions.DateTime, price: Option<real>,
                               volume: Option<real>, turnoverKrw: Option<real>, dayOpen: Option<real>,
                               dayHigh: Option<real>, dayLow: Option<real>, prevClose: Option<real>,
                               avgVolumeN: Option<real>)

  /** The snapshot with every data field absent. */
  function EmptySnapshot(symbol: string, now: EventDefinitions.DateTime): Snapshot
  {
    Snapshot(symbol, now, None, None, None, None, None, None, None, None)
  }

  /** `window_minutes` of the volume spike settings, 10 by default. */
  function WindowOf(thresholds: map<string, ConfigLoaders.Conf>): int
  {
    ConfigLoaders.IntOr(ConfigLoaders.Section(ConfigLoaders.Section(thresholds, "volume"), "spike"),
                        "window_minutes", 10)
  }

  lemma DefaultWindow()
    ensures WindowOf(ConfigLoaders.DefaultThresholds) == 10
  {
  }

  /** A history, or [] for a symbol without one. */
  function HistoryOf(m: map<string, seq<real>>, symbol: string): seq<real>
  {
    if symbol in m then m[symbol] else []
  }

  /** Where Python's `xs[start:]` begins, for a list of length `n`. */
  function SliceStart(start: int, n: nat): (k: nat)
    ensures k <= n
  {
    if start < 0 then (if n + start < 0 then 0 else n + start)
    else if start > n then n else start
  }

  /** The trimming of `update_volume_history`: a list longer than `w`
      becomes `xs[-w:]`. For `w >= 1` that is the last `w` values; for
      `w == 0` the slice is the whole list, so nothing is dropped. */
  function Trimmed(xs: seq<real>, w: int): (r: seq<real>)
    ensures |r| <= |xs| && r == xs[|xs| - |r|..]
    ensures w >= 1 ==> |r| == if |xs| <= w then |xs| else w
    ensures |xs| <= w || w == 0 ==> r == xs
    ensures w >= 0 && xs != [] ==> r != [] && r[|r| - 1] == xs[|xs| - 1]
  {
    if |xs| > w then
      var k := SliceStart(-w, |xs|);
      assert w >= 1 ==> k == |xs| - w;
      assert w == 0 ==> k == 0 && xs[k..] == xs;
      xs[k..]
    else xs
  }

  /** The day range after a valid price `p`: the first price of the day
      sets all three; a later one raises the high or lowers the low, never
      moving the open. */
  function Tracked(ranges: map<string, DayRange>, symbol: string, p: real): (r: DayRange)
    ensures r.low <= p <= r.high
    ensures symbol !in ranges ==> r == DayRange(p, p, p)
    ensures symbol in ranges ==> (r.open == ranges[symbol].open
      && r.high >= ranges[symbol].high && r.low <= ranges[symbol].low
      && (r.high == ranges[symbol].high || r.high == p) && (r.low == ranges[symbol].low || r.low == p))
    ensures symbol in ranges && ranges[symbol].low <= ranges[symbol].open <= ranges[symbol].high ==>
      r.low <= r.open <= r.high
  {
    if symbol !in ranges then DayRange(p, p, p)
    else
      var old_ := ranges[symbol];
      DayRange(Numeric.MaxReal(old_.high, p), Numeric.MinReal(old_.low, p), old_.open)
  }

  /** The ranges after a run of valid prices for one symbol. */
  function TrackedAll(ranges: map<string, DayRange>, symbol: string, ps: seq<real>): map<string, DayRange>
  {
    if ps == [] then ranges
    else
      var before := TrackedAll(ranges, symbol, ps[..|ps| - 1]);
      before[symbol := Tracked(before, symbol, ps[|ps| - 1])]
  }

  /** Over a day that starts without a range, the open is the first price,
      the high the largest and the low the smallest of the prices seen. */
  lemma {:induction false} TrackedAllIsRunningRange(ranges: map<string, DayRange>, symbol: string, ps: seq<real>)
    requires symbol !in ranges && ps != []
    ensures symbol in TrackedAll(ranges, symbol, ps)
    ensures var r := TrackedAll(ranges, symbol, ps)[symbol];
      r.open == ps[0]
      && (forall i :: 0 <= i < |ps| ==> r.low <= ps[i] <= r.high)
      && (exists i :: 0 <= i < |ps| && r.high == ps[i])
      && (exists j :: 0 <= j < |ps| && r.low == ps[j])
  {
    var n := |ps| - 1;
    if n == 0 {
      assert TrackedAll(ranges, symbol, ps[..0]) == ranges;
      var r := TrackedAll(ranges, symbol, ps)[symbol];
      assert r.high == ps[0] && r.low == ps[0];
    } else {
      var pre := ps[..n];
      TrackedAllIsRunningRange(ranges, symbol, pre);
      var before := TrackedAll(ranges, symbol, pre);
      var b := before[symbol];
      var r := TrackedAll(ranges, symbol, ps)[symbol];
      assert r == Tracked(before, symbol, ps[n]);
      assert pre[0] == ps[0];
      forall i | 0 <= i < |ps|
        ensures r.low <= ps[i] <= r.high
      {
        if i < n {
          assert pre[i] == ps[i];
        }
      }
      var hi :| 0 <= hi < n && b.high == pre[hi];
      var lo :| 0 <= lo < n && b.low == pre[lo];
      if r.high == b.high {
        assert r.high == ps[hi];
      } else {
        assert r.high == ps[n];
      }
      if r.low == b.low {
        assert r.low == ps[lo];
      } else {
        assert r.low == ps[n];
      }
    }
  }

  /** `avg_volume_n`: the mean of the volume history once it holds at least
      `max(5, window // 2)` values, absent before that warm-up. */
  function AvgVolume(hist: seq<real>, window: int): (r: Option<real>)
    ensures r.Some? <==> |hist| >= 5 && |hist| >= window / 2
    ensures r.Some? ==> r.value * |hist| as real == Numeric.SumReal(hist)
  {
    var minPoints := if window / 2 > 5 then window / 2 else 5;
    if |hist| >= minPoints then Some(Numeric.Mean(hist)) else None
  }

  /** The latest value of a history, absent when it is empty. */
  function Latest(hist: seq<real>): (r: Option<real>)
    ensures r.None? <==> hist == []
    ensures r.Some? ==> r.value == hist[|hist| - 1]
  {
    if hist == [] then None else Some(hist[|hist| - 1])
  }

  /** The snapshot `collect_snapshot` returns for `price` given the state
      before the call. A missing or non-positive price gives the empty
      snapshot; otherwise the day range includes the price, the volume and
      the previous close are never filled in, the turnover is the latest
      recorded one and the average volume follows the warm-up rule. */
  function TakeSnapshot(thresholds: map<string, ConfigLoaders.Conf>, ranges: map<string, DayRange>,
                        volumeHistory: map<string, seq<real>>, turnoverHistory: map<string, seq<real>>,
                        symbol: string, price: Option<real>, now: EventDefinitions.DateTime): (s: Snapshot)
    ensures s.symbol == symbol && s.timestamp == now
    ensures price.None? || price.value <= 0.0 ==> s == EmptySnapshot(symbol, now)
    ensures s.volume.None? && s.prevClose.None?
    ensures s.price.Some? <==> price.Some? && price.value > 0.0
    ensures s.price.Some? ==> (s.price == price && s.dayHigh.Some? && s.dayLow.Some? && s.dayOpen.Some?
      && s.dayLow.value <= s.price.value <= s.dayHigh.value
      && Tracked(ranges, symbol, price.value) == DayRange(s.dayHigh.value, s.dayLow.value, s.dayOpen.value)
      && s.turnoverKrw == Latest(HistoryOf(turnoverHistory, symbol))
      && s.avgVolumeN == AvgVolume(HistoryOf(volumeHistory, symbol), WindowOf(thresholds)))
  {
    if price.None? || price.value <= 0.0 then EmptySnapshot(symbol, now)
    else
      var r := Tracked(ranges, symbol, price.value);
      Snapshot(symbol, now, price, None, Latest(HistoryOf(turnoverHistory, symbol)), Some(r.open),
               Some(r.high), Some(r.low), None, AvgVolume(HistoryOf(volumeHistory, symbol), WindowOf(thresholds)))
  }

  /** `EventDataCollector`. */
  class Collector {
    const thresholds: map<string, ConfigLoaders.Conf>
    var dayHighLow: map<string, DayRange>
    var volumeHistory: map<string, seq<real>>
    var turnoverHistory: map<string, seq<real>>

    /** Without thresholds the configuration file is loaded. */
    constructor(thresholds: Option<map<string, ConfigLoaders.Conf>>, file: ConfigLoaders.YamlFile)
      ensures this.thresholds == if thresholds.Some? then thresholds.value else ConfigLoaders.LoadEventThresholds(file)
      ensures dayHighLow == map[] && volumeHistory == map[] && turnoverHistory == map[]
    {
      this.thresholds := if thresholds.Some? then thresholds.value else ConfigLoaders.LoadEventThresholds(file);
      dayHighLow := map[];
      volumeHistory := map[];
      turnoverHistory := map[];
    }

    /** `collect_snapshot`: a valid price updates this symbol's day range
        and nothing else; an invalid or missing one changes nothing. */
    method CollectSnapshot(symbol: string, price: Option<real>, now: EventDefinitions.DateTime)
      returns (snap: Snapshot)
      modifies this
      ensures snap == TakeSnapshot(thresholds, old(dayHighLow), volumeHistory, turnoverHistory, symbol, price, now)
      ensures dayHighLow == if price.None? || price.value <= 0.0 then old(dayHighLow)
                            else old(dayHighLow)[symbol := Tracked(old(dayHighLow), symbol, price.value)]
      ensures volumeHistory == old(volumeHistory) && turnoverHistory == old(turnoverHistory)
    {
      if price.None? || price.value <= 0.0 {
        return EmptySnapshot(symbol, now);
      }
      var p := price.value;
      if symbol !in dayHighLow {
        dayHighLow := dayHighLow[symbol := DayRange(p, p, p)];
      } else {
        var current := dayHighLow[symbol];
        dayHighLow := dayHighLow[symbol := DayRange(Numeric.MaxReal(current.high, p),
                                                    Numeric.MinReal(current.low, p), current.open)];
      }
      var range := dayHighLow[symbol];
      var turnover := GetLatestTurnover(symbol);
      var history := HistoryOf(volumeHistory, symbol);
      var window := WindowOf(thresholds);
      var minPoints := if window / 2 > 5 then window / 2 else 5;
      var avg := None;
      if |history| >= minPoints {
        avg := Some(Numeric.SumReal(history) / |history| as real);
      }
      snap := Snapshot(symbol, now, Some(p), None, turnover, Some(range.open), Some(range.high),
                       Some(range.low), None, avg);
    }

    /** `update_volume_history`: appends the value, then trims to the
        window. */
    method UpdateVolumeHistory(symbol: string, volume: real)
      modifies this
      ensures volumeHistory == old(volumeHistory)[symbol :=
        Trimmed(HistoryOf(old(volumeHistory), symbol) + [volume], WindowOf(thresholds))]
      ensures dayHighLow == old(dayHighLow) && turnoverHistory == old(turnoverHistory)
    {
      var appended := HistoryOf(volumeHistory, symbol) + [volume];
      var history := appended;
      var window := WindowOf(thresholds);
      if |history| > window {
        history := history[SliceStart(-window, |history|)..];
      }
      assert history == Trimmed(appended, window);
      volumeHistory := volumeHistory[symbol := history];
    }

    /** `update_turnover_history`: the same, for turnover. */
    method UpdateTurnoverHistory(symbol: string, turnover: real)
      modifies this
      ensures turnoverHistory == old(turnoverHistory)[symbol :=
        Trimmed(HistoryOf(old(turnoverHistory), symbol) + [turnover], WindowOf(thresholds))]
      ensures WindowOf(thresholds) >= 0 ==> GetLatestTurnover(symbol) == Some(turnover)
      ensures dayHighLow == old(dayHighLow) && volumeHistory == old(volumeHistory)
    {
      var appended := HistoryOf(turnoverHistory, symbol) + [turnover];
      var history := appended;
      var window := WindowOf(thresholds);
      if |history| > window {
        history := history[SliceStart(-window, |history|)..];
      }
      assert history == Trimmed(appended, window);
      turnoverHistory := turnoverHistory[symbol := history];
    }

    /** `calculate_volume_spike_ratio`: absent with fewer than five values or
        a zero mean; otherwise the current volume over the mean, so that the
        ratio times the mean gives the current volume back. */
    function CalculateVolumeSpikeRatio(symbol: string, currentVolume: real): (r: Option<real>)
      reads this
      ensures r.Some? <==> |HistoryOf(volumeHistory, symbol)| >= 5 && Numeric.SumReal(HistoryOf(volumeHistory, symbol)) != 0.0
      ensures r.Some? ==> r.value * Numeric.Mean(HistoryOf(volumeHistory, symbol)) == currentVolume
    {
      var history := HistoryOf(volumeHistory, symbol);
      if |history| < 5 then None
      else
        var avg := Numeric.SumReal(history) / |history| as real;
        if avg == 0.0 then None else Some(currentVolume / avg)
    }

    /** `get_latest_turnover`: the last recorded turnover, absent when there
        is none. */
    function GetLatestTurnover(symbol: string): (r: Option<real>)
      reads this
      ensures r == Latest(HistoryOf(turnoverHistory, symbol))
    {
      var history := HistoryOf(turnoverHistory, symbol);
      if history == [] then None else Some(history[|history| - 1])
    }
  }
}
