// The post-market daily scan: four step-function scores (volume ratio,
// candle shape, day range, liquidity) summed into a total that decides the
// watch tier, and the scan loop that keeps at most 30 TIER1 and 50 TIER2
// records. The condition-search results and the per-symbol market data are
// parameters; a symbol whose data cannot be loaded is absent from `loads`.
module DailyScan {
  import opened Wrappers
  import Text
  import Numeric

  const ScanVersion: string := "scan_v1.0"
  const WatchTier1: int := 80
  const WatchTier2: int := 65
  const MinTradingValue: real := 50000000000.0
  const MaxTier1Count: nat := 30
  const MaxTier2Count: nat := 50

  /** The condition-search tags, in the order the scan reads them. */
  const Tags: seq<string> := ["A_volume_burst", "B_volatility_jump", "C_volume_accum"]

  // ---------------------------------------------------------------------
  // Scores
  // ---------------------------------------------------------------------

  /** `calc_volume_score`. */
  function VolumeScore(volumeRatio: real): (r: int)
    ensures r == 0 || r == 8 || r == 16 || r == 25
    ensures r == 25 <==> volumeRatio >= 2.5
    ensures r == 0 <==> volumeRatio < 1.0
  {
    if volumeRatio >= 2.5 then 25
    else if volumeRatio >= 1.5 then 16
    else if volumeRatio >= 1.0 then 8
    else 0
  }

  /** The volume score never falls as the ratio grows. */
  lemma VolumeScoreMonotone(a: real, b: real)
    requires a <= b
    ensures VolumeScore(a) <= VolumeScore(b)
  {
  }

  /** The body part of the candle score. */
  function BodyScore(bodyRatio: real): (r: int)
    ensures r == 0 || r == 8 || r == 10 || r == 15
  {
    if bodyRatio < 0.2 then 0
    else if bodyRatio < 0.4 then 8
    else if bodyRatio < 0.7 then 15
    else 10
  }

  /** The wick part of the candle score. */
  function WickScore(wickRatio: real): (r: int)
    ensures r == 0 || r == 5 || r == 10
    ensures r == 0 <==> wickRatio >= 0.7
  {
    if wickRatio >= 0.7 then 0
    else if wickRatio >= 0.5 then 5
    else 10
  }

  /** `calc_candle_score`: the body and wick parts of a candle whose high is
      above its low; 0 for a flat or inverted candle. */
  function CandleScore(open: real, high: real, low: real, close: real): (r: int)
    ensures 0 <= r <= 25
    ensures high - low <= 0.0 ==> r == 0
    ensures high - low > 0.0 ==>
      r == BodyScore(Numeric.Abs(close - open) / (high - low))
        + WickScore(((high - Numeric.MaxReal(open, close)) + (Numeric.MinReal(open, close) - low)) / (high - low))
  {
    var totalRange := high - low;
    if totalRange <= 0.0 then 0
    else
      var bodyRatio := Numeric.Abs(close - open) / totalRange;
      var upper := high - Numeric.MaxReal(open, close);
      var lower := Numeric.MinReal(open, close) - low;
      BodyScore(bodyRatio) + WickScore((upper + lower) / totalRange)
  }

  /** `calc_volatility_score`: the day's range as a percentage of the close. */
  function VolatilityScore(high: real, low: real, close: real): (r: int)
    ensures r == 0 || r == 5 || r == 10 || r == 20
    ensures close <= 0.0 ==> r == 0
    ensures close > 0.0 && 1.5 <= (high - low) / close * 100.0 < 4.5 <==> r == 20
  {
    if close <= 0.0 then 0
    else
      var rangePct := (high - low) / close * 100.0;
      if rangePct < 1.5 then 5
      else if rangePct < 4.5 then 20
      else if rangePct < 7.0 then 10
      else 0
  }

  /** The traded-value part of the liquidity score. */
  function ValueScore(tradingValue: real): (r: int)
    ensures r == 0 || r == 8 || r == 15
  {
    if tradingValue < 30000000000.0 then 0
    else if tradingValue < 100000000000.0 then 8
    else 15
  }

  /** The price part of the liquidity score. */
  function PriceScore(close: real): (r: int)
    ensures r == 0 || r == 3 || r == 5
  {
    if close < 1000.0 then 0
    else if close < 5000.0 then 3
    else 5
  }

  /** `calc_liquidity_score`. */
  function LiquidityScore(tradingValue: real, close: real): (r: int)
    ensures 0 <= r <= 20
    ensures r == ValueScore(tradingValue) + PriceScore(close)
  {
    ValueScore(tradingValue) + PriceScore(close)
  }

  datatype Tier = Tier1 | Tier2 | NoTier

  /** The tier of a total score. */
  function TierOf(total: int): (t: Tier)
    ensures t == Tier1 <==> total >= WatchTier1
    ensures t == Tier2 <==> WatchTier2 <= total < WatchTier1
    ensures t == NoTier <==> total < WatchTier2
  {
    if total >= WatchTier1 then Tier1
    else if total >= WatchTier2 then Tier2
    else NoTier
  }

  function TierReason(t: Tier): string
  {
    match t
    case Tier1 => "TOTAL_SCORE_HIGH"
    case Tier2 => "TOTAL_SCORE_MID"
    case NoTier => "SCORE_LOW"
  }

  // ---------------------------------------------------------------------
  // Records
  // ---------------------------------------------------------------------

  /** The day's bar of one symbol. */
  datatype Ohlcv = Ohlcv(open: real, high: real, low: real, close: real, volume: real, tradingValue: real)

  /** What the loaders return for one symbol: the bar and the volume history. */
  datatype Loaded = Loaded(ohlcv: Ohlcv, volumeHist: seq<real>)

  datatype ScanRecord = ScanRecord(date: string, symbol: string, sourceTags: string, volumeRatio: real,
                                   scoreVolume: int, scoreCandle: int, scoreVolatility: int,
                                   scoreLiquidity: int, scoreTotal: int, watchTier: Tier,
                                   tierReason: string, scanVersion: string)

  /** The volume ratio: today's volume over the history's mean, 0 when the
      mean is not positive. */
  function VolumeRatio(volume: real, hist: seq<real>): real
    requires hist != []
  {
    var avg := Numeric.Mean(hist);
    if avg > 0.0 then volume / avg else 0.0
  }

  /** The record of one loaded symbol, or nothing when its history is empty
      or its traded value is below the minimum. The volume score uses the
      exact ratio; the record keeps it rounded to two decimals. */
  function RecordOf(date: string, symbol: string, tags: seq<string>, x: Loaded): (r: Option<ScanRecord>)
    ensures r.Some? <==> x.volumeHist != [] && x.ohlcv.tradingValue >= MinTradingValue
    ensures r.Some? ==> (r.value.symbol == symbol && 0 <= r.value.scoreTotal <= 90
      && r.value.scoreTotal == r.value.scoreVolume + r.value.scoreCandle + r.value.scoreVolatility + r.value.scoreLiquidity
      && r.value.watchTier == TierOf(r.value.scoreTotal))
    ensures r.Some? ==> var ratio := VolumeRatio(x.ohlcv.volume, x.volumeHist);
      && ratio - 0.005 <= r.value.volumeRatio <= ratio + 0.005
      && (r.value.volumeRatio * 100.0).Floor as real == r.value.volumeRatio * 100.0
      && r.value.scoreVolume == VolumeScore(ratio)
  {
    if x.volumeHist == [] || x.ohlcv.tradingValue < MinTradingValue then None
    else
      var o := x.ohlcv;
      var ratio := VolumeRatio(o.volume, x.volumeHist);
      var sv := VolumeScore(ratio);
      var sc := CandleScore(o.open, o.high, o.low, o.close);
      var sx := VolatilityScore(o.high, o.low, o.close);
      var sl := LiquidityScore(o.tradingValue, o.close);
      var total := sv + sc + sx + sl;
      var tier := TierOf(total);
      Some(ScanRecord(date, symbol, Text.Join("|", tags), Numeric.Round2(ratio), sv, sc, sx, sl, total, tier, TierReason(tier), ScanVersion))
  }

  function TagsOf(srcMap: map<string, seq<string>>, s: string): seq<string>
  {
    if s in srcMap then srcMap[s] else []
  }

  /** The records of the symbols in scan order `order`: a symbol whose data
      could not be loaded, or that `RecordOf` drops, adds nothing. */
  function Scanned(date: string, order: seq<string>, srcMap: map<string, seq<string>>,
                   loads: map<string, Loaded>): seq<ScanRecord>
  {
    if order == [] then []
    else
      var s := order[|order| - 1];
      var rest := Scanned(date, order[..|order| - 1], srcMap, loads);
      if s !in loads then rest
      else
        var r := RecordOf(date, s, TagsOf(srcMap, s), loads[s]);
        if r.Some? then rest + [r.value] else rest
  }

  /** The records of tier `t`, in order (a list comprehension). */
  function OfTier(records: seq<ScanRecord>, t: Tier): (r: seq<ScanRecord>)
    ensures |r| <= |records|
    ensures forall x :: x in r <==> x in records && x.watchTier == t
  {
    if records == [] then []
    else
      var last := records[|records| - 1];
      OfTier(records[..|records| - 1], t) + (if last.watchTier == t then [last] else [])
  }

  /** The first `n` of `xs` (a slice that stops at the end). */
  function Take<T>(xs: seq<T>, n: nat): (r: seq<T>)
    ensures |r| <= n && |r| <= |xs|
    ensures r == xs[..|r|]
    ensures |xs| >= n ==> |r| == n
  {
    if |xs| <= n then xs else xs[..n]
  }

  // ---------------------------------------------------------------------
  // The scan
  // ---------------------------------------------------------------------

  /** The source map after tag `tag`'s symbols: each symbol gets `tag`
      appended. */
  function AddTag(m: map<string, seq<string>>, tag: string, syms: seq<string>): map<string, seq<string>>
  {
    if syms == [] then m
    else
      var m1 := AddTag(m, tag, syms[..|syms| - 1]);
      var s := syms[|syms| - 1];
      m1[s := TagsOf(m1, s) + [tag]]
  }

  /** The source map after the first `|lists|` tags. */
  function SourceMap(lists: seq<seq<string>>): map<string, seq<string>>
    requires |lists| <= |Tags|
  {
    if lists == [] then map[]
    else AddTag(SourceMap(lists[..|lists| - 1]), Tags[|lists| - 1], lists[|lists| - 1])
  }

  /** A symbol is a key exactly when some list holds it, and its tags are
      those of the lists holding it. */
  lemma {:induction false} AddTagMembers(m: map<string, seq<string>>, tag: string, syms: seq<string>, s: string, t: string)
    ensures s in AddTag(m, tag, syms) <==> s in m || s in syms
    ensures t in TagsOf(AddTag(m, tag, syms), s) <==> t in TagsOf(m, s) || (t == tag && s in syms)
  {
    if syms != [] {
      var n := |syms| - 1;
      AddTagMembers(m, tag, syms[..n], s, t);
      assert syms == syms[..n] + [syms[n]];
      assert s in syms <==> s in syms[..n] || s == syms[n];
    }
  }

  lemma SourceMapMembers(lists: seq<seq<string>>, s: string, t: string)
    requires |lists| <= |Tags|
    ensures s in SourceMap(lists) <==> exists i :: 0 <= i < |lists| && s in lists[i]
    ensures t in TagsOf(SourceMap(lists), s) <==> exists i :: 0 <= i < |lists| && s in lists[i] && t == Tags[i]
  {
    SourceMapKeys(lists, s);
    SourceMapTags(lists, s, t);
  }

  lemma {:induction false} SourceMapKeys(lists: seq<seq<string>>, s: string)
    requires |lists| <= |Tags|
    ensures s in SourceMap(lists) <==> exists i :: 0 <= i < |lists| && s in lists[i]
  {
    if lists != [] {
      var n := |lists| - 1;
      SourceMapKeys(lists[..n], s);
      AddTagMembers(SourceMap(lists[..n]), Tags[n], lists[n], s, "");
      if exists i :: 0 <= i < n && s in lists[..n][i] {
        var i :| 0 <= i < n && s in lists[..n][i];
        assert lists[i] == lists[..n][i];
      }
      if exists i :: 0 <= i < |lists| && s in lists[i] {
        var i :| 0 <= i < |lists| && s in lists[i];
        if i < n {
          assert lists[..n][i] == lists[i];
        }
      }
    }
  }

  lemma {:induction false} SourceMapTags(lists: seq<seq<string>>, s: string, t: string)
    requires |lists| <= |Tags|
    ensures t in TagsOf(SourceMap(lists), s) <==> exists i :: 0 <= i < |lists| && s in lists[i] && t == Tags[i]
  {
    if lists != [] {
      var n := |lists| - 1;
      SourceMapTags(lists[..n], s, t);
      AddTagMembers(SourceMap(lists[..n]), Tags[n], lists[n], s, t);
      if exists i :: 0 <= i < n && s in lists[..n][i] && t == Tags[i] {
        var i :| 0 <= i < n && s in lists[..n][i] && t == Tags[i];
        assert lists[i] == lists[..n][i];
      }
      if exists i :: 0 <= i < |lists| && s in lists[i] && t == Tags[i] {
        var i :| 0 <= i < |lists| && s in lists[i] && t == Tags[i];
        if i < n {
          assert lists[..n][i] == lists[i];
        }
      }
    }
  }

  /** The first loop: for each tag, appends the tag to each listed symbol. */
  method BuildSourceMap(lists: seq<seq<string>>) returns (srcMap: map<string, seq<string>>)
    requires |lists| == |Tags|
    ensures srcMap == SourceMap(lists)
  {
    srcMap := map[];
    var i := 0;
    while i < |lists|
      invariant 0 <= i <= |lists|
      invariant srcMap == SourceMap(lists[..i])
    {
      assert lists[..i + 1][..i] == lists[..i];
      var syms := lists[i];
      var tag := Tags[i];
      var j := 0;
      ghost var m0 := srcMap;
      while j < |syms|
        invariant 0 <= j <= |syms|
        invariant srcMap == AddTag(m0, tag, syms[..j])
      {
        assert syms[..j + 1][..j] == syms[..j];
        srcMap := srcMap[syms[j] := TagsOf(srcMap, syms[j]) + [tag]];
        j := j + 1;
      }
      assert syms[..j] == syms;
      i := i + 1;
    }
    assert lists[..i] == lists;
  }

  /** `run_daily_scan` given the three condition lists (in `Tags` order), the
      loaded data and the order in which the set of candidate symbols is
      iterated: the TIER1 records (at most 30) followed by the TIER2 records
      (at most 50), each in scan order. */
  method RunDailyScan(date: string, lists: seq<seq<string>>, loads: map<string, Loaded>, order: seq<string>)
    returns (result: seq<ScanRecord>)
    requires |lists| == |Tags|
    requires Text.NoDups(order)
    requires forall s :: s in order <==> exists i :: 0 <= i < |lists| && s in lists[i]
    ensures var records := Scanned(date, order, SourceMap(lists), loads);
      result == Take(OfTier(records, Tier1), MaxTier1Count) + Take(OfTier(records, Tier2), MaxTier2Count)
  {
    var srcMap := BuildSourceMap(lists);
    var records: seq<ScanRecord> := [];
    var i := 0;
    while i < |order|
      invariant 0 <= i <= |order|
      invariant records == Scanned(date, order[..i], srcMap, loads)
    {
      assert order[..i + 1][..i] == order[..i];
      var symbol := order[i];
      if symbol in loads {
        var r := RecordOf(date, symbol, TagsOf(srcMap, symbol), loads[symbol]);
        if r.Some? {
          records := records + [r.value];
        }
      }
      i := i + 1;
    }
    assert order[..i] == order;
    result := Take(OfTier(records, Tier1), MaxTier1Count) + Take(OfTier(records, Tier2), MaxTier2Count);
  }

  /** Every scanned record belongs to a symbol in the scan order with loaded
      data that passed the filters. */
  lemma {:induction false} ScannedMembers(date: string, order: seq<string>, srcMap: map<string, seq<string>>,
                                          loads: map<string, Loaded>, x: ScanRecord)
    requires x in Scanned(date, order, srcMap, loads)
    ensures x.symbol in order && x.symbol in loads
    ensures loads[x.symbol].volumeHist != [] && loads[x.symbol].ohlcv.tradingValue >= MinTradingValue
    ensures x.sourceTags == Text.Join("|", TagsOf(srcMap, x.symbol))
    ensures 0 <= x.scoreTotal <= 90 && x.watchTier == TierOf(x.scoreTotal)
  {
    var n := |order| - 1;
    if x in Scanned(date, order[..n], srcMap, loads) {
      ScannedMembers(date, order[..n], srcMap, loads, x);
      assert order[..n] <= order;
    }
  }

  /** The scan's result: at most 80 records, the TIER1 ones first, no NONE
      record, and each with a total in [65, 90]. */
  lemma ScanResultShape(records: seq<ScanRecord>)
    requires forall x :: x in records ==> 0 <= x.scoreTotal <= 90 && x.watchTier == TierOf(x.scoreTotal)
    ensures var result := Take(OfTier(records, Tier1), MaxTier1Count) + Take(OfTier(records, Tier2), MaxTier2Count);
      |result| <= 80
      && (forall k :: 0 <= k < |result| ==> result[k].watchTier != NoTier && 65 <= result[k].scoreTotal <= 90)
      && (forall j, k :: 0 <= j < k < |result| && result[j].watchTier == Tier2 ==> result[k].watchTier == Tier2)
  {
    var a := Take(OfTier(records, Tier1), MaxTier1Count);
    var b := Take(OfTier(records, Tier2), MaxTier2Count);
    var result := a + b;
    forall k | 0 <= k < |result|
      ensures (k < |a| ==> result[k].watchTier == Tier1) && (k >= |a| ==> result[k].watchTier == Tier2)
    {
      if k < |a| {
        assert result[k] == a[k] && a[k] in OfTier(records, Tier1);
      } else {
        assert result[k] == b[k - |a|] && b[k - |a|] in OfTier(records, Tier2);
      }
    }
    forall k | 0 <= k < |result| ensures 65 <= result[k].scoreTotal <= 90 {
      if k < |a| {
        assert result[k] == a[k] && a[k] in OfTier(records, Tier1);
      } else {
        assert result[k] == b[k - |a|] && b[k - |a|] in OfTier(records, Tier2);
      }
    }
  }
}
