// The five-minute candle patterns the buy strategy counts: a bearish candle
// with a long upper wick, three rising candles near the box top, and a
// bullish engulfing pair. Candles are dictionaries whose values may fail to
// convert to a number; a failed or missing value reads as the default.
module StrategySignals {
  import opened Wrappers
  import Numeric

  /** A candle value: a number, or something `float()` rejects. */
  datatype Field = Num(x: real) | Bad

  /** A candle: open/high/low/close/volume, any of them possibly absent. */
  type Candle = map<string, Field>

  const DefaultWickRatio: real := 1.5
  const DefaultNearBoxPct: real := 0.01
  const DefaultEngulfVolMult: real := 1.2
  const DefaultMinBody: real := 0.000000001

  /** `_get`: the value as a number, or `default` when it is absent or does
      not convert. */
  function Get(c: Candle, key: string, default: real): (r: real)
    ensures key in c && c[key].Num? ==> r == c[key].x
    ensures key !in c || c[key].Bad? ==> r == default
  {
    if key in c && c[key].Num? then c[key].x else default
  }

  function Open(c: Candle): real { Get(c, "open", 0.0) }
  function High(c: Candle): real { Get(c, "high", 0.0) }
  function Low(c: Candle): real { Get(c, "low", 0.0) }
  function Close(c: Candle): real { Get(c, "close", 0.0) }
  function Volume(c: Candle): real { Get(c, "volume", 0.0) }

  /** `_body_size`: the distance between open and close. */
  function BodySize(c: Candle): (r: real)
    ensures r >= 0.0 && (r == Close(c) - Open(c) || r == Open(c) - Close(c))
  {
    Numeric.Abs(Close(c) - Open(c))
  }

  /** `_upper_wick`: how far the high reaches above the body, never
      negative. */
  function UpperWick(c: Candle): (r: real)
    ensures r >= 0.0
    ensures High(c) > Open(c) && High(c) > Close(c) ==>
      r > 0.0 && r <= High(c) - Open(c) && r <= High(c) - Close(c)
      && (r == High(c) - Open(c) || r == High(c) - Close(c))
    ensures High(c) <= Open(c) || High(c) <= Close(c) ==> r == 0.0
  {
    Numeric.MaxReal(0.0, High(c) - Numeric.MaxReal(Open(c), Close(c)))
  }

  predicate Bearish(c: Candle) { Close(c) < Open(c) }
  predicate Bullish(c: Candle) { Close(c) > Open(c) }

  /** `is_long_upper_wick_bearish`: a present bearish candle whose upper
      wick is at least `wickRatio` times its body (floored at `minBody`),
      closing at or above the box bottom on at least the average volume. */
  function IsLongUpperWickBearish(candle: Option<Candle>, boxLow: real, avgVolume: real,
                                  wickRatio: real, minBody: real): (r: bool)
    ensures r <==> (candle.Some? && Bearish(candle.value)
      && UpperWick(candle.value) >= Numeric.MaxReal(BodySize(candle.value), minBody) * wickRatio
      && Close(candle.value) >= boxLow && Volume(candle.value) >= avgVolume)
    ensures r && minBody > 0.0 && wickRatio > 0.0 ==> UpperWick(candle.value) > 0.0
  {
    if candle.None? then false
    else if !Bearish(candle.value) then false
    else
      var body := Numeric.MaxReal(BodySize(candle.value), minBody);
      var upper := UpperWick(candle.value);
      assert minBody > 0.0 && wickRatio > 0.0 ==> body * wickRatio > 0.0 by {
        if minBody > 0.0 && wickRatio > 0.0 {
          assert body > 0.0;
        }
      }
      if upper < body * wickRatio then false
      else if Close(candle.value) < boxLow then false
      else if Volume(candle.value) < avgVolume then false
      else true
  }

  /** `is_three_bullish`: at least three candles, the last three with
      strictly rising closes and lows, their highest high at most
      `nearBoxPct` above the box top, and their mean volume at least the
      average. */
  function IsThreeBullish(candles: seq<Candle>, boxHigh: real, avgVolume: real, nearBoxPct: real): (r: bool)
    ensures r <==> |candles| >= 3 && (var c1, c2, c3 := candles[|candles| - 3], candles[|candles| - 2], candles[|candles| - 1];
      var top := boxHigh * (1.0 + nearBoxPct);
      Close(c1) < Close(c2) < Close(c3) && Low(c1) < Low(c2) < Low(c3)
      && High(c1) <= top && High(c2) <= top && High(c3) <= top
      && (Volume(c1) + Volume(c2) + Volume(c3)) / 3.0 >= avgVolume)
    ensures r ==> |candles| >= 3
    ensures r ==> var n := |candles|;
      Close(candles[n - 3]) < Close(candles[n - 2]) < Close(candles[n - 1])
      && Low(candles[n - 3]) < Low(candles[n - 2]) < Low(candles[n - 1])
      && Close(candles[n - 3]) < Close(candles[n - 1]) && Low(candles[n - 3]) < Low(candles[n - 1])
    ensures r ==> var n := |candles|;
      High(candles[n - 1]) <= boxHigh * (1.0 + nearBoxPct)
      && (Volume(candles[n - 3]) + Volume(candles[n - 2]) + Volume(candles[n - 1])) / 3.0 >= avgVolume
  {
    if |candles| < 3 then false
    else
      var n := |candles|;
      var c1, c2, c3 := candles[n - 3], candles[n - 2], candles[n - 1];
      if !(Close(c3) > Close(c2) > Close(c1)) then false
      else if !(Low(c3) > Low(c2) > Low(c1)) then false
      else
        var maxHigh := Numeric.MaxReal(Numeric.MaxReal(High(c1), High(c2)), High(c3));
        if maxHigh > boxHigh * (1.0 + nearBoxPct) then false
        else
          var avg3 := (Volume(c1) + Volume(c2) + Volume(c3)) / 3.0;
          if avg3 < avgVolume then false
          else true
  }

  /** `is_bullish_engulfing`: a bearish candle followed by a bullish one
      whose body spans it (open at or below the previous close, close at or
      above the previous open), on at least `volumeMult` times the average
      volume, closing at or above the box bottom. */
  function IsBullishEngulfing(candles: seq<Candle>, boxLow: real, avgVolume: real, volumeMult: real): (r: bool)
    ensures r <==> |candles| >= 2 && (var prev, curr := candles[|candles| - 2], candles[|candles| - 1];
      Bearish(prev) && Bullish(curr)
      && Open(curr) <= Close(prev) && Close(curr) >= Open(prev)
      && Volume(curr) >= avgVolume * volumeMult && Close(curr) >= boxLow)
    ensures r ==> |candles| >= 2
    ensures r ==> var prev, curr := candles[|candles| - 2], candles[|candles| - 1];
      Bearish(prev) && Bullish(curr)
      && Open(curr) <= Close(prev) && Close(curr) >= Open(prev)
      && Volume(curr) >= avgVolume * volumeMult && Close(curr) >= boxLow
  {
    if |candles| < 2 then false
    else
      var prev, curr := candles[|candles| - 2], candles[|candles| - 1];
      if !Bearish(prev) then false
      else if !Bullish(curr) then false
      else if !(Open(curr) <= Close(prev) && Close(curr) >= Open(prev)) then false
      else if Volume(curr) < avgVolume * volumeMult then false
      else if Close(curr) < boxLow then false
      else true
  }

  /** The engulfing candle's body is at least as large as the body it
      engulfs, and both ends of the previous body lie inside it. */
  lemma EngulfingCoversBody(candles: seq<Candle>, boxLow: real, avgVolume: real, volumeMult: real)
    requires IsBullishEngulfing(candles, boxLow, avgVolume, volumeMult)
    ensures var prev, curr := candles[|candles| - 2], candles[|candles| - 1];
      BodySize(curr) >= BodySize(prev)
      && Open(curr) <= Close(prev) < Open(prev) <= Close(curr)
  {
    var prev, curr := candles[|candles| - 2], candles[|candles| - 1];
    assert BodySize(prev) == Open(prev) - Close(prev);
    assert BodySize(curr) == Close(curr) - Open(curr);
  }

  /** The per-signal answers `explain_buy_signals` reports. */
  datatype Explanation = Explanation(wickBear: bool, threeBull: bool, engulf: bool)

  /** `explain_buy_signals`: every signal false for no candles; otherwise the
      wick test on the last candle and the two multi-candle tests. */
  function ExplainBuySignals(candles: seq<Candle>, boxHigh: real, boxLow: real, avgVolume: real,
                             wickRatio: real, nearBoxPct: real, engulfVolMult: real): (e: Explanation)
    ensures candles == [] ==> e == Explanation(false, false, false)
    ensures candles != [] ==> e.wickBear == IsLongUpperWickBearish(Some(candles[|candles| - 1]), boxLow, avgVolume, wickRatio, DefaultMinBody)
    ensures e.threeBull == IsThreeBullish(candles, boxHigh, avgVolume, nearBoxPct)
    ensures e.engulf == IsBullishEngulfing(candles, boxLow, avgVolume, engulfVolMult)
  {
    if candles == [] then Explanation(false, false, false)
    else
      var last := candles[|candles| - 1];
      Explanation(IsLongUpperWickBearish(Some(last), boxLow, avgVolume, wickRatio, DefaultMinBody),
                  IsThreeBullish(candles, boxHigh, avgVolume, nearBoxPct),
                  IsBullishEngulfing(candles, boxLow, avgVolume, engulfVolMult))
  }

  /** How many of the three answers are true. */
  function TrueCount(e: Explanation): nat
  {
    (if e.wickBear then 1 else 0) + (if e.threeBull then 1 else 0) + (if e.engulf then 1 else 0)
  }

  /** `count_buy_signals`: the number of signals that fire, between 0 and 3,
      0 for no candles, and the number of true answers `explain_buy_signals`
      gives for the same arguments. */
  function CountBuySignals(candles: seq<Candle>, boxHigh: real, boxLow: real, avgVolume: real,
                           wickRatio: real, nearBoxPct: real, engulfVolMult: real): (n: nat)
    ensures n <= 3
    ensures candles == [] ==> n == 0
    ensures n == TrueCount(ExplainBuySignals(candles, boxHigh, boxLow, avgVolume, wickRatio, nearBoxPct, engulfVolMult))
    ensures |candles| < 2 ==> n <= 1
  {
    if candles == [] then 0
    else
      var last := candles[|candles| - 1];
      var cnt := if IsLongUpperWickBearish(Some(last), boxLow, avgVolume, wickRatio, DefaultMinBody) then 1 else 0;
      var cnt := cnt + (if IsThreeBullish(candles, boxHigh, avgVolume, nearBoxPct) then 1 else 0);
      cnt + (if IsBullishEngulfing(candles, boxLow, avgVolume, engulfVolMult) then 1 else 0)
  }
}
