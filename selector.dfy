// The watchlist selector of the scout pipeline: a phase-dependent universe
// filter over each symbol's latest feature row, three bucket scorers
// (volume, structure, theme) that are hard-zeroed in the "normal" phase, and
// greedy pickers that share one `picked` set, seeded with the always-included
// large caps, so that a symbol ends up in at most one bucket.
//
// The floating-point numerics the source delegates to pandas and `math`
// (the logistic sigmoid, the population standard deviation, rolling means and
// `pct_change`) are abstract: the sigmoid and the standard deviation are the
// fields of a `Numerics` value, and the rolling quantities arrive as inputs
// of `ComputeFeatures`.
module Selector {
  import opened Wrappers
  import Text
  import Numeric

  // =========================
  // Config
  // =========================

  datatype SelectionQuota = SelectionQuota(volume: int, structure: int, theme: int, largecap: int)

  datatype SelectorConfig = SelectorConfig(
    phase: string,
    quota: SelectionQuota,
    minPrice: real,
    minTurnoverKrw: real,
    minAvgVol20: real,
    volSpikeRatioMin: real,
    intradayVolatilityMin: real,
    structTrendDays: int,
    structRangeMin: real,
    structRangeMax: real,
    themeMinScore: real,
    wTurnover: real,
    wVolSpike: real,
    wVolatility: real,
    wTrend: real,
    wCleanliness: real,
    wReasonableRange: real,
    wTheme: real,
    wThemeTurnover: real)

  /** `SelectorConfig(phase=phase)` with every other field at its default. */
  function DefaultConfig(phase: string): (cfg: SelectorConfig)
    ensures cfg.phase == phase
    ensures cfg.quota.volume == cfg.quota.structure == cfg.quota.theme == cfg.quota.largecap == 2
    ensures cfg.wTurnover + cfg.wVolSpike + cfg.wVolatility == 1.0
    ensures cfg.wTrend + cfg.wCleanliness + cfg.wReasonableRange == 1.0
    ensures cfg.wTheme + cfg.wThemeTurnover == 1.0
  {
    SelectorConfig(
      phase, SelectionQuota(2, 2, 2, 2),
      500.0, 2000000000.0, 50000.0,
      2.0, 0.03,
      5, 0.02, 0.10,
      0.4,
      0.35, 0.35, 0.30,
      0.45, 0.30, 0.25,
      0.70, 0.30)
  }

  predicate IsNormal(cfg: SelectorConfig)
  {
    cfg.phase == "normal"
  }

  /** The abstract numerics: `1 / (1 + exp(-x))` and `Series.std(ddof=0)`. */
  datatype Numerics = Numerics(sigmoid: real -> real, std: seq<real> -> real)

  // =========================
  // Helpers
  // =========================

  /** `max(lo, min(hi, x))`; also pandas' `clip(lo, hi)` on one value. */
  function Clamp(x: real, lo: real, hi: real): (r: real)
    ensures lo <= hi ==> lo <= r <= hi
    ensures lo <= x <= hi ==> r == x
    ensures x < lo ==> r == lo
    ensures lo <= hi && hi < x ==> r == hi
  {
    Numeric.MaxReal(lo, Numeric.MinReal(hi, x))
  }

  function MeanOrZero(xs: seq<real>): real
  {
    if xs == [] then 0.0 else Numeric.Mean(xs)
  }

  /** `_z_norm`: standardises a column; a zero standard deviation gives all zeros. */
  function ZNorm(xs: seq<real>, num: Numerics): (z: seq<real>)
    ensures |z| == |xs|
    ensures num.std(xs) == 0.0 ==> forall i :: 0 <= i < |z| ==> z[i] == 0.0
    ensures num.std(xs) != 0.0 ==>
      forall i :: 0 <= i < |z| ==> z[i] * num.std(xs) == xs[i] - MeanOrZero(xs)
  {
    var sd := num.std(xs);
    if sd == 0.0 then seq(|xs|, i => 0.0)
    else
      var m := MeanOrZero(xs);
      seq(|xs|, i requires 0 <= i < |xs| => (xs[i] - m) / sd)
  }

  function SigmoidAll(xs: seq<real>, num: Numerics): (r: seq<real>)
    ensures |r| == |xs| && forall i :: 0 <= i < |xs| ==> r[i] == num.sigmoid(xs[i])
  {
    seq(|xs|, i requires 0 <= i < |xs| => num.sigmoid(xs[i]))
  }

  /** The logistic function takes values in [0, 1]. */
  ghost predicate SigmoidInUnit(num: Numerics)
  {
    forall x: real :: 0.0 <= num.sigmoid(x) <= 1.0
  }

  // =========================
  // Features
  // =========================

  /** One daily OHLCV row of a symbol; a missing turnover is NaN. */
  datatype Bar = Bar(symbol: string, high: real, low: real, close: real, volume: real, turnoverKrw: Option<real>)

  /** A feature row; `None` stands for NaN. */
  datatype FeatureRow = FeatureRow(
    symbol: string,
    close: real,
    turnoverKrw: Option<real>,
    volAvg: real,
    hlcVolatility: Option<real>,
    volSpikeRatio: real,
    trend: real,
    clean: real)

  /** `compute_features` for one row, given the rolling quantities pandas computes
      for it (20-day volume mean, `pct_change(N)` filled with 0, and the 5-day
      share of closes above the 5-day mean, filled with 0.5). */
  function ComputeFeatures(bar: Bar, volAvg: real, trend: real, clean: real): (f: FeatureRow)
    ensures f.symbol == bar.symbol && f.close == bar.close && f.turnoverKrw == bar.turnoverKrw
    ensures f.volAvg == volAvg && f.trend == trend && f.clean == clean
    ensures bar.close == 0.0 <==> f.hlcVolatility.None?
    ensures f.hlcVolatility.Some? ==> f.hlcVolatility.value * bar.close == bar.high - bar.low
    ensures volAvg == 0.0 ==> f.volSpikeRatio == 1.0
    ensures volAvg != 0.0 ==> f.volSpikeRatio * volAvg == bar.volume
  {
    FeatureRow(
      bar.symbol, bar.close, bar.turnoverKrw, volAvg,
      if bar.close == 0.0 then None else Some((bar.high - bar.low) / bar.close),
      if volAvg == 0.0 then 1.0 else bar.volume / volAvg,
      trend, clean)
  }

  function SymbolsOf(rows: seq<FeatureRow>): (s: seq<string>)
    ensures |s| == |rows| && forall i :: 0 <= i < |rows| ==> s[i] == rows[i].symbol
  {
    seq(|rows|, i requires 0 <= i < |rows| => rows[i].symbol)
  }

  /** The last row of `s` in `history`. */
  function LastRowOf(history: seq<FeatureRow>, s: string): (r: FeatureRow)
    requires s in SymbolsOf(history)
    ensures r in history && r.symbol == s
    ensures exists i :: (0 <= i < |history| && history[i] == r
      && forall j :: i < j < |history| ==> history[j].symbol != s)
  {
    var n := |history| - 1;
    if history[n].symbol == s then history[n]
    else
      var init := history[..n];
      assert s in SymbolsOf(init) by {
        var k :| 0 <= k < |history| && SymbolsOf(history)[k] == s;
        assert k < n && init[k] == history[k];
        assert SymbolsOf(init)[k] == s;
      }
      var r := LastRowOf(init, s);
      assert exists i :: (0 <= i < |history| && history[i] == r
        && forall j :: i < j < |history| ==> history[j].symbol != s) by {
        var i :| 0 <= i < |init| && init[i] == r && forall j :: i < j < |init| ==> init[j].symbol != s;
        assert history[i] == r;
        forall j | i < j < |history| ensures history[j].symbol != s {
          if j < n {
            assert init[j] == history[j];
          }
        }
      }
      r
  }

  /** `groupby("symbol").tail(1)` of the frame sorted by symbol and date: one row
      per symbol, in ascending symbol order, the symbol's last row. */
  function Latest(history: seq<FeatureRow>): (l: seq<FeatureRow>)
    ensures Text.StrictlySorted(SymbolsOf(l))
    ensures forall s :: s in SymbolsOf(l) <==> s in SymbolsOf(history)
    ensures forall i :: 0 <= i < |l| ==> l[i] == LastRowOf(history, l[i].symbol)
  {
    var syms := Text.SortedUnique(SymbolsOf(history));
    var l := seq(|syms|, i requires 0 <= i < |syms| => LastRowOf(history, syms[i]));
    assert SymbolsOf(l) == syms;
    l
  }

  // =========================
  // Universe
  // =========================

  predicate InUniverse(r: FeatureRow, cfg: SelectorConfig)
  {
    if IsNormal(cfg) then
      r.close >= cfg.minPrice
      && r.turnoverKrw.Some? && r.turnoverKrw.value >= cfg.minTurnoverKrw
      && r.volAvg >= cfg.minAvgVol20
    else
      r.close >= cfg.minPrice
  }

  /** The universe: the latest rows that pass the phase's filter, in order. */
  function Universe(latest: seq<FeatureRow>, cfg: SelectorConfig): (u: seq<FeatureRow>)
    ensures forall r :: r in u <==> r in latest && InUniverse(r, cfg)
    ensures |u| <= |latest|
    ensures Text.NoDups(SymbolsOf(latest)) ==> Text.NoDups(SymbolsOf(u))
  {
    if latest == [] then []
    else
      var rest := Universe(latest[1..], cfg);
      assert SymbolsOf(latest[1..]) == SymbolsOf(latest)[1..];
      if InUniverse(latest[0], cfg) then
        assert Text.NoDups(SymbolsOf(latest)) ==> Text.NoDups(SymbolsOf([latest[0]] + rest)) by {
          if Text.NoDups(SymbolsOf(latest)) {
            forall j | 0 <= j < |rest| ensures rest[j].symbol != latest[0].symbol {
              assert rest[j] in latest[1..];
              var k :| 0 <= k < |latest[1..]| && latest[1..][k] == rest[j];
              assert SymbolsOf(latest)[k + 1] == rest[j].symbol;
            }
          }
        }
        [latest[0]] + rest
      else rest
  }

  // =========================
  // Scoring
  // =========================

  function TurnoverFilled(r: FeatureRow): real
  {
    r.turnoverKrw.GetOr(0.0)
  }

  function VolatilityFilled(r: FeatureRow): real
  {
    r.hlcVolatility.GetOr(0.0)
  }

  function TurnoverColumn(u: seq<FeatureRow>): (c: seq<real>)
    ensures |c| == |u| && forall i :: 0 <= i < |u| ==> c[i] == TurnoverFilled(u[i])
  {
    seq(|u|, i requires 0 <= i < |u| => TurnoverFilled(u[i]))
  }

  function SpikeColumn(u: seq<FeatureRow>): (c: seq<real>)
    ensures |c| == |u| && forall i :: 0 <= i < |u| ==> c[i] == u[i].volSpikeRatio
  {
    seq(|u|, i requires 0 <= i < |u| => u[i].volSpikeRatio)
  }

  function VolatilityColumn(u: seq<FeatureRow>): (c: seq<real>)
    ensures |c| == |u| && forall i :: 0 <= i < |u| ==> c[i] == VolatilityFilled(u[i])
  {
    seq(|u|, i requires 0 <= i < |u| => VolatilityFilled(u[i]))
  }

  /** The normal-phase gate of the volume bucket; a NaN volatility fails it. */
  predicate VolumeGate(r: FeatureRow, cfg: SelectorConfig)
  {
    r.volSpikeRatio >= cfg.volSpikeRatioMin
    && r.hlcVolatility.Some? && r.hlcVolatility.value >= cfg.intradayVolatilityMin
  }

  /** The sigmoid z-scores of the three volume columns, in row order. */
  datatype VolumeColumns = VolumeColumns(turnover: seq<real>, spike: seq<real>, volatility: seq<real>)

  function VolumeSigmoids(u: seq<FeatureRow>, num: Numerics): (c: VolumeColumns)
    ensures |c.turnover| == |c.spike| == |c.volatility| == |u|
    ensures SigmoidInUnit(num) ==> forall i :: 0 <= i < |u| ==>
      0.0 <= c.turnover[i] <= 1.0 && 0.0 <= c.spike[i] <= 1.0 && 0.0 <= c.volatility[i] <= 1.0
  {
    VolumeColumns(
      SigmoidAll(ZNorm(TurnoverColumn(u), num), num),
      SigmoidAll(ZNorm(SpikeColumn(u), num), num),
      SigmoidAll(ZNorm(VolatilityColumn(u), num), num))
  }

  function VolumeScoreAt(r: FeatureRow, zt: real, zs: real, zv: real, cfg: SelectorConfig): (x: real)
    ensures IsNormal(cfg) && !VolumeGate(r, cfg) ==> x == 0.0
  {
    if IsNormal(cfg) && !VolumeGate(r, cfg) then 0.0
    else cfg.wTurnover * zt + cfg.wVolSpike * zs + cfg.wVolatility * zv
  }

  /** `score_volume`: weighted sigmoid z-scores of turnover, spike ratio and
      volatility, zeroed in the normal phase where the gate fails. */
  function ScoreVolume(u: seq<FeatureRow>, cfg: SelectorConfig, num: Numerics): (s: seq<real>)
    ensures |s| == |u|
    ensures IsNormal(cfg) ==> forall i :: 0 <= i < |u| && !VolumeGate(u[i], cfg) ==> s[i] == 0.0
  {
    var c := VolumeSigmoids(u, num);
    seq(|u|, i requires 0 <= i < |u| => VolumeScoreAt(u[i], c.turnover[i], c.spike[i], c.volatility[i], cfg))
  }

  lemma MulUnit(w: real, z: real) returns (p: real)
    requires w >= 0.0 && 0.0 <= z <= 1.0
    ensures p == w * z && 0.0 <= p <= w
  {
    p := w * z;
  }

  /** With non-negative weights summing to at most 1 and a sigmoid into [0, 1],
      every volume score lies in [0, 1]. */
  lemma VolumeScoreInUnit(u: seq<FeatureRow>, cfg: SelectorConfig, num: Numerics, i: int)
    requires SigmoidInUnit(num)
    requires cfg.wTurnover >= 0.0 && cfg.wVolSpike >= 0.0 && cfg.wVolatility >= 0.0
    requires cfg.wTurnover + cfg.wVolSpike + cfg.wVolatility <= 1.0
    requires 0 <= i < |u|
    ensures 0.0 <= ScoreVolume(u, cfg, num)[i] <= 1.0
  {
    var c := VolumeSigmoids(u, num);
    var zt, zs, zv := c.turnover[i], c.spike[i], c.volatility[i];
    assert 0.0 <= zt <= 1.0 && 0.0 <= zs <= 1.0 && 0.0 <= zv <= 1.0;
    VolumeScoreAtInUnit(u[i], zt, zs, zv, cfg);
  }

  lemma VolumeScoreAtInUnit(r: FeatureRow, zt: real, zs: real, zv: real, cfg: SelectorConfig)
    requires cfg.wTurnover >= 0.0 && cfg.wVolSpike >= 0.0 && cfg.wVolatility >= 0.0
    requires cfg.wTurnover + cfg.wVolSpike + cfg.wVolatility <= 1.0
    requires 0.0 <= zt <= 1.0 && 0.0 <= zs <= 1.0 && 0.0 <= zv <= 1.0
    ensures 0.0 <= VolumeScoreAt(r, zt, zs, zv, cfg) <= 1.0
  {
    if !(IsNormal(cfg) && !VolumeGate(r, cfg)) {
      WeightedSumInUnit(cfg.wTurnover, cfg.wVolSpike, cfg.wVolatility, zt, zs, zv);
    }
  }

  lemma WeightedSumInUnit(w1: real, w2: real, w3: real, z1: real, z2: real, z3: real)
    requires w1 >= 0.0 && w2 >= 0.0 && w3 >= 0.0 && w1 + w2 + w3 <= 1.0
    requires 0.0 <= z1 <= 1.0 && 0.0 <= z2 <= 1.0 && 0.0 <= z3 <= 1.0
    ensures 0.0 <= w1 * z1 + w2 * z2 + w3 * z3 <= 1.0
  {
    var a := MulUnit(w1, z1);
    var b := MulUnit(w2, z2);
    var c := MulUnit(w3, z3);
    SumBelow(a, b, c, w1, w2, w3);
  }

  lemma SumBelow(a: real, b: real, c: real, w1: real, w2: real, w3: real)
    requires 0.0 <= a <= w1 && 0.0 <= b <= w2 && 0.0 <= c <= w3 && w1 + w2 + w3 <= 1.0
    ensures 0.0 <= a + b + c <= 1.0
  {
  }

  function TrendScore(trend: real): (r: real)
    ensures 0.0 <= r <= 1.0
    ensures Numeric.Abs(trend) >= 0.10 ==> r == 1.0
  {
    Clamp(Numeric.Abs(trend) / 0.10, 0.0, 1.0)
  }

  function CleanScore(clean: real): (r: real)
    ensures 0.0 <= r <= 1.0
    ensures clean == 0.6 ==> r == 1.0
  {
    Clamp(1.0 - Numeric.Abs(clean - 0.6) / 0.6, 0.0, 1.0)
  }

  predicate InStructRange(x: real, cfg: SelectorConfig)
  {
    cfg.structRangeMin <= x <= cfg.structRangeMax
  }

  function StructureScoreAt(r: FeatureRow, cfg: SelectorConfig): (x: real)
    ensures 0.0 <= x <= 1.0
    ensures IsNormal(cfg) && !InStructRange(VolatilityFilled(r), cfg) ==> x == 0.0
  {
    var vola := VolatilityFilled(r);
    var rangeScore := if InStructRange(vola, cfg) then 1.0 else 0.0;
    var score := Clamp(cfg.wTrend * TrendScore(r.trend) + cfg.wCleanliness * CleanScore(r.clean)
                       + cfg.wReasonableRange * rangeScore, 0.0, 1.0);
    if IsNormal(cfg) && !InStructRange(vola, cfg) then 0.0 else score
  }

  /** `score_structure`: the clipped weighted sum of trend, cleanliness and
      range scores, zeroed in the normal phase outside the range band. */
  function ScoreStructure(u: seq<FeatureRow>, cfg: SelectorConfig): (s: seq<real>)
    ensures |s| == |u|
    ensures forall i :: 0 <= i < |u| ==> 0.0 <= s[i] <= 1.0
    ensures IsNormal(cfg) ==>
      forall i :: 0 <= i < |u| && !InStructRange(VolatilityFilled(u[i]), cfg) ==> s[i] == 0.0
  {
    seq(|u|, i requires 0 <= i < |u| => StructureScoreAt(u[i], cfg))
  }

  /** An entry of the theme-score map: the builder's `{score, sources}` dict
      (either key may be missing), a bare number, or any other value. */
  datatype ThemeEntry =
    | ThemeDetail(score: Option<real>, sources: Option<seq<string>>)
    | ThemeNumber(value: real)
    | ThemeOther

  /** The raw theme signal of a symbol (lines 208-215); 0.0 when absent. */
  function ThemeValue(m: map<string, ThemeEntry>, s: string): real
  {
    if s !in m then 0.0
    else match m[s]
      case ThemeDetail(Some(x), _) => x
      case ThemeNumber(v) => v
      case _ => 0.0
  }

  /** The sources shown with a theme pick: the entry's list, or nothing. */
  function ThemeSources(m: map<string, ThemeEntry>, s: string): seq<string>
  {
    if s in m && m[s].ThemeDetail? && m[s].sources.Some? then m[s].sources.value else []
  }

  function ThemeScoreAt(r: FeatureRow, m: map<string, ThemeEntry>, zt: real, cfg: SelectorConfig): (x: real)
    ensures 0.0 <= x <= 1.0
    ensures IsNormal(cfg) && Clamp(ThemeValue(m, r.symbol), 0.0, 1.0) < cfg.themeMinScore ==> x == 0.0
  {
    var ts := Clamp(ThemeValue(m, r.symbol), 0.0, 1.0);
    var score := Clamp(cfg.wTheme * ts + cfg.wThemeTurnover * zt, 0.0, 1.0);
    if IsNormal(cfg) && ts < cfg.themeMinScore then 0.0 else score
  }

  /** `score_theme`: the clipped mix of the clipped theme signal and the
      turnover sigmoid, zeroed in the normal phase below `theme_min_score`. */
  function ScoreTheme(u: seq<FeatureRow>, m: map<string, ThemeEntry>, cfg: SelectorConfig, num: Numerics): (s: seq<real>)
    ensures |s| == |u|
    ensures forall i :: 0 <= i < |u| ==> 0.0 <= s[i] <= 1.0
    ensures IsNormal(cfg) ==> forall i :: (0 <= i < |u|
      && Clamp(ThemeValue(m, u[i].symbol), 0.0, 1.0) < cfg.themeMinScore) ==> s[i] == 0.0
  {
    var zt := SigmoidAll(ZNorm(TurnoverColumn(u), num), num);
    seq(|u|, i requires 0 <= i < |u| => ThemeScoreAt(u[i], m, zt[i], cfg))
  }

  // =========================
  // Ranking
  // =========================

  /** A scored universe row. */
  datatype Cand = Cand(symbol: string, score: real, row: FeatureRow)

  predicate SortedDesc(cs: seq<Cand>)
  {
    forall i, j :: 0 <= i < j < |cs| ==> cs[i].score >= cs[j].score
  }

  /** A candidate scoring at least the head of a sorted list may go in
      front of it. */
  lemma ConsSorted(x: Cand, t: seq<Cand>)
    requires SortedDesc(t) && (t == [] || t[0].score <= x.score)
    ensures SortedDesc([x] + t)
  {
    var r := [x] + t;
    forall i, j | 0 <= i < j < |r| ensures r[i].score >= r[j].score {
      assert r[j] == t[j - 1];
      if i > 0 {
        assert r[i] == t[i - 1];
      } else if j > 1 {
        assert t[0].score >= t[j - 1].score;
      }
    }
  }

  function InsertDesc(c: Cand, cs: seq<Cand>): (r: seq<Cand>)
    requires SortedDesc(cs)
    ensures SortedDesc(r)
    ensures multiset(r) == multiset(cs) + multiset{c}
    ensures r[0] == c || (cs != [] && r[0] == cs[0])
  {
    if cs == [] || cs[0].score <= c.score then
      ConsSorted(c, cs);
      [c] + cs
    else
      assert cs == [cs[0]] + cs[1..];
      assert SortedDesc(cs[1..]);
      var tail := InsertDesc(c, cs[1..]);
      assert tail[0].score <= cs[0].score;
      ConsSorted(cs[0], tail);
      [cs[0]] + tail
  }

  /** `sort_values(ascending=False)`, stable: ties keep universe order. */
  function SortDesc(cs: seq<Cand>): (r: seq<Cand>)
    ensures SortedDesc(r)
    ensures multiset(r) == multiset(cs)
  {
    if cs == [] then []
    else
      assert cs == [cs[0]] + cs[1..];
      InsertDesc(cs[0], SortDesc(cs[1..]))
  }

  /** Pairs each universe row with its score. */
  function Scored(u: seq<FeatureRow>, s: seq<real>): (cs: seq<Cand>)
    requires |s| == |u|
    ensures |cs| == |u|
    ensures forall i :: 0 <= i < |u| ==> cs[i] == Cand(u[i].symbol, s[i], u[i])
  {
    seq(|u|, i requires 0 <= i < |u| => Cand(u[i].symbol, s[i], u[i]))
  }

  function Ranked(u: seq<FeatureRow>, s: seq<real>): (cs: seq<Cand>)
    requires |s| == |u|
    ensures SortedDesc(cs)
    ensures forall c :: c in cs <==> exists i :: 0 <= i < |u| && c == Cand(u[i].symbol, s[i], u[i])
  {
    var r := SortDesc(Scored(u, s));
    assert forall c :: c in r <==> c in Scored(u, s) by {
      forall c ensures c in r <==> c in Scored(u, s) {
        assert c in r <==> c in multiset(r);
      }
    }
    r
  }

  // =========================
  // Greedy picking
  // =========================

  function CandSymbols(cs: seq<Cand>): set<string>
  {
    set c | c in cs :: c.symbol
  }

  /** What a picker returns: scan `ranked` in order, skip picked symbols and
      scores <= 0, take the rest, and stop once `taken` reaches `k` — after the
      append, so a quota of 0 or less still admits one pick. */
  function Greedy(ranked: seq<Cand>, k: int, picked: set<string>, taken: nat): seq<Cand>
  {
    if ranked == [] then []
    else
      var c := ranked[0];
      if c.symbol in picked || c.score <= 0.0 then Greedy(ranked[1..], k, picked, taken)
      else if taken + 1 >= k then [c]
      else [c] + Greedy(ranked[1..], k, picked + {c.symbol}, taken + 1)
  }

  /** A greedy pick never repeats a symbol, never takes an already picked
      symbol or a score <= 0, and takes each candidate from `ranked`. */
  lemma {:induction false} GreedyPicksEligible(ranked: seq<Cand>, k: int, picked: set<string>, taken: nat)
    ensures forall c :: c in Greedy(ranked, k, picked, taken) ==>
      c in ranked && c.symbol !in picked && c.score > 0.0
    ensures forall i, j :: 0 <= i < j < |Greedy(ranked, k, picked, taken)| ==>
      Greedy(ranked, k, picked, taken)[i].symbol != Greedy(ranked, k, picked, taken)[j].symbol
  {
    if ranked != [] {
      var c := ranked[0];
      if c.symbol in picked || c.score <= 0.0 {
        GreedyPicksEligible(ranked[1..], k, picked, taken);
      } else if taken + 1 < k {
        GreedyPicksEligible(ranked[1..], k, picked + {c.symbol}, taken + 1);
        var g := Greedy(ranked[1..], k, picked + {c.symbol}, taken + 1);
        assert Greedy(ranked, k, picked, taken) == [c] + g;
        forall i, j | 0 <= i < j < |[c] + g| ensures ([c] + g)[i].symbol != ([c] + g)[j].symbol {
          if i == 0 {
            assert ([c] + g)[j] == g[j - 1] && g[j - 1] in g;
          }
        }
      }
    }
  }

  /** The bucket size: at most `k` when `k >= 1`, at most one otherwise. */
  lemma {:induction false} GreedyQuota(ranked: seq<Cand>, k: int, picked: set<string>, taken: nat)
    ensures taken + |Greedy(ranked, k, picked, taken)| <= if k >= taken + 1 then k else taken + 1
  {
    if ranked != [] {
      var c := ranked[0];
      if c.symbol in picked || c.score <= 0.0 {
        GreedyQuota(ranked[1..], k, picked, taken);
      } else if taken + 1 < k {
        GreedyQuota(ranked[1..], k, picked + {c.symbol}, taken + 1);
      }
    }
  }

  /** Picks keep the scan order, so they come out in descending score order. */
  lemma {:induction false} GreedySortedDesc(ranked: seq<Cand>, k: int, picked: set<string>, taken: nat)
    requires SortedDesc(ranked)
    ensures SortedDesc(Greedy(ranked, k, picked, taken))
  {
    if ranked != [] {
      var c := ranked[0];
      assert SortedDesc(ranked[1..]);
      if c.symbol in picked || c.score <= 0.0 {
        GreedySortedDesc(ranked[1..], k, picked, taken);
      } else if taken + 1 < k {
        GreedySortedDesc(ranked[1..], k, picked + {c.symbol}, taken + 1);
        GreedyPicksEligible(ranked[1..], k, picked + {c.symbol}, taken + 1);
        var g := Greedy(ranked[1..], k, picked + {c.symbol}, taken + 1);
        forall j | 0 <= j < |g| ensures c.score >= g[j].score {
          assert g[j] in ranked[1..];
        }
      }
    }
  }

  /** Greedy with nothing left to skip: while the quota is not reached, every
      eligible candidate (unpicked, score > 0) of the scan is picked, and when
      the quota is reached every eligible candidate left out scores no more
      than any pick. */
  lemma {:induction false} GreedyTakesBest(ranked: seq<Cand>, k: int, picked: set<string>, taken: nat, d: Cand)
    requires SortedDesc(ranked)
    requires d in ranked && d.symbol !in picked && d.score > 0.0
    requires d.symbol !in CandSymbols(Greedy(ranked, k, picked, taken))
    ensures taken + |Greedy(ranked, k, picked, taken)| >= k
    ensures forall c :: c in Greedy(ranked, k, picked, taken) ==> c.score >= d.score
  {
    var c := ranked[0];
    if c.symbol in picked || c.score <= 0.0 {
      assert d != c;
      GreedyTakesBest(ranked[1..], k, picked, taken, d);
    } else if taken + 1 >= k {
      assert Greedy(ranked, k, picked, taken) == [c];
      assert c.score >= d.score by {
        var j :| 0 <= j < |ranked| && ranked[j] == d;
      }
    } else {
      var g := Greedy(ranked[1..], k, picked + {c.symbol}, taken + 1);
      assert Greedy(ranked, k, picked, taken) == [c] + g;
      assert d.symbol != c.symbol by {
        assert c in Greedy(ranked, k, picked, taken);
      }
      assert d in ranked[1..];
      assert d.symbol !in CandSymbols(g);
      GreedyTakesBest(ranked[1..], k, picked + {c.symbol}, taken + 1, d);
      assert c.score >= d.score by {
        var j :| 0 <= j < |ranked| && ranked[j] == d;
      }
    }
  }

  /** One `_pick_*` closure: the loop over the ranked scores that appends to
      `out` and adds each pick to the shared `picked` set. */
  method PickBucket(ranked: seq<Cand>, k: int, picked0: set<string>) returns (out: seq<Cand>, picked: set<string>)
    ensures out == Greedy(ranked, k, picked0, 0)
    ensures picked == picked0 + CandSymbols(out)
  {
    out := [];
    picked := picked0;
    var i := 0;
    while i < |ranked|
      invariant 0 <= i <= |ranked|
      invariant out + Greedy(ranked[i..], k, picked, |out|) == Greedy(ranked, k, picked0, 0)
      invariant picked == picked0 + CandSymbols(out)
    {
      var c := ranked[i];
      GreedyStep(ranked, i, k, picked, |out|);
      if c.symbol in picked || c.score <= 0.0 {
        i := i + 1;
        continue;
      }
      TakeStep(ranked, i, k, picked0, out, picked);
      out := out + [c];
      picked := picked + {c.symbol};
      if |out| >= k {
        break;
      }
      i := i + 1;
    }
  }

  /** Taking the candidate at `i` keeps the picker loop's invariant, and
      completes the scan once the quota is met. */
  lemma TakeStep(ranked: seq<Cand>, i: nat, k: int, picked0: set<string>, out: seq<Cand>, picked: set<string>)
    requires i < |ranked| && ranked[i].symbol !in picked && ranked[i].score > 0.0
    requires out + Greedy(ranked[i..], k, picked, |out|) == Greedy(ranked, k, picked0, 0)
    requires picked == picked0 + CandSymbols(out)
    ensures var out', picked' := out + [ranked[i]], picked + {ranked[i].symbol};
      picked' == picked0 + CandSymbols(out')
      && (|out'| >= k ==> out' == Greedy(ranked, k, picked0, 0))
      && (|out'| < k ==> out' + Greedy(ranked[i + 1..], k, picked', |out'|) == Greedy(ranked, k, picked0, 0))
  {
    var c := ranked[i];
    GreedyStep(ranked, i, k, picked, |out|);
    CandSymbolsSnoc(out, c);
    if |out| + 1 < k {
      assert out + ([c] + Greedy(ranked[i + 1..], k, picked + {c.symbol}, |out| + 1))
          == (out + [c]) + Greedy(ranked[i + 1..], k, picked + {c.symbol}, |out| + 1);
    }
  }

  /** The picker's scan from position `i`: skip, take and stop, or take and go on. */
  lemma GreedyStep(ranked: seq<Cand>, i: nat, k: int, picked: set<string>, taken: nat)
    requires i < |ranked|
    ensures var c := ranked[i];
      Greedy(ranked[i..], k, picked, taken) ==
        if c.symbol in picked || c.score <= 0.0 then Greedy(ranked[i + 1..], k, picked, taken)
        else if taken + 1 >= k then [c]
        else [c] + Greedy(ranked[i + 1..], k, picked + {c.symbol}, taken + 1)
  {
    assert ranked[i..][0] == ranked[i] && ranked[i..][1..] == ranked[i + 1..];
  }

  lemma CandSymbolsSnoc(cs: seq<Cand>, c: Cand)
    ensures CandSymbols(cs + [c]) == CandSymbols(cs) + {c.symbol}
  {
    assert forall e :: e in cs + [c] <==> e in cs || e == c;
  }

  // =========================
  // Selection
  // =========================

  datatype Bucket = LargecapBucket | VolumeBucket | StructureBucket | ThemeBucket

  datatype Reason =
    | LargecapReason(close: real, turnover: Option<real>)
    | VolumeReason(vTurnover: Option<real>, volSpikeRatio: real, hlcVolatility: Option<real>)
    | StructureReason(trend: real, clean: real, sHlcVolatility: Option<real>)
    | ThemeReason(themeScore: real, tTurnover: Option<real>, sources: seq<string>)

  datatype Pick = Pick(symbol: string, bucket: Bucket, score: real, reason: Reason)

  datatype Watchlist = Watchlist(largecap: seq<Pick>, volume: seq<Pick>, structure: seq<Pick>, theme: seq<Pick>)

  function PickSymbols(ps: seq<Pick>): set<string>
  {
    set p | p in ps :: p.symbol
  }

  function RowOf(latest: seq<FeatureRow>, s: string): (r: FeatureRow)
    requires s in SymbolsOf(latest)
    ensures r in latest && r.symbol == s
  {
    if latest[0].symbol == s then latest[0]
    else
      assert SymbolsOf(latest[1..]) == SymbolsOf(latest)[1..];
      RowOf(latest[1..], s)
  }

  /** The large-cap bucket: every configured symbol present in `latest`, in
      list order, with score 1.0, whatever the universe filter says. */
  function LargecapPicks(largecaps: seq<string>, latest: seq<FeatureRow>): (ps: seq<Pick>)
    ensures forall p :: p in ps ==> p.bucket == LargecapBucket && p.score == 1.0
    ensures PickSymbols(ps) == set s | s in largecaps && s in SymbolsOf(latest)
  {
    if largecaps == [] then []
    else
      var s := largecaps[0];
      var rest := LargecapPicks(largecaps[1..], latest);
      assert forall x :: x in largecaps <==> x == s || x in largecaps[1..];
      if s in SymbolsOf(latest) then
        var row := RowOf(latest, s);
        var p := Pick(s, LargecapBucket, 1.0, LargecapReason(row.close, row.turnoverKrw));
        assert PickSymbols([p] + rest) == {s} + PickSymbols(rest) by {
          assert forall q :: q in [p] + rest <==> q == p || q in rest;
        }
        [p] + rest
      else rest
  }

  function LargecapSymbolsInOrder(ps: seq<Pick>): seq<string>
  {
    seq(|ps|, i requires 0 <= i < |ps| => ps[i].symbol)
  }

  /** The large-cap symbols appear exactly as filtered from the configured list, in order. */
  lemma {:induction false} LargecapOrder(largecaps: seq<string>, latest: seq<FeatureRow>)
    ensures LargecapSymbolsInOrder(LargecapPicks(largecaps, latest)) == FilterPresent(largecaps, SymbolsOf(latest))
  {
    if largecaps != [] {
      LargecapOrder(largecaps[1..], latest);
    }
  }

  function FilterPresent(xs: seq<string>, present: seq<string>): seq<string>
  {
    if xs == [] then []
    else if xs[0] in present then [xs[0]] + FilterPresent(xs[1..], present)
    else FilterPresent(xs[1..], present)
  }

  function ToPicks(cs: seq<Cand>, bucket: Bucket, m: map<string, ThemeEntry>): (ps: seq<Pick>)
    ensures |ps| == |cs|
    ensures forall i :: 0 <= i < |cs| ==> ps[i].symbol == cs[i].symbol && ps[i].score == cs[i].score && ps[i].bucket == bucket
  {
    seq(|cs|, i requires 0 <= i < |cs| => Pick(cs[i].symbol, bucket, cs[i].score, ReasonOf(cs[i], bucket, m)))
  }

  /** The reason a bucket gives its pick. */
  function ReasonOf(c: Cand, bucket: Bucket, m: map<string, ThemeEntry>): Reason
  {
    match bucket
    case VolumeBucket => VolumeReason(c.row.turnoverKrw, c.row.volSpikeRatio, c.row.hlcVolatility)
    case StructureBucket => StructureReason(c.row.trend, c.row.clean, c.row.hlcVolatility)
    case ThemeBucket => ThemeReason(ThemeValue(m, c.symbol), c.row.turnoverKrw, ThemeSources(m, c.symbol))
    case LargecapBucket => LargecapReason(c.row.close, c.row.turnoverKrw)
  }

  lemma ToPicksSymbols(cs: seq<Cand>, bucket: Bucket, m: map<string, ThemeEntry>)
    ensures PickSymbols(ToPicks(cs, bucket, m)) == CandSymbols(cs)
  {
    var ps := ToPicks(cs, bucket, m);
    forall x ensures x in PickSymbols(ps) <==> x in CandSymbols(cs) {
      if x in PickSymbols(ps) {
        var p :| p in ps && p.symbol == x;
        var i :| 0 <= i < |ps| && ps[i] == p;
        assert cs[i] in cs;
      }
      if x in CandSymbols(cs) {
        var c :| c in cs && c.symbol == x;
        var i :| 0 <= i < |cs| && cs[i] == c;
        assert ps[i] in ps;
      }
    }
  }

  /** A bucket's picks in terms of the universe: each pick is a universe row
      with a positive bucket score, no symbol repeats, and the size and order
      obey the picker loop. */
  predicate BucketOk(ps: seq<Pick>, u: seq<FeatureRow>, s: seq<real>, k: int, bucket: Bucket)
    requires |s| == |u|
  {
    (forall p :: p in ps ==> (p.bucket == bucket && p.score > 0.0
        && exists i :: 0 <= i < |u| && u[i].symbol == p.symbol && s[i] == p.score))
    && (forall i, j :: 0 <= i < j < |ps| ==> ps[i].symbol != ps[j].symbol && ps[i].score >= ps[j].score)
    && |ps| <= (if k >= 1 then k else 1)
  }

  /** The picks of one bucket, as the greedy scan over the ranked scores makes them. */
  lemma GreedyBucketOk(u: seq<FeatureRow>, s: seq<real>, k: int, picked0: set<string>, bucket: Bucket, m: map<string, ThemeEntry>)
    requires |s| == |u|
    ensures BucketOk(ToPicks(Greedy(Ranked(u, s), k, picked0, 0), bucket, m), u, s, k, bucket)
    ensures PickSymbols(ToPicks(Greedy(Ranked(u, s), k, picked0, 0), bucket, m)) !! picked0
    ensures PickSymbols(ToPicks(Greedy(Ranked(u, s), k, picked0, 0), bucket, m)) == CandSymbols(Greedy(Ranked(u, s), k, picked0, 0))
  {
    GreedyOkOn(Ranked(u, s), u, s, k, picked0, bucket, m);
  }

  /** The same for any score-sorted list of universe candidates. */
  lemma GreedyOkOn(ranked: seq<Cand>, u: seq<FeatureRow>, s: seq<real>, k: int, picked0: set<string>, bucket: Bucket,
                   m: map<string, ThemeEntry>)
    requires |s| == |u| && SortedDesc(ranked)
    requires forall c :: c in ranked ==> exists i :: 0 <= i < |u| && c == Cand(u[i].symbol, s[i], u[i])
    ensures BucketOk(ToPicks(Greedy(ranked, k, picked0, 0), bucket, m), u, s, k, bucket)
    ensures PickSymbols(ToPicks(Greedy(ranked, k, picked0, 0), bucket, m)) !! picked0
    ensures PickSymbols(ToPicks(Greedy(ranked, k, picked0, 0), bucket, m)) == CandSymbols(Greedy(ranked, k, picked0, 0))
  {
    var cs := Greedy(ranked, k, picked0, 0);
    GreedyPicksEligible(ranked, k, picked0, 0);
    GreedySortedDesc(ranked, k, picked0, 0);
    GreedyQuota(ranked, k, picked0, 0);
    PicksOk(cs, u, s, k, picked0, bucket, m);
  }

  /** The picks of distinct, score-sorted, positive universe candidates
      outside `picked0`, no more than the quota allows, obey the bucket
      rules and avoid `picked0`. */
  lemma PicksOk(cs: seq<Cand>, u: seq<FeatureRow>, s: seq<real>, k: int, picked0: set<string>, bucket: Bucket,
                m: map<string, ThemeEntry>)
    requires |s| == |u| && SortedDesc(cs) && |cs| <= (if k >= 1 then k else 1)
    requires forall c :: c in cs ==> c.symbol !in picked0 && c.score > 0.0
    requires forall c :: c in cs ==> exists i :: 0 <= i < |u| && c == Cand(u[i].symbol, s[i], u[i])
    requires forall i, j :: 0 <= i < j < |cs| ==> cs[i].symbol != cs[j].symbol
    ensures BucketOk(ToPicks(cs, bucket, m), u, s, k, bucket)
    ensures PickSymbols(ToPicks(cs, bucket, m)) !! picked0
    ensures PickSymbols(ToPicks(cs, bucket, m)) == CandSymbols(cs)
  {
    PicksFromUniverse(u, s, cs, bucket, m);
    PicksOrdered(cs, bucket, m);
    ToPicksSymbols(cs, bucket, m);
    forall x | x in CandSymbols(cs) ensures x !in picked0 {
      var c :| c in cs && c.symbol == x;
    }
  }

  /** Picks made from positive-scoring universe candidates are universe
      rows with their scores. */
  lemma PicksFromUniverse(u: seq<FeatureRow>, s: seq<real>, cs: seq<Cand>, bucket: Bucket, m: map<string, ThemeEntry>)
    requires |s| == |u|
    requires forall c :: c in cs ==> c.score > 0.0 && exists i :: 0 <= i < |u| && c == Cand(u[i].symbol, s[i], u[i])
    ensures forall p :: p in ToPicks(cs, bucket, m) ==> (p.bucket == bucket && p.score > 0.0
        && exists i :: 0 <= i < |u| && u[i].symbol == p.symbol && s[i] == p.score)
  {
    var ps := ToPicks(cs, bucket, m);
    forall p | p in ps
      ensures p.bucket == bucket && p.score > 0.0
      ensures exists i :: 0 <= i < |u| && u[i].symbol == p.symbol && s[i] == p.score
    {
      var j :| 0 <= j < |ps| && ps[j] == p;
      assert cs[j] in cs;
      var i :| 0 <= i < |u| && cs[j] == Cand(u[i].symbol, s[i], u[i]);
    }
  }

  /** Picks keep the candidates' order and distinct symbols. */
  lemma PicksOrdered(cs: seq<Cand>, bucket: Bucket, m: map<string, ThemeEntry>)
    requires SortedDesc(cs)
    requires forall i, j :: 0 <= i < j < |cs| ==> cs[i].symbol != cs[j].symbol
    ensures var ps := ToPicks(cs, bucket, m);
      forall i, j :: 0 <= i < j < |ps| ==> ps[i].symbol != ps[j].symbol && ps[i].score >= ps[j].score
  {
  }

  /** A greedy pick that stops short of its quota has taken every eligible
      symbol of `ranked`. */
  lemma {:induction false} GreedyComplete(ranked: seq<Cand>, k: int, picked: set<string>, taken: nat)
    requires |Greedy(ranked, k, picked, taken)| < (if k - taken >= 1 then k - taken else 1)
    ensures forall c :: c in ranked && c.symbol !in picked && c.score > 0.0 ==>
      c.symbol in CandSymbols(Greedy(ranked, k, picked, taken))
  {
    if ranked != [] {
      var c0 := ranked[0];
      if c0.symbol in picked || c0.score <= 0.0 {
        GreedyComplete(ranked[1..], k, picked, taken);
        forall c | c in ranked && c.symbol !in picked && c.score > 0.0
          ensures c.symbol in CandSymbols(Greedy(ranked, k, picked, taken))
        {
          assert c in ranked[1..];
        }
      } else if taken + 1 < k {
        var rest := Greedy(ranked[1..], k, picked + {c0.symbol}, taken + 1);
        assert Greedy(ranked, k, picked, taken) == [c0] + rest;
        GreedyComplete(ranked[1..], k, picked + {c0.symbol}, taken + 1);
        forall c | c in ranked && c.symbol !in picked && c.score > 0.0
          ensures c.symbol in CandSymbols(Greedy(ranked, k, picked, taken))
        {
          if c.symbol == c0.symbol {
            assert c0 in [c0] + rest;
          } else {
            assert c in ranked[1..];
            var d :| d in rest && d.symbol == c.symbol;
            assert d in [c0] + rest;
          }
        }
      }
    }
  }

  /** Over a descending ranking, an eligible candidate the greedy pick leaves
      out scores no higher than any pick. */
  lemma {:induction false} GreedyTop(ranked: seq<Cand>, k: int, picked: set<string>, taken: nat)
    requires SortedDesc(ranked)
    ensures forall c, g :: (c in ranked && c.symbol !in picked && c.score > 0.0
      && c.symbol !in CandSymbols(Greedy(ranked, k, picked, taken))
      && g in Greedy(ranked, k, picked, taken)) ==> g.score >= c.score
  {
    if ranked != [] {
      var c0 := ranked[0];
      var g0 := Greedy(ranked, k, picked, taken);
      if c0.symbol in picked || c0.score <= 0.0 {
        GreedyTop(ranked[1..], k, picked, taken);
        forall c | c in ranked && c.symbol !in picked && c.score > 0.0
          ensures c in ranked[1..]
        {
        }
      } else if taken + 1 >= k {
        forall c | c in ranked ensures c0.score >= c.score {
          var j :| 0 <= j < |ranked| && ranked[j] == c;
        }
      } else {
        var rest := Greedy(ranked[1..], k, picked + {c0.symbol}, taken + 1);
        assert g0 == [c0] + rest;
        assert c0.symbol in CandSymbols(g0) by { assert c0 in g0; }
        GreedyTop(ranked[1..], k, picked + {c0.symbol}, taken + 1);
        forall c, g | c in ranked && c.symbol !in picked && c.score > 0.0
          && c.symbol !in CandSymbols(g0) && g in g0
          ensures g.score >= c.score
        {
          var j :| 0 <= j < |ranked| && ranked[j] == c;
          assert j > 0;
          assert c in ranked[1..];
          if g != c0 {
            assert g in rest;
          }
        }
      }
    }
  }

  /** The picks one bucket's picker makes from the universe `u` scored by `s`,
      given the symbols `picked` by earlier buckets. */
  function BucketPicks(u: seq<FeatureRow>, s: seq<real>, k: int, picked: set<string>, bucket: Bucket,
                       m: map<string, ThemeEntry>): seq<Pick>
    requires |s| == |u|
  {
    ToPicks(Greedy(Ranked(u, s), k, picked, 0), bucket, m)
  }

  /** A universe row with a positive score whose symbol no bucket took, this
      one included, was left out only because the bucket filled its quota
      with picks scoring at least as high. */
  lemma BucketPicksTop(u: seq<FeatureRow>, s: seq<real>, k: int, picked: set<string>, bucket: Bucket,
                       m: map<string, ThemeEntry>)
    requires |s| == |u|
    ensures var ps := BucketPicks(u, s, k, picked, bucket, m);
      forall i :: (0 <= i < |u| && s[i] > 0.0 && u[i].symbol !in picked && u[i].symbol !in PickSymbols(ps)) ==>
        |ps| == (if k >= 1 then k else 1) && forall p :: p in ps ==> p.score >= s[i]
  {
    var ranked := Ranked(u, s);
    var cs := Greedy(ranked, k, picked, 0);
    var ps := ToPicks(cs, bucket, m);
    GreedyBucketOk(u, s, k, picked, bucket, m);
    forall i | 0 <= i < |u| && s[i] > 0.0 && u[i].symbol !in picked && u[i].symbol !in PickSymbols(ps)
      ensures |ps| == (if k >= 1 then k else 1) && forall p :: p in ps ==> p.score >= s[i]
    {
      var c := Cand(u[i].symbol, s[i], u[i]);
      assert c in ranked;
      if |cs| < (if k >= 1 then k else 1) {
        GreedyComplete(ranked, k, picked, 0);
        assert false;
      }
      GreedyTop(ranked, k, picked, 0);
      forall p | p in ps ensures p.score >= s[i] {
        var j :| 0 <= j < |ps| && ps[j] == p;
        assert cs[j] in cs;
      }
    }
  }

  method PickInto(u: seq<FeatureRow>, s: seq<real>, k: int, picked0: set<string>, bucket: Bucket, m: map<string, ThemeEntry>)
    returns (ps: seq<Pick>, picked: set<string>)
    requires |s| == |u|
    ensures ps == BucketPicks(u, s, k, picked0, bucket, m)
    ensures BucketOk(ps, u, s, k, bucket)
    ensures PickSymbols(ps) !! picked0
    ensures picked == picked0 + PickSymbols(ps)
  {
    var cs;
    cs, picked := PickBucket(Ranked(u, s), k, picked0);
    ps := ToPicks(cs, bucket, m);
    GreedyBucketOk(u, s, k, picked0, bucket, m);
  }

  /** The watchlist `select_watchlist` returns: the large caps first, then the
      volume, structure and theme pickers in turn, each skipping every symbol
      an earlier bucket took. */
  function Selected(history: seq<FeatureRow>, cfg: SelectorConfig, largecaps: seq<string>,
                    m: map<string, ThemeEntry>, num: Numerics): Watchlist
  {
    var latest := Latest(history);
    var u := Universe(latest, cfg);
    var large := LargecapPicks(largecaps, latest);
    var p0 := PickSymbols(large);
    var vol := BucketPicks(u, ScoreVolume(u, cfg, num), cfg.quota.volume, p0, VolumeBucket, m);
    var p1 := p0 + PickSymbols(vol);
    var st := BucketPicks(u, ScoreStructure(u, cfg), cfg.quota.structure, p1, StructureBucket, m);
    var p2 := p1 + PickSymbols(st);
    var th := BucketPicks(u, ScoreTheme(u, m, cfg, num), cfg.quota.theme, p2, ThemeBucket, m);
    Watchlist(large, vol, st, th)
  }

  /** Every bucket of the selected watchlist obeys its picker's rule over the
      latest universe, and no symbol appears in two buckets. */
  lemma SelectedRule(history: seq<FeatureRow>, cfg: SelectorConfig, largecaps: seq<string>,
                     m: map<string, ThemeEntry>, num: Numerics)
    ensures var w := Selected(history, cfg, largecaps, m, num);
      var u := Universe(Latest(history), cfg);
      && w.largecap == LargecapPicks(largecaps, Latest(history))
      && BucketOk(w.volume, u, ScoreVolume(u, cfg, num), cfg.quota.volume, VolumeBucket)
      && BucketOk(w.structure, u, ScoreStructure(u, cfg), cfg.quota.structure, StructureBucket)
      && BucketOk(w.theme, u, ScoreTheme(u, m, cfg, num), cfg.quota.theme, ThemeBucket)
      && PickSymbols(w.largecap) !! PickSymbols(w.volume)
      && PickSymbols(w.largecap) !! PickSymbols(w.structure)
      && PickSymbols(w.largecap) !! PickSymbols(w.theme)
      && PickSymbols(w.volume) !! PickSymbols(w.structure)
      && PickSymbols(w.volume) !! PickSymbols(w.theme)
      && PickSymbols(w.structure) !! PickSymbols(w.theme)
  {
    var latest := Latest(history);
    var u := Universe(latest, cfg);
    var p0 := PickSymbols(LargecapPicks(largecaps, latest));
    var sv, ss, st := ScoreVolume(u, cfg, num), ScoreStructure(u, cfg), ScoreTheme(u, m, cfg, num);
    GreedyBucketOk(u, sv, cfg.quota.volume, p0, VolumeBucket, m);
    var p1 := p0 + PickSymbols(BucketPicks(u, sv, cfg.quota.volume, p0, VolumeBucket, m));
    GreedyBucketOk(u, ss, cfg.quota.structure, p1, StructureBucket, m);
    var p2 := p1 + PickSymbols(BucketPicks(u, ss, cfg.quota.structure, p1, StructureBucket, m));
    GreedyBucketOk(u, st, cfg.quota.theme, p2, ThemeBucket, m);
  }

  /** `select_watchlist` on the latest feature rows. */
  method SelectWatchlist(history: seq<FeatureRow>, cfg: SelectorConfig, largecaps: seq<string>,
                         m: map<string, ThemeEntry>, num: Numerics)
    returns (w: Watchlist)
    ensures w == Selected(history, cfg, largecaps, m, num)
    ensures w.largecap == LargecapPicks(largecaps, Latest(history))
    ensures BucketOk(w.volume, Universe(Latest(history), cfg), ScoreVolume(Universe(Latest(history), cfg), cfg, num), cfg.quota.volume, VolumeBucket)
    ensures BucketOk(w.structure, Universe(Latest(history), cfg), ScoreStructure(Universe(Latest(history), cfg), cfg), cfg.quota.structure, StructureBucket)
    ensures BucketOk(w.theme, Universe(Latest(history), cfg), ScoreTheme(Universe(Latest(history), cfg), m, cfg, num), cfg.quota.theme, ThemeBucket)
    ensures PickSymbols(w.largecap) !! PickSymbols(w.volume)
    ensures PickSymbols(w.largecap) !! PickSymbols(w.structure)
    ensures PickSymbols(w.largecap) !! PickSymbols(w.theme)
    ensures PickSymbols(w.volume) !! PickSymbols(w.structure)
    ensures PickSymbols(w.volume) !! PickSymbols(w.theme)
    ensures PickSymbols(w.structure) !! PickSymbols(w.theme)
  {
    var latest := Latest(history);
    var u := Universe(latest, cfg);
    var large := LargecapPicks(largecaps, latest);
    var picked := PickSymbols(large);
    var vol, st, th;
    vol, picked := PickInto(u, ScoreVolume(u, cfg, num), cfg.quota.volume, picked, VolumeBucket, m);
    st, picked := PickInto(u, ScoreStructure(u, cfg), cfg.quota.structure, picked, StructureBucket, m);
    th, picked := PickInto(u, ScoreTheme(u, m, cfg, num), cfg.quota.theme, picked, ThemeBucket, m);
    w := Watchlist(large, vol, st, th);
  }

  /** In the normal phase every volume pick passes the spike and volatility
      gate, every structure pick lies in the range band, and every theme pick
      has a theme signal of at least `theme_min_score`. */
  lemma NormalPhasePicksPassGates(u: seq<FeatureRow>, cfg: SelectorConfig, num: Numerics,
                                  m: map<string, ThemeEntry>, w: Watchlist)
    requires IsNormal(cfg)
    requires Text.NoDups(SymbolsOf(u))
    requires BucketOk(w.volume, u, ScoreVolume(u, cfg, num), cfg.quota.volume, VolumeBucket)
    requires BucketOk(w.structure, u, ScoreStructure(u, cfg), cfg.quota.structure, StructureBucket)
    requires BucketOk(w.theme, u, ScoreTheme(u, m, cfg, num), cfg.quota.theme, ThemeBucket)
    ensures forall p :: p in w.volume ==> VolumeGate(RowOf(u, p.symbol), cfg)
    ensures forall p :: p in w.structure ==> InStructRange(VolatilityFilled(RowOf(u, p.symbol)), cfg)
    ensures forall p :: p in w.theme ==> Clamp(ThemeValue(m, p.symbol), 0.0, 1.0) >= cfg.themeMinScore
  {
    forall p | p in w.volume ensures VolumeGate(RowOf(u, p.symbol), cfg) {
      var i :| 0 <= i < |u| && u[i].symbol == p.symbol && ScoreVolume(u, cfg, num)[i] == p.score;
      RowOfUnique(u, i);
    }
    forall p | p in w.structure ensures InStructRange(VolatilityFilled(RowOf(u, p.symbol)), cfg) {
      var i :| 0 <= i < |u| && u[i].symbol == p.symbol && ScoreStructure(u, cfg)[i] == p.score;
      RowOfUnique(u, i);
    }
    forall p | p in w.theme ensures Clamp(ThemeValue(m, p.symbol), 0.0, 1.0) >= cfg.themeMinScore {
      var i :| 0 <= i < |u| && u[i].symbol == p.symbol && ScoreTheme(u, m, cfg, num)[i] == p.score;
    }
  }

  lemma {:induction false} RowOfUnique(rows: seq<FeatureRow>, i: int)
    requires Text.NoDups(SymbolsOf(rows))
    requires 0 <= i < |rows|
    ensures rows[i].symbol in SymbolsOf(rows) && RowOf(rows, rows[i].symbol) == rows[i]
  {
    assert SymbolsOf(rows)[i] == rows[i].symbol;
    if rows[0].symbol != rows[i].symbol {
      assert SymbolsOf(rows[1..]) == SymbolsOf(rows)[1..];
      RowOfUnique(rows[1..], i - 1);
    }
  }
}
