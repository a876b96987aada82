// The pre-market preparation step: infer the selector phase from how much
// history the OHLCV frame holds, and build tomorrow's watchlist, falling back
// to the large caps alone when there is no data at all.
module PrepareTomorrow {
  import opened Wrappers
  import Selector

  /** One row of the OHLCV frame as `infer_phase` sees it: only the symbol and
      the date matter, and either may be NaN. */
  datatype DayKey = DayKey(symbol: Option<string>, date: Option<string>)

  /** The frame with its column set: `hasSymbol`/`hasDate` say whether the
      `symbol` and `date` columns exist. */
  datatype Frame = Frame(hasSymbol: bool, hasDate: bool, rows: seq<DayKey>)

  /** The distinct non-NaN dates of symbol `s` (`nunique` drops NaN). */
  function DatesOf(rows: seq<DayKey>, s: string): set<string>
  {
    set r | r in rows && r.symbol == Some(s) && r.date.Some? :: r.date.value
  }

  /** The largest number of distinct dates any symbol has among the first `k`
      rows' symbols; 0 when none of them has a symbol. */
  function MaxDays(rows: seq<DayKey>, k: nat): (m: nat)
    requires k <= |rows|
    ensures forall i :: 0 <= i < k && rows[i].symbol.Some? ==> |DatesOf(rows, rows[i].symbol.value)| <= m
    ensures m == 0 || exists i :: 0 <= i < k && rows[i].symbol.Some? && |DatesOf(rows, rows[i].symbol.value)| == m
  {
    if k == 0 then 0
    else
      var prev := MaxDays(rows, k - 1);
      var here := if rows[k - 1].symbol.Some? then |DatesOf(rows, rows[k - 1].symbol.value)| else 0;
      if here > prev then here else prev
  }

  /** `infer_phase`: "normal" when some symbol has at least `lookback` distinct
      dates (and at least one), "warmup" otherwise, and "warmup" for an empty
      frame or one without a symbol or date column. */
  function InferPhase(f: Frame, lookback: int): (phase: string)
    ensures phase == "normal" || phase == "warmup"
    ensures f.rows == [] || !f.hasSymbol || !f.hasDate ==> phase == "warmup"
  {
    if f.rows == [] || !f.hasSymbol || !f.hasDate then "warmup"
    else
      var maxDays := MaxDays(f.rows, |f.rows|);
      if maxDays == 0 then "warmup"
      else if maxDays >= lookback then "normal"
      else "warmup"
  }

  /** "normal" exactly when both columns exist and some symbol has at least
      `lookback` distinct dates, and at least one. */
  lemma InferPhaseNormal(f: Frame, lookback: int)
    ensures InferPhase(f, lookback) == "normal" <==>
      (f.hasSymbol && f.hasDate &&
        exists i :: (0 <= i < |f.rows| && f.rows[i].symbol.Some?
          && |DatesOf(f.rows, f.rows[i].symbol.value)| >= lookback
          && |DatesOf(f.rows, f.rows[i].symbol.value)| > 0))
  {
    if f.rows != [] && f.hasSymbol && f.hasDate {
      var m := MaxDays(f.rows, |f.rows|);
      if InferPhase(f, lookback) == "normal" {
        var i :| 0 <= i < |f.rows| && f.rows[i].symbol.Some? && |DatesOf(f.rows, f.rows[i].symbol.value)| == m;
      }
    }
  }

  /** The lookback `prepare_tomorrow` uses. */
  const Lookback: int := 20

  /** The large caps `prepare_tomorrow` passes. */
  const Largecaps: seq<string> := ["005930", "000660"]

  /** The watchlist written when the OHLCV frame is empty: the large caps, each
      scored 1.0 with zero close and turnover, and empty other buckets. */
  function ColdStartWatchlist(largecaps: seq<string>): (w: Selector.Watchlist)
    ensures |w.largecap| == |largecaps|
    ensures forall i :: 0 <= i < |largecaps| ==> (w.largecap[i].symbol == largecaps[i]
      && w.largecap[i].score == 1.0 && w.largecap[i].bucket == Selector.LargecapBucket
      && w.largecap[i].reason == Selector.LargecapReason(0.0, Some(0.0)))
    ensures w.volume == [] && w.structure == [] && w.theme == []
  {
    Selector.Watchlist(
      seq(|largecaps|, i requires 0 <= i < |largecaps| =>
        Selector.Pick(largecaps[i], Selector.LargecapBucket, 1.0, Selector.LargecapReason(0.0, Some(0.0)))),
      [], [], [])
  }

  /** Tomorrow's watchlist: the cold-start list for an empty frame, otherwise
      `select_watchlist` with the inferred phase's configuration. `history` is
      the feature frame computed from the same rows as `f`. */
  method TomorrowWatchlist(f: Frame, history: seq<Selector.FeatureRow>,
                           m: map<string, Selector.ThemeEntry>, num: Selector.Numerics)
    returns (w: Selector.Watchlist)
    requires |history| == |f.rows|
    ensures f.rows == [] ==> w == ColdStartWatchlist(Largecaps)
    ensures f.rows != [] ==>
      w == Selector.Selected(history, Selector.DefaultConfig(InferPhase(f, Lookback)), Largecaps, m, num)
    ensures f.rows != [] ==> w.largecap == Selector.LargecapPicks(Largecaps, Selector.Latest(history))
    ensures Selector.PickSymbols(w.largecap) !! Selector.PickSymbols(w.volume)
    ensures Selector.PickSymbols(w.largecap) !! Selector.PickSymbols(w.structure)
    ensures Selector.PickSymbols(w.largecap) !! Selector.PickSymbols(w.theme)
    ensures Selector.PickSymbols(w.volume) !! Selector.PickSymbols(w.structure)
    ensures Selector.PickSymbols(w.volume) !! Selector.PickSymbols(w.theme)
    ensures Selector.PickSymbols(w.structure) !! Selector.PickSymbols(w.theme)
  {
    if f.rows == [] {
      w := ColdStartWatchlist(Largecaps);
    } else {
      var cfg := Selector.DefaultConfig(InferPhase(f, Lookback));
      w := Selector.SelectWatchlist(history, cfg, Largecaps, m, num);
    }
  }
}
