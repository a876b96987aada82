// The minimal theme score: 1.0 for a symbol a condition search lists, 0.3 per
// news hit (4 or more hits give 1.0 outright), and at least 0.5 when three or
// more members of one of the symbol's theme groups rose by 3% or more. The
// condition list, the news hit counts and the latest frame are parameters.
module ThemeSignals {
  import opened Wrappers

  /** One theme group: its name and member symbols, in the group's order. */
  datatype ThemeGroup = ThemeGroup(name: string, symbols: seq<string>)

  /** The latest frame, indexed by symbol, seen through its `trend` column:
      `None` is a NaN trend or a frame without the column. */
  type Latest = map<string, Option<real>>

  /** A member counts as risen when it is in the frame and its trend is at
      least 3%. */
  predicate Rose(latest: Latest, sym: string)
  {
    sym in latest && latest[sym].Some? && latest[sym].value >= 0.03
  }

  /** How many entries of `syms` rose (a symbol listed twice counts twice). */
  function RiseCount(latest: Latest, syms: seq<string>): nat
  {
    if syms == [] then 0
    else RiseCount(latest, syms[..|syms| - 1]) + (if Rose(latest, syms[|syms| - 1]) then 1 else 0)
  }

  /** The count never exceeds the list, and is zero when nothing rose. */
  lemma {:induction false} RiseCountBounds(latest: Latest, syms: seq<string>)
    ensures RiseCount(latest, syms) <= |syms|
    ensures RiseCount(latest, syms) > 0 <==> exists i :: 0 <= i < |syms| && Rose(latest, syms[i])
  {
    if syms != [] {
      var n := |syms| - 1;
      RiseCountBounds(latest, syms[..n]);
      if exists i :: 0 <= i < n && Rose(latest, syms[..n][i]) {
        var i :| 0 <= i < n && Rose(latest, syms[..n][i]);
        assert syms[i] == syms[..n][i];
      }
      if exists i :: 0 <= i < |syms| && Rose(latest, syms[i]) {
        var i :| 0 <= i < |syms| && Rose(latest, syms[i]);
        if i < n {
          assert syms[..n][i] == syms[i];
        }
      }
    }
  }

  /** The theme-group rise signal: some group holding `symbol` has three or
      more risen members. No groups (the default) means no rise. */
  ghost predicate GroupRise(symbol: string, latest: Latest, groups: Option<seq<ThemeGroup>>)
  {
    groups.Some? && exists g :: g in groups.value && symbol in g.symbols && RiseCount(latest, g.symbols) >= 3
  }

  /** Counts the risen members of one group. */
  method CountRises(latest: Latest, syms: seq<string>) returns (riseCount: nat)
    ensures riseCount == RiseCount(latest, syms)
  {
    riseCount := 0;
    var i := 0;
    while i < |syms|
      invariant 0 <= i <= |syms|
      invariant riseCount == RiseCount(latest, syms[..i])
    {
      assert syms[..i + 1][..i] == syms[..i];
      if Rose(latest, syms[i]) {
        riseCount := riseCount + 1;
      }
      i := i + 1;
    }
    assert syms[..i] == syms;
  }

  /** `check_theme_group_rise`: scans the groups holding `symbol` in order and
      answers true at the first with three or more risen members. */
  method CheckThemeGroupRise(symbol: string, latest: Latest, groups: Option<seq<ThemeGroup>>) returns (rise: bool)
    ensures rise <==> groups.Some? && exists g :: g in groups.value && symbol in g.symbols && RiseCount(latest, g.symbols) >= 3
    ensures groups.None? || groups == Some([]) ==> !rise
  {
    var gs := groups.GetOr([]);
    var i := 0;
    while i < |gs|
      invariant 0 <= i <= |gs|
      invariant forall k :: 0 <= k < i && symbol in gs[k].symbols ==> RiseCount(latest, gs[k].symbols) < 3
    {
      if symbol in gs[i].symbols {
        var riseCount := CountRises(latest, gs[i].symbols);
        if riseCount >= 3 {
          return true;
        }
      }
      i := i + 1;
    }
    return false;
  }

  /** `compute_theme_score_minimal` for a symbol in the frame, given its news
      hit count `newsCount` and whether its theme group rose. */
  function ThemeScoreMinimal(symbol: string, inLatest: bool, condHits: set<string>, newsCount: int, rise: bool): (r: real)
    ensures symbol in condHits ==> r == 1.0
    ensures newsCount >= 0 ==> 0.0 <= r <= 1.0
    ensures symbol !in condHits && newsCount >= 4 ==> r == 1.0
    ensures symbol !in condHits && inLatest && rise ==> r >= 0.5 && (newsCount < 4 ==> r >= newsCount as real * 0.3)
    ensures symbol !in condHits && newsCount < 4 && !(inLatest && rise) ==> r == newsCount as real * 0.3
  {
    if symbol in condHits then 1.0
    else if newsCount > 0 && (if 1.0 <= newsCount as real * 0.3 then 1.0 else newsCount as real * 0.3) >= 1.0 then 1.0
    else if inLatest && rise then (if 0.5 >= newsCount as real * 0.3 then 0.5 else newsCount as real * 0.3)
    else newsCount as real * 0.3
  }

  /** A news count the hits file does not list is 0. */
  function NewsHits(news: map<string, int>, symbol: string): int
  {
    if symbol in news then news[symbol] else 0
  }

  /** `build_theme_score_map`: one entry per input symbol; a symbol missing
      from the frame scores 0.0, any other its minimal theme score. `news` is
      the hits file (empty when missing). */
  method BuildThemeScoreMap(symbols: seq<string>, latest: Latest, groups: Option<seq<ThemeGroup>>,
                            condHits: set<string>, news: map<string, int>)
    returns (m: map<string, real>)
    ensures forall s :: s in m <==> s in symbols
    ensures forall s :: s in m && s !in latest ==> m[s] == 0.0
    ensures forall s :: s in m && s in latest ==>
      m[s] == ThemeScoreMinimal(s, true, condHits, NewsHits(news, s), GroupRise(s, latest, groups))
    ensures (forall s :: s in news ==> news[s] >= 0) ==> forall s :: s in m ==> 0.0 <= m[s] <= 1.0
  {
    m := map[];
    var i := 0;
    while i < |symbols|
      invariant 0 <= i <= |symbols|
      invariant forall s :: s in m <==> s in symbols[..i]
      invariant forall s :: s in m && s !in latest ==> m[s] == 0.0
      invariant forall s :: s in m && s in latest ==>
        m[s] == ThemeScoreMinimal(s, true, condHits, NewsHits(news, s), GroupRise(s, latest, groups))
    {
      var symbol := symbols[i];
      assert symbols[..i + 1] == symbols[..i] + [symbol];
      if symbol !in latest {
        m := m[symbol := 0.0];
      } else {
        var rise := CheckThemeGroupRise(symbol, latest, groups);
        m := m[symbol := ThemeScoreMinimal(symbol, true, condHits, NewsHits(news, symbol), rise)];
      }
      i := i + 1;
    }
    assert symbols[..i] == symbols;
    assert forall s :: s in m && s in latest ==> NewsHits(news, s) >= 0 || exists t :: t in news && news[t] < 0;
  }
}
