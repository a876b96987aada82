// The theme-score map the selector reads: every symbol hit by a condition
// search scores 1.0, every symbol in today's news scores 0.3 per item up to
// 1.0, the larger of the two wins, and each symbol carries the sorted,
// duplicate-free list of the signals that named it. The two input files are
// parameters here: `None` is a missing or unreadable file.
module ThemeScoreBuilder {
  import opened Wrappers
  import Text
  import Numeric

  /** One condition search of the conditions file; `name` is absent when the
      entry has no `condition_name`. */
  datatype Condition = Condition(name: Option<string>, symbols: seq<string>)

  /** One item of the news file; an empty `symbol` is a missing or empty one. */
  datatype NewsItem = NewsItem(symbol: string, keywords: seq<string>)

  /** The value stored per symbol. */
  datatype ThemeScore = ThemeScore(score: real, sources: seq<string>)

  /** One (symbol, source) pair a condition contributes. */
  datatype Hit = Hit(symbol: string, source: string)

  function ConditionSource(c: Condition): string
  {
    "condition:" + c.name.GetOr("unknown")
  }

  /** The source label of a news item: its first two keywords, or "news:일반". */
  function NewsSource(it: NewsItem): (src: string)
    ensures it.keywords == [] ==> src == "news:일반"
    ensures |it.keywords| == 1 ==> src == "news:" + it.keywords[0]
    ensures |it.keywords| >= 2 ==> src == "news:" + it.keywords[0] + "," + it.keywords[1]
  {
    if it.keywords == [] then "news:일반"
    else
      var first := if |it.keywords| < 2 then it.keywords else it.keywords[..2];
      assert |first| == 2 ==> first[1..] == [it.keywords[1]];
      "news:" + Text.Join(",", first)
  }

  /** The news contribution of `n` items: 0.3 each, at most 1.0. */
  function NewsScore(n: nat): (r: real)
    ensures 0.0 <= r <= 1.0
    ensures n > 0 ==> r > 0.0
    ensures n >= 4 ==> r == 1.0
    ensures n < 4 ==> r == n as real * 0.3
  {
    Numeric.MinReal(1.0, n as real * 0.3)
  }

  // =========================
  // Specification
  // =========================

  /** The hits of one condition, in symbol order. */
  function HitsOf(c: Condition): (hs: seq<Hit>)
    ensures |hs| == |c.symbols|
    ensures forall k :: 0 <= k < |hs| ==> hs[k] == Hit(c.symbols[k], ConditionSource(c))
  {
    seq(|c.symbols|, k requires 0 <= k < |c.symbols| => Hit(c.symbols[k], ConditionSource(c)))
  }

  /** Every hit of the conditions file, in file order. */
  function CondHits(conds: seq<Condition>): seq<Hit>
  {
    if conds == [] then [] else CondHits(conds[..|conds| - 1]) + HitsOf(conds[|conds| - 1])
  }

  /** A pair is a hit exactly when some condition lists the symbol. */
  lemma {:induction false} CondHitsMembers(conds: seq<Condition>, h: Hit)
    ensures h in CondHits(conds) <==>
      exists c :: c in conds && h.symbol in c.symbols && h.source == ConditionSource(c)
  {
    if conds != [] {
      var n := |conds| - 1;
      CondHitsMembers(conds[..n], h);
      var last := conds[n];
      if h in HitsOf(last) {
        var k :| 0 <= k < |HitsOf(last)| && HitsOf(last)[k] == h;
        assert h.symbol == last.symbols[k];
      }
      if h.symbol in last.symbols && h.source == ConditionSource(last) {
        var k :| 0 <= k < |last.symbols| && last.symbols[k] == h.symbol;
        assert HitsOf(last)[k] == h;
      }
      forall c | c in conds ensures c in conds[..n] || c == last {
        var k :| 0 <= k < |conds| && conds[k] == c;
        if k < n {
          assert conds[..n][k] == c;
        }
      }
      assert forall c :: c in conds[..n] ==> c in conds;
    }
  }

  function HitSymbols(hs: seq<Hit>): set<string>
  {
    set h | h in hs :: h.symbol
  }

  /** The symbols the conditions name. */
  function CondSymbols(conds: Option<seq<Condition>>): set<string>
  {
    if conds.None? then {} else HitSymbols(CondHits(conds.value))
  }

  /** The source labels of the news items naming `s`, in item order; an item
      without a symbol names nothing. */
  function NewsLabels(items: seq<NewsItem>, s: string): seq<string>
  {
    if items == [] then []
    else
      var last := items[|items| - 1];
      NewsLabels(items[..|items| - 1], s) + (if last.symbol == s && s != "" then [NewsSource(last)] else [])
  }

  /** How many news items name `s`. */
  function NewsCount(items: seq<NewsItem>, s: string): nat
  {
    |NewsLabels(items, s)|
  }

  /** A label belongs to `s` exactly when some item naming `s` carries it. */
  lemma {:induction false} NewsLabelsMembers(items: seq<NewsItem>, s: string, x: string)
    ensures x in NewsLabels(items, s) <==> s != "" && exists it :: it in items && it.symbol == s && NewsSource(it) == x
  {
    if items != [] {
      var n := |items| - 1;
      NewsLabelsMembers(items[..n], s, x);
      assert items == items[..n] + [items[n]];
      assert forall it :: it in items <==> it in items[..n] || it == items[n];
    }
  }

  /** `s` is a symbol the news names (an empty symbol is skipped). */
  predicate Named(items: seq<NewsItem>, s: string)
  {
    NewsCount(items, s) > 0
  }

  /** A symbol has news exactly when some item names it. */
  lemma {:induction false} NewsCountPositive(items: seq<NewsItem>, s: string)
    ensures NewsCount(items, s) > 0 <==> s != "" && exists it :: it in items && it.symbol == s
  {
    if items != [] {
      var n := |items| - 1;
      NewsCountPositive(items[..n], s);
      assert items == items[..n] + [items[n]];
      assert forall it :: it in items <==> it in items[..n] || it == items[n];
    }
  }

  // =========================
  // (A) Conditions
  // =========================

  /** What the condition loop has built after seeing the hits `seen`. */
  ghost predicate CondInv(m: map<string, ThemeScore>, seen: seq<Hit>)
  {
    m.Keys == HitSymbols(seen)
    && forall s :: s in m ==>
      m[s].score == 1.0 && Text.NoDups(m[s].sources)
      && forall x :: x in m[s].sources <==> Hit(s, x) in seen
  }

  lemma CondInvStep(m: map<string, ThemeScore>, seen: seq<Hit>, h: Hit)
    requires CondInv(m, seen)
    ensures var e := if h.symbol in m then m[h.symbol] else ThemeScore(0.0, []);
      var srcs := if h.source in e.sources then e.sources else e.sources + [h.source];
      CondInv(m[h.symbol := ThemeScore(Numeric.MaxReal(e.score, 1.0), srcs)], seen + [h])
  {
    var e := if h.symbol in m then m[h.symbol] else ThemeScore(0.0, []);
    var srcs := if h.source in e.sources then e.sources else e.sources + [h.source];
    var m' := m[h.symbol := ThemeScore(Numeric.MaxReal(e.score, 1.0), srcs)];
    var seen' := seen + [h];
    assert forall g :: g in seen' <==> g in seen || g == h;
    assert HitSymbols(seen') == HitSymbols(seen) + {h.symbol};
    forall x ensures Hit(h.symbol, x) in seen ==> h.symbol in HitSymbols(seen) {
    }
  }

  /** Loop (A): every condition's symbols get 1.0 and the condition's label. */
  method ConditionScores(conds: seq<Condition>) returns (m: map<string, ThemeScore>)
    ensures m.Keys == HitSymbols(CondHits(conds))
    ensures forall s :: s in m ==>
      m[s].score == 1.0 && Text.NoDups(m[s].sources)
      && forall x :: x in m[s].sources <==> Hit(s, x) in CondHits(conds)
  {
    m := map[];
    ghost var seen: seq<Hit> := [];
    var i := 0;
    while i < |conds|
      invariant 0 <= i <= |conds|
      invariant seen == CondHits(conds[..i])
      invariant CondInv(m, seen)
    {
      var c := conds[i];
      var src := ConditionSource(c);
      var j := 0;
      while j < |c.symbols|
        invariant 0 <= j <= |c.symbols|
        invariant seen == CondHits(conds[..i]) + HitsOf(c)[..j]
        invariant CondInv(m, seen)
      {
        var sym := c.symbols[j];
        CondInvStep(m, seen, Hit(sym, src));
        var e := if sym in m then m[sym] else ThemeScore(0.0, []);
        var srcs := if src in e.sources then e.sources else e.sources + [src];
        m := m[sym := ThemeScore(Numeric.MaxReal(e.score, 1.0), srcs)];
        seen := seen + [Hit(sym, src)];
        assert HitsOf(c)[..j + 1] == HitsOf(c)[..j] + [Hit(sym, src)];
        j := j + 1;
      }
      assert HitsOf(c)[..j] == HitsOf(c);
      assert conds[..i + 1][..i] == conds[..i];
      i := i + 1;
    }
    assert conds[..i] == conds;
  }

  // =========================
  // (B) News tallies
  // =========================

  /** The per-symbol tallies of loop (B1). */
  datatype Tally = Tally(count: map<string, nat>, srcs: map<string, seq<string>>)

  function GetCount(m: map<string, nat>, s: string): nat
  {
    if s in m then m[s] else 0
  }

  function GetList(m: map<string, seq<string>>, s: string): seq<string>
  {
    if s in m then m[s] else []
  }

  /** `xs` with `x` appended unless already there. */
  function AddLabel(xs: seq<string>, x: string): seq<string>
  {
    if x in xs then xs else xs + [x]
  }

  /** The tallies after one more item: a named item bumps its symbol's count
      and adds its label; an item without a symbol is skipped. */
  function TallyItem(t: Tally, it: NewsItem): Tally
  {
    if it.symbol == "" then t
    else
      var sym := it.symbol;
      Tally(t.count[sym := GetCount(t.count, sym) + 1], t.srcs[sym := AddLabel(GetList(t.srcs, sym), NewsSource(it))])
  }

  /** The tallies after the items `items`, in order. */
  function Tallies(items: seq<NewsItem>): Tally
  {
    if items == [] then Tally(map[], map[]) else TallyItem(Tallies(items[..|items| - 1]), items[|items| - 1])
  }

  /** The tallies of `s` are its news count and its de-duplicated labels, and
      `s` has tallies exactly when it is named. */
  lemma {:induction false} TalliesAt(items: seq<NewsItem>, s: string)
    ensures s in Tallies(items).count <==> Named(items, s)
    ensures s in Tallies(items).srcs <==> Named(items, s)
    ensures s in Tallies(items).count ==> Tallies(items).count[s] == NewsCount(items, s)
    ensures s in Tallies(items).srcs ==> Tallies(items).srcs[s] == Text.Dedup(NewsLabels(items, s))
  {
    if items != [] {
      var n := |items| - 1;
      var pre, it := items[..n], items[n];
      TalliesAt(pre, s);
      var l := NewsLabels(pre, s);
      if it.symbol == s && s != "" {
        assert NewsLabels(items, s) == l + [NewsSource(it)];
        assert (l + [NewsSource(it)])[..|l|] == l;
        if s !in Tallies(pre).srcs {
          assert l == [];
        }
      } else {
        assert NewsLabels(items, s) == l;
      }
    }
  }

  /** Loop (B1): per named symbol, the number of items naming it and its
      distinct source labels in first-seen order. */
  method NewsTallies(items: seq<NewsItem>) returns (count: map<string, nat>, srcs: map<string, seq<string>>)
    ensures Tally(count, srcs) == Tallies(items)
    ensures forall s :: s in count <==> Named(items, s)
    ensures forall s :: s in srcs <==> Named(items, s)
    ensures forall s :: s in count ==> count[s] == NewsCount(items, s)
    ensures forall s :: s in srcs ==> srcs[s] == Text.Dedup(NewsLabels(items, s))
  {
    count, srcs := map[], map[];
    var i := 0;
    while i < |items|
      invariant 0 <= i <= |items|
      invariant Tally(count, srcs) == Tallies(items[..i])
    {
      var it := items[i];
      assert items[..i + 1][..i] == items[..i];
      if it.symbol != "" {
        var sym := it.symbol;
        count := count[sym := GetCount(count, sym) + 1];
        srcs := srcs[sym := AddLabel(GetList(srcs, sym), NewsSource(it))];
      }
      i := i + 1;
    }
    assert items[..i] == items;
    forall s {
      TalliesAt(items, s);
    }
  }

  // =========================
  // (B2) Merge news into the map
  // =========================

  function Get(m: map<string, ThemeScore>, s: string): ThemeScore
  {
    if s in m then m[s] else ThemeScore(0.0, [])
  }

  /** `xs` followed by each of `extra` not already present, in order. */
  function Appended(xs: seq<string>, extra: seq<string>): (r: seq<string>)
    ensures forall x :: x in r <==> x in xs || x in extra
    ensures Text.NoDups(xs) ==> Text.NoDups(r)
    ensures |xs| <= |r| && r[..|xs|] == xs
  {
    if extra == [] then xs
    else
      var p := Appended(xs, extra[..|extra| - 1]);
      var x := extra[|extra| - 1];
      assert forall y :: y in extra <==> y in extra[..|extra| - 1] || y == x by {
        assert extra == extra[..|extra| - 1] + [x];
      }
      if x in p then p
      else
        assert (p + [x])[..|xs|] == p[..|xs|];
        assert Text.NoDups(p) ==> Text.NoDups(p + [x]) by {
          if Text.NoDups(p) {
            Text.NoDupsSnoc(p, x);
          }
        }
        p + [x]
  }

  /** The inner loop of (B2): appends each of `extra` unless already there. */
  method AppendMissing(xs: seq<string>, extra: seq<string>) returns (r: seq<string>)
    ensures r == Appended(xs, extra)
  {
    r := xs;
    var j := 0;
    while j < |extra|
      invariant 0 <= j <= |extra|
      invariant r == Appended(xs, extra[..j])
    {
      assert extra[..j + 1][..j] == extra[..j];
      if extra[j] !in r {
        r := r + [extra[j]];
      }
      j := j + 1;
    }
    assert extra[..j] == extra;
  }

  /** One symbol's entry after the news merge. */
  function Merged(e: ThemeScore, n: nat, extra: seq<string>): (r: ThemeScore)
    ensures r.score >= e.score && r.score >= NewsScore(n)
    ensures r.score == e.score || r.score == NewsScore(n)
    ensures forall x :: x in r.sources <==> x in e.sources || x in extra
  {
    ThemeScore(Numeric.MaxReal(e.score, NewsScore(n)), Appended(e.sources, extra))
  }

  /** Loop (B2): each news symbol's score becomes the larger of its current
      score and its news score, and its news labels are appended unless
      already present. Symbols the news does not name are untouched. */
  method MergeNews(m0: map<string, ThemeScore>, count: map<string, nat>, srcs: map<string, seq<string>>)
    returns (m: map<string, ThemeScore>)
    requires forall s :: s in count ==> s in srcs
    ensures forall s :: s in m <==> s in m0 || s in count
    ensures forall s :: s in m0 && s !in count ==> m[s] == m0[s]
    ensures forall s :: s in count ==> m[s] == Merged(Get(m0, s), count[s], srcs[s])
  {
    m := m0;
    var todo := count.Keys;
    while todo != {}
      invariant todo <= count.Keys
      invariant forall s :: s in m <==> s in m0 || (s in count && s !in todo)
      invariant forall s :: s in m0 && !(s in count && s !in todo) ==> m[s] == m0[s]
      invariant forall s :: (s in count && s !in todo) ==> m[s] == Merged(Get(m0, s), count[s], srcs[s])
      decreases |todo|
    {
      var sym :| sym in todo;
      var e := Get(m, sym);
      var added := AppendMissing(e.sources, srcs[sym]);
      m := m[sym := ThemeScore(Numeric.MaxReal(e.score, NewsScore(count[sym])), added)];
      todo := todo - {sym};
    }
  }

  // =========================
  // build_theme_score_map
  // =========================

  /** What the builder promises about symbol `s` of the merged map `m`. */
  ghost predicate EntryOk(conds: Option<seq<Condition>>, news: Option<seq<NewsItem>>,
                          m: map<string, ThemeScore>, s: string)
  {
    (s in m <==> s in CondSymbols(conds) || (news.Some? && Named(news.value, s)))
    && (s in m && s in CondSymbols(conds) ==> m[s].score == 1.0)
    && (s in m && s !in CondSymbols(conds) ==>
          news.Some? && m[s].score == NewsScore(NewsCount(news.value, s)))
    && (s in m ==> 0.0 <= m[s].score <= 1.0)
    && (s in m ==> forall x :: x in m[s].sources <==>
          (conds.Some? && Hit(s, x) in CondHits(conds.value))
          || (news.Some? && x in NewsLabels(news.value, s)))
  }

  /** The condition map alone (no news file) meets the promise. */
  lemma CondEntry(conds: Option<seq<Condition>>, m: map<string, ThemeScore>, s: string)
    requires forall t :: t in m <==> t in CondSymbols(conds)
    requires forall t :: t in m ==> m[t].score == 1.0
    requires conds.Some? ==> forall t, x :: t in m ==> (x in m[t].sources <==> Hit(t, x) in CondHits(conds.value))
    requires conds.None? ==> m == map[]
    ensures EntryOk(conds, None, m, s)
  {
  }

  /** The merge of the condition map with the news tallies meets the promise. */
  lemma NewsEntry(conds: Option<seq<Condition>>, items: seq<NewsItem>, m: map<string, ThemeScore>,
                  count: map<string, nat>, srcs: map<string, seq<string>>, m1: map<string, ThemeScore>, s: string)
    requires forall t :: t in m <==> t in CondSymbols(conds)
    requires forall t :: t in m ==> m[t].score == 1.0
    requires conds.Some? ==> forall t, x :: t in m ==> (x in m[t].sources <==> Hit(t, x) in CondHits(conds.value))
    requires conds.None? ==> m == map[]
    requires forall t :: t in count <==> Named(items, t)
    requires forall t :: t in srcs <==> Named(items, t)
    requires forall t :: t in count ==> count[t] == NewsCount(items, t)
    requires forall t :: t in srcs ==> srcs[t] == Text.Dedup(NewsLabels(items, t))
    requires forall t :: t in m1 <==> t in m || t in count
    requires forall t :: t in m && t !in count ==> m1[t] == m[t]
    requires forall t :: t in count ==> m1[t] == Merged(Get(m, t), count[t], srcs[t])
    ensures EntryOk(conds, Some(items), m1, s)
  {
    forall x | conds.Some? && Hit(s, x) in CondHits(conds.value) ensures s in CondSymbols(conds) {
      assert Hit(s, x).symbol == s;
    }
    forall x | x in NewsLabels(items, s) ensures Named(items, s) {
    }
    if s in count {
      var e := Get(m, s);
      assert forall x :: x in m1[s].sources <==> x in e.sources || x in Text.Dedup(NewsLabels(items, s));
      if s !in m {
        assert e == ThemeScore(0.0, []);
      }
    }
  }

  /** Sorting the sources keeps the promise. */
  lemma SortedEntry(conds: Option<seq<Condition>>, news: Option<seq<NewsItem>>,
                    m: map<string, ThemeScore>, r: map<string, ThemeScore>, s: string)
    requires EntryOk(conds, news, m, s)
    requires r.Keys == m.Keys
    requires forall t :: t in r ==> r[t].score == m[t].score
    requires forall t, x :: t in r ==> (x in r[t].sources <==> x in m[t].sources)
    ensures EntryOk(conds, news, r, s)
  {
  }

  /** The whole builder. A symbol is a key exactly when a condition or a news
      item names it; it scores 1.0 when a condition names it and its news
      score otherwise; its sources are sorted, duplicate-free and are exactly
      the labels of the conditions and news items naming it. */
  method BuildThemeScoreMap(conds: Option<seq<Condition>>, news: Option<seq<NewsItem>>)
    returns (result: map<string, ThemeScore>)
    ensures forall s :: EntryOk(conds, news, result, s)
    ensures forall s :: s in result ==> Text.StrictlySorted(result[s].sources)
  {
    var m: map<string, ThemeScore> := map[];
    if conds.Some? {
      m := ConditionScores(conds.value);
    }
    var m1 := m;
    if news.Some? {
      var count, srcs := NewsTallies(news.value);
      m1 := MergeNews(m, count, srcs);
      forall s ensures EntryOk(conds, news, m1, s) {
        NewsEntry(conds, news.value, m, count, srcs, m1, s);
      }
    } else {
      forall s ensures EntryOk(conds, news, m1, s) {
        CondEntry(conds, m, s);
      }
    }
    result := SortSources(m1);
    forall s ensures EntryOk(conds, news, result, s) {
      SortedEntry(conds, news, m1, result, s);
    }
  }

  /** The final copy: every symbol's sources sorted. */
  function SortSources(m: map<string, ThemeScore>): (r: map<string, ThemeScore>)
    ensures r.Keys == m.Keys
    ensures forall s :: s in r ==> r[s].score == m[s].score && Text.StrictlySorted(r[s].sources)
    ensures forall s, x :: s in r ==> (x in r[s].sources <==> x in m[s].sources)
  {
    map s | s in m :: ThemeScore(m[s].score, Text.SortedUnique(m[s].sources))
  }
}
