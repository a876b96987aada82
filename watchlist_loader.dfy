// The strategy's watchlist loader: the day's watchlist CSV read into a map
// from stripped code to its tier, score and tags (a later row with the same
// code replaces an earlier one), and the split of that map into its TIER1
// and TIER2 parts. The file is a parameter: `None` when it does not exist.
module WatchlistLoader {
  import opened Wrappers
  import Text

  /** One CSV row, as read; `sourceTags` is absent when the column is. */
  datatype CsvRow = CsvRow(code: string, watchTier: string, scoreTotal: real, sourceTags: Option<string>)

  /** The value stored per code. */
  datatype WatchEntry = WatchEntry(watchTier: string, scoreTotal: real, sourceTags: string)

  function KeyOf(r: CsvRow): string
  {
    Text.Strip(r.code)
  }

  function EntryOf(r: CsvRow): WatchEntry
  {
    WatchEntry(Text.Strip(r.watchTier), r.scoreTotal, Text.Strip(r.sourceTags.GetOr("")))
  }

  /** The map a row-by-row assignment `m[key(r)] = val(r)` builds. */
  function Indexed<R, V>(rows: seq<R>, key: R -> string, val: R -> V): map<string, V>
  {
    if rows == [] then map[]
    else Indexed(rows[..|rows| - 1], key, val)[key(rows[|rows| - 1]) := val(rows[|rows| - 1])]
  }

  lemma {:induction false} IndexedKeys<R, V>(rows: seq<R>, key: R -> string, val: R -> V, k: string)
    ensures k in Indexed(rows, key, val) <==> exists i :: 0 <= i < |rows| && key(rows[i]) == k
  {
    if rows != [] {
      var n := |rows| - 1;
      var pre := rows[..n];
      IndexedKeys(pre, key, val, k);
      assert forall i :: 0 <= i < n ==> pre[i] == rows[i];
    }
  }

  lemma {:induction false} IndexedLast<R, V>(rows: seq<R>, key: R -> string, val: R -> V, k: string)
    requires k in Indexed(rows, key, val)
    ensures exists i :: 0 <= i < |rows| && key(rows[i]) == k && Indexed(rows, key, val)[k] == val(rows[i])
                        && forall j :: i < j < |rows| ==> key(rows[j]) != k
  {
    var n := |rows| - 1;
    var pre := rows[..n];
    if key(rows[n]) == k {
      assert Indexed(rows, key, val)[k] == val(rows[n]);
    } else {
      assert Indexed(rows, key, val)[k] == Indexed(pre, key, val)[k];
      IndexedLast(pre, key, val, k);
      var i :| 0 <= i < n && key(pre[i]) == k && Indexed(pre, key, val)[k] == val(pre[i])
        && forall j :: i < j < n ==> key(pre[j]) != k;
      assert pre[i] == rows[i];
      forall j | i < j < |rows| ensures key(rows[j]) != k {
        if j < n {
          assert pre[j] == rows[j];
        }
      }
    }
  }

  /** The keys are the rows' keys, and each holds the value of the last row
      with that key. */
  lemma IndexedAt<R, V>(rows: seq<R>, key: R -> string, val: R -> V, k: string)
    ensures k in Indexed(rows, key, val) <==> exists i :: 0 <= i < |rows| && key(rows[i]) == k
    ensures k in Indexed(rows, key, val) ==>
      exists i :: 0 <= i < |rows| && key(rows[i]) == k && Indexed(rows, key, val)[k] == val(rows[i])
        && forall j :: i < j < |rows| ==> key(rows[j]) != k
  {
    IndexedKeys(rows, key, val, k);
    if k in Indexed(rows, key, val) {
      IndexedLast(rows, key, val, k);
    }
  }

  lemma IndexedStep<R, V>(rows: seq<R>, i: nat, key: R -> string, val: R -> V)
    requires i < |rows|
    ensures Indexed(rows[..i + 1], key, val) == Indexed(rows[..i], key, val)[key(rows[i]) := val(rows[i])]
  {
    assert rows[..i + 1][..i] == rows[..i];
  }

  /** The watchlist of a file's rows. */
  function Watch(rows: seq<CsvRow>): map<string, WatchEntry>
  {
    Indexed(rows, KeyOf, EntryOf)
  }

  /** `load_watchlist`: an empty map when the file does not exist; otherwise
      one entry per stripped code, from the last row with that code. */
  method LoadWatchlist(file: Option<seq<CsvRow>>) returns (watch: map<string, WatchEntry>)
    ensures file.None? ==> watch == map[]
    ensures file.Some? ==> watch == Watch(file.value)
  {
    watch := map[];
    if file.None? {
      return;
    }
    var rows := file.value;
    var i := 0;
    while i < |rows|
      invariant 0 <= i <= |rows|
      invariant watch == Indexed(rows[..i], KeyOf, EntryOf)
    {
      IndexedStep(rows, i, KeyOf, EntryOf);
      watch := watch[KeyOf(rows[i]) := EntryOf(rows[i])];
      i := i + 1;
    }
    assert rows[..i] == rows;
  }

  /** A loaded code is the stripped code of some row, and its entry is the
      stripped tier, the score and the stripped tags of the last such row. */
  lemma WatchEntries(rows: seq<CsvRow>, k: string)
    ensures k in Watch(rows) <==> exists i :: 0 <= i < |rows| && Text.Strip(rows[i].code) == k
    ensures k in Watch(rows) ==>
      exists i :: 0 <= i < |rows| && Text.Strip(rows[i].code) == k
        && Watch(rows)[k] == WatchEntry(Text.Strip(rows[i].watchTier), rows[i].scoreTotal,
                                        Text.Strip(rows[i].sourceTags.GetOr("")))
        && forall j :: i < j < |rows| ==> Text.Strip(rows[j].code) != k
  {
    IndexedAt(rows, KeyOf, EntryOf, k);
  }

  /** `split_by_tier`: the TIER1 entries and the TIER2 entries, unchanged;
      the two parts are disjoint and every other tier is dropped. */
  function SplitByTier(watch: map<string, WatchEntry>): (p: (map<string, WatchEntry>, map<string, WatchEntry>))
    ensures forall k :: k in p.0 <==> k in watch && watch[k].watchTier == "TIER1"
    ensures forall k :: k in p.1 <==> k in watch && watch[k].watchTier == "TIER2"
    ensures forall k :: k in p.0 ==> p.0[k] == watch[k]
    ensures forall k :: k in p.1 ==> p.1[k] == watch[k]
    ensures forall k :: !(k in p.0 && k in p.1)
  {
    (map k | k in watch && watch[k].watchTier == "TIER1" :: watch[k],
     map k | k in watch && watch[k].watchTier == "TIER2" :: watch[k])
  }
}
