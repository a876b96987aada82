// The candidate-pool builder: the union of the fixed large caps, the
// turnover and volume top lists (both still stubs that return nothing) and
// the symbols of the day's condition-search file, sorted and de-duplicated,
// with the raw length of each source recorded. The condition file is a
// parameter (`CondFile`); the clock and the printing are left out.
module CandidatePool {
  import opened Wrappers
  import Text

  /** The large caps always in the pool. */
  const FixedSymbols: seq<string> := ["005930", "000660"]

  /** A symbol value of the condition file: JSON strings and integers. */
  datatype JsonSym = JStr(s: string) | JInt(n: int)

  /** One entry of the file's `conditions` list: an object with its
      `symbols` list, or a value that is not an object. */
  datatype CondEntry = Entry(symbols: seq<JsonSym>) | Malformed

  /** The condition file: absent, unreadable (not JSON, or not an object),
      or its `conditions` list. */
  datatype CondFile = Missing | Unreadable | Loaded(conditions: seq<CondEntry>)

  /** Python truthiness of a symbol value. */
  predicate Truthy(v: JsonSym)
  {
    match v
    case JStr(s) => s != ""
    case JInt(n) => n != 0
  }

  /** Python `str()` of a symbol value. */
  function Str(v: JsonSym): string
  {
    match v
    case JStr(s) => s
    case JInt(n) => if n < 0 then "-" + Text.NatToString(-n) else Text.NatToString(n)
  }

  /** A symbol value as the loader stores it: `str()` padded to six
      characters. */
  function Norm(v: JsonSym): (y: string)
    ensures |y| >= 6
  {
    Text.ZFill(Str(v), 6)
  }

  /** The padded symbols one entry contributes, in order. */
  function NormSyms(syms: seq<JsonSym>): seq<string>
  {
    if syms == [] then []
    else
      var v := syms[|syms| - 1];
      NormSyms(syms[..|syms| - 1]) + (if Truthy(v) then [Norm(v)] else [])
  }

  /** The padded symbols of well-formed entries, in file order. */
  function NormAll(conds: seq<CondEntry>): seq<string>
  {
    if conds == [] then []
    else
      var c := conds[|conds| - 1];
      NormAll(conds[..|conds| - 1]) + (if c.Entry? then NormSyms(c.symbols) else [])
  }

  /** A padded symbol is at least six characters long and comes from a truthy
      value of the entry. */
  lemma NormSymsMembers(syms: seq<JsonSym>, y: string)
    ensures y in NormSyms(syms) <==> exists v :: v in syms && Truthy(v) && y == Norm(v)
  {
    if y in NormSyms(syms) {
      NormSymsSound(syms, y);
    }
    if exists v :: v in syms && Truthy(v) && y == Norm(v) {
      var v :| v in syms && Truthy(v) && y == Norm(v);
      NormSymsComplete(syms, v);
    }
  }

  lemma {:induction false} NormSymsSound(syms: seq<JsonSym>, y: string)
    requires y in NormSyms(syms)
    ensures exists v :: v in syms && Truthy(v) && y == Norm(v)
  {
    var init, last := syms[..|syms| - 1], syms[|syms| - 1];
    assert syms == init + [last];
    if y in NormSyms(init) {
      NormSymsSound(init, y);
      var v :| v in init && Truthy(v) && y == Norm(v);
      assert v in syms;
    } else {
      assert last in syms && Truthy(last) && y == Norm(last);
    }
  }

  lemma {:induction false} NormSymsComplete(syms: seq<JsonSym>, v: JsonSym)
    requires v in syms && Truthy(v)
    ensures Norm(v) in NormSyms(syms)
  {
    var init, last := syms[..|syms| - 1], syms[|syms| - 1];
    assert syms == init + [last];
    if v != last {
      assert v in init;
      NormSymsComplete(init, v);
    }
  }

  /** Every padded symbol of the file is six characters or more. */
  lemma {:induction false} NormAllWidth(conds: seq<CondEntry>, y: string)
    requires y in NormAll(conds)
    ensures |y| >= 6
    ensures exists c :: c in conds && c.Entry? && y in NormSyms(c.symbols)
  {
    var n := |conds| - 1;
    var c := conds[n];
    if y in NormAll(conds[..n]) {
      NormAllWidth(conds[..n], y);
      var d :| d in conds[..n] && d.Entry? && y in NormSyms(d.symbols);
      assert d in conds;
    } else {
      assert c.Entry? && y in NormSyms(c.symbols);
      NormSymsMembers(c.symbols, y);
    }
    var d :| d in conds && d.Entry? && y in NormSyms(d.symbols);
    NormSymsMembers(d.symbols, y);
  }

  /** Whether every entry of the list is an object. */
  predicate AllEntries(conds: seq<CondEntry>)
  {
    forall k :: 0 <= k < |conds| ==> conds[k].Entry?
  }

  /** `load_condition_results` as a value: [] for a missing or unreadable
      file; the sorted distinct padded symbols of a well-formed list; and for
      a list with a non-object entry, the padded symbols collected before it,
      unsorted, because the exception is swallowed after the partial
      collection. */
  function ConditionResults(file: CondFile): (r: seq<string>)
    ensures !file.Loaded? ==> r == []
    ensures file.Loaded? && AllEntries(file.conditions) ==>
      Text.StrictlySorted(r) && forall y :: y in r <==> y in NormAll(file.conditions)
    ensures file.Loaded? && !AllEntries(file.conditions) ==>
      exists k :: 0 <= k < |file.conditions| && file.conditions[k].Malformed?
        && AllEntries(file.conditions[..k]) && r == NormAll(file.conditions[..k])
  {
    if !file.Loaded? then []
    else
      var conds := file.conditions;
      if AllEntries(conds) then Text.SortedUnique(NormAll(conds))
      else
        var k := FirstMalformed(conds);
        NormAll(conds[..k])
  }

  /** Index of the first non-object entry. */
  function FirstMalformed(conds: seq<CondEntry>): (k: nat)
    requires !AllEntries(conds)
    ensures k < |conds| && conds[k].Malformed? && AllEntries(conds[..k])
  {
    if conds[0].Malformed? then 0
    else
      assert !AllEntries(conds[1..]) by {
        var k :| 0 <= k < |conds| && !conds[k].Entry?;
        assert conds[1..][k - 1] == conds[k];
      }
      var k := 1 + FirstMalformed(conds[1..]);
      assert AllEntries(conds[..k]) by {
        forall j | 0 <= j < k ensures conds[..k][j].Entry? {
          if j > 0 {
            assert conds[..k][j] == conds[1..][..k - 1][j - 1];
          }
        }
      }
      k
  }

  /** The loader's loops: appends each truthy symbol padded to six characters,
      and sorts and de-duplicates once the whole list is read. */
  method LoadConditionResults(file: CondFile) returns (symbols: seq<string>)
    ensures symbols == ConditionResults(file)
  {
    if !file.Loaded? {
      return [];
    }
    var conds := file.conditions;
    symbols := [];
    var i := 0;
    while i < |conds|
      invariant 0 <= i <= |conds|
      invariant AllEntries(conds[..i])
      invariant symbols == NormAll(conds[..i])
    {
      assert conds[..i + 1][..i] == conds[..i];
      if conds[i].Malformed? {
        assert FirstMalformed(conds) == i by {
          FirstMalformedUnique(conds, i);
        }
        return;
      }
      symbols := AppendEntry(symbols, conds[i].symbols);
      i := i + 1;
    }
    assert conds[..i] == conds;
    symbols := Text.SortedUnique(symbols);
  }

  /** The inner loop: appends each truthy symbol of one entry, padded. */
  method AppendEntry(symbols0: seq<string>, syms: seq<JsonSym>) returns (symbols: seq<string>)
    ensures symbols == symbols0 + NormSyms(syms)
  {
    symbols := symbols0;
    var j := 0;
    while j < |syms|
      invariant 0 <= j <= |syms|
      invariant symbols == symbols0 + NormSyms(syms[..j])
    {
      NormSymsStep(syms, j);
      if Truthy(syms[j]) {
        symbols := symbols + [Norm(syms[j])];
      }
      j := j + 1;
    }
    assert syms[..j] == syms;
  }

  /** One more value of an entry adds its padded symbol when it is truthy. */
  lemma NormSymsStep(syms: seq<JsonSym>, j: nat)
    requires j < |syms|
    ensures NormSyms(syms[..j + 1]) == NormSyms(syms[..j]) + (if Truthy(syms[j]) then [Norm(syms[j])] else [])
  {
    assert syms[..j + 1][..j] == syms[..j];
  }

  lemma FirstMalformedUnique(conds: seq<CondEntry>, i: nat)
    requires i < |conds| && conds[i].Malformed? && AllEntries(conds[..i])
    ensures !AllEntries(conds) && FirstMalformed(conds) == i
  {
    assert conds[i].Malformed?;
    var k := FirstMalformed(conds);
    assert forall j :: 0 <= j < k ==> conds[j].Entry? by {
      forall j | 0 <= j < k ensures conds[j].Entry? {
        assert conds[..k][j] == conds[j];
      }
    }
    assert forall j :: 0 <= j < i ==> conds[j].Entry? by {
      forall j | 0 <= j < i ensures conds[j].Entry? {
        assert conds[..i][j] == conds[j];
      }
    }
  }

  /** The per-source lengths the pool records. */
  datatype Sources = Sources(turnoverTop: nat, volumeTop: nat, conditions: nat, fixedSymbols: nat)

  /** The pool: its date, the source lengths and the symbols. */
  datatype Pool = Pool(date: string, sources: Sources, symbols: seq<string>)

  /** The turnover top loader: a stub with no symbols yet. */
  function LoadTurnoverTop(date: string, limit: Option<int>): seq<string>
  {
    []
  }

  /** The volume top loader: a stub with no symbols yet. */
  function LoadVolumeTop(date: string, limit: Option<int>): seq<string>
  {
    []
  }

  /** The pool from the four loaders' lists: the sorted distinct union with
      the raw list lengths, or, when every list is empty, the sorted fixed
      symbols with only those counted. */
  function PoolOf(date: string, fixed: seq<string>, turnover: seq<string>, volume: seq<string>,
                  conditions: seq<string>): (p: Pool)
    ensures p.date == date
    ensures Text.StrictlySorted(p.symbols) && p.symbols != []
    ensures fixed + turnover + volume + conditions != [] ==>
      (forall y :: y in p.symbols <==> y in fixed || y in turnover || y in volume || y in conditions)
      && p.sources == Sources(|turnover|, |volume|, |conditions|, |fixed|)
    ensures fixed + turnover + volume + conditions == [] ==>
      (forall y :: y in p.symbols <==> y in FixedSymbols)
      && p.sources == Sources(0, 0, 0, |FixedSymbols|)
  {
    var all := fixed + turnover + volume + conditions;
    var candidates := Text.SortedUnique(all);
    assert all != [] ==> candidates != [] by {
      if all != [] {
        assert all[0] in candidates;
      }
    }
    if candidates == [] then
      var fallback := Text.SortedUnique(FixedSymbols);
      assert FixedSymbols[0] in fallback && FixedSymbols[1] in fallback;
      assert |fallback| == 2 by {
        assert fallback[0] != fallback[1] by {
          Text.StrictlySortedHasNoDups(fallback);
        }
      }
      Pool(date, Sources(0, 0, 0, |fallback|), fallback)
    else
      assert all != [] by {
        assert candidates[0] in all;
      }
      Pool(date, Sources(|turnover|, |volume|, |conditions|, |fixed|), candidates)
  }

  /** `build_candidate_pool`: the fixed symbols, the two stub loaders and the
      condition file. The fixed symbols are always in the pool, the stub
      counts are 0 and the condition count is the loader's raw length. */
  method BuildCandidatePool(date: string, file: CondFile) returns (p: Pool)
    ensures Text.StrictlySorted(p.symbols)
    ensures forall y :: y in p.symbols <==> y in FixedSymbols || y in ConditionResults(file)
    ensures p.sources == Sources(0, 0, |ConditionResults(file)|, |FixedSymbols|)
  {
    var conditions := LoadConditionResults(file);
    p := PoolOf(date, FixedSymbols, LoadTurnoverTop(date, Some(300)), LoadVolumeTop(date, Some(200)), conditions);
  }
}
