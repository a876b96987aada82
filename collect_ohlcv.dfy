// The OHLCV collector's pure parts: which symbols it collects (the candidate
// pool, an optional manual list and the fixed large caps, merged, sorted and
// de-duplicated), the daily record with its turnover, and the date rewrite
// done before the CSV is written. The market-data API, the files and the
// clock are parameters or left out.
module CollectOhlcv {
  import opened Wrappers
  import Text
  import Numeric

  /** The large caps always collected. */
  const FixedSymbols: seq<string> := ["005930", "000660"]

  /** What a manual-list line contributes: the stripped line when it is a
      non-empty run of digits, nothing otherwise. */
  function ManualOf(line: string): Option<string>
  {
    var s := Text.Strip(line);
    if s != "" && Text.IsDigits(s) then Some(s) else None
  }

  /** The values `f` yields for the lines, as a set. */
  function Collected(lines: seq<string>, f: string -> Option<string>): set<string>
  {
    if lines == [] then {}
    else
      var m := f(lines[|lines| - 1]);
      Collected(lines[..|lines| - 1], f) + (if m.Some? then {m.value} else {})
  }

  /** A collected value is what some line yields. */
  lemma {:induction false} CollectedMembers(lines: seq<string>, f: string -> Option<string>, s: string)
    ensures s in Collected(lines, f) <==> exists k :: 0 <= k < |lines| && f(lines[k]) == Some(s)
  {
    if lines != [] {
      var n := |lines| - 1;
      var pre := lines[..n];
      CollectedMembers(pre, f, s);
      if s in Collected(lines, f) {
        if s in Collected(pre, f) {
          var k :| 0 <= k < n && f(pre[k]) == Some(s);
          assert pre[k] == lines[k];
        } else {
          assert f(lines[n]) == Some(s);
        }
      }
      if exists k :: 0 <= k < |lines| && f(lines[k]) == Some(s) {
        var k :| 0 <= k < |lines| && f(lines[k]) == Some(s);
        if k < n {
          assert pre[k] == lines[k];
        }
      }
    }
  }

  lemma CollectedSnoc(pre: seq<string>, line: string, f: string -> Option<string>)
    ensures Collected(pre + [line], f) == Collected(pre, f) + (if f(line).Some? then {f(line).value} else {})
  {
    assert (pre + [line])[..|pre|] == pre;
  }

  /** The manual symbols of the lines, as the loader's set. */
  function ManualSymbols(lines: seq<string>): set<string>
  {
    Collected(lines, ManualOf)
  }

  /** Every manual symbol is a non-empty run of digits. */
  lemma ManualSymbolsAreDigits(lines: seq<string>, s: string)
    requires s in ManualSymbols(lines)
    ensures s != "" && Text.IsDigits(s)
    ensures exists k :: 0 <= k < |lines| && s == Text.Strip(lines[k])
  {
    CollectedMembers(lines, ManualOf, s);
    var k :| 0 <= k < |lines| && ManualOf(lines[k]) == Some(s);
  }

  /** `load_symbols_file`: the stripped non-empty all-digit lines. A missing
      or unreadable file (`None`) gives the empty set. */
  method LoadSymbolsFile(file: Option<seq<string>>) returns (symbols: set<string>)
    ensures symbols == (if file.None? then {} else ManualSymbols(file.value))
  {
    symbols := {};
    if file.None? {
      return;
    }
    var lines := file.value;
    var i := 0;
    while i < |lines|
      invariant 0 <= i <= |lines|
      invariant symbols == Collected(lines[..i], ManualOf)
    {
      assert lines[..i + 1] == lines[..i] + [lines[i]];
      CollectedSnoc(lines[..i], lines[i], ManualOf);
      var symbol := ManualOf(lines[i]);
      if symbol.Some? {
        symbols := symbols + {symbol.value};
      }
      i := i + 1;
    }
    assert lines[..i] == lines;
  }

  /** `collect_input_symbols`: the candidate pool, the manual list when one
      is given, and the fixed symbols, as a sorted duplicate-free list. */
  method CollectInputSymbols(candidates: set<string>, manual: Option<set<string>>) returns (result: seq<string>)
    ensures Text.StrictlySorted(result)
    ensures forall s :: s in result <==>
      s in candidates || (manual.Some? && s in manual.value) || s in FixedSymbols
    ensures forall s :: s in FixedSymbols ==> s in result
  {
    var allSymbols := candidates;
    if manual.Some? {
      allSymbols := allSymbols + manual.value;
    }
    allSymbols := allSymbols + set s | s in FixedSymbols;
    result := SortedOf(allSymbols);
  }

  /** The members of a finite set as a strictly ascending list. */
  method SortedOf(xs: set<string>) returns (r: seq<string>)
    ensures Text.StrictlySorted(r)
    ensures forall s :: s in r <==> s in xs
  {
    r := [];
    var todo := xs;
    while todo != {}
      invariant todo <= xs
      invariant Text.StrictlySorted(r)
      invariant forall s :: s in r <==> s in xs && s !in todo
      decreases |todo|
    {
      var s :| s in todo;
      r := Text.InsertSorted(s, r);
      todo := todo - {s};
    }
  }

  /** One collected day of one symbol. */
  datatype Ohlcv = Ohlcv(date: string, symbol: string, open: int, high: int, low: int,
                         close: int, volume: int, turnoverKrw: int)

  /** The record `collect_ohlcv_pykrx` builds from the day's row (already
      converted with `int()`): the turnover is close times volume. */
  function MakeRecord(date: string, symbol: string, open: int, high: int, low: int, close: int, volume: int): (r: Ohlcv)
    ensures r.close == close && r.volume == volume && r.date == date && r.symbol == symbol
    ensures r.open == open && r.high == high && r.low == low
    ensures r.turnoverKrw == r.close * r.volume
    ensures volume != 0 ==> r.turnoverKrw / volume == close
  {
    assert volume != 0 ==> (close * volume) / volume == close by {
      if volume != 0 {
        Numeric.MulDivCancel(close, volume);
      }
    }
    Ohlcv(date, symbol, open, high, low, close, volume, close * volume)
  }

  /** The date rewrite of `save_ohlcv_csv`: an eight-character YYYYMMDD value
      becomes YYYY-MM-DD; any other length is kept. */
  function NormalizeDate(d: string): (r: string)
    ensures |d| == 8 ==> (|r| == 10 && r[4] == '-' && r[7] == '-'
      && r[..4] == d[..4] && r[5..7] == d[4..6] && r[8..] == d[6..])
    ensures |d| != 8 ==> r == d
  {
    if |d| == 8 then d[..4] + "-" + d[4..6] + "-" + d[6..8] else d
  }

  /** Rewriting twice changes nothing more, and dropping the dashes gives the
      original back. */
  lemma NormalizeDateRoundTrip(d: string)
    ensures NormalizeDate(NormalizeDate(d)) == NormalizeDate(d)
    ensures |d| == 8 ==> var r := NormalizeDate(d); r[..4] + r[5..7] + r[8..] == d
  {
    if |d| == 8 {
      var r := NormalizeDate(d);
      assert d == d[..4] + d[4..6] + d[6..];
    }
  }

  /** A row about to be written; `date` is absent when the row has no date
      key. */
  datatype CsvRow = CsvRow(date: Option<string>, rest: Ohlcv)

  function NormalizeRow(row: CsvRow): CsvRow
  {
    if row.date.Some? then CsvRow(Some(NormalizeDate(row.date.value)), row.rest) else row
  }

  /** The rewrite loop: every row's date is normalised in place and nothing
      else changes. */
  method NormalizeDates(rows: array<CsvRow>)
    modifies rows
    ensures forall k :: 0 <= k < rows.Length ==> rows[k] == NormalizeRow(old(rows[k]))
  {
    var i := 0;
    while i < rows.Length
      invariant 0 <= i <= rows.Length
      invariant forall k :: 0 <= k < i ==> rows[k] == NormalizeRow(old(rows[k]))
      invariant forall k :: i <= k < rows.Length ==> rows[k] == old(rows[k])
    {
      var row := rows[i];
      if row.date.Some? && |row.date.value| == 8 {
        rows[i] := CsvRow(Some(NormalizeDate(row.date.value)), row.rest);
      }
      i := i + 1;
    }
  }
}
