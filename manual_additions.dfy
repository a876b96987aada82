// Stocks added by hand over the chat bot, one document per trading date.
// Adding and removing load the date's document, change its symbol list and
// save it back; listing gathers the symbols of every stored document. The
// file system is a value: a date's file is absent, unreadable or holds a
// document, and whether a save succeeds is a parameter.
module ManualAdditions {
  import opened Wrappers
  import Text

  datatype Item = Item(symbol: string, addedBy: string, addedAt: string, reason: string)

  datatype Document = Document(date: string, updatedAt: Option<string>, source: string, symbols: seq<Item>)

  /** A date's file as a load finds it. */
  datatype File = Absent | Corrupt | Stored(doc: Document)

  /** The result of an add or a remove: the returned flag and the file
      afterwards. */
  datatype Outcome = Outcome(ok: bool, file: File)

  function EmptyDocument(date: string): Document
  {
    Document(date, None, "telegram", [])
  }

  /** `load_manual_additions`: the stored document, or an empty one from
      the chat bot when the file is missing or unreadable. */
  function Load(file: File, date: string): (d: Document)
    ensures file.Stored? ==> d == file.doc
    ensures !file.Stored? ==> d.date == date && d.updatedAt.None? && d.source == "telegram" && d.symbols == []
  {
    if file.Stored? then file.doc else EmptyDocument(date)
  }

  /** `save_manual_additions`: the document, stamped with the save time, is
      written when the write succeeds; a failed write reports false. */
  function Save(file: File, doc: Document, now: string, writeOk: bool): Outcome
  {
    if writeOk then Outcome(true, Stored(doc.(updatedAt := Some(now)))) else Outcome(false, file)
  }

  function SymbolsOf(items: seq<Item>): set<string>
  {
    set i | i in items :: i.symbol
  }

  /** `add_manual_symbol`: an already listed symbol is refused; otherwise
      one item is appended and the document saved. */
  function AddManualSymbol(file: File, symbol: string, date: string, reason: string,
                           now: string, writeOk: bool): Outcome
  {
    var doc := Load(file, date).(date := date);
    if symbol in SymbolsOf(doc.symbols) then Outcome(false, file)
    else Save(file, doc.(symbols := doc.symbols + [Item(symbol, "telegram", now, reason)]), now, writeOk)
  }

  /** The items whose symbol differs, in order. */
  function Without(items: seq<Item>, symbol: string): (r: seq<Item>)
    ensures |r| <= |items|
  {
    if items == [] then []
    else
      var rest := Without(items[..|items| - 1], symbol);
      if items[|items| - 1].symbol != symbol then rest + [items[|items| - 1]] else rest
  }

  /** `remove_manual_symbol`: every item with the symbol is dropped; when
      none was, nothing is saved and the answer is false. */
  function RemoveManualSymbol(file: File, symbol: string, date: string, now: string, writeOk: bool): Outcome
  {
    var doc := Load(file, date).(date := date);
    var kept := Without(doc.symbols, symbol);
    if |kept| == |doc.symbols| then Outcome(false, file)
    else Save(file, doc.(symbols := kept), now, writeOk)
  }

  /** Dropping keeps exactly the items with another symbol, in order, and
      shortens the list exactly when the symbol was there. */
  lemma {:induction false} WithoutRule(items: seq<Item>, symbol: string)
    ensures forall i :: i in Without(items, symbol) <==> i in items && i.symbol != symbol
    ensures symbol !in SymbolsOf(Without(items, symbol))
    ensures |Without(items, symbol)| == |items| <==> symbol !in SymbolsOf(items)
    ensures symbol !in SymbolsOf(items) ==> Without(items, symbol) == items
  {
    if items != [] {
      var init := items[..|items| - 1];
      WithoutRule(init, symbol);
      assert items == init + [items[|items| - 1]];
      assert SymbolsOf(items) == SymbolsOf(init) + {items[|items| - 1].symbol};
    }
  }

  /** A listed symbol leaves the file alone and answers false. Otherwise
      the saved document is for the date, keeps its source and earlier
      items, and gains exactly one item for the symbol, added by the chat
      bot with the given reason; the answer is whether the write
      succeeded. */
  lemma AddRule(file: File, symbol: string, date: string, reason: string, now: string, writeOk: bool)
    ensures var before := Load(file, date); var o := AddManualSymbol(file, symbol, date, reason, now, writeOk);
      (symbol in SymbolsOf(before.symbols) ==> o == Outcome(false, file))
      && (symbol !in SymbolsOf(before.symbols) ==>
            o.ok == writeOk
            && (!writeOk ==> o.file == file)
            && (writeOk ==> o.file.Stored? && o.file.doc.date == date && o.file.doc.source == before.source
                            && o.file.doc.updatedAt == Some(now)
                            && o.file.doc.symbols == before.symbols + [Item(symbol, "telegram", now, reason)]))
  {
  }

  /** A symbol that is not listed leaves the file alone and answers false.
      Otherwise the saved document keeps exactly the items with another
      symbol, and the answer is whether the write succeeded. */
  lemma RemoveRule(file: File, symbol: string, date: string, now: string, writeOk: bool)
    ensures var before := Load(file, date); var o := RemoveManualSymbol(file, symbol, date, now, writeOk);
      (symbol !in SymbolsOf(before.symbols) ==> o == Outcome(false, file))
      && (symbol in SymbolsOf(before.symbols) ==>
            o.ok == writeOk
            && (!writeOk ==> o.file == file)
            && (writeOk ==> o.file.Stored? && o.file.doc.date == date
                            && symbol !in SymbolsOf(o.file.doc.symbols)
                            && forall i :: i in o.file.doc.symbols <==> i in before.symbols && i.symbol != symbol))
  {
    WithoutRule(Load(file, date).symbols, symbol);
  }

  /** Adding a new symbol and then removing it, both writes succeeding,
      gives back the original list of items. */
  lemma AddThenRemove(file: File, symbol: string, date: string, reason: string, now: string, later: string)
    requires symbol !in SymbolsOf(Load(file, date).symbols)
    ensures var added := AddManualSymbol(file, symbol, date, reason, now, true);
      var removed := RemoveManualSymbol(added.file, symbol, date, later, true);
      removed.ok && removed.file.Stored? && removed.file.doc.symbols == Load(file, date).symbols
  {
    var before := Load(file, date).symbols;
    var item := Item(symbol, "telegram", now, reason);
    WithoutRule(before, symbol);
    assert (before + [item])[..|before|] == before;
    assert Without(before + [item], symbol) == Without(before, symbol);
    WithoutRule(before + [item], symbol);
    assert symbol in SymbolsOf(before + [item]);
  }

  /** The symbols of the readable documents, in file order; unreadable and
      missing files contribute none. */
  function AllSymbols(files: seq<File>): seq<string>
  {
    if files == [] then []
    else
      var last := files[|files| - 1];
      AllSymbols(files[..|files| - 1])
      + (if last.Stored? then seq(|last.doc.symbols|, k requires 0 <= k < |last.doc.symbols| => last.doc.symbols[k].symbol) else [])
  }

  /** The non-empty symbols, padded to six digits. */
  function Normalized(symbols: seq<string>): (r: seq<string>)
    ensures forall y :: y in r <==> exists s :: s in symbols && s != "" && y == Text.ZFill(s, 6)
  {
    if symbols == [] then []
    else
      var rest := Normalized(symbols[..|symbols| - 1]);
      var last := symbols[|symbols| - 1];
      assert forall s :: s in symbols <==> s in symbols[..|symbols| - 1] || s == last by {
        assert symbols == symbols[..|symbols| - 1] + [last];
      }
      if last != "" then rest + [Text.ZFill(last, 6)] else rest
  }

  /** `get_manual_symbols`: every non-empty symbol of every readable
      document, padded to six digits, without duplicates and sorted. */
  function GetManualSymbols(files: seq<File>): (r: seq<string>)
    ensures Text.StrictlySorted(r)
    ensures forall y :: y in r <==> exists s :: s in AllSymbols(files) && s != "" && y == Text.ZFill(s, 6)
    ensures forall y :: y in r ==> |y| >= 6
  {
    Text.SortedUnique(Normalized(AllSymbols(files)))
  }

  /** A symbol is gathered exactly when some readable document lists it. */
  lemma {:induction false} AllSymbolsRule(files: seq<File>, symbol: string)
    ensures symbol in AllSymbols(files) <==>
      exists f :: f in files && f.Stored? && symbol in SymbolsOf(f.doc.symbols)
  {
    if files != [] {
      var init, last := files[..|files| - 1], files[|files| - 1];
      AllSymbolsRule(init, symbol);
      assert files == init + [last];
      if last.Stored? {
        var tail := seq(|last.doc.symbols|, k requires 0 <= k < |last.doc.symbols| => last.doc.symbols[k].symbol);
        assert symbol in tail <==> symbol in SymbolsOf(last.doc.symbols) by {
          if symbol in SymbolsOf(last.doc.symbols) {
            var i :| i in last.doc.symbols && i.symbol == symbol;
            var k :| 0 <= k < |last.doc.symbols| && last.doc.symbols[k] == i;
            assert tail[k] == symbol;
          }
        }
      }
    }
  }
}
