// Daily event statistics: how many events were logged, how many per type,
// per symbol and per hour of the day. Reading the JSON-lines log is left
// out; the events arrive as records whose fields may be missing.
module EventStats {
  import opened Wrappers
  import Text
  import Counters
  import ED = EventDefinitions

  /** A logged event as the statistics see it: each field is the string
      stored under its key, or `None` when the key is missing or null. */
  datatype EventRecord = EventRecord(eventType: Option<string>, symbol: Option<string>, occurredAt: Option<string>)

  datatype Stats = Stats(totalEvents: nat, byType: map<string, nat>, bySymbol: map<string, nat>,
                         hourly: map<nat, nat>)

  /** A field used as a counter key when it is truthy: present and not
      empty. */
  function TruthyKey(v: Option<string>): (r: Option<string>)
    ensures r.Some? <==> v.Some? && v.value != ""
    ensures r.Some? ==> r == v
  {
    if v.Some? && v.value != "" then v else None
  }

  function TypeKey(e: EventRecord): Option<string> { TruthyKey(e.eventType) }
  function SymbolKey(e: EventRecord): Option<string> { TruthyKey(e.symbol) }

  // ---------------------------------------------------------------------
  // Counters
  // ---------------------------------------------------------------------

  /** The counter after the events: one per event for the key `f` gives
      it, none for an event without one. */
  function Tally<K>(events: seq<EventRecord>, f: EventRecord -> Option<K>): map<K, nat>
  {
    if events == [] then map[]
    else
      var m := Tally(events[..|events| - 1], f);
      var key := f(events[|events| - 1]);
      if key.Some? then Counters.Bump(m, key.value) else m
  }

  /** How many events `f` maps to `k`. */
  function Occurrences<K(==)>(events: seq<EventRecord>, f: EventRecord -> Option<K>, k: K): nat
  {
    if events == [] then 0
    else Occurrences(events[..|events| - 1], f, k) + (if f(events[|events| - 1]) == Some(k) then 1 else 0)
  }

  /** How many events have a key at all. */
  function Keyed<K>(events: seq<EventRecord>, f: EventRecord -> Option<K>): (n: nat)
    ensures n <= |events|
  {
    if events == [] then 0
    else Keyed(events[..|events| - 1], f) + (if f(events[|events| - 1]).Some? then 1 else 0)
  }

  lemma TallySnoc<K>(events: seq<EventRecord>, e: EventRecord, f: EventRecord -> Option<K>)
    ensures Tally(events + [e], f) == if f(e).Some? then Counters.Bump(Tally(events, f), f(e).value) else Tally(events, f)
  {
    assert (events + [e])[..|events|] == events;
  }

  /** Each counter holds exactly the number of events with its key, and
      only keys some event has appear. */
  lemma {:induction false} TallyCounts<K>(events: seq<EventRecord>, f: EventRecord -> Option<K>, k: K)
    ensures k in Tally(events, f) <==> Occurrences(events, f, k) > 0
    ensures k in Tally(events, f) ==> Tally(events, f)[k] == Occurrences(events, f, k)
  {
    if events != [] {
      TallyCounts(events[..|events| - 1], f, k);
    }
  }

  /** A key is counted exactly when some event carries it. */
  lemma {:induction false} OccurrencesWitness<K>(events: seq<EventRecord>, f: EventRecord -> Option<K>, k: K)
    ensures Occurrences(events, f, k) > 0 <==> exists i :: 0 <= i < |events| && f(events[i]) == Some(k)
  {
    if events != [] {
      var pre := events[..|events| - 1];
      OccurrencesWitness(pre, f, k);
      if exists i :: 0 <= i < |pre| && f(pre[i]) == Some(k) {
        var i :| 0 <= i < |pre| && f(pre[i]) == Some(k);
        assert events[i] == pre[i];
      }
      if exists i :: 0 <= i < |events| && f(events[i]) == Some(k) {
        var i :| 0 <= i < |events| && f(events[i]) == Some(k);
        if i < |pre| {
          assert pre[i] == events[i];
        }
      }
    }
  }

  /** The counter's total is the number of events with a key, so it never
      exceeds the number of events. */
  lemma {:induction false} TallySum<K>(events: seq<EventRecord>, f: EventRecord -> Option<K>)
    ensures Counters.MapSum(Tally(events, f)) == Keyed(events, f) <= |events|
  {
    if events != [] {
      var pre := events[..|events| - 1];
      TallySum(pre, f);
      var key := f(events[|events| - 1]);
      if key.Some? {
        Counters.MapSumBump(Tally(pre, f), key.value);
      }
    }
  }

  // ---------------------------------------------------------------------
  // The hour of `occurred_at`
  // ---------------------------------------------------------------------

  /** `s.replace(pat, "")`: every occurrence, scanning left to right, is
      removed. */
  function RemoveAll(s: string, pat: string): (r: string)
    requires pat != ""
    ensures |r| <= |s|
    decreases |s|
  {
    if |s| < |pat| then s
    else if s[..|pat|] == pat then RemoveAll(s[|pat|..], pat)
    else [s[0]] + RemoveAll(s[1..], pat)
  }

  /** A prefix without the pattern's first character passes through
      unchanged. */
  lemma {:induction false} RemoveAllPrefix(x: string, y: string, pat: string)
    requires pat != ""
    requires forall i :: 0 <= i < |x| ==> x[i] != pat[0]
    ensures RemoveAll(x + y, pat) == x + RemoveAll(y, pat)
    decreases |x|
  {
    if x != [] {
      var s := x + y;
      if |s| >= |pat| {
        assert s[..|pat|] != pat by {
          assert s[..|pat|][0] == x[0];
        }
        assert RemoveAll(s, pat) == [s[0]] + RemoveAll(s[1..], pat);
        assert s[1..] == x[1..] + y;
        RemoveAllPrefix(x[1..], y, pat);
        assert [x[0]] + x[1..] == x;
      } else {
        assert RemoveAll(y, pat) == y;
      }
    } else {
      assert x + y == y;
    }
  }

  /** The value of a decimal digit; 0 for any other character. */
  function Digit(c: char): nat
  {
    if Text.IsAsciiDigit(c) then c as int - '0' as int else 0
  }

  /** The number a run of decimal digits writes. */
  function DigitsValue(s: string): nat
  {
    if s == [] then 0 else DigitsValue(s[..|s| - 1]) * 10 + Digit(s[|s| - 1])
  }

  predicate LeapYear(y: int)
  {
    y % 4 == 0 && (y % 100 != 0 || y % 400 == 0)
  }

  function DaysInMonth(y: int, m: int): int
  {
    if m == 2 then (if LeapYear(y) then 29 else 28)
    else if m == 4 || m == 6 || m == 9 || m == 11 then 30
    else 31
  }

  /** The hour `datetime.fromisoformat(s).hour` gives, or `None` where it
      raises. Accepted: `YYYY-MM-DD` (hour 0), or that date, any one
      separator character and `HH`, `HH:MM` or `HH:MM:SS`, with the month,
      the day of that month, the hour, minute and second in range. */
  function IsoHour(s: string): (r: Option<nat>)
    ensures r.Some? ==> r.value < 24 && |s| >= 10
  {
    if |s| < 10 || !Text.IsDigits(s[..4]) || s[4] != '-' || !Text.IsDigits(s[5..7]) || s[7] != '-'
       || !Text.IsDigits(s[8..10]) then None
    else
      var year, month, day := DigitsValue(s[..4]), DigitsValue(s[5..7]), DigitsValue(s[8..10]);
      if !(1 <= year && 1 <= month <= 12 && 1 <= day <= DaysInMonth(year, month)) then None
      else if |s| == 10 then Some(0)
      else if |s| < 13 || !Text.IsDigits(s[11..13]) || DigitsValue(s[11..13]) >= 24 then None
      else
        var hour := DigitsValue(s[11..13]);
        if |s| == 13 then Some(hour)
        else if s[13] != ':' || |s| < 16 || !Text.IsDigits(s[14..16]) || DigitsValue(s[14..16]) >= 60 then None
        else if |s| == 16 then Some(hour)
        else if |s| == 19 && s[16] == ':' && Text.IsDigits(s[17..19]) && DigitsValue(s[17..19]) < 60 then Some(hour)
        else None
  }

  /** The hour an event contributes: its truthy `occurred_at` with every
      "+09:00" removed, when that parses; `None` (the event is skipped)
      otherwise. */
  function HourKey(e: EventRecord): (r: Option<nat>)
    ensures r.Some? ==> r.value < 24
    ensures TruthyKey(e.occurredAt).None? ==> r.None?
  {
    if TruthyKey(e.occurredAt).Some? then IsoHour(RemoveAll(e.occurredAt.value, ED.SeoulSuffix)) else None
  }

  // ---------------------------------------------------------------------
  // aggregate_event_stats
  // ---------------------------------------------------------------------

  /** `aggregate_event_stats`: the number of events, and per type, per
      symbol and per hour how many events carry it. */
  method AggregateEventStats(events: seq<EventRecord>) returns (stats: Stats)
    ensures stats.totalEvents == |events|
    ensures stats.byType == Tally(events, TypeKey)
    ensures stats.bySymbol == Tally(events, SymbolKey)
    ensures stats.hourly == Tally(events, HourKey)
    ensures stats == Aggregate(events)
  {
    var byType: map<string, nat> := map[];
    var bySymbol: map<string, nat> := map[];
    var hourly: map<nat, nat> := map[];
    var i := 0;
    while i < |events|
      invariant 0 <= i <= |events|
      invariant byType == Tally(events[..i], TypeKey)
      invariant bySymbol == Tally(events[..i], SymbolKey)
      invariant hourly == Tally(events[..i], HourKey)
    {
      var event := events[i];
      assert events[..i + 1] == events[..i] + [event];
      TallySnoc(events[..i], event, TypeKey);
      TallySnoc(events[..i], event, SymbolKey);
      TallySnoc(events[..i], event, HourKey);
      if event.eventType.Some? && event.eventType.value != "" {
        byType := Counters.Bump(byType, event.eventType.value);
      }
      if event.symbol.Some? && event.symbol.value != "" {
        bySymbol := Counters.Bump(bySymbol, event.symbol.value);
      }
      if event.occurredAt.Some? && event.occurredAt.value != "" {
        var hour := IsoHour(RemoveAll(event.occurredAt.value, ED.SeoulSuffix));
        if hour.Some? {
          hourly := Counters.Bump(hourly, hour.value);
        }
      }
      i := i + 1;
    }
    assert events[..i] == events;
    stats := Stats(|events|, byType, bySymbol, hourly);
  }

  /** The statistics as a value: what `AggregateEventStats` returns. */
  function Aggregate(events: seq<EventRecord>): Stats
  {
    Stats(|events|, Tally(events, TypeKey), Tally(events, SymbolKey), Tally(events, HourKey))
  }

  /** No events: total 0 and three empty counters. */
  lemma AggregateEmpty()
    ensures Aggregate([]) == Stats(0, map[], map[], map[])
  {
  }

  /** Every counter's total is at most the number of events; every hour is
      below 24; a type, symbol or hour is counted exactly when some event
      carries it, and then by the number of such events. */
  lemma AggregateBounds(events: seq<EventRecord>)
    ensures Counters.MapSum(Aggregate(events).byType) <= |events|
    ensures Counters.MapSum(Aggregate(events).bySymbol) <= |events|
    ensures Counters.MapSum(Aggregate(events).hourly) <= |events|
    ensures forall h :: h in Aggregate(events).hourly ==> h < 24
  {
    TallySum(events, TypeKey);
    TallySum(events, SymbolKey);
    TallySum(events, HourKey);
    forall h | h in Aggregate(events).hourly
      ensures h < 24
    {
      TallyCounts(events, HourKey, h);
      OccurrencesWitness(events, HourKey, h);
    }
  }

  /** A type is counted exactly when some event carries it, by the number
      of such events. */
  lemma TypeCounted(events: seq<EventRecord>, t: string)
    ensures t in Aggregate(events).byType <==> exists i :: 0 <= i < |events| && TypeKey(events[i]) == Some(t)
    ensures t in Aggregate(events).byType ==> Aggregate(events).byType[t] == Occurrences(events, TypeKey, t)
  {
    TallyCounts(events, TypeKey, t);
    OccurrencesWitness(events, TypeKey, t);
  }

  /** An event whose time does not parse leaves the hourly counter as it
      was; the other counters count it as usual. */
  lemma UnparsableTimeSkipped(events: seq<EventRecord>, e: EventRecord)
    requires HourKey(e).None?
    ensures Aggregate(events + [e]).hourly == Aggregate(events).hourly
    ensures Aggregate(events + [e]).totalEvents == Aggregate(events).totalEvents + 1
  {
    TallySnoc(events, e, HourKey);
  }

  // ---------------------------------------------------------------------
  // The logged time and its hour
  // ---------------------------------------------------------------------

  lemma {:induction false} NatToStringValue(n: nat)
    ensures DigitsValue(Text.NatToString(n)) == n
  {
    if n >= 10 {
      NatToStringValue(n / 10);
      var s := Text.NatToString(n);
      assert s[..|s| - 1] == Text.NatToString(n / 10);
    }
  }

  lemma Pad2Value(n: nat)
    requires n < 100
    ensures Text.IsDigits(Text.Pad2(n)) && DigitsValue(Text.Pad2(n)) == n
  {
    Text.Pad2Digits(n);
    var s := Text.Pad2(n);
    assert s[..1] == [s[0]] && s[..1][..0] == [];
    assert Digit(s[0]) == n / 10 && Digit(s[1]) == n % 10;
  }

  /** A two-character run of digits and its value. */
  predicate TwoDigits(s: string, v: nat)
  {
    |s| == 2 && Text.IsDigits(s) && DigitsValue(s) == v
  }

  /** `Y-M-DTH:Mi:S` from its pieces. */
  function IsoText(y: string, m: string, d: string, h: string, mi: string, sec: string): string
  {
    y + "-" + m + "-" + d + "T" + h + ":" + mi + ":" + sec
  }

  /** The pieces sit at fixed positions. */
  lemma IsoTextSlices(y: string, m: string, d: string, h: string, mi: string, sec: string)
    requires |y| == 4 && |m| == 2 && |d| == 2 && |h| == 2 && |mi| == 2 && |sec| == 2
    ensures var x := IsoText(y, m, d, h, mi, sec);
      |x| == 19 && x[..4] == y && x[4] == '-' && x[5..7] == m && x[7] == '-' && x[8..10] == d
      && x[10] == 'T' && x[11..13] == h && x[13] == ':' && x[14..16] == mi && x[16] == ':' && x[17..19] == sec
  {
  }

  /** A well-formed text parses to its hour. */
  lemma IsoHourOfText(y: string, m: string, d: string, h: string, mi: string, sec: string,
                      year: nat, month: nat, day: nat, hour: nat, minute: nat, second: nat)
    requires |y| == 4 && Text.IsDigits(y) && DigitsValue(y) == year
    requires TwoDigits(m, month) && TwoDigits(d, day) && TwoDigits(h, hour)
    requires TwoDigits(mi, minute) && TwoDigits(sec, second)
    requires 1 <= year && 1 <= month <= 12 && 1 <= day <= DaysInMonth(year, month)
    requires hour < 24 && minute < 60 && second < 60
    ensures IsoHour(IsoText(y, m, d, h, mi, sec)) == Some(hour)
  {
    IsoTextSlices(y, m, d, h, mi, sec);
  }

  /** Text made of digits and separators has no '+'. */
  lemma IsoTextNoPlus(y: string, m: string, d: string, h: string, mi: string, sec: string)
    requires |y| == 4 && |m| == 2 && |d| == 2 && |h| == 2 && |mi| == 2 && |sec| == 2
    requires Text.IsDigits(y) && Text.IsDigits(m) && Text.IsDigits(d)
    requires Text.IsDigits(h) && Text.IsDigits(mi) && Text.IsDigits(sec)
    ensures forall i :: 0 <= i < 19 ==> IsoText(y, m, d, h, mi, sec)[i] != '+'
  {
    var x := IsoText(y, m, d, h, mi, sec);
    IsoTextSlices(y, m, d, h, mi, sec);
    forall i | 0 <= i < 19
      ensures x[i] != '+'
    {
      if i < 4 {
        assert x[i] == y[i];
      } else if 5 <= i < 7 {
        assert x[i] == m[i - 5];
      } else if 8 <= i < 10 {
        assert x[i] == d[i - 8];
      } else if 11 <= i < 13 {
        assert x[i] == h[i - 11];
      } else if 14 <= i < 16 {
        assert x[i] == mi[i - 14];
      } else if 17 <= i < 19 {
        assert x[i] == sec[i - 17];
      }
    }
  }

  /** The fixed-offset text is the plain text followed by "+09:00". */
  lemma OccurredAtText(d: ED.DateTime)
    requires ED.ValidDateTime(d)
    ensures ED.FormatOccurredAt(d) ==
      IsoText(Text.NatToString(d.year), Text.Pad2(d.month), Text.Pad2(d.day),
              Text.Pad2(d.hour), Text.Pad2(d.minute), Text.Pad2(d.second)) + ED.SeoulSuffix
  {
    var y := Text.NatToString(d.year);
    var m, dd, h, mi, sec := Text.Pad2(d.month), Text.Pad2(d.day), Text.Pad2(d.hour), Text.Pad2(d.minute), Text.Pad2(d.second);
    var date := y + "-" + m + "-" + dd;
    var time := h + ":" + mi + ":" + sec;
    assert ED.DatePart(d) == date by {
      Text.NatToStringWidth(d.year);
      assert Text.ZFill(y, 4) == y;
    }
    assert ED.TimePart(d) == time;
    assert ED.FormatOccurredAt(d) == date + "T" + time + ED.SeoulSuffix by {
      assert ED.FormatOccurredAt(d) == ED.DatePart(d) + "T" + ED.TimePart(d) + ED.SeoulSuffix;
    }
    IsoTextSplit(y, m, dd, h, mi, sec);
  }

  /** The text is the date, a "T" and the time. */
  lemma IsoTextSplit(y: string, m: string, d: string, h: string, mi: string, sec: string)
    ensures IsoText(y, m, d, h, mi, sec) == (y + "-" + m + "-" + d) + "T" + (h + ":" + mi + ":" + sec)
  {
  }

  /** Removing the suffix from a well-formed text followed by it leaves a
      text that parses to its hour. */
  lemma SuffixRemovedHour(y: string, m: string, d: string, h: string, mi: string, sec: string,
                          year: nat, month: nat, day: nat, hour: nat, minute: nat, second: nat)
    requires |y| == 4 && Text.IsDigits(y) && DigitsValue(y) == year
    requires TwoDigits(m, month) && TwoDigits(d, day) && TwoDigits(h, hour)
    requires TwoDigits(mi, minute) && TwoDigits(sec, second)
    requires 1 <= year && 1 <= month <= 12 && 1 <= day <= DaysInMonth(year, month)
    requires hour < 24 && minute < 60 && second < 60
    ensures IsoHour(RemoveAll(IsoText(y, m, d, h, mi, sec) + ED.SeoulSuffix, ED.SeoulSuffix)) == Some(hour)
  {
    var x := IsoText(y, m, d, h, mi, sec);
    IsoTextSlices(y, m, d, h, mi, sec);
    IsoTextNoPlus(y, m, d, h, mi, sec);
    RemoveAllPrefix(x, ED.SeoulSuffix, ED.SeoulSuffix);
    assert RemoveAll(ED.SeoulSuffix, ED.SeoulSuffix) == [];
    assert x + [] == x;
    IsoHourOfText(y, m, d, h, mi, sec, year, month, day, hour, minute, second);
  }

  /** The time the event record writes for a real calendar date parses
      back, after the "+09:00" is removed, to the hour it was written
      with. */
  lemma OccurredAtHourRoundTrip(d: ED.DateTime)
    requires ED.ValidDateTime(d) && d.day <= DaysInMonth(d.year, d.month)
    ensures IsoHour(RemoveAll(ED.FormatOccurredAt(d), ED.SeoulSuffix)) == Some(d.hour)
  {
    var y := Text.NatToString(d.year);
    var m, dd, h, mi, sec := Text.Pad2(d.month), Text.Pad2(d.day), Text.Pad2(d.hour), Text.Pad2(d.minute), Text.Pad2(d.second);
    assert ED.FormatOccurredAt(d) == IsoText(y, m, dd, h, mi, sec) + ED.SeoulSuffix by {
      OccurredAtText(d);
    }
    assert |y| == 4 && Text.IsDigits(y) && DigitsValue(y) == d.year by {
      Text.NatToStringWidth(d.year);
      NatToStringValue(d.year);
    }
    assert TwoDigits(m, d.month) by {
      Pad2Value(d.month);
      Text.Pad2Digits(d.month);
    }
    assert TwoDigits(dd, d.day) by {
      Pad2Value(d.day);
      Text.Pad2Digits(d.day);
    }
    assert TwoDigits(h, d.hour) by {
      Pad2Value(d.hour);
      Text.Pad2Digits(d.hour);
    }
    assert TwoDigits(mi, d.minute) by {
      Pad2Value(d.minute);
      Text.Pad2Digits(d.minute);
    }
    assert TwoDigits(sec, d.second) by {
      Pad2Value(d.second);
      Text.Pad2Digits(d.second);
    }
    SuffixRemovedHour(y, m, dd, h, mi, sec, d.year, d.month, d.day, d.hour, d.minute, d.second);
  }
}
