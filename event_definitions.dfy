// The scout bot's event vocabulary: the six event types, each serialised as
// its own name, and the event record with its JSON form, whose timestamp is
// always written with a fixed Seoul offset.
module EventDefinitions {
  import opened Wrappers
  import Text

  datatype EventType = VolumeSpike | TurnoverThreshold | DayHighBreak | DayLowBreak | PriceJump | PriceDrop

  /** The enum value, which is the member's name. */
  function Value(t: EventType): string
  {
    match t
    case VolumeSpike => "VOLUME_SPIKE"
    case TurnoverThreshold => "TURNOVER_THRESHOLD"
    case DayHighBreak => "DAY_HIGH_BREAK"
    case DayLowBreak => "DAY_LOW_BREAK"
    case PriceJump => "PRICE_JUMP"
    case PriceDrop => "PRICE_DROP"
  }

  const AllEventTypes: seq<EventType> :=
    [VolumeSpike, TurnoverThreshold, DayHighBreak, DayLowBreak, PriceJump, PriceDrop]

  /** There are exactly six types, and distinct types serialise to distinct
      values. */
  lemma EventTypesDistinct()
    ensures |AllEventTypes| == 6 && Text.NoDups(AllEventTypes)
    ensures forall t :: t in AllEventTypes
    ensures forall a, b :: Value(a) == Value(b) ==> a == b
  {
    forall t ensures t in AllEventTypes {
      match t
      case VolumeSpike => assert AllEventTypes[0] == t;
      case TurnoverThreshold => assert AllEventTypes[1] == t;
      case DayHighBreak => assert AllEventTypes[2] == t;
      case DayLowBreak => assert AllEventTypes[3] == t;
      case PriceJump => assert AllEventTypes[4] == t;
      case PriceDrop => assert AllEventTypes[5] == t;
    }
  }

  /** A local date and time; `utcOffset` is the zone, when the value has
      one, in minutes. */
  datatype DateTime = DateTime(year: nat, month: nat, day: nat, hour: nat, minute: nat, second: nat,
                               utcOffset: Option<int>)

  predicate ValidDateTime(d: DateTime)
  {
    1000 <= d.year < 10000 && 1 <= d.month <= 12 && 1 <= d.day <= 31
    && d.hour < 24 && d.minute < 60 && d.second < 60
  }

  const SeoulSuffix: string := "+09:00"

  /** Pieces of fixed widths joined by a separator put it at fixed places. */
  lemma SeparatedShape(a: string, b: string, c: string, sep: char)
    ensures var r := a + [sep] + b + [sep] + c;
      |r| == |a| + |b| + |c| + 2 && r[|a|] == sep && r[|a| + 1 + |b|] == sep && r[..|a|] == a
  {
    var r := a + [sep] + b + [sep] + c;
    assert r[..|a|] == a;
  }

  /** `%Y-%m-%d`. */
  function DatePart(d: DateTime): (r: string)
    ensures ValidDateTime(d) ==> |r| == 10 && r[4] == '-' && r[7] == '-'
  {
    var y := Text.ZFill(Text.NatToString(d.year), 4);
    var m := Text.Pad2(d.month);
    var dd := Text.Pad2(d.day);
    SeparatedShape(y, m, dd, '-');
    assert ValidDateTime(d) ==> |y| == 4 && |m| == 2 && |dd| == 2 by {
      if ValidDateTime(d) {
        Text.NatToStringWidth(d.year);
        Text.Pad2Width(d.month);
        Text.Pad2Width(d.day);
      }
    }
    y + "-" + m + "-" + dd
  }

  /** `%H:%M:%S`. */
  function TimePart(d: DateTime): (r: string)
    ensures ValidDateTime(d) ==> |r| == 8 && r[2] == ':' && r[5] == ':' && r[..2] == Text.Pad2(d.hour)
  {
    var h := Text.Pad2(d.hour);
    var m := Text.Pad2(d.minute);
    var sec := Text.Pad2(d.second);
    SeparatedShape(h, m, sec, ':');
    assert ValidDateTime(d) ==> |h| == 2 && |m| == 2 && |sec| == 2 by {
      if ValidDateTime(d) {
        Text.Pad2Width(d.hour);
        Text.Pad2Width(d.minute);
        Text.Pad2Width(d.second);
      }
    }
    h + ":" + m + ":" + sec
  }

  /** Joining a ten-character date, "T", an eight-character time and the
      suffix puts the separators at fixed places. */
  lemma JoinedShape(date: string, time: string)
    requires |date| == 10 && date[4] == '-' && date[7] == '-'
    requires |time| == 8 && time[2] == ':' && time[5] == ':'
    ensures var r := date + "T" + time + SeoulSuffix;
      |r| == 25 && r[4] == '-' && r[7] == '-' && r[10] == 'T' && r[13] == ':' && r[16] == ':'
      && r[11..13] == time[..2]
  {
    var r := date + "T" + time + SeoulSuffix;
    assert r[11..13] == [r[11], r[12]] == [time[0], time[1]] == time[..2];
  }

  /** Any text followed by the suffix ends with it. */
  lemma EndsWithSuffix(t: string)
    ensures var r := t + SeoulSuffix; |r| >= 6 && r[|r| - 6..] == SeoulSuffix
  {
    var r := t + SeoulSuffix;
    assert r[|t|..] == SeoulSuffix;
  }

  /** `strftime("%Y-%m-%dT%H:%M:%S+09:00")`: the suffix is a literal, so the
      value's own zone plays no part. */
  function FormatOccurredAt(d: DateTime): (r: string)
    ensures |r| >= 6 && r[|r| - 6..] == SeoulSuffix
    ensures ValidDateTime(d) ==> (|r| == 25 && r[4] == '-' && r[7] == '-' && r[10] == 'T'
      && r[13] == ':' && r[16] == ':')
    ensures ValidDateTime(d) ==> r[11..13] == Text.Pad2(d.hour)
  {
    var date := DatePart(d);
    var time := TimePart(d);
    EndsWithSuffix(date + "T" + time);
    assert date + "T" + time + SeoulSuffix == (date + "T" + time) + SeoulSuffix;
    if ValidDateTime(d) then
      JoinedShape(date, time);
      date + "T" + time + SeoulSuffix
    else
      date + "T" + time + SeoulSuffix
  }

  /** Two values that differ only in their zone are written identically. */
  lemma FormatIgnoresZone(d: DateTime, zone: Option<int>)
    ensures FormatOccurredAt(d.(utcOffset := zone)) == FormatOccurredAt(d)
  {
  }

  datatype Event = Event(symbol: string, eventType: EventType, occurredAt: DateTime, metrics: map<string, real>)

  /** A JSON value of the event dictionary. */
  datatype JsonVal = JStr(s: string) | JMetrics(m: map<string, real>)

  /** `Event.to_dict`: exactly the four keys, the type as its value and the
      time in the fixed-offset format. */
  function ToDict(e: Event): (d: map<string, JsonVal>)
    ensures d.Keys == {"symbol", "event_type", "occurred_at", "metrics"}
    ensures d["symbol"] == JStr(e.symbol) && d["metrics"] == JMetrics(e.metrics)
    ensures d["event_type"] == JStr(Value(e.eventType))
    ensures d["occurred_at"] == JStr(FormatOccurredAt(e.occurredAt))
  {
    map["symbol" := JStr(e.symbol),
        "event_type" := JStr(Value(e.eventType)),
        "occurred_at" := JStr(FormatOccurredAt(e.occurredAt)),
        "metrics" := JMetrics(e.metrics)]
  }
}
