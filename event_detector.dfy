// The event detector: from one snapshot it reports, in this order, a volume
// spike, a turnover threshold, a new day high, a new day low and a price jump
// or drop, each under its own enabled flag and threshold. The last reported
// high and low per symbol are remembered, so the same high or low is not
// reported twice.
module EventDetector {
  import opened Wrappers
  import Numeric
  import Text
  import ConfigLoaders
  import ED = EventDefinitions
  import EDC = EventDataCollector

  function SpikeConfig(t: map<string, ConfigLoaders.Conf>): map<string, ConfigLoaders.Conf>
  {
    ConfigLoaders.Section(ConfigLoaders.Section(t, "volume"), "spike")
  }

  function TurnoverConfig(t: map<string, ConfigLoaders.Conf>): map<string, ConfigLoaders.Conf>
  {
    ConfigLoaders.Section(ConfigLoaders.Section(t, "turnover"), "threshold")
  }

  function HighBreakConfig(t: map<string, ConfigLoaders.Conf>): map<string, ConfigLoaders.Conf>
  {
    ConfigLoaders.Section(ConfigLoaders.Section(t, "day_range"), "high_break")
  }

  function LowBreakConfig(t: map<string, ConfigLoaders.Conf>): map<string, ConfigLoaders.Conf>
  {
    ConfigLoaders.Section(ConfigLoaders.Section(t, "day_range"), "low_break")
  }

  function PriceConfig(t: map<string, ConfigLoaders.Conf>): map<string, ConfigLoaders.Conf>
  {
    ConfigLoaders.Section(ConfigLoaders.Section(t, "price"), "jump_drop")
  }

  function RatioMin(t: map<string, ConfigLoaders.Conf>): real
  {
    ConfigLoaders.RealOr(SpikeConfig(t), "ratio_min", 2.0)
  }

  function KrwMin(t: map<string, ConfigLoaders.Conf>): real
  {
    ConfigLoaders.RealOr(TurnoverConfig(t), "krw_min", 10000000000.0)
  }

  function PctMin(t: map<string, ConfigLoaders.Conf>): real
  {
    ConfigLoaders.RealOr(PriceConfig(t), "pct_min", 3.0)
  }

  function BaseKind(t: map<string, ConfigLoaders.Conf>): string
  {
    ConfigLoaders.StrOr(PriceConfig(t), "base_price", "prev_close")
  }

  /** The VOLUME_SPIKE check: the volume over the average volume, when both
      are present and the average is positive, against `ratio_min`. */
  function SpikeEvent(t: map<string, ConfigLoaders.Conf>, symbol: string, s: EDC.Snapshot): (r: Option<ED.Event>)
    ensures r.Some? ==> (r.value.eventType == ED.VolumeSpike && r.value.symbol == symbol
      && r.value.occurredAt == s.timestamp
      && r.value.metrics.Keys == {"volume_spike_ratio", "current_volume", "avg_volume_n"})
  {
    if ConfigLoaders.Enabled(SpikeConfig(t)) && s.volume.Some? && s.avgVolumeN.Some? && s.avgVolumeN.value > 0.0 then
      var ratio := s.volume.value / s.avgVolumeN.value;
      if ratio >= RatioMin(t) then
        Some(ED.Event(symbol, ED.VolumeSpike, s.timestamp,
                      map["volume_spike_ratio" := ratio, "current_volume" := s.volume.value,
                          "avg_volume_n" := s.avgVolumeN.value]))
      else None
    else None
  }

  /** VOLUME_SPIKE fires exactly when it is enabled, volume and average
      volume are both present, the average is positive and the volume is at
      least `ratio_min` times the average. */
  lemma SpikeRule(t: map<string, ConfigLoaders.Conf>, symbol: string, s: EDC.Snapshot)
    ensures SpikeEvent(t, symbol, s).Some? <==> (ConfigLoaders.Enabled(SpikeConfig(t)) && s.volume.Some?
      && s.avgVolumeN.Some? && s.avgVolumeN.value > 0.0 && s.volume.value >= RatioMin(t) * s.avgVolumeN.value)
  {
    if s.volume.Some? && s.avgVolumeN.Some? && s.avgVolumeN.value > 0.0 {
      Numeric.QuotientBelow(s.volume.value, s.avgVolumeN.value, RatioMin(t));
    }
  }

  /** The TURNOVER_THRESHOLD check. */
  function TurnoverEvent(t: map<string, ConfigLoaders.Conf>, symbol: string, s: EDC.Snapshot): (r: Option<ED.Event>)
    ensures r.Some? <==> (ConfigLoaders.Enabled(TurnoverConfig(t)) && s.turnoverKrw.Some?
      && s.turnoverKrw.value >= KrwMin(t))
    ensures r.Some? ==> (r.value.eventType == ED.TurnoverThreshold && r.value.symbol == symbol
      && r.value.occurredAt == s.timestamp && r.value.metrics == map["turnover_krw" := s.turnoverKrw.value])
  {
    if ConfigLoaders.Enabled(TurnoverConfig(t)) && s.turnoverKrw.Some? && s.turnoverKrw.value >= KrwMin(t) then
      Some(ED.Event(symbol, ED.TurnoverThreshold, s.timestamp, map["turnover_krw" := s.turnoverKrw.value]))
    else None
  }

  /** The DAY_HIGH_BREAK check: fires when enabled, the price is at or
      above the day high and strictly above the last high reported for the
      symbol. */
  function HighBreakEvent(t: map<string, ConfigLoaders.Conf>, lastHigh: map<string, real>, symbol: string,
                          s: EDC.Snapshot): (r: Option<ED.Event>)
    ensures r.Some? <==> (ConfigLoaders.Enabled(HighBreakConfig(t)) && s.price.Some? && s.dayHigh.Some?
      && s.price.value >= s.dayHigh.value && (symbol !in lastHigh || s.price.value > lastHigh[symbol]))
    ensures r.Some? ==> (r.value.eventType == ED.DayHighBreak && r.value.symbol == symbol
      && r.value.occurredAt == s.timestamp
      && r.value.metrics == map["current_price" := s.price.value, "day_high" := s.dayHigh.value])
  {
    if ConfigLoaders.Enabled(HighBreakConfig(t)) && s.price.Some? && s.dayHigh.Some?
       && s.price.value >= s.dayHigh.value && (symbol !in lastHigh || s.price.value > lastHigh[symbol])
    then
      Some(ED.Event(symbol, ED.DayHighBreak, s.timestamp,
                    map["current_price" := s.price.value, "day_high" := s.dayHigh.value]))
    else None
  }

  /** The DAY_LOW_BREAK check, the mirror image: at or below the day low
      and strictly below the last low reported. */
  function LowBreakEvent(t: map<string, ConfigLoaders.Conf>, lastLow: map<string, real>, symbol: string,
                         s: EDC.Snapshot): (r: Option<ED.Event>)
    ensures r.Some? <==> (ConfigLoaders.Enabled(LowBreakConfig(t)) && s.price.Some? && s.dayLow.Some?
      && s.price.value <= s.dayLow.value && (symbol !in lastLow || s.price.value < lastLow[symbol]))
    ensures r.Some? ==> (r.value.eventType == ED.DayLowBreak && r.value.symbol == symbol
      && r.value.occurredAt == s.timestamp
      && r.value.metrics == map["current_price" := s.price.value, "day_low" := s.dayLow.value])
  {
    if ConfigLoaders.Enabled(LowBreakConfig(t)) && s.price.Some? && s.dayLow.Some?
       && s.price.value <= s.dayLow.value && (symbol !in lastLow || s.price.value < lastLow[symbol])
    then
      Some(ED.Event(symbol, ED.DayLowBreak, s.timestamp,
                    map["current_price" := s.price.value, "day_low" := s.dayLow.value]))
    else None
  }

  /** The base price and its kind: the configured kind when that price is
      present, else the previous close, else the day open. */
  function BasePrice(kind: string, prevClose: Option<real>, dayOpen: Option<real>): (r: Option<(string, real)>)
    ensures r.None? <==> prevClose.None? && dayOpen.None?
    ensures kind == "day_open" && dayOpen.Some? ==> r == Some(("day_open", dayOpen.value))
    ensures !(kind == "day_open" && dayOpen.Some?) && prevClose.Some? ==> r == Some(("prev_close", prevClose.value))
    ensures prevClose.None? && dayOpen.Some? ==> r == Some(("day_open", dayOpen.value))
  {
    if kind == "prev_close" && prevClose.Some? then Some(("prev_close", prevClose.value))
    else if kind == "day_open" && dayOpen.Some? then Some(("day_open", dayOpen.value))
    else if prevClose.Some? then Some(("prev_close", prevClose.value))
    else if dayOpen.Some? then Some(("day_open", dayOpen.value))
    else None
  }

  /** The percentage change from the base. */
  function ChangePct(price: real, base: real): real
    requires base > 0.0
  {
    ((price - base) / base) * 100.0
  }

  /** In product form, a change of at least `pct` is a price of at least
      `base * (1 + pct / 100)`, and a change of at most `-pct` a price of at
      most `base * (1 - pct / 100)`. */
  lemma ChangePctProductForm(price: real, base: real, pct: real)
    requires base > 0.0
    ensures ChangePct(price, base) >= pct <==> price >= base * (1.0 + pct / 100.0)
    ensures ChangePct(price, base) <= -pct <==> price <= base * (1.0 - pct / 100.0)
  {
    var q := (price - base) / base;
    Numeric.QuotientBelow(price - base, base, pct / 100.0);
    Numeric.QuotientBelow(price - base, base, -pct / 100.0);
    assert ChangePct(price, base) >= pct <==> q >= pct / 100.0;
    assert ChangePct(price, base) <= -pct <==> q <= -pct / 100.0;
    assert base * (1.0 + pct / 100.0) == base + pct / 100.0 * base;
    assert base * (1.0 - pct / 100.0) == base + -pct / 100.0 * base;
  }

  /** The move a change reports: a jump from `pct` up, else a drop from
      `-pct` down, else nothing. */
  function MoveKind(change: real, pct: real): (k: Option<ED.EventType>)
    ensures k == Some(ED.PriceJump) <==> change >= pct
    ensures k == Some(ED.PriceDrop) <==> change < pct && change <= -pct
    ensures k.Some? ==> k.value == ED.PriceJump || k.value == ED.PriceDrop
  {
    if change >= pct then Some(ED.PriceJump)
    else if change <= -pct then Some(ED.PriceDrop)
    else None
  }

  /** The PRICE_JUMP / PRICE_DROP check, measured from the base price. */
  function PriceMoveEvent(t: map<string, ConfigLoaders.Conf>, symbol: string, s: EDC.Snapshot): (r: Option<ED.Event>)
    ensures r.Some? ==> (r.value.symbol == symbol && r.value.occurredAt == s.timestamp
      && (r.value.eventType == ED.PriceJump || r.value.eventType == ED.PriceDrop))
  {
    if !ConfigLoaders.Enabled(PriceConfig(t)) || s.price.None? then None
    else
      var b := BasePrice(BaseKind(t), s.prevClose, s.dayOpen);
      if b.None? || b.value.1 <= 0.0 then None
      else
        var change := ChangePct(s.price.value, b.value.1);
        var kind := MoveKind(change, PctMin(t));
        if kind.None? then None
        else Some(ED.Event(symbol, kind.value, s.timestamp,
                           map["current_price" := s.price.value, b.value.0 := b.value.1, "change_pct" := change]))
  }

  /** A price move is reported exactly when the check is enabled and the
      base price is present and positive and the change reaches `pct_min`
      either way; its kind is the one the change calls for, and its metrics
      name the base kind. */
  lemma PriceMoveRule(t: map<string, ConfigLoaders.Conf>, symbol: string, s: EDC.Snapshot)
    ensures PriceMoveEvent(t, symbol, s).Some? <==> (ConfigLoaders.Enabled(PriceConfig(t)) && s.price.Some?
      && var b := BasePrice(BaseKind(t), s.prevClose, s.dayOpen);
      b.Some? && b.value.1 > 0.0 && MoveKind(ChangePct(s.price.value, b.value.1), PctMin(t)).Some?)
    ensures var r := PriceMoveEvent(t, symbol, s);
      r.Some? ==> (var b := BasePrice(BaseKind(t), s.prevClose, s.dayOpen);
        Some(r.value.eventType) == MoveKind(ChangePct(s.price.value, b.value.1), PctMin(t))
        && r.value.metrics.Keys == {"current_price", b.value.0, "change_pct"})
  {
  }

  /** A jump and a drop exclude each other; with a non-negative threshold a
      jump is a rise and a drop a fall, each by at least the threshold. */
  lemma JumpDropExclusive(price: real, base: real, pct: real)
    requires base > 0.0
    ensures !(MoveKind(ChangePct(price, base), pct) == Some(ED.PriceJump)
              && MoveKind(ChangePct(price, base), pct) == Some(ED.PriceDrop))
    ensures pct >= 0.0 && MoveKind(ChangePct(price, base), pct) == Some(ED.PriceJump) ==>
      price >= base * (1.0 + pct / 100.0) && price >= base
    ensures pct >= 0.0 && MoveKind(ChangePct(price, base), pct) == Some(ED.PriceDrop) ==>
      price <= base * (1.0 - pct / 100.0) && price <= base
  {
    ChangePctProductForm(price, base, pct);
    assert base * (1.0 + pct / 100.0) == base + base * pct / 100.0;
    assert base * (1.0 - pct / 100.0) == base - base * pct / 100.0;
    assert pct >= 0.0 ==> base * pct / 100.0 >= 0.0;
  }

  /** A check whose `enabled` flag is false reports nothing. */
  lemma DisabledNeverFires(t: map<string, ConfigLoaders.Conf>, lastHigh: map<string, real>, lastLow: map<string, real>,
                           symbol: string, s: EDC.Snapshot)
    ensures !ConfigLoaders.Enabled(SpikeConfig(t)) ==> SpikeEvent(t, symbol, s).None?
    ensures !ConfigLoaders.Enabled(TurnoverConfig(t)) ==> TurnoverEvent(t, symbol, s).None?
    ensures !ConfigLoaders.Enabled(HighBreakConfig(t)) ==> HighBreakEvent(t, lastHigh, symbol, s).None?
    ensures !ConfigLoaders.Enabled(LowBreakConfig(t)) ==> LowBreakEvent(t, lastLow, symbol, s).None?
    ensures !ConfigLoaders.Enabled(PriceConfig(t)) ==> PriceMoveEvent(t, symbol, s).None?
  {
  }

  function AsSeq(e: Option<ED.Event>): seq<ED.Event>
  {
    if e.Some? then [e.value] else []
  }

  /** The events `detect_events` reports for a snapshot: nothing without a
      price, otherwise each kind that fires, in the source's order. */
  function Detected(t: map<string, ConfigLoaders.Conf>, lastHigh: map<string, real>, lastLow: map<string, real>,
                    symbol: string, s: EDC.Snapshot): seq<ED.Event>
  {
    if s.price.None? then []
    else AsSeq(SpikeEvent(t, symbol, s)) + AsSeq(TurnoverEvent(t, symbol, s))
         + AsSeq(HighBreakEvent(t, lastHigh, symbol, s)) + AsSeq(LowBreakEvent(t, lastLow, symbol, s))
         + AsSeq(PriceMoveEvent(t, symbol, s))
  }

  /** The remembered highs after a snapshot: the price, when a high break
      was reported. */
  function NewLastHigh(t: map<string, ConfigLoaders.Conf>, lastHigh: map<string, real>, symbol: string,
                       s: EDC.Snapshot): map<string, real>
  {
    if HighBreakEvent(t, lastHigh, symbol, s).Some? then lastHigh[symbol := s.price.value] else lastHigh
  }

  function NewLastLow(t: map<string, ConfigLoaders.Conf>, lastLow: map<string, real>, symbol: string,
                      s: EDC.Snapshot): map<string, real>
  {
    if LowBreakEvent(t, lastLow, symbol, s).Some? then lastLow[symbol := s.price.value] else lastLow
  }

  /** How many of the events are of kind `k`. */
  function CountKind(d: seq<ED.Event>, k: ED.EventType): nat
  {
    if d == [] then 0 else CountKind(d[..|d| - 1], k) + (if d[|d| - 1].eventType == k then 1 else 0)
  }

  lemma {:induction false} CountKindConcat(a: seq<ED.Event>, b: seq<ED.Event>, k: ED.EventType)
    ensures CountKind(a + b, k) == CountKind(a, k) + CountKind(b, k)
  {
    if b != [] {
      var n := |b| - 1;
      assert (a + b)[..|a + b| - 1] == a + b[..n];
      CountKindConcat(a, b[..n], k);
    } else {
      assert a + b == a;
    }
  }

  /** What one check contributes to the count of kind `k`. */
  lemma CountKindOne(o: Option<ED.Event>, k: ED.EventType)
    ensures CountKind(AsSeq(o), k) == if o.Some? && o.value.eventType == k then 1 else 0
  {
    if o.Some? {
      assert AsSeq(o)[..0] == [];
    }
  }

  /** The count of a kind over the five checks' events is the number of
      checks that reported that kind. */
  lemma CountFive(o1: Option<ED.Event>, o2: Option<ED.Event>, o3: Option<ED.Event>, o4: Option<ED.Event>,
                  o5: Option<ED.Event>, k: ED.EventType)
    ensures CountKind(AsSeq(o1) + AsSeq(o2) + AsSeq(o3) + AsSeq(o4) + AsSeq(o5), k)
      == (if o1.Some? && o1.value.eventType == k then 1 else 0) + (if o2.Some? && o2.value.eventType == k then 1 else 0)
         + (if o3.Some? && o3.value.eventType == k then 1 else 0) + (if o4.Some? && o4.value.eventType == k then 1 else 0)
         + (if o5.Some? && o5.value.eventType == k then 1 else 0)
  {
    var a, b, c, e, f := AsSeq(o1), AsSeq(o2), AsSeq(o3), AsSeq(o4), AsSeq(o5);
    CountKindConcat(a, b, k);
    CountKindConcat(a + b, c, k);
    CountKindConcat(a + b + c, e, k);
    CountKindConcat(a + b + c + e, f, k);
    CountKindOne(o1, k);
    CountKindOne(o2, k);
    CountKindOne(o3, k);
    CountKindOne(o4, k);
    CountKindOne(o5, k);
  }

  /** The five checks' events in order: each kind reported once exactly
      when its check reported it and otherwise not at all, and never both a
      jump and a drop. */
  lemma FiveEvents(o1: Option<ED.Event>, o2: Option<ED.Event>, o3: Option<ED.Event>, o4: Option<ED.Event>,
                   o5: Option<ED.Event>)
    requires o1.Some? ==> o1.value.eventType == ED.VolumeSpike
    requires o2.Some? ==> o2.value.eventType == ED.TurnoverThreshold
    requires o3.Some? ==> o3.value.eventType == ED.DayHighBreak
    requires o4.Some? ==> o4.value.eventType == ED.DayLowBreak
    requires o5.Some? ==> o5.value.eventType == ED.PriceJump || o5.value.eventType == ED.PriceDrop
    ensures var d := AsSeq(o1) + AsSeq(o2) + AsSeq(o3) + AsSeq(o4) + AsSeq(o5);
      (CountKind(d, ED.VolumeSpike) == if o1.Some? then 1 else 0)
      && (CountKind(d, ED.TurnoverThreshold) == if o2.Some? then 1 else 0)
      && (CountKind(d, ED.DayHighBreak) == if o3.Some? then 1 else 0)
      && (CountKind(d, ED.DayLowBreak) == if o4.Some? then 1 else 0)
      && (CountKind(d, ED.PriceJump) + CountKind(d, ED.PriceDrop) == if o5.Some? then 1 else 0)
  {
    CountFive(o1, o2, o3, o4, o5, ED.VolumeSpike);
    CountFive(o1, o2, o3, o4, o5, ED.TurnoverThreshold);
    CountFive(o1, o2, o3, o4, o5, ED.DayHighBreak);
    CountFive(o1, o2, o3, o4, o5, ED.DayLowBreak);
    CountFive(o1, o2, o3, o4, o5, ED.PriceJump);
    CountFive(o1, o2, o3, o4, o5, ED.PriceDrop);
  }

  /** The five checks' events are all about `symbol` at `at`. */
  lemma FiveEventsAbout(o1: Option<ED.Event>, o2: Option<ED.Event>, o3: Option<ED.Event>, o4: Option<ED.Event>,
                        o5: Option<ED.Event>, symbol: string, at: ED.DateTime)
    requires o1.Some? ==> o1.value.symbol == symbol && o1.value.occurredAt == at
    requires o2.Some? ==> o2.value.symbol == symbol && o2.value.occurredAt == at
    requires o3.Some? ==> o3.value.symbol == symbol && o3.value.occurredAt == at
    requires o4.Some? ==> o4.value.symbol == symbol && o4.value.occurredAt == at
    requires o5.Some? ==> o5.value.symbol == symbol && o5.value.occurredAt == at
    ensures var d := AsSeq(o1) + AsSeq(o2) + AsSeq(o3) + AsSeq(o4) + AsSeq(o5);
      |d| <= 5 && forall e :: e in d ==> e.symbol == symbol && e.occurredAt == at
  {
  }

  /** Nothing is reported without a price; at most one event per check is
      reported, each about the symbol at the snapshot's time. */
  lemma DetectedAbout(t: map<string, ConfigLoaders.Conf>, lastHigh: map<string, real>, lastLow: map<string, real>,
                      symbol: string, s: EDC.Snapshot)
    ensures var d := Detected(t, lastHigh, lastLow, symbol, s);
      (s.price.None? ==> d == [])
      && |d| <= 5
      && forall e :: e in d ==> e.symbol == symbol && e.occurredAt == s.timestamp
  {
    if s.price.Some? {
      FiveEventsAbout(SpikeEvent(t, symbol, s), TurnoverEvent(t, symbol, s), HighBreakEvent(t, lastHigh, symbol, s),
                      LowBreakEvent(t, lastLow, symbol, s), PriceMoveEvent(t, symbol, s), symbol, s.timestamp);
    }
  }

  /** Each kind is reported once when its check fires and not at all
      otherwise, so no kind is reported twice and a jump and a drop never
      together. */
  lemma DetectedKinds(t: map<string, ConfigLoaders.Conf>, lastHigh: map<string, real>, lastLow: map<string, real>,
                      symbol: string, s: EDC.Snapshot)
    ensures var d := Detected(t, lastHigh, lastLow, symbol, s);
      (CountKind(d, ED.VolumeSpike) == if s.price.Some? && SpikeEvent(t, symbol, s).Some? then 1 else 0)
      && (CountKind(d, ED.TurnoverThreshold) == if s.price.Some? && TurnoverEvent(t, symbol, s).Some? then 1 else 0)
      && (CountKind(d, ED.DayHighBreak) == if HighBreakEvent(t, lastHigh, symbol, s).Some? then 1 else 0)
      && (CountKind(d, ED.DayLowBreak) == if LowBreakEvent(t, lastLow, symbol, s).Some? then 1 else 0)
      && (CountKind(d, ED.PriceJump) + CountKind(d, ED.PriceDrop)
          == if s.price.Some? && PriceMoveEvent(t, symbol, s).Some? then 1 else 0)
  {
    if s.price.Some? {
      FiveEvents(SpikeEvent(t, symbol, s), TurnoverEvent(t, symbol, s), HighBreakEvent(t, lastHigh, symbol, s),
                 LowBreakEvent(t, lastLow, symbol, s), PriceMoveEvent(t, symbol, s));
    }
  }

  /** A reported high is remembered and strictly above the one before it;
      no other symbol's entry changes, and the same snapshot does not report
      the high again. */
  lemma HighBreakRecorded(t: map<string, ConfigLoaders.Conf>, lastHigh: map<string, real>, symbol: string,
                          s: EDC.Snapshot)
    ensures var nh := NewLastHigh(t, lastHigh, symbol, s);
      (forall k :: k != symbol ==> (k in nh <==> k in lastHigh) && (k in nh ==> nh[k] == lastHigh[k]))
      && (symbol in lastHigh ==> symbol in nh && nh[symbol] >= lastHigh[symbol])
      && (HighBreakEvent(t, lastHigh, symbol, s).Some? ==>
            (symbol in nh && nh[symbol] == s.price.value && (symbol in lastHigh ==> nh[symbol] > lastHigh[symbol])))
      && HighBreakEvent(t, nh, symbol, s).None?
  {
  }

  /** The same for lows, which only go down. */
  lemma LowBreakRecorded(t: map<string, ConfigLoaders.Conf>, lastLow: map<string, real>, symbol: string,
                         s: EDC.Snapshot)
    ensures var nl := NewLastLow(t, lastLow, symbol, s);
      (forall k :: k != symbol ==> (k in nl <==> k in lastLow) && (k in nl ==> nl[k] == lastLow[k]))
      && (symbol in lastLow ==> symbol in nl && nl[symbol] <= lastLow[symbol])
      && (LowBreakEvent(t, lastLow, symbol, s).Some? ==>
            (symbol in nl && nl[symbol] == s.price.value && (symbol in lastLow ==> nl[symbol] < lastLow[symbol])))
      && LowBreakEvent(t, nl, symbol, s).None?
  {
  }

  /** With the collector's snapshots, which never carry a volume or a
      previous close, no volume spike is ever reported, the price move is
      measured from the day's first price, and a high (low) break needs the
      price to be the day's high (low). */
  lemma CollectorSnapshots(t: map<string, ConfigLoaders.Conf>, ct: map<string, ConfigLoaders.Conf>,
                           ranges: map<string, EDC.DayRange>, vh: map<string, seq<real>>,
                           th: map<string, seq<real>>, lastHigh: map<string, real>, symbol: string,
                           price: Option<real>, now: ED.DateTime)
    ensures var s := EDC.TakeSnapshot(ct, ranges, vh, th, symbol, price, now);
      SpikeEvent(t, symbol, s).None?
      && BasePrice(BaseKind(t), s.prevClose, s.dayOpen) == (if s.dayOpen.Some? then Some(("day_open", s.dayOpen.value)) else None)
      && (HighBreakEvent(t, lastHigh, symbol, s).Some? ==> s.price.value == s.dayHigh.value)
  {
  }

  /** `EventDetector`: thresholds from the argument or the configuration
      file, and the remembered highs and lows. */
  class Detector {
    const collector: EDC.Collector
    const thresholds: map<string, ConfigLoaders.Conf>
    var lastHigh: map<string, real>
    var lastLow: map<string, real>

    constructor(collector: EDC.Collector, thresholds: Option<map<string, ConfigLoaders.Conf>>,
                file: ConfigLoaders.YamlFile)
      ensures this.collector == collector
      ensures this.thresholds == if thresholds.Some? then thresholds.value else ConfigLoaders.LoadEventThresholds(file)
      ensures lastHigh == map[] && lastLow == map[]
    {
      this.collector := collector;
      this.thresholds := if thresholds.Some? then thresholds.value else ConfigLoaders.LoadEventThresholds(file);
      lastHigh := map[];
      lastLow := map[];
    }

    /** `detect_events`: takes a snapshot, then checks each kind in turn,
        appending what fires and remembering a reported high or low. */
    method DetectEvents(symbol: string, price: Option<real>, now: ED.DateTime) returns (events: seq<ED.Event>)
      modifies this, collector
      ensures var s := EDC.TakeSnapshot(collector.thresholds, old(collector.dayHighLow), old(collector.volumeHistory),
                                        old(collector.turnoverHistory), symbol, price, now);
        events == Detected(thresholds, old(lastHigh), old(lastLow), symbol, s)
        && lastHigh == NewLastHigh(thresholds, old(lastHigh), symbol, s)
        && lastLow == NewLastLow(thresholds, old(lastLow), symbol, s)
      ensures collector.dayHighLow == if price.None? || price.value <= 0.0 then old(collector.dayHighLow)
        else old(collector.dayHighLow)[symbol := EDC.Tracked(old(collector.dayHighLow), symbol, price.value)]
      ensures collector.volumeHistory == old(collector.volumeHistory)
      ensures collector.turnoverHistory == old(collector.turnoverHistory)
    {
      events := [];
      var snap := collector.CollectSnapshot(symbol, price, now);
      if snap.price.None? {
        return;
      }
      var found := CheckVolumeSpike(symbol, snap);
      events := events + found;
      found := CheckTurnover(symbol, snap);
      events := events + found;
      found := CheckHighBreak(symbol, snap);
      events := events + found;
      found := CheckLowBreak(symbol, snap);
      events := events + found;
      found := CheckPriceMove(symbol, snap);
      events := events + found;
    }

    /** The VOLUME_SPIKE block. */
    method CheckVolumeSpike(symbol: string, snap: EDC.Snapshot) returns (found: seq<ED.Event>)
      ensures found == AsSeq(SpikeEvent(thresholds, symbol, snap))
    {
      found := [];
      var volumeConfig := SpikeConfig(thresholds);
      if ConfigLoaders.Enabled(volumeConfig) {
        if snap.volume.Some? && snap.avgVolumeN.Some? {
          if snap.avgVolumeN.value > 0.0 {
            var ratio := snap.volume.value / snap.avgVolumeN.value;
            if ratio >= ConfigLoaders.RealOr(volumeConfig, "ratio_min", 2.0) {
              found := [ED.Event(symbol, ED.VolumeSpike, snap.timestamp,
                map["volume_spike_ratio" := ratio, "current_volume" := snap.volume.value,
                    "avg_volume_n" := snap.avgVolumeN.value])];
            }
          }
        }
      }
    }

    /** The TURNOVER_THRESHOLD block. */
    method CheckTurnover(symbol: string, snap: EDC.Snapshot) returns (found: seq<ED.Event>)
      ensures found == AsSeq(TurnoverEvent(thresholds, symbol, snap))
    {
      found := [];
      var turnoverConfig := TurnoverConfig(thresholds);
      if ConfigLoaders.Enabled(turnoverConfig) {
        if snap.turnoverKrw.Some? {
          if snap.turnoverKrw.value >= ConfigLoaders.RealOr(turnoverConfig, "krw_min", 10000000000.0) {
            found := [ED.Event(symbol, ED.TurnoverThreshold, snap.timestamp,
              map["turnover_krw" := snap.turnoverKrw.value])];
          }
        }
      }
    }

    /** The DAY_HIGH_BREAK block, which remembers a reported high. */
    method CheckHighBreak(symbol: string, snap: EDC.Snapshot) returns (found: seq<ED.Event>)
      requires snap.price.Some?
      modifies this
      ensures found == AsSeq(HighBreakEvent(thresholds, old(lastHigh), symbol, snap))
      ensures lastHigh == NewLastHigh(thresholds, old(lastHigh), symbol, snap) && lastLow == old(lastLow)
    {
      found := [];
      var p := snap.price.value;
      var highBreakConfig := HighBreakConfig(thresholds);
      if ConfigLoaders.Enabled(highBreakConfig) {
        if snap.dayHigh.Some? {
          if p >= snap.dayHigh.value {
            if symbol !in lastHigh || p > lastHigh[symbol] {
              found := [ED.Event(symbol, ED.DayHighBreak, snap.timestamp,
                map["current_price" := p, "day_high" := snap.dayHigh.value])];
              lastHigh := lastHigh[symbol := p];
            }
          }
        }
      }
    }

    /** The DAY_LOW_BREAK block, which remembers a reported low. */
    method CheckLowBreak(symbol: string, snap: EDC.Snapshot) returns (found: seq<ED.Event>)
      requires snap.price.Some?
      modifies this
      ensures found == AsSeq(LowBreakEvent(thresholds, old(lastLow), symbol, snap))
      ensures lastLow == NewLastLow(thresholds, old(lastLow), symbol, snap) && lastHigh == old(lastHigh)
    {
      found := [];
      var p := snap.price.value;
      var lowBreakConfig := LowBreakConfig(thresholds);
      if ConfigLoaders.Enabled(lowBreakConfig) {
        if snap.dayLow.Some? {
          if p <= snap.dayLow.value {
            if symbol !in lastLow || p < lastLow[symbol] {
              found := [ED.Event(symbol, ED.DayLowBreak, snap.timestamp,
                map["current_price" := p, "day_low" := snap.dayLow.value])];
              lastLow := lastLow[symbol := p];
            }
          }
        }
      }
    }

    /** The PRICE_JUMP / PRICE_DROP block. */
    method CheckPriceMove(symbol: string, snap: EDC.Snapshot) returns (found: seq<ED.Event>)
      requires snap.price.Some?
      ensures found == AsSeq(PriceMoveEvent(thresholds, symbol, snap))
    {
      found := [];
      var p := snap.price.value;
      var priceConfig := PriceConfig(thresholds);
      if ConfigLoaders.Enabled(priceConfig) {
        var base := BasePrice(ConfigLoaders.StrOr(priceConfig, "base_price", "prev_close"), snap.prevClose, snap.dayOpen);
        if base.Some? && base.value.1 > 0.0 {
          var basePrice := base.value.1;
          var changePct := ((p - basePrice) / basePrice) * 100.0;
          var pctMin := ConfigLoaders.RealOr(priceConfig, "pct_min", 3.0);
          var metrics := map["current_price" := p, base.value.0 := basePrice, "change_pct" := changePct];
          if changePct >= pctMin {
            found := [ED.Event(symbol, ED.PriceJump, snap.timestamp, metrics)];
          } else if changePct <= -pctMin {
            found := [ED.Event(symbol, ED.PriceDrop, snap.timestamp, metrics)];
          }
        }
      }
    }
  }
}
