// The enhanced cycle analysis of the post-market report: for every observed
// cycle, a data-quality verdict, the price movement inside the cycle, the
// number of observer state changes, a timeout subtype and an information
// score; FAIL cycles may be set aside; and a one-line market memo over the
// kept cycles.
module CycleAnalyzer {
  import opened Wrappers
  import Numeric

  /** A timeout whose best return reached this many percent is "near target". */
  const NearTargetThreshold: real := 0.7
  const EventWeight: real := 0.3
  const AmplitudeWeight: real := 0.3
  const MaxReturnWeight: real := 0.4

  /** One observer record, reduced to the fields the analysis reads. */
  datatype Rec = Rec(
    currentPrice: Option<real>,  // snapshot.current_price
    volume: Option<real>,        // snapshot.volume
    turnover: Option<real>,      // snapshot.turnover_krw
    triggered: Option<bool>,     // observer.triggered, when present
    observerOther: bool,         // the observer section holds other keys
    boxFormed: bool,             // box.formed, false when absent
    baseExists: bool)            // base_candle.exists, false when absent

  /** How many elements satisfy `p`. */
  function CountIf<T>(xs: seq<T>, p: T -> bool): (n: nat)
    ensures n <= |xs|
  {
    if xs == [] then 0 else CountIf(xs[..|xs| - 1], p) + (if p(xs[|xs| - 1]) then 1 else 0)
  }

  /** No element is counted exactly when no element satisfies `p`. */
  lemma {:induction false} CountIfZero<T>(xs: seq<T>, p: T -> bool)
    ensures CountIf(xs, p) == 0 <==> forall i :: 0 <= i < |xs| ==> !p(xs[i])
  {
    if xs != [] {
      var init := xs[..|xs| - 1];
      CountIfZero(init, p);
      assert forall i :: 0 <= i < |init| ==> init[i] == xs[i];
    }
  }

  // ---------------------------------------------------------------------
  // Data quality
  // ---------------------------------------------------------------------

  datatype Status = Pass | Warn | Fail {
    function Name(): string
    {
      match this
      case Pass => "PASS"
      case Warn => "WARN"
      case Fail => "FAIL"
    }

    /** The score multiplier for the status. */
    function Multiplier(): real
    {
      match this
      case Pass => 1.0
      case Warn => 0.7
      case Fail => 0.0
    }
  }

  /** Why a cycle is FAIL (a kind of data missing altogether) or WARN (too
      small a share of records carries it; the share is kept). */
  datatype Reason =
    | NoPrice | NoVolume | NoTurnover | NoObserver
    | LowPrice(ratio: real) | LowVolume(ratio: real) | LowTurnover(ratio: real)
  {
    predicate Missing() { NoPrice? || NoVolume? || NoTurnover? || NoObserver? }
  }

  datatype Quality = Quality(status: Status, reasons: seq<Reason>)

  predicate HasPrice(r: Rec) { r.currentPrice.Some? }
  predicate HasVolume(r: Rec) { r.volume.Some? && r.volume.value > 0.0 }
  predicate HasTurnover(r: Rec) { r.turnover.Some? && r.turnover.value > 0.0 }
  predicate HasObserver(r: Rec) { r.triggered.Some? || r.observerOther }

  /** The four per-kind record counts. */
  datatype Tallies = Tallies(price: nat, volume: nat, turnover: nat, observer: nat)

  function TalliesOf(rs: seq<Rec>): Tallies
  {
    Tallies(CountIf(rs, HasPrice), CountIf(rs, HasVolume), CountIf(rs, HasTurnover), CountIf(rs, HasObserver))
  }

  /** One reason per kind no record carries, in the order price, volume,
      turnover, observer. */
  function FailReasons(t: Tallies): seq<Reason>
  {
    (if t.price == 0 then [NoPrice] else [])
    + (if t.volume == 0 then [NoVolume] else [])
    + (if t.turnover == 0 then [NoTurnover] else [])
    + (if t.observer == 0 then [NoObserver] else [])
  }

  /** The share tests: price below 80%, volume or turnover below 50%. */
  function WarnReasons(t: Tallies, total: nat): seq<Reason>
  {
    if total == 0 then []
    else
      var n := total as real;
      var pr, vr, tr := t.price as real / n, t.volume as real / n, t.turnover as real / n;
      (if pr < 0.8 then [LowPrice(pr)] else [])
      + (if vr < 0.5 then [LowVolume(vr)] else [])
      + (if tr < 0.5 then [LowTurnover(tr)] else [])
  }

  /** The verdict `assess_data_quality` gives for the counts. */
  function QualityFrom(t: Tallies, total: nat): Quality
  {
    var fails := FailReasons(t);
    if fails != [] then Quality(Fail, fails)
    else
      var warns := WarnReasons(t, total);
      if warns == [] then Quality(Pass, []) else Quality(Warn, warns)
  }

  function QualityOf(rs: seq<Rec>): Quality
  {
    QualityFrom(TalliesOf(rs), |rs|)
  }

  /** `assess_data_quality`: one pass counting, per record, a price, a
      positive volume, a positive turnover and a non-empty observer section,
      then the verdict. */
  method AssessDataQuality(records: seq<Rec>) returns (q: Quality)
    ensures q == QualityOf(records)
  {
    var price, volume, turnover, observer := 0, 0, 0, 0;
    var i := 0;
    while i < |records|
      invariant i <= |records|
      invariant price == CountIf(records[..i], HasPrice)
      invariant volume == CountIf(records[..i], HasVolume)
      invariant turnover == CountIf(records[..i], HasTurnover)
      invariant observer == CountIf(records[..i], HasObserver)
    {
      var rec := records[i];
      assert records[..i + 1][..i] == records[..i];
      if rec.currentPrice.Some? {
        price := price + 1;
      }
      if rec.volume.Some? && rec.volume.value > 0.0 {
        volume := volume + 1;
      }
      if rec.turnover.Some? && rec.turnover.value > 0.0 {
        turnover := turnover + 1;
      }
      if rec.triggered.Some? || rec.observerOther {
        observer := observer + 1;
      }
      i := i + 1;
    }
    assert records[..i] == records;
    q := QualityFrom(Tallies(price, volume, turnover, observer), |records|);
  }

  /** FAIL exactly when some kind of data is missing from every record, so
      no records at all is FAIL on all four counts; the FAIL reasons are the
      missing kinds in order. */
  lemma QualityFailRule(rs: seq<Rec>)
    ensures QualityOf(rs).status == Fail <==>
      (forall i :: 0 <= i < |rs| ==> !HasPrice(rs[i]))
      || (forall i :: 0 <= i < |rs| ==> !HasVolume(rs[i]))
      || (forall i :: 0 <= i < |rs| ==> !HasTurnover(rs[i]))
      || (forall i :: 0 <= i < |rs| ==> !HasObserver(rs[i]))
    ensures QualityOf(rs).status == Fail ==>
      1 <= |QualityOf(rs).reasons| <= 4 && forall k :: 0 <= k < |QualityOf(rs).reasons| ==> QualityOf(rs).reasons[k].Missing()
    ensures rs == [] ==> QualityOf(rs) == Quality(Fail, [NoPrice, NoVolume, NoTurnover, NoObserver])
  {
    CountIfZero(rs, HasPrice);
    CountIfZero(rs, HasVolume);
    CountIfZero(rs, HasTurnover);
    CountIfZero(rs, HasObserver);
  }

  /** For at least one record, the share tests in counts: no WARN reason
      exactly when at least four in five records carry a price and at least
      half a volume and half a turnover; no WARN reason is a missing kind. */
  lemma WarnReasonsRule(t: Tallies, total: nat)
    requires total > 0
    ensures WarnReasons(t, total) == [] <==>
      !(5 * t.price < 4 * total || 2 * t.volume < total || 2 * t.turnover < total)
    ensures forall k :: 0 <= k < |WarnReasons(t, total)| ==> !WarnReasons(t, total)[k].Missing()
  {
    var n := total as real;
    Numeric.QuotientBelow(t.price as real, n, 0.8);
    Numeric.QuotientBelow(t.volume as real, n, 0.5);
    Numeric.QuotientBelow(t.turnover as real, n, 0.5);
  }

  /** The reasons are empty exactly on PASS; WARN happens only when every
      kind is present somewhere and, counted over all records, fewer than
      four in five carry a price or fewer than half a volume or a turnover. */
  lemma QualityWarnRule(rs: seq<Rec>)
    ensures QualityOf(rs).reasons == [] <==> QualityOf(rs).status == Pass
    ensures QualityOf(rs).status == Warn <==>
      var t := TalliesOf(rs);
      t.price > 0 && t.volume > 0 && t.turnover > 0 && t.observer > 0
      && (5 * t.price < 4 * |rs| || 2 * t.volume < |rs| || 2 * t.turnover < |rs|)
    ensures QualityOf(rs).status == Warn ==>
      forall k :: 0 <= k < |QualityOf(rs).reasons| ==> !QualityOf(rs).reasons[k].Missing()
  {
    var t := TalliesOf(rs);
    if FailReasons(t) == [] {
      assert |rs| > 0;
      WarnReasonsRule(t, |rs|);
    }
  }

  // ---------------------------------------------------------------------
  // Price movement
  // ---------------------------------------------------------------------

  datatype PriceInfo = PriceInfo(maxReturnPct: real, minReturnPct: real, amplitudePct: real,
                                 startPrice: Option<real>, endPrice: Option<real>)

  predicate PositivePrice(r: Rec) { r.currentPrice.Some? && r.currentPrice.value > 0.0 }

  /** The positive prices of the records, in record order. */
  function PositivePrices(rs: seq<Rec>): (ps: seq<real>)
    ensures forall k :: 0 <= k < |ps| ==> ps[k] > 0.0
    ensures forall i :: 0 <= i < |rs| && PositivePrice(rs[i]) ==> rs[i].currentPrice.value in ps
    ensures ps == [] <==> forall i :: 0 <= i < |rs| ==> !PositivePrice(rs[i])
  {
    if rs == [] then []
    else
      var init := PositivePrices(rs[..|rs| - 1]);
      assert forall i :: 0 <= i < |rs| - 1 ==> rs[..|rs| - 1][i] == rs[i];
      var last := rs[|rs| - 1];
      if PositivePrice(last) then init + [last.currentPrice.value] else init
  }

  /** `max` of a non-empty list. */
  function SeqMax(xs: seq<real>): (m: real)
    requires xs != []
    ensures m in xs && forall k :: 0 <= k < |xs| ==> xs[k] <= m
  {
    if |xs| == 1 then xs[0]
    else
      var init := xs[..|xs| - 1];
      assert xs == init + [xs[|xs| - 1]];
      Numeric.MaxReal(SeqMax(init), xs[|xs| - 1])
  }

  /** `min` of a non-empty list. */
  function SeqMin(xs: seq<real>): (m: real)
    requires xs != []
    ensures m in xs && forall k :: 0 <= k < |xs| ==> m <= xs[k]
  {
    if |xs| == 1 then xs[0]
    else
      var init := xs[..|xs| - 1];
      assert xs == init + [xs[|xs| - 1]];
      Numeric.MinReal(SeqMin(init), xs[|xs| - 1])
  }

  /** The change from `start` to `p`, in percent of `start`. */
  function ReturnPct(p: real, start: real): real
    requires start > 0.0
  {
    (p - start) / start * 100.0
  }

  /** Returns relative to the first positive price; all zero, and no start
      or end price, when there is none. */
  function PriceInfoFrom(prices: seq<real>): PriceInfo
  {
    if prices == [] then PriceInfo(0.0, 0.0, 0.0, None, None)
    else
      var start, end := prices[0], prices[|prices| - 1];
      var hi, lo := SeqMax(prices), SeqMin(prices);
      if start > 0.0 then
        PriceInfo(ReturnPct(hi, start), ReturnPct(lo, start), (hi - lo) / start * 100.0, Some(start), Some(end))
      else PriceInfo(0.0, 0.0, 0.0, Some(start), Some(end))
  }

  function PriceInfoOf(rs: seq<Rec>): PriceInfo
  {
    PriceInfoFrom(PositivePrices(rs))
  }

  /** `extract_cycle_price_info`: collect the positive prices, then compare
      their maximum and minimum with the first. */
  method ExtractCyclePriceInfo(records: seq<Rec>) returns (info: PriceInfo)
    ensures info == PriceInfoOf(records)
  {
    var prices: seq<real> := [];
    var i := 0;
    while i < |records|
      invariant i <= |records|
      invariant prices == PositivePrices(records[..i])
    {
      assert records[..i + 1][..i] == records[..i];
      var price := records[i].currentPrice;
      if price.Some? && price.value > 0.0 {
        prices := prices + [price.value];
      }
      i := i + 1;
    }
    assert records[..i] == records;
    info := PriceInfoFrom(prices);
  }

  /** A larger price has a larger return. */
  lemma ReturnPctMonotone(a: real, b: real, start: real)
    requires start > 0.0 && a <= b
    ensures ReturnPct(a, start) <= ReturnPct(b, start)
  {
    assert (b - start) - (a - start) == b - a;
    assert (b - start) / start - (a - start) / start == (b - a) / start;
  }

  /** The amplitude is the best return less the worst. */
  lemma AmplitudeIsSpread(hi: real, lo: real, start: real)
    requires start > 0.0
    ensures (hi - lo) / start * 100.0 == ReturnPct(hi, start) - ReturnPct(lo, start)
  {
    assert (hi - lo) / start == (hi - start) / start - (lo - start) / start;
  }

  /** For a non-empty list of positive prices: the best return is at least
      0, the worst at most 0, the amplitude is their difference, and every
      price's return lies between the two. */
  lemma PriceInfoFromBounds(ps: seq<real>)
    requires ps != [] && forall k :: 0 <= k < |ps| ==> ps[k] > 0.0
    ensures var info := PriceInfoFrom(ps);
      info.startPrice == Some(ps[0]) && info.endPrice == Some(ps[|ps| - 1])
      && info.minReturnPct <= 0.0 <= info.maxReturnPct
      && info.amplitudePct == info.maxReturnPct - info.minReturnPct
      && forall k :: 0 <= k < |ps| ==> info.minReturnPct <= ReturnPct(ps[k], ps[0]) <= info.maxReturnPct
  {
    var start, hi, lo := ps[0], SeqMax(ps), SeqMin(ps);
    assert PriceInfoFrom(ps) == PriceInfo(ReturnPct(hi, start), ReturnPct(lo, start), (hi - lo) / start * 100.0,
                                          Some(start), Some(ps[|ps| - 1]));
    ReturnPctMonotone(start, hi, start);
    ReturnPctMonotone(lo, start, start);
    AmplitudeIsSpread(hi, lo, start);
    forall k | 0 <= k < |ps|
      ensures ReturnPct(lo, start) <= ReturnPct(ps[k], start) <= ReturnPct(hi, start)
    {
      ReturnPctMonotone(lo, ps[k], start);
      ReturnPctMonotone(ps[k], hi, start);
    }
  }

  /** With no positive price every figure is 0; otherwise the returns are
      taken from the first positive price, the best is at least 0, the worst
      at most 0, the amplitude is their difference (so never negative), and
      every record's positive price has a return between the two. */
  lemma PriceInfoBounds(rs: seq<Rec>)
    ensures PositivePrices(rs) == [] ==> PriceInfoOf(rs) == PriceInfo(0.0, 0.0, 0.0, None, None)
    ensures PositivePrices(rs) != [] ==>
      var info, start := PriceInfoOf(rs), PositivePrices(rs)[0];
      info.startPrice == Some(start)
      && info.minReturnPct <= 0.0 <= info.maxReturnPct
      && info.amplitudePct == info.maxReturnPct - info.minReturnPct >= 0.0
      && forall i :: 0 <= i < |rs| && PositivePrice(rs[i]) ==>
           info.minReturnPct <= ReturnPct(rs[i].currentPrice.value, start) <= info.maxReturnPct
  {
    var ps := PositivePrices(rs);
    if ps != [] {
      PriceInfoFromBounds(ps);
      forall i | 0 <= i < |rs| && PositivePrice(rs[i])
        ensures exists k :: 0 <= k < |ps| && ps[k] == rs[i].currentPrice.value
      {
        assert rs[i].currentPrice.value in ps;
      }
    }
  }

  // ---------------------------------------------------------------------
  // Observer state changes
  // ---------------------------------------------------------------------

  datatype Changes = Changes(volume: nat, box: nat, baseCandle: nat)

  datatype EventInfo = EventInfo(eventCount: nat, observerChanges: Changes)

  /** What the previous record left behind: the trigger flag (absent before
      the first record, false when that record had none), the box flag and
      the base-candle flag. */
  datatype Prev = Prev(triggered: Option<bool>, boxFormed: bool, baseExists: bool)

  const Initial: Prev := Prev(None, false, false)

  function After(r: Rec): Prev
  {
    Prev(Some(r.triggered.GetOr(false)), r.boxFormed, r.baseExists)
  }

  /** The state record `i` is compared with. */
  function StateBefore(rs: seq<Rec>, i: nat): Prev
    requires i <= |rs|
  {
    if i == 0 then Initial else After(rs[i - 1])
  }

  function Changed<T(==)>(a: T, b: T): nat
  {
    if a != b then 1 else 0
  }

  /** The counters after comparing `r` with `prev`. */
  function Tick(c: Changes, prev: Prev, r: Rec): Changes
  {
    Changes(c.volume + Changed(r.triggered, prev.triggered),
            c.box + Changed(r.boxFormed, prev.boxFormed),
            c.baseCandle + Changed(r.baseExists, prev.baseExists))
  }

  function ChangesOf(rs: seq<Rec>): Changes
  {
    if rs == [] then Changes(0, 0, 0)
    else Tick(ChangesOf(rs[..|rs| - 1]), StateBefore(rs, |rs| - 1), rs[|rs| - 1])
  }

  function Total(c: Changes): nat
  {
    c.volume + c.box + c.baseCandle
  }

  /** One more record ticks the counters against the state before it. */
  lemma ChangesOfStep(rs: seq<Rec>, i: nat)
    requires i < |rs|
    ensures ChangesOf(rs[..i + 1]) == Tick(ChangesOf(rs[..i]), StateBefore(rs, i), rs[i])
  {
    assert rs[..i + 1][..i] == rs[..i];
    assert StateBefore(rs[..i + 1], i) == StateBefore(rs, i);
  }

  /** `count_observer_events`: walk the records keeping the previous state,
      counting each flag that differs from it, and in a separate counter
      every change of any kind. */
  method CountObserverEvents(records: seq<Rec>) returns (info: EventInfo)
    ensures info.observerChanges == ChangesOf(records)
    ensures info.eventCount == Total(info.observerChanges)
  {
    var eventCount := 0;
    var volume, box, base := 0, 0, 0;
    var prev := Initial;
    var i := 0;
    while i < |records|
      invariant i <= |records|
      invariant prev == StateBefore(records, i)
      invariant Changes(volume, box, base) == ChangesOf(records[..i])
      invariant eventCount == volume + box + base
    {
      var rec := records[i];
      ChangesOfStep(records, i);
      if rec.triggered != prev.triggered {
        volume := volume + 1;
        eventCount := eventCount + 1;
      }
      if rec.boxFormed != prev.boxFormed {
        box := box + 1;
        eventCount := eventCount + 1;
      }
      if rec.baseExists != prev.baseExists {
        base := base + 1;
        eventCount := eventCount + 1;
      }
      prev := After(rec);
      i := i + 1;
    }
    assert records[..i] == records;
    info := EventInfo(eventCount, Changes(volume, box, base));
  }

  /** Each counter counts at most one change per record. */
  lemma {:induction false} ChangesBounded(rs: seq<Rec>)
    ensures ChangesOf(rs).volume <= |rs| && ChangesOf(rs).box <= |rs| && ChangesOf(rs).baseCandle <= |rs|
    ensures Total(ChangesOf(rs)) <= 3 * |rs|
  {
    if rs != [] {
      ChangesBounded(rs[..|rs| - 1]);
    }
  }

  /** The box and base-candle flags start out false, so each counter is odd
      exactly when the last record's flag is set. */
  lemma {:induction false} FlagChangeParity(rs: seq<Rec>)
    ensures ChangesOf(rs).box % 2 == 1 <==> rs != [] && rs[|rs| - 1].boxFormed
    ensures ChangesOf(rs).baseCandle % 2 == 1 <==> rs != [] && rs[|rs| - 1].baseExists
  {
    if rs != [] {
      FlagChangeParity(rs[..|rs| - 1]);
    }
  }

  /** A record that changes nothing: no box, no base candle, and the trigger
      flag absent on the first record and false on every later one. */
  predicate Quiet(r: Rec, first: bool)
  {
    !r.boxFormed && !r.baseExists && r.triggered == (if first then None else Some(false))
  }

  /** One comparison adds nothing exactly when all three flags match. */
  lemma TickTotal(c: Changes, prev: Prev, r: Rec)
    ensures Total(Tick(c, prev, r)) == 0 <==>
      Total(c) == 0 && r.triggered == prev.triggered && r.boxFormed == prev.boxFormed && r.baseExists == prev.baseExists
  {
  }

  predicate AllQuiet(rs: seq<Rec>)
  {
    forall i :: 0 <= i < |rs| ==> Quiet(rs[i], i == 0)
  }

  /** A non-empty list is quiet when all but its last record are and the
      last one is. */
  lemma AllQuietSnoc(rs: seq<Rec>)
    requires rs != []
    ensures AllQuiet(rs) <==> AllQuiet(rs[..|rs| - 1]) && Quiet(rs[|rs| - 1], |rs| == 1)
  {
    var init := rs[..|rs| - 1];
    assert forall i :: 0 <= i < |init| ==> init[i] == rs[i];
  }

  /** After a quiet list, the next record is compared with flags that are
      all off and a trigger flag that is absent (no record yet) or false. */
  lemma QuietStateBefore(rs: seq<Rec>)
    requires AllQuiet(rs)
    ensures StateBefore(rs, |rs|) == if rs == [] then Initial else Prev(Some(false), false, false)
  {
    if rs != [] {
      assert Quiet(rs[|rs| - 1], |rs| - 1 == 0);
    }
  }

  /** No change at all happens exactly when every record is quiet: a later
      record without the trigger flag is compared with the false the
      previous record left behind, and counts as a change. */
  lemma {:induction false} NoChangesRule(rs: seq<Rec>)
    ensures Total(ChangesOf(rs)) == 0 <==> AllQuiet(rs)
  {
    if rs != [] {
      var n := |rs|;
      var init, last := rs[..n - 1], rs[n - 1];
      NoChangesRule(init);
      AllQuietSnoc(rs);
      var prev := StateBefore(rs, n - 1);
      assert prev == StateBefore(init, |init|);
      TickTotal(ChangesOf(init), prev, last);
      if AllQuiet(init) {
        QuietStateBefore(init);
      }
    }
  }

  // ---------------------------------------------------------------------
  // Timeout subtype and information score
  // ---------------------------------------------------------------------

  datatype Subtype = NoEventTimeout | NearTargetTimeout | LowSignalTimeout | NotApplicable {
    function Name(): string
    {
      match this
      case NoEventTimeout => "NO_EVENT_TIMEOUT"
      case NearTargetTimeout => "NEAR_TARGET_TIMEOUT"
      case LowSignalTimeout => "LOW_SIGNAL_TIMEOUT"
      case NotApplicable => "N/A"
    }
  }

  /** `classify_timeout_subtype`: "N/A" unless the cycle timed out;
      NO_EVENT for no changes and returns and amplitude under half a
      percent; NEAR_TARGET from 0.7% best return; LOW_SIGNAL otherwise. */
  function ClassifyTimeoutSubtype(exitType: string, eventCount: nat, maxReturnPct: real, amplitudePct: real): (s: Subtype)
    ensures s == NearTargetTimeout <==> exitType == "timeout" && maxReturnPct >= NearTargetThreshold
    ensures s == LowSignalTimeout <==>
      (exitType == "timeout" && maxReturnPct < NearTargetThreshold
       && !(eventCount == 0 && maxReturnPct < 0.5 && amplitudePct < 0.5))
  {
    if exitType != "timeout" then NotApplicable
    else if eventCount == 0 && maxReturnPct < 0.5 && amplitudePct < 0.5 then NoEventTimeout
    else if maxReturnPct >= NearTargetThreshold then NearTargetTimeout
    else if eventCount > 0 && maxReturnPct < 0.5 then LowSignalTimeout
    else LowSignalTimeout
  }

  /** A value scaled by `full` and capped at 1. */
  function Normalized(x: real, full: real): (r: real)
    requires full > 0.0
    ensures 0.0 <= x ==> 0.0 <= r
    ensures r <= 1.0
  {
    Numeric.MinReal(x / full, 1.0)
  }

  /** The weighted sum before the quality multiplier. */
  function RawScore(eventCount: nat, amplitudePct: real, maxReturnPct: real): real
  {
    EventWeight * Normalized(eventCount as real, 10.0) * 100.0
    + AmplitudeWeight * Normalized(Numeric.Abs(amplitudePct), 5.0) * 100.0
    + MaxReturnWeight * Normalized(Numeric.Abs(maxReturnPct), 3.0) * 100.0
  }

  /** `calculate_info_score`: ten changes, a 5% amplitude and a 3% best
      return (either sign) each earn their full weight; the sum is scaled
      by the quality multiplier, so the score stays within 0..100 and a
      FAIL cycle scores 0. */
  function InfoScore(eventCount: nat, amplitudePct: real, maxReturnPct: real, status: Status): (score: real)
    ensures 0.0 <= score <= 100.0
    ensures status == Fail ==> score == 0.0
  {
    RawScore(eventCount, amplitudePct, maxReturnPct) * status.Multiplier()
  }

  /** WARN scores 70% of PASS; the full score needs all three components at
      their caps; no changes and no movement score 0. */
  lemma InfoScoreRule(eventCount: nat, amplitudePct: real, maxReturnPct: real)
    ensures InfoScore(eventCount, amplitudePct, maxReturnPct, Warn) == 0.7 * InfoScore(eventCount, amplitudePct, maxReturnPct, Pass)
    ensures eventCount >= 10 && Numeric.Abs(amplitudePct) >= 5.0 && Numeric.Abs(maxReturnPct) >= 3.0 ==>
      InfoScore(eventCount, amplitudePct, maxReturnPct, Pass) == 100.0
    ensures InfoScore(eventCount, amplitudePct, maxReturnPct, Pass) == 100.0 ==>
      eventCount >= 10 && Numeric.Abs(amplitudePct) >= 5.0 && Numeric.Abs(maxReturnPct) >= 3.0
    ensures eventCount == 0 && amplitudePct == 0.0 && maxReturnPct == 0.0 ==>
      InfoScore(eventCount, amplitudePct, maxReturnPct, Pass) == 0.0
  {
  }

  /** More changes never lower the score. */
  lemma InfoScoreMonotone(e1: nat, e2: nat, amplitudePct: real, maxReturnPct: real, status: Status)
    requires e1 <= e2
    ensures InfoScore(e1, amplitudePct, maxReturnPct, status) <= InfoScore(e2, amplitudePct, maxReturnPct, status)
  {
    assert Normalized(e1 as real, 10.0) <= Normalized(e2 as real, 10.0);
  }

  // ---------------------------------------------------------------------
  // Per-cycle analysis and FAIL exclusion
  // ---------------------------------------------------------------------

  /** The cycle fields the analysis reads. */
  datatype Cycle = Cycle(cycleId: string, stock: string, exitType: string)

  datatype Enhanced = Enhanced(
    cycle: Cycle, timeoutSubtype: Subtype,
    maxReturnPct: real, minReturnPct: real, amplitudePct: real,
    eventCount: nat, observerChanges: Changes, dataQuality: Quality, infoScore: real)

  datatype Enhancement = Enhancement(enhancedCycles: seq<Enhanced>, failCyclesCount: nat, failCycleIds: seq<string>)

  /** The enhanced entry for one cycle and its records. */
  function EnhanceOne(c: Cycle, rs: seq<Rec>): (e: Enhanced)
    ensures e.dataQuality == QualityOf(rs) && 0.0 <= e.infoScore <= 100.0
  {
    var q, p, ch := QualityOf(rs), PriceInfoOf(rs), ChangesOf(rs);
    Enhanced(c, ClassifyTimeoutSubtype(c.exitType, Total(ch), p.maxReturnPct, p.amplitudePct),
             p.maxReturnPct, p.minReturnPct, p.amplitudePct, Total(ch), ch, q,
             InfoScore(Total(ch), p.amplitudePct, p.maxReturnPct, q.status))
  }

  predicate Excluded(entry: (Cycle, seq<Rec>), excludeFail: bool)
  {
    excludeFail && QualityOf(entry.1).status == Fail
  }

  /** The entries kept, enhanced, in order. */
  function KeptOf(cycles: seq<(Cycle, seq<Rec>)>, excludeFail: bool): seq<Enhanced>
  {
    if cycles == [] then []
    else
      var init, last := KeptOf(cycles[..|cycles| - 1], excludeFail), cycles[|cycles| - 1];
      if Excluded(last, excludeFail) then init else init + [EnhanceOne(last.0, last.1)]
  }

  /** The ids of the entries set aside, in order. */
  function FailIdsOf(cycles: seq<(Cycle, seq<Rec>)>, excludeFail: bool): seq<string>
  {
    if cycles == [] then []
    else
      var init, last := FailIdsOf(cycles[..|cycles| - 1], excludeFail), cycles[|cycles| - 1];
      if Excluded(last, excludeFail) then init + [last.0.cycleId] else init
  }

  /** The per-cycle loop of `enhance_cycle_analysis`, each cycle paired with
      its records: a FAIL cycle is set aside when `excludeFail` is on, and
      every other cycle is analysed. */
  method EnhanceCycleAnalysis(cycles: seq<(Cycle, seq<Rec>)>, excludeFail: bool) returns (result: Enhancement)
    ensures result.enhancedCycles == KeptOf(cycles, excludeFail)
    ensures result.failCycleIds == FailIdsOf(cycles, excludeFail)
    ensures result.failCyclesCount == |result.failCycleIds|
  {
    var enhanced: seq<Enhanced> := [];
    var failIds: seq<string> := [];
    var i := 0;
    while i < |cycles|
      invariant i <= |cycles|
      invariant enhanced == KeptOf(cycles[..i], excludeFail)
      invariant failIds == FailIdsOf(cycles[..i], excludeFail)
    {
      assert cycles[..i + 1][..i] == cycles[..i];
      var (cycle, recs) := cycles[i];
      var quality := AssessDataQuality(recs);
      if excludeFail && quality.status == Fail {
        failIds := failIds + [cycle.cycleId];
      } else {
        var price := ExtractCyclePriceInfo(recs);
        var events := CountObserverEvents(recs);
        var subtype := ClassifyTimeoutSubtype(cycle.exitType, events.eventCount, price.maxReturnPct, price.amplitudePct);
        var score := InfoScore(events.eventCount, price.amplitudePct, price.maxReturnPct, quality.status);
        enhanced := enhanced + [Enhanced(cycle, subtype, price.maxReturnPct, price.minReturnPct, price.amplitudePct,
                                         events.eventCount, events.observerChanges, quality, score)];
      }
      i := i + 1;
    }
    assert cycles[..i] == cycles;
    result := Enhancement(enhanced, |failIds|, failIds);
  }

  /** Every cycle is either kept or listed as failed; without `excludeFail`
      every cycle is kept. */
  lemma {:induction false} EnhancementPartition(cycles: seq<(Cycle, seq<Rec>)>, excludeFail: bool)
    ensures |KeptOf(cycles, excludeFail)| + |FailIdsOf(cycles, excludeFail)| == |cycles|
    ensures !excludeFail ==> FailIdsOf(cycles, excludeFail) == [] && |KeptOf(cycles, excludeFail)| == |cycles|
  {
    if cycles != [] {
      EnhancementPartition(cycles[..|cycles| - 1], excludeFail);
    }
  }

  /** With `excludeFail` no kept cycle is FAIL; every kept score is within
      0..100. */
  lemma {:induction false} KeptCyclesRule(cycles: seq<(Cycle, seq<Rec>)>, excludeFail: bool)
    ensures forall e :: e in KeptOf(cycles, excludeFail) ==>
      (excludeFail ==> e.dataQuality.status != Fail) && 0.0 <= e.infoScore <= 100.0
  {
    if cycles != [] {
      var init, last := cycles[..|cycles| - 1], cycles[|cycles| - 1];
      KeptCyclesRule(init, excludeFail);
      var kept, before := KeptOf(cycles, excludeFail), KeptOf(init, excludeFail);
      if Excluded(last, excludeFail) {
        assert kept == before;
      } else {
        assert kept == before + [EnhanceOne(last.0, last.1)];
      }
    }
  }

  /** The listed ids are exactly those of the FAIL cycles, and only with
      `excludeFail`. */
  lemma {:induction false} FailIdsRule(cycles: seq<(Cycle, seq<Rec>)>, excludeFail: bool, id: string)
    ensures id in FailIdsOf(cycles, excludeFail) <==>
      excludeFail && exists i :: 0 <= i < |cycles| && cycles[i].0.cycleId == id && QualityOf(cycles[i].1).status == Fail
  {
    if cycles != [] {
      var init := cycles[..|cycles| - 1];
      FailIdsRule(init, excludeFail, id);
      assert forall i :: 0 <= i < |init| ==> init[i] == cycles[i];
    }
  }

  // ---------------------------------------------------------------------
  // Market memo
  // ---------------------------------------------------------------------

  datatype Memo = NoData | NoTimeout | WeakAndSparse | NearMiss | NoisySignals | HighVolatility | Normal {
    function Text(): string
    {
      match this
      case NoData => "데이터 없음"
      case NoTimeout => "타임아웃 없음"
      case WeakAndSparse => "방향성 약하고 신호 희박"
      case NearMiss => "추세 시도 있었으나 목표 미도달"
      case NoisySignals => "신호는 잦았으나 가격 반응 약함(노이즈 가능)"
      case HighVolatility => "가격 변동성 높음"
      case Normal => "정상 범위"
    }
  }

  predicate IsTimeout(c: Enhanced) { c.cycle.exitType == "timeout" }
  predicate NoEventTimedOut(c: Enhanced) { IsTimeout(c) && c.timeoutSubtype == NoEventTimeout }
  predicate NearTargetTimedOut(c: Enhanced) { IsTimeout(c) && c.timeoutSubtype == NearTargetTimeout }

  function SumAmplitude(cs: seq<Enhanced>): real
  {
    if cs == [] then 0.0 else SumAmplitude(cs[..|cs| - 1]) + cs[|cs| - 1].amplitudePct
  }

  function SumEvents(cs: seq<Enhanced>): nat
  {
    if cs == [] then 0 else SumEvents(cs[..|cs| - 1]) + cs[|cs| - 1].eventCount
  }

  /** The memo rules after the two empty cases, from the timeout count, the
      NO_EVENT and NEAR_TARGET timeout counts, the number of cycles and the
      amplitude and change-count totals. */
  function MemoFrom(timeouts: nat, noEvent: nat, nearTarget: nat, n: nat, sumAmplitude: real, sumEvents: nat): Memo
    requires timeouts > 0 && n > 0
  {
    var avgAmplitude := sumAmplitude / n as real;
    var avgEvents := sumEvents as real / n as real;
    if noEvent as real / timeouts as real > 0.5 && avgAmplitude < 1.0 then WeakAndSparse
    else if nearTarget > 0 then NearMiss
    else if avgEvents > 3.0 && avgAmplitude < 1.0 then NoisySignals
    else if avgAmplitude > 2.0 then HighVolatility
    else Normal
  }

  /** The memo rules in counts and sums: more than half the timeouts without
      events and a total amplitude under one percent per cycle is "weak and
      sparse"; otherwise any near-target timeout is "near miss"; otherwise
      more than three changes per cycle on that low amplitude is "noisy";
      otherwise more than two percent per cycle is "high volatility". */
  lemma MemoFromRule(timeouts: nat, noEvent: nat, nearTarget: nat, n: nat, sumAmplitude: real, sumEvents: nat)
    requires timeouts > 0 && n > 0
    ensures var m, weak, noisy := MemoFrom(timeouts, noEvent, nearTarget, n, sumAmplitude, sumEvents),
        2 * noEvent > timeouts && sumAmplitude < n as real,
        sumEvents > 3 * n && sumAmplitude < n as real;
      (m == WeakAndSparse <==> weak)
      && (m == NearMiss <==> !weak && nearTarget > 0)
      && (m == NoisySignals <==> !weak && nearTarget == 0 && noisy)
      && (m == HighVolatility <==> (!weak && nearTarget == 0 && !noisy && sumAmplitude > 2.0 * n as real))
  {
    Numeric.QuotientBelow(noEvent as real, timeouts as real, 0.5);
    Numeric.QuotientBelow(sumAmplitude, n as real, 1.0);
    Numeric.QuotientBelow(sumAmplitude, n as real, 2.0);
    Numeric.QuotientBelow(sumEvents as real, n as real, 3.0);
  }

  /** `generate_market_memo`: "no data" for no cycles, "no timeout" when
      none timed out, otherwise the first rule of `MemoFrom` that applies,
      over the timeout cycles' subtypes and the means of all cycles. */
  function GenerateMarketMemo(cs: seq<Enhanced>): (m: Memo)
    ensures m == NoData <==> cs == []
    ensures m == NoTimeout <==> cs != [] && forall k :: 0 <= k < |cs| ==> !IsTimeout(cs[k])
  {
    CountIfZero(cs, IsTimeout);
    if cs == [] then NoData
    else
      var timeouts := CountIf(cs, IsTimeout);
      if timeouts == 0 then NoTimeout
      else MemoFrom(timeouts, CountIf(cs, NoEventTimedOut), CountIf(cs, NearTargetTimedOut), |cs|,
                    SumAmplitude(cs), SumEvents(cs))
  }

  /** A NEAR_TARGET timeout among the cycles rules out the last three memos,
      and "near miss" needs one. */
  lemma MarketMemoNearMiss(cs: seq<Enhanced>)
    ensures GenerateMarketMemo(cs) == NearMiss ==> exists k :: 0 <= k < |cs| && NearTargetTimedOut(cs[k])
    ensures (exists k :: 0 <= k < |cs| && NearTargetTimedOut(cs[k])) ==>
      GenerateMarketMemo(cs) == WeakAndSparse || GenerateMarketMemo(cs) == NearMiss
  {
    CountIfZero(cs, NearTargetTimedOut);
    CountIfZero(cs, IsTimeout);
    if CountIf(cs, IsTimeout) > 0 {
      MemoFromRule(CountIf(cs, IsTimeout), CountIf(cs, NoEventTimedOut), CountIf(cs, NearTargetTimedOut), |cs|,
                   SumAmplitude(cs), SumEvents(cs));
    }
  }
}
