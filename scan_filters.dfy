// The three pre-scan filters that write the daily scan's input lists:
// A (volume burst), B (volatility jump) and C (volume accumulation). Each
// walks the market's ticker list, applies its per-symbol test to the
// symbol's daily frame, and writes the picked symbols once each, in the
// order they were picked. The market-data API is a parameter: the ticker
// lists per market and a map from symbol to frame (a symbol the map lacks
// has the empty frame the fetch returns on failure).
module ScanFilters {
  import opened Wrappers
  import Text
  import Numeric

  // ---------------------------------------------------------------------
  // Frames
  // ---------------------------------------------------------------------

  /** One trading day; a `None` turnover or volume is a missing (NaN) value. */
  datatype Row = Row(turnover: Option<real>, volume: Option<real>, high: real, low: real, close: real)

  /** A symbol's daily frame, oldest day first, with the columns it has. */
  datatype Frame = Frame(rows: seq<Row>, hasTurnover: bool, hasVolume: bool, hasPrices: bool)

  /** The frame the fetch returns when the API gives nothing. */
  const EmptyFrame: Frame := Frame([], false, false, false)

  function FrameOf(frames: map<string, Frame>, sym: string): Frame
  {
    if sym in frames then frames[sym] else EmptyFrame
  }

  /** `dropna()`: the present values, in order. */
  function Present(xs: seq<Option<real>>): (ys: seq<real>)
    ensures |ys| <= |xs|
  {
    if xs == [] then []
    else
      var p := Present(xs[..|xs| - 1]);
      if xs[|xs| - 1].Some? then p + [xs[|xs| - 1].value] else p
  }

  function TurnoverColumn(rows: seq<Row>): (c: seq<Option<real>>)
    ensures |c| == |rows| && forall i :: 0 <= i < |rows| ==> c[i] == rows[i].turnover
  {
    seq(|rows|, i requires 0 <= i < |rows| => rows[i].turnover)
  }

  function VolumeColumn(rows: seq<Row>): (c: seq<Option<real>>)
    ensures |c| == |rows| && forall i :: 0 <= i < |rows| ==> c[i] == rows[i].volume
  {
    seq(|rows|, i requires 0 <= i < |rows| => rows[i].volume)
  }

  /** `xs.iloc[-(n + 1):-1]`: the `n` entries before the last one. */
  function PriorDays<T>(xs: seq<T>, n: nat): (r: seq<T>)
    requires |xs| >= n + 1
    ensures |r| == n
    ensures r + [xs[|xs| - 1]] == xs[|xs| - 1 - n..]
  {
    xs[|xs| - 1 - n..|xs| - 1]
  }

  /** `xs.iloc[-n:]` for `n > 0`: the last `n` entries, or all of a shorter
      list. */
  function LastDays<T>(xs: seq<T>, n: nat): (r: seq<T>)
    requires n > 0
    ensures |r| == if |xs| < n then |xs| else n
    ensures r == xs[|xs| - |r|..]
  {
    if |xs| < n then xs else xs[|xs| - n..]
  }

  /** A floating-point mean as pandas produces it: finite, infinite, or NaN
      (the mean of nothing, or of both infinities). */
  datatype Avg = Finite(v: real) | PosInf | NegInf | NaN

  /** `avg < x`; no comparison with NaN holds. */
  predicate Below(a: Avg, x: real)
  {
    match a
    case Finite(v) => v < x
    case NegInf => true
    case _ => false
  }

  /** `avg <= 0`. */
  predicate NotPositive(a: Avg)
  {
    match a
    case Finite(v) => v <= 0.0
    case NegInf => true
    case _ => false
  }

  /** The mean of the present values: NaN when there are none. */
  function MeanOf(xs: seq<real>): (a: Avg)
    ensures xs == [] <==> a == NaN
    ensures xs != [] ==> a == Finite(Numeric.Mean(xs))
  {
    if xs == [] then NaN else Finite(Numeric.Mean(xs))
  }

  // ---------------------------------------------------------------------
  // The ticker universe and the picked list
  // ---------------------------------------------------------------------

  function Flatten(lists: seq<seq<string>>): seq<string>
  {
    if lists == [] then [] else Flatten(lists[..|lists| - 1]) + lists[|lists| - 1]
  }

  /** `_get_universe_pykrx`: the tickers of every market, first occurrences
      only. */
  function Universe(listings: seq<seq<string>>): (u: seq<string>)
    ensures Text.NoDups(u)
  {
    Text.Dedup(Flatten(listings))
  }

  /** The symbols of `universe` whose frame passes `pick`, in order. */
  function Picked(universe: seq<string>, frames: map<string, Frame>, pick: Frame -> bool): seq<string>
  {
    if universe == [] then []
    else
      var s := universe[|universe| - 1];
      Picked(universe[..|universe| - 1], frames, pick) + (if pick(FrameOf(frames, s)) then [s] else [])
  }

  /** A symbol is picked exactly when it is in the universe and its frame
      passes; a duplicate-free universe gives a duplicate-free list. */
  lemma {:induction false} PickedMembers(universe: seq<string>, frames: map<string, Frame>, pick: Frame -> bool)
    ensures forall y :: y in Picked(universe, frames, pick) <==> y in universe && pick(FrameOf(frames, y))
    ensures Text.NoDups(universe) ==> Text.NoDups(Picked(universe, frames, pick))
  {
    if universe != [] {
      var n := |universe| - 1;
      var pre := universe[..n];
      PickedMembers(pre, frames, pick);
      assert universe == pre + [universe[n]];
      if Text.NoDups(universe) {
        assert Text.NoDups(pre) by {
          forall i, j | 0 <= i < j < n ensures pre[i] != pre[j] {
            assert pre[i] == universe[i] && pre[j] == universe[j];
          }
        }
        if pick(FrameOf(frames, universe[n])) {
          assert universe[n] !in pre by {
            forall i | 0 <= i < n ensures pre[i] != universe[n] {
              assert pre[i] == universe[i];
            }
          }
          Text.NoDupsSnoc(Picked(pre, frames, pick), universe[n]);
        }
      }
    }
  }

  /** `_write_symbol_csv` on a filter's picks: the written list is the picked
      list itself, each symbol once, in universe order. */
  lemma WrittenIsPicked(listings: seq<seq<string>>, frames: map<string, Frame>, pick: Frame -> bool)
    ensures Text.Dedup(Picked(Universe(listings), frames, pick)) == Picked(Universe(listings), frames, pick)
    ensures forall y :: y in Picked(Universe(listings), frames, pick) <==>
      (exists l :: l in listings && y in l) && pick(FrameOf(frames, y))
  {
    var u := Universe(listings);
    PickedMembers(u, frames, pick);
    Text.DedupOfNoDups(Picked(u, frames, pick));
    forall y ensures y in Flatten(listings) <==> exists l :: l in listings && y in l {
      FlattenMembers(listings, y);
    }
  }

  lemma {:induction false} FlattenMembers(lists: seq<seq<string>>, y: string)
    ensures y in Flatten(lists) <==> exists l :: l in lists && y in l
  {
    if lists != [] {
      var n := |lists| - 1;
      FlattenMembers(lists[..n], y);
      assert lists == lists[..n] + [lists[n]];
      if exists l :: l in lists && y in l {
        var l :| l in lists && y in l;
        if l != lists[n] {
          assert l in lists[..n];
        }
      }
    }
  }

  // ---------------------------------------------------------------------
  // A: volume burst
  // ---------------------------------------------------------------------

  const BurstLookback: nat := 20
  const BurstRatio: real := 2.0
  const BurstMinAvgVolume: real := 50000.0
  const BurstMinAvgValue: real := 1500000000.0

  /** The volume-burst test: at least lookback + 1 present turnover values
      whose prior-days mean reaches 15억, at least lookback + 1 present
      volumes whose prior-days mean reaches 50,000, and today's volume at
      least twice that mean. */
  predicate BurstPick(f: Frame)
  {
    var val := Present(TurnoverColumn(f.rows));
    var vol := Present(VolumeColumn(f.rows));
    f.rows != [] && f.hasTurnover && f.hasVolume
    && |val| >= BurstLookback + 1 && |vol| >= BurstLookback + 1
    && Numeric.Mean(PriorDays(val, BurstLookback)) >= BurstMinAvgValue
    && Numeric.Mean(PriorDays(vol, BurstLookback)) >= BurstMinAvgVolume
    && vol[|vol| - 1] >= BurstRatio * Numeric.Mean(PriorDays(vol, BurstLookback))
  }

  /** The per-symbol body of `generate_a_volume_burst`'s loop; the volume
      floor is checked before the division, so the divisor is positive. */
  method BurstCheck(f: Frame) returns (pick: bool)
    ensures pick == BurstPick(f)
  {
    if f.rows == [] || !f.hasTurnover {
      return false;
    }
    var val := Present(TurnoverColumn(f.rows));
    if |val| < BurstLookback + 1 {
      return false;
    }
    var avgVal := Numeric.Mean(PriorDays(val, BurstLookback));
    if avgVal < BurstMinAvgValue {
      return false;
    }
    if !f.hasVolume {
      return false;
    }
    var vol := Present(VolumeColumn(f.rows));
    if |vol| < BurstLookback + 1 {
      return false;
    }
    var todayVol := vol[|vol| - 1];
    var avgVol := Numeric.Mean(PriorDays(vol, BurstLookback));
    if avgVol < BurstMinAvgVolume {
      return false;
    }
    Numeric.QuotientBelow(todayVol, avgVol, BurstRatio);
    if todayVol / avgVol < BurstRatio {
      return false;
    }
    return true;
  }

  /** `generate_a_volume_burst`: the list it writes. */
  method GenerateVolumeBurst(listings: seq<seq<string>>, frames: map<string, Frame>) returns (written: seq<string>)
    ensures written == Picked(Universe(listings), frames, BurstPick)
    ensures Text.NoDups(written)
    ensures forall y :: y in written <==> (exists l :: l in listings && y in l) && BurstPick(FrameOf(frames, y))
  {
    var symbols := Universe(listings);
    var picked: seq<string> := [];
    var i := 0;
    while i < |symbols|
      invariant 0 <= i <= |symbols|
      invariant picked == Picked(symbols[..i], frames, BurstPick)
    {
      assert symbols[..i + 1][..i] == symbols[..i];
      var pick := BurstCheck(FrameOf(frames, symbols[i]));
      if pick {
        picked := picked + [symbols[i]];
      }
      i := i + 1;
    }
    assert symbols[..i] == symbols;
    WrittenIsPicked(listings, frames, BurstPick);
    written := Text.Dedup(picked);
  }

  // ---------------------------------------------------------------------
  // B: volatility jump
  // ---------------------------------------------------------------------

  const JumpLookback: nat := 20
  const JumpRatio: real := 1.4
  const JumpMinAvgValue: real := 500000000.0

  /** Today's range, over a close floored at 1. */
  function TodayRange(r: Row): real
  {
    (r.high - r.low) / Numeric.MaxReal(r.close, 1.0)
  }

  /** The finite past ranges: rows with a non-zero close. */
  function FiniteRanges(rows: seq<Row>): seq<real>
  {
    if rows == [] then []
    else
      var r := rows[|rows| - 1];
      FiniteRanges(rows[..|rows| - 1]) + (if r.close != 0.0 then [(r.high - r.low) / r.close] else [])
  }

  /** Whether some past day divides a rising (or falling) range by a zero
      close, which gives +inf (or -inf). */
  predicate RisingOverZero(rows: seq<Row>)
  {
    exists i :: 0 <= i < |rows| && rows[i].close == 0.0 && rows[i].high > rows[i].low
  }

  predicate FallingOverZero(rows: seq<Row>)
  {
    exists i :: 0 <= i < |rows| && rows[i].close == 0.0 && rows[i].high < rows[i].low
  }

  /** The pandas mean of the past ranges: infinities dominate (and cancel to
      NaN), a flat range over a zero close is NaN and skipped. */
  function PastRange(past: seq<Row>): Avg
  {
    var up := RisingOverZero(past);
    var down := FallingOverZero(past);
    if up && down then NaN
    else if up then PosInf
    else if down then NegInf
    else MeanOf(FiniteRanges(past))
  }

  /** The volatility-jump test: at least lookback + 1 present turnover
      values whose prior-days mean reaches 5억, the price columns, no past
      day with a non-flat range over a zero close, some past day with a
      non-zero close, a positive mean past range, and today's range at
      least 1.4 times it. */
  predicate JumpPick(f: Frame)
  {
    var val := Present(TurnoverColumn(f.rows));
    f.rows != [] && f.hasTurnover && f.hasPrices
    && |val| >= JumpLookback + 1
    && Numeric.Mean(PriorDays(val, JumpLookback)) >= JumpMinAvgValue
    && var past := PriorDays(f.rows, JumpLookback);
       var ranges := FiniteRanges(past);
       !RisingOverZero(past) && !FallingOverZero(past) && ranges != []
       && Numeric.Mean(ranges) > 0.0
       && TodayRange(f.rows[|f.rows| - 1]) >= JumpRatio * Numeric.Mean(ranges)
  }

  /** The per-symbol body of `generate_b_volatility_jump`'s loop. */
  method JumpCheck(f: Frame) returns (pick: bool)
    ensures pick == JumpPick(f)
  {
    if f.rows == [] || !f.hasTurnover {
      return false;
    }
    var val := Present(TurnoverColumn(f.rows));
    if |val| < JumpLookback + 1 {
      return false;
    }
    var avgVal := Numeric.Mean(PriorDays(val, JumpLookback));
    if avgVal < JumpMinAvgValue {
      return false;
    }
    if !f.hasPrices {
      return false;
    }
    var todayRange := TodayRange(f.rows[|f.rows| - 1]);
    var past := PriorDays(f.rows, JumpLookback);
    var pastRange := PastRange(past);
    if NotPositive(pastRange) {
      return false;
    }
    match pastRange
    case Finite(v) =>
      Numeric.QuotientBelow(todayRange, v, JumpRatio);
      pick := todayRange / v >= JumpRatio;
    case _ =>
      // today's range over +inf is 0, and over NaN no comparison holds
      pick := false;
  }

  /** `generate_b_volatility_jump`: the list it writes. */
  method GenerateVolatilityJump(listings: seq<seq<string>>, frames: map<string, Frame>) returns (written: seq<string>)
    ensures written == Picked(Universe(listings), frames, JumpPick)
    ensures Text.NoDups(written)
    ensures forall y :: y in written <==> (exists l :: l in listings && y in l) && JumpPick(FrameOf(frames, y))
  {
    var symbols := Universe(listings);
    var picked: seq<string> := [];
    var i := 0;
    while i < |symbols|
      invariant 0 <= i <= |symbols|
      invariant picked == Picked(symbols[..i], frames, JumpPick)
    {
      assert symbols[..i + 1][..i] == symbols[..i];
      var pick := JumpCheck(FrameOf(frames, symbols[i]));
      if pick {
        picked := picked + [symbols[i]];
      }
      i := i + 1;
    }
    assert symbols[..i] == symbols;
    WrittenIsPicked(listings, frames, JumpPick);
    written := Text.Dedup(picked);
  }

  // ---------------------------------------------------------------------
  // C: volume accumulation
  // ---------------------------------------------------------------------

  const AccumLookback: nat := 20
  const AccumRecent: nat := 5
  const AccumRatio: real := 1.3
  const AccumMinAvgValue: real := 500000000.0

  /** The recent window (the last `AccumRecent` volumes) and the past window
      (the `AccumLookback` volumes just before it). */
  function RecentWindow(vol: seq<real>): (r: seq<real>)
    requires |vol| >= AccumLookback + AccumRecent
    ensures |r| == AccumRecent && r == vol[|vol| - AccumRecent..]
  {
    vol[|vol| - AccumRecent..]
  }

  function PastWindow(vol: seq<real>): (p: seq<real>)
    requires |vol| >= AccumLookback + AccumRecent
    ensures |p| == AccumLookback
    ensures p + RecentWindow(vol) == vol[|vol| - AccumLookback - AccumRecent..]
  {
    vol[|vol| - AccumLookback - AccumRecent..|vol| - AccumRecent]
  }

  /** The volume-accumulation test: both columns, at least lookback + recent
      present volumes, a mean of the last lookback present turnovers that is
      not below 5억 (with no present turnover the mean is NaN and the check
      lets the symbol through), a positive past mean and a recent mean at
      least 1.3 times it. */
  predicate AccumPick(f: Frame)
  {
    var vol := Present(VolumeColumn(f.rows));
    var val := Present(TurnoverColumn(f.rows));
    f.rows != [] && f.hasVolume && f.hasTurnover
    && |vol| >= AccumLookback + AccumRecent
    && (val == [] || Numeric.Mean(LastDays(val, AccumLookback)) >= AccumMinAvgValue)
    && Numeric.Mean(PastWindow(vol)) > 0.0
    && Numeric.Mean(RecentWindow(vol)) >= AccumRatio * Numeric.Mean(PastWindow(vol))
  }

  /** The per-symbol body of `generate_c_volume_accum`'s loop. */
  method AccumCheck(f: Frame) returns (pick: bool)
    ensures pick == AccumPick(f)
  {
    if f.rows == [] || !f.hasVolume || !f.hasTurnover {
      return false;
    }
    var vol := Present(VolumeColumn(f.rows));
    var val := Present(TurnoverColumn(f.rows));
    if |vol| < AccumLookback + AccumRecent {
      return false;
    }
    var avgVal := MeanOf(LastDays(val, AccumLookback));
    if Below(avgVal, AccumMinAvgValue) {
      return false;
    }
    var recentAvg := Numeric.Mean(RecentWindow(vol));
    var pastAvg := Numeric.Mean(PastWindow(vol));
    if pastAvg <= 0.0 {
      return false;
    }
    Numeric.QuotientBelow(recentAvg, pastAvg, AccumRatio);
    pick := recentAvg / pastAvg >= AccumRatio;
  }

  /** `generate_c_volume_accum`: the list it writes. */
  method GenerateVolumeAccum(listings: seq<seq<string>>, frames: map<string, Frame>) returns (written: seq<string>)
    ensures written == Picked(Universe(listings), frames, AccumPick)
    ensures Text.NoDups(written)
    ensures forall y :: y in written <==> (exists l :: l in listings && y in l) && AccumPick(FrameOf(frames, y))
  {
    var symbols := Universe(listings);
    var picked: seq<string> := [];
    var i := 0;
    while i < |symbols|
      invariant 0 <= i <= |symbols|
      invariant picked == Picked(symbols[..i], frames, AccumPick)
    {
      assert symbols[..i + 1][..i] == symbols[..i];
      var pick := AccumCheck(FrameOf(frames, symbols[i]));
      if pick {
        picked := picked + [symbols[i]];
      }
      i := i + 1;
    }
    assert symbols[..i] == symbols;
    WrittenIsPicked(listings, frames, AccumPick);
    written := Text.Dedup(picked);
  }
}
