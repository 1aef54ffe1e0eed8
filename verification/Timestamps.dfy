/** The timestamp helpers of internal/importer/server/server.go. Timestamps are int64, so
    negation and multiplication wrap around and division truncates toward zero. */
module Timestamps {
  const MIN64: int := -0x8000_0000_0000_0000
  const MAX64: int := 0x7FFF_FFFF_FFFF_FFFF

  type int64 = x: int | MIN64 <= x <= MAX64

  /** The int64 that a result out of range turns into. */
  function Wrap(x: int): (r: int64)
    ensures MIN64 <= x <= MAX64 ==> r == x
  {
    var offset := (x - MIN64) % 0x1_0000_0000_0000_0000;
    assert 0 <= offset < 0x1_0000_0000_0000_0000;
    offset + MIN64
  }

  /** Division as Go does it. */
  function Quotient(v: int64, d: int): int
    requires d > 0
  {
    if v >= 0 then v / d else -((0 - v) / d)
  }

  datatype TimeUnit = Milliseconds | Seconds | Microseconds | Nanoseconds

  function Magnitude(v: int64): int64 { if v < 0 then Wrap(0 - v) else v }

  function DetectTimestampUnit(v: int64): TimeUnit {
    var abs := Magnitude(v);
    if abs < 1_000_000_000 then Milliseconds
    else if abs < 100_000_000_000 then Seconds
    else if abs < 100_000_000_000_000 then Milliseconds
    else if abs < 100_000_000_000_000_000 then Microseconds
    else Nanoseconds
  }

  function Scaled(v: int64, unit: TimeUnit): int64 {
    match unit
    case Milliseconds => v
    case Seconds => Wrap(v * 1000)
    case Microseconds => Quotient(v, 1000)
    case Nanoseconds => Quotient(v, 1_000_000)
  }

  /** The unit of a whole series is that of its middle timestamp. */
  function UnitOf(ts: seq<int64>): TimeUnit {
    if |ts| == 0 then Milliseconds else DetectTimestampUnit(ts[|ts| / 2])
  }

  function InMilliseconds(ts: seq<int64>): seq<int64> {
    var unit := UnitOf(ts);
    seq(|ts|, i requires 0 <= i < |ts| => Scaled(ts[i], unit))
  }

  method NormalizeTimestamps(ts: seq<int64>) returns (out: seq<int64>, scaled: bool)
    ensures out == InMilliseconds(ts) && scaled == (UnitOf(ts) != Milliseconds)
  {
    if |ts| == 0 {
      return ts, false;
    }
    var unit := DetectTimestampUnit(ts[|ts| / 2]);
    if unit == Milliseconds {
      assert ts == InMilliseconds(ts);
      return ts, false;
    }
    out, scaled := [], true;
    for i := 0 to |ts|
      invariant |out| == i
      invariant forall k :: 0 <= k < i ==> out[k] == Scaled(ts[k], unit)
    {
      var v := ts[i];
      match unit {
        case Seconds => out := out + [Wrap(v * 1000)];
        case Microseconds => out := out + [Quotient(v, 1000)];
        case Nanoseconds => out := out + [Quotient(v, 1_000_000)];
      }
    }
  }

  // ---- What normalising does ----

  /** Scaling a timestamp by its own unit gives a timestamp that is classed as milliseconds. */
  lemma ScaledIsMilliseconds(v: int64)
    ensures DetectTimestampUnit(Scaled(v, DetectTimestampUnit(v))) == Milliseconds
  {
    QuotientMeans(v, 1000);
    QuotientMeans(v, 1_000_000);
    var unit := DetectTimestampUnit(v);
    match unit
    case Seconds => assert Scaled(v, unit) == v * 1000;
    case _ =>
  }

  /** What is left of `v` is between zero and `v`, less than one unit away. */
  lemma QuotientMeans(v: int64, d: int)
    requires d == 1000 || d == 1_000_000
    ensures v >= 0 ==> 0 <= Quotient(v, d) && Quotient(v, d) * d <= v < Quotient(v, d) * d + d
    ensures v < 0 ==> Quotient(v, d) <= 0 && Quotient(v, d) * d - d < v <= Quotient(v, d) * d
  {
    if d == 1000 {
      assert v >= 0 ==> Quotient(v, 1000) == v / 1000;
      assert v < 0 ==> Quotient(v, 1000) == -((0 - v) / 1000);
    } else {
      assert v >= 0 ==> Quotient(v, 1_000_000) == v / 1_000_000;
      assert v < 0 ==> Quotient(v, 1_000_000) == -((0 - v) / 1_000_000);
    }
  }

  /** Normalising twice is normalising once. Only the middle timestamp decides, so this holds
      even where other timestamps are of another unit or wrap around. */
  lemma NormalizeIdempotent(ts: seq<int64>)
    ensures UnitOf(InMilliseconds(ts)) == Milliseconds
    ensures InMilliseconds(InMilliseconds(ts)) == InMilliseconds(ts)
  {
    if |ts| > 0 { ScaledIsMilliseconds(ts[|ts| / 2]); }
  }

  /** No timestamp leaves int64 when scaled. */
  predicate ScalesExactly(ts: seq<int64>) {
    UnitOf(ts).Seconds? ==> forall i :: 0 <= i < |ts| ==> MIN64 <= ts[i] * 1000 <= MAX64
  }

  predicate Sorted(ts: seq<int64>) { forall i, j :: 0 <= i < j < |ts| ==> ts[i] <= ts[j] }

  lemma QuotientMonotone(a: int64, b: int64, d: int)
    requires (d == 1000 || d == 1_000_000) && a <= b
    ensures Quotient(a, d) <= Quotient(b, d)
  {
    QuotientMeans(a, d);
    QuotientMeans(b, d);
    if d == 1000 {
      assert Quotient(a, 1000) <= Quotient(b, 1000);
    } else {
      assert Quotient(a, 1_000_000) <= Quotient(b, 1_000_000);
    }
  }

  /** Length and order survive normalising when nothing overflows. */
  lemma NormalizeKeepsOrder(ts: seq<int64>)
    requires ScalesExactly(ts)
    ensures |InMilliseconds(ts)| == |ts|
    ensures Sorted(ts) ==> Sorted(InMilliseconds(ts))
  {
    if Sorted(ts) {
      forall i, j | 0 <= i < j < |ts| ensures InMilliseconds(ts)[i] <= InMilliseconds(ts)[j] {
        QuotientMonotone(ts[i], ts[j], 1000);
        QuotientMonotone(ts[i], ts[j], 1_000_000);
      }
    }
  }

  /** In a series of seconds every timestamp becomes its exact multiple exactly when nothing
      overflows. */
  lemma ScaledExactlyIff(ts: seq<int64>)
    requires UnitOf(ts).Seconds?
    ensures (forall i :: 0 <= i < |ts| ==> InMilliseconds(ts)[i] == ts[i] as int * 1000) <==> ScalesExactly(ts)
  {
    forall i | 0 <= i < |ts|
      ensures InMilliseconds(ts)[i] == ts[i] as int * 1000 <==> MIN64 <= ts[i] as int * 1000 <= MAX64
    {
      assert InMilliseconds(ts)[i] == Wrap(ts[i] as int * 1000);
    }
  }

  /** Where it does overflow, order may be lost. */
  lemma OverflowLosesOrder()
    ensures var ts := [1, 10_000_000_000, MAX64]; Sorted(ts) && !Sorted(InMilliseconds(ts))
  {
    var ts := [1, 10_000_000_000, MAX64];
    assert UnitOf(ts) == Seconds;
    assert InMilliseconds(ts)[1] == 10_000_000_000_000 && InMilliseconds(ts)[2] == -1000;
  }

  // ---- The retention filter ----

  datatype Filtered<V> = Filtered(timestamps: seq<int64>, values: seq<V>, dropped: nat)

  /** The positions at or above the cutoff, in order. */
  function Recent(ts: seq<int64>, cutoff: int64): seq<nat> {
    if |ts| == 0 then []
    else
      var before := Recent(ts[..|ts| - 1], cutoff);
      if ts[|ts| - 1] < cutoff then before else before + [|ts| - 1]
  }

  lemma {:induction false} RecentMeans(ts: seq<int64>, cutoff: int64)
    ensures forall k :: 0 <= k < |Recent(ts, cutoff)| ==> Recent(ts, cutoff)[k] < |ts|
    ensures forall j, k :: 0 <= j < k < |Recent(ts, cutoff)| ==> Recent(ts, cutoff)[j] < Recent(ts, cutoff)[k]
    ensures forall i :: 0 <= i < |ts| ==> (i in Recent(ts, cutoff) <==> ts[i] >= cutoff)
    ensures |Recent(ts, cutoff)| <= |ts|
  {
    if |ts| > 0 { RecentMeans(ts[..|ts| - 1], cutoff); }
  }

  function Pick<T>(s: seq<T>, positions: seq<nat>): seq<T>
    requires forall k :: 0 <= k < |positions| ==> positions[k] < |s|
  {
    seq(|positions|, k requires 0 <= k < |positions| => s[positions[k]])
  }

  function FilterSpec<V>(ts: seq<int64>, values: seq<V>, cutoff: int64): Filtered<V> {
    if cutoff <= 0 then Filtered(ts, values, 0)
    else if |ts| != |values| then Filtered([], [], |ts|)
    else
      RecentMeans(ts, cutoff);
      var kept := Recent(ts, cutoff);
      Filtered(Pick(ts, kept), Pick(values, kept), |ts| - |kept|)
  }

  method FilterTimestampsAndValues<V>(timestamps: seq<int64>, values: seq<V>, cutoffMs: int64)
    returns (keptTs: seq<int64>, keptVals: seq<V>, dropped: nat)
    ensures Filtered(keptTs, keptVals, dropped) == FilterSpec(timestamps, values, cutoffMs)
  {
    if cutoffMs <= 0 {
      return timestamps, values, 0;
    }
    if |timestamps| != |values| {
      return [], [], |timestamps|;
    }
    keptTs, keptVals, dropped := [], [], 0;
    for i := 0 to |timestamps|
      invariant FilterSpec(timestamps[..i], values[..i], cutoffMs) == Filtered(keptTs, keptVals, dropped)
    {
      FilterGrows(timestamps[..i], values[..i], cutoffMs, timestamps[i], values[i]);
      assert timestamps[..i + 1] == timestamps[..i] + [timestamps[i]] && values[..i + 1] == values[..i] + [values[i]];
      if timestamps[i] < cutoffMs {
        dropped := dropped + 1;
        continue;
      }
      keptTs := keptTs + [timestamps[i]];
      keptVals := keptVals + [values[i]];
    }
    assert timestamps[..|timestamps|] == timestamps && values[..|values|] == values;
  }

  lemma FilterGrows<V>(ts: seq<int64>, values: seq<V>, cutoff: int64, t: int64, v: V)
    requires cutoff > 0 && |ts| == |values|
    ensures var f := FilterSpec(ts, values, cutoff);
            FilterSpec(ts + [t], values + [v], cutoff) ==
            if t < cutoff then f.(dropped := f.dropped + 1)
            else f.(timestamps := f.timestamps + [t], values := f.values + [v])
  {
    RecentMeans(ts, cutoff);
    RecentMeans(ts + [t], cutoff);
    assert (ts + [t])[..|ts|] == ts;
  }

  /** Kept and dropped add up. Without a cutoff everything is kept, and under one nothing of a
      series whose timestamps and values do not match in number. Of any other series the filter
      keeps exactly the pairs at or above the cutoff, in order. */
  lemma FilterKeepsExactlyRecent<V>(ts: seq<int64>, values: seq<V>, cutoff: int64)
    ensures var f := FilterSpec(ts, values, cutoff);
            && |f.timestamps| + f.dropped == |ts|
            && (cutoff <= 0 ==> f == Filtered(ts, values, 0))
            && (cutoff > 0 && |ts| != |values| ==> f == Filtered([], [], |ts|))
            && (|ts| == |values| ==> exists at: seq<nat> :: PicksRecent(at, ts, values, cutoff, f))
  {
    if |ts| == |values| {
      if cutoff > 0 {
        RecentMeans(ts, cutoff);
        assert PicksRecent(Recent(ts, cutoff), ts, values, cutoff, FilterSpec(ts, values, cutoff));
      } else {
        var all: seq<nat> := seq(|ts|, i => i);
        forall i | 0 <= i < |ts| ensures i in all { assert all[i] == i; }
        assert PicksRecent(all, ts, values, cutoff, FilterSpec(ts, values, cutoff));
      }
    }
  }

  /** `at` are the increasing positions of the pairs that `f` keeps: all of them that are recent. */
  ghost predicate PicksRecent<V>(at: seq<nat>, ts: seq<int64>, values: seq<V>, cutoff: int64, f: Filtered<V>)
    requires |ts| == |values|
  {
    && |at| == |f.timestamps| == |f.values|
    && (forall k :: 0 <= k < |at| ==> at[k] < |ts| && f.timestamps[k] == ts[at[k]] && f.values[k] == values[at[k]])
    && (forall j, k :: 0 <= j < k < |at| ==> at[j] < at[k])
    && (forall i :: 0 <= i < |ts| ==> (i in at <==> cutoff <= 0 || ts[i] >= cutoff))
  }

  // ---- Normalising, filtering, normalising again ----

  /** Every timestamp is classed as milliseconds. */
  predicate AllMilliseconds(ts: seq<int64>) { forall i :: 0 <= i < |ts| ==> DetectTimestampUnit(ts[i]) == Milliseconds }

  /** Millisecond timestamps pass the normalising before the filter and the one after it unchanged. */
  lemma MillisecondsPassUnchanged<V>(ts: seq<int64>, values: seq<V>, cutoff: int64)
    requires AllMilliseconds(ts)
    ensures InMilliseconds(ts) == ts
    ensures var f := FilterSpec(ts, values, cutoff); InMilliseconds(f.timestamps) == f.timestamps
  {
    if cutoff > 0 && |ts| == |values| { FilterKeepsMilliseconds(ts, values, cutoff); }
  }

  lemma FilterKeepsMilliseconds<V>(ts: seq<int64>, values: seq<V>, cutoff: int64)
    requires AllMilliseconds(ts) && |ts| == |values| && cutoff > 0
    ensures AllMilliseconds(FilterSpec(ts, values, cutoff).timestamps)
  {
    RecentMeans(ts, cutoff);
  }

  /** Normalising does nothing exactly to a series whose middle timestamp is in milliseconds. */
  lemma NormalizeIdleIff(ts: seq<int64>)
    ensures InMilliseconds(ts) == ts <==> UnitOf(ts) == Milliseconds
  {
    var m := |ts| / 2;
    if |ts| > 0 && UnitOf(ts) != Milliseconds {
      QuotientMeans(ts[m], 1000);
      QuotientMeans(ts[m], 1_000_000);
      assert InMilliseconds(ts)[m] != ts[m];
    }
  }

  /** The middle one of the timestamps at or above the cutoff, if there are any, is in
      milliseconds. */
  predicate MiddleRecentIsMilliseconds(ts: seq<int64>, cutoff: int64) {
    RecentMeans(ts, cutoff);
    var recent := Recent(ts, cutoff);
    |recent| == 0 || DetectTimestampUnit(ts[recent[|recent| / 2]]) == Milliseconds
  }

  /** The normalising after the filter leaves everything alone exactly if there is no cutoff,
      or timestamps and values do not match in number, or the middle one of the normalised
      timestamps that pass the filter is in milliseconds. */
  lemma SecondNormalizationIdleIff<V>(ts: seq<int64>, values: seq<V>, cutoff: int64)
    ensures var f := FilterSpec(InMilliseconds(ts), values, cutoff);
            InMilliseconds(f.timestamps) == f.timestamps <==>
            cutoff <= 0 || |ts| != |values| || MiddleRecentIsMilliseconds(InMilliseconds(ts), cutoff)
  {
    var f := FilterSpec(InMilliseconds(ts), values, cutoff);
    NormalizeIdempotent(ts);
    NormalizeIdleIff(f.timestamps);
    RecentMeans(InMilliseconds(ts), cutoff);
  }

  /** One case in which it does not: the filter moves the middle, and a millisecond timestamp
      from January 1970 is then taken for seconds. */
  lemma FilterMayRescale()
    ensures var f := FilterSpec(InMilliseconds([1, 2, 2_000_000_000]), ["a", "b", "c"], 1_000_000_000);
            f.timestamps == [2_000_000_000] && InMilliseconds(f.timestamps) == [2_000_000_000_000]
  {
    var ts: seq<int64> := [1, 2, 2_000_000_000];
    assert UnitOf(ts) == Milliseconds;
    assert InMilliseconds(ts) == ts;
    FilterGrows(ts[..0], ["a", "b", "c"][..0], 1_000_000_000, 1, "a");
    assert ts[..0] + [1] == ts[..1];
    FilterGrows(ts[..1], ["a"], 1_000_000_000, 2, "b");
    assert ts[..1] + [2] == ts[..2];
    FilterGrows(ts[..2], ["a"] + ["b"], 1_000_000_000, 2_000_000_000, "c");
    assert ts[..2] + [2_000_000_000] == ts && ["a"] + ["b"] + ["c"] == ["a", "b", "c"];
    assert FilterSpec(ts, ["a", "b", "c"], 1_000_000_000).timestamps == [2_000_000_000];
  }

  // ---- Dates ----

  /** The same instant, `x` in milliseconds, is recognised in each of the four units. */
  predicate Recognised(x: int64)
    requires 0 <= x <= 9_000_000_000_000
  {
    && DetectTimestampUnit(Quotient(x, 1000)).Seconds? && DetectTimestampUnit(x).Milliseconds?
    && DetectTimestampUnit(x * 1000).Microseconds? && DetectTimestampUnit(x * 1_000_000).Nanoseconds?
  }

  /** An instant after 1970 is recognised in each unit exactly if it is from September 2001 or later:
      in seconds it is then taken for milliseconds, and in the finer units already from 1973 on
      for what it is. */
  lemma RecognisedIff(x: int64)
    requires 0 <= x <= 9_000_000_000_000
    ensures DetectTimestampUnit(Quotient(x, 1000)).Seconds? <==> x >= 1_000_000_000_000
    ensures DetectTimestampUnit(x).Milliseconds? <==> x < 1_000_000_000 || x >= 100_000_000_000
    ensures DetectTimestampUnit(x * 1000).Microseconds? <==> x >= 100_000_000_000
    ensures DetectTimestampUnit(x * 1_000_000).Nanoseconds? <==> x >= 100_000_000_000
    ensures Recognised(x) <==> x >= 1_000_000_000_000
  {
    assert Quotient(x, 1000) == x / 1000;
  }

  /** A date that is recognised becomes the same milliseconds from every unit, to the second from
      seconds. */
  lemma DatesAgree(x: int64)
    requires 0 <= x <= 9_000_000_000_000 && Recognised(x)
    ensures InMilliseconds([x]) == InMilliseconds([x * 1000]) == InMilliseconds([x * 1_000_000]) == [x]
    ensures InMilliseconds([Quotient(x, 1000)]) == [x - x % 1000]
  {
    assert Quotient(x, 1000) == x / 1000 && x / 1000 * 1000 == x - x % 1000;
    assert Quotient(x * 1000, 1000) == (x * 1000) / 1000 == x;
    assert Quotient(x * 1_000_000, 1_000_000) == (x * 1_000_000) / 1_000_000 == x;
  }
}
