/** internal/application/services/batching.go, and the one-hour chunk loop of
    export_service.go, which cuts a range in the same way. */
module Batching {
  import opened Domain

  const MIN_BATCH: int := 30 * SECOND
  const MAX_BATCH: int := 24 * HOUR
  const CHUNK: int := HOUR

  function RecommendedInterval(duration: int): (interval: int)
    ensures interval == 30 * SECOND || interval == MINUTE || interval == 5 * MINUTE
    ensures interval > 30 * SECOND <==> duration > 15 * MINUTE
    ensures interval > MINUTE <==> duration > 6 * HOUR
  {
    if duration <= 15 * MINUTE then 30 * SECOND
    else if duration <= 6 * HOUR then MINUTE
    else 5 * MINUTE
  }

  /** A configured interval is used, or the nearest one within the limits; else a recommended one. */
  function SelectBatchInterval(tr: TimeRange, settings: BatchSettings): (interval: int)
    ensures MIN_BATCH <= interval <= MAX_BATCH
    ensures settings.customIntervalSecs > 0 ==>
              forall x :: MIN_BATCH <= x <= MAX_BATCH ==>
                Distance(interval, settings.customIntervalSecs * SECOND)
                <= Distance(x, settings.customIntervalSecs * SECOND)
    ensures settings.customIntervalSecs <= 0 ==> interval == RecommendedInterval(tr.Duration())
  {
    if settings.customIntervalSecs > 0 then
      var custom := settings.customIntervalSecs * SECOND;
      if custom < MIN_BATCH then MIN_BATCH else if custom > MAX_BATCH then MAX_BATCH else custom
    else
      RecommendedInterval(tr.Duration())
  }

  function Distance(x: int, y: int): int { if x <= y then y - x else x - y }

  /** One sample for every recommended batch interval. */
  function RecommendedMetricStepSeconds(tr: TimeRange): (step: int)
    ensures step == 30 || step == 60 || step == 300
    ensures step * SECOND == if tr.start < tr.end then RecommendedInterval(tr.Duration()) else MIN_BATCH
  {
    if tr.end <= tr.start then 30 else RecommendedInterval(tr.Duration()) / SECOND
  }

  /** The windows of width `width` that cover [lo, hi), the last one cut short. */
  function Cut(lo: int, hi: int, width: int): seq<TimeRange>
    requires width > 0
    decreases hi - lo
  {
    if lo >= hi then [] else
      var next := Min(lo + width, hi);
      [TimeRange(lo, next)] + Cut(next, hi, width)
  }

  function BatchWindows(tr: TimeRange, settings: BatchSettings): seq<TimeRange> {
    if tr.end <= tr.start || !settings.enabled then [tr]
    else Cut(tr.start, tr.end, SelectBatchInterval(tr, settings))
  }

  /** The sub-ranges one query_range attempt asks for, in order. */
  function Chunks(tr: TimeRange): seq<TimeRange> { Cut(tr.start, tr.end, CHUNK) }

  /** `ws` runs from `lo` to `hi` in order, without gap, overlap or empty window. */
  ghost predicate Chain(ws: seq<TimeRange>, lo: int, hi: int) {
    if |ws| == 0 then lo == hi
    else ws[0].start == lo && lo < ws[0].end && Chain(ws[1..], ws[0].end, hi)
  }

  lemma {:induction false} ChainAppend(a: seq<TimeRange>, b: seq<TimeRange>, lo: int, mid: int, hi: int)
    requires Chain(a, lo, mid) && Chain(b, mid, hi)
    ensures Chain(a + b, lo, hi)
  {
    if |a| == 0 {
      assert a + b == b;
    } else {
      assert (a + b)[0] == a[0] && (a + b)[1..] == a[1..] + b;
      ChainAppend(a[1..], b, a[0].end, mid, hi);
    }
  }

  /** Cutting loses nothing: a chain over the whole range, every window at most `width` wide
      and every window but the last exactly that. */
  lemma {:induction false} CutIsChain(lo: int, hi: int, width: int)
    requires width > 0 && lo <= hi
    ensures Chain(Cut(lo, hi, width), lo, hi)
    ensures forall w :: w in Cut(lo, hi, width) ==> w.Duration() <= width
    ensures forall i :: 0 <= i < |Cut(lo, hi, width)| - 1 ==> Cut(lo, hi, width)[i].Duration() == width
    decreases hi - lo
  {
    if lo < hi {
      var next := Min(lo + width, hi);
      CutIsChain(next, hi, width);
      var rest := Cut(next, hi, width);
      var ws := Cut(lo, hi, width);
      assert ws[0] == TimeRange(lo, next) && ws[1..] == rest;
      forall i | 0 <= i < |ws| - 1 ensures ws[i].Duration() == width {
        if i > 0 { assert ws[i] == rest[i - 1]; }
      }
    }
  }

  /** What is left of a chain is a chain from where it starts. */
  lemma {:induction false} ChainFrom(ws: seq<TimeRange>, lo: int, hi: int, k: nat)
    requires k < |ws| && Chain(ws, lo, hi)
    ensures Chain(ws[k..], ws[k].start, hi) && ws[k].start < hi && (k == 0 ==> ws[k].start == lo)
  {
    if k == 0 {
      ChainBounds(ws[1..], ws[0].end, hi);
      assert ws[0..] == ws;
    } else {
      ChainFrom(ws[1..], ws[0].end, hi, k - 1);
      assert ws[1..][k - 1..] == ws[k..];
    }
  }

  lemma BatchWindowsTile(tr: TimeRange, settings: BatchSettings)
    ensures |BatchWindows(tr, settings)| >= 1
    ensures tr.start < tr.end ==> Chain(BatchWindows(tr, settings), tr.start, tr.end)
    ensures tr.start < tr.end && settings.enabled ==>
              forall w :: w in BatchWindows(tr, settings) ==> w.Duration() <= SelectBatchInterval(tr, settings)
    ensures tr.start < tr.end && settings.enabled ==>
              forall k :: 0 <= k < |BatchWindows(tr, settings)| - 1 ==>
                BatchWindows(tr, settings)[k].Duration() == SelectBatchInterval(tr, settings)
    ensures !settings.enabled || tr.end <= tr.start ==> BatchWindows(tr, settings) == [tr]
  {
    if tr.start < tr.end {
      if settings.enabled {
        CutIsChain(tr.start, tr.end, SelectBatchInterval(tr, settings));
      } else {
        assert [tr][1..] == [];
      }
    }
  }

  /** How many windows of `ws` hold the instant `x`. */
  function Covering(ws: seq<TimeRange>, x: int): nat {
    if |ws| == 0 then 0 else (if ws[0].Contains(x) then 1 else 0) + Covering(ws[1..], x)
  }

  lemma {:induction false} ChainBounds(ws: seq<TimeRange>, lo: int, hi: int)
    requires Chain(ws, lo, hi)
    ensures lo <= hi
  {
    if |ws| > 0 { ChainBounds(ws[1..], ws[0].end, hi); }
  }

  /** A chain is a partition: each instant of [lo, hi) lies in exactly one window and no
      other instant lies in any. */
  lemma {:induction false} ChainPartitions(ws: seq<TimeRange>, lo: int, hi: int, x: int)
    requires Chain(ws, lo, hi)
    ensures Covering(ws, x) == if lo <= x < hi then 1 else 0
  {
    ChainBounds(ws, lo, hi);
    if |ws| > 0 {
      ChainBounds(ws[1..], ws[0].end, hi);
      ChainPartitions(ws[1..], ws[0].end, hi, x);
    }
  }

  /** The whole second an instant falls in, as sent to the server. */
  function UnixSecond(t: int): int { t / SECOND }

  ghost predicate AsksForSecond(w: TimeRange, s: int) { UnixSecond(w.start) <= s <= UnixSecond(w.end) }

  ghost predicate SomeAskFor(ws: seq<TimeRange>, s: int) { exists w :: w in ws && AsksForSecond(w, s) }

  /** Truncating the endpoints of a chain to seconds still asks for every second in between. */
  lemma {:induction false} ChainAsksForEverySecond(ws: seq<TimeRange>, lo: int, hi: int, s: int)
    requires Chain(ws, lo, hi) && |ws| > 0
    requires UnixSecond(lo) <= s <= UnixSecond(hi)
    ensures SomeAskFor(ws, s)
  {
    if |ws| == 1 || s <= UnixSecond(ws[0].end) {
      assert ws[0] in ws && AsksForSecond(ws[0], s);
    } else {
      ChainAsksForEverySecond(ws[1..], ws[0].end, hi, s);
      var w :| w in ws[1..] && AsksForSecond(w, s);
      assert w in ws;
    }
  }

  /** The requests made when each window of `ws` is read through query_range. */
  function ChunksOf(ws: seq<TimeRange>): seq<TimeRange> {
    if |ws| == 0 then [] else Chunks(ws[0]) + ChunksOf(ws[1..])
  }

  lemma {:induction false} ChunksOfAppend(a: seq<TimeRange>, b: seq<TimeRange>)
    ensures ChunksOf(a + b) == ChunksOf(a) + ChunksOf(b)
  {
    if |a| == 0 {
      assert a + b == b;
    } else {
      assert (a + b)[0] == a[0] && (a + b)[1..] == a[1..] + b;
      ChunksOfAppend(a[1..], b);
    }
  }

  /** Cutting every window of a chain into chunks gives a finer chain over the same range,
      each request at most one hour. */
  lemma {:induction false} ChunksOfChain(ws: seq<TimeRange>, lo: int, hi: int)
    requires Chain(ws, lo, hi)
    ensures Chain(ChunksOf(ws), lo, hi)
    ensures forall c :: c in ChunksOf(ws) ==> c.Duration() <= CHUNK
  {
    if |ws| > 0 {
      CutIsChain(ws[0].start, ws[0].end, CHUNK);
      ChunksOfChain(ws[1..], ws[0].end, hi);
      ChainAppend(Chunks(ws[0]), ChunksOf(ws[1..]), lo, ws[0].end, hi);
    }
  }

  /** CalculateBatchWindows: the loop that moves `current` over the range. */
  method CalculateBatchWindows(tr: TimeRange, settings: BatchSettings) returns (windows: seq<TimeRange>)
    ensures windows == BatchWindows(tr, settings)
  {
    if tr.end <= tr.start || !settings.enabled {
      return [tr];
    }
    var width := SelectBatchInterval(tr, settings);
    windows := [];
    var current := tr.start;
    while current < tr.end
      invariant tr.start <= current <= tr.end
      invariant windows + Cut(current, tr.end, width) == Cut(tr.start, tr.end, width)
      decreases tr.end - current
    {
      var next := current + width;
      if next > tr.end {
        next := tr.end;
      }
      assert Cut(current, tr.end, width) == [TimeRange(current, next)] + Cut(next, tr.end, width);
      windows := windows + [TimeRange(current, next)];
      current := next;
    }
  }
}
