/** What the importer does with one line of a bundle, in streamImport and in the preflight
    (internal/importer/server/server.go). Decoding and encoding JSON are parameters. */
module ImportLines {
  import opened Domain
  import opened Timestamps

  type Labels = map<string, string>

  /** A sample value; JSON cannot encode the ones that are not finite. */
  datatype Value = Finite(number: real) | NotFinite

  /** A decoded line. `metric` is None when the line carries none; a value is None when it is
      neither a number nor a string or boolean that stands for one. */
  datatype Parsed = Parsed(metric: Option<Labels>, values: seq<Option<Value>>, timestamps: seq<int64>)

  datatype Codec = Codec(
    parse: string -> Option<Parsed>,
    marshal: (Option<Labels>, seq<Value>, seq<int64>) -> string)

  datatype Settings = Settings(drop: set<string>, maxLabels: int, cutoff: int64, shift: int64, maxChunk: nat)

  const MAX_IMPORT_CHUNK: nat := 512 * 1024

  const PROTECTED: set<string> := {"__name__", "job", "instance"}

  function FilterMetricLabels(metric: Labels, drop: set<string>): Labels {
    map k | k in metric && (k in PROTECTED || k !in drop) :: metric[k]
  }

  function FilteredMetric(metric: Option<Labels>, drop: set<string>): Option<Labels> {
    if metric.None? then None else Some(FilterMetricLabels(metric.value, drop))
  }

  method FilterMetric(metric: Option<Labels>, drop: set<string>) returns (filtered: Option<Labels>)
    ensures filtered == FilteredMetric(metric, drop)
  {
    if metric.None? || metric.value == map[] || drop == {} {
      assert metric.Some? ==> metric.value == FilterMetricLabels(metric.value, drop);
      return metric;
    }
    var source := metric.value;
    var kept: Labels := map[];
    var rest := source.Keys;
    while rest != {}
      invariant rest <= source.Keys
      invariant forall k :: k in kept <==> k in source && k !in rest && (k in PROTECTED || k !in drop)
      invariant forall k :: k in kept ==> kept[k] == source[k]
      decreases |rest|
    {
      var key :| key in rest;
      rest := rest - {key};
      if key in PROTECTED {
        kept := kept[key := source[key]];
        continue;
      }
      if key in drop {
        continue;
      }
      kept := kept[key := source[key]];
    }
    assert kept == FilterMetricLabels(source, drop);
    return Some(kept);
  }

  predicate AllUsable(raw: seq<Option<Value>>) { forall i :: 0 <= i < |raw| ==> raw[i].Some? }

  function Values(raw: seq<Option<Value>>): Option<seq<Value>> {
    if AllUsable(raw) then Some(seq(|raw|, i requires 0 <= i < |raw| => raw[i].value)) else None
  }

  method NormalizeValues(raw: seq<Option<Value>>) returns (values: Option<seq<Value>>)
    ensures values == Values(raw)
  {
    var out: seq<Value> := [];
    for i := 0 to |raw|
      invariant |out| == i
      invariant forall k :: 0 <= k < i ==> raw[k].Some? && raw[k].value == out[k]
    {
      if raw[i].None? {
        return None;
      }
      out := out + [raw[i].value];
    }
    assert AllUsable(raw) && out == seq(|raw|, i requires 0 <= i < |raw| => raw[i].value);
    return Some(out);
  }

  function Shifted(ts: seq<int64>, shift: int64): seq<int64> {
    seq(|ts|, i requires 0 <= i < |ts| => Wrap(ts[i] + shift))
  }

  // ---- One line ----

  datatype Counters = Counters(
    skipped: nat, droppedOld: nat, analyzed: nat, maxLabelsSeen: nat, overLimit: nat, overLimitPoints: nat)
  {
    function Plus(c: Counters): Counters {
      Counters(skipped + c.skipped, droppedOld + c.droppedOld, analyzed + c.analyzed,
               Max(maxLabelsSeen, c.maxLabelsSeen),
               overLimit + c.overLimit, overLimitPoints + c.overLimitPoints)
    }

    function Skip(): Counters { this.(skipped := skipped + 1) }
  }

  const NOTHING: Counters := Counters(0, 0, 0, 0, 0, 0)

  /** What the remote gets for a line, without the line end. */
  datatype Sent = Sent(text: string, points: nat)

  datatype Effect = Effect(counters: Counters, sent: Option<Sent>)

  function CountLabels(p: Parsed, metric: Option<Labels>, maxLabels: int): Counters {
    var n := if metric.None? then 0 else |metric.value|;
    if maxLabels > 0 && n > maxLabels then Counters(0, 0, 1, n, 1, |p.timestamps|) else Counters(0, 0, 1, n, 0, 0)
  }

  /** The loop that shifts the timestamps in place. */
  method ShiftTimestamps(ts: seq<int64>, shift: int64) returns (out: seq<int64>)
    ensures out == Shifted(ts, shift)
  {
    out := ts;
    if shift != 0 {
      for i := 0 to |ts|
        invariant |out| == |ts|
        invariant forall k :: 0 <= k < i ==> out[k] == Wrap(ts[k] + shift)
        invariant forall k :: i <= k < |ts| ==> out[k] == ts[k]
      {
        out := out[i := Wrap(out[i] + shift)];
      }
    }
  }

  /** The line that is sent for the samples the filter kept, if there are any. */
  function Encode(codec: Codec, settings: Settings, metric: Option<Labels>, f: Filtered<Value>): Option<Sent> {
    if |f.timestamps| == 0 || |f.timestamps| != |f.values| || NotFinite in f.values then None
    else
      var ts := Shifted(InMilliseconds(f.timestamps), settings.shift);
      Some(Sent(codec.marshal(metric, f.values, ts), |ts|))
  }

  /** What is done with the samples the filter kept. */
  method EncodeKept(codec: Codec, settings: Settings, metric: Option<Labels>, f: Filtered<Value>)
    returns (sent: Option<Sent>)
    ensures sent == Encode(codec, settings, metric, f)
  {
    if |f.timestamps| == 0 || |f.timestamps| != |f.values| {
      return None;
    }
    var timestamps, _ := NormalizeTimestamps(f.timestamps);
    timestamps := ShiftTimestamps(timestamps, settings.shift);
    if NotFinite in f.values {
      return None;
    }
    return Some(Sent(codec.marshal(metric, f.values, timestamps), |timestamps|));
  }

  /** streamImport: the timestamps are normalised before the filter. */
  function ImportLine(codec: Codec, settings: Settings, line: string): Effect {
    match codec.parse(line)
    case None => Effect(NOTHING.Skip(), None)
    case Some(p) =>
      var metric := FilteredMetric(p.metric, settings.drop);
      var c := CountLabels(p, metric, settings.maxLabels);
      match Values(p.values)
      case None => Effect(c.Skip(), None)
      case Some(values) =>
        var f := FilterSpec(InMilliseconds(p.timestamps), values, settings.cutoff);
        var d := c.(droppedOld := f.dropped);
        match Encode(codec, settings, metric, f)
        case None => Effect(d.Skip(), None)
        case Some(sent) => Effect(d, Some(sent))
  }

  method DecodeAndFilter(codec: Codec, settings: Settings, line: string) returns (e: Effect)
    ensures e == ImportLine(codec, settings, line)
  {
    var decoded := codec.parse(line);
    if decoded.None? {
      return Effect(NOTHING.Skip(), None);
    }
    var parsed := decoded.value;
    var metric := FilterMetric(parsed.metric, settings.drop);
    var counted := CountLabels(parsed, metric, settings.maxLabels);
    var timestamps, _ := NormalizeTimestamps(parsed.timestamps);
    var values := NormalizeValues(parsed.values);
    if values.None? {
      return Effect(counted.Skip(), None);
    }
    var keptTs, keptVals, dropped := FilterTimestampsAndValues(timestamps, values.value, settings.cutoff);
    counted := counted.(droppedOld := dropped);
    var sent := EncodeKept(codec, settings, metric, Filtered(keptTs, keptVals, dropped));
    return Effect(if sent.None? then counted.Skip() else counted, sent);
  }

  /** A line is sent or counted as skipped, never both and never neither; a sent line has the
      samples that were not dropped. */
  lemma SentOrSkipped(codec: Codec, settings: Settings, line: string)
    ensures var e := ImportLine(codec, settings, line);
            && e.counters.skipped == (if e.sent.Some? then 0 else 1)
            && (e.sent.Some? ==>
               codec.parse(line).Some?
                 && 0 < e.sent.value.points == |codec.parse(line).value.timestamps| - e.counters.droppedOld)
  {
    match codec.parse(line)
    case None =>
    case Some(p) =>
      if Values(p.values).Some? {
        FilterKeepsExactlyRecent(InMilliseconds(p.timestamps), Values(p.values).value, settings.cutoff);
      }
  }

  /** The samples that pass the filter: there are some, and all can be encoded. */
  ghost predicate Sendable(f: Filtered<Value>) { |f.timestamps| > 0 && NotFinite !in f.values }

  /** `out` is `ts` moved by `shift`: exactly, wherever that does not overflow, and else as int64
      addition wraps around. */
  ghost predicate MovedBy(out: seq<int64>, ts: seq<int64>, shift: int64) {
    && |out| == |ts|
    && (forall k :: 0 <= k < |ts| ==> MIN64 <= ts[k] + shift <= MAX64 ==> out[k] == ts[k] + shift)
    && (forall k :: 0 <= k < |ts| ==> (out[k] - (ts[k] + shift)) % 0x1_0000_0000_0000_0000 == 0)
  }

  lemma WrapIsCongruent(x: int)
    ensures (Wrap(x) - x) % 0x1_0000_0000_0000_0000 == 0
  {
    var k := (x - MIN64) / 0x1_0000_0000_0000_0000;
    assert Wrap(x) - x == 0x1_0000_0000_0000_0000 * (0 - k);
  }

  lemma ShiftedIsMoved(ts: seq<int64>, shift: int64)
    ensures MovedBy(Shifted(ts, shift), ts, shift)
    ensures shift == 0 ==> Shifted(ts, shift) == ts
  {
    forall k | 0 <= k < |ts| ensures (Shifted(ts, shift)[k] - (ts[k] + shift)) % 0x1_0000_0000_0000_0000 == 0 {
      WrapIsCongruent(ts[k] + shift);
    }
  }

  /** What is sent of a line: its labels without the dropped ones, and exactly its samples at
      or above the cutoff, in order, moved by the shift. It is sent exactly when it has as many
      values as timestamps and there are such samples, all of them finite. */
  lemma SentCarriesRecent(codec: Codec, settings: Settings, line: string, p: Parsed, values: seq<Value>)
    requires codec.parse(line) == Some(p) && Values(p.values) == Some(values)
    ensures |p.timestamps| != |values| ==> ImportLine(codec, settings, line).sent.None?
    ensures |p.timestamps| == |values| ==> exists at: seq<nat>, f: Filtered<Value>, out: seq<int64> ::
              && PicksRecent(at, InMilliseconds(p.timestamps), values, settings.cutoff, f)
              && MovedBy(out, InMilliseconds(f.timestamps), settings.shift)
              && ImportLine(codec, settings, line).counters.droppedOld == |p.timestamps| - |f.timestamps|
              && (var sent := ImportLine(codec, settings, line).sent;
                  && (sent.Some? <==> Sendable(f))
                  && (sent.Some? ==> sent.value.points == |out|
                                     && sent.value.text ==
                                        codec.marshal(FilteredMetric(p.metric, settings.drop), f.values, out)))
  {
    var ts := InMilliseconds(p.timestamps);
    FilterKeepsExactlyRecent(ts, values, settings.cutoff);
    var f := FilterSpec(ts, values, settings.cutoff);
    if |ts| == |values| {
      var at: seq<nat> :| PicksRecent(at, ts, values, settings.cutoff, f);
      ShiftedIsMoved(InMilliseconds(f.timestamps), settings.shift);
    }
  }

  /** A decoded line is counted once, with the labels that are not dropped; it is over a limit
      exactly if there is one and it has more labels than that, and then with all its samples. */
  lemma LabelsAreCounted(codec: Codec, settings: Settings, line: string, p: Parsed)
    requires codec.parse(line) == Some(p)
    ensures var c := ImportLine(codec, settings, line).counters;
            var kept := set k | p.metric.Some? && k in p.metric.value
                                && (k in {"__name__", "job", "instance"} || k !in settings.drop);
            && c.analyzed == 1 && c.maxLabelsSeen == |kept|
            && (c.overLimit == 1 <==> 0 < settings.maxLabels < |kept|) && c.overLimit <= 1
            && c.overLimitPoints == if 0 < settings.maxLabels < |kept| then |p.timestamps| else 0
  {
    var kept := set k | p.metric.Some? && k in p.metric.value
                        && (k in {"__name__", "job", "instance"} || k !in settings.drop);
    if p.metric.Some? { assert FilterMetricLabels(p.metric.value, settings.drop).Keys == kept; }
  }
}
