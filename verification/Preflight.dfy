/** analyzeBundle of internal/importer/server/server.go, the preflight that reads a bundle
    without sending it, and when its counts are those of the import that follows. */
module Preflight {
  import opened Domain
  import opened Timestamps
  import opened ImportLines
  import opened BundleScanner
  import opened BundleStream

  const MAX_SIMULATION_SERIES: nat := 5000

  /** A series recorded for the label simulation: its labels before the filter, its samples after. */
  datatype Series = Series(labels: set<string>, points: nat)

  datatype Analysis = Analysis(counters: Counters, points: nat, labels: set<string>, series: Option<Series>)

  /** One line. The timestamps are filtered as they are, and a line without a metric is not counted. */
  function AnalyzeLine(codec: Codec, settings: Settings, line: string): Analysis {
    match codec.parse(line)
    case None => Analysis(NOTHING.Skip(), 0, {}, None)
    case Some(p) =>
      var labels := if p.metric.None? then {} else p.metric.value.Keys;
      var metric := FilteredMetric(p.metric, settings.drop);
      var c := CountLabels(p, metric, settings.maxLabels);
      match Values(p.values)
      case None => Analysis(c.Skip(), 0, labels, None)
      case Some(values) =>
        var f := FilterSpec(p.timestamps, values, settings.cutoff);
        var d := c.(droppedOld := f.dropped);
        match Encode(codec, settings, metric, f)
        case None => Analysis(d.Skip(), 0, labels, None)
        case Some(sent) =>
          var series := Series(labels, sent.points);
          if metric.None? then Analysis(d.Skip(), 0, labels, Some(series))
          else Analysis(d, sent.points, labels, Some(series))
  }

  datatype Preview = Preview(
    counters: Counters, points: nat, scanned: nat, processedBytes: nat,
    labelCounts: map<string, nat>, series: seq<Series>, seriesCut: bool, sampleCut: bool)

  const EMPTY: Preview := Preview(NOTHING, 0, 0, 0, map[], [], false, false)

  function Counted(counts: map<string, nat>, labels: set<string>): map<string, nat> {
    map k | k in counts.Keys + labels :: (if k in counts then counts[k] else 0) + if k in labels then 1 else 0
  }

  function Add(v: Preview, length: nat, a: Analysis): Preview {
    v.(counters := v.counters.Plus(a.counters), points := v.points + a.points, scanned := v.scanned + 1,
       processedBytes := v.processedBytes + length + 1, labelCounts := Counted(v.labelCounts, a.labels),
       series := if a.series.Some? && |v.series| < MAX_SIMULATION_SERIES then v.series + [a.series.value] else v.series,
       seriesCut := v.seriesCut || (a.series.Some? && |v.series| >= MAX_SIMULATION_SERIES))
  }

  function Previewed(analyze: string -> Analysis, lines: seq<Line>, n: nat): Preview
    requires n <= |lines|
  {
    if n == 0 then EMPTY
    else Add(Previewed(analyze, lines, n - 1), |lines[n - 1].text|, analyze(lines[n - 1].text))
  }

  function Analyzer(codec: Codec, settings: Settings): string -> Analysis { line => AnalyzeLine(codec, settings, line) }

  /** analyzeBundle; without a limit (0) all lines are read, else at most `sampleLimit`. */
  function Analyze(codec: Codec, settings: Settings, b: string, sampleLimit: nat): (Preview, bool) {
    var scan := ScanFrom(b, 0);
    var f := Analyzer(codec, settings);
    if 0 < sampleLimit < |scan.lines| then (Previewed(f, scan.lines, sampleLimit).(sampleCut := true), true)
    else (Previewed(f, scan.lines, |scan.lines|), !scan.tooLong)
  }

  method CountLabelNames(counts: map<string, nat>, labels: set<string>) returns (result: map<string, nat>)
    ensures result == Counted(counts, labels)
  {
    result := counts;
    var rest := labels;
    while rest != {}
      invariant rest <= labels
      invariant result == Counted(counts, labels - rest)
      decreases |rest|
    {
      var name :| name in rest;
      result := result[name := (if name in result then result[name] else 0) + 1];
      rest := rest - {name};
    }
    assert labels - rest == labels;
  }

  method AnalyzeOne(codec: Codec, settings: Settings, line: string) returns (a: Analysis)
    ensures a == Analyzer(codec, settings)(line)
  {
    var decoded := codec.parse(line);
    if decoded.None? {
      return Analysis(NOTHING.Skip(), 0, {}, None);
    }
    var parsed := decoded.value;
    var labels := if parsed.metric.None? then {} else parsed.metric.value.Keys;
    var metric := FilterMetric(parsed.metric, settings.drop);
    var counted := CountLabels(parsed, metric, settings.maxLabels);
    var values := NormalizeValues(parsed.values);
    if values.None? {
      return Analysis(counted.Skip(), 0, labels, None);
    }
    var keptTs, keptVals, dropped := FilterTimestampsAndValues(parsed.timestamps, values.value, settings.cutoff);
    counted := counted.(droppedOld := dropped);
    var sent := EncodeKept(codec, settings, metric, Filtered(keptTs, keptVals, dropped));
    if sent.None? {
      return Analysis(counted.Skip(), 0, labels, None);
    }
    var series := Series(labels, sent.value.points);
    if metric.None? {
      return Analysis(counted.Skip(), 0, labels, Some(series));
    }
    return Analysis(counted, sent.value.points, labels, Some(series));
  }

  method AddLine(v: Preview, length: nat, a: Analysis) returns (w: Preview)
    ensures w == Add(v, length, a)
  {
    var counts := CountLabelNames(v.labelCounts, a.labels);
    w := v.(counters := v.counters.Plus(a.counters), points := v.points + a.points, scanned := v.scanned + 1,
            processedBytes := v.processedBytes + length + 1, labelCounts := counts);
    if a.series.Some? {
      if |w.series| < MAX_SIMULATION_SERIES {
        w := w.(series := w.series + [a.series.value]);
      } else {
        w := w.(seriesCut := true);
      }
    }
  }

  /** The scanner is at `p`, and `v` is the preview of the lines before it. */
  ghost predicate Stands(v: Preview, analyze: string -> Analysis, scan: Scan, b: string, p: nat) {
    v.scanned <= |scan.lines| && IsRest(b, p, scan, v.scanned) && v == Previewed(analyze, scan.lines, v.scanned)
  }

  lemma StandsAtStart(analyze: string -> Analysis, b: string)
    ensures Stands(EMPTY, analyze, ScanFrom(b, 0), b, 0)
  {
    StartResumes(b, 0, 0, ScanFrom(b, 0));
  }

  lemma AddedIsPreviewed(v: Preview, analyze: string -> Analysis, lines: seq<Line>, line: Line)
    requires v.scanned < |lines| && lines[v.scanned] == line && v == Previewed(analyze, lines, v.scanned)
    ensures var w := Add(v, |line.text|, analyze(line.text));
            w.scanned == v.scanned + 1 && w == Previewed(analyze, lines, w.scanned)
  {
  }

  lemma StandsThen(v: Preview, analyze: string -> Analysis, scan: Scan, b: string, p: nat, n: nat)
    requires n == v.scanned <= |scan.lines| && IsRest(b, p, scan, n) && v == Previewed(analyze, scan.lines, n)
    ensures Stands(v, analyze, scan, b, p)
  {
  }

  lemma StandsAfterLine(v: Preview, analyze: string -> Analysis, scan: Scan, b: string, p: nat)
    requires Stands(v, analyze, scan, b, p) && p < |b| && Fits(b, p)
    ensures var line := LineFrom(b, p);
            v.scanned < |scan.lines| && Stands(Add(v, |line.text|, analyze(line.text)), analyze, scan, b, line.next)
  {
    var line := LineFrom(b, p);
    ScanStep(b, p, scan, v.scanned);
    AddedIsPreviewed(v, analyze, scan.lines, line);
    StandsThen(Add(v, |line.text|, analyze(line.text)), analyze, scan, b, line.next, v.scanned + 1);
  }

  lemma StandsAtEnd(v: Preview, analyze: string -> Analysis, scan: Scan, b: string, p: nat)
    requires Stands(v, analyze, scan, b, p) && !(p < |b| && Fits(b, p))
    ensures v == Previewed(analyze, scan.lines, |scan.lines|) && v.scanned == |scan.lines| && scan.tooLong == (p < |b|)
  {
    ScanStep(b, p, scan, v.scanned);
  }

  method AnalyzeBundle(codec: Codec, settings: Settings, b: string, sampleLimit: nat)
    returns (summary: Preview, ok: bool)
    ensures (summary, ok) == Analyze(codec, settings, b, sampleLimit)
  {
    summary, ok := EMPTY, true;
    var position := 0;
    ghost var scan, f := ScanFrom(b, 0), Analyzer(codec, settings);
    StandsAtStart(f, b);
    while position < |b| && Fits(b, position)
      invariant Stands(summary, f, scan, b, position)
      invariant sampleLimit > 0 ==> summary.scanned <= sampleLimit
      decreases |b| - position
    {
      var line := LineFrom(b, position);
      StandsAfterLine(summary, f, scan, b, position);
      if sampleLimit > 0 && summary.scanned >= sampleLimit {
        summary := summary.(sampleCut := true);
        return;
      }
      var a := AnalyzeOne(codec, settings, line.text);
      summary := AddLine(summary, |line.text|, a);
      position := line.next;
    }
    StandsAtEnd(summary, f, scan, b, position);
    ok := position >= |b|;
  }

  // ---- The preflight and the import ----

  ghost predicate Agree(a: Analysis, e: Effect) {
    a.counters == e.counters && a.points == if e.sent.None? then 0 else e.sent.value.points
  }

  /** The preflight and the import count a line alike. */
  ghost predicate Predicts(codec: Codec, settings: Settings, line: string) {
    Agree(AnalyzeLine(codec, settings, line), ImportLine(codec, settings, line))
  }

  /** The samples that the filter keeps can be encoded. */
  predicate Encodable(f: Filtered<Value>) {
    |f.timestamps| > 0 && |f.timestamps| == |f.values| && NotFinite !in f.values
  }

  /** The timestamps as they are and the normalised ones pass the filter in equal number, and
      if the latter leave something to send, then so do the former and there is a metric; and
      the other way round. */
  predicate PredictableSamples(hasMetric: bool, ts: seq<int64>, values: seq<Value>, cutoff: int64) {
    var asTheyAre, normalized := FilterSpec(ts, values, cutoff), FilterSpec(InMilliseconds(ts), values, cutoff);
    |asTheyAre.timestamps| == |normalized.timestamps| && (Encodable(normalized) <==> hasMetric && Encodable(asTheyAre))
  }

  predicate Predictable(codec: Codec, settings: Settings, line: string) {
    match codec.parse(line)
    case None => true
    case Some(p) =>
      match Values(p.values)
      case None => true
      case Some(values) => PredictableSamples(p.metric.Some?, p.timestamps, values, settings.cutoff)
  }

  /** The preflight counts a line as the import does exactly when the line is predictable. */
  lemma PredictsIff(codec: Codec, settings: Settings, line: string)
    ensures Predicts(codec, settings, line) <==> Predictable(codec, settings, line)
  {
    if codec.parse(line).Some? {
      var p := codec.parse(line).value;
      if Values(p.values).Some? {
        var values := Values(p.values).value;
        FilterKeepsExactlyRecent(p.timestamps, values, settings.cutoff);
        FilterKeepsExactlyRecent(InMilliseconds(p.timestamps), values, settings.cutoff);
      }
    }
  }

  /** Without a cutoff, whatever the unit, only a missing metric can make the difference. */
  lemma PredictableWithoutCutoff(hasMetric: bool, ts: seq<int64>, values: seq<Value>, cutoff: int64)
    requires cutoff <= 0
    ensures PredictableSamples(hasMetric, ts, values, cutoff) <==>
            hasMetric || |ts| == 0 || |ts| != |values| || NotFinite in values
  {
  }

  /** With a metric, finite values and a cutoff, a line is predictable exactly when as many of
      its timestamps are recent as they are as when they are normalised. */
  lemma PredictableFinite(ts: seq<int64>, values: seq<Value>, cutoff: int64)
    requires cutoff > 0 && |ts| == |values| && NotFinite !in values
    ensures PredictableSamples(true, ts, values, cutoff) <==>
            |Recent(ts, cutoff)| == |Recent(InMilliseconds(ts), cutoff)|
  {
    RecentMeans(ts, cutoff);
    RecentMeans(InMilliseconds(ts), cutoff);
  }

  /** With millisecond timestamps, whatever the cutoff, only a missing metric can. */
  lemma PredictableMilliseconds(hasMetric: bool, ts: seq<int64>, values: seq<Value>, cutoff: int64)
    requires AllMilliseconds(ts)
    ensures PredictableSamples(hasMetric, ts, values, cutoff) <==>
            hasMetric || !Encodable(FilterSpec(ts, values, cutoff))
  {
    MillisecondsPassUnchanged(ts, values, cutoff);
  }

  predicate LinePredictable(codec: Codec, settings: Settings, lines: seq<Line>, k: nat)
    requires k < |lines|
  {
    Predictable(codec, settings, lines[k].text)
  }

  /** Every line is predictable. */
  ghost predicate Regular(codec: Codec, settings: Settings, b: string) {
    var lines := ScanFrom(b, 0).lines;
    forall k :: 0 <= k < |lines| ==> LinePredictable(codec, settings, lines, k)
  }

  /** A bundle is regular under any settings if every line that decodes carries a metric and
      millisecond timestamps. */
  lemma MillisecondsAreRegular(codec: Codec, settings: Settings, b: string)
    requires forall l :: l in ScanFrom(b, 0).lines && codec.parse(l.text).Some? ==>
               codec.parse(l.text).value.metric.Some? && AllMilliseconds(codec.parse(l.text).value.timestamps)
    ensures Regular(codec, settings, b)
  {
    var lines := ScanFrom(b, 0).lines;
    forall k | 0 <= k < |lines| ensures LinePredictable(codec, settings, lines, k) {
      var l := lines[k];
      assert l in lines;
      if codec.parse(l.text).Some? {
        var p := codec.parse(l.text).value;
        if Values(p.values).Some? {
          PredictableMilliseconds(p.metric.Some?, p.timestamps, Values(p.values).value, settings.cutoff);
        }
      }
    }
  }

  lemma {:induction false} TotalsAgree(analyze: string -> Analysis, process: string -> Effect, lines: seq<Line>, n: nat)
    requires n <= |lines|
    requires forall k :: 0 <= k < n ==> Agree(analyze(lines[k].text), process(lines[k].text))
    ensures Previewed(analyze, lines, n).counters == CountersOf(Effects(process, lines), n)
    ensures Previewed(analyze, lines, n).points == PointsOf(Effects(process, lines), n)
  {
    if n > 0 {
      TotalsAgree(analyze, process, lines, n - 1);
      assert Agree(analyze(lines[n - 1].text), process(lines[n - 1].text));
    }
  }

  /** A full preflight of a regular bundle predicts every count of an import that succeeds:
      samples, dropped samples, skipped and decoded lines, the largest label count, and the
      lines and samples over the label limit. The chunk size does not matter. */
  lemma PreflightPredictsImport(codec: Codec, settings: Settings, b: string, x: Session, f: Finish)
    requires Regular(codec, settings, b) && x.process == Process(codec, settings)
    requires f == Import(x, b, 0) && f.ok
    ensures var (v, ok) := Analyze(codec, settings, b, 0);
            ok && v.counters == f.stream.counters && v.points == f.stream.points
  {
    var scan := ScanFrom(b, 0);
    ImportDone(x, b, 0);
    var d := ImportSendsPrefix(x, b, 0);
    forall k | 0 <= k < |scan.lines|
      ensures Agree(Analyzer(codec, settings)(scan.lines[k].text), x.process(scan.lines[k].text))
    {
      assert LinePredictable(codec, settings, scan.lines, k);
      PredictsIff(codec, settings, scan.lines[k].text);
    }
    TotalsAgree(Analyzer(codec, settings), x.process, scan.lines, |scan.lines|);
  }

  /** With timestamps in seconds the preflight drops what the import keeps: it compares them
      with the cutoff before it scales them. */
  lemma SecondsAreMispredicted(codec: Codec, line: string)
    requires codec.parse(line) == Some(Parsed(Some(map[]), [Some(Finite(1.0))], [1_700_000_000]))
    ensures var settings := Settings({}, 0, 1_600_000_000_000, 0, MAX_IMPORT_CHUNK);
            && AnalyzeLine(codec, settings, line).counters == Counters(1, 1, 1, 0, 0, 0)
            && ImportLine(codec, settings, line).counters == Counters(0, 0, 1, 0, 0, 0)
  {
    var ts: seq<int64> := [1_700_000_000];
    var cutoff: int64 := 1_600_000_000_000;
    var values := Values([Some(Finite(1.0))]).value;
    assert InMilliseconds(ts) == [1_700_000_000_000];
    assert values == [Finite(1.0)];
    FilterGrows([], [], cutoff, 1_700_000_000, Finite(1.0));
    FilterGrows([], [], cutoff, 1_700_000_000_000, Finite(1.0));
    assert [] + ts == ts && [] + InMilliseconds(ts) == InMilliseconds(ts) && [] + values == values;
  }

  // ---- What the preflight counts ----

  /** Line `k` has label `l`. */
  function HasLabel(analyze: string -> Analysis, lines: seq<Line>, l: string): nat -> bool {
    (k: nat) => k < |lines| && l in analyze(lines[k].text).labels
  }

  function CountOf(counts: map<string, nat>, l: string): nat { if l in counts then counts[l] else 0 }

  lemma CountedAdds(counts: map<string, nat>, labels: set<string>, l: string)
    ensures CountOf(Counted(counts, labels), l) == CountOf(counts, l) + if l in labels then 1 else 0
    ensures l in Counted(counts, labels) <==> l in counts || l in labels
  {
  }

  /** A label's count is the number of lines that have it, and only labels of some line are listed. */
  lemma {:induction false} LabelCountsMean(analyze: string -> Analysis, lines: seq<Line>, n: nat, l: string)
    requires n <= |lines|
    ensures var counts := Previewed(analyze, lines, n).labelCounts;
            && CountIf(HasLabel(analyze, lines, l), n) == CountOf(counts, l)
            && (l in counts ==> counts[l] > 0)
  {
    if n > 0 {
      LabelCountsMean(analyze, lines, n - 1, l);
      CountedAdds(Previewed(analyze, lines, n - 1).labelCounts, analyze(lines[n - 1].text).labels, l);
    }
  }

  /** Every line is scanned, and its end counted as one byte. */
  lemma {:induction false} LinesAreScanned(analyze: string -> Analysis, lines: seq<Line>, n: nat)
    requires n <= |lines|
    ensures var v := Previewed(analyze, lines, n);
            v.scanned == n && v.processedBytes == Claimed(lines, n) && !v.sampleCut
  {
    if n > 0 { LinesAreScanned(analyze, lines, n - 1); }
  }

  /** A preflight reads as many lines as it may, or all; it says so when it leaves some out. */
  lemma PreviewIsSample(codec: Codec, settings: Settings, b: string, sampleLimit: nat)
    ensures var (v, ok) := Analyze(codec, settings, b, sampleLimit);
            var n := |ScanFrom(b, 0).lines|;
            && v.scanned == (if sampleLimit == 0 then n else if sampleLimit <= n then sampleLimit else n)
            && (v.sampleCut <==> 0 < sampleLimit < n)
            && (ok <==> v.sampleCut || !ScanFrom(b, 0).tooLong)
  {
    var lines := ScanFrom(b, 0).lines;
    LinesAreScanned(Analyzer(codec, settings), lines, |lines|);
    if 0 < sampleLimit < |lines| { LinesAreScanned(Analyzer(codec, settings), lines, sampleLimit); }
  }

  // ---- What the label simulation gets ----

  lemma EncodedPoints(codec: Codec, settings: Settings, metric: Option<Labels>, ts: seq<int64>, values: seq<Value>)
    ensures var f := FilterSpec(ts, values, settings.cutoff);
            var sent := Encode(codec, settings, metric, f);
            sent.Some? ==> sent.value.points == |ts| - f.dropped
  {
    FilterKeepsExactlyRecent(ts, values, settings.cutoff);
  }

  /** What is recorded of a line: all its labels, dropped ones included, and the samples that pass. */
  lemma SeriesIsLine(codec: Codec, settings: Settings, line: string, p: Parsed)
    requires codec.parse(line) == Some(p)
    ensures var a := AnalyzeLine(codec, settings, line);
            && (a.series.Some? ==> a.series.value == Series(a.labels, |p.timestamps| - a.counters.droppedOld))
            && a.labels == if p.metric.Some? then p.metric.value.Keys else {}
  {
    match Values(p.values)
    case None =>
    case Some(values) => EncodedPoints(codec, settings, FilteredMetric(p.metric, settings.drop), p.timestamps, values);
  }

  /** The series of the first `n` lines. */
  function SeriesOf(analyze: string -> Analysis, lines: seq<Line>, n: nat): seq<Series>
    requires n <= |lines|
  {
    if n == 0 then []
    else
      var series := analyze(lines[n - 1].text).series;
      SeriesOf(analyze, lines, n - 1) + if series.Some? then [series.value] else []
  }

  /** The first 5000 of them are recorded, and it is said exactly if there are more. */
  lemma {:induction false} FirstSeriesAreRecorded(analyze: string -> Analysis, lines: seq<Line>, n: nat)
    requires n <= |lines|
    ensures var v, all := Previewed(analyze, lines, n), SeriesOf(analyze, lines, n);
            && v.series == (if |all| <= 5000 then all else all[..5000])
            && (v.seriesCut <==> |all| > 5000)
  {
    if n > 0 { FirstSeriesAreRecorded(analyze, lines, n - 1); }
  }

  /** A recorded series has samples, and only labels that were counted. */
  ghost predicate WellRecorded(s: Series, counted: set<string>) { s.labels <= counted && s.points > 0 }

  lemma LineIsWellRecorded(codec: Codec, settings: Settings, line: string)
    ensures var a := AnalyzeLine(codec, settings, line); a.series.Some? ==> WellRecorded(a.series.value, a.labels)
  {
  }

  /** At most 5000 series are recorded, and every one is well recorded. */
  lemma {:induction false} SeriesAreWellRecorded(analyze: string -> Analysis, lines: seq<Line>, n: nat)
    requires n <= |lines|
    requires forall line :: analyze(line).series.Some? ==>
             WellRecorded(analyze(line).series.value, analyze(line).labels)
    ensures var v := Previewed(analyze, lines, n);
            && |v.series| <= 5000 && (v.seriesCut ==> |v.series| == 5000)
            && (forall s :: s in v.series ==> WellRecorded(s, v.labelCounts.Keys))
  {
    if n > 0 {
      SeriesAreWellRecorded(analyze, lines, n - 1);
      AddIsWellRecorded(Previewed(analyze, lines, n - 1), |lines[n - 1].text|, analyze(lines[n - 1].text));
    }
  }

  lemma AddIsWellRecorded(v: Preview, length: nat, a: Analysis)
    requires forall s :: s in v.series ==> WellRecorded(s, v.labelCounts.Keys)
    requires a.series.Some? ==> WellRecorded(a.series.value, a.labels)
    ensures forall s :: s in Add(v, length, a).series ==> WellRecorded(s, Add(v, length, a).labelCounts.Keys)
  {
    assert Add(v, length, a).labelCounts.Keys == v.labelCounts.Keys + a.labels;
  }

  /** The series that the preflight of a bundle records for the simulation. */
  lemma PreviewIsWellRecorded(codec: Codec, settings: Settings, b: string, sampleLimit: nat)
    ensures var v := Analyze(codec, settings, b, sampleLimit).0;
            && |v.series| <= 5000 && (v.seriesCut ==> |v.series| == 5000)
            && (forall s :: s in v.series ==> WellRecorded(s, v.labelCounts.Keys))
  {
    var lines := ScanFrom(b, 0).lines;
    forall line
      ensures var a := Analyzer(codec, settings)(line); a.series.Some? ==> WellRecorded(a.series.value, a.labels)
    {
      LineIsWellRecorded(codec, settings, line);
    }
    SeriesAreWellRecorded(Analyzer(codec, settings), lines, if 0 < sampleLimit < |lines| then sampleLimit else |lines|);
  }
}
