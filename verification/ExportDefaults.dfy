/** internal/application/services/export_defaults.go. */
module ExportDefaults {
  import opened Domain
  import opened Batching

  const MIN_SECONDS: int := 30
  const MAX_SECONDS: int := 86_400
  const MAX_STEP: int := 300
  const DEFAULT_LADDER: seq<int> := [30, 60, 120, MAX_STEP]

  predicate StrictlyIncreasing(s: seq<int>) {
    forall i, j :: 0 <= i < j < |s| ==> s[i] < s[j]
  }

  predicate InRange(step: int, maxStep: int) { MIN_SECONDS <= step <= maxStep }

  /** The configured steps, or the default ladder when none are configured. */
  function Steps(values: seq<int>): seq<int> {
    if |values| == 0 then DEFAULT_LADDER else values
  }

  /** `s` with `v` put in its place, unless it is there already. */
  function InsertStep(s: seq<int>, v: int): seq<int> {
    if |s| == 0 then [v]
    else if v < s[0] then [v] + s
    else if v == s[0] then s
    else [s[0]] + InsertStep(s[1..], v)
  }

  /** The in-range steps of `values`, sorted, each once. */
  function Collect(values: seq<int>, maxStep: int): seq<int> {
    if |values| == 0 then []
    else
      var rest := Collect(values[1..], maxStep);
      if InRange(values[0], maxStep) then InsertStep(rest, values[0]) else rest
  }

  function Ladder(values: seq<int>, maxStep: int): seq<int> {
    var kept := Collect(Steps(values), maxStep);
    if |kept| == 0 then [maxStep] else kept
  }

  lemma IncreasingCons(first: int, rest: seq<int>)
    requires StrictlyIncreasing(rest) && forall x :: x in rest ==> first < x
    ensures StrictlyIncreasing([first] + rest)
  {
    var r := [first] + rest;
    forall i, j | 0 <= i < j < |r| ensures r[i] < r[j] {
      assert r[j] == rest[j - 1] && rest[j - 1] in rest;
      assert i > 0 ==> r[i] == rest[i - 1];
    }
  }

  lemma {:induction false} InsertStepKeeps(s: seq<int>, v: int)
    requires StrictlyIncreasing(s)
    ensures StrictlyIncreasing(InsertStep(s, v))
    ensures forall x :: x in InsertStep(s, v) <==> x in s || x == v
  {
    if |s| > 0 {
      assert s == [s[0]] + s[1..];
      assert forall x :: x in s[1..] ==> s[0] < x;
      if v < s[0] {
        IncreasingCons(v, s);
      } else if v > s[0] {
        InsertStepKeeps(s[1..], v);
        IncreasingCons(s[0], InsertStep(s[1..], v));
      }
    }
  }

  lemma {:induction false} CollectKeeps(values: seq<int>, maxStep: int)
    ensures StrictlyIncreasing(Collect(values, maxStep))
    ensures forall x :: x in Collect(values, maxStep) <==> x in values && InRange(x, maxStep)
  {
    if |values| > 0 {
      CollectKeeps(values[1..], maxStep);
      InsertStepKeeps(Collect(values[1..], maxStep), values[0]);
      assert values == [values[0]] + values[1..];
    }
  }

  /** The ladder is non-empty and strictly increasing, and holds exactly the in-range steps,
      or the maximum alone when there is none. */
  lemma LadderContents(values: seq<int>, maxStep: int)
    ensures |Ladder(values, maxStep)| > 0 && StrictlyIncreasing(Ladder(values, maxStep))
    ensures (exists x :: x in Steps(values) && InRange(x, maxStep)) ==>
              forall x :: x in Ladder(values, maxStep) <==> x in Steps(values) && InRange(x, maxStep)
    ensures !(exists x :: x in Steps(values) && InRange(x, maxStep)) ==> Ladder(values, maxStep) == [maxStep]
  {
    CollectKeeps(Steps(values), maxStep);
    var kept := Collect(Steps(values), maxStep);
    if |kept| > 0 { assert kept[0] in kept; }
  }

  lemma NonEmptyHasElement(s: seq<int>)
    ensures |s| == 0 || s[0] in s
  {
  }

  /** A strictly increasing sequence is determined by its elements. */
  lemma {:induction false} SameElementsSameSequence(a: seq<int>, b: seq<int>)
    requires StrictlyIncreasing(a) && StrictlyIncreasing(b)
    requires forall x :: x in a <==> x in b
    ensures a == b
  {
    if |a| == 0 {
      NonEmptyHasElement(b);
    } else {
      assert a[0] in b && b[0] in a;
      assert a[0] == b[0];
      assert a == [a[0]] + a[1..] && b == [b[0]] + b[1..];
      forall x ensures x in a[1..] <==> x in b[1..] {
        if x in a[1..] { assert x in b && x != a[0]; }
        if x in b[1..] { assert x in a && x != b[0]; }
      }
      SameElementsSameSequence(a[1..], b[1..]);
    }
  }

  lemma LadderIdempotent(values: seq<int>, maxStep: int)
    ensures Ladder(Ladder(values, maxStep), maxStep) == Ladder(values, maxStep)
  {
    LadderContents(values, maxStep);
    var l := Ladder(values, maxStep);
    CollectKeeps(l, maxStep);
    CollectKeeps(Steps(values), maxStep);
    if l == Collect(Steps(values), maxStep) {
      SameElementsSameSequence(Collect(l, maxStep), l);
    } else if InRange(maxStep, maxStep) {
      assert maxStep in Collect(l, maxStep);
      SameElementsSameSequence(Collect(l, maxStep), l);
    } else {
      assert forall x :: x in Collect(l, maxStep) ==> x == maxStep && InRange(x, maxStep);
      NonEmptyHasElement(Collect(l, maxStep));
    }
  }

  /** The insertion sort of normalizeStepLadder: adjacent swaps inside the slice. */
  method SortInPlace(a: array<int>)
    requires forall i, j :: 0 <= i < j < a.Length ==> a[i] != a[j]
    modifies a
    ensures StrictlyIncreasing(a[..])
    ensures forall x :: x in a[..] <==> x in old(a[..])
  {
    var i := 1;
    while i < a.Length
      invariant 1 <= i
      invariant forall p, q :: 0 <= p < q < a.Length ==> a[p] != a[q]
      invariant forall p, q :: 0 <= p < q < i && q < a.Length ==> a[p] < a[q]
      invariant forall x :: x in a[..] <==> x in old(a[..])
    {
      var j := i;
      while j > 0 && a[j] < a[j - 1]
        invariant 0 <= j <= i < a.Length
        invariant forall p, q :: 0 <= p < q < a.Length ==> a[p] != a[q]
        invariant forall p, q :: 0 <= p < q <= i && q != j ==> a[p] < a[q]
        invariant forall x :: x in a[..] <==> x in old(a[..])
      {
        ghost var before := a[..];
        a[j], a[j - 1] := a[j - 1], a[j];
        SwapKeepsElements(before, a[..], j);
        j := j - 1;
      }
      i := i + 1;
    }
  }

  lemma SwapKeepsElements(s: seq<int>, t: seq<int>, j: int)
    requires 0 < j < |s| && t == s[j := s[j - 1]][j - 1 := s[j]]
    ensures forall x :: x in t <==> x in s
  {
    forall x ensures x in t <==> x in s {
      if x in s {
        var k :| 0 <= k < |s| && s[k] == x;
        assert t[if k == j then j - 1 else if k == j - 1 then j else k] == x;
      }
    }
  }

  /** normalizeStepLadder: filter and deduplicate in one loop, then sort the slice in place. */
  method NormalizeStepLadder(values: seq<int>, maxStep: int) returns (result: seq<int>)
    ensures result == Ladder(values, maxStep)
  {
    var steps := if |values| == 0 then DEFAULT_LADDER else values;
    var seen: set<int> := {};
    var kept: seq<int> := [];
    var i := 0;
    while i < |steps|
      invariant 0 <= i <= |steps|
      invariant forall x :: x in kept <==> x in seen
      invariant forall x :: x in seen <==> x in steps[..i] && InRange(x, maxStep)
      invariant forall p, q :: 0 <= p < q < |kept| ==> kept[p] != kept[q]
    {
      var step := steps[i];
      assert steps[..i + 1] == steps[..i] + [step];
      if MIN_SECONDS <= step <= maxStep && step !in seen {
        seen := seen + {step};
        kept := kept + [step];
      }
      i := i + 1;
    }
    assert steps[..i] == steps;
    CollectKeeps(steps, maxStep);
    forall x ensures x in kept <==> x in Collect(steps, maxStep) {
      assert x in kept <==> x in seen;
      assert x in seen <==> x in steps[..i] && InRange(x, maxStep);
    }
    if |kept| == 0 {
      NonEmptyHasElement(Collect(steps, maxStep));
      kept := [maxStep];
    } else {
      assert kept[0] in Collect(steps, maxStep);
    }
    var slice := new int[|kept|](k requires 0 <= k < |kept| => kept[k]);
    assert slice[..] == kept;
    SortInPlace(slice);
    result := slice[..];
    SameElementsSameSequence(result, Ladder(values, maxStep));
  }

  function DefaultBatching(b: BatchSettings): BatchSettings {
    var enabled := b.enabled || (b.strategy == "" && b.customIntervalSecs == 0);
    var strategy := if b.strategy == "" then "auto" else b.strategy;
    var secs := if b.customIntervalSecs <= 0 then 0
                else Min(Max(b.customIntervalSecs, MIN_SECONDS), MAX_SECONDS);
    BatchSettings(enabled, strategy, secs)
  }

  function DefaultSafety(s: SafetyConfig): SafetyConfig {
    var mode := if s.mode.Unset? then Autopilot else s.mode;
    var untouched := !s.autoSplit && !s.splitByJob && !s.splitByMetricName && s.minWindowSeconds <= 0
                     && s.maxSplitDepth <= 0;
    var top := if s.maxStepSeconds <= 0 || s.maxStepSeconds > MAX_STEP then MAX_STEP
               else Max(s.maxStepSeconds, MIN_SECONDS);
    SafetyConfig(
      mode,
      !mode.Off? && (s.autoSplit || untouched),
      !mode.Off? && (s.splitByJob || untouched),
      !mode.Off? && s.splitByMetricName,
      if s.minWindowSeconds <= 0 then 5 else s.minWindowSeconds,
      if s.maxSplitDepth <= 0 then 8 else s.maxSplitDepth,
      top,
      Ladder(s.stepLadderSeconds, top))
  }

  function DefaultStep(step: int, tr: TimeRange, s: SafetyConfig): int
    requires |s.stepLadderSeconds| > 0
  {
    var chosen := if step > 0 then step
                  else if s.mode.Autopilot? then s.stepLadderSeconds[0]
                  else RecommendedMetricStepSeconds(tr);
    Min(chosen, s.maxStepSeconds)
  }

  function DefaultObfuscation(o: ObfuscationConfig): ObfuscationConfig {
    if o.enabled then o else ObfuscationConfig(false, false, false, false, [], o.dropLabels)
  }

  /** What ApplyExportDefaults turns a configuration into. */
  function WithDefaults(c: ExportConfig): ExportConfig {
    var safety := DefaultSafety(c.safety);
    LadderContents(c.safety.stepLadderSeconds, safety.maxStepSeconds);
    c.(batching := DefaultBatching(c.batching),
       safety := safety,
       obfuscation := DefaultObfuscation(c.obfuscation),
       metricStepSeconds := DefaultStep(c.metricStepSeconds, c.timeRange, safety))
  }

  /** applyExportServiceDefaults: the defaults, except that untouched batching stays off. */
  function ServiceDefaults(c: ExportConfig): ExportConfig {
    if !c.batching.enabled && c.batching.strategy == "" && c.batching.customIntervalSecs == 0
    then WithDefaults(c).(batching := c.batching)
    else WithDefaults(c)
  }

  /** The bounds every later use of a defaulted configuration relies on. */
  ghost predicate Normalized(c: ExportConfig) {
    && !c.safety.mode.Unset?
    && c.safety.minWindowSeconds > 0
    && c.safety.maxSplitDepth > 0
    && MIN_SECONDS <= c.safety.maxStepSeconds <= MAX_STEP
    && |c.safety.stepLadderSeconds| > 0
    && StrictlyIncreasing(c.safety.stepLadderSeconds)
    && (forall s :: s in c.safety.stepLadderSeconds ==> InRange(s, c.safety.maxStepSeconds))
    && 0 < c.metricStepSeconds <= c.safety.maxStepSeconds
    && (c.safety.mode.Off? ==> !c.safety.autoSplit && !c.safety.splitByJob && !c.safety.splitByMetricName)
  }

  lemma DefaultsAreNormalized(c: ExportConfig)
    ensures Normalized(WithDefaults(c)) && Normalized(ServiceDefaults(c))
  {
    var s := DefaultSafety(c.safety);
    LadderContents(c.safety.stepLadderSeconds, s.maxStepSeconds);
    assert s.stepLadderSeconds[0] in s.stepLadderSeconds;
  }

  lemma DefaultsIdempotent(c: ExportConfig)
    ensures WithDefaults(WithDefaults(c)) == WithDefaults(c)
  {
    DefaultsAreNormalized(c);
    LadderIdempotent(c.safety.stepLadderSeconds, DefaultSafety(c.safety).maxStepSeconds);
  }

  /** The job manager counts batches on the configuration it was given, the export service
      on the defaulted one: both see the same windows. */
  lemma DefaultsKeepBatchWindows(c: ExportConfig)
    ensures BatchWindows(c.timeRange, ServiceDefaults(c).batching) == BatchWindows(c.timeRange, c.batching)
  {
  }

  /** Settings that are in their ranges are left as they are, and a step that is not set becomes the
      lowest of the ladder, or the recommended one if the engine may not raise it. */
  lemma ValidSettingsAreKept(c: ExportConfig)
    ensures var d, s, e := WithDefaults(c), c.safety, WithDefaults(c).safety;
            && d.timeRange == c.timeRange && d.jobs == c.jobs && d.query == c.query
            && d.resumeFromBatch == c.resumeFromBatch
            && e.minWindowSeconds == (if s.minWindowSeconds > 0 then s.minWindowSeconds else 5)
            && e.maxSplitDepth == (if s.maxSplitDepth > 0 then s.maxSplitDepth else 8)
            && (30 <= s.maxStepSeconds <= 300 ==> e.maxStepSeconds == s.maxStepSeconds)
            && (forall step :: step in s.stepLadderSeconds && 30 <= step <= e.maxStepSeconds ==>
               step in e.stepLadderSeconds)
            && (!s.mode.Unset? ==> e.mode == s.mode)
            && (!s.mode.Off? ==> e.splitByMetricName == s.splitByMetricName)
            && (!s.mode.Off? ==> (s.autoSplit ==> e.autoSplit) && (s.splitByJob ==> e.splitByJob))
            && (s.autoSplit || s.splitByJob || s.splitByMetricName || s.minWindowSeconds > 0 || s.maxSplitDepth > 0 ==>
                  (e.autoSplit ==> s.autoSplit) && (e.splitByJob ==> s.splitByJob))
            && (c.metricStepSeconds > 0 ==> d.metricStepSeconds == Min(c.metricStepSeconds, e.maxStepSeconds))
            && (c.metricStepSeconds <= 0 && e.mode.Autopilot? ==>
                  d.metricStepSeconds in e.stepLadderSeconds
                  && forall step :: step in e.stepLadderSeconds ==> d.metricStepSeconds <= step)
            && (c.metricStepSeconds <= 0 && !e.mode.Autopilot? ==>
                  d.metricStepSeconds == Min(RecommendedMetricStepSeconds(c.timeRange), e.maxStepSeconds))
            && (c.batching.strategy != "" || c.batching.customIntervalSecs != 0 ==>
               d.batching.enabled == c.batching.enabled)
            && (c.batching.strategy != "" ==> d.batching.strategy == c.batching.strategy)
            && (30 <= c.batching.customIntervalSecs <= 86_400 ==>
                  d.batching.customIntervalSecs == c.batching.customIntervalSecs)
            && (c.batching.customIntervalSecs > 0 ==>
                  30 <= d.batching.customIntervalSecs <= 86_400
                  && BatchWindows(c.timeRange, d.batching) == BatchWindows(c.timeRange, c.batching))
            && (c.batching.customIntervalSecs <= 0 ==> d.batching.customIntervalSecs == 0)
            && (c.obfuscation.enabled ==> d.obfuscation == c.obfuscation)
            && (!c.obfuscation.enabled ==>
                  !d.obfuscation.enabled && !d.obfuscation.obfuscateInstance && !d.obfuscation.obfuscateJob
                  && d.obfuscation.customLabels == [])
            && d.obfuscation.dropLabels == c.obfuscation.dropLabels
  {
    var top := DefaultSafety(c.safety).maxStepSeconds;
    LadderContents(c.safety.stepLadderSeconds, top);
    var ladder := Ladder(c.safety.stepLadderSeconds, top);
    assert ladder[0] in ladder;
    forall step | step in ladder ensures ladder[0] <= step {
      var k :| 0 <= k < |ladder| && ladder[k] == step;
    }
  }

  /** Of nothing at all the defaults make these settings. */
  lemma NothingBecomes(c: ExportConfig)
    requires c.batching == BatchSettings(false, "", 0)
    requires c.safety == SafetyConfig(Unset, false, false, false, 0, 0, 0, []) && c.metricStepSeconds == 0
    ensures WithDefaults(c).batching == BatchSettings(true, "auto", 0)
    ensures WithDefaults(c).safety == SafetyConfig(Autopilot, true, true, false, 5, 8, 300, [30, 60, 120, 300])
    ensures WithDefaults(c).metricStepSeconds == 30
  {
    assert Collect([], 300) == [] && Collect([300], 300) == [300] && Collect([120, 300], 300) == [120, 300];
    assert Collect([60, 120, 300], 300) == [60, 120, 300];
    assert DEFAULT_LADDER[1..] == [60, 120, 300] && [60, 120, 300][1..] == [120, 300] && [120, 300][1..] == [300];
  }

  /** The configuration ApplyExportDefaults works on through a pointer. */
  class ConfigRef {
    var rest: ExportConfig
    var batching: BatchSettings
    var safety: SafetyConfig
    var obfuscation: ObfuscationConfig
    var metricStepSeconds: int

    constructor (c: ExportConfig)
      ensures Value() == c
    {
      rest := c;
      batching, safety, obfuscation, metricStepSeconds := c.batching, c.safety, c.obfuscation, c.metricStepSeconds;
    }

    function Value(): ExportConfig
      reads this
    {
      rest.(batching := batching, safety := safety, obfuscation := obfuscation, metricStepSeconds := metricStepSeconds)
    }

    method ApplyExportDefaults()
      modifies this
      ensures Value() == WithDefaults(old(Value()))
    {
      NormalizeBatching();
      NormalizeSafety();
      LadderContents(old(safety.stepLadderSeconds), safety.maxStepSeconds);
      if metricStepSeconds <= 0 {
        if safety.mode.Autopilot? {
          metricStepSeconds := safety.stepLadderSeconds[0];
        } else {
          metricStepSeconds := RecommendedMetricStepSeconds(rest.timeRange);
        }
      }
      if metricStepSeconds > safety.maxStepSeconds {
        metricStepSeconds := safety.maxStepSeconds;
      }
      if !obfuscation.enabled {
        obfuscation := ObfuscationConfig(false, false, false, false, [], obfuscation.dropLabels);
      }
    }

    /** applyExportServiceDefaults. */
    method ApplyServiceDefaults()
      modifies this
      ensures Value() == ServiceDefaults(old(Value()))
    {
      var original := batching;
      ApplyExportDefaults();
      if !original.enabled && original.strategy == "" && original.customIntervalSecs == 0 {
        batching := original;
      }
    }

    /** The batching settings, the first block of ApplyExportDefaults. */
    method NormalizeBatching()
      modifies this`batching
      ensures batching == DefaultBatching(old(batching))
    {
      if !batching.enabled && batching.strategy == "" && batching.customIntervalSecs == 0 {
        batching := batching.(enabled := true);
      }
      if batching.strategy == "" {
        batching := batching.(strategy := "auto");
      }
      if batching.customIntervalSecs < 0 {
        batching := batching.(customIntervalSecs := 0);
      }
      if batching.customIntervalSecs > 0 && batching.customIntervalSecs < MIN_SECONDS {
        batching := batching.(customIntervalSecs := MIN_SECONDS);
      }
      if batching.customIntervalSecs > MAX_SECONDS {
        batching := batching.(customIntervalSecs := MAX_SECONDS);
      }
    }

    /** The safety settings, the second block. */
    method NormalizeSafety()
      modifies this`safety
      ensures safety == DefaultSafety(old(safety))
    {
      var s := safety;
      if s.mode.Unset? {
        s := s.(mode := Autopilot);
      }
      if !s.mode.Off? && !s.autoSplit && !s.splitByJob && !s.splitByMetricName
         && s.minWindowSeconds <= 0 && s.maxSplitDepth <= 0 {
        s := s.(autoSplit := true, splitByJob := true);
      }
      if s.mode.Off? {
        s := s.(autoSplit := false, splitByJob := false, splitByMetricName := false);
      }
      if s.minWindowSeconds <= 0 {
        s := s.(minWindowSeconds := 5);
      }
      if s.maxSplitDepth <= 0 {
        s := s.(maxSplitDepth := 8);
      }
      if s.maxStepSeconds <= 0 || s.maxStepSeconds > MAX_STEP {
        s := s.(maxStepSeconds := MAX_STEP);
      }
      if s.maxStepSeconds < MIN_SECONDS {
        s := s.(maxStepSeconds := MIN_SECONDS);
      }
      var ladder := NormalizeStepLadder(s.stepLadderSeconds, s.maxStepSeconds);
      safety := s.(stepLadderSeconds := ladder);
    }
  }
}
