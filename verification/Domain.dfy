/** Values shared by the exporter: time ranges, batching and safety settings, and the
    failures a VictoriaMetrics read can end in. Instants and durations are integer
    nanoseconds, as in Go's time package. */
module Domain {

  datatype Option<+T> = None | Some(value: T)

  const SECOND: int := 1_000_000_000
  const MINUTE: int := 60 * SECOND
  const HOUR: int := 60 * MINUTE

  /** A half-open interval of instants. */
  datatype TimeRange = TimeRange(start: int, end: int) {
    function Duration(): int { end - start }

    predicate Contains(x: int) { start <= x < end }
  }

  datatype BatchSettings = BatchSettings(enabled: bool, strategy: string, customIntervalSecs: int)

  /** `Unset` is the empty string of the configuration file. Every name other than `off` and
      `autopilot` behaves like `safe`. */
  datatype Adaptivity = Unset | Off | Safe | Autopilot

  datatype SafetyConfig = SafetyConfig(
    mode: Adaptivity,
    autoSplit: bool,
    splitByJob: bool,
    splitByMetricName: bool,
    minWindowSeconds: int,
    maxSplitDepth: int,
    maxStepSeconds: int,
    stepLadderSeconds: seq<int>)

  datatype ExportMode = OtherMode | Cluster | Custom

  datatype QueryType = OtherQuery | SelectorQuery | MetricsQL

  /** A custom query. `takesJobMatcher` says whether its text has one of the shapes into which
      a job matcher can be written; that is decided by text matching, which is not modelled. */
  datatype Query = Query(text: string, takesJobMatcher: bool)

  datatype ObfuscationConfig = ObfuscationConfig(
    enabled: bool,
    obfuscateInstance: bool,
    obfuscateJob: bool,
    preserveStructure: bool,
    customLabels: seq<string>,
    dropLabels: seq<string>)

  datatype ExportConfig = ExportConfig(
    timeRange: TimeRange,
    jobs: seq<string>,
    mode: ExportMode,
    queryType: QueryType,
    query: Query,
    obfuscation: ObfuscationConfig,
    batching: BatchSettings,
    safety: SafetyConfig,
    resumeFromBatch: int,
    metricStepSeconds: int)

  datatype ErrorKind = UnknownError | MissingRoute | QueryTimeout | TooManySeries | Transient

  /** `canceled` says whether the error wraps a cancelled context. */
  datatype Failure = Failure(kind: ErrorKind, canceled: bool)

  predicate Distinct<T(==)>(s: seq<T>) { forall i, j :: 0 <= i < j < |s| ==> s[i] != s[j] }

  function Min(a: int, b: int): int { if a <= b then a else b }

  function Max(a: int, b: int): int { if a <= b then b else a }

  /** How many of 0, ..., n - 1 satisfy `p`. */
  function CountIf(p: nat -> bool, n: nat): nat {
    if n == 0 then 0 else CountIf(p, n - 1) + if p(n - 1) then 1 else 0
  }

  function Flatten<T>(parts: seq<seq<T>>): seq<T> {
    if |parts| == 0 then [] else parts[0] + Flatten(parts[1..])
  }

  lemma {:induction false} FlattenAppend<T>(a: seq<seq<T>>, b: seq<seq<T>>)
    ensures Flatten(a + b) == Flatten(a) + Flatten(b)
  {
    if |a| == 0 {
      assert a + b == b;
    } else {
      assert (a + b)[0] == a[0] && (a + b)[1..] == a[1..] + b;
      FlattenAppend(a[1..], b);
    }
  }

  lemma FlattenSnoc<T>(a: seq<seq<T>>, x: seq<T>)
    ensures Flatten(a + [x]) == Flatten(a) + x
  {
    FlattenAppend(a, [x]);
    assert Flatten([x]) == x + Flatten<T>([]) == x;
  }
}
