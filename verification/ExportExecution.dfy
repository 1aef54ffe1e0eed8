/** ExecuteExport of internal/application/services/export_service.go as a function of its
    environment, and what a whole export guarantees. */
module ExportExecution {
  import opened Domain
  import opened Batching
  import opened ExportDefaults
  import opened AdaptiveExport
  import opened AdaptiveEvents
  import opened AdaptiveStaging
  import opened AdaptiveSampling
  import opened AdaptiveSelectors

  /** The progress report that follows a stored batch. */
  datatype Report = Report(batchIndex: nat, totalBatches: nat, range: TimeRange, metrics: nat)

  /** What the batch loop does: `outcome.added` is what the staging file gains. */
  datatype BatchRun = BatchRun(outcome: Outcome, reports: seq<Report>)

  const CANCELED: Failure := Failure(UnknownError, true)

  /** One batch: the context check, then the window. */
  function RunBatch(c: ExportConfig, env: Env, window: TimeRange, t: nat): Outcome {
    if env.canceled(t) then Outcome([], 0, Some(CANCELED), [], t + 1)
    else Export(c, env, NewAttempt(c, window), t + 1)
  }

  /** The batch loop of ExecuteExport from batch `i` on. */
  function RunBatches(c: ExportConfig, env: Env, windows: seq<TimeRange>, i: nat, t: nat): BatchRun
    decreases |windows| - i
  {
    if i >= |windows| then BatchRun(Outcome([], 0, None, [], t), [])
    else
      var o := RunBatch(c, env, windows[i], t);
      if !o.Ok() then BatchRun(o, [])
      else
        var rest := RunBatches(c, env, windows, i + 1, o.clock);
        BatchRun(rest.outcome.Following(o), [Report(i + 1, |windows|, windows[i], o.count)] + rest.reports)
  }

  function StartIndex(c: ExportConfig, n: nat): nat {
    if 0 <= c.resumeFromBatch < n then c.resumeFromBatch else 0
  }

  /** initializeStagingFile: a resumed export keeps the file, any other truncates it. */
  function StagingStart(c: ExportConfig, staging: Option<seq<Row>>): seq<Row> {
    if c.resumeFromBatch > 0 && staging.Some? then staging.value else []
  }

  datatype ExportResult = ExportResult(metricsExported: nat, archived: seq<Row>, stats: Stats)

  /** `staging` is the staging file afterwards, None if it does not exist. */
  datatype Execution = Execution(
    staging: Option<seq<Row>>, reports: seq<Report>, result: Option<ExportResult>, error: Option<Failure>,
    events: seq<Event>, clock: nat)

  /** ExecuteExport with the staging file as given. */
  function Execute(config: ExportConfig, env: Env, staging: Option<seq<Row>>, t: nat): Execution {
    var c := ServiceDefaults(config);
    match env.create(t)
    case Some(e) => Execution(staging, [], None, Some(e), [], t + 1)
    case None =>
      var windows := BatchWindows(c.timeRange, c.batching);
      Archived(c, env, StagingStart(c, staging), RunBatches(c, env, windows, StartIndex(c, |windows|), t + 1))
  }

  /** What follows the batch loop `run` on a staging file that held `start`. */
  function Archived(c: ExportConfig, env: Env, start: seq<Row>, run: BatchRun): Execution {
    var o := run.outcome;
    var after := start + o.added;
    if !o.Ok() then Execution(Some(after), run.reports, None, o.error, o.events, o.clock)
    else
      match env.archive(o.clock)
      case Some(e) => Execution(Some(after), run.reports, None, Some(e), o.events, o.clock + 1)
      case None =>
        Execution(if c.resumeFromBatch == 0 then None else Some(after), run.reports,
                  Some(ExportResult(o.count, after, RecordAll(InitialStats(c), o.events))), None, o.events, o.clock + 1)
  }

  // ---- What the batch loop keeps ----

  function Metrics(reports: seq<Report>): nat {
    if |reports| == 0 then 0 else reports[0].metrics + Metrics(reports[1..])
  }

  /** The reports name the batches after `done`, one by one. */
  predicate Consecutive(reports: seq<Report>, done: nat) {
    |reports| == 0 || (reports[0].batchIndex == done + 1 && Consecutive(reports[1..], done + 1))
  }

  /** Every stored batch is reported once, in order; on success none is missing. */
  lemma {:induction false} ReportsInOrder(c: ExportConfig, env: Env, windows: seq<TimeRange>, i: nat, t: nat)
    ensures Consecutive(RunBatches(c, env, windows, i, t).reports, i)
    ensures RunBatches(c, env, windows, i, t).outcome.Ok() && i <= |windows| ==>
              |RunBatches(c, env, windows, i, t).reports| == |windows| - i
    decreases |windows| - i
  {
    if i < |windows| {
      var o := RunBatch(c, env, windows[i], t);
      if o.Ok() {
        ReportsInOrder(c, env, windows, i + 1, o.clock);
        assert RunBatches(c, env, windows, i, t).reports[1..] == RunBatches(c, env, windows, i + 1, o.clock).reports;
      }
    }
  }

  /** The append to the staging file itself tears in this batch. */
  predicate BatchTear(c: ExportConfig, env: Env, window: TimeRange, t: nat) {
    !env.canceled(t) && OwnTear(c, env, NewAttempt(c, window), t + 1)
  }

  lemma BatchAllOrNothing(c: ExportConfig, env: Env, window: TimeRange, t: nat)
    ensures AllOrNothing(env, RunBatch(c, env, window, t), t, BatchTear(c, env, window, t))
  {
    if !env.canceled(t) { StagingAllOrNothing(c, env, NewAttempt(c, window), t + 1); }
  }

  /** The batch that stops the loop does so with a torn append to the staging file. */
  predicate LoopTear(c: ExportConfig, env: Env, windows: seq<TimeRange>, i: nat, t: nat)
    decreases |windows| - i
  {
    i < |windows| &&
    var o := RunBatch(c, env, windows[i], t);
    if o.Ok() then LoopTear(c, env, windows, i + 1, o.clock) else BatchTear(c, env, windows[i], t)
  }

  /** The rows a whole batch loop adds are the rows it reports exactly if it does not stop in
      a torn append to the staging file; what it counts on success it has added. */
  lemma {:induction false} ReportsMatchStaging(c: ExportConfig, env: Env, windows: seq<TimeRange>, i: nat, t: nat)
    ensures var r := RunBatches(c, env, windows, i, t);
            && t <= r.outcome.clock
            && (r.outcome.Ok() ==> Metrics(r.reports) == r.outcome.count == |r.outcome.added|)
            && (Metrics(r.reports) == |r.outcome.added| <==> r.outcome.Ok() || !LoopTear(c, env, windows, i, t))
    decreases |windows| - i
  {
    if i < |windows| {
      BatchAllOrNothing(c, env, windows[i], t);
      var o := RunBatch(c, env, windows[i], t);
      if o.Ok() {
        ReportsMatchStaging(c, env, windows, i + 1, o.clock);
        assert RunBatches(c, env, windows, i, t).reports[1..] == RunBatches(c, env, windows, i + 1, o.clock).reports;
      }
    }
  }

  lemma {:induction false} BatchesAreWitnessed(c: ExportConfig, env: Env, windows: seq<TimeRange>, i: nat, t: nat)
    requires Normalized(c) && i < |windows| && RunBatches(c, env, windows, i, t).outcome.Ok()
    ensures Witnessed(RunBatches(c, env, windows, i, t).outcome.events, c.metricStepSeconds, c.safety.maxStepSeconds)
    decreases |windows| - i
  {
    var a := NewAttempt(c, windows[i]);
    var o := Export(c, env, a, t + 1);
    SuccessIsWitnessed(c, env, a, t + 1);
    var rest := RunBatches(c, env, windows, i + 1, o.clock);
    if i + 1 < |windows| {
      BatchesAreWitnessed(c, env, windows, i + 1, o.clock);
      WitnessedAppend(o.events, rest.outcome.events, c.metricStepSeconds, c.safety.maxStepSeconds);
    } else {
      assert o.events + rest.outcome.events == o.events;
    }
  }

  /** In a successful export the recorded step is the largest step of any kept attempt, is
      within the configured maximum, and an unsampled export took every row raw. */
  lemma ExportRecordsLargestStep(config: ExportConfig, env: Env, staging: Option<seq<Row>>, t: nat)
    requires Execute(config, env, staging, t).result.Some?
    ensures var x := Execute(config, env, staging, t);
            var s := x.result.value.stats;
            && (forall l :: l in Leaves(x.events) ==> l.attempt.step <= s.maxStepUsed)
            && HasLeafStep(Leaves(x.events), s.maxStepUsed)
            && s.maxStepUsed <= ServiceDefaults(config).safety.maxStepSeconds <= MAX_STEP
            && (s.sampled ==> s.RecordedStep() == s.maxStepUsed)
            && (!s.sampled ==> s.RecordedStep() == 0 && !SomeQueryRange(Leaves(x.events)))
            && (s.sampled <==> SomeQueryRange(Leaves(x.events)) || SomeCoarser(Decisions(x.events)))
  {
    var c := ServiceDefaults(config);
    DefaultsAreNormalized(config);
    var windows := BatchWindows(c.timeRange, c.batching);
    BatchWindowsTile(c.timeRange, c.batching);
    BatchesAreWitnessed(c, env, windows, StartIndex(c, |windows|), t + 1);
    RecordedStepIsLargest(c, Execute(config, env, staging, t).events);
  }

  /** The archive's metadata name the mode and list every decision, in order. */
  lemma ExportRecordsDecisions(config: ExportConfig, env: Env, staging: Option<seq<Row>>, t: nat)
    requires Execute(config, env, staging, t).result.Some?
    ensures var x := Execute(config, env, staging, t);
            var s := x.result.value.stats;
            s.mode == ServiceDefaults(config).safety.mode && s.decisions == Decisions(x.events)
  {
    var x := Execute(config, env, staging, t);
    RecordAllMeans(InitialStats(ServiceDefaults(config)), x.events);
    RecordAllKeepsMode(InitialStats(ServiceDefaults(config)), x.events);
    assert [] + Decisions(x.events) == Decisions(x.events);
  }

  // ---- The requested range ----

  /** Where the batches of an export begin, those of a resumed one at its first batch. */
  function FirstInstant(config: ExportConfig): int {
    var c := ServiceDefaults(config);
    var windows := BatchWindows(c.timeRange, c.batching);
    BatchWindowsTile(c.timeRange, c.batching);
    windows[StartIndex(c, |windows|)].start
  }

  lemma BatchCoversOnce(
    holds: (string, Row) -> bool, c: ExportConfig, env: Env, window: TimeRange, t: nat, row: Row, x: int)
    requires SafeToDivide(c, row) && RunBatch(c, env, window, t).Ok()
    ensures Hits(holds, Leaves(RunBatch(c, env, window, t).events), row, x) ==
            if Wanted(holds, c, row) && window.Contains(x) then 1 else 0
  {
    SuccessCoversOnce(holds, c, env, NewAttempt(c, window), t + 1, row, x);
    NewAttemptSelects(holds, c, window, row);
  }

  lemma {:induction false} BatchesCoverWindows(
    holds: (string, Row) -> bool, c: ExportConfig, env: Env, windows: seq<TimeRange>, i: nat, t: nat, row: Row, x: int)
    requires SafeToDivide(c, row) && i <= |windows| && RunBatches(c, env, windows, i, t).outcome.Ok()
    ensures Hits(holds, Leaves(RunBatches(c, env, windows, i, t).outcome.events), row, x) ==
            if Wanted(holds, c, row) then Covering(windows[i..], x) else 0
    decreases |windows| - i
  {
    if i < |windows| {
      var o := RunBatch(c, env, windows[i], t);
      assert windows[i..][0] == windows[i] && windows[i..][1..] == windows[i + 1..];
      BatchCoversOnce(holds, c, env, windows[i], t, row, x);
      BatchesCoverWindows(holds, c, env, windows, i + 1, o.clock, row, x);
      var rest := RunBatches(c, env, windows, i + 1, o.clock);
      LeavesOfAppend(o.events, rest.outcome.events);
      HitsAppend(holds, Leaves(o.events), Leaves(rest.outcome.events), row, x);
    }
  }

  /** A successful export covers its range exactly once over all its batches: every wanted row is
      selected, at every instant from its first batch to the end of the range, by exactly one
      attempt that was kept, and nothing else is. */
  lemma ExportCoversOnce(holds: (string, Row) -> bool, config: ExportConfig, env: Env, staging: Option<seq<Row>>,
                         t: nat, row: Row, x: int)
    requires config.timeRange.start < config.timeRange.end && Execute(config, env, staging, t).result.Some?
    requires SafeToDivide(config, row)
    ensures config.resumeFromBatch <= 0 ==> FirstInstant(config) == config.timeRange.start
    ensures Hits(holds, Leaves(Execute(config, env, staging, t).events), row, x) ==
            if Wanted(holds, config, row) && FirstInstant(config) <= x < config.timeRange.end then 1 else 0
  {
    var c := ServiceDefaults(config);
    var windows := BatchWindows(c.timeRange, c.batching);
    BatchWindowsTile(c.timeRange, c.batching);
    var k := StartIndex(c, |windows|);
    ChainFrom(windows, config.timeRange.start, config.timeRange.end, k);
    BatchesCoverWindows(holds, c, env, windows, k, t + 1, row, x);
    ChainPartitions(windows[k..], windows[k].start, config.timeRange.end, x);
  }

  // ---- The requests of a MetricsQL export ----

  predicate IsMetricsQL(c: ExportConfig) { c.mode.Custom? && c.queryType.MetricsQL? && c.query.text != "" }

  ghost predicate AllRanged(leaves: seq<Leaf>) { forall l :: l in leaves ==> l.attempt.useQueryRange }

  /** The children of a division by job read from the export API. */
  predicate RawChildren(c: ExportConfig) { SplitsByJob(c) && (c.mode.Custom? ==> CanNarrow(c.query)) }

  /** The configuration may divide an attempt by job into children that read from the export API. */
  predicate DividesToRaw(c: ExportConfig, jobs: seq<string>) {
    |jobs| > 1 && c.safety.autoSplit && c.safety.splitByJob && c.safety.maxSplitDepth > 0 && RawChildren(c)
  }

  lemma {:induction false} JobChildrenKeepMode(c: ExportConfig, parent: Attempt, jobs: seq<string>)
    requires SplitsByJob(c)
    ensures forall x :: x in JobChildren(c, parent, jobs) ==>
              x.useQueryRange == !RawChildren(c) && x.depth == parent.depth + 1 && x.range == parent.range
  {
    if |jobs| > 0 { JobChildrenKeepMode(c, parent, jobs[1..]); }
  }

  /** Every kept attempt used query_range, and on success there is one. */
  ghost predicate Ranged(o: Outcome) { AllRanged(Leaves(o.events)) && (o.Ok() ==> |Leaves(o.events)| > 0) }

  lemma DecidedRanged(a: Attempt, d: Decision, o: Outcome)
    requires Ranged(o)
    ensures Ranged(o.After([Issued(a), Decided(d)]))
  {
    LeavesAfterDecision(a, d, o.events);
  }

  lemma DividedRanged(c: ExportConfig, env: Env, a: Attempt, children: seq<Attempt>, t: nat)
    requires (forall x :: x in children ==> Below(c, x, a)) && Ranged(ExportEach(c, env, a, children, t + 1))
    ensures Ranged(ExportDivided(c, env, a, children, t))
  {
  }

  /** The children of a division on query_range are on query_range too. */
  lemma DivisionStaysRanged(c: ExportConfig, a: Attempt, kind: ErrorKind)
    requires a.useQueryRange && a.depth >= 0 && !DividesToRaw(c, a.jobs) && PlanFor(c, a, kind).Divide?
    ensures |PlanFor(c, a, kind).children| > 0
    ensures forall x :: x in PlanFor(c, a, kind).children ==>
            x.useQueryRange && x.depth >= 0 && !DividesToRaw(c, x.jobs)
  {
    if SplitsByJob(c) { JobChildrenKeepMode(c, a, a.jobs); }
  }

  /** A query that is not divided by job, or only into children on query_range, never leaves it. */
  lemma {:induction false} StaysOnQueryRange(c: ExportConfig, env: Env, a: Attempt, t: nat)
    requires a.useQueryRange && a.depth >= 0 && !DividesToRaw(c, a.jobs)
    ensures Ranged(Export(c, env, a, t))
    decreases JobsToSplit(a), FallbacksLeft(a), RungsLeft(c, a), DepthLeft(c, a), 1, 0
  {
    var f := Fetch(env, a, t);
    match f.reply
    case Rows(rows) => SuccessEvents(a, rows);
    case Broken(_, e) =>
      RetriesDescend(c, a, e.kind);
      match PlanFor(c, a, e.kind) {
        case GiveUp => OneEvent(Issued(a));
        case CannotDivide(d) => DecisionEvents(a, d);
        case Retry(d, next) =>
          assert next in Successors(PlanFor(c, a, e.kind));
          StaysOnQueryRange(c, env, next, f.clock);
          DecidedRanged(a, d, Export(c, env, next, f.clock));
        case Divide(d, children) =>
          DivisionStaysRanged(c, a, e.kind);
          EachStaysOnQueryRange(c, env, a, children, f.clock + 1);
          DividedRanged(c, env, a, children, f.clock);
          DecidedRanged(a, d, ExportDivided(c, env, a, children, f.clock));
      }
  }

  lemma {:induction false} EachStaysOnQueryRange(c: ExportConfig, env: Env, a: Attempt, children: seq<Attempt>, t: nat)
    requires forall x :: x in children ==> Below(c, x, a) && x.useQueryRange && x.depth >= 0 && !DividesToRaw(c, x.jobs)
    ensures AllRanged(Leaves(ExportEach(c, env, a, children, t).events))
    ensures |children| > 0 ==> Ranged(ExportEach(c, env, a, children, t))
    decreases JobsToSplit(a), FallbacksLeft(a), RungsLeft(c, a), DepthLeft(c, a), 0, |children|
  {
    if |children| > 0 {
      assert children[0] in children;
      StaysOnQueryRange(c, env, children[0], t);
      var first := Export(c, env, children[0], t);
      if first.Ok() {
        EachStaysOnQueryRange(c, env, a, children[1..], first.clock);
        LeavesOfAppend(first.events, ExportEach(c, env, a, children[1..], first.clock).events);
      }
    }
  }

  lemma {:induction false} BatchesAreChain(c: ExportConfig, env: Env, windows: seq<TimeRange>, i: nat, t: nat, lo: int,
                                           hi: int)
    requires IsMetricsQL(c) && i <= |windows| && Chain(windows[i..], lo, hi)
    requires RunBatches(c, env, windows, i, t).outcome.Ok()
    ensures Chain(Ranges(Leaves(RunBatches(c, env, windows, i, t).outcome.events)), lo, hi)
    ensures AllRanged(Leaves(RunBatches(c, env, windows, i, t).outcome.events))
    decreases |windows| - i
  {
    if i < |windows| {
      var a := NewAttempt(c, windows[i]);
      var o := Export(c, env, a, t + 1);
      assert windows[i..][0] == windows[i] && windows[i..][1..] == windows[i + 1..];
      SuccessIsChain(c, env, a, t + 1);
      StaysOnQueryRange(c, env, a, t + 1);
      BatchesAreChain(c, env, windows, i + 1, o.clock, windows[i].end, hi);
      var rest := RunBatches(c, env, windows, i + 1, o.clock);
      LeavesOfAppend(o.events, rest.outcome.events);
      RangesOfAppend(Leaves(o.events), Leaves(rest.outcome.events));
      ChainAppend(Ranges(Leaves(o.events)), Ranges(Leaves(rest.outcome.events)), lo, windows[i].end, hi);
    }
  }

  /** The requests behind the kept rows of a successful MetricsQL export, hour chunks inside
      halved windows inside batches, form one gap-free chain from its first batch, which is the
      start of the requested range unless it was resumed, to the end of the range, none longer
      than an hour, and ask for every whole second in between. */
  lemma MetricsQLRequestsAreChain(config: ExportConfig, env: Env, staging: Option<seq<Row>>, t: nat)
    requires IsMetricsQL(config) && config.timeRange.start < config.timeRange.end
    requires Execute(config, env, staging, t).result.Some?
    ensures config.resumeFromBatch <= 0 ==> FirstInstant(config) == config.timeRange.start
    ensures var leaves := Leaves(Execute(config, env, staging, t).events);
            var requests := ChunksOf(Ranges(leaves));
            && AllRanged(leaves)
            && Chain(requests, FirstInstant(config), config.timeRange.end)
            && (forall r :: r in requests ==> r.Duration() <= HOUR)
            && (forall s :: UnixSecond(FirstInstant(config)) <= s <= UnixSecond(config.timeRange.end) ==>
                  SomeAskFor(requests, s))
  {
    var c := ServiceDefaults(config);
    var windows := BatchWindows(c.timeRange, c.batching);
    BatchWindowsTile(c.timeRange, c.batching);
    var k := StartIndex(c, |windows|);
    ChainFrom(windows, config.timeRange.start, config.timeRange.end, k);
    BatchesAskForAll(c, env, windows, k, t + 1, FirstInstant(config), config.timeRange.end);
  }

  lemma BatchesAskForAll(c: ExportConfig, env: Env, windows: seq<TimeRange>, k: nat, t: nat, lo: int, hi: int)
    requires IsMetricsQL(c) && k <= |windows| && Chain(windows[k..], lo, hi) && lo < hi
    requires RunBatches(c, env, windows, k, t).outcome.Ok()
    ensures var leaves := Leaves(RunBatches(c, env, windows, k, t).outcome.events);
            var requests := ChunksOf(Ranges(leaves));
            && AllRanged(leaves) && Chain(requests, lo, hi) && (forall r :: r in requests ==> r.Duration() <= CHUNK)
            && (forall s :: UnixSecond(lo) <= s <= UnixSecond(hi) ==> SomeAskFor(requests, s))
  {
    BatchesAreChain(c, env, windows, k, t, lo, hi);
    var ranges := Ranges(Leaves(RunBatches(c, env, windows, k, t).outcome.events));
    ChunksOfChain(ranges, lo, hi);
    forall s | UnixSecond(lo) <= s <= UnixSecond(hi) ensures SomeAskFor(ChunksOf(ranges), s) {
      ChainAsksForEverySecond(ChunksOf(ranges), lo, hi, s);
    }
  }
}
