/** One run of a job as steps of its goroutine: what the manager and ExecuteExport do together is
    what these steps do to manager, staging file, archive and history. */
module ExportRunSteps {
  import opened Domain
  import opened Batching
  import opened ExportDefaults
  import opened AdaptiveExport
  import opened ExportExecution
  import opened ExportJobs
  import opened ExportRuns
  import opened ExportRunProperties

  /** The reports of a run, each handed to updateBatch. */
  function Reported(m: Manager, id: string, reports: seq<Report>, baseMetrics: nat): Manager {
    if |reports| == 0 then m
    else
      var r := reports[|reports| - 1];
      Updated(Reported(m, id, reports[..|reports| - 1], baseMetrics), id, r.batchIndex, r.totalBatches, r.metrics,
              baseMetrics)
  }

  function EndingOf(result: Option<ExportResult>, error: Option<Failure>): Ending {
    if result.Some? then Done(result.value.metricsExported) else Error(error.Some? && error.value.canceled)
  }

  /** The configuration of a run of job `j`: a resumed job continues after its stored batches. */
  function ConfigOf(config: ExportConfig, j: Job): ExportConfig {
    if j.resumeFrom > 0 then config.(resumeFromBatch := j.resumeFrom) else config
  }

  /** The manager after a run of live job `id` that went as `x`. */
  function Ran(m: Manager, id: string, x: Execution, now: int): Manager
    requires id in m.jobs
  {
    var reported := Reported(MarkedRunning(m, id), id, x.reports, m.jobs[id].baseMetrics);
    Finished(reported, id, EndingOf(x.result, x.error), now)
  }

  // ---- The batch loop ----

  /** The events of goroutine `r` of job `id` while ExecuteExport goes through its batches from
      `i` on; where the engine finds the context cancelled, the job has been cancelled. */
  function EventsOfBatches(
    r: nat, id: string, c: ExportConfig, env: Env, windows: seq<TimeRange>, i: nat, t: nat): seq<Step>
    decreases |windows| - i
  {
    if i >= |windows| then []
    else
      var o := RunBatch(c, env, windows[i], t);
      if env.canceled(t) then [CancelJob(id), BeginBatch(r)]
      else if !o.Ok() then Failing(r, o.added, o.error.value.canceled)
      else Batched(r, o.added) + EventsOfBatches(r, id, c, env, windows, i + 1, o.clock)
  }

  /** One batch whose window fails. */
  function Failing(r: nat, residue: seq<Row>, canceled: bool): seq<Step> {
    [BeginBatch(r), RunWindow(r, Lost(residue, canceled))]
  }

  /** The batches the loop stores from batch `i` on: batch k holds what the engine adds for
      window k, at the time its turn comes. */
  function StoredBatches(c: ExportConfig, env: Env, windows: seq<TimeRange>, i: nat, t: nat): seq<Batch>
    decreases |windows| - i
  {
    if i >= |windows| then []
    else
      var o := RunBatch(c, env, windows[i], t);
      if !o.Ok() then [] else [Batch(i, o.added)] + StoredBatches(c, env, windows, i + 1, o.clock)
  }

  /** The loop stops because its context is cancelled. */
  predicate Interrupted(c: ExportConfig, env: Env, windows: seq<TimeRange>, i: nat, t: nat)
    decreases |windows| - i
  {
    i < |windows| &&
    var o := RunBatch(c, env, windows[i], t);
    env.canceled(t) || (o.Ok() && Interrupted(c, env, windows, i + 1, o.clock))
  }

  /** What the loop leaves of manager `m`: every report was handed to updateBatch, and if the
      context was cancelled, the job was. */
  function ManagerAfter(
    m: Manager, id: string, base: nat, c: ExportConfig, env: Env, windows: seq<TimeRange>, i: nat, t: nat): Manager
  {
    var n := Reported(m, id, RunBatches(c, env, windows, i, t).reports, base);
    if Interrupted(c, env, windows, i, t) then Cancel(n, id).0 else n
  }

  lemma {:induction false} ReportedCons(m: Manager, id: string, r: Report, rest: seq<Report>, base: nat)
    ensures Reported(m, id, [r] + rest, base) ==
            Reported(Updated(m, id, r.batchIndex, r.totalBatches, r.metrics, base), id, rest, base)
    decreases |rest|
  {
    var all := [r] + rest;
    if |rest| == 0 {
      assert all == [r] && all[..0] == [];
    } else {
      assert all[..|all| - 1] == [r] + rest[..|rest| - 1];
      ReportedCons(m, id, r, rest[..|rest| - 1], base);
    }
  }

  lemma ManagerAfterBatch(
    m: Manager, id: string, base: nat, c: ExportConfig, env: Env, windows: seq<TimeRange>, i: nat, t: nat)
    requires i < |windows| && RunBatch(c, env, windows[i], t).Ok()
    ensures var o := RunBatch(c, env, windows[i], t);
            ManagerAfter(m, id, base, c, env, windows, i, t) ==
            ManagerAfter(Updated(m, id, i + 1, |windows|, |o.added|, base), id, base, c, env, windows, i + 1, o.clock)
  {
    var o := RunBatch(c, env, windows[i], t);
    BatchAllOrNothing(c, env, windows[i], t);
    var report := Report(i + 1, |windows|, windows[i], o.count);
    ReportedCons(m, id, report, RunBatches(c, env, windows, i + 1, o.clock).reports, base);
  }

  /** The batch loop from `i` on, after a batch that was stored. */
  lemma StoredBatch(c: ExportConfig, env: Env, windows: seq<TimeRange>, i: nat, t: nat)
    requires i < |windows| && RunBatch(c, env, windows[i], t).Ok()
    ensures var o := RunBatch(c, env, windows[i], t);
            var x, y := RunBatches(c, env, windows, i, t), RunBatches(c, env, windows, i + 1, o.clock);
            && x.outcome.added == o.added + y.outcome.added && x.outcome.error == y.outcome.error
            && Metrics(x.reports) == |o.added| + Metrics(y.reports)
  {
    var o := RunBatch(c, env, windows[i], t);
    BatchAllOrNothing(c, env, windows[i], t);
    var x, y := RunBatches(c, env, windows, i, t), RunBatches(c, env, windows, i + 1, o.clock);
    assert x.reports[1..] == y.reports;
  }

  function PcAfter(o: Outcome, n: nat): Pc { if o.Ok() then Looping(n) else Closing(Error(o.error.value.canceled)) }

  /** What some steps of a goroutine bring about: the manager they leave, the rows its staging file
      gains, the batches reported and their lines, and where it then is. */
  datatype Gain = Gain(m: Manager, rows: seq<Row>, metrics: nat, batches: seq<Batch>, pc: Pc) {
    function Then(later: Gain): Gain {
      Gain(later.m, rows + later.rows, metrics + later.metrics, batches + later.batches, later.pc)
    }
  }

  /** From `s` to `s'` that is all that has changed. */
  ghost predicate Advances(s: System, s': System, r: nat, g: Gain)
    requires r in s.runs
  {
    var run := s.runs[r];
    && s'.m == g.m && s'.archives == s.archives && s'.nextRun == s.nextRun && s'.now == s.now
    && s'.runs == s.runs[r := run.(exported := run.exported + g.metrics, pc := g.pc)]
    && s'.files == s.files[run.job := FileOf(s, run.job) + g.rows]
    && s'.history == s.history[run.job := HistoryOf(s, run.job) + g.batches]
  }

  lemma AdvancesTwice(s: System, t: System, u: System, r: nat, g: Gain, h: Gain)
    requires r in s.runs && Advances(s, t, r, g) && Advances(t, u, r, h)
    ensures Advances(s, u, r, g.Then(h))
  {
    var id := s.runs[r].job;
    assert FileOf(s, id) + g.rows + h.rows == FileOf(s, id) + (g.rows + h.rows);
    assert HistoryOf(s, id) + g.batches + h.batches == HistoryOf(s, id) + (g.batches + h.batches);
    assert FileOf(t, id) == FileOf(s, id) + g.rows && HistoryOf(t, id) == HistoryOf(s, id) + g.batches;
    assert t.runs[r] == s.runs[r].(exported := s.runs[r].exported + g.metrics, pc := g.pc);
    assert u.runs == s.runs[r := u.runs[r]];
  }

  function BatchGain(m: Manager, i: nat, rows: seq<Row>): Gain {
    Gain(m, rows, |rows|, [Batch(i, rows)], Looping(i + 1))
  }

  /** What the batch loop from `i` on brings about for job `id` of manager `m`. */
  function LoopGain(
    m: Manager, id: string, base: nat, c: ExportConfig, env: Env, windows: seq<TimeRange>, i: nat, t: nat): Gain
  {
    var x := RunBatches(c, env, windows, i, t);
    Gain(ManagerAfter(m, id, base, c, env, windows, i, t), x.outcome.added, Metrics(x.reports),
         StoredBatches(c, env, windows, i, t), PcAfter(x.outcome, |windows|))
  }

  lemma BatchThenLoop(
    m: Manager, id: string, base: nat, c: ExportConfig, env: Env, windows: seq<TimeRange>, i: nat, t: nat)
    requires i < |windows| && RunBatch(c, env, windows[i], t).Ok()
    ensures var o := RunBatch(c, env, windows[i], t);
            var n := Updated(m, id, i + 1, |windows|, |o.added|, base);
            LoopGain(m, id, base, c, env, windows, i, t) ==
            BatchGain(n, i, o.added).Then(LoopGain(n, id, base, c, env, windows, i + 1, o.clock))
  {
    StoredBatch(c, env, windows, i, t);
    ManagerAfterBatch(m, id, base, c, env, windows, i, t);
  }

  /** Job `id` can be cancelled and has not been. */
  predicate Undisturbed(s: System, id: string) { CanCancel(s, id) && !ContextCanceled(s, id) }

  predicate CanCancel(s: System, id: string) { id in s.m.jobs && s.m.jobs[id].Live() && s.m.jobs[id].cancelable }

  lemma WindowStored(s: System, r: nat, next: nat, rows: seq<Row>)
    requires At(s, r, Working(next))
    ensures var run := s.runs[r];
            Apply(s, RunWindow(r, Kept(rows))) ==
            s.(runs := s.runs[r := run.(pc := Stored(next, rows))],
               files := s.files[run.job := FileOf(s, run.job) + rows])
  {
  }

  lemma WindowReported(s: System, r: nat, next: nat, rows: seq<Row>)
    requires At(s, r, Stored(next, rows))
    ensures var run := s.runs[r];
            Apply(s, ReportBatch(r)) ==
            s.(m := Updated(s.m, run.job, next + 1, run.windows, |rows|, run.baseMetrics),
               runs := s.runs[r := run.(exported := run.exported + |rows|, pc := Looping(next + 1))],
               history := s.history[run.job := HistoryOf(s, run.job) + [Batch(next, rows)]])
  {
  }

  lemma WindowKept(s: System, t: System, r: nat, next: nat, rows: seq<Row>)
    requires r in s.runs && t == s.(runs := s.runs[r := s.runs[r].(pc := Working(next))])
    ensures var run := s.runs[r];
            var m := Updated(s.m, run.job, next + 1, run.windows, |rows|, run.baseMetrics);
            Advances(s, Apply(Apply(t, RunWindow(r, Kept(rows))), ReportBatch(r)), r, BatchGain(m, next, rows))
  {
    WindowStored(t, r, next, rows);
    WindowReported(Apply(t, RunWindow(r, Kept(rows))), r, next, rows);
  }

  lemma BatchBegins(s: System, r: nat)
    requires BeforeBatch(s, r) && Undisturbed(s, s.runs[r].job)
    ensures Apply(s, BeginBatch(r)) == s.(runs := s.runs[r := s.runs[r].(pc := Working(s.runs[r].pc.next))])
  {
  }

  lemma BatchedFrom(s: System, t: System, r: nat, rows: seq<Row>)
    requires BeforeBatch(s, r) && Undisturbed(s, s.runs[r].job)
    requires t == s.(runs := s.runs[r := s.runs[r].(pc := Working(s.runs[r].pc.next))])
    ensures ApplyAll(s, Batched(r, rows)) == Apply(Apply(t, RunWindow(r, Kept(rows))), ReportBatch(r))
  {
    BatchBegins(s, r);
    ApplyThree(s, BeginBatch(r), RunWindow(r, Kept(rows)), ReportBatch(r));
  }

  lemma StoresFirst(s: System, r: nat, rows: seq<Row>)
    requires BeforeBatch(s, r) && Undisturbed(s, s.runs[r].job)
    ensures var run := s.runs[r];
            var next := run.pc.next;
            var m := Updated(s.m, run.job, next + 1, run.windows, |rows|, run.baseMetrics);
            Advances(s, ApplyAll(s, Batched(r, rows)), r, BatchGain(m, next, rows))
  {
    var t := s.(runs := s.runs[r := s.runs[r].(pc := Working(s.runs[r].pc.next))]);
    BatchedFrom(s, t, r, rows);
    WindowKept(s, t, r, s.runs[r].pc.next, rows);
  }

  lemma WindowLost(s: System, t: System, r: nat, next: nat, residue: seq<Row>, canceled: bool)
    requires r in s.runs && t == s.(runs := s.runs[r := s.runs[r].(pc := Working(next))]) && s.runs[r].job in s.history
    ensures Advances(s, Apply(t, RunWindow(r, Lost(residue, canceled))), r,
                     Gain(s.m, residue, 0, [], Closing(Error(canceled))))
  {
    assert HistoryOf(s, s.runs[r].job) + [] == HistoryOf(s, s.runs[r].job);
  }

  lemma FailsFirst(s: System, r: nat, residue: seq<Row>, canceled: bool)
    requires BeforeBatch(s, r) && Undisturbed(s, s.runs[r].job) && s.runs[r].job in s.history
    ensures Advances(s, ApplyAll(s, Failing(r, residue, canceled)), r,
                     Gain(s.m, residue, 0, [], Closing(Error(canceled))))
  {
    ApplyTwo(s, BeginBatch(r), RunWindow(r, Lost(residue, canceled)));
    BatchBegins(s, r);
    WindowLost(s, Apply(s, BeginBatch(r)), r, s.runs[r].pc.next, residue, canceled);
  }

  lemma CanceledStops(s: System, r: nat)
    requires BeforeBatch(s, r) && ContextCanceled(s, s.runs[r].job)
    ensures Apply(s, BeginBatch(r)) == s.(runs := s.runs[r := s.runs[r].(pc := Closing(Error(true)))])
  {
  }

  lemma CancelsFirst(s: System, r: nat)
    requires BeforeBatch(s, r) && CanCancel(s, s.runs[r].job) && s.runs[r].job in s.history && s.runs[r].job in s.files
    ensures var id := s.runs[r].job;
            Advances(s, ApplyAll(s, [CancelJob(id), BeginBatch(r)]), r,
                     Gain(Cancel(s.m, id).0, [], 0, [], Closing(Error(true))))
  {
    var id := s.runs[r].job;
    ApplyTwo(s, CancelJob(id), BeginBatch(r));
    CanceledStops(s.(m := Cancel(s.m, id).0), r);
    assert HistoryOf(s, id) + [] == HistoryOf(s, id) && FileOf(s, id) + [] == FileOf(s, id);
  }

  lemma NothingLeft(s: System, r: nat)
    requires r in s.runs && s.runs[r].job in s.history && s.runs[r].job in s.files
    ensures Advances(s, s, r, Gain(s.m, [], 0, [], s.runs[r].pc))
  {
    var id := s.runs[r].job;
    assert HistoryOf(s, id) + [] == HistoryOf(s, id) && FileOf(s, id) + [] == FileOf(s, id);
  }

  /** Where the engine sees the context of the job. */
  predicate Sees(s: System, id: string, env: Env, t: nat) { ContextCanceled(s, id) ==> env.canceled(t) }

  /** The batch loop is about to run batch `i`, and the job can be cancelled. */
  ghost predicate Ready(s: System, r: nat, i: nat, n: nat) {
    && At(s, r, Looping(i)) && s.runs[r].windows == n && i <= n
    && CanCancel(s, s.runs[r].job) && s.runs[r].job in s.files && s.runs[r].job in s.history
  }

  lemma AdvancesOn(s: System, r: nat, first: seq<Step>, rest: seq<Step>, g: Gain, h: Gain)
    requires r in s.runs && Advances(s, ApplyAll(s, first), r, g)
             && Advances(ApplyAll(s, first), ApplyAll(ApplyAll(s, first), rest), r, h)
    ensures Advances(s, ApplyAll(s, first + rest), r, g.Then(h))
  {
    ApplyAllAppend(s, first, rest);
    AdvancesTwice(s, ApplyAll(s, first), ApplyAll(s, first + rest), r, g, h);
  }

  lemma StoredIsReady(s: System, t: System, r: nat, i: nat, n: nat, rows: seq<Row>)
    requires Ready(s, r, i, n) && i < n && !ContextCanceled(s, s.runs[r].job)
    requires Advances(s, t, r, BatchGain(Updated(s.m, s.runs[r].job, i + 1, n, |rows|, s.runs[r].baseMetrics), i, rows))
    ensures Ready(t, r, i + 1, n) && !ContextCanceled(t, s.runs[r].job)
    ensures t.runs[r].job == s.runs[r].job && t.runs[r].baseMetrics == s.runs[r].baseMetrics
  {
  }

  /** The goroutine of a live job does exactly what the batch loop of ExecuteExport does: it reports
      batch k with the rows the engine adds for window k, hands the manager the same reports, and
      changes nothing else. */
  lemma {:induction false} EngineDrivesRun(
    s: System, r: nat, c: ExportConfig, env: Env, windows: seq<TimeRange>, i: nat, t: nat)
    requires Ready(s, r, i, |windows|) && (i < |windows| ==> Sees(s, s.runs[r].job, env, t))
    ensures var id := s.runs[r].job;
            Advances(s, ApplyAll(s, EventsOfBatches(r, id, c, env, windows, i, t)), r,
                     LoopGain(s.m, id, s.runs[r].baseMetrics, c, env, windows, i, t))
    decreases |windows| - i
  {
    if i == |windows| {
      NothingLeft(s, r);
    } else if env.canceled(t) {
      CancelsFirst(s, r);
    } else if !RunBatch(c, env, windows[i], t).Ok() {
      FailsFirst(s, r, RunBatch(c, env, windows[i], t).added, RunBatch(c, env, windows[i], t).error.value.canceled);
    } else {
      var id, base, o := s.runs[r].job, s.runs[r].baseMetrics, RunBatch(c, env, windows[i], t);
      var m := Updated(s.m, id, i + 1, |windows|, |o.added|, base);
      StoresFirst(s, r, o.added);
      StoredIsReady(s, ApplyAll(s, Batched(r, o.added)), r, i, |windows|, o.added);
      EngineDrivesRun(ApplyAll(s, Batched(r, o.added)), r, c, env, windows, i + 1, o.clock);
      BatchThenLoop(s.m, id, base, c, env, windows, i, t);
      AdvancesOn(s, r, Batched(r, o.added), EventsOfBatches(r, id, c, env, windows, i + 1, o.clock),
                 BatchGain(m, i, o.added), LoopGain(m, id, base, c, env, windows, i + 1, o.clock));
    }
  }

  // ---- A whole run ----

  function StagingOf(s: System, id: string): Option<seq<Row>> { if id in s.files then Some(s.files[id]) else None }

  /** Opening the staging file or writing the archive does not fail with a cancellation. */
  ghost predicate PlainFailures(env: Env) {
    forall n: nat ::
      && (env.create(n).Some? ==> !env.create(n).value.canceled)
      && (env.archive(n).Some? ==> !env.archive(n).value.canceled)
  }

  /** The batch loop of ExecuteExport, from the batch it resumes at. */
  function LoopOf(config: ExportConfig, env: Env, t: nat): BatchRun {
    var c := ServiceDefaults(config);
    var windows := BatchWindows(c.timeRange, c.batching);
    RunBatches(c, env, windows, StartIndex(c, |windows|), t + 1)
  }

  /** The steps of goroutine `r` of job `id` while it is in ExecuteExport. */
  function StepsOfExport(r: nat, id: string, config: ExportConfig, env: Env, t: nat): seq<Step> {
    if env.create(t).Some? then [OpenStaging(r, false)]
    else
      var c := ServiceDefaults(config);
      var windows := BatchWindows(c.timeRange, c.batching);
      var o := LoopOf(config, env, t).outcome;
      [OpenStaging(r, true)] + EventsOfBatches(r, id, c, env, windows, StartIndex(c, |windows|), t + 1) +
      if o.Ok() then [Archive(r, env.archive(o.clock).None?)] else []
  }

  /** All steps of the goroutine: runJob from its start to its end. */
  function StepsOfRun(r: nat, id: string, config: ExportConfig, env: Env, t: nat): seq<Step> {
    [ReadBase(r), MarkRunning(r)] + StepsOfExport(r, id, config, env, t) + [EndRun(r)]
  }

  /** What ExecuteExport brings about for job `id`. */
  function ExportGain(m: Manager, id: string, base: nat, config: ExportConfig, env: Env, t: nat): Gain {
    if env.create(t).Some? then Gain(m, [], 0, [], Closing(Error(false)))
    else
      var c := ServiceDefaults(config);
      var windows := BatchWindows(c.timeRange, c.batching);
      LoopGain(m, id, base, c, env, windows, StartIndex(c, |windows|), t + 1)
  }

  /** From `s` to `u` goroutine `r` has gone through an ExecuteExport that went as `x`. */
  ghost predicate WentAs(s: System, u: System, r: nat, x: Execution, g: Gain)
    requires r in s.runs
  {
    var run := s.runs[r];
    var exported := run.exported + g.metrics;
    && u.m == g.m && u.nextRun == s.nextRun && u.now == s.now
    && u.runs == s.runs[r := run.(exported := exported, pc := Closing(EndingOf(x.result, x.error)))]
    && StagingOf(u, run.job) == x.staging && u.files - {run.job} == s.files - {run.job}
    && u.archives == (if x.result.Some? then s.archives[run.job := x.result.value.archived] else s.archives)
    && u.history == s.history[run.job := HistoryOf(s, run.job) + g.batches]
  }

  /** Goroutine `r` is about to run ExecuteExport with `config`, in the environment `env`. */
  ghost predicate StartsExport(s: System, r: nat, config: ExportConfig, env: Env, t: nat) {
    && At(s, r, Marked) && s.runs[r].exported == 0 && CanCancel(s, s.runs[r].job) && s.runs[r].job in s.history
    && s.runs[r].windows == |BatchWindows(config.timeRange, config.batching)|
    && config.resumeFromBatch == s.runs[r].resumeFrom
    && PlainFailures(env) && Sees(s, s.runs[r].job, env, t + 1)
  }

  lemma OpenFails(s: System, r: nat, config: ExportConfig, env: Env, t: nat)
    requires StartsExport(s, r, config, env, t) && env.create(t).Some?
    ensures var id := s.runs[r].job;
            WentAs(s, ApplyAll(s, StepsOfExport(r, id, config, env, t)), r, Execute(config, env, StagingOf(s, id), t),
                   ExportGain(s.m, id, s.runs[r].baseMetrics, config, env, t))
  {
    ApplyOne(s, OpenStaging(r, false));
    assert HistoryOf(s, s.runs[r].job) + [] == HistoryOf(s, s.runs[r].job);
  }

  /** The file a run starts on: a resumed one keeps it. */
  lemma Opens(s: System, r: nat, config: ExportConfig, env: Env, t: nat)
    requires StartsExport(s, r, config, env, t)
    ensures var c := ServiceDefaults(config);
            var id, n := s.runs[r].job, |BatchWindows(c.timeRange, c.batching)|;
            var u := ApplyAll(s, [OpenStaging(r, true)]);
            && u == s.(runs := s.runs[r := s.runs[r].(pc := Looping(StartIndex(c, n)))],
                       files := s.files[id := StagingStart(c, StagingOf(s, id))])
            && Ready(u, r, StartIndex(c, n), n)
  {
    ApplyOne(s, OpenStaging(r, true));
    DefaultsKeepBatchWindows(config);
    BatchWindowsTile(config.timeRange, config.batching);
  }

  /** `u` is `s` once goroutine `r` has gone through its batches, on a file that held `start`. */
  ghost predicate Looped(s: System, u: System, r: nat, start: seq<Row>, g: Gain)
    requires r in s.runs
  {
    var run := s.runs[r];
    && u.m == g.m && u.archives == s.archives && u.nextRun == s.nextRun && u.now == s.now
    && u.runs == s.runs[r := run.(exported := run.exported + g.metrics, pc := g.pc)]
    && u.files == s.files[run.job := start + g.rows]
    && u.history == s.history[run.job := HistoryOf(s, run.job) + g.batches]
  }

  lemma StopsBeforeArchive(
    s: System, u: System, r: nat, c: ExportConfig, env: Env, start: seq<Row>, run: BatchRun, g: Gain)
    requires r in s.runs && Looped(s, u, r, start, g) && !run.outcome.Ok()
    requires g.rows == run.outcome.added && g.pc == PcAfter(run.outcome, s.runs[r].windows)
    ensures WentAs(s, u, r, Archived(c, env, start, run), g)
  {
  }

  lemma ArchiveFails(s: System, u: System, r: nat, c: ExportConfig, env: Env, start: seq<Row>, run: BatchRun, g: Gain)
    requires r in s.runs && Looped(s, u, r, start, g) && run.outcome.Ok() && env.archive(run.outcome.clock).Some?
    requires g.rows == run.outcome.added && g.pc == Looping(s.runs[r].windows) && PlainFailures(env)
    ensures WentAs(s, Apply(u, Archive(r, false)), r, Archived(c, env, start, run), g)
  {
    assert Apply(u, Archive(r, false)).files == u.files;
  }

  lemma ArchiveWorks(s: System, u: System, r: nat, c: ExportConfig, env: Env, start: seq<Row>, run: BatchRun, g: Gain)
    requires r in s.runs && Looped(s, u, r, start, g) && run.outcome.Ok() && env.archive(run.outcome.clock).None?
    requires g.rows == run.outcome.added && g.pc == Looping(s.runs[r].windows) && g.metrics == run.outcome.count
    requires s.runs[r].exported == 0 && c.resumeFromBatch == s.runs[r].resumeFrom
    ensures WentAs(s, Apply(u, Archive(r, true)), r, Archived(c, env, start, run), g)
  {
    var id, t := s.runs[r].job, Apply(u, Archive(r, true));
    assert FileOf(u, id) == start + g.rows;
    assert t.files == if c.resumeFromBatch == 0 then u.files - {id} else u.files;
    assert u.files - {id} == s.files - {id};
  }

  /** What is left of the goroutine's work after its batches. */
  lemma Archives(s: System, u: System, r: nat, c: ExportConfig, env: Env, start: seq<Row>, run: BatchRun, g: Gain)
    requires r in s.runs && Looped(s, u, r, start, g)
    requires s.runs[r].exported == 0 && c.resumeFromBatch == s.runs[r].resumeFrom && PlainFailures(env)
    requires g.rows == run.outcome.added && g.pc == PcAfter(run.outcome, s.runs[r].windows)
    requires run.outcome.Ok() ==> g.metrics == run.outcome.count
    ensures var x := Archived(c, env, start, run);
            var last := if run.outcome.Ok() then [Archive(r, env.archive(run.outcome.clock).None?)] else [];
            WentAs(s, ApplyAll(u, last), r, x, g)
  {
    if !run.outcome.Ok() {
      StopsBeforeArchive(s, u, r, c, env, start, run, g);
    } else {
      ApplyOne(u, Archive(r, env.archive(run.outcome.clock).None?));
      if env.archive(run.outcome.clock).None? {
        ArchiveWorks(s, u, r, c, env, start, run, g);
      } else {
        ArchiveFails(s, u, r, c, env, start, run, g);
      }
    }
  }

  /** The three parts of an ExecuteExport: open, loop, archive. */
  lemma OpensLoopsArchives(
    s: System, s1: System, s2: System, r: nat, k: nat, c: ExportConfig, env: Env, start: seq<Row>, run: BatchRun,
    g: Gain)
    requires r in s.runs && s.runs[r].exported == 0 && c.resumeFromBatch == s.runs[r].resumeFrom && PlainFailures(env)
    requires s1 == s.(runs := s.runs[r := s.runs[r].(pc := Looping(k))], files := s.files[s.runs[r].job := start])
    requires Advances(s1, s2, r, g)
    requires g.rows == run.outcome.added && g.pc == PcAfter(run.outcome, s.runs[r].windows)
    requires run.outcome.Ok() ==> g.metrics == run.outcome.count
    ensures var last := if run.outcome.Ok() then [Archive(r, env.archive(run.outcome.clock).None?)] else [];
            WentAs(s, ApplyAll(s2, last), r, Archived(c, env, start, run), g)
  {
    assert FileOf(s1, s.runs[r].job) == start;
    assert Looped(s, s2, r, start, g);
    Archives(s, s2, r, c, env, start, run, g);
  }

  lemma ApplyParts(s: System, a: seq<Step>, b: seq<Step>, c: seq<Step>)
    ensures ApplyAll(s, a + b + c) == ApplyAll(ApplyAll(ApplyAll(s, a), b), c)
  {
    ApplyAllAppend(s, a + b, c);
    ApplyAllAppend(s, a, b);
  }

  lemma ExportDrivesRun(s: System, r: nat, config: ExportConfig, env: Env, t: nat)
    requires StartsExport(s, r, config, env, t)
    ensures var id := s.runs[r].job;
            WentAs(s, ApplyAll(s, StepsOfExport(r, id, config, env, t)), r, Execute(config, env, StagingOf(s, id), t),
                   ExportGain(s.m, id, s.runs[r].baseMetrics, config, env, t))
  {
    if env.create(t).Some? {
      OpenFails(s, r, config, env, t);
    } else {
      var c, id := ServiceDefaults(config), s.runs[r].job;
      var windows := BatchWindows(c.timeRange, c.batching);
      var k, run := StartIndex(c, |windows|), LoopOf(config, env, t);
      var loop := EventsOfBatches(r, id, c, env, windows, k, t + 1);
      var last := if run.outcome.Ok() then [Archive(r, env.archive(run.outcome.clock).None?)] else [];
      ApplyParts(s, [OpenStaging(r, true)], loop, last);
      LoopDrivesRun(s, r, config, env, t, loop);
    }
  }

  lemma LoopDrivesRun(s: System, r: nat, config: ExportConfig, env: Env, t: nat, loop: seq<Step>)
    requires StartsExport(s, r, config, env, t)
    requires var c := ServiceDefaults(config);
             var windows := BatchWindows(c.timeRange, c.batching);
             loop == EventsOfBatches(r, s.runs[r].job, c, env, windows, StartIndex(c, |windows|), t + 1)
    ensures var c, id, run := ServiceDefaults(config), s.runs[r].job, LoopOf(config, env, t);
            var windows := BatchWindows(c.timeRange, c.batching);
            var last := if run.outcome.Ok() then [Archive(r, env.archive(run.outcome.clock).None?)] else [];
            WentAs(s, ApplyAll(ApplyAll(ApplyAll(s, [OpenStaging(r, true)]), loop), last), r,
                   Archived(c, env, StagingStart(c, StagingOf(s, id)), run),
                   LoopGain(s.m, id, s.runs[r].baseMetrics, c, env, windows, StartIndex(c, |windows|), t + 1))
  {
    var c, id, base := ServiceDefaults(config), s.runs[r].job, s.runs[r].baseMetrics;
    var windows := BatchWindows(c.timeRange, c.batching);
    var k, run := StartIndex(c, |windows|), LoopOf(config, env, t);
    Opens(s, r, config, env, t);
    DefaultsKeepBatchWindows(config);
    var s1 := ApplyAll(s, [OpenStaging(r, true)]);
    EngineDrivesRun(s1, r, c, env, windows, k, t + 1);
    ReportsMatchStaging(c, env, windows, k, t + 1);
    OpensLoopsArchives(s, s1, ApplyAll(s1, loop), r, k, c, env, StagingStart(c, StagingOf(s, id)), run,
                       LoopGain(s.m, id, base, c, env, windows, k, t + 1));
  }

  /** Goroutine `r` has just been started for a live job, by StartJob or ResumeJob. */
  ghost predicate StartsRun(s: System, r: nat, config: ExportConfig, env: Env, t: nat) {
    && At(s, r, Spawned) && s.runs[r].exported == 0 && CanCancel(s, s.runs[r].job) && s.runs[r].job in s.history
    && s.runs[r].resumeFrom == s.m.jobs[s.runs[r].job].resumeFrom
    && s.runs[r].windows == |BatchWindows(config.timeRange, config.batching)|
    && config.resumeFromBatch == 0 && PlainFailures(env) && Sees(s, s.runs[r].job, env, t + 1)
  }

  /** From `s` to `u` goroutine `r` has gone through a runJob whose ExecuteExport went as `x`: nothing
      of other jobs and goroutines has changed, except that the manager may have cleaned up. */
  ghost predicate RanAs(s: System, u: System, r: nat, x: Execution, batches: seq<Batch>)
    requires r in s.runs && s.runs[r].job in s.m.jobs
  {
    var id := s.runs[r].job;
    && u.m == Ran(s.m, id, x, s.now) && u.nextRun == s.nextRun && u.now == s.now
    && u.runs == s.runs - {r}
    && StagingOf(u, id) == x.staging && u.files - {id} == s.files - {id}
    && u.archives == (if x.result.Some? then s.archives[id := x.result.value.archived] else s.archives)
    && u.history == s.history[id := HistoryOf(s, id) + batches]
  }

  lemma {:induction false} ReportedKeeps(m: Manager, id: string, reports: seq<Report>, base: nat)
    requires id in m.jobs && m.jobs[id].Live() && m.jobs[id].cancelable
    ensures var n := Reported(m, id, reports, base); id in n.jobs && n.jobs[id].Live() && n.jobs[id].cancelable
  {
    if |reports| > 0 { ReportedKeeps(m, id, reports[..|reports| - 1], base); }
  }

  /** A cancel makes no difference to how a run leaves its job. */
  lemma CancelThenEnd(m: Manager, id: string, e: Ending, now: int)
    requires id in m.jobs && m.jobs[id].Live() && m.jobs[id].cancelable
    ensures Finished(Cancel(m, id).0, id, e, now) == Finished(m, id, e, now)
  {
    var n := Cancel(m, id).0;
    assert WithJob(n, id, Ended(n.jobs[id], e, now)) == WithJob(m, id, Ended(m.jobs[id], e, now));
  }

  lemma EndsAsRan(m: Manager, id: string, config: ExportConfig, env: Env, staging: Option<seq<Row>>, t: nat, now: int)
    requires id in m.jobs && m.jobs[id].Live() && m.jobs[id].cancelable
    ensures var x := Execute(config, env, staging, t);
            Finished(ExportGain(MarkedRunning(m, id), id, m.jobs[id].baseMetrics, config, env, t).m, id,
                     EndingOf(x.result, x.error), now) == Ran(m, id, x, now)
  {
    var x, n := Execute(config, env, staging, t), MarkedRunning(m, id);
    ReportedKeeps(n, id, x.reports, m.jobs[id].baseMetrics);
    CancelThenEnd(Reported(n, id, x.reports, m.jobs[id].baseMetrics), id, EndingOf(x.result, x.error), now);
  }

  lemma RunIsMarked(s: System, r: nat)
    requires At(s, r, Spawned) && s.runs[r].job in s.m.jobs
    requires s.runs[r].resumeFrom == s.m.jobs[s.runs[r].job].resumeFrom
    ensures var id := s.runs[r].job;
            ApplyAll(s, [ReadBase(r), MarkRunning(r)]) ==
            s.(m := MarkedRunning(s.m, id),
               runs := s.runs[r := s.runs[r].(baseMetrics := s.m.jobs[id].baseMetrics, pc := Marked)])
  {
    ApplyTwo(s, ReadBase(r), MarkRunning(r));
    var s1 := Apply(s, ReadBase(r));
    assert s1 == s.(runs := s.runs[r := s.runs[r].(baseMetrics := s.m.jobs[s.runs[r].job].baseMetrics, pc := Based)]);
    assert s1.runs[r := s1.runs[r].(pc := Marked)] == s.runs[r := s1.runs[r].(pc := Marked)];
  }

  lemma RunBegins(s: System, u: System, r: nat, config: ExportConfig, env: Env, t: nat)
    requires StartsRun(s, r, config, env, t)
    requires var id := s.runs[r].job;
             u == s.(m := MarkedRunning(s.m, id),
                     runs := s.runs[r := s.runs[r].(baseMetrics := s.m.jobs[id].baseMetrics, pc := Marked)])
    ensures StartsExport(u, r, ConfigOf(config, s.m.jobs[s.runs[r].job]), env, t)
  {
  }

  lemma RunEnds(s: System, u: System, r: nat, x: Execution, g: Gain)
    requires r in s.runs && WentAs(s, u, r, x, g)
    ensures var id := s.runs[r].job;
            ApplyAll(u, [EndRun(r)]) ==
            u.(m := Finished(g.m, id, EndingOf(x.result, x.error), s.now), runs := s.runs - {r})
  {
    ApplyOne(u, EndRun(r));
    assert u.runs - {r} == s.runs - {r};
  }

  lemma EndsRun(s: System, s1: System, u: System, r: nat, x: Execution, g: Gain)
    requires r in s.runs && s.runs[r].job in s.m.jobs
    requires s1 == s.(m := s1.m, runs := s1.runs) && r in s1.runs && s1.runs[r].job == s.runs[r].job
    requires s1.runs - {r} == s.runs - {r} && WentAs(s1, u, r, x, g)
    requires Finished(g.m, s.runs[r].job, EndingOf(x.result, x.error), s.now) == Ran(s.m, s.runs[r].job, x, s.now)
    ensures RanAs(s, ApplyAll(u, [EndRun(r)]), r, x, g.batches)
  {
    RunEnds(s1, u, r, x, g);
  }

  /** The batches a run stores. */
  function BatchesOf(config: ExportConfig, env: Env, t: nat): seq<Batch> {
    if env.create(t).Some? then []
    else
      var c := ServiceDefaults(config);
      var windows := BatchWindows(c.timeRange, c.batching);
      StoredBatches(c, env, windows, StartIndex(c, |windows|), t + 1)
  }

  /** runJob, from its start to its end, is the steps of its goroutine: manager, staging file,
      archive and reported batches become what ExecuteExport and the manager make of them. */
  lemma RunIsSteps(s: System, r: nat, config: ExportConfig, env: Env, t: nat)
    requires StartsRun(s, r, config, env, t)
    ensures var id := s.runs[r].job;
            var runConfig := ConfigOf(config, s.m.jobs[id]);
            RanAs(s, ApplyAll(s, StepsOfRun(r, id, runConfig, env, t)), r, Execute(runConfig, env, StagingOf(s, id), t),
                  BatchesOf(runConfig, env, t))
  {
    var id := s.runs[r].job;
    var c := ConfigOf(config, s.m.jobs[id]);
    var begin := [ReadBase(r), MarkRunning(r)];
    var s1 := ApplyAll(s, begin);
    RunIsMarked(s, r);
    RunBegins(s, s1, r, config, env, t);
    ExportDrivesRun(s1, r, c, env, t);
    EndsAsRan(s.m, id, c, env, StagingOf(s, id), t, s.now);
    ApplyParts(s, begin, StepsOfExport(r, id, c, env, t), [EndRun(r)]);
    EndsRun(s, s1, ApplyAll(s1, StepsOfExport(r, id, c, env, t)), r, Execute(c, env, StagingOf(s, id), t),
            ExportGain(s1.m, id, s.m.jobs[id].baseMetrics, c, env, t));
  }
}
