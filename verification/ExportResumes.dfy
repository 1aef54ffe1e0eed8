/** What a run of a job does with what earlier runs have stored. */
module ExportResumes {
  import opened Domain
  import opened Batching
  import opened ExportDefaults
  import opened AdaptiveExport
  import opened AdaptiveEvents
  import opened ExportExecution
  import opened ExportJobs
  import opened ExportRuns
  import opened ExportRunProperties
  import opened ExportRunSteps
  import opened ExportCancels

  // ---- The staging file of one ExecuteExport ----

  lemma {:induction false} LoopAddsKeptRows(c: ExportConfig, env: Env, windows: seq<TimeRange>, i: nat, t: nat)
    ensures var o := RunBatches(c, env, windows, i, t).outcome;
            && o.added <= Output(Leaves(o.events))
            && (o.Ok() ==> o.added == Output(Leaves(o.events)) && o.count == |o.added|)
    decreases |windows| - i
  {
    if i < |windows| {
      BatchAllOrNothing(c, env, windows[i], t);
      var o := RunBatch(c, env, windows[i], t);
      if o.Ok() {
        LoopAddsKeptRows(c, env, windows, i + 1, o.clock);
        var rest := RunBatches(c, env, windows, i + 1, o.clock).outcome;
        LeavesOfAppend(o.events, rest.events);
        OutputOfAppend(Leaves(o.events), Leaves(rest.events));
      }
    }
  }

  /** The rows of the kept attempts, behind those that a resumed export found, and nothing else, are
      archived; while an export has not succeeded its staging file keeps what a resumed export
      found, and nothing of what any other one found. */
  lemma ExecuteArchives(config: ExportConfig, env: Env, staging: Option<seq<Row>>, t: nat)
    ensures var x := Execute(config, env, staging, t);
            var found := if config.resumeFromBatch > 0 && staging.Some? then staging.value else [];
            var exported := Output(Leaves(x.events));
            && (x.result.Some? ==>
               x.result.value.archived == found + exported && x.result.value.metricsExported == |exported|)
            && (x.result.None? && env.create(t).None? ==>
                  x.staging.Some? && found <= x.staging.value <= found + exported)
            && (env.create(t).Some? ==> x.staging == staging)
  {
    var c := ServiceDefaults(config);
    var windows := BatchWindows(c.timeRange, c.batching);
    LoopAddsKeptRows(c, env, windows, StartIndex(c, |windows|), t + 1);
  }

  /** An export resumed at batch k begins with window k, and any other with the first window. */
  lemma ResumesAt(config: ExportConfig)
    ensures var windows := BatchWindows(config.timeRange, config.batching);
            && (0 <= config.resumeFromBatch < |windows| ==>
               FirstInstant(config) == windows[config.resumeFromBatch].start)
            && (!(0 <= config.resumeFromBatch < |windows|) ==> FirstInstant(config) == config.timeRange.start)
  {
    DefaultsKeepBatchWindows(config);
    BatchWindowsTile(config.timeRange, config.batching);
  }

  // ---- The run of a job ----

  /** A goroutine has just been started, and the configuration is the one its job was started with. */
  ghost predicate Begins(s: System, r: nat, config: ExportConfig, env: Env, t: nat) {
    && Inv(s) && AllCancelable(s.m) && At(s, r, Spawned) && s.runs[r].job in s.m.jobs
    && s.runs[r].windows == |BatchWindows(config.timeRange, config.batching)|
    && config.resumeFromBatch == 0 && PlainFailures(env) && Sees(s, s.runs[r].job, env, t + 1)
  }

  lemma BeginsStarts(s: System, r: nat, config: ExportConfig, env: Env, t: nat)
    requires Begins(s, r, config, env, t)
    ensures StartsRun(s, r, config, env, t)
    ensures var job := s.m.jobs[s.runs[r].job];
            job.resumeFrom == job.completedBatches == |HistoryOf(s, s.runs[r].job)| < job.windows == s.runs[r].windows
  {
    OnlyRun(s, r);
  }

  /** What a run of goroutine `r` does: ExecuteExport as runJob configures it. */
  function RunOf(s: System, r: nat, config: ExportConfig, env: Env, t: nat): Execution
    requires r in s.runs && s.runs[r].job in s.m.jobs
  {
    Execute(ConfigOf(config, s.m.jobs[s.runs[r].job]), env, StagingOf(s, s.runs[r].job), t)
  }

  /** The system once the run is over. */
  function AfterRun(s: System, r: nat, config: ExportConfig, env: Env, t: nat): System
    requires r in s.runs && s.runs[r].job in s.m.jobs
  {
    var id := s.runs[r].job;
    ApplyAll(s, StepsOfRun(r, id, ConfigOf(config, s.m.jobs[id]), env, t))
  }

  /** A run begins with the first batch its job has not stored: it reports that one and those after
      it, and all of them if it succeeds. */
  lemma RunReportsMissing(s: System, r: nat, config: ExportConfig, env: Env, t: nat)
    requires Begins(s, r, config, env, t)
    ensures var id := s.runs[r].job;
            var done, x := s.m.jobs[id].completedBatches, RunOf(s, r, config, env, t);
            && Consecutive(x.reports, done)
            && (x.result.Some? ==> |x.reports| == s.m.jobs[id].windows - done)
  {
    BeginsStarts(s, r, config, env, t);
    var c := ServiceDefaults(ConfigOf(config, s.m.jobs[s.runs[r].job]));
    var windows := BatchWindows(c.timeRange, c.batching);
    DefaultsKeepBatchWindows(ConfigOf(config, s.m.jobs[s.runs[r].job]));
    ReportsInOrder(c, env, windows, StartIndex(c, |windows|), t + 1);
  }

  /** A step of a goroutine, or a cancel, that leaves nothing of a torn append. */
  predicate Harmless(e: Step) {
    match e
    case StartJob(_, _) => false
    case ResumeJob(_) => false
    case RunWindow(_, Lost(residue, _)) => residue == []
    case _ => true
  }

  lemma {:induction false} HarmlessKeeps(s: System, events: seq<Step>)
    requires Inv(s) && forall e :: e in events ==> Harmless(e)
    ensures Inv(ApplyAll(s, events))
  {
    if |events| > 0 {
      var before, last := events[..|events| - 1], events[|events| - 1];
      assert last in events;
      HarmlessKeeps(s, before);
      EventKeeps(ApplyAll(s, before), last);
    }
  }

  lemma {:induction false} LoopIsHarmless(
    r: nat, id: string, c: ExportConfig, env: Env, windows: seq<TimeRange>, i: nat, t: nat)
    requires !LoopTear(c, env, windows, i, t)
    ensures forall e :: e in EventsOfBatches(r, id, c, env, windows, i, t) ==> Harmless(e)
    decreases |windows| - i
  {
    if i < |windows| {
      var o := RunBatch(c, env, windows[i], t);
      BatchAllOrNothing(c, env, windows[i], t);
      if o.Ok() { LoopIsHarmless(r, id, c, env, windows, i + 1, o.clock); }
    }
  }

  /** The append to the staging file itself tears in the run. */
  predicate RunTear(config: ExportConfig, env: Env, t: nat) {
    var c := ServiceDefaults(config);
    var windows := BatchWindows(c.timeRange, c.batching);
    env.create(t).None? && LoopTear(c, env, windows, StartIndex(c, |windows|), t + 1)
  }

  lemma RunIsHarmless(r: nat, id: string, config: ExportConfig, env: Env, t: nat)
    requires !RunTear(config, env, t)
    ensures forall e :: e in StepsOfRun(r, id, config, env, t) ==> Harmless(e)
  {
    if env.create(t).None? {
      var c := ServiceDefaults(config);
      var windows := BatchWindows(c.timeRange, c.batching);
      LoopIsHarmless(r, id, c, env, windows, StartIndex(c, |windows|), t + 1);
    }
  }

  /** A whole run, started or resumed, in which the append to the staging file itself does not tear:
      manager, staging file and archive become what runJob makes of them, and together with what
      earlier runs stored every batch is staged once, and archived once if the run succeeds. */
  lemma RunContinues(s: System, r: nat, config: ExportConfig, env: Env, t: nat)
    requires Begins(s, r, config, env, t)
    requires !RunTear(ConfigOf(config, s.m.jobs[s.runs[r].job]), env, t)
    ensures var id, u, x := s.runs[r].job, AfterRun(s, r, config, env, t), RunOf(s, r, config, env, t);
            && Inv(u) && StagedOnce(u, id) && ArchiveAddsUp(u, id)
            && u.m == Ran(s.m, id, x, s.now) && StagingOf(u, id) == x.staging
            && (x.result.Some? ==> id in u.archives && u.archives[id] == x.result.value.archived)
  {
    var id, u := s.runs[r].job, AfterRun(s, r, config, env, t);
    BeginsStarts(s, r, config, env, t);
    RunIsSteps(s, r, config, env, t);
    RunIsHarmless(r, id, ConfigOf(config, s.m.jobs[id]), env, t);
    HarmlessKeeps(s, StepsOfRun(r, id, ConfigOf(config, s.m.jobs[id]), env, t));
    InvStages(u, id);
    InvArchives(u, id);
  }

  lemma ExecuteEnds(config: ExportConfig, env: Env, staging: Option<seq<Row>>, t: nat)
    ensures var x := Execute(config, env, staging, t); x.result.None? <==> x.error.Some?
  {
  }

  /** The status a run leaves, unless the job is removed at once, is that of its ExecuteExport. */
  lemma RunIsShown(s: System, r: nat, config: ExportConfig, env: Env, t: nat)
    requires Begins(s, r, config, env, t)
    ensures var id, u, x := s.runs[r].job, AfterRun(s, r, config, env, t), RunOf(s, r, config, env, t);
            id in u.m.jobs ==>
              var j := u.m.jobs[id];
              && (if x.error.None? then j.state.Completed? && j.result == Some(x.result.value.metricsExported)
                  else if x.error.value.canceled then j.state.Canceled? else j.state.Failed?)
              && j.completedAt == Some(s.now)
  {
    BeginsStarts(s, r, config, env, t);
    RunIsSteps(s, r, config, env, t);
    var id := s.runs[r].job;
    ExecuteEnds(ConfigOf(config, s.m.jobs[id]), env, StagingOf(s, id), t);
    RanShows(s.m, id, RunOf(s, r, config, env, t), s.now);
  }

  lemma RanShows(m: Manager, id: string, x: Execution, now: int)
    requires id in m.jobs && (x.result.None? <==> x.error.Some?)
    ensures id in Ran(m, id, x, now).jobs ==>
              var j := Ran(m, id, x, now).jobs[id];
              && (if x.error.None? then j.state.Completed? && j.result == Some(x.result.value.metricsExported)
                  else if x.error.value.canceled then j.state.Canceled? else j.state.Failed?)
              && j.completedAt == Some(now)
  {
    ReportedHas(MarkedRunning(m, id), id, x.reports, m.jobs[id].baseMetrics);
  }

  lemma {:induction false} ReportedHas(m: Manager, id: string, reports: seq<Report>, base: nat)
    requires id in m.jobs
    ensures id in Reported(m, id, reports, base).jobs
  {
    if |reports| > 0 { ReportedHas(m, id, reports[..|reports| - 1], base); }
  }
}
