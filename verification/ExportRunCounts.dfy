/** The active counter and the goroutines of export jobs over every run with fresh job ids: also
    over runs that tear appends, or that resume a job with all its batches stored. */
module ExportRunCounts {
  import opened Domain
  import M = ExportJobs
  import opened ExportRuns

  /** Nothing about the goroutines of job `id` differs, except that it may be gone if not live. */
  ghost predicate SameRuns(s: System, s': System, id: string) {
    && (id in s'.m.jobs ==> id in s.m.jobs)
    && (id in s.history ==> id in s'.history)
    && (id in M.LiveIds(s.m) <==> id in M.LiveIds(s'.m))
    && RunsOf(s', id) == RunsOf(s, id)
    && s.nextRun <= s'.nextRun
  }

  lemma OneCountChanged(s: System, s': System, id: string)
    requires CountInv(s) && M.Counted(s'.m) && RunsInv(s', id) && forall i :: i != id ==> SameRuns(s, s', i)
    ensures CountInv(s')
  {
    forall i ensures RunsInv(s', i) {
      if i != id { assert RunsInv(s, i) && SameRuns(s, s', i); }
    }
  }

  lemma OnlyRunOfLiveJob(s: System, r: nat)
    requires CountInv(s) && r in s.runs
    ensures s.runs[r].job in M.LiveIds(s.m) && RunsOf(s, s.runs[r].job) == {r}
  {
    var id := s.runs[r].job;
    assert RunsInv(s, id) && r in RunsOf(s, id);
    var q :| RunsOf(s, id) == {q};
  }

  /** A step that moves goroutines and jobs without starting or ending any. */
  lemma SameLiveKeeps(s: System, s': System)
    requires CountInv(s) && s'.m.active == s.m.active && s'.m.maxJobs == s.m.maxJobs
             && M.LiveIds(s'.m) == M.LiveIds(s.m)
    requires s'.m.jobs.Keys <= s.m.jobs.Keys && s.history.Keys <= s'.history.Keys && s'.nextRun == s.nextRun
    requires s'.runs.Keys == s.runs.Keys && forall r :: r in s.runs ==> s'.runs[r].job == s.runs[r].job
    ensures CountInv(s')
  {
    forall id ensures RunsInv(s', id) {
      assert RunsInv(s, id);
      assert RunsOf(s', id) == RunsOf(s, id);
    }
  }

  lemma RunIsOlder(s: System, r: nat)
    requires CountInv(s) && r in s.runs
    ensures r < s.nextRun
  {
    assert RunsInv(s, s.runs[r].job) && r in RunsOf(s, s.runs[r].job);
  }

  lemma NextRunIsNew(s: System)
    requires CountInv(s)
    ensures s.nextRun !in s.runs
  {
    forall r | r in s.runs ensures r < s.nextRun { RunIsOlder(s, r); }
  }

  lemma SpawnedRuns(s: System, s': System, run: Run, i: string)
    requires s.nextRun !in s.runs && s'.runs == s.runs[s.nextRun := run]
    ensures RunsOf(s', i) == if i == run.job then RunsOf(s, i) + {s.nextRun} else RunsOf(s, i)
  {
  }

  lemma SpawnKeeps(s: System, s': System, id: string, run: Run)
    requires CountInv(s) && M.Counted(s'.m) && id !in M.LiveIds(s.m) && run.job == id
    requires M.LiveIds(s'.m) == M.LiveIds(s.m) + {id} && s'.m.jobs.Keys <= s.m.jobs.Keys + {id}
    requires s.history.Keys <= s'.history.Keys && id in s'.history
    requires s'.runs == s.runs[s.nextRun := run] && s'.nextRun == s.nextRun + 1
    ensures CountInv(s')
  {
    NextRunIsNew(s);
    SpawnedHere(s, s', id, run);
    forall i | i != id ensures SameRuns(s, s', i) { SpawnedElsewhere(s, s', id, run, i); }
    OneCountChanged(s, s', id);
  }

  lemma SpawnedHere(s: System, s': System, id: string, run: Run)
    requires RunsInv(s, id) && id !in M.LiveIds(s.m) && run.job == id && s.nextRun !in s.runs
    requires s'.runs == s.runs[s.nextRun := run] && s'.nextRun == s.nextRun + 1
    requires id in M.LiveIds(s'.m) && id in s'.history
    ensures RunsInv(s', id)
  {
    SpawnedRuns(s, s', run, id);
    assert RunsOf(s', id) == {s.nextRun};
  }

  lemma SpawnedElsewhere(s: System, s': System, id: string, run: Run, i: string)
    requires i != id && run.job == id && s.nextRun !in s.runs && s'.runs == s.runs[s.nextRun := run]
             && s'.nextRun == s.nextRun + 1
    requires M.LiveIds(s'.m) == M.LiveIds(s.m) + {id} && s'.m.jobs.Keys <= s.m.jobs.Keys + {id}
    requires s.history.Keys <= s'.history.Keys
    ensures SameRuns(s, s', i)
  {
    SpawnedRuns(s, s', run, i);
    assert i in M.LiveIds(s.m) + {id} <==> i in M.LiveIds(s.m);
    assert i in s'.m.jobs.Keys ==> i in s.m.jobs.Keys + {id};
    assert i in s.history.Keys ==> i in s'.history.Keys;
  }

  lemma StartKeepsCount(s: System, id: string, windows: nat)
    requires CountInv(s) && id !in s.history
    ensures CountInv(Apply(s, StartJob(id, windows)))
  {
    M.CleanupKeepsLive(s.m, s.now);
    assert RunsInv(s, id);
    if M.Start(s.m, id, windows, s.now).1 {
      AcceptedStartKeepsCount(s, id, windows);
    } else {
      SameLiveKeeps(s, Apply(s, StartJob(id, windows)));
    }
  }

  lemma AcceptedStartKeepsCount(s: System, id: string, windows: nat)
    requires CountInv(s) && id !in M.LiveIds(s.m) && M.Start(s.m, id, windows, s.now).1
    ensures CountInv(Apply(s, StartJob(id, windows)))
  {
    M.StartCountedIff(s.m, id, windows, s.now);
    M.StartLive(s.m, id, windows, s.now);
    SpawnKeeps(s, Apply(s, StartJob(id, windows)), id, Run(id, windows, 0, 0, 0, Spawned));
  }

  lemma ResumeKeepsCount(s: System, id: string)
    requires CountInv(s)
    ensures CountInv(Apply(s, ResumeJob(id)))
  {
    if M.Resume(s.m, id).1 {
      assert RunsInv(s, id);
      M.ResumeCounted(s.m, id);
      M.ResumeLive(s.m, id);
      var s' := Apply(s, ResumeJob(id));
      SpawnKeeps(s, s', id, s'.runs[s.nextRun]);
    }
  }

  lemma EndKeepsCount(s: System, r: nat)
    requires CountInv(s) && r in s.runs && s.runs[r].pc.Closing?
    ensures s.m.active > 0 && CountInv(Apply(s, EndRun(r)))
  {
    OnlyRunOfLiveJob(s, r);
    var id := s.runs[r].job;
    var s' := Apply(s, EndRun(r));
    M.FinishCounted(s.m, id, s.runs[r].pc.ending, s.now);
    assert RunsInv(s, id);
    assert RunsOf(s', id) == {} by { assert forall q :: q in s.runs && s.runs[q].job == id ==> q in RunsOf(s, id); }
    forall i | i != id ensures SameRuns(s, s', i) { assert RunsOf(s', i) == RunsOf(s, i); }
    OneCountChanged(s, s', id);
  }

  lemma CancelKeepsCount(s: System, id: string)
    requires CountInv(s)
    ensures CountInv(Apply(s, CancelJob(id)))
  {
    if M.Cancel(s.m, id).1 { M.LiveKept(s.m, id, M.Cancel(s.m, id).0.jobs[id]); }
    SameLiveKeeps(s, Apply(s, CancelJob(id)));
  }

  lemma MarkKeepsCount(s: System, r: nat)
    requires CountInv(s) && At(s, r, Based)
    ensures CountInv(Apply(s, MarkRunning(r)))
  {
    OnlyRunOfLiveJob(s, r);
    var id := s.runs[r].job;
    M.LiveKept(s.m, id, M.MarkedRunning(s.m, id).jobs[id]);
    SameLiveKeeps(s, Apply(s, MarkRunning(r)));
  }

  lemma ReportKeepsCount(s: System, r: nat)
    requires CountInv(s) && r in s.runs && s.runs[r].pc.Stored?
    ensures CountInv(Apply(s, ReportBatch(r)))
  {
    OnlyRunOfLiveJob(s, r);
    var id, s' := s.runs[r].job, Apply(s, ReportBatch(r));
    M.LiveKept(s.m, id, s'.m.jobs[id]);
    SameLiveKeeps(s, s');
  }

  predicate Quiet(e: Step) { e.Tick? || e.ReadBase? || e.OpenStaging? || e.BeginBatch? || e.RunWindow? || e.Archive? }

  /** Neither manager nor history changes, nor which goroutines there are. */
  ghost predicate StaysQuiet(s: System, s': System) {
    && s'.m == s.m && s'.history == s.history && s'.nextRun == s.nextRun && s'.runs.Keys == s.runs.Keys
    && forall r :: r in s.runs ==> s'.runs[r].job == s.runs[r].job
  }

  lemma WindowIsQuiet(s: System, r: nat, result: WindowResult)
    requires InWindow(s, r)
    ensures StaysQuiet(s, WindowDone(s, r, result))
  {
  }

  lemma ArchiveIsQuiet(s: System, r: nat, ok: bool)
    ensures StaysQuiet(s, Apply(s, Archive(r, ok)))
  {
  }

  lemma OpeningIsQuiet(s: System, r: nat, ok: bool)
    ensures StaysQuiet(s, Apply(s, OpenStaging(r, ok)))
  {
  }

  lemma BeginningIsQuiet(s: System, r: nat)
    ensures StaysQuiet(s, Apply(s, BeginBatch(r)))
  {
  }

  lemma BaseIsQuiet(s: System, r: nat)
    ensures StaysQuiet(s, Apply(s, ReadBase(r)))
  {
  }

  /** The steps that touch only files and the place of a goroutine. */
  lemma QuietStepIsQuiet(s: System, e: Step)
    requires Quiet(e)
    ensures StaysQuiet(s, Apply(s, e))
  {
    match e
    case Tick(elapsed) =>
    case ReadBase(r) => BaseIsQuiet(s, r);
    case OpenStaging(r, ok) => OpeningIsQuiet(s, r, ok);
    case BeginBatch(r) => BeginningIsQuiet(s, r);
    case RunWindow(r, result) => if InWindow(s, r) { WindowIsQuiet(s, r, result); }
    case Archive(r, ok) => ArchiveIsQuiet(s, r, ok);
  }

  lemma QuietStepKeepsCount(s: System, s': System)
    requires CountInv(s) && StaysQuiet(s, s')
    ensures CountInv(s')
  {
    SameLiveKeeps(s, s');
  }

  lemma StepKeepsCount(s: System, e: Step)
    requires CountInv(s) && Fresh(s, e)
    ensures CountInv(Apply(s, e))
  {
    match e
    case StartJob(id, windows) => StartKeepsCount(s, id, windows);
    case ResumeJob(id) => ResumeKeepsCount(s, id);
    case CancelJob(id) => CancelKeepsCount(s, id);
    case MarkRunning(r) => if At(s, r, Based) { MarkKeepsCount(s, r); }
    case ReportBatch(r) => if r in s.runs && s.runs[r].pc.Stored? { ReportKeepsCount(s, r); }
    case EndRun(r) => if r in s.runs && s.runs[r].pc.Closing? { EndKeepsCount(s, r); }
    case _ =>
      QuietStepIsQuiet(s, e);
      QuietStepKeepsCount(s, Apply(s, e));
  }

  lemma {:induction false} TraceKeepsCount(maxJobs: nat, retention: int, events: seq<Step>)
    requires FreshTrace(Init(maxJobs, retention), events)
    ensures CountInv(ApplyAll(Init(maxJobs, retention), events))
  {
    var s := Init(maxJobs, retention);
    if |events| == 0 {
      assert M.LiveIds(s.m) == {};
      forall id ensures RunsInv(s, id) { assert RunsOf(s, id) == {}; }
    } else {
      TraceKeepsCount(maxJobs, retention, events[..|events| - 1]);
      StepKeepsCount(ApplyAll(s, events[..|events| - 1]), events[|events| - 1]);
    }
  }

  /** The active counter is the number of pending or running jobs and within the limit; every
      live job has exactly one goroutine and no other job has any. */
  ghost predicate OneRunEach(s: System) {
    && s.m.active == |M.LiveIds(s.m)| <= s.m.maxJobs
    && (forall r :: r in s.runs ==> s.runs[r].job in M.LiveIds(s.m))
    && (forall r, q :: r in s.runs && q in s.runs && s.runs[r].job == s.runs[q].job ==> r == q)
    && (forall id :: id in M.LiveIds(s.m) ==> exists r :: RunsOf(s, id) == {r})
  }

  lemma CountsRunOneEach(s: System)
    requires CountInv(s)
    ensures OneRunEach(s)
  {
    forall r | r in s.runs ensures s.runs[r].job in M.LiveIds(s.m) { OnlyRunOfLiveJob(s, r); }
    forall r, q | r in s.runs && q in s.runs && s.runs[r].job == s.runs[q].job ensures r == q {
      OnlyRunOfLiveJob(s, r);
      assert q in RunsOf(s, s.runs[r].job);
    }
    forall id | id in M.LiveIds(s.m) ensures exists r :: RunsOf(s, id) == {r} { assert RunsInv(s, id); }
  }

  lemma StepKeepsLimit(s: System, e: Step)
    ensures Apply(s, e).m.maxJobs == s.m.maxJobs
  {
    match e
    case RunWindow(r, result) =>
    case ReportBatch(r) =>
    case EndRun(r) =>
    case _ =>
  }

  lemma {:induction false} LimitIsKept(s: System, events: seq<Step>)
    ensures ApplyAll(s, events).m.maxJobs == s.m.maxJobs
  {
    if |events| > 0 {
      LimitIsKept(s, events[..|events| - 1]);
      StepKeepsLimit(ApplyAll(s, events[..|events| - 1]), events[|events| - 1]);
    }
  }

  /** With fresh job ids, over every interleaving: counter, limit and goroutines are right. */
  lemma OneRunPerLiveJob(maxJobs: nat, retention: int, events: seq<Step>)
    requires FreshTrace(Init(maxJobs, retention), events)
    ensures OneRunEach(ApplyAll(Init(maxJobs, retention), events))
    ensures ApplyAll(Init(maxJobs, retention), events).m.maxJobs == maxJobs
  {
    TraceKeepsCount(maxJobs, retention, events);
    CountsRunOneEach(ApplyAll(Init(maxJobs, retention), events));
    LimitIsKept(Init(maxJobs, retention), events);
  }

  /** With fresh job ids the guard of jobFinishedLocked never decides anything: wherever a
      goroutine ends, the counter it decrements is positive. */
  lemma GuardNeverDecides(maxJobs: nat, retention: int, events: seq<Step>, r: nat)
    requires FreshTrace(Init(maxJobs, retention), events)
    ensures var s := ApplyAll(Init(maxJobs, retention), events);
            r in s.runs && s.runs[r].pc.Closing? ==>
              s.m.active > 0 && Apply(s, EndRun(r)).m.active == s.m.active - 1
              && s.runs[r].job !in M.LiveIds(Apply(s, EndRun(r)).m)
  {
    TraceKeepsCount(maxJobs, retention, events);
    EndDecrements(ApplyAll(Init(maxJobs, retention), events), r);
  }

  lemma EndDecrements(s: System, r: nat)
    requires CountInv(s)
    ensures r in s.runs && s.runs[r].pc.Closing? ==>
              s.m.active > 0 && Apply(s, EndRun(r)).m.active == s.m.active - 1
              && s.runs[r].job !in M.LiveIds(Apply(s, EndRun(r)).m)
  {
    if r in s.runs && s.runs[r].pc.Closing? {
      OnlyRunOfLiveJob(s, r);
      M.FinishCounted(s.m, s.runs[r].job, s.runs[r].pc.ending, s.now);
    }
  }

  /** Nothing removes a live job, and only the end of its own goroutine ends its life. */
  lemma LiveJobsStay(s: System, e: Step, id: string)
    requires id in M.LiveIds(s.m) && s.m.retention >= 0
    ensures id in Apply(s, e).m.jobs
    ensures id in M.LiveIds(Apply(s, e).m) || (e.EndRun? && e.run in s.runs && s.runs[e.run].job == id)
  {
    match e
    case StartJob(i, windows) => M.CleanupKeepsLive(s.m, s.now);
    case EndRun(r) =>
      if r in s.runs && s.runs[r].pc.Closing? {
        FinishedStays(s.m, s.runs[r].job, s.runs[r].pc.ending, s.now, id);
      }
    case RunWindow(r, result) => assert Apply(s, e).m == s.m;
    case ReportBatch(r) =>
    case _ =>
  }

  lemma FinishedStays(m: M.Manager, job: string, e: M.Ending, now: int, id: string)
    requires id in M.LiveIds(m) && m.retention >= 0
    ensures id in M.Finished(m, job, e, now).jobs
    ensures id != job ==> id in M.LiveIds(M.Finished(m, job, e, now))
  {
  }

  /** A step that may clean up: it removes exactly the jobs that ended longer ago than the retention. */
  lemma KeptForRetention(s: System, e: Step, id: string, ended: int)
    requires CountInv(s) && Fresh(s, e) && id in s.m.jobs && !s.m.jobs[id].Live()
             && s.m.jobs[id].completedAt == Some(ended)
    ensures s.now - ended <= s.m.retention ==> id in Apply(s, e).m.jobs
    ensures e.StartJob? && s.now - ended > s.m.retention ==> id !in Apply(s, e).m.jobs
  {
    assert RunsInv(s, id);
    match e
    case EndRun(r) => if r in s.runs && s.runs[r].pc.Closing? { OnlyRunOfLiveJob(s, r); }
    case RunWindow(r, result) => assert Apply(s, e).m == s.m;
    case _ =>
  }

  /** A job whose goroutine has ended without completing it can be resumed, as soon as the limit on
      live jobs allows it; no other job can. */
  lemma ResumableIff(s: System, id: string)
    requires CountInv(s) && id in s.m.jobs
    ensures M.Resume(s.m, id).1 <==>
            RunsOf(s, id) == {} && !s.m.jobs[id].state.Completed? && |M.LiveIds(s.m)| < s.m.maxJobs
    ensures M.Resume(s.m, id).1 ==>
              var j := M.Resume(s.m, id).0.jobs[id];
              j.state.Pending? && !j.canceled && j.completedAt.None? && j.resumeFrom == s.m.jobs[id].completedBatches
  {
    assert RunsInv(s, id);
  }
}
