/** Export jobs and their goroutines as one state machine: every section under the manager's
    lock, and every step of ExecuteExport that touches the staging file, is one step. The
    theorems hold for every interleaving of steps. */
module ExportRuns {
  import opened Domain
  import opened AdaptiveExport
  import opened ExportJobs

  /** Where a goroutine is: started by StartJob or ResumeJob; base counters read; marked
      running; before batch `next`; past the context check of `next`; `next` stored but not yet
      reported; about to be marked. */
  datatype Pc =
    | Spawned | Based | Marked | Looping(next: nat) | Working(next: nat) | Stored(next: nat, rows: seq<Row>)
    | Closing(ending: Ending)

  datatype Run = Run(job: string, windows: nat, resumeFrom: nat, baseMetrics: nat, exported: nat, pc: Pc)

  /** A stored and reported batch. */
  datatype Batch = Batch(index: nat, rows: seq<Row>)

  /** `files` holds the staging file of each job and `archives` its archive; `history` lists
      the batches reported for a job over all its runs. */
  datatype System = System(
    m: Manager,
    runs: map<nat, Run>,
    nextRun: nat,
    files: map<string, seq<Row>>,
    archives: map<string, seq<Row>>,
    history: map<string, seq<Batch>>,
    now: int)

  /** How a window ends; a failing one may leave `residue` from a torn append. */
  datatype WindowResult = Kept(rows: seq<Row>) | Lost(residue: seq<Row>, canceled: bool)

  datatype Step =
    | StartJob(id: string, windows: nat)
    | ResumeJob(id: string)
    | CancelJob(id: string)
    | Tick(elapsed: nat)
    | ReadBase(run: nat)
    | MarkRunning(run: nat)
    | OpenStaging(run: nat, ok: bool)
    | BeginBatch(run: nat)
    | RunWindow(run: nat, result: WindowResult)
    | ReportBatch(run: nat)
    | Archive(run: nat, ok: bool)
    | EndRun(run: nat)

  function Init(maxJobs: nat, retention: int): System {
    System(Manager(map[], 0, maxJobs, retention), map[], 0, map[], map[], map[], 0)
  }

  function FileOf(s: System, id: string): seq<Row> { if id in s.files then s.files[id] else [] }

  function Spawn(s: System, m: Manager, id: string, windows: nat, resumeFrom: nat): System {
    s.(m := m, runs := s.runs[s.nextRun := Run(id, windows, resumeFrom, 0, 0, Spawned)], nextRun := s.nextRun + 1)
  }

  function WithPc(s: System, r: nat, pc: Pc): System
    requires r in s.runs
  {
    s.(runs := s.runs[r := s.runs[r].(pc := pc)])
  }

  function WithFile(s: System, id: string, rows: seq<Row>): System { s.(files := s.files[id := rows]) }

  predicate At(s: System, r: nat, pc: Pc) { r in s.runs && s.runs[r].pc == pc }

  /** The context that the current run of job `id` was given has been cancelled. */
  predicate ContextCanceled(s: System, id: string) { id in s.m.jobs && s.m.jobs[id].canceled }

  /** A goroutine before a batch it has yet to export. */
  predicate BeforeBatch(s: System, r: nat) {
    r in s.runs && s.runs[r].pc.Looping? && s.runs[r].pc.next < s.runs[r].windows
  }

  predicate InWindow(s: System, r: nat) { r in s.runs && s.runs[r].pc.Working? }

  /** A window has been exported, or has failed. */
  function WindowDone(s: System, r: nat, result: WindowResult): System
    requires r in s.runs && s.runs[r].pc.Working?
  {
    var run := s.runs[r];
    match result
    case Kept(rows) => WithFile(WithPc(s, r, Stored(run.pc.next, rows)), run.job, FileOf(s, run.job) + rows)
    case Lost(residue, canceled) =>
      WithFile(WithPc(s, r, Closing(Error(canceled))), run.job, FileOf(s, run.job) + residue)
  }

  /** What one event does; an event that is not enabled does nothing. */
  function Apply(s: System, e: Step): System {
    match e
    case StartJob(id, windows) =>
      var (m, ok) := Start(s.m, id, windows, s.now);
      if !ok then s.(m := m) else Spawn(s, m, id, windows, 0).(history := s.history[id := []])
    case ResumeJob(id) =>
      var (m, ok) := Resume(s.m, id);
      if !ok then s else Spawn(s, m, id, m.jobs[id].windows, m.jobs[id].resumeFrom)
    case CancelJob(id) => s.(m := Cancel(s.m, id).0)
    case Tick(elapsed) => s.(now := s.now + elapsed)
    case ReadBase(r) =>
      if !At(s, r, Spawned) then s
      else
        var run := s.runs[r];
        if run.job !in s.m.jobs then WithPc(s, r, Based)
        else
          var job := s.m.jobs[run.job];
          s.(runs := s.runs[r := run.(resumeFrom := if job.resumeFrom > 0 then job.resumeFrom else run.resumeFrom,
                                      baseMetrics := job.baseMetrics, pc := Based)])
    case MarkRunning(r) =>
      if !At(s, r, Based) then s else WithPc(s, r, Marked).(m := MarkedRunning(s.m, s.runs[r].job))
    case OpenStaging(r, ok) =>
      if !At(s, r, Marked) then s
      else if !ok then WithPc(s, r, Closing(Error(false)))
      else
        var run := s.runs[r];
        WithFile(WithPc(s, r, Looping(if run.resumeFrom >= run.windows then 0 else run.resumeFrom)),
                 run.job, if run.resumeFrom > 0 then FileOf(s, run.job) else [])
    case BeginBatch(r) =>
      if !BeforeBatch(s, r) then s
      else if ContextCanceled(s, s.runs[r].job) then WithPc(s, r, Closing(Error(true)))
      else WithPc(s, r, Working(s.runs[r].pc.next))
    case RunWindow(r, result) => if !InWindow(s, r) then s else WindowDone(s, r, result)
    case ReportBatch(r) =>
      if r !in s.runs || !s.runs[r].pc.Stored? then s
      else
        var run := s.runs[r];
        var pc := run.pc;
        s.(m := Updated(s.m, run.job, pc.next + 1, run.windows, |pc.rows|, run.baseMetrics),
           runs := s.runs[r := run.(exported := run.exported + |pc.rows|, pc := Looping(pc.next + 1))],
           history := s.history[run.job := HistoryOf(s, run.job) + [Batch(pc.next, pc.rows)]])
    case Archive(r, ok) =>
      if r !in s.runs || !s.runs[r].pc.Looping? || s.runs[r].pc.next < s.runs[r].windows then s
      else
        var run := s.runs[r];
        if !ok then WithPc(s, r, Closing(Error(false)))
        else
          WithPc(s, r, Closing(Done(run.exported))).(
            archives := s.archives[run.job := FileOf(s, run.job)],
            files := if run.resumeFrom == 0 then s.files - {run.job} else s.files)
    case EndRun(r) =>
      if r !in s.runs || !s.runs[r].pc.Closing? then s
      else s.(m := Finished(s.m, s.runs[r].job, s.runs[r].pc.ending, s.now), runs := s.runs - {r})
  }

  function HistoryOf(s: System, id: string): seq<Batch> { if id in s.history then s.history[id] else [] }

  function ApplyAll(s: System, events: seq<Step>): System {
    if |events| == 0 then s else Apply(ApplyAll(s, events[..|events| - 1]), events[|events| - 1])
  }

  // ---- What is kept over every run ----

  /** The rows of the batches, in order. */
  function RowsOf(h: seq<Batch>): seq<Row> {
    if |h| == 0 then [] else RowsOf(h[..|h| - 1]) + h[|h| - 1].rows
  }

  /** Batch 0, 1, 2, ..., each once. */
  predicate InOrder(h: seq<Batch>) { forall k :: 0 <= k < |h| ==> h[k].index == k }

  lemma RowsOfSnoc(h: seq<Batch>, b: Batch)
    ensures RowsOf(h + [b]) == RowsOf(h) + b.rows
    ensures InOrder(h) && b.index == |h| ==> InOrder(h + [b])
  {
    assert (h + [b])[..|h|] == h;
  }

  /** A job against its history, staging file and archive: batches 0 to completedBatches - 1
      were reported once each, and metricsProcessed counts their rows. */
  ghost predicate JobFits(j: Job, h: seq<Batch>, file: seq<Row>, archive: Option<seq<Row>>) {
    && 1 <= j.windows && j.completedBatches == |h| <= j.windows
    && InOrder(h)
    && j.metricsProcessed == |RowsOf(h)|
    && (j.Resumable() ==> file == RowsOf(h))
    && (j.state.Completed? ==> j.result.Some? && ArchiveFits(j, h, archive, j.result.value))
  }

  /** The archive holds every batch once; its rows are those of earlier runs and of the run
      that wrote it. */
  ghost predicate ArchiveFits(j: Job, h: seq<Batch>, archive: Option<seq<Row>>, exported: nat) {
    |h| == j.windows && archive == Some(RowsOf(h)) && j.baseMetrics + exported == |RowsOf(h)|
  }

  ghost predicate Adds(run: Run, j: Job) {
    run.baseMetrics == j.baseMetrics && run.baseMetrics + run.exported == j.metricsProcessed
  }

  /** A goroutine against the job it runs for. */
  ghost predicate RunFits(run: Run, j: Job, h: seq<Batch>, file: seq<Row>, archive: Option<seq<Row>>) {
    && run.windows == j.windows
    && (match run.pc
        case Spawned =>
          j.baseMetrics == j.metricsProcessed && j.resumeFrom == run.resumeFrom == |h| < j.windows && run.exported == 0
        case Based => run.resumeFrom == |h| < j.windows && run.exported == 0 && Adds(run, j)
        case Marked => run.resumeFrom == |h| < j.windows && run.exported == 0 && Adds(run, j)
        case Looping(next) => next == |h| && Adds(run, j)
        case Working(next) => next == |h| < j.windows && Adds(run, j)
        case Stored(next, _) => next == |h| < j.windows && Adds(run, j)
        case Closing(Done(n)) => Adds(run, j) && n == run.exported && ArchiveFits(j, h, archive, n)
        case Closing(Error(_)) => true)
    && (match run.pc
        case Stored(_, rows) => file == RowsOf(h) + rows
        case Closing(Done(_)) => true
        case _ => file == RowsOf(h))
  }

  function ArchiveOf(s: System, id: string): Option<seq<Row>> {
    if id in s.archives then Some(s.archives[id]) else None
  }

  function RunsOf(s: System, id: string): set<nat> { set r | r in s.runs && s.runs[r].job == id }

  /** A job that is in the table has a history; it has exactly one goroutine while it is live,
      and none otherwise. */
  ghost predicate RunsInv(s: System, id: string) {
    && (id in s.m.jobs ==> id in s.history)
    && (id in LiveIds(s.m) ==> exists r :: RunsOf(s, id) == {r})
    && (id !in LiveIds(s.m) ==> RunsOf(s, id) == {})
    && (forall r :: r in RunsOf(s, id) ==> r < s.nextRun)
  }

  /** A job and its goroutine fit history, staging file and archive. */
  ghost predicate StageInv(s: System, id: string) {
    && (id in s.m.jobs ==> JobFits(s.m.jobs[id], HistoryOf(s, id), FileOf(s, id), ArchiveOf(s, id)))
    && (id in s.files ==> id in s.history)
    && (forall r :: r in RunsOf(s, id) ==>
          id in s.m.jobs && RunFits(s.runs[r], s.m.jobs[id], HistoryOf(s, id), FileOf(s, id), ArchiveOf(s, id)))
  }

  ghost predicate JobInv(s: System, id: string) { RunsInv(s, id) && StageInv(s, id) }

  /** What needs fresh job ids only. */
  ghost predicate CountInv(s: System) { Counted(s.m) && forall id :: RunsInv(s, id) }

  /** What also needs the conditions of `Sound`. */
  ghost predicate Inv(s: System) { Counted(s.m) && forall id :: JobInv(s, id) }

  /** A job id, which the source takes from the clock, is used once. */
  ghost predicate Fresh(s: System, e: Step) { e.StartJob? ==> e.id !in s.history }

  ghost predicate FreshTrace(s: System, events: seq<Step>) {
    |events| == 0 ||
    (FreshTrace(s, events[..|events| - 1]) && Fresh(ApplyAll(s, events[..|events| - 1]), events[|events| - 1]))
  }

  /** The conditions exactly-once needs: a job id is used once, a job that has stored all its
      batches is not resumed, and no append tears. */
  ghost predicate Sound(s: System, e: Step) {
    match e
    case StartJob(id, windows) => id !in s.history && windows >= 1
    case ResumeJob(id) =>
      id in s.m.jobs && s.m.jobs[id].Resumable() ==> s.m.jobs[id].completedBatches < s.m.jobs[id].windows
    case RunWindow(_, Lost(residue, _)) => residue == []
    case _ => true
  }

  ghost predicate SoundTrace(s: System, events: seq<Step>) {
    |events| == 0 ||
    (SoundTrace(s, events[..|events| - 1]) && Sound(ApplyAll(s, events[..|events| - 1]), events[|events| - 1]))
  }

  // ---- One event at a time ----

  /** Nothing the invariant says about job `id` differs between `s` and `s'`, unless the job
      was not live and has been cleaned up. */
  ghost predicate SameJob(s: System, s': System, id: string) {
    && (id in s'.m.jobs ==> id in s.m.jobs && s'.m.jobs[id] == s.m.jobs[id])
    && (id in LiveIds(s.m) ==> id in s'.m.jobs)
    && (id in s.history ==> id in s'.history) && HistoryOf(s', id) == HistoryOf(s, id)
    && FileOf(s', id) == FileOf(s, id) && (id in s'.files ==> id in s.files)
    && ArchiveOf(s', id) == ArchiveOf(s, id)
    && (forall r :: r in s'.runs && s'.runs[r].job == id ==> r in s.runs && s.runs[r] == s'.runs[r])
    && (forall r :: r in s.runs && s.runs[r].job == id ==> r in s'.runs && s'.runs[r].job == id)
    && s.nextRun <= s'.nextRun
  }

  lemma OtherJobKept(s: System, s': System, id: string)
    requires JobInv(s, id) && SameJob(s, s', id)
    ensures JobInv(s', id)
  {
    assert RunsOf(s', id) == RunsOf(s, id);
  }

  lemma OneJobChanged(s: System, s': System, id: string)
    requires Inv(s) && Counted(s'.m) && JobInv(s', id)
    requires forall i :: i != id ==> SameJob(s, s', i)
    ensures Inv(s')
  {
    forall i ensures JobInv(s', i) {
      if i != id { OtherJobKept(s, s', i); }
    }
  }

  lemma JobSpawned(s: System, s': System, id: string, run: Run)
    requires Inv(s) && Counted(s'.m) && JobInv(s', id) && run.job == id
    requires s'.runs == s.runs[s.nextRun := run] && s'.nextRun == s.nextRun + 1
    requires s'.files == s.files && s'.archives == s.archives
    requires forall i :: i != id ==> (i in s'.history <==> i in s.history) && HistoryOf(s', i) == HistoryOf(s, i)
    requires forall i :: i != id && i in s'.m.jobs ==> i in s.m.jobs && s'.m.jobs[i] == s.m.jobs[i]
    requires forall i :: i != id && i in LiveIds(s.m) ==> i in s'.m.jobs
    ensures Inv(s')
  {
    forall i | i != id ensures SameJob(s, s', i) {
      assert JobInv(s, i);
      assert forall r :: r in s.runs && s.runs[r].job == i ==> r in RunsOf(s, i);
    }
    OneJobChanged(s, s', id);
  }

  lemma StartKeeps(s: System, id: string, windows: nat)
    requires Inv(s) && Sound(s, StartJob(id, windows))
    ensures Inv(Apply(s, StartJob(id, windows)))
  {
    if Start(s.m, id, windows, s.now).1 {
      AcceptedStartKeeps(s, id, windows);
    } else {
      var s' := Apply(s, StartJob(id, windows));
      CleanupKeepsLive(s.m, s.now);
      OtherJobKept(s, s', id);
      OneJobChanged(s, s', id);
    }
  }

  lemma AcceptedStartKeeps(s: System, id: string, windows: nat)
    requires Inv(s) && Sound(s, StartJob(id, windows)) && Start(s.m, id, windows, s.now).1
    ensures Inv(Apply(s, StartJob(id, windows)))
  {
    var s' := Apply(s, StartJob(id, windows));
    CleanupKeepsLive(s.m, s.now);
    assert JobInv(s, id);
    StartCountedIff(s.m, id, windows, s.now);
    assert RunsOf(s', id) == {s.nextRun};
    NewJobFits(s', id, windows);
    JobSpawned(s, s', id, s'.runs[s.nextRun]);
  }

  lemma NewJobFits(s: System, id: string, windows: nat)
    requires id in s.m.jobs && s.m.jobs[id] == NewJob(windows) && windows >= 1 && s.nextRun > 0
    requires id in s.history && s.history[id] == [] && id !in s.files
    requires RunsOf(s, id) == {(s.nextRun - 1) as nat} && s.runs[s.nextRun - 1] == Run(id, windows, 0, 0, 0, Spawned)
    ensures JobInv(s, id)
  {
  }

  lemma ResumeKeeps(s: System, id: string)
    requires Inv(s) && Sound(s, ResumeJob(id))
    ensures Inv(Apply(s, ResumeJob(id)))
  {
    var s' := Apply(s, ResumeJob(id));
    if Resume(s.m, id).1 {
      ResumeCounted(s.m, id);
      assert JobInv(s, id);
      assert RunsOf(s', id) == {s.nextRun};
      JobSpawned(s, s', id, s'.runs[s.nextRun]);
    }
  }

  lemma CanceledFits(s: System, id: string)
    requires JobInv(s, id) && Cancel(s.m, id).1
    ensures JobInv(Apply(s, CancelJob(id)), id)
  {
    assert RunsOf(Apply(s, CancelJob(id)), id) == RunsOf(s, id);
  }

  lemma CancelKeeps(s: System, id: string)
    requires Inv(s)
    ensures Inv(Apply(s, CancelJob(id)))
  {
    var s' := Apply(s, CancelJob(id));
    if Cancel(s.m, id).1 {
      LiveKept(s.m, id, s'.m.jobs[id]);
      CanceledFits(s, id);
      forall i | i != id ensures SameJob(s, s', i) { assert s'.m.jobs.Keys == s.m.jobs.Keys; }
      OneJobChanged(s, s', id);
    }
  }

  /** The goroutine of a live job is the only one it has. */
  lemma OnlyRun(s: System, r: nat)
    requires Inv(s) && r in s.runs
    ensures s.runs[r].job in LiveIds(s.m) && RunsOf(s, s.runs[r].job) == {r} && r < s.nextRun
    ensures var id := s.runs[r].job;
            && JobFits(s.m.jobs[id], HistoryOf(s, id), FileOf(s, id), ArchiveOf(s, id))
            && RunFits(s.runs[r], s.m.jobs[id], HistoryOf(s, id), FileOf(s, id), ArchiveOf(s, id))
            && id in s.history
  {
    var id := s.runs[r].job;
    assert JobInv(s, id) && r in RunsOf(s, id);
    var q :| RunsOf(s, id) == {q};
  }

  /** One goroutine moves, changing only its own job, file and archive. */
  lemma RunMoved(s: System, s': System, r: nat)
    requires Inv(s) && r in s.runs && r in s'.runs && s'.runs == s.runs[r := s'.runs[r]]
             && s'.runs[r].job == s.runs[r].job
    requires var id := s.runs[r].job;
             && id in s'.m.jobs && s'.m.jobs.Keys == s.m.jobs.Keys && s'.m.jobs == s.m.jobs[id := s'.m.jobs[id]]
             && s'.m.active == s.m.active && s'.m.maxJobs == s.m.maxJobs && s'.m.jobs[id].Live()
             && id in s'.history && s'.history == s.history[id := s'.history[id]]
             && s'.files - {id} == s.files - {id} && s'.archives - {id} == s.archives - {id} && s'.nextRun == s.nextRun
             && JobFits(s'.m.jobs[id], HistoryOf(s', id), FileOf(s', id), ArchiveOf(s', id))
             && RunFits(s'.runs[r], s'.m.jobs[id], HistoryOf(s', id), FileOf(s', id), ArchiveOf(s', id))
    ensures Inv(s')
  {
    OnlyRun(s, r);
    var id := s.runs[r].job;
    LiveKept(s.m, id, s'.m.jobs[id]);
    assert LiveIds(s'.m) == LiveIds(WithJob(s.m, id, s'.m.jobs[id]));
    assert RunsOf(s', id) == RunsOf(s, id);
    forall i | i != id ensures SameJob(s, s', i) { ElsewhereSame(s, s', id, i); }
    OneJobChanged(s, s', id);
  }

  lemma ElsewhereSame(s: System, s': System, id: string, i: string)
    requires i != id && s'.files - {id} == s.files - {id} && s'.archives - {id} == s.archives - {id}
    ensures FileOf(s', i) == FileOf(s, i) && (i in s'.files ==> i in s.files) && ArchiveOf(s', i) == ArchiveOf(s, i)
  {
    assert i in s'.files <==> i in s'.files - {id};
    assert i in s.files <==> i in s.files - {id};
    assert i in s'.archives <==> i in s'.archives - {id};
    assert i in s.archives <==> i in s.archives - {id};
  }

  lemma ReadBaseKeeps(s: System, r: nat)
    requires Inv(s)
    ensures Inv(Apply(s, ReadBase(r)))
  {
    if At(s, r, Spawned) {
      OnlyRun(s, r);
      RunMoved(s, Apply(s, ReadBase(r)), r);
    }
  }

  lemma MarkRunningKeeps(s: System, r: nat)
    requires Inv(s)
    ensures Inv(Apply(s, MarkRunning(r)))
  {
    if At(s, r, Based) {
      OnlyRun(s, r);
      RunMoved(s, Apply(s, MarkRunning(r)), r);
    }
  }

  lemma OpenStagingKeeps(s: System, r: nat, ok: bool)
    requires Inv(s)
    ensures Inv(Apply(s, OpenStaging(r, ok)))
  {
    if At(s, r, Marked) {
      OnlyRun(s, r);
      RunMoved(s, Apply(s, OpenStaging(r, ok)), r);
    }
  }

  lemma BeginBatchKeeps(s: System, r: nat)
    requires Inv(s)
    ensures Inv(Apply(s, BeginBatch(r)))
  {
    if BeforeBatch(s, r) {
      OnlyRun(s, r);
      RunMoved(s, Apply(s, BeginBatch(r)), r);
    }
  }

  lemma RunWindowKeeps(s: System, r: nat, result: WindowResult)
    requires Inv(s) && Sound(s, RunWindow(r, result))
    ensures Inv(Apply(s, RunWindow(r, result)))
  {
    if InWindow(s, r) {
      OnlyRun(s, r);
      var id := s.runs[r].job;
      assert result.Lost? ==> FileOf(s, id) + result.residue == FileOf(s, id);
      RunMoved(s, Apply(s, RunWindow(r, result)), r);
    }
  }

  lemma ReportKeeps(s: System, r: nat)
    requires Inv(s)
    ensures Inv(Apply(s, ReportBatch(r)))
  {
    if r in s.runs && s.runs[r].pc.Stored? {
      OnlyRun(s, r);
      var id := s.runs[r].job;
      RowsOfSnoc(HistoryOf(s, id), Batch(s.runs[r].pc.next, s.runs[r].pc.rows));
      RunMoved(s, Apply(s, ReportBatch(r)), r);
    }
  }

  lemma ArchiveKeeps(s: System, r: nat, ok: bool)
    requires Inv(s)
    ensures Inv(Apply(s, Archive(r, ok)))
  {
    if r in s.runs && s.runs[r].pc.Looping? && s.runs[r].pc.next >= s.runs[r].windows {
      OnlyRun(s, r);
      RunMoved(s, Apply(s, Archive(r, ok)), r);
    }
  }

  lemma EndRunKeeps(s: System, r: nat)
    requires Inv(s)
    ensures Inv(Apply(s, EndRun(r)))
  {
    if r in s.runs && s.runs[r].pc.Closing? {
      OnlyRun(s, r);
      var id := s.runs[r].job;
      var s' := Apply(s, EndRun(r));
      FinishCounted(s.m, id, s.runs[r].pc.ending, s.now);
      assert RunsOf(s', id) == {} by { assert forall q :: q in s.runs && s.runs[q].job == id ==> q in RunsOf(s, id); }
      OneJobChanged(s, s', id);
    }
  }

  /** Every event of every interleaving keeps the invariant. */
  lemma EventKeeps(s: System, e: Step)
    requires Inv(s) && Sound(s, e)
    ensures Inv(Apply(s, e))
  {
    match e
    case StartJob(id, windows) => StartKeeps(s, id, windows);
    case ResumeJob(id) => ResumeKeeps(s, id);
    case CancelJob(id) => CancelKeeps(s, id);
    case Tick(elapsed) => forall id ensures JobInv(Apply(s, e), id) { OtherJobKept(s, Apply(s, e), id); }
    case ReadBase(r) => ReadBaseKeeps(s, r);
    case MarkRunning(r) => MarkRunningKeeps(s, r);
    case OpenStaging(r, ok) => OpenStagingKeeps(s, r, ok);
    case BeginBatch(r) => BeginBatchKeeps(s, r);
    case RunWindow(r, result) => RunWindowKeeps(s, r, result);
    case ReportBatch(r) => ReportKeeps(s, r);
    case Archive(r, ok) => ArchiveKeeps(s, r, ok);
    case EndRun(r) => EndRunKeeps(s, r);
  }

  lemma {:induction false} TraceKeeps(maxJobs: nat, retention: int, events: seq<Step>)
    requires SoundTrace(Init(maxJobs, retention), events)
    ensures Inv(ApplyAll(Init(maxJobs, retention), events))
  {
    var s := Init(maxJobs, retention);
    if |events| == 0 {
      assert LiveIds(s.m) == {};
      forall id ensures JobInv(s, id) { assert RunsOf(s, id) == {}; }
    } else {
      TraceKeeps(maxJobs, retention, events[..|events| - 1]);
      EventKeeps(ApplyAll(s, events[..|events| - 1]), events[|events| - 1]);
    }
  }
}
