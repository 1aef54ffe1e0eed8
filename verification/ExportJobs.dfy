/** ExportJobManager of internal/server/export_jobs.go: every section under the lock is one
    operation. The class changes the manager in place; the functions beside it say what each
    operation does to the manager's state. */
module ExportJobs {
  import opened Domain

  const DEFAULT_MAX_CONCURRENT: nat := 3
  const DEFAULT_RETENTION: int := 30 * MINUTE

  datatype JobState = Pending | Running | Completed | Failed | Canceled

  /** An export job and its status. `windows` is the number of batch windows of its
      configuration; `cancelable` says whether the cancel function is set and `canceled`
      whether the context of the current run has been cancelled. */
  datatype Job = Job(
    state: JobState,
    windows: nat,
    totalBatches: nat,
    completedBatches: nat,
    metricsProcessed: nat,
    completedAt: Option<int>,
    result: Option<nat>,
    cancelable: bool,
    canceled: bool,
    resumeFrom: nat,
    baseMetrics: nat)
  {
    predicate Live() { state.Pending? || state.Running? }

    predicate Resumable() { state.Failed? || state.Canceled? }
  }

  datatype Manager = Manager(jobs: map<string, Job>, active: int, maxJobs: nat, retention: int)

  function NewJob(windows: nat): Job {
    Job(Pending, windows, if windows == 0 then 1 else windows, 0, 0, None, None, true, false, 0, 0)
  }

  predicate Expired(j: Job, now: int, retention: int) {
    !j.Live() && j.completedAt.Some? && now - j.completedAt.value > retention
  }

  function Cleanup(m: Manager, now: int): Manager {
    m.(jobs := map id | id in m.jobs && !Expired(m.jobs[id], now, m.retention) :: m.jobs[id])
  }

  function WithJob(m: Manager, id: string, j: Job): Manager { m.(jobs := m.jobs[id := j]) }

  /** StartJob; None when the manager is full. */
  function Start(m: Manager, id: string, windows: nat, now: int): (Manager, bool) {
    var clean := Cleanup(m, now);
    if clean.active >= clean.maxJobs then (clean, false)
    else (WithJob(clean, id, NewJob(windows)).(active := clean.active + 1), true)
  }

  function Resumed(j: Job): Job {
    j.(state := Pending, resumeFrom := j.completedBatches, baseMetrics := j.metricsProcessed,
       completedAt := None, result := None, cancelable := true, canceled := false)
  }

  function Resume(m: Manager, id: string): (Manager, bool) {
    if id !in m.jobs || !m.jobs[id].Resumable() || m.active >= m.maxJobs then (m, false)
    else (WithJob(m, id, Resumed(m.jobs[id])).(active := m.active + 1), true)
  }

  function Cancel(m: Manager, id: string): (Manager, bool) {
    if id !in m.jobs || !m.jobs[id].Live() then (m, false)
    else (WithJob(m, id, m.jobs[id].(canceled := m.jobs[id].canceled || m.jobs[id].cancelable)), true)
  }

  function MarkedRunning(m: Manager, id: string): Manager {
    if id !in m.jobs then m else WithJob(m, id, m.jobs[id].(state := Running))
  }

  /** How a run ends: with a result, or with an error that may be a cancellation. */
  datatype Ending = Done(metricsExported: nat) | Error(canceled: bool)

  function Ended(j: Job, e: Ending, now: int): Job {
    var k := j.(completedAt := Some(now), cancelable := false, canceled := j.canceled || j.cancelable);
    match e
    case Done(n) => k.(state := Completed, result := Some(n))
    case Error(canceled) => k.(state := if canceled then Canceled else Failed)
  }

  /** markCompleted, markFailed and markCanceled, with jobFinishedLocked. */
  function Finished(m: Manager, id: string, e: Ending, now: int): Manager {
    if id !in m.jobs then m
    else
      var n := WithJob(m, id, Ended(m.jobs[id], e, now));
      Cleanup(n.(active := if n.active > 0 then n.active - 1 else n.active), now)
  }

  function BatchDone(j: Job, batchIndex: nat, totalBatches: nat, metrics: nat, baseMetrics: nat): Job {
    j.(totalBatches := if totalBatches > 0 then totalBatches else j.totalBatches,
       completedBatches := Max(j.completedBatches, batchIndex),
       metricsProcessed := Max(j.metricsProcessed, baseMetrics) + metrics)
  }

  /** updateBatch. */
  function Updated(m: Manager, id: string, batchIndex: nat, totalBatches: nat, metrics: nat,
                   baseMetrics: nat): Manager {
    if id !in m.jobs then m
    else WithJob(m, id, BatchDone(m.jobs[id], batchIndex, totalBatches, metrics, baseMetrics))
  }

  // ---- The active counter ----

  ghost function LiveIds(m: Manager): set<string> { set id | id in m.jobs && m.jobs[id].Live() }

  /** The counter is the number of live jobs, within the limit. */
  ghost predicate Counted(m: Manager) { m.active == |LiveIds(m)| <= m.maxJobs }

  /** Cleaning up never removes a live job, and leaves every job it keeps as it was. */
  lemma CleanupKeepsLive(m: Manager, now: int)
    ensures LiveIds(Cleanup(m, now)) == LiveIds(m)
    ensures forall id :: id in Cleanup(m, now).jobs ==> id in m.jobs && Cleanup(m, now).jobs[id] == m.jobs[id]
  {
  }

  lemma LiveAdded(m: Manager, id: string, j: Job)
    requires j.Live() && id !in LiveIds(m)
    ensures LiveIds(WithJob(m, id, j)) == LiveIds(m) + {id}
    ensures |LiveIds(WithJob(m, id, j))| == |LiveIds(m)| + 1
  {
    assert LiveIds(WithJob(m, id, j)) == LiveIds(m) + {id};
  }

  lemma LiveKept(m: Manager, id: string, j: Job)
    requires id in m.jobs && j.Live() == m.jobs[id].Live()
    ensures LiveIds(WithJob(m, id, j)) == LiveIds(m)
  {
  }

  lemma LiveRemoved(m: Manager, id: string, j: Job)
    requires id in LiveIds(m) && !j.Live()
    ensures LiveIds(WithJob(m, id, j)) == LiveIds(m) - {id}
    ensures |LiveIds(WithJob(m, id, j))| == |LiveIds(m)| - 1
  {
    assert LiveIds(WithJob(m, id, j)) == LiveIds(m) - {id};
  }

  /** An accepted start keeps the counter right exactly when its id is not that of a live
      job: the id is not checked, and a duplicate is counted twice. */
  lemma StartCountedIff(m: Manager, id: string, windows: nat, now: int)
    requires Counted(m) && Start(m, id, windows, now).1
    ensures Counted(Start(m, id, windows, now).0) <==> id !in LiveIds(m)
  {
    CleanupKeepsLive(m, now);
    var clean := Cleanup(m, now);
    if id in LiveIds(m) {
      LiveKept(clean, id, NewJob(windows));
    } else {
      LiveAdded(clean, id, NewJob(windows));
    }
    var after := Start(m, id, windows, now).0;
    assert LiveIds(after) == LiveIds(WithJob(clean, id, NewJob(windows)));
  }

  lemma StartLive(m: Manager, id: string, windows: nat, now: int)
    requires Start(m, id, windows, now).1
    ensures LiveIds(Start(m, id, windows, now).0) == LiveIds(m) + {id}
    ensures Start(m, id, windows, now).0.jobs.Keys <= m.jobs.Keys + {id}
  {
    CleanupKeepsLive(m, now);
  }

  lemma ResumeLive(m: Manager, id: string)
    requires Resume(m, id).1
    ensures id !in LiveIds(m) && LiveIds(Resume(m, id).0) == LiveIds(m) + {id}
  {
  }

  lemma ResumeCounted(m: Manager, id: string)
    requires Counted(m)
    ensures Counted(Resume(m, id).0)
  {
    if Resume(m, id).1 {
      LiveAdded(m, id, Resumed(m.jobs[id]));
      assert LiveIds(Resume(m, id).0) == LiveIds(WithJob(m, id, Resumed(m.jobs[id])));
    }
  }

  /** Ending the run of a live job takes one off a counter that is positive, so the guard of
      jobFinishedLocked never decides anything. */
  lemma FinishCounted(m: Manager, id: string, e: Ending, now: int)
    requires Counted(m) && id in LiveIds(m)
    ensures m.active > 0 && Counted(Finished(m, id, e, now)) && Finished(m, id, e, now).active == m.active - 1
    ensures LiveIds(Finished(m, id, e, now)) == LiveIds(m) - {id}
  {
    var j := Ended(m.jobs[id], e, now);
    LiveRemoved(m, id, j);
    assert |{id}| <= |LiveIds(m)| by {
      assert LiveIds(m) == (LiveIds(m) - {id}) + {id};
    }
    var n := WithJob(m, id, j).(active := m.active - 1);
    assert LiveIds(n) == LiveIds(WithJob(m, id, j));
    CleanupKeepsLive(n, now);
  }

  /** Ending a job keeps the counter right exactly if the job was live, or was gone, or the
      counter was 0, which is the one case in which the guard of jobFinishedLocked acts. */
  lemma FinishCountedIff(m: Manager, id: string, e: Ending, now: int)
    requires Counted(m)
    ensures Counted(Finished(m, id, e, now)) <==> id in LiveIds(m) || id !in m.jobs || m.active == 0
  {
    if id in LiveIds(m) {
      FinishCounted(m, id, e, now);
    } else if id in m.jobs {
      var j := Ended(m.jobs[id], e, now);
      LiveKept(m, id, j);
      var n := WithJob(m, id, j).(active := if m.active > 0 then m.active - 1 else m.active);
      assert LiveIds(n) == LiveIds(WithJob(m, id, j));
      CleanupKeepsLive(n, now);
    }
  }

  /** Marking a job as running keeps the counter right exactly if the job was live or gone, and
      then leaves the set of live jobs as it was. */
  lemma MarkRunningCountedIff(m: Manager, id: string)
    requires Counted(m)
    ensures Counted(MarkedRunning(m, id)) <==> id in LiveIds(m) || id !in m.jobs
    ensures Counted(MarkedRunning(m, id)) ==> LiveIds(MarkedRunning(m, id)) == LiveIds(m)
  {
    if id in LiveIds(m) {
      LiveKept(m, id, m.jobs[id].(state := Running));
    } else if id in m.jobs {
      LiveAdded(m, id, m.jobs[id].(state := Running));
    }
  }

  /** Cancelling a job ends nothing yet: it is the run that has to end. */
  lemma CancelCounted(m: Manager, id: string)
    requires Counted(m)
    ensures Counted(Cancel(m, id).0) && LiveIds(Cancel(m, id).0) == LiveIds(m)
    ensures Cancel(m, id).1 <==> id in LiveIds(m)
  {
    if Cancel(m, id).1 { LiveKept(m, id, Cancel(m, id).0.jobs[id]); }
  }

  lemma UpdateCounted(m: Manager, id: string, batchIndex: nat, totalBatches: nat, metrics: nat, baseMetrics: nat)
    requires Counted(m)
    ensures var n := Updated(m, id, batchIndex, totalBatches, metrics, baseMetrics);
            Counted(n) && LiveIds(n) == LiveIds(m)
  {
    if id in m.jobs { LiveKept(m, id, BatchDone(m.jobs[id], batchIndex, totalBatches, metrics, baseMetrics)); }
  }

  class ExportJobManager {
    var jobs: map<string, Job>
    var activeJobs: int
    const maxConcurrentJobs: nat
    const retention: int

    /** The active counter is the number of live jobs, within the limit. */
    ghost predicate Valid()
      reads this
    {
      Counted(View())
    }

    ghost function Live(): set<string>
      reads this
    {
      LiveIds(View())
    }

    constructor ()
      ensures Valid()
      ensures View() == Manager(map[], 0, 3, 30 * MINUTE)
    {
      jobs, activeJobs := map[], 0;
      maxConcurrentJobs, retention := DEFAULT_MAX_CONCURRENT, DEFAULT_RETENTION;
    }

    function View(): Manager
      reads this
    {
      Manager(jobs, activeJobs, maxConcurrentJobs, retention)
    }

    method StartJob(jobID: string, windows: nat, now: int) returns (ok: bool)
      requires Valid()
      modifies this
      ensures (View(), ok) == Start(old(View()), jobID, windows, now)
      ensures Valid() <==> !ok || jobID !in old(Live())
      ensures ok ==> Live() == old(Live()) + {jobID}
      ensures !ok ==> Live() == old(Live()) && activeJobs == maxConcurrentJobs
    {
      CleanupKeepsLive(View(), now);
      if Start(View(), jobID, windows, now).1 {
        StartCountedIff(View(), jobID, windows, now);
        StartLive(View(), jobID, windows, now);
      }
      CleanupLocked(now);
      if activeJobs >= maxConcurrentJobs {
        return false;
      }
      jobs := jobs[jobID := NewJob(windows)];
      activeJobs := activeJobs + 1;
      return true;
    }

    method GetStatus(jobID: string) returns (status: Option<Job>)
      requires Valid()
      ensures status.Some? && status.value.Live() <==> jobID in Live()
      ensures status.Some? ==> jobID in jobs && status.value == jobs[jobID]
    {
      if jobID !in jobs {
        return None;
      }
      return Some(jobs[jobID]);
    }

    method ResumeJob(jobID: string) returns (ok: bool)
      requires Valid()
      modifies this
      ensures Valid() && (View(), ok) == Resume(old(View()), jobID)
      ensures ok ==> jobID !in old(Live()) && Live() == old(Live()) + {jobID}
    {
      ResumeCounted(View(), jobID);
      if Resume(View(), jobID).1 { ResumeLive(View(), jobID); }
      if jobID !in jobs {
        return false;
      }
      var job := jobs[jobID];
      if job.state != Canceled && job.state != Failed {
        return false;
      }
      if activeJobs >= maxConcurrentJobs {
        return false;
      }
      job := job.(resumeFrom := job.completedBatches, baseMetrics := job.metricsProcessed, cancelable := true,
                 canceled := false);
      job := job.(state := Pending, result := None, completedAt := None);
      jobs := jobs[jobID := job];
      activeJobs := activeJobs + 1;
      return true;
    }

    method CancelJob(jobID: string) returns (ok: bool)
      requires Valid()
      modifies this`jobs
      ensures Valid() && (View(), ok) == Cancel(old(View()), jobID)
      ensures Live() == old(Live()) && (ok <==> jobID in Live())
    {
      CancelCounted(View(), jobID);
      if jobID !in jobs {
        return false;
      }
      var job := jobs[jobID];
      if job.state == Completed || job.state == Failed || job.state == Canceled {
        return false;
      }
      if job.cancelable {
        job := job.(canceled := true);
      }
      jobs := jobs[jobID := job];
      return true;
    }

    method MarkRunning(jobID: string)
      requires Valid()
      modifies this`jobs
      ensures View() == MarkedRunning(old(View()), jobID)
      ensures Valid() <==> jobID in old(Live()) || jobID !in jobs
      ensures Valid() ==> Live() == old(Live())
    {
      MarkRunningCountedIff(View(), jobID);
      if jobID in jobs {
        jobs := jobs[jobID := jobs[jobID].(state := Running)];
      }
    }

    method MarkCompleted(jobID: string, metricsExported: nat, now: int)
      requires Valid()
      modifies this
      ensures View() == Finished(old(View()), jobID, Done(metricsExported), now)
      ensures Valid() <==> jobID in old(Live()) || old(jobID !in jobs || activeJobs == 0)
      ensures jobID in old(Live()) ==>
              old(activeJobs) > 0 && activeJobs == old(activeJobs) - 1 && Live() == old(Live()) - {jobID}
    {
      FinishCountedIff(View(), jobID, Done(metricsExported), now);
      if jobID in Live() { FinishCounted(View(), jobID, Done(metricsExported), now); }
      SetCompleted(jobID, metricsExported, now);
    }

    method SetCompleted(jobID: string, metricsExported: nat, now: int)
      modifies this
      ensures View() == Finished(old(View()), jobID, Done(metricsExported), now)
    {
      if jobID in jobs {
        ReleaseContext(jobID);
        var job := jobs[jobID];
        jobs := jobs[jobID := job.(state := Completed, completedAt := Some(now), result := Some(metricsExported))];
        JobFinishedLocked(now);
      }
    }

    method MarkFailed(jobID: string, now: int)
      requires Valid()
      modifies this
      ensures View() == Finished(old(View()), jobID, Error(false), now)
      ensures Valid() <==> jobID in old(Live()) || old(jobID !in jobs || activeJobs == 0)
      ensures jobID in old(Live()) ==>
              old(activeJobs) > 0 && activeJobs == old(activeJobs) - 1 && Live() == old(Live()) - {jobID}
    {
      FinishCountedIff(View(), jobID, Error(false), now);
      if jobID in Live() { FinishCounted(View(), jobID, Error(false), now); }
      SetFailed(jobID, now);
    }

    method SetFailed(jobID: string, now: int)
      modifies this
      ensures View() == Finished(old(View()), jobID, Error(false), now)
    {
      if jobID in jobs {
        ReleaseContext(jobID);
        var job := jobs[jobID];
        jobs := jobs[jobID := job.(state := Failed, completedAt := Some(now))];
        JobFinishedLocked(now);
      }
    }

    method MarkCanceled(jobID: string, now: int)
      requires Valid()
      modifies this
      ensures View() == Finished(old(View()), jobID, Error(true), now)
      ensures Valid() <==> jobID in old(Live()) || old(jobID !in jobs || activeJobs == 0)
      ensures jobID in old(Live()) ==>
              old(activeJobs) > 0 && activeJobs == old(activeJobs) - 1 && Live() == old(Live()) - {jobID}
    {
      FinishCountedIff(View(), jobID, Error(true), now);
      if jobID in Live() { FinishCounted(View(), jobID, Error(true), now); }
      SetCanceled(jobID, now);
    }

    method SetCanceled(jobID: string, now: int)
      modifies this
      ensures View() == Finished(old(View()), jobID, Error(true), now)
    {
      if jobID in jobs {
        ReleaseContext(jobID);
        var job := jobs[jobID];
        jobs := jobs[jobID := job.(state := Canceled, completedAt := Some(now))];
        JobFinishedLocked(now);
      }
    }

    /** Calls and clears the cancel function of a job. */
    method ReleaseContext(jobID: string)
      requires jobID in jobs
      modifies this`jobs
      ensures jobs == old(jobs)[jobID := old(jobs)[jobID].(cancelable := false,
                                         canceled := old(jobs)[jobID].canceled || old(jobs)[jobID].cancelable)]
    {
      var job := jobs[jobID];
      if job.cancelable {
        job := job.(canceled := true, cancelable := false);
      }
      jobs := jobs[jobID := job];
    }

    method UpdateBatch(jobID: string, batchIndex: nat, totalBatches: nat, metrics: nat, baseMetrics: nat)
      requires Valid()
      modifies this`jobs
      ensures Valid() && View() == Updated(old(View()), jobID, batchIndex, totalBatches, metrics, baseMetrics)
      ensures Live() == old(Live())
    {
      UpdateCounted(View(), jobID, batchIndex, totalBatches, metrics, baseMetrics);
      if jobID !in jobs {
        return;
      }
      var job := jobs[jobID];
      if totalBatches > 0 {
        job := job.(totalBatches := totalBatches);
      }
      if batchIndex > job.completedBatches {
        job := job.(completedBatches := batchIndex);
      }
      if baseMetrics > 0 && job.metricsProcessed < baseMetrics {
        job := job.(metricsProcessed := baseMetrics);
      }
      job := job.(metricsProcessed := job.metricsProcessed + metrics);
      jobs := jobs[jobID := job];
    }

    method JobFinishedLocked(now: int)
      modifies this
      ensures var n := if old(activeJobs) > 0 then old(activeJobs) - 1 else old(activeJobs);
              View() == Cleanup(old(View()).(active := n), now)
    {
      if activeJobs > 0 {
        activeJobs := activeJobs - 1;
      }
      CleanupLocked(now);
    }

    /** cleanupLocked: the loop over the jobs that deletes the expired ones. */
    method CleanupLocked(now: int)
      modifies this`jobs
      ensures View() == Cleanup(old(View()), now)
    {
      var rest := jobs.Keys;
      while rest != {}
        invariant rest <= old(jobs).Keys
        invariant forall id ::
                    id in jobs <==> id in old(jobs) && (id in rest || !Expired(old(jobs)[id], now, retention))
        invariant forall id :: id in jobs ==> jobs[id] == old(jobs)[id]
        decreases |rest|
      {
        var id :| id in rest;
        var job := jobs[id];
        if job.state == Completed || job.state == Failed || job.state == Canceled {
          if job.completedAt != None && now - job.completedAt.value > retention {
            jobs := jobs - {id};
          }
        }
        rest := rest - {id};
      }
      assert jobs == Cleanup(old(View()), now).jobs;
    }
  }

  /** An update counts the lines of its batch on top of what earlier runs stored, and never takes the
      number of completed batches back. */
  lemma UpdateMeans(j: Job, batchIndex: nat, totalBatches: nat, metrics: nat, baseMetrics: nat)
    ensures var k := BatchDone(j, batchIndex, totalBatches, metrics, baseMetrics);
            && k.completedBatches >= j.completedBatches && k.completedBatches >= batchIndex
            && (k.completedBatches == j.completedBatches || k.completedBatches == batchIndex)
            && k.metricsProcessed >= baseMetrics + metrics && k.metricsProcessed >= j.metricsProcessed + metrics
            && (k.metricsProcessed == j.metricsProcessed + metrics || k.metricsProcessed == baseMetrics + metrics)
            && k.state == j.state && k.windows == j.windows
  {
  }
}
