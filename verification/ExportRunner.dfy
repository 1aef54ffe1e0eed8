/** runJob of internal/server/export_jobs.go: one run of a job, from the manager through the
    export engine back to the manager, when no other run interleaves. */
module ExportRunner {
  import opened Domain
  import opened ExportExecution
  import opened ExportEngine
  import opened ExportJobs
  import opened ExportRunSteps
  import opened ExportResumes
  import R = ExportRuns
  import opened AdaptiveExport

  /** The progress reporter of the run. */
  method ReportAll(m: ExportJobManager, jobID: string, reports: seq<Report>, baseMetrics: nat)
    requires m.Valid()
    modifies m
    ensures m.Valid() && m.Live() == old(m.Live())
    ensures m.View() == Reported(old(m.View()), jobID, reports, baseMetrics)
  {
    for i := 0 to |reports|
      invariant m.Valid() && m.Live() == old(m.Live())
      invariant m.View() == Reported(old(m.View()), jobID, reports[..i], baseMetrics)
    {
      assert reports[..i + 1][..i] == reports[..i];
      m.UpdateBatch(jobID, reports[i].batchIndex, reports[i].totalBatches, reports[i].metrics, baseMetrics);
    }
    assert reports[..|reports|] == reports;
  }

  method EndJob(m: ExportJobManager, jobID: string, result: Option<ExportResult>, err: Option<Failure>, now: int)
    requires m.Valid() && jobID in m.Live()
    modifies m
    ensures m.Valid() && m.Live() == old(m.Live()) - {jobID}
    ensures m.View() == Finished(old(m.View()), jobID, EndingOf(result, err), now)
  {
    if result.Some? {
      m.MarkCompleted(jobID, result.value.metricsExported, now);
    } else if err.Some? && err.value.canceled {
      m.MarkCanceled(jobID, now);
    } else {
      m.MarkFailed(jobID, now);
    }
  }

  /** Manager and staging file are those of the state machine. */
  ghost predicate Follows(u: R.System, m: Manager, id: string, staging: Option<seq<Row>>) {
    u.m == m && StagingOf(u, id) == staging
  }

  /** A run does with the staging file what ExecuteExport does and tells the manager so; it ends
      the life of its job, and of no other. It is a run of the job's goroutine in the state machine
      of all jobs. */
  method RunJob(m: ExportJobManager, e: Engine, jobID: string, config: ExportConfig, now: int)
    requires m.Valid() && jobID in m.Live() && e.Fresh()
    modifies m, e
    ensures m.Valid() && e.Fresh() && m.Live() == old(m.Live()) - {jobID}
    ensures var x := Execute(ConfigOf(config, old(m.jobs[jobID])), e.env, old(e.Found(Staging(jobID))), old(e.clock));
            e.Left(x, Staging(jobID)) && m.View() == Ran(old(m.View()), jobID, x, now)
    ensures forall s, r ::
              Begins(s, r, config, e.env, old(e.clock)) && s.runs[r].job == jobID && s.now == now
              && s.m == old(m.View()) && StagingOf(s, jobID) == old(e.Found(Staging(jobID))) ==>
              Follows(AfterRun(s, r, config, e.env, old(e.clock)), m.View(), jobID, e.Found(Staging(jobID)))
  {
    var job := m.jobs[jobID];
    var c := config;
    if job.resumeFrom > 0 {
      c := c.(resumeFromBatch := job.resumeFrom);
    }
    m.MarkRunning(jobID);
    var reports, result, err := e.ExecuteExport(c, Staging(jobID));
    ReportAll(m, jobID, reports, job.baseMetrics);
    EndJob(m, jobID, result, err, now);
    forall s, r
      | Begins(s, r, config, e.env, old(e.clock)) && s.runs[r].job == jobID && s.now == now
        && s.m == old(m.View()) && StagingOf(s, jobID) == old(e.Found(Staging(jobID)))
      ensures Follows(AfterRun(s, r, config, e.env, old(e.clock)), m.View(), jobID, e.Found(Staging(jobID)))
    {
      BeginsStarts(s, r, config, e.env, old(e.clock));
      RunIsSteps(s, r, config, e.env, old(e.clock));
    }
  }
}
