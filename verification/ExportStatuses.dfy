/** What the status of an export job shows of its run. */
module ExportStatuses {
  import opened Domain
  import M = ExportJobs
  import opened ExportRuns
  import opened ExportRunCounts

  /** A live job has not ended and can be cancelled; any other has ended, and has a result exactly if
      it is completed. */
  ghost predicate JobShows(j: M.Job) {
    && (j.Live() ==> j.completedAt.None? && j.cancelable)
    && (!j.Live() ==> j.completedAt.Some? && !j.cancelable)
    && (j.result.Some? <==> j.state.Completed?)
    && j.totalBatches == j.windows
  }

  /** A job is pending exactly until its goroutine marks it. */
  ghost predicate RunShows(s: System, r: nat)
    requires r in s.runs
  {
    s.runs[r].job in s.m.jobs ==>
      && s.runs[r].windows == s.m.jobs[s.runs[r].job].windows
      && (s.m.jobs[s.runs[r].job].state.Pending? <==> s.runs[r].pc.Spawned? || s.runs[r].pc.Based?)
  }

  ghost predicate StatusInv(s: System) {
    && (forall id :: id in s.m.jobs ==> JobShows(s.m.jobs[id]))
    && (forall r :: r in s.runs ==> RunShows(s, r))
  }

  /** A job was started with at least one batch. */
  predicate HasBatches(e: Step) { e.StartJob? ==> e.windows >= 1 }

  lemma StartShows(s: System, id: string, windows: nat)
    requires CountInv(s) && StatusInv(s) && id !in s.history && windows >= 1
    ensures StatusInv(Apply(s, StartJob(id, windows)))
  {
    var t := Apply(s, StartJob(id, windows));
    assert RunsInv(s, id);
    M.CleanupKeepsLive(s.m, s.now);
    forall r | r in t.runs ensures RunShows(t, r) {
      if r in s.runs && r != s.nextRun {
        OnlyRunOfLiveJob(s, r);
        assert RunShows(s, r);
      }
    }
  }

  lemma ResumeShows(s: System, id: string)
    requires CountInv(s) && StatusInv(s)
    ensures StatusInv(Apply(s, ResumeJob(id)))
  {
    var t := Apply(s, ResumeJob(id));
    if M.Resume(s.m, id).1 {
      assert RunsInv(s, id);
      assert JobShows(s.m.jobs[id]);
      forall r | r in t.runs ensures RunShows(t, r) {
        if r in s.runs && r != s.nextRun {
          assert RunShows(s, r) && s.runs[r].job != id by { OnlyRunOfLiveJob(s, r); }
        }
      }
    }
  }

  /** A step that moves one goroutine, and no job but its own. */
  lemma MoveShows(s: System, t: System, r: nat)
    requires CountInv(s) && StatusInv(s) && r in s.runs && r in t.runs
    requires s.runs[r].job in s.m.jobs && s.runs[r].job in t.m.jobs
    requires t.runs == s.runs[r := t.runs[r]] && t.runs[r].job == s.runs[r].job
    requires t.m.jobs == s.m.jobs[s.runs[r].job := t.m.jobs[s.runs[r].job]]
    requires JobShows(t.m.jobs[s.runs[r].job]) && RunShows(t, r)
    ensures StatusInv(t)
  {
    CountsRunOneEach(s);
    forall q | q in t.runs ensures RunShows(t, q) {
      if q != r { assert RunShows(s, q) && s.runs[q].job != s.runs[r].job; }
    }
  }

  lemma ReadShows(s: System, r: nat)
    requires CountInv(s) && StatusInv(s) && At(s, r, Spawned)
    ensures StatusInv(Apply(s, ReadBase(r)))
  {
    OnlyRunOfLiveJob(s, r);
    assert RunShows(s, r);
    MoveShows(s, Apply(s, ReadBase(r)), r);
  }

  lemma MarkShows(s: System, r: nat)
    requires CountInv(s) && StatusInv(s) && At(s, r, Based)
    ensures StatusInv(Apply(s, MarkRunning(r)))
  {
    OnlyRunOfLiveJob(s, r);
    assert RunShows(s, r) && JobShows(s.m.jobs[s.runs[r].job]);
    MoveShows(s, Apply(s, MarkRunning(r)), r);
  }

  lemma ReportShows(s: System, r: nat)
    requires CountInv(s) && StatusInv(s) && r in s.runs && s.runs[r].pc.Stored?
    ensures StatusInv(Apply(s, ReportBatch(r)))
  {
    OnlyRunOfLiveJob(s, r);
    assert RunShows(s, r) && JobShows(s.m.jobs[s.runs[r].job]);
    MoveShows(s, Apply(s, ReportBatch(r)), r);
  }

  lemma FinishedShows(m: M.Manager, id: string, e: M.Ending, now: int)
    requires id in m.jobs && m.jobs[id].Live() && forall i :: i in m.jobs ==> JobShows(m.jobs[i])
    ensures var n := M.Finished(m, id, e, now);
            forall i :: i in n.jobs ==> JobShows(n.jobs[i]) && i in m.jobs && (i != id ==> n.jobs[i] == m.jobs[i])
  {
    assert JobShows(M.Ended(m.jobs[id], e, now));
  }

  lemma EndShows(s: System, r: nat)
    requires CountInv(s) && StatusInv(s) && r in s.runs && s.runs[r].pc.Closing?
    ensures StatusInv(Apply(s, EndRun(r)))
  {
    OnlyRunOfLiveJob(s, r);
    CountsRunOneEach(s);
    var t := Apply(s, EndRun(r));
    FinishedShows(s.m, s.runs[r].job, s.runs[r].pc.ending, s.now);
    forall q | q in t.runs ensures RunShows(t, q) { assert RunShows(s, q) && s.runs[q].job != s.runs[r].job; }
  }

  lemma CancelShows(s: System, id: string)
    requires StatusInv(s)
    ensures StatusInv(Apply(s, CancelJob(id)))
  {
    var t := Apply(s, CancelJob(id));
    forall r | r in t.runs ensures RunShows(t, r) { assert RunShows(s, r); }
  }

  /** A step after which goroutine `r` is elsewhere, past its mark, and the manager as it was. */
  lemma PassShows(s: System, t: System, r: nat)
    requires StatusInv(s) && r in s.runs && r in t.runs && t.m == s.m
    requires t.runs == s.runs[r := s.runs[r].(pc := t.runs[r].pc)]
    requires t.runs[r].pc.Spawned? || t.runs[r].pc.Based? <==> s.runs[r].pc.Spawned? || s.runs[r].pc.Based?
    ensures StatusInv(t)
  {
    forall q | q in t.runs ensures RunShows(t, q) { assert RunShows(s, q); }
  }

  lemma StepShows(s: System, e: Step)
    requires CountInv(s) && StatusInv(s) && Fresh(s, e) && HasBatches(e)
    ensures StatusInv(Apply(s, e))
  {
    match e
    case StartJob(id, windows) => StartShows(s, id, windows);
    case ResumeJob(id) => ResumeShows(s, id);
    case CancelJob(id) => CancelShows(s, id);
    case Tick(elapsed) => forall r | r in s.runs ensures RunShows(Apply(s, e), r) { assert RunShows(s, r); }
    case ReadBase(r) => if At(s, r, Spawned) { ReadShows(s, r); }
    case MarkRunning(r) => if At(s, r, Based) { MarkShows(s, r); }
    case OpenStaging(r, ok) => if At(s, r, Marked) { PassShows(s, Apply(s, e), r); }
    case BeginBatch(r) => if BeforeBatch(s, r) { PassShows(s, Apply(s, e), r); }
    case RunWindow(r, result) => if InWindow(s, r) { PassShows(s, Apply(s, e), r); }
    case ReportBatch(r) => if r in s.runs && s.runs[r].pc.Stored? { ReportShows(s, r); }
    case Archive(r, ok) => ArchiveShows(s, r, ok);
    case EndRun(r) => if r in s.runs && s.runs[r].pc.Closing? { EndShows(s, r); }
  }

  lemma ArchiveShows(s: System, r: nat, ok: bool)
    requires StatusInv(s)
    ensures StatusInv(Apply(s, Archive(r, ok)))
  {
    if r in s.runs && s.runs[r].pc.Looping? && s.runs[r].pc.next >= s.runs[r].windows {
      PassShows(s, Apply(s, Archive(r, ok)), r);
    }
  }

  /** Over every interleaving with fresh job ids: what the status of a job shows is so. */
  lemma {:induction false} StatusIsRight(maxJobs: nat, retention: int, events: seq<Step>)
    requires FreshTrace(Init(maxJobs, retention), events) && forall e :: e in events ==> HasBatches(e)
    ensures StatusInv(ApplyAll(Init(maxJobs, retention), events))
  {
    if |events| > 0 {
      var before, last := events[..|events| - 1], events[|events| - 1];
      assert last in events;
      StatusIsRight(maxJobs, retention, before);
      TraceKeepsCount(maxJobs, retention, before);
      StepShows(ApplyAll(Init(maxJobs, retention), before), last);
    }
  }

  /** A run that ends leaves its job completed with what it exported, cancelled or failed, as it went,
      unless it is removed at once. */
  lemma EndIsShown(s: System, r: nat)
    requires r in s.runs && s.runs[r].pc.Closing?
    ensures var id := s.runs[r].job;
            id in Apply(s, EndRun(r)).m.jobs ==>
              var j := Apply(s, EndRun(r)).m.jobs[id];
              && j.completedAt == Some(s.now)
              && (match s.runs[r].pc.ending
                  case Done(n) => j.state.Completed? && j.result == Some(n)
                  case Error(canceled) => if canceled then j.state.Canceled? else j.state.Failed?)
  {
  }
}
