/** What cancelling an export job promises over whole runs. */
module ExportCancels {
  import M = ExportJobs
  import opened ExportRuns
  import opened ExportRunCounts

  /** Every live job has its cancel function. */
  ghost predicate AllCancelable(m: M.Manager) { forall id :: id in M.LiveIds(m) ==> m.jobs[id].cancelable }

  lemma StartKeepsCancelable(m: M.Manager, id: string, windows: nat, now: int)
    requires AllCancelable(m)
    ensures AllCancelable(M.Start(m, id, windows, now).0)
  {
  }

  lemma MarkKeepsCancelable(s: System, r: nat)
    requires CountInv(s) && AllCancelable(s.m) && At(s, r, Based)
    ensures AllCancelable(Apply(s, MarkRunning(r)).m)
  {
    OnlyRunOfLiveJob(s, r);
  }

  lemma ReportKeepsCancelable(s: System, r: nat)
    requires AllCancelable(s.m)
    ensures AllCancelable(Apply(s, ReportBatch(r)).m)
  {
  }

  lemma EndKeepsCancelable(m: M.Manager, id: string, e: M.Ending, now: int)
    requires AllCancelable(m)
    ensures AllCancelable(M.Finished(m, id, e, now))
  {
  }

  lemma StepKeepsCancelable(s: System, e: Step)
    requires CountInv(s) && AllCancelable(s.m)
    ensures AllCancelable(Apply(s, e).m)
  {
    match e
    case StartJob(id, windows) => StartKeepsCancelable(s.m, id, windows, s.now);
    case ResumeJob(id) =>
    case CancelJob(id) =>
    case MarkRunning(r) => if At(s, r, Based) { MarkKeepsCancelable(s, r); }
    case ReportBatch(r) => ReportKeepsCancelable(s, r);
    case EndRun(r) =>
      if r in s.runs && s.runs[r].pc.Closing? { EndKeepsCancelable(s.m, s.runs[r].job, s.runs[r].pc.ending, s.now); }
    case _ => QuietStepIsQuiet(s, e);
  }

  lemma {:induction false} TraceKeepsCancelable(maxJobs: nat, retention: int, events: seq<Step>)
    requires FreshTrace(Init(maxJobs, retention), events)
    ensures AllCancelable(ApplyAll(Init(maxJobs, retention), events).m)
  {
    if |events| > 0 {
      var before := events[..|events| - 1];
      TraceKeepsCancelable(maxJobs, retention, before);
      TraceKeepsCount(maxJobs, retention, before);
      StepKeepsCancelable(ApplyAll(Init(maxJobs, retention), before), events[|events| - 1]);
    }
  }

  // ---- After a cancel ----

  /** Whatever goroutine job `id` has, its context is cancelled. */
  ghost predicate Halted(s: System, id: string) {
    id in s.history && forall r :: r in RunsOf(s, id) ==> ContextCanceled(s, id)
  }

  /** Goroutine `r` is past the context check of a batch it has not reported. */
  predicate Busy(s: System, r: nat) { r in s.runs && (s.runs[r].pc.Working? || s.runs[r].pc.Stored?) }

  ghost predicate InBatch(s: System, id: string) { exists r :: r in RunsOf(s, id) && Busy(s, r) }

  ghost function Pending(s: System, id: string): nat { if InBatch(s, id) then 1 else 0 }

  /** From `s` to `s'` job `id` has stored no more than the batch that was in flight. */
  ghost predicate StoresNoMore(s: System, s': System, id: string) {
    && HistoryOf(s, id) <= HistoryOf(s', id)
    && |HistoryOf(s', id)| + Pending(s', id) <= |HistoryOf(s, id)| + Pending(s, id)
  }

  /** No goroutine of job `id` is new or has begun a batch, and a cancelled one stays so. */
  ghost predicate BeginsNone(s: System, s': System, id: string) {
    && HistoryOf(s', id) == HistoryOf(s, id) && (id in s.history ==> id in s'.history)
    && RunsOf(s', id) <= RunsOf(s, id)
    && (forall r :: r in RunsOf(s', id) && Busy(s', r) ==> Busy(s, r))
    && (RunsOf(s', id) != {} && ContextCanceled(s, id) ==> ContextCanceled(s', id))
  }

  lemma BeginsNoneHalts(s: System, s': System, id: string)
    requires Halted(s, id) && BeginsNone(s, s', id)
    ensures Halted(s', id) && StoresNoMore(s, s', id)
  {
  }

  lemma StartElsewhere(s: System, i: string, windows: nat, id: string)
    requires CountInv(s) && i != id
    ensures BeginsNone(s, Apply(s, StartJob(i, windows)), id)
  {
    M.CleanupKeepsLive(s.m, s.now);
    NextRunIsNew(s);
    assert RunsInv(s, id);
  }

  lemma ResumeElsewhere(s: System, i: string, id: string)
    requires CountInv(s) && i != id
    ensures BeginsNone(s, Apply(s, ResumeJob(i)), id)
  {
    NextRunIsNew(s);
  }

  lemma MoveBeginsNone(s: System, e: Step, id: string)
    requires e.CancelJob? || e.Tick? || e.ReadBase? || e.MarkRunning?
    ensures BeginsNone(s, Apply(s, e), id)
  {
  }

  lemma OpeningBeginsNone(s: System, r: nat, ok: bool, id: string)
    ensures BeginsNone(s, Apply(s, OpenStaging(r, ok)), id)
  {
  }

  lemma ArchiveBeginsNone(s: System, r: nat, ok: bool, id: string)
    ensures BeginsNone(s, Apply(s, Archive(r, ok)), id)
  {
  }

  lemma CheckBeginsNone(s: System, r: nat, id: string)
    requires Halted(s, id)
    ensures BeginsNone(s, Apply(s, BeginBatch(r)), id)
  {
  }

  lemma WindowBeginsNone(s: System, r: nat, result: WindowResult, id: string)
    ensures BeginsNone(s, Apply(s, RunWindow(r, result)), id)
  {
  }

  lemma EndBeginsNone(s: System, r: nat, id: string)
    requires CountInv(s)
    ensures BeginsNone(s, Apply(s, EndRun(r)), id)
  {
    if r in s.runs && s.runs[r].pc.Closing? {
      OnlyRunOfLiveJob(s, r);
      assert RunsInv(s, id);
    }
  }

  lemma ReportStoresNoMore(s: System, r: nat, id: string)
    requires CountInv(s) && Halted(s, id)
    ensures Halted(Apply(s, ReportBatch(r)), id) && StoresNoMore(s, Apply(s, ReportBatch(r)), id)
  {
    if r in s.runs && s.runs[r].pc.Stored? && s.runs[r].job == id {
      OnlyRunOfLiveJob(s, r);
      assert Busy(s, r) && r in RunsOf(s, id);
      assert RunsOf(Apply(s, ReportBatch(r)), id) == {r};
    } else {
      BeginsNoneHalts(s, Apply(s, ReportBatch(r)), id);
    }
  }

  /** No step but a resume starts anything for a halted job or lets it begin another batch. */
  lemma HaltedStep(s: System, e: Step, id: string)
    requires CountInv(s) && Fresh(s, e) && Halted(s, id) && e != ResumeJob(id)
    ensures Halted(Apply(s, e), id) && StoresNoMore(s, Apply(s, e), id)
  {
    if e.ReportBatch? {
      ReportStoresNoMore(s, e.run, id);
    } else {
      match e {
        case StartJob(i, windows) => StartElsewhere(s, i, windows, id);
        case ResumeJob(i) => ResumeElsewhere(s, i, id);
        case BeginBatch(r) => CheckBeginsNone(s, r, id);
        case RunWindow(r, result) => WindowBeginsNone(s, r, result, id);
        case OpenStaging(r, ok) => OpeningBeginsNone(s, r, ok, id);
        case Archive(r, ok) => ArchiveBeginsNone(s, r, ok, id);
        case EndRun(r) => EndBeginsNone(s, r, id);
        case _ => MoveBeginsNone(s, e, id);
      }
      BeginsNoneHalts(s, Apply(s, e), id);
    }
  }

  lemma {:induction false} HaltedStoresNoMore(s: System, events: seq<Step>, id: string)
    requires CountInv(s) && Halted(s, id) && FreshTrace(s, events) && ResumeJob(id) !in events
    ensures CountInv(ApplyAll(s, events)) && Halted(ApplyAll(s, events), id) && StoresNoMore(s, ApplyAll(s, events), id)
  {
    if |events| > 0 {
      var before, last := events[..|events| - 1], events[|events| - 1];
      HaltedStoresNoMore(s, before, id);
      assert last in events;
      StepKeepsCount(ApplyAll(s, before), last);
      HaltedStep(ApplyAll(s, before), last, id);
    }
  }

  /** Cancelling a live job is accepted, and whatever happens afterwards, until it is resumed it
      stores no batch but the one whose context check had already passed. */
  lemma CancelStopsJob(maxJobs: nat, retention: int, before: seq<Step>, id: string, after: seq<Step>)
    requires FreshTrace(Init(maxJobs, retention), before)
             && id in M.LiveIds(ApplyAll(Init(maxJobs, retention), before).m)
    requires var s := Apply(ApplyAll(Init(maxJobs, retention), before), CancelJob(id));
             FreshTrace(s, after) && ResumeJob(id) !in after
    ensures var s := ApplyAll(Init(maxJobs, retention), before);
            var s' := ApplyAll(Apply(s, CancelJob(id)), after);
            && HistoryOf(s, id) <= HistoryOf(s', id)
            && |HistoryOf(s', id)| <= |HistoryOf(s, id)| + if InBatch(s, id) then 1 else 0
  {
    var s := ApplyAll(Init(maxJobs, retention), before);
    TraceKeepsCount(maxJobs, retention, before);
    TraceKeepsCancelable(maxJobs, retention, before);
    CancelHalts(s, id);
    HaltedStoresNoMore(Apply(s, CancelJob(id)), after, id);
  }

  lemma CancelHalts(s: System, id: string)
    requires CountInv(s) && AllCancelable(s.m) && id in M.LiveIds(s.m)
    ensures var s' := Apply(s, CancelJob(id));
            && CountInv(s') && Halted(s', id) && HistoryOf(s', id) == HistoryOf(s, id)
            && (InBatch(s', id) <==> InBatch(s, id))
  {
    StepKeepsCount(s, CancelJob(id));
    assert RunsInv(s, id);
    assert RunsOf(Apply(s, CancelJob(id)), id) == RunsOf(s, id);
  }
}
