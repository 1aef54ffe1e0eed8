/** What the job manager guarantees over whole runs, and what it does not. */
module ExportRunProperties {
  import opened Domain
  import opened AdaptiveExport
  import opened ExportExecution
  import M = ExportJobs
  import opened ExportRuns

  // ---- Guarantees ----

  /** A batch of job `id` is stored but not reported, or its archive is written but the job
      not yet marked. */
  ghost predicate InFlight(s: System, id: string) {
    exists r ::
      && r in s.runs && s.runs[r].job == id
      && (s.runs[r].pc.Stored? || s.runs[r].pc == Closing(M.Done(s.runs[r].exported)))
  }

  /** Unless a batch of unfinished job `id` is in flight, its staging file is the output of
      batches 0 to completedBatches - 1, in order, each once, and metricsProcessed is its line
      count. */
  ghost predicate StagedOnce(s: System, id: string) {
    id in s.m.jobs && !s.m.jobs[id].state.Completed? && !InFlight(s, id) ==>
      && InOrder(HistoryOf(s, id)) && |HistoryOf(s, id)| == s.m.jobs[id].completedBatches <= s.m.jobs[id].windows
      && FileOf(s, id) == RowsOf(HistoryOf(s, id))
      && s.m.jobs[id].metricsProcessed == |FileOf(s, id)|
  }

  lemma InvStages(s: System, id: string)
    requires Inv(s)
    ensures StagedOnce(s, id)
  {
    assert JobInv(s, id);
    if id in M.LiveIds(s.m) {
      var r :| RunsOf(s, id) == {r};
      assert r in RunsOf(s, id);
    }
  }

  /** Over any interleaving of starts, cancels, failures and resumes, staged data survives
      exactly once. */
  lemma StagedExactlyOnce(maxJobs: nat, retention: int, events: seq<Step>, id: string)
    requires SoundTrace(Init(maxJobs, retention), events)
    ensures StagedOnce(ApplyAll(Init(maxJobs, retention), events), id)
  {
    TraceKeeps(maxJobs, retention, events);
    InvStages(ApplyAll(Init(maxJobs, retention), events), id);
  }

  /** If job `id` is completed its archive holds every batch once. The exported count is only
      that of the last run: it is the number of archived lines exactly when that run started
      from nothing, and what earlier runs stored makes up the difference. */
  ghost predicate ArchiveAddsUp(s: System, id: string) {
    id in s.m.jobs && s.m.jobs[id].state.Completed? ==>
      && s.m.jobs[id].result.Some? && id in s.archives
      && InOrder(HistoryOf(s, id)) && |HistoryOf(s, id)| == s.m.jobs[id].windows
      && s.archives[id] == RowsOf(HistoryOf(s, id))
      && s.m.jobs[id].baseMetrics + s.m.jobs[id].result.value == |s.archives[id]| == s.m.jobs[id].metricsProcessed
      && (s.m.jobs[id].result.value == |s.archives[id]| <==> s.m.jobs[id].baseMetrics == 0)
  }

  lemma InvArchives(s: System, id: string)
    requires Inv(s)
    ensures ArchiveAddsUp(s, id)
  {
    assert JobInv(s, id);
  }

  lemma CompletionAddsUp(maxJobs: nat, retention: int, events: seq<Step>, id: string)
    requires SoundTrace(Init(maxJobs, retention), events)
    ensures ArchiveAddsUp(ApplyAll(Init(maxJobs, retention), events), id)
  {
    TraceKeeps(maxJobs, retention, events);
    InvArchives(ApplyAll(Init(maxJobs, retention), events), id);
  }

  // ---- The conditions are needed ----

  /** The events that bring the goroutine of a resumed job to its first batch. */
  function Restart(s: System, id: string): seq<Step> {
    [ResumeJob(id), ReadBase(s.nextRun), MarkRunning(s.nextRun), OpenStaging(s.nextRun, true)]
  }

  lemma ApplyOne(s: System, a: Step)
    ensures ApplyAll(s, [a]) == Apply(s, a)
  {
    assert [a][..0] == [];
  }

  lemma ApplyTwo(s: System, a: Step, b: Step)
    ensures ApplyAll(s, [a, b]) == Apply(Apply(s, a), b)
  {
    assert [a, b][..1] == [a];
    ApplyOne(s, a);
  }

  lemma ApplyThree(s: System, a: Step, b: Step, c: Step)
    ensures ApplyAll(s, [a, b, c]) == Apply(Apply(Apply(s, a), b), c)
  {
    assert [a, b, c][..2] == [a, b];
    ApplyTwo(s, a, b);
  }

  lemma ApplyFour(s: System, a: Step, b: Step, c: Step, d: Step)
    ensures ApplyAll(s, [a, b, c, d]) == Apply(Apply(Apply(Apply(s, a), b), c), d)
  {
    assert [a, b, c, d][..3] == [a, b, c];
    ApplyThree(s, a, b, c);
  }

  /** A resumed job continues with the first batch it has not stored exactly when it has not
      stored them all; otherwise it starts again from batch 0 on the file it kept. */
  lemma ResumeContinuesIff(s: System, id: string)
    requires Inv(s) && M.Resume(s.m, id).1
    ensures var s' := ApplyAll(s, Restart(s, id));
            var done := s.m.jobs[id].completedBatches;
            && s.nextRun in s'.runs && s'.runs[s.nextRun].job == id && s'.runs[s.nextRun].pc.Looping?
            && FileOf(s', id) == RowsOf(HistoryOf(s, id))
            && (s'.runs[s.nextRun].pc.next == done <==> done < s.m.jobs[id].windows)
            && (done == s.m.jobs[id].windows ==> s'.runs[s.nextRun].pc.next == 0)
  {
    var r := s.nextRun;
    assert JobInv(s, id);
    ApplyFour(s, ResumeJob(id), ReadBase(r), MarkRunning(r), OpenStaging(r, true));
    var s1 := Apply(s, ResumeJob(id));
    var done := s.m.jobs[id].completedBatches;
    assert s1.runs[r] == Run(id, s.m.jobs[id].windows, done, 0, 0, Spawned);
    var s2 := Apply(s1, ReadBase(r));
    assert s2.runs[r].pc == Based && s2.runs[r].resumeFrom == done;
    var s3 := Apply(s2, MarkRunning(r));
    assert s3.runs[r].pc == Marked;
    var s4 := Apply(s3, OpenStaging(r, true));
    assert FileOf(s4, id) == if done > 0 then FileOf(s, id) else [];
    assert done == 0 ==> RowsOf(HistoryOf(s, id)) == [];
  }

  const ROW: Row := Row("job", "line")

  /** Goroutine `r` up to its first batch, through the one batch, and to its end. */
  function Opening(r: nat): seq<Step> { [ReadBase(r), MarkRunning(r), OpenStaging(r, true)] }

  /** One batch that keeps `rows`. */
  function Batched(r: nat, rows: seq<Row>): seq<Step> { [BeginBatch(r), RunWindow(r, Kept(rows)), ReportBatch(r)] }

  function Storing(r: nat): seq<Step> { Batched(r, [ROW]) }

  function EndingAs(r: nat, ok: bool): seq<Step> { [Archive(r, ok), EndRun(r)] }

  /** One batch, stored; the archive fails; the job is resumed and stores the batch again. */
  const REPLAY: seq<Step> :=
    [StartJob("j", 1)] + (Opening(0) + Storing(0) + EndingAs(0, false)) +
    [ResumeJob("j")] + (Opening(1) + Storing(1) + EndingAs(1, true))

  /** Job "j" is the only one and `r` its only goroutine. */
  ghost predicate Solo(s: System, r: nat, resumeFrom: nat, done: nat, pc: Pc) {
    && s.m.jobs.Keys == {"j"} && s.m.active == 1 && s.m.maxJobs == 3 && s.m.retention == 0 && s.now == 0
    && s.m.jobs["j"].windows == 1 && s.m.jobs["j"].completedBatches == done
    && s.m.jobs["j"].resumeFrom == resumeFrom && s.m.jobs["j"].Live() && !s.m.jobs["j"].canceled
    && s.runs.Keys == {r} && s.nextRun == r + 1
    && s.runs[r].job == "j" && s.runs[r].windows == 1 && s.runs[r].resumeFrom == resumeFrom && s.runs[r].pc == pc
  }

  lemma SoloOpens(s: System, r: nat, n: nat, done: nat)
    requires Solo(s, r, n, done, Spawned) && n <= 1
    ensures var s' := ApplyAll(s, Opening(r));
            Solo(s', r, n, done, Looping(0)) && FileOf(s', "j") == if n > 0 then FileOf(s, "j") else []
  {
    ApplyThree(s, ReadBase(r), MarkRunning(r), OpenStaging(r, true));
    var s1 := Apply(s, ReadBase(r));
    assert Solo(s1, r, n, done, Based) && s1.files == s.files;
    var s2 := Apply(s1, MarkRunning(r));
    assert Solo(s2, r, n, done, Marked) && s2.files == s.files;
  }

  lemma SoloBegins(s: System, r: nat, n: nat, done: nat)
    requires Solo(s, r, n, done, Looping(0))
    ensures var s' := Apply(s, BeginBatch(r)); Solo(s', r, n, done, Working(0)) && FileOf(s', "j") == FileOf(s, "j")
  {
  }

  lemma SoloWindow(s: System, r: nat, n: nat, done: nat)
    requires Solo(s, r, n, done, Working(0))
    ensures var s' := Apply(s, RunWindow(r, Kept([ROW])));
            Solo(s', r, n, done, Stored(0, [ROW])) && FileOf(s', "j") == FileOf(s, "j") + [ROW]
  {
  }

  lemma SoloReport(s: System, r: nat, n: nat, done: nat)
    requires Solo(s, r, n, done, Stored(0, [ROW])) && done <= 1
    ensures var s' := Apply(s, ReportBatch(r)); Solo(s', r, n, 1, Looping(1)) && FileOf(s', "j") == FileOf(s, "j")
  {
  }

  lemma SoloStores(s: System, r: nat, n: nat, done: nat)
    requires Solo(s, r, n, done, Looping(0)) && done <= 1
    ensures var s' := ApplyAll(s, Storing(r));
            Solo(s', r, n, 1, Looping(1)) && FileOf(s', "j") == FileOf(s, "j") + [ROW]
  {
    ApplyThree(s, BeginBatch(r), RunWindow(r, Kept([ROW])), ReportBatch(r));
    SoloBegins(s, r, n, done);
    var s1 := Apply(s, BeginBatch(r));
    SoloWindow(s1, r, n, done);
    SoloReport(Apply(s1, RunWindow(r, Kept([ROW]))), r, n, done);
  }

  /** Job "j" has failed with its one batch stored, and its goroutine `r` is gone. */
  ghost predicate OneStored(s: System, r: nat) {
    && s.m.jobs.Keys == {"j"} && s.m.active == 0 && s.m.maxJobs == 3 && s.m.retention == 0 && s.now == 0
    && s.m.jobs["j"].state == M.Failed && s.m.jobs["j"].windows == 1 && s.m.jobs["j"].completedBatches == 1
    && s.runs == map[] && s.nextRun == r + 1
  }

  lemma SoloEnds(s: System, r: nat, n: nat, ok: bool)
    requires Solo(s, r, n, 1, Looping(1))
    ensures var s' := ApplyAll(s, EndingAs(r, ok));
            && (ok ==> "j" in s'.archives && s'.archives["j"] == FileOf(s, "j"))
            && (!ok ==> OneStored(s', r) && FileOf(s', "j") == FileOf(s, "j"))
  {
    ApplyTwo(s, Archive(r, ok), EndRun(r));
    var s1 := Apply(s, Archive(r, ok));
    assert s1.m == s.m && s1.runs.Keys == {r} && s1.runs[r].job == "j" && s1.runs[r].pc.Closing?;
  }

  lemma SoloRuns(s: System, r: nat, n: nat, done: nat, ok: bool)
    requires Solo(s, r, n, done, Spawned) && n <= 1 && done <= 1
    ensures var s' := ApplyAll(s, Opening(r) + Storing(r) + EndingAs(r, ok));
            var file := (if n > 0 then FileOf(s, "j") else []) + [ROW];
            && (ok ==> "j" in s'.archives && s'.archives["j"] == file)
            && (!ok ==> OneStored(s', r) && FileOf(s', "j") == file)
  {
    ApplyAllAppend(s, Opening(r) + Storing(r), EndingAs(r, ok));
    ApplyAllAppend(s, Opening(r), Storing(r));
    SoloOpens(s, r, n, done);
    var s1 := ApplyAll(s, Opening(r));
    SoloStores(s1, r, n, done);
    SoloEnds(ApplyAll(s1, Storing(r)), r, n, ok);
  }

  /** Resuming a job whose batches were all stored archives its rows twice. */
  lemma ReplayDuplicatesRows()
    ensures var s := ApplyAll(Init(3, 0), REPLAY);
            "j" in s.archives && s.archives["j"] == [ROW, ROW]
  {
    var first, second := Opening(0) + Storing(0) + EndingAs(0, false), Opening(1) + Storing(1) + EndingAs(1, true);
    var s := Init(3, 0);
    ApplyAllAppend(s, [StartJob("j", 1)] + first + [ResumeJob("j")], second);
    ApplyAllAppend(s, [StartJob("j", 1)] + first, [ResumeJob("j")]);
    ApplyAllAppend(s, [StartJob("j", 1)], first);
    ApplyOne(s, StartJob("j", 1));
    var s1 := Apply(s, StartJob("j", 1));
    assert s1.m.jobs == map["j" := M.NewJob(1)];
    SoloRuns(s1, 0, 0, 0, false);
    var s2 := ApplyAll(s1, first);
    ApplyOne(s2, ResumeJob("j"));
    SoloRuns(Apply(s2, ResumeJob("j")), 1, 1, 1, true);
    assert [] + [ROW] + [ROW] == [ROW, ROW];
  }

  lemma {:induction false} ApplyAllAppend(s: System, x: seq<Step>, y: seq<Step>)
    ensures ApplyAll(s, x + y) == ApplyAll(ApplyAll(s, x), y)
    decreases |y|
  {
    if |y| == 0 {
      assert x + y == x;
    } else {
      var before, last := y[..|y| - 1], y[|y| - 1];
      assert (x + y)[..|x + y| - 1] == x + before && (x + y)[|x + y| - 1] == last;
      ApplyAllAppend(s, x, before);
      assert ApplyAll(s, x + y) == Apply(ApplyAll(s, x + before), last);
    }
  }

  /** A window that fails in the engine leaves the staging file as the reported batches made it
      exactly if its own append to that file did not tear; tears in the files below do no harm. */
  lemma TornAppendShows(s: System, r: nat, c: ExportConfig, env: Env, window: TimeRange, t: nat)
    requires Inv(s) && InWindow(s, r)
    requires !RunBatch(c, env, window, t).Ok()
    ensures var o := RunBatch(c, env, window, t);
            var s' := Apply(s, RunWindow(r, Lost(o.added, o.error.value.canceled)));
            FileOf(s', s.runs[r].job) == RowsOf(HistoryOf(s', s.runs[r].job)) <==> !BatchTear(c, env, window, t)
  {
    OnlyRun(s, r);
    BatchAllOrNothing(c, env, window, t);
    var file, residue := FileOf(s, s.runs[r].job), RunBatch(c, env, window, t).added;
    assert |file + residue| == |file| + |residue|;
    if residue == [] { assert file + residue == file; }
  }
}
