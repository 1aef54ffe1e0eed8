/** Import jobs of internal/importer/server/server.go (handleUpload, handleResume,
    runImportJob) as a state machine: every section under the lock is one step, and the
    goroutines of different jobs interleave freely. */
module ImportJobs {
  import opened Domain
  import opened ImportLines
  import opened BundleScanner
  import opened BundleStream

  type Path = nat

  /** An uploaded or extracted file: lines of text, or an archive with or without metrics. */
  datatype File = Plain(text: string) | Zip(entry: Option<string>)

  datatype JobState = Queued | Running | Completed | Failed

  datatype ImportJob = ImportJob(state: JobState, bundlePath: Option<Path>, resumeOffset: nat, resumeReady: bool)

  /** What does not change over the life of a job. `text` is the metrics file of its bundle. */
  datatype Config = Config(codec: Codec, settings: Settings, text: Option<string>) {
    function ToProcess(): string -> Effect { Process(codec, settings) }
  }

  /** Where a goroutine is in runImportJob; `Leaving` is about to run its deferred removals. */
  datatype Phase = Spawned | Begun | Streaming(metrics: Path) | Leaving(remove: set<Path>)

  datatype Runner = Runner(job: string, temp: Path, start: nat, phase: Phase)

  /** `owner` names the job a file was made for; `sent` is what the remote has accepted. */
  datatype System = System(
    jobs: map<string, ImportJob>,
    configs: map<string, Config>,
    files: map<Path, File>,
    owner: map<Path, string>,
    nextPath: Path,
    runners: map<nat, Runner>,
    nextRunner: nat,
    sent: map<string, string>)

  datatype Step =
    | Upload(id: string, file: File, codec: Codec, settings: Settings)
    | Resume(id: string)
    | Begin(runner: nat)
    | Prepare(runner: nat, ok: bool)
    | Send(runner: nat, post: nat -> bool)
    | Leave(runner: nat)

  const INIT: System := System(map[], map[], map[], map[], 0, map[], 0, map[])

  function TextOfFile(f: File): Option<string> { if f.Plain? then Some(f.text) else f.entry }

  function Spawn(s: System, r: Runner): System {
    s.(runners := s.runners[s.nextRunner := r], nextRunner := s.nextRunner + 1)
  }

  predicate At(s: System, r: nat, phase: Phase) { r in s.runners && s.runners[r].phase == phase }

  function WithPhase(s: System, r: nat, phase: Phase): System
    requires r in s.runners
  {
    s.(runners := s.runners[r := s.runners[r].(phase := phase)])
  }

  function WithJob(s: System, id: string, j: ImportJob): System { s.(jobs := s.jobs[id := j]) }

  function Uploaded(s: System, id: string, file: File, codec: Codec, settings: Settings): System {
    Spawn(s.(files := s.files[s.nextPath := file], owner := s.owner[s.nextPath := id], nextPath := s.nextPath + 1,
             configs := s.configs[id := Config(codec, settings, TextOfFile(file))],
             sent := s.sent[id := ""], jobs := s.jobs[id := ImportJob(Queued, None, 0, false)]),
          Runner(id, s.nextPath, 0, Spawned))
  }

  function Resumable(s: System, id: string): bool {
    id in s.jobs && s.jobs[id].resumeReady && s.jobs[id].bundlePath.Some?
  }

  function Requeued(s: System, id: string): System
    requires Resumable(s, id)
  {
    var j := s.jobs[id];
    Spawn(WithJob(s, id, j.(state := Queued, resumeReady := false)),
          Runner(id, j.bundlePath.value, j.resumeOffset, Spawned))
  }

  function HasBegun(s: System, r: nat): System
    requires r in s.runners && s.runners[r].job in s.jobs
  {
    var run := s.runners[r];
    WithPhase(WithJob(s, run.job, ImportJob(Running, Some(run.temp), run.start, false)), r, Begun)
  }

  /** prepareBundle: an archive is extracted into a new file, any other file is used as it is. */
  function HasPrepared(s: System, r: nat, ok: bool): System
    requires r in s.runners && s.runners[r].job in s.jobs
  {
    var run := s.runners[r];
    var j := s.jobs[run.job];
    if !ok || run.temp !in s.files || TextOfFile(s.files[run.temp]).None? then
      WithPhase(WithJob(s, run.job, j.(state := Failed)), r, Leaving({run.temp}))
    else if s.files[run.temp].Plain? then
      WithPhase(WithJob(s, run.job, j.(bundlePath := Some(run.temp))), r, Streaming(run.temp))
    else Extracted(s, r, TextOfFile(s.files[run.temp]).value)
  }

  function Extracted(s: System, r: nat, text: string): System
    requires r in s.runners && s.runners[r].job in s.jobs
  {
    var path, id := s.nextPath, s.runners[r].job;
    WithPhase(WithJob(s, id, s.jobs[id].(bundlePath := Some(path))), r, Streaming(path)).(
      files := s.files[path := Plain(text)], owner := s.owner[path := id], nextPath := path + 1)
  }

  function SentOf(s: System, id: string): string { if id in s.sent then s.sent[id] else "" }

  /** streamImport, and the update of the job that follows it. */
  function HasStreamed(s: System, r: nat, metrics: Path, f: Finish): System
    requires r in s.runners && s.runners[r].job in s.jobs
  {
    var run := s.runners[r];
    var t := s.(sent := s.sent[run.job := SentOf(s, run.job) + Flatten(f.stream.bodies)]);
    if f.ok then
      WithPhase(WithJob(t, run.job, ImportJob(Completed, None, 0, false)), r, Leaving({metrics, run.temp}))
    else
      WithJob(t, run.job, s.jobs[run.job].(state := Failed, resumeOffset := f.stream.committed, resumeReady := true)).(
        runners := s.runners - {r})
  }

  /** streamImport cannot start on a file that is gone. */
  function StreamOf(s: System, run: Runner, metrics: Path, post: nat -> bool): Finish {
    if metrics !in s.files || !s.files[metrics].Plain? || run.job !in s.configs then Finish(Opened(run.start), false)
    else
      var c := s.configs[run.job];
      Import(Session(c.ToProcess(), c.settings.maxChunk, post), s.files[metrics].text, run.start)
  }

  function Apply(s: System, e: Step): System {
    match e
    case Upload(id, file, codec, settings) => Uploaded(s, id, file, codec, settings)
    case Resume(id) => if Resumable(s, id) then Requeued(s, id) else s
    case Begin(r) => if At(s, r, Spawned) && s.runners[r].job in s.jobs then HasBegun(s, r) else s
    case Prepare(r, ok) => if At(s, r, Begun) && s.runners[r].job in s.jobs then HasPrepared(s, r, ok) else s
    case Send(r, post) =>
      if r !in s.runners || !s.runners[r].phase.Streaming? || s.runners[r].job !in s.jobs then s
      else
        var metrics := s.runners[r].phase.metrics;
        HasStreamed(s, r, metrics, StreamOf(s, s.runners[r], metrics, post))
    case Leave(r) =>
      if r !in s.runners || !s.runners[r].phase.Leaving? then s
      else s.(files := s.files - s.runners[r].phase.remove, runners := s.runners - {r})
  }

  function ApplyAll(s: System, steps: seq<Step>): System {
    if |steps| == 0 then s else Apply(ApplyAll(s, steps[..|steps| - 1]), steps[|steps| - 1])
  }

  // ---- What is kept over every run ----

  function RunnersOf(s: System, id: string): set<nat> { set r | r in s.runners && s.runners[r].job == id }

  ghost predicate Owns(s: System, id: string, p: Path) { p in s.owner && s.owner[p] == id && p < s.nextPath }

  function FileAt(s: System, p: Path): Option<File> { if p in s.files then Some(s.files[p]) else None }

  /** A file from which the bundle's text can be read, at once or after extracting it. */
  predicate Readable(f: Option<File>, c: Config) { f.Some? && TextOfFile(f.value) == c.text }

  /** The metrics file of the bundle is there. */
  predicate IsBundle(f: Option<File>, c: Config) { f.Some? && f.value.Plain? && c.text == Some(f.value.text) }

  /** A goroutine against its job, the file it was given and the one it streams. */
  ghost predicate RunnerFits(run: Runner, j: ImportJob, c: Config, temp: Option<File>, metrics: Option<File>) {
    && !j.resumeReady
    && (run.phase.Leaving? || run.start == j.resumeOffset)
    && match run.phase
       case Spawned => j.state.Queued? && Readable(temp, c)
       case Begun => j.state.Running? && Readable(temp, c)
       case Streaming(p) => j.state.Running? && j.bundlePath == Some(p) && IsBundle(metrics, c)
       case Leaving(_) => j.state.Completed? || j.state.Failed?
  }

  function MetricsOf(run: Runner): Path { if run.phase.Streaming? then run.phase.metrics else run.temp }

  /** The files a goroutine may remove. */
  function PathsOf(run: Runner): set<Path> {
    match run.phase
    case Streaming(p) => {run.temp, p}
    case Leaving(remove) => {run.temp} + remove
    case _ => {run.temp}
  }

  ghost predicate OwnsAll(s: System, id: string, paths: set<Path>) { forall p :: p in paths ==> Owns(s, id, p) }

  ghost predicate Fits(s: System, run: Runner) {
    && run.job in s.jobs && run.job in s.configs && OwnsAll(s, run.job, PathsOf(run))
    && RunnerFits(run, s.jobs[run.job], s.configs[run.job], FileAt(s, run.temp), FileAt(s, MetricsOf(run)))
  }

  /** If no line of the bundle, except perhaps the last, ends in a carriage return: when `done`,
      what the bundle encodes to was sent; else what was sent and what a resume from `offset`
      would send make that up, and `offset` is a line boundary. */
  ghost predicate Accounted(done: bool, offset: nat, c: Config, sent: string) {
    c.text.Some? && PlainBeforeLast(ScanFrom(c.text.value, 0)) ==>
      && Exact(c.ToProcess(), c.text.value, History(sent, offset, done))
      && (!done ==> PlainBeforeLast(ScanFrom(c.text.value, offset)))
  }

  ghost predicate JobFits(s: System, id: string)
    requires id in s.jobs
  {
    var j := s.jobs[id];
    && id in s.configs
    && Accounted(j.state.Completed?, j.resumeOffset, s.configs[id], SentOf(s, id))
    && (j.resumeReady ==>
          && RunnersOf(s, id) == {} && j.state.Failed? && j.bundlePath.Some?
          && Owns(s, id, j.bundlePath.value) && IsBundle(FileAt(s, j.bundlePath.value), s.configs[id]))
  }

  ghost predicate JobInv(s: System, id: string) {
    && (forall r :: r in RunnersOf(s, id) ==> r < s.nextRunner && Fits(s, s.runners[r]))
    && (forall q, r :: q in RunnersOf(s, id) && r in RunnersOf(s, id) ==> q == r)
    && (id in s.jobs ==> JobFits(s, id))
  }

  ghost predicate Inv(s: System) { forall id :: JobInv(s, id) }

  /** A job id, made from the clock, is used once. */
  ghost predicate Fresh(s: System, e: Step) { e.Upload? ==> e.id !in s.jobs }

  ghost predicate FreshTrace(steps: seq<Step>) {
    |steps| == 0 ||
    (FreshTrace(steps[..|steps| - 1]) && Fresh(ApplyAll(INIT, steps[..|steps| - 1]), steps[|steps| - 1]))
  }

  /** The job, its files and what was sent for it are the same in `s` and `s'`. */
  ghost predicate SameExceptRunners(s: System, s': System, id: string) {
    && (id in s'.jobs <==> id in s.jobs) && (id in s.jobs ==> s'.jobs[id] == s.jobs[id])
    && (id in s.configs ==> id in s'.configs && s'.configs[id] == s.configs[id])
    && SentOf(s', id) == SentOf(s, id)
    && (forall p :: Owns(s, id, p) ==> Owns(s', id, p) && FileAt(s', p) == FileAt(s, p))
  }

  /** Nothing that belongs to job `id` differs between `s` and `s'`. */
  ghost predicate SameJob(s: System, s': System, id: string) {
    && SameExceptRunners(s, s', id)
    && (forall r :: r in s'.runners && s'.runners[r].job == id ==> r in s.runners && s.runners[r] == s'.runners[r])
    && (forall r :: r in s.runners && s.runners[r].job == id ==> r in s'.runners && s'.runners[r].job == id)
    && s.nextRunner <= s'.nextRunner
  }

  lemma OtherJobKept(s: System, s': System, id: string)
    requires JobInv(s, id) && SameJob(s, s', id)
    ensures JobInv(s', id)
  {
    assert RunnersOf(s', id) == RunnersOf(s, id);
    forall r | r in RunnersOf(s', id) ensures Fits(s', s'.runners[r]) {
      var run := s.runners[r];
      assert Owns(s, id, run.temp) && Owns(s, id, MetricsOf(run));
    }
  }

  lemma OneJobChanged(s: System, s': System, id: string)
    requires Inv(s) && JobInv(s', id) && forall i :: i != id ==> SameJob(s, s', i)
    ensures Inv(s')
  {
    forall i ensures JobInv(s', i) {
      if i != id { OtherJobKept(s, s', i); }
    }
  }

  /** The only goroutine of its job. */
  lemma OnlyRunner(s: System, r: nat)
    requires Inv(s) && r in s.runners
    ensures var id := s.runners[r].job;
            RunnersOf(s, id) == {r} && Fits(s, s.runners[r]) && JobFits(s, id) && r < s.nextRunner
  {
    var id := s.runners[r].job;
    assert JobInv(s, id) && r in RunnersOf(s, id);
  }

  lemma NoRunner(s: System, id: string)
    requires Inv(s) && (id !in s.jobs || s.jobs[id].resumeReady)
    ensures forall r :: r in s.runners ==> s.runners[r].job != id
  {
    assert JobInv(s, id);
    forall r | r in s.runners ensures s.runners[r].job != id {
      if s.runners[r].job == id { OnlyRunner(s, r); }
    }
  }

  /** A goroutine has been started for job `id`, which has no other; new files may have been
      made for the job. */
  lemma JobSpawned(s: System, s': System, id: string)
    requires Inv(s) && (forall r :: r in s.runners ==> s.runners[r].job != id)
    requires s.nextRunner in s'.runners && s'.nextRunner == s.nextRunner + 1
    requires var run := s'.runners[s.nextRunner];
             run.job == id && Fits(s', run) && s'.runners == s.runners[s.nextRunner := run]
    requires id in s'.jobs && JobFits(s', id) && !s'.jobs[id].resumeReady
    requires forall i :: i != id ==> SameExceptRunners(s, s', i)
    ensures Inv(s')
  {
    assert RunnersOf(s', id) == {s.nextRunner};
    forall i | i != id ensures SameJob(s, s', i) {
      assert SameExceptRunners(s, s', i);
      forall r | r in s.runners && s.runners[r].job == i ensures r in s'.runners && s'.runners[r].job == i {
        OnlyRunner(s, r);
      }
    }
    OneJobChanged(s, s', id);
  }

  /** One goroutine has moved, and only its job has changed. */
  lemma RunnerMoved(s: System, s': System, r: nat)
    requires Inv(s) && r in s.runners && r in s'.runners && s'.runners[r].job == s.runners[r].job
    requires s'.runners == s.runners[r := s'.runners[r]] && s'.nextRunner == s.nextRunner
    requires Fits(s', s'.runners[r]) && JobFits(s', s.runners[r].job) && !s'.jobs[s.runners[r].job].resumeReady
    requires forall i :: i != s.runners[r].job ==> SameExceptRunners(s, s', i)
    ensures Inv(s')
  {
    OnlyRunner(s, r);
    var id := s.runners[r].job;
    assert RunnersOf(s', id) == {r} by {
      assert forall q :: q in s.runners && s.runners[q].job == id ==> q in RunnersOf(s, id);
    }
    OneJobChanged(s, s', id);
  }

  /** One goroutine has ended, and only its job has changed. */
  lemma RunnerGone(s: System, s': System, r: nat)
    requires Inv(s) && r in s.runners && s'.runners == s.runners - {r} && s'.nextRunner == s.nextRunner
    requires s.runners[r].job in s'.jobs
    requires RunnersOf(s', s.runners[r].job) == {} ==> JobFits(s', s.runners[r].job)
    requires forall i :: i != s.runners[r].job ==> SameExceptRunners(s, s', i)
    ensures Inv(s')
  {
    OnlyRunner(s, r);
    var id := s.runners[r].job;
    assert RunnersOf(s', id) == {} by {
      assert forall q :: q in s.runners && s.runners[q].job == id ==> q in RunnersOf(s, id);
    }
    OneJobChanged(s, s', id);
  }

  lemma UploadKeeps(s: System, id: string, file: File, codec: Codec, settings: Settings)
    requires Inv(s) && id !in s.jobs
    ensures Inv(Uploaded(s, id, file, codec, settings))
  {
    NoRunner(s, id);
    NothingSent(Config(codec, settings, TextOfFile(file)));
    JobSpawned(s, Uploaded(s, id, file, codec, settings), id);
  }

  lemma NothingSent(c: Config)
    ensures Accounted(false, 0, c, "")
  {
    if c.text.Some? { assert "" + Wanted(c.ToProcess(), c.text.value, 0) == Wanted(c.ToProcess(), c.text.value, 0); }
  }

  lemma ResumeKeeps(s: System, id: string)
    requires Inv(s) && Resumable(s, id)
    ensures Inv(Requeued(s, id))
  {
    assert JobInv(s, id);
    NoRunner(s, id);
    JobSpawned(s, Requeued(s, id), id);
  }

  lemma BeginKeeps(s: System, r: nat)
    requires Inv(s) && At(s, r, Spawned)
    ensures s.runners[r].job in s.jobs && Inv(HasBegun(s, r))
  {
    OnlyRunner(s, r);
    RunnerMoved(s, HasBegun(s, r), r);
  }

  lemma ExtractKeeps(s: System, r: nat, text: string)
    requires Inv(s) && At(s, r, Begun) && s.runners[r].job in s.jobs && s.runners[r].job in s.configs
    requires s.configs[s.runners[r].job].text == Some(text)
    ensures Inv(Extracted(s, r, text))
  {
    OnlyRunner(s, r);
    RunnerMoved(s, Extracted(s, r, text), r);
  }

  lemma PrepareKeeps(s: System, r: nat, ok: bool)
    requires Inv(s) && At(s, r, Begun)
    ensures s.runners[r].job in s.jobs && Inv(HasPrepared(s, r, ok))
  {
    OnlyRunner(s, r);
    var file := FileAt(s, s.runners[r].temp);
    if ok && file.Some? && TextOfFile(file.value).Some? && file.value.Zip? {
      ExtractKeeps(s, r, TextOfFile(file.value).value);
    } else {
      RunnerMoved(s, HasPrepared(s, r, ok), r);
    }
  }

  lemma SendKeeps(s: System, r: nat, post: nat -> bool)
    requires Inv(s) && r in s.runners && s.runners[r].phase.Streaming?
    ensures s.runners[r].job in s.jobs
    ensures var p := s.runners[r].phase.metrics; Inv(HasStreamed(s, r, p, StreamOf(s, s.runners[r], p, post)))
  {
    OnlyRunner(s, r);
    var run := s.runners[r];
    StreamIsImport(s, run, post);
    var c := s.configs[run.job];
    var x := Session(c.ToProcess(), c.settings.maxChunk, post);
    if PlainBeforeLast(ScanFrom(c.text.value, run.start)) { ImportMoves(x, c.text.value, run.start); }
    MovedIsAccounted(c, run.start, SentOf(s, run.job), Import(x, c.text.value, run.start));
    StreamedKeeps(s, r, run.phase.metrics, Import(x, c.text.value, run.start));
  }

  /** Whatever the stream did, as long as it is accounted for. */
  lemma StreamedKeeps(s: System, r: nat, p: Path, f: Finish)
    requires Inv(s) && r in s.runners && s.runners[r].phase == Streaming(p) && s.runners[r].job in s.jobs
    requires var id := s.runners[r].job;
             && id in s.configs
             && Accounted(f.ok, f.stream.committed, s.configs[id], SentOf(s, id) + Flatten(f.stream.bodies))
    ensures Inv(HasStreamed(s, r, p, f))
  {
    OnlyRunner(s, r);
    if f.ok {
      AccountedWhenDone(f.stream.committed, s.configs[s.runners[r].job],
                        SentOf(s, s.runners[r].job) + Flatten(f.stream.bodies));
      RunnerMoved(s, HasStreamed(s, r, p, f), r);
    } else {
      RunnerGone(s, HasStreamed(s, r, p, f), r);
    }
  }

  /** Once all was sent the offset does not matter. */
  lemma AccountedWhenDone(offset: nat, c: Config, sent: string)
    requires Accounted(true, offset, c, sent)
    ensures Accounted(true, 0, c, sent)
  {
  }

  /** A goroutine that streams imports its bundle from the saved offset. */
  lemma StreamIsImport(s: System, run: Runner, post: nat -> bool)
    requires Fits(s, run) && run.phase.Streaming?
    ensures var c := s.configs[run.job];
            && c.text.Some? && run.start == s.jobs[run.job].resumeOffset && !s.jobs[run.job].state.Completed?
            && StreamOf(s, run, run.phase.metrics, post)
               == Import(Session(c.ToProcess(), c.settings.maxChunk, post), c.text.value, run.start)
  {
  }

  /** What a run has moved stays accounted for. */
  lemma MovedIsAccounted(c: Config, start: nat, sent: string, f: Finish)
    requires c.text.Some? && Accounted(false, start, c, sent)
    requires PlainBeforeLast(ScanFrom(c.text.value, start)) ==> Moves(c.ToProcess(), c.text.value, start, f)
    ensures Accounted(f.ok, f.stream.committed, c, sent + Flatten(f.stream.bodies))
  {
    if PlainBeforeLast(ScanFrom(c.text.value, 0)) {
      ContinuedExact(c.ToProcess(), c.text.value, History(sent, start, false), f);
    }
  }

  lemma LeaveKeeps(s: System, r: nat)
    requires Inv(s) && r in s.runners && s.runners[r].phase.Leaving?
    ensures Inv(Apply(s, Leave(r)))
  {
    OnlyRunner(s, r);
    RunnerGone(s, Apply(s, Leave(r)), r);
  }

  /** Every step of every interleaving keeps the invariant. */
  lemma StepKeeps(s: System, e: Step)
    requires Inv(s) && Fresh(s, e)
    ensures Inv(Apply(s, e))
  {
    match e
    case Upload(id, file, codec, settings) => UploadKeeps(s, id, file, codec, settings);
    case Resume(id) => if Resumable(s, id) { ResumeKeeps(s, id); }
    case Begin(r) => if At(s, r, Spawned) { BeginKeeps(s, r); }
    case Prepare(r, ok) => if At(s, r, Begun) { PrepareKeeps(s, r, ok); }
    case Send(r, post) => if r in s.runners && s.runners[r].phase.Streaming? { SendKeeps(s, r, post); }
    case Leave(r) => if r in s.runners && s.runners[r].phase.Leaving? { LeaveKeeps(s, r); }
  }

  lemma {:induction false} TraceKeeps(steps: seq<Step>)
    requires FreshTrace(steps)
    ensures Inv(ApplyAll(INIT, steps))
  {
    if |steps| == 0 {
      assert forall id :: RunnersOf(INIT, id) == {};
    } else {
      TraceKeeps(steps[..|steps| - 1]);
      StepKeeps(ApplyAll(INIT, steps[..|steps| - 1]), steps[|steps| - 1]);
    }
  }

  // ---- What the importer guarantees ----

  /** Job `id` has at most one goroutine; if it can be resumed it has none, has failed, and
      the file it would be resumed from is there with the text of its bundle. */
  ghost predicate ResumeIsSafe(s: System, id: string) {
    && (forall q, r :: q in s.runners && r in s.runners && s.runners[q].job == s.runners[r].job == id ==> q == r)
    && (id in s.jobs && s.jobs[id].resumeReady ==>
          && (forall r :: r in s.runners ==> s.runners[r].job != id)
          && id in s.configs && s.jobs[id].state.Failed? && s.jobs[id].bundlePath.Some?
          && IsBundle(FileAt(s, s.jobs[id].bundlePath.value), s.configs[id]))
  }

  lemma InvIsSafe(s: System, id: string)
    requires Inv(s)
    ensures ResumeIsSafe(s, id)
  {
    assert JobInv(s, id);
    assert forall r :: r in s.runners && s.runners[r].job == id ==> r in RunnersOf(s, id);
  }

  lemma ResumeReadyIsSafe(steps: seq<Step>, id: string)
    requires FreshTrace(steps)
    ensures ResumeIsSafe(ApplyAll(INIT, steps), id)
  {
    TraceKeeps(steps);
    InvIsSafe(ApplyAll(INIT, steps), id);
  }

  ghost predicate NotBack(s: System, s': System, id: string)
    requires id in s.jobs
  {
    id in s'.jobs && (s'.jobs[id].resumeOffset >= s.jobs[id].resumeOffset || s'.jobs[id].state.Completed?)
  }

  lemma StreamedNotBack(s: System, r: nat, p: Path, f: Finish, id: string)
    requires r in s.runners && s.runners[r].job in s.jobs && id in s.jobs
    requires s.jobs[s.runners[r].job].resumeOffset <= f.stream.committed
    ensures NotBack(s, HasStreamed(s, r, p, f), id)
  {
  }

  lemma SendNotBack(s: System, r: nat, post: nat -> bool, id: string)
    requires Inv(s) && id in s.jobs
    ensures NotBack(s, Apply(s, Send(r, post)), id)
  {
    if r in s.runners && s.runners[r].phase.Streaming? {
      OnlyRunner(s, r);
      var p := s.runners[r].phase.metrics;
      StreamIsImport(s, s.runners[r], post);
      var c := s.configs[s.runners[r].job];
      ImportNotBack(Session(c.ToProcess(), c.settings.maxChunk, post), c.text.value, s.runners[r].start);
      StreamedNotBack(s, r, p, StreamOf(s, s.runners[r], p, post), id);
    }
  }

  /** No step takes a job's resume offset back before the job has completed. */
  lemma OffsetNeverDrops(s: System, e: Step, id: string)
    requires Inv(s) && Fresh(s, e) && id in s.jobs
    ensures NotBack(s, Apply(s, e), id)
  {
    match e
    case Begin(r) => if r in s.runners { OnlyRunner(s, r); }
    case Send(r, post) => SendNotBack(s, r, post, id);
    case _ =>
  }

  /** Over every interleaving of uploads, resumes and rejected posts: what the remote has of a
      job, and what a resume from its saved offset would send, make up what its bundle encodes
      to; of a completed job the remote has exactly that. */
  lemma ImportedExactlyOnce(steps: seq<Step>, id: string)
    requires FreshTrace(steps)
    ensures var s := ApplyAll(INIT, steps);
            id in s.jobs ==>
              && id in s.configs
              && Accounted(s.jobs[id].state.Completed?, s.jobs[id].resumeOffset, s.configs[id], SentOf(s, id))
  {
    TraceKeeps(steps);
    assert JobInv(ApplyAll(INIT, steps), id);
  }
}
