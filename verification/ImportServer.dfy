/** The importer's server object: its methods change jobs, files and goroutines in place, one
    section under the lock at a time, as the steps of ImportJobs say. */
module ImportServer {
  import opened Domain
  import opened ImportLines
  import opened BundleStream
  import opened ImportJobs

  class Server {
    var jobs: map<string, ImportJob>
    var configs: map<string, Config>
    var files: map<Path, File>
    var nextPath: Path
    var runners: map<nat, Runner>
    var nextRunner: nat
    var remote: map<string, string>
    ghost var owner: map<Path, string>

    /** The invariant of every run: what ImportJobs proves of all reachable states. */
    ghost predicate Valid()
      reads this
    {
      Inv(View()) && PathsAreNumbered(View())
    }

    constructor ()
      ensures Valid() && View() == INIT
    {
      jobs, configs, files, nextPath := map[], map[], map[], 0;
      runners, nextRunner, remote, owner := map[], 0, map[], map[];
      new;
      InitIsValid();
    }

    ghost function View(): System
      reads this
    {
      System(jobs, configs, files, owner, nextPath, runners, nextRunner, remote)
    }

    /** A new temporary file for job `id`. */
    method CreateTemp(id: string, file: File) returns (path: Path)
      modifies this`files, this`nextPath, this`owner
      ensures path == old(nextPath) && nextPath == path + 1
      ensures files == old(files)[path := file] && owner == old(owner)[path := id]
    {
      path := nextPath;
      files := files[path := file];
      owner := owner[path := id];
      nextPath := nextPath + 1;
    }

    method Go(id: string, temp: Path, start: nat)
      modifies this`runners, this`nextRunner
      ensures runners == old(runners)[old(nextRunner) := Runner(id, temp, start, Spawned)]
              && nextRunner == old(nextRunner) + 1
    {
      runners := runners[nextRunner := Runner(id, temp, start, Spawned)];
      nextRunner := nextRunner + 1;
    }

    /** A job with a new id gets its one goroutine, at offset 0 of a file from which the bundle
        can be read if it can be read at all; no other job is touched. */
    method HandleUpload(id: string, file: File, codec: Codec, settings: Settings)
      requires Valid()
      modifies this
      ensures View() == Apply(old(View()), Upload(id, file, codec, settings))
      ensures old(id !in jobs) ==> Valid() && RunnersOf(View(), id) == {old(nextRunner)}
      ensures var run := runners[old(nextRunner)]; run.start == 0 && Readable(FileAt(View(), run.temp), configs[id])
      ensures old(id !in jobs) ==> forall i :: i != id ==> SameJob(old(View()), View(), i)
    {
      if id !in jobs {
        StepKeeps(View(), Upload(id, file, codec, settings));
        StepNumbers(View(), Upload(id, file, codec, settings));
        UploadAlone(View(), id, file, codec, settings);
      }
      var temp := CreateTemp(id, file);
      configs := configs[id := Config(codec, settings, TextOfFile(file))];
      remote := remote[id := ""];
      jobs := jobs[id := ImportJob(Queued, None, 0, false)];
      Go(id, temp, 0);
    }

    /** Accepts a job only when no goroutine works on it and its bundle is still there. */
    method HandleResume(id: string) returns (accepted: bool)
      requires Valid()
      modifies this
      ensures Valid() && View() == Apply(old(View()), Resume(id))
      ensures accepted == old(id in jobs && jobs[id].resumeReady)
      ensures accepted ==> old(RunnersOf(View(), id)) == {} && RunnersOf(View(), id) == {old(nextRunner)}
      ensures accepted ==> var run := runners[old(nextRunner)];
                           run.start == old(jobs[id].resumeOffset) && id in configs &&
                           IsBundle(old(FileAt(View(), jobs[id].bundlePath.value)), configs[id])
    {
      StepKeeps(View(), Resume(id));
      StepNumbers(View(), Resume(id));
      ResumeAlone(View(), id);
      if id !in jobs {
        return false;
      }
      var job := jobs[id];
      if !job.resumeReady || job.bundlePath.None? {
        return false;
      }
      var temp, start := job.bundlePath.value, job.resumeOffset;
      jobs := jobs[id := job.(state := Queued, resumeReady := false)];
      Go(id, temp, start);
      return true;
    }

    /** Moves goroutine `r` on and stores its job. */
    method Update(r: nat, job: ImportJob, phase: Phase)
      requires r in runners
      modifies this`runners, this`jobs
      ensures runners == old(runners)[r := old(runners)[r].(phase := phase)]
      ensures jobs == old(jobs)[old(runners)[r].job := job]
    {
      jobs := jobs[runners[r].job := job];
      runners := runners[r := runners[r].(phase := phase)];
    }

    /** Marks the job running on the goroutine's file; the offset stays where it was. */
    method BeginImport(r: nat)
      requires Valid() && r in runners && runners[r].phase.Spawned?
      modifies this
      ensures Valid() && View() == Apply(old(View()), Begin(r)) && r in runners && runners[r].phase.Begun?
      ensures var id := old(runners[r].job);
              && id in old(jobs) && id in jobs && jobs[id].state.Running?
              && jobs[id].resumeOffset == old(jobs)[id].resumeOffset
    {
      OnlyRunner(View(), r);
      StepKeeps(View(), Begin(r));
      StepNumbers(View(), Begin(r));
      var run := runners[r];
      Update(r, ImportJob(Running, Some(run.temp), run.start, false), Begun);
    }

    /** prepareBundle, with `ok` false when a file operation fails, and the updates after it: the
        goroutine has the metrics file of the bundle, or the job has failed for good. */
    method PrepareImport(r: nat, ok: bool)
      requires Valid() && r in runners && runners[r].phase.Begun?
      modifies this
      ensures Valid() && View() == Apply(old(View()), Prepare(r, ok))
      ensures old(runners[r].job) in old(jobs) && GoesOn(old(View()), View(), r)
    {
      OnlyRunner(View(), r);
      StepKeeps(View(), Prepare(r, ok));
      StepNumbers(View(), Prepare(r, ok));
      PrepareGoesOn(View(), r, ok);
      var run := runners[r];
      var job := jobs[run.job];
      if !ok || run.temp !in files || TextOfFile(files[run.temp]).None? {
        Update(r, job.(state := Failed), Leaving({run.temp}));
        return;
      }
      match files[run.temp] {
        case Plain(_) =>
          Update(r, job.(bundlePath := Some(run.temp)), Streaming(run.temp));
        case Zip(entry) =>
          var path := CreateTemp(run.job, Plain(entry.value));
          Update(r, job.(bundlePath := Some(path)), Streaming(path));
      }
    }

    /** streamImport and the update after it: no job's offset goes back, and the job completes or
        can be resumed. */
    method StreamAndFinish(r: nat, post: nat -> bool)
      requires Valid() && r in runners && runners[r].phase.Streaming?
      modifies this
      ensures Valid() && View() == Apply(old(View()), Send(r, post))
      ensures forall id :: id in old(jobs) ==> NotBack(old(View()), View(), id)
      ensures Settled(View(), r, old(runners[r].job))
    {
      OnlyRunner(View(), r);
      StepKeeps(View(), Send(r, post));
      StepNumbers(View(), Send(r, post));
      SendSettles(View(), r, post);
      var run := runners[r];
      var metrics := run.phase.metrics;
      var accepted, committed, ok := "", run.start, false;
      if metrics in files && files[metrics].Plain? {
        accepted, committed, ok := Transfer(configs[run.job], post, files[metrics].text, run.start);
      }
      remote := remote[run.job := (if run.job in remote then remote[run.job] else "") + accepted];
      Settle(r, metrics, ok, committed);
    }

    /** The update after the stream. */
    method Settle(r: nat, metrics: Path, ok: bool, committed: nat)
      requires r in runners && runners[r].job in jobs
      modifies this`jobs, this`runners
      ensures var run := old(runners)[r];
              && jobs == old(jobs)[run.job := if ok then ImportJob(Completed, None, 0, false)
                                              else old(jobs)[run.job].(
                                                state := Failed, resumeOffset := committed, resumeReady := true)]
              && runners == if ok then old(runners)[r := run.(phase := Leaving({metrics, run.temp}))]
                            else old(runners) - {r}
    {
      var run := runners[r];
      if ok {
        Update(r, ImportJob(Completed, None, 0, false), Leaving({metrics, run.temp}));
      } else {
        jobs := jobs[run.job := jobs[run.job].(state := Failed, resumeOffset := committed, resumeReady := true)];
        runners := runners - {r};
      }
    }

    method Transfer(c: Config, post: nat -> bool, text: string, start: nat)
      returns (accepted: string, committed: nat, ok: bool)
      ensures var f := Import(Session(c.ToProcess(), c.settings.maxChunk, post), text, start);
              accepted == Flatten(f.stream.bodies) && committed == f.stream.committed && ok == f.ok
    {
      var stream := new BundleImport(c.codec, c.settings, post, start);
      ok := stream.StreamImport(text);
      return Flatten(stream.bodies), stream.committed, ok;
    }

    /** The deferred removals: only files made for this job go. */
    method LeaveImport(r: nat)
      requires Valid() && r in runners && runners[r].phase.Leaving?
      modifies this
      ensures Valid() && View() == Apply(old(View()), Leave(r)) && jobs == old(jobs) && runners == old(runners) - {r}
      ensures forall i, p :: i != old(runners[r].job) && Owns(old(View()), i, p) ==>
              FileAt(View(), p) == old(FileAt(View(), p))
    {
      OnlyRunner(View(), r);
      StepKeeps(View(), Leave(r));
      StepNumbers(View(), Leave(r));
      files := files - runners[r].phase.remove;
      runners := runners - {r};
    }

    /** runImportJob, when nothing interleaves: its goroutine ends, the job's offset has not gone back
        unless it is completed, and unless it can be resumed the run leaves no file of its own. */
    method RunImportJob(r: nat, ok: bool, post: nat -> bool)
      requires Valid() && r in runners && runners[r].phase.Spawned?
      modifies this
      ensures Valid() && r !in runners
      ensures var id := old(runners[r].job);
              && id in old(jobs) && NotBack(old(View()), View(), id)
              && id in jobs && (!jobs[id].resumeReady ==> files == old(files) - {old(runners[r].temp)})
    {
      ghost var before, temp := files, runners[r].temp;
      BeginImport(r);
      assert files == before && runners[r].temp == temp;
      PrepareExtracts(View(), r, ok);
      PrepareImport(r, ok);
      if runners[r].phase.Streaming? {
        SendRemoves(View(), r, post, before, temp);
        StreamAndFinish(r, post);
      }
      if r in runners {
        LeaveImport(r);
      }
    }
  }

  lemma InitIsValid()
    ensures Inv(INIT)
  {
    assert forall id :: RunnersOf(INIT, id) == {};
  }

  lemma NextRunnerIsNew(s: System)
    requires Inv(s)
    ensures s.nextRunner !in s.runners
  {
    forall r | r in s.runners ensures r < s.nextRunner { OnlyRunner(s, r); }
  }

  lemma UploadAlone(s: System, id: string, file: File, codec: Codec, settings: Settings)
    requires Inv(s) && id !in s.jobs
    ensures var t := Uploaded(s, id, file, codec, settings);
            RunnersOf(t, id) == {s.nextRunner} && forall i :: i != id ==> SameJob(s, t, i)
  {
    NoRunner(s, id);
    NextRunnerIsNew(s);
    var t := Uploaded(s, id, file, codec, settings);
    forall i | i != id ensures SameJob(s, t, i) { assert SameExceptRunners(s, t, i); }
  }

  lemma ResumeAlone(s: System, id: string)
    requires Inv(s)
    ensures Resumable(s, id) <==> id in s.jobs && s.jobs[id].resumeReady
    ensures Resumable(s, id) ==>
              && RunnersOf(s, id) == {} && RunnersOf(Requeued(s, id), id) == {s.nextRunner}
              && id in s.configs && IsBundle(FileAt(s, s.jobs[id].bundlePath.value), s.configs[id])
  {
    assert JobInv(s, id);
    if Resumable(s, id) { NoRunner(s, id); }
  }

  /** After streaming, job `id` is completed and goroutine `r` about to leave, or the job can be
      resumed and the goroutine has gone. */
  ghost predicate Settled(s: System, r: nat, id: string) {
    id in s.jobs &&
    if r in s.runners then s.runners[r].phase.Leaving? && s.jobs[id].state.Completed?
    else s.jobs[id].resumeReady
  }

  lemma SendSettles(s: System, r: nat, post: nat -> bool)
    requires Inv(s) && r in s.runners && s.runners[r].phase.Streaming? && s.runners[r].job in s.jobs
    ensures Settled(Apply(s, Send(r, post)), r, s.runners[r].job)
    ensures forall id :: id in s.jobs ==> NotBack(s, Apply(s, Send(r, post)), id)
  {
    forall id | id in s.jobs ensures NotBack(s, Apply(s, Send(r, post)), id) { SendNotBack(s, r, post, id); }
  }

  /** Goroutine `r` goes on to stream the metrics file of the bundle, or to leave a job that has
      failed for good; the offset stays where it was. */
  ghost predicate GoesOn(s: System, t: System, r: nat)
    requires r in s.runners && s.runners[r].job in s.jobs
  {
    var id := s.runners[r].job;
    && r in t.runners && t.runners[r].job == id && id in t.jobs && id in t.configs
    && t.jobs[id].resumeOffset == s.jobs[id].resumeOffset
    && if t.runners[r].phase.Streaming? then IsBundle(FileAt(t, t.runners[r].phase.metrics), t.configs[id])
       else t.runners[r].phase.Leaving? && t.jobs[id].state.Failed? && !t.jobs[id].resumeReady
  }

  lemma ExtractMoves(s: System, r: nat, text: string)
    requires r in s.runners && s.runners[r].job in s.jobs
    ensures var (id, t) := (s.runners[r].job, Extracted(s, r, text));
            && r in t.runners && t.runners[r].job == id && id in t.jobs
            && t.jobs[id].resumeOffset == s.jobs[id].resumeOffset
            && t.runners[r].phase.Streaming?
  {
  }

  lemma PrepareGoesOn(s: System, r: nat, ok: bool)
    requires Inv(s) && Inv(Apply(s, Prepare(r, ok))) && At(s, r, Begun) && s.runners[r].job in s.jobs
    ensures GoesOn(s, Apply(s, Prepare(r, ok)), r)
  {
    var file := FileAt(s, s.runners[r].temp);
    if ok && file.Some? && TextOfFile(file.value).Some? && file.value.Zip? {
      ExtractMoves(s, r, TextOfFile(file.value).value);
    }
    var t := Apply(s, Prepare(r, ok));
    assert r in t.runners && t.runners[r].job == s.runners[r].job;
    OnlyRunner(t, r);
  }

  // ---- Files ----

  /** Every file was made before the next path is given out. */
  ghost predicate PathsAreNumbered(s: System) { forall p :: p in s.files ==> p < s.nextPath }

  lemma StepNumbers(s: System, e: Step)
    requires PathsAreNumbered(s)
    ensures PathsAreNumbered(Apply(s, e))
  {
    match e
    case Prepare(r, ok) =>
      if At(s, r, Begun) && s.runners[r].job in s.jobs { PreparedNumbers(s, r, ok); }
    case _ =>
  }

  lemma PreparedNumbers(s: System, r: nat, ok: bool)
    requires PathsAreNumbered(s) && r in s.runners && s.runners[r].job in s.jobs
    ensures PathsAreNumbered(HasPrepared(s, r, ok))
  {
  }

  /** What a run leaves of the files, once its goroutine is where it removes some. */
  ghost predicate WillRemove(s: System, before: map<Path, File>, r: nat, temp: Path) {
    r in s.runners && s.runners[r].phase.Leaving? ==> s.files - s.runners[r].phase.remove == before - {temp}
  }

  /** The goroutine's metrics file is its own file or a new one. */
  ghost predicate Extracts(s: System, before: map<Path, File>, r: nat, temp: Path) {
    r in s.runners && s.runners[r].phase.Streaming? ==>
      s.runners[r].temp == temp && s.files - {s.runners[r].phase.metrics, temp} == before - {temp}
  }

  lemma PrepareExtracts(s: System, r: nat, ok: bool)
    requires PathsAreNumbered(s) && At(s, r, Begun) && s.runners[r].job in s.jobs
    ensures var t, temp := Apply(s, Prepare(r, ok)), s.runners[r].temp;
            Extracts(t, s.files, r, temp) && WillRemove(t, s.files, r, temp)
  {
  }

  lemma SendRemoves(s: System, r: nat, post: nat -> bool, before: map<Path, File>, temp: Path)
    requires r in s.runners && s.runners[r].phase.Streaming? && s.runners[r].job in s.jobs
             && Extracts(s, before, r, temp)
    ensures WillRemove(Apply(s, Send(r, post)), before, r, temp)
  {
  }
}
