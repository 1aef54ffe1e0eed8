/** The export engine as the source runs it: methods that change files, the retry counter and
    the statistics in place, each proved equal to the functions of `AdaptiveExport` and
    `ExportExecution`. */
module ExportEngine {
  import opened Domain
  import opened Batching
  import opened ExportDefaults
  import opened AdaptiveExport
  import opened AdaptiveEvents
  import opened AdaptiveStaging
  import opened AdaptiveSampling
  import opened ExportExecution

  /** A staging file, or a temporary file named after one and a time stamp. */
  datatype FileName =
    | Staging(id: string) | AttemptFile(parent: FileName, stamp: nat) | SplitFile(parent: FileName, stamp: nat)

  predicate OlderThan(name: FileName, clock: nat) {
    match name
    case Staging(_) => true
    case AttemptFile(_, stamp) => stamp < clock
    case SplitFile(_, stamp) => stamp < clock
  }

  /** uniqueStrings. */
  method CollectUnique(values: seq<string>) returns (result: seq<string>)
    ensures result == UniqueStrings(values)
  {
    var seen: set<string> := {};
    result := [];
    var i := 0;
    while i < |values|
      invariant 0 <= i <= |values|
      invariant result + Unique(values[i..], seen) == UniqueStrings(values)
    {
      var v := values[i];
      assert values[i..][0] == v && values[i..][1..] == values[i + 1..];
      if v != "" && v !in seen {
        seen := seen + {v};
        result := result + [v];
      }
      i := i + 1;
    }
  }

  /** The first ladder step above `current`; the loop of nextAutopilotStep. */
  method FindNextStep(current: int, safety: SafetyConfig) returns (step: Option<int>)
    ensures step == NextAutopilotStep(current, safety)
  {
    if !safety.mode.Autopilot? {
      return None;
    }
    var ladder := NormalizeStepLadder(safety.stepLadderSeconds, safety.maxStepSeconds);
    var i := 0;
    while i < |ladder|
      invariant 0 <= i <= |ladder|
      invariant FirstAbove(ladder[i..], current) == FirstAbove(ladder, current)
    {
      assert ladder[i..][0] == ladder[i] && ladder[i..][1..] == ladder[i + 1..];
      if ladder[i] > current {
        return Some(ladder[i]);
      }
      i := i + 1;
    }
    return None;
  }

  /** The children of a division by job, one buildJobSplitAttempt per job. */
  method BuildJobChildren(c: ExportConfig, parent: Attempt) returns (children: seq<Attempt>)
    requires SplitsByJob(c)
    ensures children == JobChildren(c, parent, parent.jobs)
  {
    children := [];
    var i := 0;
    while i < |parent.jobs|
      invariant 0 <= i <= |parent.jobs|
      invariant children + JobChildren(c, parent, parent.jobs[i..]) == JobChildren(c, parent, parent.jobs)
    {
      assert parent.jobs[i..][0] == parent.jobs[i] && parent.jobs[i..][1..] == parent.jobs[i + 1..];
      children := children + [JobChild(c, parent, parent.jobs[i])];
      i := i + 1;
    }
  }

  /** The switch of exportWindowAdaptive. */
  method ChoosePlan(c: ExportConfig, a: Attempt, kind: ErrorKind) returns (plan: Plan)
    ensures plan == PlanFor(c, a, kind)
  {
    if kind == MissingRoute && !a.useQueryRange {
      return Retry(Decision(QueryRange, kind, a.range, 0),
                   a.(useQueryRange := true, depth := a.depth + 1, strategy := QueryRange));
    }
    if kind == TooManySeries && c.safety.autoSplit && a.depth < c.safety.maxSplitDepth && c.safety.splitByJob
       && |a.jobs| > 1 {
      var d := Decision(SplitByJob, kind, a.range, 0);
      if !SplitsByJob(c) {
        return CannotDivide(d);
      }
      var children := BuildJobChildren(c, a);
      return Divide(d, children);
    }
    if kind == QueryTimeout && a.useQueryRange {
      if c.safety.autoSplit && a.depth < c.safety.maxSplitDepth {
        match SplitTimeRange(a.range, c.safety.minWindowSeconds) {
          case Some((left, right)) =>
            var half := a.(depth := a.depth + 1, strategy := QueryRange);
            return Divide(Decision(SplitByTime, kind, a.range, a.step), [half.(range := left), half.(range := right)]);
          case None =>
        }
      }
      var next := FindNextStep(a.step, c.safety);
      match next {
        case Some(step) =>
          return Retry(Decision(IncreaseStep, kind, a.range, step),
                       a.(step := step, depth := 0, strategy := QueryRange));
        case None =>
      }
    }
    return GiveUp;
  }

  /** `files` with `rows` appended to `file`. */
  function Grown(files: map<FileName, seq<Row>>, file: FileName, rows: seq<Row>): map<FileName, seq<Row>>
    requires file in files
  {
    files[file := files[file] + rows]
  }

  lemma GrownByNothing(files: map<FileName, seq<Row>>, file: FileName)
    requires file in files
    ensures Grown(files, file, []) == files
  {
    assert files[file] + [] == files[file];
  }

  lemma GrownTwice(files: map<FileName, seq<Row>>, file: FileName, x: seq<Row>, y: seq<Row>)
    requires file in files
    ensures Grown(Grown(files, file, x), file, y) == Grown(files, file, x + y)
  {
    assert files[file] + x + y == files[file] + (x + y);
  }

  /** Removing a temporary file that was not there before. */
  lemma TempRemoved(before: map<FileName, seq<Row>>, after: map<FileName, seq<Row>>, temp: FileName)
    requires temp !in before && after - {temp} == before - {temp}
    ensures after - {temp} == before
  {
  }

  /** The rows a reply delivers before it ends. */
  function Delivered(reply: Reply): seq<Row> {
    match reply
    case Rows(rows) => rows
    case Broken(partial, _) => partial
  }

  /** `f`, with `rows` delivered before it. */
  ghost function Onto(rows: seq<Row>, f: Fetched): Fetched {
    match f.reply
    case Rows(more) => f.(reply := Rows(rows + more))
    case Broken(more, e) => f.(reply := Broken(rows + more, e))
  }

  lemma OntoNothing(f: Fetched)
    ensures Onto([], f) == f
  {
    assert [] + Delivered(f.reply) == Delivered(f.reply);
  }

  lemma OntoTwice(x: seq<Row>, y: seq<Row>, f: Fetched)
    ensures Onto(x, Onto(y, f)) == Onto(x + y, f)
  {
    assert x + (y + Delivered(f.reply)) == x + y + Delivered(f.reply);
  }

  /** One turn of the chunk loop. */
  lemma ChunkUnfolds(env: Env, a: Attempt, current: int, t: nat)
    requires current < a.range.end
    ensures var next := Min(current + CHUNK, a.range.end);
            FetchChunks(env, a, Cut(current, a.range.end, CHUNK), t) ==
              match env.query(t, a, TimeRange(current, next))
              case Broken(partial, e) => Fetched(Broken(partial, e), t + 1)
              case Rows(rows) => Onto(rows, FetchChunks(env, a, Cut(next, a.range.end, CHUNK), t + 1))
  {
    var next := Min(current + CHUNK, a.range.end);
    var chunks := Cut(current, a.range.end, CHUNK);
    assert chunks[0] == TimeRange(current, next) && chunks[1..] == Cut(next, a.range.end, CHUNK);
  }

  /** One turn of the loop over the children. */
  lemma ChildUnfolds(c: ExportConfig, env: Env, a: Attempt, children: seq<Attempt>, i: nat, t: nat)
    requires i < |children| && forall x :: x in children ==> Below(c, x, a)
    ensures var first := Export(c, env, children[i], t);
            ExportEach(c, env, a, children[i..], t) ==
              if first.Ok() then ExportEach(c, env, a, children[i + 1..], first.clock).Following(first) else first
  {
    assert children[i..][0] == children[i] && children[i..][1..] == children[i + 1..];
  }

  lemma FollowingTwice(o: Outcome, x: Outcome, y: Outcome)
    ensures o.Following(x).Following(y) == o.Following(x.Following(y))
  {
    assert y.added + (x.added + o.added) == y.added + x.added + o.added;
    assert y.events + (x.events + o.events) == y.events + x.events + o.events;
  }

  /** What the engine writes down: the events, and the statistics and retries they add up to. */
  datatype Ledger = Ledger(events: seq<Event>, stats: Stats, retries: nat)

  ghost function Post(l: Ledger, events: seq<Event>): Ledger {
    Ledger(l.events + events, RecordAll(l.stats, events), l.retries + |Decisions(events)|)
  }

  lemma PostNothing(l: Ledger)
    ensures Post(l, []) == l
  {
    assert l.events + [] == l.events;
  }

  lemma PostTwice(l: Ledger, x: seq<Event>, y: seq<Event>)
    ensures Post(Post(l, x), y) == Post(l, x + y)
  {
    RecordAllAppend(l.stats, x, y);
    EventsAppend(x, y);
    assert l.events + x + y == l.events + (x + y);
  }

  /** The events and statistics alone: the retry counter starts afresh with every batch. */
  datatype Entry = Entry(events: seq<Event>, stats: Stats)

  ghost function Noted(r: Entry, events: seq<Event>): Entry {
    Entry(r.events + events, RecordAll(r.stats, events))
  }

  lemma NotedNothing(r: Entry)
    ensures Noted(r, []) == r
  {
    assert r.events + [] == r.events;
  }

  lemma NotedTwice(r: Entry, x: seq<Event>, y: seq<Event>)
    ensures Noted(Noted(r, x), y) == Noted(r, x + y)
  {
    RecordAllAppend(r.stats, x, y);
    assert r.events + x + y == r.events + (x + y);
  }

  /** The engine works on its own, defaulted copy of the configuration. */
  method WithServiceDefaults(config: ExportConfig) returns (c: ExportConfig)
    ensures c == ServiceDefaults(config)
  {
    var settings := new ConfigRef(config);
    settings.ApplyServiceDefaults();
    c := settings.Value();
  }

  class Engine {
    const env: Env
    var files: map<FileName, seq<Row>>
    var clock: nat
    var retryCount: nat
    var stats: Stats
    ghost var events: seq<Event>

    constructor (env: Env, files: map<FileName, seq<Row>>, clock: nat, stats: Stats)
      requires forall n :: n in files ==> OlderThan(n, clock)
      ensures this.env == env && this.files == files && this.clock == clock && this.stats == stats
      ensures retryCount == 0 && events == [] && Fresh()
    {
      this.env, this.files, this.clock, this.stats := env, files, clock, stats;
      retryCount := 0;
      events := [];
    }

    /** Temporary names carry the time they were made at, so a new one is unused. */
    ghost predicate Fresh()
      reads this
    {
      forall n :: n in files ==> OlderThan(n, clock)
    }

    ghost function Book(): Ledger
      reads this
    {
      Ledger(events, stats, retryCount)
    }

    /** The engine has behaved as `o` since it had the files and the book given: `file` grew
        by what `o` adds, no other file differs, and what `o` records was written down. */
    ghost predicate Did(o: Outcome, file: FileName, files0: map<FileName, seq<Row>>, book0: Ledger)
      reads this
      requires file in files0
    {
      files == Grown(files0, file, o.added) && clock == o.clock && Book() == Post(book0, o.events)
    }

    method Note(e: Event)
      modifies this`events, this`stats, this`retryCount
      ensures Book() == Post(old(Book()), [e])
    {
      OneRecord(stats, e);
      OneEvent(e);
      events := events + [e];
      stats := Record(stats, e);
      if e.Decided? {
        retryCount := retryCount + 1;
      }
    }

    /** exportViaQueryRange and the copy of its stream into the attempt file. */
    method StreamChunks(a: Attempt, file: FileName) returns (reply: Reply)
      requires file in files
      modifies this`files, this`clock
      ensures Fetched(reply, clock) == FetchChunks(env, a, Chunks(a.range), old(clock))
      ensures files == Grown(old(files), file, Delivered(reply))
    {
      var current := a.range.start;
      ghost var whole := FetchChunks(env, a, Chunks(a.range), clock);
      var rows: seq<Row> := [];
      OntoNothing(whole);
      GrownByNothing(files, file);
      while current < a.range.end
        invariant file in files && files == Grown(old(files), file, rows)
        invariant whole == Onto(rows, FetchChunks(env, a, Cut(current, a.range.end, CHUNK), clock))
        decreases a.range.end - current
      {
        var next := current + CHUNK;
        if next > a.range.end {
          next := a.range.end;
        }
        ChunkUnfolds(env, a, current, clock);
        var answer := env.query(clock, a, TimeRange(current, next));
        ghost var t := clock;
        clock := clock + 1;
        GrownTwice(old(files), file, rows, Delivered(answer));
        files := Grown(files, file, Delivered(answer));
        match answer {
          case Broken(partial, e) =>
            return Broken(rows + partial, e);
          case Rows(more) =>
            OntoTwice(rows, more, FetchChunks(env, a, Cut(next, a.range.end, CHUNK), clock));
            rows := rows + more;
        }
        current := next;
      }
      return Rows(rows);
    }

    /** fetchAndProcessAttempt. A failed attempt may leave rows in its own file. */
    method FetchAndProcessAttempt(a: Attempt, file: FileName) returns (count: nat, err: Option<Failure>)
      modifies this`files, this`clock, this`events, this`stats, this`retryCount
      ensures var f := Fetch(env, a, old(clock));
              && clock == f.clock
              && files - {file} == old(files) - {file}
              && (f.reply.Rows? ==>
                    && err == None && count == |f.reply.rows| && file in files && files[file] == f.reply.rows
                    && Book() == Post(old(Book()), [Succeeded(a, f.reply.rows)]))
              && (f.reply.Broken? ==>
                    err == Some(f.reply.failure) && count == 0 && Book() == old(Book()))
    {
      var failed := env.local(clock);
      clock := clock + 1;
      if failed.Some? {
        return 0, failed;
      }
      files := files[file := []];
      var reply;
      if a.useQueryRange {
        reply := StreamChunks(a, file);
      } else {
        reply := env.fetch(clock, a);
        clock := clock + 1;
        files := files[file := Delivered(reply)];
      }
      assert [] + Delivered(reply) == Delivered(reply);
      match reply {
        case Broken(_, e) => return 0, Some(e);
        case Rows(rows) =>
          Note(Succeeded(a, rows));
          return |rows|, None;
      }
    }

    /** appendFile, then removal of the source whatever happened. */
    method AppendAndRemove(destination: FileName, source: FileName) returns (err: Option<Failure>)
      requires destination in files && source in files && source != destination
      modifies this`files, this`clock
      ensures clock == old(clock) + 1
      ensures match env.append(old(clock))
              case Whole =>
                && err == None
                && files == (old(files) - {source})[destination := old(files)[destination] + old(files)[source]]
              case Torn(n, e) =>
                && err == Some(e)
                && files
                   == (old(files) - {source})[destination := old(files)[destination] + Kept(old(files)[source], n)]
    {
      var result := env.append(clock);
      clock := clock + 1;
      match result {
        case Whole =>
          files := files[destination := files[destination] + files[source]];
          err := None;
        case Torn(n, e) =>
          files := files[destination := files[destination] + Kept(files[source], n)];
          err := Some(e);
      }
      files := files - {source};
    }

    /** exportWindowAdaptive. */
    method ExportWindowAdaptive(c: ExportConfig, a: Attempt, file: FileName) returns (count: nat, err: Option<Failure>)
      requires Fresh() && file in files
      modifies this`files, this`clock, this`events, this`stats, this`retryCount
      ensures Fresh()
      ensures var o := Export(c, env, a, old(clock));
              && Did(o, file, old(files), old(Book()))
              && count == o.count && err == o.error
      decreases JobsToSplit(a), FallbacksLeft(a), RungsLeft(c, a), DepthLeft(c, a), 3, 0
    {
      ghost var files0, book0 := files, Book();
      Note(Issued(a));
      var attemptFile := AttemptFile(file, clock);
      assert attemptFile !in files0 && attemptFile != file;
      ghost var f := Fetch(env, a, clock);
      FetchAdvances(env, a, clock);
      count, err := FetchAndProcessAttempt(a, attemptFile);
      TempRemoved(files0, files, attemptFile);
      if err == None {
        assert file in files - {attemptFile};
        err := AppendAndRemove(file, attemptFile);
        if err != None {
          count := 0;
        }
        PostTwice(book0, [Issued(a)], [Succeeded(a, f.reply.rows)]);
        assert [Issued(a)] + [Succeeded(a, f.reply.rows)] == [Issued(a), Succeeded(a, f.reply.rows)];
      } else {
        files := files - {attemptFile};
        count, err := RecoverFrom(c, a, err.value, file);
        ExportRecovers(c, env, a, old(clock));
        PostTwice(book0, [Issued(a)], Recovery(c, env, a, f.reply.failure, f.clock).events);
      }
    }

    /** The switch of exportWindowAdaptive after an attempt has failed. */
    method RecoverFrom(c: ExportConfig, a: Attempt, e: Failure, file: FileName)
      returns (count: nat, err: Option<Failure>)
      requires Fresh() && file in files
      modifies this`files, this`clock, this`events, this`stats, this`retryCount
      ensures Fresh()
      ensures var o := Recovery(c, env, a, e, old(clock));
              && Did(o, file, old(files), old(Book()))
              && count == o.count && err == o.error
      decreases JobsToSplit(a), FallbacksLeft(a), RungsLeft(c, a), DepthLeft(c, a), 2, 0
    {
      ghost var book0 := Book();
      GrownByNothing(files, file);
      RetriesDescend(c, a, e.kind);
      var plan := ChoosePlan(c, a, e.kind);
      match plan {
        case GiveUp =>
          PostNothing(book0);
          return 0, Some(e);
        case CannotDivide(d) =>
          Note(Decided(d));
          return 0, Some(e);
        case Retry(d, next) =>
          Note(Decided(d));
          assert next in Successors(plan);
          ghost var o := Export(c, env, next, clock);
          count, err := ExportWindowAdaptive(c, next, file);
          PostTwice(book0, [Decided(d)], o.events);
        case Divide(d, children) =>
          Note(Decided(d));
          ghost var o := ExportDivided(c, env, a, children, clock);
          count, err := RunSplitAttemptsAtomically(c, a, children, file);
          PostTwice(book0, [Decided(d)], o.events);
      }
    }

    /** runSplitAttemptsAtomically. */
    method RunSplitAttemptsAtomically(c: ExportConfig, ghost a: Attempt, children: seq<Attempt>, file: FileName)
      returns (count: nat, err: Option<Failure>)
      requires Fresh() && file in files
      requires forall x :: x in children ==> Below(c, x, a)
      modifies this`files, this`clock, this`events, this`stats, this`retryCount
      ensures Fresh()
      ensures var o := ExportDivided(c, env, a, children, old(clock));
              && Did(o, file, old(files), old(Book()))
              && count == o.count && err == o.error
      decreases JobsToSplit(a), FallbacksLeft(a), RungsLeft(c, a), DepthLeft(c, a), 1, 1
    {
      ghost var files0 := files;
      GrownByNothing(files, file);
      PostNothing(Book());
      var splitFile := SplitFile(file, clock);
      var failed := env.create(clock);
      clock := clock + 1;
      if failed.Some? {
        return 0, failed;
      }
      assert splitFile !in files0 && splitFile != file;
      files := files[splitFile := []];
      ghost var o := ExportEach(c, env, a, children, clock);
      count, err := RunChildren(c, a, children, splitFile);
      assert files - {splitFile} == files0;
      if err != None {
        files := files - {splitFile};
        return 0, err;
      }
      assert files[splitFile] == o.added;
      err := AppendAndRemove(file, splitFile);
      if err != None {
        count := 0;
      }
    }

    /** The loop of runSplitAttemptsAtomically over its children. */
    method RunChildren(c: ExportConfig, ghost a: Attempt, children: seq<Attempt>, splitFile: FileName)
      returns (total: nat, err: Option<Failure>)
      requires Fresh() && splitFile in files && files[splitFile] == []
      requires forall x :: x in children ==> Below(c, x, a)
      modifies this`files, this`clock, this`events, this`stats, this`retryCount
      ensures Fresh()
      ensures var o := ExportEach(c, env, a, children, old(clock));
              && Did(o, splitFile, old(files), old(Book()))
              && (err == None ==> total == o.count) && err == o.error
      decreases JobsToSplit(a), FallbacksLeft(a), RungsLeft(c, a), DepthLeft(c, a), 1, 0
    {
      ghost var whole := ExportEach(c, env, a, children, clock);
      ghost var done := Outcome([], 0, None, [], clock);
      GrownByNothing(files, splitFile);
      PostNothing(Book());
      assert whole == whole.Following(done);
      total := 0;
      var i := 0;
      while i < |children|
        invariant 0 <= i <= |children| && Fresh()
        invariant Did(done.(clock := clock), splitFile, old(files), old(Book()))
        invariant total == done.count
        invariant ExportEach(c, env, a, children[i..], clock).Following(done) == whole
      {
        ChildUnfolds(c, env, a, children, i, clock);
        assert Below(c, children[i], a);
        ghost var first := Export(c, env, children[i], clock);
        var n;
        n, err := ExportWindowAdaptive(c, children[i], splitFile);
        PostTwice(old(Book()), done.events, first.events);
        GrownTwice(old(files), splitFile, done.added, first.added);
        if err != None {
          return;
        }
        total := total + n;
        FollowingTwice(ExportEach(c, env, a, children[i + 1..], clock), first, done);
        done := first.Following(done);
        i := i + 1;
      }
      assert children[i..] == [];
      assert done.added + [] == done.added && done.events + [] == done.events;
      return total, None;
    }

    ghost function Notes(): Entry
      reads this
    {
      Entry(events, stats)
    }

    /** The engine has stored `o` since it had the files and the notes given. */
    ghost predicate Stored(o: Outcome, file: FileName, files0: map<FileName, seq<Row>>, notes0: Entry)
      reads this
      requires file in files0
    {
      files == Grown(files0, file, o.added) && Notes() == Noted(notes0, o.events)
    }

    /** One batch, with a retry counter of its own. */
    method ProcessBatch(c: ExportConfig, window: TimeRange, file: FileName) returns (n: nat, err: Option<Failure>)
      requires Fresh() && file in files
      modifies this`files, this`clock, this`events, this`stats, this`retryCount
      ensures Fresh()
      ensures var o := RunBatch(c, env, window, old(clock));
              Stored(o, file, old(files), old(Notes())) && clock == o.clock && n == o.count && err == o.error
    {
      GrownByNothing(files, file);
      NotedNothing(Notes());
      var canceled := env.canceled(clock);
      clock := clock + 1;
      if canceled {
        return 0, Some(CANCELED);
      }
      retryCount := 0;
      n, err := ExportWindowAdaptive(c, NewAttempt(c, window), file);
    }

    /** The batch loop of ExecuteExport. */
    method ProcessBatches(c: ExportConfig, windows: seq<TimeRange>, start: nat, file: FileName)
      returns (metricsCount: nat, reports: seq<Report>, err: Option<Failure>)
      requires Fresh() && file in files && start <= |windows|
      modifies this`files, this`clock, this`events, this`stats, this`retryCount
      ensures Fresh()
      ensures var run := RunBatches(c, env, windows, start, old(clock));
              && Stored(run.outcome, file, old(files), old(Notes())) && clock == run.outcome.clock
              && reports == run.reports && err == run.outcome.error
              && (err == None ==> metricsCount == run.outcome.count)
    {
      ghost var whole := RunBatches(c, env, windows, start, clock);
      ghost var done := Outcome([], 0, None, [], clock);
      GrownByNothing(files, file);
      NotedNothing(Notes());
      metricsCount, reports := 0, [];
      NothingAhead(done, whole);
      var batchIndex := start;
      while batchIndex < |windows|
        invariant start <= batchIndex <= |windows| && Fresh()
        invariant Stored(done, file, old(files), old(Notes()))
        invariant metricsCount == done.count
        invariant Ahead(done, reports, RunBatches(c, env, windows, batchIndex, clock)) == whole
      {
        BatchUnfolds(c, env, windows, batchIndex, clock);
        ghost var o := RunBatch(c, env, windows[batchIndex], clock);
        var n;
        n, err := ProcessBatch(c, windows[batchIndex], file);
        NotedTwice(old(Notes()), done.events, o.events);
        GrownTwice(old(files), file, done.added, o.added);
        if err != None {
          AheadOfNothing(done, reports);
          return;
        }
        metricsCount := metricsCount + n;
        var report := Report(batchIndex + 1, |windows|, windows[batchIndex], n);
        TwiceAhead(done, reports, o, report, RunBatches(c, env, windows, batchIndex + 1, clock));
        reports := reports + [report];
        done := o.Following(done);
        batchIndex := batchIndex + 1;
      }
      AheadOfNothing(done, reports);
      return metricsCount, reports, None;
    }

    ghost function Found(file: FileName): Option<seq<Row>>
      reads this
    {
      if file in files then Some(files[file]) else None
    }

    /** `file` and the clock are as `x` leaves them. */
    ghost predicate Left(x: Execution, file: FileName)
      reads this
    {
      clock == x.clock && Found(file) == x.staging
    }

    /** ExecuteExport. */
    method ExecuteExport(config: ExportConfig, file: FileName)
      returns (reports: seq<Report>, result: Option<ExportResult>, err: Option<Failure>)
      requires Fresh() && file.Staging?
      modifies this
      ensures Fresh() && files - {file} == old(files) - {file}
      ensures var x := Execute(config, env, old(Found(file)), old(clock));
              Left(x, file) && reports == x.reports && result == x.result && err == x.error
    {
      var c := WithServiceDefaults(config);
      var failed := env.create(clock);
      clock := clock + 1;
      if failed.Some? {
        return [], None, failed;
      }
      files := files[file := if c.resumeFromBatch > 0 && file in files then files[file] else []];
      reports, result, err := ExportAndArchive(c, file);
    }

    /** The rest of ExecuteExport, once the staging file is initialised. */
    method ExportAndArchive(c: ExportConfig, file: FileName)
      returns (reports: seq<Report>, result: Option<ExportResult>, err: Option<Failure>)
      requires Fresh() && file in files
      modifies this
      ensures Fresh() && files - {file} == old(files) - {file}
      ensures var windows := BatchWindows(c.timeRange, c.batching);
              var x := Archived(c, env, old(files)[file],
                                RunBatches(c, env, windows, StartIndex(c, |windows|), old(clock)));
              Left(x, file) && reports == x.reports && result == x.result && err == x.error
    {
      var windows := CalculateBatchWindows(c.timeRange, c.batching);
      stats := InitialStats(c);
      var n;
      n, reports, err := ProcessBatches(c, windows, StartIndex(c, |windows|), file);
      if err != None {
        return reports, None, err;
      }
      var archiveFailure := env.archive(clock);
      clock := clock + 1;
      if archiveFailure.Some? {
        return reports, None, archiveFailure;
      }
      result := Some(ExportResult(n, files[file], stats));
      if c.resumeFromBatch == 0 {
        files := files - {file};
      }
    }
  }

  /** `run`, once `first` and the batches reported in `reports` have come before it. */
  ghost function Ahead(first: Outcome, reports: seq<Report>, run: BatchRun): BatchRun {
    BatchRun(run.outcome.Following(first), reports + run.reports)
  }

  lemma NothingAhead(done: Outcome, run: BatchRun)
    requires done.added == [] && done.events == [] && done.count == 0
    ensures Ahead(done, [], run) == run
  {
    assert [] + run.outcome.added == run.outcome.added && [] + run.outcome.events == run.outcome.events;
    assert [] + run.reports == run.reports;
  }

  lemma AheadOfNothing(done: Outcome, reports: seq<Report>)
    ensures done.added + [] == done.added && done.events + [] == done.events && reports + [] == reports
  {
  }

  /** One turn of the batch loop. */
  lemma BatchUnfolds(c: ExportConfig, env: Env, windows: seq<TimeRange>, i: nat, t: nat)
    requires i < |windows|
    ensures var o := RunBatch(c, env, windows[i], t);
            RunBatches(c, env, windows, i, t) ==
              if !o.Ok() then BatchRun(o, [])
              else Ahead(o, [Report(i + 1, |windows|, windows[i], o.count)],
                         RunBatches(c, env, windows, i + 1, o.clock))
  {
  }

  lemma TwiceAhead(done: Outcome, reports: seq<Report>, o: Outcome, report: Report, run: BatchRun)
    ensures Ahead(done, reports, Ahead(o, [report], run)) == Ahead(o.Following(done), reports + [report], run)
  {
    FollowingTwice(run.outcome, o, done);
    assert reports + ([report] + run.reports) == reports + [report] + run.reports;
  }

  /** The outcome of the plan made after `a` failed with `e`, without the attempt itself. */
  ghost function Recovery(c: ExportConfig, env: Env, a: Attempt, e: Failure, t: nat): Outcome {
    RetriesDescend(c, a, e.kind);
    match PlanFor(c, a, e.kind)
    case GiveUp => Outcome([], 0, Some(e), [], t)
    case CannotDivide(d) => Outcome([], 0, Some(e), [Decided(d)], t)
    case Retry(d, next) => Export(c, env, next, t).After([Decided(d)])
    case Divide(d, children) => ExportDivided(c, env, a, children, t).After([Decided(d)])
  }

  lemma ExportRecovers(c: ExportConfig, env: Env, a: Attempt, t: nat)
    requires Fetch(env, a, t).reply.Broken?
    ensures Export(c, env, a, t)
            == Recovery(c, env, a, Fetch(env, a, t).reply.failure, Fetch(env, a, t).clock).After([Issued(a)])
  {
    var f := Fetch(env, a, t);
    var e := f.reply.failure;
    RetriesDescend(c, a, e.kind);
    match PlanFor(c, a, e.kind)
    case Retry(d, next) =>
      assert next in Successors(PlanFor(c, a, e.kind));
      var ev := Export(c, env, next, f.clock).events;
      assert [Issued(a), Decided(d)] + ev == [Issued(a)] + ([Decided(d)] + ev);
    case Divide(d, children) =>
      var ev := ExportDivided(c, env, a, children, f.clock).events;
      assert [Issued(a), Decided(d)] + ev == [Issued(a)] + ([Decided(d)] + ev);
    case _ =>
  }

  lemma FetchAdvances(env: Env, a: Attempt, t: nat)
    ensures Fetch(env, a, t).clock > t
  {
    FetchTakesTime(env, a, Chunks(a.range), t + 1);
  }

  lemma OneRecord(s: Stats, e: Event)
    ensures RecordAll(s, [e]) == Record(s, e)
  {
    assert [e][1..] == [];
  }
}
