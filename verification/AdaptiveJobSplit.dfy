/** Dividing a request by job loses and repeats no row. */
module AdaptiveJobSplit {
  import opened Domain
  import opened Batching
  import opened AdaptiveExport
  import opened AdaptiveEvents
  import opened AdaptiveSelectors

  /** The rows of `rows` that satisfy `p`. */
  function Those(rows: seq<Row>, p: Row -> bool): seq<Row> {
    if |rows| == 0 then [] else (if p(rows[0]) then [rows[0]] else []) + Those(rows[1..], p)
  }

  function Matching(holds: (string, Row) -> bool, rows: seq<Row>, selector: Selector): seq<Row> {
    Those(rows, row => Matches(holds, selector, row))
  }

  /** What the server holds: the raw rows of a range, or those sampled at a step. */
  datatype Stored = Stored(raw: TimeRange -> seq<Row>, sampled: (int, TimeRange) -> seq<Row>)

  /** A server that answers every request with the rows its selector matches, in any order. */
  ghost predicate Honest(env: Env, holds: (string, Row) -> bool, stored: Stored) {
    && (forall n: nat, a: Attempt :: env.fetch(n, a).Rows? ==>
          multiset(env.fetch(n, a).rows) == multiset(Matching(holds, stored.raw(a.range), a.selector)))
    && (forall n: nat, a: Attempt, w: TimeRange :: env.query(n, a, w).Rows? ==>
          multiset(env.query(n, a, w).rows) == multiset(Matching(holds, stored.sampled(a.step, w), a.selector)))
  }

  function SampledOver(stored: Stored, step: int, chunks: seq<TimeRange>): seq<Row> {
    if |chunks| == 0 then [] else stored.sampled(step, chunks[0]) + SampledOver(stored, step, chunks[1..])
  }

  /** All the rows an attempt reads from, whatever its selector. */
  function Scope(stored: Stored, a: Attempt): seq<Row> {
    if a.useQueryRange then SampledOver(stored, a.step, Chunks(a.range)) else stored.raw(a.range)
  }

  lemma {:induction false} ThoseAppend(x: seq<Row>, y: seq<Row>, p: Row -> bool)
    ensures Those(x + y, p) == Those(x, p) + Those(y, p)
  {
    if |x| == 0 {
      assert x + y == y;
    } else {
      assert (x + y)[0] == x[0] && (x + y)[1..] == x[1..] + y;
      ThoseAppend(x[1..], y, p);
      var head := if p(x[0]) then [x[0]] else [];
      assert head + (Those(x[1..], p) + Those(y, p)) == (head + Those(x[1..], p)) + Those(y, p);
    }
  }

  lemma {:induction false} SameThose(rows: seq<Row>, p: Row -> bool, q: Row -> bool)
    requires forall row :: p(row) <==> q(row)
    ensures Those(rows, p) == Those(rows, q)
  {
    if |rows| > 0 { SameThose(rows[1..], p, q); }
  }

  lemma {:induction false} ThoseSplit(rows: seq<Row>, p: Row -> bool, q: Row -> bool, r: Row -> bool)
    requires forall row :: (p(row) <==> q(row) || r(row)) && !(q(row) && r(row))
    ensures multiset(Those(rows, p)) == multiset(Those(rows, q)) + multiset(Those(rows, r))
  {
    if |rows| > 0 { ThoseSplit(rows[1..], p, q, r); }
  }

  lemma {:induction false} NoneOfThose(rows: seq<Row>, p: Row -> bool)
    requires forall row :: !p(row)
    ensures Those(rows, p) == []
  {
    if |rows| > 0 { NoneOfThose(rows[1..], p); }
  }

  lemma {:induction false} ChunksAreMatching(
    holds: (string, Row) -> bool, stored: Stored, env: Env, a: Attempt, chunks: seq<TimeRange>, t: nat)
    requires Honest(env, holds, stored) && FetchChunks(env, a, chunks, t).reply.Rows?
    ensures multiset(FetchChunks(env, a, chunks, t).reply.rows) ==
            multiset(Matching(holds, SampledOver(stored, a.step, chunks), a.selector))
  {
    if |chunks| > 0 {
      ChunksAreMatching(holds, stored, env, a, chunks[1..], t + 1);
      ThoseAppend(stored.sampled(a.step, chunks[0]), SampledOver(stored, a.step, chunks[1..]),
                  row => Matches(holds, a.selector, row));
    }
  }

  /** What an attempt delivers is what its selector matches in its scope. */
  lemma FetchIsMatching(holds: (string, Row) -> bool, stored: Stored, env: Env, a: Attempt, t: nat)
    requires Honest(env, holds, stored) && Fetch(env, a, t).reply.Rows?
    ensures multiset(Fetch(env, a, t).reply.rows) == multiset(Matching(holds, Scope(stored, a), a.selector))
  {
    if a.useQueryRange { ChunksAreMatching(holds, stored, env, a, Chunks(a.range), t + 1); }
  }

  // ---- Exports that were only divided by job ----

  ghost predicate OnlyJobSplits(o: Outcome) { forall d :: d in Decisions(o.events) ==> d.strategy.SplitByJob? }

  /** After a retry that is recorded, or a division, the decision is in the record. */
  lemma DecisionIsRecorded(c: ExportConfig, env: Env, a: Attempt, t: nat, e: Failure)
    requires Fetch(env, a, t).reply.Broken? && Fetch(env, a, t).reply.failure == e
    requires PlanFor(c, a, e.kind).Retry? || PlanFor(c, a, e.kind).Divide?
    ensures PlanFor(c, a, e.kind).decision in Decisions(Export(c, env, a, t).events)
  {
    var f := Fetch(env, a, t);
    var p := PlanFor(c, a, e.kind);
    RetriesDescend(c, a, e.kind);
    match p
    case Retry(d, next) =>
      assert next in Successors(p);
      DecisionsAfterDecision(a, d, Export(c, env, next, f.clock).events);
    case Divide(d, children) => DecisionsAfterDecision(a, d, ExportDivided(c, env, a, children, f.clock).events);
  }

  /** A divided export is its children's, after the record of the decision. */
  lemma DivisionUnfolds(c: ExportConfig, env: Env, a: Attempt, t: nat, e: Failure)
    requires Fetch(env, a, t).reply.Broken? && Fetch(env, a, t).reply.failure == e
    requires PlanFor(c, a, e.kind).Divide? && Export(c, env, a, t).Ok()
    ensures forall x :: x in PlanFor(c, a, e.kind).children ==> Below(c, x, a)
    ensures var each := ExportEach(c, env, a, PlanFor(c, a, e.kind).children, Fetch(env, a, t).clock + 1);
            && each.Ok() && Export(c, env, a, t).added == each.added
            && Decisions(Export(c, env, a, t).events) == [PlanFor(c, a, e.kind).decision] + Decisions(each.events)
  {
    var f := Fetch(env, a, t);
    var p := PlanFor(c, a, e.kind);
    RetriesDescend(c, a, e.kind);
    DividedOk(c, env, a, p.children, f.clock);
    DecisionsAfterDecision(a, p.decision, ExportEach(c, env, a, p.children, f.clock + 1).events);
  }

  /** A single job, read without any retry. */
  lemma SingleJobDirect(holds: (string, Row) -> bool, stored: Stored, c: ExportConfig, env: Env, a: Attempt, t: nat)
    requires Honest(env, holds, stored) && |a.jobs| <= 1
    requires Export(c, env, a, t).Ok() && OnlyJobSplits(Export(c, env, a, t))
    ensures multiset(Export(c, env, a, t).added) == multiset(Matching(holds, Scope(stored, a), a.selector))
  {
    match Fetch(env, a, t).reply
    case Rows(rows) => FetchIsMatching(holds, stored, env, a, t);
    case Broken(_, e) =>
      if PlanFor(c, a, e.kind).Retry? || PlanFor(c, a, e.kind).Divide? { DecisionIsRecorded(c, env, a, t, e); }
  }

  /** The rows of some jobs that the query of a division selects. */
  predicate OfJobs(holds: (string, Row) -> bool, c: ExportConfig, jobs: seq<string>, row: Row) {
    row.job in jobs && (c.mode.Custom? ==> holds(c.query.text, row))
  }

  /** The children read from the same scope as an attempt for the whole configuration. */
  predicate SameScope(c: ExportConfig, a: Attempt) {
    SplitsByJob(c) && a.useQueryRange == (c.mode.Custom? && !CanNarrow(c.query))
  }

  lemma {:induction false} ChildrenConserve(
    holds: (string, Row) -> bool, stored: Stored, c: ExportConfig, env: Env, a: Attempt, jobs: seq<string>, t: nat)
    requires SameScope(c, a) && Honest(env, holds, stored) && Distinct(jobs)
    requires forall x :: x in JobChildren(c, a, jobs) ==> Below(c, x, a)
    requires ExportEach(c, env, a, JobChildren(c, a, jobs), t).Ok()
    requires OnlyJobSplits(ExportEach(c, env, a, JobChildren(c, a, jobs), t))
    ensures multiset(ExportEach(c, env, a, JobChildren(c, a, jobs), t).added) ==
            multiset(Those(Scope(stored, a), row => OfJobs(holds, c, jobs, row)))
    decreases |jobs|
  {
    if |jobs| == 0 {
      NoneOfThose(Scope(stored, a), row => OfJobs(holds, c, jobs, row));
    } else {
      var children := JobChildren(c, a, jobs);
      var child := children[0];
      assert child in children && children[1..] == JobChildren(c, a, jobs[1..]);
      var first := Export(c, env, child, t);
      var rest := ExportEach(c, env, a, children[1..], first.clock);
      DecisionsOfAppend(first.events, rest.events);
      OnlySplitsInBoth(first, rest);
      SingleJobDirect(holds, stored, c, env, child, t);
      JobChildScope(holds, stored, c, a, jobs[0]);
      ChildrenConserve(holds, stored, c, env, a, jobs[1..], first.clock);
      JobsSplit(holds, c, Scope(stored, a), jobs);
    }
  }

  lemma OnlySplitsInBoth(first: Outcome, rest: Outcome)
    requires OnlyJobSplits(rest.Following(first))
    ensures OnlyJobSplits(first) && OnlyJobSplits(rest)
  {
    DecisionsOfAppend(first.events, rest.events);
    assert forall d :: d in Decisions(first.events) ==> d in Decisions(first.events) + Decisions(rest.events);
    assert forall d :: d in Decisions(rest.events) ==> d in Decisions(first.events) + Decisions(rest.events);
  }

  lemma JobChildScope(holds: (string, Row) -> bool, stored: Stored, c: ExportConfig, a: Attempt, job: string)
    requires SameScope(c, a)
    ensures var child := JobChild(c, a, job);
            Matching(holds, Scope(stored, child), child.selector) ==
            Those(Scope(stored, a), row => OfJobs(holds, c, [job], row))
  {
    var child := JobChild(c, a, job);
    SameThose(Scope(stored, a), row => Matches(holds, child.selector, row), row => OfJobs(holds, c, [job], row));
  }

  lemma JobsSplit(holds: (string, Row) -> bool, c: ExportConfig, rows: seq<Row>, jobs: seq<string>)
    requires |jobs| > 0 && Distinct(jobs)
    ensures multiset(Those(rows, row => OfJobs(holds, c, jobs, row))) ==
            multiset(Those(rows, row => OfJobs(holds, c, [jobs[0]], row)))
            + multiset(Those(rows, row => OfJobs(holds, c, jobs[1..], row)))
  {
    assert jobs == [jobs[0]] + jobs[1..];
    assert jobs[0] !in jobs[1..];
    ThoseSplit(rows, row => OfJobs(holds, c, jobs, row), row => OfJobs(holds, c, [jobs[0]], row),
               row => OfJobs(holds, c, jobs[1..], row));
  }

  /** A division that is recorded as one by job is one. */
  lemma JobDivision(c: ExportConfig, a: Attempt, kind: ErrorKind)
    requires PlanFor(c, a, kind).Divide? && PlanFor(c, a, kind).decision.strategy.SplitByJob?
    ensures |a.jobs| > 1 && SplitsByJob(c) && PlanFor(c, a, kind).children == JobChildren(c, a, a.jobs)
  {
  }

  lemma RestOnlySplits(d: Decision, all: Outcome, each: Outcome)
    requires OnlyJobSplits(all) && Decisions(all.events) == [d] + Decisions(each.events)
    ensures OnlyJobSplits(each)
  {
    assert forall x :: x in Decisions(each.events) ==> x in [d] + Decisions(each.events);
  }

  lemma DivisionConserves(
    holds: (string, Row) -> bool, stored: Stored, c: ExportConfig, env: Env, a: Attempt, t: nat, e: Failure)
    requires SameScope(c, a) && Honest(env, holds, stored) && Distinct(a.jobs)
    requires Fetch(env, a, t).reply.Broken? && Fetch(env, a, t).reply.failure == e
    requires PlanFor(c, a, e.kind).Divide? && PlanFor(c, a, e.kind).decision.strategy.SplitByJob?
    requires Export(c, env, a, t).Ok() && OnlyJobSplits(Export(c, env, a, t))
    ensures multiset(Export(c, env, a, t).added) ==
            multiset(Those(Scope(stored, a), row => OfJobs(holds, c, a.jobs, row)))
  {
    var p, s := PlanFor(c, a, e.kind), Fetch(env, a, t).clock + 1;
    JobDivision(c, a, e.kind);
    DivisionUnfolds(c, env, a, t, e);
    RestOnlySplits(p.decision, Export(c, env, a, t), ExportEach(c, env, a, p.children, s));
    ChildrenConserve(holds, stored, c, env, a, a.jobs, s);
  }

  /** In every mode an export that was at most divided by job adds the same multiset of rows as the
      undivided request returns from the same data: those of its scope that are wanted. If it can be
      divided its job names must not be blank, nor its query if it is a custom one. */
  lemma JobSplitConservesRows(
    holds: (string, Row) -> bool, stored: Stored, c: ExportConfig, env: Env, tr: TimeRange, t: nat)
    requires SplitsByJob(c) ==> "" !in c.jobs && (c.mode.Custom? ==> c.query.text != "")
    requires Honest(env, holds, stored)
    requires Export(c, env, NewAttempt(c, tr), t).Ok() && OnlyJobSplits(Export(c, env, NewAttempt(c, tr), t))
    ensures multiset(Export(c, env, NewAttempt(c, tr), t).added) ==
            multiset(Those(Scope(stored, NewAttempt(c, tr)), row => Wanted(holds, c, row)))
  {
    var a := NewAttempt(c, tr);
    var rows := Scope(stored, a);
    UniqueStringsMeans(c.jobs);
    match Fetch(env, a, t).reply
    case Rows(_) =>
      FetchIsMatching(holds, stored, env, a, t);
      SameThose(rows, row => Matches(holds, a.selector, row), row => Wanted(holds, c, row));
    case Broken(_, e) =>
      var p := PlanFor(c, a, e.kind);
      if p.Retry? || p.Divide? { DecisionIsRecorded(c, env, a, t, e); }
      JobDivision(c, a, e.kind);
      assert a.jobs[0] in c.jobs;
      DivisionConserves(holds, stored, c, env, a, t, e);
      SameThose(rows, row => OfJobs(holds, c, a.jobs, row), row => Wanted(holds, c, row));
  }
}
