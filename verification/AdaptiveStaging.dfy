/** What an adaptive export leaves in the staging file, and which part of the request the
    successful attempts cover. */
module AdaptiveStaging {
  import opened Domain
  import opened Batching
  import opened AdaptiveExport
  import opened AdaptiveEvents
  import opened AdaptiveSelectors

  // ---- All or nothing ----

  /** An append that leaves a part of `rows` behind. */
  predicate TearsOff(append: Append, rows: seq<Row>) { append.Torn? && append.kept > 0 && rows != [] }

  /** The append to the given file itself tears: everything below it had succeeded. Tears in
      the appends to attempt files and split files below do not count. */
  predicate OwnTear(c: ExportConfig, env: Env, a: Attempt, t: nat)
    decreases JobsToSplit(a), FallbacksLeft(a), RungsLeft(c, a), DepthLeft(c, a)
  {
    var f := Fetch(env, a, t);
    match f.reply
    case Rows(rows) => TearsOff(env.append(f.clock), rows)
    case Broken(_, e) =>
      RetriesDescend(c, a, e.kind);
      match PlanFor(c, a, e.kind)
      case Retry(_, next) =>
        assert next in Successors(PlanFor(c, a, e.kind));
        OwnTear(c, env, next, f.clock)
      case Divide(_, children) => DividedTear(c, env, a, children, f.clock)
      case _ => false
  }

  predicate DividedTear(c: ExportConfig, env: Env, a: Attempt, children: seq<Attempt>, t: nat)
    requires forall x :: x in children ==> Below(c, x, a)
  {
    env.create(t).None? &&
    var o := ExportEach(c, env, a, children, t + 1);
    o.Ok() && TearsOff(env.append(o.clock), o.added)
  }

  /** On success the given file has gained exactly the rows of the kept attempts, and they
      are counted. A failure counts nothing, and leaves a part of those rows in the file
      exactly when its own append tore, which was then the last thing that happened. */
  ghost predicate AllOrNothing(env: Env, o: Outcome, t: nat, tear: bool) {
    && t < o.clock
    && o.added <= Output(Leaves(o.events))
    && (o.Ok() ==> o.added == Output(Leaves(o.events)) && o.count == |o.added|)
    && (!o.Ok() ==> o.count == 0 && (o.added != [] <==> tear) && (tear ==> env.append(o.clock - 1).Torn?))
  }

  lemma {:induction false} FetchTakesTime(env: Env, a: Attempt, chunks: seq<TimeRange>, t: nat)
    ensures FetchChunks(env, a, chunks, t).clock >= t
  {
    if |chunks| > 0 { FetchTakesTime(env, a, chunks[1..], t + 1); }
  }

  /** Appending what has succeeded so far. */
  lemma AppendedAllOrNothing(env: Env, o: Outcome, t: nat)
    requires t <= o.clock && o.Ok() && o.added == Output(Leaves(o.events)) && o.count == |o.added|
    ensures AllOrNothing(env, AppendTo(env, o), t, TearsOff(env.append(o.clock), o.added))
  {
  }

  /** The record of a decision in front changes nothing. */
  lemma DecidedAllOrNothing(env: Env, a: Attempt, d: Decision, o: Outcome, s: nat, t: nat, tear: bool)
    requires AllOrNothing(env, o, t, tear) && s <= t
    ensures AllOrNothing(env, o.After([Issued(a), Decided(d)]), s, tear)
  {
    LeavesAfterDecision(a, d, o.events);
  }

  /** At every nesting depth, for every environment, an export is all or nothing. */
  lemma {:induction false} StagingAllOrNothing(c: ExportConfig, env: Env, a: Attempt, t: nat)
    ensures AllOrNothing(env, Export(c, env, a, t), t, OwnTear(c, env, a, t))
    decreases JobsToSplit(a), FallbacksLeft(a), RungsLeft(c, a), DepthLeft(c, a), 2, 0
  {
    FetchTakesTime(env, a, Chunks(a.range), t + 1);
    var f := Fetch(env, a, t);
    match f.reply
    case Rows(rows) =>
      SuccessEvents(a, rows);
      AppendedAllOrNothing(env, Outcome(rows, |rows|, None, [Issued(a), Succeeded(a, rows)], f.clock), t);
    case Broken(_, e) =>
      RetriesDescend(c, a, e.kind);
      match PlanFor(c, a, e.kind) {
        case Retry(d, next) =>
          assert next in Successors(PlanFor(c, a, e.kind));
          StagingAllOrNothing(c, env, next, f.clock);
          DecidedAllOrNothing(env, a, d, Export(c, env, next, f.clock), t, f.clock, OwnTear(c, env, next, f.clock));
        case Divide(d, children) =>
          DividedAllOrNothing(c, env, a, children, f.clock);
          DecidedAllOrNothing(env, a, d, ExportDivided(c, env, a, children, f.clock), t, f.clock,
                              DividedTear(c, env, a, children, f.clock));
        case _ =>
      }
  }

  lemma {:induction false} DividedAllOrNothing(c: ExportConfig, env: Env, a: Attempt, children: seq<Attempt>, t: nat)
    requires forall x :: x in children ==> Below(c, x, a)
    ensures AllOrNothing(env, ExportDivided(c, env, a, children, t), t, DividedTear(c, env, a, children, t))
    decreases JobsToSplit(a), FallbacksLeft(a), RungsLeft(c, a), DepthLeft(c, a), 1, 0
  {
    EachAllOrNothing(c, env, a, children, t + 1);
    var o := ExportEach(c, env, a, children, t + 1);
    if env.create(t).None? && o.Ok() { AppendedAllOrNothing(env, o, t); }
  }

  lemma {:induction false} EachAllOrNothing(c: ExportConfig, env: Env, a: Attempt, children: seq<Attempt>, t: nat)
    requires forall x :: x in children ==> Below(c, x, a)
    ensures var o := ExportEach(c, env, a, children, t);
            t <= o.clock && (o.Ok() ==> o.added == Output(Leaves(o.events)) && o.count == |o.added|)
    decreases JobsToSplit(a), FallbacksLeft(a), RungsLeft(c, a), DepthLeft(c, a), 0, |children|
  {
    if |children| > 0 {
      assert Below(c, children[0], a);
      StagingAllOrNothing(c, env, children[0], t);
      var first := Export(c, env, children[0], t);
      if first.Ok() {
        EachAllOrNothing(c, env, a, children[1..], first.clock);
        var rest := ExportEach(c, env, a, children[1..], first.clock);
        LeavesOfAppend(first.events, rest.events);
        OutputOfAppend(Leaves(first.events), Leaves(rest.events));
      }
    }
  }

  // ---- Coverage ----

  /** The selector of the attempt selects `row` and its window contains `x`. */
  predicate AsksFor(holds: (string, Row) -> bool, a: Attempt, row: Row, x: int) {
    Matches(holds, a.selector, row) && a.range.Contains(x)
  }

  /** How many successful attempts ask for `row` at instant `x`. */
  function Hits(holds: (string, Row) -> bool, leaves: seq<Leaf>, row: Row, x: int): nat {
    if |leaves| == 0 then 0
    else (if AsksFor(holds, leaves[0].attempt, row, x) then 1 else 0) + Hits(holds, leaves[1..], row, x)
  }

  function HitsOf(holds: (string, Row) -> bool, attempts: seq<Attempt>, row: Row, x: int): nat {
    if |attempts| == 0 then 0
    else (if AsksFor(holds, attempts[0], row, x) then 1 else 0) + HitsOf(holds, attempts[1..], row, x)
  }

  lemma {:induction false} HitsAppend(holds: (string, Row) -> bool, u: seq<Leaf>, v: seq<Leaf>, row: Row, x: int)
    ensures Hits(holds, u + v, row, x) == Hits(holds, u, row, x) + Hits(holds, v, row, x)
  {
    if |u| == 0 {
      assert u + v == v;
    } else {
      assert (u + v)[0] == u[0] && (u + v)[1..] == u[1..] + v;
      HitsAppend(holds, u[1..], v, row, x);
    }
  }

  /** An attempt for several jobs is for the jobs, and with the selector, of the configuration. */
  predicate Undivided(c: ExportConfig, a: Attempt) {
    |a.jobs| > 1 ==> a.jobs == UniqueStrings(c.jobs) && a.selector == NewAttempt(c, a.range).selector
  }

  lemma {:induction false} JobChildrenShape(c: ExportConfig, parent: Attempt, jobs: seq<string>)
    requires SplitsByJob(c)
    ensures forall x :: x in JobChildren(c, parent, jobs) ==>
              |x.jobs| == 1 && x.step == parent.step && x.range == parent.range
  {
    if |jobs| > 0 { JobChildrenShape(c, parent, jobs[1..]); }
  }

  lemma {:induction false} HitsAreMatches(
    holds: (string, Row) -> bool, attempts: seq<Attempt>, range: TimeRange, row: Row, x: int)
    requires forall a :: a in attempts ==> a.range == range
    ensures HitsOf(holds, attempts, row, x) == if range.Contains(x) then MatchCount(holds, attempts, row) else 0
  {
    if |attempts| > 0 {
      assert attempts[0] in attempts;
      HitsAreMatches(holds, attempts[1..], range, row, x);
    }
  }

  /** A division keeps the request: the children ask for each row and instant exactly as often
      as the parent. */
  lemma DivisionKeepsRequest(
    holds: (string, Row) -> bool, c: ExportConfig, a: Attempt, kind: ErrorKind, row: Row, x: int)
    requires Undivided(c, a) && SafeToDivide(c, row) && PlanFor(c, a, kind).Divide?
    ensures HitsOf(holds, PlanFor(c, a, kind).children, row, x) == if AsksFor(holds, a, row, x) then 1 else 0
  {
    var p := PlanFor(c, a, kind);
    var children := p.children;
    if p.decision.strategy.SplitByJob? {
      JobChildrenShape(c, a, a.jobs);
      HitsAreMatches(holds, children, a.range, row, x);
      DivisionSelects(holds, c, a, row);
      NewAttemptSelects(holds, c, a.range, row);
    } else {
      assert children[1..][1..] == [];
      assert HitsOf(holds, children[1..], row, x) == if AsksFor(holds, children[1], row, x) then 1 else 0;
    }
  }

  lemma SuccessorsAreUndivided(c: ExportConfig, a: Attempt, kind: ErrorKind)
    requires Undivided(c, a)
    ensures forall x :: x in Successors(PlanFor(c, a, kind)) ==> Undivided(c, x)
  {
    if SplitsByJob(c) { JobChildrenShape(c, a, a.jobs); }
  }

  /** A retry asks for what the failed attempt asked for. */
  lemma RetryKeepsRequest(
    holds: (string, Row) -> bool, c: ExportConfig, a: Attempt, kind: ErrorKind, row: Row, x: int)
    requires PlanFor(c, a, kind).Retry?
    ensures AsksFor(holds, PlanFor(c, a, kind).next, row, x) <==> AsksFor(holds, a, row, x)
  {
  }

  /** A successful export covers the request exactly once, however it was retried: every row the
      first attempt selected is selected, at each instant of its window, by exactly one of the
      attempts that were kept, and nothing else is. */
  lemma {:induction false} SuccessCoversOnce(
    holds: (string, Row) -> bool, c: ExportConfig, env: Env, a: Attempt, t: nat, row: Row, x: int)
    requires Undivided(c, a) && SafeToDivide(c, row) && Export(c, env, a, t).Ok()
    ensures Hits(holds, Leaves(Export(c, env, a, t).events), row, x) == if AsksFor(holds, a, row, x) then 1 else 0
    decreases JobsToSplit(a), FallbacksLeft(a), RungsLeft(c, a), DepthLeft(c, a), 1, 0
  {
    var f := Fetch(env, a, t);
    match f.reply
    case Rows(rows) =>
      SuccessEvents(a, rows);
      assert [Leaf(a, rows)][1..] == [];
    case Broken(_, e) =>
      RetriesDescend(c, a, e.kind);
      SuccessorsAreUndivided(c, a, e.kind);
      match PlanFor(c, a, e.kind) {
        case Retry(d, next) =>
          assert next in Successors(PlanFor(c, a, e.kind));
          RetryKeepsRequest(holds, c, a, e.kind, row, x);
          SuccessCoversOnce(holds, c, env, next, f.clock, row, x);
          LeavesAfterDecision(a, d, Export(c, env, next, f.clock).events);
        case Divide(d, children) =>
          DivisionKeepsRequest(holds, c, a, e.kind, row, x);
          DividedOk(c, env, a, children, f.clock);
          EachCoversOnce(holds, c, env, a, children, f.clock + 1, row, x);
          LeavesAfterDecision(a, d, ExportDivided(c, env, a, children, f.clock).events);
        case _ =>
      }
  }

  lemma {:induction false} EachCoversOnce(
    holds: (string, Row) -> bool, c: ExportConfig, env: Env, a: Attempt, children: seq<Attempt>, t: nat, row: Row,
    x: int)
    requires (forall y :: y in children ==> Below(c, y, a) && Undivided(c, y)) && SafeToDivide(c, row)
    requires ExportEach(c, env, a, children, t).Ok()
    ensures Hits(holds, Leaves(ExportEach(c, env, a, children, t).events), row, x) == HitsOf(holds, children, row, x)
    decreases JobsToSplit(a), FallbacksLeft(a), RungsLeft(c, a), DepthLeft(c, a), 0, |children|
  {
    if |children| > 0 {
      assert children[0] in children;
      SuccessCoversOnce(holds, c, env, children[0], t, row, x);
      var first := Export(c, env, children[0], t);
      EachCoversOnce(holds, c, env, a, children[1..], first.clock, row, x);
      var rest := ExportEach(c, env, a, children[1..], first.clock);
      LeavesOfAppend(first.events, rest.events);
      HitsAppend(holds, Leaves(first.events), Leaves(rest.events), row, x);
    }
  }

  // ---- The order of the windows ----

  /** The configuration never divides an attempt by job. */
  predicate NeverSplitsByJob(c: ExportConfig, a: Attempt) { |a.jobs| <= 1 || !SplitsByJob(c) }

  /** When nothing is divided by job, the windows of the successful attempts form one chain
      over the requested window. */
  lemma {:induction false} SuccessIsChain(c: ExportConfig, env: Env, a: Attempt, t: nat)
    requires NeverSplitsByJob(c, a) && a.range.start < a.range.end
    requires Export(c, env, a, t).Ok()
    ensures Chain(Ranges(Leaves(Export(c, env, a, t).events)), a.range.start, a.range.end)
    decreases JobsToSplit(a), FallbacksLeft(a), RungsLeft(c, a), DepthLeft(c, a), 1
  {
    var f := Fetch(env, a, t);
    match f.reply
    case Rows(rows) =>
      SuccessEvents(a, rows);
      assert [a.range][1..] == [];
    case Broken(_, e) =>
      RetriesDescend(c, a, e.kind);
      match PlanFor(c, a, e.kind) {
        case Retry(d, next) =>
          assert next in Successors(PlanFor(c, a, e.kind));
          SuccessIsChain(c, env, next, f.clock);
          LeavesAfterDecision(a, d, Export(c, env, next, f.clock).events);
        case Divide(d, children) =>
          DividedOk(c, env, a, children, f.clock);
          HalvesAreChain(c, env, a, children, f.clock + 1);
          LeavesAfterDecision(a, d, ExportDivided(c, env, a, children, f.clock).events);
        case _ =>
      }
  }

  lemma {:induction false} HalvesAreChain(c: ExportConfig, env: Env, a: Attempt, children: seq<Attempt>, t: nat)
    requires |children| == 2
    requires forall y :: y in children ==> Below(c, y, a) && NeverSplitsByJob(c, y) && y.range.start < y.range.end
    requires children[0].range.start == a.range.start && children[1].range.end == a.range.end
    requires children[0].range.end == children[1].range.start
    requires ExportEach(c, env, a, children, t).Ok()
    ensures Chain(Ranges(Leaves(ExportEach(c, env, a, children, t).events)), a.range.start, a.range.end)
    decreases JobsToSplit(a), FallbacksLeft(a), RungsLeft(c, a), DepthLeft(c, a), 0
  {
    assert children[0] in children && children[1] in children;
    var first := Export(c, env, children[0], t);
    SuccessIsChain(c, env, children[0], t);
    var second := Export(c, env, children[1], first.clock);
    assert children[1..][0] == children[1] && children[1..][1..] == [];
    var rest := ExportEach(c, env, a, children[1..], first.clock);
    var end := ExportEach(c, env, a, children[1..][1..], second.clock);
    assert end == Outcome([], 0, None, [], second.clock);
    assert rest.events == second.events;
    SuccessIsChain(c, env, children[1], first.clock);
    LeavesOfAppend(first.events, rest.events);
    RangesOfAppend(Leaves(first.events), Leaves(rest.events));
    ChainAppend(Ranges(Leaves(first.events)), Ranges(Leaves(rest.events)), a.range.start, children[0].range.end,
                a.range.end);
  }
}
