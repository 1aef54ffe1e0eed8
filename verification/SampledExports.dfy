/** When the archive's `sampled` means that some row was sampled. */
module SampledExports {
  import opened Domain
  import opened Batching
  import opened ExportDefaults
  import opened AdaptiveExport
  import opened AdaptiveEvents
  import opened AdaptiveSampling
  import opened ExportExecution

  /** The configuration lets the engine raise the step and divide by job after that, into
      children that read unsampled. */
  predicate MayRaiseThenDivide(c: ExportConfig) {
    DividesToRaw(c, UniqueStrings(c.jobs)) && NextAutopilotStep(c.metricStepSeconds, c.safety).Some?
  }

  /** A raised step is witnessed by a query_range read. */
  ghost predicate RaisedIsRanged(events: seq<Event>) {
    SomeCoarser(Decisions(events)) ==> SomeQueryRange(Leaves(events))
  }

  lemma RaisedIsRangedAppend(x: seq<Event>, y: seq<Event>)
    requires RaisedIsRanged(x) && RaisedIsRanged(y)
    ensures RaisedIsRanged(x + y)
  {
    LeavesOfAppend(x, y);
    DecisionsOfAppend(x, y);
    if SomeCoarser(Decisions(x + y)) {
      var d :| d in Decisions(x + y) && d.strategy.IncreaseStep?;
      assert d in Decisions(x) || d in Decisions(y);
      if d in Decisions(x) {
        var l :| l in Leaves(x) && l.attempt.useQueryRange;
        assert l in Leaves(x + y);
      } else {
        var l :| l in Leaves(y) && l.attempt.useQueryRange;
        assert l in Leaves(x + y);
      }
    }
  }

  // ---- Without a step to raise ----

  lemma {:induction false} NothingRaised(c: ExportConfig, env: Env, a: Attempt, t: nat)
    requires NextAutopilotStep(a.step, c.safety).None?
    ensures !SomeCoarser(Decisions(Export(c, env, a, t).events))
    decreases JobsToSplit(a), FallbacksLeft(a), RungsLeft(c, a), DepthLeft(c, a), 1, 0
  {
    var f := Fetch(env, a, t);
    match f.reply
    case Rows(rows) => SuccessEvents(a, rows);
    case Broken(_, e) =>
      RetriesDescend(c, a, e.kind);
      OneEvent(Issued(a));
      match PlanFor(c, a, e.kind) {
        case GiveUp =>
        case CannotDivide(d) => DecisionEvents(a, d);
        case Retry(d, next) =>
          assert next in Successors(PlanFor(c, a, e.kind));
          NothingRaised(c, env, next, f.clock);
          DecisionsAfterDecision(a, d, Export(c, env, next, f.clock).events);
        case Divide(d, children) =>
          ChildrenKeepStep(c, a, e.kind);
          NothingRaisedInEach(c, env, a, children, f.clock + 1);
          DecisionsAfterDecision(a, d, ExportDivided(c, env, a, children, f.clock).events);
      }
  }

  lemma {:induction false} NothingRaisedInEach(c: ExportConfig, env: Env, a: Attempt, children: seq<Attempt>, t: nat)
    requires forall x :: x in children ==> Below(c, x, a) && NextAutopilotStep(x.step, c.safety).None?
    ensures !SomeCoarser(Decisions(ExportEach(c, env, a, children, t).events))
    decreases JobsToSplit(a), FallbacksLeft(a), RungsLeft(c, a), DepthLeft(c, a), 0, |children|
  {
    if |children| > 0 {
      assert children[0] in children;
      NothingRaised(c, env, children[0], t);
      var first := Export(c, env, children[0], t);
      if first.Ok() {
        NothingRaisedInEach(c, env, a, children[1..], first.clock);
        DecisionsOfAppend(first.events, ExportEach(c, env, a, children[1..], first.clock).events);
      }
    }
  }

  // ---- Without a division into unsampled reads ----

  lemma RangedIsSome(o: Outcome)
    requires Ranged(o) && o.Ok()
    ensures SomeQueryRange(Leaves(o.events))
  {
    assert Leaves(o.events)[0] in Leaves(o.events);
  }

  /** A step is only raised on query_range, and what follows stays there. */
  lemma {:induction false} RaisedStaysRanged(c: ExportConfig, env: Env, a: Attempt, t: nat)
    requires a.depth >= 0 && !DividesToRaw(c, a.jobs) && Export(c, env, a, t).Ok()
    ensures RaisedIsRanged(Export(c, env, a, t).events)
    decreases JobsToSplit(a), FallbacksLeft(a), RungsLeft(c, a), DepthLeft(c, a), 1, 0
  {
    if a.useQueryRange {
      StaysOnQueryRange(c, env, a, t);
      RangedIsSome(Export(c, env, a, t));
    } else {
      var f := Fetch(env, a, t);
      match f.reply {
        case Rows(rows) => SuccessEvents(a, rows);
        case Broken(_, e) =>
          RetriesDescend(c, a, e.kind);
          match PlanFor(c, a, e.kind) {
            case Retry(d, next) =>
              assert next in Successors(PlanFor(c, a, e.kind));
              StaysOnQueryRange(c, env, next, f.clock);
              RangedIsSome(Export(c, env, next, f.clock));
              LeavesAfterDecision(a, d, Export(c, env, next, f.clock).events);
            case Divide(d, children) =>
              JobChildrenKeepMode(c, a, a.jobs);
              DividedOk(c, env, a, children, f.clock);
              RaisedInEachStaysRanged(c, env, a, children, f.clock + 1);
              DecisionEvents(a, d);
              RaisedIsRangedAppend([Issued(a), Decided(d)], ExportEach(c, env, a, children, f.clock + 1).events);
            case _ =>
          }
      }
    }
  }

  lemma {:induction false} RaisedInEachStaysRanged(c: ExportConfig, env: Env, a: Attempt, children: seq<Attempt>,
                                                   t: nat)
    requires forall x :: x in children ==> Below(c, x, a) && x.depth >= 0 && !DividesToRaw(c, x.jobs)
    requires ExportEach(c, env, a, children, t).Ok()
    ensures RaisedIsRanged(ExportEach(c, env, a, children, t).events)
    decreases JobsToSplit(a), FallbacksLeft(a), RungsLeft(c, a), DepthLeft(c, a), 0, |children|
  {
    if |children| > 0 {
      assert children[0] in children;
      RaisedStaysRanged(c, env, children[0], t);
      var first := Export(c, env, children[0], t);
      RaisedInEachStaysRanged(c, env, a, children[1..], first.clock);
      RaisedIsRangedAppend(first.events, ExportEach(c, env, a, children[1..], first.clock).events);
    }
  }

  lemma {:induction false} BatchesStayRanged(c: ExportConfig, env: Env, windows: seq<TimeRange>, i: nat, t: nat)
    requires !MayRaiseThenDivide(c) && RunBatches(c, env, windows, i, t).outcome.Ok()
    ensures RaisedIsRanged(RunBatches(c, env, windows, i, t).outcome.events)
    decreases |windows| - i
  {
    if i < |windows| {
      var a := NewAttempt(c, windows[i]);
      var o := Export(c, env, a, t + 1);
      if NextAutopilotStep(c.metricStepSeconds, c.safety).None? {
        NothingRaised(c, env, a, t + 1);
      } else {
        RaisedStaysRanged(c, env, a, t + 1);
      }
      BatchesStayRanged(c, env, windows, i + 1, o.clock);
      RaisedIsRangedAppend(o.events, RunBatches(c, env, windows, i + 1, o.clock).outcome.events);
    }
  }

  // ---- An adversary ----

  /** No export route for several jobs together, a timeout at step `low`, too many series at
      any other step; a single job can be read. */
  function Adversary(low: int): Env {
    Env(n => None,
        (n, a: Attempt) => if |a.jobs| == 1 then Rows([Row(a.jobs[0], "x")])
                           else Broken([], Failure(MissingRoute, false)),
        (n, a: Attempt, chunk) => Broken([], Failure(if a.step == low then QueryTimeout else TooManySeries, false)),
        n => Whole,
        n => None,
        n => false,
        n => None)
  }

  /** Success, and every row read from the export API. */
  ghost predicate ReadsRaw(o: Outcome) { o.Ok() && forall l :: l in Leaves(o.events) ==> !l.attempt.useQueryRange }

  /** The same, although the step was raised. */
  ghost predicate RaisesForNothing(o: Outcome) { ReadsRaw(o) && SomeCoarser(Decisions(o.events)) }

  lemma AdversaryFetch(low: int, a: Attempt, t: nat)
    requires a.range.start < a.range.end
    ensures var reply := Fetch(Adversary(low), a, t).reply;
            if a.useQueryRange then
              reply.Broken? && reply.failure.kind == if a.step == low then QueryTimeout else TooManySeries
            else if |a.jobs| == 1 then reply.Rows? else reply.Broken? && reply.failure.kind == MissingRoute
  {
    assert |Chunks(a.range)| > 0;
  }

  lemma ReadsRawAppend(x: seq<Event>, y: seq<Event>)
    requires forall l :: l in Leaves(x) ==> !l.attempt.useQueryRange
    requires forall l :: l in Leaves(y) ==> !l.attempt.useQueryRange
    ensures forall l :: l in Leaves(x + y) ==> !l.attempt.useQueryRange
    ensures SomeCoarser(Decisions(x + y)) <==> SomeCoarser(Decisions(x)) || SomeCoarser(Decisions(y))
  {
    LeavesOfAppend(x, y);
    DecisionsOfAppend(x, y);
    assert forall d :: d in Decisions(x) + Decisions(y) <==> d in Decisions(x) || d in Decisions(y);
  }

  /** From time `t` on files work and single jobs can be read. */
  ghost predicate Serves(env: Env, t: nat) {
    && (forall n :: n >= t ==> env.local(n).None? && env.append(n).Whole? && env.create(n).None?)
    && (forall n, a: Attempt :: |a.jobs| == 1 ==> env.fetch(n, a).Rows?)
  }

  lemma ChildServed(env: Env, c: ExportConfig, x: Attempt, t: nat)
    requires Serves(env, t) && |x.jobs| == 1 && !x.useQueryRange
    ensures ReadsRaw(Export(c, env, x, t)) && Export(c, env, x, t).clock >= t
  {
    SuccessEvents(x, Fetch(env, x, t).reply.rows);
  }

  /** One raw read per job. */
  lemma {:induction false} ChildrenServed(c: ExportConfig, env: Env, a: Attempt, jobs: seq<string>, t: nat)
    requires RawChildren(c) && Serves(env, t)
    requires forall x :: x in JobChildren(c, a, jobs) ==> Below(c, x, a)
    ensures ReadsRaw(ExportEach(c, env, a, JobChildren(c, a, jobs), t))
    ensures ExportEach(c, env, a, JobChildren(c, a, jobs), t).clock >= t
    decreases |jobs|
  {
    if |jobs| > 0 {
      var children := JobChildren(c, a, jobs);
      JobChildrenKeepMode(c, a, jobs);
      assert children[0] in children && children[1..] == JobChildren(c, a, jobs[1..]);
      ChildServed(env, c, children[0], t);
      var first := Export(c, env, children[0], t);
      ChildrenServed(c, env, a, jobs[1..], first.clock);
      ReadsRawAppend(first.events, ExportEach(c, env, a, children[1..], first.clock).events);
    }
  }

  /** Too many series for several jobs on query_range: they are divided. */
  lemma DividesIntoReads(c: ExportConfig, env: Env, a: Attempt, t: nat)
    requires DividesToRaw(c, a.jobs) && a.useQueryRange && a.depth == 0
    requires Fetch(env, a, t).reply.Broken? && Fetch(env, a, t).reply.failure.kind == TooManySeries
    requires Serves(env, Fetch(env, a, t).clock)
    ensures ReadsRaw(Export(c, env, a, t))
  {
    RetriesDescend(c, a, TooManySeries);
    var f, p := Fetch(env, a, t), PlanFor(c, a, TooManySeries);
    ChildrenServed(c, env, a, a.jobs, f.clock + 1);
    DecisionEvents(a, p.decision);
    ReadsRawAppend([Issued(a), Decided(p.decision)], ExportEach(c, env, a, p.children, f.clock + 1).events);
  }

  /** At the raised step the jobs are divided. */
  lemma AdversaryDivides(c: ExportConfig, low: int, a: Attempt, t: nat)
    requires DividesToRaw(c, a.jobs) && a.useQueryRange && a.depth == 0 && a.step != low && a.range.start < a.range.end
    ensures ReadsRaw(Export(c, Adversary(low), a, t))
  {
    AdversaryFetch(low, a, t);
    DividesIntoReads(c, Adversary(low), a, t);
  }

  /** The record of a decision in front. */
  lemma DecidedBefore(a: Attempt, d: Decision, o: Outcome)
    requires ReadsRaw(o)
    ensures ReadsRaw(o.After([Issued(a), Decided(d)]))
    ensures SomeCoarser(Decisions(o.After([Issued(a), Decided(d)]).events)) <==>
            d.strategy.IncreaseStep? || SomeCoarser(Decisions(o.events))
  {
    DecisionEvents(a, d);
    ReadsRawAppend([Issued(a), Decided(d)], o.events);
    assert d in [d];
  }

  lemma NextStepIsAbove(c: ExportConfig, step: int)
    requires NextAutopilotStep(step, c.safety).Some?
    ensures NextAutopilotStep(step, c.safety).value > step
  {
    FirstAboveIsOnLadder(Ladder(c.safety.stepLadderSeconds, c.safety.maxStepSeconds), step);
  }

  /** At the first step the window is halved as long as that is possible; then the step is raised. */
  lemma {:induction false} AdversaryRaises(c: ExportConfig, a: Attempt, t: nat)
    requires DividesToRaw(c, a.jobs) && NextAutopilotStep(a.step, c.safety).Some? && a.useQueryRange
             && a.range.start < a.range.end
    ensures RaisesForNothing(Export(c, Adversary(a.step), a, t))
    decreases DepthLeft(c, a)
  {
    var env := Adversary(a.step);
    AdversaryFetch(a.step, a, t);
    RetriesDescend(c, a, QueryTimeout);
    var f := Fetch(env, a, t);
    match PlanFor(c, a, QueryTimeout)
    case Retry(d, next) =>
      NextStepIsAbove(c, a.step);
      assert next in Successors(PlanFor(c, a, QueryTimeout));
      AdversaryDivides(c, a.step, next, f.clock);
      DecidedBefore(a, d, Export(c, env, next, f.clock));
    case Divide(d, halves) =>
      assert halves[0] in halves && halves[1] in halves;
      AdversaryRaises(c, halves[0], f.clock + 1);
      var first := Export(c, env, halves[0], f.clock + 1);
      AdversaryRaises(c, halves[1], first.clock);
      AdversaryHalves(c, a, halves, f.clock + 1);
      DecidedBefore(a, d, ExportEach(c, env, a, halves, f.clock + 1));
  }

  lemma AdversaryHalves(c: ExportConfig, a: Attempt, halves: seq<Attempt>, t: nat)
    requires |halves| == 2 && forall x :: x in halves ==> Below(c, x, a)
    requires RaisesForNothing(Export(c, Adversary(a.step), halves[0], t))
    requires RaisesForNothing(Export(c, Adversary(a.step), halves[1], Export(c, Adversary(a.step), halves[0], t).clock))
    ensures RaisesForNothing(ExportEach(c, Adversary(a.step), a, halves, t))
  {
    var env := Adversary(a.step);
    var first := Export(c, env, halves[0], t);
    var second := Export(c, env, halves[1], first.clock);
    assert halves[1..][0] == halves[1] && halves[1..][1..] == [];
    var end := ExportEach(c, env, a, halves[1..][1..], second.clock);
    assert end == Outcome([], 0, None, [], second.clock);
    var rest := ExportEach(c, env, a, halves[1..], first.clock);
    assert rest.events == second.events;
    ReadsRawAppend(first.events, rest.events);
  }

  /** A new attempt finds no export route and falls back on query_range. */
  lemma AdversaryStarts(c: ExportConfig, window: TimeRange, t: nat)
    requires MayRaiseThenDivide(c) && window.start < window.end
    ensures RaisesForNothing(Export(c, Adversary(c.metricStepSeconds), NewAttempt(c, window), t))
  {
    var a := NewAttempt(c, window);
    AdversaryFetch(a.step, a, t);
    RetriesDescend(c, a, MissingRoute);
    var f := Fetch(Adversary(a.step), a, t);
    match PlanFor(c, a, MissingRoute)
    case Retry(d, next) =>
      assert next in Successors(PlanFor(c, a, MissingRoute));
      AdversaryRaises(c, next, f.clock);
      DecidedBefore(a, d, Export(c, Adversary(a.step), next, f.clock));
    case _ =>
  }

  lemma {:induction false} AdversaryBatches(c: ExportConfig, windows: seq<TimeRange>, i: nat, t: nat)
    requires MayRaiseThenDivide(c) && forall w :: w in windows ==> w.start < w.end
    ensures ReadsRaw(RunBatches(c, Adversary(c.metricStepSeconds), windows, i, t).outcome)
    ensures i < |windows| ==> RaisesForNothing(RunBatches(c, Adversary(c.metricStepSeconds), windows, i, t).outcome)
    decreases |windows| - i
  {
    if i < |windows| {
      var env := Adversary(c.metricStepSeconds);
      AdversaryStarts(c, windows[i], t + 1);
      var o := Export(c, env, NewAttempt(c, windows[i]), t + 1);
      AdversaryBatches(c, windows, i + 1, o.clock);
      ReadsRawAppend(o.events, RunBatches(c, env, windows, i + 1, o.clock).outcome.events);
    }
  }

  // ---- A range that is empty ----

  /** Opening, flushing or closing a file fails with an error that is not one of a query. */
  ghost predicate LocalErrors(env: Env) {
    forall n :: env.local(n).Some? ==> env.local(n).value.kind.UnknownError? || env.local(n).value.kind.Transient?
  }

  /** On an empty range query_range asks nothing, so it does not time out. */
  lemma EmptyRangeFetch(env: Env, a: Attempt, t: nat)
    requires LocalErrors(env) && a.range.start >= a.range.end && a.useQueryRange
    ensures var reply := Fetch(env, a, t).reply;
            reply.Rows? || reply.failure.kind.UnknownError? || reply.failure.kind.Transient?
  {
    assert Chunks(a.range) == [];
  }

  /** What is planned after an error that is not a timeout of query_range raises no step, and stays
      on the range. */
  lemma PlanRaisesNothing(c: ExportConfig, a: Attempt, kind: ErrorKind)
    requires !(kind.QueryTimeout? && a.useQueryRange)
    ensures var p := PlanFor(c, a, kind);
            && (!p.GiveUp? ==> !p.decision.strategy.IncreaseStep?)
            && (forall x :: x in Successors(p) ==> Below(c, x, a) && x.range == a.range)
  {
    RetriesDescend(c, a, kind);
    if SplitsByJob(c) { JobChildrenKeepMode(c, a, a.jobs); }
  }

  lemma RaisesNothingAfter(a: Attempt, d: Decision, o: Outcome)
    requires !d.strategy.IncreaseStep? && !SomeCoarser(Decisions(o.events))
    ensures !SomeCoarser(Decisions(o.After([Issued(a), Decided(d)]).events))
  {
    DecisionsAfterDecision(a, d, o.events);
  }

  lemma {:induction false} EmptyRangeRaisesNothing(c: ExportConfig, env: Env, a: Attempt, t: nat)
    requires LocalErrors(env) && a.range.start >= a.range.end
    ensures !SomeCoarser(Decisions(Export(c, env, a, t).events))
    decreases JobsToSplit(a), FallbacksLeft(a), RungsLeft(c, a), DepthLeft(c, a), 1, 0
  {
    if a.useQueryRange { EmptyRangeFetch(env, a, t); }
    var f := Fetch(env, a, t);
    match f.reply
    case Rows(rows) => SuccessEvents(a, rows);
    case Broken(_, e) =>
      PlanRaisesNothing(c, a, e.kind);
      match PlanFor(c, a, e.kind) {
        case GiveUp => OneEvent(Issued(a));
        case CannotDivide(d) => DecisionEvents(a, d);
        case Retry(d, next) =>
          assert next in Successors(PlanFor(c, a, e.kind));
          EmptyRangeRaisesNothing(c, env, next, f.clock);
          RaisesNothingAfter(a, d, Export(c, env, next, f.clock));
        case Divide(d, children) =>
          EmptyRangesRaiseNothing(c, env, a, children, f.clock + 1);
          RaisesNothingAfter(a, d, ExportDivided(c, env, a, children, f.clock));
      }
  }

  lemma {:induction false} EmptyRangesRaiseNothing(c: ExportConfig, env: Env, a: Attempt, children: seq<Attempt>,
                                                   t: nat)
    requires LocalErrors(env) && forall x :: x in children ==> Below(c, x, a) && x.range.start >= x.range.end
    ensures !SomeCoarser(Decisions(ExportEach(c, env, a, children, t).events))
    decreases JobsToSplit(a), FallbacksLeft(a), RungsLeft(c, a), DepthLeft(c, a), 0, |children|
  {
    if |children| > 0 {
      assert children[0] in children;
      EmptyRangeRaisesNothing(c, env, children[0], t);
      var first := Export(c, env, children[0], t);
      if first.Ok() {
        EmptyRangesRaiseNothing(c, env, a, children[1..], first.clock);
        DecisionsOfAppend(first.events, ExportEach(c, env, a, children[1..], first.clock).events);
      }
    }
  }

  lemma EmptyRangeBatch(c: ExportConfig, env: Env, window: TimeRange, t: nat)
    requires LocalErrors(env) && window.start >= window.end && RunBatches(c, env, [window], 0, t).outcome.Ok()
    ensures !SomeCoarser(Decisions(RunBatches(c, env, [window], 0, t).outcome.events))
  {
    EmptyRangeRaisesNothing(c, env, NewAttempt(c, window), t + 1);
    var o := Export(c, env, NewAttempt(c, window), t + 1);
    var rest := RunBatches(c, env, [window], 1, o.clock);
    assert rest == BatchRun(Outcome([], 0, None, [], o.clock), []);
    assert o.events + [] == o.events;
  }

  // ---- Whole exports ----

  /** In this run `sampled` says whether some row came from query_range. */
  ghost predicate SampledIsTrue(config: ExportConfig, env: Env, staging: Option<seq<Row>>, t: nat) {
    var x := Execute(config, env, staging, t);
    x.result.Some? ==> (x.result.value.stats.sampled <==> SomeQueryRange(Leaves(x.events)))
  }

  lemma SampledHolds(config: ExportConfig, env: Env, staging: Option<seq<Row>>, t: nat)
    requires !MayRaiseThenDivide(ServiceDefaults(config))
    ensures SampledIsTrue(config, env, staging, t)
  {
    if Execute(config, env, staging, t).result.Some? {
      var c := ServiceDefaults(config);
      var windows := BatchWindows(c.timeRange, c.batching);
      ExportRecordsLargestStep(config, env, staging, t);
      BatchesStayRanged(c, env, windows, StartIndex(c, |windows|), t + 1);
    }
  }

  lemma {:induction false} ChainIsNonEmpty(ws: seq<TimeRange>, lo: int, hi: int)
    requires Chain(ws, lo, hi)
    ensures forall w :: w in ws ==> w.start < w.end
  {
    if |ws| > 0 {
      assert ws == [ws[0]] + ws[1..];
      ChainIsNonEmpty(ws[1..], ws[0].end, hi);
    }
  }

  lemma SampledHoldsOnEmptyRange(config: ExportConfig, env: Env, staging: Option<seq<Row>>, t: nat)
    requires LocalErrors(env) && config.timeRange.start >= config.timeRange.end
    ensures SampledIsTrue(config, env, staging, t)
  {
    if Execute(config, env, staging, t).result.Some? {
      ExportRecordsLargestStep(config, env, staging, t);
      EmptyRangeBatch(ServiceDefaults(config), env, config.timeRange, t + 1);
    }
  }

  /** A run in which `sampled` is recorded although every row was read unsampled. */
  lemma SampledWithoutSampledRows(config: ExportConfig)
    requires MayRaiseThenDivide(ServiceDefaults(config)) && config.timeRange.start < config.timeRange.end
    ensures var env := Adversary(ServiceDefaults(config).metricStepSeconds);
            var x := Execute(config, env, None, 0);
            LocalErrors(env) && x.result.Some? && x.result.value.stats.sampled && !SomeQueryRange(Leaves(x.events))
  {
    var c := ServiceDefaults(config);
    var windows := BatchWindows(c.timeRange, c.batching);
    BatchWindowsTile(c.timeRange, c.batching);
    ChainIsNonEmpty(windows, c.timeRange.start, c.timeRange.end);
    AdversaryBatches(c, windows, StartIndex(c, |windows|), 1);
    ExportRecordsLargestStep(config, Adversary(c.metricStepSeconds), None, 0);
  }

  /** `sampled` is right in every run of a configuration exactly if its range is empty or it does
      not let the engine raise the step and then divide by job into unsampled reads. */
  lemma SampledIsTrueIff(config: ExportConfig)
    ensures (forall env, staging, t :: LocalErrors(env) ==> SampledIsTrue(config, env, staging, t)) <==>
            !(MayRaiseThenDivide(ServiceDefaults(config)) && config.timeRange.start < config.timeRange.end)
  {
    if MayRaiseThenDivide(ServiceDefaults(config)) && config.timeRange.start < config.timeRange.end {
      SampledWithoutSampledRows(config);
      assert !SampledIsTrue(config, Adversary(ServiceDefaults(config).metricStepSeconds), None, 0);
    } else {
      forall env, staging, t | LocalErrors(env) ensures SampledIsTrue(config, env, staging, t) {
        if config.timeRange.start < config.timeRange.end {
          SampledHolds(config, env, staging, t);
        } else {
          SampledHoldsOnEmptyRange(config, env, staging, t);
        }
      }
    }
  }
}
