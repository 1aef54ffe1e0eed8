/** The sampling statistics an export records for its archive, and what they say about the
    rows in it. */
module AdaptiveSampling {
  import opened Domain
  import opened ExportDefaults
  import opened AdaptiveExport
  import opened AdaptiveEvents

  /** adaptiveExportStats. */
  datatype Stats = Stats(mode: Adaptivity, maxStepUsed: int, sampled: bool, decisions: seq<Decision>) {
    /** The step written to the archive metadata. */
    function RecordedStep(): int { if sampled then maxStepUsed else 0 }
  }

  function InitialStats(c: ExportConfig): Stats { Stats(c.safety.mode, c.metricStepSeconds, false, []) }

  /** recordAdaptiveDecision. */
  function RecordDecision(s: Stats, d: Decision): Stats {
    Stats(s.mode, Max(s.maxStepUsed, d.step), s.sampled || d.strategy.IncreaseStep?, s.decisions + [d])
  }

  /** recordAttemptSuccess. */
  function RecordSuccess(s: Stats, a: Attempt): Stats {
    s.(sampled := s.sampled || a.useQueryRange, maxStepUsed := Max(s.maxStepUsed, a.step))
  }

  function Record(s: Stats, e: Event): Stats {
    match e
    case Issued(_) => s
    case Succeeded(a, _) => RecordSuccess(s, a)
    case Decided(d) => RecordDecision(s, d)
  }

  function RecordAll(s: Stats, events: seq<Event>): Stats
    decreases |events|
  {
    if |events| == 0 then s else RecordAll(Record(s, events[0]), events[1..])
  }

  lemma {:induction false} RecordAllAppend(s: Stats, x: seq<Event>, y: seq<Event>)
    ensures RecordAll(s, x + y) == RecordAll(RecordAll(s, x), y)
    decreases |x|
  {
    if |x| == 0 {
      assert x + y == y;
    } else {
      assert (x + y)[0] == x[0] && (x + y)[1..] == x[1..] + y;
      RecordAllAppend(Record(s, x[0]), x[1..], y);
    }
  }

  predicate HasLeafStep(leaves: seq<Leaf>, step: int) { exists l :: l in leaves && l.attempt.step == step }

  predicate HasDecisionStep(ds: seq<Decision>, step: int) { exists d :: d in ds && d.step == step }

  predicate SomeQueryRange(leaves: seq<Leaf>) { exists l :: l in leaves && l.attempt.useQueryRange }

  predicate SomeCoarser(ds: seq<Decision>) { exists d :: d in ds && d.strategy.IncreaseStep? }

  /** The statistics are the maximum and the disjunction over everything recorded. */
  lemma {:induction false} RecordAllMeans(s: Stats, events: seq<Event>)
    ensures var r := RecordAll(s, events);
            && r.maxStepUsed >= s.maxStepUsed
            && (forall l :: l in Leaves(events) ==> l.attempt.step <= r.maxStepUsed)
            && (forall d :: d in Decisions(events) ==> d.step <= r.maxStepUsed)
            && (r.maxStepUsed == s.maxStepUsed || HasLeafStep(Leaves(events), r.maxStepUsed)
                || HasDecisionStep(Decisions(events), r.maxStepUsed))
            && (r.sampled <==> s.sampled || SomeQueryRange(Leaves(events)) || SomeCoarser(Decisions(events)))
            && r.decisions == s.decisions + Decisions(events)
    decreases |events|
  {
    if |events| > 0 {
      var s1 := Record(s, events[0]);
      RecordAllMeans(s1, events[1..]);
      OneEvent(events[0]);
      assert events == [events[0]] + events[1..];
      EventsAppend([events[0]], events[1..]);
      var ls, ds := Leaves(events[1..]), Decisions(events[1..]);
      match events[0]
      case Issued(_) =>
      case Succeeded(a, rows) =>
        assert Leaf(a, rows) in Leaves(events);
        assert forall l :: l in Leaves(events) <==> l == Leaf(a, rows) || l in ls;
      case Decided(d) =>
        assert d in Decisions(events);
        assert forall e :: e in Decisions(events) <==> e == d || e in ds;
    }
  }

  // ---- Steps of a successful export ----

  /** Every kept attempt runs at a step between `low` and `cap`, and every step a decision
      names is matched by a kept attempt at least as coarse. */
  ghost predicate Witnessed(events: seq<Event>, low: int, cap: int) {
    && |Leaves(events)| > 0
    && (forall l :: l in Leaves(events) ==> low <= l.attempt.step <= cap)
    && (forall d :: d in Decisions(events) ==> exists l :: l in Leaves(events) && d.step <= l.attempt.step)
  }

  lemma WitnessedAppend(x: seq<Event>, y: seq<Event>, low: int, cap: int)
    requires Witnessed(x, low, cap) && Witnessed(y, low, cap)
    ensures Witnessed(x + y, low, cap)
  {
    EventsAppend(x, y);
    forall d | d in Decisions(x + y) ensures exists l :: l in Leaves(x + y) && d.step <= l.attempt.step {
      if d in Decisions(x) {
        var l :| l in Leaves(x) && d.step <= l.attempt.step;
        assert l in Leaves(x + y);
      } else {
        var l :| l in Leaves(y) && d.step <= l.attempt.step;
        assert l in Leaves(x + y);
      }
    }
  }

  /** A decision in front, naming a step no coarser than `low`. */
  lemma WitnessedAfterDecision(a: Attempt, d: Decision, events: seq<Event>, low: int, low': int, cap: int)
    requires Witnessed(events, low', cap) && low <= low' && d.step <= low'
    ensures Witnessed([Issued(a), Decided(d)] + events, low, cap)
  {
    DecisionEvents(a, d);
    EventsAppend([Issued(a), Decided(d)], events);
    var l := Leaves(events)[0];
    assert l in Leaves([Issued(a), Decided(d)] + events) && d.step <= l.attempt.step;
  }

  lemma {:induction false} SuccessIsWitnessed(c: ExportConfig, env: Env, a: Attempt, t: nat)
    requires Normalized(c) && 0 <= a.step <= c.safety.maxStepSeconds
    requires Export(c, env, a, t).Ok()
    ensures Witnessed(Export(c, env, a, t).events, a.step, c.safety.maxStepSeconds)
    decreases JobsToSplit(a), FallbacksLeft(a), RungsLeft(c, a), DepthLeft(c, a), 1, 0
  {
    var f := Fetch(env, a, t);
    match f.reply
    case Rows(rows) => SuccessEvents(a, rows);
    case Broken(_, e) =>
      RetriesDescend(c, a, e.kind);
      match PlanFor(c, a, e.kind) {
        case Retry(d, next) =>
          assert next in Successors(PlanFor(c, a, e.kind));
          if d.strategy.IncreaseStep? { NextStepIsOnLadder(c, a.step); }
          SuccessIsWitnessed(c, env, next, f.clock);
          WitnessedAfterDecision(a, d, Export(c, env, next, f.clock).events, a.step, next.step,
                                 c.safety.maxStepSeconds);
        case Divide(d, children) =>
          DividedOk(c, env, a, children, f.clock);
          ChildrenKeepStep(c, a, e.kind);
          EachIsWitnessed(c, env, a, children, f.clock + 1);
          WitnessedAfterDecision(a, d, ExportDivided(c, env, a, children, f.clock).events, a.step, a.step,
                                 c.safety.maxStepSeconds);
        case _ =>
      }
  }

  lemma NextStepIsOnLadder(c: ExportConfig, step: int)
    requires Normalized(c) && NextAutopilotStep(step, c.safety).Some?
    ensures step < NextAutopilotStep(step, c.safety).value <= c.safety.maxStepSeconds
  {
    var ladder := Ladder(c.safety.stepLadderSeconds, c.safety.maxStepSeconds);
    LadderContents(c.safety.stepLadderSeconds, c.safety.maxStepSeconds);
    FirstAboveIsOnLadder(ladder, step);
  }

  lemma ChildrenKeepStep(c: ExportConfig, a: Attempt, kind: ErrorKind)
    requires PlanFor(c, a, kind).Divide?
    ensures |PlanFor(c, a, kind).children| > 0
    ensures forall x :: x in PlanFor(c, a, kind).children ==> x.step == a.step
    ensures PlanFor(c, a, kind).decision.step <= Max(a.step, 0)
  {
    if PlanFor(c, a, kind).decision.strategy.SplitByJob? { JobChildrenKeepStep(c, a, a.jobs); }
  }

  lemma {:induction false} JobChildrenKeepStep(c: ExportConfig, parent: Attempt, jobs: seq<string>)
    requires SplitsByJob(c)
    ensures forall x :: x in JobChildren(c, parent, jobs) ==> x.step == parent.step
  {
    if |jobs| > 0 { JobChildrenKeepStep(c, parent, jobs[1..]); }
  }

  lemma {:induction false} EachIsWitnessed(c: ExportConfig, env: Env, a: Attempt, children: seq<Attempt>, t: nat)
    requires Normalized(c) && 0 <= a.step <= c.safety.maxStepSeconds && |children| > 0
    requires forall x :: x in children ==> Below(c, x, a) && x.step == a.step
    requires ExportEach(c, env, a, children, t).Ok()
    ensures Witnessed(ExportEach(c, env, a, children, t).events, a.step, c.safety.maxStepSeconds)
    decreases JobsToSplit(a), FallbacksLeft(a), RungsLeft(c, a), DepthLeft(c, a), 0, |children|
  {
    assert children[0] in children;
    SuccessIsWitnessed(c, env, children[0], t);
    var first := Export(c, env, children[0], t);
    var rest := ExportEach(c, env, a, children[1..], first.clock);
    if |children| > 1 {
      EachIsWitnessed(c, env, a, children[1..], first.clock);
      WitnessedAppend(first.events, rest.events, a.step, c.safety.maxStepSeconds);
    } else {
      assert children[1..] == [];
      assert first.events + rest.events == first.events;
    }
  }

  /** The recorded maximum step is the largest step of any kept attempt and within the
      configured maximum; an export that is not marked sampled took every row from the
      export API. `events` are those of all batches of a successful export. */
  lemma RecordedStepIsLargest(c: ExportConfig, events: seq<Event>)
    requires Witnessed(events, c.metricStepSeconds, c.safety.maxStepSeconds)
    ensures var s := RecordAll(InitialStats(c), events);
            && (forall l :: l in Leaves(events) ==> l.attempt.step <= s.maxStepUsed)
            && HasLeafStep(Leaves(events), s.maxStepUsed)
            && s.maxStepUsed <= c.safety.maxStepSeconds
            && (!s.sampled ==> s.RecordedStep() == 0 && !SomeQueryRange(Leaves(events)))
            && (s.sampled ==> s.RecordedStep() == s.maxStepUsed)
            && (s.sampled <==> SomeQueryRange(Leaves(events)) || SomeCoarser(Decisions(events)))
  {
    RecordAllMeans(InitialStats(c), events);
    var top := RecordAll(InitialStats(c), events).maxStepUsed;
    if top == c.metricStepSeconds {
      assert Leaves(events)[0] in Leaves(events);
    } else if HasDecisionStep(Decisions(events), top) {
      var d :| d in Decisions(events) && d.step == top;
      var l :| l in Leaves(events) && d.step <= l.attempt.step;
      assert l.attempt.step == top;
    }
  }

  lemma {:induction false} RecordAllKeepsMode(s: Stats, events: seq<Event>)
    ensures RecordAll(s, events).mode == s.mode
    decreases |events|
  {
    if |events| > 0 { RecordAllKeepsMode(Record(s, events[0]), events[1..]); }
  }
}
