/** What the retries are for: against which servers an adaptive export succeeds, and with which
    failures it gives up. */
module AdaptiveRecovery {
  import opened Domain
  import opened Batching
  import opened ExportDefaults
  import opened AdaptiveExport
  import opened AdaptiveEvents

  /** No temporary file fails to be created, written or appended. */
  ghost predicate SoundFiles(env: Env) {
    forall n: nat :: env.local(n).None? && env.append(n).Whole? && env.create(n).None?
  }

  // ---- Giving up ----

  /** The coarsest step the engine can go to from `step`. */
  function TopStep(c: ExportConfig, step: int): int {
    if !c.safety.mode.Autopilot? then step
    else
      var ladder := Ladder(c.safety.stepLadderSeconds, c.safety.maxStepSeconds);
      LadderContents(c.safety.stepLadderSeconds, c.safety.maxStepSeconds);
      Max(step, ladder[|ladder| - 1])
  }

  predicate MayDivide(c: ExportConfig, a: Attempt) { c.safety.autoSplit && a.depth < c.safety.maxSplitDepth }

  predicate CanHalve(c: ExportConfig, a: Attempt) {
    MayDivide(c, a) && a.range.Duration() > MinWindow(c.safety.minWindowSeconds)
  }

  predicate CanDivideByJob(c: ExportConfig, a: Attempt) {
    MayDivide(c, a) && c.safety.splitByJob && |a.jobs| > 1 && SplitsByJob(c)
  }

  /** There is nothing to try after an error of this kind: it is not about the size of the
      request, or the request cannot be made smaller or coarser. */
  predicate Stuck(c: ExportConfig, a: Attempt, kind: ErrorKind) {
    match kind
    case MissingRoute => a.useQueryRange
    case TooManySeries => !CanDivideByJob(c, a)
    case QueryTimeout => !a.useQueryRange || (!CanHalve(c, a) && a.step == TopStep(c, a.step))
    case _ => true
  }

  lemma NextStepExists(c: ExportConfig, step: int)
    ensures NextAutopilotStep(step, c.safety).None? <==> step == TopStep(c, step)
    ensures NextAutopilotStep(step, c.safety).Some? ==>
              var next := NextAutopilotStep(step, c.safety).value; step < next && TopStep(c, next) == TopStep(c, step)
  {
    var ladder := Ladder(c.safety.stepLadderSeconds, c.safety.maxStepSeconds);
    LadderContents(c.safety.stepLadderSeconds, c.safety.maxStepSeconds);
    FirstAboveIsOnLadder(ladder, step);
    assert ladder[|ladder| - 1] in ladder;
    if NextAutopilotStep(step, c.safety).Some? {
      var next := NextAutopilotStep(step, c.safety).value;
      var k :| 0 <= k < |ladder| && ladder[k] == next;
    }
  }

  /** The plan for a failed attempt is to stop exactly when there is nothing to try. */
  lemma StopsIffStuck(c: ExportConfig, a: Attempt, kind: ErrorKind)
    ensures PlanFor(c, a, kind).GiveUp? || PlanFor(c, a, kind).CannotDivide? <==> Stuck(c, a, kind)
  {
    NextStepExists(c, a.step);
  }

  /** What is recorded of a decision is the window and the error it was made on, and the step that
      is used from then on, if that is what was decided about or raised. */
  lemma PlanIsRecorded(c: ExportConfig, a: Attempt, kind: ErrorKind)
    ensures var p := PlanFor(c, a, kind);
            && (!p.GiveUp? ==> p.decision.kind == kind && p.decision.range == a.range)
            && (p.Retry? ==> p.next.range == a.range && p.next.selector == a.selector && p.next.jobs == a.jobs)
            && (p.Retry? && a.useQueryRange ==>
               p.decision.strategy.IncreaseStep? && a.step < p.next.step == p.decision.step)
            && (p.Retry? && !a.useQueryRange ==> p.decision.strategy.QueryRange? && a.step == p.next.step)
            && (p.Divide? ==> forall x :: x in p.children ==> x.step == a.step)
            && (p.Divide? && p.decision.strategy.SplitByTime? ==> p.decision.step == a.step)
            && (p.Divide? && !p.decision.strategy.SplitByTime? ==> p.decision.strategy.SplitByJob?)
  {
    NextStepExists(c, a.step);
    if SplitsByJob(c) { JobChildrenKeepStep(c, a, a.jobs); }
  }

  lemma {:induction false} JobChildrenKeepStep(c: ExportConfig, parent: Attempt, jobs: seq<string>)
    requires SplitsByJob(c)
    ensures forall x :: x in JobChildren(c, parent, jobs) ==> x.step == parent.step
  {
    if |jobs| > 0 { JobChildrenKeepStep(c, parent, jobs[1..]); }
  }

  /** After a failed attempt the engine gives up with its error exactly when there is nothing to
      try; else it makes another attempt, unless it cannot create a split file. */
  lemma GivesUpIff(c: ExportConfig, env: Env, a: Attempt, t: nat)
    requires Fetch(env, a, t).reply.Broken?
    ensures var e, o := Fetch(env, a, t).reply.failure, Export(c, env, a, t);
            if Stuck(c, a, e.kind) then o.error == Some(e) && AttemptCount(o.events) == 1
            else env.create(Fetch(env, a, t).clock).None? ==> AttemptCount(o.events) > 1
  {
    var f := Fetch(env, a, t);
    var kind := f.reply.failure.kind;
    StopsIffStuck(c, a, kind);
    RetriesDescend(c, a, kind);
    match PlanFor(c, a, kind)
    case GiveUp => OneEvent(Issued(a));
    case CannotDivide(d) => DecisionEvents(a, d);
    case Retry(d, next) =>
      assert next in Successors(PlanFor(c, a, kind));
      AttemptsAfterDecision(a, d, Export(c, env, next, f.clock).events);
      FirstIsIssued(c, env, next, f.clock);
    case Divide(d, children) =>
      AttemptsAfterDecision(a, d, ExportDivided(c, env, a, children, f.clock).events);
      assert |children| > 0 && children[0] in children;
      if env.create(f.clock).None? { EachIssues(c, env, a, children, f.clock + 1); }
  }

  lemma FirstIsIssued(c: ExportConfig, env: Env, a: Attempt, t: nat)
    ensures AttemptCount(Export(c, env, a, t).events) > 0
  {
    var f := Fetch(env, a, t);
    if f.reply.Broken? { RetriesDescend(c, a, f.reply.failure.kind); }
    assert Export(c, env, a, t).events[0] == Issued(a);
  }

  lemma EachIssues(c: ExportConfig, env: Env, a: Attempt, children: seq<Attempt>, t: nat)
    requires |children| > 0 && forall x :: x in children ==> Below(c, x, a)
    ensures AttemptCount(ExportEach(c, env, a, children, t).events) > 0
  {
    assert children[0] in children;
    var first := Export(c, env, children[0], t);
    FirstIsIssued(c, env, children[0], t);
    if first.Ok() {
      AttemptsOfAppend(first.events, ExportEach(c, env, a, children[1..], first.clock).events);
    }
  }

  /** The last attempt made. */
  function LastIssued(events: seq<Event>): Option<Attempt> {
    if |events| == 0 then None
    else
      var rest := LastIssued(events[1..]);
      if rest.None? && events[0].Issued? then Some(events[0].attempt) else rest
  }

  lemma {:induction false} LastIssuedAppend(x: seq<Event>, y: seq<Event>)
    ensures LastIssued(x + y) == if LastIssued(y).Some? then LastIssued(y) else LastIssued(x)
  {
    if |x| == 0 {
      assert x + y == y;
    } else {
      assert (x + y)[0] == x[0] && (x + y)[1..] == x[1..] + y;
      LastIssuedAppend(x[1..], y);
    }
  }

  /** If it failed, then because the last attempt got stuck. */
  ghost predicate FailsStuck(c: ExportConfig, o: Outcome) {
    !o.Ok() ==> LastIssued(o.events).Some? && Stuck(c, LastIssued(o.events).value, o.error.value.kind)
  }

  lemma OneAttempt(a: Attempt, d: Decision)
    ensures LastIssued([Issued(a)]) == LastIssued([Issued(a), Decided(d)]) == Some(a)
  {
    assert [Issued(a)][1..] == [];
    assert [Issued(a), Decided(d)][1..] == [Decided(d)] && [Decided(d)][1..] == [];
  }

  lemma FailsStuckAfter(c: ExportConfig, a: Attempt, d: Decision, o: Outcome)
    requires FailsStuck(c, o)
    ensures FailsStuck(c, o.After([Issued(a), Decided(d)]))
  {
    LastIssuedAppend([Issued(a), Decided(d)], o.events);
  }

  /** Where appends and split files do not fail, an export fails only because its last attempt
      got stuck. */
  lemma {:induction false} FailsOnlyStuck(c: ExportConfig, env: Env, a: Attempt, t: nat)
    requires forall n: nat :: env.append(n).Whole? && env.create(n).None?
    ensures FailsStuck(c, Export(c, env, a, t))
    decreases JobsToSplit(a), FallbacksLeft(a), RungsLeft(c, a), DepthLeft(c, a), 1, 0
  {
    var f := Fetch(env, a, t);
    match f.reply
    case Rows(rows) =>
    case Broken(_, e) =>
      StopsIffStuck(c, a, e.kind);
      RetriesDescend(c, a, e.kind);
      match PlanFor(c, a, e.kind) {
        case GiveUp => OneAttempt(a, Decision(a.strategy, e.kind, a.range, 0));
        case CannotDivide(d) => OneAttempt(a, d);
        case Retry(d, next) =>
          assert next in Successors(PlanFor(c, a, e.kind));
          FailsOnlyStuck(c, env, next, f.clock);
          FailsStuckAfter(c, a, d, Export(c, env, next, f.clock));
        case Divide(d, children) =>
          EachFailsStuck(c, env, a, children, f.clock + 1);
          FailsStuckAfter(c, a, d, ExportDivided(c, env, a, children, f.clock));
      }
  }

  lemma {:induction false} EachFailsStuck(c: ExportConfig, env: Env, a: Attempt, children: seq<Attempt>, t: nat)
    requires forall n: nat :: env.append(n).Whole? && env.create(n).None?
    requires forall x :: x in children ==> Below(c, x, a)
    ensures FailsStuck(c, ExportEach(c, env, a, children, t))
    decreases JobsToSplit(a), FallbacksLeft(a), RungsLeft(c, a), DepthLeft(c, a), 0, |children|
  {
    if |children| > 0 {
      assert children[0] in children;
      FailsOnlyStuck(c, env, children[0], t);
      var first := Export(c, env, children[0], t);
      if first.Ok() {
        EachFailsStuck(c, env, a, children[1..], first.clock);
        LastIssuedAppend(first.events, ExportEach(c, env, a, children[1..], first.clock).events);
      }
    }
  }

  // ---- A server with a time limit ----

  /** What is quick enough stays so for a shorter window and for a coarser step. */
  ghost predicate Monotone(fits: (int, int) -> bool) {
    forall d, s, d', s' :: fits(d, s) && d' <= d && s <= s' ==> fits(d', s')
  }

  /** With sound files, query_range answers what is quick enough of `selector`, and else times out. */
  ghost predicate Limited(env: Env, fits: (int, int) -> bool, selector: Selector) {
    && SoundFiles(env) && Monotone(fits)
    && forall a: Attempt, t: nat :: a.useQueryRange && a.selector == selector && a.range.start < a.range.end ==>
         Timed(Fetch(env, a, t).reply, fits(a.range.Duration(), a.step))
  }

  predicate Timed(reply: Reply, quick: bool) {
    if quick then reply.Rows? else reply.Broken? && reply.failure.kind.QueryTimeout?
  }

  /** Halving each piece longer than `least`, `n` times: the length of the longest piece then. */
  function LongestPiece(length: int, least: int, n: nat): int
    decreases n
  {
    if n == 0 || length <= least then length
    else Max(LongestPiece(length / 2, least, n - 1), LongestPiece(length - length / 2, least, n - 1))
  }

  lemma {:induction false} LongestPieceIsShorter(length: int, least: int, n: nat)
    requires least >= 0
    ensures LongestPiece(length, least, n) <= length || length < 0
  {
    if n > 0 && length > least {
      LongestPieceIsShorter(length / 2, least, n - 1);
      LongestPieceIsShorter(length - length / 2, least, n - 1);
    }
  }

  /** How often a window can be halved, all steps of the ladder taken together: each new step
      begins at depth 0 again. */
  function Halvings(c: ExportConfig, a: Attempt): nat {
    if !c.safety.autoSplit then 0 else DepthLeft(c, a) + RungsLeft(c, a) * Max(0, c.safety.maxSplitDepth)
  }

  lemma {:induction false} OneRungLess(ladder: seq<int>, step: int)
    requires StrictlyIncreasing(ladder) && FirstAbove(ladder, step).Some?
    ensures CountAbove(ladder, step) == CountAbove(ladder, FirstAbove(ladder, step).value) + 1
  {
    if ladder[0] > step {
      NoneBelow(ladder[1..], step, ladder[0]);
    } else {
      OneRungLess(ladder[1..], step);
      FirstAboveIsOnLadder(ladder[1..], step);
    }
  }

  lemma {:induction false} NoneBelow(ladder: seq<int>, low: int, high: int)
    requires low < high && forall k :: 0 <= k < |ladder| ==> high < ladder[k]
    ensures CountAbove(ladder, low) == CountAbove(ladder, high)
  {
    if |ladder| > 0 { NoneBelow(ladder[1..], low, high); }
  }

  /** What a coarser step gives back. */
  lemma RaisedHalvings(c: ExportConfig, a: Attempt, next: Attempt)
    requires NextAutopilotStep(a.step, c.safety) == Some(next.step) && next.depth == 0
    ensures Halvings(c, a) == Halvings(c, next) + if c.safety.autoSplit then DepthLeft(c, a) else 0
  {
    LadderContents(c.safety.stepLadderSeconds, c.safety.maxStepSeconds);
    OneRungLess(Ladder(c.safety.stepLadderSeconds, c.safety.maxStepSeconds), a.step);
    Distribute(RungsLeft(c, next), Max(0, c.safety.maxSplitDepth));
  }

  lemma Distribute(n: nat, m: int)
    ensures (n + 1) * m == n * m + m
  {
  }

  lemma {:induction false} NoRungAbove(ladder: seq<int>, step: int)
    requires FirstAbove(ladder, step).None?
    ensures CountAbove(ladder, step) == 0
  {
    if |ladder| > 0 { NoRungAbove(ladder[1..], step); }
  }

  lemma NoHalvingLeft(c: ExportConfig, a: Attempt)
    requires NextAutopilotStep(a.step, c.safety).None?
    ensures Halvings(c, a) == if c.safety.autoSplit then DepthLeft(c, a) else 0
  {
    if c.safety.mode.Autopilot? {
      NoRungAbove(Ladder(c.safety.stepLadderSeconds, c.safety.maxStepSeconds), a.step);
    }
  }

  /** The longest piece a query_range attempt can be brought down to is quick at the top step. */
  ghost predicate Reachable(c: ExportConfig, fits: (int, int) -> bool, a: Attempt) {
    fits(LongestPiece(a.range.Duration(), MinWindow(c.safety.minWindowSeconds), Halvings(c, a)), TopStep(c, a.step))
  }

  lemma QuickIsReachable(c: ExportConfig, fits: (int, int) -> bool, a: Attempt)
    requires Monotone(fits) && fits(a.range.Duration(), a.step)
    ensures Reachable(c, fits, a)
  {
    LongestPieceIsShorter(a.range.Duration(), MinWindow(c.safety.minWindowSeconds), Halvings(c, a));
  }

  /** A slow attempt is reachable exactly if whatever follows it is. */
  lemma SlowIsReachableIff(c: ExportConfig, fits: (int, int) -> bool, a: Attempt)
    requires Monotone(fits) && !fits(a.range.Duration(), a.step) && a.useQueryRange
    ensures var p := PlanFor(c, a, QueryTimeout);
            match p
            case Retry(_, next) =>
              && next.useQueryRange && next.selector == a.selector && next.range == a.range
              && (Reachable(c, fits, a) <==> Reachable(c, fits, next))
            case Divide(_, children) =>
              && |children| == 2 && children[0].useQueryRange && children[1].useQueryRange
              && children[0].selector == children[1].selector == a.selector
              && children[0].range.start < children[0].range.end && children[1].range.start < children[1].range.end
              && (Reachable(c, fits, a) <==> Reachable(c, fits, children[0]) && Reachable(c, fits, children[1]))
            case _ => !Reachable(c, fits, a)
  {
    NextStepExists(c, a.step);
    match PlanFor(c, a, QueryTimeout)
    case Retry(_, next) => RaisedHalvings(c, a, next);
    case Divide(_, children) => HalvesReachableIff(c, fits, a, children[0], children[1]);
    case _ => NoHalvingLeft(c, a);
  }

  lemma HalvesReachableIff(c: ExportConfig, fits: (int, int) -> bool, a: Attempt, left: Attempt, right: Attempt)
    requires Monotone(fits) && CanHalve(c, a)
    requires left.step == right.step == a.step && left.depth == right.depth == a.depth + 1
    requires left.range.Duration() == a.range.Duration() / 2
    requires right.range.Duration() == a.range.Duration() - a.range.Duration() / 2
    ensures Reachable(c, fits, a) <==> Reachable(c, fits, left) && Reachable(c, fits, right)
  {
    assert Halvings(c, left) == Halvings(c, right) == Halvings(c, a) - 1;
    var least, n, length := MinWindow(c.safety.minWindowSeconds), Halvings(c, left), a.range.Duration();
    var x, y := LongestPiece(length / 2, least, n), LongestPiece(length - length / 2, least, n);
    assert LongestPiece(length, least, n + 1) == Max(x, y);
  }

  /** Dividing in two succeeds exactly when both parts do, whenever they are tried. */
  lemma TwoChildrenOk(c: ExportConfig, env: Env, a: Attempt, children: seq<Attempt>, t: nat)
    requires SoundFiles(env) && |children| == 2 && forall x :: x in children ==> Below(c, x, a)
    ensures var first := Export(c, env, children[0], t + 1);
            ExportDivided(c, env, a, children, t).Ok() <==> first.Ok() && Export(c, env, children[1], first.clock).Ok()
  {
    var first := Export(c, env, children[0], t + 1);
    var last := Export(c, env, children[1], first.clock);
    assert children[1..][0] == children[1] && children[1..][1..] == [];
    assert children[0] in children && children[1] in children;
    assert ExportEach(c, env, a, children[1..][1..], last.clock).Ok();
    assert ExportEach(c, env, a, children[1..], first.clock).Ok() <==> last.Ok();
  }

  /** A failed attempt is followed by what is planned for it. */
  lemma OkAsPlanned(c: ExportConfig, env: Env, a: Attempt, t: nat, p: Plan)
    requires Fetch(env, a, t).reply.Broken? && p == PlanFor(c, a, Fetch(env, a, t).reply.failure.kind)
    ensures forall x :: x in Successors(p) ==> Below(c, x, a)
    ensures p.Retry? ==> (Export(c, env, a, t).Ok() <==> Export(c, env, p.next, Fetch(env, a, t).clock).Ok())
    ensures p.Divide? ==>
            (Export(c, env, a, t).Ok() <==> ExportDivided(c, env, a, p.children, Fetch(env, a, t).clock).Ok())
    ensures p.GiveUp? || p.CannotDivide? ==> !Export(c, env, a, t).Ok()
  {
    RetriesDescend(c, a, Fetch(env, a, t).reply.failure.kind);
    if p.Retry? { assert p.next in Successors(p); }
  }

  /** Against a server with a time limit a query_range attempt succeeds exactly when the longest
      piece it can be brought down to, by halving and by coarser steps, is quick at the top step. */
  lemma {:induction false} RangedExportsIff(c: ExportConfig, env: Env, fits: (int, int) -> bool, a: Attempt, t: nat)
    requires Limited(env, fits, a.selector) && a.useQueryRange && a.range.start < a.range.end
    ensures Export(c, env, a, t).Ok() <==> Reachable(c, fits, a)
    decreases JobsToSplit(a), FallbacksLeft(a), RungsLeft(c, a), DepthLeft(c, a), 1
  {
    var f := Fetch(env, a, t);
    assert Timed(f.reply, fits(a.range.Duration(), a.step));
    if f.reply.Rows? {
      QuickIsReachable(c, fits, a);
    } else {
      var p := PlanFor(c, a, QueryTimeout);
      SlowIsReachableIff(c, fits, a);
      OkAsPlanned(c, env, a, t, p);
      if p.Retry? {
        assert p.next in Successors(p);
        RangedExportsIff(c, env, fits, p.next, f.clock);
      } else if p.Divide? {
        HalvesExportIff(c, env, fits, a, p.children, f.clock);
      }
    }
  }

  lemma {:induction false} HalvesExportIff(
    c: ExportConfig, env: Env, fits: (int, int) -> bool, a: Attempt, children: seq<Attempt>, t: nat)
    requires Limited(env, fits, a.selector) && |children| == 2
    requires forall x :: x in children ==>
             Below(c, x, a) && x.selector == a.selector && x.useQueryRange && x.range.start < x.range.end
    ensures ExportDivided(c, env, a, children, t).Ok() <==>
            Reachable(c, fits, children[0]) && Reachable(c, fits, children[1])
    decreases JobsToSplit(a), FallbacksLeft(a), RungsLeft(c, a), DepthLeft(c, a), 0
  {
    assert children[0] in children && children[1] in children;
    RangedExportsIff(c, env, fits, children[0], t + 1);
    RangedExportsIff(c, env, fits, children[1], Export(c, env, children[0], t + 1).clock);
    TwoChildrenOk(c, env, a, children, t);
  }

  // ---- Servers with and without an export route, for one job or for several at a time ----

  /** `route`: there is an export route. `crowd`: one job at a time is read, and several have too
      many series. `fits`: what query_range answers in time. */
  datatype Server = Server(route: bool, crowd: bool, fits: (int, int) -> bool)

  predicate NamesOneJob(selector: Selector) {
    match selector
    case ForJobs(jobs) => |jobs| == 1
    case Narrowed(_, jobs) => |jobs| == 1
    case Joined(_, jobs) => |jobs| == 1
    case _ => false
  }

  /** The error such a server answers a read of a non-empty range with, if any. */
  function Refusal(server: Server, a: Attempt): Option<ErrorKind> {
    if !a.useQueryRange && !server.route then Some(MissingRoute)
    else if server.crowd && !NamesOneJob(a.selector) then Some(TooManySeries)
    else if a.useQueryRange && !server.fits(a.range.Duration(), a.step) then Some(QueryTimeout)
    else None
  }

  predicate Answers(reply: Reply, refusal: Option<ErrorKind>) {
    match refusal
    case None => reply.Rows?
    case Some(kind) => reply.Broken? && reply.failure.kind == kind
  }

  ghost predicate Behaves(env: Env, server: Server) {
    SoundFiles(env) && Monotone(server.fits) &&
    forall a: Attempt, t: nat :: a.range.start < a.range.end ==> Answers(Fetch(env, a, t).reply, Refusal(server, a))
  }

  /** The attempt on query_range that follows if there is no export route. */
  function Ranged(server: Server, a: Attempt): Attempt {
    if a.useQueryRange || server.route then a
    else a.(useQueryRange := true, depth := a.depth + 1, strategy := QueryRange)
  }

  /** An attempt is served without division by job. */
  ghost predicate Served(c: ExportConfig, server: Server, a: Attempt) {
    var x := Ranged(server, a);
    x.useQueryRange ==> Reachable(c, server.fits, x)
  }

  /** An attempt whose jobs are not too many succeeds exactly when it is served. */
  lemma ServedIff(c: ExportConfig, env: Env, server: Server, a: Attempt, t: nat)
    requires Behaves(env, server) && a.range.start < a.range.end && (server.crowd ==> NamesOneJob(a.selector))
    ensures Export(c, env, a, t).Ok() <==> Served(c, server, a)
  {
    assert Limited(env, server.fits, a.selector) by { QuickOrTimed(env, server, a.selector); }
    var f := Fetch(env, a, t);
    assert Answers(f.reply, Refusal(server, a));
    if a.useQueryRange {
      RangedExportsIff(c, env, server.fits, a, t);
    } else if !server.route {
      RetriesDescend(c, a, MissingRoute);
      assert Ranged(server, a) in Successors(PlanFor(c, a, MissingRoute));
      RangedExportsIff(c, env, server.fits, Ranged(server, a), f.clock);
    }
  }

  lemma QuickOrTimed(env: Env, server: Server, selector: Selector)
    requires Behaves(env, server) && (server.crowd ==> NamesOneJob(selector))
    ensures Limited(env, server.fits, selector)
  {
    forall a: Attempt, t: nat | a.useQueryRange && a.selector == selector && a.range.start < a.range.end
      ensures Timed(Fetch(env, a, t).reply, server.fits(a.range.Duration(), a.step))
    {
      assert Answers(Fetch(env, a, t).reply, Refusal(server, a));
    }
  }

  /** The attempt for one of the jobs of `a`, up to the job. */
  function OneOf(c: ExportConfig, a: Attempt): Attempt {
    a.(useQueryRange := c.mode.Custom? && !CanNarrow(c.query), depth := a.depth + 1)
  }

  lemma {:induction false} JobsServedIff(c: ExportConfig, env: Env, server: Server, a: Attempt, jobs: seq<string>,
                                         t: nat)
    requires Behaves(env, server) && a.range.start < a.range.end
    requires SplitsByJob(c) && forall x :: x in JobChildren(c, a, jobs) ==> Below(c, x, a)
    ensures ExportEach(c, env, a, JobChildren(c, a, jobs), t).Ok() <==> |jobs| == 0 || Served(c, server, OneOf(c, a))
    decreases |jobs|
  {
    if |jobs| > 0 {
      var children := JobChildren(c, a, jobs);
      assert children[0] in children && children[1..] == JobChildren(c, a, jobs[1..]);
      ServedIff(c, env, server, children[0], t);
      JobChildServed(c, server, a, jobs[0]);
      JobsServedIff(c, env, server, a, jobs[1..], Export(c, env, children[0], t).clock);
    }
  }

  lemma JobChildServed(c: ExportConfig, server: Server, a: Attempt, job: string)
    requires SplitsByJob(c)
    ensures NamesOneJob(JobChild(c, a, job).selector)
    ensures Served(c, server, JobChild(c, a, job)) <==> Served(c, server, OneOf(c, a))
  {
    var x, y := Ranged(server, JobChild(c, a, job)), Ranged(server, OneOf(c, a));
    assert Halvings(c, x) == Halvings(c, y);
  }

  /** Too many jobs for the server: they have to be divided. */
  lemma CrowdExportsIff(c: ExportConfig, env: Env, server: Server, a: Attempt, t: nat)
    requires Behaves(env, server) && a.range.start < a.range.end && server.crowd && !NamesOneJob(a.selector)
    ensures var x := Ranged(server, a);
            Export(c, env, a, t).Ok() <==> CanDivideByJob(c, x) && Served(c, server, OneOf(c, x))
  {
    var x, f := Ranged(server, a), Fetch(env, a, t);
    assert Answers(f.reply, Refusal(server, a));
    if x == a {
      DividesIff(c, env, server, a, t);
    } else {
      RetriesDescend(c, a, MissingRoute);
      assert x in Successors(PlanFor(c, a, MissingRoute));
      DividesIff(c, env, server, x, f.clock);
    }
  }

  lemma DividesIff(c: ExportConfig, env: Env, server: Server, a: Attempt, t: nat)
    requires Behaves(env, server) && a.range.start < a.range.end && Refusal(server, a) == Some(TooManySeries)
    ensures Export(c, env, a, t).Ok() <==> CanDivideByJob(c, a) && Served(c, server, OneOf(c, a))
  {
    var f := Fetch(env, a, t);
    assert Answers(f.reply, Refusal(server, a));
    RetriesDescend(c, a, TooManySeries);
    StopsIffStuck(c, a, TooManySeries);
    if CanDivideByJob(c, a) { JobsServedIff(c, env, server, a, a.jobs, f.clock + 1); }
  }

  /** For every configuration, job list and window, and every such server: the window is exported
      exactly when query_range, if it has to be used, answers the longest piece that can be
      reached; where several jobs have too many series, when in addition they can be divided
      and each job alone gets that far. */
  lemma WindowExportsIff(c: ExportConfig, env: Env, server: Server, window: TimeRange, t: nat)
    requires Behaves(env, server) && window.start < window.end
    ensures var a := NewAttempt(c, window);
            var x := Ranged(server, a);
            && a.depth == 0 && a.step == c.metricStepSeconds && a.range == window
            && a.strategy == (if a.useQueryRange then QueryRange else ExportApi)
            && (Export(c, env, a, t).Ok() <==>
                if server.crowd && !NamesOneJob(a.selector)
                then CanDivideByJob(c, x) && Served(c, server, OneOf(c, x))
                else Served(c, server, a))
  {
    var a := NewAttempt(c, window);
    if server.crowd && !NamesOneJob(a.selector) {
      CrowdExportsIff(c, env, server, a, t);
    } else {
      ServedIff(c, env, server, a, t);
    }
  }

  // ---- Servers that decide request by request ----

  /** A server that answers a query_range request when its chunk and step are `quick`. */
  function RequestServer(route: bool, crowd: bool, quick: (int, int) -> bool): Env {
    Env(n => None,
        (n, a: Attempt) =>
          if !route then Refused(MissingRoute)
          else if crowd && !NamesOneJob(a.selector) then Refused(TooManySeries)
          else Rows([]),
        (n, a: Attempt, chunk: TimeRange) =>
          if crowd && !NamesOneJob(a.selector) then Refused(TooManySeries)
          else if quick(chunk.Duration(), a.step) then Rows([])
          else Refused(QueryTimeout),
        n => Whole,
        n => None,
        n => false,
        n => None)
  }

  function Refused(kind: ErrorKind): Reply { Broken([], Failure(kind, false)) }

  /** Chunks are at most an hour long, and the first one is the longest. */
  lemma {:induction false} CutIsLongestFirst(lo: int, hi: int, width: int)
    requires width > 0 && lo < hi
    ensures var cut := Cut(lo, hi, width);
            && |cut| > 0 && cut[0].Duration() == Min(hi - lo, width)
            && forall w :: w in cut ==> w.Duration() <= cut[0].Duration()
    decreases hi - lo
  {
    var next := Min(lo + width, hi);
    if next < hi { CutIsLongestFirst(next, hi, width); }
  }

  lemma {:induction false} ChunksAnswered(env: Env, a: Attempt, chunks: seq<TimeRange>, t: nat)
    requires forall n: nat, w :: w in chunks ==> env.query(n, a, w).Rows?
    ensures FetchChunks(env, a, chunks, t).reply.Rows?
  {
    if |chunks| > 0 {
      assert chunks[0] in chunks;
      ChunksAnswered(env, a, chunks[1..], t + 1);
    }
  }

  lemma RequestRefused(env: Env, a: Attempt, t: nat, kind: ErrorKind)
    requires env.local(t).None? && a.useQueryRange && a.range.start < a.range.end
    requires env.query(t + 1, a, Chunks(a.range)[0]) == Refused(kind)
    ensures Answers(Fetch(env, a, t).reply, Some(kind))
  {
  }

  lemma RangedAnswered(route: bool, crowd: bool, quick: (int, int) -> bool, a: Attempt, t: nat)
    requires Monotone(quick) && a.useQueryRange && a.range.start < a.range.end
    ensures var server := Server(route, crowd, (d, s) => quick(Min(d, CHUNK), s));
            Answers(Fetch(RequestServer(route, crowd, quick), a, t).reply, Refusal(server, a))
  {
    var env, chunks := RequestServer(route, crowd, quick), Chunks(a.range);
    CutIsLongestFirst(a.range.start, a.range.end, CHUNK);
    if crowd && !NamesOneJob(a.selector) {
      RequestRefused(env, a, t, TooManySeries);
    } else if quick(chunks[0].Duration(), a.step) {
      ChunksAnswered(env, a, chunks, t + 1);
    } else {
      RequestRefused(env, a, t, QueryTimeout);
    }
  }

  /** For the engine it is a server that answers a window when its longest chunk is quick. */
  lemma RequestServerBehaves(route: bool, crowd: bool, quick: (int, int) -> bool)
    requires Monotone(quick)
    ensures Behaves(RequestServer(route, crowd, quick), Server(route, crowd, (d, s) => quick(Min(d, CHUNK), s)))
  {
    var env, server := RequestServer(route, crowd, quick), Server(route, crowd, (d, s) => quick(Min(d, CHUNK), s));
    forall a: Attempt, t: nat | a.range.start < a.range.end
      ensures Answers(Fetch(env, a, t).reply, Refusal(server, a))
    {
      if a.useQueryRange { RangedAnswered(route, crowd, quick, a, t); }
    }
  }
}
