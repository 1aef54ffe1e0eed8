/** How many attempts an adaptive export can make, whatever the server answers. */
module AdaptiveBounds {
  import opened Domain
  import opened ExportDefaults
  import opened AdaptiveExport
  import opened AdaptiveEvents

  /** An upper bound on the pieces halving can cut a window into: none is shorter than half
      the minimum window. */
  function Pieces(tr: TimeRange, minWindowSeconds: int): (n: nat)
    ensures n >= 1
  {
    if tr.Duration() <= 0 then 1 else Max(1, (2 * tr.Duration()) / MinWindow(minWindowSeconds))
  }

  /** A division by job can repeat the whole search once for every job. */
  function JobFactor(a: Attempt): (n: nat)
    ensures n >= 1
  {
    if |a.jobs| > 1 then |a.jobs| + 1 else 1
  }

  function Times(x: nat, y: nat): nat { x * y }

  /** (r + 2) * pieces: attempts per job set, with r ladder steps above the current one. */
  function Search(c: ExportConfig, a: Attempt): (n: nat)
    ensures n >= 2
  {
    TimesAtLeast(RungsLeft(c, a) + 2, Pieces(a.range, c.safety.minWindowSeconds));
    Times(RungsLeft(c, a) + 2, Pieces(a.range, c.safety.minWindowSeconds))
  }

  function Budget(c: ExportConfig, a: Attempt): int {
    Times(JobFactor(a), Search(c, a)) - if a.useQueryRange then 1 else 0
  }

  function BudgetOf(c: ExportConfig, attempts: seq<Attempt>): int {
    if |attempts| == 0 then 0 else Budget(c, attempts[0]) + BudgetOf(c, attempts[1..])
  }

  lemma TimesAtLeast(x: nat, y: nat)
    requires y >= 1
    ensures Times(x, y) >= x
  {
  }

  lemma TimesMonotone(x: nat, y: nat, x': nat, y': nat)
    requires x <= x' && y <= y'
    ensures Times(x, y) <= Times(x', y')
  {
    assert x * y <= x * y';
    assert x * y' <= x' * y';
  }

  lemma TimesSum(x: nat, y: nat, z: nat)
    ensures Times(x, y) + Times(x, z) == Times(x, y + z)
    ensures Times(y, x) + Times(z, x) == Times(y + z, x)
  {
  }

  lemma QuotientsAdd(x: nat, y: nat, m: int)
    requires m > 0
    ensures x / m + y / m <= (x + y) / m
  {
    var q := x / m + y / m;
    assert m * q == m * (x / m) + m * (y / m) <= x + y;
    assert x + y < m * ((x + y) / m + 1);
    Cancel(m, q, (x + y) / m + 1);
  }

  lemma Cancel(m: int, u: int, v: int)
    requires m > 0 && m * u < m * v
    ensures u < v
  {
  }

  lemma AtLeastOne(x: nat, m: int)
    requires m > 0 && x >= m
    ensures x / m >= 1
  {
  }

  /** Halving a window shares its pieces out. */
  lemma HalvesSharePieces(tr: TimeRange, minWindowSeconds: int)
    requires SplitTimeRange(tr, minWindowSeconds).Some?
    ensures var (left, right) := SplitTimeRange(tr, minWindowSeconds).value;
            Pieces(left, minWindowSeconds) + Pieces(right, minWindowSeconds) <= Pieces(tr, minWindowSeconds)
  {
    var (left, right) := SplitTimeRange(tr, minWindowSeconds).value;
    var m := MinWindow(minWindowSeconds);
    AtLeastOne(2 * left.Duration(), m);
    AtLeastOne(2 * right.Duration(), m);
    QuotientsAdd(2 * left.Duration(), 2 * right.Duration(), m);
    assert 2 * left.Duration() + 2 * right.Duration() == 2 * tr.Duration();
  }

  lemma BudgetIsPositive(c: ExportConfig, a: Attempt)
    ensures Budget(c, a) >= 1
  {
    TimesMonotone(1, Search(c, a), JobFactor(a), Search(c, a));
  }

  lemma JobChildBudget(c: ExportConfig, parent: Attempt, job: string)
    requires SplitsByJob(c)
    ensures Budget(c, JobChild(c, parent, job)) <= Search(c, parent)
  {
    assert Search(c, JobChild(c, parent, job)) == Search(c, parent);
  }

  lemma {:induction false} JobChildrenBudget(c: ExportConfig, parent: Attempt, jobs: seq<string>)
    requires SplitsByJob(c)
    ensures BudgetOf(c, JobChildren(c, parent, jobs)) <= Times(|jobs|, Search(c, parent))
  {
    if |jobs| > 0 {
      JobChildrenBudget(c, parent, jobs[1..]);
      JobChildBudget(c, parent, jobs[0]);
      assert JobChildren(c, parent, jobs)[1..] == JobChildren(c, parent, jobs[1..]);
      TimesSum(Search(c, parent), 1, |jobs| - 1);
    }
  }

  /** The plan after a failed attempt fits in the budget of that attempt, which it leaves. */
  lemma PlanFitsBudget(c: ExportConfig, a: Attempt, kind: ErrorKind)
    ensures 1 + BudgetOf(c, Successors(PlanFor(c, a, kind))) <= Budget(c, a)
  {
    BudgetIsPositive(c, a);
    match PlanFor(c, a, kind)
    case Retry(d, next) =>
      OneBudget(c, next);
      if d.strategy.IncreaseStep? { CoarserStepFits(c, a, kind); } else { FallbackFits(c, a, kind); }
    case Divide(d, children) =>
      if d.strategy.SplitByJob? { JobDivisionFits(c, a, kind); } else { HalvesFit(c, a, kind); }
    case _ =>
  }

  lemma OneBudget(c: ExportConfig, next: Attempt)
    ensures BudgetOf(c, [next]) == Budget(c, next)
  {
    assert [next][1..] == [];
  }

  lemma FallbackFits(c: ExportConfig, a: Attempt, kind: ErrorKind)
    requires PlanFor(c, a, kind).Retry? && !PlanFor(c, a, kind).decision.strategy.IncreaseStep?
    ensures 1 + Budget(c, PlanFor(c, a, kind).next) <= Budget(c, a)
  {
  }

  lemma JobDivisionFits(c: ExportConfig, a: Attempt, kind: ErrorKind)
    requires PlanFor(c, a, kind).Divide? && PlanFor(c, a, kind).decision.strategy.SplitByJob?
    ensures 1 + BudgetOf(c, PlanFor(c, a, kind).children) <= Budget(c, a)
  {
    JobChildrenBudget(c, a, a.jobs);
    TimesSum(Search(c, a), |a.jobs|, 1);
  }

  lemma CoarserStepFits(c: ExportConfig, a: Attempt, kind: ErrorKind)
    requires PlanFor(c, a, kind).Retry? && PlanFor(c, a, kind).decision.strategy.IncreaseStep?
    ensures 1 + Budget(c, PlanFor(c, a, kind).next) <= Budget(c, a)
  {
    var next := PlanFor(c, a, kind).next;
    var ladder := Ladder(c.safety.stepLadderSeconds, c.safety.maxStepSeconds);
    FirstAboveIsOnLadder(ladder, a.step);
    CountAboveDrops(ladder, a.step, next.step);
    var p := Pieces(a.range, c.safety.minWindowSeconds);
    assert RungsLeft(c, next) + 3 <= RungsLeft(c, a) + 2;
    TimesMonotone(RungsLeft(c, next) + 3, p, RungsLeft(c, a) + 2, p);
    TimesSum(p, RungsLeft(c, next) + 2, 1);
    TimesMonotone(JobFactor(a), Search(c, next) + 1, JobFactor(a), Search(c, a));
    TimesSum(JobFactor(a), Search(c, next), 1);
  }

  lemma HalvesFit(c: ExportConfig, a: Attempt, kind: ErrorKind)
    requires PlanFor(c, a, kind).Divide? && PlanFor(c, a, kind).decision.strategy.SplitByTime?
    ensures 1 + BudgetOf(c, PlanFor(c, a, kind).children) <= Budget(c, a)
  {
    var children := PlanFor(c, a, kind).children;
    var left, right := children[0], children[1];
    assert children[1..] == [right] && children[1..][1..] == [];
    assert BudgetOf(c, [right]) == Budget(c, right);
    assert BudgetOf(c, children) == Budget(c, left) + Budget(c, right);
    HalvesSharePieces(a.range, c.safety.minWindowSeconds);
    var r := RungsLeft(c, a) + 2;
    var pl, pr := Pieces(left.range, c.safety.minWindowSeconds), Pieces(right.range, c.safety.minWindowSeconds);
    TimesSum(r, pl, pr);
    TimesMonotone(r, pl + pr, r, Pieces(a.range, c.safety.minWindowSeconds));
    TimesSum(JobFactor(a), Search(c, left), Search(c, right));
    TimesMonotone(JobFactor(a), Search(c, left) + Search(c, right), JobFactor(a), Search(c, a));
  }

  /** No server can make the engine try more often than the budget. For a query_range
      attempt with at most one job, a window of length d, a minimum window m and r ladder
      steps above its own that is (r + 2) * max(1, 2d / m) - 1 attempts. */
  lemma {:induction false} AttemptsWithinBudget(c: ExportConfig, env: Env, a: Attempt, t: nat)
    ensures AttemptCount(Export(c, env, a, t).events) <= Budget(c, a)
    decreases JobsToSplit(a), FallbacksLeft(a), RungsLeft(c, a), DepthLeft(c, a), 1, 0
  {
    BudgetIsPositive(c, a);
    var f := Fetch(env, a, t);
    match f.reply
    case Rows(rows) => SuccessEvents(a, rows);
    case Broken(_, e) =>
      RetriesDescend(c, a, e.kind);
      PlanFitsBudget(c, a, e.kind);
      OneEvent(Issued(a));
      match PlanFor(c, a, e.kind) {
        case GiveUp =>
        case CannotDivide(d) => DecisionEvents(a, d);
        case Retry(d, next) =>
          assert next in Successors(PlanFor(c, a, e.kind));
          assert [next][1..] == [];
          AttemptsWithinBudget(c, env, next, f.clock);
          AttemptsAfterDecision(a, d, Export(c, env, next, f.clock).events);
        case Divide(d, children) =>
          EachWithinBudget(c, env, a, children, f.clock + 1);
          AttemptsAfterDecision(a, d, ExportDivided(c, env, a, children, f.clock).events);
          assert BudgetOf(c, children) >= 0 by { BudgetOfIsNatural(c, children); }
      }
  }

  lemma {:induction false} BudgetOfIsNatural(c: ExportConfig, attempts: seq<Attempt>)
    ensures BudgetOf(c, attempts) >= 0
  {
    if |attempts| > 0 {
      BudgetIsPositive(c, attempts[0]);
      BudgetOfIsNatural(c, attempts[1..]);
    }
  }

  lemma {:induction false} EachWithinBudget(c: ExportConfig, env: Env, a: Attempt, children: seq<Attempt>, t: nat)
    requires forall x :: x in children ==> Below(c, x, a)
    ensures AttemptCount(ExportEach(c, env, a, children, t).events) <= BudgetOf(c, children)
    decreases JobsToSplit(a), FallbacksLeft(a), RungsLeft(c, a), DepthLeft(c, a), 0, |children|
  {
    if |children| > 0 {
      assert Below(c, children[0], a);
      AttemptsWithinBudget(c, env, children[0], t);
      BudgetOfIsNatural(c, children[1..]);
      var first := Export(c, env, children[0], t);
      if first.Ok() {
        EachWithinBudget(c, env, a, children[1..], first.clock);
        AttemptsOfAppend(first.events, ExportEach(c, env, a, children[1..], first.clock).events);
      }
    }
  }
}
