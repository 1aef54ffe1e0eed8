/** The adaptive retry engine of internal/application/services/export_service.go as a
    function of its environment: which attempts it makes, in which order, and what they add
    to the staging file. The server and the disk are oracles: every reply may depend on the
    attempt and on a clock that advances with each question, so nothing is assumed about
    them. `ExportEngine` proves the imperative engine equal to `Export`. */
module AdaptiveExport {
  import opened Domain
  import opened Batching
  import opened ExportDefaults

  /** One exported line and the job it belongs to. */
  datatype Row = Row(job: string, body: string)

  datatype Selector =
    | AllSeries
    | ForJobs(jobs: seq<string>)
    | Plain(query: Query)
    | Narrowed(query: Query, jobs: seq<string>)  // job matcher written into the braces
    | Joined(query: Query, jobs: seq<string>)    // (query) and on(job) {job matcher}

  datatype Strategy = ExportApi | QueryRange | SplitByJob | SplitByTime | IncreaseStep

  datatype Attempt = Attempt(
    selector: Selector,
    range: TimeRange,
    useQueryRange: bool,
    depth: int,
    jobs: seq<string>,
    strategy: Strategy,
    step: int)

  // ---- Building attempts ----

  /** uniqueStrings: the non-empty values, each at its first occurrence. */
  function Unique(values: seq<string>, seen: set<string>): seq<string> {
    if |values| == 0 then []
    else if values[0] == "" || values[0] in seen then Unique(values[1..], seen)
    else [values[0]] + Unique(values[1..], seen + {values[0]})
  }

  function UniqueStrings(values: seq<string>): seq<string> { Unique(values, {}) }

  function BuildSelector(jobs: seq<string>): Selector {
    if |jobs| == 0 then AllSeries else ForJobs(jobs)
  }

  predicate CanNarrow(q: Query) { q.text != "" && q.takesJobMatcher }

  function BuildExportQuery(c: ExportConfig): (Selector, bool) {
    if c.mode.Custom? && c.query.text != "" then
      match c.queryType
      case SelectorQuery =>
        if |c.jobs| == 0 then (Plain(c.query), false)
        else if CanNarrow(c.query) then (Narrowed(c.query, c.jobs), false)
        else (Joined(c.query, c.jobs), true)
      case MetricsQL => (Plain(c.query), true)
      case OtherQuery => (Plain(c.query), false)
    else
      (BuildSelector(c.jobs), false)
  }

  function NewAttempt(c: ExportConfig, tr: TimeRange): Attempt {
    var (selector, useQueryRange) := BuildExportQuery(c);
    Attempt(selector, tr, useQueryRange, 0, UniqueStrings(c.jobs),
            if useQueryRange then QueryRange else ExportApi, c.metricStepSeconds)
  }

  predicate SplitsByJob(c: ExportConfig) {
    (c.mode.Custom? && c.queryType.SelectorQuery?) || c.mode.Cluster?
  }

  /** buildJobSplitAttempt, with the depth its caller sets. */
  function JobChild(c: ExportConfig, parent: Attempt, job: string): Attempt
    requires SplitsByJob(c)
  {
    var child := Attempt(AllSeries, parent.range, false, parent.depth + 1, [job], ExportApi, parent.step);
    if c.mode.Custom? then
      if CanNarrow(c.query) then child.(selector := Narrowed(c.query, [job]))
      else child.(selector := Joined(c.query, [job]), useQueryRange := true, strategy := QueryRange)
    else
      child.(selector := BuildSelector([job]))
  }

  function JobChildren(c: ExportConfig, parent: Attempt, jobs: seq<string>): (children: seq<Attempt>)
    requires SplitsByJob(c)
    ensures |children| == |jobs|
    ensures forall x :: x in children ==> |x.jobs| == 1
  {
    if |jobs| == 0 then [] else [JobChild(c, parent, jobs[0])] + JobChildren(c, parent, jobs[1..])
  }

  function MinWindow(minWindowSeconds: int): (window: int)
    ensures window > 0
  {
    if minWindowSeconds <= 0 then 5 * SECOND else minWindowSeconds * SECOND
  }

  function SplitTimeRange(tr: TimeRange, minWindowSeconds: int): (halves: Option<(TimeRange, TimeRange)>)
    ensures halves.Some? <==> tr.Duration() > (if minWindowSeconds <= 0 then 5 else minWindowSeconds) * SECOND
    ensures halves.Some? ==>
              && halves.value.0.start == tr.start
              && halves.value.0.end == halves.value.1.start
              && halves.value.1.end == tr.end
              && 2 * halves.value.0.Duration() >= MinWindow(minWindowSeconds)
              && 2 * halves.value.1.Duration() >= MinWindow(minWindowSeconds)
              && halves.value.0.Duration() > 0 && halves.value.1.Duration() > 0
  {
    if tr.Duration() <= MinWindow(minWindowSeconds) then None
    else
      var mid := tr.start + tr.Duration() / 2;
      if mid <= tr.start || tr.end <= mid then None
      else Some((TimeRange(tr.start, mid), TimeRange(mid, tr.end)))
  }

  function FirstAbove(ladder: seq<int>, current: int): Option<int> {
    if |ladder| == 0 then None
    else if ladder[0] > current then Some(ladder[0])
    else FirstAbove(ladder[1..], current)
  }

  function NextAutopilotStep(current: int, safety: SafetyConfig): Option<int> {
    if !safety.mode.Autopilot? then None
    else FirstAbove(Ladder(safety.stepLadderSeconds, safety.maxStepSeconds), current)
  }

  // ---- The retry decision ----

  datatype Decision = Decision(strategy: Strategy, kind: ErrorKind, range: TimeRange, step: int)

  datatype Plan =
    | GiveUp
    | CannotDivide(decision: Decision)
    | Retry(decision: Decision, next: Attempt)
    | Divide(decision: Decision, children: seq<Attempt>)

  /** The switch of exportWindowAdaptive on the kind of the error an attempt ended in. */
  function PlanFor(c: ExportConfig, a: Attempt, kind: ErrorKind): Plan {
    if kind.MissingRoute? && !a.useQueryRange then
      Retry(Decision(QueryRange, kind, a.range, 0),
            a.(useQueryRange := true, depth := a.depth + 1, strategy := QueryRange))
    else if kind.TooManySeries? && c.safety.autoSplit && a.depth < c.safety.maxSplitDepth
            && c.safety.splitByJob && |a.jobs| > 1 then
      var d := Decision(SplitByJob, kind, a.range, 0);
      if SplitsByJob(c) then Divide(d, JobChildren(c, a, a.jobs)) else CannotDivide(d)
    else if kind.QueryTimeout? && a.useQueryRange then
      var halves := if c.safety.autoSplit && a.depth < c.safety.maxSplitDepth
                    then SplitTimeRange(a.range, c.safety.minWindowSeconds) else None;
      match halves
      case Some((left, right)) =>
        var half := a.(depth := a.depth + 1, strategy := QueryRange);
        Divide(Decision(SplitByTime, kind, a.range, a.step), [half.(range := left), half.(range := right)])
      case None =>
        match NextAutopilotStep(a.step, c.safety)
        case Some(step) =>
          Retry(Decision(IncreaseStep, kind, a.range, step), a.(step := step, depth := 0, strategy := QueryRange))
        case None => GiveUp
    else
      GiveUp
  }

  // ---- Why the retries end ----

  function JobsToSplit(a: Attempt): nat { if |a.jobs| > 1 then 1 else 0 }

  function FallbacksLeft(a: Attempt): nat { if a.useQueryRange then 0 else 1 }

  function CountAbove(ladder: seq<int>, step: int): nat {
    if |ladder| == 0 then 0 else (if ladder[0] > step then 1 else 0) + CountAbove(ladder[1..], step)
  }

  function RungsLeft(c: ExportConfig, a: Attempt): nat {
    if c.safety.mode.Autopilot? then
      CountAbove(Ladder(c.safety.stepLadderSeconds, c.safety.maxStepSeconds), a.step)
    else
      0
  }

  function DepthLeft(c: ExportConfig, a: Attempt): nat {
    if a.depth < c.safety.maxSplitDepth then c.safety.maxSplitDepth - a.depth else 0
  }

  /** `x` is strictly below `y` in the lexicographic order that every retry descends. */
  predicate Below(c: ExportConfig, x: Attempt, y: Attempt) {
    || JobsToSplit(x) < JobsToSplit(y)
    || (JobsToSplit(x) == JobsToSplit(y)
        && (|| FallbacksLeft(x) < FallbacksLeft(y)
            || (FallbacksLeft(x) == FallbacksLeft(y)
                && (|| RungsLeft(c, x) < RungsLeft(c, y)
                    || (RungsLeft(c, x) == RungsLeft(c, y) && DepthLeft(c, x) < DepthLeft(c, y))))))
  }

  function Successors(p: Plan): seq<Attempt> {
    match p
    case Retry(_, next) => [next]
    case Divide(_, children) => children
    case _ => []
  }

  lemma {:induction false} CountAboveDrops(ladder: seq<int>, low: int, high: int)
    requires low < high
    ensures CountAbove(ladder, high) <= CountAbove(ladder, low)
    ensures high in ladder ==> CountAbove(ladder, high) < CountAbove(ladder, low)
  {
    if |ladder| > 0 { CountAboveDrops(ladder[1..], low, high); }
  }

  lemma {:induction false} FirstAboveIsOnLadder(ladder: seq<int>, current: int)
    ensures FirstAbove(ladder, current).Some? ==>
              FirstAbove(ladder, current).value in ladder && FirstAbove(ladder, current).value > current
    ensures FirstAbove(ladder, current).None? ==> forall s :: s in ladder ==> s <= current
  {
    if |ladder| > 0 {
      assert ladder == [ladder[0]] + ladder[1..];
      FirstAboveIsOnLadder(ladder[1..], current);
    }
  }

  /** Whatever the error, every attempt the engine makes next is below the failed one:
      although the depth goes back to 0 on a coarser step, and query_range goes back to the
      export API in a job split, the retries cannot go on for ever. */
  lemma RetriesDescend(c: ExportConfig, a: Attempt, kind: ErrorKind)
    ensures forall x :: x in Successors(PlanFor(c, a, kind)) ==> Below(c, x, a)
  {
    var p := PlanFor(c, a, kind);
    var ladder := Ladder(c.safety.stepLadderSeconds, c.safety.maxStepSeconds);
    match p
    case Retry(d, next) =>
      if d.strategy.IncreaseStep? {
        FirstAboveIsOnLadder(ladder, a.step);
        CountAboveDrops(ladder, a.step, next.step);
      }
      assert Below(c, next, a);
    case Divide(d, children) =>
      if d.strategy.SplitByTime? {
        assert children[0].jobs == a.jobs && children[1].jobs == a.jobs;
        assert Below(c, children[0], a) && Below(c, children[1], a);
      }
    case _ =>
  }

  // ---- The environment ----

  /** What a read returns; a broken one may have delivered some rows first. */
  datatype Reply = Rows(rows: seq<Row>) | Broken(partial: seq<Row>, failure: Failure)

  /** What appending one file to another does; a torn append leaves a prefix behind. */
  datatype Append = Whole | Torn(kept: nat, failure: Failure)

  datatype Env = Env(
    local: nat -> Option<Failure>,                // opening, flushing or closing the attempt file
    fetch: (nat, Attempt) -> Reply,               // one /api/v1/export request
    query: (nat, Attempt, TimeRange) -> Reply,    // one /api/v1/query_range request
    append: nat -> Append,
    create: nat -> Option<Failure>,               // creating a split file
    canceled: nat -> bool,                        // the context check before a batch
    archive: nat -> Option<Failure>)              // reading the staging file into the archive

  datatype Fetched = Fetched(reply: Reply, clock: nat)

  /** The chunk loop of exportViaQueryRange: stops at the first chunk that fails. */
  function FetchChunks(env: Env, a: Attempt, chunks: seq<TimeRange>, t: nat): Fetched {
    if |chunks| == 0 then Fetched(Rows([]), t)
    else
      match env.query(t, a, chunks[0])
      case Broken(partial, e) => Fetched(Broken(partial, e), t + 1)
      case Rows(rows) =>
        var rest := FetchChunks(env, a, chunks[1..], t + 1);
        match rest.reply
        case Rows(more) => rest.(reply := Rows(rows + more))
        case Broken(more, e) => rest.(reply := Broken(rows + more, e))
  }

  /** fetchAndProcessAttempt: what ends up in the attempt file. */
  function Fetch(env: Env, a: Attempt, t: nat): Fetched {
    match env.local(t)
    case Some(e) => Fetched(Broken([], e), t + 1)
    case None =>
      if a.useQueryRange then FetchChunks(env, a, Chunks(a.range), t + 1)
      else Fetched(env.fetch(t + 1, a), t + 2)
  }

  function Kept(rows: seq<Row>, n: nat): seq<Row> { if n < |rows| then rows[..n] else rows }

  // ---- The engine ----

  datatype Event = Issued(attempt: Attempt) | Succeeded(attempt: Attempt, rows: seq<Row>) | Decided(decision: Decision)

  /** `added` is what the given staging file gains and `count` what the call returns. */
  datatype Outcome = Outcome(added: seq<Row>, count: nat, error: Option<Failure>, events: seq<Event>, clock: nat) {
    predicate Ok() { error.None? }

    function After(events0: seq<Event>): Outcome { this.(events := events0 + events) }

    /** This outcome, once `first` has succeeded before it. */
    function Following(first: Outcome): Outcome {
      this.(added := first.added + added, count := first.count + count, events := first.events + events)
    }
  }

  /** What is left of `o` once its file is appended to the file above it. */
  function AppendTo(env: Env, o: Outcome): Outcome {
    match env.append(o.clock)
    case Whole => o.(clock := o.clock + 1)
    case Torn(n, e) => Outcome(Kept(o.added, n), 0, Some(e), o.events, o.clock + 1)
  }

  /** exportWindowAdaptive. */
  function Export(c: ExportConfig, env: Env, a: Attempt, t: nat): Outcome
    decreases JobsToSplit(a), FallbacksLeft(a), RungsLeft(c, a), DepthLeft(c, a), 2, 0
  {
    var f := Fetch(env, a, t);
    match f.reply
    case Rows(rows) => AppendTo(env, Outcome(rows, |rows|, None, [Issued(a), Succeeded(a, rows)], f.clock))
    case Broken(_, e) =>
      RetriesDescend(c, a, e.kind);
      match PlanFor(c, a, e.kind)
      case GiveUp => Outcome([], 0, Some(e), [Issued(a)], f.clock)
      case CannotDivide(d) => Outcome([], 0, Some(e), [Issued(a), Decided(d)], f.clock)
      case Retry(d, next) =>
        assert next in Successors(PlanFor(c, a, e.kind));
        Export(c, env, next, f.clock).After([Issued(a), Decided(d)])
      case Divide(d, children) => ExportDivided(c, env, a, children, f.clock).After([Issued(a), Decided(d)])
  }

  /** runSplitAttemptsAtomically: the children write a split file, appended only when all of
      them succeed. */
  function ExportDivided(c: ExportConfig, env: Env, a: Attempt, children: seq<Attempt>, t: nat): Outcome
    requires forall x :: x in children ==> Below(c, x, a)
    decreases JobsToSplit(a), FallbacksLeft(a), RungsLeft(c, a), DepthLeft(c, a), 1, 0
  {
    match env.create(t)
    case Some(e) => Outcome([], 0, Some(e), [], t + 1)
    case None =>
      var o := ExportEach(c, env, a, children, t + 1);
      if o.Ok() then AppendTo(env, o) else o.(added := [], count := 0)
  }

  /** The children one after the other, up to the first that fails; `added` is the content
      of the split file. */
  function ExportEach(c: ExportConfig, env: Env, a: Attempt, children: seq<Attempt>, t: nat): Outcome
    requires forall x :: x in children ==> Below(c, x, a)
    decreases JobsToSplit(a), FallbacksLeft(a), RungsLeft(c, a), DepthLeft(c, a), 0, |children|
  {
    if |children| == 0 then Outcome([], 0, None, [], t)
    else
      assert Below(c, children[0], a);
      var first := Export(c, env, children[0], t);
      if !first.Ok() then first
      else ExportEach(c, env, a, children[1..], first.clock).Following(first)
  }
}
