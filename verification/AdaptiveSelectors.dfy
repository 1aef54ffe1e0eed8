/** What the selectors of an export select, and that dividing a request by job selects the same. */
module AdaptiveSelectors {
  import opened Domain
  import opened AdaptiveExport

  /** The rows a selector matches; `holds` says which rows a query text selects by itself. */
  predicate Matches(holds: (string, Row) -> bool, selector: Selector, row: Row) {
    match selector
    case AllSeries => true
    case ForJobs(jobs) => row.job in jobs
    case Plain(query) => holds(query.text, row)
    case Narrowed(query, jobs) => holds(query.text, row) && row.job in jobs
    case Joined(query, jobs) => holds(query.text, row) && row.job in jobs
  }

  predicate HasQuery(c: ExportConfig) { c.mode.Custom? && c.query.text != "" }

  /** The rows a configuration asks for: those its query selects, if it has one, of the configured
      jobs, if there are any; only a selector query is restricted to jobs. */
  predicate Wanted(holds: (string, Row) -> bool, c: ExportConfig, row: Row) {
    && (HasQuery(c) ==> holds(c.query.text, row))
    && (c.jobs == [] || row.job in c.jobs || (HasQuery(c) && !c.queryType.SelectorQuery?))
  }

  lemma NewAttemptSelects(holds: (string, Row) -> bool, c: ExportConfig, tr: TimeRange, row: Row)
    ensures Matches(holds, NewAttempt(c, tr).selector, row) <==> Wanted(holds, c, row)
  {
  }

  lemma {:induction false} UniqueMeans(values: seq<string>, seen: set<string>)
    ensures var u := Unique(values, seen);
            && Distinct(u)
            && (forall v :: v in u <==> v in values && v != "" && v !in seen)
    decreases |values|
  {
    if |values| > 0 {
      assert values == [values[0]] + values[1..];
      if values[0] == "" || values[0] in seen {
        UniqueMeans(values[1..], seen);
      } else {
        UniqueMeans(values[1..], seen + {values[0]});
      }
    }
  }

  /** uniqueStrings keeps every non-empty value exactly once. */
  lemma UniqueStringsMeans(values: seq<string>)
    ensures Distinct(UniqueStrings(values))
    ensures forall v :: v in UniqueStrings(values) <==> v in values && v != ""
  {
    UniqueMeans(values, {});
  }

  /** The order is that of the first occurrences: what comes later does not change what came before. */
  lemma {:induction false} UniqueKeepsOrder(values: seq<string>, n: nat, seen: set<string>)
    requires n <= |values|
    ensures Unique(values[..n], seen) <= Unique(values, seen)
    decreases n
  {
    if n > 0 {
      assert values[..n][1..] == values[1..][..n - 1];
      UniqueKeepsOrder(values[1..], n - 1, if values[0] == "" || values[0] in seen then seen else seen + {values[0]});
    }
  }

  // ---- Division by job ----

  /** How many of the attempts select `row`. */
  function MatchCount(holds: (string, Row) -> bool, attempts: seq<Attempt>, row: Row): nat {
    if |attempts| == 0 then 0
    else (if Matches(holds, attempts[0].selector, row) then 1 else 0) + MatchCount(holds, attempts[1..], row)
  }

  /** A child selects what its own job has of the query. */
  lemma {:induction false} ChildrenSelect(
    holds: (string, Row) -> bool, c: ExportConfig, parent: Attempt, jobs: seq<string>, row: Row)
    requires SplitsByJob(c) && Distinct(jobs)
    ensures MatchCount(holds, JobChildren(c, parent, jobs), row) ==
            if row.job in jobs && (c.mode.Custom? ==> holds(c.query.text, row)) then 1 else 0
  {
    if |jobs| > 0 {
      assert jobs == [jobs[0]] + jobs[1..];
      ChildrenSelect(holds, c, parent, jobs[1..], row);
      assert JobChildren(c, parent, jobs)[1..] == JobChildren(c, parent, jobs[1..]);
    }
  }

  /** Dividing a request by job does not lose `row`: it has a job name if blank names were
      configured, and a custom export has a query. */
  predicate SafeToDivide(c: ExportConfig, row: Row) {
    SplitsByJob(c) ==> (row.job == "" ==> "" !in c.jobs) && (c.mode.Custom? ==> c.query.text != "")
  }

  /** Then every row that is wanted is selected by exactly one child, and no other row by any. */
  lemma DivisionSelects(holds: (string, Row) -> bool, c: ExportConfig, parent: Attempt, row: Row)
    requires SplitsByJob(c) && c.jobs != [] && SafeToDivide(c, row)
    ensures MatchCount(holds, JobChildren(c, parent, UniqueStrings(c.jobs)), row) ==
            if Wanted(holds, c, row) then 1 else 0
  {
    UniqueStringsMeans(c.jobs);
    ChildrenSelect(holds, c, parent, UniqueStrings(c.jobs), row);
  }

  /** Whatever the query selects, the children select each wanted row once and no other. */
  ghost predicate DividesCleanly(c: ExportConfig, parent: Attempt)
    requires SplitsByJob(c)
  {
    forall holds, row ::
      MatchCount(holds, JobChildren(c, parent, UniqueStrings(c.jobs)), row) == if Wanted(holds, c, row) then 1 else 0
  }

  /** That is so exactly when no job name is blank and a custom export has a query. */
  lemma DividesCleanlyIff(c: ExportConfig, parent: Attempt)
    requires SplitsByJob(c) && c.jobs != []
    ensures DividesCleanly(c, parent) <==> "" !in c.jobs && (c.mode.Custom? ==> c.query.text != "")
  {
    if "" !in c.jobs && (c.mode.Custom? ==> c.query.text != "") {
      forall holds, row
        ensures MatchCount(holds, JobChildren(c, parent, UniqueStrings(c.jobs)), row) ==
                if Wanted(holds, c, row) then 1 else 0
      {
        DivisionSelects(holds, c, parent, row);
      }
    } else {
      var row := if "" in c.jobs then Row("", "") else Row(c.jobs[0], "");
      var holds := if "" in c.jobs then AllRows() else NoRows();
      UniqueStringsMeans(c.jobs);
      ChildrenSelect(holds, c, parent, UniqueStrings(c.jobs), row);
      assert Wanted(holds, c, row);
    }
  }

  function AllRows(): (string, Row) -> bool { (text, row) => true }

  function NoRows(): (string, Row) -> bool { (text, row) => false }
}
