/** Reading the record of an adaptive export: the attempts that were kept, the rows and windows
    they stand for, the decisions, and the number of attempts. */
module AdaptiveEvents {
  import opened Domain
  import opened AdaptiveExport

  datatype Leaf = Leaf(attempt: Attempt, rows: seq<Row>)

  /** The attempts that succeeded, with the rows each delivered, in order. */
  function Leaves(events: seq<Event>): seq<Leaf> {
    if |events| == 0 then []
    else
      var rest := Leaves(events[1..]);
      match events[0]
      case Succeeded(a, rows) => [Leaf(a, rows)] + rest
      case _ => rest
  }

  function Output(leaves: seq<Leaf>): seq<Row> {
    if |leaves| == 0 then [] else leaves[0].rows + Output(leaves[1..])
  }

  function Ranges(leaves: seq<Leaf>): seq<TimeRange> {
    if |leaves| == 0 then [] else [leaves[0].attempt.range] + Ranges(leaves[1..])
  }

  function Decisions(events: seq<Event>): seq<Decision> {
    if |events| == 0 then []
    else
      var rest := Decisions(events[1..]);
      match events[0]
      case Decided(d) => [d] + rest
      case _ => rest
  }

  function AttemptCount(events: seq<Event>): nat {
    if |events| == 0 then 0 else (if events[0].Issued? then 1 else 0) + AttemptCount(events[1..])
  }

  lemma {:induction false} LeavesOfAppend(x: seq<Event>, y: seq<Event>)
    ensures Leaves(x + y) == Leaves(x) + Leaves(y)
  {
    if |x| == 0 {
      assert x + y == y;
    } else {
      assert (x + y)[0] == x[0] && (x + y)[1..] == x[1..] + y;
      LeavesOfAppend(x[1..], y);
    }
  }

  lemma {:induction false} DecisionsOfAppend(x: seq<Event>, y: seq<Event>)
    ensures Decisions(x + y) == Decisions(x) + Decisions(y)
  {
    if |x| == 0 {
      assert x + y == y;
    } else {
      assert (x + y)[0] == x[0] && (x + y)[1..] == x[1..] + y;
      DecisionsOfAppend(x[1..], y);
    }
  }

  lemma {:induction false} AttemptsOfAppend(x: seq<Event>, y: seq<Event>)
    ensures AttemptCount(x + y) == AttemptCount(x) + AttemptCount(y)
  {
    if |x| == 0 {
      assert x + y == y;
    } else {
      assert (x + y)[0] == x[0] && (x + y)[1..] == x[1..] + y;
      AttemptsOfAppend(x[1..], y);
    }
  }

  lemma EventsAppend(x: seq<Event>, y: seq<Event>)
    ensures Leaves(x + y) == Leaves(x) + Leaves(y)
    ensures Decisions(x + y) == Decisions(x) + Decisions(y)
    ensures AttemptCount(x + y) == AttemptCount(x) + AttemptCount(y)
  {
    LeavesOfAppend(x, y);
    DecisionsOfAppend(x, y);
    AttemptsOfAppend(x, y);
  }

  lemma {:induction false} OutputOfAppend(x: seq<Leaf>, y: seq<Leaf>)
    ensures Output(x + y) == Output(x) + Output(y)
  {
    if |x| == 0 {
      assert x + y == y;
    } else {
      assert (x + y)[0] == x[0] && (x + y)[1..] == x[1..] + y;
      OutputOfAppend(x[1..], y);
    }
  }

  lemma {:induction false} RangesOfAppend(x: seq<Leaf>, y: seq<Leaf>)
    ensures Ranges(x + y) == Ranges(x) + Ranges(y)
  {
    if |x| == 0 {
      assert x + y == y;
    } else {
      assert (x + y)[0] == x[0] && (x + y)[1..] == x[1..] + y;
      RangesOfAppend(x[1..], y);
    }
  }

  lemma OneEvent(e: Event)
    ensures Leaves([e]) == (match e case Succeeded(a, rows) => [Leaf(a, rows)] case _ => [])
    ensures Decisions([e]) == (match e case Decided(d) => [d] case _ => [])
    ensures AttemptCount([e]) == if e.Issued? then 1 else 0
  {
    assert [e][1..] == [];
  }

  /** What the two events of a retry decision contribute. */
  lemma DecisionEvents(a: Attempt, d: Decision)
    ensures Leaves([Issued(a), Decided(d)]) == []
    ensures Decisions([Issued(a), Decided(d)]) == [d]
    ensures AttemptCount([Issued(a), Decided(d)]) == 1
  {
    OneEvent(Issued(a));
    OneEvent(Decided(d));
    EventsAppend([Issued(a)], [Decided(d)]);
    assert [Issued(a)] + [Decided(d)] == [Issued(a), Decided(d)];
  }

  /** The record of a decision in front adds no row, the decision, and one attempt. */
  lemma LeavesAfterDecision(a: Attempt, d: Decision, events: seq<Event>)
    ensures Leaves([Issued(a), Decided(d)] + events) == Leaves(events)
  {
    DecisionEvents(a, d);
    LeavesOfAppend([Issued(a), Decided(d)], events);
  }

  lemma DecisionsAfterDecision(a: Attempt, d: Decision, events: seq<Event>)
    ensures Decisions([Issued(a), Decided(d)] + events) == [d] + Decisions(events)
  {
    DecisionEvents(a, d);
    DecisionsOfAppend([Issued(a), Decided(d)], events);
  }

  lemma AttemptsAfterDecision(a: Attempt, d: Decision, events: seq<Event>)
    ensures AttemptCount([Issued(a), Decided(d)] + events) == 1 + AttemptCount(events)
  {
    DecisionEvents(a, d);
    AttemptsOfAppend([Issued(a), Decided(d)], events);
  }

  /** What the two events of a successful attempt contribute. */
  lemma SuccessEvents(a: Attempt, rows: seq<Row>)
    ensures Leaves([Issued(a), Succeeded(a, rows)]) == [Leaf(a, rows)]
    ensures Decisions([Issued(a), Succeeded(a, rows)]) == []
    ensures AttemptCount([Issued(a), Succeeded(a, rows)]) == 1
    ensures Output([Leaf(a, rows)]) == rows
    ensures Ranges([Leaf(a, rows)]) == [a.range]
  {
    OneEvent(Issued(a));
    OneEvent(Succeeded(a, rows));
    EventsAppend([Issued(a)], [Succeeded(a, rows)]);
    assert [Issued(a)] + [Succeeded(a, rows)] == [Issued(a), Succeeded(a, rows)];
    assert [Leaf(a, rows)][1..] == [];
  }

  /** A division succeeds only through its children. */
  lemma DividedOk(c: ExportConfig, env: Env, a: Attempt, children: seq<Attempt>, t: nat)
    requires forall x :: x in children ==> Below(c, x, a)
    requires ExportDivided(c, env, a, children, t).Ok()
    ensures ExportEach(c, env, a, children, t + 1).Ok()
    ensures ExportDivided(c, env, a, children, t).events == ExportEach(c, env, a, children, t + 1).events
    ensures ExportDivided(c, env, a, children, t).added == ExportEach(c, env, a, children, t + 1).added
  {
  }
}
