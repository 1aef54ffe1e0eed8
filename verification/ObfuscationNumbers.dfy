/** How the names an obfuscator hands out are numbered and what they show. */
module ObfuscationNumbers {
  import opened Obfuscation

  // ---- Decimal numbers ----

  predicate AllDigits(s: string) { forall i :: 0 <= i < |s| ==> '0' <= s[i] <= '9' }

  /** The number a string of digits stands for. */
  function Reading(s: string): nat
    requires AllDigits(s)
  {
    if |s| == 0 then 0 else 10 * Reading(s[..|s| - 1]) + (s[|s| - 1] as int - '0' as int)
  }

  lemma {:induction false} DecimalReads(n: nat)
    ensures Reading(Decimal(n)) == n
  {
    var s := Decimal(n);
    if n < 10 {
      assert s[..0] == [];
    } else {
      assert s[..|s| - 1] == Decimal(n / 10);
      DecimalReads(n / 10);
    }
  }

  // ---- Counters ----

  /** The instances that got an address, and the jobs that were named after a component. */
  function Addressed(names: map<string, string>, p: Parser): set<string> { set a | a in names && p.port(a).Some? }

  ghost predicate NamedAfter(name: string, component: string) { exists n :: name == JobName(component, n) }

  ghost function JobsOf(names: map<string, string>, component: string): set<string> {
    set j | j in names && NamedAfter(names[j], component)
  }

  ghost predicate JobsNumbered(counters: map<string, nat>, names: map<string, string>) {
    forall c :: Count(counters, c) == |JobsOf(names, c)|
  }

  ghost predicate ValuesNumbered(counters: map<string, nat>, custom: map<string, map<string, string>>) {
    forall k :: Count(counters, k) == |LabelValues(custom, k)|
  }

  /** Every counter is the number of names made with it. */
  ghost predicate Numbered(s: State, p: Parser) {
    && s.instanceCounter == |Addressed(s.instances, p)|
    && JobsNumbered(s.jobCounter, s.jobs)
    && ValuesNumbered(s.customCounters, s.custom)
  }

  lemma NewAddressed(names: map<string, string>, p: Parser, instance: string, name: string)
    requires instance !in names
    ensures |Addressed(names[instance := name], p)| == |Addressed(names, p)| + if p.port(instance).Some? then 1 else 0
  {
    var before, after := Addressed(names, p), Addressed(names[instance := name], p);
    assert instance !in before;
    if p.port(instance).Some? {
      assert after == before + {instance};
    } else {
      assert after == before;
    }
  }

  lemma InstanceNumbered(s: State, p: Parser, instance: string)
    requires s.instanceCounter == |Addressed(s.instances, p)|
    ensures var t := NameInstance(s, p, instance).0; t.instanceCounter == |Addressed(t.instances, p)|
  {
    if instance !in s.instances { NewAddressed(s.instances, p, instance, NameInstance(s, p, instance).1); }
  }

  lemma NewJobOf(names: map<string, string>, job: string, component: string, n: nat, c: string)
    requires job !in names
    ensures JobsOf(names[job := JobName(component, n)], c) == JobsOf(names, c) + if c == component then {job} else {}
  {
    var name, after := JobName(component, n), names[job := JobName(component, n)];
    if c == component {
      assert NamedAfter(name, c);
    } else if m :| name == JobName(c, m) {
      JobNamesDiffer(c, m, component, n);
    }
    forall j ensures j in JobsOf(after, c) <==> j in JobsOf(names, c) || (c == component && j == job) {
      if j != job { assert j in after <==> j in names; }
    }
  }

  lemma JobNumbered(s: State, job: string, component: string)
    requires JobsNumbered(s.jobCounter, s.jobs)
    ensures var t := NameJob(s, job, component).0; JobsNumbered(t.jobCounter, t.jobs)
  {
    var t := NameJob(s, job, component).0;
    if job !in s.jobs {
      var n := Count(s.jobCounter, component) + 1;
      forall c ensures Count(t.jobCounter, c) == |JobsOf(t.jobs, c)| {
        NewJobOf(s.jobs, job, component, n, c);
        assert job !in JobsOf(s.jobs, c) && Count(s.jobCounter, c) == |JobsOf(s.jobs, c)|;
      }
    }
  }

  lemma ValueNumbered(s: State, name: string, value: string)
    requires ValuesNumbered(s.customCounters, s.custom)
    ensures var t := NameValue(s, name, value).0; ValuesNumbered(t.customCounters, t.custom)
  {
    var t := NameValue(s, name, value).0;
    forall k ensures Count(t.customCounters, k) == |LabelValues(t.custom, k)| {
      assert Count(s.customCounters, k) == |LabelValues(s.custom, k)|;
    }
  }

  lemma InstanceCallNumbered(s: State, p: Parser, instance: string)
    requires Numbered(s, p)
    ensures Numbered(NameInstance(s, p, instance).0, p)
  {
    var t := NameInstance(s, p, instance).0;
    assert t.(instances := s.instances, instanceCounter := s.instanceCounter) == s;
    InstanceNumbered(s, p, instance);
  }

  lemma JobCallNumbered(s: State, p: Parser, job: string, component: string)
    requires Numbered(s, p)
    ensures Numbered(NameJob(s, job, component).0, p)
  {
    var t := NameJob(s, job, component).0;
    assert t.(jobs := s.jobs, jobCounter := s.jobCounter) == s;
    JobNumbered(s, job, component);
  }

  lemma ValueCallNumbered(s: State, p: Parser, name: string, value: string)
    requires Numbered(s, p)
    ensures Numbered(NameValue(s, name, value).0, p)
  {
    var t := NameValue(s, name, value).0;
    assert t.(custom := s.custom, customCounters := s.customCounters) == s;
    ValueNumbered(s, name, value);
  }

  lemma CallNumbered(s: State, p: Parser, c: Call)
    requires Numbered(s, p)
    ensures Numbered(Obfuscate(s, p, c).0, p)
  {
    match c
    case Instance(instance) => InstanceCallNumbered(s, p, instance);
    case Job(job, component) => JobCallNumbered(s, p, job, component);
    case Custom(name, value) => ValueCallNumbered(s, p, name, value);
  }

  /** Over any sequence of calls no number is left out: there are as many addresses, jobs of a
      component and values of a label as the counter says. */
  lemma {:induction false} NamesAreNumbered(p: Parser, calls: seq<Call>)
    ensures Numbered(After(NEW, p, calls), p)
  {
    if |calls| == 0 {
      assert Addressed(map[], p) == {} && forall c :: JobsOf(map[], c) == {};
    } else {
      NamesAreNumbered(p, calls[..|calls| - 1]);
      CallNumbered(After(NEW, p, calls[..|calls| - 1]), p, calls[|calls| - 1]);
    }
  }

  // ---- What a name shows ----

  /** A host that is not one, and the given port. */
  ghost predicate ShowsPort(name: string, port: string) {
    exists host :: "777.777." <= host && ':' !in host && name == host + ":" + port
  }

  lemma InstanceShowsPort(n: nat, port: string)
    ensures ShowsPort(InstanceName(n, port), port)
  {
    var host := Address(n);
    assert "777.777." <= host && ':' !in host;
  }

  /** Over any sequence of calls an instance that has a port keeps it, behind an address of the fake
      pool, and any other gets its hash. */
  lemma PortIsKept(p: Parser, calls: seq<Call>, instance: string)
    requires HashesHaveNoColon(p) && instance in After(NEW, p, calls).instances
    ensures var name := After(NEW, p, calls).instances[instance];
            match p.port(instance)
            case Some(port) => ShowsPort(name, port)
            case None => name == p.hash(instance)
  {
    CallsKeep(p, calls);
    var s := After(NEW, p, calls);
    assert InstanceIssued(p, s.instanceCounter, instance, s.instances[instance]);
    if p.port(instance).Some? {
      var n :| 0 < n <= s.instanceCounter && s.instances[instance] == InstanceName(n, p.port(instance).value);
      InstanceShowsPort(n, p.port(instance).value);
    }
  }

  /** A new name says what it stands for, and how many of its kind there are with it. */
  lemma NewNamesShow(s: State, p: Parser, c: Call)
    requires Numbered(s, p)
    ensures match c
            case Job(job, component) =>
              job !in s.jobs ==>
                Obfuscate(s, p, c).1 == "vm_component_" + component + "_" + Decimal(|JobsOf(s.jobs, component)| + 1)
            case Custom(name, value) =>
              value !in LabelValues(s.custom, name) ==>
                Obfuscate(s, p, c).1 == name + "-" + Decimal(|LabelValues(s.custom, name)| + 1)
            case Instance(instance) =>
              instance !in s.instances && p.port(instance).Some? ==>
                var before := |Addressed(s.instances, p)|;
                Obfuscate(s, p, c).1 == "777.777." + Decimal(before / 255 + 1) + "." + Decimal(before % 255 + 1)
                                        + ":" + p.port(instance).value
  {
    match c
    case Job(job, component) => assert Count(s.jobCounter, component) == |JobsOf(s.jobs, component)|;
    case Custom(name, value) => assert Count(s.customCounters, name) == |LabelValues(s.custom, name)|;
    case Instance(instance) =>
  }
}
