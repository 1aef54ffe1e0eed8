/** The obfuscator of internal/infrastructure/obfuscation/obfuscator.go: counters and caches
    that give every instance, job and label value a stable name of its own. */
module Obfuscation {
  import opened Domain

  // ---- Names ----

  function Digit(d: nat): char
    requires d < 10
  {
    ('0' as int + d) as char
  }

  function Decimal(n: nat): (s: string)
    ensures |s| > 0 && forall i :: 0 <= i < |s| ==> '0' <= s[i] <= '9'
  {
    if n < 10 then [Digit(n)] else Decimal(n / 10) + [Digit(n % 10)]
  }

  lemma {:induction false} DecimalInjective(m: nat, n: nat)
    requires Decimal(m) == Decimal(n)
    ensures m == n
  {
    var s := Decimal(m);
    assert s[|s| - 1] == Digit(m % 10) == Digit(n % 10);
    assert (if m < 10 then [] else Decimal(m / 10)) == s[..|s| - 1] == (if n < 10 then [] else Decimal(n / 10));
    if m >= 10 && n >= 10 { DecimalInjective(m / 10, n / 10); }
  }

  /** What follows the last separator, and what precedes it, can be read off. */
  lemma LastSeparatorSplits(a: string, x: string, b: string, y: string, sep: char)
    requires a + [sep] + x == b + [sep] + y && sep !in x && sep !in y
    ensures a == b && x == y
  {
    var s := a + [sep] + x;
    assert s[|a|] == sep && s[|b|] == sep;
    assert forall i :: |a| < i < |s| ==> s[i] == x[i - |a| - 1];
    assert forall i :: |b| < i < |s| ==> s[i] == y[i - |b| - 1];
    assert |a| == |b|;
    assert s[..|a|] == a && s[..|b|] == b && s[|a| + 1..] == x && s[|b| + 1..] == y;
  }

  /** So can what precedes the first one. */
  lemma FirstSeparatorSplits(a: string, x: string, b: string, y: string, sep: char)
    requires a + [sep] + x == b + [sep] + y && sep !in a && sep !in b
    ensures a == b && x == y
  {
    var s := a + [sep] + x;
    assert s[|a|] == sep && s[|b|] == sep;
    assert forall i :: 0 <= i < |a| ==> s[i] == a[i];
    assert forall i :: 0 <= i < |b| ==> s[i] == b[i];
    assert |a| == |b|;
    assert s[..|a|] == a && s[..|b|] == b && s[|a| + 1..] == x && s[|b| + 1..] == y;
  }

  function ThirdOctet(n: nat): nat { (if n == 0 then 0 else (n - 1) / 255) + 1 }

  function FourthOctet(n: nat): nat { (if n == 0 then 0 else (n - 1) % 255) + 1 }

  function Address(n: nat): string { "777.777." + Decimal(ThirdOctet(n)) + "." + Decimal(FourthOctet(n)) }

  /** net.JoinHostPort of a host without a colon. */
  function InstanceName(n: nat, port: string): string { Address(n) + ":" + port }

  function JobName(component: string, n: nat): string { "vm_component_" + component + "_" + Decimal(n) }

  function LabelName(name: string, n: nat): string { name + "-" + Decimal(n) }

  lemma InstanceNamesDiffer(m: nat, p: string, n: nat, q: string)
    requires m > 0 && n > 0 && InstanceName(m, p) == InstanceName(n, q)
    ensures m == n
  {
    FirstSeparatorSplits(Address(m), p, Address(n), q, ':');
    AddressesDiffer(m, n);
  }

  lemma AddressesDiffer(m: nat, n: nat)
    requires m > 0 && n > 0 && Address(m) == Address(n)
    ensures m == n
  {
    LastSeparatorSplits("777.777." + Decimal(ThirdOctet(m)), Decimal(FourthOctet(m)),
                        "777.777." + Decimal(ThirdOctet(n)), Decimal(FourthOctet(n)), '.');
    var prefix := "777.777.";
    assert (prefix + Decimal(ThirdOctet(m)))[|prefix|..] == Decimal(ThirdOctet(m));
    assert (prefix + Decimal(ThirdOctet(n)))[|prefix|..] == Decimal(ThirdOctet(n));
    DecimalInjective(ThirdOctet(m), ThirdOctet(n));
    DecimalInjective(FourthOctet(m), FourthOctet(n));
  }

  lemma JobNamesDiffer(c: string, m: nat, d: string, n: nat)
    requires JobName(c, m) == JobName(d, n)
    ensures c == d && m == n
  {
    var prefix := "vm_component_";
    LastSeparatorSplits(prefix + c, Decimal(m), prefix + d, Decimal(n), '_');
    assert (prefix + c)[|prefix|..] == c && (prefix + d)[|prefix|..] == d;
    DecimalInjective(m, n);
  }

  lemma LabelNamesDiffer(k: string, m: nat, l: string, n: nat)
    requires LabelName(k, m) == LabelName(l, n)
    ensures k == l && m == n
  {
    LastSeparatorSplits(k, Decimal(m), l, Decimal(n), '-');
    DecimalInjective(m, n);
  }

  /** The addresses are those of the documented pool exactly as long as at most 255 * 255
      instances were named; the third octet then goes on growing. */
  lemma OctetsInPoolIff(n: nat)
    requires n > 0
    ensures 1 <= ThirdOctet(n) && 1 <= FourthOctet(n) <= 255
    ensures ThirdOctet(n) <= 255 <==> n <= 255 * 255
  {
  }

  // ---- The obfuscator ----

  /** net.SplitHostPort, None where it fails and else the port; and the fallback hash. */
  datatype Parser = Parser(port: string -> Option<string>, hash: string -> string)

  datatype State = State(
    instances: map<string, string>, jobs: map<string, string>, custom: map<string, map<string, string>>,
    instanceCounter: nat, jobCounter: map<string, nat>, customCounters: map<string, nat>)

  const NEW: State := State(map[], map[], map[], 0, map[], map[])

  function Count(counters: map<string, nat>, key: string): nat { if key in counters then counters[key] else 0 }

  function LabelValues(custom: map<string, map<string, string>>, name: string): map<string, string> {
    if name in custom then custom[name] else map[]
  }

  datatype Call = Instance(instance: string) | Job(job: string, component: string) | Custom(name: string, value: string)

  function NameInstance(s: State, p: Parser, instance: string): (State, string) {
    if instance in s.instances then (s, s.instances[instance])
    else
      match p.port(instance)
      case None => (s.(instances := s.instances[instance := p.hash(instance)]), p.hash(instance))
      case Some(port) =>
        var n := s.instanceCounter + 1;
        (s.(instanceCounter := n, instances := s.instances[instance := InstanceName(n, port)]), InstanceName(n, port))
  }

  function NameJob(s: State, job: string, component: string): (State, string) {
    if job in s.jobs then (s, s.jobs[job])
    else
      var n := Count(s.jobCounter, component) + 1;
      (s.(jobCounter := s.jobCounter[component := n], jobs := s.jobs[job := JobName(component, n)]),
       JobName(component, n))
  }

  function NameValue(s: State, name: string, value: string): (State, string) {
    var values := LabelValues(s.custom, name);
    if value in values then (s, values[value])
    else
      var n := Count(s.customCounters, name) + 1;
      (s.(customCounters := s.customCounters[name := n],
          custom := s.custom[name := values[value := LabelName(name, n)]]),
       LabelName(name, n))
  }

  function Obfuscate(s: State, p: Parser, c: Call): (State, string) {
    match c
    case Instance(instance) => NameInstance(s, p, instance)
    case Job(job, component) => NameJob(s, job, component)
    case Custom(name, value) => NameValue(s, name, value)
  }

  function After(s: State, p: Parser, calls: seq<Call>): State {
    if |calls| == 0 then s else Obfuscate(After(s, p, calls[..|calls| - 1]), p, calls[|calls| - 1]).0
  }

  // ---- What holds over any sequence of calls ----

  /** Two instances share a name only if both fell back on the hash and it is the same. */
  predicate Collide(p: Parser, a: string, b: string) { p.port(a).None? && p.port(b).None? && p.hash(a) == p.hash(b) }

  /** Hashes are hexadecimal, without a colon. */
  ghost predicate HashesHaveNoColon(p: Parser) { forall s :: ':' !in p.hash(s) }

  ghost predicate OneToOne(names: map<string, string>) {
    forall i, j :: i in names && j in names && i != j ==> names[i] != names[j]
  }

  lemma NewNameKeepsOneToOne(names: map<string, string>, key: string, name: string)
    requires OneToOne(names) && key !in names && forall k :: k in names ==> names[k] != name
    ensures OneToOne(names[key := name])
  {
  }

  /** `name` was made for `instance` with a counter up to `counter`. */
  ghost predicate InstanceIssued(p: Parser, counter: nat, instance: string, name: string) {
    match p.port(instance)
    case None => name == p.hash(instance)
    case Some(port) => exists n :: 0 < n <= counter && name == InstanceName(n, port)
  }

  ghost predicate InstancesInv(p: Parser, counter: nat, names: map<string, string>) {
    && (forall a :: a in names ==> InstanceIssued(p, counter, a, names[a]))
    && (forall a, b :: a in names && b in names && a != b ==> (names[a] == names[b] <==> Collide(p, a, b)))
  }

  ghost predicate JobIssued(counters: map<string, nat>, name: string) {
    exists c, n :: 0 < n <= Count(counters, c) && name == JobName(c, n)
  }

  ghost predicate JobsInv(counters: map<string, nat>, names: map<string, string>) {
    && (forall j :: j in names ==> JobIssued(counters, names[j]))
    && OneToOne(names)
  }

  ghost predicate ValueIssued(counter: nat, key: string, name: string) {
    exists n :: 0 < n <= counter && name == LabelName(key, n)
  }

  ghost predicate ValuesInv(counter: nat, key: string, names: map<string, string>) {
    && (forall v :: v in names ==> ValueIssued(counter, key, names[v]))
    && OneToOne(names)
  }

  ghost predicate Inv(s: State, p: Parser) {
    && InstancesInv(p, s.instanceCounter, s.instances)
    && JobsInv(s.jobCounter, s.jobs)
    && AllValuesInv(s.customCounters, s.custom)
  }

  ghost predicate AllValuesInv(counters: map<string, nat>, custom: map<string, map<string, string>>) {
    forall key :: ValuesInv(Count(counters, key), key, LabelValues(custom, key))
  }

  lemma NewInstanceDiffers(p: Parser, counter: nat, a: string, given: string, instance: string)
    requires InstanceIssued(p, counter, a, given) && HashesHaveNoColon(p)
    ensures p.port(instance).None? ==> (given == p.hash(instance) <==> Collide(p, a, instance))
    ensures p.port(instance).Some? ==> given != InstanceName(counter + 1, p.port(instance).value)
  {
    if p.port(a).Some? {
      var port := p.port(a).value;
      var n :| 0 < n <= counter && given == InstanceName(n, port);
      assert given[|Address(n)|] == ':';
      if p.port(instance).Some? && given == InstanceName(counter + 1, p.port(instance).value) {
        InstanceNamesDiffer(n, port, counter + 1, p.port(instance).value);
      }
    } else if p.port(instance).Some? {
      assert InstanceName(counter + 1, p.port(instance).value)[|Address(counter + 1)|] == ':';
    }
  }

  lemma InstanceKeeps(s: State, p: Parser, instance: string)
    requires InstancesInv(p, s.instanceCounter, s.instances) && HashesHaveNoColon(p)
    ensures var t := NameInstance(s, p, instance).0; InstancesInv(p, t.instanceCounter, t.instances)
  {
    if instance !in s.instances {
      var (t, name) := NameInstance(s, p, instance);
      forall a | a in s.instances
        ensures InstanceIssued(p, t.instanceCounter, a, s.instances[a])
                && (s.instances[a] == name <==> Collide(p, a, instance))
      {
        assert InstanceIssued(p, s.instanceCounter, a, s.instances[a]);
        NewInstanceDiffers(p, s.instanceCounter, a, s.instances[a], instance);
      }
      assert InstanceIssued(p, t.instanceCounter, instance, name);
      InstanceAdded(p, t.instanceCounter, s.instances, instance, name);
    }
  }

  lemma InstanceAdded(p: Parser, counter: nat, names: map<string, string>, instance: string, name: string)
    requires instance !in names && InstanceIssued(p, counter, instance, name)
    requires forall a, b :: a in names && b in names && a != b ==> (names[a] == names[b] <==> Collide(p, a, b))
    requires forall a :: a in names ==>
             InstanceIssued(p, counter, a, names[a]) && (names[a] == name <==> Collide(p, a, instance))
    ensures InstancesInv(p, counter, names[instance := name])
  {
  }

  lemma JobStillIssued(counters: map<string, nat>, component: string, name: string)
    requires JobIssued(counters, name)
    ensures JobIssued(counters[component := Count(counters, component) + 1], name)
    ensures name != JobName(component, Count(counters, component) + 1)
  {
    var c, n :| 0 < n <= Count(counters, c) && name == JobName(c, n);
    assert n <= Count(counters[component := Count(counters, component) + 1], c);
    if name == JobName(component, Count(counters, component) + 1) {
      JobNamesDiffer(c, n, component, Count(counters, component) + 1);
    }
  }

  lemma JobKeeps(s: State, job: string, component: string)
    requires JobsInv(s.jobCounter, s.jobs)
    ensures var t := NameJob(s, job, component).0; JobsInv(t.jobCounter, t.jobs)
  {
    if job !in s.jobs {
      var (t, name) := NameJob(s, job, component);
      forall j | j in s.jobs ensures JobIssued(t.jobCounter, s.jobs[j]) && s.jobs[j] != name {
        JobStillIssued(s.jobCounter, component, s.jobs[j]);
      }
      assert JobIssued(t.jobCounter, name) by { assert name == JobName(component, Count(t.jobCounter, component)); }
      NewNameKeepsOneToOne(s.jobs, job, name);
    }
  }

  lemma ValueStillIssued(counter: nat, key: string, name: string)
    requires ValueIssued(counter, key, name)
    ensures ValueIssued(counter + 1, key, name) && name != LabelName(key, counter + 1)
  {
    var n :| 0 < n <= counter && name == LabelName(key, n);
    if name == LabelName(key, counter + 1) { LabelNamesDiffer(key, n, key, counter + 1); }
  }

  lemma ValueKeeps(s: State, key: string, value: string)
    requires ValuesInv(Count(s.customCounters, key), key, LabelValues(s.custom, key))
    ensures var t := NameValue(s, key, value).0;
            ValuesInv(Count(t.customCounters, key), key, LabelValues(t.custom, key))
  {
    var values, counter := LabelValues(s.custom, key), Count(s.customCounters, key);
    if value !in values {
      forall v | v in values
        ensures ValueIssued(counter + 1, key, values[v]) && values[v] != LabelName(key, counter + 1) {
        ValueStillIssued(counter, key, values[v]);
      }
      NewNameKeepsOneToOne(values, value, LabelName(key, counter + 1));
      assert ValueIssued(counter + 1, key, LabelName(key, counter + 1));
      assert LabelValues(NameValue(s, key, value).0.custom, key) == values[value := LabelName(key, counter + 1)];
    }
  }

  lemma OtherValuesKept(s: State, name: string, value: string)
    requires AllValuesInv(s.customCounters, s.custom)
    ensures var t := NameValue(s, name, value).0; AllValuesInv(t.customCounters, t.custom)
  {
    var t := NameValue(s, name, value).0;
    forall key ensures ValuesInv(Count(t.customCounters, key), key, LabelValues(t.custom, key)) {
      assert ValuesInv(Count(s.customCounters, key), key, LabelValues(s.custom, key));
      if key == name {
        ValueKeeps(s, name, value);
      } else {
        assert Count(t.customCounters, key) == Count(s.customCounters, key)
               && LabelValues(t.custom, key) == LabelValues(s.custom, key);
      }
    }
  }

  lemma CallKeeps(s: State, p: Parser, c: Call)
    requires Inv(s, p) && HashesHaveNoColon(p)
    ensures Inv(Obfuscate(s, p, c).0, p)
  {
    match c
    case Instance(instance) => InstanceKeeps(s, p, instance);
    case Job(job, component) => JobKeeps(s, job, component);
    case Custom(name, value) => OtherValuesKept(s, name, value);
  }

  lemma {:induction false} CallsKeep(p: Parser, calls: seq<Call>)
    requires HashesHaveNoColon(p)
    ensures Inv(After(NEW, p, calls), p)
  {
    if |calls| > 0 {
      CallsKeep(p, calls[..|calls| - 1]);
      CallKeeps(After(NEW, p, calls[..|calls| - 1]), p, calls[|calls| - 1]);
    }
  }

  lemma ValueNamesDiffer(s: State, p: Parser, k: string, v: string, l: string, w: string)
    requires Inv(s, p) && v in LabelValues(s.custom, k) && w in LabelValues(s.custom, l) && (k != l || v != w)
    ensures LabelValues(s.custom, k)[v] != LabelValues(s.custom, l)[w]
  {
    assert ValuesInv(Count(s.customCounters, k), k, LabelValues(s.custom, k))
           && ValuesInv(Count(s.customCounters, l), l, LabelValues(s.custom, l));
    if k != l {
      var m :| 0 < m <= Count(s.customCounters, k) && LabelValues(s.custom, k)[v] == LabelName(k, m);
      var n :| 0 < n <= Count(s.customCounters, l) && LabelValues(s.custom, l)[w] == LabelName(l, n);
      if LabelName(k, m) == LabelName(l, n) { LabelNamesDiffer(k, m, l, n); }
    }
  }

  /** Over any sequence of calls the names are one-to-one: distinct jobs have distinct names
      whatever their components look like, distinct values and distinct labels have distinct
      names, and two instances share a name exactly when both fell back on the hash and it
      collides. */
  lemma NamesAreOneToOne(p: Parser, calls: seq<Call>)
    requires HashesHaveNoColon(p)
    ensures var s := After(NEW, p, calls);
            && OneToOne(s.jobs)
            && (forall k, v, l, w ::
                  v in LabelValues(s.custom, k) && w in LabelValues(s.custom, l) && (k != l || v != w) ==>
                  LabelValues(s.custom, k)[v] != LabelValues(s.custom, l)[w])
            && (forall a, b :: a in s.instances && b in s.instances && a != b ==>
                  (s.instances[a] == s.instances[b] <==> Collide(p, a, b)))
  {
    var s := After(NEW, p, calls);
    CallsKeep(p, calls);
    forall k, v, l, w | v in LabelValues(s.custom, k) && w in LabelValues(s.custom, l) && (k != l || v != w)
      ensures LabelValues(s.custom, k)[v] != LabelValues(s.custom, l)[w]
    {
      ValueNamesDiffer(s, p, k, v, l, w);
    }
  }

  ghost predicate Includes(m: map<string, string>, n: map<string, string>) {
    forall k :: k in m ==> k in n && n[k] == m[k]
  }

  /** Every name given in `s` is given in `t`. */
  ghost predicate Extends(s: State, t: State) {
    && Includes(s.instances, t.instances) && Includes(s.jobs, t.jobs)
    && forall k :: Includes(LabelValues(s.custom, k), LabelValues(t.custom, k))
  }

  lemma {:induction false} CallsExtend(s: State, p: Parser, calls: seq<Call>)
    ensures Extends(s, After(s, p, calls))
  {
    if |calls| > 0 {
      CallsExtend(s, p, calls[..|calls| - 1]);
      CallExtends(After(s, p, calls[..|calls| - 1]), p, calls[|calls| - 1]);
    }
  }

  lemma ValueExtends(s: State, name: string, value: string)
    ensures Extends(s, NameValue(s, name, value).0)
  {
    var t := NameValue(s, name, value).0;
    forall k ensures Includes(LabelValues(s.custom, k), LabelValues(t.custom, k)) {
      if k != name { assert LabelValues(t.custom, k) == LabelValues(s.custom, k); }
    }
  }

  lemma InstanceExtends(s: State, p: Parser, instance: string)
    ensures Extends(s, NameInstance(s, p, instance).0)
  {
  }

  lemma JobExtends(s: State, job: string, component: string)
    ensures Extends(s, NameJob(s, job, component).0)
  {
  }

  lemma CallExtends(s: State, p: Parser, c: Call)
    ensures Extends(s, Obfuscate(s, p, c).0)
  {
    match c
    case Instance(instance) => InstanceExtends(s, p, instance);
    case Job(job, component) => JobExtends(s, job, component);
    case Custom(name, value) => ValueExtends(s, name, value);
  }

  /** The name a call gave is given again by the same call after any further calls, without a
      change of state; for a job also when another component is named. */
  lemma NamesAreStable(s: State, p: Parser, calls: seq<Call>, c: Call)
    ensures var (t, name) := Obfuscate(s, p, c);
            var u := After(t, p, calls);
            Obfuscate(u, p, c) == (u, name) && (c.Job? ==> forall d :: NameJob(u, c.job, d) == (u, name))
  {
    var t := Obfuscate(s, p, c).0;
    CallsExtend(t, p, calls);
    match c
    case Instance(instance) => assert instance in t.instances;
    case Job(job, component) => assert job in t.jobs;
    case Custom(name, value) => assert value in LabelValues(t.custom, name);
  }

  // ---- The object ----

  class Obfuscator {
    const parser: Parser
    var instanceMap: map<string, string>
    var jobMap: map<string, string>
    var customLabels: map<string, map<string, string>>
    var instanceCounter: nat
    var jobCounter: map<string, nat>
    var customCounters: map<string, nat>

    /** Names issued, distinct, and below their counters. */
    ghost predicate Valid()
      reads this
    {
      HashesHaveNoColon(parser) && Inv(View(), parser)
    }

    constructor (parser: Parser)
      requires HashesHaveNoColon(parser)
      ensures Valid() && View() == NEW && this.parser == parser
    {
      this.parser := parser;
      instanceMap, jobMap, customLabels := map[], map[], map[];
      instanceCounter, jobCounter, customCounters := 0, map[], map[];
    }

    function View(): State
      reads this
    {
      State(instanceMap, jobMap, customLabels, instanceCounter, jobCounter, customCounters)
    }

    method ObfuscateInstance(instance: string) returns (name: string)
      requires Valid()
      modifies this
      ensures Valid() && Extends(old(View()), View())
      ensures (View(), name) == NameInstance(old(View()), parser, instance)
    {
      CallKeeps(View(), parser, Instance(instance));
      CallExtends(View(), parser, Instance(instance));
      name := LookUpInstance(instance);
    }

    method LookUpInstance(instance: string) returns (name: string)
      modifies this
      ensures (View(), name) == NameInstance(old(View()), parser, instance)
    {
      if instance in instanceMap {
        return instanceMap[instance];
      }
      var port := parser.port(instance);
      if port.None? {
        name := parser.hash(instance);
        instanceMap := instanceMap[instance := name];
        return;
      }
      instanceCounter := instanceCounter + 1;
      var thirdOctet := (instanceCounter - 1) / 255 + 1;
      var fourthOctet := (instanceCounter - 1) % 255 + 1;
      var newIP := "777.777." + Decimal(thirdOctet) + "." + Decimal(fourthOctet);
      name := newIP + ":" + port.value;
      instanceMap := instanceMap[instance := name];
    }

    method ObfuscateJob(job: string, component: string) returns (name: string)
      requires Valid()
      modifies this
      ensures Valid() && Extends(old(View()), View())
      ensures (View(), name) == NameJob(old(View()), job, component)
    {
      CallKeeps(View(), parser, Job(job, component));
      CallExtends(View(), parser, Job(job, component));
      name := LookUpJob(job, component);
    }

    method LookUpJob(job: string, component: string) returns (name: string)
      modifies this
      ensures (View(), name) == NameJob(old(View()), job, component)
    {
      if job in jobMap {
        return jobMap[job];
      }
      jobCounter := jobCounter[component := Count(jobCounter, component) + 1];
      name := "vm_component_" + component + "_" + Decimal(jobCounter[component]);
      jobMap := jobMap[job := name];
    }

    method ObfuscateCustomLabel(labelName: string, value: string) returns (name: string)
      requires Valid()
      modifies this
      ensures Valid() && Extends(old(View()), View())
      ensures (View(), name) == NameValue(old(View()), labelName, value)
    {
      CallKeeps(View(), parser, Call.Custom(labelName, value));
      CallExtends(View(), parser, Call.Custom(labelName, value));
      name := LookUpValue(labelName, value);
    }

    method LookUpValue(labelName: string, value: string) returns (name: string)
      modifies this
      ensures (View(), name) == NameValue(old(View()), labelName, value)
    {
      if labelName !in customLabels {
        customLabels := customLabels[labelName := map[]];
      }
      if value in customLabels[labelName] {
        return customLabels[labelName][value];
      }
      customCounters := customCounters[labelName := Count(customCounters, labelName) + 1];
      name := labelName + "-" + Decimal(customCounters[labelName]);
      customLabels := customLabels[labelName := customLabels[labelName][value := name]];
      assert customLabels == NameValue(old(View()), labelName, value).0.custom;
    }

    method GetMappings() returns (instances: map<string, string>, jobs: map<string, string>)
      requires Valid()
      ensures instances == instanceMap && jobs == jobMap && OneToOne(jobs)
    {
      return instanceMap, jobMap;
    }
  }
}
