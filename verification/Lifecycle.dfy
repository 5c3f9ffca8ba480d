/** The orchestrator: registration, initialisation, start with rollback, and stop, over whole runs. */
module Lifecycle {
  import opened Wrappers
  import opened DependencyGraph
  import opened Sorter

  /** What the orchestrator does to a service, in the order it does it. */
  datatype Event = Inited(s: Service) | InitFailed(s: Service)
                 | Started(s: Service) | StartFailed(s: Service) | Stopped(s: Service)

  type Log = seq<Event>

  datatype Orchestration = Orchestration(
    services: Registry, ordered: seq<Service>, running: seq<Service>, started: bool, log: Log)

  // ---- What is running, according to the log alone ----

  function After(live: set<Service>, e: Event): set<Service> {
    if e.Started? then live + {e.s} else if e.Stopped? then live - {e.s} else live
  }

  function Live(log: Log): set<Service> {
    if log == [] then {} else After(Live(log[..|log| - 1]), log[|log| - 1])
  }

  ghost predicate DependencyClosed(live: set<Service>) {
    forall s, d | s in live && d in s.Deps() :: exists t :: t in live && t.name == d
  }

  /** The running set is dependency-closed after every single event. */
  ghost predicate AlwaysClosed(log: Log) {
    forall n | 0 <= n <= |log| :: DependencyClosed(Live(log[..n]))
  }

  function Elements(order: seq<Service>): set<Service> {
    set i | 0 <= i < |order| :: order[i]
  }

  // ---- The events of one call ----

  function Starts(order: seq<Service>): (r: Log) {
    seq(|order|, i requires 0 <= i < |order| => Started(order[i]))
  }

  function Inits(order: seq<Service>): (r: Log) {
    seq(|order|, i requires 0 <= i < |order| => Inited(order[i]))
  }

  /** Stops the services from the last one down to the first. */
  function Stops(order: seq<Service>): (r: Log) {
    seq(|order|, i requires 0 <= i < |order| => Stopped(order[|order| - 1 - i]))
  }

  /** The events of a start whose first `k` services start; the service at `k`, if any, fails. */
  function StartEvents(order: seq<Service>, k: nat): Log
    requires k <= |order|
  {
    if k == |order| then Starts(order)
    else Starts(order[..k]) + [StartFailed(order[k])] + Stops(order[..k])
  }

  function InitEvents(order: seq<Service>, k: nat): Log
    requires k <= |order|
  {
    if k == |order| then Inits(order) else Inits(order[..k]) + [InitFailed(order[k])]
  }

  // ---- The four operations as a relation on states ----

  datatype Op = Register(s: Service)
              | InitAll(k: nat)    // the first k services initialise
              | StartAll(k: nat)   // the first k services start
              | StopAll

  ghost predicate Step(o: Orchestration, op: Op, o': Orchestration) {
    match op
    case Register(s) => o' == o.(services := o.services[s.name := s])
    case InitAll(k) =>
      if Acyclic(o.services) && Complete(o.services) then
        && k <= |o'.ordered|
        && IsTopoSort(o.services, o'.ordered)
        && o' == o.(ordered := o'.ordered, log := o.log + InitEvents(o'.ordered, k))
      else o' == o
    case StartAll(k) =>
      if o.started then o' == o else
        && k <= |o.ordered|
        && o' == o.(log := o.log + StartEvents(o.ordered, k),
                    running := if k == |o.ordered| then o.ordered else [],
                    started := k == |o.ordered|)
    case StopAll => o' == o.(log := o.log + Stops(o.running), running := [], started := false)
  }

  ghost predicate Inv(o: Orchestration) {
    && WellNamed(o.services)
    && TopoOrdered(o.ordered) && DistinctNames(o.ordered)
    && TopoOrdered(o.running) && DistinctNames(o.running)
    && (!o.started ==> o.running == [])
    && Live(o.log) == Elements(o.running)
    && AlwaysClosed(o.log)
  }

  // ---- Log lemmas ----

  lemma PrefixClosed(order: seq<Service>, k: nat)
    requires TopoOrdered(order) && k <= |order|
    ensures DependencyClosed(Elements(order[..k]))
  {
    var live := Elements(order[..k]);
    forall s, d | s in live && d in s.Deps() ensures exists t :: t in live && t.name == d {
      var i :| 0 <= i < k && order[i] == s;
      assert Provides(order, i, d);
      var j :| 0 <= j < i && order[j].name == d;
      assert order[..k][j] in live;
    }
  }

  lemma OneMore(log: Log, e: Event)
    requires AlwaysClosed(log) && DependencyClosed(Live(log + [e]))
    ensures AlwaysClosed(log + [e])
  {
    forall n | 0 <= n <= |log| + 1 ensures DependencyClosed(Live((log + [e])[..n])) {
      if n <= |log| {
        assert (log + [e])[..n] == log[..n];
      } else {
        assert (log + [e])[..n] == log + [e];
      }
    }
  }

  lemma LiveOneMore(log: Log, e: Event)
    ensures Live(log + [e]) == After(Live(log), e)
  {
    assert (log + [e])[..|log|] == log;
  }

  lemma StartOneMore(log: Log, s: Service)
    requires AlwaysClosed(log) && DependencyClosed(Live(log) + {s})
    ensures AlwaysClosed(log + [Started(s)]) && Live(log + [Started(s)]) == Live(log) + {s}
  {
    LiveOneMore(log, Started(s));
    OneMore(log, Started(s));
  }

  lemma StartsSplit(log: Log, order: seq<Service>, k: nat)
    requires 0 < k <= |order|
    ensures log + Starts(order[..k]) == log + Starts(order[..k - 1]) + [Started(order[k - 1])]
  {
    assert Starts(order[..k]) == Starts(order[..k - 1]) + [Started(order[k - 1])];
  }

  lemma {:induction false} StartsKeepClosed(log: Log, order: seq<Service>, k: nat)
    requires AlwaysClosed(log) && Live(log) == {}
    requires TopoOrdered(order) && k <= |order|
    ensures AlwaysClosed(log + Starts(order[..k])) && Live(log + Starts(order[..k])) == Elements(order[..k])
  {
    if k == 0 {
      assert log + Starts(order[..0]) == log;
    } else {
      StartsKeepClosed(log, order, k - 1);
      AddLast(order, k);
      PrefixClosed(order, k);
      StartOneMore(log + Starts(order[..k - 1]), order[k - 1]);
      StartsSplit(log, order, k);
    }
  }

  lemma AddLast(order: seq<Service>, k: nat)
    requires 0 < k <= |order|
    ensures Elements(order[..k]) == Elements(order[..k - 1]) + {order[k - 1]}
  {
    forall s ensures s in Elements(order[..k]) <==> s in Elements(order[..k - 1]) + {order[k - 1]} {
      if s in Elements(order[..k - 1]) {
        var i :| 0 <= i < k - 1 && order[..k - 1][i] == s;
        assert order[..k][i] == s;
      }
      assert order[..k][k - 1] == order[k - 1];
    }
  }

  /** Stopping from the end only ever removes a service that nothing running depends on. */
  lemma {:induction false} StopsKeepClosed(log: Log, order: seq<Service>)
    requires AlwaysClosed(log) && Live(log) == Elements(order)
    requires TopoOrdered(order) && DistinctNames(order)
    ensures AlwaysClosed(log + Stops(order)) && Live(log + Stops(order)) == {}
    decreases |order|
  {
    if order == [] {
      assert log + Stops(order) == log;
    } else {
      var k := |order| - 1;
      var last := Stopped(order[k]);
      LiveOneMore(log, last);
      AddLast(order, |order|);
      assert order[..|order|] == order;
      assert order[k] !in Elements(order[..k]);
      PrefixClosed(order, k);
      OneMore(log, last);
      PrefixKeepsOrder(order, k);
      StopsKeepClosed(log + [last], order[..k]);
      assert log + Stops(order) == log + [last] + Stops(order[..k]);
    }
  }

  lemma {:induction false} InitsAreSilent(log: Log, more: Log)
    requires AlwaysClosed(log)
    requires forall i | 0 <= i < |more| :: more[i].Inited? || more[i].InitFailed?
    ensures AlwaysClosed(log + more) && Live(log + more) == Live(log)
  {
    if more == [] {
      assert log + more == log;
    } else {
      var k := |more| - 1;
      InitsAreSilent(log, more[..k]);
      assert log + more == log + more[..k] + [more[k]];
      LiveOneMore(log + more[..k], more[k]);
      assert (log + more[..k])[..|log + more[..k]|] == log + more[..k];
      OneMore(log + more[..k], more[k]);
    }
  }

  // ---- Every operation keeps the invariant; so does every run ----

  lemma RollbackKeepsClosed(log: Log, order: seq<Service>, culprit: Service)
    requires AlwaysClosed(log) && Live(log) == Elements(order)
    requires TopoOrdered(order) && DistinctNames(order)
    ensures AlwaysClosed(log + [StartFailed(culprit)] + Stops(order)) && Live(log + [StartFailed(culprit)] + Stops(order)) == {}
  {
    LiveOneMore(log, StartFailed(culprit));
    assert log[..|log|] == log;
    OneMore(log, StartFailed(culprit));
    StopsKeepClosed(log + [StartFailed(culprit)], order);
  }

  lemma FailedStartKeepsClosed(log: Log, order: seq<Service>, k: nat)
    requires AlwaysClosed(log) && Live(log) == {} && TopoOrdered(order) && DistinctNames(order) && k < |order|
    ensures AlwaysClosed(log + StartEvents(order, k)) && Live(log + StartEvents(order, k)) == {}
  {
    var begun := log + Starts(order[..k]);
    StartsKeepClosed(log, order, k);
    PrefixKeepsOrder(order, k);
    RollbackKeepsClosed(begun, order[..k], order[k]);
    assert begun + [StartFailed(order[k])] + Stops(order[..k]) == log + StartEvents(order, k);
  }

  lemma StartEventsKeepClosed(log: Log, order: seq<Service>, k: nat)
    requires AlwaysClosed(log) && Live(log) == {} && TopoOrdered(order) && DistinctNames(order) && k <= |order|
    ensures AlwaysClosed(log + StartEvents(order, k))
    ensures Live(log + StartEvents(order, k)) == if k == |order| then Elements(order) else {}
  {
    if k == |order| {
      StartsKeepClosed(log, order, k);
      assert order[..k] == order;
    } else {
      FailedStartKeepsClosed(log, order, k);
    }
  }

  lemma StartKeepsInv(o: Orchestration, k: nat, o': Orchestration)
    requires Inv(o) && Step(o, StartAll(k), o')
    ensures Inv(o')
  {
    if !o.started {
      StartEventsKeepClosed(o.log, o.ordered, k);
    }
  }

  lemma StepKeepsInv(o: Orchestration, op: Op, o': Orchestration)
    requires Inv(o) && Step(o, op, o')
    ensures Inv(o')
  {
    match op
    case Register(s) =>
    case InitAll(k) =>
      if Acyclic(o.services) && Complete(o.services) {
        InitsAreSilent(o.log, InitEvents(o'.ordered, k));
      }
    case StartAll(k) => StartKeepsInv(o, k, o');
    case StopAll => StopsKeepClosed(o.log, o.running);
  }

  const EMPTY := Orchestration(map[], [], [], false, [])

  ghost predicate IsRun(ops: seq<Op>, states: seq<Orchestration>) {
    && |states| == |ops| + 1
    && states[0] == EMPTY
    && (forall i | 0 <= i < |ops| :: Step(states[i], ops[i], states[i + 1]))
  }

  lemma {:induction false} RunKeepsInv(ops: seq<Op>, states: seq<Orchestration>)
    requires IsRun(ops, states)
    ensures forall i | 0 <= i < |states| :: Inv(states[i])
  {
    var n := |ops|;
    if n == 0 {
      assert Live([]) == Elements([]);
    } else {
      RunKeepsInv(ops[..n - 1], states[..n]);
      assert forall i | 0 <= i < n :: states[..n][i] == states[i];
      StepKeepsInv(states[n - 1], ops[n - 1], states[n]);
    }
  }

  /** Over any sequence of calls, after every single start and stop the services then running are
      dependency-closed, and a stopped orchestrator runs nothing. */
  lemma RunningIsAlwaysClosed(ops: seq<Op>, states: seq<Orchestration>, i: nat, n: nat)
    requires IsRun(ops, states) && i < |states| && n <= |states[i].log|
    ensures DependencyClosed(Live(states[i].log[..n]))
    ensures Live(states[i].log) == Elements(states[i].running)
    ensures !states[i].started ==> Live(states[i].log) == {}
  {
    RunKeepsInv(ops, states);
  }

  /** Services are initialised in the order of their dependencies: each after those it depends on. */
  lemma InitsFollowDependencies(order: seq<Service>, k: nat, n: nat, d: string)
    requires TopoOrdered(order) && k <= |order| && n < |InitEvents(order, k)|
    requires d in InitEvents(order, k)[n].s.Deps()
    ensures exists m :: 0 <= m < n && InitEvents(order, k)[m].Inited? && InitEvents(order, k)[m].s.name == d
  {
    assert InitEvents(order, k)[n].s == order[n];
    assert Provides(order, n, d);
    var m :| 0 <= m < n && order[m].name == d;
    assert InitEvents(order, k)[m] == Inited(order[m]);
  }

  function CountStops(log: Log, s: Service): nat {
    multiset(log)[Stopped(s)]
  }

  /** A start that fails at position k stops exactly the k services it had started, once each. */
  lemma RollbackStopsEachOnce(order: seq<Service>, k: nat, s: Service)
    requires DistinctNames(order) && k < |order|
    ensures CountStops(StartEvents(order, k), s) == if s in Elements(order[..k]) then 1 else 0
  {
    var pre := Starts(order[..k]) + [StartFailed(order[k])];
    assert Stopped(s) !in pre;
    StopsOnce(order[..k], s);
  }

  lemma {:induction false} StopsOnce(order: seq<Service>, s: Service)
    requires DistinctNames(order)
    ensures multiset(Stops(order))[Stopped(s)] == if s in Elements(order) then 1 else 0
  {
    if order != [] {
      var k := |order| - 1;
      StopsOnce(order[..k], s);
      assert Stops(order) == [Stopped(order[k])] + Stops(order[..k]);
      AddLast(order, |order|);
      assert order[..|order|] == order;
    }
  }

  // ---- StartAll against the InitAll before it ----

  /** Of the services that a start started, none was left out by the initialisation. */
  ghost predicate OnlyInitialisedStarted(inits: Log, starts: Log) {
    forall s | Started(s) in starts :: Inited(s) in inits
  }

  lemma InitedIn(order: seq<Service>, j: nat, s: Service)
    requires j <= |order|
    ensures Inited(s) in InitEvents(order, j) <==> s in Elements(order[..j])
  {
    if s in Elements(order[..j]) {
      var i :| 0 <= i < j && order[..j][i] == s;
      assert InitEvents(order, j)[i] == Inited(s);
    }
  }

  lemma StartedIn(order: seq<Service>, k: nat, s: Service)
    requires k <= |order|
    ensures Started(s) in StartEvents(order, k) <==> s in Elements(order[..k])
  {
    if s in Elements(order[..k]) {
      var i :| 0 <= i < k && order[..k][i] == s;
      assert StartEvents(order, k)[i] == Started(s);
    }
  }

  lemma StartsWithinInits(order: seq<Service>, j: nat, k: nat)
    requires DistinctNames(order) && j <= |order| && k <= |order|
    ensures OnlyInitialisedStarted(InitEvents(order, j), StartEvents(order, k)) <==> k <= j
  {
    if k > j {
      assert order[..k][j] in Elements(order[..k]);
      assert order[j] !in Elements(order[..j]);
      StartedIn(order, k, order[j]);
      InitedIn(order, j, order[j]);
    } else {
      forall s | Started(s) in StartEvents(order, k) ensures Inited(s) in InitEvents(order, j) {
        StartedIn(order, k, s);
        InitedIn(order, j, s);
        var i :| 0 <= i < k && order[..k][i] == s;
        assert order[..j][i] == s;
      }
    }
  }

  /** The call is an InitAll whose sort succeeds, so it replaces the order. */
  ghost predicate Reorders(o: Orchestration, op: Op) {
    op.InitAll? && Acyclic(o.services) && Complete(o.services)
  }

  lemma {:induction false} OrderStays(ops: seq<Op>, states: seq<Orchestration>, a: nat, b: nat)
    requires IsRun(ops, states) && a <= b < |states|
    requires forall m | a <= m < b :: !Reorders(states[m], ops[m])
    ensures states[b].ordered == states[a].ordered
    decreases b
  {
    if a < b {
      OrderStays(ops, states, a, b - 1);
      assert Step(states[b - 1], ops[b - 1], states[b - 1 + 1]);
      assert !Reorders(states[b - 1], ops[b - 1]);
    }
  }

  lemma {:induction false} InitedStays(ops: seq<Op>, states: seq<Orchestration>, a: nat, b: nat, s: Service)
    requires IsRun(ops, states) && a <= b < |states|
    requires forall m | a <= m < b :: !Reorders(states[m], ops[m])
    ensures Inited(s) in states[b].log <==> Inited(s) in states[a].log
    decreases b
  {
    if a < b {
      var last := b - 1;
      InitedStays(ops, states, a, last, s);
      assert Step(states[last], ops[last], states[last + 1]) && !Reorders(states[last], ops[last]);
    }
  }

  /** What is initialised at a start: what the InitAll that produced its order, or one before, initialised. */
  lemma InitedAtStart(ops: seq<Op>, states: seq<Orchestration>, a: nat, b: nat, s: Service)
    requires IsRun(ops, states) && a < b < |ops| && Reorders(states[a], ops[a])
    requires forall m | a < m < b :: !Reorders(states[m], ops[m])
    ensures ops[a].k <= |states[a + 1].ordered|
    ensures Inited(s) in states[b].log
            <==> Inited(s) in states[a].log || s in Elements(states[a + 1].ordered[..ops[a].k])
  {
    assert Step(states[a], ops[a], states[a + 1]);
    InitedStays(ops, states, a + 1, b, s);
    InitedIn(states[a + 1].ordered, ops[a].k, s);
  }

  lemma InElements(order: seq<Service>, k: nat, i: nat)
    requires DistinctNames(order) && k <= |order| && i < |order|
    ensures order[i] in Elements(order[..k]) <==> i < k
  {
    if i < k {
      assert order[..k][i] == order[i];
    }
  }

  lemma InitedAtPosition(ops: seq<Op>, states: seq<Orchestration>, a: nat, b: nat, i: nat)
    requires IsRun(ops, states) && a < b < |ops| && Reorders(states[a], ops[a])
    requires forall m | a < m < b :: !Reorders(states[m], ops[m])
    requires i < |states[b].ordered|
    ensures Inited(states[b].ordered[i]) in states[b].log
            <==> i < ops[a].k || Inited(states[b].ordered[i]) in states[a].log
  {
    assert Step(states[a], ops[a], states[a + 1]);
    OrderStays(ops, states, a + 1, b);
    InitedAtStart(ops, states, a, b, states[b].ordered[i]);
    InElements(states[b].ordered, ops[a].k, i);
  }

  lemma StartedAtPosition(order: seq<Service>, k: nat, i: nat)
    requires i < k <= |order|
    ensures Started(order[i]) in StartEvents(order, k)
  {
    assert StartEvents(order, k)[i] == Started(order[i]);
  }

  lemma PositionOfStarted(order: seq<Service>, k: nat, s: Service) returns (i: nat)
    requires k <= |order| && Started(s) in StartEvents(order, k)
    ensures i < k && order[i] == s
  {
    StartedIn(order, k, s);
    i :| 0 <= i < k && order[..k][i] == s;
  }

  /** Over any run, and counting every initialisation before it: each service a StartAll starts was initialised
      exactly when those beyond the reach of the InitAll that produced the order had been initialised earlier. */
  lemma StartedWereInitialised(ops: seq<Op>, states: seq<Orchestration>, a: nat, b: nat)
    requires IsRun(ops, states) && a < b < |ops|
    requires Reorders(states[a], ops[a]) && forall m | a < m < b :: !Reorders(states[m], ops[m])
    requires ops[b].StartAll? && !states[b].started
    ensures var order, j, k := states[b].ordered, ops[a].k, ops[b].k;
            && k <= |order|
            && (OnlyInitialisedStarted(states[b].log, StartEvents(order, k))
                <==> forall i | j <= i < k :: Inited(order[i]) in states[a].log)
  {
    var order, j, k := states[b].ordered, ops[a].k, ops[b].k;
    assert Step(states[b], ops[b], states[b + 1]);
    if OnlyInitialisedStarted(states[b].log, StartEvents(order, k)) {
      forall i | j <= i < k ensures Inited(order[i]) in states[a].log {
        StartedAtPosition(order, k, i);
        InitedAtPosition(ops, states, a, b, i);
      }
    }
    if forall i | j <= i < k :: Inited(order[i]) in states[a].log {
      forall s | Started(s) in StartEvents(order, k) ensures Inited(s) in states[b].log {
        var i := PositionOfStarted(order, k, s);
        InitedAtPosition(ops, states, a, b, i);
      }
    }
  }

  /** StartAll does not ask how far InitAll came. In any run, against the InitAll that produced the order it
      goes by: when j services were initialised then and k are started now, every one started was initialised
      exactly when k <= j. */
  lemma StartMayOutrunInit(ops: seq<Op>, states: seq<Orchestration>, a: nat, b: nat)
    requires IsRun(ops, states) && a < b < |ops|
    requires Reorders(states[a], ops[a]) && forall m | a < m < b :: !Reorders(states[m], ops[m])
    requires ops[b].StartAll? && !states[b].started
    ensures var order, j, k := states[b].ordered, ops[a].k, ops[b].k;
            && j <= |order| && k <= |order|
            && states[a + 1].log == states[a].log + InitEvents(order, j)
            && states[b + 1].log == states[b].log + StartEvents(order, k)
            && (OnlyInitialisedStarted(InitEvents(order, j), StartEvents(order, k)) <==> k <= j)
  {
    assert Step(states[a], ops[a], states[a + 1]) && Step(states[b], ops[b], states[b + 1]);
    OrderStays(ops, states, a + 1, b);
    StartsWithinInits(states[b].ordered, ops[a].k, ops[b].k);
  }

  /** What InitAll's result tells its caller: no later start by the same order can start an uninitialised service
      exactly when it initialised every service, that is, when it returned no error. */
  lemma NilInitMakesStartsSafe(order: seq<Service>, j: nat)
    requires DistinctNames(order) && j <= |order|
    ensures (forall k: nat | k <= |order| :: OnlyInitialisedStarted(InitEvents(order, j), StartEvents(order, k)))
            <==> j == |order|
  {
    forall k: nat | k <= |order|
      ensures OnlyInitialisedStarted(InitEvents(order, j), StartEvents(order, k)) <==> k <= j
    {
      StartsWithinInits(order, j, k);
    }
    assert OnlyInitialisedStarted(InitEvents(order, j), StartEvents(order, |order|)) <==> |order| <= j;
  }

  lemma OneServiceSorts(o: Orchestration)
    requires o.services == map["db" := Plain("db")]
    ensures Acyclic(o.services) && Complete(o.services) && IsTopoSort(o.services, [Plain("db")])
  {
    var s := Plain("db");
    forall p ensures !IsCycle(o.services, p) {
      assert |p| >= 2 ==> !Edge(o.services, p[0], p[1]);
    }
    assert Names([s]) == {"db"} by {
      assert [s][0].name in Names([s]);
    }
  }

  /** A run in which a service whose initialisation failed is started all the same. */
  lemma FailedInitThenStart() returns (ops: seq<Op>, states: seq<Orchestration>)
    ensures IsRun(ops, states) && ops == [Op.Register(Plain("db")), Op.InitAll(0), Op.StartAll(1)]
    ensures states[3].log == [InitFailed(Plain("db")), Started(Plain("db"))] && states[3].started
  {
    var s := Plain("db");
    var o := EMPTY.(services := map["db" := s]);
    OneServiceSorts(o);
    var o1 := o.(ordered := [s], log := [InitFailed(s)]);
    var o2 := o1.(running := [s], started := true, log := [InitFailed(s), Started(s)]);
    assert InitEvents([s], 0) == [InitFailed(s)] && StartEvents([s], 1) == [Started(s)];
    assert Step(EMPTY, Op.Register(s), o) && Step(o, Op.InitAll(0), o1) && Step(o1, Op.StartAll(1), o2);
    ops, states := [Op.Register(s), Op.InitAll(0), Op.StartAll(1)], [EMPTY, o, o1, o2];
  }

  /** An earlier initialisation counts as well: here the last one failed, and what is started was initialised by
      the one before. */
  lemma EarlierInitCounts() returns (ops: seq<Op>, states: seq<Orchestration>)
    ensures IsRun(ops, states) && ops == [Op.Register(Plain("db")), Op.InitAll(1), Op.InitAll(0), Op.StartAll(1)]
    ensures states[4].log == [Inited(Plain("db")), InitFailed(Plain("db")), Started(Plain("db"))]
  {
    var s := Plain("db");
    var o := EMPTY.(services := map["db" := s]);
    OneServiceSorts(o);
    var o1 := o.(ordered := [s], log := [Inited(s)]);
    var o2 := o1.(log := [Inited(s), InitFailed(s)]);
    var o3 := o2.(running := [s], started := true, log := [Inited(s), InitFailed(s), Started(s)]);
    assert InitEvents([s], 1) == [Inited(s)] && InitEvents([s], 0) == [InitFailed(s)] && StartEvents([s], 1) == [Started(s)];
    assert Step(EMPTY, Op.Register(s), o) && Step(o, Op.InitAll(1), o1);
    assert Step(o1, Op.InitAll(0), o2) && Step(o2, Op.StartAll(1), o3);
    ops, states := [Op.Register(s), Op.InitAll(1), Op.InitAll(0), Op.StartAll(1)], [EMPTY, o, o1, o2, o3];
  }

  // ---- The object ----

  class Orchestrator {
    var services: Registry
    var ordered: seq<Service>
    var running: seq<Service>
    var started: bool
    ghost var log: Log

    ghost function View(): Orchestration
      reads this
    {
      Orchestration(services, ordered, running, started, log)
    }

    ghost predicate Valid()
      reads this
    {
      Inv(View())
    }

    constructor ()
      ensures View() == EMPTY && Valid()
    {
      services, ordered, running, started, log := map[], [], [], false, [];
      new;
      RunKeepsInv([], [EMPTY]);
    }

    method Register(s: Service)
      requires Valid()
      modifies this
      ensures Valid() && Step(old(View()), Op.Register(s), View())
      ensures services == old(services)[s.name := s]
    {
      services := services[s.name := s];
    }

    /** `inits` says which services initialise without error. */
    method InitAll(inits: set<Service>) returns (err: bool, ghost k: nat)
      requires Valid()
      modifies this
      ensures Valid() && Step(old(View()), Op.InitAll(k), View())
      ensures !err <==> Acyclic(services) && Complete(services) && Elements(ordered) <= inits
      ensures Acyclic(services) && Complete(services) ==> k <= |ordered| && (!err <==> k == |ordered|)
      ensures if Acyclic(services) && Complete(services) then IsTopoSort(services, ordered) else ordered == old(ordered)
      ensures running == old(running) && started == old(started)
    {
      ghost var before := View();
      k := 0;
      var sorting := SortDependencies(services);
      if sorting.Err? {
        return true, 0;
      }
      ordered := sorting.value;
      err, k := InitOrdered(inits);
      StepKeepsInv(before, Op.InitAll(k), View());
    }

    /** The loop of InitAll. */
    method InitOrdered(inits: set<Service>) returns (err: bool, ghost k: nat)
      modifies this`log
      ensures k <= |ordered| && log == old(log) + InitEvents(ordered, k)
      ensures err <==> k < |ordered|
      ensures err <==> !(Elements(ordered) <= inits)
    {
      var i := 0;
      while i < |ordered|
        invariant 0 <= i <= |ordered|
        invariant log == old(log) + Inits(ordered[..i])
        invariant Elements(ordered[..i]) <= inits
      {
        AddLast(ordered, i + 1);
        if ordered[i] !in inits {
          log := log + [InitFailed(ordered[i])];
          assert log == old(log) + InitEvents(ordered, i);
          assert ordered[i] in Elements(ordered);
          return true, i;
        }
        assert Inits(ordered[..i + 1]) == Inits(ordered[..i]) + [Inited(ordered[i])];
        log := log + [Inited(ordered[i])];
        i := i + 1;
      }
      assert ordered[..i] == ordered;
      return false, i;
    }

    /** `starts` says which services start without error. */
    method StartAll(starts: set<Service>) returns (err: bool, ghost k: nat)
      requires Valid()
      modifies this
      ensures Valid() && Step(old(View()), Op.StartAll(k), View())
      ensures old(started) ==> View() == old(View())
      ensures !old(started) ==> running == if err then [] else ordered
      ensures !err <==> started
      ensures !old(started) ==> (err <==> !(Elements(ordered) <= starts))
      ensures !old(started) && err ==> k < |ordered| && ordered[k] !in starts && Elements(ordered[..k]) <= starts
    {
      ghost var before := View();
      if started {
        return false, 0;
      }
      err, k := StartOrdered(starts);
      started := !err;
      StepKeepsInv(before, Op.StartAll(k), View());
    }

    /** The loop of StartAll; the first failure stops what was started. */
    method StartOrdered(starts: set<Service>) returns (err: bool, ghost k: nat)
      requires running == []
      modifies this`running, this`log
      ensures k <= |ordered| && log == old(log) + StartEvents(ordered, k)
      ensures running == if k == |ordered| then ordered else []
      ensures err <==> k < |ordered|
      ensures err <==> !(Elements(ordered) <= starts)
      ensures err ==> ordered[k] !in starts && Elements(ordered[..k]) <= starts
    {
      var i := 0;
      while i < |ordered|
        invariant 0 <= i <= |ordered|
        invariant running == ordered[..i] && log == old(log) + Starts(ordered[..i])
        invariant Elements(ordered[..i]) <= starts
      {
        AddLast(ordered, i + 1);
        if ordered[i] !in starts {
          log := log + [StartFailed(ordered[i])];
          StopRunning();
          assert log == old(log) + StartEvents(ordered, i);
          assert ordered[i] in Elements(ordered);
          return true, i;
        }
        assert Starts(ordered[..i + 1]) == Starts(ordered[..i]) + [Started(ordered[i])];
        log := log + [Started(ordered[i])];
        running := running + [ordered[i]];
        i := i + 1;
      }
      assert ordered[..i] == ordered;
      return false, i;
    }

    method StopAll()
      requires Valid()
      modifies this
      ensures Valid() && Step(old(View()), Op.StopAll, View())
      ensures running == [] && !started && ordered == old(ordered) && services == old(services)
    {
      ghost var before := View();
      StopRunning();
      started := false;
      StepKeepsInv(before, Op.StopAll, View());
    }

    method StopRunning()
      modifies this`running, this`log
      ensures running == [] && log == old(log) + Stops(old(running))
    {
      var i := |running|;
      while i > 0
        invariant 0 <= i <= |running| && running == old(running)
        invariant log == old(log) + Stops(running)[..|running| - i]
      {
        i := i - 1;
        log := log + [Stopped(running[i])];
      }
      assert Stops(running)[..|running|] == Stops(running);
      running := [];
    }
  }
}
