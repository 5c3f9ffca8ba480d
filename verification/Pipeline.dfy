/** Pipeline.Process: inputs fan out through one channel to the workers and fan in through another,
    under every schedule of workers, collector, rate limiter, mapper and cancellation. */
module Pipeline {
  import opened Wrappers

  // A task object is known by the index of its input.

  datatype Worker<Out, E> =
    | Select                                             // about to receive a task
    | Got(i: nat)                                        // received, context not checked yet
    | Throttled(i: nat)                                  // waiting for the rate limiter
    | Mapping(i: nat)                                    // inside the mapper
    | Sending(i: nat, r: Result<Out, E>, leave: bool)    // about to send the task on
    | Exited

  datatype Message<Out, E> = Message(i: nat, r: Result<Out, E>)

  datatype Return<Out, E> = Outputs(values: seq<Out>) | ContextError | FirstError(e: E) | JoinedErrors(es: seq<E>)

  /** The channels, the workers and the pool. */
  datatype Flow<Out, E> = Flow(
    tasks: seq<nat>,                      // the tasks channel, filled and closed
    results: seq<Message<Out, E>>,        // the results channel
    workers: seq<Worker<Out, E>>,
    recycled: multiset<nat>)              // task objects put back into the pool

  /** The collector's variables. The first error under FailFast is also the call of cancel. */
  datatype Tally<Out, E> = Tally(outputs: seq<Out>, firstErr: Option<E>, collected: seq<E>)

  /** What the mapper was asked and what it answered, by input. */
  datatype Ledger<Out, E> = Ledger(calls: multiset<nat>, answers: map<nat, Result<Out, E>>)

  datatype Job<In> = Job(inputs: seq<In>, failFast: bool, limited: bool)

  datatype System<In, Out, E> = System(
    job: Job<In>,
    flow: Flow<Out, E>,
    tally: Tally<Out, E>,
    ledger: Ledger<Out, E>,
    ctxDone: bool,                        // the caller's context
    returned: Option<Return<Out, E>>)

  predicate RunDone<In, Out, E>(s: System<In, Out, E>) {
    s.ctxDone || s.tally.firstErr.Some?
  }

  datatype Action<Out, E> =
    | Receive(w: nat)
    | Leave(w: nat)                                  // the context is done, or the channel is closed and empty
    | Check(w: nat, cause: E)                        // reads the context again; cause is its error
    | LimiterReturns(w: nat, err: Option<E>)
    | MapperReturns(w: nat, r: Result<Out, E>)
    | Send(w: nat)
    | Collect
    | Finish
    | CancelContext

  predicate AllExited<Out, E>(workers: seq<Worker<Out, E>>) {
    forall w | 0 <= w < |workers| :: workers[w].Exited?
  }

  predicate Enabled<In, Out, E>(s: System<In, Out, E>, a: Action<Out, E>) {
    var f := s.flow;
    s.returned.None? &&
    match a
    case Receive(w) => w < |f.workers| && f.workers[w].Select? && f.tasks != []
    case Leave(w) => w < |f.workers| && f.workers[w].Select? && (RunDone(s) || f.tasks == [])
    case Check(w, _) => w < |f.workers| && f.workers[w].Got?
    case LimiterReturns(w, _) => w < |f.workers| && f.workers[w].Throttled?
    case MapperReturns(w, _) => w < |f.workers| && f.workers[w].Mapping?
    case Send(w) => w < |f.workers| && f.workers[w].Sending? && |f.results| < |s.job.inputs|
    case Collect => f.results != []
    case Finish => f.results == [] && AllExited(f.workers)
    case CancelContext => !s.ctxDone
  }

  function Move<Out, E>(f: Flow<Out, E>, w: nat, to: Worker<Out, E>): Flow<Out, E>
    requires w < |f.workers|
  {
    f.(workers := f.workers[w := to])
  }

  function ReceiveFlow<Out, E>(f: Flow<Out, E>, w: nat): Flow<Out, E>
    requires w < |f.workers| && f.tasks != []
  {
    Move(f, w, Got(f.tasks[0])).(tasks := f.tasks[1..])
  }

  function SendFlow<Out, E>(f: Flow<Out, E>, w: nat): Flow<Out, E>
    requires w < |f.workers| && f.workers[w].Sending?
  {
    var k := f.workers[w];
    Move(f, w, if k.leave then Exited else Select).(results := f.results + [Message(k.i, k.r)])
  }

  function CollectFlow<Out, E>(f: Flow<Out, E>): Flow<Out, E>
    requires f.results != []
  {
    f.(results := f.results[1..], recycled := f.recycled + multiset{f.results[0].i})
  }

  /** The deferred drain recycles what no worker received. */
  function DrainFlow<Out, E>(f: Flow<Out, E>): Flow<Out, E> {
    f.(tasks := [], recycled := f.recycled + multiset(f.tasks))
  }

  function CollectTally<Out, E>(t: Tally<Out, E>, failFast: bool, m: Message<Out, E>): Tally<Out, E> {
    match m.r
    case Err(e) =>
      if !failFast then t.(collected := t.collected + [e])
      else if t.firstErr.None? then t.(firstErr := Some(e))
      else t
    case Ok(v) => if m.i < |t.outputs| then t.(outputs := t.outputs[m.i := v]) else t
  }

  function Verdict<Out, E>(t: Tally<Out, E>, ctxDone: bool): Return<Out, E> {
    if ctxDone then ContextError
    else if t.firstErr.Some? then FirstError(t.firstErr.value)
    else if t.collected != [] then JoinedErrors(t.collected)
    else Outputs(t.outputs)
  }

  /** A task leaves the hands of the limiter, or of the check, for the mapper. */
  function StartMapper<In, Out, E>(s: System<In, Out, E>, w: nat, i: nat): System<In, Out, E>
    requires w < |s.flow.workers|
  {
    s.(flow := Move(s.flow, w, Mapping(i)), ledger := s.ledger.(calls := s.ledger.calls + multiset{i}))
  }

  function Next<In, Out, E>(s: System<In, Out, E>, a: Action<Out, E>): System<In, Out, E>
    requires Enabled(s, a)
  {
    match a
    case Receive(w) => s.(flow := ReceiveFlow(s.flow, w))
    case Leave(w) => s.(flow := Move(s.flow, w, Exited))
    case Check(w, cause) =>
      var i := s.flow.workers[w].i;
      if RunDone(s) then s.(flow := Move(s.flow, w, Sending(i, Err(cause), true)))
      else if s.job.limited then s.(flow := Move(s.flow, w, Throttled(i)))
      else StartMapper(s, w, i)
    case LimiterReturns(w, err) =>
      var i := s.flow.workers[w].i;
      if err.Some? then s.(flow := Move(s.flow, w, Sending(i, Err(err.value), false))) else StartMapper(s, w, i)
    case MapperReturns(w, r) =>
      var i := s.flow.workers[w].i;
      s.(flow := Move(s.flow, w, Sending(i, r, false)), ledger := s.ledger.(answers := s.ledger.answers[i := r]))
    case Send(w) => s.(flow := SendFlow(s.flow, w))
    case Collect => s.(flow := CollectFlow(s.flow), tally := CollectTally(s.tally, s.job.failFast, s.flow.results[0]))
    case Finish => s.(flow := DrainFlow(s.flow), returned := Some(Verdict(s.tally, s.ctxDone)))
    case CancelContext => s.(ctxDone := true)
  }

  // ---- Where the task objects are ----

  predicate Holds<Out, E>(k: Worker<Out, E>) {
    !k.Select? && !k.Exited?
  }

  function Holding<Out, E>(k: Worker<Out, E>, i: nat): nat {
    if Holds(k) && k.i == i then 1 else 0
  }

  /** How many workers have task i in hand. */
  function InHands<Out, E>(workers: seq<Worker<Out, E>>, i: nat): nat {
    if workers == [] then 0
    else InHands(workers[..|workers| - 1], i) + Holding(workers[|workers| - 1], i)
  }

  function HandsTotal<Out, E>(workers: seq<Worker<Out, E>>): nat {
    if workers == [] then 0
    else HandsTotal(workers[..|workers| - 1]) + if Holds(workers[|workers| - 1]) then 1 else 0
  }

  /** How many messages in the results channel carry task i. */
  function InResults<Out, E>(results: seq<Message<Out, E>>, i: nat): nat {
    if results == [] then 0 else (if results[0].i == i then 1 else 0) + InResults(results[1..], i)
  }

  /** In how many places task i is: queued, in hand, on its way back, recycled. */
  function Places<Out, E>(f: Flow<Out, E>, i: nat): nat {
    multiset(f.tasks)[i] + InHands(f.workers, i) + InResults(f.results, i) + f.recycled[i]
  }

  function Total<Out, E>(f: Flow<Out, E>): nat {
    |f.tasks| + HandsTotal(f.workers) + |f.results| + |f.recycled|
  }

  /** Each of the n task objects created is in exactly one place, and no other object is anywhere. */
  ghost predicate Conserved<Out, E>(f: Flow<Out, E>, n: nat) {
    && (forall i: nat :: Places(f, i) == if i < n then 1 else 0)
    && Total(f) == n
  }

  lemma {:induction false} HandsUpdate<Out, E>(workers: seq<Worker<Out, E>>, w: nat, to: Worker<Out, E>, i: nat)
    requires w < |workers|
    ensures InHands(workers[w := to], i) + Holding(workers[w], i) == InHands(workers, i) + Holding(to, i)
    ensures HandsTotal(workers[w := to]) + (if Holds(workers[w]) then 1 else 0) == HandsTotal(workers) + if Holds(to) then 1 else 0
  {
    var n := |workers| - 1;
    if w < n {
      HandsUpdate(workers[..n], w, to, i);
      assert workers[w := to][..n] == workers[..n][w := to];
    } else {
      assert workers[w := to][..n] == workers[..n];
    }
  }

  lemma {:induction false} HandsOfTwo<Out, E>(workers: seq<Worker<Out, E>>, v: nat, w: nat, i: nat)
    requires v < w < |workers|
    ensures Holding(workers[v], i) + Holding(workers[w], i) <= InHands(workers, i)
  {
    var n := |workers| - 1;
    if w < n {
      HandsOfTwo(workers[..n], v, w, i);
    } else {
      HandsOfOne(workers[..n], v, i);
    }
  }

  lemma {:induction false} HandsOfOne<Out, E>(workers: seq<Worker<Out, E>>, w: nat, i: nat)
    requires w < |workers|
    ensures Holding(workers[w], i) <= InHands(workers, i)
    ensures Holds(workers[w]) ==> HandsTotal(workers) > 0
  {
    var n := |workers| - 1;
    if w < n {
      HandsOfOne(workers[..n], w, i);
    }
  }

  lemma {:induction false} ResultsAppend<Out, E>(results: seq<Message<Out, E>>, m: Message<Out, E>, i: nat)
    ensures InResults(results + [m], i) == InResults(results, i) + if m.i == i then 1 else 0
  {
    if results != [] {
      assert (results + [m])[1..] == results[1..] + [m];
      ResultsAppend(results[1..], m, i);
    } else {
      assert results + [m] == [m] && [m][1..] == [];
    }
  }

  lemma {:induction false} ResultsHave<Out, E>(results: seq<Message<Out, E>>, k: nat)
    requires k < |results|
    ensures InResults(results, results[k].i) > 0
  {
    if k > 0 {
      ResultsHave(results[1..], k - 1);
    }
  }

  predicate SamePlaces<Out, E>(f: Flow<Out, E>, f': Flow<Out, E>, i: nat) {
    Places(f', i) == Places(f, i) && Total(f') == Total(f)
  }

  lemma ReceiveKeepsPlaces<Out, E>(f: Flow<Out, E>, w: nat, i: nat)
    requires w < |f.workers| && f.workers[w].Select? && f.tasks != []
    ensures SamePlaces(f, ReceiveFlow(f, w), i)
  {
    HandsUpdate(f.workers, w, Got(f.tasks[0]), i);
    assert f.tasks == [f.tasks[0]] + f.tasks[1..];
  }

  lemma SendKeepsPlaces<Out, E>(f: Flow<Out, E>, w: nat, i: nat)
    requires w < |f.workers| && f.workers[w].Sending?
    ensures SamePlaces(f, SendFlow(f, w), i)
  {
    var k := f.workers[w];
    HandsUpdate(f.workers, w, if k.leave then Exited else Select, i);
    ResultsAppend(f.results, Message(k.i, k.r), i);
  }

  lemma MoveKeepsPlaces<Out, E>(f: Flow<Out, E>, w: nat, to: Worker<Out, E>, i: nat)
    requires w < |f.workers| && (Holds(to) <==> Holds(f.workers[w]))
    requires Holds(to) ==> to.i == f.workers[w].i
    ensures SamePlaces(f, Move(f, w, to), i)
  {
    HandsUpdate(f.workers, w, to, i);
  }

  lemma CheckKeepsPlaces<In, Out, E>(s: System<In, Out, E>, w: nat, cause: E, i: nat)
    requires Enabled(s, Check(w, cause))
    ensures SamePlaces(s.flow, Next(s, Check(w, cause)).flow, i)
  {
    var k := s.flow.workers[w].i;
    var to := if RunDone(s) then Sending(k, Err(cause), true) else if s.job.limited then Throttled(k) else Mapping(k);
    MoveKeepsPlaces(s.flow, w, to, i);
  }

  lemma LimiterKeepsPlaces<In, Out, E>(s: System<In, Out, E>, w: nat, err: Option<E>, i: nat)
    requires Enabled(s, LimiterReturns(w, err))
    ensures SamePlaces(s.flow, Next(s, LimiterReturns(w, err)).flow, i)
  {
    var k := s.flow.workers[w].i;
    MoveKeepsPlaces(s.flow, w, if err.Some? then Sending(k, Err(err.value), false) else Mapping(k), i);
  }

  lemma CollectKeepsPlaces<Out, E>(f: Flow<Out, E>, i: nat)
    requires f.results != []
    ensures SamePlaces(f, CollectFlow(f), i)
  {
  }

  lemma DrainKeepsPlaces<Out, E>(f: Flow<Out, E>, i: nat)
    ensures SamePlaces(f, DrainFlow(f), i)
  {
  }

  lemma StepKeepsPlaces<In, Out, E>(s: System<In, Out, E>, a: Action<Out, E>, i: nat)
    requires Enabled(s, a)
    ensures SamePlaces(s.flow, Next(s, a).flow, i)
  {
    match a
    case Receive(w) => ReceiveKeepsPlaces(s.flow, w, i);
    case Send(w) => SendKeepsPlaces(s.flow, w, i);
    case Leave(w) => MoveKeepsPlaces(s.flow, w, Exited, i);
    case Check(w, cause) => CheckKeepsPlaces(s, w, cause, i);
    case LimiterReturns(w, err) => LimiterKeepsPlaces(s, w, err, i);
    case MapperReturns(w, r) => MoveKeepsPlaces(s.flow, w, Sending(s.flow.workers[w].i, r, false), i);
    case Collect => CollectKeepsPlaces(s.flow, i);
    case Finish => DrainKeepsPlaces(s.flow, i);
    case CancelContext =>
  }

  lemma StepConserves<In, Out, E>(s: System<In, Out, E>, a: Action<Out, E>)
    requires Conserved(s.flow, |s.job.inputs|) && Enabled(s, a)
    ensures Conserved(Next(s, a).flow, |s.job.inputs|)
  {
    forall i: nat ensures Places(Next(s, a).flow, i) == Places(s.flow, i) && Total(Next(s, a).flow) == Total(s.flow) {
      StepKeepsPlaces(s, a, i);
    }
    StepKeepsPlaces(s, a, 0);
  }

  /** A task in some worker's hands is nowhere else. */
  lemma HeldNowhereElse<Out, E>(f: Flow<Out, E>, n: nat, w: nat)
    requires Conserved(f, n) && w < |f.workers| && Holds(f.workers[w])
    ensures var i := f.workers[w].i;
            && i < n && i !in f.tasks && f.recycled[i] == 0
            && (forall v | 0 <= v < |f.workers| && v != w && Holds(f.workers[v]) :: f.workers[v].i != i)
            && (forall k | 0 <= k < |f.results| :: f.results[k].i != i)
    ensures |f.results| < n
  {
    var i := f.workers[w].i;
    HandsOfOne(f.workers, w, i);
    assert Places(f, i) <= 1;
    assert i in f.tasks ==> i in multiset(f.tasks);
    forall v | 0 <= v < |f.workers| && v != w && Holds(f.workers[v]) ensures f.workers[v].i != i {
      if v < w {
        HandsOfTwo(f.workers, v, w, i);
      } else {
        HandsOfTwo(f.workers, w, v, i);
      }
    }
    forall k | 0 <= k < |f.results| ensures f.results[k].i != i {
      ResultsHave(f.results, k);
    }
  }

  // ---- Results are the mapper's, one call per input ----

  ghost predicate Answered<Out, E>(l: Ledger<Out, E>, i: nat, v: Out) {
    i in l.answers && l.answers[i] == Ok(v) && l.calls[i] == 1
  }

  predicate Untouched<Out, E>(l: Ledger<Out, E>, i: nat) {
    l.calls[i] == 0 && i !in l.answers
  }

  ghost predicate WorkerHonest<Out, E>(l: Ledger<Out, E>, k: Worker<Out, E>) {
    match k
    case Select => true
    case Exited => true
    case Got(i) => Untouched(l, i)
    case Throttled(i) => Untouched(l, i)
    case Mapping(i) => l.calls[i] == 1 && i !in l.answers
    case Sending(i, r, _) => r.Ok? ==> Answered(l, i, r.value)
  }

  /** Whatever travels as a success is what the mapper answered to its one call. */
  ghost predicate Honest<Out, E>(f: Flow<Out, E>, l: Ledger<Out, E>) {
    && (forall w | 0 <= w < |f.workers| :: WorkerHonest(l, f.workers[w]))
    && (forall k | 0 <= k < |f.tasks| :: Untouched(l, f.tasks[k]))
    && (forall k | 0 <= k < |f.results| :: f.results[k].r.Ok? ==> Answered(l, f.results[k].i, f.results[k].r.value))
  }

  predicate ErrorSeen<Out, E>(t: Tally<Out, E>) {
    t.firstErr.Some? || t.collected != []
  }

  /** Whatever was collected is in its own output, unless an error was. */
  ghost predicate Delivered<Out, E>(f: Flow<Out, E>, t: Tally<Out, E>, l: Ledger<Out, E>) {
    forall i: nat | f.recycled[i] > 0 :: ErrorSeen(t) || (i < |t.outputs| && Answered(l, i, t.outputs[i]))
  }

  ghost predicate AgreeExcept<Out, E>(l: Ledger<Out, E>, l': Ledger<Out, E>, i: nat) {
    && l'.calls[i := 0] == l.calls[i := 0]
    && l'.answers - {i} == l.answers - {i}
  }

  lemma AgreeAt<Out, E>(l: Ledger<Out, E>, l': Ledger<Out, E>, i: nat, j: nat)
    requires AgreeExcept(l, l', i) && j != i
    ensures l'.calls[j] == l.calls[j] && (j in l'.answers <==> j in l.answers)
    ensures j in l.answers ==> l'.answers[j] == l.answers[j]
  {
    assert l'.calls[i := 0][j] == l.calls[i := 0][j];
    assert j in l'.answers <==> j in l'.answers - {i};
    assert j in l.answers <==> j in l.answers - {i};
    assert j in l.answers ==> (l'.answers - {i})[j] == (l.answers - {i})[j];
  }

  /** Moving one task on, and recording something about it alone, disturbs nobody else. */
  lemma MoveKeepsHonest<Out, E>(f: Flow<Out, E>, n: nat, l: Ledger<Out, E>, w: nat, to: Worker<Out, E>, l': Ledger<Out, E>)
    requires Conserved(f, n) && Honest(f, l)
    requires w < |f.workers| && Holds(f.workers[w]) && WorkerHonest(l', to) && AgreeExcept(l, l', f.workers[w].i)
    ensures Honest(Move(f, w, to), l')
  {
    var i := f.workers[w].i;
    HeldNowhereElse(f, n, w);
    forall v | 0 <= v < |f.workers| && v != w ensures WorkerHonest(l', f.workers[v]) {
      if Holds(f.workers[v]) {
        AgreeAt(l, l', i, f.workers[v].i);
      }
    }
    forall k | 0 <= k < |f.tasks| ensures Untouched(l', f.tasks[k]) {
      AgreeAt(l, l', i, f.tasks[k]);
    }
    forall k | 0 <= k < |f.results| && f.results[k].r.Ok? ensures Answered(l', f.results[k].i, f.results[k].r.value) {
      AgreeAt(l, l', i, f.results[k].i);
    }
  }

  lemma MoveKeepsDelivered<Out, E>(f: Flow<Out, E>, n: nat, t: Tally<Out, E>, l: Ledger<Out, E>, w: nat, l': Ledger<Out, E>)
    requires Conserved(f, n) && Delivered(f, t, l)
    requires w < |f.workers| && Holds(f.workers[w]) && AgreeExcept(l, l', f.workers[w].i)
    ensures forall f': Flow<Out, E> | f'.recycled == f.recycled :: Delivered(f', t, l')
  {
    HeldNowhereElse(f, n, w);
    forall i: nat | f.recycled[i] > 0
      ensures ErrorSeen(t) || (i < |t.outputs| && Answered(l', i, t.outputs[i]))
    {
      AgreeAt(l, l', f.workers[w].i, i);
    }
  }

  lemma CollectKeepsDelivered<Out, E>(f: Flow<Out, E>, n: nat, t: Tally<Out, E>, l: Ledger<Out, E>, failFast: bool)
    requires Conserved(f, n) && Honest(f, l) && Delivered(f, t, l) && |t.outputs| == n && f.results != []
    ensures Delivered(CollectFlow(f), CollectTally(t, failFast, f.results[0]), l)
    ensures Honest(CollectFlow(f), l)
  {
    var m := f.results[0];
    ResultsHave(f.results, 0);
    assert Places(f, m.i) > 0;
    var f', t' := CollectFlow(f), CollectTally(t, failFast, m);
    forall i: nat | f'.recycled[i] > 0 ensures ErrorSeen(t') || (i < |t'.outputs| && Answered(l, i, t'.outputs[i])) {
      if i != m.i {
        assert f.recycled[i] > 0;
      }
    }
  }

  // ---- The invariant ----

  ghost predicate Inv<In, Out, E>(s: System<In, Out, E>) {
    && Conserved(s.flow, |s.job.inputs|)
    && |s.tally.outputs| == |s.job.inputs| > 0
    && s.flow.workers != []
    && (forall i: nat :: s.ledger.calls[i] <= 1)
    && Honest(s.flow, s.ledger)
    && (s.returned.None? ==> Delivered(s.flow, s.tally, s.ledger))
    // a worker leaves early only when the context is done
    && ((exists w :: 0 <= w < |s.flow.workers| && s.flow.workers[w].Exited?) ==> RunDone(s) || s.flow.tasks == [])
    && (forall w | 0 <= w < |s.flow.workers| && s.flow.workers[w].Sending? && s.flow.workers[w].leave :: RunDone(s))
    && (s.returned.Some? ==> Settled(s))
  }

  /** What holds of a call that has returned. */
  ghost predicate Settled<In, Out, E>(s: System<In, Out, E>) {
    && s.flow.tasks == [] && s.flow.results == [] && AllExited(s.flow.workers)
    && s.returned.Some?
    && (s.returned.value.Outputs? ==>
          var vs := s.returned.value.values;
          |vs| == |s.job.inputs| && forall i | 0 <= i < |vs| :: Answered(s.ledger, i, vs[i]))
  }

  lemma {:induction false} NobodyHolds<Out, E>(workers: seq<Worker<Out, E>>, i: nat)
    requires AllExited(workers)
    ensures InHands(workers, i) == 0 && HandsTotal(workers) == 0
  {
    if workers != [] {
      NobodyHolds(workers[..|workers| - 1], i);
    }
  }

  lemma FinishSettles<In, Out, E>(s: System<In, Out, E>)
    requires Inv(s) && Enabled(s, Finish)
    ensures Settled(Next(s, Finish))
  {
    if Verdict(s.tally, s.ctxDone).Outputs? {
      assert s.flow.workers[0].Exited?;
      assert s.flow.tasks == [];
      forall i | 0 <= i < |s.job.inputs| ensures Answered(s.ledger, i, s.tally.outputs[i]) {
        NobodyHolds(s.flow.workers, i);
        assert Places(s.flow, i) == 1;
      }
    }
  }

  lemma LedgerStepKeepsInv<In, Out, E>(s: System<In, Out, E>, w: nat, to: Worker<Out, E>, l': Ledger<Out, E>)
    requires Inv(s) && s.returned.None?
    requires w < |s.flow.workers| && Holds(s.flow.workers[w]) && Holds(to) && to.i == s.flow.workers[w].i
    requires WorkerHonest(l', to) && AgreeExcept(s.ledger, l', to.i) && l'.calls[to.i] <= 1
    requires to.Sending? && to.leave ==> RunDone(s)
    ensures Inv(s.(flow := Move(s.flow, w, to), ledger := l'))
  {
    var f' := Move(s.flow, w, to);
    MoveKeepsHonest(s.flow, |s.job.inputs|, s.ledger, w, to, l');
    MoveKeepsDelivered(s.flow, |s.job.inputs|, s.tally, s.ledger, w, l');
    forall i: nat ensures Places(f', i) == Places(s.flow, i) && Total(f') == Total(s.flow) {
      MoveKeepsPlaces(s.flow, w, to, i);
    }
    MoveKeepsPlaces(s.flow, w, to, 0);
    forall i: nat ensures l'.calls[i] <= 1 {
      if i != to.i {
        AgreeAt(s.ledger, l', to.i, i);
      }
    }
    if v :| 0 <= v < |f'.workers| && f'.workers[v].Exited? {
      assert s.flow.workers[v].Exited?;
    }
  }

  lemma StartMapperKeepsInv<In, Out, E>(s: System<In, Out, E>, w: nat)
    requires Inv(s) && s.returned.None? && w < |s.flow.workers|
    requires s.flow.workers[w].Got? || s.flow.workers[w].Throttled?
    ensures Inv(StartMapper(s, w, s.flow.workers[w].i))
  {
    var i := s.flow.workers[w].i;
    assert WorkerHonest(s.ledger, s.flow.workers[w]);
    LedgerStepKeepsInv(s, w, Mapping(i), s.ledger.(calls := s.ledger.calls + multiset{i}));
  }

  lemma ReceiveKeepsInv<In, Out, E>(s: System<In, Out, E>, w: nat)
    requires Inv(s) && Enabled(s, Receive(w))
    ensures Inv(Next(s, Receive(w)))
  {
    StepConserves(s, Receive(w));
    var f' := ReceiveFlow(s.flow, w);
    assert WorkerHonest(s.ledger, f'.workers[w]);
    forall v | 0 <= v < |f'.workers| && v != w ensures WorkerHonest(s.ledger, f'.workers[v]) {
      assert WorkerHonest(s.ledger, s.flow.workers[v]);
    }
    if v :| 0 <= v < |f'.workers| && f'.workers[v].Exited? {
      assert s.flow.workers[v].Exited?;
    }
  }

  lemma LeaveKeepsInv<In, Out, E>(s: System<In, Out, E>, w: nat)
    requires Inv(s) && Enabled(s, Leave(w))
    ensures Inv(Next(s, Leave(w)))
  {
    StepConserves(s, Leave(w));
    forall v | 0 <= v < |s.flow.workers| ensures WorkerHonest(s.ledger, Move(s.flow, w, Exited).workers[v]) {
      assert WorkerHonest(s.ledger, s.flow.workers[v]);
    }
  }

  lemma SendKeepsInv<In, Out, E>(s: System<In, Out, E>, w: nat)
    requires Inv(s) && Enabled(s, Send(w))
    ensures Inv(Next(s, Send(w)))
  {
    StepConserves(s, Send(w));
    var f' := SendFlow(s.flow, w);
    forall v | 0 <= v < |f'.workers| ensures WorkerHonest(s.ledger, f'.workers[v]) {
      assert WorkerHonest(s.ledger, s.flow.workers[v]);
    }
    forall k | 0 <= k < |f'.results| && f'.results[k].r.Ok?
      ensures Answered(s.ledger, f'.results[k].i, f'.results[k].r.value)
    {
      assert WorkerHonest(s.ledger, s.flow.workers[w]);
    }
    if v :| 0 <= v < |f'.workers| && f'.workers[v].Exited? {
      assert v != w ==> s.flow.workers[v].Exited?;
    }
  }

  lemma CollectKeepsInv<In, Out, E>(s: System<In, Out, E>)
    requires Inv(s) && Enabled(s, Collect)
    ensures Inv(Next(s, Collect))
  {
    StepConserves(s, Collect);
    CollectKeepsDelivered(s.flow, |s.job.inputs|, s.tally, s.ledger, s.job.failFast);
    assert RunDone(s) ==> RunDone(Next(s, Collect));
  }

  lemma FinishKeepsInv<In, Out, E>(s: System<In, Out, E>)
    requires Inv(s) && Enabled(s, Finish)
    ensures Inv(Next(s, Finish))
  {
    StepConserves(s, Finish);
    FinishSettles(s);
    assert Honest(s.flow, s.ledger);
  }

  lemma StepKeepsInv<In, Out, E>(s: System<In, Out, E>, a: Action<Out, E>)
    requires Inv(s) && Enabled(s, a)
    ensures Inv(Next(s, a))
  {
    match a
    case Receive(w) => ReceiveKeepsInv(s, w);
    case Leave(w) => LeaveKeepsInv(s, w);
    case Check(w, cause) =>
      var i := s.flow.workers[w].i;
      assert WorkerHonest(s.ledger, s.flow.workers[w]);
      if RunDone(s) {
        LedgerStepKeepsInv(s, w, Sending(i, Err(cause), true), s.ledger);
      } else if s.job.limited {
        LedgerStepKeepsInv(s, w, Throttled(i), s.ledger);
      } else {
        StartMapperKeepsInv(s, w);
      }
    case LimiterReturns(w, err) =>
      var i := s.flow.workers[w].i;
      if err.Some? {
        LedgerStepKeepsInv(s, w, Sending(i, Err(err.value), false), s.ledger);
      } else {
        StartMapperKeepsInv(s, w);
      }
    case MapperReturns(w, r) =>
      var i := s.flow.workers[w].i;
      assert WorkerHonest(s.ledger, s.flow.workers[w]);
      LedgerStepKeepsInv(s, w, Sending(i, r, false), s.ledger.(answers := s.ledger.answers[i := r]));
    case Send(w) => SendKeepsInv(s, w);
    case Collect => CollectKeepsInv(s);
    case Finish => FinishKeepsInv(s);
    case CancelContext =>
  }

  // ---- Runs ----

  /** The channel filled with one task per input, and the workers started. */
  function Filled<Out, E>(n: nat, workers: nat): Flow<Out, E> {
    Flow(seq(n, i => i), [], seq(if workers < n then workers else n, _ => Select), multiset{})
  }

  function Start<In, Out, E>(job: Job<In>, workers: nat, zero: Out): System<In, Out, E> {
    System(job, Filled(|job.inputs|, workers), Tally(seq(|job.inputs|, _ => zero), None, []),
           Ledger(multiset{}, map[]), false, None)
  }

  lemma {:induction false} FilledOnce(n: nat, i: nat)
    ensures multiset(seq(n, k => k))[i] == if i < n then 1 else 0
  {
    if n > 0 {
      FilledOnce(n - 1, i);
      assert seq(n, k => k) == seq(n - 1, k => k) + [n - 1];
    } else {
      assert seq(0, k => k) == [];
    }
  }

  lemma {:induction false} NobodyHoldsYet<Out, E>(workers: seq<Worker<Out, E>>, i: nat)
    requires forall w | 0 <= w < |workers| :: workers[w].Select?
    ensures InHands(workers, i) == 0 && HandsTotal(workers) == 0
  {
    if workers != [] {
      NobodyHoldsYet(workers[..|workers| - 1], i);
    }
  }

  lemma StartSatisfiesInv<In, Out, E>(job: Job<In>, workers: nat, zero: Out)
    requires job.inputs != [] && workers > 0
    ensures Inv(Start<In, Out, E>(job, workers, zero))
  {
    var s := Start<In, Out, E>(job, workers, zero);
    var n := |job.inputs|;
    forall i: nat ensures Places(s.flow, i) == if i < n then 1 else 0 {
      FilledOnce(n, i);
      NobodyHoldsYet(s.flow.workers, i);
    }
    NobodyHoldsYet(s.flow.workers, 0);
  }

  ghost predicate IsRun<In, Out, E>(workers: nat, zero: Out, actions: seq<Action<Out, E>>, states: seq<System<In, Out, E>>) {
    && |states| == |actions| + 1
    && states[0].job.inputs != [] && workers > 0
    && states[0] == Start(states[0].job, workers, zero)
    && (forall i | 0 <= i < |actions| :: Enabled(states[i], actions[i]) && states[i + 1] == Next(states[i], actions[i]))
  }

  lemma {:induction false} RunKeepsInv<In, Out, E>(
    workers: nat, zero: Out, actions: seq<Action<Out, E>>, states: seq<System<In, Out, E>>, k: nat)
    requires IsRun(workers, zero, actions, states) && k < |states|
    ensures Inv(states[k]) && states[k].job == states[0].job
  {
    if k == 0 {
      StartSatisfiesInv<In, Out, E>(states[0].job, workers, zero);
    } else {
      RunKeepsInv(workers, zero, actions, states, k - 1);
      StepKeepsInv(states[k - 1], actions[k - 1]);
    }
  }

  /** The sequential loop that Process stands for. */
  function SequentialMap<In, Out, E>(inputs: seq<In>, f: In -> Result<Out, E>): Result<seq<Out>, E> {
    if inputs == [] then Ok([])
    else
      match SequentialMap(inputs[..|inputs| - 1], f)
      case Err(e) => Err(e)
      case Ok(vs) =>
        match f(inputs[|inputs| - 1])
        case Err(e) => Err(e)
        case Ok(v) => Ok(vs + [v])
  }

  lemma {:induction false} SequentialMapOf<In, Out, E>(inputs: seq<In>, f: In -> Result<Out, E>, vs: seq<Out>)
    requires |vs| == |inputs| && forall i | 0 <= i < |vs| :: f(inputs[i]) == Ok(vs[i])
    ensures SequentialMap(inputs, f) == Ok(vs)
  {
    if inputs != [] {
      var n := |inputs| - 1;
      SequentialMapOf(inputs[..n], f, vs[..n]);
      assert vs == vs[..n] + [vs[n]];
    }
  }

  /** Whatever the number of workers and the schedule, a nil error means the outputs are those of the
      sequential map, one mapper call per input. */
  lemma NilErrorMeansSequentialMap<In, Out, E>(
    workers: nat, zero: Out, actions: seq<Action<Out, E>>, states: seq<System<In, Out, E>>, k: nat, f: In -> Result<Out, E>)
    requires IsRun(workers, zero, actions, states) && k < |states|
    requires states[k].returned.Some? && states[k].returned.value.Outputs?
    requires forall i | i in states[k].ledger.answers && i < |states[k].job.inputs| ::
               states[k].ledger.answers[i] == f(states[k].job.inputs[i])
    ensures SequentialMap(states[0].job.inputs, f) == Ok(states[k].returned.value.values)
    ensures forall i: nat :: i < |states[0].job.inputs| ==> states[k].ledger.calls[i] == 1
  {
    RunKeepsInv(workers, zero, actions, states, k);
    SequentialMapOf(states[k].job.inputs, f, states[k].returned.value.values);
    forall i: nat | i < |states[0].job.inputs| ensures states[k].ledger.calls[i] == 1 {
      assert Answered(states[k].ledger, i, states[k].returned.value.values[i]);
    }
  }

  /** In every schedule: each task object is in one place, no input is mapped twice, and no worker's send
      can block; once the call has returned, on whichever path, each object has been recycled exactly once. */
  lemma TaskObjectsAreConserved<In, Out, E>(
    workers: nat, zero: Out, actions: seq<Action<Out, E>>, states: seq<System<In, Out, E>>, k: nat, i: nat, w: nat)
    requires IsRun(workers, zero, actions, states) && k < |states|
    ensures Places(states[k].flow, i) == if i < |states[0].job.inputs| then 1 else 0
    ensures states[k].ledger.calls[i] <= 1
    ensures states[k].returned.None? && w < |states[k].flow.workers| && states[k].flow.workers[w].Sending? ==>
              Enabled(states[k], Action.Send(w))
    ensures states[k].returned.Some? && i < |states[0].job.inputs| ==> states[k].flow.recycled[i] == 1
  {
    RunKeepsInv(workers, zero, actions, states, k);
    var f := states[k].flow;
    if w < |f.workers| && f.workers[w].Sending? {
      HeldNowhereElse(f, |states[0].job.inputs|, w);
    }
    if states[k].returned.Some? {
      NobodyHolds(f.workers, i);
    }
  }

  // ---- Every schedule ends ----

  function Effort<Out, E>(k: Worker<Out, E>): nat {
    match k
    case Exited => 0
    case Select => 1
    case Sending(_, _, _) => 3
    case Mapping(_) => 4
    case Throttled(_) => 5
    case Got(_) => 6
  }

  function Efforts<Out, E>(workers: seq<Worker<Out, E>>): nat {
    if workers == [] then 0 else Efforts(workers[..|workers| - 1]) + Effort(workers[|workers| - 1])
  }

  /** The steps left, at most. */
  function Work<In, Out, E>(s: System<In, Out, E>): nat {
    6 * |s.flow.tasks| + Efforts(s.flow.workers) + |s.flow.results|
    + (if s.ctxDone then 0 else 1) + (if s.returned.None? then 1 else 0)
  }

  lemma {:induction false} EffortsUpdate<Out, E>(workers: seq<Worker<Out, E>>, w: nat, to: Worker<Out, E>)
    requires w < |workers|
    ensures Efforts(workers[w := to]) + Effort(workers[w]) == Efforts(workers) + Effort(to)
  {
    var n := |workers| - 1;
    if w < n {
      EffortsUpdate(workers[..n], w, to);
      assert workers[w := to][..n] == workers[..n][w := to];
    } else {
      assert workers[w := to][..n] == workers[..n];
    }
  }

  lemma StepShrinksWork<In, Out, E>(s: System<In, Out, E>, a: Action<Out, E>)
    requires Enabled(s, a)
    ensures Work(Next(s, a)) < Work(s)
  {
    match a
    case Collect =>
    case Finish =>
    case CancelContext =>
    case Receive(w) => EffortsUpdate(s.flow.workers, w, Got(s.flow.tasks[0]));
    case Leave(w) => EffortsUpdate(s.flow.workers, w, Exited);
    case Send(w) => EffortsUpdate(s.flow.workers, w, if s.flow.workers[w].leave then Exited else Select);
    case Check(w, cause) => PassOnShrinksWork(s, a);
    case LimiterReturns(w, err) => PassOnShrinksWork(s, a);
    case MapperReturns(w, r) => PassOnShrinksWork(s, a);
  }

  lemma PassOnShrinksWork<In, Out, E>(s: System<In, Out, E>, a: Action<Out, E>)
    requires Enabled(s, a) && (a.Check? || a.LimiterReturns? || a.MapperReturns?)
    ensures Work(Next(s, a)) < Work(s)
  {
    EffortsUpdate(s.flow.workers, a.w, Next(s, a).flow.workers[a.w]);
  }

  lemma {:induction false} RunShrinksWork<In, Out, E>(
    workers: nat, zero: Out, actions: seq<Action<Out, E>>, states: seq<System<In, Out, E>>, k: nat)
    requires IsRun(workers, zero, actions, states) && k < |states|
    ensures Work(states[k]) + k <= Work(states[0])
  {
    if k > 0 {
      RunShrinksWork(workers, zero, actions, states, k - 1);
      StepShrinksWork(states[k - 1], actions[k - 1]);
    }
  }

  lemma {:induction false} EffortsOfSelecting<Out, E>(workers: seq<Worker<Out, E>>)
    requires forall w | 0 <= w < |workers| :: workers[w].Select?
    ensures Efforts(workers) == |workers|
  {
    if workers != [] {
      EffortsOfSelecting(workers[..|workers| - 1]);
    }
  }

  /** Until the call returns some step other than cancellation can be taken. */
  lemma StepExists<In, Out, E>(s: System<In, Out, E>, cause: E, r: Result<Out, E>) returns (a: Action<Out, E>)
    requires Inv(s) && s.returned.None?
    ensures Enabled(s, a) && !a.CancelContext?
  {
    var f := s.flow;
    if f.results != [] {
      a := Collect;
    } else if AllExited(f.workers) {
      a := Finish;
    } else {
      var w :| 0 <= w < |f.workers| && !f.workers[w].Exited?;
      match f.workers[w]
      case Select => a := if f.tasks != [] then Receive(w) else Leave(w);
      case Got(_) => a := Check(w, cause);
      case Throttled(_) => a := LimiterReturns(w, None);
      case Mapping(_) => a := MapperReturns(w, r);
      case Sending(_, _, _) =>
        HeldNowhereElse(f, |s.job.inputs|, w);
        a := Send(w);
    }
  }

  /** No schedule is longer than seven steps an input and two more, and one that cannot go on has returned. */
  lemma ProcessAlwaysReturns<In, Out, E>(
    workers: nat, zero: Out, actions: seq<Action<Out, E>>, states: seq<System<In, Out, E>>, cause: E, r: Result<Out, E>)
    requires IsRun(workers, zero, actions, states)
    ensures |actions| <= 7 * |states[0].job.inputs| + 2
    ensures (forall a: Action<Out, E> | !a.CancelContext? :: !Enabled(states[|actions|], a)) ==> states[|actions|].returned.Some?
  {
    RunShrinksWork(workers, zero, actions, states, |actions|);
    EffortsOfSelecting(states[0].flow.workers);
    RunKeepsInv(workers, zero, actions, states, |actions|);
    if states[|actions|].returned.None? {
      var a := StepExists(states[|actions|], cause, r);
    }
  }

  // ---- Errors are never dropped, and never made up ----

  /** Neither the context, nor the limiter, nor the mapper fails in this step. */
  predicate Benign<Out, E>(a: Action<Out, E>) {
    && !a.CancelContext?
    && (a.LimiterReturns? ==> a.err.None?)
    && (a.MapperReturns? ==> a.r.Ok?)
  }

  predicate Erring<Out, E>(k: Worker<Out, E>) {
    k.Sending? && k.r.Err?
  }

  /** Some failure has been seen, or is on its way to the collector. */
  ghost predicate Troubled<In, Out, E>(s: System<In, Out, E>) {
    || s.ctxDone || ErrorSeen(s.tally)
    || (exists w :: 0 <= w < |s.flow.workers| && Erring(s.flow.workers[w]))
    || (exists k :: 0 <= k < |s.flow.results| && s.flow.results[k].r.Err?)
  }

  ghost predicate ReturnIsRight<In, Out, E>(s: System<In, Out, E>) {
    s.returned.Some? ==> (s.returned.value.Outputs? <==> !Troubled(s))
  }

  lemma SendKeepsTrouble<In, Out, E>(s: System<In, Out, E>, w: nat)
    requires Enabled(s, Action<Out, E>.Send(w))
    ensures Troubled(Next(s, Action<Out, E>.Send(w))) <==> Troubled(s)
  {
    var s' := Next(s, Action<Out, E>.Send(w));
    var n := |s.flow.results|;
    assert s'.flow.results[n] == Message(s.flow.workers[w].i, s.flow.workers[w].r);
    assert forall k | 0 <= k < n :: s'.flow.results[k] == s.flow.results[k];
    assert forall v | 0 <= v < |s.flow.workers| && v != w :: s'.flow.workers[v] == s.flow.workers[v];
    assert !Erring(s'.flow.workers[w]);
    assert Erring(s.flow.workers[w]) <==> s'.flow.results[n].r.Err?;
  }

  lemma CollectKeepsTrouble<In, Out, E>(s: System<In, Out, E>)
    requires Enabled(s, Action<Out, E>.Collect)
    ensures Troubled(Next(s, Action<Out, E>.Collect)) <==> Troubled(s)
  {
    var s' := Next(s, Action<Out, E>.Collect);
    assert forall k | 1 <= k < |s.flow.results| :: s'.flow.results[k - 1] == s.flow.results[k];
  }

  /** A step that only moves one worker, from where it has no error in hand. */
  lemma WorkerKeepsTrouble<In, Out, E>(s: System<In, Out, E>, s': System<In, Out, E>, w: nat)
    requires w < |s.flow.workers| && !Erring(s.flow.workers[w])
    requires |s'.flow.workers| == |s.flow.workers| && s'.flow.workers == s.flow.workers[w := s'.flow.workers[w]]
    requires s'.flow.results == s.flow.results && s'.tally == s.tally && s'.ctxDone == s.ctxDone
    ensures Troubled(s') <==> Troubled(s) || Erring(s'.flow.workers[w])
  {
    assert forall v | 0 <= v < |s.flow.workers| && v != w :: s'.flow.workers[v] == s.flow.workers[v];
  }

  /** Trouble begins exactly with the first step that is not benign. */
  lemma StepTroubles<In, Out, E>(s: System<In, Out, E>, a: Action<Out, E>)
    requires Enabled(s, a)
    ensures Troubled(Next(s, a)) <==> Troubled(s) || !Benign(a)
  {
    match a
    case Send(w) => SendKeepsTrouble(s, w);
    case Collect => CollectKeepsTrouble(s);
    case Finish =>
    case CancelContext =>
    case Check(w, cause) => WorkerKeepsTrouble(s, Next(s, a), w);
    case _ => WorkerKeepsTrouble(s, Next(s, a), a.w);
  }

  lemma StepKeepsReturnRight<In, Out, E>(s: System<In, Out, E>, a: Action<Out, E>)
    requires Enabled(s, a) && ReturnIsRight(s)
    ensures ReturnIsRight(Next(s, a))
  {
  }

  lemma {:induction false} RunTroubles<In, Out, E>(
    workers: nat, zero: Out, actions: seq<Action<Out, E>>, states: seq<System<In, Out, E>>, k: nat)
    requires IsRun(workers, zero, actions, states) && k < |states|
    ensures ReturnIsRight(states[k])
    ensures Troubled(states[k]) <==> exists j :: 0 <= j < k && !Benign(actions[j])
  {
    if k > 0 {
      var last := k - 1;
      RunTroubles(workers, zero, actions, states, last);
      assert Enabled(states[last], actions[last]) && states[k] == Next(states[last], actions[last]);
      StepTroubles(states[last], actions[last]);
      StepKeepsReturnRight(states[last], actions[last]);
    }
  }

  /** Under every schedule Process returns a nil error exactly when its context was not cancelled and neither
      the limiter nor the mapper failed in any call. */
  lemma NilErrorExactlyWhenNothingFails<In, Out, E>(
    workers: nat, zero: Out, actions: seq<Action<Out, E>>, states: seq<System<In, Out, E>>, k: nat)
    requires IsRun(workers, zero, actions, states) && k < |states| && states[k].returned.Some?
    ensures states[k].returned.value.Outputs? <==> forall j | 0 <= j < k :: Benign(actions[j])
  {
    RunTroubles(workers, zero, actions, states, k);
  }

  // ---- What is returned ----

  /** The collector files one message: a value under its input, an error by the configuration. */
  lemma CollectFiles<In, Out, E>(s: System<In, Out, E>)
    requires Inv(s) && Enabled(s, Action<Out, E>.Collect)
    ensures var m, t, t' := s.flow.results[0], s.tally, Next(s, Action<Out, E>.Collect).tally;
            && m.i < |t.outputs| == |t'.outputs|
            && (m.r.Ok? ==> t'.outputs[m.i] == m.r.value && t'.firstErr == t.firstErr && t'.collected == t.collected)
            && (m.r.Err? ==> t'.outputs == t.outputs)
            && (m.r.Err? && s.job.failFast ==>
                  t'.collected == t.collected && t'.firstErr == if t.firstErr.None? then Some(m.r.error) else t.firstErr)
            && (m.r.Err? && !s.job.failFast ==>
                  t'.firstErr == t.firstErr && t'.collected == t.collected + [m.r.error])
            && (forall i | 0 <= i < |t.outputs| && i != m.i :: t'.outputs[i] == t.outputs[i])
  {
    MessagesAreInputs(s, 0);
  }

  lemma MessagesAreInputs<In, Out, E>(s: System<In, Out, E>, k: nat)
    requires Inv(s) && k < |s.flow.results|
    ensures s.flow.results[k].i < |s.job.inputs| == |s.tally.outputs|
  {
    ResultsHave(s.flow.results, k);
    assert Places(s.flow, s.flow.results[k].i) > 0;
  }

  /** A worker that finds the run cancelled, or failed fast, maps nothing more: it sends its task back and leaves. */
  lemma DoneWorkerLeaves<In, Out, E>(s: System<In, Out, E>, w: nat, cause: E)
    requires Enabled(s, Action<Out, E>.Check(w, cause)) && (s.ctxDone || s.tally.firstErr.Some?)
    requires |s.flow.results| < |s.job.inputs|
    ensures var s1 := Next(s, Action<Out, E>.Check(w, cause));
            && s1.ledger == s.ledger && Enabled(s1, Action<Out, E>.Send(w))
            && (var s2 := Next(s1, Action<Out, E>.Send(w));
                s2.flow.workers[w].Exited? && s2.flow.results == s.flow.results + [Message(s.flow.workers[w].i, Err(cause))])
  {
  }

  /** The step in which the limiter lets a task through. */
  predicate LetsThrough<Out, E>(a: Action<Out, E>) {
    a.LimiterReturns? && a.err.None?
  }

  function Passed<Out, E>(actions: seq<Action<Out, E>>, k: nat): nat
    requires k <= |actions|
  {
    |set j | 0 <= j < k && LetsThrough(actions[j])|
  }

  lemma PassedOneMore<Out, E>(actions: seq<Action<Out, E>>, k: nat)
    requires k < |actions|
    ensures Passed(actions, k + 1) == Passed(actions, k) + if LetsThrough(actions[k]) then 1 else 0
  {
    var before := set j | 0 <= j < k && LetsThrough(actions[j]);
    assert (set j | 0 <= j < k + 1 && LetsThrough(actions[j])) == before + if LetsThrough(actions[k]) then {k} else {};
  }

  lemma StepCallsMapper<In, Out, E>(s: System<In, Out, E>, a: Action<Out, E>)
    requires Enabled(s, a) && s.job.limited
    ensures |Next(s, a).ledger.calls| == |s.ledger.calls| + if LetsThrough(a) then 1 else 0
    ensures Next(s, a).job == s.job
  {
  }

  /** With a rate limiter every mapper call was let through by it, under every schedule. */
  lemma {:induction false} CallsPassTheLimiter<In, Out, E>(
    workers: nat, zero: Out, actions: seq<Action<Out, E>>, states: seq<System<In, Out, E>>, k: nat)
    requires IsRun(workers, zero, actions, states) && k < |states| && states[0].job.limited
    ensures states[k].job.limited && |states[k].ledger.calls| == Passed(actions, k)
  {
    if k == 0 {
      assert Passed(actions, 0) == 0;
    } else {
      CallsPassTheLimiter(workers, zero, actions, states, k - 1);
      assert Enabled(states[k - 1], actions[k - 1]) && states[k] == Next(states[k - 1], actions[k - 1]);
      StepCallsMapper(states[k - 1], actions[k - 1]);
      PassedOneMore(actions, k - 1);
    }
  }

  /** A worker that may go on calls the mapper at once when there is no limiter, and after it otherwise. */
  lemma FreeWorkerGoesOn<In, Out, E>(s: System<In, Out, E>, w: nat, cause: E)
    requires Enabled(s, Action<Out, E>.Check(w, cause)) && !s.ctxDone && s.tally.firstErr.None?
    ensures var s', i := Next(s, Action<Out, E>.Check(w, cause)), s.flow.workers[w].i;
            if s.job.limited then s'.flow.workers[w] == Throttled(i) && s'.ledger == s.ledger
            else s'.flow.workers[w] == Mapping(i) && s'.ledger.calls == s.ledger.calls + multiset{i}
  {
  }

  /** There are never more workers than configured, nor than inputs. */
  lemma {:induction false} WorkersAreBounded<In, Out, E>(
    workers: nat, zero: Out, actions: seq<Action<Out, E>>, states: seq<System<In, Out, E>>, k: nat)
    requires IsRun(workers, zero, actions, states) && k < |states|
    ensures |states[k].flow.workers| == if workers < |states[0].job.inputs| then workers else |states[0].job.inputs|
  {
    if k > 0 {
      WorkersAreBounded(workers, zero, actions, states, k - 1);
      assert Enabled(states[k - 1], actions[k - 1]) && states[k] == Next(states[k - 1], actions[k - 1]);
    }
  }

  /** A call that is not cancelled and does not fail fast. */
  predicate CollectsAll<In, Out, E>(s: System<In, Out, E>) {
    !s.job.failFast && !s.ctxDone && s.tally.firstErr.None?
  }

  /** The step of the limiter or of the mapper that produces an error. */
  predicate Produces<Out, E(==)>(a: Action<Out, E>, e: E) {
    (a.LimiterReturns? && a.err == Some(e)) || (a.MapperReturns? && a.r.Err? && a.r.error == e)
  }

  /** How often the first k steps produced an error. */
  function Produced<Out, E(==)>(actions: seq<Action<Out, E>>, k: nat, e: E): nat
    requires k <= |actions|
  {
    |set j | 0 <= j < k && Produces(actions[j], e)|
  }

  lemma ProducedOneMore<Out, E>(actions: seq<Action<Out, E>>, k: nat, e: E)
    requires k < |actions|
    ensures Produced(actions, k + 1, e) == Produced(actions, k, e) + if Produces(actions[k], e) then 1 else 0
  {
    var before := set j | 0 <= j < k && Produces(actions[j], e);
    assert (set j | 0 <= j < k + 1 && Produces(actions[j], e)) == before + if Produces(actions[k], e) then {k} else {};
  }

  function IsError<Out, E(==)>(r: Result<Out, E>, e: E): nat {
    if r.Err? && r.error == e then 1 else 0
  }

  function InHand<Out, E(==)>(k: Worker<Out, E>, e: E): nat {
    if k.Sending? then IsError(k.r, e) else 0
  }

  function InAllHands<Out, E(==)>(workers: seq<Worker<Out, E>>, e: E): nat {
    if workers == [] then 0 else InAllHands(workers[..|workers| - 1], e) + InHand(workers[|workers| - 1], e)
  }

  function InMessages<Out, E(==)>(results: seq<Message<Out, E>>, e: E): nat {
    if results == [] then 0 else IsError(results[0].r, e) + InMessages(results[1..], e)
  }

  lemma {:induction false} HandErrorsUpdate<Out, E>(workers: seq<Worker<Out, E>>, w: nat, to: Worker<Out, E>, e: E)
    requires w < |workers|
    ensures InAllHands(workers[w := to], e) + InHand(workers[w], e) == InAllHands(workers, e) + InHand(to, e)
  {
    var n := |workers| - 1;
    if w < n {
      HandErrorsUpdate(workers[..n], w, to, e);
      assert workers[w := to][..n] == workers[..n][w := to];
    } else {
      assert workers[w := to][..n] == workers[..n];
    }
  }

  lemma {:induction false} MessageErrorsAppend<Out, E>(results: seq<Message<Out, E>>, m: Message<Out, E>, e: E)
    ensures InMessages(results + [m], e) == InMessages(results, e) + IsError(m.r, e)
  {
    if results == [] {
      assert [m][1..] == [];
    } else {
      MessageErrorsAppend(results[1..], m, e);
      assert (results + [m])[1..] == results[1..] + [m];
    }
  }

  lemma {:induction false} NoErrorsInHand<Out, E>(workers: seq<Worker<Out, E>>, e: E)
    requires forall w | 0 <= w < |workers| :: !workers[w].Sending?
    ensures InAllHands(workers, e) == 0
  {
    if workers != [] {
      NoErrorsInHand(workers[..|workers| - 1], e);
    }
  }

  /** How often an error is with the workers, in the results, or collected. */
  function Errors<In, Out, E(==)>(s: System<In, Out, E>, e: E): nat {
    InAllHands(s.flow.workers, e) + InMessages(s.flow.results, e) + multiset(s.tally.collected)[e]
  }

  lemma StepCollectsAll<In, Out, E>(s: System<In, Out, E>, a: Action<Out, E>)
    requires CollectsAll(s) && Enabled(s, a) && !a.CancelContext?
    ensures CollectsAll(Next(s, a))
  {
  }

  lemma StepMovesErrors<In, Out, E>(s: System<In, Out, E>, a: Action<Out, E>, e: E)
    requires CollectsAll(s) && Enabled(s, a) && !a.CancelContext?
    ensures Errors(Next(s, a), e) == Errors(s, e) + if Produces(a, e) then 1 else 0
  {
    var s' := Next(s, a);
    match a
    case Collect =>
    case Finish =>
    case Send(w) =>
      HandErrorsUpdate(s.flow.workers, w, s'.flow.workers[w], e);
      MessageErrorsAppend(s.flow.results, Message(s.flow.workers[w].i, s.flow.workers[w].r), e);
    case Receive(w) => WorkerMovesErrors(s, s', w, e);
    case Leave(w) => WorkerMovesErrors(s, s', w, e);
    case Check(w, _) => WorkerMovesErrors(s, s', w, e);
    case LimiterReturns(w, _) => WorkerMovesErrors(s, s', w, e);
    case MapperReturns(w, _) => WorkerMovesErrors(s, s', w, e);
    case CancelContext =>
  }

  lemma WorkerMovesErrors<In, Out, E>(s: System<In, Out, E>, s': System<In, Out, E>, w: nat, e: E)
    requires w < |s.flow.workers| == |s'.flow.workers| && s'.flow.workers == s.flow.workers[w := s'.flow.workers[w]]
    requires s'.flow.results == s.flow.results && s'.tally == s.tally
    ensures Errors(s', e) + InHand(s.flow.workers[w], e) == Errors(s, e) + InHand(s'.flow.workers[w], e)
  {
    HandErrorsUpdate(s.flow.workers, w, s'.flow.workers[w], e);
  }

  /** No worker is gone while a task is queued. */
  ghost predicate NobodyLeftEarly<In, Out, E>(s: System<In, Out, E>) {
    && (forall w | 0 <= w < |s.flow.workers| :: s.flow.workers[w].Exited? ==> s.flow.tasks == [])
    && (forall w | 0 <= w < |s.flow.workers| :: s.flow.workers[w].Sending? ==> !s.flow.workers[w].leave)
  }

  predicate Awaits<Out, E>(k: Worker<Out, E>, i: nat) {
    (k.Got? || k.Throttled?) && k.i == i
  }

  /** The input waits, is with a worker that has yet to map it, was mapped, or was refused by the limiter. */
  ghost predicate Reached<In, Out, E>(s: System<In, Out, E>, refused: set<nat>, i: nat) {
    || i in s.flow.tasks
    || (exists w :: 0 <= w < |s.flow.workers| && Awaits(s.flow.workers[w], i))
    || s.ledger.calls[i] > 0
    || i in refused
  }

  /** The input the limiter refuses in this step. */
  function RefusedBy<In, Out, E>(s: System<In, Out, E>, a: Action<Out, E>): set<nat> {
    if a.LimiterReturns? && a.err.Some? && a.w < |s.flow.workers| && s.flow.workers[a.w].Throttled?
    then {s.flow.workers[a.w].i} else {}
  }

  lemma WaitingStaysReached<In, Out, E>(s: System<In, Out, E>, a: Action<Out, E>, refused: set<nat>, i: nat, w: nat)
    requires CollectsAll(s) && Enabled(s, a) && w < |s.flow.workers| && Awaits(s.flow.workers[w], i)
    ensures Reached(Next(s, a), refused + RefusedBy(s, a), i)
  {
    var s' := Next(s, a);
    if a.Check? && a.w == w {
      assert s'.ledger.calls[i] > 0 || Awaits(s'.flow.workers[w], i);
    } else if a.LimiterReturns? && a.w == w {
      assert s'.ledger.calls[i] > 0 || i in RefusedBy(s, a);
    } else {
      assert Awaits(s'.flow.workers[w], i);
    }
  }

  lemma QueuedStaysReached<In, Out, E>(s: System<In, Out, E>, a: Action<Out, E>, refused: set<nat>, i: nat)
    requires Enabled(s, a) && i in s.flow.tasks && (a.Finish? ==> s.flow.tasks == [])
    ensures Reached(Next(s, a), refused, i)
  {
    var s' := Next(s, a);
    if a.Receive? {
      assert i == s.flow.tasks[0] || i in s.flow.tasks[1..];
      assert Awaits(s'.flow.workers[a.w], s.flow.tasks[0]);
    }
  }

  lemma StepKeepsReached<In, Out, E>(s: System<In, Out, E>, a: Action<Out, E>, refused: set<nat>, i: nat)
    requires CollectsAll(s) && Enabled(s, a) && Reached(s, refused, i) && NobodyLeftEarly(s) && s.flow.workers != []
    ensures Reached(Next(s, a), refused + RefusedBy(s, a), i)
  {
    if w :| 0 <= w < |s.flow.workers| && Awaits(s.flow.workers[w], i) {
      WaitingStaysReached(s, a, refused, i, w);
    } else if i in s.flow.tasks {
      assert !s.flow.workers[0].Exited?;
      QueuedStaysReached(s, a, refused + RefusedBy(s, a), i);
    }
  }

  lemma StepKeepsNobodyLeft<In, Out, E>(s: System<In, Out, E>, a: Action<Out, E>)
    requires CollectsAll(s) && Enabled(s, a) && NobodyLeftEarly(s)
    ensures NobodyLeftEarly(Next(s, a))
  {
  }

  /** The inputs the limiter refused in the first k steps. */
  function Refused<In, Out, E>(actions: seq<Action<Out, E>>, states: seq<System<In, Out, E>>, k: nat): set<nat>
    requires k <= |actions| < |states|
  {
    if k == 0 then {} else Refused(actions, states, k - 1) + RefusedBy(states[k - 1], actions[k - 1])
  }

  /** A step of a run. */
  lemma RunStep<In, Out, E>(
    workers: nat, zero: Out, actions: seq<Action<Out, E>>, states: seq<System<In, Out, E>>, k: nat)
    requires IsRun(workers, zero, actions, states) && k < |actions|
    ensures Enabled(states[k], actions[k]) && states[k + 1] == Next(states[k], actions[k])
    ensures states[k + 1].job == states[k].job && |states[k + 1].flow.workers| == |states[k].flow.workers|
  {
  }

  lemma {:induction false} RunCollectsAll<In, Out, E>(
    workers: nat, zero: Out, actions: seq<Action<Out, E>>, states: seq<System<In, Out, E>>, k: nat)
    requires IsRun(workers, zero, actions, states) && k < |states| && !states[0].job.failFast
    requires forall j | 0 <= j < k :: !actions[j].CancelContext?
    ensures CollectsAll(states[k]) && NobodyLeftEarly(states[k]) && states[k].flow.workers != []
  {
    if k > 0 {
      RunCollectsAll(workers, zero, actions, states, k - 1);
      RunStep(workers, zero, actions, states, k - 1);
      StepCollectsAll(states[k - 1], actions[k - 1]);
      StepKeepsNobodyLeft(states[k - 1], actions[k - 1]);
    }
  }

  lemma {:induction false} RunKeepsErrors<In, Out, E>(
    workers: nat, zero: Out, actions: seq<Action<Out, E>>, states: seq<System<In, Out, E>>, k: nat, e: E)
    requires IsRun(workers, zero, actions, states) && k < |states| && !states[0].job.failFast
    requires forall j | 0 <= j < k :: !actions[j].CancelContext?
    ensures Errors(states[k], e) == Produced(actions, k, e)
  {
    if k == 0 {
      NoErrorsInHand(states[0].flow.workers, e);
      assert Produced(actions, 0, e) == 0;
    } else {
      RunKeepsErrors(workers, zero, actions, states, k - 1, e);
      RunCollectsAll(workers, zero, actions, states, k - 1);
      RunStep(workers, zero, actions, states, k - 1);
      StepMovesErrors(states[k - 1], actions[k - 1], e);
      ProducedOneMore(actions, k - 1, e);
    }
  }

  lemma {:induction false} RunReaches<In, Out, E>(
    workers: nat, zero: Out, actions: seq<Action<Out, E>>, states: seq<System<In, Out, E>>, k: nat, i: nat)
    requires IsRun(workers, zero, actions, states) && k < |states| && !states[0].job.failFast
    requires forall j | 0 <= j < k :: !actions[j].CancelContext?
    requires i < |states[0].job.inputs|
    ensures Reached(states[k], Refused(actions, states, k), i)
  {
    if k == 0 {
      assert states[0].flow.tasks[i] == i;
    } else {
      RunReaches(workers, zero, actions, states, k - 1, i);
      RunCollectsAll(workers, zero, actions, states, k - 1);
      RunStep(workers, zero, actions, states, k - 1);
      StepKeepsReached(states[k - 1], actions[k - 1], Refused(actions, states, k - 1), i);
    }
  }

  /** Without fail-fast and cancellation, under every schedule: no worker leaves while a task is queued, and when the
      call has returned every input was mapped once or refused by the limiter. */
  lemma EveryInputIsTried<In, Out, E>(
    workers: nat, zero: Out, actions: seq<Action<Out, E>>, states: seq<System<In, Out, E>>, k: nat, i: nat)
    requires IsRun(workers, zero, actions, states) && k < |states| && !states[0].job.failFast
    requires forall j | 0 <= j < k :: !actions[j].CancelContext?
    ensures forall w | 0 <= w < |states[k].flow.workers| && states[k].flow.workers[w].Exited? :: states[k].flow.tasks == []
    ensures states[k].returned.Some? && i < |states[0].job.inputs| ==>
              states[k].ledger.calls[i] == 1 || i in Refused(actions, states, k)
  {
    RunCollectsAll(workers, zero, actions, states, k);
    if states[k].returned.Some? && i < |states[0].job.inputs| {
      RunReaches(workers, zero, actions, states, k, i);
      ReturnedTally(workers, zero, actions, states, k);
      TaskObjectsAreConserved(workers, zero, actions, states, k, i, 0);
    }
  }

  /** And it returns the outputs, or the joined errors: every error exactly as often as the limiter and the mapper
      produced it. */
  lemma ErrorsAreAllJoined<In, Out, E>(
    workers: nat, zero: Out, actions: seq<Action<Out, E>>, states: seq<System<In, Out, E>>, k: nat, e: E)
    requires IsRun(workers, zero, actions, states) && k < |states| && !states[0].job.failFast
    requires states[k].returned.Some? && forall j | 0 <= j < k :: !actions[j].CancelContext?
    ensures states[k].returned.value.Outputs? || states[k].returned.value.JoinedErrors?
    ensures states[k].returned.value.Outputs? ==> Produced(actions, k, e) == 0
    ensures states[k].returned.value.JoinedErrors? ==>
              states[k].returned.value.es != [] && multiset(states[k].returned.value.es)[e] == Produced(actions, k, e)
  {
    RunCollectsAll(workers, zero, actions, states, k);
    RunKeepsErrors(workers, zero, actions, states, k, e);
    ReturnedTally(workers, zero, actions, states, k);
    NoErrorsInHand(states[k].flow.workers, e);
  }

  /** What a call returns, by what its collector had: the context's error first, then the first error, then the
      joined errors, then the outputs. */
  lemma {:induction false} ReturnedTally<In, Out, E>(
    workers: nat, zero: Out, actions: seq<Action<Out, E>>, states: seq<System<In, Out, E>>, k: nat)
    requires IsRun(workers, zero, actions, states) && k < |states| && states[k].returned.Some?
    ensures var s := states[k];
            && s.flow.results == [] && AllExited(s.flow.workers)
            && (s.returned.value.ContextError? <==> s.ctxDone)
            && (s.returned.value.FirstError? ==> s.tally.firstErr == Some(s.returned.value.e))
            && (!s.ctxDone && s.tally.firstErr.Some? ==> s.returned.value.FirstError?)
            && (s.returned.value.JoinedErrors? ==> s.tally.collected == s.returned.value.es != [])
            && (!s.ctxDone && s.tally.firstErr.None? && s.tally.collected != [] ==> s.returned.value.JoinedErrors?)
            && (s.returned.value.Outputs? ==> s.tally.collected == [])
  {
    var last := k - 1;
    assert k > 0;
    assert Enabled(states[last], actions[last]) && states[k] == Next(states[last], actions[last]);
  }

  /** The call returns its context's error exactly when the context was cancelled before it returned. */
  lemma {:induction false} CancelledExactly<In, Out, E>(
    workers: nat, zero: Out, actions: seq<Action<Out, E>>, states: seq<System<In, Out, E>>, k: nat)
    requires IsRun(workers, zero, actions, states) && k < |states|
    ensures states[k].ctxDone <==> exists j :: 0 <= j < k && actions[j].CancelContext?
    ensures states[k].returned.Some? ==> (states[k].returned.value.ContextError? <==> states[k].ctxDone)
  {
    if states[k].returned.Some? {
      ReturnedTally(workers, zero, actions, states, k);
    }
    if k > 0 {
      var last := k - 1;
      CancelledExactly(workers, zero, actions, states, last);
      assert Enabled(states[last], actions[last]) && states[k] == Next(states[last], actions[last]);
    }
  }

  /** The step takes an error from the results. */
  predicate TakesError<In, Out, E>(s: System<In, Out, E>, a: Action<Out, E>) {
    a.Collect? && s.flow.results != [] && s.flow.results[0].r.Err?
  }

  /** With fail-fast, under every schedule, nothing is joined: a call that is not cancelled returns the first error
      taken from the results, if one was taken, and otherwise the outputs. */
  lemma {:induction false} FirstTakenErrorIsKept<In, Out, E>(
    workers: nat, zero: Out, actions: seq<Action<Out, E>>, states: seq<System<In, Out, E>>, k: nat)
    requires IsRun(workers, zero, actions, states) && k < |states| && states[0].job.failFast
    ensures states[k].job.failFast && states[k].tally.collected == []
    ensures states[k].tally.firstErr.None? ==> forall j | 0 <= j < k :: !TakesError(states[j], actions[j])
    ensures states[k].tally.firstErr.Some? ==>
              exists j :: 0 <= j < k && TakesError(states[j], actions[j])
                          && states[j].flow.results[0].r.error == states[k].tally.firstErr.value
                          && forall h | 0 <= h < j :: !TakesError(states[h], actions[h])
  {
    if k > 0 {
      var last := k - 1;
      FirstTakenErrorIsKept(workers, zero, actions, states, last);
      assert Enabled(states[last], actions[last]) && states[k] == Next(states[last], actions[last]);
      if states[last].tally.firstErr.Some? {
        var j :| 0 <= j < last && TakesError(states[j], actions[j])
                 && states[j].flow.results[0].r.error == states[last].tally.firstErr.value
                 && forall h | 0 <= h < j :: !TakesError(states[h], actions[h]);
        assert j < k;
      } else if TakesError(states[last], actions[last]) {
        assert forall h | 0 <= h < last :: !TakesError(states[h], actions[h]);
      }
    }
  }

  lemma FailFastReturnsFirst<In, Out, E>(
    workers: nat, zero: Out, actions: seq<Action<Out, E>>, states: seq<System<In, Out, E>>, k: nat)
    requires IsRun(workers, zero, actions, states) && k < |states| && states[0].job.failFast
    requires states[k].returned.Some? && forall j | 0 <= j < k :: !actions[j].CancelContext?
    ensures states[k].returned.value.Outputs? || states[k].returned.value.FirstError?
    ensures states[k].returned.value.Outputs? <==> forall j | 0 <= j < k :: !TakesError(states[j], actions[j])
    ensures states[k].returned.value.FirstError? ==>
              exists j :: 0 <= j < k && TakesError(states[j], actions[j])
                          && states[j].flow.results[0].r.error == states[k].returned.value.e
                          && forall h | 0 <= h < j :: !TakesError(states[h], actions[h])
  {
    FirstTakenErrorIsKept(workers, zero, actions, states, k);
    CancelledExactly(workers, zero, actions, states, k);
    ReturnedTally(workers, zero, actions, states, k);
  }

  // ---- The object: one call of Process ----

  class ProcessCall<In, Out, E> {
    const job: Job<In>
    var tasks: seq<nat>
    var results: seq<Message<Out, E>>
    var workers: seq<Worker<Out, E>>
    ghost var recycled: multiset<nat>
    const outputs: array<Out>
    var firstErr: Option<E>
    var collected: seq<E>
    var ctxDone: bool
    var returned: Option<Return<Out, E>>
    ghost var ledger: Ledger<Out, E>

    ghost function View(): System<In, Out, E>
      reads this, outputs
    {
      System(job, Flow(tasks, results, workers, recycled), Tally(outputs[..], firstErr, collected),
             ledger, ctxDone, returned)
    }

    /** Creates a task for each input and fills the channel, whose capacity is the number of inputs. */
    constructor (job: Job<In>, configured: nat, zero: Out)
      ensures this.job == job && View() == Start(job, configured, zero) && fresh(outputs)
      ensures |workers| == if configured < |job.inputs| then configured else |job.inputs|
    {
      this.job := job;
      tasks, results, recycled, ctxDone, returned := [], [], multiset{}, false, None;
      firstErr, collected, ledger := None, [], Ledger(multiset{}, map[]);
      workers := [];
      outputs := new Out[|job.inputs|](_ => zero);
      new;
      for i := 0 to |job.inputs|
        invariant tasks == seq(i, k => k) && |tasks| <= |job.inputs|
        invariant View() == Start(job, configured, zero).(flow := Flow(tasks, [], [], multiset{}))
      {
        assert seq(i + 1, k => k) == seq(i, k => k) + [i];
        tasks := tasks + [i];
      }
      workers := seq(if configured < |job.inputs| then configured else |job.inputs|, _ => Select);
    }

    method WorkerReceive(w: nat)
      requires Enabled(View(), Receive(w))
      modifies this`workers, this`tasks
      ensures View() == Next(old(View()), Receive(w))
    {
      workers := workers[w := Got(tasks[0])];
      tasks := tasks[1..];
    }

    method WorkerLeave(w: nat)
      requires Enabled(View(), Leave(w))
      modifies this`workers
      ensures View() == Next(old(View()), Leave(w))
    {
      workers := workers[w := Exited];
    }

    method WorkerCheck(w: nat, cause: E)
      requires Enabled(View(), Check(w, cause))
      modifies this`workers, this`ledger
      ensures View() == Next(old(View()), Check(w, cause))
    {
      var i := workers[w].i;
      if ctxDone || firstErr.Some? {
        workers := workers[w := Sending(i, Err(cause), true)];
      } else if job.limited {
        workers := workers[w := Throttled(i)];
      } else {
        workers := workers[w := Mapping(i)];
        ledger := ledger.(calls := ledger.calls + multiset{i});
      }
    }

    method WorkerLimiterReturns(w: nat, err: Option<E>)
      requires Enabled(View(), LimiterReturns(w, err))
      modifies this`workers, this`ledger
      ensures View() == Next(old(View()), LimiterReturns(w, err))
    {
      var i := workers[w].i;
      if err.Some? {
        workers := workers[w := Sending(i, Err(err.value), false)];
      } else {
        workers := workers[w := Mapping(i)];
        ledger := ledger.(calls := ledger.calls + multiset{i});
      }
    }

    method WorkerMapperReturns(w: nat, r: Result<Out, E>)
      requires Enabled(View(), MapperReturns(w, r))
      modifies this`workers, this`ledger
      ensures View() == Next(old(View()), MapperReturns(w, r))
    {
      var i := workers[w].i;
      workers := workers[w := Sending(i, r, false)];
      ledger := ledger.(answers := ledger.answers[i := r]);
    }

    method WorkerSend(w: nat)
      requires Enabled(View(), Send(w))
      modifies this`workers, this`results
      ensures View() == Next(old(View()), Send(w))
    {
      var k := workers[w];
      results := results + [Message(k.i, k.r)];
      workers := workers[w := if k.leave then Exited else Select];
    }

    /** One turn of the collecting loop. */
    method CollectNext()
      requires Enabled(View(), Collect)
      modifies this, outputs
      ensures View() == Next(old(View()), Collect)
    {
      var m := results[0];
      results := results[1..];
      if m.r.Err? {
        if job.failFast {
          if firstErr.None? {
            firstErr := Some(m.r.error);
          }
        } else {
          collected := collected + [m.r.error];
        }
      } else if m.i < outputs.Length {
        outputs[m.i] := m.r.value;
      }
      recycled := recycled + multiset{m.i};
    }

    /** The end of Process, with the deferred drain of the tasks channel. */
    method FinishCall()
      requires Enabled(View(), Finish)
      modifies this
      ensures View() == Next(old(View()), Finish)
    {
      if ctxDone {
        returned := Some(ContextError);
      } else if firstErr.Some? {
        returned := Some(FirstError(firstErr.value));
      } else if |collected| > 0 {
        returned := Some(JoinedErrors(collected));
      } else {
        returned := Some(Outputs(outputs[..]));
      }
      DrainTasks();
    }

    /** The deferred loop over the closed tasks channel. */
    method DrainTasks()
      modifies this`tasks, this`recycled
      ensures tasks == [] && recycled == old(recycled) + multiset(old(tasks))
    {
      while tasks != []
        invariant recycled + multiset(tasks) == old(recycled) + multiset(old(tasks))
        decreases |tasks|
      {
        assert tasks == [tasks[0]] + tasks[1..];
        recycled := recycled + multiset{tasks[0]};
        tasks := tasks[1..];
      }
    }
  }
}
