/** The event loop of the scheduler: its queue, its timer and its one-slot wake channel,
    under every interleaving of pushers, loop and clock. */
module Scheduler {
  import opened TaskHeap
  import opened TaskPool

  // ---- One pass through the loop's critical section ----

  datatype Decision<R> = Stop | ParkEmpty | ParkUntil(deadline: int) | Dispatch(r: R)

  /** The task is due first, and of these it has the highest priority. */
  ghost predicate IsMinimum<R>(queue: map<R, Key>, r: R) {
    && r in queue
    && forall q | q in queue :: queue[r].nextRun < queue[q].nextRun
                                || (queue[r].nextRun == queue[q].nextRun && queue[r].priority >= queue[q].priority)
  }

  /** `r` is the task at the root, if there is one. */
  ghost predicate CanDecide<R>(queue: map<R, Key>, r: R, cancelled: bool) {
    cancelled || queue == map[] || IsMinimum(queue, r)
  }

  ghost function Decide<R>(queue: map<R, Key>, r: R, now: int, cancelled: bool): Decision<R>
    requires CanDecide(queue, r, cancelled)
  {
    if cancelled then Stop
    else if queue == map[] then ParkEmpty
    else if now < queue[r].nextRun then ParkUntil(queue[r].nextRun)
    else Dispatch(r)
  }

  // ---- The system ----

  datatype Loop = Top | ParkedEmpty | ParkedUntil(deadline: int) | Stopped

  datatype System<R(==), P(==)> = System(
    queue: map<R, Key>,
    running: set<R>,        // dispatched, not finished
    token: bool,            // the wake channel holds its one token
    pending: set<P>,        // pushed, about to call triggerWake
    loop: Loop,
    now: int,
    cancelled: bool,
    pushed: multiset<R>,    // every push so far
    dispatched: multiset<R>)

  datatype Action<R, P> =
    | Schedule(p: P, r: R, key: Key)
    | Trigger(p: P)
    | Iterate(r: R)
    | Wake
    | TimerFires
    | SeeCancel
    | Cancel
    | Tick(d: nat)
    | Requeue(r: R, p: P, interval: int, priority: int)   // runTask of a periodic task
    | Finish(r: R)                                        // runTask of a one-off task

  ghost predicate Enabled<R, P>(s: System<R, P>, a: Action<R, P>) {
    match a
    case Schedule(p, r, key) => p !in s.pending && r !in s.queue && r !in s.running
    case Trigger(p) => p in s.pending
    case Iterate(r) => s.loop == Top && CanDecide(s.queue, r, s.cancelled)
    case Wake => s.token && (s.loop.ParkedEmpty? || s.loop.ParkedUntil?)
    case TimerFires => s.loop.ParkedUntil? && s.loop.deadline <= s.now
    case SeeCancel => s.cancelled && (s.loop.ParkedEmpty? || s.loop.ParkedUntil?)
    case Cancel => true
    case Tick(d) => true
    case Requeue(r, p, interval, priority) => r in s.running && p !in s.pending && interval > 0
    case Finish(r) => r in s.running
  }

  ghost function Push<R, P>(s: System<R, P>, p: P, r: R, key: Key): System<R, P> {
    s.(queue := s.queue[r := key], pending := s.pending + {p}, pushed := s.pushed + multiset{r})
  }

  ghost function Next<R, P>(s: System<R, P>, a: Action<R, P>): System<R, P>
    requires Enabled(s, a)
  {
    match a
    case Schedule(p, r, key) => Push(s, p, r, key)
    case Trigger(p) => s.(pending := s.pending - {p}, token := true)
    case Iterate(r) =>
      (match Decide(s.queue, r, s.now, s.cancelled)
       case Stop => s.(loop := Stopped)
       case ParkEmpty => s.(loop := ParkedEmpty)
       case ParkUntil(d) => s.(loop := ParkedUntil(d))
       case Dispatch(t) => s.(queue := s.queue - {t}, running := s.running + {t},
                              dispatched := s.dispatched + multiset{t}))
    case Wake => s.(token := false, loop := Top)
    case TimerFires => s.(loop := Top)
    case SeeCancel => s.(loop := Stopped)
    case Cancel => s.(cancelled := true)
    case Tick(d) => s.(now := s.now + d)
    case Requeue(r, p, interval, priority) =>
      Push(s.(running := s.running - {r}), p, r, Key(s.now + interval, priority))
    case Finish(r) => s.(running := s.running - {r})
  }

  /** A parked loop that should look at the queue again will be woken. */
  ghost predicate NoLostWakeup<R, P>(s: System<R, P>) {
    && (s.loop.ParkedEmpty? && s.queue != map[] ==> s.token || s.pending != {})
    && (s.loop.ParkedUntil? && (exists r :: r in s.queue && s.queue[r].nextRun < s.loop.deadline)
        ==> s.token || s.pending != {})
  }

  /** The timer runs to the due time of a queued task. */
  ghost predicate TimerIsForATask<R, P>(s: System<R, P>) {
    s.loop.ParkedUntil? ==> exists r :: r in s.queue && s.queue[r].nextRun == s.loop.deadline
  }

  ghost predicate TasksAreConserved<R, P>(s: System<R, P>) {
    && s.queue.Keys !! s.running
    && s.pushed == s.dispatched + multiset(s.queue.Keys)
  }

  ghost predicate Inv<R, P>(s: System<R, P>) {
    NoLostWakeup(s) && TimerIsForATask(s) && TasksAreConserved(s)
  }

  lemma StepKeepsWakeups<R, P>(s: System<R, P>, a: Action<R, P>)
    requires NoLostWakeup(s) && Enabled(s, a)
    ensures NoLostWakeup(Next(s, a))
  {
  }

  lemma PushKeepsTasks<R, P>(s: System<R, P>, p: P, r: R, key: Key)
    requires TasksAreConserved(s) && r !in s.queue && r !in s.running
    ensures TasksAreConserved(Push(s, p, r, key))
  {
  }

  lemma IterateKeepsTasks<R, P>(s: System<R, P>, r: R)
    requires TasksAreConserved(s) && Enabled(s, Action<R, P>.Iterate(r))
    ensures TasksAreConserved(Next(s, Action<R, P>.Iterate(r)))
  {
  }

  lemma StepKeepsTasks<R, P>(s: System<R, P>, a: Action<R, P>)
    requires TasksAreConserved(s) && Enabled(s, a)
    ensures TasksAreConserved(Next(s, a))
  {
    match a
    case Iterate(r) => IterateKeepsTasks(s, r);
    case Schedule(p, r, key) => PushKeepsTasks(s, p, r, key);
    case Requeue(r, p, interval, priority) =>
      PushKeepsTasks(s.(running := s.running - {r}), p, r, Key(s.now + interval, priority));
    case _ =>
  }

  lemma StepKeepsTimer<R, P>(s: System<R, P>, a: Action<R, P>)
    requires TimerIsForATask(s) && TasksAreConserved(s) && Enabled(s, a)
    ensures TimerIsForATask(Next(s, a))
  {
    var s' := Next(s, a);
    if s'.loop.ParkedUntil? {
      if s.loop == s'.loop {
        var r :| r in s.queue && s.queue[r].nextRun == s.loop.deadline;
        assert r in s'.queue && s'.queue[r].nextRun == s'.loop.deadline;
      } else {
        assert a.Iterate? && a.r in s'.queue;
      }
    }
  }

  lemma StepKeepsInv<R, P>(s: System<R, P>, a: Action<R, P>)
    requires Inv(s) && Enabled(s, a)
    ensures Inv(Next(s, a))
  {
    StepKeepsWakeups(s, a);
    StepKeepsTasks(s, a);
    StepKeepsTimer(s, a);
  }

  ghost predicate IsRun<R, P>(actions: seq<Action<R, P>>, states: seq<System<R, P>>) {
    && |states| == |actions| + 1
    && (forall i | 0 <= i < |actions| :: Enabled(states[i], actions[i]) && states[i + 1] == Next(states[i], actions[i]))
  }

  /** A new scheduler; its loop may start at once or later. */
  ghost predicate Initial<R, P>(s: System<R, P>) {
    exists now :: s == System(map[], {}, false, {}, Top, now, false, multiset{}, multiset{})
  }

  lemma {:induction false} RunKeepsInv<R, P>(actions: seq<Action<R, P>>, states: seq<System<R, P>>, i: nat)
    requires IsRun(actions, states) && Inv(states[0]) && i < |states|
    ensures Inv(states[i])
  {
    if i > 0 {
      RunKeepsInv(actions, states, i - 1);
      StepKeepsInv(states[i - 1], actions[i - 1]);
    }
  }

  /** No run of the scheduler loses a wake-up, and no pushed task is lost or dispatched twice. */
  lemma NoRunLosesAWakeup<R, P>(actions: seq<Action<R, P>>, states: seq<System<R, P>>, i: nat)
    requires IsRun(actions, states) && Initial(states[0]) && i < |states|
    ensures NoLostWakeup(states[i])
    ensures states[i].pushed == states[i].dispatched + multiset(states[i].queue.Keys)
  {
    RunKeepsInv(actions, states, i);
  }

  /** In every run a step dispatches at most one task, never after the cancellation; that task is queued and due,
      is due first, and among those due at the same time has the highest priority. */
  lemma DispatchIsFirstDue<R, P>(actions: seq<Action<R, P>>, states: seq<System<R, P>>, i: nat)
    requires IsRun(actions, states) && i < |actions| && states[i + 1].dispatched != states[i].dispatched
    ensures actions[i].Iterate? && !states[i].cancelled
    ensures var s, r := states[i], actions[i].r;
            && r in s.queue && s.queue[r].nextRun <= s.now
            && states[i + 1].dispatched == s.dispatched + multiset{r} && states[i + 1].queue == s.queue - {r}
            && (forall q | q in s.queue :: s.queue[r].nextRun < s.queue[q].nextRun
                  || (s.queue[r].nextRun == s.queue[q].nextRun && s.queue[r].priority >= s.queue[q].priority))
  {
    assert Enabled(states[i], actions[i]) && states[i + 1] == Next(states[i], actions[i]);
  }

  lemma StepKeepsQueued<R, P>(s: System<R, P>, a: Action<R, P>, r: R)
    requires Inv(s) && Enabled(s, a) && r in s.queue
    ensures var s' := Next(s, a);
            s.now <= s'.now && (if s'.dispatched[r] == s.dispatched[r] then r in s'.queue && s'.queue[r] == s.queue[r]
                                else s'.dispatched[r] == s.dispatched[r] + 1 && s.queue[r].nextRun <= s.now)
  {
  }

  /** In every run a task that is queued stays so with its time and priority until it is dispatched. */
  lemma {:induction false} StaysQueued<R, P>(
    actions: seq<Action<R, P>>, states: seq<System<R, P>>, i: nat, j: nat, r: R)
    requires IsRun(actions, states) && Inv(states[0]) && i <= j < |states| && r in states[i].queue
    requires states[j].dispatched[r] == states[i].dispatched[r]
    ensures r in states[j].queue && states[j].queue[r] == states[i].queue[r] && states[i].now <= states[j].now
    decreases j
  {
    if i < j {
      var last := j - 1;
      assert Enabled(states[last], actions[last]) && states[j] == Next(states[last], actions[last]);
      RunKeepsInv(actions, states, last);
      DispatchedGrows(actions, states, i, last, r);
      DispatchedStep(states[last], actions[last], r);
      StaysQueued(actions, states, i, last, r);
      StepKeepsQueued(states[last], actions[last], r);
    }
  }

  lemma DispatchedStep<R, P>(s: System<R, P>, a: Action<R, P>, r: R)
    requires Enabled(s, a)
    ensures s.dispatched[r] <= Next(s, a).dispatched[r]
  {
  }

  lemma {:induction false} DispatchedGrows<R, P>(
    actions: seq<Action<R, P>>, states: seq<System<R, P>>, i: nat, j: nat, r: R)
    requires IsRun(actions, states) && i <= j < |states|
    ensures states[i].dispatched[r] <= states[j].dispatched[r]
    decreases j
  {
    if i < j {
      DispatchedGrows(actions, states, i, j - 1, r);
      assert Enabled(states[j - 1], actions[j - 1]) && states[j] == Next(states[j - 1], actions[j - 1]);
      DispatchedStep(states[j - 1], actions[j - 1], r);
    }
  }

  /** In every run a periodic task is not dispatched again before its interval has passed since the end of its last
      run. */
  lemma PeriodicRunsApart<R, P>(actions: seq<Action<R, P>>, states: seq<System<R, P>>, i: nat, j: nat)
    requires IsRun(actions, states) && Inv(states[0]) && i < j < |actions| && actions[i].Requeue?
    requires states[j].dispatched[actions[i].r] == states[i].dispatched[actions[i].r]
    requires states[j + 1].dispatched[actions[i].r] != states[j].dispatched[actions[i].r]
    ensures states[j].now >= states[i].now + actions[i].interval
  {
    var r := actions[i].r;
    assert Enabled(states[i], actions[i]) && states[i + 1] == Next(states[i], actions[i]);
    assert Enabled(states[j], actions[j]) && states[j + 1] == Next(states[j], actions[j]);
    StaysQueued(actions, states, i + 1, j, r);
    RunKeepsInv(actions, states, j);
    StepKeepsQueued(states[j], actions[j], r);
  }

  // ---- Every due task is dispatched: the scheduler's own steps run out only when none is due ----

  /** The steps the scheduler takes by itself: no new push, no clock tick, no cancellation. */
  predicate Internal<R, P>(a: Action<R, P>) {
    a.Trigger? || a.Iterate? || a.Wake? || a.TimerFires?
  }

  ghost predicate Due<R, P>(s: System<R, P>, r: R) {
    r in s.queue && s.queue[r].nextRun <= s.now
  }

  lemma {:induction false} MinimumExists<R>(queue: map<R, Key>) returns (r: R)
    requires queue != map[]
    ensures IsMinimum(queue, r)
    decreases |queue|
  {
    var q :| q in queue;
    var rest := queue - {q};
    if rest == map[] {
      forall t | t in queue ensures t == q {
        assert t != q ==> t in rest;
      }
      r := q;
    } else {
      var m := MinimumExists(rest);
      r := if Less(queue[q], queue[m]) then q else m;
      assert forall t | t in queue :: t == q || t in rest;
    }
  }

  /** The loop has not been told to stop. */
  predicate Live<R, P>(s: System<R, P>) {
    !s.cancelled && !s.loop.Stopped?
  }

  /** While a task is due and the context lives, the scheduler has a step to take. */
  lemma DueMeansStep<R, P>(s: System<R, P>, r: R) returns (a: Action<R, P>)
    requires Inv(s) && Due(s, r) && Live(s)
    ensures Internal(a) && Enabled(s, a)
  {
    if s.pending != {} {
      var p :| p in s.pending;
      a := Trigger(p);
    } else if s.loop == Top {
      var m := MinimumExists(s.queue);
      a := Iterate(m);
    } else if s.token {
      a := Wake;
    } else {
      assert s.loop.ParkedUntil? && s.loop.deadline <= s.queue[r].nextRun;
      a := TimerFires;
    }
  }

  /** Work left for the scheduler until the next push, tick or cancellation. */
  function Work<R, P>(s: System<R, P>): nat {
    4 * |s.queue| + 3 * |s.pending| + (if s.token then 2 else 0) +
    match s.loop
    case Top => 1
    case ParkedUntil(d) => if d <= s.now then 2 else 0
    case _ => 0
  }

  lemma IterateShrinksWork<R, P>(s: System<R, P>, r: R)
    requires Enabled(s, Action<R, P>.Iterate(r))
    ensures Work(Next(s, Iterate(r))) < Work(s) && Live(Next(s, Iterate(r))) == Live(s)
  {
    var s' := Next(s, Iterate(r));
    if Decide(s.queue, r, s.now, s.cancelled).Dispatch? {
      assert s'.queue.Keys == s.queue.Keys - {r};
      assert |s'.queue| == |s'.queue.Keys| == |s.queue.Keys| - 1 == |s.queue| - 1;
    }
  }

  lemma InternalStepShrinksWork<R, P>(s: System<R, P>, a: Action<R, P>)
    requires Inv(s) && Enabled(s, a) && Internal(a)
    ensures Work(Next(s, a)) < Work(s) && Live(Next(s, a)) == Live(s)
  {
    if a.Trigger? {
      assert s.pending == Next(s, a).pending + {a.p};
    } else if a.Iterate? {
      IterateShrinksWork(s, a.r);
    }
  }

  lemma {:induction false} InternalRunShrinksWork<R, P>(actions: seq<Action<R, P>>, states: seq<System<R, P>>, i: nat)
    requires IsRun(actions, states) && Inv(states[0]) && i < |states|
    requires forall j | 0 <= j < |actions| :: Internal(actions[j])
    ensures Work(states[i]) + i <= Work(states[0]) && Live(states[i]) == Live(states[0])
  {
    if i > 0 {
      var last := i - 1;
      InternalRunShrinksWork(actions, states, last);
      RunKeepsInv(actions, states, last);
      assert Enabled(states[last], actions[last]) && Internal(actions[last]);
      InternalStepShrinksWork(states[last], actions[last]);
      assert states[i] == Next(states[last], actions[last]);
    }
  }

  /** With no further pushes, ticks or cancellation, every schedule of the scheduler's own steps is
      shorter than a bound fixed at its start, and where it can go no further no queued task is due. */
  lemma DueTasksAreDispatched<R, P>(actions: seq<Action<R, P>>, states: seq<System<R, P>>)
    requires IsRun(actions, states) && Inv(states[0])
    requires Live(states[0])
    requires forall j | 0 <= j < |actions| :: Internal(actions[j])
    ensures |actions| <= Work(states[0])
    ensures (forall a: Action<R, P> | Internal(a) :: !Enabled(states[|actions|], a))
            ==> forall r :: !Due(states[|actions|], r)
  {
    var n := |actions|;
    InternalRunShrinksWork(actions, states, n);
    RunKeepsInv(actions, states, n);
    if forall a: Action<R, P> | Internal(a) :: !Enabled(states[n], a) {
      forall r ensures !Due(states[n], r) {
        if Due(states[n], r) {
          var a := DueMeansStep(states[n], r);
        }
      }
    }
  }

  // ---- The object ----

  class TaskScheduler {
    const heap: Heap
    var wake: bool   // the token in the wake channel
    var taskPool: set<Task>

    ghost predicate Valid()
      reads this, heap, heap.items
    {
      heap.Valid()
    }

    ghost function Queue(): map<Task, Key>
      reads this, heap, heap.items
    {
      map t | t in heap.items :: t.Rank()
    }

    constructor ()
      ensures Valid() && fresh(heap) && Queue() == map[] && !wake && taskPool == {}
    {
      heap := new Heap();
      wake, taskPool := false, {};
    }

    ghost function Pooled(): Pool<Task>
      reads this, taskPool
    {
      map t | t in taskPool :: t.Values()
    }

    /** The pool hands out a released task, as it was left, or a new one. */
    method AcquireTask() returns (t: Task)
      modifies this`taskPool
      ensures t in old(taskPool) || fresh(t)
      ensures t.Values() == HandedOut(old(Pooled()), t) && Pooled() == old(Pooled()) - {t}
      ensures fresh(t) ==> t.Values() == BLANK
      ensures (forall u | u in old(taskPool) :: u.Values() == BLANK) ==> t.Values() == BLANK
    {
      var reuse: bool := *;   // the pool may have dropped what it held
      if reuse && taskPool != {} {
        t :| t in taskPool;
        taskPool := taskPool - {t};
      } else {
        t := new Task();
      }
    }

    /** The section of Schedule. */
    method ScheduleSection(t: Task)
      requires Valid() && t !in heap.items
      modifies heap, heap.owned`index, t`index
      ensures Valid() && Queue() == old(Queue())[t := t.Rank()]
    {
      ghost var before := heap.items;
      heap.Push(t);
      SameObjects(heap.items, before + [t]);
    }

    /** A send on the one-slot channel that gives up when the slot is full. */
    method TriggerWake()
      modifies this`wake
      ensures wake
    {
      if !wake {
        wake := true;
      }
    }

    /** The loop's critical section: stop, park, or take the task to dispatch. */
    method LoopSection(now: int, cancelled: bool) returns (d: Decision<Task>, ghost root: Task?)
      requires Valid()
      modifies heap, heap.owned`index
      ensures Valid()
      ensures root == null ==> (old(Queue()) == map[] || cancelled) && d == if cancelled then Stop else ParkEmpty
      ensures root != null ==>
                var r: Task := root;
                CanDecide(old(Queue()), r, cancelled) && d == Decide(old(Queue()), r, now, cancelled)
      ensures Queue() == if d.Dispatch? then old(Queue()) - {d.r} else old(Queue())
      ensures d.Stop? <==> cancelled
      ensures d.Dispatch? ==>
                && d.r in old(heap.items) && d.r.nextRun <= now
                && forall u | u in old(heap.items) ::
                     d.r.nextRun < u.nextRun || (d.r.nextRun == u.nextRun && d.r.priority >= u.priority)
      ensures d.ParkUntil? ==> now < d.deadline && forall u | u in heap.items :: d.deadline <= u.nextRun
      ensures d.ParkEmpty? ==> heap.items == []
    {
      root := null;
      if cancelled {
        return Stop, null;
      }
      if |heap.items| == 0 {
        return ParkEmpty, null;
      }
      heap.RootPrecedesNone();
      root := heap.items[0];
      assert IsMinimum(Queue(), root);
      if now < heap.items[0].nextRun {
        return ParkUntil(heap.items[0].nextRun), root;
      }
      var t := TakeRoot();
      d := Dispatch(t);
    }

    /** Removes the root of the queue: a task due first, and of these one with the highest priority. */
    method TakeRoot() returns (t: Task)
      requires Valid() && heap.items != []
      modifies heap, heap.owned`index
      ensures Valid() && t == old(heap.items[0]) && Queue() == old(Queue()) - {t}
      ensures forall u | u in old(heap.items) ::
                t.nextRun < u.nextRun || (t.nextRun == u.nextRun && t.priority >= u.priority)
    {
      ghost var before, queue := heap.items, Queue();
      t := heap.Pop();
      SameObjects(before, heap.items + [t]);
      assert forall u :: u in heap.items <==> u in before && u != t;
      assert Queue().Keys == (queue - {t}).Keys;
      assert forall u | u in heap.items :: u.Rank() == queue[u];
    }

    /** The section of runTask that puts a periodic task back. */
    method RequeueSection(t: Task, now: int)
      requires Valid() && t !in heap.items && t.interval > 0
      modifies heap, heap.owned`index, t`index, t`nextRun
      ensures Valid() && t.nextRun == now + t.interval
      ensures Queue() == old(Queue())[t := Key(now + t.interval, t.priority)]
    {
      t.nextRun := now + t.interval;
      ScheduleSection(t);
    }

    /** Puts a one-off task back into the pool. */
    method ReleaseTask(t: Task)
      requires Valid() && t !in heap.items
      modifies t, this`taskPool
      ensures Valid() && Queue() == old(Queue()) && Pooled() == Put(old(Pooled()), t, old(t.Values()))
      ensures t.Values() == BLANK <==> old(t.priority) == 0 && old(t.nextRun) == 0
      ensures t.id == "" && !t.executable && t.interval == 0 && t.index == -1
      ensures t.priority == old(t.priority) && t.nextRun == old(t.nextRun)
    {
      assert forall u | u in heap.items :: u != t;
      ghost var before := Pooled();
      ClearTask(t);
      taskPool := taskPool + {t};
      assert Pooled() == before[t := t.Values()];
    }

    static method ClearTask(t: Task)
      modifies t
      ensures t.Values() == Reset(old(t.Values())) && t.index == -1
    {
      t.id := "";
      t.executable := false;
      t.interval := 0;
      t.index := -1;
    }
  }
}
