/** The auto-scaling worker pool: workers, submitters and the closer over one task channel. Receives and
    timers run beside the mutex, so a submission is three steps under it. */
module Pool {
  import opened Counting

  datatype Config = Config(minWorkers: int, maxWorkers: int, queueLimit: int)

  function ResolveDefaults(c: Config): Config {
    var lo := if c.minWorkers <= 0 then 1 else c.minWorkers;
    Config(lo, if c.maxWorkers < lo then lo else c.maxWorkers, if c.queueLimit <= 0 then 100 else c.queueLimit)
  }

  /** A task is known by its future. */
  type Future = nat

  datatype Worker =
    | Selecting          // at the select
    | TimedOut           // the idle timer fired, the mutex section is still to come
    | Got(f: Future)     // received, not yet counted busy
    | Running(f: Future)
    | Finished           // the future is complete, still counted busy
    | SawClosed          // the channel is closed and empty, the mutex section is still to come
    | Exited

  /** Who holds the mutex between two steps: nobody, or a submission. */
  datatype Submission = Nobody | Checked(f: Future) | Sent

  datatype Closing = NotClosed | Waiting | Returned

  datatype System = System(
    tasks: seq<Future>,
    workers: seq<Worker>,
    currentWorkers: int,
    busyWorkers: int,
    closed: bool,
    submission: Submission,
    closing: Closing,             // the call of Close that closed the channel
    accepted: multiset<Future>,
    completed: multiset<Future>)

  datatype Action =
    | SubmitCheck(f: Future) | SubmitSend | SubmitSpawn
    | Receive(w: nat) | TimerFires(w: nat) | SeeClosed(w: nat)
    | CountBusy(w: nat) | Complete(w: nat) | CountIdle(w: nat)
    | IdleSection(w: nat) | ClosedSection(w: nat)
    | CloseSection | CloseReturns
    | CloseAgain         // a later call of Close, from its start to its return

  datatype Verdict = Accept | PoolClosed | QueueFull

  function Admission(c: Config, s: System): Verdict {
    if s.closed then PoolClosed else if |s.tasks| >= c.queueLimit then QueueFull else Accept
  }

  predicate Enabled(c: Config, s: System, a: Action) {
    match a
    case SubmitCheck(f) => s.submission == Nobody && Admission(c, s) == Accept && f !in s.accepted
    // a send on a closed channel panics, a send on a full one blocks
    case SubmitSend => s.submission.Checked? && !s.closed && |s.tasks| < c.queueLimit
    case SubmitSpawn => s.submission.Sent?
    case Receive(w) => w < |s.workers| && s.workers[w].Selecting? && s.tasks != []
    case TimerFires(w) => w < |s.workers| && s.workers[w].Selecting?
    case SeeClosed(w) => w < |s.workers| && s.workers[w].Selecting? && s.closed && s.tasks == []
    case CountBusy(w) => w < |s.workers| && s.workers[w].Got? && s.submission == Nobody
    case Complete(w) => w < |s.workers| && s.workers[w].Running?
    case CountIdle(w) => w < |s.workers| && s.workers[w].Finished? && s.submission == Nobody
    case IdleSection(w) => w < |s.workers| && s.workers[w].TimedOut? && s.submission == Nobody
    case ClosedSection(w) => w < |s.workers| && s.workers[w].SawClosed? && s.submission == Nobody
    case CloseSection => s.submission == Nobody && !s.closed
    case CloseAgain => s.submission == Nobody && s.closed
    case CloseReturns => s.closing == Waiting && forall w | 0 <= w < |s.workers| :: s.workers[w].Exited?
  }

  function Move(s: System, w: nat, to: Worker): System
    requires w < |s.workers|
  {
    s.(workers := s.workers[w := to])
  }

  function Spawned(s: System): System {
    s.(workers := s.workers + [Selecting], currentWorkers := s.currentWorkers + 1)
  }

  predicate ShouldSpawn(c: Config, s: System) {
    s.currentWorkers < c.maxWorkers && (s.busyWorkers == s.currentWorkers || |s.tasks| > 0)
  }

  function Next(c: Config, s: System, a: Action): System
    requires Enabled(c, s, a)
  {
    match a
    case SubmitCheck(f) => s.(submission := Checked(f))
    case SubmitSend =>
      s.(tasks := s.tasks + [s.submission.f], accepted := s.accepted + multiset{s.submission.f}, submission := Sent)
    case SubmitSpawn => (if ShouldSpawn(c, s) then Spawned(s) else s).(submission := Nobody)
    case Receive(w) => Move(s, w, Got(s.tasks[0])).(tasks := s.tasks[1..])
    case TimerFires(w) => Move(s, w, TimedOut)
    case SeeClosed(w) => Move(s, w, SawClosed)
    case CountBusy(w) => Move(s, w, Running(s.workers[w].f)).(busyWorkers := s.busyWorkers + 1)
    case Complete(w) => Move(s, w, Finished).(completed := s.completed + multiset{s.workers[w].f})
    case CountIdle(w) => Move(s, w, Selecting).(busyWorkers := s.busyWorkers - 1)
    case IdleSection(w) =>
      if s.currentWorkers > c.minWorkers then Move(s, w, Exited).(currentWorkers := s.currentWorkers - 1)
      else Move(s, w, Selecting)
    case ClosedSection(w) => Move(s, w, Exited).(currentWorkers := s.currentWorkers - 1)
    case CloseSection => s.(closed := true, closing := Waiting)
    case CloseReturns => s.(closing := Returned)
    case CloseAgain => s
  }

  // ---- The invariant ----

  predicate Live(k: Worker) {
    !k.Exited?
  }

  predicate Busy(k: Worker) {
    k.Running? || k.Finished?
  }

  predicate LeavingAtClose(k: Worker) {
    k.SawClosed?
  }

  ghost predicate Carries(k: Worker, f: Future) {
    (k.Got? || k.Running?) && k.f == f
  }

  ghost function Carrying(f: Future): (p: Worker -> bool)
    ensures forall k :: p(k) <==> Carries(k, f)
  {
    k => Carries(k, f)
  }

  /** In how many places a future is: queued, with a worker, completed. */
  ghost function Places(s: System, f: Future): nat {
    multiset(s.tasks)[f] + Count(s.workers, Carrying(f)) + s.completed[f]
  }

  predicate Drained(s: System) {
    s.closed && s.tasks == []
  }

  ghost predicate Counted(c: Config, s: System) {
    && s.currentWorkers == Count(s.workers, Live)
    && s.busyWorkers == Count(s.workers, Busy)
    && s.currentWorkers <= c.maxWorkers
    && (!Drained(s) ==> c.minWorkers <= s.currentWorkers && Count(s.workers, LeavingAtClose) == 0)
  }

  ghost predicate Admitted(c: Config, s: System) {
    && |s.tasks| <= c.queueLimit
    && (s.submission.Checked? ==> !s.closed && |s.tasks| < c.queueLimit && s.submission.f !in s.accepted)
    && (s.submission.Sent? ==> !s.closed)
    && (s.closing == NotClosed <==> !s.closed)
    && (s.closing == Returned ==> forall w | 0 <= w < |s.workers| :: s.workers[w].Exited?)
  }

  ghost predicate Conserved(s: System) {
    forall f: Future :: Places(s, f) == s.accepted[f] <= 1
  }

  predicate Sane(c: Config) {
    1 <= c.minWorkers <= c.maxWorkers && c.queueLimit >= 1
  }

  ghost predicate Inv(c: Config, s: System) {
    Sane(c) && Counted(c, s) && Admitted(c, s) && Conserved(s)
  }

  lemma CountsAfterMove(workers: seq<Worker>, w: nat, to: Worker)
    requires w < |workers|
    ensures Count(workers[w := to], Live) + (if Live(workers[w]) then 1 else 0) == Count(workers, Live) + if Live(to) then 1 else 0
    ensures Count(workers[w := to], Busy) + (if Busy(workers[w]) then 1 else 0) == Count(workers, Busy) + if Busy(to) then 1 else 0
    ensures Count(workers[w := to], LeavingAtClose) + (if LeavingAtClose(workers[w]) then 1 else 0)
            == Count(workers, LeavingAtClose) + if LeavingAtClose(to) then 1 else 0
  {
    CountUpdate(workers, w, to, Live);
    CountUpdate(workers, w, to, Busy);
    CountUpdate(workers, w, to, LeavingAtClose);
  }

  lemma SpawnKeepsCounted(c: Config, s: System)
    requires Counted(c, s) && s.submission.Sent?
    ensures Counted(c, Next(c, s, SubmitSpawn))
  {
    CountAppend(s.workers, Selecting, Live);
    CountAppend(s.workers, Selecting, Busy);
    CountAppend(s.workers, Selecting, LeavingAtClose);
  }

  /** Steps beside the mutex change no counter and no worker's standing. */
  lemma FreeStepKeepsCounted(c: Config, s: System, a: Action)
    requires Sane(c) && Counted(c, s) && Enabled(c, s, a)
    requires a.Receive? || a.TimerFires? || a.SeeClosed? || a.Complete?
    ensures Counted(c, Next(c, s, a))
  {
    CountsAfterMove(s.workers, a.w, Next(c, s, a).workers[a.w]);
  }

  lemma LockedStepKeepsCounted(c: Config, s: System, a: Action)
    requires Sane(c) && Counted(c, s) && Enabled(c, s, a)
    requires a.CountBusy? || a.CountIdle? || a.IdleSection? || a.ClosedSection?
    ensures Counted(c, Next(c, s, a))
  {
    CountsAfterMove(s.workers, a.w, Next(c, s, a).workers[a.w]);
    if a.ClosedSection? {
      CountSome(s.workers, LeavingAtClose);
    }
  }

  lemma StepKeepsCounted(c: Config, s: System, a: Action)
    requires Sane(c) && Counted(c, s) && Admitted(c, s) && Enabled(c, s, a)
    ensures Counted(c, Next(c, s, a))
  {
    if a.SubmitSpawn? {
      SpawnKeepsCounted(c, s);
    } else if a.Receive? || a.TimerFires? || a.SeeClosed? || a.Complete? {
      FreeStepKeepsCounted(c, s, a);
    } else if a.CountBusy? || a.CountIdle? || a.IdleSection? || a.ClosedSection? {
      LockedStepKeepsCounted(c, s, a);
    }
  }

  lemma StepKeepsAdmitted(c: Config, s: System, a: Action)
    requires Sane(c) && Admitted(c, s) && Enabled(c, s, a)
    ensures Admitted(c, Next(c, s, a))
  {
  }

  lemma SendAddsFuture(c: Config, s: System, f: Future)
    requires Enabled(c, s, SubmitSend)
    ensures Places(Next(c, s, SubmitSend), f) + s.accepted[f] == Places(s, f) + Next(c, s, SubmitSend).accepted[f]
  {
  }

  lemma ReceiveMovesFutures(c: Config, s: System, w: nat, f: Future)
    requires Enabled(c, s, Receive(w))
    ensures Places(Next(c, s, Receive(w)), f) == Places(s, f)
  {
    CountUpdate(s.workers, w, Got(s.tasks[0]), Carrying(f));
    assert s.tasks == [s.tasks[0]] + s.tasks[1..];
  }

  lemma CompleteMovesFutures(c: Config, s: System, w: nat, f: Future)
    requires Enabled(c, s, Complete(w))
    ensures Places(Next(c, s, Complete(w)), f) == Places(s, f)
  {
    CountUpdate(s.workers, w, Finished, Carrying(f));
  }

  lemma CountingKeepsFutures(c: Config, s: System, a: Action, f: Future)
    requires Enabled(c, s, a) && (a.CountBusy? || a.CountIdle?)
    ensures Places(Next(c, s, a), f) == Places(s, f)
  {
    CountUpdate(s.workers, a.w, Next(c, s, a).workers[a.w], Carrying(f));
  }

  lemma LeavingKeepsFutures(c: Config, s: System, a: Action, f: Future)
    requires Enabled(c, s, a) && (a.TimerFires? || a.SeeClosed? || a.IdleSection? || a.ClosedSection?)
    ensures Places(Next(c, s, a), f) == Places(s, f)
  {
    CountUpdate(s.workers, a.w, Next(c, s, a).workers[a.w], Carrying(f));
  }

  lemma OthersKeepFutures(c: Config, s: System, a: Action, f: Future)
    requires Enabled(c, s, a)
    requires a.SubmitCheck? || a.SubmitSpawn? || a.CloseSection? || a.CloseReturns? || a.CloseAgain?
    ensures Places(Next(c, s, a), f) == Places(s, f)
  {
    CountAppend(s.workers, Selecting, Carrying(f));
  }

  lemma AcceptedGrowsAtSend(c: Config, s: System, a: Action)
    requires Enabled(c, s, a) && !a.SubmitSend?
    ensures Next(c, s, a).accepted == s.accepted
  {
  }

  /** A step moves futures between places; only a submission adds one. */
  lemma StepMovesFutures(c: Config, s: System, a: Action, f: Future)
    requires Enabled(c, s, a)
    ensures Places(Next(c, s, a), f) + s.accepted[f] == Places(s, f) + Next(c, s, a).accepted[f]
  {
    if a.SubmitSend? {
      SendAddsFuture(c, s, f);
    } else {
      AcceptedGrowsAtSend(c, s, a);
      if a.Receive? {
        ReceiveMovesFutures(c, s, a.w, f);
      } else if a.Complete? {
        CompleteMovesFutures(c, s, a.w, f);
      } else if a.SubmitCheck? || a.SubmitSpawn? || a.CloseSection? || a.CloseReturns? || a.CloseAgain? {
        OthersKeepFutures(c, s, a, f);
      } else if a.CountBusy? || a.CountIdle? {
        CountingKeepsFutures(c, s, a, f);
      } else {
        LeavingKeepsFutures(c, s, a, f);
      }
    }
  }

  lemma StepKeepsPlaces(c: Config, s: System, a: Action, f: Future)
    requires Inv(c, s) && Enabled(c, s, a)
    ensures Places(Next(c, s, a), f) == Next(c, s, a).accepted[f] <= 1
  {
    StepMovesFutures(c, s, a, f);
    assert Places(s, f) == s.accepted[f];
  }

  lemma StepKeepsInv(c: Config, s: System, a: Action)
    requires Inv(c, s) && Enabled(c, s, a)
    ensures Inv(c, Next(c, s, a))
  {
    StepKeepsCounted(c, s, a);
    StepKeepsAdmitted(c, s, a);
    var s' := Next(c, s, a);
    forall f: Future ensures Places(s', f) == s'.accepted[f] <= 1 {
      StepKeepsPlaces(c, s, a, f);
    }
  }

  // ---- Runs ----

  function Start(c: Config): System {
    var n := if c.minWorkers > 0 then c.minWorkers else 0;
    System([], seq(n, _ => Selecting), n, 0, false, Nobody, NotClosed, multiset{}, multiset{})
  }

  lemma {:induction false} CountAll<T>(xs: seq<T>, x: T, p: T -> bool)
    requires forall i | 0 <= i < |xs| :: xs[i] == x
    ensures Count(xs, p) == if p(x) then |xs| else 0
  {
    if xs != [] {
      CountAll(xs[..|xs| - 1], x, p);
    }
  }

  lemma StartSatisfiesInv(c: Config)
    requires Sane(c)
    ensures Inv(c, Start(c))
  {
    var s := Start(c);
    CountAll(s.workers, Selecting, Live);
    CountAll(s.workers, Selecting, Busy);
    CountAll(s.workers, Selecting, LeavingAtClose);
    forall f: Future ensures Places(s, f) == 0 {
      CountAll(s.workers, Selecting, Carrying(f));
    }
  }

  ghost predicate IsRun(c: Config, actions: seq<Action>, states: seq<System>) {
    && |states| == |actions| + 1
    && states[0] == Start(c)
    && (forall i | 0 <= i < |actions| :: Enabled(c, states[i], actions[i]) && states[i + 1] == Next(c, states[i], actions[i]))
  }

  lemma {:induction false} RunKeepsInv(c: Config, actions: seq<Action>, states: seq<System>, i: nat)
    requires IsRun(c, actions, states) && Sane(c) && i < |states|
    ensures Inv(c, states[i])
  {
    if i == 0 {
      StartSatisfiesInv(c);
    } else {
      RunKeepsInv(c, actions, states, i - 1);
      StepKeepsInv(c, states[i - 1], actions[i - 1]);
    }
  }

  lemma QueueHasWorker(c: Config, s: System)
    requires Inv(c, s) && s.tasks != []
    ensures exists w :: 0 <= w < |s.workers| && Live(s.workers[w]) && !s.workers[w].SawClosed?
  {
    CountSome(s.workers, Live);
    CountSome(s.workers, LeavingAtClose);
    var w :| 0 <= w < |s.workers| && Live(s.workers[w]);
    assert !LeavingAtClose(s.workers[w]);
  }

  /** In every run: an open pool keeps between its two bounds of workers, all of them alive; a queued task,
      even after the close, has a live worker that is not leaving; and a checked submission can always send. */
  lemma PoolStaysSound(cfg: Config, actions: seq<Action>, states: seq<System>, i: nat)
    requires IsRun(ResolveDefaults(cfg), actions, states) && i < |states|
    ensures var c, s := ResolveDefaults(cfg), states[i];
            && s.currentWorkers == Count(s.workers, Live) <= c.maxWorkers
            && (!s.closed ==> c.minWorkers <= s.currentWorkers)
            && s.busyWorkers == Count(s.workers, Busy)
            && (s.tasks != [] ==> exists w :: 0 <= w < |s.workers| && Live(s.workers[w]) && !s.workers[w].SawClosed?)
            && (s.submission.Checked? ==> Enabled(c, s, SubmitSend))
  {
    RunKeepsInv(ResolveDefaults(cfg), actions, states, i);
    if states[i].tasks != [] {
      QueueHasWorker(ResolveDefaults(cfg), states[i]);
    }
  }

  /** In every run: no accepted future completes twice, and when the closing call returns the queue is
      empty and every accepted future has completed, exactly once. */
  lemma EveryFutureCompletes(cfg: Config, actions: seq<Action>, states: seq<System>, i: nat, f: Future)
    requires IsRun(ResolveDefaults(cfg), actions, states) && i < |states|
    ensures states[i].completed[f] <= states[i].accepted[f] <= 1
    ensures states[i].closing == Returned ==>
              states[i].tasks == [] && states[i].completed[f] == states[i].accepted[f]
  {
    RunKeepsInv(ResolveDefaults(cfg), actions, states, i);
    var s := states[i];
    assert Places(s, f) == s.accepted[f];
    if s.closing == Returned {
      if s.tasks != [] {
        QueueHasWorker(ResolveDefaults(cfg), s);
      }
      CountSome(s.workers, Carrying(f));
    }
  }

  // ---- Tasks are taken in the order in which they were accepted ----

  /** The future that a step submits. */
  function Submits(s: System, a: Action): seq<Future> {
    if a.SubmitSend? && s.submission.Checked? then [s.submission.f] else []
  }

  /** The future that a worker takes from the queue in a step. */
  function Takes(s': System, a: Action): seq<Future> {
    if a.Receive? && a.w < |s'.workers| && s'.workers[a.w].Got? then [s'.workers[a.w].f] else []
  }

  /** The futures submitted by the first k steps, in order. */
  function Submitted(actions: seq<Action>, states: seq<System>, k: nat): seq<Future>
    requires k <= |actions| < |states|
  {
    if k == 0 then [] else Submitted(actions, states, k - 1) + Submits(states[k - 1], actions[k - 1])
  }

  /** The futures that workers have taken in the first k steps, in order. */
  function Taken(actions: seq<Action>, states: seq<System>, k: nat): seq<Future>
    requires k <= |actions| < |states|
  {
    if k == 0 then [] else Taken(actions, states, k - 1) + Takes(states[k], actions[k - 1])
  }

  lemma StepKeepsQueueOrder(c: Config, s: System, a: Action)
    requires Enabled(c, s, a)
    ensures s.tasks + Submits(s, a) == Takes(Next(c, s, a), a) + Next(c, s, a).tasks
  {
  }

  /** In every run what was submitted is what was taken and then what is queued, in this order. */
  lemma {:induction false} TakenInOrder(cfg: Config, actions: seq<Action>, states: seq<System>, k: nat)
    requires IsRun(ResolveDefaults(cfg), actions, states) && k < |states|
    ensures Submitted(actions, states, k) == Taken(actions, states, k) + states[k].tasks
  {
    if k > 0 {
      TakenInOrder(cfg, actions, states, k - 1);
      assert Enabled(ResolveDefaults(cfg), states[k - 1], actions[k - 1]);
      assert states[k] == Next(ResolveDefaults(cfg), states[k - 1], actions[k - 1]);
      StepKeepsQueueOrder(ResolveDefaults(cfg), states[k - 1], actions[k - 1]);
      Reassociate(Taken(actions, states, k - 1), states[k - 1].tasks, Submits(states[k - 1], actions[k - 1]),
                  Takes(states[k], actions[k - 1]), states[k].tasks);
    }
  }

  lemma Reassociate(a: seq<Future>, b: seq<Future>, c: seq<Future>, d: seq<Future>, e: seq<Future>)
    requires b + c == d + e
    ensures a + b + c == a + d + e
  {
    assert a + b + c == a + (b + c);
    assert a + d + e == a + (d + e);
  }

  // ---- How the pool grows and shrinks ----

  /** Usable settings are kept: at least one worker, a maximum not below the minimum, room for a task. */
  lemma DefaultsAreUsable(c: Config)
    ensures var d := ResolveDefaults(c);
            && d.minWorkers == (if c.minWorkers > 0 then c.minWorkers else 1)
            && d.maxWorkers == (if c.maxWorkers >= d.minWorkers then c.maxWorkers else d.minWorkers)
            && d.queueLimit == (if c.queueLimit > 0 then c.queueLimit else 100)
            && ResolveDefaults(d) == d
  {
  }

  /** In every run the end of a submission adds one worker, ready to receive, exactly when the pool is below its
      maximum and either all workers are busy or a task is queued; no other step adds one. */
  lemma GrowsExactly(cfg: Config, actions: seq<Action>, states: seq<System>, i: nat)
    requires IsRun(ResolveDefaults(cfg), actions, states) && i < |actions|
    ensures var c, s, s' := ResolveDefaults(cfg), states[i], states[i + 1];
            var grows := actions[i].SubmitSpawn? && s.currentWorkers < c.maxWorkers
                         && (Count(s.workers, Busy) == Count(s.workers, Live) || s.tasks != []);
            if grows then s'.workers == s.workers + [Selecting] && s'.currentWorkers == s.currentWorkers + 1
            else |s'.workers| == |s.workers|
  {
    RunKeepsInv(ResolveDefaults(cfg), actions, states, i);
    assert states[i + 1] == Next(ResolveDefaults(cfg), states[i], actions[i]);
  }

  /** In every run a worker whose idle timer fired leaves exactly when more than the minimum are counted; workers
      leave otherwise only when they have seen the channel closed and empty. */
  lemma LeavesExactly(cfg: Config, actions: seq<Action>, states: seq<System>, i: nat, w: nat)
    requires IsRun(ResolveDefaults(cfg), actions, states) && i < |actions| && w < |states[i].workers|
    ensures w < |states[i + 1].workers|
    ensures !states[i].workers[w].Exited? && states[i + 1].workers[w].Exited? <==>
            || (actions[i] == ClosedSection(w))
            || (actions[i] == IdleSection(w) && Count(states[i].workers, Live) > ResolveDefaults(cfg).minWorkers)
    ensures states[i + 1].workers[w].SawClosed? && !states[i].workers[w].SawClosed? ==> states[i].closed && states[i].tasks == []
  {
    RunKeepsInv(ResolveDefaults(cfg), actions, states, i);
    assert Enabled(ResolveDefaults(cfg), states[i], actions[i]);
    assert states[i + 1] == Next(ResolveDefaults(cfg), states[i], actions[i]);
  }

  // ---- Closing comes to an end ----

  /** What a worker has left to do, weighed so that every step but an idle timer's makes it less. */
  function Effort(k: Worker): nat {
    match k
    case Selecting => 2
    case TimedOut => 3
    case Got(_) => 5
    case Running(_) => 4
    case Finished => 3
    case SawClosed => 1
    case Exited => 0
  }

  function Efforts(workers: seq<Worker>): nat {
    if workers == [] then 0 else Efforts(workers[..|workers| - 1]) + Effort(workers[|workers| - 1])
  }

  lemma {:induction false} EffortsUpdate(workers: seq<Worker>, w: nat, to: Worker)
    requires w < |workers|
    ensures Efforts(workers[w := to]) + Effort(workers[w]) == Efforts(workers) + Effort(to)
  {
    var n := |workers| - 1;
    if w < n {
      EffortsUpdate(workers[..n], w, to);
      assert workers[w := to][..n] == workers[..n][w := to];
    } else {
      assert workers[w := to][..n] == workers[..n];
    }
  }

  /** The work of a closed pool. */
  function Work(s: System): nat {
    4 * |s.tasks| + Efforts(s.workers) + if s.closing == Waiting then 1 else 0
  }

  /** Steps that the pool need not take: an idle timer fires, or somebody calls Close again. */
  predicate Optional(a: Action) {
    a.TimerFires? || a.CloseAgain?
  }

  lemma ClosedStepWork(c: Config, s: System, a: Action)
    requires Admitted(c, s) && s.closed && Enabled(c, s, a)
    ensures Next(c, s, a).closed
    ensures if Optional(a) then Work(Next(c, s, a)) <= Work(s) + 1 else Work(Next(c, s, a)) < Work(s)
  {
    var s' := Next(c, s, a);
    if !a.CloseReturns? && !a.CloseAgain? {
      EffortsUpdate(s.workers, a.w, s'.workers[a.w]);
    }
  }

  lemma RunStepWork(cfg: Config, actions: seq<Action>, states: seq<System>, k: nat)
    requires IsRun(ResolveDefaults(cfg), actions, states) && k < |actions| && states[k].closed
    ensures states[k + 1].closed
    ensures Work(states[k + 1]) + 1 <= Work(states[k]) + if Optional(actions[k]) then 2 else 0
  {
    RunKeepsInv(ResolveDefaults(cfg), actions, states, k);
    ClosedStepWork(ResolveDefaults(cfg), states[k], actions[k]);
  }

  lemma CountOneMore(actions: seq<Action>, i: nat, k: nat)
    requires i <= k < |actions|
    ensures Count(actions[i..k + 1], Optional) == Count(actions[i..k], Optional) + if Optional(actions[k]) then 1 else 0
  {
    assert actions[i..k + 1] == actions[i..k] + [actions[k]];
    CountAppend(actions[i..k], actions[k], Optional);
  }

  lemma {:induction false} StaysClosed(cfg: Config, actions: seq<Action>, states: seq<System>, i: nat, j: nat)
    requires IsRun(ResolveDefaults(cfg), actions, states) && i <= j < |states| && states[i].closed
    ensures states[j].closed
    decreases j
  {
    if i < j {
      StaysClosed(cfg, actions, states, i, j - 1);
      RunStepWork(cfg, actions, states, j - 1);
    }
  }

  /** The step does some of the work, unless it is optional and adds a little. */
  predicate WorkStep(before: nat, a: Action, after: nat) {
    after + 1 <= before + if Optional(a) then 2 else 0
  }

  lemma {:induction false} WorkAddsUp(actions: seq<Action>, works: seq<nat>, i: nat, j: nat)
    requires |works| == |actions| + 1 && i <= j <= |actions|
    requires forall k | i <= k < j :: WorkStep(works[k], actions[k], works[k + 1])
    ensures works[j] + (j - i) <= works[i] + 2 * Count(actions[i..j], Optional)
    decreases j
  {
    if i < j {
      WorkAddsUp(actions, works, i, j - 1);
      assert WorkStep(works[j - 1], actions[j - 1], works[j - 1 + 1]);
      CountOneMore(actions, i, j - 1);
    }
  }

  /** From any moment after the close on, the pool's own steps are no more than its work at that moment and one
      for every optional step. */
  lemma ClosingIsBounded(cfg: Config, actions: seq<Action>, states: seq<System>, i: nat, j: nat)
    requires IsRun(ResolveDefaults(cfg), actions, states) && i <= j < |states| && states[i].closed
    ensures (j - i) - Count(actions[i..j], Optional) <= Work(states[i]) + Count(actions[i..j], Optional)
  {
    var works := seq(|states|, k requires 0 <= k < |states| => Work(states[k]));
    forall k | i <= k < j ensures WorkStep(works[k], actions[k], works[k + 1]) {
      StaysClosed(cfg, actions, states, i, k);
      RunStepWork(cfg, actions, states, k);
    }
    WorkAddsUp(actions, works, i, j);
  }

  /** The step a closed pool's worker that is still there can take. */
  function WorkerStep(s: System, w: nat): Action
    requires w < |s.workers|
  {
    match s.workers[w]
    case Selecting => if s.tasks != [] then Receive(w) else SeeClosed(w)
    case TimedOut => IdleSection(w)
    case Got(_) => CountBusy(w)
    case Running(_) => Complete(w)
    case Finished => CountIdle(w)
    case _ => ClosedSection(w)
  }

  /** And where none of the pool's own steps is left, the closing call has returned. */
  lemma CloseComesToReturn(cfg: Config, actions: seq<Action>, states: seq<System>, i: nat)
    requires IsRun(ResolveDefaults(cfg), actions, states) && i < |states| && states[i].closed
    requires forall a | !Optional(a) :: !Enabled(ResolveDefaults(cfg), states[i], a)
    ensures states[i].closing == Returned
  {
    var c, s := ResolveDefaults(cfg), states[i];
    RunKeepsInv(c, actions, states, i);
    forall w | 0 <= w < |s.workers| ensures s.workers[w].Exited? {
      assert !Enabled(c, s, WorkerStep(s, w));
    }
    assert !Enabled(c, s, CloseReturns);
  }

  // ---- A later Close ----

  /** No task is queued or with a worker. */
  predicate Idle(s: System) {
    s.tasks == [] && forall w | 0 <= w < |s.workers| :: !s.workers[w].Got? && !s.workers[w].Running?
  }

  /** In every run every accepted future is complete exactly when none is queued or with a worker. A later
      Close returns without asking. */
  lemma CompleteExactlyWhenIdle(cfg: Config, actions: seq<Action>, states: seq<System>, i: nat)
    requires IsRun(ResolveDefaults(cfg), actions, states) && i < |states|
    ensures states[i].completed == states[i].accepted
            <==> Idle(states[i])
  {
    RunKeepsInv(ResolveDefaults(cfg), actions, states, i);
    var s := states[i];
    forall f: Future ensures s.completed[f] + multiset(s.tasks)[f] + Count(s.workers, Carrying(f)) == s.accepted[f] {
      assert Places(s, f) == s.accepted[f];
    }
    if s.completed == s.accepted {
      assert s.tasks != [] ==> multiset(s.tasks)[s.tasks[0]] > 0;
      forall w | 0 <= w < |s.workers| ensures !s.workers[w].Got? && !s.workers[w].Running? {
        if s.workers[w].Got? || s.workers[w].Running? {
          CountSome(s.workers, Carrying(s.workers[w].f));
        }
      }
    } else if Idle(s) {
      forall f: Future ensures s.completed[f] == s.accepted[f] {
        CountSome(s.workers, Carrying(f));
      }
    }
  }

  lemma ReturnedMeansIdle(c: Config, s: System)
    requires Inv(c, s) && s.closed && forall w | 0 <= w < |s.workers| :: s.workers[w].Exited?
    ensures Idle(s)
  {
    if s.tasks != [] {
      QueueHasWorker(c, s);
    }
  }

  /** In every run, a call of Close that returns finds every accepted future complete, unless it is a later call
      that returns while the closing one still waits, and the pool is not idle then. */
  lemma CloseReturnsComplete(cfg: Config, actions: seq<Action>, states: seq<System>, j: nat)
    requires IsRun(ResolveDefaults(cfg), actions, states) && j < |actions|
    requires actions[j].CloseReturns? || actions[j].CloseAgain?
    ensures states[j].completed == states[j].accepted
            <==> (actions[j].CloseAgain? && states[j].closing == Waiting ==> Idle(states[j]))
  {
    var c, s := ResolveDefaults(cfg), states[j];
    RunKeepsInv(c, actions, states, j);
    assert Enabled(c, s, actions[j]);
    CompleteExactlyWhenIdle(cfg, actions, states, j);
    if actions[j].CloseReturns? || s.closing == Returned {
      ReturnedMeansIdle(c, s);
    }
  }

  /** In every run, all calls of Close so far returned with every accepted future complete exactly when each one
      that found the pool closed, with the closing call still waiting, found it idle. */
  lemma CloseWaitsExactly(cfg: Config, actions: seq<Action>, states: seq<System>, n: nat)
    requires IsRun(ResolveDefaults(cfg), actions, states) && n <= |actions|
    ensures (forall j | 0 <= j < n && (actions[j].CloseReturns? || actions[j].CloseAgain?) ::
               states[j].completed == states[j].accepted)
            <==> (forall j | 0 <= j < n && actions[j].CloseAgain? && states[j].closing == Waiting :: Idle(states[j]))
  {
    forall j | 0 <= j < n && (actions[j].CloseReturns? || actions[j].CloseAgain?)
      ensures states[j].completed == states[j].accepted
              <==> (actions[j].CloseAgain? && states[j].closing == Waiting ==> Idle(states[j]))
    {
      CloseReturnsComplete(cfg, actions, states, j);
    }
  }

  /** Only the call that closes the channel waits: a second Close finds the pool closed and returns at once,
      here while an accepted future is still queued. */
  lemma SecondCloseDoesNotWait(cfg: Config) returns (actions: seq<Action>, states: seq<System>)
    ensures IsRun(ResolveDefaults(cfg), actions, states)
    ensures var s := states[|actions|];
            |actions| > 0 && actions[|actions| - 1] == CloseAgain && s.closing == Waiting
            && s.tasks == [0] && s.completed[0] < s.accepted[0]
  {
    var c := ResolveDefaults(cfg);
    var s0 := Start(c);
    var s1 := Next(c, s0, SubmitCheck(0));
    var s2 := Next(c, s1, SubmitSend);
    var s3 := Next(c, s2, SubmitSpawn);
    var s4 := Next(c, s3, CloseSection);
    var s5 := Next(c, s4, CloseAgain);
    actions := [SubmitCheck(0), SubmitSend, SubmitSpawn, CloseSection, CloseAgain];
    states := [s0, s1, s2, s3, s4, s5];
  }

  // ---- The object ----

  class WorkerPool {
    const cfg: Config
    var tasks: seq<Future>
    var workers: seq<Worker>
    var currentWorkers: int
    var busyWorkers: int
    var closed: bool
    ghost var submission: Submission
    ghost var closing: Closing
    ghost var accepted: multiset<Future>
    ghost var completed: multiset<Future>

    ghost function View(): System
      reads this
    {
      System(tasks, workers, currentWorkers, busyWorkers, closed, submission, closing, accepted, completed)
    }

    constructor (cfg: Config)
      ensures this.cfg == ResolveDefaults(cfg) && View() == Start(ResolveDefaults(cfg))
    {
      this.cfg := ResolveDefaults(cfg);
      tasks, workers, currentWorkers, busyWorkers, closed := [], [], 0, 0, false;
      submission, closing, accepted, completed := Nobody, NotClosed, multiset{}, multiset{};
      new;
      var i := 0;
      while i < this.cfg.minWorkers
        invariant 0 <= i <= this.cfg.minWorkers && this.cfg == ResolveDefaults(cfg)
        invariant View() == System([], seq(i, _ => Selecting), i, 0, false, Nobody, NotClosed, multiset{}, multiset{})
      {
        SpawnWorker();
        assert seq(i + 1, _ => Worker.Selecting) == seq(i, _ => Worker.Selecting) + [Selecting];
        i := i + 1;
      }
    }

    method SpawnWorker()
      modifies this`workers, this`currentWorkers
      ensures View() == Spawned(old(View()))
    {
      currentWorkers := currentWorkers + 1;
      workers := workers + [Selecting];
    }

    /** The first part of Submit, under the mutex: the two refusals. */
    method CheckSubmission(f: Future) returns (v: Verdict)
      requires submission == Nobody && f !in accepted
      modifies this`submission
      ensures v == Admission(cfg, old(View()))
      ensures v == PoolClosed <==> old(closed)
      ensures v == QueueFull <==> !old(closed) && old(|tasks|) >= cfg.queueLimit
      ensures View() == if v == Accept then Next(cfg, old(View()), SubmitCheck(f)) else old(View())
    {
      if closed {
        return PoolClosed;
      }
      if |tasks| >= cfg.queueLimit {
        return QueueFull;
      }
      submission := Checked(f);
      return Accept;
    }

    method SendTask(f: Future)
      requires submission == Checked(f) && Enabled(cfg, View(), SubmitSend)
      modifies this
      ensures View() == Next(cfg, old(View()), SubmitSend)
    {
      tasks := tasks + [f];
      accepted := accepted + multiset{f};
      submission := Sent;
    }

    /** The last part of Submit; by now a worker may already have taken the task. */
    method SpawnIfNeeded()
      requires submission == Sent
      modifies this`workers, this`currentWorkers, this`submission
      ensures View() == Next(cfg, old(View()), SubmitSpawn)
    {
      if currentWorkers < cfg.maxWorkers && (busyWorkers == currentWorkers || |tasks| > 0) {
        SpawnWorker();
      }
      submission := Nobody;
    }

    /** A worker's turn at its select: a task, or the closed channel. */
    method WorkerReceive(w: nat) returns (ok: bool)
      requires w < |workers| && workers[w] == Selecting && (tasks != [] || closed)
      modifies this`tasks, this`workers
      ensures ok <==> old(tasks) != []
      ensures View() == Next(cfg, old(View()), if ok then Receive(w) else SeeClosed(w))
    {
      ok := tasks != [];
      if ok {
        workers := workers[w := Got(tasks[0])];
        tasks := tasks[1..];
      } else {
        workers := workers[w := SawClosed];
      }
    }

    method WorkerCountBusy(w: nat)
      requires Enabled(cfg, View(), CountBusy(w))
      modifies this`workers, this`busyWorkers
      ensures View() == Next(cfg, old(View()), CountBusy(w))
    {
      busyWorkers := busyWorkers + 1;
      workers := workers[w := Running(workers[w].f)];
    }

    /** runTaskSafely: whether the work returns or panics, its future is completed. */
    method WorkerRunTask(w: nat)
      requires Enabled(cfg, View(), Complete(w))
      modifies this`workers, this`completed
      ensures View() == Next(cfg, old(View()), Complete(w))
    {
      completed := completed + multiset{workers[w].f};
      workers := workers[w := Finished];
    }

    method WorkerCountIdle(w: nat)
      requires Enabled(cfg, View(), CountIdle(w))
      modifies this`workers, this`busyWorkers
      ensures View() == Next(cfg, old(View()), CountIdle(w))
    {
      busyWorkers := busyWorkers - 1;
      workers := workers[w := Selecting];
    }

    /** The section of a worker whose idle timer fired. */
    method WorkerIdle(w: nat) returns (leaves: bool)
      requires Enabled(cfg, View(), IdleSection(w))
      modifies this`workers, this`currentWorkers
      ensures View() == Next(cfg, old(View()), IdleSection(w)) && (leaves <==> workers[w] == Exited)
      ensures leaves <==> old(currentWorkers) > cfg.minWorkers
    {
      leaves := currentWorkers > cfg.minWorkers;
      if leaves {
        currentWorkers := currentWorkers - 1;
        workers := workers[w := Exited];
      } else {
        workers := workers[w := Selecting];
      }
    }

    /** The section of a worker that saw the closed channel. */
    method WorkerClose(w: nat)
      requires Enabled(cfg, View(), ClosedSection(w))
      modifies this`workers, this`currentWorkers
      ensures View() == Next(cfg, old(View()), ClosedSection(w))
    {
      currentWorkers := currentWorkers - 1;
      workers := workers[w := Exited];
    }

    /** The section of Close; false when the pool was closed already. */
    method CloseSection() returns (first: bool)
      requires submission == Nobody
      modifies this`closed, this`closing
      ensures first <==> !old(closed)
      ensures View() == Next(cfg, old(View()), if first then Action.CloseSection else Action.CloseAgain)
    {
      if closed {
        return false;
      }
      closed := true;
      closing := Waiting;
      return true;
    }
  }
}
