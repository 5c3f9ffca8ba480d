/** Counted slots with a first-in first-out queue of waiters: what the resizable semaphore and the
    adaptive limiter have in common, under every interleaving of callers. */
module Slots {

  /** One call of Acquire. Tickets are numbered by the order in which calls reach the mutex;
      a waiting call is known to the object by its channel, which belongs to that call alone. */
  type Ticket = nat

  datatype SlotQueue = SlotQueue(active: int, waiters: seq<Ticket>)

  // ---- The critical sections ----

  /** The section that opens Acquire. */
  function Enter(q: SlotQueue, limit: int, t: Ticket): SlotQueue {
    if q.active < limit then q.(active := q.active + 1) else q.(waiters := q.waiters + [t])
  }

  /** The section of a cancelled Acquire: its channel is cut out of the queue, if it is still there. */
  function Withdraw(waiters: seq<Ticket>, t: Ticket): seq<Ticket> {
    if waiters == [] then []
    else if waiters[0] == t then waiters[1..]
    else [waiters[0]] + Withdraw(waiters[1..], t)
  }

  /** How many waiters, from the front, find a free slot. */
  function Grants(q: SlotQueue, limit: int): nat {
    if q.active >= limit then 0
    else if limit - q.active <= |q.waiters| then limit - q.active
    else |q.waiters|
  }

  function Notify(q: SlotQueue, limit: int): SlotQueue {
    var g := Grants(q, limit);
    SlotQueue(q.active + g, q.waiters[g..])
  }

  // ---- The system ----

  datatype System = System(
    q: SlotQueue,
    limit: int,
    held: set<Ticket>,      // calls that returned nil and have not released
    handed: set<Ticket>,    // calls whose channel was closed and that have not noticed yet
    lost: set<Ticket>,      // calls that were granted a slot but returned the context's error
    next: Ticket,
    grants: seq<Ticket>,    // every call that was given a slot, in order
    frontier: Ticket)       // one past the last call that was given a slot

  datatype Action =
    | Arrive                              // a new call reaches the mutex
    | Notice(t: Ticket)                   // its channel is seen closed
    | GiveUp(t: Ticket)                   // its context is seen done
    | Release(t: Ticket, limit: int)      // a holder releases; the limit then in force
    | Resize(limit: int)

  predicate Enabled(s: System, a: Action) {
    match a
    case Arrive => true
    case Notice(t) => t in s.handed
    case GiveUp(t) => t in s.q.waiters || t in s.handed
    case Release(t, _) => t in s.held
    case Resize(_) => true
  }

  function Elements(ts: seq<Ticket>): set<Ticket> {
    set t | t in ts
  }

  /** Setting the limit and waking whoever now fits. */
  function Rebalance(s: System, q: SlotQueue, limit: int): System {
    var woken := q.waiters[..Grants(q, limit)];
    s.(q := Notify(q, limit), limit := limit, handed := s.handed + Elements(woken), grants := s.grants + woken,
       frontier := if woken == [] then s.frontier else woken[|woken| - 1] + 1)
  }

  function FreeOne(q: SlotQueue): SlotQueue {
    q.(active := q.active - 1)
  }

  function LetGo(s: System, t: Ticket): System {
    s.(held := s.held - {t})
  }

  function GiveBack(s: System, t: Ticket, limit: int): System {
    Rebalance(LetGo(s, t), FreeOne(s.q), limit)
  }

  function Next(s: System, a: Action): System
    requires Enabled(s, a)
  {
    match a
    case Arrive =>
      var s' := s.(q := Enter(s.q, s.limit, s.next), next := s.next + 1);
      if s.q.active < s.limit
      then s'.(held := s.held + {s.next}, grants := s.grants + [s.next], frontier := s.next + 1) else s'
    case Notice(t) => s.(handed := s.handed - {t}, held := s.held + {t})
    case GiveUp(t) =>
      var s' := s.(q := s.q.(waiters := Withdraw(s.q.waiters, t)));
      if t in s.handed then s'.(handed := s.handed - {t}, lost := s.lost + {t}) else s'
    case Release(t, limit) => GiveBack(s, t, limit)
    case Resize(limit) => Rebalance(s, s.q, limit)
  }

  function Start(limit: int): System {
    System(SlotQueue(0, []), limit, {}, {}, {}, 0, [], 0)
  }

  // ---- The invariant ----

  predicate Increasing(ts: seq<Ticket>) {
    forall i, j | 0 <= i < j < |ts| :: ts[i] < ts[j]
  }

  /** Slots are given in order of arrival, and whoever waits came after everyone served. */
  ghost predicate Ordered(grants: seq<Ticket>, waiters: seq<Ticket>, frontier: Ticket, next: Ticket) {
    && Increasing(grants)
    && Increasing(waiters)
    && (forall i | 0 <= i < |grants| :: grants[i] < frontier)
    && (forall i | 0 <= i < |waiters| :: frontier <= waiters[i] < next)
    && frontier <= next
  }

  ghost predicate Below(ts: set<Ticket>, bound: Ticket) {
    forall t | t in ts :: t < bound
  }

  /** Every counted slot belongs to one call that was given a slot. */
  ghost predicate Accounted(active: int, held: set<Ticket>, handed: set<Ticket>, lost: set<Ticket>, frontier: Ticket) {
    && active == |held| + |handed| + |lost|
    && held !! handed && held !! lost && handed !! lost
    && Below(held, frontier) && Below(handed, frontier) && Below(lost, frontier)
  }

  /** Nobody waits beside a free slot, so a newcomer never overtakes a waiter. */
  predicate NoFreeSlotBesideWaiter(s: System) {
    s.q.waiters != [] ==> s.q.active >= s.limit
  }

  ghost predicate Inv(s: System) {
    && NoFreeSlotBesideWaiter(s)
    && Accounted(s.q.active, s.held, s.handed, s.lost, s.frontier)
    && Ordered(s.grants, s.q.waiters, s.frontier, s.next)
  }

  lemma FirstIsLeast(first: Ticket, rest: seq<Ticket>)
    requires Increasing(rest) && forall u | u in rest :: first < u
    ensures Increasing([first] + rest)
  {
    forall i, j | 0 <= i < j < |[first] + rest| ensures ([first] + rest)[i] < ([first] + rest)[j] {
      assert rest[j - 1] in rest;
    }
  }

  lemma {:induction false} WithdrawKeepsOrder(waiters: seq<Ticket>, t: Ticket)
    requires Increasing(waiters)
    ensures Increasing(Withdraw(waiters, t))
    ensures forall u :: u in Withdraw(waiters, t) <==> u in waiters && u != t
  {
    if waiters != [] {
      var rest := waiters[1..];
      WithdrawKeepsOrder(rest, t);
      assert waiters == [waiters[0]] + rest;
      forall u | u in rest ensures waiters[0] < u {
      }
      if waiters[0] != t {
        FirstIsLeast(waiters[0], Withdraw(rest, t));
      }
    }
  }

  lemma OrderedAfterWithdraw(grants: seq<Ticket>, waiters: seq<Ticket>, frontier: Ticket, next: Ticket, t: Ticket)
    requires Ordered(grants, waiters, frontier, next)
    ensures Ordered(grants, Withdraw(waiters, t), frontier, next)
  {
    WithdrawKeepsOrder(waiters, t);
    var left := Withdraw(waiters, t);
    forall j | 0 <= j < |left| ensures frontier <= left[j] < next {
      assert left[j] in waiters;
    }
  }

  lemma OrderedAfterGrant(grants: seq<Ticket>, waiters: seq<Ticket>, frontier: Ticket, next: Ticket, g: nat)
    requires Ordered(grants, waiters, frontier, next) && 0 < g <= |waiters|
    ensures Ordered(grants + waiters[..g], waiters[g..], waiters[g - 1] + 1, next)
  {
  }

  lemma {:induction false} SizeOfIncreasing(ts: seq<Ticket>)
    requires Increasing(ts)
    ensures |Elements(ts)| == |ts|
  {
    if ts != [] {
      var k := |ts| - 1;
      SizeOfIncreasing(ts[..k]);
      assert Elements(ts) == Elements(ts[..k]) + {ts[k]};
    }
  }

  lemma WokenAreNew(waiters: seq<Ticket>, frontier: Ticket, g: nat)
    requires Increasing(waiters) && 0 < g <= |waiters|
    requires forall i | 0 <= i < |waiters| :: frontier <= waiters[i]
    ensures |Elements(waiters[..g])| == g && Below(Elements(waiters[..g]), waiters[g - 1] + 1)
    ensures forall t | t in Elements(waiters[..g]) :: t >= frontier
  {
    SizeOfIncreasing(waiters[..g]);
  }

  lemma AccountedAfterGrant(
    active: int, held: set<Ticket>, handed: set<Ticket>, lost: set<Ticket>, frontier: Ticket,
    woken: set<Ticket>, bound: Ticket)
    requires Accounted(active, held, handed, lost, frontier) && bound >= frontier
    requires Below(woken, bound) && forall t | t in woken :: t >= frontier
    ensures Accounted(active + |woken|, held, handed + woken, lost, bound)
  {
    assert handed !! woken;
    assert |handed + woken| == |handed| + |woken|;
  }

  lemma NotifyFillsUp(q: SlotQueue, limit: int)
    ensures Notify(q, limit).waiters != [] ==> Notify(q, limit).active >= limit
  {
  }

  lemma WakeKeepsOrder(s: System, q: SlotQueue, limit: int)
    requires Ordered(s.grants, q.waiters, s.frontier, s.next) && Grants(q, limit) > 0
    ensures var s' := Rebalance(s, q, limit); Ordered(s'.grants, s'.q.waiters, s'.frontier, s'.next)
  {
    OrderedAfterGrant(s.grants, q.waiters, s.frontier, s.next, Grants(q, limit));
  }

  lemma WakeKeepsAccount(s: System, q: SlotQueue, limit: int)
    requires Accounted(q.active, s.held, s.handed, s.lost, s.frontier)
    requires Ordered(s.grants, q.waiters, s.frontier, s.next) && Grants(q, limit) > 0
    ensures var s' := Rebalance(s, q, limit); Accounted(s'.q.active, s'.held, s'.handed, s'.lost, s'.frontier)
  {
    var g := Grants(q, limit);
    WokenAreNew(q.waiters, s.frontier, g);
    AccountedAfterGrant(q.active, s.held, s.handed, s.lost, s.frontier, Elements(q.waiters[..g]), q.waiters[g - 1] + 1);
  }

  /** Waking the front of the queue: the slots counted beforehand are exactly the callers'. */
  lemma RebalanceKeepsInv(s: System, q: SlotQueue, limit: int)
    requires Accounted(q.active, s.held, s.handed, s.lost, s.frontier)
    requires Ordered(s.grants, q.waiters, s.frontier, s.next)
    ensures Inv(Rebalance(s, q, limit))
  {
    NotifyFillsUp(q, limit);
    if Grants(q, limit) > 0 {
      WakeKeepsOrder(s, q, limit);
      WakeKeepsAccount(s, q, limit);
    } else {
      assert q.waiters[..0] == [] && q.waiters[0..] == q.waiters;
      assert s.grants + [] == s.grants && s.handed + Elements([]) == s.handed;
    }
  }

  lemma OrderedAfterArrival(grants: seq<Ticket>, waiters: seq<Ticket>, frontier: Ticket, next: Ticket)
    requires Ordered(grants, waiters, frontier, next)
    ensures Ordered(grants, waiters + [next], frontier, next + 1)
    ensures waiters == [] ==> Ordered(grants + [next], [], next + 1, next + 1)
  {
  }

  lemma ArriveKeepsInv(s: System)
    requires Inv(s)
    ensures Inv(Next(s, Arrive))
  {
    OrderedAfterArrival(s.grants, s.q.waiters, s.frontier, s.next);
    if s.q.active < s.limit {
      assert |s.held + {s.next}| == |s.held| + 1;
    }
  }

  lemma NoticeKeepsInv(s: System, t: Ticket)
    requires Inv(s) && t in s.handed
    ensures Inv(Next(s, Notice(t)))
  {
    assert |s.handed - {t}| == |s.handed| - 1;
  }

  lemma GiveUpKeepsInv(s: System, t: Ticket)
    requires Inv(s) && Enabled(s, GiveUp(t))
    ensures Inv(Next(s, GiveUp(t)))
  {
    OrderedAfterWithdraw(s.grants, s.q.waiters, s.frontier, s.next, t);
  }

  lemma AccountedAfterRelease(
    active: int, held: set<Ticket>, handed: set<Ticket>, lost: set<Ticket>, frontier: Ticket, t: Ticket)
    requires Accounted(active, held, handed, lost, frontier) && t in held
    ensures Accounted(active - 1, held - {t}, handed, lost, frontier)
  {
    assert |held - {t}| == |held| - 1;
  }

  lemma GiveBackKeepsInv(s: System, t: Ticket, limit: int)
    requires Accounted(s.q.active, s.held, s.handed, s.lost, s.frontier)
    requires Ordered(s.grants, s.q.waiters, s.frontier, s.next) && t in s.held
    ensures Inv(GiveBack(s, t, limit))
  {
    AccountedAfterRelease(s.q.active, s.held, s.handed, s.lost, s.frontier, t);
    RebalanceKeepsInv(LetGo(s, t), FreeOne(s.q), limit);
  }

  lemma ResizeKeepsInv(s: System, limit: int)
    requires Inv(s)
    ensures Inv(Next(s, Resize(limit)))
  {
    RebalanceKeepsInv(s, s.q, limit);
  }

  lemma StepKeepsInv(s: System, a: Action)
    requires Inv(s) && Enabled(s, a)
    ensures Inv(Next(s, a))
  {
    match a
    case Arrive => ArriveKeepsInv(s);
    case Notice(t) => NoticeKeepsInv(s, t);
    case GiveUp(t) => GiveUpKeepsInv(s, t);
    case Release(t, limit) => GiveBackKeepsInv(s, t, limit);
    case Resize(limit) => ResizeKeepsInv(s, limit);
  }

  // ---- Runs ----

  ghost predicate IsRun(actions: seq<Action>, states: seq<System>) {
    && |states| == |actions| + 1
    && states[0] == Start(states[0].limit)
    && (forall i | 0 <= i < |actions| :: Enabled(states[i], actions[i]) && states[i + 1] == Next(states[i], actions[i]))
  }

  lemma {:induction false} RunKeepsInv(actions: seq<Action>, states: seq<System>, i: nat)
    requires IsRun(actions, states) && i < |states|
    ensures Inv(states[i])
  {
    if i > 0 {
      RunKeepsInv(actions, states, i - 1);
      StepKeepsInv(states[i - 1], actions[i - 1]);
    }
  }

  /** The branch that loses a slot: a caller takes its context's branch after it was granted one. */
  predicate LosesSlot(s: System, a: Action) {
    a.GiveUp? && a.t in s.handed
  }

  /** A slot is lost exactly by that branch, and never comes back. */
  lemma {:induction false} LostExactlyByLateCancel(actions: seq<Action>, states: seq<System>, i: nat)
    requires IsRun(actions, states) && i < |states|
    ensures states[i].lost == {} <==> forall j | 0 <= j < i :: !LosesSlot(states[j], actions[j])
    ensures forall j | 0 <= j <= i :: states[j].lost <= states[i].lost
  {
    if i > 0 {
      var last := i - 1;
      LostExactlyByLateCancel(actions, states, last);
      assert states[i] == Next(states[last], actions[last]);
    }
  }

  /** Over every run: slots are given in order of arrival and never past a waiter, nobody waits beside a
      free slot, and the count is the slots callers have, or are about to have, exactly when no caller gave up
      after it was granted one. */
  lemma SlotsAreFairAndExact(actions: seq<Action>, states: seq<System>, i: nat)
    requires IsRun(actions, states) && i < |states|
    ensures Increasing(states[i].grants)
    ensures forall g, w | g in states[i].grants && w in states[i].q.waiters :: g < w
    ensures states[i].q.waiters != [] ==> states[i].q.active >= states[i].limit
    ensures states[i].q.active == |states[i].held| + |states[i].handed| + |states[i].lost|
    ensures states[i].q.active == |states[i].held + states[i].handed|
            <==> forall j | 0 <= j < i :: !LosesSlot(states[j], actions[j])
  {
    RunKeepsInv(actions, states, i);
    LostExactlyByLateCancel(actions, states, i);
    var s := states[i];
    assert |s.held + s.handed| == |s.held| + |s.handed|;
  }

  lemma LostSlotsStarveStep(s: System, a: Action)
    requires Inv(s) && Enabled(s, a) && s.limit <= |s.lost| && Next(s, a).limit <= |s.lost|
    ensures Next(s, a).grants == s.grants
  {
    if a.Release? {
      assert |s.held| > 0;
    }
  }

  /** Once as many slots are lost as the limit has, nobody is given a slot for as long as the limit is not raised
      above that. */
  lemma {:induction false} LostSlotsStarve(actions: seq<Action>, states: seq<System>, i: nat, j: nat)
    requires IsRun(actions, states) && i <= j < |states|
    requires forall m | i <= m <= j :: states[m].limit <= |states[i].lost|
    ensures states[j].grants == states[i].grants
    decreases j
  {
    if i < j {
      var last := j - 1;
      LostSlotsStarve(actions, states, i, last);
      RunKeepsInv(actions, states, last);
      LostExactlyByLateCancel(actions, states, last);
      MoreIsMore(states[i].lost, states[last].lost);
      assert states[j] == Next(states[last], actions[last]);
      LostSlotsStarveStep(states[last], actions[last]);
    }
  }

  lemma MoreIsMore(a: set<Ticket>, b: set<Ticket>)
    requires a <= b
    ensures |a| <= |b|
  {
    assert b == a + (b - a);
  }

  /** The step leaves the limit alone. */
  predicate KeepsLimit(s: System, a: Action) {
    !a.Resize? && (a.Release? ==> a.limit == s.limit)
  }

  /** In particular a semaphore that is not resized is dead for good once it has lost all its slots. */
  lemma WithoutResizeForGood(actions: seq<Action>, states: seq<System>, i: nat, j: nat)
    requires IsRun(actions, states) && i <= j < |states| && states[i].limit <= |states[i].lost|
    requires forall m | i <= m < j :: KeepsLimit(states[m], actions[m])
    ensures states[j].limit == states[i].limit && states[j].grants == states[i].grants
  {
    LimitStays(actions, states, i, j);
    forall m | i <= m <= j ensures states[m].limit <= |states[i].lost| {
      LimitStays(actions, states, i, m);
    }
    LostSlotsStarve(actions, states, i, j);
  }

  lemma {:induction false} LimitStays(actions: seq<Action>, states: seq<System>, i: nat, j: nat)
    requires IsRun(actions, states) && i <= j < |states|
    requires forall m | i <= m < j :: KeepsLimit(states[m], actions[m])
    ensures states[j].limit == states[i].limit
    decreases j
  {
    if i < j {
      var last := j - 1;
      LimitStays(actions, states, i, last);
      assert KeepsLimit(states[last], actions[last]);
      assert states[j] == Next(states[last], actions[last]);
    }
  }

  /** A step that gives a slot ends within the limit. */
  lemma GrantsStayWithinLimit(s: System, a: Action)
    requires Inv(s) && Enabled(s, a) && Next(s, a).grants != s.grants
    ensures Next(s, a).q.active <= Next(s, a).limit
  {
  }

  /** After a shrink the count only falls until it is within the limit. */
  lemma ShrinkOnlyDrains(s: System, a: Action)
    requires Inv(s) && Enabled(s, a) && s.q.active > s.limit && Next(s, a).limit == s.limit
    ensures Next(s, a).q.active <= s.q.active && Next(s, a).grants == s.grants
  {
  }

  /** A granted call whose context is done at the same moment may return the error and leave its slot counted:
      here a semaphore of one slot blocks its next caller though nobody holds anything. */
  lemma CancelledGrantLosesASlot() returns (actions: seq<Action>, states: seq<System>)
    ensures IsRun(actions, states)
    ensures var s := states[|actions|];
            s.limit == 1 && s.q.active == 1 && s.lost == {1} && s.held == {} && s.handed == {} && s.q.waiters == [2]
            && forall a | Enabled(s, a) && !a.Resize? :: Next(s, a).q.active == 1 && Next(s, a).grants == s.grants
  {
    var s0 := Start(1);
    var s1 := Next(s0, Arrive);
    var s2 := Next(s1, Arrive);
    var s3 := Next(s2, Release(0, 1));
    assert s2.q.waiters[..1] == [1];
    assert s3.handed == {1};
    var s4 := Next(s3, GiveUp(1));
    var s5 := Next(s4, Arrive);
    actions := [Arrive, Arrive, Release(0, 1), GiveUp(1), Arrive];
    states := [s0, s1, s2, s3, s4, s5];
  }
}
