/** The adaptive limiter: a Vegas-style controller over the shared slot queue. Limits are reals,
    durations are whole nanoseconds, and the smoothed round-trip time is truncated as the code does. */
module Limiter {
  import opened Folding
  import Slots
  import Semaphore

  const MIN_LIMIT := 1.0
  const MAX_LIMIT := 1000.0
  const ALPHA := 2.0
  const BETA := 5.0
  const RESET_AFTER := 30_000_000_000

  datatype Controller = Controller(limit: real, minRtt: int, smoothedRtt: int, lastReset: int)

  // ---- The controller ----

  /** Conversion of a float to an integer truncates toward zero. */
  function Truncate(x: real): int {
    if x >= 0.0 then x.Floor else -((-x).Floor)
  }

  function TruncateTenth(n: int): int {
    if n >= 0 then n / 10 else -((-n) / 10)
  }

  lemma TruncationIsTowardZero(x: real, n: int)
    ensures if x >= 0.0 then Truncate(x) as real <= x < Truncate(x) as real + 1.0
            else Truncate(x) as real - 1.0 < x <= Truncate(x) as real
    ensures if n >= 0 then 10 * TruncateTenth(n) <= n < 10 * TruncateTenth(n) + 10
            else 10 * TruncateTenth(n) - 10 < n <= 10 * TruncateTenth(n)
  {
  }

  datatype Verdict = Shrink | Grow | Hold

  /** The estimated queue against its two thresholds. A zero smoothed time makes the estimate infinite,
      or not a number, by the rules of IEEE division; neither comparison holds of not-a-number. */
  function Judge(limit: real, minRtt: int, smoothedRtt: int): Verdict {
    if smoothedRtt == 0 then
      var sign := -(limit * minRtt as real);
      if sign > 0.0 then Shrink else if sign < 0.0 then Grow else Hold
    else
      var queue := limit * (1.0 - minRtt as real / smoothedRtt as real);
      if queue > BETA then Shrink else if queue < ALPHA then Grow else Hold
  }

  function Adjust(limit: real, v: Verdict): real {
    match v
    case Shrink => if limit - 1.0 > MIN_LIMIT then limit - 1.0 else MIN_LIMIT
    case Grow => if limit + 1.0 < MAX_LIMIT then limit + 1.0 else MAX_LIMIT
    case Hold => limit
  }

  predicate WindowOver(c: Controller, now: int) {
    now - c.lastReset > RESET_AFTER
  }

  /** What Release computes from one sample. */
  function Observe(c: Controller, rtt: int, now: int): Controller {
    var c1 := if WindowOver(c, now) then c.(minRtt := 0, lastReset := now) else c;
    var minRtt := if c1.minRtt == 0 || rtt < c1.minRtt then rtt else c1.minRtt;
    var smoothed := if c1.smoothedRtt == 0 then rtt else TruncateTenth(9 * c1.smoothedRtt + rtt);
    c1.(minRtt := minRtt, smoothedRtt := smoothed, limit := Adjust(c1.limit, Judge(c1.limit, minRtt, smoothed)))
  }

  /** One sample by the numbers: a window over 30 seconds old starts again now, without a minimum; the minimum takes
      the sample in, the smoothed time moves a tenth of the way, and the limit goes one down above a queue of five,
      one up below a queue of two, within 1 and 1000. */
  lemma SampleByNumbers(c: Controller, rtt: int, now: int)
    requires c.smoothedRtt > 0 && c.minRtt >= 0 && rtt > 0
    ensures var d := Observe(c, rtt, now);
            var over := now - c.lastReset > 30_000_000_000;
            var queue := c.limit * (1.0 - d.minRtt as real / d.smoothedRtt as real);
            && d.lastReset == (if over then now else c.lastReset)
            && d.minRtt == (if over || c.minRtt == 0 || rtt < c.minRtt then rtt else c.minRtt)
            && d.smoothedRtt == (9 * c.smoothedRtt + rtt) / 10 > 0
            && (queue > 5.0 ==> d.limit == if c.limit - 1.0 > 1.0 then c.limit - 1.0 else 1.0)
            && (queue < 2.0 ==> d.limit == if c.limit + 1.0 < 1000.0 then c.limit + 1.0 else 1000.0)
            && (2.0 <= queue <= 5.0 ==> d.limit == c.limit)
  {
  }

  /** Without a smoothed time the estimate is minus infinity above a positive minimum, so the limit grows; infinity
      above a negative one, so it shrinks; and not a number above zero, so it stays. */
  lemma JudgeWithoutSmoothed(limit: real, minRtt: int)
    requires limit > 0.0
    ensures Judge(limit, minRtt, 0) == if minRtt > 0 then Grow else if minRtt < 0 then Shrink else Hold
  {
    var m := minRtt as real;
    assert m > 0.0 ==> limit * m > 0.0;
    assert m < 0.0 ==> limit * m < 0.0;
  }

  /** The very first sample is minimum and smoothed time at once: an empty queue, so the limit grows; but a first
      sample of zero makes the estimate not a number, and the limit stays. */
  lemma FirstSample(limit: real, start: int, rtt: int, now: int)
    requires InRange(limit) && rtt >= 0
    ensures var d := Observe(Controller(limit, 0, 0, start), rtt, now);
            && d.minRtt == d.smoothedRtt == rtt
            && d.limit == if rtt == 0 then limit else if limit + 1.0 < 1000.0 then limit + 1.0 else 1000.0
  {
    assert rtt > 0 ==> rtt as real / rtt as real == 1.0;
  }

  predicate InRange(limit: real) {
    MIN_LIMIT <= limit <= MAX_LIMIT
  }

  lemma LimitStaysInRange(c: Controller, rtt: int, now: int)
    requires InRange(c.limit)
    ensures InRange(Observe(c, rtt, now).limit)
    ensures Truncate(Observe(c, rtt, now).limit) >= Truncate(c.limit) - 1 >= 0
  {
  }

  // ---- The limiter as a system of callers ----

  datatype System = System(c: Controller, slots: Slots.System)

  datatype Action = Acquire | Notice(t: Slots.Ticket) | GiveUp(t: Slots.Ticket) | Release(t: Slots.Ticket, rtt: int, now: int)

  /** The step of the slot queue that goes with a step of the limiter. */
  function SlotAction(s: System, a: Action): Slots.Action {
    match a
    case Acquire => Slots.Arrive
    case Notice(t) => Slots.Notice(t)
    case GiveUp(t) => Slots.GiveUp(t)
    case Release(t, rtt, now) => Slots.Release(t, Truncate(Observe(s.c, rtt, now).limit))
  }

  predicate Enabled(s: System, a: Action) {
    Slots.Enabled(s.slots, SlotAction(s, a))
  }

  function Next(s: System, a: Action): System
    requires Enabled(s, a)
  {
    System(if a.Release? then Observe(s.c, a.rtt, a.now) else s.c, Slots.Next(s.slots, SlotAction(s, a)))
  }

  ghost predicate Inv(s: System) {
    && InRange(s.c.limit)
    && s.slots.limit == Truncate(s.c.limit)
    && s.slots.q.active <= s.slots.limit
    && Slots.Inv(s.slots)
  }

  /** The limit falls by at most the one slot that the same release frees. */
  lemma ReleaseStaysWithinLimit(s: Slots.System, t: Slots.Ticket, limit: int)
    requires Slots.Enabled(s, Slots.Release(t, limit)) && s.q.active <= s.limit && limit >= s.limit - 1
    ensures Slots.Next(s, Slots.Release(t, limit)).q.active <= limit
    ensures Slots.Next(s, Slots.Release(t, limit)).limit == limit
  {
  }

  lemma StepKeepsInv(s: System, a: Action)
    requires Inv(s) && Enabled(s, a)
    ensures Inv(Next(s, a))
  {
    Slots.StepKeepsInv(s.slots, SlotAction(s, a));
    if a.Release? {
      LimitStaysInRange(s.c, a.rtt, a.now);
      ReleaseStaysWithinLimit(s.slots, a.t, Truncate(Observe(s.c, a.rtt, a.now).limit));
    }
  }

  ghost predicate IsRun(actions: seq<Action>, states: seq<System>) {
    && |states| == |actions| + 1
    && states[0].slots == Slots.Start(Truncate(states[0].c.limit))
    && (forall i | 0 <= i < |actions| :: Enabled(states[i], actions[i]) && states[i + 1] == Next(states[i], actions[i]))
  }

  lemma {:induction false} RunKeepsInv(actions: seq<Action>, states: seq<System>, i: nat)
    requires IsRun(actions, states) && InRange(states[0].c.limit) && i < |states|
    ensures Inv(states[i])
  {
    if i > 0 {
      RunKeepsInv(actions, states, i - 1);
      StepKeepsInv(states[i - 1], actions[i - 1]);
    }
  }

  /** Over every run from an initial limit in range: the limit stays in range, the active count never
      exceeds it, and a caller waits only while every slot is taken. */
  lemma ActiveNeverExceedsLimit(actions: seq<Action>, states: seq<System>, i: nat)
    requires IsRun(actions, states) && InRange(states[0].c.limit) && i < |states|
    ensures 1.0 <= states[i].c.limit <= 1000.0
    ensures states[i].slots.q.active <= states[i].c.limit.Floor
    ensures states[i].slots.q.waiters != [] ==> states[i].slots.q.active == states[i].c.limit.Floor
    ensures states[i].slots.q.active == |states[i].slots.held| + |states[i].slots.handed| + |states[i].slots.lost|
  {
    RunKeepsInv(actions, states, i);
  }

  /** The slots of a limiter's run are a run of the slot queue; so the count is the callers' own exactly when no
      caller gave up after it was granted a slot. */
  lemma CountIsExact(actions: seq<Action>, states: seq<System>, i: nat)
    requires IsRun(actions, states) && i < |states|
    ensures states[i].slots.q.active == |states[i].slots.held + states[i].slots.handed|
            <==> forall j | 0 <= j < i :: !(actions[j].GiveUp? && actions[j].t in states[j].slots.handed)
  {
    var slotActions := seq(|actions|, j requires 0 <= j < |actions| => SlotAction(states[j], actions[j]));
    var slotStates := seq(|states|, j requires 0 <= j < |states| => states[j].slots);
    forall j | 0 <= j < |actions|
      ensures Slots.Enabled(slotStates[j], slotActions[j]) && slotStates[j + 1] == Slots.Next(slotStates[j], slotActions[j])
    {
      assert Enabled(states[j], actions[j]) && states[j + 1] == Next(states[j], actions[j]);
    }
    Slots.SlotsAreFairAndExact(slotActions, slotStates, i);
    assert forall j | 0 <= j < i :: Slots.LosesSlot(slotStates[j], slotActions[j])
             <==> actions[j].GiveUp? && actions[j].t in states[j].slots.handed;
  }

  // ---- Round-trip estimates ----

  datatype Sample = Sample(rtt: int, now: int)

  function ObserveOne(c: Controller, s: Sample): Controller {
    Observe(c, s.rtt, s.now)
  }

  function ObserveAll(c: Controller, samples: seq<Sample>): Controller {
    Fold(ObserveOne, c, samples)
  }

  predicate Bounded(c: Controller, lo: int, hi: int) {
    0 < lo <= c.smoothedRtt <= hi && lo <= c.minRtt <= hi
  }

  lemma ObserveStaysBounded(c: Controller, rtt: int, now: int, lo: int, hi: int)
    requires 0 < lo <= rtt <= hi && (Bounded(c, lo, hi) || (c.smoothedRtt == 0 && c.minRtt == 0))
    ensures Bounded(Observe(c, rtt, now), lo, hi)
  {
    var s := 9 * c.smoothedRtt + rtt;
    assert c.smoothedRtt != 0 ==> 10 * lo <= s <= 10 * hi;
  }

  predicate Within(samples: seq<Sample>, lo: int, hi: int) {
    forall i | 0 <= i < |samples| :: lo <= samples[i].rtt <= hi
  }

  /** The smoothed time, and the minimum, stay between the smallest and the largest positive sample. */
  lemma {:induction false} EstimatesWithinSamples(c: Controller, samples: seq<Sample>, lo: int, hi: int)
    requires c.smoothedRtt == 0 && c.minRtt == 0 && samples != []
    requires 0 < lo && Within(samples, lo, hi)
    ensures Bounded(ObserveAll(c, samples), lo, hi)
    decreases |samples|
  {
    var n := |samples| - 1;
    var last := samples[n];
    assert lo <= last.rtt <= hi;
    if n > 0 {
      assert Within(samples[..n], lo, hi);
      EstimatesWithinSamples(c, samples[..n], lo, hi);
    }
    ObserveStaysBounded(ObserveAll(c, samples[..n]), last.rtt, last.now, lo, hi);
  }

  lemma ObserveKeepsMinimum(c: Controller, rtt: int, now: int)
    requires rtt > 0 && !WindowOver(c, now)
    requires 0 < c.minRtt <= c.smoothedRtt || (c.smoothedRtt == 0 && c.minRtt == 0)
    ensures var d := Observe(c, rtt, now);
            0 < d.minRtt <= d.smoothedRtt && d.minRtt <= rtt && (c.minRtt > 0 ==> d.minRtt <= c.minRtt)
            && d.lastReset == c.lastReset
  {
    var s := 9 * c.smoothedRtt + rtt;
    assert c.smoothedRtt != 0 && rtt >= c.minRtt ==> s >= 10 * c.minRtt;
    assert c.smoothedRtt != 0 && rtt < c.minRtt ==> s >= 10 * rtt;
  }

  /** Until the window is first reset the minimum is a lower bound of every sample and of the smoothed time. */
  lemma {:induction false} MinimumUntilReset(c: Controller, samples: seq<Sample>)
    requires c.smoothedRtt == 0 && c.minRtt == 0 && samples != []
    requires forall i | 0 <= i < |samples| :: samples[i].rtt > 0 && samples[i].now - c.lastReset <= RESET_AFTER
    ensures var d := ObserveAll(c, samples);
            && d.lastReset == c.lastReset && 0 < d.minRtt <= d.smoothedRtt
            && forall i | 0 <= i < |samples| :: d.minRtt <= samples[i].rtt
    decreases |samples|
  {
    var n := |samples| - 1;
    assert samples[n].rtt > 0;
    var before := ObserveAll(c, samples[..n]);
    if n > 0 {
      assert forall i | 0 <= i < n :: samples[..n][i] == samples[i];
      MinimumUntilReset(c, samples[..n]);
    }
    ObserveKeepsMinimum(before, samples[n].rtt, samples[n].now);
    assert forall i | 0 <= i < n :: samples[i] == samples[..n][i];
  }

  /** One sample keeps the minimum at or below the smoothed time, except where the minimum starts afresh:
      there exactly when the sample itself is not above the smoothed time. */
  lemma MinimumBelowSmoothed(c: Controller, rtt: int, now: int)
    requires c.smoothedRtt > 0 && c.minRtt <= c.smoothedRtt && rtt >= 0
    ensures var c' := Observe(c, rtt, now);
            c'.minRtt <= c'.smoothedRtt <==> (WindowOver(c, now) || c.minRtt == 0 ==> rtt <= c.smoothedRtt)
  {
  }

  /** The sample is above the smoothed time and arrives while there is no minimum, or the window is over. */
  predicate StartsAbove(c: Controller, s: Sample) {
    c.smoothedRtt != 0 && (c.minRtt == 0 || WindowOver(c, s.now)) && s.rtt > c.smoothedRtt
  }

  predicate MinimumIsBelow(c: Controller) {
    0 <= c.minRtt <= c.smoothedRtt
  }

  lemma MinimumStep(c: Controller, s: Sample)
    requires MinimumIsBelow(c) && s.rtt >= 0
    ensures MinimumIsBelow(ObserveOne(c, s)) <==> !StartsAbove(c, s)
  {
    var t := 9 * c.smoothedRtt + s.rtt;
    assert s.rtt >= c.minRtt ==> t >= 10 * c.minRtt;
    assert s.rtt < c.minRtt ==> t >= 10 * s.rtt;
  }

  /** The controller before and after each sample. */
  ghost predicate IsTrace(samples: seq<Sample>, cs: seq<Controller>) {
    && |cs| == |samples| + 1
    && (forall i | 0 <= i < |samples| :: samples[i].rtt >= 0 && cs[i + 1] == ObserveOne(cs[i], samples[i]))
  }

  /** Over every series of samples the minimum stays at or below the smoothed time throughout exactly when no
      sample above the smoothed time arrives while there is no minimum, or the window is over. */
  lemma {:induction false} MinimumBelowThroughout(samples: seq<Sample>, cs: seq<Controller>, i: nat)
    requires IsTrace(samples, cs) && MinimumIsBelow(cs[0]) && i < |cs|
    ensures (forall k | 0 <= k <= i :: MinimumIsBelow(cs[k]))
            <==> (forall k | 0 <= k < i :: !StartsAbove(cs[k], samples[k]))
  {
    if i > 0 {
      var last := i - 1;
      MinimumBelowThroughout(samples, cs, last);
      assert cs[i] == ObserveOne(cs[last], samples[last]);
      if MinimumIsBelow(cs[last]) {
        MinimumStep(cs[last], samples[last]);
      }
    }
  }

  /** The samples from the w-th on are those of the window that is open before the i-th. */
  ghost predicate WindowFrom(samples: seq<Sample>, cs: seq<Controller>, w: nat, i: nat)
    requires |cs| == |samples| + 1 && w <= i <= |samples|
  {
    && (forall j | w < j < i :: samples[j].now - cs[i].lastReset <= 30_000_000_000)
    && w < i
    && (if samples[w].now - cs[w].lastReset > 30_000_000_000 then cs[i].lastReset == samples[w].now
        else w == 0 && cs[i].lastReset == cs[0].lastReset)
  }

  /** Over every series of positive samples the minimum is exactly the least sample of the window that is open. */
  lemma {:induction false} MinimumIsLeastOfWindow(samples: seq<Sample>, cs: seq<Controller>, i: nat) returns (w: nat)
    requires IsTrace(samples, cs) && cs[0].minRtt == 0 && 0 < i < |cs|
    requires forall j | 0 <= j < |samples| :: samples[j].rtt > 0
    ensures w < i && WindowFrom(samples, cs, w, i)
    ensures forall j | w <= j < i :: cs[i].minRtt <= samples[j].rtt
    ensures exists j :: w <= j < i && cs[i].minRtt == samples[j].rtt
  {
    var last := i - 1;
    assert cs[i] == ObserveOne(cs[last], samples[last]);
    if i == 1 || WindowOver(cs[last], samples[last].now) {
      w := last;
      assert cs[i].minRtt == samples[last].rtt;
    } else {
      w := MinimumIsLeastOfWindow(samples, cs, last);
      var j :| w <= j < last && cs[last].minRtt == samples[j].rtt;
      assert samples[last].rtt >= cs[last].minRtt ==> cs[i].minRtt == samples[j].rtt;
      assert samples[last].rtt < cs[last].minRtt ==> cs[i].minRtt == samples[last].rtt;
    }
  }

  /** A zero sample resets the minimum by accident: zero also stands for "no minimum yet". */
  lemma ZeroSampleForgetsMinimum()
    ensures var c := ObserveAll(Controller(10.0, 0, 0, 0), [Sample(10, 0), Sample(0, 0), Sample(50, 0)]);
            c.minRtt == 50 && c.smoothedRtt == 13 && c.limit == 11.0
  {
    var c0 := Controller(10.0, 0, 0, 0);
    var samples := [Sample(10, 0), Sample(0, 0), Sample(50, 0)];
    assert samples[..2][..1] == samples[..1] && samples[..1][..0] == [];
    var c1 := Observe(c0, 10, 0);
    assert c1 == Controller(11.0, 10, 10, 0);
    var c2 := Observe(c1, 0, 0);
    assert c2 == Controller(10.0, 0, 9, 0);
    assert ObserveAll(c0, []) == c0;
    assert ObserveAll(c0, samples[..1]) == ObserveOne(c0, samples[0]) == c1;
    assert ObserveAll(c0, samples[..2]) == ObserveOne(c1, samples[1]) == c2;
  }

  // ---- Convergence under a constant round-trip time ----

  /** The minimum is known, and is a lower bound of the smoothed time and of the constant sample. */
  predicate Measured(c: Controller, rtt: int) {
    InRange(c.limit) && 0 < c.minRtt <= c.smoothedRtt && c.minRtt <= rtt
  }

  /** The smoothed time has stopped moving: truncation may leave it up to nine nanoseconds short of the sample. */
  predicate Steady(c: Controller, rtt: int) {
    Measured(c, rtt) && rtt - 9 <= c.smoothedRtt <= rtt
  }

  /** The part of the round-trip time spent queueing. */
  function Load(c: Controller): real
    requires c.smoothedRtt != 0
  {
    1.0 - c.minRtt as real / c.smoothedRtt as real
  }

  /** The estimated queue is within the two thresholds, or the limit is at its maximum. */
  predicate Settled(limit: real, load: real) {
    ALPHA <= limit * load <= BETA || (limit * load < ALPHA && limit == MAX_LIMIT)
  }

  function Nudge(limit: real, load: real): real {
    Adjust(limit, if limit * load > BETA then Shrink else if limit * load < ALPHA then Grow else Hold)
  }

  lemma LoadIsFraction(c: Controller, rtt: int)
    requires Steady(c, rtt)
    ensures 0.0 <= Load(c) < 1.0
  {
    var m, r := c.minRtt as real, c.smoothedRtt as real;
    assert 0.0 < m / r <= 1.0;
  }

  lemma SteadyStep(c: Controller, rtt: int, now: int)
    requires Steady(c, rtt) && !WindowOver(c, now)
    ensures Observe(c, rtt, now) == c.(limit := Nudge(c.limit, Load(c)))
    ensures Steady(Observe(c, rtt, now), rtt) && Load(Observe(c, rtt, now)) == Load(c)
  {
  }

  /** One step moves the estimated queue by less than one, so it cannot jump over the band. */
  lemma NudgeApproaches(limit: real, load: real)
    requires InRange(limit) && 0.0 <= load < 1.0
    ensures Settled(limit, load) ==> Nudge(limit, load) == limit
    ensures limit * load < ALPHA ==> Nudge(limit, load) * load < BETA
    ensures limit * load < ALPHA && limit < MAX_LIMIT ==>
              Nudge(limit, load) == limit + 1.0 || Nudge(limit, load) == MAX_LIMIT
    ensures limit * load > BETA ==> Nudge(limit, load) == limit - 1.0 && Nudge(limit, load) * load > ALPHA
  {
    assert limit * load > BETA ==> limit > BETA by {
      if limit * load > BETA {
        Shorten(limit, load);
      }
    }
    Distribute(limit, load);
    assert (if limit + 1.0 < MAX_LIMIT then limit + 1.0 else MAX_LIMIT) * load <= (limit + 1.0) * load by {
      Monotone(if limit + 1.0 < MAX_LIMIT then limit + 1.0 else MAX_LIMIT, limit + 1.0, load);
    }
  }

  lemma Distribute(x: real, y: real)
    ensures (x + 1.0) * y == x * y + y && (x - 1.0) * y == x * y - y
  {
  }

  lemma Monotone(a: real, b: real, y: real)
    requires a <= b && 0.0 <= y
    ensures a * y <= b * y
  {
    assert 0.0 <= (b - a) * y;
  }

  lemma Shorten(x: real, y: real)
    requires 0.0 <= x && y <= 1.0
    ensures x * y <= x
  {
    assert 0.0 <= x * (1.0 - y);
  }

  /** A run of releases that all measure the same time, within one window. */
  predicate ConstantSamples(c: Controller, samples: seq<Sample>, rtt: int) {
    forall i | 0 <= i < |samples| :: samples[i].rtt == rtt && samples[i].now - c.lastReset <= RESET_AFTER
  }

  /** Settled, or k full steps away from the start on one side of the band. */
  predicate Moving(start: real, limit: real, load: real, k: nat) {
    || Settled(limit, load)
    || (limit * load < ALPHA && limit < MAX_LIMIT && limit == start + k as real)
    || (limit * load > BETA && limit == start - k as real)
  }

  lemma NudgeKeepsMoving(start: real, limit: real, load: real, k: nat)
    requires InRange(limit) && 0.0 <= load < 1.0 && Moving(start, limit, load, k)
    ensures Moving(start, Nudge(limit, load), load, k + 1)
  {
    NudgeApproaches(limit, load);
  }

  lemma MovingStep(c: Controller, start: real, rtt: int, now: int, k: nat)
    requires Steady(c, rtt) && !WindowOver(c, now) && Moving(start, c.limit, Load(c), k)
    ensures var d := Observe(c, rtt, now);
            Steady(d, rtt) && Load(d) == Load(c) && d.lastReset == c.lastReset && Moving(start, d.limit, Load(c), k + 1)
  {
    LoadIsFraction(c, rtt);
    SteadyStep(c, rtt, now);
    NudgeKeepsMoving(start, c.limit, Load(c), k);
  }

  /** While unsettled the limit has moved by a full step each time, always the same way. */
  lemma {:induction false} UnsettledKeepsMoving(c: Controller, samples: seq<Sample>, rtt: int)
    requires Steady(c, rtt) && ConstantSamples(c, samples, rtt)
    ensures var d := ObserveAll(c, samples);
            && Steady(d, rtt) && Load(d) == Load(c) && d.lastReset == c.lastReset
            && Moving(c.limit, d.limit, Load(c), |samples|)
    decreases |samples|
  {
    var n := |samples| - 1;
    LoadIsFraction(c, rtt);
    if n >= 0 {
      UnsettledKeepsMoving(c, samples[..n], rtt);
      MovingStep(ObserveAll(c, samples[..n]), c.limit, rtt, samples[n].now, n);
    }
  }

  function Distance(a: int, b: int): nat {
    if a < b then b - a else a - b
  }

  /** Smoothing stands still exactly within nine nanoseconds below the sample; elsewhere it comes closer and
      does not pass it. */
  lemma SmoothingApproaches(s: int, rtt: int)
    requires s > 0 && rtt > 0
    ensures var s' := TruncateTenth(9 * s + rtt);
            && (s' == s <==> rtt - 9 <= s <= rtt)
            && (s > rtt ==> rtt <= s' < s)
            && (s < rtt - 9 ==> s < s' <= rtt)
  {
  }

  /** From any measured state, a constant time makes the smoothed time steady within as many releases as its
      distance from that time. */
  lemma {:induction false} SmoothedSettles(c: Controller, samples: seq<Sample>, rtt: int)
    requires Measured(c, rtt) && ConstantSamples(c, samples, rtt)
    ensures var d := ObserveAll(c, samples);
            && Measured(d, rtt) && d.minRtt == c.minRtt && d.lastReset == c.lastReset
            && (Steady(d, rtt) || Distance(d.smoothedRtt, rtt) + |samples| <= Distance(c.smoothedRtt, rtt))
    decreases |samples|
  {
    var n := |samples| - 1;
    if n >= 0 {
      SmoothedSettles(c, samples[..n], rtt);
      var d := ObserveAll(c, samples[..n]);
      SmoothingApproaches(d.smoothedRtt, rtt);
      ObserveKeepsMinimum(d, rtt, samples[n].now);
      LimitStaysInRange(d, rtt, samples[n].now);
    }
  }

  /** There are at most 999 full steps within the range of the limit. */
  lemma RangeIsCrossed(start: real, limit: real, load: real, k: nat)
    requires InRange(start) && InRange(limit) && load < 1.0 && Moving(start, limit, load, k) && k >= 999
    ensures Settled(limit, load)
  {
    var step := k as real;
    assert step >= 999.0;
    Shorten(limit, load);
  }

  /** From any limit in range, 999 releases at a constant time settle a steady controller. */
  lemma Converges(c: Controller, samples: seq<Sample>, rtt: int)
    requires Steady(c, rtt) && ConstantSamples(c, samples, rtt) && |samples| >= 999
    ensures Settled(ObserveAll(c, samples).limit, Load(c))
  {
    UnsettledKeepsMoving(c, samples, rtt);
    LoadIsFraction(c, rtt);
    RangeIsCrossed(c.limit, ObserveAll(c, samples).limit, Load(c), |samples|);
  }

  lemma ObserveInTwo(c: Controller, first: seq<Sample>, rest: seq<Sample>)
    ensures ObserveAll(c, first + rest) == ObserveAll(ObserveAll(c, first), rest)
  {
    FoldInTwo(ObserveOne, c, first, rest);
  }

  lemma ConstantRest(c: Controller, d: Controller, samples: seq<Sample>, k: nat, rtt: int)
    requires ConstantSamples(c, samples, rtt) && k <= |samples| && d.lastReset == c.lastReset
    ensures ConstantSamples(c, samples[..k], rtt) && ConstantSamples(d, samples[k..], rtt)
  {
  }

  /** The controller converges from any measured state: a constant time first steadies the smoothed time, and
      999 more releases bring the limit to rest. */
  lemma ConvergesFromAnywhere(c: Controller, samples: seq<Sample>, rtt: int)
    requires Measured(c, rtt) && ConstantSamples(c, samples, rtt)
    requires |samples| >= Distance(c.smoothedRtt, rtt) + 999
    ensures var d := ObserveAll(c, samples); Steady(d, rtt) && Settled(d.limit, Load(d))
  {
    var k := Distance(c.smoothedRtt, rtt);
    ConstantRest(c, c, samples, k, rtt);
    SmoothedSettles(c, samples[..k], rtt);
    var d := ObserveAll(c, samples[..k]);
    ConstantRest(c, d, samples, k, rtt);
    UnsettledKeepsMoving(d, samples[k..], rtt);
    Converges(d, samples[k..], rtt);
    ObserveInTwo(c, samples[..k], samples[k..]);
    assert samples[..k] + samples[k..] == samples;
  }

  /** Once settled it does not move again. */
  lemma {:induction false} StaysSettled(c: Controller, samples: seq<Sample>, rtt: int)
    requires Steady(c, rtt) && ConstantSamples(c, samples, rtt) && Settled(c.limit, Load(c))
    ensures ObserveAll(c, samples) == c
    decreases |samples|
  {
    var n := |samples| - 1;
    LoadIsFraction(c, rtt);
    if n >= 0 {
      StaysSettled(c, samples[..n], rtt);
      SteadyStep(c, rtt, samples[n].now);
      NudgeApproaches(c.limit, Load(c));
    }
  }

  // ---- The object ----

  class AdaptiveLimiter {
    var limit: real
    var active: int
    var waitChs: seq<Slots.Ticket>
    var minRtt: int
    var smoothedRtt: int
    var lastReset: int

    ghost function Control(): Controller
      reads this
    {
      Controller(limit, minRtt, smoothedRtt, lastReset)
    }

    ghost function Queue(): Slots.SlotQueue
      reads this
    {
      Slots.SlotQueue(active, waitChs)
    }

    constructor (initialLimit: real, now: int)
      ensures Control() == Controller(initialLimit, 0, 0, now) && Queue() == Slots.Start(Truncate(initialLimit)).q
    {
      limit, active, waitChs, minRtt, smoothedRtt, lastReset := initialLimit, 0, [], 0, 0, now;
    }

    method AcquireSection(ch: Slots.Ticket) returns (taken: bool)
      modifies this`active, this`waitChs
      ensures Queue() == Slots.Enter(old(Queue()), Truncate(limit), ch) && (taken <==> old(active) < Truncate(limit))
    {
      if active < Truncate(limit) {
        active := active + 1;
        return true;
      }
      waitChs := waitChs + [ch];
      return false;
    }

    method CancelSection(ch: Slots.Ticket)
      modifies this`waitChs
      ensures waitChs == Slots.Withdraw(old(waitChs), ch)
    {
      waitChs := Semaphore.CutOut(waitChs, ch);
    }

    method Release(rtt: int, now: int)
      modifies this
      ensures Control() == Observe(old(Control()), rtt, now)
      ensures Queue() == Slots.Notify(old(Queue()).(active := old(active) - 1), Truncate(limit))
    {
      active := active - 1;
      Tune(rtt, now);
      var slots := Truncate(limit) - active;
      ghost var freed := Queue();
      ghost var g := 0;
      while slots > 0 && |waitChs| > 0
        modifies `active, `waitChs
        invariant 0 <= g <= |freed.waiters| && slots + g == Truncate(limit) - freed.active
        invariant slots >= 0 || g == 0
        invariant active == freed.active + g && waitChs == freed.waiters[g..]
        decreases |waitChs|
      {
        waitChs := waitChs[1..];
        active := active + 1;
        slots := slots - 1;
        g := g + 1;
      }
      assert g == Slots.Grants(freed, Truncate(limit));
    }

    /** The part of Release that updates the estimates and the limit. */
    method Tune(rtt: int, now: int)
      modifies `limit, `minRtt, `smoothedRtt, `lastReset
      ensures Control() == Observe(old(Control()), rtt, now)
    {
      if now - lastReset > RESET_AFTER {
        minRtt := 0;
        lastReset := now;
      }
      if minRtt == 0 || rtt < minRtt {
        minRtt := rtt;
      }
      if smoothedRtt == 0 {
        smoothedRtt := rtt;
      } else {
        smoothedRtt := TruncateTenth(9 * smoothedRtt + rtt);
      }
      limit := Adjust(limit, Judge(limit, minRtt, smoothedRtt));
    }
  }
}
