/** The circuit breaker: its two critical sections around a user call, every interleaving of calls,
    and the object that runs the sections. Times are read from one monotone clock. */
module Breaker {

  datatype State = Closed | Open | HalfOpen

  datatype Record = Record(t: int, failed: bool)

  datatype Config = Config(threshold: real, cooldown: int, minRequests: int, window: int)

  const ZERO_TIME := 0
  const SECOND := 1_000_000_000

  function ResolveDefaults(c: Config): Config {
    Config(if c.threshold <= 0.0 || c.threshold > 1.0 then 0.5 else c.threshold,
           if c.cooldown <= 0 then 5 * SECOND else c.cooldown,
           if c.minRequests <= 0 then 5 else c.minRequests,
           if c.window <= 0 then 10 * SECOND else c.window)
  }

  datatype Breaker = Breaker(state: State, openTime: int, records: seq<Record>, halfOpenExecuting: bool)

  const NEW := Breaker(Closed, ZERO_TIME, [], false)

  // ---- The critical sections ----

  function TransitionTo(b: Breaker, target: State, openTime: int): Breaker {
    if b.state == target then b
    else b.(state := target, openTime := openTime, records := if target == HalfOpen then b.records else [])
  }

  function CheckState(c: Config, b: Breaker, now: int): Breaker {
    if b.state == Open && now - b.openTime > c.cooldown then TransitionTo(b, HalfOpen, ZERO_TIME) else b
  }

  datatype Verdict = Rejected | Run(trial: bool)

  /** The section before the user function. */
  function BeginVerdict(c: Config, b: Breaker, now: int): Verdict {
    var b1 := CheckState(c, b, now);
    if b1.state == Open || (b1.state == HalfOpen && b1.halfOpenExecuting) then Rejected
    else Run(b1.state == HalfOpen)
  }

  function Begin(c: Config, b: Breaker, now: int): Breaker {
    var b1 := CheckState(c, b, now);
    if BeginVerdict(c, b, now) == Run(true) then b1.(halfOpenExecuting := true) else b1
  }

  /** Drops the leading records older than the cutoff. */
  function Prune(records: seq<Record>, cutoff: int): seq<Record> {
    if records != [] && records[0].t < cutoff then Prune(records[1..], cutoff) else records
  }

  function Failures(records: seq<Record>): nat {
    if records == [] then 0
    else Failures(records[..|records| - 1]) + if records[|records| - 1].failed then 1 else 0
  }

  function FailuresAmong(records: seq<Record>): nat {
    |set i | 0 <= i < |records| && records[i].failed|
  }

  lemma {:induction false} FailuresCount(records: seq<Record>)
    ensures Failures(records) == FailuresAmong(records)
  {
    var all := set i | 0 <= i < |records| && records[i].failed;
    if records == [] {
      assert all == {};
    } else {
      var n := |records| - 1;
      var before := set i | 0 <= i < |records[..n]| && records[..n][i].failed;
      FailuresCount(records[..n]);
      assert all == before + if records[n].failed then {n} else {};
    }
  }

  predicate Trips(c: Config, records: seq<Record>) {
    && |records| >= c.minRequests
    && |records| > 0
    && Failures(records) as real / |records| as real >= c.threshold
  }

  /** The section after the user function: the completion is recorded at t1, records are pruned at t2,
      and a transition, if any, is stamped t3. */
  function Finish(c: Config, b: Breaker, trial: bool, failed: bool, t1: int, t2: int, t3: int): Breaker {
    if trial then
      var b1 := b.(halfOpenExecuting := false);
      if failed then TransitionTo(b1, Open, t3) else TransitionTo(b1, Closed, ZERO_TIME)
    else
      var b1 := b.(records := Prune(b.records + [Record(t1, failed)], t2 - c.window));
      TripIfDue(c, b1, t3)
  }

  function TripIfDue(c: Config, b: Breaker, now: int): Breaker {
    if Trips(c, b.records) then TransitionTo(b, Open, now) else b
  }

  // ---- Pruning a time-ordered prefix is filtering ----

  /** No record is older than its predecessor. */
  predicate Sorted(records: seq<Record>) {
    records == [] || (Sorted(records[..|records| - 1]) && NotAfter(records[..|records| - 1], records[|records| - 1].t))
  }

  /** The last record, if any, is not after the given time. */
  predicate NotAfter(records: seq<Record>, t: int) {
    records == [] || records[|records| - 1].t <= t
  }

  function Since(records: seq<Record>, cutoff: int): seq<Record> {
    if records == [] then []
    else
      var n := |records| - 1;
      Since(records[..n], cutoff) + if records[n].t >= cutoff then [records[n]] else []
  }

  lemma {:induction false} SortedFromFirst(records: seq<Record>, cutoff: int)
    requires Sorted(records) && records != [] && records[0].t >= cutoff
    ensures Since(records, cutoff) == records && records[|records| - 1].t >= cutoff
  {
    var n := |records| - 1;
    var before := records[..n];
    assert before + [records[n]] == records;
    if n > 0 {
      assert before[0] == records[0];
      SortedFromFirst(before, cutoff);
    } else {
      assert before == [];
    }
  }

  lemma {:induction false} DropFirst(records: seq<Record>, cutoff: int)
    requires Sorted(records) && records != []
    ensures Sorted(records[1..])
    ensures records[0].t < cutoff ==> Since(records, cutoff) == Since(records[1..], cutoff)
  {
    var n := |records| - 1;
    if n > 0 {
      DropFirst(records[..n], cutoff);
      assert records[..n][1..] == records[1..][..n - 1];
    } else {
      assert Since(records[..0], cutoff) == [];
    }
  }

  lemma {:induction false} PruneIsFilter(records: seq<Record>, cutoff: int)
    requires Sorted(records)
    ensures Prune(records, cutoff) == Since(records, cutoff)
  {
    if records != [] {
      if records[0].t < cutoff {
        DropFirst(records, cutoff);
        PruneIsFilter(records[1..], cutoff);
      } else {
        SortedFromFirst(records, cutoff);
      }
    }
  }

  lemma {:induction false} SinceTwice(records: seq<Record>, early: int, late: int)
    requires early <= late
    ensures Since(Since(records, early), late) == Since(records, late)
  {
    if records != [] {
      var n := |records| - 1;
      SinceTwice(records[..n], early, late);
      var kept := Since(records[..n], early);
      if records[n].t >= early {
        assert (kept + [records[n]])[..|kept|] == kept;
      } else {
        assert kept + [] == kept && Since(records[..n], late) + [] == Since(records[..n], late);
      }
    }
  }

  lemma {:induction false} SinceStaysSorted(records: seq<Record>, cutoff: int, t: int)
    requires Sorted(records) && NotAfter(records, t)
    ensures Sorted(Since(records, cutoff)) && NotAfter(Since(records, cutoff), t)
  {
    if records != [] {
      var n := |records| - 1;
      var kept := Since(records[..n], cutoff);
      SinceStaysSorted(records[..n], cutoff, records[n].t);
      AppendStaysSorted(kept, records[n]);
      assert kept + [] == kept;
    }
  }

  lemma AppendStaysSorted(records: seq<Record>, r: Record)
    requires Sorted(records) && NotAfter(records, r.t)
    ensures Sorted(records + [r]) && NotAfter(records + [r], r.t)
  {
    assert (records + [r])[..|records|] == records;
  }

  /** The records from the k-th on are recent, and those before it are not. */
  ghost predicate RecentFrom(records: seq<Record>, cutoff: int, k: nat) {
    && k <= |records|
    && (forall i | 0 <= i < k :: records[i].t < cutoff)
    && (forall i | k <= i < |records| :: records[i].t >= cutoff)
  }

  /** Pruning time-ordered records leaves exactly the recent ones. */
  lemma {:induction false} PruneLeavesRecent(records: seq<Record>, cutoff: int) returns (k: nat)
    requires Sorted(records)
    ensures RecentFrom(records, cutoff, k) && Prune(records, cutoff) == records[k..]
  {
    if records != [] && records[0].t < cutoff {
      DropFirst(records, cutoff);
      var j := PruneLeavesRecent(records[1..], cutoff);
      OneMoreBefore(records, cutoff, j);
      k := j + 1;
    } else {
      FirstIsOldest(records, cutoff);
      k := 0;
    }
  }

  lemma OneMoreBefore(records: seq<Record>, cutoff: int, k: nat)
    requires records != [] && records[0].t < cutoff && RecentFrom(records[1..], cutoff, k)
    ensures RecentFrom(records, cutoff, k + 1) && records[1..][k..] == records[k + 1..]
  {
    var rest := records[1..];
    forall i | 0 <= i < k + 1 ensures records[i].t < cutoff {
      assert i > 0 ==> records[i] == rest[i - 1];
    }
    forall i | k + 1 <= i < |records| ensures records[i].t >= cutoff {
      assert records[i] == rest[i - 1];
    }
  }

  lemma {:induction false} FirstIsOldest(records: seq<Record>, cutoff: int)
    requires Sorted(records) && (records != [] ==> records[0].t >= cutoff)
    ensures forall i | 0 <= i < |records| :: records[i].t >= cutoff
  {
    if |records| > 1 {
      var n := |records| - 1;
      FirstIsOldest(records[..n], cutoff);
      assert records[..n][n - 1].t >= cutoff;
      assert forall i | 0 <= i < n :: records[i] == records[..n][i];
    }
  }

  /** Appending the newest completion and pruning at a later cutoff is filtering the whole history. */
  lemma RecordThenPrune(history: seq<Record>, early: int, r: Record, late: int)
    requires Sorted(history) && NotAfter(history, r.t) && early <= late
    ensures Prune(Since(history, early) + [r], late) == Since(history + [r], late)
  {
    var kept := Since(history, early);
    SinceStaysSorted(history, early, r.t);
    AppendStaysSorted(kept, r);
    PruneIsFilter(kept + [r], late);
    SinceTwice(history, early, late);
    assert (kept + [r])[..|kept|] == kept && (history + [r])[..|history|] == history;
  }

  // ---- The system ----

  datatype System<C(==)> = System(
    b: Breaker,
    calls: map<C, bool>,      // user functions in flight; true for a half-open trial
    now: int,
    history: seq<Record>,     // every recorded completion since the last entry to Closed or Open
    cutoff: int)              // of the latest pruning

  datatype Action<C> =
    | BeginCall(call: C)
    | FinishCall(call: C, failed: bool, d1: nat, d2: nat)   // time passing between the clock readings
    | Query                                                 // the State method
    | Tick(d: nat)

  predicate Enabled<C>(s: System<C>, a: Action<C>) {
    match a
    case BeginCall(k) => k !in s.calls
    case FinishCall(k, _, _, _) => k in s.calls
    case Query => true
    case Tick(_) => true
  }

  /** A completion history is forgotten on each entry to Closed or Open. */
  function Remember(before: State, after: State, history: seq<Record>): seq<Record> {
    if before != after && after != HalfOpen then [] else history
  }

  function Next<C>(c: Config, s: System<C>, a: Action<C>): System<C>
    requires Enabled(s, a)
  {
    match a
    case BeginCall(k) =>
      var v := BeginVerdict(c, s.b, s.now);
      s.(b := Begin(c, s.b, s.now), calls := if v.Run? then s.calls[k := v.trial] else s.calls)
    case FinishCall(k, failed, d1, d2) =>
      var t2 := s.now + d1;
      var b' := Finish(c, s.b, s.calls[k], failed, s.now, t2, t2 + d2);
      var seen := if s.calls[k] then s.history else s.history + [Record(s.now, failed)];
      System(b', s.calls - {k}, t2 + d2, Remember(s.b.state, b'.state, seen),
             if s.calls[k] then s.cutoff else t2 - c.window)
    case Query => s.(b := CheckState(c, s.b, s.now))
    case Tick(d) => s.(now := s.now + d)
  }

  predicate Trial<C>(s: System<C>, k: C) {
    k in s.calls && s.calls[k]
  }

  ghost predicate OneTrial<C>(s: System<C>) {
    && (forall k, k' | k in s.calls && k' in s.calls && s.calls[k] && s.calls[k'] :: k == k')
    && (s.b.halfOpenExecuting <==> exists k :: k in s.calls && s.calls[k])
    && (s.b.halfOpenExecuting ==> s.b.state != Closed)
  }

  /** The records are the history since the cutoff, in time order and never younger than the clock. */
  ghost predicate InWindow(records: seq<Record>, history: seq<Record>, cutoff: int, now: int, window: int) {
    && records == Since(history, cutoff)
    && Sorted(history)
    && NotAfter(history, now)
    && cutoff <= now - window
  }

  ghost predicate Window<C>(c: Config, s: System<C>) {
    InWindow(s.b.records, s.history, s.cutoff, s.now, c.window)
  }

  ghost predicate Inv<C>(c: Config, s: System<C>) {
    OneTrial(s) && Window(c, s) && (s.b.state == Closed ==> !Trips(c, s.b.records))
  }

  lemma TripKeepsOrForgets(c: Config, b: Breaker, now: int)
    ensures TripIfDue(c, b, now) == b || TripIfDue(c, b, now) == Breaker(Open, now, [], b.halfOpenExecuting)
    ensures TripIfDue(c, b, now).state == b.state ==> TripIfDue(c, b, now) == b
  {
  }

  lemma RecordStaysInWindow(records: seq<Record>, history: seq<Record>, cutoff: int, r: Record, d1: nat, d2: nat, window: int)
    requires InWindow(records, history, cutoff, r.t, window)
    ensures InWindow(Prune(records + [r], r.t + d1 - window), history + [r], r.t + d1 - window, r.t + d1 + d2, window)
  {
    AppendStaysSorted(history, r);
    RecordThenPrune(history, cutoff, r, r.t + d1 - window);
  }

  /** After a recorded completion the breaker keeps the pruned records, or has just trip with none. */
  lemma FinishShape(c: Config, b: Breaker, failed: bool, t1: int, t2: int, t3: int)
    ensures var b' := Finish(c, b, false, failed, t1, t2, t3);
            if b'.state == b.state then b'.records == Prune(b.records + [Record(t1, failed)], t2 - c.window)
            else b'.state == Open && b'.records == []
  {
    TripKeepsOrForgets(c, b.(records := Prune(b.records + [Record(t1, failed)], t2 - c.window)), t3);
  }

  lemma WindowAfterRecord(b: Breaker, b': Breaker, history: seq<Record>, cutoff: int, r: Record, d1: nat, d2: nat, window: int)
    requires InWindow(b.records, history, cutoff, r.t, window)
    requires if b'.state == b.state then b'.records == Prune(b.records + [r], r.t + d1 - window)
             else b'.state == Open && b'.records == []
    ensures InWindow(b'.records, Remember(b.state, b'.state, history + [r]), r.t + d1 - window, r.t + d1 + d2, window)
  {
    RecordStaysInWindow(b.records, history, cutoff, r, d1, d2, window);
  }

  lemma RecordKeepsWindow<C>(c: Config, s: System<C>, k: C, failed: bool, d1: nat, d2: nat)
    requires Window(c, s) && k in s.calls && !s.calls[k]
    ensures Window(c, Next(c, s, FinishCall(k, failed, d1, d2)))
  {
    var b' := Finish(c, s.b, false, failed, s.now, s.now + d1, s.now + d1 + d2);
    FinishShape(c, s.b, failed, s.now, s.now + d1, s.now + d1 + d2);
    WindowAfterRecord(s.b, b', s.history, s.cutoff, Record(s.now, failed), d1, d2, c.window);
    var s' := Next(c, s, FinishCall(k, failed, d1, d2));
    assert s'.b == b' && s'.now == s.now + d1 + d2 && s'.cutoff == s.now + d1 - c.window;
    assert s'.history == Remember(s.b.state, b'.state, s.history + [Record(s.now, failed)]);
  }

  lemma FinishKeepsTrial<C>(c: Config, s: System<C>, k: C, failed: bool, d1: nat, d2: nat)
    requires OneTrial(s) && k in s.calls
    ensures OneTrial(Next(c, s, FinishCall(k, failed, d1, d2)))
  {
    var s' := Next(c, s, FinishCall(k, failed, d1, d2));
    if s.b.halfOpenExecuting && !s.calls[k] {
      var t :| t in s.calls && s.calls[t];
      assert t in s'.calls && s'.calls[t];
    }
  }

  lemma BeginKeepsTrial<C>(c: Config, s: System<C>, k: C)
    requires OneTrial(s) && k !in s.calls
    ensures OneTrial(Next(c, s, BeginCall(k)))
  {
    var s' := Next(c, s, BeginCall(k));
    if BeginVerdict(c, s.b, s.now) == Run(true) {
      assert s'.calls[k];
    }
    if s.b.halfOpenExecuting {
      var t :| t in s.calls && s.calls[t];
      assert t in s'.calls && s'.calls[t];
    }
  }

  /** A breaker that ends a call closed either was reset on the way or is below its threshold. */
  lemma FinishKeepsClosedQuiet<C>(c: Config, s: System<C>, k: C, failed: bool, d1: nat, d2: nat)
    requires OneTrial(s) && c.minRequests > 0 && k in s.calls
    ensures var b' := Next(c, s, FinishCall(k, failed, d1, d2)).b; b'.state == Closed ==> !Trips(c, b'.records)
  {
    if s.calls[k] {
      assert s.b.halfOpenExecuting;
    }
  }

  lemma StepKeepsInv<C>(c: Config, s: System<C>, a: Action<C>)
    requires Inv(c, s) && Enabled(s, a) && c.minRequests > 0
    ensures Inv(c, Next(c, s, a))
  {
    match a
    case BeginCall(k) => BeginKeepsTrial(c, s, k);
    case FinishCall(k, failed, d1, d2) =>
      if !s.calls[k] {
        RecordKeepsWindow(c, s, k, failed, d1, d2);
      }
      FinishKeepsTrial(c, s, k, failed, d1, d2);
      FinishKeepsClosedQuiet(c, s, k, failed, d1, d2);
    case Query =>
    case Tick(d) =>
  }

  ghost predicate IsRun<C>(c: Config, actions: seq<Action<C>>, states: seq<System<C>>) {
    && |states| == |actions| + 1
    && states[0] == System(NEW, map[], states[0].now, [], states[0].now - c.window)
    && (forall i | 0 <= i < |actions| :: Enabled(states[i], actions[i]) && states[i + 1] == Next(c, states[i], actions[i]))
  }

  lemma {:induction false} RunKeepsInv<C>(c: Config, actions: seq<Action<C>>, states: seq<System<C>>, i: nat)
    requires IsRun(c, actions, states) && c.minRequests > 0 && i < |states|
    ensures Inv(c, states[i])
  {
    if i > 0 {
      RunKeepsInv(c, actions, states, i - 1);
      StepKeepsInv(c, states[i - 1], actions[i - 1]);
    }
  }

  /** In every interleaving: one half-open trial at most, flagged exactly while it is in flight; the records
      are the recent part of the completions since the last entry to Closed or Open; and a closed breaker has too
      few of them, or a share of failures below its threshold. */
  lemma BreakerIsSound<C>(cfg: Config, actions: seq<Action<C>>, states: seq<System<C>>, i: nat, k: C, k': C)
    returns (from: nat)
    requires IsRun(ResolveDefaults(cfg), actions, states) && i < |states|
    ensures Trial(states[i], k) && Trial(states[i], k') ==> k == k'
    ensures states[i].b.halfOpenExecuting <==> exists t :: Trial(states[i], t)
    ensures RecentFrom(states[i].history, states[i].cutoff, from) && states[i].b.records == states[i].history[from..]
    ensures states[i].b.state == Closed ==>
              var rs := states[i].b.records;
              |rs| < ResolveDefaults(cfg).minRequests
              || FailuresAmong(rs) as real / |rs| as real < ResolveDefaults(cfg).threshold
  {
    RunKeepsInv(ResolveDefaults(cfg), actions, states, i);
    PruneIsFilter(states[i].history, states[i].cutoff);
    from := PruneLeavesRecent(states[i].history, states[i].cutoff);
    TripsExactly(ResolveDefaults(cfg), states[i].b.records);
    if states[i].b.halfOpenExecuting {
      var t :| t in states[i].calls && states[i].calls[t];
      assert Trial(states[i], t);
    }
  }

  lemma TripsExactly(c: Config, records: seq<Record>)
    requires c.minRequests > 0
    ensures Trips(c, records) <==>
            |records| >= c.minRequests && FailuresAmong(records) as real / |records| as real >= c.threshold
  {
    FailuresCount(records);
  }

  lemma FinishedHistory(history: seq<Record>, early: int, r: Record, late: int) returns (k: nat)
    requires Sorted(history) && NotAfter(history, r.t) && early <= late
    ensures RecentFrom(history + [r], late, k) && Prune(Since(history, early) + [r], late) == (history + [r])[k..]
  {
    AppendStaysSorted(history, r);
    RecordThenPrune(history, early, r, late);
    PruneIsFilter(history + [r], late);
    k := PruneLeavesRecent(history + [r], late);
  }

  /** A completion outside a trial opens the breaker exactly when enough completions lie in the last window, itself
      included, and the share of failures among them reaches the threshold; it is then stamped with that time.
      Otherwise the state stays. */
  lemma OpensExactlyAtThreshold<C>(c: Config, s: System<C>, k: C, failed: bool, d1: nat, d2: nat)
    returns (from: nat)
    requires Inv(c, s) && c.minRequests > 0 && k in s.calls && !s.calls[k] && s.b.state != Open
    ensures RecentFrom(s.history + [Record(s.now, failed)], s.now + d1 - c.window, from)
    ensures var recent := (s.history + [Record(s.now, failed)])[from..];
            var b' := Next(c, s, FinishCall(k, failed, d1, d2)).b;
            && (b'.state == Open <==>
                  |recent| >= c.minRequests && FailuresAmong(recent) as real / |recent| as real >= c.threshold)
            && (b'.state == Open ==> b'.openTime == s.now + d1 + d2 && b'.records == [])
            && (b'.state != Open ==> b'.state == s.b.state && b'.openTime == s.b.openTime && b'.records == recent)
  {
    from := FinishedHistory(s.history, s.cutoff, Record(s.now, failed), s.now + d1 - c.window);
    TripsExactly(c, (s.history + [Record(s.now, failed)])[from..]);
  }

  /** A finished trial clears the flag. Its success closes the breaker; its failure opens it, stamped with that
      time, unless it is open already, and then leaves it as it is. */
  lemma TrialDecides<C>(c: Config, s: System<C>, k: C, failed: bool, d1: nat, d2: nat)
    requires Inv(c, s) && Trial(s, k)
    ensures var b' := Next(c, s, FinishCall(k, failed, d1, d2)).b;
            && !b'.halfOpenExecuting
            && (!failed ==> b'.state == Closed && b'.records == [])
            && (failed ==> b'.state == Open)
            && (failed && s.b.state == HalfOpen ==> b'.openTime == s.now + d1 + d2 && b'.records == [])
            && (failed && s.b.state == Open ==> b'.openTime == s.b.openTime && b'.records == s.b.records)
  {
    assert s.b.halfOpenExecuting;
  }

  /** A call is let through, and as a trial, exactly as the state and the cooldown say. */
  lemma BeginDecides<C>(c: Config, s: System<C>, k: C)
    requires k !in s.calls
    ensures var s' := Next(c, s, BeginCall(k));
            var expired := s.b.state == Open && s.now - s.b.openTime > c.cooldown;
            && (s.b.state == Closed ==> s'.b == s.b && s'.calls == s.calls[k := false])
            && (s.b.state == Open && !expired ==> s'.b == s.b && s'.calls == s.calls)
            && ((s.b.state == HalfOpen || expired) && s.b.halfOpenExecuting ==>
                  s'.b.state == HalfOpen && s'.b.halfOpenExecuting && s'.calls == s.calls)
            && ((s.b.state == HalfOpen || expired) && !s.b.halfOpenExecuting ==>
                  s'.b.state == HalfOpen && s'.b.halfOpenExecuting && s'.calls == s.calls[k := true])
            && (expired ==> s'.b.openTime == ZERO_TIME)
            && s'.b.records == s.b.records
  {
  }

  /** A usable setting is kept; an unusable one becomes a half, five seconds, five requests, ten seconds. What comes
      out is usable. */
  lemma DefaultsAreUsable(c: Config)
    ensures var d := ResolveDefaults(c);
            && (if 0.0 < c.threshold <= 1.0 then d.threshold == c.threshold else d.threshold == 0.5)
            && (if c.cooldown > 0 then d.cooldown == c.cooldown else d.cooldown == 5_000_000_000)
            && (if c.minRequests > 0 then d.minRequests == c.minRequests else d.minRequests == 5)
            && (if c.window > 0 then d.window == c.window else d.window == 10_000_000_000)
            && ResolveDefaults(d) == d
  {
  }

  /** With no failure on record the breaker is closed. */
  ghost predicate Untroubled<C>(s: System<C>) {
    && s.b.state == Closed
    && (forall k | k in s.calls :: !s.calls[k])
    && (forall i | 0 <= i < |s.b.records| :: !s.b.records[i].failed)
  }

  lemma NoFailureNoTrip(c: Config, records: seq<Record>)
    requires c.threshold > 0.0 && forall i | 0 <= i < |records| :: !records[i].failed
    ensures !Trips(c, records)
  {
    FailuresCount(records);
    assert (set i | 0 <= i < |records| && records[i].failed) == {};
    assert FailuresAmong(records) == 0;
  }

  lemma {:induction false} PruneKeepsClean(records: seq<Record>, cutoff: int)
    requires forall i | 0 <= i < |records| :: !records[i].failed
    ensures forall i | 0 <= i < |Prune(records, cutoff)| :: !Prune(records, cutoff)[i].failed
  {
    if records != [] && records[0].t < cutoff {
      PruneKeepsClean(records[1..], cutoff);
    }
  }

  lemma StepKeepsUntroubled<C>(c: Config, s: System<C>, a: Action<C>)
    requires Untroubled(s) && Enabled(s, a) && c.threshold > 0.0 && (a.FinishCall? ==> !a.failed)
    ensures Untroubled(Next(c, s, a))
  {
    if a.FinishCall? {
      var longer := s.b.records + [Record(s.now, false)];
      PruneKeepsClean(longer, s.now + a.d1 - c.window);
      NoFailureNoTrip(c, Prune(longer, s.now + a.d1 - c.window));
    }
  }

  /** In every run in which no call has failed the breaker is closed. */
  lemma {:induction false} NoFailureNeverOpens<C>(cfg: Config, actions: seq<Action<C>>, states: seq<System<C>>, i: nat)
    requires IsRun(ResolveDefaults(cfg), actions, states) && i < |states|
    requires forall j | 0 <= j < i && actions[j].FinishCall? :: !actions[j].failed
    ensures Untroubled(states[i])
  {
    if i > 0 {
      var last := i - 1;
      NoFailureNeverOpens(cfg, actions, states, last);
      assert Enabled(states[last], actions[last]) && states[i] == Next(ResolveDefaults(cfg), states[last], actions[last]);
      StepKeepsUntroubled(ResolveDefaults(cfg), states[last], actions[last]);
    }
  }

  // ---- Cooldown ----

  /** The step runs a user function. */
  predicate Starts<C>(c: Config, s: System<C>, a: Action<C>) {
    a.BeginCall? && BeginVerdict(c, s.b, s.now).Run?
  }

  predicate OpenSince<C>(s: System<C>, t: int) {
    s.b.state == Open && s.b.openTime == t && !s.b.halfOpenExecuting
  }

  lemma OpenStepKeeps<C>(c: Config, s: System<C>, a: Action<C>, t: int)
    requires Inv(c, s) && Enabled(s, a)
    requires OpenSince(s, t) || s.now - t > c.cooldown
    ensures OpenSince(Next(c, s, a), t) || Next(c, s, a).now - t > c.cooldown
    ensures Starts(c, s, a) ==> s.now - t > c.cooldown
  {
  }

  /** Steps that go on from a state. */
  ghost predicate GoesOn<C>(c: Config, s: System<C>, actions: seq<Action<C>>, states: seq<System<C>>) {
    && |states| == |actions| + 1
    && states[0] == s
    && (forall i | 0 <= i < |actions| :: Enabled(states[i], actions[i]) && states[i + 1] == Next(c, states[i], actions[i]))
  }

  lemma {:induction false} OpenUntilCooldown<C>(
    c: Config, s: System<C>, actions: seq<Action<C>>, states: seq<System<C>>, i: nat)
    requires GoesOn(c, s, actions, states) && Inv(c, s) && c.minRequests > 0 && i < |states|
    requires OpenSince(s, s.b.openTime)
    ensures Inv(c, states[i])
    ensures OpenSince(states[i], s.b.openTime) || states[i].now - s.b.openTime > c.cooldown
  {
    if i > 0 {
      var last := i - 1;
      OpenUntilCooldown(c, s, actions, states, last);
      assert Enabled(states[last], actions[last]) && states[i] == Next(c, states[last], actions[last]);
      OpenStepKeeps(c, states[last], actions[last], s.b.openTime);
      StepKeepsInv(c, states[last], actions[last]);
    }
  }

  /** The last of these steps starts a user function although the cooldown since the opening is not over. */
  ghost predicate EarlyStart<C>(c: Config, s: System<C>, actions: seq<Action<C>>, states: seq<System<C>>) {
    && GoesOn(c, s, actions, states) && actions != []
    && Starts(c, states[|actions| - 1], actions[|actions| - 1])
    && states[|actions| - 1].now - s.b.openTime <= c.cooldown
  }

  /** Once open with no trial in flight, no user function starts before the cooldown is over. */
  lemma CooldownIsRespected<C>(c: Config, s: System<C>, actions: seq<Action<C>>, states: seq<System<C>>)
    requires Inv(c, s) && c.minRequests > 0
    requires s.b.state == Open && forall k :: !Trial(s, k)
    ensures !EarlyStart(c, s, actions, states)
  {
    if s.b.halfOpenExecuting {
      var t :| t in s.calls && s.calls[t];
      assert Trial(s, t);
    }
    if GoesOn(c, s, actions, states) && actions != [] {
      var last := |actions| - 1;
      OpenUntilCooldown(c, s, actions, states, last);
      OpenStepKeeps(c, states[last], actions[last], s.b.openTime);
    }
  }

  /** With a trial in flight the cooldown can be cut short: wherever the breaker is open beside a trial, the
      trial's success lets the next call start at once. */
  lemma TrialSuccessEndsCooldown<C>(c: Config, s: System<C>, k: C, next: C)
    returns (actions: seq<Action<C>>, states: seq<System<C>>)
    requires Inv(c, s) && s.b.state == Open && Trial(s, k) && (next !in s.calls || next == k)
    ensures actions == [FinishCall(k, false, 0, 0), BeginCall(next)] && GoesOn(c, s, actions, states)
    ensures states[1].now == s.now && Starts(c, states[1], BeginCall(next))
    ensures s.now - s.b.openTime <= c.cooldown ==> EarlyStart(c, s, actions, states)
  {
    var s1 := Next(c, s, FinishCall(k, false, 0, 0));
    actions := [FinishCall(k, false, 0, 0), BeginCall(next)];
    states := [s, s1, Next(c, s1, BeginCall(next))];
  }

  /** In every run, from an open breaker still within its cooldown some continuation starts a user function
      within that cooldown exactly when a trial is in flight. */
  lemma CooldownHoldsExactlyWithoutTrial<C>(
    cfg: Config, actions: seq<Action<C>>, states: seq<System<C>>, i: nat)
    requires IsRun(ResolveDefaults(cfg), actions, states) && i < |states|
    requires states[i].b.state == Open && states[i].now - states[i].b.openTime <= ResolveDefaults(cfg).cooldown
    ensures (exists more: seq<Action<C>>, after: seq<System<C>> :: EarlyStart(ResolveDefaults(cfg), states[i], more, after))
            <==> exists k :: Trial(states[i], k)
  {
    var c, s := ResolveDefaults(cfg), states[i];
    RunKeepsInv(c, actions, states, i);
    if k :| Trial(s, k) {
      var more, after := TrialSuccessEndsCooldown(c, s, k, k);
      assert EarlyStart(c, s, more, after);
    } else {
      forall more: seq<Action<C>>, after: seq<System<C>> ensures !EarlyStart(c, s, more, after) {
        CooldownIsRespected(c, s, more, after);
      }
    }
  }

  lemma ExtendRun<C>(c: Config, actions: seq<Action<C>>, states: seq<System<C>>, a: Action<C>)
    requires IsRun(c, actions, states) && Enabled(states[|actions|], a)
    ensures IsRun(c, actions + [a], states + [Next(c, states[|actions|], a)])
  {
    var longer, after := actions + [a], states + [Next(c, states[|actions|], a)];
    forall i | 0 <= i < |longer| ensures Enabled(after[i], longer[i]) && after[i + 1] == Next(c, after[i], longer[i]) {
      if i < |actions| {
        assert longer[i] == actions[i] && after[i] == states[i] && after[i + 1] == states[i + 1];
      }
    }
  }

  const QUICK := Config(0.5, 10, 1, 100)

  /** Two calls begin, and the failure of one opens the breaker while the other is in flight. */
  lemma OpenBesideCall<C>(a: C, b: C) returns (actions: seq<Action<C>>, states: seq<System<C>>)
    requires a != b
    ensures IsRun(QUICK, actions, states) && |actions| == 3
    ensures var s := states[3]; s.b == Breaker(Open, 0, [], false) && s.calls == map[a := false] && s.now == 0
  {
    var s0: System<C> := System(NEW, map[], 0, [], -100);
    var s1 := Next(QUICK, s0, BeginCall(a));
    var s2 := Next(QUICK, s1, BeginCall(b));
    assert s2.b == NEW && s2.calls == map[a := false, b := false] && s2.now == 0;
    SingleFailureTrips(QUICK, s2.b, 0);
    var s3 := Next(QUICK, s2, FinishCall(b, true, 0, 0));
    actions, states := [BeginCall(a), BeginCall(b), FinishCall(b, true, 0, 0)], [s0, s1, s2, s3];
  }

  /** After the cooldown a trial begins beside that call. */
  lemma TrialBesideCall<C>(a: C, b: C, t: C) returns (actions: seq<Action<C>>, states: seq<System<C>>)
    requires a != b && b != t && a != t
    ensures IsRun(QUICK, actions, states) && |actions| == 5
    ensures var s := states[5];
            s.b == Breaker(HalfOpen, ZERO_TIME, [], true) && s.calls == map[a := false, t := true] && s.now == 11
  {
    actions, states := OpenBesideCall(a, b);
    ExtendRun(QUICK, actions, states, Tick(11));
    actions, states := actions + [Tick(11)], states + [Next(QUICK, states[3], Tick(11))];
    ExtendRun(QUICK, actions, states, BeginCall(t));
    actions, states := actions + [BeginCall(t)], states + [Next(QUICK, states[4], BeginCall(t))];
  }

  /** Such states arise: a call begun while closed fails late, beside a running trial. */
  lemma LateFailureBesideTrial<C>(a: C, b: C, t: C) returns (c: Config, actions: seq<Action<C>>, states: seq<System<C>>)
    requires a != b && b != t && a != t
    ensures c == ResolveDefaults(c) && IsRun(c, actions, states)
    ensures var s := states[|actions|]; s.b.state == Open && s.calls == map[t := true] && s.now == s.b.openTime
  {
    c := QUICK;
    actions, states := TrialBesideCall(a, b, t);
    SingleFailureTrips(c, states[5].b, 11);
    ExtendRun(c, actions, states, FinishCall(a, true, 0, 0));
    actions, states := actions + [FinishCall(a, true, 0, 0)], states + [Next(c, states[5], FinishCall(a, true, 0, 0))];
  }

  /** A whole run, from a new breaker, in which a user function starts within the cooldown of an opening. */
  lemma CooldownCutShort<C>(a: C, b: C, t: C, n: C)
    returns (c: Config, actions: seq<Action<C>>, states: seq<System<C>>, trip: nat)
    requires a != b && b != t && a != t && n != a && n != b && n != t
    ensures c == ResolveDefaults(c) && IsRun(c, actions, states)
    ensures trip + 2 == |actions| && states[trip].b.state == Open
    ensures actions[trip..] == [FinishCall(t, false, 0, 0), BeginCall(n)]
    ensures Starts(c, states[trip + 1], BeginCall(n))
    ensures states[trip + 1].now - states[trip].b.openTime <= c.cooldown
  {
    var first, before := [], [];
    c, first, before := LateFailureBesideTrial(a, b, t);
    trip := |first|;
    var s := before[trip];
    RunKeepsInv(c, first, before, trip);
    var more, after := TrialSuccessEndsCooldown(c, s, t, n);
    actions, states := first + more, before[..trip] + after;
  }

  lemma SingleFailureTrips(c: Config, b: Breaker, t: int)
    requires b.records == [] && c.minRequests <= 1 && c.threshold <= 1.0 && c.window > 0
    ensures Finish(c, b, false, true, t, t, t) == TransitionTo(b.(records := [Record(t, true)]), Open, t)
  {
    var one := [Record(t, true)];
    assert b.records + one == one;
    assert Prune(one, t - c.window) == one;
    OneFailureTrips(c, t);
  }

  lemma OneFailureTrips(c: Config, t: int)
    requires c.minRequests <= 1 && c.threshold <= 1.0
    ensures Trips(c, [Record(t, true)])
  {
    var one := [Record(t, true)];
    assert Failures(one) == 1 by {
      assert one[..0] == [];
    }
    assert 1 as real / 1 as real == 1.0;
  }

  // ---- The object ----

  class CircuitBreaker {
    const cfg: Config
    var state: State
    var openTime: int
    var records: seq<Record>
    var halfOpenExecuting: bool

    ghost function View(): Breaker
      reads this
    {
      Breaker(state, openTime, records, halfOpenExecuting)
    }

    predicate Valid() {
      cfg == ResolveDefaults(cfg)
    }

    constructor (cfg: Config)
      ensures Valid() && this.cfg == ResolveDefaults(cfg) && View() == NEW
    {
      this.cfg := ResolveDefaults(cfg);
      state, openTime, records, halfOpenExecuting := Closed, ZERO_TIME, [], false;
    }

    /** Do, up to the user function. */
    method BeginSection(now: int) returns (v: Verdict)
      modifies this
      ensures v == BeginVerdict(cfg, old(View()), now) && View() == Begin(cfg, old(View()), now)
    {
      CheckStateNow(now);
      if state == Open {
        return Rejected;
      }
      if state == HalfOpen {
        if halfOpenExecuting {
          return Rejected;
        }
        halfOpenExecuting := true;
      }
      return Run(state == HalfOpen);
    }

    /** Do, after the user function. */
    method FinishSection(trial: bool, failed: bool, t1: int, t2: int, t3: int)
      requires Valid()
      modifies this
      ensures View() == Finish(cfg, old(View()), trial, failed, t1, t2, t3)
    {
      if trial {
        halfOpenExecuting := false;
        if failed {
          Transition(Open, t3);
        } else {
          Transition(Closed, ZERO_TIME);
        }
        return;
      }
      records := records + [Record(t1, failed)];
      PruneRecords(t2);
      if |records| >= cfg.minRequests {
        var failures := CountFailures(records);
        var ratio := failures as real / |records| as real;
        if ratio >= cfg.threshold {
          Transition(Open, t3);
        }
      }
    }

    method QueryState(now: int) returns (r: State)
      modifies this
      ensures View() == CheckState(cfg, old(View()), now) && r == state
    {
      CheckStateNow(now);
      r := state;
    }

    method CheckStateNow(now: int)
      modifies this
      ensures View() == CheckState(cfg, old(View()), now)
    {
      if state == Open && now - openTime > cfg.cooldown {
        Transition(HalfOpen, ZERO_TIME);
      }
    }

    method Transition(target: State, at: int)
      modifies this
      ensures View() == TransitionTo(old(View()), target, at)
    {
      if state == target {
        return;
      }
      state := target;
      openTime := at;
      if target == Closed || target == Open {
        records := [];
      }
    }

    method PruneRecords(now: int)
      modifies this`records
      ensures records == Prune(old(records), now - cfg.window)
    {
      var cutoff := now - cfg.window;
      var i := 0;
      while i < |records| && records[i].t < cutoff
        invariant 0 <= i <= |records| && records == old(records)
        invariant Prune(records, cutoff) == Prune(records[i..], cutoff)
      {
        assert records[i..][1..] == records[i + 1..];
        i := i + 1;
      }
      if i > 0 {
        records := records[i..];
      }
    }
  }

  method CountFailures(records: seq<Record>) returns (failures: nat)
    ensures failures == |set i | 0 <= i < |records| && records[i].failed|
    ensures failures == Failures(records)
  {
    failures := 0;
    for i := 0 to |records|
      invariant failures == Failures(records[..i])
    {
      assert records[..i + 1][..i] == records[..i];
      if records[i].failed {
        failures := failures + 1;
      }
    }
    assert records[..|records|] == records;
    FailuresCount(records);
  }
}
