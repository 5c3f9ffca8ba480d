/** Duplicate call suppression: callers that join, leave and receive, workers that finish or panic, over one
    map of calls in flight. The two mutexes of a section are taken as one atomic step. */
module Batto {

  /** A caller is known by the result channel it made. */
  type Chan = nat

  /** What a worker's function did; a value stands for the result and the error it returned. */
  datatype Outcome<V> = Value(v: V) | Panic

  /** What is sent to a waiting caller. */
  datatype Reply<V> = Shared(v: V) | WorkerPanicked | Rethrow

  datatype Call<K> = Call(key: K, waiters: set<Chan>, initiator: Chan, done: bool, cancelled: bool)

  datatype Group<K(==), C(==), V> = Group(m: map<K, C>, calls: map<C, Call<K>>, chans: map<Chan, seq<Reply<V>>>)

  // ---- The critical sections ----

  /** `c` is the call found for the key, or a new one. */
  predicate CanJoin<K, C, V>(g: Group<K, C, V>, k: K, c: C, ch: Chan) {
    ch !in g.chans && if k in g.m then c == g.m[k] && c in g.calls else c !in g.calls
  }

  /** Do has a branch for a finished call in the map; taking it ends in an error or in a double unlock. */
  predicate FindsDone<K, C, V>(g: Group<K, C, V>, k: K) {
    k in g.m && g.m[k] in g.calls && g.calls[g.m[k]].done
  }

  /** The section of Do: start a call, or wait for the one in flight. */
  function Join<K, C, V>(g: Group<K, C, V>, k: K, c: C, ch: Chan): Group<K, C, V>
    requires CanJoin(g, k, c, ch)
  {
    var call := if k in g.m then g.calls[c].(waiters := g.calls[c].waiters + {ch}) else Call(k, {ch}, ch, false, false);
    Group(g.m[k := c], g.calls[c := call], g.chans[ch := []])
  }

  /** The section of a caller whose context is done before its call. */
  function Abandon<K, C, V>(g: Group<K, C, V>, k: K, c: C, ch: Chan): Group<K, C, V>
    requires c in g.calls
  {
    var left := g.calls[c].waiters - {ch};
    if left == {} then
      g.(m := g.m - {k}, calls := g.calls[c := g.calls[c].(waiters := left, cancelled := true)])
    else
      g.(calls := g.calls[c := g.calls[c].(waiters := left)])
  }

  function ReplyTo<V>(initiator: Chan, outcome: Outcome<V>, ch: Chan): Reply<V> {
    match outcome
    case Value(v) => Shared(v)
    case Panic => if ch == initiator then Rethrow else WorkerPanicked
  }

  /** One reply into the channel of every waiter. */
  function Deliver<V>(waiters: set<Chan>, initiator: Chan, outcome: Outcome<V>, chans: map<Chan, seq<Reply<V>>>)
    : map<Chan, seq<Reply<V>>>
  {
    map ch | ch in chans :: if ch in waiters then chans[ch] + [ReplyTo(initiator, outcome, ch)] else chans[ch]
  }

  /** The section of a worker whose function ended: the key is deleted, whatever call it now maps to,
      and every waiter is sent its reply. */
  function Complete<K, C, V>(g: Group<K, C, V>, k: K, c: C, outcome: Outcome<V>): Group<K, C, V>
    requires c in g.calls
  {
    Group(g.m - {k}, g.calls[c := g.calls[c].(done := true)],
          Deliver(g.calls[c].waiters, g.calls[c].initiator, outcome, g.chans))
  }

  // ---- The system ----

  datatype Return<V> = Replied(r: Reply<V>) | ContextError

  datatype System<K(==), C(==), V> = System(
    g: Group<K, C, V>,
    running: set<C>,                   // calls whose function has not ended
    waiting: map<Chan, C>,             // callers in wait
    ended: map<Chan, Return<V>>,     // callers that returned
    joined: map<Chan, C>,              // every caller's call
    outcomes: map<C, Outcome<V>>,      // of the calls that ended
    lostKeys: set<K>,                  // keys of calls that lost all their waiters
    lateJoin: bool)                    // some caller found a finished call in the map

  datatype Action<K, C, V> =
    | Do(ch: Chan, k: K, c: C)
    | Receive(ch: Chan)
    | SeeDone(ch: Chan)               // the caller's context is done
    | EndRun(c: C, outcome: Outcome<V>)

  predicate Enabled<K, C, V>(s: System<K, C, V>, a: Action<K, C, V>) {
    match a
    case Do(ch, k, c) => CanJoin(s.g, k, c, ch)
    case Receive(ch) => ch in s.waiting && ch in s.g.chans && s.g.chans[ch] != []
    case SeeDone(ch) =>
      // a caller that finds its call done blocks on its channel
      && ch in s.waiting && s.waiting[ch] in s.g.calls
      && (s.g.calls[s.waiting[ch]].done ==> ch in s.g.chans && s.g.chans[ch] != [])
    case EndRun(c, _) => c in s.running && c in s.g.calls
  }

  function Take<K, C, V>(s: System<K, C, V>, ch: Chan): System<K, C, V>
    requires ch in s.g.chans && s.g.chans[ch] != []
  {
    s.(g := s.g.(chans := s.g.chans[ch := s.g.chans[ch][1..]]), waiting := s.waiting - {ch},
       ended := s.ended[ch := Replied(s.g.chans[ch][0])])
  }

  function JoinStep<K, C, V>(s: System<K, C, V>, ch: Chan, k: K, c: C): System<K, C, V>
    requires CanJoin(s.g, k, c, ch)
  {
    s.(g := Join(s.g, k, c, ch), running := if k in s.g.m then s.running else s.running + {c},
       waiting := s.waiting[ch := c], joined := s.joined[ch := c])
  }

  function Next<K, C, V>(s: System<K, C, V>, a: Action<K, C, V>): System<K, C, V>
    requires Enabled(s, a)
  {
    match a
    case Do(ch, k, c) =>
      if FindsDone(s.g, k) then s.(lateJoin := true) else JoinStep(s, ch, k, c)
    case Receive(ch) => Take(s, ch)
    case SeeDone(ch) =>
      var c := s.waiting[ch];
      if s.g.calls[c].done then Take(s, ch)
      else
        var k := s.g.calls[c].key;
        s.(g := Abandon(s.g, k, c, ch), waiting := s.waiting - {ch}, ended := s.ended[ch := ContextError],
           lostKeys := if s.g.calls[c].waiters - {ch} == {} then s.lostKeys + {k} else s.lostKeys)
    case EndRun(c, outcome) =>
      s.(g := Complete(s.g, s.g.calls[c].key, c, outcome), running := s.running - {c}, outcomes := s.outcomes[c := outcome])
  }

  // ---- The invariant ----

  /** Every call in the map is unfinished, not cancelled, filed under its key, and has a waiter. */
  ghost predicate MapIsLive<K, C, V>(s: System<K, C, V>) {
    forall k | k in s.g.m ::
      && s.g.m[k] in s.running && s.g.m[k] in s.g.calls
      && s.g.calls[s.g.m[k]].key == k
      && !s.g.calls[s.g.m[k]].cancelled
  }

  ghost predicate RunsAreConsistent<K, C, V>(s: System<K, C, V>) {
    && s.running <= s.g.calls.Keys
    && s.outcomes.Keys == s.g.calls.Keys - s.running
    && (forall c | c in s.g.calls :: s.g.calls[c].done <==> c !in s.running)
    && (forall c | c in s.running :: s.g.calls[c].cancelled <==> s.g.calls[c].waiters == {})
  }

  ghost function WaitersOf<C>(waiting: map<Chan, C>, c: C): set<Chan> {
    set ch | ch in waiting && waiting[ch] == c
  }

  lemma WaitersOfUpdate<C>(waiting: map<Chan, C>, ch: Chan, c: C, d: C)
    ensures ch !in waiting ==>
              WaitersOf(waiting[ch := c], d) == if d == c then WaitersOf(waiting, d) + {ch} else WaitersOf(waiting, d)
    ensures WaitersOf(waiting - {ch}, d) == WaitersOf(waiting, d) - {ch}
  {
  }

  /** The waiters of a running call are its waiting callers. */
  ghost predicate WaitersAreConsistent<K, C, V>(s: System<K, C, V>) {
    && (forall c | c in s.running && c in s.g.calls :: s.g.calls[c].waiters == WaitersOf(s.waiting, c))
    && (forall ch | ch in s.waiting :: s.waiting[ch] in s.g.calls && ch in s.g.calls[s.waiting[ch]].waiters)
  }

  /** Every caller waits or has returned. */
  ghost predicate CallersAreConsistent<K, C, V>(s: System<K, C, V>) {
    && s.g.chans.Keys == s.joined.Keys == s.waiting.Keys + s.ended.Keys
    && s.waiting.Keys !! s.ended.Keys
    && (forall ch | ch in s.waiting :: s.joined[ch] == s.waiting[ch])
    && (forall ch | ch in s.joined :: s.joined[ch] in s.g.calls)
  }

  /** A channel is empty until its call ends, then holds the one reply, and is empty again once received. */
  ghost predicate ChannelsAreConsistent<K, C, V>(s: System<K, C, V>) {
    forall ch | ch in s.g.chans && ch in s.joined && s.joined[ch] in s.g.calls :: s.g.chans[ch] == Contents(s, ch)
  }

  ghost function Contents<K, C, V>(s: System<K, C, V>, ch: Chan): seq<Reply<V>>
    requires ch in s.joined && s.joined[ch] in s.g.calls
  {
    if ch in s.waiting && s.joined[ch] in s.outcomes
    then [ReplyTo(s.g.calls[s.joined[ch]].initiator, s.outcomes[s.joined[ch]], ch)]
    else []
  }

  /** Whoever got a reply got the one its call's outcome gives it. */
  ghost predicate RepliesAreRight<K, C, V>(s: System<K, C, V>) {
    forall ch | ch in s.ended && s.ended[ch].Replied? ::
      && ch in s.joined && s.joined[ch] in s.outcomes && s.joined[ch] in s.g.calls
      && s.ended[ch].r == ReplyTo(s.g.calls[s.joined[ch]].initiator, s.outcomes[s.joined[ch]], ch)
  }

  /** On a key whose calls never lost all their waiters, the map holds the only running call. */
  ghost predicate OneWorkerPerKey<K, C, V>(s: System<K, C, V>) {
    forall c | c in s.running && c in s.g.calls && s.g.calls[c].key !in s.lostKeys ::
      s.g.calls[c].key in s.g.m && s.g.m[s.g.calls[c].key] == c
  }

  ghost predicate Inv<K, C, V>(s: System<K, C, V>) {
    && !s.lateJoin
    && MapIsLive(s) && RunsAreConsistent(s) && WaitersAreConsistent(s)
    && CallersAreConsistent(s) && ChannelsAreConsistent(s) && RepliesAreRight(s) && OneWorkerPerKey(s)
  }

  /** A call in the map has not ended, so Do starts a call or joins the one there. */
  lemma DoJoins<K, C, V>(s: System<K, C, V>, ch: Chan, k: K, c: C)
    requires MapIsLive(s) && RunsAreConsistent(s) && Enabled(s, Do(ch, k, c))
    ensures Next(s, Do(ch, k, c)) == JoinStep(s, ch, k, c)
  {
  }

  lemma JoinKeepsMap<K, C, V>(s: System<K, C, V>, ch: Chan, k: K, c: C)
    requires MapIsLive(s) && CanJoin(s.g, k, c, ch)
    ensures MapIsLive(JoinStep(s, ch, k, c))
  {
  }

  lemma JoinKeepsRuns<K, C, V>(s: System<K, C, V>, ch: Chan, k: K, c: C)
    requires MapIsLive(s) && RunsAreConsistent(s) && CanJoin(s.g, k, c, ch)
    ensures RunsAreConsistent(JoinStep(s, ch, k, c))
  {
  }

  lemma JoinKeepsOneWorker<K, C, V>(s: System<K, C, V>, ch: Chan, k: K, c: C)
    requires MapIsLive(s) && RunsAreConsistent(s) && OneWorkerPerKey(s) && CanJoin(s.g, k, c, ch)
    ensures OneWorkerPerKey(JoinStep(s, ch, k, c))
  {
  }

  lemma JoinKeepsCallers<K, C, V>(s: System<K, C, V>, ch: Chan, k: K, c: C)
    requires CallersAreConsistent(s) && CanJoin(s.g, k, c, ch)
    ensures CallersAreConsistent(JoinStep(s, ch, k, c))
  {
  }

  lemma DoKeepsCalls<K, C, V>(s: System<K, C, V>, ch: Chan, k: K, c: C)
    requires MapIsLive(s) && RunsAreConsistent(s) && OneWorkerPerKey(s)
    requires Enabled(s, Do(ch, k, c))
    ensures var s' := Next(s, Do(ch, k, c)); MapIsLive(s') && RunsAreConsistent(s') && OneWorkerPerKey(s')
  {
    DoJoins(s, ch, k, c);
    JoinKeepsMap(s, ch, k, c);
    JoinKeepsRuns(s, ch, k, c);
    JoinKeepsOneWorker(s, ch, k, c);
  }

  lemma DoKeepsWaiterSet<K, C, V>(s: System<K, C, V>, ch: Chan, k: K, c: C, d: C)
    requires RunsAreConsistent(s) && WaitersAreConsistent(s) && s.waiting.Keys <= s.g.chans.Keys
    requires Enabled(s, Do(ch, k, c)) && !FindsDone(s.g, k)
    requires var s' := Next(s, Do(ch, k, c)); d in s'.running && d in s'.g.calls
    ensures var s' := Next(s, Do(ch, k, c)); s'.g.calls[d].waiters == WaitersOf(s'.waiting, d)
  {
    WaitersOfUpdate(s.waiting, ch, c, d);
    if d == c && k !in s.g.m {
      assert WaitersOf(s.waiting, c) == {};
    }
  }

  lemma DoKeepsWaiters<K, C, V>(s: System<K, C, V>, ch: Chan, k: K, c: C)
    requires MapIsLive(s) && RunsAreConsistent(s) && WaitersAreConsistent(s) && CallersAreConsistent(s)
    requires Enabled(s, Do(ch, k, c))
    ensures WaitersAreConsistent(Next(s, Do(ch, k, c)))
  {
    var s' := Next(s, Do(ch, k, c));
    if !FindsDone(s.g, k) {
      forall d | d in s'.running && d in s'.g.calls ensures s'.g.calls[d].waiters == WaitersOf(s'.waiting, d) {
        DoKeepsWaiterSet(s, ch, k, c, d);
      }
    }
  }

  lemma DoKeepsCallers<K, C, V>(s: System<K, C, V>, ch: Chan, k: K, c: C)
    requires MapIsLive(s) && RunsAreConsistent(s) && CallersAreConsistent(s)
    requires Enabled(s, Do(ch, k, c))
    ensures CallersAreConsistent(Next(s, Do(ch, k, c)))
  {
    DoJoins(s, ch, k, c);
    JoinKeepsCallers(s, ch, k, c);
  }

  lemma DoKeepsChannels<K, C, V>(s: System<K, C, V>, ch: Chan, k: K, c: C)
    requires MapIsLive(s) && RunsAreConsistent(s) && CallersAreConsistent(s) && ChannelsAreConsistent(s)
    requires Enabled(s, Do(ch, k, c))
    ensures ChannelsAreConsistent(Next(s, Do(ch, k, c)))
  {
  }

  lemma DoKeepsReplies<K, C, V>(s: System<K, C, V>, ch: Chan, k: K, c: C)
    requires MapIsLive(s) && RunsAreConsistent(s) && CallersAreConsistent(s) && RepliesAreRight(s)
    requires Enabled(s, Do(ch, k, c))
    ensures RepliesAreRight(Next(s, Do(ch, k, c)))
  {
  }

  lemma DoKeepsInv<K, C, V>(s: System<K, C, V>, ch: Chan, k: K, c: C)
    requires Inv(s) && Enabled(s, Do(ch, k, c))
    ensures Inv(Next(s, Do(ch, k, c)))
  {
    DoKeepsCalls(s, ch, k, c);
    DoKeepsWaiters(s, ch, k, c);
    DoKeepsCallers(s, ch, k, c);
    DoKeepsChannels(s, ch, k, c);
    DoKeepsReplies(s, ch, k, c);
  }

  lemma AbandonKeepsCalls<K, C, V>(s: System<K, C, V>, ch: Chan)
    requires MapIsLive(s) && RunsAreConsistent(s) && OneWorkerPerKey(s)
    requires Enabled(s, SeeDone(ch)) && !s.g.calls[s.waiting[ch]].done
    ensures MapIsLive(Next(s, SeeDone(ch))) && OneWorkerPerKey(Next(s, SeeDone(ch)))
  {
  }

  lemma AbandonKeepsRuns<K, C, V>(s: System<K, C, V>, ch: Chan)
    requires RunsAreConsistent(s)
    requires Enabled(s, SeeDone(ch)) && !s.g.calls[s.waiting[ch]].done && ch in s.g.calls[s.waiting[ch]].waiters
    ensures RunsAreConsistent(Next(s, SeeDone(ch)))
  {
    var s', c := Next(s, SeeDone(ch)), s.waiting[ch];
    assert s'.g.calls.Keys == s.g.calls.Keys;
    forall d | d in s'.running ensures s'.g.calls[d].cancelled <==> s'.g.calls[d].waiters == {} {
      if d != c {
        assert s'.g.calls[d] == s.g.calls[d];
      }
    }
  }

  lemma AbandonKeepsWaiters<K, C, V>(s: System<K, C, V>, ch: Chan)
    requires WaitersAreConsistent(s)
    requires Enabled(s, SeeDone(ch)) && !s.g.calls[s.waiting[ch]].done
    ensures WaitersAreConsistent(Next(s, SeeDone(ch)))
  {
    var s' := Next(s, SeeDone(ch));
    forall d | d in s'.running && d in s'.g.calls ensures s'.g.calls[d].waiters == WaitersOf(s'.waiting, d) {
      WaitersOfUpdate(s.waiting, ch, d, d);
    }
  }

  lemma AbandonKeepsCallers<K, C, V>(s: System<K, C, V>, ch: Chan)
    requires WaitersAreConsistent(s) && CallersAreConsistent(s)
    requires Enabled(s, SeeDone(ch)) && !s.g.calls[s.waiting[ch]].done
    ensures CallersAreConsistent(Next(s, SeeDone(ch)))
  {
  }

  lemma AbandonKeepsChannels<K, C, V>(s: System<K, C, V>, ch: Chan)
    requires RunsAreConsistent(s) && WaitersAreConsistent(s) && CallersAreConsistent(s) && ChannelsAreConsistent(s)
    requires Enabled(s, SeeDone(ch)) && !s.g.calls[s.waiting[ch]].done
    ensures ChannelsAreConsistent(Next(s, SeeDone(ch)))
  {
  }

  lemma AbandonKeepsReplies<K, C, V>(s: System<K, C, V>, ch: Chan)
    requires RunsAreConsistent(s) && WaitersAreConsistent(s) && CallersAreConsistent(s) && RepliesAreRight(s)
    requires Enabled(s, SeeDone(ch)) && !s.g.calls[s.waiting[ch]].done
    ensures RepliesAreRight(Next(s, SeeDone(ch)))
  {
  }

  lemma AbandonKeepsInv<K, C, V>(s: System<K, C, V>, ch: Chan)
    requires Inv(s) && Enabled(s, SeeDone(ch)) && !s.g.calls[s.waiting[ch]].done
    ensures Inv(Next(s, SeeDone(ch)))
  {
    AbandonKeepsCalls(s, ch);
    AbandonKeepsRuns(s, ch);
    AbandonKeepsWaiters(s, ch);
    AbandonKeepsCallers(s, ch);
    AbandonKeepsChannels(s, ch);
    AbandonKeepsReplies(s, ch);
  }

  lemma EndKeepsCalls<K, C, V>(s: System<K, C, V>, c: C, outcome: Outcome<V>)
    requires MapIsLive(s) && RunsAreConsistent(s) && OneWorkerPerKey(s)
    requires Enabled(s, EndRun(c, outcome))
    ensures var s' := Next(s, EndRun(c, outcome)); MapIsLive(s') && RunsAreConsistent(s') && OneWorkerPerKey(s')
  {
  }

  lemma EndKeepsWaiters<K, C, V>(s: System<K, C, V>, c: C, outcome: Outcome<V>)
    requires RunsAreConsistent(s) && WaitersAreConsistent(s)
    requires Enabled(s, EndRun(c, outcome))
    ensures WaitersAreConsistent(Next(s, EndRun(c, outcome)))
  {
  }

  lemma EndKeepsCallers<K, C, V>(s: System<K, C, V>, c: C, outcome: Outcome<V>)
    requires RunsAreConsistent(s) && CallersAreConsistent(s) && RepliesAreRight(s)
    requires Enabled(s, EndRun(c, outcome))
    ensures CallersAreConsistent(Next(s, EndRun(c, outcome))) && RepliesAreRight(Next(s, EndRun(c, outcome)))
  {
  }

  lemma EndFillsChannel<K, C, V>(s: System<K, C, V>, c: C, outcome: Outcome<V>, ch: Chan)
    requires Enabled(s, EndRun(c, outcome)) && c !in s.outcomes
    requires ch in s.g.chans && ch in s.joined && s.joined[ch] in s.g.calls && s.g.chans[ch] == Contents(s, ch)
    requires ch in s.g.calls[c].waiters ==> ch in s.waiting && s.joined[ch] == c
    requires ch in s.waiting && s.joined[ch] == c ==> ch in s.g.calls[c].waiters
    ensures Next(s, EndRun(c, outcome)).g.chans[ch] == Contents(Next(s, EndRun(c, outcome)), ch)
  {
  }

  lemma EndKeepsChannels<K, C, V>(s: System<K, C, V>, c: C, outcome: Outcome<V>)
    requires RunsAreConsistent(s) && WaitersAreConsistent(s) && CallersAreConsistent(s) && ChannelsAreConsistent(s)
    requires Enabled(s, EndRun(c, outcome))
    ensures ChannelsAreConsistent(Next(s, EndRun(c, outcome)))
  {
    var s' := Next(s, EndRun(c, outcome));
    forall ch | ch in s'.g.chans && ch in s'.joined && s'.joined[ch] in s'.g.calls
      ensures s'.g.chans[ch] == Contents(s', ch)
    {
      assert s.g.chans[ch] == Contents(s, ch);
      EndFillsChannel(s, c, outcome, ch);
    }
  }

  lemma EndKeepsInv<K, C, V>(s: System<K, C, V>, c: C, outcome: Outcome<V>)
    requires Inv(s) && Enabled(s, EndRun(c, outcome))
    ensures Inv(Next(s, EndRun(c, outcome)))
  {
    EndKeepsCalls(s, c, outcome);
    EndKeepsWaiters(s, c, outcome);
    EndKeepsCallers(s, c, outcome);
    EndKeepsChannels(s, c, outcome);
  }

  lemma TakeKeepsWaiters<K, C, V>(s: System<K, C, V>, ch: Chan)
    requires RunsAreConsistent(s) && WaitersAreConsistent(s) && CallersAreConsistent(s)
    requires ch in s.waiting && ch in s.g.chans && s.g.chans[ch] != [] && s.waiting[ch] !in s.running
    ensures WaitersAreConsistent(Take(s, ch))
  {
    forall d | d in s.running && d in s.g.calls ensures s.g.calls[d].waiters == WaitersOf(Take(s, ch).waiting, d) {
      WaitersOfUpdate(s.waiting, ch, d, d);
    }
  }

  lemma TakeKeepsCalls<K, C, V>(s: System<K, C, V>, ch: Chan)
    requires MapIsLive(s) && RunsAreConsistent(s) && OneWorkerPerKey(s)
    requires ch in s.g.chans && s.g.chans[ch] != []
    ensures MapIsLive(Take(s, ch)) && RunsAreConsistent(Take(s, ch)) && OneWorkerPerKey(Take(s, ch))
  {
  }

  lemma TakeKeepsCallers<K, C, V>(s: System<K, C, V>, ch: Chan)
    requires CallersAreConsistent(s)
    requires ch in s.waiting && ch in s.g.chans && s.g.chans[ch] != []
    ensures CallersAreConsistent(Take(s, ch))
  {
  }

  lemma TakeKeepsChannels<K, C, V>(s: System<K, C, V>, ch: Chan)
    requires CallersAreConsistent(s) && ChannelsAreConsistent(s)
    requires ch in s.waiting && ch in s.g.chans && s.g.chans[ch] != []
    ensures ChannelsAreConsistent(Take(s, ch))
  {
  }

  lemma TakeKeepsReplies<K, C, V>(s: System<K, C, V>, ch: Chan)
    requires RunsAreConsistent(s) && CallersAreConsistent(s) && ChannelsAreConsistent(s) && RepliesAreRight(s)
    requires ch in s.waiting && ch in s.g.chans && s.g.chans[ch] != []
    ensures RepliesAreRight(Take(s, ch))
  {
    assert s.g.chans[ch] == Contents(s, ch);
  }

  lemma TakeKeepsInv<K, C, V>(s: System<K, C, V>, ch: Chan)
    requires Inv(s) && ch in s.waiting && ch in s.g.chans && s.g.chans[ch] != []
    ensures Inv(Take(s, ch))
  {
    assert s.joined[ch] in s.outcomes;
    TakeKeepsWaiters(s, ch);
    TakeKeepsCalls(s, ch);
    TakeKeepsCallers(s, ch);
    TakeKeepsChannels(s, ch);
    TakeKeepsReplies(s, ch);
  }

  lemma StepKeepsInv<K, C, V>(s: System<K, C, V>, a: Action<K, C, V>)
    requires Inv(s) && Enabled(s, a)
    ensures Inv(Next(s, a))
  {
    match a
    case Do(ch, k, c) => DoKeepsInv(s, ch, k, c);
    case Receive(ch) => TakeKeepsInv(s, ch);
    case SeeDone(ch) =>
      if s.g.calls[s.waiting[ch]].done {
        TakeKeepsInv(s, ch);
      } else {
        AbandonKeepsInv(s, ch);
      }
    case EndRun(c, outcome) => EndKeepsInv(s, c, outcome);
  }

  // ---- Runs ----

  ghost predicate IsRun<K, C, V>(actions: seq<Action<K, C, V>>, states: seq<System<K, C, V>>) {
    && |states| == |actions| + 1
    && states[0] == System(Group(map[], map[], map[]), {}, map[], map[], map[], map[], {}, false)
    && (forall i | 0 <= i < |actions| :: Enabled(states[i], actions[i]) && states[i + 1] == Next(states[i], actions[i]))
  }

  lemma {:induction false} RunKeepsInv<K, C, V>(actions: seq<Action<K, C, V>>, states: seq<System<K, C, V>>, i: nat)
    requires IsRun(actions, states) && i < |states|
    ensures Inv(states[i])
  {
    if i > 0 {
      RunKeepsInv(actions, states, i - 1);
      StepKeepsInv(states[i - 1], actions[i - 1]);
    }
  }

  /** In every run a caller that finds a call in the map joins a live one: its function has not ended, it is
      not cancelled, and somebody waits for it; the branch for a finished call is never taken. */
  lemma JoinersFindLiveCalls<K, C, V>(actions: seq<Action<K, C, V>>, states: seq<System<K, C, V>>, i: nat, k: K)
    requires IsRun(actions, states) && i < |states| && k in states[i].g.m
    ensures var s := states[i];
            s.g.m[k] in s.running && s.g.m[k] in s.g.calls
            && !s.lateJoin && !FindsDone(s.g, k)
            && !s.g.calls[s.g.m[k]].cancelled && s.g.calls[s.g.m[k]].waiters != {}
  {
    RunKeepsInv(actions, states, i);
  }

  /** In every run: a caller whose call has ended finds exactly one reply in its channel and any other channel
      is empty, so a cancelled caller never blocks. When the function returned, the reply shares what it returned;
      when it panicked, the reply raises the panic again at the initiator and reports it to everybody else. */
  lemma RepliesAreDeliveredOnce<K, C, V>(actions: seq<Action<K, C, V>>, states: seq<System<K, C, V>>, i: nat, ch: Chan)
    requires IsRun(actions, states) && i < |states| && ch in states[i].joined
    ensures var s := states[i];
            && ch in s.g.chans && s.joined[ch] in s.g.calls
            && |s.g.chans[ch]| == (if ch in s.waiting && s.g.calls[s.joined[ch]].done then 1 else 0)
            && (ch in s.waiting ==> Enabled(s, SeeDone(ch)))
            && (ch in s.ended && s.ended[ch].Replied? ==>
                  && s.joined[ch] in s.outcomes
                  && (s.outcomes[s.joined[ch]].Value? <==> s.ended[ch].r.Shared?)
                  && (s.outcomes[s.joined[ch]].Value? ==> s.ended[ch].r == Shared(s.outcomes[s.joined[ch]].v))
                  && (s.outcomes[s.joined[ch]].Panic? ==>
                        s.ended[ch].r == if ch == s.g.calls[s.joined[ch]].initiator then Rethrow else WorkerPanicked))
  {
    RunKeepsInv(actions, states, i);
    assert states[i].g.chans[ch] == Contents(states[i], ch);
  }

  /** In every run the initiator of a call is the caller whose Do started it. */
  lemma {:induction false} InitiatorStarted<K, C, V>(
    actions: seq<Action<K, C, V>>, states: seq<System<K, C, V>>, i: nat, c: C)
    requires IsRun(actions, states) && i < |states| && c in states[i].g.calls
    ensures exists j :: 0 <= j < i && c !in states[j].g.calls
                        && actions[j] == Do(states[i].g.calls[c].initiator, states[i].g.calls[c].key, c)
  {
    var last := i - 1;
    assert Enabled(states[last], actions[last]) && states[i] == Next(states[last], actions[last]);
    RunKeepsInv(actions, states, last);
    if c in states[last].g.calls {
      InitiatorStarted(actions, states, last, c);
      CallsKeepInitiator(states[last], actions[last], c);
    } else {
      CallsStartWithInitiator(states[last], actions[last], c);
    }
  }

  lemma CallsKeepInitiator<K, C, V>(s: System<K, C, V>, a: Action<K, C, V>, c: C)
    requires MapIsLive(s) && Enabled(s, a) && c in s.g.calls
    ensures var calls := Next(s, a).g.calls;
            c in calls && calls[c].initiator == s.g.calls[c].initiator && calls[c].key == s.g.calls[c].key
  {
    match a
    case Do(ch, k, d) =>
    case Receive(ch) =>
    case SeeDone(ch) => SeeDoneKeepsInitiator(s, ch, c);
    case EndRun(d, outcome) =>
  }

  lemma SeeDoneKeepsInitiator<K, C, V>(s: System<K, C, V>, ch: Chan, c: C)
    requires Enabled(s, SeeDone(ch)) && c in s.g.calls
    ensures var calls := Next(s, SeeDone(ch)).g.calls;
            c in calls && calls[c].initiator == s.g.calls[c].initiator && calls[c].key == s.g.calls[c].key
  {
  }

  lemma CallsStartWithInitiator<K, C, V>(s: System<K, C, V>, a: Action<K, C, V>, c: C)
    requires Enabled(s, a) && c !in s.g.calls && c in Next(s, a).g.calls
    ensures a.Do? && a == Do(Next(s, a).g.calls[c].initiator, Next(s, a).g.calls[c].key, c)
  {
  }

  /** In every run, a key none of whose calls has lost all its waiters has at most one function running. */
  lemma AtMostOneWorker<K, C, V>(actions: seq<Action<K, C, V>>, states: seq<System<K, C, V>>, i: nat, c: C, c': C)
    requires IsRun(actions, states) && i < |states|
    requires c in states[i].running && c' in states[i].running
    requires c in states[i].g.calls && c' in states[i].g.calls && states[i].g.calls[c].key == states[i].g.calls[c'].key
    requires states[i].g.calls[c].key !in states[i].lostKeys
    ensures c == c'
  {
    RunKeepsInv(actions, states, i);
  }

  // ---- Exactly when two functions of one key run ----

  predicate RunsFor<K, C, V>(s: System<K, C, V>, k: K, c: C) {
    c in s.running && c in s.g.calls && s.g.calls[c].key == k
  }

  ghost predicate AtMostOne<K, C(!new), V>(s: System<K, C, V>, k: K) {
    forall c, c' | RunsFor(s, k, c) && RunsFor(s, k, c') :: c == c'
  }

  /** The step is a call of Do for a key that is not in the map although a function of it still runs. */
  ghost predicate StartsBeside<K, C(!new), V>(s: System<K, C, V>, a: Action<K, C, V>, k: K) {
    a.Do? && a.k == k && k !in s.g.m && exists c :: RunsFor(s, k, c)
  }

  lemma DoRunsFor<K, C, V>(s: System<K, C, V>, ch: Chan, d: K, c': C, k: K, c: C)
    requires MapIsLive(s) && RunsAreConsistent(s) && Enabled(s, Do(ch, d, c'))
    ensures RunsFor(Next(s, Do(ch, d, c')), k, c) <==> RunsFor(s, k, c) || (d == k && k !in s.g.m && c' == c)
  {
  }

  lemma SeeDoneRunsFor<K, C, V>(s: System<K, C, V>, ch: Chan, k: K, c: C)
    requires Enabled(s, SeeDone(ch))
    ensures RunsFor(Next(s, SeeDone(ch)), k, c) <==> RunsFor(s, k, c)
  {
  }

  /** A function of a key runs after a step if it ran before and did not end, or was started by the step. */
  lemma StepRunsFor<K, C, V>(s: System<K, C, V>, a: Action<K, C, V>, k: K, c: C)
    requires MapIsLive(s) && RunsAreConsistent(s) && Enabled(s, a)
    ensures RunsFor(Next(s, a), k, c) <==>
            || (RunsFor(s, k, c) && !(a.EndRun? && a.c == c))
            || (a.Do? && a.k == k && k !in s.g.m && a.c == c)
  {
    match a
    case Do(ch, d, c') => DoRunsFor(s, ch, d, c', k, c);
    case Receive(ch) =>
    case SeeDone(ch) => SeeDoneRunsFor(s, ch, k, c);
    case EndRun(c', outcome) =>
  }

  /** One step makes a second function of a key run exactly when it is such a call. */
  lemma SecondWorkerExactly<K, C(!new), V>(s: System<K, C, V>, a: Action<K, C, V>, k: K)
    requires Inv(s) && Enabled(s, a) && AtMostOne(s, k)
    ensures !AtMostOne(Next(s, a), k) <==> StartsBeside(s, a, k)
  {
    forall c {
      StepRunsFor(s, a, k, c);
    }
    if StartsBeside(s, a, k) {
      var c :| RunsFor(s, k, c);
      assert c != a.c;
      assert RunsFor(Next(s, a), k, c) && RunsFor(Next(s, a), k, a.c);
    }
  }

  /** Over every run: up to some moment at most one function of a key ran at a time, exactly when until then no
      Do found the key missing from the map while a function of it was running. */
  lemma {:induction false} OneWorkerExactly<K, C(!new), V>(
    actions: seq<Action<K, C, V>>, states: seq<System<K, C, V>>, i: nat, k: K)
    requires IsRun(actions, states) && i < |states|
    ensures (forall j | 0 <= j <= i :: AtMostOne(states[j], k))
            <==> (forall j | 0 <= j < i :: !StartsBeside(states[j], actions[j], k))
  {
    if i > 0 {
      var last := i - 1;
      OneWorkerExactly(actions, states, last, k);
      RunKeepsInv(actions, states, last);
      assert states[i] == Next(states[last], actions[last]);
      if AtMostOne(states[last], k) {
        SecondWorkerExactly(states[last], actions[last], k);
      }
    }
  }

  lemma ExtendRun<K, C, V>(actions: seq<Action<K, C, V>>, states: seq<System<K, C, V>>, a: Action<K, C, V>)
    requires IsRun(actions, states) && Enabled(states[|actions|], a)
    ensures IsRun(actions + [a], states + [Next(states[|actions|], a)])
  {
    var longer, after := actions + [a], states + [Next(states[|actions|], a)];
    forall i | 0 <= i < |longer| ensures Enabled(after[i], longer[i]) && after[i + 1] == Next(after[i], longer[i]) {
      if i < |actions| {
        assert longer[i] == actions[i] && after[i] == states[i] && after[i + 1] == states[i + 1];
      }
    }
  }

  /** A call that loses its only waiter leaves the map and runs on; the next caller starts a second function. */
  lemma LostCallRunsBesideNew<K, C, V>(k: K, c0: C, c1: C)
    returns (actions: seq<Action<K, C, V>>, states: seq<System<K, C, V>>)
    requires c0 != c1
    ensures IsRun(actions, states) && actions == [Do(0, k, c0), SeeDone(0), Do(1, k, c1)]
    ensures var s := states[3];
            && RunsFor(s, k, c0) && RunsFor(s, k, c1)
            && s.g == Group(map[k := c1], map[c0 := Call(k, {}, 0, false, true), c1 := Call(k, {1}, 1, false, false)],
                            map[0 := [], 1 := []])
  {
    var s0: System<K, C, V> := System(Group(map[], map[], map[]), {}, map[], map[], map[], map[], {}, false);
    var s1 := Next(s0, Do(0, k, c0));
    var s2 := Next(s1, SeeDone(0));
    var s3 := Next(s2, Do(1, k, c1));
    actions := [Do(0, k, c0), SeeDone(0), Do(1, k, c1)];
    states := [s0, s1, s2, s3];
  }

  /** When the lost call then ends it deletes the new call, which still runs and is waited for, from the map. */
  lemma LostCallEvictsNew<K, C, V>(k: K, c0: C, c1: C, outcome: Outcome<V>)
    returns (actions: seq<Action<K, C, V>>, states: seq<System<K, C, V>>)
    requires c0 != c1
    ensures IsRun(actions, states) && actions == [Do(0, k, c0), SeeDone(0), Do(1, k, c1), EndRun(c0, outcome)]
    ensures var s := states[4];
            && c0 !in s.running && RunsFor(s, k, c1)
            && s.g.m == map[] && s.g.calls.Keys == {c0, c1} && s.g.calls[c1].waiters == {1} && s.g.chans.Keys == {0, 1}
  {
    actions, states := LostCallRunsBesideNew(k, c0, c1);
    ExtendRun(actions, states, EndRun(c0, outcome));
    actions, states := actions + [EndRun(c0, outcome)], states + [Next(states[3], EndRun(c0, outcome))];
  }

  /** So two functions of a key, both waited for, can run after the lost call is gone. */
  lemma EvictionOutlivesLostCall<K, C, V>(k: K, c0: C, c1: C, c2: C, outcome: Outcome<V>)
    returns (actions: seq<Action<K, C, V>>, states: seq<System<K, C, V>>)
    requires c0 != c1 && c1 != c2 && c0 != c2
    ensures IsRun(actions, states)
    ensures actions == [Do(0, k, c0), SeeDone(0), Do(1, k, c1), EndRun(c0, outcome), Do(2, k, c2)]
    ensures var s := states[5];
            && c0 !in s.running && RunsFor(s, k, c1) && RunsFor(s, k, c2)
            && s.g.calls[c1].waiters == {1} && s.g.calls[c2].waiters == {2}
  {
    actions, states := LostCallEvictsNew(k, c0, c1, outcome);
    ExtendRun(actions, states, Do(2, k, c2));
    actions, states := actions + [Do(2, k, c2)], states + [Next(states[4], Do(2, k, c2))];
  }

  // ---- The object ----

  datatype Entry = Started | Joined | FoundDone

  class CallRecord<K> {
    ghost const key: K
    const initiator: Chan
    var waiters: set<Chan>
    var done: bool
    var cancelled: bool

    constructor (key: K, ch: Chan)
      ensures this.key == key && initiator == ch && waiters == {ch} && !done && !cancelled
    {
      this.key, initiator, waiters, done, cancelled := key, ch, {ch}, false, false;
    }
  }

  class CallGroup<K(==), V> {
    var m: map<K, CallRecord<K>>
    var chans: map<Chan, seq<Reply<V>>>
    ghost var calls: set<CallRecord<K>>

    ghost predicate Valid()
      reads this
    {
      forall k | k in m :: m[k] in calls
    }

    ghost function View(): Group<K, CallRecord<K>, V>
      reads this, calls
    {
      Group(m, map c | c in calls :: Call(c.key, c.waiters, c.initiator, c.done, c.cancelled), chans)
    }

    constructor ()
      ensures Valid() && View() == Group(map[], map[], map[])
    {
      m, chans, calls := map[], map[], {};
    }

    /** The section of Do; nothing is done when the call found has ended. */
    method DoSection(key: K, ch: Chan) returns (c: CallRecord<K>, v: Entry)
      requires Valid() && ch !in chans
      modifies this, calls
      ensures Valid() && fresh(calls - old(calls)) && c in calls
      ensures v == if key !in old(m) then Started else if old(m[key].done) then FoundDone else Joined
      ensures CanJoin(old(View()), key, c, ch)
      ensures View() == if v == FoundDone then old(View()) else Join(old(View()), key, c, ch)
    {
      if key !in m {
        chans := chans[ch := []];
        c := new CallRecord(key, ch);
        calls := calls + {c};
        m := m[key := c];
        return c, Started;
      }
      c := m[key];
      if c.done {
        return c, FoundDone;
      }
      chans := chans[ch := []];
      c.waiters := c.waiters + {ch};
      return c, Joined;
    }

    /** What a caller does when its context is done: false when the call has ended and the reply is to be received. */
    method SeeDoneSection(key: K, c: CallRecord<K>, ch: Chan) returns (left: bool)
      requires Valid() && c in calls && c.key == key
      modifies this`m, c
      ensures Valid() && (left <==> !old(c.done))
      ensures View() == if left then Abandon(old(View()), key, c, ch) else old(View())
    {
      if c.done {
        return false;
      }
      c.waiters := c.waiters - {ch};
      if c.waiters == {} {
        c.cancelled := true;
        m := m - {key};
      }
      return true;
    }

    /** The section that ends run, normally or by panic. */
    method EndSection(key: K, c: CallRecord<K>, outcome: Outcome<V>)
      requires Valid() && c in calls && c.key == key && c.waiters <= chans.Keys
      modifies this`m, this`chans, c`done
      ensures Valid() && View() == Complete(old(View()), key, c, outcome)
      ensures c.done && key !in m && chans.Keys == old(chans).Keys
      ensures forall ch | ch in c.waiters ::
                chans[ch] == old(chans)[ch] + [match outcome
                                               case Value(v) => Shared(v)
                                               case Panic => if ch == c.initiator then Rethrow else WorkerPanicked]
      ensures forall ch | ch in chans && ch !in c.waiters :: chans[ch] == old(chans)[ch]
    {
      c.done := true;
      m := m - {key};
      SendReplies(c, outcome);
    }

    method SendReplies(c: CallRecord<K>, outcome: Outcome<V>)
      requires c.waiters <= chans.Keys
      modifies this`chans
      ensures chans == Deliver(c.waiters, c.initiator, outcome, old(chans))
      ensures chans.Keys == old(chans).Keys
      ensures forall ch | ch in c.waiters ::
                chans[ch] == old(chans)[ch] + [match outcome
                                               case Value(v) => Shared(v)
                                               case Panic => if ch == c.initiator then Rethrow else WorkerPanicked]
      ensures forall ch | ch in chans && ch !in c.waiters :: chans[ch] == old(chans)[ch]
    {
      var remaining := c.waiters;
      while remaining != {}
        invariant remaining <= c.waiters && chans.Keys == old(chans).Keys
        invariant forall ch | ch in chans ::
                    chans[ch] == if ch in remaining then old(chans)[ch] else Deliver(c.waiters, c.initiator, outcome, old(chans))[ch]
      {
        var ch :| ch in remaining;
        remaining := remaining - {ch};
        var reply: Reply<V>;
        match outcome {
          case Value(v) => reply := Shared(v);
          case Panic => reply := if ch == c.initiator then Rethrow else WorkerPanicked;
        }
        chans := chans[ch := chans[ch] + [reply]];
      }
    }
  }
}
