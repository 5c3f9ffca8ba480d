/** What the waiters of the job manager get, and which jobs its timers hit, in every interleaving. */
module JobOutcomes {
  import opened Wrappers
  import opened Jobs

  // ---- What a waiter gets is decided by who takes its job out of the store ----

  /** What the holder of a detached entry leaves in its wait channel. */
  function Outcome<E, R>(h: Hand<E, R>): Wait<R> {
    if h.Resolving? then Holds(h.reply) else Empty
  }

  ghost predicate InHandFor<K, E, T, R>(s: System<K, E, T, R>, e: E, w: Wait<R>) {
    && e in s.places && s.places[e].InHand? && s.places[e].t in s.hands
    && e in HandEntries(s.hands[s.places[e].t]) && Outcome(s.hands[s.places[e].t]) == w
  }

  /** The channel has its outcome, or is open in the hands of one who will leave that outcome. */
  ghost predicate Decided<K, E, T, R>(s: System<K, E, T, R>, c: Chan, w: Wait<R>) {
    && c in s.chans && c in s.owners && !w.Open?
    && (s.chans[c] == w || (s.chans[c].Open? && InHandFor(s, s.owners[c], w)))
  }

  lemma OthersKeepHand<K, E, T, R>(
    s: System<K, E, T, R>, e: E, w: Wait<R>, places: map<E, Place<K, T>>, hands: map<T, Hand<E, R>>)
    requires InHandFor(s, e, w)
    requires e in places && places[e] == s.places[e]
    requires s.places[e].t in hands && e in HandEntries(hands[s.places[e].t])
    requires Outcome(hands[s.places[e].t]) == Outcome(s.hands[s.places[e].t])
    ensures InHandFor(s.(places := places, hands := hands), e, w)
  {
  }

  lemma SettleKeepsDecided<K, E, T, R>(
    s: System<K, E, T, R>, e: E, t: T, hands: map<T, Hand<E, R>>, c: Chan, w: Wait<R>)
    requires Inv(s) && Decided(s, c, w) && e in s.m.entries && LetsGo(s.hands, hands, t, e)
    ensures Decided(Settle(s, e, Outcome(s.hands[t]), !s.hands[t].Removing?).(hands := hands), c, w)
  {
    HeldIsInHand(s, t, e);
    assert EntryIsRight(s, e);
    var owner := s.owners[c];
    if s.chans[c].Open? && owner != e {
      assert s.m.entries[e].waitCh != Some(c);
      var u := s.places[owner].t;
      assert u in hands && owner in HandEntries(hands[u]) && Outcome(hands[u]) == Outcome(s.hands[u]);
    }
  }

  lemma GrabKeepsDecided<K, E, T, R>(s: System<K, E, T, R>, t: T, id: K, h: Hand<E, R>, c: Chan, w: Wait<R>)
    requires Inv(s) && Decided(s, c, w) && Finds(s.m, id) && t !in s.hands
    ensures Decided(Grab(s, t, id, h), c, w)
  {
  }

  lemma GrabAllKeepsDecided<K, E, T, R>(s: System<K, E, T, R>, t: T, c: Chan, w: Wait<R>)
    requires Inv(s) && Decided(s, c, w) && t !in s.hands
    ensures Decided(GrabAll(s, t), c, w)
  {
    assert s.chans[c].Open? ==> forall k | k in s.m.store :: s.m.store[k] != s.owners[c];
  }

  lemma AddKeepsDecided<K, E, T, R>(s: System<K, E, T, R>, a: Action<K, E, T, R>, c: Chan, w: Wait<R>)
    requires Inv(s) && Decided(s, c, w) && a.Add? && Enabled(s, a)
    ensures Decided(Next(s, a), c, w)
  {
  }

  lemma KeptKeepsDecided<K, E, T, R>(s: System<K, E, T, R>, id: K, reply: R, c: Chan, w: Wait<R>)
    requires Inv(s) && Decided(s, c, w) && Enabled(s, ResolveKept(id, reply))
    ensures Decided(Next(s, ResolveKept(id, reply)), c, w)
  {
    assert EntryIsRight(s, s.m.store[id]);
  }

  lemma StepKeepsDecided<K, E, T, R>(s: System<K, E, T, R>, a: Action<K, E, T, R>, c: Chan, w: Wait<R>)
    requires Inv(s) && Decided(s, c, w) && Enabled(s, a)
    ensures Decided(Next(s, a), c, w)
  {
    match a
    case Add(_, _, _, _, _) => AddKeepsDecided(s, a, c, w);
    case Resolve(t, id, reply) => GrabKeepsDecided(s, t, id, Resolving(s.m.store[id], reply), c, w);
    case ResolveEnd(t) => SettleKeepsDecided(s, s.hands[t].e, t, s.hands - {t}, c, w);
    case ResolveKept(id, reply) => KeptKeepsDecided(s, id, reply, c, w);
    case Remove(t, id) => GrabKeepsDecided(s, t, id, Removing(s.m.store[id]), c, w);
    case RemoveEnd(t) => SettleKeepsDecided(s, s.hands[t].e, t, s.hands - {t}, c, w);
    case CancelAll(t) => GrabAllKeepsDecided(s, t, c, w);
    case Close(t) => GrabAllKeepsDecided(s, t, c, w);
    case SweepOne(t, e) => SettleKeepsDecided(s, e, t, s.hands[t := Sweeping(s.hands[t].es - {e})], c, w);
    case SweepEnd(t) =>
  }

  lemma {:induction false} StaysDecided<K, E, T, R>(
    actions: seq<Action<K, E, T, R>>, states: seq<System<K, E, T, R>>, i: nat, j: nat, c: Chan, w: Wait<R>)
    requires IsRun(actions, states) && i <= j < |states| && Decided(states[i], c, w)
    ensures Decided(states[j], c, w)
    decreases j
  {
    if i < j {
      var last := j - 1;
      StaysDecided(actions, states, i, last, c, w);
      RunKeepsInv(actions, states, last);
      assert Enabled(states[last], actions[last]) && states[j] == Next(states[last], actions[last]);
      StepKeepsDecided(states[last], actions[last], c, w);
    }
  }

  /** In every run: once the entry of an open wait channel is in somebody's hands, the channel stays open until it
      has that holder's outcome, and keeps it: the result of a resolution, nothing after a removal or a sweep. */
  lemma HolderDecides<K, E, T, R>(
    actions: seq<Action<K, E, T, R>>, states: seq<System<K, E, T, R>>, i: nat, j: nat, c: Chan, t: T)
    requires IsRun(actions, states) && i <= j < |states|
    requires c in states[i].chans && states[i].chans[c].Open? && c in states[i].owners
    requires t in states[i].hands && states[i].owners[c] in HandEntries(states[i].hands[t])
    ensures c in states[j].chans && (states[j].chans[c] == Open || states[j].chans[c] == Outcome(states[i].hands[t]))
  {
    RunKeepsInv(actions, states, i);
    HeldIsInHand(states[i], t, states[i].owners[c]);
    StaysDecided(actions, states, i, j, c, Outcome(states[i].hands[t]));
  }

  lemma SweepTakesOwner<K, E, T, R>(s: System<K, E, T, R>, t: T, c: Chan)
    requires Inv(s) && t !in s.hands && c in s.chans && s.chans[c].Open?
    requires s.owners[c] in s.places && s.places[s.owners[c]].InStore?
    ensures Decided(GrabAll(s, t), c, Empty)
  {
    assert s.m.store[s.places[s.owners[c]].k] == s.owners[c];
  }

  /** In every run a job that is in the store when CancelAll or Close takes it never gives its waiter a result:
      the wait channel stays open until it is closed empty. */
  lemma CancelledWaiterNeverGetsResult<K, E, T, R>(
    actions: seq<Action<K, E, T, R>>, states: seq<System<K, E, T, R>>, i: nat, j: nat, c: Chan)
    requires IsRun(actions, states) && i < j < |states| && (actions[i].CancelAll? || actions[i].Close?)
    requires c in states[i].chans && states[i].chans[c].Open? && c in states[i].owners
    requires states[i].owners[c] in states[i].places && states[i].places[states[i].owners[c]].InStore?
    ensures c in states[j].chans && (states[j].chans[c] == Open || states[j].chans[c] == Empty)
  {
    RunKeepsInv(actions, states, i);
    assert Enabled(states[i], actions[i]) && states[i + 1] == Next(states[i], actions[i]);
    SweepTakesOwner(states[i], actions[i].t, c);
    StaysDecided(actions, states, i + 1, j, c, Empty);
  }

  // ---- Timers know their job only by its key ----

  /** The job a resolution of the key would take. */
  function Target<K, E, T, R>(s: System<K, E, T, R>, id: K): nat
    requires Finds(s.m, id)
  {
    s.m.entries[s.m.store[id]].job
  }

  /** As long as it has not left the store, the job is filed under the key. */
  ghost predicate Filed<K, E, T, R>(s: System<K, E, T, R>, j: nat, id: K) {
    && j < |s.jobs|
    && (s.jobs[j].leaves == 0 ==>
          && s.jobs[j].at.Some? && s.jobs[j].at.value in s.places && s.places[s.jobs[j].at.value] == InStore(id))
  }

  lemma GrabKeepsFiled<K, E, T, R>(s: System<K, E, T, R>, t: T, id: K, h: Hand<E, R>, j: nat, k: K)
    requires Inv(s) && Finds(s.m, id) && Filed(s, j, k)
    ensures Filed(Grab(s, t, id, h), j, k)
  {
    assert JobIsRight(s, s.jobs[j], j);
  }

  lemma GrabAllKeepsFiled<K, E, T, R>(s: System<K, E, T, R>, t: T, j: nat, k: K)
    requires Inv(s) && Filed(s, j, k)
    ensures Filed(GrabAll(s, t), j, k)
  {
    assert JobIsRight(s, s.jobs[j], j);
    if s.jobs[j].leaves == 0 {
      assert s.m.store[k] == s.jobs[j].at.value;
      assert s.jobs[j].at.value in s.m.store.Values;
    }
  }

  lemma SettleKeepsFiled<K, E, T, R>(s: System<K, E, T, R>, e: E, to: Wait<R>, dispatch: bool, j: nat, k: K)
    requires Inv(s) && e in s.m.entries && e in s.places && s.places[e].InHand? && Filed(s, j, k)
    ensures Filed(Settle(s, e, to, dispatch), j, k)
  {
    assert EntryIsRight(s, e);
    assert JobIsRight(s, s.jobs[j], j);
  }

  lemma AddKeepsFiled<K, E, T, R>(s: System<K, E, T, R>, a: Action<K, E, T, R>, j: nat, k: K)
    requires EntriesArePlaced(s) && a.Add? && Enabled(s, a) && Filed(s, j, k)
    ensures Filed(Next(s, a), j, k)
  {
  }

  lemma KeptKeepsFiled<K, E, T, R>(s: System<K, E, T, R>, id: K, reply: R, j: nat, k: K)
    requires Enabled(s, ResolveKept(id, reply)) && Filed(s, j, k)
    ensures Filed(Next(s, ResolveKept(id, reply)), j, k)
  {
  }

  lemma StepKeepsFiled<K, E, T, R>(s: System<K, E, T, R>, a: Action<K, E, T, R>, j: nat, k: K)
    requires Inv(s) && Enabled(s, a) && Filed(s, j, k)
    ensures Filed(Next(s, a), j, k)
  {
    match a
    case Add(_, _, _, _, _) => AddKeepsFiled(s, a, j, k);
    case Resolve(t, id, reply) => GrabKeepsFiled(s, t, id, Resolving(s.m.store[id], reply), j, k);
    case ResolveEnd(t) =>
      HeldIsInHand(s, t, s.hands[t].e);
      SettleKeepsFiled(s, s.hands[t].e, Holds(s.hands[t].reply), true, j, k);
    case ResolveKept(id, reply) => KeptKeepsFiled(s, id, reply, j, k);
    case Remove(t, id) => GrabKeepsFiled(s, t, id, Removing(s.m.store[id]), j, k);
    case RemoveEnd(t) =>
      HeldIsInHand(s, t, s.hands[t].e);
      SettleKeepsFiled(s, s.hands[t].e, Empty, false, j, k);
    case CancelAll(t) => GrabAllKeepsFiled(s, t, j, k);
    case Close(t) => GrabAllKeepsFiled(s, t, j, k);
    case SweepOne(t, e) =>
      HeldIsInHand(s, t, e);
      SettleKeepsFiled(s, e, Empty, true, j, k);
    case SweepEnd(t) =>
  }

  lemma {:induction false} StaysFiled<K, E, T, R>(
    actions: seq<Action<K, E, T, R>>, states: seq<System<K, E, T, R>>, a: nat, b: nat)
    requires IsRun(actions, states) && a < b < |states| && actions[a].Add?
    ensures Filed(states[b], |states[a].jobs|, actions[a].id)
    decreases b
  {
    var last := b - 1;
    assert Enabled(states[last], actions[last]) && states[b] == Next(states[last], actions[last]);
    if a < last {
      StaysFiled(actions, states, a, last);
      RunKeepsInv(actions, states, last);
      StepKeepsFiled(states[last], actions[last], |states[a].jobs|, actions[a].id);
    }
  }

  /** In every run, a timer or context watcher armed by an Add that fires while its key is stored resolves the job
      it was armed for exactly when that job has not left the store; otherwise it resolves a later job of that key. */
  lemma TimerHitsItsJobExactly<K, E, T, R>(
    actions: seq<Action<K, E, T, R>>, states: seq<System<K, E, T, R>>, a: nat, b: nat)
    requires IsRun(actions, states) && a < b < |states| && actions[a].Add? && Finds(states[b].m, actions[a].id)
    ensures var j := |states[a].jobs|;
            && j < |states[b].jobs|
            && (Target(states[b], actions[a].id) == j <==> states[b].jobs[j].leaves == 0)
  {
    var s, j, id := states[b], |states[a].jobs|, actions[a].id;
    StaysFiled(actions, states, a, b);
    RunKeepsInv(actions, states, b);
    assert JobIsRight(s, s.jobs[j], j);
    assert s.places[s.m.store[id]] == InStore(id);
    assert EntryIsRight(s, s.m.store[id]);
  }

  lemma ExtendRun<K, E, T, R>(
    actions: seq<Action<K, E, T, R>>, states: seq<System<K, E, T, R>>, a: Action<K, E, T, R>)
    requires IsRun(actions, states) && Enabled(states[|actions|], a)
    ensures IsRun(actions + [a], states + [Next(states[|actions|], a)])
  {
    var longer, after := actions + [a], states + [Next(states[|actions|], a)];
    forall i | 0 <= i < |longer| ensures Enabled(after[i], longer[i]) && after[i + 1] == Next(after[i], longer[i]) {
      if i < |actions| {
        assert longer[i] == actions[i] && after[i] == states[i] && after[i + 1] == states[i + 1];
      }
    }
  }

  lemma AddThenResolve<K, E, T, R>(id: K, e: E, t: T, reply: R)
    returns (actions: seq<Action<K, E, T, R>>, states: seq<System<K, E, T, R>>)
    ensures IsRun(actions, states) && actions == [Add(id, e, true, None, false), Resolve(t, id, reply)]
    ensures var s := states[2];
            && s.m == Manager(map[], map[e := Entry(true, None, false, 0)], {}, false, 0)
            && s.hands == map[t := Resolving(e, reply)] && s.chans == map[]
            && s.jobs == [Job(true, false, Some(e), 1, 0, false)]
  {
    var s0: System<K, E, T, R> := System(Manager(map[], map[], {}, false, 0), map[], map[], [], map[], map[], false);
    var s1 := Next(s0, Add(id, e, true, None, false));
    assert s1.m == Manager(map[id := e], map[e := Entry(true, None, false, 0)], {}, false, 0);
    actions := [Add(id, e, true, None, false), Resolve(t, id, reply)];
    states := [s0, s1, Next(s1, Resolve(t, id, reply))];
  }

  lemma ResolvedJob<K, E, T, R>(id: K, e: E, t: T, reply: R)
    returns (actions: seq<Action<K, E, T, R>>, states: seq<System<K, E, T, R>>)
    ensures IsRun(actions, states) && actions == [Add(id, e, true, None, false), Resolve(t, id, reply), ResolveEnd(t)]
    ensures var s := states[3];
            && s.m == Manager(map[], map[e := Entry(false, None, false, 0)], {e}, false, 0)
            && s.hands == map[] && s.chans == map[] && s.jobs == [Job(true, false, None, 1, 1, false)]
  {
    actions, states := AddThenResolve(id, e, t, reply);
    ExtendRun(actions, states, ResolveEnd(t));
    var s3 := Next(states[2], ResolveEnd(t));
    assert s3.m.entries == map[e := Entry(false, None, false, 0)] && s3.m.pool == {e};
    actions, states := actions + [ResolveEnd(t)], states + [s3];
  }

  lemma SecondJob<K, E, T, R>(id: K, e: E, t: T, reply: R)
    returns (actions: seq<Action<K, E, T, R>>, states: seq<System<K, E, T, R>>)
    ensures IsRun(actions, states)
    ensures actions == [Add(id, e, true, None, false), Resolve(t, id, reply), ResolveEnd(t), Add(id, e, true, None, false)]
    ensures var s := states[4];
            && s.m == Manager(map[id := e], map[e := Entry(true, None, false, 1)], {}, false, 0) && s.hands == map[]
            && s.jobs == [Job(true, false, None, 1, 1, false), Job(true, false, Some(e), 0, 0, false)]
  {
    var again := Action<K, E, T, R>.Add(id, e, true, None, false);
    actions, states := ResolvedJob(id, e, t, reply);
    ExtendRun(actions, states, again);
    actions, states := actions + [again], states + [Next(states[3], again)];
  }

  /** A run in which a timer fires after its job was resolved, and takes the next job of the same key. */
  lemma TimerHitsLaterJob<K, E, T, R>(id: K, e: E, t: T, reply: R, timeout: R)
    returns (actions: seq<Action<K, E, T, R>>, states: seq<System<K, E, T, R>>)
    ensures IsRun(actions, states)
    ensures actions == [Add(id, e, true, None, false), Resolve(t, id, reply), ResolveEnd(t),
                        Add(id, e, true, None, false), Resolve(t, id, timeout)]
    ensures states[5].jobs == [Job(true, false, None, 1, 1, false), Job(true, false, Some(e), 1, 0, false)]
    ensures states[5].hands == map[t := Resolving(e, timeout)]
  {
    actions, states := SecondJob(id, e, t, reply);
    ExtendRun(actions, states, Resolve(t, id, timeout));
    actions, states := actions + [Resolve(t, id, timeout)], states + [Next(states[4], Resolve(t, id, timeout))];
  }

  /** A run after which the waiter of a cancelled job finds its channel closed without a result. */
  lemma CancelledWaiterGetsNothing<K, E, T, R>(id: K, e: E, t: T)
    returns (actions: seq<Action<K, E, T, R>>, states: seq<System<K, E, T, R>>)
    ensures IsRun(actions, states) && actions == [Add(id, e, true, Some(0), false), CancelAll(t), SweepOne(t, e)]
    ensures states[1].chans == map[0 := Open] && states[3].chans == map[0 := Empty] && !states[3].m.closed
  {
    actions, states := CancelledJob(id, e, t);
    ExtendRun(actions, states, SweepOne(t, e));
    actions, states := actions + [SweepOne(t, e)], states + [Next(states[2], SweepOne(t, e))];
  }

  lemma CancelledJob<K, E, T, R>(id: K, e: E, t: T)
    returns (actions: seq<Action<K, E, T, R>>, states: seq<System<K, E, T, R>>)
    ensures IsRun(actions, states) && actions == [Add(id, e, true, Some(0), false), CancelAll(t)]
    ensures states[1].chans == map[0 := Open] && states[2].chans == map[0 := Open]
    ensures states[2].hands == map[t := Sweeping({e})]
    ensures states[2].m == Manager(map[], map[e := Entry(true, Some(0), false, 0)], {}, false, 0)
  {
    var s0: System<K, E, T, R> := System(Manager(map[], map[], {}, false, 0), map[], map[], [], map[], map[], false);
    var s1 := Next(s0, Add(id, e, true, Some(0), false));
    assert s1.m.store == map[id := e] && s1.m.store.Values == {e};
    actions := [Add(id, e, true, Some(0), false), CancelAll(t)];
    states := [s0, s1, Next(s1, CancelAll(t))];
  }
}
