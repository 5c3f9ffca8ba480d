/** The reference-counted key mutex: one function per critical section of the outer mutex,
    every interleaving of sessions over them, and the object that runs the sections. */
module KeyLock {

  /** An entry: its reference count and its inner mutex. */
  datatype Ref = Ref(count: int, locked: bool)

  /** The entry map, and every entry ever created (also those no longer in the map). */
  datatype Locks<K(==), R(==)> = Locks(entries: map<K, R>, refs: map<R, Ref>)

  // ---- The critical sections ----

  /** `r` is the entry found for the key, or a new one. */
  predicate CanEnter<K, R>(l: Locks<K, R>, k: K, r: R) {
    if k in l.entries then r == l.entries[k] && r in l.refs else r !in l.refs
  }

  /** First half of Lock and of TryLock: find or create the entry and count the caller. */
  function Enter<K, R>(l: Locks<K, R>, k: K, r: R): Locks<K, R>
    requires CanEnter(l, k, r)
  {
    var found := if k in l.entries then l.refs[r] else Ref(0, false);
    Locks(l.entries[k := r], l.refs[r := found.(count := found.count + 1)])
  }

  /** First half of Unlock, and the retreat of a failed TryLock: uncount the caller;
      the key is deleted when the count reaches zero. */
  function Leave<K, R>(l: Locks<K, R>, k: K, r: R): Locks<K, R>
    requires r in l.refs
  {
    var left := l.refs[r].count - 1;
    Locks(if left == 0 then l.entries - {k} else l.entries, l.refs[r := l.refs[r].(count := left)])
  }

  function SetLocked<K, R>(l: Locks<K, R>, r: R, b: bool): Locks<K, R>
    requires r in l.refs
  {
    l.(refs := l.refs[r := l.refs[r].(locked := b)])
  }

  // ---- Sessions: one call of Lock or TryLock up to the end of the matching Unlock ----

  datatype Stage = Waiting      // counted, blocked on the inner mutex
                 | Inside       // in the critical section of the key
                 | Releasing    // uncounted, inner mutex not released yet
                 | Trying       // counted, about to try the inner mutex
                 | BackingOut   // the try failed, still counted

  datatype Session<K, R> = Session(key: K, ref: R, stage: Stage)

  datatype System<K(==), R(==), T(==)> = System(
    locks: Locks<K, R>, sessions: map<T, Session<K, R>>, panicked: bool)

  datatype Action<K, R, T> =
    | Lock(t: T, k: K, r: R) | TryLock(t: T, k: K, r: R)
    | Acquire(t: T) | TryAcquire(t: T) | TryFail(t: T)
    | Unlock(t: T) | Release(t: T) | BackOut(t: T)

  predicate At<K, R, T>(s: System<K, R, T>, t: T, stage: Stage) {
    t in s.sessions && s.sessions[t].stage == stage
  }

  predicate InnerFree<K, R, T>(s: System<K, R, T>, t: T) {
    t in s.sessions && s.sessions[t].ref in s.locks.refs && !s.locks.refs[s.sessions[t].ref].locked
  }

  predicate Enabled<K, R, T>(s: System<K, R, T>, a: Action<K, R, T>) {
    !s.panicked &&
    match a
    case Lock(t, k, r) => t !in s.sessions && CanEnter(s.locks, k, r)
    case TryLock(t, k, r) => t !in s.sessions && CanEnter(s.locks, k, r)
    case Acquire(t) => At(s, t, Waiting) && InnerFree(s, t)
    case TryAcquire(t) => At(s, t, Trying) && InnerFree(s, t)
    case TryFail(t) => At(s, t, Trying)
    case Unlock(t) => At(s, t, Inside)
    case Release(t) => At(s, t, Releasing)
    case BackOut(t) => At(s, t, BackingOut) && s.sessions[t].ref in s.locks.refs
  }

  function Take<K, R, T>(s: System<K, R, T>, t: T): System<K, R, T>
    requires InnerFree(s, t)
  {
    var p := s.sessions[t];
    s.(locks := SetLocked(s.locks, p.ref, true), sessions := s.sessions[t := p.(stage := Inside)])
  }

  function Next<K, R, T>(s: System<K, R, T>, a: Action<K, R, T>): System<K, R, T>
    requires Enabled(s, a)
  {
    match a
    case Lock(t, k, r) => s.(locks := Enter(s.locks, k, r), sessions := s.sessions[t := Session(k, r, Waiting)])
    case TryLock(t, k, r) => s.(locks := Enter(s.locks, k, r), sessions := s.sessions[t := Session(k, r, Trying)])
    case Acquire(t) => Take(s, t)
    case TryAcquire(t) => Take(s, t)
    case TryFail(t) => s.(sessions := s.sessions[t := s.sessions[t].(stage := BackingOut)])
    case Unlock(t) =>
      // the entry is looked up again by key
      var k := s.sessions[t].key;
      if k !in s.locks.entries || s.locks.entries[k] !in s.locks.refs then s.(panicked := true)
      else
        var r := s.locks.entries[k];
        s.(locks := Leave(s.locks, k, r), sessions := s.sessions[t := Session(k, r, Releasing)])
    case Release(t) =>
      var r := s.sessions[t].ref;
      if r !in s.locks.refs || !s.locks.refs[r].locked then s.(panicked := true)
      else s.(locks := SetLocked(s.locks, r, false), sessions := s.sessions - {t})
    case BackOut(t) =>
      var p := s.sessions[t];
      s.(locks := Leave(s.locks, p.key, p.ref), sessions := s.sessions - {t})
  }

  // ---- The invariant ----

  /** The sessions counted on an entry: waiting, inside, trying or backing out. */
  ghost function Users<K, R, T>(sessions: map<T, Session<K, R>>, r: R): set<T> {
    set t | t in sessions && sessions[t].ref == r && sessions[t].stage != Releasing
  }

  predicate Owns<K, R>(p: Session<K, R>) {
    p.stage == Inside || p.stage == Releasing
  }

  /** Every counted session's entry is the one the map holds for its key, and counts are exact. */
  ghost predicate Counted<K, R, T>(s: System<K, R, T>) {
    && (forall k | k in s.locks.entries ::
          && s.locks.entries[k] in s.locks.refs
          && s.locks.refs[s.locks.entries[k]].count == |Users(s.sessions, s.locks.entries[k])| > 0)
    && (forall t | t in s.sessions && s.sessions[t].stage != Releasing ::
          s.sessions[t].key in s.locks.entries && s.locks.entries[s.sessions[t].key] == s.sessions[t].ref)
    && (forall k, k' | k in s.locks.entries && k' in s.locks.entries && s.locks.entries[k] == s.locks.entries[k'] ::
          k == k')
    && (forall t | t in s.sessions :: s.sessions[t].ref in s.locks.refs)
  }

  /** An inner mutex is locked exactly while one session owns it. */
  ghost predicate Owned<K, R, T>(s: System<K, R, T>) {
    && (forall r | r in s.locks.refs && s.locks.refs[r].locked ::
          exists t :: t in s.sessions && s.sessions[t].ref == r && Owns(s.sessions[t]))
    && (forall t | t in s.sessions && Owns(s.sessions[t]) ::
          s.sessions[t].ref in s.locks.refs && s.locks.refs[s.sessions[t].ref].locked)
    && (forall t, t' | t in s.sessions && t' in s.sessions && Owns(s.sessions[t]) && Owns(s.sessions[t'])
                    && s.sessions[t].ref == s.sessions[t'].ref :: t == t')
  }

  ghost predicate Inv<K, R, T>(s: System<K, R, T>) {
    !s.panicked && Counted(s) && Owned(s)
  }

  lemma UsersAdd<K, R, T>(sessions: map<T, Session<K, R>>, t: T, p: Session<K, R>, r: R)
    requires t !in sessions && p.stage != Releasing
    ensures Users(sessions[t := p], r) == if p.ref == r then Users(sessions, r) + {t} else Users(sessions, r)
    ensures p.ref == r ==> |Users(sessions[t := p], r)| == |Users(sessions, r)| + 1
  {
    assert Users(sessions[t := p], r) == if p.ref == r then Users(sessions, r) + {t} else Users(sessions, r);
  }

  lemma UsersDrop<K, R, T>(sessions: map<T, Session<K, R>>, sessions': map<T, Session<K, R>>, t: T, r: R)
    requires t in sessions && sessions[t].stage != Releasing
    requires t in sessions' ==> sessions'[t].stage == Releasing
    requires forall u | u != t :: u in sessions <==> u in sessions'
    requires forall u | u != t && u in sessions :: sessions'[u] == sessions[u]
    ensures Users(sessions', r) == Users(sessions, r) - {t}
    ensures sessions[t].ref == r ==> |Users(sessions', r)| == |Users(sessions, r)| - 1
  {
    assert Users(sessions', r) == Users(sessions, r) - {t};
    assert sessions[t].ref == r ==> Users(sessions, r) == Users(sessions', r) + {t};
  }

  lemma UsersSame<K, R, T>(sessions: map<T, Session<K, R>>, sessions': map<T, Session<K, R>>, r: R)
    requires forall t :: (t in sessions && sessions[t].ref == r && sessions[t].stage != Releasing)
                    <==> (t in sessions' && sessions'[t].ref == r && sessions'[t].stage != Releasing)
    ensures Users(sessions', r) == Users(sessions, r)
  {
  }

  lemma EnterKeepsCounted<K, R, T>(s: System<K, R, T>, s': System<K, R, T>, t: T, p: Session<K, R>)
    requires Counted(s) && t !in s.sessions && CanEnter(s.locks, p.key, p.ref) && p.stage != Releasing
    requires s'.locks == Enter(s.locks, p.key, p.ref) && s'.sessions == s.sessions[t := p]
    ensures Counted(s')
  {
    if p.key !in s.locks.entries {
      assert Users(s.sessions, p.ref) == {};
    }
    forall k | k in s'.locks.entries
      ensures s'.locks.refs[s'.locks.entries[k]].count == |Users(s'.sessions, s'.locks.entries[k])| > 0
    {
      UsersAdd(s.sessions, t, p, s'.locks.entries[k]);
    }
  }

  lemma EnterKeepsInv<K, R, T>(s: System<K, R, T>, t: T, k: K, r: R, stage: Stage)
    requires Inv(s) && t !in s.sessions && CanEnter(s.locks, k, r) && (stage == Waiting || stage == Trying)
    ensures Inv(s.(locks := Enter(s.locks, k, r), sessions := s.sessions[t := Session(k, r, stage)]))
  {
    var s' := s.(locks := Enter(s.locks, k, r), sessions := s.sessions[t := Session(k, r, stage)]);
    EnterKeepsCounted(s, s', t, Session(k, r, stage));
    KeepOwners(s, s', t);
  }

  /** Owners survive any step that neither locks nor unlocks and moves only a non-owner. */
  lemma KeepOwners<K, R, T>(s: System<K, R, T>, s': System<K, R, T>, t: T)
    requires Owned(s) && s.locks.refs.Keys <= s'.locks.refs.Keys
    requires forall r | r in s'.locks.refs ::
               s'.locks.refs[r].locked <==> r in s.locks.refs && s.locks.refs[r].locked
    requires t in s.sessions ==> !Owns(s.sessions[t])
    requires t in s'.sessions ==> !Owns(s'.sessions[t])
    requires forall u | u != t :: u in s.sessions <==> u in s'.sessions
    requires forall u | u != t && u in s.sessions :: s'.sessions[u] == s.sessions[u]
    ensures Owned(s')
  {
    forall r | r in s'.locks.refs && s'.locks.refs[r].locked
      ensures exists u :: u in s'.sessions && s'.sessions[u].ref == r && Owns(s'.sessions[u])
    {
      var u :| u in s.sessions && s.sessions[u].ref == r && Owns(s.sessions[u]);
      assert u in s'.sessions;
    }
  }

  /** Counts survive any step that moves one counted session to another counted stage. */
  lemma KeepCounted<K, R, T>(s: System<K, R, T>, s': System<K, R, T>, t: T, p: Session<K, R>)
    requires Counted(s) && t in s.sessions && s.sessions[t].stage != Releasing && p.stage != Releasing
    requires p.key == s.sessions[t].key && p.ref == s.sessions[t].ref
    requires s'.sessions == s.sessions[t := p] && s'.locks.entries == s.locks.entries
    requires s'.locks.refs.Keys == s.locks.refs.Keys
    requires forall r | r in s.locks.refs :: s'.locks.refs[r].count == s.locks.refs[r].count
    ensures Counted(s')
  {
    forall k | k in s'.locks.entries
      ensures s'.locks.refs[s'.locks.entries[k]].count == |Users(s'.sessions, s'.locks.entries[k])| > 0
    {
      UsersSame(s.sessions, s'.sessions, s.locks.entries[k]);
    }
  }

  lemma TakeKeepsOwned<K, R, T>(s: System<K, R, T>, t: T)
    requires Owned(s) && InnerFree(s, t) && s.sessions[t].stage in {Waiting, Trying}
    ensures Owned(Take(s, t))
  {
    var s' := Take(s, t);
    forall r | r in s'.locks.refs && s'.locks.refs[r].locked
      ensures exists u :: u in s'.sessions && s'.sessions[u].ref == r && Owns(s'.sessions[u])
    {
      if r == s.sessions[t].ref {
        assert t in s'.sessions;
      } else {
        var u :| u in s.sessions && s.sessions[u].ref == r && Owns(s.sessions[u]);
        assert u in s'.sessions;
      }
    }
  }

  lemma TakeKeepsInv<K, R, T>(s: System<K, R, T>, t: T)
    requires Inv(s) && InnerFree(s, t) && s.sessions[t].stage in {Waiting, Trying}
    ensures Inv(Take(s, t))
  {
    KeepCounted(s, Take(s, t), t, s.sessions[t].(stage := Inside));
    TakeKeepsOwned(s, t);
  }

  lemma TryFailKeepsInv<K, R, T>(s: System<K, R, T>, t: T)
    requires Inv(s) && Enabled(s, TryFail(t))
    ensures Inv(Next(s, TryFail(t)))
  {
    var s' := Next(s, TryFail(t));
    KeepCounted(s, s', t, s.sessions[t].(stage := BackingOut));
    KeepOwners(s, s', t);
  }

  lemma LeaveKeepsCount<K, R, T>(s: System<K, R, T>, s': System<K, R, T>, t: T, k: K)
    requires Counted(s) && t in s.sessions && s.sessions[t].stage != Releasing && k in s.locks.entries
    requires s'.locks == Leave(s.locks, s.sessions[t].key, s.sessions[t].ref)
    requires s'.sessions == s.sessions - {t} || s'.sessions == s.sessions[t := s.sessions[t].(stage := Releasing)]
    ensures s'.locks.refs[s.locks.entries[k]].count == |Users(s'.sessions, s.locks.entries[k])|
    ensures k != s.sessions[t].key ==> |Users(s'.sessions, s.locks.entries[k])| > 0
  {
    UsersDrop(s.sessions, s'.sessions, t, s.locks.entries[k]);
    if k != s.sessions[t].key {
      assert Users(s'.sessions, s.locks.entries[k]) == Users(s.sessions, s.locks.entries[k]);
    }
  }

  /** Uncounting a session: it leaves, or goes on to release the inner mutex. */
  lemma LeaveKeepsCounted<K, R, T>(s: System<K, R, T>, s': System<K, R, T>, t: T)
    requires Counted(s) && t in s.sessions && s.sessions[t].stage != Releasing
    requires var p := s.sessions[t];
             && s'.locks == Leave(s.locks, p.key, p.ref)
             && (s'.sessions == s.sessions - {t} || s'.sessions == s.sessions[t := p.(stage := Releasing)])
    ensures Counted(s')
  {
    var p := s.sessions[t];
    LeaveKeepsCount(s, s', t, p.key);
    forall k | k in s'.locks.entries
      ensures s'.locks.refs[s'.locks.entries[k]].count == |Users(s'.sessions, s'.locks.entries[k])| > 0
    {
      LeaveKeepsCount(s, s', t, k);
    }
    if |Users(s'.sessions, p.ref)| == 0 {
      forall u | u in s'.sessions && s'.sessions[u].stage != Releasing ensures s'.sessions[u].key != p.key {
        assert u !in Users(s'.sessions, p.ref);
      }
    }
  }

  lemma UnlockKeepsOwned<K, R, T>(s: System<K, R, T>, t: T)
    requires Inv(s) && Enabled(s, Unlock(t))
    ensures Owned(Next(s, Unlock(t)))
  {
    var s' := Next(s, Unlock(t));
    forall r | r in s'.locks.refs && s'.locks.refs[r].locked
      ensures exists u :: u in s'.sessions && s'.sessions[u].ref == r && Owns(s'.sessions[u])
    {
      var u :| u in s.sessions && s.sessions[u].ref == r && Owns(s.sessions[u]);
      assert u in s'.sessions;
    }
  }

  lemma ReleaseKeepsOwned<K, R, T>(s: System<K, R, T>, t: T)
    requires Owned(s) && Enabled(s, Release(t))
    ensures Owned(Next(s, Release(t))) && !Next(s, Release(t)).panicked
  {
    var s' := Next(s, Release(t));
    forall r | r in s'.locks.refs && s'.locks.refs[r].locked
      ensures exists u :: u in s'.sessions && s'.sessions[u].ref == r && Owns(s'.sessions[u])
    {
      var u :| u in s.sessions && s.sessions[u].ref == r && Owns(s.sessions[u]);
      assert u in s'.sessions;
    }
  }

  lemma ReleaseKeepsInv<K, R, T>(s: System<K, R, T>, t: T)
    requires Inv(s) && Enabled(s, Release(t))
    ensures Inv(Next(s, Release(t)))
  {
    var s' := Next(s, Release(t));
    ReleaseKeepsOwned(s, t);
    forall k | k in s'.locks.entries
      ensures s'.locks.refs[s'.locks.entries[k]].count == |Users(s'.sessions, s'.locks.entries[k])| > 0
    {
      UsersSame(s.sessions, s'.sessions, s.locks.entries[k]);
    }
  }

  lemma UnlockKeepsInv<K, R, T>(s: System<K, R, T>, t: T)
    requires Inv(s) && Enabled(s, Unlock(t))
    ensures Inv(Next(s, Unlock(t)))
  {
    LeaveKeepsCounted(s, Next(s, Unlock(t)), t);
    UnlockKeepsOwned(s, t);
  }

  lemma BackOutKeepsInv<K, R, T>(s: System<K, R, T>, t: T)
    requires Inv(s) && Enabled(s, BackOut(t))
    ensures Inv(Next(s, BackOut(t)))
  {
    LeaveKeepsCounted(s, Next(s, BackOut(t)), t);
    KeepOwners(s, Next(s, BackOut(t)), t);
  }

  lemma StepKeepsInv<K, R, T>(s: System<K, R, T>, a: Action<K, R, T>)
    requires Inv(s) && Enabled(s, a)
    ensures Inv(Next(s, a))
  {
    match a
    case Lock(t, k, r) => EnterKeepsInv(s, t, k, r, Waiting);
    case TryLock(t, k, r) => EnterKeepsInv(s, t, k, r, Trying);
    case Acquire(t) => TakeKeepsInv(s, t);
    case TryAcquire(t) => TakeKeepsInv(s, t);
    case TryFail(t) => TryFailKeepsInv(s, t);
    case Unlock(t) => UnlockKeepsInv(s, t);
    case Release(t) => ReleaseKeepsInv(s, t);
    case BackOut(t) => BackOutKeepsInv(s, t);
  }

  // ---- Runs ----

  ghost predicate IsRun<K, R, T>(actions: seq<Action<K, R, T>>, states: seq<System<K, R, T>>) {
    && |states| == |actions| + 1
    && states[0] == System(Locks(map[], map[]), map[], false)
    && (forall i | 0 <= i < |actions| :: Enabled(states[i], actions[i]) && states[i + 1] == Next(states[i], actions[i]))
  }

  lemma {:induction false} RunKeepsInv<K, R, T>(actions: seq<Action<K, R, T>>, states: seq<System<K, R, T>>, i: nat)
    requires IsRun(actions, states) && i < |states|
    ensures Inv(states[i])
  {
    if i > 0 {
      RunKeepsInv(actions, states, i - 1);
      StepKeepsInv(states[i - 1], actions[i - 1]);
    }
  }

  /** At most one session is inside the critical section of a key, whatever was deleted and recreated. */
  lemma MutualExclusion<K, R, T>(actions: seq<Action<K, R, T>>, states: seq<System<K, R, T>>, i: nat, t: T, t': T)
    requires IsRun(actions, states) && i < |states|
    requires At(states[i], t, Inside) && At(states[i], t', Inside)
    requires states[i].sessions[t].key == states[i].sessions[t'].key
    ensures t == t'
  {
    RunKeepsInv(actions, states, i);
  }

  /** In every run: a count is the number of sessions using the entry, a key has an entry exactly while
      some session uses it, and no unlock ever panics. */
  lemma ExactCounting<K, R, T>(actions: seq<Action<K, R, T>>, states: seq<System<K, R, T>>, i: nat, k: K)
    requires IsRun(actions, states) && i < |states|
    ensures !states[i].panicked
    ensures k in states[i].locks.entries <==>
            exists t :: t in states[i].sessions && states[i].sessions[t].key == k && states[i].sessions[t].stage != Releasing
    ensures k in states[i].locks.entries ==>
            var r := states[i].locks.entries[k];
            r in states[i].locks.refs && states[i].locks.refs[r].count == |Users(states[i].sessions, r)| > 0
    ensures states[i].sessions == map[] ==> states[i].locks.entries == map[]
  {
    RunKeepsInv(actions, states, i);
    var s := states[i];
    if k in s.locks.entries {
      var t :| t in Users(s.sessions, s.locks.entries[k]);
      assert s.sessions[t].key == k;
    }
    forall q | q in s.locks.entries ensures exists t :: t in s.sessions {
      var t :| t in Users(s.sessions, s.locks.entries[q]);
      assert t in s.sessions;
    }
  }

  /** The inner mutex a session waits for is free, or owned by a session that can take its next step. */
  lemma WaiterIsNeverStuck<K, R, T>(actions: seq<Action<K, R, T>>, states: seq<System<K, R, T>>, i: nat, t: T)
    requires IsRun(actions, states) && i < |states| && At(states[i], t, Waiting)
    ensures
      || Enabled(states[i], Acquire(t))
      || (exists u :: && u != t && u in states[i].sessions
                      && states[i].sessions[u].ref == states[i].sessions[t].ref
                      && (Enabled(states[i], Unlock(u)) || Enabled(states[i], Release(u))))
  {
    RunKeepsInv(actions, states, i);
    var s := states[i];
    if s.locks.refs[s.sessions[t].ref].locked {
      var u :| u in s.sessions && s.sessions[u].ref == s.sessions[t].ref && Owns(s.sessions[u]);
      assert Enabled(s, Unlock(u)) || Enabled(s, Release(u));
    }
  }

  // ---- What IsLocked says ----

  /** The answer of IsLocked. */
  predicate Reported<K, R, T>(s: System<K, R, T>, k: K) {
    k in s.locks.entries
  }

  /** Some session is inside the critical section of the key. */
  ghost predicate Entered<K, R, T(!new)>(s: System<K, R, T>, k: K) {
    exists t :: t in s.sessions && s.sessions[t].key == k && s.sessions[t].stage == Inside
  }

  /** Some session holds an inner mutex of the key, be it only to release it. */
  ghost predicate Held<K, R, T(!new)>(s: System<K, R, T>, k: K) {
    exists t :: t in s.sessions && s.sessions[t].key == k && Owns(s.sessions[t])
  }

  /** Some session asks for the key: it waits for it, tries it, or backs out of a failed try. */
  ghost predicate AskedFor<K, R, T(!new)>(s: System<K, R, T>, k: K) {
    exists t :: t in s.sessions && s.sessions[t].key == k && s.sessions[t].stage in {Waiting, Trying, BackingOut}
  }

  ghost predicate BeingReleased<K, R, T(!new)>(s: System<K, R, T>, k: K) {
    exists t :: t in s.sessions && s.sessions[t].key == k && s.sessions[t].stage == Releasing
  }

  /** In every run IsLocked says whether a session is inside the key's critical section exactly when the key is
      not asked for, or somebody is inside while it is. */
  lemma IsLockedExactlyInside<K, R, T(!new)>(
    actions: seq<Action<K, R, T>>, states: seq<System<K, R, T>>, i: nat, k: K)
    requires IsRun(actions, states) && i < |states|
    ensures (Reported(states[i], k) <==> Entered(states[i], k))
            <==> (AskedFor(states[i], k) ==> Entered(states[i], k))
  {
    ReportedExactly(actions, states, i, k);
  }

  /** In every run IsLocked says whether some inner mutex of the key is held exactly when a key asked for is held,
      and a key being released is also entered or asked for by another session. */
  lemma IsLockedExactlyHeld<K, R, T(!new)>(
    actions: seq<Action<K, R, T>>, states: seq<System<K, R, T>>, i: nat, k: K)
    requires IsRun(actions, states) && i < |states|
    ensures (Reported(states[i], k) <==> Held(states[i], k))
            <==> && (AskedFor(states[i], k) ==> Held(states[i], k))
                 && (BeingReleased(states[i], k) ==> Entered(states[i], k) || AskedFor(states[i], k))
  {
    ReportedExactly(actions, states, i, k);
    HeldMeans(states[i], k);
  }

  lemma HeldMeans<K, R, T(!new)>(s: System<K, R, T>, k: K)
    ensures Held(s, k) <==> Entered(s, k) || BeingReleased(s, k)
  {
    if Held(s, k) {
      var t :| t in s.sessions && s.sessions[t].key == k && Owns(s.sessions[t]);
      assert s.sessions[t].stage == Inside || s.sessions[t].stage == Releasing;
    }
    if t :| t in s.sessions && s.sessions[t].key == k && (s.sessions[t].stage == Inside || s.sessions[t].stage == Releasing) {
      assert Owns(s.sessions[t]);
    }
  }

  /** IsLocked reports the keys that are entered or asked for. */
  lemma ReportedExactly<K, R, T(!new)>(
    actions: seq<Action<K, R, T>>, states: seq<System<K, R, T>>, i: nat, k: K)
    requires IsRun(actions, states) && i < |states|
    ensures Reported(states[i], k) <==> Entered(states[i], k) || AskedFor(states[i], k)
  {
    ExactCounting(actions, states, i, k);
    var s := states[i];
    if t :| t in s.sessions && s.sessions[t].key == k && s.sessions[t].stage != Releasing {
      assert s.sessions[t].stage in {Waiting, Trying, BackingOut} || s.sessions[t].stage == Inside;
    }
  }

  /** IsLocked says yes while no session is inside the key's critical section: the first caller has yet to lock
      the inner mutex. */
  lemma EntryWithoutHolder<K, R, T>(k: K, r: R, t: T) returns (actions: seq<Action<K, R, T>>, states: seq<System<K, R, T>>)
    ensures IsRun(actions, states) && Reported(states[|actions|], k)
    ensures forall u | u in states[|actions|].sessions :: !Owns(states[|actions|].sessions[u])
  {
    var s0: System<K, R, T> := System(Locks(map[], map[]), map[], false);
    actions, states := [Lock(t, k, r)], [s0, Next(s0, Lock(t, k, r))];
  }

  /** IsLocked says no while a session still holds the inner mutex it is about to release. */
  lemma HolderWithoutEntry<K, R, T>(k: K, r: R, t: T) returns (actions: seq<Action<K, R, T>>, states: seq<System<K, R, T>>)
    ensures IsRun(actions, states) && !Reported(states[|actions|], k)
    ensures var s := states[|actions|];
            At(s, t, Releasing) && s.sessions[t].key == k && s.sessions[t].ref in s.locks.refs
            && s.locks.refs[s.sessions[t].ref].locked
  {
    var s0: System<K, R, T> := System(Locks(map[], map[]), map[], false);
    var s1 := Next(s0, Lock(t, k, r));
    var s2 := Next(s1, Acquire(t));
    actions, states := [Lock(t, k, r), Acquire(t), Unlock(t)], [s0, s1, s2, Next(s2, Unlock(t))];
  }

  /** Two inner mutexes can exist for one key at the same time: the deleted one, still locked by the
      session releasing it, and the new one, already held by the next session. */
  lemma TwoMutexesForOneKey<K, R, T>(k: K, r: R, r': R, t: T, u: T)
    returns (actions: seq<Action<K, R, T>>, states: seq<System<K, R, T>>)
    requires r != r' && t != u
    ensures IsRun(actions, states)
    ensures var s := states[|actions|];
            At(s, t, Releasing) && At(s, u, Inside) && s.sessions[t].key == s.sessions[u].key == k
            && s.sessions[t].ref == r && s.sessions[u].ref == r'
            && r in s.locks.refs && r' in s.locks.refs && s.locks.refs[r].locked && s.locks.refs[r'].locked
  {
    var s0: System<K, R, T> := System(Locks(map[], map[]), map[], false);
    var s1 := Next(s0, Lock(t, k, r));
    var s2 := Next(s1, Acquire(t));
    var s3 := Next(s2, Unlock(t));
    var s4 := Next(s3, Lock(u, k, r'));
    var s5 := Next(s4, Acquire(u));
    actions := [Lock(t, k, r), Acquire(t), Unlock(t), Lock(u, k, r'), Acquire(u)];
    states := [s0, s1, s2, s3, s4, s5];
  }

  // ---- The object ----

  class RefCounter {
    var count: int
    var locked: bool

    constructor ()
      ensures count == 0 && !locked
    {
      count, locked := 0, false;
    }
  }

  class KeyMutex<K(==)> {
    var locks: map<K, RefCounter>
    ghost var refs: set<RefCounter>

    ghost predicate Valid()
      reads this
    {
      forall k | k in locks :: locks[k] in refs
    }

    ghost function View(): Locks<K, RefCounter>
      reads this, refs
    {
      Locks(locks, map r | r in refs :: Ref(r.count, r.locked))
    }

    constructor ()
      ensures Valid() && View() == Locks(map[], map[])
    {
      locks, refs := map[], {};
    }

    /** Reports whether the key has an entry. */
    method IsLocked(key: K) returns (present: bool)
      ensures present <==> key in View().entries
    {
      present := key in locks;
    }

    /** The section that opens Lock and TryLock. */
    method EnterSection(key: K) returns (ref: RefCounter)
      requires Valid()
      modifies this, refs
      ensures Valid() && fresh(refs - old(refs)) && ref in refs
      ensures CanEnter(old(View()), key, ref) && View() == Enter(old(View()), key, ref)
    {
      if key in locks {
        ref := locks[key];
      } else {
        ref := new RefCounter();
        locks := locks[key := ref];
        refs := refs + {ref};
      }
      ref.count := ref.count + 1;
    }

    /** The section that opens Unlock; None is the panic on an unknown key. */
    method UnlockSection(key: K) returns (ref: RefCounter?)
      requires Valid()
      modifies this, refs
      ensures Valid() && refs == old(refs)
      ensures ref == null <==> key !in old(locks)
      ensures ref == null ==> View() == old(View())
      ensures ref != null ==> ref == old(locks[key]) && View() == Leave(old(View()), key, ref)
    {
      if key !in locks {
        return null;
      }
      ref := locks[key];
      Uncount(key, ref);
    }

    /** The section that ends a failed TryLock. */
    method BackOutSection(key: K, ref: RefCounter)
      requires Valid() && ref in refs
      modifies this, refs
      ensures Valid() && refs == old(refs) && View() == Leave(old(View()), key, ref)
    {
      Uncount(key, ref);
    }

    method Uncount(key: K, ref: RefCounter)
      requires Valid() && ref in refs
      modifies this, ref
      ensures Valid() && refs == old(refs) && View() == Leave(old(View()), key, ref)
    {
      ref.count := ref.count - 1;
      if ref.count == 0 {
        locks := locks - {key};
      }
    }

    /** The inner mutex, tried without blocking. */
    method TryInner(ref: RefCounter) returns (ok: bool)
      requires Valid() && ref in refs
      modifies ref
      ensures ok <==> !old(ref.locked)
      ensures View() == if ok then SetLocked(old(View()), ref, true) else old(View())
    {
      ok := !ref.locked;
      ref.locked := true;
    }

    method UnlockInner(ref: RefCounter)
      requires Valid() && ref in refs && ref.locked
      modifies ref
      ensures View() == SetLocked(old(View()), ref, false)
    {
      ref.locked := false;
    }
  }
}
