/** The job manager over its in-memory store: additions, resolutions (also those of timers and contexts, which
    may come at any time), removals, cancellations and the close, in every interleaving. Each caller takes an
    entry out of the store under the lock and finishes it after releasing the lock. */
module Jobs {
  import opened Wrappers

  type Chan = nat

  /** The fields of an entry. `job` numbers the accepted jobs; an entry object serves many jobs in turn. */
  datatype Entry = Entry(callback: bool, waitCh: Option<Chan>, keepAlive: bool, job: nat)

  datatype Manager<K(==), E(==)> = Manager(
    store: map<K, E>, entries: map<E, Entry>, pool: set<E>, closed: bool, capacity: int)

  // ---- The sections under the lock ----

  datatype Verdict = Accepted | ManagerClosed | CapacityReached | Duplicate

  function Admit<K, E>(m: Manager<K, E>, id: K): Verdict {
    if m.closed then ManagerClosed
    else if m.capacity > 0 && |m.store| >= m.capacity then CapacityReached
    else if id in m.store then Duplicate
    else Accepted
  }

  function AddEntry<K, E>(m: Manager<K, E>, id: K, e: E, entry: Entry): Manager<K, E> {
    m.(store := m.store[id := e], entries := m.entries[e := entry], pool := m.pool - {e})
  }

  predicate Finds<K, E>(m: Manager<K, E>, id: K) {
    !m.closed && id in m.store && m.store[id] in m.entries
  }

  function Detach<K, E>(m: Manager<K, E>, id: K): Manager<K, E> {
    m.(store := m.store - {id})
  }

  function DetachAll<K, E>(m: Manager<K, E>): Manager<K, E> {
    m.(store := map[])
  }

  /** Outside the lock: the entry is cleared and put back into the pool. */
  function Recycle<K, E>(m: Manager<K, E>, e: E): Manager<K, E>
    requires e in m.entries
  {
    m.(entries := m.entries[e := m.entries[e].(callback := false, waitCh := None)], pool := m.pool + {e})
  }

  /** A keep-alive entry after a resolution: its waiter is gone, its callback stays. */
  function Keep<K, E>(m: Manager<K, E>, e: E): Manager<K, E>
    requires e in m.entries
  {
    m.(entries := m.entries[e := m.entries[e].(waitCh := None)])
  }

  // ---- The system ----

  /** What a caller holds between its section and its end. */
  datatype Hand<E(==), R> = Resolving(e: E, reply: R) | Removing(e: E) | Sweeping(es: set<E>)

  function HandEntries<E, R>(h: Hand<E, R>): set<E> {
    match h
    case Resolving(e, _) => {e}
    case Removing(e) => {e}
    case Sweeping(es) => es
  }

  datatype Place<K, T> = InPool | InStore(k: K) | InHand(t: T)

  /** What became of one accepted job. */
  datatype Job<E> = Job(callback: bool, keepAlive: bool, at: Option<E>, leaves: nat, dispatches: nat, removed: bool)

  /** A wait channel: open, closed with the reply in it, or closed empty. */
  datatype Wait<R> = Open | Holds(r: R) | Empty

  datatype System<K(==), E(==), T(==), R> = System(
    m: Manager<K, E>,
    hands: map<T, Hand<E, R>>,
    places: map<E, Place<K, T>>,
    jobs: seq<Job<E>>,
    chans: map<Chan, Wait<R>>,
    owners: map<Chan, E>,         // the entry a wait channel was made for
    panicked: bool)               // a wait channel was closed twice, or sent on after its close

  datatype Action<K, E, T, R> =
    | Add(id: K, e: E, callback: bool, waitCh: Option<Chan>, keepAlive: bool)
    | Resolve(t: T, id: K, reply: R)
    | ResolveEnd(t: T)
    | ResolveKept(id: K, reply: R)     // a keep-alive job, whose operations do not overlap
    | Remove(t: T, id: K)
    | RemoveEnd(t: T)
    | CancelAll(t: T)
    | Close(t: T)
    | SweepOne(t: T, e: E)
    | SweepEnd(t: T)

  predicate Enabled<K, E, T, R>(s: System<K, E, T, R>, a: Action<K, E, T, R>) {
    match a
    case Add(id, e, _, w, _) =>
      && Admit(s.m, id) == Accepted
      && (e in s.m.pool || e !in s.m.entries)     // the pool hands out an old entry or a new one
      && (w.Some? ==> w.value !in s.chans)
    case Resolve(t, id, _) => t !in s.hands && Finds(s.m, id) && !s.m.entries[s.m.store[id]].keepAlive
    case ResolveEnd(t) => t in s.hands && s.hands[t].Resolving? && s.hands[t].e in s.m.entries
    case ResolveKept(id, _) => Finds(s.m, id) && s.m.entries[s.m.store[id]].keepAlive
    case Remove(t, id) => t !in s.hands && Finds(s.m, id)
    case RemoveEnd(t) => t in s.hands && s.hands[t].Removing? && s.hands[t].e in s.m.entries
    case CancelAll(t) => t !in s.hands
    case Close(t) => t !in s.hands && !s.m.closed
    case SweepOne(t, e) => t in s.hands && s.hands[t].Sweeping? && e in s.hands[t].es && e in s.m.entries
    case SweepEnd(t) => t in s.hands && s.hands[t] == Sweeping({})
  }

  function JobOf<K, E, T, R>(s: System<K, E, T, R>, e: E): nat
    requires e in s.m.entries
  {
    s.m.entries[e].job
  }

  function UpdateJob<E>(jobs: seq<Job<E>>, j: nat, job: Job<E>): seq<Job<E>> {
    if j < |jobs| then jobs[j := job] else jobs
  }

  function JobAt<E>(jobs: seq<Job<E>>, j: nat): Job<E> {
    if j < |jobs| then jobs[j] else Job(false, false, None, 0, 0, false)
  }

  /** Taking one entry out of the store. */
  function Grab<K, E, T, R>(s: System<K, E, T, R>, t: T, id: K, h: Hand<E, R>): System<K, E, T, R>
    requires Finds(s.m, id)
  {
    var e := s.m.store[id];
    var job := JobAt(s.jobs, JobOf(s, e));
    s.(m := Detach(s.m, id), hands := s.hands[t := h], places := s.places[e := InHand(t)],
       jobs := UpdateJob(s.jobs, JobOf(s, e), job.(leaves := job.leaves + 1, removed := h.Removing?)))
  }

  /** Taking every entry out of the store. */
  function GrabAll<K, E, T, R>(s: System<K, E, T, R>, t: T): System<K, E, T, R> {
    var es := s.m.store.Values;
    s.(m := DetachAll(s.m), hands := s.hands[t := Sweeping(es)],
       places := map e | e in s.places :: if e in es then InHand(t) else s.places[e],
       jobs := seq(|s.jobs|, j requires 0 <= j < |s.jobs| =>
         if s.jobs[j].at.Some? && s.jobs[j].at.value in es then s.jobs[j].(leaves := s.jobs[j].leaves + 1) else s.jobs[j]))
  }

  function CloseWait<R>(chans: map<Chan, Wait<R>>, w: Option<Chan>, to: Wait<R>): map<Chan, Wait<R>> {
    if w.Some? then chans[w.value := to] else chans
  }

  /** Finishing a detached entry: unblock the waiter, dispatch the callback, recycle the entry. */
  function Settle<K, E, T, R>(s: System<K, E, T, R>, e: E, to: Wait<R>, dispatch: bool): System<K, E, T, R>
    requires e in s.m.entries
  {
    var entry := s.m.entries[e];
    var job := JobAt(s.jobs, entry.job);
    var d := if dispatch && entry.callback then 1 else 0;
    s.(m := Recycle(s.m, e), places := s.places[e := InPool],
       jobs := UpdateJob(s.jobs, entry.job, job.(at := None, dispatches := job.dispatches + d)),
       chans := CloseWait(s.chans, entry.waitCh, to),
       panicked := s.panicked || (entry.waitCh.Some? && (entry.waitCh.value !in s.chans || !s.chans[entry.waitCh.value].Open?)))
  }

  function Next<K, E, T, R>(s: System<K, E, T, R>, a: Action<K, E, T, R>): System<K, E, T, R>
    requires Enabled(s, a)
  {
    match a
    case Add(id, e, cb, w, keep) =>
      s.(m := AddEntry(s.m, id, e, Entry(cb, w, keep, |s.jobs|)), places := s.places[e := InStore(id)],
         jobs := s.jobs + [Job(cb, keep, Some(e), 0, 0, false)], chans := CloseWait(s.chans, w, Open),
         owners := if w.Some? then s.owners[w.value := e] else s.owners)
    case Resolve(t, id, reply) => Grab(s, t, id, Resolving(s.m.store[id], reply))
    case ResolveEnd(t) => Settle(s, s.hands[t].e, Holds(s.hands[t].reply), true).(hands := s.hands - {t})
    case ResolveKept(id, reply) =>
      var e := s.m.store[id];
      var entry := s.m.entries[e];
      var job := JobAt(s.jobs, entry.job);
      s.(m := Keep(s.m, e),
         jobs := UpdateJob(s.jobs, entry.job, job.(dispatches := job.dispatches + if entry.callback then 1 else 0)),
         chans := CloseWait(s.chans, entry.waitCh, Holds(reply)),
         panicked := s.panicked || (entry.waitCh.Some? && (entry.waitCh.value !in s.chans || !s.chans[entry.waitCh.value].Open?)))
    case Remove(t, id) => Grab(s, t, id, Removing(s.m.store[id]))
    case RemoveEnd(t) => Settle(s, s.hands[t].e, Empty, false).(hands := s.hands - {t})
    case CancelAll(t) => GrabAll(s, t)
    case Close(t) => GrabAll(s.(m := s.m.(closed := true)), t)
    case SweepOne(t, e) =>
      Settle(s, e, Empty, true).(hands := s.hands[t := Sweeping(s.hands[t].es - {e})])
    case SweepEnd(t) => s.(hands := s.hands - {t})
  }

  // ---- The invariant ----

  /** The store never exceeds a positive capacity, and a closed manager stores nothing. */
  ghost predicate StoreIsBounded<K, E, T, R>(s: System<K, E, T, R>) {
    && (s.m.capacity > 0 ==> |s.m.store| <= s.m.capacity)
    && (s.m.closed ==> s.m.store == map[])
  }

  /** Each entry is in exactly one of the pool, the store under one key, and one caller's hands. */
  ghost predicate EntriesArePlaced<K, E, T, R>(s: System<K, E, T, R>) {
    && s.places.Keys == s.m.entries.Keys
    && s.m.pool <= s.m.entries.Keys
    && (forall e | e in s.places :: e in s.m.pool <==> s.places[e].InPool?)
    && (forall k | k in s.m.store :: s.m.store[k] in s.places && s.places[s.m.store[k]] == InStore(k))
    && (forall e | e in s.places && s.places[e].InStore? :: s.places[e].k in s.m.store && s.m.store[s.places[e].k] == e)
  }

  ghost predicate HandsAreDisjoint<K, E, T, R>(s: System<K, E, T, R>) {
    && (forall t | t in s.hands :: HandEntries(s.hands[t]) == set e | e in s.places && s.places[e] == InHand(t))
    && (forall e | e in s.places && s.places[e].InHand? :: s.places[e].t in s.hands)
  }

  /** A job leaves the store at most once; its callback is dispatched exactly once unless it was removed
      or is still on its way. */
  ghost predicate JobIsRight<K, E, T, R>(s: System<K, E, T, R>, job: Job<E>, j: nat) {
    if job.at.None? then
      job.leaves == 1 && (!job.keepAlive ==> job.dispatches == if job.callback && !job.removed then 1 else 0)
    else
      var e := job.at.value;
      && e in s.m.entries && e in s.places
      && s.m.entries[e].job == j && s.m.entries[e].callback == job.callback && s.m.entries[e].keepAlive == job.keepAlive
      && (!job.keepAlive ==> job.dispatches == 0)
      && (match s.places[e]
          case InPool => false
          case InStore(_) => job.leaves == 0 && !job.removed
          case InHand(t) => job.leaves == 1 && t in s.hands && (job.removed <==> s.hands[t].Removing?))
  }

  ghost predicate JobsAreRight<K, E, T, R>(s: System<K, E, T, R>) {
    forall j | 0 <= j < |s.jobs| :: JobIsRight(s, s.jobs[j], j)
  }

  /** An entry outside the pool serves one job, and its wait channel is open and its own. */
  ghost predicate EntryIsRight<K, E, T, R>(s: System<K, E, T, R>, e: E)
    requires e in s.m.entries
  {
    var entry := s.m.entries[e];
    && entry.job < |s.jobs| && s.jobs[entry.job].at == Some(e)
    && (entry.waitCh.Some? ==>
          var w := entry.waitCh.value;
          w in s.chans && s.chans[w].Open? && w in s.owners && s.owners[w] == e)
  }

  ghost predicate EntriesAreRight<K, E, T, R>(s: System<K, E, T, R>) {
    forall e | e in s.m.entries && e !in s.m.pool :: EntryIsRight(s, e)
  }

  /** A wait channel that is still open belongs to an entry outside the pool. */
  ghost predicate OpenChansAreHeld<K, E, T, R>(s: System<K, E, T, R>) {
    && s.owners.Keys == s.chans.Keys
    && (forall c | c in s.chans && s.chans[c].Open? ::
          && s.owners[c] in s.m.entries && s.owners[c] !in s.m.pool
          && s.m.entries[s.owners[c]].waitCh == Some(c))
  }

  ghost predicate Inv<K, E, T, R>(s: System<K, E, T, R>) {
    && !s.panicked && StoreIsBounded(s)
    && EntriesArePlaced(s) && HandsAreDisjoint(s) && JobsAreRight(s) && EntriesAreRight(s)
    && OpenChansAreHeld(s)
  }

  // ---- Adding ----

  lemma AddKeepsPlaces<K, E, T, R>(s: System<K, E, T, R>, id: K, e: E, cb: bool, w: Option<Chan>, keep: bool)
    requires StoreIsBounded(s) && EntriesArePlaced(s) && HandsAreDisjoint(s) && Enabled(s, Add(id, e, cb, w, keep))
    ensures var s' := Next(s, Add(id, e, cb, w, keep)); StoreIsBounded(s') && EntriesArePlaced(s')
  {
  }

  lemma AddKeepsHands<K, E, T, R>(s: System<K, E, T, R>, id: K, e: E, cb: bool, w: Option<Chan>, keep: bool)
    requires EntriesArePlaced(s) && HandsAreDisjoint(s) && Enabled(s, Add(id, e, cb, w, keep))
    ensures HandsAreDisjoint(Next(s, Add(id, e, cb, w, keep)))
  {
    var s' := Next(s, Add(id, e, cb, w, keep));
    forall t | t in s'.hands
      ensures HandEntries(s'.hands[t]) == set x | x in s'.places && s'.places[x] == InHand(t)
    {
      assert HandEntries(s.hands[t]) == set x | x in s.places && s.places[x] == InHand(t);
    }
  }

  lemma AddKeepsJobs<K, E, T, R>(s: System<K, E, T, R>, id: K, e: E, cb: bool, w: Option<Chan>, keep: bool)
    requires EntriesArePlaced(s) && JobsAreRight(s) && Enabled(s, Add(id, e, cb, w, keep))
    ensures JobsAreRight(Next(s, Add(id, e, cb, w, keep)))
  {
    var s' := Next(s, Add(id, e, cb, w, keep));
    forall j | 0 <= j < |s'.jobs| ensures JobIsRight(s', s'.jobs[j], j) {
      if j < |s.jobs| {
        assert JobIsRight(s, s.jobs[j], j);
      }
    }
  }

  lemma AddKeepsEntries<K, E, T, R>(s: System<K, E, T, R>, id: K, e: E, cb: bool, w: Option<Chan>, keep: bool)
    requires EntriesAreRight(s) && s.owners.Keys == s.chans.Keys && Enabled(s, Add(id, e, cb, w, keep))
    ensures EntriesAreRight(Next(s, Add(id, e, cb, w, keep)))
  {
    var s' := Next(s, Add(id, e, cb, w, keep));
    forall x | x in s'.m.entries && x !in s'.m.pool ensures EntryIsRight(s', x) {
      if x != e {
        assert EntryIsRight(s, x);
      }
    }
  }

  lemma AddKeepsChans<K, E, T, R>(s: System<K, E, T, R>, id: K, e: E, cb: bool, w: Option<Chan>, keep: bool)
    requires OpenChansAreHeld(s) && Enabled(s, Add(id, e, cb, w, keep))
    ensures OpenChansAreHeld(Next(s, Add(id, e, cb, w, keep)))
  {
  }

  // ---- Taking entries out of the store ----

  lemma GrabKeepsPlaces<K, E, T, R>(s: System<K, E, T, R>, t: T, id: K, h: Hand<E, R>)
    requires StoreIsBounded(s) && EntriesArePlaced(s) && Finds(s.m, id)
    ensures StoreIsBounded(Grab(s, t, id, h)) && EntriesArePlaced(Grab(s, t, id, h))
  {
  }

  lemma GrabKeepsHands<K, E, T, R>(s: System<K, E, T, R>, t: T, id: K, h: Hand<E, R>)
    requires EntriesArePlaced(s) && HandsAreDisjoint(s)
    requires Finds(s.m, id) && t !in s.hands && HandEntries(h) == {s.m.store[id]}
    ensures HandsAreDisjoint(Grab(s, t, id, h))
  {
    var s' := Grab(s, t, id, h);
    forall u | u in s'.hands
      ensures HandEntries(s'.hands[u]) == set e | e in s'.places && s'.places[e] == InHand(u)
    {
      if u != t {
        assert HandEntries(s.hands[u]) == set e | e in s.places && s.places[e] == InHand(u);
      }
    }
  }

  lemma GrabKeepsJobs<K, E, T, R>(s: System<K, E, T, R>, t: T, id: K, h: Hand<E, R>)
    requires EntriesArePlaced(s) && JobsAreRight(s) && EntriesAreRight(s) && Finds(s.m, id) && t !in s.hands
    ensures JobsAreRight(Grab(s, t, id, h))
  {
    var s' := Grab(s, t, id, h);
    var e := s.m.store[id];
    assert EntryIsRight(s, e);
    forall j | 0 <= j < |s'.jobs| ensures JobIsRight(s', s'.jobs[j], j) {
      assert JobIsRight(s, s.jobs[j], j);
    }
  }

  lemma GrabKeepsEntries<K, E, T, R>(s: System<K, E, T, R>, t: T, id: K, h: Hand<E, R>)
    requires EntriesAreRight(s) && Finds(s.m, id)
    ensures EntriesAreRight(Grab(s, t, id, h))
  {
    var s' := Grab(s, t, id, h);
    forall x | x in s'.m.entries && x !in s'.m.pool ensures EntryIsRight(s', x) {
      assert EntryIsRight(s, x);
    }
  }

  lemma GrabKeepsInv<K, E, T, R>(s: System<K, E, T, R>, t: T, id: K, h: Hand<E, R>)
    requires Inv(s) && Finds(s.m, id) && t !in s.hands && HandEntries(h) == {s.m.store[id]}
    ensures Inv(Grab(s, t, id, h))
  {
    GrabKeepsPlaces(s, t, id, h);
    GrabKeepsHands(s, t, id, h);
    GrabKeepsJobs(s, t, id, h);
    GrabKeepsEntries(s, t, id, h);
  }

  lemma GrabAllKeepsPlaces<K, E, T, R>(s: System<K, E, T, R>, t: T)
    requires StoreIsBounded(s) && EntriesArePlaced(s)
    ensures StoreIsBounded(GrabAll(s, t)) && EntriesArePlaced(GrabAll(s, t))
  {
  }

  lemma GrabAllKeepsHands<K, E, T, R>(s: System<K, E, T, R>, t: T)
    requires EntriesArePlaced(s) && HandsAreDisjoint(s) && t !in s.hands
    ensures HandsAreDisjoint(GrabAll(s, t))
  {
    var s' := GrabAll(s, t);
    forall u | u in s'.hands
      ensures HandEntries(s'.hands[u]) == set e | e in s'.places && s'.places[e] == InHand(u)
    {
      if u != t {
        assert HandEntries(s.hands[u]) == set e | e in s.places && s.places[e] == InHand(u);
        forall e | e in s.m.store.Values ensures s.places[e].InStore? {
          var k :| k in s.m.store && s.m.store[k] == e;
        }
      } else {
        assert forall e | e in s.m.store.Values :: e in s.places by {
          forall e | e in s.m.store.Values ensures e in s.places {
            var k :| k in s.m.store && s.m.store[k] == e;
          }
        }
      }
    }
  }

  lemma GrabAllKeepsJobs<K, E, T, R>(s: System<K, E, T, R>, t: T)
    requires EntriesArePlaced(s) && JobsAreRight(s) && t !in s.hands
    ensures JobsAreRight(GrabAll(s, t))
  {
    var s' := GrabAll(s, t);
    forall j | 0 <= j < |s'.jobs| ensures JobIsRight(s', s'.jobs[j], j) {
      assert JobIsRight(s, s.jobs[j], j);
      if s.jobs[j].at.Some? {
        var e := s.jobs[j].at.value;
        if e in s.m.store.Values {
          var k :| k in s.m.store && s.m.store[k] == e;
          assert s.places[e].InStore?;
        }
      }
    }
  }

  lemma GrabAllKeepsEntries<K, E, T, R>(s: System<K, E, T, R>, t: T)
    requires EntriesAreRight(s)
    ensures EntriesAreRight(GrabAll(s, t))
  {
    var s' := GrabAll(s, t);
    forall x | x in s'.m.entries && x !in s'.m.pool ensures EntryIsRight(s', x) {
      assert EntryIsRight(s, x);
    }
  }

  lemma GrabAllKeepsInv<K, E, T, R>(s: System<K, E, T, R>, t: T)
    requires Inv(s) && t !in s.hands
    ensures Inv(GrabAll(s, t))
  {
    GrabAllKeepsPlaces(s, t);
    GrabAllKeepsHands(s, t);
    GrabAllKeepsJobs(s, t);
    GrabAllKeepsEntries(s, t);
  }

  // ---- Finishing a detached entry ----

  /** The caller's hand after it has finished one entry. */
  ghost predicate LetsGo<E, T, R>(hands: map<T, Hand<E, R>>, hands': map<T, Hand<E, R>>, t: T, e: E) {
    && t in hands && e in HandEntries(hands[t])
    && if hands[t].Sweeping? then hands' == hands[t := Sweeping(hands[t].es - {e})] else hands' == hands - {t}
  }

  lemma SettleKeepsPlaces<K, E, T, R>(s: System<K, E, T, R>, e: E, to: Wait<R>, dispatch: bool, hands: map<T, Hand<E, R>>)
    requires StoreIsBounded(s) && EntriesArePlaced(s) && e in s.m.entries && e in s.places && s.places[e].InHand?
    ensures var s' := Settle(s, e, to, dispatch).(hands := hands); StoreIsBounded(s') && EntriesArePlaced(s')
  {
    assert forall k | k in s.m.store :: s.m.store[k] != e;
  }

  lemma SettleKeepsHands<K, E, T, R>(s: System<K, E, T, R>, e: E, to: Wait<R>, dispatch: bool, t: T, hands: map<T, Hand<E, R>>)
    requires EntriesArePlaced(s) && HandsAreDisjoint(s) && e in s.m.entries && LetsGo(s.hands, hands, t, e)
    ensures HandsAreDisjoint(Settle(s, e, to, dispatch).(hands := hands))
  {
    var s' := Settle(s, e, to, dispatch).(hands := hands);
    assert HandEntries(s.hands[t]) == set x | x in s.places && s.places[x] == InHand(t);
    assert s.places[e] == InHand(t);
    forall u | u in hands
      ensures HandEntries(hands[u]) == set x | x in s'.places && s'.places[x] == InHand(u)
    {
      assert HandEntries(s.hands[u]) == set x | x in s.places && s.places[x] == InHand(u);
    }
    forall x | x in s'.places && s'.places[x].InHand? ensures s'.places[x].t in hands {
      if s'.places[x].t == t {
        assert x in HandEntries(s.hands[t]) && x != e;
      }
    }
  }

  lemma SettleKeepsJobs<K, E, T, R>(s: System<K, E, T, R>, e: E, to: Wait<R>, t: T, hands: map<T, Hand<E, R>>)
    requires EntriesArePlaced(s) && HandsAreDisjoint(s) && JobsAreRight(s) && EntriesAreRight(s)
    requires e in s.m.entries && LetsGo(s.hands, hands, t, e) && e in s.places && s.places[e] == InHand(t)
    ensures JobsAreRight(Settle(s, e, to, !s.hands[t].Removing?).(hands := hands))
  {
    var s' := Settle(s, e, to, !s.hands[t].Removing?).(hands := hands);
    assert EntryIsRight(s, e);
    forall j | 0 <= j < |s'.jobs| ensures JobIsRight(s', s'.jobs[j], j) {
      assert JobIsRight(s, s.jobs[j], j);
      if s.jobs[j].at.Some? && s.jobs[j].at.value != e && s.places[s.jobs[j].at.value] == InHand(t) {
        assert s.jobs[j].at.value in set x | x in s.places && s.places[x] == InHand(t);
      }
    }
  }

  lemma SettleKeepsEntries<K, E, T, R>(s: System<K, E, T, R>, e: E, to: Wait<R>, dispatch: bool, hands: map<T, Hand<E, R>>)
    requires EntriesAreRight(s) && e in s.m.entries && e !in s.m.pool
    ensures EntriesAreRight(Settle(s, e, to, dispatch).(hands := hands))
    ensures Settle(s, e, to, dispatch).panicked == s.panicked
  {
    var s' := Settle(s, e, to, dispatch).(hands := hands);
    assert EntryIsRight(s, e);
    forall x | x in s'.m.entries && x !in s'.m.pool ensures EntryIsRight(s', x) {
      assert EntryIsRight(s, x);
    }
  }

  lemma SettleKeepsChans<K, E, T, R>(s: System<K, E, T, R>, e: E, to: Wait<R>, dispatch: bool, hands: map<T, Hand<E, R>>)
    requires OpenChansAreHeld(s) && EntriesAreRight(s) && e in s.m.entries && e !in s.m.pool && !to.Open?
    ensures OpenChansAreHeld(Settle(s, e, to, dispatch).(hands := hands))
  {
    assert EntryIsRight(s, e);
  }

  lemma HeldIsInHand<K, E, T, R>(s: System<K, E, T, R>, t: T, e: E)
    requires HandsAreDisjoint(s) && t in s.hands && e in HandEntries(s.hands[t])
    ensures e in s.places && s.places[e] == InHand(t)
  {
    assert e in set x | x in s.places && s.places[x] == InHand(t);
  }

  lemma SettleKeepsInv<K, E, T, R>(s: System<K, E, T, R>, e: E, to: Wait<R>, t: T, hands: map<T, Hand<E, R>>)
    requires Inv(s) && e in s.m.entries && LetsGo(s.hands, hands, t, e) && !to.Open?
    ensures Inv(Settle(s, e, to, !s.hands[t].Removing?).(hands := hands))
  {
    var dispatch := !s.hands[t].Removing?;
    HeldIsInHand(s, t, e);
    SettleKeepsPlaces(s, e, to, dispatch, hands);
    SettleKeepsHands(s, e, to, dispatch, t, hands);
    SettleKeepsJobs(s, e, to, t, hands);
    SettleKeepsEntries(s, e, to, dispatch, hands);
    SettleKeepsChans(s, e, to, dispatch, hands);
  }

  // ---- Keep-alive jobs ----

  lemma KeptKeepsJobs<K, E, T, R>(s: System<K, E, T, R>, id: K, reply: R)
    requires JobsAreRight(s) && EntriesAreRight(s) && EntriesArePlaced(s) && Enabled(s, ResolveKept(id, reply))
    ensures JobsAreRight(Next(s, ResolveKept(id, reply)))
  {
    var s' := Next(s, ResolveKept(id, reply));
    assert EntryIsRight(s, s.m.store[id]);
    forall j | 0 <= j < |s'.jobs| ensures JobIsRight(s', s'.jobs[j], j) {
      assert JobIsRight(s, s.jobs[j], j);
    }
  }

  lemma KeptKeepsEntries<K, E, T, R>(s: System<K, E, T, R>, id: K, reply: R)
    requires EntriesAreRight(s) && EntriesArePlaced(s) && Enabled(s, ResolveKept(id, reply))
    ensures EntriesAreRight(Next(s, ResolveKept(id, reply))) && Next(s, ResolveKept(id, reply)).panicked == s.panicked
  {
    var s' := Next(s, ResolveKept(id, reply));
    assert EntryIsRight(s, s.m.store[id]);
    forall x | x in s'.m.entries && x !in s'.m.pool ensures EntryIsRight(s', x) {
      assert EntryIsRight(s, x);
    }
  }

  lemma KeptKeepsChans<K, E, T, R>(s: System<K, E, T, R>, id: K, reply: R)
    requires EntriesAreRight(s) && EntriesArePlaced(s) && OpenChansAreHeld(s) && Enabled(s, ResolveKept(id, reply))
    ensures OpenChansAreHeld(Next(s, ResolveKept(id, reply)))
  {
    assert EntryIsRight(s, s.m.store[id]);
  }

  lemma KeptKeepsPlaces<K, E, T, R>(s: System<K, E, T, R>, id: K, reply: R)
    requires StoreIsBounded(s) && EntriesArePlaced(s) && HandsAreDisjoint(s) && Enabled(s, ResolveKept(id, reply))
    ensures var s' := Next(s, ResolveKept(id, reply)); StoreIsBounded(s') && EntriesArePlaced(s') && HandsAreDisjoint(s')
  {
    var s' := Next(s, ResolveKept(id, reply));
    forall t | t in s'.hands
      ensures HandEntries(s'.hands[t]) == set x | x in s'.places && s'.places[x] == InHand(t)
    {
      assert HandEntries(s.hands[t]) == set x | x in s.places && s.places[x] == InHand(t);
    }
  }

  lemma SweepEndKeepsInv<K, E, T, R>(s: System<K, E, T, R>, t: T)
    requires Inv(s) && Enabled(s, SweepEnd(t))
    ensures Inv(Next(s, SweepEnd(t)))
  {
    var s' := Next(s, SweepEnd(t));
    assert HandEntries(s.hands[t]) == set x | x in s.places && s.places[x] == InHand(t);
    assert forall e | e in s.places :: s.places[e] == InHand(t) ==> e in HandEntries(s.hands[t]);
    forall u | u in s'.hands
      ensures HandEntries(s'.hands[u]) == set x | x in s'.places && s'.places[x] == InHand(u)
    {
      assert HandEntries(s.hands[u]) == set x | x in s.places && s.places[x] == InHand(u);
    }
    forall j | 0 <= j < |s'.jobs| ensures JobIsRight(s', s'.jobs[j], j) {
      assert JobIsRight(s, s.jobs[j], j);
    }
    forall x | x in s'.m.entries && x !in s'.m.pool ensures EntryIsRight(s', x) {
      assert EntryIsRight(s, x);
    }
  }

  lemma AddKeepsInv<K, E, T, R>(s: System<K, E, T, R>, id: K, e: E, cb: bool, w: Option<Chan>, keep: bool)
    requires Inv(s) && Enabled(s, Add(id, e, cb, w, keep))
    ensures Inv(Next(s, Add(id, e, cb, w, keep)))
  {
    AddKeepsPlaces(s, id, e, cb, w, keep);
    AddKeepsHands(s, id, e, cb, w, keep);
    AddKeepsJobs(s, id, e, cb, w, keep);
    AddKeepsEntries(s, id, e, cb, w, keep);
    AddKeepsChans(s, id, e, cb, w, keep);
  }

  lemma CloseIsSweep<K, E, T, R>(s: System<K, E, T, R>, t: T)
    requires Inv(s) && Enabled(s, Close(t))
    ensures Inv(Next(s, Close(t)))
  {
    GrabAllKeepsInv(s, t);
    var s1 := GrabAll(s, t);
    var s' := Next(s, Close(t));
    assert s' == s1.(m := s1.m.(closed := true));
    forall j | 0 <= j < |s'.jobs| ensures JobIsRight(s', s'.jobs[j], j) {
      assert JobIsRight(s1, s1.jobs[j], j);
    }
    forall x | x in s'.m.entries && x !in s'.m.pool ensures EntryIsRight(s', x) {
      assert EntryIsRight(s1, x);
    }
  }

  lemma StepKeepsInv<K, E, T, R>(s: System<K, E, T, R>, a: Action<K, E, T, R>)
    requires Inv(s) && Enabled(s, a)
    ensures Inv(Next(s, a))
  {
    match a
    case Add(id, e, cb, w, keep) => AddKeepsInv(s, id, e, cb, w, keep);
    case Resolve(t, id, reply) => GrabKeepsInv(s, t, id, Resolving(s.m.store[id], reply));
    case ResolveEnd(t) => SettleKeepsInv(s, s.hands[t].e, Holds(s.hands[t].reply), t, s.hands - {t});
    case ResolveKept(id, reply) =>
      KeptKeepsPlaces(s, id, reply);
      KeptKeepsJobs(s, id, reply);
      KeptKeepsEntries(s, id, reply);
      KeptKeepsChans(s, id, reply);
    case Remove(t, id) => GrabKeepsInv(s, t, id, Removing(s.m.store[id]));
    case RemoveEnd(t) => SettleKeepsInv(s, s.hands[t].e, Empty, t, s.hands - {t});
    case CancelAll(t) => GrabAllKeepsInv(s, t);
    case Close(t) => CloseIsSweep(s, t);
    case SweepOne(t, e) => SettleKeepsInv(s, e, Empty, t, s.hands[t := Sweeping(s.hands[t].es - {e})]);
    case SweepEnd(t) => SweepEndKeepsInv(s, t);
  }

  // ---- Runs ----

  ghost predicate IsRun<K, E, T, R>(actions: seq<Action<K, E, T, R>>, states: seq<System<K, E, T, R>>) {
    && |states| == |actions| + 1
    && states[0] == System(Manager(map[], map[], {}, false, states[0].m.capacity), map[], map[], [], map[], map[], false)
    && (forall i | 0 <= i < |actions| :: Enabled(states[i], actions[i]) && states[i + 1] == Next(states[i], actions[i]))
  }

  lemma {:induction false} RunKeepsInv<K, E, T, R>(
    actions: seq<Action<K, E, T, R>>, states: seq<System<K, E, T, R>>, i: nat)
    requires IsRun(actions, states) && i < |states|
    ensures Inv(states[i])
  {
    if i > 0 {
      RunKeepsInv(actions, states, i - 1);
      StepKeepsInv(states[i - 1], actions[i - 1]);
    }
  }

  /** In every interleaving each accepted job leaves the store at most once, and one that is not keep-alive has
      its callback dispatched exactly once when it has one and is neither removed nor still on its way. */
  lemma CallbacksRunExactlyOnce<K, E, T, R>(
    actions: seq<Action<K, E, T, R>>, states: seq<System<K, E, T, R>>, i: nat, j: nat)
    requires IsRun(actions, states) && i < |states| && j < |states[i].jobs|
    ensures var job := states[i].jobs[j];
            && job.leaves <= 1
            && (job.at.None? ==> job.leaves == 1)
            && (!job.keepAlive ==> job.dispatches == if job.at.None? && job.callback && !job.removed then 1 else 0)
  {
    RunKeepsInv(actions, states, i);
    assert JobIsRight(states[i], states[i].jobs[j], j);
  }

  /** In every interleaving each entry object is in exactly one of the pool, the store and one caller's hands. */
  lemma EntriesAreConserved<K, E, T, R>(
    actions: seq<Action<K, E, T, R>>, states: seq<System<K, E, T, R>>, i: nat, e: E)
    requires IsRun(actions, states) && i < |states| && e in states[i].m.entries
    ensures var s := states[i];
            && e in s.places
            && (e in s.m.pool <==> s.places[e] == InPool)
            && (forall k :: k in s.m.store && s.m.store[k] == e <==> s.places[e] == InStore(k))
            && (forall t :: t in s.hands && e in HandEntries(s.hands[t]) <==> s.places[e] == InHand(t))
  {
    RunKeepsInv(actions, states, i);
    var s := states[i];
    forall t ensures t in s.hands && e in HandEntries(s.hands[t]) <==> s.places[e] == InHand(t) {
      if t in s.hands {
        assert HandEntries(s.hands[t]) == set x | x in s.places && s.places[x] == InHand(t);
      }
    }
  }

  /** In every interleaving the store respects the capacity and is empty once closed, no wait channel is closed
      twice, and whoever holds a detached entry can finish it. */
  lemma ManagerStaysSound<K, E, T, R>(
    actions: seq<Action<K, E, T, R>>, states: seq<System<K, E, T, R>>, i: nat, t: T)
    requires IsRun(actions, states) && i < |states|
    ensures var s := states[i];
            && !s.panicked
            && (s.m.capacity > 0 ==> |s.m.store| <= s.m.capacity)
            && (s.m.closed ==> s.m.store == map[])
            && (t in s.hands && s.hands[t].Resolving? ==> Enabled(s, ResolveEnd(t)))
            && (t in s.hands && s.hands[t].Removing? ==> Enabled(s, RemoveEnd(t)))
            && (t in s.hands && s.hands[t].Sweeping? ==> forall e | e in s.hands[t].es :: Enabled(s, SweepOne(t, e)))
  {
    RunKeepsInv(actions, states, i);
    var s := states[i];
    if t in s.hands {
      assert HandEntries(s.hands[t]) == set x | x in s.places && s.places[x] == InHand(t);
      assert s.hands[t].Resolving? || s.hands[t].Removing? ==> s.hands[t].e in HandEntries(s.hands[t]);
    }
  }

  /** In every run a manager is closed from a Close on and for good, and nothing is added to it any more. */
  lemma {:induction false} ClosedForGood<K, E, T, R>(
    actions: seq<Action<K, E, T, R>>, states: seq<System<K, E, T, R>>, i: nat)
    requires IsRun(actions, states) && i < |states|
    ensures states[i].m.closed <==> exists j :: 0 <= j < i && actions[j].Close?
    ensures states[i].m.closed && i < |actions| ==> !actions[i].Add? && !actions[i].Resolve? && !actions[i].Remove?
  {
    if i > 0 {
      var last := i - 1;
      ClosedForGood(actions, states, last);
      assert Enabled(states[last], actions[last]) && states[i] == Next(states[last], actions[last]);
    }
    assert i < |actions| ==> Enabled(states[i], actions[i]);
  }

  /** Resolving a keep-alive job dispatches its callback, unblocks its waiter with the reply, and leaves the job
      stored with its callback. */
  lemma KeptJobStays<K, E, T, R>(s: System<K, E, T, R>, id: K, reply: R)
    requires Inv(s) && Enabled(s, ResolveKept(id, reply))
    ensures var s', e := Next(s, ResolveKept(id, reply)), s.m.store[id];
            var j := s.m.entries[e].job;
            && s'.m.store == s.m.store && s'.m.pool == s.m.pool
            && s'.m.entries[e].callback == s.m.entries[e].callback && s'.m.entries[e].waitCh == None
            && (s.m.entries[e].waitCh.Some? ==> s'.chans[s.m.entries[e].waitCh.value] == Holds(reply))
            && j < |s.jobs| == |s'.jobs|
            && s'.jobs[j].dispatches == s.jobs[j].dispatches + if s.m.entries[e].callback then 1 else 0
  {
    assert EntryIsRight(s, s.m.store[id]);
  }

  /** In every interleaving a waiter whose channel is still open has its job in the store or in the hands of a
      caller that will close the channel; once no job is left and nobody is finishing one, no waiter is blocked. */
  lemma NoWaiterIsForgotten<K, E, T, R>(
    actions: seq<Action<K, E, T, R>>, states: seq<System<K, E, T, R>>, i: nat, c: Chan)
    requires IsRun(actions, states) && i < |states| && c in states[i].chans && states[i].chans[c].Open?
    ensures var s := states[i];
            exists e :: && e in s.m.entries && s.m.entries[e].waitCh == Some(c)
                        && ((exists k :: k in s.m.store && s.m.store[k] == e)
                            || (exists t :: t in s.hands && e in HandEntries(s.hands[t])))
    ensures !(states[i].m.store == map[] && states[i].hands == map[])
  {
    RunKeepsInv(actions, states, i);
    var s := states[i];
    var e := s.owners[c];
    if s.places[e].InHand? {
      assert HandEntries(s.hands[s.places[e].t]) == set x | x in s.places && s.places[x] == InHand(s.places[e].t);
      assert e in HandEntries(s.hands[s.places[e].t]);
    } else {
      assert s.m.store[s.places[e].k] == e;
    }
  }

  lemma GrabLeavesChans<K, E, T, R>(s: System<K, E, T, R>, t: T, id: K, h: Hand<E, R>)
    requires Finds(s.m, id)
    ensures Grab(s, t, id, h).chans == s.chans
  {
  }

  lemma SettleClosesOne<K, E, T, R>(s: System<K, E, T, R>, e: E, to: Wait<R>, dispatch: bool, c: Chan)
    requires e in s.m.entries && c in s.chans
    ensures var chans := Settle(s, e, to, dispatch).chans;
            c in chans && chans[c] == if s.m.entries[e].waitCh == Some(c) then to else s.chans[c]
  {
  }

  /** What CancelAll and Close leave for a waiter is a channel closed without a result, which WaitFor reports as a
      closed manager whatever error was passed; only a resolution leaves its result. */
  lemma OnlyAResolutionReplies<K, E, T, R>(s: System<K, E, T, R>, a: Action<K, E, T, R>, c: Chan)
    requires Inv(s) && Enabled(s, a) && c in s.chans && s.chans[c].Open? && c in Next(s, a).chans
    ensures Next(s, a).chans[c].Holds? <==>
            || (a.ResolveEnd? && s.m.entries[s.hands[a.t].e].waitCh == Some(c))
            || (a.ResolveKept? && s.m.entries[s.m.store[a.id]].waitCh == Some(c))
    ensures a.ResolveEnd? && Next(s, a).chans[c].Holds? ==> Next(s, a).chans[c].r == s.hands[a.t].reply
    ensures a.SweepOne? && s.m.entries[a.e].waitCh == Some(c) ==> Next(s, a).chans[c] == Empty
  {
    match a
    case Add(_, _, _, w, _) =>
    case Resolve(t, id, reply) => GrabLeavesChans(s, t, id, Resolving(s.m.store[id], reply));
    case Remove(t, id) => GrabLeavesChans(s, t, id, Removing(s.m.store[id]));
    case ResolveEnd(t) => SettleClosesOne(s, s.hands[t].e, Holds(s.hands[t].reply), true, c);
    case RemoveEnd(t) => SettleClosesOne(s, s.hands[t].e, Empty, false, c);
    case SweepOne(t, e) => SettleClosesOne(s, e, Empty, true, c);
    case ResolveKept(id, reply) =>
    case CancelAll(t) =>
    case Close(t) =>
    case SweepEnd(t) =>
  }
}
