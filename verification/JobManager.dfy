/** The job manager as an object over its in-memory store: the sections under its lock and what its callers do with
    a detached entry, tied to the sections and steps of the system. */
module JobObject {
  import opened Wrappers
  import opened Jobs

  class EntryRecord {
    var callback: bool
    var waitCh: Option<Chan>
    var keepAlive: bool
    ghost var job: nat

    constructor ()
      ensures !callback && waitCh == None
    {
      callback, waitCh, keepAlive, job := false, None, false, 0;
    }

    ghost function View(): Entry
      reads this
    {
      Entry(callback, waitCh, keepAlive, job)
    }
  }

  function RecycleAll<K, E>(m: Manager<K, E>, es: set<E>): Manager<K, E> {
    m.(entries := map e | e in m.entries :: if e in es then m.entries[e].(callback := false, waitCh := None) else m.entries[e],
       pool := m.pool + es)
  }

  function Callbacks<K, E>(m: Manager<K, E>, es: set<E>): set<E> {
    set e | e in es && e in m.entries && m.entries[e].callback
  }

  function WaitChans<K, E>(m: Manager<K, E>, es: set<E>): set<Chan> {
    set e | e in es && e in m.entries && m.entries[e].waitCh.Some? :: m.entries[e].waitCh.value
  }

  function EmptyAll<R>(chans: map<Chan, Wait<R>>, ws: set<Chan>): map<Chan, Wait<R>> {
    chans + map c | c in ws :: Empty
  }

  /** The whole effect of closePending: the entries are recycled, their callbacks dispatched and their wait
      channels closed empty. */
  datatype Sweep<K(==), E(==), R> = Sweep(m: Manager<K, E>, chans: map<Chan, Wait<R>>, dispatched: multiset<E>)

  function SweepAll<K, E, R>(w: Sweep<K, E, R>, es: set<E>): Sweep<K, E, R> {
    Sweep(RecycleAll(w.m, es), EmptyAll(w.chans, WaitChans(w.m, es)), w.dispatched + multiset(Callbacks(w.m, es)))
  }

  function SweepOneEntry<K, E, R>(w: Sweep<K, E, R>, e: E): Sweep<K, E, R>
    requires e in w.m.entries
  {
    Sweep(Recycle(w.m, e), CloseWait(w.chans, w.m.entries[e].waitCh, Empty),
          if w.m.entries[e].callback then w.dispatched + multiset{e} else w.dispatched)
  }

  lemma RecycleNone<K, E>(m: Manager<K, E>)
    ensures RecycleAll(m, {}) == m && Callbacks(m, {}) == {} && WaitChans(m, {}) == {}
  {
    assert RecycleAll(m, {}).entries == m.entries;
  }

  lemma SweepNone<K, E, R>(w: Sweep<K, E, R>)
    ensures SweepAll(w, {}) == w
  {
    RecycleNone(w.m);
    assert multiset(Callbacks(w.m, {})) == multiset{};
  }

  lemma RecycleOneMore<K, E>(m: Manager<K, E>, e: E, es: set<E>)
    requires e in m.entries && e !in es
    ensures RecycleAll(Recycle(m, e), es) == RecycleAll(m, es + {e})
  {
    assert RecycleAll(Recycle(m, e), es).entries == RecycleAll(m, es + {e}).entries;
  }

  lemma CallbacksOneMore<K, E>(m: Manager<K, E>, e: E, es: set<E>)
    requires e in m.entries && e !in es
    ensures multiset(Callbacks(m, es + {e})) ==
            multiset(Callbacks(Recycle(m, e), es)) + if m.entries[e].callback then multiset{e} else multiset{}
  {
    assert Callbacks(m, es + {e}) == Callbacks(Recycle(m, e), es) + if m.entries[e].callback then {e} else {};
  }

  lemma WaitChansOneMore<K, E>(m: Manager<K, E>, e: E, es: set<E>)
    requires e in m.entries && e !in es
    ensures WaitChans(m, es + {e}) ==
            WaitChans(Recycle(m, e), es) + if m.entries[e].waitCh.Some? then {m.entries[e].waitCh.value} else {}
  {
    assert forall x | x in es && x in m.entries :: Recycle(m, e).entries[x] == m.entries[x];
  }

  lemma EmptyOneMore<R>(chans: map<Chan, Wait<R>>, w: Option<Chan>, ws: set<Chan>)
    ensures EmptyAll(CloseWait(chans, w, Empty), ws) == EmptyAll(chans, ws + if w.Some? then {w.value} else {})
  {
  }

  /** Finishing one entry of the object is the system's sweep step: the same manager and channels, and the callback
      dispatched as often as the step dispatches it for the entry's job. */
  lemma SweepIsTheSystems<K, E, T, R>(s: System<K, E, T, R>, t: T, e: E, dispatched: multiset<E>)
    requires Inv(s) && Enabled(s, SweepOne(t, e))
    ensures var s', w := Next(s, SweepOne(t, e)), SweepOneEntry(Sweep(s.m, s.chans, dispatched), e);
            var j := s.m.entries[e].job;
            && s'.m == w.m && s'.chans == w.chans && j < |s.jobs| == |s'.jobs|
            && w.dispatched[e] == dispatched[e] + (s'.jobs[j].dispatches - s.jobs[j].dispatches)
            && (forall x | x != e :: w.dispatched[x] == dispatched[x])
  {
    HeldIsInHand(s, t, e);
    assert EntryIsRight(s, e);
    assert JobIsRight(s, s.jobs[s.m.entries[e].job], s.m.entries[e].job);
  }

  /** What the sweep as a whole does to each entry. */
  lemma SweepAllPointwise<K, E, R>(w: Sweep<K, E, R>, es: set<E>, e: E)
    requires es <= w.m.entries.Keys
    ensures var w' := SweepAll(w, es);
            && (w'.dispatched[e] == w.dispatched[e] + if e in es && w.m.entries[e].callback then 1 else 0)
            && (e in es && w.m.entries[e].waitCh.Some? ==>
                  w.m.entries[e].waitCh.value in w'.chans && w'.chans[w.m.entries[e].waitCh.value] == Empty)
            && (e in es ==> e in w'.m.pool && e in w'.m.entries
                            && !w'.m.entries[e].callback && w'.m.entries[e].waitCh == None)
  {
    assert e in es && w.m.entries[e].waitCh.Some? ==> w.m.entries[e].waitCh.value in WaitChans(w.m, es);
  }

  lemma SweepAllChans<K, E, R>(w: Sweep<K, E, R>, es: set<E>, c: Chan)
    requires es <= w.m.entries.Keys && c in w.chans && forall e | e in es :: w.m.entries[e].waitCh != Some(c)
    ensures c in SweepAll(w, es).chans && SweepAll(w, es).chans[c] == w.chans[c]
  {
  }

  /** Finishing one entry and then the rest is finishing them all. */
  lemma SweepOneMore<K, E, R>(w: Sweep<K, E, R>, e: E, es: set<E>)
    requires e in w.m.entries && e !in es
    ensures SweepAll(SweepOneEntry(w, e), es) == SweepAll(w, es + {e})
  {
    RecycleOneMore(w.m, e, es);
    CallbacksOneMore(w.m, e, es);
    WaitChansOneMore(w.m, e, es);
    EmptyOneMore(w.chans, w.m.entries[e].waitCh, WaitChans(Recycle(w.m, e), es));
  }

  ghost function EntryViews(es: set<EntryRecord>): map<EntryRecord, Entry>
    reads es
  {
    map e | e in es :: e.View()
  }

  class JobManager<K(==), R> {
    const capacity: int
    var store: map<K, EntryRecord>
    var pool: set<EntryRecord>
    var closed: bool
    var chans: map<Chan, Wait<R>>
    ghost var entries: set<EntryRecord>
    ghost var dispatched: multiset<EntryRecord>   // entries, once per dispatch of their callback

    ghost predicate Valid()
      reads this
    {
      pool <= entries && forall k | k in store :: store[k] in entries
    }

    ghost function View(): Manager<K, EntryRecord>
      reads this, entries
    {
      Manager(store, EntryViews(entries), pool, closed, capacity)
    }

    constructor (capacity: int)
      ensures Valid() && View() == Manager(map[], map[], {}, false, capacity)
      ensures chans == map[] && dispatched == multiset{}
    {
      this.capacity := capacity;
      store, pool, closed, chans, entries, dispatched := map[], {}, false, map[], {}, multiset{};
    }

    /** The pool hands out a recycled entry, or makes a new one. */
    method TakeEntry() returns (e: EntryRecord)
      requires Valid()
      modifies this`pool, this`entries
      ensures Valid() && (e in old(pool) || fresh(e))
      ensures pool == old(pool) - {e} && entries == old(entries) + {e}
    {
      var reuse: bool := *;   // the pool may have dropped what it held
      if reuse && pool != {} {
        e :| e in pool;
        pool := pool - {e};
      } else {
        e := new EntryRecord();
        entries := entries + {e};
      }
    }

    method FillEntry(e: EntryRecord, callback: bool, waitCh: Option<Chan>, keepAlive: bool, ghost job: nat)
      modifies e
      ensures e.View() == Entry(callback, waitCh, keepAlive, job)
    {
      e.callback := callback;
      e.keepAlive := keepAlive;
      e.waitCh := waitCh;
      e.job := job;
    }

    method AddSection(id: K, callback: bool, waitCh: Option<Chan>, keepAlive: bool, ghost job: nat)
      returns (v: Verdict, ghost e: EntryRecord?)
      requires Valid()
      modifies this`store, this`pool, this`entries, this`chans, pool
      ensures Valid() && v == Admit(old(View()), id)
      ensures v == ManagerClosed <==> old(closed)
      ensures v == CapacityReached <==> !old(closed) && capacity > 0 && old(|store|) >= capacity
      ensures v == Duplicate <==> !old(closed) && !(capacity > 0 && old(|store|) >= capacity) && id in old(store)
      ensures v == Accepted ==>
                && e != null && store == old(store)[id := e] && e !in pool
                && e.callback == callback && e.waitCh == waitCh && e.keepAlive == keepAlive
      ensures v != Accepted ==> View() == old(View()) && chans == old(chans)
      ensures v == Accepted ==> && e != null
                                && (e in old(pool) || fresh(e))
                                && View() == AddEntry(old(View()), id, e, Entry(callback, waitCh, keepAlive, job))
                                && chans == CloseWait(old(chans), waitCh, Open)
    {
      if closed {
        return ManagerClosed, null;
      }
      if capacity > 0 && |store| >= capacity {
        return CapacityReached, null;
      }
      if id in store {
        return Duplicate, null;
      }
      ghost var before := EntryViews(entries);
      var entry := TakeEntry();
      FillEntry(entry, callback, waitCh, keepAlive, job);
      if waitCh.Some? {
        chans := chans[waitCh.value := Open];
      }
      store := store[id := entry];
      assert EntryViews(entries) == before[entry := entry.View()];
      return Accepted, entry;
    }

    /** The section of ResolveContext, and with `resolving` false the one of RemoveContext: the entry leaves the
        store, unless a keep-alive job is resolved. */
    method DetachSection(id: K, resolving: bool) returns (e: EntryRecord?)
      requires Valid()
      modifies this`store
      ensures Valid() && (e != null <==> Finds(old(View()), id))
      ensures e != null <==> !old(closed) && id in old(store)
      ensures store == if e != null && !(resolving && e.keepAlive) then old(store) - {id} else old(store)
      ensures e != null ==> e == old(store[id])
      ensures View() == if e != null && !(resolving && e.keepAlive) then Detach(old(View()), id) else old(View())
    {
      if closed || id !in store {
        return null;
      }
      e := store[id];
      if !resolving || !e.keepAlive {
        store := store - {id};
      }
    }

    /** The end of a resolution of a keep-alive job, whose entry stays in the store with its callback. */
    method FinishKept(e: EntryRecord, reply: R)
      requires Valid() && e in entries && e.keepAlive
      modifies this`chans, this`dispatched, e`waitCh
      ensures Valid() && View() == Keep(old(View()), e)
      ensures e.waitCh == None
      ensures old(e.waitCh).Some? ==> old(e.waitCh).value in chans && chans[old(e.waitCh).value] == Holds(reply)
      ensures chans == CloseWait(old(chans), old(e.waitCh), Holds(reply))
      ensures dispatched == if e.callback then old(dispatched) + multiset{e} else old(dispatched)
    {
      ghost var before := EntryViews(entries);
      if e.waitCh.Some? {
        chans := chans[e.waitCh.value := Holds(reply)];
      }
      e.waitCh := None;
      if e.callback {
        dispatched := dispatched + multiset{e};
      }
      assert EntryViews(entries) == before[e := e.View()];
    }

    /** The entry is cleared and goes back into the pool. */
    method RecycleEntry(e: EntryRecord)
      requires Valid() && e in entries
      modifies this`pool, e
      ensures Valid() && View() == Recycle(old(View()), e) && e.job == old(e.job)
      ensures e in pool && !e.callback && e.waitCh == None
    {
      ghost var before := EntryViews(entries);
      e.callback := false;
      e.waitCh := None;
      pool := pool + {e};
      assert EntryViews(entries) == before[e := e.View()];
    }

    /** The end of a resolution (with its reply), of a removal, or of one turn of a sweep. */
    method FinishEntry(e: EntryRecord, to: Wait<R>, dispatch: bool)
      requires Valid() && e in entries
      modifies this`chans, this`dispatched, this`pool, e
      ensures Valid() && View() == Recycle(old(View()), e)
      ensures e in pool && !e.callback && e.waitCh == None
      ensures old(e.waitCh).Some? ==> old(e.waitCh).value in chans && chans[old(e.waitCh).value] == to
      ensures chans == CloseWait(old(chans), old(e.waitCh), to)
      ensures dispatched == if dispatch && old(e.callback) then old(dispatched) + multiset{e} else old(dispatched)
    {
      if e.waitCh.Some? {
        chans := chans[e.waitCh.value := to];
      }
      if dispatch && e.callback {
        dispatched := dispatched + multiset{e};
      }
      RecycleEntry(e);
    }

    /** The section of CancelAllContext, and with `closing` the one of Close. */
    method SweepSection(closing: bool) returns (pending: set<EntryRecord>)
      requires Valid()
      modifies this`store, this`closed
      ensures Valid() && pending == (if closing && old(closed) then {} else old(store).Values)
      ensures closed <==> old(closed) || closing
      ensures store == if closing && old(closed) then old(store) else map[]
      ensures View() == if closing && old(closed) then old(View())
                        else DetachAll(old(View())).(closed := old(closed) || closing)
    {
      if closing && closed {
        return {};
      }
      closed := closed || closing;
      pending := set k | k in store :: store[k];
      store := map[];
    }

    ghost function State(): Sweep<K, EntryRecord, R>
      reads this, entries
    {
      Sweep(View(), chans, dispatched)
    }

    /** One turn of closePending. */
    method SweepTurn(e: EntryRecord, ghost rest: set<EntryRecord>)
      requires Valid() && e in entries && e !in rest
      modifies this`chans, this`dispatched, this`pool, e
      ensures Valid() && SweepAll(State(), rest) == SweepAll(old(State()), rest + {e})
    {
      SweepOneMore(State(), e, rest);
      FinishEntry(e, Empty, true);
      assert State() == SweepOneEntry(old(State()), e);
    }

    /** closePending: each entry's wait channel is closed empty, its callback dispatched, the entry recycled. */
    method ClosePending(pending: set<EntryRecord>)
      requires Valid() && pending <= entries
      modifies this`chans, this`dispatched, this`pool, pending
      ensures Valid() && State() == SweepAll(old(State()), pending)
      ensures forall e | e in pending :: dispatched[e] == old(dispatched)[e] + if old(e.callback) then 1 else 0
      ensures forall e: EntryRecord | e !in pending :: dispatched[e] == old(dispatched)[e]
      ensures forall e | e in pending && old(e.waitCh).Some? ::
                old(e.waitCh).value in chans && chans[old(e.waitCh).value] == Empty
      ensures forall e | e in pending :: e in pool && !e.callback && e.waitCh == None
    {
      var rest := pending;
      while rest != {}
        invariant rest <= pending && Valid() && SweepAll(State(), rest) == SweepAll(old(State()), pending)
      {
        ghost var all := rest;
        var e :| e in rest;
        rest := rest - {e};
        assert all == rest + {e};
        SweepTurn(e, rest);
      }
      SweepNone(State());
      forall e: EntryRecord ensures dispatched[e] == old(dispatched)[e] + if e in pending && old(e.callback) then 1 else 0 {
        SweepAllPointwise(old(State()), pending, e);
      }
      forall e | e in pending
        ensures old(e.waitCh).Some? ==> old(e.waitCh).value in chans && chans[old(e.waitCh).value] == Empty
        ensures e in pool && !e.callback && e.waitCh == None
      {
        SweepAllPointwise(old(State()), pending, e);
        assert View().entries[e] == e.View();
      }
    }
  }
}
