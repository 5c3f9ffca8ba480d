/** The scheduler's pool of tasks: what ReleaseTask leaves in it and what AcquireTask hands out, over every
    order of releases and acquisitions. */
module TaskPool {
  import opened TaskHeap

  const BLANK := Fields("", 0, 0, 0, false)

  /** ReleaseTask clears the identity, the function and the interval. */
  function Reset(f: Fields): Fields {
    f.(id := "", interval := 0, executable := false)
  }

  /** The fields of the pooled tasks. */
  type Pool<!R> = map<R, Fields>

  function Put<R>(pool: Pool<R>, r: R, f: Fields): Pool<R> {
    pool[r := Reset(f)]
  }

  /** What an acquirer finds in a task that comes from the pool, or is made because the pool gives none. */
  function HandedOut<R>(pool: Pool<R>, r: R): Fields {
    if r in pool then pool[r] else BLANK
  }

  datatype Action<R> = Release(r: R, f: Fields) | Acquire(r: R)

  /** A task is released once between two acquisitions. */
  predicate Enabled<R>(pool: Pool<R>, a: Action<R>) {
    a.Release? ==> a.r !in pool
  }

  function Next<R>(pool: Pool<R>, a: Action<R>): Pool<R> {
    match a
    case Release(r, f) => Put(pool, r, f)
    case Acquire(r) => pool - {r}
  }

  ghost predicate IsRun<R>(actions: seq<Action<R>>, pools: seq<Pool<R>>) {
    && |pools| == |actions| + 1
    && pools[0] == map[]
    && (forall i | 0 <= i < |actions| :: Enabled(pools[i], actions[i]) && pools[i + 1] == Next(pools[i], actions[i]))
  }

  /** The j-th step released a task that is not handed out again before the i-th. */
  ghost predicate StillPooled<R>(actions: seq<Action<R>>, j: nat, i: nat)
    requires j < i <= |actions|
  {
    actions[j].Release? && forall m | j < m < i :: actions[m] != Acquire(actions[j].r)
  }

  /** The release that put a pooled task where it is. */
  lemma {:induction false} ReleaseOf<R>(actions: seq<Action<R>>, pools: seq<Pool<R>>, i: nat, r: R) returns (j: nat)
    requires IsRun(actions, pools) && i < |pools| && r in pools[i]
    ensures j < i && StillPooled(actions, j, i) && actions[j].r == r && pools[i][r] == Reset(actions[j].f)
  {
    var last := i - 1;
    assert pools[i] == Next(pools[last], actions[last]);
    if r in pools[last] {
      assert Enabled(pools[last], actions[last]);
      j := ReleaseOf(actions, pools, last, r);
    } else {
      j := last;
    }
  }

  lemma {:induction false} PooledSince<R>(actions: seq<Action<R>>, pools: seq<Pool<R>>, j: nat, i: nat)
    requires IsRun(actions, pools) && j < i < |pools| && StillPooled(actions, j, i)
    ensures actions[j].r in pools[i] && pools[i][actions[j].r] == Reset(actions[j].f)
    decreases i
  {
    var last := i - 1;
    assert pools[i] == Next(pools[last], actions[last]);
    if j < last {
      assert StillPooled(actions, j, last);
      PooledSince(actions, pools, j, last);
      assert Enabled(pools[last], actions[last]);
    }
  }

  /** The field values ReleaseTask does not clear. */
  predicate LeavesClean(f: Fields) {
    f.priority == 0 && f.nextRun == 0
  }

  /** In every run AcquireTask can hand out only clean tasks exactly when every task in the pool was released with
      the lowest priority and no run time. */
  lemma AcquiredCleanExactly<R(!new)>(actions: seq<Action<R>>, pools: seq<Pool<R>>, i: nat)
    requires IsRun(actions, pools) && i < |pools|
    ensures (forall r :: HandedOut(pools[i], r) == BLANK)
            <==> (forall j | 0 <= j < i && StillPooled(actions, j, i) :: LeavesClean(actions[j].f))
  {
    if forall r :: HandedOut(pools[i], r) == BLANK {
      forall j | 0 <= j < i && StillPooled(actions, j, i) ensures LeavesClean(actions[j].f) {
        PooledSince(actions, pools, j, i);
        assert HandedOut(pools[i], actions[j].r) == BLANK;
      }
    }
    if forall j | 0 <= j < i && StillPooled(actions, j, i) :: LeavesClean(actions[j].f) {
      forall r ensures HandedOut(pools[i], r) == BLANK {
        if r in pools[i] {
          var j := ReleaseOf(actions, pools, i, r);
        }
      }
    }
  }

  /** A run in which a task released with high priority is handed out with it. */
  lemma PriorityComesBack<R>(r: R) returns (actions: seq<Action<R>>, pools: seq<Pool<R>>)
    ensures IsRun(actions, pools) && actions == [Release(r, Fields("job", 2, 0, 0, true)), Acquire(r)]
    ensures HandedOut(pools[1], r).priority == 2 && HandedOut(pools[1], r) != BLANK
  {
    actions := [Release(r, Fields("job", 2, 0, 0, true)), Acquire(r)];
    pools := [map[], Next(map[], actions[0]), Next(Next(map[], actions[0]), actions[1])];
  }
}
