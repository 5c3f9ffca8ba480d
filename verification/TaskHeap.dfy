/** The scheduler's queue: a binary heap of tasks with back-pointers, and the documented sifting
    of Go's container/heap over its Less, Swap, Push and Pop. */
module TaskHeap {

  /** What the heap compares: earlier run time first, then higher priority. */
  datatype Key = Key(nextRun: int, priority: int)

  predicate Less(a: Key, b: Key) {
    if a.nextRun == b.nextRun then a.priority > b.priority else a.nextRun < b.nextRun
  }

  function Parent(i: int): int {
    (i - 1) / 2
  }

  function Swapped<T>(s: seq<T>, i: nat, j: nat): seq<T>
    requires i < |s| && j < |s|
  {
    s[i := s[j]][j := s[i]]
  }

  /** No task is less than its parent. */
  ghost predicate HeapOrdered(ks: seq<Key>) {
    forall i | 0 < i < |ks| :: !Less(ks[i], ks[Parent(i)])
  }

  /** Heap order but for position j, which may be less than its parent. */
  ghost predicate OrderedExceptUp(ks: seq<Key>, j: nat) {
    && (forall i | 0 < i < |ks| && i != j :: !Less(ks[i], ks[Parent(i)]))
    && (forall i | 0 < i < |ks| && Parent(i) == j && j > 0 :: !Less(ks[i], ks[Parent(j)]))
  }

  /** Heap order of the first n positions but for position i, whose children may be less than it. */
  ghost predicate OrderedExceptDown(ks: seq<Key>, i: nat, n: nat) {
    n <= |ks|
    && (forall c | 0 < c < n && Parent(c) != i :: !Less(ks[c], ks[Parent(c)]))
    && (forall c | 0 < c < n && Parent(c) == i && i > 0 :: !Less(ks[c], ks[Parent(i)]))
  }

  /** In heap order the root is due no later than any task, and among those due at the same time none has a
      higher priority. */
  lemma {:induction false} RootIsMinimum(ks: seq<Key>, i: nat)
    requires HeapOrdered(ks) && i < |ks|
    ensures ks[0].nextRun < ks[i].nextRun || (ks[0].nextRun == ks[i].nextRun && ks[0].priority >= ks[i].priority)
  {
    if i > 0 {
      RootIsMinimum(ks, Parent(i));
      assert !Less(ks[i], ks[Parent(i)]);
    }
  }

  lemma SiftUpStep(ks: seq<Key>, j: nat)
    requires 0 < j < |ks| && OrderedExceptUp(ks, j) && Less(ks[j], ks[Parent(j)])
    ensures OrderedExceptUp(Swapped(ks, Parent(j), j), Parent(j))
  {
    var p := Parent(j);
    var ks' := Swapped(ks, p, j);
    forall i | 0 < i < |ks'| && i != p ensures !Less(ks'[i], ks'[Parent(i)]) {
      assert i != j ==> !Less(ks[i], ks[Parent(i)]);
      assert p > 0 ==> !Less(ks[p], ks[Parent(p)]);
    }
    forall i | 0 < i < |ks'| && Parent(i) == p && p > 0 ensures !Less(ks'[i], ks'[Parent(p)]) {
      assert !Less(ks[p], ks[Parent(p)]);
      assert i != j ==> !Less(ks[i], ks[p]);
    }
  }

  lemma SiftDownStep(ks: seq<Key>, i: nat, j: nat, n: nat)
    requires OrderedExceptDown(ks, i, n) && LesserChild(ks, i, j, n) && Less(ks[j], ks[i])
    ensures OrderedExceptDown(Swapped(ks, i, j), j, n)
  {
    var ks' := Swapped(ks, i, j);
    forall c | 0 < c < n && Parent(c) != j ensures !Less(ks'[c], ks'[Parent(c)]) {
      assert Parent(c) != i ==> !Less(ks[c], ks[Parent(c)]);
    }
    forall c | 0 < c < n && Parent(c) == j ensures !Less(ks'[c], ks'[Parent(j)]) {
      assert !Less(ks[c], ks[Parent(c)]);
    }
  }

  lemma SiftDownDone(ks: seq<Key>, i: nat, n: nat)
    requires OrderedExceptDown(ks, i, n) && i < n
    requires 2 * i + 1 >= n || exists j: nat :: LesserChild(ks, i, j, n) && !Less(ks[j], ks[i])
    ensures HeapOrdered(ks[..n])
  {
    forall c | 0 < c < n ensures !Less(ks[..n][c], ks[..n][Parent(c)]) {
      assert Parent(c) != i ==> !Less(ks[c], ks[Parent(c)]);
    }
  }

  lemma SwapRootWithLast(ks: seq<Key>)
    requires HeapOrdered(ks) && ks != []
    ensures OrderedExceptDown(Swapped(ks, 0, |ks| - 1), 0, |ks| - 1)
  {
    var ks' := Swapped(ks, 0, |ks| - 1);
    forall c | 0 < c < |ks| - 1 && Parent(c) != 0 ensures !Less(ks'[c], ks'[Parent(c)]) {
      assert !Less(ks[c], ks[Parent(c)]);
    }
  }

  /** The position Down compares with position i: the lesser of its children. */
  ghost predicate LesserChild(ks: seq<Key>, i: nat, j: nat, n: nat) {
    && n <= |ks| && 0 < j < n && Parent(j) == i
    && (forall c | 0 < c < n && Parent(c) == i :: !Less(ks[c], ks[j]))
  }

  lemma ChooseChild(ks: seq<Key>, i: nat, j: nat, n: nat)
    requires i < n <= |ks| && 2 * i + 1 < n
    requires j == if 2 * i + 2 < n && Less(ks[2 * i + 2], ks[2 * i + 1]) then 2 * i + 2 else 2 * i + 1
    ensures LesserChild(ks, i, j, n)
  {
    forall c | 0 < c < n && Parent(c) == i ensures !Less(ks[c], ks[j]) {
      assert c == 2 * i + 1 || c == 2 * i + 2;
    }
  }

  /** The exported fields of a task; zero stands for the zero time and for the lowest priority. */
  datatype Fields = Fields(id: string, priority: int, nextRun: int, interval: int, executable: bool)

  class Task {
    var id: string
    var priority: int
    var nextRun: int
    var interval: int
    var executable: bool   // Execute is not nil
    var index: int

    constructor ()
      ensures id == "" && priority == 0 && nextRun == 0 && interval == 0 && !executable && index == 0
    {
      id, priority, nextRun, interval, executable, index := "", 0, 0, 0, false, 0;
    }

    function Values(): Fields
      reads this
    {
      Fields(id, priority, nextRun, interval, executable)
    }

    function Rank(): Key
      reads this`nextRun, this`priority
    {
      Key(nextRun, priority)
    }
  }

  /** The slice of queued tasks; `keys` mirrors what the heap compares. */
  class Heap {
    var items: seq<Task>
    ghost var keys: seq<Key>
    ghost var owned: set<Task>   // the queued tasks, as a frame

    /** Every queued task knows its position, so no task is queued twice. */
    ghost predicate Indexed()
      reads this, items
    {
      && |keys| == |items|
      && (forall i | 0 <= i < |items| :: items[i] in owned)
      && (forall t | t in owned :: t in items)
      && (forall i | 0 <= i < |items| :: items[i].index == i && items[i].Rank() == keys[i])
    }

    ghost predicate Valid()
      reads this, items
    {
      Indexed() && HeapOrdered(keys)
    }

    constructor ()
      ensures Valid() && items == []
    {
      items, keys, owned := [], [], {};
    }

    predicate LessAt(i: nat, j: nat)
      requires i < |items| && j < |items|
      reads this, items
    {
      Less(items[i].Rank(), items[j].Rank())
    }

    method Swap(i: nat, j: nat)
      requires Indexed() && i < |items| && j < |items|
      modifies this, owned`index
      ensures Indexed() && items == Swapped(old(items), i, j) && keys == Swapped(old(keys), i, j) && owned == old(owned)
      ensures multiset(items) == multiset(old(items))
    {
      SwappedIsPermutation(items, i, j);
      items := items[i := items[j]][j := items[i]];
      keys := keys[i := keys[j]][j := keys[i]];
      SameObjects(items, old(items));
      items[i].index := i;
      items[j].index := j;
    }

    /** The interface's Push: append. */
    method Append(t: Task)
      requires Indexed() && t !in items
      modifies this, t`index
      ensures Indexed() && items == old(items) + [t] && keys == old(keys) + [t.Rank()] && owned == old(owned) + {t}
    {
      t.index := |items|;
      items := items + [t];
      keys := keys + [t.Rank()];
      owned := owned + {t};
    }

    /** The interface's Pop: cut off the last item. */
    method CutLast() returns (t: Task)
      requires Indexed() && items != []
      modifies this, owned`index
      ensures Indexed() && old(items) == items + [t] && keys == old(keys[..|items| - 1]) && t.index == -1
      ensures owned == old(owned) - {t}
    {
      var n := |items|;
      t := items[n - 1];
      t.index := -1;
      items := items[..n - 1];
      keys := keys[..n - 1];
      owned := owned - {t};
    }

    method Up(start: nat)
      requires Indexed() && start < |items| && OrderedExceptUp(keys, start)
      modifies this, owned`index
      ensures Valid() && multiset(items) == multiset(old(items)) && owned == old(owned)
    {
      var j: nat := start;
      while true
        invariant j < |items| && Indexed() && OrderedExceptUp(keys, j)
        invariant multiset(items) == multiset(old(items)) && owned == old(owned)
        decreases j
      {
        if j == 0 {
          break;
        }
        var i := (j - 1) / 2;
        if !LessAt(j, i) {
          break;
        }
        SiftUpStep(keys, j);
        Swap(i, j);
        j := i;
      }
    }

    method Down(start: nat, n: nat)
      requires Indexed() && start < n <= |items| && OrderedExceptDown(keys, start, n)
      modifies this, owned`index
      ensures |items| == |old(items)| && items[n..] == old(items)[n..]
      ensures Indexed() && HeapOrdered(keys[..n]) && multiset(items) == multiset(old(items)) && owned == old(owned)
    {
      var i: nat := start;
      while true
        invariant i < n <= |items| == |old(items)| && Indexed() && OrderedExceptDown(keys, i, n)
        invariant multiset(items) == multiset(old(items)) && owned == old(owned) && items[n..] == old(items)[n..]
        decreases n - i
      {
        if 2 * i + 1 >= n {
          break;
        }
        var j := ChildToCompare(i, n);
        if !LessAt(j, i) {
          break;
        }
        SiftDownStep(keys, i, j, n);
        Swap(i, j);
        i := j;
      }
      SiftDownDone(keys, i, n);
    }

    method ChildToCompare(i: nat, n: nat) returns (j: nat)
      requires Indexed() && i < n <= |items| && 2 * i + 1 < n
      ensures j < n && LesserChild(keys, i, j, n)
    {
      j := 2 * i + 1;
      if j + 1 < n && LessAt(j + 1, j) {
        j := j + 1;
      }
      ChooseChild(keys, i, j, n);
    }

    /** heap.Push. */
    method Push(t: Task)
      requires Valid() && t !in items
      modifies this, owned`index, t`index
      ensures Valid() && multiset(items) == multiset(old(items)) + multiset{t}
    {
      Append(t);
      assert OrderedExceptUp(keys, |items| - 1);
      Up(|items| - 1);
    }

    lemma RootPrecedesNone()
      requires Valid() && items != []
      ensures forall u | u in items :: items[0].nextRun < u.nextRun
                                       || (items[0].nextRun == u.nextRun && items[0].priority >= u.priority)
    {
      forall u | u in items
        ensures items[0].nextRun < u.nextRun || (items[0].nextRun == u.nextRun && items[0].priority >= u.priority)
      {
        var i :| 0 <= i < |items| && items[i] == u;
        RootIsMinimum(keys, i);
      }
    }

    /** heap.Pop: removes the root, a task that is due first, and of these one with the highest priority. */
    method Pop() returns (t: Task)
      requires Valid() && items != []
      modifies this, owned`index
      ensures Valid() && t == old(items[0]) && t.index == -1 && t !in items
      ensures multiset(old(items)) == multiset(items) + multiset{t}
      ensures forall u | u in old(items) :: t.nextRun < u.nextRun || (t.nextRun == u.nextRun && t.priority >= u.priority)
    {
      RootPrecedesNone();
      MoveRootLast();
      ghost var before := items;
      t := CutLast();
      assert multiset(before) == multiset(items) + multiset{t} by {
        assert before == items + [t];
      }
    }

    /** Exchanges the root with the last item and restores the order of the others. */
    method MoveRootLast()
      requires Valid() && items != []
      modifies this, owned`index
      ensures |items| == |old(items)| && items[|items| - 1] == old(items[0])
      ensures Indexed() && HeapOrdered(keys[..|items| - 1])
      ensures multiset(items) == multiset(old(items)) && owned == old(owned)
    {
      SwapRootWithLast(keys);
      var n := |items| - 1;
      Swap(0, n);
      if n > 0 {
        assert items[n] == items[n..][0];
        Down(0, n);
        assert items[n] == items[n..][0];
      }
    }
  }

  lemma SwappedIsPermutation<T>(xs: seq<T>, i: nat, j: nat)
    requires i < |xs| && j < |xs|
    ensures multiset(Swapped(xs, i, j)) == multiset(xs)
  {
  }

  /** A permutation of a slice holds the same tasks. */
  lemma SameObjects(a: seq<Task>, b: seq<Task>)
    requires multiset(a) == multiset(b)
    ensures forall t :: t in a <==> t in b
  {
    forall t ensures t in a <==> t in b {
      assert t in a <==> t in multiset(a);
      assert t in b <==> t in multiset(b);
    }
  }
}
