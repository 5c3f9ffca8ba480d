/** The resizable semaphore: each of its critical sections run on the object. */
module Semaphore {
  import opened Slots

  class Semaphore {
    var limit: int
    var active: int
    var waiters: seq<Ticket>

    ghost function View(): SlotQueue
      reads this
    {
      SlotQueue(active, waiters)
    }

    constructor (initialLimit: int)
      ensures limit == initialLimit && View() == Start(initialLimit).q
    {
      limit, active, waiters := initialLimit, 0, [];
    }

    /** Acquire up to its wait: true when a slot was taken at once. */
    method AcquireSection(ch: Ticket) returns (taken: bool)
      modifies this`active, this`waiters
      ensures View() == Enter(old(View()), limit, ch) && (taken <==> old(active) < limit)
    {
      if active < limit {
        active := active + 1;
        return true;
      }
      waiters := waiters + [ch];
      return false;
    }

    /** What a waiting Acquire does when its context is done. */
    method CancelSection(ch: Ticket)
      modifies this`waiters
      ensures waiters == Withdraw(old(waiters), ch)
    {
      waiters := CutOut(waiters, ch);
    }

    method Release()
      modifies this`active, this`waiters
      ensures View() == Notify(old(View()).(active := old(active) - 1), limit)
    {
      active := active - 1;
      NotifyWaiters();
    }

    method Resize(newLimit: int)
      modifies this
      ensures limit == newLimit && View() == Notify(old(View()), newLimit)
    {
      limit := newLimit;
      NotifyWaiters();
    }

    method NotifyWaiters()
      modifies this`active, this`waiters
      ensures View() == Notify(old(View()), limit)
    {
      ghost var g := 0;
      while active < limit && |waiters| > 0
        invariant 0 <= g <= Grants(old(View()), limit)
        invariant active == old(active) + g && waiters == old(waiters)[g..]
        decreases |waiters|
      {
        waiters := waiters[1..];
        active := active + 1;
        g := g + 1;
      }
    }
  }

  /** The scan for a channel in the queue, and the slice without it. */
  method CutOut(waiters: seq<Ticket>, ch: Ticket) returns (left: seq<Ticket>)
    ensures left == Withdraw(waiters, ch)
  {
    left := waiters;
    var i := 0;
    while i < |waiters|
      invariant 0 <= i <= |waiters|
      invariant left == waiters && waiters[..i] + Withdraw(waiters[i..], ch) == Withdraw(waiters, ch)
    {
      if waiters[i] == ch {
        assert waiters[i..][1..] == waiters[i + 1..];
        return waiters[..i] + waiters[i + 1..];
      }
      assert waiters[i..][1..] == waiters[i + 1..];
      assert waiters[..i] + ([waiters[i]] + Withdraw(waiters[i + 1..], ch)) == waiters[..i + 1] + Withdraw(waiters[i + 1..], ch);
      i := i + 1;
    }
    assert waiters[..i] + [] == waiters;
  }
}
