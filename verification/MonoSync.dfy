/** Mutexes and semaphores of the single-core build (src/thread_sync.c). */
module MonoSync {
  import opened Basics
  import opened Ring
  import opened MonoState
  import Mono

  datatype Outcome = Passed | Waited | Alone | Aborted

  /** The queue of mutex `m` has number `m`, that of semaphore `x` number `|locked| + x`. */
  class Sync {
    const sys: Mono.System
    var locked: seq<bool>
    var count: seq<int>

    /** An unlocked mutex has no queue; a semaphore's queue is as long as its count is negative. */
    ghost predicate Settled(queues: seq<seq<nat>>)
      reads this
    {
      && |queues| == |locked| + |count|
      && (forall m :: 0 <= m < |locked| && !locked[m] ==> queues[m] == [])
      && (forall x :: 0 <= x < |count| ==> |queues[|locked| + x]| == if count[x] < 0 then -count[x] else 0)
    }

    ghost predicate Valid()
      reads this, sys.Memory()
    {
      sys.Valid() && this !in sys.Memory() && Settled(sys.links.lists.queues)
    }

    constructor (cap: nat, stackCap: nat, mutexes: nat, values: seq<nat>)
      requires cap > 0
      ensures Valid() && fresh(sys.Memory()) && |locked| == mutexes && count == values
    {
      hide Inv, Mono.System.Shaped, Mono.System.Valid;
      sys := new Mono.System(cap, stackCap, mutexes + |values|);
      locked, count := seq(mutexes, _ => false), values;
      new;
      assert fresh(sys.Memory());
    }

    /** The thread that a blocking call switches to has run before. */
    ghost predicate NextHasRun()
      reads sys.Memory()
    {
      var r := sys.links.lists.ring;
      r != [] && r[|r| - 1] < |sys.desc| && sys.desc[r[|r| - 1]].saved != NoContext
    }

    /** thread_mutex_lock: -1 without effect if it would have to wait and nobody else is ready. Its
        switch does not allocate a stack for the next thread. */
    method Lock(m: nat) returns (r: Outcome, ghost x: nat)
      requires Valid() && m < |locked| && (locked[m] && |sys.links.lists.ring| > 1 ==> NextHasRun())
      modifies this`locked
      modifies sys`desc, sys`at, sys`root, sys`depth, sys`owner, sys`cur, sys`lastCreated, sys`pendingDead, sys.Parts()
      ensures r != Aborted ==> Valid() && locked == old(locked)[m := true]
      ensures r == Passed <==> !old(locked)[m]
      ensures r == Alone <==> old(locked)[m] && |old(sys.links.lists.ring)| == 1
      ensures r != Aborted
      ensures r == Passed || r == Alone ==> sys.View() == old(sys.View())
      ensures r == Waited ==> sys.View() == Dispatch(Block(old(sys.View()), Queued(m), {}), x)
    {
      hide Inv, Dispatch, Block, Mono.System.Shaped, Mono.System.Valid;
      x := 0;
      if !locked[m] {
        locked := locked[m := true];
        return Passed, x;
      }
      var alone := IsAlone();
      if alone { return Alone, x; }
      Known();
      ghost var v := sys.View();
      BlockedQueues(v, m);
      if |v.lists.ring| > 1 { BlockedHead(v, m); }
      var ok;
      ok, x := sys.Leave(Queued(m), {});
      if ok { DispatchLists(Block(v, Queued(m), {}), x); }
      r := if ok then Waited else Aborted;
    }

    /** is_sched_empty */
    method IsAlone() returns (r: bool)
      requires sys.Valid()
      ensures r <==> |sys.links.lists.ring| == 1
      ensures sys.links.lists.ring != []
    {
      hide Inv;
      r := sys.links.IsSchedEmpty();
    }

    /** thread_mutex_unlock: the mutex goes to the thread that has waited longest and stays locked,
        or becomes free. */
    method Unlock(m: nat)
      requires Valid() && m < |locked|
      modifies this`locked, sys`at, sys.links`lists, sys.links.next, sys.links.prev, sys.links.head, sys.links.tail
      ensures Valid() && sys.View() == Woken(old(sys.View()), m)
      ensures locked == if old(sys.links.lists.queues)[m] == [] then old(locked)[m := false] else old(locked)
    {
      hide Inv, Woken, Mono.System.Shaped, Mono.System.Valid;
      var t := sys.WakeFirst(m);
      if t == NIL { locked := locked[m := false]; }
    }

    /** thread_sem_wait. When nobody else is ready it returns -1 with the count already decremented,
        and then the queue is no longer as long as the count is negative. */
    method Wait(x: nat) returns (r: Outcome, ghost y: nat)
      requires Valid() && x < |count|
      modifies this`count
      modifies sys`desc, sys`at, sys`root, sys`depth, sys`owner, sys`cur, sys`lastCreated, sys`pendingDead, sys.Parts()
      ensures r != Aborted ==> count == old(count)[x := old(count)[x] - 1] && (Valid() <==> r != Alone)
      ensures r == Passed <==> old(count)[x] >= 1
      ensures r == Alone <==> old(count)[x] < 1 && |old(sys.links.lists.ring)| == 1
      ensures r == Aborted <==>
                && old(count)[x] < 1 && |old(sys.links.lists.ring)| > 1
                && Mono.NoStackFor(Block(old(sys.View()), Queued(|locked| + x), {}))
      ensures r == Passed || r == Alone ==> sys.View() == old(sys.View())
      ensures r == Waited ==> sys.View() == Dispatch(Block(old(sys.View()), Queued(|locked| + x), {}), y)
    {
      hide Inv, Dispatch, Block, Mono.System.Shaped, Mono.System.Valid;
      y := 0;
      count := count[x := count[x] - 1];
      if count[x] >= 0 { return Passed, y; }
      var alone := IsAlone();
      if alone { return Alone, y; }
      Known();
      r, y := WaitInQueue(x);
    }

    /** The caller queues at the semaphore, whose count is negative already. */
    method WaitInQueue(x: nat) returns (r: Outcome, ghost y: nat)
      requires sys.Valid() && this !in sys.Memory() && x < |count| && |sys.links.lists.queues| == |locked| + |count|
      requires |sys.links.lists.ring| > 1
      modifies sys`desc, sys`at, sys`root, sys`depth, sys`owner, sys`cur, sys`lastCreated, sys`pendingDead, sys.Parts()
      ensures r == Waited || r == Aborted
      ensures r == Aborted <==> Mono.NoStackFor(Block(old(sys.View()), Queued(|locked| + x), {}))
      ensures r == Waited ==> sys.Valid() && sys.View() == Dispatch(Block(old(sys.View()), Queued(|locked| + x), {}), y)
      ensures r == Waited ==>
                var q, l := |locked| + x, old(sys.links.lists);
                && |sys.links.lists.queues| == |l.queues| && |sys.links.lists.queues[q]| == |l.queues[q]| + 1
                && forall p :: 0 <= p < |l.queues| && p != q ==> sys.links.lists.queues[p] == l.queues[p]
    {
      hide Inv, Dispatch, Block, Mono.System.Shaped, Mono.System.Valid, Mono.NoStackFor;
      Known();
      ghost var v := sys.View();
      BlockedQueues(v, |locked| + x);
      var ok;
      ok, y := sys.Leave(Queued(|locked| + x), {});
      if ok { DispatchLists(Block(v, Queued(|locked| + x), {}), y); }
      r := if ok then Waited else Aborted;
    }

    /** thread_sem_post */
    method Post(x: nat)
      requires Valid() && x < |count|
      modifies this`count, sys`at, sys.links`lists, sys.links.next, sys.links.prev, sys.links.head, sys.links.tail
      ensures Valid() && count == old(count)[x := old(count)[x] + 1]
      ensures sys.View() == if old(count)[x] < 0 then Woken(old(sys.View()), |locked| + x) else old(sys.View())
    {
      hide Inv, Woken, Mono.System.Shaped, Mono.System.Valid;
      count := count[x := count[x] + 1];
      if count[x] <= 0 { var t := sys.WakeFirst(|locked| + x); }
    }

    lemma Known()
      requires sys.Valid()
      ensures Inv(sys.View()) && Sizes(sys.View())
    {
    }
  }

  lemma BlockedQueues(s: Sys, q: nat)
    requires Inv(s) && q < |s.lists.queues| && |s.lists.ring| > 1
    ensures 0 <= s.cur && Block(s, Queued(q), {}).lists.queues == s.lists.queues[q := s.lists.queues[q] + [s.cur]]
  {
    Running(s);
  }

  /** Blocking in a queue does not touch the thread that runs next. */
  lemma BlockedHead(s: Sys, q: nat)
    requires Inv(s) && |s.lists.ring| > 1 && s.lists.ring[|s.lists.ring| - 1] < |s.desc|
    requires s.desc[s.lists.ring[|s.lists.ring| - 1]].saved != NoContext
    ensures !Mono.NoStackFor(Block(s, Queued(q), {}))
  {
    Running(s);
  }

  lemma DispatchLists(s: Sys, x: nat)
    ensures Dispatch(s, x).lists == s.lists
  {
  }
}
