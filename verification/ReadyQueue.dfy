/** The ring of ready threads against the plain first-in-first-out ready queue
    (options/src/scheduler.c): the queue holds the ready threads other than the running one. */
module ReadyQueue {
  import opened Basics
  import opened Ring
  import opened MonoState
  import Mono

  // ---------- The queue ----------

  /** The static tail queue of options/src/scheduler.c. */
  class Queue {
    var ready: seq<nat>

    constructor ()
      ensures ready == []
    {
      ready := [];
    }

    method Enqueue(t: nat)
      modifies this
      ensures ready == old(ready) + [t]
    {
      ready := ready + [t];
    }

    predicate IsEmpty()
      reads this
    {
      ready == []
    }

    method Dequeue() returns (t: nat)
      requires ready != []
      modifies this
      ensures [t] + ready == old(ready)
    {
      t := ready[0];
      ready := ready[1..];
    }
  }

  // ---------- The ring refines it ----------

  /** What the queue scheduler remembers: who runs, and the queue of the others. */
  datatype Sched = Sched(running: nat, ready: seq<nat>)

  datatype Op = Enqueue(t: nat) | Yield

  function QueueStep(s: Sched, op: Op): Sched {
    match op
    case Enqueue(t) => s.(ready := s.ready + [t])
    case Yield => if s.ready == [] then s else Sched(s.ready[0], s.ready[1..] + [s.running])
  }

  function QueueRun(s: Sched, ops: seq<Op>): Sched {
    if ops == [] then s else QueueStep(QueueRun(s, ops[..|ops| - 1]), ops[|ops| - 1])
  }

  function RingStep(ring: seq<nat>, op: Op): (r: seq<nat>)
    requires ring != []
    ensures r != []
  {
    match op
    case Enqueue(t) => ring + [t]
    case Yield => if |ring| == 1 then ring else Rotate(ring, 1)
  }

  function RingRun(ring: seq<nat>, ops: seq<Op>): (r: seq<nat>)
    requires ring != []
    ensures r != []
  {
    if ops == [] then ring else RingStep(RingRun(ring, ops[..|ops| - 1]), ops[|ops| - 1])
  }

  /** The ring stands for the running thread followed by the queue. */
  function Waiting(ring: seq<nat>): seq<nat>
    requires ring != []
  {
    ring[1..]
  }

  function Abstract(ring: seq<nat>): Sched
    requires ring != []
  {
    Sched(ring[0], Waiting(ring))
  }

  /** sched_enqueue is enqueue. */
  lemma EnqueueIsAppend(ring: seq<nat>, t: nat)
    requires ring != []
    ensures Abstract(RingStep(ring, Enqueue(t))) == QueueStep(Abstract(ring), Enqueue(t))
  {
    assert (ring + [t])[1..] == ring[1..] + [t];
  }

  /** Advancing `current` is: enqueue the running thread, run the one dequeued. */
  lemma YieldIsRequeue(ring: seq<nat>)
    requires ring != []
    ensures Abstract(RingStep(ring, Yield)) == QueueStep(Abstract(ring), Yield)
  {
    if |ring| > 1 {
      assert Rotate(ring, 1) == ring[1..] + [ring[0]];
      assert (ring[1..] + [ring[0]])[1..] == ring[1..][1..] + [ring[0]];
    }
  }

  /** After every sequence of enqueues and yields the ring stands for what the queue scheduler has
      made of the same sequence. */
  lemma {:induction false} RingRefinesQueue(ring: seq<nat>, ops: seq<Op>)
    requires ring != []
    ensures Abstract(RingRun(ring, ops)) == QueueRun(Abstract(ring), ops)
  {
    if ops != [] {
      var n := |ops| - 1;
      RingRefinesQueue(ring, ops[..n]);
      match ops[n]
      case Enqueue(t) => EnqueueIsAppend(RingRun(ring, ops[..n]), t);
      case Yield => YieldIsRequeue(RingRun(ring, ops[..n]));
    }
  }

  lemma OneMore(s: Sched, ops: seq<Op>, op: Op)
    ensures QueueRun(s, ops + [op]) == QueueStep(QueueRun(s, ops), op)
  {
    assert (ops + [op])[..|ops|] == ops;
  }

  // ---------- The two in memory, side by side ----------

  /** The queue scheduler: its queue and the running thread. */
  class Scheduler {
    const queue: Queue
    var running: nat

    constructor (t: nat)
      ensures fresh(queue) && View() == Sched(t, [])
    {
      queue := new Queue();
      running := t;
    }

    ghost function View(): Sched
      reads this, queue
    {
      Sched(running, queue.ready)
    }

    method Do(op: Op)
      modifies this, queue
      ensures View() == QueueStep(old(View()), op)
    {
      match op
      case Enqueue(t) => queue.Enqueue(t);
      case Yield =>
        if !queue.IsEmpty() {
          var t := queue.Dequeue();
          queue.Enqueue(running);
          running := t;
        }
    }
  }

  /** The links and the queue scheduler do the same operations and stay in step. Threads that are
      enqueued are in no list before. */
  method LinksFollow(links: Links, s: Scheduler, ops: seq<Op>)
    requires links.Running() && Abstract(links.lists.ring) == s.View()
    requires forall i :: 0 <= i < |ops| && ops[i].Enqueue? ==>
               ops[i].t < links.next.Length && links.lists.home[ops[i].t] == Off
    requires forall i, j :: 0 <= i < j < |ops| && ops[i].Enqueue? && ops[j].Enqueue? ==> ops[i].t != ops[j].t
    modifies s, s.queue, links, links.next, links.prev
    ensures links.Running() && links.lists.queues == old(links.lists.queues)
    ensures links.current == s.running && s.View() == Abstract(links.lists.ring) == QueueRun(old(s.View()), ops)
  {
    hide Linked, Rotate;
    ghost var s0 := s.View();
    for k := 0 to |ops|
      invariant links.Running() && links.lists.queues == old(links.lists.queues)
      invariant Abstract(links.lists.ring) == s.View() == QueueRun(s0, ops[..k])
      invariant forall i :: k <= i < |ops| && ops[i].Enqueue? ==>
                  ops[i].t < links.next.Length && links.lists.home[ops[i].t] == Off
    {
      assert ops[..k + 1] == ops[..k] + [ops[k]];
      OneMore(s0, ops[..k], ops[k]);
      LinksStep(links, ops[k]);
      s.Do(ops[k]);
    }
    assert ops[..|ops|] == ops;
  }

  method LinksStep(links: Links, op: Op)
    requires links.Running() && (op.Enqueue? ==> op.t < links.next.Length && links.lists.home[op.t] == Off)
    modifies links, links.next, links.prev
    ensures links.Running() && links.lists.queues == old(links.lists.queues)
    ensures Abstract(links.lists.ring) == QueueStep(Abstract(old(links.lists.ring)), op)
    ensures links.lists.home == if op.Enqueue? then old(links.lists.home)[op.t := InRing] else old(links.lists.home)
  {
    hide Linked, Rotate;
    match op
    case Enqueue(t) =>
      EnqueueIsAppend(links.lists.ring, t);
      links.SchedEnqueue(t);
    case Yield =>
      YieldIsRequeue(links.lists.ring);
      var alone := links.IsSchedEmpty();
      if !alone {
        links.MemberKnown(0);
        links.SetCurrent(links.next[links.current], 1);
      }
  }

  // ---------- The library's calls ----------

  datatype Call = CreateCall(func: nat) | YieldCall | WakeCall(q: nat)

  /** The library over the queue scheduler: `created` is the thread in `last_created`, or NIL. */
  datatype Library = Library(sched: Sched, created: int, queues: seq<seq<nat>>)

  function Settle(l: Library): Library {
    if l.created < 0 then l else l.(sched := QueueStep(l.sched, Enqueue(l.created)), created := NIL)
  }

  /** One call; `t` is the thread that thread_create returns, or NIL, and `inline` says that some
      thread runs inline. */
  function CallStep(l: Library, inline: bool, c: Call, t: int): Library {
    match c
    case CreateCall(_) => if t < 0 then l else Settle(l).(created := t)
    case YieldCall => if inline then l else Settle(l).(sched := QueueStep(Settle(l).sched, Yield))
    case WakeCall(q) =>
      if q >= |l.queues| || l.queues[q] == [] then l
      else l.(sched := QueueStep(l.sched, Enqueue(l.queues[q][0])), queues := l.queues[q := l.queues[q][1..]])
  }

  function CallRun(l: Library, inline: bool, calls: seq<Call>, ts: seq<int>): Library
    requires |ts| == |calls|
  {
    if calls == [] then l
    else
      var n := |calls| - 1;
      CallStep(CallRun(l, inline, calls[..n], ts[..n]), inline, calls[n], ts[n])
  }

  lemma OneCallMore(l: Library, inline: bool, calls: seq<Call>, ts: seq<int>, n: nat)
    requires n < |calls| && |ts| == n + 1
    ensures CallRun(l, inline, calls[..n + 1], ts) ==
            CallStep(CallRun(l, inline, calls[..n], ts[..n]), inline, calls[n], ts[n])
  {
    assert calls[..n + 1][..n] == calls[..n];
  }

  /** The library that a state of the system stands for. */
  function Stands(v: Sys): Library
    requires v.lists.ring != []
  {
    Library(Abstract(v.lists.ring), v.last, v.lists.queues)
  }

  lemma FlushedStands(v: Sys, func: nat)
    requires Inv(v) && (v.last == NIL || 0 <= v.last < |v.at|) && func != 0
    ensures v.lists.ring != [] && Mono.Flushed(v, func).lists.ring != []
    ensures Stands(Mono.Flushed(v, func)) == Settle(Stands(v))
  {
    Mono.RingKnown(v);
    if v.last != NIL { EnqueueIsAppend(v.lists.ring, v.last); }
  }

  lemma CreatedStands(f: Sys, t: nat)
    requires Sizes(f) && t < |f.at| && f.lists.ring != []
    ensures MonoState.Create(f, t).lists == f.lists && Stands(MonoState.Create(f, t)) == Stands(f).(created := t)
  {
  }

  lemma YieldedStands(f: Sys, x: nat)
    requires Inv(f)
    ensures f.lists.ring != []
    ensures |f.lists.ring| == 1 ==> QueueStep(Stands(f).sched, Yield) == Stands(f).sched
    ensures |f.lists.ring| > 1 ==>
              var r := ReleaseDead(Dispatch(HandOver(f, 1), x));
              r.lists.ring != [] && Stands(r) == Stands(f).(sched := QueueStep(Stands(f).sched, Yield))
  {
    Mono.RingKnown(f);
    if |f.lists.ring| > 1 {
      var r := ReleaseDead(Dispatch(HandOver(f, 1), x));
      assert r.lists == f.lists.(ring := Rotate(f.lists.ring, 1)) && r.last == f.last;
      YieldIsRequeue(f.lists.ring);
    }
  }

  lemma WokenStands(v: Sys, q: nat)
    requires Inv(v) && q < |v.lists.queues| && (v.lists.queues[q] != [] ==> v.lists.queues[q][0] < |v.at|)
    ensures v.lists.ring != [] && Woken(v, q).lists.ring != []
    ensures Stands(Woken(v, q)) == CallStep(Stands(v), false, WakeCall(q), NIL)
  {
    Mono.RingKnown(v);
    if v.lists.queues[q] != [] { EnqueueIsAppend(v.lists.ring, v.lists.queues[q][0]); }
  }

  lemma LastKnown(sys: Mono.System)
    requires sys.Valid()
    ensures Inv(sys.View()) && (sys.lastCreated == NIL || 0 <= sys.lastCreated < |sys.at|)
    ensures sys.lastFunc != 0 && |sys.at| == |sys.desc| && sys.links.lists.ring != [] && Sizes(sys.View())
  {
  }

  lemma WaiterKnown(sys: Mono.System, q: nat)
    requires sys.Valid() && q < |sys.links.lists.queues|
    ensures sys.links.lists.queues[q] != [] ==> sys.links.lists.queues[q][0] < |sys.at|
  {
    if sys.links.lists.queues[q] != [] { sys.links.FirstKnown(q); }
  }

  /** One call of the library: thread_create, thread_yield, or an unlock or post that wakes the
      longest waiter. `w` is the thread that it makes ready, if it wakes one. */
  method Make(sys: Mono.System, c: Call) returns (ok: bool, t: int, w: int)
    requires sys.Valid() && (c.CreateCall? ==> c.func != 0) && (c.WakeCall? ==> c.q < |sys.links.lists.queues|)
    modifies sys.Memory()
    ensures old(sys.links.lists.ring) != []
    ensures ok ==> sys.Valid() && sys.links.lists.ring != []
    ensures ok ==> Stands(sys.View()) == CallStep(old(Stands(sys.View())), old(sys.inlineExecuting) > 0, c, t)
    ensures ok ==> (sys.inlineExecuting > 0 <==> old(sys.inlineExecuting) > 0)
    ensures !ok ==> c.YieldCall? && sys.AllStacksUsed(sys.stacks.out)
    ensures c.WakeCall? ==>
              w == if old(sys.links.lists.queues)[c.q] == [] then NIL else old(sys.links.lists.queues)[c.q][0]
    ensures c.CreateCall? ==> t == NIL || (0 <= t < |sys.desc| && t !in old(sys.threads.out))
  {
    hide Inv, Mono.System.Shaped, Mono.Flushed, ReleaseDead, Dispatch, HandOver, Woken, MonoState.Create, Stands,
         CallStep;
    LastKnown(sys);
    ok, t, w := true, NIL, NIL;
    match c
    case CreateCall(func) => t := MakeCreate(sys, func);
    case YieldCall => ok := MakeYield(sys);
    case WakeCall(q) =>
      WaiterKnown(sys, q);
      WokenStands(sys.View(), q);
      WakesAlike(old(Stands(sys.View())), q);
      w := sys.WakeFirst(q);
      LastKnown(sys);
  }

  lemma WakesAlike(l: Library, q: nat)
    ensures forall inline, t :: CallStep(l, inline, WakeCall(q), t) == CallStep(l, false, WakeCall(q), NIL)
  {
  }

  method MakeCreate(sys: Mono.System, func: nat) returns (t: int)
    requires sys.Valid() && func != 0
    modifies sys.Memory()
    ensures old(sys.links.lists.ring) != [] && sys.Valid() && sys.links.lists.ring != []
    ensures Stands(sys.View()) == CallStep(old(Stands(sys.View())), old(sys.inlineExecuting) > 0, CreateCall(func), t)
    ensures sys.inlineExecuting == old(sys.inlineExecuting)
    ensures (t == NIL || (0 <= t < |sys.desc| && t !in old(sys.threads.out)))
  {
    hide Inv, Mono.System.Shaped, Mono.Flushed, MonoState.Create, Stands;
    ghost var v, f := sys.View(), Mono.Flushed(sys.View(), sys.lastFunc);
    LastKnown(sys);
    FlushedStands(v, sys.lastFunc);
    Mono.FlushedKeeps(v, sys.lastFunc);
    Mono.RingKnown(f);
    FlushedSize(v, sys.lastFunc);
    t := sys.Create(func);
    LastKnown(sys);
    if t != NIL {
      CreatedSize(f, t);
      CreatedStands(f, t);
    }
  }

  lemma CreatedSize(f: Sys, t: nat)
    ensures |MonoState.Create(f, t).at| == |f.at|
  {
  }

  lemma FlushedSize(v: Sys, func: nat)
    requires Sizes(v) && (v.last == NIL || 0 <= v.last < |v.at|)
    ensures |Mono.Flushed(v, func).at| == |v.at|
  {
  }

  method MakeYield(sys: Mono.System) returns (ok: bool)
    requires sys.Valid()
    modifies sys.Memory()
    ensures old(sys.links.lists.ring) != []
    ensures ok ==> sys.Valid() && sys.links.lists.ring != [] && sys.inlineExecuting == old(sys.inlineExecuting)
    ensures ok ==> Stands(sys.View()) == CallStep(old(Stands(sys.View())), old(sys.inlineExecuting) > 0, YieldCall, NIL)
    ensures !ok ==> sys.AllStacksUsed(sys.stacks.out)
  {
    hide Inv, Mono.System.Shaped, Mono.Flushed, ReleaseDead, Dispatch, HandOver, Stands;
    ghost var v, f := sys.View(), Mono.Flushed(sys.View(), sys.lastFunc);
    LastKnown(sys);
    FlushedStands(v, sys.lastFunc);
    Mono.FlushedKeeps(v, sys.lastFunc);
    Mono.RingKnown(f);
    ghost var x;
    ok, x := sys.Yield();
    YieldedStands(f, x);
  }

  /** The same call for the queue scheduler: `created` is the thread created before, `w` the one to
      wake. */
  method Imitate(s: Scheduler, ghost l: Library, inline: bool, c: Call, t: int, created: int, w: int)
    requires s.View() == l.sched && created == l.created && (c.WakeCall? ==> c.q < |l.queues|)
    requires c.WakeCall? ==> w == if l.queues[c.q] == [] then NIL else l.queues[c.q][0]
    modifies s, s.queue
    ensures s.View() == CallStep(l, inline, c, t).sched
  {
    match c
    case CreateCall(_) => if t >= 0 && created >= 0 { s.Do(Enqueue(created)); }
    case YieldCall =>
      if !inline {
        if created >= 0 { s.Do(Enqueue(created)); }
        s.Do(Yield);
      }
    case WakeCall(_) => if w >= 0 { s.Do(Enqueue(w)); }
  }

  /** Whatever the program creates, wakes and yields, in whatever order: the system does what the
      same calls do over the queue scheduler, which runs beside it, and after them the same thread
      runs and the others are in the same order. `ts` are the threads created. */
  method SystemFollows(sys: Mono.System, s: Scheduler, calls: seq<Call>) returns (ok: bool, ts: seq<int>)
    requires sys.Valid() && sys.links.lists.ring != [] && s.View() == Abstract(sys.links.lists.ring)
    requires s !in sys.Memory() && s.queue !in sys.Memory()
    requires forall i :: 0 <= i < |calls| && calls[i].CreateCall? ==> calls[i].func != 0
    requires forall i :: 0 <= i < |calls| && calls[i].WakeCall? ==> calls[i].q < |sys.links.lists.queues|
    modifies sys.Memory(), s, s.queue
    ensures ok ==> sys.Valid() && sys.links.lists.ring != [] && |ts| == |calls|
    ensures ok ==> Stands(sys.View()) == CallRun(old(Stands(sys.View())), old(sys.inlineExecuting) > 0, calls, ts)
    ensures ok ==> s.View() == Abstract(sys.links.lists.ring) && s.running == sys.links.current
    ensures !ok ==> sys.AllStacksUsed(sys.stacks.out)
  {
    hide Inv, Mono.System.Shaped, Mono.System.Valid, CallStep, CallRun, Abstract;
    ghost var l := Stands(sys.View());
    ghost var inline := sys.inlineExecuting > 0;
    ok, ts := true, [];
    NoCalls(l, inline);
    for k := 0 to |calls|
      invariant sys.Valid() && sys.links.lists.ring != [] && |ts| == k && (sys.inlineExecuting > 0 <==> inline)
      invariant Stands(sys.View()) == CallRun(l, inline, calls[..k], ts) && s.View() == Abstract(sys.links.lists.ring)
      invariant |sys.links.lists.queues| == old(|sys.links.lists.queues|)
    {
      ghost var m := Stands(sys.View());
      var created := sys.lastCreated;
      var t, w;
      var inl := sys.inlineExecuting > 0;
      ok, t, w := Make(sys, calls[k]);
      if !ok { return; }
      Imitate(s, m, inl, calls[k], t, created, w);
      QueuesStay(m, inline, calls[k], t);
      ts := ts + [t];
      assert ts[..k] + [t] == ts;
      OneCallMore(l, inline, calls, ts, k);
    }
    assert calls[..|calls|] == calls;
    ok := true;
    HeadRuns(sys, s);
  }

  lemma NoCalls(l: Library, inline: bool)
    ensures forall calls: seq<Call> :: CallRun(l, inline, calls[..0], []) == l
  {
  }

  lemma QueuesStay(l: Library, inline: bool, c: Call, t: int)
    ensures |CallStep(l, inline, c, t).queues| == |l.queues|
  {
  }

  lemma HeadRuns(sys: Mono.System, s: Scheduler)
    requires sys.Valid() && sys.links.lists.ring != [] && s.View() == Abstract(sys.links.lists.ring)
    ensures sys.links.current == s.running
  {
  }

  // ---------- Fairness ----------

  function Yields(ring: seq<nat>, k: nat): (r: seq<nat>)
    requires ring != []
    ensures |r| == |ring|
  {
    if k == 0 then ring else Rotate(Yields(ring, k - 1), 1)
  }

  /** After `k` yields the thread at position `k` of the first ring runs. */
  lemma {:induction false} YieldsRotate(ring: seq<nat>, k: nat)
    requires ring != [] && k <= |ring|
    ensures Yields(ring, k) == Rotate(ring, k)
  {
    if k > 0 {
      YieldsRotate(ring, k - 1);
      assert Rotate(ring, k - 1)[1..] == ring[k..] + ring[..k - 1];
      assert ring[..k] == ring[..k - 1] + [ring[k - 1]];
    }
  }

  /** Round robin: `n` yields over `n` ready threads run every one of them exactly once, and then
      the first one is back, in the same ring. */
  lemma YieldsAreFair(ring: seq<nat>, t: nat)
    requires ring != [] && Distinct(ring)
    ensures Yields(ring, |ring|) == ring
    ensures t in ring ==> exists k :: 0 <= k < |ring| && Yields(ring, k)[0] == t
    ensures forall i, j :: 0 <= i < j < |ring| ==> Yields(ring, i)[0] != Yields(ring, j)[0]
  {
    YieldsRotate(ring, |ring|);
    assert Rotate(ring, |ring|) == ring;
    forall k | 0 <= k < |ring| ensures Yields(ring, k)[0] == ring[k] {
      YieldsRotate(ring, k);
      RotateAt(ring, k, 0);
    }
    if t in ring {
      var k :| 0 <= k < |ring| && ring[k] == t;
      assert Yields(ring, k)[0] == t;
    }
  }

  // ---------- Where it does not ----------

  /** When the running thread blocks, the others keep their cyclic order. */
  lemma BlockingKeepsOrder(ring: seq<nat>)
    requires |ring| > 1
    ensures exists k :: 0 <= k < |ring| - 1 && Left(ring) == Rotate(Waiting(ring), k)
  {
    assert Left(ring) == Rotate(Waiting(ring), |ring| - 2);
  }

  /** But the next one to run is the thread enqueued last, not the one enqueued first as the queue
      has it and the comment on sched_pick_next says; the two agree only if there is just one. */
  lemma BlockPicksNewest(ring: seq<nat>)
    requires |ring| > 1 && Distinct(ring)
    ensures Left(ring)[0] == Waiting(ring)[|Waiting(ring)| - 1]
    ensures Left(ring)[0] == Waiting(ring)[0] <==> |ring| == 2
  {
    RotateAt(ring[1..], |ring| - 2, 0);
  }

  /** Three ready threads, the running one blocks: the queue would run 1, the ring runs 2. */
  lemma NewestFirstExample()
    ensures Left([0, 1, 2]) == [2, 1] && Waiting([0, 1, 2])[0] == 1
  {
    assert [0, 1, 2][1..] == [1, 2];
    assert Rotate([1, 2], 1) == [2, 1];
  }
}
