/** What holds in every state that workers can reach, however their steps interleave. */
module WorkersRuns {
  import opened Basics
  import opened Workers
  import opened WorkersInv
  import opened WorkersSteps
  import opened WorkersCalls
  import opened WorkersLife
  import opened WorkersShape

  /** The main thread runs on worker 0, the other workers stand at the top of their loop.
      Semaphore `x` starts with the value `values[x]`. */
  function Start(n: nat, values: map<nat, nat>): State {
    State(
      seq(n, w => if w == 0 then Worker(User, Some(0), Some(0), NoCb) else Worker(Loop, None, None, NoCb)),
      map[Current(0) := [0]], map[0 := Current(0)], map[0 := 0], map[], {}, map[], map[],
      map x | x in values :: Sem(values[x], values[x], 0, Steady, [], []), map[], map[], 1)
  }

  function Run(s: State, steps: seq<(nat, Act)>): State {
    if steps == [] then s
    else
      var (w, a) := steps[|steps| - 1];
      Do(Run(s, steps[..|steps| - 1]), w, a)
  }

  lemma StartInv(n: nat, values: map<nat, nat>)
    requires n > 0
    ensures Inv(Start(n, values))
  {
    hide MutexOk, SemOk, WorkerOk, ThreadOk, Placed;
    var s := Start(n, values);
    forall w: nat | w < n ensures WorkerOk(s, w) { StartWorker(n, values, w); }
    StartThread(n, values);
    StartObjects(n, values);
  }

  lemma StartWorker(n: nat, values: map<nat, nat>, w: nat)
    requires w < n
    ensures WorkerOk(Start(n, values), w)
  {
  }

  lemma StartThread(n: nat, values: map<nat, nat>)
    requires n > 0
    ensures ThreadOk(Start(n, values), 0) && Placed(Start(n, values))
  {
  }

  lemma StartObjects(n: nat, values: map<nat, nat>)
    ensures var s := Start(n, values); AllMutexes(s) && AllSems(s)
  {
  }

  lemma StepKeepsInv(s: State, w: nat, a: Act)
    requires Inv(s)
    ensures Inv(Do(s, w, a))
  {
    hide Inv;
    if w < |s.workers| {
      match a {
        case FlushLast(pc) => FlushLastKeeps(s, w, pc);
        case TakeSpin(pc) => TakeSpinKeeps(s, w, pc);
        case DropSpin => DropSpinKeeps(s, w);
        case Create => CreateKeeps(s, w);
        case Stash => StashKeeps(s, w);
        case Schedule => ScheduleKeeps(s, w);
        case Park => ParkKeeps(s, w);
        case Switch => SwitchKeeps(s, w);
        case Wake => WakeKeeps(s, w);
        case LockDecide => LockDecideKeeps(s, w);
        case UnlockPop => UnlockPopKeeps(s, w);
        case SemDecrement => SemDecrementKeeps(s, w);
        case SemAppend => SemAppendKeeps(s, w);
        case PostIncrement => PostIncrementKeeps(s, w);
        case PostPop => PostPopKeeps(s, w);
        case JoinDecide(refused) => JoinDecideKeeps(s, w, refused);
        case ExitFinish => ExitFinishKeeps(s, w);
        case ExitArm => ExitArmKeeps(s, w);
        case ExitLeave => ExitLeaveKeeps(s, w);
        case SigDecide(mask, sig) => SigDecideKeeps(s, w, mask, sig);
        case KillDeliver => KillDeliverKeeps(s, w);
        case TakeCb => TakeCbKeeps(s, w);
        case RunCb(v) => RunCbKeeps(s, w, v);
        case Pop => PopKeeps(s, w);
        case Drain => DrainKeeps(s, w);
        case Steal(v) => StealKeeps(s, w, v);
        case GiveUp => StealKeeps(s, w, w);
        case Run => RunKeeps(s, w);
      }
    }
  }

  lemma {:induction false} RunKeepsInv(s: State, steps: seq<(nat, Act)>)
    requires Inv(s)
    ensures Inv(Run(s, steps))
  {
    hide Inv, Do;
    if steps != [] {
      RunKeepsInv(s, steps[..|steps| - 1]);
      var (w, a) := steps[|steps| - 1];
      StepKeepsInv(Run(s, steps[..|steps| - 1]), w, a);
    }
  }

  /** Some run of some number of workers ends in `s`. */
  ghost predicate Reachable(s: State) {
    exists n: nat, values: map<nat, nat>, steps: seq<(nat, Act)> :: n > 0 && s == Run(Start(n, values), steps)
  }

  lemma Reached(s: State)
    requires Reachable(s)
    ensures Inv(s)
  {
    hide Inv;
    var n: nat, values: map<nat, nat>, steps: seq<(nat, Act)> :| n > 0 && s == Run(Start(n, values), steps);
    StartInv(n, values);
    RunKeepsInv(Start(n, values), steps);
  }

  /** Worker `w` executes on the stack of thread `t`. */
  predicate OnStack(s: State, w: nat, t: Tid) { w < |s.workers| && s.workers[w].stack == Some(t) }

  /** Single placement: a thread that has not finished is in one place, once, and never on the
      stacks of two workers. While its worker still names it as `current` in another place, that
      worker is about to park it and holds the spin lock of its queue. */
  lemma SinglePlacement(s: State, t: Tid)
    requires Reachable(s)
    ensures t < s.nextTid && t !in s.finished ==>
              && (exists p :: t in At(s, p))
              && (forall p, q, i, j ::
                    0 <= i < |At(s, p)| && 0 <= j < |At(s, q)| && At(s, p)[i] == t && At(s, q)[j] == t ==>
                    p == q && i == j)
              && (forall v: nat, w: nat :: OnStack(s, v, t) && OnStack(s, w, t) ==> v == w)
              && (forall w: nat, p ::
                    w < |s.workers| && s.workers[w].cur == Some(t) && t in At(s, p) && p != Current(w) ==>
                    exists l :: Guards(l, p) && l in s.holder && s.holder[l] == w)
  {
    hide Reachable;
    Reached(s);
    if t < s.nextTid && t !in s.finished {
      PlacedOnce(s, t);
      ParkingOnly(s, t);
    }
  }

  lemma PlacedOnce(s: State, t: Tid)
    requires Inv(s) && t < s.nextTid && t !in s.finished
    ensures t in s.home && t in At(s, s.home[t])
    ensures forall p, q, i, j :: 0 <= i < |At(s, p)| && 0 <= j < |At(s, q)| && At(s, p)[i] == t && At(s, q)[j] == t ==>
              p == q && i == j
  {
    hide AllWorkers, AllThreads, AllMutexes, AllSems, Holders;
    forall p, q, i, j | 0 <= i < |At(s, p)| && 0 <= j < |At(s, q)| && At(s, p)[i] == t && At(s, q)[j] == t
      ensures p == q && i == j
    {
      assert PlaceOk(s, p) && PlaceOk(s, q) && t in At(s, p) && t in At(s, q);
    }
  }

  lemma ParkingOnly(s: State, t: Tid)
    requires Inv(s) && t in s.home
    ensures forall v: nat, w: nat :: OnStack(s, v, t) && OnStack(s, w, t) ==> v == w
    ensures forall w: nat, p :: w < |s.workers| && s.workers[w].cur == Some(t) && t in At(s, p) && p != Current(w) ==>
              exists l :: Guards(l, p) && l in s.holder && s.holder[l] == w
  {
    hide HeldLock, Guards, AllMutexes, AllSems, Bounded;
    forall w: nat | OnStack(s, w, t) ensures t in s.on && s.on[t] == w { Known(s, w); }
    forall w: nat, p | w < |s.workers| && s.workers[w].cur == Some(t) && t in At(s, p) && p != Current(w)
      ensures exists l :: Guards(l, p) && l in s.holder && s.holder[l] == w
    {
      Known(s, w);
      assert PlaceOk(s, p);
      if OnUser(s.workers[w].pc) { AtHome(s, w); }
      assert ThreadOk(s, t);
      Held(s, w);
    }
  }

  /** Release, then park: a thread that any worker can obtain from a deque, an injector, a wake-up
      or as a new thread has left its stack, or never had one. A thread that is queued before it
      has left its stack cannot be popped yet: its own worker holds the lock of the queue. */
  lemma ReleaseThenPark(s: State, t: Tid, p: Place)
    requires Reachable(s)
    ensures t in At(s, p) ==>
              && (p.Deque? || p.Injector? || p.Hand? || p.LastCreated? ==> forall w: nat :: !OnStack(s, w, t))
              && (Waiting(p) ==> forall w: nat :: OnStack(s, w, t) ==>
                    exists l :: Guards(l, p) && l in s.holder && s.holder[l] == w)
              && (p.AfterArg? ==> forall w: nat :: OnStack(s, w, t) ==> w == p.w && s.workers[w].pc == Switching)
  {
    hide Reachable, HeldLock, Guards, AllMutexes, AllSems, Bounded, WaitOk, JoinOk;
    Reached(s);
    assert PlaceOk(s, p);
    if t in At(s, p) {
      assert ThreadOk(s, t);
      forall w: nat | OnStack(s, w, t) ensures t in s.on && s.on[t] == w { Known(s, w); }
      if t in s.on { Known(s, s.on[t]); Held(s, s.on[t]); }
    }
  }

  /** A joiner that was parked before its thread finished is published only after that thread has
      left its stack; until then it is held by the worker which that thread is leaving. */
  lemma JoinerWaitsForExit(s: State, t: Tid, w: nat)
    requires Reachable(s)
    ensures t in s.joined && OnStack(s, w, s.joined[t]) ==>
              t in At(s, if s.joined[t] !in s.finished then JoinSlot(s.joined[t])
                         else if s.workers[w].pc == ExitArmed then AfterArg(w) else Hand(w))
  {
    hide Reachable, AllMutexes, AllSems, RunOk, WaitOk, HeldLock, Guards;
    Reached(s);
    if t in s.joined && OnStack(s, w, s.joined[t]) {
      Known(s, w);
      assert ThreadOk(s, t);
      assert t in At(s, s.home[t]);
    }
  }

  /** The slot `after_switch` is empty whenever it is written: by thread_yield, by parking, and by
      a leaving thread that wakes its joiner. */
  lemma SlotEmptyWhenWritten(s: State, w: nat)
    requires Reachable(s)
    ensures w < |s.workers|
              && (s.workers[w].pc == YieldFlushed || s.workers[w].pc == ExitOut || ParkLock(s.workers[w].pc).Some?) ==>
              s.workers[w].cb == NoCb && At(s, AfterArg(w)) == []
  {
    hide Reachable, Inv;
    Reached(s);
    if w < |s.workers| { Known(s, w); }
  }

  /** Mutex hand-off: a mutex is locked exactly when it has an owner, an unlocked mutex has no
      queue, and threads become owners in the order in which they arrived, with those that still
      wait at the end. */
  lemma MutexHandOff(s: State, m: nat)
    requires Reachable(s)
    ensures var x, q := MutexOf(s, m), At(s, MutexQueue(m));
            && (x.locked <==> x.owner.Some?) && (!x.locked ==> q == [])
            && x.arrived == x.granted + q
            && (x.owner.Some? ==> x.granted != [] && x.owner.value == x.granted[|x.granted| - 1])
  {
    hide Reachable;
    Reached(s);
    assert MutexOk(s, m);
  }

  /** Ownership changes hands in two ways only: a thread takes a free mutex, or the owner itself
      gives it to the first thread of the queue, or to nobody if there is none. */
  lemma OwnerHandsOver(s: State, w: nat, a: Act, m: nat)
    requires Reachable(s)
    ensures var x, x', q := MutexOf(s, m), MutexOf(Do(s, w, a), m), At(s, MutexQueue(m));
            x'.owner != x.owner ==>
              && w < |s.workers|
              && (x.owner == None ==> x'.owner == s.workers[w].stack && x'.owner.Some? && q == [])
              && (x.owner != None ==> x.owner == s.workers[w].stack && x'.owner == if q == [] then None else Some(q[0]))
  {
    hide Reachable, Inv, LockDecideStep, UnlockPopStep;
    Reached(s);
    if w < |s.workers| {
      match a {
        case LockDecide => LockTakes(s, w, m);
        case UnlockPop => UnlockGives(s, w, m);
        case _ => hide Do; MutexesStay(s, w, a);
      }
    }
  }

  lemma LockTakes(s: State, w: nat, m: nat)
    requires Inv(s) && w < |s.workers|
    ensures var x, x' := MutexOf(s, m), MutexOf(LockDecideStep(s, w), m);
            x'.owner != x.owner ==>
              x.owner == None && x'.owner == s.workers[w].stack && x'.owner.Some? && At(s, MutexQueue(m)) == []
  {
    hide Inv;
    Facts(s, w);
    assert MutexOk(s, m);
    if s.workers[w].pc.MtxIn? { AtHome(s, w); }
  }

  lemma UnlockGives(s: State, w: nat, m: nat)
    requires Inv(s) && w < |s.workers|
    ensures var x, x', q := MutexOf(s, m), MutexOf(UnlockPopStep(s, w), m), At(s, MutexQueue(m));
            x'.owner != x.owner ==>
              x.owner == s.workers[w].stack && x.owner != None && x'.owner == if q == [] then None else Some(q[0])
  {
    hide Inv;
    if s.workers[w].pc.UnlIn? { InMutex(s, w, s.workers[w].pc.m); AtHome(s, w); }
  }

  lemma MutexesStay(s: State, w: nat, a: Act)
    requires Inv(s) && w < |s.workers| && a != LockDecide && a != UnlockPop
    ensures Do(s, w, a).mutexes == s.mutexes
  {
    hide Inv, Do, Moves;
    StepDid(s, w, a);
  }

  /** Semaphore accounting: while nobody is inside its critical section, the queue is as long as
      the count is negative, and the waits granted are those paid for by the initial value and the
      posts. */
  lemma SemAccounting(s: State, x: nat)
    requires Reachable(s)
    ensures x in s.sems && SLock(x) !in s.holder ==>
              var y, q := s.sems[x], At(s, SemQueue(x));
              && |q| == (if y.count < 0 then -y.count else 0)
              && |y.granted| == y.init + y.posts - (if y.count > 0 then y.count else 0)
              && y.arrived == y.granted + q
  {
    hide Reachable;
    Reached(s);
    if x in s.sems { assert SemOk(s, x); }
  }

  /** No signal is missed: none that a waiting thread waits for is pending. No joiner waits for a
      thread that has finished. */
  lemma NoMissedWakeUp(s: State, t: Tid)
    requires Reachable(s)
    ensures && (t in s.masks ==> At(s, SigSlot(t)) == [t] && Pending(s, t) * s.masks[t] == {})
            && (t in s.finished ==> At(s, JoinSlot(t)) == [])
  {
    hide Reachable, AllMutexes, AllSems, AllWorkers, RunOk, JoinOk;
    Reached(s);
    if t in s.masks { AloneInSlot(s, t); assert ThreadOk(s, t); }
    assert PlaceOk(s, JoinSlot(t));
    if At(s, JoinSlot(t)) != [] {
      var u := At(s, JoinSlot(t))[0];
      assert u in At(s, JoinSlot(t));
      assert ThreadOk(s, u);
    }
  }
}
