/** The scheduler loop of the M:N build, flushing `last_created` and spin locks keep the invariant.

    Steps of the same kind share their proof: those that only move the program counter (`PcKeeps`),
    those that hand over a thread that does not run (`MoveKeeps`), and those that take or drop a spin
    lock (`AcquireKeeps`, `ReleaseKeeps`). What a step of a given kind may do to its own worker is a
    predicate on the worker before and after it (`Smooth`, `Locking`), checked once per step.

    Big predicates are hidden wherever only their names matter. */
module WorkersSteps {
  import opened Basics
  import opened Workers
  import opened WorkersInv

  // ---------- Steps of common kinds ----------

  /** Program counters whose parameter is the running thread itself. */
  predicate OwnPc(pc: Pc) {
    pc.ExitIn? || pc.ExitFinished? || pc.SigIn? || pc.SigOut? || pc.SigSet? || pc.SigFlushed?
  }

  /** The worker goes from `k` to `k'` within one activity: same stack, same spin lock. */
  predicate Smooth(k: Worker, k': Worker) {
    && k'.stack == k.stack && k'.cur == k.cur && HeldLock(k') == HeldLock(k)
    && !k.pc.Switching? && !k'.pc.Switching? && InLoop(k'.pc) == InLoop(k.pc) && Leaving(k'.pc) == Leaving(k.pc)
    && (WaitPlace(k'.pc) == None || WaitPlace(k'.pc) == WaitPlace(k.pc))
    && !k.pc.SemDec? && !k'.pc.SemDec? && !k.pc.PostInc? && !k'.pc.PostInc? && !k'.pc.UnlIn? && !k'.pc.MtxOut?
    && !k'.pc.UnlOut?
    && (OwnPc(k'.pc) ==> OwnPc(k.pc) && k'.pc.t == k.pc.t)
    && (k'.cb != NoCb ==> k'.pc.Loop? || (k'.pc.ExitArmed? && k'.cb.WakeJoiner?))
    && (k'.pc.InCb? ==> k'.pc.c != NoCb)
  }

  lemma SmoothKeeps(s: State, s': State, w: nat)
    requires w < |s.workers| && |s'.workers| == |s.workers| && WorkerOk(s, w) && SlotsOk(s', w)
    requires Smooth(s.workers[w], s'.workers[w])
    requires s'.on == s.on && s'.holder == s.holder && s'.sems == s.sems && s'.finished == s.finished
    requires s.workers[w].stack.Some? ==>
               var me := s.workers[w].stack.value; me in s.home ==> me in s'.home && s'.home[me] == s.home[me]
    ensures WorkerOk(s', w)
  {
    hide SlotsOk;
    assert CbOk(s', w) by { hide StackOk, PhaseOk; }
    assert PhaseOk(s', w) by { hide StackOk, CbOk; }
    assert StackOk(s', w) by { hide CbOk, PhaseOk; }
  }

  /** The worker moves on; nothing else changes. */
  lemma PcKeeps(s: State, w: nat, k: Worker)
    requires Inv(s) && w < |s.workers| && Smooth(s.workers[w], k)
    requires SlotsOk(s.(workers := s.workers[w := k]), w)
    ensures Inv(s.(workers := s.workers[w := k]))
  {
    hide Smooth, SlotsOk, WorkerOk, ThreadOk, HeldLock, Guards, PlaceOk, MutexOk, SemOk, Placed, SameLocks, ObjectsOk,
         SameOthers, SameThreads, Bounded, Finishing;
    var s' := s.(workers := s.workers[w := k]);
    Known(s, w);
    SmoothKeeps(s, s', w);
    OthersByPlaces(s, s', w, Hand(w), Hand(w));
    PlacedByAt(s, s');
    LocksStay(s, s', w);
    SameObjects(s, s', w);
    StillFrame(s, s', w);
    if s.workers[w].stack.Some? { MeKept(s, s', w); }
    Assemble(s, s', w, s.nextTid);
  }

  lemma Known(s: State, w: nat)
    requires Inv(s) && w < |s.workers|
    ensures WorkerOk(s, w) && SlotsOk(s, w)
  {
  }

  lemma StillFrame(s: State, s': State, w: nat)
    requires w < |s.workers| && Bounded(s) && s'.home == s.home && s'.on == s.on && s'.finished == s.finished
    requires s'.masks == s.masks && s'.joined == s.joined && s'.pending == s.pending && s'.nextTid == s.nextTid
    requires s'.at == s.at
    ensures SameThreads(s, s', w, s.nextTid) && Bounded(s') && Finishing(s, s')
  {
  }

  lemma PlacedByAt(s: State, s': State)
    requires s'.at == s.at && s'.home == s.home && Placed(s)
    ensures Placed(s')
  {
    forall p ensures PlaceOk(s', p) { assert PlaceOk(s, p); }
    forall u: Tid | u in s'.home ensures u in At(s', s'.home[u]) { assert u in At(s, s.home[u]); }
  }

  lemma SameObjects(s: State, s': State, w: nat)
    requires s'.mutexes == s.mutexes && s'.sems == s.sems
    requires forall m :: At(s', MutexQueue(m)) == At(s, MutexQueue(m))
    requires forall x :: At(s', SemQueue(x)) == At(s, SemQueue(x))
    requires forall x :: x in s.sems && SLock(x) in s.holder && s.sems[x].phase != Steady ==> SLock(x) in s'.holder
    ensures ObjectsOk(s, s', w)
  {
    forall m ensures SameMutex(s, s', m) { }
    forall x | x in s'.sems ensures SameSem(s, s', x) { }
  }

  lemma LocksStay(s: State, s': State, w: nat)
    requires w < |s.workers| && |s'.workers| == |s.workers| && Holders(s) && s'.holder == s.holder
    requires Smooth(s.workers[w], s'.workers[w])
    ensures SameLocks(s, s', w)
  {
  }

  lemma MeKept(s: State, s': State, w: nat)
    requires w < |s.workers| && Inv(s)
    requires |s'.workers| == |s.workers| && s' == s.(workers := s.workers[w := s'.workers[w]])
    requires Smooth(s.workers[w], s'.workers[w]) && s.workers[w].stack.Some?
    ensures s.workers[w].stack.value in s.home && ThreadOk(s', s.workers[w].stack.value)
  {
    hide HeldLock, Guards, WaitPlace, SlotsOk, CbOk, PhaseOk, AllMutexes, AllSems, Placed, Bounded;
    var me := s.workers[w].stack.value;
    assert WorkerOk(s, w);
    assert ThreadOk(s, me);
  }

  /** Places from which and to which worker `w` hands threads that do not run. */
  predicate Movable(p: Place, w: nat) {
    p.Deque? || p.Injector? || p == Hand(w) || p == LastCreated(w) || p == AfterArg(w)
  }

  function Moved(s: State, w: nat, k: Worker, t: Tid, p: Place, rest: seq<Tid>, q: Place): State
    requires w < |s.workers|
  {
    Shift(s, t, p, rest, q).(workers := s.workers[w := k])
  }

  /** The worker hands a thread that does not run from one place to another. */
  lemma MoveKeeps(s: State, w: nat, k: Worker, t: Tid, p: Place, rest: seq<Tid>, q: Place)
    requires Inv(s) && w < |s.workers| && Smooth(s.workers[w], k)
    requires Movable(p, w) && Movable(q, w) && p != q && (At(s, p) == [t] + rest || At(s, p) == rest + [t])
    requires Leaving(s.workers[w].pc) ==> p == Hand(w) && q == AfterArg(w)
    requires SlotsOk(Moved(s, w, k, t, p, rest, q), w)
    ensures Inv(Moved(s, w, k, t, p, rest, q))
  {
    hide Smooth, SlotsOk, WorkerOk, ThreadOk, HeldLock, Guards, PlaceOk, MutexOk, SemOk, Placed, Bounded, SameLocks,
         ObjectsOk, SameThreads, SameOthers;
    var s' := Moved(s, w, k, t, p, rest, q);
    ShiftKeeps(s, t, p, rest, q);
    PlacedByAt(Shift(s, t, p, rest, q), s');
    LocksStay(s, s', w);
    SameObjects(s, s', w);
    MovedThread(s, w, k, t, p, rest, q);
    MoveFrame(s, w, k, t, p, rest, q);
    OthersByPlaces(s, s', w, p, q);
    if s.workers[w].stack.Some? { StayedThread(s, w, k, t, p, rest, q); }
    Known(s, w);
    SmoothKeeps(s, s', w);
    Assemble(s, s', w, t);
  }

  lemma MoveFrame(s: State, w: nat, k: Worker, t: Tid, p: Place, rest: seq<Tid>, q: Place)
    requires w < |s.workers| && t in s.home && t !in s.on && Bounded(s) && !p.JoinSlot? && !q.JoinSlot?
    ensures SameThreads(s, Moved(s, w, k, t, p, rest, q), w, t)
    ensures Bounded(Moved(s, w, k, t, p, rest, q))
  {
  }

  /** `p` is no private place of a worker other than `w`. */
  predicate Reaches(p: Place, w: nat) {
    match p
    case Current(v) => v == w
    case Hand(v) => v == w
    case AfterArg(v) => v == w
    case LastCreated(v) => v == w
    case _ => true
  }

  lemma OthersByPlaces(s: State, s': State, w: nat, p: Place, q: Place)
    requires w < |s.workers| && |s'.workers| == |s.workers| && s'.workers == s.workers[w := s'.workers[w]]
    requires Reaches(p, w) && Reaches(q, w)
    requires forall x :: x != p && x != q ==> At(s', x) == At(s, x)
    ensures SameOthers(s, s', w)
  {
  }

  lemma MovedThread(s: State, w: nat, k: Worker, t: Tid, p: Place, rest: seq<Tid>, q: Place)
    requires Inv(s) && w < |s.workers| && t in s.home && s.home[t] == p
    requires Smooth(s.workers[w], k) && Movable(p, w) && Movable(q, w)
    requires Leaving(s.workers[w].pc) ==> p == Hand(w) && q == AfterArg(w)
    ensures t !in s.on && ThreadOk(Moved(s, w, k, t, p, rest, q), t)
  {
    hide HeldLock, Guards, WaitPlace, WorkerOk, AllMutexes, AllSems, Placed, Holders;
    var s' := Moved(s, w, k, t, p, rest, q);
    assert ThreadOk(s, t);
    assert RunOk(s', t) && WaitOk(s', t) by { hide JoinOk; }
    assert JoinOk(s', t) by {
      hide RunOk, WaitOk;
      if t in s.joined && s.joined[t] in s.on { LeavesFirst(s, w, t); }
    }
  }

  /** While a joined thread is still on its stack, its joiner is in its worker's hands. */
  lemma LeavesFirst(s: State, w: nat, t: Tid)
    requires Inv(s) && w < |s.workers| && t in s.home && t in s.joined && s.joined[t] in s.on
    requires s.home[t] == Hand(w) || s.home[t] == AfterArg(w)
    ensures Leaving(s.workers[w].pc) && s.on[s.joined[t]] == w
  {
    hide HeldLock, Guards, WaitPlace, SlotsOk, CbOk, PhaseOk, AllMutexes, AllSems, Placed, Holders;
    assert ThreadOk(s, t) && ThreadOk(s, s.joined[t]);
    assert WorkerOk(s, s.on[s.joined[t]]);
  }

  lemma StayedThread(s: State, w: nat, k: Worker, t: Tid, p: Place, rest: seq<Tid>, q: Place)
    requires Inv(s) && w < |s.workers| && Smooth(s.workers[w], k) && s.workers[w].stack.Some?
    requires t !in s.on
    ensures var me := s.workers[w].stack.value; me in s.home && me != t && ThreadOk(Moved(s, w, k, t, p, rest, q), me)
  {
    hide HeldLock, Guards, WaitPlace, SlotsOk, CbOk, PhaseOk, AllMutexes, AllSems, Placed, Holders;
    assert WorkerOk(s, w);
    assert ThreadOk(s, s.workers[w].stack.value);
  }

  // ---------- Taking and releasing a spin lock ----------

  /** On its user stack, or in a callback, the worker takes or drops a spin lock. */
  predicate Locking(k: Worker, k': Worker) {
    && k'.stack == k.stack && k'.cur == k.cur && k'.cb == NoCb && !k.pc.Switching? && Leaving(k'.pc) == Leaving(k.pc)
    && InLoop(k'.pc) == InLoop(k.pc) && (!InLoop(k.pc) ==> OnUser(k.pc) && OnUser(k'.pc))
    && !k'.pc.ExitArmed? && !k'.pc.InCb? && !k'.pc.MtxOut? && !k.pc.SemDec? && !k'.pc.SemDec? && !k.pc.PostInc?
      && !k'.pc.PostInc? && !k'.pc.UnlOut?
    && (OwnPc(k'.pc) ==> k.stack == Some(k'.pc.t))
  }

  lemma LockingWorker(s: State, s': State, w: nat)
    requires w < |s.workers| && |s'.workers| == |s.workers| && WorkerOk(s, w) && SlotsOk(s', w) && AllSems(s)
    requires Locking(s.workers[w], s'.workers[w])
    requires s' == s.(workers := s'.workers, holder := s'.holder)
    requires var l := HeldLock(s'.workers[w]); l.Some? ==>
               && l.value !in s.holder && l.value in s'.holder && s'.holder[l.value] == w
               && (l.value.SLock? ==> l.value.x in s.sems)
    requires var k' := s'.workers[w]; k'.pc.UnlIn? ==> k'.stack.Some? && MutexOf(s, k'.pc.m).owner == k'.stack
    ensures WorkerOk(s', w)
  {
    hide SlotsOk;
    assert CbOk(s', w) by { hide StackOk, PhaseOk, HeldLock; }
    assert StackOk(s', w) by { hide CbOk, PhaseOk, AllSems, HeldLock; }
    assert PhaseOk(s', w) by {
      hide StackOk, CbOk, HeldLock;
      var l := HeldLock(s'.workers[w]);
      if l.Some? && l.value.SLock? { assert SemOk(s, l.value.x); }
    }
  }

  lemma LockingMe(s: State, s': State, w: nat)
    requires w < |s.workers| && |s'.workers| == |s.workers| && Inv(s) && Locking(s.workers[w], s'.workers[w])
    requires s' == s.(workers := s.workers[w := s'.workers[w]], holder := s'.holder) && s.workers[w].stack.Some?
    ensures s.workers[w].stack.value in s.home && ThreadOk(s', s.workers[w].stack.value)
  {
    hide HeldLock, Guards, WaitPlace, CbOk, PhaseOk, AllMutexes, AllSems, Placed, Bounded;
    Known(s, w);
    assert ThreadOk(s, s.workers[w].stack.value);
    AtHome(s, w);
  }

  lemma AtHome(s: State, w: nat)
    requires Inv(s) && w < |s.workers| && OnUser(s.workers[w].pc)
    ensures s.workers[w].stack == Some(Me(s, w)) && Me(s, w) in s.home && s.home[Me(s, w)] == Current(w)
    ensures Me(s, w) in s.on && s.on[Me(s, w)] == w
  {
    hide WorkerOk;
    Known(s, w);
    assert PlaceOk(s, Current(w));
    assert At(s, Current(w)) == [s.workers[w].stack.value];
    assert s.workers[w].stack.value in At(s, Current(w));
    assert ThreadOk(s, s.workers[w].stack.value) by { hide WaitOk, JoinOk; }
  }

  lemma AcquireKeeps(s: State, w: nat, l: Lock, pc: Pc)
    requires Inv(s) && w < |s.workers| && Locking(s.workers[w], s.workers[w].(pc := pc))
    requires l !in s.holder && HeldLock(s.workers[w]) == None && HeldLock(s.workers[w].(pc := pc)) == Some(l)
    requires l.SLock? ==> l.x in s.sems
    requires pc.UnlIn? ==> s.workers[w].stack.Some? && MutexOf(s, pc.m).owner == s.workers[w].stack
    requires SlotsOk(SetPc(Acquire(s, w, l), w, pc), w)
    ensures Inv(SetPc(Acquire(s, w, l), w, pc))
  {
    hide Locking, SlotsOk, WorkerOk, ThreadOk, HeldLock, Guards, MutexOk, SemOk, Placed, ObjectsOk, SameOthers,
         SameThreads, Bounded, Finishing;
    var s' := SetPc(Acquire(s, w, l), w, pc);
    Known(s, w);
    LockingWorker(s, s', w);
    OthersByPlaces(s, s', w, Hand(w), Hand(w));
    PlacedByAt(s, s');
    assert SameLocks(s, s', w);
    SameObjects(s, s', w);
    StillFrame(s, s', w);
    if s.workers[w].stack.Some? { LockingMe(s, s', w); }
    Assemble(s, s', w, s.nextTid);
  }

  lemma ReleaseKeeps(s: State, w: nat, l: Lock, pc: Pc)
    requires Inv(s) && w < |s.workers| && Locking(s.workers[w], s.workers[w].(pc := pc))
    requires HeldLock(s.workers[w]) == Some(l) && HeldLock(s.workers[w].(pc := pc)) == None
    requires !pc.UnlIn? && SlotsOk(SetPc(Release(s, l), w, pc), w)
    ensures Inv(SetPc(Release(s, l), w, pc))
  {
    hide SlotsOk, WorkerOk, ThreadOk, HeldLock, Guards, MutexOk, SemOk, Placed, ObjectsOk, SameOthers, SameThreads,
         Bounded, Finishing;
    var s' := SetPc(Release(s, l), w, pc);
    Known(s, w);
    LockingWorker(s, s', w);
    OthersByPlaces(s, s', w, Hand(w), Hand(w));
    PlacedByAt(s, s');
    Held(s, w);
    assert SameLocks(s, s', w);
    SameObjects(s, s', w);
    StillFrame(s, s', w);
    if s.workers[w].stack.Some? { LockingMe(s, s', w); }
    Assemble(s, s', w, s.nextTid);
  }

  /** A worker owns the spin lock that its program counter says it holds. */
  lemma Held(s: State, w: nat)
    requires w < |s.workers| && WorkerOk(s, w)
    ensures var k, l := s.workers[w], HeldLock(s.workers[w]); l.Some? ==>
              && l.value in s.holder && s.holder[l.value] == w
              && (l.value.SLock? && !k.pc.SemDec? && !k.pc.PostInc? ==>
                    l.value.x in s.sems && s.sems[l.value.x].phase == Steady)
  {
    hide HeldLock, SlotsOk, StackOk;
  }

  // ---------- The scheduler loop ----------

  lemma TakeCbKeeps(s: State, w: nat)
    requires Inv(s) && w < |s.workers|
    ensures Inv(TakeCbStep(s, w))
  {
    hide Inv, WorkerOk;
    Known(s, w);
    var k, q := s.workers[w], At(s, AfterArg(w));
    if k.pc == Loop {
      if k.cb == NoCb {
        PcKeeps(s, w, k.(pc := Popping));
      } else if q == [] {
        PcKeeps(s, w, k.(pc := InCb(k.cb), cb := NoCb));
      } else {
        CbArgKeeps(s, w, q[0]);
      }
    }
  }

  lemma CbArgKeeps(s: State, w: nat, t: Tid)
    requires Inv(s) && w < |s.workers| && s.workers[w].pc == Loop && s.workers[w].cb != NoCb
    requires At(s, AfterArg(w)) == [t]
    ensures Inv(Moved(s, w, s.workers[w].(pc := InCb(s.workers[w].cb), cb := NoCb), t, AfterArg(w), [], Hand(w)))
  {
    hide Inv, WorkerOk;
    Known(s, w);
    MoveKeeps(s, w, s.workers[w].(pc := InCb(s.workers[w].cb), cb := NoCb), t, AfterArg(w), [], Hand(w));
  }

  lemma PopKeeps(s: State, w: nat)
    requires Inv(s) && w < |s.workers|
    ensures Inv(PopStep(s, w))
  {
    hide Inv, WorkerOk;
    Known(s, w);
    var k, d := s.workers[w], At(s, Deque(w));
    if k.pc == Popping {
      if d == [] {
        PcKeeps(s, w, k.(pc := Draining));
      } else {
        assert d == d[..|d| - 1] + [d[|d| - 1]];
        MoveKeeps(s, w, k.(pc := Got), d[|d| - 1], Deque(w), d[..|d| - 1], Hand(w));
      }
    }
  }

  lemma RunCbKeeps(s: State, w: nat, v: nat)
    requires Inv(s) && w < |s.workers|
    ensures Inv(RunCbStep(s, w, v))
  {
    hide Inv, WorkerOk, At;
    Known(s, w);
    var k, q := s.workers[w], At(s, Hand(w));
    assert |q| <= 1;
    hide SlotsOk;
    if k.pc.InCb? && !k.pc.c.Unlock? && q != [] && v < |s.workers| {
      PublishKeeps(s, w, q[0], if k.pc.c == WakeJoiner || v == w then Deque(w) else Injector(v));
    }
  }

  lemma PublishKeeps(s: State, w: nat, t: Tid, q: Place)
    requires Inv(s) && w < |s.workers| && s.workers[w].pc.InCb? && !s.workers[w].pc.c.Unlock? && At(s, Hand(w)) == [t]
    requires q.Deque? || q.Injector?
    ensures Inv(SetPc(Shift(s, t, Hand(w), [], q), w, Popping))
  {
    hide Inv, WorkerOk;
    Known(s, w);
    MoveKeeps(s, w, s.workers[w].(pc := Popping), t, Hand(w), [], q);
  }

  lemma DrainKeeps(s: State, w: nat)
    requires Inv(s) && w < |s.workers|
    ensures Inv(DrainStep(s, w))
  {
    hide Inv, WorkerOk;
    Known(s, w);
    var k, d := s.workers[w], At(s, Injector(w));
    if k.pc == Draining {
      if d == [] {
        PcKeeps(s, w, k.(pc := Stealing));
      } else {
        assert d == [d[0]] + d[1..];
        MoveKeeps(s, w, k.(pc := Got), d[0], Injector(w), d[1..], Hand(w));
      }
    }
  }

  lemma StealKeeps(s: State, w: nat, v: nat)
    requires Inv(s) && w < |s.workers|
    ensures Inv(StealStep(s, w, v)) && Inv(GiveUpStep(s, w))
  {
    hide Inv, WorkerOk;
    Known(s, w);
    var k, d := s.workers[w], At(s, Deque(v));
    if k.pc == Stealing {
      PcKeeps(s, w, k.(pc := Popping));
      if v != w && v < |s.workers| && d != [] {
        assert d == [d[0]] + d[1..];
        MoveKeeps(s, w, k.(pc := Got), d[0], Deque(v), d[1..], Hand(w));
      }
    }
  }

  // ---------- Flushing, creating, waking ----------

  /** From one point of a library call to another with the same claims on the worker's slots. */
  predicate Flushing(k: Worker, pc: Pc) {
    && Smooth(k, k.(pc := pc)) && !InLoop(pc) && !Leaving(k.pc) && k.cb == NoCb
    && (OnUser(pc) <==> OnUser(k.pc)) && HandFull(pc) == HandFull(k.pc) && HandMaybe(pc) == HandMaybe(k.pc)
  }

  lemma FlushSlots(s: State, s': State, w: nat, pc: Pc)
    requires w < |s.workers| && SlotsOk(s, w) && Flushing(s.workers[w], pc)
    requires s'.workers == s.workers[w := s.workers[w].(pc := pc)]
    requires At(s', LastCreated(w)) == [] && At(s', Hand(w)) == At(s, Hand(w))
    requires At(s', AfterArg(w)) == At(s, AfterArg(w)) && At(s', Current(w)) == At(s, Current(w))
    ensures SlotsOk(s', w)
  {
    hide Smooth, HandFull, HandMaybe, OnUser;
  }

  lemma FlushKeeps(s: State, w: nat, pc: Pc)
    requires Inv(s) && w < |s.workers| && Flushing(s.workers[w], pc)
    ensures Inv(SetPc(Flush(s, w), w, pc))
  {
    hide Inv, WorkerOk, Smooth, HandFull, HandMaybe, OnUser, At;
    Known(s, w);
    var k, q := s.workers[w], At(s, LastCreated(w));
    assert |q| <= 1;
    hide SlotsOk;
    if q != [] { FlushOne(s, w, pc, q[0]); } else { FlushNone(s, w, pc); }
  }

  lemma FlushNone(s: State, w: nat, pc: Pc)
    requires Inv(s) && w < |s.workers| && Flushing(s.workers[w], pc) && At(s, LastCreated(w)) == []
    ensures Inv(SetPc(s, w, pc))
  {
    hide Inv, WorkerOk, Smooth, HandFull, HandMaybe, OnUser, SlotsOk;
    Known(s, w);
    FlushSlots(s, SetPc(s, w, pc), w, pc);
    PcKeeps(s, w, s.workers[w].(pc := pc));
  }

  lemma FlushOne(s: State, w: nat, pc: Pc, t: Tid)
    requires Inv(s) && w < |s.workers| && Flushing(s.workers[w], pc) && At(s, LastCreated(w)) == [t]
    ensures Inv(SetPc(Shift(s, t, LastCreated(w), [], Deque(w)), w, pc))
  {
    hide Inv, WorkerOk, Smooth, HandFull, HandMaybe, OnUser, SlotsOk;
    Known(s, w);
    FlushSlots(s, SetPc(Shift(s, t, LastCreated(w), [], Deque(w)), w, pc), w, pc);
    MoveKeeps(s, w, s.workers[w].(pc := pc), t, LastCreated(w), [], Deque(w));
  }

  lemma FlushLastKeeps(s: State, w: nat, next: Pc)
    requires Inv(s) && w < |s.workers|
    ensures Inv(FlushLastStep(s, w, next))
  {
    hide Inv, WorkerOk, SlotsOk, Flushing, Flush;
    Known(s, w);
    if Flushes(s.workers[w].pc, next) {
      NoCallback(s, w);
      FlushesPure(s.workers[w], next);
      FlushKeeps(s, w, next);
    }
  }

  lemma FlushesPure(k: Worker, next: Pc)
    requires Flushes(k.pc, next) && k.cb == NoCb
    ensures Flushing(k, next)
  {
  }

  /** No callback is armed while library calls run, until the thread leaves its stack. */
  lemma NoCallback(s: State, w: nat)
    requires w < |s.workers| && SlotsOk(s, w)
    ensures s.workers[w].cb != NoCb ==> var pc := s.workers[w].pc; pc.Switching? || pc.Loop? || pc.ExitArmed?
  {
  }

  // ---------- Spin locks ----------

  lemma TakeSpinKeeps(s: State, w: nat, next: Pc)
    requires Inv(s) && w < |s.workers|
    ensures Inv(TakeSpinStep(s, w, next))
  {
    hide Inv, WorkerOk, SlotsOk, LockOf;
    Known(s, w);
    var k, me := s.workers[w], Me(s, w);
    var l := LockOf(next);
    if Enters(s, k.pc, me, next) && l.Some? && l.value !in s.holder {
      NoCallback(s, w);
      EntersPure(s, k, me, next);
      AtHome(s, w);
      TakeSpinSlots(s, w, l.value, next);
      AcquireKeeps(s, w, l.value, next);
    }
  }

  lemma EntersPure(s: State, k: Worker, me: Tid, next: Pc)
    requires Enters(s, k.pc, me, next) && k.cb == NoCb && (k.stack.Some? ==> me == k.stack.value)
    ensures HeldLock(k) == None && HeldLock(k.(pc := next)) == LockOf(next)
    ensures LockOf(next).Some? && LockOf(next).value.SLock? ==> LockOf(next).value.x in s.sems
    ensures OnUser(k.pc) && OnUser(next) && !HandFull(next) && !HandFull(k.pc) && !HandMaybe(k.pc)
    ensures next != CreateFlushed
    ensures k.stack.Some? ==> Locking(k, k.(pc := next))
    ensures next.UnlIn? ==> MutexOf(s, next.m).owner == Some(me)
  {
  }

  lemma TakeSpinSlots(s: State, w: nat, l: Lock, next: Pc)
    requires w < |s.workers| && SlotsOk(s, w) && s.workers[w].cb == NoCb
    requires var pc := s.workers[w].pc; OnUser(pc) && OnUser(next) && !HandFull(next) && !HandFull(pc) && !HandMaybe(pc)
    requires next != CreateFlushed
    ensures SlotsOk(SetPc(Acquire(s, w, l), w, next), w)
  {
  }

  lemma DropSpinKeeps(s: State, w: nat)
    requires Inv(s) && w < |s.workers|
    ensures Inv(DropSpinStep(s, w))
  {
    hide Inv, WorkerOk, SlotsOk, LockOf, Dropped;
    Known(s, w);
    var k, idle := s.workers[w], At(s, Hand(w)) == [];
    var l, next := LockOf(k.pc), Dropped(k.pc, idle);
    if l.Some? && next.Some? {
      DroppedPure(k, idle);
      DropSpinSlots(s, w, l.value);
      ReleaseKeeps(s, w, l.value, next.value);
    }
  }

  lemma DroppedPure(k: Worker, idle: bool)
    requires LockOf(k.pc).Some? && Dropped(k.pc, idle).Some?
    ensures !k.pc.Switching? && !k.pc.Loop? && !k.pc.ExitArmed?
    ensures HeldLock(k) == LockOf(k.pc)
    ensures var k' := k.(pc := Dropped(k.pc, idle).value); k.cb == NoCb ==> Locking(k, k') && HeldLock(k') == None
    ensures !Dropped(k.pc, idle).value.UnlIn?
  {
  }

  lemma DropSpinSlots(s: State, w: nat, l: Lock)
    requires w < |s.workers| && SlotsOk(s, w)
    requires var next := Dropped(s.workers[w].pc, At(s, Hand(w)) == []); next.Some?
    requires LockOf(s.workers[w].pc).Some?
    ensures SlotsOk(SetPc(Release(s, l), w, Dropped(s.workers[w].pc, At(s, Hand(w)) == []).value), w)
    ensures s.workers[w].cb == NoCb
  {
  }
}
