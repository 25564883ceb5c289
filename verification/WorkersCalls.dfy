/** Mutexes and semaphores of the M:N build keep the invariant.

    Three kinds of decisions under a spin lock share their proofs: the running thread changes an
    object and goes on (`TouchKeeps`), it pops a waiter (`WaiterKeeps`), or it queues itself
    (`QueueKeeps`). That a popped waiter has left its stack follows from who holds the lock
    (`WaiterSaved`).

    The accounts of a mutex or semaphore are predicates on its fields and its queue alone; lemmas
    on them say what each critical section does to the account. */
module WorkersCalls {
  import opened Basics
  import opened Workers
  import opened WorkersInv
  import opened WorkersSteps

  // ---------- Three more common kinds of steps ----------

  /** A decision under a spin lock: same stack, same lock. */
  predicate Deciding(k: Worker, k': Worker) {
    && k'.stack == k.stack && k'.cur == k.cur && k'.cb == k.cb && HeldLock(k') == HeldLock(k)
    && OnUser(k.pc) && OnUser(k'.pc) && !k.pc.ExitArmed? && !k'.pc.ExitArmed?
    && (OwnPc(k'.pc) ==> OwnPc(k.pc) && k'.pc.t == k.pc.t)
  }

  lemma DecideWorker(s: State, s': State, w: nat)
    requires w < |s.workers| && |s'.workers| == |s.workers| && WorkerOk(s, w) && SlotsOk(s', w) && PhaseOk(s', w)
    requires Deciding(s.workers[w], s'.workers[w]) && s'.on == s.on && s'.holder == s.holder
    requires Me(s, w) in s.home ==> Me(s, w) in s'.home && s'.home[Me(s, w)] == s.home[Me(s, w)]
    requires if s'.workers[w].pc.ExitFinished? then s'.finished == s.finished + {Me(s, w)}
             else s'.finished == s.finished && Leaving(s'.workers[w].pc) == Leaving(s.workers[w].pc)
    ensures WorkerOk(s', w)
  {
    hide SlotsOk, PhaseOk;
    assert CbOk(s', w) by { hide StackOk; }
    assert StackOk(s', w) by { hide CbOk, HeldLock; }
  }

  /** Both points of the code make the same claims on the worker's slots. */
  predicate Claims(k: Worker, k': Worker) {
    && (HandFull(k'.pc) <==> HandFull(k.pc)) && (HandMaybe(k.pc) ==> HandMaybe(k'.pc))
    && !k'.pc.CreateFlushed? && !Leaving(k.pc) && !Leaving(k'.pc)
  }

  lemma SlotsKept(s: State, s': State, w: nat)
    requires w < |s.workers| && |s'.workers| == |s.workers| && SlotsOk(s, w)
    requires Deciding(s.workers[w], s'.workers[w]) && Claims(s.workers[w], s'.workers[w])
    requires At(s', LastCreated(w)) == At(s, LastCreated(w)) && At(s', Hand(w)) == At(s, Hand(w))
    requires At(s', AfterArg(w)) == At(s, AfterArg(w)) && At(s', Current(w)) == At(s, Current(w))
    ensures SlotsOk(s', w)
  {
    hide HandFull, HandMaybe;
  }

  lemma HandSlots(s: State, s': State, w: nat)
    requires w < |s.workers| && |s'.workers| == |s.workers| && SlotsOk(s, w)
    requires s'.workers[w] == s.workers[w].(pc := s'.workers[w].pc)
    requires OnUser(s.workers[w].pc) && !HandFull(s.workers[w].pc) && !HandMaybe(s.workers[w].pc)
    requires OnUser(s'.workers[w].pc) && HandMaybe(s'.workers[w].pc)
    requires s.workers[w].cb == NoCb && |At(s', Hand(w))| <= |At(s, Hand(w))| + 1
    requires At(s', LastCreated(w)) == At(s, LastCreated(w))
    requires At(s', AfterArg(w)) == At(s, AfterArg(w)) && At(s', Current(w)) == At(s, Current(w))
    ensures SlotsOk(s', w)
  {
    hide OnUser;
  }

  lemma PopMe(s: State, w: nat, t: Tid, p: Place, rest: seq<Tid>)
    requires Inv(s) && w < |s.workers| && OnUser(s.workers[w].pc) && At(s, p) == [t] + rest && !p.Current?
    ensures t != Me(s, w) && Me(s, w) in s.home
  {
    hide WorkerOk, ThreadOk, Bounded, Holders, AllSems, AllMutexes;
    AtHome(s, w);
    assert t in At(s, p);
    assert PlaceOk(s, p);
  }

  lemma NoPhase(s: State, w: nat)
    requires w < |s.workers| && !s.workers[w].pc.SemDec? && !s.workers[w].pc.PostInc?
    requires HeldLock(s.workers[w]).Some? ==> !HeldLock(s.workers[w]).value.SLock?
    requires var k := s.workers[w]; k.pc.UnlIn? || k.pc.MtxOut? ==> k.stack.Some? && MutexOf(s, k.pc.m).owner == k.stack
    requires var k := s.workers[w]; k.pc.UnlOut? ==> k.stack.Some? && MutexOf(s, k.pc.m).owner != k.stack
    ensures PhaseOk(s, w)
  {
  }

  lemma Facts(s: State, w: nat)
    requires Inv(s) && w < |s.workers|
    ensures PhaseOk(s, w) && AllMutexes(s) && AllSems(s)
    ensures OnUser(s.workers[w].pc) && !s.workers[w].pc.ExitArmed? ==> s.workers[w].cb == NoCb
  {
    Known(s, w);
  }

  /** The running thread changes objects, and no thread moves. */
  lemma TouchKeeps(s: State, s': State, w: nat)
    requires Inv(s) && w < |s.workers| && |s'.workers| == |s.workers| && s'.workers == s.workers[w := s'.workers[w]]
    requires s' == s.(workers := s'.workers, mutexes := s'.mutexes, sems := s'.sems, pending := s'.pending)
    requires Deciding(s.workers[w], s'.workers[w]) && Claims(s.workers[w], s'.workers[w])
    requires forall t :: t in s.masks ==> Pending(s', t) * s.masks[t] <= Pending(s, t) * s.masks[t]
    requires ObjectsOk(s, s', w) && PhaseOk(s', w)
    ensures Inv(s')
  {
    hide PhaseOk, StackOk, OnUser, HeldLock, WorkerOk, ThreadOk, SlotsOk, PlaceOk, Placed, Bounded, ObjectsOk,
         SameLocks, SameOthers, SameThreads, Finishing;
    OthersByPlaces(s, s', w, Hand(w), Hand(w));
    PlacedByAt(s, s');
    SameLock(s, s', w);
    PendingFrame(s, s', w);
    AtHome(s, w);
    RunnerKept(s, s', w);
    Known(s, w);
    SlotsKept(s, s', w);
    DecideWorker(s, s', w);
    Assemble(s, s', w, s.nextTid);
  }

  lemma SameLock(s: State, s': State, w: nat)
    requires w < |s.workers| && |s'.workers| == |s.workers| && Holders(s) && s'.holder == s.holder
    requires HeldLock(s'.workers[w]) == HeldLock(s.workers[w])
    ensures SameLocks(s, s', w)
  {
    hide HeldLock;
  }

  lemma PendingFrame(s: State, s': State, w: nat)
    requires w < |s.workers| && Bounded(s) && s'.home == s.home && s'.on == s.on && s'.finished == s.finished
    requires s'.masks == s.masks && s'.joined == s.joined && s'.nextTid == s.nextTid && s'.at == s.at
    requires forall t :: t in s.masks ==> Pending(s', t) * s.masks[t] <= Pending(s, t) * s.masks[t]
    ensures SameThreads(s, s', w, s.nextTid) && Bounded(s') && Finishing(s, s')
  {
  }

  /** The running thread stays as it should be while it stays where it is. */
  lemma RunnerKept(s: State, s': State, w: nat)
    requires Inv(s) && w < |s.workers| && |s'.workers| == |s.workers| && OnUser(s.workers[w].pc)
    requires s'.workers[w].stack == s.workers[w].stack && s.workers[w].stack.Some?
    requires var me := s.workers[w].stack.value; me in s.home && me in s'.home && s'.home[me] == s.home[me]
    requires s'.on == s.on && s'.joined == s.joined && s'.masks.Keys <= s.masks.Keys
    requires s'.finished == s.finished || s'.finished == s.finished + {s.workers[w].stack.value}
    ensures ThreadOk(s', s.workers[w].stack.value)
  {
    hide OnUser, HeldLock, Guards, WorkerOk, Placed, Holders, AllMutexes, AllSems;
    var me := s.workers[w].stack.value;
    AtHome(s, w);
    assert ThreadOk(s, me);
  }

  /** A join slot is emptied exactly when its thread finishes. */
  ghost predicate FinishesOnly(s: State, s': State, w: nat, p: Place)
    requires w < |s.workers|
  {
    if p.JoinSlot? then s.workers[w].stack == Some(p.t) && s'.finished == s.finished + {p.t}
    else s'.finished == s.finished
  }

  /** The running thread pops the first waiter `t` of `p`, under the spin lock of `p`. */
  lemma WaiterKeeps(s: State, s': State, w: nat, t: Tid, p: Place, rest: seq<Tid>)
    requires Inv(s) && w < |s.workers| && |s'.workers| == |s.workers| && s'.workers == s.workers[w := s'.workers[w]]
    requires s'.at == Shift(s, t, p, rest, Hand(w)).at && s'.home == s.home[t := Hand(w)]
    requires s'.on == s.on && s'.holder == s.holder && s'.joined == s.joined && s'.nextTid == s.nextTid
    requires s'.pending == s.pending
    requires Deciding(s.workers[w], s'.workers[w]) && !HandFull(s.workers[w].pc) && HandMaybe(s'.workers[w].pc)
    requires !HandMaybe(s.workers[w].pc) && !Leaving(s.workers[w].pc) && (Leaving(s'.workers[w].pc) <==> p.JoinSlot?)
    requires (s'.workers[w].pc.ExitFinished? <==> p.JoinSlot?)
    requires HeldLock(s.workers[w]).Some? && Guards(HeldLock(s.workers[w]).value, p) && At(s, p) == [t] + rest
    requires s'.masks == if p.SigSlot? then s.masks - {t} else s.masks
    requires FinishesOnly(s, s', w, p) && ObjectsOk(s, s', w) && PhaseOk(s', w)
    ensures Inv(s')
  {
    hide PhaseOk, StackOk, OnUser, HeldLock, Guards, WorkerOk, ThreadOk, PlaceOk, Placed, Bounded, ObjectsOk, SameLocks,
         SameOthers, SameThreads, Finishing;
    WaiterHome(s, w, t, p);
    AtHome(s, w);
    ShiftKeeps(s, t, p, rest, Hand(w));
    WaiterSaved(s, w, t, p);
    PlacedByAt(Shift(s, t, p, rest, Hand(w)), s');
    OthersByPlaces(s, s', w, p, Hand(w));
    SameLock(s, s', w);
    WaiterThreads(s, s', w, t, p);
    WaiterBounds(s, s', w, t, p, rest);
    RunnerKept(s, s', w);
    Woken(s, s', w, t, p);
    Known(s, w);
    PopMe(s, w, t, p, rest);
    Facts(s, w);
    HandSlots(s, s', w);
    DecideWorker(s, s', w);
    Assemble(s, s', w, t);
  }

  /** A waiter whose lock another thread holds has its context saved. */
  lemma WaiterSaved(s: State, w: nat, t: Tid, p: Place)
    requires Inv(s) && w < |s.workers| && OnUser(s.workers[w].pc) && t in s.home && s.home[t] == p
    requires HeldLock(s.workers[w]).Some? && Guards(HeldLock(s.workers[w]).value, p)
    ensures t !in s.on
  {
    hide OnUser, HeldLock, SlotsOk, StackOk, PhaseOk, Placed, Bounded, WaitOk, JoinOk, AllMutexes, AllSems;
    AtHome(s, w);
    assert ThreadOk(s, t);
    Known(s, w);
    if t in s.on { Known(s, s.on[t]); assert false; }
  }

  lemma WaiterHome(s: State, w: nat, t: Tid, p: Place)
    requires w < |s.workers| && HeldLock(s.workers[w]).Some? && Guards(HeldLock(s.workers[w]).value, p)
    ensures Waiting(p) && Reaches(p, w)
  {
    hide HeldLock;
  }

  lemma WaiterThreads(s: State, s': State, w: nat, t: Tid, p: Place)
    requires w < |s.workers| && t in s.home && t !in s.on && Waiting(p)
    requires s'.home == s.home[t := Hand(w)] && s'.on == s.on && s'.joined == s.joined && s'.pending == s.pending
    requires s'.masks == if p.SigSlot? then s.masks - {t} else s.masks
    requires FinishesOnly(s, s', w, p)
    ensures SameThreads(s, s', w, t)
  {
  }

  lemma WaiterBounds(s: State, s': State, w: nat, t: Tid, p: Place, rest: seq<Tid>)
    requires w < |s.workers| && t in s.home && Bounded(s) && Waiting(p) && At(s, p) == [t] + rest
    requires s'.at == Shift(s, t, p, rest, Hand(w)).at && s'.home == s.home[t := Hand(w)]
    requires s'.on == s.on && s'.joined == s.joined && s'.nextTid == s.nextTid
    requires s'.masks == if p.SigSlot? then s.masks - {t} else s.masks
    requires FinishesOnly(s, s', w, p) && Me(s, w) in s.home && Me(s, w) in s.on
    ensures Bounded(s') && Finishing(s, s')
  {
    assert Finishing(s, s');
    assert Bounded(s') by { hide Finishing; }
  }

  lemma Woken(s: State, s': State, w: nat, t: Tid, p: Place)
    requires Inv(s) && w < |s.workers| && |s'.workers| == |s.workers| && t in s.home && s.home[t] == p && t !in s.on
    requires Waiting(p)
    requires t in s'.home && s'.home[t] == Hand(w)
    requires s'.on == s.on && s'.joined == s.joined && s'.pending == s.pending
    requires s'.masks == if p.SigSlot? then s.masks - {t} else s.masks
    requires FinishesOnly(s, s', w, p) && Me(s, w) in s.on && s.on[Me(s, w)] == w
    ensures ThreadOk(s', t)
  {
    hide HeldLock, Guards, AllWorkers, Placed, Holders, AllMutexes, AllSems;
    assert ThreadOk(s, t);
  }

  // The running thread queues itself, under the spin lock of the queue.

  predicate Queueing(k: Worker, k': Worker, q: Place) {
    && k'.stack == k.stack && k'.cur == k.cur && k'.cb == k.cb && HeldLock(k') == HeldLock(k)
    && OnUser(k.pc) && !k.pc.ExitArmed? && !HandFull(k.pc) && !HandMaybe(k.pc) && !Leaving(k.pc)
    && WaitPlace(k'.pc) == Some(q) && !k'.pc.SigFlushed?
    && (k'.pc.SigSet? ==> k.pc == SigIn(k'.pc.t))
    && HeldLock(k).Some? && Guards(HeldLock(k).value, q)
  }

  /** Only a thread that waits for a signal sets its mask, and none of its signals is pending. */
  predicate MasksSet(s: State, s': State, q: Place, me: Tid) {
    if q.SigSlot?
    then q.t == me && me in s'.masks && Pending(s, me) * s'.masks[me] == {} && s'.masks == s.masks[me := s'.masks[me]]
    else s'.masks == s.masks
  }

  lemma QueueKeeps(s: State, s': State, w: nat, q: Place)
    requires Inv(s) && w < |s.workers| && |s'.workers| == |s.workers| && s'.workers == s.workers[w := s'.workers[w]]
    requires Queueing(s.workers[w], s'.workers[w], q)
    requires s'.at == Shift(s, Me(s, w), Current(w), [], q).at && s'.home == s.home[Me(s, w) := q]
    requires s'.on == s.on && s'.holder == s.holder && s'.nextTid == s.nextTid && s'.pending == s.pending
    requires s'.finished == s.finished
    requires s'.joined == if q.JoinSlot? then s.joined[Me(s, w) := q.t] else s.joined
    requires q.JoinSlot? ==> q.t !in s.finished && At(s, q) == []
    requires MasksSet(s, s', q, Me(s, w))
    requires ObjectsOk(s, s', w) && PhaseOk(s', w)
    ensures Inv(s')
  {
    hide PhaseOk, StackOk, SlotsOk, HeldLock, Guards, WorkerOk, ThreadOk, PlaceOk, Placed, Bounded, ObjectsOk,
         SameLocks, SameOthers, SameThreads, Finishing, WaitPlace, OnUser;
    var me := Me(s, w);
    Known(s, w);
    AtHome(s, w);
    QueueSlots(s, s', w, q);
    assert At(s, Current(w)) == [me] + [];
    ShiftKeeps(s, me, Current(w), [], q);
    PlacedByAt(Shift(s, me, Current(w), [], q), s');
    OthersByPlaces(s, s', w, Current(w), q);
    SameLock(s, s', w);
    QueueThreads(s, s', w, q);
    QueueBounds(s, s', w, q);
    Queued(s, s', w, q);
    QueueWorker(s, s', w, q);
    Assemble(s, s', w, me);
  }

  lemma QueueSlots(s: State, s': State, w: nat, q: Place)
    requires w < |s.workers| && |s'.workers| == |s.workers| && SlotsOk(s, w) && Queueing(s.workers[w], s'.workers[w], q)
    requires s'.at == Shift(s, Me(s, w), Current(w), [], q).at
    ensures Waiting(q) && Reaches(q, w) && SlotsOk(s', w) && At(s, Current(w)) == [Me(s, w)]
  {
  }

  lemma QueueThreads(s: State, s': State, w: nat, q: Place)
    requires w < |s.workers| && s.workers[w].stack.Some? && Me(s, w) in s.on && s.on[Me(s, w)] == w
    requires Me(s, w) in s.home
    requires s'.home == s.home[Me(s, w) := q] && s'.on == s.on && s'.pending == s.pending && s'.finished == s.finished
    requires s'.joined == if q.JoinSlot? then s.joined[Me(s, w) := q.t] else s.joined
    requires MasksSet(s, s', q, Me(s, w))
    ensures SameThreads(s, s', w, Me(s, w))
  {
  }

  lemma QueueBounds(s: State, s': State, w: nat, q: Place)
    requires w < |s.workers| && Bounded(s) && Me(s, w) in s.home
    requires s'.at == Shift(s, Me(s, w), Current(w), [], q).at && s'.home == s.home[Me(s, w) := q]
    requires s'.on == s.on && s'.finished == s.finished && s'.nextTid == s.nextTid
    requires s'.joined == if q.JoinSlot? then s.joined[Me(s, w) := q.t] else s.joined
    requires q.JoinSlot? ==> At(s, q) == []
    requires MasksSet(s, s', q, Me(s, w))
    ensures Bounded(s') && Finishing(s, s')
  {
  }

  lemma Queued(s: State, s': State, w: nat, q: Place)
    requires Inv(s) && w < |s.workers| && |s'.workers| == |s.workers| && Queueing(s.workers[w], s'.workers[w], q)
    requires Waiting(q)
    requires Me(s, w) in s.home && Me(s, w) in s.on && s.on[Me(s, w)] == w && s.workers[w].stack.Some?
    requires s.home[Me(s, w)] == Current(w)
    requires Me(s, w) in s'.home && s'.home[Me(s, w)] == q
    requires s'.on == s.on && s'.pending == s.pending && s'.finished == s.finished
    requires s'.joined == if q.JoinSlot? then s.joined[Me(s, w) := q.t] else s.joined
    requires q.JoinSlot? ==> q.t !in s.finished
    requires MasksSet(s, s', q, Me(s, w))
    ensures ThreadOk(s', Me(s, w))
  {
    hide HeldLock, WaitPlace, OnUser, HandFull, HandMaybe, AllWorkers, Placed, Holders, AllMutexes, AllSems;
    assert ThreadOk(s, Me(s, w));
  }

  lemma QueueWorker(s: State, s': State, w: nat, q: Place)
    requires w < |s.workers| && |s'.workers| == |s.workers| && WorkerOk(s, w) && SlotsOk(s', w) && PhaseOk(s', w)
    requires Queueing(s.workers[w], s'.workers[w], q) && s'.on == s.on && s'.holder == s.holder
    requires s'.finished == s.finished
    requires Me(s, w) in s'.home && s'.home[Me(s, w)] == q
    ensures WorkerOk(s', w)
  {
    hide SlotsOk, PhaseOk;
    assert CbOk(s', w) by { hide StackOk; }
    assert StackOk(s', w) by { hide CbOk; }
  }

  // ---------- Mutexes ----------

  ghost predicate SameMutexes(s: State, s': State, m: nat) {
    forall n {:trigger SameMutex(s, s', n)} :: n != m ==> SameMutex(s, s', n)
  }

  lemma MutexObjects(s: State, s': State, w: nat, m: nat)
    requires SameMutexes(s, s', m)
    requires MLock(m) in s.holder && s.holder[MLock(m)] == w
    requires s'.sems == s.sems && s'.holder == s.holder && forall x :: At(s', SemQueue(x)) == At(s, SemQueue(x))
    requires MutexOk(s', m)
    ensures ObjectsOk(s, s', w)
  {
    hide MutexOk, SemOk, MutexOf;
    forall x | x in s'.sems ensures SameSem(s, s', x) { }
    forall n | MLock(n) in s.holder && s.holder[MLock(n)] != w ensures MutexOf(s', n) == MutexOf(s, n) {
      assert SameMutex(s, s', n);
    }
  }

  /** The worker is inside a critical section of mutex `m`. */
  lemma InMutex(s: State, w: nat, m: nat)
    requires Inv(s) && w < |s.workers| && HeldLock(s.workers[w]) == Some(MLock(m))
    ensures MLock(m) in s.holder && s.holder[MLock(m)] == w
    ensures s.workers[w].pc.UnlIn? ==> s.workers[w].pc.m == m && MutexOf(s, m).owner == Some(Me(s, w))
  {
    hide WorkerOk, AllMutexes, AllThreads, Bounded, Placed;
    Known(s, w);
    Held(s, w);
    Facts(s, w);
  }

  lemma LockTaken(s: State, w: nat, m: nat)
    requires Inv(s) && w < |s.workers| && s.workers[w].pc == MtxIn(m) && !MutexOf(s, m).locked
    ensures Inv(LockDecideStep(s, w))
  {
    hide Inv, ObjectsOk, PhaseOk, AllSems;
    var s' := LockDecideStep(s, w);
    Facts(s, w);
    AtHome(s, w);
    NoPhase(s', w);
    assert MutexOk(s, m);
    assert SameMutexes(s, s', m);
    InMutex(s, w, m);
    MutexObjects(s, s', w, m);
    hide MutexOk, AllMutexes, MutexOf;
    TouchKeeps(s, s', w);
  }

  lemma UnlockedNow(s: State, w: nat, m: nat)
    requires Inv(s) && w < |s.workers| && s.workers[w].pc == UnlIn(m) && At(s, MutexQueue(m)) == []
    ensures Inv(UnlockPopStep(s, w))
  {
    hide Inv, ObjectsOk, PhaseOk, AllSems;
    var s' := UnlockPopStep(s, w);
    Facts(s, w);
    AtHome(s, w);
    NoPhase(s', w);
    assert MutexOk(s, m);
    assert SameMutexes(s, s', m);
    InMutex(s, w, m);
    MutexObjects(s, s', w, m);
    hide MutexOk, AllMutexes, MutexOf;
    TouchKeeps(s, s', w);
  }

  /** Ownership goes to the first thread in the queue; the mutex stays locked. */
  lemma HandedOver(s: State, w: nat, m: nat, t: Tid, rest: seq<Tid>)
    requires Inv(s) && w < |s.workers| && s.workers[w].pc == UnlIn(m) && At(s, MutexQueue(m)) == [t] + rest
    ensures Inv(UnlockPopStep(s, w))
  {
    hide Inv, ObjectsOk, PhaseOk, AllSems, AllMutexes, MutexOf;
    var s' := UnlockPopStep(s, w);
    assert At(s, MutexQueue(m))[1..] == rest;
    Facts(s, w);
    HandedObjects(s, w, m, t, rest);
    HandedAway(s, w, m, t, rest);
    NoPhase(s', w);
    WaiterKeeps(s, s', w, t, MutexQueue(m), rest);
  }

  lemma HandedAway(s: State, w: nat, m: nat, t: Tid, rest: seq<Tid>)
    requires Inv(s) && w < |s.workers| && s.workers[w].pc == UnlIn(m) && At(s, MutexQueue(m)) == [t] + rest
    ensures s.workers[w].stack.Some? && MutexOf(UnlockPopStep(s, w), m).owner == Some(t) != s.workers[w].stack
  {
    hide Inv;
    AtHome(s, w);
    PopMe(s, w, t, MutexQueue(m), rest);
  }

  lemma HandedObjects(s: State, w: nat, m: nat, t: Tid, rest: seq<Tid>)
    requires Inv(s) && w < |s.workers| && s.workers[w].pc == UnlIn(m) && At(s, MutexQueue(m)) == [t] + rest
    ensures ObjectsOk(s, UnlockPopStep(s, w), w)
  {
    hide Inv, ObjectsOk, HandOff;
    var x, s' := MutexOf(s, m), UnlockPopStep(s, w);
    assert At(s, MutexQueue(m))[1..] == rest;
    InMutex(s, w, m);
    Facts(s, w);
    assert MutexOk(s, m);
    GrantOk(x, t, rest);
    assert MutexOk(s', m) && SameMutexes(s, s', m);
    MutexObjects(s, s', w, m);
  }

  lemma GrantOk(x: Mutex, t: Tid, rest: seq<Tid>)
    requires HandOff(x, [t] + rest)
    ensures HandOff(x.(owner := Some(t), granted := x.granted + [t]), rest)
  {
    assert x.granted + ([t] + rest) == x.granted + [t] + rest;
  }

  lemma UnlockPopKeeps(s: State, w: nat)
    requires Inv(s) && w < |s.workers|
    ensures Inv(UnlockPopStep(s, w))
  {
    hide Inv, MutexOf;
    if s.workers[w].pc.UnlIn? {
      var m := s.workers[w].pc.m;
      var q := At(s, MutexQueue(m));
      if q == [] { UnlockedNow(s, w, m); } else { assert q == [q[0]] + q[1..]; HandedOver(s, w, m, q[0], q[1..]); }
    }
  }

  lemma LockDecideKeeps(s: State, w: nat)
    requires Inv(s) && w < |s.workers|
    ensures Inv(LockDecideStep(s, w))
  {
    hide Inv, MutexOf;
    if s.workers[w].pc.MtxIn? {
      var m := s.workers[w].pc.m;
      if MutexOf(s, m).locked { LockQueued(s, w, m); } else { LockTaken(s, w, m); }
    }
  }

  lemma LockQueued(s: State, w: nat, m: nat)
    requires Inv(s) && w < |s.workers| && s.workers[w].pc == MtxIn(m) && MutexOf(s, m).locked
    ensures Inv(LockDecideStep(s, w))
  {
    hide Inv, ObjectsOk, PhaseOk, MutexOf, AllMutexes, AllSems;
    var s' := LockDecideStep(s, w);
    QueuedObjects(s, w, m);
    NoPhase(s', w);
    QueueKeeps(s, s', w, MutexQueue(m));
  }

  lemma QueuedObjects(s: State, w: nat, m: nat)
    requires Inv(s) && w < |s.workers| && s.workers[w].pc == MtxIn(m) && MutexOf(s, m).locked
    ensures ObjectsOk(s, LockDecideStep(s, w), w)
  {
    hide Inv, ObjectsOk;
    var x, q, me, s' := MutexOf(s, m), At(s, MutexQueue(m)), Me(s, w), LockDecideStep(s, w);
    Facts(s, w);
    InMutex(s, w, m);
    assert MutexOk(s, m);
    assert x.granted + q + [me] == x.granted + (q + [me]);
    assert MutexOk(s', m) && SameMutexes(s, s', m);
    MutexObjects(s, s', w, m);
  }

  // ---------- Semaphores ----------

  lemma SemObjects(s: State, s': State, w: nat, x: nat)
    requires x in s.sems && s'.sems.Keys == s.sems.Keys && s'.holder == s.holder && s'.mutexes == s.mutexes
    requires forall y :: y in s.sems && y != x ==> s'.sems[y] == s.sems[y] && At(s', SemQueue(y)) == At(s, SemQueue(y))
    requires forall m :: At(s', MutexQueue(m)) == At(s, MutexQueue(m))
    requires SLock(x) in s.holder && s.holder[SLock(x)] == w
    requires Accounts(s'.sems[x], At(s', SemQueue(x)))
    ensures ObjectsOk(s, s', w)
  {
    hide Accounts;
    forall m ensures SameMutex(s, s', m) { }
    forall y | y in s'.sems ensures SameSem(s, s', y) || SemOk(s', y) { if y != x { assert SameSem(s, s', y); } }
  }

  /** The worker is inside a critical section of semaphore `x`. */
  lemma InSem(s: State, w: nat, x: nat)
    requires Inv(s) && w < |s.workers| && HeldLock(s.workers[w]) == Some(SLock(x))
    ensures x in s.sems && SLock(x) in s.holder && s.holder[SLock(x)] == w && Accounts(s.sems[x], At(s, SemQueue(x)))
    ensures s.workers[w].pc.SemDec? ==> s.workers[w].pc.x == x && s.sems[x].phase == Decremented(Me(s, w))
    ensures s.workers[w].pc.PostInc? ==> s.workers[w].pc.x == x && s.sems[x].phase == Incremented
    ensures !s.workers[w].pc.SemDec? && !s.workers[w].pc.PostInc? ==> s.sems[x].phase == Steady
  {
    hide Accounts, SlotsOk, StackOk, WorkerOk, AllMutexes, AllThreads, Bounded, Placed;
    Known(s, w);
    Held(s, w);
    Facts(s, w);
    assert SemOk(s, x);
  }

  lemma SemDecrementKeeps(s: State, w: nat)
    requires Inv(s) && w < |s.workers|
    ensures Inv(SemDecrementStep(s, w))
  {
    hide Inv, ObjectsOk, PhaseOk;
    var k := s.workers[w];
    if k.pc.SemIn? {
      var x := k.pc.x;
      InSem(s, w, x);
      AtHome(s, w);
      var z := CountedDown(s.sems[x], Me(s, w));
      CountDown(s.sems[x], Me(s, w), At(s, SemQueue(x)));
      if z.count >= 0 { SemTouched(s, w, x, z, SemOut(x)); } else { SemTouched(s, w, x, z, SemDec(x)); }
    }
  }

  /** One wait call counts down: the thread passes at once, or it must queue. */
  lemma CountDown(y: Sem, t: Tid, q: seq<Tid>)
    requires Accounts(y, q) && y.phase == Steady
    ensures Accounts(CountedDown(y, t), q)
    ensures CountedDown(y, t).phase == if CountedDown(y, t).count >= 0 then Steady else Decremented(t)
  {
    if y.count >= 1 { assert q == []; }
    assert y.granted + q + [t] == y.arrived + [t];
  }

  /** The phase of semaphore `x` says where its lock holder stands. */
  predicate FitsPhase(phase: Phase, x: nat, stack: Option<Tid>, pc: Pc) {
    match phase
    case Steady => !pc.SemDec? && !pc.PostInc? && !pc.UnlIn? && !pc.MtxOut?
    case Decremented(t) => pc == SemDec(x) && stack == Some(t)
    case Incremented => pc == PostInc(x)
  }

  /** The running thread changes semaphore `x`, whose queue stays as it is. */
  lemma SemTouched(s: State, w: nat, x: nat, z: Sem, pc: Pc)
    requires Inv(s) && w < |s.workers| && x in s.sems && HeldLock(s.workers[w]) == Some(SLock(x))
    requires Accounts(z, At(s, SemQueue(x)))
    requires var k := s.workers[w]; Deciding(k, k.(pc := pc)) && Claims(k, k.(pc := pc))
    requires FitsPhase(z.phase, x, s.workers[w].stack, pc)
    ensures Inv(SetPc(s.(sems := s.sems[x := z]), w, pc))
  {
    hide Inv, ObjectsOk, PhaseOk, Accounts, Deciding, Claims;
    var s' := SetPc(s.(sems := s.sems[x := z]), w, pc);
    InSem(s, w, x);
    SemObjects(s, s', w, x);
    SameHeld(s.workers[w], pc);
    SemPhase(s', w, x);
    TouchKeeps(s, s', w);
  }

  lemma SameHeld(k: Worker, pc: Pc)
    requires Deciding(k, k.(pc := pc))
    ensures HeldLock(k.(pc := pc)) == HeldLock(k)
  {
  }

  lemma SemPhase(s': State, w: nat, x: nat)
    requires w < |s'.workers| && x in s'.sems && HeldLock(s'.workers[w]) == Some(SLock(x))
    requires FitsPhase(s'.sems[x].phase, x, s'.workers[w].stack, s'.workers[w].pc)
    ensures PhaseOk(s', w)
  {
  }

  lemma PostIncrementKeeps(s: State, w: nat)
    requires Inv(s) && w < |s.workers|
    ensures Inv(PostIncrementStep(s, w))
  {
    hide Inv, ObjectsOk, PhaseOk;
    var k := s.workers[w];
    if k.pc.PostIn? {
      var x := k.pc.x;
      InSem(s, w, x);
      var y := s.sems[x];
      SemTouched(s, w, x, y.(count := y.count + 1, posts := y.posts + 1, phase := Incremented), PostInc(x));
    }
  }

  lemma SemAppendKeeps(s: State, w: nat)
    requires Inv(s) && w < |s.workers|
    ensures Inv(SemAppendStep(s, w))
  {
    hide Inv, ObjectsOk, PhaseOk;
    if s.workers[w].pc.SemDec? {
      var x, s' := s.workers[w].pc.x, SemAppendStep(s, w);
      AppendObjects(s, w, x);
      QueueKeeps(s, s', w, SemQueue(x));
    }
  }

  lemma AppendObjects(s: State, w: nat, x: nat)
    requires Inv(s) && w < |s.workers| && s.workers[w].pc == SemDec(x)
    ensures var s' := SemAppendStep(s, w); x in s.sems && ObjectsOk(s, s', w) && PhaseOk(s', w)
  {
    hide Inv, ObjectsOk, PhaseOk, Accounts;
    var s' := SemAppendStep(s, w);
    InSem(s, w, x);
    AppendOk(s.sems[x], Me(s, w), At(s, SemQueue(x)));
    SemPhase(s', w, x);
    hide HeldLock;
    SemObjects(s, s', w, x);
  }

  lemma AppendOk(y: Sem, t: Tid, q: seq<Tid>)
    requires Accounts(y, q) && y.phase == Decremented(t)
    ensures Accounts(y.(phase := Steady), q + [t])
  {
    assert y.granted + q + [t] == y.granted + (q + [t]);
  }

  lemma PostPopKeeps(s: State, w: nat)
    requires Inv(s) && w < |s.workers|
    ensures Inv(PostPopStep(s, w))
  {
    hide Inv, Accounts;
    var k := s.workers[w];
    if k.pc.PostInc? {
      var x := k.pc.x;
      InSem(s, w, x);
      var y, q := s.sems[x], At(s, SemQueue(x));
      PopOk(y, q);
      if y.count <= 0 {
        assert q == [q[0]] + q[1..];
        PostPopped(s, w, x, q[0], q[1..]);
      } else {
        SemTouched(s, w, x, y.(phase := Steady), PostOut(x));
      }
    }
  }

  /** A post wakes the first waiter exactly when the count says that one is queued. */
  lemma PopOk(y: Sem, q: seq<Tid>)
    requires Accounts(y, q) && y.phase == Incremented
    ensures if y.count <= 0 then q != [] && Accounts(y.(phase := Steady, granted := y.granted + [q[0]]), q[1..])
            else Accounts(y.(phase := Steady), q)
  {
    if y.count <= 0 { assert y.granted + q == y.granted + [q[0]] + q[1..]; }
  }

  lemma PostPopped(s: State, w: nat, x: nat, t: Tid, rest: seq<Tid>)
    requires Inv(s) && w < |s.workers| && s.workers[w].pc == PostInc(x) && x in s.sems && s.sems[x].count <= 0
    requires At(s, SemQueue(x)) == [t] + rest
    requires Accounts(s.sems[x].(phase := Steady, granted := s.sems[x].granted + [t]), rest)
    ensures Inv(PostPopStep(s, w))
  {
    hide Inv, ObjectsOk, PhaseOk;
    var s' := PostPopStep(s, w);
    assert At(s, SemQueue(x))[1..] == rest && At(s, SemQueue(x))[0] == t;
    PoppedObjects(s, w, x, t, rest);
    WaiterKeeps(s, s', w, t, SemQueue(x), rest);
  }

  lemma PoppedObjects(s: State, w: nat, x: nat, t: Tid, rest: seq<Tid>)
    requires Inv(s) && w < |s.workers| && s.workers[w].pc == PostInc(x) && x in s.sems && s.sems[x].count <= 0
    requires At(s, SemQueue(x)) == [t] + rest
    requires Accounts(s.sems[x].(phase := Steady, granted := s.sems[x].granted + [t]), rest)
    ensures ObjectsOk(s, PostPopStep(s, w), w) && PhaseOk(PostPopStep(s, w), w)
  {
    hide Inv, ObjectsOk, PhaseOk, Accounts;
    var s' := PostPopStep(s, w);
    assert At(s, SemQueue(x))[1..] == rest;
    InSem(s, w, x);
    SemPhase(s', w, x);
    hide HeldLock;
    SemObjects(s, s', w, x);
  }
}
