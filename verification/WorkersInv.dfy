/** The invariant of the M:N scheduler.

    It has a part for every worker (`WorkerOk`), for every thread (`ThreadOk`), for every mutex and
    for every semaphore, and a part that ties threads to places (`Placed`). A step of worker `w`
    touches that worker, the thread it runs, at most one other thread and at most one mutex or
    semaphore; `Assemble` rebuilds the invariant from those parts alone. */
module WorkersInv {
  import opened Basics
  import opened Workers

  // ---------- Vocabulary ----------

  /** Places from which another thread must wake the thread. */
  predicate Waiting(p: Place) { p.MutexQueue? || p.SemQueue? || p.JoinSlot? || p.SigSlot? }

  /** `p` is a place where threads wait, protected by lock `l`. */
  predicate Guards(l: Lock, p: Place) {
    match l
    case MLock(m) => p == MutexQueue(m)
    case SLock(x) => p == SemQueue(x)
    case CLock(t) => p == JoinSlot(t) || p == SigSlot(t)
  }

  /** Where the running thread is queued while its worker has not left its stack yet. */
  function WaitPlace(pc: Pc): Option<Place> {
    match pc
    case MtxQueued(m) => Some(MutexQueue(m))
    case MtxFlushed(m) => Some(MutexQueue(m))
    case SemQueued(x) => Some(SemQueue(x))
    case SemFlushed(x) => Some(SemQueue(x))
    case JoinSet(t) => Some(JoinSlot(t))
    case SigSet(t) => Some(SigSlot(t))
    case SigFlushed(t) => Some(SigSlot(t))
    case _ => None
  }

  predicate InLoop(pc: Pc) {
    pc.Loop? || pc.InCb? || pc.Popping? || pc.Draining? || pc.Stealing? || pc.Got?
  }

  /** On a user stack, and `current` is the thread's only place. */
  predicate OnUser(pc: Pc) {
    !InLoop(pc) && !pc.Switching? && WaitPlace(pc).None?
  }

  predicate HandFull(pc: Pc) {
    pc.Creating? || pc.CreateFlushed? || pc.Waking? || pc.Got? || (pc.InCb? && !pc.c.Unlock?)
  }

  predicate HandMaybe(pc: Pc) {
    pc.UnlOut? || pc.PostOut? || pc.KillOut? || pc.ExitFinished? || pc.ExitOut?
  }

  /** The spin lock a worker holds; it hands it on to its own callback when it parks. */
  function HeldLock(k: Worker): Option<Lock> {
    if LockOf(k.pc).Some? then LockOf(k.pc) else if k.cb.Unlock? then Some(k.cb.l) else None
  }

  predicate Leaving(pc: Pc) { pc.ExitFinished? || pc.ExitOut? || pc.ExitArmed? }

  // ---------- The invariant ----------

  ghost predicate PlaceOk(s: State, p: Place) {
    && Distinct(At(s, p))
    && forall t: Tid {:trigger t in At(s, p)} :: t in At(s, p) ==> t in s.home && s.home[t] == p
  }

  ghost predicate Placed(s: State) {
    && (forall p :: PlaceOk(s, p))
    && (forall t: Tid {:trigger s.home[t]} :: t in s.home ==> t in At(s, s.home[t]))
  }

  ghost predicate Holders(s: State) {
    forall l :: l in s.holder ==> s.holder[l] < |s.workers| && HeldLock(s.workers[s.holder[l]]) == Some(l)
  }

  /** The slots of worker `w` hold what its program counter says. */
  ghost predicate SlotsOk(s: State, w: nat)
    requires w < |s.workers|
  {
    var k := s.workers[w];
    && |At(s, LastCreated(w))| <= 1 && (k.pc.CreateFlushed? ==> At(s, LastCreated(w)) == [])
    && |At(s, Hand(w))| <= 1
    && (HandFull(k.pc) ==> At(s, Hand(w)) != []) && (!HandFull(k.pc) && !HandMaybe(k.pc) ==> At(s, Hand(w)) == [])
    && |At(s, AfterArg(w))| <= 1 && (At(s, AfterArg(w)) != [] <==> k.cb.PushBalance? || k.cb.WakeJoiner?)
    && (k.cb != NoCb ==> k.pc.Switching? || k.pc.Loop? || k.pc.ExitArmed?)
    && (if OnUser(k.pc) then k.stack.Some? && At(s, Current(w)) == [k.stack.value] else At(s, Current(w)) == [])
  }

  ghost predicate StackOk(s: State, w: nat)
    requires w < |s.workers|
  {
    var k := s.workers[w];
    && (InLoop(k.pc) <==> k.stack.None?)
    && k.cur == (if k.pc.Switching? then None else k.stack)
    && (k.stack.Some? ==>
          var me := k.stack.value;
          && me in s.on && s.on[me] == w && me in s.home
          && (WaitPlace(k.pc).Some? ==> s.home[me] == WaitPlace(k.pc).value)
          && (k.pc.Switching? ==> if k.cb.PushBalance? then s.home[me] == AfterArg(w)
                                  else k.cb.Unlock? && Guards(k.cb.l, s.home[me]))
          && (k.pc.ExitIn? || k.pc.ExitFinished? || k.pc.SigIn? || k.pc.SigOut? || k.pc.SigSet? || k.pc.SigFlushed? ==>
               k.pc.t == me)
          && (Leaving(k.pc) <==> me in s.finished))
  }

  ghost predicate CbOk(s: State, w: nat)
    requires w < |s.workers|
  {
    var k := s.workers[w];
    && (k.pc.ExitArmed? ==> k.cb.NoCb? || k.cb.WakeJoiner?)
    && (k.pc.InCb? ==> k.pc.c != NoCb)
    && (HeldLock(k).Some? ==> HeldLock(k).value in s.holder && s.holder[HeldLock(k).value] == w)
  }

  ghost predicate PhaseOk(s: State, w: nat)
    requires w < |s.workers|
  {
    var k := s.workers[w];
    && (k.pc.SemDec? ==> k.stack.Some? && k.pc.x in s.sems && s.sems[k.pc.x].phase == Decremented(k.stack.value))
    && (k.pc.PostInc? ==> k.pc.x in s.sems && s.sems[k.pc.x].phase == Incremented)
    && (HeldLock(k).Some? && HeldLock(k).value.SLock? && !k.pc.SemDec? && !k.pc.PostInc? ==>
          HeldLock(k).value.x in s.sems && s.sems[HeldLock(k).value.x].phase == Steady)
    && (k.pc.UnlIn? || k.pc.MtxOut? ==> k.stack.Some? && MutexOf(s, k.pc.m).owner == k.stack)
    && (k.pc.UnlOut? ==> k.stack.Some? && MutexOf(s, k.pc.m).owner != k.stack)
  }

  ghost predicate WorkerOk(s: State, w: nat)
    requires w < |s.workers|
  {
    SlotsOk(s, w) && StackOk(s, w) && CbOk(s, w) && PhaseOk(s, w)
  }

  /** Whether thread `t` executes on a stack fits where it is: release then park. */
  ghost predicate RunOk(s: State, t: Tid)
    requires t in s.home
  {
    && (t in s.on ==> s.on[t] < |s.workers| && s.workers[s.on[t]].stack == Some(t))
    && match s.home[t]
       case Deque(_) => t !in s.on
       case Injector(_) => t !in s.on
       case LastCreated(_) => t !in s.on
       case Hand(_) => t !in s.on
       case Current(w) => t in s.on && s.on[t] == w
       case AfterArg(w) => t in s.on ==> s.on[t] == w && s.workers[w].pc.Switching?
       case p => t in s.on ==> HeldLock(s.workers[s.on[t]]).Some? && Guards(HeldLock(s.workers[s.on[t]]).value, p)
  }

  /** Who waits for a join or for a signal. */
  ghost predicate WaitOk(s: State, t: Tid)
    requires t in s.home
  {
    && (s.home[t].JoinSlot? ==> t in s.joined && s.joined[t] == s.home[t].t && s.home[t].t !in s.finished)
    && (s.home[t].SigSlot? ==> s.home[t].t == t && t in s.masks)
    && (t in s.masks ==> s.home[t] == SigSlot(t) && Pending(s, t) * s.masks[t] == {})
    && (t in s.finished ==> t in s.on)
  }

  /** A joiner stays in the join slot until the joined thread finishes, and in the hands of that
      thread's worker until the thread has left its stack. */
  ghost predicate JoinOk(s: State, t: Tid)
    requires t in s.home
  {
    t in s.joined ==>
      var u := s.joined[t];
      && !s.home[t].Current?
      && (u !in s.finished ==> s.home[t] == JoinSlot(u))
      && (u in s.finished && u in s.on ==> s.home[t] == Hand(s.on[u]) || s.home[t] == AfterArg(s.on[u]))
  }

  ghost predicate ThreadOk(s: State, t: Tid)
    requires t in s.home
  {
    RunOk(s, t) && WaitOk(s, t) && JoinOk(s, t)
  }

  /** Mutex hand-off, for a mutex and its queue: it is locked exactly when it has an owner, and
      owners are granted in the order in which threads arrived. */
  ghost predicate HandOff(x: Mutex, q: seq<Tid>) {
    && (x.locked <==> x.owner.Some?)
    && (!x.locked ==> q == [])
    && x.arrived == x.granted + q
    && (x.owner.Some? ==> x.granted != [] && x.owner.value == x.granted[|x.granted| - 1])
  }

  /** Semaphore accounting, for a semaphore and its queue. */
  ghost predicate Accounts(y: Sem, q: seq<Tid>) {
    && y.count == y.init + y.posts - |y.arrived|
    && match y.phase
       case Steady => y.arrived == y.granted + q && |q| == (if y.count < 0 then -y.count else 0)
       case Decremented(t) => y.arrived == y.granted + q + [t] && y.count < 0 && |q| == -y.count - 1
       case Incremented => y.arrived == y.granted + q && |q| == (if y.count <= 0 then -y.count + 1 else 0)
  }

  ghost predicate MutexOk(s: State, m: nat) {
    HandOff(MutexOf(s, m), At(s, MutexQueue(m)))
  }

  ghost predicate SemOk(s: State, x: nat)
    requires x in s.sems
  {
    Accounts(s.sems[x], At(s, SemQueue(x))) && (s.sems[x].phase != Steady ==> SLock(x) in s.holder)
  }

  ghost predicate Bounded(s: State) {
    && (forall t :: t in s.home ==> t < s.nextTid)
    && (forall t :: t in s.on ==> t in s.home)
    && (forall t :: t in s.finished ==> t < s.nextTid)
    && (forall t :: t in s.masks ==> t in s.home)
    && (forall t :: t in s.joined ==> t in s.home)
    && (forall t: Tid {:trigger t in s.home} :: t < s.nextTid ==> t in s.home || t in s.finished)
    && (forall t :: |At(s, JoinSlot(t))| <= 1)
  }

  ghost predicate AllWorkers(s: State) {
    forall w: nat {:trigger WorkerOk(s, w)} :: w < |s.workers| ==> WorkerOk(s, w)
  }

  ghost predicate AllThreads(s: State) {
    forall t: Tid {:trigger ThreadOk(s, t)} :: t in s.home ==> ThreadOk(s, t)
  }

  ghost predicate AllMutexes(s: State) {
    forall m :: MutexOk(s, m)
  }

  ghost predicate AllSems(s: State) {
    forall x :: x in s.sems ==> SemOk(s, x)
  }

  ghost predicate Inv(s: State) {
    Placed(s) && Holders(s) && Bounded(s) && AllWorkers(s) && AllThreads(s) && AllMutexes(s) && AllSems(s)
  }

  // ---------- What a step leaves alone ----------

  ghost predicate SameOthers(s: State, s': State, w: nat) {
    && |s'.workers| == |s.workers|
    && (forall v: nat {:trigger s'.workers[v]} :: v < |s.workers| && v != w ==> s'.workers[v] == s.workers[v])
    && (forall v: nat :: v != w ==>
          && At(s', Hand(v)) == At(s, Hand(v)) && At(s', AfterArg(v)) == At(s, AfterArg(v))
          && At(s', LastCreated(v)) == At(s, LastCreated(v)) && At(s', Current(v)) == At(s, Current(v)))
  }

  /** Only locks of worker `w` change hands. */
  ghost predicate SameLocks(s: State, s': State, w: nat)
    requires w < |s'.workers|
  {
    && (forall l :: l in s.holder && s.holder[l] != w ==> l in s'.holder && s'.holder[l] == s.holder[l])
    && (forall l :: l in s'.holder ==>
          if s'.holder[l] == w then HeldLock(s'.workers[w]) == Some(l)
          else l in s.holder && s'.holder[l] == s.holder[l])
  }

  ghost predicate SameMutex(s: State, s': State, m: nat) {
    MutexOf(s', m) == MutexOf(s, m) && At(s', MutexQueue(m)) == At(s, MutexQueue(m))
  }

  ghost predicate SameSem(s: State, s': State, x: nat) {
    && x in s.sems && x in s'.sems && s'.sems[x] == s.sems[x] && At(s', SemQueue(x)) == At(s, SemQueue(x))
    && (s.sems[x].phase != Steady && SLock(x) in s.holder ==> SLock(x) in s'.holder)
  }

  /** A mutex or semaphore is as it was, or has been checked again. */
  ghost predicate ObjectsOk(s: State, s': State, w: nat) {
    && (forall m {:trigger MutexOk(s', m)} {:trigger SameMutex(s, s', m)} :: SameMutex(s, s', m) || MutexOk(s', m))
    && (forall x {:trigger x in s'.sems} :: x in s'.sems <==> x in s.sems)
    && (forall x {:trigger SemOk(s', x)} {:trigger SameSem(s, s', x)} :: x in s'.sems ==>
         SameSem(s, s', x) || SemOk(s', x))
    && (forall x {:trigger SLock(x)} :: SLock(x) in s.holder && s.holder[SLock(x)] != w && x in s.sems ==>
          x in s'.sems && s'.sems[x].phase == s.sems[x].phase)
    && (forall m {:trigger MLock(m)} :: MLock(m) in s.holder && s.holder[MLock(m)] != w ==>
         MutexOf(s', m) == MutexOf(s, m))
  }

  /** Nothing that concerns thread `t` changed. */
  ghost predicate SameThread(s: State, s': State, t: Tid) {
    && t in s.home && t in s'.home && s'.home[t] == s.home[t]
    && (t in s'.on <==> t in s.on) && (t in s.on ==> s'.on[t] == s.on[t])
    && (t in s'.joined <==> t in s.joined) && (t in s.joined ==> s'.joined[t] == s.joined[t])
    && (t in s'.masks <==> t in s.masks) && (t in s.masks ==> s'.masks[t] == s.masks[t])
    && (t in s.masks ==> Pending(s', t) * s.masks[t] <= Pending(s, t) * s.masks[t])
    && (t in s'.finished <==> t in s.finished)
  }

  /** The step of worker `w` touches no thread but its own and `moved`. */
  ghost predicate SameThreads(s: State, s': State, w: nat, moved: Tid)
    requires w < |s.workers|
  {
    && (forall t: Tid {:trigger s.home[t]} {:trigger SameThread(s, s', t)} ::
          t in s.home && t != moved && Some(t) != s.workers[w].stack ==> SameThread(s, s', t))
    && (forall t: Tid {:trigger s'.home[t]} ::
          t in s'.home && t != moved && Some(t) != s.workers[w].stack ==> t in s.home)
    && (moved in s.on ==> s.on[moved] == w)
  }

  /** Threads finish only on the stack they run on, with no joiner left waiting. */
  ghost predicate Finishing(s: State, s': State) {
    && s.finished <= s'.finished && s.nextTid <= s'.nextTid
    && (forall u :: u in s'.finished && u !in s.finished ==> At(s', JoinSlot(u)) == [])
    && (forall u :: u in s'.finished && u in s'.on ==> u in s.on && s'.on[u] == s.on[u])
  }

  lemma OtherSlots(s: State, s': State, w: nat, v: nat)
    requires v < |s.workers| && |s'.workers| == |s.workers|
    requires SameOthers(s, s', w) && v != w && SlotsOk(s, v)
    ensures SlotsOk(s', v)
  {
    assert s'.workers[v] == s.workers[v];
  }

  lemma OtherLocks(s: State, s': State, w: nat, v: nat)
    requires w < |s.workers| && v < |s.workers| && |s'.workers| == |s.workers|
    requires SameOthers(s, s', w) && SameLocks(s, s', w) && ObjectsOk(s, s', w) && v != w && CbOk(s, v) && PhaseOk(s, v)
    ensures CbOk(s', v) && PhaseOk(s', v)
  {
    assert s'.workers[v] == s.workers[v];
    assert CbOk(s', v) by { hide ObjectsOk; }
  }

  lemma OtherStack(s: State, s': State, w: nat, moved: Tid, v: nat)
    requires w < |s.workers| && v < |s.workers| && |s'.workers| == |s.workers|
    requires SameOthers(s, s', w) && SameThreads(s, s', w, moved) && v != w && StackOk(s, v) && StackOk(s, w)
    ensures StackOk(s', v)
  {
    assert s'.workers[v] == s.workers[v];
    if s.workers[v].stack.Some? { assert SameThread(s, s', s.workers[v].stack.value); }
  }

  lemma OtherWorker(s: State, s': State, w: nat, moved: Tid, v: nat)
    requires w < |s.workers| && |s'.workers| == |s.workers|
    requires SameOthers(s, s', w) && SameLocks(s, s', w) && ObjectsOk(s, s', w) && SameThreads(s, s', w, moved)
    requires v < |s.workers| && v != w && WorkerOk(s, v) && WorkerOk(s, w)
    ensures WorkerOk(s', v)
  {
    hide SlotsOk, StackOk, CbOk, PhaseOk, SameOthers, SameLocks, ObjectsOk, SameThreads;
    OtherSlots(s, s', w, v);
    OtherLocks(s, s', w, v);
    OtherStack(s, s', w, moved, v);
  }

  lemma OtherThread(s: State, s': State, w: nat, moved: Tid, t: Tid)
    requires w < |s.workers| && |s'.workers| == |s.workers|
    requires SameOthers(s, s', w) && SameThreads(s, s', w, moved) && Finishing(s, s') && Placed(s')
    requires t in s.home && t != moved && Some(t) != s.workers[w].stack && ThreadOk(s, t)
    ensures t in s'.home && ThreadOk(s', t)
  {
    assert SameThread(s, s', t);
    assert s'.home[t] == s.home[t] && t in At(s', s.home[t]);
    if t in s.on { assert s.on[t] != w; assert s'.workers[s.on[t]] == s.workers[s.on[t]]; }
  }

  /** The invariant of the new state, from what the step did and what is near it. */
  lemma Assemble(s: State, s': State, w: nat, moved: Tid)
    requires w < |s.workers| && |s'.workers| == |s.workers| && Inv(s)
    requires SameOthers(s, s', w) && SameLocks(s, s', w) && ObjectsOk(s, s', w) && SameThreads(s, s', w, moved)
    requires Finishing(s, s') && Placed(s') && Bounded(s') && WorkerOk(s', w)
    requires moved in s'.home ==> ThreadOk(s', moved)
    requires s.workers[w].stack.Some? && s.workers[w].stack.value in s'.home ==> ThreadOk(s', s.workers[w].stack.value)
    ensures Inv(s')
  {
    hide WorkerOk, ThreadOk, MutexOk, SemOk, Placed, Bounded;
    assert WorkerOk(s, w);
    forall v: nat | v < |s.workers| ensures WorkerOk(s', v) {
      assert WorkerOk(s, v);
      if v != w { OtherWorker(s, s', w, moved, v); }
    }
    forall t: Tid | t in s'.home ensures ThreadOk(s', t) {
      if t != moved && Some(t) != s.workers[w].stack {
        var p := s'.home[t];
        assert t in s.home && ThreadOk(s, t);
        OtherThread(s, s', w, moved, t);
      }
    }
    forall m ensures MutexOk(s', m) {
      assert MutexOk(s, m);
      if SameMutex(s, s', m) { MutexKept(s, s', m); }
    }
    forall x | x in s'.sems ensures SemOk(s', x) {
      assert SemOk(s, x);
      if SameSem(s, s', x) { SemKept(s, s', x); }
    }
    assert Holders(s') by { LocksKept(s, s', w); }
  }

  lemma MutexKept(s: State, s': State, m: nat)
    requires SameMutex(s, s', m) && MutexOk(s, m)
    ensures MutexOk(s', m)
  {
  }

  lemma SemKept(s: State, s': State, x: nat)
    requires SameSem(s, s', x) && SemOk(s, x)
    ensures SemOk(s', x)
  {
  }

  lemma LocksKept(s: State, s': State, w: nat)
    requires w < |s.workers| && |s'.workers| == |s.workers| && Holders(s) && SameOthers(s, s', w) && SameLocks(s, s', w)
    ensures Holders(s')
  {
    hide HeldLock;
    forall l | l in s'.holder ensures s'.holder[l] < |s'.workers| && HeldLock(s'.workers[s'.holder[l]]) == Some(l) {
      if s'.holder[l] != w { assert s'.workers[s'.holder[l]] == s.workers[s.holder[l]]; }
    }
  }

  /** Moving one thread keeps every thread in exactly one place. */
  lemma ShiftKeeps(s: State, t: Tid, p: Place, rest: seq<Tid>, q: Place)
    requires Placed(s) && p != q
    requires At(s, p) == [t] + rest || At(s, p) == rest + [t]
    ensures Placed(Shift(s, t, p, rest, q)) && t in s.home && s.home[t] == p
  {
    var s' := Shift(s, t, p, rest, q);
    assert PlaceOk(s, p) && PlaceOk(s, q);
    assert t in At(s, p);
    assert t !in At(s, q);
    assert Distinct(rest) && t !in rest by { RestDistinct(At(s, p), t, rest); }
    forall x ensures PlaceOk(s', x) {
      assert PlaceOk(s, x);
      if x == p {
        assert At(s', x) == rest;
      } else if x == q {
        assert At(s', x) == At(s, q) + [t];
      } else {
        assert At(s', x) == At(s, x) && t !in At(s, x);
      }
      forall u: Tid | u in At(s', x) ensures u in s'.home && s'.home[u] == x {
        assert u in At(s, x) || (x == q && u == t);
        assert t != u || x == q;
      }
    }
    forall u: Tid | u in s'.home ensures u in At(s', s'.home[u]) {
      if u != t { assert u in At(s, s.home[u]); if s.home[u] == p { assert u in rest; } }
    }
  }

  lemma RestDistinct(d: seq<Tid>, t: Tid, rest: seq<Tid>)
    requires Distinct(d) && (d == [t] + rest || d == rest + [t])
    ensures Distinct(rest) && t !in rest && forall u :: u in rest ==> u in d
  {
    if d == [t] + rest {
      assert forall i :: 0 <= i < |rest| ==> rest[i] == d[i + 1];
      assert d[0] == t;
    } else {
      assert forall i :: 0 <= i < |rest| ==> rest[i] == d[i];
      assert d[|rest|] == t;
    }
  }
}
