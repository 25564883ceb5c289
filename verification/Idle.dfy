/** Sleeping and waking of M:N workers (src/scheduler_mn.c:111-119, 211-255 and 282-311). */
module Idle {

  // The handshake between a worker that goes to sleep in runq_pop_block and those who hand it
  // work or shut the system down. Each step is one load, store or lock operation of one actor. A
  // worker owns its deque and drains its injector; any number of pushers append to injectors and
  // any number of callers shut down. A deque operation is one step, see module ChaseLev. A
  // condition variable may wake a worker for no reason.

  datatype Actor = Owner | Pusher(p: nat) | Closer(c: nat)

  datatype Lock = Free | Held(who: Actor)

  /** Where a worker stands in runq_pop_block; `Busy` is anywhere else. `SeenInj` knows whether
      the deque and the injector looked empty, `SeenOpen` that the shutdown flag was not set. */
  datatype Pc =
    | Busy | Popped | DrainLocked | DrainTook | Drained | Stopped | Announced
    | Locked | SeenBottom(b: int) | SeenTop(b: int, t: int) | SeenInj(empty: bool) | SeenOpen
    | Asleep | Woken | Leaving | Cleared

  /** Where a call of inj_push for worker `w` stands. */
  datatype Push =
    | Calling(w: nat, item: nat) | InLock(w: nat, item: nat) | Appended(w: nat) | Counted(w: nat)
    | Unlocked(w: nat) | SawIdle(w: nat) | Holding(w: nat) | Signalled(w: nat) | Done

  /** Where a call of runq_shutdown_broadcast stands: worker `i` is next, or its lock is held. */
  datatype Close = Opening | Before(i: nat) | AtLock(i: nat) | Behind(i: nat)

  /** `idle` is the bit of the worker in idle_bitmap. */
  datatype Worker = Worker(pc: Pc, top: int, bottom: int, inj: seq<nat>, size: int, idle: bool, injLock: Lock,
                           idleLock: Lock)

  datatype State = State(workers: seq<Worker>, pushers: map<nat, Push>, closers: map<nat, Close>, shutdown: bool)

  // ---------- Steps ----------

  /** The next step of the worker itself. `choice` decides between pushing to and popping from its
      deque, and whether a round of stealing finds work. */
  function OwnerStep(k: Worker, shutdown: bool, choice: bool): Worker {
    match k.pc
    case Busy =>
      if choice then k.(bottom := k.bottom + 1)
      else if k.top < k.bottom then k.(bottom := k.bottom - 1)
      else k.(pc := Popped)
    case Popped =>
      if k.size == 0 then k.(pc := Drained)
      else if k.injLock == Free then k.(pc := DrainLocked, injLock := Held(Owner))
      else k
    case DrainLocked =>
      if k.inj == [] then k.(pc := Drained, injLock := Free) else k.(pc := DrainTook, inj := k.inj[1..])
    case DrainTook => k.(pc := Busy, size := k.size - 1, injLock := Free)
    case Drained =>
      if shutdown then k.(pc := Stopped) else if choice then k.(pc := Busy) else k.(pc := Announced, idle := true)
    case Stopped => k
    case Announced => if k.idleLock == Free then k.(pc := Locked, idleLock := Held(Owner)) else k
    case Locked => k.(pc := SeenBottom(k.bottom))
    case SeenBottom(b) => k.(pc := SeenTop(b, k.top))
    case SeenTop(b, t) => k.(pc := SeenInj(b == t && k.size == 0))
    case SeenInj(empty) => k.(pc := if empty && !shutdown then SeenOpen else Leaving)
    case SeenOpen => k.(pc := Asleep, idleLock := Free)
    case Asleep => k.(pc := Woken)
    case Woken => if k.idleLock == Free then k.(pc := Leaving, idleLock := Held(Owner)) else k
    case Leaving => k.(pc := Cleared, idle := false)
    case Cleared => k.(pc := Busy, idleLock := Free)
  }

  /** A step of inj_push, on the worker it pushes to. */
  function PushStep(k: Worker, p: nat, a: Push): (Worker, Push) {
    match a
    case Calling(w, x) => if k.injLock == Free then (k.(injLock := Held(Pusher(p))), InLock(w, x)) else (k, a)
    case InLock(w, x) => (k.(inj := k.inj + [x]), Appended(w))
    case Appended(w) => (k.(size := k.size + 1), Counted(w))
    case Counted(w) => (k.(injLock := Free), Unlocked(w))
    case Unlocked(w) => (k, if k.idle then SawIdle(w) else Done)
    case SawIdle(w) => if k.idleLock == Free then (k.(idleLock := Held(Pusher(p))), Holding(w)) else (k, a)
    case Holding(w) => (if k.pc == Asleep then k.(pc := Woken) else k, Signalled(w))
    case Signalled(w) => (k.(idleLock := Free), Done)
    case Done => (k, a)
  }

  /** A step of the loop of runq_shutdown_broadcast, on worker `a.i`. */
  function CloseStep(k: Worker, c: nat, a: Close): (Worker, Close)
    requires !a.Opening?
  {
    match a
    case Before(i) => if k.idleLock == Free then (k.(idleLock := Held(Closer(c))), AtLock(i)) else (k, a)
    case AtLock(i) => (if k.pc == Asleep then k.(pc := Woken) else k, Behind(i))
    case Behind(i) => (k.(idleLock := Free), Before(i + 1))
  }

  datatype Event =
    | OwnerDoes(w: nat, choice: bool) | StolenFrom(w: nat)
    | PushBegins(p: nat, w: nat, item: nat) | PusherDoes(p: nat)
    | CloseBegins(c: nat) | CloserDoes(c: nat)

  function Do(s: State, e: Event): State {
    match e
    case OwnerDoes(w, choice) =>
      if w >= |s.workers| then s else s.(workers := s.workers[w := OwnerStep(s.workers[w], s.shutdown, choice)])
    case StolenFrom(w) =>
      if w >= |s.workers| || s.workers[w].top >= s.workers[w].bottom then s
      else s.(workers := s.workers[w := s.workers[w].(top := s.workers[w].top + 1)])
    case PushBegins(p, w, x) =>
      if p in s.pushers || w >= |s.workers| then s else s.(pushers := s.pushers[p := Calling(w, x)])
    case PusherDoes(p) =>
      if p !in s.pushers || s.pushers[p] == Done || s.pushers[p].w >= |s.workers| then s
      else
        var w := s.pushers[p].w;
        var (k, a) := PushStep(s.workers[w], p, s.pushers[p]);
        s.(workers := s.workers[w := k], pushers := s.pushers[p := a])
    case CloseBegins(c) =>
      if c in s.closers then s else s.(closers := s.closers[c := Opening])
    case CloserDoes(c) =>
      if c !in s.closers then s
      else if s.closers[c] == Opening then s.(closers := s.closers[c := Before(0)], shutdown := true)
      else if s.closers[c].i >= |s.workers| then s
      else
        var i := s.closers[c].i;
        var (k, a) := CloseStep(s.workers[i], c, s.closers[c]);
        s.(workers := s.workers[i := k], closers := s.closers[c := a])
  }

  function Run(s: State, events: seq<Event>): State {
    if events == [] then s else Do(Run(s, events[..|events| - 1]), events[|events| - 1])
  }

  function Start(n: nat): State {
    State(seq(n, _ => Worker(Busy, 0, 0, [], 0, false, Free, Free)), map[], map[], false)
  }

  // ---------- The invariant ----------

  /** The worker found its deque empty and has not gone back to running threads. */
  predicate Quiet(pc: Pc) { !pc.Busy? && !pc.DrainTook? }

  /** The worker's bit in idle_bitmap is set. */
  predicate Idling(pc: Pc) {
    pc.Announced? || pc.Locked? || pc.SeenBottom? || pc.SeenTop? || pc.SeenInj? || pc.SeenOpen?
    || pc.Asleep? || pc.Woken? || pc.Leaving?
  }

  predicate HoldsIdleLock(pc: Pc) {
    pc.Locked? || pc.SeenBottom? || pc.SeenTop? || pc.SeenInj? || pc.SeenOpen? || pc.Leaving? || pc.Cleared?
  }

  predicate HoldsInjLock(pc: Pc) { pc.DrainLocked? || pc.DrainTook? }

  /** The pusher has appended an item for worker `w` and has not signalled it yet. */
  predicate Owes(a: Push, w: nat) {
    (a.Appended? || a.Counted? || a.Unlocked? || a.SawIdle? || a.Holding?) && a.w == w
  }

  ghost predicate PushPending(s: State, w: nat) {
    exists p :: p in s.pushers && Owes(s.pushers[p], w)
  }

  /** The shutdown caller has still to broadcast to worker `w`. */
  predicate WillBroadcast(a: Close, w: nat) {
    match a
    case Opening => false
    case Before(i) => i <= w
    case AtLock(i) => i <= w
    case Behind(i) => i < w
  }

  ghost predicate ClosePending(s: State, w: nat) {
    exists c :: c in s.closers && WillBroadcast(s.closers[c], w)
  }

  /** What a worker knows about its own deque, its bit and its locks. */
  predicate OwnOk(k: Worker) {
    && k.top <= k.bottom && (Quiet(k.pc) ==> k.top == k.bottom)
    && k.idle == Idling(k.pc)
    && (k.idleLock == Held(Owner) <==> HoldsIdleLock(k.pc))
    && (k.injLock == Held(Owner) <==> HoldsInjLock(k.pc))
  }

  /** inj_size counts the injector, up to an append or a removal under way under inj_lock. */
  predicate SizeOk(s: State, w: nat)
    requires w < |s.workers|
  {
    var k := s.workers[w];
    |k.inj| == k.size + (if Appending(s, k.injLock, w) then 1 else 0) - (if k.pc.DrainTook? then 1 else 0)
  }

  predicate Appending(s: State, l: Lock, w: nat) {
    l.Held? && l.who.Pusher? && l.who.p in s.pushers && s.pushers[l.who.p] == Appended(w)
  }

  /** A worker that has looked, and found nothing, will be signalled if there is something now. */
  ghost predicate SleepOk(s: State, w: nat)
    requires w < |s.workers|
  {
    var k := s.workers[w];
    && (k.pc == SeenInj(true) || k.pc.SeenOpen? || k.pc.Asleep? ==> k.inj == [] || PushPending(s, w))
    && (k.pc.SeenOpen? || k.pc.Asleep? ==> !s.shutdown || ClosePending(s, w))
  }

  ghost predicate WorkerOk(s: State, w: nat)
    requires w < |s.workers|
  {
    OwnOk(s.workers[w]) && SizeOk(s, w) && SleepOk(s, w)
  }

  /** Pushers and shutdown callers hold the locks that their program counters say. */
  predicate PusherOk(s: State, p: nat)
    requires p in s.pushers
  {
    var a := s.pushers[p];
    a != Done ==>
      && a.w < |s.workers|
      && (a.InLock? || a.Appended? || a.Counted? ==> s.workers[a.w].injLock == Held(Pusher(p)))
      && (a.Holding? || a.Signalled? ==> s.workers[a.w].idleLock == Held(Pusher(p)))
  }

  predicate CloserOk(s: State, c: nat)
    requires c in s.closers
  {
    var a := s.closers[c];
    (a.AtLock? || a.Behind?) ==> a.i < |s.workers| && s.workers[a.i].idleLock == Held(Closer(c))
  }

  ghost predicate Inv(s: State) {
    && (forall w: nat {:trigger s.workers[w]} :: w < |s.workers| ==> WorkerOk(s, w))
    && (forall p {:trigger p in s.pushers} :: p in s.pushers ==> PusherOk(s, p))
    && (forall c {:trigger c in s.closers} :: c in s.closers ==> CloserOk(s, c))
  }

  // ---------- Every step keeps it ----------

  lemma OwnerKeeps(s: State, w: nat, choice: bool)
    requires Inv(s) && w < |s.workers|
    ensures Inv(Do(s, OwnerDoes(w, choice)))
  {
    var s' := Do(s, OwnerDoes(w, choice));
    var k, k' := s.workers[w], s'.workers[w];
    assert WorkerOk(s, w);
    OwnerOwn(k, s.shutdown, choice);
    OwnerSize(s, w, choice);
    OwnerSleep(s, w, choice);
    forall v: nat | v < |s'.workers| ensures WorkerOk(s', v) {
      if v != w { Unaffected(s, s', w, v); }
    }
    hide WorkerOk;
    forall p | p in s'.pushers ensures PusherOk(s', p) { assert PusherOk(s, p); }
    forall c | c in s'.closers ensures CloserOk(s', c) { assert CloserOk(s, c); }
  }

  lemma OwnerOwn(k: Worker, shutdown: bool, choice: bool)
    requires OwnOk(k)
    ensures var k' := OwnerStep(k, shutdown, choice);
            && OwnOk(k')
            && (k'.injLock != k.injLock ==>
                 (k.injLock == Free || k.injLock == Held(Owner)) && (k'.injLock == Free || k'.injLock == Held(Owner)))
            && (k'.idleLock != k.idleLock ==> k.idleLock == Free || k.idleLock == Held(Owner))
  {
  }

  /** Taking from the injector is two accesses, under its lock. */
  lemma OwnerTakes(k: Worker, shutdown: bool, choice: bool)
    requires OwnOk(k)
    ensures var k' := OwnerStep(k, shutdown, choice);
            && |k'.inj| - k'.size + (if k'.pc.DrainTook? then 1 else 0) ==
               |k.inj| - k.size + (if k.pc.DrainTook? then 1 else 0)
  {
    hide Quiet, Idling, HoldsIdleLock;
  }

  lemma OwnerSize(s: State, w: nat, choice: bool)
    requires w < |s.workers| && WorkerOk(s, w)
    ensures SizeOk(Do(s, OwnerDoes(w, choice)), w)
  {
    hide SleepOk, OwnOk, OwnerStep;
    OwnerTakes(s.workers[w], s.shutdown, choice);
    OwnerOwn(s.workers[w], s.shutdown, choice);
  }

  /** When the owner has looked at everything and found nothing, whoever appends from now on will
      find its bit set. */
  lemma OwnerSleep(s: State, w: nat, choice: bool)
    requires w < |s.workers| && WorkerOk(s, w)
    ensures SleepOk(Do(s, OwnerDoes(w, choice)), w)
  {
    var s' := Do(s, OwnerDoes(w, choice));
    var k := s.workers[w];
    if k.pc.SeenTop? && k.size == 0 && k.inj != [] {
      var p := k.injLock.who.p;
      assert Owes(s'.pushers[p], w);
    }
    if k.inj != [] && PushPending(s, w) {
      var p :| p in s.pushers && Owes(s.pushers[p], w);
      assert Owes(s'.pushers[p], w);
    }
    if s.shutdown && ClosePending(s, w) {
      var c :| c in s.closers && WillBroadcast(s.closers[c], w);
      assert WillBroadcast(s'.closers[c], w);
    }
  }

  /** A step on worker `w` leaves what worker `v` relies on. */
  lemma Unaffected(s: State, s': State, w: nat, v: nat)
    requires v < |s.workers| && v < |s'.workers| && v != w && WorkerOk(s, v) && s'.workers[v] == s.workers[v]
    requires forall p :: p in s.pushers ==>
               && p in s'.pushers
               && (s'.pushers[p] == s.pushers[p] || (OnlyAt(s.pushers[p], w) && OnlyAt(s'.pushers[p], w)))
    requires forall p :: p in s'.pushers && p !in s.pushers ==> s'.pushers[p].Calling?
    requires forall c :: c in s.closers ==>
               c in s'.closers && (WillBroadcast(s.closers[c], v) ==> WillBroadcast(s'.closers[c], v))
    requires s'.shutdown == s.shutdown
    ensures WorkerOk(s', v)
  {
    if PushPending(s, v) {
      var p :| p in s.pushers && Owes(s.pushers[p], v);
      assert Owes(s'.pushers[p], v);
    }
    if ClosePending(s, v) {
      var c :| c in s.closers && WillBroadcast(s.closers[c], v);
      assert WillBroadcast(s'.closers[c], v);
    }
  }

  predicate OnlyAt(a: Push, w: nat) { a != Done ==> a.w == w }

  lemma ThiefKeeps(s: State, w: nat)
    requires Inv(s)
    ensures Inv(Do(s, StolenFrom(w)))
  {
    var s' := Do(s, StolenFrom(w));
    forall v: nat | v < |s'.workers| ensures WorkerOk(s', v) {
      assert WorkerOk(s, v);
      if v != w { Unaffected(s, s', w, v); }
    }
    hide WorkerOk;
    forall p | p in s'.pushers ensures PusherOk(s', p) { assert PusherOk(s, p); }
    forall c | c in s'.closers ensures CloserOk(s', c) { assert CloserOk(s, c); }
  }

  lemma PushBeginsKeeps(s: State, p: nat, w: nat, item: nat)
    requires Inv(s)
    ensures Inv(Do(s, PushBegins(p, w, item)))
  {
    var s' := Do(s, PushBegins(p, w, item));
    forall v: nat | v < |s.workers| ensures WorkerOk(s', v) {
      assert WorkerOk(s, v);
      Unaffected(s, s', |s.workers|, v);
    }
    hide WorkerOk;
    forall q | q in s'.pushers ensures PusherOk(s', q) { assert q in s.pushers ==> PusherOk(s, q); }
    forall d | d in s'.closers ensures CloserOk(s', d) { assert CloserOk(s, d); }
  }

  lemma CloseBeginsKeeps(s: State, c: nat)
    requires Inv(s)
    ensures Inv(Do(s, CloseBegins(c)))
  {
    var s' := Do(s, CloseBegins(c));
    forall v: nat | v < |s.workers| ensures WorkerOk(s', v) {
      assert WorkerOk(s, v);
      Unaffected(s, s', |s.workers|, v);
    }
    hide WorkerOk;
    forall q | q in s'.pushers ensures PusherOk(s', q) { assert PusherOk(s, q); }
    forall d | d in s'.closers ensures CloserOk(s', d) { assert d in s.closers ==> CloserOk(s, d); }
  }

  lemma PusherKeeps(s: State, p: nat)
    requires Inv(s) && p in s.pushers && s.pushers[p] != Done
    ensures Inv(Do(s, PusherDoes(p)))
  {
    var s' := Do(s, PusherDoes(p));
    var w, a := s.pushers[p].w, s.pushers[p];
    assert PusherOk(s, p);
    assert WorkerOk(s, w);
    PusherOwn(s.workers[w], p, a);
    PusherSize(s, p);
    PusherSleep(s, p);
    forall v: nat | v < |s'.workers| ensures WorkerOk(s', v) {
      assert WorkerOk(s, v);
      if v != w { Unaffected(s, s', w, v); }
    }
    hide WorkerOk, OwnOk;
    forall q | q in s'.pushers ensures PusherOk(s', q) { assert PusherOk(s, q); }
    forall c | c in s'.closers ensures CloserOk(s', c) { assert CloserOk(s, c); }
  }

  /** The step keeps what the owner knows, takes locks only when free and drops only its own. */
  lemma PusherOwn(k: Worker, p: nat, a: Push)
    requires OwnOk(k)
    requires a.InLock? || a.Appended? || a.Counted? ==> k.injLock == Held(Pusher(p))
    requires a.Holding? || a.Signalled? ==> k.idleLock == Held(Pusher(p))
    ensures var (k', a') := PushStep(k, p, a);
            && OwnOk(k')
            && (k'.injLock != k.injLock ==> k.injLock == Free || k.injLock == Held(Pusher(p)))
            && (k'.idleLock != k.idleLock ==> k.idleLock == Free || k.idleLock == Held(Pusher(p)))
            && (a'.InLock? || a'.Appended? || a'.Counted? ==> k'.injLock == Held(Pusher(p)))
            && (a'.Holding? || a'.Signalled? ==> k'.idleLock == Held(Pusher(p)))
  {
  }

  lemma PusherSize(s: State, p: nat)
    requires p in s.pushers && s.pushers[p] != Done && s.pushers[p].w < |s.workers| && WorkerOk(s, s.pushers[p].w)
    requires PusherOk(s, p)
    ensures SizeOk(Do(s, PusherDoes(p)), s.pushers[p].w)
  {
    hide SleepOk, Quiet, Idling, HoldsIdleLock;
  }

  lemma PusherSleep(s: State, p: nat)
    requires p in s.pushers && s.pushers[p] != Done && s.pushers[p].w < |s.workers| && WorkerOk(s, s.pushers[p].w)
    requires PusherOk(s, p)
    ensures SleepOk(Do(s, PusherDoes(p)), s.pushers[p].w)
  {
    var s', w := Do(s, PusherDoes(p)), s.pushers[p].w;
    if Owes(s'.pushers[p], w) { assert PushPending(s', w); }
    if s.shutdown && ClosePending(s, w) {
      var c :| c in s.closers && WillBroadcast(s.closers[c], w);
      assert WillBroadcast(s'.closers[c], w);
    }
    if PushPending(s, w) {
      var q :| q in s.pushers && Owes(s.pushers[q], w);
      if q != p { assert Owes(s'.pushers[q], w); }
    }
  }

  lemma CloserKeeps(s: State, c: nat)
    requires Inv(s) && c in s.closers
    ensures Inv(Do(s, CloserDoes(c)))
  {
    var s' := Do(s, CloserDoes(c));
    assert CloserOk(s, c);
    if s.closers[c] == Opening {
      forall v: nat | v < |s'.workers| ensures WorkerOk(s', v) { assert WorkerOk(s, v); FlagSet(s, c, v); }
    } else if s.closers[c].i < |s.workers| {
      var i := s.closers[c].i;
      assert WorkerOk(s, i);
      CloserAt(s, c);
      forall v: nat | v < |s'.workers| ensures WorkerOk(s', v) {
        assert WorkerOk(s, v);
        if v != i { Unaffected(s, s', i, v); }
      }
    }
    hide WorkerOk, OwnOk;
    forall q | q in s'.pushers ensures PusherOk(s', q) { assert PusherOk(s, q); }
    forall d | d in s'.closers ensures CloserOk(s', d) { assert CloserOk(s, d); }
  }

  lemma FlagSet(s: State, c: nat, v: nat)
    requires c in s.closers && s.closers[c] == Opening && v < |s.workers| && WorkerOk(s, v)
    ensures WorkerOk(Do(s, CloserDoes(c)), v)
  {
    var s' := Do(s, CloserDoes(c));
    assert WillBroadcast(s'.closers[c], v);
    if PushPending(s, v) {
      var p :| p in s.pushers && Owes(s.pushers[p], v);
      assert Owes(s'.pushers[p], v);
    }
  }

  lemma CloserAt(s: State, c: nat)
    requires c in s.closers && s.closers[c] != Opening && s.closers[c].i < |s.workers|
    requires WorkerOk(s, s.closers[c].i) && CloserOk(s, c)
    ensures WorkerOk(Do(s, CloserDoes(c)), s.closers[c].i)
    ensures var k, k' := s.workers[s.closers[c].i], Do(s, CloserDoes(c)).workers[s.closers[c].i];
            k'.injLock == k.injLock
              && (k'.idleLock != k.idleLock ==> k.idleLock == Free || k.idleLock == Held(Closer(c)))
  {
    var s', i := Do(s, CloserDoes(c)), s.closers[c].i;
    if PushPending(s, i) {
      var p :| p in s.pushers && Owes(s.pushers[p], i);
      assert Owes(s'.pushers[p], i);
    }
    if ClosePending(s, i) {
      var d :| d in s.closers && WillBroadcast(s.closers[d], i);
      if d != c { assert WillBroadcast(s'.closers[d], i); }
      else if s.closers[c].Before? { assert WillBroadcast(s'.closers[c], i); }
    }
  }

  lemma StepKeeps(s: State, e: Event)
    requires Inv(s)
    ensures Inv(Do(s, e))
  {
    hide Inv, OwnerStep, PushStep, CloseStep;
    match e {
      case OwnerDoes(w, choice) => if w < |s.workers| { OwnerKeeps(s, w, choice); }
      case StolenFrom(w) => ThiefKeeps(s, w);
      case PushBegins(p, w, x) => PushBeginsKeeps(s, p, w, x);
      case PusherDoes(p) => if p in s.pushers && s.pushers[p] != Done { PusherKeeps(s, p); }
      case CloseBegins(c) => CloseBeginsKeeps(s, c);
      case CloserDoes(c) => if c in s.closers { CloserKeeps(s, c); }
    }
  }

  lemma {:induction false} RunKeeps(n: nat, events: seq<Event>)
    ensures Inv(Run(Start(n), events))
  {
    if events == [] {
      var s := Start(n);
      forall w: nat | w < |s.workers| ensures WorkerOk(s, w) { }
    } else {
      hide Inv, Do;
      RunKeeps(n, events[..|events| - 1]);
      StepKeeps(Run(Start(n), events[..|events| - 1]), events[|events| - 1]);
    }
  }

  // ---------- No stranded work ----------

  /** While a worker sleeps its deque is empty; if there is work in its injector, the pusher of
      some item has still to signal it; if the system is shutting down, so has the caller. */
  lemma NoStrandedWork(n: nat, events: seq<Event>, w: nat)
    ensures var s := Run(Start(n), events);
            w < |s.workers| && s.workers[w].pc == Asleep ==>
              && s.workers[w].top == s.workers[w].bottom
              && (s.workers[w].inj != [] ==> PushPending(s, w))
              && (s.shutdown ==> ClosePending(s, w))
  {
    hide Run, Start;
    RunKeeps(n, events);
  }

  /** The steps of one pusher alone. */
  function PusherRun(s: State, p: nat, steps: nat): State
    decreases steps
  {
    if steps == 0 then s else PusherRun(Do(s, PusherDoes(p)), p, steps - 1)
  }

  /** How many steps a pusher is away from its signal. */
  function Debt(a: Push): nat {
    match a
    case Appended(_) => 5
    case Counted(_) => 4
    case Unlocked(_) => 3
    case SawIdle(_) => 2
    case Holding(_) => 1
    case _ => 0
  }

  /** A pusher that owes a signal to a sleeping worker wakes it within five steps of its own,
      unless another pusher or shutdown caller holds the worker's idle lock meanwhile; the
      sleeping worker itself does not hold it. */
  lemma PusherWakes(n: nat, events: seq<Event>, w: nat, p: nat)
    ensures var s := Run(Start(n), events);
            w < |s.workers| && s.workers[w].pc == Asleep && p in s.pushers && Owes(s.pushers[p], w) ==>
              && s.workers[w].idleLock != Held(Owner)
              && (s.workers[w].idleLock == Free || s.pushers[p].Holding? ==>
                    var s' := PusherRun(s, p, Debt(s.pushers[p]));
                    w < |s'.workers| && s'.workers[w].pc == Woken)
  {
    hide Run, Start;
    var s := Run(Start(n), events);
    RunKeeps(n, events);
    if w < |s.workers| && s.workers[w].pc == Asleep && p in s.pushers && Owes(s.pushers[p], w) {
      assert WorkerOk(s, w) && PusherOk(s, p);
      if s.workers[w].idleLock == Free || s.pushers[p].Holding? { Wakes(s, w, p); }
    }
  }

  lemma {:induction false} Wakes(s: State, w: nat, p: nat)
    requires w < |s.workers| && s.workers[w].pc == Asleep && s.workers[w].idle
    requires p in s.pushers && Owes(s.pushers[p], w)
    requires s.workers[w].idleLock == Free || s.pushers[p].Holding?
    ensures var s' := PusherRun(s, p, Debt(s.pushers[p])); w < |s'.workers| && s'.workers[w].pc == Woken
    decreases Debt(s.pushers[p])
  {
    var t := Do(s, PusherDoes(p));
    if s.pushers[p].Holding? {
      assert PusherRun(t, p, 0) == t;
    } else {
      Wakes(t, w, p);
    }
  }

  // ---------- What a worker without work does ----------

  /** The worker alone, with no luck at stealing, `steps` steps long. */
  function OwnerRun(k: Worker, shutdown: bool, steps: nat): Worker {
    if steps == 0 then k else OwnerStep(OwnerRun(k, shutdown, steps - 1), shutdown, false)
  }

  lemma OwnerAfter(k: Worker, shutdown: bool, steps: nat)
    ensures OwnerRun(k, shutdown, steps + 1) == OwnerStep(OwnerRun(k, shutdown, steps), shutdown, false)
  {
  }

  /** A worker that found nothing to run or steal, undisturbed from then on: it stops if the system
      shuts down, is asleep after seven steps, with its bit set and its locks free, exactly if its
      injector is empty too, and otherwise is back in its loop after eight, with its bit cleared. */
  lemma RestsExactly(k: Worker, shutdown: bool)
    requires OwnOk(k) && k.pc == Drained && k.idleLock == Free
    ensures if shutdown then OwnerRun(k, true, 1) == k.(pc := Stopped)
            else if k.size == 0 then OwnerRun(k, false, 7) == k.(pc := Asleep, idle := true)
            else OwnerRun(k, false, 8) == k.(pc := Busy, idle := false)
  {
    hide OwnerRun, OwnOk;
    if shutdown { Stops(k); } else if k.size == 0 { FallsAsleep(k); } else { GoesBack(k); }
  }

  lemma Stops(k: Worker)
    requires k.pc == Drained
    ensures OwnerRun(k, true, 1) == k.(pc := Stopped)
  {
    OwnerStarts(k, true);
    OwnerAfter(k, true, 0);
  }

  lemma FallsAsleep(k: Worker)
    requires OwnOk(k) && k.pc == Drained && k.idleLock == Free && k.size == 0
    ensures OwnerRun(k, false, 7) == k.(pc := Asleep, idle := true)
  {
    hide OwnerRun, OwnOk;
    OwnerLooks(k);
    OwnerAfter(k, false, 5);
    OwnerAfter(k, false, 6);
    assert OwnerRun(k, false, 6) == k.(pc := SeenOpen, idle := true, idleLock := Held(Owner));
  }

  lemma GoesBack(k: Worker)
    requires OwnOk(k) && k.pc == Drained && k.idleLock == Free && k.size != 0
    ensures OwnerRun(k, false, 8) == k.(pc := Busy, idle := false)
  {
    hide OwnerRun, OwnOk;
    OwnerLooks(k);
    OwnerAfter(k, false, 5);
    OwnerAfter(k, false, 6);
    OwnerAfter(k, false, 7);
    assert OwnerRun(k, false, 6) == k.(pc := Leaving, idle := true, idleLock := Held(Owner));
    assert OwnerRun(k, false, 7) == k.(pc := Cleared, idle := false, idleLock := Held(Owner));
  }

  lemma OwnerStarts(k: Worker, shutdown: bool)
    ensures OwnerRun(k, shutdown, 0) == k
  {
  }

  lemma OwnerLooks(k: Worker)
    requires OwnOk(k) && k.pc == Drained && k.idleLock == Free
    ensures OwnerRun(k, false, 5) == k.(pc := SeenInj(k.size == 0), idle := true, idleLock := Held(Owner))
  {
    OwnerStarts(k, false);
    hide OwnerRun;
    OwnerAfter(k, false, 0);
    OwnerAfter(k, false, 1);
    assert OwnerRun(k, false, 2) == k.(pc := Locked, idle := true, idleLock := Held(Owner));
    OwnerAfter(k, false, 2);
    OwnerAfter(k, false, 3);
    assert OwnerRun(k, false, 4) == k.(pc := SeenTop(k.bottom, k.top), idle := true, idleLock := Held(Owner));
    OwnerAfter(k, false, 4);
  }

  lemma {:induction false} OwnerThen(k: Worker, shutdown: bool, m: nat, n: nat)
    ensures OwnerRun(k, shutdown, m + n) == OwnerRun(OwnerRun(k, shutdown, m), shutdown, n)
    decreases n
  {
    OwnerStarts(OwnerRun(k, shutdown, m), shutdown);
    if n > 0 {
      OwnerThen(k, shutdown, m, n - 1);
      OwnerAfter(k, shutdown, m + n - 1);
      OwnerAfter(OwnerRun(k, shutdown, m), shutdown, n - 1);
    }
  }

  /** What a woken worker does with both its locks free: its bit is cleared, and it takes the oldest
      injected item, or stops if there is none and the system shuts down. */
  lemma WokenFinds(k: Worker, shutdown: bool)
    requires OwnOk(k) && k.pc == Woken && k.idleLock == Free && k.injLock == Free
    ensures var b := k.(pc := Busy, idle := false);
            && OwnerRun(k, shutdown, 3) == b
            && (k.size != 0 && k.inj != [] ==>
                  OwnerRun(k, shutdown, 7) == b.(inj := k.inj[1..], size := k.size - 1))
            && (k.size == 0 && shutdown ==> OwnerRun(k, shutdown, 6) == b.(pc := Stopped))
  {
    var b := k.(pc := Busy, idle := false);
    assert b.top == b.bottom;
    hide OwnerRun, OwnOk, OwnerStep;
    GetsUp(k, shutdown);
    OwnerThen(k, shutdown, 3, 3);
    OwnerThen(k, shutdown, 3, 4);
    if k.size != 0 && k.inj != [] { TakesInjected(b, shutdown); }
    if k.size == 0 && shutdown { FindsNothing(b); }
  }

  lemma GetsUp(k: Worker, shutdown: bool)
    requires k.pc == Woken && k.idleLock == Free
    ensures OwnerRun(k, shutdown, 3) == k.(pc := Busy, idle := false)
  {
    hide OwnerRun;
    OwnerStarts(k, shutdown);
    OwnerAfter(k, shutdown, 0);
    OwnerAfter(k, shutdown, 1);
    OwnerAfter(k, shutdown, 2);
    assert OwnerRun(k, shutdown, 1) == k.(pc := Leaving, idleLock := Held(Owner));
    assert OwnerRun(k, shutdown, 2) == k.(pc := Cleared, idle := false, idleLock := Held(Owner));
  }

  lemma TakesInjected(b: Worker, shutdown: bool)
    requires b.pc == Busy && b.top == b.bottom && b.injLock == Free && b.size != 0 && b.inj != []
    ensures OwnerRun(b, shutdown, 4) == b.(inj := b.inj[1..], size := b.size - 1)
  {
    hide OwnerRun;
    OwnerStarts(b, shutdown);
    OwnerAfter(b, shutdown, 0);
    OwnerAfter(b, shutdown, 1);
    assert OwnerRun(b, shutdown, 2) == b.(pc := DrainLocked, injLock := Held(Owner));
    OwnerAfter(b, shutdown, 2);
    OwnerAfter(b, shutdown, 3);
  }

  lemma FindsNothing(b: Worker)
    requires b.pc == Busy && b.top == b.bottom && b.size == 0
    ensures OwnerRun(b, true, 3) == b.(pc := Stopped)
  {
    hide OwnerRun;
    OwnerStarts(b, true);
    OwnerAfter(b, true, 0);
    OwnerAfter(b, true, 1);
    OwnerAfter(b, true, 2);
  }

  // ---------- What the others achieve ----------

  function Roused(k: Worker): Worker { if k.pc == Asleep then k.(pc := Woken) else k }

  /** A pusher alone, on the worker it pushes to. */
  function PushRun(k: Worker, p: nat, a: Push, steps: nat): (Worker, Push)
    decreases steps
  {
    if steps == 0 then (k, a) else var (k', a') := PushStep(k, p, a); PushRun(k', p, a', steps - 1)
  }

  /** inj_push, undisturbed: the item is the last of the injector and counted, and a worker that
      sleeps with its bit set is woken. Nothing else has changed. */
  lemma PushDelivers(k: Worker, p: nat, w: nat, x: nat)
    requires k.injLock == Free && k.idleLock == Free && (k.pc == Asleep ==> k.idle)
    ensures PushRun(k, p, Calling(w, x), 8) == (Roused(k.(inj := k.inj + [x], size := k.size + 1)), Done)
  {
    var q := k.(inj := k.inj + [x], size := k.size + 1);
    PushAppends(k, p, w, x);
    PushSignals(q, p, w);
    assert PushRun(k, p, Calling(w, x), 8) == PushRun(q, p, Unlocked(w), 4) by { PushThen(k, p, Calling(w, x), 4, 4); }
  }

  lemma {:induction false} PushThen(k: Worker, p: nat, a: Push, m: nat, n: nat)
    ensures var (k', a') := PushRun(k, p, a, m); PushRun(k, p, a, m + n) == PushRun(k', p, a', n)
    decreases m
  {
    if m > 0 {
      var (k', a') := PushStep(k, p, a);
      PushThen(k', p, a', m - 1, n);
    }
  }

  lemma PushAppends(k: Worker, p: nat, w: nat, x: nat)
    requires k.injLock == Free
    ensures PushRun(k, p, Calling(w, x), 4) == (k.(inj := k.inj + [x], size := k.size + 1), Unlocked(w))
  {
    var l := k.(injLock := Held(Pusher(p)));
    var m := l.(inj := k.inj + [x]);
    var n := m.(size := k.size + 1);
    assert PushRun(n, p, Counted(w), 1) == PushRun(n.(injLock := Free), p, Unlocked(w), 0);
    assert PushRun(m, p, Appended(w), 2) == PushRun(n, p, Counted(w), 1);
    assert PushRun(l, p, InLock(w, x), 3) == PushRun(m, p, Appended(w), 2);
    assert n.(injLock := Free) == k.(inj := k.inj + [x], size := k.size + 1);
  }

  lemma PushSignals(k: Worker, p: nat, w: nat)
    requires k.idleLock == Free && (k.pc == Asleep ==> k.idle)
    ensures PushRun(k, p, Unlocked(w), 4) == (Roused(k), Done)
  {
    if k.idle {
      var l := k.(idleLock := Held(Pusher(p)));
      assert PushRun(Roused(l), p, Signalled(w), 1) == PushRun(Roused(k), p, Done, 0);
      assert PushRun(l, p, Holding(w), 2) == PushRun(Roused(l), p, Signalled(w), 1);
      assert PushRun(k, p, SawIdle(w), 3) == PushRun(l, p, Holding(w), 2);
    } else {
      assert PushRun(k, p, Done, 1) == PushRun(k, p, Done, 0);
      assert PushRun(k, p, Done, 2) == PushRun(k, p, Done, 1);
      assert PushRun(k, p, Done, 3) == PushRun(k, p, Done, 2);
    }
  }

  function CloserRun(s: State, c: nat, steps: nat): State
    decreases steps
  {
    if steps == 0 then s else CloserRun(Do(s, CloserDoes(c)), c, steps - 1)
  }

  /** Worker by worker, from `i` on. */
  ghost predicate SweptFrom(s: State, s': State, i: nat) {
    && |s'.workers| == |s.workers| && s'.pushers == s.pushers && s'.shutdown == s.shutdown
    && forall j :: 0 <= j < |s.workers| ==> s'.workers[j] == if j < i then s.workers[j] else Roused(s.workers[j])
  }

  /** runq_shutdown_broadcast, with nobody in its way: the flag is set and every sleeping worker is
      woken. */
  lemma ShutdownWakesAll(s: State, c: nat)
    requires c in s.closers && s.closers[c] == Opening
    requires forall j :: 0 <= j < |s.workers| ==> s.workers[j].idleLock == Free
    ensures SweptFrom(s.(shutdown := true), CloserRun(s, c, 1 + 3 * |s.workers|), 0)
  {
    var t := Do(s, CloserDoes(c));
    Sweeps(t, c, 0);
    assert CloserRun(s, c, 1 + 3 * |s.workers|) == CloserRun(t, c, 3 * |s.workers|);
  }

  lemma {:induction false} Sweeps(s: State, c: nat, i: nat)
    requires c in s.closers && s.closers[c] == Before(i) && i <= |s.workers|
    requires forall j :: i <= j < |s.workers| ==> s.workers[j].idleLock == Free
    ensures SweptFrom(s, CloserRun(s, c, 3 * (|s.workers| - i)), i)
    decreases |s.workers| - i
  {
    if i < |s.workers| {
      var t := s.(workers := s.workers[i := Roused(s.workers[i])], closers := s.closers[c := Before(i + 1)]);
      Sweeps(t, c, i + 1);
      Broadcasts(s, c, i, 3 * (|s.workers| - i - 1));
    }
  }

  lemma Broadcasts(s: State, c: nat, i: nat, n: nat)
    requires c in s.closers && s.closers[c] == Before(i) && i < |s.workers| && s.workers[i].idleLock == Free
    ensures var t := s.(workers := s.workers[i := Roused(s.workers[i])], closers := s.closers[c := Before(i + 1)]);
            CloserRun(s, c, 3 + n) == CloserRun(t, c, n)
  {
    var k := s.workers[i].(idleLock := Held(Closer(c)));
    var s1 := s.(workers := s.workers[i := k], closers := s.closers[c := AtLock(i)]);
    var s2 := s.(workers := s.workers[i := Roused(k)], closers := s.closers[c := Behind(i)]);
    var t := s.(workers := s.workers[i := Roused(s.workers[i])], closers := s.closers[c := Before(i + 1)]);
    assert Do(s, CloserDoes(c)) == s1;
    assert Do(s1, CloserDoes(c)) == s2;
    assert Do(s2, CloserDoes(c)) == t;
    hide Do;
    assert CloserRun(s2, c, 1 + n) == CloserRun(t, c, n);
    assert CloserRun(s1, c, 2 + n) == CloserRun(s2, c, 1 + n);
    assert CloserRun(s, c, 3 + n) == CloserRun(s1, c, 2 + n);
  }

  /** The injector is a queue: items of pushers go to its end, and only its owner takes, at its front. */
  lemma InjectorIsQueue(s: State, e: Event, w: nat)
    requires w < |s.workers|
    ensures |Do(s, e).workers| == |s.workers|
    ensures var q, q' := s.workers[w].inj, Do(s, e).workers[w].inj;
            || q' == q
            || (e.OwnerDoes? && e.w == w && s.workers[w].pc == DrainLocked && q != [] && q' == q[1..])
            || (e.PusherDoes? && e.p in s.pushers && s.pushers[e.p].InLock? && s.pushers[e.p].w == w
                && q' == q + [s.pushers[e.p].item])
  {
  }

  /** Nobody but the worker itself changes its deque, except that others take at the top. */
  lemma DequeOwned(s: State, e: Event, w: nat)
    requires w < |s.workers|
    ensures |Do(s, e).workers| == |s.workers|
    ensures var k, k' := s.workers[w], Do(s, e).workers[w];
            && (k'.bottom != k.bottom ==> e.OwnerDoes? && e.w == w && k.pc == Busy)
            && (k'.top != k.top ==> e == StolenFrom(w) && k'.top == k.top + 1 && k.top < k.bottom)
  {
  }
}
