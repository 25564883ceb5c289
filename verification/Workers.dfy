/** The M:N scheduler as a transition system: where threads are, who runs on which stack, and how
    the "switch first, publish after" protocol hands threads over (src/scheduler_mn.c:224-383,
    src/thread_mn.c:361-372 and 547-824, src/thread_sync.c).

    Each step is one access to shared state by one worker, or work that no other worker can see.
    A deque operation is one step at the point where it takes effect; module ChaseLev shows that
    its separate loads, stores and CAS behave that way. Spin locks are taken and released in
    steps of their own. Thread identities are never reused. */
module Workers {
  import opened Basics

  type Tid = nat

  /** The places where a thread that is not finished can be. `Hand` is a local variable of code
      running on worker `w`. */
  datatype Place =
    | Deque(w: nat)
    | Injector(w: nat)
    | Current(w: nat)
    | AfterArg(w: nat)
    | LastCreated(w: nat)
    | Hand(w: nat)
    | MutexQueue(m: nat)
    | SemQueue(x: nat)
    | JoinSlot(t: Tid)
    | SigSlot(t: Tid)

  /** The spin locks of mutexes, semaphores and thread descriptors. */
  datatype Lock = MLock(m: nat) | SLock(x: nat) | CLock(t: Tid)

  /** The callback left in `after_switch`. */
  datatype Cb = NoCb | PushBalance | WakeJoiner | Unlock(l: Lock)

  /** Where a worker stands. First the scheduler loop, then library calls on a user stack. */
  datatype Pc =
    | Loop | InCb(c: Cb) | Popping | Draining | Stealing | Got
    | User | Creating | CreateFlushed | YieldFlushed | Switching
    | MtxIn(m: nat) | MtxOut(m: nat) | MtxQueued(m: nat) | MtxFlushed(m: nat)
    | UnlIn(m: nat) | UnlOut(m: nat) | Waking
    | SemIn(x: nat) | SemDec(x: nat) | SemOut(x: nat) | SemQueued(x: nat) | SemFlushed(x: nat)
    | PostIn(x: nat) | PostInc(x: nat) | PostOut(x: nat)
    | JoinFlushed(t: Tid) | JoinIn(t: Tid) | JoinOut(t: Tid) | JoinSet(t: Tid)
    | ExitFlushed | ExitIn(t: Tid) | ExitFinished(t: Tid) | ExitOut | ExitArmed
    | SigIn(t: Tid) | SigOut(t: Tid) | SigSet(t: Tid) | SigFlushed(t: Tid)
    | KillIn(t: Tid, sig: nat) | KillOut(t: Tid)

  /** `cur` is the worker's `current` field, `stack` the thread whose stack it executes on. */
  datatype Worker = Worker(pc: Pc, cur: Option<Tid>, stack: Option<Tid>, cb: Cb)

  /** `arrived` and `granted` list, in order, who entered the lock call's critical section and
      who became the owner. */
  datatype Mutex = Mutex(locked: bool, owner: Option<Tid>, arrived: seq<Tid>, granted: seq<Tid>)

  /** What a semaphore operation that holds the lock has done so far. */
  datatype Phase = Steady | Decremented(t: Tid) | Incremented

  datatype Sem = Sem(count: int, init: nat, posts: nat, phase: Phase, arrived: seq<Tid>, granted: seq<Tid>)

  /** `on[t]` is the worker executing on the stack of `t`; a thread outside `on` has its context
      saved, or never started. */
  datatype State = State(
    workers: seq<Worker>,
    at: map<Place, seq<Tid>>, home: map<Tid, Place>, on: map<Tid, nat>,
    holder: map<Lock, nat>,
    finished: set<Tid>, joined: map<Tid, Tid>,
    mutexes: map<nat, Mutex>, sems: map<nat, Sem>,
    pending: map<Tid, set<nat>>, masks: map<Tid, set<nat>>,
    nextTid: Tid)

  function At(s: State, p: Place): seq<Tid> { if p in s.at then s.at[p] else [] }

  function Pending(s: State, t: Tid): set<nat> { if t in s.pending then s.pending[t] else {} }

  // ---------- Effects ----------

  function SetPc(s: State, w: nat, pc: Pc): State
    requires w < |s.workers|
  {
    s.(workers := s.workers[w := s.workers[w].(pc := pc)])
  }

  /** Thread `t` leaves `p`, of which `rest` remains, and joins `q` at the end. */
  function Shift(s: State, t: Tid, p: Place, rest: seq<Tid>, q: Place): State {
    s.(at := s.at[p := rest][q := At(s, q) + [t]], home := s.home[t := q])
  }

  /** flush_last_created */
  function Flush(s: State, w: nat): State {
    if At(s, LastCreated(w)) == [] then s
    else Shift(s, At(s, LastCreated(w))[0], LastCreated(w), [], Deque(w))
  }

  function Acquire(s: State, w: nat, l: Lock): State { s.(holder := s.holder[l := w]) }

  function Release(s: State, l: Lock): State { s.(holder := s.holder - {l}) }

  /** The thread on whose stack worker `w` executes. */
  function Me(s: State, w: nat): Tid
    requires w < |s.workers|
  {
    if s.workers[w].stack.Some? then s.workers[w].stack.value else 0
  }

  // ---------- Actions ----------

  datatype Act =
    | FlushLast(pc: Pc) | TakeSpin(pc: Pc) | DropSpin
    | Create | Stash | Schedule | Park | Switch | Wake
    | LockDecide | UnlockPop
    | SemDecrement | SemAppend | PostIncrement | PostPop
    | JoinDecide(refused: bool) | ExitFinish | ExitArm | ExitLeave
    | SigDecide(mask: set<nat>, sig: nat) | KillDeliver
    | TakeCb | RunCb(target: nat) | Pop | Drain | Steal(v: nat) | GiveUp | Run

  // Steps common to many calls: flushing last_created, taking and dropping a spin lock.

  /** The places in the code that flush last_created; they go on at `next`. */
  predicate Flushes(pc: Pc, next: Pc) {
    match pc
    case User => next == YieldFlushed || next.JoinFlushed? || next == ExitFlushed
    case Creating => next == CreateFlushed
    case MtxQueued(m) => next == MtxFlushed(m)
    case SemQueued(x) => next == SemFlushed(x)
    case SigSet(t) => next == SigFlushed(t)
    case _ => false
  }

  /** The inline branch of thread_join is left out: the joined thread is not in last_created. */
  function FlushLastStep(s: State, w: nat, next: Pc): State
    requires w < |s.workers|
  {
    if !Flushes(s.workers[w].pc, next) then s
    else if next.JoinFlushed? && (next.t >= s.nextTid || At(s, LastCreated(w)) == [next.t]) then s
    else SetPc(Flush(s, w), w, next)
  }

  /** The spin lock that code at `pc` holds. */
  function LockOf(pc: Pc): Option<Lock> {
    match pc
    case MtxIn(m) => Some(MLock(m))
    case MtxOut(m) => Some(MLock(m))
    case MtxQueued(m) => Some(MLock(m))
    case MtxFlushed(m) => Some(MLock(m))
    case UnlIn(m) => Some(MLock(m))
    case UnlOut(m) => Some(MLock(m))
    case SemIn(x) => Some(SLock(x))
    case SemDec(x) => Some(SLock(x))
    case SemOut(x) => Some(SLock(x))
    case SemQueued(x) => Some(SLock(x))
    case SemFlushed(x) => Some(SLock(x))
    case PostIn(x) => Some(SLock(x))
    case PostInc(x) => Some(SLock(x))
    case PostOut(x) => Some(SLock(x))
    case JoinIn(t) => Some(CLock(t))
    case JoinOut(t) => Some(CLock(t))
    case JoinSet(t) => Some(CLock(t))
    case ExitIn(t) => Some(CLock(t))
    case ExitFinished(t) => Some(CLock(t))
    case SigIn(t) => Some(CLock(t))
    case SigOut(t) => Some(CLock(t))
    case SigSet(t) => Some(CLock(t))
    case SigFlushed(t) => Some(CLock(t))
    case KillIn(t, _) => Some(CLock(t))
    case KillOut(t) => Some(CLock(t))
    case InCb(c) => if c.Unlock? then Some(c.l) else None
    case _ => None
  }

  /** The calls that start with taking a spin lock, for a worker that runs thread `me`. Only the
      owner unlocks a mutex; a signal goes to a thread that exists. */
  predicate Enters(s: State, pc: Pc, me: Tid, next: Pc) {
    match next
    case MtxIn(_) => pc == User
    case UnlIn(m) => pc == User && MutexOf(s, m).owner == Some(me)
    case SemIn(x) => pc == User && x in s.sems
    case PostIn(x) => pc == User && x in s.sems
    case SigIn(t) => pc == User && t == me
    case KillIn(t, sig) => pc == User && t in s.home && 1 <= sig <= 7
    case JoinIn(t) => pc == JoinFlushed(t)
    case ExitIn(t) => pc == ExitFlushed && t == me
    case _ => false
  }

  function TakeSpinStep(s: State, w: nat, next: Pc): State
    requires w < |s.workers|
  {
    if !Enters(s, s.workers[w].pc, Me(s, w), next) || LockOf(next).None? || LockOf(next).value in s.holder then s
    else SetPc(Acquire(s, w, LockOf(next).value), w, next)
  }

  /** Where a call goes on after dropping its spin lock; it still wakes the thread it popped. */
  function Dropped(pc: Pc, idle: bool): Option<Pc> {
    match pc
    case MtxOut(_) => Some(User)
    case SemOut(_) => Some(User)
    case JoinOut(_) => Some(User)
    case SigOut(_) => Some(User)
    case UnlOut(_) => Some(if idle then User else Waking)
    case PostOut(_) => Some(if idle then User else Waking)
    case KillOut(_) => Some(if idle then User else Waking)
    case ExitFinished(_) => Some(ExitOut)
    case InCb(c) => if c.Unlock? then Some(Popping) else None
    case _ => None
  }

  function DropSpinStep(s: State, w: nat): State
    requires w < |s.workers|
  {
    var pc := s.workers[w].pc;
    var next := Dropped(pc, At(s, Hand(w)) == []);
    if LockOf(pc).None? || next.None? then s else SetPc(Release(s, LockOf(pc).value), w, next.value)
  }

  // Creating, yielding, and switching stacks.

  function CreateStep(s: State, w: nat): State
    requires w < |s.workers|
  {
    var k := s.workers[w];
    if k.pc != User then s
    else
      var t := s.nextTid;
      SetPc(s.(at := s.at[Hand(w) := At(s, Hand(w)) + [t]], home := s.home[t := Hand(w)], nextTid := t + 1), w,
            Creating)
  }

  function StashStep(s: State, w: nat): State
    requires w < |s.workers|
  {
    var k := s.workers[w];
    if k.pc != CreateFlushed || At(s, Hand(w)) == [] then s
    else SetPc(Shift(s, At(s, Hand(w))[0], Hand(w), [], LastCreated(w)), w, User)
  }

  function ScheduleStep(s: State, w: nat): State
    requires w < |s.workers|
  {
    var k := s.workers[w];
    if k.pc != YieldFlushed then s
    else
      Shift(s, Me(s, w), Current(w), [], AfterArg(w))
        .(workers := s.workers[w := k.(pc := Switching, cur := None, cb := PushBalance)])
  }

  function ParkStep(s: State, w: nat): State
    requires w < |s.workers|
  {
    var k := s.workers[w];
    if !ParkLock(k.pc).Some? then s
    else s.(workers := s.workers[w := k.(pc := Switching, cur := None, cb := Unlock(ParkLock(k.pc).value))])
  }

  function SwitchStep(s: State, w: nat): State
    requires w < |s.workers|
  {
    var k := s.workers[w];
    if k.pc != Switching then s
    else s.(on := s.on - {Me(s, w)}, workers := s.workers[w := k.(pc := Loop, stack := None)])
  }

  function WakeStep(s: State, w: nat): State
    requires w < |s.workers|
  {
    var k := s.workers[w];
    if k.pc != Waking || At(s, Hand(w)) == [] then s
    else SetPc(Shift(s, At(s, Hand(w))[0], Hand(w), [], Deque(w)), w, User)
  }

  /** The lock whose release schedule_park leaves to the scheduler, once the thread is queued. */
  function ParkLock(pc: Pc): Option<Lock> {
    match pc
    case MtxFlushed(m) => Some(MLock(m))
    case SemFlushed(x) => Some(SLock(x))
    case JoinSet(t) => Some(CLock(t))
    case SigFlushed(t) => Some(CLock(t))
    case _ => None
  }

  // The scheduler loop on the worker's own stack.

  function TakeCbStep(s: State, w: nat): State
    requires w < |s.workers|
  {
    var k := s.workers[w];
    if k.pc != Loop then s
    else
      (if k.cb == NoCb || At(s, AfterArg(w)) == [] then s
       else Shift(s, At(s, AfterArg(w))[0], AfterArg(w), [], Hand(w)))
        .(workers := s.workers[w := k.(pc := if k.cb == NoCb then Popping else InCb(k.cb), cb := NoCb)])
  }

  function RunCbStep(s: State, w: nat, v: nat): State
    requires w < |s.workers|
  {
    var k := s.workers[w];
    if !k.pc.InCb? || k.pc.c.Unlock? then s
    else if At(s, Hand(w)) == [] || v >= |s.workers| then s
    else
      var q := if k.pc.c == WakeJoiner || v == w then Deque(w) else Injector(v);
      SetPc(Shift(s, At(s, Hand(w))[0], Hand(w), [], q), w, Popping)
  }

  function PopStep(s: State, w: nat): State
    requires w < |s.workers|
  {
    var k := s.workers[w];
    var d := At(s, Deque(w));
    if k.pc != Popping then s
    else
      SetPc(if d == [] then s else Shift(s, d[|d| - 1], Deque(w), d[..|d| - 1], Hand(w)),
            w, if d == [] then Draining else Got)
  }

  function DrainStep(s: State, w: nat): State
    requires w < |s.workers|
  {
    var k := s.workers[w];
    var d := At(s, Injector(w));
    if k.pc != Draining then s
    else
      SetPc(if d == [] then s else Shift(s, d[0], Injector(w), d[1..], Hand(w)),
            w, if d == [] then Stealing else Got)
  }

  function StealStep(s: State, w: nat, v: nat): State
    requires w < |s.workers|
  {
    var k := s.workers[w];
    var d := At(s, Deque(v));
    if k.pc != Stealing || v == w || v >= |s.workers| || d == [] then s
    else SetPc(Shift(s, d[0], Deque(v), d[1..], Hand(w)), w, Got)
  }

  function GiveUpStep(s: State, w: nat): State
    requires w < |s.workers|
  {
    var k := s.workers[w];
    if k.pc != Stealing then s else SetPc(s, w, Popping)
  }

  function RunStep(s: State, w: nat): State
    requires w < |s.workers|
  {
    var k := s.workers[w];
    if k.pc != Got || At(s, Hand(w)) == [] then s
    else
      var t := At(s, Hand(w))[0];
      Shift(s, t, Hand(w), [], Current(w))
        .(on := s.on[t := w], joined := s.joined - {t},
          workers := s.workers[w := k.(pc := User, cur := Some(t), stack := Some(t))])
  }

  function MutexOf(s: State, m: nat): Mutex {
    if m in s.mutexes then s.mutexes[m] else Mutex(false, None, [], [])
  }

  // thread_mutex_lock and thread_mutex_unlock; only the owner unlocks.

  function LockDecideStep(s: State, w: nat): State
    requires w < |s.workers|
  {
    var k := s.workers[w];
    if !k.pc.MtxIn? then s
    else
      var m := k.pc.m;
      var x, me := MutexOf(s, m), Me(s, w);
      var x' := if x.locked then x.(arrived := x.arrived + [me])
                else Mutex(true, Some(me), x.arrived + [me], x.granted + [me]);
      SetPc((if x.locked then Shift(s, me, Current(w), [], MutexQueue(m)) else s).(mutexes := s.mutexes[m := x']),
            w, if x.locked then MtxQueued(m) else MtxOut(m))
  }

  function UnlockPopStep(s: State, w: nat): State
    requires w < |s.workers|
  {
    var k := s.workers[w];
    if !k.pc.UnlIn? then s
    else
      var m := k.pc.m;
      var x, q := MutexOf(s, m), At(s, MutexQueue(m));
      var x' := if q == [] then x.(locked := false, owner := None)
                else x.(owner := Some(q[0]), granted := x.granted + [q[0]]);
      SetPc((if q == [] then s else Shift(s, q[0], MutexQueue(m), q[1..], Hand(w))).(mutexes := s.mutexes[m := x']),
            w, UnlOut(m))
  }

  // thread_sem_wait and thread_sem_post

  /** `count` goes down; the caller passes at once unless it became negative. */
  function CountedDown(y: Sem, me: Tid): Sem {
    var z := y.(count := y.count - 1, arrived := y.arrived + [me]);
    if z.count >= 0 then z.(granted := z.granted + [me]) else z.(phase := Decremented(me))
  }

  function SemDecrementStep(s: State, w: nat): State
    requires w < |s.workers|
  {
    var k := s.workers[w];
    if !k.pc.SemIn? || k.pc.x !in s.sems then s
    else
      var x := k.pc.x;
      var z := CountedDown(s.sems[x], Me(s, w));
      SetPc(s.(sems := s.sems[x := z]), w, if z.count >= 0 then SemOut(x) else SemDec(x))
  }

  function SemAppendStep(s: State, w: nat): State
    requires w < |s.workers|
  {
    var k, me := s.workers[w], Me(s, w);
    if !k.pc.SemDec? || k.pc.x !in s.sems then s
    else
      var x := k.pc.x;
      SetPc(Shift(s.(sems := s.sems[x := s.sems[x].(phase := Steady)]), me, Current(w), [], SemQueue(x)), w,
            SemQueued(x))
  }

  function PostIncrementStep(s: State, w: nat): State
    requires w < |s.workers|
  {
    var k := s.workers[w];
    if !k.pc.PostIn? || k.pc.x !in s.sems then s
    else
      var x := k.pc.x;
      var y := s.sems[x];
      SetPc(s.(sems := s.sems[x := y.(count := y.count + 1, posts := y.posts + 1, phase := Incremented)]), w,
            PostInc(x))
  }

  function PostPopStep(s: State, w: nat): State
    requires w < |s.workers|
  {
    var k := s.workers[w];
    if !k.pc.PostInc? || k.pc.x !in s.sems then s
    else
      var x := k.pc.x;
      var y, q := s.sems[x], At(s, SemQueue(x));
      var none := y.count > 0 || q == [];
      var z := y.(phase := Steady, granted := if none then y.granted else y.granted + [q[0]]);
      SetPc((if none then s else Shift(s, q[0], SemQueue(x), q[1..], Hand(w))).(sems := s.sems[x := z]), w, PostOut(x))
  }

  // thread_join by its general path, with one joiner per thread, and thread_exit. A join is
  // refused by the deadlock check, and always if a thread joins itself.

  function JoinDecideStep(s: State, w: nat, refused: bool): State
    requires w < |s.workers|
  {
    var k, me := s.workers[w], Me(s, w);
    if !k.pc.JoinIn? then s
    else
      var t := k.pc.t;
      var out := t in s.finished || refused || t == me;
      if !out && At(s, JoinSlot(t)) != [] then s
      else
        SetPc(if out then s else Shift(s.(joined := s.joined[me := t]), me, Current(w), [], JoinSlot(t)),
              w, if out then JoinOut(t) else JoinSet(t))
  }

  function ExitFinishStep(s: State, w: nat): State
    requires w < |s.workers|
  {
    var k := s.workers[w];
    if !k.pc.ExitIn? then s
    else
      var t := k.pc.t;
      var q := At(s, JoinSlot(t));
      var taken := if q == [] then s else Shift(s, q[0], JoinSlot(t), q[1..], Hand(w));
      SetPc(taken.(finished := s.finished + {t}), w, ExitFinished(t))
  }

  function ExitArmStep(s: State, w: nat): State
    requires w < |s.workers|
  {
    var k := s.workers[w];
    var q := At(s, Hand(w));
    if k.pc != ExitOut then s
    else
      (if q == [] then s else Shift(s, q[0], Hand(w), [], AfterArg(w)))
        .(workers := s.workers[w := k.(pc := ExitArmed, cb := if q == [] then k.cb else WakeJoiner)])
  }

  function ExitLeaveStep(s: State, w: nat): State
    requires w < |s.workers|
  {
    var k, me := s.workers[w], Me(s, w);
    if k.pc != ExitArmed then s
    else
      s.(at := s.at[Current(w) := []], home := s.home - {me}, on := s.on - {me},
         workers := s.workers[w := k.(pc := Loop, cur := None, stack := None)])
  }

  // thread_sigwait and thread_kill; sets of signal numbers stand for the bit masks.

  /** `sig` is the lowest signal of the set, as ctz finds it. */
  predicate IsLowest(sig: nat, x: set<nat>) {
    sig in x && forall y :: y in x ==> sig <= y
  }

  function SigDecideStep(s: State, w: nat, mask: set<nat>, sig: nat): State
    requires w < |s.workers|
  {
    var k := s.workers[w];
    if !k.pc.SigIn? then s
    else
      var t := k.pc.t;
      var hits := Pending(s, t) * mask;
      if hits != {} && !IsLowest(sig, hits) then s
      else
        SetPc((if hits == {} then Shift(s, t, Current(w), [], SigSlot(t)) else s)
                .(masks := if hits == {} then s.masks[t := mask] else s.masks,
                  pending := if hits == {} then s.pending else s.pending[t := Pending(s, t) - {sig}]),
              w, if hits == {} then SigSet(t) else SigOut(t))
  }

  function KillDeliverStep(s: State, w: nat): State
    requires w < |s.workers|
  {
    var k := s.workers[w];
    if !k.pc.KillIn? then s
    else
      var t, sig := k.pc.t, k.pc.sig;
      var hit := t in s.masks && sig in s.masks[t];
      SetPc((if hit then Shift(s, t, SigSlot(t), [], Hand(w)) else s)
              .(masks := if hit then s.masks - {t} else s.masks,
                pending := if hit then s.pending else s.pending[t := Pending(s, t) + {sig}]),
            w, KillOut(t))
  }

  /** One step: worker `w` does `a` if it stands where `a` is possible, and nothing otherwise. */
  function Do(s: State, w: nat, a: Act): State {
    if w >= |s.workers| then s
    else
      match a
      case FlushLast(pc) => FlushLastStep(s, w, pc)
      case TakeSpin(pc) => TakeSpinStep(s, w, pc)
      case DropSpin => DropSpinStep(s, w)
      case Create => CreateStep(s, w)
      case Stash => StashStep(s, w)
      case Schedule => ScheduleStep(s, w)
      case Switch => SwitchStep(s, w)
      case LockDecide => LockDecideStep(s, w)
      case UnlockPop => UnlockPopStep(s, w)
      case Wake => WakeStep(s, w)
      case SemDecrement => SemDecrementStep(s, w)
      case SemAppend => SemAppendStep(s, w)
      case PostIncrement => PostIncrementStep(s, w)
      case PostPop => PostPopStep(s, w)
      case JoinDecide(refused) => JoinDecideStep(s, w, refused)
      case ExitFinish => ExitFinishStep(s, w)
      case ExitArm => ExitArmStep(s, w)
      case ExitLeave => ExitLeaveStep(s, w)
      case SigDecide(mask, sig) => SigDecideStep(s, w, mask, sig)
      case KillDeliver => KillDeliverStep(s, w)
      case Park => ParkStep(s, w)
      case TakeCb => TakeCbStep(s, w)
      case RunCb(target) => RunCbStep(s, w, target)
      case Pop => PopStep(s, w)
      case Drain => DrainStep(s, w)
      case Steal(v) => StealStep(s, w, v)
      case GiveUp => GiveUpStep(s, w)
      case Run => RunStep(s, w)
  }
}
