/** What each action of the M:N scheduler changes, and where threads can go.

    `Touches` says which part of the state a step may change and to which point of the code it
    leads; `Moves` says along which routes threads travel. Both hold of every step of every worker
    (`StepDid`), and what module WorkersMeaning says of whole calls follows from that and from the
    few steps that decide something. There is one small lemma for each branch of each action. */
module WorkersShape {
  import opened Basics
  import opened Workers
  import opened WorkersInv
  import opened WorkersSteps
  import opened WorkersCalls
  import opened WorkersLife

  // ---------- The flow of control ----------

  /** Where action `a` is possible. */
  predicate Applies(pc: Pc, a: Act) {
    match a
    case FlushLast(next) => Flushes(pc, next)
    case TakeSpin(next) => pc == User || pc.JoinFlushed? || pc == ExitFlushed
    case DropSpin => Dropped(pc, true).Some?
    case Create => pc == User
    case Stash => pc == CreateFlushed
    case Schedule => pc == YieldFlushed
    case Park => ParkLock(pc).Some?
    case Switch => pc == Switching
    case Wake => pc == Waking
    case LockDecide => pc.MtxIn?
    case UnlockPop => pc.UnlIn?
    case SemDecrement => pc.SemIn?
    case SemAppend => pc.SemDec?
    case PostIncrement => pc.PostIn?
    case PostPop => pc.PostInc?
    case JoinDecide(_) => pc.JoinIn?
    case ExitFinish => pc.ExitIn?
    case ExitArm => pc == ExitOut
    case ExitLeave => pc == ExitArmed
    case SigDecide(_, _) => pc.SigIn?
    case KillDeliver => pc.KillIn?
    case TakeCb => pc == Loop
    case RunCb(_) => pc.InCb? && !pc.c.Unlock?
    case Pop => pc == Popping
    case Drain => pc == Draining
    case Steal(_) => pc == Stealing
    case GiveUp => pc == Stealing
    case Run => pc == Got
  }

  /** Where the calls stand that have just taken their spin lock. */
  predicate Begins(pc: Pc) {
    pc.MtxIn? || pc.UnlIn? || pc.SemIn? || pc.PostIn? || pc.JoinIn? || pc.ExitIn? || pc.SigIn? || pc.KillIn?
  }

  /** Where it leads. */
  predicate GoesTo(pc: Pc, a: Act, next: Pc) {
    match a
    case FlushLast(n) => next == n
    case TakeSpin(n) => next == n && Begins(n)
    case DropSpin => Dropped(pc, true) == Some(next) || Dropped(pc, false) == Some(next)
    case Create => next == Creating
    case Stash => next == User
    case Schedule => next == Switching
    case Park => next == Switching
    case Switch => next == Loop
    case Wake => next == User
    case LockDecide => pc.MtxIn? && (next == MtxOut(pc.m) || next == MtxQueued(pc.m))
    case UnlockPop => pc.UnlIn? && next == UnlOut(pc.m)
    case SemDecrement => pc.SemIn? && (next == SemOut(pc.x) || next == SemDec(pc.x))
    case SemAppend => pc.SemDec? && next == SemQueued(pc.x)
    case PostIncrement => pc.PostIn? && next == PostInc(pc.x)
    case PostPop => pc.PostInc? && next == PostOut(pc.x)
    case JoinDecide(_) => pc.JoinIn? && (next == JoinOut(pc.t) || next == JoinSet(pc.t))
    case ExitFinish => pc.ExitIn? && next == ExitFinished(pc.t)
    case ExitArm => next == ExitArmed
    case ExitLeave => next == Loop
    case SigDecide(_, _) => pc.SigIn? && (next == SigOut(pc.t) || next == SigSet(pc.t))
    case KillDeliver => pc.KillIn? && next == KillOut(pc.t)
    case TakeCb => next == Popping || next.InCb?
    case RunCb(_) => next == Popping
    case Pop => next == Got || next == Draining
    case Drain => next == Got || next == Stealing
    case Steal(_) => next == Got
    case GiveUp => next == Popping
    case Run => next == User
  }

  /** Which part of the state the action may touch, and where it leads. */
  ghost predicate Touches(s: State, s': State, w: nat, a: Act)
    requires w < |s.workers|
  {
    && |s'.workers| == |s.workers| && s'.workers == s.workers[w := s'.workers[w]]
    && Applies(s.workers[w].pc, a) && GoesTo(s.workers[w].pc, a, s'.workers[w].pc)
    && (a.SemDecrement? || a.SemAppend? || a.PostIncrement? || a.PostPop? || s'.sems == s.sems)
    && (a.LockDecide? || a.UnlockPop? || s'.mutexes == s.mutexes)
    && (a.SigDecide? || a.KillDeliver? || (s'.masks == s.masks && s'.pending == s.pending))
    && (a.ExitFinish? || s'.finished == s.finished) && (a.JoinDecide? || a.Run? || s'.joined == s.joined)
    && (a.Create? || s'.nextTid == s.nextTid) && (a.TakeSpin? || a.DropSpin? || s'.holder == s.holder)
  }

  // ---------- Where threads go ----------

  /** The route from `p` to `q`, for a worker `w` that stands at `pc`. */
  predicate Route(pc: Pc, w: nat, p: Place, q: Place) {
    match p
    case LastCreated(v) =>
      v == w && q == Deque(w) && (pc.User? || pc.Creating? || pc.MtxQueued? || pc.SemQueued? || pc.SigSet?)
    case Hand(v) => v == w && FromHand(pc, w, q)
    case Current(v) => v == w && FromCurrent(pc, w, q)
    case AfterArg(v) => v == w && q == Hand(w) && pc == Loop
    case Deque(v) => v != w && q == Hand(w) && pc == Stealing
    case Injector(v) => v == w && q == Hand(w) && pc == Draining
    case MutexQueue(m) => q == Hand(w) && pc == UnlIn(m)
    case SemQueue(x) => q == Hand(w) && pc == PostInc(x)
    case JoinSlot(t) => q == Hand(w) && pc == ExitIn(t)
    case SigSlot(t) => q == Hand(w) && pc.KillIn? && pc.t == t
  }

  predicate FromHand(pc: Pc, w: nat, q: Place) {
    match pc
    case CreateFlushed => q == LastCreated(w)
    case Waking => q == Deque(w)
    case Got => q == Current(w)
    case ExitOut => q == AfterArg(w)
    case InCb(c) => q == Deque(w) || (c == PushBalance && q.Injector? && q.w != w)
    case _ => false
  }

  predicate FromCurrent(pc: Pc, w: nat, q: Place) {
    match pc
    case YieldFlushed => q == AfterArg(w)
    case MtxIn(m) => q == MutexQueue(m)
    case SemDec(x) => q == SemQueue(x)
    case JoinIn(t) => q == JoinSlot(t)
    case SigIn(t) => q == SigSlot(t)
    case _ => false
  }

  /** The first thread of `p` goes to the end of `q`. */
  ghost predicate Travels(s: State, s': State, p: Place, q: Place) {
    && At(s, p) != [] && s'.at == s.at[p := At(s, p)[1..]][q := At(s, q) + [At(s, p)[0]]]
    && s'.home == s.home[At(s, p)[0] := q]
  }

  /** The last thread of worker `w`'s deque goes into its hands. */
  ghost predicate PopsLast(s: State, s': State, w: nat) {
    var d := At(s, Deque(w));
    && d != [] && s'.at == s.at[Deque(w) := d[..|d| - 1]][Hand(w) := At(s, Hand(w)) + [d[|d| - 1]]]
    && s'.home == s.home[d[|d| - 1] := Hand(w)]
  }

  /** A thread that did not exist before is in the hands of worker `w`. */
  ghost predicate Born(s: State, s': State, w: nat) {
    && s'.at == s.at[Hand(w) := At(s, Hand(w)) + [s.nextTid]] && s'.home == s.home[s.nextTid := Hand(w)]
    && s'.nextTid == s.nextTid + 1
  }

  /** The running thread is gone. */
  ghost predicate Gone(s: State, s': State, w: nat)
    requires w < |s.workers|
  {
    s'.at == s.at[Current(w) := []] && s'.home == s.home - {Me(s, w)}
  }

  ghost predicate TravelsRoute(s: State, s': State, w: nat)
    requires w < |s.workers|
  {
    exists p, q :: Route(s.workers[w].pc, w, p, q) && Travels(s, s', p, q)
  }

  ghost predicate Moves(s: State, s': State, w: nat)
    requires w < |s.workers|
  {
    || (s'.at == s.at && s'.home == s.home)
    || TravelsRoute(s, s', w)
    || (s.workers[w].pc == Popping && PopsLast(s, s', w))
    || (s.workers[w].pc == User && Born(s, s', w))
    || (s.workers[w].pc == ExitArmed && Gone(s, s', w))
  }

  ghost predicate Did(s: State, s': State, w: nat, a: Act)
    requires w < |s.workers|
  {
    Touches(s, s', w, a) && Moves(s, s', w)
  }

  // ---------- Branch by branch ----------

  lemma FlushLastNothing(s: State, w: nat, pc: Pc)
    requires w < |s.workers| && Flushes(s.workers[w].pc, pc) && At(s, LastCreated(w)) == []
    requires pc.JoinFlushed? ==> pc.t < s.nextTid
    ensures Did(s, FlushLastStep(s, w, pc), w, FlushLast(pc))
  {
    hide TravelsRoute;
  }

  lemma FlushLastSomething(s: State, w: nat, pc: Pc)
    requires w < |s.workers| && Flushes(s.workers[w].pc, pc) && |At(s, LastCreated(w))| == 1
    requires pc.JoinFlushed? ==> pc.t < s.nextTid && At(s, LastCreated(w)) != [pc.t]
    ensures Did(s, FlushLastStep(s, w, pc), w, FlushLast(pc))
  {
    assert At(s, LastCreated(w))[1..] == [];
    assert Travels(s, FlushLastStep(s, w, pc), LastCreated(w), Deque(w));
  }

  lemma TakeSpinFree(s: State, w: nat, pc: Pc)
    requires w < |s.workers| && Enters(s, s.workers[w].pc, Me(s, w), pc) && LockOf(pc).Some?
    requires LockOf(pc).value !in s.holder
    ensures Did(s, TakeSpinStep(s, w, pc), w, TakeSpin(pc))
  {
    hide Me, LockOf, TravelsRoute;
  }

  lemma DropSpinHeld(s: State, w: nat)
    requires w < |s.workers| && LockOf(s.workers[w].pc).Some? && Dropped(s.workers[w].pc, At(s, Hand(w)) == []).Some?
    ensures Did(s, DropSpinStep(s, w), w, DropSpin)
  {
    hide LockOf, At, TravelsRoute;
  }

  lemma CreateAlways(s: State, w: nat)
    requires w < |s.workers| && s.workers[w].pc == User
    ensures Did(s, CreateStep(s, w), w, Create)
  {
    hide At, TravelsRoute;
  }

  lemma StashFull(s: State, w: nat)
    requires w < |s.workers| && s.workers[w].pc == CreateFlushed && |At(s, Hand(w))| == 1
    ensures Did(s, StashStep(s, w), w, Stash)
  {
    assert At(s, Hand(w))[1..] == [];
    assert Travels(s, StashStep(s, w), Hand(w), LastCreated(w));
  }

  lemma ScheduleRunning(s: State, w: nat)
    requires w < |s.workers| && s.workers[w].pc == YieldFlushed && At(s, Current(w)) == [Me(s, w)]
    ensures Did(s, ScheduleStep(s, w), w, Schedule)
  {
    assert At(s, Current(w))[1..] == [];
    assert Travels(s, ScheduleStep(s, w), Current(w), AfterArg(w));
  }

  lemma ParkQueued(s: State, w: nat)
    requires w < |s.workers| && ParkLock(s.workers[w].pc).Some?
    ensures Did(s, ParkStep(s, w), w, Park)
  {
    hide ParkLock, TravelsRoute;
  }

  lemma SwitchAlways(s: State, w: nat)
    requires w < |s.workers| && s.workers[w].pc == Switching
    ensures Did(s, SwitchStep(s, w), w, Switch)
  {
    hide Me, TravelsRoute;
  }

  lemma WakeFull(s: State, w: nat)
    requires w < |s.workers| && s.workers[w].pc == Waking && |At(s, Hand(w))| == 1
    ensures Did(s, WakeStep(s, w), w, Wake)
  {
    assert At(s, Hand(w))[1..] == [];
    assert Travels(s, WakeStep(s, w), Hand(w), Deque(w));
  }

  lemma LockDecideFree(s: State, w: nat)
    requires w < |s.workers| && s.workers[w].pc.MtxIn? && !MutexOf(s, s.workers[w].pc.m).locked
    ensures Did(s, LockDecideStep(s, w), w, LockDecide)
  {
    hide MutexOf, At, Me, TravelsRoute;
  }

  lemma LockDecideTaken(s: State, w: nat)
    requires w < |s.workers| && s.workers[w].pc.MtxIn? && MutexOf(s, s.workers[w].pc.m).locked
    requires At(s, Current(w)) == [Me(s, w)]
    ensures Did(s, LockDecideStep(s, w), w, LockDecide)
  {
    hide MutexOf;
    assert At(s, Current(w))[1..] == [];
    assert Travels(s, LockDecideStep(s, w), Current(w), MutexQueue(s.workers[w].pc.m));
  }

  lemma UnlockPopAlone(s: State, w: nat)
    requires w < |s.workers| && s.workers[w].pc.UnlIn? && At(s, MutexQueue(s.workers[w].pc.m)) == []
    ensures Did(s, UnlockPopStep(s, w), w, UnlockPop)
  {
    hide MutexOf, At, TravelsRoute;
  }

  lemma UnlockPopWaited(s: State, w: nat)
    requires w < |s.workers| && s.workers[w].pc.UnlIn? && At(s, MutexQueue(s.workers[w].pc.m)) != []
    ensures Did(s, UnlockPopStep(s, w), w, UnlockPop)
  {
    hide MutexOf;
    assert Travels(s, UnlockPopStep(s, w), MutexQueue(s.workers[w].pc.m), Hand(w));
  }

  lemma SemDecrementCounted(s: State, w: nat)
    requires w < |s.workers| && s.workers[w].pc.SemIn? && s.workers[w].pc.x in s.sems
    ensures Did(s, SemDecrementStep(s, w), w, SemDecrement)
  {
    hide CountedDown, Me, TravelsRoute;
  }

  lemma SemAppendQueued(s: State, w: nat)
    requires w < |s.workers| && s.workers[w].pc.SemDec? && s.workers[w].pc.x in s.sems
    requires At(s, Current(w)) == [Me(s, w)]
    ensures Did(s, SemAppendStep(s, w), w, SemAppend)
  {
    assert At(s, Current(w))[1..] == [];
    assert Travels(s, SemAppendStep(s, w), Current(w), SemQueue(s.workers[w].pc.x));
  }

  lemma PostIncrementCounted(s: State, w: nat)
    requires w < |s.workers| && s.workers[w].pc.PostIn? && s.workers[w].pc.x in s.sems
    ensures Did(s, PostIncrementStep(s, w), w, PostIncrement)
  {
    hide TravelsRoute;
  }

  lemma PostPopNobody(s: State, w: nat)
    requires w < |s.workers| && s.workers[w].pc.PostInc? && s.workers[w].pc.x in s.sems
    requires (s.sems[s.workers[w].pc.x].count > 0 || At(s, SemQueue(s.workers[w].pc.x)) == [])
    ensures Did(s, PostPopStep(s, w), w, PostPop)
  {
    hide At, TravelsRoute;
  }

  lemma PostPopSomebody(s: State, w: nat)
    requires w < |s.workers| && s.workers[w].pc.PostInc? && s.workers[w].pc.x in s.sems
    requires s.sems[s.workers[w].pc.x].count <= 0 && At(s, SemQueue(s.workers[w].pc.x)) != []
    ensures Did(s, PostPopStep(s, w), w, PostPop)
  {
    assert Travels(s, PostPopStep(s, w), SemQueue(s.workers[w].pc.x), Hand(w));
  }

  lemma JoinDecideOut(s: State, w: nat, refused: bool)
    requires w < |s.workers| && s.workers[w].pc.JoinIn?
    requires (s.workers[w].pc.t in s.finished || refused || s.workers[w].pc.t == Me(s, w))
    ensures Did(s, JoinDecideStep(s, w, refused), w, JoinDecide(refused))
  {
    hide At, Me, TravelsRoute;
  }

  lemma JoinDecideWaits(s: State, w: nat, refused: bool)
    requires w < |s.workers| && s.workers[w].pc.JoinIn?
    requires !(s.workers[w].pc.t in s.finished || refused || s.workers[w].pc.t == Me(s, w))
    requires At(s, JoinSlot(s.workers[w].pc.t)) == [] && At(s, Current(w)) == [Me(s, w)]
    ensures Did(s, JoinDecideStep(s, w, refused), w, JoinDecide(refused))
  {
    assert At(s, Current(w))[1..] == [];
    assert Travels(s, JoinDecideStep(s, w, refused), Current(w), JoinSlot(s.workers[w].pc.t));
  }

  lemma ExitFinishAlone(s: State, w: nat)
    requires w < |s.workers| && s.workers[w].pc.ExitIn? && At(s, JoinSlot(s.workers[w].pc.t)) == []
    ensures Did(s, ExitFinishStep(s, w), w, ExitFinish)
  {
    hide At, TravelsRoute;
  }

  lemma ExitFinishJoined(s: State, w: nat)
    requires w < |s.workers| && s.workers[w].pc.ExitIn? && At(s, JoinSlot(s.workers[w].pc.t)) != []
    ensures Did(s, ExitFinishStep(s, w), w, ExitFinish)
  {
    assert Travels(s, ExitFinishStep(s, w), JoinSlot(s.workers[w].pc.t), Hand(w));
  }

  lemma ExitArmAlone(s: State, w: nat)
    requires w < |s.workers| && s.workers[w].pc == ExitOut && At(s, Hand(w)) == []
    ensures Did(s, ExitArmStep(s, w), w, ExitArm)
  {
    hide At, TravelsRoute;
  }

  lemma ExitArmJoined(s: State, w: nat)
    requires w < |s.workers| && s.workers[w].pc == ExitOut && |At(s, Hand(w))| == 1
    ensures Did(s, ExitArmStep(s, w), w, ExitArm)
  {
    assert At(s, Hand(w))[1..] == [];
    assert Travels(s, ExitArmStep(s, w), Hand(w), AfterArg(w));
  }

  lemma ExitLeaveAlways(s: State, w: nat)
    requires w < |s.workers| && s.workers[w].pc == ExitArmed
    ensures Did(s, ExitLeaveStep(s, w), w, ExitLeave)
  {
    hide Me, TravelsRoute;
  }

  lemma SigDecideHit(s: State, w: nat, mask: set<nat>, sig: nat)
    requires w < |s.workers| && s.workers[w].pc.SigIn? && Pending(s, s.workers[w].pc.t) * mask != {}
    requires IsLowest(sig, Pending(s, s.workers[w].pc.t) * mask)
    ensures Did(s, SigDecideStep(s, w, mask, sig), w, SigDecide(mask, sig))
  {
    hide Pending, IsLowest, TravelsRoute;
  }

  lemma SigDecideWaits(s: State, w: nat, mask: set<nat>, sig: nat)
    requires w < |s.workers| && s.workers[w].pc.SigIn? && Pending(s, s.workers[w].pc.t) * mask == {}
    requires At(s, Current(w)) == [Me(s, w)] && s.workers[w].pc.t == Me(s, w)
    ensures Did(s, SigDecideStep(s, w, mask, sig), w, SigDecide(mask, sig))
  {
    hide Pending, Me, IsLowest;
    assert At(s, Current(w))[1..] == [];
    assert Travels(s, SigDecideStep(s, w, mask, sig), Current(w), SigSlot(s.workers[w].pc.t));
  }

  lemma KillDeliverKept(s: State, w: nat)
    requires w < |s.workers| && s.workers[w].pc.KillIn?
    requires !(s.workers[w].pc.t in s.masks && s.workers[w].pc.sig in s.masks[s.workers[w].pc.t])
    ensures Did(s, KillDeliverStep(s, w), w, KillDeliver)
  {
    hide Pending, TravelsRoute;
  }

  lemma KillDeliverWakes(s: State, w: nat)
    requires w < |s.workers| && s.workers[w].pc.KillIn?
    requires (s.workers[w].pc.t in s.masks && s.workers[w].pc.sig in s.masks[s.workers[w].pc.t])
    requires At(s, SigSlot(s.workers[w].pc.t)) == [s.workers[w].pc.t]
    ensures Did(s, KillDeliverStep(s, w), w, KillDeliver)
  {
    hide Pending;
    assert At(s, SigSlot(s.workers[w].pc.t))[1..] == [];
    assert Travels(s, KillDeliverStep(s, w), SigSlot(s.workers[w].pc.t), Hand(w));
  }

  lemma TakeCbNothing(s: State, w: nat)
    requires w < |s.workers| && s.workers[w].pc == Loop && (s.workers[w].cb == NoCb || At(s, AfterArg(w)) == [])
    ensures Did(s, TakeCbStep(s, w), w, TakeCb)
  {
    hide At, TravelsRoute;
  }

  lemma TakeCbSomething(s: State, w: nat)
    requires w < |s.workers| && s.workers[w].pc == Loop && s.workers[w].cb != NoCb && |At(s, AfterArg(w))| == 1
    ensures Did(s, TakeCbStep(s, w), w, TakeCb)
  {
    assert At(s, AfterArg(w))[1..] == [];
    assert Travels(s, TakeCbStep(s, w), AfterArg(w), Hand(w));
  }

  lemma RunCbOwn(s: State, w: nat, v: nat)
    requires w < |s.workers| && s.workers[w].pc.InCb? && !s.workers[w].pc.c.Unlock? && |At(s, Hand(w))| == 1
    requires v < |s.workers| && s.workers[w].pc.c != NoCb && (s.workers[w].pc.c == WakeJoiner || v == w)
    ensures Did(s, RunCbStep(s, w, v), w, RunCb(v))
  {
    assert At(s, Hand(w))[1..] == [];
    assert Travels(s, RunCbStep(s, w, v), Hand(w), Deque(w));
  }

  lemma RunCbOther(s: State, w: nat, v: nat)
    requires w < |s.workers| && s.workers[w].pc.InCb? && !s.workers[w].pc.c.Unlock? && |At(s, Hand(w))| == 1
    requires v < |s.workers| && s.workers[w].pc.c == PushBalance && v != w
    ensures Did(s, RunCbStep(s, w, v), w, RunCb(v))
  {
    assert At(s, Hand(w))[1..] == [];
    assert Travels(s, RunCbStep(s, w, v), Hand(w), Injector(v));
  }

  lemma PopNothing(s: State, w: nat)
    requires w < |s.workers| && s.workers[w].pc == Popping && At(s, Deque(w)) == []
    ensures Did(s, PopStep(s, w), w, Pop)
  {
    hide At, TravelsRoute;
  }

  lemma PopSomething(s: State, w: nat)
    requires w < |s.workers| && s.workers[w].pc == Popping && At(s, Deque(w)) != []
    ensures Did(s, PopStep(s, w), w, Pop)
  {
    hide At, TravelsRoute;
  }

  lemma DrainNothing(s: State, w: nat)
    requires w < |s.workers| && s.workers[w].pc == Draining && At(s, Injector(w)) == []
    ensures Did(s, DrainStep(s, w), w, Drain)
  {
    hide At, TravelsRoute;
  }

  lemma DrainSomething(s: State, w: nat)
    requires w < |s.workers| && s.workers[w].pc == Draining && At(s, Injector(w)) != []
    ensures Did(s, DrainStep(s, w), w, Drain)
  {
    assert Travels(s, DrainStep(s, w), Injector(w), Hand(w));
  }

  lemma StealSomething(s: State, w: nat, v: nat)
    requires w < |s.workers| && s.workers[w].pc == Stealing && v != w && v < |s.workers| && At(s, Deque(v)) != []
    ensures Did(s, StealStep(s, w, v), w, Steal(v))
  {
    assert Travels(s, StealStep(s, w, v), Deque(v), Hand(w));
  }

  lemma GiveUpAlways(s: State, w: nat)
    requires w < |s.workers| && s.workers[w].pc == Stealing
    ensures Did(s, GiveUpStep(s, w), w, GiveUp)
  {
    hide TravelsRoute;
  }

  lemma RunFull(s: State, w: nat)
    requires w < |s.workers| && s.workers[w].pc == Got && |At(s, Hand(w))| == 1
    ensures Did(s, RunStep(s, w), w, Run)
  {
    assert At(s, Hand(w))[1..] == [];
    assert Travels(s, RunStep(s, w), Hand(w), Current(w));
  }

  lemma LoopIdle(s: State, w: nat, v: nat)
    requires w < |s.workers|
    ensures s.workers[w].pc != Popping ==> PopStep(s, w) == s
    ensures s.workers[w].pc != Draining ==> DrainStep(s, w) == s
    ensures (s.workers[w].pc != Stealing || v == w || v >= |s.workers| || At(s, Deque(v)) == []) ==>
              StealStep(s, w, v) == s
    ensures s.workers[w].pc != Stealing ==> GiveUpStep(s, w) == s
    ensures (s.workers[w].pc != Got || At(s, Hand(w)) == []) ==> RunStep(s, w) == s
    ensures s.workers[w].pc != Loop ==> TakeCbStep(s, w) == s
    ensures (!s.workers[w].pc.InCb? || s.workers[w].pc.c.Unlock? || At(s, Hand(w)) == [] || v >= |s.workers|) ==>
              RunCbStep(s, w, v) == s
  {
    hide At;
  }

  lemma StackIdle(s: State, w: nat)
    requires w < |s.workers|
    ensures s.workers[w].pc != User ==> CreateStep(s, w) == s
    ensures (s.workers[w].pc != CreateFlushed || At(s, Hand(w)) == []) ==> StashStep(s, w) == s
    ensures (s.workers[w].pc != Waking || At(s, Hand(w)) == []) ==> WakeStep(s, w) == s
    ensures s.workers[w].pc != YieldFlushed ==> ScheduleStep(s, w) == s
    ensures s.workers[w].pc != Switching ==> SwitchStep(s, w) == s
    ensures !ParkLock(s.workers[w].pc).Some? ==> ParkStep(s, w) == s
    ensures s.workers[w].pc != ExitArmed ==> ExitLeaveStep(s, w) == s
  {
    hide At, Me, ParkLock;
  }

  lemma ObjectIdle(s: State, w: nat)
    requires w < |s.workers|
    ensures (!s.workers[w].pc.SemIn? || s.workers[w].pc.x !in s.sems) ==> SemDecrementStep(s, w) == s
    ensures (!s.workers[w].pc.SemDec? || s.workers[w].pc.x !in s.sems) ==> SemAppendStep(s, w) == s
    ensures (!s.workers[w].pc.PostIn? || s.workers[w].pc.x !in s.sems) ==> PostIncrementStep(s, w) == s
    ensures (!s.workers[w].pc.PostInc? || s.workers[w].pc.x !in s.sems) ==> PostPopStep(s, w) == s
    ensures !s.workers[w].pc.MtxIn? ==> LockDecideStep(s, w) == s
    ensures !s.workers[w].pc.UnlIn? ==> UnlockPopStep(s, w) == s
  {
    hide At, Me, MutexOf, CountedDown;
  }

  lemma CallIdle(s: State, w: nat, pc: Pc, refused: bool, mask: set<nat>, sig: nat)
    requires w < |s.workers|
    ensures !Flushes(s.workers[w].pc, pc) ==> FlushLastStep(s, w, pc) == s
    ensures pc.JoinFlushed? && (pc.t >= s.nextTid || At(s, LastCreated(w)) == [pc.t]) ==> FlushLastStep(s, w, pc) == s
    ensures (!Enters(s, s.workers[w].pc, Me(s, w), pc) || LockOf(pc).None? || LockOf(pc).value in s.holder) ==>
              TakeSpinStep(s, w, pc) == s
    ensures (LockOf(s.workers[w].pc).None? || Dropped(s.workers[w].pc, At(s, Hand(w)) == []).None?) ==>
              DropSpinStep(s, w) == s
    ensures !s.workers[w].pc.JoinIn? ==> JoinDecideStep(s, w, refused) == s
    ensures s.workers[w].pc.JoinIn? && At(s, JoinSlot(s.workers[w].pc.t)) != [] &&
            !(s.workers[w].pc.t in s.finished || refused || s.workers[w].pc.t == Me(s, w)) ==>
              JoinDecideStep(s, w, refused) == s
    ensures !s.workers[w].pc.ExitIn? ==> ExitFinishStep(s, w) == s
    ensures s.workers[w].pc != ExitOut ==> ExitArmStep(s, w) == s
    ensures !s.workers[w].pc.SigIn? ==> SigDecideStep(s, w, mask, sig) == s
    ensures s.workers[w].pc.SigIn? && Pending(s, s.workers[w].pc.t) * mask != {} &&
            !IsLowest(sig, Pending(s, s.workers[w].pc.t) * mask) ==>
              SigDecideStep(s, w, mask, sig) == s
    ensures !s.workers[w].pc.KillIn? ==> KillDeliverStep(s, w) == s
  {
    hide At, Me, Pending, LockOf, Flush;
  }

  // ---------- Every step ----------

  /** What the invariant says about the slots and the running thread of worker `w`. */
  lemma Slots(s: State, w: nat)
    requires Inv(s) && w < |s.workers|
    ensures |At(s, Hand(w))| <= 1 && |At(s, LastCreated(w))| <= 1 && |At(s, AfterArg(w))| <= 1
    ensures OnUser(s.workers[w].pc) ==> At(s, Current(w)) == [Me(s, w)]
    ensures s.workers[w].pc.SigIn? ==> s.workers[w].pc.t == Me(s, w)
    ensures s.workers[w].pc.InCb? ==> s.workers[w].pc.c != NoCb
    ensures s.workers[w].pc.KillIn? && s.workers[w].pc.t in s.masks ==>
              At(s, SigSlot(s.workers[w].pc.t)) == [s.workers[w].pc.t]
  {
    hide AllMutexes, AllSems, AllThreads, Placed, Bounded, Holders, PhaseOk, HeldLock, Guards, WaitPlace;
    Known(s, w);
    hide Inv;
    if s.workers[w].pc.KillIn? && s.workers[w].pc.t in s.masks { AloneInSlot(s, s.workers[w].pc.t); }
  }

  ghost predicate DidOrStayed(s: State, s': State, w: nat, a: Act)
    requires w < |s.workers|
  {
    s' == s || Did(s, s', w, a)
  }

  lemma LoopDid(s: State, w: nat, v: nat)
    requires Inv(s) && w < |s.workers|
    ensures DidOrStayed(s, PopStep(s, w), w, Pop) && DidOrStayed(s, DrainStep(s, w), w, Drain)
    ensures DidOrStayed(s, StealStep(s, w, v), w, Steal(v)) && DidOrStayed(s, GiveUpStep(s, w), w, GiveUp)
    ensures DidOrStayed(s, RunStep(s, w), w, Run)
    ensures DidOrStayed(s, TakeCbStep(s, w), w, TakeCb) && DidOrStayed(s, RunCbStep(s, w, v), w, RunCb(v))
  {
    hide Inv, Did, At, PopStep, DrainStep, StealStep, GiveUpStep, RunStep, TakeCbStep, RunCbStep;
    Slots(s, w);
    LoopIdle(s, w, v);
    var k := s.workers[w];
    match k.pc {
      case Popping => if At(s, Deque(w)) == [] { PopNothing(s, w); } else { PopSomething(s, w); }
      case Draining => if At(s, Injector(w)) == [] { DrainNothing(s, w); } else { DrainSomething(s, w); }
      case Stealing =>
        GiveUpAlways(s, w);
        if v != w && v < |s.workers| && At(s, Deque(v)) != [] { StealSomething(s, w, v); }
      case Got => if At(s, Hand(w)) != [] { RunFull(s, w); }
      case Loop =>
        if k.cb == NoCb || At(s, AfterArg(w)) == [] { TakeCbNothing(s, w); } else { TakeCbSomething(s, w); }
      case InCb(c) => 
        if !c.Unlock? && At(s, Hand(w)) != [] && v < |s.workers| {
          if c == WakeJoiner || v == w { RunCbOwn(s, w, v); } else { RunCbOther(s, w, v); }
        }
      case _ =>
    }
  }

  lemma StackDid(s: State, w: nat)
    requires Inv(s) && w < |s.workers|
    ensures DidOrStayed(s, CreateStep(s, w), w, Create) && DidOrStayed(s, StashStep(s, w), w, Stash)
    ensures DidOrStayed(s, WakeStep(s, w), w, Wake) && DidOrStayed(s, ScheduleStep(s, w), w, Schedule)
    ensures DidOrStayed(s, SwitchStep(s, w), w, Switch) && DidOrStayed(s, ParkStep(s, w), w, Park)
    ensures DidOrStayed(s, ExitLeaveStep(s, w), w, ExitLeave)
  {
    hide Inv, Did, At, Me, CreateStep, StashStep, WakeStep, ScheduleStep, SwitchStep, ParkStep, ExitLeaveStep;
    Slots(s, w);
    StackIdle(s, w);
    match s.workers[w].pc {
      case User => CreateAlways(s, w);
      case CreateFlushed => if At(s, Hand(w)) != [] { StashFull(s, w); }
      case Waking => if At(s, Hand(w)) != [] { WakeFull(s, w); }
      case YieldFlushed => ScheduleRunning(s, w);
      case Switching => SwitchAlways(s, w);
      case ExitArmed => ExitLeaveAlways(s, w);
      case pc => if ParkLock(pc).Some? { ParkQueued(s, w); }
    }
  }

  lemma ObjectDid(s: State, w: nat)
    requires Inv(s) && w < |s.workers|
    ensures DidOrStayed(s, SemDecrementStep(s, w), w, SemDecrement) && DidOrStayed(s, SemAppendStep(s, w), w, SemAppend)
    ensures DidOrStayed(s, PostIncrementStep(s, w), w, PostIncrement) && DidOrStayed(s, PostPopStep(s, w), w, PostPop)
    ensures DidOrStayed(s, LockDecideStep(s, w), w, LockDecide) && DidOrStayed(s, UnlockPopStep(s, w), w, UnlockPop)
  {
    hide Inv, Did, At, Me, MutexOf, SemDecrementStep, SemAppendStep, PostIncrementStep, PostPopStep, LockDecideStep,
         UnlockPopStep;
    Slots(s, w);
    ObjectIdle(s, w);
    match s.workers[w].pc {
      case SemIn(x) => if x in s.sems { SemDecrementCounted(s, w); }
      case SemDec(x) => if x in s.sems { SemAppendQueued(s, w); }
      case PostIn(x) => if x in s.sems { PostIncrementCounted(s, w); }
      case PostInc(x) =>
        if x in s.sems {
          if s.sems[x].count > 0 || At(s, SemQueue(x)) == [] { PostPopNobody(s, w); } else { PostPopSomebody(s, w); }
        }
      case MtxIn(m) => if MutexOf(s, m).locked { LockDecideTaken(s, w); } else { LockDecideFree(s, w); }
      case UnlIn(m) => if At(s, MutexQueue(m)) == [] { UnlockPopAlone(s, w); } else { UnlockPopWaited(s, w); }
      case _ =>
    }
  }

  lemma SpinDid(s: State, w: nat, pc: Pc)
    requires Inv(s) && w < |s.workers|
    ensures DidOrStayed(s, TakeSpinStep(s, w, pc), w, TakeSpin(pc)) && DidOrStayed(s, DropSpinStep(s, w), w, DropSpin)
    ensures DidOrStayed(s, FlushLastStep(s, w, pc), w, FlushLast(pc))
  {
    hide Inv, Did, At, Me, LockOf, TakeSpinStep, DropSpinStep, FlushLastStep;
    Slots(s, w);
    CallIdle(s, w, pc, false, {}, 0);
    var k := s.workers[w];
    if Enters(s, k.pc, Me(s, w), pc) && LockOf(pc).Some? && LockOf(pc).value !in s.holder { TakeSpinFree(s, w, pc); }
    if LockOf(k.pc).Some? && Dropped(k.pc, At(s, Hand(w)) == []).Some? { DropSpinHeld(s, w); }
    if Flushes(k.pc, pc) && !(pc.JoinFlushed? && (pc.t >= s.nextTid || At(s, LastCreated(w)) == [pc.t])) {
      if At(s, LastCreated(w)) == [] { FlushLastNothing(s, w, pc); } else { FlushLastSomething(s, w, pc); }
    }
  }

  lemma JoinDid(s: State, w: nat, refused: bool)
    requires Inv(s) && w < |s.workers|
    ensures DidOrStayed(s, JoinDecideStep(s, w, refused), w, JoinDecide(refused))
    ensures DidOrStayed(s, ExitFinishStep(s, w), w, ExitFinish) && DidOrStayed(s, ExitArmStep(s, w), w, ExitArm)
  {
    hide Inv, Did, At, Me, JoinDecideStep, ExitFinishStep, ExitArmStep;
    Slots(s, w);
    CallIdle(s, w, User, refused, {}, 0);
    match s.workers[w].pc {
      case JoinIn(t) =>
        if t in s.finished || refused || t == Me(s, w) { JoinDecideOut(s, w, refused); }
        else if At(s, JoinSlot(t)) == [] { JoinDecideWaits(s, w, refused); }
      case ExitIn(t) => if At(s, JoinSlot(t)) == [] { ExitFinishAlone(s, w); } else { ExitFinishJoined(s, w); }
      case ExitOut => if At(s, Hand(w)) == [] { ExitArmAlone(s, w); } else { ExitArmJoined(s, w); }
      case _ =>
    }
  }

  lemma SignalDid(s: State, w: nat, mask: set<nat>, sig: nat)
    requires Inv(s) && w < |s.workers|
    ensures DidOrStayed(s, SigDecideStep(s, w, mask, sig), w, SigDecide(mask, sig))
    ensures DidOrStayed(s, KillDeliverStep(s, w), w, KillDeliver)
  {
    hide Inv, Did, At, Me, Pending, IsLowest, SigDecideStep, KillDeliverStep;
    Slots(s, w);
    CallIdle(s, w, User, false, mask, sig);
    match s.workers[w].pc {
      case SigIn(t) =>
        if Pending(s, t) * mask == {} { SigDecideWaits(s, w, mask, sig); }
        else if IsLowest(sig, Pending(s, t) * mask) { SigDecideHit(s, w, mask, sig); }
      case KillIn(t, y) =>
        if t in s.masks && y in s.masks[t] { KillDeliverWakes(s, w); } else { KillDeliverKept(s, w); }
      case _ =>
    }
  }

  /** Every step of every worker changes nothing, or only what its action may touch, and moves at
      most one thread, along a route. */
  lemma StepDid(s: State, w: nat, a: Act)
    requires Inv(s) && w < |s.workers|
    ensures DidOrStayed(s, Do(s, w, a), w, a)
  {
    hide Inv, DidOrStayed, PopStep, DrainStep, TakeCbStep, RunCbStep, StealStep, GiveUpStep, RunStep, CreateStep;
    hide StashStep, WakeStep, ScheduleStep, ParkStep, SwitchStep, ExitLeaveStep, TakeSpinStep, DropSpinStep;
    hide FlushLastStep, LockDecideStep, UnlockPopStep, SemDecrementStep, SemAppendStep, PostIncrementStep;
    hide PostPopStep, JoinDecideStep, ExitFinishStep, ExitArmStep, SigDecideStep, KillDeliverStep;
    match a {
      case FlushLast(pc) => SpinDid(s, w, pc);
      case TakeSpin(pc) => SpinDid(s, w, pc);
      case DropSpin => SpinDid(s, w, User);
      case JoinDecide(refused) => JoinDid(s, w, refused);
      case ExitFinish => JoinDid(s, w, false);
      case ExitArm => JoinDid(s, w, false);
      case SigDecide(mask, sig) => SignalDid(s, w, mask, sig);
      case KillDeliver => SignalDid(s, w, {}, 0);
      case RunCb(v) => LoopDid(s, w, v);
      case Steal(v) => LoopDid(s, w, v);
      case Pop => LoopDid(s, w, w);
      case Drain => LoopDid(s, w, w);
      case GiveUp => LoopDid(s, w, w);
      case Run => LoopDid(s, w, w);
      case TakeCb => LoopDid(s, w, w);
      case SemDecrement => ObjectDid(s, w);
      case SemAppend => ObjectDid(s, w);
      case PostIncrement => ObjectDid(s, w);
      case PostPop => ObjectDid(s, w);
      case LockDecide => ObjectDid(s, w);
      case UnlockPop => ObjectDid(s, w);
      case _ => StackDid(s, w);
    }
  }
}
