/** What the calls of the M:N build do for the threads that make them, in every reachable state and
    whatever the other workers do: a wait that goes on was granted, an unlock gives the mutex away,
    nobody leaves a queue except by being woken, no signal is dropped, deques and injectors keep
    their discipline, and no worker is ever stuck.

    The lemmas about one call are keyed by the point of the code where it decides. That nothing
    else can happen there is WorkersShape.StepDid. */
module WorkersMeaning {
  import opened Basics
  import opened Workers
  import opened WorkersInv
  import opened WorkersSteps
  import opened WorkersCalls
  import opened WorkersLife
  import opened WorkersShape
  import opened WorkersRuns

  /** Worker `w` leaves the point of the code where it stands. */
  predicate Leaves(s: State, s': State, w: nat) {
    w < |s.workers| && w < |s'.workers| && s'.workers[w].pc != s.workers[w].pc
  }

  /** At these points of the code only one action is possible. */
  lemma OnlyOne(pc: Pc, a: Act)
    requires Applies(pc, a)
    ensures match pc
            case MtxIn(_) => a == LockDecide
            case UnlIn(_) => a == UnlockPop
            case SemIn(_) => a == SemDecrement
            case SemDec(_) => a == SemAppend
            case PostIn(_) => a == PostIncrement
            case PostInc(_) => a == PostPop
            case ExitIn(_) => a == ExitFinish
            case KillIn(_, _) => a == KillDeliver
            case Creating => a == FlushLast(CreateFlushed)
            case CreateFlushed => a == Stash
            case _ => true
  {
  }

  /** So a step that leads on from there is that one. */
  ghost predicate Decided(s: State, s': State, w: nat)
    requires w < |s.workers|
  {
    match s.workers[w].pc
    case MtxIn(_) => s' == LockDecideStep(s, w)
    case UnlIn(_) => s' == UnlockPopStep(s, w)
    case SemIn(_) => s' == SemDecrementStep(s, w)
    case SemDec(_) => s' == SemAppendStep(s, w)
    case PostIn(_) => s' == PostIncrementStep(s, w)
    case PostInc(_) => s' == PostPopStep(s, w)
    case ExitIn(_) => s' == ExitFinishStep(s, w)
    case KillIn(_, _) => s' == KillDeliverStep(s, w)
    case Creating => s' == FlushLastStep(s, w, CreateFlushed)
    case CreateFlushed => s' == StashStep(s, w)
    case _ => true
  }

  lemma Decider(s: State, w: nat, a: Act)
    requires w < |s.workers| && Did(s, Do(s, w, a), w, a)
    ensures Decided(s, Do(s, w, a), w)
  {
    hide Moves, GoesTo, LockDecideStep, UnlockPopStep, SemDecrementStep, SemAppendStep, PostIncrementStep, PostPopStep;
    hide ExitFinishStep, KillDeliverStep, StashStep, FlushLastStep;
    OnlyOne(s.workers[w].pc, a);
    hide Applies;
    match s.workers[w].pc {
      case MtxIn(_) => case UnlIn(_) => case SemIn(_) => case SemDec(_) => case PostIn(_) => case PostInc(_) =>
      case ExitIn(_) => case KillIn(_, _) => case Creating => case CreateFlushed => case _ =>
    }
  }

  /** A step that leads on, as the lemmas below use it. */
  lemma LeadsOn(s: State, w: nat, a: Act)
    requires Reachable(s) && w < |s.workers| && Leaves(s, Do(s, w, a), w)
    ensures Inv(s) && Did(s, Do(s, w, a), w, a) && Decided(s, Do(s, w, a), w)
  {
    hide Reachable, Inv, Did, Do, Decided;
    Reached(s);
    StepDid(s, w, a);
    Decider(s, w, a);
  }

  // ---------- Semaphores ----------

  /** thread_sem_wait: a wait goes on at once exactly if the count was at least 1, and is then
      counted and granted; otherwise it is counted and the thread must queue. */
  ghost predicate WaitCounted(s: State, s': State, w: nat, x: nat)
    requires w < |s.workers| && |s'.workers| == |s.workers|
  {
    && x in s.sems && x in s'.sems
    && var y, z, me := s.sems[x], s'.sems[x], Me(s, w);
       && s'.workers[w].pc == (if y.count >= 1 then SemOut(x) else SemDec(x))
       && z.count == y.count - 1 && z.arrived == y.arrived + [me] && z.posts == y.posts && z.init == y.init
       && z.granted == (if y.count >= 1 then y.granted + [me] else y.granted)
  }

  lemma WaitGranted(s: State, w: nat, a: Act, x: nat)
    requires Reachable(s) && w < |s.workers| && s.workers[w].pc == SemIn(x) && Leaves(s, Do(s, w, a), w)
    ensures |Do(s, w, a).workers| == |s.workers| && WaitCounted(s, Do(s, w, a), w, x)
  {
    hide Reachable, Inv, Did, Do, SemDecrementStep, WaitCounted;
    LeadsOn(s, w, a);
    InSem(s, w, x);
    Decrements(s, w, x);
  }

  lemma Decrements(s: State, w: nat, x: nat)
    requires w < |s.workers| && s.workers[w].pc == SemIn(x) && x in s.sems
    ensures var s' := SemDecrementStep(s, w); |s'.workers| == |s.workers| && WaitCounted(s, s', w, x)
  {
    hide Me;
  }

  /** ... and it queues before anything else: it is last in the queue and stays off every deque until
      a post takes it out (`WokenOnly`). */
  lemma WaitQueues(s: State, w: nat, a: Act, x: nat)
    requires Reachable(s) && w < |s.workers| && s.workers[w].pc == SemDec(x) && Leaves(s, Do(s, w, a), w)
    ensures |Do(s, w, a).workers| == |s.workers| && Do(s, w, a).workers[w].pc == SemQueued(x)
    ensures At(Do(s, w, a), SemQueue(x)) == At(s, SemQueue(x)) + [Me(s, w)]
  {
    hide Reachable, Inv, Did, Do, SemAppendStep;
    LeadsOn(s, w, a);
    InSem(s, w, x);
    Appends(s, w, x);
  }

  lemma Appends(s: State, w: nat, x: nat)
    requires w < |s.workers| && s.workers[w].pc == SemDec(x) && x in s.sems
    ensures var s' := SemAppendStep(s, w);
            && |s'.workers| == |s.workers| && s'.workers[w].pc == SemQueued(x)
            && At(s', SemQueue(x)) == At(s, SemQueue(x)) + [Me(s, w)]
  {
  }

  /** thread_sem_post, first half: every post is counted. */
  lemma PostCounted(s: State, w: nat, a: Act, x: nat)
    requires Reachable(s) && w < |s.workers| && s.workers[w].pc == PostIn(x) && Leaves(s, Do(s, w, a), w)
    ensures |Do(s, w, a).workers| == |s.workers| && Do(s, w, a).workers[w].pc == PostInc(x)
    ensures x in s.sems && x in Do(s, w, a).sems
    ensures var y, z := s.sems[x], Do(s, w, a).sems[x];
            z.posts == y.posts + 1 && z.count == y.count + 1 && z.granted == y.granted && z.arrived == y.arrived
  {
    hide Reachable, Inv, Did, Do, PostIncrementStep;
    LeadsOn(s, w, a);
    InSem(s, w, x);
    Increments(s, w, x);
  }

  lemma Increments(s: State, w: nat, x: nat)
    requires w < |s.workers| && s.workers[w].pc == PostIn(x) && x in s.sems
    ensures var s' := PostIncrementStep(s, w);
            && |s'.workers| == |s.workers| && s'.workers[w].pc == PostInc(x) && x in s'.sems
            && var y, z := s.sems[x], s'.sems[x];
               z.posts == y.posts + 1 && z.count == y.count + 1 && z.granted == y.granted && z.arrived == y.arrived
  {
  }

  /** Second half: the post grants the wait of the first in the queue exactly if the count is not
      positive, and then that thread is in the worker's hands. */
  ghost predicate PostGranted(s: State, s': State, w: nat, x: nat)
    requires w < |s.workers| && |s'.workers| == |s.workers|
  {
    && s'.workers[w].pc == PostOut(x) && x in s.sems && x in s'.sems
    && var y, z, q := s.sems[x], s'.sems[x], At(s, SemQueue(x));
       && z.posts == y.posts && z.count == y.count && (q != [] <==> y.count <= 0)
       && if y.count <= 0 then z.granted == y.granted + [q[0]] && At(s', Hand(w)) == [q[0]]
          else z.granted == y.granted && At(s', Hand(w)) == []
  }

  lemma PostGrants(s: State, w: nat, a: Act, x: nat)
    requires Reachable(s) && w < |s.workers| && s.workers[w].pc == PostInc(x) && Leaves(s, Do(s, w, a), w)
    ensures |Do(s, w, a).workers| == |s.workers| && PostGranted(s, Do(s, w, a), w, x)
  {
    hide Reachable, Inv, Did, Do, PostPopStep, PostGranted;
    LeadsOn(s, w, a);
    HandEmpty(s, w);
    InSem(s, w, x);
    if s.sems[x].count <= 0 { Grants(s, w, x); } else { GrantsNone(s, w, x); }
  }

  lemma Grants(s: State, w: nat, x: nat)
    requires w < |s.workers| && s.workers[w].pc == PostInc(x) && x in s.sems && s.sems[x].count <= 0
    requires At(s, Hand(w)) == [] && At(s, SemQueue(x)) != []
    ensures var s' := PostPopStep(s, w); |s'.workers| == |s.workers| && PostGranted(s, s', w, x)
  {
  }

  lemma GrantsNone(s: State, w: nat, x: nat)
    requires w < |s.workers| && s.workers[w].pc == PostInc(x) && x in s.sems && s.sems[x].count > 0
    requires At(s, Hand(w)) == [] && At(s, SemQueue(x)) == []
    ensures var s' := PostPopStep(s, w); |s'.workers| == |s.workers| && PostGranted(s, s', w, x)
  {
  }

  lemma HandEmpty(s: State, w: nat)
    requires Inv(s) && w < |s.workers| && !HandFull(s.workers[w].pc) && !HandMaybe(s.workers[w].pc)
    ensures At(s, Hand(w)) == []
  {
    hide AllMutexes, AllSems, AllThreads, Placed, Bounded, Holders;
    Known(s, w);
  }

  // ---------- Mutexes ----------

  /** thread_mutex_lock: a free mutex becomes the caller's, at a locked one it is last in line. */
  ghost predicate LockDid(s: State, s': State, w: nat, m: nat)
    requires w < |s.workers| && |s'.workers| == |s.workers|
  {
    var x, z, me := MutexOf(s, m), MutexOf(s', m), Me(s, w);
    if x.locked then
      && s'.workers[w].pc == MtxQueued(m) && At(s', MutexQueue(m)) == At(s, MutexQueue(m)) + [me]
      && z.locked && z.owner == x.owner && z.granted == x.granted
    else s'.workers[w].pc == MtxOut(m) && z.locked && z.owner == Some(me) && z.granted == x.granted + [me]
  }

  lemma LockDecides(s: State, w: nat, a: Act, m: nat)
    requires Reachable(s) && w < |s.workers| && s.workers[w].pc == MtxIn(m) && Leaves(s, Do(s, w, a), w)
    ensures |Do(s, w, a).workers| == |s.workers| && LockDid(s, Do(s, w, a), w, m)
  {
    hide Reachable, Inv, Did, Do, LockDecideStep, LockDid;
    LeadsOn(s, w, a);
    if MutexOf(s, m).locked { LockQueues(s, w, m); } else { LockOwns(s, w, m); }
  }

  lemma LockQueues(s: State, w: nat, m: nat)
    requires w < |s.workers| && s.workers[w].pc == MtxIn(m) && MutexOf(s, m).locked
    ensures var s' := LockDecideStep(s, w); |s'.workers| == |s.workers| && LockDid(s, s', w, m)
  {
  }

  lemma LockOwns(s: State, w: nat, m: nat)
    requires w < |s.workers| && s.workers[w].pc == MtxIn(m) && !MutexOf(s, m).locked
    ensures var s' := LockDecideStep(s, w); |s'.workers| == |s.workers| && LockDid(s, s', w, m)
  {
    hide Me, At;
  }

  /** thread_mutex_unlock: nobody waits and the mutex is free, or it belongs to the first in line,
      who is in the hands of the worker. */
  ghost predicate UnlockDid(s: State, s': State, w: nat, m: nat)
    requires w < |s.workers| && |s'.workers| == |s.workers|
  {
    var z, q := MutexOf(s', m), At(s, MutexQueue(m));
    && s'.workers[w].pc == UnlOut(m) && z.owner != Some(Me(s, w))
    && if q == [] then !z.locked && z.owner == None && At(s', Hand(w)) == []
       else z.locked && z.owner == Some(q[0]) && At(s', Hand(w)) == [q[0]] && At(s', MutexQueue(m)) == q[1..]
  }

  lemma UnlockReleases(s: State, w: nat, a: Act, m: nat)
    requires Reachable(s) && w < |s.workers| && s.workers[w].pc == UnlIn(m) && Leaves(s, Do(s, w, a), w)
    ensures |Do(s, w, a).workers| == |s.workers| && UnlockDid(s, Do(s, w, a), w, m)
  {
    hide Reachable, Inv, Did, Do, UnlockPopStep, UnlockDid;
    LeadsOn(s, w, a);
    HandEmpty(s, w);
    MutexLocked(s, w, m);
    if At(s, MutexQueue(m)) == [] { UnlockFrees(s, w, m); } else { UnlockHands(s, w, m); }
  }

  lemma UnlockFrees(s: State, w: nat, m: nat)
    requires w < |s.workers| && s.workers[w].pc == UnlIn(m) && At(s, MutexQueue(m)) == [] && At(s, Hand(w)) == []
    ensures var s' := UnlockPopStep(s, w); |s'.workers| == |s.workers| && UnlockDid(s, s', w, m)
  {
    hide Me;
  }

  lemma UnlockHands(s: State, w: nat, m: nat)
    requires w < |s.workers| && s.workers[w].pc == UnlIn(m) && At(s, MutexQueue(m)) != [] && At(s, Hand(w)) == []
    requires MutexOf(s, m).locked && Me(s, w) !in At(s, MutexQueue(m))
    ensures var s' := UnlockPopStep(s, w); |s'.workers| == |s.workers| && UnlockDid(s, s', w, m)
  {
    hide Me;
    assert At(s, MutexQueue(m))[0] in At(s, MutexQueue(m));
  }

  lemma MutexLocked(s: State, w: nat, m: nat)
    requires Inv(s) && w < |s.workers| && s.workers[w].pc == UnlIn(m)
    ensures MutexOf(s, m).locked && Me(s, w) !in At(s, MutexQueue(m))
  {
    hide Inv;
    InMutex(s, w, m);
    Facts(s, w);
    assert MutexOk(s, m);
    AtHome(s, w);
    if Me(s, w) in At(s, MutexQueue(m)) { NotQueued(s, Me(s, w), MutexQueue(m)); }
  }

  lemma NotQueued(s: State, t: Tid, p: Place)
    requires Inv(s) && t in At(s, p)
    ensures t in s.home && s.home[t] == p
  {
    hide AllWorkers, AllThreads, AllMutexes, AllSems, Bounded, Holders;
    assert PlaceOk(s, p);
  }

  /** Between the decision and the end of an unlock the mutex is not the caller's any more, and
      between the decision and the end of a lock it is. */
  lemma OwnershipInCalls(s: State, w: nat, m: nat)
    requires Reachable(s) && w < |s.workers|
    ensures s.workers[w].pc == UnlOut(m) ==> s.workers[w].stack.Some? && MutexOf(s, m).owner != s.workers[w].stack
    ensures s.workers[w].pc == MtxOut(m) || s.workers[w].pc == UnlIn(m) ==>
              MutexOf(s, m).locked && s.workers[w].stack.Some? && MutexOf(s, m).owner == s.workers[w].stack
  {
    hide Reachable, Inv, HandOff;
    Reached(s);
    Facts(s, w);
    assert MutexOk(s, m) by { hide PhaseOk; }
    OwnedIsLocked(s, m);
  }

  lemma OwnedIsLocked(s: State, m: nat)
    requires MutexOk(s, m)
    ensures MutexOf(s, m).owner.Some? ==> MutexOf(s, m).locked
  {
  }

  // ---------- Leaving a queue ----------

  /** Who is taken out of a queue: the first, into the hands of the worker, and for a reason. */
  ghost predicate Woken(s: State, s': State, w: nat, p: Place) {
    && w < |s.workers| && At(s, p) != [] && At(s', p) == At(s, p)[1..] && At(s', Hand(w)) == [At(s, p)[0]]
    && var t, pc := At(s, p)[0], s.workers[w].pc;
       match p
       case MutexQueue(m) => pc == UnlIn(m) && MutexOf(s', m).owner == Some(t)
       case SemQueue(x) =>
         pc == PostInc(x) && x in s.sems && x in s'.sems && s'.sems[x].granted == s.sems[x].granted + [t]
       case JoinSlot(u) => pc == ExitIn(u) && u in s'.finished
       case SigSlot(u) => pc.KillIn? && pc.t == u == t && t in s.masks && pc.sig in s.masks[t] && t !in s'.masks
       case _ => false
  }

  /** The only way out of a mutex, a semaphore, a join or a wait for a signal is to be given the mutex,
      to be granted the wait, that the joined thread finishes, or that the signal comes. */
  lemma WokenOnly(s: State, w: nat, a: Act, t: Tid, p: Place)
    requires Reachable(s) && w < |s.workers| && Waiting(p) && t in At(s, p)
    ensures t in At(Do(s, w, a), p) || Woken(s, Do(s, w, a), w, p)
  {
    hide Reachable, Inv, Do, Touches, Woken;
    Reached(s);
    StepDid(s, w, a);
    var s' := Do(s, w, a);
    if s' != s && t !in At(s', p) {
      LeftByRoute(s, s', w, t, p);
      TakenBy(s, w, a, p);
    }
  }

  lemma LeftByRoute(s: State, s': State, w: nat, t: Tid, p: Place)
    requires w < |s.workers| && Moves(s, s', w) && Waiting(p) && t in At(s, p) && t !in At(s', p)
    ensures Route(s.workers[w].pc, w, p, Hand(w)) && Travels(s, s', p, Hand(w))
  {
    if TravelsRoute(s, s', w) {
      var p0, q :| Route(s.workers[w].pc, w, p0, q) && Travels(s, s', p0, q);
      assert p0 == p;
    }
  }

  lemma TakenBy(s: State, w: nat, a: Act, p: Place)
    requires Inv(s) && w < |s.workers| && Waiting(p) && Did(s, Do(s, w, a), w, a)
    requires Route(s.workers[w].pc, w, p, Hand(w)) && Travels(s, Do(s, w, a), p, Hand(w))
    ensures Woken(s, Do(s, w, a), w, p)
  {
    hide Inv, Moves, Touches, Do, Woken, Decided;
    HandAtRoute(s, w, p);
    var s' := Do(s, w, a);
    assert At(s', p) == At(s, p)[1..] && At(s', Hand(w)) == [At(s, p)[0]];
    Decider(s, w, a);
    Reason(s, s', w, p);
  }

  lemma HandAtRoute(s: State, w: nat, p: Place)
    requires Inv(s) && w < |s.workers| && Waiting(p) && Route(s.workers[w].pc, w, p, Hand(w))
    ensures At(s, Hand(w)) == []
  {
    hide Inv;
    HandEmpty(s, w);
  }

  lemma Reason(s: State, s': State, w: nat, p: Place)
    requires Inv(s) && w < |s.workers| && Waiting(p) && Route(s.workers[w].pc, w, p, Hand(w)) && Decided(s, s', w)
    requires Travels(s, s', p, Hand(w)) && At(s', p) == At(s, p)[1..] && At(s', Hand(w)) == [At(s, p)[0]]
    ensures Woken(s, s', w, p)
  {
    hide Inv, UnlockPopStep, PostPopStep, ExitFinishStep, KillDeliverStep;
    match p {
      case MutexQueue(m) => UnlockTakes(s, w, m);
      case SemQueue(x) => PostTakes(s, w, x);
      case JoinSlot(u) => ExitTakes(s, w, u);
      case SigSlot(u) => KillTakes(s, w, u);
    }
  }

  lemma UnlockTakes(s: State, w: nat, m: nat)
    requires w < |s.workers| && s.workers[w].pc == UnlIn(m) && At(s, MutexQueue(m)) != []
    ensures MutexOf(UnlockPopStep(s, w), m).owner == Some(At(s, MutexQueue(m))[0])
  {
  }

  lemma PostTakes(s: State, w: nat, x: nat)
    requires w < |s.workers| && s.workers[w].pc == PostInc(x)
    requires Travels(s, PostPopStep(s, w), SemQueue(x), Hand(w))
    ensures x in s.sems && x in PostPopStep(s, w).sems
    ensures PostPopStep(s, w).sems[x].granted == s.sems[x].granted + [At(s, SemQueue(x))[0]]
  {
    var s' := PostPopStep(s, w);
    assert At(s', SemQueue(x)) == At(s, SemQueue(x))[1..];
    assert s' != s;
  }

  lemma ExitTakes(s: State, w: nat, u: Tid)
    requires w < |s.workers| && s.workers[w].pc == ExitIn(u)
    ensures u in ExitFinishStep(s, w).finished
  {
  }

  lemma KillTakes(s: State, w: nat, u: Tid)
    requires Inv(s) && w < |s.workers| && s.workers[w].pc.KillIn? && s.workers[w].pc.t == u
    requires Travels(s, KillDeliverStep(s, w), SigSlot(u), Hand(w))
    ensures At(s, SigSlot(u))[0] == u && u in s.masks && s.workers[w].pc.sig in s.masks[u]
    ensures u !in KillDeliverStep(s, w).masks
  {
    hide Inv;
    var s' := KillDeliverStep(s, w);
    assert At(s', SigSlot(u)) == At(s, SigSlot(u))[1..];
    if u in s.masks { AloneInSlot(s, u); }
  }

  // ---------- Deques and injectors ----------

  /** A deque is a stack for its owner and a queue for everybody else: the owner adds and takes at the
      end, others take at the front. */
  lemma DequeDiscipline(s: State, w: nat, a: Act, v: nat)
    requires Reachable(s) && w < |s.workers|
    ensures var d, d', s' := At(s, Deque(v)), At(Do(s, w, a), Deque(v)), Do(s, w, a);
            || d' == d
            || (v == w && d' != [] && d'[..|d'| - 1] == d)
            || (v == w && d != [] && d' == d[..|d| - 1] && At(s', Hand(w)) == [d[|d| - 1]])
            || (v != w && d != [] && d' == d[1..] && At(s', Hand(w)) == [d[0]])
  {
    hide Reachable, Inv, Do, Touches;
    Reached(s);
    StepDid(s, w, a);
    HandBefore(s, w);
    if Do(s, w, a) != s { DequeMoves(s, Do(s, w, a), w, v); }
  }

  lemma HandBefore(s: State, w: nat)
    requires Inv(s) && w < |s.workers|
    ensures s.workers[w].pc.Popping? || s.workers[w].pc.Draining? || s.workers[w].pc.Stealing? ==> At(s, Hand(w)) == []
  {
    hide Inv;
    if s.workers[w].pc.Popping? || s.workers[w].pc.Draining? || s.workers[w].pc.Stealing? { HandEmpty(s, w); }
  }

  lemma DequeMoves(s: State, s': State, w: nat, v: nat)
    requires w < |s.workers| && Moves(s, s', w)
    requires s.workers[w].pc.Popping? || s.workers[w].pc.Stealing? ==> At(s, Hand(w)) == []
    ensures var d, d' := At(s, Deque(v)), At(s', Deque(v));
            || d' == d
            || (v == w && d' != [] && d'[..|d'| - 1] == d)
            || (v == w && d != [] && d' == d[..|d| - 1] && At(s', Hand(w)) == [d[|d| - 1]])
            || (v != w && d != [] && d' == d[1..] && At(s', Hand(w)) == [d[0]])
  {
    if TravelsRoute(s, s', w) {
      var p, q :| Route(s.workers[w].pc, w, p, q) && Travels(s, s', p, q);
      DequeTravels(s, s', w, v, p, q);
    }
  }

  lemma DequeTravels(s: State, s': State, w: nat, v: nat, p: Place, q: Place)
    requires w < |s.workers| && Route(s.workers[w].pc, w, p, q) && Travels(s, s', p, q)
    requires s.workers[w].pc.Stealing? ==> At(s, Hand(w)) == []
    ensures var d, d' := At(s, Deque(v)), At(s', Deque(v));
            || d' == d
            || (v == w && d' != [] && d'[..|d'| - 1] == d)
            || (v != w && d != [] && d' == d[1..] && At(s', Hand(w)) == [d[0]])
  {
  }

  /** An injector is a queue: other workers add a thread that yielded, at the end, and the owner takes
      the one that has been there longest. */
  lemma InjectorDiscipline(s: State, w: nat, a: Act, v: nat)
    requires Reachable(s) && w < |s.workers|
    ensures var d, d', s' := At(s, Injector(v)), At(Do(s, w, a), Injector(v)), Do(s, w, a);
            || d' == d
            || (v != w && s.workers[w].pc == InCb(PushBalance) && d' == d + At(s, Hand(w)) && |At(s, Hand(w))| == 1)
            || (v == w && d != [] && d' == d[1..] && At(s', Hand(w)) == [d[0]])
  {
    hide Reachable, Inv, Do, Touches;
    Reached(s);
    StepDid(s, w, a);
    HandBefore(s, w);
    Slots(s, w);
    var s' := Do(s, w, a);
    if s' != s && TravelsRoute(s, s', w) {
      var p, q :| Route(s.workers[w].pc, w, p, q) && Travels(s, s', p, q);
      InjectorTravels(s, s', w, v, p, q);
    }
  }

  lemma InjectorTravels(s: State, s': State, w: nat, v: nat, p: Place, q: Place)
    requires w < |s.workers| && Route(s.workers[w].pc, w, p, q) && Travels(s, s', p, q) && |At(s, Hand(w))| <= 1
    requires s.workers[w].pc.Draining? ==> At(s, Hand(w)) == []
    ensures var d, d' := At(s, Injector(v)), At(s', Injector(v));
            || d' == d
            || (v != w && s.workers[w].pc == InCb(PushBalance) && d' == d + At(s, Hand(w)) && |At(s, Hand(w))| == 1)
            || (v == w && d != [] && d' == d[1..] && At(s', Hand(w)) == [d[0]])
  {
    if q == Injector(v) { assert At(s, Hand(w)) == [At(s, Hand(w))[0]]; }
  }

  /** A thread that changes place takes one of the routes; one that disappears has exited. */
  lemma Journey(s: State, w: nat, a: Act, t: Tid)
    requires Reachable(s) && w < |s.workers| && t in s.home
    ensures var s', pc := Do(s, w, a), s.workers[w].pc;
            if t !in s'.home then pc == ExitArmed && t == Me(s, w)
            else s'.home[t] == s.home[t] || Route(pc, w, s.home[t], s'.home[t])
                 || (pc == Popping && s.home[t] == Deque(w) && s'.home[t] == Hand(w))
  {
    hide Reachable, Do, Touches, Route;
    Reached(s);
    StepDid(s, w, a);
    var s' := Do(s, w, a);
    assert t < s.nextTid by { hide AllWorkers, AllThreads, AllMutexes, AllSems, Placed; }
    hide Inv;
    if s' != s {
      if TravelsRoute(s, s', w) {
        var p, q :| Route(s.workers[w].pc, w, p, q) && Travels(s, s', p, q);
        assert At(s, p)[0] in At(s, p);
        NotQueued(s, At(s, p)[0], p);
      } else if s.workers[w].pc == Popping && PopsLast(s, s', w) {
        var d := At(s, Deque(w));
        assert d[|d| - 1] in d;
        NotQueued(s, d[|d| - 1], Deque(w));
      }
    }
  }

  // ---------- Signals ----------

  /** What thread_sigwait does with the signals `hits` that are pending and in the mask. */
  ghost predicate SigwaitDid(s: State, s': State, w: nat, mask: set<nat>, sig: nat)
    requires w < |s.workers| && s.workers[w].pc.SigIn? && |s'.workers| == |s.workers|
  {
    var t := s.workers[w].pc.t;
    var hits := Pending(s, t) * mask;
    && (forall u :: u != t ==> Pending(s', u) == Pending(s, u))
    && if hits == {} then
         && s'.workers[w].pc == SigSet(t) && t in s'.masks && s'.masks[t] == mask && Pending(s', t) == Pending(s, t)
       else
         && s'.workers[w].pc == SigOut(t) && s'.masks == s.masks
         && IsLowest(sig, hits) && Pending(s', t) == Pending(s, t) - {sig}
  }

  /** thread_sigwait: the lowest pending signal of the mask is consumed, and only that; without one the
      thread waits for exactly the mask. */
  lemma SigwaitDecides(s: State, w: nat, mask: set<nat>, sig: nat)
    requires Reachable(s) && w < |s.workers| && s.workers[w].pc.SigIn? && Leaves(s, Do(s, w, SigDecide(mask, sig)), w)
    ensures var s' := Do(s, w, SigDecide(mask, sig));
            s.workers[w].pc.t == Me(s, w) && |s'.workers| == |s.workers| && SigwaitDid(s, s', w, mask, sig)
  {
    hide Reachable, Inv, IsLowest, SigDecideStep, SigwaitDid;
    Reached(s);
    Slots(s, w);
    CallIdle(s, w, User, false, mask, sig);
    if Pending(s, s.workers[w].pc.t) * mask == {} { SigNone(s, w, mask, sig); } else { SigHit(s, w, mask, sig); }
  }

  lemma SigNone(s: State, w: nat, mask: set<nat>, sig: nat)
    requires w < |s.workers| && s.workers[w].pc.SigIn? && Pending(s, s.workers[w].pc.t) * mask == {}
    ensures var s' := SigDecideStep(s, w, mask, sig); |s'.workers| == |s.workers| && SigwaitDid(s, s', w, mask, sig)
  {
    hide At, IsLowest;
  }

  lemma SigHit(s: State, w: nat, mask: set<nat>, sig: nat)
    requires w < |s.workers| && s.workers[w].pc.SigIn? && Pending(s, s.workers[w].pc.t) * mask != {}
    requires IsLowest(sig, Pending(s, s.workers[w].pc.t) * mask)
    ensures var s' := SigDecideStep(s, w, mask, sig); |s'.workers| == |s.workers| && SigwaitDid(s, s', w, mask, sig)
  {
    hide At, IsLowest;
  }

  /** What thread_kill does with the signal. */
  ghost predicate KillDid(s: State, s': State, w: nat)
    requires w < |s.workers| && s.workers[w].pc.KillIn? && |s'.workers| == |s.workers|
  {
    var t, sig := s.workers[w].pc.t, s.workers[w].pc.sig;
    && s'.workers[w].pc == KillOut(t) && (forall u :: u != t ==> Pending(s', u) == Pending(s, u))
    && if t in s.masks && sig in s.masks[t] then
         At(s', Hand(w)) == [t] && t !in s'.masks && Pending(s', t) == Pending(s, t)
       else At(s', Hand(w)) == [] && s'.masks == s.masks && Pending(s', t) == Pending(s, t) + {sig}
  }

  /** thread_kill: a thread that waits for the signal is taken out of its wait and the signal is used
      up; for any other it is pending from now on. */
  lemma KillDelivers(s: State, w: nat, a: Act)
    requires Reachable(s) && w < |s.workers| && s.workers[w].pc.KillIn? && Leaves(s, Do(s, w, a), w)
    ensures |Do(s, w, a).workers| == |s.workers| && KillDid(s, Do(s, w, a), w)
  {
    hide Reachable, Inv, Do, KillDid, Did, KillDeliverStep;
    LeadsOn(s, w, a);
    HandEmpty(s, w);
    var t, sig := s.workers[w].pc.t, s.workers[w].pc.sig;
    if t in s.masks && sig in s.masks[t] { KillHits(s, w); } else { KillStays(s, w); }
  }

  lemma KillHits(s: State, w: nat)
    requires w < |s.workers| && s.workers[w].pc.KillIn? && At(s, Hand(w)) == []
    requires s.workers[w].pc.t in s.masks && s.workers[w].pc.sig in s.masks[s.workers[w].pc.t]
    ensures var s' := KillDeliverStep(s, w); |s'.workers| == |s.workers| && KillDid(s, s', w)
  {
  }

  lemma KillStays(s: State, w: nat)
    requires w < |s.workers| && s.workers[w].pc.KillIn? && At(s, Hand(w)) == []
    requires !(s.workers[w].pc.t in s.masks && s.workers[w].pc.sig in s.masks[s.workers[w].pc.t])
    ensures var s' := KillDeliverStep(s, w); |s'.workers| == |s.workers| && KillDid(s, s', w)
  {
  }

  /** No signal is dropped: a pending signal stays pending until its own thread consumes it. */
  lemma SignalKept(s: State, w: nat, a: Act, t: Tid, y: nat)
    requires Reachable(s) && w < |s.workers| && y in Pending(s, t)
    ensures y in Pending(Do(s, w, a), t)
            || (s.workers[w].pc == SigIn(t) && Me(s, w) == t && Do(s, w, a).workers[w].pc == SigOut(t))
  {
    hide Reachable, Inv, Do, Moves;
    Reached(s);
    StepDid(s, w, a);
    var s' := Do(s, w, a);
    if s' != s {
      match a {
        case SigDecide(mask, sig) => Slots(s, w); Consumed(s, w, mask, sig, t, y);
        case KillDeliver => Added(s, w, t, y);
        case _ =>
      }
    }
  }

  lemma Consumed(s: State, w: nat, mask: set<nat>, sig: nat, t: Tid, y: nat)
    requires w < |s.workers| && s.workers[w].pc.SigIn? && s.workers[w].pc.t == Me(s, w) && y in Pending(s, t)
    ensures var s' := Do(s, w, SigDecide(mask, sig));
            y in Pending(s', t)
            || (s.workers[w].pc == SigIn(t) && Me(s, w) == t && w < |s'.workers| && s'.workers[w].pc == SigOut(t))
  {
    hide IsLowest, Me, At;
  }

  lemma Added(s: State, w: nat, t: Tid, y: nat)
    requires w < |s.workers| && y in Pending(s, t)
    ensures y in Pending(Do(s, w, KillDeliver), t)
  {
    hide At;
  }

  // ---------- Joining, leaving, creating ----------

  /** thread_join on its general path returns at once exactly if the thread has finished, the check
      refuses, or a thread joins itself; otherwise the caller is in the join slot. */
  lemma JoinDecides(s: State, w: nat, refused: bool, t: Tid)
    requires Reachable(s) && w < |s.workers| && s.workers[w].pc == JoinIn(t)
    requires Leaves(s, Do(s, w, JoinDecide(refused)), w)
    ensures var s', me := Do(s, w, JoinDecide(refused)), Me(s, w);
            if t in s.finished || refused || t == me then s'.workers[w].pc == JoinOut(t) && s'.joined == s.joined
            else s'.workers[w].pc == JoinSet(t) && At(s', JoinSlot(t)) == [me] && s'.joined == s.joined[me := t]
  {
    hide Reachable, Inv;
    Reached(s);
  }

  /** Threads finish only by leaving, and stay finished; the joiner, if there is one, is then in the
      hands of the worker. */
  lemma FinishesOnly(s: State, w: nat, a: Act, t: Tid)
    requires Reachable(s) && w < |s.workers|
    ensures var s' := Do(s, w, a);
            && (t in s.finished ==> t in s'.finished)
            && (t in s'.finished && t !in s.finished ==>
                  && s.workers[w].pc == ExitIn(t) && t == Me(s, w)
                  && At(s', Hand(w)) == At(s, JoinSlot(t)) && At(s', JoinSlot(t)) == [])
  {
    hide Reachable, Inv, Do, Moves;
    Reached(s);
    StepDid(s, w, a);
    if Do(s, w, a) != s && a.ExitFinish? {
      Decider(s, w, a);
      HandEmpty(s, w);
      ExitsAs(s, w);
      ExitFinishes(s, w);
    }
  }

  lemma ExitsAs(s: State, w: nat)
    requires Inv(s) && w < |s.workers| && s.workers[w].pc.ExitIn?
    ensures s.workers[w].pc.t == Me(s, w) && |At(s, JoinSlot(s.workers[w].pc.t))| <= 1
  {
    hide AllMutexes, AllSems, AllThreads, Placed, Holders, PhaseOk, CbOk, SlotsOk;
    assert WorkerOk(s, w);
  }

  lemma ExitFinishes(s: State, w: nat)
    requires w < |s.workers| && s.workers[w].pc.ExitIn? && At(s, Hand(w)) == []
    requires |At(s, JoinSlot(s.workers[w].pc.t))| <= 1
    ensures var s', t := ExitFinishStep(s, w), s.workers[w].pc.t;
            && s'.finished == s.finished + {t}
            && At(s', Hand(w)) == At(s, JoinSlot(t)) && At(s', JoinSlot(t)) == []
  {
    hide ExitFinishStep;
    if At(s, JoinSlot(s.workers[w].pc.t)) == [] { ExitsAlone(s, w); } else { ExitsJoined(s, w); }
  }

  lemma ExitsAlone(s: State, w: nat)
    requires w < |s.workers| && s.workers[w].pc.ExitIn? && At(s, JoinSlot(s.workers[w].pc.t)) == []
    ensures var s' := ExitFinishStep(s, w); s'.finished == s.finished + {s.workers[w].pc.t} && s'.at == s.at
  {
  }

  lemma ExitsJoined(s: State, w: nat)
    requires w < |s.workers| && s.workers[w].pc.ExitIn? && At(s, Hand(w)) == []
    requires |At(s, JoinSlot(s.workers[w].pc.t))| == 1
    ensures var s', t := ExitFinishStep(s, w), s.workers[w].pc.t;
            && s'.finished == s.finished + {t}
            && At(s', Hand(w)) == At(s, JoinSlot(t)) && At(s', JoinSlot(t)) == []
  {
    var q := At(s, JoinSlot(s.workers[w].pc.t));
    assert q == [q[0]];
  }

  /** thread_create: one new thread, in the hands of its creator ... */
  lemma CreatedOnly(s: State, w: nat, a: Act)
    requires Reachable(s) && w < |s.workers|
    ensures var s' := Do(s, w, a);
            s'.nextTid != s.nextTid ==>
              s'.nextTid == s.nextTid + 1 && s.workers[w].pc == User && At(s', Hand(w)) == [s.nextTid]
  {
    hide Reachable, Inv;
    Reached(s);
    StepDid(s, w, a);
    if s.workers[w].pc == User { HandEmpty(s, w); }
  }

  /** Where the calls stand that have flushed `last_created`. */
  predicate AfterFlush(pc: Pc) {
    pc.YieldFlushed? || pc.JoinFlushed? || pc.ExitFlushed? || pc.CreateFlushed? || pc.MtxFlushed? || pc.SemFlushed?
    || pc.SigFlushed?
  }

  /** ... which first, as every call that may give up the processor, sends the thread created before
      to the end of the worker's own deque ... */
  lemma NewestFlushed(s: State, w: nat, a: Act)
    requires Reachable(s) && w < |s.workers| && Leaves(s, Do(s, w, a), w)
    requires AfterFlush(Do(s, w, a).workers[w].pc)
    ensures var s' := Do(s, w, a);
            && At(s', LastCreated(w)) == [] && At(s', Hand(w)) == At(s, Hand(w))
            && At(s', Deque(w)) == At(s, Deque(w)) + At(s, LastCreated(w))
  {
    hide Reachable, Inv, Did, Do, Moves, AfterFlush, Touches, GoesTo, FlushLastStep;
    LeadsOn(s, w, a);
    Slots(s, w);
    var n := Do(s, w, a).workers[w].pc;
    OnlyFlushes(s, Do(s, w, a), w, a);
    IsFlush(s, w, n);
    if At(s, LastCreated(w)) == [] { FlushesNone(s, w, n); } else { FlushesOne(s, w, n); }
  }

  lemma OnlyFlushes(s: State, s': State, w: nat, a: Act)
    requires w < |s.workers| && w < |s'.workers| && Did(s, s', w, a) && AfterFlush(s'.workers[w].pc)
    ensures a == FlushLast(s'.workers[w].pc)
  {
    hide Moves;
  }

  lemma IsFlush(s: State, w: nat, n: Pc)
    requires w < |s.workers|
    ensures Do(s, w, FlushLast(n)) == FlushLastStep(s, w, n)
  {
    hide FlushLastStep;
  }

  lemma FlushesNone(s: State, w: nat, n: Pc)
    requires w < |s.workers| && At(s, LastCreated(w)) == []
    ensures var s' := FlushLastStep(s, w, n); s'.at == s.at
  {
  }

  lemma FlushesOne(s: State, w: nat, n: Pc)
    requires w < |s.workers| && |At(s, LastCreated(w))| == 1 && Leaves(s, FlushLastStep(s, w, n), w)
    ensures var s' := FlushLastStep(s, w, n);
            && At(s', LastCreated(w)) == [] && At(s', Hand(w)) == At(s, Hand(w))
            && At(s', Deque(w)) == At(s, Deque(w)) + At(s, LastCreated(w))
  {
    assert At(s, LastCreated(w)) == [At(s, LastCreated(w))[0]];
  }

  /** ... and leaves the new one in `last_created`. */
  lemma CreateStashes(s: State, w: nat, a: Act)
    requires Reachable(s) && w < |s.workers| && s.workers[w].pc == CreateFlushed && Leaves(s, Do(s, w, a), w)
    ensures var s' := Do(s, w, a);
            s'.workers[w].pc == User && At(s', LastCreated(w)) == At(s, Hand(w)) && |At(s, Hand(w))| == 1
  {
    hide Reachable, Inv, Did, Do;
    LeadsOn(s, w, a);
    LastEmpty(s, w);
  }

  lemma LastEmpty(s: State, w: nat)
    requires Inv(s) && w < |s.workers| && s.workers[w].pc == CreateFlushed
    ensures At(s, LastCreated(w)) == [] && |At(s, Hand(w))| == 1 && At(s, Hand(w)) == [At(s, Hand(w))[0]]
  {
    hide AllMutexes, AllSems, AllThreads, Placed, Bounded, Holders;
    Known(s, w);
  }

  /** Two workers are never inside the same critical section. */
  lemma MutualExclusion(s: State, v: nat, w: nat)
    requires Reachable(s) && v < |s.workers| && w < |s.workers|
    requires LockOf(s.workers[v].pc).Some? && LockOf(s.workers[v].pc) == LockOf(s.workers[w].pc)
    ensures v == w
  {
    hide Reachable, LockOf, AllMutexes, AllSems, AllThreads, Placed, Bounded;
    Reached(s);
    Known(s, v);
    Known(s, w);
  }

  // ---------- Progress ----------

  /** What worker `w` can do next. */
  function NextAct(s: State, w: nat): Act
    requires w < |s.workers|
  {
    match s.workers[w].pc
    case Loop => TakeCb
    case InCb(c) => if c.Unlock? then DropSpin else RunCb(w)
    case Popping => Pop
    case Draining => Drain
    case Stealing => GiveUp
    case Got => Act.Run
    case User => Act.Create
    case Creating => FlushLast(CreateFlushed)
    case CreateFlushed => Stash
    case YieldFlushed => Schedule
    case Switching => Switch
    case MtxIn(_) => LockDecide
    case MtxQueued(m) => FlushLast(MtxFlushed(m))
    case UnlIn(_) => UnlockPop
    case Waking => Wake
    case SemIn(_) => SemDecrement
    case SemDec(_) => SemAppend
    case SemQueued(x) => FlushLast(SemFlushed(x))
    case PostIn(_) => PostIncrement
    case PostInc(_) => PostPop
    case JoinFlushed(t) => TakeSpin(JoinIn(t))
    case JoinIn(t) => JoinDecide(At(s, JoinSlot(t)) != [])
    case ExitFlushed => TakeSpin(ExitIn(Me(s, w)))
    case ExitIn(_) => ExitFinish
    case ExitOut => ExitArm
    case ExitArmed => ExitLeave
    case SigIn(_) => SigDecide({}, 0)
    case SigSet(t) => FlushLast(SigFlushed(t))
    case KillIn(_, _) => KillDeliver
    case pc => if ParkLock(pc).Some? then Park else DropSpin
  }

  /** The worker waits for a spin lock. */
  predicate Spins(s: State, w: nat)
    requires w < |s.workers|
  {
    match s.workers[w].pc
    case JoinFlushed(t) => CLock(t) in s.holder
    case ExitFlushed => CLock(Me(s, w)) in s.holder
    case _ => false
  }

  /** An action that does something leads on. */
  lemma DidLeaves(s: State, s': State, w: nat, a: Act)
    requires w < |s.workers| && Did(s, s', w, a)
    ensures Leaves(s, s', w)
  {
    hide Moves;
  }

  lemma LoopLeaves(s: State, w: nat)
    requires Inv(s) && w < |s.workers| && InLoop(s.workers[w].pc)
    ensures Did(s, Do(s, w, NextAct(s, w)), w, NextAct(s, w))
  {
    hide Inv, Did, At, PopStep, DrainStep, GiveUpStep, RunStep, TakeCbStep, RunCbStep, DropSpinStep, LockOf;
    Slots(s, w);
    if HandFull(s.workers[w].pc) { HandsFull(s, w); }
    match s.workers[w].pc {
      case Popping => if At(s, Deque(w)) == [] { PopNothing(s, w); } else { PopSomething(s, w); }
      case Draining => if At(s, Injector(w)) == [] { DrainNothing(s, w); } else { DrainSomething(s, w); }
      case Stealing => GiveUpAlways(s, w);
      case Got => RunFull(s, w);
      case Loop =>
        if At(s, AfterArg(w)) == [] || s.workers[w].cb == NoCb { TakeCbNothing(s, w); } else { TakeCbSomething(s, w); }
      case InCb(c) => if c.Unlock? { CbLock(s, w); DropSpinHeld(s, w); } else { RunCbOwn(s, w, w); }
      case _ =>
    }
  }

  lemma CbLock(s: State, w: nat)
    requires w < |s.workers| && s.workers[w].pc.InCb? && s.workers[w].pc.c.Unlock?
    ensures LockOf(s.workers[w].pc).Some?
  {
  }

  lemma HandsFull(s: State, w: nat)
    requires Inv(s) && w < |s.workers| && HandFull(s.workers[w].pc)
    ensures |At(s, Hand(w))| == 1
  {
    hide AllMutexes, AllSems, AllThreads, Placed, Bounded, Holders;
    Known(s, w);
  }

  lemma StackLeaves(s: State, w: nat)
    requires Inv(s) && w < |s.workers|
    requires match s.workers[w].pc
             case User => true case CreateFlushed => true case Waking => true case YieldFlushed => true
             case Switching => true case ExitArmed => true case pc => ParkLock(pc).Some?
    ensures Did(s, Do(s, w, NextAct(s, w)), w, NextAct(s, w))
  {
    hide Inv, Did, At, Me, CreateStep, StashStep, WakeStep, ScheduleStep, SwitchStep, ParkStep, ExitLeaveStep;
    Slots(s, w);
    if HandFull(s.workers[w].pc) { HandsFull(s, w); }
    match s.workers[w].pc {
      case User => CreateAlways(s, w);
      case CreateFlushed => StashFull(s, w);
      case Waking => WakeFull(s, w);
      case YieldFlushed => ScheduleRunning(s, w);
      case Switching => SwitchAlways(s, w);
      case ExitArmed => ExitLeaveAlways(s, w);
      case _ => ParkQueued(s, w);
    }
  }

  lemma ObjectLeaves(s: State, w: nat)
    requires Inv(s) && w < |s.workers|
    requires var pc := s.workers[w].pc; pc.SemIn? || pc.SemDec? || pc.PostIn? || pc.PostInc? || pc.MtxIn? || pc.UnlIn?
    ensures Did(s, Do(s, w, NextAct(s, w)), w, NextAct(s, w))
  {
    hide Inv, Did, At, Me, MutexOf, SemDecrementStep, SemAppendStep, PostIncrementStep, PostPopStep, LockDecideStep,
         UnlockPopStep;
    Slots(s, w);
    match s.workers[w].pc {
      case SemIn(x) => InSem(s, w, x); SemDecrementCounted(s, w);
      case SemDec(x) => InSem(s, w, x); SemAppendQueued(s, w);
      case PostIn(x) => InSem(s, w, x); PostIncrementCounted(s, w);
      case PostInc(x) =>
        InSem(s, w, x);
        if s.sems[x].count > 0 || At(s, SemQueue(x)) == [] { PostPopNobody(s, w); } else { PostPopSomebody(s, w); }
      case MtxIn(m) => if MutexOf(s, m).locked { LockDecideTaken(s, w); } else { LockDecideFree(s, w); }
      case UnlIn(m) => if At(s, MutexQueue(m)) == [] { UnlockPopAlone(s, w); } else { UnlockPopWaited(s, w); }
    }
  }

  lemma CallLeaves(s: State, w: nat)
    requires Inv(s) && w < |s.workers| && !Spins(s, w)
    requires var pc := s.workers[w].pc;
             || pc.JoinFlushed? || pc.JoinIn? || pc.ExitFlushed? || pc.ExitIn? || pc.ExitOut? || pc.SigIn? || pc.KillIn?
    ensures Did(s, Do(s, w, NextAct(s, w)), w, NextAct(s, w))
  {
    hide Inv, Did, At, Me, TakeSpinStep, JoinDecideStep, ExitFinishStep, ExitArmStep, SigDecideStep, KillDeliverStep;
    Slots(s, w);
    match s.workers[w].pc {
      case JoinFlushed(t) => TakeSpinFree(s, w, JoinIn(t));
      case ExitFlushed => TakeSpinFree(s, w, ExitIn(Me(s, w)));
      case JoinIn(t) =>
        var busy := At(s, JoinSlot(t)) != [];
        if t in s.finished || busy || t == Me(s, w) {
          JoinDecideOut(s, w, busy);
        } else {
          JoinDecideWaits(s, w, busy);
        }
      case ExitIn(t) => if At(s, JoinSlot(t)) == [] { ExitFinishAlone(s, w); } else { ExitFinishJoined(s, w); }
      case ExitOut => if At(s, Hand(w)) == [] { ExitArmAlone(s, w); } else { ExitArmJoined(s, w); }
      case SigIn(t) => SigDecideWaits(s, w, {}, 0);
      case KillIn(t, y) =>
        if t in s.masks && y in s.masks[t] { KillDeliverWakes(s, w); } else { KillDeliverKept(s, w); }
    }
  }

  lemma FlushLeaves(s: State, w: nat)
    requires Inv(s) && w < |s.workers|
    requires var pc := s.workers[w].pc; pc.Creating? || pc.MtxQueued? || pc.SemQueued? || pc.SigSet?
    ensures Did(s, Do(s, w, NextAct(s, w)), w, NextAct(s, w))
  {
    hide Inv, Did, At, FlushLastStep;
    Slots(s, w);
    var next := NextAct(s, w).pc;
    if At(s, LastCreated(w)) == [] { FlushLastNothing(s, w, next); } else { FlushLastSomething(s, w, next); }
  }

  lemma DropLeaves(s: State, w: nat)
    requires w < |s.workers| && Drops(s.workers[w].pc)
    ensures Did(s, Do(s, w, NextAct(s, w)), w, NextAct(s, w))
  {
    hide Did, At, DropSpinStep;
    DropSpinHeld(s, w);
  }

  /** The points of the code from which a call goes on by dropping its spin lock. */
  predicate Drops(pc: Pc) {
    pc.MtxOut? || pc.UnlOut? || pc.SemOut? || pc.PostOut? || pc.JoinOut? || pc.ExitFinished? || pc.SigOut?
    || pc.KillOut?
  }

  lemma MovesOn(s: State, w: nat)
    requires Inv(s) && w < |s.workers| && !Spins(s, w)
    ensures Leaves(s, Do(s, w, NextAct(s, w)), w)
  {
    hide Inv, Did, Do, NextAct, At, Leaves;
    match s.workers[w].pc {
      case Loop => LoopLeaves(s, w);
      case InCb(_) => LoopLeaves(s, w);
      case Popping => LoopLeaves(s, w);
      case Draining => LoopLeaves(s, w);
      case Stealing => LoopLeaves(s, w);
      case Got => LoopLeaves(s, w);
      case Creating => FlushLeaves(s, w);
      case MtxQueued(_) => FlushLeaves(s, w);
      case SemQueued(_) => FlushLeaves(s, w);
      case SigSet(_) => FlushLeaves(s, w);
      case MtxIn(_) => ObjectLeaves(s, w);
      case UnlIn(_) => ObjectLeaves(s, w);
      case SemIn(_) => ObjectLeaves(s, w);
      case SemDec(_) => ObjectLeaves(s, w);
      case PostIn(_) => ObjectLeaves(s, w);
      case PostInc(_) => ObjectLeaves(s, w);
      case JoinFlushed(_) => CallLeaves(s, w);
      case JoinIn(_) => CallLeaves(s, w);
      case ExitFlushed => CallLeaves(s, w);
      case ExitIn(_) => CallLeaves(s, w);
      case ExitOut => CallLeaves(s, w);
      case SigIn(_) => CallLeaves(s, w);
      case KillIn(_, _) => CallLeaves(s, w);
      case pc => if Drops(pc) { DropLeaves(s, w); } else { StackLeaves(s, w); }
    }
    DidLeaves(s, Do(s, w, NextAct(s, w)), w, NextAct(s, w));
  }

  /** No worker is ever stuck: it can go on, or it waits for a spin lock whose holder is another worker
      that can. (Where a worker can wait for more, for work in runq_pop_block, is module Idle.) */
  lemma NeverStuck(s: State, w: nat)
    requires Reachable(s) && w < |s.workers|
    ensures || Leaves(s, Do(s, w, NextAct(s, w)), w)
            || (Spins(s, w) && exists v: nat :: v < |s.workers| && v != w && Leaves(s, Do(s, v, NextAct(s, v)), v))
  {
    hide Reachable, Inv, Do, NextAct, Leaves;
    Reached(s);
    if Spins(s, w) {
      var l := CLock(if s.workers[w].pc.ExitFlushed? then Me(s, w) else s.workers[w].pc.t);
      var v := Holder(s, l);
      MovesOn(s, v);
    } else {
      MovesOn(s, w);
    }
  }

  /** Whoever holds a spin lock does not wait for one. */
  lemma Holder(s: State, l: Lock) returns (v: nat)
    requires Inv(s) && l in s.holder
    ensures v < |s.workers| && v == s.holder[l] && !s.workers[v].pc.JoinFlushed? && !s.workers[v].pc.ExitFlushed?
  {
    hide AllMutexes, AllSems, AllThreads, Placed, Bounded;
    v := s.holder[l];
    Known(s, v);
  }
}
