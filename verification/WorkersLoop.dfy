/** What the scheduler loop of a worker does with the threads it finds (src/scheduler_mn.c:241-380):
    it never passes over one, it runs the one it took, and what a thread left behind when it gave up
    the processor is carried out. */
module WorkersLoop {
  import opened Basics
  import opened Workers
  import opened WorkersInv
  import opened WorkersSteps
  import opened WorkersShape
  import opened WorkersRuns
  import opened WorkersMeaning

  lemma LoopOnly(pc: Pc, a: Act)
    requires Applies(pc, a)
    ensures match pc
            case Popping => a == Pop
            case Draining => a == Drain
            case Got => a == Run
            case Loop => a == TakeCb
            case YieldFlushed => a == Schedule
            case Waking => a == Wake
            case _ => true
  {
  }

  ghost predicate LoopDecided(s: State, s': State, w: nat)
    requires w < |s.workers|
  {
    match s.workers[w].pc
    case Popping => s' == PopStep(s, w)
    case Draining => s' == DrainStep(s, w)
    case Got => s' == RunStep(s, w)
    case Loop => s' == TakeCbStep(s, w)
    case YieldFlushed => s' == ScheduleStep(s, w)
    case Waking => s' == WakeStep(s, w)
    case _ => true
  }

  lemma LoopDecider(s: State, w: nat, a: Act)
    requires w < |s.workers| && Did(s, Do(s, w, a), w, a)
    ensures LoopDecided(s, Do(s, w, a), w)
  {
    hide Moves, GoesTo, PopStep, DrainStep, RunStep, TakeCbStep, ScheduleStep, WakeStep;
    LoopOnly(s.workers[w].pc, a);
    hide Applies;
    match s.workers[w].pc {
      case Popping => case Draining => case Got => case Loop => case YieldFlushed => case Waking => case _ =>
    }
  }

  /** Where worker `w` goes from its loop, and with whom in its hands. */
  ghost predicate Looked(s: State, s': State, w: nat)
    requires w < |s.workers| && w < |s'.workers|
  {
    var k, k', d, i, h, h' := s.workers[w], s'.workers[w], At(s, Deque(w)), At(s, Injector(w)), At(s, Hand(w)),
                              At(s', Hand(w));
    match k.pc
    // the own deque first, newest first
    case Popping =>
      if d == [] then k'.pc == Draining && h' == []
      else k'.pc == Got && h' == [d[|d| - 1]] && At(s', Deque(w)) == d[..|d| - 1]
    // then the injector, oldest first; only then the others' deques
    case Draining =>
      if i == [] then k'.pc == Stealing && h' == [] else k'.pc == Got && h' == [i[0]] && At(s', Injector(w)) == i[1..]
    // the thread taken is the one that runs
    case Got =>
      |h| == 1 && k'.pc == User && k'.cur == k'.stack == Some(h[0]) && At(s', Current(w)) == h && h' == []
    // what the last thread left behind is taken up, once
    case Loop =>
      && k'.pc == (if k.cb == NoCb then Popping else InCb(k.cb)) && k'.cb == NoCb
      && h' == At(s, AfterArg(w)) && At(s', AfterArg(w)) == []
    // a yielding thread leaves itself behind
    case YieldFlushed => k'.pc == Switching && k'.cb == PushBalance && At(s', AfterArg(w)) == [Me(s, w)]
    // a woken thread is the newest of the deque
    case Waking => k'.pc == User && |h| == 1 && At(s', Deque(w)) == d + h && h' == []
    case _ => true
  }

  /** In every reachable state, whatever the other workers do. */
  lemma LooksExactly(s: State, w: nat, a: Act)
    requires Reachable(s) && w < |s.workers| && Leaves(s, Do(s, w, a), w)
    ensures Looked(s, Do(s, w, a), w)
  {
    hide Reachable, Inv, Did, Do, Looked, PopStep, DrainStep, RunStep, TakeCbStep, ScheduleStep, WakeStep, LoopDecided;
    LeadsOn(s, w, a);
    LoopDecider(s, w, a);
    Handful(s, w);
    LooksAt(s, Do(s, w, a), w);
  }

  /** What the invariant says about the worker's slots there. */
  ghost predicate Fits(s: State, w: nat)
    requires w < |s.workers|
  {
    var k := s.workers[w];
    match k.pc
    case Popping => At(s, Hand(w)) == []
    case Draining => At(s, Hand(w)) == []
    case Got => |At(s, Hand(w))| == 1 && At(s, Current(w)) == []
    case Loop => At(s, Hand(w)) == [] && |At(s, AfterArg(w))| <= 1 && (k.cb == NoCb ==> At(s, AfterArg(w)) == [])
    case YieldFlushed => At(s, AfterArg(w)) == []
    case Waking => |At(s, Hand(w))| == 1
    case _ => true
  }

  lemma Handful(s: State, w: nat)
    requires Inv(s) && w < |s.workers|
    ensures Fits(s, w)
  {
    hide AllMutexes, AllSems, AllThreads, Placed, Bounded, Holders, PhaseOk, StackOk;
    Known(s, w);
  }

  lemma LooksAt(s: State, s': State, w: nat)
    requires w < |s.workers| && w < |s'.workers| && LoopDecided(s, s', w) && Fits(s, w)
    ensures Looked(s, s', w)
  {
    hide PopStep, DrainStep, RunStep, TakeCbStep, ScheduleStep, WakeStep, Looked;
    match s.workers[w].pc {
      case Popping => LooksPopping(s, w);
      case Draining => LooksDraining(s, w);
      case Got => LooksGot(s, w);
      case Loop => LooksLoop(s, w);
      case YieldFlushed => LooksYield(s, w);
      case Waking => LooksWaking(s, w);
      case pc => NothingToSee(s, s', w);
    }
  }

  lemma NothingToSee(s: State, s': State, w: nat)
    requires w < |s.workers| && w < |s'.workers|
    requires var pc := s.workers[w].pc;
             !(pc.Popping? || pc.Draining? || pc.Got? || pc.Loop? || pc.YieldFlushed? || pc.Waking?)
    ensures Looked(s, s', w)
  {
  }

  lemma LooksPopping(s: State, w: nat)
    requires w < |s.workers| && s.workers[w].pc == Popping && At(s, Hand(w)) == []
    ensures var s' := PopStep(s, w); w < |s'.workers| && Looked(s, s', w)
  {
  }

  lemma LooksDraining(s: State, w: nat)
    requires w < |s.workers| && s.workers[w].pc == Draining && At(s, Hand(w)) == []
    ensures var s' := DrainStep(s, w); w < |s'.workers| && Looked(s, s', w)
  {
  }

  lemma LooksGot(s: State, w: nat)
    requires w < |s.workers| && s.workers[w].pc == Got && |At(s, Hand(w))| == 1 && At(s, Current(w)) == []
    ensures var s' := RunStep(s, w); w < |s'.workers| && Looked(s, s', w)
  {
    assert At(s, Hand(w)) == [At(s, Hand(w))[0]];
  }

  lemma LooksLoop(s: State, w: nat)
    requires w < |s.workers| && s.workers[w].pc == Loop && At(s, Hand(w)) == [] && |At(s, AfterArg(w))| <= 1
    requires s.workers[w].cb == NoCb ==> At(s, AfterArg(w)) == []
    ensures var s' := TakeCbStep(s, w); w < |s'.workers| && Looked(s, s', w)
  {
    if At(s, AfterArg(w)) != [] { assert At(s, AfterArg(w)) == [At(s, AfterArg(w))[0]]; }
  }

  lemma LooksYield(s: State, w: nat)
    requires w < |s.workers| && s.workers[w].pc == YieldFlushed && At(s, AfterArg(w)) == []
    ensures var s' := ScheduleStep(s, w); w < |s'.workers| && Looked(s, s', w)
  {
  }

  lemma LooksWaking(s: State, w: nat)
    requires w < |s.workers| && s.workers[w].pc == Waking && |At(s, Hand(w))| == 1
    ensures var s' := WakeStep(s, w); w < |s'.workers| && Looked(s, s', w)
  {
    assert At(s, Hand(w)) == [At(s, Hand(w))[0]];
  }

  /** A worker that found nothing of its own can take the oldest thread of any other deque that is not
      empty. */
  lemma StealsOldest(s: State, w: nat, v: nat)
    requires Reachable(s) && w < |s.workers| && v < |s.workers| && v != w && s.workers[w].pc == Stealing
    requires At(s, Deque(v)) != []
    ensures var s', d := Do(s, w, Steal(v)), At(s, Deque(v));
            && |s'.workers| == |s.workers| && s'.workers[w].pc == Got
            && At(s', Hand(w)) == [d[0]] && At(s', Deque(v)) == d[1..]
  {
    hide Reachable, Inv;
    Reached(s);
    HandEmpty(s, w);
  }
}
