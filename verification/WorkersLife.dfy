/** Creating, switching, joining and leaving threads of the M:N build, and signals, keep the
    invariant.

    Joins and signals are decisions under the spin lock of a descriptor, as in module
    WorkersCalls. The steps that change who executes on which stack have proofs of their own: a
    thread starts to run (`RanKeeps`), is put into `after_arg` (`YieldedKeeps`), parks
    (`ParkKeeps`), has left its stack (`SwitchKeeps`) or is gone (`LeftKeeps`).

    For each, the new state is written out as a function, and small lemmas check its worker, its
    threads and its frame one by one. */
module WorkersLife {
  import opened Basics
  import opened Workers
  import opened WorkersInv
  import opened WorkersSteps
  import opened WorkersCalls

  // ---------- Handing threads on ----------

  lemma StashKeeps(s: State, w: nat)
    requires Inv(s) && w < |s.workers|
    ensures Inv(StashStep(s, w))
  {
    hide Inv, WorkerOk;
    Known(s, w);
    var q := At(s, Hand(w));
    if s.workers[w].pc == CreateFlushed && q != [] {
      assert q == [q[0]] + [];
      MoveKeeps(s, w, s.workers[w].(pc := User), q[0], Hand(w), [], LastCreated(w));
    }
  }

  lemma WakeKeeps(s: State, w: nat)
    requires Inv(s) && w < |s.workers|
    ensures Inv(WakeStep(s, w))
  {
    hide Inv, WorkerOk;
    Known(s, w);
    var q := At(s, Hand(w));
    if s.workers[w].pc == Waking && q != [] {
      assert q == [q[0]] + [];
      MoveKeeps(s, w, s.workers[w].(pc := User), q[0], Hand(w), [], Deque(w));
    }
  }

  lemma ExitArmKeeps(s: State, w: nat)
    requires Inv(s) && w < |s.workers|
    ensures Inv(ExitArmStep(s, w))
  {
    hide Inv, WorkerOk;
    Known(s, w);
    var k, q := s.workers[w], At(s, Hand(w));
    if k.pc == ExitOut {
      if q == [] {
        PcKeeps(s, w, k.(pc := ExitArmed));
      } else {
        assert q == [q[0]] + [];
        MoveKeeps(s, w, k.(pc := ExitArmed, cb := WakeJoiner), q[0], Hand(w), [], AfterArg(w));
      }
    }
  }


  // ---------- Joining and leaving ----------

  lemma JoinDecideKeeps(s: State, w: nat, refused: bool)
    requires Inv(s) && w < |s.workers|
    ensures Inv(JoinDecideStep(s, w, refused))
  {
    hide Inv, SlotsOk;
    var k := s.workers[w];
    if k.pc.JoinIn? {
      var t := k.pc.t;
      if t in s.finished || refused || t == Me(s, w) {
        JoinRefused(s, w, t);
      } else if At(s, JoinSlot(t)) == [] {
        AtHome(s, w);
        JoinQueued(s, w, t, Me(s, w));
      }
    }
  }

  lemma JoinRefused(s: State, w: nat, t: Tid)
    requires Inv(s) && w < |s.workers| && s.workers[w].pc == JoinIn(t)
    ensures Inv(SetPc(s, w, JoinOut(t)))
  {
    hide Inv, ObjectsOk, PhaseOk;
    var s' := SetPc(s, w, JoinOut(t));
    NoPhase(s', w);
    SameObjects(s, s', w);
    TouchKeeps(s, s', w);
  }

  lemma JoinQueued(s: State, w: nat, t: Tid, me: Tid)
    requires Inv(s) && w < |s.workers| && s.workers[w].pc == JoinIn(t) && t !in s.finished && At(s, JoinSlot(t)) == []
    requires s.workers[w].stack == Some(me)
    ensures Inv(SetPc(Shift(s.(joined := s.joined[me := t]), me, Current(w), [], JoinSlot(t)), w, JoinSet(t)))
  {
    hide Inv, ObjectsOk, PhaseOk;
    var s' := SetPc(Shift(s.(joined := s.joined[me := t]), me, Current(w), [], JoinSlot(t)), w, JoinSet(t));
    NoPhase(s', w);
    assert ObjectsOk(s, s', w) by { SameObjects(s, s', w); }
    QueueKeeps(s, s', w, JoinSlot(t));
  }

  lemma ExitFinishKeeps(s: State, w: nat)
    requires Inv(s) && w < |s.workers|
    ensures Inv(ExitFinishStep(s, w))
  {
    hide Inv;
    var k := s.workers[w];
    if k.pc.ExitIn? {
      var q := At(s, JoinSlot(k.pc.t));
      OneJoiner(s, k.pc.t);
      OwnThread(s, w);
      if q == [] { FinishedAlone(s, w, k.pc.t); } else { assert q == [q[0]] + []; FinishedJoined(s, w, k.pc.t, q[0]); }
    }
  }

  lemma OneJoiner(s: State, t: Tid)
    requires Inv(s)
    ensures |At(s, JoinSlot(t))| <= 1
  {
  }

  lemma OwnThread(s: State, w: nat)
    requires Inv(s) && w < |s.workers| && OwnPc(s.workers[w].pc)
    ensures s.workers[w].stack == Some(s.workers[w].pc.t)
  {
    Known(s, w);
  }

  lemma FinishedJoined(s: State, w: nat, me: Tid, t: Tid)
    requires Inv(s) && w < |s.workers| && s.workers[w].pc == ExitIn(me) && s.workers[w].stack == Some(me)
    requires At(s, JoinSlot(me)) == [t]
    ensures Inv(ExitFinishStep(s, w))
  {
    hide Inv, ObjectsOk, PhaseOk;
    var s' := ExitFinishStep(s, w);
    assert [t][1..] == [];
    NoPhase(s', w);
    SameObjects(s, s', w);
    WaiterKeeps(s, s', w, t, JoinSlot(me), []);
  }

  lemma FinishedAlone(s: State, w: nat, me: Tid)
    requires Inv(s) && w < |s.workers| && s.workers[w].pc == ExitIn(me) && s.workers[w].stack == Some(me)
    requires At(s, JoinSlot(me)) == []
    ensures Inv(ExitFinishStep(s, w))
  {
    hide PhaseOk, StackOk, SlotsOk, HeldLock, WorkerOk, ThreadOk, PlaceOk, Placed, Bounded, ObjectsOk, SameLocks,
         SameOthers, SameThreads, Finishing;
    var s' := ExitFinishStep(s, w);
    OthersByPlaces(s, s', w, Hand(w), Hand(w));
    PlacedByAt(s, s');
    SameObjects(s, s', w);
    Known(s, w);
    AtHome(s, w);
    AloneFrame(s, s', w, me);
    RunnerKept(s, s', w);
    AloneWorker(s, w, me);
    Assemble(s, s', w, s.nextTid);
  }

  lemma AloneFrame(s: State, s': State, w: nat, me: Tid)
    requires w < |s.workers| && |s'.workers| == |s.workers| && Holders(s) && Bounded(s)
    requires s.workers[w].stack == Some(me) && me in s.on && me in s.home && At(s, JoinSlot(me)) == []
    requires s.workers[w].pc == ExitIn(me) && s'.workers[w] == s.workers[w].(pc := ExitFinished(me))
    requires s' == s.(workers := s'.workers, finished := s.finished + {me})
    ensures SameLocks(s, s', w) && SameThreads(s, s', w, s.nextTid) && Bounded(s') && Finishing(s, s')
    ensures s.nextTid !in s.home
  {
    SameLock(s, s', w);
    hide HeldLock, SameLocks;
  }

  lemma AloneWorker(s: State, w: nat, me: Tid)
    requires w < |s.workers| && WorkerOk(s, w) && s.workers[w].pc == ExitIn(me) && s.workers[w].stack == Some(me)
    ensures WorkerOk(SetPc(s.(finished := s.finished + {me}), w, ExitFinished(me)), w)
  {
  }

  // ---------- Signals ----------

  lemma SigDecideKeeps(s: State, w: nat, mask: set<nat>, sig: nat)
    requires Inv(s) && w < |s.workers|
    ensures Inv(SigDecideStep(s, w, mask, sig))
  {
    hide Inv;
    var k := s.workers[w];
    if k.pc.SigIn? {
      OwnThread(s, w);
      if Pending(s, k.pc.t) * mask == {} { SigQueued(s, w, k.pc.t, mask); }
      else if IsLowest(sig, Pending(s, k.pc.t) * mask) {
        PendingChanged(s, w, k.pc.t, Pending(s, k.pc.t) - {sig}, SigOut(k.pc.t));
      }
    }
  }

  lemma SigQueued(s: State, w: nat, me: Tid, mask: set<nat>)
    requires Inv(s) && w < |s.workers| && s.workers[w].pc == SigIn(me) && s.workers[w].stack == Some(me)
    requires Pending(s, me) * mask == {}
    ensures Inv(SetPc(Shift(s.(masks := s.masks[me := mask]), me, Current(w), [], SigSlot(me)), w, SigSet(me)))
  {
    hide Inv, ObjectsOk, PhaseOk;
    var s' := SetPc(Shift(s.(masks := s.masks[me := mask]), me, Current(w), [], SigSlot(me)), w, SigSet(me));
    NoPhase(s', w);
    assert ObjectsOk(s, s', w) by { SameObjects(s, s', w); }
    QueueKeeps(s, s', w, SigSlot(me));
  }

  /** Pending signals change, but for a waiting thread only outside its mask. */
  lemma PendingChanged(s: State, w: nat, t: Tid, p: set<nat>, pc: Pc)
    requires Inv(s) && w < |s.workers| && (t in s.masks ==> p * s.masks[t] <= Pending(s, t) * s.masks[t])
    requires || (s.workers[w].pc == SigIn(t) && pc == SigOut(t))
             || (s.workers[w].pc.KillIn? && s.workers[w].pc.t == t && pc == KillOut(t))
    ensures Inv(SetPc(s.(pending := s.pending[t := p]), w, pc))
  {
    hide Inv, ObjectsOk, PhaseOk;
    var s' := SetPc(s.(pending := s.pending[t := p]), w, pc);
    NoPhase(s', w);
    assert ObjectsOk(s, s', w) by { SameObjects(s, s', w); }
    TouchKeeps(s, s', w);
  }

  lemma KillDeliverKeeps(s: State, w: nat)
    requires Inv(s) && w < |s.workers|
    ensures Inv(KillDeliverStep(s, w))
  {
    hide Inv;
    var k := s.workers[w];
    if k.pc.KillIn? {
      var t, sig := k.pc.t, k.pc.sig;
      if t in s.masks && sig in s.masks[t] { Signalled(s, w, t, sig); }
      else { PendingChanged(s, w, t, Pending(s, t) + {sig}, KillOut(t)); }
    }
  }

  lemma Signalled(s: State, w: nat, t: Tid, sig: nat)
    requires Inv(s) && w < |s.workers| && s.workers[w].pc == KillIn(t, sig) && t in s.masks
    ensures Inv(SetPc(Shift(s.(masks := s.masks - {t}), t, SigSlot(t), [], Hand(w)), w, KillOut(t)))
  {
    hide Inv, ObjectsOk, PhaseOk;
    var s' := SetPc(Shift(s.(masks := s.masks - {t}), t, SigSlot(t), [], Hand(w)), w, KillOut(t));
    AloneInSlot(s, t);
    NoPhase(s', w);
    assert ObjectsOk(s, s', w) by { SameObjects(s, s', w); }
    WaiterKeeps(s, s', w, t, SigSlot(t), []);
  }

  lemma AloneInSlot(s: State, t: Tid)
    requires Inv(s) && t in s.masks
    ensures At(s, SigSlot(t)) == [t] + []
  {
    hide AllWorkers, AllMutexes, AllSems, Holders, RunOk, JoinOk;
    var q := At(s, SigSlot(t));
    assert ThreadOk(s, t);
    assert PlaceOk(s, SigSlot(t)) && t in q;
    forall i | 0 <= i < |q| ensures q[i] == t {
      assert q[i] in q;
      assert ThreadOk(s, q[i]);
    }
    assert q[|q| - 1] == q[0];
  }

  // ---------- Creating ----------

  lemma CreateKeeps(s: State, w: nat)
    requires Inv(s) && w < |s.workers|
    ensures Inv(CreateStep(s, w))
  {
    hide HeldLock, Guards, PhaseOk, StackOk, SlotsOk, WorkerOk, ThreadOk, Placed, Bounded, ObjectsOk, SameOthers,
         SameThreads, Finishing;
    var k, t, s' := s.workers[w], s.nextTid, CreateStep(s, w);
    if k.pc == User {
      Known(s, w);
      AtHome(s, w);
      CreatePlaced(s, w, t);
      OthersByPlaces(s, s', w, Hand(w), Hand(w));
      CreateLock(s, s', w);
      SameObjects(s, s', w);
      CreateFrame(s, w, t);
      CreateThread(s, w, t);
      CreateMe(s, w, t);
      CreateWorker(s, w, t);
      Assemble(s, s', w, t);
    }
  }

  function Created(s: State, w: nat, t: Tid): State
    requires w < |s.workers|
  {
    SetPc(s.(at := s.at[Hand(w) := At(s, Hand(w)) + [t]], home := s.home[t := Hand(w)], nextTid := t + 1), w, Creating)
  }

  lemma CreatePlaced(s: State, w: nat, t: Tid)
    requires Inv(s) && w < |s.workers| && t == s.nextTid
    ensures Placed(Created(s, w, t))
  {
    hide WorkerOk, ThreadOk, AllMutexes, AllSems, Holders;
    var s' := Created(s, w, t);
    forall p ensures PlaceOk(s', p) {
      assert PlaceOk(s, p) && t !in At(s, p);
      assert At(s', p) == if p == Hand(w) then At(s, p) + [t] else At(s, p);
      forall u: Tid | u in At(s', p) ensures u in s'.home && s'.home[u] == p {
        assert u in At(s, p) || (p == Hand(w) && u == t);
      }
    }
    forall u: Tid | u in s'.home ensures u in At(s', s'.home[u]) { if u != t { assert u in At(s, s.home[u]); } }
  }

  lemma CreateLock(s: State, s': State, w: nat)
    requires w < |s.workers| && |s'.workers| == |s.workers| && Holders(s) && s'.holder == s.holder
    requires s.workers[w].pc == User && s'.workers[w] == s.workers[w].(pc := Creating)
    ensures SameLocks(s, s', w)
  {
    SameLock(s, s', w);
  }

  lemma CreateFrame(s: State, w: nat, t: Tid)
    requires w < |s.workers| && Bounded(s) && t == s.nextTid
    ensures SameThreads(s, Created(s, w, t), w, t) && Bounded(Created(s, w, t)) && Finishing(s, Created(s, w, t))
    ensures t !in s.home && t !in s.on && t !in s.masks && t !in s.joined && t !in s.finished
  {
  }

  lemma CreateThread(s: State, w: nat, t: Tid)
    requires w < |s.workers| && t !in s.on && t !in s.masks && t !in s.joined && t !in s.finished
    ensures ThreadOk(Created(s, w, t), t)
  {
  }

  lemma CreateMe(s: State, w: nat, t: Tid)
    requires Inv(s) && w < |s.workers| && s.workers[w].pc == User && t !in s.home
    ensures Me(s, w) in Created(s, w, t).home && ThreadOk(Created(s, w, t), Me(s, w))
  {
    hide HeldLock, Guards, WorkerOk, Placed, Holders, AllMutexes, AllSems;
    AtHome(s, w);
    RunnerKept(s, Created(s, w, t), w);
  }

  lemma CreateWorker(s: State, w: nat, t: Tid)
    requires w < |s.workers| && WorkerOk(s, w) && s.workers[w].pc == User && t !in s.home
    ensures WorkerOk(Created(s, w, t), w)
  {
  }

  // ---------- Switching stacks ----------

  lemma RunKeeps(s: State, w: nat)
    requires Inv(s) && w < |s.workers|
    ensures Inv(RunStep(s, w))
  {
    hide Inv;
    Known(s, w);
    var q := At(s, Hand(w));
    if s.workers[w].pc == Got && q != [] {
      assert q == [q[0]] + [];
      RanKeeps(s, w, q[0]);
    }
  }

  lemma RanKeeps(s: State, w: nat, t: Tid)
    requires Inv(s) && w < |s.workers| && s.workers[w].pc == Got && At(s, Hand(w)) == [t] + []
    ensures Inv(Ran(s, w, t))
  {
    hide HeldLock, Guards, PhaseOk, StackOk, SlotsOk, WorkerOk, ThreadOk, Placed, Bounded, ObjectsOk, SameOthers,
         SameThreads, Finishing, SameLocks;
    var s' := Ran(s, w, t);
    Known(s, w);
    ShiftKeeps(s, t, Hand(w), [], Current(w));
    PlacedByAt(Shift(s, t, Hand(w), [], Current(w)), s');
    OthersByPlaces(s, s', w, Hand(w), Current(w));
    RunLock(s, s', w);
    SameObjects(s, s', w);
    assert ThreadOk(s, t);
    RunThread(s, w, t);
    RunFrame(s, w, t);
    RunWorker(s, w, t);
    Assemble(s, s', w, t);
  }

  function Ran(s: State, w: nat, t: Tid): State
    requires w < |s.workers|
  {
    Shift(s, t, Hand(w), [], Current(w))
      .(on := s.on[t := w], joined := s.joined - {t},
        workers := s.workers[w := s.workers[w].(pc := User, cur := Some(t), stack := Some(t))])
  }

  lemma RunLock(s: State, s': State, w: nat)
    requires w < |s.workers| && |s'.workers| == |s.workers| && Holders(s) && s'.holder == s.holder && SlotsOk(s, w)
    requires s.workers[w].pc == Got && s'.workers[w].pc == User && s'.workers[w].cb == s.workers[w].cb
    ensures SameLocks(s, s', w)
  {
    SameLock(s, s', w);
  }

  lemma RunFrame(s: State, w: nat, t: Tid)
    requires w < |s.workers| && t in s.home && Bounded(s) && t !in s.on && t !in s.finished
    ensures var s' := Ran(s, w, t); SameThreads(s, s', w, t) && Bounded(s') && Finishing(s, s')
  {
  }

  lemma RunThread(s: State, w: nat, t: Tid)
    requires w < |s.workers| && t in s.home && s.home[t] == Hand(w) && ThreadOk(s, t)
    ensures t !in s.on && t !in s.finished && ThreadOk(Ran(s, w, t), t)
  {
    hide HeldLock, Guards;
  }

  lemma RunWorker(s: State, w: nat, t: Tid)
    requires w < |s.workers| && WorkerOk(s, w) && s.workers[w].pc == Got && At(s, Hand(w)) == [t] && t !in s.finished
    ensures WorkerOk(Ran(s, w, t), w) && s.workers[w].stack.None?
  {
  }

  lemma ScheduleKeeps(s: State, w: nat)
    requires Inv(s) && w < |s.workers|
    ensures Inv(ScheduleStep(s, w))
  {
    hide Inv;
    if s.workers[w].pc == YieldFlushed {
      AtHome(s, w);
      YieldedKeeps(s, w, Me(s, w));
    }
  }

  function Yielded(s: State, w: nat, me: Tid): State
    requires w < |s.workers|
  {
    Shift(s, me, Current(w), [], AfterArg(w))
      .(workers := s.workers[w := s.workers[w].(pc := Switching, cur := None, cb := PushBalance)])
  }

  lemma YieldedKeeps(s: State, w: nat, me: Tid)
    requires Inv(s) && w < |s.workers| && s.workers[w].pc == YieldFlushed && s.workers[w].stack == Some(me)
    ensures Inv(Yielded(s, w, me))
  {
    hide HeldLock, Guards, PhaseOk, StackOk, SlotsOk, WorkerOk, ThreadOk, Placed, Bounded, ObjectsOk, SameOthers,
         SameThreads, Finishing, SameLocks;
    var s' := Yielded(s, w, me);
    Known(s, w);
    AtHome(s, w);
    YieldWorker(s, w, me);
    ShiftKeeps(s, me, Current(w), [], AfterArg(w));
    PlacedByAt(Shift(s, me, Current(w), [], AfterArg(w)), s');
    OthersByPlaces(s, s', w, Current(w), AfterArg(w));
    SameLock(s, s', w);
    SameObjects(s, s', w);
    assert ThreadOk(s, me);
    YieldFrame(s, w, me);
    Assemble(s, s', w, me);
  }

  lemma YieldWorker(s: State, w: nat, me: Tid)
    requires w < |s.workers| && WorkerOk(s, w) && s.workers[w].pc == YieldFlushed && s.workers[w].stack == Some(me)
    ensures WorkerOk(Yielded(s, w, me), w) && At(s, Current(w)) == [me] + []
    ensures HeldLock(Yielded(s, w, me).workers[w]) == HeldLock(s.workers[w])
  {
  }

  lemma YieldFrame(s: State, w: nat, me: Tid)
    requires w < |s.workers| && me in s.home && s.home[me] == Current(w) && ThreadOk(s, me) && Bounded(s)
    requires s.workers[w].stack == Some(me)
    ensures var s' := Yielded(s, w, me);
            SameThreads(s, s', w, me) && Bounded(s') && Finishing(s, s') && ThreadOk(s', me)
  {
    hide HeldLock, Guards;
  }

  lemma ParkKeeps(s: State, w: nat)
    requires Inv(s) && w < |s.workers|
    ensures Inv(ParkStep(s, w))
  {
    hide HeldLock, Guards, PhaseOk, StackOk, SlotsOk, WorkerOk, ThreadOk, Placed, ObjectsOk, SameOthers, SameLocks,
         SameThreads, Finishing, Bounded, Holders;
    if ParkLock(s.workers[w].pc).Some? {
      var s' := ParkStep(s, w);
      Known(s, w);
      ParkWorker(s, w);
      WorkerFrame(s, s', w);
      ParkMe(s, w);
      Assemble(s, s', w, s.nextTid);
    }
  }

  /** A step that changes only what worker `w` records, and not which spin lock it holds. */
  lemma WorkerFrame(s: State, s': State, w: nat)
    requires w < |s.workers| && |s'.workers| == |s.workers| && s'.workers == s.workers[w := s'.workers[w]]
    requires s' == s.(workers := s'.workers) && HeldLock(s'.workers[w]) == HeldLock(s.workers[w])
    requires Holders(s) && Placed(s) && Bounded(s)
    ensures SameOthers(s, s', w) && Placed(s') && SameLocks(s, s', w) && ObjectsOk(s, s', w)
    ensures SameThreads(s, s', w, s.nextTid) && Finishing(s, s') && Bounded(s') && s.nextTid !in s'.home
  {
    hide HeldLock, Placed, SameOthers, SameLocks, ObjectsOk;
    OthersByPlaces(s, s', w, Hand(w), Hand(w));
    PlacedByAt(s, s');
    SameLock(s, s', w);
    SameObjects(s, s', w);
  }

  lemma ParkWorker(s: State, w: nat)
    requires w < |s.workers| && WorkerOk(s, w) && ParkLock(s.workers[w].pc).Some?
    ensures WorkerOk(ParkStep(s, w), w) && HeldLock(ParkStep(s, w).workers[w]) == HeldLock(s.workers[w])
    ensures s.workers[w].stack.Some? && Me(s, w) in s.home
  {
  }

  lemma ParkMe(s: State, w: nat)
    requires Inv(s) && w < |s.workers| && ParkLock(s.workers[w].pc).Some? && s.workers[w].stack.Some?
    requires Me(s, w) in s.home
    requires HeldLock(ParkStep(s, w).workers[w]) == HeldLock(s.workers[w])
    ensures ThreadOk(ParkStep(s, w), Me(s, w))
  {
    hide HeldLock, Guards, PhaseOk, StackOk, SlotsOk, CbOk, Placed, AllMutexes, AllSems;
    Known(s, w);
    assert ThreadOk(s, Me(s, w));
  }

  lemma SwitchKeeps(s: State, w: nat)
    requires Inv(s) && w < |s.workers|
    ensures Inv(SwitchStep(s, w))
  {
    hide HeldLock, Guards, PhaseOk, StackOk, SlotsOk, WorkerOk, ThreadOk, Placed, Bounded, ObjectsOk, SameOthers,
         SameThreads, Finishing, SameLocks;
    if s.workers[w].pc == Switching {
      var s' := SwitchStep(s, w);
      Known(s, w);
      SwitchWorker(s, w);
      OthersByPlaces(s, s', w, Hand(w), Hand(w));
      PlacedByAt(s, s');
      SameLock(s, s', w);
      SameObjects(s, s', w);
      assert ThreadOk(s, Me(s, w));
      SwitchFrame(s, w, Me(s, w));
      Assemble(s, s', w, Me(s, w));
    }
  }

  lemma SwitchWorker(s: State, w: nat)
    requires w < |s.workers| && WorkerOk(s, w) && s.workers[w].pc == Switching
    ensures WorkerOk(SwitchStep(s, w), w) && HeldLock(SwitchStep(s, w).workers[w]) == HeldLock(s.workers[w])
    ensures s.workers[w].stack == Some(Me(s, w)) && Me(s, w) in s.home && Me(s, w) in s.on && s.on[Me(s, w)] == w
    ensures var p := s.home[Me(s, w)]; Waiting(p) || p.AfterArg?
    ensures Me(s, w) !in s.finished
  {
  }

  /** The context of the thread that leaves its stack is saved from here on. */
  lemma SwitchFrame(s: State, w: nat, me: Tid)
    requires w < |s.workers| && Bounded(s) && s.workers[w].pc == Switching && s.workers[w].stack == Some(me)
    requires me in s.home && me in s.on && s.on[me] == w && ThreadOk(s, me) && me !in s.finished
    requires Waiting(s.home[me]) || s.home[me].AfterArg?
    ensures var s' := SwitchStep(s, w); SameThreads(s, s', w, me) && Bounded(s') && Finishing(s, s') && ThreadOk(s', me)
  {
    hide HeldLock, Guards;
  }

  lemma ExitLeaveKeeps(s: State, w: nat)
    requires Inv(s) && w < |s.workers|
    ensures Inv(ExitLeaveStep(s, w))
  {
    hide Inv;
    if s.workers[w].pc == ExitArmed {
      AtHome(s, w);
      LeftKeeps(s, w, Me(s, w));
    }
  }

  function Left(s: State, w: nat, me: Tid): State
    requires w < |s.workers|
  {
    s.(at := s.at[Current(w) := []], home := s.home - {me}, on := s.on - {me},
       workers := s.workers[w := s.workers[w].(pc := Loop, cur := None, stack := None)])
  }

  lemma LeftKeeps(s: State, w: nat, me: Tid)
    requires Inv(s) && w < |s.workers| && s.workers[w].pc == ExitArmed && s.workers[w].stack == Some(me)
    ensures Inv(Left(s, w, me))
  {
    hide HeldLock, Guards, PhaseOk, StackOk, SlotsOk, WorkerOk, ThreadOk, Placed, Bounded, ObjectsOk, SameOthers,
         SameThreads, Finishing, SameLocks;
    var s' := Left(s, w, me);
    Known(s, w);
    AtHome(s, w);
    LeftWorker(s, w, me);
    LeftPlaced(s, w, me);
    OthersByPlaces(s, s', w, Current(w), Current(w));
    SameLock(s, s', w);
    SameObjects(s, s', w);
    assert ThreadOk(s, me);
    LeftFrame(s, w, me);
    Assemble(s, s', w, s.nextTid);
  }

  lemma LeftWorker(s: State, w: nat, me: Tid)
    requires w < |s.workers| && WorkerOk(s, w) && s.workers[w].pc == ExitArmed && s.workers[w].stack == Some(me)
    ensures WorkerOk(Left(s, w, me), w) && HeldLock(Left(s, w, me).workers[w]) == HeldLock(s.workers[w])
    ensures me in s.finished && At(s, Current(w)) == [me]
  {
  }

  lemma LeftPlaced(s: State, w: nat, me: Tid)
    requires Placed(s) && w < |s.workers| && At(s, Current(w)) == [me]
    ensures Placed(Left(s, w, me))
  {
    var s' := Left(s, w, me);
    assert PlaceOk(s, Current(w)) && me in At(s, Current(w));
    forall p ensures PlaceOk(s', p) {
      assert PlaceOk(s, p);
      assert At(s', p) == if p == Current(w) then [] else At(s, p);
    }
    forall u: Tid | u in s'.home ensures u in At(s', s'.home[u]) { assert u in At(s, s.home[u]); }
  }

  lemma LeftFrame(s: State, w: nat, me: Tid)
    requires w < |s.workers| && Bounded(s) && s.workers[w].stack == Some(me) && me in s.finished
    requires me in s.home && s.home[me] == Current(w) && ThreadOk(s, me)
    ensures var s' := Left(s, w, me); SameThreads(s, s', w, s.nextTid) && Bounded(s') && Finishing(s, s')
    ensures s.nextTid !in s.home
  {
    hide HeldLock, Guards;
  }
}
