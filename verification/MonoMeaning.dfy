/** What the effects of module MonoState mean for the threads of the single-core build: whom they
    leave alone, and that what one call leaves behind another one finds. */
module MonoMeaning {
  import opened Basics
  import opened Ring
  import opened MonoState
  import Mono

  /** The effects that the calls of the library are made of. */
  datatype Effect =
    | Creates(t: nat) | Flushes(func: nat) | Begins(t: nat, ring: seq<nat>) | Ends | Reaps(t: nat)
    | HandsOver(k: nat) | Blocks(w: Where, mask: set<nat>) | Wakes(q: nat) | Signals(t: nat, sig: nat)
    | Dispatches(x: nat) | ExitsToJoiner | ExitsAway | Releases

  function After(s: Sys, e: Effect): Sys {
    match e
    case Creates(t) => Create(s, t)
    case Flushes(func) => Flush(s, func)
    case Begins(t, ring) => BeginInline(Pulled(s, t, ring), t)
    case Ends => EndInline(s)
    case Reaps(t) => Reap(s, t)
    case HandsOver(k) => HandOver(s, k)
    case Blocks(w, mask) => Block(s, w, mask)
    case Wakes(q) => Woken(s, q)
    case Signals(t, sig) => Signal(s, t, sig)
    case Dispatches(x) => Dispatch(s, x)
    case ExitsToJoiner => ExitToJoiner(s)
    case ExitsAway => ExitAway(s)
    case Releases => ReleaseDead(s)
  }

  /** The threads that an effect concerns. */
  ghost predicate Concerns(s: Sys, e: Effect, t: nat)
    requires Sizes(s)
  {
    match e
    case Creates(u) => t == u
    case Flushes(_) => t == s.last
    case Begins(u, _) => t == u || t == s.cur
    case Ends => t == s.cur || (0 <= s.cur < |s.desc| && t == s.desc[s.cur].joiner)
    case Reaps(u) => t == u
    case HandsOver(_) => t == s.cur
    case Blocks(w, _) => t == s.cur || (w.Joining? && t == w.u)
    case Wakes(q) => q < |s.lists.queues| && s.lists.queues[q] != [] && t == s.lists.queues[q][0]
    case Signals(u, _) => t == u
    case Dispatches(_) => s.lists.ring != [] && t == s.lists.ring[0]
    case ExitsToJoiner => t == s.cur || (0 <= s.cur < |s.desc| && t == s.desc[s.cur].waiting)
    case ExitsAway => t == s.cur
    case Releases => false
  }

  /** Everybody else's descriptor and place stay as they are. */
  lemma OthersUntouched(s: Sys, e: Effect, t: nat)
    requires Sizes(s) && t < |s.desc| && !Concerns(s, e, t)
    ensures Sizes(After(s, e)) && |After(s, e).desc| == |s.desc|
    ensures After(s, e).desc[t] == s.desc[t] && After(s, e).at[t] == s.at[t]
  {
    hide Without, Rotate, Left;
    if e.Signals? { SignalOthers(s, e.t, e.sig, t); }
  }

  lemma SignalOthers(s: Sys, u: nat, sig: nat, t: nat)
    requires Sizes(s) && t < |s.desc| && t != u
    ensures var s' := Signal(s, u, sig);
            Sizes(s') && |s'.desc| == |s.desc| && s'.desc[t] == s.desc[t] && s'.at[t] == s.at[t]
  {
  }

  /** A thread keeps its function from the flush that gives it to it until it leaves or is reaped. */
  lemma FunctionKept(s: Sys, e: Effect, t: nat)
    requires Sizes(s) && t < |s.desc|
    ensures Sizes(After(s, e)) && |After(s, e).desc| == |s.desc|
    ensures var f, f' := s.desc[t].func, After(s, e).desc[t].func;
            match e
            case Creates(u) => f' == if t == u then 0 else f
            case Flushes(func) => f' == if t == s.last then func else f
            case Reaps(u) => t != u ==> f' == f
            case ExitsAway => t != s.cur ==> f' == f
            case _ => f' == f
  {
    hide Without, Rotate, Left;
    if e.Signals? && t != e.t { SignalOthers(s, e.t, e.sig, t); }
  }

  /** A signal that is pending stays pending: only a new thread in the same descriptor starts without.
      (thread_sigwait consumes one, see Mono.System.Sigwait.) And only thread_kill adds any. */
  lemma SignalsKept(s: Sys, e: Effect, t: nat)
    requires Sizes(s) && t < |s.desc|
    ensures Sizes(After(s, e)) && |After(s, e).desc| == |s.desc|
    ensures var p, p' := s.desc[t].pending, After(s, e).desc[t].pending;
            match e
            case Creates(u) => p' == if t == u then {} else p
            case Signals(u, sig) => t != u ==> p' == p
            case _ => p' == p
  {
    hide Without, Rotate, Left;
    if e.Signals? && t != e.t { SignalOthers(s, e.t, e.sig, t); }
  }

  /** A thread starts when it first gets a stack or runs inline, and never again until its descriptor is
      used for another one. */
  lemma StartsOnce(s: Sys, e: Effect, t: nat)
    requires Sizes(s) && t < |s.desc|
    ensures Sizes(After(s, e)) && |After(s, e).desc| == |s.desc|
    ensures var d, d' := s.desc[t], After(s, e).desc[t];
            d'.started == d.started || if d'.started then e.Dispatches? || e.Begins? else e == Creates(t)
  {
    hide Without, Rotate, Left;
    if e.Signals? && t != e.t { SignalOthers(s, e.t, e.sig, t); }
  }

  /** It finishes when it is the running one and leaves, and stays finished until then. */
  lemma FinishesOnce(s: Sys, e: Effect, t: nat)
    requires Sizes(s) && t < |s.desc|
    ensures Sizes(After(s, e)) && |After(s, e).desc| == |s.desc|
    ensures var d, d' := s.desc[t], After(s, e).desc[t];
            || d'.finished == d.finished
            || if d'.finished then t == s.cur && (e.Ends? || e.ExitsToJoiner? || e.ExitsAway?) else e == Creates(t)
  {
    hide Without, Rotate, Left;
    if e.Signals? && t != e.t { SignalOthers(s, e.t, e.sig, t); }
  }

  /** A new descriptor: not started, not finished, no function yet, no stack, nobody waits for it, no
      signal is pending, and it waits for none. */
  lemma CreatedEmpty(s: Sys, t: nat)
    requires Sizes(s) && t < |s.desc|
    ensures var d := After(s, Creates(t)).desc[t];
            && !d.started && !d.finished && d.func == 0 && d.stackBase == NIL && d.waiting == NIL && d.joiner == NIL
            && d.pending == {} && d.mask == {} && !d.sigWaiting && d.saved == NoContext
    ensures After(s, Creates(t)).last == t && After(s, Creates(t)).at[t] == Created && t in After(s, Creates(t)).used
  {
  }

  /** The created thread is flushed with its function, to the end of the ring. */
  lemma FlushedWithFunction(s: Sys, func: nat)
    requires Inv(s) && 0 <= s.last < |s.desc|
    ensures var s' := After(s, Flushes(func));
            && s'.desc[s.last] == s.desc[s.last].(func := func) && s'.at[s.last] == Ready && s'.last == NIL
            && s'.lists.ring == s.lists.ring + [s.last] && s'.lists.queues == s.lists.queues && s'.cur == s.cur
  {
  }

  // ---------- One call finds what another one left ----------

  /** A signal to a thread that does not wait for it is not lost: it is pending, with all that were
      pending before, so that thread's next wait for it returns at once. */
  lemma KillThenSigwait(s: Sys, t: nat, sig: nat, mask: set<nat>)
    requires Inv(s) && t < |s.at| && s.at[t] != Unused && !(s.desc[t].sigWaiting && sig in s.desc[t].mask)
    ensures var s' := After(s, Signals(t, sig));
            && s'.desc[t].pending == s.desc[t].pending + {sig} && s'.at[t] == s.at[t] && s'.lists == s.lists
            && (sig in mask ==> s'.desc[t].pending * mask != {})
  {
    if sig in mask { assert sig in (s.desc[t].pending + {sig}) * mask; }
  }

  /** A thread that waits for signals is woken exactly by those of its mask; then it is last in the
      ring, waits no longer, and the signal is used up. */
  lemma SigwaitThenKill(s: Sys, mask: set<nat>, sig: nat)
    requires Inv(s) && CanBlock(s, SigWait) && 0 <= s.cur < |s.desc| && s.desc[s.cur].pending * mask == {}
    ensures var b, me := After(s, Blocks(SigWait, mask)), s.cur;
            var k := After(b, Signals(me, sig));
            && |k.at| == |s.at| && (k.at[me] == Ready <==> sig in mask)
            && (sig in mask ==>
                  && k.lists.ring == b.lists.ring + [me] && !k.desc[me].sigWaiting
                  && k.desc[me].pending == s.desc[me].pending)
            && (sig !in mask ==> k.at[me] == SigWait && k.desc[me].pending == s.desc[me].pending + {sig})
  {
    Running(s);
    hide Left, Inv;
    var b, me := After(s, Blocks(SigWait, mask)), s.cur;
    BlockedFor(s, mask);
    var p := s.desc[me].pending;
    assert sig in p * mask <==> sig in p && sig in mask;
  }

  lemma BlockedFor(s: Sys, mask: set<nat>)
    requires Inv(s) && CanBlock(s, SigWait) && 0 <= s.cur < |s.desc|
    ensures var b := Block(s, SigWait, mask);
            && Sizes(b) && |b.at| == |s.at| && b.at[s.cur] == SigWait
            && b.desc[s.cur] == s.desc[s.cur].(saved := Suspended, sigWaiting := true, mask := mask)
  {
    hide Left;
  }

  /** A thread that leaves while another one waits to join it gives that one its own place in the ring;
      the joiner was parked by its join and nothing else has woken it. */
  lemma JoinThenExit(s: Sys)
    requires Inv(s) && 0 <= s.cur < |s.desc| && s.desc[s.cur].joiner == NIL && s.desc[s.cur].waiting != NIL
    ensures var s', w := After(s, ExitsToJoiner), s.desc[s.cur].waiting;
            && 0 <= w < |s.at| && s.at[w] == Joining(s.cur)
            && |s'.at| == |s.at| && s'.at[w] == Ready && s'.at[s.cur] == Dead && s'.desc[s.cur].finished
            && s'.lists.ring == s.lists.ring[0 := w] && s'.desc[w] == s.desc[w]
  {
    Running(s);
    assert ThreadOk(s, s.desc[s.cur].waiting);
  }

  /** Waking takes the first of the queue to the end of the ring; the rest of the queue keeps its order,
      and so do the ring and all other queues. */
  lemma WakeIsFair(s: Sys, q: nat)
    requires Inv(s) && q < |s.lists.queues| && s.lists.queues[q] != [] && s.lists.queues[q][0] < |s.at|
    ensures var s', t := After(s, Wakes(q)), s.lists.queues[q][0];
            && |s'.at| == |s.at| && s'.at[t] == Ready && s'.lists.ring == s.lists.ring + [t]
            && s'.lists.queues == s.lists.queues[q := s.lists.queues[q][1..]] && s'.cur == s.cur
  {
  }

  /** A thread that gets the processor goes on as it was suspended; one that never ran starts, on the
      stack it is given, with the function and the signals it had. */
  lemma DispatchedAsLeft(s: Sys, x: nat)
    requires Handing(s) && s.cur == NIL && (s.desc[s.lists.ring[0]].saved.NoContext? ==> x < |s.owner|)
    ensures var s', c := After(s, Dispatches(x)), s.lists.ring[0];
            && c < |s.desc| && s'.cur == c && s'.lists == s.lists && |s'.desc| == |s.desc|
            && s'.desc[c] == (if !s.desc[c].saved.NoContext? then s.desc[c]
                              else s.desc[c].(started := true, saved := Prepared, stackBase := x))
  {
  }
}
