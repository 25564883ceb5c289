/** The single-core build in memory: descriptors, ring, free lists and the calls of the thread
    library, each proved against the effects of module MonoState. */
module Mono {
  import opened Basics
  import opened Ring
  import opened MonoState
  import opened FreeLists

  const DEFAULT_PRIORITY: int := 3

  /** flush_last_created */
  function Flushed(s: Sys, func: nat): Sys {
    if s.last == NIL then s else Flush(s, func)
  }

  lemma FlushedKeeps(s: Sys, func: nat)
    requires Inv(s) && (s.last == NIL || 0 <= s.last < |s.at|) && func != 0
    ensures Inv(Flushed(s, func)) && (s.last != NIL ==> s.at[s.last] == Created && s.lists.home[s.last] == Off)
    ensures Flushed(s, func).cur == s.cur && Flushed(s, func).last == NIL
  {
    if s.last != NIL { FlushKeeps(s, func); assert ThreadOk(s, s.last); }
  }

  lemma AloneElected(priority: seq<int>, ring: seq<nat>)
    requires |ring| == 1 && ring[0] < |priority|
    ensures Elects(priority, ring, 0)
  {
  }

  /** The ring as thread_yield and the blocking calls see it. */
  lemma RingKnown(s: Sys)
    requires Inv(s)
    ensures Sizes(s) && 0 <= s.cur < |s.at| && s.lists.ring != [] && s.lists.ring[0] == s.cur && s.at[s.cur] == Ready
    ensures s.desc[s.cur].started && !s.desc[s.cur].finished
  {
    Running(s);
  }

  /** Nobody in the ring is more urgent than the member at `k`, and after the running thread nobody
      before it is as urgent. The running thread itself is elected only if all others are less urgent:
      a tie goes to somebody else. */
  ghost predicate Elects(priority: seq<int>, ring: seq<nat>, k: nat) {
    && k < |ring| && (forall i :: 0 <= i < |ring| ==> ring[i] < |priority|)
    && (forall i :: 0 <= i < |ring| ==> priority[ring[i]] <= priority[ring[k]])
    && (forall i :: 0 < i < |ring| && (i < k || k == 0) ==> priority[ring[i]] < priority[ring[k]])
  }

  /** Resetting a free descriptor and flushing the last created thread do not interfere. */
  lemma ResetFirst(s: Sys, t: nat, func: nat)
    requires Sizes(s) && t < |s.at| && t != s.last && (s.last == NIL || 0 <= s.last < |s.at|)
    ensures var f := Flushed(s, func);
            Flushed(s.(desc := s.desc[t := FRESH], used := s.used + {t}), func) ==
            f.(desc := f.desc[t := FRESH], used := f.used + {t})
    ensures Sizes(Flushed(s, func)) && |Flushed(s, func).at| == |s.at| && Flushed(s, func).used == s.used
  {
    if s.last != NIL {
      assert s.desc[t := FRESH][s.last := s.desc[s.last].(func := func)] ==
             s.desc[s.last := s.desc[s.last].(func := func)][t := FRESH];
    }
  }

  lemma CreateFields(s: Sys, t: nat)
    requires Sizes(s) && t < |s.at|
    ensures MonoState.Create(s, t) ==
            s.(desc := s.desc[t := FRESH], at := s.at[t := Created], last := t, used := s.used + {t})
  {
  }

  lemma LastCreated(s: Sys)
    requires Inv(s) && 0 <= s.last < |s.at|
    ensures Unstarted(s, s.last) && s.last != s.cur && s.lists.home[s.last] == Off && s.desc[s.last].saved.NoContext?
    ensures s.lists.home[s.last := Off] == s.lists.home
  {
    Running(s);
    assert ThreadOk(s, s.last);
  }

  /** A ready thread that has not started has no context and no stack. */
  lemma NeverRan(s: Sys, t: nat)
    requires Inv(s) && t < |s.at| && s.lists.home[t] == InRing && !s.desc[t].started
    ensures s.at[t] == Ready && t != s.cur && s.last != t && s.desc[t].saved.NoContext? && s.desc[t].stackBase == NIL
  {
    assert ThreadOk(s, t);
  }

  function Less(n: nat): nat { if n == 0 then 0 else n - 1 }

  lemma Lender(s: Sys)
    requires Inv(s) && 0 <= s.cur < |s.at| && s.desc[s.cur].joiner != NIL
    ensures 0 <= s.desc[s.cur].joiner < |s.at| && s.lists.home[s.desc[s.cur].joiner] == Off
    ensures s.desc[s.cur].joiner != s.cur
    ensures s.lists.ring != [] && s.lists.ring[0] == s.cur && Sizes(s)
  {
    Running(s);
    assert ThreadOk(s, s.desc[s.cur].joiner);
  }

  lemma EndFields(s: Sys)
    requires Sizes(s) && 0 <= s.cur < |s.at| && 0 <= s.desc[s.cur].joiner < |s.at| && s.lists.ring != []
    ensures var t, g := s.cur, s.desc[s.cur].joiner;
            EndInline(s) == s.(
              lists := s.lists.(ring := s.lists.ring[0 := g], home := s.lists.home[g := InRing][t := Off]), cur := g,
              desc := s.desc[t := s.desc[t].(finished := true, joiner := NIL)], at := s.at[t := Dead][g := Ready])
  {
  }

  lemma Waiter(s: Sys)
    requires Inv(s) && 0 <= s.cur < |s.at| && s.desc[s.cur].joiner == NIL && s.desc[s.cur].waiting != NIL
    ensures var w := s.desc[s.cur].waiting; 0 <= w < |s.at| && s.lists.home[w] == Off && w != s.cur
  {
    Running(s);
    assert ThreadOk(s, s.desc[s.cur].waiting);
  }

  lemma RetireFields(s: Sys)
    requires Sizes(s) && 0 <= s.cur < |s.at| && (s.dead != NIL ==> 0 <= s.dead < |s.owner|)
    requires s.desc[s.cur].stackBase != NIL ==> 0 <= s.desc[s.cur].stackBase < |s.owner|
    ensures var me, x := s.cur, s.desc[s.cur].stackBase;
            var owner := if s.dead == NIL then s.owner else s.owner[s.dead := Nobody];
            ExitAway(s) == s.(
              lists := ExitAway(s).lists, cur := NIL,
              desc := s.desc[me := s.desc[me].(finished := true, func := 0, stackBase := NIL)], at := s.at[me := Dead],
              owner := if x == NIL then owner else owner[x := Pending], dead := x,
              stacks := if s.dead == NIL then s.stacks else s.stacks - {s.dead})
  {
    hide Departed;
  }

  lemma FirstRunFields(s: Sys, x: nat)
    requires Sizes(s) && s.lists.ring != [] && s.lists.ring[0] < |s.at| && x < |s.owner|
    requires s.desc[s.lists.ring[0]].saved.NoContext?
    ensures var c := s.lists.ring[0];
            Dispatch(s, x) == s.(
              cur := c, desc := s.desc[c := s.desc[c].(started := true, saved := Prepared, stackBase := x)],
              root := s.root[c := c], depth := s.depth[c := 0], owner := s.owner[x := Of(c)], stacks := s.stacks + {x})
  {
  }

  lemma DispatchKeepsDead(s: Sys, t: nat)
    requires Handing(s) && t < |s.at| && s.at[t] == Dead
    ensures forall x :: |Dispatch(s, x).at| == |s.at| && Dispatch(s, x).at[t] == Dead
  {
  }

  lemma QueueHead(s: Sys, q: nat)
    requires Inv(s) && q < |s.lists.queues| && s.lists.queues[q] != [] && s.lists.queues[q][0] < |s.at|
    requires s.lists.home[s.lists.queues[q][0]] == InQueue(q)
    ensures var t := s.lists.queues[q][0];
            s.at[t] == Queued(q) && s.desc[t := s.desc[t].(sigWaiting := false)] == s.desc
  {
    assert ThreadOk(s, s.lists.queues[q][0]);
  }

  lemma LastInUse(s: Sys)
    requires Inv(s) && (s.last == NIL || 0 <= s.last < |s.at|)
    ensures Sizes(s) && (s.last != NIL ==> s.last in s.used && s.lists.home[s.last] == Off)
  {
    if s.last != NIL { assert ThreadOk(s, s.last); }
  }

  /** What the running thread may wait for; a thread has one joiner. */
  ghost predicate CanWait(s: Sys, w: Where) {
    Sizes(s) &&
    match w
    case SigWait => true
    case Queued(q) => q < |s.lists.queues|
    case Joining(u) => u < |s.at| && u != s.cur && Live(s.desc[u], s.at[u]) && s.desc[u].waiting == NIL
      && s.desc[u].joiner == NIL
    case _ => false
  }

  /** The thread at the head of the ring never ran, and no stack of the arena is free for it; the one
      in `pending_dead_stack` counts as used. */
  ghost predicate NoStackFor(s: Sys) {
    && s.lists.ring != [] && s.lists.ring[0] < |s.desc| && s.desc[s.lists.ring[0]].saved.NoContext?
    && forall y: nat :: y < |s.owner| ==> y in s.stacks
  }

  lemma HeadKnown(s: Sys)
    requires Handing(s)
    ensures s.lists.ring != [] && s.lists.ring[0] < |s.at|
  {
  }

  function FirstDescs(cap: nat): (d: seq<Desc>)
    ensures |d| == cap
  {
    seq(cap, t => if t == 0 then FRESH.(started := true) else FRESH)
  }

  function FirstPlaces(cap: nat): (w: seq<Where>)
    ensures |w| == cap
  {
    seq(cap, t => if t == 0 then Ready else Unused)
  }

  function Initial(cap: nat, stackCap: nat, l: Lists): Sys {
    Sys(l, 0, FirstDescs(cap), FirstPlaces(cap), seq(cap, _ => 0), seq(cap, _ => 0), NIL, NIL,
        seq(stackCap, _ => Nobody), {0}, {})
  }

  lemma InitialKeeps(cap: nat, stackCap: nat, l: Lists)
    requires cap > 0 && |l.home| == cap && l.ring == [0] && l.home[0] == InRing
    requires forall t :: 0 < t < cap ==> l.home[t] == Off
    ensures Inv(Initial(cap, stackCap, l))
  {
    var s := Initial(cap, stackCap, l);
    forall t: nat | t < |s.at| ensures ThreadOk(s, t) { }
    forall x: nat | x < |s.owner| ensures OwnerOk(s, x) { }
  }

  lemma {:induction false} Least(x: set<nat>) returns (s: nat)
    requires x != {}
    ensures s in x && forall y :: y in x ==> s <= y
    decreases |x|
  {
    var z :| z in x;
    if x == {z} {
      s := z;
    } else {
      var r := Least(x - {z});
      s := if r < z then r else z;
      assert x == (x - {z}) + {z};
    }
  }

  method Lowest(x: set<nat>) returns (s: nat)
    requires x != {}
    ensures s in x && forall y :: y in x ==> s <= y
  {
    ghost var l := Least(x);
    s :| s in x && forall y :: y in x ==> s <= y;
  }

  datatype SigResult = Got(sig: nat) | Parked | NobodyElse | Interrupted

  datatype JoinResult = Deadlock | Inline | Waits | Joined | Alone | Aborted
  datatype ExitResult = Inlined | Switched | Last | NoStack

  /** `t` exists and nobody joins it yet. */
  predicate Joinable(s: Sys, t: nat) {
    Sizes(s) && t < |s.at| && s.at[t] != Unused
      && (Live(s.desc[t], s.at[t]) ==> s.desc[t].waiting == NIL && s.desc[t].joiner == NIL)
  }

  /** thread_join returns -1 because nobody else is ready, but the caller is already registered as
      the joiner of `t`. */
  function Stranded(s: Sys, t: nat): Sys
    requires Sizes(s) && t < |s.at|
  {
    s.(desc := s.desc[t := s.desc[t].(waiting := s.cur)])
  }

  /** That registration is what breaks the invariant: `t` will hand its place to a thread that does
      not wait. */
  lemma StrandedBreaks(s: Sys, t: nat)
    requires Inv(s) && t < |s.at| && Live(s.desc[t], s.at[t]) && t != s.cur
    ensures !Inv(Stranded(s, t))
  {
    Running(s);
    var s' := Stranded(s, t);
    assert !JoinOk(s', t);
    assert !ThreadOk(s', t);
  }

  /** The caller of thread_join has to wait, and somebody else is ready. */
  ghost predicate Parks(s: Sys, func: nat, t: nat, refused: bool)
    requires Sizes(s) && t < |s.at|
  {
    && s.at[t] != Dead && !refused && s.at[t] != Created && s.desc[t].started
    && |Flushed(s, func).lists.ring| > 1
  }

  /** A finished thread is reaped. Otherwise a refused join changes nothing, a thread that never ran
      runs inline at once, and for any other the caller parks if somebody else is ready. */
  ghost predicate JoinEffect(s: Sys, func: nat, t: nat, refused: bool, r: JoinResult, x: nat, k: nat, s': Sys)
    requires Sizes(s) && t < |s.at|
  {
    var f := Flushed(s, func);
    if s.at[t] == Dead then r == Joined && s' == Reap(s, t)
    else if refused then r == Deadlock && s' == s
    else if s.at[t] == Created then r == Inline && s' == BeginInline(Pulled(s, t, s.lists.ring), t)
    else if !s.desc[t].started then
      r == Inline && k < |f.lists.ring| && f.lists.ring[k] == t
        && s' == BeginInline(Pulled(f, t, Without(f.lists.ring, k)), t)
    else if |f.lists.ring| == 1 then r == Alone && Sizes(f) && t < |f.at| && s' == Stranded(f, t)
    else r == Waits && s' == Dispatch(Block(f, Joining(t), {}), x)
  }

  lemma Kinds(s: Sys, t: nat)
    requires Inv(s) && t < |s.at| && s.at[t] != Unused
    ensures (s.desc[t].finished <==> s.at[t] == Dead) && (s.last == t <==> s.at[t] == Created)
    ensures !s.desc[t].finished && s.last != t && !s.desc[t].started ==>
              s.desc[t].func != 0 && s.lists.home[t] == InRing
    ensures s.desc[t].started && !s.desc[t].finished <==> Live(s.desc[t], s.at[t])
  {
    assert ThreadOk(s, t);
  }

  lemma FlushedThread(s: Sys, func: nat, t: nat)
    requires Inv(s) && t < |s.at| && t != s.last && (s.last == NIL || 0 <= s.last < |s.at|)
    ensures var f := Flushed(s, func);
            Sizes(f) && |f.at| == |s.at| && f.desc[t] == s.desc[t] && f.at[t] == s.at[t]
              && f.lists.home[t] == s.lists.home[t]
            && (s.last != NIL ==> |f.lists.ring| == |s.lists.ring| + 1) && (s.last == NIL ==> f == s)
  {
  }

  /** A new thread `t`, if there is one, has the default priority; nobody else's changes. */
  function PriorityAfter(priority: seq<int>, t: int): seq<int> {
    if 0 <= t < |priority| then priority[t := DEFAULT_PRIORITY] else priority
  }

  class System {
    const links: Links
    const threads: Arena
    const stacks: Arena
    var desc: seq<Desc>
    var lastCreated: int
    var lastFunc: nat
    var inlineExecuting: nat
    var pendingDead: int
    ghost var cur: int
    ghost var at: seq<Where>
    ghost var root: seq<nat>
    ghost var depth: seq<nat>
    ghost var owner: seq<Owner>

    ghost function View(): Sys
      reads this, links, threads, stacks
    {
      Sys(links.lists, cur, desc, at, root, depth, lastCreated, pendingDead, owner, threads.out, stacks.out)
    }

    ghost function Memory(): set<object> {
      {this, links, links.next, links.prev, links.priority, links.head, links.tail,
       threads, threads.slots, threads.slots.link, threads.slots.head,
       stacks, stacks.slots, stacks.slots.link, stacks.slots.head}
    }

    /** The objects that most calls change. Priorities are not among them. */
    ghost function Parts(): set<object> {
      {links, links.next, links.prev, links.head, links.tail, threads, threads.slots, threads.slots.link,
       threads.slots.head, stacks, stacks.slots, stacks.slots.link, stacks.slots.head}
    }

    predicate Foreign(a: array<int>) {
      a != links.next && a != links.prev && a != links.priority && a != links.head && a != links.tail
    }

    /** The parts are separate and each is well formed. */
    ghost predicate Shaped()
      reads Memory()
    {
      && threads != stacks && threads.slots != stacks.slots
      && Foreign(threads.slots.link) && Foreign(threads.slots.head)
      && Foreign(stacks.slots.link) && Foreign(stacks.slots.head)
      && threads.slots.link != stacks.slots.link && threads.slots.link != stacks.slots.head
      && threads.slots.head != stacks.slots.link && threads.slots.head != stacks.slots.head
      && links.Valid() && threads.Valid() && stacks.Valid()
      && Sizes(View()) && |desc| == threads.cap && |owner| == stacks.cap
      && (lastCreated == NIL || 0 <= lastCreated < |desc|) && lastFunc != 0
    }

    ghost predicate Valid()
      reads Memory()
    {
      Shaped() && links.Running() && Inv(View())
    }

    /** init_system: the main thread runs on its native stack. */
    constructor (cap: nat, stackCap: nat, queues: nat)
      requires cap > 0
      ensures Valid() && View() == Initial(cap, stackCap, links.lists)
      ensures links.lists.ring == [0] && |links.lists.queues| == queues
      ensures forall q :: 0 <= q < |links.lists.queues| ==> links.lists.queues[q] == []
      ensures inlineExecuting == 0 && fresh(links) && fresh(threads) && fresh(stacks) && fresh(threads.slots)
      ensures fresh(stacks.slots)
      ensures fresh(links.next) && fresh(links.prev) && fresh(links.priority) && fresh(links.head) && fresh(links.tail)
      ensures fresh(threads.slots.link) && fresh(threads.slots.head) && fresh(stacks.slots.link)
      ensures fresh(stacks.slots.head)
    {
      hide Inv, Linked, FirstDescs, FirstPlaces, Arena.Valid, Links.Valid, Handing;
      var slab := new Arena(cap);
      var main := slab.Alloc();
      threads := slab;
      links := new Links(cap, queues);
      stacks := new Arena(stackCap);
      lastCreated, lastFunc, inlineExecuting, pendingDead, cur := NIL, 1, 0, NIL, 0;
      desc, at := FirstDescs(cap), FirstPlaces(cap);
      root, depth, owner := seq(cap, _ => 0), seq(cap, _ => 0), seq(stackCap, _ => Nobody);
      new;
      InitialKeeps(cap, stackCap, links.lists);
      assert View() == Initial(cap, stackCap, links.lists);
      assert Shaped();
    }

    method FlushLastCreated()
      requires Shaped() && links.Running() && (lastCreated != NIL ==> links.lists.home[lastCreated] == Off)
      modifies this`desc, this`at, this`lastCreated, links`lists, links.next, links.prev
      ensures Shaped() && links.Running() && links.current == old(links.current)
      ensures View() == Flushed(old(View()), lastFunc)
      ensures old(lastCreated) != NIL ==> |desc| == |old(desc)| && desc[old(lastCreated)].func == lastFunc
    {
      if lastCreated != NIL {
        desc := desc[lastCreated := desc[lastCreated].(func := lastFunc)];
        links.SchedEnqueue(lastCreated);
        at := at[lastCreated := Ready];
        lastCreated := NIL;
      }
    }

    /** No stack of the arena is free; the one in `pending_dead_stack` counts as used. */
    ghost predicate AllStacksUsed(used: set<nat>) {
      forall y: nat :: y < stacks.cap ==> y in used
    }

    /** stack_alloc */
    method StackAlloc() returns (s: int)
      requires Shaped() && links.Running()
      modifies stacks, stacks.slots, stacks.slots.link, stacks.slots.head
      ensures Shaped() && links.Running() && (s == NIL <==> AllStacksUsed(old(stacks.out)))
      ensures s == NIL ==> View() == old(View())
      ensures s != NIL ==>
                && 0 <= s < |owner| && s !in old(stacks.out)
                && View() == old(View()).(stacks := old(stacks.out) + {s})
    {
      hide Linked, Arena.Valid, Links.Valid;
      s := stacks.Alloc();
    }

    /** lazy_stack_alloc for `current`, and its first run (thread_entry). Without a free stack the
        program aborts. */
    method FirstRun() returns (ok: bool, ghost x: nat)
      requires Shaped() && links.Running() && Handing(View()) && cur == NIL
      requires links.current < |desc| && desc[links.current].saved == NoContext
      modifies this`desc, this`root, this`depth, this`owner, this`cur, stacks, stacks.slots, stacks.slots.link,
               stacks.slots.head
      ensures ok <==> !NoStackFor(old(View()))
      ensures !ok ==> AllStacksUsed(stacks.out)
      ensures ok ==> Valid() && x < |old(owner)| && x !in old(stacks.out) && View() == Dispatch(old(View()), x)
    {
      hide Handing, Inv, Linked, Arena.Valid, Links.Valid, Dispatch;
      HeadKnown(View());
      var c := links.current;
      var s := StackAlloc();
      if s == NIL { return false, 0; }
      ok, x := true, s;
      DispatchKeeps(old(View()), x);
      FirstRunFields(old(View()), x);
      desc := desc[c := desc[c].(started := true, saved := Prepared, stackBase := s)];
      root, depth, owner, cur := root[c := c], depth[c := 0], owner[s := Of(c)], c;
    }

    /** `current` goes on where it left, on its own stack; nothing is released. */
    method Resume()
      requires Shaped() && links.Running() && Handing(View()) && cur == NIL
      requires links.current < |desc| && desc[links.current].saved != NoContext
      modifies this`cur
      ensures Valid() && View() == Dispatch(old(View()), 0)
    {
      hide Handing, Inv, Linked, Arena.Valid, Links.Valid;
      HeadKnown(View());
      DispatchKeeps(View(), 0);
      cur := links.current;
    }

    /** The end of thread_yield_asm, on the stack it switched to: `pending_dead_stack` is released. */
    method ReleasePending()
      requires Valid()
      modifies this`pendingDead, this`owner, stacks, stacks.slots, stacks.slots.link, stacks.slots.head
      ensures Valid() && View() == ReleaseDead(old(View())) && pendingDead == NIL
    {
      hide Handing, Inv, Linked, Arena.Valid, Links.Valid;
      ReleaseKeeps(View());
      if pendingDead != NIL {
        stacks.Release(pendingDead);
        owner := owner[pendingDead := Nobody];
        pendingDead := NIL;
      }
    }

    /** The switch to `current`. */
    method SwitchTo() returns (ok: bool, ghost x: nat)
      requires Shaped() && links.Running() && Handing(View()) && cur == NIL
      modifies this`desc, this`root, this`depth, this`owner, this`cur, stacks, stacks.slots, stacks.slots.link,
               stacks.slots.head
      ensures ok ==> Valid() && View() == Dispatch(old(View()), x)
      ensures ok <==> !NoStackFor(old(View()))
      ensures !ok ==> AllStacksUsed(stacks.out)
    {
      hide Handing, Inv, Linked, Arena.Valid, Links.Valid, Dispatch;
      HeadKnown(View());
      if desc[links.current].saved == NoContext {
        ok, x := FirstRun();
      } else {
        Resume();
        ok, x := true, 0;
      }
    }

    /** The running thread stays ready and the ring member `next` gets the processor. */
    method PassTo(next: nat, ghost k: nat) returns (ok: bool, ghost x: nat)
      requires Valid() && 0 < k < |links.lists.ring| && links.lists.ring[k] == next
      modifies this`desc, this`at, this`root, this`depth, this`owner, this`cur
      modifies this`lastCreated, this`pendingDead, Parts()
      ensures ok ==> Valid() && inlineExecuting == old(inlineExecuting)
      ensures ok ==> View() == Dispatch(HandOver(old(View()), k), x)
      ensures ok <==> !NoStackFor(HandOver(old(View()), k))
      ensures !ok ==> AllStacksUsed(stacks.out)
    {
      hide Handing, Inv, Linked, Arena.Valid, Links.Valid, Dispatch;
      RingKnown(View());
      links.MemberKnown(k);
      HandOverKeeps(View(), k);
      var me := links.current;
      links.SetCurrent(next, k);
      desc := desc[me := desc[me].(saved := Suspended)];
      cur := NIL;
      ok, x := SwitchTo();
    }

    /** The switch of thread_yield_asm to the next thread of the ring. */
    method YieldToNext() returns (ok: bool, ghost x: nat)
      requires Valid() && |links.lists.ring| > 1
      modifies this`desc, this`at, this`root, this`depth, this`owner, this`cur
      modifies this`lastCreated, this`pendingDead, Parts()
      ensures ok ==> Valid() && inlineExecuting == old(inlineExecuting)
      ensures ok ==> View() == ReleaseDead(Dispatch(HandOver(old(View()), 1), x))
      ensures ok <==> !NoStackFor(HandOver(old(View()), 1))
      ensures !ok ==> AllStacksUsed(stacks.out)
    {
      hide Handing, Inv, Linked, Arena.Valid, Links.Valid, Dispatch, HandOver, ReleaseDead;
      links.MemberKnown(0);
      links.MemberKnown(1);
      ok, x := PassTo(links.next[links.current], 1);
      if ok { ReleasePending(); }
    }

    /** thread_yield: the next thread of the ring, unless somebody runs inline or nobody else is
        ready. After a switch, and only then, the stack of the thread that exited last is released. */
    method Yield() returns (ok: bool, ghost x: nat)
      requires Valid()
      modifies this`desc, this`at, this`root, this`depth, this`owner, this`cur
      modifies this`lastCreated, this`pendingDead, Parts()
      ensures ok ==> Valid() && inlineExecuting == old(inlineExecuting)
      ensures ok ==> View() == var f := Flushed(old(View()), old(lastFunc));
                               if old(inlineExecuting) > 0 then old(View())
                               else if |f.lists.ring| == 1 then f
                               else ReleaseDead(Dispatch(HandOver(f, 1), x))
      ensures !ok <==> var f := Flushed(old(View()), old(lastFunc));
                       old(inlineExecuting) == 0 && |f.lists.ring| > 1 && NoStackFor(HandOver(f, 1))
      ensures !ok ==> AllStacksUsed(stacks.out)
    {
      hide Handing, Inv, Linked, Arena.Valid, Links.Valid, Dispatch, Flush, HandOver, ReleaseDead;
      ok, x := true, 0;
      if inlineExecuting > 0 { return; }
      FlushedKeeps(View(), lastFunc);
      FlushLastCreated();
      var alone := links.IsSchedEmpty();
      if alone { return; }
      ok, x := YieldToNext();
    }

    /** sched_pick_highest, unless all others are less urgent than the running thread. */
    method Elect() returns (best: nat, ghost k: nat)
      requires Valid() && |links.lists.ring| > 1
      ensures k < |links.lists.ring| && best == links.lists.ring[k] && Elects(links.priority[..], links.lists.ring, k)
    {
      hide Handing, Inv, Linked, Arena.Valid, Links.Valid;
      links.MembersKnown();
      best, k := links.PickHighest();
      if links.priority[best] < links.priority[links.current] { best, k := links.current, 0; }
    }

    /** thread_yield with priorities: the first of the most urgent others, unless all of them are
        less urgent than the running thread. It switches by context_switch and releases no stack. */
    method YieldByPriority() returns (ok: bool, ghost x: nat, ghost k: nat)
      requires Valid()
      modifies this`desc, this`at, this`root, this`depth, this`owner, this`cur
      modifies this`lastCreated, this`pendingDead, Parts()
      ensures ok ==> Valid() && inlineExecuting == old(inlineExecuting)
      ensures ok ==> View() == var f := Flushed(old(View()), old(lastFunc));
                               if old(inlineExecuting) > 0 then old(View())
                               else if k == 0 then f
                               else Dispatch(HandOver(f, k), x)
      ensures !ok <==>
                && old(inlineExecuting) == 0 && k > 0
                && NoStackFor(HandOver(Flushed(old(View()), old(lastFunc)), k))
      ensures old(inlineExecuting) == 0 ==>
                Elects(old(links.priority[..]), Flushed(old(View()), old(lastFunc)).lists.ring, k)
    {
      hide Handing, Inv, Linked, Arena.Valid, Links.Valid, Dispatch, Flush, HandOver, Elects, NoStackFor;
      ok, x, k := true, 0, 0;
      if inlineExecuting > 0 { return; }
      links.MembersKnown();
      FlushedKeeps(View(), lastFunc);
      FlushLastCreated();
      links.MembersKnown();
      var alone := links.IsSchedEmpty();
      if alone {
        AloneElected(links.priority[..], links.lists.ring);
        return;
      }
      var best;
      best, k := Elect();
      if best == links.current {
        links.OnlyHead(k);
        return;
      }
      ok, x := PassTo(best, k);
    }

    /** thread_alloc and thread_cold_reset */
    method NewDescriptor() returns (t: int)
      requires Valid()
      modifies this`desc, threads, threads.slots, threads.slots.link, threads.slots.head, links.priority
      ensures Shaped() && links.Running() && links.priority[..] == PriorityAfter(old(links.priority[..]), t)
      ensures t == NIL ==> Valid() && View() == old(View()) && forall u: nat :: u < threads.cap ==> u in threads.out
      ensures t != NIL ==> 0 <= t < |desc| && t !in old(threads.out)
      ensures t != NIL ==> View() == old(View()).(desc := old(desc)[t := FRESH], used := old(threads.out) + {t})
    {
      hide Handing, Inv, Linked, Arena.Valid, Links.Valid, Elects;
      links.MembersKnown();
      t := threads.Alloc();
      if t == NIL { return; }
      desc := desc[t := FRESH];
      links.priority[t] := DEFAULT_PRIORITY;
    }

    /** thread_create; NIL if all descriptors are in use. */
    method Create(func: nat) returns (t: int)
      requires Valid() && func != 0
      modifies this`desc, this`at, this`root, this`depth, this`owner, this`cur, this`lastCreated, this`pendingDead
      modifies this`lastFunc, links.priority, Parts()
      ensures Valid() && inlineExecuting == old(inlineExecuting)
      ensures t == NIL ==> View() == old(View()) && forall u: nat :: u < threads.cap ==> u in threads.out
      ensures t != NIL ==> 0 <= t < |desc| && t !in old(threads.out) && lastFunc == func
      ensures t != NIL ==> View() == MonoState.Create(Flushed(old(View()), old(lastFunc)), t)
      ensures links.priority[..] == PriorityAfter(old(links.priority[..]), t)
    {
      hide Handing, Inv, Linked, Arena.Valid, Links.Valid, Flushed, Elects, MonoState.Create;
      ghost var v := View();
      FlushedKeeps(v, lastFunc);
      LastInUse(v);
      t := NewDescriptor();
      if t == NIL { return; }
      links.MembersKnown();
      FlushLastCreated();
      ResetFirst(v, t, lastFunc);
      Stash(t, func, Flushed(v, lastFunc));
    }

    /** The new thread `t` becomes `last_created`; `f` is the state before it was allocated. */
    method Stash(t: nat, func: nat, ghost f: Sys)
      requires Shaped() && links.Running() && Inv(f) && f.last == NIL && t < |f.at| && t !in f.used && func != 0
      requires View() == f.(desc := f.desc[t := FRESH], used := f.used + {t})
      modifies this`lastCreated, this`lastFunc, this`at
      ensures Valid() && View() == MonoState.Create(f, t) && lastFunc == func
    {
      hide Handing, Inv, Linked, Arena.Valid, Links.Valid, Elects, MonoState.Create;
      RingKnown(f);
      CreateKeeps(f, t);
      CreateFields(f, t);
      lastCreated, lastFunc, at := t, func, at[t := Created];
    }

    /** sched_pick_next, sched_remove and current = next: the running thread blocks at `w`. */
    method Detach(w: Where, mask: set<nat>)
      requires Valid() && |links.lists.ring| > 1 && CanWait(View(), w)
      modifies this`desc, this`at, this`cur, links`current, links`lists, links.next, links.prev, links.head, links.tail
      ensures Shaped() && links.Running() && Handing(View()) && cur == NIL && View() == Block(old(View()), w, mask)
    {
      hide Handing, Inv, Linked, Arena.Valid, Links.Valid, Dispatch, Departed, Live, HandOver, Elects;
      ghost var v, n := View(), |links.lists.ring|;
      RingKnown(v);
      links.MemberKnown(0);
      links.MemberKnown(n - 1);
      BlockKeeps(v, w, mask);
      var me := links.current;
      links.Depart(if w.Queued? then w.q else NIL);
      links.MembersKnown();
      desc := desc[me := desc[me].(saved := Suspended, sigWaiting := w.SigWait?,
                                   mask := if w.SigWait? then mask else desc[me].mask)];
      if w.Joining? { desc := desc[w.u := desc[w.u].(waiting := me)]; }
      at, cur := at[me := w], NIL;
    }

    /** The running thread blocks at `w`, and the thread enqueued last gets the processor. */
    method Leave(w: Where, mask: set<nat>) returns (ok: bool, ghost x: nat)
      requires Valid() && |links.lists.ring| > 1 && CanWait(View(), w)
      modifies this`desc, this`at, this`root, this`depth, this`owner, this`cur
      modifies this`lastCreated, this`pendingDead, Parts()
      ensures ok ==> Valid() && inlineExecuting == old(inlineExecuting)
      ensures ok ==> View() == Dispatch(Block(old(View()), w, mask), x)
      ensures ok <==> !NoStackFor(Block(old(View()), w, mask))
    {
      hide Handing, Inv, Linked, Arena.Valid, Links.Valid, Dispatch, Block, CanWait, Elects;
      Detach(w, mask);
      ok, x := SwitchTo();
    }
 
    /** inline_run up to the call of the thread's function; `t` was pulled from its place in `v`. */
    method InlineRun(t: nat, ghost v: Sys, ghost ring: seq<nat>)
      requires Shaped() && links.Running() && Inv(v) && t < |v.at| && Unstarted(v, t) && t != v.cur && ring != []
      requires ring[0] == v.cur
      requires View() == Pulled(v, t, ring)
      modifies this`desc, this`at, this`root, this`depth, this`cur, this`inlineExecuting, links`current, links`lists,
               links.next, links.prev
      ensures Valid() && View() == BeginInline(old(View()), t) && inlineExecuting == old(inlineExecuting) + 1
    {
      hide Handing, Inv, Linked, Arena.Valid, Links.Valid, Elects, Unstarted, Pulled, BeginInline;
      RingKnown(v);
      PulledFields(v, t, ring);
      BeginFields(View(), t);
      BeginInlineKeeps(v, t, ring);
      ghost var w := View();
      links.MemberKnown(0);
      links.MembersKnown();
      var prev := links.current;
      links.TakeOver(t);
      Enter(t, prev, w);
    }

    /** `t` runs in the frame of `prev`; `w` is the state before it took the place of `prev`. */
    method Enter(t: nat, prev: nat, ghost w: Sys)
      requires Shaped() && links.Running() && t < |desc| && prev < |desc| && w.cur == prev
      requires Sizes(w) && w.lists.ring != [] && View() == w.(lists := BeginInline(w, t).lists)
      requires Inv(BeginInline(w, t))
      modifies this`desc, this`at, this`root, this`depth, this`cur, this`inlineExecuting
      ensures Valid() && View() == BeginInline(w, t) && inlineExecuting == old(inlineExecuting) + 1
    {
      hide Handing, Inv, Linked, Arena.Valid, Links.Valid, Elects, BeginInline;
      BeginFields(w, t);
      desc := desc[t := desc[t].(started := true, joiner := prev)];
      inlineExecuting := inlineExecuting + 1;
      root, depth := root[t := root[prev]], depth[t := depth[prev] + 1];
      at, cur := at[t := Ready][prev := Lent(t)], t;
    }
 
    /** The joined thread is still `last_created`: it never gets a stack of its own. */
    method InlineLast(t: nat)
      requires Valid() && lastCreated == t && t != links.current
      modifies this`desc, this`at, this`root, this`depth, this`cur, this`lastCreated, this`inlineExecuting
      modifies links, links.next, links.prev
      ensures Valid() && inlineExecuting == old(inlineExecuting) + 1
      ensures View() == BeginInline(Pulled(old(View()), t, old(links.lists.ring)), t)
    {
      hide Handing, Inv, Linked, Arena.Valid, Links.Valid, Elects, BeginInline;
      ghost var v := View();
      RingKnown(v);
      LastCreated(v);
      lastCreated := NIL;
      InlineRun(t, v, v.lists.ring);
    }

    /** The joined thread is ready but has never run: it leaves the ring. It has no stack to give
        back (NeverRan), so the code's test for one never succeeds. */
    method InlineQueued(t: nat, ghost k: nat)
      requires Valid() && lastCreated == NIL && t < |desc| && !desc[t].started
      requires 0 < k < |links.lists.ring| && links.lists.ring[k] == t
      modifies this`desc, this`at, this`root, this`depth, this`cur, this`lastCreated, this`inlineExecuting
      modifies links, links.next, links.prev
      ensures Valid() && inlineExecuting == old(inlineExecuting) + 1
      ensures View() == BeginInline(Pulled(old(View()), t, Without(old(links.lists.ring), k)), t)
    {
      hide Handing, Inv, Linked, Arena.Valid, Links.Valid, Elects, BeginInline;
      ghost var v := View();
      RingKnown(v);
      links.MemberKnown(k);
      NeverRan(v, t);
      links.SchedRemove(t, k);
      WithoutFirst(v.lists.ring, k);
      InlineRun(t, v, Without(v.lists.ring, k));
    }
 
    /** The end of thread_join: the descriptor and the stack of `t` are released. */
    method Cleanup(t: nat)
      requires Valid() && t < |desc| && View().at[t] == Dead
      modifies this`desc, this`at, this`owner, threads, threads.slots, threads.slots.link, threads.slots.head,
               stacks, stacks.slots, stacks.slots.link, stacks.slots.head
      ensures Valid() && View() == Reap(old(View()), t)
    {
      hide Handing, Inv, Linked, Arena.Valid, Links.Valid, Elects;
      ghost var v := View();
      RingKnown(v);
      ReapKeeps(v, t);
      desc := desc[t := desc[t].(func := 0)];
      if desc[t].stackBase != NIL {
        stacks.Release(desc[t].stackBase);
        owner := owner[desc[t].stackBase := Nobody];
      }
      threads.Release(t);
      at := at[t := Unused];
    }

    /** The thread that runs inline returns, or exits through `inline_jmpbuf`: its joiner is back in
        the place it lent, and finishes its join. */
    method FinishInline()
      requires Valid() && desc[links.current].joiner != NIL
      modifies this`desc, this`at, this`root, this`depth, this`owner, this`cur, this`lastCreated, this`pendingDead
      modifies this`inlineExecuting, Parts()
      ensures Valid() && View() == Reap(EndInline(old(View())), old(links.current))
      ensures links.current == old(desc[links.current].joiner) && inlineExecuting == Less(old(inlineExecuting))
    {
      hide Handing, Inv, Linked, Arena.Valid, Links.Valid, Elects, Reap, EndInline;
      var t := links.current;
      GiveBack();
      Cleanup(t);
    }

    /** The end of inline_run. */
    method GiveBack()
      requires Valid() && desc[links.current].joiner != NIL
      modifies this`desc, this`at, this`cur, this`inlineExecuting, links`current, links`lists, links.next, links.prev
      ensures Valid() && View() == EndInline(old(View())) && old(links.current) < |at| && at[old(links.current)] == Dead
      ensures links.current == old(desc[links.current].joiner) && inlineExecuting == Less(old(inlineExecuting))
    {
      hide Handing, Inv, Linked, Arena.Valid, Links.Valid, Elects, EndInline;
      ghost var v := View();
      var t := links.current;
      RingKnown(v);
      EndInlineKeeps(v);
      Lender(v);
      EndFields(v);
      links.MembersKnown();
      var prev := desc[t].joiner;
      desc := desc[t := desc[t].(finished := true, joiner := NIL)];
      inlineExecuting := Less(inlineExecuting);
      links.TakeOver(prev);
      at, cur := at[t := Dead][prev := Ready], prev;
    }

    /** thread_exit of a thread with a parked joiner: the joiner takes its place in the ring and
        finishes its join. */
    method ExitToWaiter() returns (ok: bool, ghost x: nat)
      requires Valid() && desc[links.current].joiner == NIL && desc[links.current].waiting != NIL
      modifies this`desc, this`at, this`root, this`depth, this`owner, this`cur
      modifies this`lastCreated, this`pendingDead, Parts()
      ensures ok && Valid() && inlineExecuting == old(inlineExecuting)
      ensures View() == Reap(Dispatch(ExitToJoiner(old(View())), x), old(links.current))
    {
      hide Handing, Inv, Linked, Arena.Valid, Links.Valid, Elects, Reap, Dispatch, ExitToJoiner;
      var t := links.current;
      GiveWay();
      DispatchKeepsDead(View(), t);
      ok, x := SwitchTo();
      if ok { Cleanup(t); }
    }

    method GiveWay()
      requires Valid() && desc[links.current].joiner == NIL && desc[links.current].waiting != NIL
      modifies this`desc, this`at, this`cur, links`current, links`lists, links.next, links.prev
      ensures Shaped() && links.Running() && Handing(View()) && cur == NIL && View() == ExitToJoiner(old(View()))
      ensures old(links.current) < |at| && at[old(links.current)] == Dead && !NoStackFor(View())
    {
      hide Handing, Inv, Linked, Arena.Valid, Links.Valid, Elects;
      ghost var v := View();
      var t := links.current;
      RingKnown(v);
      ExitToJoinerKeeps(v);
      Waiter(v);
      links.MembersKnown();
      var w := desc[t].waiting;
      desc := desc[t := desc[t].(finished := true)];
      links.TakeOver(w);
      at, cur := at[t := Dead][w := Ready], NIL;
    }

    /** thread_exit without a joiner: the thread leaves the ring for good; its stack is released
        later, because it still executes on it. */
    method ExitAlone() returns (ok: bool, ghost x: nat)
      requires Valid() && desc[links.current].joiner == NIL && desc[links.current].waiting == NIL
      requires lastCreated == NIL && |links.lists.ring| > 1
      modifies this`desc, this`at, this`root, this`depth, this`owner, this`cur
      modifies this`lastCreated, this`pendingDead, Parts()
      ensures ok ==> Valid() && inlineExecuting == old(inlineExecuting)
      ensures ok ==> View() == Dispatch(ExitAway(old(View())), x)
      ensures ok <==> !NoStackFor(ExitAway(old(View())))
    {
      hide Handing, Inv, Linked, Arena.Valid, Links.Valid, Elects, Dispatch;
      VacateStack();
      ok, x := SwitchTo();
    }

    method VacateStack()
      requires Valid() && desc[links.current].joiner == NIL && desc[links.current].waiting == NIL
      requires |links.lists.ring| > 1
      modifies this`desc, this`at, this`cur, this`owner, this`pendingDead, links`current, links`lists,
               links.next, links.prev, links.head, links.tail,
               stacks, stacks.slots, stacks.slots.link, stacks.slots.head
      ensures Shaped() && links.Running() && Handing(View()) && cur == NIL && View() == ExitAway(old(View()))
    {
      hide Handing, Inv, Linked, Arena.Valid, Links.Valid, Elects, Departed;
      ghost var v, n := View(), |links.lists.ring|;
      RingKnown(v);
      links.MemberKnown(0);
      links.MemberKnown(n - 1);
      ExitAwayKeeps(v);
      var me := links.current;
      links.Depart(NIL);
      links.MembersKnown();
      RetireStack(me, v);
    }

    method DropPending()
      requires Shaped() && links.Running()
      requires (pendingDead != NIL ==> 0 <= pendingDead < |owner| && pendingDead in stacks.out)
      modifies this`owner, stacks, stacks.slots, stacks.slots.link, stacks.slots.head
      ensures Shaped() && links.Running()
      ensures owner == if pendingDead == NIL then old(owner) else old(owner)[pendingDead := Nobody]
      ensures stacks.out == if pendingDead == NIL then old(stacks.out) else old(stacks.out) - {pendingDead}
    {
      hide Handing, Inv, Linked, Arena.Valid, Links.Valid;
      if pendingDead != NIL {
        stacks.Release(pendingDead);
        owner := owner[pendingDead := Nobody];
      }
    }

    /** The stack of `me` becomes `pending_dead_stack`; the one before it is released. `v` is the
        state before `me` left the ring. */
    method RetireStack(me: nat, ghost v: Sys)
      requires Shaped() && links.Running() && Inv(v) && v.cur == me && me < |v.at| && Handing(ExitAway(v))
      requires View() == v.(lists := ExitAway(v).lists)
      requires v.dead != NIL ==> 0 <= v.dead < |v.owner| && v.dead in v.stacks
      requires v.desc[me].stackBase != NIL ==> 0 <= v.desc[me].stackBase < |v.owner|
      modifies this`desc, this`at, this`cur, this`owner, this`pendingDead, stacks, stacks.slots, stacks.slots.link,
               stacks.slots.head
      ensures Shaped() && links.Running() && Handing(View()) && cur == NIL && View() == ExitAway(v)
    {
      hide Handing, Inv, Linked, Arena.Valid, Links.Valid, Elects, ExitAway;
      RingKnown(v);
      RetireFields(v);
      DropPending();
      MarkDead(me);
    }

    /** The last stores of thread_exit. */
    method MarkDead(me: nat)
      requires Shaped() && links.Running() && me < |desc|
      requires desc[me].stackBase != NIL ==> 0 <= desc[me].stackBase < |owner|
      modifies this`desc, this`at, this`cur, this`owner, this`pendingDead
      ensures Shaped() && links.Running()
      ensures var o, d, x := old(View()), old(desc)[me], old(desc)[me].stackBase;
              View() == o.(cur := NIL, desc := o.desc[me := d.(finished := true, func := 0, stackBase := NIL)],
                           at := o.at[me := Dead], dead := x,
                           owner := if x == NIL then o.owner else o.owner[x := Pending])
    {
      hide Linked, Arena.Valid, Links.Valid;
      pendingDead := desc[me].stackBase;
      if pendingDead != NIL { owner := owner[pendingDead := Pending]; }
      desc := desc[me := desc[me].(finished := true, func := 0, stackBase := NIL)];
      at, cur := at[me := Dead], NIL;
    }

    /** thread_join. `refused` is the verdict of the deadlock check, which refuses a thread that
        joins itself. Nobody else joins `t`. The invariant is kept exactly if the call does not
        return -1 for want of somebody else to run. */
    method Join(t: nat, refused: bool) returns (r: JoinResult, ghost x: nat, ghost k: nat)
      requires Valid() && t < |desc| && Joinable(View(), t) && (t == links.current ==> refused)
      modifies this`desc, this`at, this`root, this`depth, this`owner, this`cur, this`lastCreated, this`pendingDead
      modifies this`inlineExecuting, Parts()
      ensures r != Aborted ==> (Valid() <==> r != Alone)
      ensures r == Joined ==> inlineExecuting == old(inlineExecuting)
      ensures r != Aborted ==> JoinEffect(old(View()), old(lastFunc), t, refused, r, x, k, View())
      ensures r == Aborted <==>
                && Parks(old(View()), old(lastFunc), t, refused)
                && NoStackFor(Block(Flushed(old(View()), old(lastFunc)), Joining(t), {}))
    {
      hide Handing, Inv, Linked, Arena.Valid, Links.Valid, Elects, Reap, Dispatch, BeginInline, Pulled, Block, Flush;
      x, k := 0, 0;
      ghost var v := View();
      RingKnown(v);
      Kinds(v, t);
      if desc[t].finished {
        Cleanup(t);
        return Joined, x, k;
      }
      if refused { return Deadlock, x, k; }
      if lastCreated == t {
        InlineLast(t);
        return Inline, x, k;
      }
      if !desc[t].started && desc[t].func != 0 {
        k := JoinReady(t);
        return Inline, x, k;
      }
      r, x := JoinLive(t);
    }

    method JoinReady(t: nat) returns (ghost k: nat)
      requires Valid() && t < |desc| && lastCreated != t && !desc[t].started && links.lists.home[t] == InRing
      modifies this`desc, this`at, this`root, this`depth, this`owner, this`cur, this`lastCreated, this`pendingDead
      modifies this`inlineExecuting, Parts()
      ensures Valid()
      ensures var f := Flushed(old(View()), old(lastFunc));
              k < |f.lists.ring| && f.lists.ring[k] == t
                && View() == BeginInline(Pulled(f, t, Without(f.lists.ring, k)), t)
    {
      hide Handing, Inv, Linked, Arena.Valid, Links.Valid, Elects, BeginInline, Pulled, Flush;
      ghost var v := View();
      RingKnown(v);
      FlushedKeeps(v, lastFunc);
      FlushedThread(v, lastFunc, t);
      FlushLastCreated();
      links.MembersKnown();
      k := links.IndexOf(t);
      RingKnown(View());
      InlineQueued(t, k);
    }

    method Strand(t: nat)
      requires Valid() && t < |desc| && Live(desc[t], at[t]) && t != links.current
      modifies this`desc
      ensures !Valid() && View() == Stranded(old(View()), t)
    {
      hide Handing, Inv, Linked, Arena.Valid, Links.Valid, Live;
      RingKnown(View());
      StrandedBreaks(View(), t);
      desc := desc[t := desc[t].(waiting := links.current)];
    }

    method JoinLive(t: nat) returns (r: JoinResult, ghost x: nat)
      requires Valid() && t < |desc| && lastCreated != t && CanWait(View(), Joining(t))
      modifies this`desc, this`at, this`root, this`depth, this`owner, this`cur
      modifies this`lastCreated, this`pendingDead, Parts()
      ensures r == Waits || r == Alone || r == Aborted
      ensures r == Alone <==> |Flushed(old(View()), old(lastFunc)).lists.ring| == 1
      ensures r == Aborted <==>
                && |Flushed(old(View()), old(lastFunc)).lists.ring| > 1
                && NoStackFor(Block(Flushed(old(View()), old(lastFunc)), Joining(t), {}))
      ensures r == Waits ==>
                Valid() && View() == Dispatch(Block(Flushed(old(View()), old(lastFunc)), Joining(t), {}), x)
      ensures r == Alone ==>
                var f := Flushed(old(View()), old(lastFunc));
                !Valid() && Sizes(f) && t < |f.at| && View() == Stranded(f, t)
    {
      hide Handing, Inv, Linked, Arena.Valid, Links.Valid, Elects, Dispatch, Block, Flush;
      ghost var v := View();
      RingKnown(v);
      FlushedKeeps(v, lastFunc);
      FlushedThread(v, lastFunc, t);
      FlushLastCreated();
      var alone := links.IsSchedEmpty();
      if alone {
        Strand(t);
        return Alone, 0;
      }
      var ok;
      ok, x := Leave(Joining(t), {});
      r := if ok then Waits else Aborted;
    }

    /** thread_exit */
    method Exit() returns (r: ExitResult, ghost x: nat)
      requires Valid()
      modifies this`desc, this`at, this`root, this`depth, this`owner, this`cur, this`lastCreated, this`pendingDead
      modifies this`inlineExecuting, Parts()
      ensures r.Inlined? || r.Switched? ==> Valid()
      ensures r.Inlined? <==> old(desc[links.current].joiner) != NIL
      ensures r.Inlined? ==> View() == Reap(EndInline(old(View())), old(links.current))
      ensures r.Switched? && old(desc[links.current].waiting) != NIL ==>
                View() == Reap(Dispatch(ExitToJoiner(old(View())), x), old(links.current))
      ensures r.Switched? && old(desc[links.current].waiting) == NIL ==>
                View() == Dispatch(ExitAway(Flushed(old(View()), old(lastFunc))), x)
      ensures r == NoStack <==>
                && old(desc[links.current].joiner) == NIL && old(desc[links.current].waiting) == NIL
                && |Flushed(old(View()), old(lastFunc)).lists.ring| > 1
                && NoStackFor(ExitAway(Flushed(old(View()), old(lastFunc))))
      ensures r.Last? ==>
                && old(desc[links.current].waiting) == NIL
                && Flushed(old(View()), old(lastFunc)).lists.ring == [old(links.current)]
    {
      hide Handing, Inv, Linked, Arena.Valid, Links.Valid, Elects, Reap, Dispatch, EndInline, ExitToJoiner, ExitAway,
           Flush;
      ghost var v := View();
      RingKnown(v);
      x := 0;
      if desc[links.current].joiner != NIL {
        FinishInline();
        return Inlined, x;
      }
      var ok;
      if desc[links.current].waiting != NIL {
        ok, x := ExitToWaiter();
        return if ok then Switched else NoStack, x;
      }
      FlushedKeeps(v, lastFunc);
      FlushedThread(v, lastFunc, links.current);
      FlushLastCreated();
      var alone := links.IsSchedEmpty();
      if alone { return Last, x; }
      ok, x := ExitAlone();
      r := if ok then Switched else NoStack;
    }

    /** wq_pop and sched_enqueue: the thread that has waited longest in queue `q` becomes ready. */
    method WakeFirst(q: nat) returns (t: int)
      requires Valid() && q < |links.lists.queues|
      modifies this`at, links`lists, links.next, links.prev, links.head, links.tail
      ensures Valid() && links.lists.queues == Tails(old(links.lists.queues), q)
      ensures View() == Woken(old(View()), q) && (t == NIL <==> old(links.lists.queues)[q] == [])
      ensures t != NIL ==> 0 <= t < |desc| && t == old(links.lists.queues)[q][0]
    {
      hide Handing, Inv, Linked, Arena.Valid, Links.Valid, Elects;
      ghost var v := View();
      links.MembersKnown();
      if v.lists.queues[q] != [] {
        links.FirstKnown(q);
        QueueHead(v, q);
        WakeKeeps(v, v.lists.queues[q][0], Tails(v.lists.queues, q));
      }
      t := links.WqPop(q);
      links.MembersKnown();
      if t != NIL {
        links.SchedEnqueue(t);
        links.MembersKnown();
        at := at[t := Ready];
        assert links.lists.home == v.lists.home[t := InRing];
      }
      assert View() == Woken(v, q);
    }

    method Consume(sig: nat)
      requires Valid() && links.current < |desc|
      modifies this`desc
      ensures Valid()
      ensures var v, c := old(View()), links.current;
              v.cur == c && View() == v.(desc := v.desc[c := v.desc[c].(pending := v.desc[c].pending - {sig})])
    {
      hide Handing, Inv, Linked, Arena.Valid, Links.Valid, Elects;
      RingKnown(View());
      var c := links.current;
      PendingKeeps(View(), c, desc[c].pending - {sig}, desc[c].mask);
      desc := desc[c := desc[c].(pending := desc[c].pending - {sig}, mask := desc[c].mask)];
    }

    /** thread_sigwait: the lowest pending signal of the mask at once; else the caller parks, or gets
        -1 without effect if nobody else is ready. */
    method Sigwait(mask: set<nat>) returns (r: SigResult, ghost x: nat)
      requires Valid()
      modifies this`desc, this`at, this`root, this`depth, this`owner, this`cur
      modifies this`lastCreated, this`pendingDead, Parts()
      ensures r != Interrupted ==> Valid()
      ensures r.Got? <==> old(links.current < |desc| && desc[links.current].pending * mask != {})
      ensures r.Got? ==>
                var v := old(View());
                && 0 <= v.cur < |v.desc| && r.sig in v.desc[v.cur].pending * mask
                && (forall y :: y in v.desc[v.cur].pending * mask ==> r.sig <= y)
                && View() == v.(desc := v.desc[v.cur := v.desc[v.cur].(pending := v.desc[v.cur].pending - {r.sig})])
      ensures r == NobodyElse ==> |old(links.lists.ring)| == 1 && View() == old(View())
      ensures r == Interrupted <==>
                && old(links.current < |desc| && desc[links.current].pending * mask == {})
                && |old(links.lists.ring)| > 1
                && NoStackFor(Block(old(View()), SigWait, mask))
      ensures r == Parked ==> |old(links.lists.ring)| > 1 && View() == Dispatch(Block(old(View()), SigWait, mask), x)
    {
      hide Handing, Inv, Linked, Arena.Valid, Links.Valid, Elects, Dispatch, Block;
      RingKnown(View());
      x := 0;
      var c := links.current;
      var hit := desc[c].pending * mask;
      if hit != {} {
        var sig := Lowest(hit);
        Consume(sig);
        return Got(sig), x;
      }
      var alone := links.IsSchedEmpty();
      if alone { return NobodyElse, x; }
      var ok;
      ok, x := Leave(SigWait, mask);
      r := if ok then Parked else Interrupted;
    }

    /** thread_setpriority */
    method SetPriority(t: nat, priority: int) returns (ok: bool)
      requires Valid() && t < |desc|
      modifies links.priority
      ensures Valid() && View() == old(View()) && (ok <==> 0 <= priority <= 7)
      ensures links.priority[..] == if ok then old(links.priority[..])[t := priority] else old(links.priority[..])
    {
      hide Inv, Handing, Linked, Arena.Valid, Links.Valid, Elects;
      links.MembersKnown();
      ok := 0 <= priority <= 7;
      if ok { links.priority[t] := priority; }
    }

    /** thread_kill */
    method Kill(t: nat, sig: nat) returns (ok: bool)
      requires Valid() && t < |desc| && at[t] != Unused
      modifies this`desc, this`at, links`lists, links.next, links.prev
      ensures Valid() && (ok <==> 1 <= sig <= 7)
      ensures View() == if ok then Signal(old(View()), t, sig) else old(View())
    {
      hide Handing, Inv, Linked, Arena.Valid, Links.Valid, Elects;
      if sig < 1 || sig > 7 { return false; }
      ok := true;
      SignalKeeps(View(), t, sig);
      links.MembersKnown();
      desc := desc[t := desc[t].(pending := desc[t].pending + {sig})];
      if desc[t].sigWaiting && sig in desc[t].mask {
        assert old(desc)[t].pending + {sig} - {sig} == old(desc)[t].pending - {sig};
        desc := desc[t := desc[t].(pending := desc[t].pending - {sig}, sigWaiting := false, mask := {})];
        links.SchedEnqueue(t);
        links.MembersKnown();
        at := at[t := Ready];
      }
      assert View() == Signal(old(View()), t, sig);
    }
  }
}
