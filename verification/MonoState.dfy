/** The threads of the single-core build: what a descriptor records, where a thread is, and how
    the two fit together (src/thread.c, src/thread_sync.c, src/thread_internal.h:20-53).

    `Inv` holds whenever some thread runs, `Handing` while one thread hands over to the next. Both
    are made of one predicate per thread and one per stack. */
module MonoState {
  import opened Basics
  import opened Ring

  /** What `rsp` points to: nothing yet, a stack prepared for the first run, or a context saved by
      a switch. */
  datatype Saved = NoContext | Prepared | Suspended

  /** The fields of a descriptor that matter here. `func` 0 and `waiting`, `stackBase` NIL stand for
      NULL. `joiner` stands for `inline_jmpbuf`: the thread in whose frame this one runs inline. */
  datatype Desc = Desc(started: bool, finished: bool, func: nat, waiting: int, saved: Saved,
                       stackBase: int, joiner: int, pending: set<nat>, mask: set<nat>, sigWaiting: bool)

  /** thread_cold_reset, and `rsp = NULL` */
  const FRESH := Desc(false, false, 0, NIL, NoContext, NIL, NIL, {}, {}, false)

  /** Where a thread is. A joiner that runs another thread inline has lent its place in the ring. */
  datatype Where = Unused | Created | Ready | Queued(q: nat) | SigWait | Joining(u: nat) | Lent(u: nat) | Dead

  /** Who has a used stack of the arena: a descriptor, or `pending_dead_stack`. */
  datatype Owner = Nobody | Of(t: nat) | Pending

  /** `cur` is the running thread, or NIL while one thread hands over to the next. `root[t]` is the
      thread on whose stack `t` has its frame, `depth[t]` the number of inline joins below it. */
  datatype Sys = Sys(lists: Lists, cur: int, desc: seq<Desc>, at: seq<Where>, root: seq<nat>, depth: seq<nat>,
                     last: int, dead: int, owner: seq<Owner>, used: set<nat>, stacks: set<nat>)

  /** The thread has frames on some stack. */
  predicate Live(d: Desc, w: Where) { d.started && !d.finished && w != Unused }

  predicate Sizes(s: Sys) {
    |s.desc| == |s.at| == |s.root| == |s.depth| == |s.lists.home|
  }

  /** Where the thread is, according to its links, to `last_created` and to its descriptor. */
  ghost predicate PlaceOk(s: Sys, t: nat)
    requires Sizes(s) && t < |s.at|
  {
    var d, w, h := s.desc[t], s.at[t], s.lists.home[t];
    && h == (match w case Ready => InRing case Queued(q) => InQueue(q) case _ => Off)
    && (w == Created <==> s.last == t)
    && (w == Unused <==> t !in s.used)
    && match w
       case Unused => d.started || d.func == 0
       case Created => d.(pending := {}) == FRESH
       case Ready =>
         !d.finished && !d.sigWaiting && (s.cur != t ==> if d.started then d.saved.Suspended? else d.saved.NoContext?)
         && (d.started || (d.func != 0 && d.waiting == NIL && d.stackBase == NIL && d.joiner == NIL))
       case Dead => d.started && d.finished && !d.sigWaiting
       case Lent(_) => d.started && !d.finished && !d.sigWaiting
       case _ => d.started && !d.finished && d.saved.Suspended? && (d.sigWaiting <==> w.SigWait?)
  }

  /** Who joins whom, in one direction and the other. */
  ghost predicate JoinOk(s: Sys, t: nat)
    requires Sizes(s) && t < |s.at|
  {
    var d, w := s.desc[t], s.at[t];
    && (w.Joining? ==> w.u < |s.at| && w.u != t && s.desc[w.u].waiting == t && Live(s.desc[w.u], s.at[w.u]))
    && (Live(d, w) && d.waiting != NIL ==> 0 <= d.waiting < |s.at| && s.at[d.waiting] == Joining(t))
    && (w.Lent? ==> w.u < |s.at| && s.desc[w.u].joiner == t && Live(s.desc[w.u], s.at[w.u]))
    && (Live(d, w) && d.joiner != NIL ==>
          && d.waiting == NIL && 0 <= d.joiner < |s.at| && s.at[d.joiner] == Lent(t) && d.stackBase == NIL
          && s.root[t] == s.root[d.joiner] && s.depth[t] == s.depth[d.joiner] + 1)
    && (Live(d, w) && d.joiner == NIL ==> s.root[t] == t && s.depth[t] == 0 && (d.stackBase != NIL || t == 0))
    && (Live(d, w) ==> var r := s.root[t]; r < |s.at| && Live(s.desc[r], s.at[r]) && s.desc[r].joiner == NIL)
  }

  /** A stack belongs to one descriptor, or waits to be released, or is free. */
  ghost predicate StackOk(s: Sys, t: nat)
    requires Sizes(s) && t < |s.at|
  {
    s.at[t] != Unused && s.desc[t].stackBase != NIL ==>
      0 <= s.desc[t].stackBase < |s.owner| && s.owner[s.desc[t].stackBase] == Of(t)
  }

  ghost predicate OwnerOk(s: Sys, x: nat)
    requires Sizes(s) && x < |s.owner|
  {
    && (s.owner[x] == Nobody <==> x !in s.stacks)
    && (s.owner[x] == Pending <==> s.dead == x)
    && (s.owner[x].Of? ==> s.owner[x].t < |s.at| && s.at[s.owner[x].t] != Unused && s.desc[s.owner[x].t].stackBase == x)
  }

  ghost predicate ThreadOk(s: Sys, t: nat)
    requires Sizes(s) && t < |s.at|
  {
    PlaceOk(s, t) && JoinOk(s, t) && StackOk(s, t)
  }

  ghost predicate AllThreads(s: Sys) {
    Sizes(s) && forall t: nat {:trigger ThreadOk(s, t)} :: t < |s.at| ==> ThreadOk(s, t)
  }

  ghost predicate AllStacks(s: Sys) {
    Sizes(s) && (s.dead == NIL || 0 <= s.dead < |s.owner|)
    && forall x: nat {:trigger OwnerOk(s, x)} :: x < |s.owner| ==> OwnerOk(s, x)
  }

  /** The running thread is at the head of the ring. */
  ghost predicate CurrentOk(s: Sys) {
    && Sizes(s) && s.lists.ring != [] && s.lists.ring[0] < |s.at| && s.at[s.lists.ring[0]] == Ready
    && (s.cur == NIL || (s.cur == s.lists.ring[0] && s.desc[s.cur].started))
  }

  /** One thread hands over to the next. */
  ghost predicate Handing(s: Sys) { AllThreads(s) && AllStacks(s) && CurrentOk(s) }

  ghost predicate Inv(s: Sys) { Handing(s) && s.cur != NIL }

  /** What a step on the running thread needs to know about it. */
  lemma Running(s: Sys)
    requires Inv(s)
    ensures 0 <= s.cur < |s.at| && ThreadOk(s, s.cur) && s.at[s.cur] == Ready && s.lists.home[s.cur] == InRing
    ensures Live(s.desc[s.cur], s.at[s.cur])
  {
    assert ThreadOk(s, s.cur);
  }

  // The effects below are total: where a step makes no sense they change nothing.

  // ---------- Creating ----------

  /** thread_create, once a descriptor has been found and `last_created` flushed. */
  function Create(s: Sys, t: nat): Sys {
    if !(Sizes(s) && t < |s.at|) then s
    else
      s.(desc := s.desc[t := FRESH], at := s.at[t := Created], last := t, used := s.used + {t})
  }

  lemma CreateKeeps(s: Sys, t: nat)
    requires Inv(s) && t < |s.at| && t !in s.used && s.last == NIL
    ensures Inv(Create(s, t))
  {
    var s' := Create(s, t);
    assert ThreadOk(s, t);
    forall u: nat | u < |s'.at| ensures ThreadOk(s', u) { assert ThreadOk(s, u); }
    forall x: nat | x < |s'.owner| ensures OwnerOk(s', x) { assert OwnerOk(s, x); }
  }

  /** flush_last_created_slow */
  function Flush(s: Sys, func: nat): Sys {
    if !(Sizes(s) && 0 <= s.last < |s.at|) then s
    else
      var t := s.last;
      s.(desc := s.desc[t := s.desc[t].(func := func)], at := s.at[t := Ready], last := NIL,
         lists := s.lists.(ring := s.lists.ring + [t], home := s.lists.home[t := InRing]))
  }

  lemma FlushKeeps(s: Sys, func: nat)
    requires Inv(s) && 0 <= s.last < |s.at| && func != 0
    ensures Inv(Flush(s, func))
  {
    var s' := Flush(s, func);
    assert ThreadOk(s, s.last);
    forall u: nat | u < |s'.at| ensures ThreadOk(s', u) { assert ThreadOk(s, u); }
    forall x: nat | x < |s'.owner| ensures OwnerOk(s', x) { assert OwnerOk(s, x); }
  }

  // ---------- Inline joins ----------

  /** `t` has never run: it is `last_created`, or in the ring, not started. */
  predicate Unstarted(s: Sys, t: nat)
    requires Sizes(s) && t < |s.at|
  {
    s.at[t] == Created || (s.at[t] == Ready && !s.desc[t].started)
  }

  /** `t` is taken from where it is; `ring` is the ring without it. */
  function Pulled(s: Sys, t: nat, ring: seq<nat>): Sys {
    if !(Sizes(s) && t < |s.at|) then s
    else
      s.(lists := s.lists.(ring := ring, home := s.lists.home[t := Off]), last := if s.last == t then NIL else s.last)
  }

  /** inline_run up to the call: `t` takes the place of its joiner and runs in its frame. */
  function BeginInline(s: Sys, t: nat): Sys {
    if !(Sizes(s) && t < |s.at| && 0 <= s.cur < |s.at| && s.lists.ring != []) then s
    else
      var g := s.cur;
      s.(lists := s.lists.(ring := s.lists.ring[0 := t], home := s.lists.home[t := InRing][g := Off]), cur := t,
         desc := s.desc[t := s.desc[t].(started := true, joiner := g)], at := s.at[t := Ready][g := Lent(t)],
         root := s.root[t := s.root[g]], depth := s.depth[t := s.depth[g] + 1])
  }

  lemma BeginInlineKeeps(s: Sys, t: nat, ring: seq<nat>)
    requires Inv(s) && t < |s.at| && Unstarted(s, t) && ring != []
    ensures Inv(BeginInline(Pulled(s, t, ring), t))
  {
    Running(s);
    var s' := BeginInline(Pulled(s, t, ring), t);
    assert ThreadOk(s, t);
    forall u: nat | u < |s'.at| ensures ThreadOk(s', u) { assert ThreadOk(s, u); BeginThread(s, t, ring, u); }
    hide ThreadOk;
    forall x: nat | x < |s'.owner| ensures OwnerOk(s', x) { assert OwnerOk(s, x); }
  }

  lemma BeginThread(s: Sys, t: nat, ring: seq<nat>, u: nat)
    requires Sizes(s) && t < |s.at| && u < |s.at| && 0 <= s.cur < |s.at| && Unstarted(s, t) && ring != []
    requires ThreadOk(s, t) && ThreadOk(s, u) && ThreadOk(s, s.cur) && s.at[s.cur] == Ready
    requires Live(s.desc[s.cur], s.at[s.cur])
    ensures ThreadOk(BeginInline(Pulled(s, t, ring), t), u)
  {
    hide JoinOk, PlaceOk, StackOk, BeginInline, Pulled, Unstarted, Live;
    BeginPlace(s, t, ring, u);
    BeginJoins(s, t, ring, u);
  }

  lemma BeginPlace(s: Sys, t: nat, ring: seq<nat>, u: nat)
    requires Sizes(s) && t < |s.at| && u < |s.at| && 0 <= s.cur < |s.at| && Unstarted(s, t) && ring != []
    requires ThreadOk(s, t) && ThreadOk(s, u) && ThreadOk(s, s.cur) && s.at[s.cur] == Ready
    requires Live(s.desc[s.cur], s.at[s.cur])
    ensures var s' := BeginInline(Pulled(s, t, ring), t);
            Sizes(s') && |s'.at| == |s.at| && PlaceOk(s', u) && StackOk(s', u)
  {
    hide JoinOk;
  }

  lemma BeginJoins(s: Sys, t: nat, ring: seq<nat>, u: nat)
    requires Sizes(s) && t < |s.at| && u < |s.at| && 0 <= s.cur < |s.at| && Unstarted(s, t) && ring != []
    requires ThreadOk(s, t) && ThreadOk(s, u) && ThreadOk(s, s.cur) && s.at[s.cur] == Ready
    requires Live(s.desc[s.cur], s.at[s.cur])
    ensures var s' := BeginInline(Pulled(s, t, ring), t); Sizes(s') && |s'.at| == |s.at| && JoinOk(s', u)
  {
    hide StackOk;
  }

  lemma BeginFields(s: Sys, t: nat)
    requires Sizes(s) && t < |s.at| && 0 <= s.cur < |s.at| && s.lists.ring != []
    ensures var g := s.cur;
            BeginInline(s, t) == s.(
              lists := s.lists.(ring := s.lists.ring[0 := t], home := s.lists.home[t := InRing][g := Off]), cur := t,
              desc := s.desc[t := s.desc[t].(started := true, joiner := g)], at := s.at[t := Ready][g := Lent(t)],
              root := s.root[t := s.root[g]], depth := s.depth[t := s.depth[g] + 1])
  {
  }

  lemma PulledFields(s: Sys, t: nat, ring: seq<nat>)
    requires Sizes(s) && t < |s.at|
    ensures var p := Pulled(s, t, ring);
            Sizes(p) && |p.at| == |s.at| && p.cur == s.cur && p.lists.ring == ring && p.lists.home[t] == Off
              && p.last != t
            && p.owner == s.owner
  {
  }

  /** The rest of inline_run: the joiner gets its place back. */
  function EndInline(s: Sys): Sys {
    if !(Sizes(s) && 0 <= s.cur < |s.at| && 0 <= s.desc[s.cur].joiner < |s.at| && s.lists.ring != []) then s
    else
      var t, g := s.cur, s.desc[s.cur].joiner;
      s.(lists := s.lists.(ring := s.lists.ring[0 := g], home := s.lists.home[g := InRing][t := Off]), cur := g,
         desc := s.desc[t := s.desc[t].(finished := true, joiner := NIL)], at := s.at[t := Dead][g := Ready])
  }

  lemma EndInlineKeeps(s: Sys)
    requires Inv(s) && 0 <= s.cur < |s.at| && s.desc[s.cur].joiner != NIL
    ensures 0 <= s.desc[s.cur].joiner < |s.at| && Inv(EndInline(s))
  {
    Running(s);
    var g := s.desc[s.cur].joiner;
    var s' := EndInline(s);
    assert ThreadOk(s, g);
    forall u: nat | u < |s'.at| ensures ThreadOk(s', u) { assert ThreadOk(s, u); EndThread(s, u); }
    hide ThreadOk;
    forall x: nat | x < |s'.owner| ensures OwnerOk(s', x) { assert OwnerOk(s, x); }
  }

  lemma EndThread(s: Sys, u: nat)
    requires CurrentOk(s) && 0 <= s.cur < |s.at| && 0 <= s.desc[s.cur].joiner < |s.at| && u < |s.at|
    requires ThreadOk(s, s.cur) && ThreadOk(s, s.desc[s.cur].joiner) && ThreadOk(s, u)
    ensures var s' := EndInline(s); Sizes(s') && |s'.at| == |s.at| && ThreadOk(s', u)
  {
  }

  /** The end of thread_join: the descriptor of `t`, and its stack if it has one, are released. */
  function Reap(s: Sys, t: nat): Sys {
    if !(Sizes(s) && t < |s.at| && (s.desc[t].stackBase == NIL || 0 <= s.desc[t].stackBase < |s.owner|)) then s
    else
      var x := s.desc[t].stackBase;
      s.(desc := s.desc[t := s.desc[t].(func := 0)], at := s.at[t := Unused], used := s.used - {t},
         owner := if x == NIL then s.owner else s.owner[x := Nobody],
         stacks := if x == NIL then s.stacks else s.stacks - {x})
  }

  lemma ReapKeeps(s: Sys, t: nat)
    requires Inv(s) && t < |s.at| && s.at[t] == Dead
    ensures t in s.used
    ensures (s.desc[t].stackBase == NIL || (0 <= s.desc[t].stackBase < |s.owner| && s.desc[t].stackBase in s.stacks))
    ensures Inv(Reap(s, t))
  {
    assert ThreadOk(s, t);
    if s.desc[t].stackBase != NIL { assert OwnerOk(s, s.desc[t].stackBase); }
    var s' := Reap(s, t);
    forall u: nat | u < |s'.at| ensures ThreadOk(s', u) {
      assert ThreadOk(s, u);
      ReapPlace(s, t, u);
      ReapJoins(s, t, u);
    }
    hide ThreadOk;
    forall x: nat | x < |s'.owner| ensures OwnerOk(s', x) { assert OwnerOk(s, x); }
  }

  lemma ReapPlace(s: Sys, t: nat, u: nat)
    requires Sizes(s) && t < |s.at| && s.at[t] == Dead && u < |s.at| && PlaceOk(s, t) && PlaceOk(s, u) && StackOk(s, t)
    requires StackOk(s, u)
    requires s.cur == NIL || (0 <= s.cur < |s.at| && s.at[s.cur] == Ready)
    ensures var s' := Reap(s, t); Sizes(s') && |s'.at| == |s.at| && PlaceOk(s', u) && StackOk(s', u)
  {
  }

  lemma ReapJoins(s: Sys, t: nat, u: nat)
    requires Sizes(s) && t < |s.at| && s.at[t] == Dead && u < |s.at| && PlaceOk(s, t) && JoinOk(s, u)
    ensures var s' := Reap(s, t); Sizes(s') && |s'.at| == |s.at| && (StackOk(s, t) ==> JoinOk(s', u))
  {
  }

  // ---------- Handing over the processor ----------

  /** The running thread leaves `ring[0]` to the member at index `k` and stays ready. */
  function HandOver(s: Sys, k: nat): Sys {
    if !(Sizes(s) && 0 <= s.cur < |s.at| && k <= |s.lists.ring|) then s
    else
      s.(lists := s.lists.(ring := Rotate(s.lists.ring, k)), cur := NIL,
         desc := s.desc[s.cur := s.desc[s.cur].(saved := Suspended)])
  }

  lemma HandOverKeeps(s: Sys, k: nat)
    requires Inv(s) && 0 < k < |s.lists.ring|
    requires s.lists.ring[k] < |s.at| && s.lists.home[s.lists.ring[k]] == InRing
    ensures 0 <= s.cur < |s.at| && Handing(HandOver(s, k))
  {
    Running(s);
    var s' := HandOver(s, k);
    assert ThreadOk(s, s.lists.ring[k]);
    forall u: nat | u < |s'.at| ensures ThreadOk(s', u) { assert ThreadOk(s, u); }
    forall x: nat | x < |s'.owner| ensures OwnerOk(s', x) { assert OwnerOk(s, x); }
  }

  /** The running thread blocks at `w`; `mask` matters only if it waits for a signal. */
  function Block(s: Sys, w: Where, mask: set<nat>): Sys {
    if !(Sizes(s) && 0 <= s.cur < |s.at| && |s.lists.ring| > 1 && s.lists.ring[0] == s.cur) then s
    else
      var me := s.cur;
      var d := s.desc[me := s.desc[me].(saved := Suspended, sigWaiting := w.SigWait?,
                                        mask := if w.SigWait? then mask else s.desc[me].mask)];
      s.(lists := Departed(s.lists, if w.Queued? then w.q else NIL), cur := NIL, at := s.at[me := w],
         desc := if w.Joining? && w.u < |d| then d[w.u := d[w.u].(waiting := me)] else d)
  }

  ghost predicate CanBlock(s: Sys, w: Where) {
    && Sizes(s) && |s.lists.ring| > 1 && s.lists.ring[|s.lists.ring| - 1] < |s.at|
    && s.lists.home[s.lists.ring[|s.lists.ring| - 1]] == InRing && s.lists.ring[|s.lists.ring| - 1] != s.cur
    && match w
       case SigWait => true
       case Queued(q) => q < |s.lists.queues|
       case Joining(u) => u < |s.at| && u != s.cur && Live(s.desc[u], s.at[u]) && s.desc[u].waiting == NIL
         && s.desc[u].joiner == NIL
       case _ => false
  }

  lemma BlockKeeps(s: Sys, w: Where, mask: set<nat>)
    requires Inv(s) && CanBlock(s, w)
    ensures 0 <= s.cur < |s.at| && Handing(Block(s, w, mask))
  {
    Running(s);
    var s', n := Block(s, w, mask), s.lists.ring[|s.lists.ring| - 1];
    assert s'.lists.ring[0] == n;
    assert ThreadOk(s, n);
    if w.Joining? { assert ThreadOk(s, w.u); }
    forall u: nat | u < |s'.at| ensures ThreadOk(s', u) { assert ThreadOk(s, u); BlockThread(s, w, mask, u); }
    hide ThreadOk;
    forall x: nat | x < |s'.owner| ensures OwnerOk(s', x) { assert OwnerOk(s, x); }
  }

  lemma BlockThread(s: Sys, w: Where, mask: set<nat>, u: nat)
    requires CanBlock(s, w) && 0 <= s.cur < |s.at| && u < |s.at| && ThreadOk(s, s.cur) && ThreadOk(s, u)
    requires s.at[s.cur] == Ready && Live(s.desc[s.cur], s.at[s.cur]) && (w.Joining? ==> ThreadOk(s, w.u))
    ensures ThreadOk(Block(s, w, mask), u)
  {
    BlockPlace(s, w, mask, u);
    BlockJoins(s, w, mask, u);
  }

  lemma BlockPlace(s: Sys, w: Where, mask: set<nat>, u: nat)
    requires CanBlock(s, w) && 0 <= s.cur < |s.at| && u < |s.at| && PlaceOk(s, s.cur) && PlaceOk(s, u) && StackOk(s, u)
    requires s.at[s.cur] == Ready && Live(s.desc[s.cur], s.at[s.cur]) && (w.Joining? ==> PlaceOk(s, w.u))
    ensures PlaceOk(Block(s, w, mask), u) && StackOk(Block(s, w, mask), u)
  {
    hide JoinOk;
  }

  lemma BlockJoins(s: Sys, w: Where, mask: set<nat>, u: nat)
    requires CanBlock(s, w) && 0 <= s.cur < |s.at| && u < |s.at| && JoinOk(s, s.cur) && JoinOk(s, u)
    requires s.at[s.cur] == Ready && Live(s.desc[s.cur], s.at[s.cur]) && (w.Joining? ==> JoinOk(s, w.u))
    ensures JoinOk(Block(s, w, mask), u)
  {
    hide PlaceOk, StackOk, Left;
  }

  /** A thread that was taken off its queue, or waited for a signal, becomes ready. */
  function Wake(s: Sys, t: nat): Sys {
    if !(Sizes(s) && t < |s.at|) then s
    else
      s.(lists := s.lists.(ring := s.lists.ring + [t], home := s.lists.home[t := InRing]), at := s.at[t := Ready],
         desc := s.desc[t := s.desc[t].(sigWaiting := false)])
  }

  lemma WakeKeeps(s: Sys, t: nat, queues: seq<seq<nat>>)
    requires Inv(s) && t < |s.at| && (s.at[t].Queued? || s.at[t].SigWait?)
    ensures Inv(Wake(s, t).(lists := Wake(s, t).lists.(queues := queues)))
  {
    var s' := Wake(s, t).(lists := Wake(s, t).lists.(queues := queues));
    assert ThreadOk(s, t);
    forall u: nat | u < |s'.at| ensures ThreadOk(s', u) { assert ThreadOk(s, u); WakeThread(s, t, queues, u); }
    hide ThreadOk;
    forall x: nat | x < |s'.owner| ensures OwnerOk(s', x) { assert OwnerOk(s, x); }
  }

  lemma WakeThread(s: Sys, t: nat, queues: seq<seq<nat>>, u: nat)
    requires Sizes(s) && t < |s.at| && u < |s.at| && (s.at[t].Queued? || s.at[t].SigWait?) && ThreadOk(s, t)
    requires ThreadOk(s, u)
    requires s.cur == NIL || (0 <= s.cur < |s.at| && s.at[s.cur] == Ready)
    ensures var s' := Wake(s, t).(lists := Wake(s, t).lists.(queues := queues));
            Sizes(s') && |s'.at| == |s.at| && ThreadOk(s', u)
  {
  }

  /** Queue `q` without its first thread, if it has one. */
  function Tails(queues: seq<seq<nat>>, q: nat): seq<seq<nat>>
    requires q < |queues|
  {
    if queues[q] == [] then queues else queues[q := queues[q][1..]]
  }

  /** The thread that has waited longest in queue `q` becomes ready. */
  function Woken(s: Sys, q: nat): Sys {
    if q >= |s.lists.queues| || s.lists.queues[q] == [] then s
    else
      var w := Wake(s, s.lists.queues[q][0]);
      w.(lists := w.lists.(queues := Tails(s.lists.queues, q)))
  }

  /** thread_kill: a thread that waits for `sig` becomes ready, for another one the signal stays
      pending. */
  function Signal(s: Sys, t: nat, sig: nat): Sys {
    if !(Sizes(s) && t < |s.at|) then s
    else if s.desc[t].sigWaiting && sig in s.desc[t].mask then
      Wake(s.(desc := s.desc[t := s.desc[t].(pending := s.desc[t].pending - {sig}, mask := {})]), t)
    else s.(desc := s.desc[t := s.desc[t].(pending := s.desc[t].pending + {sig})])
  }

  lemma SignalKeeps(s: Sys, t: nat, sig: nat)
    requires Inv(s) && t < |s.at| && s.at[t] != Unused
    ensures s.desc[t].sigWaiting ==> s.at[t] == SigWait && s.lists.home[t] == Off
    ensures Inv(Signal(s, t, sig))
  {
    assert ThreadOk(s, t);
    if s.desc[t].sigWaiting && sig in s.desc[t].mask {
      PendingKeeps(s, t, s.desc[t].pending - {sig}, {});
      var p := s.(desc := s.desc[t := s.desc[t].(pending := s.desc[t].pending - {sig}, mask := {})]);
      WakeKeeps(p, t, p.lists.queues);
    } else {
      PendingKeeps(s, t, s.desc[t].pending + {sig}, s.desc[t].mask);
    }
  }

  lemma PendingKeeps(s: Sys, t: nat, pending: set<nat>, mask: set<nat>)
    requires Inv(s) && t < |s.at| && (mask == s.desc[t].mask || s.at[t] == SigWait)
    ensures Inv(s.(desc := s.desc[t := s.desc[t].(pending := pending, mask := mask)]))
  {
    var s' := s.(desc := s.desc[t := s.desc[t].(pending := pending, mask := mask)]);
    assert ThreadOk(s, t);
    forall u: nat | u < |s'.at| ensures ThreadOk(s', u) {
      assert ThreadOk(s, u);
      PendingThread(s, t, pending, mask, u);
    }
    hide ThreadOk;
    forall x: nat | x < |s'.owner| ensures OwnerOk(s', x) { assert OwnerOk(s, x); }
  }

  lemma PendingThread(s: Sys, t: nat, pending: set<nat>, mask: set<nat>, u: nat)
    requires Sizes(s) && t < |s.at| && u < |s.at| && ThreadOk(s, u) && (mask == s.desc[t].mask || s.at[t] == SigWait)
    ensures ThreadOk(s.(desc := s.desc[t := s.desc[t].(pending := pending, mask := mask)]), u)
  {
  }

  /** The thread at the head of the ring gets the processor. One that never ran gets stack `x`
      (lazy_stack_alloc and thread_entry); any other goes on where it left. */
  function Dispatch(s: Sys, x: nat): Sys {
    if !(Sizes(s) && s.lists.ring != [] && s.lists.ring[0] < |s.at|) then s
    else
      var c := s.lists.ring[0];
      if !s.desc[c].saved.NoContext? then s.(cur := c)
      else if x >= |s.owner| then s
      else
        s.(cur := c, desc := s.desc[c := s.desc[c].(started := true, saved := Prepared, stackBase := x)],
           root := s.root[c := c], depth := s.depth[c := 0], owner := s.owner[x := Of(c)], stacks := s.stacks + {x})
  }

  lemma DispatchKeeps(s: Sys, x: nat)
    requires Handing(s) && s.cur == NIL
    requires (s.desc[s.lists.ring[0]].saved.NoContext? ==> x < |s.owner| && x !in s.stacks)
    ensures Inv(Dispatch(s, x))
  {
    if s.desc[s.lists.ring[0]].saved.NoContext? { FirstRun(s, x); } else { NextRun(s, x); }
  }

  lemma FirstRun(s: Sys, x: nat)
    requires Handing(s) && s.cur == NIL && x < |s.owner| && x !in s.stacks
    requires s.desc[s.lists.ring[0]].saved.NoContext?
    ensures Inv(Dispatch(s, x))
  {
    var s', c := Dispatch(s, x), s.lists.ring[0];
    assert ThreadOk(s, c);
    assert OwnerOk(s, x);
    forall u: nat | u < |s'.at| ensures ThreadOk(s', u) { assert ThreadOk(s, u); }
    forall y: nat | y < |s'.owner| ensures OwnerOk(s', y) { assert OwnerOk(s, y); }
  }

  lemma NextRun(s: Sys, x: nat)
    requires Handing(s) && s.cur == NIL && !s.desc[s.lists.ring[0]].saved.NoContext?
    ensures Inv(Dispatch(s, x))
  {
    var s', c := Dispatch(s, x), s.lists.ring[0];
    assert ThreadOk(s, c);
    forall u: nat | u < |s'.at| ensures ThreadOk(s', u) { assert ThreadOk(s, u); }
    forall y: nat | y < |s'.owner| ensures OwnerOk(s', y) { assert OwnerOk(s, y); }
  }

  /** The end of a switch made by thread_yield_asm: whatever thread it switched to, the stack of
      the thread that exited last is released. No other switch does this. */
  function ReleaseDead(s: Sys): Sys {
    if s.dead == NIL || !(0 <= s.dead < |s.owner|) then s
    else s.(owner := s.owner[s.dead := Nobody], stacks := s.stacks - {s.dead}, dead := NIL)
  }

  lemma ReleaseKeeps(s: Sys)
    requires Inv(s)
    ensures s.dead != NIL ==> 0 <= s.dead < |s.owner| && s.dead in s.stacks
    ensures Inv(ReleaseDead(s)) && ReleaseDead(s).dead == NIL && ReleaseDead(s).cur == s.cur
  {
    if s.dead != NIL { assert OwnerOk(s, s.dead); }
    var s' := ReleaseDead(s);
    forall u: nat | u < |s'.at| ensures ThreadOk(s', u) {
      assert ThreadOk(s, u);
      if StackOk(s, u) && s.at[u] != Unused && s.desc[u].stackBase != NIL { assert OwnerOk(s, s.desc[u].stackBase); }
    }
    hide ThreadOk;
    forall x: nat | x < |s'.owner| ensures OwnerOk(s', x) { assert OwnerOk(s, x); }
  }

  // ---------- Leaving ----------

  /** Nobody has frames on the stack of a thread that has not lent its place, except itself. */
  lemma {:induction false} RootHasLent(s: Sys, u: nat)
    requires AllThreads(s) && u < |s.at| && Live(s.desc[u], s.at[u]) && s.root[u] != u
    ensures s.root[u] < |s.at| && s.at[s.root[u]].Lent?
    decreases s.depth[u]
  {
    assert ThreadOk(s, u);
    var g := s.desc[u].joiner;
    assert ThreadOk(s, g);
    if s.root[g] != g { RootHasLent(s, g); }
  }

  /** thread_exit with a joiner waiting: it takes the place of the thread that leaves. */
  function ExitToJoiner(s: Sys): Sys {
    if !(Sizes(s) && 0 <= s.cur < |s.at| && 0 <= s.desc[s.cur].waiting < |s.at| && s.lists.ring != []) then s
    else
      var me, w := s.cur, s.desc[s.cur].waiting;
      s.(lists := s.lists.(ring := s.lists.ring[0 := w], home := s.lists.home[w := InRing][me := Off]), cur := NIL,
         desc := s.desc[me := s.desc[me].(finished := true)], at := s.at[me := Dead][w := Ready])
  }

  lemma ExitToJoinerKeeps(s: Sys)
    requires Inv(s) && 0 <= s.cur < |s.at| && s.desc[s.cur].joiner == NIL && s.desc[s.cur].waiting != NIL
    ensures 0 <= s.desc[s.cur].waiting < |s.at| && Handing(ExitToJoiner(s))
    ensures ExitToJoiner(s).desc[s.desc[s.cur].waiting].saved.Suspended?
  {
    Running(s);
    var s', w := ExitToJoiner(s), s.desc[s.cur].waiting;
    assert ThreadOk(s, w);
    forall u: nat | u < |s'.at| ensures ThreadOk(s', u) {
      assert ThreadOk(s, u);
      if u != s.cur && Live(s.desc[u], s.at[u]) && s.root[u] == s.cur { RootHasLent(s, u); }
      ToJoinerThread(s, u);
    }
    hide ThreadOk;
    forall x: nat | x < |s'.owner| ensures OwnerOk(s', x) { assert OwnerOk(s, x); }
  }

  lemma ToJoinerThread(s: Sys, u: nat)
    requires CurrentOk(s) && 0 <= s.cur < |s.at| && u < |s.at| && s.desc[s.cur].joiner == NIL
    requires 0 <= s.desc[s.cur].waiting < |s.at|
    requires ThreadOk(s, s.cur) && ThreadOk(s, s.desc[s.cur].waiting) && ThreadOk(s, u)
    requires u != s.cur && Live(s.desc[u], s.at[u]) ==> s.root[u] != s.cur
    ensures var s' := ExitToJoiner(s); Sizes(s') && |s'.at| == |s.at| && ThreadOk(s', u)
  {
  }

  /** thread_exit without a joiner: the stack waits in `pending_dead_stack`, and the one that
      waited there before is released. */
  function ExitAway(s: Sys): Sys {
    if !(Sizes(s) && 0 <= s.cur < |s.at| && (s.dead == NIL || 0 <= s.dead < |s.owner|)
         && (s.desc[s.cur].stackBase == NIL || 0 <= s.desc[s.cur].stackBase < |s.owner|)) then s
    else
      var me, x := s.cur, s.desc[s.cur].stackBase;
      var owner := if s.dead == NIL then s.owner else s.owner[s.dead := Nobody];
      s.(lists := Departed(s.lists, NIL), cur := NIL,
         desc := s.desc[me := s.desc[me].(finished := true, func := 0, stackBase := NIL)], at := s.at[me := Dead],
         owner := if x == NIL then owner else owner[x := Pending], dead := x,
         stacks := if s.dead == NIL then s.stacks else s.stacks - {s.dead})
  }

  lemma ExitAwayKeeps(s: Sys)
    requires Inv(s) && |s.lists.ring| > 1 && s.lists.ring[|s.lists.ring| - 1] < |s.at|
    requires s.lists.home[s.lists.ring[|s.lists.ring| - 1]] == InRing && s.lists.ring[|s.lists.ring| - 1] != s.cur
    requires 0 <= s.cur < |s.at| && s.desc[s.cur].joiner == NIL && s.desc[s.cur].waiting == NIL
    ensures s.dead != NIL ==> 0 <= s.dead < |s.owner| && s.dead in s.stacks
    ensures s.desc[s.cur].stackBase != NIL ==> 0 <= s.desc[s.cur].stackBase < |s.owner|
    ensures Handing(ExitAway(s))
  {
    Running(s);
    if s.dead != NIL { assert OwnerOk(s, s.dead); }
    if s.desc[s.cur].stackBase != NIL { assert OwnerOk(s, s.desc[s.cur].stackBase); }
    var s', n := ExitAway(s), s.lists.ring[|s.lists.ring| - 1];
    assert s'.lists.ring[0] == n;
    assert ThreadOk(s, n);
    forall u: nat | u < |s'.at| ensures ThreadOk(s', u) {
      assert ThreadOk(s, u);
      if u != s.cur && Live(s.desc[u], s.at[u]) && s.root[u] == s.cur { RootHasLent(s, u); }
      ExitThread(s, u);
    }
    hide ThreadOk;
    forall x: nat | x < |s'.owner| ensures OwnerOk(s', x) { assert OwnerOk(s, x); }
  }

  lemma ExitThread(s: Sys, u: nat)
    requires Sizes(s) && 0 <= s.cur < |s.at| && |s.lists.ring| > 1 && u < |s.at| && ThreadOk(s, s.cur) && ThreadOk(s, u)
    requires s.at[s.cur] == Ready && Live(s.desc[s.cur], s.at[s.cur]) && s.lists.ring[0] == s.cur
    requires s.desc[s.cur].joiner == NIL && s.desc[s.cur].waiting == NIL
    requires s.dead != NIL ==> 0 <= s.dead < |s.owner| && OwnerOk(s, s.dead)
    requires s.desc[s.cur].stackBase != NIL ==> 0 <= s.desc[s.cur].stackBase < |s.owner|
    requires u != s.cur && Live(s.desc[u], s.at[u]) ==> s.root[u] != s.cur
    ensures ThreadOk(ExitAway(s), u)
  {
    hide Left;
  }

  // ---------- What the invariant means ----------

  /** The stack that the program executes on belongs to a thread that is still alive, so it is
      neither free nor waiting to be released; only the main thread has no stack of the arena. */
  lemma ExecutingStackOwned(s: Sys)
    requires Inv(s)
    ensures 0 <= s.cur < |s.at| && s.root[s.cur] < |s.at|
    ensures var r := s.root[s.cur];
            var x := s.desc[r].stackBase;
            && Live(s.desc[r], s.at[r]) && (x == NIL ==> r == 0)
            && (x != NIL ==> 0 <= x < |s.owner| && x in s.stacks && x != s.dead && s.owner[x] == Of(r))
  {
    Running(s);
    var r := s.root[s.cur];
    assert ThreadOk(s, r);
    if s.desc[r].stackBase != NIL { assert OwnerOk(s, s.desc[r].stackBase); }
  }

  /** The descriptor of `t` is in use and has stack `x`. */
  predicate HasStack(s: Sys, t: nat, x: nat)
    requires Sizes(s)
  {
    t < |s.at| && s.at[t] != Unused && s.desc[t].stackBase == x
  }

  /** A used stack of the arena is `pending_dead_stack` or the stack of exactly one descriptor, and
      never both. */
  lemma StacksPartitioned(s: Sys, x: nat)
    requires Inv(s) && x < |s.owner|
    ensures x in s.stacks <==> s.dead == x || exists t: nat :: HasStack(s, t, x)
    ensures forall t: nat :: HasStack(s, t, x) ==> s.dead != x
    ensures forall t: nat, u: nat :: HasStack(s, t, x) && HasStack(s, u, x) ==> t == u
  {
    assert OwnerOk(s, x);
    forall t: nat | HasStack(s, t, x) ensures s.owner[x] == Of(t) { assert ThreadOk(s, t); }
    if s.owner[x].Of? { assert HasStack(s, s.owner[x].t, x); }
  }

  /** A thread that exits never hands out its own stack: a stack that is free after thread_exit has
      retired it is another one. */
  lemma ExitKeepsItsStack(s: Sys, x: nat)
    requires Inv(s) && |s.lists.ring| > 1 && s.lists.ring[|s.lists.ring| - 1] < |s.at|
    requires s.lists.home[s.lists.ring[|s.lists.ring| - 1]] == InRing && s.lists.ring[|s.lists.ring| - 1] != s.cur
    requires 0 <= s.cur < |s.at| && s.desc[s.cur].joiner == NIL && s.desc[s.cur].waiting == NIL
    requires x !in ExitAway(s).stacks
    ensures s.root[s.cur] == s.cur && x != s.desc[s.cur].stackBase
    ensures s.desc[s.cur].stackBase == NIL || s.desc[s.cur].stackBase in ExitAway(s).stacks
  {
    Running(s);
    ExitAwayKeeps(s);
    var b := s.desc[s.cur].stackBase;
    if b != NIL { assert OwnerOk(s, b); assert OwnerOk(ExitAway(s), b); }
  }

  /** Whoever runs after thread_exit, and however it had been suspended, the stack of the thread
      that left stays `pending_dead_stack`: the switch to the next thread does not release it. */
  lemma ExitLeavesPending(s: Sys, x: nat)
    requires Inv(s) && |s.lists.ring| > 1 && s.lists.ring[|s.lists.ring| - 1] < |s.at|
    requires s.lists.home[s.lists.ring[|s.lists.ring| - 1]] == InRing && s.lists.ring[|s.lists.ring| - 1] != s.cur
    requires 0 <= s.cur < |s.at| && s.desc[s.cur].joiner == NIL && s.desc[s.cur].waiting == NIL
    requires x !in ExitAway(s).stacks && x < |s.owner|
    ensures var b, e := s.desc[s.cur].stackBase, Dispatch(ExitAway(s), x);
            Inv(e) && e.dead == b && (b != NIL ==> 0 <= b < |e.owner| && b in e.stacks && e.owner[b] == Pending)
  {
    ExitAwayKeeps(s);
    DispatchKeeps(ExitAway(s), x);
    var e := Dispatch(ExitAway(s), x);
    if e.dead != NIL { assert OwnerOk(e, e.dead); }
  }

  /** A yield to a thread that never ran allocates first and releases afterwards, so the new thread
      cannot get the stack of the one that exited last, although that one is free from then on. */
  lemma FirstRunAvoidsPending(s: Sys, k: nat, x: nat)
    requires Inv(s) && 0 < k < |s.lists.ring| && s.lists.ring[k] < |s.at| && s.lists.home[s.lists.ring[k]] == InRing
    requires !s.desc[s.lists.ring[k]].started && x < |s.owner| && x !in s.stacks
    ensures var r := ReleaseDead(Dispatch(HandOver(s, k), x));
            && Inv(r) && r.cur == s.lists.ring[k] && r.desc[r.cur].stackBase == x && x in r.stacks
            && x != s.dead && (s.dead != NIL ==> s.dead !in r.stacks)
  {
    var c, h := s.lists.ring[k], HandOver(s, k);
    HandOverKeeps(s, k);
    assert ThreadOk(s, c) && ThreadOk(h, c);
    RotateAt(s.lists.ring, k, 0);
    DispatchKeeps(h, x);
    ReleaseKeeps(Dispatch(h, x));
    if s.dead != NIL { assert OwnerOk(s, s.dead); }
  }

  /** The comment on thread_join: a thread that has its function but has not started is ready, in
      the ring, without a stack; one that was just created is in no list at all. */
  lemma NotStartedIsReady(s: Sys, t: nat)
    requires Inv(s) && t < |s.at| && s.at[t] != Unused && !s.desc[t].started
    ensures s.desc[t].func != 0 <==> s.lists.home[t] == InRing
    ensures s.desc[t].func == 0 <==> s.last == t
    ensures s.desc[t].stackBase == NIL && s.desc[t].saved == NoContext
  {
    assert ThreadOk(s, t);
  }

  /** An inline join gives the joiner back the place it lent, in the same ring. */
  lemma InlineGivesBack(s: Sys, t: nat, ring: seq<nat>)
    requires Inv(s) && t < |s.at| && Unstarted(s, t) && ring != [] && ring[0] == s.cur
    ensures var e := EndInline(BeginInline(Pulled(s, t, ring), t));
            && e.cur == s.cur && e.lists.ring == ring && e.lists.queues == s.lists.queues
            && e.at == s.at[t := Dead] && e.desc[t].finished
  {
    Running(s);
    assert ThreadOk(s, t);
    var e := EndInline(BeginInline(Pulled(s, t, ring), t));
    assert e.lists.ring == ring;
    assert e.at == s.at[t := Dead];
  }
}
