/** The two-level allocators of the M:N build (src/thread_mn.c:154-303): a free list per worker,
    refilled from and flushed to a global pool in batches under `alloc_lock`.

    A worker touches only its own cache and its own local list outside the lock, so the code
    between two lock operations is one atomic block; blocks of all workers interleave freely
    (`Others`). Thread descriptors and stacks use the same scheme with other constants. */
module Caches {
  import opened Basics
  import opened FreeLists

  const T_CACHE_MAX: nat := 32
  const T_CACHE_REFILL: nat := 16
  const S_CACHE_MAX: nat := 16
  const S_CACHE_REFILL: nat := 8

  const GLOBAL: nat := 0

  function Min(a: int, b: int): int { if a < b then a else b }

  /** A list moved slot by slot from one list to another comes out the other way round. */
  function Flipped(s: seq<nat>): (r: seq<nat>)
    ensures |r| == |s|
  {
    if s == [] then [] else [s[|s| - 1]] + Flipped(s[..|s| - 1])
  }

  /** One slot moves from the list `s[i..]` to the head of a list that was `old_` at first. */
  lemma FlippedMore(s: seq<nat>, i: nat, old_: seq<nat>)
    requires i < |s|
    ensures Flipped(s[..i + 1]) + old_ == [s[i..][0]] + (Flipped(s[..i]) + old_) && s[i..][1..] == s[i + 1..]
  {
    assert s[..i + 1][..i] == s[..i];
    hide Flipped;
    assert ([s[i]] + Flipped(s[..i])) + old_ == [s[i]] + (Flipped(s[..i]) + old_);
  }

  lemma FlippedNone(s: seq<nat>, old_: seq<nat>)
    ensures Flipped(s[..0]) + old_ == old_ && s[0..] == s
  {
  }

  /** The first `k` slots a refill gets: those of the global list, then fresh ones from `next`. */
  function Supply(global: seq<nat>, next: nat, k: nat): (r: seq<nat>)
    ensures |r| == k
  {
    seq(k, i requires 0 <= i < k => if i < |global| then global[i] else next + i - |global|)
  }

  lemma SupplyMore(global: seq<nat>, next: nat, k: nat)
    ensures Flipped(Supply(global, next, k + 1)) ==
            [if k < |global| then global[k] else next + k - |global|] + Flipped(Supply(global, next, k))
  {
    assert Supply(global, next, k + 1)[..k] == Supply(global, next, k);
  }

  /** `got` slots have been moved to the local list, where there were `global` and `next` before. */
  ghost predicate Refilled(global: seq<nat>, next: nat, got: nat, local: seq<nat>, global': seq<nat>, next': nat) {
    && local == Flipped(Supply(global, next, got))
    && global' == global[Min(got, |global|)..] && next' == next + got - Min(got, |global|)
  }

  // ---------- Who has a slot ----------

  /** What happens to a slot outside the lists: worker `w` takes it, gives it back, or leaves it to
      code on worker `to`. */
  datatype Event = Took(w: nat, x: nat) | Gave(w: nat, x: nat) | Passed(w: nat, to: nat, x: nat)

  /** The worker that has slot `x` after the events, or NIL. */
  function Owner(log: seq<Event>, x: nat): int {
    if log == [] then NIL
    else
      var e := log[|log| - 1];
      if e.x != x then Owner(log[..|log| - 1], x)
      else match e case Took(w, _) => w case Gave(_, _) => NIL case Passed(_, to, _) => to
  }

  /** Only a slot that nobody has is taken, and only its owner gives it back or passes it on. */
  predicate Fits(log: seq<Event>, e: Event) {
    Owner(log, e.x) == if e.Took? then NIL else e.w
  }

  ghost predicate Legal(log: seq<Event>) {
    forall i {:trigger log[i]} :: 0 <= i < |log| ==> Fits(log[..i], log[i])
  }

  /** `holder` says who has which slot now. */
  ghost predicate Booked(log: seq<Event>, holder: map<nat, nat>) {
    Legal(log) && forall x: nat :: Owner(log, x) == if x in holder then holder[x] else NIL
  }

  lemma BookTook(log: seq<Event>, holder: map<nat, nat>, w: nat, x: nat)
    requires Booked(log, holder) && x !in holder
    ensures Booked(log + [Took(w, x)], holder[x := w])
  {
    LegalMore(log, Took(w, x));
  }

  lemma BookGave(log: seq<Event>, holder: map<nat, nat>, w: nat, x: nat)
    requires Booked(log, holder) && x in holder && holder[x] == w
    ensures Booked(log + [Gave(w, x)], holder - {x})
  {
    LegalMore(log, Gave(w, x));
  }

  lemma BookPassed(log: seq<Event>, holder: map<nat, nat>, w: nat, to: nat, x: nat)
    requires Booked(log, holder) && x in holder && holder[x] == w
    ensures Booked(log + [Passed(w, to, x)], holder[x := to])
  {
    LegalMore(log, Passed(w, to, x));
  }

  lemma LegalMore(log: seq<Event>, e: Event)
    requires Legal(log) && Fits(log, e)
    ensures Legal(log + [e])
    ensures forall x: nat :: Owner(log + [e], x) ==
                             if e.x != x then Owner(log, x)
                             else match e case Took(w, _) => w case Gave(_, _) => NIL case Passed(_, to, _) => to
  {
    var l := log + [e];
    assert l[..|log|] == log;
    forall i | 0 <= i < |l| ensures Fits(l[..i], l[i]) {
      if i < |log| { assert l[..i] == log[..i] && l[i] == log[i]; }
    }
  }

  /** Slot `x` is given back somewhere between `i` and `j`. */
  ghost predicate GivenBack(log: seq<Event>, x: nat, i: nat, j: nat) {
    exists k :: i < k < j <= |log| && log[k].Gave? && log[k].x == x
  }

  /** No slot is handed out twice: before it is taken again it has been given back. */
  lemma {:induction false} NeverTwice(log: seq<Event>, x: nat, i: nat, j: nat)
    requires Legal(log) && i < j < |log| && log[i].Took? && log[j].Took? && log[i].x == log[j].x == x
    ensures GivenBack(log, x, i, j)
  {
    assert Fits(log[..j], log[j]);
    if !GivenBack(log, x, i, j) { StillHeld(log, x, i, j); }
  }

  lemma {:induction false} StillHeld(log: seq<Event>, x: nat, i: nat, j: nat)
    requires Legal(log) && i < j <= |log| && log[i].Took? && log[i].x == x && !GivenBack(log, x, i, j)
    ensures Owner(log[..j], x) != NIL
  {
    var l, e := log[..j], log[j - 1];
    assert l[..j - 1] == log[..j - 1] && l[|l| - 1] == e;
    if j - 1 > i {
      StillHeld(log, x, i, j - 1);
      assert e.Gave? && e.x == x ==> GivenBack(log, x, i, j);
    }
  }

  ghost predicate ByOthers(es: seq<Event>, w: nat) {
    forall e {:trigger e in es} :: e in es ==> e.w != w
  }

  /** The log grew by events of workers other than `w`. */
  ghost predicate GrewAround(old_: seq<Event>, log: seq<Event>, w: nat) {
    old_ <= log && ByOthers(log[|old_|..], w)
  }

  lemma GrewTwice(a: seq<Event>, b: seq<Event>, c: seq<Event>, w: nat)
    requires GrewAround(a, b, w) && GrewAround(b, c, w)
    ensures GrewAround(a, c, w)
  {
    assert c[|a|..] == b[|a|..] + c[|b|..];
  }

  /** What `w` has, it keeps. */
  ghost predicate Keeps(holder: map<nat, nat>, holder': map<nat, nat>, w: nat) {
    forall x {:trigger x in holder} {:trigger x in holder'} :: x in holder && holder[x] == w ==>
      x in holder' && holder'[x] == w
  }

  class Pool {
    const workers: nat
    const cacheMax: nat
    const refill: nat
    const slots: Slots
    const count: array<int>
    var arenaNext: nat
    var holder: map<nat, nat>    // the worker whose callers have a slot
    ghost var log: seq<Event>

    /** The list that is worker `w`'s cache, and the list its alloc call is just handling. */
    function Cache(w: nat): nat { 1 + w }
    function Private(w: nat): nat { 1 + workers + w }

    ghost predicate Counted(lists: seq<seq<nat>>, counts: seq<int>) {
      && |lists| == 1 + 2 * workers && |counts| == workers
      && (forall w: nat {:trigger counts[w]} :: w < workers ==>
            && counts[w] == |lists[Cache(w)]|
            && counts[w] + |lists[Private(w)]| <= cacheMax)
    }

    /** Only initialised slots are in lists. */
    ghost predicate Initialised(list: seq<int>, n: nat) {
      n <= |list| && forall x: nat {:trigger list[x]} :: n <= x < |list| ==> list[x] == NIL
    }

    ghost predicate Valid()
      reads this, slots, slots.link, slots.head, count
    {
      && slots.Valid() && count != slots.link && count != slots.head
      && 0 < refill <= cacheMax
      && count.Length == workers
      && Counted(slots.lists, count[..])
      && Initialised(slots.list, arenaNext)
      && holder.Keys == Unlisted() && (forall x :: x in holder ==> holder[x] < workers)
      && Booked(log, holder)
    }

    /** The initialised slots that are in no list. */
    ghost function Unlisted(): set<nat>
      reads this, slots
    {
      set x: nat | x < |slots.list| && x < arenaNext && slots.list[x] == NIL
    }

    constructor (workers: nat, capacity: nat, cacheMax: nat, refill: nat)
      requires 0 < refill <= cacheMax
      ensures Valid() && holder == map[] && log == [] && arenaNext == 0 && this.workers == workers
      ensures this.cacheMax == cacheMax && this.refill == refill && slots.link.Length == capacity
    {
      this.workers, this.cacheMax, this.refill := workers, cacheMax, refill;
      slots := new Slots(capacity, 1 + 2 * workers);
      count := new int[workers](_ => 0);
      arenaNext, holder, log := 0, map[], [];
    }

    /** Conservation: every initialised slot is held by a caller or at exactly one place of
        exactly one list; uninitialised ones are nowhere. */
    lemma Conserved(x: nat)
      requires Valid() && x < slots.link.Length
      ensures x < arenaNext ==>
                (x in holder <==>
                 forall k, i :: 0 <= k < |slots.lists| && 0 <= i < |slots.lists[k]| ==> slots.lists[k][i] != x)
      ensures x >= arenaNext ==> x !in holder && forall k :: 0 <= k < |slots.lists| ==> x !in slots.lists[k]
      ensures forall k, i, m, j
                | && 0 <= k < |slots.lists| && 0 <= i < |slots.lists[k]|
                  && 0 <= m < |slots.lists| && 0 <= j < |slots.lists[m]| ::
                (slots.lists[k][i] == x == slots.lists[m][j] ==> k == m && i == j)
    {
      forall k, i | 0 <= k < |slots.lists| && 0 <= i < |slots.lists[k]| && slots.lists[k][i] == x
        ensures slots.list[x] == k
      {
        assert MembersIn(slots.list, slots.lists[k], k) && x in slots.lists[k];
      }
      forall k | 0 <= k < |slots.lists| ensures Threaded(slots.link[..], slots.head[..][k], slots.lists[k]) {}
    }

    /** Over the whole history of the pool, no slot was handed out twice. */
    lemma HandedOutOnce(x: nat, i: nat, j: nat)
      requires Valid() && i < j < |log| && log[i].Took? && log[j].Took? && log[i].x == log[j].x == x
      ensures GivenBack(log, x, i, j)
    {
      NeverTwice(log, x, i, j);
    }

    // ---------- Atomic blocks ----------

    /** What a block of worker `w` leaves alone: the caches and local lists of all others. */
    twostate predicate Local(w: nat)
      reads this, slots
    {
      && |slots.lists| == old(|slots.lists|) && old(arenaNext) <= arenaNext
      && forall k: nat {:trigger slots.lists[k]} ::
           k < |slots.lists| && k != GLOBAL && k != Cache(w) && k != Private(w) ==>
             slots.lists[k] == old(slots.lists[k])
    }

    /** Alloc, cache not empty: pop it. */
    method TakeCached(w: nat) returns (x: nat)
      requires Valid() && w < workers && slots.lists[Cache(w)] != []
      modifies this`holder, this`log, slots, slots.head, count
      ensures Valid() && Local(w) && x == old(slots.lists[Cache(w)])[0] && arenaNext == old(arenaNext)
      ensures x !in old(holder) && holder == old(holder)[x := w] && log == old(log) + [Took(w, x)]
      ensures slots.lists == old(slots.lists)[Cache(w) := old(slots.lists[Cache(w)])[1..]]
    {
      x := slots.Pop(Cache(w));
      count[w] := count[w] - 1;
      BookTook(log, holder, w, x);
      holder, log := holder[x := w], log + [Took(w, x)];
    }

    /** Refill round: a slot from the global list to the local one. */
    method FetchGlobal(w: nat)
      requires Valid() && w < workers && count[w] + |slots.lists[Private(w)]| < cacheMax && slots.lists[GLOBAL] != []
      modifies slots, slots.link, slots.head
      ensures Valid() && Local(w) && slots.lists[Cache(w)] == old(slots.lists[Cache(w)])
      ensures slots.lists[Private(w)] == [old(slots.lists[GLOBAL])[0]] + old(slots.lists[Private(w)])
      ensures slots.lists[GLOBAL] == old(slots.lists[GLOBAL])[1..]
    {
      var x := slots.Pop(GLOBAL);
      slots.Push(Private(w), x);
    }

    /** Refill round: a fresh slot of the arena to the local list. */
    method FetchFresh(w: nat)
      requires Valid() && w < workers && count[w] + |slots.lists[Private(w)]| < cacheMax
      requires arenaNext < slots.link.Length
      modifies this`arenaNext, slots, slots.link, slots.head
      ensures Valid() && Local(w) && slots.lists[Cache(w)] == old(slots.lists[Cache(w)])
      ensures slots.lists[Private(w)] == [old(arenaNext)] + old(slots.lists[Private(w)])
      ensures slots.lists[GLOBAL] == old(slots.lists[GLOBAL]) && arenaNext == old(arenaNext) + 1
    {
      slots.Push(Private(w), arenaNext);
      arenaNext := arenaNext + 1;
    }

    /** What a refill of an empty cache does: a batch of slots, or all there are, to the local list;
        those of the global list first. */
    twostate predicate Batch(w: nat)
      reads this, slots, slots.link
      requires w < workers && |slots.lists| == 1 + 2 * workers && |old(slots.lists)| == 1 + 2 * workers
    {
      var g, n, got := old(slots.lists[GLOBAL]), old(arenaNext), |slots.lists[Private(w)]|;
      && got == Min(refill, |g| + slots.link.Length - n)
      && Refilled(g, n, got, slots.lists[Private(w)], slots.lists[GLOBAL], arenaNext)
    }

    lemma Sized()
      requires Valid()
      ensures |slots.lists| == 1 + 2 * workers && arenaNext <= slots.link.Length
    {
    }

    /** The locked part of thread_alloc: the global list first, then the slab. */
    method RefillThreads(w: nat)
      requires Valid() && w < workers && count[w] == 0 && slots.lists[Private(w)] == []
      modifies this`arenaNext, slots, slots.link, slots.head
      ensures Valid() && Local(w) && slots.lists[Cache(w)] == [] && Batch(w)
    {
      hide Initialised, Flipped, Supply;
      ghost var g, n := slots.lists[GLOBAL], arenaNext;
      var got := FetchListed(w);
      Sized();
      while got < refill && arenaNext < slots.link.Length
        invariant Valid() && Local(w) && slots.lists[Cache(w)] == [] && count[w] == 0
        invariant got == |slots.lists[Private(w)]| <= refill && (got < refill ==> got >= |g|)
        invariant Refilled(g, n, got, slots.lists[Private(w)], slots.lists[GLOBAL], arenaNext)
        invariant arenaNext <= slots.link.Length
      {
        SupplyMore(g, n, got);
        FetchFresh(w);
        got := got + 1;
        Sized();
      }
    }

    method FetchListed(w: nat) returns (got: nat)
      requires Valid() && w < workers && count[w] == 0 && slots.lists[Private(w)] == []
      modifies slots, slots.link, slots.head
      ensures Valid() && Local(w) && slots.lists[Cache(w)] == [] && got == |slots.lists[Private(w)]| <= refill
      ensures got == Min(refill, |old(slots.lists[GLOBAL])|)
      ensures Refilled(old(slots.lists[GLOBAL]), arenaNext, got, slots.lists[Private(w)], slots.lists[GLOBAL],
                       arenaNext)
    {
      hide Initialised, Flipped, Supply;
      ghost var g, n := slots.lists[GLOBAL], arenaNext;
      got := 0;
      Start(g, n);
      slots.EmptyMeans(GLOBAL);
      while got < refill && !slots.IsEmpty(GLOBAL)
        invariant Valid() && Local(w) && slots.lists[Cache(w)] == [] && count[w] == 0
        invariant got == |slots.lists[Private(w)]| <= refill && got <= |g|
        invariant Refilled(g, n, got, slots.lists[Private(w)], slots.lists[GLOBAL], arenaNext)
        invariant slots.IsEmpty(GLOBAL) <==> slots.lists[GLOBAL] == []
      {
        SupplyMore(g, n, got);
        FetchGlobal(w);
        got := got + 1;
        slots.EmptyMeans(GLOBAL);
      }
    }

    lemma Start(g: seq<nat>, n: nat)
      ensures Refilled(g, n, 0, [], g, n)
    {
    }

    /** The locked part of stack_alloc: up to `refill` calls of stack_alloc_locked. */
    method RefillStacks(w: nat)
      requires Valid() && w < workers && count[w] == 0 && slots.lists[Private(w)] == []
      modifies this`arenaNext, slots, slots.link, slots.head
      ensures Valid() && Local(w) && slots.lists[Cache(w)] == [] && Batch(w)
    {
      hide Initialised, Flipped, Supply;
      ghost var g, n := slots.lists[GLOBAL], arenaNext;
      var got := 0;
      Start(g, n);
      Sized();
      while got < refill
        invariant Valid() && Local(w) && slots.lists[Cache(w)] == [] && count[w] == 0
        invariant got == |slots.lists[Private(w)]| <= refill && got <= |g| + slots.link.Length - n
        invariant Refilled(g, n, got, slots.lists[Private(w)], slots.lists[GLOBAL], arenaNext)
      {
        Sized();
        slots.EmptyMeans(GLOBAL);
        SupplyMore(g, n, got);
        if !slots.IsEmpty(GLOBAL) {
          FetchGlobal(w);
        } else if arenaNext < slots.link.Length {
          FetchFresh(w);
        } else {
          break;
        }
        got := got + 1;
      }
    }

    /** The head of the local list goes to the caller. */
    method Keep(w: nat) returns (x: nat)
      requires Valid() && w < workers && slots.lists[Private(w)] != []
      modifies this`holder, this`log, slots, slots.head
      ensures Valid() && Local(w)
      ensures x !in old(holder) && holder == old(holder)[x := w] && log == old(log) + [Took(w, x)]
      ensures slots.lists == old(slots.lists)[Private(w) := old(slots.lists[Private(w)])[1..]]
    {
      x := slots.Pop(Private(w));
      BookTook(log, holder, w, x);
      holder, log := holder[x := w], log + [Took(w, x)];
    }

    /** The rest of the local list goes to the worker's cache. */
    method Spread(w: nat)
      requires Valid() && w < workers
      modifies slots, slots.link, slots.head, count
      ensures Valid() && Local(w) && slots.lists[Private(w)] == [] && slots.lists[GLOBAL] == old(slots.lists[GLOBAL])
      ensures slots.lists[Cache(w)] == Flipped(old(slots.lists[Private(w)])) + old(slots.lists[Cache(w)])
    {
      hide Initialised, Flipped, Counted;
      Sized();
      ghost var p, c, i := slots.lists[Private(w)], slots.lists[Cache(w)], 0;
      FlippedNone(p, c);
      slots.EmptyMeans(Private(w));
      while !slots.IsEmpty(Private(w))
        invariant Valid() && Local(w) && slots.lists[GLOBAL] == old(slots.lists[GLOBAL])
        invariant |slots.lists| == 1 + 2 * workers
        invariant slots.IsEmpty(Private(w)) <==> slots.lists[Private(w)] == []
        invariant 0 <= i <= |p| && slots.lists[Private(w)] == p[i..] && slots.lists[Cache(w)] == Flipped(p[..i]) + c
        decreases |slots.lists[Private(w)]|
      {
        FlippedMore(p, i, c);
        SpreadOne(w);
        i := i + 1;
        Sized();
        slots.EmptyMeans(Private(w));
      }
      assert p[..i] == p;
    }

    method SpreadOne(w: nat)
      requires Valid() && w < workers && slots.lists[Private(w)] != []
      modifies slots, slots.link, slots.head, count
      ensures Valid() && Local(w) && slots.lists[GLOBAL] == old(slots.lists[GLOBAL])
      ensures slots.lists[Private(w)] == old(slots.lists[Private(w)])[1..]
      ensures slots.lists[Cache(w)] == [old(slots.lists[Private(w)])[0]] + old(slots.lists[Cache(w)])
    {
      var x := slots.Pop(Private(w));
      slots.Push(Cache(w), x);
      count[w] := count[w] + 1;
    }

    /** Release, cache not full: the slot goes to the worker's cache. */
    method PutCached(w: nat, x: nat)
      requires Valid() && w < workers && x in holder && holder[x] == w
      requires count[w] < cacheMax && slots.lists[Private(w)] == []
      modifies this`holder, this`log, slots, slots.link, slots.head, count
      ensures Valid() && Local(w) && holder == old(holder) - {x} && log == old(log) + [Gave(w, x)]
      ensures slots.lists == old(slots.lists)[Cache(w) := [x] + old(slots.lists[Cache(w)])]
    {
      slots.Push(Cache(w), x);
      count[w] := count[w] + 1;
      BookGave(log, holder, w, x);
      holder, log := holder - {x}, log + [Gave(w, x)];
    }

    /** Release, cache full: `refill` slots and then `x` go to the global list, under the lock. */
    method Flush(w: nat, x: nat)
      requires Valid() && w < workers && x in holder && holder[x] == w && slots.lists[Private(w)] == []
      modifies this`holder, this`log, slots, slots.link, slots.head, count
      ensures Valid() && Local(w) && slots.lists[Private(w)] == []
      ensures holder == old(holder) - {x} && log == old(log) + [Gave(w, x)]
      ensures var c, k := old(slots.lists[Cache(w)]), Min(refill, |old(slots.lists[Cache(w)])|);
              && slots.lists[Cache(w)] == c[k..]
              && slots.lists[GLOBAL] == [x] + (Flipped(c[..k]) + old(slots.lists[GLOBAL]))
    {
      hide Initialised, Flipped, Counted;
      Sized();
      ghost var c, g := slots.lists[Cache(w)], slots.lists[GLOBAL];
      var i := 0;
      FlippedNone(c, g);
      slots.EmptyMeans(Cache(w));
      while i < refill && !slots.IsEmpty(Cache(w))
        invariant Valid() && Local(w) && slots.lists[Private(w)] == [] && holder == old(holder) && log == old(log)
        invariant |slots.lists| == 1 + 2 * workers
        invariant slots.IsEmpty(Cache(w)) <==> slots.lists[Cache(w)] == []
        invariant 0 <= i <= refill && i <= |c| && slots.lists[Cache(w)] == c[i..]
        invariant slots.lists[GLOBAL] == Flipped(c[..i]) + g
      {
        FlippedMore(c, i, g);
        FlushOne(w);
        i := i + 1;
        Sized();
        slots.EmptyMeans(Cache(w));
      }
      assert i == Min(refill, |c|);
      PutGlobal(w, x);
    }

    method PutGlobal(w: nat, x: nat)
      requires Valid() && w < workers && x in holder && holder[x] == w
      modifies this`holder, this`log, slots, slots.link, slots.head
      ensures Valid() && Local(w) && holder == old(holder) - {x} && log == old(log) + [Gave(w, x)]
      ensures slots.lists == old(slots.lists)[GLOBAL := [x] + old(slots.lists[GLOBAL])]
    {
      slots.Push(GLOBAL, x);
      BookGave(log, holder, w, x);
      holder, log := holder - {x}, log + [Gave(w, x)];
    }

    method FlushOne(w: nat)
      requires Valid() && w < workers && slots.lists[Cache(w)] != []
      modifies slots, slots.link, slots.head, count
      ensures Valid() && Local(w) && slots.lists[Private(w)] == old(slots.lists[Private(w)])
      ensures slots.lists[Cache(w)] == old(slots.lists[Cache(w)])[1..]
      ensures slots.lists[GLOBAL] == [old(slots.lists[Cache(w)])[0]] + old(slots.lists[GLOBAL])
    {
      var x := slots.Pop(Cache(w));
      count[w] := count[w] - 1;
      slots.Push(GLOBAL, x);
    }

    // ---------- The operations, with the other workers in between ----------

    /** Any number of blocks of workers other than `w`. They leave `w`'s cache, `w`'s local list
        and what `w` has alone. */
    method Others(w: nat)
      requires Valid() && w < workers
      modifies this`arenaNext, this`holder, this`log, slots, slots.link, slots.head, count
      ensures Valid() && old(arenaNext) <= arenaNext && Keeps(old(holder), holder, w) && GrewAround(old(log), log, w)
      ensures slots.lists[Cache(w)] == old(slots.lists[Cache(w)])
      ensures slots.lists[Private(w)] == old(slots.lists[Private(w)])
    {
      hide Counted, Initialised, Booked;
      var steps: nat := *;
      Sized();
      while steps > 0
        invariant Valid() && old(arenaNext) <= arenaNext && |slots.lists| == 1 + 2 * workers
        invariant Keeps(old(holder), holder, w) && GrewAround(old(log), log, w)
        invariant slots.lists[Cache(w)] == old(slots.lists[Cache(w)])
        invariant slots.lists[Private(w)] == old(slots.lists[Private(w)])
      {
        var v: nat := *;
        if 0 <= v < workers && v != w {
          ghost var l, h := log, holder;
          Sized();
          AnyBlock(v, w);
          Sized();
          GrewTwice(old(log), l, log, w);
        }
        steps := steps - 1;
      }
    }

    /** Some block of worker `v`; a slot that it gives back or passes on is one that it has. */
    method AnyBlock(v: nat, ghost w: nat)
      requires Valid() && v < workers && w < workers && v != w
      modifies this`arenaNext, this`holder, this`log, slots, slots.link, slots.head, count
      ensures Valid() && Local(v) && Keeps(old(holder), holder, w) && GrewAround(old(log), log, w)
    {
      hide Counted, Initialised, Booked;
      Sized();
      var op: nat, x: nat, to: nat := *, *, *;
      slots.EmptyMeans(Cache(v));
      slots.EmptyMeans(Private(v));
      if !slots.IsEmpty(Private(v)) {
        if op == 0 { var y := Keep(v); } else { Spread(v); }
      } else if op == 0 && !slots.IsEmpty(Cache(v)) {
        var y := TakeCached(v);
      } else if op == 1 && count[v] == 0 {
        RefillThreads(v);
      } else if op == 2 && count[v] == 0 {
        RefillStacks(v);
      } else if x in holder && holder[x] == v {
        if op == 3 {
          if 0 <= to < workers { PassOn(v, to, x); }
        } else if count[v] < cacheMax {
          PutCached(v, x);
        } else {
          Flush(v, x);
        }
      }
    }

    /** A thread that has the slot goes on on another worker. */
    method PassOn(w: nat, to: nat, x: nat)
      requires Valid() && to < workers && x in holder && holder[x] == w
      modifies this`holder, this`log
      ensures Valid() && holder == old(holder)[x := to] && log == old(log) + [Passed(w, to, x)]
    {
      BookPassed(log, holder, w, to, x);
      holder, log := holder[x := to], log + [Passed(w, to, x)];
    }

    /** thread_alloc (`threads`) and stack_alloc: whatever the other workers do meanwhile, the
        result is a slot that nobody had when it was handed out, or NIL. It is NIL only if the
        worker's cache was empty and, when the lock was released, the global list and the arena
        were too. */
    method Alloc(w: nat, threads: bool) returns (x: int)
      requires Valid() && w < workers && slots.lists[Private(w)] == []
      modifies this`arenaNext, this`holder, this`log, slots, slots.link, slots.head, count
      ensures Valid() && slots.lists[Private(w)] == [] && Keeps(old(holder), holder, w)
      ensures x == NIL || (0 <= x < slots.link.Length && x in holder && holder[x] == w)
      ensures x == NIL ==> GrewAround(old(log), log, w)
      ensures x != NIL ==> log != [] && log[|log| - 1] == Took(w, x) && GrewAround(old(log), log[..|log| - 1], w)
      ensures x == NIL ==> old(slots.lists[Cache(w)]) == [] == slots.lists[Cache(w)]
      ensures x == NIL ==> slots.lists[GLOBAL] == [] && arenaNext == slots.link.Length
      ensures x != NIL && old(slots.lists[Cache(w)]) == [] ==> |slots.lists[Cache(w)]| < refill
      ensures old(slots.lists[Cache(w)]) != [] ==>
                && x == old(slots.lists[Cache(w)])[0] && x !in old(holder) && holder == old(holder)[x := w]
                && log == old(log) + [Took(w, x)]
                && slots.lists == old(slots.lists)[Cache(w) := old(slots.lists[Cache(w)])[1..]]
    {
      hide Counted, Initialised, Flipped, Supply, Booked;
      Sized();
      slots.EmptyMeans(Cache(w));
      if !slots.IsEmpty(Cache(w)) {
        x := TakeCached(w);
        assert log[..|log| - 1] == old(log);
        return;
      }
      x := AllocSlow(w, threads);
    }

    /** The rest of an alloc whose cache is empty. */
    method AllocSlow(w: nat, threads: bool) returns (x: int)
      requires Valid() && w < workers && slots.lists[Private(w)] == [] && slots.lists[Cache(w)] == []
      modifies this`arenaNext, this`holder, this`log, slots, slots.link, slots.head, count
      ensures Valid() && slots.lists[Private(w)] == [] && Keeps(old(holder), holder, w)
      ensures x == NIL || (0 <= x < slots.link.Length && x in holder && holder[x] == w)
      ensures x == NIL ==> GrewAround(old(log), log, w)
      ensures x != NIL ==> log != [] && log[|log| - 1] == Took(w, x) && GrewAround(old(log), log[..|log| - 1], w)
      ensures x == NIL ==> slots.lists[Cache(w)] == []
      ensures x == NIL ==> slots.lists[GLOBAL] == [] && arenaNext == slots.link.Length
      ensures x != NIL ==> |slots.lists[Cache(w)]| < refill
    {
      hide Counted, Initialised, Booked;
      var got := Fetch(w, threads);
      if !got { return NIL; }
      ghost var l := log;
      x := HandOut(w);
      GrewTwice(old(log), l, log[..|log| - 1], w);
    }

    /** The locked part of an alloc, and whether it found anything. */
    method Fetch(w: nat, threads: bool) returns (got: bool)
      requires Valid() && w < workers && slots.lists[Private(w)] == [] && slots.lists[Cache(w)] == []
      modifies this`arenaNext, this`holder, this`log, slots, slots.link, slots.head, count
      ensures Valid() && Keeps(old(holder), holder, w) && GrewAround(old(log), log, w)
      ensures |slots.lists| == 1 + 2 * workers && slots.lists[Cache(w)] == [] && |slots.lists[Private(w)]| <= refill
      ensures got <==> slots.lists[Private(w)] != []
      ensures !got ==> slots.lists[GLOBAL] == [] && arenaNext == slots.link.Length
    {
      hide Counted, Initialised, Booked, Flipped, Supply;
      Others(w);
      Sized();
      CountKnown(w);
      if threads { RefillThreads(w); } else { RefillStacks(w); }
      Sized();
      slots.EmptyMeans(Private(w));
      got := !slots.IsEmpty(Private(w));
    }

    /** The first slot of the local list goes to the caller, the rest to the cache. */
    method HandOut(w: nat) returns (x: nat)
      requires Valid() && w < workers && |slots.lists| == 1 + 2 * workers
      requires slots.lists[Cache(w)] == [] && 0 < |slots.lists[Private(w)]| <= refill
      modifies this`arenaNext, this`holder, this`log, slots, slots.link, slots.head, count
      ensures Valid() && slots.lists[Private(w)] == [] && Keeps(old(holder), holder, w)
      ensures x < slots.link.Length && x in holder && holder[x] == w && |slots.lists[Cache(w)]| < refill
      ensures log != [] && log[|log| - 1] == Took(w, x) && GrewAround(old(log), log[..|log| - 1], w)
    {
      hide Counted, Initialised, Booked;
      Others(w);
      Sized();
      ghost var l := log;
      x := Keep(w);
      Sized();
      assert log[..|log| - 1] == l;
      Spread(w);
    }

    /** thread_release and stack_release: the slot goes to the head of the worker's cache, or, if
        that is full, to the head of the global list on top of a batch of the cache. */
    method Release(w: nat, x: nat)
      requires Valid() && w < workers && slots.lists[Private(w)] == [] && x in holder && holder[x] == w
      modifies this`arenaNext, this`holder, this`log, slots, slots.link, slots.head, count
      ensures Valid() && slots.lists[Private(w)] == [] && Keeps(old(holder) - {x}, holder, w) && x !in holder
      ensures log != [] && log[|log| - 1] == Gave(w, x) && GrewAround(old(log), log[..|log| - 1], w)
      ensures 0 <= count[w] <= cacheMax
      ensures old(count[w]) < cacheMax ==>
                && slots.lists == old(slots.lists)[Cache(w) := [x] + old(slots.lists[Cache(w)])]
                && holder == old(holder) - {x} && log == old(log) + [Gave(w, x)] && arenaNext == old(arenaNext)
      ensures old(count[w]) >= cacheMax ==>
                && slots.lists[Cache(w)] == old(slots.lists[Cache(w)])[refill..]
                && |slots.lists[GLOBAL]| > refill
                && slots.lists[GLOBAL][..refill + 1] == [x] + Flipped(old(slots.lists[Cache(w)])[..refill])
    {
      hide Counted, Initialised, Flipped, Supply, Booked;
      Sized();
      CountKnown(w);
      if count[w] < cacheMax {
        PutCached(w, x);
        CountKnown(w);
        assert log[..|log| - 1] == old(log);
        return;
      }
      Others(w);
      ghost var l := log;
      Flush(w, x);
      assert log[..|log| - 1] == l;
      CountKnown(w);
    }

    lemma CountKnown(w: nat)
      requires Valid() && w < workers
      ensures |slots.lists| == 1 + 2 * workers && count[w] == |slots.lists[Cache(w)]| <= cacheMax
    {
      assert count[..][w] == |slots.lists[Cache(w)]|;
    }
  }
}
