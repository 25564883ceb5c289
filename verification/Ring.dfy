/** The circular list of ready threads (src/scheduler.h) and the wait queues that reuse its
    `sched_next` link (src/thread_sync.c:52-69). Links are indices into the thread slab. */
module Ring {
  import opened Basics

  /** Where a thread's `sched_next` link is in use: the ring, wait queue `q`, or nowhere. */
  datatype Home = InRing | InQueue(q: nat) | Off

  // ---------- Shapes ----------

  function After(i: nat, n: nat): nat { if i + 1 == n then 0 else i + 1 }
  function Before(i: nat, n: nat): int { if i == 0 then n - 1 else i - 1 }

  /** `ring` is linked into one doubly linked cycle, in this order. */
  ghost predicate Circular(next: seq<int>, prev: seq<int>, ring: seq<nat>) {
    && |next| == |prev| && Distinct(ring)
    && (forall i :: 0 <= i < |ring| ==> ring[i] < |next|)
    && (forall i {:trigger next[ring[i]]} :: 0 <= i < |ring| ==> next[ring[i]] == ring[After(i, |ring|)])
    && (forall i {:trigger prev[ring[i]]} :: 0 <= i < |ring| ==> prev[ring[i]] == ring[Before(i, |ring|)])
  }

  /** `q` is a NULL-terminated list from `head` to `tail`. */
  ghost predicate Chain(next: seq<int>, head: int, tail: int, q: seq<nat>) {
    && Distinct(q)
    && (forall i :: 0 <= i < |q| ==> q[i] < |next|)
    && (if q == [] then head == NIL && tail == NIL else head == q[0] && tail == q[|q| - 1])
    && (forall i {:trigger next[q[i]]} :: 0 <= i < |q| ==> next[q[i]] == if i + 1 < |q| then q[i + 1] else NIL)
  }

  ghost predicate MembersHome(home: seq<Home>, s: seq<nat>, h: Home) {
    forall t: nat {:trigger t in s} :: t in s ==> t < |home| && home[t] == h
  }

  /** Nobody is in two lists: every list member has that list as its home, and conversely. */
  ghost predicate Housed(home: seq<Home>, ring: seq<nat>, queues: seq<seq<nat>>) {
    && MembersHome(home, ring, InRing)
    && (forall q :: 0 <= q < |queues| ==> MembersHome(home, queues[q], InQueue(q)))
    && (forall t: nat {:trigger home[t]} :: t < |home| && home[t] == InRing ==> t in ring)
    && (forall t: nat {:trigger home[t]} :: t < |home| && home[t].InQueue? ==>
         home[t].q < |queues| && t in queues[home[t].q])
  }

  // ---------- What the link updates do ----------

  lemma EnqueueLinks(next: seq<int>, prev: seq<int>, ring: seq<nat>, t: nat)
    requires Circular(next, prev, ring) && |ring| > 0 && t < |next| && t !in ring
    ensures var p, c := ring[|ring| - 1], ring[0];
            Circular(next[t := c][p := t], prev[t := p][c := t], ring + [t])
  {
    var p, c, r := ring[|ring| - 1], ring[0], ring + [t];
    var next', prev' := next[t := c][p := t], prev[t := p][c := t];
    forall i | 0 <= i < |r| ensures next'[r[i]] == r[After(i, |r|)] && prev'[r[i]] == r[Before(i, |r|)] {}
  }

  function Without(s: seq<nat>, k: nat): seq<nat>
    requires k < |s|
  {
    s[..k] + s[k + 1..]
  }

  /** The index in the full list of entry `i` of the list without entry `k`. */
  function Skip(i: nat, k: nat): nat { if i < k then i else i + 1 }

  lemma WithoutAt(s: seq<nat>, k: nat, i: nat)
    requires k < |s| && i < |s| - 1
    ensures Without(s, k)[i] == s[Skip(i, k)]
  {}

  lemma WithoutFirst(s: seq<nat>, k: nat)
    requires 0 < k < |s|
    ensures Without(s, k) != [] && Without(s, k)[0] == s[0]
  {
  }

  lemma WithoutDistinct(s: seq<nat>, k: nat)
    requires Distinct(s) && k < |s|
    ensures Distinct(Without(s, k)) && s[k] !in Without(s, k)
    ensures forall t :: t in Without(s, k) <==> t in s && t != s[k]
  {
    var r := Without(s, k);
    assert s == s[..k] + [s[k]] + s[k + 1..];
  }

  lemma RemoveNext(next: seq<int>, prev: seq<int>, ring: seq<nat>, k: nat, i: nat)
    requires Circular(next, prev, ring) && |ring| > 1 && k < |ring| && i < |ring| - 1
    ensures next[ring[Before(k, |ring|)] := ring[After(k, |ring|)]][ring[Skip(i, k)]] ==
            ring[Skip(After(i, |ring| - 1), k)]
    ensures prev[ring[After(k, |ring|)] := ring[Before(k, |ring|)]][ring[Skip(i, k)]] ==
            ring[Skip(Before(i, |ring| - 1), k)]
  {}

  /** One entry of the shorter list: its links after the two writes lead to its new neighbours. */
  lemma RemovedAt(next: seq<int>, prev: seq<int>, ring: seq<nat>, k: nat, i: nat)
    requires Circular(next, prev, ring) && |ring| > 1 && k < |ring| && i < |ring| - 1
    ensures var a, b := ring[Before(k, |ring|)], ring[After(k, |ring|)];
            var r := Without(ring, k);
            && r[i] < |next|
            && next[a := b][r[i]] == r[After(i, |r|)]
            && prev[b := a][r[i]] == r[Before(i, |r|)]
  {
    assert |Without(ring, k)| == |ring| - 1;
    hide Without;
    WithoutAt(ring, k, i);
    WithoutAt(ring, k, After(i, |ring| - 1));
    WithoutAt(ring, k, Before(i, |ring| - 1));
    RemoveNext(next, prev, ring, k, i);
  }

  lemma RemoveLinks(next: seq<int>, prev: seq<int>, ring: seq<nat>, k: nat)
    requires Circular(next, prev, ring) && |ring| > 1 && k < |ring|
    ensures var a, b := ring[Before(k, |ring|)], ring[After(k, |ring|)];
            Circular(next[a := b], prev[b := a], Without(ring, k))
  {
    WithoutDistinct(ring, k);
    var a, b, r := ring[Before(k, |ring|)], ring[After(k, |ring|)], Without(ring, k);
    var next', prev' := next[a := b], prev[b := a];
    assert |r| == |ring| - 1;
    hide Without;
    forall i | 0 <= i < |r|
      ensures r[i] < |next'|
      ensures next'[r[i]] == r[After(i, |r|)]
      ensures prev'[r[i]] == r[Before(i, |r|)]
    {
      RemovedAt(next, prev, ring, k, i);
    }
  }

  /** sched_replace on the links: a lone thread is made to point to the new one, and the new one
      to itself. */
  ghost function ReplacedNext(next: seq<int>, prev: seq<int>, old_: nat, new_: nat): seq<int>
    requires |next| == |prev| && old_ < |next| && new_ < |next| && 0 <= prev[old_] < |next|
  {
    if next[old_] == old_ then next[new_ := new_] else next[new_ := next[old_]][prev[old_] := new_]
  }

  ghost function ReplacedPrev(next: seq<int>, prev: seq<int>, old_: nat, new_: nat): seq<int>
    requires |next| == |prev| && old_ < |next| && new_ < |next| && 0 <= next[old_] < |next|
  {
    if next[old_] == old_ then prev[new_ := new_] else prev[new_ := prev[old_]][next[old_] := new_]
  }

  lemma ReplaceLinks(next: seq<int>, prev: seq<int>, ring: seq<nat>, k: nat, t: nat)
    requires Circular(next, prev, ring) && k < |ring| && t < |next| && t !in ring
    ensures 0 <= next[ring[k]] < |next| && 0 <= prev[ring[k]] < |next|
    ensures Circular(ReplacedNext(next, prev, ring[k], t), ReplacedPrev(next, prev, ring[k], t), ring[k := t])
  {
    var o, n := ring[k], |ring|;
    assert next[o] == ring[After(k, n)] && prev[o] == ring[Before(k, n)];
    assert next[o] == o <==> n == 1;
    var next', prev', r := ReplacedNext(next, prev, o, t), ReplacedPrev(next, prev, o, t), ring[k := t];
    forall i | 0 <= i < n ensures next'[r[i]] == r[After(i, n)] && prev'[r[i]] == r[Before(i, n)] {}
  }

  lemma AppendLinks(next: seq<int>, head: int, tail: int, q: seq<nat>, t: nat)
    requires Chain(next, head, tail, q) && t < |next| && t !in q
    ensures var n := if tail == NIL then next[t := NIL] else next[t := NIL][tail := t];
            Chain(n, if tail == NIL then t else head, t, q + [t])
  {}

  lemma PopLinks(next: seq<int>, head: int, tail: int, q: seq<nat>)
    requires Chain(next, head, tail, q) && q != []
    ensures Chain(next, next[q[0]], if next[q[0]] == NIL then NIL else tail, q[1..])
  {
    assert next[q[0]] == if 1 < |q| then q[1] else NIL;
    forall i | 0 <= i < |q| - 1 ensures next[q[1..][i]] == if i + 1 < |q| - 1 then q[1..][i + 1] else NIL {
      assert next[q[i + 1]] == if i + 2 < |q| then q[i + 2] else NIL;
    }
  }

  /** Lists away from the changed links keep their shape. */
  lemma ChainFrame(next: seq<int>, next': seq<int>, head: int, tail: int, q: seq<nat>)
    requires Chain(next, head, tail, q) && |next'| == |next| && forall t :: t in q ==> next'[t] == next[t]
    ensures Chain(next', head, tail, q)
  {}

  lemma CircularFrame(next: seq<int>, prev: seq<int>, next': seq<int>, ring: seq<nat>)
    requires Circular(next, prev, ring) && |next'| == |next| && forall t :: t in ring ==> next'[t] == next[t]
    ensures Circular(next', prev, ring)
  {}

  /** Read from any member, the cycle is the same cycle. */
  function Rotate(ring: seq<nat>, k: nat): (r: seq<nat>)
    requires k <= |ring|
    ensures |r| == |ring|
  {
    ring[k..] + ring[..k]
  }

  function Turn(i: nat, k: nat, n: nat): nat { if i + k < n then i + k else i + k - n }

  lemma RotateAt(ring: seq<nat>, k: nat, i: nat)
    requires k < |ring| && i < |ring|
    ensures Rotate(ring, k)[i] == ring[Turn(i, k, |ring|)]
  {}

  lemma RotateSame(ring: seq<nat>, k: nat)
    requires k <= |ring|
    ensures forall t :: t in Rotate(ring, k) <==> t in ring
    ensures Distinct(ring) ==> Distinct(Rotate(ring, k))
  {
    assert ring == ring[..k] + ring[k..];
  }

  lemma RotateLinks(next: seq<int>, prev: seq<int>, ring: seq<nat>, k: nat)
    requires Circular(next, prev, ring) && k < |ring|
    ensures Circular(next, prev, Rotate(ring, k))
  {
    var r, n := Rotate(ring, k), |ring|;
    RotateSame(ring, k);
    forall i | 0 <= i < n ensures r[i] < |next| && next[r[i]] == r[After(i, n)] && prev[r[i]] == r[Before(i, n)] {
      RotateAt(ring, k, i);
      RotateAt(ring, k, After(i, n));
      RotateAt(ring, k, Before(i, n));
      TurnStep(next, prev, ring, k, i);
    }
  }

  lemma TurnStep(next: seq<int>, prev: seq<int>, ring: seq<nat>, k: nat, i: nat)
    requires Circular(next, prev, ring) && k < |ring| && i < |ring|
    ensures next[ring[Turn(i, k, |ring|)]] == ring[Turn(After(i, |ring|), k, |ring|)]
    ensures prev[ring[Turn(i, k, |ring|)]] == ring[Turn(Before(i, |ring|), k, |ring|)]
  {}

  // ---------- The whole link structure ----------

  /** The ring and all wait queues, threaded through the same `next` links. */
  datatype Lists = Lists(ring: seq<nat>, queues: seq<seq<nat>>, home: seq<Home>)

  ghost predicate Chains(next: seq<int>, head: seq<int>, tail: seq<int>, queues: seq<seq<nat>>) {
    && |head| == |tail| == |queues|
    && forall q :: 0 <= q < |queues| ==> Chain(next, head[q], tail[q], queues[q])
  }

  ghost predicate Linked(next: seq<int>, prev: seq<int>, head: seq<int>, tail: seq<int>, l: Lists) {
    && |l.home| == |next|
    && Circular(next, prev, l.ring)
    && Chains(next, head, tail, l.queues)
    && Housed(l.home, l.ring, l.queues)
  }

  lemma ChainsFrame(next: seq<int>, next': seq<int>, head: seq<int>, tail: seq<int>, queues: seq<seq<nat>>,
                    home: seq<Home>, ring: seq<nat>)
    requires Chains(next, head, tail, queues) && Housed(home, ring, queues) && |home| == |next| == |next'|
    requires forall t :: 0 <= t < |home| && home[t].InQueue? ==> next'[t] == next[t]
    ensures Chains(next', head, tail, queues)
  {
    forall q | 0 <= q < |queues| ensures Chain(next', head[q], tail[q], queues[q]) {
      assert MembersHome(home, queues[q], InQueue(q));
      ChainFrame(next, next', head[q], tail[q], queues[q]);
    }
  }

  lemma EnqueueKeeps(next: seq<int>, prev: seq<int>, head: seq<int>, tail: seq<int>, l: Lists, t: nat)
    requires Linked(next, prev, head, tail, l) && l.ring != [] && t < |next| && l.home[t] == Off
    ensures var p, c := l.ring[|l.ring| - 1], l.ring[0];
            Linked(next[t := c][p := t], prev[t := p][c := t], head, tail,
                   l.(ring := l.ring + [t], home := l.home[t := InRing]))
  {
    var p, c := l.ring[|l.ring| - 1], l.ring[0];
    EnqueueLinks(next, prev, l.ring, t);
    assert p in l.ring && c in l.ring;
    ChainsFrame(next, next[t := c][p := t], head, tail, l.queues, l.home, l.ring);
  }

  lemma RemoveKeeps(next: seq<int>, prev: seq<int>, head: seq<int>, tail: seq<int>, l: Lists, k: nat)
    requires Linked(next, prev, head, tail, l) && k < |l.ring| && |l.ring| > 1
    ensures var n := |l.ring|; var a, b := l.ring[Before(k, n)], l.ring[After(k, n)];
            Linked(next[a := b], prev[b := a], head, tail,
                   l.(ring := Without(l.ring, k), home := l.home[l.ring[k] := Off]))
  {
    var n := |l.ring|;
    var a, b := l.ring[Before(k, n)], l.ring[After(k, n)];
    RemoveLinks(next, prev, l.ring, k);
    WithoutDistinct(l.ring, k);
    assert a in l.ring && l.ring[k] in l.ring;
    ChainsFrame(next, next[a := b], head, tail, l.queues, l.home, l.ring);
  }

  lemma ReplaceKeeps(next: seq<int>, prev: seq<int>, head: seq<int>, tail: seq<int>, l: Lists, k: nat, t: nat)
    requires Linked(next, prev, head, tail, l) && k < |l.ring| && t < |next| && l.home[t] == Off
    ensures 0 <= next[l.ring[k]] < |next| && 0 <= prev[l.ring[k]] < |next|
    ensures Linked(ReplacedNext(next, prev, l.ring[k], t), ReplacedPrev(next, prev, l.ring[k], t), head, tail,
                   l.(ring := l.ring[k := t], home := l.home[t := InRing][l.ring[k] := Off]))
  {
    var n := |l.ring|;
    ReplaceLinks(next, prev, l.ring, k, t);
    var o, next' := l.ring[k], ReplacedNext(next, prev, l.ring[k], t);
    assert o in l.ring && l.ring[Before(k, n)] in l.ring && prev[o] == l.ring[Before(k, n)];
    ChainsFrame(next, next', head, tail, l.queues, l.home, l.ring);
    ReplaceHoused(l, k, t);
  }

  lemma ReplaceHoused(l: Lists, k: nat, t: nat)
    requires Housed(l.home, l.ring, l.queues) && Distinct(l.ring) && k < |l.ring| && t < |l.home| && l.home[t] == Off
    requires l.ring[k] < |l.home|
    ensures Housed(l.home[t := InRing][l.ring[k] := Off], l.ring[k := t], l.queues)
  {
    var r, o, home' := l.ring[k := t], l.ring[k], l.home[t := InRing][l.ring[k] := Off];
    assert o in l.ring && r[k] == t;
    forall x: nat | x in r ensures x < |home'| && home'[x] == InRing {
      var i :| 0 <= i < |r| && r[i] == x;
      if i != k { assert l.ring[i] in l.ring; }
    }
    forall q | 0 <= q < |l.queues| ensures MembersHome(home', l.queues[q], InQueue(q)) {
      assert MembersHome(l.home, l.queues[q], InQueue(q));
    }
    forall x: nat | x < |home'| && home'[x] == InRing ensures x in r {
      if x != t {
        assert x in l.ring;
        var i :| 0 <= i < |l.ring| && l.ring[i] == x;
        assert r[i] == x;
      }
    }
  }

  lemma AppendKeeps(next: seq<int>, prev: seq<int>, head: seq<int>, tail: seq<int>, l: Lists, q: nat, t: nat)
    requires Linked(next, prev, head, tail, l) && q < |l.queues| && t < |next| && l.home[t] == Off
    ensures tail[q] == NIL || 0 <= tail[q] < |next|
    ensures Linked(if tail[q] == NIL then next[t := NIL] else next[t := NIL][tail[q] := t], prev,
                   if tail[q] == NIL then head[q := t] else head, tail[q := t],
                   l.(queues := l.queues[q := l.queues[q] + [t]], home := l.home[t := InQueue(q)]))
  {
    assert Chain(next, head[q], tail[q], l.queues[q]);
    AppendLinks(next, head[q], tail[q], l.queues[q], t);
    var next' := if tail[q] == NIL then next[t := NIL] else next[t := NIL][tail[q] := t];
    if tail[q] != NIL { assert tail[q] in l.queues[q]; }
    CircularFrame(next, prev, next', l.ring);
    var head', queues' := if tail[q] == NIL then head[q := t] else head, l.queues[q := l.queues[q] + [t]];
    forall p | 0 <= p < |queues'| ensures Chain(next', head'[p], tail[q := t][p], queues'[p]) {
      if p != q {
        assert MembersHome(l.home, l.queues[p], InQueue(p));
        ChainFrame(next, next', head[p], tail[p], l.queues[p]);
      }
    }
    AppendHoused(l, q, t);
  }

  lemma AppendHoused(l: Lists, q: nat, t: nat)
    requires Housed(l.home, l.ring, l.queues) && q < |l.queues| && t < |l.home| && l.home[t] == Off
    ensures Housed(l.home[t := InQueue(q)], l.ring, l.queues[q := l.queues[q] + [t]])
  {
    var queues', home' := l.queues[q := l.queues[q] + [t]], l.home[t := InQueue(q)];
    forall p | 0 <= p < |queues'| ensures MembersHome(home', queues'[p], InQueue(p)) {
      assert MembersHome(l.home, l.queues[p], InQueue(p));
    }
  }

  lemma PopKeeps(next: seq<int>, prev: seq<int>, head: seq<int>, tail: seq<int>, l: Lists, q: nat)
    requires Linked(next, prev, head, tail, l) && q < |l.queues| && l.queues[q] != []
    ensures var t := l.queues[q][0];
            && t < |next| && head[q] == t
            && Linked(next, prev, head[q := next[t]], if next[t] == NIL then tail[q := NIL] else tail,
                      l.(queues := l.queues[q := l.queues[q][1..]], home := l.home[t := Off]))
  {
    assert Chain(next, head[q], tail[q], l.queues[q]);
    PopLinks(next, head[q], tail[q], l.queues[q]);
    var t := l.queues[q][0];
    assert l.queues[q] == [t] + l.queues[q][1..];
    assert t in l.queues[q];
    var queues', head' := l.queues[q := l.queues[q][1..]], head[q := next[t]];
    var tail' := if next[t] == NIL then tail[q := NIL] else tail;
    forall p | 0 <= p < |queues'| ensures Chain(next, head'[p], tail'[p], queues'[p]) {
      assert Chain(next, head[p], tail[p], l.queues[p]);
    }
    PopHoused(l, q);
  }

  lemma PopHoused(l: Lists, q: nat)
    requires Housed(l.home, l.ring, l.queues) && q < |l.queues| && l.queues[q] != [] && Distinct(l.queues[q])
    requires l.queues[q][0] < |l.home|
    ensures Housed(l.home[l.queues[q][0] := Off], l.ring, l.queues[q := l.queues[q][1..]])
  {
    var t, rest := l.queues[q][0], l.queues[q][1..];
    assert l.queues[q] == [t] + rest && t in l.queues[q];
    var queues', home' := l.queues[q := rest], l.home[t := Off];
    assert MembersHome(l.home, l.queues[q], InQueue(q));
    forall p | 0 <= p < |queues'| ensures MembersHome(home', queues'[p], InQueue(p)) {
      assert MembersHome(l.home, l.queues[p], InQueue(p));
      if p == q { assert t !in rest && forall x :: x in rest ==> x in l.queues[q]; }
    }
  }

  lemma RotateKeeps(next: seq<int>, prev: seq<int>, head: seq<int>, tail: seq<int>, l: Lists, k: nat)
    requires Linked(next, prev, head, tail, l) && k < |l.ring|
    ensures Linked(next, prev, head, tail, l.(ring := Rotate(l.ring, k)))
  {
    RotateLinks(next, prev, l.ring, k);
    RotateSame(l.ring, k);
  }

  /** The ring after `current` has left it to the member behind it. */
  function Left(ring: seq<nat>): seq<nat>
    requires |ring| > 1
  {
    Rotate(ring[1..], |ring| - 2)
  }

  /** `current` leaves the ring for queue `q`, or for no list. */
  function Departed(l: Lists, q: int): Lists {
    if |l.ring| < 2 || l.ring[0] >= |l.home| then l
    else if 0 <= q < |l.queues| then
      l.(ring := Left(l.ring), home := l.home[l.ring[0] := InQueue(q)],
         queues := l.queues[q := l.queues[q] + [l.ring[0]]])
    else l.(ring := Left(l.ring), home := l.home[l.ring[0] := Off])
  }

  /** The head taken out and the list read from its last member. */
  lemma DepartsAs(l: Lists)
    requires |l.ring| > 1
    ensures var r, n := Without(l.ring, 0), |l.ring|;
            |r| == n - 1 && r[n - 2] == l.ring[n - 1] && Rotate(r, n - 2) == Left(l.ring)
  {
    assert Without(l.ring, 0) == l.ring[1..];
  }

  // ---------- The links in memory ----------

  /** The `sched_next`, `sched_prev` and `priority` fields of the thread slab, the heads and tails
      of all mutex and semaphore queues, and `current`. */
  class Links {
    const next: array<int>
    const prev: array<int>
    const priority: array<int>
    const head: array<int>
    const tail: array<int>
    var current: nat
    ghost var lists: Lists

    ghost predicate Valid()
      reads this, next, prev, head, tail
    {
      && next != prev && next != priority && next != head && next != tail
      && prev != priority && prev != head && prev != tail
      && priority != head && priority != tail && head != tail
      && next.Length == prev.Length == priority.Length == |lists.home|
      && head.Length == tail.Length == |lists.queues|
      && Linked(next[..], prev[..], head[..], tail[..], lists)
    }

    /** `current` is in the ring; the ring is read from there. */
    ghost predicate Running()
      reads this, next, prev, head, tail
    {
      Valid() && lists.ring != [] && lists.ring[0] == current
    }

    /** The first thread, alone in the ring, and empty wait queues. */
    constructor (threads: nat, nqueues: nat)
      requires threads > 0
      ensures Running() && lists.ring == [0] && next.Length == threads && |lists.queues| == nqueues
      ensures forall q :: 0 <= q < nqueues ==> lists.queues[q] == []
      ensures |lists.home| == threads && lists.home[0] == InRing && forall t :: 0 < t < threads ==> lists.home[t] == Off
      ensures fresh(next) && fresh(prev) && fresh(priority) && fresh(head) && fresh(tail)
    {
      next := new int[threads](_ => 0);
      prev := new int[threads](_ => 0);
      priority := new int[threads](_ => 3);
      head := new int[nqueues](_ => NIL);
      tail := new int[nqueues](_ => NIL);
      current := 0;
      lists := Lists([0], seq(nqueues, _ => []), seq(threads, t => if t == 0 then InRing else Off));
    }

    /** sched_enqueue: `t` is inserted before `current`, so it comes up last. */
    method SchedEnqueue(t: nat)
      requires Running() && t < next.Length && lists.home[t] == Off
      modifies next, prev, this`lists
      ensures Running()
      ensures lists == old(lists).(ring := old(lists).ring + [t], home := old(lists).home[t := InRing])
    {
      hide Linked;
      ghost var n, p, l := next[..], prev[..], lists;
      EnqueueKeeps(n, p, head[..], tail[..], l, t);
      EndsOfRing(n, p, head[..], tail[..], l);
      var last := prev[current];
      next[t] := current;
      prev[t] := last;
      next[last] := t;
      prev[current] := t;
      assert next[..] == n[t := l.ring[0]][last := t];
      assert prev[..] == p[t := last][l.ring[0] := t];
      lists := l.(ring := l.ring + [t], home := l.home[t := InRing]);
    }

    lemma MemberKnown(k: nat)
      requires Valid() && k < |lists.ring|
      ensures next.Length == prev.Length == |lists.home|
      ensures var t := lists.ring[k]; t < next.Length && lists.home[t] == InRing
      ensures next[lists.ring[k]] == lists.ring[After(k, |lists.ring|)]
      ensures prev[lists.ring[k]] == lists.ring[Before(k, |lists.ring|)]
      ensures k > 0 ==> lists.ring[k] != lists.ring[0]
    {
      Neighbours(next[..], prev[..], head[..], tail[..], lists, k);
    }

    /** Where a thread of the ring is in it; not part of the code. */
    ghost method IndexOf(t: nat) returns (k: nat)
      requires Valid() && t < next.Length && lists.home[t] == InRing
      ensures k < |lists.ring| && lists.ring[k] == t
    {
      assert t in lists.ring;
      k :| k < |lists.ring| && lists.ring[k] == t;
    }

    lemma FirstKnown(q: nat)
      requires Valid() && q < |lists.queues| && lists.queues[q] != []
      ensures var t := lists.queues[q][0]; t < |lists.home| && lists.home[t] == InQueue(q)
    {
      assert MembersHome(lists.home, lists.queues[q], InQueue(q));
      assert lists.queues[q][0] in lists.queues[q];
    }

    /** A member that is the running thread is the head. */
    lemma OnlyHead(k: nat)
      requires Running() && k < |lists.ring| && lists.ring[k] == current
      ensures k == 0
    {
    }

    lemma MembersKnown()
      requires Valid()
      ensures priority.Length == next.Length == |lists.home|
      ensures priority != next && priority != prev && priority != head && priority != tail
      ensures forall i :: 0 <= i < |lists.ring| ==> lists.ring[i] < next.Length
    {
    }

    /** is_sched_empty: `current` is alone. */
    method IsSchedEmpty() returns (r: bool)
      requires Running()
      ensures r <==> |lists.ring| == 1
    {
      EndsOfRing(next[..], prev[..], head[..], tail[..], lists);
      r := next[current] == current;
    }

    /** sched_remove: `t` leaves the ring, the others keep their order. */
    method SchedRemove(t: nat, ghost k: nat)
      requires Valid() && k < |lists.ring| && lists.ring[k] == t && |lists.ring| > 1
      modifies next, prev, this`lists
      ensures Valid()
      ensures lists == old(lists).(ring := Without(old(lists).ring, k), home := old(lists).home[t := Off])
    {
      hide Linked;
      ghost var n, p, l := next[..], prev[..], lists;
      RemoveKeeps(n, p, head[..], tail[..], l, k);
      Neighbours(n, p, head[..], tail[..], l, k);
      ghost var a, b := prev[t], next[t];
      next[prev[t]] := next[t];
      prev[next[t]] := prev[t];
      assert next[..] == n[a := b];
      assert prev[..] == p[b := a];
      lists := l.(ring := Without(l.ring, k), home := l.home[t := Off]);
    }

    /** sched_replace: `new_` takes the place of `old_` in the ring. */
    method SchedReplace(old_: nat, new_: nat, ghost k: nat)
      requires Valid() && k < |lists.ring| && lists.ring[k] == old_ && new_ < next.Length && lists.home[new_] == Off
      modifies next, prev, this`lists
      ensures Valid()
      ensures lists == old(lists).(ring := old(lists).ring[k := new_],
                                   home := old(lists).home[new_ := InRing][old_ := Off])
    {
      hide Linked;
      ghost var n, p, l := next[..], prev[..], lists;
      ReplaceKeeps(n, p, head[..], tail[..], l, k, new_);
      Neighbours(n, p, head[..], tail[..], l, k);
      next[new_] := next[old_];
      prev[new_] := prev[old_];
      if next[old_] == old_ {
        next[new_] := new_;
        prev[new_] := new_;
      } else {
        prev[next[new_]] := new_;
        next[prev[new_]] := new_;
      }
      assert next[..] == ReplacedNext(n, p, old_, new_);
      assert prev[..] == ReplacedPrev(n, p, old_, new_);
      lists := l.(ring := l.ring[k := new_], home := l.home[new_ := InRing][old_ := Off]);
    }

    /** `current = t` for a ring member: the same cycle, read from `t`. */
    method SetCurrent(t: nat, ghost k: nat)
      requires Valid() && k < |lists.ring| && lists.ring[k] == t
      modifies this`current, this`lists
      ensures Running() && current == t
      ensures lists == old(lists).(ring := Rotate(old(lists).ring, k))
    {
      hide Linked;
      RotateKeeps(next[..], prev[..], head[..], tail[..], lists, k);
      current := t;
      lists := lists.(ring := Rotate(lists.ring, k));
    }

    /** sched_pick_next without priorities: the neighbour behind `current`, which is the thread
        enqueued last. */
    method PickNext() returns (t: nat)
      requires Running() && |lists.ring| > 1
      ensures t == lists.ring[|lists.ring| - 1]
    {
      EndsOfRing(next[..], prev[..], head[..], tail[..], lists);
      t := prev[current];
    }

    /** sched_pick_highest: the first thread after `current` that no other thread outranks. */
    method PickHighest() returns (best: nat, ghost k: nat)
      requires Running() && |lists.ring| > 1
      ensures 0 < k < |lists.ring| && best == lists.ring[k]
      ensures forall i :: 0 < i < |lists.ring| ==> priority[lists.ring[i]] <= priority[best]
      ensures forall i :: 0 < i < k ==> priority[lists.ring[i]] < priority[best]
    {
      ghost var r, n := lists.ring, |lists.ring|;
      WalkRing(next[..], prev[..], head[..], tail[..], lists);
      best := next[current];
      k := 1;
      var t := next[best];
      ghost var j := 2;
      while t != current
        invariant 0 < k < j <= n && best == r[k] && t == r[if j == n then 0 else j]
        invariant forall i :: 0 < i < j ==> priority[r[i]] <= priority[best]
        invariant forall i :: 0 < i < k ==> priority[r[i]] < priority[best]
        decreases n - j
      {
        if priority[t] > priority[best] { best, k := t, j; }
        t := next[t];
        j := j + 1;
      }
    }

    /** wq_append */
    method WqAppend(q: nat, t: nat)
      requires Valid() && q < |lists.queues| && t < next.Length && lists.home[t] == Off
      modifies next, head, tail, this`lists
      ensures Valid()
      ensures lists == old(lists).(queues := old(lists).queues[q := old(lists).queues[q] + [t]],
                                   home := old(lists).home[t := InQueue(q)])
    {
      hide Linked;
      ghost var n, h, e, l := next[..], head[..], tail[..], lists;
      AppendKeeps(n, prev[..], h, e, l, q, t);
      next[t] := NIL;
      if tail[q] == NIL { head[q] := t; } else { next[tail[q]] := t; }
      tail[q] := t;
      assert next[..] == if e[q] == NIL then n[t := NIL] else n[t := NIL][e[q] := t];
      assert head[..] == if e[q] == NIL then h[q := t] else h;
      assert tail[..] == e[q := t];
      lists := l.(queues := l.queues[q := l.queues[q] + [t]], home := l.home[t := InQueue(q)]);
    }

    /** wq_pop: the thread that has waited longest, or NIL. */
    method WqPop(q: nat) returns (t: int)
      requires Valid() && q < |lists.queues|
      modifies head, tail, this`lists
      ensures Valid()
      ensures old(lists).queues[q] == [] ==> t == NIL && lists == old(lists)
      ensures old(lists).queues[q] != [] ==>
                && t == old(lists).queues[q][0] && 0 <= t < next.Length
                && lists == old(lists).(queues := old(lists).queues[q := old(lists).queues[q][1..]],
                                        home := old(lists).home[t := Off])
    {
      ghost var h, e, l := head[..], tail[..], lists;
      assert Chain(next[..], h[q], e[q], l.queues[q]);
      t := head[q];
      if t != NIL {
        PopQueue(q, t);
      }
    }

    /** Another thread takes the place of `current`, and runs. */
    method TakeOver(t: nat)
      requires Running() && t < next.Length && lists.home[t] == Off
      modifies this`current, this`lists, next, prev
      ensures Running() && current == t
      ensures lists == old(lists).(ring := old(lists).ring[0 := t],
                                   home := old(lists).home[t := InRing][old(current) := Off])
    {
      hide Linked;
      MemberKnown(0);
      SchedReplace(current, t, 0);
      SetCurrent(t, 0);
      assert Rotate(lists.ring, 0) == lists.ring;
    }

    /** The running thread leaves the ring, into queue `q` unless that is NIL, and the member behind
        it becomes `current`: sched_pick_next, sched_remove, wq_append. */
    method Depart(q: int)
      requires Running() && |lists.ring| > 1 && (q == NIL || 0 <= q < |lists.queues|)
      modifies this`current, this`lists, next, prev, head, tail
      ensures Running()
      ensures lists == Departed(old(lists), q)
    {
      hide Linked, Rotate, Without, Left;
      ghost var l, n := lists, |lists.ring|;
      MemberKnown(0);
      MemberKnown(n - 1);
      DepartsAs(l);
      var me := current;
      var t := PickNext();
      SchedRemove(me, 0);
      if q != NIL {
        WqAppend(q, me);
        assert lists.home == l.home[me := InQueue(q)];
      }
      SetCurrent(t, n - 2);
    }

    method PopQueue(q: nat, t: nat)
      requires Valid() && q < |lists.queues| && lists.queues[q] != [] && head[q] == t
      modifies head, tail, this`lists
      ensures Valid() && t < next.Length && t == old(lists).queues[q][0]
      ensures lists == old(lists).(queues := old(lists).queues[q := old(lists).queues[q][1..]],
                                   home := old(lists).home[t := Off])
    {
      hide Linked;
      ghost var h, e, l := head[..], tail[..], lists;
      PopKeeps(next[..], prev[..], h, e, l, q);
      head[q] := next[t];
      if head[q] == NIL { tail[q] := NIL; }
      assert head[..] == h[q := next[t]];
      assert tail[..] == if next[t] == NIL then e[q := NIL] else e;
      lists := l.(queues := l.queues[q := l.queues[q][1..]], home := l.home[t := Off]);
    }
  }

  lemma EndsOfRing(next: seq<int>, prev: seq<int>, head: seq<int>, tail: seq<int>, l: Lists)
    requires Linked(next, prev, head, tail, l) && l.ring != []
    ensures var n, c := |l.ring|, l.ring[0];
            && c < |next| && l.ring[n - 1] < |next| && prev[c] == l.ring[n - 1]
            && next[c] == l.ring[if n == 1 then 0 else 1] && (next[c] == c <==> n == 1)
  {
    assert next[l.ring[0]] == l.ring[After(0, |l.ring|)];
    assert prev[l.ring[0]] == l.ring[Before(0, |l.ring|)];
  }

  lemma Neighbours(next: seq<int>, prev: seq<int>, head: seq<int>, tail: seq<int>, l: Lists, k: nat)
    requires Linked(next, prev, head, tail, l) && k < |l.ring|
    ensures var n, t := |l.ring|, l.ring[k];
            && t < |next| && l.ring[Before(k, n)] < |next| && l.ring[After(k, n)] < |next|
            && prev[t] == l.ring[Before(k, n)] && next[t] == l.ring[After(k, n)]
            && (next[t] == t <==> n == 1) && (n > 1 ==> prev[t] != t)
            && l.home[t] == InRing && l.home[l.ring[Before(k, n)]] == InRing && l.home[l.ring[After(k, n)]] == InRing
  {
    assert l.ring[k] in l.ring && l.ring[Before(k, |l.ring|)] in l.ring && l.ring[After(k, |l.ring|)] in l.ring;
    assert next[l.ring[k]] == l.ring[After(k, |l.ring|)];
    assert prev[l.ring[k]] == l.ring[Before(k, |l.ring|)];
  }

  lemma WalkRing(next: seq<int>, prev: seq<int>, head: seq<int>, tail: seq<int>, l: Lists)
    requires Linked(next, prev, head, tail, l)
    ensures forall i :: 0 <= i < |l.ring| ==> l.ring[i] < |next|
    ensures forall i {:trigger next[l.ring[i]]} :: 0 <= i < |l.ring| ==> next[l.ring[i]] == l.ring[After(i, |l.ring|)]
    ensures forall i :: 0 < i < |l.ring| ==> l.ring[i] != l.ring[0]
  {}
}
