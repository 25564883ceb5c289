/** Intrusive last-in-first-out free lists: any number of lists threaded through one link field
    per slot (src/thread.c:184-222, src/thread_mn.c:184-303). */
module FreeLists {
  import opened Basics

  /** Slot `l[i]` links to `l[i + 1]`, the last one to NIL. */
  ghost predicate Threaded(link: seq<int>, head: int, l: seq<nat>) {
    && (forall i :: 0 <= i < |l| ==> l[i] < |link|)
    && (forall i, j :: 0 <= i < j < |l| ==> l[i] != l[j])
    && head == (if l == [] then NIL else l[0])
    && (forall i {:trigger link[l[i]]} :: 0 <= i < |l| ==> link[l[i]] == if i + 1 < |l| then l[i + 1] else NIL)
  }

  ghost predicate MembersIn(list: seq<int>, l: seq<nat>, k: int) {
    forall x: nat {:trigger x in l} :: x in l ==> x < |list| && list[x] == k
  }

  /** `list[x]` is the list that slot `x` is in, or NIL if it is in none. */
  ghost predicate Sorted(list: seq<int>, lists: seq<seq<nat>>) {
    && (forall k :: 0 <= k < |lists| ==> MembersIn(list, lists[k], k))
    && (forall x: nat {:trigger list[x]} :: x < |list| ==>
         -1 <= list[x] < |lists| && (list[x] >= 0 ==> x in lists[list[x]]))
  }

  ghost predicate Consistent(link: seq<int>, head: seq<int>, lists: seq<seq<nat>>, list: seq<int>) {
    && |list| == |link| && |head| == |lists|
    && (forall k :: 0 <= k < |lists| ==> Threaded(link, head[k], lists[k]))
    && Sorted(list, lists)
  }

  lemma ThreadedFrame(link: seq<int>, head: int, l: seq<nat>, x: nat, v: int)
    requires Threaded(link, head, l) && x < |link| && x !in l
    ensures Threaded(link[x := v], head, l)
  {
    assert forall i :: 0 <= i < |l| ==> l[i] in l;
  }

  lemma PushKeeps(link: seq<int>, head: seq<int>, lists: seq<seq<nat>>, list: seq<int>, k: nat, x: nat)
    requires Consistent(link, head, lists, list) && k < |lists| && x < |link| && list[x] == NIL
    ensures Consistent(link[x := head[k]], head[k := x], lists[k := [x] + lists[k]], list[x := k])
  {
    var link', head', lists', list' := link[x := head[k]], head[k := x], lists[k := [x] + lists[k]], list[x := k];
    forall j | 0 <= j < |lists| ensures x !in lists[j] { assert MembersIn(list, lists[j], j); }
    forall j | 0 <= j < |lists'| ensures Threaded(link', head'[j], lists'[j]) && MembersIn(list', lists'[j], j) {
      assert Threaded(link, head[j], lists[j]) && MembersIn(list, lists[j], j);
      ThreadedFrame(link, head[j], lists[j], x, head[k]);
      if j == k { PushThreaded(link, head[k], lists[k], x); }
    }
  }

  lemma PushThreaded(link: seq<int>, head: int, l: seq<nat>, x: nat)
    requires Threaded(link, head, l) && x < |link| && x !in l
    ensures Threaded(link[x := head], x, [x] + l)
  {
    var link', l' := link[x := head], [x] + l;
    assert forall i :: 0 <= i < |l| ==> l[i] in l;
    forall i | 0 <= i < |l'| ensures link'[l'[i]] == if i + 1 < |l'| then l'[i + 1] else NIL {
      if i > 0 { assert link[l[i - 1]] == if i < |l| then l[i] else NIL; }
    }
  }

  lemma PopKeeps(link: seq<int>, head: seq<int>, lists: seq<seq<nat>>, list: seq<int>, k: nat)
    requires Consistent(link, head, lists, list) && k < |lists| && lists[k] != []
    ensures var x := lists[k][0];
            && x < |link| && head[k] == x && list[x] == k
            && Consistent(link, head[k := link[x]], lists[k := lists[k][1..]], list[x := NIL])
  {
    var x, rest := lists[k][0], lists[k][1..];
    assert Threaded(link, head[k], lists[k]) && MembersIn(list, lists[k], k);
    assert lists[k] == [x] + rest && x in lists[k];
    PopThreaded(link, head[k], lists[k]);
    var head', lists', list' := head[k := link[x]], lists[k := rest], list[x := NIL];
    forall j | 0 <= j < |lists'| ensures Threaded(link, head'[j], lists'[j]) && MembersIn(list', lists'[j], j) {
      assert Threaded(link, head[j], lists[j]) && MembersIn(list, lists[j], j);
      if j == k { assert x !in rest && forall y :: y in rest ==> y in lists[k]; }
    }
    forall y: nat | y < |list'| ensures -1 <= list'[y] < |lists'| && (list'[y] >= 0 ==> y in lists'[list'[y]]) {}
  }

  lemma PopThreaded(link: seq<int>, head: int, l: seq<nat>)
    requires Threaded(link, head, l) && l != []
    ensures Threaded(link, link[l[0]], l[1..])
  {
    var r := l[1..];
    assert link[l[0]] == if 1 < |l| then l[1] else NIL;
    forall i | 0 <= i < |r| ensures link[r[i]] == if i + 1 < |r| then r[i + 1] else NIL {
      assert r[i] == l[i + 1] && link[l[i + 1]] == if i + 2 < |l| then l[i + 2] else NIL;
    }
  }

  /** The link field of every slot and the heads of all lists. */
  class Slots {
    const link: array<int>
    const head: array<int>
    ghost var lists: seq<seq<nat>>
    ghost var list: seq<int>

    ghost predicate Valid()
      reads this, link, head
    {
      && link != head && link.Length == |list| && head.Length == |lists|
      && Consistent(link[..], head[..], lists, list)
    }

    constructor (slots: nat, nlists: nat)
      ensures Valid() && link.Length == slots && |lists| == nlists && fresh(link) && fresh(head)
      ensures (forall k :: 0 <= k < nlists ==> lists[k] == []) && (forall x :: 0 <= x < slots ==> list[x] == NIL)
    {
      link := new int[slots](_ => NIL);
      head := new int[nlists](_ => NIL);
      lists := seq(nlists, _ => []);
      list := seq(slots, _ => NIL);
    }

    /** Put slot `x` on list `k`. */
    method Push(k: nat, x: nat)
      requires Valid() && k < |lists| && x < link.Length && list[x] == NIL
      modifies this, link, head
      ensures Valid() && lists == old(lists)[k := [x] + old(lists)[k]] && list == old(list)[x := k]
    {
      hide Consistent;
      ghost var l, h := link[..], head[..];
      PushKeeps(l, h, lists, list, k, x);
      link[x] := head[k];
      head[k] := x;
      assert link[..] == l[x := h[k]] && head[..] == h[k := x];
      lists, list := lists[k := [x] + lists[k]], list[x := k];
    }

    predicate IsEmpty(k: nat)
      requires k < head.Length
      reads head
    {
      head[k] == NIL
    }

    lemma EmptyMeans(k: nat)
      requires Valid() && k < |lists|
      ensures IsEmpty(k) <==> lists[k] == []
    {
      assert Threaded(link[..], head[..][k], lists[k]);
    }

    /** Take the slot at the head of list `k`. */
    method Pop(k: nat) returns (x: nat)
      requires Valid() && k < |lists| && lists[k] != []
      modifies this, head
      ensures Valid() && x == old(lists)[k][0] && x < link.Length && old(list)[x] == k
      ensures lists == old(lists)[k := old(lists)[k][1..]] && list == old(list)[x := NIL]
    {
      hide Consistent;
      ghost var h := head[..];
      PopKeeps(link[..], h, lists, list, k);
      x := head[k];
      head[k] := link[x];
      assert head[..] == h[k := link[..][x]];
      lists, list := lists[k := lists[k][1..]], list[x := NIL];
    }
  }

  /** A slab with one free list: slots from `next` on were never used
      (src/thread.c:184-222). */
  class Arena {
    const cap: nat
    const slots: Slots
    var next: nat
    ghost var out: set<nat>

    ghost predicate Valid()
      reads this, slots, slots.link, slots.head
    {
      && slots.Valid() && slots.link.Length == cap && |slots.lists| == 1 && next <= cap
      && forall x {:trigger slots.list[x]} {:trigger x in out} :: (x in out ==> x < cap) &&
           (0 <= x < cap ==> (x in out <==> x < next && slots.list[x] == NIL) && (x >= next ==> slots.list[x] == NIL))
    }

    constructor (n: nat)
      ensures Valid() && cap == n && out == {} && slots.lists[0] == [] && next == 0
      ensures fresh(slots) && fresh(slots.link) && fresh(slots.head)
    {
      cap := n;
      slots := new Slots(n, 1);
      next := 0;
      out := {};
    }

    /** A slot that nobody has, a used one first, or NIL if all are handed out. */
    method Alloc() returns (x: int)
      requires Valid()
      modifies this, slots, slots.link, slots.head
      ensures Valid()
      ensures x == NIL ==> out == old(out) && forall y: nat :: y < cap ==> y in out
      ensures x != NIL ==> 0 <= x < cap && x !in old(out) && out == old(out) + {x}
      ensures x != NIL ==> x == if old(slots.lists)[0] == [] then old(next) else old(slots.lists)[0][0]
      ensures if old(slots.lists)[0] == []
              then slots.lists == old(slots.lists) && next == (if x == NIL then cap else x + 1)
              else slots.lists == [old(slots.lists)[0][1..]] && next == old(next)
    {
      slots.EmptyMeans(0);
      if !slots.IsEmpty(0) {
        x := slots.Pop(0);
        out := out + {x};
      } else if next >= cap {
        x := NIL;
        AllOut();
      } else {
        x := next;
        next := next + 1;
        out := out + {x};
      }
    }

    lemma AllOut()
      requires Valid() && slots.lists[0] == [] && next == cap
      ensures forall y: nat :: y < cap ==> y in out
    {
      forall y: nat | y < cap ensures y in out {
        assert Consistent(slots.link[..], slots.head[..], slots.lists, slots.list);
        assert -1 <= slots.list[y] < 1;
      }
    }

    /** A slot comes back to the head of the free list. */
    method Release(x: nat)
      requires Valid() && x in out
      modifies this, slots, slots.link, slots.head
      ensures Valid() && out == old(out) - {x}
      ensures slots.lists == [[x] + old(slots.lists)[0]] && next == old(next)
    {
      slots.Push(0, x);
      out := out - {x};
    }
  }
}
