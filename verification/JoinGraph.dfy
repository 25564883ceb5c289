/** The graph of accepted joins: an edge (joiner, target) for every join that the deadlock
    check let through (src/thread.c:563-568). Nothing here depends on union-find. */
module JoinGraph {

  type Edge = (nat, nat)

  ghost predicate Linked(es: seq<Edge>, a: nat, b: nat) {
    (a, b) in es || (b, a) in es
  }

  /** `p` walks along edges in either direction. */
  ghost predicate Path(es: seq<Edge>, p: seq<nat>) {
    |p| > 0 && forall i :: 0 <= i < |p| - 1 ==> Linked(es, p[i], p[i + 1])
  }

  ghost predicate Connects(es: seq<Edge>, p: seq<nat>, a: nat, b: nat) {
    Path(es, p) && p[0] == a && p[|p| - 1] == b
  }

  ghost predicate Connected(es: seq<Edge>, a: nat, b: nat) {
    exists p :: Connects(es, p, a, b)
  }

  /** `p` walks along edges from joiner to target: who waits for whom. */
  ghost predicate Waits(es: seq<Edge>, p: seq<nat>) {
    |p| > 0 && forall i :: 0 <= i < |p| - 1 ==> (p[i], p[i + 1]) in es
  }

  /** Every join was accepted between two threads not yet linked. */
  ghost predicate Accepted(es: seq<Edge>) {
    forall i :: 0 <= i < |es| ==> !Connected(es[..i], es[i].0, es[i].1)
  }

  // ---------- Connectivity is an equivalence ----------

  lemma ConnectedRefl(es: seq<Edge>, a: nat)
    ensures Connected(es, a, a)
  {
    assert Connects(es, [a], a, a);
  }

  lemma ConnectedEdge(es: seq<Edge>, a: nat, b: nat)
    requires Linked(es, a, b)
    ensures Connected(es, a, b)
  {
    assert Connects(es, [a, b], a, b);
  }

  lemma ConnectedTrans(es: seq<Edge>, a: nat, b: nat, c: nat)
    requires Connected(es, a, b) && Connected(es, b, c)
    ensures Connected(es, a, c)
  {
    var p :| Connects(es, p, a, b);
    var q :| Connects(es, q, b, c);
    var r := p + q[1..];
    forall i | 0 <= i < |r| - 1 ensures Linked(es, r[i], r[i + 1]) {
      if i >= |p| - 1 { assert r[i] == q[i - (|p| - 1)] && r[i + 1] == q[i + 1 - (|p| - 1)]; }
    }
    assert Connects(es, r, a, c);
  }

  lemma {:induction false} ConnectedSym(es: seq<Edge>, a: nat, b: nat)
    requires Connected(es, a, b)
    ensures Connected(es, b, a)
  {
    var p :| Connects(es, p, a, b);
    PathSym(es, p);
  }

  lemma {:induction false} PathSym(es: seq<Edge>, p: seq<nat>)
    requires Path(es, p)
    ensures Connected(es, p[|p| - 1], p[0])
    decreases |p|
  {
    ConnectedRefl(es, p[0]);
    if |p| > 1 {
      PathSym(es, p[1..]);
      assert Linked(es, p[0], p[1]);
      ConnectedEdge(es, p[1], p[0]);
      ConnectedTrans(es, p[|p| - 1], p[1], p[0]);
    }
  }

  lemma ConnectedMono(es: seq<Edge>, fs: seq<Edge>, a: nat, b: nat)
    requires Connected(es, a, b) && forall e :: e in es ==> e in fs
    ensures Connected(fs, a, b)
  {
    var p :| Connects(es, p, a, b);
    forall i | 0 <= i < |p| - 1 ensures Linked(fs, p[i], p[i + 1]) { assert Linked(es, p[i], p[i + 1]); }
    assert Connects(fs, p, a, b);
  }

  // ---------- Adding one edge ----------

  ghost predicate ConnectedVia(es: seq<Edge>, e: Edge, x: nat, y: nat) {
    || Connected(es, x, y)
    || (Connected(es, x, e.0) && Connected(es, e.1, y))
    || (Connected(es, x, e.1) && Connected(es, e.0, y))
  }

  /** What a new edge connects: exactly the two components it joins. */
  lemma AddEdge(es: seq<Edge>, e: Edge, x: nat, y: nat)
    ensures Connected(es + [e], x, y) <==> ConnectedVia(es, e, x, y)
  {
    if Connected(es + [e], x, y) {
      var p :| Connects(es + [e], p, x, y);
      PathVia(es, e, p);
    }
    if ConnectedVia(es, e, x, y) {
      var fs := es + [e];
      assert e in fs;
      ConnectedEdge(fs, e.0, e.1);
      ConnectedEdge(fs, e.1, e.0);
      if Connected(es, x, y) {
        ConnectedMono(es, fs, x, y);
      } else if Connected(es, x, e.0) && Connected(es, e.1, y) {
        ConnectedMono(es, fs, x, e.0);
        ConnectedMono(es, fs, e.1, y);
        ConnectedTrans(fs, x, e.0, e.1);
        ConnectedTrans(fs, x, e.1, y);
      } else {
        ConnectedMono(es, fs, x, e.1);
        ConnectedMono(es, fs, e.0, y);
        ConnectedTrans(fs, x, e.1, e.0);
        ConnectedTrans(fs, x, e.0, y);
      }
    }
  }

  lemma {:induction false} PathVia(es: seq<Edge>, e: Edge, p: seq<nat>)
    requires Path(es + [e], p)
    ensures ConnectedVia(es, e, p[0], p[|p| - 1])
    decreases |p|
  {
    ConnectedRefl(es, p[0]);
    if |p| > 1 {
      var x, z, y := p[0], p[1], p[|p| - 1];
      forall i | 0 <= i < |p[1..]| - 1 ensures Linked(es + [e], p[1..][i], p[1..][i + 1]) {
        assert Linked(es + [e], p[i + 1], p[i + 2]);
      }
      PathVia(es, e, p[1..]);
      assert Linked(es + [e], x, z);
      if Linked(es, x, z) {
        ConnectedEdge(es, x, z);
        PrependVia(es, e, x, z, y);
      } else {
        assert (x, z) == e || (z, x) == e;
        ConnectedRefl(es, e.0);
        ConnectedRefl(es, e.1);
        CrossVia(es, e, x, z, y);
      }
    }
  }

  lemma PrependVia(es: seq<Edge>, e: Edge, x: nat, z: nat, y: nat)
    requires Connected(es, x, z) && ConnectedVia(es, e, z, y)
    ensures ConnectedVia(es, e, x, y)
  {
    if Connected(es, z, y) { ConnectedTrans(es, x, z, y); }
    if Connected(es, z, e.0) { ConnectedTrans(es, x, z, e.0); }
    if Connected(es, z, e.1) { ConnectedTrans(es, x, z, e.1); }
  }

  lemma CrossVia(es: seq<Edge>, e: Edge, x: nat, z: nat, y: nat)
    requires (x, z) == e || (z, x) == e
    requires Connected(es, e.0, e.0) && Connected(es, e.1, e.1) && ConnectedVia(es, e, z, y)
    ensures ConnectedVia(es, e, x, y)
  {}

  // ---------- Accepted joins form a forest ----------

  /** Every accepted join is a bridge: without it, its two threads are not linked. */
  lemma {:induction false} AcceptedIsForest(es: seq<Edge>, k: nat)
    requires Accepted(es) && k < |es|
    ensures !Connected(es[..k] + es[k + 1..], es[k].0, es[k].1)
    decreases |es|
  {
    var n := |es| - 1;
    var e, f := es[n], es[k];
    if k == n {
      assert es[..k] + es[k + 1..] == es[..n];
    } else {
      var fs := es[..n];
      assert forall i {:trigger fs[i]} :: 0 <= i < n ==> fs[..i] == es[..i] && fs[i] == es[i];
      AcceptedIsForest(fs, k);
      var rest := fs[..k] + fs[k + 1..];
      assert es[..k] + es[k + 1..] == rest + [e];
      AddEdge(rest, e, f.0, f.1);
      assert !Connected(es[..n], es[n].0, es[n].1);
      if ConnectedVia(rest, e, f.0, f.1) { EndsMeet(rest, fs, e, f); }
    }
  }

  /** If the old edge `f` is bypassed through the new edge `e`, the ends of `e` were linked before. */
  lemma EndsMeet(rest: seq<Edge>, fs: seq<Edge>, e: Edge, f: Edge)
    requires f in fs && (forall d :: d in rest ==> d in fs)
    requires ConnectedVia(rest, e, f.0, f.1) && !Connected(rest, f.0, f.1)
    ensures Connected(fs, e.0, e.1)
  {
    assert Linked(fs, f.0, f.1);
    ConnectedEdge(fs, f.0, f.1);
    ConnectedEdge(fs, f.1, f.0);
    if Connected(rest, f.0, e.0) && Connected(rest, e.1, f.1) {
      ConnectedMono(rest, fs, f.0, e.0); ConnectedMono(rest, fs, e.1, f.1);
      ConnectedSym(fs, f.0, e.0); ConnectedSym(fs, e.1, f.1);
      ConnectedTrans(fs, e.0, f.0, f.1); ConnectedTrans(fs, e.0, f.1, e.1);
    } else {
      ConnectedMono(rest, fs, f.0, e.1); ConnectedMono(rest, fs, e.0, f.1);
      ConnectedSym(fs, e.0, f.1); ConnectedSym(fs, f.0, e.1);
      ConnectedTrans(fs, e.0, f.1, f.0); ConnectedTrans(fs, e.0, f.0, e.1);
    }
  }

  // ---------- No deadlock ----------

  lemma WaitsConnected(es: seq<Edge>, p: seq<nat>)
    requires Waits(es, p)
    ensures Connected(es, p[0], p[|p| - 1])
  {
    assert Path(es, p);
    assert Connects(es, p, p[0], p[|p| - 1]);
  }

  /** The first place where a walk takes an edge that is not in `es`. */
  lemma {:induction false} FirstUse(es: seq<Edge>, e: Edge, p: seq<nat>) returns (i: nat)
    requires Waits(es + [e], p) && !Waits(es, p)
    ensures i < |p| - 1 && (p[i], p[i + 1]) == e && Waits(es, p[..i + 1])
  {
    i := 0;
    while (p[i], p[i + 1]) in es
      invariant i < |p| - 1 && forall j :: 0 <= j < i ==> (p[j], p[j + 1]) in es
      decreases |p| - i
    {
      i := i + 1;
    }
    assert (p[i], p[i + 1]) in es + [e];
  }

  /** The part after the last place where a walk takes an edge that is not in `es`. */
  lemma {:induction false} LastUse(es: seq<Edge>, e: Edge, p: seq<nat>) returns (i: nat)
    requires Waits(es + [e], p) && !Waits(es, p)
    ensures i < |p| - 1 && (p[i], p[i + 1]) == e && Waits(es, p[i + 1..])
  {
    i := |p| - 2;
    while (p[i], p[i + 1]) in es
      invariant i < |p| - 1 && forall j :: i < j < |p| - 1 ==> (p[j], p[j + 1]) in es
      decreases i
    {
      i := i - 1;
    }
    assert (p[i], p[i + 1]) in es + [e];
  }

  /** Over any history of accepted joins, nobody waits for himself, directly or through others. */
  lemma {:induction false} NoDeadlock(es: seq<Edge>, p: seq<nat>)
    requires Accepted(es) && Waits(es, p) && |p| > 1
    ensures p[0] != p[|p| - 1]
    decreases |es|
  {
    assert (p[0], p[1]) in es;
    if es != [] {
      var n := |es| - 1;
      var fs, e := es[..n], es[n];
      assert es == fs + [e];
      assert forall i {:trigger fs[i]} :: 0 <= i < n ==> fs[..i] == es[..i] && fs[i] == es[i];
      if Waits(fs, p) {
        NoDeadlock(fs, p);
      } else if p[0] == p[|p| - 1] {
        var i := FirstUse(fs, e, p);
        var j := LastUse(fs, e, p);
        assert !Connected(es[..n], es[n].0, es[n].1);
        WaitsConnected(fs, p[..i + 1]);
        WaitsConnected(fs, p[j + 1..]);
        ConnectedTrans(fs, e.1, p[0], e.0);
        ConnectedSym(fs, e.1, e.0);
      }
    }
  }

  /** A join that would close a cycle of waiting threads is one the check refuses. */
  lemma ClosingJoinIsLinked(es: seq<Edge>, joiner: nat, target: nat, p: seq<nat>)
    requires Waits(es, p) && p[0] == target && p[|p| - 1] == joiner
    ensures Connected(es, joiner, target)
  {
    WaitsConnected(es, p);
    ConnectedSym(es, target, joiner);
  }

  ghost predicate WaitsFromTo(es: seq<Edge>, p: seq<nat>, a: nat, b: nat) {
    Waits(es, p) && p[0] == a && p[|p| - 1] == b
  }

  /** `a` waits for `b`, directly or through others, or is `b`. */
  ghost predicate Above(es: seq<Edge>, a: nat, b: nat) {
    exists p :: WaitsFromTo(es, p, a, b)
  }

  /** Somebody waits for himself through others. */
  ghost predicate Cyclic(es: seq<Edge>) {
    exists p: seq<nat>, a: nat :: WaitsFromTo(es, p, a, a) && |p| > 1
  }

  lemma AboveEdge(es: seq<Edge>, a: nat, b: nat)
    requires (a, b) in es
    ensures Above(es, a, b)
  {
    assert WaitsFromTo(es, [a, b], a, b);
  }

  lemma AboveRefl(es: seq<Edge>, a: nat)
    ensures Above(es, a, a)
  {
    assert WaitsFromTo(es, [a], a, a);
  }

  lemma AboveTrans(es: seq<Edge>, a: nat, b: nat, c: nat)
    requires Above(es, a, b) && Above(es, b, c)
    ensures Above(es, a, c)
  {
    var p :| WaitsFromTo(es, p, a, b);
    var q :| WaitsFromTo(es, q, b, c);
    var r := p + q[1..];
    forall i | 0 <= i < |r| - 1 ensures (r[i], r[i + 1]) in es {
      if i >= |p| - 1 { assert r[i] == q[i - (|p| - 1)] && r[i + 1] == q[i + 1 - (|p| - 1)]; }
    }
    assert WaitsFromTo(es, r, a, c);
  }

  /** When a join really would deadlock: exactly when the target already waits for the joiner. */
  lemma ClosesCycleExactly(es: seq<Edge>, joiner: nat, target: nat)
    requires Accepted(es)
    ensures Cyclic(es + [(joiner, target)]) <==> Above(es, target, joiner)
  {
    var e := (joiner, target);
    var fs := es + [e];
    if Cyclic(fs) {
      var p: seq<nat>, a: nat :| WaitsFromTo(fs, p, a, a) && |p| > 1;
      if Waits(es, p) { NoDeadlock(es, p); }
      var i := FirstUse(es, e, p);
      var j := LastUse(es, e, p);
      assert WaitsFromTo(es, p[..i + 1], a, joiner) && WaitsFromTo(es, p[j + 1..], target, a);
      AboveTrans(es, target, a, joiner);
    }
    if Above(es, target, joiner) {
      var q :| WaitsFromTo(es, q, target, joiner);
      var r := [joiner] + q;
      forall i | 0 <= i < |r| - 1 ensures (r[i], r[i + 1]) in fs {
        if i > 0 { assert (q[i - 1], q[i]) in es; }
      }
      assert WaitsFromTo(fs, r, joiner, joiner);
    }
  }

  /** Nobody is joined by two threads. */
  ghost predicate OneJoiner(es: seq<Edge>) {
    forall e, f :: e in es && f in es && e.1 == f.1 ==> e == f
  }

  /** With one joiner for each thread, linked threads hang together below one thread that waits for
      both. So a join is refused exactly within such a tree, and deadlocks exactly upwards in it. */
  lemma {:induction false} LinkedShareAncestor(es: seq<Edge>, p: seq<nat>) returns (r: nat)
    requires OneJoiner(es) && Path(es, p)
    ensures Above(es, r, p[0]) && Above(es, r, p[|p| - 1])
    decreases |p|
  {
    if |p| == 1 {
      r := p[0];
      AboveRefl(es, r);
    } else {
      var x, z, y := p[0], p[1], p[|p| - 1];
      forall i | 0 <= i < |p[1..]| - 1 ensures Linked(es, p[1..][i], p[1..][i + 1]) {
        assert Linked(es, p[i + 1], p[i + 2]);
      }
      r := LinkedShareAncestor(es, p[1..]);
      assert Linked(es, x, z);
      if (z, x) in es {
        AboveEdge(es, z, x);
        AboveTrans(es, r, z, x);
      } else if r == z {
        AboveEdge(es, x, z);
        AboveTrans(es, x, z, y);
        AboveRefl(es, x);
        r := x;
      } else {
        OnlyWayUp(es, r, x, z);
      }
    }
  }

  lemma OnlyWayUp(es: seq<Edge>, r: nat, x: nat, z: nat)
    requires OneJoiner(es) && Above(es, r, z) && r != z && (x, z) in es
    ensures Above(es, r, x)
  {
    var q :| WaitsFromTo(es, q, r, z);
    var n := |q| - 1;
    assert (q[n - 1], q[n]) in es;
    assert WaitsFromTo(es, q[..n], r, x);
  }

  /** A refusal between threads with one joiner each: they are below a common thread, and the join
      would have deadlocked exactly if the target is above the joiner. */
  lemma RefusalExactly(es: seq<Edge>, joiner: nat, target: nat)
    requires Accepted(es) && OneJoiner(es)
    ensures Connected(es, joiner, target) <==> exists r :: Above(es, r, joiner) && Above(es, r, target)
    ensures Cyclic(es + [(joiner, target)]) <==> Above(es, target, joiner)
    ensures Above(es, target, joiner) ==> Connected(es, joiner, target)
  {
    ClosesCycleExactly(es, joiner, target);
    if Connected(es, joiner, target) {
      var p :| Connects(es, p, joiner, target);
      var r := LinkedShareAncestor(es, p);
    }
    if r :| Above(es, r, joiner) && Above(es, r, target) {
      AboveConnected(es, r, joiner);
      AboveConnected(es, r, target);
      ConnectedSym(es, r, joiner);
      ConnectedTrans(es, joiner, r, target);
    }
    if Above(es, target, joiner) {
      AboveConnected(es, target, joiner);
      ConnectedSym(es, target, joiner);
    }
  }

  lemma AboveConnected(es: seq<Edge>, a: nat, b: nat)
    requires Above(es, a, b)
    ensures Connected(es, a, b)
  {
    var p :| WaitsFromTo(es, p, a, b);
    WaitsConnected(es, p);
  }

  /** The converse fails: after main joined 1 and then 2, thread 1 joining 2 is refused although
      nobody would wait for himself. The check detects linked threads, not only deadlocks. */
  lemma RefusalWithoutDeadlock(p: seq<nat>)
    requires Waits([(0, 1), (0, 2), (1, 2)], p) && |p| > 1
    ensures Accepted([(0, 1), (0, 2)]) && Connected([(0, 1), (0, 2)], 1, 2) && p[0] != p[|p| - 1]
  {
    var es: seq<Edge> := [(0, 1), (0, 2)];
    ForestOfTwo();
    assert Linked(es, 1, 0) && Linked(es, 0, 2);
    ConnectedEdge(es, 1, 0);
    ConnectedEdge(es, 0, 2);
    ConnectedTrans(es, 1, 0, 2);
    Ascends(p, |p| - 1);
  }

  lemma {:induction false} Ascends(p: seq<nat>, k: nat)
    requires Waits([(0, 1), (0, 2), (1, 2)], p) && 0 < k < |p|
    ensures p[0] < p[k]
  {
    assert (p[k - 1], p[k]) in [(0, 1), (0, 2), (1, 2)];
    if k > 1 { Ascends(p, k - 1); }
  }

  lemma LastLink(es: seq<Edge>, a: nat, b: nat) returns (c: nat)
    requires Connected(es, a, b) && a != b
    ensures Linked(es, c, b)
  {
    var p :| Connects(es, p, a, b);
    c := p[|p| - 2];
    assert Linked(es, p[|p| - 2], p[|p| - 1]);
  }

  lemma ForestOfTwo()
    ensures Accepted([(0, 1), (0, 2)])
  {
    var es: seq<Edge> := [(0, 1), (0, 2)];
    assert es[..0] == [] && es[..1] == [(0, 1)];
    forall i | 0 <= i < 2 ensures !Connected(es[..i], es[i].0, es[i].1) {
      if Connected(es[..i], es[i].0, es[i].1) { var c := LastLink(es[..i], es[i].0, es[i].1); }
    }
  }
}
