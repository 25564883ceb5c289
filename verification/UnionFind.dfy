/** Deadlock detection by union-find over thread descriptors (src/thread.c:501-523): path
    halving, union by an 8-bit rank, and what a refusal means. */
module UnionFind {
  import opened Basics
  import opened JoinGraph

  const THREAD_CAP: nat := 262144

  lemma {:induction false} Pow2Mono(a: nat, b: nat)
    requires a <= b
    ensures Pow2(a) <= Pow2(b)
    decreases b - a
  {
    if a < b { Pow2Mono(a, b - 1); }
  }

  // ---------- Parent links ----------

  /** Parent links stay in range and climb a level at every step, so they form a forest. */
  ghost predicate Leveled(p: seq<nat>, level: seq<nat>, top: nat) {
    && |level| == |p|
    && (forall x :: 0 <= x < |p| ==> p[x] < |p|)
    && (forall x :: 0 <= x < |p| ==> level[x] <= top)
    && (forall x :: 0 <= x < |p| && p[x] != x ==> level[x] < level[p[x]])
  }

  /** The root above `x`: the descriptor that represents its set. */
  ghost function Root(p: seq<nat>, level: seq<nat>, top: nat, x: nat): (r: nat)
    requires Leveled(p, level, top) && x < |p|
    ensures r < |p| && p[r] == r
    decreases top - level[x]
  {
    if p[x] == x then x else Root(p, level, top, p[x])
  }

  /** `rep` names a representative for every descriptor, constant along parent links. */
  ghost predicate Represents(p: seq<nat>, rep: seq<nat>) {
    && |rep| == |p|
    && (forall x :: 0 <= x < |p| ==> p[x] < |p| && rep[x] < |p|)
    && (forall x :: 0 <= x < |p| ==> rep[p[x]] == rep[x])
    && (forall x :: 0 <= x < |p| && p[x] == x ==> rep[x] == x)
    && (forall x :: 0 <= x < |p| ==> p[rep[x]] == rep[x])
  }

  /** There is only one such naming: the root. */
  lemma {:induction false} RepIsRoot(p: seq<nat>, level: seq<nat>, top: nat, rep: seq<nat>, x: nat)
    requires Leveled(p, level, top) && Represents(p, rep) && x < |p|
    ensures rep[x] == Root(p, level, top, x)
    decreases top - level[x]
  {
    if p[x] != x { RepIsRoot(p, level, top, rep, p[x]); }
  }

  lemma RootsRepresent(p: seq<nat>, level: seq<nat>, top: nat) returns (rep: seq<nat>)
    requires Leveled(p, level, top)
    ensures Represents(p, rep) && forall x :: 0 <= x < |p| ==> rep[x] == Root(p, level, top, x)
  {
    rep := seq(|p|, x requires 0 <= x < |p| => Root(p, level, top, x));
  }

  /** One step of path halving: every representative and the forest survive. */
  lemma HalveKeeps(p: seq<nat>, level: seq<nat>, top: nat, rep: seq<nat>, t: nat)
    requires Leveled(p, level, top) && Represents(p, rep) && t < |p|
    ensures Leveled(p[t := p[p[t]]], level, top) && Represents(p[t := p[p[t]]], rep)
  {}

  // ---------- Ranks and set sizes ----------

  ghost function Class(rep: seq<nat>, r: nat): set<nat> {
    set x | 0 <= x < |rep| && rep[x] == r
  }

  /** Rank climbs along links. */
  ghost predicate Climbs(p: seq<nat>, rank: seq<nat>) {
    && |rank| == |p|
    && forall x :: 0 <= x < |p| && p[x] != x ==> p[x] < |p| && rank[x] < rank[p[x]]
  }

  /** A root of rank k stands for at least 2^k descriptors. */
  ghost predicate Sized(p: seq<nat>, rank: seq<nat>, rep: seq<nat>) {
    && |rank| == |p| == |rep|
    && forall r :: 0 <= r < |p| && p[r] == r ==> Pow2(rank[r]) <= |Class(rep, r)|
  }

  ghost predicate Ranked(p: seq<nat>, rank: seq<nat>, rep: seq<nat>) {
    Climbs(p, rank) && Sized(p, rank, rep)
  }

  lemma HalveKeepsRanked(p: seq<nat>, level: seq<nat>, top: nat, rank: seq<nat>, rep: seq<nat>, t: nat)
    requires Leveled(p, level, top) && Ranked(p, rank, rep) && t < |p|
    ensures Ranked(p[t := p[p[t]]], rank, rep)
  {
    var q := p[t := p[p[t]]];
    forall r | 0 <= r < |q| && q[r] == r ensures p[r] == r {}
  }

  lemma {:induction false} ClassBound(rep: seq<nat>, r: nat)
    ensures |Class(rep, r)| <= |rep|
  {
    if rep == [] {
      assert Class(rep, r) == {};
    } else {
      var n := |rep| - 1;
      ClassBound(rep[..n], r);
      assert Class(rep, r) == Class(rep[..n], r) + (if rep[n] == r then {n} else {});
    }
  }

  lemma Pow2Of19()
    ensures Pow2(19) == 524288
  {
    assert Pow2(4) == 16;
    assert Pow2(9) == 512;
    assert Pow2(14) == 16384;
  }

  /** With 262144 descriptors no rank exceeds 18, so the 8-bit field never wraps. */
  lemma RankBound(p: seq<nat>, rank: seq<nat>, rep: seq<nat>, r: nat)
    requires Ranked(p, rank, rep) && |p| <= THREAD_CAP && r < |p| && p[r] == r
    ensures rank[r] <= 18
  {
    ClassBound(rep, r);
    if rank[r] >= 19 {
      Pow2Mono(19, rank[r]);
      Pow2Of19();
    }
  }

  /** ... and neither does anyone below a root. */
  lemma {:induction false} RankBoundAll(p: seq<nat>, level: seq<nat>, top: nat, rank: seq<nat>, rep: seq<nat>, x: nat)
    requires Leveled(p, level, top) && Ranked(p, rank, rep) && |p| <= THREAD_CAP && x < |p|
    ensures rank[x] <= 18
    decreases top - level[x]
  {
    if p[x] == x { RankBound(p, rank, rep, x); } else { RankBoundAll(p, level, top, rank, rep, p[x]); }
  }

  // ---------- Linking two roots ----------

  ghost function Merge(rep: seq<nat>, a: nat, b: nat): (m: seq<nat>)
    ensures |m| == |rep| && forall x :: 0 <= x < |rep| ==> m[x] == if rep[x] == b then a else rep[x]
  {
    seq(|rep|, x requires 0 <= x < |rep| => if rep[x] == b then a else rep[x])
  }

  lemma MergeJoins(rep: seq<nat>, i: nat, j: nat, a: nat, b: nat)
    requires i < |rep| && j < |rep|
    requires (a == rep[i] && b == rep[j]) || (a == rep[j] && b == rep[i])
    ensures var m := Merge(rep, a, b);
            && m[i] == m[j]
            && forall x :: 0 <= x < |rep| ==> m[x] == if rep[x] == rep[i] || rep[x] == rep[j] then m[i] else rep[x]
  {}

  lemma LinkKeeps(p: seq<nat>, level: seq<nat>, top: nat, rep: seq<nat>, a: nat, b: nat)
    requires Leveled(p, level, top) && Represents(p, rep)
    requires a < |p| && b < |p| && a != b && p[a] == a && p[b] == b
    ensures var l := if level[a] > level[b] then level[a] else level[b] + 1;
            Leveled(p[b := a], level[a := l], top + 1) && Represents(p[b := a], Merge(rep, a, b))
  {}

  lemma MergedClass(rep: seq<nat>, a: nat, b: nat, r: nat)
    requires a != b
    ensures r == a ==> Class(Merge(rep, a, b), r) == Class(rep, a) + Class(rep, b)
                       && |Class(Merge(rep, a, b), r)| == |Class(rep, a)| + |Class(rep, b)|
    ensures r != a && r != b ==> Class(Merge(rep, a, b), r) == Class(rep, r)
  {
    var m := Merge(rep, a, b);
    if r == a {
      assert Class(m, a) == Class(rep, a) + Class(rep, b);
      assert Class(rep, a) !! Class(rep, b);
    }
  }

  ghost function LinkedRank(rank: seq<nat>, a: nat, b: nat): seq<nat>
    requires a < |rank| && b < |rank|
  {
    if rank[a] == rank[b] then rank[a := rank[a] + 1] else rank
  }

  lemma LinkKeepsClimbs(p: seq<nat>, rank: seq<nat>, a: nat, b: nat)
    requires Climbs(p, rank) && a < |p| && b < |p| && a != b && p[a] == a && rank[a] >= rank[b]
    ensures Climbs(p[b := a], LinkedRank(rank, a, b))
  {}

  lemma LinkKeepsSized(p: seq<nat>, rank: seq<nat>, rep: seq<nat>, a: nat, b: nat)
    requires Sized(p, rank, rep)
    requires a < |p| && b < |p| && a != b && p[a] == a && p[b] == b && rank[a] >= rank[b]
    ensures Sized(p[b := a], LinkedRank(rank, a, b), Merge(rep, a, b))
  {
    var q, m, k := p[b := a], Merge(rep, a, b), LinkedRank(rank, a, b);
    assert Pow2(rank[a]) <= |Class(rep, a)| && Pow2(rank[b]) <= |Class(rep, b)|;
    forall r | 0 <= r < |q| && q[r] == r ensures Pow2(k[r]) <= |Class(m, r)| {
      MergedClass(rep, a, b, r);
      assert Pow2(rank[r]) <= |Class(rep, r)|;
      if r == a && rank[a] == rank[b] { assert Pow2(k[a]) == 2 * Pow2(rank[a]); }
    }
  }

  // ---------- Representatives and the join graph ----------

  /** Two descriptors have the same representative exactly when accepted joins link them. */
  ghost predicate Tracks(rep: seq<nat>, es: seq<Edge>) {
    forall x, y :: 0 <= x < |rep| && 0 <= y < |rep| ==> (rep[x] == rep[y] <==> Connected(es, x, y))
  }

  lemma LinkTracks(rep: seq<nat>, es: seq<Edge>, i: nat, j: nat, a: nat, b: nat)
    requires Tracks(rep, es) && i < |rep| && j < |rep| && rep[i] != rep[j]
    requires (a == rep[i] && b == rep[j]) || (a == rep[j] && b == rep[i])
    ensures Tracks(Merge(rep, a, b), es + [(i, j)])
  {
    var m := Merge(rep, a, b);
    forall x, y | 0 <= x < |rep| && 0 <= y < |rep|
      ensures m[x] == m[y] <==> Connected(es + [(i, j)], x, y)
    {
      AddEdge(es, (i, j), x, y);
    }
  }

  lemma AcceptExtends(es: seq<Edge>, e: Edge)
    requires Accepted(es) && !Connected(es, e.0, e.1)
    ensures Accepted(es + [e])
  {
    var fs := es + [e];
    forall i | 0 <= i < |fs| ensures !Connected(fs[..i], fs[i].0, fs[i].1) {
      if i < |es| { assert fs[..i] == es[..i]; } else { assert fs[..i] == es; }
    }
  }

  // ---------- The structure in memory ----------

  /** The union-find fields of all descriptors. `pristine` says that no used descriptor has been
      recycled so far; `edges` are the joins accepted while that lasts. */
  class Descriptors {
    const parent: array<nat>
    const rank: array<nat>
    ghost var rep: seq<nat>
    ghost var level: seq<nat>
    ghost var top: nat
    ghost var pristine: bool
    ghost var edges: seq<Edge>

    ghost predicate Forest()
      reads this, parent
    {
      Leveled(parent[..], level, top) && Represents(parent[..], rep)
    }

    ghost predicate Valid()
      reads this, parent, rank
    {
      && parent != rank && parent.Length == rank.Length == |rep| == |level| <= THREAD_CAP
      && Forest()
      && (forall x :: 0 <= x < rank.Length ==> rank[x] < 256)
      && (pristine ==> Ranked(parent[..], rank[..], rep) && Tracks(rep, edges) && Accepted(edges))
    }

    /** Freshly reset descriptors: everyone is alone. */
    constructor (n: nat)
      requires n <= THREAD_CAP
      ensures Valid() && pristine && edges == [] && parent.Length == n && fresh(parent) && fresh(rank)
    {
      parent := new nat[n](i => i);
      rank := new nat[n](i => 0);
      rep := seq(n, i => i);
      level := seq(n, i => 0);
      top, pristine, edges := 0, true, [];
      new;
      forall r | 0 <= r < n ensures Pow2(rank[..][r]) <= |Class(rep, r)| {
        assert r in Class(rep, r);
      }
      forall x, y | 0 <= x < n && 0 <= y < n ensures rep[x] == rep[y] <==> Connected(edges, x, y) {
        ConnectedRefl([], x);
        if Connected([], x, y) && x != y { var c := LastLink([], x, y); }
      }
    }

    /** uf_find: path halving. It returns the representative, and nobody's representative moves. */
    method Find(t: nat) returns (r: nat)
      requires Valid() && t < parent.Length
      modifies parent
      ensures Valid() && r < parent.Length && r == rep[t] && parent[r] == r
      ensures forall x :: 0 <= x < |rep| ==> rep[x] < |rep| && parent[rep[x]] == rep[x]
    {
      r := t;
      while parent[r] != r
        invariant Valid() && r < parent.Length && rep[r] == rep[t]
        decreases top - level[r]
      {
        HalveKeeps(parent[..], level, top, rep, r);
        if pristine { HalveKeepsRanked(parent[..], level, top, rank[..], rep, r); }
        ghost var p := parent[..];
        parent[r] := parent[parent[r]];
        assert parent[..] == p[r := p[p[r]]];
        r := parent[r];
      }
    }

    /** uf_union. As long as no descriptor was recycled it refuses exactly the joins between
        threads already linked, and the accepted joins stay a forest. */
    method Union(i: nat, j: nat) returns (res: int)
      requires Valid() && i < parent.Length && j < parent.Length
      modifies this, parent, rank
      ensures Valid() && pristine == old(pristine)
      ensures res == -1 || res == 0
      ensures res == -1 <==> old(rep[i] == rep[j])
      ensures pristine ==> (res == -1 <==> Connected(old(edges), i, j))
      ensures edges == if res == 0 then old(edges) + [(i, j)] else old(edges)
      ensures res == -1 ==> rep == old(rep)
      ensures res == 0 ==> rep[i] == rep[j] && forall x :: 0 <= x < |rep| ==>
                rep[x] == if old(rep)[x] == old(rep)[i] || old(rep)[x] == old(rep)[j] then rep[i] else old(rep)[x]
    {
      hide Leveled, Represents, Ranked, Tracks, Accepted, Connected, Merge;
      var a: nat := Find(i);
      var b: nat := Find(j);
      ghost var rep0 := rep;
      Meaning(i, j);
      if a == b { return -1; }
      while rank[a] < rank[b]
        invariant Valid() && a < parent.Length && b < parent.Length
        invariant parent[a] == a && parent[b] == b && a != b && rep == rep0
        invariant (a == rep[i] && b == rep[j]) || (a == rep[j] && b == rep[i])
        decreases if rank[a] < rank[b] then 1 else 0
      {
        a, b := b, a;
      }
      Attach(a, b);
      MergeJoins(rep0, i, j, a, b);
      if pristine {
        LinkTracks(rep0, edges, i, j, a, b);
        AcceptExtends(edges, (i, j));
      }
      edges := edges + [(i, j)];
      res := 0;
    }

    lemma Meaning(i: nat, j: nat)
      requires Valid() && i < |rep| && j < |rep|
      ensures pristine ==> (rep[i] == rep[j] <==> Connected(edges, i, j))
    {}

    /** The two stores of uf_union: hang root `b` below root `a`. */
    method Attach(a: nat, b: nat)
      requires Valid() && a < parent.Length && b < parent.Length && a != b
      requires parent[a] == a && parent[b] == b && rank[a] >= rank[b]
      modifies this`rep, this`level, this`top, parent, rank
      ensures Forest() && rep == Merge(old(rep), a, b) && |level| == |rep|
      ensures forall x :: 0 <= x < rank.Length ==> rank[x] < 256
      ensures pristine ==> Ranked(parent[..], rank[..], rep)
      ensures pristine && old(rank[a] == rank[b]) ==> rank[a] == old(rank[a]) + 1
    {
      hide Leveled, Represents, Climbs, Sized, Tracks, Accepted, Merge;
      ghost var p, k := parent[..], rank[..];
      LinkKeeps(p, level, top, rep, a, b);
      if pristine {
        LinkKeepsClimbs(p, k, a, b);
        LinkKeepsSized(p, k, rep, a, b);
        RankBound(p, k, rep, a);
      }
      parent[b] := a;
      if rank[a] == rank[b] { rank[a] := (rank[a] + 1) % 256; }
      assert parent[..] == p[b := a];
      assert pristine ==> rank[..] == LinkedRank(k, a, b);
      level := level[a := if level[a] > level[b] then level[a] else level[b] + 1];
      rep, top := Merge(rep, a, b), top + 1;
    }

    /** The union-find part of thread_cold_reset: `t` is cut loose from its parent, while other
        descriptors may still point to it. The links stay a forest; what the sets mean is lost
        unless `t` was still alone. */
    method Reset(t: nat)
      requires Valid() && t < parent.Length
      modifies this, parent, rank
      ensures Valid() && parent[t] == t && rank[t] == 0
      ensures pristine ==> old(pristine) && edges == old(edges) && rep == old(rep)
      ensures old(pristine && parent[t] == t && rank[t] == 0) ==> pristine
      ensures forall x :: 0 <= x < parent.Length && x != t ==> parent[x] == old(parent[x])
      ensures forall x :: 0 <= x < rank.Length && x != t ==> rank[x] == old(rank[x])
    {
      ghost var p := parent[..];
      pristine := pristine && parent[t] == t && rank[t] == 0;
      parent[t] := t;
      rank[t] := 0;
      assert parent[..] == p[t := t];
      if !pristine {
        rep := RootsRepresent(parent[..], level, top);
      } else {
        assert parent[..] == p && rank[..] == old(rank[..]);
      }
    }
  }
}
