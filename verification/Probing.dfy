/** The triangular probe sequence of the Swiss table (src/dedup.h:116-129), over any
    power-of-two number of groups. */
module Probing {
  import opened Basics

  /** The sum of the strides of the first `j` steps. */
  function Triangle(j: nat): nat { if j == 0 then 0 else Triangle(j - 1) + j }

  lemma {:induction false} TriangleFormula(j: nat)
    ensures 2 * Triangle(j) == j * (j + 1)
  {
    if j > 0 { TriangleFormula(j - 1); }
  }

  /** The probe after `j` calls of swiss_probe_next; its stride is `j`. */
  function Group(start: nat, j: nat, n: nat): (g: nat)
    requires n > 0
    ensures g < n
  {
    (start + Triangle(j)) % n
  }

  /** One call of swiss_probe_next: stride + 1, then group + stride, wrapped. */
  lemma NextGroup(start: nat, j: nat, n: nat)
    requires n > 0
    ensures Group(start, j + 1, n) == (Group(start, j, n) + (j + 1)) % n
  {
    var x := start + Triangle(j);
    assert x == n * (x / n) + x % n;
    ModAdd(x % n + j + 1, n, x / n);
  }

  lemma ModAdd(x: nat, n: nat, k: nat)
    requires n > 0
    ensures (x + n * k) % n == x % n
  {
    assert x == n * (x / n) + x % n;
    assert x + n * k == n * (x / n + k) + x % n;
    DivModUnique(x + n * k, n, x / n + k, x % n);
  }

  lemma MulMono(a: nat, b: nat, n: nat)
    requires a <= b
    ensures n * a <= n * b
  {}

  lemma DivModUnique(x: nat, n: nat, q: nat, r: nat)
    requires n > 0 && x == n * q + r && r < n
    ensures x % n == r
  {
    var q', r' := x / n, x % n;
    assert x == n * q' + r';
    if q < q' { MulMono(q + 1, q', n); } else if q' < q { MulMono(q' + 1, q, n); }
  }

  // ---------- No group is probed twice ----------

  /** If 2^e divides a * b and a is odd, then 2^e divides b. */
  lemma {:induction false} OddFactor(a: nat, b: nat, e: nat, c: nat) returns (d: nat)
    requires a % 2 == 1 && a * b == Pow2(e) * c
    ensures b == Pow2(e) * d
  {
    if e == 0 {
      d := b;
    } else {
      var h := Pow2(e - 1);
      assert a * b == 2 * (h * c);
      HalfOfEven(a, b, h * c);
      assert a * (b / 2) == h * c;
      d := OddFactor(a, b / 2, e - 1, c);
      assert b == 2 * (h * d) == Pow2(e) * d;
    }
  }

  lemma HalfOfEven(a: nat, b: nat, c: nat)
    requires a % 2 == 1 && a * b == 2 * c
    ensures b % 2 == 0 && a * (b / 2) == c
  {
    var k := a / 2;
    assert a == 2 * k + 1;
    assert a * b == 2 * (k * b) + b;
    assert b == 2 * (c - k * b);
    assert a * b == a * (2 * (b / 2)) == 2 * (a * (b / 2));
  }

  lemma TriangleGap(i: nat, j: nat)
    requires i < j
    ensures (j - i) * (j + i + 1) == 2 * (Triangle(j) - Triangle(i))
  {
    TriangleFormula(i);
    TriangleFormula(j);
    assert (j - i) * (j + i + 1) == j * (j + 1) - i * (i + 1);
  }

  /** Two of the first 2^m partial sums never agree modulo 2^m. */
  lemma TrianglesDiffer(m: nat, i: nat, j: nat, k: nat)
    requires i < j < Pow2(m)
    ensures Triangle(j) - Triangle(i) != Pow2(m) * k
  {
    TriangleGap(i, j);
    if Triangle(j) - Triangle(i) == Pow2(m) * k { ProductTooSmall(m, j - i, j + i + 1, k); }
  }

  /** Factors of opposite parity, both below 2^(m+1), cannot have a product divisible by it. */
  lemma ProductTooSmall(m: nat, x: nat, y: nat, k: nat)
    requires 0 < x < Pow2(m + 1) && 0 < y < Pow2(m + 1) && (x + y) % 2 == 1
    ensures x * y != 2 * (Pow2(m) * k)
  {
    var n := Pow2(m + 1);
    assert n * k == 2 * (Pow2(m) * k) by {
      assert n == 2 * Pow2(m);
      hide Pow2;
    }
    hide Pow2;
    if x % 2 == 1 { OddTooSmall(m + 1, x, y, k); } else { OddTooSmall(m + 1, y, x, k); }
    assert y * x == x * y;
  }

  lemma OddTooSmall(m: nat, x: nat, y: nat, k: nat)
    requires x % 2 == 1 && 0 < y < Pow2(m)
    ensures x * y != Pow2(m) * k
  {
    if x * y == Pow2(m) * k {
      var d := OddFactor(x, y, m, k);
      hide Pow2;
      Multiple(y, Pow2(m), d);
    }
  }

  /** A positive multiple is not below its factor. */
  lemma Multiple(x: nat, n: nat, d: nat)
    requires x == n * d && x > 0
    ensures x >= n
  {}

  lemma SameResidue(x: nat, y: nat, n: nat) returns (k: nat)
    requires n > 0 && x <= y && x % n == y % n
    ensures y - x == n * k
  {
    assert x == n * (x / n) + x % n && y == n * (y / n) + y % n;
    if y / n < x / n { MulMono(y / n + 1, x / n, n); }
    k := y / n - x / n;
    assert n * k == n * (y / n) - n * (x / n);
  }

  lemma GroupsDiffer(start: nat, m: nat, i: nat, j: nat)
    requires i < j < Pow2(m)
    ensures Group(start, i, Pow2(m)) != Group(start, j, Pow2(m))
  {
    TriangleMono(i, j);
    if Group(start, i, Pow2(m)) == Group(start, j, Pow2(m)) {
      var k := SameResidue(start + Triangle(i), start + Triangle(j), Pow2(m));
      TrianglesDiffer(m, i, j, k);
    }
  }

  lemma {:induction false} TriangleMono(i: nat, j: nat)
    requires i <= j
    ensures Triangle(i) <= Triangle(j)
    decreases j - i
  {
    if i < j { TriangleMono(i, j - 1); }
  }

  // ---------- Every group is probed ----------

  ghost function Visited(start: nat, m: nat, j: nat): set<nat> {
    set i | 0 <= i < j :: Group(start, i, Pow2(m))
  }

  lemma {:induction false} VisitedCount(start: nat, m: nat, j: nat)
    requires j <= Pow2(m)
    ensures |Visited(start, m, j)| == j
  {
    hide Group, Pow2;
    if j == 0 {
      assert Visited(start, m, 0) == {};
    } else {
      VisitedCount(start, m, j - 1);
      var g := Group(start, j - 1, Pow2(m));
      assert Visited(start, m, j) == Visited(start, m, j - 1) + {g};
      forall i | 0 <= i < j - 1 ensures Group(start, i, Pow2(m)) != g { GroupsDiffer(start, m, i, j - 1); }
    }
  }

  ghost function Below(n: nat): (s: set<nat>)
    ensures forall g: nat :: g in s <==> g < n
  {
    if n == 0 then {} else Below(n - 1) + {n - 1}
  }

  lemma {:induction false} BelowCount(n: nat)
    ensures |Below(n)| == n
  {
    if n > 0 { BelowCount(n - 1); }
  }

  lemma SubsetOfSameSize(a: set<nat>, b: set<nat>, x: nat)
    requires a <= b && |a| == |b| && x in b
    ensures x in a
  {
    assert b == a + (b - a) && |b - a| == 0;
    assert x !in b - a;
  }

  /** The first 2^m probes visit every one of the 2^m groups, each exactly once, from any start. */
  lemma ProbesCoverEachOnce(start: nat, m: nat, g: nat) returns (j: nat)
    requires g < Pow2(m)
    ensures j < Pow2(m) && Group(start, j, Pow2(m)) == g
    ensures forall i :: 0 <= i < Pow2(m) && Group(start, i, Pow2(m)) == g ==> i == j
  {
    VisitedCount(start, m, Pow2(m));
    BelowCount(Pow2(m));
    SubsetOfSameSize(Visited(start, m, Pow2(m)), Below(Pow2(m)), g);
    j :| 0 <= j < Pow2(m) && Group(start, j, Pow2(m)) == g;
    forall i | 0 <= i < Pow2(m) && Group(start, i, Pow2(m)) == g ensures i == j {
      if i < j { GroupsDiffer(start, m, i, j); } else if j < i { GroupsDiffer(start, m, j, i); }
    }
  }
}
