/** The 16-bit match masks of the Swiss table, kept in a 32-bit word (src/dedup.h:88-112) and
    taken apart with ctz and `m & (m - 1)` (src/dedup.h:145-152). */
module Masks {

  /** `1u << i` */
  function Bit(i: nat): bv32
    requires i < 16
  {
    if i < 8 then
      if i < 4 then (if i == 0 then 1 else if i == 1 then 2 else if i == 2 then 4 else 8)
      else (if i == 4 then 16 else if i == 5 then 32 else if i == 6 then 64 else 128)
    else
      if i < 12 then (if i == 8 then 256 else if i == 9 then 512 else if i == 10 then 1024 else 2048)
      else (if i == 12 then 4096 else if i == 13 then 8192 else if i == 14 then 16384 else 32768)
  }

  predicate Test(m: bv32, x: bv32) { m & x != 0 }

  predicate HasBit(m: bv32, i: nat)
    requires i < 16
  {
    Test(m, Bit(i))
  }

  /** `x` is a single bit; `y` is another one; nothing of `m` lies below `x`. */
  predicate Hot(x: bv32) { x != 0 && x & (x - 1) == 0 }
  predicate Apart(x: bv32, y: bv32) { x & y == 0 }
  predicate ClearBelow(m: bv32, x: bv32) { m & (x - 1) == 0 }

  predicate Narrow(m: bv32) { m & 0xFFFF_0000 == 0 }

  /** `__builtin_ctz` on a non-zero mask: the number of zero bits below the lowest one. */
  function CtzFrom(m: bv32, i: nat): (r: nat)
    requires i <= 16
    ensures i <= r <= 16
    ensures r < 16 ==> HasBit(m, r)
    ensures forall k :: i <= k < r ==> !HasBit(m, k)
    decreases 16 - i
  {
    if i == 16 || HasBit(m, i) then i else CtzFrom(m, i + 1)
  }

  function Ctz(m: bv32): nat { CtzFrom(m, 0) }

  ghost function Bits(m: bv32): set<nat> {
    set i | 0 <= i < 16 && HasBit(m, i)
  }

  lemma OneHot(i: nat)
    requires i < 16
    ensures Hot(Bit(i)) && Narrow(Bit(i))
  {}

  lemma BitsApart(i: nat, k: nat)
    requires i < 16 && k < 16 && i != k
    ensures Apart(Bit(i), Bit(k)) && Bit(i) != Bit(k)
  {}

  lemma OrWord(m: bv32, x: bv32, y: bv32)
    requires x != 0 && (x == y || x & y == 0)
    ensures (m | x) & y != 0 <==> m & y != 0 || x == y
  {}

  lemma OrNarrow(m: bv32, x: bv32)
    requires Narrow(m) && Narrow(x)
    ensures Narrow(m | x)
  {}

  lemma OrHas(m: bv32, x: bv32, y: bv32)
    requires Hot(x) && Narrow(x) && (x == y || Apart(x, y))
    ensures Test(m | x, y) <==> Test(m, y) || x == y
    ensures Narrow(m) ==> Narrow(m | x)
  {
    OrWord(m, x, y);
    if Narrow(m) { OrNarrow(m, x); }
  }

  lemma SetBit(m: bv32, i: nat, k: nat)
    requires i < 16 && k < 16
    ensures HasBit(m | Bit(i), k) <==> HasBit(m, k) || k == i
    ensures Narrow(m) ==> Narrow(m | Bit(i))
  {
    hide Bit, Test, Narrow, Hot, Apart, ClearBelow;
    OneHot(i);
    if i != k { BitsApart(i, k); }
    OrHas(m, Bit(i), Bit(k));
  }

  lemma SetBitAll(m: bv32, i: nat)
    requires i < 16 && Narrow(m)
    ensures Narrow(m | Bit(i))
    ensures forall k :: 0 <= k < 16 ==> (HasBit(m | Bit(i), k) <==> HasBit(m, k) || k == i)
  {
    hide Bit, HasBit, Narrow;
    forall k: nat | k < 16 ensures HasBit(m | Bit(i), k) <==> HasBit(m, k) || k == i { SetBit(m, i, k); }
    SetBit(m, i, 0);
  }

  lemma NoBitIsZero(m: bv32)
    requires Narrow(m) && forall i :: 0 <= i < 16 ==> !HasBit(m, i)
    ensures m == 0
  {
    assert !HasBit(m, 0) && !HasBit(m, 1) && !HasBit(m, 2) && !HasBit(m, 3);
    assert !HasBit(m, 4) && !HasBit(m, 5) && !HasBit(m, 6) && !HasBit(m, 7);
    assert !HasBit(m, 8) && !HasBit(m, 9) && !HasBit(m, 10) && !HasBit(m, 11);
    assert !HasBit(m, 12) && !HasBit(m, 13) && !HasBit(m, 14) && !HasBit(m, 15);
  }

  /** Below the lowest set bit everything is zero, so the mask minus one flips exactly the bits
      up to it. */
  lemma LowestBit(m: bv32, i: nat)
    requires i < 16 && Narrow(m) && HasBit(m, i) && forall k :: 0 <= k < i ==> !HasBit(m, k)
    ensures ClearBelow(m, Bit(i))
  {
    if i > 0 { assert !HasBit(m, 0); }
    if i > 1 { assert !HasBit(m, 1); }
    if i > 2 { assert !HasBit(m, 2); }
    if i > 3 { assert !HasBit(m, 3); }
    if i > 4 { assert !HasBit(m, 4); }
    if i > 5 { assert !HasBit(m, 5); }
    if i > 6 { assert !HasBit(m, 6); }
    if i > 7 { assert !HasBit(m, 7); }
    if i > 8 { assert !HasBit(m, 8); }
    if i > 9 { assert !HasBit(m, 9); }
    if i > 10 { assert !HasBit(m, 10); }
    if i > 11 { assert !HasBit(m, 11); }
    if i > 12 { assert !HasBit(m, 12); }
    if i > 13 { assert !HasBit(m, 13); }
    if i > 14 { assert !HasBit(m, 14); }
  }

  lemma ClearWord(m: bv32, x: bv32)
    requires x & (x - 1) == 0 && m & x != 0 && m & (x - 1) == 0
    ensures m & (m - 1) == m & !x
  {}

  lemma ClearTest(m: bv32, x: bv32, y: bv32)
    requires x & y == 0
    ensures (m & !x) & y == m & y
  {}

  lemma ClearSelf(m: bv32, x: bv32)
    ensures (m & !x) & x == 0
  {}

  lemma ClearNarrow(m: bv32, x: bv32)
    requires Narrow(m)
    ensures Narrow(m & x)
  {}

  lemma ClearTestSelf(m: bv32, x: bv32)
    requires Hot(x) && Test(m, x) && ClearBelow(m, x)
    ensures !Test(m & (m - 1), x)
  {
    ClearWord(m, x);
    ClearSelf(m, x);
  }

  lemma ClearTestOther(m: bv32, x: bv32, y: bv32)
    requires Hot(x) && Test(m, x) && ClearBelow(m, x) && Apart(x, y)
    ensures Test(m & (m - 1), y) <==> Test(m, y)
  {
    ClearWord(m, x);
    ClearTest(m, x, y);
  }

  lemma ClearOne(m: bv32, i: nat, k: nat)
    requires i < 16 && k < 16 && Narrow(m) && HasBit(m, i) && ClearBelow(m, Bit(i))
    ensures HasBit(m & (m - 1), k) <==> HasBit(m, k) && k != i
    ensures Narrow(m & (m - 1))
  {
    hide Bit, Test, Narrow, Hot, Apart, ClearBelow;
    OneHot(i);
    if i == k { ClearTestSelf(m, Bit(i)); } else { BitsApart(i, k); ClearTestOther(m, Bit(i), Bit(k)); }
    ClearNarrow(m, m - 1);
  }

  /** One round of the loop over a mask: ctz names the lowest member, `m & (m - 1)` removes
      exactly that one. */
  lemma NextBit(m: bv32)
    requires Narrow(m) && m != 0
    ensures Ctz(m) < 16 && Ctz(m) in Bits(m) && (forall k :: k in Bits(m) ==> Ctz(m) <= k)
    ensures Narrow(m & (m - 1)) && Bits(m & (m - 1)) == Bits(m) - {Ctz(m)}
  {
    if Ctz(m) == 16 { NoBitIsZero(m); }
    var i := Ctz(m);
    LowestBit(m, i);
    forall k: nat | k < 16 ensures k in Bits(m & (m - 1)) <==> k in Bits(m) && k != i { ClearOne(m, i, k); }
    ClearOne(m, i, 0);
  }

  lemma ZeroHasNoBit(m: bv32)
    requires Narrow(m)
    ensures m == 0 <==> Bits(m) == {}
  {
    if m != 0 { NextBit(m); }
  }
}
