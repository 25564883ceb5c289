/** The deduplication table (src/dedup.h): 256 groups of 16 slots, 7-bit tags, triangular
    probing, tombstones. The table refines a map from keys to thread pointers, for any hash. */
module SwissTable {
  import opened Basics
  import opened Masks
  import opened Probing

  const GROUP_SIZE: nat := 16
  const GROUPS: nat := 256
  const CAP: nat := 4096
  const EMPTY: int := -128
  const DELETED: int := -2

  type Ptr = nat
  const NULL: Ptr := 0

  datatype Key = Key(func: Ptr, arg: Ptr)

  // ---------- Hashing ----------

  const TWO64: nat := 0x1_0000_0000_0000_0000
  const MAGIC_FUNC: nat := 11400714819323198485
  const MAGIC_ARG: nat := 7046029254386353131

  /** dedup_hash_full: two 64-bit products, combined by exclusive or. */
  function HashFull(k: Key): nat {
    (((k.func * MAGIC_FUNC) % TWO64) as bv64 ^ ((k.arg * MAGIC_ARG) % TWO64) as bv64) as nat
  }

  /** `(h >> 50) & SWISS_GROUP_MASK` */
  function GroupIndex(h: nat): (g: nat)
    ensures g < GROUPS
  {
    h / 0x4_0000_0000_0000 % GROUPS
  }

  /** `(h >> 43) & 0x7F` */
  function Tag(h: nat): (t: int)
    ensures 0 <= t < 128
  {
    h / 0x800_0000_0000 % 128
  }

  /** The group probed at step `j`. */
  function ProbeAt(h: nat, j: nat): (g: nat)
    ensures g < GROUPS
  {
    Group(GroupIndex(h), j, GROUPS)
  }

  // ---------- What a well-formed table is ----------

  /** Where a key is stored: its slot, and the step of its probe path that reaches the group. */
  datatype Place = Place(slot: nat, step: nat)

  ghost predicate Legal(c: seq<int>) {
    |c| == CAP && forall s :: 0 <= s < CAP ==> c[s] == EMPTY || c[s] == DELETED || 0 <= c[s] < 128
  }

  /** Slot `i` of group `g`. */
  function SlotOf(g: nat, i: nat): (s: nat)
    requires g < GROUPS && i < GROUP_SIZE
    ensures s < CAP && s / GROUP_SIZE == g && s % GROUP_SIZE == i
  {
    GROUP_SIZE * g + i
  }

  ghost predicate GroupHasEmpty(c: seq<int>, g: nat)
    requires |c| == CAP && g < GROUPS
  {
    exists i :: 0 <= i < GROUP_SIZE && c[SlotOf(g, i)] == EMPTY
  }

  /** No EMPTY slot in the groups probed before step `j`. */
  ghost predicate NoEmptyBefore(c: seq<int>, h: nat, j: nat)
    requires |c| == CAP
  {
    forall i :: 0 <= i < j ==> !GroupHasEmpty(c, ProbeAt(h, i))
  }

  /** Key `k` sits at `p`, and its probe path gets there without meeting an EMPTY slot. */
  ghost predicate Sits(c: seq<int>, keys: seq<Key>, h: nat, k: Key, p: Place) {
    && |c| == |keys| == CAP
    && p.slot < CAP && p.step < GROUPS && c[p.slot] == Tag(h) && keys[p.slot] == k
    && p.slot / GROUP_SIZE == ProbeAt(h, p.step) && NoEmptyBefore(c, h, p.step)
  }

  ghost predicate AllSit(c: seq<int>, keys: seq<Key>, hash: Key -> nat, places: map<Key, Place>) {
    forall k :: k in places ==> Sits(c, keys, hash(k), k, places[k])
  }

  /** Every occupied slot holds a stored key, and every key has one slot only. */
  ghost predicate Indexed(c: seq<int>, keys: seq<Key>, places: map<Key, Place>) {
    && |c| == |keys| == CAP
    && forall s :: 0 <= s < CAP && c[s] >= 0 ==> keys[s] in places && places[keys[s]].slot == s
  }

  ghost predicate WellFormed(c: seq<int>, keys: seq<Key>, hash: Key -> nat, places: map<Key, Place>) {
    Legal(c) && AllSit(c, keys, hash, places) && Indexed(c, keys, places)
  }

  // ---------- Lemmas about the operations ----------

  /** Some step below 256 reaches the group of any given slot. */
  lemma StepReaching(h: nat, slot: nat) returns (j: nat)
    requires slot < CAP
    ensures j < GROUPS && ProbeAt(h, j) == slot / GROUP_SIZE
  {
    assert Pow2(8) == GROUPS;
    j := ProbesCoverEachOnce(GroupIndex(h), 8, slot / GROUP_SIZE);
  }

  /** A group that never held the key and has an EMPTY slot ends the search rightly. */
  lemma AbsentAfter(c: seq<int>, keys: seq<Key>, hash: Key -> nat, places: map<Key, Place>, k: Key, j: nat)
    requires WellFormed(c, keys, hash, places)
    requires GroupHasEmpty(c, ProbeAt(hash(k), j))
    requires k in places ==> places[k].step > j
    ensures k !in places
  {}

  lemma StoreKeeps(c: seq<int>, keys: seq<Key>, hash: Key -> nat, places: map<Key, Place>, k: Key, slot: nat, j: nat)
    requires WellFormed(c, keys, hash, places) && k !in places
    requires slot < CAP && c[slot] < 0 && j < GROUPS
    requires slot / GROUP_SIZE == ProbeAt(hash(k), j) && NoEmptyBefore(c, hash(k), j)
    ensures WellFormed(c[slot := Tag(hash(k))], keys[slot := k], hash, places[k := Place(slot, j)])
  {
    var c', keys', places' := c[slot := Tag(hash(k))], keys[slot := k], places[k := Place(slot, j)];
    forall g | 0 <= g < GROUPS && GroupHasEmpty(c', g) ensures GroupHasEmpty(c, g) {
      FewerEmptyIn(c, slot, Tag(hash(k)), g);
    }
    FewerEmpty(c, c', hash(k), j);
    forall q | q in places' ensures Sits(c', keys', hash(q), q, places'[q]) {
      if q != k {
        assert Sits(c, keys, hash(q), q, places[q]);
        FewerEmpty(c, c', hash(q), places[q].step);
      }
    }
  }

  lemma FewerEmptyIn(c: seq<int>, slot: nat, x: int, g: nat)
    requires |c| == CAP && slot < CAP && g < GROUPS && x != EMPTY && GroupHasEmpty(c[slot := x], g)
    ensures GroupHasEmpty(c, g)
  {
    var i :| 0 <= i < GROUP_SIZE && c[slot := x][SlotOf(g, i)] == EMPTY;
    assert c[SlotOf(g, i)] == EMPTY;
  }

  lemma FewerEmpty(c: seq<int>, c': seq<int>, h: nat, n: nat)
    requires |c| == |c'| == CAP && NoEmptyBefore(c, h, n)
    requires forall g :: 0 <= g < GROUPS && GroupHasEmpty(c', g) ==> GroupHasEmpty(c, g)
    ensures NoEmptyBefore(c', h, n)
  {}

  /** What remove writes into the control byte: EMPTY only if the group already has one. */
  ghost function Tombstone(c: seq<int>, slot: nat): int
    requires |c| == CAP && slot < CAP
  {
    if GroupHasEmpty(c, slot / GROUP_SIZE) then EMPTY else DELETED
  }

  /** ... so removal changes for no group whether a search stops there. */
  lemma TombstoneKeepsStops(c: seq<int>, slot: nat, g: nat)
    requires |c| == CAP && slot < CAP && g < GROUPS && c[slot] >= 0
    ensures GroupHasEmpty(c[slot := Tombstone(c, slot)], g) <==> GroupHasEmpty(c, g)
  {
    var c' := c[slot := Tombstone(c, slot)];
    if GroupHasEmpty(c, g) {
      var i :| 0 <= i < GROUP_SIZE && c[SlotOf(g, i)] == EMPTY;
      assert c'[SlotOf(g, i)] == EMPTY;
    }
    if GroupHasEmpty(c', g) {
      var i :| 0 <= i < GROUP_SIZE && c'[SlotOf(g, i)] == EMPTY;
      if SlotOf(g, i) != slot { assert c[SlotOf(g, i)] == EMPTY; }
    }
  }

  lemma RemoveKeeps(c: seq<int>, keys: seq<Key>, hash: Key -> nat, places: map<Key, Place>, k: Key)
    requires WellFormed(c, keys, hash, places) && k in places
    ensures places[k].slot < CAP
    ensures WellFormed(c[places[k].slot := Tombstone(c, places[k].slot)], keys, hash, places - {k})
  {
    assert Sits(c, keys, hash(k), k, places[k]);
    var slot := places[k].slot;
    var c' := c[slot := Tombstone(c, slot)];
    forall g | 0 <= g < GROUPS ensures GroupHasEmpty(c', g) <==> GroupHasEmpty(c, g) {
      TombstoneKeepsStops(c, slot, g);
    }
    forall q | q in places - {k} ensures Sits(c', keys, hash(q), q, places[q]) {
      assert Sits(c, keys, hash(q), q, places[q]);
      FewerEmpty(c, c', hash(q), places[q].step);
    }
  }

  /** Stored keys have occupied slots, different keys different ones. */
  ghost predicate SomeEmpty(c: seq<int>) {
    exists s :: 0 <= s < |c| && c[s] == EMPTY
  }

  lemma TombstoneKeepsEmpty(c: seq<int>, slot: nat)
    requires |c| == CAP && slot < CAP && c[slot] >= 0
    ensures SomeEmpty(c[slot := Tombstone(c, slot)]) <==> SomeEmpty(c)
  {
    var c' := c[slot := Tombstone(c, slot)];
    if SomeEmpty(c) {
      var s :| 0 <= s < |c| && c[s] == EMPTY;
      assert c'[s] == EMPTY;
    }
    if SomeEmpty(c') {
      var s :| 0 <= s < |c'| && c'[s] == EMPTY;
      assert s != slot ==> c[s] == EMPTY;
    }
  }

  lemma SlotsTaken(c: seq<int>, keys: seq<Key>, hash: Key -> nat, places: map<Key, Place>)
    requires WellFormed(c, keys, hash, places)
    ensures forall k :: k in places ==> places[k].slot < CAP && c[places[k].slot] >= 0 && keys[places[k].slot] == k
  {
    forall k | k in places ensures places[k].slot < CAP && c[places[k].slot] >= 0 && keys[places[k].slot] == k {
      assert Sits(c, keys, hash(k), k, places[k]);
    }
  }

  /** Sets with a one-to-one correspondence have the same size. */
  lemma {:induction false} SameSize<A, B>(a: set<A>, b: set<B>, f: map<A, B>)
    requires f.Keys == a && (forall x :: x in a ==> f[x] in b)
    requires forall x, y :: x in a && y in a && f[x] == f[y] ==> x == y
    requires forall z :: z in b ==> exists x :: x in a && f[x] == z
    ensures |a| == |b|
    decreases a
  {
    if a == {} {
      assert b == {};
    } else {
      var x :| x in a;
      forall z | z in b - {f[x]} ensures exists y :: y in a - {x} && (f - {x})[y] == z {
        var y :| y in a && f[y] == z;
        assert (f - {x})[y] == z;
      }
      SameSize(a - {x}, b - {f[x]}, f - {x});
    }
  }

  ghost function Upto(n: nat): (r: set<nat>)
    ensures |r| == n && forall s: nat :: s in r <==> s < n
  {
    if n == 0 then {} else Upto(n - 1) + {n - 1}
  }

  lemma {:induction false} SubsetSize<A>(a: set<A>, b: set<A>)
    requires a <= b
    ensures |a| <= |b| && (|a| == |b| <==> a == b)
    decreases a
  {
    if a != {} {
      var x :| x in a;
      SubsetSize(a - {x}, b - {x});
      if a - {x} == b - {x} { assert a == (b - {x}) + {x}; }
    }
  }

  lemma CountRoom(c: seq<int>, taken: set<nat>, n: nat)
    requires |c| == n && forall s: nat :: s in taken <==> s < n && c[s] >= 0
    ensures |taken| <= n && ((exists s :: 0 <= s < n && c[s] < 0) <==> |taken| < n)
  {
    var all := Upto(n);
    SubsetSize(taken, all);
    if s :| 0 <= s < n && c[s] < 0 { assert s in all && s !in taken; }
    if taken != all {
      var s: nat :| s in all && s !in taken;
      assert c[s] < 0;
    }
  }

  lemma TakenSize(c: seq<int>, keys: seq<Key>, hash: Key -> nat, places: map<Key, Place>, taken: set<nat>)
    requires WellFormed(c, keys, hash, places) && forall s: nat :: s in taken <==> s < CAP && c[s] >= 0
    ensures |places| == |taken|
  {
    SlotsTaken(c, keys, hash, places);
    var slot := map k | k in places.Keys :: places[k].slot;
    forall z | z in taken ensures exists k :: k in places.Keys && slot[k] == z {
      assert keys[z] in places.Keys && slot[keys[z]] == z;
    }
    hide WellFormed;
    SameSize(places.Keys, taken, slot);
    assert |places| == |places.Keys|;
  }

  /** Some slot is free exactly while fewer than 4096 keys are stored. */
  lemma RoomExact(c: seq<int>, keys: seq<Key>, hash: Key -> nat, places: map<Key, Place>)
    requires WellFormed(c, keys, hash, places)
    ensures (exists s :: 0 <= s < CAP && c[s] < 0) <==> |places| < CAP
    ensures |places| <= CAP
  {
    var taken := set s: nat | s < CAP && c[s] >= 0;
    TakenSize(c, keys, hash, places, taken);
    CountRoom(c, taken, CAP);
  }

  /** When neither the key nor any EMPTY slot is in the table, no probe step ever stops a search:
      the loops of dedup_lookup and dedup_remove then run forever. */
  lemma SearchNeverStops(c: seq<int>, keys: seq<Key>, hash: Key -> nat, places: map<Key, Place>, k: Key, j: nat)
    requires WellFormed(c, keys, hash, places) && k !in places
    requires forall s :: 0 <= s < CAP ==> c[s] != EMPTY
    ensures !GroupHasEmpty(c, ProbeAt(hash(k), j))
    ensures forall i :: 0 <= i < GROUP_SIZE ==>
              !(c[SlotOf(ProbeAt(hash(k), j), i)] == Tag(hash(k)) && keys[SlotOf(ProbeAt(hash(k), j), i)] == k)
  {}

  lemma ZeroMask()
    ensures Narrow(0) && forall k :: 0 <= k < 16 ==> !HasBit(0, k)
  {
    ZeroHasNoBit(0);
    forall k | 0 <= k < 16 ensures !HasBit(0, k) { assert k !in Bits(0); }
  }

  lemma EmptyMask(c: seq<int>, group: nat, mask: bv32)
    requires |c| == CAP && group < GROUPS && Narrow(mask)
    requires forall i :: 0 <= i < GROUP_SIZE ==> (HasBit(mask, i) <==> c[SlotOf(group, i)] == EMPTY)
    ensures mask != 0 <==> GroupHasEmpty(c, group)
  {
    ZeroHasNoBit(mask);
    if mask != 0 { var i :| i in Bits(mask); assert c[SlotOf(group, i)] == EMPTY; }
    if GroupHasEmpty(c, group) {
      var i :| 0 <= i < GROUP_SIZE && c[SlotOf(group, i)] == EMPTY;
      assert i in Bits(mask);
    }
  }

  lemma NoFreeNoEmpty(c: seq<int>, group: nat, mask: bv32)
    requires |c| == CAP && group < GROUPS && Narrow(mask) && mask == 0
    requires forall i :: 0 <= i < GROUP_SIZE ==> (HasBit(mask, i) <==> c[SlotOf(group, i)] < 0)
    ensures forall i :: 0 <= i < GROUP_SIZE ==> c[SlotOf(group, i)] >= 0
    ensures !GroupHasEmpty(c, group)
  {
    ZeroHasNoBit(mask);
    forall i | 0 <= i < GROUP_SIZE ensures c[SlotOf(group, i)] >= 0 { assert i !in Bits(mask); }
  }

  /** No slot that is EMPTY or DELETED in the groups probed before step `j`. */
  ghost predicate NoFreeBefore(c: seq<int>, h: nat, j: nat)
    requires |c| == CAP
  {
    forall i, k :: 0 <= i < j && 0 <= k < GROUP_SIZE ==> c[SlotOf(ProbeAt(h, i), k)] >= 0
  }

  lemma NoFreeYet(c: seq<int>, h: nat)
    requires |c| == CAP
    ensures NoFreeBefore(c, h, 0) && ProbeAt(h, 0) == GroupIndex(h)
  {
  }

  lemma NoFreeMore(c: seq<int>, h: nat, j: nat, mask: bv32)
    requires |c| == CAP && NoFreeBefore(c, h, j) && Narrow(mask) && mask == 0
    requires forall i :: 0 <= i < GROUP_SIZE ==> (HasBit(mask, i) <==> c[SlotOf(ProbeAt(h, j), i)] < 0)
    ensures NoFreeBefore(c, h, j + 1)
    ensures forall s: nat :: s < CAP && s / GROUP_SIZE == ProbeAt(h, j) ==> c[s] >= 0
  {
    NoFreeNoEmpty(c, ProbeAt(h, j), mask);
    forall s: nat | s < CAP && s / GROUP_SIZE == ProbeAt(h, j) ensures c[s] >= 0 {
      assert s == SlotOf(s / GROUP_SIZE, s % GROUP_SIZE);
    }
  }

  lemma NoFreeMeansNoEmpty(c: seq<int>, h: nat, j: nat)
    requires |c| == CAP && NoFreeBefore(c, h, j)
    ensures NoEmptyBefore(c, h, j)
  {
    forall i | 0 <= i < j ensures !GroupHasEmpty(c, ProbeAt(h, i)) {
      forall k | 0 <= k < GROUP_SIZE ensures c[SlotOf(ProbeAt(h, i), k)] != EMPTY {}
    }
  }

  /** One step along the probe path. */
  lemma NextProbe(h: nat, j: nat)
    ensures ProbeAt(h, j + 1) == (ProbeAt(h, j) + (j + 1)) % GROUPS
  {
    NextGroup(GroupIndex(h), j, GROUPS);
  }

  /** The lowest member of the mask. */
  lemma LowestFree(c: seq<int>, group: nat, mask: bv32)
    requires |c| == CAP && group < GROUPS && Narrow(mask) && mask != 0
    requires forall i :: 0 <= i < GROUP_SIZE ==> (HasBit(mask, i) <==> c[SlotOf(group, i)] < 0)
    ensures Ctz(mask) < GROUP_SIZE && c[SlotOf(group, Ctz(mask))] < 0
    ensures forall k :: 0 <= k < Ctz(mask) ==> c[SlotOf(group, k)] >= 0
  {
    NextBit(mask);
    forall k | 0 <= k < Ctz(mask) ensures c[SlotOf(group, k)] >= 0 { assert k !in Bits(mask); }
  }

  // ---------- The table in memory ----------

  ghost function Zip(kf: seq<Ptr>, ka: seq<Ptr>): (keys: seq<Key>)
    requires |kf| == |ka|
    ensures |keys| == |kf| && forall s :: 0 <= s < |kf| ==> keys[s] == Key(kf[s], ka[s])
  {
    seq(|kf|, s requires 0 <= s < |kf| => Key(kf[s], ka[s]))
  }

  class Table {
    const hash: Key -> nat
    const ctrl: array<int>
    const keyFunc: array<Ptr>
    const keyArg: array<Ptr>
    const val: array<Ptr>
    ghost var places: map<Key, Place>

    ghost predicate Valid()
      reads this, ctrl, keyFunc, keyArg, val
    {
      && keyFunc != keyArg && keyArg != val && val != keyFunc
      && ctrl.Length == keyFunc.Length == keyArg.Length == val.Length == CAP
      && WellFormed(ctrl[..], Zip(keyFunc[..], keyArg[..]), hash, places)
    }

    /** The map the table stands for. */
    ghost function Contents(): (m: map<Key, Ptr>)
      requires Valid()
      reads this, ctrl, keyFunc, keyArg, val
      ensures m.Keys == places.Keys
    {
      map k | k in places ::
        (assert Sits(ctrl[..], Zip(keyFunc[..], keyArg[..]), hash(k), k, places[k]); val[places[k].slot])
    }

    predicate HasEmpty()
      requires ctrl.Length == CAP
      reads ctrl
    {
      exists s :: 0 <= s < CAP && ctrl[s] == EMPTY
    }

    predicate HasRoom()
      requires ctrl.Length == CAP
      reads ctrl
    {
      exists s :: 0 <= s < CAP && ctrl[s] < 0
    }

    /** dedup_mem_init */
    constructor (hash: Key -> nat)
      ensures Valid() && Contents() == map[] && HasEmpty() && this.hash == hash
      ensures fresh(ctrl) && fresh(keyFunc) && fresh(keyArg) && fresh(val)
    {
      this.hash := hash;
      ctrl := new int[CAP](_ => EMPTY);
      keyFunc := new Ptr[CAP](_ => NULL);
      keyArg := new Ptr[CAP](_ => NULL);
      val := new Ptr[CAP](_ => NULL);
      places := map[];
      new;
      assert ctrl[0] == EMPTY;
    }

    /** swiss_match and, with tag EMPTY, swiss_match_empty. */
    method Match(group: nat, tag: int) returns (mask: bv32)
      requires ctrl.Length == CAP && group < GROUPS
      ensures Narrow(mask) && forall i :: 0 <= i < GROUP_SIZE ==> (HasBit(mask, i) <==> ctrl[SlotOf(group, i)] == tag)
    {

      mask := 0;
      ZeroMask();
      for i := 0 to GROUP_SIZE
        invariant Narrow(mask)
        invariant forall k :: 0 <= k < i ==> (HasBit(mask, k) <==> ctrl[SlotOf(group, k)] == tag)
        invariant forall k :: i <= k < GROUP_SIZE ==> !HasBit(mask, k)
      {
        if ctrl[SlotOf(group, i)] == tag {
          ghost var m0 := mask;
          SetBitAll(mask, i);
          mask := mask | Bit(i);
          assert forall k :: i < k < GROUP_SIZE ==> !HasBit(m0, k) && (HasBit(mask, k) <==> HasBit(m0, k) || k == i);
        }
      }
    }

    /** swiss_match_empty_or_deleted */
    method MatchFree(group: nat) returns (mask: bv32)
      requires ctrl.Length == CAP && group < GROUPS
      ensures Narrow(mask) && forall i :: 0 <= i < GROUP_SIZE ==> (HasBit(mask, i) <==> ctrl[SlotOf(group, i)] < 0)
    {

      mask := 0;
      ZeroMask();
      for i := 0 to GROUP_SIZE
        invariant Narrow(mask)
        invariant forall k :: 0 <= k < i ==> (HasBit(mask, k) <==> ctrl[SlotOf(group, k)] < 0)
        invariant forall k :: i <= k < GROUP_SIZE ==> !HasBit(mask, k)
      {
        if ctrl[SlotOf(group, i)] < 0 {
          ghost var m0 := mask;
          SetBitAll(mask, i);
          mask := mask | Bit(i);
          assert forall k :: i < k < GROUP_SIZE ==> !HasBit(m0, k) && (HasBit(mask, k) <==> HasBit(m0, k) || k == i);
        }
      }
    }

    /** The inner loop of dedup_lookup and dedup_remove: the member of the mask, if any, whose
        slot holds the key. */
    method FindInGroup(group: nat, mask: bv32, key: Key) returns (found: bool, i: nat)
      requires ctrl.Length == keyFunc.Length == keyArg.Length == CAP && group < GROUPS && Narrow(mask)
      ensures found ==> i < GROUP_SIZE && HasBit(mask, i)
                        && keyFunc[SlotOf(group, i)] == key.func && keyArg[SlotOf(group, i)] == key.arg
      ensures !found ==> forall k :: 0 <= k < GROUP_SIZE && HasBit(mask, k) ==>
                !(keyFunc[SlotOf(group, k)] == key.func && keyArg[SlotOf(group, k)] == key.arg)
    {

      var match_ := mask;
      ZeroHasNoBit(match_);
      while match_ != 0
        invariant Narrow(match_) && (match_ == 0 <==> Bits(match_) == {}) && Bits(match_) <= Bits(mask)
        invariant forall k :: k in Bits(mask) - Bits(match_) ==>
                    !(keyFunc[SlotOf(group, k)] == key.func && keyArg[SlotOf(group, k)] == key.arg)
        decreases Bits(match_)
      {
        NextBit(match_);
        i := Ctz(match_);
        var slot := SlotOf(group, i);
        if keyFunc[slot] == key.func && keyArg[slot] == key.arg { return true, i; }
        match_ := match_ & (match_ - 1);
        ZeroHasNoBit(match_);
      }
      assert forall k :: 0 <= k < GROUP_SIZE && HasBit(mask, k) ==> k in Bits(mask) - {};
      return false, 0;
    }

    /** Where the probe path of `key` is bound to end: at the key, or at an EMPTY slot. */
    lemma SearchBound(key: Key) returns (bound: nat)
      requires Valid() && (key in places || HasEmpty())
      ensures bound < GROUPS
      ensures key in places ==> bound == places[key].step
      ensures key !in places ==> GroupHasEmpty(ctrl[..], ProbeAt(hash(key), bound))
    {
      if key in places {
        assert Sits(ctrl[..], Zip(keyFunc[..], keyArg[..]), hash(key), key, places[key]);
        bound := places[key].step;
      } else {
        var s :| 0 <= s < CAP && ctrl[s] == EMPTY;
        bound := StepReaching(hash(key), s);
        assert ctrl[..][SlotOf(s / GROUP_SIZE, s % GROUP_SIZE)] == EMPTY;
      }
    }

    lemma FoundIsPlaced(key: Key, slot: nat)
      requires Valid() && slot < CAP && ctrl[slot] == Tag(hash(key))
      requires keyFunc[slot] == key.func && keyArg[slot] == key.arg
      ensures key in places && places[key].slot == slot
    {
      assert ctrl[..][slot] >= 0;
      assert Zip(keyFunc[..], keyArg[..])[slot] == key;
    }

    lemma MissedHere(key: Key, group: nat)
      requires Valid() && group < GROUPS
      requires forall i :: 0 <= i < GROUP_SIZE && ctrl[SlotOf(group, i)] == Tag(hash(key)) ==>
                 !(keyFunc[SlotOf(group, i)] == key.func && keyArg[SlotOf(group, i)] == key.arg)
      ensures key in places ==> ProbeAt(hash(key), places[key].step) != group
    {
      if key in places {
        assert Sits(ctrl[..], Zip(keyFunc[..], keyArg[..]), hash(key), key, places[key]);
        var s := places[key].slot;
        assert s == SlotOf(s / GROUP_SIZE, s % GROUP_SIZE);
      }
    }

    lemma NoStopBeforeKey(key: Key, j: nat)
      requires Valid() && key in places && j < places[key].step
      ensures !GroupHasEmpty(ctrl[..], ProbeAt(hash(key), j))
    {
      assert Sits(ctrl[..], Zip(keyFunc[..], keyArg[..]), hash(key), key, places[key]);
    }

    /** The probe loop shared by dedup_lookup and dedup_remove. It ends within 256 groups as soon
        as the key or some EMPTY slot is in the table, and it finds the key if it is there. */
    method Search(key: Key) returns (found: bool, slot: nat, group: nat, ghost probes: nat)
      requires Valid() && (key in places || HasEmpty())
      ensures found <==> key in places
      ensures found ==> slot == places[key].slot && slot < CAP && group == slot / GROUP_SIZE
      ensures 1 <= probes <= GROUPS
    {
      var h := hash(key);
      var tag := Tag(h);
      group := GroupIndex(h);
      var stride := 0;
      ghost var bound := SearchBound(key);
      slot := 0;
      while true
        invariant stride <= bound && group == ProbeAt(h, stride)
        decreases bound - stride
      {
        var mask := Match(group, tag);
        var i;
        found, i := FindInGroup(group, mask, key);
        probes := stride + 1;
        if found {
          slot := SlotOf(group, i);
          FoundIsPlaced(key, slot);
          return;
        }
        MissedHere(key, group);
        var empty := Match(group, EMPTY);
        EmptyMask(ctrl[..], group, empty);
        if empty != 0 {
          if key in places && stride < bound { NoStopBeforeKey(key, stride); }
          return;
        }
        NextGroup(GroupIndex(h), stride, GROUPS);
        stride := stride + 1;
        group := (group + stride) % GROUPS;
      }
    }

    /** dedup_lookup: the stored thread, or NULL if the key is absent. */
    method Lookup(key: Key) returns (r: Ptr)
      requires Valid() && (key in Contents() || HasEmpty())
      ensures r == if key in Contents() then Contents()[key] else NULL
    {
      var found, slot, group, probes := Search(key);
      r := if found then val[slot] else NULL;
    }

    /** The probe loop of dedup_insert: the first slot that is EMPTY or DELETED on the path, within
        256 groups as soon as there is one. */
    method FindFree(key: Key) returns (slot: nat, ghost step: nat)
      requires Valid() && HasRoom()
      ensures slot < CAP && ctrl[slot] < 0 && step < GROUPS
      ensures slot / GROUP_SIZE == ProbeAt(hash(key), step) && NoFreeBefore(ctrl[..], hash(key), step)
      ensures forall k :: 0 <= k < slot % GROUP_SIZE ==> ctrl[SlotOf(slot / GROUP_SIZE, k)] >= 0
    {
      hide WellFormed, NoFreeBefore, ProbeAt, Group, HasBit;
      var h := hash(key);
      var group, stride := GroupIndex(h), 0;
      NoFreeYet(ctrl[..], h);
      ghost var free :| 0 <= free < CAP && ctrl[free] < 0;
      ghost var bound := StepReaching(h, free);
      while true
        invariant stride <= bound && group == ProbeAt(h, stride) && NoFreeBefore(ctrl[..], h, stride)
        decreases bound - stride
      {
        var avail := MatchFree(group);
        if avail != 0 {
          LowestFree(ctrl[..], group, avail);
          return SlotOf(group, Ctz(avail)), stride;
        }
        NoFreeMore(ctrl[..], h, stride, avail);
        NextProbe(h, stride);
        stride := stride + 1;
        group := (group + stride) % GROUPS;
      }
    }

    /** dedup_insert: adds the key without looking for it first; it needs it to be absent, and
        some slot that is EMPTY or DELETED. */
    method Insert(key: Key, t: Ptr)
      requires Valid() && key !in Contents() && HasRoom()
      modifies this, ctrl, keyFunc, keyArg, val
      ensures Valid() && Contents() == old(Contents())[key := t]
      ensures HasEmpty() ==> old(HasEmpty())
    {
      hide WellFormed, NoEmptyBefore, ProbeAt, Tag;
      ghost var step;
      var slot;
      slot, step := FindFree(key);
      NoFreeMeansNoEmpty(ctrl[..], hash(key), step);
      TagInRange(hash(key));
      StoreAt(key, t, slot, Tag(hash(key)), step);
    }

    lemma TagInRange(h: nat)
      ensures Tag(h) >= 0
    {
    }

    /** The four stores of dedup_insert. */
    method StoreAt(key: Key, t: Ptr, slot: nat, tag: int, ghost step: nat)
      requires Valid() && key !in places && slot < CAP && ctrl[slot] < 0 && 0 <= tag == Tag(hash(key)) && step < GROUPS
      requires slot / GROUP_SIZE == ProbeAt(hash(key), step) && NoEmptyBefore(ctrl[..], hash(key), step)
      modifies this, ctrl, keyFunc, keyArg, val
      ensures Valid() && Contents() == old(Contents())[key := t]
      ensures HasEmpty() ==> old(HasEmpty())
    {
      hide WellFormed, NoEmptyBefore, ProbeAt, Tag;
      ghost var c, keys := ctrl[..], Zip(keyFunc[..], keyArg[..]);
      StoreKeeps(c, keys, hash, places, key, slot, step);
      SlotsTaken(c, keys, hash, places);
      ctrl[slot] := tag;
      keyFunc[slot] := key.func;
      keyArg[slot] := key.arg;
      val[slot] := t;
      places := places[key := Place(slot, step)];
      assert ctrl[..] == c[slot := tag];
      assert Zip(keyFunc[..], keyArg[..]) == keys[slot := key];
    }

    /** dedup_remove: takes the key out; an absent key changes nothing. */
    method Remove(key: Key)
      requires Valid() && (key in Contents() || HasEmpty())
      modifies this, ctrl, val
      ensures Valid() && Contents() == old(Contents()) - {key}
      ensures HasEmpty() <==> old(HasEmpty())
    {
      hide WellFormed, GroupHasEmpty, Zip, HasBit, Narrow, SlotOf;
      var found, slot, group, probes := Search(key);
      if found {
        var empty := Match(group, EMPTY);
        EmptyMask(ctrl[..], group, empty);
        ghost var c, keys := ctrl[..], Zip(keyFunc[..], keyArg[..]);
        RemoveKeeps(c, keys, hash, places, key);
        SlotsTaken(c, keys, hash, places);
        TombstoneKeepsEmpty(c, slot);
        assert HasEmpty() <==> SomeEmpty(c);
        ctrl[slot] := if empty != 0 then EMPTY else DELETED;
        val[slot] := NULL;
        places := places - {key};
        assert ctrl[..] == c[slot := Tombstone(c, slot)];
        assert HasEmpty() <==> SomeEmpty(ctrl[..]);
      }
    }

    // ---------- A table without EMPTY slots ----------

    lemma RoomKnown()
      requires Valid()
      ensures HasRoom() <==> |Contents()| < CAP
    {
      RoomExact(ctrl[..], Zip(keyFunc[..], keyArg[..]), hash, places);
      assert |Contents()| == |Contents().Keys| == |places.Keys| == |places|;
      if s :| 0 <= s < CAP && ctrl[..][s] < 0 { assert ctrl[s] < 0; }
      if HasRoom() { var s :| 0 <= s < CAP && ctrl[s] < 0; assert ctrl[..][s] < 0; }
    }

    function First(keys: seq<Key>, n: nat): set<Key>
      requires n <= |keys|
    {
      set k | k in keys[..n]
    }

    lemma OneMore(m: map<Key, Ptr>, keys: seq<Key>, i: nat, t: Ptr)
      requires i < |keys| && m.Keys == First(keys, i) && forall j :: 0 <= j < i ==> keys[j] != keys[i]
      ensures keys[i] !in m && |m[keys[i] := t]| == |m| + 1
      ensures m[keys[i] := t].Keys == First(keys, i + 1)
    {
      assert keys[..i + 1] == keys[..i] + [keys[i]];
      assert m[keys[i] := t].Keys == m.Keys + {keys[i]};
    }

    /** As many keys as there are slots. */
    method Fill(keys: seq<Key>, t: Ptr)
      requires Valid() && Contents() == map[] && |keys| == CAP && forall i, j :: 0 <= i < j < CAP ==> keys[i] != keys[j]
      modifies this, ctrl, keyFunc, keyArg, val
      ensures Valid() && Contents().Keys == (set k | k in keys) && !HasRoom()
    {
      hide WellFormed, Valid, Contents, HasRoom;
      for i := 0 to CAP
        invariant Valid() && Contents().Keys == First(keys, i) && |Contents()| == i
      {
        RoomKnown();
        OneMore(Contents(), keys, i, t);
        Insert(keys[i], t);
      }
      assert keys[..CAP] == keys;
      RoomKnown();
    }

    /** And all of them out again: no slot becomes EMPTY. */
    method Drain(keys: seq<Key>)
      requires Valid() && Contents().Keys == (set k | k in keys)
      requires (forall i, j :: 0 <= i < j < |keys| ==> keys[i] != keys[j])
      requires !HasEmpty()
      modifies this, ctrl, val
      ensures Valid() && Contents() == map[] && !HasEmpty()
    {
      hide WellFormed, Valid, Contents, HasEmpty;
      ValidLength();
      for i := 0 to |keys|
        invariant Valid() && Contents().Keys == (set k | k in keys[i..]) && ctrl.Length == CAP && !HasEmpty()
      {
        assert keys[i..] == [keys[i]] + keys[i + 1..];
        Remove(keys[i]);
      }
    }

    lemma ValidLength()
      requires Valid()
      ensures ctrl.Length == CAP
    {
    }
  }

  /** The table can lose its last EMPTY slot for good: after as many keys as there are slots have
      come and gone it stands for the empty map again, but no lookup of any key ever ends. */
  method Jam(hash: Key -> nat) returns (table: Table)
    ensures table.Valid() && table.Contents() == map[] && !table.HasEmpty()
    ensures table.hash == hash && forall k: Key, j: nat :: !GroupHasEmpty(table.ctrl[..], ProbeAt(hash(k), j))
  {
    hide WellFormed;
    table := new Table(hash);
    var keys := seq(CAP, i requires 0 <= i < CAP => Key(1, i));
    table.Fill(keys, 1);
    table.ValidLength();
    NoRoomNoEmpty(table.ctrl[..]);
    table.Drain(keys);
    forall k: Key, j: nat ensures !GroupHasEmpty(table.ctrl[..], ProbeAt(hash(k), j)) {}
  }

  lemma NoRoomNoEmpty(c: seq<int>)
    requires |c| == CAP && forall s :: 0 <= s < CAP ==> c[s] >= 0
    ensures forall s :: 0 <= s < CAP ==> c[s] != EMPTY
  {
  }
}
