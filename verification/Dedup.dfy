/** The deduplication protocol of the FP build around the Swiss table: thread_create returns the
    existing thread for a (function, argument) pair that is still in flight (src/thread.c:84-98,
    373-418, 570-577, 632-653 and 685-691). */
module Dedup {
  import opened Basics
  import opened FreeLists
  import opened SwissTable

  /** The fields of a descriptor that matter here; `func` NULL means that the thread is not in the
      table. Descriptor `x` is at address `x + 1`. */
  datatype Desc = Desc(func: Ptr, arg: Ptr, refcount: nat)

  const MAX_REFCOUNT: nat := 65535

  function KeyOf(d: Desc): Key { Key(d.func, d.arg) }

  // ---------- The invariant ----------

  /** The table maps a key to a thread exactly when that thread's descriptor is in use and carries
      the key. */
  ghost predicate Mirrors(m: map<Key, Ptr>, desc: seq<Desc>, used: set<nat>) {
    Stored(m, desc, used) && Carried(m, desc, used)
  }

  ghost predicate Stored(m: map<Key, Ptr>, desc: seq<Desc>, used: set<nat>) {
    forall k :: k in m ==> k.func != NULL && 0 < m[k] <= |desc| && m[k] - 1 in used && KeyOf(desc[m[k] - 1]) == k
  }

  ghost predicate Carried(m: map<Key, Ptr>, desc: seq<Desc>, used: set<nat>) {
    forall x {:trigger desc[x]} :: 0 <= x < |desc| && x in used && desc[x].func != NULL ==>
      KeyOf(desc[x]) in m && m[KeyOf(desc[x])] == x + 1
  }

  /** The thread in `last_created` is in use, and its key is not in the table. */
  ghost predicate Fresh(m: map<Key, Ptr>, desc: seq<Desc>, used: set<nat>, last: Ptr, lastKey: Key) {
    last != NULL ==>
      last <= |desc| && last - 1 in used && desc[last - 1].func == NULL && lastKey !in m && lastKey.func != NULL
  }

  /** A descriptor in use is owed at least one join. */
  ghost predicate Counted(desc: seq<Desc>, used: set<nat>) {
    forall x {:trigger x in used} :: x in used ==> 0 <= x < |desc| && 1 <= desc[x].refcount <= MAX_REFCOUNT
  }

  ghost predicate Agree(m: map<Key, Ptr>, desc: seq<Desc>, used: set<nat>, last: Ptr, lastKey: Key) {
    Mirrors(m, desc, used) && Fresh(m, desc, used, last, lastKey) && Counted(desc, used)
  }

  /** No key is stored twice: not in two slots of the table, nor by two descriptors. */
  lemma NoKeyTwice(p: Protocol)
    requires p.Valid()
    ensures forall i, j | 0 <= i < CAP && 0 <= j < CAP && p.table.ctrl[i] >= 0 && p.table.ctrl[j] >= 0
              && p.table.keyFunc[i] == p.table.keyFunc[j] && p.table.keyArg[i] == p.table.keyArg[j] :: i == j
    ensures forall x: nat, y: nat | x < |p.desc| && y < |p.desc| && x in p.slots.out && y in p.slots.out
              && p.desc[x].func != NULL && KeyOf(p.desc[x]) == KeyOf(p.desc[y]) :: x == y
  {
    var c, keys := p.table.ctrl[..], Zip(p.table.keyFunc[..], p.table.keyArg[..]);
    forall i, j | 0 <= i < CAP && 0 <= j < CAP && p.table.ctrl[i] >= 0 && p.table.ctrl[j] >= 0
      && p.table.keyFunc[i] == p.table.keyFunc[j] && p.table.keyArg[i] == p.table.keyArg[j]
      ensures i == j
    {
      assert c[i] >= 0 && c[j] >= 0 && keys[i] == keys[j];
    }
  }

  lemma FlushAgrees(m: map<Key, Ptr>, desc: seq<Desc>, used: set<nat>, last: Ptr, key: Key)
    requires Agree(m, desc, used, last, key) && last != NULL
    ensures Agree(m[key := last], desc[last - 1 := desc[last - 1].(func := key.func, arg := key.arg)], used, NULL, key)
  {
    FlushMirrors(m, desc, used, last, key);
    hide Mirrors;
  }

  lemma FlushMirrors(m: map<Key, Ptr>, desc: seq<Desc>, used: set<nat>, last: Ptr, key: Key)
    requires Mirrors(m, desc, used) && 0 < last <= |desc| && last - 1 in used && desc[last - 1].func == NULL
    requires key !in m && key.func != NULL
    ensures Mirrors(m[key := last], desc[last - 1 := desc[last - 1].(func := key.func, arg := key.arg)], used)
  {
    hide Stored, Carried;
    FlushStored(m, desc, used, last, key);
    FlushCarried(m, desc, used, last, key);
  }

  lemma FlushStored(m: map<Key, Ptr>, desc: seq<Desc>, used: set<nat>, last: Ptr, key: Key)
    requires Stored(m, desc, used) && 0 < last <= |desc| && last - 1 in used && desc[last - 1].func == NULL
    requires key.func != NULL
    ensures Stored(m[key := last], desc[last - 1 := desc[last - 1].(func := key.func, arg := key.arg)], used)
  {
  }

  lemma FlushCarried(m: map<Key, Ptr>, desc: seq<Desc>, used: set<nat>, last: Ptr, key: Key)
    requires Carried(m, desc, used) && 0 < last <= |desc| && key !in m
    ensures Carried(m[key := last], desc[last - 1 := desc[last - 1].(func := key.func, arg := key.arg)], used)
  {
  }

  lemma RemoveAgrees(m: map<Key, Ptr>, desc: seq<Desc>, used: set<nat>, last: Ptr, lastKey: Key, x: nat)
    requires Agree(m, desc, used, last, lastKey) && x < |desc| && x in used && desc[x].func != NULL
    ensures Agree(m - {KeyOf(desc[x])}, desc[x := desc[x].(func := NULL)], used, last, lastKey)
  {
    var desc' := desc[x := desc[x].(func := NULL)];
    RemoveMirrors(m, desc, used, x);
    hide Mirrors;
    assert Counted(desc', used);
  }

  lemma RemoveMirrors(m: map<Key, Ptr>, desc: seq<Desc>, used: set<nat>, x: nat)
    requires Mirrors(m, desc, used) && x < |desc| && x in used && desc[x].func != NULL
    ensures Mirrors(m - {KeyOf(desc[x])}, desc[x := desc[x].(func := NULL)], used)
  {
    assert m[KeyOf(desc[x])] == x + 1;
    hide Stored, Carried;
    RemoveStored(m, desc, used, x);
    RemoveCarried(m, desc, used, x);
  }

  lemma RemoveStored(m: map<Key, Ptr>, desc: seq<Desc>, used: set<nat>, x: nat)
    requires Stored(m, desc, used) && x < |desc|
    ensures Stored(m - {KeyOf(desc[x])}, desc[x := desc[x].(func := NULL)], used)
  {
    var m', desc' := m - {KeyOf(desc[x])}, desc[x := desc[x].(func := NULL)];
    forall k | k in m'
      ensures k.func != NULL && 0 < m'[k] <= |desc'| && m'[k] - 1 in used && KeyOf(desc'[m'[k] - 1]) == k
    {
      assert m'[k] == m[k] && KeyOf(desc[m[k] - 1]) == k;
    }
  }

  lemma RemoveCarried(m: map<Key, Ptr>, desc: seq<Desc>, used: set<nat>, x: nat)
    requires Carried(m, desc, used) && x < |desc| && KeyOf(desc[x]) in m && m[KeyOf(desc[x])] == x + 1
    ensures Carried(m - {KeyOf(desc[x])}, desc[x := desc[x].(func := NULL)], used)
  {
    var m', desc' := m - {KeyOf(desc[x])}, desc[x := desc[x].(func := NULL)];
    forall y | 0 <= y < |desc'| && y in used && desc'[y].func != NULL
      ensures KeyOf(desc'[y]) in m' && m'[KeyOf(desc'[y])] == y + 1
    {
      assert desc'[y] == desc[y] && KeyOf(desc[y]) in m;
    }
  }

  lemma ShareAgrees(m: map<Key, Ptr>, desc: seq<Desc>, used: set<nat>, last: Ptr, lastKey: Key, x: nat)
    requires Agree(m, desc, used, last, lastKey) && x < |desc| && x in used && desc[x].refcount < MAX_REFCOUNT
    ensures Agree(m, desc[x := desc[x].(refcount := desc[x].refcount + 1)], used, last, lastKey)
  {
    RefcountAgrees(m, desc, used, last, lastKey, x, desc[x].refcount + 1);
  }

  lemma LessAgrees(m: map<Key, Ptr>, desc: seq<Desc>, used: set<nat>, last: Ptr, lastKey: Key, x: nat)
    requires Agree(m, desc, used, last, lastKey) && x < |desc| && x in used && desc[x].refcount > 1
    ensures Agree(m, desc[x := desc[x].(refcount := desc[x].refcount - 1)], used, last, lastKey)
  {
    RefcountAgrees(m, desc, used, last, lastKey, x, desc[x].refcount - 1);
  }

  lemma RefcountAgrees(m: map<Key, Ptr>, desc: seq<Desc>, used: set<nat>, last: Ptr, lastKey: Key, x: nat, n: nat)
    requires Agree(m, desc, used, last, lastKey) && x < |desc| && x in used && 1 <= n <= MAX_REFCOUNT
    ensures Agree(m, desc[x := desc[x].(refcount := n)], used, last, lastKey)
  {
    var desc' := desc[x := desc[x].(refcount := n)];
    assert forall y :: 0 <= y < |desc| ==> KeyOf(desc'[y]) == KeyOf(desc[y]);
  }

  lemma NewAgrees(m: map<Key, Ptr>, desc: seq<Desc>, used: set<nat>, last: Ptr, lastKey: Key, x: nat)
    requires Agree(m, desc, used, last, lastKey) && x < |desc| && x !in used
    ensures Agree(m, desc[x := Desc(NULL, NULL, 1)], used + {x}, last, lastKey)
  {
  }

  lemma CreateAgrees(m: map<Key, Ptr>, desc: seq<Desc>, used: set<nat>, t: Ptr, key: Key, lastKey: Key)
    requires Agree(m, desc, used, NULL, lastKey) && 0 < t <= |desc| && t - 1 in used && desc[t - 1].func == NULL
    requires key !in m && key.func != NULL
    ensures Agree(m, desc, used, t, key)
  {
  }

  lemma TakeAgrees(m: map<Key, Ptr>, desc: seq<Desc>, used: set<nat>, last: Ptr, lastKey: Key)
    requires Agree(m, desc, used, last, lastKey)
    ensures Agree(m, desc, used, NULL, lastKey)
  {
    hide Mirrors, Counted;
  }

  lemma RecycleAgrees(m: map<Key, Ptr>, desc: seq<Desc>, used: set<nat>, last: Ptr, lastKey: Key, x: nat)
    requires Agree(m, desc, used, last, lastKey) && x < |desc| && x in used && desc[x].func == NULL && last != x + 1
    ensures Agree(m, desc[x := desc[x].(refcount := 0)], used - {x}, last, lastKey)
  {
  }

  /** The descriptors after a flush of `last`, if there is one. */
  function Flushed(desc: seq<Desc>, last: Ptr, key: Key): (r: seq<Desc>)
    ensures |r| == |desc|
  {
    if last == NULL || last > |desc| then desc
    else desc[last - 1 := desc[last - 1].(func := key.func, arg := key.arg)]
  }

  // ---------- The calls ----------

  class Protocol {
    const table: Table
    const slots: Arena
    var desc: seq<Desc>
    var last: Ptr
    var lastKey: Key

    ghost function Memory(): set<object> {
      {this, table, table.ctrl, table.keyFunc, table.keyArg, table.val, slots, slots.slots, slots.slots.link,
       slots.slots.head}
    }

    ghost predicate Valid()
      reads Memory()
    {
      && table.ctrl != slots.slots.link && table.ctrl != slots.slots.head
      && table.Valid() && slots.Valid() && |desc| == slots.cap
      && Agree(table.Contents(), desc, slots.out, last, lastKey)
    }

    /** The thread that runs `k` or is going to, if the library knows one. */
    ghost function InFlight(k: Key): Ptr
      requires table.Valid()
      reads this, table, table.ctrl, table.keyFunc, table.keyArg, table.val
    {
      if last != NULL && lastKey == k then last else if k in table.Contents() then table.Contents()[k] else NULL
    }

    constructor (cap: nat)
      ensures Valid() && slots.out == {} && last == NULL && table.Contents() == map[] && table.HasEmpty()
      ensures fresh(Memory() - {this})
    {
      table := new Table(HashFull);
      slots := new Arena(cap);
      desc := seq(cap, _ => Desc(NULL, NULL, 0));
      last, lastKey := NULL, Key(NULL, NULL);
    }

    /** flush_last_created_slow: the unchecked insert meets no duplicate. */
    method Flush()
      requires Valid() && last != NULL && table.HasRoom()
      modifies Memory()
      ensures Valid() && last == NULL && lastKey == old(lastKey) && slots.out == old(slots.out)
      ensures table.Contents() == old(table.Contents())[lastKey := old(last)]
      ensures desc == old(desc)[old(last) - 1 := old(desc)[old(last) - 1].(func := lastKey.func, arg := lastKey.arg)]
    {
      hide WellFormed, Agree, Arena.Valid;
      FlushAgrees(table.Contents(), desc, slots.out, last, lastKey);
      LastKnown();
      desc := desc[last - 1 := desc[last - 1].(func := lastKey.func, arg := lastKey.arg)];
      table.Insert(lastKey, last);
      last := NULL;
    }

    lemma LastKnown()
      requires Valid()
      ensures last != NULL ==>
                last <= |desc| && last - 1 in slots.out && lastKey !in table.Contents() && lastKey.func != NULL
    {
    }

    /** A stored thread is a descriptor in use that carries the key. */
    lemma StoredKnown(k: Key)
      requires Valid() && k in table.Contents()
      ensures var t := table.Contents()[k];
              0 < t <= |desc| && t - 1 in slots.out && KeyOf(desc[t - 1]) == k && k.func != NULL
    {
    }

    /** One more handle on thread `t`. */
    method Share(t: Ptr)
      requires Valid() && 0 < t <= |desc| && t - 1 in slots.out && desc[t - 1].refcount < MAX_REFCOUNT
      modifies this`desc
      ensures Valid() && desc == old(desc)[t - 1 := old(desc)[t - 1].(refcount := old(desc)[t - 1].refcount + 1)]
    {
      hide WellFormed, Arena.Valid, Agree;
      ShareAgrees(table.Contents(), desc, slots.out, last, lastKey, t - 1);
      desc := desc[t - 1 := desc[t - 1].(refcount := desc[t - 1].refcount + 1)];
    }

    /** thread_create: another handle on the thread in flight with that key, or a new thread; NULL
        if all descriptors are in use. */
    method Create(key: Key) returns (t: Ptr)
      requires Valid() && key.func != NULL && (InFlight(key) != NULL || table.HasEmpty())
      requires InFlight(key) != NULL ==> 0 < InFlight(key) <= |desc| && desc[InFlight(key) - 1].refcount < MAX_REFCOUNT
      modifies Memory()
      ensures Valid()
      ensures old(InFlight(key)) != NULL ==>
                && t == old(InFlight(key)) && slots.out == old(slots.out) && table.Contents() == old(table.Contents())
                && desc == old(desc)[t - 1 := old(desc)[t - 1].(refcount := old(desc)[t - 1].refcount + 1)]
                && last == old(last) && lastKey == old(lastKey)
      ensures old(InFlight(key)) == NULL && t != NULL ==>
                && t - 1 !in old(slots.out) && slots.out == old(slots.out) + {t - 1}
                && last == t && lastKey == key && 0 < t <= |desc|
                && desc == Flushed(old(desc), old(last), old(lastKey))[t - 1 := Desc(NULL, NULL, 1)]
                && table.Contents() == (if old(last) == NULL then old(table.Contents())
                                        else old(table.Contents())[old(lastKey) := old(last)])
      ensures t == NULL ==> last == old(last) && desc == old(desc) && table.Contents() == old(table.Contents())
      ensures t == NULL ==> slots.out == old(slots.out) && forall x: nat :: x < |desc| ==> x in slots.out
    {
      hide WellFormed, Arena.Valid, Agree;
      LastKnown();
      if last != NULL && lastKey == key {
        Share(last);
        return last;
      }
      if key in table.Contents() { StoredKnown(key); }
      t := table.Lookup(key);
      if t != NULL {
        Share(t);
        return t;
      }
      t := CreateNew(key);
    }

    method CreateNew(key: Key) returns (t: Ptr)
      requires Valid() && key.func != NULL && table.HasEmpty() && key !in table.Contents()
      requires (last != NULL ==> lastKey != key)
      modifies Memory()
      ensures Valid()
      ensures t != NULL ==>
                && t - 1 !in old(slots.out) && slots.out == old(slots.out) + {t - 1}
                && last == t && lastKey == key && 0 < t <= |desc|
                && desc == Flushed(old(desc), old(last), old(lastKey))[t - 1 := Desc(NULL, NULL, 1)]
                && table.Contents() == (if old(last) == NULL then old(table.Contents())
                                        else old(table.Contents())[old(lastKey) := old(last)])
      ensures t == NULL ==> last == old(last) && desc == old(desc) && table.Contents() == old(table.Contents())
      ensures t == NULL ==> slots.out == old(slots.out) && forall x: nat :: x < |desc| ==> x in slots.out
    {
      hide WellFormed, Arena.Valid, Agree;
      LastKnown();
      t := NewDescriptor();
      if t == NULL { return; }
      LastKnown();
      if last != NULL { EmptyIsRoom(); Flush(); }
      CreateAgrees(table.Contents(), desc, slots.out, t, key, lastKey);
      last, lastKey := t, key;
    }

    lemma EmptyIsRoom()
      requires table.ctrl.Length == CAP && table.HasEmpty()
      ensures table.HasRoom()
    {
      var s :| 0 <= s < CAP && table.ctrl[s] == EMPTY;
      assert table.ctrl[s] < 0;
    }

    /** thread_alloc and thread_cold_reset */
    method NewDescriptor() returns (t: Ptr)
      requires Valid()
      modifies this`desc, slots, slots.slots, slots.slots.link, slots.slots.head
      ensures Valid()
      ensures t == NULL ==> desc == old(desc) && slots.out == old(slots.out)
      ensures t == NULL ==> forall x: nat :: x < |desc| ==> x in slots.out
      ensures t != NULL ==> 0 < t <= |desc| && t - 1 !in old(slots.out) && slots.out == old(slots.out) + {t - 1}
      ensures t != NULL ==> desc == old(desc)[t - 1 := Desc(NULL, NULL, 1)]
    {
      hide WellFormed, Arena.Valid;
      ghost var m, used := table.Contents(), slots.out;
      var x := slots.Alloc();
      if x == NIL { return NULL; }
      NewAgrees(m, desc, used, last, lastKey, x);
      desc := desc[x := Desc(NULL, NULL, 1)];
      t := x + 1;
    }

    /** The fast path of thread_join: the joined thread leaves `last_created` without ever being in
        the table, and runs. */
    method TakeLast() returns (t: Ptr)
      requires Valid() && last != NULL
      modifies this`last
      ensures Valid() && last == NULL && t == old(last)
    {
      hide WellFormed, Arena.Valid, Agree;
      TakeAgrees(table.Contents(), desc, slots.out, last, lastKey);
      t := last;
      last := NULL;
    }

    /** thread_exit without a joiner: the key becomes free for a new thread. */
    method Exit(t: Ptr)
      requires Valid() && 0 < t <= |desc| && t - 1 in slots.out
      modifies this`desc, table, table.ctrl, table.val
      ensures Valid() && desc == old(desc)[t - 1 := old(desc)[t - 1].(func := NULL)]
      ensures table.HasEmpty() <==> old(table.HasEmpty())
      ensures table.Contents() == if old(desc)[t - 1].func == NULL then old(table.Contents())
                                  else old(table.Contents()) - {KeyOf(old(desc)[t - 1])}
    {
      hide WellFormed, Arena.Valid, Agree;
      if desc[t - 1].func != NULL {
        CarriedKnown(t - 1);
        RemoveAgrees(table.Contents(), desc, slots.out, last, lastKey, t - 1);
        table.Remove(Key(desc[t - 1].func, desc[t - 1].arg));
        desc := desc[t - 1 := desc[t - 1].(func := NULL)];
      }
    }

    /** The end of thread_join: the handle is given back, and the descriptor is recycled with the
        last one, after its key has left the table. */
    method Cleanup(t: Ptr) returns (recycled: bool)
      requires Valid() && 0 < t <= |desc| && t - 1 in slots.out && t != last
      modifies this`desc, table, table.ctrl, table.val, slots, slots.slots, slots.slots.link, slots.slots.head
      ensures Valid() && (table.HasEmpty() <==> old(table.HasEmpty())) && (recycled <==> old(desc)[t - 1].refcount == 1)
      ensures slots.out == if recycled then old(slots.out) - {t - 1} else old(slots.out)
      ensures desc == old(desc)[t - 1 := if recycled then old(desc)[t - 1].(func := NULL, refcount := 0)
                                         else old(desc)[t - 1].(refcount := old(desc)[t - 1].refcount - 1)]
      ensures last == old(last) && lastKey == old(lastKey)
      ensures table.Contents() == if recycled && old(desc)[t - 1].func != NULL
                                  then old(table.Contents()) - {KeyOf(old(desc)[t - 1])}
                                  else old(table.Contents())
    {
      hide WellFormed, Arena.Valid, Agree;
      RefKnown(t - 1);
      recycled := desc[t - 1].refcount == 1;
      if !recycled {
        LessAgrees(table.Contents(), desc, slots.out, last, lastKey, t - 1);
        desc := desc[t - 1 := desc[t - 1].(refcount := desc[t - 1].refcount - 1)];
        return;
      }
      Exit(t);
      RecycleAgrees(table.Contents(), desc, slots.out, last, lastKey, t - 1);
      desc := desc[t - 1 := desc[t - 1].(refcount := 0)];
      slots.Release(t - 1);
    }

    /** A descriptor in use that has its function is in the table. */
    lemma CarriedKnown(x: nat)
      requires Valid() && x < |desc| && x in slots.out && desc[x].func != NULL
      ensures KeyOf(desc[x]) in table.Contents() && table.Contents()[KeyOf(desc[x])] == x + 1
    {
    }

    lemma RefKnown(x: nat)
      requires Valid() && x in slots.out
      ensures x < |desc| && 1 <= desc[x].refcount
    {
    }
  }
}
