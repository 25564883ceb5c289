/** The work-stealing deque of one worker (src/scheduler_mn.c:58-195). */
module ChaseLev {
  import opened Basics

  // One owner pushes and pops at the bottom, any number of thieves steal at the top. Every
  // load, store and compare-and-swap is one step, and the steps of all parties interleave
  // freely; memory is sequentially consistent. The counters `top` and `bottom` are kept
  // unbounded, but the code only ever sees them modulo 2^64 (`Word`), and every test below
  // is the test on the wrapped words.

  const CAP: int := 4096
  const WORD: int := 0x1_0000_0000_0000_0000
  const HALF: int := 0x8000_0000_0000_0000

  // ---------- 64-bit arithmetic ----------

  /** The `size_t` that holds the counter `x`. */
  function Word(x: int): nat { x % WORD }

  /** `(ptrdiff_t)(b - t)` on `size_t` operands. */
  function Diff(b: nat, t: nat): int {
    var d := (b - t) % WORD;
    if d < HALF then d else d - WORD
  }

  /** `b - top >= CL_CAP` on `size_t` operands. */
  predicate FullTest(b: nat, t: nat) { (b - t) % WORD >= CAP }

  /** As long as the counters are less than 2^63 apart, the signed difference is exact. */
  lemma DiffExact(b: int, t: int)
    ensures Diff(Word(b), Word(t)) == b - t <==> -HALF <= b - t < HALF
  {
    assert (Word(b) - Word(t)) % WORD == (b - t) % WORD by {
      assert b == WORD * (b / WORD) + Word(b) && t == WORD * (t / WORD) + Word(t);
      ModShift(Word(b) - Word(t), b / WORD - t / WORD);
    }
  }

  lemma ModShift(x: int, k: int)
    ensures (x + WORD * k) % WORD == x % WORD
  {}

  lemma FullExact(b: int, t: int)
    requires 0 <= b - t < WORD
    ensures FullTest(Word(b), Word(t)) <==> b - t >= CAP
  {
    assert b == WORD * (b / WORD) + Word(b) && t == WORD * (t / WORD) + Word(t);
    ModShift(Word(b) - Word(t), b / WORD - t / WORD);
  }

  // ---------- The machine ----------

  /** Where the owner stands inside cl_push_bottom or cl_pop_bottom. */
  datatype OwnerPc<T> =
    | OIdle
    | Aborted                                   // deque full: the process is gone
    | PushLoaded(x: T, b: int)                  // bottom read
    | PushChecked(x: T, b: int, t: nat)         // top read, room left
    | PushStored(x: T, b: int, t: nat)          // slot written
    | PopLoaded(b: int)                         // b = bottom - 1
    | PopStored(b: int)                         // bottom := b
    | PopEmpty(t: nat)                          // top read, nothing left
    | PopTake(b: int)                           // top read, at least two items were left
    | PopLast(b: int)                           // top read, exactly one item was left
    | PopRead(b: int, x: T)                     // the last item read, CAS still to come
    | PopSettled(b: int, r: Option<T>)          // CAS done

  /** Where a thief stands inside cl_steal. */
  datatype ThiefPc<T> =
    | TIdle
    | TopRead(t: nat)
    | Sure(t: nat)                              // bottom read, deque looked non-empty
    | ItemRead(t: nat, x: T)                    // slot read, CAS still to come

  /** `pushed` and `returned` record what every push has published and what every call has
      returned so far. */
  datatype State<T> = State(
    top: nat, bottom: int, items: seq<T>,
    owner: OwnerPc<T>, thieves: map<nat, ThiefPc<T>>,
    pushed: multiset<T>, returned: multiset<T>)

  /** One scheduling choice. A choice that is not possible in a state changes nothing. */
  datatype Event<T> = Push(x: T) | Pop | Owner | Thief(i: nat)

  function Slot(i: int): nat { i % CAP }

  function Pc<T>(s: State<T>, i: nat): ThiefPc<T> {
    if i in s.thieves then s.thieves[i] else TIdle
  }

  /** The outcome of the comparison the owner makes in its current step: full, empty, last
      item, or CAS won. */
  datatype OwnerTest = OwnerTest(full: bool, empty: bool, last: bool, won: bool)

  /** The owner's comparisons on the wrapped words, as the code makes them. */
  function OwnerWords<T>(s: State<T>): OwnerTest {
    match s.owner
    case PushLoaded(_, b) => OwnerTest(FullTest(Word(b), Word(s.top)), false, false, false)
    case PopStored(b) => OwnerTest(false, Diff(Word(b), Word(s.top)) < 0, Word(b) == Word(s.top), false)
    case PopRead(b, _) => OwnerTest(false, false, false, Word(s.top) == Word(b))
    case _ => OwnerTest(false, false, false, false)
  }

  /** The same comparisons on the unbounded counters. */
  function OwnerInts<T>(s: State<T>): OwnerTest {
    match s.owner
    case PushLoaded(_, b) => OwnerTest(b - s.top >= CAP, false, false, false)
    case PopStored(b) => OwnerTest(false, b < s.top, b == s.top, false)
    case PopRead(b, _) => OwnerTest(false, false, false, s.top == b)
    case _ => OwnerTest(false, false, false, false)
  }

  function OwnerMove<T>(s: State<T>, test: OwnerTest): State<T>
    requires |s.items| == CAP
  {
    match s.owner
    case OIdle => s
    case Aborted => s
    case PushLoaded(x, b) =>
      if test.full then s.(owner := Aborted) else s.(owner := PushChecked(x, b, s.top))
    case PushChecked(x, b, t) =>
      s.(items := s.items[Slot(b) := x], owner := PushStored(x, b, t))
    case PushStored(x, b, t) =>
      s.(bottom := b + 1, owner := OIdle, pushed := s.pushed + multiset{x})
    case PopLoaded(b) => s.(bottom := b, owner := PopStored(b))
    case PopStored(b) =>
      if test.empty then s.(owner := PopEmpty(s.top))
      else if !test.last then s.(owner := PopTake(b))
      else s.(owner := PopLast(b))
    case PopEmpty(t) => s.(bottom := t, owner := OIdle)
    case PopTake(b) => s.(owner := OIdle, returned := s.returned + multiset{s.items[Slot(b)]})
    case PopLast(b) => s.(owner := PopRead(b, s.items[Slot(b)]))
    case PopRead(b, x) =>
      if test.won then s.(top := s.top + 1, owner := PopSettled(b, Some(x)))
      else s.(owner := PopSettled(b, None))
    case PopSettled(b, r) =>
      s.(bottom := b + 1, owner := OIdle,
         returned := if r.Some? then s.returned + multiset{r.value} else s.returned)
  }

  function OwnerStep<T>(s: State<T>): State<T>
    requires |s.items| == CAP
  {
    OwnerMove(s, OwnerWords(s))
  }

  /** A thief's comparison on the wrapped words: looks non-empty, or CAS won. */
  predicate ThiefWords<T>(s: State<T>, i: nat) {
    match Pc(s, i)
    case TopRead(t) => Diff(Word(s.bottom), Word(t)) > 0
    case ItemRead(t, _) => Word(s.top) == Word(t)
    case _ => false
  }

  function ThiefMove<T>(s: State<T>, i: nat, test: bool): State<T>
    requires |s.items| == CAP
  {
    match Pc(s, i)
    case TIdle => s.(thieves := s.thieves[i := TopRead(s.top)])
    case TopRead(t) => s.(thieves := s.thieves[i := if test then Sure(t) else TIdle])
    case Sure(t) => s.(thieves := s.thieves[i := ItemRead(t, s.items[Slot(t)])])
    case ItemRead(t, x) =>
      if test
      then s.(top := s.top + 1, thieves := s.thieves[i := TIdle], returned := s.returned + multiset{x})
      else s.(thieves := s.thieves[i := TIdle])
  }

  function ThiefStep<T>(s: State<T>, i: nat): State<T>
    requires |s.items| == CAP
  {
    ThiefMove(s, i, ThiefWords(s, i))
  }

  function Apply<T>(s: State<T>, e: Event<T>): State<T>
    requires |s.items| == CAP
  {
    match e
    case Push(x) => if s.owner == OIdle then s.(owner := PushLoaded(x, s.bottom)) else s
    case Pop => if s.owner == OIdle then s.(owner := PopLoaded(s.bottom - 1)) else s
    case Owner => OwnerStep(s)
    case Thief(i) => ThiefStep(s, i)
  }

  ghost predicate Init<T>(s: State<T>) {
    && |s.items| == CAP && s.top == 0 && s.bottom == 0 && s.owner == OIdle && s.thieves == map[]
    && s.pushed == multiset{} && s.returned == multiset{}
  }

  // ---------- What the deque holds ----------

  /** The bottom of the logical window. It differs from `bottom` only inside a pop. */
  function LogicalBottom<T>(s: State<T>): int {
    match s.owner
    case PopStored(b) => b + 1
    case PopEmpty(t) => t
    case PopLast(b) => b + 1
    case PopRead(b, _) => b + 1
    case PopSettled(b, _) => b + 1
    case _ => s.bottom
  }

  function Slice<T>(items: seq<T>, lo: int, hi: int): (w: seq<T>)
    requires |items| == CAP
    ensures |w| == if lo <= hi then hi - lo else 0
    ensures forall k :: 0 <= k < |w| ==> w[k] == items[Slot(lo + k)]
  {
    if lo <= hi then seq(hi - lo, k requires 0 <= k < hi - lo => items[Slot(lo + k)]) else []
  }

  /** The entries pushed and not yet claimed, oldest first. */
  function Window<T>(s: State<T>): seq<T>
    requires |s.items| == CAP
  {
    Slice(s.items, s.top, LogicalBottom(s))
  }

  /** An item the owner has claimed and has still to return. */
  function InFlight<T>(s: State<T>): multiset<T>
    requires |s.items| == CAP
  {
    match s.owner
    case PopTake(b) => multiset{s.items[Slot(b)]}
    case PopSettled(_, Some(x)) => multiset{x}
    case _ => multiset{}
  }

  ghost predicate OwnerInv<T>(s: State<T>)
    requires |s.items| == CAP
  {
    match s.owner
    case OIdle => true
    case Aborted => true
    case PushLoaded(_, b) => b == s.bottom
    case PushChecked(_, b, t) => b == s.bottom && t <= s.top && b - t < CAP
    case PushStored(x, b, t) => b == s.bottom && t <= s.top && b - t < CAP && s.items[Slot(b)] == x
    case PopLoaded(b) => b == s.bottom - 1
    case PopStored(b) => b == s.bottom
    case PopEmpty(t) => s.bottom == t - 1 && s.top == t
    case PopTake(b) => b == s.bottom
    case PopLast(b) => b == s.bottom && b <= s.top
    case PopRead(b, x) => b == s.bottom && b <= s.top && s.items[Slot(b)] == x
    case PopSettled(b, _) => b == s.bottom && s.top == b + 1
  }

  /** A thief whose CAS would still succeed looks at a live entry and holds its value. */
  ghost predicate ThiefInv<T>(s: State<T>, i: nat)
    requires |s.items| == CAP
  {
    match Pc(s, i)
    case TIdle => true
    case TopRead(t) => t <= s.top
    case Sure(t) => t <= s.top && (t == s.top ==> t < LogicalBottom(s))
    case ItemRead(t, x) =>
      t <= s.top && (t == s.top ==> t < LogicalBottom(s) && s.items[Slot(t)] == x)
  }

  ghost predicate Conserved<T>(s: State<T>)
    requires |s.items| == CAP
  {
    s.pushed == s.returned + multiset(Window(s)) + InFlight(s)
  }

  ghost predicate Inv<T>(s: State<T>) {
    && |s.items| == CAP
    && s.top <= LogicalBottom(s) <= s.top + CAP
    && OwnerInv(s)
    && AllThieves(s)
    && Conserved(s)
  }

  // ---------- Assumption on the 64-bit counters ----------

  /** A thief about to swing `top` read it fewer than 2^64 increments ago. */
  predicate TimelyCas<T>(pc: ThiefPc<T>, top: nat) {
    pc.ItemRead? ==> top - pc.t < WORD
  }

  ghost predicate Timely<T>(s: State<T>, e: Event<T>) {
    e.Thief? ==> TimelyCas(Pc(s, e.i), s.top)
  }

  // ---------- Steps keep the invariant ----------

  lemma SliceTail<T>(items: seq<T>, lo: int, hi: int)
    requires |items| == CAP && lo < hi
    ensures Slice(items, lo, hi) == [items[Slot(lo)]] + Slice(items, lo + 1, hi)
  {}

  lemma SliceInit<T>(items: seq<T>, lo: int, hi: int)
    requires |items| == CAP && lo < hi
    ensures Slice(items, lo, hi) == Slice(items, lo, hi - 1) + [items[Slot(hi - 1)]]
  {
    var w, v := Slice(items, lo, hi), Slice(items, lo, hi - 1) + [items[Slot(hi - 1)]];
    forall k | 0 <= k < |w| ensures w[k] == v[k] {}
  }

  /** Writing the slot just past the window leaves the window alone. */
  lemma SliceFrame<T>(items: seq<T>, lo: int, hi: int, x: T)
    requires |items| == CAP && lo <= hi < lo + CAP
    ensures Slice(items[Slot(hi) := x], lo, hi) == Slice(items, lo, hi)
  {
    var w, v := Slice(items[Slot(hi) := x], lo, hi), Slice(items, lo, hi);
    forall k | 0 <= k < |w| ensures w[k] == v[k] { SlotsDiffer(lo + k, hi); }
  }

  lemma SlotsDiffer(i: int, j: int)
    requires i < j < i + CAP
    ensures Slot(i) != Slot(j)
  {}

  lemma WordsDiffer(i: int, j: int)
    requires -WORD < i - j < WORD && i != j
    ensures Word(i) != Word(j)
  {}

  ghost predicate AllThieves<T>(s: State<T>)
    requires |s.items| == CAP
  {
    forall i :: ThiefInv(s, i)
  }

  lemma StartKeepsInv<T>(s: State<T>, e: Event<T>)
    requires Inv(s) && (e.Push? || e.Pop?)
    ensures Inv(Apply(s, e)) && Window(Apply(s, e)) == Window(s)
  {
    var s' := Apply(s, e);
    forall i ensures ThiefInv(s', i) { assert ThiefInv(s, i); }
  }

  /** What one owner step does to the logical window. */
  ghost predicate OwnerEffect<T>(s: State<T>, s': State<T>)
    requires |s.items| == CAP && |s'.items| == CAP
  {
    var w, w' := Window(s), Window(s');
    match s.owner
    case PushStored(x, _, _) => w' == w + [x]
    case PopStored(_) =>
      if s'.owner.PopTake?
      then |w| >= 2 && w' == w[..|w| - 1] && InFlight(s') == multiset{w[|w| - 1]}
      else w' == w
    case PopRead(_, _) =>
      if s'.owner.PopSettled? && s'.owner.r.Some? then w == [s'.owner.r.value] && w' == []
      else w == [] && w' == []
    case PopSettled(b, _) => w == [] && w' == [] && s'.top == s'.bottom == b + 1
    case PopEmpty(_) => w == [] && w' == []
    case _ => w' == w
  }

  /** The owner's comparisons on wrapped words agree with the unbounded counters. */
  lemma OwnerTestsExact<T>(s: State<T>)
    requires Inv(s)
    ensures OwnerWords(s) == OwnerInts(s)
  {
    match s.owner
    case PushLoaded(_, b) => FullExact(b, s.top);
    case PopStored(b) =>
      DiffExact(b, s.top);
      if b != s.top { WordsDiffer(b, s.top); }
    case PopRead(b, _) =>
      if b != s.top { WordsDiffer(b, s.top); }
    case _ =>
  }

  lemma OwnerKeepsThief<T>(s: State<T>, i: nat)
    requires |s.items| == CAP && s.top <= LogicalBottom(s) <= s.top + CAP && OwnerInv(s) && ThiefInv(s, i)
    ensures ThiefInv(OwnerMove(s, OwnerInts(s)), i)
  {
    if s.owner.PushChecked? && Pc(s, i).ItemRead? && Pc(s, i).t == s.top { SlotsDiffer(s.top, s.owner.b); }
  }

  lemma OwnerKeepsThieves<T>(s: State<T>)
    requires Inv(s)
    ensures AllThieves(OwnerMove(s, OwnerInts(s)))
  {
    forall i ensures ThiefInv(OwnerMove(s, OwnerInts(s)), i) {
      assert ThiefInv(s, i);
      OwnerKeepsThief(s, i);
    }
  }

  lemma PushKeepsInv<T>(s: State<T>)
    requires Inv(s) && (s.owner.PushLoaded? || s.owner.PushChecked? || s.owner.PushStored?)
    ensures Inv(OwnerMove(s, OwnerInts(s))) && OwnerEffect(s, OwnerMove(s, OwnerInts(s)))
  {
    OwnerKeepsThieves(s);
    match s.owner
    case PushLoaded(x, b) =>
    case PushChecked(x, b, t) => SliceFrame(s.items, s.top, b, x);
    case PushStored(x, b, t) => PublishEffect(s);
  }

  /** A push aborts exactly if all 4096 slots are taken when it reads `top`. */
  lemma AbortsExactly<T>(s: State<T>)
    requires Inv(s) && s.owner.PushLoaded?
    ensures OwnerStep(s).owner == Aborted <==> |Window(s)| == CAP
    ensures OwnerStep(s).owner.PushChecked? ==> OwnerStep(s).owner.b - OwnerStep(s).owner.t == |Window(s)| < CAP
    ensures |Window(s)| <= CAP
  {
    OwnerTestsExact(s);
  }

  /** The length of the window never exceeds the ring. */
  lemma WindowFits<T>(s: State<T>)
    requires Inv(s)
    ensures |Window(s)| <= CAP
  {
  }

  lemma PublishEffect<T>(s: State<T>)
    requires |s.items| == CAP && s.top <= LogicalBottom(s) && OwnerInv(s) && s.owner.PushStored?
    ensures var s' := OwnerMove(s, OwnerInts(s));
            && Window(s') == Window(s) + [s.owner.x]
            && multiset(Window(s')) == multiset(Window(s)) + multiset{s.owner.x}
  {
    SliceInit(s.items, s.top, s.owner.b + 1);
  }

  lemma PopDecideKeepsInv<T>(s: State<T>)
    requires Inv(s) && s.owner.PopStored?
    ensures Inv(OwnerMove(s, OwnerInts(s))) && OwnerEffect(s, OwnerMove(s, OwnerInts(s)))
  {
    OwnerKeepsThieves(s);
    if s.top < s.owner.b { ClaimEffect(s); }
  }

  lemma ClaimEffect<T>(s: State<T>)
    requires |s.items| == CAP && OwnerInv(s) && s.owner.PopStored? && s.top < s.owner.b
    ensures var s' := OwnerMove(s, OwnerInts(s));
            && |Window(s)| >= 2 && Window(s') == Window(s)[..|Window(s)| - 1]
            && InFlight(s') == multiset{Window(s)[|Window(s)| - 1]}
            && multiset(Window(s)) == multiset(Window(s')) + InFlight(s')
  {
    SliceInit(s.items, s.top, s.owner.b + 1);
    assert Window(s)[..|Window(s)| - 1] == Slice(s.items, s.top, s.owner.b);
  }

  lemma PopRaceKeepsInv<T>(s: State<T>)
    requires Inv(s) && s.owner.PopRead?
    ensures Inv(OwnerMove(s, OwnerInts(s))) && OwnerEffect(s, OwnerMove(s, OwnerInts(s)))
  {
    OwnerKeepsThieves(s);
    hide ThiefInv, Slice;
    RaceEffect(s);
  }

  lemma RaceEffect<T>(s: State<T>)
    requires |s.items| == CAP && s.top <= LogicalBottom(s) && OwnerInv(s) && s.owner.PopRead?
    ensures var s' := OwnerMove(s, OwnerInts(s));
            && OwnerInv(s') && s'.top == LogicalBottom(s') && Window(s') == []
            && Window(s) == (if s.owner.b == s.top then [s.owner.x] else [])
            && InFlight(s') == (if s.owner.b == s.top then multiset{s.owner.x} else multiset{})
            && s'.pushed == s.pushed && s'.returned == s.returned
  {
    if s.owner.b == s.top { SliceInit(s.items, s.top, s.top + 1); }
  }

  lemma PopRestKeepsInv<T>(s: State<T>)
    requires Inv(s)
    requires s.owner.PopLoaded? || s.owner.PopEmpty? || s.owner.PopTake? || s.owner.PopLast? || s.owner.PopSettled?
    ensures Inv(OwnerMove(s, OwnerInts(s))) && OwnerEffect(s, OwnerMove(s, OwnerInts(s)))
  {
    OwnerKeepsThieves(s);
    var s' := OwnerMove(s, OwnerInts(s));
    assert s'.items == s.items && s'.top == s.top && LogicalBottom(s') == LogicalBottom(s);
  }

  lemma OwnerKeepsInv<T>(s: State<T>)
    requires Inv(s)
    ensures Inv(OwnerStep(s)) && OwnerEffect(s, OwnerStep(s))
  {
    OwnerTestsExact(s);
    if s.owner.OIdle? || s.owner.Aborted? {
    } else if s.owner.PushLoaded? || s.owner.PushChecked? || s.owner.PushStored? {
      PushKeepsInv(s);
    } else if s.owner.PopStored? {
      PopDecideKeepsInv(s);
    } else if s.owner.PopRead? {
      PopRaceKeepsInv(s);
    } else {
      PopRestKeepsInv(s);
    }
  }

  /** What one thief step does to the logical window: nothing, or it takes the oldest entry
      and returns exactly that entry. */
  ghost predicate ThiefEffect<T>(s: State<T>, s': State<T>)
    requires |s.items| == CAP && |s'.items| == CAP
  {
    && s'.owner == s.owner && s'.bottom == s.bottom && s'.items == s.items && s'.pushed == s.pushed
    && if s'.top == s.top then Window(s') == Window(s) && s'.returned == s.returned
       else
         && s'.top == s.top + 1 && Window(s) != [] && Window(s') == Window(s)[1..]
         && s'.returned == s.returned + multiset{Window(s)[0]}
  }

  /** What a thief may rely on when its comparison comes out true. */
  ghost predicate ThiefTestSound<T>(s: State<T>, i: nat, test: bool) {
    match Pc(s, i)
    case TopRead(t) => test ==> s.bottom > t
    case ItemRead(t, _) => test <==> s.top == t
    case _ => true
  }

  lemma ThiefWordsSound<T>(s: State<T>, i: nat)
    requires Inv(s) && Timely(s, Thief(i))
    ensures ThiefTestSound(s, i, ThiefWords(s, i))
  {
    assert ThiefInv(s, i);
    if Pc(s, i).TopRead? && Diff(Word(s.bottom), Word(Pc(s, i).t)) > 0 { DiffPositive(s.bottom, Pc(s, i).t); }
    if Pc(s, i).ItemRead? && Pc(s, i).t != s.top { WordsDiffer(s.top, Pc(s, i).t); }
  }

  lemma ThiefMoveKeepsThieves<T>(s: State<T>, i: nat, test: bool)
    requires Inv(s) && ThiefTestSound(s, i, test)
    ensures AllThieves(ThiefMove(s, i, test))
  {
    var s' := ThiefMove(s, i, test);
    assert ThiefInv(s, i);
    forall j ensures ThiefInv(s', j) { assert ThiefInv(s, j); }
  }

  lemma ThiefMoveKeepsInv<T>(s: State<T>, i: nat, test: bool)
    requires Inv(s) && ThiefTestSound(s, i, test)
    ensures Inv(ThiefMove(s, i, test)) && ThiefEffect(s, ThiefMove(s, i, test))
  {
    ThiefMoveKeepsThieves(s, i, test);
    assert ThiefInv(s, i);
    if Pc(s, i).ItemRead? && test { StealKeepsRest(s, i); } else { MissKeepsRest(s, i, test); }
  }

  ghost predicate RestInv<T>(s: State<T>) {
    |s.items| == CAP && s.top <= LogicalBottom(s) <= s.top + CAP && OwnerInv(s) && Conserved(s)
  }

  lemma MissKeepsRest<T>(s: State<T>, i: nat, test: bool)
    requires RestInv(s) && (Pc(s, i).ItemRead? ==> !test)
    ensures RestInv(ThiefMove(s, i, test)) && ThiefEffect(s, ThiefMove(s, i, test))
  {
    var s' := ThiefMove(s, i, test);
    assert s' == s.(thieves := s'.thieves);
    ThievesIrrelevant(s, s'.thieves);
  }

  lemma ThievesIrrelevant<T>(s: State<T>, th: map<nat, ThiefPc<T>>)
    requires |s.items| == CAP
    ensures var s' := s.(thieves := th);
            LogicalBottom(s') == LogicalBottom(s) && Window(s') == Window(s) && InFlight(s') == InFlight(s)
            && (OwnerInv(s') <==> OwnerInv(s))
  {}

  lemma StealKeepsRest<T>(s: State<T>, i: nat)
    requires RestInv(s) && ThiefInv(s, i) && Pc(s, i).ItemRead? && Pc(s, i).t == s.top
    ensures RestInv(ThiefMove(s, i, true)) && ThiefEffect(s, ThiefMove(s, i, true))
  {
    StealEffect(s, i);
    StealOwner(s, i);
    hide ThiefInv, Slice, OwnerInv;
  }

  lemma StealOwner<T>(s: State<T>, i: nat)
    requires |s.items| == CAP && OwnerInv(s) && ThiefInv(s, i) && Pc(s, i).ItemRead? && Pc(s, i).t == s.top
    ensures var s' := ThiefMove(s, i, true);
            && OwnerInv(s') && s.top < LogicalBottom(s) == LogicalBottom(s') && InFlight(s') == InFlight(s)
            && Window(s') == Slice(s.items, s.top + 1, LogicalBottom(s))
  {
  }

  lemma StealEffect<T>(s: State<T>, i: nat)
    requires |s.items| == CAP && ThiefInv(s, i) && Pc(s, i).ItemRead? && Pc(s, i).t == s.top
    ensures var s' := ThiefMove(s, i, true);
            && Window(s) != [] && Window(s)[0] == Pc(s, i).x
            && Slice(s.items, s.top + 1, LogicalBottom(s)) == Window(s)[1..]
            && multiset(Window(s)) == multiset{Pc(s, i).x} + multiset(Window(s)[1..])
  {
    SliceTail(s.items, s.top, LogicalBottom(s));
    assert Window(s) == [Window(s)[0]] + Window(s)[1..];
  }

  lemma ThiefKeepsInv<T>(s: State<T>, i: nat)
    requires Inv(s) && Timely(s, Thief(i))
    ensures Inv(ThiefStep(s, i)) && ThiefEffect(s, ThiefStep(s, i))
  {
    ThiefWordsSound(s, i);
    ThiefMoveKeepsInv(s, i, ThiefWords(s, i));
  }

  /** A thief never sees a non-empty deque where there is none: its test errs only by giving up. */
  lemma DiffPositive(b: int, t: int)
    requires b - t >= -1 && Diff(Word(b), Word(t)) > 0
    ensures b - t > 0
  {
    DiffExact(b, t);
  }

  /** What a thief finds out while its counters are less than 2^63 apart: the deque looks non-empty
      exactly if it is, and the CAS wins exactly if nobody has taken the entry. */
  lemma ThiefWordsExact<T>(s: State<T>, i: nat)
    requires Inv(s) && (Pc(s, i).TopRead? || Pc(s, i).ItemRead?)
    requires s.bottom - Pc(s, i).t < HALF && s.top - Pc(s, i).t < HALF
    ensures ThiefWords(s, i) <==> if Pc(s, i).TopRead? then s.bottom > Pc(s, i).t else s.top == Pc(s, i).t
    ensures ThiefWords(s, i) && Pc(s, i).ItemRead? ==> ThiefStep(s, i).top == s.top + 1
  {
    assert ThiefInv(s, i);
    var t := Pc(s, i).t;
    if Pc(s, i).TopRead? { DiffExact(s.bottom, t); } else if t != s.top { WordsDiffer(s.top, t); }
  }

  /** The steps of one thief alone. */
  function ThiefRun<T>(s: State<T>, i: nat, steps: nat): (r: State<T>)
    requires |s.items| == CAP
    ensures |r.items| == CAP
    decreases steps
  {
    if steps == 0 then s else ThiefRun(ThiefStep(s, i), i, steps - 1)
  }

  /** A steal that nobody disturbs takes the oldest entry, or finds the deque empty and changes
      nothing. */
  lemma UndisturbedSteal<T>(s: State<T>, i: nat)
    requires Inv(s) && Pc(s, i) == TIdle
    ensures s.bottom > s.top ==>
              && Window(s) != []
              && ThiefRun(s, i, 4) == s.(top := s.top + 1, thieves := s.thieves[i := TIdle],
                                         returned := s.returned + multiset{Window(s)[0]})
    ensures s.bottom <= s.top ==> ThiefRun(s, i, 2) == s.(thieves := s.thieves[i := TIdle])
  {
    hide Inv, Diff, Word, Window, Slot, ThiefStep, ThiefRun;
    BottomBounds(s);
    DiffExact(s.bottom, s.top);
    StealLooks(s, i);
    if s.bottom > s.top {
      var s2 := s.(thieves := s.thieves[i := Sure(s.top)]);
      StealTakes(s2, i);
      ThiefRunThen(s, i, 2);
      assert s2.thieves[i := TIdle] == s.thieves[i := TIdle];
    }
  }

  lemma ThiefRunThen<T>(s: State<T>, i: nat, n: nat)
    requires |s.items| == CAP
    ensures ThiefRun(s, i, 2 + n) == ThiefRun(ThiefRun(s, i, 2), i, n)
  {
    assert |ThiefStep(s, i).items| == CAP;
    hide ThiefStep;
    TwoSteps(s, i);
    assert ThiefRun(s, i, 2 + n) == ThiefRun(ThiefStep(s, i), i, 1 + n);
  }

  lemma StealLooks<T>(s: State<T>, i: nat)
    requires |s.items| == CAP && Pc(s, i) == TIdle && (Diff(Word(s.bottom), Word(s.top)) > 0 <==> s.bottom > s.top)
    ensures ThiefRun(s, i, 2) ==
            s.(thieves := s.thieves[i := if s.bottom > s.top then Sure(s.top) else TIdle])
  {
    hide Diff, Word;
    var s1 := s.(thieves := s.thieves[i := TopRead(s.top)]);
    assert ThiefStep(s, i) == s1;
    hide ThiefRun;
    TwoSteps(s, i);
  }

  lemma TwoSteps<T>(s: State<T>, i: nat)
    requires |s.items| == CAP
    ensures ThiefRun(s, i, 2) == ThiefStep(ThiefStep(s, i), i)
  {
    assert |ThiefStep(s, i).items| == CAP;
    assert |ThiefStep(ThiefStep(s, i), i).items| == CAP;
    hide ThiefStep;
    assert ThiefRun(s, i, 2) == ThiefRun(ThiefStep(s, i), i, 1);
  }

  lemma StealTakes<T>(s: State<T>, i: nat)
    requires |s.items| == CAP && Pc(s, i) == Sure(s.top)
    ensures ThiefRun(s, i, 2) == s.(top := s.top + 1, thieves := s.thieves[i := TIdle],
                                    returned := s.returned + multiset{s.items[Slot(s.top)]})
  {
    hide Diff, Word;
    var s1 := s.(thieves := s.thieves[i := ItemRead(s.top, s.items[Slot(s.top)])]);
    assert ThiefStep(s, i) == s1;
    hide ThiefRun;
    TwoSteps(s, i);
  }

  lemma BottomBounds<T>(s: State<T>)
    requires Inv(s)
    ensures |s.items| == CAP && -HALF < s.bottom - s.top < HALF
    ensures s.bottom > s.top ==> Window(s) != [] && Window(s)[0] == s.items[Slot(s.top)]
  {
    hide AllThieves, Conserved, Slot;
    assert s.bottom <= LogicalBottom(s);
    if s.bottom > s.top { SliceTail(s.items, s.top, LogicalBottom(s)); }
  }

  lemma StepKeepsInv<T>(s: State<T>, e: Event<T>)
    requires Inv(s) && Timely(s, e)
    ensures Inv(Apply(s, e))
  {
    match e
    case Push(x) => StartKeepsInv(s, e);
    case Pop => StartKeepsInv(s, e);
    case Owner => OwnerKeepsInv(s);
    case Thief(i) => ThiefKeepsInv(s, i);
  }

  // ---------- Whole runs ----------

  /** The state after a run, whatever the interleaving. */
  function Run<T>(s: State<T>, es: seq<Event<T>>): (r: State<T>)
    requires |s.items| == CAP
    ensures |r.items| == CAP
  {
    if es == [] then s else Apply(Run(s, es[..|es| - 1]), es[|es| - 1])
  }

  ghost predicate TimelyRun<T>(s: State<T>, es: seq<Event<T>>)
    requires |s.items| == CAP
  {
    forall k :: 0 <= k < |es| ==> Timely(Run(s, es[..k]), es[k])
  }

  lemma InitInv<T>(s: State<T>)
    requires Init(s)
    ensures Inv(s)
  {
    forall i ensures ThiefInv(s, i) {}
  }

  lemma TimelyPrefix<T>(s: State<T>, es: seq<Event<T>>)
    requires |s.items| == CAP && es != []
    requires TimelyRun(s, es)
    ensures TimelyRun(s, es[..|es| - 1]) && Timely(Run(s, es[..|es| - 1]), es[|es| - 1])
  {
    hide Timely, Run;
    var n := |es| - 1;
    forall k | 0 <= k < n ensures Timely(Run(s, es[..n][..k]), es[..n][k]) {
      assert es[..n][..k] == es[..k];
      assert Timely(Run(s, es[..k]), es[k]);
    }
    assert Timely(Run(s, es[..n]), es[n]);
  }

  lemma {:induction false} RunKeepsInv<T>(s: State<T>, es: seq<Event<T>>)
    requires Init(s) && TimelyRun(s, es)
    ensures Inv(Run(s, es))
  {
    assert |s.items| == CAP;
    hide Inv, Timely, TimelyRun, Init;
    if es == [] {
      InitInv(s);
    } else {
      var n := |es| - 1;
      TimelyPrefix(s, es);
      RunKeepsInv(s, es[..n]);
      StepKeepsInv(Run(s, es[..n]), es[n]);
    }
  }

  /** Some run from an empty deque ends in `r`. */
  ghost predicate Reachable<T(!new)>(r: State<T>) {
    exists s: State<T>, es: seq<Event<T>> :: Init(s) && TimelyRun(s, es) && r == Run(s, es)
  }

  lemma ReachableInv<T(!new)>(r: State<T>)
    requires Reachable(r)
    ensures Inv(r)
  {
    var s: State<T>, es: seq<Event<T>> :| Init(s) && TimelyRun(s, es) && r == Run(s, es);
    RunKeepsInv(s, es);
  }

  /** Exactly once, over every run: what was pushed is what was returned, plus the window,
      plus at most one item in the owner's hands; nothing is lost, invented or duplicated. */
  lemma ExactlyOnce<T(!new)>(r: State<T>)
    requires Reachable(r)
    ensures |r.items| == CAP && r.pushed == r.returned + multiset(Window(r)) + InFlight(r)
    ensures r.owner == OIdle ==> r.pushed == r.returned + multiset(Slice(r.items, r.top, r.bottom))
  {
    ReachableInv(r);
  }

  /** Ring safety, over every run: `bottom - top` stays in [-1, 4096], is -1 only inside a pop,
      the slots of the window are pairwise distinct, and the slot the owner is about to write
      is none of them. */
  lemma RingSafety<T(!new)>(r: State<T>)
    requires Reachable(r)
    ensures -1 <= r.bottom - r.top <= CAP
    ensures r.bottom - r.top == -1 ==>
              r.owner.PopStored? || r.owner.PopEmpty? || r.owner.PopLast? || r.owner.PopRead? || r.owner.PopSettled?
    ensures forall i, j :: r.top <= i < j < LogicalBottom(r) ==> Slot(i) != Slot(j)
    ensures r.owner.PushChecked? ==> forall i :: r.top <= i < LogicalBottom(r) ==> Slot(i) != Slot(r.owner.b)
  {
    ReachableInv(r);
    forall i, j | r.top <= i < j < LogicalBottom(r) ensures Slot(i) != Slot(j) { SlotsDiffer(i, j); }
    if r.owner.PushChecked? {
      forall i | r.top <= i < LogicalBottom(r) ensures Slot(i) != Slot(r.owner.b) { SlotsDiffer(i, r.owner.b); }
    }
  }

  /** A thief's emptiness test is right exactly while the low 64 bits of its drift are below
      2^63 and the drift is not a positive multiple of 2^64. */
  lemma ThiefTestExact(b: int, t: int)
    requires b - t >= -1
    ensures (Diff(Word(b), Word(t)) > 0 <==> b - t > 0) <==> (b - t <= 0 || 0 < (b - t) % WORD < HALF)
  {
    assert b == WORD * (b / WORD) + Word(b) && t == WORD * (t / WORD) + Word(t);
    ModShift(Word(b) - Word(t), b / WORD - t / WORD);
  }

  /** A thief's CAS decides rightly exactly while `top` has not moved by a positive multiple of
      2^64 since the thief read it. */
  lemma CasExact<T>(s: State<T>, i: nat)
    requires Inv(s) && Pc(s, i).ItemRead?
    ensures (ThiefWords(s, i) <==> s.top == Pc(s, i).t) <==> (s.top == Pc(s, i).t || (s.top - Pc(s, i).t) % WORD != 0)
  {
    var t := Pc(s, i).t;
    assert s.top == WORD * (s.top / WORD) + Word(s.top) && t == WORD * (t / WORD) + Word(t);
    ModShift(Word(s.top) - Word(t), s.top / WORD - t / WORD);
  }

  // ---------- A run in which it decides wrongly ----------

  lemma ReachableStep<T(!new)>(r: State<T>, e: Event<T>)
    requires Reachable(r) && |r.items| == CAP && Timely(r, e)
    ensures Reachable(Apply(r, e))
  {
    var s: State<T>, es: seq<Event<T>> :| Init(s) && TimelyRun(s, es) && r == Run(s, es);
    var fs := es + [e];
    assert fs[..|es|] == es;
    forall k | 0 <= k < |fs| ensures Timely(Run(s, fs[..k]), fs[k]) {
      if k < |es| { assert fs[..k] == es[..k] && Timely(Run(s, es[..k]), es[k]); }
    }
    assert Run(s, fs) == Apply(r, e);
  }

  /** Thief 0 has read item 7 at `top` 0 and sleeps, while `n` items have been stolen since. */
  ghost predicate Lapped(s: State<int>, n: nat) {
    && |s.items| == CAP && s.owner == OIdle && s.top == n && s.bottom == n + 1
    && s.items[Slot(n)] == (if n == 0 then 7 else 8)
    && Pc(s, 0) == ItemRead(0, 7) && Pc(s, 1) == TIdle
    && s.pushed[7] == 1 && s.returned[7] == (if n == 0 then 0 else 1)
  }

  /** Thief 1 steals the one item there is. */
  lemma LapSteal(s: State<int>, n: nat) returns (r: State<int>)
    requires Reachable(s) && Lapped(s, n)
    ensures Reachable(r) && |r.items| == CAP && r.owner == OIdle && r.top == r.bottom == n + 1
    ensures Pc(r, 0) == ItemRead(0, 7) && Pc(r, 1) == TIdle && r.pushed[7] == r.returned[7] == 1
  {
    hide Reachable;
    var a := Apply(s, Thief(1));
    ReachableStep(s, Thief(1));
    var b := Apply(a, Thief(1));
    ReachableStep(a, Thief(1));
    DiffExact(n + 1, n);
    var c := Apply(b, Thief(1));
    ReachableStep(b, Thief(1));
    r := Apply(c, Thief(1));
    ReachableStep(c, Thief(1));
  }

  /** The owner pushes `x`. */
  lemma LapPush(s: State<int>, x: int) returns (r: State<int>)
    requires Reachable(s) && |s.items| == CAP && s.owner == OIdle && s.bottom == s.top
    ensures Reachable(r) && |r.items| == CAP && r.owner == OIdle && r.top == s.top && r.bottom == s.bottom + 1
    ensures r.items[Slot(s.bottom)] == x && r.thieves == s.thieves && r.pushed == s.pushed + multiset{x}
    ensures r.returned == s.returned
  {
    hide Reachable;
    var a := Apply(s, Push(x));
    ReachableStep(s, Push(x));
    var b := Apply(a, Owner);
    ReachableStep(a, Owner);
    var c := Apply(b, Owner);
    ReachableStep(b, Owner);
    r := Apply(c, Owner);
    ReachableStep(c, Owner);
  }

  lemma InitReachable<T(!new)>(s: State<T>)
    requires Init(s)
    ensures Reachable(s)
  {
    assert TimelyRun(s, []) && s == Run(s, []);
  }

  lemma LapStart() returns (r: State<int>)
    ensures Reachable(r) && Lapped(r, 0)
  {
    hide Reachable;
    var i: State<int> := State(0, 0, seq(CAP, _ => 0), OIdle, map[], multiset{}, multiset{});
    InitReachable(i);
    var a := LapPush(i, 7);
    var b := Apply(a, Thief(0));
    ReachableStep(a, Thief(0));
    var c := Apply(b, Thief(0));
    ReachableStep(b, Thief(0));
    DiffExact(1, 0);
    r := Apply(c, Thief(0));
    ReachableStep(c, Thief(0));
  }

  lemma {:induction false} Lap(n: nat) returns (r: State<int>)
    ensures Reachable(r) && Lapped(r, n)
  {
    hide Reachable;
    if n == 0 {
      r := LapStart();
    } else {
      var s := Lap(n - 1);
      var e := LapSteal(s, n - 1);
      r := LapPush(e, 8);
    }
  }

  /** So the assumption `Timely` is needed: in a state that the deque can reach, a thief that slept
      through 2^64 steals wins its CAS and returns an item a second time that was pushed once. */
  lemma StaleCasAfterFullTurn() returns (r: State<int>)
    ensures Reachable(r) && |r.items| == CAP && Pc(r, 0) == ItemRead(0, 7) && r.top == WORD && r.pushed[7] == 1
    ensures ThiefStep(r, 0).top == WORD + 1 && ThiefStep(r, 0).returned[7] == 2
  {
    r := Lap(WORD);
  }

  // ---------- The operations under interference ----------

  /** The deque as it lies in memory. Each access of the owner is one method; between any two
      of them the thieves may take any number of steps (`Thieves`). The ghost machine state
      `m` follows along and adds only what memory does not hold. */
  class Runq<T> {
    var top: nat
    var bottom: int
    const items: array<T>
    var thieves: map<nat, ThiefPc<T>>
    ghost var m: State<T>

    ghost predicate Mirrors()
      reads this, items
    {
      && items.Length == |m.items| == CAP
      && top == m.top && bottom == m.bottom && items[..] == m.items && thieves == m.thieves
    }

    ghost predicate Valid()
      reads this, items
    {
      Mirrors() && Inv(m)
    }

    constructor (nil: T)
      ensures Valid() && m.owner == OIdle && Window(m) == [] && fresh(items)
    {
      top, bottom, thieves := 0, 0, map[];
      items := new T[CAP](_ => nil);
      new;
      m := State(0, 0, items[..], OIdle, map[], multiset{}, multiset{});
      forall i ensures ThiefInv(m, i) {}
    }

    /** One step of thief `i` in cl_steal; `r` is what the call returns if this step ends it. */
    method StealStep(i: nat) returns (r: Option<T>)
      requires Valid() && Timely(m, Thief(i))
      modifies this
      ensures Valid() && m == ThiefStep(old(m), i) && ThiefEffect(old(m), m)
      ensures r.Some? <==> top == old(top) + 1
      ensures r.Some? ==> Window(old(m)) != [] && r.value == Window(old(m))[0]
    {
      hide Inv, Window;
      ThiefKeepsInv(m, i);
      var pc := if i in thieves then thieves[i] else TIdle;
      r := None;
      match pc {
        case TIdle => thieves := thieves[i := TopRead(top)];
        case TopRead(t) =>
          thieves := thieves[i := if Diff(Word(bottom), Word(t)) > 0 then Sure(t) else TIdle];
        case Sure(t) => thieves := thieves[i := ItemRead(t, items[Slot(t)])];
        case ItemRead(t, x) =>
          thieves := thieves[i := TIdle];
          if Word(top) == Word(t) {
            StealReturns(m, i);
            top := top + 1;
            r := Some(x);
          }
      }
      m := ThiefStep(m, i);
    }

    /** What the thieves did since the machine was in state `s`: they took the `k` oldest
        entries. By conservation these are what was returned meanwhile. */
    ghost predicate Robbed(s: State<T>, k: nat)
      requires |s.items| == CAP && |m.items| == CAP
      reads this
    {
      && m.owner == s.owner && m.bottom == s.bottom && m.pushed == s.pushed && m.items == s.items
      && m.top == s.top + k && k <= |Window(s)| && Window(m) == Window(s)[k..]
    }

    /** Any number of steps of any number of thieves. */
    method Thieves() returns (ghost k: nat)
      requires Valid()
      modifies this
      ensures Valid() && Robbed(old(m), k)
    {
      hide Inv, Window, ThiefStep;
      var steps: nat := *;
      k := 0;
      ghost var s := m;
      assert Window(s)[0..] == Window(s);
      while steps > 0
        invariant Valid() && Robbed(s, k)
      {
        var i: nat := *;
        if i !in thieves || TimelyCas(thieves[i], top) {
          var r := StealStep(i);
          if r.Some? {
            assert Window(s)[k..][1..] == Window(s)[k + 1..];
            k := k + 1;
          }
        }
        steps := steps - 1;
      }
    }

    /** cl_push_bottom. Whatever the thieves do meanwhile, the deque gains `x` at the end and
        loses `k` entries at the front. A full deque aborts the process. */
    method PushBottom(x: T) returns (size: nat, aborted: bool, ghost k: nat)
      requires Valid() && m.owner == OIdle
      modifies this, items
      ensures Valid() && k <= |Window(old(m))| && m.owner == (if aborted then Aborted else OIdle)
      ensures aborted ==> |Window(old(m))| == CAP && k == 0 && m.pushed == old(m.pushed) && Window(m) == Window(old(m))
      ensures !aborted ==> |Window(old(m))| < CAP || k > 0
      ensures !aborted ==> m.pushed == old(m.pushed) + multiset{x} && Window(m) == Window(old(m))[k..] + [x]
      ensures !aborted ==> |Window(m)| <= size <= |Window(old(m))| + 1 <= CAP + 1 && size <= CAP
    {
      hide Inv, Window;
      size := 0;
      WindowFits(m);
      StartKeepsInv(m, Push(x));
      var b := Word(bottom);
      m := Apply(m, Push(x));
      k := Thieves();
      OwnerKeepsInv(m);
      AbortsExactly(m);
      var t := Word(top);
      aborted := FullTest(b, t);
      m := OwnerStep(m);
      if aborted { return; }
      ghost var k1 := FillSlot(b, x);
      k := k + k1;
      OwnerKeepsInv(m);
      SizeExact(m);
      bottom := bottom + 1;
      m := OwnerStep(m);
      size := Word(b as int + 1 - t);
    }

    /** The slot store of a push, with the thieves before and after it. */
    method FillSlot(b: nat, x: T) returns (ghost k: nat)
      requires Valid() && m.owner.PushChecked? && b == Word(m.bottom) && x == m.owner.x
      modifies this, items
      ensures Valid() && m.owner == PushStored(x, old(m.owner.b), old(m.owner.t)) && m.bottom == old(m.bottom)
      ensures m.pushed == old(m.pushed) && k <= |Window(old(m))| && Window(m) == Window(old(m))[k..]
    {
      hide Inv, Window;
      k := Thieves();
      OwnerKeepsInv(m);
      OwnerBottom(m);
      items[Slot(b)] := x;
      m := OwnerStep(m);
      ghost var k1 := Thieves();
      assert Window(old(m))[k..][k1..] == Window(old(m))[k + k1..];
      k := k + k1;
    }

    /** cl_pop_bottom. Whatever the thieves do meanwhile, they take `k` entries from the front,
        and the owner gets the last entry unless they got that one too. */
    method PopBottom() returns (r: Option<T>, ghost k: nat)
      requires Valid() && m.owner == OIdle
      modifies this
      ensures Valid() && m.owner == OIdle && m.pushed == old(m.pushed) && k <= |Window(old(m))|
      ensures r.Some? ==>
                && k < |Window(old(m))| && r.value == Window(old(m))[|Window(old(m))| - 1]
                && Window(m) == Window(old(m))[k..|Window(old(m))| - 1]
      ensures r.None? ==> k == |Window(old(m))| && Window(m) == [] && top == bottom
    {
      hide Inv, Window, OwnerStep, Word, Diff;
      var b := bottom - 1;
      ghost var w := Window(m);
      k := LowerBottom(b);
      ghost var k1;
      DecideStep(m);
      var t := top;
      m := OwnerStep(m);
      if Diff(Word(b), Word(t)) < 0 {
        k1 := Thieves();
        RestoreStep(m);
        bottom := t;
        m := OwnerStep(m);
        r := None;
      } else if Word(b) != Word(t) {
        assert w[k..][..|w[k..]| - 1] == w[k..|w| - 1];
        r, k1 := TakeClaimed(b);
        assert w[k..|w| - 1][k1..] == w[k + k1..|w| - 1];
        k := k + k1;
      } else {
        r, k1 := RaceForLast(b);
        assert w[k..][k1..] == w[k + k1..];
        k := k + k1;
      }
    }

    /** The start of a pop: reserve the last entry by lowering `bottom`. */
    method LowerBottom(b: int) returns (ghost k: nat)
      requires Valid() && m.owner == OIdle && b == bottom - 1
      modifies this
      ensures Valid() && m.owner == PopStored(b) && m.bottom == b && m.pushed == old(m.pushed)
      ensures k <= |Window(old(m))| && Window(m) == Window(old(m))[k..]
    {
      hide Inv, Window, OwnerStep;
      StartKeepsInv(m, Pop);
      m := Apply(m, Pop);
      k := Thieves();
      LowerStep(m);
      bottom := b;
      m := OwnerStep(m);
      ghost var k1 := Thieves();
      assert Window(old(m))[k..][k1..] == Window(old(m))[k + k1..];
      k := k + k1;
    }

    /** The end of a pop that left at least one entry to the thieves. */
    method TakeClaimed(b: int) returns (r: Option<T>, ghost k: nat)
      requires Valid() && m.owner == PopTake(b)
      modifies this
      ensures Valid() && m.owner == OIdle && m.pushed == old(m.pushed)
      ensures k <= |Window(old(m))| && Window(m) == Window(old(m))[k..]
      ensures r.Some? && multiset{r.value} == InFlight(old(m))
    {
      hide Inv, Window;
      k := Thieves();
      OwnerKeepsInv(m);
      r := Some(items[Slot(b)]);
      m := OwnerStep(m);
    }

    /** The end of a pop that found one entry: the owner and the thieves race for it with CAS,
        and whoever wins, `top == bottom == b + 1` afterwards. */
    method RaceForLast(b: int) returns (r: Option<T>, ghost k: nat)
      requires Valid() && m.owner == PopLast(b) && |Window(m)| <= 1
      modifies this
      ensures Valid() && m.owner == OIdle && m.pushed == old(m.pushed) && Window(m) == []
      ensures top == bottom == b + 1
      ensures r.Some? ==> k == 0 && Window(old(m)) == [r.value]
      ensures r.None? ==> k == |Window(old(m))|
    {
      hide Inv, Window, OwnerStep, Word;
      var item;
      item, k := ReadLast(b);
      RaceStep(m);
      var won := Word(top) == Word(b);
      m := OwnerStep(m);
      r := None;
      if won {
        top := top + 1;
        r := Some(item);
      }
      ghost var k1 := Thieves();
      SettleStep(m);
      bottom := b + 1;
      m := OwnerStep(m);
    }

    /** The load of the last entry, before the race for it. */
    method ReadLast(b: int) returns (item: T, ghost k: nat)
      requires Valid() && m.owner == PopLast(b)
      modifies this
      ensures Valid() && m.owner == PopRead(b, item) && m.pushed == old(m.pushed)
      ensures k <= |Window(old(m))| && Window(m) == Window(old(m))[k..]
    {
      hide Inv, Window, OwnerStep, Word;
      k := Thieves();
      ReadLastStep(m);
      item := items[Slot(b)];
      m := OwnerStep(m);
      ghost var k1 := Thieves();
      assert Window(old(m))[k..][k1..] == Window(old(m))[k + k1..];
      k := k + k1;
    }
  }

  /** Inside a push the owner's copy of `bottom` is current, and the wrapped index is the slot. */
  lemma OwnerBottom<T>(s: State<T>)
    requires Inv(s) && (s.owner.PushChecked? || s.owner.PushStored?)
    ensures s.owner.b == s.bottom && Slot(Word(s.bottom)) == Slot(s.bottom)
  {
    WordSlot(s.bottom);
  }

  lemma WordSlot(x: int)
    ensures Slot(Word(x)) == Slot(x)
  {}

  // The steps of a pop one by one, as the methods above use them.

  lemma LowerStep<T>(s: State<T>)
    requires Inv(s) && s.owner.PopLoaded?
    ensures OwnerStep(s) == s.(bottom := s.owner.b, owner := PopStored(s.owner.b))
    ensures Inv(OwnerStep(s)) && Window(OwnerStep(s)) == Window(s)
  {
    OwnerKeepsInv(s);
  }

  lemma DecideStep<T>(s: State<T>)
    requires Inv(s) && s.owner.PopStored?
    ensures var b, w, s' := s.owner.b, Window(s), OwnerStep(s);
            && b == s.bottom && Inv(s')
            && if Diff(Word(b), Word(s.top)) < 0 then s' == s.(owner := PopEmpty(s.top)) && Window(s') == w == []
               else if Word(b) != Word(s.top)
               then s' == s.(owner := PopTake(b)) && |w| >= 2 && Window(s') == w[..|w| - 1]
                    && InFlight(s') == multiset{w[|w| - 1]}
               else s' == s.(owner := PopLast(b)) && Window(s') == w && |w| <= 1
  {
    OwnerKeepsInv(s);
    OwnerTestsExact(s);
  }

  lemma RestoreStep<T>(s: State<T>)
    requires Inv(s) && s.owner.PopEmpty?
    ensures OwnerStep(s) == s.(bottom := s.owner.t, owner := OIdle) && s.top == s.owner.t
    ensures Inv(OwnerStep(s)) && Window(OwnerStep(s)) == []
  {
    OwnerKeepsInv(s);
  }

  lemma ReadLastStep<T>(s: State<T>)
    requires Inv(s) && s.owner.PopLast?
    ensures OwnerStep(s) == s.(owner := PopRead(s.owner.b, s.items[Slot(s.owner.b)]))
    ensures Inv(OwnerStep(s)) && Window(OwnerStep(s)) == Window(s) && |Window(s)| <= 1
  {
    OwnerKeepsInv(s);
  }

  lemma RaceStep<T>(s: State<T>)
    requires Inv(s) && s.owner.PopRead?
    ensures Inv(OwnerStep(s)) && Window(OwnerStep(s)) == []
    ensures if Word(s.top) == Word(s.owner.b)
            then OwnerStep(s) == s.(top := s.top + 1, owner := PopSettled(s.owner.b, Some(s.owner.x)))
                 && Window(s) == [s.owner.x]
            else OwnerStep(s) == s.(owner := PopSettled(s.owner.b, None)) && Window(s) == []
  {
    OwnerKeepsInv(s);
    OwnerTestsExact(s);
  }

  lemma SettleStep<T>(s: State<T>)
    requires Inv(s) && s.owner.PopSettled?
    ensures OwnerStep(s).(returned := s.returned) == s.(bottom := s.owner.b + 1, owner := OIdle)
    ensures s.top == s.owner.b + 1 && Inv(OwnerStep(s)) && Window(OwnerStep(s)) == []
  {
    OwnerKeepsInv(s);
  }

  /** The size a push reports counts what it saw: never less than what is left. */
  lemma SizeExact<T>(s: State<T>)
    requires Inv(s) && s.owner.PushStored?
    ensures Word(Word(s.owner.b) + 1 - Word(s.owner.t)) == s.owner.b + 1 - s.owner.t
    ensures |Window(s)| + 1 <= s.owner.b + 1 - s.owner.t <= CAP
  {
    var b, t := s.owner.b, s.owner.t;
    assert b == WORD * (b / WORD) + Word(b) && t == WORD * (t / WORD) + Word(t);
    ModShift(Word(b) + 1 - Word(t), b / WORD - t / WORD);
  }

  lemma StealReturns<T>(s: State<T>, i: nat)
    requires Inv(s) && Timely(s, Thief(i)) && Pc(s, i).ItemRead? && ThiefWords(s, i)
    ensures Window(s) != [] && Window(s)[0] == Pc(s, i).x
  {
    ThiefWordsSound(s, i);
    assert ThiefInv(s, i);
    StealEffect(s, i);
  }
}
