/**
  The slot allocator shared by threads without a lock.

  `State` and `Step` are the protocol: one step per atomic operation, a program counter per
  thread, and every interleaving is a sequence of actions. Class `Pool` is the code of the
  two operations; run without interference it takes exactly those steps.
 */
module BorrowPool {
  import opened Prelude

  /** Where a thread is. A hint of None is INVALIDPOS. */
  datatype Pc =
    | Idle
    | Exchange            // about to swap the hint out
    | TryHint(pos: nat)   // about to CAS the hinted slot
    | CheckFull           // about to compare the counter with the size
    | Scan(pos: nat)      // about to CAS slot pos, or past the end
    | Increment(pos: nat) // has won a CAS, has not counted it yet
    | Holding(pos: nat)   // has a slot, has not yet built the BorrowedObject
    | Waiting             // getValidPos returned INVALIDPOS
    | Clear(pos: nat)     // destructor: about to clear the flag
    | SetHint(pos: nat)   // flag cleared, about to publish the hint
    | Decrement           // about to decrement the counter

  /** `objects` are the live BorrowedObjects and their slots; `leaked` the slots a move dropped. */
  datatype State = State(hint: Option<nat>, borrowed: int, bits: seq<bool>, threads: seq<Pc>,
                         objects: map<nat, nat>, leaked: set<nat>)

  datatype Action =
    | Borrow(t: nat)             // a thread calls borrow
    | Advance(t: nat)            // a thread performs its next atomic operation
    | Wake(t: nat)               // the wait returns and borrow tries again
    | TimeOut(t: nat)            // the wait times out; an empty object is returned
    | Deliver(t: nat, id: nat)   // borrow returns object id
    | Destroy(t: nat, id: nat)   // the destructor of object id starts
    | Move(src: nat, dst: nat)   // object src is move-assigned (or moved) into dst
    | Overwrite(dst: nat)        // an empty object, timed out or moved from, is move-assigned over dst

  ghost predicate Enabled(s: State, a: Action) {
    match a
    case Borrow(t) => t < |s.threads| && s.threads[t].Idle?
    case Advance(t) =>
      t < |s.threads| && !s.threads[t].Idle? && !s.threads[t].Waiting? && !s.threads[t].Holding?
    case Wake(t) => t < |s.threads| && s.threads[t].Waiting?
    case TimeOut(t) => t < |s.threads| && s.threads[t].Waiting?
    case Deliver(t, id) => t < |s.threads| && s.threads[t].Holding? && id !in s.objects
    case Destroy(t, id) => t < |s.threads| && s.threads[t].Idle? && id in s.objects
    case Move(src, dst) => src in s.objects && src != dst
    case Overwrite(dst) => dst in s.objects
  }

  function Goto(s: State, t: nat, pc: Pc): State
    requires t < |s.threads|
  {
    s.(threads := s.threads[t := pc])
  }

  /** The next atomic operation of thread t. */
  function Atomic(s: State, t: nat): State
    requires t < |s.threads|
  {
    match s.threads[t]
    case Exchange =>
      Goto(s, t, if s.hint.Some? then TryHint(s.hint.value) else CheckFull).(hint := None)
    case TryHint(p) =>
      if p < |s.bits| && !s.bits[p] then Goto(s, t, Increment(p)).(bits := s.bits[p := true])
      else Goto(s, t, CheckFull)
    case CheckFull => Goto(s, t, if s.borrowed == |s.bits| then Waiting else Scan(0))
    case Scan(p) =>
      if p >= |s.bits| then Goto(s, t, Waiting)
      else if !s.bits[p] then Goto(s, t, Increment(p)).(bits := s.bits[p := true])
      else Goto(s, t, Scan(p + 1))
    case Increment(p) => Goto(s, t, Holding(p)).(borrowed := s.borrowed + 1)
    case Clear(p) =>
      Goto(s, t, SetHint(p)).(bits := if p < |s.bits| then s.bits[p := false] else s.bits)
    case SetHint(p) => Goto(s, t, Decrement).(hint := Some(p))
    case Decrement => Goto(s, t, Idle).(borrowed := s.borrowed - 1)
    case _ => s
  }

  function Step(s: State, a: Action): State
    requires Enabled(s, a)
  {
    match a
    case Borrow(t) => Goto(s, t, Exchange)
    case Advance(t) => Atomic(s, t)
    case Wake(t) => Goto(s, t, Exchange)
    case TimeOut(t) => Goto(s, t, Idle)
    case Deliver(t, id) => Goto(s, t, Idle).(objects := s.objects[id := s.threads[t].pos])
    case Destroy(t, id) => Goto(s, t, Clear(s.objects[id])).(objects := s.objects - {id})
    case Move(src, dst) =>
      s.(objects := (s.objects - {src})[dst := s.objects[src]],
         leaked := if dst in s.objects then s.leaked + {s.objects[dst]} else s.leaked)
    case Overwrite(dst) => s.(objects := s.objects - {dst}, leaked := s.leaked + {s.objects[dst]})
  }

  /** A pool of n slots as constructed, with a number of threads about to use it. */
  function Init(n: nat, threads: nat): State
    requires n > 0
  {
    State(Some(0), 0, seq(n, _ => false), seq(threads, _ => Idle), map[], {})
  }

  ghost predicate Possible(s: State, run: seq<Action>)
    decreases |run|
  {
    run != [] ==> Enabled(s, run[0]) && Possible(Step(s, run[0]), run[1..])
  }

  function After(s: State, run: seq<Action>): State
    requires Possible(s, run)
    decreases |run|
  {
    if run == [] then s else After(Step(s, run[0]), run[1..])
  }

  // ---- Ownership ----

  datatype Holder = Object(id: nat) | Thread(t: nat)

  /** The slot a thread owns between taking and giving. */
  function PcSlot(pc: Pc): Option<nat> {
    match pc
    case Increment(p) => Some(p)
    case Holding(p) => Some(p)
    case Clear(p) => Some(p)
    case _ => None
  }

  /** The slot somebody owns: a live object, or a thread. */
  function SlotOf(s: State, h: Holder): Option<nat> {
    match h
    case Object(id) => if id in s.objects then Some(s.objects[id]) else None
    case Thread(t) => if t < |s.threads| then PcSlot(s.threads[t]) else None
  }

  ghost predicate InRange(s: State) {
    && (s.hint.Some? ==> s.hint.value < |s.bits|)
    && (forall t :: 0 <= t < |s.threads| ==>
          match s.threads[t] case TryHint(p) => p < |s.bits| case SetHint(p) => p < |s.bits| case _ => true)
  }

  /** Owned slots are flagged, not leaked, and owned once. */
  ghost predicate Exclusive(s: State) {
    && (forall h: Holder :: SlotOf(s, h).Some? ==>
          var p := SlotOf(s, h).value; p < |s.bits| && s.bits[p] && p !in s.leaked)
    && (forall h: Holder, k: Holder :: SlotOf(s, h).Some? && SlotOf(s, h) == SlotOf(s, k) ==> h == k)
  }

  ghost predicate Owned(s: State, p: nat) {
    p in s.leaked || exists h: Holder :: SlotOf(s, h) == Some(p)
  }

  /** No flag is set for nothing: every taken slot has an owner or was leaked. */
  ghost predicate Accounted(s: State) {
    && (forall p :: p in s.leaked ==> p < |s.bits| && s.bits[p])
    && (forall p: nat :: p < |s.bits| && s.bits[p] ==> Owned(s, p))
  }

  function Flagged(bits: seq<bool>): set<nat> {
    set p: nat | p < |bits| && bits[p]
  }

  /** Threads that have won a CAS and not yet incremented. */
  function Uncounted(threads: seq<Pc>): set<nat> {
    set t: nat | t < |threads| && threads[t].Increment?
  }

  /** Threads that have cleared a flag and not yet decremented. */
  function Overcounted(threads: seq<Pc>): set<nat> {
    set t: nat | t < |threads| && (threads[t].SetHint? || threads[t].Decrement?)
  }

  ghost predicate Counted(s: State) {
    s.borrowed == |Flagged(s.bits)| - |Uncounted(s.threads)| + |Overcounted(s.threads)|
  }

  ghost predicate Inv(s: State) {
    InRange(s) && Exclusive(s) && Accounted(s) && Counted(s)
  }

  lemma InitInv(n: nat, threads: nat)
    requires n > 0
    ensures Inv(Init(n, threads))
  {
    var s := Init(n, threads);
    assert Flagged(s.bits) == {} && Uncounted(s.threads) == {} && Overcounted(s.threads) == {};
  }

  // ---- The ways ownership can change ----

  lemma NothingChanged(s: State, s': State)
    requires Exclusive(s) && Accounted(s)
    requires s'.bits == s.bits && s'.leaked == s.leaked && forall h: Holder :: SlotOf(s', h) == SlotOf(s, h)
    ensures Exclusive(s') && Accounted(s')
  {
    forall p: nat | p < |s'.bits| && s'.bits[p] ensures Owned(s', p) {
      assert Owned(s, p);
      if p !in s.leaked {
        var h: Holder :| SlotOf(s, h) == Some(p);
        assert SlotOf(s', h) == Some(p);
      }
    }
  }

  /** A free slot p gets its flag and the owner `me`, which owned nothing. */
  lemma Taken(s: State, s': State, me: Holder, p: nat)
    requires Exclusive(s) && Accounted(s)
    requires p < |s.bits| && !s.bits[p] && s'.bits == s.bits[p := true] && s'.leaked == s.leaked
    requires SlotOf(s, me).None?
    requires forall h: Holder :: SlotOf(s', h) == if h == me then Some(p) else SlotOf(s, h)
    ensures Exclusive(s') && Accounted(s')
  {
    forall q: nat | q < |s'.bits| && s'.bits[q] ensures Owned(s', q) {
      if q == p {
        assert SlotOf(s', me) == Some(p);
      } else {
        assert Owned(s, q);
        if q !in s.leaked {
          var h: Holder :| SlotOf(s, h) == Some(q);
          assert SlotOf(s', h) == Some(q);
        }
      }
    }
  }

  /** The slot of `from` goes to `to`; what `to` had is leaked. */
  lemma Transferred(s: State, s': State, from: Holder, to: Holder)
    requires Exclusive(s) && Accounted(s) && from != to && SlotOf(s, from).Some?
    requires s'.bits == s.bits
    requires s'.leaked == if SlotOf(s, to).Some? then s.leaked + {SlotOf(s, to).value} else s.leaked
    requires forall h: Holder :: SlotOf(s', h) == (
               if h == to then SlotOf(s, from) else if h == from then None else SlotOf(s, h))
    ensures Exclusive(s') && Accounted(s')
  {
    forall q: nat | q < |s'.bits| && s'.bits[q] ensures Owned(s', q) {
      assert Owned(s, q);
      if q !in s.leaked {
        var h: Holder :| SlotOf(s, h) == Some(q);
        if h != to {
          assert SlotOf(s', if h == from then to else h) == Some(q);
        }
      }
    }
  }

  /** The flag of the slot of `me` is cleared and `me` owns nothing. */
  lemma Released(s: State, s': State, me: Holder)
    requires Exclusive(s) && Accounted(s) && SlotOf(s, me).Some?
    requires s'.bits == s.bits[SlotOf(s, me).value := false] && s'.leaked == s.leaked
    requires forall h: Holder :: SlotOf(s', h) == if h == me then None else SlotOf(s, h)
    ensures Exclusive(s') && Accounted(s')
  {
    forall q: nat | q < |s'.bits| && s'.bits[q] ensures Owned(s', q) {
      assert Owned(s, q);
      if q !in s.leaked {
        var h: Holder :| SlotOf(s, h) == Some(q);
        assert SlotOf(s', h) == Some(q);
      }
    }
  }

  /** `me` loses its slot and nobody gets it. */
  lemma Abandoned(s: State, s': State, me: Holder)
    requires Exclusive(s) && Accounted(s) && SlotOf(s, me).Some?
    requires s'.bits == s.bits && s'.leaked == s.leaked + {SlotOf(s, me).value}
    requires forall h: Holder :: SlotOf(s', h) == if h == me then None else SlotOf(s, h)
    ensures Exclusive(s') && Accounted(s')
  {
    forall q: nat | q < |s'.bits| && s'.bits[q] ensures Owned(s', q) {
      assert Owned(s, q);
      if q !in s'.leaked {
        var h: Holder :| SlotOf(s, h) == Some(q);
        assert SlotOf(s', h) == Some(q);
      }
    }
  }

  /** A step of thread t that touches no object leaves every other owner alone. */
  lemma OnlyThread(s: State, s': State, t: nat)
    requires t < |s.threads| && |s'.threads| == |s.threads| && s'.objects == s.objects
    requires s'.threads == s.threads[t := s'.threads[t]]
    ensures SlotOf(s, Thread(t)) == PcSlot(s.threads[t])
    ensures forall h: Holder :: SlotOf(s', h) == if h == Thread(t) then PcSlot(s'.threads[t]) else SlotOf(s, h)
  {
  }

  lemma AtomicOwnership(s: State, t: nat)
    requires Exclusive(s) && Accounted(s) && Enabled(s, Advance(t))
    ensures Exclusive(Atomic(s, t)) && Accounted(Atomic(s, t))
  {
    if s.threads[t].Clear? {
      OwnerFlagged(s, Thread(t));
    }
    hide Exclusive, Accounted;
    var s' := Atomic(s, t);
    OnlyThread(s, s', t);
    hide SlotOf;
    if s'.threads[t].Increment? {
      Taken(s, s', Thread(t), s'.threads[t].pos);
    } else if s.threads[t].Clear? {
      Released(s, s', Thread(t));
    } else {
      NothingChanged(s, s');
    }
  }

  lemma OwnerFlagged(s: State, h: Holder)
    requires Exclusive(s) && SlotOf(s, h).Some?
    ensures SlotOf(s, h).value < |s.bits| && s.bits[SlotOf(s, h).value]
  {
  }

  lemma StepOwnership(s: State, a: Action)
    requires Exclusive(s) && Accounted(s) && Enabled(s, a)
    ensures Exclusive(Step(s, a)) && Accounted(Step(s, a))
  {
    hide Exclusive, Accounted, Atomic;
    var s' := Step(s, a);
    match a
    case Borrow(t) => NothingChanged(s, s');
    case Wake(t) => NothingChanged(s, s');
    case TimeOut(t) => NothingChanged(s, s');
    case Deliver(t, id) => Transferred(s, s', Thread(t), Object(id));
    case Destroy(t, id) => Transferred(s, s', Object(id), Thread(t));
    case Move(src, dst) => Transferred(s, s', Object(src), Object(dst));
    case Overwrite(dst) => Abandoned(s, s', Object(dst));
    case Advance(t) => AtomicOwnership(s, t);
  }

  lemma StepInRange(s: State, a: Action)
    requires Exclusive(s) && InRange(s) && Enabled(s, a)
    ensures InRange(Step(s, a))
  {
    if a.Advance? && s.threads[a.t].Clear? {
      OwnerFlagged(s, Thread(a.t));
    }
    hide Exclusive;
  }

  /** How moving one thread to pc changes the two counts. */
  lemma GotoCounts(threads: seq<Pc>, t: nat, pc: Pc)
    requires t < |threads|
    ensures |Uncounted(threads[t := pc])| - |Uncounted(threads)|
      == (if pc.Increment? then 1 else 0) - (if threads[t].Increment? then 1 else 0)
    ensures |Overcounted(threads[t := pc])| - |Overcounted(threads)|
      == (if pc.SetHint? || pc.Decrement? then 1 else 0)
          - (if threads[t].SetHint? || threads[t].Decrement? then 1 else 0)
  {
    OneApart(Uncounted(threads), Uncounted(threads[t := pc]), t);
    OneApart(Overcounted(threads), Overcounted(threads[t := pc]), t);
  }

  lemma FlipCounts(bits: seq<bool>, p: nat, b: bool)
    requires p < |bits| && bits[p] != b
    ensures |Flagged(bits[p := b])| == |Flagged(bits)| + if b then 1 else -1
  {
    OneApart(Flagged(bits), Flagged(bits[p := b]), p);
  }

  lemma StepCounted(s: State, a: Action)
    requires Exclusive(s) && Counted(s) && Enabled(s, a)
    ensures Counted(Step(s, a))
  {
    var s' := Step(s, a);
    if a.Move? || a.Overwrite? {
      return;
    }
    var t, pc := a.t, s'.threads[a.t];
    GotoCounts(s.threads, t, pc);
    if a.Advance? && pc.Increment? {
      FlipCounts(s.bits, pc.pos, true);
    } else if a.Advance? && s.threads[t].Clear? {
      OwnerFlagged(s, Thread(t));
      FlipCounts(s.bits, s.threads[t].pos, false);
    }
    hide Exclusive, Flagged, Uncounted, Overcounted;
  }

  lemma StepInv(s: State, a: Action)
    requires Inv(s) && Enabled(s, a)
    ensures Inv(Step(s, a))
  {
    hide Step, Enabled, Exclusive, Accounted, InRange, Counted;
    StepInRange(s, a);
    StepOwnership(s, a);
    StepCounted(s, a);
  }

  /** Every state of every interleaving, of any number of threads, satisfies the invariant. */
  lemma {:induction false} RunInv(s: State, run: seq<Action>)
    requires Inv(s) && Possible(s, run)
    ensures Inv(After(s, run))
    decreases |run|
  {
    hide Step, Inv;
    if run != [] {
      StepInv(s, run[0]);
      RunInv(Step(s, run[0]), run[1..]);
    }
  }

  // ---- Where objects and hints go ----

  /** The objects after a step: who has which slot. All that are not named keep theirs. */
  lemma ObjectsOfStep(s: State, a: Action)
    requires Enabled(s, a)
    ensures var f, g := s.objects, Step(s, a).objects;
      match a
      case Deliver(t, id) => id in g && g[id] == s.threads[t].pos && g - {id} == f
      case Destroy(t, id) => id !in g && g == f - {id} && Step(s, a).threads[t] == Clear(f[id])
      case Move(src, dst) => src !in g && dst in g && g[dst] == f[src] && g - {dst} == f - {src, dst}
      case Overwrite(dst) => dst !in g && g == f - {dst}
      case _ => g == f
  {
  }

  /** The name an object has after a run: moves rename it; destruction and overwriting end it. */
  function NameAfter(id: nat, run: seq<Action>): Option<nat>
    decreases |run|
  {
    if run == [] then Some(id)
    else match run[0]
      case Destroy(_, x) => if x == id then None else NameAfter(id, run[1..])
      case Overwrite(x) => if x == id then None else NameAfter(id, run[1..])
      case Move(src, dst) =>
        if src == id then NameAfter(dst, run[1..]) else if dst == id then None else NameAfter(id, run[1..])
      case _ => NameAfter(id, run[1..])
  }

  /** Through any run of any number of threads an object keeps its slot, under the name that moves give it. */
  lemma {:induction false} ObjectKeepsSlot(s: State, run: seq<Action>, id: nat)
    requires Possible(s, run) && id in s.objects
    ensures var x := NameAfter(id, run);
      x.Some? ==> x.value in After(s, run).objects && After(s, run).objects[x.value] == s.objects[id]
    decreases |run|
  {
    if run != [] {
      var a, s1 := run[0], Step(s, run[0]);
      ObjectsOfStep(s, a);
      if a.Move? && a.src == id {
        ObjectKeepsSlot(s1, run[1..], a.dst);
      } else if id in s1.objects && !(a.Move? && a.dst == id) {
        assert s1.objects[id] == s.objects[id] by {
          assert a.Deliver? ==> a.id != id;
        }
        ObjectKeepsSlot(s1, run[1..], id);
      }
    }
  }

  /** A borrowed object has the slot that its thread won, wherever it was moved since. */
  lemma BorrowedObjectHasSlot(s: State, t: nat, id: nat, run: seq<Action>)
    requires Enabled(s, Deliver(t, id)) && Possible(Step(s, Deliver(t, id)), run)
    ensures var s', x := After(Step(s, Deliver(t, id)), run), NameAfter(id, run);
      x.Some? ==> x.value in s'.objects && s'.objects[x.value] == s.threads[t].pos
  {
    ObjectKeepsSlot(Step(s, Deliver(t, id)), run, id);
  }

  /** A thread between its call of borrow and the return of it. */
  predicate Borrowing(pc: Pc) {
    pc.Exchange? || pc.TryHint? || pc.CheckFull? || pc.Scan? || pc.Increment? || pc.Holding? || pc.Waiting?
  }

  /** A call of borrow is only over when it delivers an object or times out, whoever else does what. */
  lemma {:induction false} BorrowGoesOn(s: State, run: seq<Action>, t: nat)
    requires Possible(s, run) && t < |s.threads| && Borrowing(s.threads[t])
    requires forall a :: a in run ==> !((a.Deliver? || a.TimeOut?) && a.t == t)
    ensures t < |After(s, run).threads| && Borrowing(After(s, run).threads[t])
    decreases |run|
  {
    if run != [] {
      assert run[0] in run;
      BorrowGoesOn(Step(s, run[0]), run[1..], t);
    }
  }

  /** The hint is taken by whoever exchanges it, and set to the slot whose flag was cleared. */
  lemma HintOfStep(s: State, a: Action)
    requires Enabled(s, a)
    ensures Step(s, a).hint ==
      if a.Advance? && s.threads[a.t].Exchange? then None
      else if a.Advance? && s.threads[a.t].SetHint? then Some(s.threads[a.t].pos)
      else s.hint
  {
  }

  // ---- What it means for a user of the pool ----

  lemma {:induction false} MoreTargetsThanSources(f: map<nat, nat>, targets: set<nat>)
    requires forall x :: x in f ==> f[x] in targets
    requires forall x, y :: x in f && y in f && f[x] == f[y] ==> x == y
    ensures |f| <= |targets|
    decreases |f|
  {
    if f != map[] {
      var x :| x in f;
      var g := f - {x};
      assert g.Keys == f.Keys - {x};
      MoreTargetsThanSources(g, targets - {f[x]});
    }
  }

  /** The counter never underflows: whoever is about to decrement finds it positive. */
  lemma CounterNeverUnderflows(s: State)
    requires Inv(s)
    ensures s.borrowed >= |Overcounted(s.threads)| >= 0
  {
    var f := map t | t in Uncounted(s.threads) :: s.threads[t].pos;
    assert f.Keys == Uncounted(s.threads);
    forall t | t in f ensures f[t] in Flagged(s.bits) && SlotOf(s, Thread(t)) == Some(f[t]) {
      assert SlotOf(s, Thread(t)) == Some(f[t]);
    }
    MoreTargetsThanSources(f, Flagged(s.bits));
  }

  /** Over every interleaving from a fresh pool: exclusive slots, set flags, a usable hint, an exact counter. */
  lemma PoolSafety(n: nat, threads: nat, run: seq<Action>)
    requires n > 0 && Possible(Init(n, threads), run)
    ensures var s := After(Init(n, threads), run);
      && (forall x, y :: x in s.objects && y in s.objects && x != y ==> s.objects[x] != s.objects[y])
      && (forall x :: x in s.objects ==> s.objects[x] < |s.bits| && s.bits[s.objects[x]])
      && (s.hint.None? || s.hint.value < |s.bits|)
      && s.borrowed == |Flagged(s.bits)| - |Uncounted(s.threads)| + |Overcounted(s.threads)|
      && s.borrowed >= |Overcounted(s.threads)|
  {
    InitInv(n, threads);
    RunInv(Init(n, threads), run);
    var s := After(Init(n, threads), run);
    CounterNeverUnderflows(s);
    forall x, y | x in s.objects && y in s.objects && x != y ensures s.objects[x] != s.objects[y] {
      assert SlotOf(s, Object(x)).Some? && SlotOf(s, Object(y)).Some?;
    }
    forall x | x in s.objects ensures s.objects[x] < |s.bits| && s.bits[s.objects[x]] {
      assert SlotOf(s, Object(x)).Some?;
    }
  }

  /** Move-assigning over a live object, an empty one or another, drops its slot. */
  lemma AssigningLeaks(s: State, a: Action)
    requires Inv(s) && Enabled(s, a)
    ensures var t := Step(s, a);
      t.leaked - s.leaked ==
        if (a.Move? || a.Overwrite?) && a.dst in s.objects then {s.objects[a.dst]} else {}
  {
    if (a.Move? || a.Overwrite?) && a.dst in s.objects {
      assert SlotOf(s, Object(a.dst)).Some?;
    }
    hide Accounted, InRange, Counted;
  }

  lemma StepKeepsLeaks(s: State, a: Action)
    requires Inv(s) && Enabled(s, a)
    ensures s.leaked <= Step(s, a).leaked && |Step(s, a).bits| == |s.bits|
  {
  }

  /** A slot dropped by move-assigning over a live object, anything or nothing, is never free and never owned again. */
  lemma {:induction false} LeaksAreForever(s: State, run: seq<Action>, p: nat)
    requires Inv(s) && Possible(s, run) && p in s.leaked
    ensures var s' := After(s, run);
      && p < |s'.bits| && s'.bits[p] && forall h: Holder :: SlotOf(s', h) != Some(p)
    decreases |run|
  {
    if run != [] {
      StepKeepsLeaks(s, run[0]);
      StepInv(s, run[0]);
      LeaksAreForever(Step(s, run[0]), run[1..], p);
    }
  }

  // ---- One thread, nobody interfering ----

  /** The state after thread t alone performs its next k atomic operations. */
  function Alone(s: State, t: nat, k: nat): (s': State)
    requires t < |s.threads|
    ensures |s'.threads| == |s.threads|
    decreases k
  {
    if k == 0 then s else Alone(Atomic(s, t), t, k - 1)
  }

  lemma {:induction false} AloneThen(s: State, t: nat, j: nat, k: nat)
    requires t < |s.threads|
    ensures Alone(Alone(s, t, j), t, k) == Alone(s, t, j + k)
    decreases j
  {
    if j > 0 {
      AloneThen(Atomic(s, t), t, j - 1, k);
    }
  }

  /** The lowest clear flag from i on. */
  function FirstFree(bits: seq<bool>, i: nat): (r: Option<nat>)
    requires i <= |bits|
    ensures r.Some? ==> i <= r.value < |bits| && !bits[r.value] && forall j :: i <= j < r.value ==> bits[j]
    ensures r.None? ==> forall j :: i <= j < |bits| ==> bits[j]
    decreases |bits| - i
  {
    if i == |bits| then None else if !bits[i] then Some(i) else FirstFree(bits, i + 1)
  }

  /** The slot an undisturbed getValidPos takes: the hint if free, else the lowest, unless the counter says full. */
  function Choice(hint: Option<nat>, borrowed: int, bits: seq<bool>): (r: Option<nat>)
    ensures r.Some? ==> r.value < |bits| && !bits[r.value]
  {
    if hint.Some? && hint.value < |bits| && !bits[hint.value] then hint
    else if borrowed == |bits| then None
    else FirstFree(bits, 0)
  }

  function Taking(s: State, t: nat, r: Option<nat>): State
    requires t < |s.threads| && (r.Some? ==> r.value < |s.bits|)
  {
    match r
    case None => Goto(s, t, Waiting).(hint := None)
    case Some(p) => Goto(s, t, Holding(p)).(hint := None, bits := s.bits[p := true], borrowed := s.borrowed + 1)
  }

  /** The scan from i on ends at the lowest free slot, having written nothing else. */
  lemma {:induction false} ScanAlone(s: State, t: nat, i: nat) returns (k: nat)
    requires t < |s.threads| && s.threads[t] == Scan(i) && i <= |s.bits| && s.hint.None?
    ensures Alone(s, t, k) == Taking(s, t, FirstFree(s.bits, i))
    decreases |s.bits| - i
  {
    var s1 := Atomic(s, t);
    if i < |s.bits| && s.bits[i] {
      k := ScanAlone(s1, t, i + 1);
      assert s1.threads[t := Waiting] == s.threads[t := Waiting];
      k := k + 1;
    } else if i == |s.bits| {
      k := 1;
      assert Alone(s, t, 1) == Alone(s1, t, 0);
    } else {
      k := 2;
      assert Alone(s, t, 2) == Alone(s1, t, 1) == Alone(Atomic(s1, t), t, 0);
    }
  }

  /** The atomic steps of an undisturbed getValidPos add up to taking the chosen slot. */
  lemma GetValidPosAlone(s: State, t: nat) returns (k: nat)
    requires InRange(s) && t < |s.threads| && s.threads[t] == Exchange
    ensures Alone(s, t, k) == Taking(s, t, Choice(s.hint, s.borrowed, s.bits))
  {
    var s1 := Atomic(s, t);
    assert Alone(s, t, 1) == Alone(s1, t, 0);
    var j := 1;
    var u := s1;
    if s.hint.Some? {
      u := Atomic(s1, t);
      assert Alone(s, t, 2) == Alone(s1, t, 1) == Alone(u, t, 0);
      j := 2;
    }
    AloneThen(s, t, j, 1);
    assert Alone(u, t, 1) == Alone(Atomic(u, t), t, 0);
    if u.threads[t].Increment? {
      k := j + 1;
    } else if s.borrowed == |s.bits| {
      k := j + 1;
    } else {
      var m := ScanAlone(Atomic(u, t), t, 0);
      AloneThen(s, t, j + 1, m);
      k := j + 1 + m;
    }
  }

  function Below(n: nat): (r: set<nat>)
    ensures |r| == n && forall p: nat :: p in r <==> p < n
  {
    if n == 0 then {} else Below(n - 1) + {n - 1}
  }

  lemma AllFlagged(bits: seq<bool>)
    ensures |Flagged(bits)| == |bits| <==> forall p :: 0 <= p < |bits| ==> bits[p]
  {
    var all := Below(|bits|);
    if p :| 0 <= p < |bits| && !bits[p] {
      Subset(Flagged(bits), all - {p});
    } else {
      assert Flagged(bits) == all;
    }
  }

  lemma {:induction false} Subset(a: set<nat>, b: set<nat>)
    requires a <= b
    ensures |a| <= |b|
  {
    if a != {} {
      var x :| x in a;
      Subset(a - {x}, b - {x});
    }
  }

  /** In any reachable state with no other operation under way, getValidPos fails exactly when every slot is taken. */
  lemma FailsOnlyWhenFull(s: State, t: nat) returns (k: nat)
    requires Inv(s) && t < |s.threads| && s.threads[t] == Exchange
    requires Uncounted(s.threads) == {} && Overcounted(s.threads) == {}
    ensures Alone(s, t, k).threads[t].Waiting? <==> forall p :: 0 <= p < |s.bits| ==> s.bits[p]
    ensures Alone(s, t, k).threads[t].Holding? <==> exists p :: 0 <= p < |s.bits| && !s.bits[p]
  {
    k := GetValidPosAlone(s, t);
    AllFlagged(s.bits);
  }

  /** So does the next try of a thread that waited and was woken. */
  lemma WokenTriesAgain(s: State, t: nat) returns (k: nat)
    requires Inv(s) && t < |s.threads| && s.threads[t].Waiting?
    requires Uncounted(s.threads) == {} && Overcounted(s.threads) == {}
    ensures var s' := Alone(Step(s, Wake(t)), t, k);
      s'.threads[t].Holding? <==> exists p :: 0 <= p < |s.bits| && !s.bits[p]
  {
    var s1 := Step(s, Wake(t));
    StepInv(s, Wake(t));
    assert Uncounted(s1.threads) == {} && Overcounted(s1.threads) == {};
    k := FailsOnlyWhenFull(s1, t);
  }

  /** A slot that was just released is the one the next undisturbed borrower gets. */
  lemma ReleasedIsNext(s: State, t: nat, u: nat) returns (k: nat)
    requires Inv(s) && t < |s.threads| && s.threads[t].Clear? && Enabled(Alone(s, t, 3), Borrow(u))
    ensures Alone(Step(Alone(s, t, 3), Borrow(u)), u, k).threads[u] == Holding(s.threads[t].pos)
  {
    var p := s.threads[t].pos;
    OwnerFlagged(s, Thread(t));
    var a, b := Atomic(s, t), Atomic(Atomic(s, t), t);
    assert Alone(s, t, 3) == Alone(a, t, 2) == Alone(b, t, 1) == Alone(Atomic(b, t), t, 0);
    var s1 := Step(Alone(s, t, 3), Borrow(u));
    assert s1.hint == Some(p) && s1.bits == s.bits[p := false];
    ReleasedInRange(s, t);
    k := GetValidPosAlone(s1, u);
  }

  lemma ReleasedInRange(s: State, t: nat)
    requires Inv(s) && t < |s.threads| && s.threads[t].Clear?
    ensures InRange(Alone(s, t, 3))
  {
    var a := Atomic(s, t);
    var b := Atomic(a, t);
    assert Alone(s, t, 3) == Alone(a, t, 2) == Alone(b, t, 1) == Alone(Atomic(b, t), t, 0);
    hide Atomic, Exclusive, Accounted, Counted, InRange;
    StepInv(s, Advance(t));
    assert Step(s, Advance(t)) == a;
    NextReleased(s, t);
    StepInv(a, Advance(t));
    StepInv(b, Advance(t));
  }

  lemma NextReleased(s: State, t: nat)
    requires t < |s.threads| && s.threads[t].Clear?
    ensures var a := Atomic(s, t);
      t < |a.threads| && a.threads[t].SetHint? && Atomic(a, t).threads[t].Decrement? && t < |Atomic(a, t).threads|
  {
  }

  /** When the full test turns a borrower away, no more slots are free than threads are late to decrement. */
  lemma TurnedAwayBySlowReleases(s: State, t: nat)
    requires Inv(s) && t < |s.threads| && s.threads[t] == CheckFull && Atomic(s, t).threads[t].Waiting?
    ensures |s.bits| - |Flagged(s.bits)| <= |Overcounted(s.threads)|
  {
  }

  /** The pool's shared variables and the code of its two operations. */
  class Pool {
    var firstFreeElement: Option<nat>
    var borrowedElements: int
    const bits: array<bool>

    /** The shared part of a protocol state is what the fields hold. */
    ghost predicate Matches(s: State)
      reads this, bits
    {
      s.hint == firstFreeElement && s.borrowed == borrowedElements && s.bits == bits[..]
    }

    constructor (elements: nat, ghost threads: nat)
      requires elements > 0
      ensures Matches(Init(elements, threads)) && fresh(bits)
      ensures firstFreeElement == Some(0) && borrowedElements == 0 && bits.Length == elements
      ensures forall i :: 0 <= i < elements ==> !bits[i]
    {
      firstFreeElement, borrowedElements := Some(0), 0;
      bits := new bool[elements](_ => false);
      new;
      assert bits[..] == Init(elements, threads).bits;
    }

    /** compare_exchange_strong from false to true. */
    method CompareExchange(pos: nat) returns (won: bool)
      requires pos < bits.Length
      modifies bits
      ensures won == !old(bits[pos])
      ensures bits[..] == old(bits[..])[pos := true]
    {
      won := !bits[pos];
      if won {
        bits[pos] := true;
      }
    }

    method GetValidPos() returns (result: Option<nat>)
      requires firstFreeElement.Some? ==> firstFreeElement.value < bits.Length
      modifies this, bits
      ensures result == Choice(old(firstFreeElement), old(borrowedElements), old(bits[..]))
      ensures forall s: State, t: nat | old(Matches(s)) && t < |s.threads| :: Matches(Taking(s, t, result))
    {
      ghost var before := bits[..];
      result := firstFreeElement;
      firstFreeElement := None;
      if result.Some? {
        var won := CompareExchange(result.value);
        if won {
          borrowedElements := borrowedElements + 1;
          return;
        }
        assert bits[..] == before;
        result := None;
      }
      if borrowedElements == bits.Length {
        return None;
      }
      var i := 0;
      while i < bits.Length
        invariant i <= bits.Length && result.None? && bits[..] == before
        invariant firstFreeElement == None && borrowedElements == old(borrowedElements)
        invariant FirstFree(before, 0) == FirstFree(before, i)
      {
        var won := CompareExchange(i);
        if won {
          result := Some(i);
          break;
        }
        assert bits[..] == before;
        i := i + 1;
      }
      if result.Some? {
        borrowedElements := borrowedElements + 1;
      }
    }

    /** The three writes of a destructor, as the steps of an undisturbed thread at Clear. */
    method DisownBorrowed(pos: nat)
      requires pos < bits.Length
      modifies this, bits
      ensures forall s: State, t: nat | old(Matches(s)) && t < |s.threads| && s.threads[t] == Clear(pos) ::
                Matches(Alone(s, t, 3)) && Alone(s, t, 3).threads == s.threads[t := Idle]
    {
      ghost var before := bits[..];
      bits[pos] := false;
      firstFreeElement := Some(pos);
      borrowedElements := borrowedElements - 1;
      assert bits[..] == before[pos := false];
      forall s: State, t: nat | old(Matches(s)) && t < |s.threads| && s.threads[t] == Clear(pos)
        ensures Matches(Alone(s, t, 3)) && Alone(s, t, 3).threads == s.threads[t := Idle]
      {
        var s1 := Atomic(s, t);
        var s2 := Atomic(s1, t);
        assert Alone(s, t, 3) == Alone(s1, t, 2) == Alone(s2, t, 1) == Alone(Atomic(s2, t), t, 0);
        assert s2.threads[t := Idle] == s.threads[t := Idle];
      }
    }
  }
}
