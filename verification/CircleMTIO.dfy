/**
  The many-producer, one-consumer ring.

  `State` and `Step` are the protocol, one step per atomic operation. A claim is the moment a
  producer's slot is decided; claims are numbered in that order, and claim k gets slot k
  modulo the ring size. Everything is proved for the runs in which the claims started stay less
  than the ring size ahead of the first claim that is not freed; module `CircleMTIOLimits`
  says which limits on the runs keep the ring safe, and that no others do.
 */
module CircleMTIO {
  import opened Prelude

  datatype Producer =
    | Idle
    | Fetch                     // entered new_write
    | Lock                      // saw an index past the end, waits for the mutex
    | FetchAgain                // holds the mutex
    | Reset                     // holds the mutex, still past the end: about to store 1
    | Unlock(slot: nat, k: nat) // has claim k, still holds the mutex
    | Check(slot: nat, k: nat)  // has claim k, about to load the slot's state
    | Mark(slot: nat, k: nat)   // saw 0, about to store 1
    | Fill(slot: nat, k: nat)   // new_write returned the slot
    | Refused(k: nat)           // new_write returned null: claim k is lost

  datatype Consumer =
    | Ready                     // not in next
    | Loaded(r: nat)            // has loaded reading_point
    | SawFull(r: nat)           // the slot's state was 2
    | Advancing(r: nat)         // about to increment reading_point
    | Wrapping(r: nat)          // about to compare it with the end

  datatype State = State(
    elements: seq<int>, flags: seq<nat>, readingPoint: nat, writingPoint: nat, mutex: Option<nat>,
    producers: seq<Producer>, consumer: Consumer, held: seq<nat>,
    // history
    started: nat,               // first fetch_adds so far
    owners: seq<nat>,           // the producers that made the claims, in claim order
    freed: nat,                 // claims below this one are freed
    published: map<nat, int>,   // what claim k held at set_ready
    got: seq<int>,              // what next returned, in order
    early: set<nat>)            // claims freed although an older one is not

  datatype Action =
    | Begin(t: nat)             // a producer calls new_write
    | Produce(t: nat)           // its next atomic operation
    | Write(t: nat, v: int)     // it stores into the slot it was given
    | SetReady(t: nat)
    | Leave(t: nat)             // it gives up after a null
    | Next                      // the consumer's next atomic operation of next
    | SetFree(j: nat)           // the consumer frees the j-th slot since the first one it still has

  ghost predicate Enabled(s: State, a: Action) {
    match a
    case Begin(t) => t < |s.producers| && s.producers[t].Idle?
    case Produce(t) =>
      t < |s.producers| && !s.producers[t].Idle? && !s.producers[t].Fill? && !s.producers[t].Refused?
      && (s.producers[t].Lock? ==> s.mutex.None?)
    case Write(t, v) => t < |s.producers| && s.producers[t].Fill?
    case SetReady(t) => t < |s.producers| && s.producers[t].Fill?
    case Leave(t) => t < |s.producers| && s.producers[t].Refused?
    case Next => true
    case SetFree(j) => s.consumer.Ready? && j < |s.held| && s.freed + j !in s.early
  }

  function Goto(s: State, t: nat, p: Producer): State
    requires t < |s.producers|
  {
    s.(producers := s.producers[t := p])
  }

  /** The next atomic operation of producer t. */
  function Produced(s: State, t: nat): State
    requires t < |s.producers|
  {
    var num := |s.flags|;
    match s.producers[t]
    case Fetch =>
      var s := s.(writingPoint := s.writingPoint + 1, started := s.started + 1);
      if s.writingPoint - 1 >= num then Goto(s, t, Lock)
      else Goto(s, t, Check(s.writingPoint - 1, |s.owners|)).(owners := s.owners + [t])
    case Lock => Goto(s, t, FetchAgain).(mutex := Some(t))
    case FetchAgain =>
      var s := s.(writingPoint := s.writingPoint + 1);
      if s.writingPoint - 1 >= num then Goto(s, t, Reset)
      else Goto(s, t, Unlock(s.writingPoint - 1, |s.owners|)).(owners := s.owners + [t])
    case Reset => Goto(s, t, Unlock(0, |s.owners|)).(writingPoint := 1, owners := s.owners + [t])
    case Unlock(slot, k) => Goto(s, t, Check(slot, k)).(mutex := None)
    case Check(slot, k) =>
      Goto(s, t, if slot < num && s.flags[slot] == 0 then Mark(slot, k) else Refused(k))
    case Mark(slot, k) =>
      Goto(s, t, Fill(slot, k)).(flags := if slot < num then s.flags[slot := 1] else s.flags)
    case _ => s
  }

  /** The next atomic operation of the consumer in next. */
  function Consumed(s: State): State {
    var num := |s.flags|;
    match s.consumer
    case Ready => s.(consumer := Loaded(s.readingPoint))
    case Loaded(r) => s.(consumer := if r < num && s.flags[r] == 2 then SawFull(r) else Ready)
    case SawFull(r) => s.(consumer := if r == s.writingPoint then Ready else Advancing(r))
    case Advancing(r) => s.(consumer := Wrapping(r), readingPoint := s.readingPoint + 1)
    case Wrapping(r) =>
      s.(consumer := Ready, readingPoint := if s.readingPoint >= num then 0 else s.readingPoint,
         held := s.held + [r], got := s.got + (if r < |s.elements| then [s.elements[r]] else []))
  }

  /** set_free of the j-th slot. */
  function Released(s: State, j: nat): State
    requires j < |s.held|
  {
    s.(flags := if s.held[j] < |s.flags| then s.flags[s.held[j] := 0] else s.flags, early := s.early + {s.freed + j})
  }

  /** History: the first claim that is not freed moves up. */
  function Dropped(s: State): (r: State)
    ensures r == s.(held := r.held, freed := r.freed, early := r.early)
    ensures s.freed <= r.freed && r.freed + |r.held| == s.freed + |s.held|
    decreases |s.held|
  {
    if s.held != [] && s.freed in s.early then
      Dropped(s.(held := s.held[1..], freed := s.freed + 1, early := s.early - {s.freed}))
    else s
  }

  function Step(s: State, a: Action): State
    requires Enabled(s, a)
  {
    match a
    case Begin(t) => Goto(s, t, Fetch)
    case Produce(t) => Produced(s, t)
    case Write(t, v) =>
      var slot := s.producers[t].slot;
      s.(elements := if slot < |s.elements| then s.elements[slot := v] else s.elements)
    case SetReady(t) =>
      var slot := s.producers[t].slot;
      if slot < |s.flags| && slot < |s.elements| then
        Goto(s, t, Idle).(flags := s.flags[slot := 2], published := s.published[s.producers[t].k := s.elements[slot]])
      else s
    case Leave(t) => Goto(s, t, Idle)
    case Next => Consumed(s)
    case SetFree(j) => Dropped(Released(s, j))
  }

  function Init(num: nat, producers: nat): State
    requires num > 0
  {
    State(seq(num, _ => 0), seq(num, _ => 0), 0, 0, None, seq(producers, _ => Idle), Ready, [],
          0, [], 0, map[], [], {})
  }

  /** The claims started by a fetch_add stay less than a lap ahead of the first one not freed. */
  ghost predicate Bounded(s: State) {
    s.started - s.freed < |s.flags|
  }

  /** A possible run every state of which is bounded. */
  ghost predicate Possible(s: State, run: seq<Action>)
    decreases |run|
  {
    Bounded(s) && (run != [] ==> Enabled(s, run[0]) && Possible(Step(s, run[0]), run[1..]))
  }

  function After(s: State, run: seq<Action>): State
    requires Possible(s, run)
    decreases |run|
  {
    if run == [] then s else After(Step(s, run[0]), run[1..])
  }

  // ---- Claim numbers and slots ----

  /** The slot of claim k: k modulo num, counted round the ring. */
  function Slot(k: nat, num: nat): (i: nat)
    requires num > 0
    ensures i < num
  {
    if k == 0 then 0 else if Slot(k - 1, num) + 1 == num then 0 else Slot(k - 1, num) + 1
  }

  lemma {:induction false} SlotAhead(k: nat, j: nat, num: nat)
    requires j < num
    ensures Slot(k + j, num) == if Slot(k, num) + j < num then Slot(k, num) + j else Slot(k, num) + j - num
  {
    if j > 0 {
      SlotAhead(k, j - 1, num);
    }
  }

  /** Claims less than a lap apart never share a slot. */
  lemma SlotsDiffer(k: nat, l: nat, num: nat)
    requires k < l < k + num
    ensures Slot(k, num) != Slot(l, num)
  {
    SlotAhead(k, l - k, num);
  }

  // ---- The invariant ----

  /** A producer that has claimed and not yet published. */
  predicate Working(p: Producer) {
    p.Unlock? || p.Check? || p.Mark? || p.Fill?
  }

  function Pending(producers: seq<Producer>): set<nat> {
    set t: nat | t < |producers| && (producers[t].Lock? || producers[t].FetchAgain? || producers[t].Reset?)
  }

  ghost predicate Shape(s: State) {
    && |s.flags| > 0 && |s.elements| == |s.flags|
    && s.freed <= |s.got| <= |s.owners|
    && |s.owners| + |Pending(s.producers)| == s.started
  }

  ghost predicate MutexOk(s: State) {
    forall t :: 0 <= t < |s.producers| ==>
      (s.mutex == Some(t) <==> s.producers[t].FetchAgain? || s.producers[t].Reset? || s.producers[t].Unlock?)
  }

  /** The writing point is the slot of the next claim, or past the end when that slot is 0. */
  ghost predicate Frontier(s: State)
    requires |s.flags| > 0
  {
    && Slot(|s.owners|, |s.flags|) == (if s.writingPoint < |s.flags| then s.writingPoint else 0)
    && forall t :: 0 <= t < |s.producers| && s.producers[t].Reset? ==> s.writingPoint >= |s.flags|
  }

  /** Whoever made claim k is working on it. */
  ghost predicate InWork(s: State, k: nat)
    requires k < |s.owners|
  {
    var t := s.owners[k];
    t < |s.producers| && Working(s.producers[t]) && s.producers[t].k == k
  }

  /** Each working producer works on its own claim, in the claim's slot, not yet published nor read. */
  ghost predicate Claimed(s: State)
    requires |s.flags| > 0
  {
    && (forall t :: 0 <= t < |s.producers| && Working(s.producers[t]) ==>
          var p := s.producers[t];
          && |s.got| <= p.k < |s.owners| && s.owners[p.k] == t
          && p.k !in s.published && p.slot == Slot(p.k, |s.flags|))
    && (forall t :: 0 <= t < |s.producers| ==> !s.producers[t].Refused?)
    && (forall k :: k in s.published ==> k < |s.owners|)
  }

  /** No claim is lost: each is published or being worked on. */
  ghost predicate NoneLost(s: State) {
    forall k: nat :: k < |s.owners| ==> k in s.published || InWork(s, k)
  }

  /** The state the slot of an unfreed claim must have. */
  ghost function FlagOf(s: State, k: nat): nat
    requires k < |s.owners|
  {
    if k in s.early then 0 else if k in s.published then 2
        else if InWork(s, k) && s.producers[s.owners[k]].Fill? then 1 else 0
  }

  /** Unfreed claims determine the flags of their slots; all other slots are 0. */
  ghost predicate Flagged(s: State)
    requires |s.flags| > 0
  {
    && (forall k :: s.freed <= k < |s.owners| ==> s.flags[Slot(k, |s.flags|)] == FlagOf(s, k))
    && (forall i :: 0 <= i < |s.flags| && (forall k :: s.freed <= k < |s.owners| ==> Slot(k, |s.flags|) != i) ==>
          s.flags[i] == 0)
  }

  /** The consumer has got the published values of the first claims; unfreed ones are still in place. */
  ghost predicate Contents(s: State)
    requires |s.flags| > 0
  {
    && |s.elements| == |s.flags|
    && (forall j :: 0 <= j < |s.got| ==> j in s.published && s.got[j] == s.published[j])
    && (forall k :: k in s.published && s.freed <= k ==> s.elements[Slot(k, |s.flags|)] == s.published[k])
  }

  /** The slots the consumer has got since the first one it has not freed. */
  ghost predicate HeldSlots(s: State)
    requires |s.flags| > 0
  {
    && s.freed + |s.held| == |s.got|
    && (forall k :: k in s.early ==> s.freed <= k < |s.got|)
    && (forall j :: 0 <= j < |s.held| ==> s.held[j] == Slot(s.freed + j, |s.flags|))
  }

  /** The reading point is the slot of the next claim to read; past the checks, that claim is published. */
  ghost predicate Cursor(s: State)
    requires |s.flags| > 0
  {
    var next := Slot(|s.got|, |s.flags|);
    match s.consumer
    case Ready => s.readingPoint == next
    case Loaded(r) => s.readingPoint == r == next
    case SawFull(r) => s.readingPoint == r == next && |s.got| in s.published
    case Advancing(r) => s.readingPoint == r == next && |s.got| in s.published
    case Wrapping(r) => s.readingPoint == r + 1 && r == next && |s.got| in s.published
  }

  ghost predicate Delivered(s: State)
    requires |s.flags| > 0
  {
    Contents(s) && HeldSlots(s) && Cursor(s)
  }

  ghost predicate Slots(s: State)
    requires |s.flags| > 0
  {
    Claimed(s) && NoneLost(s) && Flagged(s) && Delivered(s)
  }

  ghost predicate Inv(s: State) {
    Shape(s) && MutexOk(s) && Frontier(s) && Slots(s)
  }

  /** What Bounded and the count of pending producers leave for the claims. */
  lemma Room(s: State)
    requires Shape(s) && Bounded(s)
    ensures |s.owners| - s.freed < |s.flags|
    ensures forall t :: t in Pending(s.producers) ==> |s.owners| + 1 - s.freed < |s.flags|
  {
    forall t | t in Pending(s.producers) ensures |s.owners| + 1 - s.freed < |s.flags| {
      assert |Pending(s.producers) - {t}| == |Pending(s.producers)| - 1;
    }
  }

  lemma InitInv(num: nat, producers: nat)
    requires num > 0
    ensures Inv(Init(num, producers))
  {
    assert Pending(Init(num, producers).producers) == {};
  }

  ghost predicate SameRing(s: State, s': State) {
    && s'.elements == s.elements && s'.flags == s.flags && s'.held == s.held && s'.got == s.got
    && s'.freed == s.freed && s'.early == s.early && s'.published == s.published
    && s'.consumer == s.consumer && s'.readingPoint == s.readingPoint
  }

  /** The claims of the window have slots of their own. */
  lemma Distinct(s: State)
    requires |s.flags| > 0 && |s.owners| - s.freed < |s.flags|
    ensures forall k, l :: s.freed <= k < |s.owners| && s.freed <= l < |s.owners| && k != l ==>
              Slot(k, |s.flags|) != Slot(l, |s.flags|)
  {
    forall k, l | s.freed <= k < |s.owners| && s.freed <= l < |s.owners| && k != l
      ensures Slot(k, |s.flags|) != Slot(l, |s.flags|)
    {
      SlotsDiffer(if k < l then k else l, if k < l then l else k, |s.flags|);
    }
  }

  // ---- Producer steps ----

  /** A producer moves without claiming, marking or publishing. */
  ghost predicate Moves(s: State, s': State, t: nat, p: Producer)
    requires |s.flags| > 0
  {
    && SameRing(s, s') && s'.owners == s.owners
    && t < |s.producers| && s'.producers == s.producers[t := p]
    && !p.Refused? && !p.Fill? && !s.producers[t].Fill? && Working(p) == Working(s.producers[t])
    && (Working(p) ==> p.k == s.producers[t].k && p.slot == s.producers[t].slot)
  }

  lemma MovedFlags(s: State, s': State, t: nat, p: Producer)
    requires |s.flags| > 0 && Moves(s, s', t, p) && Flagged(s)
    ensures Flagged(s')
  {
    assert forall k: nat | k < |s.owners| :: FlagOf(s', k) == FlagOf(s, k);
    hide FlagOf, Slot;
  }

  lemma Moved(s: State, s': State, t: nat, p: Producer)
    requires |s.flags| > 0 && Moves(s, s', t, p) && Slots(s)
    ensures Slots(s')
  {
    hide Flagged, Slot;
    MovedFlags(s, s', t, p);
  }

  /** Producer t takes the next claim and its slot. */
  ghost predicate Claims(s: State, s': State, t: nat, p: Producer)
    requires |s.flags| > 0
  {
    && SameRing(s, s') && s'.owners == s.owners + [t]
    && t < |s.producers| && s'.producers == s.producers[t := p] && !Working(s.producers[t])
    && (p.Check? || p.Unlock?) && p.k == |s.owners| && p.slot == Slot(|s.owners|, |s.flags|)
    && |s.got| <= |s.owners| && |s.owners| + 1 - s.freed < |s.flags|
  }

  lemma ClaimingFlags(s: State, s': State, t: nat, p: Producer)
    requires |s.flags| > 0 && Claims(s, s', t, p) && Flagged(s) && Claimed(s)
    ensures Flagged(s')
  {
    assert forall k: nat | k < |s.owners| :: FlagOf(s', k) == FlagOf(s, k);
    assert FlagOf(s', |s.owners|) == 0;
    Distinct(s');
    hide FlagOf, Slot, Claimed;
  }

  lemma Claiming(s: State, s': State, t: nat, p: Producer)
    requires |s.flags| > 0 && Claims(s, s', t, p) && Slots(s)
    ensures Slots(s')
  {
    hide Flagged, Slot;
    ClaimingFlags(s, s', t, p);
  }

  /** Producer t has seen its slot free and marks it taken. */
  lemma MarkingFlags(s: State, t: nat)
    requires |s.flags| > 0 && t < |s.producers| && s.producers[t].Mark? && Slots(s)
    requires s.freed <= |s.got| && |s.owners| - s.freed < |s.flags|
    ensures |Produced(s, t).flags| == |s.flags| && Flagged(Produced(s, t))
  {
    var mine := s.producers[t].k;
    assert mine !in s.early;
    hide Delivered, Slot;
    var s' := Produced(s, t);
    assert forall k: nat | k < |s.owners| && k != mine :: FlagOf(s', k) == FlagOf(s, k);
    assert FlagOf(s', mine) == 1;
    Distinct(s);
    hide FlagOf;
  }

  lemma Marking(s: State, t: nat)
    requires |s.flags| > 0 && t < |s.producers| && s.producers[t].Mark? && Slots(s)
    requires s.freed <= |s.got| && |s.owners| - s.freed < |s.flags|
    ensures |Produced(s, t).flags| == |s.flags| && Slots(Produced(s, t))
  {
    hide Flagged, Slot;
    MarkingFlags(s, t);
  }

  /** A step that changes neither flags, claims nor who works on what keeps the flags right. */
  lemma SameFlags(s: State, s': State)
    requires |s.flags| > 0 && Flagged(s)
    requires s'.flags == s.flags && s'.owners == s.owners && s'.freed == s.freed && s'.early == s.early
    requires s'.producers == s.producers && s'.published == s.published
    ensures Flagged(s')
  {
    assert forall k: nat | k < |s.owners| :: FlagOf(s', k) == FlagOf(s, k);
    hide FlagOf, Slot;
  }

  /** A producer stores into the slot it was given: no other claim's element is touched. */
  lemma Writing(s: State, a: Action)
    requires |s.flags| > 0 && a.Write? && Enabled(s, a) && Slots(s)
    requires s.freed <= |s.got| && |s.owners| - s.freed < |s.flags|
    ensures |Step(s, a).flags| == |s.flags| && Slots(Step(s, a))
  {
    hide Slot, Flagged;
    SameFlags(s, Step(s, a));
    Distinct(s);
  }

  /** Producer t publishes what its slot holds. */
  lemma PublishingFlags(s: State, a: Action)
    requires |s.flags| > 0 && a.SetReady? && Enabled(s, a) && Slots(s)
    requires s.freed <= |s.got| && |s.owners| - s.freed < |s.flags|
    ensures |Step(s, a).flags| == |s.flags| && Flagged(Step(s, a))
  {
    hide Slot;
    var s' := Step(s, a);
    var mine := s.producers[a.t].k;
    assert forall k: nat | k < |s.owners| && k != mine :: FlagOf(s', k) == FlagOf(s, k);
    assert FlagOf(s', mine) == 2;
    Distinct(s);
    hide FlagOf, Delivered;
  }

  lemma Publishing(s: State, a: Action)
    requires |s.flags| > 0 && a.SetReady? && Enabled(s, a) && Slots(s)
    requires s.freed <= |s.got| && |s.owners| - s.freed < |s.flags|
    ensures |Step(s, a).flags| == |s.flags| && Slots(Step(s, a))
  {
    hide Flagged, Slot;
    PublishingFlags(s, a);
  }

  // ---- Consumer steps ----

  /** The consumer moves through next: only a published element is ever returned. */
  lemma Consuming(s: State)
    requires |s.flags| > 0 && Slots(s) && s.freed <= |s.got| <= |s.owners| && |s.owners| - s.freed < |s.flags|
    ensures |Consumed(s).flags| == |s.flags| && Slots(Consumed(s))
  {
    SlotIsPublished(s);
    assert |s.elements| == |s.flags|;
    hide Flagged, Slot, Contents, HeldSlots, Cursor, Claimed, NoneLost;
    SameFlags(s, Consumed(s));
    ConsumingCursor(s);
    ConsumingHeld(s);
    ConsumingContents(s);
    ConsumingWork(s);
    hide Consumed;
  }

  lemma ConsumingCursor(s: State)
    requires |s.flags| > 0 && Cursor(s) && |s.elements| == |s.flags|
    requires s.flags[Slot(|s.got|, |s.flags|)] == 2 <==> |s.got| in s.published
    ensures |Consumed(s).flags| == |s.flags| && Cursor(Consumed(s))
  {
    NextSlot(|s.got|, |s.flags|);
    hide Slot;
  }

  lemma ConsumingHeld(s: State)
    requires |s.flags| > 0 && HeldSlots(s) && Cursor(s) && |s.elements| == |s.flags|
    ensures |Consumed(s).flags| == |s.flags| && HeldSlots(Consumed(s))
  {
    hide Slot;
  }

  lemma ConsumingContents(s: State)
    requires |s.flags| > 0 && s.freed <= |s.got| && Contents(s) && Cursor(s)
    ensures |Consumed(s).flags| == |s.flags| && Contents(Consumed(s))
  {
    hide Slot;
  }

  lemma ConsumingWork(s: State)
    requires |s.flags| > 0 && Claimed(s) && NoneLost(s) && Cursor(s) && |s.elements| == |s.flags|
    ensures |Consumed(s).flags| == |s.flags| && Claimed(Consumed(s)) && NoneLost(Consumed(s))
  {
    hide Slot;
  }

  lemma NextSlot(k: nat, num: nat)
    requires num > 0
    ensures Slot(k + 1, num) == if Slot(k, num) + 1 == num then 0 else Slot(k, num) + 1
  {
  }

  /** The slot the consumer looks at is in state 2 exactly when the next claim is published. */
  lemma SlotIsPublished(s: State)
    requires |s.flags| > 0 && Slots(s) && s.freed <= |s.got| <= |s.owners| && |s.owners| - s.freed < |s.flags|
    ensures s.flags[Slot(|s.got|, |s.flags|)] == 2 <==> |s.got| in s.published
  {
    assert |s.got| !in s.early;
    hide Delivered;
    if |s.got| == |s.owners| {
      forall k | s.freed <= k < |s.owners| ensures Slot(k, |s.flags|) != Slot(|s.got|, |s.flags|) {
        SlotsDiffer(k, |s.got|, |s.flags|);
      }
    }
  }

  /** The consumer frees a slot it holds. */
  lemma ReleasingFlags(s: State, j: nat)
    requires |s.flags| > 0 && Enabled(s, SetFree(j)) && Flagged(s) && HeldSlots(s)
    requires |s.got| <= |s.owners| && |s.owners| - s.freed < |s.flags|
    ensures |Released(s, j).flags| == |s.flags| && Flagged(Released(s, j))
  {
    var s' := Released(s, j);
    var mine := s.freed + j;
    assert s.held[j] == Slot(mine, |s.flags|);
    Distinct(s);
    assert forall k: nat | k < |s.owners| && k != mine :: FlagOf(s', k) == FlagOf(s, k);
    assert FlagOf(s', mine) == 0;
    hide FlagOf, Slot;
  }

  lemma Releasing(s: State, j: nat)
    requires |s.flags| > 0 && Enabled(s, SetFree(j)) && Slots(s)
    requires |s.got| <= |s.owners| && |s.owners| - s.freed < |s.flags|
    ensures |Released(s, j).flags| == |s.flags| && Slots(Released(s, j))
  {
    hide Flagged, Slot;
    ReleasingFlags(s, j);
  }

  /** Forgetting a freed claim at the front. */
  lemma DroppingFlags(s: State, s': State)
    requires |s.flags| > 0 && Flagged(s) && s.freed in s.early && s.freed < |s.owners|
    requires s' == s.(held := s'.held, freed := s.freed + 1, early := s.early - {s.freed})
    ensures Flagged(s')
  {
    assert FlagOf(s, s.freed) == 0;
    assert forall k: nat | k < |s.owners| && k != s.freed :: FlagOf(s', k) == FlagOf(s, k);
    hide FlagOf, Slot;
    forall i | 0 <= i < |s'.flags| && (forall k :: s'.freed <= k < |s'.owners| ==> Slot(k, |s'.flags|) != i)
      ensures s'.flags[i] == 0
    {
      if i != Slot(s.freed, |s.flags|) {
        assert forall k :: s.freed <= k < |s.owners| ==> Slot(k, |s.flags|) != i;
      }
    }
  }

  ghost predicate DropsOne(s: State, s': State) {
    && s.held != [] && s.freed in s.early
    && s' == s.(held := s.held[1..], freed := s.freed + 1, early := s.early - {s.freed})
  }

  lemma DroppingHeld(s: State, s': State)
    requires |s.flags| > 0 && HeldSlots(s) && DropsOne(s, s')
    ensures HeldSlots(s')
  {
    hide Slot;
    forall j | 0 <= j < |s'.held| ensures s'.held[j] == Slot(s'.freed + j, |s'.flags|) {
      assert s.held[j + 1] == Slot(s.freed + (j + 1), |s.flags|);
    }
  }

  lemma DroppingWork(s: State, s': State)
    requires |s.flags| > 0 && Claimed(s) && NoneLost(s) && Contents(s) && Cursor(s) && DropsOne(s, s')
    ensures Claimed(s') && NoneLost(s') && Contents(s') && Cursor(s')
  {
    hide Slot;
  }

  lemma DroppingOne(s: State, s': State)
    requires |s.flags| > 0 && Slots(s) && |s.got| <= |s.owners| && DropsOne(s, s')
    ensures Slots(s')
  {
    hide Flagged, Slot, Claimed, NoneLost, Contents, Cursor;
    assert s.freed < |s.owners|;
    DroppingHeld(s, s');
    hide HeldSlots;
    DroppingFlags(s, s');
    DroppingWork(s, s');
  }

  lemma {:induction false} Dropping(s: State)
    requires |s.flags| > 0 && Slots(s) && |s.got| <= |s.owners|
    ensures Slots(Dropped(s))
    decreases |s.held|
  {
    hide Slots;
    if s.held != [] && s.freed in s.early {
      var s' := s.(held := s.held[1..], freed := s.freed + 1, early := s.early - {s.freed});
      assert Dropped(s) == Dropped(s');
      hide Dropped;
      DroppingOne(s, s');
      Dropping(s');
    }
  }

  lemma Freeing(s: State, j: nat)
    requires |s.flags| > 0 && Enabled(s, SetFree(j)) && Slots(s)
    requires |s.got| <= |s.owners| && |s.owners| - s.freed < |s.flags|
    ensures |Step(s, SetFree(j)).flags| == |s.flags| && Slots(Step(s, SetFree(j)))
  {
    var r := Released(s, j);
    assert r.got == s.got && r.owners == s.owners;
    assert Step(s, SetFree(j)) == Dropped(r);
    hide *;
    Releasing(s, j);
    Dropping(r);
  }

  // ---- Every step ----

  lemma PendingChange(s: State, s': State, t: nat)
    requires t < |s.producers| && |s'.producers| == |s.producers| && s'.producers == s.producers[t := s'.producers[t]]
    ensures |Pending(s'.producers)| - |Pending(s.producers)|
      == (if t in Pending(s'.producers) then 1 else 0) - (if t in Pending(s.producers) then 1 else 0)
  {
    OneApart(Pending(s.producers), Pending(s'.producers), t);
  }

  lemma ProducedShape(s: State, t: nat)
    requires Shape(s) && t < |s.producers|
    ensures Shape(Produced(s, t))
  {
    PendingChange(s, Produced(s, t), t);
    hide Slot;
  }

  lemma ConsumedShape(s: State)
    requires Shape(s) && Claimed(s) && Contents(s) && Cursor(s)
    ensures Shape(Consumed(s))
  {
    hide Slot, Pending;
  }

  lemma StepShape(s: State, a: Action)
    requires Inv(s) && Enabled(s, a)
    ensures Shape(Step(s, a))
  {
    hide Frontier, Claimed, NoneLost, Flagged, MutexOk, Slot, Cursor, Contents, Produced, Consumed;
    if a.Produce? {
      ProducedShape(s, a.t);
    } else if a.Next? {
      ConsumedShape(s);
    } else if !a.SetFree? {
      PendingChange(s, Step(s, a), a.t);
    }
  }

  lemma StepMutex(s: State, a: Action)
    requires MutexOk(s) && Enabled(s, a)
    ensures MutexOk(Step(s, a))
  {
  }

  lemma ProducedFrontier(s: State, t: nat)
    requires |s.flags| > 0 && Frontier(s) && MutexOk(s) && t < |s.producers|
    ensures |Produced(s, t).flags| == |s.flags| && Frontier(Produced(s, t))
  {
    NextSlot(|s.owners|, |s.flags|);
    hide Slot;
  }

  lemma StepFrontier(s: State, a: Action)
    requires |s.flags| > 0 && Frontier(s) && MutexOk(s) && Enabled(s, a)
    ensures |Step(s, a).flags| == |s.flags| && Frontier(Step(s, a))
  {
    if a.Produce? {
      ProducedFrontier(s, a.t);
    }
    hide Slot, Produced, MutexOk;
  }

  /** A claim is made in the slot the claim number says. */
  lemma ProducedClaim(s: State, t: nat)
    requires |s.flags| > 0 && t < |s.producers| && Frontier(s) && |Produced(s, t).owners| != |s.owners|
    requires |s.got| <= |s.owners| && |s.owners| + 1 - s.freed < |s.flags|
    ensures Claims(s, Produced(s, t), t, Produced(s, t).producers[t])
  {
    hide Slot;
  }

  lemma ProducedMove(s: State, t: nat)
    requires |s.flags| > 0 && Enabled(s, Produce(t)) && |Produced(s, t).owners| == |s.owners|
    requires !s.producers[t].Mark?
    requires s.producers[t].Check? ==> Produced(s, t).producers[t].Mark?
    ensures Moves(s, Produced(s, t), t, Produced(s, t).producers[t])
  {
    hide Slot;
  }

  lemma ProducedSlots(s: State, t: nat)
    requires Inv(s) && Enabled(s, Produce(t)) && Bounded(s) && Bounded(Produced(s, t))
    ensures |Produced(s, t).flags| == |s.flags| && Slots(Produced(s, t))
  {
    Room(s);
    var s' := Produced(s, t);
    hide Slots, Frontier, MutexOk, Slot, Moves, Claims;
    if |s'.owners| != |s.owners| {
      assert s.producers[t].FetchAgain? || s.producers[t].Reset? ==> t in Pending(s.producers);
      ProducedClaim(s, t);
      Claiming(s, s', t, s'.producers[t]);
    } else if s.producers[t].Mark? {
      Marking(s, t);
    } else {
      if s.producers[t].Check? {
        CheckSucceeds(s, t);
      }
      ProducedMove(s, t);
      Moved(s, s', t, s'.producers[t]);
    }
  }

  /** A bounded claim always finds its slot free: no claim is refused. */
  lemma CheckSucceeds(s: State, t: nat)
    requires |s.flags| > 0 && t < |s.producers| && s.producers[t].Check? && Slots(s) && s.freed <= |s.got|
    ensures Produced(s, t).producers[t].Mark?
  {
    assert FlagOf(s, s.producers[t].k) == 0;
  }

  lemma StepSlots(s: State, a: Action)
    requires Inv(s) && Enabled(s, a) && Bounded(s) && Bounded(Step(s, a))
    ensures |Step(s, a).flags| == |s.flags| && Slots(Step(s, a))
  {
    Room(s);
    hide Slots, Produced, Consumed, Slot;
    match a
    case Begin(t) => Moved(s, Step(s, a), t, Fetch);
    case Produce(t) => ProducedSlots(s, t);
    case Write(t, v) => Writing(s, a);
    case SetReady(t) => Publishing(s, a);
    case Leave(t) => NeverRefused(s, t);
    case Next => Consuming(s);
    case SetFree(j) => Freeing(s, j);
  }

  lemma NeverRefused(s: State, t: nat)
    requires |s.flags| > 0 && Slots(s) && t < |s.producers|
    ensures !s.producers[t].Refused?
  {
  }

  lemma StepInv(s: State, a: Action)
    requires Inv(s) && Enabled(s, a) && Bounded(s) && Bounded(Step(s, a))
    ensures Inv(Step(s, a))
  {
    assert |s.flags| > 0;
    hide Shape, MutexOk, Frontier, Slots, Step, Enabled, Bounded;
    StepShape(s, a);
    StepMutex(s, a);
    StepFrontier(s, a);
    StepSlots(s, a);
  }

  lemma {:induction false} RunInv(s: State, run: seq<Action>)
    requires Inv(s) && Possible(s, run)
    ensures Inv(After(s, run)) && Bounded(After(s, run))
    decreases |run|
  {
    hide Step, Inv;
    if run != [] {
      StepInv(s, run[0]);
      RunInv(Step(s, run[0]), run[1..]);
    }
  }

  // ---- What it means for a user of the ring ----

  /**
    No claim is refused, two producers never fill one slot and theirs is in state 1, and what the
    consumer has got is what the first claims published, each exactly once and in claim order.
   */
  ghost predicate Safe(s: State) {
    && |s.flags| == |s.elements| && |s.got| <= |s.owners|
    && (forall t :: 0 <= t < |s.producers| ==> !s.producers[t].Refused?)
    && (forall t, u :: 0 <= t < u < |s.producers| && s.producers[t].Fill? && s.producers[u].Fill? ==>
          s.producers[t].slot != s.producers[u].slot)
    && (forall t :: 0 <= t < |s.producers| && s.producers[t].Fill? ==>
          s.producers[t].slot < |s.flags| && s.flags[s.producers[t].slot] == 1)
    && (forall j :: 0 <= j < |s.got| ==> j in s.published && s.got[j] == s.published[j])
  }

  lemma InvSafe(s: State)
    requires Inv(s) && Bounded(s)
    ensures Safe(s)
  {
    Room(s);
    forall t | 0 <= t < |s.producers| && s.producers[t].Fill?
      ensures s.producers[t].slot < |s.flags| && s.flags[s.producers[t].slot] == 1
    {
      assert FlagOf(s, s.producers[t].k) == 1;
    }
    hide Frontier, Flagged, Delivered, MutexOk;
    Distinct(s);
  }

  /** Over every interleaving that stays within a lap. */
  lemma RingSafety(num: nat, producers: nat, run: seq<Action>)
    requires num > 0 && Possible(Init(num, producers), run)
    ensures Safe(After(Init(num, producers), run))
  {
    InitInv(num, producers);
    RunInv(Init(num, producers), run);
    InvSafe(After(Init(num, producers), run));
  }

  // ---- From a write to its delivery ----

  /** Producer t has claim k, in this slot, and its element is v. */
  ghost predicate Written(s: State, t: nat, slot: nat, k: nat, v: int) {
    t < |s.producers| && s.producers[t] == Fill(slot, k) && slot < |s.elements| && s.elements[slot] == v
  }

  lemma WrittenStays(s: State, a: Action, t: nat, slot: nat, k: nat, v: int)
    requires Safe(s) && Enabled(s, a) && Written(s, t, slot, k, v)
    requires !((a.Write? || a.SetReady?) && a.t == t)
    ensures Written(Step(s, a), t, slot, k, v)
  {
    hide Slot;
    if a.Write? {
      assert s.producers[a.t].slot != slot by {
        assert if a.t < t then a.t < t else t < a.t;
      }
    }
  }

  lemma PublishedStays(s: State, a: Action, k: nat)
    requires Inv(s) && Bounded(s) && Enabled(s, a) && k in s.published
    ensures k in Step(s, a).published && Step(s, a).published[k] == s.published[k]
  {
    if a.SetReady? {
      NotYetPublished(s, a.t);
    } else {
      OnlySetReadyPublishes(s, a);
    }
    hide Inv, Produced, Consumed, Dropped;
  }

  lemma OnlySetReadyPublishes(s: State, a: Action)
    requires Enabled(s, a) && !a.SetReady?
    ensures Step(s, a).published == s.published
  {
    hide Slot;
  }

  /** A claim that is being filled is not published. */
  lemma NotYetPublished(s: State, t: nat)
    requires Inv(s) && t < |s.producers| && s.producers[t].Fill?
    ensures s.producers[t].k !in s.published
  {
    assert Working(s.producers[t]);
    hide Frontier, Flagged, Delivered, MutexOk, Slot;
  }

  /** The value a producer wrote last stays in its slot, whatever the others do, until it is published. */
  lemma {:induction false} RunWritten(s: State, run: seq<Action>, t: nat, slot: nat, k: nat, v: int)
    requires Inv(s) && Possible(s, run) && Written(s, t, slot, k, v)
    requires forall a :: a in run ==> !((a.Write? || a.SetReady?) && a.t == t)
    ensures Written(After(s, run), t, slot, k, v)
    decreases |run|
  {
    hide Inv, Step, Enabled, Safe, Written;
    if run != [] {
      assert run[0] in run && forall x :: x in run[1..] ==> x in run;
      InvSafe(s);
      WrittenStays(s, run[0], t, slot, k, v);
      StepInv(s, run[0]);
      RunWritten(Step(s, run[0]), run[1..], t, slot, k, v);
    }
  }

  lemma {:induction false} RunPublished(s: State, run: seq<Action>, k: nat)
    requires Inv(s) && Possible(s, run) && k in s.published
    ensures k in After(s, run).published && After(s, run).published[k] == s.published[k]
    decreases |run|
  {
    hide Inv, Step, Enabled;
    if run != [] {
      PublishedStays(s, run[0], k);
      StepInv(s, run[0]);
      RunPublished(Step(s, run[0]), run[1..], k);
    }
  }

  /** The producer publishes what it wrote last; t is there to be set ready. */
  lemma ReadyPublishes(s: State, t: nat, slot: nat, k: nat, v: int)
    requires Inv(s) && Written(s, t, slot, k, v)
    ensures Enabled(s, SetReady(t)) && k in Step(s, SetReady(t)).published && Step(s, SetReady(t)).published[k] == v
  {
    hide Frontier, MutexOk, Slots, Slot;
  }

  /**
    End to end: a producer that was given a slot writes v, and, when it has not written again,
    sets the slot ready. Whatever all the others do in between and afterwards, v is what its
    claim has published, and, once the consumer has got that far, what the consumer got for it.
   */
  lemma DeliversWhatWasWritten(s: State, t: nat, v: int, between: seq<Action>, later: seq<Action>)
    requires Inv(s) && Bounded(s) && t < |s.producers| && s.producers[t].Fill?
    requires Possible(Step(s, Write(t, v)), between)
    requires forall a :: a in between ==> !((a.Write? || a.SetReady?) && a.t == t)
    requires var s2 := After(Step(s, Write(t, v)), between);
      Enabled(s2, SetReady(t)) && Possible(Step(s2, SetReady(t)), later)
    ensures var s4, k := After(Step(After(Step(s, Write(t, v)), between), SetReady(t)), later), s.producers[t].k;
      && k in s4.published && s4.published[k] == v
      && (k < |s4.got| ==> s4.got[k] == v)
  {
    var slot, k := s.producers[t].slot, s.producers[t].k;
    var s1 := Step(s, Write(t, v));
    InvSafe(s);
    assert Written(s1, t, slot, k, v);
    StepInv(s, Write(t, v));
    RunInv(s1, between);
    RunWritten(s1, between, t, slot, k, v);
    var s2 := After(s1, between);
    LastIsBounded(s1, between);
    hide Inv, Step, Enabled, Safe, Written, Bounded;
    ReadyPublishes(s2, t, slot, k, v);
    var s3 := Step(s2, SetReady(t));
    StartIsBounded(s3, later);
    StepInv(s2, SetReady(t));
    RunInv(s3, later);
    RunPublished(s3, later, k);
    LastIsBounded(s3, later);
    GotIsPublished(After(s3, later));
  }

  lemma GotIsPublished(s: State)
    requires Inv(s) && Bounded(s)
    ensures forall j :: 0 <= j < |s.got| ==> j in s.published && s.got[j] == s.published[j]
  {
    InvSafe(s);
  }

  lemma StartIsBounded(s: State, run: seq<Action>)
    requires Possible(s, run)
    ensures Bounded(s)
  {
  }

  lemma {:induction false} LastIsBounded(s: State, run: seq<Action>)
    requires Possible(s, run)
    ensures Bounded(After(s, run))
    decreases |run|
  {
    if run != [] {
      LastIsBounded(Step(s, run[0]), run[1..]);
    }
  }

  /** A producer whose element is published, or whose claim was refused, can call new_write again. */
  lemma BeginsAgain(s: State, a: Action)
    requires Safe(s) && Enabled(s, a) && (a.Leave? || a.SetReady?)
    ensures Enabled(Step(s, a), Begin(a.t)) && Step(Step(s, a), Begin(a.t)).producers[a.t].Fetch?
  {
  }

  /** What a step may do to the state of a slot: 0 to 1, 1 to 2, 2 to 0, and nothing else. */
  ghost predicate Cycles(before: nat, after: nat) {
    before == after || (before == 0 && after == 1) || (before == 1 && after == 2) || (before == 2 && after == 0)
  }

  lemma SlotsCycle(s: State, a: Action, i: nat)
    requires Inv(s) && Enabled(s, a) && Bounded(s) && i < |s.flags|
    ensures |Step(s, a).flags| == |s.flags| && Cycles(s.flags[i], Step(s, a).flags[i])
  {
    hide Inv, Produced, Consumed;
    match a
    case SetFree(j) => HeldFlag(s, j);
    case SetReady(t) => WorkingFlag(s, t);
    case Produce(t) => ProducedCycles(s, t, i);
    case Next => ConsumedFlags(s);
    case _ =>
  }

  lemma ConsumedFlags(s: State)
    ensures Consumed(s).flags == s.flags
  {
  }

  lemma ProducedCycles(s: State, t: nat, i: nat)
    requires Inv(s) && t < |s.producers| && i < |s.flags|
    ensures |Produced(s, t).flags| == |s.flags| && Cycles(s.flags[i], Produced(s, t).flags[i])
  {
    hide Inv;
    if s.producers[t].Mark? {
      WorkingFlag(s, t);
    }
  }

  /** A slot the consumer has not freed is in state 2. */
  lemma HeldFlag(s: State, j: nat)
    requires Inv(s) && j < |s.held| && s.freed + j !in s.early
    ensures s.held[j] < |s.flags| && s.flags[s.held[j]] == 2
  {
    assert s.held[j] == Slot(s.freed + j, |s.flags|);
    assert FlagOf(s, s.freed + j) == 2;
    hide Frontier, MutexOk, Slot, NoneLost, Claimed, Cursor;
  }

  /** The slot of a working producer is in state 1 once it is filling and 0 before. */
  lemma WorkingFlag(s: State, t: nat)
    requires Inv(s) && t < |s.producers| && Working(s.producers[t])
    ensures var p := s.producers[t];
      p.slot < |s.flags| && s.flags[p.slot] == if p.Fill? then 1 else 0
  {
    assert FlagOf(s, s.producers[t].k) == if s.producers[t].Fill? then 1 else 0;
    hide Frontier, MutexOk, Slot, NoneLost, Delivered;
  }

  /** Nothing the consumer still holds is overwritten before it is freed. */
  lemma HeldElementsStay(s: State, j: nat)
    requires Inv(s) && j < |s.held|
    ensures s.held[j] < |s.elements| && s.elements[s.held[j]] == s.got[s.freed + j]
  {
    hide Frontier, Flagged, MutexOk, Slot, NoneLost;
  }

  function NextAlone(s: State, k: nat): State
    decreases k
  {
    if k == 0 then s else NextAlone(Consumed(s), k - 1)
  }

  /** The five atomic operations of a successful next. */
  lemma NextSteps(s: State)
    requires s.consumer.Ready? && s.readingPoint < |s.flags| == |s.elements|
    requires s.flags[s.readingPoint] == 2 && s.readingPoint != s.writingPoint
    ensures var r := s.readingPoint;
      NextAlone(s, 5) == s.(readingPoint := if r + 1 >= |s.flags| then 0 else r + 1,
                            held := s.held + [r], got := s.got + [s.elements[r]])
  {
    var s1 := Consumed(s);
    var s2 := Consumed(s1);
    var s3 := Consumed(s2);
    var s4 := Consumed(s3);
    assert NextAlone(s, 5) == NextAlone(s1, 4) == NextAlone(s2, 3) == NextAlone(s3, 2);
    assert NextAlone(s3, 2) == NextAlone(s4, 1) == NextAlone(Consumed(s4), 0);
  }

  /** An undisturbed next returns the next claim in line exactly when that claim is published. */
  lemma NextSucceedsIffPublished(s: State)
    requires Inv(s) && Bounded(s) && s.consumer.Ready?
    ensures |s.got| in s.published ==>
        NextAlone(s, 5).got == s.got + [s.published[|s.got|]] && NextAlone(s, 5).consumer.Ready?
    ensures |s.got| !in s.published ==> NextAlone(s, 2) == s
  {
    Room(s);
    SlotIsPublished(s);
    assert s.readingPoint == Slot(|s.got|, |s.flags|) && |s.elements| == |s.flags|;
    if |s.got| in s.published {
      WritingPointAhead(s);
      assert s.elements[s.readingPoint] == s.published[|s.got|];
      hide Inv, NextAlone;
      NextSteps(s);
    } else {
      hide Inv;
      assert NextAlone(s, 2) == NextAlone(Consumed(s), 1) == NextAlone(Consumed(Consumed(s)), 0);
    }
  }

  /** While the next claim to read is published, the writing point is elsewhere. */
  lemma WritingPointAhead(s: State)
    requires Inv(s) && Bounded(s) && |s.got| in s.published
    ensures Slot(|s.got|, |s.flags|) != s.writingPoint
  {
    Room(s);
    SlotsDiffer(|s.got|, |s.owners|, |s.flags|);
  }

  // ---- The object ----

  /** What an undisturbed new_write does once its producer is inside: the slot it tries, and the ring after. */
  function NewWriteSlot(writingPoint: nat, num: nat): (slot: nat)
    requires num > 0
    ensures slot < num
  {
    if writingPoint < num then writingPoint else 0
  }

  function NewWriteAfter(s: State, t: nat): State
    requires t < |s.producers| && |s.flags| > 0
  {
    var slot, k := NewWriteSlot(s.writingPoint, |s.flags|), |s.owners|;
    var free := s.flags[slot] == 0;
    Goto(s, t, if free then Fill(slot, k) else Refused(k)).(
      writingPoint := slot + 1, started := s.started + 1, owners := s.owners + [t],
      flags := if free then s.flags[slot := 1] else s.flags)
  }

  function ProduceAlone(s: State, t: nat, k: nat): (s': State)
    requires t < |s.producers|
    ensures |s'.producers| == |s.producers|
    decreases k
  {
    if k == 0 then s else ProduceAlone(Produced(s, t), t, k - 1)
  }

  lemma {:induction false} ProduceAloneThen(s: State, t: nat, j: nat, k: nat)
    requires t < |s.producers|
    ensures ProduceAlone(ProduceAlone(s, t, j), t, k) == ProduceAlone(s, t, j + k)
    decreases j
  {
    if j > 0 {
      ProduceAloneThen(Produced(s, t), t, j - 1, k);
    }
  }

  /** The atomic operations of an undisturbed new_write add up to that. */
  lemma NewWriteAlone(s: State, t: nat) returns (k: nat)
    requires t < |s.producers| && s.producers[t].Fetch? && s.mutex.None? && |s.flags| > 0
    ensures ProduceAlone(s, t, k) == NewWriteAfter(s, t)
  {
    var s1 := Produced(s, t);
    assert ProduceAlone(s, t, 1) == ProduceAlone(s1, t, 0);
    var u, j := s1, 1;
    if s.writingPoint >= |s.flags| {
      u := PastTheEndAlone(s1, t);
      j := 5;
      ProduceAloneThen(s, t, 1, 4);
    }
    assert u.producers[t] == Check(NewWriteSlot(s.writingPoint, |s.flags|), |s.owners|);
    var m := CheckAlone(u, t);
    ProduceAloneThen(s, t, j, m);
    k := j + m;
    hide ProduceAlone;
  }

  /** The detour through the mutex when the index is past the end. */
  lemma PastTheEndAlone(s: State, t: nat) returns (u: State)
    requires t < |s.producers| && s.producers[t].Lock? && s.mutex.None? && s.writingPoint >= |s.flags|
    ensures u == ProduceAlone(s, t, 4)
    ensures u == Goto(s, t, Check(0, |s.owners|)).(writingPoint := 1, owners := s.owners + [t])
  {
    var s2 := Produced(s, t);
    var s3 := Produced(s2, t);
    var s4 := Produced(s3, t);
    u := Produced(s4, t);
    assert ProduceAlone(s, t, 4) == ProduceAlone(s2, t, 3) == ProduceAlone(s3, t, 2);
    assert ProduceAlone(s3, t, 2) == ProduceAlone(s4, t, 1) == ProduceAlone(u, t, 0);
  }

  lemma CheckAlone(u: State, t: nat) returns (m: nat)
    requires t < |u.producers| && u.producers[t].Check? && u.producers[t].slot < |u.flags|
    ensures var slot, k := u.producers[t].slot, u.producers[t].k;
      ProduceAlone(u, t, m) == if u.flags[slot] == 0 then Goto(u, t, Fill(slot, k)).(flags := u.flags[slot := 1])
                               else Goto(u, t, Refused(k))
  {
    var v := Produced(u, t);
    if u.flags[u.producers[t].slot] == 0 {
      m := 2;
      assert ProduceAlone(u, t, 2) == ProduceAlone(v, t, 1) == ProduceAlone(Produced(v, t), t, 0);
    } else {
      m := 1;
      assert ProduceAlone(u, t, 1) == ProduceAlone(v, t, 0);
    }
  }

  /** The ring object; its methods, undisturbed, take the steps of the protocol. */
  class Ring {
    const elements: array<int>
    const elementsState: array<nat>
    var readingPoint: nat
    var writingPoint: nat

    ghost predicate Matches(s: State)
      reads this, elements, elementsState
    {
      s.elements == elements[..] && s.flags == elementsState[..]
      && s.readingPoint == readingPoint && s.writingPoint == writingPoint
    }

    ghost predicate Valid()
      reads this
    {
      0 < elementsState.Length == elements.Length && readingPoint < elements.Length
    }

    constructor (num: nat, ghost producers: nat)
      requires num > 0
      ensures Valid() && Matches(Init(num, producers)) && fresh(elements) && fresh(elementsState)
      ensures readingPoint == 0 && writingPoint == 0 && elementsState.Length == num
      ensures forall i :: 0 <= i < num ==> elementsState[i] == 0
    {
      elements := new int[num](_ => 0);
      elementsState := new nat[num](_ => 0);
      readingPoint, writingPoint := 0, 0;
      new;
      assert elements[..] == Init(num, producers).elements && elementsState[..] == Init(num, producers).flags;
    }

    method NewWrite() returns (slot: Option<nat>)
      requires Valid()
      modifies this, elementsState
      ensures Valid()
      ensures forall s: State, t: nat | old(Matches(s)) && t < |s.producers| ::
                && Matches(NewWriteAfter(s, t))
                && NewWriteAfter(s, t).producers[t] == match slot
                     case Some(a) => Fill(a, |s.owners|)
                     case None => Refused(|s.owners|)
    {
      var num := elements.Length;
      var a := writingPoint;
      writingPoint := writingPoint + 1;
      if a >= num {
        a := writingPoint;
        writingPoint := writingPoint + 1;
        if a >= num {
          a := 0;
          writingPoint := 1;
        }
      }
      if elementsState[a] != 0 {
        return None;
      }
      ghost var before := elementsState[..];
      elementsState[a] := 1;
      assert elementsState[..] == before[a := 1];
      return Some(a);
    }

    /** next, as the consumer's atomic operations in a row: the slot returned, if any. */
    method NextElement() returns (slot: Option<nat>)
      requires Valid()
      modifies this
      ensures Valid()
      ensures slot.Some? <==> elementsState[old(readingPoint)] == 2 && old(readingPoint) != writingPoint
      ensures slot.Some? ==> slot.value < elements.Length && forall s: State | old(Matches(s)) && s.consumer.Ready? ::
                && Matches(NextAlone(s, 5)) && NextAlone(s, 5).consumer.Ready?
                && NextAlone(s, 5).got == s.got + [elements[slot.value]]
                    && NextAlone(s, 5).held == s.held + [slot.value]
      ensures slot.None? ==> unchanged(this)
    {
      var r := readingPoint;
      if elementsState[r] != 2 {
        return None;
      }
      if r == writingPoint {
        return None;
      }
      readingPoint := readingPoint + 1;
      if readingPoint >= elements.Length {
        readingPoint := 0;
      }
      forall s: State | old(Matches(s)) && s.consumer.Ready?
        ensures Matches(NextAlone(s, 5)) && NextAlone(s, 5).consumer.Ready?
        ensures NextAlone(s, 5).got == s.got + [elements[r]] && NextAlone(s, 5).held == s.held + [r]
      {
        NextSteps(s);
        hide NextAlone;
      }
      return Some(r);
    }

    method SetFreeSlot(a: nat)
      requires Valid() && a < elementsState.Length
      modifies elementsState
      ensures elementsState[..] == old(elementsState[..])[a := 0]
      ensures forall s: State, j: nat | old(Matches(s)) && Enabled(s, SetFree(j)) && s.held[j] == a ::
                Matches(Step(s, SetFree(j)))
    {
      elementsState[a] := 0;
      assert elementsState[..] == old(elementsState[..])[a := 0];
    }

    method SetReadySlot(a: nat)
      requires Valid() && a < elementsState.Length
      modifies elementsState
      ensures elementsState[..] == old(elementsState[..])[a := 2]
      ensures forall s: State, t: nat | old(Matches(s)) && Enabled(s, Action.SetReady(t)) && s.producers[t].slot == a ::
                Matches(Step(s, Action.SetReady(t)))
    {
      elementsState[a] := 2;
      assert elementsState[..] == old(elementsState[..])[a := 2];
    }
  }
}
