/** Which limits on its use keep the ring safe: exactly these, for every size. */
module CircleMTIOLimits {
  import opened Prelude
  import opened CircleMTIO

  /**
    A limit on every state of a run: how far the claims started are ahead of the first one not
    freed, or how many claims are outstanding while slots are freed in the order they were read,
    or how many are outstanding while slots are freed in any order.
   */
  datatype Limit = Lap(n: int) | InOrder(n: int) | AnyOrder(n: int)

  /** Claims started and not freed. */
  ghost function Outstanding(s: State): int {
    s.started - s.freed - |s.early|
  }

  ghost predicate Fits(s: State, lim: Limit) {
    (if lim.Lap? then s.started - s.freed else Outstanding(s)) <= lim.n
  }

  ghost predicate Admits(lim: Limit, a: Action) {
    lim.InOrder? && a.SetFree? ==> a.j == 0
  }

  /** A possible run that keeps to the limit. */
  ghost predicate Within(s: State, run: seq<Action>, lim: Limit)
    decreases |run|
  {
    && Fits(s, lim)
    && (run != [] ==> Enabled(s, run[0]) && Admits(lim, run[0]) && Within(Step(s, run[0]), run[1..], lim))
  }

  ghost function End(s: State, run: seq<Action>, lim: Limit): State
    requires Within(s, run, lim)
    decreases |run|
  {
    if run == [] then s else End(Step(s, run[0]), run[1..], lim)
  }

  ghost predicate AlwaysSafe(num: nat, lim: Limit)
    requires num > 0
  {
    forall producers: nat, run :: Within(Init(num, producers), run, lim) ==> Safe(End(Init(num, producers), run, lim))
  }

  // ---- The limits that are enough ----

  ghost predicate Enough(num: nat, lim: Limit) {
    lim.n < num && (lim.AnyOrder? ==> lim.n <= 1)
  }

  /** Freeing the first slot, when none was freed early, leaves none freed early. */
  lemma FreeFirst(s: State)
    requires Enabled(s, SetFree(0)) && s.early == {}
    ensures Step(s, SetFree(0)).early == {} && Step(s, SetFree(0)).freed == s.freed + 1
  {
    var r := Released(s, 0);
    var d := r.(held := r.held[1..], freed := r.freed + 1, early := r.early - {r.freed});
    assert Dropped(r) == Dropped(d) && d.early == {};
  }

  /** With at most one claim outstanding the consumer has at most one slot to free. */
  lemma OnlyTheFirst(s: State, a: Action)
    requires Inv(s) && s.early == {} && Outstanding(s) <= 1 && Enabled(s, a) && a.SetFree?
    ensures a.j == 0
  {
    assert s.freed + |s.held| == |s.got|;
    hide Slots, Frontier, MutexOk;
  }

  lemma KeepsEarly(s: State, a: Action)
    requires Enabled(s, a) && !a.SetFree?
    ensures Step(s, a).early == s.early
  {
  }

  lemma StepEnough(s: State, a: Action, lim: Limit)
    requires Inv(s) && Enabled(s, a) && Admits(lim, a) && Enough(|s.flags|, lim)
    requires Fits(s, lim) && Fits(Step(s, a), lim) && (!lim.Lap? ==> s.early == {})
    ensures Inv(Step(s, a)) && Bounded(s) && Bounded(Step(s, a)) && |Step(s, a).flags| == |s.flags|
    ensures !lim.Lap? ==> Step(s, a).early == {}
  {
    var s' := Step(s, a);
    if !lim.Lap? {
      if a.SetFree? {
        if lim.AnyOrder? {
          OnlyTheFirst(s, a);
        }
        FreeFirst(s);
      } else {
        KeepsEarly(s, a);
      }
    }
    assert |s.flags| > 0;
    SlotsStay(s, a);
    hide Inv, Step, Enabled;
    assert Bounded(s) && Bounded(s');
    StepInv(s, a);
  }

  lemma SlotsStay(s: State, a: Action)
    requires Inv(s) && Enabled(s, a)
    ensures |Step(s, a).flags| == |s.flags|
  {
    hide Inv;
  }

  lemma {:induction false} EnoughIsSafe(s: State, run: seq<Action>, lim: Limit)
    requires Inv(s) && Within(s, run, lim) && Enough(|s.flags|, lim) && (!lim.Lap? ==> s.early == {})
    ensures Safe(End(s, run, lim))
    decreases |run|
  {
    if run == [] {
      assert Outstanding(s) == s.started - s.freed - |s.early|;
      hide Inv;
      assert Bounded(s);
      InvSafe(s);
    } else {
      hide Inv, Step, Enabled, Admits;
      StepEnough(s, run[0], lim);
      EnoughIsSafe(Step(s, run[0]), run[1..], lim);
    }
  }

  /** What a caller that frees in order has to see to: fewer claims outstanding than slots. */
  lemma FreeingInOrder(num: nat, producers: nat, run: seq<Action>)
    requires num > 0 && Within(Init(num, producers), run, InOrder(num - 1))
    ensures Safe(End(Init(num, producers), run, InOrder(num - 1)))
  {
    InitInv(num, producers);
    EnoughIsSafe(Init(num, producers), run, InOrder(num - 1));
  }

  // ---- Building runs ----

  ghost predicate Goes(s: State, t: State, lim: Limit) {
    exists run :: Within(s, run, lim) && End(s, run, lim) == t
  }

  lemma GoesNowhere(s: State, lim: Limit)
    requires Fits(s, lim)
    ensures Goes(s, s, lim)
  {
    assert Within(s, [], lim) && End(s, [], lim) == s;
  }

  lemma {:induction false} WithinAppend(s: State, run: seq<Action>, a: Action, lim: Limit)
    requires Within(s, run, lim) && Enabled(End(s, run, lim), a) && Admits(lim, a)
    requires Fits(Step(End(s, run, lim), a), lim)
    ensures Within(s, run + [a], lim) && End(s, run + [a], lim) == Step(End(s, run, lim), a)
    decreases |run|
  {
    hide Step, Enabled, Fits, Admits;
    if run == [] {
      assert (run + [a])[1..] == [];
    } else {
      assert (run + [a])[1..] == run[1..] + [a];
      WithinAppend(Step(s, run[0]), run[1..], a, lim);
    }
  }

  lemma GoesOn(s: State, t: State, a: Action, u: State, lim: Limit)
    requires Goes(s, t, lim) && Enabled(t, a) && Admits(lim, a) && Step(t, a) == u && Fits(u, lim)
    ensures Goes(s, u, lim)
  {
    hide Step, Enabled, Fits, Admits, Within, End;
    var run :| Within(s, run, lim) && End(s, run, lim) == t;
    WithinAppend(s, run, a, lim);
  }

  lemma StepNext(s: State)
    ensures Step(s, Next) == Consumed(s)
  {
  }

  lemma {:induction false} GoesNext(s: State, t: State, k: nat, lim: Limit)
    requires Goes(s, t, lim) && Fits(t, lim)
    ensures Goes(s, NextAlone(t, k), lim)
    decreases k
  {
    if k > 0 {
      var u := Consumed(t);
      assert u.started == t.started && u.freed == t.freed && u.early == t.early;
      StepNext(t);
      hide Goes, Consumed, Step;
      GoesOn(s, t, Next, u, lim);
      GoesNext(s, u, k - 1, lim);
    }
  }

  /** The only producer and the consumer are idle at the same free slot. */
  ghost predicate AtRest(s: State, w: nat) {
    && s.producers == [Idle] && s.consumer.Ready? && s.mutex.None? && |s.flags| == |s.elements|
    && s.writingPoint == w == s.readingPoint < |s.flags| && s.flags[w] == 0
  }

  /** The state after the producer claims the slot, fills it and publishes it. */
  function Filled(s: State, w: nat, v: int): State
    requires w < |s.flags| == |s.elements|
  {
    s.(elements := s.elements[w := v], flags := s.flags[w := 2], writingPoint := w + 1, started := s.started + 1,
       owners := s.owners + [0], published := s.published[|s.owners| := v])
  }

  /** The state after the producer is given the slot. */
  function Given(s: State, w: nat): State
    requires w < |s.flags|
  {
    s.(producers := [Fill(w, |s.owners|)], flags := s.flags[w := 1], writingPoint := w + 1, started := s.started + 1,
       owners := s.owners + [0])
  }

  lemma ClaimSlot(s0: State, s: State, w: nat, lim: Limit)
    requires Goes(s0, s, lim) && AtRest(s, w) && Fits(s.(started := s.started + 1), lim)
    ensures Goes(s0, Given(s, w), lim)
  {
    var k := |s.owners|;
    var a := s.(producers := [Fetch]);
    var b := s.(producers := [Check(w, k)], writingPoint := w + 1, started := s.started + 1, owners := s.owners + [0]);
    var c := b.(producers := [Mark(w, k)]);
    hide Goes, Released, Consumed;
    GoesOn(s0, s, Begin(0), a, lim);
    GoesOn(s0, a, Produce(0), b, lim);
    GoesOn(s0, b, Produce(0), c, lim);
    GoesOn(s0, c, Produce(0), Given(s, w), lim);
  }

  lemma FillSlot(s0: State, s: State, w: nat, v: int, lim: Limit)
    requires Goes(s0, s, lim) && AtRest(s, w) && Fits(s.(started := s.started + 1), lim)
    ensures Goes(s0, Filled(s, w, v), lim)
  {
    var d := Given(s, w);
    var e := d.(elements := s.elements[w := v]);
    hide Goes, Produced, Released, Consumed;
    ClaimSlot(s0, s, w, lim);
    GoesOn(s0, d, Write(0, v), e, lim);
    assert d.flags[w := 2] == Filled(s, w, v).flags && e.elements[w] == v;
    GoesOn(s0, e, SetReady(0), Filled(s, w, v), lim);
  }

  /** And after the consumer read it. */
  function Turned(s: State, w: nat, v: int): State
    requires w < |s.flags| == |s.elements|
  {
    Filled(s, w, v).(readingPoint := if w + 1 >= |s.flags| then 0 else w + 1, held := s.held + [w], got := s.got + [v])
  }

  lemma FillAndRead(s0: State, s: State, w: nat, v: int, lim: Limit)
    requires Goes(s0, s, lim) && AtRest(s, w) && Fits(s.(started := s.started + 1), lim)
    ensures Goes(s0, Turned(s, w, v), lim)
  {
    hide Goes, NextAlone;
    FillSlot(s0, s, w, v, lim);
    NextSteps(Filled(s, w, v));
    GoesNext(s0, Filled(s, w, v), 5, lim);
  }

  // ---- A full ring ----

  /** After w rounds of claim, fill, publish and read on a fresh ring. */
  ghost predicate Rounds(s: State, num: nat, w: nat) {
    && |s.flags| == |s.elements| == num && s.producers == [Idle] && s.consumer.Ready? && s.mutex.None?
    && s.writingPoint == w <= num && s.readingPoint == (if w < num then w else 0)
    && s.started == |s.owners| == |s.got| == |s.held| == w && s.freed == 0
    && (forall i :: w <= i < num ==> s.flags[i] == 0)
    && (forall i :: 0 <= i < w ==> s.held[i] == i)
    && (w > 0 ==> s.flags[0] == 2 && s.elements[0] == s.got[0])
  }

  lemma OneMoreRound(s0: State, s: State, num: nat, w: nat, v: int, lim: Limit)
    requires Goes(s0, s, lim) && Rounds(s, num, w) && w < num && Fits(s.(started := w + 1), lim)
    ensures Goes(s0, Turned(s, w, v), lim) && Rounds(Turned(s, w, v), num, w + 1)
    ensures Turned(s, w, v).early == s.early
  {
    hide Goes, Fits;
    FillAndRead(s0, s, w, v, lim);
  }

  lemma {:induction false} FullLap(num: nat, w: nat, v: int, lim: Limit) returns (s: State)
    requires 0 < num <= lim.n && w <= num
    ensures Goes(Init(num, 1), s, lim) && Rounds(s, num, w) && s.early == {}
    decreases w
  {
    hide Goes;
    if w == 0 {
      s := Init(num, 1);
      GoesNowhere(s, lim);
    } else {
      s := FullLap(num, w - 1, v, lim);
      assert Fits(s.(started := w), lim);
      hide Rounds, Fits;
      OneMoreRound(Init(num, 1), s, num, w - 1, v, lim);
      s := Turned(s, w - 1, v);
    }
  }

  /**
    For every size, as many claims outstanding as slots are too many, even if nothing is freed:
    the writing point has moved past the end, and the consumer reads the first element again.
   */
  lemma FullRingReadsTwice(num: nat, v: int, lim: Limit)
    requires 0 < num <= lim.n
    ensures exists run :: Within(Init(num, 1), run, lim) && ReadTwice(End(Init(num, 1), run, lim), num)
  {
    var s := FullLap(num, num, v, lim);
    var t := NextAlone(s, 5);
    NextSteps(s);
    GoesNext(Init(num, 1), s, 5, lim);
    assert ReadTwice(t, num);
    hide Rounds, NextAlone;
    GoesMeans(Init(num, 1), t, lim);
  }

  ghost predicate ReadTwice(s: State, num: nat) {
    && s.started == |s.owners| == num && s.freed == 0
    && |s.got| == num + 1 && s.got[num] == s.got[0]
  }

  lemma GoesMeans(s: State, t: State, lim: Limit)
    requires Goes(s, t, lim)
    ensures exists run :: Within(s, run, lim) && End(s, run, lim) == t
  {
  }

  // ---- Freeing out of turn ----

  /** The consumer frees a slot while it still has an older one. */
  lemma FreeEarly(s0: State, s: State, j: nat, lim: Limit) returns (t: State)
    requires Goes(s0, s, lim) && lim.AnyOrder? && s.consumer.Ready? && 0 < j < |s.held| && s.held[j] < |s.flags|
    requires s.freed !in s.early && s.freed + j !in s.early && Fits(s, lim)
    ensures Goes(s0, t, lim) && Outstanding(t) == Outstanding(s) - 1
    ensures t == s.(flags := s.flags[s.held[j] := 0], early := s.early + {s.freed + j})
  {
    hide Goes;
    t := s.(flags := s.flags[s.held[j] := 0], early := s.early + {s.freed + j});
    GoesOn(s0, s, SetFree(j), t, lim);
  }

  /** Rounds after which every slot but the first was freed at once. */
  lemma {:induction false} EarlyLap(num: nat, w: nat, v: int, lim: Limit) returns (s: State)
    requires lim.AnyOrder? && lim.n >= 2 && 0 < w <= num
    ensures Goes(Init(num, 1), s, lim) && Rounds(s, num, w) && Outstanding(s) == 1
    ensures forall k :: k in s.early ==> 0 < k < w
    decreases w
  {
    hide Goes;
    var s0 := Init(num, 1);
    if w == 1 {
      GoesNowhere(s0, lim);
      assert Rounds(s0, num, 0);
      OneMoreRound(s0, s0, num, 0, v, lim);
      s := Turned(s0, 0, v);
    } else {
      var r := EarlyLap(num, w - 1, v, lim);
      OneMoreRound(s0, r, num, w - 1, v, lim);
      var u := Turned(r, w - 1, v);
      assert Outstanding(u) == 2 && u.early == r.early;
      s := FreeEarly(s0, u, w - 1, lim);
    }
  }

  /** A producer past the end of the ring, up to the moment it resets the writing point. */
  lemma WrapLocked(s0: State, s: State, lim: Limit) returns (t: State)
    requires Goes(s0, s, lim) && s.producers == [Idle] && s.mutex.None? && s.writingPoint == |s.flags|
    requires Fits(s.(started := s.started + 1), lim)
    ensures Goes(s0, t, lim)
    ensures t == s.(producers := [Reset], writingPoint := |s.flags| + 2, started := s.started + 1, mutex := Some(0))
  {
    var a := s.(producers := [Fetch]);
    var b := s.(producers := [Lock], writingPoint := |s.flags| + 1, started := s.started + 1);
    var c := b.(producers := [FetchAgain], mutex := Some(0));
    t := c.(producers := [Reset], writingPoint := |s.flags| + 2);
    hide Goes, Released, Consumed, Dropped;
    GoesOn(s0, s, Begin(0), a, lim);
    GoesOn(s0, a, Produce(0), b, lim);
    GoesOn(s0, b, Produce(0), c, lim);
    GoesOn(s0, c, Produce(0), t, lim);
  }

  /** A claim that wraps round to a slot still held is refused. */
  lemma WrapAndRefuse(s0: State, s: State, lim: Limit) returns (t: State)
    requires Goes(s0, s, lim) && s.producers == [Idle] && s.mutex.None? && s.writingPoint == |s.flags| > 0
    requires s.flags[0] == 2 && Fits(s.(started := s.started + 1), lim)
    ensures Goes(s0, t, lim) && t.producers == [Refused(|s.owners|)]
  {
    var k := |s.owners|;
    var d := WrapLocked(s0, s, lim);
    var e := d.(producers := [Unlock(0, k)], writingPoint := 1, owners := s.owners + [0]);
    var f := e.(producers := [Check(0, k)], mutex := None);
    t := f.(producers := [Refused(k)]);
    hide Goes, Released, Consumed, Dropped;
    GoesOn(s0, d, Produce(0), e, lim);
    GoesOn(s0, e, Produce(0), f, lim);
    GoesOn(s0, f, Produce(0), t, lim);
  }

  /**
    For every size, with never more than two claims outstanding: if the consumer keeps the first
    slot and frees the others, the claim that comes round to the first slot is refused.
   */
  lemma EarlyFreeIsNotEnough(num: nat, v: int, lim: Limit)
    requires num > 0 && lim.AnyOrder? && lim.n >= 2
    ensures exists run :: Within(Init(num, 1), run, lim) && End(Init(num, 1), run, lim).producers == [Refused(num)]
  {
    var s := EarlyLap(num, num, v, lim);
    assert Fits(s.(started := s.started + 1), lim);
    hide Goes, Outstanding, Fits;
    var t := WrapAndRefuse(Init(num, 1), s, lim);
    GoesMeans(Init(num, 1), t, lim);
  }

  // ---- The exact condition ----

  /**
    A ring of any size is safe on every run within a limit if and only if the limit is less than
    the size, and, when slots may be freed in any order, at most one claim is outstanding.
   */
  lemma LimitIsExact(num: nat, lim: Limit)
    requires num > 0
    ensures AlwaysSafe(num, lim) <==> lim.n < num && (lim.AnyOrder? ==> lim.n <= 1)
  {
    if Enough(num, lim) {
      forall producers: nat, run | Within(Init(num, producers), run, lim)
        ensures Safe(End(Init(num, producers), run, lim))
      {
        InitInv(num, producers);
        EnoughIsSafe(Init(num, producers), run, lim);
      }
    } else {
      NotEnoughIsUnsafe(num, lim);
    }
  }

  lemma NotEnoughIsUnsafe(num: nat, lim: Limit)
    requires num > 0 && !Enough(num, lim)
    ensures exists run :: Within(Init(num, 1), run, lim) && !Safe(End(Init(num, 1), run, lim))
  {
    hide Within, End, Init;
    if lim.n >= num {
      FullRingReadsTwice(num, 0, lim);
      var run :| Within(Init(num, 1), run, lim) && ReadTwice(End(Init(num, 1), run, lim), num);
      assert !Safe(End(Init(num, 1), run, lim));
    } else {
      EarlyFreeIsNotEnough(num, 0, lim);
      var run :| Within(Init(num, 1), run, lim) && End(Init(num, 1), run, lim).producers == [Refused(num)];
      assert End(Init(num, 1), run, lim).producers[0].Refused?;
      assert !Safe(End(Init(num, 1), run, lim));
    }
  }
}
