/** In what order, and when, the jobs of one queue are taken, and that the time of a push is kept. */
module JobQueueOrder {
  import opened Prelude
  import opened JobWork
  import opened JobQueue
  import R = JobQueueRuns
  import Z = SortedSet

  // ---- First in, first out ----

  /** The job that a worker takes from the ready list in a step: the one it has afterwards. */
  function TakenBy(s: State, a: Action): seq<Id>
    requires Enabled(s, a)
  {
    if a.PopReady? then [Step(s, a).workers[a.w].id] else []
  }

  /** The job that a step makes ready: pushed for now, or given back without a delay. */
  function ReadyBy(s: State, a: Action): seq<Id>
    requires Enabled(s, a)
  {
    if a.Enqueue? && a.at.None? then [a.id]
    else if a.Advance? && s.workers[a.w].Requeueing? && s.workers[a.w].delay == 0 then [s.workers[a.w].id]
    else []
  }

  function Taken(s: State, run: seq<Action>): seq<Id>
    requires Possible(s, run)
    decreases |run|
  {
    if run == [] then [] else TakenBy(s, run[0]) + Taken(Step(s, run[0]), run[1..])
  }

  function MadeReady(s: State, run: seq<Action>): seq<Id>
    requires Possible(s, run)
    decreases |run|
  {
    if run == [] then [] else ReadyBy(s, run[0]) + MadeReady(Step(s, run[0]), run[1..])
  }

  lemma StepInOrder(s: State, a: Action)
    requires Enabled(s, a)
    ensures TakenBy(s, a) + Step(s, a).ready == s.ready + ReadyBy(s, a)
  {
    hide Work, Merge, Persisted, PopExpired, Z.Add;
  }

  /**
    With any number of workers and pushers: what was ready, and then what became ready, in this
    order, is what the workers took from the list, and then what is ready still.
   */
  lemma {:induction false} FirstInFirstOut(s: State, run: seq<Action>)
    requires Possible(s, run)
    ensures Taken(s, run) + After(s, run).ready == s.ready + MadeReady(s, run)
    decreases |run|
  {
    hide Step, Enabled, TakenBy, ReadyBy;
    if run == [] {
      assert s.ready + [] == [] + s.ready;
    } else {
      var a, rest, s1 := run[0], run[1..], Step(s, run[0]);
      StepInOrder(s, a);
      FirstInFirstOut(s1, rest);
      var first, more, last := TakenBy(s, a), Taken(s1, rest), After(s1, rest).ready;
      assert first + more + last == first + (more + last);
      assert s.ready + (ReadyBy(s, a) + MadeReady(s1, rest)) == s.ready + ReadyBy(s, a) + MadeReady(s1, rest);
    }
  }

  // ---- Not before its time ----

  /** When a step delays a job: the time of the push, or the time of the retry and its delay. */
  function DelayedBy(s: State, a: Action): Option<Z.Entry<Id>>
    requires Enabled(s, a)
  {
    if a.Enqueue? && a.at.Some? then Some(Z.Entry(a.at.value, a.id))
    else if a.Advance? && s.workers[a.w].Requeueing? && s.workers[a.w].delay != 0 then
      Some(Z.Entry(a.now + s.workers[a.w].delay, s.workers[a.w].id))
    else None
  }

  /** How the delayed jobs may change: an entry is added, and one whose time has come goes to a worker. */
  ghost predicate LaterChanges(s: State, a: Action, e: Option<Z.Entry<Id>>, s': State) {
    && (e.Some? ==> e.value in s'.later)
    && (forall x :: x in s'.later ==> x in s.later || e == Some(x))
    && (forall x :: x in s.later && x !in s'.later ==>
          a.PopLater? && x.score <= a.now && a.w < |s'.workers| && s'.workers[a.w] == Popped(x.member))
  }

  lemma StepDelays(s: State, a: Action)
    requires Inv(s) && Enabled(s, a)
    ensures LaterChanges(s, a, DelayedBy(s, a), Step(s, a))
  {
    hide Records;
    if a.PopLater? {
      PopDelays(s, a);
    } else if DelayedBy(s, a).Some? {
      QueueDelays(s, a);
    } else {
      LaterSame(s, a);
      hide Step, Inv;
    }
  }

  lemma PopDelays(s: State, a: Action)
    requires Placed(s) && Enabled(s, a) && a.PopLater?
    ensures LaterChanges(s, a, None, Step(s, a))
  {
    PopTakesFirst(s.later, a.now);
    PopGives(s, a);
    hide PopExpired, Step, Placed;
    if s.later != [] {
      assert s.later == [s.later[0]] + s.later[1..];
    }
  }

  lemma PopGives(s: State, a: Action)
    requires Enabled(s, a) && a.PopLater?
    ensures var (rest, id) := PopExpired(s.later, a.now);
      && (id.None? ==> Step(s, a) == s)
      && (id.Some? ==> Step(s, a).later == rest && Step(s, a).workers == s.workers[a.w := Popped(id.value)])
  {
    hide PopExpired;
  }

  lemma QueueDelays(s: State, a: Action)
    requires Placed(s) && Enabled(s, a) && DelayedBy(s, a).Some?
    ensures LaterChanges(s, a, DelayedBy(s, a), Step(s, a))
  {
    DelayAdds(s, a);
    hide Step, Z.Members, Z.Add, ReadyOk, HeldOk;
    Z.AddValid(s.later, DelayedBy(s, a).value, Before);
    hide Z.Valid;
  }

  lemma DelayAdds(s: State, a: Action)
    requires Placed(s) && Enabled(s, a) && DelayedBy(s, a).Some?
    ensures var e := DelayedBy(s, a).value;
      Step(s, a).later == Z.Add(s.later, e, Before) && forall x :: x in s.later ==> x.member != e.member
  {
    hide Z.Members, Z.Add, Z.Valid, Work, Merge, Persisted, PopExpired, Placed;
    if a.Advance? {
      assert Holds(s.workers[a.w], s.workers[a.w].id);
    }
    NotLater(s, DelayedBy(s, a).value.member);
  }

  lemma NotLater(s: State, id: Id)
    requires Placed(s) && id in s.jobs
    requires s.jobs[id].place.Created? || exists w: nat :: w < |s.workers| && Holds(s.workers[w], id)
    ensures forall x :: x in s.later ==> x.member != id
  {
    hide Z.Valid, Z.Members;
    if !s.jobs[id].place.Created? {
      var w: nat :| w < |s.workers| && Holds(s.workers[w], id);
      assert Sits(s, id, Held(w));
    }
    assert id in Z.Members(s.later) <==> Sits(s, id, Later);
    Z.MembersOf(s.later);
  }

  lemma PopTakesFirst(z: seq<Z.Entry<Id>>, now: int)
    requires Z.Valid(z)
    ensures var (rest, id) := PopExpired(z, now);
      && (id.None? ==> rest == z)
      && (id.Some? ==> z != [] && rest == z[1..] && id.value == z[0].member && z[0].score <= now)
  {
    PopsEarliest(z, now);
    hide Z.Valid, Z.Members;
  }

  /** A delayed job stays delayed as long as no worker asks for delayed jobs at its time or later. */
  lemma {:induction false} NotBeforeItsTime(s: State, run: seq<Action>, e: Z.Entry<Id>)
    requires Inv(s) && Possible(s, run) && e in s.later
    requires forall a :: a in run && a.PopLater? ==> a.now < e.score
    ensures e in After(s, run).later
    decreases |run|
  {
    hide Inv, Step, Enabled;
    if run != [] {
      assert run[0] in run && forall x :: x in run[1..] ==> x in run;
      StepInv(s, run[0]);
      StepDelays(s, run[0]);
      NotBeforeItsTime(Step(s, run[0]), run[1..], e);
    }
  }

  // ---- Equal times ----

  /** a and b agree in their first n bytes, and then a ends or has the lower byte. */
  predicate LowerAfter(a: Id, b: Id, n: nat) {
    n <= |a| && n < |b| && a[..n] == b[..n] && (n == |a| || a[n] < b[n])
  }

  lemma SameFirst(a: Id, b: Id, n: nat)
    requires LowerAfter(a, b, n) && n > 0
    ensures a[0] == b[0]
  {
    assert a[..n][0] == b[..n][0];
  }

  /** The order of the members is that of their bytes. */
  lemma {:induction false} BeforeIsLower(a: Id, b: Id)
    ensures Before(a, b) <==> exists n: nat :: LowerAfter(a, b, n)
    decreases |a|
  {
    if a == [] {
      assert b != [] ==> LowerAfter(a, b, 0);
    } else if b != [] {
      if a[0] == b[0] {
        BeforeIsLower(a[1..], b[1..]);
        if n: nat :| LowerAfter(a[1..], b[1..], n) {
          assert a[..n + 1] == [a[0]] + a[1..][..n] && b[..n + 1] == [b[0]] + b[1..][..n];
          assert LowerAfter(a, b, n + 1);
        }
        if n: nat :| LowerAfter(a, b, n) {
          assert n > 0;
          assert a[1..][..n - 1] == a[..n][1..] && b[1..][..n - 1] == b[..n][1..];
          assert LowerAfter(a[1..], b[1..], n - 1);
        }
      } else {
        assert a[..0] == b[..0];
        assert a[0] < b[0] ==> LowerAfter(a, b, 0);
        if n: nat :| LowerAfter(a, b, n) && n > 0 {
          SameFirst(a, b, n);
        }
      }
    }
  }

  lemma {:induction false} BeforeOrders(a: Id, b: Id, c: Id)
    ensures Before(a, b) ==> !Before(b, a)
    ensures a == b || Before(a, b) || Before(b, a)
    ensures Before(a, b) && Before(b, c) ==> Before(a, c)
    decreases |a|
  {
    if a != [] && b != [] && a[0] == b[0] {
      BeforeOrders(a[1..], b[1..], if c == [] then [] else c[1..]);
      assert a == [a[0]] + a[1..] && b == [b[0]] + b[1..];
    }
  }

  lemma BeforeIsTotal()
    ensures Z.TotalOrder(Before)
  {
    forall a, b, c
      ensures Before(a, b) ==> !Before(b, a)
      ensures a == b || Before(a, b) || Before(b, a)
      ensures Before(a, b) && Before(b, c) ==> Before(a, c)
    {
      BeforeOrders(a, b, c);
    }
  }

  /** After every run the delayed jobs lie in the order of their times, and of their names at equal times. */
  lemma {:induction false} LaterInOrder(s: State, run: seq<Action>)
    requires Inv(s) && Possible(s, run) && Z.InOrder(s.later, Before)
    ensures Z.InOrder(After(s, run).later, Before)
    decreases |run|
  {
    hide Inv, Step, Enabled, Z.InOrder;
    if run != [] {
      StepInv(s, run[0]);
      StepInOrderOfTimes(s, run[0]);
      LaterInOrder(Step(s, run[0]), run[1..]);
    }
  }

  lemma StepInOrderOfTimes(s: State, a: Action)
    requires Inv(s) && Enabled(s, a) && Z.InOrder(s.later, Before)
    ensures Z.InOrder(Step(s, a).later, Before)
  {
    hide Records;
    if a.PopLater? {
      PopTakesFirst(s.later, a.now);
      PopGives(s, a);
      hide PopExpired, Step, Placed, Z.Valid, Z.Members, Z.Precedes;
    } else if DelayedBy(s, a).Some? {
      DelayAdds(s, a);
      BeforeIsTotal();
      hide Step, Placed, Z.TotalOrder, Z.InOrder;
      Z.AddInOrder(s.later, DelayedBy(s, a).value, Before);
    } else {
      LaterSame(s, a);
      hide Step, Placed, Z.InOrder;
    }
  }

  lemma LaterSame(s: State, a: Action)
    requires Enabled(s, a) && !a.PopLater? && DelayedBy(s, a).None?
    ensures Step(s, a).later == s.later
  {
    hide Work, Merge, Persisted, Z.Members, Z.Add;
  }

  // ---- The time of the push ----

  ghost predicate PcDated(pc: Pc, t: int) {
    match pc
    case Loaded(_, data) => Dated(data, t)
    case Working(_, work) => Dated(work.data, t)
    case Settling(_, work) => Dated(work.data, t)
    case Delaying(_, work, _) => Dated(work.data, t)
    case _ => true
  }

  /** The job has the time of its push wherever its data are. */
  ghost predicate JobDated(s: State, id: Id, t: int) {
    && (id in s.store ==> Dated(s.store[id], t))
    && forall w: nat :: w < |s.workers| && Holds(s.workers[w], id) ==> PcDated(s.workers[w], t)
  }

  /** A busy worker's step on its job. */
  lemma HeldDated(s: State, a: Action, id: Id, t: int)
    requires Inv(s) && Enabled(s, a) && id in s.jobs && JobDated(s, id, t)
    requires (a.Load? || a.Begin? || a.Advance?) && s.workers[a.w].id == id
    ensures DatedNext(s, a, id, t)
  {
    Busy(s, a.w);
    assert Holds(s.workers[a.w], id);
    assert Dated(s.store[id], t) && PcDated(s.workers[a.w], t);
    hide Inv, PhaseOk, AllDue, Work, Merge, Persisted, JobDated, Dated;
    if a.Advance? {
      AdvanceDated(s, a, id, t);
    } else if a.Begin? {
      WorkKeepsDate(s.workers[a.w].data, a.registered, a.o, t);
    }
  }

  ghost predicate DatedNext(s: State, a: Action, id: Id, t: int)
    requires Enabled(s, a) && (a.Load? || a.Begin? || a.Advance?)
  {
    var s' := Step(s, a);
    && (id in s'.store ==> Dated(s'.store[id], t)) && a.w < |s'.workers| && PcDated(s'.workers[a.w], t)
    && s'.workers == s.workers[a.w := s'.workers[a.w]]
  }

  lemma AdvanceDated(s: State, a: Action, id: Id, t: int)
    requires a.Advance? && Enabled(s, a) && s.workers[a.w].id == id && id in s.store
    requires Dated(s.store[id], t) && PcDated(s.workers[a.w], t)
    ensures DatedNext(s, a, id, t)
  {
    hide Merge, Persisted, Z.Add, Dated, PersistedDelay, ReportedTries, Named, First, Rest;
    if !s.workers[a.w].Requeueing? {
      MergeKeepsDate(s.store[id], s.workers[a.w].work, t);
    }
  }

  /** Neither the data of the job nor a worker that goes on having it changed. */
  ghost predicate Untouched(s: State, s': State, id: Id) {
    && (id in s'.store ==> id in s.store && s'.store[id] == s.store[id])
    && |s'.workers| == |s.workers|
    && forall w :: 0 <= w < |s.workers| ==>
         s'.workers[w] == s.workers[w] || s'.workers[w].Popped? || !Holds(s'.workers[w], id)
  }

  lemma AdvanceUntouched(s: State, a: Action, id: Id)
    requires a.Advance? && Enabled(s, a) && s.workers[a.w].id != id
    ensures Untouched(s, Step(s, a), id)
  {
    var s', mine := Step(s, a), s.workers[a.w].id;
    assert |s'.workers| == |s.workers| && s'.workers == s.workers[a.w := s'.workers[a.w]]
      && !Holds(s'.workers[a.w], id) && s'.store - {mine} == s.store - {mine} by {
      hide Merge, Persisted, Z.Add, PersistedDelay, ReportedTries, Named, First, Rest;
    }
    hide Step;
    if id in s'.store {
      assert id in s'.store - {mine} && (s'.store - {mine})[id] == (s.store - {mine})[id];
    }
  }

  /** A step on another job, or none. */
  lemma OtherUntouched(s: State, a: Action, id: Id)
    requires Enabled(s, a) && id in s.jobs
    requires (a.Load? || a.Begin? || a.Advance?) ==> s.workers[a.w].id != id
    ensures Untouched(s, Step(s, a), id)
  {
    if a.Advance? {
      AdvanceUntouched(s, a, id);
    } else {
      hide Work, Merge, PopExpired, Z.Add, First, NewData;
    }
  }

  lemma OtherDated(s: State, a: Action, id: Id, t: int)
    requires Enabled(s, a) && id in s.jobs && JobDated(s, id, t)
    requires (a.Load? || a.Begin? || a.Advance?) ==> s.workers[a.w].id != id
    ensures JobDated(Step(s, a), id, t)
  {
    OtherUntouched(s, a, id);
    hide Step, Dated;
  }

  lemma StepDated(s: State, a: Action, id: Id, t: int)
    requires Inv(s) && Enabled(s, a) && id in s.jobs && JobDated(s, id, t)
    ensures JobDated(Step(s, a), id, t)
  {
    if (a.Load? || a.Begin? || a.Advance?) && s.workers[a.w].id == id {
      HeldDated(s, a, id, t);
      hide Inv, Step, Dated, PcDated;
    } else {
      OtherDated(s, a, id, t);
    }
  }

  lemma {:induction false} RunDated(s: State, run: seq<Action>, id: Id, t: int)
    requires Inv(s) && Possible(s, run) && id in s.jobs && JobDated(s, id, t)
    ensures id in After(s, run).jobs && JobDated(After(s, run), id, t)
    decreases |run|
  {
    hide Inv, Step, Enabled, JobDated;
    if run != [] {
      StepInv(s, run[0]);
      StepDated(s, run[0], id, t);
      JobsStay(s, run[0], id);
      RunDated(Step(s, run[0]), run[1..], id, t);
    }
  }

  lemma JobsStay(s: State, a: Action, id: Id)
    requires Enabled(s, a) && id in s.jobs
    ensures id in Step(s, a).jobs
  {
    hide Work, Merge, Persisted, PopExpired, Z.Add;
  }

  /** However a job fares, its record keeps the time of its push. */
  lemma PushTimeStays(workers: nat, before: seq<Action>, s: State, a: Action, run: seq<Action>)
    requires R.Reached(workers, before, s) && a.Create? && Enabled(s, a) && Possible(Step(s, a), run)
    ensures var s' := After(Step(s, a), run);
      a.id in s'.store ==> CreatedAt in s'.store[a.id] && s'.store[a.id][CreatedAt] == Num(a.now)
  {
    R.ReachedInv(workers, before, s);
    StepInv(s, a);
    CreatedDated(s, a);
    hide Inv, Step, Enabled, R.Reached;
    RunDated(Step(s, a), run, a.id, a.now);
  }

  lemma CreatedDated(s: State, a: Action)
    requires Inv(s) && a.Create? && Enabled(s, a)
    ensures a.id in Step(s, a).jobs && JobDated(Step(s, a), a.id, a.now)
  {
    var s' := Step(s, a);
    PushedData(a.max, a.name, a.payload, a.now);
    forall w: nat | w < |s'.workers| ensures !Holds(s'.workers[w], a.id) {
      assert Holds(s.workers[w], a.id) <==> Sits(s, a.id, Held(w));
    }
    hide Records;
  }
}
