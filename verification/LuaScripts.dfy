/**
  The queue scripts that Redis runs atomically: a ready list with a notification for each job, and
  two sorted sets, for delayed jobs and for jobs reserved by a consumer.
 */
module LuaScripts {
  import opened Prelude
  import Z = SortedSet

  /** A job payload: its attempts counter, and everything else. */
  datatype Job = Job(body: string, attempts: nat)

  /** The four keys of one queue. Both sorted sets hold jobs in score order. */
  datatype Queue = Queue(ready: seq<Job>, delayed: seq<Z.Entry<Job>>, reserved: seq<Z.Entry<Job>>, notify: seq<int>)

  /** The sorted set a migration takes from. */
  datatype Origin = Delayed | Reserved

  const EMPTY := Queue([], [], [], [])

  function Reserve(job: Job): Job {
    job.(attempts := job.attempts + 1)
  }

  function Push(q: Queue, job: Job): Queue {
    q.(ready := q.ready + [job], notify := q.notify + [1])
  }

  /** Also the job as it was and as it is reserved, when there is one. */
  function Pop(q: Queue, expires: int, before: (Job, Job) -> bool): (Queue, Option<(Job, Job)>) {
    if q.ready == [] then (q, None)
    else
      var job := Reserve(q.ready[0]);
      (q.(ready := q.ready[1..], reserved := Z.Add(q.reserved, Z.Entry(expires, job), before),
          notify := if q.notify == [] then [] else q.notify[1..]),
       Some((q.ready[0], job)))
  }

  function Release(q: Queue, job: Job, at: int, before: (Job, Job) -> bool): Queue {
    q.(reserved := Z.Remove(q.reserved, job), delayed := Z.Add(q.delayed, Z.Entry(at, job), before))
  }

  function From(q: Queue, o: Origin): seq<Z.Entry<Job>> {
    if o.Delayed? then q.delayed else q.reserved
  }

  /** The expired jobs of a set, in the order of their scores. */
  function Expired(q: Queue, o: Origin, now: int): seq<Job> {
    Z.RangeByScore(From(q, o), now)
  }

  function Ones(n: nat): (r: seq<int>)
    ensures |r| == n
  {
    seq(n, _ => 1)
  }

  function Migrate(q: Queue, o: Origin, now: int): Queue {
    var val := Expired(q, o, now);
    var q := q.(ready := q.ready + val, notify := q.notify + Ones(|val|));
    if o.Delayed? then q.(delayed := Z.RemoveRanks(q.delayed, |val|))
    else q.(reserved := Z.RemoveRanks(q.reserved, |val|))
  }

  function Size(q: Queue): nat {
    |q.ready| + |q.delayed| + |q.reserved|
  }

  // ---- The scripts, command by command ----

  class Scripts {
    const before: (Job, Job) -> bool
    var ready: seq<Job>
    var delayed: seq<Z.Entry<Job>>
    var reserved: seq<Z.Entry<Job>>
    var notify: seq<int>

    constructor (before: (Job, Job) -> bool)
      ensures Value() == EMPTY && this.before == before
    {
      this.before := before;
      ready, delayed, reserved, notify := [], [], [], [];
    }

    function Value(): Queue
      reads this
    {
      Queue(ready, delayed, reserved, notify)
    }

    method PushJob(job: Job)
      modifies this
      ensures Value() == Push(old(Value()), job)
    {
      ready := ready + [job];
      notify := notify + [1];
    }

    method PopJob(expires: int) returns (r: Option<(Job, Job)>)
      modifies this
      ensures (Value(), r) == Pop(old(Value()), expires, before)
    {
      r := None;
      if ready != [] {
        var job := ready[0];
        ready := ready[1..];
        var kept := Reserve(job);
        reserved := Z.Add(reserved, Z.Entry(expires, kept), before);
        if notify != [] {
          notify := notify[1..];
        }
        r := Some((job, kept));
      }
    }

    method ReleaseJob(job: Job, at: int)
      modifies this
      ensures Value() == Release(old(Value()), job, at, before)
    {
      reserved := Z.Remove(reserved, job);
      delayed := Z.Add(delayed, Z.Entry(at, job), before);
    }

    /** rpush, which takes at least one value. */
    method RpushJobs(values: seq<Job>)
      requires values != []
      modifies this`ready
      ensures ready == old(ready) + values
    {
      ready := ready + values;
    }

    /** Moves the expired jobs in chunks of 100; Lua counts from 1. */
    method MigrateJobs(o: Origin, now: int) returns (val: seq<Job>)
      modifies this
      ensures Value() == Migrate(old(Value()), o, now)
      ensures val == Expired(old(Value()), o, now)
    {
      hide Z.RangeByScore;
      val := Expired(Value(), o, now);
      if val != [] {
        if o.Delayed? {
          delayed := Z.RemoveRanks(delayed, |val|);
        } else {
          reserved := Z.RemoveRanks(reserved, |val|);
        }
        label Removed:
        var i := 1;
        while i <= |val|
          invariant 1 <= i && (i - 1) % 100 == 0
          invariant delayed == old@Removed(delayed) && reserved == old@Removed(reserved)
          invariant ready == old(ready) + val[..Min(i - 1, |val|)]
          invariant notify == old(notify) + Ones(Min(i - 1, |val|))
        {
          var last := Min(i + 99, |val|);
          RpushJobs(val[i - 1..last]);
          var j := i;
          while j <= last
            invariant i <= j <= last + 1
            invariant delayed == old@Removed(delayed) && reserved == old@Removed(reserved)
            invariant ready == old(ready) + val[..last]
            invariant notify == old(notify) + Ones(j - 1)
          {
            notify := notify + [1];
            j := j + 1;
          }
          i := i + 100;
        }
      } else {
        assert old(ready) + val == old(ready) && old(notify) + Ones(0) == old(notify);
        assert Z.RemoveRanks(From(old(Value()), o), 0) == From(old(Value()), o);
      }
    }

    method SizeOf() returns (n: nat)
      ensures n == Size(Value())
    {
      n := |ready| + |delayed| + |reserved|;
    }

    method Clear() returns (n: nat)
      modifies this
      ensures Value() == EMPTY && n == Size(old(Value()))
    {
      n := SizeOf();
      ready, delayed, reserved, notify := [], [], [], [];
    }
  }

  function Min(a: int, b: int): int {
    if a <= b then a else b
  }

  // ---- Runs ----

  datatype Action =
    | PushNew(body: string)
    | PopNext(expires: int)
    | ReleaseReserved(job: Job, at: int)
    | MigrateFrom(origin: Origin, now: int)
    | ClearAll

  /** The queue, and for each job pushed since the last clear how often it was popped. */
  datatype State = State(q: Queue, pops: map<string, nat>)

  const INIT := State(EMPTY, map[])

  /** Bodies carry a unique id, and consumers release what they reserved. */
  ghost predicate Enabled(s: State, a: Action) {
    match a
    case PushNew(body) => body !in s.pops
    case ReleaseReserved(job, _) => job in Z.Members(s.q.reserved)
    case _ => true
  }

  function Step(s: State, a: Action, before: (Job, Job) -> bool): State {
    match a
    case PushNew(body) => State(Push(s.q, Job(body, 0)), s.pops[body := 0])
    case PopNext(expires) =>
      var (q, r) := Pop(s.q, expires, before);
      State(q, if r.None? then s.pops else
        var body := r.value.0.body;
        s.pops[body := if body in s.pops then s.pops[body] + 1 else 1])
    case ReleaseReserved(job, at) => s.(q := Release(s.q, job, at, before))
    case MigrateFrom(o, now) => s.(q := Migrate(s.q, o, now))
    case ClearAll => INIT
  }

  ghost predicate Possible(s: State, run: seq<Action>, before: (Job, Job) -> bool)
    decreases |run|
  {
    run != [] ==> Enabled(s, run[0]) && Possible(Step(s, run[0], before), run[1..], before)
  }

  function After(s: State, run: seq<Action>, before: (Job, Job) -> bool): State
    decreases |run|
  {
    if run == [] then s else After(Step(s, run[0], before), run[1..], before)
  }

  // ---- Conservation ----

  /** Every job in the queue, as often as it is there. */
  function Contents(q: Queue): multiset<Job> {
    multiset(q.ready) + multiset(Z.Members(q.delayed)) + multiset(Z.Members(q.reserved))
  }

  /** Each pushed job once, with its pops as its attempts. */
  function Expected(pops: map<string, nat>, job: Job): nat {
    if job.body in pops && job.attempts == pops[job.body] then 1 else 0
  }

  ghost predicate Conserved(m: multiset<Job>, pops: map<string, nat>) {
    forall job :: m[job] == Expected(pops, job)
  }

  ghost predicate Inv(s: State) {
    && Z.Valid(s.q.delayed) && Z.Valid(s.q.reserved)
    && |s.q.notify| == |s.q.ready|
    && Conserved(Contents(s.q), s.pops)
  }

  lemma SizeOfContents(q: Queue)
    ensures Size(q) == |Contents(q)|
  {
    hide Z.Members;
    assert |multiset(q.ready)| == |q.ready|;
    assert |multiset(Z.Members(q.delayed))| == |q.delayed|;
    assert |multiset(Z.Members(q.reserved))| == |q.reserved|;
  }

  lemma PopContents(q: Queue, expires: int, before: (Job, Job) -> bool)
    requires q.ready != [] && Z.Valid(q.reserved) && Contents(q)[Reserve(q.ready[0])] == 0
    ensures var r := Pop(q, expires, before).0;
      && Contents(r) == Contents(q) - multiset{q.ready[0]} + multiset{Reserve(q.ready[0])}
      && Z.Valid(r.reserved) && Size(r) == Size(q)
  {
    hide Z.Valid, Z.Sorted, Z.Unique, Z.Members, Z.Add, Z.Insert, Z.Remove, Z.RangeByScore;
    var kept := Reserve(q.ready[0]);
    var e := Z.Entry(expires, kept);
    Z.AddValid(q.reserved, e, before);
    Z.AddMembers(q.reserved, e, before);
    var r := Pop(q, expires, before).0;
    assert r.ready == q.ready[1..] && r.delayed == q.delayed && r.reserved == Z.Add(q.reserved, e, before);
    hide Pop;
    assert q.ready == [q.ready[0]] + r.ready;
    var old0, new0 := multiset(Z.Members(q.reserved)), multiset(Z.Members(r.reserved));
    assert old0[kept] == 0;
    assert new0 == old0 + multiset{kept};
    assert Contents(r) == Contents(q) - multiset{q.ready[0]} + multiset{kept};
    SizeOfContents(q);
    SizeOfContents(r);
  }

  lemma PopStep(s: State, expires: int, before: (Job, Job) -> bool)
    requires Inv(s)
    ensures Inv(Step(s, PopNext(expires), before))
    ensures Size(Step(s, PopNext(expires), before).q) == Size(s.q)
  {
    hide Z.Valid, Z.Sorted, Z.Unique, Z.Members, Z.Add, Z.Insert, Z.Remove, Z.RangeByScore;
    if s.q.ready != [] {
      var job := s.q.ready[0];
      assert job in multiset(s.q.ready);
      assert Contents(s.q)[job] == Expected(s.pops, job);
      assert Contents(s.q)[Reserve(job)] == Expected(s.pops, Reserve(job));
      PopContents(s.q, expires, before);
      var s' := Step(s, PopNext(expires), before);
      assert s'.pops == s.pops[job.body := job.attempts + 1] && |s'.q.notify| == |s'.q.ready|;
      assert s'.q == Pop(s.q, expires, before).0 && s'.q.delayed == s.q.delayed;
      hide Pop, Contents, Step;
      assert Conserved(Contents(s'.q), s'.pops);
    }
  }

  lemma ReleaseContents(q: Queue, job: Job, at: int, before: (Job, Job) -> bool)
    requires Z.Valid(q.delayed) && Z.Valid(q.reserved)
    ensures Contents(Release(q, job, at, before)) == Contents(q)[job := multiset(q.ready)[job] + 1]
  {
    hide Z.Valid, Z.Sorted, Z.Unique, Z.Members, Z.Add, Z.Insert, Z.Remove, Z.RangeByScore;
    Z.RemoveMembers(q.reserved, job);
    Z.AddMembers(q.delayed, Z.Entry(at, job), before);
  }

  /** Releasing a job conserves the jobs exactly if it was reserved, or delayed already. */
  lemma ReleaseConservesIff(q: Queue, job: Job, at: int, before: (Job, Job) -> bool)
    requires Z.Valid(q.delayed) && Z.Valid(q.reserved)
    requires Contents(q)[job] <= 1
    ensures Contents(Release(q, job, at, before)) == Contents(q) <==>
            job in Z.Members(q.reserved) || job in Z.Members(q.delayed)
  {
    hide Z.Valid, Z.Sorted, Z.Unique, Z.Members, Z.Add, Z.Insert, Z.Remove, Z.RangeByScore;
    ReleaseContents(q, job, at, before);
    hide Release;
    assert job in Z.Members(q.reserved) <==> job in multiset(Z.Members(q.reserved));
    assert job in Z.Members(q.delayed) <==> job in multiset(Z.Members(q.delayed));
    var rest := multiset(Z.Members(q.delayed))[job] + multiset(Z.Members(q.reserved))[job];
    assert Contents(q)[job] == multiset(q.ready)[job] + rest;
    if rest != 0 {
      assert Contents(q)[job := multiset(q.ready)[job] + 1] == Contents(q);
    } else {
      assert Contents(Release(q, job, at, before))[job] != Contents(q)[job];
    }
  }

  /** A job nobody reserved appears out of nowhere when it is released. */
  lemma ReleaseInvents(job: Job, at: int, before: (Job, Job) -> bool)
    ensures Contents(EMPTY) == multiset{} && Contents(Release(EMPTY, job, at, before)) == multiset{job}
  {
    ReleaseContents(EMPTY, job, at, before);
  }

  lemma ReleaseStep(s: State, job: Job, at: int, before: (Job, Job) -> bool)
    requires Inv(s) && job in Z.Members(s.q.reserved)
    ensures Inv(Step(s, ReleaseReserved(job, at), before))
    ensures Size(Release(s.q, job, at, before)) == Size(s.q)
  {
    hide Z.Valid, Z.Sorted, Z.Unique, Z.Members, Z.Add, Z.Insert, Z.Remove, Z.RangeByScore;
    var r := Release(s.q, job, at, before);
    assert Contents(s.q)[job] == Expected(s.pops, job);
    Z.RemoveValid(s.q.reserved, job);
    Z.AddValid(s.q.delayed, Z.Entry(at, job), before);
    ReleaseConservesIff(s.q, job, at, before);
    SizeOfContents(r);
    SizeOfContents(s.q);
  }

  lemma MigrateContents(q: Queue, o: Origin, now: int, val: seq<Job>)
    requires val == Expired(q, o, now)
    requires Z.Members(From(q, o)) == val + Z.Members(From(Migrate(q, o, now), o))
    ensures Contents(Migrate(q, o, now)) == Contents(q)
  {
    hide Z.Valid, Z.Sorted, Z.Unique, Z.Members, Z.Add, Z.Insert, Z.Remove, Z.RangeByScore;
    var r := Migrate(q, o, now);
    hide Z.RemoveRanks;
    assert multiset(Z.Members(From(q, o))) == multiset(val) + multiset(Z.Members(From(r, o)));
    assert multiset(r.ready) == multiset(q.ready) + multiset(val);
    if o.Delayed? {
      assert r.reserved == q.reserved;
    } else {
      assert r.delayed == q.delayed;
    }
  }

  /**
    Migration appends the jobs whose score has passed, in score order, one notification each,
    and leaves in the set exactly the others.
   */
  lemma MigrateMovesExpired(q: Queue, o: Origin, now: int)
    requires Z.Valid(From(q, o))
    ensures var r := Migrate(q, o, now); var val := Expired(q, o, now);
      && r.ready == q.ready + val && |r.notify| == |q.notify| + |val|
      && Z.Members(From(q, o)) == val + Z.Members(From(r, o))
      && Z.Valid(From(r, o))
      && (forall x :: x in From(q, o) ==> (x in From(r, o) <==> x.score > now))
      && Contents(r) == Contents(q) && Size(r) == Size(q)
  {
    hide Z.Valid, Z.Sorted, Z.Unique, Z.Members, Z.Add, Z.Insert, Z.Remove, Z.RangeByScore;
    var z := From(q, o);
    var val := Expired(q, o, now);
    var r := Migrate(q, o, now);
    Z.RangeIsPrefix(z, now);
    assert z == z[..|val|] + z[|val|..];
    MigrateContents(q, o, now, val);
    SizeOfContents(q);
    SizeOfContents(r);
    hide Contents, Size;
  }

  lemma InitInv()
    ensures Inv(INIT)
  {
  }

  lemma PushStep(s: State, body: string, before: (Job, Job) -> bool)
    requires Inv(s) && body !in s.pops
    ensures Inv(Step(s, PushNew(body), before))
  {
    hide Z.Valid, Z.Sorted, Z.Unique, Z.Members, Z.Add, Z.Insert, Z.Remove, Z.RangeByScore;
    var s' := Step(s, PushNew(body), before);
    assert Contents(s'.q) == Contents(s.q) + multiset{Job(body, 0)};
    assert s'.pops == s.pops[body := 0];
    hide Contents, Step;
    assert Conserved(Contents(s'.q), s'.pops);
  }

  lemma StepInv(s: State, a: Action, before: (Job, Job) -> bool)
    requires Inv(s) && Enabled(s, a)
    ensures Inv(Step(s, a, before))
    ensures a.PopNext? || a.ReleaseReserved? || a.MigrateFrom? ==> Size(Step(s, a, before).q) == Size(s.q)
  {
    hide Z.Valid, Z.Sorted, Z.Unique, Z.Members, Z.Add, Z.Insert, Z.Remove, Z.RangeByScore;
    match a
    case PushNew(body) => PushStep(s, body, before);
    case PopNext(expires) => PopStep(s, expires, before);
    case ReleaseReserved(job, at) => ReleaseStep(s, job, at, before);
    case MigrateFrom(o, now) =>
      MigrateMovesExpired(s.q, o, now);
      hide Contents;
    case ClearAll => InitInv();
  }

  lemma {:induction false} RunInv(s: State, run: seq<Action>, before: (Job, Job) -> bool)
    requires Inv(s) && Possible(s, run, before)
    ensures Inv(After(s, run, before))
    decreases |run|
  {
    if run != [] {
      StepInv(s, run[0], before);
      RunInv(Step(s, run[0], before), run[1..], before);
    }
  }

  lemma {:induction false} Cardinality(m: multiset<Job>, pops: map<string, nat>)
    requires Conserved(m, pops)
    ensures |m| == |pops|
    decreases |pops|
  {
    if pops == map[] {
      assert m == multiset{};
    } else {
      var body :| body in pops;
      var job := Job(body, pops[body]);
      assert m[job] == Expected(pops, job);
      var rest := pops - {body};
      Cardinality(m - multiset{job}, rest);
      assert pops.Keys == rest.Keys + {body};
    }
  }

  /**
    After any run: each pushed job is in exactly one of the three places, once, and its attempts
    count its pops; nothing else is there; there is a notification for each ready job; and the
    size script returns the number of pushed jobs.
   */
  lemma EachJobOnce(run: seq<Action>, before: (Job, Job) -> bool)
    requires Possible(INIT, run, before)
    ensures var s := After(INIT, run, before);
      && (forall job: Job :: multiset(s.q.ready)[job] + multiset(Z.Members(s.q.delayed))[job]
            + multiset(Z.Members(s.q.reserved))[job]
            == if job.body in s.pops && job.attempts == s.pops[job.body] then 1 else 0)
      && |s.q.notify| == |s.q.ready|
      && Size(s.q) == |s.pops|
  {
    hide Z.Valid, Z.Sorted, Z.Unique, Z.Members, Z.Add, Z.Insert, Z.Remove, Z.RangeByScore;
    InitInv();
    RunInv(INIT, run, before);
    var s := After(INIT, run, before);
    SizeOfContents(s.q);
    Cardinality(Contents(s.q), s.pops);
    hide After;
    forall job: Job
      ensures multiset(s.q.ready)[job] + multiset(Z.Members(s.q.delayed))[job] + multiset(Z.Members(s.q.reserved))[job]
           == if job.body in s.pops && job.attempts == s.pops[job.body] then 1 else 0
    {
      assert Contents(s.q)[job] == Expected(s.pops, job);
    }
  }

  // ---- Order ----

  /** What a consumer gets in a step: the job as it was, and as it is reserved. */
  function PoppedBy(s: State, a: Action, before: (Job, Job) -> bool): seq<(Job, Job)> {
    if !a.PopNext? then []
    else
      var r := Pop(s.q, a.expires, before).1;
      if r.Some? then [r.value] else []
  }

  /** What becomes ready in a step: the job pushed, or the jobs that migrate. */
  function ReadyBy(s: State, a: Action): seq<Job> {
    match a
    case PushNew(body) => [Job(body, 0)]
    case MigrateFrom(o, now) => Expired(s.q, o, now)
    case _ => []
  }

  function Popped(s: State, run: seq<Action>, before: (Job, Job) -> bool): seq<(Job, Job)>
    decreases |run|
  {
    if run == [] then [] else PoppedBy(s, run[0], before) + Popped(Step(s, run[0], before), run[1..], before)
  }

  function MadeReady(s: State, run: seq<Action>, before: (Job, Job) -> bool): seq<Job>
    decreases |run|
  {
    if run == [] then [] else ReadyBy(s, run[0]) + MadeReady(Step(s, run[0], before), run[1..], before)
  }

  function Firsts(r: seq<(Job, Job)>): (f: seq<Job>)
    ensures |f| == |r| && forall i :: 0 <= i < |r| ==> f[i] == r[i].0
  {
    seq(|r|, i requires 0 <= i < |r| => r[i].0)
  }

  lemma StepInOrder(s: State, a: Action, before: (Job, Job) -> bool)
    requires a != ClearAll
    ensures Firsts(PoppedBy(s, a, before)) + Step(s, a, before).q.ready == s.q.ready + ReadyBy(s, a)
    ensures forall r :: r in PoppedBy(s, a, before) ==> r.1 == Job(r.0.body, r.0.attempts + 1)
    ensures PoppedBy(s, a, before) != [] <==> a.PopNext? && s.q.ready != []
  {
    hide Z.Add, Z.Remove, Z.RangeByScore, Z.RemoveRanks;
  }

  /**
    First in, first out, in every run without clear: what was ready, and then what became ready,
    in this order, is what was popped, and then what is ready still. Each job popped is reserved
    with one attempt more.
   */
  lemma {:induction false} FirstInFirstOut(s: State, run: seq<Action>, before: (Job, Job) -> bool)
    requires ClearAll !in run
    ensures Firsts(Popped(s, run, before)) + After(s, run, before).q.ready == s.q.ready + MadeReady(s, run, before)
    ensures forall r :: r in Popped(s, run, before) ==> r.1 == Job(r.0.body, r.0.attempts + 1)
    decreases |run|
  {
    hide PoppedBy, ReadyBy, Step;
    if run == [] {
      assert s.q.ready + [] == [] + s.q.ready;
    } else {
      var a, rest, s1 := run[0], run[1..], Step(s, run[0], before);
      assert a in run && forall x :: x in rest ==> x in run;
      StepInOrder(s, a, before);
      FirstInFirstOut(s1, rest, before);
      var first, more, last := PoppedBy(s, a, before), Popped(s1, rest, before), After(s1, rest, before).q.ready;
      assert Firsts(first + more) + last == Firsts(first) + (Firsts(more) + last);
      assert s.q.ready + (ReadyBy(s, a) + MadeReady(s1, rest, before))
        == s.q.ready + ReadyBy(s, a) + MadeReady(s1, rest, before);
    }
  }

  function Pushed(run: seq<Action>): seq<Job> {
    if run == [] then []
    else (if run[0].PushNew? then [Job(run[0].body, 0)] else []) + Pushed(run[1..])
  }

  /** Pushes and pops alone: the jobs come out in the order they were pushed. */
  lemma PoppedInOrder(run: seq<Action>, before: (Job, Job) -> bool)
    requires forall a :: a in run ==> a.PushNew? || a.PopNext?
    ensures Firsts(Popped(INIT, run, before)) + After(INIT, run, before).q.ready == Pushed(run)
  {
    FirstInFirstOut(INIT, run, before);
    OnlyPushed(INIT, run, before);
    assert [] + Pushed(run) == Pushed(run);
  }

  lemma {:induction false} OnlyPushed(s: State, run: seq<Action>, before: (Job, Job) -> bool)
    requires forall a :: a in run ==> a.PushNew? || a.PopNext?
    ensures MadeReady(s, run, before) == Pushed(run)
    decreases |run|
  {
    if run != [] {
      assert run[0] in run;
      OnlyPushed(Step(s, run[0], before), run[1..], before);
    }
  }

  // ---- Times ----

  /** A released job is delayed until `at` and no longer reserved; a popped one is reserved until it expires. */
  lemma ScoresAreTimes(s: State, a: Action, before: (Job, Job) -> bool)
    requires Inv(s) && Enabled(s, a)
    ensures var q := Step(s, a, before).q;
      match a
      case ReleaseReserved(job, at) =>
        (forall e :: e in q.delayed && e.member == job <==> e == Z.Entry(at, job)) && job !in Z.Members(q.reserved)
      case PopNext(expires) =>
        s.q.ready != [] ==>
          var job := Job(s.q.ready[0].body, s.q.ready[0].attempts + 1);
          forall e :: e in q.reserved && e.member == job <==> e == Z.Entry(expires, job)
      case _ => true
  {
    hide Z.Valid, Z.Members, Z.Add, Z.Remove, Z.RangeByScore, Contents;
    match a
    case ReleaseReserved(job, at) =>
      Z.AddValid(s.q.delayed, Z.Entry(at, job), before);
      Z.RemoveContains(s.q.reserved, job);
      Z.MembersOf(Z.Remove(s.q.reserved, job));
    case PopNext(expires) =>
      if s.q.ready != [] {
        Z.AddValid(s.q.reserved, Z.Entry(expires, Reserve(s.q.ready[0])), before);
      }
    case _ =>
  }

  /** Nothing in this run takes e out of the set, or gives its job another time. */
  ghost predicate LeavesAlone(run: seq<Action>, o: Origin, e: Z.Entry<Job>) {
    forall a :: a in run ==>
      && a != ClearAll
      && (a.MigrateFrom? && a.origin == o ==> a.now < e.score)
      && (a.ReleaseReserved? ==> a.job != e.member)
  }

  /** A job does not migrate before its time: it stays in the set until then, unless it is released or cleared. */
  lemma {:induction false} NotBeforeItsTime(s: State, run: seq<Action>, before: (Job, Job) -> bool,
      o: Origin, e: Z.Entry<Job>)
    requires Inv(s) && Possible(s, run, before) && e in From(s.q, o) && LeavesAlone(run, o, e)
    ensures e in From(After(s, run, before).q, o)
    decreases |run|
  {
    hide Inv, Step, Enabled;
    if run != [] {
      assert run[0] in run;
      StepInv(s, run[0], before);
      StaysInStep(s, run[0], before, o, e);
      assert forall x :: x in run[1..] ==> x in run;
      NotBeforeItsTime(Step(s, run[0], before), run[1..], before, o, e);
    }
  }

  lemma StaysInStep(s: State, a: Action, before: (Job, Job) -> bool, o: Origin, e: Z.Entry<Job>)
    requires Inv(s) && Enabled(s, a) && e in From(s.q, o) && LeavesAlone([a], o, e)
    ensures e in From(Step(s, a, before).q, o)
  {
    assert a in [a];
    hide Z.Valid, Z.Members, Z.Add, Z.Remove, Z.RangeByScore, Z.RemoveRanks;
    match a
    case PopNext(expires) =>
      if s.q.ready != [] && o.Reserved? {
        ReservedOnce(s, e);
        Z.AddValid(s.q.reserved, Z.Entry(expires, Reserve(s.q.ready[0])), before);
      }
    case ReleaseReserved(job, at) =>
      Z.AddValid(s.q.delayed, Z.Entry(at, job), before);
      Z.RemoveContains(s.q.reserved, job);
    case MigrateFrom(p, now) =>
      if p == o {
        MigrateMovesExpired(s.q, p, now);
      }
    case _ =>
  }

  /** The job at the head of the ready list was never reserved with as many attempts as it will have. */
  lemma ReservedOnce(s: State, e: Z.Entry<Job>)
    requires Inv(s) && s.q.ready != [] && e in s.q.reserved
    ensures e.member != Reserve(s.q.ready[0])
  {
    var job := s.q.ready[0];
    Z.MembersOf(s.q.reserved);
    assert e.member in Z.Members(s.q.reserved);
    hide Z.Members, Z.Valid;
    assert e.member in multiset(Z.Members(s.q.reserved)) && job in multiset(s.q.ready);
    assert Contents(s.q)[e.member] == Expected(s.pops, e.member) && Contents(s.q)[job] == Expected(s.pops, job);
  }

  /** Jobs with the same time are kept, and migrate, in the order of the members, after every run. */
  lemma {:induction false} EqualTimesInOrder(s: State, run: seq<Action>, before: (Job, Job) -> bool)
    requires Z.TotalOrder(before) && Inv(s) && Possible(s, run, before)
    requires Z.InOrder(s.q.delayed, before) && Z.InOrder(s.q.reserved, before)
    ensures var q := After(s, run, before).q; Z.InOrder(q.delayed, before) && Z.InOrder(q.reserved, before)
    decreases |run|
  {
    if run != [] {
      StepInv(s, run[0], before);
      StepKeepsOrder(s, run[0], before);
      hide Step, Inv, Enabled, Z.InOrder, Z.TotalOrder;
      EqualTimesInOrder(Step(s, run[0], before), run[1..], before);
    }
  }

  lemma StepKeepsOrder(s: State, a: Action, before: (Job, Job) -> bool)
    requires Z.TotalOrder(before) && Inv(s) && Enabled(s, a)
    requires Z.InOrder(s.q.delayed, before) && Z.InOrder(s.q.reserved, before)
    ensures var q := Step(s, a, before).q; Z.InOrder(q.delayed, before) && Z.InOrder(q.reserved, before)
  {
    hide Z.Valid, Z.Members, Z.Add, Z.Remove, Z.RangeByScore, Contents, Z.TotalOrder;
    match a
    case PopNext(expires) =>
      if s.q.ready != [] {
        Z.AddInOrder(s.q.reserved, Z.Entry(expires, Reserve(s.q.ready[0])), before);
      }
    case ReleaseReserved(job, at) =>
      Z.RemoveInOrder(s.q.reserved, job, before);
      Z.AddInOrder(s.q.delayed, Z.Entry(at, job), before);
    case _ =>
  }

  // ---- Notifications ----

  predicate AllOnes(notify: seq<int>) {
    forall i :: 0 <= i < |notify| ==> notify[i] == 1
  }

  /** Every notification is a 1, whatever happens to the jobs. */
  lemma {:induction false} NotificationsAreOnes(s: State, run: seq<Action>, before: (Job, Job) -> bool)
    requires AllOnes(s.q.notify)
    ensures AllOnes(After(s, run, before).q.notify)
    decreases |run|
  {
    if run != [] {
      StepKeepsOnes(s, run[0], before);
      NotificationsAreOnes(Step(s, run[0], before), run[1..], before);
    }
  }

  lemma StepKeepsOnes(s: State, a: Action, before: (Job, Job) -> bool)
    requires AllOnes(s.q.notify)
    ensures AllOnes(Step(s, a, before).q.notify)
  {
    hide Z.Add, Z.Remove, Z.RangeByScore, Z.RemoveRanks;
    var old0, new0 := s.q.notify, Step(s, a, before).q.notify;
    match a
    case PushNew(_) => assert new0 == old0 + [1];
    case PopNext(_) => assert new0 == old0 || (old0 != [] && new0 == old0[1..]);
    case ReleaseReserved(_, _) => assert new0 == old0;
    case MigrateFrom(o, now) => assert new0 == old0 + Ones(|Expired(s.q, o, now)|);
    case ClearAll => assert new0 == [];
  }
}
