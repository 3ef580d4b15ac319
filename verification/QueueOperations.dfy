/**
  Whole programs of one thread: any sequence of pushes and calls of do_one on a queue in memory,
  from an empty service, is a run of the protocol, so what holds of runs holds of it.
 */
module QueueOperations {
  import opened Prelude
  import opened JobWork
  import opened StdQueue
  import opened QueueWorker
  import J = JobQueue
  import R = JobQueueRuns
  import F = QueueRefinement
  import Z = SortedSet

  datatype Op =
    | Push(uuid: string, max: nat, name: string, payload: JobPayload, scheduledAt: int, now: int)
    | DoOne(o: Outcome, now: int)

  const NOTHING := Memory(Service([], multiset{}, map[]), [])

  function Apply(m: Memory, op: Op, registered: set<string>, clean: bool): Memory {
    match op
    case Push(uuid, max, name, p, at, now) => Pushed(m, uuid, max, name, p, at, now)
    case DoOne(o, now) => Called(m, registered, clean, o, now)
  }

  /** The memory after a sequence of operations. */
  function All(ops: seq<Op>, registered: set<string>, clean: bool): Memory {
    if ops == [] then NOTHING
    else Apply(All(ops[..|ops| - 1], registered, clean), ops[|ops| - 1], registered, clean)
  }

  /** The UUIDs are unique, and the limits are size_t. */
  ghost predicate Fresh(ops: seq<Op>) {
    && (forall i, j :: 0 <= i < j < |ops| && ops[i].Push? && ops[j].Push? ==> ops[i].uuid != ops[j].uuid)
    && (forall op :: op in ops && op.Push? ==> op.max < TWO64)
  }

  ghost predicate ClassesKnown(ops: seq<Op>, registered: set<string>) {
    forall op :: op in ops && op.Push? ==> op.payload.className in registered
  }

  ghost predicate Names(ops: seq<Op>, id: string) {
    exists op :: op in ops && op.Push? && JobName(op.uuid) == id
  }

  lemma JobNamesDiffer(a: string, b: string)
    ensures JobName(a) != "" && (JobName(a) == JobName(b) ==> a == b)
  {
    assert JobName(a)[|"job_instance:"|..] == a && JobName(b)[|"job_instance:"|..] == b;
  }

  /** The callbacks for one job. */
  function Log(told: seq<Callback>, id: string): seq<Callback> {
    if told == [] then []
    else
      var last := told[|told| - 1];
      Log(told[..|told| - 1], id) + if last.id == id then [last] else []
  }

  lemma LogAppendsOne(told: seq<Callback>, c: Callback, id: string)
    ensures Log(told + [c], id) == Log(told, id) + if c.id == id then [c] else []
  {
    assert (told + [c])[..|told|] == told;
  }

  lemma {:induction false} LogAppends(a: seq<Callback>, b: seq<Callback>, id: string)
    ensures Log(a + b, id) == Log(a, id) + Log(b, id)
    decreases |b|
  {
    if b == [] {
      assert a + b == a;
    } else {
      var n := |b| - 1;
      LogAppends(a, b[..n], id);
      assert a + b == (a + b[..n]) + [b[n]] && b == b[..n] + [b[n]];
      LogAppendsOne(a + b[..n], b[n], id);
      LogAppendsOne(b[..n], b[n], id);
      hide Log;
    }
  }

  lemma {:induction false} LogOfTold(events: seq<Event>, whose: string, id: string)
    ensures Log(Tell(whose, events), id) == if whose == id then Tell(whose, events) else []
    decreases |events|
  {
    if events != [] {
      var n := |events| - 1;
      LogOfTold(events[..n], whose, id);
      assert Tell(whose, events) == Tell(whose, events[..n]) + [Told(whose, events[n])];
      LogAppendsOne(Tell(whose, events[..n]), Told(whose, events[n]), id);
      hide Log, Tell;
    }
  }

  lemma TellAppends(id: string, a: seq<Event>, b: seq<Event>)
    ensures Tell(id, a) + Tell(id, b) == Tell(id, a + b)
  {
  }

  // ---- The protocol state that looks like the memory ----

  ghost predicate SameLog(told: seq<Callback>, id: string, h: J.Job) {
    Log(told, id) == [Queued(id)] + Tell(id, h.events) && h.queued == Some(0)
  }

  ghost predicate SameLater(a: multiset<Scheduled>, b: F.Later) {
    forall id: string, t: int :: a[Scheduled(id, t)] == Count(Z.Entry(t, id) in b)
  }

  /** What a push says of a job is what the run says of it. */
  ghost predicate SameTerms(s: J.State, op: Op)
    requires op.Push?
  {
    JobName(op.uuid) in s.jobs && F.CardOf(s.jobs[JobName(op.uuid)]) == F.Card(op.max, op.name, op.payload, Some(0))
  }

  ghost predicate SameService(sv: Service, s: J.State) {
    && s.workers == [J.Idle] && s.ready == sv.ready && s.store == sv.store && SameLater(sv.later, s.later)
  }

  ghost predicate SameNames(s: J.State, ops: seq<Op>) {
    && (forall id :: id in s.jobs <==> Names(ops, id))
    && (forall op :: op in ops && op.Push? ==> SameTerms(s, op))
  }

  ghost predicate SameLogs(told: seq<Callback>, s: J.State) {
    && (forall id :: id in s.jobs ==> SameLog(told, id, s.jobs[id]))
    && (forall id :: id !in s.jobs ==> Log(told, id) == [])
  }

  ghost predicate Mirrors(m: Memory, s: J.State, ops: seq<Op>) {
    SameService(m.service, s) && SameNames(s, ops) && SameLogs(m.told, s)
  }

  /** The run announces at once, and its classes are known if those of the operations are. */
  ghost predicate Tame(run: seq<J.Action>, ops: seq<Op>, registered: set<string>) {
    && R.Prompt(run) && (run != [] ==> !run[|run| - 1].Enqueue?)
    && (ClassesKnown(ops, registered) ==> R.AllRegistered(run, registered))
  }

  lemma TameAppends(a: seq<J.Action>, b: seq<J.Action>, ops: seq<Op>, op: Op, registered: set<string>)
    requires Tame(a, ops, registered) && R.Prompt(b) && (b != [] ==> !b[|b| - 1].Enqueue?)
    requires ClassesKnown([op], registered) ==> R.AllRegistered(b, registered)
    ensures Tame(a + b, ops + [op], registered)
  {
    assert op in [op];
    if ClassesKnown(ops + [op], registered) {
      assert forall x :: x in ops ==> x in ops + [op];
      assert op in ops + [op];
      assert ClassesKnown(ops, registered) && ClassesKnown([op], registered);
    }
    forall i | 0 <= i < |a + b| - 1 && (a + b)[i].Enqueue? ensures (a + b)[i + 1] == J.Announce((a + b)[i].id) {
      if i >= |a| {
        assert b[i - |a|].Enqueue?;
      }
    }
  }

  lemma LaterGrows(a: multiset<Scheduled>, b: F.Later, id: string, t: int)
    requires SameLater(a, b) && Z.Valid(b) && id !in Z.Members(b)
    ensures SameLater(a + multiset{Scheduled(id, t)}, Z.Add(b, Z.Entry(t, id), J.Before))
  {
    Z.AddValid(b, Z.Entry(t, id), J.Before);
    Z.MembersOf(b);
    hide Z.Valid, Z.Members, Z.Add;
  }

  // ---- A push ----

  /** The state after the three steps of a push. */
  function AfterPush(s: J.State, id: string, op: Op): J.State
    requires op.Push?
  {
    var h := J.Job(op.max, op.name, op.payload, if op.scheduledAt == 0 then J.Ready else J.Later,
        0, 0, [], [], Some(0), None);
    s.(ready := if op.scheduledAt == 0 then s.ready + [id] else s.ready,
       later := if op.scheduledAt == 0 then s.later else Z.Add(s.later, Z.Entry(op.scheduledAt, id), J.Before),
       store := s.store[id := Merge(DataOf(s.store, id), NewData(op.max, op.name, op.payload, op.now))],
       jobs := s.jobs[id := h])
  }

  function PushRun(id: string, op: Op): seq<J.Action>
    requires op.Push?
  {
    [J.Create(id, op.max, op.name, op.payload, op.now),
     J.Enqueue(id, if op.scheduledAt == 0 then None else Some(op.scheduledAt)),
     J.Announce(id)]
  }

  lemma PushIsARun(s: J.State, id: string, op: Op)
    requires op.Push? && id !in s.jobs && op.max < TWO64
    ensures J.Possible(s, PushRun(id, op)) && J.After(s, PushRun(id, op)) == AfterPush(s, id, op)
  {
    hide Merge, NewData, Z.Add, J.Before, J.Possible, J.After;
    var run := PushRun(id, op);
    var s1 := J.Step(s, run[0]);
    var s2 := J.Step(s1, run[1]);
    var s3 := J.Step(s2, run[2]);
    assert s3 == AfterPush(s, id, op);
    assert J.Enabled(s, run[0]) && J.Enabled(s1, run[1]) && J.Enabled(s2, run[2]);
    hide J.Step, J.Enabled;
    ThreeSteps(s, run);
  }

  lemma ThreeSteps(s: J.State, run: seq<J.Action>)
    requires |run| == 3 && J.Enabled(s, run[0]) && J.Enabled(J.Step(s, run[0]), run[1])
    requires J.Enabled(J.Step(J.Step(s, run[0]), run[1]), run[2])
    ensures J.Possible(s, run) && J.After(s, run) == J.Step(J.Step(J.Step(s, run[0]), run[1]), run[2])
  {
    hide J.Step, J.Enabled;
    assert run[1..][0] == run[1] && run[1..][1..] == run[2..] && run[2..][0] == run[2] && run[2..][1..] == [];
    var s1 := J.Step(s, run[0]);
    var s2 := J.Step(s1, run[1]);
    assert J.Possible(s2, run[2..]) && J.After(s2, run[2..]) == J.Step(s2, run[2]);
    assert J.Possible(s1, run[1..]) && J.After(s1, run[1..]) == J.After(s2, run[2..]);
  }

  lemma PushMirrors(m: Memory, s: J.State, ops: seq<Op>, op: Op)
    requires op.Push? && Mirrors(m, s, ops) && J.Inv(s) && JobName(op.uuid) !in s.jobs
    ensures Mirrors(Pushed(m, op.uuid, op.max, op.name, op.payload, op.scheduledAt, op.now),
                    AfterPush(s, JobName(op.uuid), op), ops + [op])
  {
    var id := JobName(op.uuid);
    var t := AfterPush(s, id, op);
    if op.scheduledAt != 0 {
      assert id in Z.Members(s.later) <==> J.Sits(s, id, J.Later);
      LaterGrows(m.service.later, s.later, id, op.scheduledAt);
    }
    hide J.Inv, Z.Add, SameLater, Merge, NewData, JobName, SameNames, SameLogs;
    PushNames(s, t, ops, op);
    PushLogs(m.told, s, t, id);
  }

  lemma PushNames(s: J.State, t: J.State, ops: seq<Op>, op: Op)
    requires SameNames(s, ops) && op.Push? && JobName(op.uuid) !in s.jobs
    requires SameTerms(t, op) && t.jobs == s.jobs[JobName(op.uuid) := t.jobs[JobName(op.uuid)]]
    ensures SameNames(t, ops + [op])
  {
    hide JobName;
    forall x ensures x in t.jobs <==> Names(ops + [op], x) {
      NamesGrow(ops, op, x);
    }
    hide Names;
    forall x | x in ops + [op] && x.Push? ensures SameTerms(t, x) {
      if x in ops {
        assert SameTerms(s, x);
      }
    }
  }

  lemma PushLogs(told: seq<Callback>, s: J.State, t: J.State, id: string)
    requires SameLogs(told, s) && id !in s.jobs && id in t.jobs && t.jobs == s.jobs[id := t.jobs[id]]
    requires t.jobs[id].events == [] && t.jobs[id].queued == Some(0)
    ensures SameLogs(told + [Queued(id)], t)
  {
    assert Tell(id, []) == [];
    hide Log, Tell;
    forall x | x in t.jobs ensures SameLog(told + [Queued(id)], x, t.jobs[x]) {
      LogAppendsOne(told, Queued(id), x);
      if x == id {
        assert Log(told, id) == [];
      } else {
        assert SameLog(told, x, s.jobs[x]);
      }
    }
    forall x | x !in t.jobs ensures Log(told + [Queued(id)], x) == [] {
      LogAppendsOne(told, Queued(id), x);
      assert Log(told, x) == [];
    }
  }

  lemma NamesGrow(ops: seq<Op>, op: Op, id: string)
    ensures Names(ops + [op], id) <==> Names(ops, id) || (op.Push? && JobName(op.uuid) == id)
  {
    if Names(ops, id) {
      var x :| x in ops && x.Push? && JobName(x.uuid) == id;
      assert x in ops + [op];
    }
    if op.Push? && JobName(op.uuid) == id {
      assert op in ops + [op];
    }
  }

  // ---- A call ----

  /** The view of the job a call takes. */
  function ViewOf(s: J.State, id: string): F.View
    requires id in s.jobs
  {
    F.View(s.ready, s.later, s.store, s.jobs[id].events, F.CardOf(s.jobs[id]), s.jobs - {id})
  }

  lemma ReadyIsKnown(s: J.State)
    requires J.Inv(s) && s.ready != []
    ensures var id := s.ready[0]; id in s.jobs && id in s.store && id !in Z.Members(s.later)
  {
    var id := s.ready[0];
    assert id in s.ready;
    assert J.Sits(s, id, J.Ready) && !J.Sits(s, id, J.Later);
    assert J.RecordOk(s, id);
    hide J.Waiting, J.PhaseOk, J.Ended;
  }

  /** A state that differs in one job, about which something was told. */
  ghost predicate Continues(s: J.State, t: J.State, id: string, told: seq<Event>) {
    && id in s.jobs && id in t.jobs && t.jobs - {id} == s.jobs - {id}
    && t.jobs[id].events == s.jobs[id].events + told && F.CardOf(t.jobs[id]) == F.CardOf(s.jobs[id])
  }

  lemma CallNames(s: J.State, t: J.State, ops: seq<Op>, op: Op, id: string, told: seq<Event>)
    requires SameNames(s, ops) && op.DoOne? && Continues(s, t, id, told)
    ensures SameNames(t, ops + [op])
  {
    forall x ensures x in t.jobs <==> Names(ops + [op], x) {
      NamesGrow(ops, op, x);
      SameKey(s.jobs, t.jobs, id, x);
    }
    hide Names;
    forall x | x in ops + [op] && x.Push? ensures SameTerms(t, x) {
      assert SameTerms(s, x);
      SameKey(s.jobs, t.jobs, id, JobName(x.uuid));
    }
  }

  lemma CallLogs(log: seq<Callback>, s: J.State, t: J.State, id: string, told: seq<Event>)
    requires SameLogs(log, s) && Continues(s, t, id, told)
    ensures SameLogs(log + Tell(id, told), t)
  {
    forall x ensures Log(log + Tell(id, told), x) == Log(log, x) + if x == id then Tell(id, told) else [] {
      LogAppends(log, Tell(id, told), x);
      LogOfTold(told, id, x);
    }
    hide Log;
    TellAppends(id, s.jobs[id].events, told);
    forall x | x in t.jobs ensures SameLog(log + Tell(id, told), x, t.jobs[x]) {
      SameKey(s.jobs, t.jobs, id, x);
      assert SameLog(log, x, s.jobs[x]);
    }
    forall x | x !in t.jobs ensures Log(log + Tell(id, told), x) == [] {
      SameKey(s.jobs, t.jobs, id, x);
    }
  }

  lemma SameKey(a: map<string, J.Job>, b: map<string, J.Job>, id: string, x: string)
    requires id in a && id in b && a - {id} == b - {id}
    ensures x in a <==> x in b
    ensures x != id && x in a ==> a[x] == b[x]
  {
    if x != id {
      assert x in a <==> x in a - {id};
      assert x in b <==> x in b - {id};
      if x in a {
        assert (a - {id})[x] == (b - {id})[x];
      }
    }
  }

  /** A run that ends a turn of the worker on one job: the same lists, and that job went on. */
  ghost predicate TurnRuns(s: J.State, t: Turned, id: string, run: seq<J.Action>, told: seq<Event>) {
    && J.Possible(s, run) && t.told == Tell(id, told)
    && Continues(s, J.After(s, run), id, told) && SameService(t.service, J.After(s, run))
  }

  /** A run without pushes, by a worker that knows these classes. */
  ghost predicate Calls(run: seq<J.Action>, registered: set<string>) {
    R.Prompt(run) && R.AllRegistered(run, registered) && run != [] && !run[|run| - 1].Enqueue?
  }

  lemma CallIsTame(status: Status, registered: set<string>, clean: bool, o: Outcome, now: int)
    ensures Calls(F.Call(status, registered, clean, o, now), registered)
  {
  }

  /** A call on the memory and on the state. */
  lemma CallContinues(s: J.State, sv: Service, id: string, registered: set<string>, clean: bool, o: Outcome, now: int)
      returns (run: seq<J.Action>, told: seq<Event>)
    requires J.Inv(s) && SameService(sv, s) && sv.ready != [] && sv.ready[0] == id != ""
    ensures Calls(run, registered) && TurnRuns(s, Turn(sv, registered, clean, o, now), id, run, told)
  {
    hide J.Inv, J.Possible, J.After, Work, Turn, F.SettledAfter, F.DelayOf, F.Call, F.LaterWith, F.Seen, SameLater,
         SameService, Continues, Calls, ViewOf;
    ReadyIsSeen(sv, s);
    var v := ViewOf(s, id);
    var w, settled := Work(sv.store[id], registered, o), F.SettledAfter(sv, registered, clean, o);
    var delay := F.DelayOf(settled);
    run, told := F.Call(w.status, registered, clean, o, now), w.events + settled.events;
    CallIsTame(w.status, registered, clean, o, now);
    F.TurnIsARun(s, sv, v, registered, clean, o, now);
    LaterAfter(s, sv, id, delay, now);
    SeenContinues(s, J.After(s, run), id, told, Turn(sv, registered, clean, o, now).service,
                  F.LaterWith(s.later, id, delay, now));
  }

  lemma ReadyIsSeen(sv: Service, s: J.State)
    requires J.Inv(s) && SameService(sv, s) && sv.ready != []
    ensures var id := sv.ready[0];
      && id in s.jobs && id in sv.store && id !in Z.Members(s.later)
      && F.Seen(s, id, J.Idle, ViewOf(s, id)) && SameLater(sv.later, s.later)
      && ViewOf(s, id).ready == sv.ready && ViewOf(s, id).store == sv.store && ViewOf(s, id).later == s.later
  {
    hide J.Inv, SameLater;
    ReadyIsKnown(s);
  }

  lemma LaterAfter(s: J.State, sv: Service, id: string, delay: int, now: int)
    requires J.Inv(s) && SameLater(sv.later, s.later) && id !in Z.Members(s.later)
    ensures SameLater(sv.later + (if delay != 0 then multiset{Scheduled(id, now + delay)} else multiset{}),
                      F.LaterWith(s.later, id, delay, now))
  {
    assert Z.Valid(s.later);
    hide J.Inv, Z.Valid, Z.Members, Z.Add, SameLater;
    if delay != 0 {
      LaterGrows(sv.later, s.later, id, now + delay);
    } else {
      assert sv.later + multiset{} == sv.later;
    }
  }

  lemma SeenContinues(s: J.State, t: J.State, id: string, told: seq<Event>, sv: Service, later: F.Later)
    requires id in s.jobs && SameLater(sv.later, later)
    requires var v := ViewOf(s, id);
      F.Seen(t, id, J.Idle, F.View(sv.ready, later, sv.store, v.events + told, v.card, v.others))
    ensures Continues(s, t, id, told) && SameService(sv, t)
  {
    hide SameLater;
  }

  lemma CallIsARun(m: Memory, s: J.State, ops: seq<Op>, op: Op, registered: set<string>, clean: bool)
      returns (run: seq<J.Action>)
    requires op.DoOne? && Mirrors(m, s, ops) && J.Inv(s) && m.service.ready != [] && m.service.ready[0] != ""
    ensures J.Possible(s, run)
    ensures Mirrors(Called(m, registered, clean, op.o, op.now), J.After(s, run), ops + [op])
    ensures Calls(run, registered)
  {
    hide J.Inv, J.Possible, J.After, Turn, SameService, SameNames, SameLogs, Continues, Calls;
    var id, told := m.service.ready[0], [];
    run, told := CallContinues(s, m.service, id, registered, clean, op.o, op.now);
    CallNames(s, J.After(s, run), ops, op, id, told);
    CallLogs(m.told, s, J.After(s, run), id, told);
  }

  // ---- Sequences ----

  lemma NoCallMirrors(m: Memory, s: J.State, ops: seq<Op>, op: Op, registered: set<string>, clean: bool)
    requires op.DoOne? && Mirrors(m, s, ops) && m.service.ready == []
    ensures Called(m, registered, clean, op.o, op.now) == m && Mirrors(m, s, ops + [op])
  {
    hide SameService, SameLogs;
    forall x ensures Names(ops + [op], x) <==> Names(ops, x) {
      NamesGrow(ops, op, x);
    }
    hide Names;
  }

  lemma PushIsTame(id: string, op: Op, registered: set<string>)
    requires op.Push?
    ensures var run := PushRun(id, op);
      && R.Prompt(run) && run != [] && !run[|run| - 1].Enqueue?
      && (op.payload.className in registered ==> R.AllRegistered(run, registered))
  {
  }

  lemma OneMorePush(m: Memory, s: J.State, ops: seq<Op>, op: Op, registered: set<string>, clean: bool)
    requires op.Push? && Fresh(ops + [op]) && Mirrors(m, s, ops) && J.Inv(s)
    ensures var more := PushRun(JobName(op.uuid), op);
      && J.Possible(s, more) && Mirrors(Apply(m, op, registered, clean), J.After(s, more), ops + [op])
      && R.Prompt(more) && more != [] && !more[|more| - 1].Enqueue?
      && (ClassesKnown([op], registered) ==> R.AllRegistered(more, registered))
  {
    PushIsFresh(m, s, ops, op);
    PushIsTame(JobName(op.uuid), op, registered);
    assert op in [op];
    hide J.Inv, Mirrors, AfterPush, Pushed, Fresh, J.Possible, J.After, JobName, PushRun, R.Prompt, R.AllRegistered;
    PushIsARun(s, JobName(op.uuid), op);
    PushMirrors(m, s, ops, op);
  }

  /** One more operation. */
  lemma OneMore(m: Memory, s: J.State, ops: seq<Op>, op: Op, registered: set<string>, clean: bool)
      returns (more: seq<J.Action>)
    requires Fresh(ops + [op]) && Mirrors(m, s, ops) && J.Inv(s)
    ensures J.Possible(s, more) && Mirrors(Apply(m, op, registered, clean), J.After(s, more), ops + [op])
    ensures R.Prompt(more) && (more != [] ==> !more[|more| - 1].Enqueue?)
    ensures ClassesKnown([op], registered) ==> R.AllRegistered(more, registered)
  {
    hide J.Inv, Mirrors, AfterPush, Pushed, Called, Names, Fresh, J.Possible, J.After, JobName, PushRun, ClassesKnown;
    more := [];
    if op.Push? {
      hide R.Prompt, R.AllRegistered;
      OneMorePush(m, s, ops, op, registered, clean);
      more := PushRun(JobName(op.uuid), op);
    } else if m.service.ready == [] {
      F.NoRun(s);
      NoCallMirrors(m, s, ops, op, registered, clean);
    } else {
      hide R.Prompt, R.AllRegistered;
      NamesAreNotEmpty(m, s, ops);
      more := CallIsARun(m, s, ops, op, registered, clean);
    }
  }

  /**
    Any sequence of pushes and calls, from an empty service, is a run of the protocol with one
    worker: the lists, the data and the delayed jobs are those of the run, and what was told of
    each job is QUEUED and then the callbacks it has in the run.
   */
  lemma {:induction false} OperationsAreARun(ops: seq<Op>, registered: set<string>, clean: bool)
      returns (run: seq<J.Action>, s: J.State)
    requires Fresh(ops)
    ensures R.Reached(1, run, s) && Mirrors(All(ops, registered, clean), s, ops) && Tame(run, ops, registered)
    decreases |ops|
  {
    if ops == [] {
      run, s := [], J.Init(1);
      assert s.workers == [J.Idle];
    } else {
      var n := |ops| - 1;
      var op, m := ops[n], All(ops[..n], registered, clean);
      assert ops == ops[..n] + [op];
      hide J.Inv, Mirrors, Apply, Tame;
      run, s := OperationsAreARun(ops[..n], registered, clean);
      R.ReachedInv(1, run, s);
      var more := OneMore(m, s, ops[..n], op, registered, clean);
      R.RunSplits(J.Init(1), run, more);
      TameAppends(run, more, ops[..n], op, registered);
      run, s := run + more, J.After(s, more);
    }
  }

  lemma PushIsFresh(m: Memory, s: J.State, ops: seq<Op>, op: Op)
    requires Fresh(ops + [op]) && op.Push? && Mirrors(m, s, ops)
    ensures JobName(op.uuid) !in s.jobs && op.max < TWO64
  {
    assert op in ops + [op] && (ops + [op])[|ops|] == op;
    assert forall i :: 0 <= i < |ops| ==> (ops + [op])[i] == ops[i];
    if Names(ops, JobName(op.uuid)) {
      var x :| x in ops && x.Push? && JobName(x.uuid) == JobName(op.uuid);
      var i :| 0 <= i < |ops| && ops[i] == x;
      JobNamesDiffer(x.uuid, op.uuid);
    }
  }

  lemma NamesAreNotEmpty(m: Memory, s: J.State, ops: seq<Op>)
    requires J.Inv(s) && Mirrors(m, s, ops) && m.service.ready != []
    ensures m.service.ready[0] != ""
  {
    ReadyIsKnown(s);
    hide J.Inv, SameTerms;
    var x :| x in ops && x.Push? && JobName(x.uuid) == s.ready[0];
    JobNamesDiffer(x.uuid, x.uuid);
  }

  /**
    What a program of one thread tells of a job with a name and a registered class: QUEUED, then
    STARTED COMPLETED RETRY for each failed attempt, the i-th with i - 1, i and i tries, and then
    nothing, or STARTED COMPLETED of a success, or STARTED COMPLETED REMOVED of the last failure.
   */
  lemma CallbacksOfAProgram(ops: seq<Op>, registered: set<string>, clean: bool, op: Op)
      returns (events: seq<Event>, delays: seq<int>)
    requires Fresh(ops) && ClassesKnown(ops, registered) && op in ops && op.Push? && op.name != ""
    ensures var id := JobName(op.uuid);
      Log(All(ops, registered, clean).told, id) == [Queued(id)] + Tell(id, events)
    ensures var n := |delays|;
      && |events| >= 3 * n
      && (forall i :: 0 <= i < n ==> R.TellsAttempt(events, 3 * i, i, delays[i]))
      && LastAttempt(events[3 * n..], n)
  {
    var run, s := OperationsAreARun(ops, registered, clean);
    var id := JobName(op.uuid);
    assert s.workers == [J.Idle] && R.AllRegistered(run, registered);
    assert SameTerms(s, op) && SameLog(All(ops, registered, clean).told, id, s.jobs[id]);
    hide R.Reached, R.TellsAttempt, R.AllRegistered, Log, All, Mirrors, Fresh, ClassesKnown, LastAttempt, Tame;
    events, delays := CallbacksOfAState(run, registered, s, id);
  }

  lemma CallbacksOfAState(run: seq<J.Action>, registered: set<string>, s: J.State, id: string)
      returns (events: seq<Event>, delays: seq<int>)
    requires R.Reached(1, run, s) && R.AllRegistered(run, registered) && s.workers == [J.Idle]
    requires id in s.jobs && s.jobs[id].name != ""
    ensures events == s.jobs[id].events && |events| >= 3 * |delays|
    ensures forall i :: 0 <= i < |delays| ==> R.TellsAttempt(events, 3 * i, i, delays[i])
    ensures LastAttempt(events[3 * |delays|..], |delays|)
  {
    R.ReachedInv(1, run, s);
    NotHeld(s, id);
    hide J.Inv, R.Reached, R.TellsAttempt, R.AllRegistered, LastAttempt, R.Tail;
    R.EveryRoundIsAnAttempt(1, run, registered, s, id);
    var h := s.jobs[id];
    events, delays := h.events, seq(|h.rounds|, i requires 0 <= i < |h.rounds| => h.rounds[i].delay);
    TailOfIdle(h.place, |h.rounds|, events[3 * |h.rounds|..]);
  }

  lemma TailOfIdle(p: J.Place, n: nat, tail: seq<Event>)
    requires R.Tail(p, n, tail) && !p.Held?
    ensures LastAttempt(tail, n)
  {
    hide J.Word;
  }

  /** How the callbacks of a job may end. */
  ghost predicate LastAttempt(tail: seq<Event>, n: nat) {
    || tail == []
    || tail == [Started(J.Word(n)), Completed(NoError, J.Word(n + 1))]
    || tail == [Started(J.Word(n)), Completed(ErrorRemove, J.Word(n + 1)), Removed(J.Word(n))]
  }

  lemma NotHeld(s: J.State, id: string)
    requires J.Inv(s) && s.workers == [J.Idle] && id in s.jobs
    ensures !s.jobs[id].place.Held?
  {
    forall w: nat ensures !J.Sits(s, id, J.Held(w)) {
      assert w < |s.workers| && J.Holds(s.workers[w], id) <==> J.Sits(s, id, J.Held(w));
    }
  }

  // ---- A delay that is not overridden ----

  function Failing(retryAfter: int): Outcome {
    Outcome(false, Some(retryAfter), "", "")
  }

  /** A failing run of a job with tries left. */
  lemma Fails(d: Data, registered: set<string>, name: string, p: JobPayload, t: nat, retryAfter: int)
    requires Full(d, 3, name, p, t) && t + 1 < 3 && p.className in registered
    ensures var w := Work(d, registered, Failing(retryAfter));
      && w.ran && w.status == ErrorRetry && w.persisted == (if retryAfter > 0 then Some(retryAfter) else None)
      && Core(w.data, 3, name, t + 1) && Payload !in w.data
  {
    var o := Failing(retryAfter);
    WorkOnFull(d, registered, o, 3, name, p, t);
    J.WorkPersists(d, registered, o, p);
    hide Work, Core, Full;
    assert Next(t) == t + 1;
  }

  lemma FailsOnce(d: Data, registered: set<string>, name: string, p: JobPayload, t: nat, retryAfter: int)
    requires Full(d, 3, name, p, t) && t + 1 < 3 && p.className in registered
    ensures var w := Work(d, registered, Failing(retryAfter));
      && w.status == ErrorRetry && w.persisted == (if retryAfter > 0 then Some(retryAfter) else None)
      && PersistedDelay(Persisted(d, w)) == (if retryAfter > 0 then retryAfter else PersistedDelay(d))
      && Full(Merge(Persisted(d, w), w.data), 3, name, p, t + 1)
      && PersistedDelay(Merge(Persisted(d, w), w.data)) == PersistedDelay(Persisted(d, w))
  {
    hide Work, Persisted, PersistedDelay, Next, Full, Core, Merge;
    var w := Work(d, registered, Failing(retryAfter));
    Fails(d, registered, name, p, t, retryAfter);
    DelayOfRun(d, d, registered, Failing(retryAfter));
    PersistedFull(d, w, 3, name, p, t);
    MergeKeepsFull(Persisted(d, w), w.data, 3, name, p, t, t + 1);
  }

  function PushedView(id: string, name: string, p: JobPayload): F.View {
    F.View([id], [], map[id := NewData(3, name, p, 0)], [], F.Card(3, name, p, Some(0)), map[])
  }

  lemma FirstPush(id: string, op: Op)
    requires op.Push? && op == Push(op.uuid, 3, op.name, op.payload, 0, 0) && JobName(op.uuid) == id
    ensures F.Leads(J.Init(1), PushRun(id, op), id, J.Idle, PushedView(id, op.name, op.payload))
  {
    var s0, d := J.Init(1), NewData(3, op.name, op.payload, 0);
    assert Merge(map[], d) == d && id !in s0.jobs && s0.workers == [J.Idle];
    hide J.Init, NewData, Merge, PushRun, J.Possible, J.After, JobName;
    PushIsARun(s0, id, op);
    var s := AfterPush(s0, id, op);
    assert s0.ready + [id] == [id] && s.jobs - {id} == map[];
  }

  /** The view after a first run that fails and asks for a delay of 5. */
  lemma FiveLater(id: string, name: string, p: JobPayload)
    ensures var v := PushedView(id, name, p); var sv := Service(v.ready, multiset{}, v.store);
      var u := F.ViewAfter(v, sv, {p.className}, true, Failing(5), 0);
      && u.later == [Z.Entry(5, id)] && id in u.store
      && Full(u.store[id], 3, name, p, 1) && PersistedDelay(u.store[id]) == 5
  {
    var d, registered := NewData(3, name, p, 0), {p.className};
    var v := PushedView(id, name, p);
    var sv := Service(v.ready, multiset{}, v.store);
    assert Full(d, 3, name, p, 0);
    FailsOnce(d, registered, name, p, 0, 5);
    var w := Work(d, registered, Failing(5));
    hide NewData, Full, Merge, PersistedDelay, Work, Persisted;
    assert F.SettledAfter(sv, registered, true, Failing(5)).again == Some(5);
    assert Z.Add([], Z.Entry(5, id), J.Before) == [Z.Entry(5, id)];
  }

  /** The first run: pushed, run, and delayed by 5. */
  lemma DelayedByFive(uuid: string, name: string, p: JobPayload) returns (run: seq<J.Action>, v: F.View)
    ensures var id := JobName(uuid);
      && F.Leads(J.Init(1), run, id, J.Idle, v)
      && v.later == [Z.Entry(5, id)] && id in v.store
          && Full(v.store[id], 3, name, p, 1) && PersistedDelay(v.store[id]) == 5
  {
    var id, registered := JobName(uuid), {p.className};
    var op := Push(uuid, 3, name, p, 0, 0);
    var v0 := PushedView(id, name, p);
    var sv := Service(v0.ready, multiset{}, v0.store);
    hide J.Init, PushRun, J.Possible, J.After, F.Seen, F.Call, F.ViewAfter,
        NewData, Full, PersistedDelay, Work, JobName;
    FirstPush(id, op);
    FiveLater(id, name, p);
    var s := J.After(J.Init(1), PushRun(id, op));
    var call := F.Call(Work(sv.store[id], registered, Failing(5)).status, registered, true, Failing(5), 0);
    F.CallLeads(s, sv, v0, registered, true, Failing(5), 0);
    v := F.ViewAfter(v0, sv, registered, true, Failing(5), 0);
    R.RunSplits(J.Init(1), PushRun(id, op), call);
    run := PushRun(id, op) + call;
  }

  /**
    A job whose last retry was delayed by 5, and whose failing run sets its retryAfter to 0, is
    delayed by 5 again.
   */
  lemma ZeroDoesNotOverride(uuid: string, name: string, p: JobPayload) returns (run: seq<J.Action>, s: J.State, d: Data)
    ensures R.Reached(1, run, s) && PersistedDelay(d) == 5
    ensures s.workers == [J.Delaying(JobName(uuid), Work(d, {p.className}, Failing(0)), 5)]
  {
    var id, registered := JobName(uuid), {p.className};
    var a := J.Advance(0, true, 5);
    var v: F.View;
    run, v := DelayedByFive(uuid, name, p);
    d := v.store[id];
    var w := Work(d, registered, Failing(0));
    var u := v.(later := []);
    FailsOnce(d, registered, name, p, 1, 0);
    assert StoreAfter(v.store, id, w) == v.store;
    hide J.Possible, J.After, F.Seen, Full, Merge, PersistedDelay, Work, Persisted,
        JobName, J.Enabled, J.Step, StoreAfter;
    var t := J.After(J.Init(1), run);
    F.PopLaterStep(t, id, v, 5);
    F.LeadsOn(J.Init(1), run, t, J.PopLater(0, 5), id, J.Popped(id), u);
    run := run + [J.PopLater(0, 5)];
    F.LoadAndBegin(J.Init(1), run, id, u, registered, Failing(0));
    run := run + [J.Load(0)] + [J.Begin(0, registered, Failing(0))];
    F.NextTwo(J.Init(1), run, id, w, u, true, 5);
    run := run + [a] + [a];
    s := J.After(J.Init(1), run);
    SeenWorker(s, id, J.Delaying(id, w, 5), u.(events := u.events + w.events));
  }

  lemma SeenWorker(s: J.State, id: string, pc: J.Pc, v: F.View)
    requires F.Seen(s, id, pc, v)
    ensures s.workers == [pc]
  {
  }
}
