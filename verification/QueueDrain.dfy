/**
  When repeated calls of do_one empty the list of a queue in memory, whatever the jobs do: exactly
  when each job in it is delayed, or is of a registered class and has a limit. After a program
  of one thread no job in the list is delayed.
 */
module QueueDrain {
  import opened Prelude
  import opened JobWork
  import opened StdQueue
  import opened QueueWorker
  import J = JobQueue
  import R = JobQueueRuns
  import O = QueueOperations
  import Z = SortedSet

  // ---- Draining ----

  /** The data of a pushed job that is allowed another try. */
  predicate Complete(d: Data) {
    && Tries in d && d[Tries].Num? && MaxTries in d && d[MaxTries].Num?
    && 0 <= d[Tries].n < TWO64 && 0 <= d[MaxTries].n < TWO64
    && (d[MaxTries].n > 0 ==> d[Tries].n < d[MaxTries].n)
    && ClassName in d && d[ClassName].Text?
    && Payload in d && d[Payload].Json?
  }

  /** A job that will not come back to the list for ever, because of its delay or of its limit. */
  predicate Leaves(d: Data, registered: set<string>)
    requires Complete(d)
  {
    PersistedDelay(d) != 0 || (d[Payload].p.className in registered && d[MaxTries].n > 0)
  }

  predicate Runnable(d: Data, registered: set<string>) {
    Complete(d) && Leaves(d, registered)
  }

  /** How often a job can still be taken from the list. */
  function Left(d: Data): (n: nat)
    requires Complete(d)
    ensures n > 0
  {
    if PersistedDelay(d) != 0 || d[MaxTries].n == 0 then 1 else d[MaxTries].n - d[Tries].n
  }

  predicate AllRunnable(ready: seq<string>, store: map<string, Data>, registered: set<string>) {
    forall i :: 0 <= i < |ready| ==> ready[i] != "" && ready[i] in store && Runnable(store[ready[i]], registered)
  }

  ghost predicate Drainable(sv: Service, registered: set<string>) {
    J.NoDup(sv.ready) && AllRunnable(sv.ready, sv.store, registered)
  }

  /** How often the jobs in the list can still be taken. */
  function Budget(ready: seq<string>, store: map<string, Data>, registered: set<string>): (n: nat)
    requires AllRunnable(ready, store, registered)
    ensures ready != [] ==> n > 0
  {
    if ready == [] then 0 else Left(store[ready[0]]) + Budget(ready[1..], store, registered)
  }

  lemma {:induction false} BudgetOfSame(ready: seq<string>, store: map<string, Data>, store': map<string, Data>,
      registered: set<string>)
    requires AllRunnable(ready, store, registered)
    requires forall i :: 0 <= i < |ready| ==> ready[i] in store' && store'[ready[i]] == store[ready[i]]
    ensures AllRunnable(ready, store', registered)
    ensures Budget(ready, store', registered) == Budget(ready, store, registered)
  {
    hide Runnable, Left;
    if ready != [] {
      BudgetOfSame(ready[1..], store, store', registered);
    }
  }

  lemma {:induction false} BudgetOfAppended(ready: seq<string>, id: string, store: map<string, Data>,
      registered: set<string>)
    requires AllRunnable(ready + [id], store, registered)
    ensures AllRunnable(ready, store, registered) && id in store && Runnable(store[id], registered)
    ensures Budget(ready + [id], store, registered) == Budget(ready, store, registered) + Left(store[id])
  {
    hide Complete, Leaves, Left;
    assert (ready + [id])[|ready|] == id;
    assert forall i :: 0 <= i < |ready| ==> (ready + [id])[i] == ready[i];
    if ready == [] {
      assert ready + [id] == [id];
    } else {
      assert (ready + [id])[1..] == ready[1..] + [id];
      BudgetOfAppended(ready[1..], id, store, registered);
    }
  }

  /** The data a retried job is left with. */
  function Retried(d: Data, w: Worked): Data {
    Merge(Persisted(d, w), w.data)
  }

  /** Whether a turn puts the job back into the list. */
  predicate Back(d: Data, w: Worked) {
    w.status == ErrorRetry && PersistedDelay(Persisted(d, w)) == 0
  }

  /** Complete data stay complete. */
  lemma RetryStaysComplete(d: Data, registered: set<string>, o: Outcome)
    requires Complete(d)
    ensures var w := Work(d, registered, o); var d' := Retried(d, w); var ran := d[Payload].p.className in registered;
      && w.ran == ran
      && (w.status == ErrorRetry ==>
            && Complete(d') && d'[MaxTries] == d[MaxTries] && d'[Payload] == d[Payload]
            && (ran && d[MaxTries].n > 0 ==> d'[Tries].n == d[Tries].n + 1))
      && (ran && !o.ok && d[MaxTries].n == 0 ==> w.status == ErrorRetry)
      && (!ran ==> w.status == ErrorRetry && d' == d)
  {
    var p, max, name, t := d[Payload].p, d[MaxTries].n, d[ClassName].s, d[Tries].n;
    var w := Work(d, registered, o);
    WorkOnFull(d, registered, o, max, name, p, t);
    PersistedFull(d, w, max, name, p, t);
    hide Work, Persisted;
    if w.ran {
      MergeKeepsFull(Persisted(d, w), w.data, max, name, p, t, if w.status == ErrorRetry then Next(t) else t);
    } else {
      assert Merge(d, d) == d == Persisted(d, w);
    }
    hide Merge;
  }

  /** The delay a retry has is the delay its data keeps; a job that has one already is never without. */
  lemma DelayStays(d: Data, registered: set<string>, o: Outcome)
    requires Complete(d)
    ensures var w := Work(d, registered, o);
      && PersistedDelay(Retried(d, w)) == PersistedDelay(Persisted(d, w))
      && (Back(d, w) ==> PersistedDelay(d) == 0)
      && (PersistedDelay(d) == 0 && o.retryAfter == Some(0) ==> PersistedDelay(Persisted(d, w)) == 0)
  {
    var w := Work(d, registered, o);
    RetryStaysComplete(d, registered, o);
    DelayOfRun(d, d, registered, o);
    if w.ran {
      J.WorkPersists(d, registered, o, d[Payload].p);
    } else {
      WorkOnFull(d, registered, o, d[MaxTries].n, d[ClassName].s, d[Payload].p, d[Tries].n);
    }
    hide Work, Merge, Complete;
  }

  /** A job that comes back to the list has one try less. */
  lemma RunCostsATry(d: Data, registered: set<string>, o: Outcome)
    requires Runnable(d, registered)
    ensures var w := Work(d, registered, o);
      Back(d, w) ==> Runnable(Retried(d, w), registered) && Left(Retried(d, w)) == Left(d) - 1
  {
    RetryStaysComplete(d, registered, o);
    DelayStays(d, registered, o);
    hide Work, Persisted, Merge, Retried, PersistedDelay;
  }

  /** A list whose first job left, or came back at the end with one try less. */
  lemma FirstSpends(ready: seq<string>, store: map<string, Data>, ready': seq<string>, store': map<string, Data>,
                    registered: set<string>)
    requires ready != [] && J.NoDup(ready) && AllRunnable(ready, store, registered)
    requires forall x :: x != ready[0] && x in store ==> x in store' && store'[x] == store[x]
    requires ready' == ready[1..] || (ready' == ready[1..] + [ready[0]] && ready[0] in store'
                                      && Runnable(store'[ready[0]], registered)
                                      && Left(store'[ready[0]]) < Left(store[ready[0]]))
    ensures J.NoDup(ready') && AllRunnable(ready', store', registered)
    ensures Budget(ready', store', registered) < Budget(ready, store, registered)
  {
    var id, rest := ready[0], ready[1..];
    hide Complete, Runnable, Left;
    assert Budget(ready, store, registered) == Left(store[id]) + Budget(rest, store, registered);
    forall i | 0 <= i < |rest|
        ensures rest[i] != id && rest[i] in store && rest[i] in store' && store'[rest[i]] == store[rest[i]] {
      assert rest[i] == ready[i + 1];
    }
    hide Budget;
    BudgetOfSame(rest, store, store', registered);
    if ready' != rest {
      BudgetOfAppended(rest, id, store', registered);
    }
  }

  /** A call on a list with runnable jobs takes the first one, and the tries left in the list go down. */
  lemma TurnSpendsBudget(sv: Service, registered: set<string>, clean: bool, o: Outcome, now: int)
    requires Drainable(sv, registered) && sv.ready != []
    ensures var t := Turn(sv, registered, clean, o, now);
      && t.result == Did && Drainable(t.service, registered)
      && Budget(t.service.ready, t.service.store, registered) < Budget(sv.ready, sv.store, registered)
  {
    var id := sv.ready[0];
    RunCostsATry(sv.store[id], registered, o);
    TurnChangesFirst(sv, registered, clean, o, now);
    var sv' := Turn(sv, registered, clean, o, now).service;
    hide Work, Turn, Runnable, Complete, Left, Back, Retried, Budget, J.NoDup;
    FirstSpends(sv.ready, sv.store, sv'.ready, sv'.store, registered);
  }

  /** What a call does to the list and to the data. */
  lemma TurnChangesFirst(sv: Service, registered: set<string>, clean: bool, o: Outcome, now: int)
    requires sv.ready != [] && sv.ready[0] != "" && sv.ready[0] in sv.store
    ensures var t := Turn(sv, registered, clean, o, now); var id := sv.ready[0];
      var w := Work(sv.store[id], registered, o);
      && t.result == Did
      && (forall x :: x != id && x in sv.store ==> x in t.service.store && t.service.store[x] == sv.store[x])
      && t.service.ready == sv.ready[1..] + (if Back(sv.store[id], w) then [id] else [])
      && (w.status == ErrorRetry ==> id in t.service.store && t.service.store[id] == Retried(sv.store[id], w))
  {
    hide Work, Merge, Named, ReportedTries, PersistedDelay;
    assert sv.ready[1..] + [] == sv.ready[1..];
  }

  /** Calls one after another, and how many of them returned true. */
  function Turns(sv: Service, registered: set<string>, clean: bool, calls: seq<(Outcome, int)>): (Service, nat)
    decreases |calls|
  {
    if calls == [] then (sv, 0)
    else
      var t := Turn(sv, registered, clean, calls[0].0, calls[0].1);
      var (last, n) := Turns(t.service, registered, clean, calls[1..]);
      (last, n + if t.result == Did then 1 else 0)
  }

  /**
    Whatever the jobs do, at most as many calls return true as there are tries left in the list,
    and after that many calls it is empty.
   */
  lemma {:induction false} QueueDrains(sv: Service, registered: set<string>, clean: bool, calls: seq<(Outcome, int)>)
    requires Drainable(sv, registered)
    ensures var (last, n) := Turns(sv, registered, clean, calls);
      && Drainable(last, registered)
      && n + Budget(last.ready, last.store, registered) <= Budget(sv.ready, sv.store, registered)
      && (|calls| >= Budget(sv.ready, sv.store, registered) ==> last.ready == [])
    decreases |calls|
  {
    if calls == [] {
    } else if sv.ready == [] {
      QueueDrains(sv, registered, clean, calls[1..]);
    } else {
      var (o, now) := calls[0];
      TurnSpendsBudget(sv, registered, clean, o, now);
      hide Turn, Drainable, AllRunnable;
      QueueDrains(Turn(sv, registered, clean, o, now).service, registered, clean, calls[1..]);
    }
  }

  /** A job of a class nobody registered keeps the list as it is for ever. */
  lemma UnregisteredNeverDrains(sv: Service, registered: set<string>, clean: bool, o: Outcome, now: int, id: string)
    requires sv.ready == [id] && id != "" && id in sv.store && Complete(sv.store[id])
    requires sv.store[id][Payload].p.className !in registered && RetryAfter !in sv.store[id]
    ensures Turn(sv, registered, clean, o, now).service == sv && Turn(sv, registered, clean, o, now).result == Did
  {
    var d := sv.store[id];
    WorkOnFull(d, registered, o, d[MaxTries].n, d[ClassName].s, d[Payload].p, d[Tries].n);
    assert Merge(d, d) == d;
    hide Work, Merge, Named, ReportedTries;
    assert sv.store[id := d] == sv.store;
    assert [] + [id] == [id];
  }

  // ---- Exactly when ----

  /** The jobs in the list have complete data. */
  ghost predicate Tidy(sv: Service) {
    J.NoDup(sv.ready) && forall id :: id in sv.ready ==> id != "" && id in sv.store && Complete(sv.store[id])
  }

  /** After this many calls the list is empty, whatever the jobs do and whenever they are called. */
  ghost predicate EmptiesWithin(sv: Service, registered: set<string>, clean: bool, n: nat) {
    forall calls: seq<(Outcome, int)> :: |calls| >= n ==> Turns(sv, registered, clean, calls).0.ready == []
  }

  /** A job in the list that its delay and its limit allow to stay. */
  ghost predicate Stuck(sv: Service, registered: set<string>, id: string) {
    id in sv.ready && id != "" && id in sv.store && Complete(sv.store[id]) && !Leaves(sv.store[id], registered)
  }

  /** A run that fails and sets its retryAfter to 0. */
  const FAILS := Outcome(false, Some(0), "", "")

  lemma TurnKeepsStuck(sv: Service, registered: set<string>, clean: bool, now: int, id: string)
    requires Stuck(sv, registered, id)
    ensures Stuck(Turn(sv, registered, clean, FAILS, now).service, registered, id)
  {
    var first := sv.ready[0];
    assert sv.ready == [first] + sv.ready[1..];
    if first != "" && first in sv.store {
      var d := sv.store[id];
      TurnChangesFirst(sv, registered, clean, FAILS, now);
      RetryStaysComplete(d, registered, FAILS);
      DelayStays(d, registered, FAILS);
      hide Work, Turn, Complete, Retried, PersistedDelay, Persisted;
    }
  }

  /** If all runs fail and ask for no delay, the job stays in the list for ever. */
  lemma {:induction false} StuckForEver(sv: Service, registered: set<string>, clean: bool,
      calls: seq<(Outcome, int)>, id: string)
    requires Stuck(sv, registered, id) && forall i :: 0 <= i < |calls| ==> calls[i].0 == FAILS
    ensures id in Turns(sv, registered, clean, calls).0.ready
    decreases |calls|
  {
    hide Turn, Complete, Leaves;
    if calls != [] {
      TurnKeepsStuck(sv, registered, clean, calls[0].1, id);
      StuckForEver(Turn(sv, registered, clean, calls[0].0, calls[0].1).service, registered, clean, calls[1..], id);
    }
  }

  /**
    For unique names with complete data: the list empties, whatever the jobs do, if and only if
    each job is delayed, or is of a registered class and has a limit.
   */
  lemma DrainsIff(sv: Service, registered: set<string>, clean: bool)
    requires Tidy(sv)
    ensures (exists n: nat :: EmptiesWithin(sv, registered, clean, n))
      <==> forall id :: id in sv.ready ==> Leaves(sv.store[id], registered)
  {
    hide Turns, Complete, Leaves, J.NoDup;
    if forall id :: id in sv.ready ==> Leaves(sv.store[id], registered) {
      assert forall i :: 0 <= i < |sv.ready| ==> sv.ready[i] in sv.ready;
      var n := Budget(sv.ready, sv.store, registered);
      forall calls: seq<(Outcome, int)> | |calls| >= n ensures Turns(sv, registered, clean, calls).0.ready == [] {
        QueueDrains(sv, registered, clean, calls);
      }
      assert EmptiesWithin(sv, registered, clean, n);
    } else {
      var id :| id in sv.ready && !Leaves(sv.store[id], registered);
      forall n: nat ensures !EmptiesWithin(sv, registered, clean, n) {
        var calls := seq(n, _ => (FAILS, 0));
        StuckForEver(sv, registered, clean, calls, id);
      }
    }
  }

  // ---- After a program ----

  /** The service after a program. */
  function ServiceOf(ops: seq<O.Op>, registered: set<string>, clean: bool): Service {
    O.All(ops, registered, clean).service
  }

  /** A job in the list is one that was pushed, with the data of a job of the protocol that waits. */
  lemma ListedJob(ops: seq<O.Op>, registered: set<string>, clean: bool, id: string) returns (op: O.Op)
    requires O.Fresh(ops) && id in ServiceOf(ops, registered, clean).ready
    ensures op in ops && op.Push? && JobName(op.uuid) == id != ""
    ensures var sv := ServiceOf(ops, registered, clean);
      id in sv.store && Complete(sv.store[id])
      && sv.store[id][MaxTries] == Num(op.max) && sv.store[id][Payload] == Json(op.payload)
  {
    hide O.All, R.Reached, O.Tame, O.SameLogs, JobName;
    var run, s := O.OperationsAreARun(ops, registered, clean);
    R.QueuedJobsAreComplete(1, run, s, id);
    assert O.Names(ops, id);
    op :| op in ops && op.Push? && JobName(op.uuid) == id;
    O.JobNamesDiffer(op.uuid, op.uuid);
    assert O.SameTerms(s, op);
  }

  lemma ProgramIsTidy(ops: seq<O.Op>, registered: set<string>, clean: bool)
    requires O.Fresh(ops)
    ensures Tidy(ServiceOf(ops, registered, clean))
  {
    hide Complete, ServiceOf;
    var sv := ServiceOf(ops, registered, clean);
    forall id | id in sv.ready ensures id != "" && id in sv.store && Complete(sv.store[id]) {
      var op := ListedJob(ops, registered, clean, id);
    }
    ListedOnce(ops, registered, clean);
  }

  lemma ListedOnce(ops: seq<O.Op>, registered: set<string>, clean: bool)
    requires O.Fresh(ops)
    ensures J.NoDup(ServiceOf(ops, registered, clean).ready)
  {
    var run, s := O.OperationsAreARun(ops, registered, clean);
    R.ReachedInv(1, run, s);
    hide J.Records, J.LaterOk, J.HeldOk, O.All;
  }

  /** No job in the list has a delay: a delayed one is never put there. */
  ghost predicate NoneDelayed(sv: Service) {
    forall id :: id in sv.ready ==> id in sv.store && PersistedDelay(sv.store[id]) == 0
  }

  lemma PushNotDelayed(m: Memory, op: O.Op)
    requires op.Push? && NoneDelayed(m.service) && JobName(op.uuid) !in m.service.store
    ensures NoneDelayed(Pushed(m, op.uuid, op.max, op.name, op.payload, op.scheduledAt, op.now).service)
  {
    hide JobName;
  }

  lemma CallNotDelayed(sv: Service, registered: set<string>, clean: bool, o: Outcome, now: int)
    requires Tidy(sv) && NoneDelayed(sv)
    ensures NoneDelayed(Turn(sv, registered, clean, o, now).service)
  {
    if sv.ready != [] {
      var id, rest := sv.ready[0], sv.ready[1..];
      assert id in sv.ready;
      TurnChangesFirst(sv, registered, clean, o, now);
      DelayStays(sv.store[id], registered, o);
      assert forall x :: x in rest ==> x != id && x in sv.ready;
      hide Turn, Work, Retried, Persisted, PersistedDelay, Complete;
    }
  }

  lemma {:induction false} ProgramDelaysNone(ops: seq<O.Op>, registered: set<string>, clean: bool)
    requires O.Fresh(ops)
    ensures NoneDelayed(ServiceOf(ops, registered, clean))
    decreases |ops|
  {
    if ops != [] {
      var n := |ops| - 1;
      var before, op := ops[..n], ops[n];
      assert ops == before + [op];
      hide Turn, NoneDelayed, Tidy;
      ProgramDelaysNone(before, registered, clean);
      ProgramIsTidy(before, registered, clean);
      var m := O.All(before, registered, clean);
      if op.Push? {
        var run, s := O.OperationsAreARun(before, registered, clean);
        R.ReachedInv(1, run, s);
        O.PushIsFresh(m, s, before, op);
        PushNotDelayed(m, op);
      } else {
        CallNotDelayed(m.service, registered, clean, op.o, op.now);
      }
    }
  }

  /** The list holds this push, and it leaves the list exactly if it is of a registered class and has a limit. */
  ghost predicate Listed(sv: Service, op: O.Op, registered: set<string>)
    requires op.Push?
  {
    var id := JobName(op.uuid);
    id in sv.store && Complete(sv.store[id])
    && (Leaves(sv.store[id], registered) <==> op.payload.className in registered && op.max > 0)
  }

  /**
    After any program of one thread: calls empty the list, whatever the jobs do, if and only if
    each job in it was pushed with a registered class and with a limit.
   */
  lemma ProgramDrainsIff(ops: seq<O.Op>, registered: set<string>, clean: bool)
    requires O.Fresh(ops)
    ensures var sv := ServiceOf(ops, registered, clean);
      (exists n: nat :: EmptiesWithin(sv, registered, clean, n))
      <==> forall op :: op in ops && op.Push? && JobName(op.uuid) in sv.ready ==>
                          op.payload.className in registered && op.max > 0
  {
    var sv := ServiceOf(ops, registered, clean);
    ProgramIsTidy(ops, registered, clean);
    ProgramDelaysNone(ops, registered, clean);
    DrainsIff(sv, registered, clean);
    hide ServiceOf, EmptiesWithin, JobName, Complete, PersistedDelay;
    forall id | id in sv.ready
        ensures exists op :: op in ops && op.Push? && JobName(op.uuid) == id && Listed(sv, op, registered) {
      var op := ListedJob(ops, registered, clean, id);
    }
    forall op | op in ops && op.Push? && JobName(op.uuid) in sv.ready ensures Listed(sv, op, registered) {
      var x := ListedJob(ops, registered, clean, JobName(op.uuid));
      PushedOnce(ops, op, x);
    }
  }

  lemma PushedOnce(ops: seq<O.Op>, op: O.Op, x: O.Op)
    requires O.Fresh(ops) && op in ops && x in ops && op.Push? && x.Push? && JobName(op.uuid) == JobName(x.uuid)
    ensures op == x
  {
    O.JobNamesDiffer(op.uuid, x.uuid);
    var i :| 0 <= i < |ops| && ops[i] == op;
    var k :| 0 <= k < |ops| && ops[k] == x;
  }

  // ---- Delayed jobs ----

  lemma DelayedNotListed(s: J.State, sv: Service, id: string, t: int)
    requires J.Inv(s) && O.SameService(sv, s) && Scheduled(id, t) in sv.later
    ensures id in s.jobs && id !in sv.ready
  {
    assert Z.Entry(t, id) in s.later;
    Z.MembersOf(s.later);
    hide Z.Valid, Z.Members, J.Records, J.HeldOk;
    assert J.Sits(s, id, J.Later) && !J.Sits(s, id, J.Ready);
  }

  /** An operation leaves a delayed job where it is, and says nothing of it. */
  lemma DelayedStays(m: Memory, op: O.Op, registered: set<string>, clean: bool, id: string, t: int)
    requires Scheduled(id, t) in m.service.later && id !in m.service.ready
    requires op.Push? ==> JobName(op.uuid) != id
    ensures var m' := O.Apply(m, op, registered, clean);
      Scheduled(id, t) in m'.service.later && O.Log(m'.told, id) == O.Log(m.told, id)
  {
    hide JobName;
    match op
    case Push(uuid, _, _, _, _, _) => O.LogAppendsOne(m.told, Queued(JobName(uuid)), id);
    case DoOne(o, now) => CallKeepsDelayed(m, registered, clean, o, now, id, t);
  }

  /** A call tells of the first job only, and takes nothing from the delayed ones. */
  lemma CallTells(sv: Service, registered: set<string>, clean: bool, o: Outcome, now: int)
    ensures var turn := Turn(sv, registered, clean, o, now);
      TellsOnly(sv, turn) && sv.later <= turn.service.later
  {
    hide Work, Settle, StoreAfter;
    if sv.ready != [] && sv.ready[0] in sv.store {
      var id := sv.ready[0];
      var w := Work(sv.store[id], registered, o);
      var s := Settle(StoreAfter(sv.store, id, w), id, w.data, w.status, clean);
      O.TellAppends(id, w.events, s.events);
    }
  }

  lemma CallKeepsDelayed(m: Memory, registered: set<string>, clean: bool, o: Outcome, now: int, id: string, t: int)
    requires Scheduled(id, t) in m.service.later && id !in m.service.ready
    ensures var m' := Called(m, registered, clean, o, now);
      Scheduled(id, t) in m'.service.later && O.Log(m'.told, id) == O.Log(m.told, id)
  {
    var turn := Turn(m.service, registered, clean, o, now);
    CallTells(m.service, registered, clean, o, now);
    hide Turn, Work;
    if turn.told == [] {
      assert m.told + turn.told == m.told;
    } else {
      var events :| turn.told == Tell(m.service.ready[0], events);
      O.LogAppends(m.told, turn.told, id);
      O.LogOfTold(events, m.service.ready[0], id);
    }
  }

  ghost predicate TellsOnly(sv: Service, turn: Turned) {
    turn.told == [] || (sv.ready != [] && exists events :: turn.told == Tell(sv.ready[0], events))
  }

  /**
    A delayed job of a queue in memory is never run: whatever one thread does afterwards, it
    stays delayed, out of the list, and no callback tells of it.
   */
  lemma {:induction false} DelayedNeverRuns(a: seq<O.Op>, b: seq<O.Op>, registered: set<string>, clean: bool,
      id: string, t: int)
    requires O.Fresh(a + b) && Scheduled(id, t) in ServiceOf(a, registered, clean).later
    ensures var m := O.All(a + b, registered, clean);
      && Scheduled(id, t) in m.service.later && id !in m.service.ready
      && O.Log(m.told, id) == O.Log(O.All(a, registered, clean).told, id)
    decreases |b|
  {
    var ops := a + b;
    if b != [] {
      var n := |b| - 1;
      assert ops == a + b[..n] + [b[n]];
      assert ops[..|ops| - 1] == a + b[..n];
      DelayedNeverRuns(a, b[..n], registered, clean, id, t);
      NamesStayFresh(a + b[..n], b[n], registered, clean, id, t);
      DelayedStays(O.All(a + b[..n], registered, clean), b[n], registered, clean, id, t);
    } else {
      assert ops == a;
    }
    var run, s := O.OperationsAreARun(ops, registered, clean);
    R.ReachedInv(1, run, s);
    hide J.Inv, O.SameService, O.Log, O.All;
    DelayedNotListed(s, O.All(ops, registered, clean).service, id, t);
  }

  lemma NamesStayFresh(ops: seq<O.Op>, op: O.Op, registered: set<string>, clean: bool, id: string, t: int)
    requires O.Fresh(ops + [op]) && Scheduled(id, t) in ServiceOf(ops, registered, clean).later
    ensures op.Push? ==> JobName(op.uuid) != id
  {
    assert ops == (ops + [op])[..|ops|];
    var run, s := O.OperationsAreARun(ops, registered, clean);
    R.ReachedInv(1, run, s);
    var m := O.All(ops, registered, clean);
    hide J.Inv, O.All;
    DelayedNotListed(s, m.service, id, t);
    if op.Push? {
      O.PushIsFresh(m, s, ops, op);
    }
  }

  /** So a job pushed for later is announced and never run. */
  lemma ScheduledNeverRuns(a: seq<O.Op>, op: O.Op, b: seq<O.Op>, registered: set<string>, clean: bool)
    requires O.Fresh(a + [op] + b) && op.Push? && op.scheduledAt != 0
    ensures var m, id := O.All(a + [op] + b, registered, clean), JobName(op.uuid);
      && O.Log(m.told, id) == [Queued(id)]
      && Scheduled(id, op.scheduledAt) in m.service.later && id !in m.service.ready
  {
    var id := JobName(op.uuid);
    assert (a + [op])[..|a|] == a && (a + [op] + b)[..|a| + 1] == a + [op];
    assert (a + [op] + b)[..|a|] == a;
    var run, s := O.OperationsAreARun(a, registered, clean);
    var m := O.All(a, registered, clean);
    O.PushIsFresh(m, s, a, op);
    assert O.Log(m.told, id) == [];
    O.LogAppendsOne(m.told, Queued(id), id);
    assert O.All(a + [op], registered, clean) == O.Apply(m, op, registered, clean);
    hide O.Log, JobName, R.Reached, O.Mirrors, O.Tame, Merge;
    DelayedNeverRuns(a + [op], b, registered, clean, id, op.scheduledAt);
  }
}
