/**
  One worker on a queue in memory. `Turn` is one call of do_one on the lists and the data; class
  `QueueWorker` is the code, and computes it.
 */
module QueueWorker {
  import opened Prelude
  import opened JobWork
  import opened StdQueue

  const JOB_LOG_EXPIRE_SECONDS := 3600

  datatype Result =
    | Nothing      // do_one returned false
    | Did          // do_one returned true
    | Threw        // the data of the job is missing

  /** One queue of the service. */
  datatype Service = Service(ready: seq<string>, later: multiset<Scheduled>, store: map<string, Data>)

  /** onJobQueued, or a callback of the worker for a job. */
  datatype Callback = Queued(id: string) | Told(id: string, event: Event)

  function Tell(id: string, events: seq<Event>): (r: seq<Callback>)
    ensures |r| == |events| && forall i :: 0 <= i < |r| ==> r[i] == Told(id, events[i])
  {
    seq(|events|, i requires 0 <= i < |events| => Told(id, events[i]))
  }

  /** What `work` leaves in the store. */
  function StoreAfter(store: map<string, Data>, id: string, w: Worked): map<string, Data>
    requires id in store
  {
    if w.persisted.Some? then store[id := Persisted(store[id], w)] else store
  }

  /** What process_job_result stores, and whether and when the job comes back. */
  datatype Settled = Settled(store: map<string, Data>, again: Option<int>, events: seq<Event>)

  function Settle(store: map<string, Data>, id: string, d: Data, status: Status, clean: bool): Settled {
    var stored := DataOf(store, id);
    match status
    case NoError => Settled(if clean then store - {id} else store[id := Merge(stored, d)], None, [])
    case ErrorRemove =>
      Settled(store[id := Merge(stored, d)], None, if Named(d) then [Removed(ReportedTries(d))] else [])
    case ErrorRetry =>
      var delay := PersistedDelay(stored);
      Settled(store[id := Merge(stored, d)], Some(delay), if Named(d) then [Retry(ReportedTries(d), delay)] else [])
  }

  function Return(sv: Service, id: string, again: Option<int>, now: int): Service {
    if again.None? then sv
    else if again.value == 0 then sv.(ready := sv.ready + [id])
    else sv.(later := sv.later + multiset{Scheduled(id, now + again.value)})
  }

  datatype Turned = Turned(service: Service, result: Result, told: seq<Callback>)

  /** One call of do_one. */
  function Turn(sv: Service, registered: set<string>, clean: bool, o: Outcome, now: int): Turned {
    if sv.ready == [] then Turned(sv, Nothing, [])
    else
      var id := sv.ready[0];
      var popped := sv.(ready := sv.ready[1..]);
      if id == "" then Turned(popped, Nothing, [])
      else if id !in sv.store then Turned(popped, Threw, [])
      else
        var w := Work(sv.store[id], registered, o);
        var s := Settle(StoreAfter(sv.store, id, w), id, w.data, w.status, clean);
        Turned(Return(popped.(store := s.store), id, s.again, now), Did, Tell(id, w.events) + Tell(id, s.events))
  }

  /** A well-formed job of a registered class, whose turn it is. */
  ghost predicate Runs(sv: Service, registered: set<string>) {
    && sv.ready != [] && sv.ready[0] != "" && sv.ready[0] in sv.store
    && !Malformed(sv.store[sv.ready[0]]) && sv.store[sv.ready[0]][Payload].p.className in registered
  }

  /** Its record is dropped exactly if it succeeds and logs are cleaned; otherwise it gets what the run printed. */
  lemma TurnLeaves(sv: Service, registered: set<string>, clean: bool, o: Outcome, now: int)
    requires Runs(sv, registered)
    ensures var id, sv' := sv.ready[0], Turn(sv, registered, clean, o, now).service;
      && (id in sv'.store <==> !(o.ok && clean))
      && (id in sv'.store ==>
            && JobStdout in sv'.store[id] && sv'.store[id][JobStdout] == Text(o.output)
            && JobStderr in sv'.store[id] && sv'.store[id][JobStderr] == Text(o.errors)
            && Payload in sv'.store[id] && sv'.store[id][Payload] == sv.store[id][Payload])
      && (o.ok ==> sv'.ready == sv.ready[1..] && sv'.later == sv.later)
  {
    var id, d := sv.ready[0], sv.store[sv.ready[0]];
    var w := Work(d, registered, o);
    RunLeaves(d, registered, o);
    WorkExits(d, registered, o);
    RunStatus(d, registered, o);
    hide Work, ReportedTries, Named, PersistedDelay, Malformed;
  }

  lemma RunStatus(d: Data, registered: set<string>, o: Outcome)
    requires !Malformed(d) && d[Payload].p.className in registered
    ensures Work(d, registered, o).status == NoError <==> o.ok
  {
  }

  /** A malformed job leaves the list for good, and its record keeps all it had. */
  lemma MalformedLeaves(sv: Service, registered: set<string>, clean: bool, o: Outcome, now: int)
    requires sv.ready != [] && sv.ready[0] != "" && sv.ready[0] in sv.store && Malformed(sv.store[sv.ready[0]])
    ensures var id, sv' := sv.ready[0], Turn(sv, registered, clean, o, now).service;
      && sv'.ready == sv.ready[1..] && sv'.later == sv.later
      && id in sv'.store && forall k :: k in sv.store[id] ==> k in sv'.store[id] && sv'.store[id][k] == sv.store[id][k]
  {
    WorkExits(sv.store[sv.ready[0]], registered, o);
    hide Work, ReportedTries, Named, PersistedDelay, Malformed;
  }

  /** The calls that run no job: they return false, or throw because the data are gone, and tell nothing. */
  lemma TurnWithoutJob(sv: Service, registered: set<string>, clean: bool, o: Outcome, now: int)
    requires sv.ready == [] || sv.ready[0] == "" || sv.ready[0] !in sv.store
    ensures var t := Turn(sv, registered, clean, o, now);
      && t.told == [] && t.service.store == sv.store && t.service.later == sv.later
      && t.service.ready == (if sv.ready == [] then [] else sv.ready[1..])
      && t.result == (if sv.ready != [] && sv.ready[0] != "" then Threw else Nothing)
  {
  }

  /** A malformed job with a class name is reported as removed, with the tries of its record or 0. */
  lemma MalformedIsReported(sv: Service, registered: set<string>, clean: bool, o: Outcome, now: int)
    requires sv.ready != [] && sv.ready[0] != "" && sv.ready[0] in sv.store && Malformed(sv.store[sv.ready[0]])
    ensures var id := sv.ready[0]; var d, t := sv.store[id], Turn(sv, registered, clean, o, now);
      t.result == Did && t.told ==
        if ClassName !in d || d[ClassName] == Text("") then []
        else [Told(id, Removed(if Tries in d && d[Tries].Num? then d[Tries].n % TWO64 else 0))]
  {
    var d := sv.store[sv.ready[0]];
    WorkExits(d, registered, o);
    assert Named(Work(d, registered, o).data) <==> Named(d);
    hide Work;
  }

  /** One queue and the callbacks so far. */
  datatype Memory = Memory(service: Service, told: seq<Callback>)

  function JobName(uuid: string): string {
    "job_instance:" + uuid
  }

  /** A push: scheduled, or at once if the time is 0. */
  function Pushed(m: Memory, uuid: string, max: nat, name: string, p: JobPayload, scheduledAt: int, now: int): Memory {
    var id, sv := JobName(uuid), m.service;
    var store := sv.store[id := Merge(DataOf(sv.store, id), NewData(max, name, p, now))];
    Memory(if scheduledAt == 0 then sv.(store := store, ready := sv.ready + [id])
           else sv.(store := store, later := sv.later + multiset{Scheduled(id, scheduledAt)}),
           m.told + [Queued(id)])
  }

  function Called(m: Memory, registered: set<string>, clean: bool, o: Outcome, now: int): Memory {
    var t := Turn(m.service, registered, clean, o, now);
    Memory(t.service, m.told + t.told)
  }

  // ---- The code ----

  /** A job object between its construction and the end of work. */
  class RunningJob {
    var tries: nat
    var maxtries: nat
    var retryAfter: int

    /** from_json of the payload's data, after work has set tries and maxtries in it. */
    constructor (p: JobPayload, tries: nat, maxtries: nat)
      ensures this.tries == tries && this.maxtries == maxtries && retryAfter == p.retryAfter
    {
      this.tries, this.maxtries, this.retryAfter := tries, maxtries, p.retryAfter;
    }

    method ProcessRetryCondition() returns (r: Status)
      ensures r == RetryCondition(tries, maxtries)
      ensures r == ErrorRemove <==> maxtries > 0 && tries >= maxtries
    {
      if maxtries == 0 {
        return ErrorRetry;
      }
      if tries < maxtries {
        return ErrorRetry;
      }
      return ErrorRemove;
    }
  }

  class QueueWorker {
    const queueService: StdQueue
    const registered: set<string>
    const clean: bool
    var told: seq<Callback>

    constructor (queueService: StdQueue, registered: set<string>, clean: bool)
      ensures this.queueService == queueService && this.registered == registered && this.clean == clean && told == []
    {
      this.queueService, this.registered, this.clean, told := queueService, registered, clean, [];
    }

    ghost function Value(queue: string): Service
      reads queueService
    {
      Service(Listed(queueService.queueMap, queue), Delayed(queueService.laterQueueMap, queue),
          queueService.persistentData)
    }

    /** Stores a new job and puts it in the queue; uuid is fresh. */
    method Push(queue: string, uuid: string, max: nat, name: string, p: JobPayload, scheduledAt: int, now: int)
      modifies this, queueService
      ensures Memory(Value(queue), told) ==
              Pushed(old(Memory(Value(queue), told)), uuid, max, name, p, scheduledAt, now)
      ensures forall q :: q != queue ==> Value(q).ready == old(Value(q).ready) && Value(q).later == old(Value(q).later)
    {
      hide Merge, NewData, JobName;
      var id := JobName(uuid);
      ghost var before := Value(queue);
      queueService.SetPersistentData(id, NewData(max, name, p, now));
      assert Value(queue) == before.(store := queueService.persistentData);
      if scheduledAt != 0 {
        queueService.PushToLater(queue, id, scheduledAt);
      } else {
        queueService.Push(queue, id);
      }
      told := told + [Queued(id)];
    }

    /** Runs handle(), persists a delay, and takes the logs and an old delay out of the way. */
    method HandleJobRun(job: RunningJob, datamap: Data, id: string, o: Outcome) returns (failed: bool, map': Data)
      modifies job, queueService`persistentData
      ensures failed == !o.ok && job.tries == Next(old(job.tries)) && job.maxtries == old(job.maxtries)
      ensures map' == (datamap - {RetryAfter})[JobStderr := Text(o.errors)][JobStdout := Text(o.output)]
      ensures var delay := if o.retryAfter.Some? then o.retryAfter.value else old(job.retryAfter);
        queueService.persistentData ==
          if !o.ok && delay > 0
          then old(queueService.persistentData)[id := Merge(DataOf(old(queueService.persistentData), id),
              map[RetryAfter := Num(delay)])]
          else old(queueService.persistentData)
    {
      job.tries := Next(job.tries);
      if o.retryAfter.Some? {
        job.retryAfter := o.retryAfter.value;
      }
      failed := !o.ok;
      if failed && job.retryAfter > 0 {
        queueService.SetPersistentData(id, map[RetryAfter := Num(job.retryAfter)]);
      }
      map' := datamap;
      if RetryAfter in map' {
        map' := map' - {RetryAfter};
      }
      map' := map'[JobStderr := Text(o.errors)];
      map' := map'[JobStdout := Text(o.output)];
    }

    method DoWork(datamap: Data, id: string, o: Outcome) returns (status: Status, map': Data)
      requires id in queueService.persistentData
      modifies this, queueService`persistentData
      ensures var w := Work(datamap, registered, o);
        && status == w.status && map' == w.data && told == old(told) + Tell(id, w.events)
        && queueService.persistentData == StoreAfter(old(queueService.persistentData), id, w)
    {
      map' := datamap;
      if ClassName !in map' {
        map' := Touch(map', Payload);
        return ErrorRemove, map';
      }
      map' := Touch(map', Payload);
      if !map'[Payload].Json? {
        return ErrorRemove, map';
      }
      var p := map'[Payload].p;
      map' := Touch(map', Tries);
      var tries := Stoull(map'[Tries]);
      if tries.None? {
        return ErrorRemove, map';
      }
      map' := Touch(map', MaxTries);
      var maxtries := Stoull(map'[MaxTries]);
      if maxtries.None? {
        return ErrorRemove, map';
      }
      if p.className !in registered {
        return ErrorRetry, map';
      }
      var job := new RunningJob(p, tries.value, maxtries.value);
      map' := map' - {Payload};
      var named := Named(datamap);
      if named {
        told := told + [Told(id, Started(job.tries))];
      }
      var failed: bool;
      failed, map' := HandleJobRun(job, map', id, o);
      status := NoError;
      if failed {
        status := job.ProcessRetryCondition();
      }
      if named {
        told := told + [Told(id, Completed(status, job.tries))];
      }
      if status == ErrorRetry {
        map' := map'[Tries := Num(job.tries)];
        map' := map'[MaxTries := Num(job.maxtries)];
      }
    }

    /** Into the list at once, or among the delayed jobs. */
    method Requeue(queue: string, id: string, delay: int, now: int)
      modifies queueService
      ensures Value(queue) == Return(old(Value(queue)), id, Some(delay), now)
      ensures forall q :: q != queue ==> Value(q).ready == old(Value(q).ready) && Value(q).later == old(Value(q).later)
    {
      if delay == 0 {
        queueService.Push(queue, id);
      } else {
        queueService.PushToLater(queue, id, now + delay);
      }
    }

    /** Puts a job that failed back: now, or after the delay in the store. */
    method ProcessRetry(queue: string, id: string, datamap: Data, now: int)
      modifies this, queueService
      ensures var s := Settle(old(queueService.persistentData), id, datamap, ErrorRetry, clean);
        && Value(queue) == Return(old(Value(queue)).(store := s.store), id, s.again, now)
        && told == old(told) + Tell(id, s.events)
      ensures forall q :: q != queue ==> Value(q).ready == old(Value(q).ready) && Value(q).later == old(Value(q).later)
    {
      ghost var stored := DataOf(queueService.persistentData, id);
      var delay := 0;
      var threw, field := queueService.GetPersistentDataField(id, RetryAfter);
      if !threw && field.Some? && field.value.Num? {
        delay := field.value.n;
      }
      assert delay == PersistedDelay(stored);
      ghost var s := Settle(queueService.persistentData, id, datamap, ErrorRetry, clean);
      assert s.again == Some(delay) && s.store == queueService.persistentData[id := Merge(stored, datamap)];
      assert s.events == if Named(datamap) then [Retry(ReportedTries(datamap), delay)] else [];
      hide PersistedDelay, Merge, ReportedTries, Named, Settle, Return;
      queueService.SetPersistentData(id, datamap);
      if Named(datamap) {
        told := told + [Told(id, Retry(ReportedTries(datamap), delay))];
      }
      assert told == old(told) + Tell(id, s.events);
      Requeue(queue, id, delay, now);
    }

    method ProcessJobResult(queue: string, id: string, datamap: Data, status: Status, now: int)
      modifies this, queueService
      ensures var s := Settle(old(queueService.persistentData), id, datamap, status, clean);
        && Value(queue) == Return(old(Value(queue)).(store := s.store), id, s.again, now)
        && told == old(told) + Tell(id, s.events)
      ensures forall q :: q != queue ==> Value(q).ready == old(Value(q).ready) && Value(q).later == old(Value(q).later)
    {
      hide Merge, ReportedTries, Named;
      match status
      case NoError =>
        if clean {
          queueService.DelPersistentData(id);
        } else {
          queueService.SetPersistentData(id, datamap);
          var _ := queueService.Expire(id, JOB_LOG_EXPIRE_SECONDS);
        }
      case ErrorRemove =>
        queueService.SetPersistentData(id, datamap);
        var _ := queueService.Expire(id, JOB_LOG_EXPIRE_SECONDS);
        if Named(datamap) {
          told := told + [Told(id, Removed(ReportedTries(datamap)))];
        }
      case ErrorRetry =>
        ProcessRetry(queue, id, datamap, now);
    }

    method DoOne(queue: string, o: Outcome, now: int) returns (r: Result)
      modifies this, queueService
      ensures var t := Turn(old(Value(queue)), registered, clean, o, now);
        Value(queue) == t.service && r == t.result && told == old(told) + t.told
      ensures Memory(Value(queue), told) == Called(old(Memory(Value(queue), told)), registered, clean, o, now)
      ensures forall q :: q != queue ==> Value(q).ready == old(Value(q).ready) && Value(q).later == old(Value(q).later)
    {
      hide Work, Settle, Merge, Persisted, Return;
      ghost var before := Value(queue);
      var name := queueService.Pop(queue);
      assert before.ready != [] ==>
          name == Some(before.ready[0]) && Value(queue) == before.(ready := before.ready[1..]);
      if name.None? || name.value == "" {
        return Nothing;
      }
      var id := name.value;
      var data := queueService.GetPersistentData(id);
      if data.None? {
        return Threw;
      }
      var status, datamap := DoWork(data.value, id, o);
      assert Value(queue).ready == before.ready[1..] && Value(queue).later == before.later;
      ProcessJobResult(queue, id, datamap, status, now);
      return Did;
    }
  }
}
