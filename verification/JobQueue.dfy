/**
  Any number of workers on one Redis queue: a ready list, a sorted set of delayed jobs and a hash
  of data per job. A step is one command or script of Redis, or the part of a worker between two.
 */
module JobQueue {
  import opened Prelude
  import opened JobWork
  import Z = SortedSet

  /** "job_instance:" and a UUID. */
  type Id = string

  /** The order of two members with the same score. */
  predicate Before(a: Id, b: Id) {
    b != [] && (a == [] || a[0] < b[0] || (a[0] == b[0] && Before(a[1..], b[1..])))
  }

  /** Where a worker is in do_one. */
  datatype Pc =
    | Idle
    | Popped(id: Id)
    | Loaded(id: Id, data: Data)
    | Working(id: Id, work: Worked)              // onJobStarted is done, the rest of work is not
    | Settling(id: Id, work: Worked)             // work has returned
    | Delaying(id: Id, work: Worked, delay: int) // has read the delay of a retry
    | Requeueing(id: Id, delay: int)             // has merged the map and called onJobRetry

  // ---- History, which no step reads ----

  datatype Place = Created | Ready | Later | Held(w: nat) | Finished(status: Status, kept: bool)

  /** One time a worker had the job and gave it back: whether handle() ran, the retryAfter it set, and the delay. */
  datatype Round = Round(ran: bool, asked: Option<int>, delay: int)

  /**
    A job as pushed, where it is, how often handle() was called and how often it failed, its
    rounds, the callbacks of workers, how many of these had been made when onJobQueued came, and
    the retryAfter that the last run set.
   */
  datatype Job = Job(max: nat, name: string, payload: JobPayload, place: Place, runs: nat, failures: nat,
                     rounds: seq<Round>, events: seq<Event>, queued: Option<nat>, asked: Option<int>)

  datatype State = State(ready: seq<Id>, later: seq<Z.Entry<Id>>, store: map<Id, Data>, workers: seq<Pc>,
                         jobs: map<Id, Job>)

  datatype Action =
    | Create(id: Id, max: nat, name: string, payload: JobPayload, now: int) // push stores the data
    | Enqueue(id: Id, at: Option<int>)                                     // push puts the id in a queue
    | Announce(id: Id)                                                     // push calls onJobQueued
    | PopReady(w: nat)
    | PopLater(w: nat, now: int)
    | Load(w: nat)
    | Begin(w: nat, registered: set<string>, o: Outcome)
    | Advance(w: nat, clean: bool, now: int)

  function Init(workers: nat): State {
    State([], [], map[], seq(workers, _ => Idle), map[])
  }

  ghost predicate Enabled(s: State, a: Action) {
    match a
    case Create(id, max, _, _, _) => id !in s.jobs && max < TWO64
    case Enqueue(id, _) => id in s.jobs && s.jobs[id].place == Created
    case Announce(id) => id in s.jobs && s.jobs[id].place != Created && s.jobs[id].queued.None?
    case PopReady(w) => w < |s.workers| && s.workers[w].Idle? && s.ready != []
    case PopLater(w, _) => w < |s.workers| && s.workers[w].Idle?
    case Load(w) => w < |s.workers| && s.workers[w].Popped?
    case Begin(w, _, _) => w < |s.workers| && s.workers[w].Loaded? && s.workers[w].id in s.jobs
    case Advance(w, _, _) =>
      && w < |s.workers| && !s.workers[w].Idle? && s.workers[w].id in s.jobs
      && !s.workers[w].Popped? && !s.workers[w].Loaded?
  }

  /** hgetall, which is empty for a missing key. */
  function Stored(s: State, id: Id): Data {
    if id in s.store then s.store[id] else map[]
  }

  function Goto(s: State, w: nat, pc: Pc): State
    requires w < |s.workers|
  {
    s.(workers := s.workers[w := pc])
  }

  function Edit(s: State, id: Id, h: Job): State {
    s.(jobs := s.jobs[id := h])
  }

  function Put(s: State, id: Id, d: Data): State {
    s.(store := s.store[id := d])
  }

  /** Appends to the ready list, or adds to the delayed jobs. */
  function Queue(s: State, id: Id, at: Option<int>): State
    requires id in s.jobs
  {
    if at.None? then Edit(s.(ready := s.ready + [id]), id, s.jobs[id].(place := Ready))
    else Edit(s.(later := Z.Add(s.later, Z.Entry(at.value, id), Before)), id, s.jobs[id].(place := Later))
  }

  function Take(s: State, w: nat, id: Id): State
    requires w < |s.workers|
  {
    var s := Goto(s, w, Popped(id));
    if id in s.jobs then Edit(s, id, s.jobs[id].(place := Held(w))) else s
  }

  /** The script of RedisQueue::pop: the first expired member, removed by its rank. */
  function PopExpired(z: seq<Z.Entry<Id>>, now: int): (seq<Z.Entry<Id>>, Option<Id>) {
    var expired := Z.RangeByScore(z, now);
    if expired == [] then (z, None) else (Z.RemoveRanks(z, 1), Some(expired[0]))
  }

  /** onJobStarted is the first callback of work, if it makes any. */
  function First(w: Worked): seq<Event> {
    if w.events == [] then [] else w.events[..1]
  }

  function Rest(w: Worked): seq<Event> {
    if w.events == [] then [] else w.events[1..]
  }

  function BegunJob(h: Job, work: Worked, o: Outcome): Job {
    h.(runs := h.runs + Count(work.ran), events := h.events + First(work), asked := o.retryAfter)
  }

  function BeginStep(s: State, w: nat, registered: set<string>, o: Outcome): State
    requires w < |s.workers| && s.workers[w].Loaded? && s.workers[w].id in s.jobs
  {
    var id := s.workers[w].id;
    var work := Work(s.workers[w].data, registered, o);
    Edit(Goto(s, w, Working(id, work)), id, BegunJob(s.jobs[id], work, o))
  }

  /** The end of work: the delay is persisted, and onJobCompleted called. */
  function CompleteStep(s: State, w: nat): State
    requires w < |s.workers| && s.workers[w].Working? && s.workers[w].id in s.jobs
  {
    var id := s.workers[w].id;
    var work := s.workers[w].work;
    var h := s.jobs[id];
    var s := Edit(Goto(s, w, Settling(id, work)), id,
                  h.(failures := h.failures + Count(work.ran && work.status != NoError),
                      events := h.events + Rest(work)));
    if work.persisted.Some? then Put(s, id, Persisted(Stored(s, id), work)) else s
  }

  /** process_job_result, up to its next command. */
  function SettleStep(s: State, w: nat, clean: bool): State
    requires w < |s.workers| && s.workers[w].Settling? && s.workers[w].id in s.jobs
  {
    var id := s.workers[w].id;
    var work := s.workers[w].work;
    var h := s.jobs[id];
    match work.status
    case NoError =>
      var s := Edit(Goto(s, w, Idle), id, h.(place := Finished(NoError, !clean)));
      if clean then s.(store := s.store - {id}) else Put(s, id, Merge(Stored(s, id), work.data))
    case ErrorRemove =>
      var s := Put(Goto(s, w, Idle), id, Merge(Stored(s, id), work.data));
      Edit(s, id, h.(place := Finished(ErrorRemove, true),
                     events := h.events + if Named(work.data) then [Removed(ReportedTries(work.data))] else []))
    case ErrorRetry =>
      Goto(s, w, Delaying(id, work, PersistedDelay(Stored(s, id))))
  }

  function RetriedJob(h: Job, work: Worked, delay: int): Job {
    h.(rounds := h.rounds + [Round(work.ran, h.asked, delay)],
       events := h.events + if Named(work.data) then [Retry(ReportedTries(work.data), delay)] else [])
  }

  function RetryStep(s: State, w: nat): State
    requires w < |s.workers| && s.workers[w].Delaying? && s.workers[w].id in s.jobs
  {
    var Delaying(id, work, delay) := s.workers[w];
    var h := s.jobs[id];
    var s := Put(Goto(s, w, Requeueing(id, delay)), id, Merge(Stored(s, id), work.data));
    Edit(s, id, RetriedJob(h, work, delay))
  }

  function Step(s: State, a: Action): State
    requires Enabled(s, a)
  {
    match a
    case Create(id, max, name, payload, now) =>
      Edit(Put(s, id, Merge(Stored(s, id), NewData(max, name, payload, now))), id,
           Job(max, name, payload, Created, 0, 0, [], [], None, None))
    case Enqueue(id, at) => Queue(s, id, at)
    case Announce(id) => Edit(s, id, s.jobs[id].(queued := Some(|s.jobs[id].events|)))
    case PopReady(w) => Take(s.(ready := s.ready[1..]), w, s.ready[0])
    case PopLater(w, now) =>
      var (later, id) := PopExpired(s.later, now);
      if id.None? then s else Take(s.(later := later), w, id.value)
    case Load(w) => Goto(s, w, Loaded(s.workers[w].id, Stored(s, s.workers[w].id)))
    case Begin(w, registered, o) => BeginStep(s, w, registered, o)
    case Advance(w, clean, now) =>
      match s.workers[w]
      case Working(_, _) => CompleteStep(s, w)
      case Settling(_, _) => SettleStep(s, w, clean)
      case Delaying(_, _, _) => RetryStep(s, w)
      case Requeueing(id, delay) => Queue(Goto(s, w, Idle), id, if delay == 0 then None else Some(now + delay))
      case _ => s
  }

  ghost predicate Possible(s: State, run: seq<Action>)
    decreases |run|
  {
    run != [] ==> Enabled(s, run[0]) && Possible(Step(s, run[0]), run[1..])
  }

  function After(s: State, run: seq<Action>): State
    requires Possible(s, run)
    decreases |run|
  {
    if run == [] then s else After(Step(s, run[0]), run[1..])
  }

  // ---- Where jobs are ----

  ghost predicate Sits(s: State, id: Id, p: Place) {
    id in s.jobs && s.jobs[id].place == p
  }

  ghost predicate Holds(pc: Pc, id: Id) {
    !pc.Idle? && pc.id == id
  }

  ghost predicate NoDup(ids: seq<Id>) {
    forall i, j :: 0 <= i < j < |ids| ==> ids[i] != ids[j]
  }

  ghost predicate ReadyOk(s: State) {
    NoDup(s.ready) && forall id :: id in s.ready <==> Sits(s, id, Ready)
  }

  ghost predicate LaterOk(s: State) {
    Z.Valid(s.later) && forall id :: id in Z.Members(s.later) <==> Sits(s, id, Later)
  }

  ghost predicate HeldOk(s: State) {
    forall w: nat, id :: w < |s.workers| && Holds(s.workers[w], id) <==> Sits(s, id, Held(w))
  }

  /** Every job is in one place, and the queues and workers have nothing else. */
  ghost predicate Placed(s: State) {
    ReadyOk(s) && LaterOk(s) && HeldOk(s)
  }

  // ---- What is known about a job ----

  function Attempts(rounds: seq<Round>): nat {
    if rounds == [] then 0 else Attempts(rounds[..|rounds| - 1]) + Count(rounds[|rounds| - 1].ran)
  }

  /** A size_t. */
  function Word(n: nat): nat {
    n % TWO64
  }

  /** The callbacks of a round after k attempts. */
  function Chapter(k: nat, r: Round): seq<Event> {
    if r.ran then [Started(Word(k)), Completed(ErrorRetry, Word(k + 1)), Retry(Word(k + 1), r.delay)]
    else [Retry(Word(k), r.delay)]
  }

  /** The callbacks of a job given back after these rounds. */
  function Story(rounds: seq<Round>): seq<Event> {
    if rounds == [] then []
    else
      var before := rounds[..|rounds| - 1];
      Story(before) + Chapter(Attempts(before), rounds[|rounds| - 1])
  }

  /** The delay a job asks for: set by handle(), or the one of its payload. */
  function Wanted(p: JobPayload, asked: Option<int>): int {
    if asked.Some? then asked.value else p.retryAfter
  }

  /** The delay a run persists: a positive one, if it failed. */
  function Asked(p: JobPayload, status: Status, asked: Option<int>): Option<int> {
    if status != NoError && Wanted(p, asked) > 0 then Some(Wanted(p, asked)) else None
  }

  function LastDelay(rounds: seq<Round>): int {
    if rounds == [] then 0 else rounds[|rounds| - 1].delay
  }

  /** The delay a round should get after others: what its run asked for if positive, else the one before. */
  function Due(p: JobPayload, rounds: seq<Round>, r: Round): int {
    if r.ran && Wanted(p, r.asked) > 0 then Wanted(p, r.asked) else LastDelay(rounds)
  }

  ghost predicate DueAt(p: JobPayload, rounds: seq<Round>, i: nat)
    requires i < |rounds|
  {
    rounds[i].delay == Due(p, rounds[..i], rounds[i])
  }

  ghost predicate AllDue(p: JobPayload, rounds: seq<Round>) {
    forall i: nat :: i < |rounds| ==> DueAt(p, rounds, i)
  }

  ghost predicate Told(h: Job, tail: seq<Event>) {
    h.events == if h.name == "" then [] else Story(h.rounds) + tail
  }

  ghost predicate Below(h: Job, n: nat) {
    h.max > 0 ==> n < h.max
  }

  /** A job no worker is busy with: all attempts failed, and another is allowed. */
  ghost predicate Waiting(d: Data, h: Job) {
    && h.runs == h.failures == Attempts(h.rounds)
    && Full(d, h.max, h.name, h.payload, Word(h.runs))
    && Below(h, h.runs) && Told(h, [])
    && PersistedDelay(d) == LastDelay(h.rounds)
  }

  /** What `work` made of attempt k + 1. */
  ghost predicate Result(work: Worked, h: Job, k: nat) {
    && (!work.ran ==> work.status == ErrorRetry && work.persisted.None? && work.events == []
                      && Full(work.data, h.max, h.name, h.payload, Word(k))
                      && PersistedDelay(work.data) == LastDelay(h.rounds))
    && (work.ran ==>
          && (work.status == NoError || work.status == RetryCondition(Word(k + 1), h.max))
          && Core(work.data, h.max, h.name, if work.status == ErrorRetry then Word(k + 1) else Word(k))
          && Payload !in work.data && RetryAfter !in work.data
          && work.persisted == Asked(h.payload, work.status, h.asked)
          && work.events == (if h.name == "" then [] else [Started(Word(k)), Completed(work.status, Word(k + 1))]))
  }

  ghost predicate Begun(d: Data, h: Job, work: Worked) {
    var k := Attempts(h.rounds);
    && Full(d, h.max, h.name, h.payload, Word(k)) && Below(h, k) && Result(work, h, k)
    && h.runs == k + Count(work.ran)
  }

  ghost predicate Starting(d: Data, h: Job, work: Worked) {
    && Begun(d, h, work) && Told(h, First(work)) && h.failures == Attempts(h.rounds)
    && PersistedDelay(d) == LastDelay(h.rounds)
  }

  ghost predicate Completing(d: Data, h: Job, work: Worked) {
    && Begun(d, h, work) && Told(h, work.events)
    && h.failures == Attempts(h.rounds) + Count(work.ran && work.status != NoError)
    && PersistedDelay(d) == (if work.persisted.Some? then work.persisted.value else LastDelay(h.rounds))
  }

  ghost predicate PhaseOk(pc: Pc, d: Data, h: Job) {
    match pc
    case Idle => false
    case Popped(_) => Waiting(d, h)
    case Loaded(_, data) => Waiting(d, h) && data == d
    case Working(_, work) => Starting(d, h, work)
    case Settling(_, work) => Completing(d, h, work)
    case Delaying(_, work, delay) => Completing(d, h, work) && work.status == ErrorRetry && delay == PersistedDelay(d)
    case Requeueing(_, delay) => Waiting(d, h) && h.rounds != [] && h.rounds[|h.rounds| - 1].delay == delay
  }

  /** A job that succeeded, or failed for the last time. */
  ghost predicate Ended(d: Data, h: Job, status: Status, kept: bool) {
    var k := Attempts(h.rounds);
    && h.runs == k + 1 && Below(h, k)
    && (kept ==> Full(d, h.max, h.name, h.payload, Word(k)))
    && match status
       case NoError => h.failures == k && Told(h, [Started(Word(k)), Completed(NoError, Word(k + 1))])
       case ErrorRemove =>
         && kept && 0 < h.max == k + 1 == h.failures
         && Told(h, [Started(k), Completed(ErrorRemove, k + 1), Removed(k)])
       case ErrorRetry => false
  }

  ghost predicate RecordOk(s: State, id: Id)
    requires id in s.jobs
  {
    var h := s.jobs[id];
    && h.max < TWO64 && AllDue(h.payload, h.rounds)
    && (!h.place.Finished? ==> id in s.store)
    && match h.place
       case Held(w) => w < |s.workers| && PhaseOk(s.workers[w], Stored(s, id), h)
       case Finished(status, kept) => (kept <==> id in s.store) && Ended(Stored(s, id), h, status, kept)
       case _ => Waiting(Stored(s, id), h)
  }

  ghost predicate Records(s: State) {
    && (forall id {:trigger RecordOk(s, id)} :: id in s.jobs ==> RecordOk(s, id))
    && (forall id :: id in s.store ==> id in s.jobs)
  }

  ghost predicate Inv(s: State) {
    Placed(s) && Records(s)
  }

  ghost predicate OnAJob(s: State, w: nat) {
    w < |s.workers| && !s.workers[w].Idle? && s.workers[w].id in s.jobs
  }

  /** Nothing but the worker and its job changed. */
  ghost predicate SameButJob(s: State, s': State, w: nat)
    requires OnAJob(s, w)
  {
    var id := s.workers[w].id;
    && |s'.workers| == |s.workers| && s'.workers == s.workers[w := s'.workers[w]]
    && id in s'.jobs && s'.jobs == s.jobs[id := s'.jobs[id]]
    && s'.store - {id} == s.store - {id}
  }

  // ---- Moves between places ----

  /** The step left the queues and the places of the known jobs alone. */
  lemma StaysPlaced(s: State, s': State)
    requires Placed(s)
    requires s'.ready == s.ready && s'.later == s.later && |s'.workers| == |s.workers|
    requires forall w: nat, id :: w < |s.workers| ==> (Holds(s'.workers[w], id) <==> Holds(s.workers[w], id))
    requires forall id, p :: p != Created ==> (Sits(s', id, p) <==> Sits(s, id, p))
    ensures Placed(s')
  {
    hide Z.Valid, Z.Members, Sits, Holds;
  }

  /** A job that was created, or held and let go, enters a queue. */
  lemma Enters(s: State, s': State, id: Id, at: Option<int>)
    requires Placed(s) && id in s.jobs && (s.jobs[id].place.Created? || s.jobs[id].place.Held?)
    requires at.None? ==> s'.ready == s.ready + [id] && s'.later == s.later
    requires at.Some? ==> s'.ready == s.ready && s'.later == Z.Add(s.later, Z.Entry(at.value, id), Before)
    requires |s'.workers| == |s.workers|
    requires forall w: nat, x :: w < |s.workers| ==> (Holds(s'.workers[w], x) <==> x != id && Holds(s.workers[w], x))
    requires forall x, p ::
        Sits(s', x, p) <==> if x == id then p == (if at.None? then Ready else Later) else Sits(s, x, p)
    ensures Placed(s')
  {
    assert id !in s.ready && id !in Z.Members(s.later) by {
      assert !Sits(s, id, Ready) && !Sits(s, id, Later);
    }
    if at.Some? {
      Z.AddContains(s.later, Z.Entry(at.value, id), Before);
    }
    hide Z.Valid, Z.Members, Z.Add, Sits, Holds;
  }

  /** A worker takes a job out of a queue. */
  lemma LeavesQueue(s: State, s': State, id: Id, w: nat)
    requires Placed(s) && w < |s.workers| && s.workers[w].Idle?
    requires Sits(s, id, Ready) || Sits(s, id, Later)
    requires s'.workers == s.workers[w := Popped(id)]
    requires NoDup(s'.ready) && forall x :: x in s'.ready <==> x in s.ready && x != id
    requires Z.Valid(s'.later) && forall x :: x in Z.Members(s'.later) <==> x in Z.Members(s.later) && x != id
    requires forall x, p :: Sits(s', x, p) <==> if x == id then p == Held(w) else Sits(s, x, p)
    ensures Placed(s')
  {
    assert forall v: nat :: !Sits(s, id, Held(v));
    hide Z.Valid, Z.Members, Sits;
    assert forall x :: !Holds(s.workers[w], x);
    forall v: nat, x ensures v < |s'.workers| && Holds(s'.workers[v], x) <==> Sits(s', x, Held(v)) {
      assert v < |s.workers| && Holds(s.workers[v], x) <==> Sits(s, x, Held(v));
      assert v < |s.workers| && Holds(s.workers[v], id) <==> Sits(s, id, Held(v));
      assert Sits(s', x, Held(v)) <==> if x == id then v == w else Sits(s, x, Held(v));
    }
    forall x ensures x in s'.ready <==> Sits(s', x, Ready) {
      assert x in s.ready <==> Sits(s, x, Ready);
    }
    forall x ensures x in Z.Members(s'.later) <==> Sits(s', x, Later) {
      assert x in Z.Members(s.later) <==> Sits(s, x, Later);
    }
  }

  // ---- Each step keeps the places ----

  lemma TakeReady(s: State, w: nat)
    requires Placed(s) && Enabled(s, PopReady(w))
    ensures Placed(Step(s, PopReady(w)))
  {
    var id := s.ready[0];
    var s' := Step(s, PopReady(w));
    assert id in s.ready && Sits(s, id, Ready);
    assert s.ready == [id] + s'.ready;
    LeavesQueue(s, s', id, w);
  }

  lemma TakeLater(s: State, w: nat, now: int)
    requires Placed(s) && Enabled(s, PopLater(w, now))
    ensures Placed(Step(s, PopLater(w, now)))
  {
    var (later, id) := PopExpired(s.later, now);
    if id.Some? {
      PopsEarliest(s.later, now);
      assert Sits(s, id.value, Later);
      hide Z.Valid, Z.Members, PopExpired;
      LeavesQueue(s, Step(s, PopLater(w, now)), id.value, w);
    }
  }

  /**
    The delayed pop returns a member of the lowest score, not before that score, and removes this
    member and no other; it returns nothing exactly if no score has come.
   */
  lemma PopsEarliest(z: seq<Z.Entry<Id>>, now: int)
    requires Z.Valid(z)
    ensures var (rest, id) := PopExpired(z, now);
      && Z.Valid(rest)
      && (id.None? <==> forall x :: x in z ==> x.score > now)
      && (id.None? ==> rest == z)
      && (id.Some? ==>
            && z != [] && id.value == z[0].member && z[0].score <= now
            && (forall x :: x in z ==> z[0].score <= x.score)
            && id.value in Z.Members(z)
            && (forall m :: m in Z.Members(rest) <==> m in Z.Members(z) && m != id.value))
  {
    Z.RangeIsPrefix(z, now);
    if z != [] {
      Z.FirstRemoved(z);
      assert z[0] in z && Z.Members(z)[0] in Z.Members(z);
    }
    if Z.RangeByScore(z, now) == [] {
      assert z[0..] == z;
    } else {
      assert z[..|Z.RangeByScore(z, now)|][0] == z[0];
    }
  }

  lemma QueuePlaced(s: State, w: nat, id: Id, at: Option<int>)
    requires Placed(s) && w < |s.workers| && Sits(s, id, Held(w))
    ensures Placed(Queue(Goto(s, w, Idle), id, at))
  {
    assert Holds(s.workers[w], id);
    var s' := Queue(Goto(s, w, Idle), id, at);
    forall v: nat, x | v < |s.workers|
      ensures Holds(s'.workers[v], x) <==> x != id && Holds(s.workers[v], x)
    {
      assert Holds(s.workers[v], id) <==> Sits(s, id, Held(v));
    }
    Enters(s, s', id, at);
  }

  lemma NoneHolds(s: State, id: Id)
    requires Placed(s) && Sits(s, id, Created)
    ensures forall w: nat :: w < |s.workers| ==> !Holds(s.workers[w], id)
  {
    forall w: nat | w < |s.workers| ensures !Holds(s.workers[w], id) {
      assert Holds(s.workers[w], id) <==> Sits(s, id, Held(w));
    }
  }

  /** A worker settles a job for good. */
  lemma Closes(s: State, s': State, w: nat, id: Id)
    requires Placed(s) && w < |s.workers| && Sits(s, id, Held(w))
    requires s'.ready == s.ready && s'.later == s.later && s'.workers == s.workers[w := Idle]
    requires id in s'.jobs && s'.jobs[id].place.Finished?
    requires forall x, p :: x != id ==> (Sits(s', x, p) <==> Sits(s, x, p))
    ensures Placed(s')
  {
    assert forall p :: Sits(s, id, p) ==> p == Held(w);
    assert forall p :: Sits(s', id, p) ==> p.Finished?;
    hide Z.Valid, Z.Members, Sits;
    assert Holds(s.workers[w], id);
    forall v: nat, x ensures v < |s'.workers| && Holds(s'.workers[v], x) <==> Sits(s', x, Held(v)) {
      assert v < |s.workers| && Holds(s.workers[v], x) <==> Sits(s, x, Held(v));
    }
    forall x ensures x in s'.ready <==> Sits(s', x, Ready) {
      assert x in s.ready <==> Sits(s, x, Ready);
    }
    forall x ensures x in Z.Members(s'.later) <==> Sits(s', x, Later) {
      assert x in Z.Members(s.later) <==> Sits(s, x, Later);
    }
  }

  /** The worker goes on with its job, which stays where it is. */
  lemma GoesOn(s: State, s': State, w: nat)
    requires Placed(s) && OnAJob(s, w) && SameButJob(s, s', w)
    requires s'.ready == s.ready && s'.later == s.later
    requires var id := s.workers[w].id;
      Holds(s'.workers[w], id) && s'.jobs[id].place == s.jobs[id].place
    ensures Placed(s')
  {
    hide ReadyOk, LaterOk;
    StaysPlaced(s, s');
  }

  lemma SettleSame(s: State, w: nat, clean: bool)
    requires OnAJob(s, w) && s.workers[w].Settling?
    ensures SameButJob(s, SettleStep(s, w, clean), w)
  {
    hide Merge, PersistedDelay, Named, ReportedTries;
    match s.workers[w].work.status
    case NoError =>
      if clean { assert SameButJob(s, SettleStep(s, w, true), w); }
    case ErrorRemove =>
    case ErrorRetry =>
  }

  lemma SettlePlaced(s: State, w: nat, clean: bool)
    requires Placed(s) && OnAJob(s, w) && s.workers[w].Settling?
    ensures Placed(SettleStep(s, w, clean))
  {
    var id, s' := s.workers[w].id, SettleStep(s, w, clean);
    assert Holds(s.workers[w], id) && Sits(s, id, Held(w));
    SettleSame(s, w, clean);
    hide ReadyOk, LaterOk, HeldOk, Merge, PersistedDelay, Named, ReportedTries;
    if s.workers[w].work.status == ErrorRetry {
      GoesOn(s, s', w);
    } else {
      Closes(s, s', w, id);
    }
  }

  lemma CompletePlaced(s: State, w: nat)
    requires Placed(s) && OnAJob(s, w) && s.workers[w].Working?
    ensures Placed(CompleteStep(s, w))
  {
    hide Placed, Persisted, Rest;
    GoesOn(s, CompleteStep(s, w), w);
  }

  lemma RetryPlaced(s: State, w: nat)
    requires Placed(s) && OnAJob(s, w) && s.workers[w].Delaying?
    ensures Placed(RetryStep(s, w))
  {
    hide Placed, Merge, Named, ReportedTries;
    GoesOn(s, RetryStep(s, w), w);
  }

  lemma AdvancePlaced(s: State, w: nat, clean: bool, now: int)
    requires Placed(s) && Enabled(s, Advance(w, clean, now))
    ensures Placed(Step(s, Advance(w, clean, now)))
  {
    assert Holds(s.workers[w], s.workers[w].id) && Sits(s, s.workers[w].id, Held(w));
    hide Placed, Queue, CompleteStep, SettleStep, RetryStep;
    match s.workers[w]
    case Working(_, _) => CompletePlaced(s, w);
    case Settling(_, _) => SettlePlaced(s, w, clean);
    case Delaying(_, _, _) => RetryPlaced(s, w);
    case Requeueing(id, delay) => QueuePlaced(s, w, id, if delay == 0 then None else Some(now + delay));
  }

  lemma StepPlaced(s: State, a: Action)
    requires Placed(s) && Enabled(s, a)
    ensures Placed(Step(s, a))
  {
    match a
    case Create(id, max, name, payload, now) => StaysPlaced(s, Step(s, a));
    case Enqueue(id, at) =>
      NoneHolds(s, id);
      Enters(s, Step(s, a), id, at);
    case Announce(id) => StaysPlaced(s, Step(s, a));
    case PopReady(w) => TakeReady(s, w);
    case PopLater(w, now) => TakeLater(s, w, now);
    case Load(w) => StaysPlaced(s, Step(s, a));
    case Begin(w, registered, o) => StaysPlaced(s, Step(s, a));
    case Advance(w, clean, now) => AdvancePlaced(s, w, clean, now);
  }

  // ---- Each step keeps what is known about the job ----

  lemma WordNext(k: nat)
    ensures Next(Word(k)) == Word(k + 1)
    ensures k < TWO64 ==> Word(k) == k
  {
  }

  lemma BeginResult(d: Data, h: Job, registered: set<string>, o: Outcome)
    requires Waiting(d, h) && h.max < TWO64
    ensures var work := Work(d, registered, o);
      && Result(work, BegunJob(h, work, o), h.runs)
      && (!work.ran ==> h.payload.className !in registered)
  {
    WordNext(h.runs);
    WorkOnFull(d, registered, o, h.max, h.name, h.payload, Word(h.runs));
    WorkPersists(d, registered, o, h.payload);
    hide Work, Story, Attempts, Word, Next, PersistedDelay, LastDelay, Asked, Told, Full, Core, RetryCondition;
    if !Work(d, registered, o).ran {
      assert Work(d, registered, o).data == d;
    }
  }

  lemma BeginKeeps(d: Data, h: Job, registered: set<string>, o: Outcome)
    requires Waiting(d, h) && h.max < TWO64
    ensures var work := Work(d, registered, o);
      && Starting(d, BegunJob(h, work, o), work)
      && (!work.ran ==> h.payload.className !in registered)
  {
    BeginResult(d, h, registered, o);
    var work := Work(d, registered, o);
    assert h.name == "" ==> First(work) == [];
    hide Work, Story, Attempts, Word, PersistedDelay, LastDelay, Result, Full, First;
    assert h.events + First(work) == if h.name == "" then [] else Story(h.rounds) + First(work);
  }

  /** A run persists a delay exactly if it failed and asked for a positive one. */
  lemma WorkPersists(d: Data, registered: set<string>, o: Outcome, p: JobPayload)
    requires Payload in d && d[Payload] == Json(p)
    ensures var w := Work(d, registered, o);
      w.ran ==> w.persisted == Asked(p, w.status, o.retryAfter)
  {
  }

  lemma CompleteKeeps(d: Data, h: Job, work: Worked, h': Job)
    requires Starting(d, h, work)
    requires h' == h.(failures := h.failures + Count(work.ran && work.status != NoError),
        events := h.events + Rest(work))
    ensures Completing(Persisted(d, work), h', work)
  {
    hide Attempts, Story, Word, RetryCondition, LastDelay, Asked;
    assert First(work) + Rest(work) == work.events;
    assert (Story(h.rounds) + First(work)) + Rest(work) == Story(h.rounds) + work.events;
    if h.name == "" { assert work.events == []; }
  }

  lemma CoreFacts(d: Data, h: Job, t: nat)
    requires Core(d, h.max, h.name, t) && t < TWO64
    ensures Named(d) <==> h.name != ""
    ensures ReportedTries(d) == t
  {
  }

  lemma MergedFull(d: Data, h: Job, work: Worked)
    requires Begun(d, h, work)
    ensures Full(Merge(d, work.data), h.max, h.name, h.payload,
        if work.status == ErrorRetry then Word(h.runs) else Word(h.runs - 1))
    ensures Named(work.data) <==> h.name != ""
    ensures ReportedTries(work.data) == if work.status == ErrorRetry then Word(h.runs) else Word(h.runs - 1)
  {
    var k := Attempts(h.rounds);
    var u := if work.status == ErrorRetry then Word(h.runs) else Word(k);
    assert Core(work.data, h.max, h.name, u);
    MergeKeepsFull(d, work.data, h.max, h.name, h.payload, Word(k), u);
    CoreFacts(work.data, h, u);
  }

  /** A last failure is the max-th. */
  lemma LastFailure(h: Job, k: nat)
    requires h.max < TWO64 && Below(h, k) && RetryCondition(Word(k + 1), h.max) == ErrorRemove
    ensures 0 < h.max == k + 1 && Word(k) == k && Word(k + 1) == k + 1
  {
  }

  lemma RemoveKeeps(d: Data, h: Job, work: Worked, h': Job)
    requires Completing(d, h, work) && work.status == ErrorRemove && h.max < TWO64
    requires h' == h.(place := Finished(ErrorRemove, true),
                      events := h.events + if Named(work.data) then [Removed(ReportedTries(work.data))] else [])
    ensures Ended(Merge(d, work.data), h', ErrorRemove, true)
  {
    var k := Attempts(h.rounds);
    MergedFull(d, h, work);
    LastFailure(h, k);
    hide Attempts, Story, Word, RetryCondition, Merge, Named, ReportedTries;
    if h.name != "" {
      assert (Story(h.rounds) + work.events) + [Removed(k)]
          == Story(h.rounds) + [Started(k), Completed(ErrorRemove, k + 1), Removed(k)];
    }
  }

  lemma DoneKeeps(d: Data, h: Job, work: Worked, clean: bool, h': Job)
    requires Completing(d, h, work) && work.status == NoError
    requires h' == h.(place := Finished(NoError, !clean))
    ensures Ended(if clean then map[] else Merge(d, work.data), h', NoError, !clean)
  {
    MergedFull(d, h, work);
    hide Attempts, Story, Word, RetryCondition, Merge, Named, ReportedTries;
  }

  lemma StoryGrows(rounds: seq<Round>, r: Round)
    ensures Story(rounds + [r]) == Story(rounds) + Chapter(Attempts(rounds), r)
    ensures Attempts(rounds + [r]) == Attempts(rounds) + Count(r.ran)
  {
    assert (rounds + [r])[..|rounds|] == rounds;
  }

  lemma RetryBelow(h: Job, k: nat)
    requires h.max < TWO64 && Below(h, k) && RetryCondition(Word(k + 1), h.max) == ErrorRetry
    ensures Below(h, k + 1)
  {
  }

  /** Merging the map of a worker back does not change the delay. */
  lemma MergeKeepsDelay(d: Data, h: Job, work: Worked)
    requires Completing(d, h, work)
    ensures PersistedDelay(Merge(d, work.data)) == PersistedDelay(d)
  {
    hide Attempts, Story, Word, Full, Core, Told, LastDelay, Asked, RetryCondition;
  }

  /** The callbacks of the round that ends are its chapter. */
  lemma ChapterEnds(story: seq<Event>, k: nat, work: Worked, r: Round)
    requires r.ran == work.ran && (!work.ran ==> work.events == [])
    requires work.ran ==> work.events == [Started(Word(k)), Completed(ErrorRetry, Word(k + 1))]
    ensures (story + work.events) + [Retry(Word(k + Count(work.ran)), r.delay)] == story + Chapter(k, r)
  {
    hide Word;
    var e := Retry(Word(k + Count(work.ran)), r.delay);
    assert work.events + [e] == Chapter(k, r);
    assert (story + work.events) + [e] == story + (work.events + [e]);
  }

  lemma RetryTells(d: Data, h: Job, work: Worked, delay: int)
    requires Completing(d, h, work) && work.status == ErrorRetry
    ensures Told(RetriedJob(h, work, delay), [])
  {
    var k := Attempts(h.rounds);
    var r := Round(work.ran, h.asked, delay);
    MergedFull(d, h, work);
    StoryGrows(h.rounds, r);
    hide Attempts, Story, Chapter, Word, RetryCondition, Merge, Named, ReportedTries,
        PersistedDelay, LastDelay, Wanted, Full, Core;
    if h.name != "" {
      assert h.events == Story(h.rounds) + work.events && h.runs == k + Count(work.ran);
      ChapterEnds(Story(h.rounds), k, work, r);
    }
  }

  lemma RetryKeeps(d: Data, h: Job, work: Worked, delay: int)
    requires Completing(d, h, work) && work.status == ErrorRetry && h.max < TWO64 && delay == PersistedDelay(d)
    requires AllDue(h.payload, h.rounds)
    ensures Waiting(Merge(d, work.data), RetriedJob(h, work, delay))
    ensures AllDue(h.payload, RetriedJob(h, work, delay).rounds)
  {
    var r := Round(work.ran, h.asked, delay);
    RetryTells(d, h, work, delay);
    MergedFull(d, h, work);
    MergeKeepsDelay(d, h, work);
    StoryGrows(h.rounds, r);
    RetryDue(d, h, work, delay);
    if work.ran {
      RetryBelow(h, Attempts(h.rounds));
    }
    hide Attempts, Story, Word, RetryCondition, Merge, Named, ReportedTries, Told, Full, AllDue, PersistedDelay, Wanted;
  }

  lemma RetryDue(d: Data, h: Job, work: Worked, delay: int)
    requires Completing(d, h, work) && work.status == ErrorRetry && delay == PersistedDelay(d)
    requires AllDue(h.payload, h.rounds)
    ensures AllDue(h.payload, h.rounds + [Round(work.ran, h.asked, delay)])
  {
    hide Attempts, Story, Word, RetryCondition, Told, Full, Core, PersistedDelay, Wanted, LastDelay;
    var r := Round(work.ran, h.asked, delay);
    var rounds := h.rounds + [r];
    assert delay == Due(h.payload, h.rounds, r);
    forall i: nat | i < |rounds| ensures DueAt(h.payload, rounds, i) {
      assert rounds[..i] == h.rounds[..i];
      if i < |h.rounds| {
        assert DueAt(h.payload, h.rounds, i);
      }
    }
  }

  /** A step on one job leaves what is known about the others. */
  lemma OneJob(s: State, s': State, id: Id)
    requires Records(s) && Placed(s)
    requires forall x :: x != id && x in s.jobs ==> x in s'.jobs && s'.jobs[x] == s.jobs[x]
    requires forall x :: x in s'.jobs ==> x == id || x in s.jobs
    requires forall x :: x != id ==> (x in s'.store <==> x in s.store) && Stored(s', x) == Stored(s, x)
    requires |s'.workers| == |s.workers|
    requires forall v: nat, x :: v < |s.workers| && x != id && Holds(s.workers[v], x) ==> s'.workers[v] == s.workers[v]
    requires id in s'.jobs && RecordOk(s', id)
    ensures Records(s')
  {
    forall x | x in s'.jobs && x != id ensures RecordOk(s', x) {
      assert RecordOk(s, x);
      hide Ended, PhaseOk, Waiting;
      var p := s.jobs[x].place;
      if p.Held? {
        assert Sits(s, x, Held(p.w));
        assert Holds(s.workers[p.w], x);
      }
    }
  }

  lemma StepRecords(s: State, a: Action)
    requires Inv(s) && Enabled(s, a)
    ensures Records(Step(s, a))
  {
    hide Records, Z.Valid, Z.Members, PopExpired, BeginStep, Queue;
    match a
    case Create(id, max, name, payload, now) => CreateRecords(s, a);
    case Enqueue(id, at) => EnqueueRecords(s, a);
    case Announce(id) => AnnounceRecords(s, a);
    case PopReady(w) =>
      assert s.ready[0] in s.ready;
      TakeRecords(s, Step(s, a), s.ready[0], w);
    case PopLater(w, now) =>
      PopsEarliest(s.later, now);
      var id := PopExpired(s.later, now).1;
      if id.Some? {
        TakeRecords(s, Step(s, a), id.value, w);
      }
    case Load(w) => LoadRecords(s, a);
    case Begin(w, registered, o) => BeginRecords(s, w, registered, o);
    case Advance(w, clean, now) => AdvanceRecords(s, a);
  }

  lemma Unused(s: State, id: Id)
    requires Inv(s) && id !in s.jobs
    ensures id !in s.store
  {
    hide Placed, RecordOk;
  }

  lemma CreateRecords(s: State, a: Action)
    requires Inv(s) && Enabled(s, a) && a.Create?
    ensures Records(Step(s, a))
  {
    hide Inv, Records, Waiting, NewData, AllDue, PhaseOk, Ended;
    var s' := Step(s, a);
    Unused(s, a.id);
    assert Stored(s', a.id) == NewData(a.max, a.name, a.payload, a.now);
    NewJobWaits(a.max, a.name, a.payload, a.now);
    assert RecordOk(s', a.id);
    hide RecordOk;
    CreateOthers(s, s', a.id);
  }

  lemma NewJobWaits(max: nat, name: string, payload: JobPayload, now: int)
    requires max < TWO64
    ensures Waiting(NewData(max, name, payload, now), Job(max, name, payload, Created, 0, 0, [], [], None, None))
    ensures AllDue(payload, [])
  {
  }

  lemma CreateOthers(s: State, s': State, id: Id)
    requires Inv(s) && id !in s.jobs && id in s'.jobs && RecordOk(s', id) && s'.workers == s.workers
    requires s'.jobs == s.jobs[id := s'.jobs[id]] && s'.store == s.store[id := Stored(s', id)]
    ensures Records(s')
  {
    hide ReadyOk, LaterOk, RecordOk;
    OneJob(s, s', id);
  }

  lemma EnqueueRecords(s: State, a: Action)
    requires Inv(s) && Enabled(s, a) && a.Enqueue?
    ensures Records(Step(s, a))
  {
    hide PhaseOk, Ended, Full, Attempts, Story, Z.Add, Z.Valid;
    var s' := Step(s, a);
    assert RecordOk(s, a.id);
    assert Waiting(Stored(s', a.id), s'.jobs[a.id]);
    hide Waiting;
    OneJob(s, s', a.id);
  }

  lemma AnnounceRecords(s: State, a: Action)
    requires Inv(s) && Enabled(s, a) && a.Announce?
    ensures Records(Step(s, a))
  {
    hide Full, Attempts, Story, Word, Result;
    var s' := Step(s, a);
    assert RecordOk(s, a.id);
    SameRecord(s, s', a.id);
    hide Waiting, PhaseOk, Ended;
    OneJob(s, s', a.id);
  }

  /** What is known about a job does not depend on when it was announced. */
  lemma SameRecord(s: State, s': State, id: Id)
    requires id in s.jobs && RecordOk(s, id)
    requires exists q: Option<nat> :: s' == Edit(s, id, s.jobs[id].(queued := q))
    ensures RecordOk(s', id)
  {
    hide Full, Attempts, Story, Word, RetryCondition, Core, PersistedDelay, LastDelay, Wanted, AllDue;
  }

  lemma TakeRecords(s: State, s': State, id: Id, w: nat)
    requires Inv(s) && w < |s.workers| && s.workers[w].Idle?
    requires Sits(s, id, Ready) || Sits(s, id, Later)
    requires s'.store == s.store && s'.workers == s.workers[w := Popped(id)]
    requires s'.jobs == s.jobs[id := s.jobs[id].(place := Held(w))]
    ensures Records(s')
  {
    hide ReadyOk, LaterOk, Full, Attempts, Story;
    assert RecordOk(s, id);
    assert Waiting(Stored(s', id), s'.jobs[id]);
    hide Waiting, Ended;
    assert RecordOk(s', id);
    OneJob(s, s', id);
  }

  /** What a busy worker knows. */
  lemma Busy(s: State, w: nat)
    requires Inv(s) && w < |s.workers| && !s.workers[w].Idle?
    ensures OnAJob(s, w)
    ensures var id := s.workers[w].id;
      && s.jobs[id].place == Held(w) && id in s.store && s.jobs[id].max < TWO64
      && AllDue(s.jobs[id].payload, s.jobs[id].rounds)
      && PhaseOk(s.workers[w], Stored(s, id), s.jobs[id])
  {
    hide PhaseOk;
    var id := s.workers[w].id;
    assert Holds(s.workers[w], id);
    assert Sits(s, id, Held(w));
    assert RecordOk(s, id);
  }

  /** A step of a busy worker on its job. */
  lemma HeldStep(s: State, s': State, w: nat)
    requires Inv(s) && OnAJob(s, w) && SameButJob(s, s', w) && RecordOk(s', s.workers[w].id)
    ensures Records(s')
  {
    var id := s.workers[w].id;
    Busy(s, w);
    hide ReadyOk, LaterOk, RecordOk, PhaseOk;
    forall x | x != id ensures (x in s'.store <==> x in s.store) && Stored(s', x) == Stored(s, x) {
      assert x in s'.store <==> x in s'.store - {id};
      assert x in s.store <==> x in s.store - {id};
      if x in s.store { assert (s'.store - {id})[x] == (s.store - {id})[x]; }
    }
    OneJob(s, s', id);
  }

  lemma LoadRecords(s: State, a: Action)
    requires Inv(s) && Enabled(s, a) && a.Load?
    ensures Records(Step(s, a))
  {
    Busy(s, a.w);
    hide Inv, Waiting, Ended;
    HeldStep(s, Step(s, a), a.w);
  }

  lemma BeginRecord(s: State, w: nat, registered: set<string>, o: Outcome)
    requires Inv(s) && OnAJob(s, w) && s.workers[w].Loaded?
    ensures RecordOk(BeginStep(s, w, registered, o), s.workers[w].id)
  {
    hide Inv, Work, Waiting, Ended, Starting, Begun, Told, Attempts, First, AllDue;
    Busy(s, w);
    var id, s' := s.workers[w].id, BeginStep(s, w, registered, o);
    BeginKeeps(Stored(s, id), s.jobs[id], registered, o);
  }

  lemma BeginRecords(s: State, w: nat, registered: set<string>, o: Outcome)
    requires Inv(s) && OnAJob(s, w) && s.workers[w].Loaded?
    ensures Records(BeginStep(s, w, registered, o))
  {
    BeginRecord(s, w, registered, o);
    hide Inv, RecordOk, Records, Work, First;
    HeldStep(s, BeginStep(s, w, registered, o), w);
  }

  lemma CompleteRecord(s: State, w: nat)
    requires Inv(s) && OnAJob(s, w) && s.workers[w].Working?
    ensures RecordOk(CompleteStep(s, w), s.workers[w].id)
  {
    hide Inv, Waiting, Ended, Starting, Begun, Completing, Told, Merge, Attempts, Rest, First, AllDue;
    Busy(s, w);
    var id, work, s' := s.workers[w].id, s.workers[w].work, CompleteStep(s, w);
    CompleteKeeps(Stored(s, id), s.jobs[id], work, s'.jobs[id]);
  }

  lemma CompleteRecords(s: State, w: nat)
    requires Inv(s) && OnAJob(s, w) && s.workers[w].Working?
    ensures Records(CompleteStep(s, w))
  {
    CompleteRecord(s, w);
    hide Inv, RecordOk, Records, Persisted, Rest;
    HeldStep(s, CompleteStep(s, w), w);
  }

  lemma SettleRecord(s: State, w: nat, clean: bool)
    requires Inv(s) && OnAJob(s, w) && s.workers[w].Settling?
    ensures RecordOk(SettleStep(s, w, clean), s.workers[w].id)
  {
    hide Inv, Merge, Waiting, Ended, Completing, Begun, Told, PersistedDelay, Named, ReportedTries, AllDue;
    Busy(s, w);
    var id, work, s' := s.workers[w].id, s.workers[w].work, SettleStep(s, w, clean);
    var d, h, h' := Stored(s, id), s.jobs[id], s'.jobs[id];
    if work.status == NoError {
      DoneKeeps(d, h, work, clean, h');
    } else if work.status == ErrorRemove {
      RemoveKeeps(d, h, work, h');
    }
  }

  lemma SettleRecords(s: State, w: nat, clean: bool)
    requires Inv(s) && OnAJob(s, w) && s.workers[w].Settling?
    ensures Records(SettleStep(s, w, clean))
  {
    SettleRecord(s, w, clean);
    SettleSame(s, w, clean);
    hide Inv, RecordOk, Records, SettleStep;
    HeldStep(s, SettleStep(s, w, clean), w);
  }

  lemma RetryRecord(s: State, w: nat)
    requires Inv(s) && OnAJob(s, w) && s.workers[w].Delaying?
    ensures RecordOk(RetryStep(s, w), s.workers[w].id)
  {
    hide Inv, Merge, Waiting, Ended, Completing, Begun, Told, PersistedDelay, Named, ReportedTries, AllDue;
    Busy(s, w);
    var Delaying(id, work, delay) := s.workers[w];
    RetryKeeps(Stored(s, id), s.jobs[id], work, delay);
  }

  lemma RetryRecords(s: State, w: nat)
    requires Inv(s) && OnAJob(s, w) && s.workers[w].Delaying?
    ensures Records(RetryStep(s, w))
  {
    RetryRecord(s, w);
    hide Inv, RecordOk, Records, Merge, Named, ReportedTries;
    HeldStep(s, RetryStep(s, w), w);
  }

  lemma RequeueRecords(s: State, w: nat, at: Option<int>)
    requires Inv(s) && OnAJob(s, w) && s.workers[w].Requeueing?
    ensures Records(Queue(Goto(s, w, Idle), s.workers[w].id, at))
  {
    Busy(s, w);
    hide Inv, Ended, Z.Add, Full, Attempts, Story;
    var id := s.workers[w].id;
    var s' := Queue(Goto(s, w, Idle), id, at);
    assert Waiting(Stored(s', id), s'.jobs[id]);
    hide Waiting;
    HeldStep(s, s', w);
  }

  lemma AdvanceRecords(s: State, a: Action)
    requires Inv(s) && Enabled(s, a) && a.Advance?
    ensures Records(Step(s, a))
  {
    hide Inv, Records, PhaseOk, CompleteStep, SettleStep, RetryStep, Queue;
    assert OnAJob(s, a.w);
    match s.workers[a.w]
    case Working(_, _) => CompleteRecords(s, a.w);
    case Settling(_, _) => SettleRecords(s, a.w, a.clean);
    case Delaying(_, _, _) => RetryRecords(s, a.w);
    case Requeueing(_, delay) => RequeueRecords(s, a.w, if delay == 0 then None else Some(a.now + delay));
  }

  lemma StepInv(s: State, a: Action)
    requires Inv(s) && Enabled(s, a)
    ensures Inv(Step(s, a))
  {
    StepPlaced(s, a);
    StepRecords(s, a);
  }
}
