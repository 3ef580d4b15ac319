/** What holds after any run of any number of workers and pushers on one queue. */
module JobQueueRuns {
  import opened Prelude
  import opened JobWork
  import opened JobQueue
  import Z = SortedSet

  lemma InitInv(workers: nat)
    ensures Inv(Init(workers))
  {
  }

  lemma {:induction false} RunInv(s: State, run: seq<Action>)
    requires Inv(s) && Possible(s, run)
    ensures Inv(After(s, run))
    decreases |run|
  {
    if run != [] {
      StepInv(s, run[0]);
      hide Inv, Step, Enabled;
      RunInv(Step(s, run[0]), run[1..]);
    }
  }

  // ---- Conservation ----

  /** The workers that have the job. */
  ghost function Holders(s: State, id: Id): set<nat> {
    set w: nat | w < |s.workers| && Holds(s.workers[w], id)
  }

  /** How often a job is anywhere: in the queues, with workers, not queued yet, or finished. */
  ghost function Copies(s: State, id: Id): nat
    requires id in s.jobs
  {
    multiset(s.ready)[id] + multiset(Z.Members(s.later))[id] + |Holders(s, id)|
    + Count(s.jobs[id].place.Created?) + Count(s.jobs[id].place.Finished?)
  }

  lemma {:induction false} NoDupCount(ids: seq<Id>, id: Id)
    requires NoDup(ids)
    ensures multiset(ids)[id] == Count(id in ids)
  {
    if ids != [] {
      NoDupCount(ids[1..], id);
      assert ids == [ids[0]] + ids[1..];
    }
  }

  lemma {:induction false} UniqueNoDup(z: seq<Z.Entry<Id>>)
    requires Z.Unique(z)
    ensures NoDup(Z.Members(z))
  {
    if z != [] {
      UniqueNoDup(z[1..]);
      forall j | 0 < j < |z| ensures z[j].member != z[0].member {
        assert Z.Members(z[1..])[j - 1] == z[j].member;
      }
    }
  }

  lemma OnePlace(s: State, id: Id)
    requires Placed(s) && id in s.jobs
    ensures Copies(s, id) == 1
  {
    var p := s.jobs[id].place;
    UniqueNoDup(s.later);
    NoDupCount(s.ready, id);
    NoDupCount(Z.Members(s.later), id);
    assert id in s.ready <==> Sits(s, id, Ready);
    assert id in Z.Members(s.later) <==> Sits(s, id, Later);
    hide ReadyOk, LaterOk, NoDup, Z.Valid, Z.Unique, Z.Sorted, Z.Members;
    forall w: nat ensures w in Holders(s, id) <==> p == Held(w) {
      assert w < |s.workers| && Holds(s.workers[w], id) <==> Sits(s, id, Held(w));
    }
    assert Holders(s, id) == if p.Held? then {p.w} else {};
  }

  /**
    After any run every pushed job is in one place, once, and whatever a queue or a worker has is
    a pushed job.
   */
  lemma JobsAreConserved(workers: nat, run: seq<Action>)
    requires Possible(Init(workers), run)
    ensures var s := After(Init(workers), run);
      && (forall id :: id in s.jobs ==> Copies(s, id) == 1)
      && (forall id :: id in s.ready || id in Z.Members(s.later) || Holders(s, id) != {} ==> id in s.jobs)
  {
    InitInv(workers);
    RunInv(Init(workers), run);
    var s := After(Init(workers), run);
    forall id | id in s.jobs ensures Copies(s, id) == 1 {
      OnePlace(s, id);
    }
    hide After, NoDup, Z.Valid, Z.Members, Records;
    forall id | id in s.ready || id in Z.Members(s.later) || Holders(s, id) != {} ensures id in s.jobs {
      if Holders(s, id) != {} {
        var w :| w in Holders(s, id);
        assert Holds(s.workers[w], id);
        assert Sits(s, id, Held(w));
      } else {
        assert Sits(s, id, Ready) || Sits(s, id, Later);
      }
    }
  }

  /** pushToLater never finds its job among the delayed ones, so it never throws. */
  lemma ZaddAlwaysAdds(workers: nat, run: seq<Action>, s: State, id: Id)
    requires Reached(workers, run, s)
    requires Sits(s, id, Created) || exists w: nat :: w < |s.workers| && Holds(s.workers[w], id)
    ensures Z.Added(s.later, id) == 1
  {
    ReachedInv(workers, run, s);
    hide Z.Valid, Z.Members, Reached, Records;
    if !Sits(s, id, Created) {
      var w: nat :| w < |s.workers| && Holds(s.workers[w], id);
      assert Sits(s, id, Held(w));
    }
    assert id in Z.Members(s.later) <==> Sits(s, id, Later);
  }

  // ---- Tries, runs, removal ----

  ghost predicate Reached(workers: nat, run: seq<Action>, s: State) {
    Possible(Init(workers), run) && s == After(Init(workers), run)
  }

  lemma ReachedInv(workers: nat, run: seq<Action>, s: State)
    requires Reached(workers, run, s)
    ensures Inv(s)
  {
    InitInv(workers);
    RunInv(Init(workers), run);
  }

  lemma ReachedRecord(workers: nat, run: seq<Action>, s: State, id: Id)
    requires Reached(workers, run, s) && id in s.jobs
    ensures RecordOk(s, id)
  {
    ReachedInv(workers, run, s);
  }

  lemma QueuedSits(s: State, id: Id)
    requires Placed(s) && (id in s.ready || id in Z.Members(s.later))
    ensures Sits(s, id, Ready) || Sits(s, id, Later)
  {
    hide Z.Valid, Z.Members;
  }

  /**
    While a job is in a queue its stored data is complete, its stored tries are the number of
    times handle() was called, each of these failed, and another one is allowed.
   */
  lemma QueuedJobsAreComplete(workers: nat, run: seq<Action>, s: State, id: Id)
    requires Reached(workers, run, s)
    requires id in s.ready || id in Z.Members(s.later)
    ensures id in s.jobs && id in s.store
    ensures var h := s.jobs[id];
      && s.store[id].Keys >= {Tries, MaxTries, ClassName, Payload}
      && s.store[id][Tries] == Num(Word(h.runs)) && s.store[id][MaxTries] == Num(h.max)
      && s.store[id][ClassName] == Text(h.name) && s.store[id][Payload] == Json(h.payload)
      && h.failures == h.runs
      && (h.max > 0 ==> h.runs < h.max && Word(h.runs) == h.runs)
  {
    hide Z.Members, Z.Valid;
    ReachedInv(workers, run, s);
    QueuedSits(s, id);
    ReachedRecord(workers, run, s, id);
    assert Waiting(Stored(s, id), s.jobs[id]);
    hide Reached, Inv, Z.Members, RecordOk, Waiting;
    WaitingMeans(Stored(s, id), s.jobs[id]);
  }

  lemma WaitingMeans(d: Data, h: Job)
    requires Waiting(d, h) && h.max < TWO64
    ensures d.Keys >= {Tries, MaxTries, ClassName, Payload}
    ensures d[Tries] == Num(Word(h.runs)) && d[MaxTries] == Num(h.max)
    ensures d[ClassName] == Text(h.name) && d[Payload] == Json(h.payload)
    ensures h.failures == h.runs && (h.max > 0 ==> h.runs < h.max && Word(h.runs) == h.runs)
  {
  }

  /**
    A job with a limit is run at most that often, and is removed by a worker when and only when
    all of them failed; a job without a limit is never removed.
   */
  lemma RemovedAfterMaxFailures(workers: nat, run: seq<Action>, s: State, id: Id)
    requires Reached(workers, run, s) && id in s.jobs
    ensures var h := s.jobs[id];
      && h.failures <= h.runs
      && (h.max > 0 ==> h.runs <= h.max)
      && (!h.place.Held? ==> (h.place.Finished? && h.place.status == ErrorRemove <==> h.max > 0 && h.failures == h.max))
      && (h.place.Finished? ==>
            && h.place.status != ErrorRetry
            && h.runs == h.failures + (if h.place.status == NoError then 1 else 0))
  {
    ReachedRecord(workers, run, s, id);
    hide Reached, PhaseOk, Waiting, Ended;
    var h := s.jobs[id];
    match h.place
    case Held(w) => HeldRuns(s.workers[w], Stored(s, id), h);
    case Finished(status, kept) => FinishedRuns(Stored(s, id), h, status, kept);
    case _ => WaitingMeans(Stored(s, id), h);
  }

  lemma HeldRuns(pc: Pc, d: Data, h: Job)
    requires PhaseOk(pc, d, h) && h.max < TWO64
    ensures h.failures <= h.runs && (h.max > 0 ==> h.runs <= h.max)
  {
    hide Attempts, Full, Told, Result, PersistedDelay;
  }

  lemma FinishedRuns(d: Data, h: Job, status: Status, kept: bool)
    requires Ended(d, h, status, kept)
    ensures status != ErrorRetry && h.runs == h.failures + (if status == NoError then 1 else 0)
    ensures h.max > 0 ==> h.runs <= h.max
    ensures status == ErrorRemove <==> h.max > 0 && h.failures == h.max
  {
    hide Attempts, Full, Told;
  }

  /** What a removed job leaves in the store: all its data, with the tries before the last run. */
  lemma RemovedJobsStay(workers: nat, run: seq<Action>, s: State, id: Id)
    requires Reached(workers, run, s) && id in s.jobs
    requires s.jobs[id].place.Finished? && s.jobs[id].place.status == ErrorRemove
    ensures id in s.store && Payload in s.store[id] && s.store[id][Payload] == Json(s.jobs[id].payload)
    ensures Tries in s.store[id] && s.store[id][Tries] == Num(s.jobs[id].max - 1)
  {
    ReachedRecord(workers, run, s, id);
  }

  /**
    No worker finds a job malformed: with the data it loaded the job runs if its class is
    registered, and otherwise is retried with no try counted.
   */
  lemma NeverMalformed(workers: nat, run: seq<Action>, s: State, w: nat, registered: set<string>, o: Outcome)
    requires Reached(workers, run, s)
    requires w < |s.workers| && s.workers[w].Loaded?
    ensures var work := Work(s.workers[w].data, registered, o);
      && s.workers[w].id in s.jobs
      && (work.ran <==> s.jobs[s.workers[w].id].payload.className in registered)
      && (!work.ran ==> work.status == ErrorRetry && work.data == s.workers[w].data)
  {
    ReachedInv(workers, run, s);
    Busy(s, w);
    var h := s.jobs[s.workers[w].id];
    hide Inv, Attempts, Story, Told;
    WorkOnFull(s.workers[w].data, registered, o, h.max, h.name, h.payload, Word(h.runs));
    hide Work, Waiting;
  }

  // ---- Delays ----

  /**
    Every retry of a job is delayed by what the job asked for in that run, set by handle() or
    given by the payload, if this is positive, and otherwise by as much as the retry before it,
    0 for the first.
   */
  lemma EveryRetryIsDue(workers: nat, run: seq<Action>, s: State, id: Id, i: nat)
    requires Reached(workers, run, s) && id in s.jobs && i < |s.jobs[id].rounds|
    ensures var h := s.jobs[id];
      h.rounds[i].delay == Due(h.payload, h.rounds[..i], h.rounds[i])
  {
    ReachedRecord(workers, run, s, id);
    hide Reached, PhaseOk, Waiting, Ended;
    assert DueAt(s.jobs[id].payload, s.jobs[id].rounds, i);
  }

  /**
    A failing run that sets its retryAfter is retried after this delay if and only if the delay
    is positive, or is the one of the retry before.
   */
  lemma NewDelayOverridesIff(workers: nat, run: seq<Action>, s: State, id: Id, i: nat)
    requires Reached(workers, run, s) && id in s.jobs && i < |s.jobs[id].rounds|
    requires s.jobs[id].rounds[i].ran && s.jobs[id].rounds[i].asked.Some?
    ensures var h := s.jobs[id]; var v := h.rounds[i].asked.value;
      h.rounds[i].delay == v <==> v > 0 || v == LastDelay(h.rounds[..i])
  {
    EveryRetryIsDue(workers, run, s, id, i);
    hide Reached;
  }

  /** The delay a worker requeues with is the one of the round it just ended. */
  lemma RequeuesWhenDue(workers: nat, run: seq<Action>, s: State, w: nat)
    requires Reached(workers, run, s)
    requires w < |s.workers| && s.workers[w].Requeueing?
    ensures s.workers[w].id in s.jobs
    ensures var h := s.jobs[s.workers[w].id];
      && h.rounds != [] && s.workers[w].delay == LastDelay(h.rounds)
      && s.workers[w].delay == Due(h.payload, h.rounds[..|h.rounds| - 1], h.rounds[|h.rounds| - 1])
  {
    ReachedInv(workers, run, s);
    Busy(s, w);
    hide Inv, Reached, Waiting, Completing, Starting, Begun, Result, Due;
    var h := s.jobs[s.workers[w].id];
    assert h.rounds != [] && s.workers[w].delay == LastDelay(h.rounds);
    assert DueAt(h.payload, h.rounds, |h.rounds| - 1);
  }

  // ---- The callbacks ----

  lemma {:induction false} StoryLength(rounds: seq<Round>)
    requires forall i :: 0 <= i < |rounds| ==> rounds[i].ran
    ensures Attempts(rounds) == |rounds| && |Story(rounds)| == 3 * |rounds|
  {
    if rounds != [] {
      StoryLength(rounds[..|rounds| - 1]);
    }
  }

  /** From here the callbacks are STARTED, COMPLETED and RETRY of attempt i + 1: i tries before, i + 1 after it. */
  ghost predicate TellsAttempt(events: seq<Event>, from: nat, i: nat, delay: int) {
    && from + 2 < |events|
    && events[from] == Started(Word(i))
    && events[from + 1] == Completed(ErrorRetry, Word(i + 1))
    && events[from + 2] == Retry(Word(i + 1), delay)
  }

  lemma TellsLonger(a: seq<Event>, b: seq<Event>, from: nat, i: nat, delay: int)
    requires TellsAttempt(a, from, i, delay)
    ensures TellsAttempt(a + b, from, i, delay)
  {
    hide Word;
  }

  lemma TellsChapter(a: seq<Event>, i: nat, r: Round)
    requires r.ran
    ensures TellsAttempt(a + Chapter(i, r), |a|, i, r.delay)
  {
    hide Word;
  }

  /** The attempts of a story follow one another, three callbacks each. */
  lemma {:induction false} StoryOfAttempt(rounds: seq<Round>, i: nat)
    requires forall j :: 0 <= j < |rounds| ==> rounds[j].ran
    requires i < |rounds|
    ensures |Story(rounds)| == 3 * |rounds| && TellsAttempt(Story(rounds), 3 * i, i, rounds[i].delay)
    decreases |rounds|
  {
    var n := |rounds| - 1;
    StoryLength(rounds);
    StoryLength(rounds[..n]);
    assert Story(rounds) == Story(rounds[..n]) + Chapter(n, rounds[n]);
    hide Story, Chapter, TellsAttempt;
    if i < n {
      StoryOfAttempt(rounds[..n], i);
      TellsLonger(Story(rounds[..n]), Chapter(n, rounds[n]), 3 * i, i, rounds[i].delay);
    } else {
      TellsChapter(Story(rounds[..n]), n, rounds[n]);
    }
  }

  lemma {:induction false} NotRemovedYet(rounds: seq<Round>)
    ensures forall e :: e in Story(rounds) ==> !e.Removed?
  {
    if rounds != [] {
      NotRemovedYet(rounds[..|rounds| - 1]);
    }
  }

  /** What a worker may have told since the last retry, and when. */
  ghost predicate Tail(p: Place, k: nat, tail: seq<Event>) {
    || (tail == [] && !p.Finished?)
    || (tail == [Started(Word(k))] && p.Held?)
    || (|tail| == 2 && tail[0] == Started(Word(k)) && tail[1].Completed? && tail[1].tries == Word(k + 1)
        && (p.Held? || (p.Finished? && p.status == NoError == tail[1].status)))
    || (tail == [Started(Word(k)), Completed(ErrorRemove, Word(k + 1)), Removed(Word(k))]
        && p == Finished(ErrorRemove, true))
  }

  /**
    The callbacks a job has had are those of its rounds, then a beginning of STARTED COMPLETED,
    and REMOVED exactly if the job was removed; it reports one try less than COMPLETED did.
   */
  lemma CallbacksTellTheStory(workers: nat, run: seq<Action>, s: State, id: Id)
    requires Reached(workers, run, s) && id in s.jobs && s.jobs[id].name != ""
    ensures var h := s.jobs[id]; var k := Attempts(h.rounds);
      && Story(h.rounds) <= h.events && Tail(h.place, k, h.events[|Story(h.rounds)|..])
      && ((exists e :: e in h.events && e.Removed?) <==> h.place == Finished(ErrorRemove, true))
  {
    ReachedRecord(workers, run, s, id);
    TailOf(s, id);
    var h := s.jobs[id];
    hide RecordOk, Reached;
    RemovedIsLast(h, Story(h.rounds), h.events[|Story(h.rounds)|..]);
  }

  lemma RemovedIsLast(h: Job, story: seq<Event>, tail: seq<Event>)
    requires story == Story(h.rounds) && h.events == story + tail && Tail(h.place, Attempts(h.rounds), tail)
    ensures (exists e :: e in h.events && e.Removed?) <==> h.place == Finished(ErrorRemove, true)
  {
    NotRemovedYet(h.rounds);
    hide Story, Attempts, Word;
    if h.place == Finished(ErrorRemove, true) {
      assert tail[2] in h.events && tail[2].Removed?;
    }
  }

  lemma TailOf(s: State, id: Id)
    requires id in s.jobs && RecordOk(s, id) && s.jobs[id].name != ""
    ensures var h := s.jobs[id];
      Story(h.rounds) <= h.events && Tail(h.place, Attempts(h.rounds), h.events[|Story(h.rounds)|..])
  {
    var h := s.jobs[id];
    hide Full, Core, PersistedDelay, Attempts, Story, Word;
    match h.place
    case Held(w) => HeldTail(s.workers[w], Stored(s, id), h);
    case Finished(status, kept) => FinishedTail(Stored(s, id), h, status, kept);
    case _ => ToldTail(h, []);
  }

  lemma ToldTail(h: Job, tail: seq<Event>)
    requires Told(h, tail) && h.name != ""
    ensures Story(h.rounds) <= h.events && h.events[|Story(h.rounds)|..] == tail
  {
    hide Story;
  }

  lemma HeldTail(pc: Pc, d: Data, h: Job)
    requires PhaseOk(pc, d, h) && h.place.Held? && h.name != ""
    ensures Story(h.rounds) <= h.events && Tail(h.place, Attempts(h.rounds), h.events[|Story(h.rounds)|..])
  {
    hide Full, Core, PersistedDelay, Attempts, Story, Word, Told, RetryCondition;
    match pc
    case Working(_, work) => ToldTail(h, First(work));
    case Settling(_, work) => ToldTail(h, work.events);
    case Delaying(_, work, _) => ToldTail(h, work.events);
    case _ => ToldTail(h, []);
  }

  lemma FinishedTail(d: Data, h: Job, status: Status, kept: bool)
    requires Ended(d, h, status, kept) && h.place == Finished(status, kept) && h.max < TWO64 && h.name != ""
    ensures Story(h.rounds) <= h.events && Tail(h.place, Attempts(h.rounds), h.events[|Story(h.rounds)|..])
  {
    var k := Attempts(h.rounds);
    assert status == ErrorRemove ==> Word(k) == k && Word(k + 1) == k + 1;
    hide Full, Attempts, Story, Word, Told;
    if status == NoError {
      ToldTail(h, [Started(Word(k)), Completed(NoError, Word(k + 1))]);
    } else {
      ToldTail(h, [Started(k), Completed(ErrorRemove, k + 1), Removed(k)]);
    }
  }

  // ---- When all classes are registered ----

  /** Every job pushed has its class in names, and every worker knows all of names. */
  ghost predicate AllRegistered(run: seq<Action>, names: set<string>) {
    forall a :: a in run ==>
      && (a.Create? ==> a.payload.className in names)
      && (a.Begin? ==> names <= a.registered)
  }

  ghost predicate Unbounced(h: Job, names: set<string>) {
    h.payload.className in names && forall i :: 0 <= i < |h.rounds| ==> h.rounds[i].ran
  }

  ghost predicate NoBounces(s: State, names: set<string>) {
    && (forall id :: id in s.jobs ==> Unbounced(s.jobs[id], names))
    && (forall w: nat :: w < |s.workers| && HasWork(s.workers[w]) ==> s.workers[w].work.ran)
  }

  lemma SameUnbounced(h: Job, h': Job, names: set<string>)
    requires Unbounced(h, names) && h'.payload == h.payload && h'.rounds == h.rounds
    ensures Unbounced(h', names)
  {
  }

  lemma BeginRuns(s: State, w: nat, registered: set<string>, o: Outcome)
    requires Inv(s) && OnAJob(s, w) && s.workers[w].Loaded?
    requires s.jobs[s.workers[w].id].payload.className in registered
    ensures Work(s.workers[w].data, registered, o).ran
  {
    Busy(s, w);
    var h := s.jobs[s.workers[w].id];
    hide Inv, Attempts, Story, Told;
    WorkOnFull(s.workers[w].data, registered, o, h.max, h.name, h.payload, Word(h.runs));
  }

  /** How an Advance changes its worker and its job. */
  lemma AdvanceJob(s: State, w: nat, clean: bool, now: int)
    requires Enabled(s, Advance(w, clean, now))
    ensures OnAJob(s, w)
    ensures var t := Step(s, Advance(w, clean, now)); var id := s.workers[w].id;
      && |t.workers| == |s.workers| && t.workers == s.workers[w := t.workers[w]]
      && id in t.jobs && t.jobs == s.jobs[id := t.jobs[id]]
      && t.jobs[id].queued == s.jobs[id].queued && t.jobs[id].payload == s.jobs[id].payload
      && (s.jobs[id].place.Held? ==> !t.jobs[id].place.Created?)
      && (t.jobs[id].rounds == s.jobs[id].rounds
          || (s.workers[w].Delaying?
              && t.jobs[id].rounds == s.jobs[id].rounds +
                  [Round(s.workers[w].work.ran, s.jobs[id].asked, s.workers[w].delay)]))
      && (HasWork(t.workers[w]) ==> HasWork(s.workers[w]) && t.workers[w].work == s.workers[w].work)
  {
    hide Merge, Persisted, ReportedTries, Named, PersistedDelay, Z.Add, Before, Rest;
    match s.workers[w]
    case Working(_, _) => hide SettleStep, RetryStep, Queue;
    case Settling(_, _) => hide CompleteStep, RetryStep, Queue;
    case Delaying(_, _, _) => hide CompleteStep, SettleStep, Queue;
    case Requeueing(_, _) => hide CompleteStep, SettleStep, RetryStep;
  }

  ghost predicate HasWork(pc: Pc) {
    pc.Working? || pc.Settling? || pc.Delaying?
  }

  lemma AdvanceNoBounces(s: State, w: nat, clean: bool, now: int, names: set<string>)
    requires Enabled(s, Advance(w, clean, now)) && NoBounces(s, names)
    ensures NoBounces(Step(s, Advance(w, clean, now)), names)
  {
    AdvanceJob(s, w, clean, now);
    hide Step, Enabled;
  }

  lemma BeginNoBounces(s: State, w: nat, registered: set<string>, o: Outcome, names: set<string>)
    requires Inv(s) && OnAJob(s, w) && s.workers[w].Loaded? && NoBounces(s, names) && names <= registered
    ensures NoBounces(BeginStep(s, w, registered, o), names)
  {
    var id := s.workers[w].id;
    assert Unbounced(s.jobs[id], names);
    BeginRuns(s, w, registered, o);
    hide Inv, Work, First, Unbounced;
    SameUnbounced(s.jobs[id], BeginStep(s, w, registered, o).jobs[id], names);
  }

  lemma StepNoBounces(s: State, a: Action, names: set<string>)
    requires Inv(s) && Enabled(s, a) && NoBounces(s, names) && AllRegistered([a], names)
    ensures NoBounces(Step(s, a), names)
  {
    assert a in [a];
    hide Inv, Z.Add, PopExpired, Before, Merge, NewData, BeginStep;
    if a.Advance? {
      hide Step, Enabled;
      AdvanceNoBounces(s, a.w, a.clean, a.now, names);
    } else if a.Begin? {
      hide NoBounces;
      BeginNoBounces(s, a.w, a.registered, a.o, names);
    } else {
      QuietNoBounces(s, a, names);
    }
  }

  lemma QuietNoBounces(s: State, a: Action, names: set<string>)
    requires Enabled(s, a) && NoBounces(s, names) && !a.Advance? && !a.Begin?
    requires a.Create? ==> a.payload.className in names
    ensures NoBounces(Step(s, a), names)
  {
    hide Z.Add, PopExpired, Before, Merge, NewData;
  }

  lemma {:induction false} RunNoBounces(s: State, run: seq<Action>, names: set<string>)
    requires Inv(s) && Possible(s, run) && NoBounces(s, names) && AllRegistered(run, names)
    ensures NoBounces(After(s, run), names)
    decreases |run|
  {
    if run != [] {
      assert AllRegistered([run[0]], names) && AllRegistered(run[1..], names);
      StepInv(s, run[0]);
      StepNoBounces(s, run[0], names);
      hide Inv, Step, Enabled, NoBounces, AllRegistered;
      RunNoBounces(Step(s, run[0]), run[1..], names);
    }
  }

  lemma AllRan(workers: nat, run: seq<Action>, names: set<string>, s: State, id: Id)
    requires Reached(workers, run, s) && AllRegistered(run, names) && id in s.jobs
    ensures forall i :: 0 <= i < |s.jobs[id].rounds| ==> s.jobs[id].rounds[i].ran
  {
    InitInv(workers);
    RunNoBounces(Init(workers), run, names);
    hide Possible, After, AllRegistered;
  }

  lemma StoryTells(rounds: seq<Round>, tail: seq<Event>)
    requires forall j :: 0 <= j < |rounds| ==> rounds[j].ran
    ensures forall i :: 0 <= i < |rounds| ==> TellsAttempt(Story(rounds) + tail, 3 * i, i, rounds[i].delay)
  {
    hide Story, TellsAttempt;
    forall i | 0 <= i < |rounds| ensures TellsAttempt(Story(rounds) + tail, 3 * i, i, rounds[i].delay) {
      StoryOfAttempt(rounds, i);
      TellsLonger(Story(rounds), tail, 3 * i, i, rounds[i].delay);
    }
  }

  /**
    With all classes registered every round is an attempt, so the callbacks of a job are
    (STARTED COMPLETED RETRY)* and then a tail, and the i-th attempt counts i.
   */
  lemma EveryRoundIsAnAttempt(workers: nat, run: seq<Action>, names: set<string>, s: State, id: Id)
    requires Reached(workers, run, s) && AllRegistered(run, names) && id in s.jobs && s.jobs[id].name != ""
    ensures var h := s.jobs[id]; var n := |h.rounds|;
      && |h.events| >= 3 * n && Tail(h.place, n, h.events[3 * n..])
      && forall i :: 0 <= i < n ==> TellsAttempt(h.events, 3 * i, i, h.rounds[i].delay)
  {
    var h := s.jobs[id];
    hide Reached, AllRegistered, Story, Attempts, Tail, TellsAttempt;
    AllRan(workers, run, names, s, id);
    CallbacksTellTheStory(workers, run, s, id);
    StoryLength(h.rounds);
    var tail := h.events[3 * |h.rounds|..];
    assert h.events == Story(h.rounds) + tail;
    StoryTells(h.rounds, tail);
  }

  // ---- QUEUED ----

  /** One thread: onJobQueued comes right after the push to the queue, before anything else. */
  ghost predicate Prompt(run: seq<Action>) {
    forall i :: 0 <= i < |run| - 1 && run[i].Enqueue? ==> run[i + 1] == Announce(run[i].id)
  }

  ghost predicate QueuedFirst(s: State) {
    forall id :: id in s.jobs ==>
      if s.jobs[id].place.Created? then s.jobs[id].queued.None? && s.jobs[id].events == []
      else s.jobs[id].queued == Some(0)
  }

  ghost predicate Announced(s: State) {
    forall id :: id in s.jobs && s.jobs[id].queued.Some? ==> s.jobs[id].queued == Some(0)
  }

  lemma StepQueuedFirst(s: State, a: Action)
    requires Inv(s) && Enabled(s, a) && QueuedFirst(s) && !a.Enqueue?
    ensures QueuedFirst(Step(s, a)) && !a.Announce?
  {
    if a.Advance? {
      Busy(s, a.w);
      AdvanceJob(s, a.w, a.clean, a.now);
      hide Inv, Step, Enabled, PhaseOk;
    } else if a.Begin? {
      Busy(s, a.w);
      hide Inv, PhaseOk, Work, First;
    } else if a.PopLater? {
      PopsEarliest(s.later, a.now);
      hide Records, Z.Valid, Z.Members, PopExpired, Before;
    } else if a.PopReady? {
      assert s.ready[0] in s.ready;
      hide Records, Z.Valid, Z.Members, Before;
    } else {
      hide Inv, Merge, NewData;
    }
  }

  lemma EnqueueQueuedFirst(s: State, a: Action)
    requires Enabled(s, a) && QueuedFirst(s) && a.Enqueue?
    ensures var t := Step(s, a);
      && Announced(t)
      && (Enabled(t, Announce(a.id)) && QueuedFirst(Step(t, Announce(a.id))))
  {
  }

  lemma {:induction false} PromptRun(s: State, run: seq<Action>)
    requires Inv(s) && Possible(s, run) && QueuedFirst(s) && Prompt(run)
    ensures Announced(After(s, run))
    decreases |run|
  {
    if run != [] {
      var t := Step(s, run[0]);
      StepInv(s, run[0]);
      if !run[0].Enqueue? {
        StepQueuedFirst(s, run[0]);
        assert Prompt(run[1..]);
        hide Inv, Step, Enabled, QueuedFirst;
        PromptRun(t, run[1..]);
      } else {
        EnqueueQueuedFirst(s, run[0]);
        if |run| > 1 {
          StepInv(t, run[1]);
          assert run[1] == Announce(run[0].id) && run[1..][0] == run[1] && run[1..][1..] == run[2..];
          assert Prompt(run[2..]);
          assert After(s, run) == After(Step(t, run[1]), run[2..]);
          hide Inv, Step, Enabled, QueuedFirst;
          PromptRun(Step(t, run[1]), run[2..]);
        } else {
          assert run[1..] == [];
        }
      }
    }
  }

  /** In a program of one thread QUEUED is the first callback of every job. */
  lemma QueuedComesFirst(workers: nat, run: seq<Action>, s: State, id: Id)
    requires Reached(workers, run, s) && Prompt(run) && id in s.jobs && s.jobs[id].queued.Some?
    ensures s.jobs[id].queued == Some(0)
  {
    InitInv(workers);
    PromptRun(Init(workers), run);
  }

  /** In this step a worker makes a callback for a job it has begun, or that it bounces. */
  ghost predicate Speaks(s: State, a: Action, id: Id)
    requires Enabled(s, a)
  {
    || (a.Begin? && s.workers[a.w].id == id && s.jobs[id].payload.className in a.registered)
    || (a.Advance? && s.workers[a.w].Delaying? && s.workers[a.w].id == id)
  }

  /** No worker calls back for the job in the run. */
  ghost predicate Silent(s: State, run: seq<Action>, id: Id)
    requires Possible(s, run)
    decreases |run|
  {
    run != [] ==> !Speaks(s, run[0], id) && Silent(Step(s, run[0]), run[1..], id)
  }

  lemma BeginSpeaks(s: State, w: nat, registered: set<string>, o: Outcome)
    requires Inv(s) && OnAJob(s, w) && s.workers[w].Loaded? && s.jobs[s.workers[w].id].name != ""
    ensures var h := s.jobs[s.workers[w].id];
      First(Work(s.workers[w].data, registered, o)) != [] <==> h.payload.className in registered
  {
    Busy(s, w);
    var h := s.jobs[s.workers[w].id];
    hide Inv, Attempts, Story, Told;
    WorkOnFull(s.workers[w].data, registered, o, h.max, h.name, h.payload, Word(h.runs));
    hide Work, Waiting;
  }

  /** A job of which nothing was told yet is not at the end of a run. */
  lemma NothingTold(s: State, w: nat)
    requires Inv(s) && OnAJob(s, w) && (s.workers[w].Working? || s.workers[w].Settling? || s.workers[w].Delaying?)
    requires s.jobs[s.workers[w].id].name != "" && s.jobs[s.workers[w].id].events == []
    ensures s.workers[w].work.events == [] && s.workers[w].work.status == ErrorRetry
  {
    Busy(s, w);
    hide Inv, Attempts, Story, Full, Core, PersistedDelay, LastDelay, Wanted;
  }

  /** The callbacks an Advance makes. */
  function Tells(pc: Pc): seq<Event> {
    match pc
    case Working(_, work) => Rest(work)
    case Settling(_, work) =>
      if work.status == ErrorRemove && Named(work.data) then [Removed(ReportedTries(work.data))] else []
    case Delaying(_, work, delay) => if Named(work.data) then [Retry(ReportedTries(work.data), delay)] else []
    case _ => []
  }

  lemma AdvanceEvents(s: State, w: nat, clean: bool, now: int)
    requires Enabled(s, Advance(w, clean, now))
    ensures var t := Step(s, Advance(w, clean, now)); var id := s.workers[w].id;
      id in t.jobs && t.jobs[id].events == s.jobs[id].events + Tells(s.workers[w])
  {
    hide Merge, Persisted, ReportedTries, Named, PersistedDelay, Z.Add, Before, Rest;
    match s.workers[w]
    case Working(_, _) => hide SettleStep, RetryStep, Queue;
    case Settling(_, _) => hide CompleteStep, RetryStep, Queue;
    case Delaying(_, _, _) => hide CompleteStep, SettleStep, Queue;
    case Requeueing(_, _) => hide CompleteStep, SettleStep, RetryStep;
  }

  /** If nothing was told of a job yet, its worker tells something next exactly if it bounces the job. */
  lemma TellsFirst(s: State, w: nat)
    requires Inv(s) && OnAJob(s, w) && s.jobs[s.workers[w].id].name != ""
    ensures s.workers[w].Delaying? ==> Tells(s.workers[w]) != []
    ensures s.jobs[s.workers[w].id].events == [] && !s.workers[w].Delaying? ==> Tells(s.workers[w]) == []
  {
    Busy(s, w);
    if s.workers[w].Delaying? {
      MergedFull(Stored(s, s.workers[w].id), s.jobs[s.workers[w].id], s.workers[w].work);
    }
    if HasWork(s.workers[w]) && s.jobs[s.workers[w].id].events == [] {
      NothingTold(s, w);
    }
    hide Inv, PhaseOk, Named, ReportedTries;
  }

  lemma AdvanceTells(s: State, w: nat, clean: bool, now: int, id: Id)
    requires Inv(s) && Enabled(s, Advance(w, clean, now)) && id in s.jobs && s.jobs[id].name != ""
    ensures var a := Advance(w, clean, now); var t := Step(s, a);
      id in t.jobs && (t.jobs[id].events == [] <==> s.jobs[id].events == [] && !Speaks(s, a, id))
  {
    hide Inv, Tells;
    AdvanceJob(s, w, clean, now);
    if s.workers[w].id == id {
      AdvanceEvents(s, w, clean, now);
      TellsFirst(s, w);
    }
    hide Step;
  }

  /** A step leaves what was told of a job, and adds to nothing exactly when it speaks. */
  lemma StepTells(s: State, a: Action, id: Id)
    requires Inv(s) && Enabled(s, a) && id in s.jobs && s.jobs[id].name != ""
    ensures var t := Step(s, a);
      id in t.jobs && (t.jobs[id].events == [] <==> s.jobs[id].events == [] && !Speaks(s, a, id))
  {
    hide Inv, BeginStep;
    if a.Advance? {
      hide Step, Enabled, Speaks;
      AdvanceTells(s, a.w, a.clean, a.now, id);
    } else if a.Begin? {
      BeginTells(s, a.w, a.registered, a.o, id);
    } else {
      hide Step, Enabled, Speaks;
      OthersAreSilent(s, a, id);
    }
  }

  lemma BeginTells(s: State, w: nat, registered: set<string>, o: Outcome, id: Id)
    requires Inv(s) && OnAJob(s, w) && s.workers[w].Loaded? && id in s.jobs && s.jobs[id].name != ""
    ensures var t := BeginStep(s, w, registered, o);
      && id in t.jobs
      && (t.jobs[id].events == [] <==>
            s.jobs[id].events == [] && !(s.workers[w].id == id && s.jobs[id].payload.className in registered))
  {
    if s.workers[w].id == id {
      BeginSpeaks(s, w, registered, o);
    }
    hide Inv, Work, First;
  }

  lemma OthersAreSilent(s: State, a: Action, id: Id)
    requires Enabled(s, a) && id in s.jobs && !a.Advance? && !a.Begin?
    ensures var t := Step(s, a);
      id in t.jobs && t.jobs[id].events == s.jobs[id].events && !Speaks(s, a, id)
  {
    hide Z.Add, PopExpired, Before, Merge, NewData;
  }

  /** A job appears with nothing told. */
  lemma StepCreates(s: State, a: Action, id: Id)
    requires Inv(s) && Enabled(s, a) && id !in s.jobs
    ensures !Speaks(s, a, id) && (id in Step(s, a).jobs ==> Step(s, a).jobs[id].events == [])
  {
    if a.Advance? {
      AdvanceJob(s, a.w, a.clean, a.now);
      hide Inv, Step;
    } else {
      hide Inv, Work, First, Z.Add, PopExpired, Before, Merge, NewData;
    }
  }

  lemma {:induction false} RunTells(s: State, run: seq<Action>, id: Id)
    requires Inv(s) && Possible(s, run)
    requires id in After(s, run).jobs && After(s, run).jobs[id].name != ""
    requires id in s.jobs ==> s.jobs[id].name != ""
    ensures After(s, run).jobs[id].events == [] <==> (id in s.jobs ==> s.jobs[id].events == []) && Silent(s, run, id)
    decreases |run|
  {
    if run != [] {
      var t := Step(s, run[0]);
      StepInv(s, run[0]);
      if id in s.jobs {
        StepTells(s, run[0], id);
        StepKeepsName(s, run[0], id);
      } else {
        StepCreates(s, run[0], id);
      }
      hide Inv, Step, Enabled, Speaks;
      NamesStay(t, run[1..], id);
      RunTells(t, run[1..], id);
    }
  }

  lemma StepKeepsName(s: State, a: Action, id: Id)
    requires Enabled(s, a) && id in s.jobs
    ensures id in Step(s, a).jobs && Step(s, a).jobs[id].name == s.jobs[id].name
    ensures s.jobs[id].queued.Some? ==> Step(s, a).jobs[id].queued == s.jobs[id].queued
  {
    hide Work, First, Rest, Z.Add, PopExpired, Before, Merge, Persisted, NewData, PersistedDelay, Named, ReportedTries;
    if a.Advance? {
      AdvanceJob(s, a.w, a.clean, a.now);
      hide Step, Enabled;
    }
  }

  lemma {:induction false} NamesStay(s: State, run: seq<Action>, id: Id)
    requires Possible(s, run)
    ensures id in s.jobs ==> id in After(s, run).jobs && After(s, run).jobs[id].name == s.jobs[id].name
    ensures id in s.jobs && s.jobs[id].queued.Some? ==> After(s, run).jobs[id].queued == s.jobs[id].queued
    decreases |run|
  {
    if run != [] && id in s.jobs {
      StepKeepsName(s, run[0], id);
      hide Step, Enabled;
      NamesStay(Step(s, run[0]), run[1..], id);
    }
  }

  lemma {:induction false} RunSplits(s: State, a: seq<Action>, b: seq<Action>)
    ensures Possible(s, a + b) <==> Possible(s, a) && Possible(After(s, a), b)
    ensures Possible(s, a + b) ==> After(s, a + b) == After(After(s, a), b)
    decreases |a|
  {
    if a == [] {
      assert a + b == b;
    } else {
      assert (a + b)[1..] == a[1..] + b;
      if Enabled(s, a[0]) {
        hide Step, Enabled;
        RunSplits(Step(s, a[0]), a[1..], b);
      }
    }
  }

  /**
    QUEUED is the first callback of a job if and only if, before the push makes it, no worker
    begins the job or bounces it (or the job has no name, so that no callbacks are made).
   */
  lemma QueuedFirstIff(workers: nat, before: seq<Action>, after: seq<Action>, id: Id)
    requires Possible(Init(workers), before + ([Announce(id)] + after))
    ensures Possible(Init(workers), before)
    ensures var s := After(Init(workers), before + ([Announce(id)] + after));
      && id in s.jobs
      && (s.jobs[id].queued == Some(0) <==> s.jobs[id].name == "" || Silent(Init(workers), before, id))
  {
    var s0 := Init(workers);
    RunSplits(s0, before, [Announce(id)] + after);
    var s1 := After(s0, before);
    assert ([Announce(id)] + after)[1..] == after;
    InitInv(workers);
    RunInv(s0, before);
    var s2 := Step(s1, Announce(id));
    assert s2.jobs[id] == s1.jobs[id].(queued := Some(|s1.jobs[id].events|));
    ReachedRecord(workers, before, s1, id);
    if s1.jobs[id].name == "" {
      NamelessIsSilent(s1, id);
    } else {
      RunTells(s0, before, id);
    }
    hide Step, RecordOk, Silent, Inv;
    NamesStay(s2, after, id);
  }

  lemma NamelessIsSilent(s: State, id: Id)
    requires id in s.jobs && RecordOk(s, id) && s.jobs[id].name == ""
    ensures s.jobs[id].events == []
  {
    hide Full, Core, Attempts, Story, PersistedDelay, LastDelay, Wanted, AllDue;
  }

  /** One thread pushes a job and another starts it in between. */
  function LateRun(id: Id, p: JobPayload, name: string, o: Outcome): seq<Action> {
    [Create(id, 3, name, p, 0), Enqueue(id, None), PopReady(0), Load(0), Begin(0, {p.className}, o), Announce(id)]
  }

  /** The states of this run. */
  function LateState(i: nat, id: Id, p: JobPayload, name: string, o: Outcome): State {
    var d := NewData(3, name, p, 0);
    var h := Job(3, name, p, Created, 0, 0, [], [], None, None);
    var held := h.(place := Held(0));
    var started := held.(runs := 1, events := [Started(0)], asked := o.retryAfter);
    match i
    case 0 => Init(1)
    case 1 => State([], [], map[id := d], [Idle], map[id := h])
    case 2 => State([id], [], map[id := d], [Idle], map[id := h.(place := Ready)])
    case 3 => State([], [], map[id := d], [Popped(id)], map[id := held])
    case 4 => State([], [], map[id := d], [Loaded(id, d)], map[id := held])
    case 5 => State([], [], map[id := d], [Working(id, Work(d, {p.className}, o))], map[id := started])
    case _ =>
        State([], [], map[id := d], [Working(id, Work(d, {p.className}, o))], map[id := started.(queued := Some(1))])
  }

  lemma LatePush(s1: State, s2: State, id: Id, p: JobPayload, name: string)
    requires var d := NewData(3, name, p, 0); var h := Job(3, name, p, Created, 0, 0, [], [], None, None);
      && s1 == State([], [], map[id := d], [Idle], map[id := h])
      && s2 == State([id], [], map[id := d], [Idle], map[id := h.(place := Ready)])
    ensures Enabled(Init(1), Create(id, 3, name, p, 0)) && Step(Init(1), Create(id, 3, name, p, 0)) == s1
    ensures Enabled(s1, Enqueue(id, None)) && Step(s1, Enqueue(id, None)) == s2
  {
    var d := NewData(3, name, p, 0);
    assert Merge(map[], d) == d;
    hide NewData, Merge;
    assert s1.ready + [id] == s2.ready;
  }

  lemma LateTake(s2: State, s3: State, s4: State, id: Id, d: Data)
    requires s2.ready == [id] && s2.workers == [Idle] && id in s2.jobs && s2.store == map[id := d]
    requires s3 == s2.(ready := [], workers := [Popped(id)], jobs := s2.jobs[id := s2.jobs[id].(place := Held(0))])
    requires s4 == s3.(workers := [Loaded(id, d)])
    ensures Enabled(s2, PopReady(0)) && Step(s2, PopReady(0)) == s3
    ensures Enabled(s3, Load(0)) && Step(s3, Load(0)) == s4
  {
  }

  lemma LateStart(s4: State, s5: State, s6: State, id: Id, p: JobPayload, name: string, o: Outcome, d: Data)
    requires name != "" && Full(d, 3, name, p, 0)
    requires s4.workers == [Loaded(id, d)] && id in s4.jobs
    requires s4.jobs[id].events == [] && s4.jobs[id].runs == 0
        && s4.jobs[id].place == Held(0) && s4.jobs[id].queued.None?
    requires var h := s4.jobs[id].(runs := 1, events := [Started(0)], asked := o.retryAfter);
      && s5 == s4.(workers := [Working(id, Work(d, {p.className}, o))], jobs := s4.jobs[id := h])
      && s6 == s5.(jobs := s5.jobs[id := h.(queued := Some(1))])
    ensures Enabled(s4, Begin(0, {p.className}, o)) && Step(s4, Begin(0, {p.className}, o)) == s5
    ensures Enabled(s5, Announce(id)) && Step(s5, Announce(id)) == s6
  {
    WorkOnFull(d, {p.className}, o, 3, name, p, 0);
    hide Work, Full;
    assert s4.jobs[id].events + First(Work(d, {p.className}, o)) == [Started(0)];
  }

  lemma LateStep(i: nat, id: Id, p: JobPayload, name: string, o: Outcome)
    requires name != "" && i < 6
    ensures Enabled(LateState(i, id, p, name, o), LateRun(id, p, name, o)[i])
    ensures Step(LateState(i, id, p, name, o), LateRun(id, p, name, o)[i]) == LateState(i + 1, id, p, name, o)
  {
    hide *;
    if i < 2 {
      LateSteps01(id, p, name, o);
    } else if i < 4 {
      LateSteps23(id, p, name, o);
    } else {
      LateSteps45(id, p, name, o);
    }
  }

  lemma LateSteps01(id: Id, p: JobPayload, name: string, o: Outcome)
    ensures forall i: nat :: i < 2 ==>
              && Enabled(LateState(i, id, p, name, o), LateRun(id, p, name, o)[i])
              && Step(LateState(i, id, p, name, o), LateRun(id, p, name, o)[i]) == LateState(i + 1, id, p, name, o)
  {
    hide Step, Enabled, Work, NewData;
    LatePush(LateState(1, id, p, name, o), LateState(2, id, p, name, o), id, p, name);
  }

  lemma LateSteps23(id: Id, p: JobPayload, name: string, o: Outcome)
    ensures forall i: nat :: 2 <= i < 4 ==>
              && Enabled(LateState(i, id, p, name, o), LateRun(id, p, name, o)[i])
              && Step(LateState(i, id, p, name, o), LateRun(id, p, name, o)[i]) == LateState(i + 1, id, p, name, o)
  {
    hide Step, Enabled, Work, NewData;
    LateTake(LateState(2, id, p, name, o), LateState(3, id, p, name, o), LateState(4, id, p, name, o), id,
             NewData(3, name, p, 0));
  }

  lemma LateSteps45(id: Id, p: JobPayload, name: string, o: Outcome)
    requires name != ""
    ensures forall i: nat :: 4 <= i < 6 ==>
              && Enabled(LateState(i, id, p, name, o), LateRun(id, p, name, o)[i])
              && Step(LateState(i, id, p, name, o), LateRun(id, p, name, o)[i]) == LateState(i + 1, id, p, name, o)
  {
    var d := NewData(3, name, p, 0);
    assert Full(d, 3, name, p, 0);
    hide Step, Enabled, Work, NewData, Full;
    var s4, s5, s6 := LateState(4, id, p, name, o), LateState(5, id, p, name, o), LateState(6, id, p, name, o);
    LateStart(s4, s5, s6, id, p, name, o, d);
    assert LateRun(id, p, name, o)[4] == Begin(0, {p.className}, o) && LateRun(id, p, name, o)[5] == Announce(id);
    hide LateState, LateRun;
    forall i: nat | 4 <= i < 6
      ensures Enabled(LateState(i, id, p, name, o), LateRun(id, p, name, o)[i])
      ensures Step(LateState(i, id, p, name, o), LateRun(id, p, name, o)[i]) == LateState(i + 1, id, p, name, o)
    {
      assert i == 4 || i == 5;
    }
  }

  ghost predicate StartedUnannounced(s: State, id: Id) {
    id in s.jobs && s.jobs[id].queued == Some(1) && s.jobs[id].events == [Started(0)]
  }

  /** With a worker on another thread a job can be started before its QUEUED. */
  lemma QueuedCanComeLate(id: Id, p: JobPayload, name: string, o: Outcome)
    requires name != ""
    ensures Possible(Init(1), LateRun(id, p, name, o))
    ensures StartedUnannounced(After(Init(1), LateRun(id, p, name, o)), id)
  {
    var run, states := LateRun(id, p, name, o), seq(7, i requires 0 <= i => LateState(i, id, p, name, o));
    assert |run| == 6 && states[0] == Init(1);
    assert StartedUnannounced(LateState(6, id, p, name, o), id);
    hide Possible, After, Enabled, Step, LateState, LateRun;
    forall i | 0 <= i < |run| ensures Enabled(states[i], run[i]) && Step(states[i], run[i]) == states[i + 1] {
      LateStep(i, id, p, name, o);
    }
    TraceRuns(states, run);
  }

  /** States that follow one another by the steps of a run. */
  ghost predicate Chain(states: seq<State>, run: seq<Action>) {
    && |states| == |run| + 1
    && forall i :: 0 <= i < |run| ==> Enabled(states[i], run[i]) && Step(states[i], run[i]) == states[i + 1]
  }

  lemma {:induction false} TraceRuns(states: seq<State>, run: seq<Action>)
    requires Chain(states, run)
    ensures Possible(states[0], run) && After(states[0], run) == states[|run|]
  {
    if run != [] {
      hide Enabled, Step;
      TraceRuns(states[1..], run[1..]);
    }
  }
}
