/** One call of do_one is a run of the protocol with one worker. */
module QueueRefinement {
  import opened Prelude
  import opened JobWork
  import opened StdQueue
  import opened QueueWorker
  import J = JobQueue
  import R = JobQueueRuns
  import Z = SortedSet

  type Later = seq<Z.Entry<string>>

  /** What stays of a job that is run: its data as pushed, and when it was announced. */
  datatype Card = Card(max: nat, name: string, payload: JobPayload, queued: Option<nat>)

  /** The protocol state as one worker sees it that has a job: the callbacks of that job, and the other jobs. */
  datatype View = View(ready: seq<string>, later: Later, store: map<string, Data>, events: seq<Event>, card: Card,
                       others: map<string, J.Job>)

  function CardOf(h: J.Job): Card {
    Card(h.max, h.name, h.payload, h.queued)
  }

  ghost predicate Seen(s: J.State, id: string, pc: J.Pc, v: View) {
    && s.workers == [pc] && s.ready == v.ready && s.later == v.later && s.store == v.store
    && id in s.jobs && s.jobs[id].events == v.events && CardOf(s.jobs[id]) == v.card
    && s.jobs - {id} == v.others
  }

  // ---- The steps of a call ----

  lemma PopStep(s: J.State, id: string, v: View)
    requires Seen(s, id, J.Idle, v) && v.ready != [] && v.ready[0] == id
    ensures J.Enabled(s, J.PopReady(0))
    ensures Seen(J.Step(s, J.PopReady(0)), id, J.Popped(id), v.(ready := v.ready[1..]))
  {
  }

  /** The same for a delayed job, alone and due. */
  lemma PopLaterStep(s: J.State, id: string, v: View, now: int)
    requires Seen(s, id, J.Idle, v) && |v.later| == 1 && v.later[0].member == id && v.later[0].score <= now
    ensures J.Enabled(s, J.PopLater(0, now))
    ensures Seen(J.Step(s, J.PopLater(0, now)), id, J.Popped(id), v.(later := []))
  {
    assert Z.RangeByScore(v.later, now) == [id] + Z.RangeByScore(v.later[1..], now);
    assert J.PopExpired(v.later, now) == ([], Some(id));
  }

  lemma LoadStep(s: J.State, id: string, v: View)
    requires Seen(s, id, J.Popped(id), v) && id in v.store
    ensures J.Enabled(s, J.Load(0)) && Seen(J.Step(s, J.Load(0)), id, J.Loaded(id, v.store[id]), v)
  {
  }

  lemma BeginStep(s: J.State, id: string, d: Data, v: View, registered: set<string>, o: Outcome)
    requires Seen(s, id, J.Loaded(id, d), v)
    ensures J.Enabled(s, J.Begin(0, registered, o))
    ensures var w := Work(d, registered, o);
      Seen(J.Step(s, J.Begin(0, registered, o)), id, J.Working(id, w), v.(events := v.events + J.First(w)))
  {
    hide Work, J.First;
  }

  lemma CompleteStep(s: J.State, id: string, w: Worked, v: View, clean: bool, now: int)
    requires Seen(s, id, J.Working(id, w), v.(events := v.events + J.First(w))) && id in v.store
    ensures J.Enabled(s, J.Advance(0, clean, now))
    ensures Seen(J.Step(s, J.Advance(0, clean, now)), id, J.Settling(id, w),
                 v.(store := StoreAfter(v.store, id, w), events := v.events + w.events))
  {
    assert (v.events + J.First(w)) + J.Rest(w) == v.events + w.events;
    hide J.First, J.Rest, Merge, J.SettleStep, J.RetryStep, J.Queue;
  }

  /** The view after process_job_result stored and reported. */
  function Reported(v: View, settled: Settled): View {
    v.(store := settled.store, events := v.events + settled.events)
  }

  lemma SettleStep(s: J.State, id: string, w: Worked, v: View, clean: bool, now: int)
    requires Seen(s, id, J.Settling(id, w), v) && id in v.store
    ensures J.Enabled(s, J.Advance(0, clean, now))
    ensures var t := J.Step(s, J.Advance(0, clean, now));
      if w.status == ErrorRetry then Seen(t, id, J.Delaying(id, w, PersistedDelay(v.store[id])), v)
      else Seen(t, id, J.Idle, Reported(v, Settle(v.store, id, w.data, w.status, clean)))
  {
    hide Merge, PersistedDelay, Named, ReportedTries, J.CompleteStep, J.RetryStep, J.Queue;
    match w.status
    case NoError =>
    case ErrorRemove =>
    case ErrorRetry =>
  }

  lemma RetryStep(s: J.State, id: string, w: Worked, v: View, clean: bool, now: int)
    requires id in v.store && w.status == ErrorRetry
    requires Seen(s, id, J.Delaying(id, w, PersistedDelay(v.store[id])), v)
    ensures J.Enabled(s, J.Advance(0, clean, now))
    ensures var settled := Settle(v.store, id, w.data, ErrorRetry, clean); var delay := PersistedDelay(v.store[id]);
      && settled.again == Some(delay)
      && Seen(J.Step(s, J.Advance(0, clean, now)), id, J.Requeueing(id, delay), Reported(v, settled))
  {
    hide Merge, PersistedDelay, Named, ReportedTries, J.CompleteStep, J.SettleStep, J.Queue;
  }

  function LaterWith(later: Later, id: string, delay: int, now: int): Later {
    if delay == 0 then later else Z.Add(later, Z.Entry(now + delay, id), J.Before)
  }

  /** The view after the job went back with this delay. */
  function Requeued(v: View, id: string, delay: int, now: int): View {
    v.(ready := if delay == 0 then v.ready + [id] else v.ready, later := LaterWith(v.later, id, delay, now))
  }

  lemma RequeueStep(s: J.State, id: string, delay: int, v: View, clean: bool, now: int)
    requires Seen(s, id, J.Requeueing(id, delay), v)
    ensures J.Enabled(s, J.Advance(0, clean, now))
    ensures Seen(J.Step(s, J.Advance(0, clean, now)), id, J.Idle, Requeued(v, id, delay, now))
  {
    hide Z.Add, J.CompleteStep, J.SettleStep, J.RetryStep;
  }

  // ---- Runs of these steps ----

  /** The protocol takes this run from s, and ends as the worker sees it. */
  ghost predicate Leads(s: J.State, run: seq<J.Action>, id: string, pc: J.Pc, v: View) {
    J.Possible(s, run) && Seen(J.After(s, run), id, pc, v)
  }

  lemma LeadsNowhere(s: J.State, id: string, pc: J.Pc, v: View)
    requires Seen(s, id, pc, v)
    ensures Leads(s, [], id, pc, v)
  {
    hide Seen;
  }

  lemma LeadsOn(s: J.State, run: seq<J.Action>, t: J.State, a: J.Action, id: string, pc: J.Pc, v: View)
    requires J.Possible(s, run) && J.After(s, run) == t && J.Enabled(t, a) && Seen(J.Step(t, a), id, pc, v)
    ensures Leads(s, run + [a], id, pc, v)
  {
    R.RunSplits(s, run, [a]);
    hide J.Enabled, J.Step, Seen;
    assert [a][1..] == [];
    assert J.Possible(t, [a]) && J.After(t, [a]) == J.Step(t, a);
  }

  lemma LoadAndBegin(s: J.State, run: seq<J.Action>, id: string, v: View, registered: set<string>, o: Outcome)
    requires id in v.store && Leads(s, run, id, J.Popped(id), v)
    ensures var w := Work(v.store[id], registered, o);
      Leads(s, run + [J.Load(0)] + [J.Begin(0, registered, o)], id, J.Working(id, w),
          v.(events := v.events + J.First(w)))
  {
    hide J.Enabled, J.Step, Seen, J.Possible, J.After, Work, J.First;
    var w, b := Work(v.store[id], registered, o), J.Begin(0, registered, o);
    var t := J.After(s, run);
    LoadStep(t, id, v);
    LeadsOn(s, run, t, J.Load(0), id, J.Loaded(id, v.store[id]), v);
    t := J.After(s, run + [J.Load(0)]);
    BeginStep(t, id, v.store[id], v, registered, o);
    LeadsOn(s, run + [J.Load(0)], t, b, id, J.Working(id, w), v.(events := v.events + J.First(w)));
  }

  /** From the start of work to its settlement, or to the delay of a retry. */
  lemma NextTwo(s: J.State, run: seq<J.Action>, id: string, w: Worked, v: View, clean: bool, now: int)
    requires id in v.store && Leads(s, run, id, J.Working(id, w), v.(events := v.events + J.First(w)))
    ensures var a := J.Advance(0, clean, now);
      var u := v.(store := StoreAfter(v.store, id, w), events := v.events + w.events);
      && (w.status == ErrorRetry ==> Leads(s, run + [a] + [a], id, J.Delaying(id, w, PersistedDelay(u.store[id])), u))
      && (w.status != ErrorRetry ==>
            Leads(s, run + [a] + [a], id, J.Idle, Reported(u, Settle(u.store, id, w.data, w.status, clean))))
  {
    var a := J.Advance(0, clean, now);
    var u := v.(store := StoreAfter(v.store, id, w), events := v.events + w.events);
    assert id in u.store;
    hide J.Enabled, J.Step, Seen, J.Possible, J.After, StoreAfter, J.First, Settle, PersistedDelay, Reported;
    var t := J.After(s, run);
    CompleteStep(t, id, w, v, clean, now);
    LeadsOn(s, run, t, a, id, J.Settling(id, w), u);
    t := J.After(s, run + [a]);
    SettleStep(t, id, w, u, clean, now);
    if w.status == ErrorRetry {
      LeadsOn(s, run + [a], t, a, id, J.Delaying(id, w, PersistedDelay(u.store[id])), u);
    } else {
      LeadsOn(s, run + [a], t, a, id, J.Idle, Reported(u, Settle(u.store, id, w.data, w.status, clean)));
    }
  }

  /** From the delay of a retry to the queue. */
  lemma LastTwo(s: J.State, run: seq<J.Action>, id: string, w: Worked, v: View, clean: bool, now: int)
    requires id in v.store && w.status == ErrorRetry
    requires Leads(s, run, id, J.Delaying(id, w, PersistedDelay(v.store[id])), v)
    ensures var a := J.Advance(0, clean, now); var settled := Settle(v.store, id, w.data, ErrorRetry, clean);
      var delay := PersistedDelay(v.store[id]);
      && settled.again == Some(delay)
      && Leads(s, run + [a] + [a], id, J.Idle, Requeued(Reported(v, settled), id, delay, now))
  {
    hide J.Enabled, J.Step, Seen, J.Possible, J.After, Settle, PersistedDelay, Reported, Requeued;
    var a, delay := J.Advance(0, clean, now), PersistedDelay(v.store[id]);
    var settled := Settle(v.store, id, w.data, ErrorRetry, clean);
    var t := J.After(s, run);
    RetryStep(t, id, w, v, clean, now);
    LeadsOn(s, run, t, a, id, J.Requeueing(id, delay), Reported(v, settled));
    t := J.After(s, run + [a]);
    RequeueStep(t, id, delay, Reported(v, settled), clean, now);
    LeadsOn(s, run + [a], t, a, id, J.Idle, Requeued(Reported(v, settled), id, delay, now));
  }

  // ---- A whole call ----

  /** The steps of one call. */
  function Call(status: Status, registered: set<string>, clean: bool, o: Outcome, now: int): seq<J.Action> {
    var a := J.Advance(0, clean, now);
    [J.PopReady(0)] + [J.Load(0)] + [J.Begin(0, registered, o)] + [a] + [a]
        + if status == ErrorRetry then [a] + [a] else []
  }

  /** How a call that runs a job ends. */
  function SettledAfter(sv: Service, registered: set<string>, clean: bool, o: Outcome): Settled
    requires sv.ready != [] && sv.ready[0] in sv.store
  {
    var w := Work(sv.store[sv.ready[0]], registered, o);
    Settle(StoreAfter(sv.store, sv.ready[0], w), sv.ready[0], w.data, w.status, clean)
  }

  /** The delay a job comes back with, 0 if it goes back at once or not at all. */
  function DelayOf(s: Settled): int {
    if s.again.Some? then s.again.value else 0
  }

  lemma TurnUnfolded(sv: Service, registered: set<string>, clean: bool, o: Outcome, now: int)
    requires sv.ready != [] && sv.ready[0] != "" && sv.ready[0] in sv.store
    ensures var id := sv.ready[0];
      var w := Work(sv.store[id], registered, o); var settled := SettledAfter(sv, registered, clean, o);
      var t := Turn(sv, registered, clean, o, now);
      && t.result == Did && t.told == Tell(id, w.events + settled.events)
      && t.service.store == settled.store
      && t.service.ready == sv.ready[1..] + (if settled.again == Some(0) then [id] else [])
      && t.service.later ==
           sv.later + (if DelayOf(settled) != 0 then multiset{Scheduled(id, now + DelayOf(settled))} else multiset{})
  {
    hide Work, Settle, Persisted;
    var id := sv.ready[0];
    var w := Work(sv.store[id], registered, o);
    var settled := SettledAfter(sv, registered, clean, o);
    assert Tell(id, w.events + settled.events) == Tell(id, w.events) + Tell(id, settled.events);
  }

  /** The view after a call. */
  function ViewAfter(v: View, sv: Service, registered: set<string>, clean: bool, o: Outcome, now: int): View
    requires sv.ready != [] && sv.ready[0] in sv.store
  {
    var id := sv.ready[0];
    var w := Work(sv.store[id], registered, o);
    var settled := SettledAfter(sv, registered, clean, o);
    v.(ready := sv.ready[1..] + (if settled.again == Some(0) then [id] else []),
       later := LaterWith(v.later, id, DelayOf(settled), now),
       store := settled.store,
       events := v.events + w.events + settled.events)
  }

  /** The first steps of a call. */
  function Opening(registered: set<string>, o: Outcome): seq<J.Action> {
    [J.PopReady(0)] + [J.Load(0)] + [J.Begin(0, registered, o)]
  }

  lemma CallOpens(s: J.State, id: string, v: View, registered: set<string>, o: Outcome)
    requires v.ready != [] && v.ready[0] == id && id in v.store && Seen(s, id, J.Idle, v)
    ensures var w := Work(v.store[id], registered, o);
      Leads(s, Opening(registered, o), id, J.Working(id, w), v.(ready := v.ready[1..], events := v.events + J.First(w)))
  {
    var u := v.(ready := v.ready[1..]);
    hide J.Enabled, J.Step, Seen, J.Possible, J.After, Work, J.First, Leads;
    PopStep(s, id, v);
    LeadsNowhere(s, id, J.Idle, v);
    assert J.Possible(s, []) && J.After(s, []) == s by { NoRun(s); }
    LeadsOn(s, [], s, J.PopReady(0), id, J.Popped(id), u);
    assert [] + [J.PopReady(0)] == [J.PopReady(0)];
    LoadAndBegin(s, [J.PopReady(0)], id, u, registered, o);
  }

  lemma NoRun(s: J.State)
    ensures J.Possible(s, []) && J.After(s, []) == s
  {
  }

  lemma CallIs(status: Status, registered: set<string>, clean: bool, o: Outcome, now: int)
    ensures var a := J.Advance(0, clean, now);
      Call(status, registered, clean, o, now) ==
        if status == ErrorRetry then Opening(registered, o) + [a] + [a] + [a] + [a]
        else Opening(registered, o) + [a] + [a]
  {
  }

  lemma CallLeads(s: J.State, sv: Service, v: View, registered: set<string>, clean: bool, o: Outcome, now: int)
    requires sv.ready != [] && sv.ready[0] in sv.store && v.ready == sv.ready && v.store == sv.store
    requires Seen(s, sv.ready[0], J.Idle, v)
    ensures var w := Work(sv.store[sv.ready[0]], registered, o);
      Leads(s, Call(w.status, registered, clean, o, now), sv.ready[0], J.Idle,
          ViewAfter(v, sv, registered, clean, o, now))
  {
    var id := sv.ready[0];
    var w, a := Work(sv.store[id], registered, o), J.Advance(0, clean, now);
    var u := v.(ready := sv.ready[1..]);
    var u' := u.(store := StoreAfter(sv.store, id, w), events := v.events + w.events);
    assert id in u'.store && SettledAfter(sv, registered, clean, o) == Settle(u'.store, id, w.data, w.status, clean);
    hide Seen, Leads, Work, Settle, StoreAfter, PersistedDelay, J.First, SettledAfter, ViewAfter, Reported,
        Requeued, Call,
         Opening;
    ViewAfterIs(v, sv, registered, clean, o, now);
    CallIs(w.status, registered, clean, o, now);
    CallOpens(s, id, v, registered, o);
    NextTwo(s, Opening(registered, o), id, w, u, clean, now);
    if w.status == ErrorRetry {
      LastTwo(s, Opening(registered, o) + [a] + [a], id, w, u', clean, now);
    }
  }

  /** The view after a call, by the steps of the call. */
  lemma ViewAfterIs(v: View, sv: Service, registered: set<string>, clean: bool, o: Outcome, now: int)
    requires sv.ready != [] && sv.ready[0] in sv.store
    ensures var id := sv.ready[0];
      var w := Work(sv.store[id], registered, o); var settled := SettledAfter(sv, registered, clean, o);
      var u := v.(ready := sv.ready[1..], store := StoreAfter(sv.store, id, w), events := v.events + w.events);
      ViewAfter(v, sv, registered, clean, o, now) ==
        if w.status == ErrorRetry then Requeued(Reported(u, settled), id, PersistedDelay(u.store[id]), now)
        else Reported(u, settled)
  {
    var id := sv.ready[0];
    var settled := SettledAfter(sv, registered, clean, o);
    assert Work(sv.store[id], registered, o).status != ErrorRetry ==> settled.again.None?;
    hide Work, Merge, PersistedDelay, Z.Add, Named, ReportedTries;
    assert sv.ready[1..] + [] == sv.ready[1..];
  }

  /**
    A call of do_one on a job with data is a run of the protocol from the state that looks like
    the service: it ends with the worker idle and the list, data and callbacks of `Turn`, a
    retried job is delayed to the same time, and the other jobs are as they were.
   */
  lemma TurnIsARun(s: J.State, sv: Service, v: View, registered: set<string>, clean: bool, o: Outcome, now: int)
    requires sv.ready != [] && sv.ready[0] != "" && sv.ready[0] in sv.store
    requires v.ready == sv.ready && v.store == sv.store && Seen(s, sv.ready[0], J.Idle, v)
    ensures var id := sv.ready[0];
      var w := Work(sv.store[id], registered, o); var settled := SettledAfter(sv, registered, clean, o);
      var run := Call(w.status, registered, clean, o, now);
      var t := Turn(sv, registered, clean, o, now);
      var told := w.events + settled.events;
      && t.result == Did && t.told == Tell(id, told)
      && t.service.later ==
           sv.later + (if DelayOf(settled) != 0 then multiset{Scheduled(id, now + DelayOf(settled))} else multiset{})
      && J.Possible(s, run)
      && Seen(J.After(s, run), id, J.Idle,
              View(t.service.ready, LaterWith(v.later, id, DelayOf(settled), now), t.service.store, v.events + told,
                   v.card, v.others))
  {
    var id := sv.ready[0];
    var w, settled := Work(sv.store[id], registered, o), SettledAfter(sv, registered, clean, o);
    assert (v.events + w.events) + settled.events == v.events + (w.events + settled.events);
    hide J.Possible, J.After, Seen, Work, SettledAfter, Turn, Call, LaterWith, DelayOf;
    TurnUnfolded(sv, registered, clean, o, now);
    CallLeads(s, sv, v, registered, clean, o, now);
  }
}
