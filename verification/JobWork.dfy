/**
  One execution of a job: what `work` does with the data map it was given, and what
  `process_job_result` does with the outcome. Decimal texts in a data map are numbers here.
 */
module JobWork {
  import opened Prelude

  datatype Key = Tries | MaxTries | Payload | ClassName | RetryAfter | CreatedAt | JobStdout | JobStderr

  /** The JSON payload made by create_jobpayload: the registered type and the retryAfter at push time. */
  datatype JobPayload = JobPayload(className: string, retryAfter: int)

  datatype Field = Num(n: int) | Text(s: string) | Json(p: JobPayload)

  type Data = map<Key, Field>

  /** `errexcept` never leaves `work`. */
  datatype Status = NoError | ErrorRemove | ErrorRetry

  /** The metrics callbacks of a worker. */
  datatype Event =
    | Started(tries: nat)
    | Completed(status: Status, tries: nat)
    | Retry(tries: nat, retryAfter: int)
    | Removed(tries: nat)

  /** What handle() does: return or throw, perhaps set retryAfter, and print. */
  datatype Outcome = Outcome(ok: bool, retryAfter: Option<int>, output: string, errors: string)

  /** std::stoull, which throws on a text that is no number and wraps a negative one. */
  function Stoull(f: Field): Option<nat> {
    if f.Num? then Some(f.n % TWO64) else None
  }

  /** operator[] inserts an empty text for a missing key. */
  function Touch(d: Data, k: Key): (r: Data)
    ensures k in r
    ensures r.Keys == d.Keys + {k} && forall x :: x in d ==> r[x] == d[x]
  {
    if k in d then d else d[k := Text("")]
  }

  /** tries++ on a size_t. */
  function Next(tries: nat): nat {
    (tries + 1) % TWO64
  }

  function RetryCondition(tries: nat, maxtries: nat): Status {
    if maxtries == 0 || tries < maxtries then ErrorRetry else ErrorRemove
  }

  /** A class name that is not the empty text. */
  predicate Named(d: Data) {
    ClassName in d && d[ClassName] != Text("")
  }

  /** What `work` returns: the status, the map as it left it, a retryAfter it persisted, its callbacks. */
  datatype Worked = Worked(status: Status, data: Data, persisted: Option<int>, events: seq<Event>, ran: bool)

  function Work(d: Data, registered: set<string>, o: Outcome): Worked {
    if ClassName !in d then Worked(ErrorRemove, Touch(d, Payload), None, [], false)
    else
      var d := Touch(d, Payload);
      if !d[Payload].Json? then Worked(ErrorRemove, d, None, [], false)
      else
        var p := d[Payload].p;
        var d := Touch(d, Tries);
        if Stoull(d[Tries]).None? then Worked(ErrorRemove, d, None, [], false)
        else
          var d := Touch(d, MaxTries);
          if Stoull(d[MaxTries]).None? then Worked(ErrorRemove, d, None, [], false)
          else if p.className !in registered then Worked(ErrorRetry, d, None, [], false)
          else HandleJobRun(d - {Payload}, p, Stoull(d[Tries]).value, Stoull(d[MaxTries]).value, o)
  }

  /** The part of `work` after the job was built: its retryAfter starts as the payload's. */
  function HandleJobRun(d: Data, p: JobPayload, tries: nat, maxtries: nat, o: Outcome): Worked {
    var retryAfter := if o.retryAfter.Some? then o.retryAfter.value else p.retryAfter;
    var status := if o.ok then NoError else RetryCondition(Next(tries), maxtries);
    var logged := (d - {RetryAfter})[JobStderr := Text(o.errors)][JobStdout := Text(o.output)];
    Worked(status,
           if status == ErrorRetry then logged[Tries := Num(Next(tries))][MaxTries := Num(maxtries)] else logged,
           if !o.ok && retryAfter > 0 then Some(retryAfter) else None,
           if Named(d) then [Started(tries), Completed(status, Next(tries))] else [],
           true)
  }

  /** The try count process_job_result reports: the map's, or 0 when it has none. */
  function ReportedTries(d: Data): nat {
    if Tries in d && Stoull(d[Tries]).Some? then Stoull(d[Tries]).value else 0
  }

  /** The delay a retry gets: the persisted one, or 0 when there is none. */
  function PersistedDelay(stored: Data): int {
    if RetryAfter in stored && stored[RetryAfter].Num? then stored[RetryAfter].n else 0
  }

  /** setPersistentData: given fields are assigned, others stay. */
  function Merge(stored: Data, given: Data): (r: Data)
    ensures r.Keys == stored.Keys + given.Keys
    ensures forall k :: k in given ==> r[k] == given[k]
    ensures forall k :: k in stored && k !in given ==> r[k] == stored[k]
  {
    stored + given
  }

  function Persisted(stored: Data, w: Worked): Data {
    if w.persisted.Some? then Merge(stored, map[RetryAfter := Num(w.persisted.value)]) else stored
  }

  /** The data a push writes. */
  function NewData(max: nat, name: string, payload: JobPayload, now: int): Data {
    map[Tries := Num(0), MaxTries := Num(max), Payload := Json(payload), CreatedAt := Num(now),
        ClassName := Text(name)]
  }

  // ---- What a run preserves ----

  /** The data of a job that was pushed with these values and has been tried t times. */
  ghost predicate Core(d: Data, max: nat, name: string, t: nat) {
    && Tries in d && d[Tries] == Num(t)
    && MaxTries in d && d[MaxTries] == Num(max)
    && ClassName in d && d[ClassName] == Text(name)
  }

  ghost predicate Full(d: Data, max: nat, name: string, p: JobPayload, t: nat) {
    Core(d, max, name, t) && Payload in d && d[Payload] == Json(p)
  }

  /**
    A job with complete data is never removed as malformed: it runs, or its class is not
    registered and it is retried uncounted. The map keeps its counters, and its retryAfter is
    gone from it, so merging it back cannot undo a newer one.
   */
  lemma WorkOnFull(d: Data, registered: set<string>, o: Outcome, max: nat, name: string, p: JobPayload, t: nat)
    requires Full(d, max, name, p, t) && t < TWO64 && max < TWO64
    ensures var w := Work(d, registered, o);
      && (!w.ran ==> p.className !in registered && w == Worked(ErrorRetry, d, None, [], false))
      && (w.ran ==>
            && p.className in registered
            && w.status == (if o.ok then NoError else RetryCondition(Next(t), max))
            && Core(w.data, max, name, if w.status == ErrorRetry then Next(t) else t)
            && Payload !in w.data && RetryAfter !in w.data
            && w.events == (if name != "" then [Started(t), Completed(w.status, Next(t))] else []))
  {
  }

  /** A delay that a run persists leaves the record complete. */
  lemma PersistedFull(d: Data, w: Worked, max: nat, name: string, p: JobPayload, t: nat)
    requires Full(d, max, name, p, t)
    ensures Full(Persisted(d, w), max, name, p, t) && (w.persisted.None? ==> Persisted(d, w) == d)
  {
  }

  /** Merging the map back restores a complete record with the map's try count. */
  lemma MergeKeepsFull(stored: Data, d: Data, max: nat, name: string, p: JobPayload, t: nat, u: nat)
    requires Full(stored, max, name, p, t) && Core(d, max, name, u)
    requires Payload in d ==> d[Payload] == Json(p)
    ensures Full(Merge(stored, d), max, name, p, u)
  {
  }

  /**
    The delay after a run: what the run persisted, else what an earlier run left in the store,
    else none. The map merged back later does not change it.
   */
  lemma DelayOfRun(stored: Data, d: Data, registered: set<string>, o: Outcome)
    ensures var w := Work(d, registered, o);
      && PersistedDelay(Persisted(stored, w)) ==
           (if w.persisted.Some? then w.persisted.value else PersistedDelay(stored))
      && (w.ran ==> PersistedDelay(Merge(Persisted(stored, w), w.data)) == PersistedDelay(Persisted(stored, w)))
  {
  }

  // ---- Every exit ----

  /** Data that `work` cannot make a job of. */
  predicate Malformed(d: Data) {
    || ClassName !in d
    || Payload !in d || !d[Payload].Json?
    || Tries !in d || !d[Tries].Num?
    || MaxTries !in d || !d[MaxTries].Num?
  }

  /**
    A malformed job is removed, one of an unregistered class is retried, and neither runs or is
    told of; the map only gains empty texts. Any other job runs.
   */
  lemma WorkExits(d: Data, registered: set<string>, o: Outcome)
    ensures var w := Work(d, registered, o);
      && (Malformed(d) ==> w.status == ErrorRemove && !w.ran)
      && (!Malformed(d) ==> (w.ran <==> d[Payload].p.className in registered))
      && (!Malformed(d) && !w.ran ==> w.status == ErrorRetry && w.data == d)
      && (!w.ran ==>
            && w.events == [] && w.persisted.None?
            && d.Keys <= w.data.Keys <= d.Keys + {Payload, Tries, MaxTries}
            && forall k :: k in w.data ==> w.data[k] == if k in d then d[k] else Text(""))
  {
  }

  /**
    A run leaves in the map what it printed and, if it is retried, the counters; the payload and
    an old delay are gone from it, and all other fields are as they were.
   */
  lemma RunLeaves(d: Data, registered: set<string>, o: Outcome)
    requires !Malformed(d) && d[Payload].p.className in registered
    ensures var w := Work(d, registered, o);
      && (JobStdout in w.data && w.data[JobStdout] == Text(o.output))
      && (JobStderr in w.data && w.data[JobStderr] == Text(o.errors))
      && Payload !in w.data && RetryAfter !in w.data
      && (w.status == ErrorRetry ==>
            && w.data[Tries] == Num((d[Tries].n % TWO64 + 1) % TWO64)
            && w.data[MaxTries] == Num(d[MaxTries].n % TWO64))
      && (w.status != ErrorRetry ==> w.data[Tries] == d[Tries] && w.data[MaxTries] == d[MaxTries])
      && ClassName in w.data && w.data[ClassName] == d[ClassName]
      && (CreatedAt in w.data <==> CreatedAt in d) && (CreatedAt in d ==> w.data[CreatedAt] == d[CreatedAt])
  {
  }

  /** What a push stores. */
  lemma PushedData(max: nat, name: string, p: JobPayload, now: int)
    ensures var d := NewData(max, name, p, now);
      && Full(d, max, name, p, 0) && CreatedAt in d && d[CreatedAt] == Num(now)
      && d.Keys == {Tries, MaxTries, Payload, CreatedAt, ClassName}
  {
  }

  // ---- The time of the push ----

  /** A job pushed at this time. */
  predicate Dated(d: Data, t: int) {
    CreatedAt in d && d[CreatedAt] == Num(t)
  }

  /** Neither a run nor the merge of its map changes the time of the push. */
  lemma WorkKeepsDate(d: Data, registered: set<string>, o: Outcome, t: int)
    requires Dated(d, t)
    ensures Dated(Work(d, registered, o).data, t)
  {
  }

  lemma MergeKeepsDate(stored: Data, w: Worked, t: int)
    requires Dated(stored, t)
    ensures Dated(Persisted(stored, w), t)
    ensures Dated(w.data, t) ==> Dated(Merge(stored, w.data), t)
  {
  }
}
