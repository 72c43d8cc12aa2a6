/** The in-process job store (internal/jobs/memory_store.go): jobs with their idempotency, session and
    timer indices.  Clock readings come in as arguments, in nanoseconds. */
module Jobs {
  import opened Util

  type Id = string

  datatype Status = Unset | Pending | Running | Succeeded | Failed | Cancelled | Other(name: string)

  predicate IsTerminal(status: Status) {
    status.Succeeded? || status.Failed? || status.Cancelled?
  }

  datatype Job = Job(
    id: Id,
    sessionId: string,
    clientId: string,
    correlationId: string,
    key: string,                  // the idempotency key; none if empty
    timeoutSecs: int,
    createdAt: int,               // the zero time if not set yet
    status: Status,
    result: Option<string>,
    error: string,
    updatedAt: int,
    completedAt: Option<int>)

  datatype Error = NotFound | DuplicateIdempotencyKey

  const DEFAULT_TIMEOUT: int := 300 * SECOND
  const SECOND: int := 1_000_000_000
  const ZERO_TIME: int := -62_135_596_800 * SECOND      // the start of year 1

  /** The store's four maps; a timer is kept with its deadline. */
  datatype Tables = Tables(
    jobs: map<Id, Job>,
    byIdemKey: map<string, Id>,
    bySession: map<string, seq<Id>>,
    timers: map<Id, int>)

  // ---------------------------------------------------------------- what the operations do

  /** A job as it is stored at `now`. */
  function Filled(job: Job, now: int): Job {
    job.(createdAt := if job.createdAt == ZERO_TIME then now else job.createdAt,
         updatedAt := now,
         status := if job.status.Unset? then Pending else job.status)
  }

  function TimeoutOf(job: Job, defaultTimeout: int): int {
    if job.timeoutSecs > 0 then job.timeoutSecs * SECOND else defaultTimeout
  }

  function Holder(t: Tables, key: string): Option<Job> {
    if key in t.byIdemKey && t.byIdemKey[key] in t.jobs then Some(t.jobs[t.byIdemKey[key]]) else None
  }

  function SessionIds(t: Tables, session: string): seq<Id> {
    if session in t.bySession then t.bySession[session] else []
  }

  function CreateError(t: Tables, job: Option<Job>): Option<Error> {
    if job.None? || job.value.id == "" then Some(NotFound)
    else if job.value.key != "" && Holder(t, job.value.key).Some? && !Holder(t, job.value.key).value.status.Failed? then
      Some(DuplicateIdempotencyKey)
    else None
  }

  function Inserted(t: Tables, job: Job, defaultTimeout: int): Tables {
    Tables(
      t.jobs[job.id := job],
      if job.key == "" then t.byIdemKey else t.byIdemKey[job.key := job.id],
      t.bySession[job.sessionId := SessionIds(t, job.sessionId) + [job.id]],
      t.timers[job.id := job.updatedAt + TimeoutOf(job, defaultTimeout)])
  }

  /** A timeout ends a job that has not ended. */
  function TimedOut(t: Tables, id: Id, now: int): Tables {
    if id !in t.jobs || IsTerminal(t.jobs[id].status) then t
    else
      t.(jobs := t.jobs[id := t.jobs[id].(status := Failed, error := "timeout", updatedAt := now, completedAt := Some(now))],
         timers := t.timers - {id})
  }

  function Changed(job: Job, status: Status, result: Option<string>, error: string, now: int): Job {
    job.(status := status,
         updatedAt := now,
         result := if result.Some? then result else job.result,
         error := if error != "" then error else job.error,
         completedAt := if IsTerminal(status) then Some(now) else job.completedAt)
  }

  function Updated(t: Tables, id: Id, status: Status, result: Option<string>, error: string, now: int): Tables {
    if id !in t.jobs then t
    else
      t.(jobs := t.jobs[id := Changed(t.jobs[id], status, result, error, now)],
         timers := if IsTerminal(status) then t.timers - {id} else t.timers)
  }

  // ---------------------------------------------------------------- runs

  datatype Op =
    | Create(job: Option<Job>, now: int)
    | Timeout(id: Id, now: int)
    | Update(id: Id, status: Status, result: Option<string>, error: string, now: int)

  /** A store with the record of the jobs it accepted, as stored then and oldest first, and of those
      that ever ended. */
  datatype State = State(tables: Tables, created: seq<Job>, ended: set<Id>)

  const INITIAL: State := State(Tables(map[], map[], map[], map[]), [], {})

  function Do(t: Tables, op: Op, defaultTimeout: int): Tables {
    match op
    case Create(job, now) =>
      if CreateError(t, job).Some? then t else Inserted(t, Filled(job.value, now), defaultTimeout)
    case Timeout(id, now) => TimedOut(t, id, now)
    case Update(id, status, result, error, now) => Updated(t, id, status, result, error, now)
  }

  function Accepts(t: Tables, op: Op): (b: bool) {
    op.Create? && CreateError(t, op.job).None?
  }

  function Step(s: State, op: Op, defaultTimeout: int): State {
    var t := Do(s.tables, op, defaultTimeout);
    if Accepts(s.tables, op) then State(t, s.created + [Filled(op.job.value, op.now)], s.ended)
    else if !op.Create? && op.id in t.jobs && IsTerminal(t.jobs[op.id].status) then State(t, s.created, s.ended + {op.id})
    else State(t, s.created, s.ended)
  }

  /** A job that is created has a new id and has not ended. */
  predicate Enabled(s: State, op: Op) {
    Accepts(s.tables, op) ==> op.job.value.id !in s.tables.jobs && !IsTerminal(op.job.value.status)
  }

  predicate Legal(s: State, run: seq<Op>, defaultTimeout: int)
    decreases |run|
  {
    run == [] || (Enabled(s, run[0]) && Legal(Step(s, run[0], defaultTimeout), run[1..], defaultTimeout))
  }

  function After(s: State, run: seq<Op>, defaultTimeout: int): State
    decreases |run|
  {
    if run == [] then s else After(Step(s, run[0], defaultTimeout), run[1..], defaultTimeout)
  }

  // ---------------------------------------------------------------- scans over the history

  /** The most recently created job with the key. */
  function Latest(created: seq<Job>, key: string): Option<Job> {
    if created == [] then None
    else
      var newest := created[|created| - 1];
      if newest.key == key then Some(newest) else Latest(created[..|created| - 1], key)
  }

  /** The ids of a session's jobs in the order of creation. */
  function IdsOf(created: seq<Job>, session: string): seq<Id> {
    if created == [] then []
    else
      var newest := created[|created| - 1];
      IdsOf(created[..|created| - 1], session) + (if newest.sessionId == session then [newest.id] else [])
  }

  lemma {:induction false} LatestIsTheLast(created: seq<Job>, key: string) returns (at: int)
    ensures Latest(created, key).None? ==> forall i :: 0 <= i < |created| ==> created[i].key != key
    ensures Latest(created, key).Some? ==> LastAt(created, key, Latest(created, key).value, at)
  {
    at := 0;
    if created != [] {
      var n := |created| - 1;
      var rest := created[..n];
      at := LatestIsTheLast(rest, key);
      if created[n].key == key {
        at := n;
      } else if Latest(rest, key).Some? {
        LastAtMore(rest, created[n], key, Latest(rest, key).value, at);
        assert created == rest + [created[n]];
      }
    }
  }

  /** The job is at i, and no later one has the key. */
  predicate LastAt(created: seq<Job>, key: string, job: Job, i: int) {
    0 <= i < |created| && created[i] == job && job.key == key && forall j :: i < j < |created| ==> created[j].key != key
  }

  lemma LastAtMore(created: seq<Job>, newer: Job, key: string, job: Job, i: int)
    requires LastAt(created, key, job, i) && newer.key != key
    ensures LastAt(created + [newer], key, job, i)
  {
  }

  lemma {:induction false} IdsOfIsTheFilter(created: seq<Job>, session: string, id: Id)
    ensures id in IdsOf(created, session) <==> exists i :: 0 <= i < |created| && created[i].id == id && created[i].sessionId == session
  {
    if created != [] {
      var rest := created[..|created| - 1];
      IdsOfIsTheFilter(rest, session, id);
      if exists i :: 0 <= i < |created| && created[i].id == id && created[i].sessionId == session {
        var i :| 0 <= i < |created| && created[i].id == id && created[i].sessionId == session;
        assert i < |rest| ==> rest[i] == created[i];
      }
    }
  }

  lemma {:induction false} IdsOfAreDistinct(created: seq<Job>, session: string)
    requires NoDuplicates(created)
    ensures forall i, j :: 0 <= i < j < |IdsOf(created, session)| ==> IdsOf(created, session)[i] != IdsOf(created, session)[j]
  {
    if created != [] {
      var rest := created[..|created| - 1];
      IdsOfAreDistinct(rest, session);
      var newest := created[|created| - 1];
      IdsOfIsTheFilter(rest, session, newest.id);
      assert forall i :: 0 <= i < |rest| ==> rest[i] == created[i];
    }
  }

  // ---------------------------------------------------------------- invariants

  predicate NoDuplicates(created: seq<Job>) {
    forall i, j :: 0 <= i < j < |created| ==> created[i].id != created[j].id
  }

  /** What never changes about a job. */
  predicate SameJob(a: Job, b: Job) {
    a.id == b.id && a.sessionId == b.sessionId && a.key == b.key && a.createdAt == b.createdAt &&
    a.timeoutSecs == b.timeoutSecs && a.clientId == b.clientId && a.correlationId == b.correlationId
  }

  predicate WasCreated(created: seq<Job>, id: Id) {
    exists i :: 0 <= i < |created| && created[i].id == id
  }

  predicate JobsOk(s: State) {
    && NoDuplicates(s.created)
    && (forall i :: 0 <= i < |s.created| ==>
          s.created[i].id in s.tables.jobs && SameJob(s.tables.jobs[s.created[i].id], s.created[i]))
    && (forall id :: id in s.tables.jobs ==> WasCreated(s.created, id))
  }

  ghost predicate KeysOk(s: State) {
    && "" !in s.tables.byIdemKey
    && forall key :: key != "" ==>
         (key in s.tables.byIdemKey <==> Latest(s.created, key).Some?) &&
         (key in s.tables.byIdemKey ==> s.tables.byIdemKey[key] == Latest(s.created, key).value.id)
  }

  ghost predicate SessionsOk(s: State) {
    forall session :: SessionIds(s.tables, session) == IdsOf(s.created, session)
  }

  predicate TimersOk(s: State, defaultTimeout: int) {
    && (forall id :: id in s.tables.timers ==> id in s.tables.jobs && id !in s.ended)
    && (forall i :: 0 <= i < |s.created| && s.created[i].id !in s.ended ==>
          s.created[i].id in s.tables.timers &&
          s.tables.timers[s.created[i].id] == s.created[i].updatedAt + TimeoutOf(s.created[i], defaultTimeout))
    && (forall id :: id in s.ended ==> id in s.tables.jobs)
    && (forall id :: id in s.tables.jobs && IsTerminal(s.tables.jobs[id].status) ==> id in s.ended)
  }

  ghost predicate Inv(s: State, defaultTimeout: int) {
    JobsOk(s) && KeysOk(s) && SessionsOk(s) && TimersOk(s, defaultTimeout)
  }

  lemma StepKeepsJobs(s: State, op: Op, defaultTimeout: int)
    requires JobsOk(s) && Enabled(s, op)
    ensures JobsOk(Step(s, op, defaultTimeout))
  {
    if op.Create? {
      if Accepts(s.tables, op) {
        CreateKeepsJobs(s, Filled(op.job.value, op.now), defaultTimeout);
      }
    } else if op.id in s.tables.jobs {
      ChangeKeepsJobs(s, Do(s.tables, op, defaultTimeout), op.id);
    }
  }

  lemma CreateKeepsJobs(s: State, job: Job, defaultTimeout: int)
    requires JobsOk(s) && job.id !in s.tables.jobs
    ensures JobsOk(State(Inserted(s.tables, job, defaultTimeout), s.created + [job], s.ended))
  {
    var t := State(Inserted(s.tables, job, defaultTimeout), s.created + [job], s.ended);
    assert t.created[|s.created|] == job;
    forall id | id in t.tables.jobs
      ensures WasCreated(t.created, id)
    {
      if id != job.id {
        var i :| 0 <= i < |s.created| && s.created[i].id == id;
        assert t.created[i].id == id;
      }
    }
  }

  lemma ChangeKeepsJobs(s: State, t: Tables, id: Id)
    requires JobsOk(s) && id in s.tables.jobs && id in t.jobs
    requires t.jobs == s.tables.jobs[id := t.jobs[id]] && SameJob(s.tables.jobs[id], t.jobs[id])
    ensures forall ended :: JobsOk(State(t, s.created, ended))
  {
  }

  lemma StepKeepsKeys(s: State, op: Op, defaultTimeout: int)
    requires KeysOk(s)
    ensures KeysOk(Step(s, op, defaultTimeout))
  {
    if Accepts(s.tables, op) {
      assert Step(s, op, defaultTimeout).created[..|s.created|] == s.created;
    }
  }

  lemma StepKeepsSessions(s: State, op: Op, defaultTimeout: int)
    requires SessionsOk(s)
    ensures SessionsOk(Step(s, op, defaultTimeout))
  {
    var t := Step(s, op, defaultTimeout);
    if Accepts(s.tables, op) {
      assert t.created[..|s.created|] == s.created;
      assert t.created[|s.created|] == Filled(op.job.value, op.now);
    }
    forall session
      ensures SessionIds(t.tables, session) == IdsOf(t.created, session)
    {
      assert SessionIds(s.tables, session) == IdsOf(s.created, session);
    }
  }

  lemma StepKeepsTimers(s: State, op: Op, defaultTimeout: int)
    requires JobsOk(s) && TimersOk(s, defaultTimeout) && Enabled(s, op)
    ensures TimersOk(Step(s, op, defaultTimeout), defaultTimeout)
  {
    if op.Create? {
      if Accepts(s.tables, op) {
        CreateKeepsTimers(s, Filled(op.job.value, op.now), defaultTimeout);
      }
    } else if op.id in s.tables.jobs {
      var t := Do(s.tables, op, defaultTimeout);
      ChangeKeepsTimers(s, t, op.id, defaultTimeout);
    }
  }

  lemma CreateKeepsTimers(s: State, job: Job, defaultTimeout: int)
    requires TimersOk(s, defaultTimeout) && job.id !in s.tables.jobs && !IsTerminal(job.status)
    requires JobsOk(s)
    ensures TimersOk(State(Inserted(s.tables, job, defaultTimeout), s.created + [job], s.ended), defaultTimeout)
  {
  }

  /** A change of one job keeps the timers right if it drops the timer exactly when the job ends. */
  lemma ChangeKeepsTimers(s: State, t: Tables, id: Id, defaultTimeout: int)
    requires JobsOk(s) && TimersOk(s, defaultTimeout) && id in s.tables.jobs && id in t.jobs
    requires t.jobs == s.tables.jobs[id := t.jobs[id]]
    requires IsTerminal(t.jobs[id].status) ==> t.timers == s.tables.timers - {id} || (t == s.tables && id in s.ended)
    requires !IsTerminal(t.jobs[id].status) ==> t.timers == s.tables.timers
    ensures TimersOk(State(t, s.created, if IsTerminal(t.jobs[id].status) then s.ended + {id} else s.ended), defaultTimeout)
  {
  }

  lemma {:induction false} RunKeepsInv(s: State, run: seq<Op>, defaultTimeout: int)
    requires Inv(s, defaultTimeout) && Legal(s, run, defaultTimeout)
    ensures Inv(After(s, run, defaultTimeout), defaultTimeout)
    decreases |run|
  {
    if run != [] {
      StepKeepsJobs(s, run[0], defaultTimeout);
      StepKeepsKeys(s, run[0], defaultTimeout);
      StepKeepsSessions(s, run[0], defaultTimeout);
      StepKeepsTimers(s, run[0], defaultTimeout);
      RunKeepsInv(Step(s, run[0], defaultTimeout), run[1..], defaultTimeout);
    }
  }

  // ---------------------------------------------------------------- what a run guarantees

  /** The state that a run from an empty store reaches. */
  ghost predicate Reachable(s: State, defaultTimeout: int) {
    exists run :: Legal(INITIAL, run, defaultTimeout) && s == After(INITIAL, run, defaultTimeout)
  }

  lemma ReachableOk(s: State, defaultTimeout: int)
    requires Reachable(s, defaultTimeout)
    ensures Inv(s, defaultTimeout)
  {
    var run :| Legal(INITIAL, run, defaultTimeout) && s == After(INITIAL, run, defaultTimeout);
    RunKeepsInv(INITIAL, run, defaultTimeout);
  }

  /** In every reachable state the idempotency index gives what a scan for the most recently created
      job with the key gives, as that job is now; the empty key finds nothing. */
  lemma FindIsLatest(s: State, defaultTimeout: int, key: string)
    requires Reachable(s, defaultTimeout)
    ensures match Holder(s.tables, key)
            case None => key == "" || forall id :: id in s.tables.jobs ==> s.tables.jobs[id].key != key
            case Some(job) => key != "" && job.id in s.tables.jobs && job == s.tables.jobs[job.id] &&
                              exists i :: 0 <= i < |s.created| && s.created[i].id == job.id && job.key == key &&
                                          forall j :: i < j < |s.created| ==> s.created[j].key != key
  {
    ReachableOk(s, defaultTimeout);
    var at := LatestIsTheLast(s.created, key);
    if Holder(s.tables, key).Some? {
      var last := Latest(s.created, key).value;
      assert SameJob(s.tables.jobs[last.id], last);
    } else if key != "" {
      forall id | id in s.tables.jobs
        ensures s.tables.jobs[id].key != key
      {
        var i :| 0 <= i < |s.created| && s.created[i].id == id;
        assert SameJob(s.tables.jobs[id], s.created[i]);
      }
    }
  }

  /** In every reachable state a timer is registered for exactly the jobs that never ended, set for
      the timeout from the job's creation; so none belongs to a job that is over. */
  lemma TimersOfLiveJobs(s: State, defaultTimeout: int, id: Id)
    requires Reachable(s, defaultTimeout)
    ensures id in s.tables.timers <==> id in s.tables.jobs && id !in s.ended
    ensures id in s.tables.timers ==> !IsTerminal(s.tables.jobs[id].status)
    ensures id in s.tables.timers ==>
              exists i :: 0 <= i < |s.created| && s.created[i].id == id &&
                          s.tables.timers[id] == s.created[i].updatedAt + TimeoutOf(s.created[i], defaultTimeout)
  {
    ReachableOk(s, defaultTimeout);
  }

  /** In every reachable state another job is accepted under a key exactly if there is none or the most
      recently created one has failed by now. */
  lemma SecondCreateIff(s: State, defaultTimeout: int, job: Job)
    requires Reachable(s, defaultTimeout) && job.id != ""
    ensures CreateError(s.tables, Some(job)).None? <==>
              job.key == "" || Latest(s.created, job.key).None? ||
              (var last := Latest(s.created, job.key).value.id;
               last in s.tables.jobs && s.tables.jobs[last].status.Failed?)
  {
    ReachableOk(s, defaultTimeout);
    var at := LatestIsTheLast(s.created, job.key);
  }

  // ---------------------------------------------------------------- idempotency

  /** Every job that a later one with its key has replaced has failed, so at most one job per key
      has not. */
  ghost predicate ReplacedHaveFailed(t: Tables) {
    forall id :: id in t.jobs && t.jobs[id].key != "" && !t.jobs[id].status.Failed? ==>
      t.jobs[id].key in t.byIdemKey && t.byIdemKey[t.jobs[id].key] == id
  }

  /** An update that takes a job out of its failed state after a later one took its key. */
  predicate Revives(t: Tables, op: Op) {
    op.Update? && op.id in t.jobs && t.jobs[op.id].key != "" && !op.status.Failed? &&
    t.jobs[op.id].key in t.byIdemKey && t.byIdemKey[t.jobs[op.id].key] != op.id
  }

  /** In a consistent store every key in use is in the index. */
  lemma KeysAreIndexed(s: State, id: Id)
    requires JobsOk(s) && KeysOk(s) && id in s.tables.jobs && s.tables.jobs[id].key != ""
    ensures s.tables.jobs[id].key in s.tables.byIdemKey && s.tables.jobs[id].id == id
  {
    var i :| 0 <= i < |s.created| && s.created[i].id == id;
    assert SameJob(s.tables.jobs[id], s.created[i]);
    var at := LatestIsTheLast(s.created, s.tables.jobs[id].key);
  }

  lemma CreateKeepsReplaced(s: State, job: Job, defaultTimeout: int)
    requires JobsOk(s) && KeysOk(s) && ReplacedHaveFailed(s.tables)
    requires job.id !in s.tables.jobs && CreateError(s.tables, Some(job)).None?
    ensures ReplacedHaveFailed(Inserted(s.tables, job, defaultTimeout))
  {
    var t := Inserted(s.tables, job, defaultTimeout);
    forall id | id in t.jobs && t.jobs[id].key != "" && !t.jobs[id].status.Failed?
      ensures t.jobs[id].key in t.byIdemKey && t.byIdemKey[t.jobs[id].key] == id
    {
      if id != job.id {
        KeysAreIndexed(s, id);
      }
    }
  }

  /** A step that changes at most one job's status keeps the guarantee unless the job was replaced and
      is no longer failed. */
  lemma ChangeKeepsReplaced(t: Tables, u: Tables, id: Id)
    requires ReplacedHaveFailed(t) && id in t.jobs
    requires u.byIdemKey == t.byIdemKey && id in u.jobs && u.jobs == t.jobs[id := u.jobs[id]] && u.jobs[id].key == t.jobs[id].key
    ensures ReplacedHaveFailed(u) <==>
            u.jobs[id].key == "" || u.jobs[id].status.Failed? ||
            (u.jobs[id].key in u.byIdemKey && u.byIdemKey[u.jobs[id].key] == id)
  {
  }

  /** Nothing guards an update against the job's present status: the idempotency guarantee survives a
      step exactly if the step does not revive a replaced job. */
  lemma KeptUnlessRevived(s: State, op: Op, defaultTimeout: int)
    requires JobsOk(s) && KeysOk(s) && Enabled(s, op) && ReplacedHaveFailed(s.tables)
    ensures ReplacedHaveFailed(Step(s, op, defaultTimeout).tables) <==> !Revives(s.tables, op)
  {
    var t := s.tables;
    var u := Do(t, op, defaultTimeout);
    assert Step(s, op, defaultTimeout).tables == u;
    if op.Create? {
      if Accepts(t, op) {
        CreateKeepsReplaced(s, Filled(op.job.value, op.now), defaultTimeout);
      }
    } else if op.id in t.jobs && u.jobs != t.jobs {
      ChangeKeepsReplaced(t, u, op.id);
      if t.jobs[op.id].key != "" {
        KeysAreIndexed(s, op.id);
      }
    }
  }

  /** Such a revival can happen: a job fails, a second one takes its key, and the first is set running
      again; then the store holds two live jobs under one key. */
  lemma RevivedJobsCollide(a: Job, b: Job, now: int, defaultTimeout: int)
    requires a.id != "" && b.id != "" && a.id != b.id && a.key == b.key != ""
    requires !IsTerminal(a.status) && !IsTerminal(b.status)
    ensures var run := [Create(Some(a), now), Update(a.id, Failed, None, "", now), Create(Some(b), now),
                        Update(a.id, Running, None, "", now)];
            && Legal(INITIAL, run, defaultTimeout)
            && var jobs := After(INITIAL, run, defaultTimeout).tables.jobs;
               a.id in jobs && b.id in jobs && jobs[a.id].key == jobs[b.id].key == a.key &&
               !jobs[a.id].status.Failed? && !jobs[b.id].status.Failed?
  {
    var ops := (Create(Some(a), now), Update(a.id, Failed, None, "", now), Create(Some(b), now), Update(a.id, Running, None, "", now));
    var s1 := Step(INITIAL, ops.0, defaultTimeout);
    var s2 := Step(s1, ops.1, defaultTimeout);
    var s3 := Step(s2, ops.2, defaultTimeout);
    var s4 := Step(s3, ops.3, defaultTimeout);
    var run := [ops.0, ops.1, ops.2, ops.3];
    assert run[1..] == [ops.1, ops.2, ops.3] && run[1..][1..] == [ops.2, ops.3] && run[1..][1..][1..] == [ops.3];
    assert Accepts(s2.tables, ops.2);
    assert After(s3, [ops.3], defaultTimeout) == s4;
    assert Legal(s3, [ops.3], defaultTimeout);
    assert After(s2, [ops.2, ops.3], defaultTimeout) == s4;
    assert Legal(s2, [ops.2, ops.3], defaultTimeout);
    assert After(s1, [ops.1, ops.2, ops.3], defaultTimeout) == s4;
    assert Legal(s1, [ops.1, ops.2, ops.3], defaultTimeout);
    assert After(INITIAL, run, defaultTimeout) == s4;
  }

  predicate NeverRevives(s: State, run: seq<Op>, defaultTimeout: int)
    decreases |run|
  {
    run == [] ||
    (!Revives(s.tables, run[0]) && NeverRevives(Step(s, run[0], defaultTimeout), run[1..], defaultTimeout))
  }

  lemma {:induction false} RunKeepsReplaced(s: State, run: seq<Op>, defaultTimeout: int)
    requires Inv(s, defaultTimeout) && ReplacedHaveFailed(s.tables)
    requires Legal(s, run, defaultTimeout) && NeverRevives(s, run, defaultTimeout)
    ensures ReplacedHaveFailed(After(s, run, defaultTimeout).tables)
    decreases |run|
  {
    if run != [] {
      KeptUnlessRevived(s, run[0], defaultTimeout);
      RunKeepsInv(s, run[..1], defaultTimeout);
      assert After(s, run[..1], defaultTimeout) == Step(s, run[0], defaultTimeout);
      RunKeepsReplaced(Step(s, run[0], defaultTimeout), run[1..], defaultTimeout);
    }
  }

  /** Across any run that never revives a replaced job, two jobs with one key are never both pending,
      running or done. */
  lemma OneLiveJobPerKey(run: seq<Op>, defaultTimeout: int, a: Id, b: Id)
    requires Legal(INITIAL, run, defaultTimeout) && NeverRevives(INITIAL, run, defaultTimeout)
    requires var jobs := After(INITIAL, run, defaultTimeout).tables.jobs;
             a in jobs && b in jobs && jobs[a].key == jobs[b].key && jobs[a].key != "" &&
             !jobs[a].status.Failed? && !jobs[b].status.Failed?
    ensures a == b
  {
    RunKeepsReplaced(INITIAL, run, defaultTimeout);
  }

  // ---------------------------------------------------------------- listings

  predicate NewestFirst(list: seq<Job>) {
    forall i, j :: 0 <= i < j < |list| ==> list[i].createdAt >= list[j].createdAt
  }

  /** The jobs that still exist among some ids. */
  function Present(jobs: map<Id, Job>, ids: seq<Id>): seq<Job> {
    if ids == [] then []
    else
      Present(jobs, ids[..|ids| - 1]) + (if ids[|ids| - 1] in jobs then [jobs[ids[|ids| - 1]]] else [])
  }

  /** `list` is the front, cut at a positive limit, of some arrangement of `all` from newest to oldest. */
  ghost predicate Lists(all: seq<Job>, limit: int, list: seq<Job>) {
    && |list| == (if limit > 0 then Min(limit, |all|) else |all|)
    && exists rest :: Arranged(all, list, rest)
  }

  ghost predicate Arranged(all: seq<Job>, list: seq<Job>, rest: seq<Job>) {
    multiset(list + rest) == multiset(all) && NewestFirst(list + rest)
  }

  lemma {:induction false} PresentAll(jobs: map<Id, Job>, ids: seq<Id>)
    requires forall i :: 0 <= i < |ids| ==> ids[i] in jobs
    ensures |Present(jobs, ids)| == |ids|
    ensures forall i :: 0 <= i < |ids| ==> Present(jobs, ids)[i] == jobs[ids[i]]
  {
    if ids != [] {
      PresentAll(jobs, ids[..|ids| - 1]);
    }
  }

  /** In every reachable state, whatever order ties are put in, a session's listing holds jobs of that
      session as they are now, none twice, newest first, and leaves one out only when the limit is
      reached with jobs at least as new. */
  lemma ListingIsNewestOfSession(s: State, defaultTimeout: int, session: string, limit: int, list: seq<Job>)
    requires Reachable(s, defaultTimeout)
    requires Lists(Present(s.tables.jobs, SessionIds(s.tables, session)), limit, list)
    ensures forall i :: 0 <= i < |list| ==>
              list[i].id in s.tables.jobs && s.tables.jobs[list[i].id] == list[i] && list[i].sessionId == session
    ensures forall i, j :: 0 <= i < j < |list| ==>
              list[i].id != list[j].id && list[i].createdAt >= list[j].createdAt
    ensures forall id :: id in s.tables.jobs && s.tables.jobs[id].sessionId == session && s.tables.jobs[id] !in list ==>
              limit > 0 && |list| == limit &&
              forall i :: 0 <= i < |list| ==> list[i].createdAt >= s.tables.jobs[id].createdAt
  {
    var jobs := s.tables.jobs;
    var all := Present(jobs, SessionIds(s.tables, session));
    SessionJobs(s, defaultTimeout, session);
    var rest :| Arranged(all, list, rest);
    FrontIsNewest(all, limit, list, rest);
    forall id | id in jobs && jobs[id].sessionId == session && jobs[id] !in list
      ensures limit > 0 && |list| == limit && forall i :: 0 <= i < |list| ==> list[i].createdAt >= jobs[id].createdAt
    {
      assert jobs[id] in all;
    }
  }

  /** The jobs behind a session's index are the session's jobs, each once. */
  lemma SessionJobs(s: State, defaultTimeout: int, session: string)
    requires Reachable(s, defaultTimeout)
    ensures var all := Present(s.tables.jobs, SessionIds(s.tables, session));
            && (forall i, j :: 0 <= i < j < |all| ==> all[i].id != all[j].id)
            && (forall job :: job in all <==> job.id in s.tables.jobs && s.tables.jobs[job.id] == job && job.sessionId == session)
            && (forall id :: id in s.tables.jobs ==> s.tables.jobs[id].id == id)
  {
    ReachableOk(s, defaultTimeout);
    var ids := SessionIds(s.tables, session);
    var all := Present(s.tables.jobs, ids);
    IdsOfAreDistinct(s.created, session);
    JobsKnowTheirIds(s);
    forall id
      ensures id in ids <==> id in s.tables.jobs && s.tables.jobs[id].sessionId == session
    {
      InSessionIndex(s, session, id);
    }
    PresentAll(s.tables.jobs, ids);
    forall job
      ensures job in all <==> job.id in s.tables.jobs && s.tables.jobs[job.id] == job && job.sessionId == session
    {
      if job in all {
        var i :| 0 <= i < |all| && all[i] == job;
        assert ids[i] in ids;
      }
      if job.id in s.tables.jobs && s.tables.jobs[job.id] == job && job.sessionId == session {
        var i :| 0 <= i < |ids| && ids[i] == job.id;
        assert all[i] == job;
      }
    }
  }

  lemma InSessionIndex(s: State, session: string, id: Id)
    requires JobsOk(s) && SessionsOk(s)
    ensures id in SessionIds(s.tables, session) <==> id in s.tables.jobs && s.tables.jobs[id].sessionId == session
  {
    assert SessionIds(s.tables, session) == IdsOf(s.created, session);
    IdsOfIsTheFilter(s.created, session, id);
    if id in s.tables.jobs {
      var i :| 0 <= i < |s.created| && s.created[i].id == id;
      assert SameJob(s.tables.jobs[id], s.created[i]);
    }
  }

  lemma JobsKnowTheirIds(s: State)
    requires JobsOk(s)
    ensures forall id :: id in s.tables.jobs ==> s.tables.jobs[id].id == id
  {
    forall id | id in s.tables.jobs
      ensures s.tables.jobs[id].id == id
    {
      var i :| 0 <= i < |s.created| && s.created[i].id == id;
      assert SameJob(s.tables.jobs[id], s.created[i]);
    }
  }

  /** The front of an arrangement has no job twice, and what it leaves out is no newer. */
  lemma FrontIsNewest(all: seq<Job>, limit: int, list: seq<Job>, rest: seq<Job>)
    requires Arranged(all, list, rest)
    requires |list| == (if limit > 0 then Min(limit, |all|) else |all|)
    requires forall i, j :: 0 <= i < j < |all| ==> all[i].id != all[j].id
    ensures forall i :: 0 <= i < |list| ==> list[i] in all
    ensures forall i, j :: 0 <= i < j < |list| ==>
              list[i].id != list[j].id && list[i].createdAt >= list[j].createdAt
    ensures forall job :: job in all && job !in list ==>
              limit > 0 && |list| == limit &&
              forall i :: 0 <= i < |list| ==> list[i].createdAt >= job.createdAt
  {
    var whole := list + rest;
    assert |whole| == |multiset(whole)| == |multiset(all)| == |all|;
    forall i | 0 <= i < |whole|
      ensures whole[i] in all
    {
      assert whole[i] in multiset(whole);
    }
    SameBagStaysDistinct(all, whole);
    assert forall i :: 0 <= i < |list| ==> whole[i] == list[i];
    forall job | job in all && job !in list
      ensures job in rest
    {
      assert job in multiset(all);
      assert job in whole;
    }
    forall job, i | job in rest && 0 <= i < |list|
      ensures list[i].createdAt >= job.createdAt
    {
      var j :| 0 <= j < |rest| && rest[j] == job;
      assert whole[|list| + j] == job && whole[i] == list[i];
    }
  }

  lemma SameBagStaysDistinct(all: seq<Job>, whole: seq<Job>)
    requires multiset(whole) == multiset(all)
    requires forall i, j :: 0 <= i < j < |all| ==> all[i].id != all[j].id
    ensures forall i, j :: 0 <= i < j < |whole| ==> whole[i].id != whole[j].id
  {
    forall i, j | 0 <= i < j < |whole|
      ensures whole[i].id != whole[j].id
    {
      assert whole[i] in multiset(whole) && whole[j] in multiset(whole);
      assert whole[i] in all && whole[j] in all;
      if whole[i] == whole[j] {
        TwiceIn(whole, i, j);
        OnceIn(all, whole[i]);
        assert false;
      }
    }
  }

  lemma TwiceIn(s: seq<Job>, i: nat, j: nat)
    requires i < j < |s| && s[i] == s[j]
    ensures multiset(s)[s[i]] >= 2
  {
    assert s == s[..i + 1] + s[i + 1..];
    assert s[..i + 1][i] == s[i] && s[i + 1..][j - i - 1] == s[i];
    assert s[i] in multiset(s[..i + 1]) && s[i] in multiset(s[i + 1..]);
  }

  lemma {:induction false} OnceIn(s: seq<Job>, job: Job)
    requires forall i, j :: 0 <= i < j < |s| ==> s[i].id != s[j].id
    ensures multiset(s)[job] <= 1
  {
    if s != [] {
      var rest := s[..|s| - 1];
      assert s == rest + [s[|s| - 1]];
      OnceIn(rest, job);
      if job == s[|s| - 1] {
        assert job !in rest;
        assert job !in multiset(rest);
      }
    }
  }

  // ---------------------------------------------------------------- the store

  class MemoryStore {
    const defaultTimeout: int
    var jobs: map<Id, Job>
    var byIdemKey: map<string, Id>
    var bySession: map<string, seq<Id>>
    var timers: map<Id, int>

    function Contents(): Tables
      reads this
    {
      Tables(jobs, byIdemKey, bySession, timers)
    }

    constructor (timeout: int)
      ensures Contents() == INITIAL.tables
      ensures defaultTimeout == (if timeout <= 0 then 300_000_000_000 else timeout) && defaultTimeout > 0
    {
      defaultTimeout := if timeout <= 0 then DEFAULT_TIMEOUT else timeout;
      jobs, byIdemKey, bySession, timers := map[], map[], map[], map[];
    }

    /** Returns the error, if any, and the caller's record as the call leaves it. */
    method CreateJob(job: Option<Job>, now: int) returns (error: Option<Error>, after: Option<Job>)
      modifies this
      ensures Contents() == Do(old(Contents()), Create(job, now), defaultTimeout)
      ensures error == CreateError(old(Contents()), job)
      ensures after == if error.None? then Some(Filled(job.value, now)) else job
      ensures error == Some(NotFound) <==> job.None? || job.value.id == ""
      ensures error == Some(DuplicateIdempotencyKey) <==>
                job.Some? && job.value.id != "" && job.value.key != "" && job.value.key in old(byIdemKey) &&
                old(byIdemKey)[job.value.key] in old(jobs) && old(jobs)[old(byIdemKey)[job.value.key]].status != Failed
      ensures error.Some? ==> Contents() == old(Contents()) && after == job
      ensures error.None? ==>
                var j, given := after.value, job.value;
                && j == given.(createdAt := j.createdAt, updatedAt := now, status := j.status)
                && j.createdAt == (if given.createdAt == ZERO_TIME then now else given.createdAt)
                && j.status == (if given.status == Unset then Pending else given.status)
                && jobs == old(jobs)[j.id := j]
                && byIdemKey == (if j.key == "" then old(byIdemKey) else old(byIdemKey)[j.key := j.id])
                && bySession == old(bySession)[j.sessionId :=
                     (if j.sessionId in old(bySession) then old(bySession)[j.sessionId] else []) + [j.id]]
                && timers == old(timers)[j.id := now + if j.timeoutSecs > 0 then j.timeoutSecs * 1_000_000_000 else defaultTimeout]
    {
      if job.None? || job.value.id == "" {
        return Some(NotFound), job;
      }
      var record := job.value;
      if record.key != "" && record.key in byIdemKey {
        var existing := byIdemKey[record.key];
        if existing in jobs && jobs[existing].status != Failed {
          return Some(DuplicateIdempotencyKey), job;
        }
      }
      if record.createdAt == ZERO_TIME {
        record := record.(createdAt := now);
      }
      record := record.(updatedAt := now);
      if record.status.Unset? {
        record := record.(status := Pending);
      }
      Store(record);
      error, after := None, Some(record);
    }

    /** Enters a completed record in every table and starts its timer. */
    method Store(record: Job)
      modifies this
      ensures Contents() == Inserted(old(Contents()), record, defaultTimeout)
    {
      jobs := jobs[record.id := record];
      if record.key != "" {
        byIdemKey := byIdemKey[record.key := record.id];
      }
      var ids := if record.sessionId in bySession then bySession[record.sessionId] else [];
      bySession := bySession[record.sessionId := ids + [record.id]];
      var timeout := defaultTimeout;
      if record.timeoutSecs > 0 {
        timeout := record.timeoutSecs * SECOND;
      }
      timers := timers[record.id := record.updatedAt + timeout];
    }

    /** Returns whose work the agent is asked to cancel: client and correlation. */
    method OnTimeout(id: Id, now: int) returns (cancelled: Option<(string, string)>)
      modifies this
      ensures Contents() == Do(old(Contents()), Timeout(id, now), defaultTimeout)
      ensures cancelled.Some? <==> id in old(jobs) && !IsTerminal(old(jobs)[id].status)
      ensures cancelled.Some? ==> cancelled.value == (old(jobs)[id].clientId, old(jobs)[id].correlationId)
      ensures cancelled.None? ==> Contents() == old(Contents())
      ensures cancelled.Some? ==>
                && jobs == old(jobs)[id := old(jobs)[id].(status := Failed, error := "timeout", updatedAt := now, completedAt := Some(now))]
                && timers == old(timers) - {id} && byIdemKey == old(byIdemKey) && bySession == old(bySession)
    {
      if id !in jobs || IsTerminal(jobs[id].status) {
        return None;
      }
      var job := jobs[id].(status := Failed, error := "timeout", updatedAt := now, completedAt := Some(now));
      jobs := jobs[id := job];
      timers := timers - {id};
      cancelled := Some((job.clientId, job.correlationId));
    }

    method UpdateStatus(id: Id, status: Status, result: Option<string>, errMsg: string, now: int) returns (error: Option<Error>)
      modifies this
      ensures Contents() == Do(old(Contents()), Update(id, status, result, errMsg, now), defaultTimeout)
      ensures error == if id in old(jobs) then None else Some(NotFound)
      ensures error.Some? ==> Contents() == old(Contents())
      ensures error.None? ==>
                var was := old(jobs)[id]; var over := status in {Succeeded, Failed, Cancelled};
                && jobs == old(jobs)[id := was.(status := status, updatedAt := now,
                                                result := if result.Some? then result else was.result,
                                                error := if errMsg != "" then errMsg else was.error,
                                                completedAt := if over then Some(now) else was.completedAt)]
                && timers == (if over then old(timers) - {id} else old(timers))
                && byIdemKey == old(byIdemKey) && bySession == old(bySession)
    {
      if id !in jobs {
        return Some(NotFound);
      }
      var job := jobs[id].(status := status, updatedAt := now);
      if result.Some? {
        job := job.(result := result);
      }
      if errMsg != "" {
        job := job.(error := errMsg);
      }
      if IsTerminal(status) {
        job := job.(completedAt := Some(now));
        timers := timers - {id};
      }
      jobs := jobs[id := job];
      error := None;
    }

    method FindByIdempotencyKey(key: string) returns (job: Option<Job>)
      ensures job == Holder(Contents(), key)
      ensures job.Some? <==> key in byIdemKey && byIdemKey[key] in jobs
      ensures job.Some? ==> job.value == jobs[byIdemKey[key]]
    {
      if key !in byIdemKey {
        return None;
      }
      var id := byIdemKey[key];
      if id !in jobs {
        return None;
      }
      job := Some(jobs[id]);
    }

    method ListBySession(session: string, limit: int) returns (list: seq<Job>)
      ensures Lists(Present(jobs, SessionIds(Contents(), session)), limit, list)
    {
      var ids := if session in bySession then bySession[session] else [];
      var all: seq<Job> := [];
      for i := 0 to |ids|
        invariant all == Present(jobs, ids[..i])
      {
        assert ids[..i + 1][..i] == ids[..i];
        if ids[i] in jobs {
          all := all + [jobs[ids[i]]];
        }
      }
      assert ids[..|ids|] == ids;
      var sorted := SortNewestFirst(all);
      list := sorted;
      if limit > 0 && |sorted| > limit {
        list := sorted[..limit];
        assert sorted == list + sorted[limit..];
        assert Arranged(all, list, sorted[limit..]);
      } else {
        assert sorted == list + [];
        assert Arranged(all, list, []);
      }
    }
  }

  /** Some arrangement from newest to oldest; callers may not rely on the order of ties. */
  method SortNewestFirst(all: seq<Job>) returns (sorted: seq<Job>)
    ensures multiset(sorted) == multiset(all) && NewestFirst(sorted)
  {
    sorted := [];
    for i := 0 to |all|
      invariant multiset(sorted) == multiset(all[..i])
      invariant NewestFirst(sorted)
    {
      assert all[..i + 1] == all[..i] + [all[i]];
      sorted := Insert(sorted, all[i]);
    }
    assert all[..|all|] == all;
  }

  method Insert(sorted: seq<Job>, job: Job) returns (more: seq<Job>)
    requires NewestFirst(sorted)
    ensures multiset(more) == multiset(sorted + [job]) && NewestFirst(more)
  {
    var p := |sorted|;
    while p > 0 && sorted[p - 1].createdAt < job.createdAt
      invariant 0 <= p <= |sorted|
      invariant forall k :: p <= k < |sorted| ==> sorted[k].createdAt < job.createdAt
    {
      p := p - 1;
    }
    more := sorted[..p] + [job] + sorted[p..];
    InsertedInOrder(sorted, p, job);
    InsertedBag(sorted, p, job);
  }

  lemma InsertedBag<T>(s: seq<T>, p: nat, x: T)
    requires p <= |s|
    ensures multiset(s[..p] + [x] + s[p..]) == multiset(s + [x])
  {
    assert s == s[..p] + s[p..];
  }

  lemma InsertedInOrder(sorted: seq<Job>, p: nat, job: Job)
    requires NewestFirst(sorted) && p <= |sorted|
    requires p > 0 ==> sorted[p - 1].createdAt >= job.createdAt
    requires forall k :: p <= k < |sorted| ==> sorted[k].createdAt < job.createdAt
    ensures NewestFirst(sorted[..p] + [job] + sorted[p..])
  {
    var more := sorted[..p] + [job] + sorted[p..];
    forall i, j | 0 <= i < j < |more|
      ensures more[i].createdAt >= more[j].createdAt
    {
      if i < p {
        assert more[i] == sorted[i] && sorted[i].createdAt >= sorted[p - 1].createdAt;
      }
    }
  }
}
