/** The repositories, the worker pool and the job service as the program has
    them: objects whose methods change the two stores one statement at a time. */
module Services {
  import opened Prelude
  import opened Timing
  import opened Jobs
  import opened Protocol
  import opened RedisQueues

  // What becomes of a statement: it takes effect and answers; it has no effect; or it
  // takes effect and the answer is lost. In the last two cases the program sees an error.
  datatype Answer = Done | Refused | Unanswered

  // NoRows: no row matched. Unavailable: the statement did not answer.
  datatype DbError = NoRows | Unavailable

  class JobRepository {
    var rows: map<JobId, Job>

    constructor ()
      ensures rows == map[]
    {
      rows := map[];
    }

    /** `id` is the fresh identifier the database chose. */
    method Create(id: JobId, p: CreateParams, now: Time, db: Answer) returns (r: Result<Job, DbError>)
      requires id !in rows
      modifies this
      ensures rows == if db.Refused? then old(rows) else old(rows)[id := Job(
        id, p.owner, p.queue, p.kind, p.payload, p.priority,
        if p.scheduledAt.Some? && now < p.scheduledAt.value then Scheduled else Queued,
        0, p.maxAttempts, None, p.scheduledAt, None, None)]
      ensures !db.Refused? ==> id in rows
      ensures if db.Done? then r == Ok(rows[id]) else r == Err(Unavailable)
    {
      if db.Refused? { return Err(Unavailable); }
      rows := rows[id := NewJob(id, p, now)];
      if db.Unanswered? { return Err(Unavailable); }
      return Ok(rows[id]);
    }

    method Find(id: JobId, up: bool) returns (r: Result<Job, DbError>)
      ensures r == if !up then Err(Unavailable) else if id in rows then Ok(rows[id]) else Err(NoRows)
    {
      if !up { return Err(Unavailable); }
      if id in rows { r := Ok(rows[id]); } else { r := Err(NoRows); }
    }

    method Cancel(id: JobId, user: UserId, db: Answer) returns (r: Result<(), DbError>)
      modifies this
      ensures r.Ok? <==> db.Done? && id in old(rows) && old(rows)[id].owner == user && old(rows)[id].status in {Queued, Scheduled, Retrying}
      ensures r.Err? ==> r.error == if db.Done? then NoRows else Unavailable
      ensures rows == if !db.Refused? && id in old(rows) && old(rows)[id].owner == user && old(rows)[id].status in {Queued, Scheduled, Retrying}
                      then old(rows)[id := old(rows)[id].(status := Cancelled)] else old(rows)
    {
      var matched := id in rows && rows[id].Cancellable(user);
      if !db.Refused? && matched { rows := rows[id := rows[id].Cancel()]; }
      if !db.Done? { return Err(Unavailable); }
      return if matched then Ok(()) else Err(NoRows);
    }

    method MarkRunning(id: JobId, now: Time, db: Answer) returns (r: Result<Job, DbError>)
      modifies this
      ensures r.Ok? <==> db.Done? && id in old(rows) && old(rows)[id].status in {Queued, Retrying}
      ensures rows == if !db.Refused? && id in old(rows) && old(rows)[id].status in {Queued, Retrying}
                      then old(rows)[id := old(rows)[id].(
                        status := Running, attempts := old(rows)[id].attempts + 1, startedAt := Some(now))] else old(rows)
      ensures r.Ok? ==> r.value == rows[id]
    {
      var matched := id in rows && rows[id].Startable();
      if !db.Refused? && matched { rows := rows[id := rows[id].Start(now)]; }
      if !db.Done? { return Err(Unavailable); }
      return if matched then Ok(rows[id]) else Err(NoRows);
    }

    method MarkCompleted(id: JobId, now: Time, db: Answer) returns (r: Result<(), DbError>)
      modifies this
      ensures r.Ok? <==> db.Done?
      ensures rows == if !db.Refused? && id in old(rows)
                      then old(rows)[id := old(rows)[id].(status := Completed, error := None, completedAt := Some(now))]
                      else old(rows)
    {
      if !db.Refused? && id in rows { rows := rows[id := rows[id].Complete(now)]; }
      return if db.Done? then Ok(()) else Err(Unavailable);
    }

    method MarkFailed(id: JobId, message: string, db: Answer) returns (r: Result<Job, DbError>)
      modifies this
      ensures r.Ok? <==> db.Done? && id in old(rows)
      ensures rows == if !db.Refused? && id in old(rows)
                      then old(rows)[id := old(rows)[id].(
                        status := if old(rows)[id].attempts < old(rows)[id].maxAttempts then Retrying else DeadLetter,
                        error := Some(message))] else old(rows)
      ensures r.Ok? ==> r.value == rows[id]
    {
      if !db.Refused? && id in rows { rows := rows[id := rows[id].Fail(message)]; }
      if !db.Done? { return Err(Unavailable); }
      return if id in rows then Ok(rows[id]) else Err(NoRows);
    }

    method Requeue(id: JobId, user: UserId, db: Answer) returns (r: Result<Job, DbError>)
      modifies this
      ensures r.Ok? <==> db.Done? && id in old(rows) && old(rows)[id].owner == user && old(rows)[id].status in {Failed, DeadLetter}
      ensures r.Err? ==> r.error == if db.Done? then NoRows else Unavailable
      ensures rows == if !db.Refused? && id in old(rows) && old(rows)[id].owner == user && old(rows)[id].status in {Failed, DeadLetter}
                      then old(rows)[id := old(rows)[id].(status := Queued, error := None)] else old(rows)
      ensures r.Ok? ==> r.value == rows[id]
    {
      var matched := id in rows && rows[id].Requeueable(user);
      if !db.Refused? && matched { rows := rows[id := rows[id].Requeue()]; }
      if !db.Done? { return Err(Unavailable); }
      return if matched then Ok(rows[id]) else Err(NoRows);
    }

    /** `chosen` lists the ids the statement selected, in the order the database
        returned them. */
    method ReadyScheduled(chosen: seq<JobId>, now: Time, db: Answer) returns (r: Result<seq<Job>, DbError>)
      requires ReadyBatch(rows, now, Set(chosen)) && Distinct(chosen)
      modifies this
      ensures rows == if db.Refused? then old(rows) else PromoteRows(old(rows), Set(chosen))
      ensures rows.Keys == old(rows).Keys && forall id :: id in rows ==>
        rows[id] == if !db.Refused? && id in chosen then old(rows)[id].(status := Queued) else old(rows)[id]
      ensures r == if db.Done? then Ok(RowsOf(rows, chosen)) else Err(Unavailable)
    {
      if db.Refused? { return Err(Unavailable); }
      rows := PromoteRows(rows, Set(chosen));
      if db.Unanswered? { return Err(Unavailable); }
      var jobs := [];
      for i := 0 to |chosen|
        invariant rows == PromoteRows(old(rows), Set(chosen))
        invariant jobs == RowsOf(rows, chosen[..i])
      {
        PrefixGrows(chosen, i);
        assert chosen[i] in Set(chosen);
        RowsOfAppend(rows, chosen[..i], chosen[i]);
        jobs := jobs + [rows[chosen[i]]];
      }
      assert chosen[..|chosen|] == chosen;
      return Ok(jobs);
    }
  }

  lemma PrefixGrows<T>(s: seq<T>, i: nat)
    requires i < |s|
    ensures s[..i + 1] == s[..i] + [s[i]]
  {
  }

  function Set(ids: seq<JobId>): set<JobId> { set i | 0 <= i < |ids| :: ids[i] }

  ghost predicate Distinct(ids: seq<JobId>) { forall i, j :: 0 <= i < j < |ids| ==> ids[i] != ids[j] }

  function RowsOf(rows: map<JobId, Job>, ids: seq<JobId>): seq<Job> {
    if ids == [] then []
    else RowOf(rows, ids[0]) + RowsOf(rows, ids[1..])
  }

  function RowOf(rows: map<JobId, Job>, id: JobId): seq<Job> { if id in rows then [rows[id]] else [] }

  lemma RowsOfCons(rows: map<JobId, Job>, id: JobId, rest: seq<JobId>)
    ensures RowsOf(rows, [id] + rest) == RowOf(rows, id) + RowsOf(rows, rest)
  {
    assert ([id] + rest)[1..] == rest;
  }

  lemma {:induction false} RowsOfAppend(rows: map<JobId, Job>, ids: seq<JobId>, id: JobId)
    ensures RowsOf(rows, ids + [id]) == RowsOf(rows, ids) + RowOf(rows, id)
    decreases |ids|
  {
    hide RowsOf, RowOf;
    if ids == [] {
      RowsOfCons(rows, id, []);
      NoRowsOfNothing(rows);
      assert [] + [id] == [id] + [];
      assert [] + RowOf(rows, id) == RowOf(rows, id) + [];
    } else {
      var rest := ids[1..];
      RowsOfAppend(rows, rest, id);
      RowsOfCons(rows, ids[0], rest + [id]);
      RowsOfCons(rows, ids[0], rest);
      assert ids == [ids[0]] + rest && ids + [id] == [ids[0]] + (rest + [id]);
      assert RowOf(rows, ids[0]) + (RowsOf(rows, rest) + RowOf(rows, id))
          == (RowOf(rows, ids[0]) + RowsOf(rows, rest)) + RowOf(rows, id);
    }
  }

  lemma NoRowsOfNothing(rows: map<JobId, Job>)
    ensures RowsOf(rows, []) == []
  {
  }

  // A row of the workers table.
  datatype Worker = Worker(hostname: string, status: string, lastHeartbeat: Time, tally: Tally)

  function Tallies(workers: map<PoolId, Worker>): map<PoolId, Tally> { map p | p in workers :: workers[p].tally }

  class WorkerRepository {
    var workers: map<PoolId, Worker>
    // The ids a UUID column accepts.
    const isUuid: PoolId -> bool

    constructor (isUuid: PoolId -> bool)
      ensures workers == map[] && this.isUuid == isUuid
    {
      workers := map[];
      this.isUuid := isUuid;
    }

    /** Registers the pool once; later heartbeats keep its counters. An id that is
        no UUID is rejected. */
    method Heartbeat(pool: PoolId, hostname: string, status: string, now: Time, up: bool) returns (r: Result<(), DbError>)
      modifies this
      ensures r.Ok? <==> up && isUuid(pool)
      ensures workers == if r.Err? then old(workers) else old(workers)[pool :=
        Worker(hostname, status, now, if pool in old(workers) then old(workers)[pool].tally else Tally(0, 0))]
      ensures r.Ok? ==>
        Tallies(workers) == Tallies(old(workers))[pool := if pool in old(workers) then old(workers)[pool].tally else Tally(0, 0)]
    {
      if !up || !isUuid(pool) { return Err(Unavailable); }
      var tally := if pool in workers then workers[pool].tally else Tally(0, 0);
      workers := workers[pool := Worker(hostname, status, now, tally)];
      return Ok(());
    }

    /** The caller ignores the error, so an answer that is lost changes nothing. */
    method IncrementProcessed(pool: PoolId, failed: bool, now: Time, db: Answer)
      modifies this
      ensures Tallies(workers) == if db.Refused? then Tallies(old(workers)) else Counted(Tallies(old(workers)), pool, !failed)
      ensures workers.Keys == old(workers).Keys
      ensures forall p :: p in workers ==>
        && workers[p].tally.processed == old(workers)[p].tally.processed + (if !db.Refused? && p == pool && !failed then 1 else 0)
        && workers[p].tally.failed == old(workers)[p].tally.failed + (if !db.Refused? && p == pool && failed then 1 else 0)
        && workers[p].hostname == old(workers)[p].hostname && workers[p].status == old(workers)[p].status
        && workers[p].lastHeartbeat == (if !db.Refused? && p == pool then now else old(workers)[p].lastHeartbeat)
    {
      if !db.Refused? && pool in workers {
        workers := workers[pool := workers[pool].(tally := Bump(workers[pool].tally, !failed), lastHeartbeat := now)];
      }
    }
  }

  function Counted(tallies: map<PoolId, Tally>, pool: PoolId, ok: bool): map<PoolId, Tally> {
    if pool in tallies then tallies[pool := Bump(tallies[pool], ok)] else tallies
  }

  // The contents of the two databases.
  datatype Stores = Stores(rows: map<JobId, Job>, store: Store, tallies: map<PoolId, Tally>)

  // ------------------------------------------------------------ worker pool

  // What becomes of the statements of `handle`.
  datatype Answers = Answers(grant: Answer, outcome: Answer, count: Answer)

  /** A failed job goes to the retry set or to the dead-letter list; an error of
      Redis is ignored. */
  function SetAside(store: Store, job: Job, now: Time): Store {
    if job.status.Retrying? then
      if HoldsList(store, RETRIES_KEY) then store else AddRetry(store, job.id, RetryScore(now, job.attempts))
    else
      if HoldsSorted(store, DEAD_KEY) then store else AddDead(store, job.id)
  }

  /** The two databases after the outcome of a started job. */
  function Concluded(st: Stores, pool: PoolId, id: JobId, outcome: Result<(), string>, db: Answers, now: Time): Stores
    requires id in st.rows
  {
    match outcome
    case Ok(_) =>
      Stores(if db.outcome.Refused? then st.rows else st.rows[id := st.rows[id].Complete(now)], st.store,
             if db.count.Refused? then st.tallies else Counted(st.tallies, pool, true))
    case Err(message) =>
      if db.outcome.Refused? then st else
      var failed := st.rows[id].Fail(message);
      if db.outcome.Unanswered? then st.(rows := st.rows[id := failed]) else
      Stores(st.rows[id := failed], SetAside(st.store, failed, now),
             if db.count.Refused? then st.tallies else Counted(st.tallies, pool, false))
  }

  /** The two databases after `handle` of one popped id. The processor runs for
      `elapsed` and ends with `outcome`. */
  function Handled(st: Stores, pool: PoolId, id: JobId, outcome: Result<(), string>, db: Answers, now: Time, elapsed: nat): Stores {
    if db.grant.Refused? || id !in st.rows || !st.rows[id].Startable() then st else
    var started := st.(rows := st.rows[id := st.rows[id].Start(now)]);
    if db.grant.Unanswered? then started else Concluded(started, pool, id, outcome, db, now + elapsed)
  }

  class Pool {
    const id: PoolId
    const queue: RedisQueue
    const jobs: JobRepository
    const workers: WorkerRepository

    constructor (id: PoolId, queue: RedisQueue, jobs: JobRepository, workers: WorkerRepository)
      ensures this.id == id && this.queue == queue && this.jobs == jobs && this.workers == workers
    {
      this.id, this.queue, this.jobs, this.workers := id, queue, jobs, workers;
    }

    function Contents(): Stores
      reads queue, jobs, workers
    {
      Stores(jobs.rows, queue.store, Tallies(workers.workers))
    }

    method Handle(jobId: JobId, outcome: Result<(), string>, db: Answers, now: Time, elapsed: nat)
      requires jobId in jobs.rows ==> jobs.rows[jobId].id == jobId
      modifies queue, jobs, workers
      ensures Contents() == Handled(old(Contents()), id, jobId, outcome, db, now, elapsed)
      ensures var retries := SortedAt(queue.store, "scheduled:retries");
        (db == Answers(Done, Done, Done) && outcome.Err? && jobId in old(jobs.rows)
         && old(jobs.rows)[jobId].status in {Queued, Retrying} && !HoldsList(old(queue.store), "scheduled:retries")
         && old(jobs.rows)[jobId].attempts + 1 < old(jobs.rows)[jobId].maxAttempts && old(jobs.rows)[jobId].attempts < 34) ==>
          && jobId in retries
          && var ends := now + elapsed + Pow2(old(jobs.rows)[jobId].attempts) * 1_000_000_000;
             retries[jobId] * 1_000_000_000 <= ends < (retries[jobId] + 1) * 1_000_000_000
    {
      var granted := jobs.MarkRunning(jobId, now, db.grant);
      if granted.Err? { return; }
      var job := granted.value;
      var later := now + elapsed;
      if outcome.Ok? {
        var completed := jobs.MarkCompleted(job.id, later, db.outcome);
        workers.IncrementProcessed(id, false, later, db.count);
        return;
      }
      var marked := jobs.MarkFailed(job.id, outcome.error, db.outcome);
      if marked.Err? { return; }
      var failed := marked.value;
      workers.IncrementProcessed(id, true, later, db.count);
      if failed.status.Retrying? {
        var delay := Backoff(failed.attempts);
        if failed.attempts <= 34 { RetryScoreIs(later, failed.attempts, later); }
        var r := queue.EnqueueAfter(failed, delay, later);
        return;
      }
      var r := queue.DeadLetter(failed);
    }
  }

  // ------------------------------------------------------------ job service

  datatype CreateInput = CreateInput(
    owner: UserId, queue: string, kind: string, payload: string, priority: int, maxAttempts: int,
    scheduledAt: Option<Time>)

  datatype ServiceError = TypeRequired | Database(db: DbError) | Queue(error: QueueError)

  /** `isJson` is json.Valid. */
  function Normalized(input: CreateInput, isJson: string -> bool): CreateParams {
    CreateParams(input.owner, if input.queue == "" then "default" else input.queue, input.kind,
                 if !isJson(input.payload) || input.payload == "" then "{}" else input.payload, input.priority,
                 if input.maxAttempts == 0 then 3 else input.maxAttempts, input.scheduledAt)
  }

  /** The rows that Find can fetch. */
  function Seen(rows: map<JobId, Job>, up: set<JobId>): map<JobId, Job> { map id | id in rows && id in up :: rows[id] }

  /** The due entries of the retry set. */
  ghost function DueIds(store: Store, now: Time): seq<JobId> { InOrder(DueEntries(SortedAt(store, RETRIES_KEY), now)) }

  /** PromoteRetries: an error of the scan ends it, all later errors are ignored. */
  ghost function RetriesPass(rows: map<JobId, Job>, store: Store, now: Time): Store {
    if HoldsList(store, RETRIES_KEY) then store else PromotedRetries(rows, store, DueIds(store, now), now)
  }

  /** Enqueue of a list of rows, stopping at the first error. */
  function PushAll(store: Store, jobs: seq<Job>, now: Time): (Store, Result<(), QueueError>)
    decreases |jobs|
  {
    if jobs == [] then (store, Ok(())) else
    var (next, r) := EnqueueSpec(store, jobs[0], now);
    if r.Err? then (next, r) else PushAll(next, jobs[1..], now)
  }

  lemma {:induction false} PushAllAppend(store: Store, jobs: seq<Job>, job: Job, now: Time)
    requires PushAll(store, jobs, now).1.Ok?
    ensures PushAll(store, jobs + [job], now) == EnqueueSpec(PushAll(store, jobs, now).0, job, now)
    decreases |jobs|
  {
    if jobs == [] {
      assert (jobs + [job])[1..] == [];
    } else {
      assert (jobs + [job])[1..] == jobs[1..] + [job];
      PushAllAppend(EnqueueSpec(store, jobs[0], now).0, jobs[1..], job, now);
    }
  }

  lemma {:induction false} PushAllStops(store: Store, jobs: seq<Job>, more: seq<Job>, now: Time)
    requires PushAll(store, jobs, now).1.Err?
    ensures PushAll(store, jobs + more, now) == PushAll(store, jobs, now)
    decreases |jobs|
  {
    assert (jobs + more)[1..] == jobs[1..] + more;
    if EnqueueSpec(store, jobs[0], now).1.Ok? {
      PushAllStops(EnqueueSpec(store, jobs[0], now).0, jobs[1..], more, now);
    }
  }

  // Which rows of a batch get their token.

  ghost predicate SomeKeyBlocked(store: Store, jobs: seq<Job>) {
    exists i :: 0 <= i < |jobs| && HoldsList(store, QueueKey(jobs[i].queue))
  }

  /** The jobs are different and none waits in its queue yet. */
  ghost predicate NewToQueues(store: Store, jobs: seq<Job>) {
    && (forall i, j :: 0 <= i < j < |jobs| ==> jobs[i].id != jobs[j].id)
    && forall i :: 0 <= i < |jobs| ==> jobs[i].id !in SortedAt(store, QueueKey(jobs[i].queue))
  }

  /** A job of the batch waits in its queue exactly when neither its key nor that of
      an earlier job holds a list. */
  ghost predicate BatchWaits(store: Store, next: Store, jobs: seq<Job>) {
    forall i :: 0 <= i < |jobs| ==>
      (jobs[i].id in SortedAt(next, QueueKey(jobs[i].queue)) <==> !SomeKeyBlocked(store, jobs[..i + 1]))
  }

  lemma EnqueueKeepsLists(store: Store, job: Job, now: Time, key: string)
    ensures HoldsList(EnqueueSpec(store, job, now).0, key) == HoldsList(store, key)
  {
    hide PriorityScore;
  }

  lemma BlockedCons(store: Store, next: Store, jobs: seq<Job>)
    requires jobs != [] && forall key :: HoldsList(next, key) == HoldsList(store, key)
    ensures SomeKeyBlocked(store, jobs) <==> HoldsList(store, QueueKey(jobs[0].queue)) || SomeKeyBlocked(next, jobs[1..])
  {
    if i :| 0 <= i < |jobs| && HoldsList(store, QueueKey(jobs[i].queue)) {
      if i > 0 { assert jobs[1..][i - 1] == jobs[i]; }
    }
  }

  /** Exactly when the loop over a batch stops with an error. */
  lemma {:induction false} PushStopsIff(store: Store, jobs: seq<Job>, now: Time)
    ensures PushAll(store, jobs, now).1.Err? <==> SomeKeyBlocked(store, jobs)
    decreases |jobs|
  {
    hide SomeKeyBlocked, PriorityScore;
    if jobs == [] {
      NothingBlocked(store);
    } else {
      var next := EnqueueSpec(store, jobs[0], now).0;
      forall key ensures HoldsList(next, key) == HoldsList(store, key) { EnqueueKeepsLists(store, jobs[0], now, key); }
      BlockedCons(store, next, jobs);
      PushStopsIff(next, jobs[1..], now);
    }
  }

  lemma NothingBlocked(store: Store)
    ensures !SomeKeyBlocked(store, [])
  {
  }

  /** An enqueue changes one entry. */
  lemma EnqueueChangesOne(store: Store, job: Job, now: Time, name: string, id: JobId)
    ensures id in SortedAt(EnqueueSpec(store, job, now).0, QueueKey(name)) <==>
      id in SortedAt(store, QueueKey(name)) || (id == job.id && name == job.queue && !HoldsList(store, QueueKey(name)))
  {
    hide PriorityScore;
    KeysApart(name, job.queue);
  }

  /** Ids that are not in the batch do not come and go. */
  lemma {:induction false} PushKeepsOthers(store: Store, jobs: seq<Job>, now: Time, name: string, id: JobId)
    requires forall i :: 0 <= i < |jobs| ==> jobs[i].id != id
    ensures id in SortedAt(PushAll(store, jobs, now).0, QueueKey(name)) <==> id in SortedAt(store, QueueKey(name))
    decreases |jobs|
  {
    hide EnqueueSpec;
    if jobs != [] {
      EnqueueChangesOne(store, jobs[0], now, name, id);
      if EnqueueSpec(store, jobs[0], now).1.Ok? {
        PushKeepsOthers(EnqueueSpec(store, jobs[0], now).0, jobs[1..], now, name, id);
      }
    }
  }

  lemma {:induction false} PushedIff(store: Store, jobs: seq<Job>, now: Time, i: nat)
    requires NewToQueues(store, jobs) && i < |jobs|
    ensures jobs[i].id in SortedAt(PushAll(store, jobs, now).0, QueueKey(jobs[i].queue)) <==>
      !SomeKeyBlocked(store, jobs[..i + 1])
    decreases |jobs|
  {
    hide EnqueueSpec, SomeKeyBlocked, SortedAt, HoldsList;
    var first, rest := jobs[0], jobs[1..];
    var next := EnqueueSpec(store, first, now).0;
    forall key ensures HoldsList(next, key) == HoldsList(store, key) { EnqueueKeepsLists(store, first, now, key); }
    BlockedCons(store, next, jobs[..i + 1]);
    assert jobs[..i + 1][1..] == rest[..i];
    EnqueueChangesOne(store, first, now, jobs[i].queue, jobs[i].id);
    EnqueueFails(store, first, now);
    if EnqueueSpec(store, first, now).1.Ok? {
      if i == 0 {
        NothingBlocked(next);
        assert rest[..0] == [];
        PushKeepsOthers(next, rest, now, first.queue, first.id);
      } else {
        forall k | 0 <= k < |rest| ensures rest[k].id !in SortedAt(next, QueueKey(rest[k].queue)) {
          assert rest[k] == jobs[k + 1];
          EnqueueChangesOne(store, first, now, rest[k].queue, rest[k].id);
        }
        assert NewToQueues(next, rest);
        PushedIff(next, rest, now, i - 1);
        assert rest[i - 1] == jobs[i];
      }
    }
  }

  lemma EnqueueFails(store: Store, job: Job, now: Time)
    ensures EnqueueSpec(store, job, now).1.Ok? <==> !HoldsList(store, QueueKey(job.queue))
    ensures EnqueueSpec(store, job, now).1.Err? ==> EnqueueSpec(store, job, now).0 == store
  {
  }

  /** Exactly which rows of a promoted batch get their token. */
  lemma PushedBatchWaits(store: Store, jobs: seq<Job>, now: Time)
    requires NewToQueues(store, jobs)
    ensures BatchWaits(store, PushAll(store, jobs, now).0, jobs)
  {
    hide PushAll, SomeKeyBlocked, NewToQueues;
    forall i | 0 <= i < |jobs|
      ensures jobs[i].id in SortedAt(PushAll(store, jobs, now).0, QueueKey(jobs[i].queue)) <==>
        !SomeKeyBlocked(store, jobs[..i + 1])
    {
      PushedIff(store, jobs, now, i);
    }
  }

  /** Any batch headed by a job of the queue "dead-letter", once a job has died: no
      job of the batch gets a token. */
  lemma DeadLetterStopsBatch(store: Store, jobs: seq<Job>, now: Time)
    requires HoldsList(store, DEAD_KEY) && jobs != [] && jobs[0].queue == DEAD_LETTER
    ensures PushAll(store, jobs, now) == (store, Err(WrongType))
  {
    KeysApart(DEAD_LETTER, DEAD_LETTER);
  }

  // One such input: job 9 died, jobs 1 and 2 are due.
  const DEAD_STORE: Store := map[DEAD_KEY := Listed([9])]

  function DueJob(id: JobId, queue: string): Job {
    NewJob(id, CreateParams(1, queue, "email", "{}", 0, 3, Some(0)), 0)
  }

  lemma BatchCanLoseTokens()
    ensures var batch := [DueJob(1, DEAD_LETTER), DueJob(2, "default")]; var next := PushAll(DEAD_STORE, batch, 0).0;
      && NewToQueues(DEAD_STORE, batch)
      && forall i :: 0 <= i < 2 ==> batch[i].status.Queued? && batch[i].id !in SortedAt(next, QueueKey(batch[i].queue))
  {
    DeadLetterStopsBatch(DEAD_STORE, [DueJob(1, DEAD_LETTER), DueJob(2, "default")], 0);
    KeysApart("default", DEAD_LETTER);
    KeysApart(DEAD_LETTER, DEAD_LETTER);
  }

  /** One iteration of the PromoteRetries loop. */
  function PromotedRetry(rows: map<JobId, Job>, store: Store, id: JobId, now: Time): Store {
    var pushed := if id in rows then EnqueueSpec(store, rows[id], now).0 else store;
    if HoldsList(pushed, RETRIES_KEY) then pushed
    else PutSorted(pushed, RETRIES_KEY, SortedAt(pushed, RETRIES_KEY) - {id})
  }

  function PromotedRetries(rows: map<JobId, Job>, store: Store, ids: seq<JobId>, now: Time): Store
    decreases |ids|
  {
    if ids == [] then store else PromotedRetries(rows, PromotedRetry(rows, store, ids[0], now), ids[1..], now)
  }

  lemma {:induction false} PromotedRetriesAppend(rows: map<JobId, Job>, store: Store, ids: seq<JobId>, id: JobId, now: Time)
    ensures PromotedRetries(rows, store, ids + [id], now) == PromotedRetry(rows, PromotedRetries(rows, store, ids, now), id, now)
    decreases |ids|
  {
    if ids == [] {
      assert (ids + [id])[1..] == [];
    } else {
      assert (ids + [id])[1..] == ids[1..] + [id];
      PromotedRetriesAppend(rows, PromotedRetry(rows, store, ids[0], now), ids[1..], id, now);
    }
  }

  // What the loop leaves behind.

  /** The entries the promoted jobs get in one queue. */
  function Pushed(rows: map<JobId, Job>, ids: set<JobId>, name: string, now: Time): ZSet {
    map id | id in ids && id in rows && rows[id].queue == name :: PriorityScore(rows[id].priority, UnixMilli(now))
  }

  ghost predicate Touched(rows: map<JobId, Job>, ids: set<JobId>, key: string) {
    key == RETRIES_KEY || exists id :: id in ids && id in rows && key == QueueKey(rows[id].queue)
  }

  /** The promoted jobs of a queue wait in it with their scores, the others as before. */
  ghost predicate QueueFilled(rows: map<JobId, Job>, store: Store, next: Store, ids: set<JobId>, now: Time, name: string) {
    SortedAt(next, QueueKey(name)) ==
      if HoldsList(store, QueueKey(name)) then map[] else SortedAt(store, QueueKey(name)) + Pushed(rows, ids, name, now)
  }

  ghost predicate KeyKept(rows: map<JobId, Job>, store: Store, next: Store, ids: set<JobId>, key: string) {
    && HoldsList(next, key) == HoldsList(store, key) && ListAt(next, key) == ListAt(store, key)
    && (!Touched(rows, ids, key) ==> (key in next <==> key in store) && (key in next ==> next[key] == store[key]))
  }

  /** The ids are gone from the retry set, those with a row wait in their queues,
      and nothing else changed. */
  ghost predicate PromotionOf(rows: map<JobId, Job>, store: Store, next: Store, ids: set<JobId>, now: Time) {
    && SortedAt(next, RETRIES_KEY) == SortedAt(store, RETRIES_KEY) - ids
    && (forall name :: QueueFilled(rows, store, next, ids, now, name))
    && (forall key :: KeyKept(rows, store, next, ids, key))
  }

  lemma OneFillsQueue(rows: map<JobId, Job>, store: Store, id: JobId, now: Time, name: string)
    requires !HoldsList(store, RETRIES_KEY) && (id in rows ==> rows[id].id == id)
    ensures QueueFilled(rows, store, PromotedRetry(rows, store, id, now), {id}, now, name)
  {
    hide PriorityScore;
    KeysApart(name, if id in rows then rows[id].queue else name);
    if id in rows && rows[id].queue == name {
      assert Pushed(rows, {id}, name, now) == map[id := PriorityScore(rows[id].priority, UnixMilli(now))];
    } else {
      assert Pushed(rows, {id}, name, now) == map[];
    }
  }

  lemma OneKeepsKey(rows: map<JobId, Job>, store: Store, id: JobId, now: Time, key: string)
    requires !HoldsList(store, RETRIES_KEY)
    ensures KeyKept(rows, store, PromotedRetry(rows, store, id, now), {id}, key)
  {
    hide PriorityScore;
    if id in rows {
      KeysApart(rows[id].queue, rows[id].queue);
      if key == QueueKey(rows[id].queue) { assert Touched(rows, {id}, key); }
    }
  }

  lemma OneIsPromoted(rows: map<JobId, Job>, store: Store, id: JobId, now: Time)
    requires !HoldsList(store, RETRIES_KEY) && (id in rows ==> rows[id].id == id)
    ensures PromotionOf(rows, store, PromotedRetry(rows, store, id, now), {id}, now)
  {
    hide PriorityScore, QueueFilled, KeyKept;
    var next := PromotedRetry(rows, store, id, now);
    forall name ensures QueueFilled(rows, store, next, {id}, now, name) { OneFillsQueue(rows, store, id, now, name); }
    forall key ensures KeyKept(rows, store, next, {id}, key) { OneKeepsKey(rows, store, id, now, key); }
    if id in rows { KeysApart(rows[id].queue, rows[id].queue); }
  }

  lemma FillsCompose(rows: map<JobId, Job>, a: Store, b: Store, c: Store, first: set<JobId>, rest: set<JobId>, now: Time, name: string)
    requires QueueFilled(rows, a, b, first, now, name) && QueueFilled(rows, b, c, rest, now, name)
    requires HoldsList(b, QueueKey(name)) == HoldsList(a, QueueKey(name))
    ensures QueueFilled(rows, a, c, first + rest, now, name)
  {
    hide PriorityScore, SortedAt, HoldsList;
    assert Pushed(rows, first + rest, name, now) == Pushed(rows, first, name, now) + Pushed(rows, rest, name, now);
  }

  lemma KeptCompose(rows: map<JobId, Job>, a: Store, b: Store, c: Store, first: set<JobId>, rest: set<JobId>, key: string)
    requires KeyKept(rows, a, b, first, key) && KeyKept(rows, b, c, rest, key)
    ensures KeyKept(rows, a, c, first + rest, key)
  {
    hide HoldsList, ListAt;
    if Touched(rows, first, key) || Touched(rows, rest, key) { assert Touched(rows, first + rest, key); }
  }

  lemma PromotionsCompose(rows: map<JobId, Job>, a: Store, b: Store, c: Store, first: set<JobId>, rest: set<JobId>, now: Time)
    requires PromotionOf(rows, a, b, first, now) && PromotionOf(rows, b, c, rest, now)
    ensures PromotionOf(rows, a, c, first + rest, now)
  {
    hide QueueFilled, KeyKept, SortedAt;
    forall name ensures QueueFilled(rows, a, c, first + rest, now, name) {
      assert HoldsList(b, QueueKey(name)) == HoldsList(a, QueueKey(name)) by { ListKept(rows, a, b, first, QueueKey(name)); }
      FillsCompose(rows, a, b, c, first, rest, now, name);
    }
    forall key ensures KeyKept(rows, a, c, first + rest, key) { KeptCompose(rows, a, b, c, first, rest, key); }
    assert SortedAt(a, RETRIES_KEY) - first - rest == SortedAt(a, RETRIES_KEY) - (first + rest);
  }

  lemma ListKept(rows: map<JobId, Job>, store: Store, next: Store, ids: set<JobId>, key: string)
    requires KeyKept(rows, store, next, ids, key)
    ensures HoldsList(next, key) == HoldsList(store, key)
  {
  }

  /** What the loop over the due retries does to Redis, all in all. */
  lemma {:induction false} RetriesArePromoted(rows: map<JobId, Job>, store: Store, ids: seq<JobId>, now: Time)
    requires !HoldsList(store, RETRIES_KEY) && (forall id :: id in rows ==> rows[id].id == id)
    ensures PromotionOf(rows, store, PromotedRetries(rows, store, ids, now), Set(ids), now)
    decreases |ids|
  {
    hide PromotionOf, PromotedRetry, KeyKept;
    if ids == [] {
      NonePromoted(rows, store, now);
      assert Set(ids) == {};
    } else {
      var one := PromotedRetry(rows, store, ids[0], now);
      OneIsPromoted(rows, store, ids[0], now);
      assert KeyKept(rows, store, one, {ids[0]}, RETRIES_KEY) by { OneKeepsKey(rows, store, ids[0], now, RETRIES_KEY); }
      ListKept(rows, store, one, {ids[0]}, RETRIES_KEY);
      RetriesArePromoted(rows, one, ids[1..], now);
      PromotionsCompose(rows, store, one, PromotedRetries(rows, store, ids, now), {ids[0]}, Set(ids[1..]), now);
      SetOfCons(ids);
    }
  }

  /** Exactly when a due retry survives its promotion: Find returned its row and
      the key of its queue holds no list. Otherwise its entry is gone all the same. */
  lemma RetrySurvivesIff(rows: map<JobId, Job>, up: set<JobId>, store: Store, ids: seq<JobId>, now: Time, id: JobId)
    requires !HoldsList(store, RETRIES_KEY) && (forall i :: i in rows ==> rows[i].id == i)
    requires id in Set(ids) && id in rows && id !in SortedAt(store, QueueKey(rows[id].queue))
    ensures var next := PromotedRetries(Seen(rows, up), store, ids, now);
      && id !in SortedAt(next, RETRIES_KEY)
      && (id in SortedAt(next, QueueKey(rows[id].queue)) <==> id in up && !HoldsList(store, QueueKey(rows[id].queue)))
  {
    hide PromotedRetries, PriorityScore;
    var next := PromotedRetries(Seen(rows, up), store, ids, now);
    RetriesArePromoted(Seen(rows, up), store, ids, now);
    assert QueueFilled(Seen(rows, up), store, next, Set(ids), now, rows[id].queue);
  }

  lemma NonePromoted(rows: map<JobId, Job>, store: Store, now: Time)
    ensures PromotionOf(rows, store, store, {}, now)
  {
    forall name ensures QueueFilled(rows, store, store, {}, now, name) {
      assert Pushed(rows, {}, name, now) == map[];
    }
  }

  lemma SetOfCons(ids: seq<JobId>)
    requires ids != []
    ensures Set(ids) == {ids[0]} + Set(ids[1..])
  {
    forall x | x in Set(ids) ensures x in {ids[0]} + Set(ids[1..]) {
      var i :| 0 <= i < |ids| && ids[i] == x;
      if i > 0 { assert ids[1..][i - 1] == x; }
    }
    forall x | x in Set(ids[1..]) ensures x in Set(ids) {
      var i :| 0 <= i < |ids[1..]| && ids[1..][i] == x;
      assert ids[i + 1] == x;
    }
  }

  class JobService {
    const jobs: JobRepository
    const queue: RedisQueue
    const isJson: string -> bool

    constructor (jobs: JobRepository, queue: RedisQueue, isJson: string -> bool)
      ensures this.jobs == jobs && this.queue == queue && this.isJson == isJson
    {
      this.jobs, this.queue, this.isJson := jobs, queue, isJson;
    }

    /** A failed Enqueue is reported, but the row is stored and stays queued. So is
        an INSERT whose answer was lost. */
    method Create(input: CreateInput, id: JobId, now: Time, db: Answer) returns (r: Result<Job, ServiceError>)
      requires id !in jobs.rows
      modifies jobs, queue
      ensures r == Err(TypeRequired) <==> input.kind == ""
      ensures input.kind != "" && !db.Done? ==> r == Err(Database(Unavailable))
      ensures input.kind == "" || !db.Done? ==> queue.store == old(queue.store)
      ensures var later := input.scheduledAt.Some? && now < input.scheduledAt.value;
        var job := Job(
          id, input.owner, if input.queue == "" then "default" else input.queue, input.kind,
          if isJson(input.payload) && input.payload != "" then input.payload else "{}", input.priority,
          if later then Scheduled else Queued, 0, if input.maxAttempts == 0 then 3 else input.maxAttempts,
          None, input.scheduledAt, None, None);
        && jobs.rows == (if input.kind == "" || db.Refused? then old(jobs.rows) else old(jobs.rows)[id := job])
        && (input.kind != "" && db.Done? && job.status.Scheduled? ==> r == Ok(job) && queue.store == old(queue.store))
        && (input.kind != "" && db.Done? && job.status.Queued? ==>
              var pushed := EnqueueSpec(old(queue.store), job, now);
              queue.store == pushed.0 && r == if pushed.1.Ok? then Ok(job) else Err(Queue(pushed.1.error)))
    {
      var params := Normalized(input, isJson);
      if input.kind == "" { return Err(TypeRequired); }
      var created := jobs.Create(id, params, now, db);
      assert !db.Refused? ==> jobs.rows[id] == NewJob(id, params, now);
      if created.Err? { return Err(Database(created.error)); }
      var job := created.value;
      if job.status.Queued? {
        var pushed := queue.Enqueue(job, now);
        if pushed.Err? { return Err(Queue(pushed.error)); }
      }
      return Ok(job);
    }

    method Cancel(id: JobId, user: UserId, db: Answer) returns (r: Result<(), ServiceError>)
      modifies jobs
      ensures r.Ok? <==> db.Done? && id in old(jobs.rows) && old(jobs.rows)[id].owner == user && old(jobs.rows)[id].status in {Queued, Scheduled, Retrying}
      ensures r.Err? ==> r == Err(Database(if db.Done? then NoRows else Unavailable))
      ensures jobs.rows == if !db.Refused? && id in old(jobs.rows) && old(jobs.rows)[id].owner == user && old(jobs.rows)[id].status in {Queued, Scheduled, Retrying}
                           then old(jobs.rows)[id := old(jobs.rows)[id].(status := Cancelled)] else old(jobs.rows)
    {
      var cancelled := jobs.Cancel(id, user, db);
      if cancelled.Err? { return Err(Database(cancelled.error)); }
      return Ok(());
    }

    method Retry(id: JobId, user: UserId, now: Time, db: Answer) returns (r: Result<Job, ServiceError>)
      modifies jobs, queue
      ensures (r.Err? && r.error.Database?) <==> !(db.Done? && id in old(jobs.rows) && old(jobs.rows)[id].owner == user && old(jobs.rows)[id].status in {Failed, DeadLetter})
      ensures r.Err? && r.error.Database? ==>
        r.error.db == (if db.Done? then NoRows else Unavailable) && queue.store == old(queue.store)
      ensures jobs.rows == if !db.Refused? && id in old(jobs.rows) && old(jobs.rows)[id].owner == user && old(jobs.rows)[id].status in {Failed, DeadLetter}
                           then old(jobs.rows)[id := old(jobs.rows)[id].(status := Queued, error := None)] else old(jobs.rows)
      ensures !(r.Err? && r.error.Database?) ==>
        var job := old(jobs.rows)[id].(status := Queued, error := None); var pushed := EnqueueSpec(old(queue.store), job, now);
        queue.store == pushed.0 && r == if pushed.1.Ok? then Ok(job) else Err(Queue(pushed.1.error))
    {
      var requeued := jobs.Requeue(id, user, db);
      if requeued.Err? { return Err(Database(requeued.error)); }
      var pushed := queue.Enqueue(requeued.value, now);
      if pushed.Err? { return Err(Queue(pushed.error)); }
      return Ok(requeued.value);
    }

    /** `up` holds the ids for which the database answers Find. Whatever becomes of
        a due retry, its entry is removed. */
    method PromoteRetries(now: Time, up: set<JobId>) returns (r: Result<(), QueueError>)
      modifies queue
      ensures r == if HoldsList(old(queue.store), RETRIES_KEY) then Err(WrongType) else Ok(())
      ensures queue.store == RetriesPass(Seen(jobs.rows, up), old(queue.store), now)
      ensures r.Ok? ==> forall id :: id in Set(DueIds(old(queue.store), now)) <==>
        id in SortedAt(old(queue.store), "scheduled:retries")
        && SortedAt(old(queue.store), "scheduled:retries")[id] * 1_000_000_000 <= now
      ensures r.Ok? && (forall id :: id in jobs.rows ==> jobs.rows[id].id == id) ==>
        PromotionOf(Seen(jobs.rows, up), old(queue.store), queue.store, Set(DueIds(old(queue.store), now)), now)
    {
      var due := queue.Due(now);
      if due.Err? { return Err(due.error); }
      var ids := due.value;
      forall id ensures id in Set(ids) <==> id in ids { }
      for i := 0 to |ids|
        invariant queue.store == PromotedRetries(Seen(jobs.rows, up), old(queue.store), ids[..i], now)
      {
        PrefixGrows(ids, i);
        PromotedRetriesAppend(Seen(jobs.rows, up), old(queue.store), ids[..i], ids[i], now);
        var found := jobs.Find(ids[i], ids[i] in up);
        if found.Ok? {
          var pushed := queue.Enqueue(found.value, now);
        }
        queue.RemoveRetry(ids[i]);
      }
      assert ids[..|ids|] == ids;
      if forall id :: id in jobs.rows ==> jobs.rows[id].id == id {
        RetriesArePromoted(Seen(jobs.rows, up), old(queue.store), ids, now);
      }
      return Ok(());
    }

    /** One tick of the scheduler. An enqueue error ends it early: the rest of the
        batch stays queued without a token, and no retry is promoted. */
    method PromoteScheduled(chosen: seq<JobId>, now: Time, db: Answer, found: set<JobId>) returns (r: Result<(), ServiceError>)
      requires ReadyBatch(jobs.rows, now, Set(chosen)) && Distinct(chosen)
      modifies jobs, queue
      ensures !db.Done? ==> r == Err(Database(Unavailable)) && queue.store == old(queue.store)
      ensures jobs.rows == if db.Refused? then old(jobs.rows) else PromoteRows(old(jobs.rows), Set(chosen))
      ensures db.Done? ==> var batch := RowsOf(jobs.rows, chosen); var pushed := PushAll(old(queue.store), batch, now);
        && (pushed.1.Err? <==> SomeKeyBlocked(old(queue.store), batch))
        && (if pushed.1.Err? then r == Err(Queue(pushed.1.error)) && queue.store == pushed.0
            else r == (if HoldsList(pushed.0, RETRIES_KEY) then Err(Queue(WrongType)) else Ok(()))
                 && queue.store == RetriesPass(Seen(jobs.rows, found), pushed.0, now))
        && (NewToQueues(old(queue.store), batch) ==> BatchWaits(old(queue.store), pushed.0, batch))
    {
      hide SomeKeyBlocked, NewToQueues, BatchWaits, PriorityScore, PromotionOf, RetriesPass, RowsOf, ReadyBatch, PromoteRows;
      var ready := jobs.ReadyScheduled(chosen, now, db);
      if ready.Err? { return Err(Database(ready.error)); }
      var batch := ready.value;
      PushStopsIff(queue.store, batch, now);
      if NewToQueues(queue.store, batch) { PushedBatchWaits(queue.store, batch, now); }
      for i := 0 to |batch|
        invariant jobs.rows == PromoteRows(old(jobs.rows), Set(chosen)) && batch == RowsOf(jobs.rows, chosen)
        invariant PushAll(old(queue.store), batch[..i], now) == (queue.store, Ok(()))
      {
        PrefixGrows(batch, i);
        PushAllAppend(old(queue.store), batch[..i], batch[i], now);
        var pushed := queue.Enqueue(batch[i], now);
        if pushed.Err? {
          PushAllStops(old(queue.store), batch[..i + 1], batch[i + 1..], now);
          assert batch[..i + 1] + batch[i + 1..] == batch;
          return Err(Queue(pushed.error));
        }
      }
      assert batch[..|batch|] == batch;
      var promoted := PromoteRetries(now, found);
      if promoted.Err? { return Err(Queue(promoted.error)); }
      return Ok(());
    }
  }
}
