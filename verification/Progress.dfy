/** Fault-free runs do a bounded amount of work: a measure falls with every step
    that moves a job, and no step but Create and Requeue raises it. */
module Progress {
  import opened Sums
  import opened Timing
  import opened Jobs
  import opened Protocol
  import opened DatabaseSafety
  import opened Tokens
  import opened TokenPlaces
  import opened Accounting

  function RowWork(): Job -> nat { (job: Job) => 10 * StepsLeft(job) }

  function PcWork(pc: Pc): nat {
    match pc
    case Polling(at) => 0
    case Popped(id) => 1
    case Executing(id) => 1
    case CountingDone => 1
    case CountingFailed(job) => 5
    case ReAdding(job) => 4
    case Burying(job) => 1
  }

  function GoroutineWork(): Goroutine -> nat { (g: Goroutine) => PcWork(g.pc) }
  function CallWork(): Job -> nat { (job: Job) => 3 }
  function QueueWork(): ZSet -> nat { (z: ZSet) => 2 * |z| }
  function EntryWork(): Entry -> nat { (e: Entry) => 3 }

  ghost function BatchWork(sched: Scheduler): nat {
    if sched.Enqueueing? then Sum(sched.batch, CallWork()) else 0
  }

  ghost function ShadowWork(s: State): nat {
    if s.sched.Removing? && Shadow(s, s.sched.id) then 3 else 0
  }

  /** What is left to do: the status changes ahead of every job, and the distance
      of every token from its next execution. */
  ghost function WorkLeft(s: State): int {
    Sum(s.rows, RowWork()) + Sum(s.goroutines, GoroutineWork()) + Sum(s.calls, CallWork()) + BatchWork(s.sched)
    + Sum(s.redis.queues, QueueWork()) + Sum(s.redis.retries, EntryWork()) - ShadowWork(s)
  }

  lemma WorkLeftIsNat(s: State)
    ensures WorkLeft(s) >= 0
  {
    if s.sched.Removing? && Shadow(s, s.sched.id) {
      SumAtLeast(s.redis.retries, s.sched.id, EntryWork());
    }
  }

  /** The step moves a job or its token. The others only look, wait or tidy up. */
  predicate Moves(a: Action) {
    match a
    case Api(api) => api.Push? || api.Cancel?
    case Sched(step) => (step.Scan? && step.batch != {}) || step.BatchPush? || step.RetryPush?
    case Work(w, work) => !work.PollEmpty?
    case _ => false
  }

  predicate AddsWork(a: Action) { a.Api? && (a.api.Create? || a.api.Requeue?) }

  function MoveCount(a: Action): nat { if Moves(a) then 1 else 0 }

  function Moved(run: seq<Action>): nat {
    if run == [] then 0 else MoveCount(run[0]) + Moved(run[1..])
  }

  ghost predicate NoNewWork(run: seq<Action>) {
    forall i :: 0 <= i < |run| ==> Regular(run[i]) && !AddsWork(run[i])
  }

  lemma ZAddWork(r: Redis, queue: string, id: JobId, score: int)
    ensures Sum(ZAdd(r, queue, id, score).queues, QueueWork()) <= Sum(r.queues, QueueWork()) + 2
  {
    var z := Members(r, queue);
    assert z[id := score].Keys == z.Keys + {id};
    assert |z[id := score].Keys| <= |z.Keys| + 1;
    assert |z[id := score]| <= |z| + 1;
    SumUpdate(r.queues, queue, z[id := score], QueueWork());
  }

  lemma ZRemWork(r: Redis, queue: string, id: JobId)
    requires id in Members(r, queue)
    ensures Sum(ZRem(r, queue, id).queues, QueueWork()) + 2 == Sum(r.queues, QueueWork())
  {
    var z := Members(r, queue);
    assert (z - {id}).Keys == z.Keys - {id};
    assert |(z - {id}).Keys| == |z.Keys| - 1;
    assert |z - {id}| == |z| - 1;
    SumUpdate(r.queues, queue, z - {id}, QueueWork());
  }

  lemma ApiWork(s: State, a: ApiStep)
    requires Safe(s) && ApiEnabled(s, a) && !a.Create? && !a.Requeue?
    ensures WorkLeft(ApplyApi(s, a)) < WorkLeft(s)
  {
    hide Safe;
    ApiFrame(s, a);
    var t := ApplyApi(s, a);
    match a
    case Cancel(id, user) => SumUpdate(s.rows, id, s.rows[id].Cancel(), RowWork());
    case Push(call) =>
      var job := s.calls[call];
      SumRemove(s.calls, call, CallWork());
      ZAddWork(s.redis, job.queue, job.id, PriorityScore(job.priority, UnixMilli(s.now)));
  }

  lemma StepsGoDown(job: Job, requeues: nat, now: Time, message: string)
    requires Coherent(job, requeues, now)
    ensures job.status.Scheduled? ==> StepsLeft(job.Promote()) + 1 == StepsLeft(job)
    ensures job.Startable() ==> StepsLeft(job.Start(now)) + 1 <= StepsLeft(job)
    ensures job.status.Running? ==> StepsLeft(job.Complete(now)) + 1 <= StepsLeft(job)
    ensures job.status.Running? ==> StepsLeft(job.Fail(message)) + 1 <= StepsLeft(job)
  {
  }

  lemma PromoteOneMore(rows: map<JobId, Job>, batch: set<JobId>, id: JobId)
    requires id in batch && id in rows
    ensures PromoteRows(rows, batch) == PromoteRows(rows, batch - {id})[id := rows[id].Promote()]
    ensures id in PromoteRows(rows, batch - {id}) && PromoteRows(rows, batch - {id})[id] == rows[id]
  {
  }

  lemma PromoteNone(rows: map<JobId, Job>)
    ensures PromoteRows(rows, {}) == rows
  {
  }

  lemma PromoteStep(job: Job)
    requires job.status.Scheduled?
    ensures StepsLeft(job.Promote()) + 1 == StepsLeft(job)
  {
  }

  /** Each promoted row gives up a status change. */
  lemma {:induction false} PromotedRows(rows: map<JobId, Job>, batch: set<JobId>)
    requires forall id :: id in batch ==> id in rows && rows[id].status.Scheduled?
    ensures Sum(PromoteRows(rows, batch), RowWork()) + 10 * |batch| == Sum(rows, RowWork())
    decreases |batch|
  {
    hide StepsLeft, PromoteRows;
    if batch == {} {
      PromoteNone(rows);
    } else {
      var id :| id in batch;
      PromotedRows(rows, batch - {id});
      PromoteOneMore(rows, batch, id);
      PromoteStep(rows[id]);
      SumUpdate(PromoteRows(rows, batch - {id}), id, rows[id].Promote(), RowWork());
    }
  }

  lemma {:induction false} BatchTokens(batch: map<JobId, Job>)
    ensures Sum(batch, CallWork()) == 3 * |batch.Keys|
    decreases |batch|
  {
    if batch != map[] {
      var id :| id in batch.Keys;
      SumRemove(batch, id, CallWork());
      assert (batch - {id}).Keys == batch.Keys - {id};
      BatchTokens(batch - {id});
    } else {
      assert batch.Keys == {};
    }
  }

  lemma ScanWork(s: State, batch: set<JobId>)
    requires SchedEnabled(s, Scan(batch))
    ensures WorkLeft(ApplySched(s, Scan(batch))) + MoveCount(Sched(Scan(batch))) <= WorkLeft(s)
  {
    SchedFrame(s, Scan(batch));
    var t := ApplySched(s, Scan(batch));
    PromotedRows(s.rows, batch);
    BatchTokens(t.sched.batch);
    assert t.sched.batch.Keys == batch;
    assert t.redis == s.redis;
    assert BatchWork(t.sched) == 3 * |batch|;
    assert batch != {} ==> |batch| >= 1;
    hide RowWork, StepsLeft, ApplySched, ReadyBatch, PromoteRows;
  }

  lemma BatchPushWork(s: State, id: JobId)
    requires SchedEnabled(s, BatchPush(id))
    ensures WorkLeft(ApplySched(s, BatchPush(id))) < WorkLeft(s)
  {
    SchedFrame(s, BatchPush(id));
    var job := s.sched.batch[id];
    SumRemove(s.sched.batch, id, CallWork());
    ZAddWork(s.redis, job.queue, job.id, PriorityScore(job.priority, UnixMilli(s.now)));
  }

  lemma RetryPushWork(s: State)
    requires RetriesOk(s) && SchedOk(s) && SchedEnabled(s, RetryPush)
    ensures WorkLeft(ApplySched(s, RetryPush)) < WorkLeft(s)
  {
    SchedFrame(s, RetryPush);
    var job := s.sched.job;
    assert job.id in s.sched.due + {job.id};
    assert s.redis.retries[job.id].stamp <= s.writes;
    ZAddWork(s.redis, job.queue, job.id, PriorityScore(job.priority, UnixMilli(s.now)));
  }

  lemma RetryRemoveWork(s: State)
    requires SchedOk(s) && SchedEnabled(s, RetryRemove)
    ensures WorkLeft(ApplySched(s, RetryRemove)) <= WorkLeft(s)
  {
    SchedFrame(s, RetryRemove);
    SumRemove(s.redis.retries, s.sched.id, EntryWork());
  }

  lemma FetchedRow(s: State, id: JobId)
    requires Safe(s) && RetriesOk(s) && SchedOk(s) && SchedEnabled(s, Fetch(id))
    ensures id in s.rows && s.rows[id].id == id
  {
    assert InRetries(s, id) && EntryOk(s, id);
    assert s.rows[id].id == id;
  }

  lemma SchedWork(s: State, a: SchedStep)
    requires TokenInv(s) && SchedEnabled(s, a)
    ensures WorkLeft(ApplySched(s, a)) + MoveCount(Sched(a)) <= WorkLeft(s)
  {
    hide Live, Safe, Tracked, RetriesOk, SchedOk, GoroutinesOk, QueuesOk;
    match a {
      case Scan(batch) => hide ApplySched, SchedEnabled, WorkLeft; ScanWork(s, batch);
      case BatchPush(id) => hide ApplySched, SchedEnabled, WorkLeft; BatchPushWork(s, id);
      case Fetch(id) => FetchedRow(s, id); SchedFrame(s, a);
      case RetryPush => hide ApplySched, SchedEnabled, WorkLeft; RetryPushWork(s);
      case RetryRemove => hide ApplySched, SchedEnabled, WorkLeft; RetryRemoveWork(s);
      case Range =>
      case Rest =>
    }
  }

  lemma WorkRowWork(s: State, w: WorkerId, a: WorkStep)
    requires Safe(s) && WorkEnabled(s, w, a)
    ensures var t := ApplyWork(s, w, a); var pc := s.goroutines[w].pc;
      Sum(t.rows, RowWork()) + (if (a.MarkRunning? && Grants(s, pc.id)) || a.MarkCompleted? || a.MarkFailed? then 10 else 0)
      <= Sum(s.rows, RowWork())
  {
    hide ApplyWork, Effect, NextPc, StepsLeft;
    var t, pc := ApplyWork(s, w, a), s.goroutines[w].pc;
    WorkLedger(s, w, a);
    if (a.MarkRunning? && Grants(s, pc.id)) || a.MarkCompleted? || a.MarkFailed? {
      StepsGoDown(s.rows[pc.id], s.hist[pc.id].requeues, s.now, if a.MarkFailed? then a.message else "");
      hide Safe, Coherent;
      SumUpdate(s.rows, pc.id, t.rows[pc.id], RowWork());
      assert t.rows == s.rows[pc.id := t.rows[pc.id]];
    }
  }

  lemma WorkQueueWork(s: State, w: WorkerId, a: WorkStep)
    requires WorkEnabled(s, w, a)
    ensures Sum(ApplyWork(s, w, a).redis.queues, QueueWork()) + (if a.Pop? then 2 else 0) == Sum(s.redis.queues, QueueWork())
  {
    if a.Pop? { ZRemWork(s.redis, s.listen(w)[s.goroutines[w].pc.at], a.id); }
  }

  lemma WorkEntryWork(s: State, w: WorkerId, a: WorkStep)
    requires SchedOk(s) && WorkEnabled(s, w, a)
    ensures var t := ApplyWork(s, w, a);
      Sum(t.redis.retries, EntryWork()) - ShadowWork(t)
      <= Sum(s.redis.retries, EntryWork()) - ShadowWork(s) + (if a.ReAdd? then 3 else 0)
  {
    hide IncrementProcessed;
    if a.Count? { IncrementFrame(s, s.goroutines[w].pool, s.goroutines[w].pc.CountingDone?); }
    if a.ReAdd? {
      var job := s.goroutines[w].pc.job;
      SumUpdate(s.redis.retries, job.id, Entry(RetryScore(s.now, job.attempts), s.writes + 1), EntryWork());
    }
  }

  lemma PcWorkGoesDown(s: State, w: WorkerId, a: WorkStep)
    requires WorkEnabled(s, w, a) && (s.goroutines[w].pc.Executing? ==> s.goroutines[w].pc.id in s.rows)
    ensures var pc := s.goroutines[w].pc;
      PcWork(NextPc(s, w, a)) + MoveCount(Work(w, a)) + (if a.ReAdd? then 3 else 0)
      <= PcWork(pc) + (if a.Pop? then 2 else 0)
         + (if (a.MarkRunning? && Grants(s, pc.id)) || a.MarkCompleted? || a.MarkFailed? then 10 else 0)
  {
  }

  lemma WorkWork(s: State, w: WorkerId, a: WorkStep)
    requires TokenInv(s) && WorkEnabled(s, w, a)
    ensures WorkLeft(ApplyWork(s, w, a)) + MoveCount(Work(w, a)) <= WorkLeft(s)
  {
    hide ApplyWork, NextPc, PcWork, ShadowWork, BatchWork, Live, Tracked, Safe, MoveCount, RowWork,
         QueueWork, EntryWork, CallWork, SchedOk, RetriesOk, GoroutinesOk, QueuesOk, Grants;
    var t := ApplyWork(s, w, a);
    WorkFrame(s, w, a);
    WorkRowWork(s, w, a);
    WorkQueueWork(s, w, a);
    WorkEntryWork(s, w, a);
    WorkOnRow(s, w, a);
    PcWorkGoesDown(s, w, a);
    SumUpdate(s.goroutines, w, t.goroutines[w], GoroutineWork());
  }

  lemma WorkOnRow(s: State, w: WorkerId, a: WorkStep)
    requires Safe(s) && WorkEnabled(s, w, a)
    ensures s.goroutines[w].pc.Executing? ==> s.goroutines[w].pc.id in s.rows
  {
    if s.goroutines[w].pc.Executing? { assert Executes(s, w, s.goroutines[w].pc.id); }
  }

  lemma StepUsesWork(s: State, a: Action)
    requires TokenInv(s) && Enabled(s, a) && Regular(a) && !AddsWork(a)
    ensures WorkLeft(Apply(s, a)) + MoveCount(a) <= WorkLeft(s)
  {
    hide ApplyApi, ApplySched, ApplyWork, ApiEnabled, SchedEnabled, WorkEnabled, Safe, Placed, Tracked;
    match a
    case Api(api) => ApiWork(s, api);
    case Sched(step) => SchedWork(s, step);
    case Work(w, work) => WorkWork(s, w, work);
    case _ =>
  }

  /** Until new work arrives, a fault-free run moves jobs and tokens at most
      `WorkLeft` times, however long it is. */
  lemma {:induction false} MovesAreBounded(s: State, run: seq<Action>)
    requires TokenInv(s) && NoNewWork(run) && Exec(s, run).Some?
    ensures Moved(run) + WorkLeft(Exec(s, run).value) <= WorkLeft(s)
    ensures Moved(run) <= WorkLeft(s)
    decreases |run|
  {
    hide Apply, Enabled, TokenInv, WorkLeft, Moves;
    if run == [] {
      WorkLeftIsNat(s);
    } else {
      assert Regular(run[0]) && !AddsWork(run[0]) && NoNewWork(run[1..]);
      StepKeepsTokens(s, run[0]);
      StepUsesWork(s, run[0]);
      MovesAreBounded(Apply(s, run[0]), run[1..]);
      WorkLeftIsNat(Exec(s, run).value);
    }
  }
}
