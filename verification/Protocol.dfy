/** The job lifecycle as a state machine: one action is one SQL statement, one
    Redis command, or one internal move of a goroutine. API calls, the scheduler
    loop and the worker goroutines interleave freely. */
module Protocol {
  import opened Prelude
  import opened Timing
  import opened Jobs

  type WorkerId = nat
  type CallId = nat
  type PoolId = nat

  // ------------------------------------------------------------------ Redis

  // A sorted set: member to score.
  type ZSet = map<JobId, int>

  // `stamp` numbers the writes of the retry set; it exists for the proofs only.
  datatype Entry = Entry(score: int, stamp: nat)

  datatype Redis = Redis(queues: map<string, ZSet>, retries: map<JobId, Entry>, dead: seq<JobId>)

  function Members(r: Redis, queue: string): ZSet {
    if queue in r.queues then r.queues[queue] else map[]
  }

  /** ZPOPMIN takes the lowest score, ties by member. */
  predicate IsMin(z: ZSet, id: JobId) {
    id in z && forall k :: k in z ==> z[id] < z[k] || (z[id] == z[k] && id <= k)
  }

  lemma LeastExists(z: ZSet)
    requires z != map[]
    ensures exists id :: IsMin(z, id)
    decreases |z|
  {
    var id :| id in z;
    var rest := z - {id};
    assert z.Keys == rest.Keys + {id};
    if rest == map[] {
      assert IsMin(z, id);
    } else {
      LeastExists(rest);
      var least :| IsMin(rest, least);
      assert IsMin(z, id) || IsMin(z, least);
    }
  }

  function ZAdd(r: Redis, queue: string, id: JobId, score: int): Redis {
    r.(queues := r.queues[queue := Members(r, queue)[id := score]])
  }

  function ZRem(r: Redis, queue: string, id: JobId): Redis {
    r.(queues := r.queues[queue := Members(r, queue) - {id}])
  }

  function Enqueue(r: Redis, job: Job, now: Time): Redis {
    ZAdd(r, job.queue, job.id, PriorityScore(job.priority, UnixMilli(now)))
  }

  // ---------------------------------------------------------------- parties

  datatype Pc =
    | Polling(at: nat)            // Dequeue is about to pop the queue at this position
    | Popped(id: JobId)           // handle is about to run MarkRunning
    | Executing(id: JobId)        // between MarkRunning and MarkCompleted or MarkFailed
    | CountingDone                // about to increment jobs_processed
    | CountingFailed(job: Job)    // about to increment jobs_failed
    | ReAdding(job: Job)          // about to run EnqueueAfter
    | Burying(job: Job)           // about to run DeadLetter

  datatype Goroutine = Goroutine(pool: PoolId, pc: Pc)

  datatype Scheduler =
    | Resting
    | Enqueueing(batch: map<JobId, Job>)          // rows promoted but not yet enqueued
    | Promoting(due: set<JobId>)                  // retry entries still to handle
    | Fetched(due: set<JobId>, job: Job)          // about to enqueue a retry
    | Removing(due: set<JobId>, id: JobId, since: nat)  // about to remove its entry

  datatype Tally = Tally(processed: nat, failed: nat)

  // Manual retries so far, and the last clock reading of EnqueueAfter.
  datatype History = History(requeues: nat, readdAt: Option<Time>)

  datatype State = State(
    now: Time,
    rows: map<JobId, Job>,
    redis: Redis,
    goroutines: map<WorkerId, Goroutine>,
    sched: Scheduler,
    calls: map<CallId, Job>,      // API calls that wrote a row and still have to enqueue it
    tallies: map<PoolId, Tally>,  // the workers table
    listen: WorkerId -> seq<string>, // the queues a goroutine polls, in order
    // history
    hist: map<JobId, History>,
    writes: nat,                  // writes to the retry set so far
    lost: set<JobId>,             // jobs whose rewritten retry entry was removed
    missedDone: nat,              // counter updates that met no row of the workers table
    missedFailed: nat)

  const BATCH_LIMIT: nat := 100

  /** A result of the ReadyScheduled statement: the earliest due rows, at most 100. */
  ghost predicate ReadyBatch(rows: map<JobId, Job>, now: Time, batch: set<JobId>) {
    && (forall id :: id in batch ==> id in rows && rows[id].Due(now))
    && |batch| <= BATCH_LIMIT
    && (forall id :: id in rows && rows[id].Due(now) && id !in batch ==>
          && |batch| == BATCH_LIMIT
          && forall b :: b in batch ==> rows[b].scheduledAt.value <= rows[id].scheduledAt.value)
  }

  datatype ApiStep =
    | Create(call: CallId, id: JobId, params: CreateParams)
    | Cancel(id: JobId, user: UserId)
    | Requeue(call: CallId, id: JobId, user: UserId)
    | Push(call: CallId)           // Enqueue of the row written by Create or Requeue

  datatype SchedStep =
    | Scan(batch: set<JobId>)      // ReadyScheduled
    | BatchPush(id: JobId)         // Enqueue of one promoted row
    | Range                        // ZRANGEBYSCORE on the retry set
    | Fetch(id: JobId)             // Find
    | RetryPush                    // Enqueue of a due retry
    | RetryRemove                  // ZREM of its entry
    | Rest                         // the tick is over

  datatype WorkStep =
    | Pop(id: JobId)               // ZPOPMIN
    | PollEmpty
    | MarkRunning
    | MarkCompleted                // the processor succeeded
    | MarkFailed(message: string)  // the processor failed
    | Count                        // IncrementProcessed
    | ReAdd                        // EnqueueAfter
    | Bury                         // DeadLetter

  datatype Fault =
    | Corrupt(redis: Redis)        // any change to Redis, lost writes included
    | CrashGoroutine(w: WorkerId)
    | CrashCall(call: CallId)
    | CrashScheduler
    | LoseGrant(w: WorkerId)       // MarkRunning takes effect, its answer is lost, handle returns
    | LoseCompletion(w: WorkerId)  // MarkCompleted fails and its error is ignored
    | LoseFailure(w: WorkerId)     // MarkFailed fails and handle returns
    | LoseCount(w: WorkerId)       // IncrementProcessed fails and its error is ignored

  datatype Action =
    | Tick(d: nat)
    | Heartbeat(pool: PoolId)
    | Api(api: ApiStep)
    | Sched(step: SchedStep)
    | Work(w: WorkerId, work: WorkStep)
    | Broken(fault: Fault)

  // The list of dead jobs shares its Redis key with the queue of this name.
  const DEAD_LETTER: string := "dead-letter"

  /** Actions of a fault-free run. */
  predicate Regular(a: Action) {
    && !a.Broken?
    && (a.Api? && a.api.Create? ==> a.api.params.queue != DEAD_LETTER)
  }

  // -------------------------------------------------------------- API calls

  predicate ApiEnabled(s: State, a: ApiStep) {
    match a
    case Create(call, id, params) => call !in s.calls && id !in s.rows
    case Cancel(id, user) => id in s.rows && s.rows[id].Cancellable(user)
    case Requeue(call, id, user) => call !in s.calls && id in s.rows && s.rows[id].Requeueable(user)
    case Push(call) => call in s.calls
  }

  function Requeues(s: State, id: JobId): nat {
    if id in s.hist then s.hist[id].requeues else 0
  }

  function ApplyApi(s: State, a: ApiStep): State
    requires ApiEnabled(s, a)
  {
    match a
    case Create(call, id, params) =>
      var job := NewJob(id, params, s.now);
      s.(rows := s.rows[id := job],
         hist := s.hist[id := History(0, None)],
         calls := if job.status.Queued? then s.calls[call := job] else s.calls)
    case Cancel(id, user) =>
      s.(rows := s.rows[id := s.rows[id].Cancel()])
    case Requeue(call, id, user) =>
      var job := s.rows[id].Requeue();
      s.(rows := s.rows[id := job],
         hist := s.hist[id := History(Requeues(s, id) + 1, None)],
         calls := s.calls[call := job])
    case Push(call) =>
      s.(redis := Enqueue(s.redis, s.calls[call], s.now), calls := s.calls - {call})
  }

  // -------------------------------------------------------------- scheduler

  function PromoteRows(rows: map<JobId, Job>, batch: set<JobId>): map<JobId, Job> {
    map id | id in rows :: if id in batch then rows[id].Promote() else rows[id]
  }

  function DueRetries(retries: map<JobId, Entry>, now: Time): set<JobId> {
    set id | id in retries && retries[id].score <= Unix(now)
  }

  ghost predicate SchedEnabled(s: State, a: SchedStep) {
    match a
    case Scan(batch) => s.sched.Resting? && ReadyBatch(s.rows, s.now, batch)
    case BatchPush(id) => s.sched.Enqueueing? && id in s.sched.batch
    case Range => s.sched.Enqueueing? && s.sched.batch == map[]
    case Fetch(id) => s.sched.Promoting? && id in s.sched.due
    case RetryPush => s.sched.Fetched?
    case RetryRemove => s.sched.Removing?
    case Rest => s.sched.Promoting? && s.sched.due == {}
  }

  /** The entry being removed was rewritten after the retry was enqueued. */
  predicate Rewritten(s: State) {
    s.sched.Removing? && s.sched.id in s.redis.retries && s.redis.retries[s.sched.id].stamp > s.sched.since
  }

  ghost function ApplySched(s: State, a: SchedStep): State
    requires SchedEnabled(s, a)
  {
    match a
    case Scan(batch) =>
      var rows := PromoteRows(s.rows, batch);
      s.(rows := rows, sched := Enqueueing(map id | id in batch :: rows[id]))
    case BatchPush(id) =>
      s.(redis := Enqueue(s.redis, s.sched.batch[id], s.now), sched := Enqueueing(s.sched.batch - {id}))
    case Range =>
      s.(sched := Promoting(DueRetries(s.redis.retries, s.now)))
    case Fetch(id) =>
      s.(sched := if id in s.rows then Fetched(s.sched.due - {id}, s.rows[id])
                  else Removing(s.sched.due - {id}, id, s.writes))
    case RetryPush =>
      s.(redis := Enqueue(s.redis, s.sched.job, s.now), sched := Removing(s.sched.due, s.sched.job.id, s.writes))
    case RetryRemove =>
      s.(redis := s.redis.(retries := s.redis.retries - {s.sched.id}),
         lost := if Rewritten(s) then s.lost + {s.sched.id} else s.lost,
         sched := Promoting(s.sched.due))
    case Rest =>
      s.(sched := Resting)
  }

  // ------------------------------------------------------------- goroutines

  function Bump(t: Tally, ok: bool): Tally {
    if ok then t.(processed := t.processed + 1) else t.(failed := t.failed + 1)
  }

  /** IncrementProcessed: an UPDATE that touches nothing when the pool has no row. */
  function IncrementProcessed(s: State, pool: PoolId, ok: bool): State {
    if pool in s.tallies then s.(tallies := s.tallies[pool := Bump(s.tallies[pool], ok)])
    else if ok then s.(missedDone := s.missedDone + 1)
    else s.(missedFailed := s.missedFailed + 1)
  }

  ghost predicate WorkEnabled(s: State, w: WorkerId, a: WorkStep) {
    && w in s.goroutines
    && var pc := s.goroutines[w].pc;
       match a
       case Pop(id) => pc.Polling? && pc.at < |s.listen(w)| && IsMin(Members(s.redis, s.listen(w)[pc.at]), id)
       case PollEmpty => pc.Polling? && pc.at < |s.listen(w)| && Members(s.redis, s.listen(w)[pc.at]) == map[]
       case MarkRunning => pc.Popped?
       case MarkCompleted => pc.Executing?
       case MarkFailed(message) => pc.Executing?
       case Count => pc.CountingDone? || pc.CountingFailed?
       case ReAdd => pc.ReAdding?
       case Bury => pc.Burying?
  }

  predicate Grants(s: State, id: JobId) { id in s.rows && s.rows[id].Startable() }

  function GrantedRows(s: State, id: JobId): map<JobId, Job>
    requires Grants(s, id)
  {
    s.rows[id := s.rows[id].Start(s.now)]
  }

  function AfterCount(pc: Pc): Pc
    requires pc.CountingDone? || pc.CountingFailed?
  {
    if pc.CountingDone? then Polling(0)
    else if pc.job.status.Retrying? then ReAdding(pc.job)
    else Burying(pc.job)
  }

  /** Where the goroutine goes. */
  ghost function NextPc(s: State, w: WorkerId, a: WorkStep): Pc
    requires WorkEnabled(s, w, a)
  {
    var pc := s.goroutines[w].pc;
    match a
    case Pop(id) => Popped(id)
    case PollEmpty => Polling((pc.at + 1) % |s.listen(w)|)
    case MarkRunning => if Grants(s, pc.id) then Executing(pc.id) else Polling(0)
    case MarkCompleted => CountingDone
    case MarkFailed(message) => if pc.id in s.rows then CountingFailed(s.rows[pc.id].Fail(message)) else Polling(0)
    case Count => AfterCount(pc)
    case ReAdd => Polling(0)
    case Bury => Polling(0)
  }

  /** What it does to the stores. */
  ghost function Effect(s: State, w: WorkerId, a: WorkStep): State
    requires WorkEnabled(s, w, a)
  {
    var pc := s.goroutines[w].pc;
    match a
    case Pop(id) => s.(redis := ZRem(s.redis, s.listen(w)[pc.at], id))
    case PollEmpty => s
    case MarkRunning =>
      if Grants(s, pc.id) then s.(rows := s.rows[pc.id := s.rows[pc.id].Start(s.now)]) else s
    case MarkCompleted =>
      if pc.id in s.rows then s.(rows := s.rows[pc.id := s.rows[pc.id].Complete(s.now)]) else s
    case MarkFailed(message) =>
      if pc.id in s.rows then s.(rows := s.rows[pc.id := s.rows[pc.id].Fail(message)]) else s
    case Count => IncrementProcessed(s, s.goroutines[w].pool, pc.CountingDone?)
    case ReAdd =>
      s.(redis := s.redis.(retries := s.redis.retries[pc.job.id := Entry(RetryScore(s.now, pc.job.attempts), s.writes + 1)]),
         writes := s.writes + 1,
         hist := if pc.job.id in s.hist then s.hist[pc.job.id := History(s.hist[pc.job.id].requeues, Some(s.now))] else s.hist)
    case Bury => s.(redis := s.redis.(dead := [pc.job.id] + s.redis.dead))
  }

  function Goto(s: State, w: WorkerId, pc: Pc): State
    requires w in s.goroutines
  {
    s.(goroutines := s.goroutines[w := s.goroutines[w].(pc := pc)])
  }

  ghost function ApplyWork(s: State, w: WorkerId, a: WorkStep): State
    requires WorkEnabled(s, w, a)
  {
    Effect(s, w, a).(goroutines := s.goroutines[w := Goroutine(s.goroutines[w].pool, NextPc(s, w, a))])
  }

  // ----------------------------------------------------------------- faults

  predicate FaultEnabled(s: State, a: Fault) {
    match a
    case Corrupt(redis) => true
    case CrashGoroutine(w) => w in s.goroutines
    case CrashCall(call) => call in s.calls
    case CrashScheduler => true
    case LoseGrant(w) => w in s.goroutines && s.goroutines[w].pc.Popped? && Grants(s, s.goroutines[w].pc.id)
    case LoseCompletion(w) => w in s.goroutines && s.goroutines[w].pc.Executing?
    case LoseFailure(w) => w in s.goroutines && s.goroutines[w].pc.Executing?
    case LoseCount(w) => w in s.goroutines && (s.goroutines[w].pc.CountingDone? || s.goroutines[w].pc.CountingFailed?)
  }

  function ApplyFault(s: State, a: Fault): State
    requires FaultEnabled(s, a)
  {
    match a
    case Corrupt(redis) => s.(redis := redis)
    case CrashGoroutine(w) => Goto(s, w, Polling(0))
    case CrashCall(call) => s.(calls := s.calls - {call})
    case CrashScheduler => s.(sched := Resting)
    case LoseGrant(w) => Goto(s.(rows := GrantedRows(s, s.goroutines[w].pc.id)), w, Polling(0))
    case LoseCompletion(w) => Goto(s, w, CountingDone)
    case LoseFailure(w) => Goto(s, w, Polling(0))
    case LoseCount(w) => Goto(s, w, AfterCount(s.goroutines[w].pc))
  }

  // ---------------------------------------------------------------- actions

  ghost predicate Enabled(s: State, a: Action) {
    match a
    case Tick(d) => true
    case Heartbeat(pool) => true
    case Api(api) => ApiEnabled(s, api)
    case Sched(step) => SchedEnabled(s, step)
    case Work(w, work) => WorkEnabled(s, w, work)
    case Broken(fault) => FaultEnabled(s, fault)
  }

  ghost function Apply(s: State, a: Action): State
    requires Enabled(s, a)
  {
    match a
    case Tick(d) => s.(now := s.now + d)
    case Heartbeat(pool) => if pool in s.tallies then s else s.(tallies := s.tallies[pool := Tally(0, 0)])
    case Api(api) => ApplyApi(s, api)
    case Sched(step) => ApplySched(s, step)
    case Work(w, work) => ApplyWork(s, w, work)
    case Broken(fault) => ApplyFault(s, fault)
  }

  // What each party leaves alone.

  lemma ApiFrame(s: State, a: ApiStep)
    requires ApiEnabled(s, a)
    ensures var t := ApplyApi(s, a);
      && t.now == s.now && t.goroutines == s.goroutines && t.sched == s.sched && t.tallies == s.tallies
      && t.listen == s.listen && t.writes == s.writes && t.lost == s.lost && t.redis.retries == s.redis.retries
      && t.redis.dead == s.redis.dead && t.missedDone == s.missedDone && t.missedFailed == s.missedFailed
  {
  }

  lemma SchedFrame(s: State, a: SchedStep)
    requires SchedEnabled(s, a)
    ensures var t := ApplySched(s, a);
      && t.now == s.now && t.goroutines == s.goroutines && t.calls == s.calls && t.tallies == s.tallies
      && t.listen == s.listen && t.writes == s.writes && t.hist == s.hist && t.redis.dead == s.redis.dead
      && t.missedDone == s.missedDone && t.missedFailed == s.missedFailed
      && t.rows == (if a.Scan? then PromoteRows(s.rows, a.batch) else s.rows)
  {
  }

  lemma WorkFrame(s: State, w: WorkerId, a: WorkStep)
    requires WorkEnabled(s, w, a)
    ensures var t := ApplyWork(s, w, a);
      && t.now == s.now && t.sched == s.sched && t.calls == s.calls && t.listen == s.listen && t.lost == s.lost
      && t.goroutines == s.goroutines[w := Goroutine(s.goroutines[w].pool, NextPc(s, w, a))]
      && t.rows.Keys == s.rows.Keys && t.hist.Keys == s.hist.Keys
  {
    hide Effect, NextPc, WorkEnabled;
    EffectFrame(s, w, a);
  }

  lemma EffectFrame(s: State, w: WorkerId, a: WorkStep)
    requires WorkEnabled(s, w, a)
    ensures var t := Effect(s, w, a);
      && t.now == s.now && t.sched == s.sched && t.calls == s.calls && t.listen == s.listen && t.lost == s.lost
      && t.rows.Keys == s.rows.Keys && t.hist.Keys == s.hist.Keys
  {
    hide IsMin, RetryScore, ZRem, IncrementProcessed;
    if a.Count? { IncrementFrame(s, s.goroutines[w].pool, s.goroutines[w].pc.CountingDone?); }
  }

  /** The rows after a step of a goroutine. */
  lemma EffectRows(s: State, w: WorkerId, a: WorkStep)
    requires WorkEnabled(s, w, a) && (s.goroutines[w].pc.Executing? ==> s.goroutines[w].pc.id in s.rows)
    ensures var t := ApplyWork(s, w, a); var pc := s.goroutines[w].pc;
      t.rows == (if a.MarkRunning? && Grants(s, pc.id) then s.rows[pc.id := s.rows[pc.id].Start(s.now)]
                 else if a.MarkCompleted? then s.rows[pc.id := s.rows[pc.id].Complete(s.now)]
                 else if a.MarkFailed? then s.rows[pc.id := s.rows[pc.id].Fail(a.message)]
                 else s.rows)
  {
    hide IncrementProcessed, NextPc, IsMin, RetryScore, ZRem, Grants;
    if a.Count? { IncrementFrame(s, s.goroutines[w].pool, s.goroutines[w].pc.CountingDone?); }
  }

  lemma IncrementFrame(s: State, pool: PoolId, ok: bool)
    ensures var t := IncrementProcessed(s, pool, ok);
      t == s.(tallies := t.tallies, missedDone := t.missedDone, missedFailed := t.missedFailed)
  {
  }

  lemma FaultFrame(s: State, a: Fault)
    requires FaultEnabled(s, a)
    ensures var t := ApplyFault(s, a);
      && t.now == s.now && t.hist == s.hist
      && t.rows == (if a.LoseGrant? then GrantedRows(s, s.goroutines[a.w].pc.id) else s.rows)
      && t.rows.Keys == s.rows.Keys
      && t.goroutines.Keys == s.goroutines.Keys
      && forall w, id :: w in s.goroutines && t.goroutines[w].pc == Executing(id) ==> s.goroutines[w].pc == Executing(id)
  {
  }

  ghost predicate Initial(s: State) {
    && s.rows == map[] && s.hist == map[] && s.calls == map[] && s.tallies == map[]
    && s.redis == Redis(map[], map[], [])
    && s.sched.Resting?
    && (forall w :: w in s.goroutines ==> s.goroutines[w].pc == Polling(0))
    && s.writes == 0 && s.lost == {} && s.missedDone == 0 && s.missedFailed == 0
  }

  /** The state after a run, or nothing if some action is not possible. */
  ghost function Exec(s: State, run: seq<Action>): Option<State>
    decreases |run|
  {
    if run == [] then Some(s)
    else if !Enabled(s, run[0]) then None
    else Exec(Apply(s, run[0]), run[1..])
  }

  ghost predicate AllRegular(run: seq<Action>) {
    forall i :: 0 <= i < |run| ==> Regular(run[i])
  }

  lemma {:induction false} ExecAppend(s: State, run: seq<Action>, more: seq<Action>)
    requires Exec(s, run).Some?
    ensures Exec(s, run + more) == Exec(Exec(s, run).value, more)
    decreases |run|
  {
    hide Enabled, Apply;
    if run == [] {
      assert run + more == more;
    } else {
      assert (run + more)[1..] == run[1..] + more;
      ExecAppend(Apply(s, run[0]), run[1..], more);
    }
  }

  lemma ExecCons(s: State, a: Action, rest: seq<Action>)
    requires Enabled(s, a)
    ensures Exec(s, [a] + rest) == Exec(Apply(s, a), rest)
  {
    hide Enabled, Apply;
    assert ([a] + rest)[1..] == rest;
  }

  lemma ExecOne(s: State, a: Action)
    requires Enabled(s, a)
    ensures Exec(s, [a]) == Some(Apply(s, a))
  {
    hide Enabled, Apply;
    assert [a][1..] == [];
  }
}
