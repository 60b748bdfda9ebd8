/** The "run me" tokens of a fault-free run: which places hold the id of a job,
    and why exactly one place does as long as the job has to run. */
module Tokens {
  import opened Sums
  import opened Timing
  import opened Jobs
  import opened Protocol
  import opened DatabaseSafety

  // ------------------------------------------------------- counting tokens

  function HoldsPc(pc: Pc, id: JobId): nat {
    match pc
    case Popped(i) => if i == id then 1 else 0
    case Executing(i) => if i == id then 1 else 0
    case CountingFailed(job) => if job.id == id && job.status.Retrying? then 1 else 0
    case ReAdding(job) => if job.id == id then 1 else 0
    case _ => 0
  }

  function Holds(id: JobId): Goroutine -> nat { (g: Goroutine) => HoldsPc(g.pc, id) }

  function CallHolds(id: JobId): Job -> nat { (job: Job) => if job.id == id then 1 else 0 }

  function QueueHolds(id: JobId): ZSet -> nat { (z: ZSet) => if id in z then 1 else 0 }

  function BatchHolds(sched: Scheduler, id: JobId): nat {
    if sched.Enqueueing? && id in sched.batch then 1 else 0
  }

  /** A retry entry whose job was already enqueued by the iteration that is about
      to remove it. */
  predicate Shadow(s: State, id: JobId) {
    && s.sched.Removing? && s.sched.id == id
    && id in s.redis.retries && s.redis.retries[id].stamp <= s.sched.since
  }

  predicate InRetries(s: State, id: JobId) { id in s.redis.retries && !Shadow(s, id) }

  /** The number of places that will still lead the job to a goroutine. */
  ghost function Live(s: State, id: JobId): nat {
    Sum(s.goroutines, Holds(id)) + Sum(s.calls, CallHolds(id)) + BatchHolds(s.sched, id)
    + Sum(s.redis.queues, QueueHolds(id)) + (if InRetries(s, id) then 1 else 0)
  }

  /** One token while the job has to run, none before and after; a cancelled job
      may leave one behind; a lost job has none. */
  ghost predicate LiveOk(s: State, id: JobId) {
    && (id !in s.rows ==> Live(s, id) == 0 && id !in s.lost)
    && (id in s.rows ==>
          match s.rows[id].status
          case Queued => Live(s, id) == 1 && id !in s.lost
          case Running => Live(s, id) == 1 && id !in s.lost
          case Retrying => Live(s, id) == (if id in s.lost then 0 else 1)
          case Cancelled => Live(s, id) <= (if id in s.lost then 0 else 1)
          case _ => Live(s, id) == 0 && id !in s.lost)
  }

  // ------------------------------------------------- what each place implies

  ghost predicate Known(s: State, job: Job) {
    job.id in s.rows && s.rows[job.id].queue == job.queue && s.rows[job.id].priority == job.priority
  }

  /** The delay of the last failed attempt is over, up to the truncation of both
      clock readings to seconds. */
  ghost predicate Ripe(s: State, id: JobId)
    requires id in s.rows
  {
    && id in s.hist && s.hist[id].readdAt.Some?
    && RetryScore(s.hist[id].readdAt.value, s.rows[id].attempts) <= Unix(s.now)
  }

  // A written row still to be enqueued.
  ghost predicate WrittenOk(s: State, job: Job) {
    Known(s, job) && (s.rows[job.id].status.Queued? || s.rows[job.id].status.Cancelled?)
  }

  // A queue entry, or an id a goroutine popped.
  ghost predicate ReadyOk(s: State, id: JobId) {
    && id in s.rows
    && (s.rows[id].status.Queued? || s.rows[id].status.Retrying? || s.rows[id].status.Cancelled?)
    && (s.rows[id].status.Retrying? ==> Ripe(s, id))
  }

  // A live entry of the retry set.
  ghost predicate EntryOk(s: State, id: JobId)
    requires id in s.redis.retries
  {
    && id in s.rows
    && (s.rows[id].status.Retrying? || s.rows[id].status.Cancelled?)
    && (s.rows[id].status.Retrying? ==>
          && id in s.hist && s.hist[id].readdAt.Some?
          && s.redis.retries[id].score == RetryScore(s.hist[id].readdAt.value, s.rows[id].attempts))
  }

  // A failed job on its way to the retry set.
  ghost predicate AgainOk(s: State, job: Job) {
    && Known(s, job)
    && (s.rows[job.id].status.Retrying? || s.rows[job.id].status.Cancelled?)
    && (s.rows[job.id].status.Retrying? ==> s.rows[job.id].attempts == job.attempts)
  }

  ghost predicate PcOk(s: State, pc: Pc) {
    match pc
    case Popped(id) => ReadyOk(s, id)
    case CountingFailed(job) => job.status.Retrying? ==> AgainOk(s, job)
    case ReAdding(job) => AgainOk(s, job)
    case _ => true
  }

  ghost predicate DueOk(s: State, due: set<JobId>) {
    forall id :: id in due ==> id in s.redis.retries && s.redis.retries[id].score <= Unix(s.now)
  }

  ghost predicate SchedOk(s: State) {
    match s.sched
    case Resting => true
    case Enqueueing(batch) => forall id :: id in batch ==> batch[id].id == id && WrittenOk(s, batch[id])
    case Promoting(due) => DueOk(s, due)
    case Fetched(due, job) => DueOk(s, due + {job.id}) && job.id !in due && Known(s, job)
    case Removing(due, id, since) => DueOk(s, due) && id !in due && id in s.redis.retries && since <= s.writes
  }

  ghost predicate CallsOk(s: State) { forall c :: c in s.calls ==> WrittenOk(s, s.calls[c]) }

  ghost predicate QueuesOk(s: State) {
    forall q, id :: q in s.redis.queues && id in s.redis.queues[q] ==> ReadyOk(s, id) && s.rows[id].queue == q
  }

  ghost predicate RetriesOk(s: State) {
    forall id :: id in s.redis.retries ==> s.redis.retries[id].stamp <= s.writes && (InRetries(s, id) ==> EntryOk(s, id))
  }

  ghost predicate GoroutinesOk(s: State) { forall w :: w in s.goroutines ==> PcOk(s, s.goroutines[w].pc) }

  /** Without crashes a running row has its goroutine. */
  ghost predicate RunnersOk(s: State) {
    forall id :: id in s.rows && s.rows[id].status.Running? ==> exists w :: Executes(s, w, id)
  }

  ghost predicate Placed(s: State) {
    SchedOk(s) && CallsOk(s) && QueuesOk(s) && RetriesOk(s) && GoroutinesOk(s) && RunnersOk(s)
  }

  ghost predicate Tracked(s: State) { forall id :: LiveOk(s, id) }

  ghost predicate TokenInv(s: State) { Safe(s) && Placed(s) && Tracked(s) }

  // -------------------------------------------- one token excludes another

  /** No place at all refers to the job. */
  ghost predicate Nowhere(s: State, id: JobId) {
    && (forall w :: w in s.goroutines ==> HoldsPc(s.goroutines[w].pc, id) == 0)
    && Elsewhere(s, id)
  }

  /** No place except perhaps a goroutine refers to the job. */
  ghost predicate Elsewhere(s: State, id: JobId) {
    && (forall c :: c in s.calls ==> s.calls[c].id != id)
    && BatchHolds(s.sched, id) == 0
    && (forall q :: q in s.redis.queues ==> id !in s.redis.queues[q])
    && !InRetries(s, id)
  }

  lemma NoToken(s: State, id: JobId)
    requires Live(s, id) == 0
    ensures Nowhere(s, id)
  {
    forall w | w in s.goroutines ensures HoldsPc(s.goroutines[w].pc, id) == 0 {
      SumAtLeast(s.goroutines, w, Holds(id));
    }
    NoOtherToken(s, id);
  }

  lemma NoOtherToken(s: State, id: JobId)
    requires Live(s, id) == Sum(s.goroutines, Holds(id))
    ensures Elsewhere(s, id)
  {
    forall c | c in s.calls ensures s.calls[c].id != id { SumAtLeast(s.calls, c, CallHolds(id)); }
    forall q | q in s.redis.queues ensures id !in s.redis.queues[q] {
      SumAtLeast(s.redis.queues, q, QueueHolds(id));
    }
  }

  /** A goroutine that holds the only token. */
  lemma OnlyGoroutine(s: State, w: WorkerId, id: JobId)
    requires Live(s, id) <= 1 && w in s.goroutines && HoldsPc(s.goroutines[w].pc, id) == 1
    ensures Live(s, id) == 1 && Elsewhere(s, id)
    ensures forall x :: x in s.goroutines && x != w ==> HoldsPc(s.goroutines[x].pc, id) == 0
  {
    SumAtLeast(s.goroutines, w, Holds(id));
    NoOtherToken(s, id);
    forall x | x in s.goroutines && x != w ensures HoldsPc(s.goroutines[x].pc, id) == 0 {
      SumAtLeastTwo(s.goroutines, w, x, Holds(id));
    }
  }

  lemma OnlyCall(s: State, c: CallId, id: JobId)
    requires Live(s, id) <= 1 && c in s.calls && s.calls[c].id == id
    ensures Sum(s.redis.queues, QueueHolds(id)) == 0
    ensures forall q :: q in s.redis.queues ==> id !in s.redis.queues[q]
  {
    SumAtLeast(s.calls, c, CallHolds(id));
    forall q | q in s.redis.queues ensures id !in s.redis.queues[q] {
      SumAtLeast(s.redis.queues, q, QueueHolds(id));
    }
  }

  // ------------------------------------------------ how sorted sets change

  lemma ZAddHolds(r: Redis, queue: string, id: JobId, score: int, j: JobId)
    ensures Sum(ZAdd(r, queue, id, score).queues, QueueHolds(j))
         == Sum(r.queues, QueueHolds(j)) + (if j == id && id !in Members(r, queue) then 1 else 0)
  {
    SumUpdate(r.queues, queue, Members(r, queue)[id := score], QueueHolds(j));
  }

  lemma ZRemHolds(r: Redis, queue: string, id: JobId, j: JobId)
    requires id in Members(r, queue)
    ensures Sum(ZRem(r, queue, id).queues, QueueHolds(j)) + (if j == id then 1 else 0)
         == Sum(r.queues, QueueHolds(j))
  {
    SumUpdate(r.queues, queue, Members(r, queue) - {id}, QueueHolds(j));
  }

  // ----------------------------------------------------- tokens of each step

  lemma ApiTokens(s: State, a: ApiStep, j: JobId)
    requires ApiEnabled(s, a)
    requires a.Push? && s.calls[a.call].id == j ==> j !in Members(s.redis, s.calls[a.call].queue)
    ensures var t := ApplyApi(s, a);
      Live(t, j) == Live(s, j)
        + (if (a.Requeue? && s.rows[a.id].id == j)
              || (a.Create? && a.id == j && NewJob(a.id, a.params, s.now).status.Queued?) then 1 else 0)
  {
    var t := ApplyApi(s, a);
    match a
    case Create(call, id, params) => SumUpdate(s.calls, call, NewJob(id, params, s.now), CallHolds(j));
    case Cancel(id, user) =>
    case Requeue(call, id, user) => SumUpdate(s.calls, call, s.rows[id].Requeue(), CallHolds(j));
    case Push(call) =>
      var job := s.calls[call];
      SumRemove(s.calls, call, CallHolds(j));
      ZAddHolds(s.redis, job.queue, job.id, PriorityScore(job.priority, UnixMilli(s.now)), j);
  }

  lemma WorkTokens(s: State, w: WorkerId, a: WorkStep, j: JobId)
    requires WorkEnabled(s, w, a)
    ensures var t := ApplyWork(s, w, a); var pc := s.goroutines[w].pc;
      Live(t, j) + HoldsPc(pc, j) + (if a.Pop? && a.id == j then 1 else 0)
        + (if a.ReAdd? && pc.job.id == j && InRetries(s, j) then 1 else 0)
      == Live(s, j) + HoldsPc(t.goroutines[w].pc, j)
        + (if a.ReAdd? && pc.job.id == j && InRetries(t, j) then 1 else 0)
  {
    hide IncrementProcessed;
    if a.Count? { IncrementFrame(s, s.goroutines[w].pool, s.goroutines[w].pc.CountingDone?); }
    WorkFrame(s, w, a);
    var t, pc := ApplyWork(s, w, a), s.goroutines[w].pc;
    SumUpdate(s.goroutines, w, t.goroutines[w], Holds(j));
    if a.Pop? { ZRemHolds(s.redis, s.listen(w)[pc.at], a.id, j); }
  }

  lemma SchedTokens(s: State, a: SchedStep, j: JobId)
    requires SchedEnabled(s, a) && RetriesOk(s) && SchedOk(s)
    requires a.BatchPush? && s.sched.batch[a.id].id == j ==> j !in Members(s.redis, s.sched.batch[a.id].queue)
    requires a.RetryPush? && s.sched.job.id == j ==> j !in Members(s.redis, s.sched.job.queue)
    requires a.Fetch? ==> a.id in s.rows
    ensures Live(ApplySched(s, a), j) + (if a.RetryRemove? && s.sched.id == j && Rewritten(s) then 1 else 0)
         == Live(s, j) + (if a.Scan? && j in a.batch then 1 else 0)
  {
    SchedFrame(s, a);
    var t := ApplySched(s, a);
    match a
    case BatchPush(id) =>
      var job := s.sched.batch[id];
      ZAddHolds(s.redis, job.queue, job.id, PriorityScore(job.priority, UnixMilli(s.now)), j);
      assert InRetries(t, j) == InRetries(s, j);
    case RetryPush =>
      var job := s.sched.job;
      ZAddHolds(s.redis, job.queue, job.id, PriorityScore(job.priority, UnixMilli(s.now)), j);
      assert InRetries(s, j) == (j in s.redis.retries);
      assert InRetries(t, j) == (j in s.redis.retries && j != job.id);
    case RetryRemove =>
      assert InRetries(t, j) == (j in s.redis.retries && j != s.sched.id);
    case _ =>
      assert InRetries(t, j) == InRetries(s, j);
  }

  // --------------------------------------------------- the count is kept

  lemma ApiKeepsLive(s: State, a: ApiStep, j: JobId)
    requires TokenInv(s) && ApiEnabled(s, a)
    ensures LiveOk(ApplyApi(s, a), j)
  {
    hide ApplyApi, Live, Placed, Exclusive, Coherent;
    assert LiveOk(s, j);
    if a.Push? && s.calls[a.call].id == j { PushIsNew(s, a.call); }
    ApiFrame(s, a);
    ApiTokens(s, a, j);
    ApiRows(s, a, j);
  }

  /** A job about to be enqueued is in no queue yet. */
  lemma PushIsNew(s: State, call: CallId)
    requires TokenInv(s) && call in s.calls
    ensures s.calls[call].id !in Members(s.redis, s.calls[call].queue)
  {
    hide Live;
    var id := s.calls[call].id;
    assert LiveOk(s, id) && WrittenOk(s, s.calls[call]);
    OnlyCall(s, call, id);
  }

  lemma ApiRows(s: State, a: ApiStep, j: JobId)
    requires RowsOk(s) && ApiEnabled(s, a)
    ensures var t := ApplyApi(s, a);
      && (j in t.rows <==> j in s.rows || (a.Create? && a.id == j))
      && (a.Create? && a.id == j ==> j !in s.rows && t.rows[j] == NewJob(a.id, a.params, s.now))
      && (j in s.rows ==>
            if a.Cancel? && a.id == j then t.rows[j] == s.rows[j].Cancel() && s.rows[j].Cancellable(a.user)
            else if a.Requeue? && a.id == j then t.rows[j] == s.rows[j].Requeue() && s.rows[j].status.DeadLetter?
            else t.rows[j] == s.rows[j])
      && (a.Requeue? ==> s.rows[a.id].id == a.id)
  {
    if a.Requeue? { assert Coherent(s.rows[a.id], s.hist[a.id].requeues, s.now); }
  }

  /** An id held by the scheduler is in no queue. */
  lemma SumsOfQueues(s: State, id: JobId)
    requires Live(s, id) <= 1 && (BatchHolds(s.sched, id) == 1 || InRetries(s, id))
    ensures forall q :: q in s.redis.queues ==> id !in s.redis.queues[q]
  {
    forall q | q in s.redis.queues ensures id !in s.redis.queues[q] {
      SumAtLeast(s.redis.queues, q, QueueHolds(id));
    }
  }

  lemma SchedTokensHere(s: State, a: SchedStep, j: JobId)
    requires TokenInv(s) && SchedEnabled(s, a)
    ensures Live(ApplySched(s, a), j) + (if a.RetryRemove? && s.sched.id == j && Rewritten(s) then 1 else 0)
         == Live(s, j) + (if a.Scan? && j in a.batch then 1 else 0)
  {
    hide Live, ApplySched, Safe;
    match a {
      case BatchPush(id) => assert LiveOk(s, s.sched.batch[id].id); SumsOfQueues(s, s.sched.batch[id].id);
      case Fetch(id) => assert InRetries(s, id) && EntryOk(s, id);
      case RetryPush => assert InRetries(s, s.sched.job.id) && LiveOk(s, s.sched.job.id); SumsOfQueues(s, s.sched.job.id);
      case _ =>
    }
    SchedTokens(s, a, j);
  }

  lemma RewrittenIsRetrying(s: State)
    requires RetriesOk(s) && Rewritten(s)
    ensures var id := s.sched.id;
      InRetries(s, id) && id in s.rows && (s.rows[id].status.Retrying? || s.rows[id].status.Cancelled?)
  {
    assert InRetries(s, s.sched.id) && EntryOk(s, s.sched.id);
  }

  lemma LiveIsPositive(s: State, id: JobId)
    requires InRetries(s, id)
    ensures Live(s, id) >= 1
  {
  }

  lemma SchedLost(s: State, a: SchedStep, j: JobId)
    requires SchedEnabled(s, a)
    ensures j in ApplySched(s, a).lost <==> j in s.lost || (a.RetryRemove? && Rewritten(s) && j == s.sched.id)
    ensures a.Scan? && j in a.batch ==> j in s.rows && s.rows[j].status.Scheduled?
  {
  }

  lemma SchedKeepsLive(s: State, a: SchedStep, j: JobId)
    requires TokenInv(s) && SchedEnabled(s, a)
    ensures LiveOk(ApplySched(s, a), j)
  {
    hide Live, Safe, Placed, ApplySched, SchedEnabled, Rewritten, InRetries;
    SchedTokensHere(s, a, j);
    SchedFrame(s, a);
    SchedLost(s, a, j);
    assert LiveOk(s, j);
    if a.RetryRemove? && Rewritten(s) { WhatIsRemoved(s); }
  }

  lemma WhatIsRemoved(s: State)
    requires Placed(s) && Rewritten(s)
    ensures var id := s.sched.id;
      Live(s, id) >= 1 && id in s.rows && (s.rows[id].status.Retrying? || s.rows[id].status.Cancelled?)
  {
    RewrittenIsRetrying(s);
    LiveIsPositive(s, s.sched.id);
  }

  function WorkedRow(s: State, pc: Pc, a: WorkStep, j: JobId): Job
    requires j in s.rows
  {
    if a.MarkRunning? && pc == Popped(j) && Grants(s, j) then s.rows[j].Start(s.now)
    else if a.MarkCompleted? && pc == Executing(j) then s.rows[j].Complete(s.now)
    else if a.MarkFailed? && pc == Executing(j) then s.rows[j].Fail(a.message)
    else s.rows[j]
  }

  lemma WorkRows(s: State, w: WorkerId, a: WorkStep, j: JobId)
    requires Safe(s) && WorkEnabled(s, w, a)
    ensures var t := ApplyWork(s, w, a); var pc := s.goroutines[w].pc;
      && t.rows.Keys == s.rows.Keys && t.lost == s.lost
      && (pc.Executing? ==> pc.id in s.rows && s.rows[pc.id].status.Running? && s.rows[pc.id].id == pc.id)
    ensures j in s.rows ==> ApplyWork(s, w, a).rows[j] == WorkedRow(s, s.goroutines[w].pc, a, j)
  {
    hide ApplyWork, Effect, NextPc, Coherent, Grants;
    var pc := s.goroutines[w].pc;
    if pc.Executing? { assert Executes(s, w, pc.id); }
    WorkFrame(s, w, a);
    EffectRows(s, w, a);
  }

  /** EnqueueAfter writes the only token of its job. */
  lemma ReAddIsLive(s: State, w: WorkerId)
    requires Placed(s) && WorkEnabled(s, w, ReAdd)
    requires Live(s, s.goroutines[w].pc.job.id) <= 1
    ensures var id := s.goroutines[w].pc.job.id;
      !InRetries(s, id) && InRetries(ApplyWork(s, w, ReAdd), id)
  {
    OnlyGoroutine(s, w, s.goroutines[w].pc.job.id);
  }

  lemma HeldIsLive(s: State, w: WorkerId, j: JobId)
    requires w in s.goroutines
    ensures HoldsPc(s.goroutines[w].pc, j) <= Live(s, j)
  {
    SumAtLeast(s.goroutines, w, Holds(j));
  }

  lemma WorkKeepsLive(s: State, w: WorkerId, a: WorkStep, j: JobId)
    requires TokenInv(s) && WorkEnabled(s, w, a)
    ensures LiveOk(ApplyWork(s, w, a), j)
  {
    hide Live, Safe, ApplyWork, Effect, InRetries, Ripe;
    var pc := s.goroutines[w].pc;
    assert LiveOk(s, j) && PcOk(s, pc);
    WorkFrame(s, w, a);
    WorkRows(s, w, a, j);
    WorkTokens(s, w, a, j);
    HeldIsLive(s, w, j);
    if a.ReAdd? && pc.job.id == j { ReAddIsLive(s, w); }
  }
}
