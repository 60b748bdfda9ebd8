/** Every place keeps what its token implies about the row, and so the token
    invariant holds in every state of every fault-free run. */
module TokenPlaces {
  import opened Prelude
  import opened Sums
  import opened Timing
  import opened Jobs
  import opened Protocol
  import opened DatabaseSafety
  import opened Tokens

  /** The step left the job as it was, or cancelled it. */
  ghost predicate Compatible(s: State, t: State, id: JobId) {
    id in s.rows ==>
      && id in t.rows && t.rows[id].queue == s.rows[id].queue && t.rows[id].priority == s.rows[id].priority
      && (t.rows[id].status.Cancelled?
          || (t.rows[id] == s.rows[id] && (id in s.hist ==> id in t.hist && t.hist[id] == s.hist[id])))
  }

  ghost function HeldBy(s: State, actor: Option<WorkerId>, id: JobId): nat {
    if actor.Some? && actor.value in s.goroutines then HoldsPc(s.goroutines[actor.value].pc, id) else 0
  }

  /** The step is compatible with every token except the actor's own. */
  ghost predicate Undisturbed(s: State, t: State, actor: Option<WorkerId>) {
    s.now <= t.now && forall id {:trigger Live(s, id)} :: Live(s, id) > HeldBy(s, actor, id) ==> Compatible(s, t, id)
  }

  lemma CallIsKept(s: State, t: State, actor: Option<WorkerId>, c: CallId)
    requires CallsOk(s) && Undisturbed(s, t, actor) && c in s.calls
    ensures WrittenOk(t, s.calls[c])
  {
    var id := s.calls[c].id;
    SumAtLeast(s.calls, c, CallHolds(id));
    ActorAtMost(s, actor, id);
    assert Live(s, id) > HeldBy(s, actor, id);
  }

  lemma ActorAtMost(s: State, actor: Option<WorkerId>, id: JobId)
    ensures HeldBy(s, actor, id) <= Sum(s.goroutines, Holds(id))
  {
    if actor.Some? && actor.value in s.goroutines { SumAtLeast(s.goroutines, actor.value, Holds(id)); }
  }

  lemma QueueEntryIsKept(s: State, t: State, actor: Option<WorkerId>, q: string, id: JobId)
    requires QueuesOk(s) && Undisturbed(s, t, actor) && q in s.redis.queues && id in s.redis.queues[q]
    ensures ReadyOk(t, id) && t.rows[id].queue == q
  {
    SumAtLeast(s.redis.queues, q, QueueHolds(id));
    assert QueueHolds(id)(s.redis.queues[q]) == 1;
    ActorAtMost(s, actor, id);
    assert ReadyOk(s, id) && s.rows[id].queue == q;
    assert Live(s, id) > HeldBy(s, actor, id);
  }

  lemma BatchIsKept(s: State, t: State, actor: Option<WorkerId>, id: JobId)
    requires SchedOk(s) && Undisturbed(s, t, actor) && s.sched.Enqueueing? && id in s.sched.batch
    ensures s.sched.batch[id].id == id && WrittenOk(t, s.sched.batch[id])
  {
    ActorAtMost(s, actor, id);
    assert Live(s, id) > HeldBy(s, actor, id);
  }

  lemma EntryIsKept(s: State, t: State, actor: Option<WorkerId>, id: JobId)
    requires RetriesOk(s) && Undisturbed(s, t, actor) && InRetries(s, id)
    requires id in t.redis.retries && t.redis.retries[id] == s.redis.retries[id]
    ensures EntryOk(t, id)
  {
    ActorAtMost(s, actor, id);
    assert Live(s, id) > HeldBy(s, actor, id);
    assert EntryOk(s, id);
  }

  lemma OtherGoroutineHolds(s: State, actor: Option<WorkerId>, w: WorkerId, id: JobId)
    requires w in s.goroutines && Some(w) != actor && HoldsPc(s.goroutines[w].pc, id) == 1
    ensures Live(s, id) > HeldBy(s, actor, id)
  {
    hide HoldsPc;
    if actor.Some? && actor.value in s.goroutines {
      SumAtLeastTwo(s.goroutines, w, actor.value, Holds(id));
    } else {
      SumAtLeast(s.goroutines, w, Holds(id));
    }
  }

  lemma PcIsKept(s: State, t: State, actor: Option<WorkerId>, w: WorkerId)
    requires GoroutinesOk(s) && Undisturbed(s, t, actor) && w in s.goroutines && Some(w) != actor
    ensures PcOk(t, s.goroutines[w].pc)
  {
    hide Live, HeldBy;
    var pc := s.goroutines[w].pc;
    assert PcOk(s, pc);
    var id := match pc case Popped(i) => i case CountingFailed(job) => job.id case ReAdding(job) => job.id case _ => 0;
    if HoldsPc(pc, id) == 1 { OtherGoroutineHolds(s, actor, w, id); }
  }

  // -------------------------------------------------------------- API calls

  lemma ApiIsUndisturbing(s: State, a: ApiStep)
    requires TokenInv(s) && ApiEnabled(s, a)
    ensures Undisturbed(s, ApplyApi(s, a), None)
  {
    var t := ApplyApi(s, a);
    ApiFrame(s, a);
    forall id {:trigger Live(s, id)} | Live(s, id) > HeldBy(s, None, id) ensures Compatible(s, t, id) {
      assert LiveOk(s, id);
      ApiRows(s, a, id);
      ApiHist(s, a, id);
    }
  }

  lemma ApiHist(s: State, a: ApiStep, id: JobId)
    requires ApiEnabled(s, a) && id in s.hist && !((a.Requeue? || a.Create?) && a.id == id)
    ensures id in ApplyApi(s, a).hist && ApplyApi(s, a).hist[id] == s.hist[id]
  {
  }

  lemma ApiCalls(s: State, a: ApiStep)
    requires TokenInv(s) && ApiEnabled(s, a)
    ensures CallsOk(ApplyApi(s, a))
  {
    var t := ApplyApi(s, a);
    ApiIsUndisturbing(s, a);
    forall c | c in t.calls ensures WrittenOk(t, t.calls[c]) {
      if c in s.calls && t.calls[c] == s.calls[c] {
        CallIsKept(s, t, None, c);
      } else if a.Requeue? {
        ApiRows(s, a, a.id);
      }
    }
  }

  lemma PushedEntry(s: State, t: State, job: Job, q: string, id: JobId)
    requires t.redis.queues == Enqueue(s.redis, job, s.now).queues
    requires q in t.redis.queues && id in t.redis.queues[q]
    ensures (q in s.redis.queues && id in s.redis.queues[q]) || (q == job.queue && id == job.id)
  {
  }

  lemma QueuesKept(s: State, t: State, actor: Option<WorkerId>)
    requires QueuesOk(s) && Undisturbed(s, t, actor) && t.redis.queues == s.redis.queues
    ensures QueuesOk(t)
  {
    forall q, id | q in t.redis.queues && id in t.redis.queues[q]
      ensures ReadyOk(t, id) && t.rows[id].queue == q
    {
      QueueEntryIsKept(s, t, actor, q, id);
    }
  }

  lemma QueuesPushed(s: State, t: State, job: Job)
    requires QueuesOk(s) && Undisturbed(s, t, None) && t.redis.queues == Enqueue(s.redis, job, s.now).queues
    requires ReadyOk(t, job.id) && t.rows[job.id].queue == job.queue
    ensures QueuesOk(t)
  {
    forall q, id | q in t.redis.queues && id in t.redis.queues[q]
      ensures ReadyOk(t, id) && t.rows[id].queue == q
    {
      PushedEntry(s, t, job, q, id);
      if q in s.redis.queues && id in s.redis.queues[q] { QueueEntryIsKept(s, t, None, q, id); }
    }
  }

  lemma ApiQueues(s: State, a: ApiStep)
    requires TokenInv(s) && ApiEnabled(s, a)
    ensures QueuesOk(ApplyApi(s, a))
  {
    hide Live, SchedOk, QueuesOk, RetriesOk, GoroutinesOk, RunnersOk, Undisturbed, Enqueue;
    var t := ApplyApi(s, a);
    ApiIsUndisturbing(s, a);
    if a.Push? {
      assert WrittenOk(s, s.calls[a.call]);
      QueuesPushed(s, t, s.calls[a.call]);
    } else {
      QueuesKept(s, t, None);
    }
  }

  lemma GoroutinesKept(s: State, t: State)
    requires GoroutinesOk(s) && Undisturbed(s, t, None) && t.goroutines == s.goroutines
    ensures GoroutinesOk(t)
  {
    forall w | w in t.goroutines ensures PcOk(t, t.goroutines[w].pc) { PcIsKept(s, t, None, w); }
  }

  lemma RetriesKept(s: State, t: State, actor: Option<WorkerId>)
    requires RetriesOk(s) && Undisturbed(s, t, actor) && t.redis.retries == s.redis.retries
    requires t.sched == s.sched && t.writes == s.writes
    ensures RetriesOk(t)
  {
    forall id | id in t.redis.retries && InRetries(t, id) ensures EntryOk(t, id) {
      EntryIsKept(s, t, actor, id);
    }
  }

  lemma RunnersKept(s: State, t: State)
    requires RunnersOk(s) && t.goroutines == s.goroutines
    requires forall id :: id in t.rows && t.rows[id].status.Running? ==> id in s.rows && s.rows[id].status.Running?
    ensures RunnersOk(t)
  {
    forall id | id in t.rows && t.rows[id].status.Running? ensures exists w :: Executes(t, w, id) {
      var w :| Executes(s, w, id);
      assert Executes(t, w, id);
    }
  }

  lemma SchedKept(s: State, t: State, actor: Option<WorkerId>)
    requires SchedOk(s) && Undisturbed(s, t, actor) && t.sched == s.sched && s.writes <= t.writes
    requires forall id :: id in s.redis.retries ==> id in t.redis.retries
    requires forall id :: InRetries(s, id) && id in t.redis.retries ==> t.redis.retries[id] == s.redis.retries[id]
    requires forall id :: id in s.rows ==> id in t.rows && t.rows[id].SameIdentity(s.rows[id])
    ensures SchedOk(t)
  {
    match s.sched
    case Enqueueing(batch) =>
      forall id | id in batch ensures batch[id].id == id && WrittenOk(t, batch[id]) { BatchIsKept(s, t, actor, id); }
    case _ =>
  }

  lemma RowsKeepIdentity(s: State, a: Action)
    requires Safe(s) && Enabled(s, a)
    ensures forall id :: id in s.rows ==> id in Apply(s, a).rows && Apply(s, a).rows[id].SameIdentity(s.rows[id])
  {
    hide Apply, Enabled, RowStep;
    forall id | id in s.rows ensures id in Apply(s, a).rows && Apply(s, a).rows[id].SameIdentity(s.rows[id]) {
      StepIsGuarded(s, a, id);
      StepKeys(s, a);
      RowStepIsCoherent(s, Apply(s, a), id);
    }
  }

  lemma ApiKeepsPlaced(s: State, a: ApiStep)
    requires TokenInv(s) && ApiEnabled(s, a)
    ensures Placed(ApplyApi(s, a))
  {
    var t := ApplyApi(s, a);
    RowsKeepIdentity(s, Api(a));
    hide ApplyApi, Live, SchedOk, CallsOk, QueuesOk, RetriesOk, GoroutinesOk, RunnersOk, Undisturbed;
    ApiFrame(s, a);
    ApiCalls(s, a);
    ApiQueues(s, a);
    ApiIsUndisturbing(s, a);
    GoroutinesKept(s, t);
    RetriesKept(s, t, None);
    SchedKept(s, t, None);
    forall id | id in t.rows && t.rows[id].status.Running? ensures id in s.rows && s.rows[id].status.Running? {
      ApiRows(s, a, id);
    }
    RunnersKept(s, t);
  }

  // -------------------------------------------------------------- scheduler

  lemma SchedIsUndisturbing(s: State, a: SchedStep)
    requires TokenInv(s) && SchedEnabled(s, a)
    ensures Undisturbed(s, ApplySched(s, a), None)
  {
    var t := ApplySched(s, a);
    SchedFrame(s, a);
    forall id {:trigger Live(s, id)} | Live(s, id) > HeldBy(s, None, id) ensures Compatible(s, t, id) {
      assert LiveOk(s, id);
      SchedLost(s, a, id);
    }
  }

  lemma SchedQueues(s: State, a: SchedStep)
    requires TokenInv(s) && SchedEnabled(s, a)
    ensures QueuesOk(ApplySched(s, a))
  {
    hide Live, CallsOk, QueuesOk, RetriesOk, GoroutinesOk, RunnersOk, Undisturbed, Enqueue;
    var t := ApplySched(s, a);
    SchedIsUndisturbing(s, a);
    SchedFrame(s, a);
    if a.BatchPush? {
      assert WrittenOk(s, s.sched.batch[a.id]);
      QueuesPushed(s, t, s.sched.batch[a.id]);
    } else if a.RetryPush? {
      DueIsReady(s);
      QueuesPushed(s, t, s.sched.job);
    } else {
      QueuesKept(s, t, None);
    }
  }

  /** A due retry may run: its score is its release time, and that has come. */
  lemma DueIsReady(s: State)
    requires RetriesOk(s) && SchedOk(s) && s.sched.Fetched?
    ensures ReadyOk(s, s.sched.job.id) && s.rows[s.sched.job.id].queue == s.sched.job.queue
  {
    var id := s.sched.job.id;
    assert id in s.sched.due + {id};
    assert InRetries(s, id) && EntryOk(s, id);
  }

  lemma SchedRetries(s: State, a: SchedStep)
    requires TokenInv(s) && SchedEnabled(s, a)
    ensures RetriesOk(ApplySched(s, a))
  {
    var t := ApplySched(s, a);
    SchedIsUndisturbing(s, a);
    SchedFrame(s, a);
    forall id | id in t.redis.retries
      ensures t.redis.retries[id].stamp <= t.writes && (InRetries(t, id) ==> EntryOk(t, id))
    {
      assert t.redis.retries[id] == s.redis.retries[id];
      assert s.redis.retries[id].stamp <= s.writes;
      if InRetries(t, id) {
        assert InRetries(s, id);
        EntryIsKept(s, t, None, id);
      }
    }
  }

  lemma ScanIsOk(s: State, batch: set<JobId>)
    requires RowsOk(s) && SchedEnabled(s, Scan(batch))
    ensures SchedOk(ApplySched(s, Scan(batch)))
  {
    var t := ApplySched(s, Scan(batch));
    forall id | id in batch ensures t.rows[id].id == id && WrittenOk(t, t.rows[id]) {
      assert s.rows[id].id == id;
    }
  }

  lemma FetchIsOk(s: State, id: JobId)
    requires RowsOk(s) && RetriesOk(s) && SchedOk(s) && SchedEnabled(s, Fetch(id))
    ensures SchedOk(ApplySched(s, Fetch(id)))
  {
    assert InRetries(s, id) && EntryOk(s, id);
    assert s.rows[id].id == id;
    assert DueOk(s, s.sched.due);
    assert (s.sched.due - {id}) + {id} == s.sched.due;
  }

  lemma SchedStaysOk(s: State, a: SchedStep)
    requires TokenInv(s) && SchedEnabled(s, a)
    ensures SchedOk(ApplySched(s, a))
  {
    hide Live, CallsOk, QueuesOk, GoroutinesOk, RunnersOk, RetriesOk, Exclusive, Tracked;
    match a {
      case Scan(batch) => ScanIsOk(s, batch);
      case Fetch(id) => FetchIsOk(s, id);
      case RetryPush => assert s.sched.job.id in s.sched.due + {s.sched.job.id};
      case _ =>
    }
  }

  lemma SchedKeepsPlaced(s: State, a: SchedStep)
    requires TokenInv(s) && SchedEnabled(s, a)
    ensures Placed(ApplySched(s, a))
  {
    var t := ApplySched(s, a);
    hide ApplySched, SchedEnabled, Live, SchedOk, QueuesOk, RetriesOk, GoroutinesOk, RunnersOk, Undisturbed;
    SchedFrame(s, a);
    SchedQueues(s, a);
    SchedRetries(s, a);
    SchedStaysOk(s, a);
    SchedIsUndisturbing(s, a);
    GoroutinesKept(s, t);
    forall c | c in t.calls ensures WrittenOk(t, t.calls[c]) { CallIsKept(s, t, None, c); }
    RunnersKept(s, t);
  }

  // ------------------------------------------------------------- goroutines

  lemma WorkHist(s: State, w: WorkerId, a: WorkStep, id: JobId)
    requires WorkEnabled(s, w, a) && id in s.hist
    ensures id in ApplyWork(s, w, a).hist
    ensures ApplyWork(s, w, a).hist[id] ==
      if a.ReAdd? && s.goroutines[w].pc.job.id == id then History(s.hist[id].requeues, Some(s.now)) else s.hist[id]
  {
  }

  lemma WorkIsUndisturbing(s: State, w: WorkerId, a: WorkStep)
    requires TokenInv(s) && WorkEnabled(s, w, a)
    ensures Undisturbed(s, ApplyWork(s, w, a), Some(w))
  {
    hide ApplyWork, Effect, NextPc, Placed, Live;
    var t := ApplyWork(s, w, a);
    WorkFrame(s, w, a);
    forall id {:trigger Live(s, id)} | Live(s, id) > HeldBy(s, Some(w), id) ensures Compatible(s, t, id) {
      assert LiveOk(s, id);
      WorkRows(s, w, a, id);
      if id in s.hist { WorkHist(s, w, a, id); }
    }
  }

  lemma NewPcIsOk(s: State, w: WorkerId, a: WorkStep)
    requires Safe(s) && GoroutinesOk(s) && QueuesOk(s) && WorkEnabled(s, w, a)
    ensures PcOk(ApplyWork(s, w, a), NextPc(s, w, a))
  {
    assert PcOk(s, s.goroutines[w].pc);
    if a.MarkFailed? {
      assert Executes(s, w, s.goroutines[w].pc.id);
      assert s.rows[s.goroutines[w].pc.id].id == s.goroutines[w].pc.id;
    }
  }

  lemma WorkGoroutines(s: State, w: WorkerId, a: WorkStep)
    requires TokenInv(s) && WorkEnabled(s, w, a)
    ensures GoroutinesOk(ApplyWork(s, w, a))
  {
    hide ApplyWork, NextPc, Live, WorkEnabled;
    var t := ApplyWork(s, w, a);
    WorkIsUndisturbing(s, w, a);
    WorkFrame(s, w, a);
    NewPcIsOk(s, w, a);
    forall x | x in t.goroutines ensures PcOk(t, t.goroutines[x].pc) {
      if x != w { PcIsKept(s, t, Some(w), x); }
    }
  }

  lemma WorkOnlyPops(s: State, w: WorkerId, a: WorkStep, q: string, id: JobId)
    requires WorkEnabled(s, w, a)
    requires q in ApplyWork(s, w, a).redis.queues && id in ApplyWork(s, w, a).redis.queues[q]
    ensures q in s.redis.queues && id in s.redis.queues[q]
  {
  }

  lemma WorkQueues(s: State, w: WorkerId, a: WorkStep)
    requires TokenInv(s) && WorkEnabled(s, w, a)
    ensures QueuesOk(ApplyWork(s, w, a))
  {
    hide ApplyWork, WorkEnabled, Live, Undisturbed;
    var t := ApplyWork(s, w, a);
    WorkIsUndisturbing(s, w, a);
    forall q, id | q in t.redis.queues && id in t.redis.queues[q]
      ensures ReadyOk(t, id) && t.rows[id].queue == q
    {
      WorkOnlyPops(s, w, a, q, id);
      QueueEntryIsKept(s, t, Some(w), q, id);
    }
  }

  lemma WorkEntries(s: State, w: WorkerId, a: WorkStep, id: JobId)
    requires WorkEnabled(s, w, a)
    ensures var t := ApplyWork(s, w, a);
      && (id in t.redis.retries <==> id in s.redis.retries || (a.ReAdd? && s.goroutines[w].pc.job.id == id))
      && s.writes <= t.writes
      && (id in s.redis.retries && !(a.ReAdd? && s.goroutines[w].pc.job.id == id) ==> t.redis.retries[id] == s.redis.retries[id])
      && (a.ReAdd? && s.goroutines[w].pc.job.id == id ==>
            t.redis.retries[id] == Entry(RetryScore(s.now, s.goroutines[w].pc.job.attempts), s.writes + 1) && t.writes == s.writes + 1)
  {
    hide IncrementProcessed;
    if a.Count? { IncrementFrame(s, s.goroutines[w].pool, s.goroutines[w].pc.CountingDone?); }
  }

  lemma ReAddedEntry(s: State, w: WorkerId)
    requires Safe(s) && GoroutinesOk(s) && WorkEnabled(s, w, ReAdd)
    ensures EntryOk(ApplyWork(s, w, ReAdd), s.goroutines[w].pc.job.id)
  {
    assert PcOk(s, s.goroutines[w].pc);
  }

  lemma WorkRetries(s: State, w: WorkerId, a: WorkStep)
    requires TokenInv(s) && WorkEnabled(s, w, a)
    ensures RetriesOk(ApplyWork(s, w, a))
  {
    hide ApplyWork, NextPc, Live;
    var t := ApplyWork(s, w, a);
    WorkIsUndisturbing(s, w, a);
    WorkFrame(s, w, a);
    forall id | id in t.redis.retries
      ensures t.redis.retries[id].stamp <= t.writes && (InRetries(t, id) ==> EntryOk(t, id))
    {
      WorkEntries(s, w, a, id);
      if a.ReAdd? && s.goroutines[w].pc.job.id == id {
        ReAddedEntry(s, w);
      } else if InRetries(t, id) {
        EntryIsKept(s, t, Some(w), id);
      }
    }
  }

  lemma WorkKeepsEntry(s: State, w: WorkerId, a: WorkStep, id: JobId)
    requires TokenInv(s) && WorkEnabled(s, w, a)
    ensures id in s.redis.retries ==> id in ApplyWork(s, w, a).redis.retries
    ensures InRetries(s, id) && id in ApplyWork(s, w, a).redis.retries ==>
      ApplyWork(s, w, a).redis.retries[id] == s.redis.retries[id]
  {
    hide ApplyWork, Live, Placed, Safe;
    WorkEntries(s, w, a, id);
    assert LiveOk(s, id);
    if a.ReAdd? && s.goroutines[w].pc.job.id == id { ReAddIsLive(s, w); }
  }

  lemma WorkSched(s: State, w: WorkerId, a: WorkStep)
    requires TokenInv(s) && WorkEnabled(s, w, a)
    ensures SchedOk(ApplyWork(s, w, a))
  {
    var t := ApplyWork(s, w, a);
    assert Apply(s, Work(w, a)) == t && Enabled(s, Work(w, a)) by { hide ApplyWork, WorkEnabled; }
    hide Apply, Enabled, ApplyWork, WorkEnabled, NextPc, Live, Undisturbed, SchedOk, InRetries;
    WorkIsUndisturbing(s, w, a);
    WorkFrame(s, w, a);
    forall id ensures id in s.redis.retries ==> id in t.redis.retries
              ensures InRetries(s, id) && id in t.redis.retries ==> t.redis.retries[id] == s.redis.retries[id]
    {
      WorkKeepsEntry(s, w, a, id);
    }
    WorkEntries(s, w, a, 0);
    RowsKeepIdentity(s, Work(w, a));
    SchedKept(s, t, Some(w));
  }

  lemma RunnerIsKept(s: State, w: WorkerId, a: WorkStep, id: JobId) returns (x: WorkerId)
    requires TokenInv(s) && WorkEnabled(s, w, a)
    requires id in ApplyWork(s, w, a).rows && ApplyWork(s, w, a).rows[id].status.Running?
    ensures Executes(ApplyWork(s, w, a), x, id)
  {
    hide ApplyWork, Effect, Live, Tracked, SchedOk, CallsOk, QueuesOk, RetriesOk, GoroutinesOk, Coherent, LiveOk;
    WorkFrame(s, w, a);
    WorkRows(s, w, a, id);
    if s.rows[id].status.Running? {
      x :| Executes(s, x, id);
    } else {
      x := w;
    }
  }

  lemma WorkRunners(s: State, w: WorkerId, a: WorkStep)
    requires TokenInv(s) && WorkEnabled(s, w, a)
    ensures RunnersOk(ApplyWork(s, w, a))
  {
    hide ApplyWork, WorkEnabled, TokenInv;
    forall id | id in ApplyWork(s, w, a).rows && ApplyWork(s, w, a).rows[id].status.Running?
      ensures exists x :: Executes(ApplyWork(s, w, a), x, id)
    {
      var x := RunnerIsKept(s, w, a, id);
    }
  }

  lemma WorkKeepsPlaced(s: State, w: WorkerId, a: WorkStep)
    requires TokenInv(s) && WorkEnabled(s, w, a)
    ensures Placed(ApplyWork(s, w, a))
  {
    var t := ApplyWork(s, w, a);
    hide ApplyWork, Live, SchedOk, QueuesOk, RetriesOk, GoroutinesOk, RunnersOk, Undisturbed;
    WorkFrame(s, w, a);
    WorkSched(s, w, a);
    WorkQueues(s, w, a);
    WorkRetries(s, w, a);
    WorkGoroutines(s, w, a);
    WorkRunners(s, w, a);
    WorkIsUndisturbing(s, w, a);
    forall c | c in t.calls ensures WrittenOk(t, t.calls[c]) { CallIsKept(s, t, Some(w), c); }
  }

  // ---------------------------------------------------------- the invariant

  lemma TokensInitially(s: State)
    requires Initial(s)
    ensures TokenInv(s)
  {
    SafeInitially(s);
    forall id ensures LiveOk(s, id) {
      SumZero(s.goroutines, Holds(id));
      SumZero(s.calls, CallHolds(id));
      SumZero(s.redis.queues, QueueHolds(id));
    }
  }

  /** Time and heartbeats move no token. */
  lemma IdleKeepsTokens(s: State, t: State)
    requires TokenInv(s) && s.now <= t.now
    requires t == s.(now := t.now, tallies := t.tallies)
    ensures Placed(t) && Tracked(t)
  {
    hide Live, SchedOk, QueuesOk, RetriesOk, GoroutinesOk, RunnersOk, Safe;
    assert Undisturbed(s, t, None);
    forall c | c in t.calls ensures WrittenOk(t, t.calls[c]) { CallIsKept(s, t, None, c); }
    forall id ensures InRetries(t, id) == InRetries(s, id) { }
    SchedKept(s, t, None);
    QueuesKept(s, t, None);
    RetriesKept(s, t, None);
    GoroutinesKept(s, t);
    RunnersKept(s, t);
    forall id ensures LiveOk(t, id) {
      assert LiveOk(s, id);
      SameLive(s, t, id);
    }
  }

  lemma SameLive(s: State, t: State, id: JobId)
    requires t == s.(now := t.now, tallies := t.tallies)
    ensures Live(t, id) == Live(s, id)
  {
  }

  lemma StepKeepsTokens(s: State, a: Action)
    requires TokenInv(s) && Enabled(s, a) && Regular(a)
    ensures TokenInv(Apply(s, a))
  {
    StepKeepsSafe(s, a);
    hide ApplyApi, ApplySched, ApplyWork, ApplyFault, ApiEnabled, SchedEnabled, WorkEnabled, FaultEnabled, Live, Safe, Placed, LiveOk;
    var t := Apply(s, a);
    match a
    case Api(api) =>
      ApiKeepsPlaced(s, api);
      forall id ensures LiveOk(t, id) { ApiKeepsLive(s, api, id); }
    case Sched(step) =>
      SchedKeepsPlaced(s, step);
      forall id ensures LiveOk(t, id) { SchedKeepsLive(s, step, id); }
    case Work(w, work) =>
      WorkKeepsPlaced(s, w, work);
      forall id ensures LiveOk(t, id) { WorkKeepsLive(s, w, work, id); }
    case _ => IdleKeepsTokens(s, t);
  }

  lemma {:induction false} RunKeepsTokens(s: State, run: seq<Action>)
    requires TokenInv(s) && AllRegular(run) && Exec(s, run).Some?
    ensures TokenInv(Exec(s, run).value)
    decreases |run|
  {
    hide Apply, Enabled, TokenInv;
    if run != [] {
      assert Regular(run[0]) && AllRegular(run[1..]);
      StepKeepsTokens(s, run[0]);
      RunKeepsTokens(Apply(s, run[0]), run[1..]);
    }
  }
}
