/** Runs with faults, Redis intact: goroutines, API calls and the scheduler may die
    anywhere and statements may fail, but no stored entry is lost or made up. When a
    job then loses its last token, and how a fault can duplicate one. */
module Stranding {
  import opened Prelude
  import opened Sums
  import opened Timing
  import opened Jobs
  import opened Protocol
  import opened DatabaseSafety
  import opened Tokens
  import opened LossWindow

  /** Any fault but a change of Redis from outside. */
  predicate Mild(a: Action) { if a.Broken? then !a.fault.Corrupt? else Regular(a) }

  ghost predicate AllMild(run: seq<Action>) { forall i :: 0 <= i < |run| ==> Mild(run[i]) }

  /** What the scheduler holds, faults or not. */
  ghost predicate SchedShape(s: State) {
    match s.sched
    case Resting => true
    case Enqueueing(batch) => forall id :: id in batch ==> batch[id].id == id
    case Promoting(due) => forall id :: id in due ==> id in s.redis.retries
    case Fetched(due, job) => job.id !in due && job.id in s.redis.retries && forall id :: id in due ==> id in s.redis.retries
    case Removing(due, id, since) => id !in due && forall d :: d in due ==> d in s.redis.retries
  }

  ghost predicate Intact(s: State) { Safe(s) && SchedShape(s) }

  /** The job waits to run and no place holds its id. */
  ghost predicate Stranded(s: State, id: JobId) { Grants(s, id) && Places(s, id) == 0 }

  /** The step takes the id of a waiting job out of the last place that held it: a
      call, the scheduler or a goroutine dies with it, or the removal of a retry entry
      finds no token that its iteration left behind. */
  ghost predicate Strands(s: State, a: Action, id: JobId) {
    && Grants(s, id) && Places(s, id) == 1
    && match a
       case Broken(CrashCall(call)) => call in s.calls && s.calls[call].id == id
       case Broken(CrashScheduler) => BatchHolds(s.sched, id) == 1
       case Broken(CrashGoroutine(w)) => w in s.goroutines && HoldsPc(s.goroutines[w].pc, id) == 1
       case Sched(RetryRemove) => s.sched.Removing? && s.sched.id == id && id in s.redis.retries
       case _ => false
  }

  // ------------------------------------------------------------ the shape

  lemma SchedKeepsShape(s: State, a: SchedStep)
    requires Intact(s) && SchedEnabled(s, a)
    ensures SchedShape(ApplySched(s, a))
  {
    hide Exclusive, Coherent, PriorityScore, ReadyBatch;
    if a.Fetch? && a.id in s.rows { assert s.rows[a.id].id == a.id; }
    if a.Scan? { ScannedShape(s, a.batch); }
  }

  lemma ScannedShape(s: State, batch: set<JobId>)
    requires RowsOk(s) && SchedEnabled(s, Scan(batch))
    ensures SchedShape(ApplySched(s, Scan(batch)))
  {
    hide Coherent;
    forall id | id in batch ensures id in s.rows && s.rows[id].id == id { }
  }

  lemma ShapeKept(s: State, t: State)
    requires SchedShape(s) && t.sched == s.sched && forall id :: id in s.redis.retries ==> id in t.redis.retries
    ensures SchedShape(t)
  {
  }

  lemma WorkKeepsRetries(s: State, w: WorkerId, a: WorkStep)
    requires WorkEnabled(s, w, a)
    ensures ApplyWork(s, w, a).redis.retries.Keys ==
      if a.ReAdd? then s.redis.retries.Keys + {s.goroutines[w].pc.job.id} else s.redis.retries.Keys
  {
    hide IncrementProcessed, NextPc, Grants, IsMin, Members;
    if a.Count? { IncrementFrame(s, s.goroutines[w].pool, s.goroutines[w].pc.CountingDone?); }
  }

  lemma StepKeepsIntact(s: State, a: Action)
    requires Intact(s) && Enabled(s, a) && Mild(a)
    ensures Intact(Apply(s, a))
  {
    StepKeepsSafe(s, a);
    hide ApplyApi, ApplySched, ApplyWork, ApiEnabled, SchedEnabled, WorkEnabled, Safe, SchedShape;
    match a
    case Api(api) => ApiFrame(s, api); ShapeKept(s, Apply(s, a));
    case Sched(step) => SchedKeepsShape(s, step);
    case Work(w, work) => WorkFrame(s, w, work); WorkKeepsRetries(s, w, work); ShapeKept(s, Apply(s, a));
    case Broken(fault) => FaultKeepsShape(s, fault);
    case _ => ShapeKept(s, Apply(s, a));
  }

  lemma FaultKeepsShape(s: State, a: Fault)
    requires SchedShape(s) && FaultEnabled(s, a) && !a.Corrupt?
    ensures SchedShape(ApplyFault(s, a))
  {
  }

  // ----------------------------------------------------- places of each step

  lemma ZAddPlaces(r: Redis, queue: string, id: JobId, score: int, j: JobId)
    ensures var after := Sum(ZAdd(r, queue, id, score).queues, QueueHolds(j));
      && Sum(r.queues, QueueHolds(j)) <= after <= Sum(r.queues, QueueHolds(j)) + (if j == id then 1 else 0)
      && (j == id ==> after >= 1)
  {
    ZAddHolds(r, queue, id, score, j);
    if j == id { SumAtLeast(ZAdd(r, queue, id, score).queues, queue, QueueHolds(j)); }
  }

  /** The step leaves a waiting job in some place, or in none if it was in none. */
  ghost predicate KeepsSupply(s: State, t: State, id: JobId) {
    Places(t, id) == 0 <==> Places(s, id) == 0
  }

  lemma PushPlaces(s: State, call: CallId, j: JobId)
    requires call in s.calls
    ensures KeepsSupply(s, ApplyApi(s, Push(call)), j)
  {
    var job := s.calls[call];
    SumRemove(s.calls, call, CallHolds(j));
    ZAddPlaces(s.redis, job.queue, job.id, PriorityScore(job.priority, UnixMilli(s.now)), j);
    hide PriorityScore;
  }

  lemma OtherApiPlaces(s: State, a: ApiStep, j: JobId)
    requires ApiEnabled(s, a) && !a.Push? && (a.Requeue? ==> s.rows[a.id].id == a.id)
    ensures Places(ApplyApi(s, a), j) == Places(s, j)
      + (if a.id == j && (a.Requeue? || (a.Create? && NewJob(a.id, a.params, s.now).status.Queued?)) then 1 else 0)
  {
    match a
    case Create(call, id, params) => SumUpdate(s.calls, call, NewJob(id, params, s.now), CallHolds(j));
    case Cancel(id, user) =>
    case Requeue(call, id, user) => SumUpdate(s.calls, call, s.rows[id].Requeue(), CallHolds(j));
  }

  lemma ApiSupply(s: State, a: ApiStep, j: JobId)
    requires Intact(s) && ApiEnabled(s, a) && Grants(ApplyApi(s, a), j)
    ensures if Grants(s, j) then KeepsSupply(s, ApplyApi(s, a), j) else Places(ApplyApi(s, a), j) > 0
  {
    ApiRows(s, a, j);
    hide ApplyApi, Places, Safe, SchedShape;
    if a.Push? { PushPlaces(s, a.call, j); } else { OtherApiPlaces(s, a, j); }
  }

  lemma BatchPushPlaces(s: State, id: JobId, j: JobId)
    requires SchedShape(s) && SchedEnabled(s, BatchPush(id))
    ensures KeepsSupply(s, ApplySched(s, BatchPush(id)), j)
  {
    var job := s.sched.batch[id];
    ZAddPlaces(s.redis, job.queue, job.id, PriorityScore(job.priority, UnixMilli(s.now)), j);
    hide PriorityScore;
  }

  lemma RetryPushPlaces(s: State, j: JobId)
    requires SchedShape(s) && SchedEnabled(s, RetryPush)
    ensures KeepsSupply(s, ApplySched(s, RetryPush), j)
  {
    var job := s.sched.job;
    ZAddPlaces(s.redis, job.queue, job.id, PriorityScore(job.priority, UnixMilli(s.now)), j);
    hide PriorityScore;
  }

  lemma OtherSchedPlaces(s: State, a: SchedStep, j: JobId)
    requires SchedEnabled(s, a) && !a.BatchPush? && !a.RetryPush?
    ensures Places(ApplySched(s, a), j) + (if a.RetryRemove? && s.sched.id == j && j in s.redis.retries then 1 else 0)
         == Places(s, j) + (if a.Scan? && j in a.batch then 1 else 0)
  {
    hide PromoteRows, ReadyBatch, DueRetries;
  }

  lemma SchedSupply(s: State, a: SchedStep, j: JobId)
    requires Intact(s) && SchedEnabled(s, a) && Grants(ApplySched(s, a), j)
    ensures if Grants(s, j) then (Places(ApplySched(s, a), j) == 0 <==> Places(s, j) == 0 || Strands(s, Sched(a), j))
            else Places(ApplySched(s, a), j) > 0
  {
    SchedFrame(s, a);
    SchedRowsWait(s, a, j);
    hide Safe, Places, ApplySched;
    match a {
      case BatchPush(id) => BatchPushPlaces(s, id, j);
      case RetryPush => RetryPushPlaces(s, j);
      case _ => OtherSchedPlaces(s, a, j); RetryIsAPlace(s, j);
    }
  }

  lemma SchedRowsWait(s: State, a: SchedStep, j: JobId)
    requires SchedEnabled(s, a) && Grants(ApplySched(s, a), j)
    ensures if Grants(s, j) then !(a.Scan? && j in a.batch) else a.Scan? && j in a.batch
  {
    SchedFrame(s, a);
  }

  lemma RetryIsAPlace(s: State, j: JobId)
    ensures j in s.redis.retries ==> Places(s, j) > 0
  {
  }

  lemma WorkPlaces(s: State, w: WorkerId, a: WorkStep, j: JobId)
    requires WorkEnabled(s, w, a)
    ensures var t := ApplyWork(s, w, a); var pc := s.goroutines[w].pc;
      Places(t, j) + HoldsPc(pc, j) + (if a.Pop? && a.id == j then 1 else 0)
      == Places(s, j) + HoldsPc(NextPc(s, w, a), j) + (if a.ReAdd? && pc.job.id == j && j !in s.redis.retries then 1 else 0)
    ensures a.Pop? && a.id == j ==> Places(s, j) > 0
    ensures HoldsPc(s.goroutines[w].pc, j) + (if j in s.redis.retries then 1 else 0) <= Places(s, j)
  {
    hide HoldsPc, NextPc, Grants, RetryScore;
    var t, pc := ApplyWork(s, w, a), s.goroutines[w].pc;
    WorkFrame(s, w, a);
    WorkKeepsRetries(s, w, a);
    WorkKeepsQueues(s, w, a);
    SumUpdate(s.goroutines, w, t.goroutines[w], Holds(j));
    SumAtLeast(s.goroutines, w, Holds(j));
    if a.Pop? {
      ZRemHolds(s.redis, s.listen(w)[pc.at], a.id, j);
      SumAtLeast(s.redis.queues, s.listen(w)[pc.at], QueueHolds(j));
    }
    hide ApplyWork, WorkEnabled;
  }

  lemma WorkKeepsQueues(s: State, w: WorkerId, a: WorkStep)
    requires WorkEnabled(s, w, a)
    ensures ApplyWork(s, w, a).redis.queues ==
      if a.Pop? then ZRem(s.redis, s.listen(w)[s.goroutines[w].pc.at], a.id).queues else s.redis.queues
  {
    hide IncrementProcessed, NextPc, Grants, IsMin, ZRem, RetryScore;
    if a.Count? { IncrementFrame(s, s.goroutines[w].pool, s.goroutines[w].pc.CountingDone?); }
  }

  lemma WorkSupply(s: State, w: WorkerId, a: WorkStep, j: JobId)
    requires Intact(s) && WorkEnabled(s, w, a) && Grants(ApplyWork(s, w, a), j)
    ensures if Grants(s, j) then KeepsSupply(s, ApplyWork(s, w, a), j) else Places(ApplyWork(s, w, a), j) > 0
  {
    hide ApplyWork, Effect, Places, Coherent, SchedShape;
    WorkRows(s, w, a, j);
    WorkPlaces(s, w, a, j);
    if s.goroutines[w].pc.Executing? { assert Executes(s, w, s.goroutines[w].pc.id); }
  }

  lemma FaultPlaces(s: State, a: Fault, j: JobId)
    requires FaultEnabled(s, a) && !a.Corrupt?
    ensures var t := ApplyFault(s, a);
      match a
      case CrashGoroutine(w) => Places(t, j) + HoldsPc(s.goroutines[w].pc, j) == Places(s, j)
      case CrashCall(call) => Places(t, j) + CallHolds(j)(s.calls[call]) == Places(s, j)
      case CrashScheduler => Places(t, j) + BatchHolds(s.sched, j) == Places(s, j)
      case LoseGrant(w) => Places(t, j) + HoldsPc(s.goroutines[w].pc, j) == Places(s, j)
      case LoseCompletion(w) => Places(t, j) + HoldsPc(s.goroutines[w].pc, j) == Places(s, j)
      case LoseFailure(w) => Places(t, j) + HoldsPc(s.goroutines[w].pc, j) == Places(s, j)
      case LoseCount(w) =>
        Places(t, j) + HoldsPc(s.goroutines[w].pc, j) == Places(s, j) + HoldsPc(AfterCount(s.goroutines[w].pc), j)
      case Corrupt(redis) => true
  {
    hide HoldsPc, AfterCount, Grants;
    var t := ApplyFault(s, a);
    match a
    case CrashCall(call) => SumRemove(s.calls, call, CallHolds(j));
    case CrashScheduler =>
    case CrashGoroutine(w) => SumUpdate(s.goroutines, w, t.goroutines[w], Holds(j)); PollsHoldNothing(0, j);
    case LoseGrant(w) => SumUpdate(s.goroutines, w, t.goroutines[w], Holds(j)); PollsHoldNothing(0, j);
    case LoseCompletion(w) => SumUpdate(s.goroutines, w, t.goroutines[w], Holds(j)); PollsHoldNothing(0, j);
    case LoseFailure(w) => SumUpdate(s.goroutines, w, t.goroutines[w], Holds(j)); PollsHoldNothing(0, j);
    case LoseCount(w) => SumUpdate(s.goroutines, w, t.goroutines[w], Holds(j)); PollsHoldNothing(0, j);
  }

  lemma PollsHoldNothing(at: nat, j: JobId)
    ensures HoldsPc(Polling(at), j) == 0 && HoldsPc(CountingDone, j) == 0
  {
  }

  lemma FaultSupply(s: State, a: Fault, j: JobId)
    requires Intact(s) && FaultEnabled(s, a) && !a.Corrupt? && Grants(ApplyFault(s, a), j)
    ensures Grants(s, j) && (Places(ApplyFault(s, a), j) == 0 <==> Places(s, j) == 0 || Strands(s, Broken(a), j))
  {
    hide Places, RowsOk, SchedShape;
    FaultFrame(s, a);
    FaultPlaces(s, a, j);
    FaultIsNotOwn(s, a, j);
  }

  lemma FaultIsNotOwn(s: State, a: Fault, j: JobId)
    requires Exclusive(s) && FaultEnabled(s, a) && Grants(ApplyFault(s, a), j) && Grants(s, j)
    ensures (a.LoseGrant? || a.LoseCompletion? || a.LoseFailure?) ==> HoldsPc(s.goroutines[a.w].pc, j) == 0
    ensures a.LoseCount? ==> HoldsPc(AfterCount(s.goroutines[a.w].pc), j) == HoldsPc(s.goroutines[a.w].pc, j)
  {
    if (a.LoseCompletion? || a.LoseFailure?) && s.goroutines[a.w].pc.id == j { assert Executes(s, a.w, j); }
  }

  /** What one step does to the places of a job that waits afterwards. */
  lemma StepSupply(s: State, a: Action, id: JobId)
    requires Intact(s) && Enabled(s, a) && Mild(a) && Grants(Apply(s, a), id)
    ensures if Grants(s, id) then (Places(Apply(s, a), id) == 0 <==> Places(s, id) == 0 || Strands(s, a, id))
            else Places(Apply(s, a), id) > 0
  {
    hide ApplyApi, ApplySched, ApplyWork, ApplyFault, ApiEnabled, SchedEnabled, WorkEnabled, FaultEnabled, Safe, SchedShape;
    match a
    case Api(api) => ApiSupply(s, api, id);
    case Sched(step) => SchedSupply(s, step, id);
    case Work(w, work) => WorkSupply(s, w, work, id);
    case Broken(fault) => FaultSupply(s, fault, id);
    case _ =>
  }

  // ------------------------------------------------------------ stranding

  /** Exactly when a waiting job is left without a token. */
  lemma StrandedIff(s: State, a: Action, id: JobId)
    requires Intact(s) && Enabled(s, a) && Mild(a)
    ensures Stranded(Apply(s, a), id) <==> Grants(Apply(s, a), id) && (Stranded(s, id) || Strands(s, a, id))
  {
    hide Apply, Enabled, Places, Safe, SchedShape;
    if Grants(Apply(s, a), id) { StepSupply(s, a, id); }
  }

  lemma NoTokenNoGrant(s: State, a: Action, id: JobId)
    requires Enabled(s, a) && GrantsRun(s, a, id)
    ensures Places(s, id) > 0
  {
    var w := if a.Work? then a.w else a.fault.w;
    HeldIsPlaced(s, w, id);
    assert s.goroutines[w].pc == Popped(id);
  }

  lemma HeldIsPlaced(s: State, w: WorkerId, id: JobId)
    requires w in s.goroutines
    ensures HoldsPc(s.goroutines[w].pc, id) <= Places(s, id)
  {
    SumAtLeast(s.goroutines, w, Holds(id));
  }

  /** A stranded job stays so until it is cancelled, and never runs. */
  lemma StrandedStays(s: State, a: Action, id: JobId)
    requires Intact(s) && Enabled(s, a) && Mild(a) && Stranded(s, id)
    ensures (Stranded(Apply(s, a), id) || Closed(Apply(s, a), id)) && !GrantsRun(s, a, id)
  {
    hide Apply, Enabled, Places;
    if GrantsRun(s, a, id) { NoTokenNoGrant(s, a, id); }
    StepIsGuarded(s, a, id);
    StrandedIff(s, a, id);
  }

  lemma StrandingWaits(s: State, a: Action, id: JobId)
    requires Safe(s) && Enabled(s, a) && Strands(s, a, id)
    ensures Grants(Apply(s, a), id)
  {
  }

  lemma {:induction false} RunKeepsIntact(s: State, run: seq<Action>)
    requires Intact(s) && AllMild(run) && Exec(s, run).Some?
    ensures Intact(Exec(s, run).value)
    decreases |run|
  {
    hide Apply, Enabled, Intact;
    if run != [] {
      assert Mild(run[0]) && AllMild(run[1..]);
      StepKeepsIntact(s, run[0]);
      RunKeepsIntact(Apply(s, run[0]), run[1..]);
    }
  }

  lemma {:induction false} StrandedForever(s: State, run: seq<Action>, id: JobId)
    requires Intact(s) && AllMild(run) && Exec(s, run).Some? && Stranded(s, id)
    ensures Stranded(Exec(s, run).value, id) || Closed(Exec(s, run).value, id)
    ensures Runs(s, run, id) == 0
    decreases |run|
  {
    hide Apply, Enabled, Places, Safe, SchedShape, GrantsRun;
    if run != [] {
      assert Mild(run[0]) && AllMild(run[1..]);
      var t := Apply(s, run[0]);
      StepKeepsIntact(s, run[0]);
      StrandedStays(s, run[0], id);
      if Stranded(t, id) { StrandedForever(t, run[1..], id); } else { ClosedForever(t, run[1..], id); }
    }
  }

  /** Some step of the run strands the job. */
  ghost predicate StrandedAlong(s: State, run: seq<Action>, id: JobId)
    decreases |run|
  {
    run != [] && Enabled(s, run[0]) && (Strands(s, run[0], id) || StrandedAlong(Apply(s, run[0]), run[1..], id))
  }

  lemma {:induction false} AlongMeansStranded(s: State, run: seq<Action>, id: JobId)
    requires Intact(s) && AllMild(run) && Exec(s, run).Some? && StrandedAlong(s, run, id)
    ensures Stranded(Exec(s, run).value, id) || Closed(Exec(s, run).value, id)
    decreases |run|
  {
    hide Apply, Enabled, Places, Safe, SchedShape, Strands;
    assert Mild(run[0]) && AllMild(run[1..]);
    var t := Apply(s, run[0]);
    StepKeepsIntact(s, run[0]);
    if Strands(s, run[0], id) {
      StrandingWaits(s, run[0], id);
      StrandedIff(s, run[0], id);
      StrandedForever(t, run[1..], id);
    } else {
      AlongMeansStranded(t, run[1..], id);
    }
  }

  lemma {:induction false} StrandedMeansAlong(s: State, run: seq<Action>, id: JobId)
    requires Intact(s) && AllMild(run) && Exec(s, run).Some? && Stranded(Exec(s, run).value, id)
    ensures Stranded(s, id) || StrandedAlong(s, run, id)
    decreases |run|
  {
    hide Apply, Enabled, Places, Safe, SchedShape, Strands;
    if run != [] {
      assert Mild(run[0]) && AllMild(run[1..]);
      StepKeepsIntact(s, run[0]);
      StrandedMeansAlong(Apply(s, run[0]), run[1..], id);
      StrandedIff(s, run[0], id);
    }
  }

  /** Over every run from the start with crashes and failing statements anywhere: a
      job that waits to run is in some place, unless and only unless some step of the
      run took it out of the last one; then it never runs. */
  lemma SuppliedUnlessStranded(s0: State, run: seq<Action>, id: JobId)
    requires Initial(s0) && AllMild(run) && Exec(s0, run).Some? && Grants(Exec(s0, run).value, id)
    ensures Places(Exec(s0, run).value, id) == 0 <==> StrandedAlong(s0, run, id)
  {
    SafeInitially(s0);
    hide Safe, Places;
    if StrandedAlong(s0, run, id) { AlongMeansStranded(s0, run, id); }
    if Stranded(Exec(s0, run).value, id) { StrandedMeansAlong(s0, run, id); }
  }

  // ------------------------------------------- one fault in a sound state

  /** The fault kills the party that holds the id. */
  predicate TakesToken(s: State, a: Fault, id: JobId)
    requires FaultEnabled(s, a)
  {
    match a
    case CrashGoroutine(w) => HoldsPc(s.goroutines[w].pc, id) == 1
    case CrashCall(call) => s.calls[call].id == id
    case CrashScheduler => BatchHolds(s.sched, id) == 1
    case _ => false
  }

  /** What a fault does to the one token of a waiting job: it may be gone, or there
      may be two, when the scheduler dies between the enqueue and the removal. */
  lemma FaultOnToken(s: State, a: Fault, id: JobId)
    requires Safe(s) && FaultEnabled(s, a) && !a.Corrupt? && Live(s, id) == 1
    requires Grants(s, id) && Grants(ApplyFault(s, a), id)
    ensures Live(ApplyFault(s, a), id) ==
      if TakesToken(s, a, id) then 0 else if a.CrashScheduler? && Shadow(s, id) then 2 else 1
  {
    hide Places, RowsOk;
    FaultPlaces(s, a, id);
    FaultIsNotOwn(s, a, id);
    PlacesAndLive(s, id);
    PlacesAndLive(ApplyFault(s, a), id);
    FaultRetries(s, a, id);
  }

  lemma PlacesAndLive(s: State, id: JobId)
    ensures Places(s, id) == Live(s, id) + (if Shadow(s, id) then 1 else 0)
  {
  }

  lemma FaultRetries(s: State, a: Fault, id: JobId)
    requires FaultEnabled(s, a) && !a.Corrupt?
    ensures Shadow(ApplyFault(s, a), id) == (!a.CrashScheduler? && Shadow(s, id))
    ensures a.CrashScheduler? && Shadow(s, id) ==> BatchHolds(s.sched, id) == 0
  {
  }
}
