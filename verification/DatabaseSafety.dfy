/** What the jobs table guarantees under every interleaving and every fault: the
    contents of Redis may change arbitrarily, and goroutines, API calls and the
    scheduler may crash at any point. */
module DatabaseSafety {
  import opened Prelude
  import opened Timing
  import opened Jobs
  import opened Protocol

  // -------------------------------------------------------------- invariant

  ghost predicate Executes(s: State, w: WorkerId, id: JobId) {
    w in s.goroutines && s.goroutines[w].pc == Executing(id)
  }

  ghost predicate RowsOk(s: State) {
    && s.rows.Keys == s.hist.Keys
    && forall id :: id in s.rows ==> s.rows[id].id == id && Coherent(s.rows[id], s.hist[id].requeues, s.now)
  }

  /** Every executing goroutine owns a running row, and no two own the same. */
  ghost predicate Exclusive(s: State) {
    && (forall w, id :: Executes(s, w, id) ==> id in s.rows && s.rows[id].status.Running?)
    && (forall w, x, id :: Executes(s, w, id) && Executes(s, x, id) ==> w == x)
  }

  ghost predicate Safe(s: State) { RowsOk(s) && Exclusive(s) }

  lemma SafeInitially(s: State)
    requires Initial(s)
    ensures Safe(s)
  {
  }

  lemma LaterIsCoherent(job: Job, requeues: nat, now: Time, later: Time)
    requires Coherent(job, requeues, now) && now <= later
    ensures Coherent(job, requeues, later)
  {
  }

  lemma NewIsCoherent(id: JobId, p: CreateParams, now: Time)
    ensures Coherent(NewJob(id, p, now), 0, now)
  {
  }

  lemma UpdatesAreCoherent(job: Job, requeues: nat, now: Time, message: string)
    requires Coherent(job, requeues, now)
    ensures job.status.Queued? || job.status.Scheduled? || job.status.Retrying? ==> Coherent(job.Cancel(), requeues, now)
    ensures job.Startable() ==> Coherent(job.Start(now), requeues, now)
    ensures job.status.Running? ==> Coherent(job.Complete(now), requeues, now)
    ensures job.status.Running? ==> Coherent(job.Fail(message), requeues, now)
    ensures job.status.DeadLetter? ==> Coherent(job.Requeue(), requeues + 1, now)
    ensures job.Due(now) ==> Coherent(job.Promote(), requeues, now)
  {
  }

  /** An action that leaves the row of `id` to one of its updates. */
  ghost predicate RowStep(s: State, t: State, id: JobId)
    requires id in s.rows
  {
    && id in t.rows && id in s.hist && id in t.hist
    && var job, next := s.rows[id], t.rows[id];
       || (next == job && t.hist[id].requeues == s.hist[id].requeues)
       || (next == job.Cancel() && (job.status.Queued? || job.status.Scheduled? || job.status.Retrying?)
           && t.hist[id].requeues == s.hist[id].requeues)
       || (next == job.Start(s.now) && job.Startable() && t.hist[id].requeues == s.hist[id].requeues)
       || (next == job.Complete(s.now) && job.status.Running? && t.hist[id].requeues == s.hist[id].requeues)
       || (job.status.Running? && t.hist[id].requeues == s.hist[id].requeues && exists m :: next == job.Fail(m))
       || (next == job.Requeue() && job.status.DeadLetter? && t.hist[id].requeues == s.hist[id].requeues + 1)
       || (next == job.Promote() && job.Due(s.now) && t.hist[id].requeues == s.hist[id].requeues)
  }

  /** This action is a successful MarkRunning of the job, whether or not its answer
      arrives. */
  ghost predicate GrantsRun(s: State, a: Action, id: JobId) {
    || (a.Work? && a.work.MarkRunning? && WorkEnabled(s, a.w, a.work) && s.goroutines[a.w].pc.id == id && Grants(s, id))
    || (a.Broken? && a.fault.LoseGrant? && FaultEnabled(s, a.fault) && s.goroutines[a.fault.w].pc.id == id)
  }

  /** This action is a successful manual retry of the job. */
  predicate IsManualRetry(a: Action, id: JobId) { a.Api? && a.api.Requeue? && a.api.id == id }

  lemma ApiStepIsGuarded(s: State, a: ApiStep, id: JobId)
    requires Safe(s) && ApiEnabled(s, a) && id in s.rows
    ensures RowStep(s, ApplyApi(s, a), id)
    ensures ApplyApi(s, a).rows[id].attempts == s.rows[id].attempts
    ensures ApplyApi(s, a).hist[id].requeues == s.hist[id].requeues + (if a.Requeue? && a.id == id then 1 else 0)
  {
    assert Coherent(s.rows[id], s.hist[id].requeues, s.now);
  }

  lemma SchedStepIsGuarded(s: State, a: SchedStep, id: JobId)
    requires Safe(s) && SchedEnabled(s, a) && id in s.rows
    ensures RowStep(s, ApplySched(s, a), id)
    ensures ApplySched(s, a).rows[id].attempts == s.rows[id].attempts && ApplySched(s, a).hist == s.hist
  {
  }

  lemma WorkStepIsGuarded(s: State, w: WorkerId, a: WorkStep, id: JobId)
    requires Safe(s) && WorkEnabled(s, w, a) && id in s.rows
    ensures RowStep(s, ApplyWork(s, w, a), id)
    ensures ApplyWork(s, w, a).rows[id].attempts
         == s.rows[id].attempts + (if GrantsRun(s, Work(w, a), id) then 1 else 0)
    ensures ApplyWork(s, w, a).hist[id].requeues == s.hist[id].requeues
  {
    hide ApplyWork, Effect, NextPc, Coherent;
    if s.goroutines[w].pc.Executing? { assert Executes(s, w, s.goroutines[w].pc.id); }
    EffectRows(s, w, a);
    WorkKeepsRequeues(s, w, a, id);
  }

  lemma WorkKeepsRequeues(s: State, w: WorkerId, a: WorkStep, id: JobId)
    requires WorkEnabled(s, w, a) && id in s.hist
    ensures var t := ApplyWork(s, w, a); id in t.hist && t.hist[id].requeues == s.hist[id].requeues
  {
    hide IncrementProcessed, NextPc, Grants;
    if a.Count? { IncrementFrame(s, s.goroutines[w].pool, s.goroutines[w].pc.CountingDone?); }
  }

  lemma FaultStepIsGuarded(s: State, a: Fault, id: JobId)
    requires FaultEnabled(s, a) && id in s.rows && id in s.hist
    ensures RowStep(s, ApplyFault(s, a), id) && ApplyFault(s, a).hist == s.hist
    ensures ApplyFault(s, a).rows[id].attempts == s.rows[id].attempts + (if GrantsRun(s, Broken(a), id) then 1 else 0)
    ensures !GrantsRun(s, Broken(a), id) ==> ApplyFault(s, a).rows[id] == s.rows[id]
    ensures GrantsRun(s, Broken(a), id) ==> s.rows[id].Startable()
  {
    FaultFrame(s, a);
  }

  /** In a safe state every action changes a row by one of its guarded
      transitions, although two of the updates are guarded by id only. */
  lemma StepIsGuarded(s: State, a: Action, id: JobId)
    requires Safe(s) && Enabled(s, a) && id in s.rows
    ensures RowStep(s, Apply(s, a), id)
    ensures Apply(s, a).rows[id].attempts == s.rows[id].attempts + (if GrantsRun(s, a, id) then 1 else 0)
    ensures Apply(s, a).hist[id].requeues == s.hist[id].requeues + (if IsManualRetry(a, id) then 1 else 0)
  {
    hide ApplyApi, ApplySched, ApplyWork, ApplyFault, ApiEnabled, SchedEnabled, WorkEnabled, FaultEnabled;
    match a
    case Api(api) => ApiStepIsGuarded(s, api, id);
    case Sched(step) => SchedStepIsGuarded(s, step, id);
    case Work(w, work) => WorkStepIsGuarded(s, w, work, id);
    case Broken(fault) => FaultStepIsGuarded(s, fault, id);
    case _ =>
  }

  lemma ApiKeys(s: State, a: ApiStep)
    requires ApiEnabled(s, a)
    ensures ApplyApi(s, a).rows.Keys == (if a.Create? then s.rows.Keys + {a.id} else s.rows.Keys)
    ensures a.Create? ==> ApplyApi(s, a).rows[a.id] == NewJob(a.id, a.params, s.now)
    ensures s.rows.Keys == s.hist.Keys ==> ApplyApi(s, a).hist.Keys == ApplyApi(s, a).rows.Keys
    ensures a.Create? ==> a.id in ApplyApi(s, a).hist && ApplyApi(s, a).hist[a.id].requeues == 0
  {
  }

  /** Rows are added by Create only, and never removed. */
  lemma StepKeys(s: State, a: Action)
    requires Enabled(s, a)
    ensures Apply(s, a).rows.Keys == (if a.Api? && a.api.Create? then s.rows.Keys + {a.api.id} else s.rows.Keys)
    ensures a.Api? && a.api.Create? ==> Apply(s, a).rows[a.api.id] == NewJob(a.api.id, a.api.params, s.now)
    ensures s.rows.Keys == s.hist.Keys ==> Apply(s, a).hist.Keys == Apply(s, a).rows.Keys
    ensures a.Api? && a.api.Create? ==> a.api.id in Apply(s, a).hist && Apply(s, a).hist[a.api.id].requeues == 0
    ensures Apply(s, a).now == s.now + (if a.Tick? then a.d else 0)
  {
    hide ApplyApi, ApplySched, ApplyWork, ApplyFault, ApiEnabled, SchedEnabled, WorkEnabled, FaultEnabled;
    match a
    case Api(api) => ApiKeys(s, api); ApiFrame(s, api);
    case Sched(step) => SchedFrame(s, step);
    case Work(w, work) => WorkFrame(s, w, work);
    case Broken(fault) => FaultFrame(s, fault);
    case _ =>
  }

  lemma RowStepIsCoherent(s: State, t: State, id: JobId)
    requires RowsOk(s) && id in s.rows && RowStep(s, t, id) && s.now <= t.now
    ensures Coherent(t.rows[id], t.hist[id].requeues, t.now) && t.rows[id].id == id
    ensures t.rows[id].SameIdentity(s.rows[id])
  {
    var job, next, requeues := s.rows[id], t.rows[id], s.hist[id].requeues;
    assert Coherent(job, requeues, s.now);
    UpdatesAreCoherent(job, requeues, s.now, if next.error.Some? then next.error.value else "");
    LaterIsCoherent(next, t.hist[id].requeues, s.now, t.now);
  }

  lemma StepKeepsRows(s: State, a: Action)
    requires Safe(s) && Enabled(s, a)
    ensures RowsOk(Apply(s, a))
  {
    var t := Apply(s, a);
    StepKeys(s, a);
    hide Apply, Enabled;
    forall id | id in t.rows
      ensures t.rows[id].id == id && Coherent(t.rows[id], t.hist[id].requeues, t.now)
    {
      if id in s.rows {
        StepIsGuarded(s, a, id);
        RowStepIsCoherent(s, t, id);
      } else {
        NewIsCoherent(id, a.api.params, s.now);
      }
    }
  }

  lemma WorkIsOwned(s: State, x: WorkerId, a: WorkStep, w: WorkerId, id: JobId)
    requires Safe(s) && WorkEnabled(s, x, a) && Executes(ApplyWork(s, x, a), w, id)
    ensures id in s.rows && id in ApplyWork(s, x, a).rows
    ensures if Executes(s, w, id)
            then ApplyWork(s, x, a).rows[id] == s.rows[id]
            else x == w && a.MarkRunning? && s.rows[id].Startable() && ApplyWork(s, x, a).rows[id] == s.rows[id].Start(s.now)
  {
    if s.goroutines[x].pc.Executing? { assert Executes(s, x, s.goroutines[x].pc.id); }
    if x != w { assert Executes(s, w, id); }
  }

  lemma ApiIsOwned(s: State, a: ApiStep, w: WorkerId, id: JobId)
    requires Safe(s) && ApiEnabled(s, a) && Executes(s, w, id)
    ensures id in ApplyApi(s, a).rows && ApplyApi(s, a).rows[id] == s.rows[id]
  {
  }

  /** An execution begins with a granted MarkRunning, and while it lasts no other
      action touches the row. */
  lemma ExecutionIsOwned(s: State, a: Action, w: WorkerId, id: JobId)
    requires Safe(s) && Enabled(s, a) && Executes(Apply(s, a), w, id)
    ensures id in s.rows && id in Apply(s, a).rows
    ensures if Executes(s, w, id)
            then Apply(s, a).rows[id] == s.rows[id]
            else a == Work(w, MarkRunning) && s.rows[id].Startable() && Apply(s, a).rows[id] == s.rows[id].Start(s.now)
  {
    hide ApplyApi, ApplySched, ApplyWork, ApplyFault, ApiEnabled, SchedEnabled, WorkEnabled, FaultEnabled;
    match a
    case Api(api) => ApiFrame(s, api); assert Executes(s, w, id); ApiIsOwned(s, api, w, id);
    case Sched(step) => SchedFrame(s, step); assert Executes(s, w, id); SchedStepIsGuarded(s, step, id);
    case Work(x, work) => WorkIsOwned(s, x, work, w, id);
    case Broken(fault) => FaultFrame(s, fault); assert Executes(s, w, id); FaultStepIsGuarded(s, fault, id);
    case _ => assert Executes(s, w, id);
  }

  lemma StepKeepsExclusion(s: State, a: Action)
    requires Safe(s) && Enabled(s, a)
    ensures Exclusive(Apply(s, a))
  {
    var t := Apply(s, a);
    hide Apply, Enabled;
    forall w, id | Executes(t, w, id)
      ensures id in t.rows && t.rows[id].status.Running?
      ensures forall x :: Executes(t, x, id) ==> x == w
    {
      ExecutionIsOwned(s, a, w, id);
      forall x | Executes(t, x, id) ensures x == w { ExecutionIsOwned(s, a, x, id); }
    }
  }

  lemma StepKeepsSafe(s: State, a: Action)
    requires Safe(s) && Enabled(s, a)
    ensures Safe(Apply(s, a))
  {
    StepKeepsRows(s, a);
    StepKeepsExclusion(s, a);
  }

  /** Every state of every run, faults included, is safe. */
  lemma {:induction false} RunKeepsSafe(s: State, run: seq<Action>)
    requires Safe(s) && Exec(s, run).Some?
    ensures Safe(Exec(s, run).value)
    decreases |run|
  {
    hide Apply, Enabled;
    if run != [] {
      StepKeepsSafe(s, run[0]);
      RunKeepsSafe(Apply(s, run[0]), run[1..]);
    }
  }

  // ------------------------------------------------------- mutual exclusion

  /** From the start, through any faults: a job never has two executions at
      once, and while it is executed its row says so. Hence MarkCompleted and
      MarkFailed, guarded by id only, always meet a running row of their own. */
  lemma OneExecutionAtATime(s0: State, run: seq<Action>, w: WorkerId, x: WorkerId, id: JobId)
    requires Initial(s0) && Exec(s0, run).Some?
    requires Executes(Exec(s0, run).value, w, id)
    ensures var s := Exec(s0, run).value;
      && id in s.rows && s.rows[id].status.Running? && s.rows[id].id == id
      && (Executes(s, x, id) ==> x == w)
  {
    SafeInitially(s0);
    RunKeepsSafe(s0, run);
  }

  // ------------------------------------------------------ absorbing outcomes

  /** No statement can change a completed or cancelled row. */
  ghost predicate Closed(s: State, id: JobId) {
    id in s.rows && (s.rows[id].status.Completed? || s.rows[id].status.Cancelled?)
  }

  /** A row left running by a crashed goroutine. */
  ghost predicate Orphaned(s: State, id: JobId) {
    id in s.rows && s.rows[id].status.Running? && forall w :: !Executes(s, w, id)
  }

  /** Successful MarkRunning calls for the job along a run. */
  ghost function Runs(s: State, run: seq<Action>, id: JobId): nat
    decreases |run|
  {
    if run == [] || !Enabled(s, run[0]) then 0
    else (if GrantsRun(s, run[0], id) then 1 else 0) + Runs(Apply(s, run[0]), run[1..], id)
  }

  /** Successful manual retries of the job along a run. */
  ghost function ManualRetries(run: seq<Action>, id: JobId): nat {
    if run == [] then 0 else (if IsManualRetry(run[0], id) then 1 else 0) + ManualRetries(run[1..], id)
  }

  lemma StepKeepsClosed(s: State, a: Action, id: JobId)
    requires Safe(s) && Enabled(s, a) && Closed(s, id)
    ensures id in Apply(s, a).rows && Apply(s, a).rows[id] == s.rows[id] && !GrantsRun(s, a, id)
  {
    hide Apply, Enabled;
    StepIsGuarded(s, a, id);
  }

  /** Once completed, or once Cancel has succeeded, a row never changes again and
      the job is never granted another run, whatever ids Redis still holds. */
  lemma {:induction false} ClosedForever(s: State, run: seq<Action>, id: JobId)
    requires Safe(s) && Exec(s, run).Some? && Closed(s, id)
    ensures var t := Exec(s, run).value; id in t.rows && t.rows[id] == s.rows[id]
    ensures Runs(s, run, id) == 0
    decreases |run|
  {
    hide Apply, Enabled;
    if run != [] {
      StepKeepsSafe(s, run[0]);
      StepKeepsClosed(s, run[0], id);
      ClosedForever(Apply(s, run[0]), run[1..], id);
    }
  }

  lemma ApiKeepsOrphan(s: State, a: ApiStep, id: JobId)
    requires Safe(s) && ApiEnabled(s, a) && Orphaned(s, id)
    ensures id in ApplyApi(s, a).rows && ApplyApi(s, a).rows[id] == s.rows[id]
  {
  }

  lemma SchedKeepsOrphan(s: State, a: SchedStep, id: JobId)
    requires Safe(s) && SchedEnabled(s, a) && Orphaned(s, id)
    ensures id in ApplySched(s, a).rows && ApplySched(s, a).rows[id] == s.rows[id]
  {
    SchedFrame(s, a);
  }

  lemma WorkKeepsOrphan(s: State, w: WorkerId, a: WorkStep, id: JobId)
    requires Safe(s) && WorkEnabled(s, w, a) && Orphaned(s, id)
    ensures id in ApplyWork(s, w, a).rows && ApplyWork(s, w, a).rows[id] == s.rows[id]
  {
    assert !Executes(s, w, id);
  }

  lemma OrphanRowIsKept(s: State, a: Action, id: JobId)
    requires Safe(s) && Enabled(s, a) && Orphaned(s, id)
    ensures id in Apply(s, a).rows && Apply(s, a).rows[id] == s.rows[id]
  {
    hide ApplyApi, ApplySched, ApplyWork, ApplyFault, ApiEnabled, SchedEnabled, WorkEnabled, FaultEnabled;
    match a
    case Api(api) => ApiKeepsOrphan(s, api, id);
    case Sched(step) => SchedKeepsOrphan(s, step, id);
    case Work(w, work) => WorkKeepsOrphan(s, w, work, id);
    case Broken(fault) => FaultFrame(s, fault); FaultStepIsGuarded(s, fault, id);
    case _ =>
  }

  lemma StepKeepsOrphan(s: State, a: Action, id: JobId)
    requires Safe(s) && Enabled(s, a) && Orphaned(s, id)
    ensures Orphaned(Apply(s, a), id) && Apply(s, a).rows[id] == s.rows[id] && !GrantsRun(s, a, id)
  {
    hide Apply, Enabled;
    OrphanRowIsKept(s, a, id);
    StepIsGuarded(s, a, id);
    forall w | Executes(Apply(s, a), w, id) ensures false {
      ExecutionIsOwned(s, a, w, id);
    }
  }

  /** The other side of the same guards: nothing ever recovers a job whose
      goroutine died between MarkRunning and its outcome. */
  lemma {:induction false} OrphanedForever(s: State, run: seq<Action>, id: JobId)
    requires Safe(s) && Exec(s, run).Some? && Orphaned(s, id)
    ensures var t := Exec(s, run).value; id in t.rows && t.rows[id] == s.rows[id]
    ensures Runs(s, run, id) == 0
    decreases |run|
  {
    hide Apply, Enabled;
    if run != [] {
      StepKeepsSafe(s, run[0]);
      StepKeepsOrphan(s, run[0], id);
      OrphanedForever(Apply(s, run[0]), run[1..], id);
    }
  }

  /** The goroutine executing the job dies; or, while the worker process stays
      alive, MarkRunning takes effect but its answer is lost, or the database does
      not run the statement that would record the outcome. */
  ghost predicate Orphans(s: State, a: Action, id: JobId) {
    || (a.Broken? && a.fault.LoseGrant? && FaultEnabled(s, a.fault) && s.goroutines[a.fault.w].pc.id == id)
    || exists w :: Executes(s, w, id)
         && (a == Broken(CrashGoroutine(w)) || a == Broken(LoseCompletion(w)) || a == Broken(LoseFailure(w)))
  }

  lemma OrphaningOrphans(s: State, a: Action, id: JobId)
    requires Safe(s) && Enabled(s, a) && Orphans(s, a, id)
    ensures Orphaned(Apply(s, a), id)
  {
    hide RowsOk;
    FaultFrame(s, a.fault);
    forall x ensures Executes(Apply(s, a), x, id) ==> Executes(s, x, id) { }
  }

  /** A running row keeps its goroutine unless the step ends or orphans the run. */
  lemma RunnerStays(s: State, a: Action, w: WorkerId, id: JobId)
    requires Safe(s) && Enabled(s, a) && Executes(s, w, id) && !Orphans(s, a, id)
    ensures Executes(Apply(s, a), w, id) || (id in Apply(s, a).rows && !Apply(s, a).rows[id].status.Running?)
  {
    hide ApplyApi, ApplySched, ApplyWork, Effect, ApiEnabled, SchedEnabled, RowsOk;
    match a
    case Api(api) => ApiFrame(s, api);
    case Sched(step) => SchedFrame(s, step);
    case Work(x, work) => WorkFrame(s, x, work); EffectRows(s, x, work) by { RunningRows(s, x); }
    case _ =>
  }

  lemma RunningRows(s: State, w: WorkerId)
    requires Exclusive(s) && w in s.goroutines
    ensures s.goroutines[w].pc.Executing? ==> s.goroutines[w].pc.id in s.rows
  {
    if s.goroutines[w].pc.Executing? { assert Executes(s, w, s.goroutines[w].pc.id); }
  }

  /** The only causes: a row becomes orphaned exactly when the goroutine executing
      it dies or its outcome cannot be recorded. */
  lemma OrphanedIff(s: State, a: Action, id: JobId)
    requires Safe(s) && Enabled(s, a)
    ensures Orphaned(Apply(s, a), id) <==> Orphaned(s, id) || Orphans(s, a, id)
  {
    hide Apply, Enabled, Orphans, RowsOk;
    if Orphaned(s, id) {
      StepKeepsOrphan(s, a, id);
    } else if Orphans(s, a, id) {
      OrphaningOrphans(s, a, id);
    } else if Orphaned(Apply(s, a), id) {
      StepKeys(s, a);
      if w :| Executes(s, w, id) {
        RunnerStays(s, a, w, id);
      } else {
        NoRunnerStartsAlone(s, a, id);
      }
    }
  }

  /** A row starts running together with an execution. */
  lemma NoRunnerStartsAlone(s: State, a: Action, id: JobId)
    requires Safe(s) && Enabled(s, a) && (id in s.rows ==> !s.rows[id].status.Running?)
    requires id in Apply(s, a).rows && Apply(s, a).rows[id].status.Running? && !Orphans(s, a, id)
    ensures exists w :: Executes(Apply(s, a), w, id)
  {
    StepKeys(s, a);
    hide Apply, RowsOk;
    if id in s.rows {
      StepIsGuarded(s, a, id);
      assert GrantsRun(s, a, id);
      GrantExecutes(s, a.w, id);
    }
  }

  lemma GrantExecutes(s: State, w: WorkerId, id: JobId)
    requires GrantsRun(s, Work(w, MarkRunning), id)
    ensures Executes(ApplyWork(s, w, MarkRunning), w, id)
  {
  }

  /** Some step of the run orphans the job. */
  ghost predicate OrphanedAlong(s: State, run: seq<Action>, id: JobId)
    decreases |run|
  {
    run != [] && Enabled(s, run[0]) && (Orphans(s, run[0], id) || OrphanedAlong(Apply(s, run[0]), run[1..], id))
  }

  /** A row runs without a goroutine after a run exactly when one of its steps
      orphaned it: every other running row still has the goroutine that will end it. */
  lemma {:induction false} OrphanedAlongIff(s: State, run: seq<Action>, id: JobId)
    requires Safe(s) && Exec(s, run).Some?
    ensures Orphaned(Exec(s, run).value, id) <==> Orphaned(s, id) || OrphanedAlong(s, run, id)
    decreases |run|
  {
    hide Apply, Enabled, Orphans, Orphaned;
    if run != [] {
      StepKeepsSafe(s, run[0]);
      OrphanedIff(s, run[0], id);
      OrphanedAlongIff(Apply(s, run[0]), run[1..], id);
    }
  }

  // ------------------------------------------------------------ ownership

  /** Exactly when the calls of a user succeed, in the columns of the row. */
  lemma CallsAreGuarded(s: State, call: CallId, id: JobId, user: UserId)
    ensures Enabled(s, Api(Cancel(id, user))) <==>
      id in s.rows && s.rows[id].owner == user && s.rows[id].status in {Queued, Scheduled, Retrying}
    ensures Enabled(s, Api(Requeue(call, id, user))) <==>
      call !in s.calls && id in s.rows && s.rows[id].owner == user && s.rows[id].status in {Failed, DeadLetter}
  {
  }

  /** A call of a user changes rows of that user only. */
  lemma UsersKeepToTheirRows(s: State, a: Action, user: UserId, id: JobId)
    requires Enabled(s, a) && a.Api? && ((a.api.Cancel? && a.api.user == user) || (a.api.Requeue? && a.api.user == user))
    requires id in s.rows && s.rows[id].owner != user
    ensures id in Apply(s, a).rows && Apply(s, a).rows[id] == s.rows[id]
  {
  }

  /** The run has a call of this user that cancels the job. */
  predicate CancelledBy(run: seq<Action>, id: JobId, user: UserId) {
    run != [] && (run[0] == Api(Cancel(id, user)) || CancelledBy(run[1..], id, user))
  }

  predicate IsCancelled(s: State, id: JobId) { id in s.rows && s.rows[id].status == Cancelled }

  lemma ApiCancels(s: State, a: ApiStep, id: JobId)
    requires Safe(s) && ApiEnabled(s, a) && id in ApplyApi(s, a).rows
    ensures IsCancelled(ApplyApi(s, a), id) <==> IsCancelled(s, id) || a == Cancel(id, ApplyApi(s, a).rows[id].owner)
  {
    if id in s.rows { assert Coherent(s.rows[id], s.hist[id].requeues, s.now); }
  }

  lemma WorkDoesNotCancel(s: State, w: WorkerId, a: WorkStep, id: JobId)
    requires Safe(s) && WorkEnabled(s, w, a) && id in s.rows
    ensures IsCancelled(ApplyWork(s, w, a), id) <==> IsCancelled(s, id)
  {
    hide ApplyWork, Effect, NextPc, Coherent;
    if s.goroutines[w].pc.Executing? { assert Executes(s, w, s.goroutines[w].pc.id); }
    EffectRows(s, w, a);
  }

  lemma SchedDoesNotCancel(s: State, a: SchedStep, id: JobId)
    requires SchedEnabled(s, a) && id in s.rows
    ensures IsCancelled(ApplySched(s, a), id) <==> IsCancelled(s, id)
  {
    SchedFrame(s, a);
  }

  lemma OthersDoNotCancel(s: State, a: Action, id: JobId)
    requires Safe(s) && Enabled(s, a) && !a.Api? && id in Apply(s, a).rows
    ensures IsCancelled(Apply(s, a), id) <==> IsCancelled(s, id)
  {
    hide ApplyApi, ApplySched, ApplyWork, ApplyFault, ApiEnabled, SchedEnabled, WorkEnabled, FaultEnabled, Safe, IsCancelled;
    StepKeys(s, a);
    match a
    case Work(w, work) => WorkDoesNotCancel(s, w, work, id);
    case Sched(step) => SchedDoesNotCancel(s, step, id);
    case Broken(fault) => FaultDoesNotCancel(s, fault, id);
    case Tick(d) => SameRowsCancelled(s, Apply(s, a), id);
    case Heartbeat(pool) => SameRowsCancelled(s, Apply(s, a), id);
    case Api(api) =>
  }

  lemma FaultDoesNotCancel(s: State, a: Fault, id: JobId)
    requires FaultEnabled(s, a)
    ensures IsCancelled(ApplyFault(s, a), id) <==> IsCancelled(s, id)
  {
    FaultFrame(s, a);
  }

  lemma SameRowsCancelled(s: State, t: State, id: JobId)
    requires t.rows == s.rows
    ensures IsCancelled(t, id) <==> IsCancelled(s, id)
  {
  }

  lemma OwnerIsKept(s: State, a: Action, id: JobId)
    requires Safe(s) && Enabled(s, a) && id in s.rows
    ensures id in Apply(s, a).rows && Apply(s, a).rows[id].owner == s.rows[id].owner
  {
    hide Apply, Enabled;
    StepIsGuarded(s, a, id);
    StepKeys(s, a);
    RowStepIsCoherent(s, Apply(s, a), id);
  }

  lemma {:induction false} CancelledAlong(s: State, run: seq<Action>, id: JobId)
    requires Safe(s) && Exec(s, run).Some? && id in Exec(s, run).value.rows
    ensures IsCancelled(Exec(s, run).value, id) <==>
      IsCancelled(s, id) || CancelledBy(run, id, Exec(s, run).value.rows[id].owner)
    ensures id in s.rows ==> s.rows[id].owner == Exec(s, run).value.rows[id].owner
    decreases |run|
  {
    hide Apply, Enabled, IsCancelled, Coherent;
    if run != [] {
      var t := Apply(s, run[0]);
      StepKeepsSafe(s, run[0]);
      CancelledAlong(t, run[1..], id);
      if id in s.rows { OwnerIsKept(s, run[0], id); }
      if id in t.rows { OneCancels(s, run[0], id); } else { NotYetCancelled(s, run[0], t, id); }
    }
  }

  lemma OneCancels(s: State, a: Action, id: JobId)
    requires Safe(s) && Enabled(s, a) && id in Apply(s, a).rows
    ensures IsCancelled(Apply(s, a), id) <==> IsCancelled(s, id) || a == Api(Cancel(id, Apply(s, a).rows[id].owner))
  {
    hide ApplyApi, ApiEnabled, IsCancelled;
    if a.Api? { ApiCancels(s, a.api, id); } else { OthersDoNotCancel(s, a, id); }
  }

  lemma NotYetCancelled(s: State, a: Action, t: State, id: JobId)
    requires Enabled(s, a) && t == Apply(s, a) && id !in t.rows
    ensures !IsCancelled(s, id) && !IsCancelled(t, id) && !(a.Api? && a.api.Cancel? && a.api.id == id)
  {
    StepKeys(s, a);
  }

  /** Over every run, faults included: a job is cancelled exactly when its own owner
      made a successful Cancel. */
  lemma CancelledIff(s0: State, run: seq<Action>, id: JobId)
    requires Initial(s0) && Exec(s0, run).Some? && id in Exec(s0, run).value.rows
    ensures var job := Exec(s0, run).value.rows[id];
      job.status == Cancelled <==> CancelledBy(run, id, job.owner)
  {
    SafeInitially(s0);
    CancelledAlong(s0, run, id);
  }

  // -------------------------------------------------------------- attempts

  lemma {:induction false} RunCounts(s: State, run: seq<Action>, id: JobId)
    requires Safe(s) && Exec(s, run).Some? && id in s.rows
    ensures var t := Exec(s, run).value;
      && id in t.rows && id in t.hist
      && t.rows[id].attempts == s.rows[id].attempts + Runs(s, run, id)
      && t.hist[id].requeues == s.hist[id].requeues + ManualRetries(run, id)
      && t.rows[id].SameIdentity(s.rows[id])
    decreases |run|
  {
    hide Apply, Enabled;
    if run != [] {
      StepKeepsSafe(s, run[0]);
      StepIsGuarded(s, run[0], id);
      StepKeys(s, run[0]);
      RowStepIsCoherent(s, Apply(s, run[0]), id);
      RunCounts(Apply(s, run[0]), run[1..], id);
    }
  }

  lemma {:induction false} NoCountsBeforeCreate(s: State, run: seq<Action>, id: JobId)
    requires Safe(s) && Exec(s, run).Some? && id !in s.rows
    ensures var t := Exec(s, run).value;
      id in t.rows ==> && id in t.hist
                       && t.rows[id].attempts == Runs(s, run, id)
                       && t.hist[id].requeues == ManualRetries(run, id)
    decreases |run|
  {
    hide Apply, Coherent, SchedEnabled;
    if run != [] {
      var t := Apply(s, run[0]);
      StepKeepsSafe(s, run[0]);
      StepKeys(s, run[0]);
      if id in t.rows {
        RunCounts(t, run[1..], id);
      } else {
        NoCountsBeforeCreate(t, run[1..], id);
      }
    }
  }

  /** Attempt accounting over every run: the attempts column counts the granted
      runs, at most max(1, max_attempts) of them plus one per manual retry; a
      retrying job has attempts left, a dead one has none; and after a manual
      retry a job never becomes retrying again. */
  lemma AttemptAccounting(s0: State, run: seq<Action>, id: JobId)
    requires Initial(s0) && Exec(s0, run).Some? && id in Exec(s0, run).value.rows
    ensures var job := Exec(s0, run).value.rows[id];
      && job.attempts == Runs(s0, run, id)
      && Runs(s0, run, id) <= Max(1, job.maxAttempts) + ManualRetries(run, id)
      && (job.status.Retrying? ==> 1 <= job.attempts < job.maxAttempts && ManualRetries(run, id) == 0)
      && (job.status.DeadLetter? ==> job.attempts >= job.maxAttempts)
      && !job.status.Failed?
  {
    SafeInitially(s0);
    RunKeepsSafe(s0, run);
    NoCountsBeforeCreate(s0, run, id);
    var s := Exec(s0, run).value;
    assert Coherent(s.rows[id], s.hist[id].requeues, s.now);
  }

  lemma StepAfterRetry(s: State, a: Action, id: JobId)
    requires Safe(s) && Enabled(s, a) && id in s.rows && s.hist[id].requeues > 0 && !IsManualRetry(a, id)
    ensures id in Apply(s, a).rows && id in Apply(s, a).hist && Apply(s, a).hist[id].requeues > 0
    ensures (if GrantsRun(s, a, id) then 1 else 0) + (if Apply(s, a).rows[id].status.Queued? then 1 else 0)
         <= (if s.rows[id].status.Queued? then 1 else 0)
  {
    hide Apply, Enabled;
    StepIsGuarded(s, a, id);
    assert Coherent(s.rows[id], s.hist[id].requeues, s.now);
  }

  /** After a manual retry a job runs at most once more, until the next one. */
  lemma {:induction false} OneRunPerManualRetry(s: State, run: seq<Action>, id: JobId)
    requires Safe(s) && Exec(s, run).Some? && id in s.rows && s.hist[id].requeues > 0 && ManualRetries(run, id) == 0
    ensures Runs(s, run, id) <= (if s.rows[id].status.Queued? then 1 else 0)
    decreases |run|
  {
    hide Apply, Enabled, GrantsRun;
    if run != [] {
      StepKeepsSafe(s, run[0]);
      StepAfterRetry(s, run[0], id);
      OneRunPerManualRetry(Apply(s, run[0]), run[1..], id);
    }
  }

  // ------------------------------------------------------ bound on changes

  /** Status changes of the job along a run. */
  ghost function StatusChanges(s: State, run: seq<Action>, id: JobId): nat
    decreases |run|
  {
    if run == [] || !Enabled(s, run[0]) then 0
    else
      var t := Apply(s, run[0]);
      (if id in s.rows && id in t.rows && s.rows[id].status != t.rows[id].status then 1 else 0)
      + StatusChanges(t, run[1..], id)
  }

  lemma StepUsesUp(s: State, a: Action, id: JobId)
    requires Safe(s) && Enabled(s, a) && id in s.rows && !IsManualRetry(a, id)
    ensures id in Apply(s, a).rows
    ensures StepsLeft(Apply(s, a).rows[id]) + (if Apply(s, a).rows[id].status != s.rows[id].status then 1 else 0)
         <= StepsLeft(s.rows[id])
  {
    hide Apply, Enabled;
    StepIsGuarded(s, a, id);
    assert Coherent(s.rows[id], s.hist[id].requeues, s.now);
  }

  /** Between manual retries the status of a job changes at most
      2 * max(1, max_attempts) + 1 times, through any faults. */
  lemma {:induction false} ChangesAreBounded(s: State, run: seq<Action>, id: JobId)
    requires Safe(s) && Exec(s, run).Some? && id in s.rows && ManualRetries(run, id) == 0
    ensures id in Exec(s, run).value.rows
    ensures StatusChanges(s, run, id) + StepsLeft(Exec(s, run).value.rows[id]) <= StepsLeft(s.rows[id])
    ensures StepsLeft(s.rows[id]) <= 2 * Max(1, s.rows[id].maxAttempts) + 1
    decreases |run|
  {
    hide Apply, Enabled;
    assert Coherent(s.rows[id], s.hist[id].requeues, s.now);
    if run != [] {
      StepKeepsSafe(s, run[0]);
      StepUsesUp(s, run[0], id);
      ChangesAreBounded(Apply(s, run[0]), run[1..], id);
    }
  }

  // ------------------------------------------------------ field coherence

  /** Every row of every reachable state: which columns are set in which status,
      and no job started before its scheduled time. */
  lemma ReachableRowsAreCoherent(s0: State, run: seq<Action>, id: JobId)
    requires Initial(s0) && Exec(s0, run).Some? && id in Exec(s0, run).value.rows
    ensures var s := Exec(s0, run).value; var job := s.rows[id];
      && (job.completedAt.Some? <==> job.status.Completed?)
      && (job.startedAt.Some? <==> job.attempts > 0)
      && (job.status.Retrying? || job.status.DeadLetter? ==> job.error.Some?)
      && (job.error.Some? ==> job.attempts >= 1 && job.status in {Retrying, DeadLetter, Running, Cancelled})
      && (job.scheduledAt.Some? && !job.status.Scheduled? && !job.status.Cancelled? ==> job.scheduledAt.value <= s.now)
      && (job.scheduledAt.Some? && job.startedAt.Some? ==> job.scheduledAt.value <= job.startedAt.value)
  {
    SafeInitially(s0);
    RunKeepsSafe(s0, run);
    var s := Exec(s0, run).value;
    assert Coherent(s.rows[id], s.hist[id].requeues, s.now);
  }
}
