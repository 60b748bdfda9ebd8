/** Conservation laws of fault-free runs: the dead-letter list against manual
    retries, and the counters of the workers table against the jobs table. */
module Accounting {
  import opened Sums
  import opened Jobs
  import opened Protocol
  import opened DatabaseSafety

  // ------------------------------------------------------ dead-letter list

  function BuriesPc(pc: Pc, id: JobId): nat {
    match pc
    case CountingFailed(job) => if job.id == id && !job.status.Retrying? then 1 else 0
    case Burying(job) => if job.id == id then 1 else 0
    case _ => 0
  }

  /** Goroutines about to push the job to the dead-letter list. */
  function Buries(id: JobId): Goroutine -> nat { (g: Goroutine) => BuriesPc(g.pc, id) }

  function IsDead(s: State, id: JobId): nat {
    if id in s.rows && s.rows[id].status.DeadLetter? then 1 else 0
  }

  ghost predicate DeadLettersOk(s: State, id: JobId) {
    multiset(s.redis.dead)[id] + Sum(s.goroutines, Buries(id)) == Requeues(s, id) + IsDead(s, id)
  }

  lemma ApiKeepsDead(s: State, a: ApiStep, id: JobId)
    requires Safe(s) && ApiEnabled(s, a) && DeadLettersOk(s, id)
    ensures DeadLettersOk(ApplyApi(s, a), id)
  {
    ApiFrame(s, a);
    assert id in s.rows ==> Coherent(s.rows[id], s.hist[id].requeues, s.now);
    hide Safe;
  }

  lemma SchedKeepsDead(s: State, a: SchedStep, id: JobId)
    requires SchedEnabled(s, a) && DeadLettersOk(s, id)
    ensures DeadLettersOk(ApplySched(s, a), id)
  {
    SchedFrame(s, a);
  }

  /** The columns and lists the laws are about, after a step of a goroutine. */
  lemma WorkLedger(s: State, w: WorkerId, a: WorkStep)
    requires Safe(s) && WorkEnabled(s, w, a)
    ensures var t := ApplyWork(s, w, a); var pc := s.goroutines[w].pc;
      && (pc.Executing? ==> pc.id in s.rows && s.rows[pc.id].status.Running? && s.rows[pc.id].id == pc.id)
      && t.redis.dead == (if a.Bury? then [pc.job.id] + s.redis.dead else s.redis.dead)
      && t.rows == (if a.MarkRunning? && Grants(s, pc.id) then s.rows[pc.id := s.rows[pc.id].Start(s.now)]
                    else if a.MarkCompleted? then s.rows[pc.id := s.rows[pc.id].Complete(s.now)]
                    else if a.MarkFailed? then s.rows[pc.id := s.rows[pc.id].Fail(a.message)]
                    else s.rows)
    ensures forall id :: Requeues(ApplyWork(s, w, a), id) == Requeues(s, id)
  {
    hide ApplyWork, Effect, Coherent, Requeues;
    if s.goroutines[w].pc.Executing? { assert Executes(s, w, s.goroutines[w].pc.id); }
    EffectRows(s, w, a);
    WorkOnDead(s, w, a);
  }

  lemma WorkOnDead(s: State, w: WorkerId, a: WorkStep)
    requires WorkEnabled(s, w, a)
    ensures ApplyWork(s, w, a).redis.dead == if a.Bury? then [s.goroutines[w].pc.job.id] + s.redis.dead else s.redis.dead
    ensures forall id :: Requeues(ApplyWork(s, w, a), id) == Requeues(s, id)
  {
    hide IncrementProcessed, NextPc, Grants;
    if a.Count? { IncrementFrame(s, s.goroutines[w].pool, s.goroutines[w].pc.CountingDone?); }
  }

  lemma WorkKeepsDead(s: State, w: WorkerId, a: WorkStep, id: JobId)
    requires Safe(s) && WorkEnabled(s, w, a) && DeadLettersOk(s, id)
    ensures DeadLettersOk(ApplyWork(s, w, a), id)
  {
    hide ApplyWork, Effect, Safe, Requeues;
    var t := ApplyWork(s, w, a);
    WorkFrame(s, w, a);
    WorkLedger(s, w, a);
    SumUpdate(s.goroutines, w, t.goroutines[w], Buries(id));
    if a.Bury? {
      assert multiset(t.redis.dead) == multiset{s.goroutines[w].pc.job.id} + multiset(s.redis.dead);
    }
  }

  lemma StepKeepsDead(s: State, a: Action, id: JobId)
    requires Safe(s) && Enabled(s, a) && Regular(a) && DeadLettersOk(s, id)
    ensures DeadLettersOk(Apply(s, a), id)
  {
    hide ApplyApi, ApplySched, ApplyWork, ApiEnabled, SchedEnabled, WorkEnabled, Safe;
    match a
    case Api(api) => ApiKeepsDead(s, api, id);
    case Sched(step) => SchedKeepsDead(s, step, id);
    case Work(w, work) => WorkKeepsDead(s, w, work, id);
    case _ =>
  }

  lemma {:induction false} RunKeepsDead(s: State, run: seq<Action>, id: JobId)
    requires Safe(s) && AllRegular(run) && Exec(s, run).Some? && DeadLettersOk(s, id)
    ensures DeadLettersOk(Exec(s, run).value, id)
    decreases |run|
  {
    hide Apply, Enabled, Safe, DeadLettersOk;
    if run != [] {
      assert Regular(run[0]) && AllRegular(run[1..]);
      StepKeepsSafe(s, run[0]);
      StepKeepsDead(s, run[0], id);
      RunKeepsDead(Apply(s, run[0]), run[1..], id);
    }
  }

  /** Dead-letter conservation: the entries of a job in the dead-letter list,
      plus those still to be pushed, are its manual retries, plus one if the job
      is dead now. */
  lemma DeadLetterConservation(s0: State, run: seq<Action>, id: JobId)
    requires Initial(s0) && AllRegular(run) && Exec(s0, run).Some?
    ensures var s := Exec(s0, run).value;
      multiset(s.redis.dead)[id] + Sum(s.goroutines, Buries(id)) == ManualRetries(run, id) + IsDead(s, id)
  {
    SafeInitially(s0);
    SumZero(s0.goroutines, Buries(id));
    RunKeepsDead(s0, run, id);
    NoCountsBeforeCreate(s0, run, id);
    if id !in Exec(s0, run).value.rows { NeverRetried(s0, run, id); }
    RunKeepsSafe(s0, run);
  }

  lemma {:induction false} NeverRetried(s: State, run: seq<Action>, id: JobId)
    requires Safe(s) && Exec(s, run).Some? && id !in Exec(s, run).value.rows
    ensures id !in s.rows && ManualRetries(run, id) == 0
    decreases |run|
  {
    if run != [] {
      StepKeepsSafe(s, run[0]);
      StepKeys(s, run[0]);
      NeverRetried(Apply(s, run[0]), run[1..], id);
    }
  }

  // ------------------------------------------------------- fleet counters

  function Attempts(): Job -> nat { (job: Job) => job.attempts }
  function Successes(): Job -> nat { (job: Job) => if job.status.Completed? then 1 else 0 }
  function Processed(): Tally -> nat { (t: Tally) => t.processed }
  function Outcomes(): Tally -> nat { (t: Tally) => t.processed + t.failed }

  /** Goroutines between MarkRunning and the increment of a counter. */
  function InFlight(): Goroutine -> nat {
    (g: Goroutine) => if g.pc.Executing? || g.pc.CountingDone? || g.pc.CountingFailed? then 1 else 0
  }

  function Uncounted(): Goroutine -> nat { (g: Goroutine) => if g.pc.CountingDone? then 1 else 0 }

  ghost predicate FleetOk(s: State) {
    && Sum(s.rows, Attempts())
         == Sum(s.tallies, Outcomes()) + s.missedDone + s.missedFailed + Sum(s.goroutines, InFlight())
    && Sum(s.rows, Successes())
         == Sum(s.tallies, Processed()) + s.missedDone + Sum(s.goroutines, Uncounted())
  }

  lemma ApiKeepsFleet(s: State, a: ApiStep)
    requires Safe(s) && ApiEnabled(s, a) && FleetOk(s)
    ensures FleetOk(ApplyApi(s, a))
  {
    hide Safe;
    ApiFrame(s, a);
    var t := ApplyApi(s, a);
    if !a.Push? {
      SumUpdate(s.rows, a.id, t.rows[a.id], Attempts());
      SumUpdate(s.rows, a.id, t.rows[a.id], Successes());
      assert t.rows == s.rows[a.id := t.rows[a.id]];
    }
  }

  lemma SchedKeepsFleet(s: State, a: SchedStep)
    requires SchedEnabled(s, a) && FleetOk(s)
    ensures FleetOk(ApplySched(s, a))
  {
    SchedFrame(s, a);
    var t := ApplySched(s, a);
    if a.Scan? {
      SumSame(s.rows, t.rows, Attempts());
      SumSame(s.rows, t.rows, Successes());
    }
  }

  lemma WorkCounters(s: State, w: WorkerId, a: WorkStep)
    requires WorkEnabled(s, w, a)
    ensures var t := ApplyWork(s, w, a); var g := s.goroutines[w]; var ok := g.pc.CountingDone?;
      && t.tallies == (if a.Count? && g.pool in s.tallies then s.tallies[g.pool := Bump(s.tallies[g.pool], ok)] else s.tallies)
      && t.missedDone == s.missedDone + (if a.Count? && g.pool !in s.tallies && ok then 1 else 0)
      && t.missedFailed == s.missedFailed + (if a.Count? && g.pool !in s.tallies && !ok then 1 else 0)
  {
    hide Grants, IsMin, ZRem, NextPc, Members;
  }

  lemma WorkRowSums(s: State, w: WorkerId, a: WorkStep)
    requires Safe(s) && WorkEnabled(s, w, a)
    ensures var t := ApplyWork(s, w, a); var pc := s.goroutines[w].pc;
      && Sum(t.rows, Attempts()) == Sum(s.rows, Attempts()) + (if a.MarkRunning? && Grants(s, pc.id) then 1 else 0)
      && Sum(t.rows, Successes()) == Sum(s.rows, Successes()) + (if a.MarkCompleted? then 1 else 0)
      && (pc.Executing? ==> pc.id in s.rows)
  {
    hide ApplyWork, Effect, NextPc;
    var t, pc := ApplyWork(s, w, a), s.goroutines[w].pc;
    WorkLedger(s, w, a);
    hide Safe;
    if a.MarkRunning? || a.MarkCompleted? || a.MarkFailed? {
      if pc.id in s.rows {
        SumUpdate(s.rows, pc.id, t.rows[pc.id], Attempts());
        SumUpdate(s.rows, pc.id, t.rows[pc.id], Successes());
        assert t.rows == s.rows[pc.id := t.rows[pc.id]];
      }
    }
  }

  lemma WorkGoroutineSums(s: State, w: WorkerId, a: WorkStep)
    requires WorkEnabled(s, w, a) && (s.goroutines[w].pc.Executing? ==> s.goroutines[w].pc.id in s.rows)
    ensures var t := ApplyWork(s, w, a); var pc := s.goroutines[w].pc;
      && Sum(t.goroutines, InFlight()) + (if a.Count? then 1 else 0)
           == Sum(s.goroutines, InFlight()) + (if a.MarkRunning? && Grants(s, pc.id) then 1 else 0)
      && Sum(t.goroutines, Uncounted()) + (if a.Count? && pc.CountingDone? then 1 else 0)
           == Sum(s.goroutines, Uncounted()) + (if a.MarkCompleted? then 1 else 0)
  {
    hide ApplyWork, Effect, Grants;
    var t := ApplyWork(s, w, a);
    WorkFrame(s, w, a);
    SumUpdate(s.goroutines, w, t.goroutines[w], InFlight());
    SumUpdate(s.goroutines, w, t.goroutines[w], Uncounted());
  }

  lemma WorkTallySums(s: State, w: WorkerId, a: WorkStep)
    requires WorkEnabled(s, w, a)
    ensures var t := ApplyWork(s, w, a);
      && Sum(t.tallies, Outcomes()) + t.missedDone + t.missedFailed
           == Sum(s.tallies, Outcomes()) + s.missedDone + s.missedFailed + (if a.Count? then 1 else 0)
      && Sum(t.tallies, Processed()) + t.missedDone
           == Sum(s.tallies, Processed()) + s.missedDone + (if a.Count? && s.goroutines[w].pc.CountingDone? then 1 else 0)
  {
    hide ApplyWork;
    var t, g := ApplyWork(s, w, a), s.goroutines[w];
    WorkCounters(s, w, a);
    if a.Count? && g.pool in s.tallies {
      SumUpdate(s.tallies, g.pool, t.tallies[g.pool], Processed());
      SumUpdate(s.tallies, g.pool, t.tallies[g.pool], Outcomes());
    }
  }

  lemma WorkKeepsFleet(s: State, w: WorkerId, a: WorkStep)
    requires Safe(s) && WorkEnabled(s, w, a) && FleetOk(s)
    ensures FleetOk(ApplyWork(s, w, a))
  {
    hide ApplyWork, WorkEnabled, Safe, Sum, Grants;
    WorkRowSums(s, w, a);
    WorkGoroutineSums(s, w, a);
    WorkTallySums(s, w, a);
  }

  lemma StepKeepsFleet(s: State, a: Action)
    requires Safe(s) && Enabled(s, a) && Regular(a) && FleetOk(s)
    ensures FleetOk(Apply(s, a))
  {
    hide ApplyApi, ApplySched, ApplyWork, ApiEnabled, SchedEnabled, WorkEnabled, Safe;
    match a
    case Api(api) => ApiKeepsFleet(s, api);
    case Sched(step) => SchedKeepsFleet(s, step);
    case Work(w, work) => WorkKeepsFleet(s, w, work);
    case Heartbeat(pool) =>
      SumUpdate(s.tallies, pool, Tally(0, 0), Processed());
      SumUpdate(s.tallies, pool, Tally(0, 0), Outcomes());
    case _ =>
  }

  lemma {:induction false} RunKeepsFleet(s: State, run: seq<Action>)
    requires Safe(s) && AllRegular(run) && Exec(s, run).Some? && FleetOk(s)
    ensures FleetOk(Exec(s, run).value)
    decreases |run|
  {
    hide Apply, Enabled, Safe, FleetOk;
    if run != [] {
      assert Regular(run[0]) && AllRegular(run[1..]);
      StepKeepsSafe(s, run[0]);
      StepKeepsFleet(s, run[0]);
      RunKeepsFleet(Apply(s, run[0]), run[1..]);
    }
  }

  /** Fleet conservation: attempts over all jobs are the outcomes counted by the
      workers table, plus those in flight, plus the increments that met no row of
      that table; completed jobs likewise are the successes. */
  lemma FleetConservation(s0: State, run: seq<Action>)
    requires Initial(s0) && AllRegular(run) && Exec(s0, run).Some?
    ensures FleetOk(Exec(s0, run).value)
  {
    SafeInitially(s0);
    SumZero(s0.rows, Attempts());
    SumZero(s0.rows, Successes());
    SumZero(s0.tallies, Outcomes());
    SumZero(s0.tallies, Processed());
    SumZero(s0.goroutines, InFlight());
    SumZero(s0.goroutines, Uncounted());
    RunKeepsFleet(s0, run);
  }

  /** Every pool has registered itself by a heartbeat. */
  ghost predicate Registered(s: State) {
    forall w :: w in s.goroutines ==> s.goroutines[w].pool in s.tallies
  }

  /** Registered pools miss no increment. */
  lemma {:induction false} RegisteredPoolsMissNothing(s: State, run: seq<Action>)
    requires Registered(s) && AllRegular(run) && Exec(s, run).Some?
    ensures var t := Exec(s, run).value;
      Registered(t) && t.missedDone == s.missedDone && t.missedFailed == s.missedFailed
    decreases |run|
  {
    hide Enabled, Apply;
    if run != [] {
      assert Regular(run[0]) && AllRegular(run[1..]);
      StepKeepsRegistered(s, run[0]);
      RegisteredPoolsMissNothing(Apply(s, run[0]), run[1..]);
    }
  }

  lemma StepKeepsRegistered(s: State, a: Action)
    requires Registered(s) && Enabled(s, a) && Regular(a)
    ensures Registered(Apply(s, a))
    ensures Apply(s, a).missedDone == s.missedDone && Apply(s, a).missedFailed == s.missedFailed
  {
    hide ApplyApi, ApplySched, ApplyWork, ApiEnabled, SchedEnabled;
    match a
    case Api(api) => ApiFrame(s, api);
    case Sched(step) => SchedFrame(s, step);
    case Work(w, work) => WorkFrame(s, w, work); WorkCounters(s, w, work);
    case _ =>
  }
}
