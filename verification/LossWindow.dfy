/** Fault-free runs: when a job keeps its token, when it loses it, and why it
    never does while each retry is fetched, enqueued and removed in one go. */
module LossWindow {
  import opened Prelude
  import opened Sums
  import opened Timing
  import opened Jobs
  import opened Protocol
  import opened DatabaseSafety
  import opened Tokens
  import opened TokenPlaces

  // ------------------------------------------------- any fault-free run

  /** In every fault-free run with one scheduler, a queued or running job has
      exactly one live token; a retrying one has exactly one, unless and only
      unless its rewritten retry entry was removed; a job that is scheduled,
      completed or dead has none. */
  lemma TokenUnlessLost(s0: State, run: seq<Action>, id: JobId)
    requires Initial(s0) && AllRegular(run) && Exec(s0, run).Some? && id in Exec(s0, run).value.rows
    ensures var s := Exec(s0, run).value; var status := s.rows[id].status;
      && (status.Queued? || status.Running? ==> Live(s, id) == 1)
      && (status.Retrying? ==> Live(s, id) <= 1 && (Live(s, id) == 0 <==> id in s.lost))
      && (status.Scheduled? || status.Completed? || status.DeadLetter? ==> Live(s, id) == 0)
      && (status.Cancelled? ==> Live(s, id) <= 1)
  {
    TokensInitially(s0);
    RunKeepsTokens(s0, run);
    assert LiveOk(Exec(s0, run).value, id);
  }

  /** `lost` grows by one action only: the ZREM of an iteration that finds the entry
      rewritten since that iteration enqueued the job. */
  lemma LostOnlyByRemoval(s: State, a: Action, id: JobId)
    requires Enabled(s, a) && Regular(a) && id !in s.lost
    ensures id in Apply(s, a).lost <==> a == Sched(RetryRemove) && Rewritten(s) && s.sched.id == id
  {
    hide ApplyApi, ApplySched, ApplyWork, ApiEnabled, SchedEnabled, WorkEnabled, Rewritten;
    match a
    case Api(api) => ApiFrame(s, api);
    case Sched(step) => SchedLost(s, step, id);
    case Work(w, work) => WorkFrame(s, w, work);
    case _ =>
  }

  /** The same for the token itself: a retrying job that had its token is without
      one after a step exactly when the step was that ZREM. */
  lemma TokenLostOnlyByRemoval(s: State, a: Action, id: JobId)
    requires TokenInv(s) && Enabled(s, a) && Regular(a)
    requires id in s.rows && s.rows[id].status.Retrying? && Live(s, id) == 1
    requires id in Apply(s, a).rows && Apply(s, a).rows[id].status.Retrying?
    ensures Live(Apply(s, a), id) == 0 <==> a == Sched(RetryRemove) && Rewritten(s) && s.sched.id == id
  {
    hide Apply, Enabled, Rewritten, Live, Placed, Safe;
    StepKeepsTokens(s, a);
    assert LiveOk(s, id) && LiveOk(Apply(s, a), id);
    LostOnlyByRemoval(s, a, id);
  }

  lemma StepKeepsLost(s: State, a: Action, id: JobId)
    requires TokenInv(s) && Enabled(s, a) && Regular(a) && id in s.lost
    ensures id in Apply(s, a).lost && !GrantsRun(s, a, id)
  {
    hide ApplyApi, ApplySched, ApplyWork, ApiEnabled, SchedEnabled, Rewritten, Live, Placed, Safe;
    assert LiveOk(s, id);
    match a
    case Api(api) => ApiFrame(s, api);
    case Sched(step) => SchedLost(s, step, id);
    case Work(w, work) => WorkFrame(s, w, work); HeldIsLive(s, w, id);
    case _ =>
  }

  /** Some step of the run removes an entry of the job that was rewritten since. */
  ghost predicate LostAlong(s: State, run: seq<Action>, id: JobId)
    decreases |run|
  {
    run != [] && Enabled(s, run[0])
    && ((run[0] == Sched(RetryRemove) && Rewritten(s) && s.sched.id == id) || LostAlong(Apply(s, run[0]), run[1..], id))
  }

  /** Over whole runs: a job is lost exactly when some step of the run lost it. */
  lemma {:induction false} LostAlongIff(s: State, run: seq<Action>, id: JobId)
    requires TokenInv(s) && AllRegular(run) && Exec(s, run).Some?
    ensures id in Exec(s, run).value.lost <==> id in s.lost || LostAlong(s, run, id)
    decreases |run|
  {
    hide Apply, Enabled, TokenInv, Rewritten;
    if run != [] {
      assert Regular(run[0]) && AllRegular(run[1..]);
      StepKeepsTokens(s, run[0]);
      LostAlongIff(Apply(s, run[0]), run[1..], id);
      if id in s.lost {
        StepKeepsLost(s, run[0], id);
      } else {
        LostOnlyByRemoval(s, run[0], id);
      }
    }
  }

  /** A lost job is stuck: it stays retrying, or is cancelled, and never runs. */
  lemma {:induction false} LostForever(s: State, run: seq<Action>, id: JobId)
    requires TokenInv(s) && AllRegular(run) && Exec(s, run).Some? && id in s.lost
    ensures var t := Exec(s, run).value;
      && id in t.lost && id in t.rows && (t.rows[id].status.Retrying? || t.rows[id].status.Cancelled?)
      && Live(t, id) == 0 && Nowhere(t, id)
    ensures Runs(s, run, id) == 0
    decreases |run|
  {
    hide Apply, Enabled, Live, Placed, Safe, Nowhere;
    if run == [] {
      assert LiveOk(s, id);
      NoToken(s, id);
    } else {
      assert Regular(run[0]) && AllRegular(run[1..]);
      StepKeepsLost(s, run[0], id);
      StepKeepsTokens(s, run[0]);
      LostForever(Apply(s, run[0]), run[1..], id);
    }
  }

  /** A popped id is thrown away only if its job was cancelled meanwhile. */
  lemma PopIsWastedOnlyOnCancelled(s0: State, run: seq<Action>, w: WorkerId)
    requires Initial(s0) && AllRegular(run) && Exec(s0, run).Some?
    requires WorkEnabled(Exec(s0, run).value, w, MarkRunning)
    ensures var s := Exec(s0, run).value; var id := s.goroutines[w].pc.id;
      id in s.rows && (Grants(s, id) <==> !s.rows[id].status.Cancelled?)
  {
    TokensInitially(s0);
    RunKeepsTokens(s0, run);
    var s := Exec(s0, run).value;
    assert PcOk(s, s.goroutines[w].pc);
  }

  /** The run after failed attempt a is granted more than 2^(a-1) - 1 seconds
      after EnqueueAfter read the clock; the missing second is the truncation of
      both readings. */
  lemma RetryIsNotEarly(s0: State, run: seq<Action>, w: WorkerId)
    requires Initial(s0) && AllRegular(run) && Exec(s0, run).Some?
    requires var s := Exec(s0, run).value;
      && WorkEnabled(s, w, MarkRunning) && s.goroutines[w].pc.id in s.rows
      && s.rows[s.goroutines[w].pc.id].status.Retrying? && s.rows[s.goroutines[w].pc.id].attempts <= 34
    ensures var s := Exec(s0, run).value; var id := s.goroutines[w].pc.id;
      && id in s.hist && s.hist[id].readdAt.Some? && s.rows[id].attempts >= 1
      && s.now - s.hist[id].readdAt.value > (Pow2(s.rows[id].attempts - 1) - 1) * 1_000_000_000
  {
    TokensInitially(s0);
    RunKeepsTokens(s0, run);
    var s := Exec(s0, run).value;
    var id := s.goroutines[w].pc.id;
    assert PcOk(s, s.goroutines[w].pc);
    assert Coherent(s.rows[id], s.hist[id].requeues, s.now);
    RipeMeansWaited(s.hist[id].readdAt.value, s.rows[id].attempts, s.now);
  }

  /** Nor late: from the moment 2^(a-1) seconds after EnqueueAfter read the clock, the
      scan of the retry set finds the entry. */
  lemma RetryIsNotLate(s0: State, run: seq<Action>, id: JobId)
    requires Initial(s0) && AllRegular(run) && Exec(s0, run).Some?
    requires var s := Exec(s0, run).value;
      && id in s.rows && s.rows[id].status.Retrying? && s.rows[id].attempts <= 34 && InRetries(s, id)
    ensures var s := Exec(s0, run).value;
      && id in s.hist && s.hist[id].readdAt.Some? && s.rows[id].attempts >= 1
      && (s.now >= s.hist[id].readdAt.value + Pow2(s.rows[id].attempts - 1) * 1_000_000_000 ==>
            id in DueRetries(s.redis.retries, s.now))
      && (SchedEnabled(s, Range) && s.now >= s.hist[id].readdAt.value + Pow2(s.rows[id].attempts - 1) * 1_000_000_000 ==>
            id in ApplySched(s, Range).sched.due)
  {
    TokensInitially(s0);
    RunKeepsTokens(s0, run);
    var s := Exec(s0, run).value;
    assert EntryOk(s, id);
    assert Coherent(s.rows[id], s.hist[id].requeues, s.now);
    RetryScoreIs(s.hist[id].readdAt.value, s.rows[id].attempts, s.now);
  }

  // ------------------------------------------------------- coarse runs

  // One iteration of the PromoteRetries loop, or any other action.
  datatype CoarseStep = One(a: Action) | PromoteOne(id: JobId)

  predicate CoarseRegular(c: CoarseStep) {
    c.One? ==> Regular(c.a) && !(c.a.Sched? && (c.a.step.Fetch? || c.a.step.RetryPush? || c.a.step.RetryRemove?))
  }

  function Expand(c: CoarseStep): seq<Action> {
    match c
    case One(a) => [a]
    case PromoteOne(id) => [Sched(Fetch(id)), Sched(RetryPush), Sched(RetryRemove)]
  }

  function ExpandAll(run: seq<CoarseStep>): seq<Action> {
    if run == [] then [] else Expand(run[0]) + ExpandAll(run[1..])
  }

  /** The scheduler is not inside an iteration. */
  predicate Boundary(s: State) { !s.sched.Fetched? && !s.sched.Removing? }

  ghost predicate CoarseInv(s: State) { TokenInv(s) && Boundary(s) && s.lost == {} }

  lemma OneKeepsBoundary(s: State, a: Action)
    requires TokenInv(s) && Boundary(s) && Enabled(s, a) && CoarseRegular(One(a))
    ensures Boundary(Apply(s, a)) && Apply(s, a).lost == s.lost
  {
    hide ApplyApi, ApplyWork, ApiEnabled, WorkEnabled, Live, Placed, Safe;
    match a
    case Api(api) => ApiFrame(s, api);
    case Sched(step) =>
    case Work(w, work) => WorkFrame(s, w, work);
    case _ =>
  }

  /** Nothing can rewrite the entry between the enqueue and the removal. */
  lemma PromoteOneKeepsAll(s: State, id: JobId)
    requires TokenInv(s) && SchedEnabled(s, Fetch(id))
    ensures var t1 := ApplySched(s, Fetch(id));
      && SchedEnabled(t1, RetryPush)
      && var t2 := ApplySched(t1, RetryPush);
         && SchedEnabled(t2, RetryRemove)
         && ApplySched(t2, RetryRemove).lost == s.lost
         && ApplySched(t2, RetryRemove).sched == Promoting(s.sched.due - {id})
         && ApplySched(t2, RetryRemove).goroutines == s.goroutines
         && ApplySched(t2, RetryRemove).calls == s.calls
  {
    assert InRetries(s, id) && EntryOk(s, id);
    assert s.rows[id].id == id;
    assert s.redis.retries[id].stamp <= s.writes;
    hide Live, Placed, Safe, Tracked;
  }

  lemma ExecPromoteOne(s: State, id: JobId)
    requires TokenInv(s) && SchedEnabled(s, Fetch(id))
    ensures Exec(s, Expand(PromoteOne(id))) ==
      Some(ApplySched(ApplySched(ApplySched(s, Fetch(id)), RetryPush), RetryRemove))
  {
    PromoteOneKeepsAll(s, id);
    hide ApplySched, TokenInv, SchedEnabled, Exec;
    var t1 := ApplySched(s, Fetch(id));
    var t2 := ApplySched(t1, RetryPush);
    ExecOne(t2, Sched(RetryRemove));
    ExecCons(t1, Sched(RetryPush), [Sched(RetryRemove)]);
    ExecCons(s, Sched(Fetch(id)), [Sched(RetryPush), Sched(RetryRemove)]);
    assert [Sched(RetryPush)] + [Sched(RetryRemove)] == [Sched(RetryPush), Sched(RetryRemove)];
    assert Expand(PromoteOne(id)) == [Sched(Fetch(id))] + [Sched(RetryPush), Sched(RetryRemove)];
  }

  lemma ExpandIsRegular(c: CoarseStep)
    requires CoarseRegular(c)
    ensures AllRegular(Expand(c))
  {
  }

  lemma CoarseStepKeepsAll(s: State, c: CoarseStep)
    requires CoarseInv(s) && CoarseRegular(c) && Exec(s, Expand(c)).Some?
    ensures CoarseInv(Exec(s, Expand(c)).value)
  {
    ExpandIsRegular(c);
    RunKeepsTokens(s, Expand(c));
    hide TokenInv, Apply, ApplySched;
    match c
    case One(a) =>
      assert Expand(c)[0] == a && Expand(c)[1..] == [];
      OneKeepsBoundary(s, a);
    case PromoteOne(id) =>
      assert Expand(c)[0] == Sched(Fetch(id));
      ExecPromoteOne(s, id);
      PromoteOneKeepsAll(s, id);
  }

  lemma {:induction false} CoarseRunKeepsAll(s: State, run: seq<CoarseStep>)
    requires CoarseInv(s) && (forall i :: 0 <= i < |run| ==> CoarseRegular(run[i]))
    requires Exec(s, ExpandAll(run)).Some?
    ensures CoarseInv(Exec(s, ExpandAll(run)).value)
    decreases |run|
  {
    hide CoarseInv, Enabled, Apply, Expand;
    if run != [] {
      var first, rest := Expand(run[0]), ExpandAll(run[1..]);
      ExecPrefix(s, first, rest);
      ExecAppend(s, first, rest);
      CoarseStepKeepsAll(s, run[0]);
      CoarseRunKeepsAll(Exec(s, first).value, run[1..]);
    } else {
      assert ExpandAll(run) == [];
    }
  }

  lemma {:induction false} ExecPrefix(s: State, run: seq<Action>, more: seq<Action>)
    requires Exec(s, run + more).Some?
    ensures Exec(s, run).Some?
    decreases |run|
  {
    hide Enabled, Apply;
    if run != [] {
      assert (run + more)[1..] == run[1..] + more;
      ExecPrefix(Apply(s, run[0]), run[1..], more);
    }
  }

  /** All the places that hold the id of the job, dead-letter list apart. */
  ghost function Places(s: State, id: JobId): nat {
    Sum(s.goroutines, Holds(id)) + Sum(s.calls, CallHolds(id)) + BatchHolds(s.sched, id)
    + Sum(s.redis.queues, QueueHolds(id)) + (if id in s.redis.retries then 1 else 0)
  }

  /** Token linearity: when every retry is promoted in one go, no job is lost or
      duplicated. A job that has to run is in exactly one place, a job that has
      not begun or is over in none, and a cancelled one in at most one. */
  lemma TokenLinearity(s0: State, run: seq<CoarseStep>, id: JobId)
    requires Initial(s0) && (forall i :: 0 <= i < |run| ==> CoarseRegular(run[i]))
    requires Exec(s0, ExpandAll(run)).Some? && id in Exec(s0, ExpandAll(run)).value.rows
    ensures var s := Exec(s0, ExpandAll(run)).value; var status := s.rows[id].status;
      && (status.Queued? || status.Retrying? || status.Running? ==> Places(s, id) == 1)
      && (status.Scheduled? || status.Completed? || status.DeadLetter? ==> Places(s, id) == 0)
      && (status.Cancelled? ==> Places(s, id) <= 1)
      && !status.Failed?
  {
    TokensInitially(s0);
    CoarseRunKeepsAll(s0, run);
    var s := Exec(s0, ExpandAll(run)).value;
    assert LiveOk(s, id) && Coherent(s.rows[id], s.hist[id].requeues, s.now);
    assert Places(s, id) == Live(s, id);
  }
}
