/** A fault-free run that loses a job: the worker re-adds the job between the
    enqueue and the removal of the same PromoteRetries iteration. */
module LossExample {
  import opened Prelude
  import opened Timing
  import opened Jobs
  import opened Protocol
  import opened DatabaseSafety
  import opened Tokens
  import opened TokenPlaces

  /** The run of a goroutine that pops the job and fails it. */
  function FailingRun(w: WorkerId, id: JobId): seq<Action> {
    [Work(w, Pop(id)), Work(w, MarkRunning), Work(w, MarkFailed("")), Work(w, Count), Work(w, ReAdd)]
  }

  /** Ready for `FailingRun`: the job heads the queue `w` is polling and has an
      attempt to spare. */
  ghost predicate CanFail(s: State, w: WorkerId, id: JobId) {
    && WorkEnabled(s, w, Pop(id))
    && id in s.rows && s.rows[id].id == id && s.rows[id].Startable() && s.rows[id].attempts + 1 < s.rows[id].maxAttempts
  }

  lemma Granted(s: State, w: WorkerId, id: JobId) returns (t: State)
    requires CanFail(s, w, id)
    ensures Enabled(s, Work(w, Pop(id))) && Enabled(Apply(s, Work(w, Pop(id))), Work(w, MarkRunning))
    ensures t == Apply(Apply(s, Work(w, Pop(id))), Work(w, MarkRunning))
    ensures t == s.(redis := ZRem(s.redis, s.listen(w)[s.goroutines[w].pc.at], id),
                    rows := s.rows[id := s.rows[id].Start(s.now)],
                    goroutines := s.goroutines[w := Goroutine(s.goroutines[w].pool, Executing(id))])
  {
    var s1 := Apply(s, Work(w, Pop(id)));
    assert s1 == s.(redis := ZRem(s.redis, s.listen(w)[s.goroutines[w].pc.at], id),
                    goroutines := s.goroutines[w := Goroutine(s.goroutines[w].pool, Popped(id))]);
    t := Apply(s1, Work(w, MarkRunning));
    assert t.goroutines == s.goroutines[w := Goroutine(s.goroutines[w].pool, Executing(id))];
  }

  lemma GivenUp(s: State, w: WorkerId, id: JobId, job: Job) returns (t: State)
    requires w in s.goroutines && s.goroutines[w].pc == Executing(id) && id in s.rows && s.rows[id].id == id
    requires job == s.rows[id].Fail("") && job.status.Retrying?
    ensures Enabled(s, Work(w, MarkFailed(""))) && Enabled(Apply(s, Work(w, MarkFailed(""))), Work(w, Count))
    ensures t == Apply(Apply(s, Work(w, MarkFailed(""))), Work(w, Count))
    ensures t.goroutines == s.goroutines[w := Goroutine(s.goroutines[w].pool, ReAdding(job))]
    ensures t.rows == s.rows[id := job]
    ensures t.sched == s.sched && t.calls == s.calls && t.lost == s.lost && t.now == s.now && t.listen == s.listen
    ensures t.redis == s.redis && t.writes == s.writes
  {
    var s1 := Apply(s, Work(w, MarkFailed("")));
    assert s1 == s.(rows := s.rows[id := job],
                    goroutines := s.goroutines[w := Goroutine(s.goroutines[w].pool, CountingFailed(job))]);
    t := Apply(s1, Work(w, Count));
    assert t.goroutines == s.goroutines[w := Goroutine(s.goroutines[w].pool, ReAdding(job))];
  }

  lemma Failed(s: State, w: WorkerId, id: JobId) returns (t: State)
    requires CanFail(s, w, id)
    ensures Exec(s, FailingRun(w, id)) == Some(t)
    ensures t.sched == s.sched && t.calls == s.calls && t.lost == s.lost && t.now == s.now && t.listen == s.listen
    ensures t.rows == s.rows[id := s.rows[id].Start(s.now).Fail("")]
    ensures t.redis.queues == ZRem(s.redis, s.listen(w)[s.goroutines[w].pc.at], id).queues
    ensures t.redis.retries == s.redis.retries[id := Entry(RetryScore(s.now, s.rows[id].attempts + 1), s.writes + 1)]
    ensures t.writes == s.writes + 1
    ensures w in t.goroutines && t.goroutines[w].pc == Polling(0)
  {
    hide Apply, Enabled, Exec, ApplyWork, WorkEnabled;
    var s2 := Granted(s, w, id);
    var s4 := GivenUp(s2, w, id, s.rows[id].Start(s.now).Fail(""));
    t := ReAdded(s4, w, s.rows[id].Start(s.now).Fail(""));
    FiveSteps(s, FailingRun(w, id));
  }

  lemma ReAdded(s: State, w: WorkerId, job: Job) returns (t: State)
    requires w in s.goroutines && s.goroutines[w].pc == ReAdding(job)
    ensures Enabled(s, Work(w, ReAdd)) && t == Apply(s, Work(w, ReAdd))
    ensures t.sched == s.sched && t.calls == s.calls && t.lost == s.lost && t.now == s.now && t.listen == s.listen
    ensures t.rows == s.rows && t.redis.queues == s.redis.queues && t.writes == s.writes + 1
    ensures t.redis.retries == s.redis.retries[job.id := Entry(RetryScore(s.now, job.attempts), s.writes + 1)]
    ensures w in t.goroutines && t.goroutines[w].pc == Polling(0)
  {
    t := Apply(s, Work(w, ReAdd));
  }

  lemma FiveSteps(s: State, run: seq<Action>)
    requires |run| == 5 && Enabled(s, run[0]) && Enabled(Apply(s, run[0]), run[1])
    requires var s2 := Apply(Apply(s, run[0]), run[1]);
      && Enabled(s2, run[2]) && Enabled(Apply(s2, run[2]), run[3]) && Enabled(Apply(Apply(s2, run[2]), run[3]), run[4])
    ensures Exec(s, run) == Some(Apply(Apply(Apply(Apply(Apply(s, run[0]), run[1]), run[2]), run[3]), run[4]))
  {
    hide Enabled, Apply, Exec;
    var s1 := Apply(s, run[0]);
    var s2 := Apply(s1, run[1]);
    var s3 := Apply(s2, run[2]);
    var s4 := Apply(s3, run[3]);
    ExecOne(s4, run[4]);
    ExecCons(s3, run[3], [run[4]]);
    ExecCons(s2, run[2], [run[3]] + [run[4]]);
    ExecCons(s1, run[1], [run[2]] + ([run[3]] + [run[4]]));
    ExecCons(s, run[0], [run[1]] + ([run[2]] + ([run[3]] + [run[4]])));
    assert run == [run[0]] + ([run[1]] + ([run[2]] + ([run[3]] + [run[4]])));
  }

  function Losing(w: WorkerId, id: JobId): seq<Action> {
    [Sched(Fetch(id)), Sched(RetryPush)] + FailingRun(w, id) + [Sched(RetryRemove)]
  }

  lemma Promoted(s: State, id: JobId) returns (s1: State, s2: State)
    requires TokenInv(s) && SchedEnabled(s, Fetch(id))
    ensures id in s.rows && s.rows[id].id == id
    ensures s1 == ApplySched(s, Fetch(id)) && SchedEnabled(s1, RetryPush) && s2 == ApplySched(s1, RetryPush)
    ensures s2 == s.(sched := Removing(s.sched.due - {id}, id, s.writes), redis := Enqueue(s.redis, s.rows[id], s.now))
  {
    assert InRetries(s, id) && EntryOk(s, id);
    assert s.rows[id].id == id;
    s1 := ApplySched(s, Fetch(id));
    s2 := ApplySched(s1, RetryPush);
  }

  lemma PromotedCanFail(s: State, s2: State, w: WorkerId, id: JobId)
    requires id in s.rows && s.rows[id].id == id
    requires s2 == s.(sched := s2.sched, redis := Enqueue(s.redis, s.rows[id], s.now))
    requires s.rows[id].status.Retrying? && s.rows[id].attempts + 1 < s.rows[id].maxAttempts
    requires w in s.goroutines && s.goroutines[w].pc.Polling? && s.goroutines[w].pc.at < |s.listen(w)|
    requires s.listen(w)[s.goroutines[w].pc.at] == s.rows[id].queue && Members(s.redis, s.rows[id].queue) == map[]
    ensures CanFail(s2, w, id)
  {
    assert Members(s2.redis, s.rows[id].queue).Keys == {id};
  }

  lemma RemovedTooLate(s: State, w: WorkerId, id: JobId) returns (s3: State, t: State)
    requires CanFail(s, w, id) && s.sched.Removing? && s.sched.id == id && s.sched.since == s.writes
    ensures Exec(s, FailingRun(w, id)) == Some(s3)
    ensures Enabled(s3, Sched(RetryRemove)) && t == Apply(s3, Sched(RetryRemove))
    ensures id in t.lost && id in t.rows && t.rows[id].status.Retrying?
  {
    s3 := Failed(s, w, id);
    hide WorkEnabled, ApplyWork, Exec;
    assert Rewritten(s3);
    t := Apply(s3, Sched(RetryRemove));
  }

  /** Whenever the scheduler is about to promote the retry of a job with two
      attempts left, and a goroutine polls its empty queue, this run loses it. */
  lemma WindowLosesJob(s: State, w: WorkerId, id: JobId) returns (t: State)
    requires TokenInv(s) && SchedEnabled(s, Fetch(id))
    requires id in s.rows && s.rows[id].status.Retrying? && s.rows[id].attempts + 1 < s.rows[id].maxAttempts
    requires w in s.goroutines && s.goroutines[w].pc.Polling? && s.goroutines[w].pc.at < |s.listen(w)|
    requires s.listen(w)[s.goroutines[w].pc.at] == s.rows[id].queue && Members(s.redis, s.rows[id].queue) == map[]
    ensures Exec(s, Losing(w, id)) == Some(t) && AllRegular(Losing(w, id))
    ensures id in t.lost && id in t.rows && t.rows[id].status.Retrying? && Live(t, id) == 0
  {
    hide Live, CanFail, SchedEnabled, ApplySched, WorkEnabled, ApplyWork, Placed, Safe;
    var s1, s2 := Promoted(s, id);
    PromotedCanFail(s, s2, w, id);
    var s3;
    s3, t := RemovedTooLate(s2, w, id);
    ExecChain(s, s1, s2, s3, t, id, w);
    RunKeepsTokens(s, Losing(w, id));
    assert LiveOk(t, id);
  }

  lemma ExecChain(s: State, s1: State, s2: State, s3: State, t: State, id: JobId, w: WorkerId)
    requires Enabled(s, Sched(Fetch(id))) && s1 == Apply(s, Sched(Fetch(id)))
    requires Enabled(s1, Sched(RetryPush)) && s2 == Apply(s1, Sched(RetryPush))
    requires Exec(s2, FailingRun(w, id)) == Some(s3)
    requires Enabled(s3, Sched(RetryRemove)) && t == Apply(s3, Sched(RetryRemove))
    ensures Exec(s, Losing(w, id)) == Some(t)
  {
    hide Enabled, Apply, Exec;
    var rest := FailingRun(w, id) + [Sched(RetryRemove)];
    ExecOne(s3, Sched(RetryRemove));
    ExecAppend(s2, FailingRun(w, id), [Sched(RetryRemove)]);
    ExecCons(s1, Sched(RetryPush), rest);
    ExecCons(s, Sched(Fetch(id)), [Sched(RetryPush)] + rest);
    assert Losing(w, id) == [Sched(Fetch(id))] + ([Sched(RetryPush)] + rest);
  }

  // ----------------------------------------------------- a run from the start

  const START: State := State(
    0, map[], Redis(map[], map[], []), map[0 := Goroutine(0, Polling(0))], Resting,
    map[], map[], (w: WorkerId) => ["default"], map[], 0, {}, 0, 0)

  const PARAMS: CreateParams := CreateParams(1, "default", "email", "{}", 0, 3, None)

  lemma FirstFailure() returns (run: seq<Action>, t: State)
    ensures AllRegular(run) && Exec(START, run) == Some(t)
    ensures t.sched == Resting && t.now == 0 && t.listen == START.listen && t.rows.Keys == {7}
    ensures t.rows[7].status.Retrying? && t.rows[7].attempts == 1 && t.rows[7].maxAttempts == 3 && t.rows[7].queue == "default"
    ensures Members(t.redis, "default") == map[]
    ensures t.redis.retries == map[7 := Entry(1, 1)]
    ensures 0 in t.goroutines && t.goroutines[0].pc == Polling(0)
  {
    hide Apply, Enabled, Exec, CanFail;
    var create, push := Api(Create(0, 7, PARAMS)), Api(Push(0));
    var s1, s2 := Submitted();
    t := Failed(s2, 0, 7);
    BackoffExactIff(1);
    run := [create] + ([push] + FailingRun(0, 7));
    ExecCons(s1, push, FailingRun(0, 7));
    ExecCons(START, create, [push] + FailingRun(0, 7));
  }

  lemma Submitted() returns (s1: State, s2: State)
    ensures var create, push := Api(Create(0, 7, PARAMS)), Api(Push(0));
      Enabled(START, create) && s1 == Apply(START, create) && Enabled(s1, push) && s2 == Apply(s1, push)
    ensures CanFail(s2, 0, 7) && s2.rows == map[7 := NewJob(7, PARAMS, 0)] && s2.redis.retries == map[] && s2.writes == 0
    ensures s2.redis.queues == map["default" := s2.redis.queues["default"]] && s2.redis.queues["default"].Keys == {7}
    ensures s2.sched == Resting && s2.now == 0 && s2.listen == START.listen && s2.goroutines == START.goroutines
  {
    s1 := Apply(START, Api(Create(0, 7, PARAMS)));
    s2 := Apply(s1, Api(Push(0)));
    assert Members(s2.redis, "default").Keys == {7};
  }

  lemma NextTick(s: State) returns (run: seq<Action>, t: State)
    requires s.sched == Resting && s.now == 0 && s.rows.Keys == {7} && s.rows[7].status.Retrying?
    requires s.redis.retries == map[7 := Entry(1, 1)]
    ensures AllRegular(run) && Exec(s, run) == Some(t)
    ensures t == s.(now := SECOND, sched := Promoting({7}))
  {
    var s1 := Apply(s, Tick(SECOND));
    assert ReadyBatch(s1.rows, s1.now, {});
    var s2 := Apply(s1, Sched(Scan({})));
    assert PromoteRows(s.rows, {}) == s.rows;
    assert s2.sched == Enqueueing(map[]);
    t := Apply(s2, Sched(Range));
    assert DueRetries(s.redis.retries, SECOND) == {7};
    run := [Tick(SECOND)] + ([Sched(Scan({}))] + [Sched(Range)]);
    ExecOne(s2, Sched(Range));
    ExecCons(s1, Sched(Scan({})), [Sched(Range)]);
    ExecCons(s, Tick(SECOND), [Sched(Scan({}))] + [Sched(Range)]);
  }

  /** "No job is lost" is false of fault-free runs: this one, from the empty
      system, leaves a retrying job that no place will ever run again. */
  lemma JobsCanBeLost() returns (run: seq<Action>, t: State)
    ensures Initial(START) && AllRegular(run) && Exec(START, run) == Some(t)
    ensures 7 in t.rows && t.rows[7].status.Retrying? && Live(t, 7) == 0 && 7 in t.lost
  {
    hide Enabled, Apply, TokenInv, Live;
    var run1, s1 := FirstFailure();
    var run2, s2 := NextTick(s1);
    ExecAppend(START, run1, run2);
    TokensInitially(START);
    RunKeepsTokens(START, run1 + run2);
    t := WindowLosesJob(s2, 0, 7);
    run := run1 + run2 + Losing(0, 7);
    ExecAppend(START, run1 + run2, Losing(0, 7));
  }

  // ------------------------------------------------------- an orphaned job

  lemma PoppedJob() returns (run: seq<Action>, t: State)
    ensures AllRegular(run) && Exec(START, run) == Some(t)
    ensures 0 in t.goroutines && t.goroutines[0].pc == Popped(7) && Grants(t, 7)
  {
    hide Apply, Enabled, Exec;
    var create, push := Api(Create(0, 7, PARAMS)), Api(Push(0));
    var s1, s2 := Submitted();
    t := JustPopped(s2, 0, 7);
    run := [create] + ([push] + [Work(0, Pop(7))]);
    ExecOne(s2, Work(0, Pop(7)));
    ExecCons(s1, push, [Work(0, Pop(7))]);
    ExecCons(START, create, [push] + [Work(0, Pop(7))]);
  }

  lemma JustPopped(s: State, w: WorkerId, id: JobId) returns (t: State)
    requires CanFail(s, w, id)
    ensures Enabled(s, Work(w, Pop(id))) && t == Apply(s, Work(w, Pop(id)))
    ensures w in t.goroutines && t.goroutines[w].pc == Popped(id) && Grants(t, id)
  {
    t := Apply(s, Work(w, Pop(id)));
  }

  lemma Started() returns (run: seq<Action>, t: State)
    ensures AllRegular(run) && Exec(START, run) == Some(t)
    ensures Executes(t, 0, 7) && 7 in t.rows && t.rows[7].status.Running?
  {
    hide Apply, Exec;
    var popped, s := PoppedJob();
    run := popped + [Work(0, MarkRunning)];
    t := Apply(s, Work(0, MarkRunning));
    ExecOne(s, Work(0, MarkRunning));
    ExecAppend(START, popped, [Work(0, MarkRunning)]);
    GrantedNow(s, 0, 7);
  }

  lemma GrantedNow(s: State, w: WorkerId, id: JobId)
    requires w in s.goroutines && s.goroutines[w].pc == Popped(id) && Grants(s, id)
    ensures var t := Apply(s, Work(w, MarkRunning));
      Executes(t, w, id) && id in t.rows && t.rows[id].status.Running?
  {
  }

  /** A single fault suffices, from the empty system: the answer of MarkRunning is
      lost, the goroutine dies, or the statement that records the outcome fails. */
  lemma JobsCanBeOrphaned(fault: Fault) returns (run: seq<Action>, t: State)
    requires fault == LoseGrant(0) || fault == CrashGoroutine(0) || fault == LoseCompletion(0) || fault == LoseFailure(0)
    ensures Initial(START) && AllRegular(run) && Exec(START, run + [Broken(fault)]) == Some(t) && Orphaned(t, 7)
  {
    hide Apply, Exec;
    var s;
    if fault.LoseGrant? {
      run, s := PoppedJob();
    } else {
      run, s := Started();
    }
    SafeInitially(START);
    RunKeepsSafe(START, run);
    t := Apply(s, Broken(fault));
    ExecOne(s, Broken(fault));
    ExecAppend(START, run, [Broken(fault)]);
    OrphanedIff(s, Broken(fault), 7);
  }
}
