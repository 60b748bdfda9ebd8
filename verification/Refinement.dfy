/** Each method of the program that changes the two stores, run alone, is a run of
    the protocol with the same effect: the state machine covers the code. */
module Refinement {
  import opened Prelude
  import opened Timing
  import opened Jobs
  import opened Protocol
  import opened RedisQueues
  import opened Services

  ghost function Scores(retries: map<JobId, Entry>): ZSet { map id | id in retries :: retries[id].score }

  /** The key space holds what the state machine calls `r`. */
  ghost predicate Represents(store: Store, r: Redis) {
    && (forall name :: QueueRepresents(store, r, name))
    && !HoldsList(store, RETRIES_KEY) && SortedAt(store, RETRIES_KEY) == Scores(r.retries)
    && ListAt(store, DEAD_KEY) == r.dead
  }

  ghost predicate QueueRepresents(store: Store, r: Redis, name: string) {
    SortedAt(store, QueueKey(name)) == Members(r, name) && (name != DEAD_LETTER ==> !HoldsList(store, QueueKey(name)))
  }

  ghost predicate Matches(st: Stores, s: State) {
    st.rows == s.rows && Represents(st.store, s.redis) && st.tallies == s.tallies
  }

  /** Only the parts that a goroutine may touch differ. */
  ghost predicate OthersKept(s: State, t: State) {
    t.sched == s.sched && t.calls == s.calls && t.listen == s.listen && t.lost == s.lost
  }

  // --------------------------------------------------------- Redis commands

  lemma EnqueueRepresents(store: Store, r: Redis, job: Job, now: Time)
    requires Represents(store, r) && !HoldsList(store, QueueKey(job.queue))
    ensures EnqueueSpec(store, job, now).1.Ok? && Represents(EnqueueSpec(store, job, now).0, Enqueue(r, job, now))
  {
    hide PriorityScore;
    var next, r' := EnqueueSpec(store, job, now).0, Enqueue(r, job, now);
    KeysApart(job.queue, job.queue);
    forall name ensures QueueRepresents(next, r', name) {
      KeysApart(job.queue, name);
      assert QueueRepresents(store, r, name);
    }
  }

  lemma PopRepresents(store: Store, r: Redis, name: string, id: JobId)
    requires Represents(store, r) && id in Members(r, name)
    ensures Represents(PopFrom(store, name, id), ZRem(r, name, id))
  {
    var next, r' := PopFrom(store, name, id), ZRem(r, name, id);
    var key := QueueKey(name);
    assert QueueRepresents(store, r, name);
    KeysApart(name, name);
    forall other ensures QueueRepresents(next, r', other) {
      KeysApart(name, other);
      MembersAfterPop(store, name, id, other);
      assert QueueRepresents(store, r, other);
      PutThenGet(store, key, SortedAt(store, key) - {id}, QueueKey(other));
    }
    PutThenGet(store, key, SortedAt(store, key) - {id}, RETRIES_KEY);
    PutThenGet(store, key, SortedAt(store, key) - {id}, DEAD_KEY);
  }

  lemma RetriesRepresent(store: Store, r: Redis, retries: map<JobId, Entry>, z: ZSet)
    requires Represents(store, r) && z == Scores(retries)
    ensures Represents(PutSorted(store, RETRIES_KEY, z), r.(retries := retries))
  {
    var next := PutSorted(store, RETRIES_KEY, z);
    KeysApart("", "");
    PutThenGet(store, RETRIES_KEY, z, RETRIES_KEY);
    PutThenGet(store, RETRIES_KEY, z, DEAD_KEY);
    forall name ensures QueueRepresents(next, r.(retries := retries), name) {
      KeysApart(name, name);
      assert QueueRepresents(store, r, name);
      PutThenGet(store, RETRIES_KEY, z, QueueKey(name));
    }
  }

  lemma DeadRepresents(store: Store, r: Redis, id: JobId)
    requires Represents(store, r) && !HoldsSorted(store, DEAD_KEY)
    ensures Represents(AddDead(store, id), r.(dead := [id] + r.dead))
  {
    KeysApart("", "");
    forall name ensures QueueRepresents(AddDead(store, id), r.(dead := [id] + r.dead), name) {
      KeysApart(name, DEAD_LETTER);
      assert QueueRepresents(store, r, name);
    }
  }

  // ------------------------------------------------------------------ handle

  const ALL_DONE: Answers := Answers(Done, Done, Done)

  function CountAction(w: WorkerId, db: Answer): Action {
    if db.Refused? then Broken(LoseCount(w)) else Work(w, Count)
  }

  function CompleteAction(w: WorkerId, db: Answer): Action {
    if db.Refused? then Broken(LoseCompletion(w)) else Work(w, MarkCompleted)
  }

  /** `blocked`: the key of the dead-letter list holds a sorted set. */
  function AsideAction(w: WorkerId, job: Job, blocked: bool): Action {
    if job.status.Retrying? then Work(w, ReAdd)
    else if blocked then Broken(CrashGoroutine(w))
    else Work(w, Bury)
  }

  function OutcomeRun(job: Job, w: WorkerId, outcome: Result<(), string>, db: Answers, blocked: bool): seq<Action> {
    match outcome
    case Ok(_) => [CompleteAction(w, db.outcome)] + [CountAction(w, db.count)]
    case Err(message) =>
      match db.outcome
      case Refused => [Broken(LoseFailure(w))]
      case Unanswered => [Work(w, MarkFailed(message))] + [Broken(CrashGoroutine(w))]
      case Done => [Work(w, MarkFailed(message))] + ([CountAction(w, db.count)] + [AsideAction(w, job.Fail(message), blocked)])
  }

  /** One goroutine's statements in order; `Process` takes `elapsed`. */
  ghost function HandleRun(
    s: State, w: WorkerId, id: JobId, outcome: Result<(), string>, db: Answers, blocked: bool, elapsed: nat): seq<Action>
  {
    if db.grant.Refused? then [Broken(CrashGoroutine(w))]
    else if !Grants(s, id) then [Work(w, MarkRunning)]
    else if db.grant.Unanswered? then [Broken(LoseGrant(w))]
    else [Work(w, MarkRunning)] + ([Tick(elapsed)] + OutcomeRun(s.rows[id].Start(s.now), w, outcome, db, blocked))
  }

  ghost predicate At(s: State, w: WorkerId, pool: PoolId, pc: Pc) {
    w in s.goroutines && s.goroutines[w] == Goroutine(pool, pc)
  }

  /** The goroutine went on to `pc`; the scheduler and the API calls did not move. */
  ghost predicate WentTo(s: State, t: State, w: WorkerId, pool: PoolId, pc: Pc) {
    OthersKept(s, t) && t.goroutines == s.goroutines[w := Goroutine(pool, pc)]
  }

  lemma MarkedRunning(st: Stores, s: State, w: WorkerId, pool: PoolId, id: JobId, elapsed: nat) returns (t: State)
    requires Matches(st, s) && At(s, w, pool, Popped(id)) && Grants(s, id)
    ensures Enabled(s, Work(w, MarkRunning)) && t == Apply(Apply(s, Work(w, MarkRunning)), Tick(elapsed))
    ensures Matches(st.(rows := s.rows[id := s.rows[id].Start(s.now)]), t) && t.now == s.now + elapsed
    ensures WentTo(s, t, w, pool, Executing(id))
  {
    t := Apply(Apply(s, Work(w, MarkRunning)), Tick(elapsed));
  }

  lemma CountedRun(st: Stores, s: State, w: WorkerId, pool: PoolId, pc: Pc, db: Answer) returns (t: State)
    requires Matches(st, s) && At(s, w, pool, pc) && (pc.CountingDone? || pc.CountingFailed?)
    ensures Enabled(s, CountAction(w, db)) && t == Apply(s, CountAction(w, db)) && t.now == s.now
    ensures Matches(if db.Refused? then st else st.(tallies := Counted(st.tallies, pool, pc.CountingDone?)), t)
    ensures WentTo(s, t, w, pool, AfterCount(pc))
  {
    hide Represents;
    t := Apply(s, CountAction(w, db));
  }

  lemma OutcomeMarked(st: Stores, s: State, w: WorkerId, pool: PoolId, id: JobId, db: Answer) returns (t: State)
    requires Matches(st, s) && At(s, w, pool, Executing(id)) && id in s.rows
    ensures Enabled(s, CompleteAction(w, db)) && t == Apply(s, CompleteAction(w, db))
    ensures Matches(if db.Refused? then st else st.(rows := s.rows[id := s.rows[id].Complete(s.now)]), t)
    ensures WentTo(s, t, w, pool, CountingDone)
  {
    hide Represents;
    t := Apply(s, CompleteAction(w, db));
  }

  lemma Completed(st: Stores, s: State, w: WorkerId, pool: PoolId, id: JobId, outcome: Result<(), string>, db: Answers)
    returns (t: State)
    requires Matches(st, s) && At(s, w, pool, Executing(id)) && id in s.rows && outcome.Ok?
    ensures Exec(s, [CompleteAction(w, db.outcome)] + [CountAction(w, db.count)]) == Some(t)
    ensures Matches(Concluded(st, pool, id, outcome, db, s.now), t) && WentTo(s, t, w, pool, Polling(0))
  {
    hide Represents, Apply, Enabled, Exec, CountAction, CompleteAction;
    var s1 := OutcomeMarked(st, s, w, pool, id, db.outcome);
    var st1 := if db.outcome.Refused? then st else st.(rows := s.rows[id := s.rows[id].Complete(s.now)]);
    t := CountedRun(st1, s1, w, pool, CountingDone, db.count);
    ExecOne(s1, CountAction(w, db.count));
    ExecCons(s, CompleteAction(w, db.outcome), [CountAction(w, db.count)]);
  }

  lemma ReAddedRun(st: Stores, s: State, w: WorkerId, pool: PoolId, job: Job) returns (t: State)
    requires Matches(st, s) && At(s, w, pool, ReAdding(job))
    ensures Enabled(s, Work(w, ReAdd)) && t == Apply(s, Work(w, ReAdd))
    ensures Matches(st.(store := AddRetry(st.store, job.id, RetryScore(s.now, job.attempts))), t)
    ensures WentTo(s, t, w, pool, Polling(0))
  {
    t := Apply(s, Work(w, ReAdd));
    var z := SortedAt(st.store, RETRIES_KEY)[job.id := RetryScore(s.now, job.attempts)];
    assert z == Scores(t.redis.retries);
    RetriesRepresent(st.store, s.redis, t.redis.retries, z);
    hide Represents;
    assert job.id in z && PutSorted(st.store, RETRIES_KEY, z) == AddRetry(st.store, job.id, RetryScore(s.now, job.attempts));
    assert t.redis == s.redis.(retries := t.redis.retries);
  }

  lemma BuriedRun(st: Stores, s: State, w: WorkerId, pool: PoolId, job: Job) returns (t: State)
    requires Matches(st, s) && At(s, w, pool, Burying(job))
    ensures var a := if HoldsSorted(st.store, DEAD_KEY) then Broken(CrashGoroutine(w)) else Work(w, Bury);
      Enabled(s, a) && t == Apply(s, a)
    ensures Matches(st.(store := if HoldsSorted(st.store, DEAD_KEY) then st.store else AddDead(st.store, job.id)), t)
    ensures WentTo(s, t, w, pool, Polling(0))
  {
    hide Represents;
    if HoldsSorted(st.store, DEAD_KEY) {
      t := Apply(s, Broken(CrashGoroutine(w)));
    } else {
      t := Apply(s, Work(w, Bury));
      DeadRepresents(st.store, s.redis, job.id);
    }
  }

  lemma PutAside(st: Stores, s: State, w: WorkerId, pool: PoolId, job: Job) returns (t: State)
    requires Matches(st, s)
    requires At(s, w, pool, if job.status.Retrying? then ReAdding(job) else Burying(job))
    ensures var a := AsideAction(w, job, HoldsSorted(st.store, DEAD_KEY)); Enabled(s, a) && t == Apply(s, a)
    ensures Matches(st.(store := SetAside(st.store, job, s.now)), t) && WentTo(s, t, w, pool, Polling(0))
  {
    assert !HoldsList(st.store, RETRIES_KEY);
    hide Represents, Apply, Enabled;
    if job.status.Retrying? {
      t := ReAddedRun(st, s, w, pool, job);
    } else {
      t := BuriedRun(st, s, w, pool, job);
    }
  }

  lemma FailureMarked(st: Stores, s: State, w: WorkerId, pool: PoolId, id: JobId, message: string) returns (t: State)
    requires Matches(st, s) && At(s, w, pool, Executing(id)) && id in s.rows
    ensures Enabled(s, Work(w, MarkFailed(message))) && t == Apply(s, Work(w, MarkFailed(message))) && t.now == s.now
    ensures Matches(st.(rows := s.rows[id := s.rows[id].Fail(message)]), t)
    ensures WentTo(s, t, w, pool, CountingFailed(s.rows[id].Fail(message)))
  {
    hide Represents;
    t := Apply(s, Work(w, MarkFailed(message)));
  }

  lemma MarkedFailed(st: Stores, s: State, w: WorkerId, pool: PoolId, id: JobId, message: string, db: Answers) returns (t: State)
    requires Matches(st, s) && At(s, w, pool, Executing(id)) && id in s.rows && db.outcome.Done?
    ensures var last := AsideAction(w, s.rows[id].Fail(message), HoldsSorted(st.store, DEAD_KEY));
      Exec(s, [Work(w, MarkFailed(message))] + ([CountAction(w, db.count)] + [last])) == Some(t)
    ensures Matches(Concluded(st, pool, id, Err(message), db, s.now), t) && WentTo(s, t, w, pool, Polling(0))
  {
    hide Represents, Apply, Enabled, Exec, CountAction, AsideAction, SetAside;
    var job := s.rows[id].Fail(message);
    var s1 := FailureMarked(st, s, w, pool, id, message);
    var st1 := st.(rows := s.rows[id := job]);
    var s2 := CountedRun(st1, s1, w, pool, CountingFailed(job), db.count);
    var st2 := if db.count.Refused? then st1 else st1.(tallies := Counted(st.tallies, pool, false));
    var last := AsideAction(w, job, HoldsSorted(st.store, DEAD_KEY));
    t := PutAside(st2, s2, w, pool, job);
    ExecOne(s2, last);
    ExecCons(s1, CountAction(w, db.count), [last]);
    ExecCons(s, Work(w, MarkFailed(message)), [CountAction(w, db.count)] + [last]);
  }

  /** MarkFailed did not answer: `handle` returns, whether or not it took effect. */
  lemma FailureLost(st: Stores, s: State, w: WorkerId, pool: PoolId, id: JobId, message: string, db: Answer) returns (t: State)
    requires Matches(st, s) && At(s, w, pool, Executing(id)) && id in s.rows && !db.Done?
    ensures Exec(s, if db.Refused? then [Broken(LoseFailure(w))]
                    else [Work(w, MarkFailed(message))] + [Broken(CrashGoroutine(w))]) == Some(t)
    ensures Matches(if db.Refused? then st else st.(rows := s.rows[id := s.rows[id].Fail(message)]), t)
    ensures WentTo(s, t, w, pool, Polling(0))
  {
    if db.Refused? {
      t := Ended(s, w, pool, Broken(LoseFailure(w)));
      ExecOne(s, Broken(LoseFailure(w)));
    } else {
      hide Represents, Apply, Enabled, Exec;
      var s1 := FailureMarked(st, s, w, pool, id, message);
      t := Ended(s1, w, pool, Broken(CrashGoroutine(w)));
      ExecOne(s1, Broken(CrashGoroutine(w)));
      ExecCons(s, Work(w, MarkFailed(message)), [Broken(CrashGoroutine(w))]);
    }
  }

  lemma Ended(s: State, w: WorkerId, pool: PoolId, a: Action) returns (t: State)
    requires w in s.goroutines && s.goroutines[w].pool == pool
    requires a == Broken(CrashGoroutine(w)) || (a == Broken(LoseFailure(w)) && s.goroutines[w].pc.Executing?)
    ensures Enabled(s, a) && t == Apply(s, a)
    ensures t == s.(goroutines := s.goroutines[w := Goroutine(pool, Polling(0))])
  {
    t := Apply(s, a);
  }

  lemma OutcomeIsARun(st: Stores, s: State, w: WorkerId, pool: PoolId, id: JobId, outcome: Result<(), string>, db: Answers)
    returns (t: State)
    requires Matches(st, s) && At(s, w, pool, Executing(id)) && id in s.rows
    ensures Exec(s, OutcomeRun(s.rows[id], w, outcome, db, HoldsSorted(st.store, DEAD_KEY))) == Some(t)
    ensures Matches(Concluded(st, pool, id, outcome, db, s.now), t) && WentTo(s, t, w, pool, Polling(0))
  {
    hide Represents, Apply, Enabled, Exec, CountAction, CompleteAction, AsideAction;
    match outcome {
      case Ok(_) =>
        t := Completed(st, s, w, pool, id, outcome, db);
      case Err(message) =>
        if db.outcome.Done? {
          t := MarkedFailed(st, s, w, pool, id, message, db);
        } else {
          t := FailureLost(st, s, w, pool, id, message, db.outcome);
        }
    }
  }

  lemma NotGranted(st: Stores, s: State, w: WorkerId, pool: PoolId, id: JobId, db: Answer) returns (t: State)
    requires Matches(st, s) && At(s, w, pool, Popped(id)) && (db.Refused? || !Grants(s, id))
    ensures Exec(s, [if db.Refused? then Broken(CrashGoroutine(w)) else Work(w, MarkRunning)]) == Some(t)
    ensures Matches(st, t) && WentTo(s, t, w, pool, Polling(0))
  {
    hide Represents;
    var a := if db.Refused? then Broken(CrashGoroutine(w)) else Work(w, MarkRunning);
    t := Apply(s, a);
    ExecOne(s, a);
  }

  lemma GrantLost(st: Stores, s: State, w: WorkerId, pool: PoolId, id: JobId) returns (t: State)
    requires Matches(st, s) && At(s, w, pool, Popped(id)) && Grants(s, id)
    ensures Exec(s, [Broken(LoseGrant(w))]) == Some(t)
    ensures Matches(st.(rows := s.rows[id := s.rows[id].Start(s.now)]), t) && WentTo(s, t, w, pool, Polling(0))
  {
    hide Represents;
    t := Apply(s, Broken(LoseGrant(w)));
    ExecOne(s, Broken(LoseGrant(w)));
  }

  /** `handle` is a run: MarkRunning, then the outcome, the counter, and the retry
      set or the dead-letter list; it leaves the goroutine polling again. A
      statement that has no effect, or whose answer is lost, is one of the faults;
      without these the run is fault-free. */
  lemma HandleIsARun(
    st: Stores, s: State, w: WorkerId, pool: PoolId, id: JobId, outcome: Result<(), string>, db: Answers, elapsed: nat)
    returns (run: seq<Action>, t: State)
    requires Matches(st, s) && At(s, w, pool, Popped(id))
    ensures run == HandleRun(s, w, id, outcome, db, HoldsSorted(st.store, DEAD_KEY), elapsed) && Exec(s, run) == Some(t)
    ensures Matches(Handled(st, pool, id, outcome, db, s.now, elapsed), t) && WentTo(s, t, w, pool, Polling(0))
    ensures db == ALL_DONE && !HoldsSorted(st.store, DEAD_KEY) ==> AllRegular(run)
  {
    hide Represents, Apply, Enabled, Exec, Concluded;
    run := HandleRun(s, w, id, outcome, db, HoldsSorted(st.store, DEAD_KEY), elapsed);
    if db.grant.Refused? || !Grants(s, id) {
      t := NotGranted(st, s, w, pool, id, db.grant);
    } else if db.grant.Unanswered? {
      t := GrantLost(st, s, w, pool, id);
    } else {
      t := GrantedHandle(st, s, w, pool, id, outcome, db, elapsed);
    }
  }

  lemma GrantedHandle(
    st: Stores, s: State, w: WorkerId, pool: PoolId, id: JobId, outcome: Result<(), string>, db: Answers, elapsed: nat)
    returns (t: State)
    requires Matches(st, s) && At(s, w, pool, Popped(id)) && db.grant.Done? && Grants(s, id)
    ensures Exec(s, HandleRun(s, w, id, outcome, db, HoldsSorted(st.store, DEAD_KEY), elapsed)) == Some(t)
    ensures Matches(Handled(st, pool, id, outcome, db, s.now, elapsed), t) && WentTo(s, t, w, pool, Polling(0))
  {
    hide Represents, Apply, Enabled, OutcomeRun, Exec, Concluded;
    var s2 := MarkedRunning(st, s, w, pool, id, elapsed);
    var st2 := st.(rows := s.rows[id := s.rows[id].Start(s.now)]);
    t := OutcomeIsARun(st2, s2, w, pool, id, outcome, db);
    var s1 := Apply(s, Work(w, MarkRunning));
    var rest := OutcomeRun(s.rows[id].Start(s.now), w, outcome, db, HoldsSorted(st.store, DEAD_KEY));
    TickEnabled(s1, elapsed);
    ExecCons(s1, Tick(elapsed), rest);
    ExecCons(s, Work(w, MarkRunning), [Tick(elapsed)] + rest);
  }

  lemma TickEnabled(s: State, d: nat)
    ensures Enabled(s, Tick(d))
  {
  }

  // ----------------------------------------------------------------- Dequeue

  function PollRun(w: WorkerId, misses: nat): seq<Action> {
    if misses == 0 then [] else [Work(w, PollEmpty)] + PollRun(w, misses - 1)
  }

  function PollRounds(w: WorkerId, n: nat, rounds: nat): seq<Action> {
    if rounds == 0 then [] else PollRun(w, n) + PollRounds(w, n, rounds - 1)
  }

  lemma Polled(s: State, w: WorkerId, at: nat) returns (t: State)
    requires w in s.goroutines && s.goroutines[w].pc == Polling(at) && at < |s.listen(w)|
    requires Members(s.redis, s.listen(w)[at]) == map[]
    ensures Enabled(s, Work(w, PollEmpty)) && t == Apply(s, Work(w, PollEmpty))
    ensures t == Goto(s, w, Polling(if at + 1 == |s.listen(w)| then 0 else at + 1))
  {
    t := Apply(s, Work(w, PollEmpty));
    assert t.goroutines == s.goroutines[w := Goroutine(s.goroutines[w].pool, Polling((at + 1) % |s.listen(w)|))];
  }

  /** Polls of empty queues only move the goroutine along the list. */
  lemma {:induction false} PollsAreARun(s: State, w: WorkerId, at: nat, n: nat) returns (t: State)
    requires w in s.goroutines && s.goroutines[w].pc == Polling(at) && at + n <= |s.listen(w)| && 0 < |s.listen(w)| - at
    requires forall k :: at <= k < at + n ==> Members(s.redis, s.listen(w)[k]) == map[]
    ensures Exec(s, PollRun(w, n)) == Some(t)
    ensures t == Goto(s, w, Polling(if at + n == |s.listen(w)| then 0 else at + n))
    decreases n
  {
    hide Enabled, Apply;
    if n == 0 {
      t := s;
      assert s.goroutines[w := s.goroutines[w]] == s.goroutines;
    } else {
      var s1 := Polled(s, w, at);
      if n == 1 {
        t := s1;
        assert PollRun(w, 1) == [Work(w, PollEmpty)];
        ExecOne(s, Work(w, PollEmpty));
      } else {
        t := PollsAreARun(s1, w, at + 1, n - 1);
        ExecCons(s, Work(w, PollEmpty), PollRun(w, n - 1));
        assert t.goroutines == s.goroutines[w := t.goroutines[w]];
      }
    }
  }

  lemma {:induction false} RoundsChangeNothing(s: State, w: WorkerId, rounds: nat)
    requires w in s.goroutines && s.goroutines[w].pc == Polling(0)
    requires forall k :: 0 <= k < |s.listen(w)| ==> Members(s.redis, s.listen(w)[k]) == map[]
    ensures Exec(s, PollRounds(w, |s.listen(w)|, rounds)) == Some(s)
    decreases rounds
  {
    if rounds > 0 {
      RoundsChangeNothing(s, w, rounds - 1);
      if s.listen(w) == [] {
        assert PollRun(w, 0) + PollRounds(w, 0, rounds - 1) == PollRounds(w, 0, rounds - 1);
      } else {
        var t := PollsAreARun(s, w, 0, |s.listen(w)|);
        assert s.goroutines[w := s.goroutines[w]] == s.goroutines;
        ExecAppend(s, PollRun(w, |s.listen(w)|), PollRounds(w, |s.listen(w)|, rounds - 1));
      }
    }
  }

  lemma PoppedNext(store: Store, s: State, w: WorkerId, at: nat) returns (t: State)
    requires Represents(store, s.redis) && w in s.goroutines && s.goroutines[w].pc == Polling(at)
    requires at < |s.listen(w)| && SortedAt(store, QueueKey(s.listen(w)[at])) != map[]
    ensures var id := Least(SortedAt(store, QueueKey(s.listen(w)[at])));
      && Exec(s, [Work(w, Pop(id))]) == Some(t)
      && Represents(PopFrom(store, s.listen(w)[at], id), t.redis)
      && t.goroutines == s.goroutines[w := Goroutine(s.goroutines[w].pool, Popped(id))]
      && t.rows == s.rows && t.tallies == s.tallies && OthersKept(s, t)
  {
    var id := Least(SortedAt(store, QueueKey(s.listen(w)[at])));
    assert QueueRepresents(store, s.redis, s.listen(w)[at]);
    PopRepresents(store, s.redis, s.listen(w)[at], id);
    hide Represents;
    t := Apply(s, Work(w, Pop(id)));
    ExecOne(s, Work(w, Pop(id)));
  }

  lemma FirstBlocked(store: Store, names: seq<string>) returns (k: nat)
    requires Blocked(store, names)
    ensures k < FirstBusy(store, names, 0)
  {
    k :| 0 <= k < FirstBusy(store, names, 0) && HoldsList(store, QueueKey(names[k]));
  }

  lemma Reset(s: State, w: WorkerId, at: nat)
    requires w in s.goroutines && s.goroutines[w].pc == Polling(0)
    ensures var moved := Goto(s, w, Polling(at)); Exec(moved, [Broken(CrashGoroutine(w))]) == Some(s)
  {
    var moved := Goto(s, w, Polling(at));
    ExecOne(moved, Broken(CrashGoroutine(w)));
    assert Apply(moved, Broken(CrashGoroutine(w))).goroutines == s.goroutines;
  }

  /** `Dequeue` is a run, whatever its result: empty polls up to the first busy
      queue and its pop; an error, after which the goroutine begins again; or
      `polls` further rounds of empty polls until the context is done. */
  lemma DequeueIsARun(store: Store, s: State, w: WorkerId, polls: nat, failsAt: Option<nat>) returns (run: seq<Action>, t: State)
    requires Represents(store, s.redis) && w in s.goroutines && s.goroutines[w].pc == Polling(0)
    ensures Exec(s, run) == Some(t)
    ensures var names := s.listen(w); var i := FirstBusy(store, names, 0);
      if (failsAt.Some? && failsAt.value < Commands(store, names, polls)) || Blocked(store, names)
      then t == s && run != [] && run[|run| - 1] == Broken(CrashGoroutine(w))
      else if i == |names| then t == s && run == PollRounds(w, |names|, polls + 1)
      else
        var id := Least(SortedAt(store, QueueKey(names[i])));
        && run == PollRun(w, i) + [Work(w, Pop(id))]
        && Represents(PopFrom(store, names[i], id), t.redis)
        && t.goroutines == s.goroutines[w := Goroutine(s.goroutines[w].pool, Popped(id))]
        && t.rows == s.rows && t.tallies == s.tallies && OthersKept(s, t)
  {
    hide Represents, Enabled, Apply, Exec, FirstBusy, SortedAt, PopFrom, Commands;
    var names := s.listen(w);
    var i := FirstBusy(store, names, 0);
    EmptyBeforeBusy(store, s, w);
    if failsAt.Some? && failsAt.value < Commands(store, names, polls) {
      run := CommandFails(store, s, w, polls, failsAt.value);
      t := s;
    } else if Blocked(store, names) {
      var k := FirstBlocked(store, names);
      run, t := PollRun(w, k) + [Broken(CrashGoroutine(w))], s;
      PollsAndFails(s, w, k);
    } else if i == |names| {
      run, t := PollRounds(w, |names|, polls + 1), s;
      RoundsChangeNothing(s, w, polls + 1);
    } else {
      run, t := PollsAndPops(store, s, w, i);
    }
  }

  /** The command with this number fails: the ones before it found nothing. */
  lemma CommandFails(store: Store, s: State, w: WorkerId, polls: nat, command: nat) returns (run: seq<Action>)
    requires Represents(store, s.redis) && w in s.goroutines && s.goroutines[w].pc == Polling(0)
    requires command < Commands(store, s.listen(w), polls)
    ensures Exec(s, run) == Some(s) && run != [] && run[|run| - 1] == Broken(CrashGoroutine(w))
  {
    hide Represents, Enabled, Apply, Exec;
    var names := s.listen(w);
    EmptyBeforeStop(store, s, w);
    if FirstStop(store, names, 0) < |names| {
      run := PollRun(w, command) + [Broken(CrashGoroutine(w))];
      PollsAndFails(s, w, command);
    } else {
      var rounds, k := command / |names|, command % |names|;
      var last := PollRun(w, k) + [Broken(CrashGoroutine(w))];
      RoundsChangeNothing(s, w, rounds);
      PollsAndFails(s, w, k);
      run := PollRounds(w, |names|, rounds) + last;
      ExecAppend(s, PollRounds(w, |names|, rounds), last);
    }
  }

  lemma EmptyBeforeStop(store: Store, s: State, w: WorkerId)
    requires Represents(store, s.redis)
    ensures forall k :: 0 <= k < FirstStop(store, s.listen(w), 0) ==> Members(s.redis, s.listen(w)[k]) == map[]
  {
    forall k | 0 <= k < FirstStop(store, s.listen(w), 0) ensures Members(s.redis, s.listen(w)[k]) == map[] {
      assert QueueRepresents(store, s.redis, s.listen(w)[k]);
    }
  }

  lemma EmptyBeforeBusy(store: Store, s: State, w: WorkerId)
    requires Represents(store, s.redis)
    ensures forall k :: 0 <= k < FirstBusy(store, s.listen(w), 0) ==> Members(s.redis, s.listen(w)[k]) == map[]
  {
    forall k | 0 <= k < FirstBusy(store, s.listen(w), 0) ensures Members(s.redis, s.listen(w)[k]) == map[] {
      assert QueueRepresents(store, s.redis, s.listen(w)[k]);
    }
  }

  lemma PollsAndFails(s: State, w: WorkerId, k: nat)
    requires w in s.goroutines && s.goroutines[w].pc == Polling(0) && k < |s.listen(w)|
    requires forall j :: 0 <= j < k ==> Members(s.redis, s.listen(w)[j]) == map[]
    ensures Exec(s, PollRun(w, k) + [Broken(CrashGoroutine(w))]) == Some(s)
  {
    hide Enabled, Apply, Exec, Members;
    var s1 := PollsAreARun(s, w, 0, k);
    ExecAppend(s, PollRun(w, k), [Broken(CrashGoroutine(w))]);
    Reset(s, w, k);
  }

  lemma PollsAndPops(store: Store, s: State, w: WorkerId, i: nat) returns (run: seq<Action>, t: State)
    requires Represents(store, s.redis) && w in s.goroutines && s.goroutines[w].pc == Polling(0)
    requires i < |s.listen(w)| && SortedAt(store, QueueKey(s.listen(w)[i])) != map[]
    requires forall j :: 0 <= j < i ==> Members(s.redis, s.listen(w)[j]) == map[]
    ensures var id := Least(SortedAt(store, QueueKey(s.listen(w)[i])));
      && run == PollRun(w, i) + [Work(w, Pop(id))] && Exec(s, run) == Some(t)
      && Represents(PopFrom(store, s.listen(w)[i], id), t.redis)
      && t.goroutines == s.goroutines[w := Goroutine(s.goroutines[w].pool, Popped(id))]
      && t.rows == s.rows && t.tallies == s.tallies && OthersKept(s, t)
  {
    hide Represents, Enabled, Apply, Exec, SortedAt, PopFrom, Members, IsMin;
    var id := Least(SortedAt(store, QueueKey(s.listen(w)[i])));
    var s1 := PollsAreARun(s, w, 0, i);
    t := PoppedNext(store, s1, w, i);
    run := PollRun(w, i) + [Work(w, Pop(id))];
    ExecAppend(s, PollRun(w, i), [Work(w, Pop(id))]);
    assert t.goroutines == s.goroutines[w := t.goroutines[w]];
  }

  // ------------------------------------------------------- Create and Retry

  /** The enqueue of an API call, or its error, which ends the call. */
  lemma Pushed(st: Stores, s: State, call: CallId) returns (a: Action, t: State)
    requires Matches(st, s) && call in s.calls
    ensures Enabled(s, a) && t == Apply(s, a)
    ensures a == if HoldsList(st.store, QueueKey(s.calls[call].queue)) then Broken(CrashCall(call)) else Api(Push(call))
    ensures Matches(st.(store := EnqueueSpec(st.store, s.calls[call], s.now).0), t)
    ensures t.calls == s.calls - {call} && t.goroutines == s.goroutines && t.sched == s.sched
  {
    hide Represents, PriorityScore;
    if HoldsList(st.store, QueueKey(s.calls[call].queue)) {
      a := Broken(CrashCall(call));
    } else {
      a := Api(Push(call));
      EnqueueRepresents(st.store, s.redis, s.calls[call], s.now);
    }
    t := Apply(s, a);
  }

  lemma UsableQueue(st: Stores, s: State, name: string)
    requires Matches(st, s) && name != DEAD_LETTER
    ensures !HoldsList(st.store, QueueKey(name))
  {
    assert QueueRepresents(st.store, s.redis, name);
  }

  lemma Inserted(st: Stores, s: State, call: CallId, id: JobId, params: CreateParams) returns (t: State)
    requires Matches(st, s) && call !in s.calls && id !in s.rows
    ensures var create := Api(Create(call, id, params)); Enabled(s, create) && t == Apply(s, create)
    ensures var job := NewJob(id, params, s.now);
      && Matches(st.(rows := st.rows[id := job]), t)
      && t.calls == (if job.status.Queued? then s.calls[call := job] else s.calls)
      && t.goroutines == s.goroutines && t.sched == s.sched && t.now == s.now
  {
    hide Represents, NewJob;
    t := Apply(s, Api(Create(call, id, params)));
  }

  lemma Requeued(st: Stores, s: State, call: CallId, id: JobId, user: UserId) returns (t: State)
    requires Matches(st, s) && call !in s.calls && id in s.rows && s.rows[id].Requeueable(user)
    ensures var requeue := Api(Requeue(call, id, user)); Enabled(s, requeue) && t == Apply(s, requeue)
    ensures var job := s.rows[id].Requeue();
      && Matches(st.(rows := st.rows[id := job]), t) && t.calls == s.calls[call := job]
      && t.goroutines == s.goroutines && t.sched == s.sched && t.now == s.now
  {
    hide Represents;
    t := Apply(s, Api(Requeue(call, id, user)));
  }

  /** An API call that wrote its row goes on to the enqueue, unless the answer of
      the statement was lost. */
  lemma CallEnds(st: Stores, s: State, call: CallId, db: Answer) returns (a: Action, t: State)
    requires Matches(st, s) && call in s.calls && !db.Refused?
    ensures Enabled(s, a) && t == Apply(s, a) && (db.Done? && s.calls[call].queue != DEAD_LETTER ==> Regular(a))
    ensures Matches(if db.Done? then st.(store := EnqueueSpec(st.store, s.calls[call], s.now).0) else st, t)
    ensures t.calls == s.calls - {call} && t.goroutines == s.goroutines && t.sched == s.sched
  {
    hide Represents, EnqueueSpec;
    if db.Done? {
      if s.calls[call].queue != DEAD_LETTER { UsableQueue(st, s, s.calls[call].queue); }
      a, t := Pushed(st, s, call);
    } else {
      a := Broken(CrashCall(call));
      t := Apply(s, a);
    }
  }

  /** `Create` is a run: the INSERT and, unless the job is scheduled, its ZADD. When
      the ZADD fails, or the INSERT does not answer, the call ends there. */
  lemma CreateIsARun(st: Stores, s: State, call: CallId, id: JobId, input: CreateInput, isJson: string -> bool, db: Answer)
    returns (run: seq<Action>, t: State)
    requires Matches(st, s) && call !in s.calls && id !in s.rows
    ensures Exec(s, run) == Some(t)
    ensures var job := NewJob(id, Normalized(input, isJson), s.now);
      Matches(if input.kind == "" || db.Refused? then st
              else st.(rows := st.rows[id := job],
                       store := if db.Done? && job.status.Queued? then EnqueueSpec(st.store, job, s.now).0 else st.store), t)
    ensures db.Done? && Normalized(input, isJson).queue != DEAD_LETTER ==> AllRegular(run)
    ensures t.calls == s.calls && t.goroutines == s.goroutines && t.sched == s.sched
  {
    hide Represents, Apply, Enabled, Exec, EnqueueSpec, Normalized;
    if input.kind == "" || db.Refused? {
      run, t := [], s;
      NothingRun(s);
    } else {
      var params := Normalized(input, isJson);
      var create := Api(Create(call, id, params));
      var job := NewJob(id, params, s.now);
      var s1 := Inserted(st, s, call, id, params);
      if job.status.Queued? {
        var a;
        a, t := CallEnds(st.(rows := st.rows[id := job]), s1, call, db);
        assert s.calls[call := job] - {call} == s.calls;
        run := [create] + [a];
        ExecOne(s1, a);
        ExecCons(s, create, [a]);
      } else {
        run, t := [create], s1;
        ExecOne(s, create);
      }
    }
  }

  /** `Retry` is a run: the guarded UPDATE and its ZADD, or the error that ends it. */
  lemma RetryIsARun(st: Stores, s: State, call: CallId, id: JobId, user: UserId, db: Answer)
    returns (run: seq<Action>, t: State)
    requires Matches(st, s) && call !in s.calls
    ensures Exec(s, run) == Some(t)
    ensures if db.Refused? || id !in s.rows || !s.rows[id].Requeueable(user) then Matches(st, t) else
      var job := s.rows[id].Requeue();
      && Matches(st.(rows := st.rows[id := job],
                     store := if db.Done? then EnqueueSpec(st.store, job, s.now).0 else st.store), t)
      && (db.Done? && job.queue != DEAD_LETTER ==> AllRegular(run))
    ensures t.calls == s.calls && t.goroutines == s.goroutines && t.sched == s.sched
  {
    hide Represents, Apply, Enabled, Exec, EnqueueSpec;
    if db.Refused? || id !in s.rows || !s.rows[id].Requeueable(user) {
      run, t := [], s;
      NothingRun(s);
    } else {
      var job := s.rows[id].Requeue();
      var requeue := Api(Requeue(call, id, user));
      var s1 := Requeued(st, s, call, id, user);
      var a;
      a, t := CallEnds(st.(rows := st.rows[id := job]), s1, call, db);
      assert s.calls[call := job] - {call} == s.calls;
      run := [requeue] + [a];
      ExecOne(s1, a);
      ExecCons(s, requeue, [a]);
    }
  }

  /** `Cancel` is a run: the guarded UPDATE, or nothing. */
  lemma CancelIsARun(st: Stores, s: State, id: JobId, user: UserId, db: Answer) returns (run: seq<Action>, t: State)
    requires Matches(st, s)
    ensures Exec(s, run) == Some(t) && AllRegular(run) && OthersKept(s, t) && t.goroutines == s.goroutines
    ensures Matches(if !db.Refused? && id in s.rows && s.rows[id].Cancellable(user)
                    then st.(rows := st.rows[id := st.rows[id].Cancel()]) else st, t)
  {
    hide Represents;
    if !db.Refused? && id in s.rows && s.rows[id].Cancellable(user) {
      run, t := [Api(Cancel(id, user))], Apply(s, Api(Cancel(id, user)));
      ExecOne(s, Api(Cancel(id, user)));
    } else {
      run, t := [], s;
    }
  }

  /** A heartbeat is a run: the registration of the pool, or nothing. */
  lemma HeartbeatIsARun(st: Stores, s: State, pool: PoolId, accepted: bool) returns (run: seq<Action>, t: State)
    requires Matches(st, s)
    ensures Exec(s, run) == Some(t) && AllRegular(run) && OthersKept(s, t) && t.goroutines == s.goroutines
    ensures Matches(st.(tallies := if accepted && pool !in st.tallies then st.tallies[pool := Tally(0, 0)] else st.tallies), t)
  {
    hide Represents;
    if accepted {
      run, t := [Heartbeat(pool)], Apply(s, Heartbeat(pool));
      ExecOne(s, Heartbeat(pool));
    } else {
      run, t := [], s;
    }
  }

  // -------------------------------------------------------- PromoteScheduled

  ghost predicate RowsNamed(s: State) { forall id :: id in s.rows ==> s.rows[id].id == id }

  /** No statement of the tick fails: Find answers, and no row is in the queue that
      shares its key with the dead-letter list. */
  ghost predicate Smooth(s: State, found: set<JobId>) {
    forall id :: id in s.rows ==> id in found && s.rows[id].queue != DEAD_LETTER
  }

  ghost predicate BatchIs(s: State, ids: seq<JobId>) {
    && s.sched.Enqueueing? && s.sched.batch.Keys == Set(ids) && Distinct(ids)
    && forall id :: id in s.sched.batch ==> id in s.rows && s.sched.batch[id] == s.rows[id]
  }

  ghost predicate OnlyStoreMoved(s: State, t: State) {
    t.rows == s.rows && t.goroutines == s.goroutines && t.calls == s.calls && t.now == s.now && t.tallies == s.tallies
  }

  lemma SetOfRest(ids: seq<JobId>)
    requires ids != [] && Distinct(ids)
    ensures Set(ids[1..]) == Set(ids) - {ids[0]} && Distinct(ids[1..]) && ids[0] in Set(ids)
  {
    SetOfCons(ids);
  }

  lemma BatchPushed(st: Stores, s: State, ids: seq<JobId>) returns (t: State)
    requires Matches(st, s) && RowsNamed(s) && BatchIs(s, ids) && ids != []
    requires ids[0] in s.rows && !HoldsList(st.store, QueueKey(s.rows[ids[0]].queue))
    ensures Enabled(s, Sched(BatchPush(ids[0]))) && t == Apply(s, Sched(BatchPush(ids[0])))
    ensures EnqueueSpec(st.store, s.rows[ids[0]], s.now).1.Ok?
    ensures Matches(st.(store := EnqueueSpec(st.store, s.rows[ids[0]], s.now).0), t) && BatchIs(t, ids[1..])
    ensures OnlyStoreMoved(s, t) && t.redis.retries == s.redis.retries
  {
    SetOfRest(ids);
    EnqueueRepresents(st.store, s.redis, s.rows[ids[0]], s.now);
    hide Represents, PriorityScore;
    t := Apply(s, Sched(BatchPush(ids[0])));
  }

  lemma FirstOfBatch(s: State, ids: seq<JobId>)
    requires BatchIs(s, ids) && ids != []
    ensures ids[0] in s.rows
    ensures RowsOf(s.rows, ids) == [s.rows[ids[0]]] + RowsOf(s.rows, ids[1..])
  {
    SetOfRest(ids);
  }

  /** The batch is enqueued up to the first error. */
  lemma {:induction false} BatchIsARun(st: Stores, s: State, ids: seq<JobId>) returns (run: seq<Action>, t: State)
    requires Matches(st, s) && RowsNamed(s) && BatchIs(s, ids)
    ensures var pushed := PushAll(st.store, RowsOf(s.rows, ids), s.now);
      && Exec(s, run) == Some(t) && Matches(st.(store := pushed.0), t)
      && (pushed.1.Ok? ==> t.sched == Enqueueing(map[]))
      && (!(forall id :: id in s.rows ==> s.rows[id].queue != DEAD_LETTER) || pushed.1.Ok?)
    ensures AllRegular(run) && OnlyStoreMoved(s, t) && t.redis.retries == s.redis.retries
    decreases |ids|
  {
    hide Represents, Enabled, Apply, RowsOf, EnqueueSpec;
    if ids == [] {
      run, t := [], s;
      assert s.sched.batch == map[];
      assert RowsOf(s.rows, ids) == [] by { NoRowsOfNothing(s.rows); }
    } else {
      FirstOfBatch(s, ids);
      var job := s.rows[ids[0]];
      if HoldsList(st.store, QueueKey(job.queue)) {
        run, t := [], s;
        if job.queue != DEAD_LETTER { UsableQueue(st, s, job.queue); }
        EnqueueRefused(st.store, job, s.now);
      } else {
        var s1 := BatchPushed(st, s, ids);
        var st1 := st.(store := EnqueueSpec(st.store, job, s.now).0);
        var more;
        more, t := BatchIsARun(st1, s1, ids[1..]);
        run := [Sched(BatchPush(ids[0]))] + more;
        ExecCons(s, Sched(BatchPush(ids[0])), more);
      }
    }
  }

  lemma EnqueueRefused(store: Store, job: Job, now: Time)
    requires HoldsList(store, QueueKey(job.queue))
    ensures EnqueueSpec(store, job, now) == (store, Err(WrongType))
  {
  }

  ghost predicate DueIs(s: State, ids: seq<JobId>) {
    s.sched == Promoting(Set(ids)) && Distinct(ids)
  }

  /** Fetch and enqueue of one retry. An error of either is ignored: to the state
      machine, the enqueue was lost. */
  lemma RetryFetched(st: Stores, s: State, ids: seq<JobId>, found: set<JobId>) returns (run: seq<Action>, t: State)
    requires Matches(st, s) && RowsNamed(s) && DueIs(s, ids) && ids != []
    ensures var id := ids[0];
      && Exec(s, run) == Some(t) && OnlyStoreMoved(s, t) && t.sched == Removing(Set(ids[1..]), id, s.writes)
      && Represents(if id in Seen(s.rows, found) then EnqueueSpec(st.store, s.rows[id], s.now).0 else st.store, t.redis)
      && (Smooth(s, found) ==> AllRegular(run))
  {
    hide Represents, Apply, Enabled, Exec, EnqueueSpec, Enqueue;
    SetOfRest(ids);
    var id := ids[0];
    if id !in s.rows {
      t := FetchedNothing(s, ids);
      run := [Sched(Fetch(id))];
      ExecOne(s, Sched(Fetch(id)));
    } else {
      var s1, s2 := FetchedAndPushed(s, ids);
      run := [Sched(Fetch(id))] + [Sched(RetryPush)];
      TwoSteps(s, Sched(Fetch(id)), Sched(RetryPush));
      if id in found && !HoldsList(st.store, QueueKey(s.rows[id].queue)) {
        t := s2;
        EnqueueRepresents(st.store, s.redis, s.rows[id], s.now);
      } else {
        if s.rows[id].queue != DEAD_LETTER { UsableQueue(st, s, s.rows[id].queue); }
        EnqueueUnseen(st.store, s.rows[id], s.now);
        t := Undone(s2, s.redis);
        ExecOne(s2, Broken(Corrupt(s.redis)));
        ExecAppend(s, run, [Broken(Corrupt(s.redis))]);
        run := run + [Broken(Corrupt(s.redis))];
      }
    }
  }

  lemma EnqueueUnseen(store: Store, job: Job, now: Time)
    ensures HoldsList(store, QueueKey(job.queue)) ==> EnqueueSpec(store, job, now).0 == store
  {
  }

  lemma FetchedNothing(s: State, ids: seq<JobId>) returns (t: State)
    requires DueIs(s, ids) && ids != [] && ids[0] !in s.rows
    ensures Enabled(s, Sched(Fetch(ids[0]))) && t == Apply(s, Sched(Fetch(ids[0])))
    ensures t == s.(sched := Removing(Set(ids[1..]), ids[0], s.writes))
  {
    SetOfRest(ids);
    t := Apply(s, Sched(Fetch(ids[0])));
  }

  lemma FetchedAndPushed(s: State, ids: seq<JobId>) returns (s1: State, t: State)
    requires RowsNamed(s) && DueIs(s, ids) && ids != [] && ids[0] in s.rows
    ensures Enabled(s, Sched(Fetch(ids[0]))) && s1 == Apply(s, Sched(Fetch(ids[0])))
    ensures Enabled(s1, Sched(RetryPush)) && t == Apply(s1, Sched(RetryPush))
    ensures t == s.(redis := Enqueue(s.redis, s.rows[ids[0]], s.now), sched := Removing(Set(ids[1..]), ids[0], s.writes))
  {
    hide Enqueue;
    SetOfRest(ids);
    s1 := Apply(s, Sched(Fetch(ids[0])));
    t := Apply(s1, Sched(RetryPush));
  }

  lemma Undone(s: State, redis: Redis) returns (t: State)
    ensures Enabled(s, Broken(Corrupt(redis))) && t == Apply(s, Broken(Corrupt(redis))) && t == s.(redis := redis)
  {
    t := Apply(s, Broken(Corrupt(redis)));
  }

  lemma TwoSteps(s: State, a: Action, b: Action)
    requires Enabled(s, a) && Enabled(Apply(s, a), b)
    ensures Exec(s, [a] + [b]) == Some(Apply(Apply(s, a), b))
  {
    hide Enabled, Apply, Exec;
    ExecOne(Apply(s, a), b);
    ExecCons(s, a, [b]);
  }

  lemma RetryTaken(store: Store, s: State) returns (t: State)
    requires Represents(store, s.redis) && s.sched.Removing?
    ensures Enabled(s, Sched(RetryRemove)) && t == Apply(s, Sched(RetryRemove))
    ensures OnlyStoreMoved(s, t) && t.sched == Promoting(s.sched.due) && !HoldsList(store, RETRIES_KEY)
    ensures Represents(PutSorted(store, RETRIES_KEY, SortedAt(store, RETRIES_KEY) - {s.sched.id}), t.redis)
  {
    t := Apply(s, Sched(RetryRemove));
    var z := SortedAt(store, RETRIES_KEY) - {s.sched.id};
    assert z == Scores(s.redis.retries - {s.sched.id});
    RetriesRepresent(store, s.redis, s.redis.retries - {s.sched.id}, z);
  }

  lemma RetryPromoted(st: Stores, s: State, ids: seq<JobId>, found: set<JobId>) returns (run: seq<Action>, t: State)
    requires Matches(st, s) && RowsNamed(s) && DueIs(s, ids) && ids != []
    ensures Exec(s, run) == Some(t) && OnlyStoreMoved(s, t) && DueIs(t, ids[1..])
    ensures Matches(st.(store := PromotedRetry(Seen(st.rows, found), st.store, ids[0], s.now)), t)
    ensures Smooth(s, found) ==> AllRegular(run)
  {
    hide Represents, Apply, Enabled, Exec, EnqueueSpec;
    SetOfRest(ids);
    var first, s2 := RetryFetched(st, s, ids, found);
    t := RetryTaken(if ids[0] in Seen(s.rows, found) then EnqueueSpec(st.store, s.rows[ids[0]], s.now).0 else st.store, s2);
    run := first + [Sched(RetryRemove)];
    ExecOne(s2, Sched(RetryRemove));
    ExecAppend(s, first, [Sched(RetryRemove)]);
  }

  lemma {:induction false} RetriesAreARun(st: Stores, s: State, ids: seq<JobId>, found: set<JobId>)
    returns (run: seq<Action>, t: State)
    requires Matches(st, s) && RowsNamed(s) && DueIs(s, ids)
    ensures Exec(s, run) == Some(t) && OnlyStoreMoved(s, t) && t.sched == Promoting({})
    ensures Matches(st.(store := PromotedRetries(Seen(st.rows, found), st.store, ids, s.now)), t)
    ensures Smooth(s, found) ==> AllRegular(run)
    decreases |ids|
  {
    hide Represents, Enabled, Apply, PromotedRetry;
    if ids == [] {
      run, t := [], s;
    } else {
      var first, s1 := RetryPromoted(st, s, ids, found);
      var more;
      more, t := RetriesAreARun(st.(store := PromotedRetry(Seen(st.rows, found), st.store, ids[0], s.now)), s1, ids[1..], found);
      run := first + more;
      ExecAppend(s, first, more);
    }
  }

  /** The order of the scan names every due retry once. */
  lemma DueIdsAreDue(store: Store, r: Redis, now: Time)
    requires Represents(store, r)
    ensures Set(DueIds(store, now)) == DueRetries(r.retries, now) && Distinct(DueIds(store, now))
  {
    var due := DueEntries(SortedAt(store, RETRIES_KEY), now);
    var ids := DueIds(store, now);
    forall id ensures id in Set(ids) <==> id in DueRetries(r.retries, now) { InOrderMembers(due, id); }
    forall i, j | 0 <= i < j < |ids| ensures ids[i] != ids[j] { InOrderIsOrdered(due, i, j); }
  }

  lemma Scanned(s: State, chosen: seq<JobId>) returns (t: State)
    requires s.sched.Resting? && ReadyBatch(s.rows, s.now, Set(chosen)) && Distinct(chosen)
    ensures Enabled(s, Sched(Scan(Set(chosen)))) && t == Apply(s, Sched(Scan(Set(chosen))))
    ensures t == s.(rows := PromoteRows(s.rows, Set(chosen)), sched := t.sched) && BatchIs(t, chosen)
  {
    t := Apply(s, Sched(Scan(Set(chosen))));
  }

  lemma ScanKeeps(s: State, chosen: seq<JobId>, found: set<JobId>, t: State)
    requires RowsNamed(s) && t.rows == PromoteRows(s.rows, Set(chosen))
    ensures RowsNamed(t) && (Smooth(s, found) ==> Smooth(t, found))
  {
  }

  lemma Ranged(s: State, ids: seq<JobId>) returns (t: State)
    requires s.sched == Enqueueing(map[]) && Set(ids) == DueRetries(s.redis.retries, s.now) && Distinct(ids)
    ensures Enabled(s, Sched(Range)) && t == Apply(s, Sched(Range))
    ensures t == s.(sched := Promoting(Set(ids))) && DueIs(t, ids)
  {
    t := Apply(s, Sched(Range));
  }

  lemma Rested(s: State, a: Action) returns (t: State)
    requires a == Broken(CrashScheduler) || (a == Sched(Rest) && s.sched == Promoting({}))
    ensures Enabled(s, a) && t == Apply(s, a) && t == s.(sched := Resting)
  {
    t := Apply(s, a);
  }

  /** PromoteRetries is a run of the scheduler. */
  lemma RetriesPassIsARun(st: Stores, s: State, found: set<JobId>) returns (run: seq<Action>, t: State)
    requires Matches(st, s) && RowsNamed(s) && s.sched == Enqueueing(map[])
    ensures Exec(s, run) == Some(t) && OnlyStoreMoved(s, t) && t.sched == Resting
    ensures Matches(st.(store := RetriesPass(Seen(st.rows, found), st.store, s.now)), t)
    ensures Smooth(s, found) ==> AllRegular(run)
  {
    DueIdsAreDue(st.store, s.redis, s.now);
    assert !HoldsList(st.store, RETRIES_KEY);
    hide Represents, Apply, Enabled, Exec, DueIds, DueIs;
    var ids := DueIds(st.store, s.now);
    var s1 := Ranged(s, ids);
    var retries, s2 := RetriesAreARun(st, s1, ids, found);
    t := Rested(s2, Sched(Rest));
    run := [Sched(Range)] + (retries + [Sched(Rest)]);
    ExecOne(s2, Sched(Rest));
    ExecAppend(s1, retries, [Sched(Rest)]);
    ExecCons(s, Sched(Range), retries + [Sched(Rest)]);
  }

  /** `PromoteScheduled` is a run of the scheduler, from rest to rest: the scan, the
      batch, and the retries one by one; or the scan, the batch up to an enqueue
      error, and the end of the tick; or a scan without an answer. */
  lemma TickIsARun(st: Stores, s: State, chosen: seq<JobId>, db: Answer, found: set<JobId>)
    returns (run: seq<Action>, t: State)
    requires Matches(st, s) && RowsNamed(s) && s.sched.Resting?
    requires ReadyBatch(s.rows, s.now, Set(chosen)) && Distinct(chosen)
    ensures Exec(s, run) == Some(t)
    ensures var rows := PromoteRows(s.rows, Set(chosen)); var pushed := PushAll(st.store, RowsOf(rows, chosen), s.now);
      Matches(if db.Refused? then st
              else if db.Unanswered? then st.(rows := rows)
              else Stores(rows, if pushed.1.Err? then pushed.0 else RetriesPass(Seen(rows, found), pushed.0, s.now), st.tallies), t)
    ensures db.Done? && Smooth(s, found) ==> AllRegular(run)
    ensures t.sched.Resting? && t.goroutines == s.goroutines && t.calls == s.calls
  {
    hide Represents, ReadyBatch, Apply, Enabled, Exec, PromoteRows, BatchIs, RetriesPass;
    if db.Refused? {
      run, t := [], s;
      NothingRun(s);
    } else {
      var s1 := Scanned(s, chosen);
      ScanKeeps(s, chosen, found, s1);
      var st1 := st.(rows := s1.rows);
      var rest;
      if db.Unanswered? {
        t := Rested(s1, Broken(CrashScheduler));
        rest := [Broken(CrashScheduler)];
        ExecOne(s1, Broken(CrashScheduler));
      } else {
        rest, t := AfterScan(st1, s1, chosen, found);
      }
      run := [Sched(Scan(Set(chosen)))] + rest;
      ExecCons(s, Sched(Scan(Set(chosen))), rest);
    }
  }

  lemma AfterScan(st: Stores, s: State, chosen: seq<JobId>, found: set<JobId>) returns (run: seq<Action>, t: State)
    requires Matches(st, s) && RowsNamed(s) && BatchIs(s, chosen)
    ensures Exec(s, run) == Some(t)
    ensures var pushed := PushAll(st.store, RowsOf(s.rows, chosen), s.now);
      Matches(st.(store := if pushed.1.Err? then pushed.0 else RetriesPass(Seen(s.rows, found), pushed.0, s.now)), t)
    ensures Smooth(s, found) ==> AllRegular(run)
    ensures t.sched.Resting? && t.goroutines == s.goroutines && t.calls == s.calls
  {
    hide Represents, Apply, Enabled, Exec, BatchIs, RetriesPass;
    var batch, s1 := BatchIsARun(st, s, chosen);
    var pushed := PushAll(st.store, RowsOf(s.rows, chosen), s.now);
    var rest;
    if pushed.1.Err? {
      t := Rested(s1, Broken(CrashScheduler));
      rest := [Broken(CrashScheduler)];
      ExecOne(s1, Broken(CrashScheduler));
    } else {
      rest, t := RetriesPassIsARun(st.(store := pushed.0), s1, found);
    }
    run := batch + rest;
    ExecAppend(s, batch, rest);
  }

  lemma NothingRun(s: State)
    ensures Exec(s, []) == Some(s)
  {
  }
}
