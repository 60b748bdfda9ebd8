/** Every job finishes: as long as one has not, some party can move it after
    waiting, and `Progress` bounds the number of moves. */
module Completion {
  import opened Prelude
  import opened Sums
  import opened Timing
  import opened Jobs
  import opened Protocol
  import opened DatabaseSafety
  import opened Tokens
  import opened TokenPlaces
  import opened LossWindow
  import opened Progress

  /** Some goroutine polls the queue. */
  ghost predicate Heard(s: State, queue: string) { exists w :: w in s.goroutines && queue in s.listen(w) }

  /** Goroutines poll positions of their lists, and every queue in use is polled. */
  ghost predicate Attentive(s: State) { Polls(s) && forall id :: id in s.rows ==> Heard(s, s.rows[id].queue) }

  ghost predicate Polls(s: State) {
    forall w :: w in s.goroutines ==>
      |s.listen(w)| > 0 && (s.goroutines[w].pc.Polling? ==> s.goroutines[w].pc.at < |s.listen(w)|)
  }

  ghost predicate Ready(s: State) { TokenInv(s) && Boundary(s) && Attentive(s) }

  /** No action of a user: only time, the scheduler, the goroutines and the
      pending enqueues of API calls. */
  predicate Autonomous(a: Action) { a.Tick? || a.Sched? || a.Work? || (a.Api? && a.api.Push?) }

  ghost predicate AllAutonomous(run: seq<Action>) { forall i :: 0 <= i < |run| ==> Autonomous(run[i]) }

  // How the execution of a job that is its n-th attempt ends.
  type Policy = (JobId, nat) -> Result<(), string>

  ghost predicate StepObeys(p: Policy, s: State, a: Action) {
    (a.Work? && a.w in s.goroutines && s.goroutines[a.w].pc.Executing? && s.goroutines[a.w].pc.id in s.rows) ==>
      var id := s.goroutines[a.w].pc.id;
      && (a.work.MarkCompleted? ==> p(id, s.rows[id].attempts).Ok?)
      && (a.work.MarkFailed? ==> p(id, s.rows[id].attempts) == Err(a.work.message))
  }

  /** Every execution of the run ends as the processor decided. */
  ghost predicate Obeys(p: Policy, s: State, run: seq<Action>)
    decreases |run|
  {
    run != [] && Enabled(s, run[0]) ==> StepObeys(p, s, run[0]) && Obeys(p, Apply(s, run[0]), run[1..])
  }

  lemma {:induction false} ObeysAppend(p: Policy, s: State, run: seq<Action>, more: seq<Action>)
    requires Exec(s, run).Some? && Obeys(p, s, run) && Obeys(p, Exec(s, run).value, more)
    ensures Obeys(p, s, run + more)
    decreases |run|
  {
    hide Enabled, Apply, StepObeys;
    if run == [] {
      assert run + more == more;
    } else {
      assert (run + more)[1..] == run[1..] + more;
      ObeysAppend(p, Apply(s, run[0]), run[1..], more);
    }
  }

  lemma {:induction false} OthersObey(p: Policy, s: State, run: seq<Action>)
    requires forall i :: 0 <= i < |run| ==> !run[i].Work?
    ensures Obeys(p, s, run)
    decreases |run|
  {
    hide Enabled, Apply;
    if run != [] && Enabled(s, run[0]) { OthersObey(p, Apply(s, run[0]), run[1..]); }
  }

  lemma OneObeys(p: Policy, s: State, a: Action)
    requires StepObeys(p, s, a)
    ensures Obeys(p, s, [a])
  {
    hide Enabled, Apply, StepObeys;
    assert [a][1..] == [];
  }

  /** Every job is completed, cancelled or dead, those lost apart. */
  ghost predicate Settled(s: State) {
    forall id :: id in s.rows ==> s.rows[id].Finished() || id in s.lost
  }

  ghost predicate Reaches(p: Policy, s: State, run: seq<Action>, t: State) {
    && AllAutonomous(run) && Exec(s, run) == Some(t) && Obeys(p, s, run) && Ready(t)
    && t.goroutines.Keys == s.goroutines.Keys && t.rows.Keys == s.rows.Keys && t.lost == s.lost
    && WorkLeft(t) + Moved(run) <= WorkLeft(s)
  }

  lemma {:induction false} MovedAppend(run: seq<Action>, more: seq<Action>)
    ensures Moved(run + more) == Moved(run) + Moved(more)
    decreases |run|
  {
    if run == [] {
      assert run + more == more;
    } else {
      assert (run + more)[1..] == run[1..] + more;
      MovedAppend(run[1..], more);
    }
  }

  lemma ReachesThen(p: Policy, s: State, run: seq<Action>, t: State, more: seq<Action>, u: State)
    requires Reaches(p, s, run, t) && Reaches(p, t, more, u)
    ensures Reaches(p, s, run + more, u) && Moved(run + more) == Moved(run) + Moved(more)
  {
    hide Exec, WorkLeft, Ready, Moved, Obeys;
    ExecAppend(s, run, more);
    ObeysAppend(p, s, run, more);
    MovedAppend(run, more);
  }

  lemma WorkKeepsPolls(s: State, w: WorkerId, a: WorkStep)
    requires Polls(s) && WorkEnabled(s, w, a)
    ensures NextPc(s, w, a).Polling? ==> NextPc(s, w, a).at < |s.listen(w)|
  {
  }

  lemma StepKeepsPolls(s: State, a: Action)
    requires Polls(s) && Enabled(s, a) && Regular(a)
    ensures Polls(Apply(s, a)) && Apply(s, a).goroutines.Keys == s.goroutines.Keys && Apply(s, a).listen == s.listen
  {
    hide ApplyApi, ApplySched, ApplyWork, ApiEnabled, SchedEnabled, NextPc;
    match a
    case Api(api) => ApiFrame(s, api);
    case Sched(step) => SchedFrame(s, step);
    case Work(w, work) => WorkFrame(s, w, work); WorkKeepsPolls(s, w, work);
    case _ =>
  }

  lemma StepKeepsAttention(s: State, a: Action)
    requires Safe(s) && Attentive(s) && Enabled(s, a) && Regular(a) && !AddsWork(a)
    ensures Attentive(Apply(s, a)) && Apply(s, a).goroutines.Keys == s.goroutines.Keys
    ensures Apply(s, a).rows.Keys == s.rows.Keys
  {
    hide Apply, Enabled, Safe, Polls, Heard;
    var t := Apply(s, a);
    StepKeepsPolls(s, a);
    RowsKeepIdentity(s, a);
    StepKeys(s, a);
    forall id | id in t.rows ensures Heard(t, t.rows[id].queue) { HeardStill(s, t, s.rows[id].queue); }
  }

  lemma HeardStill(s: State, t: State, queue: string)
    requires Heard(s, queue) && t.goroutines.Keys == s.goroutines.Keys && t.listen == s.listen
    ensures Heard(t, queue)
  {
  }

  lemma ReachesOne(p: Policy, s: State, a: Action)
    requires Ready(s) && Enabled(s, a) && Autonomous(a) && CoarseRegular(One(a)) && StepObeys(p, s, a)
    ensures Reaches(p, s, [a], Apply(s, a)) && Moved([a]) == MoveCount(a)
  {
    hide Enabled, Apply, TokenInv, WorkLeft, StepObeys, Obeys;
    OneObeys(p, s, a);
    StepKeepsTokens(s, a);
    OneKeepsBoundary(s, a);
    StepKeepsAttention(s, a) by { assert TokenInv(s); SafeOf(s); }
    StepUsesWork(s, a);
    ExecOne(s, a);
    assert [a][1..] == [];
    assert Moved([a]) == MoveCount(a) + Moved([a][1..]);
  }

  lemma SafeOf(s: State)
    requires TokenInv(s)
    ensures Safe(s)
  {
  }

  lemma PromotionMoves(id: JobId)
    ensures Moved(Expand(PromoteOne(id))) == 1 && AllAutonomous(Expand(PromoteOne(id)))
  {
    var run := Expand(PromoteOne(id));
    assert run[1..] == [Sched(RetryPush), Sched(RetryRemove)];
    assert run[1..][1..] == [Sched(RetryRemove)];
    assert run[1..][1..][1..] == [];
    assert Moved(run[1..][1..]) == 0 + Moved(run[1..][1..][1..]);
    assert Moved(run[1..]) == 1 + Moved(run[1..][1..]);
    assert Moved(run) == Moved(run[1..]);
  }

  lemma IterationKeeps(s: State, id: JobId, t1: State, t2: State, t: State)
    requires TokenInv(s) && Attentive(s) && SchedEnabled(s, Fetch(id)) && t1 == ApplySched(s, Fetch(id))
    requires SchedEnabled(t1, RetryPush) && t2 == ApplySched(t1, RetryPush)
    requires SchedEnabled(t2, RetryRemove) && t == ApplySched(t2, RetryRemove)
    ensures TokenInv(t) && Attentive(t) && t.goroutines.Keys == s.goroutines.Keys && t.rows.Keys == s.rows.Keys
    ensures WorkLeft(t) + 1 <= WorkLeft(s)
  {
    hide ApplySched, SchedEnabled, TokenInv, Attentive, WorkLeft;
    PromoteKeeps(s, Sched(Fetch(id)), t1);
    PromoteKeeps(t1, Sched(RetryPush), t2);
    PromoteKeeps(t2, Sched(RetryRemove), t);
  }

  /** One retry, promoted in one go. */
  lemma ReachesPromoted(p: Policy, s: State, id: JobId) returns (t: State)
    requires Ready(s) && SchedEnabled(s, Fetch(id))
    ensures Reaches(p, s, Expand(PromoteOne(id)), t) && Moved(Expand(PromoteOne(id))) > 0
  {
    hide ApplySched, SchedEnabled, TokenInv, Attentive, WorkLeft, Exec, Moved, AllAutonomous, Obeys;
    OthersObey(p, s, Expand(PromoteOne(id)));
    PromoteOneKeepsAll(s, id);
    ExecPromoteOne(s, id);
    PromotionMoves(id);
    var t1 := ApplySched(s, Fetch(id));
    var t2 := ApplySched(t1, RetryPush);
    t := ApplySched(t2, RetryRemove);
    IterationKeeps(s, id, t1, t2, t);
  }

  lemma PromoteKeeps(s: State, a: Action, t: State)
    requires TokenInv(s) && Attentive(s) && Enabled(s, a) && a.Sched? && t == Apply(s, a)
    ensures TokenInv(t) && Attentive(t) && t.goroutines.Keys == s.goroutines.Keys && t.rows.Keys == s.rows.Keys
    ensures WorkLeft(t) + MoveCount(a) <= WorkLeft(s)
  {
    StepKeepsTokens(s, a);
    StepKeepsAttention(s, a);
    StepUsesWork(s, a);
  }

  // --------------------------------------------------- what can move next

  lemma PopNow(p: Policy, s: State, w: WorkerId) returns (run: seq<Action>, t: State)
    requires Ready(s) && w in s.goroutines && s.goroutines[w].pc.Polling?
    requires Members(s.redis, s.listen(w)[s.goroutines[w].pc.at]) != map[]
    ensures Reaches(p, s, run, t) && Moved(run) > 0
  {
    hide Exec, WorkLeft, TokenInv;
    LeastExists(Members(s.redis, s.listen(w)[s.goroutines[w].pc.at]));
    var id :| IsMin(Members(s.redis, s.listen(w)[s.goroutines[w].pc.at]), id);
    run, t := [Work(w, Pop(id))], Apply(s, Work(w, Pop(id)));
    ReachesOne(p, s, Work(w, Pop(id)));
  }

  // Polls until position `k` comes up.
  function Ahead(at: nat, k: nat, n: nat): nat
    requires at < n && k < n
  {
    if at <= k then k - at else k + n - at
  }

  lemma AheadStep(at: nat, k: nat, n: nat)
    requires at < n && k < n && at != k
    ensures (at + 1) % n < n && Ahead((at + 1) % n, k, n) < Ahead(at, k, n)
  {
    if at + 1 < n { assert (at + 1) % n == at + 1; }
  }

  lemma PollOn(p: Policy, s: State, w: WorkerId) returns (t: State)
    requires Ready(s) && w in s.goroutines && s.goroutines[w].pc.Polling?
    requires Members(s.redis, s.listen(w)[s.goroutines[w].pc.at]) == map[]
    ensures Reaches(p, s, [Work(w, PollEmpty)], t) && t.redis == s.redis && t.listen == s.listen
    ensures w in t.goroutines && t.goroutines[w].pc == Polling((s.goroutines[w].pc.at + 1) % |s.listen(w)|)
  {
    hide Exec, WorkLeft, TokenInv;
    t := Apply(s, Work(w, PollEmpty));
    ReachesOne(p, s, Work(w, PollEmpty));
  }

  /** Polling round reaches a queue that is not empty. */
  lemma {:induction false} PollUntilPop(p: Policy, s: State, w: WorkerId, k: nat) returns (run: seq<Action>, t: State)
    requires Ready(s) && w in s.goroutines && s.goroutines[w].pc.Polling?
    requires k < |s.listen(w)| && Members(s.redis, s.listen(w)[k]) != map[]
    ensures Reaches(p, s, run, t) && Moved(run) > 0
    decreases Ahead(s.goroutines[w].pc.at, k, |s.listen(w)|)
  {
    hide Exec, WorkLeft, TokenInv, Reaches, Moved, Ahead;
    var at := s.goroutines[w].pc.at;
    if Members(s.redis, s.listen(w)[at]) != map[] {
      run, t := PopNow(p, s, w);
    } else {
      AheadStep(at, k, |s.listen(w)|);
      var s1 := PollOn(p, s, w);
      ReachesReady(p, s, [Work(w, PollEmpty)], s1);
      var more;
      more, t := PollUntilPop(p, s1, w, k);
      run := [Work(w, PollEmpty)] + more;
      ReachesThen(p, s, [Work(w, PollEmpty)], s1, more, t);
    }
  }

  /** A goroutine that is not polling can always take its next step, whatever the
      processor decided. */
  lemma GoroutineMoves(p: Policy, s: State, w: WorkerId) returns (a: Action)
    requires w in s.goroutines && !s.goroutines[w].pc.Polling?
    ensures Enabled(s, a) && a.Work? && Moves(a) && StepObeys(p, s, a)
  {
    match s.goroutines[w].pc {
      case Popped(id) => a := Work(w, MarkRunning);
      case Executing(id) =>
        var outcome := if id in s.rows then p(id, s.rows[id].attempts) else Ok(());
        a := Work(w, if outcome.Ok? then MarkCompleted else MarkFailed(outcome.error));
      case ReAdding(job) => a := Work(w, ReAdd);
      case Burying(job) => a := Work(w, Bury);
      case _ => a := Work(w, Count);
    }
  }

  ghost predicate Quiet(s: State) {
    && (forall w :: w in s.goroutines ==> s.goroutines[w].pc.Polling?)
    && s.calls == map[]
    && (forall q :: q in s.redis.queues ==> s.redis.queues[q] == map[])
  }

  // --------------------------------------------------- waking the scheduler

  lemma {:induction false} LatestSchedule(rows: map<JobId, Job>) returns (d: Time)
    ensures forall id :: id in rows && rows[id].scheduledAt.Some? ==> rows[id].scheduledAt.value <= d
    decreases |rows|
  {
    if rows == map[] {
      d := 0;
    } else {
      var id :| id in rows;
      d := LatestSchedule(rows - {id});
      var at := if rows[id].scheduledAt.Some? then rows[id].scheduledAt.value else d;
      assert forall i :: i in rows ==> i == id || i in rows - {id};
      d := Max(d, at);
    }
  }

  lemma {:induction false} LatestRetry(retries: map<JobId, Entry>) returns (d: int)
    ensures forall id :: id in retries ==> retries[id].score <= d
    decreases |retries|
  {
    if retries == map[] {
      d := 0;
    } else {
      var id :| id in retries;
      d := LatestRetry(retries - {id});
      assert forall i :: i in retries ==> i == id || i in retries - {id};
      d := Max(d, retries[id].score);
    }
  }

  /** A result of ReadyScheduled exists: the k earliest of the due rows. */
  lemma {:induction false} EarliestExists(rows: map<JobId, Job>, due: set<JobId>, k: nat) returns (batch: set<JobId>)
    requires forall id :: id in due ==> id in rows && rows[id].scheduledAt.Some?
    ensures batch <= due && |batch| <= k
    ensures forall id :: id in due && id !in batch ==>
      |batch| == k && forall b :: b in batch ==> rows[b].scheduledAt.value <= rows[id].scheduledAt.value
    ensures k > 0 && due != {} ==> batch != {}
    decreases k
  {
    if k == 0 || due == {} {
      batch := {};
    } else {
      var first := FirstDue(rows, due);
      var rest := EarliestExists(rows, due - {first}, k - 1);
      batch := rest + {first};
    }
  }

  lemma {:induction false} FirstDue(rows: map<JobId, Job>, due: set<JobId>) returns (first: JobId)
    requires due != {} && forall id :: id in due ==> id in rows && rows[id].scheduledAt.Some?
    ensures first in due && forall id :: id in due ==> rows[first].scheduledAt.value <= rows[id].scheduledAt.value
    decreases |due|
  {
    first :| first in due;
    if due != {first} {
      var other := FirstDue(rows, due - {first});
      if rows[other].scheduledAt.value < rows[first].scheduledAt.value { first := other; }
    }
  }

  lemma BatchExists(s: State) returns (batch: set<JobId>)
    ensures ReadyBatch(s.rows, s.now, batch)
    ensures batch == {} ==> forall id :: id in s.rows ==> !s.rows[id].Due(s.now)
  {
    var due := set id | id in s.rows && s.rows[id].Due(s.now);
    batch := EarliestExists(s.rows, due, BATCH_LIMIT);
  }

  /** In a quiet state an unfinished job that is not scheduled waits for its retry. */
  lemma SomeRetryWaits(s: State)
    requires TokenInv(s) && Quiet(s) && !s.sched.Enqueueing? && Boundary(s) && !Settled(s)
    requires forall id :: id in s.rows ==> !s.rows[id].status.Scheduled?
    ensures s.redis.retries != map[]
  {
    var id :| id in s.rows && !s.rows[id].Finished() && id !in s.lost;
    assert LiveOk(s, id) && Coherent(s.rows[id], s.hist[id].requeues, s.now);
    SumZero(s.goroutines, Holds(id));
    SumZero(s.calls, CallHolds(id));
    SumZero(s.redis.queues, QueueHolds(id));
    assert InRetries(s, id);
  }

  lemma PromotingAdvances(p: Policy, s: State) returns (run: seq<Action>, t: State)
    requires Ready(s) && s.sched.Promoting? && s.sched.due != {}
    ensures Reaches(p, s, run, t) && Moved(run) > 0
  {
    var id :| id in s.sched.due;
    run := Expand(PromoteOne(id));
    t := ReachesPromoted(p, s, id);
  }

  lemma ScannedNothing(p: Policy, s: State, scanned: State) returns (run: seq<Action>, t: State)
    requires Ready(s) && Quiet(s) && !Settled(s) && s.sched.Resting?
    requires forall id :: id in s.rows ==> !s.rows[id].status.Scheduled?
    requires forall id :: id in s.redis.retries ==> s.redis.retries[id].score <= Unix(s.now)
    requires Ready(scanned) && scanned == s.(sched := Enqueueing(map[]))
    ensures Reaches(p, scanned, run, t) && Moved(run) > 0
  {
    hide Exec, WorkLeft, Live, Placed, Tracked, Safe;
    var t1 := Apply(scanned, Sched(Range));
    ReachesOne(p, scanned, Sched(Range));
    SomeRetryWaits(s);
    var id :| id in s.redis.retries;
    assert id in t1.sched.due;
    var more;
    more, t := PromotingAdvances(p, t1);
    ReachesThen(p, scanned, [Sched(Range)], t1, more, t);
    run := [Sched(Range)] + more;
  }

  /** After a long wait everything scheduled is due and every retry is ripe. */
  lemma RestingAdvances(p: Policy, s: State) returns (run: seq<Action>, t: State)
    requires Ready(s) && s.sched.Resting? && Quiet(s) && !Settled(s)
    ensures Reaches(p, s, run, t) && Moved(run) > 0
  {
    hide Exec, WorkLeft, TokenInv;
    var d1 := LatestSchedule(s.rows);
    var d2 := LatestRetry(s.redis.retries);
    var d := Max(0, Max(d1 - s.now, (d2 + 1) * SECOND - s.now));
    var s1 := Apply(s, Tick(d));
    assert s1 == s.(now := s.now + d);
    ReachesOne(p, s, Tick(d));
    assert s1.now >= d1 && Unix(s1.now) >= d2;
    var more;
    more, t := DueAdvances(p, s1);
    ReachesThen(p, s, [Tick(d)], s1, more, t);
    run := [Tick(d)] + more;
  }

  lemma DueAdvances(p: Policy, s: State) returns (run: seq<Action>, t: State)
    requires Ready(s) && s.sched.Resting? && Quiet(s) && !Settled(s)
    requires forall id :: id in s.rows && s.rows[id].scheduledAt.Some? ==> s.rows[id].scheduledAt.value <= s.now
    requires forall id :: id in s.redis.retries ==> s.redis.retries[id].score <= Unix(s.now)
    ensures Reaches(p, s, run, t) && Moved(run) > 0
  {
    hide Exec, WorkLeft, TokenInv;
    var batch := BatchExists(s);
    var scan := Sched(Scan(batch));
    run, t := [scan], Apply(s, scan);
    ReachesOne(p, s, scan);
    if batch == {} {
      NoneScheduled(s);
      assert PromoteRows(s.rows, {}) == s.rows;
      assert t == s.(sched := Enqueueing(map[]));
      var more, u := ScannedNothing(p, s, t);
      ReachesThen(p, s, run, t, more, u);
      run, t := run + more, u;
    }
  }

  lemma NoneScheduled(s: State)
    requires TokenInv(s)
    requires forall id :: id in s.rows ==> !s.rows[id].Due(s.now)
    requires forall id :: id in s.rows && s.rows[id].scheduledAt.Some? ==> s.rows[id].scheduledAt.value <= s.now
    ensures forall id :: id in s.rows ==> !s.rows[id].status.Scheduled?
  {
    forall id | id in s.rows ensures !s.rows[id].status.Scheduled? {
      assert Coherent(s.rows[id], s.hist[id].requeues, s.now);
    }
  }

  lemma SchedulerAdvances(p: Policy, s: State) returns (run: seq<Action>, t: State)
    requires Ready(s) && Quiet(s) && !Settled(s)
    ensures Reaches(p, s, run, t) && Moved(run) > 0
  {
    hide Exec, WorkLeft, TokenInv, Reaches;
    match s.sched
    case Resting => run, t := RestingAdvances(p, s);
    case Enqueueing(batch) =>
      if batch != map[] {
        var id :| id in batch;
        run, t := [Sched(BatchPush(id))], Apply(s, Sched(BatchPush(id)));
        ReachesOne(p, s, Sched(BatchPush(id)));
      } else {
        var s1 := Apply(s, Sched(Range));
        ReachesOne(p, s, Sched(Range));
        ReachesReady(p, s, [Sched(Range)], s1);
        var more;
        more, t := FromPromoting(p, s1);
        run := [Sched(Range)] + more;
        ReachesThen(p, s, [Sched(Range)], s1, more, t);
      }
    case Promoting(due) => run, t := FromPromoting(p, s);
  }

  lemma ReachesReady(p: Policy, s: State, run: seq<Action>, t: State)
    requires Reaches(p, s, run, t)
    ensures Ready(t)
  {
  }

  lemma FromPromoting(p: Policy, s: State) returns (run: seq<Action>, t: State)
    requires Ready(s) && Quiet(s) && !Settled(s) && s.sched.Promoting?
    ensures Reaches(p, s, run, t) && Moved(run) > 0
  {
    hide Exec, WorkLeft, TokenInv;
    if s.sched.due != {} {
      run, t := PromotingAdvances(p, s);
    } else {
      var s1 := Apply(s, Sched(Rest));
      ReachesOne(p, s, Sched(Rest));
      var more;
      more, t := RestingAdvances(p, s1);
      run := [Sched(Rest)] + more;
      ReachesThen(p, s, [Sched(Rest)], s1, more, t);
    }
  }

  /** No deadlock: as long as a job is unfinished and not lost, the system moves
      something after waiting, without any action of a user. */
  lemma UnfinishedMeansMoves(p: Policy, s: State) returns (run: seq<Action>, t: State)
    requires Ready(s) && !Settled(s)
    ensures Reaches(p, s, run, t) && Moved(run) > 0
  {
    hide Exec, WorkLeft, TokenInv, Reaches, Enabled, Apply;
    if x :| x in s.goroutines && !s.goroutines[x].pc.Polling? {
      var a := GoroutineMoves(p, s, x);
      ReachesOne(p, s, a);
      run, t := [a], Apply(s, a);
    } else if call :| call in s.calls {
      assert Enabled(s, Api(Push(call))) by { PushEnabled(s, call); }
      ReachesOne(p, s, Api(Push(call)));
      run, t := [Api(Push(call))], Apply(s, Api(Push(call)));
    } else if q :| q in s.redis.queues && s.redis.queues[q] != map[] {
      var w, k := PolledAt(s, q);
      run, t := PollUntilPop(p, s, w, k);
    } else {
      assert s.calls == map[];
      run, t := SchedulerAdvances(p, s);
    }
  }

  lemma PushEnabled(s: State, call: CallId)
    requires call in s.calls
    ensures Enabled(s, Api(Push(call)))
  {
  }

  lemma PolledAt(s: State, q: string) returns (w: WorkerId, k: nat)
    requires Ready(s) && q in s.redis.queues && s.redis.queues[q] != map[]
    ensures w in s.goroutines && k < |s.listen(w)| && s.listen(w)[k] == q && Members(s.redis, s.listen(w)[k]) != map[]
  {
    var id :| id in s.redis.queues[q];
    assert ReadyOk(s, id) && s.rows[id].queue == q;
    assert Heard(s, q);
    w :| w in s.goroutines && q in s.listen(w);
    k :| 0 <= k < |s.listen(w)| && s.listen(w)[k] == q;
  }

  lemma {:induction false} Finish(p: Policy, s: State) returns (run: seq<Action>, t: State)
    requires Ready(s)
    ensures Reaches(p, s, run, t) && Settled(t)
    decreases WorkLeft(s)
  {
    hide WorkLeft, TokenInv, Moved;
    if Settled(s) {
      run, t := [], s;
      assert Exec(s, run) == Some(s) && Moved(run) == 0 && Obeys(p, s, run) by { NothingDone(p, s); }
    } else {
      var first, s1 := UnfinishedMeansMoves(p, s);
      WorkLeftIsNat(s1);
      var more;
      more, t := Finish(p, s1);
      run := first + more;
      ReachesThen(p, s, first, s1, more, t);
    }
  }

  lemma NothingDone(p: Policy, s: State)
    ensures Exec(s, []) == Some(s) && Moved([]) == 0 && Obeys(p, s, [])
  {
  }

  lemma {:induction false} RunKeepsPolls(s: State, run: seq<Action>)
    requires Polls(s) && AllRegular(run) && Exec(s, run).Some?
    ensures Polls(Exec(s, run).value) && Exec(s, run).value.goroutines.Keys == s.goroutines.Keys
    ensures Exec(s, run).value.listen == s.listen
    decreases |run|
  {
    hide Enabled, Apply, Polls;
    if run != [] {
      assert Regular(run[0]) && AllRegular(run[1..]);
      StepKeepsPolls(s, run[0]);
      RunKeepsPolls(Apply(s, run[0]), run[1..]);
    }
  }

  lemma {:induction false} ExpandedIsRegular(run: seq<CoarseStep>)
    requires forall i :: 0 <= i < |run| ==> CoarseRegular(run[i])
    ensures AllRegular(ExpandAll(run))
  {
    if run != [] {
      ExpandIsRegular(run[0]);
      ExpandedIsRegular(run[1..]);
    }
  }

  // ----------------------------------------------- finishing the iteration

  /** What is lost once the iteration under way is over. */
  ghost function LostSoon(s: State): set<JobId> { if Rewritten(s) then s.lost + {s.sched.id} else s.lost }

  /** The scheduler ends its iteration: the enqueue, if it is still due, and the
      removal. */
  lemma FinishIteration(p: Policy, s: State) returns (run: seq<Action>, t: State)
    requires TokenInv(s) && Attentive(s)
    ensures AllAutonomous(run) && Exec(s, run) == Some(t) && Obeys(p, s, run) && Ready(t)
    ensures t.goroutines.Keys == s.goroutines.Keys && t.rows.Keys == s.rows.Keys && t.lost == LostSoon(s)
  {
    hide Apply, Enabled, TokenInv, Attentive, Rewritten, Exec, Obeys;
    match s.sched {
      case Fetched(due, job) =>
        var s1 := PushedRetry(s);
        PromoteKeeps(s, Sched(RetryPush), s1);
        t := RemovedRetry(s1);
        PromoteKeeps(s1, Sched(RetryRemove), t);
        run := [Sched(RetryPush)] + [Sched(RetryRemove)];
        ExecOne(s1, Sched(RetryRemove));
        ExecCons(s, Sched(RetryPush), [Sched(RetryRemove)]);
      case Removing(due, id, since) =>
        t := RemovedRetry(s);
        PromoteKeeps(s, Sched(RetryRemove), t);
        run := [Sched(RetryRemove)];
        ExecOne(s, Sched(RetryRemove));
      case _ =>
        run, t := [], s;
        NothingDone(p, s);
        assert LostSoon(s) == s.lost by { NotRemoving(s); }
    }
    OthersObey(p, s, run);
  }

  lemma NotRemoving(s: State)
    requires !s.sched.Removing?
    ensures !Rewritten(s)
  {
  }

  lemma PushedRetry(s: State) returns (t: State)
    requires TokenInv(s) && s.sched.Fetched?
    ensures Enabled(s, Sched(RetryPush)) && t == Apply(s, Sched(RetryPush))
    ensures t.sched.Removing? && !Rewritten(t) && !Rewritten(s) && t.lost == s.lost
  {
    t := Apply(s, Sched(RetryPush));
    hide Live, Safe, Tracked;
    if s.sched.job.id in s.redis.retries { assert s.redis.retries[s.sched.job.id].stamp <= s.writes; }
  }

  lemma RemovedRetry(s: State) returns (t: State)
    requires s.sched.Removing?
    ensures Enabled(s, Sched(RetryRemove)) && t == Apply(s, Sched(RetryRemove))
    ensures Boundary(t) && t.lost == LostSoon(s)
  {
    t := Apply(s, Sched(RetryRemove));
  }

  // ------------------------------------------------------------ completion

  /** Every job finishes that is not lost: after any fault-free run, with
      every used queue polled, and whatever the processor makes of
      each execution, time, the scheduler and the goroutines alone can bring every
      job to completed, cancelled or dead, except those already lost and the one
      whose rewritten entry the scheduler is about to remove; and no continuation
      of theirs makes more than `WorkLeft` moves. */
  lemma EveryJobFinishesUnlessLost(s0: State, run: seq<Action>, p: Policy)
    returns (more: seq<Action>, t: State)
    requires Initial(s0) && AllRegular(run) && Exec(s0, run).Some?
    requires forall w :: w in s0.goroutines ==> s0.listen(w) != []
    requires forall id :: id in Exec(s0, run).value.rows ==> Heard(s0, Exec(s0, run).value.rows[id].queue)
    ensures var s := Exec(s0, run).value;
      && AllAutonomous(more) && Exec(s, more) == Some(t) && Obeys(p, s, more) && t.rows.Keys == s.rows.Keys
      && (forall id :: id in t.rows ==> t.rows[id].status in {Completed, Cancelled, DeadLetter} || id in LostSoon(s))
      && forall other :: AllAutonomous(other) && Exec(s, other).Some? ==> Moved(other) <= WorkLeft(s)
  {
    hide WorkLeft, Enabled, Apply;
    TokensInitially(s0);
    RunKeepsTokens(s0, run);
    RunKeepsPolls(s0, run);
    var s := Exec(s0, run).value;
    hide TokenInv, Exec, Obeys, Settled;
    var first, s1 := FinishIteration(p, s);
    more, t := Finish(p, s1);
    ExecAppend(s, first, more);
    ObeysAppend(p, s, first, more);
    more := first + more;
    assert forall id :: id in t.rows ==> t.rows[id].status in {Completed, Cancelled, DeadLetter} || id in LostSoon(s) by {
      SettledInColumns(t);
    }
    BoundedMoves(s);
  }

  lemma SettledInColumns(s: State)
    requires Settled(s)
    ensures forall id :: id in s.rows ==> s.rows[id].status in {Completed, Cancelled, DeadLetter} || id in s.lost
  {
  }

  lemma BoundedMoves(s: State)
    requires TokenInv(s)
    ensures forall run :: AllAutonomous(run) && Exec(s, run).Some? ==> Moved(run) <= WorkLeft(s)
  {
    hide WorkLeft, TokenInv, Exec;
    forall run | AllAutonomous(run) && Exec(s, run).Some? ensures Moved(run) <= WorkLeft(s) {
      MovesAreBounded(s, run);
    }
  }

  /** Every job finishes: the same after a run that promotes each retry in one go,
      without exception. */
  lemma EveryJobFinishes(s0: State, run: seq<CoarseStep>, p: Policy) returns (more: seq<Action>, t: State)
    requires Initial(s0) && (forall i :: 0 <= i < |run| ==> CoarseRegular(run[i]))
    requires Exec(s0, ExpandAll(run)).Some?
    requires forall w :: w in s0.goroutines ==> s0.listen(w) != []
    requires forall id :: id in Exec(s0, ExpandAll(run)).value.rows ==> Heard(s0, Exec(s0, ExpandAll(run)).value.rows[id].queue)
    ensures var s := Exec(s0, ExpandAll(run)).value;
      && AllAutonomous(more) && Exec(s, more) == Some(t) && Obeys(p, s, more) && t.rows.Keys == s.rows.Keys
      && (forall id :: id in t.rows ==> t.rows[id].status in {Completed, Cancelled, DeadLetter})
      && forall other :: AllAutonomous(other) && Exec(s, other).Some? ==> Moved(other) <= WorkLeft(s)
  {
    hide WorkLeft, Enabled, Apply, Obeys, Exec, TokenInv;
    TokensInitially(s0);
    CoarseRunKeepsAll(s0, run);
    ExpandedIsRegular(run);
    NotRemoving(Exec(s0, ExpandAll(run)).value);
    more, t := EveryJobFinishesUnlessLost(s0, ExpandAll(run), p);
  }
}
