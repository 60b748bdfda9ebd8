/** Infinite runs: when every party goes on acting, every job finishes that is not
    lost, whatever the order of the steps. */
module Fairness {
  import opened Prelude
  import opened Timing
  import opened Jobs
  import opened Protocol
  import opened DatabaseSafety
  import opened Tokens
  import opened TokenPlaces
  import opened LossWindow
  import opened Progress
  import opened Completion

  // An infinite run: its states and its actions.
  type States = nat -> State
  type Actions = nat -> Action

  ghost predicate StepAt(st: States, act: Actions, n: nat) {
    Enabled(st(n), act(n)) && st(n + 1) == Apply(st(n), act(n)) && Regular(act(n)) && !AddsWork(act(n))
  }

  /** Fault-free, and no job is created or retried by hand. */
  ghost predicate Behaviour(st: States, act: Actions) { forall n: nat :: StepAt(st, act, n) }

  predicate Acts(a: Action, w: WorkerId) { a.Work? && a.w == w }

  ghost predicate ActsAfter(act: Actions, n: nat, w: WorkerId) { exists m: nat :: m >= n && Acts(act(m), w) }

  ghost predicate SchedAfter(act: Actions, n: nat) { exists m: nat :: m >= n && act(m).Sched? }

  ghost predicate PushAfter(act: Actions, n: nat, call: CallId) { exists m: nat :: m >= n && act(m) == Api(Push(call)) }

  ghost predicate LateAt(st: States, time: Time) { exists m: nat :: st(m).now >= time }

  /** Every goroutine and the scheduler act again and again, every API call that
      wrote its row gets to its enqueue, and time goes on. */
  ghost predicate Fair(st: States, act: Actions) {
    && (forall n: nat, w :: w in st(0).goroutines ==> ActsAfter(act, n, w))
    && (forall n: nat :: SchedAfter(act, n))
    && (forall n: nat, call :: call in st(n).calls ==> PushAfter(act, n, call))
    && (forall time: Time :: LateAt(st, time))
  }

  // ---------------------------------------------------------- what holds on

  ghost predicate Sound(s: State) { TokenInv(s) && Attentive(s) }

  lemma StepKeepsSound(s: State, a: Action)
    requires Sound(s) && Enabled(s, a) && Regular(a) && !AddsWork(a)
    ensures Sound(Apply(s, a)) && WorkLeft(Apply(s, a)) + MoveCount(a) <= WorkLeft(s)
    ensures Apply(s, a).goroutines.Keys == s.goroutines.Keys && Apply(s, a).listen == s.listen
    ensures Apply(s, a).now >= s.now
  {
    StepKeepsTokens(s, a);
    StepKeepsAttention(s, a);
    StepKeepsPolls(s, a);
    StepUsesWork(s, a);
    StepKeys(s, a);
  }

  lemma {:induction false} SoundAt(st: States, act: Actions, n: nat)
    requires Behaviour(st, act) && Sound(st(0))
    ensures Sound(st(n)) && st(n).goroutines.Keys == st(0).goroutines.Keys && st(n).listen == st(0).listen
  {
    hide StepAt, Sound;
    if n > 0 {
      SoundAt(st, act, n - 1);
      OneStep(st, act, n - 1);
    }
  }

  lemma OneStep(st: States, act: Actions, n: nat)
    requires Behaviour(st, act) && Sound(st(n))
    ensures Enabled(st(n), act(n)) && st(n + 1) == Apply(st(n), act(n)) && Regular(act(n)) && !AddsWork(act(n))
    ensures Sound(st(n + 1)) && WorkLeft(st(n + 1)) + MoveCount(act(n)) <= WorkLeft(st(n))
    ensures st(n + 1).goroutines.Keys == st(n).goroutines.Keys && st(n + 1).listen == st(n).listen
    ensures st(n + 1).now >= st(n).now
  {
    hide Sound, WorkLeft, Apply, Enabled;
    assert StepAt(st, act, n);
    StepKeepsSound(st(n), act(n));
  }

  lemma {:induction false} WorkAndTime(st: States, act: Actions, n: nat, m: nat)
    requires Behaviour(st, act) && Sound(st(0)) && n <= m
    ensures WorkLeft(st(m)) <= WorkLeft(st(n)) && st(m).now >= st(n).now
    decreases m - n
  {
    hide Sound, WorkLeft, Behaviour;
    if n < m {
      SoundAt(st, act, n);
      OneStep(st, act, n);
      WorkAndTime(st, act, n + 1, m);
    }
  }

  ghost predicate StillFrom(act: Actions, n: nat) { forall m: nat :: m >= n ==> !Moves(act(m)) }

  /** The moves come to an end. */
  lemma {:induction false} MovesStop(st: States, act: Actions, n: nat) returns (from: nat)
    requires Behaviour(st, act) && Sound(st(0))
    ensures from >= n && StillFrom(act, from)
    decreases WorkLeft(st(n))
  {
    hide Sound, WorkLeft, Behaviour, Moves;
    if m: nat :| m >= n && Moves(act(m)) {
      WorkAndTime(st, act, n, m);
      SoundAt(st, act, m);
      OneStep(st, act, m);
      WorkLeftIsNat(st(m + 1));
      from := MovesStop(st, act, m + 1);
    } else {
      from := n;
    }
  }

  /** What a step that moves nothing leaves alone. */
  ghost predicate Still(s: State, t: State) {
    && t.rows == s.rows && t.redis.queues == s.redis.queues && t.calls == s.calls
    && t.goroutines.Keys == s.goroutines.Keys && s.now <= t.now && s.lost <= t.lost
    && (forall w :: w in s.goroutines ==> (t.goroutines[w].pc.Polling? <==> s.goroutines[w].pc.Polling?))
    && (forall id :: id in t.redis.retries ==> id in s.redis.retries && t.redis.retries[id] == s.redis.retries[id])
  }

  lemma SchedIsStill(s: State, a: SchedStep)
    requires SchedEnabled(s, a) && !Moves(Sched(a))
    ensures Still(s, ApplySched(s, a))
  {
    SchedFrame(s, a);
    if a.Scan? { PromoteNone(s.rows); }
  }

  lemma NonMoveIsStill(s: State, a: Action)
    requires Enabled(s, a) && Regular(a) && !AddsWork(a) && !Moves(a)
    ensures Still(s, Apply(s, a))
  {
    match a
    case Sched(step) => SchedIsStill(s, step);
    case _ =>
  }

  lemma {:induction false} StillUntil(st: States, act: Actions, n: nat, m: nat)
    requires Behaviour(st, act) && StillFrom(act, n) && n <= m
    ensures Still(st(n), st(m))
    decreases m - n
  {
    hide Behaviour, Still, Moves, Apply, Enabled;
    if n == m {
      NothingChanges(st(n));
    } else {
      assert StillFrom(act, n + 1);
      StillOnce(st, act, n);
      StillUntil(st, act, n + 1, m);
      StillTwice(st(n), st(n + 1), st(m));
    }
  }

  lemma StillOnce(st: States, act: Actions, n: nat)
    requires Behaviour(st, act) && StillFrom(act, n)
    ensures Still(st(n), st(n + 1))
  {
    hide Still, Moves, Apply, Enabled;
    assert StepAt(st, act, n) && !Moves(act(n));
    NonMoveIsStill(st(n), act(n));
  }

  lemma NothingChanges(s: State)
    ensures Still(s, s)
  {
  }

  lemma StillTwice(s: State, t: State, u: State)
    requires Still(s, t) && Still(t, u)
    ensures Still(s, u)
  {
  }

  // ------------------------------------------------------------- goroutines

  lemma OnlyPolls(s: State, a: Action, w: WorkerId)
    requires Enabled(s, a) && Acts(a, w) && !Moves(a)
    ensures a.work.PollEmpty? && w in s.goroutines && s.goroutines[w].pc.Polling?
    ensures var at := s.goroutines[w].pc.at;
      && at < |s.listen(w)| && Members(s.redis, s.listen(w)[at]) == map[]
      && w in Apply(s, a).goroutines && Apply(s, a).goroutines[w].pc == Polling((at + 1) % |s.listen(w)|)
  {
  }

  /** A goroutine that acts but moves nothing is polling. */
  lemma AllPoll(st: States, act: Actions, n: nat, w: WorkerId)
    requires Behaviour(st, act) && Fair(st, act) && StillFrom(act, n) && Sound(st(0)) && w in st(n).goroutines
    ensures st(n).goroutines[w].pc.Polling?
  {
    hide Behaviour, Still, Moves, Apply, Enabled, Sound;
    SoundAt(st, act, n);
    assert ActsAfter(act, n, w);
    var m: nat :| m >= n && Acts(act(m), w);
    assert StepAt(st, act, m) by { StepOf(st, act, m); }
    OnlyPolls(st(m), act(m), w);
    StillUntil(st, act, n, m);
    StillPolls(st(n), st(m), w);
  }

  lemma StepOf(st: States, act: Actions, n: nat)
    requires Behaviour(st, act)
    ensures StepAt(st, act, n)
  {
  }

  lemma StillPolls(s: State, t: State, w: WorkerId)
    requires Still(s, t) && w in s.goroutines
    ensures w in t.goroutines && (t.goroutines[w].pc.Polling? <==> s.goroutines[w].pc.Polling?)
  {
  }

  lemma CallMoves(st: States, act: Actions, n: nat, call: CallId) returns (m: nat)
    requires Fair(st, act) && call in st(n).calls
    ensures m >= n && Moves(act(m))
  {
    assert PushAfter(act, n, call);
    m :| m >= n && act(m) == Api(Push(call));
  }

  lemma NoCalls(st: States, act: Actions, n: nat)
    requires Fair(st, act) && StillFrom(act, n)
    ensures st(n).calls == map[]
  {
    hide Fair, Moves;
    if call :| call in st(n).calls {
      var m := CallMoves(st, act, n, call);
    }
  }

  lemma {:induction false} FirstAct(act: Actions, w: WorkerId, n: nat, m: nat) returns (first: nat)
    requires n <= m && Acts(act(m), w)
    ensures n <= first <= m && Acts(act(first), w) && forall k :: n <= k < first ==> !Acts(act(k), w)
    decreases m - n
  {
    if Acts(act(n), w) { first := n; } else { first := FirstAct(act, w, n + 1, m); }
  }

  lemma OthersLeaveAlone(s: State, a: Action, w: WorkerId)
    requires Enabled(s, a) && Regular(a) && !Acts(a, w) && w in s.goroutines
    ensures w in Apply(s, a).goroutines && Apply(s, a).goroutines[w] == s.goroutines[w]
  {
    hide ApplyApi, ApplySched, ApplyWork, ApiEnabled, SchedEnabled, NextPc;
    match a
    case Api(api) => ApiFrame(s, api);
    case Sched(step) => SchedFrame(s, step);
    case Work(x, work) => WorkFrame(s, x, work);
    case _ =>
  }

  lemma {:induction false} WaitsFor(st: States, act: Actions, w: WorkerId, n: nat, m: nat)
    requires Behaviour(st, act) && n <= m && w in st(n).goroutines && forall k :: n <= k < m ==> !Acts(act(k), w)
    ensures w in st(m).goroutines && st(m).goroutines[w] == st(n).goroutines[w]
    decreases m - n
  {
    hide Behaviour, Apply, Enabled;
    if n < m {
      StepOf(st, act, n);
      OthersLeaveAlone(st(n), act(n), w);
      WaitsFor(st, act, w, n + 1, m);
    }
  }

  /** The next poll of a goroutine: it finds its queue empty and goes on. */
  lemma NextPoll(st: States, act: Actions, w: WorkerId, n: nat) returns (m: nat)
    requires Behaviour(st, act) && Fair(st, act) && StillFrom(act, n) && Sound(st(0)) && w in st(n).goroutines
    ensures m > n && w in st(m).goroutines && st(n).goroutines[w].pc.Polling?
    ensures var at, names := st(n).goroutines[w].pc.at, st(0).listen(w);
      && at < |names| && Members(st(n).redis, names[at]) == map[]
      && st(m).goroutines[w].pc == Polling((at + 1) % |names|)
  {
    hide Behaviour, Still, Moves, Apply, Enabled, Sound;
    SoundAt(st, act, n);
    assert ActsAfter(act, n, w);
    var later: nat :| later >= n && Acts(act(later), w);
    var first := FirstAct(act, w, n, later);
    WaitsFor(st, act, w, n, first);
    StepOf(st, act, first);
    SoundAt(st, act, first);
    OnlyPolls(st(first), act(first), w);
    StillUntil(st, act, n, first);
    StillQueues(st(n), st(first));
    m := first + 1;
  }

  lemma StillQueues(s: State, t: State)
    requires Still(s, t)
    ensures t.redis.queues == s.redis.queues
  {
  }

  lemma {:induction false} PolledQueueIsEmpty(st: States, act: Actions, w: WorkerId, k: nat, n: nat)
    requires Behaviour(st, act) && Fair(st, act) && StillFrom(act, n) && Sound(st(0)) && w in st(n).goroutines
    requires k < |st(0).listen(w)| && st(n).goroutines[w].pc.Polling? && st(n).goroutines[w].pc.at < |st(0).listen(w)|
    ensures Members(st(n).redis, st(0).listen(w)[k]) == map[]
    decreases Ahead(st(n).goroutines[w].pc.at, k, |st(0).listen(w)|)
  {
    hide Behaviour, Fair, Still, Moves, Sound, Ahead;
    var m := NextPoll(st, act, w, n);
    var at := st(n).goroutines[w].pc.at;
    if at != k {
      AheadStep(at, k, |st(0).listen(w)|);
      assert StillFrom(act, m);
      StillUntil(st, act, n, m);
      StillQueues(st(n), st(m));
      PolledQueueIsEmpty(st, act, w, k, m);
    }
  }

  lemma HeardAt(s: State, q: string) returns (w: WorkerId, k: nat)
    requires Sound(s) && q in s.redis.queues && s.redis.queues[q] != map[]
    ensures w in s.goroutines && k < |s.listen(w)| && s.listen(w)[k] == q && Members(s.redis, q) != map[]
    ensures s.goroutines[w].pc.Polling? ==> s.goroutines[w].pc.at < |s.listen(w)|
  {
    var id :| id in s.redis.queues[q];
    assert ReadyOk(s, id) && s.rows[id].queue == q;
    assert Heard(s, q);
    w :| w in s.goroutines && q in s.listen(w);
    k :| 0 <= k < |s.listen(w)| && s.listen(w)[k] == q;
  }

  /** When nothing moves any more, all goroutines poll empty queues. */
  lemma BecomesQuiet(st: States, act: Actions, n: nat)
    requires Behaviour(st, act) && Fair(st, act) && StillFrom(act, n) && Sound(st(0))
    ensures Quiet(st(n))
  {
    hide Behaviour, Fair, StillFrom, Sound;
    SoundAt(st, act, n);
    forall w | w in st(n).goroutines ensures st(n).goroutines[w].pc.Polling? { AllPoll(st, act, n, w); }
    NoCalls(st, act, n);
    if q :| q in st(n).redis.queues && st(n).redis.queues[q] != map[] {
      var w, k := HeardAt(st(n), q);
      PolledQueueIsEmpty(st, act, w, k, n);
      assert false;
    }
  }

  // -------------------------------------------------------------- scheduler

  lemma {:induction false} FirstSched(act: Actions, n: nat, m: nat) returns (first: nat)
    requires n <= m && act(m).Sched?
    ensures n <= first <= m && act(first).Sched? && forall k :: n <= k < first ==> !act(k).Sched?
    decreases m - n
  {
    if act(n).Sched? { first := n; } else { first := FirstSched(act, n + 1, m); }
  }

  lemma SchedLeftAlone(s: State, a: Action)
    requires Enabled(s, a) && Regular(a) && !a.Sched?
    ensures Apply(s, a).sched == s.sched
  {
    hide ApplyApi, ApplyWork, ApiEnabled, NextPc;
    match a
    case Api(api) => ApiFrame(s, api);
    case Work(x, work) => WorkFrame(s, x, work);
    case _ =>
  }

  lemma {:induction false} SchedWaits(st: States, act: Actions, n: nat, m: nat)
    requires Behaviour(st, act) && n <= m && forall k :: n <= k < m ==> !act(k).Sched?
    ensures st(m).sched == st(n).sched
    decreases m - n
  {
    hide Behaviour, Apply, Enabled;
    if n < m {
      StepOf(st, act, n);
      SchedLeftAlone(st(n), act(n));
      SchedWaits(st, act, n + 1, m);
    }
  }

  /** The next command of the scheduler, which finds it where it was. */
  lemma NextSched(st: States, act: Actions, n: nat) returns (m: nat)
    requires Behaviour(st, act) && Fair(st, act) && StillFrom(act, n) && Sound(st(0))
    ensures m >= n && act(m).Sched? && st(m).sched == st(n).sched && !Moves(act(m))
    ensures SchedEnabled(st(m), act(m).step) && st(m + 1) == ApplySched(st(m), act(m).step)
    ensures Sound(st(m))
  {
    hide Behaviour, Moves, Sound, ApplySched, SchedEnabled;
    assert SchedAfter(act, n);
    var later: nat :| later >= n && act(later).Sched?;
    m := FirstSched(act, n, later);
    SchedWaits(st, act, n, m);
    StepOf(st, act, m);
    SoundAt(st, act, m);
  }

  lemma NeverFetched(st: States, act: Actions, n: nat)
    requires Behaviour(st, act) && Fair(st, act) && StillFrom(act, n) && Sound(st(0))
    ensures !st(n).sched.Fetched? && (st(n).sched.Enqueueing? ==> st(n).sched.batch == map[])
  {
    hide Behaviour, Fair, Sound, StillFrom;
    var m := NextSched(st, act, n);
  }

  lemma FetchedRowHere(s: State, id: JobId)
    requires Sound(s) && SchedEnabled(s, Fetch(id))
    ensures ApplySched(s, Fetch(id)).sched.Fetched?
  {
    FetchedRow(s, id);
  }

  lemma NothingDue(st: States, act: Actions, n: nat)
    requires Behaviour(st, act) && Fair(st, act) && StillFrom(act, n) && Sound(st(0))
    ensures st(n).sched.Promoting? ==> st(n).sched.due == {}
  {
    hide Behaviour, Fair, Sound;
    if st(n).sched.Promoting? && st(n).sched.due != {} {
      var m := NextSched(st, act, n);
      FetchedRowHere(st(m), act(m).step.id);
      assert StillFrom(act, m + 1);
      NeverFetched(st, act, m + 1);
      assert false;
    }
  }

  lemma RestsAfterPromoting(st: States, act: Actions, n: nat) returns (m: nat)
    requires Behaviour(st, act) && Fair(st, act) && StillFrom(act, n) && Sound(st(0)) && st(n).sched.Promoting?
    ensures m >= n && st(m).sched.Resting?
  {
    hide Behaviour, Fair, Sound, StillFrom;
    NothingDue(st, act, n);
    var k := NextSched(st, act, n);
    m := k + 1;
  }

  /** The scheduler comes to rest again. */
  lemma RestsAgain(st: States, act: Actions, n: nat) returns (m: nat)
    requires Behaviour(st, act) && Fair(st, act) && StillFrom(act, n) && Sound(st(0))
    ensures m >= n && st(m).sched.Resting?
  {
    hide Behaviour, Fair, Sound;
    NeverFetched(st, act, n);
    if st(n).sched.Resting? {
      m := n;
    } else if st(n).sched.Promoting? {
      m := RestsAfterPromoting(st, act, n);
    } else {
      var k := NextSched(st, act, n);
      assert StillFrom(act, k + 1);
      m := RestsAfterPromoting(st, act, k + 1);
    }
  }

  // ------------------------------------------------------------- conclusion

  /** Later than every schedule and every retry of the state. */
  ghost predicate LateFor(s: State, now: Time) {
    && (forall id :: id in s.rows && s.rows[id].scheduledAt.Some? ==> s.rows[id].scheduledAt.value <= now)
    && (forall id :: id in s.redis.retries ==> s.redis.retries[id].score <= Unix(now))
  }

  lemma LateTime(s: State) returns (time: Time)
    ensures forall now: Time :: now >= time ==> LateFor(s, now)
  {
    var d1 := LatestSchedule(s.rows);
    var d2 := LatestRetry(s.redis.retries);
    time := Max(d1, (d2 + 1) * SECOND);
    forall now: Time | now >= time ensures LateFor(s, now) { }
  }

  lemma StillLate(s: State, t: State, now: Time)
    requires LateFor(s, now) && Still(s, t)
    ensures LateFor(t, now)
  {
  }

  /** From rest, late enough: the next scan finds no row, the next range no entry. */
  lemma LateTick(st: States, act: Actions, n: nat) returns (m: nat)
    requires Behaviour(st, act) && Fair(st, act) && StillFrom(act, n) && Sound(st(0))
    requires st(n).sched.Resting? && LateFor(st(n), st(n).now)
    ensures m >= n && Settled(st(m))
  {
    hide Behaviour, Fair, Sound, Still, LateFor, Settled, Moves;
    var scan := NextSched(st, act, n);
    StillUntil(st, act, n, scan);
    StillIsLate(st(n), st(scan));
    NothingScanned(st(scan), act(scan).step);
    assert StillFrom(act, scan + 1);
    var range := NextSched(st, act, scan + 1);
    StillUntil(st, act, scan, range + 1);
    StillUntil(st, act, scan, range);
    StillIsLate(st(scan), st(range));
    m := range + 1;
    assert StillFrom(act, m);
    NothingDue(st, act, m);
    RangeEmpty(st(range), act(range).step);
    BecomesQuiet(st, act, m);
    SoundAt(st, act, m);
    StillRows(st(scan), st(m));
    NothingWaits(st(m));
  }

  lemma StillIsLate(s: State, t: State)
    requires Still(s, t) && LateFor(s, s.now)
    ensures LateFor(t, t.now)
  {
  }

  lemma StillRows(s: State, t: State)
    requires Still(s, t)
    ensures t.rows == s.rows
  {
  }

  lemma NothingScanned(s: State, a: SchedStep)
    requires Sound(s) && s.sched.Resting? && SchedEnabled(s, a) && !Moves(Sched(a)) && LateFor(s, s.now)
    ensures forall id :: id in s.rows ==> !s.rows[id].status.Scheduled?
    ensures ApplySched(s, a).sched == Enqueueing(map[])
  {
    assert a == Scan({});
    assert ReadyBatch(s.rows, s.now, {});
    NoneScheduled(s);
  }

  lemma RangeEmpty(s: State, a: SchedStep)
    requires s.sched == Enqueueing(map[]) && SchedEnabled(s, a) && LateFor(s, s.now)
    ensures ApplySched(s, a).sched.Promoting?
    ensures ApplySched(s, a).sched.due == {} ==> ApplySched(s, a).redis.retries == map[]
  {
    assert a == Range;
    assert DueRetries(s.redis.retries, s.now) == s.redis.retries.Keys;
  }

  lemma NothingWaits(s: State)
    requires Sound(s) && Quiet(s) && s.sched.Promoting? && s.redis.retries == map[]
    requires forall id :: id in s.rows ==> !s.rows[id].status.Scheduled?
    ensures Settled(s)
  {
    hide Settled, Quiet;
    if !Settled(s) { SomeRetryWaits(s); }
  }

  lemma StaysSettled(s: State, t: State)
    requires Still(s, t) && Settled(s)
    ensures Settled(t)
  {
  }

  /** Every job finishes that is not lost, in every fair run: from some step on, for
      ever, every row is completed, cancelled or dead, or its job is lost. */
  lemma FairRunsSettle(st: States, act: Actions) returns (from: nat)
    requires Behaviour(st, act) && Fair(st, act) && Sound(st(0))
    ensures forall n: nat :: n >= from ==> Settled(st(n))
  {
    hide Behaviour, Fair, Sound, Still, LateFor, Settled, Moves;
    var quiet := MovesStop(st, act, 0);
    var time := LateTime(st(quiet));
    var late := LateStep(st, act, time);
    var n := if late < quiet then quiet else late;
    WorkAndTime(st, act, late, n);
    assert StillFrom(act, n);
    var rest := RestsAgain(st, act, n);
    WorkAndTime(st, act, n, rest);
    StillUntil(st, act, quiet, rest);
    StillLate(st(quiet), st(rest), st(rest).now);
    assert StillFrom(act, rest);
    from := LateTick(st, act, rest);
    assert StillFrom(act, from);
    forall m: nat | m >= from ensures Settled(st(m)) {
      StillUntil(st, act, from, m);
      StaysSettled(st(from), st(m));
    }
  }

  lemma LateStep(st: States, act: Actions, time: Time) returns (m: nat)
    requires Fair(st, act)
    ensures st(m).now >= time
  {
    assert LateAt(st, time);
    m :| st(m).now >= time;
  }

  /** The same after any fault-free run from the start, when every queue in use is
      polled. */
  lemma EveryJobFinishesFairly(s0: State, run: seq<Action>, st: States, act: Actions) returns (from: nat)
    requires Initial(s0) && AllRegular(run) && Exec(s0, run) == Some(st(0))
    requires forall w :: w in s0.goroutines ==> s0.listen(w) != []
    requires forall id :: id in st(0).rows ==> Heard(s0, st(0).rows[id].queue)
    requires Behaviour(st, act) && Fair(st, act)
    ensures forall n: nat, id :: n >= from && id in st(n).rows ==> st(n).rows[id].status in {Completed, Cancelled, DeadLetter} || id in st(n).lost
  {
    hide Behaviour, Fair, TokenInv, Exec;
    TokensInitially(s0);
    RunKeepsTokens(s0, run);
    RunKeepsPolls(s0, run);
    from := FairRunsSettle(st, act);
  }
}
