/** Scheduled jobs: ReadyScheduled takes at most 100 rows per tick, earliest
    first, so a backlog is worked off in order. */
module Scheduling {
  import opened Prelude
  import opened Timing
  import opened Jobs
  import opened Protocol
  import opened DatabaseSafety

  /** The rows still scheduled whose time had come at `moment`. */
  ghost function Backlog(s: State, moment: Time): set<JobId> { DueRows(s.rows, moment) }

  ghost function DueRows(rows: map<JobId, Job>, moment: Time): set<JobId> {
    set id | id in rows && rows[id].Due(moment)
  }

  function Scans(run: seq<Action>): nat {
    if run == [] then 0 else ScanCount(run[0]) + Scans(run[1..])
  }

  lemma SubsetSize<T>(a: set<T>, b: set<T>)
    requires a <= b
    ensures |a| <= |b|
  {
    assert b == a + (b - a);
  }

  lemma DueWasDue(s: State, a: Action, moment: Time, id: JobId)
    requires Safe(s) && Enabled(s, a) && moment <= s.now
    requires id in Apply(s, a).rows && Apply(s, a).rows[id].Due(moment)
    ensures id in s.rows && s.rows[id].Due(moment)
  {
    hide Apply, Enabled;
    StepKeys(s, a);
    if id in s.rows { StepIsGuarded(s, a, id); }
  }

  lemma BacklogNeverGrows(s: State, a: Action, moment: Time)
    requires Safe(s) && Enabled(s, a) && moment <= s.now
    ensures Backlog(Apply(s, a), moment) <= Backlog(s, moment)
  {
    hide Apply, Enabled;
    forall id | id in Backlog(Apply(s, a), moment) ensures id in Backlog(s, moment) {
      DueWasDue(s, a, moment, id);
    }
  }

  lemma BatchShrinksDueRows(rows: map<JobId, Job>, now: Time, batch: set<JobId>, moment: Time)
    requires ReadyBatch(rows, now, batch) && moment <= now
    ensures DueRows(PromoteRows(rows, batch), moment) == DueRows(rows, moment) - batch
    ensures |DueRows(rows, moment) - batch| <= Max(0, |DueRows(rows, moment)| - 100)
  {
    var before := DueRows(rows, moment);
    var after := before - batch;
    if after != {} {
      var id :| id in after;
      assert rows[id].Due(now) && |batch| == BATCH_LIMIT;
      assert batch <= before;
      assert before == batch + after;
    }
  }

  /** One scan takes 100 jobs off the backlog of an earlier moment, or all of it:
      later arrivals cannot push ahead of it. */
  lemma ScanShrinksBacklog(s: State, batch: set<JobId>, moment: Time)
    requires SchedEnabled(s, Scan(batch)) && moment <= s.now
    ensures |Backlog(ApplySched(s, Scan(batch)), moment)| <= Max(0, |Backlog(s, moment)| - 100)
  {
    SchedFrame(s, Scan(batch));
    BatchShrinksDueRows(s.rows, s.now, batch, moment);
  }

  function ScanCount(a: Action): nat { if a.Sched? && a.step.Scan? then 1 else 0 }

  lemma StepShrinksBacklog(s: State, a: Action, moment: Time)
    requires Safe(s) && Enabled(s, a) && moment <= s.now
    ensures |Backlog(Apply(s, a), moment)| <= Max(0, |Backlog(s, moment)| - 100 * ScanCount(a))
  {
    hide ApplyApi, ApplySched, ApplyWork, ApplyFault, ApiEnabled, SchedEnabled, WorkEnabled, FaultEnabled, Backlog;
    if a.Sched? && a.step.Scan? {
      ScanShrinksBacklog(s, a.step.batch, moment);
    } else {
      BacklogNeverGrows(s, a, moment);
      SubsetSize(Backlog(Apply(s, a), moment), Backlog(s, moment));
    }
  }

  /** Over every run, faults included: after n scans, at most D - 100 n of the D
      jobs that were due at the start are still waiting to be promoted, however
      many more became due meanwhile. */
  lemma {:induction false} BacklogIsWorkedOff(s: State, run: seq<Action>, moment: Time)
    requires Safe(s) && Exec(s, run).Some? && moment <= s.now
    ensures |Backlog(Exec(s, run).value, moment)| <= Max(0, |Backlog(s, moment)| - 100 * Scans(run))
    decreases |run|
  {
    hide Apply, Enabled, Safe, Backlog;
    if run != [] {
      StepKeepsSafe(s, run[0]);
      StepKeys(s, run[0]);
      StepShrinksBacklog(s, run[0], moment);
      BacklogIsWorkedOff(Apply(s, run[0]), run[1..], moment);
    }
  }

  /** ceil(D / 100) ticks promote every job of the backlog. */
  lemma EnoughTicksClearBacklog(s: State, run: seq<Action>)
    requires Safe(s) && Exec(s, run).Some?
    requires Scans(run) >= (|Backlog(s, s.now)| + 99) / 100
    ensures forall id :: id in s.rows && s.rows[id].Due(s.now) ==>
      id in Exec(s, run).value.rows && !Exec(s, run).value.rows[id].status.Scheduled?
  {
    hide Apply, Enabled, Exec, Safe;
    var t := Exec(s, run).value;
    BacklogIsWorkedOff(s, run, s.now);
    assert Backlog(t, s.now) == {};
    forall id | id in s.rows && s.rows[id].Due(s.now)
      ensures id in t.rows && !t.rows[id].status.Scheduled?
    {
      RunCounts(s, run, id);
      assert id !in Backlog(t, s.now);
    }
  }
}
