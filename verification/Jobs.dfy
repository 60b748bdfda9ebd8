/** A row of the jobs table and the effect of each UPDATE on one row. */
module Jobs {
  import opened Prelude
  import opened Timing

  // Job identifiers, numbered in the order of their text.
  type JobId = nat
  type UserId = nat

  datatype Status =
    | Queued | Scheduled | Running | Completed | Failed | Cancelled | Retrying | DeadLetter

  datatype CreateParams = CreateParams(
    owner: UserId, queue: string, kind: string, payload: string, priority: int, maxAttempts: int,
    scheduledAt: Option<Time>)

  datatype Job = Job(
    id: JobId, owner: UserId, queue: string, kind: string, payload: string, priority: int, status: Status,
    attempts: nat, maxAttempts: int, error: Option<string>,
    scheduledAt: Option<Time>, startedAt: Option<Time>, completedAt: Option<Time>)
  {
    predicate Cancellable(user: UserId) {
      owner == user && (status.Queued? || status.Scheduled? || status.Retrying?)
    }

    predicate Startable() { status.Queued? || status.Retrying? }

    predicate Requeueable(user: UserId) {
      owner == user && (status.Failed? || status.DeadLetter?)
    }

    predicate Due(now: Time) {
      status.Scheduled? && scheduledAt.Some? && scheduledAt.value <= now
    }

    function Cancel(): Job { this.(status := Cancelled) }

    function Start(now: Time): Job {
      this.(status := Running, attempts := attempts + 1, startedAt := Some(now))
    }

    function Complete(now: Time): Job {
      this.(status := Completed, error := None, completedAt := Some(now))
    }

    function Fail(message: string): Job {
      this.(status := if attempts < maxAttempts then Retrying else DeadLetter, error := Some(message))
    }

    function Requeue(): Job { this.(status := Queued, error := None) }

    function Promote(): Job { this.(status := Queued) }

    predicate Finished() { status.Completed? || status.Cancelled? || status.DeadLetter? }

    /** The columns no statement changes. */
    predicate SameIdentity(other: Job) {
      && id == other.id && owner == other.owner && queue == other.queue && kind == other.kind && payload == other.payload
      && priority == other.priority && maxAttempts == other.maxAttempts
      && scheduledAt == other.scheduledAt
    }
  }

  function NewJob(id: JobId, p: CreateParams, now: Time): Job {
    Job(id, p.owner, p.queue, p.kind, p.payload, p.priority,
        if p.scheduledAt.Some? && p.scheduledAt.value > now then Scheduled else Queued,
        0, p.maxAttempts, None, p.scheduledAt, None, None)
  }

  /** The UPDATE statements in their own columns: what the WHERE clause asks and what
      SET stores; every column not named stays as it is. */
  lemma StatementsInColumns(job: Job, user: UserId, now: Time, message: string)
    ensures job.Cancellable(user) <==>
      job.owner == user && (job.status == Queued || job.status == Scheduled || job.status == Retrying)
    ensures job.Startable() <==> job.status == Queued || job.status == Retrying
    ensures job.Requeueable(user) <==> job.owner == user && (job.status == Failed || job.status == DeadLetter)
    ensures job.Due(now) <==> job.status == Scheduled && job.scheduledAt.Some? && job.scheduledAt.value <= now
    ensures job.Cancel() == job.(status := Cancelled)
    ensures job.Start(now) == job.(status := Running, attempts := job.attempts + 1, startedAt := Some(now))
    ensures job.Complete(now) == job.(status := Completed, error := None, completedAt := Some(now))
    ensures job.Fail(message) ==
      job.(status := if job.attempts < job.maxAttempts then Retrying else DeadLetter, error := Some(message))
    ensures job.Requeue() == job.(status := Queued, error := None)
    ensures job.Promote() == job.(status := Queued)
    ensures job.Finished() <==> job.status == Completed || job.status == Cancelled || job.status == DeadLetter
  {
  }

  /** Runs a job is entitled to before any manual retry. */
  function Allowance(job: Job): nat { Max(1, job.maxAttempts) }

  /** What every reachable row satisfies at time `now`, after `requeues`
      successful manual retries. */
  ghost predicate Coherent(job: Job, requeues: nat, now: Time) {
    && !job.status.Failed?
    && AttemptsOk(job, requeues)
    && ErrorOk(job)
    && TimesOk(job, now)
  }

  ghost predicate AttemptsOk(job: Job, requeues: nat) {
    && job.attempts <= Allowance(job) + requeues
    && (job.status.Scheduled? ==> job.attempts == 0 && requeues == 0)
    && (job.status.Queued? ==> job.attempts < Allowance(job) + requeues)
    && (job.status.Queued? && requeues == 0 ==> job.attempts == 0)
    && (job.status.Running? || job.status.Completed? ==> job.attempts >= 1)
    && (job.status.Retrying? ==> 1 <= job.attempts < job.maxAttempts)
    && (job.status.DeadLetter? || requeues > 0 ==> job.attempts >= 1 && job.attempts >= job.maxAttempts)
  }

  ghost predicate ErrorOk(job: Job) {
    && (job.status.Retrying? || job.status.DeadLetter? ==> job.error.Some?)
    && (job.error.Some? ==>
          && job.attempts >= 1
          && (job.status.Retrying? || job.status.DeadLetter? || job.status.Running? || job.status.Cancelled?))
    && (job.error.Some? && job.status.Running? ==> job.attempts >= 2)
  }

  ghost predicate TimesOk(job: Job, now: Time) {
    && (job.completedAt.Some? <==> job.status.Completed?)
    && (job.startedAt.Some? <==> job.attempts > 0)
    && (job.status.Scheduled? ==> job.scheduledAt.Some?)
    && (job.startedAt.Some? ==> job.startedAt.value <= now)
    && (job.completedAt.Some? ==> job.startedAt.Some? && job.startedAt.value <= job.completedAt.value <= now)
    && (job.scheduledAt.Some? ==>
          && (job.status.Scheduled? || job.status.Cancelled? || job.scheduledAt.value <= now)
          && (job.startedAt.Some? ==> job.scheduledAt.value <= job.startedAt.value))
  }

  /** An upper bound on the status changes still ahead of a job. */
  function StepsLeft(job: Job): nat {
    match job.status
    case Scheduled => 2 * Max(1, job.maxAttempts - job.attempts) + 1
    case Queued => 2 * Max(1, job.maxAttempts - job.attempts)
    case Running => 2 * Max(0, job.maxAttempts - job.attempts) + 1
    case Retrying => 2 * Max(1, job.maxAttempts - job.attempts)
    case _ => 0
  }
}
