/** Row types of the scheduler's tables and the checks the database puts on single rows.

    Ids are natural numbers, times are seconds as reals.  A retry policy is stored in the job
    it governs, since policies do not change during a run.  Two fields are history variables
    with no column behind them: `serial` numbers jobs in the order they were inserted, and
    `waitsOn` remembers which parents were counted when the job was submitted. */
module Schema {

  type JobId = nat
  type ExecId = nat
  type QueueId = nat
  type ProjectId = nat
  type WorkerId = nat
  type Time = real

  datatype Option<+T> = None | Some(value: T)

  function Min(a: int, b: int): int { if a <= b then a else b }
  function Max(a: int, b: int): int { if a <= b then b else a }
  function MinR(a: real, b: real): real { if a <= b then a else b }
  function MaxR(a: real, b: real): real { if a <= b then b else a }

  predicate LowerBound(x: nat, xs: set<nat>) { forall y :: y in xs ==> x <= y }

  lemma {:induction false} HasLeast(xs: set<nat>) returns (x: nat)
    requires xs != {}
    ensures x in xs && LowerBound(x, xs)
  {
    x :| x in xs;
    var rest := xs - {x};
    assert xs == rest + {x};
    if rest != {} {
      var y := HasLeast(rest);
      if y < x { x := y; }
    }
  }

  function Least(xs: set<nat>): (x: nat)
    requires xs != {}
    ensures x in xs
  {
    assert exists x :: x in xs && LowerBound(x, xs) by { var _ := HasLeast(xs); }
    var x :| x in xs && LowerBound(x, xs);
    x
  }

  lemma LeastIsLower(xs: set<nat>)
    requires xs != {}
    ensures LowerBound(Least(xs), xs)
  {
    var _ := HasLeast(xs);
  }

  datatype Status = Scheduled | Queued | Claimed | Running | Completed | RetryWait | DeadLetter | Cancelled

  predicate Active(st: Status) { st.Claimed? || st.Running? }
  predicate Terminal(st: Status) { st.Completed? || st.DeadLetter? || st.Cancelled? }
  predicate Idle(st: Status) { st.Scheduled? || st.Queued? || st.RetryWait? }

  /** fl.legal_transition */
  predicate LegalTransition(a: Status, b: Status) {
    match a
    case Scheduled => b.Queued? || b.Cancelled?
    case Queued => b.Claimed? || b.Cancelled?
    case Claimed => b.Running? || b.Queued? || b.RetryWait? || b.Cancelled? || b.DeadLetter?
    case Running => b.Completed? || b.RetryWait? || b.DeadLetter? || b.Cancelled? || b.Queued? || b.Scheduled?
    case RetryWait => b.Queued? || b.Cancelled? || b.DeadLetter?
    case DeadLetter => b.Queued?
    case Completed => false
    case Cancelled => false
  }

  datatype Policy = Policy(maxAttempts: int, maxDelay: Time)

  datatype Job = Job(
    project: ProjectId, queue: QueueId, policy: Policy, timeout: Time,
    status: Status, runAt: Time,
    fence: int, attempts: int, generation: int, snoozes: int,
    worker: Option<WorkerId>, shard: nat, pendingDeps: int,
    createdAt: Time, claimedAt: Option<Time>, deadlineAt: Option<Time>,
    startedAt: Option<Time>, finishedAt: Option<Time>,
    serial: nat, waitsOn: set<JobId>)

  datatype Outcome =
    Success | RetryableError | PermanentError | TimedOut | Lost | Fenced | CancelledRun | Snoozed

  /** outcome and finished_at are written together, so they are one optional field. */
  datatype Closing = Closing(outcome: Outcome, at: Time)

  datatype Exec = Exec(
    job: JobId, queue: QueueId, attempt: int, generation: int, fence: int,
    worker: WorkerId, startedAt: Time, closed: Option<Closing>)

  datatype Lease = Lease(fence: int, worker: WorkerId, expiresAt: Time)

  datatype Stat = Stat(completed: int, failed: int, deadLettered: int, durationMs: int)

  datatype Reason = AttemptsExhausted | PermanentFailure | LostExhausted

  datatype DeadRow = DeadRow(queue: QueueId, project: ProjectId, reason: Reason, deadAt: Time, replayedAt: Option<Time>)

  datatype Topic =
    JobSubmitted | JobQueued | JobCompleted | JobFailed | JobLost | JobDeadLettered
    | JobCancelled(fromAncestor: bool) | JobSnoozed | JobRetried | JobReplayed | JobScheduled

  datatype Event = Event(topic: Topic, entity: JobId, project: ProjectId)

  /** The check constraints on a jobs row. */
  predicate RowChecks(j: Job) {
    && (Terminal(j.status) <==> j.finishedAt.Some?)
    && (Active(j.status) ==> j.worker.Some? && j.claimedAt.Some? && j.deadlineAt.Some?)
    && (j.status.Running? ==> j.startedAt.Some?)
    && (Idle(j.status) ==> j.worker.None?)
    && (j.status.Scheduled? ==> j.pendingDeps > 0 || j.runAt > j.createdAt)
    && j.fence >= j.attempts
    && j.pendingDeps >= 0
    && (j.pendingDeps == 0 || j.status.Scheduled?)
  }
}
