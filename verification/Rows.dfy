/** What one transaction can do to one job row. */
module Rows {
  import opened Schema
  import opened Transactions
  import opened Protocol
  import opened Frames

  predicate ClaimStep(o: Job, n: Job) {
    o.status.Queued? && n.worker.Some? && n.claimedAt.Some?
      && n == ClaimRow(o, n.shard, n.worker.value, n.claimedAt.value)
  }

  predicate StartStep(o: Job, n: Job) {
    o.status.Claimed? && n.startedAt.Some?
      && n == o.(status := Running, startedAt := n.startedAt, attempts := o.attempts + 1)
  }

  predicate CompleteStep(o: Job, n: Job) {
    o.status.Running? && n.finishedAt.Some? && n == CompleteRow(o, n.finishedAt.value)
  }

  predicate RetryStep(o: Job, n: Job) {
    && Active(o.status) && o.attempts < o.policy.maxAttempts
    && n == o.(status := RetryWait, runAt := n.runAt, finishedAt := None, worker := None)
  }

  predicate DeadStep(o: Job, n: Job) {
    Active(o.status) && n.finishedAt.Some? && n == o.(status := DeadLetter, finishedAt := n.finishedAt, worker := None)
  }

  predicate SnoozeStep(o: Job, n: Job) {
    && o.status.Running? && o.snoozes < o.policy.maxAttempts && n.runAt > o.createdAt
    && n == o.(status := Scheduled, fence := o.fence + 1, runAt := n.runAt, snoozes := o.snoozes + 1,
               worker := None, claimedAt := None, deadlineAt := None)
  }

  predicate KillStep(o: Job, n: Job) {
    Idle(o.status) && n.finishedAt.Some? && n == KillRow(o, n.finishedAt.value)
  }

  predicate CancelStep(o: Job, n: Job) {
    && !Terminal(o.status) && o.pendingDeps == 0 && n.finishedAt.Some?
    && n == o.(status := Cancelled, finishedAt := n.finishedAt, worker := None)
  }

  predicate QueueStep(o: Job, n: Job) {
    (o.status.Scheduled? || o.status.RetryWait?) && o.pendingDeps == 0 && n == o.(status := Queued, runAt := n.runAt)
  }

  predicate ReplayStep(o: Job, n: Job) {
    o.status.DeadLetter? && n == ReplayRow(o, n.runAt)
  }

  predicate WaitStep(o: Job, n: Job) {
    && Counting(o) && 0 <= n.pendingDeps < o.pendingDeps
    && n == o.(pendingDeps := n.pendingDeps, status := n.status)
    && (n.status.Scheduled? ==> n.pendingDeps > 0 || n.runAt > n.createdAt)
    && (n.status.Scheduled? || (n.status.Queued? && n.pendingDeps == 0))
  }

  /** A step outside completions and starts. */
  predicate PlainStep(o: Job, n: Job) {
    || o == n
    || ClaimStep(o, n) || RetryStep(o, n) || DeadStep(o, n) || SnoozeStep(o, n)
    || KillStep(o, n) || CancelStep(o, n) || QueueStep(o, n) || ReplayStep(o, n)
  }

  /** Any step but the start of an attempt. */
  predicate QuietStep(o: Job, n: Job) { PlainStep(o, n) || CompleteStep(o, n) || WaitStep(o, n) }

  predicate RowStep(o: Job, n: Job) { QuietStep(o, n) || StartStep(o, n) }

  predicate NewRow(n: Job, now: Time) {
    && (n.status.Scheduled? || n.status.Queued?)
    && n.fence == 0 && n.attempts == 0 && n.generation == 0 && n.snoozes == 0
    && n.worker.None? && n.finishedAt.None? && n.createdAt == now
    && n.pendingDeps == |n.waitsOn| && (n.pendingDeps == 0 || n.status.Scheduled?)
    && (n.status.Scheduled? ==> n.pendingDeps > 0 || n.runAt > n.createdAt)
    && n.policy.maxAttempts >= 1
  }

  /** The most attempts a row may carry, given the snoozes it has used. */
  function Allowance(j: Job): int {
    j.policy.maxAttempts + j.snoozes - if j.status.Running? || Terminal(j.status) then 0 else 1
  }

  /** Everything known about a single row: the table's checks and the attempt budget. */
  predicate RowOk(j: Job) {
    && RowChecks(j)
    && j.policy.maxAttempts >= 1
    && 0 <= j.snoozes <= j.policy.maxAttempts
    && 0 <= j.attempts <= Allowance(j)
    && 0 <= j.generation
    && (j.pendingDeps > 0 ==> j.fence == 0)
    && (j.status.Claimed? ==> j.fence > j.attempts)
  }

  predicate Fixed(o: Job, n: Job) {
    && o.project == n.project && o.queue == n.queue && o.policy == n.policy && o.createdAt == n.createdAt
    && o.serial == n.serial && o.waitsOn == n.waitsOn
  }

  predicate RowEnded(j: Job, f: int) {
    j.fence > f || (j.fence == f && !Active(j.status))
  }

  /** Every kind of step keeps the row's checks, takes a legal transition, moves the fence
      forward only, and cannot bring an ended claim back. */
  lemma RowStepKeeps(o: Job, n: Job)
    requires RowStep(o, n)
    ensures RowOk(o) ==> RowOk(n)
    ensures o.status == n.status || LegalTransition(o.status, n.status)
    ensures o.fence <= n.fence
    ensures forall f :: RowEnded(o, f) ==> RowEnded(n, f)
    ensures Fixed(o, n)
  {
  }

  lemma NewRowOk(n: Job, now: Time)
    requires NewRow(n, now)
    ensures RowOk(n)
  {
  }

  /** Repeated countdown in closed form. */
  lemma {:induction false} RepeatIs(j: Job, k: nat, now: Time)
    ensures !Counting(j) ==> Repeat(j, k, now) == j
    ensures Counting(j) && k < j.pendingDeps ==> Repeat(j, k, now) == j.(pendingDeps := j.pendingDeps - k)
    ensures Counting(j) && k >= j.pendingDeps ==>
              Repeat(j, k, now) == j.(pendingDeps := 0, status := if j.runAt <= now then Queued else Scheduled)
  {
    if k > 0 {
      RepeatIs(j, k - 1, now);
    }
  }

  lemma RepeatStep(j: Job, k: nat, now: Time)
    requires j.createdAt <= now
    ensures QuietStep(j, Repeat(j, k, now))
  {
    RepeatIs(j, k, now);
  }

  /** How two states' job tables may differ after one transaction. */
  predicate RowsStep(s: Db, t: Db, now: Time) {
    && (forall j :: j in s.jobs ==> j in t.jobs && RowStep(s.jobs[j], t.jobs[j]))
    && (forall j :: j in t.jobs && j !in s.jobs ==> NewRow(t.jobs[j], now))
  }

  predicate PlainRows(s: Db, t: Db, now: Time) {
    && (forall j :: j in s.jobs ==> j in t.jobs && PlainStep(s.jobs[j], t.jobs[j]))
    && (forall j :: j in t.jobs && j !in s.jobs ==> NewRow(t.jobs[j], now))
  }

  predicate QuietRows(s: Db, t: Db, now: Time) {
    && (forall j :: j in s.jobs ==> j in t.jobs && QuietStep(s.jobs[j], t.jobs[j]))
    && (forall j :: j in t.jobs && j !in s.jobs ==> NewRow(t.jobs[j], now))
  }

  predicate Dated(s: Db) {
    forall j :: j in s.jobs ==> s.jobs[j].createdAt <= s.clock
  }

  lemma FailRows(s: Db, job: JobId, fence: Option<int>, o: Outcome, permanent: bool, backoff: Time, now: Time)
    ensures PlainRows(s, Fail(s, job, fence, o, permanent, backoff, now), now)
  {
  }

  lemma BatchRows(s: Db, batch: seq<Done>, now: Time)
    requires Dated(s) && s.clock <= now
    ensures QuietRows(s, CompleteBatch(s, batch, now), now)
  {
    var m := Matched(s, batch);
    forall j | j in s.jobs ensures QuietStep(s.jobs[j], CompleteBatch(s, batch, now).jobs[j]) {
      if m != [] && j !in JobsOf(m) {
        RepeatStep(s.jobs[j], |DoneParents(s.edges, JobsOf(m), j)|, now);
      }
    }
  }

  lemma SubmitRows(s: Db, r: Submission, now: Time)
    ensures PlainRows(s, Submit(s, r, now), now)
  {
  }

  lemma FireRows(s: Db, r: Submission, tick: Time, now: Time)
    ensures PlainRows(s, Fire(s, r, tick, now), now)
  {
  }

  lemma CompleteRows(s: Db, job: JobId, fence: int, exec: ExecId, now: Time)
    requires Dated(s) && s.clock <= now
    ensures QuietRows(s, Complete(s, job, fence, exec, now), now)
  {
  }

  lemma TakeRows(s: Db, g: nat, ids: set<JobId>, worker: WorkerId, lease: Time, now: Time)
    ensures PlainRows(s, Take(s, g, ids, worker, lease, now), now)
  {
  }

  lemma PromoteRows(s: Db, ids: set<JobId>, now: Time)
    ensures PlainRows(s, Promote(s, ids, now), now)
  {
    hide EventsOf;
    var t := Promote(s, ids, now);
    forall j | j in s.jobs ensures PlainStep(s.jobs[j], t.jobs[j]) {
      if t != s && j in ids {
        assert Promotable(s, j, now);
        assert QueueStep(s.jobs[j], t.jobs[j]);
      } else {
        assert t.jobs[j] == s.jobs[j];
      }
    }
    hide Promote, PlainStep;
  }

  lemma ReplayDeadRows(s: Db, spacing: map<JobId, Time>, now: Time)
    ensures PlainRows(s, ReplayDead(s, spacing, now), now)
  {
    var t := ReplayDead(s, spacing, now);
    forall j | j in s.jobs ensures PlainStep(s.jobs[j], t.jobs[j]) {
      assert j in spacing && t != s ==> BulkReplayable(s, j);
    }
  }

  /** Only one row changes. */
  lemma OneRow(s: Db, t: Db, job: JobId, now: Time)
    requires job in s.jobs && job in t.jobs && t.jobs == s.jobs[job := t.jobs[job]]
        && PlainStep(s.jobs[job], t.jobs[job])
    ensures PlainRows(s, t, now)
  {
    hide PlainStep;
    assert forall j :: j in s.jobs && j != job ==> s.jobs[j] == t.jobs[j];
    forall j | j in s.jobs ensures PlainStep(s.jobs[j], t.jobs[j]) {
      if j != job { Stutter(s.jobs[j]); }
    }
  }

  lemma Stutter(j: Job)
    ensures PlainStep(j, j)
  {
  }

  lemma NoRow(s: Db, t: Db, now: Time)
    requires t.jobs == s.jobs
    ensures PlainRows(s, t, now)
  {
    hide PlainStep;
    forall j | j in s.jobs ensures PlainStep(s.jobs[j], t.jobs[j]) { Stutter(s.jobs[j]); }
  }

  lemma StartRows(s: Db, job: JobId, fence: int, worker: WorkerId, exec: ExecId, now: Time)
    ensures RowsStep(s, Start(s, job, fence, worker, exec, now), now)
  {
  }

  lemma SnoozeRows(s: Db, job: JobId, fence: Option<int>, exec: ExecId, delay: Time, now: Time)
    ensures PlainRows(s, Snooze(s, job, fence, exec, delay, now), now)
  {
    var t := Snooze(s, job, fence, exec, delay, now);
    if t.jobs == s.jobs { NoRow(s, t, now); } else { OneRow(s, t, job, now); }
  }

  lemma CancelRows(s: Db, job: JobId, now: Time)
    ensures PlainRows(s, Cancel(s, job, now), now)
  {
    var t := Cancel(s, job, now);
    if t.jobs == s.jobs { NoRow(s, t, now); } else { OneRow(s, t, job, now); }
  }

  lemma RequeueRows(s: Db, job: JobId, now: Time)
    ensures PlainRows(s, Retry(s, job, now), now)
    ensures PlainRows(s, Replay(s, job, now), now)
  {
    var t, u := Retry(s, job, now), Replay(s, job, now);
    if t.jobs == s.jobs { NoRow(s, t, now); } else { OneRow(s, t, job, now); }
    if u.jobs == s.jobs { NoRow(s, u, now); } else { OneRow(s, u, job, now); }
  }

  predicate LeavesJobs(op: Op) { Jobs !in Writes(op) }

  lemma OtherRows(s: Db, op: Op, now: Time)
    requires LeavesJobs(op)
    ensures Apply(s, op, now).jobs == s.jobs
    ensures PlainRows(s, Apply(s, op, now), now)
  {
    hide Apply;
    ApplyWrites(s, op, now);
    NoRow(s, Apply(s, op, now), now);
  }

  lemma ApplyMovesRows(s: Db, op: Op, now: Time)
    requires Dated(s) && s.clock <= now
    ensures RowsStep(s, Apply(s, op, now), now)
    ensures !op.DoStart? ==> QuietRows(s, Apply(s, op, now), now)
  {
    if op.DoStart? {
      hide Start, RowsStep;
      StartRows(s, op.job, op.fence, op.worker, op.exec, now);
    } else {
      hide *;
      QuietOps(s, op, now);
      QuietIsStep(s, Apply(s, op, now), now);
    }
  }

  lemma QuietIsStep(s: Db, t: Db, now: Time)
    requires QuietRows(s, t, now)
    ensures RowsStep(s, t, now)
  {
    hide QuietStep, NewRow;
  }

  lemma PlainIsQuiet(s: Db, t: Db, now: Time)
    requires PlainRows(s, t, now)
    ensures QuietRows(s, t, now)
  {
    hide PlainStep, NewRow;
  }

  predicate Completing(op: Op) { op.DoComplete? || op.DoCompleteBatch? }

  lemma QuietOps(s: Db, op: Op, now: Time)
    requires Dated(s) && s.clock <= now && !op.DoStart?
    ensures QuietRows(s, Apply(s, op, now), now)
  {
    hide QuietRows, Complete, CompleteBatch;
    match op
    case DoComplete(job, f, x) => CompleteRows(s, job, f, x, now);
    case DoCompleteBatch(b) => BatchRows(s, b, now);
    case _ =>
      hide *;
      PlainOps(s, op, now);
      PlainIsQuiet(s, Apply(s, op, now), now);
  }

  lemma PlainOps(s: Db, op: Op, now: Time)
    requires !op.DoStart? && !Completing(op)
    ensures PlainRows(s, Apply(s, op, now), now)
  {
    hide PlainRows;
    hide Submit, Fire, AdmitTo, Take, GiveBack, Crash, Extend, Fail, Snooze, Cancel;
    hide Promote, Retry, Replay, ReplayDead, Probe, CloseExecution, Sweep, ConfigureQueue, FlipBreaker, Reconcile;
    match op
    case DoSubmit(r) => SubmitRows(s, r, now);
    case DoFire(r, tick) => FireRows(s, r, tick, now);
    case DoTake(g, ids, w, lease) => TakeRows(s, g, ids, w, lease, now);
    case DoFail(job, f, o, p, backoff) => FailRows(s, job, Some(f), o, p, backoff, now);
    case DoReap(job, backoff) => FailRows(s, job, None, Lost, false, backoff, now);
    case DoSnooze(job, f, x, delay) => SnoozeRows(s, job, Some(f), x, delay, now);
    case DoCancel(job) => CancelRows(s, job, now);
    case DoPromote(ids) => PromoteRows(s, ids, now);
    case DoRetry(job) => RequeueRows(s, job, now);
    case DoReplay(job) => RequeueRows(s, job, now);
    case DoReplayDead(spacing) => ReplayDeadRows(s, spacing, now);
    case _ => OtherRows(s, op, now);
  }

  /** Every transaction moves every row by one of the known steps. */
  lemma StepMovesRows(s: Db, a: Act)
    requires Dated(s) && OnTime(s, a)
    ensures RowsStep(s, Step(s, a), a.now) && Dated(Step(s, a))
  {
    hide RowStep, NewRow, Apply;
    ApplyMovesRows(s, a.op, a.now);
    RowsDated(s, Apply(s, a.op, a.now), a.now);
  }

  lemma RowsDated(s: Db, t: Db, now: Time)
    requires Dated(s) && RowsStep(s, t, now) && s.clock <= now
    ensures forall j :: j in t.jobs ==> t.jobs[j].createdAt <= now
  {
    forall j | j in t.jobs ensures t.jobs[j].createdAt <= now {
      if j in s.jobs {
        RowStepKeeps(s.jobs[j], t.jobs[j]);
      }
    }
  }
}
