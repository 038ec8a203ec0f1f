/** Leases and the execution ledger over whole runs. */
module Ledger {
  import opened Schema
  import opened Transactions
  import opened Protocol
  import opened Rows
  import opened Fencing
  import opened Frames

  // ---------------------------------------------------------------- what a ledger must say

  predicate ExecOf(s: Db, x: ExecId, j: JobId) {
    x in s.execs && s.execs[x].job == j
  }

  /** A lease exactly while claimed or running, an open execution exactly while running, both
      under the job's fence; a success only on a completed job. */
  ghost predicate JobLedger(s: Db, j: JobId)
    requires j in s.jobs
  {
    var r := s.jobs[j];
    && (Active(r.status) <==> j in s.leases)
    && (Active(r.status) ==> s.leases[j].fence == r.fence)
    && (forall x :: ExecOf(s, x, j) && IsOpen(s.execs[x]) ==> r.status.Running? && s.execs[x].fence == r.fence)
    && (forall x :: ExecOf(s, x, j) && s.execs[x].closed.Some? && s.execs[x].closed.value.outcome.Success? ==>
          r.status.Completed? && s.execs[x].fence == r.fence)
    && (r.status.Running? ==> exists x :: ExecOf(s, x, j) && IsOpen(s.execs[x]))
  }

  ghost predicate Ledgers(s: Db) {
    && (forall j :: j in s.leases ==> j in s.jobs)
    && (forall j :: j in s.jobs ==> JobLedger(s, j))
  }

  /** What the never-changing columns of the executions say. */
  predicate ExecFits(s: Db, e: Exec) {
    && e.job in s.jobs
    && e.queue == s.jobs[e.job].queue
    && e.fence <= s.jobs[e.job].fence
    && (e.fence == s.jobs[e.job].fence ==> !s.jobs[e.job].status.Claimed?)
    && 1 <= e.attempt <= 2 * s.jobs[e.job].policy.maxAttempts
    && 0 <= e.generation <= s.jobs[e.job].generation
    && (e.generation == s.jobs[e.job].generation ==> e.attempt <= s.jobs[e.job].attempts)
  }

  predicate SameKey(a: Exec, b: Exec) {
    a.job == b.job && (a.fence == b.fence || (a.generation == b.generation && a.attempt == b.attempt))
  }

  predicate Attempted(s: Db, x: ExecId, j: JobId, g: int, a: int) {
    ExecOf(s, x, j) && s.execs[x].generation == g && s.execs[x].attempt == a
  }

  ghost predicate HasAttempt(s: Db, j: JobId, g: int, a: int) {
    exists x :: Attempted(s, x, j, g, a)
  }

  predicate AllFit(s: Db) {
    forall x :: x in s.execs ==> ExecFits(s, s.execs[x])
  }

  predicate KeysUnique(s: Db) {
    forall x, y :: x in s.execs && y in s.execs && x != y ==> !SameKey(s.execs[x], s.execs[y])
  }

  ghost predicate NoAttemptMissing(s: Db) {
    forall x, a :: x in s.execs && 1 <= a <= s.execs[x].attempt ==>
        HasAttempt(s, s.execs[x].job, s.execs[x].generation, a)
  }

  ghost predicate CountReached(s: Db) {
    forall j :: j in s.jobs && s.jobs[j].attempts > 0 ==> HasAttempt(s, j, s.jobs[j].generation, s.jobs[j].attempts)
  }

  ghost predicate History(s: Db) {
    AllFit(s) && KeysUnique(s) && NoAttemptMissing(s) && CountReached(s)
  }

  // ---------------------------------------------------------------- executions are closed once

  /** An execution row changes only from open to closed, and is never removed. */
  predicate ExecStep(e: Exec, n: Exec) {
    e == n || (IsOpen(e) && n.closed.Some? && n == e.(closed := n.closed))
  }

  predicate ExecsStep(s: Db, t: Db) {
    forall x :: x in s.execs ==> x in t.execs && ExecStep(s.execs[x], t.execs[x])
  }

  predicate Closes(before: map<ExecId, Exec>, after: map<ExecId, Exec>) {
    after.Keys == before.Keys && forall x :: x in before ==> ExecStep(before[x], after[x])
  }

  lemma ClosingSteps(execs: map<ExecId, Exec>, x: ExecId, job: JobId, ids: set<ExecId>, o: Outcome, now: Time)
    ensures Closes(execs, CloseById(execs, x, o, now))
    ensures Closes(execs, CloseOfJob(execs, job, o, now))
    ensures Closes(execs, CloseThese(execs, ids, o, now))
    ensures Closes(execs, execs)
  {
  }

  lemma SweepSteps(s: Db, ids: set<ExecId>, now: Time)
    ensures Closes(s.execs, Sweep(s, ids, now).execs)
  {
  }

  predicate ClosesExecs(op: Op) { Execs in Writes(op) && !op.DoStart? }

  lemma CompleteCloses(s: Db, job: JobId, f: int, x: ExecId, now: Time)
    ensures Closes(s.execs, Complete(s, job, f, x, now).execs)
  {
    ClosingSteps(s.execs, x, job, {}, Success, now);
    hide Closes, CloseById, FinishDependents, Woken, EventsOf, ReleaseSlots, Count, DurationOf;
  }

  lemma BatchCloses(s: Db, batch: seq<Done>, now: Time)
    ensures Closes(s.execs, CompleteBatch(s, batch, now).execs)
  {
    ClosingSteps(s.execs, 0, 0, ExecsOf(Matched(s, batch)), Success, now);
    hide Closes, CloseThese, AfterDone, GroupedStats, GroupedRelease, WokenByBatch, Matched, JobsOf, ExecsOf;
  }

  lemma FailCloses(s: Db, job: JobId, f: Option<int>, o: Outcome, p: bool, backoff: Time, now: Time)
    ensures Closes(s.execs, Fail(s, job, f, o, p, backoff, now).execs)
  {
    ClosingSteps(s.execs, 0, job, {}, o, now);
    hide Closes, CloseOfJob, CancelDescendants, Killed, EventsOf, ReleaseSlots, Count, FailRow, Exhausted, DeadReason;
  }

  lemma SnoozeCloses(s: Db, job: JobId, f: Option<int>, x: ExecId, delay: Time, now: Time)
    ensures Closes(s.execs, Snooze(s, job, f, x, delay, now).execs)
  {
    ClosingSteps(s.execs, x, job, {}, Snoozed, now);
    hide Closes, CloseById, SnoozeRow, ReleaseSlots;
  }

  lemma CancelCloses(s: Db, job: JobId, now: Time)
    ensures Closes(s.execs, Cancel(s, job, now).execs)
  {
    ClosingSteps(s.execs, 0, job, {}, CancelledRun, now);
    hide Closes, CloseOfJob, ReleaseSlots;
  }

  lemma ProbeCloses(s: Db, x: ExecId, o: Outcome, now: Time)
    ensures Closes(s.execs, CloseExecution(s, x, o, now).execs)
  {
    ClosingSteps(s.execs, x, 0, {}, o, now);
    hide Closes, CloseById;
  }

  lemma ExecsClosed(s: Db, op: Op, now: Time)
    requires ClosesExecs(op)
    ensures Closes(s.execs, Apply(s, op, now).execs)
  {
    hide Closes;
    hide Submit, Fire, AdmitTo, Take, GiveBack, Crash, Start, Extend, Complete, CompleteBatch, Fail, Snooze, Cancel;
    hide Promote, Retry, Replay, ReplayDead, Probe, CloseExecution, Sweep, ConfigureQueue, FlipBreaker, Reconcile;
    match op
    case DoComplete(job, f, x) => CompleteCloses(s, job, f, x, now);
    case DoCompleteBatch(b) => BatchCloses(s, b, now);
    case DoFail(job, f, o, p, backoff) => FailCloses(s, job, Some(f), o, p, backoff, now);
    case DoReap(job, backoff) => FailCloses(s, job, None, Lost, false, backoff, now);
    case DoSnooze(job, f, x, delay) => SnoozeCloses(s, job, Some(f), x, delay, now);
    case DoCancel(job) => CancelCloses(s, job, now);
    case DoCloseExecution(x, o) => ProbeCloses(s, x, o, now);
    case DoSweep(ids) => SweepSteps(s, ids, now);
  }

  lemma StartAddsExec(s: Db, job: JobId, f: int, w: WorkerId, x: ExecId, now: Time)
    ensures ExecsStep(s, Start(s, job, f, w, x, now))
  {
  }

  /** In every transaction: an outcome, once written, is never written again, and no execution
      disappears. */
  lemma OutcomesWrittenOnce(s: Db, op: Op, now: Time)
    ensures ExecsStep(s, Apply(s, op, now))
    ensures !op.DoStart? ==> Apply(s, op, now).execs.Keys == s.execs.Keys
  {
    if ClosesExecs(op) {
      hide Apply, ExecStep;
      ExecsClosed(s, op, now);
    } else if op.DoStart? {
      hide Start, ExecsStep;
      StartAddsExec(s, op.job, op.fence, op.worker, op.exec, now);
    } else {
      hide Apply;
      ApplyWrites(s, op, now);
    }
  }

  // ---------------------------------------------------------------- history is kept

  lemma QuietFits(o: Job, n: Job, e: Exec)
    requires QuietStep(o, n) && RowOk(o)
    ensures n.fence >= o.fence && n.generation >= o.generation && n.policy == o.policy && n.queue == o.queue
    ensures n.generation == o.generation ==> n.attempts == o.attempts
    ensures n.generation != o.generation ==> n.attempts == 0 && n.generation == o.generation + 1
    ensures n.status.Claimed? ==> n.fence > o.fence || (o.status.Claimed? && n.fence == o.fence)
  {
  }

  lemma SameHistoryAttempts(s: Db, t: Db, j: JobId, g: int, a: int)
    requires ExecsStep(s, t) && HasAttempt(s, j, g, a)
    ensures HasAttempt(t, j, g, a)
  {
    var x :| Attempted(s, x, j, g, a);
    assert Attempted(t, x, j, g, a);
  }

  lemma QuietFitsAll(s: Db, t: Db, now: Time)
    requires AllFit(s) && RowsOk(s) && QuietRows(s, t, now) && ExecsStep(s, t) && t.execs.Keys == s.execs.Keys
    ensures AllFit(t)
  {
    hide QuietStep, RowOk, NewRow;
    forall x | x in t.execs ensures ExecFits(t, t.execs[x]) {
      assert ExecFits(s, s.execs[x]);
      var j := s.execs[x].job;
      QuietFits(s.jobs[j], t.jobs[j], s.execs[x]);
    }
  }

  lemma QuietCounts(s: Db, t: Db, now: Time)
    requires CountReached(s) && RowsOk(s) && QuietRows(s, t, now) && ExecsStep(s, t)
    ensures CountReached(t)
  {
    hide QuietStep, RowOk, NewRow, HasAttempt, ExecStep;
    forall j | j in t.jobs && t.jobs[j].attempts > 0
      ensures HasAttempt(t, j, t.jobs[j].generation, t.jobs[j].attempts)
    {
      if j in s.jobs {
        QuietFits2(s.jobs[j], t.jobs[j]);
        SameHistoryAttempts(s, t, j, s.jobs[j].generation, s.jobs[j].attempts);
      } else {
        NewRowIsBlank(t.jobs[j], now);
      }
    }
  }

  lemma KeysStay(s: Db, t: Db)
    requires KeysUnique(s) && ExecsStep(s, t) && t.execs.Keys == s.execs.Keys
    ensures KeysUnique(t)
  {
    forall x, y | x in t.execs && y in t.execs && x != y ensures !SameKey(t.execs[x], t.execs[y]) {
      assert !SameKey(s.execs[x], s.execs[y]);
    }
  }

  lemma AttemptsStay(s: Db, t: Db)
    requires NoAttemptMissing(s) && ExecsStep(s, t) && t.execs.Keys == s.execs.Keys
    ensures NoAttemptMissing(t)
  {
    hide HasAttempt;
    forall x, a | x in t.execs && 1 <= a <= t.execs[x].attempt
      ensures HasAttempt(t, t.execs[x].job, t.execs[x].generation, a)
    {
      SameHistoryAttempts(s, t, s.execs[x].job, s.execs[x].generation, a);
    }
  }

  lemma QuietKeepsHistory(s: Db, t: Db, now: Time)
    requires History(s) && RowsOk(s) && QuietRows(s, t, now) && ExecsStep(s, t) && t.execs.Keys == s.execs.Keys
    ensures History(t)
  {
    hide QuietRows, RowsOk, ExecsStep, AllFit, KeysUnique, NoAttemptMissing, CountReached;
    QuietFitsAll(s, t, now);
    KeysStay(s, t);
    AttemptsStay(s, t);
    QuietCounts(s, t, now);
  }

  lemma QuietFits2(o: Job, n: Job)
    requires QuietStep(o, n) && n.attempts > 0
    ensures n.attempts == o.attempts && n.generation == o.generation
  {
  }

  lemma NewRowIsBlank(n: Job, now: Time)
    requires NewRow(n, now)
    ensures n.attempts == 0 && n.fence == 0 && !Active(n.status) && !n.status.Completed?
  {
  }

  /** A start appends the next attempt under a fence no execution carries yet, so the unique
      keys on executions cannot trip. */
  lemma StartKeepsKeys(s: Db, job: JobId, f: int, worker: WorkerId, exec: ExecId, now: Time)
    requires AllFit(s) && KeysUnique(s) && HeldAs(s, job, f, Claimed) && exec !in s.execs && RowOk(s.jobs[job])
    ensures var t := Start(s, job, f, worker, exec, now); AllFit(t) && KeysUnique(t)
  {
    var t := Start(s, job, f, worker, exec, now);
    forall x | x in s.execs ensures ExecFits(t, s.execs[x]) && !SameKey(s.execs[x], t.execs[exec]) {
      assert ExecFits(s, s.execs[x]);
    }
  }

  lemma StartKeepsAttempts(s: Db, job: JobId, f: int, worker: WorkerId, exec: ExecId, now: Time)
    requires NoAttemptMissing(s) && CountReached(s) && HeldAs(s, job, f, Claimed) && exec !in s.execs
        && RowOk(s.jobs[job])
    ensures NoAttemptMissing(Start(s, job, f, worker, exec, now))
  {
    var t := Start(s, job, f, worker, exec, now);
    var r, e := s.jobs[job], t.execs[exec];
    assert ExecsStep(s, t);
    hide HasAttempt;
    forall x, a | x in t.execs && 1 <= a <= t.execs[x].attempt
      ensures HasAttempt(t, t.execs[x].job, t.execs[x].generation, a)
    {
      if x != exec {
        SameHistoryAttempts(s, t, s.execs[x].job, s.execs[x].generation, a);
      } else if a == e.attempt {
        NewAttempt(t, exec, job, e.generation, a);
      } else {
        EarlierAttempt(s, job, a);
        SameHistoryAttempts(s, t, job, r.generation, a);
      }
    }
  }

  lemma NewAttempt(t: Db, x: ExecId, j: JobId, g: int, a: int)
    requires Attempted(t, x, j, g, a)
    ensures HasAttempt(t, j, g, a)
  {
  }

  lemma EarlierAttempt(s: Db, j: JobId, a: int)
    requires NoAttemptMissing(s) && CountReached(s) && j in s.jobs && 1 <= a <= s.jobs[j].attempts
    ensures HasAttempt(s, j, s.jobs[j].generation, a)
  {
    assert HasAttempt(s, j, s.jobs[j].generation, s.jobs[j].attempts);
    var y :| Attempted(s, y, j, s.jobs[j].generation, s.jobs[j].attempts);
    assert y in s.execs && 1 <= a <= s.execs[y].attempt;
  }

  lemma StartReachesCount(s: Db, job: JobId, f: int, worker: WorkerId, exec: ExecId, now: Time)
    requires CountReached(s) && HeldAs(s, job, f, Claimed) && exec !in s.execs
    ensures CountReached(Start(s, job, f, worker, exec, now))
  {
    var t := Start(s, job, f, worker, exec, now);
    assert ExecsStep(s, t);
    hide HasAttempt;
    forall j | j in t.jobs && t.jobs[j].attempts > 0 ensures HasAttempt(t, j, t.jobs[j].generation, t.jobs[j].attempts)
    {
      if j == job {
        NewAttempt(t, exec, job, t.jobs[job].generation, t.jobs[job].attempts);
      } else {
        SameHistoryAttempts(s, t, j, s.jobs[j].generation, s.jobs[j].attempts);
      }
    }
  }

  lemma StepKeepsHistory(s: Db, op: Op, now: Time)
    requires History(s) && RowsOk(s) && s.clock <= now
    ensures History(Apply(s, op, now))
  {
    if !op.DoStart? {
      hide *;
      OutcomesWrittenOnce(s, op, now);
      assert Dated(s) by { RowsAreDated(s); }
      ApplyMovesRows(s, op, now);
      QuietKeepsHistory(s, Apply(s, op, now), now);
    } else if HeldAs(s, op.job, op.fence, Claimed) && op.exec !in s.execs {
      assert RowOk(s.jobs[op.job]);
      hide AllFit, KeysUnique, NoAttemptMissing, CountReached, RowOk, Start;
      StartKeepsKeys(s, op.job, op.fence, op.worker, op.exec, now);
      StartKeepsAttempts(s, op.job, op.fence, op.worker, op.exec, now);
      StartReachesCount(s, op.job, op.fence, op.worker, op.exec, now);
    }
  }

  lemma RowsAreDated(s: Db)
    requires RowsOk(s)
    ensures Dated(s)
  {
  }

  // ---------------------------------------------------------------- open executions and leases

  /** A worker reports with the execution id that its own start returned. */
  predicate Honest(s: Db, op: Op) {
    && (op.DoComplete? ==> Owns(s, op.job, op.fence, op.exec))
    && (op.DoSnooze? ==> Owns(s, op.job, op.fence, op.exec))
    && (op.DoCompleteBatch? ==> forall i :: 0 <= i < |op.batch| ==>
        Owns(s, op.batch[i].job, op.batch[i].fence, op.batch[i].exec))
  }

  predicate Owns(s: Db, job: JobId, f: int, x: ExecId) {
    ExecOf(s, x, job) && s.execs[x].fence == f
  }

  /** What the ledger of a job depends on in its row. */
  predicate SameStanding(a: Job, b: Job) {
    || (a.status == b.status && a.fence == b.fence)
    || (!Active(a.status) && !Active(b.status) && !a.status.Completed? && !b.status.Completed?)
  }

  /** Nothing that the ledger of job j speaks about has changed. */
  ghost predicate Undisturbed(s: Db, t: Db, j: JobId)
    requires j in s.jobs && j in t.jobs
  {
    && SameStanding(s.jobs[j], t.jobs[j])
    && (j in s.leases <==> j in t.leases)
    && (j in s.leases ==> s.leases[j].fence == t.leases[j].fence)
    && (forall x :: ExecOf(s, x, j) ==> ExecOf(t, x, j) && t.execs[x] == s.execs[x])
    && (forall x :: ExecOf(t, x, j) ==> ExecOf(s, x, j))
  }

  lemma Frame(s: Db, t: Db, j: JobId)
    requires j in s.jobs && j in t.jobs && JobLedger(s, j) && Undisturbed(s, t, j)
    ensures JobLedger(t, j)
  {
    if t.jobs[j].status.Running? {
      var x :| ExecOf(s, x, j) && IsOpen(s.execs[x]);
      assert ExecOf(t, x, j) && IsOpen(t.execs[x]);
    }
  }

  /** The id a worker owns for a running job names the one open execution. */
  lemma OwnedIsOpen(s: Db, job: JobId, f: int, x: ExecId)
    requires History(s) && HeldAs(s, job, f, Running) && JobLedger(s, job) && Owns(s, job, f, x)
    ensures IsOpen(s.execs[x])
    ensures forall y :: ExecOf(s, y, job) && IsOpen(s.execs[y]) ==> y == x
  {
    forall y | ExecOf(s, y, job) && IsOpen(s.execs[y]) ensures y == x {
      assert x != y ==> !SameKey(s.execs[x], s.execs[y]);
    }
    var y :| ExecOf(s, y, job) && IsOpen(s.execs[y]);
  }

  // Each lemma below says which jobs a transaction disturbs and that their ledgers come out right.

  lemma AddedJobLedger(s: Db, t: Db, id: JobId)
    requires Ledgers(s) && AllFit(s) && id !in s.jobs && id in t.jobs && t.jobs == s.jobs[id := t.jobs[id]]
    requires !Active(t.jobs[id].status) && t.execs == s.execs && t.leases == s.leases
    ensures Ledgers(t)
  {
    forall x | x in s.execs ensures s.execs[x].job != id {
      assert ExecFits(s, s.execs[x]);
    }
    assert forall x :: !ExecOf(t, x, id);
    hide JobLedger;
    forall j | j in t.jobs ensures JobLedger(t, j) {
      if j in s.jobs {
        Frame(s, t, j);
      } else {
        BlankLedger(t, j);
      }
    }
  }

  lemma BlankLedger(t: Db, j: JobId)
    requires j in t.jobs && !Active(t.jobs[j].status) && j !in t.leases && forall x :: !ExecOf(t, x, j)
    ensures JobLedger(t, j)
  {
  }

  lemma SubmitLedger(s: Db, op: Op, now: Time)
    requires Ledgers(s) && AllFit(s) && (op.DoSubmit? || op.DoFire?)
    ensures Ledgers(Apply(s, op, now))
  {
    var t := Apply(s, op, now);
    if Acceptable(s, op.r) {
      hide Ledgers, AllFit;
      AddedJobLedger(s, t, op.r.id);
    }
  }

  lemma TakeLedger(s: Db, g: nat, ids: set<JobId>, w: WorkerId, lease: Time, now: Time)
    requires Ledgers(s) && AllFit(s)
    ensures Ledgers(Take(s, g, ids, w, lease, now))
  {
    var t := Take(s, g, ids, w, lease, now);
    if LiveGrant(s, g) && Claimable(s, g, ids, now) {
      forall j | j in t.jobs ensures JobLedger(t, j) {
        if j !in ids {
          Frame(s, t, j);
        } else {
          assert JobLedger(s, j);
          assert forall x :: ExecOf(t, x, j) ==> ExecOf(s, x, j);
        }
      }
    }
  }

  lemma StartLedger(s: Db, job: JobId, f: int, w: WorkerId, exec: ExecId, now: Time)
    requires Ledgers(s)
    ensures Ledgers(Start(s, job, f, w, exec, now))
  {
    var t := Start(s, job, f, w, exec, now);
    if HeldAs(s, job, f, Claimed) && exec !in s.execs {
      forall j | j in t.jobs ensures JobLedger(t, j) {
        if j != job {
          Frame(s, t, j);
        } else {
          assert JobLedger(s, j);
          assert ExecOf(t, exec, j) && IsOpen(t.execs[exec]);
          assert forall x :: ExecOf(t, x, j) && x != exec ==> ExecOf(s, x, j);
        }
      }
    }
  }

  /** What a transaction that lets go of one job does to the executions. */
  predicate ClosesExactly(s: Db, t: Db, job: JobId)
    requires job in t.jobs
  {
    && t.execs.Keys == s.execs.Keys
    && (forall x :: x in s.execs && s.execs[x].job != job ==> t.execs[x] == s.execs[x])
    && (forall x :: x in s.execs && s.execs[x].job == job ==>
          var e := t.execs[x];
          && e.job == job && e.closed.Some?
          && (e.closed.value.outcome.Success? ==> t.jobs[job].status.Completed? && e.fence == t.jobs[job].fence))
  }

  predicate OthersStand(s: Db, t: Db, job: JobId) {
    t.jobs.Keys == s.jobs.Keys && forall j :: j in s.jobs && j != job ==> SameStanding(s.jobs[j], t.jobs[j])
  }

  lemma LettingGo(s: Db, t: Db, job: JobId)
    requires Ledgers(s) && job in s.jobs && job in t.jobs
    requires OthersStand(s, t, job) && ClosesExactly(s, t, job)
    requires !Active(t.jobs[job].status) && t.leases == s.leases - {job}
    ensures Ledgers(t)
  {
    forall j | j in t.jobs ensures JobLedger(t, j) {
      assert JobLedger(s, j);
      if j != job {
        Frame(s, t, j);
      }
    }
  }

  lemma CompleteStands(s: Db, job: JobId, f: int, exec: ExecId, now: Time)
    requires HeldAs(s, job, f, Running)
    ensures var t := Complete(s, job, f, exec, now);
            OthersStand(s, t, job) && job in t.jobs && t.jobs[job].status.Completed? && t.jobs[job].fence == f
  {
  }

  /** Nothing of a held job counts as a success yet. */
  lemma NoSuccessWhileHeld(s: Db, job: JobId)
    requires job in s.jobs && JobLedger(s, job) && Active(s.jobs[job].status)
    ensures forall x :: ExecOf(s, x, job) && s.execs[x].closed.Some? ==> !s.execs[x].closed.value.outcome.Success?
  {
  }

  lemma ClosingById(s: Db, t: Db, job: JobId, exec: ExecId, o: Outcome, now: Time)
    requires job in t.jobs && ExecOf(s, exec, job) && IsOpen(s.execs[exec])
        && t.execs == CloseById(s.execs, exec, o, now)
    requires forall y :: ExecOf(s, y, job) && IsOpen(s.execs[y]) ==> y == exec
    requires forall x :: ExecOf(s, x, job) && s.execs[x].closed.Some? ==> !s.execs[x].closed.value.outcome.Success?
    requires o.Success? ==> t.jobs[job].status.Completed? && s.execs[exec].fence == t.jobs[job].fence
    ensures ClosesExactly(s, t, job)
  {
    forall x | x in s.execs && s.execs[x].job == job
      ensures t.execs[x].closed.Some? && (t.execs[x].closed.value.outcome.Success? ==> x == exec && o.Success?)
    {
      assert ExecOf(s, x, job);
    }
  }

  lemma ClosingOfJob(s: Db, t: Db, job: JobId, o: Outcome, now: Time)
    requires job in t.jobs && t.execs == CloseOfJob(s.execs, job, o, now) && !o.Success?
    requires forall x :: ExecOf(s, x, job) && s.execs[x].closed.Some? ==> !s.execs[x].closed.value.outcome.Success?
    ensures ClosesExactly(s, t, job)
  {
    assert forall x :: x in s.execs && s.execs[x].job == job ==> ExecOf(s, x, job);
  }

  lemma CompleteParts(s: Db, job: JobId, f: int, exec: ExecId, now: Time)
    requires HeldAs(s, job, f, Running)
    ensures var t := Complete(s, job, f, exec, now);
            t.execs == CloseById(s.execs, exec, Success, now) && t.leases == s.leases - {job}
  {
    hide CloseById, FinishDependents, Woken, EventsOf, ReleaseSlots, Count, DurationOf;
  }

  lemma CompleteLedger(s: Db, job: JobId, f: int, exec: ExecId, now: Time)
    requires Ledgers(s) && History(s) && Owns(s, job, f, exec)
    ensures Ledgers(Complete(s, job, f, exec, now))
  {
    var t := Complete(s, job, f, exec, now);
    if HeldAs(s, job, f, Running) {
      hide Complete, History, JobLedger, OthersStand, CloseById, ClosesExactly;
      CompleteParts(s, job, f, exec, now);
      CompleteStands(s, job, f, exec, now);
      OwnedIsOpen(s, job, f, exec);
      NoSuccessWhileHeld(s, job);
      ClosingById(s, t, job, exec, Success, now);
      LettingGo(s, t, job);
    } else {
      hide Ledgers, History, FinishDependents, Woken, EventsOf, ReleaseSlots, Count, DurationOf;
    }
  }

  lemma FailStands(s: Db, job: JobId, f: Option<int>, o: Outcome, p: bool, backoff: Time, now: Time)
    requires Failable(s, job, f)
    ensures var t := Fail(s, job, f, o, p, backoff, now);
            OthersStand(s, t, job) && job in t.jobs && !Active(t.jobs[job].status)
  {
    hide CloseOfJob, EventsOf, ReleaseSlots, Count, DeadReason;
  }

  lemma FailLedger(s: Db, job: JobId, f: Option<int>, o: Outcome, p: bool, backoff: Time, now: Time)
    requires Ledgers(s) && !o.Success?
    ensures Ledgers(Fail(s, job, f, o, p, backoff, now))
  {
    var t := Fail(s, job, f, o, p, backoff, now);
    if Failable(s, job, f) {
      assert t.execs == CloseOfJob(s.execs, job, o, now) && t.leases == s.leases - {job};
      FailStands(s, job, f, o, p, backoff, now);
      hide Fail, JobLedger, OthersStand, CloseOfJob, ClosesExactly;
      NoSuccessWhileHeld(s, job);
      ClosingOfJob(s, t, job, o, now);
      LettingGo(s, t, job);
    }
  }

  lemma SnoozeStands(s: Db, job: JobId, f: Option<int>, exec: ExecId, delay: Time, now: Time)
    requires Snoozable(s, job, f, delay, now)
    ensures var t := Snooze(s, job, f, exec, delay, now);
            OthersStand(s, t, job) && job in t.jobs && !Active(t.jobs[job].status)
  {
  }

  lemma SnoozeLedger(s: Db, job: JobId, f: int, exec: ExecId, delay: Time, now: Time)
    requires Ledgers(s) && History(s) && Owns(s, job, f, exec)
    ensures Ledgers(Snooze(s, job, Some(f), exec, delay, now))
  {
    var t := Snooze(s, job, Some(f), exec, delay, now);
    if Snoozable(s, job, Some(f), delay, now) {
      assert t.execs == CloseById(s.execs, exec, Snoozed, now) && t.leases == s.leases - {job};
      assert HeldAs(s, job, f, Running);
      SnoozeStands(s, job, Some(f), exec, delay, now);
      hide Snooze, History, JobLedger, OthersStand, CloseById, ClosesExactly;
      OwnedIsOpen(s, job, f, exec);
      NoSuccessWhileHeld(s, job);
      ClosingById(s, t, job, exec, Snoozed, now);
      LettingGo(s, t, job);
    }
  }

  lemma CancelLedger(s: Db, job: JobId, now: Time)
    requires Ledgers(s)
    ensures Ledgers(Cancel(s, job, now))
  {
    var t := Cancel(s, job, now);
    if t.jobs != s.jobs {
      assert JobLedger(s, job);
      assert OthersStand(s, t, job);
      if Active(s.jobs[job].status) {
        assert ClosesExactly(s, t, job);
        hide JobLedger;
        LettingGo(s, t, job);
      } else {
        assert SameStanding(s.jobs[job], t.jobs[job]);
        hide JobLedger;
        Unheld(s, t);
      }
    }
  }

  predicate AllStand(s: Db, t: Db) {
    && t.execs == s.execs && t.leases == s.leases && t.jobs.Keys == s.jobs.Keys
    && forall j :: j in s.jobs ==> SameStanding(s.jobs[j], t.jobs[j])
  }

  lemma PromoteStands(s: Db, ids: set<JobId>, now: Time)
    ensures AllStand(s, Promote(s, ids, now))
  {
    hide EventsOf;
    var t := Promote(s, ids, now);
    assert t.execs == s.execs && t.leases == s.leases && t.jobs.Keys == s.jobs.Keys;
    forall j | j in s.jobs ensures SameStanding(s.jobs[j], t.jobs[j]) {
      if t != s && j in ids { assert Promotable(s, j, now); }
    }
    hide Promote, SameStanding;
  }

  lemma ReplayDeadStands(s: Db, spacing: map<JobId, Time>, now: Time)
    ensures AllStand(s, ReplayDead(s, spacing, now))
  {
    hide EventsOf, MarkReplayed;
    var t := ReplayDead(s, spacing, now);
    forall j | j in s.jobs ensures SameStanding(s.jobs[j], t.jobs[j]) {
      assert j in spacing && t != s ==> BulkReplayable(s, j);
    }
  }

  lemma RetryStands(s: Db, job: JobId, now: Time)
    ensures AllStand(s, Retry(s, job, now))
  {
    hide AllStand;
    OneStands(s, Retry(s, job, now), job);
  }

  lemma ReplayStands(s: Db, job: JobId, now: Time)
    ensures AllStand(s, Replay(s, job, now))
  {
    hide CancelledKin, MarkReplayed, AllStand;
    OneStands(s, Replay(s, job, now), job);
  }

  lemma OneStands(s: Db, t: Db, job: JobId)
    requires t.execs == s.execs && t.leases == s.leases
    requires t.jobs == s.jobs
        || (job in s.jobs && job in t.jobs && t.jobs == s.jobs[job := t.jobs[job]]
        && SameStanding(s.jobs[job], t.jobs[job]))
    ensures AllStand(s, t)
  {
  }

  /** Rows move between statuses that hold nothing. */
  lemma Unheld(s: Db, t: Db)
    requires Ledgers(s) && AllStand(s, t)
    ensures Ledgers(t)
  {
    hide JobLedger;
    forall j | j in t.jobs ensures JobLedger(t, j) {
      Frame(s, t, j);
    }
  }

  // ---------------------------------------------------------------- batches

  predicate OwnsAll(s: Db, batch: seq<Done>) {
    forall i :: 0 <= i < |batch| ==> Owns(s, batch[i].job, batch[i].fence, batch[i].exec)
  }

  lemma BatchExecs(s: Db, m: seq<Done>, x: ExecId)
    requires x in s.execs
    requires forall i :: 0 <= i < |m| ==> Owns(s, m[i].job, m[i].fence, m[i].exec)
    ensures x in ExecsOf(m) ==> s.execs[x].job in JobsOf(m)
  {
  }

  lemma BatchParts(s: Db, batch: seq<Done>, now: Time)
    requires Matched(s, batch) != []
    ensures var t, m := CompleteBatch(s, batch, now), Matched(s, batch);
            && t.jobs == AfterDone(s, JobsOf(m), now) && t.leases == s.leases - JobsOf(m)
            && t.execs == CloseThese(s.execs, ExecsOf(m), Success, now)
  {
    hide AfterDone, CloseThese, GroupedStats, GroupedRelease;
  }

  lemma BatchStands(s: Db, done: set<JobId>, now: Time, j: JobId)
    requires j in s.jobs && j !in done
    ensures SameStanding(s.jobs[j], AfterDone(s, done, now)[j])
  {
    RepeatIs(s.jobs[j], |DoneParents(s.edges, done, j)|, now);
  }

  lemma BatchUndisturbed(s: Db, t: Db, m: seq<Done>, now: Time, j: JobId)
    requires OwnsAll(s, m) && j in s.jobs && j !in JobsOf(m)
    requires t.jobs == AfterDone(s, JobsOf(m), now) && t.leases == s.leases - JobsOf(m)
    requires t.execs == CloseThese(s.execs, ExecsOf(m), Success, now)
    ensures j in t.jobs && Undisturbed(s, t, j)
  {
    BatchStands(s, JobsOf(m), now, j);
    forall x | ExecOf(s, x, j) ensures ExecOf(t, x, j) && t.execs[x] == s.execs[x] {
      BatchExecs(s, m, x);
    }
  }

  lemma BatchSettles(s: Db, t: Db, m: seq<Done>, now: Time, i: nat)
    requires i < |m| && HeldAs(s, m[i].job, m[i].fence, Running) && JobLedger(s, m[i].job)
    requires ExecOf(s, m[i].exec, m[i].job) && IsOpen(s.execs[m[i].exec]) && s.execs[m[i].exec].fence == m[i].fence
    requires forall y :: ExecOf(s, y, m[i].job) && IsOpen(s.execs[y]) ==> y == m[i].exec
    requires t.jobs == AfterDone(s, JobsOf(m), now) && t.leases == s.leases - JobsOf(m)
    requires t.execs == CloseThese(s.execs, ExecsOf(m), Success, now)
    ensures m[i].job in t.jobs && JobLedger(t, m[i].job)
  {
    var j := m[i].job;
    assert m[i] in m && j in JobsOf(m) && m[i].exec in ExecsOf(m);
    assert t.jobs[j] == CompleteRow(s.jobs[j], now);
    forall x | ExecOf(t, x, j)
        ensures t.execs[x].closed.Some? && (t.execs[x].closed.value.outcome.Success? ==> x == m[i].exec)
    {
      assert ExecOf(s, x, j);
    }
  }

  lemma MatchedOwned(s: Db, batch: seq<Done>)
    requires OwnsAll(s, batch)
    ensures OwnsAll(s, Matched(s, batch))
  {
    var m := Matched(s, batch);
    forall i | 0 <= i < |m| ensures Owns(s, m[i].job, m[i].fence, m[i].exec) {
      assert m[i] in batch;
    }
  }

  lemma BatchDoneLedger(s: Db, t: Db, m: seq<Done>, now: Time, j: JobId)
    requires Ledgers(s) && History(s) && OwnsAll(s, m) && j in JobsOf(m)
    requires forall i :: 0 <= i < |m| ==> HeldAs(s, m[i].job, m[i].fence, Running)
    requires t.jobs == AfterDone(s, JobsOf(m), now) && t.leases == s.leases - JobsOf(m)
    requires t.execs == CloseThese(s.execs, ExecsOf(m), Success, now)
    ensures j in t.jobs && JobLedger(t, j)
  {
    var d :| d in m && d.job == j;
    var i :| 0 <= i < |m| && m[i] == d;
    hide JobLedger, History, CloseThese, OwnsAll, AfterDone;
    MatchedIsOpen(s, m, i);
    BatchSettles(s, t, m, now, i);
  }

  lemma SettledLedger(s: Db, t: Db, m: seq<Done>, now: Time)
    requires Ledgers(s) && History(s) && OwnsAll(s, m)
    requires forall i :: 0 <= i < |m| ==> HeldAs(s, m[i].job, m[i].fence, Running)
    requires t.jobs == AfterDone(s, JobsOf(m), now) && t.leases == s.leases - JobsOf(m)
    requires t.execs == CloseThese(s.execs, ExecsOf(m), Success, now)
    ensures Ledgers(t)
  {
    hide CloseThese, ExecsOf, JobsOf, JobLedger, History, Undisturbed, OwnsAll, HeldAs;
    assert t.jobs.Keys == s.jobs.Keys;
    hide AfterDone;
    forall j | j in t.jobs ensures JobLedger(t, j) {
      if j in JobsOf(m) {
        BatchDoneLedger(s, t, m, now, j);
      } else {
        BatchUndisturbed(s, t, m, now, j);
        Frame(s, t, j);
      }
    }
  }

  lemma BatchLedger(s: Db, batch: seq<Done>, now: Time)
    requires Ledgers(s) && History(s) && OwnsAll(s, batch)
    ensures Ledgers(CompleteBatch(s, batch, now))
  {
    if Matched(s, batch) == [] {
      hide Matched, Ledgers, History, OwnsAll, JobsOf, ExecsOf, AfterDone, CloseThese;
    } else {
      hide *;
      BatchParts(s, batch, now);
      MatchedOwned(s, batch);
      SettledLedger(s, CompleteBatch(s, batch, now), Matched(s, batch), now);
    }
  }

  lemma MatchedIsOpen(s: Db, m: seq<Done>, i: nat)
    requires i < |m| && OwnsAll(s, m) && History(s) && HeldAs(s, m[i].job, m[i].fence, Running)
        && JobLedger(s, m[i].job)
    ensures ExecOf(s, m[i].exec, m[i].job) && s.execs[m[i].exec].fence == m[i].fence && IsOpen(s.execs[m[i].exec])
    ensures forall y :: ExecOf(s, y, m[i].job) && IsOpen(s.execs[y]) ==> y == m[i].exec
  {
    assert Owns(s, m[i].job, m[i].fence, m[i].exec);
    OwnedIsOpen(s, m[i].job, m[i].fence, m[i].exec);
  }

  // ---------------------------------------------------------------- the sweeps find nothing

  /** Claims that a worker has been told are over, are over. */
  predicate FencedTrue(s: Db) {
    forall p :: p in s.fenced ==> Ended(s, p.0, p.1)
  }

  lemma CloseExecutionNoOp(s: Db, exec: ExecId, o: Outcome, now: Time)
    requires Ledgers(s) && AllFit(s) && FencedTrue(s)
    ensures CloseExecution(s, exec, o, now) == s
  {
    if exec in s.execs && (s.execs[exec].job, s.execs[exec].fence) in s.fenced {
      assert Ended(s, s.execs[exec].job, s.execs[exec].fence);
      assert JobLedger(s, s.execs[exec].job) && ExecOf(s, exec, s.execs[exec].job);
    }
  }

  lemma SweepNoOp(s: Db, ids: set<ExecId>, now: Time)
    requires Ledgers(s) && AllFit(s)
    ensures Sweep(s, ids, now) == s
  {
    forall x | x in s.execs ensures Sweep(s, ids, now).execs[x] == s.execs[x] {
      assert ExecFits(s, s.execs[x]);
      assert JobLedger(s, s.execs[x].job) && ExecOf(s, x, s.execs[x].job);
    }
    assert Sweep(s, ids, now).execs == s.execs;
  }

  // ---------------------------------------------------------------- runs

  ghost predicate LedgerOk(s: Db) {
    RowsOk(s) && History(s) && Ledgers(s) && FencedTrue(s)
  }

  lemma SameLedgers(s: Db, t: Db)
    requires Ledgers(s) && t.jobs == s.jobs && t.execs == s.execs && t.leases == s.leases
    ensures Ledgers(t)
  {
    hide JobLedger;
    forall j | j in t.jobs ensures JobLedger(t, j) {
      Frame(s, t, j);
    }
  }

  lemma ExtendLedger(s: Db, job: JobId, f: int, lease: Time, now: Time)
    requires Ledgers(s)
    ensures Ledgers(Extend(s, job, f, lease, now))
  {
    var t := Extend(s, job, f, lease, now);
    forall j | j in t.jobs ensures JobLedger(t, j) {
      Frame(s, t, j);
    }
  }

  predicate Reports(op: Op) {
    op.DoComplete? || op.DoCompleteBatch? || op.DoFail? || op.DoReap? || op.DoSnooze? || op.DoCancel?
  }

  lemma ReportKeepsLedgers(s: Db, op: Op, now: Time)
    requires LedgerOk(s) && Honest(s, op) && Reports(op) && (op.DoFail? ==> !op.outcome.Success?)
    ensures Ledgers(Apply(s, op, now))
  {
    hide Ledgers, History, RowsOk, FencedTrue, AllFit, Owns;
    hide Complete, CompleteBatch, Fail, Snooze, Cancel;
    match op
    case DoComplete(job, f, x) => CompleteLedger(s, job, f, x, now);
    case DoCompleteBatch(b) => BatchLedger(s, b, now);
    case DoFail(job, f, o, p, backoff) => FailLedger(s, job, Some(f), o, p, backoff, now);
    case DoReap(job, backoff) => FailLedger(s, job, None, Lost, false, backoff, now);
    case DoSnooze(job, f, x, delay) => SnoozeLedger(s, job, f, x, delay, now);
    case DoCancel(job) => CancelLedger(s, job, now);
  }

  lemma StepKeepsLedgers(s: Db, op: Op, now: Time)
    requires LedgerOk(s) && Honest(s, op) && (op.DoFail? ==> !op.outcome.Success?)
    ensures Ledgers(Apply(s, op, now))
  {
    hide Ledgers, History, RowsOk, FencedTrue, AllFit, Owns, AllStand;
    if Reports(op) {
      hide *;
      ReportKeepsLedgers(s, op, now);
    } else {
      hide Honest;
      OtherKeepsLedgers(s, op, now);
    }
  }

  lemma OtherKeepsLedgers(s: Db, op: Op, now: Time)
    requires LedgerOk(s) && !Reports(op)
    ensures Ledgers(Apply(s, op, now))
  {
    hide Ledgers, History, RowsOk, FencedTrue, AllFit, Owns, AllStand;
    hide Submit, Fire, AdmitTo, Take, GiveBack, Crash, Start, Extend, Complete, CompleteBatch, Fail, Snooze, Cancel;
    hide Promote, Retry, Replay, ReplayDead, Probe, CloseExecution, Sweep, ConfigureQueue, FlipBreaker, Reconcile;
    match op
    case DoSubmit(r) => HistoryFits(s); SubmitLedger(s, op, now);
    case DoFire(r, tick) => HistoryFits(s); SubmitLedger(s, op, now);
    case DoTake(g, ids, w, lease) => HistoryFits(s); TakeLedger(s, g, ids, w, lease, now);
    case DoStart(job, f, w, x) => StartLedger(s, job, f, w, x, now);
    case DoExtend(job, f, lease) => ExtendLedger(s, job, f, lease, now);
    case DoPromote(ids) => PromoteStands(s, ids, now); Unheld(s, Promote(s, ids, now));
    case DoRetry(job) => RetryStands(s, job, now); Unheld(s, Retry(s, job, now));
    case DoReplay(job) => ReplayStands(s, job, now); Unheld(s, Replay(s, job, now));
    case DoReplayDead(spacing) => ReplayDeadStands(s, spacing, now); Unheld(s, ReplayDead(s, spacing, now));
    case DoCloseExecution(x, o) => HistoryFits(s); CloseExecutionNoOp(s, x, o, now);
    case DoSweep(ids) => HistoryFits(s); SweepNoOp(s, ids, now);
    case _ => ApplyWrites(s, op, now); SameLedgers(s, Apply(s, op, now));
  }

  lemma HistoryFits(s: Db)
    requires History(s)
    ensures AllFit(s)
  {
  }

  lemma FencedGrows(s: Db, op: Op, now: Time)
    ensures var t := Apply(s, op, now);
            t.fenced == s.fenced
              || (op.DoProbe? && t.fenced == s.fenced + {(op.job, op.fence)} && Ended(s, op.job, op.fence))
  {
    if op.DoProbe? {
      hide Ended;
    } else {
      hide Apply;
      ApplyWrites(s, op, now);
    }
  }

  lemma StepKeepsFenced(s: Db, a: Act)
    requires RowsOk(s) && OnTime(s, a) && FencedTrue(s)
    ensures FencedTrue(Step(s, a))
  {
    var t := Step(s, a);
    FencedGrows(s, a.op, a.now);
    assert t.fenced == s.fenced
        || (Ended(s, a.op.job, a.op.fence) && t.fenced == s.fenced + {(a.op.job, a.op.fence)}) by {
      hide Apply;
    }
    hide Step, RowsOk, OnTime, Apply, Ended;
    forall p | p in t.fenced ensures Ended(t, p.0, p.1) {
      StepKeepsEnded(s, a, p.0, p.1);
    }
  }

  predicate HonestRun(ss: seq<Db>, acts: seq<Act>) {
    && IsRun(ss, acts)
    && forall i :: 0 <= i < |acts| ==>
        Honest(ss[i], acts[i].op) && (acts[i].op.DoFail? ==> !acts[i].op.outcome.Success?)
  }

  lemma ClockIrrelevant(s: Db, now: Time)
    ensures History(s) ==> History(s.(clock := now))
    ensures Ledgers(s) ==> Ledgers(s.(clock := now))
  {
    hide Ledgers, HasAttempt, ExecFits;
    var t := s.(clock := now);
    if Ledgers(s) {
      SameLedgers(s, t);
    }
    if History(s) {
      forall j, g, a ensures HasAttempt(s, j, g, a) ==> HasAttempt(t, j, g, a) {
        ClockAttempt(s, now, j, g, a);
      }
      forall x | x in s.execs ensures ExecFits(t, t.execs[x]) {
        assert ExecFits(s, s.execs[x]);
        ClockFit(s, now, x);
      }
    }
  }

  lemma ClockAttempt(s: Db, now: Time, j: JobId, g: int, a: int)
    ensures HasAttempt(s, j, g, a) ==> HasAttempt(s.(clock := now), j, g, a)
  {
    if HasAttempt(s, j, g, a) {
      var x :| Attempted(s, x, j, g, a);
      assert Attempted(s.(clock := now), x, j, g, a);
    }
  }

  lemma ClockFit(s: Db, now: Time, x: ExecId)
    requires x in s.execs && ExecFits(s, s.execs[x])
    ensures ExecFits(s.(clock := now), s.execs[x])
  {
  }

  lemma StepKeepsLedgerOk(s: Db, a: Act)
    requires LedgerOk(s) && OnTime(s, a) && Honest(s, a.op) && (a.op.DoFail? ==> !a.op.outcome.Success?)
    ensures LedgerOk(Step(s, a))
  {
    assert s.clock <= a.now && Step(s, a) == Apply(s, a.op, a.now).(clock := a.now);
    hide Apply, History, Ledgers, RowsOk, FencedTrue, OnTime, Honest, Step;
    StepKeepsRows(s, a);
    StepKeepsHistory(s, a.op, a.now);
    StepKeepsLedgers(s, a.op, a.now);
    ClockIrrelevant(Apply(s, a.op, a.now), a.now);
    StepKeepsFenced(s, a);
  }

  lemma FreshLedger(s: Db)
    requires Fresh(s)
    ensures LedgerOk(s)
  {
  }

  lemma HonestStep(ss: seq<Db>, acts: seq<Act>, i: nat)
    requires HonestRun(ss, acts) && i + 1 < |ss|
    ensures i < |acts| && OnTime(ss[i], acts[i]) && ss[i + 1] == Step(ss[i], acts[i])
    ensures Honest(ss[i], acts[i].op) && (acts[i].op.DoFail? ==> !acts[i].op.outcome.Success?)
  {
    hide Step, OnTime, Honest;
  }

  lemma {:induction false} RunKeepsLedger(ss: seq<Db>, acts: seq<Act>, i: nat)
    requires HonestRun(ss, acts) && Fresh(ss[0]) && i < |ss|
    ensures LedgerOk(ss[i])
  {
    hide *;
    if i == 0 {
      FreshLedger(ss[0]);
    } else {
      HonestStep(ss, acts, i - 1);
      RunKeepsLedger(ss, acts, i - 1);
      StepKeepsLedgerOk(ss[i - 1], acts[i - 1]);
    }
  }

  lemma FreshHistory(s: Db)
    requires Fresh(s)
    ensures History(s)
  {
  }

  lemma HistoryAfter(s: Db, a: Act)
    requires History(s) && RowsOk(s) && OnTime(s, a)
    ensures History(Step(s, a))
  {
    hide History, RowsOk, Apply;
    StepKeepsHistory(s, a.op, a.now);
    ClockIrrelevant(Apply(s, a.op, a.now), a.now);
  }

  /** The never-changing columns of the executions agree with the jobs in every run, whatever
      execution ids the reports carry. */
  lemma {:induction false} RunKeepsHistory(ss: seq<Db>, acts: seq<Act>, i: nat)
    requires IsRun(ss, acts) && Fresh(ss[0]) && i < |ss|
    ensures History(ss[i]) && RowsOk(ss[i])
  {
    hide *;
    RunKeepsRows(ss, acts, i);
    if i == 0 {
      FreshHistory(ss[0]);
    } else {
      RunStep(ss, acts, i - 1);
      RunKeepsHistory(ss, acts, i - 1);
      HistoryAfter(ss[i - 1], acts[i - 1]);
    }
  }

  // ---------------------------------------------------------------- main results

  /** In every state of every run a job has an open execution exactly while it runs, one only and
      under its own fence, and a lease exactly while it is claimed or running. */
  lemma OneOpenExecution(ss: seq<Db>, acts: seq<Act>, i: nat, j: JobId)
    requires HonestRun(ss, acts) && Fresh(ss[0]) && i < |ss| && j in ss[i].jobs
    ensures var s := ss[i];
            && (s.jobs[j].status.Running? <==> exists x :: ExecOf(s, x, j) && IsOpen(s.execs[x]))
            && (forall x, y :: ExecOf(s, x, j) && ExecOf(s, y, j) && IsOpen(s.execs[x]) && IsOpen(s.execs[y]) ==>
                x == y)
            && (forall x :: ExecOf(s, x, j) && IsOpen(s.execs[x]) ==> s.execs[x].fence == s.jobs[j].fence)
            && (Active(s.jobs[j].status) <==> j in s.leases)
            && (j in s.leases ==> s.leases[j].fence == s.jobs[j].fence)
  {
    RunKeepsLedger(ss, acts, i);
    var s := ss[i];
    assert JobLedger(s, j);
    hide IsRun, HonestRun;
    forall x, y | ExecOf(s, x, j) && ExecOf(s, y, j) && IsOpen(s.execs[x]) && IsOpen(s.execs[y]) ensures x == y {
      assert SameKey(s.execs[x], s.execs[y]);
    }
  }

  /** The executions of one job carry pairwise different fences in every run, and pairwise
      different attempts within a generation. */
  lemma FencesDiffer(ss: seq<Db>, acts: seq<Act>, i: nat, x: ExecId, y: ExecId)
    requires IsRun(ss, acts) && Fresh(ss[0]) && i < |ss|
    requires x in ss[i].execs && y in ss[i].execs && ss[i].execs[x].job == ss[i].execs[y].job && x != y
    ensures ss[i].execs[x].fence != ss[i].execs[y].fence
    ensures ss[i].execs[x].generation == ss[i].execs[y].generation ==> ss[i].execs[x].attempt != ss[i].execs[y].attempt
  {
    RunKeepsHistory(ss, acts, i);
    hide IsRun;
    assert !SameKey(ss[i].execs[x], ss[i].execs[y]);
  }

  /** A job succeeds once at most. */
  lemma OneSuccess(ss: seq<Db>, acts: seq<Act>, i: nat, x: ExecId, y: ExecId)
    requires HonestRun(ss, acts) && Fresh(ss[0]) && i < |ss|
    requires x in ss[i].execs && y in ss[i].execs && ss[i].execs[x].job == ss[i].execs[y].job
    ensures Succeeded(ss[i].execs[x]) && Succeeded(ss[i].execs[y]) ==> x == y
  {
    RunKeepsLedger(ss, acts, i);
    var s := ss[i];
    hide IsRun, HonestRun;
    if x != y { assert !SameKey(s.execs[x], s.execs[y]); }
    assert ExecFits(s, s.execs[x]);
    var j := s.execs[x].job;
    assert JobLedger(s, j) && ExecOf(s, x, j) && ExecOf(s, y, j);
  }

  predicate Succeeded(e: Exec) { e.closed.Some? && e.closed.value.outcome.Success? }

  /** The orphan sweep and a fenced worker's own clean-up never find anything to close. */
  lemma NothingToSweep(ss: seq<Db>, acts: seq<Act>, i: nat, ids: set<ExecId>, exec: ExecId, o: Outcome, now: Time)
    requires HonestRun(ss, acts) && Fresh(ss[0]) && i < |ss|
    ensures Sweep(ss[i], ids, now) == ss[i]
    ensures CloseExecution(ss[i], exec, o, now) == ss[i]
  {
    RunKeepsLedger(ss, acts, i);
    HistoryFits(ss[i]);
    SweepNoOp(ss[i], ids, now);
    CloseExecutionNoOp(ss[i], exec, o, now);
  }

  /** The attempts recorded for the current generation are exactly 1 .. attempt_count. */
  lemma AttemptsAreExact(ss: seq<Db>, acts: seq<Act>, i: nat, j: JobId, a: int)
    requires IsRun(ss, acts) && Fresh(ss[0]) && i < |ss| && j in ss[i].jobs
    ensures HasAttempt(ss[i], j, ss[i].jobs[j].generation, a) <==> 1 <= a <= ss[i].jobs[j].attempts
  {
    RunKeepsHistory(ss, acts, i);
    hide IsRun;
    var s := ss[i];
    if HasAttempt(s, j, s.jobs[j].generation, a) {
      var x :| Attempted(s, x, j, s.jobs[j].generation, a);
      assert ExecFits(s, s.execs[x]);
    }
    if 1 <= a <= s.jobs[j].attempts {
      EarlierAttempt(s, j, a);
    }
  }

  function ExecsIn(s: Db, j: JobId, g: int): set<ExecId> {
    set x | x in s.execs && s.execs[x].job == j && s.execs[x].generation == g
  }

  lemma {:induction false} AtMostOnePerAttempt(s: Db, xs: set<ExecId>, n: nat)
    requires forall x :: x in xs ==> x in s.execs && 1 <= s.execs[x].attempt <= n
    requires forall x, y :: x in xs && y in xs && x != y ==> s.execs[x].attempt != s.execs[y].attempt
    ensures |xs| <= n
  {
    if n == 0 {
      assert forall x :: x !in xs;
    } else if x :| x in xs && s.execs[x].attempt == n {
      AtMostOnePerAttempt(s, xs - {x}, n - 1);
    } else {
      AtMostOnePerAttempt(s, xs, n - 1);
    }
  }

  predicate StartedAs(s: Db, xs: set<ExecId>, a: int) { exists x :: x in xs && x in s.execs && s.execs[x].attempt == a }

  lemma {:induction false} AtLeastOnePerAttempt(s: Db, xs: set<ExecId>, n: nat)
    requires forall a :: 1 <= a <= n ==> StartedAs(s, xs, a)
    ensures |xs| >= n
  {
    if n > 0 {
      assert StartedAs(s, xs, n);
      var x :| x in xs && x in s.execs && s.execs[x].attempt == n;
      forall a | 1 <= a <= n - 1 ensures StartedAs(s, xs - {x}, a) {
        assert StartedAs(s, xs, a);
        var y :| y in xs && y in s.execs && s.execs[y].attempt == a;
        assert y in xs - {x};
      }
      AtLeastOnePerAttempt(s, xs - {x}, n - 1);
    }
  }

  /** attempt_count is the number of times the handler was started in the current generation. */
  lemma StartsAreCounted(ss: seq<Db>, acts: seq<Act>, i: nat, j: JobId)
    requires IsRun(ss, acts) && Fresh(ss[0]) && i < |ss| && j in ss[i].jobs
    ensures |ExecsIn(ss[i], j, ss[i].jobs[j].generation)| == ss[i].jobs[j].attempts
  {
    RunKeepsHistory(ss, acts, i);
    var s := ss[i];
    var g := s.jobs[j].generation;
    var xs := ExecsIn(s, j, g);
    assert RowOk(s.jobs[j]);
    hide RowOk;
    forall a | 1 <= a <= s.jobs[j].attempts ensures StartedAs(s, xs, a) {
      AttemptsAreExact(ss, acts, i, j, a);
      var x :| Attempted(s, x, j, g, a);
      assert x in xs;
    }
    hide IsRun;
    AtLeastOnePerAttempt(s, xs, s.jobs[j].attempts);
    forall x | x in xs ensures 1 <= s.execs[x].attempt <= s.jobs[j].attempts { assert ExecFits(s, s.execs[x]); }
    forall x, y | x in xs && y in xs && x != y ensures s.execs[x].attempt != s.execs[y].attempt {
      assert !SameKey(s.execs[x], s.execs[y]);
    }
    AtMostOnePerAttempt(s, xs, s.jobs[j].attempts);
  }

  /** A handler is started at most 2 * max_attempts times per replay generation. */
  lemma StartsBounded(ss: seq<Db>, acts: seq<Act>, i: nat, j: JobId, g: int)
    requires IsRun(ss, acts) && Fresh(ss[0]) && i < |ss| && j in ss[i].jobs
    ensures |ExecsIn(ss[i], j, g)| <= 2 * ss[i].jobs[j].policy.maxAttempts
  {
    RunKeepsHistory(ss, acts, i);
    hide IsRun;
    var s := ss[i];
    var xs := ExecsIn(s, j, g);
    forall x | x in xs ensures 1 <= s.execs[x].attempt <= 2 * s.jobs[j].policy.maxAttempts {
      assert ExecFits(s, s.execs[x]);
    }
    forall x, y | x in xs && y in xs && x != y ensures s.execs[x].attempt != s.execs[y].attempt {
      assert !SameKey(s.execs[x], s.execs[y]);
    }
    assert RowOk(s.jobs[j]);
    AtMostOnePerAttempt(s, xs, 2 * s.jobs[j].policy.maxAttempts);
  }

  /** report_success takes the execution id on trust: the ledger survives exactly when the id
      names the job's open execution. */
  lemma CompletionNeedsItsExecution(s: Db, job: JobId, f: int, x: ExecId, now: Time)
    requires LedgerOk(s) && HeldAs(s, job, f, Running)
    ensures Ledgers(Complete(s, job, f, x, now)) <==> (ExecOf(s, x, job) && IsOpen(s.execs[x]))
  {
    assert JobLedger(s, job);
    if ExecOf(s, x, job) && IsOpen(s.execs[x]) {
      assert Owns(s, job, f, x);
      hide *;
      OpenLedger(s);
      CompleteLedger(s, job, f, x, now);
    } else {
      var y :| ExecOf(s, y, job) && IsOpen(s.execs[y]);
      hide Complete, OthersStand, History, RowsOk, FencedTrue, JobLedger;
      LeftOpen(s, job, f, x, y, now);
    }
  }

  /** Completing under another execution's id leaves the job's own execution open for good. */
  lemma LeftOpen(s: Db, job: JobId, f: int, x: ExecId, y: ExecId, now: Time)
    requires HeldAs(s, job, f, Running) && ExecOf(s, y, job) && IsOpen(s.execs[y]) && x != y
    ensures !Ledgers(Complete(s, job, f, x, now))
  {
    var t := Complete(s, job, f, x, now);
    CompleteStands(s, job, f, x, now);
    assert t.execs == CloseById(s.execs, x, Success, now) by {
      hide CloseById, FinishDependents, Woken, EventsOf, ReleaseSlots, Count, DurationOf;
    }
    hide Complete, OthersStand;
    assert ExecOf(t, y, job) && IsOpen(t.execs[y]) && !t.jobs[job].status.Running?;
    assert !JobLedger(t, job);
  }

  lemma OpenLedger(s: Db)
    requires LedgerOk(s)
    ensures Ledgers(s) && History(s)
  {
  }
}
