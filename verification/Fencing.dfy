/** Fencing over whole runs: a claim that has ended stays ended and can change nothing. */
module Fencing {
  import opened Schema
  import opened Transactions
  import opened Protocol
  import opened Rows

  predicate RowsOk(s: Db) {
    Dated(s) && forall j :: j in s.jobs ==> RowOk(s.jobs[j])
  }

  lemma StepKeepsRows(s: Db, a: Act)
    requires RowsOk(s) && OnTime(s, a)
    ensures RowsOk(Step(s, a))
  {
    hide RowStep, NewRow, RowOk, Step;
    StepMovesRows(s, a);
    var t := Step(s, a);
    forall j | j in t.jobs ensures RowOk(t.jobs[j]) {
      if j in s.jobs {
        RowStepKeeps(s.jobs[j], t.jobs[j]);
      } else {
        NewRowOk(t.jobs[j], a.now);
      }
    }
  }

  lemma RunStep(ss: seq<Db>, acts: seq<Act>, i: nat)
    requires IsRun(ss, acts) && i + 1 < |ss|
    ensures i < |acts| && OnTime(ss[i], acts[i]) && ss[i + 1] == Step(ss[i], acts[i])
  {
  }

  /** In every run no check on a jobs row is ever violated. */
  lemma {:induction false} RunKeepsRows(ss: seq<Db>, acts: seq<Act>, i: nat)
    requires IsRun(ss, acts) && Fresh(ss[0]) && i < |ss|
    ensures RowsOk(ss[i])
  {
    if i > 0 {
      hide *;
      RunKeepsRows(ss, acts, i - 1);
      RunStep(ss, acts, i - 1);
      StepKeepsRows(ss[i - 1], acts[i - 1]);
    }
  }

  /** Attempts stay within max_attempts + snooze_count, which stays within twice max_attempts,
      and the fence never falls below them. */
  lemma AttemptBudget(ss: seq<Db>, acts: seq<Act>, i: nat, j: JobId)
    requires IsRun(ss, acts) && Fresh(ss[0]) && i < |ss| && j in ss[i].jobs
    ensures var r := ss[i].jobs[j];
            && RowChecks(r)
            && 0 <= r.attempts <= r.policy.maxAttempts + r.snoozes <= 2 * r.policy.maxAttempts
            && r.attempts <= r.fence
  {
    RunKeepsRows(ss, acts, i);
    assert RowOk(ss[i].jobs[j]);
  }

  /** The status trigger never fires: every change is a legal transition and no fence goes back. */
  lemma TriggerNeverFires(ss: seq<Db>, acts: seq<Act>, i: nat, j: JobId)
    requires IsRun(ss, acts) && Fresh(ss[0]) && i < |acts| && j in ss[i].jobs
    ensures j in ss[i + 1].jobs
    ensures var o, n := ss[i].jobs[j], ss[i + 1].jobs[j];
            o.fence <= n.fence && (o.status == n.status || LegalTransition(o.status, n.status))
  {
    RunKeepsRows(ss, acts, i);
    RunStep(ss, acts, i);
    StepMovesRows(ss[i], acts[i]);
    RowStepKeeps(ss[i].jobs[j], ss[i + 1].jobs[j]);
  }

  lemma EndedIsRow(s: Db, job: JobId, f: int)
    ensures Ended(s, job, f) <==> job in s.jobs && RowEnded(s.jobs[job], f)
  {
  }

  lemma StepKeepsEnded(s: Db, a: Act, job: JobId, f: int)
    requires RowsOk(s) && OnTime(s, a) && Ended(s, job, f)
    ensures Ended(Step(s, a), job, f)
  {
    hide RowStep, Step, OnTime, Ended;
    EndedIsRow(s, job, f);
    StepMovesRows(s, a);
    RowStepKeeps(s.jobs[job], Step(s, a).jobs[job]);
    EndedIsRow(Step(s, a), job, f);
  }

  /** No interleaving of later transactions, replays included, revives an ended claim. */
  lemma {:induction false} EndedForever(ss: seq<Db>, acts: seq<Act>, i: nat, k: nat, job: JobId, f: int)
    requires IsRun(ss, acts) && Fresh(ss[0]) && i <= k < |ss|
    requires Ended(ss[i], job, f)
    ensures Ended(ss[k], job, f)
    decreases k
  {
    hide *;
    if k > i {
      EndedForever(ss, acts, i, k - 1, job, f);
      RunKeepsRows(ss, acts, k - 1);
      RunStep(ss, acts, k - 1);
      StepKeepsEnded(ss[k - 1], acts[k - 1], job, f);
    }
  }

  /** The calls a worker makes under a claim. */
  predicate Carries(op: Op, job: JobId, f: int) {
    || (op.DoStart? && op.job == job && op.fence == f)
    || (op.DoExtend? && op.job == job && op.fence == f)
    || (op.DoComplete? && op.job == job && op.fence == f)
    || (op.DoFail? && op.job == job && op.fence == f)
    || (op.DoSnooze? && op.job == job && op.fence == f)
  }

  lemma StaleIsNoOp(s: Db, op: Op, now: Time, job: JobId, f: int)
    requires Ended(s, job, f) && Carries(op, job, f)
    ensures Apply(s, op, now) == s
  {
  }

  lemma StaleNotHeld(s: Db, d: Done)
    requires Ended(s, d.job, d.fence)
    ensures !HeldAs(s, d.job, d.fence, Running)
  {
  }

  /** A stale entry drops out of a batch. */
  lemma {:induction false} StaleEntryDrops(s: Db, batch: seq<Done>, i: nat)
    requires i < |batch| && Ended(s, batch[i].job, batch[i].fence)
    ensures Matched(s, batch) == Matched(s, batch[..i] + batch[i + 1..])
    decreases |batch|
  {
    hide Ended;
    var n := |batch| - 1;
    var rest := batch[..i] + batch[i + 1..];
    StaleNotHeld(s, batch[i]);
    hide HeldAs;
    if i == n {
      assert rest == batch[..n];
    } else {
      assert rest[..|rest| - 1] == batch[..n][..i] + batch[..n][i + 1..];
      assert rest[|rest| - 1] == batch[n];
      StaleEntryDrops(s, batch[..n], i);
    }
  }

  /** Once a claim has ended, no later call carrying its fence has any effect, in any run. */
  lemma StaleCallsDoNothing(ss: seq<Db>, acts: seq<Act>, i: nat, k: nat, job: JobId, f: int)
    requires IsRun(ss, acts) && Fresh(ss[0]) && i <= k < |acts|
    requires Ended(ss[i], job, f)
    ensures Carries(acts[k].op, job, f) ==> ss[k + 1] == ss[k].(clock := acts[k].now)
    ensures acts[k].op.DoCompleteBatch? ==>
      forall e :: 0 <= e < |acts[k].op.batch| && acts[k].op.batch[e].job == job && acts[k].op.batch[e].fence == f ==>
        var b := acts[k].op.batch;
        ss[k + 1] == Step(ss[k], Act(DoCompleteBatch(b[..e] + b[e + 1..]), acts[k].now))
  {
    EndedForever(ss, acts, i, k, job, f);
    assert ss[k + 1] == Step(ss[k], acts[k]);
    if Carries(acts[k].op, job, f) {
      StaleIsNoOp(ss[k], acts[k].op, acts[k].now, job, f);
    }
    if acts[k].op.DoCompleteBatch? {
      var b := acts[k].op.batch;
      forall e | 0 <= e < |b| && b[e].job == job && b[e].fence == f
        ensures ss[k + 1] == Step(ss[k], Act(DoCompleteBatch(b[..e] + b[e + 1..]), acts[k].now))
      {
        StaleEntryDrops(ss[k], b, e);
      }
    }
  }

  predicate Holds(s: Db, job: JobId, f: int) {
    job in s.jobs && s.jobs[job].fence == f && Active(s.jobs[job].status)
  }

  /** The transactions that end a claim held as (job, f). */
  predicate Ends(s: Db, op: Op, now: Time, job: JobId, f: int) {
    || (op.DoComplete? && op.job == job && op.fence == f && HeldAs(s, job, f, Running))
    || (op.DoCompleteBatch? && Named(Matched(s, op.batch), job))
    || (op.DoFail? && op.job == job && op.fence == f)
    || (op.DoReap? && op.job == job)
    || (op.DoSnooze? && op.job == job && op.fence == f && Snoozable(s, job, Some(f), op.delay, now))
    || (op.DoCancel? && op.job == job && job in s.jobs && s.jobs[job].pendingDeps == 0)
  }

  /** Completion, failure, reaping, snoozing and cancelling end the claim they hit. */
  lemma ReportsEndTheClaim(s: Db, op: Op, now: Time, job: JobId, f: int)
    requires Holds(s, job, f) && Ends(s, op, now, job, f)
    ensures Ended(Apply(s, op, now), job, f)
  {
    if op.DoCompleteBatch? {
      hide Apply;
      BatchEndsTheClaim(s, op.batch, now, job, f);
      ApplyBatch(s, op.batch, now);
    } else {
      hide Submit, Fire, AdmitTo, Take, GiveBack, Crash, Start, Extend, Complete, CompleteBatch, Fail, Snooze, Cancel;
      hide Promote, Retry, Replay, ReplayDead, Probe, CloseExecution, Sweep, ConfigureQueue, FlipBreaker, Reconcile;
      hide Matched;
      match op
      case DoComplete(_, _, x) => CompleteEndsTheClaim(s, job, f, x, now);
      case DoFail(_, _, o, p, backoff) => FailEndsTheClaim(s, job, f, Some(f), o, p, backoff, now);
      case DoReap(_, backoff) => FailEndsTheClaim(s, job, f, None, Lost, false, backoff, now);
      case DoSnooze(_, _, x, delay) => SnoozeEndsTheClaim(s, job, f, x, delay, now);
      case DoCancel(_) => CancelEndsTheClaim(s, job, f, now);
    }
  }

  lemma CompleteEndsTheClaim(s: Db, job: JobId, f: int, x: ExecId, now: Time)
    requires HeldAs(s, job, f, Running)
    ensures Ended(Complete(s, job, f, x, now), job, f)
  {
    hide CloseById, Woken, EventsOf, ReleaseSlots, Count, DurationOf;
  }

  lemma FailEndsTheClaim(s: Db, job: JobId, f: int, g: Option<int>, o: Outcome, p: bool, backoff: Time, now: Time)
    requires Holds(s, job, f) && (g.None? || g.value == f)
    ensures Ended(Fail(s, job, g, o, p, backoff, now), job, f)
  {
    hide CloseOfJob, EventsOf, ReleaseSlots, Count, DeadReason, Killed;
  }

  lemma SnoozeEndsTheClaim(s: Db, job: JobId, f: int, x: ExecId, delay: Time, now: Time)
    requires Snoozable(s, job, Some(f), delay, now)
    ensures Ended(Snooze(s, job, Some(f), x, delay, now), job, f)
  {
    hide CloseById, ReleaseSlots;
  }

  lemma CancelEndsTheClaim(s: Db, job: JobId, f: int, now: Time)
    requires Holds(s, job, f) && s.jobs[job].pendingDeps == 0
    ensures Ended(Cancel(s, job, now), job, f)
  {
    hide CloseOfJob, ReleaseSlots;
  }

  lemma ApplyBatch(s: Db, batch: seq<Done>, now: Time)
    ensures Apply(s, DoCompleteBatch(batch), now) == CompleteBatch(s, batch, now)
  {
    hide CompleteBatch;
  }

  lemma BatchEndsTheClaim(s: Db, batch: seq<Done>, now: Time, job: JobId, f: int)
    requires Holds(s, job, f) && Named(Matched(s, batch), job)
    ensures Ended(CompleteBatch(s, batch, now), job, f)
  {
    hide EventsOf, GroupedStats, GroupedRelease, CloseThese, WokenByBatch, ExecsOf;
    var m := Matched(s, batch);
    var i :| 0 <= i < |m| && m[i].job == job;
    assert m[i] in m && job in JobsOf(m);
  }

  lemma CompleteLeavesHeldRows(s: Db, other: JobId, g: int, x: ExecId, now: Time, job: JobId, f: int)
    requires Holds(s, job, f) && (other != job || g != f || !HeldAs(s, job, f, Running))
    ensures Holds(Complete(s, other, g, x, now), job, f)
  {
    hide CloseById, Woken, EventsOf, ReleaseSlots, Count;
  }

  lemma FailLeavesHeldRows(s: Db, other: JobId, g: Option<int>, o: Outcome, p: bool, backoff: Time, now: Time,
      job: JobId, f: int)
    requires Holds(s, job, f) && (other != job || (g.Some? && g.value != f))
    ensures Holds(Fail(s, other, g, o, p, backoff, now), job, f)
  {
    hide CloseOfJob, EventsOf, ReleaseSlots, Count, DeadReason;
  }

  lemma SetsLeaveHeldRows(s: Db, op: Op, now: Time, job: JobId, f: int)
    requires Holds(s, job, f) && (op.DoTake? || op.DoPromote? || op.DoReplayDead?)
    ensures Holds(Apply(s, op, now), job, f)
  {
    hide EventsOf, ReleaseSlots, MarkReplayed;
  }

  lemma SinglesLeaveHeldRows(s: Db, op: Op, now: Time, job: JobId, f: int)
    requires Holds(s, job, f) && RowOk(s.jobs[job]) && !Ends(s, op, now, job, f)
    requires op.DoSubmit? || op.DoFire? || op.DoStart? || op.DoSnooze? || op.DoCancel? || op.DoRetry? || op.DoReplay?
    ensures Holds(Apply(s, op, now), job, f)
  {
    hide EventsOf, ReleaseSlots, MarkReplayed, CancelledKin, LiveParents, CloseById, CloseOfJob, Matched;
  }

  lemma BatchLeavesHeldRows(s: Db, batch: seq<Done>, now: Time, job: JobId, f: int)
    requires Holds(s, job, f) && !Named(Matched(s, batch), job)
    ensures Holds(CompleteBatch(s, batch, now), job, f)
  {
    var m := Matched(s, batch);
    if m != [] {
      assert forall d :: d in m ==> d.job != job;
      RepeatIs(s.jobs[job], |DoneParents(s.edges, JobsOf(m), job)|, now);
    }
  }

  /** No other transaction ends it: a held claim stays held until one of these comes. */
  lemma OnlyReportsEndTheClaim(s: Db, op: Op, now: Time, job: JobId, f: int)
    requires Holds(s, job, f) && RowOk(s.jobs[job]) && !Ends(s, op, now, job, f)
    ensures Holds(Apply(s, op, now), job, f)
  {
    hide RowOk, Complete, Fail, CompleteBatch;
    if LeavesJobs(op) {
      OtherRows(s, op, now);
    } else if op.DoCompleteBatch? {
      BatchLeavesHeldRows(s, op.batch, now, job, f);
    } else if op.DoComplete? {
      CompleteLeavesHeldRows(s, op.job, op.fence, op.exec, now, job, f);
    } else if op.DoFail? {
      FailLeavesHeldRows(s, op.job, Some(op.fence), op.outcome, op.permanent, op.backoff, now, job, f);
    } else if op.DoReap? {
      FailLeavesHeldRows(s, op.job, None, Lost, false, op.backoff, now, job, f);
    } else if op.DoTake? || op.DoPromote? || op.DoReplayDead? {
      hide *;
      SetsLeaveHeldRows(s, op, now, job, f);
    } else {
      hide *;
      SinglesLeaveHeldRows(s, op, now, job, f);
    }
  }
}
