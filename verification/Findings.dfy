/** Where the obvious stronger claim is false: the input that breaks it, and exactly when it holds. */
module Findings {
  import opened Schema
  import opened Transactions
  import opened Protocol
  import opened Rows
  import opened Frames
  import opened Fencing
  import opened Scenarios
  import L = Ledger
  import Graph

  // ---------------------------------------------------------------- checks that abort

  /** The cancel statement passes the table's checks if and only if the job waits on no parent,
      because it leaves pending_deps as it is. */
  lemma CancelAllowedIff(j: Job, now: Time)
    requires RowOk(j) && !Terminal(j.status)
    ensures RowChecks(j.(status := Cancelled, finishedAt := Some(now), worker := None)) <==> j.pendingDeps == 0
  {
  }

  /** A snooze passes the table's checks unless its delay comes out as zero in the very instant
      the job was created. */
  lemma SnoozeAllowedIff(j: Job, delay: Time, now: Time)
    requires RowOk(j) && j.status.Running? && j.createdAt <= now
    ensures RowChecks(SnoozeRow(j, delay, now)) <==> !(MinR(delay, j.policy.maxDelay) <= 0.0 && now == j.createdAt)
  {
  }

  // ---------------------------------------------------------------- a second dead letter

  /** A dead-lettered job has its row in dead_letters, and the row is marked as replayed exactly
      when the job has been: its generation is no longer zero. */
  predicate DeadFits(s: Db, j: JobId)
    requires j in s.jobs
  {
    && (s.jobs[j].status.DeadLetter? ==> j in s.dead)
    && (j in s.dead ==> (s.dead[j].replayedAt.Some? <==> s.jobs[j].generation > 0))
    && (j !in s.dead ==> s.jobs[j].generation == 0)
  }

  predicate DeadRowsFit(s: Db) {
    (forall j :: j in s.dead ==> j in s.jobs) && (forall j :: j in s.jobs ==> DeadFits(s, j))
  }

  /** Not replayed, and not dead-lettered by this step. */
  predicate SameLife(o: Job, n: Job) {
    n.generation == o.generation && (n.status.DeadLetter? ==> o.status.DeadLetter?)
  }

  predicate AllLive(s: Db, t: Db) {
    forall j :: j in s.jobs ==> j in t.jobs && SameLife(s.jobs[j], t.jobs[j])
  }

  lemma OneLives(s: Db, t: Db, job: JobId)
    requires t.jobs == s.jobs
        || (job in s.jobs && job in t.jobs && t.jobs == s.jobs[job := t.jobs[job]]
        && SameLife(s.jobs[job], t.jobs[job]))
    ensures AllLive(s, t)
  {
  }

  lemma NoneMoves(s: Db, t: Db)
    requires t.jobs == s.jobs
    ensures AllLive(s, t)
  {
  }

  lemma SubmitLives(s: Db, r: Submission, tick: Time, now: Time)
    ensures AllLive(s, Submit(s, r, now)) && AllLive(s, Fire(s, r, tick, now))
  {
    hide LiveParents, NewJob;
  }

  lemma TakeLives(s: Db, g: nat, ids: set<JobId>, w: WorkerId, lease: Time, now: Time)
    ensures AllLive(s, Take(s, g, ids, w, lease, now))
  {
    hide Claimable, ReleaseSlots, Spend;
  }

  lemma StartLives(s: Db, job: JobId, f: int, w: WorkerId, x: ExecId, now: Time)
    ensures AllLive(s, Start(s, job, f, w, x, now))
  {
    hide AllLive;
    OneLives(s, Start(s, job, f, w, x, now), job);
  }

  lemma CompleteLives(s: Db, job: JobId, f: int, x: ExecId, now: Time)
    ensures AllLive(s, Complete(s, job, f, x, now))
  {
    hide CloseById, Woken, EventsOf, ReleaseSlots, Count, DurationOf;
  }

  lemma BatchLives(s: Db, batch: seq<Done>, now: Time)
    ensures AllLive(s, CompleteBatch(s, batch, now))
  {
    var m, t := Matched(s, batch), CompleteBatch(s, batch, now);
    if m == [] {
      hide AllLive;
      NoneMoves(s, t);
    } else {
      L.BatchParts(s, batch, now);
      hide CompleteBatch, Matched, JobsOf;
      forall j | j in s.jobs ensures j in t.jobs && SameLife(s.jobs[j], t.jobs[j]) {
        RepeatIs(s.jobs[j], |DoneParents(s.edges, JobsOf(m), j)|, now);
      }
    }
  }

  lemma StopLives(s: Db, job: JobId, f: Option<int>, x: ExecId, d: Time, now: Time)
    ensures AllLive(s, Snooze(s, job, f, x, d, now)) && AllLive(s, Cancel(s, job, now))
  {
    hide CloseById, CloseOfJob, ReleaseSlots, AllLive;
    OneLives(s, Snooze(s, job, f, x, d, now), job);
    OneLives(s, Cancel(s, job, now), job);
  }

  lemma RetryLives(s: Db, job: JobId, now: Time)
    ensures AllLive(s, Retry(s, job, now))
  {
    hide AllLive;
    OneLives(s, Retry(s, job, now), job);
  }

  lemma PromoteLives(s: Db, ids: set<JobId>, now: Time)
    ensures AllLive(s, Promote(s, ids, now))
  {
    hide EventsOf, Promotable;
    var t := Promote(s, ids, now);
    assert t.jobs.Keys == s.jobs.Keys;
    forall j | j in s.jobs ensures SameLife(s.jobs[j], t.jobs[j]) {
      assert t.jobs[j] == s.jobs[j] || t.jobs[j] == s.jobs[j].(status := Queued);
    }
    hide Promote, SameLife;
  }

  /** Only failures and replays touch what the dead-letter rows speak about. */
  lemma OthersLive(s: Db, op: Op, now: Time)
    requires DeadRows !in Writes(op)
    ensures AllLive(s, Apply(s, op, now)) && Apply(s, op, now).dead == s.dead
  {
    ApplyWrites(s, op, now);
    hide AllLive;
    hide Submit, Fire, AdmitTo, Take, GiveBack, Crash, Start, Extend, Complete, CompleteBatch, Fail, Snooze, Cancel;
    hide Promote, Retry, Replay, ReplayDead, Probe, CloseExecution, Sweep, ConfigureQueue, FlipBreaker, Reconcile;
    match op
    case DoSubmit(r) => SubmitLives(s, r, now, now);
    case DoFire(r, tick) => SubmitLives(s, r, tick, now);
    case DoTake(g, ids, w, lease) => TakeLives(s, g, ids, w, lease, now);
    case DoStart(job, f, w, x) => StartLives(s, job, f, w, x, now);
    case DoComplete(job, f, x) => CompleteLives(s, job, f, x, now);
    case DoCompleteBatch(b) => BatchLives(s, b, now);
    case DoSnooze(job, f, x, d) => StopLives(s, job, Some(f), x, d, now);
    case DoCancel(job) => StopLives(s, job, None, 0, now, now);
    case DoPromote(ids) => PromoteLives(s, ids, now);
    case DoRetry(job) => RetryLives(s, job, now);
    case _ => NoneMoves(s, Apply(s, op, now));
  }

  /** What a transaction does to one job's row in dead_letters: nothing; it writes the first one when
      the job dies; or it marks it when the job is replayed. */
  predicate DeadStepFits(s: Db, t: Db, j: JobId)
    requires j in s.jobs && j in t.jobs
  {
    var o, n := s.jobs[j], t.jobs[j];
    || (SameLife(o, n) && (j in t.dead <==> j in s.dead) && (j in s.dead ==> t.dead[j] == s.dead[j]))
    || (n.generation == o.generation && n.status.DeadLetter? && j in t.dead
        && t.dead[j] == if j in s.dead then s.dead[j] else t.dead[j].(replayedAt := None))
    || (o.status.DeadLetter? && n.generation == o.generation + 1 && !n.status.DeadLetter?
        && (j in t.dead <==> j in s.dead) && (j in t.dead ==> t.dead[j].replayedAt.Some?))
  }

  lemma FailDies(s: Db, job: JobId, f: Option<int>, o: Outcome, p: bool, d: Time, now: Time, j: JobId)
    requires j in s.jobs
    ensures var t := Fail(s, job, f, o, p, d, now); j in t.jobs && DeadStepFits(s, t, j)
  {
    hide EventsOf, ReleaseSlots, Count, CloseOfJob, DeadReason, Exhausted, Graph.Descendants;
  }

  lemma ReplayMarks(s: Db, job: JobId, now: Time, j: JobId)
    requires j in s.jobs
    ensures var t := Replay(s, job, now); j in t.jobs && DeadStepFits(s, t, j)
  {
    hide CancelledKin;
  }

  lemma ReplayDeadMarks(s: Db, spacing: map<JobId, Time>, now: Time, j: JobId)
    requires j in s.jobs
    ensures var t := ReplayDead(s, spacing, now); j in t.jobs && DeadStepFits(s, t, j)
  {
    hide EventsOf;
    assert ReplayDead(s, spacing, now) == s || (j in spacing ==> BulkReplayable(s, j));
  }

  lemma ApplyMarks(s: Db, op: Op, now: Time, j: JobId)
    requires j in s.jobs
    ensures var t := Apply(s, op, now); j in t.jobs && DeadStepFits(s, t, j)
  {
    if DeadRows !in Writes(op) {
      hide Apply, Writes;
      OthersLive(s, op, now);
    } else {
      hide Fail, Replay, ReplayDead, DeadStepFits;
      match op
      case DoFail(job, f, o, p, d) => FailDies(s, job, Some(f), o, p, d, now, j);
      case DoReap(job, d) => FailDies(s, job, None, Lost, false, d, now, j);
      case DoReplay(job) => ReplayMarks(s, job, now, j);
      case DoReplayDead(spacing) => ReplayDeadMarks(s, spacing, now, j);
    }
  }

  /** dead_letters only ever holds rows of jobs that are there. */
  lemma DeadInside(s: Db, op: Op, now: Time)
    ensures Apply(s, op, now).dead.Keys <= s.dead.Keys + s.jobs.Keys
  {
    if DeadRows !in Writes(op) {
      hide Apply, Writes;
      ApplyWrites(s, op, now);
    } else {
      hide CancelDescendants, Killed, EventsOf, ReleaseSlots, Count, CloseOfJob, FailRow, Exhausted, DeadReason,
          ReplayRow, CancelledKin, BulkReplayable;
    }
  }

  lemma MarkedFits(s: Db, t: Db, j: JobId)
    requires j in s.jobs && j in t.jobs && s.jobs[j].generation >= 0 && DeadFits(s, j) && DeadStepFits(s, t, j)
    ensures DeadFits(t, j)
  {
  }

  lemma NewDeadFits(t: Db, j: JobId, now: Time)
    requires j in t.jobs && NewRow(t.jobs[j], now) && j !in t.dead
    ensures DeadFits(t, j)
  {
  }

  lemma SameDeadFits(s: Db, t: Db, j: JobId)
    requires j in s.jobs && t.jobs == s.jobs && t.dead == s.dead && DeadFits(s, j)
    ensures DeadFits(t, j)
  {
  }

  lemma StepKeepsDead(s: Db, a: Act)
    requires RowsOk(s) && OnTime(s, a) && DeadRowsFit(s)
    ensures DeadRowsFit(Step(s, a))
  {
    var t, u := Step(s, a), Apply(s, a.op, a.now);
    assert t.jobs == u.jobs && t.dead == u.dead;
    assert forall j :: j in s.jobs ==> s.jobs[j].generation >= 0;
    StepMovesRows(s, a) by { L.RowsAreDated(s); }
    hide Apply, Step, OnTime, RowsOk, DeadFits, DeadStepFits, RowStep, NewRow;
    DeadInside(s, a.op, a.now);
    forall j | j in t.jobs ensures DeadFits(t, j) {
      if j in s.jobs {
        ApplyMarks(s, a.op, a.now, j);
        MarkedFits(s, u, j);
        SameDeadFits(u, t, j);
      } else {
        NewDeadFits(t, j, a.now);
      }
    }
  }

  lemma FreshDead(s: Db)
    requires Fresh(s) && s.dead == map[]
    ensures DeadRowsFit(s)
  {
  }

  /** The dead-letter rows agree with the jobs in every run. */
  lemma {:induction false} RunKeepsDead(ss: seq<Db>, acts: seq<Act>, i: nat)
    requires IsRun(ss, acts) && Fresh(ss[0]) && ss[0].dead == map[] && i < |ss|
    ensures DeadRowsFit(ss[i])
  {
    hide *;
    if i == 0 {
      FreshDead(ss[0]);
    } else {
      RunStep(ss, acts, i - 1);
      RunKeepsRows(ss, acts, i - 1);
      RunKeepsDead(ss, acts, i - 1);
      StepKeepsDead(ss[i - 1], acts[i - 1]);
    }
  }

  /** A direct child has been cancelled. */
  predicate ChildCancelled(s: Db, job: JobId) {
    exists c :: c in s.jobs && (job, c) in s.edges && s.jobs[c].status.Cancelled?
  }

  /** The bulk replay takes a dead-lettered job without a cancelled child if and only if it was
      never replayed before: the mark of the first replay is kept when the job dies again. */
  lemma BulkReplayableIff(ss: seq<Db>, acts: seq<Act>, i: nat, job: JobId)
    requires IsRun(ss, acts) && Fresh(ss[0]) && ss[0].dead == map[] && i < |ss| && job in ss[i].jobs
    ensures BulkReplayable(ss[i], job) <==>
      ss[i].jobs[job].status.DeadLetter? && !ChildCancelled(ss[i], job) && ss[i].jobs[job].generation == 0
  {
    RunKeepsDead(ss, acts, i);
    RunKeepsRows(ss, acts, i);
    hide IsRun;
    assert DeadFits(ss[i], job) && RowOk(ss[i].jobs[job]);
  }

  // A job that is replayed once and dies again.

  function DiesOnce(x: ExecId, g: nat, fence: int): seq<Act> {
    DriveActs(0, 0, x, g, fence) + [Now(DoFail(0, fence, PermanentError, true, 0.0))]
  }

  function DiesTwice(): seq<Act> { DiesAndIsReplayed() + DiesOnce(1, 1, 2) }

  /** The row after one more attempt that fails for good. */
  function DeadAgain(j: Job): Job { RunRow(j).(status := DeadLetter, finishedAt := Some(0.0), worker := None) }

  /** One job, one slot free or taken, and n attempts started so far. */
  predicate Alone(s: Db, j: Job, n: nat, out: int) {
    && s.jobs == map[0 := j] && s.edges == {} && 0 in s.queues && s.queues[0] == Row(0, 1, out)
    && |s.grants| == n && forall x :: x in s.execs ==> x < n
  }

  lemma DrivenAlone(s: Db, j: Job, n: nat)
    requires Alone(s, j, n, 0) && j.status.Queued? && j.runAt <= 0.0 && j.queue == 0
    ensures Alone(End(s, DriveActs(0, 0, n, n, j.fence + 1)), RunRow(j), n + 1, 1)
  {
    hide Step, End, RunRow, Row, DriveActs;
    DriveIs(s, 0, 0, n, 0, 1, 0);
    var t := End(s, DriveActs(0, 0, n, n, j.fence + 1));
    assert t.jobs == map[0 := RunRow(j)];
    forall x | x in t.execs ensures x < n + 1 { assert x in t.execs.Keys; }
  }

  lemma FailedAlone(s: Db, j: Job, n: nat)
    requires Alone(s, j, n, 1) && j.status.Running? && j.queue == 0 && j.shard == 0
    ensures Alone(Step(s, Now(DoFail(0, j.fence, PermanentError, true, 0.0))),
                  j.(status := DeadLetter, finishedAt := Some(0.0), worker := None), n, 0)
  {
    hide Step, ReleaseSlots;
    FailIs(s, 0);
    ReleaseIs(s.queues, 0, 0, 1, 1);
  }

  lemma DiesIs(s: Db, j: Job, n: nat)
    requires Alone(s, j, n, 0) && j.status.Queued? && j.runAt <= 0.0 && j.queue == 0
    ensures Alone(End(s, DiesOnce(n, n, j.fence + 1)), DeadAgain(j), n + 1, 0)
  {
    var r := RunRow(j);
    assert r.status.Running? && r.fence == j.fence + 1 && r.queue == 0 && r.shard == 0;
    hide Step, End, Alone, RunRow;
    DrivenAlone(s, j, n);
    FailedAlone(End(s, DriveActs(0, 0, n, n, j.fence + 1)), r, n + 1);
    EndSteps(s, DriveActs(0, 0, n, n, j.fence + 1), Now(DoFail(0, j.fence + 1, PermanentError, true, 0.0)));
  }

  lemma ReplayedAlone(s: Db, j: Job, n: nat)
    requires Alone(s, j, n, 0) && j.status.DeadLetter?
    ensures Alone(Step(s, Now(DoReplay(0))), ReplayRow(j, 0.0), n, 0)
  {
    hide Step, ReplayRow;
    ReplayIs(s, 0);
  }

  lemma SubmittedAlone()
    ensures Alone(End(Workshop(1), [Submits0(0, 0)]), Queued0(0, 0), 0, 0)
  {
    hide Step, End, Queued0;
    SubmitsPlain(Workshop(1), 0, 0);
    EndOne(Workshop(1), Submits0(0, 0));
  }

  function SecondDeath(): Job { DeadAgain(Replayed()) }

  function Replayed(): Job { ReplayRow(DeadJob(), 0.0) }

  lemma ReplayedIsDue()
    ensures DeadJob().status.DeadLetter?
    ensures Replayed().status.Queued? && Replayed().runAt <= 0.0 && Replayed().queue == 0 && Replayed().fence == 1
  {
  }

  lemma NewIsDue()
    ensures var j := Queued0(0, 0);
            j.fence == 0 && j.status.Queued? && j.runAt <= 0.0 && j.queue == 0 && DeadAgain(j) == DeadJob()
  {
  }

  function FirstDies(): seq<Act> { [Submits0(0, 0)] + DiesOnce(0, 0, 1) }

  lemma AfterFirstDies()
    ensures Alone(End(Workshop(1), FirstDies()), DeadJob(), 1, 0)
  {
    hide Step, End, Alone, DiesOnce, DeadAgain, DeadJob, Queued0, Workshop, Submits0;
    NewIsDue();
    SubmittedAlone();
    DiesIs(End(Workshop(1), [Submits0(0, 0)]), Queued0(0, 0), 0);
    EndJoin(Workshop(1), [Submits0(0, 0)], DiesOnce(0, 0, 1));
  }

  function DiesAndIsReplayed(): seq<Act> { FirstDies() + [Now(DoReplay(0))] }

  lemma AfterReplay()
    ensures Alone(End(Workshop(1), DiesAndIsReplayed()), Replayed(), 1, 0)
  {
    ReplayedIsDue();
    hide Step, End, Alone, FirstDies, ReplayRow, DeadJob, Workshop;
    AfterFirstDies();
    ReplayedAlone(End(Workshop(1), FirstDies()), DeadJob(), 1);
    EndSteps(Workshop(1), FirstDies(), Now(DoReplay(0)));
  }

  lemma AfterDiesTwice()
    ensures Alone(End(Workshop(1), DiesTwice()), SecondDeath(), 2, 0)
  {
    ReplayedIsDue();
    hide Step, End, Alone, DiesOnce, Replayed, DeadAgain, DiesAndIsReplayed, Workshop;
    AfterReplay();
    DiesIs(End(Workshop(1), DiesAndIsReplayed()), Replayed(), 1);
    EndJoin(Workshop(1), DiesAndIsReplayed(), DiesOnce(1, 1, 2));
  }

  /** A run from an empty database: a job dies, is replayed and dies again.  The bulk replay passes it
      over although nothing below it is cancelled; replaying it by name would work. */
  lemma SecondDeathIsPassedOver()
    ensures var acts := DiesTwice();
            var ss := Play(Workshop(1), acts);
            && IsRun(ss, acts) && Fresh(ss[0]) && ss[0].dead == map[] && |ss| == |acts| + 1
            && var s := ss[|acts|];
            && 0 in s.jobs && s.jobs[0].status.DeadLetter? && !ChildCancelled(s, 0) && !BulkReplayable(s, 0)
            && Replay(s, 0, 0.0).jobs[0].status.Queued?
  {
    var s0, acts := Workshop(1), DiesTwice();
    var ss := Play(s0, acts);
    WorkshopIsFresh(1);
    assert AtOnce(acts);
    assert SecondDeath().status.DeadLetter? && SecondDeath().generation == 1;
    hide Step, End, IsRun, DiesTwice, AtOnce, Fresh, SecondDeath, Play, BulkReplayable;
    PlayIsRun(s0, acts);
    AfterDiesTwice();
    BulkReplayableIff(ss, acts, |acts|, 0);
    ReplayedAlone(ss[|acts|], SecondDeath(), 2);
    assert ReplayRow(SecondDeath(), 0.0).status.Queued?;
    ReplayStepIs(ss[|acts|]);
  }

  lemma ReplayStepIs(s: Db)
    ensures Step(s, Now(DoReplay(0))).jobs == Replay(s, 0, 0.0).jobs
  {
    hide Replay;
  }
}
