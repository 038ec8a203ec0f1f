/** The reaper: a scan for expired leases, then one report per job found.  The report carries no
    fence and does not look at the lease again, so what it takes back depends on what happened to
    the job in between. */
module Reaping {
  import opened Schema
  import opened Transactions
  import opened Protocol
  import opened Rows
  import opened Fencing
  import opened Frames
  import opened Ledger
  import opened Scenarios

  // ---------------------------------------------------------------- leases in every run

  /** A lease exactly while claimed or running, under the job's fence. */
  predicate LeaseFits(s: Db, j: JobId)
    requires j in s.jobs
  {
    (Active(s.jobs[j].status) <==> j in s.leases) && (j in s.leases ==> s.leases[j].fence == s.jobs[j].fence)
  }

  predicate LeasesFit(s: Db) {
    (forall j :: j in s.leases ==> j in s.jobs) && (forall j :: j in s.jobs ==> LeaseFits(s, j))
  }

  /** The claim and its lease are as they were. */
  predicate SameClaim(s: Db, t: Db, j: JobId)
    requires j in s.jobs && j in t.jobs
  {
    && (Active(s.jobs[j].status) <==> Active(t.jobs[j].status))
    && (Active(s.jobs[j].status) ==> s.jobs[j].fence == t.jobs[j].fence)
    && (j in s.leases <==> j in t.leases)
    && (j in s.leases ==> t.leases[j] == s.leases[j])
  }

  predicate LetGo(t: Db, j: JobId)
    requires j in t.jobs
  {
    !Active(t.jobs[j].status) && j !in t.leases
  }

  /** No lease is written: each claim is kept with its lease or given up with it. */
  predicate NoneRenewed(s: Db, t: Db) {
    && t.leases.Keys <= s.leases.Keys
    && forall j :: j in s.jobs ==> j in t.jobs && (SameClaim(s, t, j) || LetGo(t, j))
  }

  /** The two calls that write a lease and leave it there. */
  predicate Renews(s: Db, op: Op, now: Time, j: JobId) {
    || (op.DoTake? && LiveGrant(s, op.grant) && Claimable(s, op.grant, op.ids, now) && j in op.ids)
    || (op.DoExtend? && op.job == j && HeldAs(s, j, op.fence, Running) && j in s.leases)
  }

  /** When the lease that a renewal writes runs out: a claim takes its full length, an extension
      ends at the job's deadline. */
  function LeaseUntil(s: Db, op: Op, now: Time, j: JobId): Time
    requires Renews(s, op, now, j)
  {
    if op.DoExtend? && s.jobs[j].deadlineAt.Some? then MinR(now + op.lease, s.jobs[j].deadlineAt.value)
      else now + op.lease
  }

  // One short lemma per transaction.

  lemma OneLetsGo(s: Db, t: Db, job: JobId)
    requires OthersStand(s, t, job) && job in t.jobs && !Active(t.jobs[job].status) && t.leases == s.leases - {job}
    ensures NoneRenewed(s, t)
  {
  }

  lemma StandingKeepsClaims(s: Db, t: Db)
    requires AllStand(s, t)
    ensures NoneRenewed(s, t)
  {
  }

  lemma Unchanged(s: Db, t: Db)
    requires t.jobs == s.jobs && t.leases == s.leases
    ensures NoneRenewed(s, t)
  {
  }

  lemma SubmitRenewsNone(s: Db, op: Op, now: Time)
    requires op.DoSubmit? || op.DoFire?
    ensures NoneRenewed(s, Apply(s, op, now))
  {
    hide LiveParents, NewJob;
  }

  lemma StartRenewsNone(s: Db, job: JobId, f: int, w: WorkerId, x: ExecId, now: Time)
    ensures NoneRenewed(s, Start(s, job, f, w, x, now))
  {
  }

  lemma CompleteRenewsNone(s: Db, job: JobId, f: int, x: ExecId, now: Time)
    ensures NoneRenewed(s, Complete(s, job, f, x, now))
  {
    if HeldAs(s, job, f, Running) {
      hide *;
      CompleteParts(s, job, f, x, now);
      CompleteStands(s, job, f, x, now);
      CompletedIsInactive(Complete(s, job, f, x, now), job);
      OneLetsGo(s, Complete(s, job, f, x, now), job);
    } else {
      Unchanged(s, s);
      hide NoneRenewed, FinishDependents, Woken, EventsOf, ReleaseSlots, Count, DurationOf;
    }
  }

  lemma CompletedIsInactive(t: Db, job: JobId)
    requires job in t.jobs && t.jobs[job].status.Completed?
    ensures !Active(t.jobs[job].status)
  {
  }

  lemma FailRenewsNone(s: Db, job: JobId, f: Option<int>, o: Outcome, p: bool, d: Time, now: Time)
    ensures NoneRenewed(s, Fail(s, job, f, o, p, d, now))
  {
    hide NoneRenewed;
    var t := Fail(s, job, f, o, p, d, now);
    if Failable(s, job, f) {
      assert t.leases == s.leases - {job};
      FailStands(s, job, f, o, p, d, now);
      hide *;
      OneLetsGo(s, t, job);
    } else {
      Unchanged(s, t);
    }
  }

  lemma SnoozeRenewsNone(s: Db, job: JobId, f: Option<int>, x: ExecId, d: Time, now: Time)
    ensures NoneRenewed(s, Snooze(s, job, f, x, d, now))
  {
    hide NoneRenewed;
    var t := Snooze(s, job, f, x, d, now);
    if Snoozable(s, job, f, d, now) {
      assert t.leases == s.leases - {job};
      SnoozeStands(s, job, f, x, d, now);
      hide *;
      OneLetsGo(s, t, job);
    } else {
      Unchanged(s, t);
    }
  }

  lemma CancelRenewsNone(s: Db, job: JobId, now: Time)
    ensures NoneRenewed(s, Cancel(s, job, now))
  {
    hide CloseOfJob, ReleaseSlots;
  }

  lemma BatchRenewsNone(s: Db, batch: seq<Done>, now: Time)
    ensures NoneRenewed(s, CompleteBatch(s, batch, now))
  {
    var t, m := CompleteBatch(s, batch, now), Matched(s, batch);
    if m == [] {
      hide NoneRenewed;
      Unchanged(s, t);
    } else {
      BatchParts(s, batch, now);
      hide CompleteBatch, Matched, JobsOf, NoneRenewed;
      DoneLetGo(s, t, JobsOf(m), now);
    }
  }

  lemma DoneLetGo(s: Db, t: Db, done: set<JobId>, now: Time)
    requires t.jobs == AfterDone(s, done, now) && t.leases == s.leases - done
    ensures NoneRenewed(s, t)
  {
    forall j | j in s.jobs ensures j in t.jobs && (SameClaim(s, t, j) || LetGo(t, j)) {
      if j in done {
        assert t.jobs[j] == CompleteRow(s.jobs[j], now);
      } else {
        BatchStands(s, done, now, j);
        hide AfterDone;
      }
    }
  }

  lemma OthersRenewNone(s: Db, op: Op, now: Time)
    requires !op.DoTake? && !op.DoExtend?
    ensures NoneRenewed(s, Apply(s, op, now))
  {
    hide NoneRenewed, AllStand, SameOutside;
    hide Submit, Fire, AdmitTo, Take, GiveBack, Crash, Start, Extend, Complete, CompleteBatch, Fail, Snooze, Cancel;
    hide Promote, Retry, Replay, ReplayDead, Probe, CloseExecution, Sweep, ConfigureQueue, FlipBreaker, Reconcile;
    match op
    case DoSubmit(_) => SubmitRenewsNone(s, op, now);
    case DoFire(_, _) => SubmitRenewsNone(s, op, now);
    case DoStart(job, f, w, x) => StartRenewsNone(s, job, f, w, x, now);
    case DoComplete(job, f, x) => CompleteRenewsNone(s, job, f, x, now);
    case DoCompleteBatch(b) => BatchRenewsNone(s, b, now);
    case DoFail(job, f, o, p, d) => FailRenewsNone(s, job, Some(f), o, p, d, now);
    case DoReap(job, d) => FailRenewsNone(s, job, None, Lost, false, d, now);
    case DoSnooze(job, f, x, d) => SnoozeRenewsNone(s, job, Some(f), x, d, now);
    case DoCancel(job) => CancelRenewsNone(s, job, now);
    case DoPromote(ids) => PromoteStands(s, ids, now); StandingKeepsClaims(s, Promote(s, ids, now));
    case DoRetry(job) => RetryStands(s, job, now); StandingKeepsClaims(s, Retry(s, job, now));
    case DoReplay(job) => ReplayStands(s, job, now); StandingKeepsClaims(s, Replay(s, job, now));
    case DoReplayDead(spacing) =>
      ReplayDeadStands(s, spacing, now);
      StandingKeepsClaims(s, ReplayDead(s, spacing, now));
    case _ => NeitherWritten(s, op, now); Unchanged(s, Apply(s, op, now));
  }

  lemma NeitherWritten(s: Db, op: Op, now: Time)
    requires Jobs !in Writes(op) && Leases !in Writes(op)
    ensures Apply(s, op, now).jobs == s.jobs && Apply(s, op, now).leases == s.leases
  {
    hide Apply;
    ApplyWrites(s, op, now);
  }

  /** What any transaction does to one claim and its lease. */
  predicate ClaimMoves(s: Db, op: Op, now: Time, t: Db, j: JobId)
    requires j in s.jobs && j in t.jobs
  {
    if Renews(s, op, now, j) then
      Active(t.jobs[j].status) && j in t.leases && t.leases[j].fence == t.jobs[j].fence
        && t.leases[j].expiresAt == LeaseUntil(s, op, now, j)
    else SameClaim(s, t, j) || LetGo(t, j)
  }

  lemma TakeMoves(s: Db, g: nat, ids: set<JobId>, w: WorkerId, lease: Time, now: Time, j: JobId)
    requires j in s.jobs
    ensures var t := Take(s, g, ids, w, lease, now); j in t.jobs && ClaimMoves(s, DoTake(g, ids, w, lease), now, t, j)
  {
    hide ReleaseSlots;
  }

  lemma ExtendMoves(s: Db, job: JobId, f: int, lease: Time, now: Time, j: JobId)
    requires j in s.jobs && LeaseFits(s, j)
    ensures var t := Extend(s, job, f, lease, now); j in t.jobs && ClaimMoves(s, DoExtend(job, f, lease), now, t, j)
  {
  }

  lemma ApplyMovesClaims(s: Db, op: Op, now: Time, j: JobId)
    requires j in s.jobs && LeaseFits(s, j)
    ensures var t := Apply(s, op, now); j in t.jobs && ClaimMoves(s, op, now, t, j)
  {
    hide LeaseFits;
    if op.DoTake? {
      hide Take, ClaimMoves;
      TakeMoves(s, op.grant, op.ids, op.worker, op.lease, now, j);
    } else if op.DoExtend? {
      hide Extend, ClaimMoves;
      ExtendMoves(s, op.job, op.fence, op.lease, now, j);
    } else {
      hide Apply, SameClaim, LetGo;
      OthersRenewNone(s, op, now);
    }
  }

  lemma LeasesInside(s: Db, op: Op, now: Time)
    ensures Apply(s, op, now).leases.Keys <= s.leases.Keys + s.jobs.Keys
  {
    if op.DoTake? {
      hide ReleaseSlots, ClaimRow, Spend;
    } else if op.DoExtend? {
    } else {
      hide Apply, SameClaim, LetGo;
      OthersRenewNone(s, op, now);
    }
  }

  lemma MovedFits(s: Db, op: Op, now: Time, t: Db, j: JobId)
    requires j in s.jobs && j in t.jobs && LeaseFits(s, j) && ClaimMoves(s, op, now, t, j)
    ensures LeaseFits(t, j)
  {
    hide Renews;
  }

  lemma NewFits(s: Db, t: Db, j: JobId, now: Time)
    requires j in t.jobs && NewRow(t.jobs[j], now) && j !in t.leases
    ensures LeaseFits(t, j)
  {
  }

  lemma StepKeepsLeases(s: Db, a: Act)
    requires RowsOk(s) && OnTime(s, a) && LeasesFit(s)
    ensures LeasesFit(Step(s, a))
  {
    var t := Step(s, a);
    var u := Apply(s, a.op, a.now);
    assert t.jobs == u.jobs && t.leases == u.leases;
    StepMovesRows(s, a) by { RowsAreDated(s); }
    hide Apply, Step, OnTime, RowsOk, LeaseFits, ClaimMoves, RowStep, NewRow;
    LeasesInside(s, a.op, a.now);
    forall j | j in t.jobs ensures LeaseFits(t, j) {
      if j in s.jobs {
        ApplyMovesClaims(s, a.op, a.now, j);
        MovedFits(s, a.op, a.now, u, j);
        SameFits(u, t, j);
      } else {
        NewFits(s, t, j, a.now);
      }
    }
  }

  lemma SameFits(s: Db, t: Db, j: JobId)
    requires j in s.jobs && t.jobs == s.jobs && t.leases == s.leases && LeaseFits(s, j)
    ensures LeaseFits(t, j)
  {
  }

  lemma FreshLeases(s: Db)
    requires Fresh(s)
    ensures LeasesFit(s)
  {
  }

  /** Leases and claims agree in every run, whatever the reports carry. */
  lemma {:induction false} RunKeepsLeases(ss: seq<Db>, acts: seq<Act>, i: nat)
    requires IsRun(ss, acts) && Fresh(ss[0]) && i < |ss|
    ensures LeasesFit(ss[i])
  {
    hide *;
    if i == 0 {
      FreshLeases(ss[0]);
    } else {
      RunStep(ss, acts, i - 1);
      RunKeepsRows(ss, acts, i - 1);
      RunKeepsLeases(ss, acts, i - 1);
      StepKeepsLeases(ss[i - 1], acts[i - 1]);
    }
  }

  // ---------------------------------------------------------------- a claim between scan and report

  predicate RenewedAt(ss: seq<Db>, acts: seq<Act>, m: int, job: JobId) {
    0 <= m < |acts| && m < |ss| && Renews(ss[m], acts[m].op, acts[m].now, job)
  }

  predicate NotRenewed(ss: seq<Db>, acts: seq<Act>, i: int, k: int, job: JobId) {
    forall m :: i <= m < k ==> !RenewedAt(ss, acts, m, job)
  }

  predicate LeaseRuns(s: Db, job: JobId, now: Time) {
    job in s.jobs && Active(s.jobs[job].status) && job in s.leases && s.leases[job].expiresAt >= now
  }

  lemma StepMovesClaim(s: Db, a: Act, j: JobId)
    requires j in s.jobs && LeaseFits(s, j)
    ensures var t := Step(s, a); j in t.jobs && ClaimMoves(s, a.op, a.now, t, j)
  {
    var t, u := Step(s, a), Apply(s, a.op, a.now);
    assert t.jobs == u.jobs && t.leases == u.leases;
    hide Apply, Step, LeaseFits;
    ApplyMovesClaims(s, a.op, a.now, j);
    hide Renews;
  }

  lemma HeldAndLeased(s: Db, j: JobId)
    requires LeasesFit(s)
    ensures j in s.leases ==> j in s.jobs && Holds(s, j, s.leases[j].fence)
    ensures j in s.jobs ==> LeaseFits(s, j)
    ensures j in s.jobs && Active(s.jobs[j].status) ==> j in s.leases
  {
  }

  lemma KeptLease(s: Db, a: Act, j: JobId)
    requires j in s.jobs && LeaseFits(s, j) && !Renews(s, a.op, a.now, j)
    ensures var t := Step(s, a); j in t.leases ==> j in s.leases && t.leases[j] == s.leases[j]
  {
    hide Step, LeaseFits, Renews;
    StepMovesClaim(s, a, j);
  }

  lemma JobsStay(s: Db, a: Act)
    requires RowsOk(s) && OnTime(s, a)
    ensures s.jobs.Keys <= Step(s, a).jobs.Keys
  {
    hide Step, OnTime, RowStep, RowOk;
    StepMovesRows(s, a);
  }

  lemma {:induction false} JobStays(ss: seq<Db>, acts: seq<Act>, i: nat, k: nat, job: JobId)
    requires IsRun(ss, acts) && Fresh(ss[0]) && i <= k < |ss| && job in ss[i].jobs
    ensures job in ss[k].jobs
    decreases k - i
  {
    hide *;
    if i < k {
      JobStays(ss, acts, i, k - 1, job);
      RunStep(ss, acts, k - 1);
      RunKeepsRows(ss, acts, k - 1);
      JobsStay(ss[k - 1], acts[k - 1]);
    }
  }

  lemma NotRenewedBefore(ss: seq<Db>, acts: seq<Act>, i: nat, k: nat, job: JobId)
    requires i <= k < |acts| && k < |ss| && NotRenewed(ss, acts, i, k + 1, job)
    ensures NotRenewed(ss, acts, i, k, job) && !Renews(ss[k], acts[k].op, acts[k].now, job)
  {
    hide Renews;
    assert !RenewedAt(ss, acts, k, job);
  }

  /** Without a renewal the lease a job is under is the one it was under. */
  lemma {:induction false} SameLeaseUntilRenewed(ss: seq<Db>, acts: seq<Act>, i: nat, k: nat, job: JobId)
    requires IsRun(ss, acts) && Fresh(ss[0]) && i <= k < |ss| && job in ss[i].jobs && NotRenewed(ss, acts, i, k, job)
    ensures job in ss[k].leases ==> job in ss[i].leases && ss[k].leases[job] == ss[i].leases[job]
    decreases k - i
  {
    hide *;
    if i < k {
      RunStep(ss, acts, k - 1);
      NotRenewedBefore(ss, acts, i, k - 1, job);
      SameLeaseUntilRenewed(ss, acts, i, k - 1, job);
      RunKeepsRows(ss, acts, k - 1);
      RunKeepsLeases(ss, acts, k - 1);
      HeldAndLeased(ss[k - 1], job);
      JobStays(ss, acts, i, k - 1, job);
      KeptLease(ss[k - 1], acts[k - 1], job);
    }
  }

  lemma {:induction false} LastRenewal(ss: seq<Db>, acts: seq<Act>, i: nat, k: nat, job: JobId) returns (m: nat)
    requires i <= k && !NotRenewed(ss, acts, i, k, job)
    ensures i <= m < k && RenewedAt(ss, acts, m, job) && NotRenewed(ss, acts, m + 1, k, job)
    decreases k - i
  {
    hide RenewedAt;
    if RenewedAt(ss, acts, k - 1, job) {
      m := k - 1;
    } else {
      m := LastRenewal(ss, acts, i, k - 1, job);
    }
  }

  /** No report or cancellation hits the claim (job, f) from i on. */
  predicate NoneEnds(ss: seq<Db>, acts: seq<Act>, i: nat, k: nat, job: JobId, f: int) {
    forall n :: i <= n < k && n < |acts| && n < |ss| ==> !Ends(ss[n], acts[n].op, acts[n].now, job, f)
  }

  lemma NoneEndsBefore(ss: seq<Db>, acts: seq<Act>, i: nat, k: nat, job: JobId, f: int)
    requires i <= k < |acts| && k < |ss|
    ensures NoneEnds(ss, acts, i, k + 1, job, f) <==>
        NoneEnds(ss, acts, i, k, job, f) && !Ends(ss[k], acts[k].op, acts[k].now, job, f)
  {
    hide Ends;
  }

  lemma NoneEndsYet(ss: seq<Db>, acts: seq<Act>, i: nat, job: JobId, f: int)
    ensures NoneEnds(ss, acts, i, i, job, f)
  {
  }

  lemma StepHolds(s: Db, a: Act, job: JobId, f: int)
    requires RowsOk(s) && Holds(s, job, f)
    ensures Holds(Step(s, a), job, f) <==> !Ends(s, a.op, a.now, job, f)
  {
    var u := Apply(s, a.op, a.now);
    assert Step(s, a).jobs == u.jobs;
    assert RowOk(s.jobs[job]);
    hide Apply, Step, Ends, RowOk;
    if Ends(s, a.op, a.now, job, f) {
      ReportsEndTheClaim(s, a.op, a.now, job, f);
    } else {
      OnlyReportsEndTheClaim(s, a.op, a.now, job, f);
    }
  }

  lemma HoldsIsNotEnded(s: Db, job: JobId, f: int)
    ensures Holds(s, job, f) ==> !Ended(s, job, f)
    ensures job in s.jobs && s.jobs[job].fence >= f && !Holds(s, job, f) ==> Ended(s, job, f)
  {
  }

  /** A claim is held for as long as nothing ends it. */
  lemma {:induction false} HeldIff(ss: seq<Db>, acts: seq<Act>, i: nat, k: nat, job: JobId, f: int)
    requires IsRun(ss, acts) && Fresh(ss[0]) && i <= k < |ss| && Holds(ss[i], job, f)
    ensures Holds(ss[k], job, f) <==> NoneEnds(ss, acts, i, k, job, f)
    ensures Holds(ss[k], job, f) || Ended(ss[k], job, f)
    decreases k - i
  {
    hide *;
    if i == k {
      NoneEndsYet(ss, acts, i, job, f);
    } else {
      RunStep(ss, acts, k - 1);
      RunKeepsRows(ss, acts, k - 1);
      HeldIff(ss, acts, i, k - 1, job, f);
      NoneEndsBefore(ss, acts, i, k - 1, job, f);
      if Holds(ss[k - 1], job, f) {
        StepHolds(ss[k - 1], acts[k - 1], job, f);
        StillHeldOrEnded(ss[k - 1], acts[k - 1], job, f);
      } else {
        StepKeepsEnded(ss[k - 1], acts[k - 1], job, f);
        HoldsIsNotEnded(ss[k], job, f);
      }
    }
  }

  lemma StillHeldOrEnded(s: Db, a: Act, job: JobId, f: int)
    requires RowsOk(s) && OnTime(s, a) && Holds(s, job, f)
    ensures Holds(Step(s, a), job, f) || Ended(Step(s, a), job, f)
  {
    hide RowStep, Step, OnTime, RowOk;
    StepMovesRows(s, a);
    RowStepKeeps(s.jobs[job], Step(s, a).jobs[job]);
  }

  /** The renewal at m is the last one before k; its lease runs until `now` at least, and nothing
      has ended the claim it stands for. */
  predicate StillRuns(ss: seq<Db>, acts: seq<Act>, m: nat, k: nat, job: JobId, now: Time) {
    && m < k && RenewedAt(ss, acts, m, job) && NotRenewed(ss, acts, m + 1, k, job)
    && LeaseUntil(ss[m], acts[m].op, acts[m].now, job) >= now
    && NoneEnds(ss, acts, m + 1, k, job, FenceAfter(ss[m], acts[m].op, job))
  }

  /** The fence of the claim that a renewal stands for: a claim takes the next one. */
  function FenceAfter(s: Db, op: Op, job: JobId): int {
    if job !in s.jobs then 0 else if op.DoTake? then s.jobs[job].fence + 1 else s.jobs[job].fence
  }

  lemma RenewalHolds(s: Db, a: Act, job: JobId)
    requires Renews(s, a.op, a.now, job) && LeasesFit(s)
    ensures var t := Step(s, a);
            && Holds(t, job, FenceAfter(s, a.op, job))
            && job in t.leases && t.leases[job].expiresAt == LeaseUntil(s, a.op, a.now, job)
  {
    assert job in s.jobs;
    assert LeaseFits(s, job);
    if a.op.DoTake? {
      hide ReleaseSlots;
    } else {
      hide Take;
    }
  }

  lemma RenewedJob(ss: seq<Db>, acts: seq<Act>, m: nat, job: JobId)
    requires IsRun(ss, acts) && Fresh(ss[0]) && m + 1 < |ss| && RenewedAt(ss, acts, m, job)
    ensures Holds(ss[m + 1], job, FenceAfter(ss[m], acts[m].op, job))
    ensures job in ss[m + 1].leases
        && ss[m + 1].leases[job].expiresAt == LeaseUntil(ss[m], acts[m].op, acts[m].now, job)
  {
    RunKeepsLeases(ss, acts, m);
    RunStep(ss, acts, m);
    hide IsRun, Step, Renews, LeaseUntil, FenceAfter, LeasesFit, Holds;
    RenewalHolds(ss[m], acts[m], job);
  }

  /** The last renewal decides: its lease is the one in force, if the claim is still held. */
  lemma LastLease(ss: seq<Db>, acts: seq<Act>, m: nat, k: nat, job: JobId, now: Time)
    requires IsRun(ss, acts) && Fresh(ss[0]) && m < k < |ss| && RenewedAt(ss, acts, m, job)
        && NotRenewed(ss, acts, m + 1, k, job)
    ensures LeaseRuns(ss[k], job, now) <==> StillRuns(ss, acts, m, k, job, now)
  {
    var f := FenceAfter(ss[m], acts[m].op, job);
    RenewedJob(ss, acts, m, job);
    HeldIff(ss, acts, m + 1, k, job, f);
    RunKeepsLeases(ss, acts, k);
    HeldAndLeased(ss[k], job);
    SameLeaseUntilRenewed(ss, acts, m + 1, k, job);
    RunKeepsLeases(ss, acts, m + 1);
    HeldAndLeased(ss[m + 1], job);
    hide IsRun, Renews, LeaseUntil, LeasesFit, NoneEnds, NotRenewed, FenceAfter, LeaseFits;
  }

  lemma NoRenewalRuns(ss: seq<Db>, acts: seq<Act>, i: nat, m: nat, k: nat, job: JobId, now: Time)
    requires NotRenewed(ss, acts, i, k, job) && StillRuns(ss, acts, m, k, job, now)
    ensures m < i
  {
    hide Renews, NoneEnds, LeaseUntil;
    assert RenewedAt(ss, acts, m, job);
  }

  /** A job was seen expired at i.  When the report comes, the job is held under a lease that has
      not run out if and only if it was claimed or extended in between, to a time not yet past, and
      nothing has ended that claim. */
  lemma FreshAtReportIff(ss: seq<Db>, acts: seq<Act>, i: nat, k: nat, job: JobId, seen: Time, now: Time)
    requires IsRun(ss, acts) && Fresh(ss[0]) && i <= k < |ss| && Expired(ss[i], job, seen) && seen <= now
    ensures LeaseRuns(ss[k], job, now) <==> exists m: nat :: i <= m && StillRuns(ss, acts, m, k, job, now)
  {
    if NotRenewed(ss, acts, i, k, job) {
      SameLeaseUntilRenewed(ss, acts, i, k, job);
      hide IsRun, StillRuns, NotRenewed;
      forall m: nat | StillRuns(ss, acts, m, k, job, now) ensures m < i { NoRenewalRuns(ss, acts, i, m, k, job, now); }
    } else {
      var last := LastRenewal(ss, acts, i, k, job);
      hide IsRun, StillRuns, NotRenewed, Expired, LeaseRuns;
      LastLease(ss, acts, last, k, job, now);
      forall m: nat | StillRuns(ss, acts, m, k, job, now) ensures LeaseRuns(ss[k], job, now) {
        LastOfThem(ss, acts, m, k, job, now);
        LastLease(ss, acts, m, k, job, now);
      }
    }
  }

  lemma LastOfThem(ss: seq<Db>, acts: seq<Act>, m: nat, k: nat, job: JobId, now: Time)
    requires StillRuns(ss, acts, m, k, job, now)
    ensures m < k && RenewedAt(ss, acts, m, job) && NotRenewed(ss, acts, m + 1, k, job)
  {
  }

  lemma ReapHits(s: Db, job: JobId, backoff: Time, now: Time)
    ensures var t := Apply(s, DoReap(job, backoff), now);
            if job in s.jobs && Active(s.jobs[job].status)
            then job !in t.leases && Ended(t, job, s.jobs[job].fence)
            else t == s
  {
    if job in s.jobs && Active(s.jobs[job].status) {
      hide Ended;
      FailEndsTheClaim(s, job, s.jobs[job].fence, None, Lost, false, backoff, now);
      hide CancelDescendants, Killed, EventsOf, ReleaseSlots, Count, CloseOfJob, FailRow, Exhausted, DeadReason;
    }
  }

  lemma ReapSteps(ss: seq<Db>, acts: seq<Act>, k: nat, job: JobId, backoff: Time)
    requires IsRun(ss, acts) && k < |acts| && acts[k].op == DoReap(job, backoff)
    ensures if job in ss[k].jobs && Active(ss[k].jobs[job].status)
            then job !in ss[k + 1].leases && Ended(ss[k + 1], job, ss[k].jobs[job].fence)
            else ss[k + 1] == ss[k].(clock := acts[k].now)
  {
    RunStep(ss, acts, k);
    ReapHits(ss[k], job, backoff, acts[k].now);
    assert ss[k + 1] == Apply(ss[k], acts[k].op, acts[k].now).(clock := acts[k].now);
    hide Apply, IsRun;
  }

  /** The report on a job seen expired at i ends whatever claim the job is under, or does nothing.
      The claim it ends is under a lease that still runs exactly when a renewal since the scan is
      still in force; with no renewal at all it is the claim, and the lease, that the scan saw. */
  lemma ReportAfterScan(ss: seq<Db>, acts: seq<Act>, i: nat, k: nat, job: JobId, seen: Time, backoff: Time)
    requires IsRun(ss, acts) && Fresh(ss[0]) && i <= k < |acts| && acts[k].op == DoReap(job, backoff)
    requires Expired(ss[i], job, seen) && seen <= acts[k].now
    ensures job in ss[k].jobs
    ensures ss[k + 1] == ss[k].(clock := acts[k].now)
        || (job !in ss[k + 1].leases && Ended(ss[k + 1], job, ss[k].jobs[job].fence))
    ensures !Active(ss[k].jobs[job].status) ==> ss[k + 1] == ss[k].(clock := acts[k].now)
    ensures Active(ss[k].jobs[job].status) ==>
      (Expired(ss[k], job, acts[k].now) <==> !exists m: nat :: i <= m && StillRuns(ss, acts, m, k, job, acts[k].now))
    ensures Active(ss[k].jobs[job].status) && NotRenewed(ss, acts, i, k, job) ==>
      Holds(ss[k], job, ss[i].jobs[job].fence) && job in ss[k].leases && ss[k].leases[job] == ss[i].leases[job]
  {
    hide StillRuns, NotRenewed, Step, OnTime, Ended;
    ReapSteps(ss, acts, k, job, backoff);
    FreshAtReportIff(ss, acts, i, k, job, seen, acts[k].now);
    JobStays(ss, acts, i, k, job);
    RunKeepsLeases(ss, acts, k);
    HeldAndLeased(ss[k], job);
    if NotRenewed(ss, acts, i, k, job) {
      SameLeaseUntilRenewed(ss, acts, i, k, job);
      RunKeepsLeases(ss, acts, i);
      HeldAndLeased(ss[i], job);
    }
    hide IsRun, LeasesFit;
  }

  // ---------------------------------------------------------------- a live claim taken back

  const LongOrder: Submission := Submission(0, 0, 0, Policy(2, 0.0), 3600.0, None, [])

  function LongJob(): Job {
    Job(0, 0, Policy(2, 0.0), 3600.0, Queued, 0.0, 0, 0, 0, 0, None, 0, 0, 0.0, None, None, None, None, 0, {})
  }

  /** One job runs from time 0 under a lease of a minute. */
  function OneHeld(): seq<Act> { [Now(DoSubmit(LongOrder))] + DriveActs(0, 0, 0, 0, 1) }

  predicate AloneOn(s: Db, j: Job, out: int) {
    s.jobs == map[0 := j] && 0 in s.queues && s.queues[0] == Row(0, 1, out) && s.edges == {} && |s.grants| == 1
  }

  lemma LongSubmitted()
    ensures var t := Step(Workshop(1), Now(DoSubmit(LongOrder)));
            && t.jobs == map[0 := LongJob()] && t.queues == Workshop(1).queues && t.edges == {} && t.grants == []
            && t.execs == map[] && t.leases == map[]
  {
    var s0 := Workshop(1);
    assert LiveParents(s0.jobs, LongOrder.parents, 0) == {};
    hide LiveParents, Step;
    SubmitIs(s0, LongOrder, {});
    assert (set p | p in LongOrder.parents :: (p, LongOrder.id)) == {};
    assert NewJob(s0, LongOrder, Queued, 0.0, {}, 0.0) == LongJob();
  }

  lemma AfterOneHeld()
    ensures var t := End(Workshop(1), OneHeld());
            AloneOn(t, RunRow(LongJob()), 1) && t.leases == map[0 := Lease(1, 0, 60.0)] && t.clock == 0.0
  {
    var s0, a := Workshop(1), Now(DoSubmit(LongOrder));
    hide Step, RunRow, End;
    LongSubmitted();
    EndOne(s0, a);
    DriveLeases(Step(s0, a), 0, 0, 0, 0, 1, 0);
    EndJoin(s0, [a], DriveActs(0, 0, 0, 0, 1));
  }

  const Late: Time := 100.0

  function Reaps(): Act { Act(DoReap(0, 0.0), Late) }

  /** A scan at time 100 finds the job of OneHeld expired; what `mid` does before the report puts it
      under a lease that still runs; the report ends that claim all the same. */
  predicate TakesBackLiveClaim(mid: seq<Act>, f: int) {
    var acts := OneHeld() + mid + [Reaps()];
    var ss, k := Play(Workshop(1), acts), 4 + |mid|;
    && IsRun(ss, acts) && |acts| == k + 1 && Fresh(ss[0])
    && ss[4].clock <= Late <= acts[4].now && Expired(ss[4], 0, Late)
    && acts[k].op == DoReap(0, 0.0) && LeaseRuns(ss[k], 0, Late) && Holds(ss[k], 0, f)
    && Ended(ss[k + 1], 0, f) && 0 !in ss[k + 1].leases
  }

  lemma ScannedThenReaped(mid: seq<Act>, f: int)
    requires Paced(OneHeld() + mid + [Reaps()], 0.0) && mid != [] && mid[0].now == Late
    requires var t := End(Workshop(1), OneHeld() + mid); LeaseRuns(t, 0, Late) && Holds(t, 0, f)
    ensures TakesBackLiveClaim(mid, f)
  {
    var s0, held := Workshop(1), OneHeld();
    var acts := held + mid + [Reaps()];
    var ss, k := Play(s0, acts), 4 + |mid|;
    assert |held| == 4 && s0.clock == 0.0;
    hide Step, End, Play, IsRun, OneHeld, Paced, Fresh, Ended, Expired, Workshop, LeaseRuns;
    WorkshopIsFresh(1);
    ScanFindsIt();
    PlayInOrder(s0, acts);
    PlayedParts(s0, held, mid, Reaps());
    ReapSteps(ss, acts, k, 0, 0.0);
  }

  lemma PlayedParts(s: Db, a: seq<Act>, b: seq<Act>, last: Act)
    requires b != []
    ensures var acts := a + b + [last];
            var ss := Play(s, acts);
            && |ss| == |acts| + 1 && ss[|a|] == End(s, a) && ss[|a + b|] == End(s, a + b)
            && acts[|a|] == b[0] && acts[|a + b|] == last
  {
    var acts := a + b + [last];
    PlayAt(s, acts, |a|);
    PlayAt(s, acts, |a + b|);
    assert acts[..|a|] == a && acts[..|a + b|] == a + b;
    hide Play, End;
  }

  lemma ScanFindsIt()
    ensures var t := End(Workshop(1), OneHeld()); Expired(t, 0, Late) && t.clock <= Late
  {
    hide End, OneHeld, Workshop;
    AfterOneHeld();
  }

  lemma ExtendIs(s: Db)
    requires AloneOn(s, RunRow(LongJob()), 1) && s.leases == map[0 := Lease(1, 0, 60.0)]
    ensures var t := Step(s, Act(DoExtend(0, 1, 60.0), Late)); LeaseRuns(t, 0, Late) && Holds(t, 0, 1)
  {
  }

  function Extension(): seq<Act> { [Act(DoExtend(0, 1, 60.0), Late)] }

  /** The worker extends its lease between scan and report. */
  lemma ExtendedIsTakenBack()
    ensures TakesBackLiveClaim(Extension(), 1)
  {
    var s0, a := Workshop(1), Act(DoExtend(0, 1, 60.0), Late);
    assert Paced(OneHeld() + Extension() + [Reaps()], 0.0);
    AfterOneHeld();
    hide TakesBackLiveClaim, Step, End, OneHeld, RunRow, Paced, LeaseRuns, Holds;
    ExtendIs(End(s0, OneHeld()));
    EndSteps(s0, OneHeld(), a);
    ScannedThenReaped(Extension(), 1);
  }

  /** The attempt fails, is retried at once and claimed again. */
  function SecondClaim(): seq<Act> {
    [Act(DoFail(0, 1, RetryableError, false, 0.0), Late)] + [Act(DoRetry(0), Late)]
    + [Act(DoAdmit(0, 1, Some(0), ClockAt(Late)), Late)] + [Act(DoTake(1, {0}, 0, 60.0), Late)]
  }

  function Failed(): Job { FailRow(RunRow(LongJob()), false, 0.0, Late) }
  function Requeued(): Job { Failed().(status := Queued, runAt := Late) }

  lemma FailsForNow(s: Db)
    requires AloneOn(s, RunRow(LongJob()), 1)
    ensures AloneOn(Step(s, Act(DoFail(0, 1, RetryableError, false, 0.0), Late)), Failed(), 0)
  {
    var j := RunRow(LongJob());
    assert !Exhausted(j, false) && j.queue == 0 && j.shard == 0 && Active(j.status) && j.fence == 1;
    ReleaseIs(s.queues, 0, 0, 1, 1);
    hide CancelDescendants, Killed, EventsOf, ReleaseSlots, Count, CloseOfJob, FailRow, Exhausted, DeadReason, RunRow;
  }

  lemma RetriedNow(s: Db)
    requires AloneOn(s, Failed(), 0)
    ensures AloneOn(Step(s, Act(DoRetry(0), Late)), Requeued(), 0)
  {
  }

  lemma TakenAgain(s: Db)
    requires AloneOn(s, Requeued(), 0)
    ensures var t := Step(Step(s, Act(DoAdmit(0, 1, Some(0), ClockAt(Late)), Late)),
        Act(DoTake(1, {0}, 0, 60.0), Late));
            LeaseRuns(t, 0, Late) && Holds(t, 0, 2)
  {
    assert Requeued().status.Queued? && Requeued().runAt <= Late && Requeued().queue == 0 && Requeued().fence == 1;
    hide Step, Requeued;
    AdmitIs(s, 0, 0, 1, 0, Late);
    TakeIs(Step(s, Act(DoAdmit(0, 1, Some(0), ClockAt(Late)), Late)), 1, 0, 0, 0, 1, 1, Late);
  }

  lemma AfterSecondClaim()
    ensures var t := End(Workshop(1), OneHeld() + SecondClaim()); LeaseRuns(t, 0, Late) && Holds(t, 0, 2)
  {
    var s0, held := Workshop(1), OneHeld();
    var a, b := Act(DoFail(0, 1, RetryableError, false, 0.0), Late), Act(DoRetry(0), Late);
    var c, d := Act(DoAdmit(0, 1, Some(0), ClockAt(Late)), Late), Act(DoTake(1, {0}, 0, 60.0), Late);
    AfterOneHeld();
    assert held + SecondClaim() == held + [a] + [b] + [c] + [d];
    hide Step, End, OneHeld, SecondClaim, AloneOn, RunRow, LongJob, Failed, Requeued, LeaseRuns, Holds;
    FailsForNow(End(s0, held));
    EndSteps(s0, held, a);
    RetriedNow(End(s0, held + [a]));
    EndSteps(s0, held + [a], b);
    TakenAgain(End(s0, held + [a] + [b]));
    EndSteps(s0, held + [a] + [b], c);
    EndSteps(s0, held + [a] + [b] + [c], d);
  }

  /** The job is given up and claimed again between scan and report. */
  lemma ReclaimedIsTakenBack()
    ensures TakesBackLiveClaim(SecondClaim(), 2)
  {
    assert Paced(OneHeld() + SecondClaim() + [Reaps()], 0.0);
    assert SecondClaim() != [] && SecondClaim()[0].now == Late;
    hide TakesBackLiveClaim, End, OneHeld, SecondClaim, Paced, LeaseRuns, Holds;
    AfterSecondClaim();
    ScannedThenReaped(SecondClaim(), 2);
  }
}
