/** Which tables each transaction writes.  `NewJobs` stands for inserts into jobs, `Probes` for what
    workers remember of their claims. */
module Frames {
  import opened Schema
  import opened Transactions
  import opened Protocol
  import A = Admission

  datatype Table = Jobs | NewJobs | Execs | Leases | Edges | Queues | Grants | Probes | Stats | DeadRows | Events

  function Writes(op: Op): set<Table> {
    match op
    case DoSubmit(_) => {Jobs, NewJobs, Edges, Events}
    case DoFire(_, _) => {Jobs, NewJobs, Events}
    case DoAdmit(_, _, _, _) => {Queues, Grants}
    case DoTake(_, _, _, _) => {Jobs, Leases, Queues, Grants}
    case DoGiveBack(_) => {Queues, Grants}
    case DoCrash(_) => {Grants}
    case DoStart(_, _, _, _) => {Jobs, Execs}
    case DoExtend(_, _, _) => {Leases}
    case DoComplete(_, _, _) => {Jobs, Execs, Leases, Queues, Stats, Events}
    case DoCompleteBatch(_) => {Jobs, Execs, Leases, Queues, Stats, Events}
    case DoFail(_, _, _, _, _) => {Jobs, Execs, Leases, Queues, Stats, DeadRows, Events}
    case DoReap(_, _) => {Jobs, Execs, Leases, Queues, Stats, DeadRows, Events}
    case DoSnooze(_, _, _, _) => {Jobs, Execs, Leases, Queues, Events}
    case DoCancel(_) => {Jobs, Execs, Leases, Queues, Events}
    case DoPromote(_) => {Jobs, Events}
    case DoRetry(_) => {Jobs, Events}
    case DoReplay(_) => {Jobs, DeadRows, Events}
    case DoReplayDead(_) => {Jobs, DeadRows, Events}
    case DoProbe(_, _) => {Probes}
    case DoCloseExecution(_, _) => {Execs}
    case DoSweep(_) => {Execs}
    case DoConfigure(_, _) => {Queues}
    case DoFlip(_, _, _) => {Queues}
    case DoReconcile => {Queues, Grants}
  }

  predicate SameOutside(s: Db, t: Db, written: set<Table>) {
    && (Jobs !in written ==> t.jobs == s.jobs)
    && (NewJobs !in written ==> t.jobs.Keys == s.jobs.Keys)
    && (Execs !in written ==> t.execs == s.execs)
    && (Leases !in written ==> t.leases == s.leases)
    && (Edges !in written ==> t.edges == s.edges)
    && (Queues !in written ==> t.queues == s.queues)
    && (Grants !in written ==> t.grants == s.grants)
    && (Probes !in written ==> t.fenced == s.fenced)
    && (Stats !in written ==> t.stats == s.stats)
    && (DeadRows !in written ==> t.dead == s.dead)
    && (Events !in written ==> t.events == s.events)
  }

  // One short lemma per transaction, so that no proof has to look at all of them at once.

  lemma SubmitWrites(s: Db, r: Submission, tick: Time, now: Time)
    ensures SameOutside(s, Submit(s, r, now), {Jobs, NewJobs, Edges, Events})
    ensures SameOutside(s, Fire(s, r, tick, now), {Jobs, NewJobs, Events})
  {
    hide Acceptable, LiveParents, NewJob;
  }

  lemma AdmitWrites(s: Db, q: QueueId, want: int, pick: Option<nat>, c: A.Clock)
    ensures SameOutside(s, AdmitTo(s, q, want, pick, c), {Queues, Grants})
  {
    hide A.Admit;
  }

  lemma TakeWrites(s: Db, g: nat, ids: set<JobId>, w: WorkerId, lease: Time, now: Time)
    ensures SameOutside(s, Take(s, g, ids, w, lease, now), {Jobs, Leases, Queues, Grants})
  {
    hide Claimable, ClaimRow, Spend, ReleaseSlots;
  }

  lemma GrantWrites(s: Db, g: nat)
    ensures SameOutside(s, GiveBack(s, g), {Queues, Grants})
    ensures SameOutside(s, Crash(s, g), {Grants})
  {
    hide Spend, ReleaseSlots;
  }

  lemma StartWrites(s: Db, job: JobId, f: int, w: WorkerId, x: ExecId, lease: Time, now: Time)
    ensures SameOutside(s, Start(s, job, f, w, x, now), {Jobs, Execs})
    ensures SameOutside(s, Extend(s, job, f, lease, now), {Leases})
  {
  }

  lemma CompleteWrites(s: Db, job: JobId, f: int, x: ExecId, now: Time)
    ensures SameOutside(s, Complete(s, job, f, x, now), {Jobs, Execs, Leases, Queues, Stats, Events})
  {
    hide CompleteRow, Woken, CloseById, Count, OneLess, DurationOf, ReleaseSlots, EventsOf;
  }

  lemma BatchWrites(s: Db, batch: seq<Done>, now: Time)
    ensures SameOutside(s, CompleteBatch(s, batch, now), {Jobs, Execs, Leases, Queues, Stats, Events})
  {
    hide Matched, Repeat, CompleteRow, DoneParents, GroupedStats, GroupedRelease, WokenByBatch, JobsOf, ExecsOf,
        CloseThese, EventsOf;
  }

  lemma FailWrites(s: Db, job: JobId, f: Option<int>, o: Outcome, p: bool, backoff: Time, now: Time)
    ensures SameOutside(s, Fail(s, job, f, o, p, backoff, now), {Jobs, Execs, Leases, Queues, Stats, DeadRows, Events})
  {
    hide FailRow, Exhausted, KillRow, Killed, CloseOfJob, Count, DeadReason, ReleaseSlots, EventsOf;
  }

  lemma SnoozeWrites(s: Db, job: JobId, f: Option<int>, x: ExecId, delay: Time, now: Time)
    ensures SameOutside(s, Snooze(s, job, f, x, delay, now), {Jobs, Execs, Leases, Queues, Events})
  {
    hide SnoozeRow, CloseById, ReleaseSlots;
  }

  lemma CancelWrites(s: Db, job: JobId, now: Time)
    ensures SameOutside(s, Cancel(s, job, now), {Jobs, Execs, Leases, Queues, Events})
  {
    hide CloseOfJob, ReleaseSlots;
  }

  lemma RequeueWrites(s: Db, job: JobId, now: Time)
    ensures SameOutside(s, Retry(s, job, now), {Jobs, Events})
    ensures SameOutside(s, Replay(s, job, now), {Jobs, DeadRows, Events})
  {
    hide CancelledKin, ReplayRow, MarkReplayed;
  }

  lemma RequeueSetWrites(s: Db, ids: set<JobId>, spacing: map<JobId, Time>, now: Time)
    ensures SameOutside(s, Promote(s, ids, now), {Jobs, Events})
    ensures SameOutside(s, ReplayDead(s, spacing, now), {Jobs, DeadRows, Events})
  {
    hide Promotable, BulkReplayable, ReplayRow, MarkReplayed, EventsOf;
  }

  lemma SweepWrites(s: Db, job: JobId, f: int, x: ExecId, o: Outcome, ids: set<ExecId>, now: Time)
    ensures SameOutside(s, Probe(s, job, f), {Probes})
    ensures SameOutside(s, CloseExecution(s, x, o, now), {Execs})
    ensures SameOutside(s, Sweep(s, ids, now), {Execs})
  {
    hide Ended, CloseById;
  }

  lemma AdminWrites(s: Db, q: QueueId, t: A.Settings, sw: A.Switch, until: Time, now: Time)
    ensures SameOutside(s, ConfigureQueue(s, q, t, now), {Queues})
    ensures SameOutside(s, FlipBreaker(s, q, sw, until), {Queues})
    ensures SameOutside(s, Reconcile(s), {Queues, Grants})
  {
    hide A.Configure, A.Flip, Busy, SaneSettings, Reconciled, ForgetLost;
  }

  /** Every transaction leaves alone all tables it does not write. */
  lemma ApplyWrites(s: Db, op: Op, now: Time)
    ensures SameOutside(s, Apply(s, op, now), Writes(op))
  {
    hide SameOutside;
    hide Submit, Fire, AdmitTo, Take, GiveBack, Crash, Start, Extend, Complete, CompleteBatch, Fail, Snooze, Cancel;
    hide Promote, Retry, Replay, ReplayDead, Probe, CloseExecution, Sweep, ConfigureQueue, FlipBreaker, Reconcile;
    match op
    case DoSubmit(r) => SubmitWrites(s, r, 0.0, now);
    case DoFire(r, tick) => SubmitWrites(s, r, tick, now);
    case DoAdmit(q, want, pick, c) => AdmitWrites(s, q, want, pick, c);
    case DoTake(g, ids, w, lease) => TakeWrites(s, g, ids, w, lease, now);
    case DoGiveBack(g) => GrantWrites(s, g);
    case DoCrash(g) => GrantWrites(s, g);
    case DoStart(job, f, w, x) => StartWrites(s, job, f, w, x, 0.0, now);
    case DoExtend(job, f, lease) => StartWrites(s, job, f, 0, 0, lease, now);
    case DoComplete(job, f, x) => CompleteWrites(s, job, f, x, now);
    case DoCompleteBatch(b) => BatchWrites(s, b, now);
    case DoFail(job, f, o, p, backoff) => FailWrites(s, job, Some(f), o, p, backoff, now);
    case DoReap(job, backoff) => FailWrites(s, job, None, Lost, false, backoff, now);
    case DoSnooze(job, f, x, delay) => SnoozeWrites(s, job, Some(f), x, delay, now);
    case DoCancel(job) => CancelWrites(s, job, now);
    case DoPromote(ids) => RequeueSetWrites(s, ids, map[], now);
    case DoRetry(job) => RequeueWrites(s, job, now);
    case DoReplay(job) => RequeueWrites(s, job, now);
    case DoReplayDead(spacing) => RequeueSetWrites(s, {}, spacing, now);
    case DoProbe(job, f) => SweepWrites(s, job, f, 0, Lost, {}, now);
    case DoCloseExecution(x, o) => SweepWrites(s, 0, 0, x, o, {}, now);
    case DoSweep(ids) => SweepWrites(s, 0, 0, 0, Lost, ids, now);
    case DoConfigure(q, t) => AdminWrites(s, q, t, A.Trip, now, now);
    case DoFlip(q, sw, until) => AdminWrites(s, q, A.Settings(false, 1, 0.0, 0.0, 1), sw, until, now);
    case DoReconcile => AdminWrites(s, 0, A.Settings(false, 1, 0.0, 0.0, 1), A.Trip, now, now);
  }
}
