/** The scheduler as a state machine: any client may issue any transaction at any moment, so a
    run is an arbitrary sequence of them. */
module Protocol {
  import opened Schema
  import opened Transactions
  import A = Admission

  datatype Op =
    | DoSubmit(r: Submission)
    | DoFire(r: Submission, tick: Time)
    | DoAdmit(queue: QueueId, want: int, pick: Option<nat>, clock: A.Clock)
    | DoTake(grant: nat, ids: set<JobId>, worker: WorkerId, lease: Time)
    | DoGiveBack(grant: nat)
    | DoCrash(grant: nat)
    | DoStart(job: JobId, fence: int, worker: WorkerId, exec: ExecId)
    | DoExtend(job: JobId, fence: int, lease: Time)
    | DoComplete(job: JobId, fence: int, exec: ExecId)
    | DoCompleteBatch(batch: seq<Done>)
    | DoFail(job: JobId, fence: int, outcome: Outcome, permanent: bool, backoff: Time)
    | DoReap(job: JobId, backoff: Time)
    | DoSnooze(job: JobId, fence: int, exec: ExecId, delay: Time)
    | DoCancel(job: JobId)
    | DoPromote(ids: set<JobId>)
    | DoRetry(job: JobId)
    | DoReplay(job: JobId)
    | DoReplayDead(spacing: map<JobId, Time>)
    | DoProbe(job: JobId, fence: int)
    | DoCloseExecution(exec: ExecId, outcome: Outcome)
    | DoSweep(ids: set<ExecId>)
    | DoConfigure(queue: QueueId, settings: A.Settings)
    | DoFlip(queue: QueueId, switch: A.Switch, until: Time)
    | DoReconcile

  function Apply(s: Db, op: Op, now: Time): Db {
    match op
    case DoSubmit(r) => Submit(s, r, now)
    case DoFire(r, tick) => Fire(s, r, tick, now)
    case DoAdmit(q, want, pick, c) => AdmitTo(s, q, want, pick, c)
    case DoTake(g, ids, w, lease) => Take(s, g, ids, w, lease, now)
    case DoGiveBack(g) => GiveBack(s, g)
    case DoCrash(g) => Crash(s, g)
    case DoStart(job, f, w, x) => Start(s, job, f, w, x, now)
    case DoExtend(job, f, lease) => Extend(s, job, f, lease, now)
    case DoComplete(job, f, x) => Complete(s, job, f, x, now)
    case DoCompleteBatch(b) => CompleteBatch(s, b, now)
    case DoFail(job, f, o, p, backoff) => Fail(s, job, Some(f), o, p, backoff, now)
    case DoReap(job, backoff) => Fail(s, job, None, Lost, false, backoff, now)
    case DoSnooze(job, f, x, delay) => Snooze(s, job, Some(f), x, delay, now)
    case DoCancel(job) => Cancel(s, job, now)
    case DoPromote(ids) => Promote(s, ids, now)
    case DoRetry(job) => Retry(s, job, now)
    case DoReplay(job) => Replay(s, job, now)
    case DoReplayDead(spacing) => ReplayDead(s, spacing, now)
    case DoProbe(job, f) => Probe(s, job, f)
    case DoCloseExecution(x, o) => CloseExecution(s, x, o, now)
    case DoSweep(ids) => Sweep(s, ids, now)
    case DoConfigure(q, t) => ConfigureQueue(s, q, t, now)
    case DoFlip(q, sw, until) => FlipBreaker(s, q, sw, until)
    case DoReconcile => Reconcile(s)
  }

  datatype Act = Act(op: Op, now: Time)

  function Step(s: Db, a: Act): Db {
    Apply(s, a.op, a.now).(clock := a.now)
  }

  /** Clock readings never go back. */
  predicate OnTime(s: Db, a: Act) {
    && s.clock <= a.now
    && (a.op.DoAdmit? ==> A.Orderly(a.op.clock) && s.clock <= a.op.clock.breaker && a.op.clock.refill <= a.now)
  }

  /** ss are the states a run passes through, as the transactions it commits. */
  predicate IsRun(ss: seq<Db>, acts: seq<Act>) {
    && |ss| == |acts| + 1
    && forall i :: 0 <= i < |acts| ==> OnTime(ss[i], acts[i]) && ss[i + 1] == Step(ss[i], acts[i])
  }

  /** Nothing has been submitted yet; queues exist, with no slot out. */
  predicate Fresh(s: Db) {
    && s.jobs == map[] && s.execs == map[] && s.leases == map[] && s.edges == {} && s.grants == [] && s.fenced == {}
    && forall q :: q in s.queues ==> FreshQueue(s.queues[q])
  }

  predicate FreshQueue(q: A.Queue) {
    && |q.shards| > 0 && q.maxConcurrency > 0
    && A.TokensOk(q) && A.BreakerOk(q)
    && forall i :: 0 <= i < |q.shards| ==> q.shards[i].inFlight == 0
  }
}
