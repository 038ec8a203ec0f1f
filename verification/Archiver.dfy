/** Moving finished jobs, with everything that hangs on them, from the hot tables to the archive,
    and the idempotency keys that must not outlive their job's stay in the hot table. */
module Archiver {
  import opened Schema
  import opened Transactions
  import opened Protocol
  import opened Frames
  import opened Rows
  import Graph
  import L = Ledger
  import Deps = Dependencies
  import Query

  type LogId = nat
  type KeyId = nat

  datatype Log = Log(exec: ExecId, ts: Time)

  datatype Cold = Cold(jobs: map<JobId, Job>, execs: map<ExecId, Exec>, logs: map<LogId, Log>,
    dead: map<JobId, DeadRow>)

  datatype IdemKey = IdemKey(job: JobId, createdAt: Time, expiresAt: Time)

  const Day: Time := 86400.0

  datatype Vault = Vault(db: Db, logs: map<LogId, Log>, cold: Cold, keys: map<KeyId, IdemKey>)

  // ---------------------------------------------------------------- one archive transaction

  /** pickSQL */
  predicate Archivable(s: Db, j: JobId, after: Time, deadAfter: Time, now: Time) {
    && j in s.jobs && Terminal(s.jobs[j].status)
    && s.jobs[j].finishedAt.Some? && s.jobs[j].finishedAt.value < now - after
    && (s.jobs[j].status.DeadLetter? ==> s.jobs[j].finishedAt.value < now - deadAfter)
    && (forall x :: x in s.execs && s.execs[x].job == j ==> !IsOpen(s.execs[x]))
  }

  function ExecsOfJobs(execs: map<ExecId, Exec>, ids: set<JobId>): set<ExecId> {
    set x | x in execs && execs[x].job in ids
  }

  function LogsOfJobs(logs: map<LogId, Log>, execs: map<ExecId, Exec>, ids: set<JobId>): set<LogId> {
    set l | l in logs && logs[l].exec in execs && execs[logs[l].exec].job in ids
  }

  /** The rows a delete takes out, as it returns them. */
  function Taken<K, V>(m: map<K, V>, ks: set<K>): map<K, V> { map k | k in m && k in ks :: m[k] }

  function MoveLogs(v: Vault, ids: set<JobId>): Vault {
    var ls := LogsOfJobs(v.logs, v.db.execs, ids);
    v.(logs := v.logs - ls, cold := v.cold.(logs := v.cold.logs + Taken(v.logs, ls)))
  }

  function MoveExecs(v: Vault, ids: set<JobId>): Vault {
    var xs := ExecsOfJobs(v.db.execs, ids);
    v.(db := v.db.(execs := v.db.execs - xs), cold := v.cold.(execs := v.cold.execs + Taken(v.db.execs, xs)))
  }

  function MoveDead(v: Vault, ids: set<JobId>): Vault {
    v.(db := v.db.(dead := v.db.dead - ids), cold := v.cold.(dead := v.cold.dead + Taken(v.db.dead, ids)))
  }

  /** Deleting a job takes its dependency edges and its lease with it. */
  function MoveJobs(v: Vault, ids: set<JobId>): Vault {
    v.(db := v.db.(jobs := v.db.jobs - ids, leases := v.db.leases - ids,
                   edges := set e | e in v.db.edges && e.0 !in ids && e.1 !in ids),
       cold := v.cold.(jobs := v.cold.jobs + Taken(v.db.jobs, ids)))
  }

  function MoveAll(v: Vault, ids: set<JobId>): Vault {
    MoveJobs(MoveDead(MoveExecs(MoveLogs(v, ids), ids), ids), ids)
  }

  /** Archive, on whichever of the old jobs the query managed to lock. */
  function Archive(v: Vault, ids: set<JobId>, after: Time, deadAfter: Time, now: Time): Vault {
    if ids == {} || exists j :: j in ids && !Archivable(v.db, j, after, deadAfter, now) then v else MoveAll(v, ids)
  }

  // ---------------------------------------------------------------- conservation

  predicate Apart<K, V>(hot: map<K, V>, cold: map<K, V>) { hot.Keys !! cold.Keys }

  /** Hot and cold together. */
  predicate SameTotal<K, V(==)>(hot: map<K, V>, cold: map<K, V>, hot': map<K, V>, cold': map<K, V>) {
    hot + cold == hot' + cold' && Apart(hot', cold')
  }

  predicate AllApart(v: Vault) {
    Apart(v.db.jobs, v.cold.jobs) && Apart(v.db.execs, v.cold.execs) && Apart(v.logs, v.cold.logs)
      && Apart(v.db.dead, v.cold.dead)
  }

  /** Every row hangs on a row of the same side: no log without its execution, no execution or
      dead letter without its job. */
  predicate NoOrphan(v: Vault) {
    && (forall l :: l in v.logs ==> v.logs[l].exec in v.db.execs)
    && (forall x :: x in v.db.execs ==> v.db.execs[x].job in v.db.jobs)
    && (forall j :: j in v.db.dead ==> j in v.db.jobs)
    && (forall l :: l in v.cold.logs ==> v.cold.logs[l].exec in v.cold.execs)
    && (forall x :: x in v.cold.execs ==> v.cold.execs[x].job in v.cold.jobs)
    && (forall j :: j in v.cold.dead ==> j in v.cold.jobs)
  }

  lemma TakenConserves<K, V>(hot: map<K, V>, cold: map<K, V>, ks: set<K>)
    requires Apart(hot, cold)
    ensures SameTotal(hot, cold, hot - ks, cold + Taken(hot, ks))
  {
  }

  /** The four moves, table by table. */
  lemma MoveParts(v: Vault, ids: set<JobId>)
    ensures var t, xs, ls := MoveAll(v, ids), ExecsOfJobs(v.db.execs, ids), LogsOfJobs(v.logs, v.db.execs, ids);
            && t.db.jobs == v.db.jobs - ids && t.cold.jobs == v.cold.jobs + Taken(v.db.jobs, ids)
            && t.db.execs == v.db.execs - xs && t.cold.execs == v.cold.execs + Taken(v.db.execs, xs)
            && t.logs == v.logs - ls && t.cold.logs == v.cold.logs + Taken(v.logs, ls)
            && t.db.dead == v.db.dead - ids && t.cold.dead == v.cold.dead + Taken(v.db.dead, ids)
            && t.keys == v.keys && t.db.clock == v.db.clock
  {
    hide ExecsOfJobs, LogsOfJobs, Taken;
  }

  predicate SameTables(v: Vault, t: Vault) {
    && SameTotal(v.db.jobs, v.cold.jobs, t.db.jobs, t.cold.jobs)
    && SameTotal(v.db.execs, v.cold.execs, t.db.execs, t.cold.execs)
    && SameTotal(v.logs, v.cold.logs, t.logs, t.cold.logs)
    && SameTotal(v.db.dead, v.cold.dead, t.db.dead, t.cold.dead)
  }

  lemma SameToBegin(v: Vault)
    requires AllApart(v)
    ensures SameTables(v, v)
  {
  }

  lemma MovedConserves(v: Vault, ids: set<JobId>)
    requires AllApart(v) && NoOrphan(v)
    ensures SameTables(v, MoveAll(v, ids)) && AllApart(MoveAll(v, ids)) && NoOrphan(MoveAll(v, ids))
  {
    hide NoOrphan, MoveAll, Taken, ExecsOfJobs, LogsOfJobs;
    MoveParts(v, ids);
    TakenConserves(v.db.jobs, v.cold.jobs, ids);
    TakenConserves(v.db.execs, v.cold.execs, ExecsOfJobs(v.db.execs, ids));
    TakenConserves(v.logs, v.cold.logs, LogsOfJobs(v.logs, v.db.execs, ids));
    TakenConserves(v.db.dead, v.cold.dead, ids);
    hide SameTotal;
    MovedOrphans(v, MoveAll(v, ids), ids);
    ApartAfter(v, MoveAll(v, ids));
  }

  lemma ApartAfter(v: Vault, t: Vault)
    requires SameTables(v, t)
    ensures AllApart(t)
  {
  }

  /** Archiving moves rows and loses none: each pair of tables holds together what it held before,
      no row is on both sides, and nothing is left behind without what it hangs on. */
  lemma ArchiveConserves(v: Vault, ids: set<JobId>, after: Time, deadAfter: Time, now: Time)
    requires AllApart(v) && NoOrphan(v)
    ensures var t := Archive(v, ids, after, deadAfter, now);
            SameTables(v, t) && AllApart(t) && NoOrphan(t)
  {
    hide AllApart, NoOrphan, MoveAll, Archivable, SameTables;
    MovedConserves(v, ids);
    SameToBegin(v);
  }

  lemma MovedOrphans(v: Vault, t: Vault, ids: set<JobId>)
    requires NoOrphan(v)
    requires var xs, ls := ExecsOfJobs(v.db.execs, ids), LogsOfJobs(v.logs, v.db.execs, ids);
            && t.db.jobs == v.db.jobs - ids && t.cold.jobs == v.cold.jobs + Taken(v.db.jobs, ids)
            && t.db.execs == v.db.execs - xs && t.cold.execs == v.cold.execs + Taken(v.db.execs, xs)
            && t.logs == v.logs - ls && t.cold.logs == v.cold.logs + Taken(v.logs, ls)
            && t.db.dead == v.db.dead - ids && t.cold.dead == v.cold.dead + Taken(v.db.dead, ids)
    ensures NoOrphan(t)
  {
  }

  /** A job that is archived was finished, and none of its executions was open. */
  lemma ArchiveTakesFinished(v: Vault, ids: set<JobId>, after: Time, deadAfter: Time, now: Time, j: JobId)
    requires j in v.db.jobs && j !in Archive(v, ids, after, deadAfter, now).db.jobs
    ensures Archivable(v.db, j, after, deadAfter, now)
    ensures forall x :: x in v.db.execs && v.db.execs[x].job == j ==> v.db.execs[x].closed.Some?
  {
    MoveParts(v, ids);
    hide MoveAll;
    assert j in ids && !exists k :: k in ids && !Archivable(v.db, k, after, deadAfter, now);
  }

  // ---------------------------------------------------------------- finishing times

  /** A transaction at `now` leaves a finishing time alone, clears it, or sets it to now. */
  predicate Stamped(o: Job, n: Job, now: Time) {
    n.finishedAt == o.finishedAt || n.finishedAt.None? || n.finishedAt == Some(now)
  }

  predicate AllStamped(s: Db, t: Db, now: Time) {
    && (forall j :: j in s.jobs ==> j in t.jobs && Stamped(s.jobs[j], t.jobs[j], now))
    && (forall j :: j in t.jobs && j !in s.jobs ==> t.jobs[j].finishedAt.None?)
  }

  lemma BatchStamps(s: Db, batch: seq<Done>, now: Time)
    ensures AllStamped(s, CompleteBatch(s, batch, now), now)
  {
    var m, t := Matched(s, batch), CompleteBatch(s, batch, now);
    assert m != [] ==> t.jobs == AfterDone(s, JobsOf(m), now) by {
      hide AfterDone, GroupedRelease, GroupedStats, EventsOf, CloseThese, WokenByBatch;
    }
    hide CompleteBatch, Matched, JobsOf;
    if m != [] {
      forall j | j in s.jobs ensures j in t.jobs && Stamped(s.jobs[j], t.jobs[j], now) {
        RepeatIs(s.jobs[j], |DoneParents(s.edges, JobsOf(m), j)|, now);
      }
    } else {
      assert t == s by { Deps.BatchNothing(s, batch, now); }
    }
  }

  lemma OneStamped(s: Db, t: Db, job: JobId, now: Time)
    requires t.jobs == s.jobs
        || (job in s.jobs && job in t.jobs && t.jobs == s.jobs[job := t.jobs[job]]
        && Stamped(s.jobs[job], t.jobs[job], now))
    ensures AllStamped(s, t, now)
  {
  }

  lemma CompleteStamps(s: Db, job: JobId, f: int, x: ExecId, now: Time)
    ensures AllStamped(s, Complete(s, job, f, x, now), now)
  {
    hide CloseById, Woken, EventsOf, ReleaseSlots, Count, DurationOf;
  }

  lemma StopStamps(s: Db, job: JobId, f: Option<int>, x: ExecId, d: Time, now: Time)
    ensures AllStamped(s, Snooze(s, job, f, x, d, now), now)
    ensures AllStamped(s, Cancel(s, job, now), now)
  {
    hide CloseById, CloseOfJob, ReleaseSlots, AllStamped;
    OneStamped(s, Snooze(s, job, f, x, d, now), job, now);
    OneStamped(s, Cancel(s, job, now), job, now);
  }

  lemma FailStamps(s: Db, job: JobId, f: Option<int>, o: Outcome, p: bool, d: Time, now: Time)
    ensures AllStamped(s, Fail(s, job, f, o, p, d, now), now)
  {
    hide CloseOfJob, EventsOf, ReleaseSlots, Count, DeadReason, Killed, Exhausted;
  }

  lemma RequeueStamps(s: Db, job: JobId, now: Time)
    ensures AllStamped(s, Retry(s, job, now), now)
    ensures AllStamped(s, Replay(s, job, now), now)
  {
    hide CancelledKin, MarkReplayed, AllStamped;
    OneStamped(s, Retry(s, job, now), job, now);
    OneStamped(s, Replay(s, job, now), job, now);
  }

  lemma PromoteStamps(s: Db, ids: set<JobId>, now: Time)
    ensures AllStamped(s, Promote(s, ids, now), now)
  {
    hide EventsOf, Promotable;
  }

  lemma ReplayDeadStamps(s: Db, spacing: map<JobId, Time>, now: Time)
    ensures AllStamped(s, ReplayDead(s, spacing, now), now)
  {
    hide EventsOf, MarkReplayed, BulkReplayable;
  }

  lemma TakeStamps(s: Db, g: nat, ids: set<JobId>, w: WorkerId, lease: Time, now: Time)
    ensures AllStamped(s, Take(s, g, ids, w, lease, now), now)
  {
    hide Claimable, ReleaseSlots, Spend;
  }

  lemma StartStamps(s: Db, job: JobId, f: int, w: WorkerId, x: ExecId, now: Time)
    ensures AllStamped(s, Start(s, job, f, w, x, now), now)
  {
    hide AllStamped;
    OneStamped(s, Start(s, job, f, w, x, now), job, now);
  }

  lemma SubmitStamps(s: Db, r: Submission, tick: Time, now: Time)
    ensures AllStamped(s, Submit(s, r, now), now)
    ensures AllStamped(s, Fire(s, r, tick, now), now)
  {
    hide LiveParents;
  }

  lemma ApplyStamps(s: Db, op: Op, now: Time)
    ensures AllStamped(s, Apply(s, op, now), now)
  {
    hide AllStamped;
    hide Submit, Fire, AdmitTo, Take, GiveBack, Crash, Start, Extend, Complete, CompleteBatch, Fail, Snooze, Cancel;
    hide Promote, Retry, Replay, ReplayDead, Probe, CloseExecution, Sweep, ConfigureQueue, FlipBreaker, Reconcile;
    match op
    case DoSubmit(r) => SubmitStamps(s, r, now, now);
    case DoFire(r, tick) => SubmitStamps(s, r, tick, now);
    case DoTake(g, ids, w, lease) => TakeStamps(s, g, ids, w, lease, now);
    case DoStart(job, f, w, x) => StartStamps(s, job, f, w, x, now);
    case DoComplete(job, f, x) => CompleteStamps(s, job, f, x, now);
    case DoCompleteBatch(b) => BatchStamps(s, b, now);
    case DoFail(job, f, o, p, d) => FailStamps(s, job, Some(f), o, p, d, now);
    case DoReap(job, d) => FailStamps(s, job, None, Lost, false, d, now);
    case DoSnooze(job, f, x, d) => StopStamps(s, job, Some(f), x, d, now);
    case DoCancel(job) => StopStamps(s, job, None, 0, now, now);
    case DoPromote(ids) => PromoteStamps(s, ids, now);
    case DoRetry(job) => RequeueStamps(s, job, now);
    case DoReplay(job) => RequeueStamps(s, job, now);
    case DoReplayDead(spacing) => ReplayDeadStamps(s, spacing, now);
    case _ => ApplyWrites(s, op, now); NothingStamped(s, Apply(s, op, now), now);
  }

  lemma NothingStamped(s: Db, t: Db, now: Time)
    requires t.jobs == s.jobs
    ensures AllStamped(s, t, now)
  {
  }

  // ---------------------------------------------------------------- keys over whole runs

  datatype Move =
    | Work(act: Act)
    | SubmitKeyed(key: KeyId, r: Submission, now: Time)
    | Shift(ids: set<JobId>, after: Time, deadAfter: Time, now: Time)
    | AppendLog(log: LogId, exec: ExecId, now: Time)
    | Prune(now: Time)

  function At(m: Move): Time { if m.Work? then m.act.now else m.now }

  function Tick(v: Vault, now: Time): Vault { v.(db := v.db.(clock := now)) }

  function Next(v: Vault, m: Move): Vault {
    match m
    case Work(a) => v.(db := Step(v.db, a))
    case SubmitKeyed(k, r, now) =>
      if !Acceptable(v.db, r) || (k in v.keys && v.keys[k].expiresAt > now) then v
      else Tick(v, now).(db := Submit(v.db, r, now).(clock := now), keys := v.keys[k := IdemKey(r.id, now, now + Day)])
    case Shift(ids, after, deadAfter, now) => Tick(Archive(v, ids, after, deadAfter, now), now)
    case AppendLog(l, x, now) => Tick(v.(logs := v.logs[l := Log(x, now)]), now)
    case Prune(now) => Tick(v.(keys := map k | k in v.keys && v.keys[k].expiresAt >= now :: v.keys[k]), now)
  }

  /** A keyed submission is taken if it is fine by itself and no unexpired row has its key; its own row
      then lives for a day.  Pruning drops exactly the rows that have run out. */
  lemma KeysAre(v: Vault, k: KeyId, r: Submission, now: Time)
    ensures var t := Next(v, SubmitKeyed(k, r, now));
            var taken := Acceptable(v.db, r) && (k in v.keys ==> v.keys[k].expiresAt <= now);
            && (!taken ==> t == v)
            && (taken ==> r.id in t.db.jobs && t.keys == v.keys[k := IdemKey(r.id, now, now + 24.0 * 3600.0)])
    ensures var t := Next(v, Prune(now));
            && t.db.jobs == v.db.jobs && (forall i :: i in t.keys <==> i in v.keys && v.keys[i].expiresAt >= now)
            && forall i :: i in t.keys ==> t.keys[i] == v.keys[i]
  {
    hide Acceptable, LiveParents, NewJob;
  }

  /** The clock is monotone, ids are not used twice, and an execution is logged to while it is hot. */
  predicate Proper(v: Vault, m: Move) {
    && v.db.clock <= At(m)
    && (m.Work? ==> OnTime(v.db, m.act) && NewIds(v, m.act.op))
    && (m.SubmitKeyed? ==> m.r.id !in v.cold.jobs)
    && (m.AppendLog? ==> m.log !in v.logs && m.log !in v.cold.logs && m.exec in v.db.execs)
  }

  predicate NewIds(v: Vault, op: Op) {
    && (op.DoSubmit? || op.DoFire? ==> op.r.id !in v.cold.jobs)
    && (op.DoStart? ==> op.exec !in v.cold.execs)
  }

  /** The archiver waits at least as long as a key lives. */
  predicate Patient(ms: seq<Move>) {
    forall i :: 0 <= i < |ms| && ms[i].Shift? ==> ms[i].after >= Day
  }

  predicate IsVaultRun(vs: seq<Vault>, ms: seq<Move>) {
    |vs| == |ms| + 1 && forall i :: 0 <= i < |ms| ==> Proper(vs[i], ms[i]) && vs[i + 1] == Next(vs[i], ms[i])
  }

  predicate KeyOk(v: Vault, k: IdemKey) {
    && k.expiresAt == k.createdAt + Day && k.createdAt <= v.db.clock
    && (k.job !in v.db.jobs ==> k.expiresAt <= v.db.clock)
    && (k.job in v.db.jobs && v.db.jobs[k.job].finishedAt.Some? ==> k.createdAt <= v.db.jobs[k.job].finishedAt.value)
  }

  predicate KeysOk(v: Vault) { forall k :: k in v.keys ==> KeyOk(v, v.keys[k]) }

  lemma StampsKeepKeys(v: Vault, t: Vault, now: Time)
    requires KeysOk(v) && v.db.clock <= now && t.db.clock == now
    requires AllStamped(v.db, t.db, now) && t.keys == v.keys
    ensures KeysOk(t)
  {
    forall k | k in t.keys ensures KeyOk(t, t.keys[k]) {
      assert KeyOk(v, v.keys[k]);
    }
  }

  lemma ShiftKeepsKeys(v: Vault, ids: set<JobId>, after: Time, deadAfter: Time, now: Time)
    requires KeysOk(v) && v.db.clock <= now && after >= Day
    ensures KeysOk(Next(v, Shift(ids, after, deadAfter, now)))
  {
    var t := Next(v, Shift(ids, after, deadAfter, now));
    MoveParts(v, ids);
    hide MoveAll, ExecsOfJobs, LogsOfJobs, Taken;
    forall k | k in t.keys ensures KeyOk(t, t.keys[k]) {
      var key := v.keys[k];
      assert KeyOk(v, key);
      if key.job in v.db.jobs && key.job !in t.db.jobs {
        hide Archive, Archivable;
        ArchiveTakesFinished(v, ids, after, deadAfter, now, key.job);
        ArchivedIsOld(v.db, key.job, after, deadAfter, now);
      }
    }
  }

  lemma ArchivedIsOld(s: Db, j: JobId, after: Time, deadAfter: Time, now: Time)
    requires Archivable(s, j, after, deadAfter, now)
    ensures j in s.jobs && s.jobs[j].finishedAt.Some? && s.jobs[j].finishedAt.value + after < now
  {
  }

  lemma KeyedKeepsKeys(v: Vault, k: KeyId, r: Submission, now: Time)
    requires KeysOk(v) && v.db.clock <= now
    ensures KeysOk(Next(v, SubmitKeyed(k, r, now)))
  {
    var t := Next(v, SubmitKeyed(k, r, now));
    hide LiveParents;
    forall i | i in t.keys ensures KeyOk(t, t.keys[i]) {
      if i in v.keys { assert KeyOk(v, v.keys[i]); }
    }
  }

  lemma WorkKeepsKeys(v: Vault, a: Act)
    requires KeysOk(v) && v.db.clock <= a.now
    ensures KeysOk(Next(v, Work(a)))
  {
    ApplyStamps(v.db, a.op, a.now);
    hide Apply, KeysOk;
    StampsKeepKeys(v, Next(v, Work(a)), a.now);
  }

  lemma PruneKeepsKeys(v: Vault, now: Time)
    requires KeysOk(v) && v.db.clock <= now
    ensures KeysOk(Next(v, Prune(now)))
  {
  }

  lemma LogKeepsKeys(v: Vault, l: LogId, x: ExecId, now: Time)
    requires KeysOk(v) && v.db.clock <= now
    ensures KeysOk(Next(v, AppendLog(l, x, now)))
  {
  }

  lemma MoveKeepsKeys(v: Vault, m: Move)
    requires KeysOk(v) && Proper(v, m) && (m.Shift? ==> m.after >= Day)
    ensures KeysOk(Next(v, m))
  {
    hide Next, KeysOk, OnTime, NewIds;
    match m
    case Work(a) => WorkKeepsKeys(v, a);
    case SubmitKeyed(k, r, now) => KeyedKeepsKeys(v, k, r, now);
    case Shift(ids, after, deadAfter, now) => ShiftKeepsKeys(v, ids, after, deadAfter, now);
    case AppendLog(l, x, now) => LogKeepsKeys(v, l, x, now);
    case Prune(now) => PruneKeepsKeys(v, now);
  }

  lemma {:induction false} RunKeepsKeys(vs: seq<Vault>, ms: seq<Move>, i: nat)
    requires IsVaultRun(vs, ms) && Patient(ms) && vs[0].keys == map[] && i < |vs|
    ensures KeysOk(vs[i])
  {
    if i > 0 {
      hide KeysOk, Next, Proper;
      RunKeepsKeys(vs, ms, i - 1);
      MoveKeepsKeys(vs[i - 1], ms[i - 1]);
    }
  }

  /** Through any interleaving of the whole protocol with the archiver, an idempotency key that
      has not expired points at a job still in the hot table, as long as the archiver waits for
      at least the 24 hours a key lives. */
  lemma LiveKeyPointsAtHotJob(vs: seq<Vault>, ms: seq<Move>, i: nat, k: KeyId)
    requires IsVaultRun(vs, ms) && Patient(ms) && vs[0].keys == map[] && i < |vs| && k in vs[i].keys
    ensures vs[i].db.clock < vs[i].keys[k].expiresAt ==> vs[i].keys[k].job in vs[i].db.jobs
  {
    RunKeepsKeys(vs, ms, i);
    hide IsVaultRun;
    assert KeyOk(vs[i], vs[i].keys[k]);
  }

  // ---------------------------------------------------------------- tables over whole runs

  predicate TablesOk(v: Vault) { AllApart(v) && NoOrphan(v) }

  /** How the hot tables may grow in one transaction. */
  predicate Grows(v: Vault, t: Db) {
    && (forall j :: j in v.db.jobs ==> j in t.jobs)
    && (forall j :: j in t.jobs && j !in v.db.jobs ==> j !in v.cold.jobs)
    && (forall x :: x in v.db.execs ==> x in t.execs && t.execs[x].job == v.db.execs[x].job)
    && (forall x :: x in t.execs && x !in v.db.execs ==> x !in v.cold.execs && t.execs[x].job in v.db.jobs)
    && (forall j :: j in v.db.dead ==> j in t.dead) && (forall j :: j in t.dead && j !in v.db.dead ==> j in v.db.jobs)
  }

  lemma GrowingKeepsTables(v: Vault, t: Vault)
    requires TablesOk(v) && Grows(v, t.db) && t.cold == v.cold && t.logs == v.logs
    ensures TablesOk(t)
  {
  }

  lemma JobsGrow(v: Vault, op: Op, now: Time)
    requires NewIds(v, op)
    ensures forall j :: j in v.db.jobs ==> j in Apply(v.db, op, now).jobs
    ensures forall j :: j in Apply(v.db, op, now).jobs && j !in v.db.jobs ==> j !in v.cold.jobs
  {
    if op.DoSubmit? || op.DoFire? {
      hide LiveParents, NewJob, Acceptable;
    } else {
      assert NewJobs !in Writes(op);
      hide Apply, Writes;
      ApplyWrites(v.db, op, now);
    }
  }

  lemma ExecsGrow(v: Vault, op: Op, now: Time)
    requires NewIds(v, op)
    ensures var t := Apply(v.db, op, now);
            && (forall x :: x in v.db.execs ==> x in t.execs && t.execs[x].job == v.db.execs[x].job)
            && (forall x :: x in t.execs && x !in v.db.execs ==> x !in v.cold.execs && t.execs[x].job in v.db.jobs)
  {
    if op.DoStart? {
    } else {
      hide Apply;
      L.OutcomesWrittenOnce(v.db, op, now);
    }
  }

  lemma FailDead(s: Db, job: JobId, f: Option<int>, o: Outcome, p: bool, d: Time, now: Time)
    ensures var t := Fail(s, job, f, o, p, d, now);
            (forall j :: j in s.dead ==> j in t.dead) && (forall j :: j in t.dead && j !in s.dead ==> j in s.jobs)
  {
    hide CancelDescendants, Killed, EventsOf, ReleaseSlots, Count, CloseOfJob, FailRow, Exhausted, DeadReason;
  }

  lemma ReplayKeepsDead(s: Db, job: JobId, spacing: map<JobId, Time>, now: Time)
    ensures Replay(s, job, now).dead.Keys == s.dead.Keys && ReplayDead(s, spacing, now).dead.Keys == s.dead.Keys
  {
    hide CancelledKin, ReplayRow, EventsOf, BulkReplayable;
  }

  lemma DeadGrow(s: Db, op: Op, now: Time)
    ensures var t := Apply(s, op, now);
            (forall j :: j in s.dead ==> j in t.dead) && (forall j :: j in t.dead && j !in s.dead ==> j in s.jobs)
  {
    if DeadRows !in Writes(op) {
      hide Apply, Writes;
      ApplyWrites(s, op, now);
    } else {
      hide Fail, Replay, ReplayDead;
      match op
      case DoFail(job, f, o, p, d) => FailDead(s, job, Some(f), o, p, d, now);
      case DoReap(job, d) => FailDead(s, job, None, Lost, false, d, now);
      case DoReplay(job) => ReplayKeepsDead(s, job, map[], now);
      case DoReplayDead(spacing) => ReplayKeepsDead(s, 0, spacing, now);
    }
  }

  lemma WorkKeepsTables(v: Vault, a: Act)
    requires TablesOk(v) && NewIds(v, a.op)
    ensures TablesOk(Next(v, Work(a)))
  {
    hide Apply, TablesOk, NewIds;
    JobsGrow(v, a.op, a.now);
    ExecsGrow(v, a.op, a.now);
    DeadGrow(v.db, a.op, a.now);
    GrowingKeepsTables(v, Next(v, Work(a)));
  }

  lemma KeyedKeepsTables(v: Vault, k: KeyId, r: Submission, now: Time)
    requires TablesOk(v) && r.id !in v.cold.jobs
    ensures TablesOk(Next(v, SubmitKeyed(k, r, now)))
  {
    hide TablesOk, LiveParents, NewJob, Acceptable;
    var t := Next(v, SubmitKeyed(k, r, now));
    assert Grows(v, t.db);
    GrowingKeepsTables(v, t);
  }

  lemma ShiftKeepsTables(v: Vault, ids: set<JobId>, after: Time, deadAfter: Time, now: Time)
    requires TablesOk(v)
    ensures TablesOk(Next(v, Shift(ids, after, deadAfter, now)))
  {
    hide Archive, AllApart, NoOrphan;
    ArchiveConserves(v, ids, after, deadAfter, now);
    TickKeepsTables(Archive(v, ids, after, deadAfter, now), now);
  }

  lemma TickKeepsTables(v: Vault, now: Time)
    requires AllApart(v) && NoOrphan(v)
    ensures AllApart(Tick(v, now)) && NoOrphan(Tick(v, now))
  {
  }

  lemma LogKeepsTables(v: Vault, l: LogId, x: ExecId, now: Time)
    requires TablesOk(v) && l !in v.cold.logs && x in v.db.execs
    ensures TablesOk(Next(v, AppendLog(l, x, now)))
  {
  }

  lemma PruneKeepsTables(v: Vault, now: Time)
    requires TablesOk(v)
    ensures TablesOk(Next(v, Prune(now)))
  {
  }

  lemma MoveKeepsTables(v: Vault, m: Move)
    requires TablesOk(v) && Proper(v, m)
    ensures TablesOk(Next(v, m))
  {
    hide Next, TablesOk, OnTime, NewIds;
    match m
    case Work(a) => WorkKeepsTables(v, a);
    case SubmitKeyed(k, r, now) => KeyedKeepsTables(v, k, r, now);
    case Shift(ids, after, deadAfter, now) => ShiftKeepsTables(v, ids, after, deadAfter, now);
    case AppendLog(l, x, now) => LogKeepsTables(v, l, x, now);
    case Prune(now) => PruneKeepsTables(v, now);
  }

  predicate EmptyVault(v: Vault) {
    v.db.jobs == map[] && v.db.execs == map[] && v.db.dead == map[] && v.logs == map[]
      && v.cold == Cold(map[], map[], map[], map[])
  }

  lemma EmptyIsOk(v: Vault)
    requires EmptyVault(v)
    ensures TablesOk(v)
  {
  }

  /** Through any interleaving of the whole protocol with the archiver, no row is ever in both
      tables of a pair, and every log, execution and dead letter is on the side of the row it
      hangs on. */
  lemma {:induction false} RunKeepsTables(vs: seq<Vault>, ms: seq<Move>, i: nat)
    requires IsVaultRun(vs, ms) && EmptyVault(vs[0]) && i < |vs|
    ensures TablesOk(vs[i])
  {
    hide TablesOk, Next, Proper;
    if i == 0 {
      EmptyIsOk(vs[0]);
    } else {
      RunKeepsTables(vs, ms, i - 1);
      MoveKeepsTables(vs[i - 1], ms[i - 1]);
    }
  }

  // ---------------------------------------------------------------- the replay guard after archiving

  /** The dependency table that archiving these jobs leaves behind. */
  function EdgesOutside(edges: set<(JobId, JobId)>, ids: set<JobId>): set<(JobId, JobId)> {
    set e | e in edges && e.0 !in ids && e.1 !in ids
  }

  /** After jobs have been archived, the guard on replaying a dead letter still refuses if and only
      if some cancelled descendant is left that is reached past none of the archived jobs. */
  lemma GuardAfterArchivingIff(v: Vault, ids: set<JobId>, job: JobId)
    requires job in v.db.jobs && job !in ids && v.db.jobs[job].status.DeadLetter?
    ensures CancelledKin(MoveAll(v, ids).db, job) != {} <==>
              exists c :: c in v.db.jobs && c !in ids && v.db.jobs[c].status.Cancelled?
                && Graph.Reaches(EdgesOutside(v.db.edges, ids), job, c)
  {
    var t := MoveAll(v, ids).db;
    MoveParts(v, ids);
    assert t.edges == EdgesOutside(v.db.edges, ids);
    hide MoveAll;
    forall c ensures c in CancelledKin(t, job) <==>
        c in v.db.jobs && c !in ids && v.db.jobs[c].status.Cancelled?
          && Graph.Reaches(EdgesOutside(v.db.edges, ids), job, c)
    {
      Graph.DescendantsExact(t.edges, job, c);
    }
    hide CancelledKin;
  }

  /** An archiver that waits `after` seconds never takes the job of a key that is still alive. */
  ghost predicate SafeWait(after: Time) {
    forall v, ids, deadAfter, now, k ::
      KeysOk(v) && v.db.clock <= now && k in v.keys && now < v.keys[k].expiresAt && v.keys[k].job in v.db.jobs ==>
        v.keys[k].job in Next(v, Shift(ids, after, deadAfter, now)).db.jobs
  }

  function OldJob(): Job {
    Job(0, 0, Policy(1, 0.0), 0.0, Completed, 0.0, 1, 1, 0, 0, None, 0, 0, 0.0, None, None, None, Some(0.0), 0, {})
  }

  /** One job that finished as soon as it was submitted, with its key. */
  function OneKeyed(): Vault {
    Vault(Db(map[0 := OldJob()], map[], map[], {}, map[], [], map[], map[], multiset{}, {}, 0.0), map[],
          Cold(map[], map[], map[], map[]), map[0 := IdemKey(0, 0.0, Day)])
  }

  lemma ShortWaitLosesTheJob(after: Time)
    requires 0.0 <= after < Day
    ensures !SafeWait(after)
  {
    var v, now := OneKeyed(), (after + Day) / 2.0;
    MoveParts(v, {0});
    hide MoveAll, ExecsOfJobs, LogsOfJobs, Taken;
    assert KeysOk(v) && Archivable(v.db, 0, after, 0.0, now);
    assert 0 !in Next(v, Shift({0}, after, 0.0, now)).db.jobs;
  }

  /** The wait protects every live key if and only if it is at least the key's 24 hours. */
  lemma SafeWaitIff(after: Time)
    requires 0.0 <= after
    ensures SafeWait(after) <==> after >= 24.0 * 3600.0
  {
    if after < Day {
      ShortWaitLosesTheJob(after);
    } else {
      forall v, ids, deadAfter, now, k | KeysOk(v) && v.db.clock <= now && k in v.keys && now < v.keys[k].expiresAt
          && v.keys[k].job in v.db.jobs
        ensures v.keys[k].job in Next(v, Shift(ids, after, deadAfter, now)).db.jobs
      {
        var t := Next(v, Shift(ids, after, deadAfter, now));
        ShiftKeepsKeys(v, ids, after, deadAfter, now);
        assert t.keys == v.keys by { MoveParts(v, ids); hide MoveAll; }
        hide Next;
        assert KeyOk(t, t.keys[k]);
      }
    }
  }

  // ---------------------------------------------------------------- the code as it runs

  function FinishOf(jobs: map<JobId, Job>, j: JobId): Time {
    if j in jobs && jobs[j].finishedAt.Some? then jobs[j].finishedAt.value else 0.0
  }

  function OldestFirst(jobs: map<JobId, Job>): (JobId, JobId) -> bool {
    (a: JobId, b: JobId) => FinishOf(jobs, a) <= FinishOf(jobs, b)
  }

  lemma RankingByAge(jobs: map<JobId, Job>)
    ensures Query.Ranking(OldestFirst(jobs))
  {
  }

  function ArchivableIn(s: Db, after: Time, deadAfter: Time, now: Time): set<JobId> {
    set j | j in s.jobs && Archivable(s, j, after, deadAfter, now)
  }

  lemma PickedAreOld(s: Db, locked: set<JobId>, after: Time, deadAfter: Time, now: Time, limit: nat, ids: seq<JobId>)
    requires Query.FirstRows(ArchivableIn(s, after, deadAfter, now) - locked, OldestFirst(s.jobs), limit, ids)
    ensures |ids| <= limit && forall j :: j in ids ==> Archivable(s, j, after, deadAfter, now) && j !in locked
    ensures |ids| < limit ==> forall j :: Archivable(s, j, after, deadAfter, now) ==> j in locked || j in ids
  {
    assert forall j :: Archivable(s, j, after, deadAfter, now) <==> j in ArchivableIn(s, after, deadAfter, now);
    hide Archivable, ArchivableIn, OldestFirst;
  }

  /** Completed or cancelled longer than `after` ago, or dead-lettered longer than both, and with no
      execution open. */
  predicate IsOld(s: Db, j: JobId, after: Time, deadAfter: Time, now: Time) {
    && j in s.jobs && s.jobs[j].status in {Completed, Cancelled, DeadLetter}
    && s.jobs[j].finishedAt.Some? && s.jobs[j].finishedAt.value < now - after
    && (s.jobs[j].status == DeadLetter ==> s.jobs[j].finishedAt.value < now - deadAfter)
    && (forall x :: x in s.execs && s.execs[x].job == j ==> s.execs[x].closed.Some?)
  }

  /** The old jobs that were not locked, oldest first, as many as the limit allows. */
  ghost predicate TookOld(s: Db, locked: set<JobId>, after: Time, deadAfter: Time, now: Time, limit: nat,
      ids: seq<JobId>)
  {
    && |ids| <= limit
    && (forall i :: 0 <= i < |ids| ==> IsOld(s, ids[i], after, deadAfter, now) && ids[i] !in locked)
    && (forall i, k :: 0 <= i < k < |ids| ==>
          ids[i] != ids[k] && s.jobs[ids[i]].finishedAt.value <= s.jobs[ids[k]].finishedAt.value)
    && (forall j :: IsOld(s, j, after, deadAfter, now) && j !in locked && j !in ids ==>
          |ids| == limit && forall i :: 0 <= i < |ids| ==>
            s.jobs[ids[i]].finishedAt.value <= s.jobs[j].finishedAt.value)
  }

  lemma OldIsArchivable(s: Db, j: JobId, after: Time, deadAfter: Time, now: Time)
    ensures IsOld(s, j, after, deadAfter, now) <==> j in ArchivableIn(s, after, deadAfter, now)
    ensures IsOld(s, j, after, deadAfter, now) ==> FinishOf(s.jobs, j) == s.jobs[j].finishedAt.value
  {
  }

  lemma PickTakes(s: Db, locked: set<JobId>, after: Time, deadAfter: Time, now: Time, limit: nat, ids: seq<JobId>)
    requires Query.FirstRows(ArchivableIn(s, after, deadAfter, now) - locked, OldestFirst(s.jobs), limit, ids)
    ensures TookOld(s, locked, after, deadAfter, now, limit, ids)
  {
    var le := OldestFirst(s.jobs);
    forall j ensures IsOld(s, j, after, deadAfter, now) <==> j in ArchivableIn(s, after, deadAfter, now) {
      OldIsArchivable(s, j, after, deadAfter, now);
    }
    forall j | IsOld(s, j, after, deadAfter, now)
        ensures s.jobs[j].finishedAt.Some? && FinishOf(s.jobs, j) == s.jobs[j].finishedAt.value
    {
      OldIsArchivable(s, j, after, deadAfter, now);
    }
    hide IsOld, ArchivableIn, FinishOf;
    forall i, k | 0 <= i < k < |ids|
      ensures ids[i] != ids[k] && s.jobs[ids[i]].finishedAt.value <= s.jobs[ids[k]].finishedAt.value
    {
      assert le(ids[i], ids[k]);
    }
    forall j | IsOld(s, j, after, deadAfter, now) && j !in locked && j !in ids
      ensures |ids| == limit && forall i :: 0 <= i < |ids| ==>
          s.jobs[ids[i]].finishedAt.value <= s.jobs[j].finishedAt.value
    {
      assert Query.NoneAfter(le, ids, j);
      forall i | 0 <= i < |ids| ensures s.jobs[ids[i]].finishedAt.value <= s.jobs[j].finishedAt.value {
        assert le(ids[i], j);
      }
    }
  }

  class Mover {
    var db: Db
    var logs: map<LogId, Log>
    var cold: Cold

    ghost function State(keys: map<KeyId, IdemKey>): Vault
      reads this
    {
      Vault(db, logs, cold, keys)
    }

    constructor (hot: Db, rows: map<LogId, Log>, archive: Cold)
      ensures db == hot && logs == rows && cold == archive
    {
      db, logs, cold := hot, rows, archive;
    }

    /** The rows of pickSQL, oldest first, skipping those locked by others. */
    method Pick(locked: set<JobId>, after: Time, deadAfter: Time, now: Time, limit: nat) returns (ids: seq<JobId>)
      ensures Query.FirstRows(ArchivableIn(db, after, deadAfter, now) - locked, OldestFirst(db.jobs), limit, ids)
      ensures TookOld(db, locked, after, deadAfter, now, limit, ids)
    {
      RankingByAge(db.jobs);
      hide ArchivableIn, OldestFirst, Query.FirstRows, TookOld;
      ids := Query.Select(ArchivableIn(db, after, deadAfter, now) - locked, OldestFirst(db.jobs), limit);
      PickTakes(db, locked, after, deadAfter, now, limit, ids);
    }

    /** Archive: pick, then logs, executions, dead letters and jobs, in that order. */
    method ArchiveSome(locked: set<JobId>, after: Time, deadAfter: Time, now: Time, limit: nat,
        ghost keys: map<KeyId, IdemKey>)
      returns (n: nat, ghost taken: set<JobId>)
      modifies this
      ensures State(keys) == Archive(old(State(keys)), taken, after, deadAfter, now)
      ensures forall j :: j in taken ==> Archivable(old(db), j, after, deadAfter, now) && j !in locked
      ensures n <= limit && (n > 0 <==> taken != {})
      ensures n < limit ==> forall j :: Archivable(old(db), j, after, deadAfter, now) ==> j in locked || j in taken
    {
      hide Archivable, Taken, LogsOfJobs, ExecsOfJobs, Query.FirstRows, OldestFirst;
      var ids := Pick(locked, after, deadAfter, now, limit);
      PickedAreOld(db, locked, after, deadAfter, now, limit, ids);
      var gone := set j | j in ids;
      taken := gone;
      n := |ids|;
      if n == 0 {
        return;
      }
      assert ids[0] in taken;
      var ls := LogsOfJobs(logs, db.execs, gone);
      cold := cold.(logs := cold.logs + Taken(logs, ls));
      logs := logs - ls;
      var xs := ExecsOfJobs(db.execs, gone);
      cold := cold.(execs := cold.execs + Taken(db.execs, xs));
      db := db.(execs := db.execs - xs);
      cold := cold.(dead := cold.dead + Taken(db.dead, gone));
      db := db.(dead := db.dead - gone);
      cold := cold.(jobs := cold.jobs + Taken(db.jobs, gone));
      db := db.(jobs := db.jobs - gone, leases := db.leases - gone,
                edges := set e | e in db.edges && e.0 !in gone && e.1 !in gone);
    }

    /** The drain loop of Run: batches until one comes back short.  The n-th batch finds its own time
        on the clock and its own rows locked by others. */
    method Drain(times: nat -> Time, locked: nat -> set<JobId>, after: Time, deadAfter: Time, batch: nat,
        ghost keys: map<KeyId, IdemKey>)
      returns (last: nat)
      requires batch > 0 && AllApart(State(keys)) && NoOrphan(State(keys))
      modifies this
      ensures AllApart(State(keys)) && NoOrphan(State(keys))
      ensures SameTotal(old(db).jobs, old(cold).jobs, db.jobs, cold.jobs)
      ensures SameTotal(old(db).execs, old(cold).execs, db.execs, cold.execs)
      ensures SameTotal(old(logs), old(cold).logs, logs, cold.logs)
      ensures SameTotal(old(db).dead, old(cold).dead, db.dead, cold.dead)
      ensures forall j :: Archivable(db, j, after, deadAfter, times(last)) ==> j in locked(last)
    {
      hide Archivable, AllApart, NoOrphan, Archive;
      SameToBegin(State(keys));
      var n, next := batch, 0;
      last := 0;
      while n == batch
        invariant AllApart(State(keys)) && NoOrphan(State(keys))
        invariant SameTables(old(State(keys)), State(keys))
        invariant n <= batch
        invariant n < batch ==> forall j :: Archivable(db, j, after, deadAfter, times(last)) ==> j in locked(last)
        decreases |db.jobs|, n
      {
        ghost var v := State(keys);
        ghost var taken;
        last, next := next, next + 1;
        n, taken := ArchiveSome(locked(last), after, deadAfter, times(last), batch, keys);
        ArchiveConserves(v, taken, after, deadAfter, times(last));
        ArchiveShrinks(v, taken, after, deadAfter, times(last));
      }
    }
  }

  lemma StillArchivable(v: Vault, ids: set<JobId>, after: Time, deadAfter: Time, now: Time, j: JobId)
    requires Archivable(MoveAll(v, ids).db, j, after, deadAfter, now)
    ensures Archivable(v.db, j, after, deadAfter, now) && j !in ids
  {
    MoveParts(v, ids);
    var t := MoveAll(v, ids);
    hide MoveAll, LogsOfJobs, Taken;
    forall x | x in v.db.execs && v.db.execs[x].job == j ensures !IsOpen(v.db.execs[x]) {
      assert x in t.db.execs && t.db.execs[x] == v.db.execs[x];
    }
  }

  lemma Shrinks(jobs: map<JobId, Job>, ids: set<JobId>)
    requires ids <= jobs.Keys && ids != {}
    ensures |jobs - ids| < |jobs|
  {
    assert jobs.Keys == (jobs - ids).Keys + ids;
    assert |jobs.Keys| == |(jobs - ids).Keys| + |ids|;
  }

  /** What was picked is gone from the hot table, and what is left was there before, as it was. */
  lemma ArchiveShrinks(v: Vault, ids: set<JobId>, after: Time, deadAfter: Time, now: Time)
    requires forall j :: j in ids ==> Archivable(v.db, j, after, deadAfter, now)
    ensures var t := Archive(v, ids, after, deadAfter, now);
            && (forall j :: Archivable(t.db, j, after, deadAfter, now) ==>
                Archivable(v.db, j, after, deadAfter, now) && j !in ids)
            && |t.db.jobs| <= |v.db.jobs| && (ids != {} ==> |t.db.jobs| < |v.db.jobs|)
  {
    if ids != {} {
      MoveParts(v, ids);
      assert ids <= v.db.jobs.Keys;
      hide MoveAll, LogsOfJobs, ExecsOfJobs, Taken, Archivable;
      Shrinks(v.db.jobs, ids);
      forall j | Archivable(MoveAll(v, ids).db, j, after, deadAfter, now)
          ensures Archivable(v.db, j, after, deadAfter, now) && j !in ids
      {
        StillArchivable(v, ids, after, deadAfter, now, j);
      }
    }
  }
}
