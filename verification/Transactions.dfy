/** The database as one value and every transaction of the job protocol as a function on it.

    A transaction whose update matches no row, or that a constraint aborts, returns the
    database unchanged.  Events are kept as a multiset here: their ids and the order in which
    readers see them are the subject of module Outbox. */
module Transactions {
  import opened Schema
  import opened Admission
  import Graph

  /** Slots handed out by an admission and not yet turned into claims or returned.  A grant
      lives in the memory of the worker that asked for it; `lost` says that worker is gone. */
  datatype Grant = Grant(queue: QueueId, shard: nat, n: nat, lost: bool)

  /** `clock` is the latest time any committed transaction read.  `fenced` holds the claims,
      as (job, fence), that some worker's probe has found to be over. */
  datatype Db = Db(
    jobs: map<JobId, Job>, execs: map<ExecId, Exec>, leases: map<JobId, Lease>,
    edges: set<(JobId, JobId)>, queues: map<QueueId, Queue>, grants: seq<Grant>,
    stats: map<(QueueId, int), Stat>, dead: map<JobId, DeadRow>, events: multiset<Event>,
    fenced: set<(JobId, int)>, clock: Time)

  // ---------------------------------------------------------------- statements

  function Minute(now: Time): int { (now / 60.0).Floor }

  function AddStats(a: Stat, b: Stat): Stat {
    Stat(a.completed + b.completed, a.failed + b.failed, a.deadLettered + b.deadLettered, a.durationMs + b.durationMs)
  }

  /** Insert into queue_stats_minute, adding on conflict. */
  function Count(stats: map<(QueueId, int), Stat>, q: QueueId, minute: int, d: Stat): map<(QueueId, int), Stat> {
    stats[(q, minute) := if (q, minute) in stats then AddStats(stats[(q, minute)], d) else d]
  }

  function ReleaseSlots(queues: map<QueueId, Queue>, q: QueueId, s: nat, n: int): map<QueueId, Queue> {
    if q in queues then queues[q := Release(queues[q], s, n)] else queues
  }

  predicate IsOpen(x: Exec) { x.closed.None? }

  function CloseRow(x: Exec, o: Outcome, now: Time): Exec { x.(closed := Some(Closing(o, now))) }

  /** Close one execution by id, if it is open. */
  function CloseById(execs: map<ExecId, Exec>, x: ExecId, o: Outcome, now: Time): map<ExecId, Exec> {
    if x in execs && IsOpen(execs[x]) then execs[x := CloseRow(execs[x], o, now)] else execs
  }

  /** Close whatever is open for a job. */
  function CloseOfJob(execs: map<ExecId, Exec>, job: JobId, o: Outcome, now: Time): map<ExecId, Exec> {
    map x | x in execs :: if execs[x].job == job && IsOpen(execs[x]) then CloseRow(execs[x], o, now) else execs[x]
  }

  /** Close the open ones among these ids. */
  function CloseThese(execs: map<ExecId, Exec>, ids: set<ExecId>, o: Outcome, now: Time): map<ExecId, Exec> {
    map x | x in execs :: if x in ids && IsOpen(execs[x]) then CloseRow(execs[x], o, now) else execs[x]
  }

  /** duration_ms of an execution closed at `now`. */
  function DurationMs(x: Exec, now: Time): int { ((now - x.startedAt) * 1000.0 + 0.5).Floor }

  function DurationOf(execs: map<ExecId, Exec>, x: ExecId, now: Time): int {
    if x in execs && IsOpen(execs[x]) then DurationMs(execs[x], now) else 0
  }

  // ---------------------------------------------------------------- dependency flow

  predicate Counting(j: Job) { j.status.Scheduled? && j.pendingDeps > 0 }

  /** One parent of this job has finished. */
  function OneLess(j: Job, now: Time): Job {
    if Counting(j) then
      j.(pendingDeps := j.pendingDeps - 1,
         status := if j.pendingDeps - 1 == 0 && j.runAt <= now then Queued else j.status)
    else j
  }

  /** fl.finish_dependents */
  function FinishDependents(jobs: map<JobId, Job>, edges: set<(JobId, JobId)>, parent: JobId,
      now: Time): map<JobId, Job>
  {
    map c | c in jobs :: if (parent, c) in edges then OneLess(jobs[c], now) else jobs[c]
  }

  /** The dependents that the last finished parent put on the queue. */
  function Woken(jobs: map<JobId, Job>, edges: set<(JobId, JobId)>, parent: JobId, now: Time): set<JobId> {
    set c | c in jobs && (parent, c) in edges && Counting(jobs[c]) && OneLess(jobs[c], now).status.Queued?
  }

  function KillRow(j: Job, now: Time): Job {
    j.(status := Cancelled, finishedAt := Some(now), pendingDeps := 0, worker := None)
  }

  function Killed(jobs: map<JobId, Job>, edges: set<(JobId, JobId)>, root: JobId): set<JobId> {
    set c | c in jobs && c in Graph.Descendants(edges, root) && Idle(jobs[c].status)
  }

  /** fl.cancel_descendants */
  function CancelDescendants(jobs: map<JobId, Job>, edges: set<(JobId, JobId)>, root: JobId, now: Time): map<JobId, Job>
  {
    var ids := Killed(jobs, edges, root);
    map c | c in jobs :: if c in ids then KillRow(jobs[c], now) else jobs[c]
  }

  function EventsOf(topic: Topic, ids: set<JobId>, jobs: map<JobId, Job>): multiset<Event> {
    multiset(set c | c in ids && c in jobs :: Event(topic, c, jobs[c].project))
  }

  // ---------------------------------------------------------------- submission

  predicate NoDuplicates(ids: seq<JobId>) {
    forall i, j :: 0 <= i < j < |ids| ==> ids[i] != ids[j]
  }

  /** parentsSQL: the parents of the same project that have not reached a terminal status. */
  function LiveParents(jobs: map<JobId, Job>, parents: seq<JobId>, project: ProjectId): set<JobId> {
    set p | p in parents && p in jobs && jobs[p].project == project && !Terminal(jobs[p].status)
  }

  datatype Submission = Submission(
    id: JobId, project: ProjectId, queue: QueueId, policy: Policy, timeout: Time,
    runAt: Option<Time>, parents: seq<JobId>)

  /** The insert succeeds: the id is new, the queue belongs to the project, the policy passes its
      own check, every parent exists and is named once. */
  predicate Acceptable(s: Db, r: Submission) {
    && r.policy.maxAttempts >= 1
    && r.id !in s.jobs && r.queue in s.queues && s.queues[r.queue].project == r.project
    && NoDuplicates(r.parents) && (forall p :: p in r.parents ==> p in s.jobs)
  }

  function NewJob(s: Db, r: Submission, status: Status, runAt: Time, waitsOn: set<JobId>, now: Time): Job {
    Job(r.project, r.queue, r.policy, r.timeout, status, runAt, 0, 0, 0, 0, None, 0, |waitsOn|,
        now, None, None, None, None, |s.jobs|, waitsOn)
  }

  /** submitJob: count the live parents, insert the job, insert an edge for every named parent. */
  function Submit(s: Db, r: Submission, now: Time): Db {
    if !Acceptable(s, r) then s
    else
      var live := LiveParents(s.jobs, r.parents, r.project);
      var runAt := if r.runAt.Some? then r.runAt.value else now;
      var status := if |live| > 0 || runAt > now then Scheduled else Queued;
      s.(jobs := s.jobs[r.id := NewJob(s, r, status, runAt, live, now)],
         edges := s.edges + (set p | p in r.parents :: (p, r.id)),
         events := s.events + multiset{Event(JobSubmitted, r.id, r.project)})
  }

  /** The cron sweep's insert: queued at once, due at its tick, no parents. */
  function Fire(s: Db, r: Submission, tick: Time, now: Time): Db {
    if !Acceptable(s, r) then s
    else
      s.(jobs := s.jobs[r.id := NewJob(s, r, Queued, tick, {}, now)],
         events := s.events + multiset{Event(JobScheduled, r.id, r.project)})
  }

  // ---------------------------------------------------------------- claiming

  function AdmitTo(s: Db, q: QueueId, want: int, pick: Option<nat>, c: Clock): Db {
    if q !in s.queues then s
    else
      var r := Admit(s.queues[q], want, pick, c);
      s.(queues := s.queues[q := r.queue],
         grants := if r.slots > 0 then s.grants + [Grant(q, r.shard, r.slots, false)] else s.grants)
  }

  function ClaimRow(j: Job, shard: nat, worker: WorkerId, now: Time): Job {
    j.(status := Claimed, fence := j.fence + 1, shard := shard, worker := Some(worker),
       claimedAt := Some(now), deadlineAt := Some(now + j.timeout))
  }

  predicate LiveGrant(s: Db, g: nat) {
    g < |s.grants| && s.grants[g].n > 0 && !s.grants[g].lost
  }

  /** A set the claim query may return: queued, due, in the queue, no more than the grant. */
  predicate Claimable(s: Db, g: nat, ids: set<JobId>, now: Time)
    requires g < |s.grants|
  {
    && |ids| <= s.grants[g].n
    && forall j :: j in ids ==>
         j in s.jobs && s.jobs[j].status.Queued? && s.jobs[j].runAt <= now && s.jobs[j].queue == s.grants[g].queue
  }

  function Spend(grants: seq<Grant>, g: nat): seq<Grant>
    requires g < |grants|
  {
    grants[g := grants[g].(n := 0)]
  }

  /** take: claim the rows, write their leases, hand back what found no job. */
  function Take(s: Db, g: nat, ids: set<JobId>, worker: WorkerId, lease: Time, now: Time): Db {
    if !LiveGrant(s, g) || !Claimable(s, g, ids, now) then s
    else
      var gr := s.grants[g];
      s.(jobs := (map j | j in s.jobs :: if j in ids then ClaimRow(s.jobs[j], gr.shard, worker, now) else s.jobs[j]),
         leases := s.leases + (map j | j in ids && j in s.jobs :: Lease(s.jobs[j].fence + 1, worker, now + lease)),
         queues := ReleaseSlots(s.queues, gr.queue, gr.shard, gr.n - |ids|),
         grants := Spend(s.grants, g))
  }

  /** Claim's compensation when take failed. */
  function GiveBack(s: Db, g: nat): Db {
    if !LiveGrant(s, g) then s
    else
      var gr := s.grants[g];
      s.(queues := ReleaseSlots(s.queues, gr.queue, gr.shard, gr.n), grants := Spend(s.grants, g))
  }

  /** The worker dies between admission and claim. */
  function Crash(s: Db, g: nat): Db {
    if g < |s.grants| then s.(grants := s.grants[g := s.grants[g].(lost := true)]) else s
  }

  // ---------------------------------------------------------------- running and reporting

  predicate HeldAs(s: Db, job: JobId, fence: int, st: Status) {
    job in s.jobs && s.jobs[job].fence == fence && s.jobs[job].status == st
  }

  function Start(s: Db, job: JobId, fence: int, worker: WorkerId, exec: ExecId, now: Time): Db {
    if !HeldAs(s, job, fence, Claimed) || exec in s.execs then s
    else
      var j := s.jobs[job].(status := Running, startedAt := Some(now), attempts := s.jobs[job].attempts + 1);
      s.(jobs := s.jobs[job := j],
         execs := s.execs[exec := Exec(job, j.queue, j.attempts, j.generation, j.fence, worker, now, None)])
  }

  function Extend(s: Db, job: JobId, fence: int, lease: Time, now: Time): Db {
    if !HeldAs(s, job, fence, Running) || job !in s.leases then s
    else
      var until := if s.jobs[job].deadlineAt.Some? then MinR(now + lease, s.jobs[job].deadlineAt.value)
          else now + lease;
      s.(leases := s.leases[job := s.leases[job].(expiresAt := until)])
  }

  function CompleteRow(j: Job, now: Time): Job {
    j.(status := Completed, finishedAt := Some(now), worker := None)
  }

  /** fl.report_success */
  function Complete(s: Db, job: JobId, fence: int, exec: ExecId, now: Time): Db {
    if !HeldAs(s, job, fence, Running) then s
    else
      var j := s.jobs[job];
      var rows := s.jobs[job := CompleteRow(j, now)];
      s.(jobs := FinishDependents(rows, s.edges, job, now),
         execs := CloseById(s.execs, exec, Success, now),
         leases := s.leases - {job},
         stats := Count(s.stats, j.queue, Minute(now), Stat(1, 0, 0, DurationOf(s.execs, exec, now))),
         queues := ReleaseSlots(s.queues, j.queue, j.shard, 1),
         events := s.events + EventsOf(JobQueued, Woken(rows, s.edges, job, now), s.jobs)
                   + multiset{Event(JobCompleted, job, j.project)})
  }

  predicate Exhausted(j: Job, permanent: bool) { permanent || j.attempts >= j.policy.maxAttempts }

  function FailRow(j: Job, permanent: bool, backoff: Time, now: Time): Job {
    if Exhausted(j, permanent) then j.(status := DeadLetter, finishedAt := Some(now), worker := None)
    else j.(status := RetryWait, runAt := now + backoff, finishedAt := None, worker := None)
  }

  predicate Failable(s: Db, job: JobId, fence: Option<int>) {
    job in s.jobs && Active(s.jobs[job].status) && (fence.None? || s.jobs[job].fence == fence.value)
  }

  /** A held job whose lease has run out, as the reaper's scan looks for it. */
  predicate Expired(s: Db, j: JobId, now: Time) {
    j in s.jobs && Active(s.jobs[j].status) && j in s.leases && s.leases[j].expiresAt < now
  }

  function DeadReason(permanent: bool, o: Outcome): Reason {
    if permanent then PermanentFailure else if o.Lost? then LostExhausted else AttemptsExhausted
  }

  /** fl.report_failure; the reaper calls it without a fence. */
  function Fail(s: Db, job: JobId, fence: Option<int>, o: Outcome, permanent: bool, backoff: Time, now: Time): Db {
    if !Failable(s, job, fence) then s
    else
      var j := s.jobs[job];
      var isDead := Exhausted(j, permanent);
      var rows := s.jobs[job := FailRow(j, permanent, backoff, now)];
      s.(jobs := if isDead then CancelDescendants(rows, s.edges, job, now) else rows,
         execs := CloseOfJob(s.execs, job, o, now),
         leases := s.leases - {job},
         stats := Count(s.stats, j.queue, Minute(now), if isDead then Stat(0, 0, 1, 0) else Stat(0, 1, 0, 0)),
         dead := if isDead && job !in s.dead
           then s.dead[job := DeadRow(j.queue, j.project, DeadReason(permanent, o), now, None)] else s.dead,
         queues := ReleaseSlots(s.queues, j.queue, j.shard, 1),
         events := s.events
                   + (if isDead then EventsOf(JobCancelled(true), Killed(rows, s.edges, job), s.jobs) else multiset{})
                   + multiset{Event(if isDead then JobDeadLettered else if o.Lost? then JobLost else JobFailed, job,
                     j.project)})
  }

  function SnoozeRow(j: Job, delay: Time, now: Time): Job {
    j.(status := Scheduled, fence := j.fence + 1, runAt := now + MaxR(MinR(delay, j.policy.maxDelay), 0.0),
       snoozes := j.snoozes + 1, worker := None, claimedAt := None, deadlineAt := None)
  }

  /** The update matches and the row passes jobs_scheduled_deps_or_future. */
  predicate Snoozable(s: Db, job: JobId, fence: Option<int>, delay: Time, now: Time) {
    && job in s.jobs && s.jobs[job].status.Running? && (fence.None? || s.jobs[job].fence == fence.value)
    && s.jobs[job].snoozes < s.jobs[job].policy.maxAttempts
    && SnoozeRow(s.jobs[job], delay, now).runAt > s.jobs[job].createdAt
  }

  /** fl.report_snooze */
  function Snooze(s: Db, job: JobId, fence: Option<int>, exec: ExecId, delay: Time, now: Time): Db {
    if !Snoozable(s, job, fence, delay, now) then s
    else
      var j := s.jobs[job];
      s.(jobs := s.jobs[job := SnoozeRow(j, delay, now)],
         execs := CloseById(s.execs, exec, Snoozed, now),
         leases := s.leases - {job},
         queues := ReleaseSlots(s.queues, j.queue, j.shard, 1),
         events := s.events + multiset{Event(JobSnoozed, job, j.project)})
  }

  // ---------------------------------------------------------------- batch completion

  datatype Done = Done(job: JobId, fence: int, exec: ExecId)

  predicate Named(m: seq<Done>, job: JobId) {
    exists i :: 0 <= i < |m| && m[i].job == job
  }

  /** The entries whose job row the batch update matches; a job matched twice is updated once. */
  function Matched(s: Db, batch: seq<Done>): (m: seq<Done>)
    ensures forall i :: 0 <= i < |m| ==> m[i] in batch && HeldAs(s, m[i].job, m[i].fence, Running)
  {
    if batch == [] then []
    else
      var m := Matched(s, batch[..|batch| - 1]);
      var d := batch[|batch| - 1];
      if HeldAs(s, d.job, d.fence, Running) && !Named(m, d.job) then m + [d] else m
  }

  function JobsOf(m: seq<Done>): set<JobId> { set d | d in m :: d.job }
  function ExecsOf(m: seq<Done>): set<ExecId> { set d | d in m :: d.exec }

  function Repeat(j: Job, times: nat, now: Time): Job {
    if times == 0 then j else OneLess(Repeat(j, times - 1, now), now)
  }

  function DoneParents(edges: set<(JobId, JobId)>, done: set<JobId>, c: JobId): set<JobId> {
    set p | p in done && (p, c) in edges
  }

  /** How many matched entries fall on one shard of a queue. */
  function OnShard(s: Db, m: seq<Done>, q: QueueId, sh: nat): int {
    if m == [] then 0
    else
      var d := m[|m| - 1];
      OnShard(s, m[..|m| - 1], q, sh) + if d.job in s.jobs && s.jobs[d.job].queue == q && s.jobs[d.job].shard == sh
        then 1 else 0
  }

  function AfterDone(s: Db, done: set<JobId>, now: Time): map<JobId, Job> {
    map c | c in s.jobs ::
      if c in done then CompleteRow(s.jobs[c], now)
      else Repeat(s.jobs[c], |DoneParents(s.edges, done, c)|, now)
  }

  /** duration_ms once the row is closed, at `now` if it is still open. */
  function TimeSpent(x: Exec, now: Time): int {
    DurationMs(x, if x.closed.Some? then x.closed.value.at else now)
  }

  /** sum(duration_ms) over a set of execution rows. */
  function TimeOf(execs: map<ExecId, Exec>, xs: set<ExecId>, now: Time): int
    requires xs <= execs.Keys
  {
    if xs == {} then 0
    else
      var x := Least(xs);
      TimeOf(execs, xs - {x}, now) + TimeSpent(execs[x], now)
  }

  function ExecsOn(execs: map<ExecId, Exec>, xs: set<ExecId>, q: QueueId): set<ExecId> {
    set x | x in xs && x in execs && execs[x].queue == q
  }

  function QueuesOf(execs: map<ExecId, Exec>, xs: set<ExecId>): set<QueueId> {
    set x | x in xs && x in execs :: execs[x].queue
  }

  /** The batch counts the execution rows it was given, by the queue each row names. */
  function GroupedStats(s: Db, xs: set<ExecId>, now: Time): map<(QueueId, int), Stat> {
    var added := map q | q in QueuesOf(s.execs, xs) ::
      Stat(|ExecsOn(s.execs, xs, q)|, 0, 0, TimeOf(s.execs, ExecsOn(s.execs, xs, q), now));
    map k | k in s.stats.Keys + (set q | q in added :: (q, Minute(now))) ::
      if k.1 == Minute(now) && k.0 in added then
        (if k in s.stats then AddStats(s.stats[k], added[k.0]) else added[k.0])
      else s.stats[k]
  }

  function LowerShard(sh: Shard, n: int): Shard {
    if n > 0 then sh.(inFlight := Max(sh.inFlight - n, 0)) else sh
  }

  function LowerShards(s: Db, m: seq<Done>, q: QueueId): seq<Shard>
    requires q in s.queues
  {
    seq(|s.queues[q].shards|,
      i requires 0 <= i < |s.queues[q].shards| => LowerShard(s.queues[q].shards[i], OnShard(s, m, q, i)))
  }

  function GroupedRelease(s: Db, m: seq<Done>): map<QueueId, Queue> {
    map q | q in s.queues :: s.queues[q].(shards := LowerShards(s, m, q))
  }

  function WokenByBatch(s: Db, done: set<JobId>, now: Time): set<JobId> {
    set c | c in s.jobs && c !in done && Counting(s.jobs[c]) && AfterDone(s, done, now)[c].status.Queued?
  }

  /** fl.report_success_batch */
  function CompleteBatch(s: Db, batch: seq<Done>, now: Time): Db {
    var m := Matched(s, batch);
    if m == [] then s
    else
      var done := JobsOf(m);
      s.(jobs := AfterDone(s, done, now),
         execs := CloseThese(s.execs, ExecsOf(m), Success, now),
         leases := s.leases - done,
         stats := GroupedStats(s, ExecsOf(m), now),
         queues := GroupedRelease(s, m),
         events := s.events + EventsOf(JobQueued, WokenByBatch(s, done, now), s.jobs)
           + EventsOf(JobCompleted, done, s.jobs))
  }

  // ---------------------------------------------------------------- the other transactions

  /** cancelJob.  The statement leaves pending_deps alone, so the check that allows pending
      parents only on scheduled jobs aborts it for a job that still waits. */
  function Cancel(s: Db, job: JobId, now: Time): Db {
    if job !in s.jobs || Terminal(s.jobs[job].status) || s.jobs[job].pendingDeps != 0 then s
    else
      var j := s.jobs[job];
      var held := Active(j.status);
      s.(jobs := s.jobs[job := j.(status := Cancelled, finishedAt := Some(now), worker := None)],
         execs := if held then CloseOfJob(s.execs, job, CancelledRun, now) else s.execs,
         leases := if held then s.leases - {job} else s.leases,
         queues := if held then ReleaseSlots(s.queues, j.queue, j.shard, 1) else s.queues,
         events := s.events + multiset{Event(JobCancelled(false), job, j.project)})
  }

  predicate Promotable(s: Db, j: JobId, now: Time) {
    j in s.jobs && (s.jobs[j].status.Scheduled? || s.jobs[j].status.RetryWait?) && s.jobs[j].runAt <= now
      && s.jobs[j].pendingDeps == 0
  }

  /** Promote, on whichever due rows the sweep managed to lock. */
  function Promote(s: Db, ids: set<JobId>, now: Time): Db {
    if exists j :: j in ids && !Promotable(s, j, now) then s
    else
      s.(jobs := (map j | j in s.jobs :: if j in ids then s.jobs[j].(status := Queued) else s.jobs[j]),
         events := s.events + EventsOf(JobQueued, ids, s.jobs))
  }

  /** retryJob */
  function Retry(s: Db, job: JobId, now: Time): Db {
    if job !in s.jobs || !(s.jobs[job].status.Scheduled? || s.jobs[job].status.RetryWait?)
      || s.jobs[job].pendingDeps != 0 then s
    else
      s.(jobs := s.jobs[job := s.jobs[job].(status := Queued, runAt := now)],
         events := s.events + multiset{Event(JobRetried, job, s.jobs[job].project)})
  }

  function ReplayRow(j: Job, runAt: Time): Job {
    j.(status := Queued, attempts := 0, generation := j.generation + 1, runAt := runAt, finishedAt := None,
      worker := None)
  }

  function MarkReplayed(dead: map<JobId, DeadRow>, ids: set<JobId>, now: Time): map<JobId, DeadRow> {
    map j | j in dead :: if j in ids then dead[j].(replayedAt := Some(now)) else dead[j]
  }

  /** cancelledKinSQL */
  function CancelledKin(s: Db, job: JobId): set<JobId> {
    set c | c in s.jobs && c in Graph.Descendants(s.edges, job) && s.jobs[c].status.Cancelled?
  }

  /** replayJob */
  function Replay(s: Db, job: JobId, now: Time): Db {
    if job !in s.jobs || CancelledKin(s, job) != {} || !s.jobs[job].status.DeadLetter? then s
    else
      s.(jobs := s.jobs[job := ReplayRow(s.jobs[job], now)],
         dead := MarkReplayed(s.dead, {job}, now),
         events := s.events + multiset{Event(JobReplayed, job, s.jobs[job].project)})
  }

  predicate BulkReplayable(s: Db, job: JobId) {
    && job in s.jobs && s.jobs[job].status.DeadLetter?
    && job in s.dead && s.dead[job].replayedAt.None?
    && !exists c :: c in s.jobs && (job, c) in s.edges && s.jobs[c].status.Cancelled?
  }

  /** fl.replay_dead, on whichever rows fit its room; `spacing` gives each its start time. */
  function ReplayDead(s: Db, spacing: map<JobId, Time>, now: Time): Db {
    if exists j :: j in spacing && !BulkReplayable(s, j) then s
    else
      s.(jobs := (map j | j in s.jobs :: if j in spacing then ReplayRow(s.jobs[j], spacing[j]) else s.jobs[j]),
         dead := MarkReplayed(s.dead, spacing.Keys, now),
         events := s.events + EventsOf(JobReplayed, spacing.Keys, s.jobs))
  }

  /** The claim (job, fence) is over: the fence has moved on, or the job is no longer held under it. */
  predicate Ended(s: Db, job: JobId, fence: int) {
    job in s.jobs && (s.jobs[job].fence > fence || (s.jobs[job].fence == fence && !Active(s.jobs[job].status)))
  }

  /** Probe: a worker looks its claim up and remembers the answer. */
  function Probe(s: Db, job: JobId, fence: int): Db {
    if Ended(s, job, fence) then s.(fenced := s.fenced + {(job, fence)}) else s
  }

  /** CloseExecution, called by a worker whose probe came back not live. */
  function CloseExecution(s: Db, exec: ExecId, o: Outcome, now: Time): Db {
    if exec in s.execs && (s.execs[exec].job, s.execs[exec].fence) in s.fenced then
      s.(execs := CloseById(s.execs, exec, o, now))
    else s
  }

  /** sweepSQL, on whichever of the matching rows its limit takes. */
  function Sweep(s: Db, ids: set<ExecId>, now: Time): Db {
    s.(execs := (map x | x in s.execs ::
      if x in ids && IsOpen(s.execs[x]) && s.execs[x].job in s.jobs && !Active(s.jobs[s.execs[x].job].status)
      then CloseRow(s.execs[x], Lost, now) else s.execs[x]))
  }

  // ---------------------------------------------------------------- queue administration

  function ActiveAt(s: Db, q: QueueId, sh: nat): set<JobId> {
    set j | j in s.jobs && Active(s.jobs[j].status) && s.jobs[j].queue == q && s.jobs[j].shard == sh
  }

  predicate Busy(s: Db, q: QueueId) {
    exists j :: j in s.jobs && Active(s.jobs[j].status) && s.jobs[j].queue == q
  }

  predicate SaneSettings(t: Settings) {
    t.shards > 0 && t.maxConcurrency > 0 && t.limit >= 0.0 && t.burst >= 0.0
  }

  function ConfigureQueue(s: Db, q: QueueId, t: Settings, now: Time): Db {
    if q !in s.queues || !SaneSettings(t) then s
    else
      var r := Configure(s.queues[q], t, Busy(s, q), now);
      if r.None? then s else s.(queues := s.queues[q := r.value])
  }

  function FlipBreaker(s: Db, q: QueueId, sw: Switch, until: Time): Db {
    if q in s.queues then s.(queues := s.queues[q := Flip(s.queues[q], sw, until)]) else s
  }

  /** fl.reconcile_in_flight: every shard's counter is set to the number of jobs it holds. */
  function Reconciled(s: Db): map<QueueId, Queue> {
    map q | q in s.queues ::
      s.queues[q].(shards := seq(|s.queues[q].shards|, i requires 0 <= i < |s.queues[q].shards| =>
        s.queues[q].shards[i].(inFlight := |ActiveAt(s, q, i)|)))
  }

  /** The slots of workers that are gone are forgotten with the counter that carried them. */
  function ForgetLost(grants: seq<Grant>): seq<Grant> {
    seq(|grants|, i requires 0 <= i < |grants| => if grants[i].lost then grants[i].(n := 0) else grants[i])
  }

  function Reconcile(s: Db): Db {
    s.(queues := Reconciled(s), grants := ForgetLost(s.grants))
  }
}
