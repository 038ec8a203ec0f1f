/** The order in which transactions on single jobs take row locks, and why they never wait in a
    circle.  Jobs here have no dependents; a transaction on a job that has some locks several job
    rows, in no fixed order. */
module LockOrder {
  import opened Schema
  import opened Transactions
  import A = Admission
  import Graph

  datatype Resource =
    | JobRow(job: JobId)
    | ExecRow(exec: ExecId)
    | LeaseRow(job: JobId)
    | StatRow(queue: QueueId, minute: int)
    | DeadLetterRow(job: JobId)
    | QueueRow(queue: QueueId)
    | ShardRow(queue: QueueId, shard: nat)
    | OutboxLock(key: nat)

  function Rank(r: Resource): nat {
    match r
    case JobRow(_) => 1
    case ExecRow(_) => 2
    case LeaseRow(_) => 3
    case StatRow(_, _) => 4
    case DeadLetterRow(_) => 5
    case QueueRow(_) => 6
    case ShardRow(_, _) => 7
    case OutboxLock(_) => 8
  }

  type Hash = ProjectId -> nat

  /** What one call works on; `exec` is the execution row it closes, if there is one. */
  datatype Target = Target(job: JobId, exec: Option<ExecId>, queue: QueueId, shard: nat, project: ProjectId)

  datatype Procedure =
    | Succeeding(on: Target, minute: int)
    | Failing(on: Target, minute: int, toDeadLetter: bool)
    | Snoozing(on: Target)
    | Cancelling(on: Target, held: bool)
    | Admitting(queue: QueueId, shard: nat, probing: bool)

  function ExecPart(t: Target): seq<Resource> { if t.exec.Some? then [ExecRow(t.exec.value)] else [] }

  /** The rows each procedure touches, statement by statement.  A probing admission comes back to
      the queue row it already holds. */
  function Program(p: Procedure, h: Hash): seq<Resource> {
    match p
    case Succeeding(t, m) =>
      [JobRow(t.job)] + ExecPart(t)
        + [LeaseRow(t.job), StatRow(t.queue, m), ShardRow(t.queue, t.shard), OutboxLock(h(t.project))]
    case Failing(t, m, toDead) =>
      [JobRow(t.job)] + ExecPart(t) + [LeaseRow(t.job), StatRow(t.queue, m)]
      + (if toDead then [DeadLetterRow(t.job)] else []) + [ShardRow(t.queue, t.shard), OutboxLock(h(t.project))]
    case Snoozing(t) =>
      [JobRow(t.job)] + ExecPart(t) + [LeaseRow(t.job), ShardRow(t.queue, t.shard), OutboxLock(h(t.project))]
    case Cancelling(t, held) =>
      [JobRow(t.job)] + (if held then ExecPart(t) + [LeaseRow(t.job), ShardRow(t.queue, t.shard)] else [])
        + [OutboxLock(h(t.project))]
    case Admitting(q, s, probing) =>
      if probing then [QueueRow(q), ShardRow(q, s), QueueRow(q)] else [ShardRow(q, s)]
  }

  // ---------------------------------------------------------------- the programs lock what they change

  ghost predicate RowsSame(s: Db, t: Db, rs: seq<Resource>) {
    && t.jobs.Keys == s.jobs.Keys && t.execs.Keys == s.execs.Keys && t.edges == s.edges
    && (forall j :: j in s.jobs && JobRow(j) !in rs ==> t.jobs[j] == s.jobs[j])
    && (forall x :: x in s.execs && ExecRow(x) !in rs ==> t.execs[x] == s.execs[x])
  }

  ghost predicate SidesSame(s: Db, t: Db, rs: seq<Resource>) {
    && (forall j :: LeaseRow(j) !in rs ==>
        (j in s.leases <==> j in t.leases) && (j in s.leases ==> t.leases[j] == s.leases[j]))
    && (forall k: (QueueId, int) :: StatRow(k.0, k.1) !in rs ==>
        (k in s.stats <==> k in t.stats) && (k in s.stats ==> t.stats[k] == s.stats[k]))
    && (forall j :: DeadLetterRow(j) !in rs ==>
        (j in s.dead <==> j in t.dead) && (j in s.dead ==> t.dead[j] == s.dead[j]))
  }

  ghost predicate QueuesSame(a: map<QueueId, A.Queue>, b: map<QueueId, A.Queue>, rs: seq<Resource>) {
    && b.Keys == a.Keys
    && (forall q :: q in a ==> |b[q].shards| == |a[q].shards|)
    && (forall q :: q in a && QueueRow(q) !in rs ==> b[q].(shards := []) == a[q].(shards := []))
    && (forall q, i: nat :: q in a && i < |a[q].shards| && ShardRow(q, i) !in rs ==> b[q].shards[i] == a[q].shards[i])
  }

  ghost predicate EventsSame(s: Db, t: Db, rs: seq<Resource>, h: Hash) {
    forall e: Event :: OutboxLock(h(e.project)) !in rs ==> t.events[e] == s.events[e]
  }

  /** t differs from s only in rows among rs. */
  ghost predicate ChangesOnly(s: Db, t: Db, rs: seq<Resource>, h: Hash) {
    RowsSame(s, t, rs) && SidesSame(s, t, rs) && QueuesSame(s.queues, t.queues, rs) && EventsSame(s, t, rs, h)
  }

  predicate Describes(s: Db, t: Target) {
    && t.job in s.jobs && s.jobs[t.job].queue == t.queue && s.jobs[t.job].shard == t.shard
    && s.jobs[t.job].project == t.project
    && (forall e :: e in s.edges ==> e.0 != t.job)
    && (forall x :: x in s.execs && s.execs[x].job == t.job && IsOpen(s.execs[x]) ==> t.exec == Some(x))
  }

  lemma NothingChanges(s: Db, rs: seq<Resource>, h: Hash)
    ensures ChangesOnly(s, s, rs, h)
  {
  }

  lemma ReleaseChanges(queues: map<QueueId, A.Queue>, q: QueueId, sh: nat, rs: seq<Resource>)
    requires ShardRow(q, sh) in rs
    ensures QueuesSame(queues, ReleaseSlots(queues, q, sh, 1), rs)
  {
  }

  lemma CountChanges(s: Db, n: Db, t: Target, minute: int, d: Stat, rs: seq<Resource>)
    requires n.leases == s.leases || (LeaseRow(t.job) in rs && n.leases == s.leases - {t.job})
    requires n.stats == s.stats || (StatRow(t.queue, minute) in rs && n.stats == Count(s.stats, t.queue, minute, d))
    requires n.dead == s.dead
        || (DeadLetterRow(t.job) in rs && t.job in n.dead && n.dead == s.dead[t.job := n.dead[t.job]])
    ensures SidesSame(s, n, rs)
  {
    hide AddStats;
  }

  lemma RowsChange(s: Db, n: Db, t: Target, rs: seq<Resource>)
    requires t.job in s.jobs && t.job in n.jobs && n.jobs == s.jobs[t.job := n.jobs[t.job]] && JobRow(t.job) in rs
        && n.edges == s.edges
    requires n.execs.Keys == s.execs.Keys && forall x :: x in s.execs && ExecRow(x) !in rs ==> n.execs[x] == s.execs[x]
    ensures RowsSame(s, n, rs)
  {
  }

  /** Closing a job's execution, by id or by job, touches the execution row in the program only. */
  lemma CloseChanges(s: Db, t: Target, o: Outcome, now: Time, rs: seq<Resource>)
    requires Describes(s, t) && (t.exec.Some? ==> ExecRow(t.exec.value) in rs)
    ensures var e := CloseOfJob(s.execs, t.job, o, now);
            e.Keys == s.execs.Keys && forall x :: x in s.execs && ExecRow(x) !in rs ==> e[x] == s.execs[x]
    ensures t.exec.Some? ==> var e := CloseById(s.execs, t.exec.value, o, now);
            e.Keys == s.execs.Keys && forall x :: x in s.execs && ExecRow(x) !in rs ==> e[x] == s.execs[x]
  {
  }

  lemma Announces(s: Db, n: Db, e: Event, rs: seq<Resource>, h: Hash)
    requires n.events == s.events + multiset{e} && OutboxLock(h(e.project)) in rs
    ensures EventsSame(s, n, rs, h)
  {
  }

  lemma NoDependents(s: Db, rows: map<JobId, Job>, job: JobId, now: Time)
    requires forall e :: e in s.edges ==> e.0 != job
    ensures FinishDependents(rows, s.edges, job, now) == rows && Woken(rows, s.edges, job, now) == {}
    ensures EventsOf(JobQueued, {}, s.jobs) == multiset{}
  {
  }

  lemma NoWalkOut(edges: Graph.Edges, root: JobId, c: JobId)
    requires forall e :: e in edges ==> e.0 != root
    ensures !Graph.Reaches(edges, root, c)
  {
    forall p ensures !Graph.WalkFromTo(edges, p, root, c) {
      assert |p| >= 2 ==> p[0] != root || (p[0], p[1]) !in edges;
    }
  }

  lemma NoDescendants(s: Db, rows: map<JobId, Job>, job: JobId, now: Time)
    requires forall e :: e in s.edges ==> e.0 != job
    ensures CancelDescendants(rows, s.edges, job, now) == rows && Killed(rows, s.edges, job) == {}
    ensures EventsOf(JobCancelled(true), {}, s.jobs) == multiset{}
  {
    forall c ensures c !in Graph.Descendants(s.edges, job) {
      NoWalkOut(s.edges, job, c);
      Graph.DescendantsExact(s.edges, job, c);
    }
    hide Graph.Descendants;
  }

  lemma SuccessTouches(t: Target, minute: int, h: Hash)
    requires t.exec.Some?
    ensures var rs := Program(Succeeding(t, minute), h);
            && JobRow(t.job) in rs && ExecRow(t.exec.value) in rs && LeaseRow(t.job) in rs
            && StatRow(t.queue, minute) in rs && ShardRow(t.queue, t.shard) in rs && OutboxLock(h(t.project)) in rs
  {
    var rs := Program(Succeeding(t, minute), h);
    assert JobRow(t.job) == rs[0] && ExecRow(t.exec.value) == rs[1] && LeaseRow(t.job) == rs[2];
    assert StatRow(t.queue, minute) == rs[3] && ShardRow(t.queue, t.shard) == rs[4]
        && OutboxLock(h(t.project)) == rs[5];
  }

  /** Completing a job changes rows of its lock program only. */
  lemma SuccessChanges(s: Db, t: Target, fence: int, now: Time, h: Hash)
    requires Describes(s, t) && t.exec.Some?
    ensures ChangesOnly(s, Complete(s, t.job, fence, t.exec.value, now), Program(Succeeding(t, Minute(now)), h), h)
  {
    var n, rs := Complete(s, t.job, fence, t.exec.value, now), Program(Succeeding(t, Minute(now)), h);
    SuccessTouches(t, Minute(now), h);
    hide Program, Minute, FinishDependents, Woken, ReleaseSlots, EventsOf, DurationOf, Count, CloseById, RowsSame,
        SidesSame, QueuesSame, EventsSame;
    if HeldAs(s, t.job, fence, Running) {
      var j := s.jobs[t.job];
      NoDependents(s, s.jobs[t.job := CompleteRow(j, now)], t.job, now);
      CloseChanges(s, t, Outcome.Success, now, rs);
      RowsChange(s, n, t, rs);
      CountChanges(s, n, t, Minute(now), Stat(1, 0, 0, DurationOf(s.execs, t.exec.value, now)), rs);
      ReleaseChanges(s.queues, t.queue, t.shard, rs);
      Announces(s, n, Event(JobCompleted, t.job, t.project), rs, h);
    } else {
      NothingChanges(s, rs, h);
    }
  }

  lemma FailureChanges(s: Db, t: Target, fence: Option<int>, o: Outcome, permanent: bool, backoff: Time, now: Time,
      h: Hash)
    requires Describes(s, t)
    ensures var toDead := Exhausted(s.jobs[t.job], permanent);
            ChangesOnly(s, Fail(s, t.job, fence, o, permanent, backoff, now),
              Program(Failing(t, Minute(now), toDead), h), h)
  {
    var j := s.jobs[t.job];
    var toDead := Exhausted(j, permanent);
    var n, rs := Fail(s, t.job, fence, o, permanent, backoff, now), Program(Failing(t, Minute(now), toDead), h);
    FailureTouches(t, Minute(now), toDead, h);
    hide Program, Minute, CancelDescendants, Killed, ReleaseSlots, EventsOf, Count, CloseOfJob, RowsSame, SidesSame,
        QueuesSame, EventsSame, Exhausted;
    if Failable(s, t.job, fence) {
      NoDescendants(s, s.jobs[t.job := FailRow(j, permanent, backoff, now)], t.job, now);
      CloseChanges(s, t, o, now, rs);
      RowsChange(s, n, t, rs);
      CountChanges(s, n, t, Minute(now), if toDead then Stat(0, 0, 1, 0) else Stat(0, 1, 0, 0), rs);
      ReleaseChanges(s.queues, t.queue, t.shard, rs);
      Announces(s, n, Event(if toDead then JobDeadLettered else if o.Lost? then JobLost else JobFailed, t.job,
        t.project), rs, h);
    } else {
      NothingChanges(s, rs, h);
    }
  }

  lemma FailureTouches(t: Target, minute: int, toDead: bool, h: Hash)
    ensures var rs := Program(Failing(t, minute, toDead), h);
            && JobRow(t.job) in rs && (t.exec.Some? ==> ExecRow(t.exec.value) in rs) && LeaseRow(t.job) in rs
            && StatRow(t.queue, minute) in rs && (toDead ==> DeadLetterRow(t.job) in rs)
            && ShardRow(t.queue, t.shard) in rs && OutboxLock(h(t.project)) in rs
  {
    var rs := Program(Failing(t, minute, toDead), h);
    var k := if t.exec.Some? then 2 else 1;
    assert rs[0] == JobRow(t.job) && rs[k] == LeaseRow(t.job) && rs[k + 1] == StatRow(t.queue, minute);
    assert t.exec.Some? ==> rs[1] == ExecRow(t.exec.value);
    assert toDead ==> rs[k + 2] == DeadLetterRow(t.job);
    assert rs[|rs| - 2] == ShardRow(t.queue, t.shard) && rs[|rs| - 1] == OutboxLock(h(t.project));
  }

  lemma SnoozeChanges(s: Db, t: Target, fence: Option<int>, delay: Time, now: Time, h: Hash)
    requires Describes(s, t) && t.exec.Some?
    ensures ChangesOnly(s, Snooze(s, t.job, fence, t.exec.value, delay, now), Program(Snoozing(t), h), h)
  {
    var n, rs := Snooze(s, t.job, fence, t.exec.value, delay, now), Program(Snoozing(t), h);
    assert JobRow(t.job) == rs[0] && ExecRow(t.exec.value) == rs[1] && LeaseRow(t.job) == rs[2];
    assert ShardRow(t.queue, t.shard) == rs[3] && OutboxLock(h(t.project)) == rs[4];
    hide Program, ReleaseSlots, CloseById, RowsSame, SidesSame, QueuesSame, EventsSame, SnoozeRow;
    if Snoozable(s, t.job, fence, delay, now) {
      CloseChanges(s, t, Snoozed, now, rs);
      RowsChange(s, n, t, rs);
      CountChanges(s, n, t, 0, Stat(0, 0, 0, 0), rs);
      ReleaseChanges(s.queues, t.queue, t.shard, rs);
      Announces(s, n, Event(JobSnoozed, t.job, t.project), rs, h);
    } else {
      NothingChanges(s, rs, h);
    }
  }

  lemma CancelTouches(t: Target, held: bool, h: Hash)
    ensures var rs := Program(Cancelling(t, held), h);
            && JobRow(t.job) in rs && OutboxLock(h(t.project)) in rs
            && (held ==>
                  && (t.exec.Some? ==> ExecRow(t.exec.value) in rs)
                  && LeaseRow(t.job) in rs && ShardRow(t.queue, t.shard) in rs)
  {
    var rs := Program(Cancelling(t, held), h);
    assert rs[0] == JobRow(t.job) && rs[|rs| - 1] == OutboxLock(h(t.project));
    assert held && t.exec.Some? ==> rs[1] == ExecRow(t.exec.value);
    assert held ==> rs[|rs| - 3] == LeaseRow(t.job) && rs[|rs| - 2] == ShardRow(t.queue, t.shard);
  }

  lemma CancelChanges(s: Db, t: Target, now: Time, h: Hash)
    requires Describes(s, t)
    ensures ChangesOnly(s, Cancel(s, t.job, now), Program(Cancelling(t, Active(s.jobs[t.job].status)), h), h)
  {
    var j := s.jobs[t.job];
    var n, rs := Cancel(s, t.job, now), Program(Cancelling(t, Active(j.status)), h);
    CancelTouches(t, Active(j.status), h);
    NothingChanges(s, rs, h);
    hide Program, ReleaseSlots, CloseOfJob, RowsSame, SidesSame, QueuesSame, EventsSame;
    if !Terminal(j.status) && j.pendingDeps == 0 {
      if Active(j.status) {
        CloseChanges(s, t, CancelledRun, now, rs);
        ReleaseChanges(s.queues, t.queue, t.shard, rs);
      }
      RowsChange(s, n, t, rs);
      CountChanges(s, n, t, 0, Stat(0, 0, 0, 0), rs);
      Announces(s, n, Event(JobCancelled(false), t.job, t.project), rs, h);
    }
  }

  lemma AdmitTouches(q: A.Queue, want: int, pick: Option<nat>, c: A.Clock)
    ensures var r := A.Admit(q, want, pick, c).queue;
            && |r.shards| == |q.shards|
            && (forall i: nat :: i < |q.shards| && (pick.None? || i != pick.value) ==> r.shards[i] == q.shards[i])
            && (q.breaker.Closed? ==> r.(shards := []) == q.(shards := []))
  {
    hide A.Allowed, A.Refilled, A.Share, A.Rate;
  }

  lemma OneQueue(queues: map<QueueId, A.Queue>, q: QueueId, r: A.Queue, rs: seq<Resource>)
    requires q in queues && |r.shards| == |queues[q].shards|
    requires QueueRow(q) !in rs ==> r.(shards := []) == queues[q].(shards := [])
    requires forall i: nat :: i < |r.shards| && ShardRow(q, i) !in rs ==> r.shards[i] == queues[q].shards[i]
    ensures QueuesSame(queues, queues[q := r], rs)
  {
  }

  /** A closed breaker's admission writes one shard row; any other writes its queue row as well. */
  lemma AdmissionChanges(s: Db, q: QueueId, want: int, pick: Option<nat>, c: A.Clock, h: Hash)
    requires q in s.queues
    ensures var shard := if pick.Some? then pick.value else 0;
            ChangesOnly(s, AdmitTo(s, q, want, pick, c), Program(Admitting(q, shard, !s.queues[q].breaker.Closed?), h),
              h)
  {
    var shard := if pick.Some? then pick.value else 0;
    var probing := !s.queues[q].breaker.Closed?;
    var n, rs := AdmitTo(s, q, want, pick, c), Program(Admitting(q, shard, probing), h);
    assert ShardRow(q, shard) in rs && (probing ==> QueueRow(q) in rs) by {
      assert if probing then rs[0] == QueueRow(q) && rs[1] == ShardRow(q, shard) else rs[0] == ShardRow(q, shard);
    }
    hide Program;
    assert n.jobs == s.jobs && n.execs == s.execs && n.edges == s.edges && n.leases == s.leases && n.stats == s.stats
        && n.dead == s.dead && n.events == s.events by {
      hide A.Admit;
    }
    assert n.queues == s.queues[q := A.Admit(s.queues[q], want, pick, c).queue] by { hide A.Admit; }
    hide AdmitTo, A.Admit;
    AdmitTouches(s.queues[q], want, pick, c);
    OneQueue(s.queues, q, A.Admit(s.queues[q], want, pick, c).queue, rs);
    hide QueuesSame;
  }

  // ---------------------------------------------------------------- waiting

  /** A running transaction holds the first `at` resources of its program. */
  datatype Tx = Tx(program: seq<Resource>, at: nat)

  type TxId = nat
  type World = map<TxId, Tx>

  function Held(t: Tx): set<Resource> {
    set i | 0 <= i < |t.program| && i < t.at :: t.program[i]
  }

  datatype Move = Begin(tx: TxId, p: Procedure) | Acquire(tx: TxId) | End(tx: TxId)

  predicate Grantable(w: World, t: TxId)
    requires t in w && w[t].at < |w[t].program|
  {
    forall u :: u in w && u != t ==> w[t].program[w[t].at] !in Held(w[u])
  }

  /** End is a commit or a rollback, and may come early: a procedure whose update matched no row
      returns at once. */
  function Next(w: World, m: Move, h: Hash): World {
    match m
    case Begin(t, p) => if t in w then w else w[t := Tx(Program(p, h), 0)]
    case Acquire(t) =>
      if t in w && w[t].at < |w[t].program| && Grantable(w, t) then w[t := w[t].(at := w[t].at + 1)] else w
    case End(t) => w - {t}
  }

  predicate IsHistory(ws: seq<World>, ms: seq<Move>, h: Hash) {
    |ws| == |ms| + 1 && forall i :: 0 <= i < |ms| ==> ws[i + 1] == Next(ws[i], ms[i], h)
  }

  /** t wants a row that u holds. */
  predicate Waits(w: World, t: TxId, u: TxId) {
    t in w && u in w && t != u && w[t].at < |w[t].program| && w[t].program[w[t].at] in Held(w[u])
  }

  function Wanted(w: World, t: TxId): Resource
    requires t in w && w[t].at < |w[t].program|
  {
    w[t].program[w[t].at]
  }

  /** A circle of waiting transactions. */
  predicate Circle(w: World, ts: seq<TxId>) {
    |ts| >= 2 && ts[0] == ts[|ts| - 1] && forall i :: 0 <= i < |ts| - 1 ==> Waits(w, ts[i], ts[i + 1])
  }

  // ---------------------------------------------------------------- no circle

  /** Every row is above all rows touched before it, or was touched before. */
  predicate Climbs(p: seq<Resource>) {
    forall i, j :: 0 <= i < j < |p| ==> Rank(p[i]) < Rank(p[j]) || p[j] in p[..j]
  }

  predicate StrictlyClimbs(p: seq<Resource>) {
    forall i, j :: 0 <= i < j < |p| ==> Rank(p[i]) < Rank(p[j])
  }

  /** A climbing program may go on with anything above its last row. */
  lemma ClimbOn(p: seq<Resource>, q: seq<Resource>)
    requires StrictlyClimbs(p) && StrictlyClimbs(q) && (p != [] && q != [] ==> Rank(p[|p| - 1]) < Rank(q[0]))
    ensures StrictlyClimbs(p + q)
  {
    hide Rank;
    forall i, j | 0 <= i < j < |p + q| ensures Rank((p + q)[i]) < Rank((p + q)[j]) {
      assert p != [] ==> Rank(p[Min(i, |p| - 1)]) <= Rank(p[|p| - 1]);
      assert q != [] ==> Rank(q[0]) <= Rank(q[Max(j - |p|, 0)]);
    }
  }

  lemma HeadClimbs(t: Target)
    ensures StrictlyClimbs([JobRow(t.job)] + ExecPart(t))
  {
  }

  lemma TailsClimb(t: Target, m: int, toDead: bool, h: Hash)
    ensures StrictlyClimbs([LeaseRow(t.job), StatRow(t.queue, m), ShardRow(t.queue, t.shard), OutboxLock(h(t.project))])
    ensures StrictlyClimbs([LeaseRow(t.job), StatRow(t.queue, m), DeadLetterRow(t.job), ShardRow(t.queue, t.shard),
        OutboxLock(h(t.project))])
  {
  }

  lemma ReportsClimb(t: Target, m: int, toDead: bool, h: Hash)
    ensures StrictlyClimbs(Program(Succeeding(t, m), h))
    ensures StrictlyClimbs(Program(Failing(t, m, toDead), h))
  {
    HeadClimbs(t);
    TailsClimb(t, m, toDead, h);
    hide StrictlyClimbs;
    var head := [JobRow(t.job)] + ExecPart(t);
    var plain := [LeaseRow(t.job), StatRow(t.queue, m), ShardRow(t.queue, t.shard), OutboxLock(h(t.project))];
    var toBox := [LeaseRow(t.job), StatRow(t.queue, m), DeadLetterRow(t.job), ShardRow(t.queue, t.shard),
        OutboxLock(h(t.project))];
    ClimbOn(head, plain);
    ClimbOn(head, toBox);
    assert head + plain == Program(Succeeding(t, m), h);
    assert (if toDead then head + toBox else head + plain) == Program(Failing(t, m, toDead), h);
  }

  lemma StopsClimb(t: Target, held: bool, h: Hash)
    ensures StrictlyClimbs(Program(Snoozing(t), h))
    ensures StrictlyClimbs(Program(Cancelling(t, held), h))
  {
    var head := [JobRow(t.job)] + ExecPart(t);
    HeadClimbs(t);
    var rest := [LeaseRow(t.job), ShardRow(t.queue, t.shard), OutboxLock(h(t.project))];
    ClimbOn(head, rest);
    assert head + rest == Program(Snoozing(t), h);
    if held { assert head + rest == Program(Cancelling(t, held), h); }
  }

  /** Every procedure takes its locks upwards; only the probing admission touches a row twice. */
  lemma ProgramsClimb(p: Procedure, h: Hash)
    ensures Climbs(Program(p, h))
  {
    var r := Program(p, h);
    hide ExecPart;
    match p
    case Succeeding(t, m) => hide Program; ReportsClimb(t, m, false, h);
    case Failing(t, m, toDead) => hide Program; ReportsClimb(t, m, toDead, h);
    case Snoozing(t) => hide Program; StopsClimb(t, false, h);
    case Cancelling(t, held) => hide Program; StopsClimb(t, held, h);
    case Admitting(q, s, probing) => if probing { assert r[2] == r[0] && r[0] in r[..2]; }
  }

  /** Held rows are held by one transaction, and every transaction runs one of the programs. */
  predicate Sound(w: World) {
    && (forall t :: t in w ==> Climbs(w[t].program) && w[t].at <= |w[t].program|)
    && (forall t, u :: t in w && u in w && t != u ==> Held(w[t]) !! Held(w[u]))
  }

  lemma HeldGrows(t: Tx)
    requires t.at < |t.program|
    ensures Held(t.(at := t.at + 1)) == Held(t) + {t.program[t.at]}
  {
  }

  lemma HeldNone(p: seq<Resource>)
    ensures Held(Tx(p, 0)) == {}
  {
  }

  lemma MoveKeepsSound(w: World, m: Move, h: Hash)
    requires Sound(w)
    ensures Sound(Next(w, m, h))
  {
    hide Program, Climbs, Held;
    match m
    case Begin(t, p) =>
      ProgramsClimb(p, h);
      HeldNone(Program(p, h));
    case Acquire(t) =>
      if t in w && w[t].at < |w[t].program| {
        HeldGrows(w[t]);
      }
    case End(t) =>
  }

  lemma {:induction false} HistoryStaysSound(ws: seq<World>, ms: seq<Move>, h: Hash, i: nat)
    requires IsHistory(ws, ms, h) && ws[0] == map[] && i < |ws|
    ensures Sound(ws[i])
  {
    if i > 0 {
      HistoryStaysSound(ws, ms, h, i - 1);
      hide Sound, Next;
      MoveKeepsSound(ws[i - 1], ms[i - 1], h);
    }
  }

  /** A transaction that waits wants a row above every row it holds. */
  lemma WaitsAbove(w: World, t: TxId, u: TxId, r: Resource)
    requires Sound(w) && Waits(w, t, u) && r in Held(w[t])
    ensures Rank(r) < Rank(Wanted(w, t))
  {
    var x := w[t];
    var i :| 0 <= i < |x.program| && i < x.at && x.program[i] == r;
    assert Climbs(x.program) && Held(x) !! Held(w[u]);
    forall k | 0 <= k < x.at ensures x.program[k] != x.program[x.at] {
      assert x.program[k] in Held(x);
    }
  }

  /** Along a chain of waits the wanted rows climb. */
  lemma {:induction false} ChainClimbs(w: World, ts: seq<TxId>, i: nat)
    requires Sound(w) && 0 < i < |ts| - 1
    requires forall k :: 0 <= k < |ts| - 1 ==> Waits(w, ts[k], ts[k + 1])
    ensures Waits(w, ts[0], ts[1]) && Waits(w, ts[i], ts[i + 1]) && Rank(Wanted(w, ts[0])) < Rank(Wanted(w, ts[i]))
  {
    hide Sound;
    assert Waits(w, ts[i - 1], ts[i]) && Waits(w, ts[i], ts[i + 1]);
    WaitsAbove(w, ts[i], ts[i + 1], Wanted(w, ts[i - 1]));
    if i > 1 {
      ChainClimbs(w, ts, i - 1);
    }
  }

  /** In no reachable state do transactions wait in a circle. */
  lemma NoDeadlock(ws: seq<World>, ms: seq<Move>, h: Hash, i: nat, ts: seq<TxId>)
    requires IsHistory(ws, ms, h) && ws[0] == map[] && i < |ws|
    ensures !Circle(ws[i], ts)
  {
    HistoryStaysSound(ws, ms, h, i);
    var w := ws[i];
    hide IsHistory, Sound;
    if |ts| >= 2 && ts[0] == ts[|ts| - 1] && forall k :: 0 <= k < |ts| - 1 ==> Waits(w, ts[k], ts[k + 1]) {
      var n := |ts| - 2;
      assert Waits(w, ts[n], ts[n + 1]);
      if n > 0 {
        ChainClimbs(w, ts, n);
        WaitsAbove(w, ts[0], ts[1], Wanted(w, ts[n]));
      }
      assert false;
    }
  }
}
