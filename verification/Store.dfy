/** The procedures as they run: tables updated statement by statement.  Each method is proved to
    take the database exactly where the transaction of the same name in module Transactions
    takes it, so everything proved there about transactions and runs holds of this code. */
module Store {
  import opened Schema
  import opened Transactions
  import opened Rows
  import A = Admission
  import Graph
  import Batch
  import Slots
  import Query
  import opened Selects
  import opened Breakers
  import Fencing
  import Protocol
  import Effects

  /** What a caller gets back from one report per id: how many found their job. */
  function FailEach(s: Db, ids: seq<JobId>, backoff: Time, now: Time): Db {
    if ids == [] then s
    else Fail(FailEach(s, ids[..|ids| - 1], backoff, now), ids[|ids| - 1], None, Lost, false, backoff, now)
  }

  function CountFailed(s: Db, ids: seq<JobId>, backoff: Time, now: Time): nat {
    if ids == [] then 0
    else
      CountFailed(s, ids[..|ids| - 1], backoff, now)
      + if Failable(FailEach(s, ids[..|ids| - 1], backoff, now), ids[|ids| - 1], None) then 1 else 0
  }

  /** Each report is a step of the reaper in the protocol. */
  lemma ReapIsSteps(s: Db, ids: seq<JobId>, j: JobId, backoff: Time, now: Time)
    ensures FailEach(s, [], backoff, now) == s
    ensures FailEach(s, ids + [j], backoff, now) ==
        Protocol.Apply(FailEach(s, ids, backoff, now), Protocol.DoReap(j, backoff), now)
  {
    assert (ids + [j])[..|ids|] == ids;
    hide Fail, Protocol.Apply;
    ReapStep(FailEach(s, ids, backoff, now), j, backoff, now);
  }

  lemma ReapStep(s: Db, j: JobId, backoff: Time, now: Time)
    ensures Protocol.Apply(s, Protocol.DoReap(j, backoff), now) == Fail(s, j, None, Lost, false, backoff, now)
  {
    hide Fail;
  }

  /** A closed breaker grants the most that fits on the picked shard. */
  ghost predicate GrantsMost(row: A.Queue, want: int, pick: Option<nat>, c: A.Clock, slots: int) {
    !row.paused && row.breaker.Closed? && pick.Some? && pick.value < |row.shards| ==>
      && slots >= 0 && (slots > 0 ==> A.Fits(row, pick.value, want, slots, c.slots))
      && forall n :: n >= 1 && A.Fits(row, pick.value, want, n, c.slots) ==> n <= slots
  }

  lemma MostGranted(row: A.Queue, want: int, pick: Option<nat>, c: A.Clock)
    ensures GrantsMost(row, want, pick, c, A.Admit(row, want, pick, c).slots)
  {
    if !row.paused && row.breaker.Closed? && pick.Some? && pick.value < |row.shards| {
      A.AdmitGrantsMost(row, want, pick.value, c);
    }
    hide A.Admit, A.Fits;
  }

  lemma EventsStep(topic: Topic, ids: set<JobId>, j: JobId, jobs: map<JobId, Job>)
    requires j in ids && j in jobs
    ensures EventsOf(topic, ids, jobs) == EventsOf(topic, ids - {j}, jobs) + multiset{Event(topic, j, jobs[j].project)}
  {
    Batch.EventsJoin(topic, ids - {j}, {j}, jobs);
    Batch.OneEvent(topic, j, jobs);
    assert ids - {j} + {j} == ids;
  }

  class Database {
    var jobs: map<JobId, Job>
    var execs: map<ExecId, Exec>
    var leases: map<JobId, Lease>
    var edges: set<(JobId, JobId)>
    var queues: map<QueueId, A.Queue>
    var grants: seq<Grant>
    var stats: map<(QueueId, int), Stat>
    var dead: map<JobId, DeadRow>
    var events: multiset<Event>
    var fenced: set<(JobId, int)>
    var clock: Time

    function Snapshot(): Db
      reads this
    {
      Db(jobs, execs, leases, edges, queues, grants, stats, dead, events, fenced, clock)
    }

    constructor (s: Db)
      ensures Snapshot() == s
    {
      jobs, execs, leases, edges, queues, grants := s.jobs, s.execs, s.leases, s.edges, s.queues, s.grants;
      stats, dead, events, fenced, clock := s.stats, s.dead, s.events, s.fenced, s.clock;
    }

    // -------------------------------------------------------------- shared statements

    /** fl.emit, with the id and the lock left to module Outbox. */
    method Emit(topic: Topic, entity: JobId, project: ProjectId)
      modifies this`events
      ensures events == old(events) + multiset{Event(topic, entity, project)}
    {
      events := events + multiset{Event(topic, entity, project)};
    }

    method EmitAll(topic: Topic, ids: set<JobId>)
      requires ids <= jobs.Keys
      modifies this`events
      ensures events == old(events) + EventsOf(topic, ids, jobs)
    {
      var todo := ids;
      while todo != {}
        invariant todo <= ids
        invariant events + EventsOf(topic, todo, jobs) == old(events) + EventsOf(topic, ids, jobs)
        decreases |todo|
      {
        var j :| j in todo;
        EventsStep(topic, todo, j, jobs);
        hide EventsOf;
        Emit(topic, j, jobs[j].project);
        todo := todo - {j};
      }
      assert EventsOf(topic, {}, jobs) == multiset{};
    }

    /** fl.queue_release */
    method QueueRelease(q: QueueId, sh: nat, n: int)
      modifies this`queues
      ensures queues == ReleaseSlots(old(queues), q, sh, n)
    {
      if q in queues && sh < |queues[q].shards| {
        var row := queues[q].shards[sh];
        row := row.(inFlight := Max(row.inFlight - n, 0));
        queues := queues[q := queues[q].(shards := queues[q].shards[sh := row])];
      }
    }

    /** The lease goes, and the minute's statistics take the outcome in. */
    method DropLease(job: JobId, q: QueueId, minute: int, d: Stat)
      modifies this`leases, this`stats
      ensures leases == old(leases) - {job} && stats == Count(old(stats), q, minute, d)
    {
      leases := leases - {job};
      if (q, minute) in stats {
        stats := stats[(q, minute) := AddStats(stats[(q, minute)], d)];
      } else {
        stats := stats[(q, minute) := d];
      }
    }

    /** One parent of c is done. */
    method VisitChild(c: JobId, now: Time) returns (awake: set<JobId>)
      requires c in jobs
      modifies this`jobs
      ensures jobs == old(jobs)[c := OneLess(old(jobs)[c], now)]
      ensures awake == Wakes(c, old(jobs)[c], now)
    {
      awake := {};
      var row := jobs[c];
      if row.status.Scheduled? && row.pendingDeps > 0 {
        row := row.(pendingDeps := row.pendingDeps - 1);
        if row.pendingDeps == 0 && row.runAt <= now {
          row := row.(status := Queued);
          awake := {c};
        }
      }
      jobs := jobs[c := row];
    }

    /** fl.finish_dependents: visits the children one by one and returns those it put on the queue. */
    method FinishDependentsOf(parent: JobId, now: Time) returns (woke: set<JobId>)
      modifies this`jobs
      ensures jobs == FinishDependents(old(jobs), edges, parent, now)
      ensures woke == Woken(old(jobs), edges, parent, now)
      ensures woke <= jobs.Keys
    {
      woke := {};
      var todo := ChildrenIn(jobs, edges, parent);
      ghost var seen: set<JobId> := {};
      ghost var was, children := jobs, todo;
      FinishNone(jobs, now);
      FinishAll(was, edges, parent, now);
      hide ChildrenIn, FinishSome, WokenAmong, OneLess, Wakes, FinishDependents, Woken;
      while todo != {}
        invariant seen + todo == children && seen !! todo
        invariant jobs == FinishSome(was, seen, now) && woke == WokenAmong(was, seen, now)
        decreases |todo|
      {
        var c :| c in todo;
        FinishMore(was, seen, c, now);
        var awake := VisitChild(c, now);
        woke := woke + awake;
        seen, todo := seen + {c}, todo - {c};
      }
      assert seen == children;
    }

    /** fl.cancel_descendants, over the rows its recursive query found. */
    method CancelDescendantsOf(root: JobId, now: Time) returns (killed: set<JobId>)
      modifies this`jobs
      ensures jobs == CancelDescendants(old(jobs), edges, root, now)
      ensures killed == Killed(old(jobs), edges, root)
      ensures killed <= jobs.Keys
    {
      killed := {};
      var todo := Graph.Descendants(edges, root);
      ghost var seen: set<JobId> := {};
      ghost var was, tree := jobs, todo;
      KillNone(jobs, now);
      KillAll(jobs, edges, root, now);
      hide Graph.Descendants, KillSome, IdleAmong, CancelDescendants, Killed;
      while todo != {}
        invariant seen + todo == tree && seen !! todo
        invariant jobs == KillSome(was, seen, now) && killed == IdleAmong(was, seen)
        decreases |todo|
      {
        var c :| c in todo;
        KillMore(was, seen, c, now);
        var gone := VisitDescendant(c, now);
        killed := killed + gone;
        seen, todo := seen + {c}, todo - {c};
      }
      assert seen == tree;
    }

    method VisitDescendant(c: JobId, now: Time) returns (gone: set<JobId>)
      modifies this`jobs
      ensures jobs == KillOne(old(jobs), c, now)
      ensures gone == IdleOne(old(jobs), c)
    {
      gone := {};
      if c in jobs && Idle(jobs[c].status) {
        jobs := jobs[c := jobs[c].(status := Cancelled, finishedAt := Some(now), pendingDeps := 0, worker := None)];
        gone := {c};
      }
    }

    method CancelKin(isDead: bool, root: JobId, now: Time) returns (killed: set<JobId>)
      modifies this`jobs
      ensures jobs == KinCancelled(isDead, old(jobs), edges, root, now)
      ensures killed == KinKilled(isDead, old(jobs), edges, root)
      ensures killed <= jobs.Keys
    {
      hide CancelDescendants, Killed;
      killed := {};
      if isDead { killed := CancelDescendantsOf(root, now); }
    }

    method Vacate(job: JobId, j: Job, isDead: bool, outcome: Outcome, reason: Reason, now: Time)
      modifies this`execs, this`leases, this`stats, this`dead, this`queues
      ensures execs == CloseOfJob(old(execs), job, outcome, now)
      ensures leases == old(leases) - {job} && stats == Count(old(stats), j.queue, Minute(now), FailTally(isDead))
      ensures dead == WithDeadLetter(isDead, old(dead), job, DeadRow(j.queue, j.project, reason, now, None))
      ensures queues == ReleaseSlots(old(queues), j.queue, j.shard, 1)
    {
      hide ReleaseSlots, Count, CloseOfJob, Minute, FailTally, WithDeadLetter;
      execs := CloseOfJob(execs, job, outcome, now);
      DropLease(job, j.queue, Minute(now), FailTally(isDead));
      InsertDeadLetter(isDead, job, DeadRow(j.queue, j.project, reason, now, None));
      QueueRelease(j.queue, j.shard, 1);
    }

    /** A row that is already there stays as it is. */
    method InsertDeadLetter(isDead: bool, job: JobId, row: DeadRow)
      modifies this`dead
      ensures dead == WithDeadLetter(isDead, old(dead), job, row)
    {
      if isDead && job !in dead { dead := dead[job := row]; }
    }

    // -------------------------------------------------------------- reports

    method ReportSuccess(job: JobId, fence: int, exec: ExecId, now: Time) returns (queue: Option<QueueId>)
      modifies this
      ensures Snapshot() == Complete(old(Snapshot()), job, fence, exec, now)
      ensures queue.Some? <==> HeldAs(old(Snapshot()), job, fence, Running)
      ensures queue.Some? ==> queue.value == old(jobs)[job].queue
    {
      hide Complete;
      if job !in jobs || jobs[job].fence != fence || !jobs[job].status.Running? {
        CompleteMisses(Snapshot(), job, fence, exec, now);
        return None;
      }
      queue := Some(jobs[job].queue);
      CompleteHeld(job, fence, exec, now);
    }

    /** The statements after the guard. */
    method CompleteHeld(job: JobId, fence: int, exec: ExecId, now: Time)
      requires HeldAs(Snapshot(), job, fence, Running)
      modifies this
      ensures Snapshot() == Complete(old(Snapshot()), job, fence, exec, now)
    {
      ghost var s := Snapshot();
      hide Complete, CompleteRow, FinishDependents, Woken, EventsOf, ReleaseSlots, Count, CloseById, DurationOf, Minute;
      var j := jobs[job];
      hide HeldAs;
      var dur, woke := CloseAndWake(job, j, exec, now);
      VacateDone(job, j, Stat(1, 0, 0, dur), now);
      EmitAll(JobQueued, woke);
      Emit(JobCompleted, job, j.project);
      CompleteHits(s, Snapshot(), job, fence, exec, now);
    }

    method CloseAndWake(job: JobId, j: Job, exec: ExecId, now: Time) returns (dur: int, woke: set<JobId>)
      modifies this`jobs, this`execs
      ensures jobs == FinishDependents(old(jobs)[job := CompleteRow(j, now)], edges, job, now)
      ensures woke == Woken(old(jobs)[job := CompleteRow(j, now)], edges, job, now) && woke <= jobs.Keys
      ensures execs == CloseById(old(execs), exec, Success, now) && dur == DurationOf(old(execs), exec, now)
    {
      hide CompleteRow, FinishDependents, Woken, CloseById, DurationOf;
      jobs := jobs[job := CompleteRow(j, now)];
      dur := DurationOf(execs, exec, now);
      execs := CloseById(execs, exec, Success, now);
      woke := FinishDependentsOf(job, now);
    }

    method VacateDone(job: JobId, j: Job, d: Stat, now: Time)
      modifies this`leases, this`stats, this`queues
      ensures leases == old(leases) - {job} && stats == Count(old(stats), j.queue, Minute(now), d)
      ensures queues == ReleaseSlots(old(queues), j.queue, j.shard, 1)
    {
      hide ReleaseSlots, Count, Minute;
      DropLease(job, j.queue, Minute(now), d);
      QueueRelease(j.queue, j.shard, 1);
    }

    method ReportFailure(job: JobId, fence: Option<int>, outcome: Outcome, permanent: bool, backoff: Time, now: Time)
      returns (queue: Option<QueueId>)
      modifies this
      ensures Snapshot() == Fail(old(Snapshot()), job, fence, outcome, permanent, backoff, now)
      ensures queue.Some? <==> Failable(old(Snapshot()), job, fence)
      ensures queue.Some? ==> queue.value == old(jobs)[job].queue
      ensures queue.Some? ==>
        var j := old(jobs)[job];
        job in jobs && if permanent || j.attempts >= j.policy.maxAttempts then jobs[job].status == DeadLetter
                       else jobs[job].status == RetryWait && jobs[job].runAt == now + backoff
    {
      Effects.FailureDecides(Snapshot(), job, fence, outcome, permanent, backoff, now);
      hide Fail;
      if job !in jobs || !(jobs[job].status.Claimed? || jobs[job].status.Running?)
        || (fence.Some? && jobs[job].fence != fence.value)
      {
        FailMisses(Snapshot(), job, fence, outcome, permanent, backoff, now);
        return None;
      }
      queue := Some(jobs[job].queue);
      FailHeld(job, fence, outcome, permanent, backoff, now);
    }

    method FailHeld(job: JobId, fence: Option<int>, outcome: Outcome, permanent: bool, backoff: Time, now: Time)
      requires Failable(Snapshot(), job, fence)
      modifies this
      ensures Snapshot() == Fail(old(Snapshot()), job, fence, outcome, permanent, backoff, now)
    {
      ghost var s := Snapshot();
      hide Fail, FailRow, Exhausted, EventsOf, ReleaseSlots, Count, CloseOfJob, Minute, DeadReason;
      hide KinCancelled, KinKilled, FailTally, FailTopic, WithDeadLetter;
      var j := jobs[job];
      hide Failable;
      var isDead := Exhausted(j, permanent);
      jobs := jobs[job := FailRow(j, permanent, backoff, now)];
      var killed := CancelKin(isDead, job, now);
      Vacate(job, j, isDead, outcome, DeadReason(permanent, outcome), now);
      EmitAll(JobCancelled(true), killed);
      Emit(FailTopic(isDead, outcome), job, j.project);
      FailHits(s, Snapshot(), job, fence, outcome, permanent, backoff, now);
    }

    method ReportSnooze(job: JobId, fence: Option<int>, exec: ExecId, delay: Time, now: Time)
        returns (queue: Option<QueueId>)
      modifies this
      ensures Snapshot() == Snooze(old(Snapshot()), job, fence, exec, delay, now)
      ensures queue.Some? <==> Snoozable(old(Snapshot()), job, fence, delay, now)
      ensures queue.Some? ==> queue.value == old(jobs)[job].queue
    {
      ghost var s := Snapshot();
      hide Snooze, ReleaseSlots, CloseById;
      if job !in jobs || !jobs[job].status.Running? || (fence.Some? && jobs[job].fence != fence.value)
         || jobs[job].snoozes >= jobs[job].policy.maxAttempts {
        SnoozeMisses(s, job, fence, exec, delay, now);
        return None;
      }
      var j := jobs[job];
      if now + MaxR(MinR(delay, j.policy.maxDelay), 0.0) <= j.createdAt {
        // jobs_scheduled_deps_or_future aborts the update
        SnoozeMisses(s, job, fence, exec, delay, now);
        return None;
      }
      assert Snoozable(s, job, fence, delay, now);
      hide SnoozeRow, Snoozable;
      jobs := jobs[job := SnoozeRow(j, delay, now)];
      execs := CloseById(execs, exec, Snoozed, now);
      leases := leases - {job};
      QueueRelease(j.queue, j.shard, 1);
      Emit(JobSnoozed, job, j.project);
      queue := Some(j.queue);
      SnoozeHits(s, Snapshot(), job, fence, exec, delay, now);
    }

    /** expiredSQL: the held jobs whose lease has run out, the longest expired first. */
    method ScanExpired(limit: nat, now: Time) returns (ids: seq<JobId>)
      ensures Query.FirstRows(ExpiredIn(Snapshot(), now), EndsFirst(leases), limit, ids)
      ensures TookOverdue(jobs, leases, limit, ids, now)
    {
      RankingByLease(leases);
      hide ExpiredIn, EndsFirst, Query.FirstRows, TookOverdue;
      ids := Query.Select(ExpiredIn(Snapshot(), now), EndsFirst(leases), limit);
      ScanTakes(Snapshot(), limit, ids, now);
    }

    /** Reap, after its scan: the ids may be out of date by now, and each is reported on its own. */
    method Reap(ids: seq<JobId>, backoff: Time, now: Time) returns (reaped: nat)
      modifies this
      ensures Snapshot() == FailEach(old(Snapshot()), ids, backoff, now)
      ensures reaped == CountFailed(old(Snapshot()), ids, backoff, now)
    {
      hide Fail, Failable;
      reaped := 0;
      for i := 0 to |ids|
        invariant Snapshot() == FailEach(old(Snapshot()), ids[..i], backoff, now)
        invariant reaped == CountFailed(old(Snapshot()), ids[..i], backoff, now)
      {
        assert ids[..i + 1][..i] == ids[..i];
        var queue := ReportFailure(ids[i], None, Lost, false, backoff, now);
        if queue.Some? { reaped := reaped + 1; }
      }
      assert ids[..|ids|] == ids;
    }

    /** Reap with nothing else going on: every report finds its job still held. */
    method ReapSweep(limit: nat, backoff: Time, now: Time) returns (reaped: nat, ghost ids: seq<JobId>)
      modifies this
      ensures TookOverdue(old(jobs), old(leases), limit, ids, now)
      ensures Snapshot() == FailEach(old(Snapshot()), ids, backoff, now)
      ensures reaped == |ids|
    {
      var found := ScanExpired(limit, now);
      ids := found;
      AllFound(Snapshot(), EndsFirst(leases), limit, ids, backoff, now);
      hide ExpiredIn, EndsFirst, Query.FirstRows, FailEach, CountFailed, TookOverdue;
      reaped := Reap(found, backoff, now);
    }

    // -------------------------------------------------------------- admission and claiming

    /** fl.queue_admit, on the shard its unlocked query chose. */
    method QueueAdmit(q: QueueId, want: int, pick: Option<nat>, c: A.Clock) returns (slots: int, shard: nat)
      modifies this`queues, this`grants
      ensures Snapshot() == AdmitTo(old(Snapshot()), q, want, pick, c)
      ensures q in old(queues) ==>
          var r := A.Admit(old(queues)[q], want, pick, c); slots == r.slots && (slots > 0 ==> shard == r.shard)
      ensures q !in old(queues) ==> slots == 0
      ensures q in old(queues) ==> GrantsMost(old(queues)[q], want, pick, c, slots)
    {
      slots, shard := 0, 0;
      if q !in queues { return; }
      ghost var s := Snapshot();
      MostGranted(queues[q], want, pick, c);
      hide AdmitTo, A.Admit, GrantsMost;
      var r: A.Queue;
      r, slots, shard := AdmitRow(queues[q], want, pick, c);
      queues := queues[q := r];
      if slots > 0 { grants := grants + [Grant(q, shard, slots, false)]; }
      AdmitHits(s, Snapshot(), q, want, pick, c);
    }

    /** The body of the function, on its queue row and shard rows. */
    static method AdmitRow(row: A.Queue, asked: int, pick: Option<nat>, c: A.Clock)
        returns (q: A.Queue, slots: int, shard: nat)
      ensures var r := A.Admit(row, asked, pick, c); q == r.queue && slots == r.slots && shard == r.shard
    {
      q, slots, shard := row, 0, 0;
      if q.paused { return; }
      var want, probing := asked, !row.breaker.Closed?;
      if probing {
        if q.breaker.Open? {
          if q.openUntil.Some? && q.openUntil.value > c.breaker { return; }
          q := q.(breaker := A.HalfOpen, probeBudget := 1);
        }
        if q.probeBudget <= 0 { return; }
        want := 1;
      }
      if pick.None? || pick.value >= |q.shards| { return; }
      shard := pick.value;
      slots := RoomOn(q, shard, want, c);
      hide A.Allowed, A.TakeSlots;
      if slots <= 0 {
        slots := 0;
        return;
      }
      q := Occupy(q, shard, slots, c);
      if probing { q := q.(probeBudget := q.probeBudget - slots); }
    }

    /** What has dripped into the bucket by time t, capped at the shard's share of the burst. */
    static method LevelOf(sr: A.Shard, share: real, rate: real, t: Time) returns (level: real)
      ensures level == A.Refilled(sr, share, rate, t)
    {
      level := sr.tokens + (t - sr.refilledAt) * rate;
      if share < level { level := share; }
    }

    /** The locked shard row against its share of the cap and its bucket. */
    static method RoomOn(q: A.Queue, shard: nat, want: int, c: A.Clock) returns (slots: int)
      requires shard < |q.shards|
      ensures slots == A.Allowed(q, shard, want, c)
    {
      hide A.Refilled;
      var sr, k := q.shards[shard], |q.shards|;
      var cap := q.maxConcurrency / k;
      if shard < q.maxConcurrency % k { cap := cap + 1; }
      var room := cap - sr.inFlight;
      if room < 0 { room := 0; }
      slots := want;
      if room < slots { slots := room; }
      if q.limit != 0.0 {
        var level := LevelOf(sr, q.burst / k as real, q.limit / k as real, c.slots);
        if level.Floor < slots { slots := level.Floor; }
      }
    }

    static method Occupy(q: A.Queue, shard: nat, n: int, c: A.Clock) returns (r: A.Queue)
      requires shard < |q.shards|
      ensures r == A.TakeSlots(q, shard, n, c)
    {
      hide A.Refilled;
      var sr, k := q.shards[shard], |q.shards|;
      if q.limit != 0.0 {
        var level := LevelOf(sr, q.burst / k as real, q.limit / k as real, c.tokens);
        sr := sr.(tokens := level - n as real, refilledAt := c.refill);
      }
      sr := sr.(inFlight := sr.inFlight + n);
      r := q.(shards := q.shards[shard := sr]);
    }

    /** The candidates of claimSQL: the due queued jobs of the queue, the most urgent first, past those
        that are locked or of a type that was not asked for. */
    method PickJobs(q: QueueId, n: nat, passed: set<JobId>, priority: JobId -> int, now: Time) returns (ids: seq<JobId>)
      ensures Query.FirstRows(Candidates(jobs, q, now) - passed, Urgent(jobs, priority), n, ids)
    {
      RankingByUrgency(jobs, priority);
      hide Candidates, Urgent;
      ids := Query.Select(Candidates(jobs, q, now) - passed, Urgent(jobs, priority), n);
    }

    /** take: claim the rows one by one, write their leases, return the slots that found no job. */
    method TakeJobs(g: nat, ids: set<JobId>, worker: WorkerId, lease: Time, now: Time) returns (out: seq<(JobId, int)>)
      requires LiveGrant(Snapshot(), g) && Claimable(Snapshot(), g, ids, now) && Counted(queues)
      modifies this
      ensures Snapshot() == Take(old(Snapshot()), g, ids, worker, lease, now)
      ensures Receipts(out, old(jobs), ids)
    {
      ghost var s := Snapshot();
      var gr := grants[g];
      out := ClaimRows(ids, gr.shard, worker, lease, now);
      hide Take, ReleaseSlots, ClaimSome, LeaseSome;
      if |out| < gr.n {
        QueueRelease(gr.queue, gr.shard, gr.n - |out|);
      } else {
        ReleaseNothing(queues, gr.queue, gr.shard);
      }
      grants := grants[g := gr.(n := 0)];
      TakeHits(s, Snapshot(), g, ids, worker, lease, now);
    }

    method ClaimOne(j: JobId, shard: nat, worker: WorkerId, lease: Time, now: Time) returns (fence: int)
      requires j in jobs
      modifies this`jobs, this`leases
      ensures jobs == old(jobs)[j := ClaimRow(old(jobs)[j], shard, worker, now)]
      ensures fence == old(jobs)[j].fence + 1 && leases == old(leases)[j := Lease(fence, worker, now + lease)]
    {
      fence := jobs[j].fence + 1;
      jobs := jobs[j := ClaimRow(jobs[j], shard, worker, now)];
      leases := leases[j := Lease(fence, worker, now + lease)];
    }

    method ClaimRows(ids: set<JobId>, shard: nat, worker: WorkerId, lease: Time, now: Time)
        returns (out: seq<(JobId, int)>)
      requires ids <= jobs.Keys
      modifies this`jobs, this`leases
      ensures jobs == ClaimSome(old(jobs), ids, shard, worker, now)
      ensures leases == LeaseSome(old(leases), old(jobs), ids, worker, now + lease)
      ensures Receipts(out, old(jobs), ids)
    {
      hide ClaimSome, LeaseSome, ClaimRow, Receipts;
      out := [];
      var todo := ids;
      ghost var seen: set<JobId> := {};
      ghost var was, had := jobs, leases;
      ClaimNone(jobs, leases, shard, worker, now, now + lease);
      while todo != {}
        invariant seen + todo == ids && seen !! todo && Receipts(out, was, seen)
        invariant jobs == ClaimSome(was, seen, shard, worker, now)
            && leases == LeaseSome(had, was, seen, worker, now + lease)
        decreases |todo|
      {
        var j :| j in todo;
        ClaimMore(was, had, seen, j, shard, worker, now, now + lease);
        ReceiptsMore(out, was, seen, j);
        var fence := ClaimOne(j, shard, worker, lease, now);
        out := out + [(j, fence)];
        seen, todo := seen + {j}, todo - {j};
      }
      assert seen == ids;
    }

    /** Claim: admission and claim are two transactions; when the second fails, its slots go back. */
    method Claim(q: QueueId, want: int, pick: Option<nat>, c: A.Clock, passed: set<JobId>, priority: JobId -> int,
                 fails: bool, worker: WorkerId, lease: Time, now: Time)
      returns (out: seq<(JobId, int)>, ghost picked: seq<JobId>)
      requires Counted(queues)
      modifies this
      ensures var s := AdmitTo(old(Snapshot()), q, want, pick, c);
              var g := |old(grants)|;
              if |s.grants| == g then Snapshot() == s && out == []
              else if fails then Snapshot() == GiveBack(s, g) && out == []
              else
                && |s.grants| == g + 1 && Claimable(s, g, IdsOf(picked), now)
                && Query.FirstRows(Candidates(s.jobs, q, now) - passed, Urgent(s.jobs, priority), s.grants[g].n, picked)
                && Snapshot() == Take(s, g, IdsOf(picked), worker, lease, now) && Receipts(out, s.jobs, IdsOf(picked))
                && TookMostUrgent(old(jobs), q, passed, priority, now, s.grants[g].n, out)
    {
      ghost var s0 := Snapshot();
      var n, shard := QueueAdmit(q, want, pick, c);
      out, picked := [], [];
      AdmitGrants(s0, q, want, pick, c);
      hide AdmitTo, A.Admit, Take, GiveBack, Claimable, Receipts, Candidates, Urgent, Query.FirstRows, IdsOf,
          TookMostUrgent;
      if n <= 0 { return; }
      var g := |grants| - 1;
      if fails {
        GiveBackHits(Snapshot(), g);
        QueueRelease(q, shard, n);
        grants := grants[g := grants[g].(n := 0)];
        return;
      }
      out, picked := TakeUrgent(g, q, n, passed, priority, worker, lease, now);
    }

    method TakeUrgent(g: nat, q: QueueId, n: nat, passed: set<JobId>, priority: JobId -> int,
                      worker: WorkerId, lease: Time, now: Time)
      returns (out: seq<(JobId, int)>, ghost picked: seq<JobId>)
      requires Counted(queues) && LiveGrant(Snapshot(), g) && grants[g].queue == q && grants[g].n == n
      modifies this
      ensures Claimable(old(Snapshot()), g, IdsOf(picked), now)
      ensures Query.FirstRows(Candidates(old(jobs), q, now) - passed, Urgent(old(jobs), priority), n, picked)
      ensures Snapshot() == Take(old(Snapshot()), g, IdsOf(picked), worker, lease, now)
      ensures Receipts(out, old(jobs), IdsOf(picked))
      ensures TookMostUrgent(old(jobs), q, passed, priority, now, n, out)
    {
      ghost var was := jobs;
      hide Take, Claimable, Receipts, Candidates, Urgent, Query.FirstRows, IdsOf, TookMostUrgent;
      var ids := PickJobs(q, n, passed, priority, now);
      picked := ids;
      PickedIsClaimable(Snapshot(), g, passed, priority, ids, now);
      out := TakeJobs(g, IdsOf(ids), worker, lease, now);
      ReceiptsName(out, was, IdsOf(ids));
      ClaimTakes(was, q, passed, priority, now, n, ids, out);
    }

    method Start(job: JobId, fence: int, worker: WorkerId, exec: ExecId, now: Time) returns (attempt: Option<int>)
      requires exec !in execs
      modifies this`jobs, this`execs
      ensures Snapshot() == Transactions.Start(old(Snapshot()), job, fence, worker, exec, now)
      ensures attempt.None? <==> !HeldAs(old(Snapshot()), job, fence, Claimed)
      ensures attempt.Some? ==> job in jobs && attempt.value == jobs[job].attempts == old(jobs)[job].attempts + 1
      ensures attempt.Some? ==> exec in execs && execs[exec].attempt == attempt.value && execs[exec].fence == fence
    {
      if job !in jobs || jobs[job].fence != fence || !jobs[job].status.Claimed? { return None; }
      var j := jobs[job].(status := Running, startedAt := Some(now), attempts := jobs[job].attempts + 1);
      jobs := jobs[job := j];
      execs := execs[exec := Exec(job, j.queue, j.attempts, j.generation, j.fence, worker, now, None)];
      attempt := Some(j.attempts);
    }

    method ExtendLease(job: JobId, fence: int, lease: Time, now: Time) returns (fencedOff: bool)
      modifies this`leases
      ensures Snapshot() == Extend(old(Snapshot()), job, fence, lease, now)
      ensures fencedOff <==> !HeldAs(old(Snapshot()), job, fence, Running) || job !in old(leases)
    {
      fencedOff := true;
      if job in leases && job in jobs && jobs[job].fence == fence && jobs[job].status.Running? {
        var until := now + lease;
        if jobs[job].deadlineAt.Some? && jobs[job].deadlineAt.value < until { until := jobs[job].deadlineAt.value; }
        leases := leases[job := leases[job].(expiresAt := until)];
        fencedOff := false;
      }
    }

    // -------------------------------------------------------------- submission and administration

    /** The parents that still count, one lookup at a time. */
    method CountParents(parents: seq<JobId>, project: ProjectId) returns (live: set<JobId>)
      ensures live == LiveParents(jobs, parents, project)
    {
      live := {};
      for i := 0 to |parents|
        invariant live == LiveParents(jobs, parents[..i], project)
      {
        var p := parents[i];
        assert parents[..i + 1] == parents[..i] + [p];
        if p in jobs && jobs[p].project == project && !Terminal(jobs[p].status) { live := live + {p}; }
      }
      assert parents[..|parents|] == parents;
    }

    /** link: an edge for every named parent, then the cycle query, which never finds one. */
    method Link(child: JobId, parents: seq<JobId>)
      requires Graph.NoSelfEdge(edges) && child !in parents
      modifies this`edges
      ensures edges == old(edges) + EdgesTo(parents, child)
      ensures Graph.NoSelfEdge(edges) && !Graph.CycleQuery(edges, child)
    {
      for i := 0 to |parents|
        invariant edges == old(edges) + EdgesTo(parents[..i], child)
      {
        assert parents[..i + 1] == parents[..i] + [parents[i]];
        edges := edges + {(parents[i], child)};
      }
      assert parents[..|parents|] == parents;
      Graph.CycleQueryNeverFires(edges, child);
    }

    method SubmitJob(r: Submission, now: Time) returns (ok: bool)
      requires Graph.NoSelfEdge(edges)
      modifies this
      ensures Snapshot() == Submit(old(Snapshot()), r, now)
      ensures ok <==> Acceptable(old(Snapshot()), r)
      ensures Graph.NoSelfEdge(edges)
    {
      ok := Acceptable(Snapshot(), r);
      SubmitIs(Snapshot(), r, now);
      hide Graph.NoSelfEdge, Submit, Inserted, Acceptable;
      if ok { InsertJob(r, now); }
    }

    /** The statements of an accepted submission. */
    method InsertJob(r: Submission, now: Time)
      requires Graph.NoSelfEdge(edges) && r.id !in r.parents
      modifies this`jobs, this`edges, this`events
      ensures Snapshot() == Inserted(old(Snapshot()), r, now)
      ensures Graph.NoSelfEdge(edges)
    {
      hide Graph.CycleQuery, Graph.NoSelfEdge, FirstRow, EdgesTo;
      InsertRow(r, now);
      Link(r.id, r.parents);
      Emit(JobSubmitted, r.id, r.project);
    }

    method InsertRow(r: Submission, now: Time)
      modifies this`jobs
      ensures jobs == old(jobs)[r.id := FirstRow(old(Snapshot()), r, now)]
    {
      hide LiveParents, NewJob, DueAt, FirstStatus;
      var live := CountParents(r.parents, r.project);
      var runAt := DueAt(r, now);
      jobs := jobs[r.id := NewJob(Snapshot(), r, FirstStatus(|live|, runAt, now), runAt, live, now)];
    }

    /** cancelJob: an update that the check on waiting jobs refuses rolls everything back. */
    method CancelJob(job: JobId, now: Time) returns (cancelled: bool)
      modifies this
      ensures Snapshot() == Cancel(old(Snapshot()), job, now)
      ensures cancelled <==> job in old(jobs) && !Terminal(old(jobs)[job].status) && old(jobs)[job].pendingDeps == 0
    {
      hide CloseOfJob, ReleaseSlots;
      cancelled := job in jobs && !Terminal(jobs[job].status) && jobs[job].pendingDeps == 0;
      if !cancelled { return; }
      var j := jobs[job];
      jobs := jobs[job := j.(status := Cancelled, finishedAt := Some(now), worker := None)];
      if Active(j.status) {
        execs := CloseOfJob(execs, job, CancelledRun, now);
        leases := leases - {job};
        QueueRelease(j.queue, j.shard, 1);
      }
      Emit(JobCancelled(false), job, j.project);
    }

    /** Promote: pick the due rows that nobody else has locked, the longest due first, then queue and
        announce what was picked. */
    method PromoteSweep(limit: nat, locked: set<JobId>, now: Time) returns (n: nat, ghost picked: seq<JobId>)
      modifies this
      ensures Query.FirstRows(DueIn(old(Snapshot()), now) - locked, DueFirst(old(jobs)), limit, picked)
      ensures Snapshot() == Promote(old(Snapshot()), IdsOf(picked), now)
      ensures n == |picked| && Promoted(old(jobs), jobs, locked, limit, n, now)
    {
      RankingByDue(jobs);
      ghost var s := Snapshot();
      hide Promote, DueIn, DueFirst;
      var ids := Query.Select(DueIn(Snapshot(), now) - locked, DueFirst(jobs), limit);
      picked := ids;
      PickedIsDue(s, locked, limit, ids, now);
      hide IdsOf, Query.FirstRows, Promoted;
      n := PromoteDue(IdsOf(ids), now);
      PromotionTakes(s, Snapshot(), locked, limit, ids, now);
    }

    /** The update, on the rows the query locked. */
    method PromoteDue(ids: set<JobId>, now: Time) returns (n: nat)
      requires forall j :: j in ids ==> Promotable(Snapshot(), j, now)
      modifies this
      ensures Snapshot() == Promote(old(Snapshot()), ids, now)
      ensures n == |ids|
    {
      PromoteHits(Snapshot(), ids, now);
      hide EventsOf, Promote, QueueSome, Promotable;
      jobs := QueueSome(jobs, ids);
      EmitAll(JobQueued, ids);
      n := |ids|;
    }

    method RetryJob(job: JobId, now: Time) returns (ok: bool)
      modifies this
      ensures Snapshot() == Retry(old(Snapshot()), job, now)
      ensures ok <==>
          && job in old(jobs) && (old(jobs)[job].status.Scheduled? || old(jobs)[job].status.RetryWait?)
          && old(jobs)[job].pendingDeps == 0
      ensures ok ==> job in jobs && jobs[job].status.Queued? && jobs[job].runAt == now
    {
      ok := job in jobs && (jobs[job].status.Scheduled? || jobs[job].status.RetryWait?) && jobs[job].pendingDeps == 0;
      if ok {
        jobs := jobs[job := jobs[job].(status := Queued, runAt := now)];
        Emit(JobRetried, job, jobs[job].project);
      }
    }

    /** replayJob: refuses while a cancelled descendant would be revived. */
    method ReplayJob(job: JobId, now: Time) returns (ok: bool)
      modifies this
      ensures Snapshot() == Replay(old(Snapshot()), job, now)
      ensures ok <==> job in old(jobs) && old(jobs)[job].status.DeadLetter? && CancelledKin(old(Snapshot()), job) == {}
      ensures ok ==> job in jobs && jobs[job].status.Queued? && jobs[job].generation == old(jobs)[job].generation + 1
    {
      hide CancelledKin;
      ok := job in jobs && CancelledKin(Snapshot(), job) == {} && jobs[job].status.DeadLetter?;
      if !ok { return; }
      jobs := jobs[job := ReplayRow(jobs[job], now)];
      dead := MarkReplayed(dead, {job}, now);
      Emit(JobReplayed, job, jobs[job].project);
    }

    /** How many jobs of the queue may still be queued, given its depth limit. */
    method RoomIn(q: QueueId, cap: int, maxDepth: Option<int>) returns (room: nat)
      ensures RoomRight(jobs, q, cap, maxDepth, room)
    {
      var n := cap;
      if maxDepth.Some? {
        var queued := QueuedOn(jobs, q);
        if maxDepth.value - |queued| < n { n := maxDepth.value - |queued|; }
      }
      room := if n > 0 then n else 0;
    }

    /** fl.replay_dead: the longest dead first, as many as there is room for, started at the given pace. */
    method ReplayQueue(q: QueueId, cap: int, maxDepth: Option<int>, perSec: real, now: Time)
      returns (ids: seq<JobId>, ghost room: nat)
      modifies this
      ensures TookDead(old(Snapshot()), q, room, ids)
      ensures Snapshot() == ReplayDead(old(Snapshot()), Spaced(IdsOf(ids), perSec, now), now)
      ensures q in old(queues) ==> RoomRight(old(jobs), q, cap, maxDepth, room)
      ensures q !in old(queues) ==> ids == []
    {
      var n := RoomIn(q, cap, maxDepth);
      room := n;
      ghost var s := Snapshot();
      RankingByDeath(dead);
      hide DeadIn, DeadFirst, Query.FirstRows;
      if q !in queues { n, room := 0, 0; }
      ids := Query.Select(DeadIn(Snapshot(), q), DeadFirst(dead), n);
      DeadTakes(s, q, n, ids);
      hide TookDead, Spaced, ReplayDead, IdsOf, BulkReplayable, RoomRight;
      ReplayThese(ids, perSec, now);
    }

    method ReplayThese(ids: seq<JobId>, perSec: real, now: Time)
      requires forall j :: j in ids ==> BulkReplayable(Snapshot(), j)
      modifies this
      ensures Snapshot() == ReplayDead(old(Snapshot()), Spaced(IdsOf(ids), perSec, now), now)
    {
      var taken := IdsOf(ids);
      var spacing := Spaced(taken, perSec, now);
      BulkReplayHits(Snapshot(), taken, spacing, now);
      hide Spaced, ReplayDead, EventsOf, ReplaySome, IdsOf, MarkReplayed, BulkReplayable;
      jobs := ReplaySome(jobs, spacing);
      dead := MarkReplayed(dead, taken, now);
      EmitAll(JobReplayed, taken);
    }

    /** Write the counter of one shard if it is wrong. */
    method FixShard(ghost s: Db, q: QueueId, i: nat) returns (fixed: nat)
      requires jobs == s.jobs && q in queues && i < |queues[q].shards|
      modifies this`queues
      ensures queues == WithCount(old(queues), q, i, |ActiveAt(s, q, i)|)
      ensures fixed == OffBy(old(queues)[q].shards[i], |ActiveAt(s, q, i)|)
    {
      fixed := 0;
      SameActive(s, Snapshot(), q, i);
      var actual := |ActiveAt(Snapshot(), q, i)|;
      hide ActiveAt;
      if queues[q].shards[i].inFlight != actual {
        var row := queues[q].shards[i].(inFlight := actual);
        queues := queues[q := queues[q].(shards := queues[q].shards[i := row])];
        fixed := 1;
      } else {
        assert queues[q].shards[i := queues[q].shards[i]] == queues[q].shards;
      }
    }

    method FixShards(ghost s: Db) returns (fixed: nat)
      requires jobs == s.jobs && queues == s.queues
      modifies this`queues
      ensures queues == ReconciledAt(s, AllShards(s.queues)) && fixed == |WrongAt(s, AllShards(s.queues))|
    {
      hide AllShards, ReconciledShards, ReconciledAt, ActiveAt, WrongAt, WithCount, OffBy;
      fixed := 0;
      var todo := AllShards(queues);
      ghost var all, seen: set<(QueueId, nat)> := todo, {};
      ReconciledNone(s);
      while todo != {}
        invariant seen + todo == all && seen !! todo
        invariant queues == ReconciledAt(s, seen) && fixed == |WrongAt(s, seen)|
        decreases |todo|
      {
        var g :| g in todo;
        InShards(s.queues, g);
        ReconciledMore(s, seen, g.0, g.1);
        var more := FixShard(s, g.0, g.1);
        fixed := fixed + more;
        seen, todo := seen + {g}, todo - {g};
      }
      assert seen == all;
    }

    /** fl.reconcile_in_flight: shard by shard, counting the corrections. */
    method ReconcileInFlight() returns (fixed: nat)
      modifies this`queues, this`grants
      ensures Snapshot() == Reconcile(old(Snapshot()))
      ensures fixed == |Wrong(old(Snapshot()))|
    {
      hide ReconciledAt, Reconcile, WrongAt, ForgetLost, AllShards;
      ReconciledAll(Snapshot());
      fixed := FixShards(Snapshot());
      grants := ForgetLost(grants);
    }

    // -------------------------------------------------------------- queue settings and breakers

    static method HoldsSlots(rows: seq<A.Shard>) returns (held: bool)
      ensures held <==> exists i :: 0 <= i < |rows| && rows[i].inFlight > 0
    {
      for i := 0 to |rows|
        invariant forall k :: 0 <= k < i ==> rows[k].inFlight <= 0
      {
        if rows[i].inFlight > 0 { return true; }
      }
      held := false;
    }

    static method AddShards(kept: seq<A.Shard>, n: nat, blank: A.Shard) returns (rows: seq<A.Shard>)
      requires |kept| <= n
      ensures |rows| == n && forall k :: 0 <= k < n ==> rows[k] == if k < |kept| then kept[k] else blank
    {
      rows := kept;
      while |rows| < n
        invariant |kept| <= |rows| <= n
        invariant forall k :: 0 <= k < |rows| ==> rows[k] == if k < |kept| then kept[k] else blank
      {
        rows := rows + [blank];
      }
    }

    static method ClampTokens(filled: seq<A.Shard>, share: real) returns (rows: seq<A.Shard>)
      ensures |rows| == |filled| && forall k :: 0 <= k < |rows| ==> rows[k] == Clamped(filled[k], share)
    {
      rows := filled;
      for i := 0 to |filled|
        invariant |rows| == |filled|
        invariant forall k :: 0 <= k < |rows| ==> rows[k] == if k < i then Clamped(filled[k], share) else filled[k]
      {
        rows := rows[i := Clamped(rows[i], share)];
      }
    }

    /** fl.spread behind an update of the queue row: surplus shards go, missing ones are added
        with a full share of the burst, and no shard keeps more tokens than its share. */
    static method Spread(q: A.Queue, t: A.Settings, busy: bool, now: Time) returns (r: Option<A.Queue>)
      requires t.shards > 0
      ensures r == A.Configure(q, t, busy, now)
    {
      var held := HoldsSlots(q.shards);
      if t.shards != |q.shards| && (busy || held) { return None; }
      var share := t.burst / t.shards as real;
      var kept := if t.shards < |q.shards| then q.shards[..t.shards] else q.shards;
      var filled := AddShards(kept, t.shards, A.Shard(0, share, now));
      var rows := ClampTokens(filled, share);
      SpreadRows(q, t, busy, now, share, kept, filled, rows);
      hide A.Configure;
      r := Some(q.(paused := t.paused, maxConcurrency := t.maxConcurrency, limit := t.limit, burst := t.burst,
        shards := rows));
    }

    /** Breaker: the states and counts were read earlier, so every switch repeats its guard. */
    method BreakerSweep(seen: seq<Sighting>, trip: nat, until: Time) returns (changed: nat)
      modifies this`queues
      ensures Snapshot() == SwitchEach(old(Snapshot()), seen, trip, until)
      ensures changed == CountSwitched(old(Snapshot()), seen, trip, until)
    {
      hide FlipBreaker, A.Flip;
      changed := 0;
      for i := 0 to |seen|
        invariant Snapshot() == SwitchEach(old(Snapshot()), seen[..i], trip, until)
        invariant changed == CountSwitched(old(Snapshot()), seen[..i], trip, until)
      {
        assert seen[..i + 1][..i] == seen[..i];
        var n := SwitchOne(seen[i], trip, until);
        changed := changed + n;
      }
      assert seen[..|seen|] == seen;
    }

    /** What one queue shows: its state, its latest outcomes and, for a probe, the latest since its deadline. */
    method Look(q: QueueId, window: nat) returns (x: Sighting)
      requires q in queues
      ensures x.queue == q && Sights(Snapshot(), window, x)
    {
      RankingByFinish(execs);
      hide LatestFirst, FinishedOn, FinishedSince;
      var ids := Query.Select(FinishedOn(execs, q), LatestFirst(execs), window);
      var probes := Query.Select(FinishedSince(execs, q, queues[q].openUntil), LatestFirst(execs), 1);
      OutcomesAreThere(execs, q, queues[q].openUntil, LatestFirst(execs), window, ids, probes);
      var outcomes := OutcomesOf(execs, ids);
      var probe := if probes == [] then None else Some(OutcomeOf(execs, probes[0]));
      x := Sighting(q, queues[q].breaker, outcomes, probe);
      Sighted(Snapshot(), window, x, ids, probes);
    }

    method LookAtAll(window: nat) returns (seen: seq<Sighting>)
      ensures AllSighted(Snapshot(), window, seen)
    {
      hide Sights;
      seen := [];
      var todo := queues.Keys;
      while todo != {}
        invariant todo <= queues.Keys && SightedOnce(seen)
        invariant forall i :: 0 <= i < |seen| ==> Sights(Snapshot(), window, seen[i]) && seen[i].queue !in todo
        invariant forall q :: q in queues ==> q in todo || SeenIn(seen, q)
        decreases |todo|
      {
        var q :| q in todo;
        var x := Look(q, window);
        forall p | SeenIn(seen, p) ensures SeenIn(seen + [x], p) { StillSeen(seen, x, p); }
        assert (seen + [x])[|seen|] == x;
        assert SeenIn(seen + [x], q);
        seen, todo := seen + [x], todo - {q};
      }
    }

    /** Breaker, with nothing between reading and switching: every queue goes where its own state and
        outcomes send it. */
    method BreakerRound(window: nat, trip: nat, until: Time) returns (changed: nat)
      modifies this`queues
      ensures queues.Keys == old(queues).Keys
      ensures forall q :: q in old(queues) ==> RoundRight(old(Snapshot()), q, window, trip, until, queues[q])
      ensures changed == |Changed(old(Snapshot()), Snapshot())|
    {
      ghost var s := Snapshot();
      var seen := LookAtAll(window);
      RoundIsRight(s, window, seen, trip, until);
      hide AllSighted, SwitchEach, CountSwitched, RoundRight, Changed;
      changed := BreakerSweep(seen, trip, until);
    }

    method SwitchOne(x: Sighting, trip: nat, until: Time) returns (n: nat)
      modifies this`queues
      ensures Snapshot() == Switched(old(Snapshot()), x, trip, until)
      ensures n == if Switches(old(Snapshot()), x, trip) then 1 else 0
    {
      n := 0;
      var failures := CountFailures(x.window);
      if x.queue !in queues { return; }
      var q := queues[x.queue];
      if x.state.Closed? && failures >= trip && q.breaker.Closed? {
        queues := queues[x.queue := q.(breaker := A.Open, openUntil := Some(until), probeBudget := 0)];
        n := 1;
      } else if x.state.HalfOpen? && x.probe.Some? && q.breaker.HalfOpen? {
        if x.probe.value.Success? {
          queues := queues[x.queue := q.(breaker := A.Closed, openUntil := None, probeBudget := 0)];
          n := 1;
        } else if IsFailure(x.probe.value) {
          queues := queues[x.queue := q.(breaker := A.Open, openUntil := Some(until), probeBudget := 0)];
          n := 1;
        }
      }
    }

    static method CountFailures(window: seq<Outcome>) returns (n: nat)
      ensures n == Failures(window)
    {
      n := 0;
      for i := 0 to |window|
        invariant n == Failures(window[..i])
      {
        assert window[..i + 1][..i] == window[..i];
        if IsFailure(window[i]) { n := n + 1; }
      }
      assert window[..|window|] == window;
    }

    // -------------------------------------------------------------- batch completion

    /** The rows the batch update matches, each job once. */
    method MatchedOf(batch: seq<Done>) returns (m: seq<Done>)
      ensures m == Matched(Snapshot(), batch)
    {
      m := [];
      for i := 0 to |batch|
        invariant m == Matched(Snapshot(), batch[..i])
      {
        assert batch[..i + 1][..i] == batch[..i];
        var d := batch[i];
        if d.job in jobs && jobs[d.job].fence == d.fence && jobs[d.job].status.Running? && !Named(m, d.job) {
          m := m + [d];
        }
      }
      assert batch[..|batch|] == batch;
    }

    /** The lateral join: finish_dependents for one completed job after the other, in any order. */
    method FinishAllDependents(ghost s: Db, done: set<JobId>, now: Time) returns (woke: set<JobId>)
      requires edges == s.edges && jobs == AfterSome(s, done, {}, now) && RunningIn(s, done)
      modifies this`jobs
      ensures jobs == AfterDone(s, done, now)
      ensures woke == WokenByBatch(s, done, now) && woke <= jobs.Keys
    {
      woke := {};
      var todo := done;
      ghost var seen: set<JobId> := {};
      WokenSoFarNone(s, done, now);
      hide AfterSome, WokenSoFar, FinishDependents, Woken, RunningIn, AfterDone, WokenByBatch;
      while todo != {}
        invariant seen + todo == done && seen !! todo
        invariant jobs == AfterSome(s, done, seen, now) && woke == WokenSoFar(s, done, seen, now)
        decreases |todo|
      {
        var p :| p in todo;
        AfterOneMore(s, done, seen, p, now);
        var more := FinishDependentsOf(p, now);
        woke := woke + more;
        seen, todo := seen + {p}, todo - {p};
      }
      assert seen == done;
      AfterAll(s, done, now);
    }

    /** How many of the completed jobs one shard held. */
    method CountGroup(ghost s: Db, m: seq<Done>, q: QueueId, sh: nat) returns (n: int)
      requires SamePlaces(s, jobs, m)
      ensures n == OnShard(s, m, q, sh)
    {
      n := 0;
      for i := 0 to |m|
        invariant n == OnShard(s, m[..i], q, sh)
      {
        assert m[..i + 1][..i] == m[..i];
        if jobs[m[i].job].queue == q && jobs[m[i].job].shard == sh { n := n + 1; }
      }
      assert m[..|m|] == m;
    }

    /** queue_release once for every queue and shard among the completed jobs. */
    method ReleaseGroups(ghost s: Db, m: seq<Done>)
      requires queues == s.queues && SamePlaces(s, jobs, m)
      modifies this`queues
      ensures queues == GroupedRelease(s, m)
    {
      hide ReleasedAt, GroupedRelease, ReleaseSlots, SamePlaces, Groups, OnShard;
      var todo := Groups(jobs, m);
      ghost var groups, seen: set<(QueueId, nat)> := todo, {};
      ReleasedNone(s, m);
      SameGroups(s, jobs, m);
      while todo != {}
        invariant seen + todo == groups && seen !! todo
        invariant queues == ReleasedAt(s, m, seen)
        decreases |todo|
      {
        var g :| g in todo;
        var n := CountGroup(s, m, g.0, g.1);
        ReleasedMore(s, m, seen, g.0, g.1);
        QueueRelease(g.0, g.1, n);
        seen, todo := seen + {g}, todo - {g};
      }
      assert seen == groups;
      ReleasedAll(s, m);
    }

    method ReportSuccessBatch(batch: seq<Done>, now: Time) returns (done: seq<Done>)
      modifies this
      ensures Snapshot() == CompleteBatch(old(Snapshot()), batch, now)
      ensures done == Matched(old(Snapshot()), batch)
    {
      ghost var s := Snapshot();
      hide CompleteBatch, Matched;
      done := MatchedOf(batch);
      Batch.BatchIsSettle(s, batch, now);
      if done == [] {
        Batch.SettleNothing(s, now);
        return;
      }
      MatchedRunning(s, batch);
      SettleMatched(done, now);
    }

    method SettleMatched(m: seq<Done>, now: Time)
      requires Batch.AllRunning(Snapshot(), m)
      modifies this
      ensures Snapshot() == Batch.Settle(old(Snapshot()), m, now)
    {
      hide AfterSome, RunningIn, AfterDone, WokenByBatch, Batch.AllRunning, JobsOf, ExecsOf, CloseThese, GroupedStats,
          GroupedRelease, EventsOf, SamePlaces, RowsDone;
      ghost var s := Snapshot();
      var done, xs := JobsOf(m), ExecsOf(m);
      RunningSet(s, m);
      AfterSomeNone(s, done, now);
      jobs := RowsDone(jobs, done, now);
      var woke := FinishAllDependents(s, done, now);
      CloseAndCount(s, xs, done, now);
      KeepPlaces(s, m, now);
      ReleaseGroups(s, m);
      AnnounceBatch(woke, done, s, now);
    }

    method CloseAndCount(ghost s: Db, xs: set<ExecId>, done: set<JobId>, now: Time)
      requires execs == s.execs && stats == s.stats
      modifies this`execs, this`leases, this`stats
      ensures execs == CloseThese(s.execs, xs, Success, now) && leases == old(leases) - done
          && stats == GroupedStats(s, xs, now)
    {
      hide GroupedStats, CloseThese;
      execs := CloseThese(execs, xs, Success, now);
      leases := leases - done;
      CountRows(s, xs, now);
    }

    /** The statistics, from the execution rows just closed, row by row. */
    method CountRows(ghost s: Db, xs: set<ExecId>, now: Time)
      requires execs == CloseThese(s.execs, xs, Success, now) && stats == s.stats
      modifies this`stats
      ensures stats == GroupedStats(s, xs, now)
    {
      hide GroupedStats, CloseThese, Count, EventsOf, TimeSpent, DurationMs, Minute;
      ClosingKeys(s.execs, xs, now);
      var todo := xs * execs.Keys;
      ghost var seen: set<ExecId> := {};
      ghost var all := todo;
      RowsToCount(s, xs, now);
      Batch.NothingCounted(s, now);
      while todo != {}
        invariant seen + todo == all && seen !! todo && stats == GroupedStats(s, seen, now)
        decreases |todo|
      {
        var x :| x in todo;
        ClosedRow(s, xs, x, now);
        Batch.StatsGrow(s, seen, x, now);
        CountRow(execs[x], now);
        seen, todo := seen + {x}, todo - {x};
      }
      assert seen == all;
    }

    method CountRow(x: Exec, now: Time)
      requires x.closed.Some?
      modifies this`stats
      ensures stats == Count(old(stats), x.queue, Minute(now), Stat(1, 0, 0, DurationMs(x, x.closed.value.at)))
    {
      var k, d := (x.queue, Minute(now)), Stat(1, 0, 0, DurationMs(x, x.closed.value.at));
      stats := stats[k := if k in stats then AddStats(stats[k], d) else d];
    }

    method AnnounceBatch(woke: set<JobId>, done: set<JobId>, ghost s: Db, now: Time)
      requires jobs == AfterDone(s, done, now) && events == s.events && woke <= jobs.Keys && RunningIn(s, done)
      modifies this`events
      ensures events == s.events + EventsOf(JobQueued, woke, s.jobs) + EventsOf(JobCompleted, done, s.jobs)
    {
      forall c ensures (c in jobs <==> c in s.jobs) && (c in jobs ==> jobs[c].project == s.jobs[c].project) {
        Batch.SameProjects(s, done, now, c);
      }
      assert done <= jobs.Keys;
      hide AfterDone, EventsOf, RunningIn;
      Batch.EventsSame(JobQueued, woke, jobs, s.jobs);
      Batch.EventsSame(JobCompleted, done, jobs, s.jobs);
      EmitAll(JobQueued, woke);
      EmitAll(JobCompleted, done);
    }
  }

  // ---------------------------------------------------------------- a bulk replay

  function ReplaySome(jobs: map<JobId, Job>, spacing: map<JobId, Time>): map<JobId, Job> {
    map j | j in jobs :: if j in spacing then ReplayRow(jobs[j], spacing[j]) else jobs[j]
  }

  lemma BulkReplayHits(s: Db, ids: set<JobId>, spacing: map<JobId, Time>, now: Time)
    requires spacing.Keys == ids && forall j :: j in ids ==> BulkReplayable(s, j)
    ensures ids <= s.jobs.Keys && ReplaySome(s.jobs, spacing).Keys == s.jobs.Keys
    ensures ReplayDead(s, spacing, now) ==
        s.(jobs := ReplaySome(s.jobs, spacing), dead := MarkReplayed(s.dead, ids, now),
           events := s.events + EventsOf(JobReplayed, ids, ReplaySome(s.jobs, spacing)))
  {
    assert forall j :: j in ids ==> j in s.jobs;
    Batch.EventsSame(JobReplayed, ids, ReplaySome(s.jobs, spacing), s.jobs);
    hide EventsOf, BulkReplayable, MarkReplayed;
  }

  // ---------------------------------------------------------------- a reaping sweep on its own

  lemma {:induction false} OthersStillHeld(s: Db, ids: seq<JobId>, backoff: Time, now: Time, j: JobId, f: int)
    requires Fencing.Holds(s, j, f) && j !in ids
    ensures Fencing.Holds(FailEach(s, ids, backoff, now), j, f)
  {
    if ids != [] {
      var n := |ids| - 1;
      OthersStillHeld(s, ids[..n], backoff, now, j, f);
      hide Fail, Fencing.Holds;
      Fencing.FailLeavesHeldRows(FailEach(s, ids[..n], backoff, now), ids[n], None, Lost, false, backoff, now, j, f);
    }
  }

  lemma {:induction false} EachFound(s: Db, ids: seq<JobId>, backoff: Time, now: Time)
    requires NoDuplicates(ids) && forall i :: 0 <= i < |ids| ==> Failable(s, ids[i], None)
    ensures CountFailed(s, ids, backoff, now) == |ids|
  {
    if ids != [] {
      var n := |ids| - 1;
      EachFound(s, ids[..n], backoff, now);
      OthersStillHeld(s, ids[..n], backoff, now, ids[n], s.jobs[ids[n]].fence);
      hide FailEach;
    }
  }

  lemma AllFound(s: Db, le: (JobId, JobId) -> bool, limit: nat, ids: seq<JobId>, backoff: Time, now: Time)
    requires Query.FirstRows(ExpiredIn(s, now), le, limit, ids)
    ensures CountFailed(s, ids, backoff, now) == |ids|
  {
    hide CountFailed;
    EachFound(s, ids, backoff, now);
  }

  // ---------------------------------------------------------------- shards one by one

  lemma SpreadRows(q: A.Queue, t: A.Settings, busy: bool, now: Time, share: real, kept: seq<A.Shard>,
      filled: seq<A.Shard>, rows: seq<A.Shard>)
    requires t.shards > 0 && share == t.burst / t.shards as real
    requires t.shards == |q.shards| || !(busy || exists i :: 0 <= i < |q.shards| && q.shards[i].inFlight > 0)
    requires kept == if t.shards < |q.shards| then q.shards[..t.shards] else q.shards
    requires |filled| == t.shards && forall k :: 0 <= k < t.shards ==>
        filled[k] == if k < |kept| then kept[k] else A.Shard(0, share, now)
    requires |rows| == t.shards && forall k :: 0 <= k < t.shards ==> rows[k] == Clamped(filled[k], share)
    ensures A.Configure(q, t, busy, now)
         == Some(q.(paused := t.paused, maxConcurrency := t.maxConcurrency, limit := t.limit, burst := t.burst,
           shards := rows))
  {
    var c := A.Configure(q, t, busy, now);
    assert c.Some? && |c.value.shards| == t.shards;
    forall k | 0 <= k < t.shards ensures c.value.shards[k] == rows[k] { }
    assert c.value.shards == rows;
  }

  function Clamped(sh: A.Shard, share: real): A.Shard { sh.(tokens := MinR(sh.tokens, share)) }

  // ---------------------------------------------------------------- claims one by one

  /** The table's check on in_flight. */
  predicate Counted(queues: map<QueueId, A.Queue>) {
    forall q, i :: q in queues && 0 <= i < |queues[q].shards| ==> queues[q].shards[i].inFlight >= 0
  }

  lemma ReleaseNothing(queues: map<QueueId, A.Queue>, q: QueueId, sh: nat)
    requires Counted(queues)
    ensures ReleaseSlots(queues, q, sh, 0) == queues
  {
    if q in queues && sh < |queues[q].shards| {
      assert queues[q].shards[sh := queues[q].shards[sh]] == queues[q].shards;
    }
  }

  lemma AdmitHits(s: Db, t: Db, q: QueueId, want: int, pick: Option<nat>, c: A.Clock)
    requires q in s.queues
    requires var r := A.Admit(s.queues[q], want, pick, c);
             t == s.(queues := s.queues[q := r.queue],
               grants := if r.slots > 0 then s.grants + [Grant(q, r.shard, r.slots, false)] else s.grants)
    ensures t == AdmitTo(s, q, want, pick, c)
  {
    hide A.Admit;
  }

  /** An admission adds one live grant at the end, or none. */
  lemma AdmitGrants(s: Db, q: QueueId, want: int, pick: Option<nat>, c: A.Clock)
    requires Counted(s.queues)
    ensures var t := AdmitTo(s, q, want, pick, c);
            && Counted(t.queues) && |t.grants| <= |s.grants| + 1
            && (|t.grants| == |s.grants| <==> q !in s.queues || A.Admit(s.queues[q], want, pick, c).slots <= 0)
            && (|t.grants| > |s.grants| ==> q in s.queues && LiveGrant(t, |s.grants|))
            && (|t.grants| > |s.grants| ==>
                  t.grants[|s.grants|] ==
                    Grant(q, A.Admit(s.queues[q], want, pick, c).shard, A.Admit(s.queues[q], want, pick, c).slots,
                    false))
  {
    if q in s.queues {
      assert Counted(AdmitTo(s, q, want, pick, c).queues) by {
        AdmitKeepsCounted(s.queues[q], want, pick, c);
        hide A.Admit;
      }
      hide A.Admit;
    }
  }

  lemma AdmitKeepsCounted(q: A.Queue, want: int, pick: Option<nat>, c: A.Clock)
    requires forall i :: 0 <= i < |q.shards| ==> q.shards[i].inFlight >= 0
    ensures var r := A.Admit(q, want, pick, c).queue;
            |r.shards| == |q.shards| && forall i :: 0 <= i < |r.shards| ==> r.shards[i].inFlight >= 0
  {
    hide A.Allowed, A.Refilled, A.Share, A.Rate;
  }

  lemma GiveBackHits(s: Db, g: nat)
    requires LiveGrant(s, g)
    ensures GiveBack(s, g) == s.(queues := ReleaseSlots(s.queues, s.grants[g].queue, s.grants[g].shard, s.grants[g].n),
                                 grants := s.grants[g := s.grants[g].(n := 0)])
  {
    hide ReleaseSlots;
  }

  function ClaimSome(jobs: map<JobId, Job>, ids: set<JobId>, shard: nat, worker: WorkerId, now: Time): map<JobId, Job> {
    map j | j in jobs :: if j in ids then ClaimRow(jobs[j], shard, worker, now) else jobs[j]
  }

  function LeaseSome(leases: map<JobId, Lease>, jobs: map<JobId, Job>, ids: set<JobId>, worker: WorkerId,
      until: Time): map<JobId, Lease>
  {
    leases + (map j | j in ids && j in jobs :: Lease(jobs[j].fence + 1, worker, until))
  }

  /** What the claim returns: every claimed job once, with the fence it was claimed under. */
  predicate Receipts(out: seq<(JobId, int)>, jobs: map<JobId, Job>, ids: set<JobId>) {
    && |out| == |ids|
    && (forall j :: j in ids ==> j in jobs && (j, jobs[j].fence + 1) in out)
    && (forall i :: 0 <= i < |out| ==> out[i].0 in ids)
  }

  lemma ReceiptsName(out: seq<(JobId, int)>, jobs: map<JobId, Job>, ids: set<JobId>)
    requires Receipts(out, jobs, ids)
    ensures |out| == |ids| && (set e | e in out :: e.0) == ids
  {
    forall j | j in ids ensures j in (set e | e in out :: e.0) { assert (j, jobs[j].fence + 1) in out; }
  }

  lemma ReceiptsMore(out: seq<(JobId, int)>, jobs: map<JobId, Job>, ids: set<JobId>, j: JobId)
    requires j in jobs && j !in ids
    ensures Receipts([], jobs, {})
    ensures Receipts(out, jobs, ids) ==> Receipts(out + [(j, jobs[j].fence + 1)], jobs, ids + {j})
  {
    assert (j, jobs[j].fence + 1) == (out + [(j, jobs[j].fence + 1)])[|out|];
  }

  lemma ClaimNone(jobs: map<JobId, Job>, leases: map<JobId, Lease>, shard: nat, worker: WorkerId, now: Time,
      until: Time)
    ensures ClaimSome(jobs, {}, shard, worker, now) == jobs && LeaseSome(leases, jobs, {}, worker, until) == leases
        && Receipts([], jobs, {})
  {
  }

  lemma ClaimMore(jobs: map<JobId, Job>, leases: map<JobId, Lease>, ids: set<JobId>, j: JobId, shard: nat,
      worker: WorkerId, now: Time, until: Time)
    requires j in jobs && j !in ids
    ensures j in ClaimSome(jobs, ids, shard, worker, now) && ClaimSome(jobs, ids, shard, worker, now)[j] == jobs[j]
    ensures ClaimSome(jobs, ids + {j}, shard, worker, now) ==
        ClaimSome(jobs, ids, shard, worker, now)[j := ClaimRow(jobs[j], shard, worker, now)]
    ensures LeaseSome(leases, jobs, ids + {j}, worker, until) ==
        LeaseSome(leases, jobs, ids, worker, until)[j := Lease(jobs[j].fence + 1, worker, until)]
  {
    hide ClaimRow;
  }

  lemma TakeHits(s: Db, t: Db, g: nat, ids: set<JobId>, worker: WorkerId, lease: Time, now: Time)
    requires LiveGrant(s, g) && Claimable(s, g, ids, now)
    requires var gr := s.grants[g];
             t == s.(jobs := ClaimSome(s.jobs, ids, gr.shard, worker, now),
                     leases := LeaseSome(s.leases, s.jobs, ids, worker, now + lease),
                     queues := ReleaseSlots(s.queues, gr.queue, gr.shard, gr.n - |ids|),
                     grants := s.grants[g := gr.(n := 0)])
    ensures t == Take(s, g, ids, worker, lease, now)
  {
    hide ReleaseSlots, ClaimRow, Claimable;
  }

  function QueueSome(jobs: map<JobId, Job>, ids: set<JobId>): map<JobId, Job> {
    map j | j in jobs :: if j in ids then jobs[j].(status := Queued) else jobs[j]
  }

  lemma PromoteHits(s: Db, ids: set<JobId>, now: Time)
    requires forall j :: j in ids ==> Promotable(s, j, now)
    ensures ids <= QueueSome(s.jobs, ids).Keys
    ensures Promote(s, ids, now) ==
        s.(jobs := QueueSome(s.jobs, ids), events := s.events + EventsOf(JobQueued, ids, QueueSome(s.jobs, ids)))
  {
    Batch.EventsSame(JobQueued, ids, QueueSome(s.jobs, ids), s.jobs);
    hide EventsOf;
    assert Promote(s, ids, now).jobs == QueueSome(s.jobs, ids);
  }

  function DueAt(r: Submission, now: Time): Time { if r.runAt.Some? then r.runAt.value else now }

  function FirstStatus(pending: nat, runAt: Time, now: Time): Status {
    if pending > 0 || runAt > now then Scheduled else Queued
  }

  function EdgesTo(parents: seq<JobId>, child: JobId): set<(JobId, JobId)> { set p | p in parents :: (p, child) }

  function FirstRow(s: Db, r: Submission, now: Time): Job {
    var live, runAt := LiveParents(s.jobs, r.parents, r.project), DueAt(r, now);
    NewJob(s, r, FirstStatus(|live|, runAt, now), runAt, live, now)
  }

  function Inserted(s: Db, r: Submission, now: Time): Db {
    s.(jobs := s.jobs[r.id := FirstRow(s, r, now)], edges := s.edges + EdgesTo(r.parents, r.id),
       events := s.events + multiset{Event(JobSubmitted, r.id, r.project)})
  }

  lemma SubmitIs(s: Db, r: Submission, now: Time)
    ensures Acceptable(s, r) ==> r.id !in r.parents && Submit(s, r, now) == Inserted(s, r, now)
    ensures !Acceptable(s, r) ==> Submit(s, r, now) == s
  {
    hide LiveParents, NewJob;
  }

  // ---------------------------------------------------------------- reconciliation one by one

  function AllShards(queues: map<QueueId, A.Queue>): set<(QueueId, nat)> {
    set q, i: nat | q in queues && i < |queues[q].shards| :: (q, i)
  }

  lemma InShards(queues: map<QueueId, A.Queue>, g: (QueueId, nat))
    ensures g in AllShards(queues) <==> g.0 in queues && g.1 < |queues[g.0].shards|
  {
    assert g == (g.0, g.1);
  }

  /** The shards whose counter is not the number of jobs they hold. */
  function WrongAt(s: Db, seen: set<(QueueId, nat)>): set<(QueueId, nat)> {
    set g | g in seen && g.0 in s.queues && g.1 < |s.queues[g.0].shards|
      && s.queues[g.0].shards[g.1].inFlight != |ActiveAt(s, g.0, g.1)|
  }

  function Wrong(s: Db): set<(QueueId, nat)> { WrongAt(s, AllShards(s.queues)) }

  function ReconciledShards(s: Db, q: QueueId, seen: set<(QueueId, nat)>): seq<A.Shard>
    requires q in s.queues
  {
    seq(|s.queues[q].shards|, i requires 0 <= i < |s.queues[q].shards| =>
      if (q, i) in seen then s.queues[q].shards[i].(inFlight := |ActiveAt(s, q, i)|) else s.queues[q].shards[i])
  }

  function ReconciledAt(s: Db, seen: set<(QueueId, nat)>): map<QueueId, A.Queue> {
    map q | q in s.queues :: s.queues[q].(shards := ReconciledShards(s, q, seen))
  }

  lemma ReconciledNone(s: Db)
    ensures ReconciledAt(s, {}) == s.queues && WrongAt(s, {}) == {}
  {
    hide ActiveAt;
    forall q | q in s.queues ensures ReconciledShards(s, q, {}) == s.queues[q].shards { }
    hide ReconciledShards;
  }

  lemma SameActive(s: Db, t: Db, q: QueueId, i: nat)
    requires t.jobs == s.jobs
    ensures ActiveAt(t, q, i) == ActiveAt(s, q, i)
  {
  }

  function WithCount(queues: map<QueueId, A.Queue>, q: QueueId, i: nat, n: int): map<QueueId, A.Queue>
    requires q in queues && i < |queues[q].shards|
  {
    queues[q := queues[q].(shards := queues[q].shards[i := queues[q].shards[i].(inFlight := n)])]
  }

  function OffBy(sh: A.Shard, n: int): nat { if sh.inFlight == n then 0 else 1 }

  lemma WrongMore(s: Db, seen: set<(QueueId, nat)>, q: QueueId, i: nat)
    requires q in s.queues && i < |s.queues[q].shards| && (q, i) !in seen
    ensures |WrongAt(s, seen + {(q, i)})| == |WrongAt(s, seen)| + OffBy(s.queues[q].shards[i], |ActiveAt(s, q, i)|)
  {
    hide ActiveAt;
    if s.queues[q].shards[i].inFlight == |ActiveAt(s, q, i)| {
      assert WrongAt(s, seen + {(q, i)}) == WrongAt(s, seen);
    } else {
      assert WrongAt(s, seen + {(q, i)}) == WrongAt(s, seen) + {(q, i)};
    }
  }

  lemma ReconciledSame(s: Db, seen: set<(QueueId, nat)>, q: QueueId, i: nat, p: QueueId)
    requires p in s.queues && p != q
    ensures ReconciledShards(s, p, seen + {(q, i)}) == ReconciledShards(s, p, seen)
  {
    hide ActiveAt;
  }

  lemma ReconciledHere(s: Db, seen: set<(QueueId, nat)>, q: QueueId, i: nat)
    requires q in s.queues && i < |s.queues[q].shards| && (q, i) !in seen
    ensures |ReconciledShards(s, q, seen)| == |s.queues[q].shards|
        && ReconciledShards(s, q, seen)[i] == s.queues[q].shards[i]
    ensures ReconciledShards(s, q, seen + {(q, i)}) ==
        ReconciledShards(s, q, seen)[i := s.queues[q].shards[i].(inFlight := |ActiveAt(s, q, i)|)]
  {
    hide ActiveAt;
  }

  lemma ReconciledMaps(s: Db, seen: set<(QueueId, nat)>, q: QueueId, i: nat, n: int)
    requires q in s.queues && i < |ReconciledShards(s, q, seen)|
    requires ReconciledShards(s, q, seen + {(q, i)}) ==
        ReconciledShards(s, q, seen)[i := ReconciledShards(s, q, seen)[i].(inFlight := n)]
    requires forall p :: p in s.queues && p != q ==>
        ReconciledShards(s, p, seen + {(q, i)}) == ReconciledShards(s, p, seen)
    ensures ReconciledAt(s, seen + {(q, i)}) == WithCount(ReconciledAt(s, seen), q, i, n)
  {
    hide ReconciledShards;
    var was, later := ReconciledAt(s, seen), ReconciledAt(s, seen + {(q, i)});
    assert later.Keys == was.Keys == s.queues.Keys;
    forall p | p in s.queues ensures later[p] == WithCount(was, q, i, n)[p] { }
  }

  lemma ReconciledMore(s: Db, seen: set<(QueueId, nat)>, q: QueueId, i: nat)
    requires q in s.queues && i < |s.queues[q].shards| && (q, i) !in seen
    ensures var was := ReconciledAt(s, seen);
            && q in was && i < |was[q].shards|
            && ReconciledAt(s, seen + {(q, i)}) == WithCount(was, q, i, |ActiveAt(s, q, i)|)
            && |WrongAt(s, seen + {(q, i)})| == |WrongAt(s, seen)| + OffBy(was[q].shards[i], |ActiveAt(s, q, i)|)
  {
    hide WrongAt, ActiveAt, OffBy, ReconciledShards, WithCount;
    WrongMore(s, seen, q, i);
    ReconciledHere(s, seen, q, i);
    forall p | p in s.queues && p != q ensures ReconciledShards(s, p, seen + {(q, i)}) == ReconciledShards(s, p, seen) {
      ReconciledSame(s, seen, q, i, p);
    }
    ReconciledMaps(s, seen, q, i, |ActiveAt(s, q, i)|);
  }

  lemma ReconciledAll(s: Db)
    ensures Reconcile(s) == s.(queues := ReconciledAt(s, AllShards(s.queues)), grants := ForgetLost(s.grants))
  {
    hide ActiveAt, ForgetLost, AllShards;
    forall q | q in s.queues ensures Reconciled(s)[q].shards == ReconciledShards(s, q, AllShards(s.queues)) {
      forall i: nat | i < |s.queues[q].shards| ensures (q, i) in AllShards(s.queues) { InShards(s.queues, (q, i)); }
    }
    assert Reconciled(s) == ReconciledAt(s, AllShards(s.queues));
  }

  // ---------------------------------------------------------------- batch completion, piece by piece

  predicate RunningIn(s: Db, done: set<JobId>) {
    forall j :: j in done ==> j in s.jobs && s.jobs[j].status.Running?
  }

  /** All the done rows are completed, and the dependents of those in `seen` have been visited. */
  function AfterSome(s: Db, done: set<JobId>, seen: set<JobId>, now: Time): map<JobId, Job> {
    map c | c in s.jobs ::
      if c in done then CompleteRow(s.jobs[c], now) else Repeat(s.jobs[c], |DoneParents(s.edges, seen, c)|, now)
  }

  function WokenSoFar(s: Db, done: set<JobId>, seen: set<JobId>, now: Time): set<JobId> {
    set c | c in s.jobs && c !in done && Counting(s.jobs[c]) && AfterSome(s, done, seen, now)[c].status.Queued?
  }

  function RowsDone(jobs: map<JobId, Job>, done: set<JobId>, now: Time): map<JobId, Job> {
    map c | c in jobs :: if c in done then CompleteRow(jobs[c], now) else jobs[c]
  }

  lemma AfterSomeNone(s: Db, done: set<JobId>, now: Time)
    ensures AfterSome(s, done, {}, now) == RowsDone(s.jobs, done, now)
  {
    forall c | c in s.jobs ensures DoneParents(s.edges, {}, c) == {} { }
    hide CompleteRow;
  }

  lemma WokenSoFarNone(s: Db, done: set<JobId>, now: Time)
    ensures WokenSoFar(s, done, {}, now) == {}
  {
    forall c | c in s.jobs ensures DoneParents(s.edges, {}, c) == {} { }
  }

  lemma VisitRow(s: Db, done: set<JobId>, seen: set<JobId>, p: JobId, now: Time, c: JobId)
    requires p !in seen && RunningIn(s, done) && c in s.jobs
    ensures AfterSome(s, done, seen + {p}, now)[c] ==
        FinishDependents(AfterSome(s, done, seen, now), s.edges, p, now)[c]
    ensures c in WokenSoFar(s, done, seen + {p}, now)
        <==> c in WokenSoFar(s, done, seen, now) || c in Woken(AfterSome(s, done, seen, now), s.edges, p, now)
  {
    Batch.ParentsGrow(s.edges, seen, p, c);
    RepeatIs(s.jobs[c], |DoneParents(s.edges, seen, c)|, now);
    hide DoneParents;
  }

  lemma AfterOneMore(s: Db, done: set<JobId>, seen: set<JobId>, p: JobId, now: Time)
    requires p !in seen && RunningIn(s, done)
    ensures AfterSome(s, done, seen + {p}, now) == FinishDependents(AfterSome(s, done, seen, now), s.edges, p, now)
    ensures WokenSoFar(s, done, seen + {p}, now) == WokenSoFar(s, done, seen, now)
        + Woken(AfterSome(s, done, seen, now), s.edges, p, now)
  {
    var l, r := AfterSome(s, done, seen + {p}, now), FinishDependents(AfterSome(s, done, seen, now), s.edges, p, now);
    assert l.Keys == r.Keys == s.jobs.Keys;
    forall c ensures c in Woken(AfterSome(s, done, seen, now), s.edges, p, now) ==> c in s.jobs { }
    forall c ensures c in WokenSoFar(s, done, seen, now) || c in WokenSoFar(s, done, seen + {p}, now) ==>
        c in s.jobs { }
    hide AfterSome, FinishDependents, WokenSoFar, Woken, RunningIn;
    forall c | c in s.jobs
      ensures l[c] == r[c]
      ensures c in WokenSoFar(s, done, seen + {p}, now)
          <==> c in WokenSoFar(s, done, seen, now) || c in Woken(AfterSome(s, done, seen, now), s.edges, p, now)
    {
      VisitRow(s, done, seen, p, now, c);
    }
  }

  lemma AfterAll(s: Db, done: set<JobId>, now: Time)
    ensures AfterSome(s, done, done, now) == AfterDone(s, done, now)
    ensures WokenSoFar(s, done, done, now) == WokenByBatch(s, done, now) <= AfterDone(s, done, now).Keys
  {
    hide CompleteRow, Repeat, DoneParents;
    assert AfterSome(s, done, done, now) == AfterDone(s, done, now);
    hide AfterSome, AfterDone;
    assert AfterDone(s, done, now).Keys == s.jobs.Keys by { KeysKept(s, done, now); }
  }

  lemma KeysKept(s: Db, done: set<JobId>, now: Time)
    ensures AfterDone(s, done, now).Keys == s.jobs.Keys
  {
    hide CompleteRow, Repeat, DoneParents;
  }

  lemma MatchedRunning(s: Db, batch: seq<Done>)
    ensures Batch.AllRunning(s, Matched(s, batch))
  {
  }

  lemma RunningSet(s: Db, m: seq<Done>)
    requires Batch.AllRunning(s, m)
    ensures RunningIn(s, JobsOf(m))
  {
    forall j | j in JobsOf(m) ensures j in s.jobs && s.jobs[j].status.Running? { Batch.RunningJobs(s, m, j); }
  }

  /** The rows still say which queue and shard each completed job was on. */
  predicate SamePlaces(s: Db, jobs: map<JobId, Job>, m: seq<Done>) {
    forall i :: 0 <= i < |m| ==>
      m[i].job in s.jobs && m[i].job in jobs
      && jobs[m[i].job].queue == s.jobs[m[i].job].queue && jobs[m[i].job].shard == s.jobs[m[i].job].shard
  }

  lemma KeepPlaces(s: Db, m: seq<Done>, now: Time)
    requires Batch.AllRunning(s, m)
    ensures SamePlaces(s, AfterDone(s, JobsOf(m), now), m)
  {
    hide JobsOf;
    forall i | 0 <= i < |m| ensures HeldAs(s, m[i].job, m[i].fence, Running) { }
    forall i | 0 <= i < |m| ensures
        m[i].job in AfterDone(s, JobsOf(m), now)
        && AfterDone(s, JobsOf(m), now)[m[i].job].queue == s.jobs[m[i].job].queue
        && AfterDone(s, JobsOf(m), now)[m[i].job].shard == s.jobs[m[i].job].shard
    {
      Slots.BatchActivity(s, JobsOf(m), now, m[i].job);
      KeysKept(s, JobsOf(m), now);
      hide AfterDone;
    }
  }

  function Groups(jobs: map<JobId, Job>, m: seq<Done>): set<(QueueId, nat)> {
    set d | d in m && d.job in jobs :: (jobs[d.job].queue, jobs[d.job].shard)
  }

  lemma SameGroups(s: Db, jobs: map<JobId, Job>, m: seq<Done>)
    requires SamePlaces(s, jobs, m)
    ensures Groups(jobs, m) == Groups(s.jobs, m)
  {
    forall d | d in m ensures d.job in s.jobs && d.job in jobs && jobs[d.job].queue == s.jobs[d.job].queue
        && jobs[d.job].shard == s.jobs[d.job].shard
    {
      var i :| 0 <= i < |m| && m[i] == d;
    }
  }

  function ReleasedShards(s: Db, m: seq<Done>, q: QueueId, seen: set<(QueueId, nat)>): seq<A.Shard>
    requires q in s.queues
  {
    seq(|s.queues[q].shards|, i requires 0 <= i < |s.queues[q].shards| =>
      if (q, i) in seen then LowerShard(s.queues[q].shards[i], OnShard(s, m, q, i)) else s.queues[q].shards[i])
  }

  /** The groups in `seen` have been released. */
  function ReleasedAt(s: Db, m: seq<Done>, seen: set<(QueueId, nat)>): map<QueueId, A.Queue> {
    map q | q in s.queues :: s.queues[q].(shards := ReleasedShards(s, m, q, seen))
  }

  lemma ReleasedNone(s: Db, m: seq<Done>)
    ensures ReleasedAt(s, m, {}) == s.queues
  {
    forall q | q in s.queues ensures ReleasedShards(s, m, q, {}) == s.queues[q].shards { }
    hide ReleasedShards;
  }

  lemma {:induction false} GroupNotEmpty(s: Db, m: seq<Done>, q: QueueId, i: nat)
    ensures OnShard(s, m, q, i) >= 0
    ensures (q, i) in Groups(s.jobs, m) <==> OnShard(s, m, q, i) > 0
  {
    if m != [] {
      var rest, d := m[..|m| - 1], m[|m| - 1];
      GroupNotEmpty(s, rest, q, i);
      assert m == rest + [d];
      assert forall x :: x in m <==> x in rest || x == d;
      if (q, i) in Groups(s.jobs, rest) {
        var x :| x in rest && x.job in s.jobs && (s.jobs[x.job].queue, s.jobs[x.job].shard) == (q, i);
        assert x in m;
      }
      if d.job in s.jobs && s.jobs[d.job].queue == q && s.jobs[d.job].shard == i {
        assert d in m && (s.jobs[d.job].queue, s.jobs[d.job].shard) == (q, i);
      }
    }
  }

  lemma ReleasedShard(s: Db, m: seq<Done>, seen: set<(QueueId, nat)>, q: QueueId, sh: nat)
    requires q in s.queues && (q, sh) !in seen && OnShard(s, m, q, sh) > 0
    ensures var was := s.queues[q].(shards := ReleasedShards(s, m, q, seen));
            A.Release(was, sh, OnShard(s, m, q, sh)).shards == ReleasedShards(s, m, q, seen + {(q, sh)})
  {
    hide OnShard;
    var l, r := A.Release(s.queues[q].(shards := ReleasedShards(s, m, q, seen)), sh, OnShard(s, m, q, sh)).shards,
        ReleasedShards(s, m, q, seen + {(q, sh)});
    assert |l| == |r|;
    forall i: nat | i < |l| ensures l[i] == r[i] { }
  }

  lemma ReleasedOther(s: Db, m: seq<Done>, seen: set<(QueueId, nat)>, q: QueueId, sh: nat, p: QueueId)
    requires p in s.queues && p != q
    ensures ReleasedShards(s, m, p, seen + {(q, sh)}) == ReleasedShards(s, m, p, seen)
  {
    hide OnShard, LowerShard;
  }

  lemma ReleasedMore(s: Db, m: seq<Done>, seen: set<(QueueId, nat)>, q: QueueId, sh: nat)
    requires (q, sh) in Groups(s.jobs, m) && (q, sh) !in seen
    ensures ReleaseSlots(ReleasedAt(s, m, seen), q, sh, OnShard(s, m, q, sh)) == ReleasedAt(s, m, seen + {(q, sh)})
  {
    GroupNotEmpty(s, m, q, sh);
    hide Groups, OnShard, ReleasedShards;
    var l, r := ReleaseSlots(ReleasedAt(s, m, seen), q, sh, OnShard(s, m, q, sh)), ReleasedAt(s, m, seen + {(q, sh)});
    assert l.Keys == r.Keys == s.queues.Keys;
    forall p | p in s.queues ensures l[p] == r[p] {
      if p == q { ReleasedShard(s, m, seen, q, sh); } else { ReleasedOther(s, m, seen, q, sh, p); }
    }
  }

  lemma ReleasedAll(s: Db, m: seq<Done>)
    ensures ReleasedAt(s, m, Groups(s.jobs, m)) == GroupedRelease(s, m)
  {
    forall q | q in s.queues ensures ReleasedShards(s, m, q, Groups(s.jobs, m)) == LowerShards(s, m, q) {
      forall i: nat | i < |s.queues[q].shards| ensures (q, i) !in Groups(s.jobs, m) ==> OnShard(s, m, q, i) == 0 {
        GroupNotEmpty(s, m, q, i);
      }
      hide OnShard, Groups;
    }
    hide ReleasedShards, LowerShards;
  }

  /** A row of the batch, as the statistics find it. */
  lemma ClosedRow(s: Db, xs: set<ExecId>, x: ExecId, now: Time)
    requires x in xs && x in CloseThese(s.execs, xs, Success, now)
    ensures x in s.execs
    ensures var y := CloseThese(s.execs, xs, Success, now)[x];
            y.queue == s.execs[x].queue && y.closed.Some?
              && DurationMs(y, y.closed.value.at) == TimeSpent(s.execs[x], now)
  {
  }

  lemma ClosingKeys(execs: map<ExecId, Exec>, xs: set<ExecId>, now: Time)
    ensures CloseThese(execs, xs, Success, now).Keys == execs.Keys
  {
  }

  /** Ids without a row count for nothing. */
  lemma RowsToCount(s: Db, xs: set<ExecId>, now: Time)
    ensures GroupedStats(s, xs * s.execs.Keys, now) == GroupedStats(s, xs, now)
  {
    var ys := xs * s.execs.Keys;
    assert QueuesOf(s.execs, ys) == QueuesOf(s.execs, xs);
    forall q ensures ExecsOn(s.execs, ys, q) == ExecsOn(s.execs, xs, q) { }
    hide ExecsOn, QueuesOf, TimeOf, Minute, CloseThese, AddStats;
    var l, r := GroupedStats(s, ys, now), GroupedStats(s, xs, now);
    assert l.Keys == r.Keys;
    forall k | k in l ensures l[k] == r[k] { }
  }

  // ---------------------------------------------------------------- dependents one by one

  function FinishSome(jobs: map<JobId, Job>, kids: set<JobId>, now: Time): map<JobId, Job> {
    map c | c in jobs :: if c in kids then OneLess(jobs[c], now) else jobs[c]
  }

  function WokenAmong(jobs: map<JobId, Job>, kids: set<JobId>, now: Time): set<JobId> {
    set c | c in jobs && c in kids && Counting(jobs[c]) && OneLess(jobs[c], now).status.Queued?
  }

  function Wakes(c: JobId, j: Job, now: Time): set<JobId> {
    if Counting(j) && OneLess(j, now).status.Queued? then {c} else {}
  }

  lemma FinishNone(jobs: map<JobId, Job>, now: Time)
    ensures FinishSome(jobs, {}, now) == jobs && WokenAmong(jobs, {}, now) == {}
  {
  }

  lemma FinishMore(jobs: map<JobId, Job>, kids: set<JobId>, c: JobId, now: Time)
    requires c in jobs && c !in kids
    ensures c in FinishSome(jobs, kids, now) && FinishSome(jobs, kids, now)[c] == jobs[c]
    ensures FinishSome(jobs, kids + {c}, now) == FinishSome(jobs, kids, now)[c := OneLess(jobs[c], now)]
    ensures WokenAmong(jobs, kids + {c}, now)
         == WokenAmong(jobs, kids, now) + Wakes(c, jobs[c], now)
  {
    hide OneLess;
  }

  function ChildrenIn(jobs: map<JobId, Job>, edges: set<(JobId, JobId)>, parent: JobId): set<JobId> {
    set e | e in edges && e.0 == parent && e.1 in jobs :: e.1
  }

  lemma FinishAll(jobs: map<JobId, Job>, edges: set<(JobId, JobId)>, parent: JobId, now: Time)
    ensures ChildrenIn(jobs, edges, parent) <= jobs.Keys
    ensures FinishSome(jobs, ChildrenIn(jobs, edges, parent), now) == FinishDependents(jobs, edges, parent, now)
    ensures WokenAmong(jobs, ChildrenIn(jobs, edges, parent), now) ==
        Woken(jobs, edges, parent, now) <= FinishDependents(jobs, edges, parent, now).Keys
  {
    hide OneLess;
    var children := ChildrenIn(jobs, edges, parent);
    forall c | c in jobs ensures c in children <==> (parent, c) in edges {
      if (parent, c) in edges { assert (parent, c).1 == c; }
    }
    hide ChildrenIn;
  }

  // ---------------------------------------------------------------- descendants one by one

  function KillSome(jobs: map<JobId, Job>, ids: set<JobId>, now: Time): map<JobId, Job> {
    map c | c in jobs :: if c in ids && Idle(jobs[c].status) then KillRow(jobs[c], now) else jobs[c]
  }

  function IdleAmong(jobs: map<JobId, Job>, ids: set<JobId>): set<JobId> {
    set c | c in jobs && c in ids && Idle(jobs[c].status)
  }

  function KillOne(jobs: map<JobId, Job>, c: JobId, now: Time): map<JobId, Job> {
    if c in jobs && Idle(jobs[c].status) then jobs[c := KillRow(jobs[c], now)] else jobs
  }

  function IdleOne(jobs: map<JobId, Job>, c: JobId): set<JobId> {
    if c in jobs && Idle(jobs[c].status) then {c} else {}
  }

  lemma KillNone(jobs: map<JobId, Job>, now: Time)
    ensures KillSome(jobs, {}, now) == jobs && IdleAmong(jobs, {}) == {}
  {
  }

  lemma KillMore(jobs: map<JobId, Job>, ids: set<JobId>, c: JobId, now: Time)
    requires c !in ids
    ensures KillSome(jobs, ids + {c}, now) == KillOne(KillSome(jobs, ids, now), c, now)
    ensures IdleAmong(jobs, ids + {c}) == IdleAmong(jobs, ids) + IdleOne(KillSome(jobs, ids, now), c)
  {
    hide KillRow;
  }

  lemma KillAll(jobs: map<JobId, Job>, edges: set<(JobId, JobId)>, root: JobId, now: Time)
    ensures KillSome(jobs, Graph.Descendants(edges, root), now) == CancelDescendants(jobs, edges, root, now)
    ensures IdleAmong(jobs, Graph.Descendants(edges, root)) ==
        Killed(jobs, edges, root) <= CancelDescendants(jobs, edges, root, now).Keys
  {
    hide Graph.Descendants, KillRow;
  }

  // ---------------------------------------------------------------- what a failure does besides

  function KinCancelled(isDead: bool, jobs: map<JobId, Job>, edges: set<(JobId, JobId)>, root: JobId,
      now: Time): map<JobId, Job>
  {
    if isDead then CancelDescendants(jobs, edges, root, now) else jobs
  }

  function KinKilled(isDead: bool, jobs: map<JobId, Job>, edges: set<(JobId, JobId)>, root: JobId): set<JobId> {
    if isDead then Killed(jobs, edges, root) else {}
  }

  function FailTally(isDead: bool): Stat { if isDead then Stat(0, 0, 1, 0) else Stat(0, 1, 0, 0) }

  function FailTopic(isDead: bool, o: Outcome): Topic {
    if isDead then JobDeadLettered else if o.Lost? then JobLost else JobFailed
  }

  function WithDeadLetter(isDead: bool, dead: map<JobId, DeadRow>, job: JobId, row: DeadRow): map<JobId, DeadRow> {
    if isDead && job !in dead then dead[job := row] else dead
  }

  // ---------------------------------------------------------------- field by field

  lemma CompleteMisses(s: Db, job: JobId, fence: int, exec: ExecId, now: Time)
    requires !HeldAs(s, job, fence, Running)
    ensures Complete(s, job, fence, exec, now) == s
  {
    hide FinishDependents, Woken, EventsOf, ReleaseSlots, Count, CloseById, DurationOf;
  }

  lemma CompleteHits(s: Db, t: Db, job: JobId, fence: int, exec: ExecId, now: Time)
    requires HeldAs(s, job, fence, Running)
    requires var rows, j := s.jobs[job := CompleteRow(s.jobs[job], now)], s.jobs[job];
            && t.jobs == FinishDependents(rows, s.edges, job, now)
            && t.execs == CloseById(s.execs, exec, Success, now)
            && t.leases == s.leases - {job}
            && t.stats == Count(s.stats, j.queue, Minute(now), Stat(1, 0, 0, DurationOf(s.execs, exec, now)))
            && t.queues == ReleaseSlots(s.queues, j.queue, j.shard, 1)
            && t.events == s.events + EventsOf(JobQueued, Woken(rows, s.edges, job, now), t.jobs)
                + multiset{Event(JobCompleted, job, j.project)}
    requires t.edges == s.edges && t.grants == s.grants && t.dead == s.dead && t.fenced == s.fenced
        && t.clock == s.clock
    ensures t == Complete(s, job, fence, exec, now)
  {
    var rows := s.jobs[job := CompleteRow(s.jobs[job], now)];
    SameProjectEvents(JobQueued, Woken(rows, s.edges, job, now), s.jobs, rows, s.edges, job, now);
    hide FinishDependents, Woken, EventsOf, ReleaseSlots, Count, CloseById, DurationOf, Minute;
  }

  lemma FailMisses(s: Db, job: JobId, fence: Option<int>, o: Outcome, permanent: bool, backoff: Time, now: Time)
    requires !Failable(s, job, fence)
    ensures Fail(s, job, fence, o, permanent, backoff, now) == s
  {
    hide CancelDescendants, Killed, EventsOf, ReleaseSlots, Count, CloseOfJob;
  }

  lemma FailHits(s: Db, t: Db, job: JobId, fence: Option<int>, o: Outcome, permanent: bool, backoff: Time, now: Time)
    requires Failable(s, job, fence)
    requires var rows, j := s.jobs[job := FailRow(s.jobs[job], permanent, backoff, now)], s.jobs[job];
            var isDead := Exhausted(j, permanent);
            && t.jobs == KinCancelled(isDead, rows, s.edges, job, now)
            && t.execs == CloseOfJob(s.execs, job, o, now)
            && t.leases == s.leases - {job}
            && t.stats == Count(s.stats, j.queue, Minute(now), FailTally(isDead))
            && t.dead == WithDeadLetter(isDead, s.dead, job,
                DeadRow(j.queue, j.project, DeadReason(permanent, o), now, None))
            && t.queues == ReleaseSlots(s.queues, j.queue, j.shard, 1)
            && t.events == s.events + EventsOf(JobCancelled(true), KinKilled(isDead, rows, s.edges, job), t.jobs)
                           + multiset{Event(FailTopic(isDead, o), job, j.project)}
    requires t.edges == s.edges && t.grants == s.grants && t.fenced == s.fenced && t.clock == s.clock
    ensures t == Fail(s, job, fence, o, permanent, backoff, now)
  {
    var rows := s.jobs[job := FailRow(s.jobs[job], permanent, backoff, now)];
    SameKilledEvents(JobCancelled(true), Killed(rows, s.edges, job), s.jobs, rows, s.edges, job, now);
    assert EventsOf(JobCancelled(true), {}, t.jobs) == multiset{};
    hide FailRow, CancelDescendants, Killed, EventsOf, ReleaseSlots, Count, CloseOfJob, Minute, DeadReason;
  }

  lemma SnoozeMisses(s: Db, job: JobId, fence: Option<int>, exec: ExecId, delay: Time, now: Time)
    requires !Snoozable(s, job, fence, delay, now)
    ensures Snooze(s, job, fence, exec, delay, now) == s
  {
    hide ReleaseSlots, CloseById, SnoozeRow;
  }

  lemma SnoozeHits(s: Db, t: Db, job: JobId, fence: Option<int>, exec: ExecId, delay: Time, now: Time)
    requires Snoozable(s, job, fence, delay, now)
    requires t == s.(jobs := s.jobs[job := SnoozeRow(s.jobs[job], delay, now)],
                     execs := CloseById(s.execs, exec, Snoozed, now), leases := s.leases - {job},
                     queues := ReleaseSlots(s.queues, s.jobs[job].queue, s.jobs[job].shard, 1),
                     events := s.events + multiset{Event(JobSnoozed, job, s.jobs[job].project)})
    ensures t == Snooze(s, job, fence, exec, delay, now)
  {
    hide ReleaseSlots, CloseById, SnoozeRow;
  }

  lemma SameProjectEvents(topic: Topic, woke: set<JobId>, jobs: map<JobId, Job>, rows: map<JobId, Job>,
      edges: set<(JobId, JobId)>, job: JobId, now: Time)
    requires job in jobs && job in rows && rows == jobs[job := rows[job]] && rows[job].project == jobs[job].project
    ensures EventsOf(topic, woke, FinishDependents(rows, edges, job, now)) == EventsOf(topic, woke, jobs)
  {
    Batch.EventsSame(topic, woke, FinishDependents(rows, edges, job, now), jobs);
  }

  lemma SameKilledEvents(topic: Topic, killed: set<JobId>, jobs: map<JobId, Job>, rows: map<JobId, Job>,
      edges: set<(JobId, JobId)>, job: JobId, now: Time)
    requires job in jobs && job in rows && rows == jobs[job := rows[job]] && rows[job].project == jobs[job].project
    ensures EventsOf(topic, killed, CancelDescendants(rows, edges, job, now)) == EventsOf(topic, killed, jobs)
  {
    hide Killed;
    Batch.EventsSame(topic, killed, CancelDescendants(rows, edges, job, now), jobs);
  }
}
