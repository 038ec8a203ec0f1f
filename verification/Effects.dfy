/** What each transaction does to the tables, column by column: which rows it must change, what it
    writes there, and that it changes nothing else.  The statements use the columns alone and none
    of the functions the transactions are built from. */
module Effects {
  import opened Schema
  import opened Transactions
  import A = Admission
  import Graph
  import opened Protocol
  import opened Fencing
  import Frames
  import Rows
  import Findings
  import L = Ledger
  import Deps = Dependencies

  /** A row of queue_stats_minute before it was written. */
  function StatAt(s: Db, q: QueueId, m: int): Stat {
    if (q, m) in s.stats then s.stats[(q, m)] else Stat(0, 0, 0, 0)
  }

  /** One counter of one queue is n lower, but not below zero; all else about queues is as it was. */
  predicate SlotsBack(s: Db, t: Db, q: QueueId, sh: nat, n: int) {
    && t.queues.Keys == s.queues.Keys
    && forall p :: p in s.queues ==>
         && t.queues[p] == s.queues[p].(shards := t.queues[p].shards) && |t.queues[p].shards| == |s.queues[p].shards|
         && forall i :: 0 <= i < |s.queues[p].shards| ==>
              var a, b := s.queues[p].shards[i], t.queues[p].shards[i];
              b == a.(inFlight := b.inFlight)
              && (p == q && i == sh ==> b.inFlight == if a.inFlight >= n then a.inFlight - n else 0)
              && (p != q || i != sh ==> b.inFlight == a.inFlight)
  }

  lemma Released(s: Db, t: Db, q: QueueId, sh: nat, n: int)
    requires t.queues == ReleaseSlots(s.queues, q, sh, n)
    ensures SlotsBack(s, t, q, sh, n)
  {
  }

  // ---------------------------------------------------------------- submission

  /** The id is new, the queue is one of the project's, the policy allows an attempt, and every named
      parent exists and is named once. */
  predicate Fine(s: Db, r: Submission) {
    && r.policy.maxAttempts >= 1 && r.id !in s.jobs && r.queue in s.queues && s.queues[r.queue].project == r.project
    && (forall i :: 0 <= i < |r.parents| ==> r.parents[i] in s.jobs)
    && (forall i, k :: 0 <= i < k < |r.parents| ==> r.parents[i] != r.parents[k])
  }

  /** The named parents of the same project that are not finished. */
  function Unfinished(s: Db, r: Submission): set<JobId> {
    set p | p in r.parents && p in s.jobs && s.jobs[p].project == r.project
      && s.jobs[p].status in {Scheduled, Queued, Claimed, Running, RetryWait}
  }

  lemma FineIsAcceptable(s: Db, r: Submission)
    ensures Fine(s, r) <==> Acceptable(s, r)
    ensures Unfinished(s, r) == LiveParents(s.jobs, r.parents, r.project)
  {
  }

  lemma SubmissionRefused(s: Db, r: Submission, now: Time)
    requires !Fine(s, r)
    ensures Submit(s, r, now) == s
  {
    FineIsAcceptable(s, r);
    hide LiveParents, NewJob, Acceptable, Fine;
  }

  /** A fine submission adds its row, an edge for every parent it names and one event. */
  lemma SubmissionIs(s: Db, r: Submission, now: Time)
    requires Fine(s, r)
    ensures var t := Submit(s, r, now);
            && t.jobs.Keys == s.jobs.Keys + {r.id} && (forall j :: j in s.jobs ==> t.jobs[j] == s.jobs[j])
            && (forall e :: e in t.edges <==> e in s.edges || (e.0 in r.parents && e.1 == r.id))
            && t.events == s.events + multiset{Event(JobSubmitted, r.id, r.project)}
            && t == s.(jobs := t.jobs, edges := t.edges, events := t.events)
  {
    hide *;
    FineIsAcceptable(s, r);
    FineIsNew(s, r);
    SubmittedTables(s, r, now);
    SubmittedEdges(s.edges, r);
  }

  lemma FineIsNew(s: Db, r: Submission)
    requires Fine(s, r)
    ensures r.id !in s.jobs
  {
  }

  lemma SubmittedTables(s: Db, r: Submission, now: Time)
    requires Acceptable(s, r)
    ensures var t := Submit(s, r, now);
            && t == s.(jobs := t.jobs, edges := t.edges, events := t.events)
            && r.id in t.jobs && t.jobs == s.jobs[r.id := t.jobs[r.id]]
            && t.edges == s.edges + (set p | p in r.parents :: (p, r.id))
            && t.events == s.events + multiset{Event(JobSubmitted, r.id, r.project)}
  {
    hide LiveParents, NewJob, Acceptable;
  }

  lemma SubmittedEdges(edges: set<(JobId, JobId)>, r: Submission)
    ensures forall e :: e in edges + (set p | p in r.parents :: (p, r.id)) <==>
        e in edges || (e.0 in r.parents && e.1 == r.id)
  {
    forall e: (JobId, JobId) | e.0 in r.parents && e.1 == r.id ensures e in (set p | p in r.parents :: (p, r.id)) {
      assert e == (e.0, r.id);
    }
  }

  /** It waits while an unfinished parent is counted, and until its time. */
  lemma SubmittedRow(s: Db, r: Submission, now: Time)
    requires Fine(s, r)
    ensures var t := Submit(s, r, now);
            r.id in t.jobs
            && var j, live := t.jobs[r.id], Unfinished(s, r);
            && j.project == r.project && j.queue == r.queue && j.policy == r.policy && j.timeout == r.timeout
            && j.pendingDeps == |live| && j.waitsOn == live && j.createdAt == now
            && (r.runAt.Some? ==> j.runAt == r.runAt.value) && (r.runAt.None? ==> j.runAt == now)
            && j.status == (if live != {} || j.runAt > now then Scheduled else Queued)
            && j.fence == 0 && j.attempts == 0 && j.generation == 0 && j.snoozes == 0
            && j.worker.None? && j.claimedAt.None? && j.deadlineAt.None? && j.startedAt.None? && j.finishedAt.None?
  {
    FineIsAcceptable(s, r);
    hide LiveParents, Acceptable, Fine, Unfinished;
    assert |Unfinished(s, r)| > 0 <==> Unfinished(s, r) != {};
  }

  /** A cron job is queued at once, due at its tick, and waits on nobody. */
  lemma FiringIs(s: Db, r: Submission, tick: Time, now: Time)
    requires Fine(s, r)
    ensures var t := Fire(s, r, tick, now);
            && t.jobs.Keys == s.jobs.Keys + {r.id} && (forall j :: j in s.jobs ==> t.jobs[j] == s.jobs[j])
            && t.events == s.events + multiset{Event(JobScheduled, r.id, r.project)}
            && t == s.(jobs := t.jobs, events := t.events)
            && t.jobs[r.id].status == Queued && t.jobs[r.id].runAt == tick && t.jobs[r.id].pendingDeps == 0
            && t.jobs[r.id].queue == r.queue && t.jobs[r.id].createdAt == now && t.jobs[r.id].fence == 0
  {
    FineIsAcceptable(s, r);
    FineIsNew(s, r);
    hide Acceptable, Fine;
  }

  // ---------------------------------------------------------------- claiming and running

  /** The rows a claim may take on a grant that is still good. */
  predicate MayTake(s: Db, g: nat, ids: set<JobId>, now: Time) {
    && g < |s.grants| && s.grants[g].n > 0 && !s.grants[g].lost && |ids| <= s.grants[g].n
    && forall j :: j in ids ==>
         j in s.jobs && s.jobs[j].status == Queued && s.jobs[j].runAt <= now && s.jobs[j].queue == s.grants[g].queue
  }

  lemma MayTakeIs(s: Db, g: nat, ids: set<JobId>, now: Time)
    ensures MayTake(s, g, ids, now) <==> LiveGrant(s, g) && Claimable(s, g, ids, now)
  {
  }

  /** The claim takes the next fence, the grant's shard and the whole timeout. */
  lemma ClaimIs(s: Db, g: nat, ids: set<JobId>, worker: WorkerId, lease: Time, now: Time)
    ensures var t := Take(s, g, ids, worker, lease, now);
            && (!MayTake(s, g, ids, now) ==> t == s)
            && (MayTake(s, g, ids, now) ==>
                 && t.jobs.Keys == s.jobs.Keys
                 && t == s.(jobs := t.jobs, leases := t.leases, queues := t.queues, grants := t.grants)
                 && (forall j :: j in s.jobs && j !in ids ==> t.jobs[j] == s.jobs[j])
                 && (forall j :: j in s.jobs && j in ids ==>
                       t.jobs[j] == s.jobs[j].(status := Claimed, fence := s.jobs[j].fence + 1,
                         shard := s.grants[g].shard, worker := Some(worker), claimedAt := Some(now),
                         deadlineAt := Some(now + s.jobs[j].timeout))))
  {
    MayTakeIs(s, g, ids, now);
    hide MayTake, Claimable, LiveGrant, ReleaseSlots;
  }

  /** Each claim comes with a lease of its own under its fence; slots that found no job go back. */
  lemma ClaimBooks(s: Db, g: nat, ids: set<JobId>, worker: WorkerId, lease: Time, now: Time)
    requires MayTake(s, g, ids, now)
    ensures var t := Take(s, g, ids, worker, lease, now);
            && (forall j :: j in ids ==>
                  j in s.jobs && j in t.leases && t.leases[j] == Lease(s.jobs[j].fence + 1, worker, now + lease))
            && (forall j :: j !in ids ==>
                  (j in t.leases <==> j in s.leases) && (j in s.leases ==> t.leases[j] == s.leases[j]))
            && t.grants == s.grants[g := s.grants[g].(n := 0)]
            && SlotsBack(s, t, s.grants[g].queue, s.grants[g].shard, s.grants[g].n - |ids|)
  {
    MayTakeIs(s, g, ids, now);
    hide Claimable, LiveGrant, ClaimRow, ReleaseSlots, SlotsBack;
    Released(s, Take(s, g, ids, worker, lease, now), s.grants[g].queue, s.grants[g].shard, s.grants[g].n - |ids|);
  }

  /** A claim that could not be made gives all its slots back. */
  lemma GiveBackIs(s: Db, g: nat)
    requires g < |s.grants| && s.grants[g].n > 0 && !s.grants[g].lost
    ensures var t := GiveBack(s, g);
            && t.grants == s.grants[g := s.grants[g].(n := 0)] && t == s.(queues := t.queues, grants := t.grants)
            && SlotsBack(s, t, s.grants[g].queue, s.grants[g].shard, s.grants[g].n)
  {
    Released(s, GiveBack(s, g), s.grants[g].queue, s.grants[g].shard, s.grants[g].n);
    hide ReleaseSlots, SlotsBack;
  }

  lemma StartIs(s: Db, job: JobId, fence: int, worker: WorkerId, exec: ExecId, now: Time)
    requires exec !in s.execs
    ensures var t := Start(s, job, fence, worker, exec, now);
            var held := job in s.jobs && s.jobs[job].fence == fence && s.jobs[job].status == Claimed;
            && (!held ==> t == s)
            && (held ==>
                 var j := s.jobs[job];
                 && t.jobs == s.jobs[job := j.(status := Running, startedAt := Some(now), attempts := j.attempts + 1)]
                 && t.execs == s.execs[exec :=
                      Exec(job, j.queue, j.attempts + 1, j.generation, fence, worker, now, None)]
                 && t == s.(jobs := t.jobs, execs := t.execs))
  {
  }

  /** The lease is renewed to its full length or to the deadline, whichever comes first. */
  lemma ExtensionIs(s: Db, job: JobId, fence: int, lease: Time, now: Time)
    ensures var t := Extend(s, job, fence, lease, now);
            var held := job in s.jobs && s.jobs[job].fence == fence && s.jobs[job].status == Running && job in s.leases;
            && (!held ==> t == s)
            && (held ==>
                 && t.leases.Keys == s.leases.Keys && t == s.(leases := t.leases)
                 && (forall j :: j in s.leases && j != job ==> t.leases[j] == s.leases[j])
                 && t.leases[job] == s.leases[job].(expiresAt := t.leases[job].expiresAt)
                 && t.leases[job].expiresAt <= now + lease
                 && (s.jobs[job].deadlineAt.Some? ==> t.leases[job].expiresAt <= s.jobs[job].deadlineAt.value)
                 && (t.leases[job].expiresAt == now + lease || s.jobs[job].deadlineAt == Some(t.leases[job].expiresAt)))
  {
  }

  // ---------------------------------------------------------------- completion

  /** What one finished parent does to a row below it. */
  predicate CountedDown(a: Job, b: Job, now: Time) {
    if a.status == Scheduled && a.pendingDeps > 0 then
      b == a.(pendingDeps := a.pendingDeps - 1,
              status := if a.pendingDeps == 1 && a.runAt <= now then Queued else Scheduled)
    else b == a
  }

  /** A running job under its own fence is completed and every child counts one parent less; the others
      stay.  Any other call changes nothing. */
  lemma CompletionRows(s: Db, job: JobId, fence: int, exec: ExecId, now: Time)
    ensures var t := Complete(s, job, fence, exec, now);
            var held := job in s.jobs && s.jobs[job].fence == fence && s.jobs[job].status == Running;
            && (!held ==> t == s)
            && (held ==>
                 && t.jobs.Keys == s.jobs.Keys
                 && t.jobs[job] == s.jobs[job].(status := Completed, finishedAt := Some(now), worker := None)
                 && forall c :: c in s.jobs && c != job ==>
                      if (job, c) in s.edges then CountedDown(s.jobs[c], t.jobs[c], now) else t.jobs[c] == s.jobs[c])
  {
    hide CloseById, Woken, EventsOf, ReleaseSlots, Count, DurationOf;
  }

  /** The named execution is closed as a success if it is open, the lease goes, the minute counts one
      completion and its duration in milliseconds, and the shard gets its slot back. */
  lemma CompletionBooks(s: Db, job: JobId, fence: int, exec: ExecId, now: Time)
    requires job in s.jobs && s.jobs[job].fence == fence && s.jobs[job].status == Running
    ensures var t := Complete(s, job, fence, exec, now);
            var q, m := s.jobs[job].queue, (now / 60.0).Floor;
            var open := exec in s.execs && s.execs[exec].closed.None?;
            var ms := if open then ((now - s.execs[exec].startedAt) * 1000.0 + 0.5).Floor else 0;
            && t.execs == (if open then s.execs[exec := s.execs[exec].(closed := Some(Closing(Success, now)))]
                else s.execs)
            && t.leases == s.leases - {job}
            && t.stats == s.stats[(q, m) := StatAt(s, q, m).(completed := StatAt(s, q, m).completed + 1,
                                                             durationMs := StatAt(s, q, m).durationMs + ms)]
            && SlotsBack(s, t, q, s.jobs[job].shard, 1)
            && t.dead == s.dead && t.edges == s.edges && t.grants == s.grants && t.fenced == s.fenced
  {
    hide FinishDependents, Woken, EventsOf, ReleaseSlots, CompleteRow, SlotsBack;
    var t := Complete(s, job, fence, exec, now);
    Released(s, t, s.jobs[job].queue, s.jobs[job].shard, 1);
    assert Minute(now) == (now / 60.0).Floor;
  }

  /** Announced are the completion and every job that went from waiting to queued, no other. */
  lemma CompletionEvents(s: Db, job: JobId, fence: int, exec: ExecId, now: Time)
    requires job in s.jobs && s.jobs[job].fence == fence && s.jobs[job].status == Running
    ensures var t := Complete(s, job, fence, exec, now);
            t.events == s.events + multiset{Event(JobCompleted, job, s.jobs[job].project)}
              + multiset(set c | c in s.jobs && c in t.jobs && s.jobs[c].status == Scheduled
                && t.jobs[c].status == Queued ::
                           Event(JobQueued, c, s.jobs[c].project))
  {
    var t := Complete(s, job, fence, exec, now);
    var rows := s.jobs[job := s.jobs[job].(status := Completed, finishedAt := Some(now), worker := None)];
    CompletionRows(s, job, fence, exec, now);
    var woke := Woken(rows, s.edges, job, now);
    var woken := set c | c in s.jobs && c in t.jobs && s.jobs[c].status == Scheduled && t.jobs[c].status == Queued;
    assert t.events == s.events + EventsOf(JobQueued, woke, s.jobs)
        + multiset{Event(JobCompleted, job, s.jobs[job].project)} by {
      hide EventsOf, Woken, FinishDependents, CloseById, ReleaseSlots, Count, DurationOf;
    }
    hide Complete;
    assert woke == woken;
    assert (set c | c in woken && c in s.jobs :: Event(JobQueued, c, s.jobs[c].project))
        == (set c | c in s.jobs && c in t.jobs && s.jobs[c].status == Scheduled && t.jobs[c].status == Queued ::
              Event(JobQueued, c, s.jobs[c].project));
  }

  // ---------------------------------------------------------------- batch completion

  /** Some entry of the batch names the job, running, under its own fence. */
  predicate Finishes(s: Db, batch: seq<Done>, j: JobId) {
    && j in s.jobs && s.jobs[j].status == Running
    && exists i :: 0 <= i < |batch| && batch[i].job == j && batch[i].fence == s.jobs[j].fence
  }

  lemma {:induction false} FinishedAreMatched(s: Db, batch: seq<Done>, j: JobId)
    ensures j in JobsOf(Matched(s, batch)) <==> Finishes(s, batch, j)
  {
    if batch != [] {
      var n, d := |batch| - 1, batch[|batch| - 1];
      var m := Matched(s, batch[..n]);
      FinishedAreMatched(s, batch[..n], j);
      assert forall i :: 0 <= i < n ==> batch[..n][i] == batch[i];
      assert Named(m, d.job) <==> d.job in JobsOf(m);
      assert Finishes(s, batch, j) <==> Finishes(s, batch[..n], j) || (d.job == j && HeldAs(s, j, d.fence, Running));
      assert JobsOf(m + [d]) == JobsOf(m) + {d.job};
    }
  }

  /** What k finished parents do to a row below them. */
  predicate CountedDownBy(a: Job, b: Job, k: nat, now: Time) {
    if a.status == Scheduled && a.pendingDeps > 0 then
      if k < a.pendingDeps then b == a.(pendingDeps := a.pendingDeps - k)
      else b == a.(pendingDeps := 0, status := if a.runAt <= now then Queued else Scheduled)
    else b == a
  }

  lemma BatchEffect(s: Db, batch: seq<Done>, now: Time, done: set<JobId>)
    requires forall j :: j in done <==> Finishes(s, batch, j)
    ensures var t := CompleteBatch(s, batch, now);
            (done == {} ==> t == s) && (done != {} ==> t.jobs == AfterDone(s, done, now) && t.leases == s.leases - done)
  {
    var m := Matched(s, batch);
    forall j ensures j in JobsOf(m) <==> Finishes(s, batch, j) { FinishedAreMatched(s, batch, j); }
    assert JobsOf(m) == done;
    if m == [] {
      Deps.BatchNothing(s, batch, now);
    } else {
      L.BatchParts(s, batch, now);
      assert m[0].job in JobsOf(m);
    }
    hide CompleteBatch, AfterDone;
  }

  lemma CountedByBatch(s: Db, done: set<JobId>, now: Time, j: JobId)
    requires j in s.jobs && j !in done && done <= s.jobs.Keys
    ensures CountedDownBy(s.jobs[j], AfterDone(s, done, now)[j], |set p | p in done && (p, j) in s.edges|, now)
  {
    assert DoneParents(s.edges, done, j) == set p | p in done && (p, j) in s.edges;
    Rows.RepeatIs(s.jobs[j], |DoneParents(s.edges, done, j)|, now);
  }

  /** A batch completes exactly the running jobs that some entry names under their fence, and every other
      job counts down by the number of its parents among them. */
  lemma BatchRows(s: Db, batch: seq<Done>, now: Time)
    ensures var t, done := CompleteBatch(s, batch, now), set j | j in s.jobs && Finishes(s, batch, j);
            && t.jobs.Keys == s.jobs.Keys && t.leases == s.leases - done
            && (forall j :: j in done ==>
                  t.jobs[j] == s.jobs[j].(status := Completed, finishedAt := Some(now), worker := None))
            && (forall j :: j in s.jobs && j !in done ==>
                  CountedDownBy(s.jobs[j], t.jobs[j], |set p | p in done && (p, j) in s.edges|, now))
  {
    var t, done := CompleteBatch(s, batch, now), set j | j in s.jobs && Finishes(s, batch, j);
    assert forall j :: j in done <==> Finishes(s, batch, j);
    BatchEffect(s, batch, now, done);
    hide CompleteBatch, Finishes;
    if done == {} {
      assert t.leases == s.leases - done;
      forall j | j in s.jobs ensures |set p | p in done && (p, j) in s.edges| == 0 {
        assert (set p | p in done && (p, j) in s.edges) == {};
      }
    } else {
      forall j | j in s.jobs && j !in done
        ensures CountedDownBy(s.jobs[j], t.jobs[j], |set p | p in done && (p, j) in s.edges|, now)
      {
        CountedByBatch(s, done, now, j);
      }
    }
  }

  // ---------------------------------------------------------------- failure

  /** What being cancelled with an ancestor does to a row that waits: nothing that holds a slot or has
      finished is touched. */
  predicate CancelledWith(a: Job, b: Job, now: Time) {
    if a.status in {Scheduled, Queued, RetryWait} then
      b == a.(status := Cancelled, finishedAt := Some(now), pendingDeps := 0, worker := None)
    else b == a
  }

  /** A job that a failure report or the reaper hits. */
  predicate Hit(s: Db, job: JobId, fence: Option<int>) {
    job in s.jobs && s.jobs[job].status in {Claimed, Running} && (fence.None? || fence.value == s.jobs[job].fence)
  }

  /** A held job whose failure is permanent, or that has used its attempts, is dead-lettered and what
      waits below it is cancelled; any other goes to retry_wait until the delay is over, and no other
      row changes.  A call that hits nothing changes nothing. */
  lemma FailureRows(s: Db, job: JobId, fence: Option<int>, o: Outcome, permanent: bool, backoff: Time, now: Time)
    ensures var t := Fail(s, job, fence, o, permanent, backoff, now);
            && (!Hit(s, job, fence) ==> t == s)
            && (Hit(s, job, fence) ==>
                 var j := s.jobs[job];
                 && t.jobs.Keys == s.jobs.Keys
                 && (t.jobs[job].status == DeadLetter <==> permanent || j.attempts >= j.policy.maxAttempts)
                 && (t.jobs[job].status == DeadLetter ==>
                      && t.jobs[job] == j.(status := DeadLetter, finishedAt := Some(now), worker := None)
                      && forall c :: c in s.jobs && c != job ==>
                           if Graph.Reaches(s.edges, job, c) then CancelledWith(s.jobs[c], t.jobs[c], now)
                           else t.jobs[c] == s.jobs[c])
                 && (t.jobs[job].status != DeadLetter ==>
                      && t.jobs[job] == j.(status := RetryWait, runAt := now + backoff, finishedAt := None,
                          worker := None)
                      && forall c :: c in s.jobs && c != job ==> t.jobs[c] == s.jobs[c]))
  {
    if Hit(s, job, fence) {
      var rows := s.jobs[job := FailRow(s.jobs[job], permanent, backoff, now)];
      forall c | c in rows && c != job ensures
        CancelDescendants(rows, s.edges, job, now)[c] ==
          if Graph.Reaches(s.edges, job, c) && Idle(rows[c].status) then KillRow(rows[c], now) else rows[c]
      {
        Deps.CascadeIsExact(s.(jobs := rows), job, now, c);
      }
      RootStays(rows, s.edges, job, now);
      FailedRows(s, job, fence, o, permanent, backoff, now);
      hide Fail, CancelDescendants, Graph.Reaches;
    } else {
      hide CancelDescendants, Killed, EventsOf, ReleaseSlots, Count, CloseOfJob, DeadReason, FailRow, Exhausted;
    }
  }

  lemma FailureDecides(s: Db, job: JobId, fence: Option<int>, o: Outcome, permanent: bool, backoff: Time, now: Time)
    ensures Failable(s, job, fence) ==>
        var t, j := Fail(s, job, fence, o, permanent, backoff, now), s.jobs[job];
        job in t.jobs && if permanent || j.attempts >= j.policy.maxAttempts then t.jobs[job].status == DeadLetter
                         else t.jobs[job].status == RetryWait && t.jobs[job].runAt == now + backoff
  {
    FailureRows(s, job, fence, o, permanent, backoff, now);
    hide Fail, Graph.Reaches;
  }

  /** The fence a failing call carries; the reaper carries none. */
  function FenceOf(op: Op): Option<int> { if op.DoFail? then Some(op.fence) else None }

  predicate ReportsFailure(op: Op, job: JobId) { (op.DoFail? || op.DoReap?) && op.job == job }

  lemma FailureStep(s: Db, a: Act, job: JobId)
    requires ReportsFailure(a.op, job) && Hit(s, job, FenceOf(a.op))
    ensures var t := Step(s, a);
            var spent := (a.op.DoFail? && a.op.permanent) || s.jobs[job].attempts >= s.jobs[job].policy.maxAttempts;
            && t.jobs.Keys == s.jobs.Keys && t.jobs[job].status == (if spent then DeadLetter else RetryWait)
            && (!spent ==> forall c :: c in s.jobs && c != job ==> t.jobs[c] == s.jobs[c])
  {
    hide Fail, Graph.Reaches;
    match a.op
    case DoFail(_, f, o, p, d) => FailureRows(s, job, Some(f), o, p, d, a.now);
    case DoReap(_, d) => FailureRows(s, job, None, Lost, false, d, a.now);
  }

  lemma FailureKillsItsOwn(s: Db, j: JobId, f: Option<int>, o: Outcome, p: bool, d: Time, now: Time, job: JobId)
    requires job in s.jobs && s.jobs[job].status != DeadLetter
    ensures var t := Fail(s, j, f, o, p, d, now);
            job in t.jobs && (t.jobs[job].status == DeadLetter ==> j == job && Hit(s, job, f))
  {
    FailureRows(s, j, f, o, p, d, now);
    hide Fail, Graph.Reaches;
  }

  lemma ReplayKillsNone(s: Db, op: Op, now: Time, job: JobId)
    requires job in s.jobs && s.jobs[job].status != DeadLetter && (op.DoReplay? || op.DoReplayDead?)
    ensures job in Apply(s, op, now).jobs && Apply(s, op, now).jobs[job].status != DeadLetter
  {
    hide CancelledKin, EventsOf, MarkReplayed;
  }

  lemma FailureApplied(s: Db, op: Op, now: Time, job: JobId)
    requires (op.DoFail? || op.DoReap?) && job in s.jobs && s.jobs[job].status != DeadLetter
    ensures var t := Apply(s, op, now);
            job in t.jobs && (t.jobs[job].status == DeadLetter ==> ReportsFailure(op, job) && Hit(s, job, FenceOf(op)))
  {
    hide Fail, Hit;
    if op.DoFail? {
      FailureKillsItsOwn(s, op.job, Some(op.fence), op.outcome, op.permanent, op.backoff, now, job);
    } else {
      FailureKillsItsOwn(s, op.job, None, Lost, false, op.backoff, now, job);
    }
  }

  lemma OthersKillNone(s: Db, op: Op, now: Time, job: JobId)
    requires !op.DoFail? && !op.DoReap? && !op.DoReplay? && !op.DoReplayDead?
    requires job in s.jobs && s.jobs[job].status != DeadLetter
    ensures job in Apply(s, op, now).jobs && Apply(s, op, now).jobs[job].status != DeadLetter
  {
    assert Frames.DeadRows !in Frames.Writes(op);
    hide Apply, Frames.Writes;
    Findings.OthersLive(s, op, now);
  }

  lemma StepRows(s: Db, a: Act)
    ensures Step(s, a).jobs == Apply(s, a.op, a.now).jobs
  {
    hide Apply;
  }

  lemma OnlyFailuresKill(s: Db, a: Act, job: JobId)
    requires job in s.jobs && s.jobs[job].status != DeadLetter
    requires job in Step(s, a).jobs && Step(s, a).jobs[job].status == DeadLetter
    ensures ReportsFailure(a.op, job) && Hit(s, job, FenceOf(a.op))
  {
    hide *;
    StepRows(s, a);
    if a.op.DoFail? || a.op.DoReap? {
      FailureApplied(s, a.op, a.now, job);
    } else if a.op.DoReplay? || a.op.DoReplayDead? {
      ReplayKillsNone(s, a.op, a.now, job);
    } else {
      OthersKillNone(s, a.op, a.now, job);
    }
  }

  /** In every run a failure that hits its job dead-letters it if and only if it is permanent or the
      handler was started max_attempts times in the current generation, replays starting the count
      anew; otherwise the job waits for its retry and no other row changes. */
  lemma RetriedWhileAttemptsLeft(ss: seq<Db>, acts: seq<Act>, k: nat, job: JobId)
    requires IsRun(ss, acts) && Fresh(ss[0]) && k < |acts|
    requires ReportsFailure(acts[k].op, job) && Hit(ss[k], job, FenceOf(acts[k].op))
    ensures var j, op := ss[k].jobs[job], acts[k].op;
            var spent := (op.DoFail? && op.permanent) || |L.ExecsIn(ss[k], job, j.generation)| >= j.policy.maxAttempts;
            && job in ss[k + 1].jobs && ss[k + 1].jobs[job].status == (if spent then DeadLetter else RetryWait)
            && (!spent ==>
                 && ss[k + 1].jobs.Keys == ss[k].jobs.Keys
                 && forall c :: c in ss[k].jobs && c != job ==> ss[k + 1].jobs[c] == ss[k].jobs[c])
  {
    RunStep(ss, acts, k);
    L.StartsAreCounted(ss, acts, k, job);
    hide IsRun, Step, L.ExecsIn;
    FailureStep(ss[k], acts[k], job);
  }

  /** In every run a job becomes a dead letter only by a failure or reap of its own that is permanent or
      comes after max_attempts starts in the current generation. */
  lemma DeadOnlyWhenSpent(ss: seq<Db>, acts: seq<Act>, k: nat, job: JobId)
    requires IsRun(ss, acts) && Fresh(ss[0]) && k < |acts| && job in ss[k].jobs && job in ss[k + 1].jobs
    requires ss[k].jobs[job].status != DeadLetter && ss[k + 1].jobs[job].status == DeadLetter
    ensures ReportsFailure(acts[k].op, job)
    ensures (acts[k].op.DoFail? && acts[k].op.permanent)
        || |L.ExecsIn(ss[k], job, ss[k].jobs[job].generation)| >= ss[k].jobs[job].policy.maxAttempts
  {
    RunStep(ss, acts, k);
    hide Step, L.ExecsIn, Hit, ReportsFailure;
    OnlyFailuresKill(ss[k], acts[k], job);
    RetriedWhileAttemptsLeft(ss, acts, k, job);
  }

  lemma FailedRows(s: Db, job: JobId, fence: Option<int>, o: Outcome, permanent: bool, backoff: Time, now: Time)
    requires Hit(s, job, fence)
    ensures var rows := s.jobs[job := FailRow(s.jobs[job], permanent, backoff, now)];
            Fail(s, job, fence, o, permanent, backoff, now).jobs ==
              if Exhausted(s.jobs[job], permanent) then CancelDescendants(rows, s.edges, job, now) else rows
  {
    hide CancelDescendants, Killed, EventsOf, ReleaseSlots, Count, CloseOfJob, DeadReason, FailRow, Exhausted;
  }

  lemma RootStays(rows: map<JobId, Job>, edges: set<(JobId, JobId)>, root: JobId, now: Time)
    requires root in rows
    ensures CancelDescendants(rows, edges, root, now).Keys == rows.Keys
    ensures rows[root].status in {DeadLetter, RetryWait} && rows[root].status != RetryWait ==>
        CancelDescendants(rows, edges, root, now)[root] == rows[root]
  {
    hide Graph.Descendants;
  }

  /** What is open for the job is closed with the reported outcome, the lease goes, the shard gets its
      slot back, and the minute counts one failure or one dead letter. */
  lemma FailureBooks(s: Db, job: JobId, fence: Option<int>, o: Outcome, permanent: bool, backoff: Time, now: Time)
    requires Hit(s, job, fence)
    ensures var t := Fail(s, job, fence, o, permanent, backoff, now);
            var j, q, m := s.jobs[job], s.jobs[job].queue, (now / 60.0).Floor;
            var gone := permanent || j.attempts >= j.policy.maxAttempts;
            && t.execs.Keys == s.execs.Keys
            && (forall x :: x in s.execs ==>
                  t.execs[x] == if s.execs[x].job == job && s.execs[x].closed.None?
                                then s.execs[x].(closed := Some(Closing(o, now))) else s.execs[x])
            && t.leases == s.leases - {job} && SlotsBack(s, t, q, j.shard, 1)
            && t.stats == s.stats[(q, m) :=
                 if gone then StatAt(s, q, m).(deadLettered := StatAt(s, q, m).deadLettered + 1)
                 else StatAt(s, q, m).(failed := StatAt(s, q, m).failed + 1)]
            && t.edges == s.edges && t.grants == s.grants && t.fenced == s.fenced
  {
    hide CancelDescendants, Killed, EventsOf, ReleaseSlots, DeadReason, FailRow, SlotsBack;
    var t := Fail(s, job, fence, o, permanent, backoff, now);
    var q, sh := s.jobs[job].queue, s.jobs[job].shard;
    Released(s, t, q, sh, 1);
    assert Minute(now) == (now / 60.0).Floor;
  }

  /** The first dead letter of a job writes its row, with the reason; a later one leaves that row alone. */
  lemma FailureLetters(s: Db, job: JobId, fence: Option<int>, o: Outcome, permanent: bool, backoff: Time, now: Time)
    requires Hit(s, job, fence)
    ensures var t := Fail(s, job, fence, o, permanent, backoff, now);
            var j := s.jobs[job];
            if (permanent || j.attempts >= j.policy.maxAttempts) && job !in s.dead then
              t.dead == s.dead[job := DeadRow(j.queue, j.project,
                if permanent then PermanentFailure else if o == Lost then LostExhausted else AttemptsExhausted, now,
                  None)]
            else t.dead == s.dead
  {
    hide CancelDescendants, Killed, EventsOf, ReleaseSlots, FailRow, Count, CloseOfJob;
  }

  /** Announced are the failure, the loss or the dead letter, and every job cancelled with it. */
  lemma FailureEvents(s: Db, job: JobId, fence: Option<int>, o: Outcome, permanent: bool, backoff: Time, now: Time)
    requires Hit(s, job, fence)
    ensures var t := Fail(s, job, fence, o, permanent, backoff, now);
            var j := s.jobs[job];
            var gone := permanent || j.attempts >= j.policy.maxAttempts;
            t.events == s.events
              + multiset{Event(if gone then JobDeadLettered else if o == Lost then JobLost else JobFailed, job,
                j.project)}
              + multiset(set c | c in s.jobs && c in t.jobs && s.jobs[c].status != Cancelled
                && t.jobs[c].status == Cancelled ::
                           Event(JobCancelled(true), c, s.jobs[c].project))
  {
    var t := Fail(s, job, fence, o, permanent, backoff, now);
    var gone := Exhausted(s.jobs[job], permanent);
    TurnedAreKilled(s, job, fence, o, permanent, backoff, now);
    var killed := KilledBy(s, job, permanent, backoff, now);
    FailureAnnounces(s, job, fence, o, permanent, backoff, now);
    hide Fail, KilledBy, EventsOf;
    CancelledEvents(s, t, killed);
  }

  lemma CancelledEvents(s: Db, t: Db, killed: set<JobId>)
    requires forall c :: c in killed <==>
      c in s.jobs && c in t.jobs && s.jobs[c].status != Cancelled && t.jobs[c].status == Cancelled
    ensures EventsOf(JobCancelled(true), killed, s.jobs) ==
        multiset(set c | c in s.jobs && c in t.jobs && s.jobs[c].status != Cancelled && t.jobs[c].status == Cancelled ::
                   Event(JobCancelled(true), c, s.jobs[c].project))
  {
    assert (set c | c in killed && c in s.jobs :: Event(JobCancelled(true), c, s.jobs[c].project))
        == (set c | c in s.jobs && c in t.jobs && s.jobs[c].status != Cancelled && t.jobs[c].status == Cancelled ::
              Event(JobCancelled(true), c, s.jobs[c].project));
  }

  function KilledBy(s: Db, job: JobId, permanent: bool, backoff: Time, now: Time): set<JobId>
    requires job in s.jobs
  {
    if Exhausted(s.jobs[job], permanent)
    then Killed(s.jobs[job := FailRow(s.jobs[job], permanent, backoff, now)], s.edges, job) else {}
  }

  lemma FailureAnnounces(s: Db, job: JobId, fence: Option<int>, o: Outcome, permanent: bool, backoff: Time, now: Time)
    requires Hit(s, job, fence)
    ensures Fail(s, job, fence, o, permanent, backoff, now).events ==
        s.events + EventsOf(JobCancelled(true), KilledBy(s, job, permanent, backoff, now), s.jobs)
        + multiset{Event(if Exhausted(s.jobs[job], permanent) then JobDeadLettered else if o == Lost then JobLost
                         else JobFailed, job, s.jobs[job].project)}
  {
    assert EventsOf(JobCancelled(true), {}, s.jobs) == multiset{};
    hide EventsOf, Killed, CancelDescendants, CloseOfJob, ReleaseSlots, Count, FailRow, DeadReason, Exhausted;
  }

  lemma TurnedAreKilled(s: Db, job: JobId, fence: Option<int>, o: Outcome, permanent: bool, backoff: Time, now: Time)
    requires Hit(s, job, fence)
    ensures var t := Fail(s, job, fence, o, permanent, backoff, now);
            forall c :: c in KilledBy(s, job, permanent, backoff, now) <==>
              c in s.jobs && c in t.jobs && s.jobs[c].status != Cancelled && t.jobs[c].status == Cancelled
  {
    FailedRows(s, job, fence, o, permanent, backoff, now);
    hide Fail, Graph.Descendants;
  }

  /** A job taken back by the reaper is lost: so its execution is closed, so it is announced and so its
      dead letter says, if it has used its attempts. */
  lemma ReapRecords(s: Db, job: JobId, backoff: Time, now: Time)
    requires job in s.jobs && s.jobs[job].status in {Claimed, Running}
    ensures var t := Apply(s, DoReap(job, backoff), now);
            var gone := s.jobs[job].attempts >= s.jobs[job].policy.maxAttempts;
            && (forall x :: x in s.execs && s.execs[x].job == job && s.execs[x].closed.None? ==>
                  x in t.execs && t.execs[x].closed == Some(Closing(Lost, now)))
            && Event(if gone then JobDeadLettered else JobLost, job, s.jobs[job].project) in t.events
            && (gone && job !in s.dead ==> job in t.dead && t.dead[job].reason == LostExhausted)
  {
    FailureBooks(s, job, None, Lost, false, backoff, now);
    FailureEvents(s, job, None, Lost, false, backoff, now);
    FailureLetters(s, job, None, Lost, false, backoff, now);
    hide Fail, SlotsBack;
  }

  // ---------------------------------------------------------------- snoozing and cancelling

  /** A running job with snoozes left waits for the delay, at most the policy's longest and not below
      zero, under the next fence; its execution is closed and its slot goes back. */
  lemma SnoozeIs(s: Db, job: JobId, fence: Option<int>, exec: ExecId, delay: Time, now: Time)
    ensures var t := Snooze(s, job, fence, exec, delay, now);
            var wait := if job !in s.jobs || delay <= 0.0 || s.jobs[job].policy.maxDelay <= 0.0 then 0.0
                        else if delay <= s.jobs[job].policy.maxDelay then delay else s.jobs[job].policy.maxDelay;
            var hit := job in s.jobs && s.jobs[job].status == Running
                && (fence.None? || fence.value == s.jobs[job].fence)
              && s.jobs[job].snoozes < s.jobs[job].policy.maxAttempts && now + wait > s.jobs[job].createdAt;
            && (!hit ==> t == s)
            && (hit ==>
                 var j := s.jobs[job];
                 && t.jobs == s.jobs[job := j.(status := Scheduled, fence := j.fence + 1, runAt := now + wait,
                      snoozes := j.snoozes + 1, worker := None, claimedAt := None, deadlineAt := None)]
                 && t.execs == (if exec in s.execs && s.execs[exec].closed.None?
                                then s.execs[exec := s.execs[exec].(closed := Some(Closing(Snoozed, now)))]
                                  else s.execs)
                 && t.leases == s.leases - {job} && SlotsBack(s, t, j.queue, j.shard, 1)
                 && t.events == s.events + multiset{Event(JobSnoozed, job, j.project)}
                 && t == s.(jobs := t.jobs, execs := t.execs, leases := t.leases, queues := t.queues,
                     events := t.events))
  {
    if Snoozable(s, job, fence, delay, now) {
      var j, t := s.jobs[job], Snooze(s, job, fence, exec, delay, now);
      Released(s, t, j.queue, j.shard, 1);
    }
    hide ReleaseSlots, SlotsBack;
  }

  /** A live job that waits on no parent is cancelled; one that was held gives back execution, lease and
      slot.  Nothing happens to any other. */
  lemma CancelIs(s: Db, job: JobId, now: Time)
    ensures var t := Cancel(s, job, now);
            var hit := job in s.jobs && s.jobs[job].status !in {Completed, DeadLetter, Cancelled}
                && s.jobs[job].pendingDeps == 0;
            && (!hit ==> t == s)
            && (hit ==>
                 var j := s.jobs[job];
                 var held := j.status in {Claimed, Running};
                 && t.jobs == s.jobs[job := j.(status := Cancelled, finishedAt := Some(now), worker := None)]
                 && t.events == s.events + multiset{Event(JobCancelled(false), job, j.project)}
                 && t == s.(jobs := t.jobs, execs := t.execs, leases := t.leases, queues := t.queues,
                     events := t.events)
                 && (!held ==> t.execs == s.execs && t.leases == s.leases && t.queues == s.queues)
                 && (held ==>
                      && t.leases == s.leases - {job} && SlotsBack(s, t, j.queue, j.shard, 1)
                      && t.execs.Keys == s.execs.Keys
                      && forall x :: x in s.execs ==>
                           t.execs[x] == if s.execs[x].job == job && s.execs[x].closed.None?
                                         then s.execs[x].(closed := Some(Closing(CancelledRun, now))) else s.execs[x]))
  {
    if job in s.jobs {
      var j, t := s.jobs[job], Cancel(s, job, now);
      if Active(j.status) && j.pendingDeps == 0 { Released(s, t, j.queue, j.shard, 1); }
    }
    hide ReleaseSlots, SlotsBack;
  }

  // ---------------------------------------------------------------- going back on the queue

  /** A waiting job that waits on no parent is queued for now. */
  lemma RetryIs(s: Db, job: JobId, now: Time)
    ensures var t := Retry(s, job, now);
            var hit := job in s.jobs && s.jobs[job].status in {Scheduled, RetryWait} && s.jobs[job].pendingDeps == 0;
            && (!hit ==> t == s)
            && (hit ==> t == s.(jobs := s.jobs[job := s.jobs[job].(status := Queued, runAt := now)],
                                events := s.events + multiset{Event(JobRetried, job, s.jobs[job].project)}))
  {
  }

  /** A dead letter with no cancelled job below it is queued for now, with its attempts to come again and
      its fence kept, and its dead-letter row is marked. */
  lemma ReplayIs(s: Db, job: JobId, now: Time)
    requires (job, job) !in s.edges
    ensures var t := Replay(s, job, now);
            var hit := job in s.jobs && s.jobs[job].status == DeadLetter
              && forall c :: c in s.jobs && c != job && Graph.Reaches(s.edges, job, c) ==>
                  s.jobs[c].status != Cancelled;
            && (!hit ==> t == s)
            && (hit ==>
                 var j := s.jobs[job];
                 && t.jobs == s.jobs[job := j.(status := Queued, attempts := 0, generation := j.generation + 1,
                                                runAt := now, finishedAt := None, worker := None)]
                 && t.dead == (if job in s.dead then s.dead[job := s.dead[job].(replayedAt := Some(now))] else s.dead)
                 && t.events == s.events + multiset{Event(JobReplayed, job, j.project)}
                 && t == s.(jobs := t.jobs, dead := t.dead, events := t.events))
  {
    forall c | c in s.jobs ensures
      c in CancelledKin(s, job) <==> c != job && Graph.Reaches(s.edges, job, c) && s.jobs[c].status == Cancelled
    {
      Graph.DescendantsExact(s.edges, job, c);
    }
    assert CancelledKin(s, job) == {} <==> forall c :: c in s.jobs ==> c !in CancelledKin(s, job);
    hide CancelledKin, Graph.Reaches;
  }

  /** A dead letter whose row in dead_letters carries no mark, with no cancelled child. */
  predicate Unreplayed(s: Db, j: JobId) {
    && j in s.jobs && s.jobs[j].status == DeadLetter && j in s.dead && s.dead[j].replayedAt.None?
    && forall c :: c in s.jobs && (j, c) in s.edges ==> s.jobs[c].status != Cancelled
  }

  lemma UnreplayedIs(s: Db, j: JobId)
    ensures BulkReplayable(s, j) <==> Unreplayed(s, j)
  {
  }

  lemma BulkReplayRefused(s: Db, spacing: map<JobId, Time>, now: Time, j: JobId)
    requires j in spacing && !Unreplayed(s, j)
    ensures ReplayDead(s, spacing, now) == s
  {
    UnreplayedIs(s, j);
    hide BulkReplayable, Unreplayed;
  }

  lemma AllUnreplayed(s: Db, spacing: map<JobId, Time>)
    requires forall j :: j in spacing ==> Unreplayed(s, j)
    ensures !exists j :: j in spacing && !BulkReplayable(s, j)
  {
    hide BulkReplayable, Unreplayed;
    forall j | j in spacing ensures BulkReplayable(s, j) { UnreplayedIs(s, j); }
  }

  /** The bulk replay gives each its own start time, its attempts to come again, and a mark. */
  lemma BulkReplayRows(s: Db, spacing: map<JobId, Time>, now: Time)
    requires forall j :: j in spacing ==> Unreplayed(s, j)
    ensures var t := ReplayDead(s, spacing, now);
            && t.jobs.Keys == s.jobs.Keys && t == s.(jobs := t.jobs, dead := t.dead, events := t.events)
            && (forall j :: j in s.jobs && j !in spacing ==> t.jobs[j] == s.jobs[j])
            && (forall j :: j in s.jobs && j in spacing ==>
                  t.jobs[j] == s.jobs[j].(status := Queued, attempts := 0, generation := s.jobs[j].generation + 1,
                                          runAt := spacing[j], finishedAt := None, worker := None))
  {
    AllUnreplayed(s, spacing);
    hide BulkReplayable, Unreplayed, MarkReplayed, EventsOf;
  }

  lemma BulkReplayMarks(s: Db, spacing: map<JobId, Time>, now: Time)
    requires forall j :: j in spacing ==> Unreplayed(s, j)
    ensures var t := ReplayDead(s, spacing, now);
            && t.dead.Keys == s.dead.Keys
            && (forall j :: j in s.dead ==>
                  t.dead[j] == if j in spacing then s.dead[j].(replayedAt := Some(now)) else s.dead[j])
            && t.events == s.events
                 + multiset(set j | j in spacing.Keys && j in s.jobs :: Event(JobReplayed, j, s.jobs[j].project))
  {
    AllUnreplayed(s, spacing);
    hide BulkReplayable, Unreplayed, ReplayRow;
  }

  /** Due jobs are queued and announced; nothing else changes. */
  lemma PromotionIs(s: Db, ids: set<JobId>, now: Time)
    requires forall j :: j in ids ==>
      j in s.jobs && s.jobs[j].status in {Scheduled, RetryWait} && s.jobs[j].runAt <= now && s.jobs[j].pendingDeps == 0
    ensures var t := Promote(s, ids, now);
            && t.jobs.Keys == s.jobs.Keys && t == s.(jobs := t.jobs, events := t.events)
            && (forall j :: j in s.jobs ==> t.jobs[j] == if j in ids then s.jobs[j].(status := Queued) else s.jobs[j])
            && t.events == s.events
                + multiset(set j | j in ids && j in s.jobs :: Event(JobQueued, j, s.jobs[j].project))
  {
    assert forall j :: j in ids ==> Promotable(s, j, now);
    hide Promotable;
  }

  // ---------------------------------------------------------------- the sweeps

  /** Of the executions it was given, the sweep closes as lost exactly the open ones of jobs that are
      not held. */
  lemma OrphanSweepIs(s: Db, ids: set<ExecId>, now: Time)
    ensures var t := Sweep(s, ids, now);
            && t == s.(execs := t.execs) && t.execs.Keys == s.execs.Keys
            && forall x :: x in s.execs ==>
                 var orphan := x in ids && s.execs[x].closed.None? && s.execs[x].job in s.jobs
                   && s.jobs[s.execs[x].job].status !in {Claimed, Running};
                 t.execs[x] == if orphan then s.execs[x].(closed := Some(Closing(Lost, now))) else s.execs[x]
  {
  }

  /** A worker's look at its claim is remembered if and only if the fence has moved on or the job is no
      longer held under it. */
  lemma ProbeIs(s: Db, job: JobId, fence: int)
    ensures var t := Probe(s, job, fence);
            var over := job in s.jobs
              && (s.jobs[job].fence > fence
                  || (s.jobs[job].fence == fence && s.jobs[job].status !in {Claimed, Running}));
            t == if over then s.(fenced := s.fenced + {(job, fence)}) else s
  {
  }

  /** A worker closes its own execution only after it has seen the claim to be over. */
  lemma CleanUpIs(s: Db, exec: ExecId, o: Outcome, now: Time)
    ensures var t := CloseExecution(s, exec, o, now);
            var hit := exec in s.execs && (s.execs[exec].job, s.execs[exec].fence) in s.fenced
                && s.execs[exec].closed.None?;
            && (!hit ==> t == s)
            && (hit ==> t == s.(execs := s.execs[exec := s.execs[exec].(closed := Some(Closing(o, now)))]))
  {
  }

  // ---------------------------------------------------------------- queue administration

  /** New settings are refused for an unknown queue, for settings out of range, and for another number of
      shards while a job of the queue is held or a slot is out. */
  predicate Resizable(s: Db, q: QueueId, t: A.Settings) {
    && q in s.queues && t.shards > 0 && t.maxConcurrency > 0 && t.limit >= 0.0 && t.burst >= 0.0
    && (t.shards == |s.queues[q].shards|
        || ((forall j :: j in s.jobs && s.jobs[j].queue == q ==> s.jobs[j].status !in {Claimed, Running})
            && forall i :: 0 <= i < |s.queues[q].shards| ==> s.queues[q].shards[i].inFlight <= 0))
  }

  lemma ResizableIs(s: Db, q: QueueId, st: A.Settings, now: Time)
    ensures Resizable(s, q, st) <==>
        q in s.queues && SaneSettings(st) && A.Configure(s.queues[q], st, Busy(s, q), now).Some?
  {
    if q in s.queues {
      assert Busy(s, q) <==>
          !forall j :: j in s.jobs && s.jobs[j].queue == q ==> s.jobs[j].status !in {Claimed, Running};
    }
    hide Busy;
  }

  /** The row takes the new settings; shards that stay keep their counters and refill marks with at most
      the new share of the burst, new ones start with it. */
  lemma ConfigureIs(s: Db, q: QueueId, st: A.Settings, now: Time)
    ensures var t := ConfigureQueue(s, q, st, now);
            && (!Resizable(s, q, st) ==> t == s)
            && (Resizable(s, q, st) ==>
                 && t == s.(queues := t.queues) && q in t.queues && t.queues == s.queues[q := t.queues[q]]
                 && var a, b, share := s.queues[q], t.queues[q], st.burst / st.shards as real;
                 && b == a.(paused := st.paused, maxConcurrency := st.maxConcurrency, limit := st.limit,
                            burst := st.burst, shards := b.shards)
                 && |b.shards| == st.shards
                 && (forall i :: |a.shards| <= i < st.shards ==> b.shards[i] == A.Shard(0, share, now))
                 && (forall i :: 0 <= i < st.shards && i < |a.shards| ==>
                       b.shards[i] == a.shards[i].(tokens := if a.shards[i].tokens <= share then a.shards[i].tokens
                                                             else share)))
  {
    ResizableIs(s, q, st, now);
    hide Resizable, Busy;
  }

  /** A switch of the breaker happens only from the state it expects. */
  lemma SwitchIs(s: Db, q: QueueId, sw: A.Switch, until: Time)
    ensures var t := FlipBreaker(s, q, sw, until);
            var from := if sw.Trip? then A.Closed else A.HalfOpen;
            && (q !in s.queues || s.queues[q].breaker != from ==> t == s)
            && (q in s.queues && s.queues[q].breaker == from ==>
                 t == s.(queues := s.queues[q := s.queues[q].(
                   breaker := if sw.Close? then A.Closed else A.Open,
                   openUntil := if sw.Close? then None else Some(until), probeBudget := 0)]))
  {
    if q in s.queues && A.Flip(s.queues[q], sw, until) == s.queues[q] {
      assert s.queues[q := s.queues[q]] == s.queues;
    }
  }

  /** Every counter is set to the number of held jobs on its shard, and the slots of workers that are
      gone are forgotten. */
  lemma ReconcileIs(s: Db)
    ensures var t := Reconcile(s);
            && t.queues.Keys == s.queues.Keys && t == s.(queues := t.queues, grants := t.grants)
            && (forall q :: q in s.queues ==>
                 && t.queues[q] == s.queues[q].(shards := t.queues[q].shards)
                 && |t.queues[q].shards| == |s.queues[q].shards|
                 && forall i :: 0 <= i < |s.queues[q].shards| ==>
                      var held := set j | j in s.jobs && s.jobs[j].status in {Claimed, Running}
                        && s.jobs[j].queue == q && s.jobs[j].shard == i;
                      t.queues[q].shards[i] == s.queues[q].shards[i].(inFlight := |held|))
            && |t.grants| == |s.grants|
            && (forall i :: 0 <= i < |s.grants| ==>
                  t.grants[i] == if s.grants[i].lost then s.grants[i].(n := 0) else s.grants[i])
  {
    forall q, i: nat ensures ActiveAt(s, q, i) ==
      set j | j in s.jobs && s.jobs[j].status in {Claimed, Running} && s.jobs[j].queue == q && s.jobs[j].shard == i
    { }
    hide ActiveAt;
  }
}
