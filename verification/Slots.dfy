/** The sharded concurrency counter over whole runs. */
module Slots {
  import opened Schema
  import opened Transactions
  import opened Protocol
  import opened Rows
  import opened Fencing
  import opened Frames
  import A = Admission

  // ---------------------------------------------------------------- slots out on grants

  function Held(grants: seq<Grant>, q: QueueId, i: nat): nat {
    if grants == [] then 0
    else
      var g := grants[|grants| - 1];
      Held(grants[..|grants| - 1], q, i) + if g.queue == q && g.shard == i then g.n else 0
  }

  lemma HeldAppend(grants: seq<Grant>, g: Grant, q: QueueId, i: nat)
    ensures Held(grants + [g], q, i) == Held(grants, q, i) + if g.queue == q && g.shard == i then g.n else 0
  {
    assert (grants + [g])[..|grants|] == grants;
  }

  lemma {:induction false} HeldUpdate(grants: seq<Grant>, k: nat, g: Grant, q: QueueId, i: nat)
    requires k < |grants| && g.queue == grants[k].queue && g.shard == grants[k].shard
    ensures Held(grants[k := g], q, i)
         == Held(grants, q, i) + if g.queue == q && g.shard == i then g.n - grants[k].n else 0
  {
    var n := |grants| - 1;
    if k == n {
      assert grants[k := g][..n] == grants[..n];
    } else {
      assert grants[k := g][..n] == grants[..n][k := g];
      HeldUpdate(grants[..n], k, g, q, i);
    }
  }

  lemma {:induction false} HeldAtLeast(grants: seq<Grant>, k: nat)
    requires k < |grants|
    ensures Held(grants, grants[k].queue, grants[k].shard) >= grants[k].n
  {
    var n := |grants| - 1;
    if k < n {
      HeldAtLeast(grants[..n], k);
    }
  }

  lemma {:induction false} HeldNothing(grants: seq<Grant>, q: QueueId, i: nat)
    requires forall k :: 0 <= k < |grants| && grants[k].queue == q && grants[k].shard == i ==> grants[k].n == 0
    ensures Held(grants, q, i) == 0
  {
    if grants != [] {
      HeldNothing(grants[..|grants| - 1], q, i);
    }
  }

  // ---------------------------------------------------------------- the invariant

  predicate ShardIn(s: Db, q: QueueId, i: nat) {
    q in s.queues && i < |s.queues[q].shards|
  }

  /** Every counter is the jobs the shard holds plus the slots granted on it and not yet used or
      returned; a grant whose worker died stays counted. */
  predicate Balanced(s: Db, q: QueueId, i: nat)
    requires ShardIn(s, q, i)
  {
    s.queues[q].shards[i].inFlight == |ActiveAt(s, q, i)| + Held(s.grants, q, i)
  }

  predicate Placed(s: Db) {
    && (forall j :: j in s.jobs ==> s.jobs[j].queue in s.queues)
    && (forall j :: j in s.jobs && Active(s.jobs[j].status) ==> ShardIn(s, s.jobs[j].queue, s.jobs[j].shard))
    && (forall g :: 0 <= g < |s.grants| && s.grants[g].n > 0 ==> ShardIn(s, s.grants[g].queue, s.grants[g].shard))
    && (forall q :: q in s.queues ==> |s.queues[q].shards| > 0)
  }

  ghost predicate SlotsOk(s: Db) {
    Placed(s) && forall q, i :: ShardIn(s, q, i) ==> Balanced(s, q, i)
  }

  // ---------------------------------------------------------------- how steps move the two sides

  predicate SameActivity(a: Job, b: Job) {
    a.queue == b.queue && (Active(a.status) <==> Active(b.status)) && (Active(a.status) ==> a.shard == b.shard)
  }

  predicate ActivityKept(s: Db, t: Db, except: set<JobId>) {
    && (forall j :: j in s.jobs && j !in except ==> j in t.jobs && SameActivity(s.jobs[j], t.jobs[j]))
    && (forall j :: j in t.jobs && j !in s.jobs ==> !Active(t.jobs[j].status) && t.jobs[j].queue in s.queues)
  }

  predicate SameCounters(a: map<QueueId, A.Queue>, b: map<QueueId, A.Queue>) {
    && a.Keys == b.Keys
    && (forall q :: q in a ==> |a[q].shards| == |b[q].shards|)
    && (forall q, i :: q in a && 0 <= i < |a[q].shards| ==> a[q].shards[i].inFlight == b[q].shards[i].inFlight)
  }

  /** Neither side moves. */
  lemma NothingMoves(s: Db, t: Db)
    requires SlotsOk(s) && ActivityKept(s, t, {}) && SameCounters(s.queues, t.queues) && t.grants == s.grants
    ensures SlotsOk(t)
  {
    forall q, i | ShardIn(t, q, i) ensures Balanced(t, q, i) {
      assert ShardIn(s, q, i) && Balanced(s, q, i);
      assert ActiveAt(t, q, i) == ActiveAt(s, q, i);
    }
  }

  predicate Lowered(a: map<QueueId, A.Queue>, b: map<QueueId, A.Queue>, q: QueueId, i: nat, n: int)
    requires q in a
  {
    && a.Keys == b.Keys
    && (forall p :: p in a ==> |a[p].shards| == |b[p].shards|)
    && (forall p, k :: p in a && 0 <= k < |a[p].shards| ==>
          b[p].shards[k].inFlight == if p == q && k == i then Max(a[p].shards[k].inFlight - n, 0)
            else a[p].shards[k].inFlight)
  }

  lemma ReleaseLowers(queues: map<QueueId, A.Queue>, q: QueueId, i: nat, n: int)
    requires q in queues
    ensures Lowered(queues, ReleaseSlots(queues, q, i, n), q, i, n)
            || (i < |queues[q].shards| && queues[q].shards[i].inFlight < 0)
            || i >= |queues[q].shards|
  {
  }

  lemma JobCounted(s: Db, job: JobId)
    requires SlotsOk(s) && job in s.jobs && Active(s.jobs[job].status)
    ensures var r := s.jobs[job]; ShardIn(s, r.queue, r.shard) && s.queues[r.queue].shards[r.shard].inFlight >= 1
  {
    var r := s.jobs[job];
    assert job in ActiveAt(s, r.queue, r.shard);
    assert Balanced(s, r.queue, r.shard);
  }

  lemma GrantCounted(s: Db, g: nat)
    requires SlotsOk(s) && g < |s.grants| && s.grants[g].n > 0
    ensures var r := s.grants[g]; ShardIn(s, r.queue, r.shard) && s.queues[r.queue].shards[r.shard].inFlight >= r.n
  {
    HeldAtLeast(s.grants, g);
    assert Balanced(s, s.grants[g].queue, s.grants[g].shard);
  }

  lemma OneGone(s: Db, t: Db, job: JobId, q: QueueId, i: nat)
    requires job in s.jobs && Active(s.jobs[job].status) && job in t.jobs && !Active(t.jobs[job].status)
    requires ActivityKept(s, t, {job})
    ensures |ActiveAt(t, q, i)| == |ActiveAt(s, q, i)| - if q == s.jobs[job].queue && i == s.jobs[job].shard then 1
        else 0
  {
    if q == s.jobs[job].queue && i == s.jobs[job].shard {
      assert ActiveAt(t, q, i) == ActiveAt(s, q, i) - {job};
    } else {
      assert ActiveAt(t, q, i) == ActiveAt(s, q, i);
    }
  }

  lemma OneGonePlaced(s: Db, t: Db, job: JobId)
    requires Placed(s) && job in s.jobs && job in t.jobs && !Active(t.jobs[job].status)
        && t.jobs[job].queue == s.jobs[job].queue
    requires ActivityKept(s, t, {job}) && t.grants == s.grants
    requires Lowered(s.queues, t.queues, s.jobs[job].queue, s.jobs[job].shard, 1)
    ensures Placed(t) && forall q: QueueId, i: nat :: ShardIn(t, q, i) <==> ShardIn(s, q, i)
  {
    assert forall q: QueueId, i: nat :: ShardIn(t, q, i) <==> ShardIn(s, q, i);
  }

  /** One held job is let go and its slot released: the clamp at zero is not needed. */
  lemma OneLetGo(s: Db, t: Db, job: JobId)
    requires SlotsOk(s) && job in s.jobs && Active(s.jobs[job].status)
    requires job in t.jobs && !Active(t.jobs[job].status) && t.jobs[job].queue == s.jobs[job].queue
    requires ActivityKept(s, t, {job}) && t.grants == s.grants
    requires t.queues == ReleaseSlots(s.queues, s.jobs[job].queue, s.jobs[job].shard, 1)
    ensures SlotsOk(t)
  {
    var r := s.jobs[job];
    JobCounted(s, job);
    ReleaseLowers(s.queues, r.queue, r.shard, 1);
    OneGonePlaced(s, t, job);
    hide ReleaseSlots, Held, ActivityKept, Placed, ActiveAt;
    forall q, i | ShardIn(t, q, i) ensures Balanced(t, q, i) {
      assert ShardIn(s, q, i) && Balanced(s, q, i);
      OneGone(s, t, job, q, i);
    }
  }

  // ---------------------------------------------------------------- transaction by transaction

  lemma AdmitSlots(s: Db, q: QueueId, want: int, pick: Option<nat>, c: A.Clock)
    requires SlotsOk(s)
    ensures SlotsOk(AdmitTo(s, q, want, pick, c))
  {
    if q in s.queues {
      var t := AdmitTo(s, q, want, pick, c);
      var r := A.Admit(s.queues[q], want, pick, c);
      A.AdmitAccounts(s.queues[q], want, pick, c);
      hide A.Admit, A.WithinShares;
      if r.slots > 0 {
        assert t.grants == s.grants + [Grant(q, r.shard, r.slots, false)];
      }
      forall p, i | ShardIn(t, p, i) ensures Balanced(t, p, i) {
        assert ShardIn(s, p, i) && Balanced(s, p, i);
        assert ActiveAt(t, p, i) == ActiveAt(s, p, i);
        if r.slots > 0 {
          HeldAppend(s.grants, Grant(q, r.shard, r.slots, false), p, i);
        }
      }
    }
  }

  /** The shard of grant g, and no other, has n fewer slots in its counter and none out on g. */
  ghost predicate Returned(s: Db, t: Db, g: nat, n: int)
    requires g < |s.grants|
  {
    && t.queues.Keys == s.queues.Keys
    && (forall q: QueueId, i: nat :: ShardIn(t, q, i) <==> ShardIn(s, q, i))
    && (forall q: QueueId, i: nat :: ShardIn(s, q, i) && ShardIn(t, q, i) ==>
          var mine := q == s.grants[g].queue && i == s.grants[g].shard;
          && t.queues[q].shards[i].inFlight == s.queues[q].shards[i].inFlight - (if mine then n else 0)
          && Held(t.grants, q, i) == Held(s.grants, q, i) - (if mine then s.grants[g].n else 0))
  }

  lemma ReturnedSlots(s: Db, t: Db, g: nat, n: int)
    requires SlotsOk(s) && LiveGrant(s, g) && 0 <= n <= s.grants[g].n
    requires t.grants == Spend(s.grants, g)
    requires t.queues == ReleaseSlots(s.queues, s.grants[g].queue, s.grants[g].shard, n)
    ensures Returned(s, t, g, n)
  {
    var r := s.grants[g];
    GrantCounted(s, g);
    ReleaseLowers(s.queues, r.queue, r.shard, n);
    forall q: QueueId, i: nat | ShardIn(s, q, i)
      ensures Held(t.grants, q, i) == Held(s.grants, q, i) - if q == r.queue && i == r.shard then r.n else 0
    {
      HeldUpdate(s.grants, g, r.(n := 0), q, i);
    }
    assert Lowered(s.queues, t.queues, r.queue, r.shard, n);
    hide Held, SlotsOk, Balanced, ReleaseSlots;
  }

  lemma GiveBackSlots(s: Db, g: nat)
    requires SlotsOk(s)
    ensures SlotsOk(GiveBack(s, g))
  {
    if LiveGrant(s, g) {
      var t := GiveBack(s, g);
      ReturnedSlots(s, t, g, s.grants[g].n);
      hide ReleaseSlots, Held;
      forall q, i | ShardIn(t, q, i) ensures Balanced(t, q, i) {
        assert Balanced(s, q, i);
        assert ActiveAt(t, q, i) == ActiveAt(s, q, i);
      }
    }
  }

  lemma ClaimedActivity(s: Db, t: Db, ids: set<JobId>, at: QueueId, shard: nat, q: QueueId, i: nat)
    requires t.jobs.Keys == s.jobs.Keys
    requires forall j :: j in ids ==> j in s.jobs && s.jobs[j].queue == at && !Active(s.jobs[j].status)
    requires forall j :: j in ids ==> Active(t.jobs[j].status) && t.jobs[j].queue == at && t.jobs[j].shard == shard
    requires forall j :: j in s.jobs && j !in ids ==> t.jobs[j] == s.jobs[j]
    ensures |ActiveAt(t, q, i)| == |ActiveAt(s, q, i)| + if q == at && i == shard then |ids| else 0
  {
    if q == at && i == shard {
      assert ActiveAt(t, q, i) == ActiveAt(s, q, i) + ids;
      assert ActiveAt(s, q, i) !! ids;
    } else {
      assert ActiveAt(t, q, i) == ActiveAt(s, q, i);
    }
  }

  lemma TakeActivity(s: Db, g: nat, ids: set<JobId>, w: WorkerId, lease: Time, now: Time, q: QueueId, i: nat)
    requires LiveGrant(s, g) && Claimable(s, g, ids, now)
    ensures var t, r := Take(s, g, ids, w, lease, now), s.grants[g];
            |ActiveAt(t, q, i)| == |ActiveAt(s, q, i)| + if q == r.queue && i == r.shard then |ids| else 0
  {
    hide ReleaseSlots, Spend, ActiveAt;
    var t, r := Take(s, g, ids, w, lease, now), s.grants[g];
    ClaimedActivity(s, t, ids, r.queue, r.shard, q, i);
  }

  lemma TakePlaced(s: Db, g: nat, ids: set<JobId>, w: WorkerId, lease: Time, now: Time)
    requires Placed(s) && LiveGrant(s, g) && Claimable(s, g, ids, now)
    ensures Placed(Take(s, g, ids, w, lease, now))
  {
    var t := Take(s, g, ids, w, lease, now);
    assert forall q: QueueId, i: nat :: ShardIn(s, q, i) ==> ShardIn(t, q, i);
  }

  lemma TakeSlots(s: Db, g: nat, ids: set<JobId>, w: WorkerId, lease: Time, now: Time)
    requires SlotsOk(s)
    ensures SlotsOk(Take(s, g, ids, w, lease, now))
  {
    if LiveGrant(s, g) && Claimable(s, g, ids, now) {
      var t, r := Take(s, g, ids, w, lease, now), s.grants[g];
      TakePlaced(s, g, ids, w, lease, now);
      ReturnedSlots(s, t, g, r.n - |ids|);
      hide Take, ReleaseSlots, Held, Claimable, LiveGrant, Placed, ActiveAt;
      forall q, i | ShardIn(t, q, i) ensures Balanced(t, q, i) {
        assert ShardIn(s, q, i) && Balanced(s, q, i);
        TakeActivity(s, g, ids, w, lease, now, q, i);
      }
    }
  }

  lemma CrashSlots(s: Db, g: nat)
    requires SlotsOk(s)
    ensures SlotsOk(Crash(s, g))
  {
    if g < |s.grants| {
      var t := Crash(s, g);
      forall q, i | ShardIn(t, q, i) ensures Balanced(t, q, i) {
        assert ShardIn(s, q, i) && Balanced(s, q, i);
        HeldUpdate(s.grants, g, s.grants[g].(lost := true), q, i);
        assert ActiveAt(t, q, i) == ActiveAt(s, q, i);
      }
    }
  }

  // Reports on single jobs.

  lemma CompleteActivity(s: Db, job: JobId, f: int, x: ExecId, now: Time)
    requires HeldAs(s, job, f, Running)
    ensures ActivityKept(s, Complete(s, job, f, x, now), {job})
  {
    hide CloseById, Woken, EventsOf, ReleaseSlots, Count;
  }

  lemma CompleteSlots(s: Db, job: JobId, f: int, x: ExecId, now: Time)
    requires SlotsOk(s)
    ensures SlotsOk(Complete(s, job, f, x, now))
  {
    var t := Complete(s, job, f, x, now);
    if HeldAs(s, job, f, Running) {
      CompleteActivity(s, job, f, x, now);
      hide SlotsOk, ActivityKept, ReleaseSlots, EventsOf, Count;
      OneLetGo(s, t, job);
    }
  }

  lemma FailReleases(s: Db, job: JobId, f: Option<int>, o: Outcome, p: bool, backoff: Time, now: Time)
    requires Failable(s, job, f)
    ensures var t := Fail(s, job, f, o, p, backoff, now);
            t.grants == s.grants && t.queues == ReleaseSlots(s.queues, s.jobs[job].queue, s.jobs[job].shard, 1)
  {
    hide CancelDescendants, Killed, CloseOfJob, EventsOf, ReleaseSlots, Count, DeadReason, FailRow, Exhausted;
  }

  lemma FailActivity(s: Db, job: JobId, f: Option<int>, o: Outcome, p: bool, backoff: Time, now: Time)
    requires Failable(s, job, f)
    ensures var t := Fail(s, job, f, o, p, backoff, now);
            && ActivityKept(s, t, {job}) && job in t.jobs && !Active(t.jobs[job].status)
            && t.jobs[job].queue == s.jobs[job].queue && t.grants == s.grants
            && t.queues == ReleaseSlots(s.queues, s.jobs[job].queue, s.jobs[job].shard, 1)
  {
    FailReleases(s, job, f, o, p, backoff, now);
    FailJobs(s, job, f, o, p, backoff, now);
    hide Fail, ReleaseSlots, Killed;
  }

  lemma FailJobs(s: Db, job: JobId, f: Option<int>, o: Outcome, p: bool, backoff: Time, now: Time)
    requires Failable(s, job, f)
    ensures var t := Fail(s, job, f, o, p, backoff, now);
            && t.jobs.Keys == s.jobs.Keys && !Active(t.jobs[job].status) && t.jobs[job].queue == s.jobs[job].queue
            && (forall j :: j in s.jobs && j != job ==>
                  t.jobs[j] == s.jobs[j] || (Idle(s.jobs[j].status) && t.jobs[j] == KillRow(s.jobs[j], now)))
  {
    hide Fail, CancelDescendants, KillRow;
    var rows := s.jobs[job := FailRow(s.jobs[job], p, backoff, now)];
    FailTable(s, job, f, o, p, backoff, now);
    CascadeRows(rows, s.edges, job, now);
  }

  lemma FailTable(s: Db, job: JobId, f: Option<int>, o: Outcome, p: bool, backoff: Time, now: Time)
    requires Failable(s, job, f)
    ensures var rows := s.jobs[job := FailRow(s.jobs[job], p, backoff, now)];
            Fail(s, job, f, o, p, backoff, now).jobs == if Exhausted(s.jobs[job], p)
              then CancelDescendants(rows, s.edges, job, now) else rows
  {
    hide CancelDescendants, Killed, CloseOfJob, EventsOf, ReleaseSlots, Count, DeadReason, FailRow, Exhausted;
  }

  lemma CascadeRows(rows: map<JobId, Job>, edges: set<(JobId, JobId)>, job: JobId, now: Time)
    ensures var c := CancelDescendants(rows, edges, job, now);
            c.Keys == rows.Keys && forall j :: j in rows ==>
              c[j] == rows[j] || (Idle(rows[j].status) && c[j] == KillRow(rows[j], now))
  {
    hide KillRow;
  }

  lemma FailSlots(s: Db, job: JobId, f: Option<int>, o: Outcome, p: bool, backoff: Time, now: Time)
    requires SlotsOk(s)
    ensures SlotsOk(Fail(s, job, f, o, p, backoff, now))
  {
    if Failable(s, job, f) {
      FailActivity(s, job, f, o, p, backoff, now);
      hide SlotsOk, ActivityKept, ReleaseSlots, Fail;
      OneLetGo(s, Fail(s, job, f, o, p, backoff, now), job);
    }
  }

  lemma SnoozeSlots(s: Db, job: JobId, f: Option<int>, x: ExecId, delay: Time, now: Time)
    requires SlotsOk(s)
    ensures SlotsOk(Snooze(s, job, f, x, delay, now))
  {
    var t := Snooze(s, job, f, x, delay, now);
    if Snoozable(s, job, f, delay, now) {
      assert ActivityKept(s, t, {job});
      hide SlotsOk, ActivityKept, ReleaseSlots, EventsOf;
      OneLetGo(s, t, job);
    }
  }

  lemma CancelActivity(s: Db, job: JobId, now: Time)
    requires job in s.jobs
    ensures var t := Cancel(s, job, now);
            && ActivityKept(s, t, {job}) && t.grants == s.grants && job in t.jobs
            && t.jobs[job].queue == s.jobs[job].queue
            && (if t.jobs != s.jobs && Active(s.jobs[job].status)
                then !Active(t.jobs[job].status)
                  && t.queues == ReleaseSlots(s.queues, s.jobs[job].queue, s.jobs[job].shard, 1)
                else ActivityKept(s, t, {}) && t.queues == s.queues)
  {
    hide CloseOfJob, EventsOf, ReleaseSlots;
  }

  lemma CancelSlots(s: Db, job: JobId, now: Time)
    requires SlotsOk(s)
    ensures SlotsOk(Cancel(s, job, now))
  {
    if job in s.jobs {
      var t := Cancel(s, job, now);
      CancelActivity(s, job, now);
      hide SlotsOk, ActivityKept, ReleaseSlots, Cancel;
      if t.jobs != s.jobs && Active(s.jobs[job].status) {
        OneLetGo(s, t, job);
      } else {
        NothingMoves(s, t);
      }
    }
  }

  // ---------------------------------------------------------------- batches

  function DoneAt(s: Db, m: seq<Done>, q: QueueId, i: nat): set<JobId> {
    JobsOf(m) * ActiveAt(s, q, i)
  }

  predicate OncePerJob(m: seq<Done>) {
    forall i, j :: 0 <= i < j < |m| ==> m[i].job != m[j].job
  }

  lemma {:induction false} MatchedOnce(s: Db, batch: seq<Done>)
    ensures OncePerJob(Matched(s, batch))
  {
    if batch != [] {
      MatchedOnce(s, batch[..|batch| - 1]);
    }
  }

  lemma JobsOfSplit(m: seq<Done>)
    requires m != []
    ensures JobsOf(m) == JobsOf(m[..|m| - 1]) + {m[|m| - 1].job}
    ensures OncePerJob(m) ==> m[|m| - 1].job !in JobsOf(m[..|m| - 1]) && OncePerJob(m[..|m| - 1])
  {
    assert m == m[..|m| - 1] + [m[|m| - 1]];
  }

  /** The grouped count of a batch is the number of jobs it takes off the shard. */
  lemma {:induction false} GroupCounts(s: Db, m: seq<Done>, q: QueueId, i: nat)
    requires OncePerJob(m) && forall k :: 0 <= k < |m| ==> m[k].job in s.jobs && Active(s.jobs[m[k].job].status)
    ensures OnShard(s, m, q, i) == |DoneAt(s, m, q, i)|
  {
    if m == [] {
      assert DoneAt(s, m, q, i) == {};
    } else {
      var n := |m| - 1;
      var d := m[n];
      JobsOfSplit(m);
      hide JobsOf, OncePerJob;
      GroupCounts(s, m[..n], q, i);
      if d.job in ActiveAt(s, q, i) {
        assert DoneAt(s, m, q, i) == DoneAt(s, m[..n], q, i) + {d.job};
      } else {
        assert DoneAt(s, m, q, i) == DoneAt(s, m[..n], q, i);
      }
    }
  }

  lemma BatchActivity(s: Db, done: set<JobId>, now: Time, j: JobId)
    requires j in s.jobs
    ensures var n := AfterDone(s, done, now)[j];
            && n.queue == s.jobs[j].queue && n.shard == s.jobs[j].shard
            && (Active(n.status) <==> Active(s.jobs[j].status) && j !in done)
  {
    RepeatIs(s.jobs[j], |DoneParents(s.edges, done, j)|, now);
  }

  lemma BatchSlots(s: Db, batch: seq<Done>, now: Time)
    requires SlotsOk(s)
    ensures SlotsOk(CompleteBatch(s, batch, now))
  {
    var m, t := Matched(s, batch), CompleteBatch(s, batch, now);
    if m != [] {
      var done := JobsOf(m);
      MatchedOnce(s, batch);
      assert t.jobs == AfterDone(s, done, now) && t.queues == GroupedRelease(s, m) && t.grants == s.grants by {
        hide AfterDone, GroupedRelease, GroupedStats, EventsOf;
      }
      hide CompleteBatch, Matched;
      BatchShards(s, t, m, done, now);
    }
  }

  lemma BatchCounters(s: Db, m: seq<Done>, q: QueueId, i: nat)
    requires ShardIn(s, q, i)
    ensures var t := GroupedRelease(s, m);
            && t.Keys == s.queues.Keys && |t[q].shards| == |s.queues[q].shards|
            && t[q].shards[i] == LowerShard(s.queues[q].shards[i], OnShard(s, m, q, i))
  {
    hide OnShard, LowerShard;
  }

  lemma BatchPlaced(s: Db, t: Db, m: seq<Done>, done: set<JobId>, now: Time)
    requires Placed(s) && t.jobs == AfterDone(s, done, now) && t.queues == GroupedRelease(s, m) && t.grants == s.grants
    ensures Placed(t) && forall q, i :: ShardIn(t, q, i) <==> ShardIn(s, q, i)
  {
    assert forall q, i :: ShardIn(t, q, i) <==> ShardIn(s, q, i);
    forall j | j in t.jobs
      ensures t.jobs[j].queue in t.queues && (Active(t.jobs[j].status) ==> ShardIn(t, t.jobs[j].queue, t.jobs[j].shard))
    {
      BatchActivity(s, done, now, j);
    }
  }

  lemma BatchLeaves(s: Db, t: Db, m: seq<Done>, now: Time, q: QueueId, i: nat)
    requires t.jobs == AfterDone(s, JobsOf(m), now)
    ensures ActiveAt(t, q, i) == ActiveAt(s, q, i) - DoneAt(s, m, q, i)
  {
    forall j | j in s.jobs
      ensures j in t.jobs && t.jobs[j].queue == s.jobs[j].queue && t.jobs[j].shard == s.jobs[j].shard
      ensures Active(t.jobs[j].status) <==> Active(s.jobs[j].status) && j !in JobsOf(m)
    {
      BatchActivity(s, JobsOf(m), now, j);
    }
    assert t.jobs.Keys == s.jobs.Keys;
    hide AfterDone, JobsOf;
  }

  lemma BatchBalance(s: Db, t: Db, m: seq<Done>, now: Time, q: QueueId, i: nat)
    requires ShardIn(s, q, i) && Balanced(s, q, i) && OncePerJob(m)
    requires forall k :: 0 <= k < |m| ==> m[k].job in s.jobs && Active(s.jobs[m[k].job].status)
    requires t.jobs == AfterDone(s, JobsOf(m), now) && t.queues == GroupedRelease(s, m) && t.grants == s.grants
    ensures ShardIn(t, q, i) && Balanced(t, q, i)
  {
    BatchCounters(s, m, q, i);
    BatchLeaves(s, t, m, now, q, i);
    GroupCounts(s, m, q, i);
    hide AfterDone, GroupedRelease, ActiveAt, JobsOf, OnShard, Held;
  }

  lemma BatchShards(s: Db, t: Db, m: seq<Done>, done: set<JobId>, now: Time)
    requires SlotsOk(s) && OncePerJob(m) && done == JobsOf(m)
    requires forall k :: 0 <= k < |m| ==> HeldAs(s, m[k].job, m[k].fence, Running)
    requires t.jobs == AfterDone(s, done, now) && t.queues == GroupedRelease(s, m) && t.grants == s.grants
    ensures SlotsOk(t)
  {
    BatchPlaced(s, t, m, done, now);
    hide AfterDone, GroupedRelease, Placed, ActiveAt, JobsOf, Balanced, OncePerJob;
    forall q, i | ShardIn(t, q, i) ensures Balanced(t, q, i) {
      assert ShardIn(s, q, i);
      BatchBalance(s, t, m, now, q, i);
    }
  }

  // ---------------------------------------------------------------- administration

  /** A resize is let through only when nothing of the queue is out, on any shard. */
  lemma ResizedWhenIdle(s: Db, q: QueueId, t: A.Settings, now: Time)
    requires SlotsOk(s) && q in s.queues && SaneSettings(t) && A.Configure(s.queues[q], t, Busy(s, q), now).Some?
    requires t.shards != |s.queues[q].shards|
    ensures forall j :: j in s.jobs && s.jobs[j].queue == q ==> !Active(s.jobs[j].status)
    ensures forall g :: 0 <= g < |s.grants| && s.grants[g].queue == q ==> s.grants[g].n == 0
  {
    forall g | 0 <= g < |s.grants| && s.grants[g].queue == q ensures s.grants[g].n == 0 {
      if s.grants[g].n > 0 {
        GrantCounted(s, g);
      }
    }
  }

  lemma ConfiguredCounters(s: Db, q: QueueId, t: A.Settings, now: Time, i: nat)
    requires q in s.queues && SaneSettings(t) && A.Configure(s.queues[q], t, Busy(s, q), now).Some? && i < t.shards
    ensures var r := A.Configure(s.queues[q], t, Busy(s, q), now).value;
            && |r.shards| == t.shards
            && r.shards[i].inFlight == if i < |s.queues[q].shards| then s.queues[q].shards[i].inFlight else 0
  {
  }

  lemma ConfigureSlots(s: Db, q: QueueId, t: A.Settings, now: Time)
    requires SlotsOk(s)
    ensures SlotsOk(ConfigureQueue(s, q, t, now))
  {
    var u := ConfigureQueue(s, q, t, now);
    if q in s.queues && SaneSettings(t) && A.Configure(s.queues[q], t, Busy(s, q), now).Some? {
      if t.shards != |s.queues[q].shards| {
        ResizedWhenIdle(s, q, t, now);
      }
      ConfiguredCounters(s, q, t, now, 0);
      assert u.jobs == s.jobs && u.grants == s.grants && u.queues == s.queues[q := u.queues[q]]
          && |u.queues[q].shards| == t.shards;
      forall p, i | ShardIn(u, p, i) ensures Balanced(u, p, i) {
        if p == q {
          ConfiguredCounters(s, q, t, now, i);
        }
        hide A.Configure, ConfigureQueue, Busy;
        assert ActiveAt(u, p, i) == ActiveAt(s, p, i);
        if ShardIn(s, p, i) {
          assert Balanced(s, p, i);
        } else {
          assert ActiveAt(s, p, i) == {};
          HeldNothing(s.grants, p, i);
        }
      }
    }
  }

  // ---------------------------------------------------------------- reconciliation

  predicate NoLiveGrant(s: Db) {
    forall g :: 0 <= g < |s.grants| ==> !LiveGrant(s, g)
  }

  lemma ReconcileParts(s: Db)
    requires Placed(s)
    ensures var t := Reconcile(s);
            && (forall q :: q in t.queues ==> |t.queues[q].shards| > 0)
            && t.jobs == s.jobs && t.grants == ForgetLost(s.grants) && t.queues.Keys == s.queues.Keys
            && (forall q: QueueId, i: nat :: ShardIn(t, q, i) <==> ShardIn(s, q, i))
            && (forall q: QueueId, i: nat :: ShardIn(t, q, i) ==>
                  t.queues[q].shards[i].inFlight == |ActiveAt(s, q, i)| && ActiveAt(t, q, i) == ActiveAt(s, q, i))
  {
    var t := Reconcile(s);
    forall q: QueueId, i: nat | ShardIn(t, q, i) ensures ActiveAt(t, q, i) == ActiveAt(s, q, i) {
    }
    hide ActiveAt, ForgetLost;
  }

  lemma ReconcileRestores(s: Db)
    requires Placed(s) && NoLiveGrant(s)
    ensures SlotsOk(Reconcile(s))
  {
    var t := Reconcile(s);
    ReconcileParts(s);
    hide Reconcile, ActiveAt;
    forall k | 0 <= k < |t.grants| ensures t.grants[k].n == 0 {
      assert !LiveGrant(s, k);
    }
    hide LiveGrant, NoLiveGrant;
    assert Placed(t);
    hide Placed;
    forall q: QueueId, i: nat | ShardIn(t, q, i) ensures Balanced(t, q, i) {
      HeldNothing(t.grants, q, i);
    }
  }

  lemma ReconcileErases(s: Db, g: nat)
    requires Placed(s) && LiveGrant(s, g)
    ensures !SlotsOk(Reconcile(s))
  {
    var t := Reconcile(s);
    ReconcileParts(s);
    hide Reconcile, ActiveAt;
    var q, i := s.grants[g].queue, s.grants[g].shard;
    assert t.grants[g] == s.grants[g];
    HeldAtLeast(t.grants, g);
    assert ShardIn(s, q, i);
    hide Placed;
    assert ShardIn(t, q, i) && !Balanced(t, q, i);
  }

  /** fl.reconcile_in_flight restores the exact count, lost slots included, if and only if no
      grant is in transit: it erases the slots of workers that are about to claim. */
  lemma ReconcileExactIff(s: Db)
    requires SlotsOk(s)
    ensures SlotsOk(Reconcile(s)) <==> NoLiveGrant(s)
  {
    hide Placed, Reconcile, LiveGrant;
    if NoLiveGrant(s) {
      ReconcileRestores(s);
    } else {
      var g: nat :| 0 <= g < |s.grants| && LiveGrant(s, g);
      ReconcileErases(s, g);
    }
  }

  // ---------------------------------------------------------------- runs

  predicate MovesSlots(op: Op) {
    || op.DoAdmit? || op.DoTake? || op.DoGiveBack? || op.DoCrash? || op.DoComplete? || op.DoCompleteBatch?
    || op.DoFail? || op.DoReap? || op.DoSnooze? || op.DoCancel? || op.DoConfigure? || op.DoReconcile?
  }

  lemma PromoteActivity(s: Db, ids: set<JobId>, now: Time)
    ensures var t := Promote(s, ids, now); ActivityKept(s, t, {}) && t.queues == s.queues && t.grants == s.grants
  {
    hide EventsOf;
    var t := Promote(s, ids, now);
    assert t.queues == s.queues && t.grants == s.grants && t.jobs.Keys == s.jobs.Keys;
    forall j | j in s.jobs ensures SameActivity(s.jobs[j], t.jobs[j]) {
      if t != s && j in ids {
        assert Promotable(s, j, now);
      }
    }
    hide Promote;
  }

  lemma ReplayDeadActivity(s: Db, spacing: map<JobId, Time>, now: Time)
    ensures var t := ReplayDead(s, spacing, now); ActivityKept(s, t, {}) && t.queues == s.queues && t.grants == s.grants
  {
    hide EventsOf, MarkReplayed;
    var t := ReplayDead(s, spacing, now);
    forall j | j in s.jobs ensures SameActivity(s.jobs[j], t.jobs[j]) {
      assert j in spacing && t != s ==> BulkReplayable(s, j);
    }
  }

  lemma SubmitActivity(s: Db, r: Submission, tick: Time, now: Time)
    ensures var t := Submit(s, r, now); ActivityKept(s, t, {}) && t.queues == s.queues && t.grants == s.grants
    ensures var t := Fire(s, r, tick, now); ActivityKept(s, t, {}) && t.queues == s.queues && t.grants == s.grants
  {
    hide LiveParents, ActivityKept;
    if Acceptable(s, r) {
      InsertActivity(s, Submit(s, r, now), r.id);
      InsertActivity(s, Fire(s, r, tick, now), r.id);
    } else {
      InsertActivity(s, s, r.id);
    }
  }

  lemma InsertActivity(s: Db, t: Db, id: JobId)
    requires t.jobs == s.jobs || (id !in s.jobs && id in t.jobs && t.jobs == s.jobs[id := t.jobs[id]])
    requires id in t.jobs && id !in s.jobs ==> !Active(t.jobs[id].status) && t.jobs[id].queue in s.queues
    ensures ActivityKept(s, t, {})
  {
  }

  lemma StartActivity(s: Db, job: JobId, f: int, w: WorkerId, x: ExecId, now: Time)
    ensures var t := Start(s, job, f, w, x, now); ActivityKept(s, t, {}) && t.queues == s.queues && t.grants == s.grants
  {
  }

  lemma RetryActivity(s: Db, job: JobId, now: Time)
    ensures var t := Retry(s, job, now); ActivityKept(s, t, {}) && t.queues == s.queues && t.grants == s.grants
  {
  }

  lemma ReplayActivity(s: Db, job: JobId, now: Time)
    ensures var t := Replay(s, job, now); ActivityKept(s, t, {}) && t.queues == s.queues && t.grants == s.grants
  {
    hide CancelledKin, MarkReplayed;
  }

  lemma QuietSlots(s: Db, op: Op, now: Time)
    requires !MovesSlots(op)
    ensures var t := Apply(s, op, now);
            ActivityKept(s, t, {}) && SameCounters(s.queues, t.queues) && t.grants == s.grants
  {
    hide ActivityKept, SameCounters;
    hide Submit, Fire, AdmitTo, Take, GiveBack, Crash, Start, Extend, Complete, CompleteBatch, Fail, Snooze, Cancel;
    hide Promote, Retry, Replay, ReplayDead, Probe, CloseExecution, Sweep, ConfigureQueue, FlipBreaker, Reconcile;
    SameIsSame(s.queues);
    match op
    case DoSubmit(r) => SubmitActivity(s, r, 0.0, now);
    case DoFire(r, tick) => SubmitActivity(s, r, tick, now);
    case DoStart(job, f, w, x) => StartActivity(s, job, f, w, x, now);
    case DoPromote(ids) => PromoteActivity(s, ids, now);
    case DoRetry(job) => RetryActivity(s, job, now);
    case DoReplay(job) => ReplayActivity(s, job, now);
    case DoReplayDead(spacing) => ReplayDeadActivity(s, spacing, now);
    case DoFlip(q, sw, until) =>
      FlipSlots(s, q, sw, until);
      ApplyWrites(s, op, now);
      UnchangedActivity(s, Apply(s, op, now));
    case _ => ApplyWrites(s, op, now); UnchangedActivity(s, Apply(s, op, now));
  }

  lemma SameIsSame(queues: map<QueueId, A.Queue>)
    ensures SameCounters(queues, queues)
  {
  }

  lemma FlipSlots(s: Db, q: QueueId, sw: A.Switch, until: Time)
    ensures SameCounters(s.queues, FlipBreaker(s, q, sw, until).queues)
  {
  }

  lemma UnchangedActivity(s: Db, t: Db)
    requires t.jobs == s.jobs
    ensures ActivityKept(s, t, {})
  {
  }

  lemma StepKeepsSlots(s: Db, op: Op, now: Time)
    requires SlotsOk(s) && (op.DoReconcile? ==> NoLiveGrant(s))
    ensures SlotsOk(Apply(s, op, now))
  {
    hide SlotsOk, ActivityKept, SameCounters, NoLiveGrant;
    hide Submit, Fire, AdmitTo, Take, GiveBack, Crash, Start, Extend, Complete, CompleteBatch, Fail, Snooze, Cancel;
    hide Promote, Retry, Replay, ReplayDead, Probe, CloseExecution, Sweep, ConfigureQueue, FlipBreaker, Reconcile;
    match op
    case DoAdmit(q, want, pick, c) => AdmitSlots(s, q, want, pick, c);
    case DoTake(g, ids, w, lease) => TakeSlots(s, g, ids, w, lease, now);
    case DoGiveBack(g) => GiveBackSlots(s, g);
    case DoCrash(g) => CrashSlots(s, g);
    case DoComplete(job, f, x) => CompleteSlots(s, job, f, x, now);
    case DoCompleteBatch(b) => BatchSlots(s, b, now);
    case DoFail(job, f, o, p, backoff) => FailSlots(s, job, Some(f), o, p, backoff, now);
    case DoReap(job, backoff) => FailSlots(s, job, None, Lost, false, backoff, now);
    case DoSnooze(job, f, x, delay) => SnoozeSlots(s, job, Some(f), x, delay, now);
    case DoCancel(job) => CancelSlots(s, job, now);
    case DoConfigure(q, t) => ConfigureSlots(s, q, t, now);
    case DoReconcile => ReconcileExactIff(s);
    case _ => QuietSlots(s, op, now); NothingMoves(s, Apply(s, op, now));
  }

  // ---------------------------------------------------------------- the cap

  /** Slots may have been released; nothing else changed. */
  predicate OnlyLowered(a: A.Queue, b: A.Queue) {
    && b == a.(shards := b.shards) && |b.shards| == |a.shards|
    && forall i :: 0 <= i < |a.shards| ==>
         b.shards[i] == a.shards[i].(inFlight := b.shards[i].inFlight)
           && b.shards[i].inFlight <= Max(a.shards[i].inFlight, 0)
  }

  predicate AllLowered(a: map<QueueId, A.Queue>, b: map<QueueId, A.Queue>) {
    a.Keys == b.Keys && forall q :: q in a ==> OnlyLowered(a[q], b[q])
  }

  lemma ReleaseOnlyLowers(queues: map<QueueId, A.Queue>, q: QueueId, i: nat, n: int)
    requires n >= 0
    ensures AllLowered(queues, ReleaseSlots(queues, q, i, n)) && AllLowered(queues, queues)
  {
  }

  lemma BatchOnlyLowers(s: Db, m: seq<Done>)
    ensures AllLowered(s.queues, GroupedRelease(s, m))
  {
    hide OnShard;
  }

  lemma ReconcileOnlyLowers(s: Db)
    requires SlotsOk(s)
    ensures AllLowered(s.queues, Reconcile(s).queues)
  {
    forall q: QueueId, i: nat | ShardIn(s, q, i) ensures |ActiveAt(s, q, i)| <= s.queues[q].shards[i].inFlight {
      assert Balanced(s, q, i);
    }
    hide ActiveAt, Balanced, SlotsOk;
    var t := Reconciled(s);
    forall q | q in s.queues ensures OnlyLowered(s.queues[q], t[q]) {
      forall i | 0 <= i < |s.queues[q].shards| ensures t[q].shards[i].inFlight <= Max(s.queues[q].shards[i].inFlight, 0)
      {
        assert ShardIn(s, q, i);
      }
    }
  }

  predicate TouchesQueues(op: Op) { op.DoAdmit? || op.DoConfigure? || op.DoFlip? }

  lemma CompleteLowers(s: Db, job: JobId, f: int, x: ExecId, now: Time)
    ensures AllLowered(s.queues, Complete(s, job, f, x, now).queues)
  {
    if job in s.jobs {
      ReleaseOnlyLowers(s.queues, s.jobs[job].queue, s.jobs[job].shard, 1);
    }
    ReleaseOnlyLowers(s.queues, 0, 0, 0);
    hide AllLowered, ReleaseSlots, EventsOf, FinishDependents, Woken, CloseById, Count, DurationOf;
  }

  lemma FailLowers(s: Db, job: JobId, f: Option<int>, o: Outcome, p: bool, backoff: Time, now: Time)
    ensures AllLowered(s.queues, Fail(s, job, f, o, p, backoff, now).queues)
  {
    if job in s.jobs {
      ReleaseOnlyLowers(s.queues, s.jobs[job].queue, s.jobs[job].shard, 1);
    }
    ReleaseOnlyLowers(s.queues, 0, 0, 0);
    hide AllLowered, ReleaseSlots, EventsOf, CancelDescendants, Killed, CloseOfJob, Count, FailRow, Exhausted;
  }

  lemma SnoozeLowers(s: Db, job: JobId, f: Option<int>, x: ExecId, delay: Time, now: Time)
    ensures AllLowered(s.queues, Snooze(s, job, f, x, delay, now).queues)
  {
    if job in s.jobs {
      ReleaseOnlyLowers(s.queues, s.jobs[job].queue, s.jobs[job].shard, 1);
    }
    ReleaseOnlyLowers(s.queues, 0, 0, 0);
    hide AllLowered, ReleaseSlots, EventsOf, CloseById, SnoozeRow;
  }

  lemma CancelLowers(s: Db, job: JobId, now: Time)
    ensures AllLowered(s.queues, Cancel(s, job, now).queues)
  {
    if job in s.jobs {
      ReleaseOnlyLowers(s.queues, s.jobs[job].queue, s.jobs[job].shard, 1);
    }
    ReleaseOnlyLowers(s.queues, 0, 0, 0);
    hide AllLowered, ReleaseSlots, EventsOf, CloseOfJob;
  }

  lemma TakeLowers(s: Db, g: nat, ids: set<JobId>, w: WorkerId, lease: Time, now: Time)
    ensures AllLowered(s.queues, Take(s, g, ids, w, lease, now).queues)
  {
    ReleaseOnlyLowers(s.queues, 0, 0, 0);
    if LiveGrant(s, g) && Claimable(s, g, ids, now) {
      ReleaseOnlyLowers(s.queues, s.grants[g].queue, s.grants[g].shard, s.grants[g].n - |ids|);
    }
    hide AllLowered, ReleaseSlots, Spend, ClaimRow, Claimable, LiveGrant;
  }

  lemma GiveBackLowers(s: Db, g: nat)
    ensures AllLowered(s.queues, GiveBack(s, g).queues)
  {
    ReleaseOnlyLowers(s.queues, 0, 0, 0);
    if g < |s.grants| {
      ReleaseOnlyLowers(s.queues, s.grants[g].queue, s.grants[g].shard, s.grants[g].n);
    }
    hide AllLowered, ReleaseSlots, Spend;
  }

  lemma BatchLowers(s: Db, batch: seq<Done>, now: Time)
    ensures AllLowered(s.queues, CompleteBatch(s, batch, now).queues)
  {
    ReleaseOnlyLowers(s.queues, 0, 0, 0);
    BatchOnlyLowers(s, Matched(s, batch));
    hide AllLowered, GroupedRelease, AfterDone, Matched, GroupedStats, CloseThese, EventsOf, WokenByBatch;
  }

  lemma OpsOnlyLower(s: Db, op: Op, now: Time)
    requires !TouchesQueues(op) && !op.DoReconcile?
    ensures AllLowered(s.queues, Apply(s, op, now).queues)
  {
    if Queues !in Writes(op) {
      hide Apply, AllLowered, Writes;
      ApplyWrites(s, op, now);
      ReleaseOnlyLowers(s.queues, 0, 0, 0);
    } else {
      hide AllLowered;
      hide Take, GiveBack, Complete, CompleteBatch, Fail, Snooze, Cancel;
      match op
      case DoTake(g, ids, w, lease) => TakeLowers(s, g, ids, w, lease, now);
      case DoGiveBack(g) => GiveBackLowers(s, g);
      case DoComplete(job, f, x) => CompleteLowers(s, job, f, x, now);
      case DoFail(job, f, o, p, backoff) => FailLowers(s, job, Some(f), o, p, backoff, now);
      case DoReap(job, backoff) => FailLowers(s, job, None, Lost, false, backoff, now);
      case DoSnooze(job, f, x, delay) => SnoozeLowers(s, job, Some(f), x, delay, now);
      case DoCancel(job) => CancelLowers(s, job, now);
      case DoCompleteBatch(b) => BatchLowers(s, b, now);
    }
  }

  // ---------------------------------------------------------------- marks no shard rises above

  /** No shard has more out than its share of the current cap, or its mark if that is higher. */
  predicate Below(q: A.Queue, marks: seq<int>) {
    && |q.shards| == |marks| > 0
    && forall i :: 0 <= i < |marks| ==>
        marks[i] >= 0 && q.shards[i].inFlight <= Max(A.ShardSlots(q.maxConcurrency, |q.shards|, i), marks[i])
  }

  predicate Unconfigured(q: A.Queue, r: A.Queue) {
    r.maxConcurrency == q.maxConcurrency && |r.shards| == |q.shards|
  }

  lemma LoweredBelow(q: A.Queue, r: A.Queue, marks: seq<int>)
    requires Below(q, marks) && OnlyLowered(q, r)
    ensures Below(r, marks) && Unconfigured(q, r)
  {
    hide A.ShardSlots;
  }

  /** A shard above its share gets no grant, so it only falls. */
  lemma AdmitBelow(q: A.Queue, want: int, pick: Option<nat>, c: A.Clock, marks: seq<int>)
    requires Below(q, marks)
    ensures var r := A.Admit(q, want, pick, c).queue; Below(r, marks) && Unconfigured(q, r)
  {
    A.AdmitAccounts(q, want, pick, c);
    hide A.Admit, A.ShardSlots, A.WithinShares;
  }

  predicate ConfiguresIt(op: Op, q: QueueId) { op.DoConfigure? && op.queue == q }

  /** The three transactions on a queue row leave all other queue rows alone. */
  lemma AdmittedRow(s: Db, p: QueueId, want: int, pick: Option<nat>, c: A.Clock, q: QueueId)
    requires q in s.queues
    ensures var r := AdmitTo(s, p, want, pick, c).queues;
            r.Keys == s.queues.Keys && r[q] == if p == q then A.Admit(s.queues[q], want, pick, c).queue else s.queues[q]
  {
    hide A.Admit;
  }

  lemma FlippedRow(s: Db, p: QueueId, sw: A.Switch, until: Time, q: QueueId)
    requires q in s.queues
    ensures var r := FlipBreaker(s, p, sw, until).queues;
            r.Keys == s.queues.Keys && r[q] == if p == q then A.Flip(s.queues[q], sw, until) else s.queues[q]
  {
    hide A.Flip;
  }

  lemma ConfiguredRow(s: Db, p: QueueId, st: A.Settings, now: Time, q: QueueId)
    requires q in s.queues
    ensures var r := ConfigureQueue(s, p, st, now).queues;
            && r.Keys == s.queues.Keys
            && (r[q] != s.queues[q] ==>
                p == q && SaneSettings(st) && A.Configure(s.queues[q], st, Busy(s, q), now) == Some(r[q]))
  {
    hide A.Configure, Busy;
  }

  lemma FlipBelow(q: A.Queue, sw: A.Switch, until: Time, marks: seq<int>)
    requires Below(q, marks)
    ensures Below(A.Flip(q, sw, until), marks) && Unconfigured(q, A.Flip(q, sw, until))
  {
    hide A.ShardSlots;
  }

  lemma TouchedBelow(s: Db, op: Op, now: Time, q: QueueId, marks: seq<int>)
    requires TouchesQueues(op) && !ConfiguresIt(op, q) && q in s.queues && Below(s.queues[q], marks)
    ensures var t := Apply(s, op, now);
            q in t.queues && Below(t.queues[q], marks) && Unconfigured(s.queues[q], t.queues[q])
  {
    hide Below, AdmitTo, FlipBreaker, ConfigureQueue, A.Admit, A.Flip;
    match op
    case DoAdmit(p, want, pick, c) =>
      AdmittedRow(s, p, want, pick, c, q);
      AdmitBelow(s.queues[q], want, pick, c, marks);
    case DoFlip(p, sw, until) =>
      FlippedRow(s, p, sw, until, q);
      FlipBelow(s.queues[q], sw, until, marks);
    case DoConfigure(p, st) =>
      ConfiguredRow(s, p, st, now, q);
  }

  lemma StepBelow(s: Db, a: Act, q: QueueId, marks: seq<int>)
    requires SlotsOk(s) && !ConfiguresIt(a.op, q) && q in s.queues && Below(s.queues[q], marks)
    ensures var t := Step(s, a); q in t.queues && Below(t.queues[q], marks) && Unconfigured(s.queues[q], t.queues[q])
  {
    hide SlotsOk, Below, OnlyLowered, Apply, Unconfigured;
    if TouchesQueues(a.op) {
      TouchedBelow(s, a.op, a.now, q, marks);
    } else {
      if a.op.DoReconcile? {
        ReconcileOnlyLowers(s);
        ApplyReconcile(s, a.now);
      } else {
        OpsOnlyLower(s, a.op, a.now);
      }
      LoweredBelow(s.queues[q], Apply(s, a.op, a.now).queues[q], marks);
    }
  }

  lemma ApplyReconcile(s: Db, now: Time)
    ensures Apply(s, DoReconcile, now) == Reconcile(s)
  {
    hide Reconcile;
  }

  // ---------------------------------------------------------------- runs of the counters

  /** Reconciliation waits until no grant is in transit. */
  predicate SteadyRun(ss: seq<Db>, acts: seq<Act>) {
    IsRun(ss, acts) && forall i :: 0 <= i < |acts| && acts[i].op.DoReconcile? ==> NoLiveGrant(ss[i])
  }

  lemma SteadyStep(ss: seq<Db>, acts: seq<Act>, i: nat)
    requires SteadyRun(ss, acts) && i + 1 < |ss|
    ensures i < |acts| && OnTime(ss[i], acts[i]) && ss[i + 1] == Step(ss[i], acts[i])
    ensures acts[i].op.DoReconcile? ==> NoLiveGrant(ss[i])
  {
    hide Step, OnTime, NoLiveGrant;
  }

  lemma SlotsIgnoreClock(s: Db, now: Time)
    requires SlotsOk(s)
    ensures SlotsOk(s.(clock := now))
  {
    hide SlotsOk;
    UnchangedActivity(s, s.(clock := now));
    NothingMoves(s, s.(clock := now));
  }

  lemma FreshSlots(s: Db)
    requires Fresh(s)
    ensures SlotsOk(s)
  {
    forall q: QueueId, i: nat | ShardIn(s, q, i) ensures Balanced(s, q, i) {
      assert FreshQueue(s.queues[q]);
      assert ActiveAt(s, q, i) == {};
    }
  }

  lemma SlotsAfter(s: Db, a: Act)
    requires SlotsOk(s) && (a.op.DoReconcile? ==> NoLiveGrant(s))
    ensures SlotsOk(Step(s, a))
  {
    assert Step(s, a) == Apply(s, a.op, a.now).(clock := a.now) by { hide Apply; }
    hide *;
    StepKeepsSlots(s, a.op, a.now);
    SlotsIgnoreClock(Apply(s, a.op, a.now), a.now);
  }

  /** In every state of every run, every counter equals its jobs plus the slots in transit,
      whatever is done to the queues' settings. */
  lemma {:induction false} RunKeepsSlots(ss: seq<Db>, acts: seq<Act>, i: nat)
    requires SteadyRun(ss, acts) && Fresh(ss[0]) && i < |ss|
    ensures SlotsOk(ss[i])
  {
    hide *;
    if i == 0 {
      FreshSlots(ss[0]);
    } else {
      RunKeepsSlots(ss, acts, i - 1);
      SteadyStep(ss, acts, i - 1);
      SlotsAfter(ss[i - 1], acts[i - 1]);
    }
  }

  // ---------------------------------------------------------------- the cap

  function ActiveOn(s: Db, q: QueueId, n: nat): set<JobId> {
    set j | j in s.jobs && Active(s.jobs[j].status) && s.jobs[j].queue == q && s.jobs[j].shard < n
  }

  /** The claimed and running jobs of a queue. */
  function ActiveOf(s: Db, q: QueueId): set<JobId> {
    set j | j in s.jobs && Active(s.jobs[j].status) && s.jobs[j].queue == q
  }

  lemma {:induction false} ActiveWithinOut(s: Db, q: QueueId, n: nat)
    requires SlotsOk(s) && q in s.queues && n <= |s.queues[q].shards|
    ensures |ActiveOn(s, q, n)| <= A.OutSum(s.queues[q], n)
  {
    if n == 0 {
      assert ActiveOn(s, q, 0) == {};
    } else {
      ActiveWithinOut(s, q, n - 1);
      assert ShardIn(s, q, n - 1) && Balanced(s, q, n - 1);
      assert ActiveOn(s, q, n) == ActiveOn(s, q, n - 1) + ActiveAt(s, q, n - 1);
    }
  }

  lemma ActiveAreOut(s: Db, q: QueueId)
    requires SlotsOk(s) && q in s.queues
    ensures |ActiveOf(s, q)| <= A.Out(s.queues[q])
  {
    var k := |s.queues[q].shards|;
    ActiveWithinOut(s, q, k);
    assert ActiveOf(s, q) == ActiveOn(s, q, k) by {
      forall j | j in ActiveOf(s, q) ensures s.jobs[j].shard < k {
        assert ShardIn(s, s.jobs[j].queue, s.jobs[j].shard);
      }
    }
  }

  function Counters(q: A.Queue): seq<int> {
    seq(|q.shards|, i requires 0 <= i < |q.shards| => q.shards[i].inFlight)
  }

  lemma BelowItself(s: Db, q: QueueId)
    requires SlotsOk(s) && q in s.queues
    ensures Below(s.queues[q], Counters(s.queues[q]))
  {
    hide A.ShardSlots;
    forall i: nat | i < |s.queues[q].shards| ensures s.queues[q].shards[i].inFlight >= 0 {
      assert ShardIn(s, q, i) && Balanced(s, q, i);
    }
  }

  /** No settings of q are written by the transactions from c up to i. */
  predicate SettingsStay(acts: seq<Act>, q: QueueId, c: nat, i: nat) {
    forall k :: c <= k < i && k < |acts| ==> !ConfiguresIt(acts[k].op, q)
  }

  lemma {:induction false} RunStaysBelow(ss: seq<Db>, acts: seq<Act>, q: QueueId, c: nat, i: nat, marks: seq<int>)
    requires SteadyRun(ss, acts) && Fresh(ss[0]) && c <= i < |ss| && SettingsStay(acts, q, c, i)
    requires q in ss[c].queues && Below(ss[c].queues[q], marks)
    ensures q in ss[i].queues && Below(ss[i].queues[q], marks) && Unconfigured(ss[c].queues[q], ss[i].queues[q])
    decreases i
  {
    hide *;
    if c == i {
      UnconfiguredItself(ss[c].queues[q]);
    } else {
      SteadyStep(ss, acts, i - 1);
      SettingsStayed(acts, q, c, i);
      RunStaysBelow(ss, acts, q, c, i - 1, marks);
      RunKeepsSlots(ss, acts, i - 1);
      StepBelow(ss[i - 1], acts[i - 1], q, marks);
      UnconfiguredTwice(ss[c].queues[q], ss[i - 1].queues[q], ss[i].queues[q]);
    }
  }

  lemma UnconfiguredItself(q: A.Queue)
    ensures Unconfigured(q, q)
  {
  }

  lemma UnconfiguredTwice(q: A.Queue, r: A.Queue, u: A.Queue)
    requires Unconfigured(q, r) && Unconfigured(r, u)
    ensures Unconfigured(q, u)
  {
  }

  lemma SettingsStayed(acts: seq<Act>, q: QueueId, c: nat, i: nat)
    requires SettingsStay(acts, q, c, i) && c < i <= |acts|
    ensures SettingsStay(acts, q, c, i - 1) && !ConfiguresIt(acts[i - 1].op, q)
  {
  }

  lemma {:induction false} OutBelowCeilings(q: A.Queue, r: A.Queue, n: nat)
    requires Below(r, Counters(q)) && Unconfigured(q, r) && n <= |q.shards|
    ensures A.OutSum(r, n) <= A.CeilingSum(q, n)
  {
    if n > 0 {
      OutBelowCeilings(q, r, n - 1);
      hide A.ShardSlots;
      assert Counters(q)[n - 1] == q.shards[n - 1].inFlight;
    }
  }

  /** As long as the settings stay, no shard comes to hold more than its share or what it had out
      before, so the jobs of the queue stay within the sum of these.  This covers every run,
      those in which the cap was lowered under load included. */
  lemma OverloadOnlyFalls(ss: seq<Db>, acts: seq<Act>, q: QueueId, c: nat, i: nat)
    requires SteadyRun(ss, acts) && Fresh(ss[0]) && c <= i < |ss| && SettingsStay(acts, q, c, i) && q in ss[c].queues
    ensures q in ss[i].queues && Unconfigured(ss[c].queues[q], ss[i].queues[q])
    ensures forall k :: 0 <= k < |ss[c].queues[q].shards| ==>
        ss[i].queues[q].shards[k].inFlight <= A.Ceiling(ss[c].queues[q], k)
    ensures |ActiveOf(ss[i], q)| <= A.CeilingSum(ss[c].queues[q], |ss[c].queues[q].shards|)
  {
    RunKeepsSlots(ss, acts, c);
    RunKeepsSlots(ss, acts, i);
    hide SteadyRun;
    BelowItself(ss[c], q);
    RunStaysBelow(ss, acts, q, c, i, Counters(ss[c].queues[q]));
    ActiveAreOut(ss[i], q);
    OutBelowCeilings(ss[c].queues[q], ss[i].queues[q], |ss[c].queues[q].shards|);
    hide SlotsOk, ActiveOf, A.ShardSlots;
  }

  /** While the settings stay, a queue none of whose shards had more out than its share keeps its
      claimed and running jobs within max_concurrency. */
  lemma CapHoldsWhile(ss: seq<Db>, acts: seq<Act>, q: QueueId, c: nat, i: nat)
    requires SteadyRun(ss, acts) && Fresh(ss[0]) && c <= i < |ss| && SettingsStay(acts, q, c, i) && q in ss[c].queues
    requires A.WithinShares(ss[c].queues[q])
    ensures q in ss[i].queues && |ActiveOf(ss[i], q)| <= ss[i].queues[q].maxConcurrency
  {
    RunKeepsSlots(ss, acts, c);
    assert |ss[c].queues[q].shards| > 0;
    hide SteadyRun, SlotsOk;
    OverloadOnlyFalls(ss, acts, q, c, i);
    A.CeilingIsCapIff(ss[c].queues[q]);
  }

  // ---------------------------------------------------------------- the cap across changes of settings

  /** A new cap on the same shards is not below what any of them has out. */
  predicate FitsOn(s: Db, q: QueueId, t: A.Settings) {
    q in s.queues && t.shards > 0 && t.shards == |s.queues[q].shards| ==>
      forall i :: 0 <= i < t.shards ==> s.queues[q].shards[i].inFlight <= A.ShardSlots(t.maxConcurrency, t.shards, i)
  }

  predicate GentleRun(ss: seq<Db>, acts: seq<Act>) {
    SteadyRun(ss, acts) && forall i :: 0 <= i < |acts| && acts[i].op.DoConfigure? ==>
      FitsOn(ss[i], acts[i].op.queue, acts[i].op.settings)
  }

  predicate Capped(q: A.Queue) { |q.shards| > 0 && q.maxConcurrency > 0 && A.WithinShares(q) }

  function Zeros(n: nat): seq<int> { seq(n, _ => 0) }

  lemma CappedIsBelow(q: A.Queue)
    requires |q.shards| > 0 && q.maxConcurrency > 0
    ensures Capped(q) <==> Below(q, Zeros(|q.shards|))
  {
    forall i: nat | i < |q.shards| ensures A.ShardSlots(q.maxConcurrency, |q.shards|, i) >= 0 {
      A.ShareIsNat(q.maxConcurrency, |q.shards|, i);
    }
    hide A.ShardSlots;
  }

  lemma ConfigureCaps(s: Db, q: QueueId, t: A.Settings, now: Time)
    requires q in s.queues && Capped(s.queues[q]) && FitsOn(s, q, t)
    ensures var r := ConfigureQueue(s, q, t, now).queues; q in r && Capped(r[q])
  {
    if SaneSettings(t) && A.Configure(s.queues[q], t, Busy(s, q), now).Some? {
      A.ConfigureKeeps(s.queues[q], t, Busy(s, q), now);
      var r := A.Configure(s.queues[q], t, Busy(s, q), now).value;
      forall i: nat | i < |r.shards| ensures r.shards[i].inFlight <= A.ShardSlots(t.maxConcurrency, t.shards, i) {
        A.ShareIsNat(t.maxConcurrency, t.shards, i);
      }
      hide A.Configure, A.ShardSlots;
    }
  }

  lemma StepCaps(s: Db, a: Act, q: QueueId)
    requires SlotsOk(s) && q in s.queues && Capped(s.queues[q])
        && (ConfiguresIt(a.op, q) ==> FitsOn(s, q, a.op.settings))
    ensures q in Step(s, a).queues && Capped(Step(s, a).queues[q])
  {
    hide SlotsOk, Capped;
    if ConfiguresIt(a.op, q) {
      hide ConfigureQueue, FitsOn;
      ConfigureCaps(s, q, a.op.settings, a.now);
    } else {
      CappedParts(s.queues[q]);
      CappedIsBelow(s.queues[q]);
      hide Below, Step;
      StepBelow(s, a, q, Zeros(|s.queues[q].shards|));
      CappedIsBelow(Step(s, a).queues[q]);
    }
  }

  lemma CappedParts(q: A.Queue)
    requires Capped(q)
    ensures |q.shards| > 0 && q.maxConcurrency > 0
  {
  }

  lemma FreshCapped(s: Db, q: QueueId)
    requires Fresh(s) && q in s.queues
    ensures Capped(s.queues[q])
  {
    var r := s.queues[q];
    assert FreshQueue(r);
    forall i: nat | i < |r.shards| ensures A.ShardSlots(r.maxConcurrency, |r.shards|, i) >= 0 {
      A.ShareIsNat(r.maxConcurrency, |r.shards|, i);
    }
  }

  lemma GentleStep(ss: seq<Db>, acts: seq<Act>, i: nat, q: QueueId)
    requires GentleRun(ss, acts) && i + 1 < |ss|
    ensures SteadyRun(ss, acts) && i < |acts| && (ConfiguresIt(acts[i].op, q) ==> FitsOn(ss[i], q, acts[i].op.settings))
  {
    hide SteadyRun, FitsOn;
    assert |ss| == |acts| + 1 by { SteadyLength(ss, acts); }
  }

  lemma SteadyLength(ss: seq<Db>, acts: seq<Act>)
    requires SteadyRun(ss, acts)
    ensures |ss| == |acts| + 1
  {
  }

  lemma SameQueues(s: Db, a: Act)
    ensures Step(s, a).queues.Keys == s.queues.Keys
  {
    hide Apply, OnlyLowered;
    if TouchesQueues(a.op) {
      TouchedKeys(s, a.op, a.now);
    } else if a.op.DoReconcile? {
      ApplyReconcile(s, a.now);
      ReconcileKeys(s);
    } else {
      OpsOnlyLower(s, a.op, a.now);
    }
  }

  lemma ReconcileKeys(s: Db)
    ensures Reconcile(s).queues.Keys == s.queues.Keys
  {
    hide ActiveAt, ForgetLost;
  }

  lemma TouchedKeys(s: Db, op: Op, now: Time)
    requires TouchesQueues(op)
    ensures Apply(s, op, now).queues.Keys == s.queues.Keys
  {
    hide AdmitTo, FlipBreaker, ConfigureQueue;
    match op
    case DoAdmit(q, want, pick, c) => AdmitKeys(s, q, want, pick, c);
    case DoFlip(q, sw, until) => FlipKeys(s, q, sw, until);
    case DoConfigure(q, st) => ConfigureKeys(s, q, st, now);
  }

  lemma AdmitKeys(s: Db, q: QueueId, want: int, pick: Option<nat>, c: A.Clock)
    ensures AdmitTo(s, q, want, pick, c).queues.Keys == s.queues.Keys
  {
    hide A.Admit;
  }

  lemma FlipKeys(s: Db, q: QueueId, sw: A.Switch, until: Time)
    ensures FlipBreaker(s, q, sw, until).queues.Keys == s.queues.Keys
  {
    hide A.Flip;
  }

  lemma ConfigureKeys(s: Db, q: QueueId, st: A.Settings, now: Time)
    ensures ConfigureQueue(s, q, st, now).queues.Keys == s.queues.Keys
  {
    hide A.Configure, Busy, SaneSettings;
  }

  lemma {:induction false} RunStaysCapped(ss: seq<Db>, acts: seq<Act>, i: nat, q: QueueId)
    requires GentleRun(ss, acts) && Fresh(ss[0]) && i < |ss| && q in ss[i].queues
    ensures Capped(ss[i].queues[q])
  {
    hide *;
    if i == 0 {
      FreshCapped(ss[0], q);
    } else {
      GentleStep(ss, acts, i - 1, q);
      SteadyStep(ss, acts, i - 1);
      SameQueues(ss[i - 1], acts[i - 1]);
      RunStaysCapped(ss, acts, i - 1, q);
      RunKeepsSlots(ss, acts, i - 1);
      StepCaps(ss[i - 1], acts[i - 1], q);
    }
  }

  /** The number of claimed and running jobs of a queue never exceeds max_concurrency: for any
      shard count, any stale shard pick, any crashes, and across resizes and changes of the cap. */
  lemma CapHolds(ss: seq<Db>, acts: seq<Act>, i: nat, q: QueueId)
    requires GentleRun(ss, acts) && Fresh(ss[0]) && i < |ss| && q in ss[i].queues
    ensures |ActiveOf(ss[i], q)| <= ss[i].queues[q].maxConcurrency
  {
    assert SteadyRun(ss, acts);
    RunStaysCapped(ss, acts, i, q);
    hide GentleRun;
    CapHoldsWhile(ss, acts, q, i, i);
  }

  /** Counters never undercount, and no release ever needs the clamp at zero: a held job still
      has its slot in the counter, and so do all slots of a grant. */
  lemma ClampNeverNeeded(ss: seq<Db>, acts: seq<Act>, i: nat)
    requires SteadyRun(ss, acts) && Fresh(ss[0]) && i < |ss|
    ensures var s := ss[i];
      && (forall q: QueueId, k: nat :: ShardIn(s, q, k) ==> s.queues[q].shards[k].inFlight >= |ActiveAt(s, q, k)|)
      && (forall j :: j in s.jobs && Active(s.jobs[j].status) ==>
            ShardIn(s, s.jobs[j].queue, s.jobs[j].shard)
              && s.queues[s.jobs[j].queue].shards[s.jobs[j].shard].inFlight >= 1)
      && (forall g :: 0 <= g < |s.grants| && s.grants[g].n > 0 ==>
            ShardIn(s, s.grants[g].queue, s.grants[g].shard)
              && s.queues[s.grants[g].queue].shards[s.grants[g].shard].inFlight >= s.grants[g].n)
  {
    RunKeepsSlots(ss, acts, i);
    var s := ss[i];
    hide SteadyRun;
    forall q: QueueId, k: nat | ShardIn(s, q, k) ensures s.queues[q].shards[k].inFlight >= |ActiveAt(s, q, k)| {
      assert Balanced(s, q, k);
    }
    forall j | j in s.jobs && Active(s.jobs[j].status)
      ensures ShardIn(s, s.jobs[j].queue, s.jobs[j].shard)
          && s.queues[s.jobs[j].queue].shards[s.jobs[j].shard].inFlight >= 1
    {
      JobCounted(s, j);
    }
    forall g | 0 <= g < |s.grants| && s.grants[g].n > 0
      ensures ShardIn(s, s.grants[g].queue, s.grants[g].shard)
          && s.queues[s.grants[g].queue].shards[s.grants[g].shard].inFlight >= s.grants[g].n
    {
      GrantCounted(s, g);
    }
  }
}
