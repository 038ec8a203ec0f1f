/** The selects of the sweeps and of the claim, with what each of them takes and leaves. */
module Selects {
  import opened Schema
  import opened Transactions
  import Query

  function IdsOf(ids: seq<JobId>): set<JobId> { set j | j in ids }

  lemma {:induction false} DistinctIds(ids: seq<JobId>)
    requires NoDuplicates(ids)
    ensures |IdsOf(ids)| == |ids|
  {
    if ids != [] {
      var n := |ids| - 1;
      DistinctIds(ids[..n]);
      assert ids[n] !in IdsOf(ids[..n]) && IdsOf(ids) == IdsOf(ids[..n]) + {ids[n]};
    }
  }

  function ExpiredIn(s: Db, now: Time): set<JobId> { set j | j in s.jobs && Expired(s, j, now) }

  function LeaseEnd(leases: map<JobId, Lease>, j: JobId): Time { if j in leases then leases[j].expiresAt else 0.0 }

  function EndsFirst(leases: map<JobId, Lease>): (JobId, JobId) -> bool {
    (a: JobId, b: JobId) => LeaseEnd(leases, a) <= LeaseEnd(leases, b)
  }

  lemma RankingByLease(leases: map<JobId, Lease>)
    ensures Query.Ranking(EndsFirst(leases))
  {
  }

  function DueIn(s: Db, now: Time): set<JobId> { set j | j in s.jobs && Promotable(s, j, now) }

  function DueTime(jobs: map<JobId, Job>, j: JobId): Time { if j in jobs then jobs[j].runAt else 0.0 }

  function DueFirst(jobs: map<JobId, Job>): (JobId, JobId) -> bool {
    (a: JobId, b: JobId) => DueTime(jobs, a) <= DueTime(jobs, b)
  }

  lemma RankingByDue(jobs: map<JobId, Job>)
    ensures Query.Ranking(DueFirst(jobs))
  {
  }

  lemma PickedIsDue(s: Db, locked: set<JobId>, limit: nat, ids: seq<JobId>, now: Time)
    requires Query.FirstRows(DueIn(s, now) - locked, DueFirst(s.jobs), limit, ids)
    ensures |IdsOf(ids)| == |ids| && forall j :: j in IdsOf(ids) ==> Promotable(s, j, now)
  {
    DistinctIds(ids);
    assert forall j :: j in IdsOf(ids) ==> j in DueIn(s, now);
  }

  function Candidates(jobs: map<JobId, Job>, q: QueueId, now: Time): set<JobId> {
    set j | j in jobs && jobs[j].status.Queued? && jobs[j].runAt <= now && jobs[j].queue == q
  }

  /** priority desc, run_at asc, id asc */
  function Urgent(jobs: map<JobId, Job>, priority: JobId -> int): (JobId, JobId) -> bool {
    (a: JobId, b: JobId) => priority(a) > priority(b)
      || (priority(a) == priority(b)
          && (DueTime(jobs, a) < DueTime(jobs, b) || (DueTime(jobs, a) == DueTime(jobs, b) && a <= b)))
  }

  lemma RankingByUrgency(jobs: map<JobId, Job>, priority: JobId -> int)
    ensures Query.Ranking(Urgent(jobs, priority))
    ensures forall x, y :: Urgent(jobs, priority)(x, y) && Urgent(jobs, priority)(y, x) ==> x == y
  {
  }

  lemma PickedIsClaimable(s: Db, g: nat, passed: set<JobId>, priority: JobId -> int, ids: seq<JobId>, now: Time)
    requires g < |s.grants|
    requires Query.FirstRows(Candidates(s.jobs, s.grants[g].queue, now) - passed, Urgent(s.jobs, priority),
        s.grants[g].n, ids)
    ensures Claimable(s, g, IdsOf(ids), now)
  {
    DistinctIds(ids);
    assert forall j :: j in IdsOf(ids) ==> j in Candidates(s.jobs, s.grants[g].queue, now);
  }

  /** The order of the claim query leaves no choice: which jobs a claim takes is determined. */
  lemma ClaimIsDetermined(jobs: map<JobId, Job>, rows: set<JobId>, priority: JobId -> int, n: nat, a: seq<JobId>,
      b: seq<JobId>)
    requires Query.FirstRows(rows, Urgent(jobs, priority), n, a) && Query.FirstRows(rows, Urgent(jobs, priority), n, b)
    ensures a == b
  {
    RankingByUrgency(jobs, priority);
    hide Urgent;
    Query.OneAnswer(rows, Urgent(jobs, priority), n, a, b);
  }

  // ---------------------------------------------------------------- in the columns' own words

  predicate Overdue(jobs: map<JobId, Job>, leases: map<JobId, Lease>, now: Time, j: JobId) {
    j in jobs && jobs[j].status in {Claimed, Running} && j in leases && leases[j].expiresAt < now
  }

  /** Held jobs whose lease has run out, the longest expired first; none is left out that ran out before
      one taken, and none at all below the limit. */
  ghost predicate TookOverdue(jobs: map<JobId, Job>, leases: map<JobId, Lease>, limit: nat, ids: seq<JobId>, now: Time)
  {
    && |ids| <= limit && (forall i :: 0 <= i < |ids| ==> Overdue(jobs, leases, now, ids[i]))
    && (forall i, k :: 0 <= i < k < |ids| ==>
          ids[i] != ids[k] && leases[ids[i]].expiresAt <= leases[ids[k]].expiresAt)
    && (forall j :: Overdue(jobs, leases, now, j) && j !in ids ==>
          |ids| == limit && forall i :: 0 <= i < |ids| ==> leases[ids[i]].expiresAt <= leases[j].expiresAt)
  }

  lemma ScanTakes(s: Db, limit: nat, ids: seq<JobId>, now: Time)
    requires Query.FirstRows(ExpiredIn(s, now), EndsFirst(s.leases), limit, ids)
    ensures TookOverdue(s.jobs, s.leases, limit, ids, now)
  {
    var le := EndsFirst(s.leases);
    assert forall j :: Overdue(s.jobs, s.leases, now, j) <==> j in ExpiredIn(s, now);
    forall i, k | 0 <= i < k < |ids|
        ensures ids[i] != ids[k] && s.leases[ids[i]].expiresAt <= s.leases[ids[k]].expiresAt
    {
      assert le(ids[i], ids[k]);
    }
    forall j | Overdue(s.jobs, s.leases, now, j) && j !in ids
      ensures |ids| == limit && forall i :: 0 <= i < |ids| ==> s.leases[ids[i]].expiresAt <= s.leases[j].expiresAt
    {
      assert Query.NoneAfter(le, ids, j);
      forall i | 0 <= i < |ids| ensures s.leases[ids[i]].expiresAt <= s.leases[j].expiresAt {
        assert le(ids[i], j) && Overdue(s.jobs, s.leases, now, ids[i]);
      }
    }
  }

  /** A row the promoter may take. */
  predicate IsDue(j: Job, now: Time) { j.status in {Scheduled, RetryWait} && j.runAt <= now && j.pendingDeps == 0 }

  /** The promoter queued the due rows that were not locked, the longest due first, as many as the limit
      allows, and changed no other row. */
  ghost predicate Promoted(was: map<JobId, Job>, jobs: map<JobId, Job>, locked: set<JobId>, limit: nat, n: nat,
      now: Time)
  {
    && jobs.Keys == was.Keys
    && (forall j :: j in was ==>
          jobs[j] == was[j] || (j !in locked && IsDue(was[j], now) && jobs[j] == was[j].(status := Queued)))
    && n == |set j | j in was && jobs[j] != was[j]| && n <= limit
    && (forall j :: j in was && j !in locked && IsDue(was[j], now) && jobs[j] == was[j] ==>
          n == limit && forall i :: i in was && jobs[i] != was[i] ==> was[i].runAt <= was[j].runAt)
  }

  lemma PromotionWrites(s: Db, ids: set<JobId>, now: Time)
    requires forall j :: j in ids ==> Promotable(s, j, now)
    ensures var t := Promote(s, ids, now);
            && t.jobs.Keys == s.jobs.Keys
            && forall j :: j in s.jobs ==> t.jobs[j] == if j in ids then s.jobs[j].(status := Queued) else s.jobs[j]
  {
    hide Promotable, EventsOf;
  }

  lemma PickedAreDue(s: Db, locked: set<JobId>, limit: nat, ids: seq<JobId>, now: Time)
    requires Query.FirstRows(DueIn(s, now) - locked, DueFirst(s.jobs), limit, ids)
    ensures forall j :: j in ids ==> j in s.jobs && j !in locked && IsDue(s.jobs[j], now)
    ensures forall i, j :: i in ids && j in s.jobs && j !in locked && j !in ids && IsDue(s.jobs[j], now) ==>
        i in s.jobs && |ids| == limit && s.jobs[i].runAt <= s.jobs[j].runAt
    ensures |ids| < limit ==> forall j :: j in s.jobs && j !in locked && IsDue(s.jobs[j], now) ==> j in ids
  {
    var le := DueFirst(s.jobs);
    assert forall j :: j in DueIn(s, now) <==> j in s.jobs && IsDue(s.jobs[j], now);
    hide DueIn, IsDue;
    forall i, j | i in ids && j in s.jobs && j !in locked && j !in ids && IsDue(s.jobs[j], now)
      ensures i in s.jobs && |ids| == limit && s.jobs[i].runAt <= s.jobs[j].runAt
    {
      assert Query.NoneAfter(le, ids, j);
      assert le(i, j);
    }
  }

  lemma PromotionTakes(s: Db, t: Db, locked: set<JobId>, limit: nat, ids: seq<JobId>, now: Time)
    requires Query.FirstRows(DueIn(s, now) - locked, DueFirst(s.jobs), limit, ids) && t == Promote(s, IdsOf(ids), now)
    ensures Promoted(s.jobs, t.jobs, locked, limit, |ids|, now)
  {
    PickedIsDue(s, locked, limit, ids, now);
    PickedAreDue(s, locked, limit, ids, now);
    PromotionWrites(s, IdsOf(ids), now);
    assert |ids| <= limit;
    assert forall j :: j in ids ==> s.jobs[j].status != Queued;
    hide Promote, DueIn, DueFirst, Query.FirstRows, IsDue;
    assert (set j | j in s.jobs && t.jobs[j] != s.jobs[j]) == IdsOf(ids);
    assert |ids| == limit || |ids| < limit;
  }

  predicate MayClaim(jobs: map<JobId, Job>, q: QueueId, passed: set<JobId>, now: Time, j: JobId) {
    j in jobs && jobs[j].status == Queued && jobs[j].runAt <= now && jobs[j].queue == q && j !in passed
  }

  /** What was handed out are jobs that may be claimed; one that may be and was not has no higher
      priority than any of them, no earlier time at the same priority, no smaller id at the same time,
      and there is none if slots were left over. */
  ghost predicate TookMostUrgent(jobs: map<JobId, Job>, q: QueueId, passed: set<JobId>, priority: JobId -> int,
      now: Time,
                           granted: int, out: seq<(JobId, int)>) {
    var claimed := set e | e in out :: e.0;
    && |out| <= granted && (forall j :: j in claimed ==> MayClaim(jobs, q, passed, now, j))
    && forall b :: MayClaim(jobs, q, passed, now, b) && b !in claimed ==>
         && |out| == granted
         && forall a :: a in claimed && a in jobs ==>
              && priority(b) <= priority(a)
              && (priority(b) == priority(a) ==> jobs[b].runAt >= jobs[a].runAt)
              && (priority(b) == priority(a) && jobs[b].runAt == jobs[a].runAt ==> b > a)
  }

  lemma ClaimTakes(jobs: map<JobId, Job>, q: QueueId, passed: set<JobId>, priority: JobId -> int, now: Time,
                   n: nat, ids: seq<JobId>, out: seq<(JobId, int)>)
    requires Query.FirstRows(Candidates(jobs, q, now) - passed, Urgent(jobs, priority), n, ids)
    requires |out| == |IdsOf(ids)| && (set e | e in out :: e.0) == IdsOf(ids)
    ensures TookMostUrgent(jobs, q, passed, priority, now, n, out)
  {
    var claimed := set e | e in out :: e.0;
    DistinctIds(ids);
    assert forall j :: MayClaim(jobs, q, passed, now, j) <==> j in Candidates(jobs, q, now) - passed;
    forall a, b | MayClaim(jobs, q, passed, now, b) && b !in claimed && a in claimed
        ensures Urgent(jobs, priority)(a, b)
    {
      assert b !in ids && Query.NoneAfter(Urgent(jobs, priority), ids, b);
      assert a in ids;
    }
  }

  // ---------------------------------------------------------------- dead letters to replay in bulk

  function DeadIn(s: Db, q: QueueId): set<JobId> { set j | j in s.dead && BulkReplayable(s, j) && s.dead[j].queue == q }

  function DeadTime(dead: map<JobId, DeadRow>, j: JobId): Time { if j in dead then dead[j].deadAt else 0.0 }

  function DeadFirst(dead: map<JobId, DeadRow>): (JobId, JobId) -> bool {
    (a: JobId, b: JobId) => DeadTime(dead, a) <= DeadTime(dead, b)
  }

  lemma RankingByDeath(dead: map<JobId, DeadRow>)
    ensures Query.Ranking(DeadFirst(dead))
  {
  }

  /** A dead letter of the queue whose row carries no mark, with no cancelled child. */
  predicate MayReplay(s: Db, q: QueueId, j: JobId) {
    && j in s.dead && s.dead[j].queue == q && s.dead[j].replayedAt.None?
    && j in s.jobs && s.jobs[j].status == DeadLetter
    && forall c :: c in s.jobs && (j, c) in s.edges ==> s.jobs[c].status != Cancelled
  }

  /** Such dead letters, the longest dead first, as many as there is room for. */
  ghost predicate TookDead(s: Db, q: QueueId, room: nat, ids: seq<JobId>) {
    && |ids| <= room && (forall i :: 0 <= i < |ids| ==> MayReplay(s, q, ids[i]))
    && (forall i, k :: 0 <= i < k < |ids| ==> ids[i] != ids[k] && s.dead[ids[i]].deadAt <= s.dead[ids[k]].deadAt)
    && (forall j :: MayReplay(s, q, j) && j !in ids ==>
          |ids| == room && forall i :: 0 <= i < |ids| ==> s.dead[ids[i]].deadAt <= s.dead[j].deadAt)
  }

  lemma DeadTakes(s: Db, q: QueueId, room: nat, ids: seq<JobId>)
    requires Query.FirstRows(DeadIn(s, q), DeadFirst(s.dead), room, ids)
    ensures TookDead(s, q, room, ids) && forall j :: j in ids ==> BulkReplayable(s, j)
  {
    var le := DeadFirst(s.dead);
    assert forall j :: j in DeadIn(s, q) ==> BulkReplayable(s, j);
    assert forall j :: MayReplay(s, q, j) <==> j in DeadIn(s, q);
    assert forall j :: MayReplay(s, q, j) ==> j in s.dead;
    hide MayReplay, DeadIn, BulkReplayable;
    forall i, k | 0 <= i < k < |ids| ensures ids[i] != ids[k] && s.dead[ids[i]].deadAt <= s.dead[ids[k]].deadAt {
      assert le(ids[i], ids[k]);
    }
    forall j | MayReplay(s, q, j) && j !in ids
      ensures |ids| == room && forall i :: 0 <= i < |ids| ==> s.dead[ids[i]].deadAt <= s.dead[j].deadAt
    {
      assert Query.NoneAfter(le, ids, j);
      forall i | 0 <= i < |ids| ensures s.dead[ids[i]].deadAt <= s.dead[j].deadAt { assert le(ids[i], j); }
    }
  }

  /** Neither the cap nor the depth limit forbids n more. */
  predicate Allows(queued: set<JobId>, cap: int, maxDepth: Option<int>, n: int) {
    n <= cap && (maxDepth.Some? ==> |queued| + n <= maxDepth.value)
  }

  function QueuedOn(jobs: map<JobId, Job>, q: QueueId): set<JobId> {
    set j | j in jobs && jobs[j].queue == q && jobs[j].status == Queued
  }

  /** The room is the most that is allowed beside the jobs already queued. */
  ghost predicate RoomRight(jobs: map<JobId, Job>, q: QueueId, cap: int, maxDepth: Option<int>, room: nat) {
    var queued := QueuedOn(jobs, q);
    && (room > 0 ==> Allows(queued, cap, maxDepth, room))
    && forall n :: n >= 1 && Allows(queued, cap, maxDepth, n) ==> n <= room
  }

  function Before(ids: set<JobId>, j: JobId): set<JobId> { set i | i in ids && i < j }

  /** The start times of a bulk replay: in id order, `perSec` of them to the second, or all at once. */
  function Spaced(ids: set<JobId>, perSec: real, now: Time): map<JobId, Time> {
    map j | j in ids :: now + if perSec > 0.0 then |Before(ids, j)| as real / perSec else 0.0
  }

  lemma OneMoreBefore(ids: set<JobId>, a: JobId, b: JobId)
    requires a in ids && b in ids && a < b
    ensures |Before(ids, a)| + 1 <= |Before(ids, b)|
  {
    assert Before(ids, a) + {a} <= Before(ids, b);
    Fewer(Before(ids, a) + {a}, Before(ids, b));
  }

  lemma Fewer(a: set<JobId>, b: set<JobId>)
    requires a <= b
    ensures |a| <= |b|
  {
    assert b == a + (b - a);
  }

  /** No two jobs of a paced bulk replay start closer together than the pace allows, none starts before
      now, and the first starts at once. */
  lemma ReplaysAreSpaced(ids: set<JobId>, perSec: real, now: Time, a: JobId, b: JobId)
    requires perSec > 0.0 && a in ids && b in ids && a < b
    ensures Spaced(ids, perSec, now)[b] - Spaced(ids, perSec, now)[a] >= 1.0 / perSec
    ensures Spaced(ids, perSec, now)[a] >= now
    ensures (forall i :: i in ids ==> a <= i) ==> Spaced(ids, perSec, now)[a] == now
  {
    OneMoreBefore(ids, a, b);
    var m, n := |Before(ids, a)|, |Before(ids, b)|;
    assert n as real / perSec - m as real / perSec == (n - m) as real / perSec;
    OneApart((n - m) as real, perSec);
    OneApart(m as real + 1.0, perSec);
    if forall i :: i in ids ==> a <= i { assert Before(ids, a) == {}; }
  }

  lemma OneApart(k: real, perSec: real)
    requires k >= 1.0 && perSec > 0.0
    ensures k / perSec >= 1.0 / perSec
    ensures (k - 1.0) / perSec >= 0.0
  {
  }
}
