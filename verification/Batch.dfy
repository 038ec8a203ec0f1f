/** fl.report_success_batch against fl.report_success: one batch is the same as completing its
    entries one by one, in any order. */
module Batch {
  import opened Schema
  import opened Transactions
  import opened Protocol
  import opened Rows
  import opened Fencing
  import L = Ledger
  import A = Admission
  import Slots

  /** The batch update, without the early return for a batch that matched nothing. */
  function Settle(s: Db, m: seq<Done>, now: Time): Db {
    var done := JobsOf(m);
    s.(jobs := AfterDone(s, done, now),
       execs := CloseThese(s.execs, ExecsOf(m), Success, now),
       leases := s.leases - done,
       stats := GroupedStats(s, ExecsOf(m), now),
       queues := GroupedRelease(s, m),
       events := s.events + EventsOf(JobQueued, WokenByBatch(s, done, now), s.jobs)
         + EventsOf(JobCompleted, done, s.jobs))
  }

  /** An entry that is not stale names its job's open execution. */
  predicate NamesItsRun(s: Db, d: Done) {
    HeldAs(s, d.job, d.fence, Running) ==>
      d.exec in s.execs && IsOpen(s.execs[d.exec]) && s.execs[d.exec].job == d.job
        && s.execs[d.exec].queue == s.jobs[d.job].queue
  }

  predicate AllNameTheirRun(s: Db, batch: seq<Done>) {
    forall i :: 0 <= i < |batch| ==> NamesItsRun(s, batch[i])
  }

  /** Single completions of the entries, first to last. */
  function OneByOne(s: Db, batch: seq<Done>, now: Time): Db {
    if batch == [] then s
    else
      var d := batch[|batch| - 1];
      Complete(OneByOne(s, batch[..|batch| - 1], now), d.job, d.fence, d.exec, now)
  }

  // ---------------------------------------------------------------- sets

  lemma SetsGrow(m: seq<Done>, d: Done)
    ensures JobsOf(m + [d]) == JobsOf(m) + {d.job}
    ensures ExecsOf(m + [d]) == ExecsOf(m) + {d.exec}
  {
    assert forall x :: x in m + [d] <==> x in m || x == d;
    assert d in m + [d];
    forall j | j in JobsOf(m) ensures j in JobsOf(m + [d]) {
      var x :| x in m && x.job == j;
      assert x in m + [d];
    }
    forall j | j in ExecsOf(m) ensures j in ExecsOf(m + [d]) {
      var x :| x in m && x.exec == j;
      assert x in m + [d];
    }
  }

  // ---------------------------------------------------------------- job rows

  lemma ParentsGrow(edges: set<(JobId, JobId)>, done: set<JobId>, j: JobId, c: JobId)
    requires j !in done
    ensures |DoneParents(edges, done + {j}, c)| == |DoneParents(edges, done, c)| + if (j, c) in edges then 1 else 0
  {
    if (j, c) in edges {
      assert DoneParents(edges, done + {j}, c) == DoneParents(edges, done, c) + {j};
    } else {
      assert DoneParents(edges, done + {j}, c) == DoneParents(edges, done, c);
    }
  }

  /** One more finished parent is one more count down on the row the others left. */
  lemma RowGrows(s: Db, done: set<JobId>, j: JobId, now: Time, c: JobId)
    requires j in s.jobs && j !in done && s.jobs[j].status.Running? && c in s.jobs
    ensures var before := AfterDone(s, done, now);
            var rows := before[j := CompleteRow(before[j], now)];
            AfterDone(s, done + {j}, now)[c] == FinishDependents(rows, s.edges, j, now)[c]
  {
    ParentsGrow(s.edges, done, j, c);
    RepeatIs(s.jobs[j], |DoneParents(s.edges, done, j)|, now);
    hide DoneParents;
  }

  lemma JobsGrow(s: Db, done: set<JobId>, j: JobId, now: Time)
    requires j in s.jobs && j !in done && s.jobs[j].status.Running?
    ensures var before := AfterDone(s, done, now);
            j in before && before[j] == s.jobs[j]
            && AfterDone(s, done + {j}, now) ==
                FinishDependents(before[j := CompleteRow(before[j], now)], s.edges, j, now)
  {
    var before := AfterDone(s, done, now);
    RepeatIs(s.jobs[j], |DoneParents(s.edges, done, j)|, now);
    assert before[j] == s.jobs[j];
    var rows := before[j := CompleteRow(before[j], now)];
    var l, r := AfterDone(s, done + {j}, now), FinishDependents(rows, s.edges, j, now);
    assert l.Keys == r.Keys == s.jobs.Keys;
    hide AfterDone, FinishDependents, CompleteRow;
    forall c | c in s.jobs ensures l[c] == r[c] {
      RowGrows(s, done, j, now, c);
    }
  }

  // ---------------------------------------------------------------- events

  lemma EventsJoin(topic: Topic, a: set<JobId>, b: set<JobId>, jobs: map<JobId, Job>)
    requires a !! b
    ensures EventsOf(topic, a + b, jobs) == EventsOf(topic, a, jobs) + EventsOf(topic, b, jobs)
  {
    var x := set c | c in a && c in jobs :: Event(topic, c, jobs[c].project);
    var y := set c | c in b && c in jobs :: Event(topic, c, jobs[c].project);
    var z := set c | c in a + b && c in jobs :: Event(topic, c, jobs[c].project);
    assert x !! y && z == x + y;
    assert multiset(x + y) == multiset(x) + multiset(y);
  }

  lemma EventsSame(topic: Topic, a: set<JobId>, jobs: map<JobId, Job>, rows: map<JobId, Job>)
    requires forall c :: c in a ==> (c in jobs <==> c in rows) && (c in jobs ==> jobs[c].project == rows[c].project)
    ensures EventsOf(topic, a, jobs) == EventsOf(topic, a, rows)
  {
    var x := set c | c in a && c in jobs :: Event(topic, c, jobs[c].project);
    var y := set c | c in a && c in rows :: Event(topic, c, rows[c].project);
    assert x == y;
  }

  lemma OneEvent(topic: Topic, j: JobId, jobs: map<JobId, Job>)
    requires j in jobs
    ensures EventsOf(topic, {j}, jobs) == multiset{Event(topic, j, jobs[j].project)}
  {
    var x := set c | c in {j} && c in jobs :: Event(topic, c, jobs[c].project);
    assert x == {Event(topic, j, jobs[j].project)};
  }

  /** A dependent is put on the queue by exactly one of the finished parents. */
  lemma WakesSplit(s: Db, done: set<JobId>, j: JobId, now: Time)
    requires j in s.jobs && j !in done && s.jobs[j].status.Running?
    requires forall d :: d in done ==> d in s.jobs ==> s.jobs[d].status.Running?
    ensures var before := AfterDone(s, done, now);
            j in before
            && var woke := Woken(before[j := CompleteRow(before[j], now)], s.edges, j, now);
            && WokenByBatch(s, done, now) !! woke
            && WokenByBatch(s, done + {j}, now) == WokenByBatch(s, done, now) + woke
  {
    var before := AfterDone(s, done, now);
    var rows := before[j := CompleteRow(before[j], now)];
    var woke := Woken(rows, s.edges, j, now);
    var was, all := WokenByBatch(s, done, now), WokenByBatch(s, done + {j}, now);
    forall c ensures (c in all <==> c in was || c in woke) && !(c in was && c in woke) {
      if c in s.jobs {
        WakeSplit(s, done, j, now, c);
      }
    }
  }

  lemma WakeSplit(s: Db, done: set<JobId>, j: JobId, now: Time, c: JobId)
    requires j in s.jobs && j !in done && s.jobs[j].status.Running? && c in s.jobs
    requires forall d :: d in done ==> d in s.jobs ==> s.jobs[d].status.Running?
    ensures var before := AfterDone(s, done, now);
            var woke := Woken(before[j := CompleteRow(before[j], now)], s.edges, j, now);
            && (c in WokenByBatch(s, done + {j}, now) <==> c in WokenByBatch(s, done, now) || c in woke)
            && !(c in WokenByBatch(s, done, now) && c in woke)
  {
    ParentsGrow(s.edges, done, j, c);
    RepeatIs(s.jobs[c], |DoneParents(s.edges, done, c)|, now);
    hide DoneParents;
  }

  // ---------------------------------------------------------------- counters and statistics

  lemma ShardsGrow(s: Db, m: seq<Done>, d: Done, q: QueueId, i: nat)
    requires d.job in s.jobs
    ensures OnShard(s, m + [d], q, i) == OnShard(s, m, q, i) + if s.jobs[d.job].queue == q && s.jobs[d.job].shard == i
        then 1 else 0
  {
    assert (m + [d])[..|m|] == m;
  }

  lemma {:induction false} OnShardNat(s: Db, m: seq<Done>, q: QueueId, i: nat)
    ensures OnShard(s, m, q, i) >= 0
  {
    if m != [] {
      OnShardNat(s, m[..|m| - 1], q, i);
    }
  }

  function OneOff(sh: A.Shard): A.Shard { sh.(inFlight := Max(sh.inFlight - 1, 0)) }

  function Lowered(s: Db, m: seq<Done>, q: QueueId): A.Queue
    requires q in s.queues
  {
    s.queues[q].(shards := LowerShards(s, m, q))
  }

  lemma LowerTwice(sh: A.Shard, n: nat)
    ensures LowerShard(sh, n + 1) == OneOff(LowerShard(sh, n))
    ensures LowerShard(sh, 0) == sh
  {
  }

  /** One shard after one more entry. */
  lemma ShardGrows(s: Db, m: seq<Done>, d: Done, q: QueueId, i: nat)
    requires d.job in s.jobs && q in s.queues && i < |s.queues[q].shards|
    ensures LowerShards(s, m + [d], q)[i]
         == if s.jobs[d.job].queue == q && s.jobs[d.job].shard == i then OneOff(LowerShards(s, m, q)[i])
           else LowerShards(s, m, q)[i]
  {
    ShardsGrow(s, m, d, q, i);
    OnShardNat(s, m, q, i);
    hide OnShard;
    LowerTwice(s.queues[q].shards[i], OnShard(s, m, q, i));
  }

  lemma QueueGrows(s: Db, m: seq<Done>, d: Done, q: QueueId)
    requires d.job in s.jobs && q in s.queues
    ensures Lowered(s, m + [d], q) == if s.jobs[d.job].queue == q
        then A.Release(Lowered(s, m, q), s.jobs[d.job].shard, 1) else Lowered(s, m, q)
  {
    var l, r := LowerShards(s, m + [d], q), LowerShards(s, m, q);
    assert |l| == |r| == |s.queues[q].shards|;
    forall i: nat | i < |l|
      ensures l[i] == if s.jobs[d.job].queue == q && s.jobs[d.job].shard == i then OneOff(r[i]) else r[i]
    {
      ShardGrows(s, m, d, q, i);
    }
    hide LowerShards;
    if s.jobs[d.job].queue != q {
      assert l == r;
    } else {
      var rel := A.Release(s.queues[q].(shards := r), s.jobs[d.job].shard, 1);
      assert l == rel.shards;
    }
  }

  lemma ReleaseGrows(s: Db, m: seq<Done>, d: Done)
    requires d.job in s.jobs
    ensures GroupedRelease(s, m + [d]) ==
        ReleaseSlots(GroupedRelease(s, m), s.jobs[d.job].queue, s.jobs[d.job].shard, 1)
  {
    hide LowerShards, A.Release;
    var l, r := GroupedRelease(s, m + [d]),
        ReleaseSlots(GroupedRelease(s, m), s.jobs[d.job].queue, s.jobs[d.job].shard, 1);
    assert l.Keys == r.Keys == s.queues.Keys;
    forall q | q in s.queues ensures l[q] == r[q] {
      QueueGrows(s, m, d, q);
    }
  }

  lemma {:induction false} TimeOfRemove(execs: map<ExecId, Exec>, xs: set<ExecId>, x: ExecId, now: Time)
    requires xs <= execs.Keys && x in xs
    ensures TimeOf(execs, xs, now) == TimeOf(execs, xs - {x}, now) + TimeSpent(execs[x], now)
    decreases |xs|
  {
    hide TimeSpent;
    var y := Least(xs);
    if x != y {
      TimeOfRemove(execs, xs - {y}, x, now);
      assert xs - {y} - {x} == xs - {x} - {y};
      LeastStays(xs, x);
    }
  }

  lemma LeastStays(xs: set<nat>, x: nat)
    requires x in xs && x != Least(xs)
    ensures xs - {x} != {} && Least(xs - {x}) == Least(xs)
  {
    assert Least(xs) in xs - {x};
    LeastIsLower(xs);
    LeastIsLower(xs - {x});
  }

  /** What one queue's line of the grouped insert says. */
  function Line(execs: map<ExecId, Exec>, xs: set<ExecId>, q: QueueId, now: Time): Stat {
    Stat(|ExecsOn(execs, xs, q)|, 0, 0, TimeOf(execs, ExecsOn(execs, xs, q), now))
  }

  lemma LineGrows(execs: map<ExecId, Exec>, xs: set<ExecId>, x: ExecId, q: QueueId, now: Time)
    requires x in execs && x !in xs
    ensures q != execs[x].queue ==> Line(execs, xs + {x}, q, now) == Line(execs, xs, q, now)
    ensures q == execs[x].queue ==>
        Line(execs, xs + {x}, q, now) == AddStats(Line(execs, xs, q, now), Stat(1, 0, 0, TimeSpent(execs[x], now)))
    ensures q !in QueuesOf(execs, xs) ==> Line(execs, xs, q, now) == Stat(0, 0, 0, 0)
  {
    hide TimeSpent;
    if q == execs[x].queue {
      assert ExecsOn(execs, xs + {x}, q) == ExecsOn(execs, xs, q) + {x};
      assert ExecsOn(execs, xs + {x}, q) - {x} == ExecsOn(execs, xs, q);
      TimeOfRemove(execs, ExecsOn(execs, xs + {x}, q), x, now);
    } else {
      assert ExecsOn(execs, xs + {x}, q) == ExecsOn(execs, xs, q);
    }
    if q !in QueuesOf(execs, xs) {
      assert ExecsOn(execs, xs, q) == {};
    }
  }

  /** The grouped insert, line by line. */
  lemma StatsLines(s: Db, xs: set<ExecId>, now: Time, k: (QueueId, int))
    ensures var t := GroupedStats(s, xs, now);
            && (k in t <==> k in s.stats || (k.0 in QueuesOf(s.execs, xs) && k.1 == Minute(now)))
            && (k in t && k.0 in QueuesOf(s.execs, xs) && k.1 == Minute(now) ==>
                  t[k] == if k in s.stats then AddStats(s.stats[k], Line(s.execs, xs, k.0, now))
                    else Line(s.execs, xs, k.0, now))
            && (k in t && !(k.0 in QueuesOf(s.execs, xs) && k.1 == Minute(now)) ==> k in s.stats && t[k] == s.stats[k])
  {
    hide Minute, TimeOf, ExecsOn, QueuesOf, AddStats;
    assert k == (k.0, k.1);
  }

  lemma QueuesGrow(execs: map<ExecId, Exec>, xs: set<ExecId>, x: ExecId)
    requires x in execs
    ensures QueuesOf(execs, xs + {x}) == QueuesOf(execs, xs) + {execs[x].queue}
  {
  }

  /** Adding one execution row to the grouped insert adds it to its queue's line and to no other. */
  lemma StatsGrow(s: Db, xs: set<ExecId>, x: ExecId, now: Time)
    requires x in s.execs && x !in xs
    ensures GroupedStats(s, xs + {x}, now)
         == Count(GroupedStats(s, xs, now), s.execs[x].queue, Minute(now), Stat(1, 0, 0, TimeSpent(s.execs[x], now)))
  {
    var q, was := s.execs[x].queue, GroupedStats(s, xs, now);
    var l, r := GroupedStats(s, xs + {x}, now), Count(was, q, Minute(now), Stat(1, 0, 0, TimeSpent(s.execs[x], now)));
    QueuesGrow(s.execs, xs, x);
    hide GroupedStats, Minute, TimeSpent, QueuesOf, Line;
    forall k ensures (k in l <==> k in r) && (k in l ==> l[k] == r[k]) {
      StatsLines(s, xs, now, k);
      StatsLines(s, xs + {x}, now, k);
      LineGrows(s.execs, xs, x, k.0, now);
      assert k == (k.0, k.1);
    }
    assert l.Keys == r.Keys;
  }

  lemma ClosingGrows(execs: map<ExecId, Exec>, xs: set<ExecId>, x: ExecId, now: Time)
    ensures CloseThese(execs, xs + {x}, Success, now) == CloseById(CloseThese(execs, xs, Success, now), x, Success, now)
  {
  }

  // ---------------------------------------------------------------- one more entry

  predicate AllRunning(s: Db, m: seq<Done>) {
    forall i :: 0 <= i < |m| ==> HeldAs(s, m[i].job, m[i].fence, Running)
  }

  lemma RunningJobs(s: Db, m: seq<Done>, j: JobId)
    requires AllRunning(s, m) && j in JobsOf(m)
    ensures j in s.jobs && s.jobs[j].status.Running?
  {
    var d :| d in m && d.job == j;
    var i :| 0 <= i < |m| && m[i] == d;
  }

  /** The batch has not touched the execution of a job it does not name. */
  lemma ExecIsNew(s: Db, m: seq<Done>, d: Done)
    requires AllRunning(s, m) && AllNameTheirRun(s, m) && d.job !in JobsOf(m)
    requires HeldAs(s, d.job, d.fence, Running) && NamesItsRun(s, d)
    ensures d.exec !in ExecsOf(m)
  {
    forall e | e in m ensures e.exec != d.exec {
      var i :| 0 <= i < |m| && m[i] == e;
      assert NamesItsRun(s, m[i]) && m[i].job in JobsOf(m);
    }
  }

  lemma SameProjects(s: Db, done: set<JobId>, now: Time, c: JobId)
    ensures var before := AfterDone(s, done, now);
            (c in s.jobs <==> c in before) && (c in s.jobs ==> s.jobs[c].project == before[c].project)
  {
    if c in s.jobs { RepeatIs(s.jobs[c], |DoneParents(s.edges, done, c)|, now); }
  }

  lemma SettleEvents(s: Db, m: seq<Done>, d: Done, now: Time)
    requires AllRunning(s, m) && d.job !in JobsOf(m) && HeldAs(s, d.job, d.fence, Running)
    ensures Settle(s, m + [d], now).events == Complete(Settle(s, m, now), d.job, d.fence, d.exec, now).events
  {
    hide AfterDone, WokenByBatch, Woken, JobsOf, DoneParents, CompleteRow, GroupedStats, GroupedRelease, CloseThese,
        CloseById, DurationOf;
    hide EventsOf, FinishDependents, Count, ReleaseSlots;
    var done, j := JobsOf(m), d.job;
    SetsGrow(m, d);
    JobsGrow(s, done, j, now);
    forall c | c in done ensures c in s.jobs && s.jobs[c].status.Running? { RunningJobs(s, m, c); }
    hide AllRunning;
    WakesSplit(s, done, j, now);
    var before := AfterDone(s, done, now);
    var woke := Woken(before[j := CompleteRow(before[j], now)], s.edges, j, now);
    forall c ensures (c in s.jobs <==> c in before) && (c in s.jobs ==> s.jobs[c].project == before[c].project) {
      SameProjects(s, done, now, c);
    }
    EventsSame(JobQueued, woke, s.jobs, before);
    EventsJoin(JobQueued, WokenByBatch(s, done, now), woke, s.jobs);
    EventsJoin(JobCompleted, done, {j}, s.jobs);
    OneEvent(JobCompleted, j, s.jobs);
  }

  /** A batch with one more live entry is the batch followed by that entry's completion. */
  lemma SettleGrows(s: Db, m: seq<Done>, d: Done, now: Time)
    requires AllRunning(s, m) && AllNameTheirRun(s, m) && d.job !in JobsOf(m)
    requires HeldAs(s, d.job, d.fence, Running) && NamesItsRun(s, d)
    ensures HeldAs(Settle(s, m, now), d.job, d.fence, Running)
    ensures Settle(s, m + [d], now) == Complete(Settle(s, m, now), d.job, d.fence, d.exec, now)
  {
    hide AfterDone, WokenByBatch, Woken, CompleteRow, GroupedStats, GroupedRelease, CloseThese, CloseById, DurationOf,
        TimeSpent;
    hide EventsOf, FinishDependents, Count, ReleaseSlots, AllRunning, AllNameTheirRun, JobsOf, ExecsOf;
    SetsGrow(m, d);
    JobsGrow(s, JobsOf(m), d.job, now);
    ExecIsNew(s, m, d);
    ClosingGrows(s.execs, ExecsOf(m), d.exec, now);
    StillOpen(s.execs, ExecsOf(m), d.exec, now);
    StatsGrow(s, ExecsOf(m), d.exec, now);
    ReleaseGrows(s, m, d);
    SettleEvents(s, m, d, now);
    assert s.leases - (JobsOf(m) + {d.job}) == (s.leases - JobsOf(m)) - {d.job};
  }

  lemma StillOpen(execs: map<ExecId, Exec>, xs: set<ExecId>, x: ExecId, now: Time)
    requires x in execs && x !in xs && IsOpen(execs[x])
    ensures DurationOf(CloseThese(execs, xs, Success, now), x, now) == TimeSpent(execs[x], now)
  {
    hide DurationMs;
  }

  lemma NothingDone(s: Db, now: Time)
    ensures AfterDone(s, {}, now) == s.jobs && WokenByBatch(s, {}, now) == {}
  {
    forall c | c in s.jobs ensures AfterDone(s, {}, now)[c] == s.jobs[c] {
      assert DoneParents(s.edges, {}, c) == {};
    }
  }

  lemma NothingCounted(s: Db, now: Time)
    ensures CloseThese(s.execs, {}, Success, now) == s.execs
    ensures GroupedStats(s, {}, now) == s.stats
    ensures EventsOf(JobCompleted, {}, s.jobs) == EventsOf(JobQueued, {}, s.jobs) == multiset{}
  {
    assert QueuesOf(s.execs, {}) == {};
    assert GroupedStats(s, {}, now) == s.stats;
  }

  lemma NothingReleased(s: Db)
    ensures GroupedRelease(s, []) == s.queues
  {
    forall q | q in s.queues ensures LowerShards(s, [], q) == s.queues[q].shards {
    }
    hide LowerShards;
  }

  lemma SettleNothing(s: Db, now: Time)
    ensures Settle(s, [], now) == s
  {
    assert JobsOf([]) == {} && ExecsOf([]) == {};
    hide AfterDone, WokenByBatch, GroupedStats, GroupedRelease, CloseThese, EventsOf, JobsOf, ExecsOf;
    NothingDone(s, now);
    NothingCounted(s, now);
    NothingReleased(s);
    assert s.leases - {} == s.leases;
  }

  lemma BatchIsSettle(s: Db, batch: seq<Done>, now: Time)
    ensures CompleteBatch(s, batch, now) == Settle(s, Matched(s, batch), now)
  {
    SettleNothing(s, now);
    hide Matched, AfterDone, WokenByBatch, JobsOf, GroupedStats, GroupedRelease, CloseThese, EventsOf, ExecsOf;
  }

  lemma MatchedGood(s: Db, batch: seq<Done>)
    requires AllNameTheirRun(s, batch)
    ensures AllRunning(s, Matched(s, batch)) && AllNameTheirRun(s, Matched(s, batch))
  {
    var m := Matched(s, batch);
    forall i | 0 <= i < |m| ensures NamesItsRun(s, m[i]) {
      assert m[i] in batch;
    }
  }

  lemma NamedIsIn(m: seq<Done>, j: JobId)
    ensures Named(m, j) <==> j in JobsOf(m)
  {
    if Named(m, j) {
      var i :| 0 <= i < |m| && m[i].job == j;
      assert m[i] in m;
    }
    if j in JobsOf(m) {
      var d :| d in m && d.job == j;
      var i :| 0 <= i < |m| && m[i] == d;
    }
  }

  /** An entry the batch would not match is stale once the batch is done. */
  lemma StaleAfter(s: Db, m: seq<Done>, d: Done, now: Time)
    requires !HeldAs(s, d.job, d.fence, Running) || d.job in JobsOf(m)
    ensures !HeldAs(Settle(s, m, now), d.job, d.fence, Running)
  {
    hide GroupedStats, GroupedRelease, CloseThese, EventsOf, WokenByBatch, ExecsOf;
    if d.job in s.jobs {
      RepeatIs(s.jobs[d.job], |DoneParents(s.edges, JobsOf(m), d.job)|, now);
    }
  }

  /** A batch completion is the single completions of its entries, one after the other; stale
      and repeated entries have no effect in either form. */
  lemma {:induction false} BatchIsOneByOne(s: Db, batch: seq<Done>, now: Time)
    requires AllNameTheirRun(s, batch)
    ensures CompleteBatch(s, batch, now) == OneByOne(s, batch, now)
  {
    BatchIsSettle(s, batch, now);
    if batch == [] {
      SettleNothing(s, now);
      hide Settle, CompleteBatch;
    } else {
      var rest, d := batch[..|batch| - 1], batch[|batch| - 1];
      BatchIsOneByOne(s, rest, now);
      BatchIsSettle(s, rest, now);
      MatchedGood(s, rest);
      var m := Matched(s, rest);
      NamedIsIn(m, d.job);
      assert NamesItsRun(s, d);
      hide Settle, CompleteBatch, NamesItsRun, HeldAs, AllRunning, AllNameTheirRun, JobsOf, Named;
      if HeldAs(s, d.job, d.fence, Running) && !Named(m, d.job) {
        hide Complete;
        SettleGrows(s, m, d, now);
      } else {
        StaleAfter(s, m, d, now);
      }
    }
  }

  // ---------------------------------------------------------------- the order of the entries

  lemma {:induction false} MatchedExactly(s: Db, batch: seq<Done>, d: Done)
    requires Slots.OncePerJob(batch)
    ensures d in Matched(s, batch) <==> d in batch && HeldAs(s, d.job, d.fence, Running)
  {
    if batch != [] {
      var rest, e := batch[..|batch| - 1], batch[|batch| - 1];
      assert batch == rest + [e];
      MatchedExactly(s, rest, d);
      var m := Matched(s, rest);
      hide HeldAs;
      forall i | 0 <= i < |m| ensures m[i].job != e.job {
        assert m[i] in rest;
      }
      assert !Named(m, e.job);
    }
  }

  ghost predicate SameEntries(a: seq<Done>, b: seq<Done>) {
    forall d :: d in a <==> d in b
  }

  lemma SameSets(a: seq<Done>, b: seq<Done>)
    requires SameEntries(a, b)
    ensures JobsOf(a) == JobsOf(b) && ExecsOf(a) == ExecsOf(b) && (a == [] <==> b == [])
  {
    assert a != [] ==> a[0] in b;
    assert b != [] ==> b[0] in a;
  }

  lemma SameRelease(s: Db, a: seq<Done>, b: seq<Done>)
    requires AllRunning(s, a) && AllRunning(s, b) && Slots.OncePerJob(a) && Slots.OncePerJob(b)
        && JobsOf(a) == JobsOf(b)
    ensures GroupedRelease(s, a) == GroupedRelease(s, b)
  {
    forall q | q in s.queues ensures LowerShards(s, a, q) == LowerShards(s, b, q) {
      forall i: nat | i < |s.queues[q].shards| ensures OnShard(s, a, q, i) == OnShard(s, b, q, i) {
        Slots.GroupCounts(s, a, q, i);
        Slots.GroupCounts(s, b, q, i);
      }
      hide OnShard, JobsOf, AllRunning, Slots.OncePerJob;
    }
    hide LowerShards;
  }

  /** The database after a batch does not depend on the order of its entries. */
  lemma BatchOrderFree(s: Db, a: seq<Done>, b: seq<Done>, now: Time)
    requires Slots.OncePerJob(a) && Slots.OncePerJob(b) && SameEntries(a, b)
    ensures CompleteBatch(s, a, now) == CompleteBatch(s, b, now)
  {
    var m, n := Matched(s, a), Matched(s, b);
    forall d ensures d in m <==> d in n {
      MatchedExactly(s, a, d);
      MatchedExactly(s, b, d);
    }
    SameSets(m, n);
    Slots.MatchedOnce(s, a);
    Slots.MatchedOnce(s, b);
    SameRelease(s, m, n);
    hide Matched, AfterDone, WokenByBatch, JobsOf, GroupedStats, GroupedRelease, CloseThese, EventsOf, ExecsOf,
        SameEntries;
  }

  /** Single completions in any order end where the batch ends. */
  lemma AnyOrder(s: Db, batch: seq<Done>, order: seq<Done>, now: Time)
    requires Slots.OncePerJob(batch) && Slots.OncePerJob(order) && SameEntries(batch, order)
        && AllNameTheirRun(s, batch)
    ensures OneByOne(s, order, now) == CompleteBatch(s, batch, now)
  {
    forall i | 0 <= i < |order| ensures NamesItsRun(s, order[i]) {
      assert order[i] in batch;
    }
    BatchOrderFree(s, batch, order, now);
    hide CompleteBatch, OneByOne, NamesItsRun;
    BatchIsOneByOne(s, order, now);
  }

  /** In every state of every run, for entries reported by the workers that own their executions,
      no further assumption is needed. */
  lemma BatchOverRuns(ss: seq<Db>, acts: seq<Act>, i: nat, batch: seq<Done>, order: seq<Done>, now: Time)
    requires L.HonestRun(ss, acts) && Fresh(ss[0]) && i < |ss| && L.OwnsAll(ss[i], batch)
    requires Slots.OncePerJob(batch) && Slots.OncePerJob(order) && SameEntries(batch, order)
    ensures OneByOne(ss[i], order, now) == CompleteBatch(ss[i], batch, now)
  {
    var s := ss[i];
    L.RunKeepsLedger(ss, acts, i);
    forall k | 0 <= k < |batch| ensures NamesItsRun(s, batch[k]) {
      hide L.HonestRun, IsRun, L.AllFit, L.ExecFits;
      if HeldAs(s, batch[k].job, batch[k].fence, Running) {
        L.MatchedIsOpen(s, batch, k);
        OwnQueue(s, batch[k].exec);
      }
    }
    hide L.LedgerOk, CompleteBatch, OneByOne, NamesItsRun, L.OwnsAll, L.HonestRun, IsRun, Slots.OncePerJob;
    AnyOrder(s, batch, order, now);
  }

  lemma OwnQueue(s: Db, x: ExecId)
    requires L.AllFit(s) && x in s.execs
    ensures s.execs[x].job in s.jobs && s.execs[x].queue == s.jobs[s.execs[x].job].queue
  {
    assert L.ExecFits(s, s.execs[x]);
  }
}
