/** Runs, from an empty database, that show where a stronger claim would be false.

    The transactions of a scenario happen at time 0 unless it says otherwise. */
module Scenarios {
  import opened Schema
  import opened Transactions
  import opened Protocol
  import opened Rows
  import opened Fencing
  import A = Admission
  import Deps = Dependencies
  import Graph
  import LockOrder
  import Slots

  // ---------------------------------------------------------------- playing a script

  function End(s: Db, acts: seq<Act>): Db {
    if acts == [] then s else Step(End(s, acts[..|acts| - 1]), acts[|acts| - 1])
  }

  function Play(s: Db, acts: seq<Act>): seq<Db> {
    if acts == [] then [s] else Play(s, acts[..|acts| - 1]) + [End(s, acts)]
  }

  function ClockAt(t: Time): A.Clock { A.Clock(t, t, t, t) }

  /** When the script has got to action i. */
  function TimeBefore(acts: seq<Act>, from: Time, i: nat): Time
    requires i < |acts|
  {
    if i == 0 then from else acts[i - 1].now
  }

  /** Times never go back, and an admission reads the clock once. */
  predicate Paced(acts: seq<Act>, from: Time) {
    && (forall i :: 0 <= i < |acts| ==> TimeBefore(acts, from, i) <= acts[i].now)
    && (forall i :: 0 <= i < |acts| && acts[i].op.DoAdmit? ==> acts[i].op.clock == ClockAt(acts[i].now))
  }

  predicate AtOnce(acts: seq<Act>) {
    forall i :: 0 <= i < |acts| ==> acts[i].now == 0.0 && (acts[i].op.DoAdmit? ==> acts[i].op.clock == A.Instant)
  }

  lemma {:induction false} PlayAt(s: Db, acts: seq<Act>, n: nat)
    requires n <= |acts|
    ensures |Play(s, acts)| == |acts| + 1 && Play(s, acts)[n] == End(s, acts[..n])
  {
    hide Step;
    if acts == [] {
      assert acts[..0] == [];
    } else {
      var rest := acts[..|acts| - 1];
      PlayAt(s, rest, if n < |acts| then n else 0);
      if n == |acts| { assert acts[..n] == acts; } else { assert acts[..n] == rest[..n]; }
    }
  }

  lemma EndClock(s: Db, acts: seq<Act>)
    ensures End(s, acts).clock == if acts == [] then s.clock else acts[|acts| - 1].now
  {
    hide Apply;
  }

  lemma EndAtOnce(s: Db, acts: seq<Act>)
    requires s.clock == 0.0 && AtOnce(acts)
    ensures End(s, acts).clock == 0.0
  {
    hide End;
    EndClock(s, acts);
  }

  lemma PacedStep(s: Db, acts: seq<Act>, i: nat)
    requires Paced(acts, s.clock) && i < |acts|
    ensures OnTime(End(s, acts[..i]), acts[i])
  {
    var t := End(s, acts[..i]);
    EndClock(s, acts[..i]);
    hide End;
    assert t.clock == TimeBefore(acts, s.clock, i);
  }

  /** A script whose times are in order is a run. */
  lemma PlayInOrder(s: Db, acts: seq<Act>)
    requires Paced(acts, s.clock)
    ensures IsRun(Play(s, acts), acts) && |Play(s, acts)| == |acts| + 1 && Play(s, acts)[0] == s
        && Play(s, acts)[|acts|] == End(s, acts)
  {
    var ss := Play(s, acts);
    PlayAt(s, acts, 0);
    PlayAt(s, acts, |acts|);
    assert acts[..|acts|] == acts && acts[..0] == [] && End(s, []) == s;
    hide Play, Step, OnTime, End, Paced;
    forall i | 0 <= i < |acts| ensures OnTime(ss[i], acts[i]) && ss[i + 1] == Step(ss[i], acts[i]) {
      PlayAt(s, acts, i);
      PlayAt(s, acts, i + 1);
      PacedStep(s, acts, i);
      EndMore(s, acts, i);
    }
  }

  /** So is one played at a single instant. */
  lemma PlayIsRun(s: Db, acts: seq<Act>)
    requires s.clock == 0.0 && AtOnce(acts)
    ensures IsRun(Play(s, acts), acts) && |Play(s, acts)| == |acts| + 1 && Play(s, acts)[0] == s
        && Play(s, acts)[|acts|] == End(s, acts)
  {
    assert Paced(acts, 0.0);
    hide Play, End, IsRun;
    PlayInOrder(s, acts);
  }

  lemma EndMore(s: Db, acts: seq<Act>, i: nat)
    requires i < |acts|
    ensures End(s, acts[..i + 1]) == Step(End(s, acts[..i]), acts[i])
  {
    hide Step;
    assert acts[..i + 1][..i] == acts[..i];
  }

  lemma {:induction false} EndJoin(s: Db, a: seq<Act>, b: seq<Act>)
    ensures End(s, a + b) == End(End(s, a), b)
  {
    if b == [] {
      assert a + b == a;
    } else {
      EndJoin(s, a, b[..|b| - 1]);
      assert (a + b)[..|a + b| - 1] == a + b[..|b| - 1];
      hide Step;
    }
  }

  lemma EndOne(s: Db, a: Act)
    ensures End(s, [a]) == Step(s, a)
  {
    assert [a][..0] == [];
    hide Step;
    assert End(s, [a]) == Step(End(s, []), a);
  }

  function Now(op: Op): Act { Act(op, 0.0) }

  // ---------------------------------------------------------------- the transactions used

  /** A queue with one shard and no rate limit, n slots out. */
  function Row(project: ProjectId, maxc: int, n: int): A.Queue {
    A.Queue(project, false, maxc, 0.0, 0.0, A.Closed, None, 0, [A.Shard(n, 0.0, 0.0)])
  }

  function Order(id: JobId, project: ProjectId, parents: seq<JobId>): Submission {
    Submission(id, project, project, Policy(1, 0.0), 0.0, None, parents)
  }

  lemma SubmitIs(s: Db, r: Submission, live: set<JobId>)
    requires Acceptable(s, r) && r.runAt.None? && LiveParents(s.jobs, r.parents, r.project) == live
    ensures var t := Step(s, Now(DoSubmit(r)));
            && t.jobs == s.jobs[r.id := NewJob(s, r, if live == {} then Queued else Scheduled, 0.0, live, 0.0)]
            && t.edges == s.edges + (set p | p in r.parents :: (p, r.id))
            && t.queues == s.queues && t.execs == s.execs && t.grants == s.grants && t.leases == s.leases
            && t.clock == 0.0
  {
    hide LiveParents, NewJob, Acceptable;
    assert |live| > 0 <==> live != {};
  }

  /** Admission, claim and start of one job. */
  function DriveActs(q: QueueId, j: JobId, x: ExecId, g: nat, fence: int): seq<Act> {
    [Now(DoAdmit(q, 1, Some(0), A.Instant)), Now(DoTake(g, {j}, 0, 60.0)), Now(DoStart(j, fence, 0, x))]
  }

  function RunRow(j: Job): Job {
    ClaimRow(j, 0, 0, 0.0).(status := Running, startedAt := Some(0.0), attempts := j.attempts + 1)
  }

  lemma AdmitIs(s: Db, q: QueueId, project: ProjectId, maxc: int, n: int, at: Time)
    requires q in s.queues && s.queues[q] == Row(project, maxc, n) && 0 <= n < maxc
    ensures var t := Step(s, Act(DoAdmit(q, 1, Some(0), ClockAt(at)), at));
            && t.queues == s.queues[q := Row(project, maxc, n + 1)] && t.grants == s.grants + [Grant(q, 0, 1, false)]
            && t.jobs == s.jobs && t.execs == s.execs && t.edges == s.edges && t.leases == s.leases && t.clock == at
  {
    var row, c := s.queues[q], ClockAt(at);
    assert A.ShardSlots(maxc, 1, 0) == maxc by {
      A.SharesAddUp(maxc, 1);
      assert A.SlotSum(maxc, 1, 1) == A.SlotSum(maxc, 1, 0) + A.ShardSlots(maxc, 1, 0);
    }
    assert A.Allowed(row, 0, 1, c) == 1;
    hide A.Allowed, A.ShardSlots;
    assert A.TakeSlots(row, 0, 1, c).shards == [A.Shard(n + 1, 0.0, 0.0)];
    assert A.Admit(row, 1, Some(0), c) == A.Admitted(Row(project, maxc, n + 1), 1, 0);
    hide A.Admit;
  }

  lemma TakeIs(s: Db, g: nat, j: JobId, q: QueueId, project: ProjectId, maxc: int, n: int, at: Time)
    requires q in s.queues && s.queues[q] == Row(project, maxc, n) && n >= 0
    requires g < |s.grants| && s.grants[g] == Grant(q, 0, 1, false)
    requires j in s.jobs && s.jobs[j].status.Queued? && s.jobs[j].runAt <= at && s.jobs[j].queue == q
    ensures var t := Step(s, Act(DoTake(g, {j}, 0, 60.0), at));
            && t.jobs == s.jobs[j := ClaimRow(s.jobs[j], 0, 0, at)]
            && t.leases == s.leases[j := Lease(s.jobs[j].fence + 1, 0, at + 60.0)]
            && t.queues == s.queues && t.execs == s.execs && t.edges == s.edges && t.clock == at
            && t.grants == Spend(s.grants, g)
  {
    assert Claimable(s, g, {j}, at) && LiveGrant(s, g);
    assert ReleaseSlots(s.queues, q, 0, 0) == s.queues by {
      assert s.queues[q].shards[0 := s.queues[q].shards[0]] == s.queues[q].shards;
    }
    hide ReleaseSlots, ClaimRow, Claimable;
    var t := Step(s, Act(DoTake(g, {j}, 0, 60.0), at));
    assert t.jobs == s.jobs[j := ClaimRow(s.jobs[j], 0, 0, at)];
    assert t.leases == s.leases[j := Lease(s.jobs[j].fence + 1, 0, at + 60.0)];
  }

  lemma StartIs(s: Db, j: JobId, x: ExecId)
    requires j in s.jobs && s.jobs[j].status.Claimed? && x !in s.execs
    ensures var t := Step(s, Now(DoStart(j, s.jobs[j].fence, 0, x)));
            && t.jobs == s.jobs[j := s.jobs[j].(status := Running, startedAt := Some(0.0),
                attempts := s.jobs[j].attempts + 1)]
            && t.queues == s.queues && t.edges == s.edges && t.execs.Keys == s.execs.Keys + {x} && t.grants == s.grants
            && t.leases == s.leases && t.clock == 0.0
  {
  }

  /** A queued job on a queue with a free slot is brought to run, and nothing else moves. */
  lemma DriveLeases(s: Db, q: QueueId, j: JobId, x: ExecId, project: ProjectId, maxc: int, n: int)
    requires q in s.queues && s.queues[q] == Row(project, maxc, n) && 0 <= n < maxc
    requires j in s.jobs && s.jobs[j].status.Queued? && s.jobs[j].runAt <= 0.0 && s.jobs[j].queue == q && x !in s.execs
    ensures var t := End(s, DriveActs(q, j, x, |s.grants|, s.jobs[j].fence + 1));
            && t.jobs == s.jobs[j := RunRow(s.jobs[j])] && t.queues == s.queues[q := Row(project, maxc, n + 1)]
            && t.execs.Keys == s.execs.Keys + {x} && t.edges == s.edges && |t.grants| == |s.grants| + 1
            && t.leases == s.leases[j := Lease(s.jobs[j].fence + 1, 0, 60.0)] && t.clock == 0.0
  {
    hide Step;
    var a, b, c := Now(DoAdmit(q, 1, Some(0), A.Instant)), Now(DoTake(|s.grants|, {j}, 0, 60.0)),
        Now(DoStart(j, s.jobs[j].fence + 1, 0, x));
    var s1 := Step(s, a);
    AdmitIs(s, q, project, maxc, n, 0.0);
    var s2 := Step(s1, b);
    TakeIs(s1, |s.grants|, j, q, project, maxc, n + 1, 0.0);
    var s3 := Step(s2, c);
    StartIs(s2, j, x);
    assert s3.jobs == s.jobs[j := RunRow(s.jobs[j])];
    assert [a] + [b] + [c] == DriveActs(q, j, x, |s.grants|, s.jobs[j].fence + 1);
    EndOne(s, a);
    EndJoin(s, [a], [b]);
    EndOne(s1, b);
    EndJoin(s, [a] + [b], [c]);
    EndOne(s2, c);
  }

  lemma DriveIs(s: Db, q: QueueId, j: JobId, x: ExecId, project: ProjectId, maxc: int, n: int)
    requires q in s.queues && s.queues[q] == Row(project, maxc, n) && 0 <= n < maxc
    requires j in s.jobs && s.jobs[j].status.Queued? && s.jobs[j].runAt <= 0.0 && s.jobs[j].queue == q && x !in s.execs
    ensures var t := End(s, DriveActs(q, j, x, |s.grants|, s.jobs[j].fence + 1));
            && t.jobs == s.jobs[j := RunRow(s.jobs[j])] && t.queues == s.queues[q := Row(project, maxc, n + 1)]
            && t.execs.Keys == s.execs.Keys + {x} && t.edges == s.edges && |t.grants| == |s.grants| + 1
            && t.clock == 0.0
  {
    hide Step, End, RunRow, DriveActs;
    DriveLeases(s, q, j, x, project, maxc, n);
  }

  lemma FailIs(s: Db, j: JobId)
    requires j in s.jobs && s.jobs[j].status.Running? && forall e :: e in s.edges ==> e.0 != j
    ensures var t := Step(s, Now(DoFail(j, s.jobs[j].fence, PermanentError, true, 0.0)));
            && t.jobs == s.jobs[j := s.jobs[j].(status := DeadLetter, finishedAt := Some(0.0), worker := None)]
            && t.edges == s.edges && t.execs.Keys == s.execs.Keys && t.grants == s.grants && t.clock == 0.0
            && t.queues == ReleaseSlots(s.queues, s.jobs[j].queue, s.jobs[j].shard, 1)
  {
    LockOrder.NoDescendants(s, s.jobs[j := FailRow(s.jobs[j], true, 0.0, 0.0)], j, 0.0);
    hide CancelDescendants, Killed, EventsOf, ReleaseSlots, Count, DeadReason;
  }

  lemma CompleteIs(s: Db, j: JobId, x: ExecId)
    requires j in s.jobs && s.jobs[j].status.Running?
    ensures var t := Step(s, Now(DoComplete(j, s.jobs[j].fence, x)));
            && t.jobs == FinishDependents(s.jobs[j := CompleteRow(s.jobs[j], 0.0)], s.edges, j, 0.0)
            && t.edges == s.edges && t.execs.Keys == s.execs.Keys && t.grants == s.grants && t.clock == 0.0
            && t.queues == ReleaseSlots(s.queues, s.jobs[j].queue, s.jobs[j].shard, 1)
  {
    hide FinishDependents, Woken, EventsOf, ReleaseSlots, Count, DurationOf, CompleteRow;
  }

  lemma ReplayIs(s: Db, j: JobId)
    requires j in s.jobs && s.jobs[j].status.DeadLetter? && forall c :: c in s.jobs ==> !s.jobs[c].status.Cancelled?
    ensures var t := Step(s, Now(DoReplay(j)));
            && t.jobs == s.jobs[j := ReplayRow(s.jobs[j], 0.0)]
            && t.edges == s.edges && t.execs == s.execs && t.grants == s.grants && t.clock == 0.0
            && t.queues == s.queues
  {
    assert CancelledKin(s, j) == {};
    hide CancelledKin, ReplayRow, MarkReplayed;
  }

  lemma ReleaseIs(queues: map<QueueId, A.Queue>, q: QueueId, project: ProjectId, maxc: int, n: int)
    requires q in queues && queues[q] == Row(project, maxc, n) && n >= 1
    ensures ReleaseSlots(queues, q, 0, 1) == queues[q := Row(project, maxc, n - 1)]
  {
    assert [A.Shard(n, 0.0, 0.0)][0 := A.Shard(n - 1, 0.0, 0.0)] == [A.Shard(n - 1, 0.0, 0.0)];
  }

  // ---------------------------------------------------------------- a cap lowered under load

  function Workshop(maxc: int): Db {
    Db(map[], map[], map[], {}, map[0 := Row(0, maxc, 0), 1 := Row(1, maxc, 0)], [], map[], map[], multiset{}, {}, 0.0)
  }

  lemma WorkshopIsFresh(maxc: int)
    requires maxc > 0
    ensures Fresh(Workshop(maxc))
  {
  }

  lemma {:induction false} EndSteps(s: Db, acts: seq<Act>, a: Act)
    ensures End(s, acts + [a]) == Step(End(s, acts), a)
  {
    EndJoin(s, acts, [a]);
    EndOne(End(s, acts), a);
  }

  /** A queued job as its submission leaves it. */
  function Queued0(project: ProjectId, serial: nat): Job {
    Job(project, project, Policy(1, 0.0), 0.0, Queued, 0.0, 0, 0, 0, 0, None, 0, 0, 0.0, None, None, None, None, serial,
      {})
  }

  function Submits0(id: JobId, project: ProjectId): Act { Now(DoSubmit(Order(id, project, []))) }

  lemma SubmitsPlain(s: Db, id: JobId, project: ProjectId)
    requires id !in s.jobs && project in s.queues && s.queues[project].project == project
    ensures var t := Step(s, Submits0(id, project));
            && t.jobs == s.jobs[id := Queued0(project, |s.jobs|)] && t.edges == s.edges
            && t.queues == s.queues && t.execs == s.execs && t.grants == s.grants && t.leases == s.leases
            && t.clock == 0.0
  {
    var r := Order(id, project, []);
    assert LiveParents(s.jobs, [], project) == {};
    SubmitIs(s, r, {});
    hide Step, LiveParents;
    assert (set p | p in r.parents :: (p, r.id)) == {};
  }

  lemma ConfigureIs(s: Db, maxc: int, n: int)
    requires 0 in s.queues && s.queues[0] == Row(0, maxc, n)
    ensures var t := Step(s, Now(DoConfigure(0, CapOfOne)));
            0 in t.queues && t.queues[0].maxConcurrency == 1 && t.jobs == s.jobs
  {
    hide Busy;
  }

  const CapOfOne: A.Settings := A.Settings(false, 1, 0.0, 0.0, 1)

  function TwoSubmitted(): seq<Act> { [Submits0(0, 0)] + [Submits0(1, 0)] }
  function TwoDriven(): seq<Act> { DriveActs(0, 0, 0, 0, 1) + DriveActs(0, 1, 1, 1, 1) }

  lemma AfterTwoSubmitted(maxc: int)
    ensures var t := End(Workshop(maxc), TwoSubmitted());
            && t.jobs == map[0 := Queued0(0, 0), 1 := Queued0(0, 1)] && t.queues == Workshop(maxc).queues
            && t.execs == map[] && t.grants == [] && t.edges == {} && t.clock == 0.0
  {
    hide Step, Queued0;
    var s0 := Workshop(maxc);
    SubmitsPlain(s0, 0, 0);
    EndOne(s0, Submits0(0, 0));
    var s1 := Step(s0, Submits0(0, 0));
    SubmitsPlain(s1, 1, 0);
    EndSteps(s0, [Submits0(0, 0)], Submits0(1, 0));
    assert s1.jobs == map[0 := Queued0(0, 0)] && |s1.jobs| == 1;
  }

  lemma AfterTwoDriven(s: Db)
    requires s.jobs == map[0 := Queued0(0, 0), 1 := Queued0(0, 1)] && s.execs == map[] && s.grants == []
        && 0 in s.queues && s.queues[0] == Row(0, 2, 0)
    ensures var t := End(s, TwoDriven());
            && t.jobs == map[0 := RunRow(Queued0(0, 0)), 1 := RunRow(Queued0(0, 1))] && 0 in t.queues
            && t.queues[0] == Row(0, 2, 2)
  {
    hide Step, RunRow, End;
    DriveIs(s, 0, 0, 0, 0, 2, 0);
    var u := End(s, DriveActs(0, 0, 0, 0, 1));
    DriveIs(u, 0, 1, 1, 0, 2, 1);
    EndJoin(s, DriveActs(0, 0, 0, 0, 1), DriveActs(0, 1, 1, 1, 1));
  }

  function LoweredCap(): seq<Act> { TwoSubmitted() + TwoDriven() + [Now(DoConfigure(0, CapOfOne))] }

  lemma AfterLoweredCap()
    ensures var t := End(Workshop(2), LoweredCap());
            Slots.ActiveOf(t, 0) == {0, 1} && 0 in t.queues && t.queues[0].maxConcurrency == 1
  {
    var s := End(Workshop(2), TwoSubmitted());
    AfterTwoSubmitted(2);
    assert s.queues[0] == Row(0, 2, 0);
    AfterTwoDriven(s);
    hide End, Step;
    var u := End(s, TwoDriven());
    EndJoin(Workshop(2), TwoSubmitted(), TwoDriven());
    ConfigureIs(u, 2, 2);
    EndSteps(Workshop(2), TwoSubmitted() + TwoDriven(), Now(DoConfigure(0, CapOfOne)));
  }

  /** Lowering max_concurrency under load leaves more jobs running than the new cap allows: two
      jobs run on a cap of two, then the cap is set to one. */
  lemma LoweredCapIsExceeded()
    ensures var acts := LoweredCap();
            var ss := Play(Workshop(2), acts);
            && IsRun(ss, acts) && Fresh(ss[0]) && |ss| == |acts| + 1
            && 0 in ss[|acts|].queues && |Slots.ActiveOf(ss[|acts|], 0)| > ss[|acts|].queues[0].maxConcurrency
  {
    WorkshopIsFresh(2);
    assert AtOnce(LoweredCap());
    AfterLoweredCap();
    hide End, Step, IsRun, Slots.ActiveOf, LoweredCap;
    PlayIsRun(Workshop(2), LoweredCap());
    assert |{0, 1}| == 2;
  }

  // ---------------------------------------------------------------- a slot in transit

  lemma ReconciledRow(s: Db, q: QueueId, project: ProjectId, n: int)
    requires q in s.queues && s.queues[q] == Row(project, 1, n) && ActiveAt(s, q, 0) == {}
    ensures q in Reconciled(s) && Reconciled(s)[q] == Row(project, 1, 0)
  {
    hide ActiveAt;
    assert Reconciled(s)[q].shards == [A.Shard(0, 0.0, 0.0)];
  }

  lemma ReconciledKeys(s: Db)
    ensures Reconciled(s).Keys == s.queues.Keys
  {
    hide ActiveAt;
  }

  lemma ReconcileIs(s: Db)
    requires s.jobs == map[0 := Queued0(0, 0), 1 := Queued0(0, 1)]
    requires s.queues == map[0 := Row(0, 1, 1), 1 := Row(1, 1, 0)]
    requires forall i :: 0 <= i < |s.grants| ==> !s.grants[i].lost
    ensures Step(s, Now(DoReconcile)) == s.(queues := Workshop(1).queues, clock := 0.0)
  {
    assert ForgetLost(s.grants) == s.grants;
    hide ForgetLost, Reconciled;
    ReconciledAsNew(s);
  }

  lemma ReconciledAsNew(s: Db)
    requires s.jobs == map[0 := Queued0(0, 0), 1 := Queued0(0, 1)]
    requires s.queues == map[0 := Row(0, 1, 1), 1 := Row(1, 1, 0)]
    ensures Reconciled(s) == Workshop(1).queues
  {
    NoneActive(s);
    hide Queued0, ActiveAt, Reconciled, Row;
    ReconciledRow(s, 0, 0, 1);
    ReconciledRow(s, 1, 1, 0);
    ReconciledKeys(s);
  }

  lemma NoneActive(s: Db)
    requires s.jobs == map[0 := Queued0(0, 0), 1 := Queued0(0, 1)]
    ensures ActiveAt(s, 0, 0) == {} && ActiveAt(s, 1, 0) == {}
  {
  }

  function AdmitNow(): Act { Now(DoAdmit(0, 1, Some(0), ClockAt(0.0))) }
  function TakeNow(g: nat, j: JobId): Act { Now(DoTake(g, {j}, 0, 60.0)) }

  function Overbooking(): seq<Act> {
    TwoSubmitted() + [AdmitNow()] + [Now(DoReconcile)] + [AdmitNow()] + [TakeNow(0, 0)] + [TakeNow(1, 1)]
  }

  const OneSlot: Grant := Grant(0, 0, 1, false)

  /** Two slots are out on a queue whose counter says one. */
  predicate TwoOut(s: Db) {
    && s.jobs == map[0 := Queued0(0, 0), 1 := Queued0(0, 1)] && s.queues == map[0 := Row(0, 1, 1), 1 := Row(1, 1, 0)]
    && s.grants == [OneSlot, OneSlot]
  }

  lemma AdmittedTwice(s: Db)
    requires s.jobs == map[0 := Queued0(0, 0), 1 := Queued0(0, 1)] && s.queues == Workshop(1).queues && s.grants == []
    ensures TwoOut(Step(Step(Step(s, AdmitNow()), Now(DoReconcile)), AdmitNow()))
  {
    hide Step, Queued0;
    AdmitIs(s, 0, 0, 1, 0, 0.0);
    var s1 := Step(s, AdmitNow());
    assert s1.queues == map[0 := Row(0, 1, 1), 1 := Row(1, 1, 0)];
    ReconcileIs(s1);
    var s2 := Step(s1, Now(DoReconcile));
    AdmitIs(s2, 0, 0, 1, 0, 0.0);
    assert s2.queues[0 := Row(0, 1, 1)] == s1.queues;
  }

  function Taken0(serial: nat): Job { ClaimRow(Queued0(0, serial), 0, 0, 0.0) }

  lemma FirstTaken(s: Db)
    requires TwoOut(s)
    ensures var t := Step(s, TakeNow(0, 0));
            t.jobs == map[0 := Taken0(0), 1 := Queued0(0, 1)] && t.queues == s.queues
              && t.grants == [OneSlot.(n := 0), OneSlot]
  {
    hide Step, ClaimRow;
    TakeIs(s, 0, 0, 0, 0, 1, 1, 0.0);
  }

  lemma SecondTaken(s: Db)
    requires s.jobs == map[0 := Taken0(0), 1 := Queued0(0, 1)] && s.grants == [OneSlot.(n := 0), OneSlot]
    requires 0 in s.queues && s.queues[0] == Row(0, 1, 1)
    ensures var t := Step(s, TakeNow(1, 1));
            t.jobs == map[0 := Taken0(0), 1 := Taken0(1)] && t.queues == s.queues
  {
    hide Step, ClaimRow;
    TakeIs(s, 1, 1, 0, 0, 1, 1, 0.0);
  }

  lemma BothTaken(s: Db)
    requires TwoOut(s)
    ensures var t := Step(Step(s, TakeNow(0, 0)), TakeNow(1, 1));
            Slots.ActiveOf(t, 0) == {0, 1} && 0 in t.queues && t.queues[0].maxConcurrency == 1
  {
    hide Step, TakeNow;
    FirstTaken(s);
    SecondTaken(Step(s, TakeNow(0, 0)));
  }

  lemma AfterOverbooking()
    ensures var t := End(Workshop(1), Overbooking());
            Slots.ActiveOf(t, 0) == {0, 1} && 0 in t.queues && t.queues[0].maxConcurrency == 1
  {
    var s0, acts := Workshop(1), TwoSubmitted();
    AfterTwoSubmitted(1);
    hide Step, End, TwoSubmitted, TwoOut, Slots.ActiveOf, AdmitNow, TakeNow, Queued0;
    var s := End(s0, acts);
    AdmittedTwice(s);
    EndSteps(s0, acts, AdmitNow());
    EndSteps(s0, acts + [AdmitNow()], Now(DoReconcile));
    EndSteps(s0, acts + [AdmitNow()] + [Now(DoReconcile)], AdmitNow());
    var u := End(s0, acts + [AdmitNow()] + [Now(DoReconcile)] + [AdmitNow()]);
    BothTaken(u);
    EndSteps(s0, acts + [AdmitNow()] + [Now(DoReconcile)] + [AdmitNow()], TakeNow(0, 0));
    EndSteps(s0, acts + [AdmitNow()] + [Now(DoReconcile)] + [AdmitNow()] + [TakeNow(0, 0)], TakeNow(1, 1));
  }

  /** A reconciliation between an admission and its claim takes the slot in transit off the
      counter: a second admission grants it again, and two jobs run on a cap of one. */
  lemma ReconcileOverbooks()
    ensures var acts := Overbooking();
            var ss := Play(Workshop(1), acts);
            && IsRun(ss, acts) && Fresh(ss[0]) && |ss| == |acts| + 1
            && 0 in ss[|acts|].queues && |Slots.ActiveOf(ss[|acts|], 0)| > ss[|acts|].queues[0].maxConcurrency
  {
    WorkshopIsFresh(1);
    assert AtOnce(Overbooking());
    AfterOverbooking();
    hide End, Step, IsRun, Slots.ActiveOf, Overbooking;
    PlayIsRun(Workshop(1), Overbooking());
    assert |{0, 1}| == 2;
  }

  // ---------------------------------------------------------------- parents that were not counted

  /** Some job of the run has left the waiting state although a parent that was live at its
      submission has not completed. */
  ghost predicate StartsEarly(ss: seq<Db>, acts: seq<Act>) {
    exists k: nat, i: nat, r: Submission, p: JobId ::
      && Deps.Submits(ss, acts, k, r) && k < i < |ss| && r.id in ss[i].jobs && ss[i].jobs[r.id].status.Running?
      && p in LiveParents(ss[k].jobs, r.parents, r.project) && p in ss[i].jobs && !ss[i].jobs[p].status.Completed?
  }

  const Child: Submission := Order(2, 0, [0, 1])

  function WaitingChild(): Job { Queued0(0, 2).(status := Scheduled, pendingDeps := 1, waitsOn := {1}) }

  /** Job 0 is linked to the child but not counted; job 1 is counted. */
  predicate Linked(s: Db, loose: Job) {
    && s.jobs == map[0 := loose, 1 := Queued0(0, 1), 2 := WaitingChild()] && s.edges == {(0, 2), (1, 2)}
  }

  lemma SubmitsChild(s: Db, loose: Job)
    requires s.jobs == map[0 := loose, 1 := Queued0(0, 1)] && s.edges == {} && 0 in s.queues && s.queues[0].project == 0
    requires loose.status.DeadLetter? || loose.project != 0
    ensures Acceptable(s, Child) && LiveParents(s.jobs, Child.parents, Child.project) == {1}
    ensures var t := Step(s, Now(DoSubmit(Child)));
            Linked(t, loose) && t.queues == s.queues && t.execs == s.execs && t.grants == s.grants
              && t.leases == s.leases && t.clock == 0.0
  {
    hide Step, LiveParents, Acceptable;
    ChildAcceptable(s, loose);
    SubmitIs(s, Child, {1});
    assert |s.jobs| == 2 by { assert s.jobs.Keys == {0, 1}; }
    assert (set p | p in Child.parents :: (p, Child.id)) == {(0, 2), (1, 2)};
    assert |{1}| == 1;
  }

  lemma ChildAcceptable(s: Db, loose: Job)
    requires s.jobs == map[0 := loose, 1 := Queued0(0, 1)] && 0 in s.queues && s.queues[0].project == 0
    requires loose.status.DeadLetter? || loose.project != 0
    ensures Acceptable(s, Child) && LiveParents(s.jobs, Child.parents, Child.project) == {1}
  {
    assert LiveParents(s.jobs, [0, 1], 0) == {1};
  }

  lemma LooseCompletes(s: Db, loose: Job, x: ExecId)
    requires Linked(s, loose) && loose.status.Running?
    ensures var t := Step(s, Now(DoComplete(0, loose.fence, x)));
            && t.jobs == map[0 := CompleteRow(loose, 0.0), 1 := Queued0(0, 1),
                2 := WaitingChild().(status := Queued, pendingDeps := 0)]
            && t.edges == s.edges && t.execs.Keys == s.execs.Keys && t.grants == s.grants && t.clock == 0.0
            && t.queues == ReleaseSlots(s.queues, loose.queue, loose.shard, 1)
  {
    CompleteIs(s, 0, x);
    hide Step, ReleaseSlots, CompleteRow;
    var rows := s.jobs[0 := CompleteRow(loose, 0.0)];
    assert rows == map[0 := CompleteRow(loose, 0.0), 1 := Queued0(0, 1), 2 := WaitingChild()];
    var t := FinishDependents(rows, s.edges, 0, 0.0);
    assert t.Keys == {0, 1, 2} && t[0] == rows[0] && t[1] == rows[1];
    assert t[2] == OneLess(WaitingChild(), 0.0);
  }

  /** The child runs, job 1 still waits in the queue. */
  predicate ChildRuns(s: Db) {
    2 in s.jobs && s.jobs[2].status.Running? && 1 in s.jobs && s.jobs[1].status.Queued?
  }

  lemma ChildDriven(s: Db, done: Job, x: ExecId)
    requires s.jobs == map[0 := done, 1 := Queued0(0, 1), 2 := WaitingChild().(status := Queued, pendingDeps := 0)]
    requires 0 in s.queues && s.queues[0] == Row(0, 1, 0) && x !in s.execs
    ensures ChildRuns(End(s, DriveActs(0, 2, x, |s.grants|, 1)))
  {
    hide Step;
    DriveIs(s, 0, 2, x, 0, 1, 0);
    hide End;
  }

  lemma EarlyFrom(s: Db, before: seq<Act>, after: seq<Act>)
    requires s.clock == 0.0 && AtOnce(before + [Now(DoSubmit(Child))] + after)
    requires Acceptable(End(s, before), Child) && LiveParents(End(s, before).jobs, Child.parents, Child.project) == {1}
    requires ChildRuns(End(s, before + [Now(DoSubmit(Child))] + after)) && after != []
    ensures var acts := before + [Now(DoSubmit(Child))] + after;
            IsRun(Play(s, acts), acts) && |Play(s, acts)| > 0 && Play(s, acts)[0] == s
              && StartsEarly(Play(s, acts), acts)
  {
    var acts := before + [Now(DoSubmit(Child))] + after;
    var ss, k := Play(s, acts), |before|;
    hide Step, End, Play, IsRun, Acceptable, LiveParents, AtOnce;
    PlayIsRun(s, acts);
    PlayAt(s, acts, k);
    assert acts[..k] == before && acts[k] == Now(DoSubmit(Child));
    assert Deps.Submits(ss, acts, k, Child);
    var i, p := |acts|, 1;
    assert p in LiveParents(ss[k].jobs, Child.parents, Child.project);
    hide Deps.Submits;
    assert k < i < |ss|;
  }

  // A live parent of another project.

  function ForeignBefore(): seq<Act> { [Submits0(0, 1)] + [Submits0(1, 0)] }
  function ForeignAfter(): seq<Act> { DriveActs(1, 0, 0, 0, 1) + [Now(DoComplete(0, 1, 0))] + DriveActs(0, 2, 1, 1, 1) }

  lemma AfterForeignBefore()
    ensures var t := End(Workshop(1), ForeignBefore());
            && t.jobs == map[0 := Queued0(1, 0), 1 := Queued0(0, 1)] && t.queues == Workshop(1).queues
            && t.execs == map[] && t.grants == [] && t.edges == {} && t.clock == 0.0
  {
    hide Step, Queued0;
    var s0 := Workshop(1);
    SubmitsPlain(s0, 0, 1);
    EndOne(s0, Submits0(0, 1));
    var s1 := Step(s0, Submits0(0, 1));
    SubmitsPlain(s1, 1, 0);
    EndSteps(s0, [Submits0(0, 1)], Submits0(1, 0));
    assert s1.jobs == map[0 := Queued0(1, 0)] && |s1.jobs| == 1;
  }

  lemma AfterForeignAfter(s: Db)
    requires Linked(s, Queued0(1, 0)) && s.queues == Workshop(1).queues && s.execs == map[] && s.grants == []
    ensures ChildRuns(End(s, ForeignAfter()))
  {
    hide Step, End, ReleaseSlots, ChildRuns;
    var drive := DriveActs(1, 0, 0, 0, 1);
    DriveIs(s, 1, 0, 0, 1, 1, 0);
    var u := End(s, drive);
    var loose := RunRow(Queued0(1, 0));
    assert Linked(u, loose);
    LooseCompletes(u, loose, 0);
    ReleaseIs(u.queues, 1, 1, 1, 1);
    var v := Step(u, Now(DoComplete(0, 1, 0)));
    EndSteps(s, drive, Now(DoComplete(0, 1, 0)));
    ChildDriven(v, CompleteRow(loose, 0.0), 1);
    EndJoin(s, drive + [Now(DoComplete(0, 1, 0))], DriveActs(0, 2, 1, 1, 1));
  }

  lemma ForeignAtOnce()
    ensures AtOnce(ForeignBefore() + [Now(DoSubmit(Child))] + ForeignAfter()) && ForeignAfter() != []
  {
  }

  /** A run from an empty database: a job names a running parent of another project beside one of
      its own; the foreign one completes, and the job runs while its own parent is still queued. */
  lemma ForeignParentStartsEarly()
    ensures var acts := ForeignBefore() + [Now(DoSubmit(Child))] + ForeignAfter();
            var ss := Play(Workshop(1), acts);
            IsRun(ss, acts) && |ss| > 0 && Fresh(ss[0]) && StartsEarly(ss, acts)
  {
    WorkshopIsFresh(1);
    ForeignAtOnce();
    hide Step, End, IsRun, StartsEarly, ForeignBefore, ForeignAfter, ChildRuns, Linked, AtOnce, Fresh;
    AfterForeignBefore();
    var s0, before, after := Workshop(1), ForeignBefore(), ForeignAfter();
    var s := End(s0, before);
    SubmitsChild(s, Queued0(1, 0));
    EndSteps(s0, before, Now(DoSubmit(Child)));
    AfterForeignAfter(Step(s, Now(DoSubmit(Child))));
    EndJoin(s0, before + [Now(DoSubmit(Child))], after);
    EarlyFrom(s0, before, after);
  }

  // A dead-lettered parent that is replayed.

  function DeadBefore(): seq<Act> {
    [Submits0(0, 0)] + DriveActs(0, 0, 0, 0, 1) + [Now(DoFail(0, 1, PermanentError, true, 0.0))] + [Submits0(1, 0)]
  }

  function DeadAfter(): seq<Act> {
    [Now(DoReplay(0))] + DriveActs(0, 0, 1, 1, 2) + [Now(DoComplete(0, 2, 1))] + DriveActs(0, 2, 2, 2, 1)
  }

  function DeadJob(): Job { RunRow(Queued0(0, 0)).(status := DeadLetter, finishedAt := Some(0.0), worker := None) }

  /** Everything but the jobs and edges of the dead-letter scenario, with these executions started. */
  predicate Bench(s: Db, execs: set<ExecId>, out: int) {
    0 in s.queues && s.queues[0] == Row(0, 1, out) && s.execs.Keys == execs && |s.grants| == |execs| && s.clock == 0.0
  }

  lemma RunsAndFails(s: Db)
    requires s.jobs == map[0 := Queued0(0, 0)] && s.edges == {} && Bench(s, {}, 0)
    ensures var t := End(s, DriveActs(0, 0, 0, 0, 1) + [Now(DoFail(0, 1, PermanentError, true, 0.0))]);
            t.jobs == map[0 := DeadJob()] && t.edges == {} && Bench(t, {0}, 0)
  {
    hide Step, End, ReleaseSlots;
    DriveIs(s, 0, 0, 0, 0, 1, 0);
    var u := End(s, DriveActs(0, 0, 0, 0, 1));
    FailIs(u, 0);
    ReleaseIs(u.queues, 0, 0, 1, 1);
    EndSteps(s, DriveActs(0, 0, 0, 0, 1), Now(DoFail(0, 1, PermanentError, true, 0.0)));
  }

  lemma AfterDeadBefore()
    ensures var t := End(Workshop(1), DeadBefore());
            t.jobs == map[0 := DeadJob(), 1 := Queued0(0, 1)] && t.edges == {} && Bench(t, {0}, 0)
  {
    hide Step, End, Queued0, DeadJob;
    var s0 := Workshop(1);
    SubmitsPlain(s0, 0, 0);
    EndOne(s0, Submits0(0, 0));
    var s1 := Step(s0, Submits0(0, 0));
    assert s1.jobs == map[0 := Queued0(0, 0)];
    RunsAndFails(s1);
    var mid := DriveActs(0, 0, 0, 0, 1) + [Now(DoFail(0, 1, PermanentError, true, 0.0))];
    var s2 := End(s1, mid);
    EndJoin(s0, [Submits0(0, 0)], mid);
    SubmitsPlain(s2, 1, 0);
    assert |s2.jobs| == 1;
    EndSteps(s0, [Submits0(0, 0)] + mid, Submits0(1, 0));
    assert [Submits0(0, 0)] + mid + [Submits0(1, 0)] == DeadBefore();
  }

  lemma ReplayLinks(s: Db)
    requires Linked(s, DeadJob()) && Bench(s, {0}, 0)
    ensures var u := Step(s, Now(DoReplay(0))); Linked(u, ReplayRow(DeadJob(), 0.0)) && Bench(u, {0}, 0)
  {
    NoneCancelled(s);
    hide Step, Linked, DeadJob, ReplayRow;
    ReplayIs(s, 0);
    Relinked(s, Step(s, Now(DoReplay(0))), DeadJob(), ReplayRow(DeadJob(), 0.0));
  }

  lemma DriveLinked(s: Db, loose: Job)
    requires Linked(s, loose) && loose.status.Queued? && loose.runAt <= 0.0 && loose.queue == 0 && loose.fence == 1
        && Bench(s, {0}, 0)
    ensures var t := End(s, DriveActs(0, 0, 1, 1, 2)); Linked(t, RunRow(loose)) && Bench(t, {0, 1}, 1)
  {
    Relinked(s, s, loose, loose) by { assert s.jobs[0 := loose] == s.jobs; }
    assert |{0}| == 1 && |{0, 1}| == 2;
    hide Step, End, Linked, RunRow, Row, DriveActs;
    DriveIs(s, 0, 0, 1, 0, 1, 0);
    Relinked(s, End(s, DriveActs(0, 0, 1, 1, 2)), loose, RunRow(loose));
  }

  lemma ReplaysAndRuns(s: Db)
    requires Linked(s, DeadJob()) && Bench(s, {0}, 0)
    ensures var t := End(s, [Now(DoReplay(0))] + DriveActs(0, 0, 1, 1, 2));
            Linked(t, RunRow(ReplayRow(DeadJob(), 0.0))) && Bench(t, {0, 1}, 1)
  {
    var back := ReplayRow(DeadJob(), 0.0);
    assert back.status.Queued? && back.runAt <= 0.0 && back.queue == 0 && back.fence == 1;
    hide Step, End, Linked, Bench, DeadJob, ReplayRow, RunRow, DriveActs;
    ReplayLinks(s);
    EndOne(s, Now(DoReplay(0)));
    DriveLinked(Step(s, Now(DoReplay(0))), back);
    EndJoin(s, [Now(DoReplay(0))], DriveActs(0, 0, 1, 1, 2));
  }

  lemma NoneCancelled(s: Db)
    requires Linked(s, DeadJob())
    ensures 0 in s.jobs && s.jobs[0] == DeadJob() && s.jobs[0].status.DeadLetter? && forall c :: c in s.jobs ==>
        !s.jobs[c].status.Cancelled?
  {
  }

  lemma Relinked(s: Db, t: Db, was: Job, loose: Job)
    requires Linked(s, was) && t.jobs == s.jobs[0 := loose] && t.edges == s.edges
    ensures Linked(t, loose) && 0 in t.jobs && t.jobs[0] == loose
  {
  }

  lemma ReplaysAndCompletes(s: Db)
    requires Linked(s, DeadJob()) && Bench(s, {0}, 0)
    ensures var t := End(s, [Now(DoReplay(0))] + DriveActs(0, 0, 1, 1, 2) + [Now(DoComplete(0, 2, 1))]);
            && t.jobs == map[0 := CompleteRow(RunRow(ReplayRow(DeadJob(), 0.0)), 0.0), 1 := Queued0(0, 1),
                2 := WaitingChild().(status := Queued, pendingDeps := 0)]
            && Bench(t, {0, 1}, 0)
  {
    var loose := RunRow(ReplayRow(DeadJob(), 0.0));
    assert loose.status.Running? && loose.fence == 2 && loose.queue == 0 && loose.shard == 0;
    hide Step, End, ReleaseSlots, CompleteRow, Linked, RunRow, ReplayRow, DeadJob, WaitingChild, Queued0;
    var mid := [Now(DoReplay(0))] + DriveActs(0, 0, 1, 1, 2);
    ReplaysAndRuns(s);
    var v := End(s, mid);
    LooseCompletes(v, loose, 1);
    ReleaseIs(v.queues, 0, 0, 1, 1);
    EndSteps(s, mid, Now(DoComplete(0, 2, 1)));
  }

  lemma AfterDeadAfter(s: Db)
    requires Linked(s, DeadJob()) && Bench(s, {0}, 0)
    ensures ChildRuns(End(s, DeadAfter()))
  {
    hide Step, End, CompleteRow, RunRow, ReplayRow, DeadJob, ChildRuns, Linked;
    var mid := [Now(DoReplay(0))] + DriveActs(0, 0, 1, 1, 2) + [Now(DoComplete(0, 2, 1))];
    ReplaysAndCompletes(s);
    ChildDriven(End(s, mid), CompleteRow(RunRow(ReplayRow(DeadJob(), 0.0)), 0.0), 2);
    assert |{0, 1}| == 2;
    EndJoin(s, mid, DriveActs(0, 2, 2, 2, 1));
  }

  lemma DeadAtOnce()
    ensures AtOnce(DeadBefore() + [Now(DoSubmit(Child))] + DeadAfter()) && DeadAfter() != []
        && DeadJob().status.DeadLetter?
  {
  }

  /** The same with a dead-lettered parent: it is passed over by the count, replayed, completes, and
      the job runs while the parent it was counted to wait for is still queued. */
  lemma DeadParentStartsEarly()
    ensures var acts := DeadBefore() + [Now(DoSubmit(Child))] + DeadAfter();
            var ss := Play(Workshop(1), acts);
            IsRun(ss, acts) && |ss| > 0 && Fresh(ss[0]) && StartsEarly(ss, acts)
  {
    WorkshopIsFresh(1);
    DeadAtOnce();
    hide Step, End, IsRun, StartsEarly, DeadBefore, DeadAfter, ChildRuns, Linked, DeadJob, AtOnce, Fresh;
    AfterDeadBefore();
    var s0, before, after := Workshop(1), DeadBefore(), DeadAfter();
    var s := End(s0, before);
    SubmitsChild(s, DeadJob());
    EndSteps(s0, before, Now(DoSubmit(Child)));
    AfterDeadAfter(Step(s, Now(DoSubmit(Child))));
    EndJoin(s0, before + [Now(DoSubmit(Child))], after);
    EarlyFrom(s0, before, after);
  }
}
