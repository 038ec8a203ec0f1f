/** Submission as the source runs it at read committed: the parents are counted without a lock, and
    the job and its edges are inserted by a later statement.  Elsewhere the two are one step; here
    is exactly when that makes no difference, and what happens when it does. */
module TwoStep {
  import opened Schema
  import opened Transactions
  import opened Protocol
  import opened Rows
  import opened Fencing
  import opened Frames
  import Deps = Dependencies
  import opened Scenarios

  /** The insert, with the parents that an earlier statement counted. */
  function InsertCounted(s: Db, r: Submission, live: set<JobId>, now: Time): Db {
    if !Acceptable(s, r) then s
    else
      var runAt := if r.runAt.Some? then r.runAt.value else now;
      var status := if |live| > 0 || runAt > now then Scheduled else Queued;
      s.(jobs := s.jobs[r.id := NewJob(s, r, status, runAt, live, now)],
         edges := s.edges + (set p | p in r.parents :: (p, r.id)),
         events := s.events + multiset{Event(JobSubmitted, r.id, r.project)})
  }

  function Live(s: Db, r: Submission): set<JobId> { LiveParents(s.jobs, r.parents, r.project) }

  // ---------------------------------------------------------------- when the two steps are one

  lemma InsertIsSubmitIff(s: Db, r: Submission, live: set<JobId>, now: Time)
    requires Acceptable(s, r)
    ensures InsertCounted(s, r, live, now) == Submit(s, r, now) <==> live == Live(s, r)
  {
    hide LiveParents, Acceptable;
    var a, b := InsertCounted(s, r, live, now), Submit(s, r, now);
    if a == b {
      assert a.jobs[r.id].waitsOn == live && b.jobs[r.id].waitsOn == Live(s, r);
    }
  }

  lemma FixedStep(s: Db, a: Act, p: JobId)
    requires RowsOk(s) && OnTime(s, a) && p in s.jobs
    ensures p in Step(s, a).jobs && Step(s, a).jobs[p].project == s.jobs[p].project
  {
    assert Dated(s);
    hide Step, OnTime, RowStep, RowsOk, Dated, NewRow;
    StepMovesRows(s, a);
    RowStepKeeps(s.jobs[p], Step(s, a).jobs[p]);
  }

  lemma {:induction false} ProjectStays(ss: seq<Db>, acts: seq<Act>, i: nat, k: nat, p: JobId)
    requires IsRun(ss, acts) && Fresh(ss[0]) && i <= k < |ss| && p in ss[i].jobs
    ensures p in ss[k].jobs && ss[k].jobs[p].project == ss[i].jobs[p].project
    decreases k
  {
    hide *;
    if i < k {
      RunStep(ss, acts, k - 1);
      RunKeepsRows(ss, acts, k - 1);
      ProjectStays(ss, acts, i, k - 1, p);
      FixedStep(ss[k - 1], acts[k - 1], p);
    }
  }

  /** A counted parent has finished by now. */
  predicate Overtaken(s: Db, live: set<JobId>) {
    exists p :: p in live && p in s.jobs && Terminal(s.jobs[p].status)
  }

  /** A parent that was passed over is live by now: a replayed dead letter, or a job created since. */
  predicate Revived(s: Db, r: Submission, live: set<JobId>) {
    exists p :: p in Live(s, r) && p !in live
  }

  /** Counting at one state of a run and inserting at a later one is the same as submitting at the
      later one, down to which parents the job is counted to wait on, if and only if no counted
      parent has finished and none that was passed over has come to life in between. */
  lemma TwoStepsAreOneIff(ss: seq<Db>, acts: seq<Act>, i: nat, k: nat, r: Submission, now: Time)
    requires IsRun(ss, acts) && Fresh(ss[0]) && i <= k < |ss| && Acceptable(ss[k], r)
    ensures var live := Live(ss[i], r);
            InsertCounted(ss[k], r, live, now) == Submit(ss[k], r, now) <==>
              !Overtaken(ss[k], live) && !Revived(ss[k], r, live)
  {
    var live := Live(ss[i], r);
    InsertIsSubmitIff(ss[k], r, live, now);
    hide IsRun, InsertCounted, Submit, Acceptable;
    forall p | p in live ensures p in ss[k].jobs && ss[k].jobs[p].project == r.project && p in r.parents {
      ProjectStays(ss, acts, i, k, p);
    }
    if live == Live(ss[k], r) {
      assert !Overtaken(ss[k], live) && !Revived(ss[k], r, live);
    }
    if !Overtaken(ss[k], live) && !Revived(ss[k], r, live) {
      forall p ensures p in live <==> p in Live(ss[k], r) { }
    }
  }

  // The parents a job waits on are not stored one by one: the table holds their number.

  /** The row as the table holds it, without what the model adds to it. */
  function StoredRow(j: Job): Job { j.(waitsOn := {}, serial := 0) }

  function Stored(s: Db): Db { s.(jobs := map j | j in s.jobs :: StoredRow(s.jobs[j])) }

  lemma StoredAlike(s: Db, r: Submission, live: set<JobId>, now: Time)
    requires Acceptable(s, r)
    ensures Stored(InsertCounted(s, r, live, now)) == Stored(Submit(s, r, now)) <==> |live| == |Live(s, r)|
  {
    hide LiveParents, Acceptable;
    var a, b := InsertCounted(s, r, live, now), Submit(s, r, now);
    assert Stored(a).jobs[r.id].pendingDeps == |live| && Stored(b).jobs[r.id].pendingDeps == |Live(s, r)|;
    if |live| == |Live(s, r)| {
      assert a.jobs[r.id] == b.jobs[r.id].(waitsOn := live);
      assert Stored(a).jobs == Stored(b).jobs;
    }
  }

  /** The counted parents that have finished since. */
  function OvertakenParents(s: Db, live: set<JobId>): set<JobId> {
    set p | p in live && p in s.jobs && Terminal(s.jobs[p].status)
  }

  /** The passed-over parents that are live by now. */
  function RevivedParents(s: Db, r: Submission, live: set<JobId>): set<JobId> { Live(s, r) - live }

  lemma SwapSizes(a: set<JobId>, b: set<JobId>)
    ensures |a| == |b| <==> |a - b| == |b - a|
  {
    assert a == (a - b) + (a * b) && b == (b - a) + (a * b);
    assert |a| == |a - b| + |a * b| && |b| == |b - a| + |a * b|;
  }

  /** In every stored column the two steps leave what the one step leaves if and only if the number of
      live parents is the same at the insert as at the count: as many passed-over parents have come
      to life as counted ones have finished. */
  lemma TwoStepsStoreAlikeIff(ss: seq<Db>, acts: seq<Act>, i: nat, k: nat, r: Submission, now: Time)
    requires IsRun(ss, acts) && Fresh(ss[0]) && i <= k < |ss| && Acceptable(ss[k], r)
    ensures var live := Live(ss[i], r);
            var alike := Stored(InsertCounted(ss[k], r, live, now)) == Stored(Submit(ss[k], r, now));
            && (alike <==> |live| == |Live(ss[k], r)|)
            && (alike <==> |OvertakenParents(ss[k], live)| == |RevivedParents(ss[k], r, live)|)
  {
    var live, later := Live(ss[i], r), Live(ss[k], r);
    hide InsertCounted, Submit, Acceptable, Stored;
    StoredAlike(ss[k], r, live, now);
    SwapSizes(live, later);
    forall p | p in live ensures p in ss[k].jobs && ss[k].jobs[p].project == r.project && p in r.parents {
      ProjectStays(ss, acts, i, k, p);
    }
    hide IsRun;
    assert OvertakenParents(ss[k], live) == live - later;
  }

  /** The count the insert writes is the number of counted parents still to complete if and only
      if none of them has completed in between. */
  lemma CountRightIff(ss: seq<Db>, acts: seq<Act>, i: nat, k: nat, r: Submission, now: Time)
    requires IsRun(ss, acts) && Fresh(ss[0]) && i <= k < |ss| && Acceptable(ss[k], r)
    ensures var t, live := InsertCounted(ss[k], r, Live(ss[i], r), now), Live(ss[i], r);
            r.id in t.jobs
            && (t.jobs[r.id].pendingDeps == |Deps.Outstanding(t, r.id)| <==>
                forall p :: p in live && p in ss[k].jobs ==> !ss[k].jobs[p].status.Completed?)
  {
    var t, live := InsertCounted(ss[k], r, Live(ss[i], r), now), Live(ss[i], r);
    hide IsRun, LiveParents;
    var left := Deps.Outstanding(t, r.id);
    assert left <= live;
    if left != live {
      assert live == left + (live - left) && live - left != {};
      assert |left| < |live|;
      forall p | p in live - left ensures p in ss[k].jobs && ss[k].jobs[p].status.Completed? {
        assert p != r.id by { NotItsOwnParent(ss, acts, i, k, r, p); }
      }
      var p :| p in live - left;
    } else {
      forall p | p in live && p in ss[k].jobs ensures !ss[k].jobs[p].status.Completed? {
        assert p in left && p != r.id;
      }
    }
  }

  lemma NotItsOwnParent(ss: seq<Db>, acts: seq<Act>, i: nat, k: nat, r: Submission, p: JobId)
    requires IsRun(ss, acts) && Fresh(ss[0]) && i <= k < |ss| && Acceptable(ss[k], r) && p in Live(ss[i], r)
    ensures p != r.id
  {
    ProjectStays(ss, acts, i, k, p);
  }

  // ---------------------------------------------------------------- waiting for good

  /** c still waits, and every parent it has is completed or cancelled. */
  ghost predicate Stranded(s: Db, c: JobId) {
    && c in s.jobs && s.jobs[c].status.Scheduled? && s.jobs[c].pendingDeps > 0
    && forall p :: (p, c) in s.edges ==> p in s.jobs && Deps.Spent(s.jobs[p].status)
  }

  predicate Lost(s: Db, c: JobId) { c in s.jobs && s.jobs[c].status.Cancelled? && s.jobs[c].fence == 0 }

  predicate RowFine(s: Db, c: JobId) { c in s.jobs && RowOk(s.jobs[c]) }

  lemma StrandedRow(s: Db, t: Db, c: JobId)
    requires Stranded(s, c) && RowsOk(s) && RowFine(t, c) && Deps.SameWait(s.jobs[c], t.jobs[c])
    requires forall p :: p in s.jobs && Deps.Spent(s.jobs[p].status) ==> p in t.jobs && Deps.Spent(t.jobs[p].status)
    requires forall p :: (p, c) in t.edges ==> (p, c) in s.edges
    ensures Stranded(t, c) || Lost(t, c)
  {
    assert RowOk(s.jobs[c]) && RowOk(t.jobs[c]);
  }

  lemma SpentStays(s: Db, t: Db, now: Time)
    requires RowsStep(s, t, now)
    ensures forall p :: p in s.jobs && Deps.Spent(s.jobs[p].status) ==> p in t.jobs && Deps.Spent(t.jobs[p].status)
  {
    hide RowStep, NewRow;
    forall p | p in s.jobs && Deps.Spent(s.jobs[p].status) ensures p in t.jobs && Deps.Spent(t.jobs[p].status) {
      Deps.SpentRowStays(s.jobs[p], t.jobs[p]);
    }
  }

  lemma FinishesLeave(s: Db, t: Db, done: set<JobId>, c: JobId)
    requires Stranded(s, c) && Deps.Finishes(s, t, done) && RowsOk(s) && RowFine(t, c)
    ensures Stranded(t, c) || Lost(t, c)
  {
    assert c !in done by { assert c in done ==> Deps.Completes(s.jobs[c], t.jobs[c]); }
    assert DoneParents(s.edges, done, c) == {} by {
      forall p | p in done ensures (p, c) !in s.edges { assert Deps.Completes(s.jobs[p], t.jobs[p]); }
    }
    assert Deps.CountsDown(s.jobs[c], t.jobs[c], 0);
    assert RowOk(t.jobs[c]);
    forall p | (p, c) in t.edges ensures p in t.jobs && Deps.Spent(t.jobs[p].status) {
      Deps.FinishesFixed(s, t, done, p);
    }
  }

  lemma CompletionLeaves(s: Db, op: Op, now: Time, c: JobId)
    requires Stranded(s, c) && RowsOk(s) && RowFine(Apply(s, op, now), c) && Completing(op)
    ensures Stranded(Apply(s, op, now), c) || Lost(Apply(s, op, now), c)
  {
    hide Stranded, Lost, Deps.Finishes, Complete, CompleteBatch, RowFine;
    match op
    case DoComplete(job, f, x) =>
      if HeldAs(s, job, f, Running) {
        assert RowOk(s.jobs[job]);
        hide RowOk, RowsOk;
        Deps.CompleteFinishes(s, job, f, x, now);
        FinishesLeave(s, Complete(s, job, f, x, now), {job}, c);
      } else {
        Deps.CompleteNothing(s, job, f, x, now);
      }
    case DoCompleteBatch(b) =>
      hide RowsOk, Matched, RowOk;
      if Matched(s, b) != [] {
        Deps.BatchFinishes(s, b, now);
        FinishesLeave(s, CompleteBatch(s, b, now), JobsOf(Matched(s, b)), c);
      } else {
        Deps.BatchNothing(s, b, now);
      }
  }

  lemma RowInserted(s: Db, t: Db, c: JobId, id: JobId)
    requires Stranded(s, c) && id !in s.jobs && id in t.jobs && t.jobs == s.jobs[id := t.jobs[id]]
    requires forall e :: e in t.edges && e !in s.edges ==> e.1 == id
    ensures Stranded(t, c)
  {
    forall p | (p, c) in t.edges ensures p in t.jobs && Deps.Spent(t.jobs[p].status) {
      assert (p, c) in s.edges;
    }
  }

  lemma InsertLeaves(s: Db, r: Submission, tick: Time, now: Time, c: JobId)
    requires Stranded(s, c)
    ensures Stranded(Submit(s, r, now), c) && Stranded(Fire(s, r, tick, now), c)
  {
    hide LiveParents, NewJob, Stranded;
    if Acceptable(s, r) {
      RowInserted(s, Submit(s, r, now), c, r.id);
      RowInserted(s, Fire(s, r, tick, now), c, r.id);
    }
  }

  lemma OthersWait(s: Db, op: Op, now: Time, c: JobId)
    requires c in s.jobs && !Completing(op) && !op.DoSubmit? && !op.DoFire?
    ensures var t := Apply(s, op, now); c in t.jobs && Deps.SameWait(s.jobs[c], t.jobs[c]) && t.edges == s.edges
  {
    hide Deps.SameWait, PlainStep, NewRow;
    if op.DoStart? {
      hide Start;
      Deps.StartWaits(s, op.job, op.fence, op.worker, op.exec, now);
    } else {
      assert Edges !in Writes(op);
      hide Apply, Writes;
      ApplyWrites(s, op, now);
      PlainOps(s, op, now);
      Deps.PlainIsSameWait(s.jobs[c], Apply(s, op, now).jobs[c]);
    }
  }

  lemma OthersLeave(s: Db, op: Op, now: Time, c: JobId)
    requires Stranded(s, c) && RowsOk(s) && RowFine(Apply(s, op, now), c) && s.clock <= now
    requires !Completing(op) && !op.DoSubmit? && !op.DoFire?
    ensures Stranded(Apply(s, op, now), c) || Lost(Apply(s, op, now), c)
  {
    assert Dated(s) && c in s.jobs;
    hide Apply, RowsStep, RowsOk, Dated, Stranded, Lost, Deps.SameWait, RowFine, QuietRows, Completing;
    OthersWait(s, op, now, c);
    ApplyMovesRows(s, op, now);
    SpentStays(s, Apply(s, op, now), now);
    StrandedRow(s, Apply(s, op, now), c);
  }

  lemma ApplyLeaves(s: Db, op: Op, now: Time, c: JobId)
    requires Stranded(s, c) && RowsOk(s) && RowFine(Apply(s, op, now), c) && s.clock <= now
    ensures Stranded(Apply(s, op, now), c) || Lost(Apply(s, op, now), c)
  {
    if Completing(op) {
      hide *;
      CompletionLeaves(s, op, now, c);
    } else if op.DoSubmit? || op.DoFire? {
      hide Submit, Fire, Stranded, Lost, RowsOk, RowFine;
      InsertLeaves(s, op.r, if op.DoFire? then op.tick else now, now, c);
    } else {
      hide *;
      OthersLeave(s, op, now, c);
    }
  }

  lemma ClockLeaves(s: Db, now: Time, c: JobId)
    ensures Stranded(s, c) ==> Stranded(s.(clock := now), c)
    ensures Lost(s, c) ==> Lost(s.(clock := now), c)
  {
  }

  lemma StepLeaves(s: Db, a: Act, c: JobId)
    requires RowsOk(s) && OnTime(s, a) && (Stranded(s, c) || Lost(s, c))
    ensures RowsOk(Step(s, a)) && (Stranded(Step(s, a), c) || Lost(Step(s, a), c))
  {
    StepKeepsRows(s, a);
    var t := Apply(s, a.op, a.now);
    assert t.jobs == Step(s, a).jobs by { hide Apply; }
    assert s.clock <= a.now && c in s.jobs;
    if Stranded(s, c) {
      assert RowFine(t, c) by {
        hide Apply, Stranded, RowOk;
        Deps.WaitsOnStays(s, a, c);
      }
      hide Apply, Stranded, Lost, RowsOk, RowFine, OnTime;
      ApplyLeaves(s, a.op, a.now, c);
      ClockLeaves(t, a.now, c);
    } else {
      hide Apply, RowsOk, OnTime, Stranded;
      Deps.CancelledStep(s, a, c);
    }
  }

  /** A job that waits while all its parents are done is never queued, claimed or started in any
      continuation: it waits for good, or a cascade from further up cancels it. */
  lemma {:induction false} StrandedForGood(ss: seq<Db>, acts: seq<Act>, i: nat, c: JobId)
    requires IsRun(ss, acts) && RowsOk(ss[0]) && Stranded(ss[0], c) && i < |ss|
    ensures RowsOk(ss[i]) && (Stranded(ss[i], c) || Lost(ss[i], c))
  {
    hide *;
    if i > 0 {
      RunStep(ss, acts, i - 1);
      StrandedForGood(ss, acts, i - 1, c);
      StepLeaves(ss[i - 1], acts[i - 1], c);
    }
  }

  lemma InsertedRows(s: Db, r: Submission, live: set<JobId>, now: Time)
    requires RowsOk(s) && s.clock <= now && Acceptable(s, r)
    ensures RowsOk(InsertCounted(s, r, live, now).(clock := now))
  {
    var t := InsertCounted(s, r, live, now);
    assert NewRow(t.jobs[r.id], now);
    NewRowOk(t.jobs[r.id], now);
    hide RowOk, NewRow;
  }

  // ---------------------------------------------------------------- the two ways it goes wrong

  const Late: Submission := Order(1, 0, [0])

  function OneRunning(): seq<Act> { [Submits0(0, 0)] + DriveActs(0, 0, 0, 0, 1) }

  lemma AfterOneRunning()
    ensures var t := End(Workshop(1), OneRunning());
            t.jobs == map[0 := RunRow(Queued0(0, 0))] && t.edges == {} && Bench(t, {0}, 1)
  {
    hide Step, End, RunRow;
    var s0 := Workshop(1);
    SubmitsPlain(s0, 0, 0);
    EndOne(s0, Submits0(0, 0));
    var s1 := Step(s0, Submits0(0, 0));
    assert s1.jobs == map[0 := Queued0(0, 0)];
    DriveIs(s1, 0, 0, 0, 0, 1, 0);
    EndJoin(s0, [Submits0(0, 0)], DriveActs(0, 0, 0, 0, 1));
  }

  lemma LateIsFine(s: Db, parent: Job)
    requires s.jobs == map[0 := parent] && parent.project == 0 && 0 in s.queues && s.queues[0].project == 0
    ensures Acceptable(s, Late) && Live(s, Late) == if Terminal(parent.status) then {} else {0}
  {
    assert Live(s, Late) == if Terminal(parent.status) then {} else {0};
  }

  /** The state after the parent ran, and then completed or was dead-lettered. */
  function Finished(op: Op): Db { Step(End(Workshop(1), OneRunning()), Now(op)) }

  const Completing0: Op := DoComplete(0, 1, 0)
  const Failing0: Op := DoFail(0, 1, PermanentError, true, 0.0)

  lemma AfterFinished()
    ensures var t := Finished(Completing0);
            t.jobs == map[0 := CompleteRow(RunRow(Queued0(0, 0)), 0.0)] && t.edges == {} && Bench(t, {0}, 0)
    ensures var u := Finished(Failing0);
            u.jobs == map[0 := DeadJob()] && u.edges == {} && Bench(u, {0}, 0)
  {
    AfterOneRunning();
    var s := End(Workshop(1), OneRunning());
    hide Step, End, ReleaseSlots;
    CompleteIs(s, 0, 0);
    FailIs(s, 0);
    ReleaseIs(s.queues, 0, 0, 1, 1);
  }

  lemma FinishedAtOnce(op: Op)
    requires op == Completing0 || op == Failing0
    ensures AtOnce(OneRunning() + [Now(op)])
  {
  }

  lemma FinishedRun(op: Op)
    requires op == Completing0 || op == Failing0
    ensures var acts := OneRunning() + [Now(op)];
            var ss := Play(Workshop(1), acts);
            && IsRun(ss, acts) && |ss| == |acts| + 1 && Fresh(ss[0])
            && ss[|acts| - 1] == End(Workshop(1), OneRunning()) && ss[|acts|] == Finished(op)
  {
    var acts := OneRunning() + [Now(op)];
    FinishedAtOnce(op);
    WorkshopIsFresh(1);
    hide Step, End, IsRun, AtOnce, Fresh, OneRunning, Play;
    PlayIsRun(Workshop(1), acts);
    PlayAt(Workshop(1), acts, |acts| - 1);
    assert acts[..|acts| - 1] == OneRunning();
    EndSteps(Workshop(1), OneRunning(), Now(op));
  }

  /** A run from an empty database: the parent is counted while it runs, completes before the
      insert, and the child it leaves behind waits for good on nothing. */
  lemma OvertakenChildIsStranded()
    ensures var acts := OneRunning() + [Now(Completing0)];
            var ss := Play(Workshop(1), acts);
            && IsRun(ss, acts) && |ss| == |acts| + 1 && Fresh(ss[0])
            && Live(ss[|acts| - 1], Late) == {0} && Acceptable(ss[|acts|], Late)
            && Stranded(InsertCounted(ss[|acts|], Late, {0}, 0.0), 1)
  {
    hide Step, End, IsRun, Fresh, Finished, OneRunning;
    FinishedRun(Completing0);
    AfterOneRunning();
    AfterFinished();
    LateIsFine(End(Workshop(1), OneRunning()), RunRow(Queued0(0, 0)));
    LateIsFine(Finished(Completing0), CompleteRow(RunRow(Queued0(0, 0)), 0.0));
    LateIsStranded(Finished(Completing0), CompleteRow(RunRow(Queued0(0, 0)), 0.0));
    hide Acceptable, Live, Stranded, InsertCounted;
  }

  lemma LateRows()
    ensures var s := Finished(Completing0); RowsOk(s) && s.clock == 0.0 && Acceptable(s, Late)
    ensures Stranded(InsertCounted(Finished(Completing0), Late, {0}, 0.0), 1)
  {
    hide Step, End, IsRun, Fresh, Finished, OneRunning, RowsOk;
    var acts := OneRunning() + [Now(Completing0)];
    FinishedRun(Completing0);
    RunKeepsRows(Play(Workshop(1), acts), acts, |acts|);
    AfterFinished();
    LateIsFine(Finished(Completing0), CompleteRow(RunRow(Queued0(0, 0)), 0.0));
    LateIsStranded(Finished(Completing0), CompleteRow(RunRow(Queued0(0, 0)), 0.0));
  }

  /** Whatever happens after that insert, the child is never claimed. */
  lemma OvertakenChildNeverRuns(ss: seq<Db>, acts: seq<Act>, k: nat)
    requires IsRun(ss, acts) && k < |ss| && ss[0] == InsertCounted(Finished(Completing0), Late, {0}, 0.0)
    ensures 1 in ss[k].jobs && ss[k].jobs[1].fence == 0
        && (ss[k].jobs[1].status.Scheduled? || ss[k].jobs[1].status.Cancelled?)
  {
    var s := Finished(Completing0);
    LateRows();
    hide Finished, IsRun, Acceptable;
    InsertedRows(s, Late, {0}, 0.0);
    assert InsertCounted(s, Late, {0}, 0.0).(clock := 0.0) == InsertCounted(s, Late, {0}, 0.0);
    hide InsertCounted;
    StrandedForGood(ss, acts, k, 1);
    if Stranded(ss[k], 1) { assert RowOk(ss[k].jobs[1]); }
  }

  lemma LateRow(s: Db, parent: Job)
    requires s.jobs == map[0 := parent] && s.edges == {} && Acceptable(s, Late)
    ensures var t := InsertCounted(s, Late, {0}, 0.0);
            && t.jobs == s.jobs[1 := NewJob(s, Late, Scheduled, 0.0, {0}, 0.0)] && t.edges == {(0, 1)}
  {
    hide Acceptable, NewJob;
    assert (set p | p in Late.parents :: (p, Late.id)) == {(0, 1)};
    assert |{0}| == 1;
  }

  lemma LateIsStranded(s: Db, parent: Job)
    requires s.jobs == map[0 := parent] && s.edges == {} && Acceptable(s, Late)
    ensures var t := InsertCounted(s, Late, {0}, 0.0);
            && t.jobs.Keys == {0, 1} && t.jobs[0] == parent && t.jobs[1].status.Scheduled? && t.jobs[1].pendingDeps == 1
            && t.jobs[1].waitsOn == {0}
            && (Deps.Spent(parent.status) ==> Stranded(t, 1))
  {
    hide InsertCounted, Acceptable;
    LateRow(s, parent);
    assert |{0}| == 1;
  }

  /** And one in which the parent is dead-lettered before the insert: the child is not cancelled. */
  lemma OvertakenChildIsNotCancelled()
    ensures var acts := OneRunning() + [Now(Failing0)];
            var ss := Play(Workshop(1), acts);
            && IsRun(ss, acts) && |ss| == |acts| + 1 && Fresh(ss[0])
            && Live(ss[|acts| - 1], Late) == {0} && Acceptable(ss[|acts|], Late)
            && var t := InsertCounted(ss[|acts|], Late, {0}, 0.0);
               0 in t.jobs && t.jobs[0].status.DeadLetter? && 1 in t.jobs && t.jobs[1].status.Scheduled?
                 && t.jobs[1].waitsOn == {0}
  {
    hide Step, End, IsRun, Fresh, Finished, OneRunning;
    FinishedRun(Failing0);
    AfterOneRunning();
    AfterFinished();
    LateIsFine(End(Workshop(1), OneRunning()), RunRow(Queued0(0, 0)));
    LateIsFine(Finished(Failing0), DeadJob());
    LateIsStranded(Finished(Failing0), DeadJob());
    hide Acceptable, Live, Stranded, InsertCounted;
  }
}
