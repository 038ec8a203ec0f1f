/** The dependency graph over whole runs: the cached count, the order of starts, the cascade. */
module Dependencies {
  import opened Schema
  import opened Transactions
  import opened Protocol
  import opened Rows
  import opened Fencing
  import opened Frames
  import Graph

  // ---------------------------------------------------------------- the invariant

  /** The parents counted at submission that have not completed yet. */
  function Outstanding(s: Db, c: JobId): set<JobId>
    requires c in s.jobs
  {
    set p | p in s.jobs[c].waitsOn && (p in s.jobs ==> !s.jobs[p].status.Completed?)
  }

  predicate CountRight(s: Db, c: JobId)
    requires c in s.jobs
  {
    var r := s.jobs[c];
    if r.status.Cancelled? then Outstanding(s, c) != {} ==> r.fence == 0
    else r.pendingDeps == |Outstanding(s, c)|
  }

  predicate CountsRight(s: Db) {
    forall c :: c in s.jobs ==> CountRight(s, c)
  }

  /** Every counted parent has its edge, and every edge enters a job inserted after its source. */
  predicate EdgesFit(s: Db) {
    && (forall c, p :: c in s.jobs && p in s.jobs[c].waitsOn ==> p in s.jobs && (p, c) in s.edges)
    && (forall e :: e in s.edges ==> e.0 in s.jobs && e.1 in s.jobs && s.jobs[e.0].serial < s.jobs[e.1].serial)
    && (forall j :: j in s.jobs ==> s.jobs[j].serial < |s.jobs|)
  }

  predicate Spent(st: Status) { st.Completed? || st.Cancelled? }

  /** An edge into a waiting job whose parent was not counted can never fire: that parent is
      completed or cancelled.  A job with no counted parent does not wait, so its edges are free. */
  predicate NoLooseEdge(s: Db) {
    forall e ::
      e in s.edges && e.0 in s.jobs && e.1 in s.jobs && s.jobs[e.1].waitsOn != {} && e.0 !in s.jobs[e.1].waitsOn ==>
        Spent(s.jobs[e.0].status)
  }

  predicate DepsOk(s: Db) {
    EdgesFit(s) && NoLooseEdge(s) && CountsRight(s)
  }

  // ---------------------------------------------------------------- steps that complete nothing

  /** Nothing the count speaks about has changed, except that some jobs may have been cancelled. */
  predicate SameWait(o: Job, n: Job) {
    && Fixed(o, n) && (o.status.Completed? <==> n.status.Completed?) && (o.status.Cancelled? ==> o == n)
    && (n.status.Cancelled? && !o.status.Cancelled? ==> n.fence == o.fence)
    && (!n.status.Cancelled? ==> n.pendingDeps == o.pendingDeps)
  }

  predicate AllSameWait(s: Db, t: Db) {
    t.jobs.Keys == s.jobs.Keys && t.edges == s.edges && forall j :: j in s.jobs ==> SameWait(s.jobs[j], t.jobs[j])
  }

  lemma SameWaitKeeps(s: Db, t: Db)
    requires RowsOk(s) && DepsOk(s) && AllSameWait(s, t)
    ensures DepsOk(t)
  {
    assert forall j :: j in s.jobs ==> SameWait(s.jobs[j], t.jobs[j]);
    FixedEdges(s, t);
    hide EdgesFit, NoLooseEdge;
    forall c | c in t.jobs ensures CountRight(t, c) {
      assert CountRight(s, c) && RowOk(s.jobs[c]);
      assert Outstanding(t, c) == Outstanding(s, c);
    }
  }

  // ---------------------------------------------------------------- completions

  /** k counted parents of this job have finished. */
  predicate CountsDown(o: Job, n: Job, k: nat) {
    && Fixed(o, n) && n.fence == o.fence
    && (o.status.Completed? <==> n.status.Completed?) && (o.status.Cancelled? <==> n.status.Cancelled?)
    && n.pendingDeps == (if Counting(o) then Max(o.pendingDeps - k, 0) else o.pendingDeps)
  }

  predicate Completes(o: Job, n: Job) {
    o.status.Running? && n.status.Completed? && n.pendingDeps == 0 && Fixed(o, n)
  }

  /** The jobs in `done` were running and have completed; everyone else counts down by the
      number of edges that lead to it from them. */
  predicate Finishes(s: Db, t: Db, done: set<JobId>) {
    && t.jobs.Keys == s.jobs.Keys && t.edges == s.edges
    && (forall j :: j in done ==> j in s.jobs && Completes(s.jobs[j], t.jobs[j]))
    && (forall j :: j in s.jobs && j !in done ==> CountsDown(s.jobs[j], t.jobs[j], |DoneParents(s.edges, done, j)|))
  }

  /** An edge into a job from a running parent is one that was counted. */
  lemma FiringEdgesCounted(s: Db, done: set<JobId>, c: JobId)
    requires EdgesFit(s) && NoLooseEdge(s) && c in s.jobs && s.jobs[c].waitsOn != {}
    requires forall j :: j in done ==> j in s.jobs && s.jobs[j].status.Running?
    ensures DoneParents(s.edges, done, c) == Outstanding(s, c) * done
  {
    forall p | p in DoneParents(s.edges, done, c) ensures p in Outstanding(s, c) {
      assert (p, c) in s.edges;
    }
  }

  lemma OutstandingAfter(s: Db, t: Db, done: set<JobId>, c: JobId)
    requires EdgesFit(s) && Finishes(s, t, done) && c in s.jobs
    ensures Outstanding(t, c) == Outstanding(s, c) - done
  {
    var w := s.jobs[c].waitsOn;
    assert t.jobs[c].waitsOn == w;
    forall p | p in w ensures p in s.jobs && (t.jobs[p].status.Completed? <==> s.jobs[p].status.Completed? || p in done)
    {
    }
  }

  lemma CountAfter(s: Db, t: Db, done: set<JobId>, c: JobId)
    requires EdgesFit(s) && NoLooseEdge(s) && Finishes(s, t, done) && c in s.jobs && CountRight(s, c)
        && RowOk(s.jobs[c])
    ensures CountRight(t, c)
  {
    var a, k := Outstanding(s, c), DoneParents(s.edges, done, c);
    OutstandingAfter(s, t, done, c);
    if s.jobs[c].waitsOn == {} {
      assert a == {};
    } else {
      FiringEdgesCounted(s, done, c);
      assert |a - done| == |a| - |a * done| by {
        assert a == (a - done) + (a * done);
      }
      hide EdgesFit, NoLooseEdge, Outstanding, DoneParents;
    }
  }

  lemma FinishesKeeps(s: Db, t: Db, done: set<JobId>)
    requires RowsOk(s) && DepsOk(s) && Finishes(s, t, done)
    ensures DepsOk(t)
  {
    FinishesEdges(s, t, done);
    hide EdgesFit, NoLooseEdge, Finishes, CountRight, RowOk;
    forall c | c in t.jobs ensures CountRight(t, c) {
      CountAfter(s, t, done, c) by {
        assert c in s.jobs by { FinishesKeys(s, t, done); }
      }
    }
  }

  lemma FinishesKeys(s: Db, t: Db, done: set<JobId>)
    requires Finishes(s, t, done)
    ensures t.jobs.Keys == s.jobs.Keys
  {
  }

  lemma FinishesFixed(s: Db, t: Db, done: set<JobId>, j: JobId)
    requires Finishes(s, t, done) && j in s.jobs
    ensures Fixed(s.jobs[j], t.jobs[j]) && (Spent(s.jobs[j].status) ==> Spent(t.jobs[j].status))
  {
    hide DoneParents;
    assert j in done ==> Completes(s.jobs[j], t.jobs[j]);
  }

  lemma FinishesEdges(s: Db, t: Db, done: set<JobId>)
    requires EdgesFit(s) && NoLooseEdge(s) && Finishes(s, t, done)
    ensures EdgesFit(t) && NoLooseEdge(t)
  {
    forall j | j in s.jobs ensures Fixed(s.jobs[j], t.jobs[j]) && (Spent(s.jobs[j].status) ==> Spent(t.jobs[j].status))
    {
      FinishesFixed(s, t, done, j);
    }
    assert t.jobs.Keys == s.jobs.Keys && t.edges == s.edges;
    hide Finishes, Spent;
    FixedEdges(s, t);
  }

  /** The rows keep their birth numbers and counted parents, and the edges stay. */
  lemma FixedKeepsEdges(s: Db, t: Db)
    requires EdgesFit(s) && t.edges == s.edges && t.jobs.Keys == s.jobs.Keys
    requires forall j :: j in s.jobs ==> Fixed(s.jobs[j], t.jobs[j])
    ensures EdgesFit(t)
  {
    assert |t.jobs| == |t.jobs.Keys| && |s.jobs| == |s.jobs.Keys|;
  }

  lemma FixedEdges(s: Db, t: Db)
    requires EdgesFit(s) && NoLooseEdge(s) && t.jobs.Keys == s.jobs.Keys && t.edges == s.edges
    requires forall j :: j in s.jobs ==>
        Fixed(s.jobs[j], t.jobs[j]) && (Spent(s.jobs[j].status) ==> Spent(t.jobs[j].status))
    ensures EdgesFit(t) && NoLooseEdge(t)
  {
    FixedKeepsEdges(s, t);
    hide Spent, EdgesFit;
  }

  lemma CompleteFinishes(s: Db, job: JobId, f: int, x: ExecId, now: Time)
    requires HeldAs(s, job, f, Running) && RowOk(s.jobs[job])
    ensures Finishes(s, Complete(s, job, f, x, now), {job})
  {
    hide CloseById, Woken, EventsOf, ReleaseSlots, Count, RowOk;
    var t := Complete(s, job, f, x, now);
    assert s.jobs[job].pendingDeps == 0 by { Unwaiting(s.jobs[job]); }
    forall j | j in s.jobs && j != job
      ensures var k := |DoneParents(s.edges, {job}, j)|; k == if (job, j) in s.edges then 1 else 0
    {
      assert DoneParents(s.edges, {job}, j) == if (job, j) in s.edges then {job} else {};
    }
  }

  lemma Unwaiting(r: Job)
    requires RowOk(r) && !r.status.Scheduled?
    ensures r.pendingDeps == 0
  {
  }

  lemma AfterDoneCounts(s: Db, done: set<JobId>, now: Time, j: JobId)
    requires j in s.jobs && j !in done
    ensures CountsDown(s.jobs[j], AfterDone(s, done, now)[j], |DoneParents(s.edges, done, j)|)
  {
    RepeatIs(s.jobs[j], |DoneParents(s.edges, done, j)|, now);
  }

  lemma AfterDoneCompletes(s: Db, done: set<JobId>, now: Time, j: JobId)
    requires j in s.jobs && j in done && s.jobs[j].status.Running? && s.jobs[j].pendingDeps == 0
    ensures Completes(s.jobs[j], AfterDone(s, done, now)[j])
  {
  }

  lemma MatchedRuns(s: Db, batch: seq<Done>, j: JobId)
    requires RowsOk(s) && j in JobsOf(Matched(s, batch))
    ensures j in s.jobs && s.jobs[j].status.Running? && s.jobs[j].pendingDeps == 0
  {
    var m := Matched(s, batch);
    var d :| d in m && d.job == j;
    var i :| 0 <= i < |m| && m[i] == d;
    assert HeldAs(s, m[i].job, m[i].fence, Running) && RowOk(s.jobs[j]);
  }

  lemma BatchFinishes(s: Db, batch: seq<Done>, now: Time)
    requires RowsOk(s) && Matched(s, batch) != []
    ensures Finishes(s, CompleteBatch(s, batch, now), JobsOf(Matched(s, batch)))
  {
    var m, t := Matched(s, batch), CompleteBatch(s, batch, now);
    var done := JobsOf(m);
    assert t.jobs == AfterDone(s, done, now) && t.edges == s.edges by {
      hide AfterDone, GroupedRelease, GroupedStats, EventsOf, CloseThese;
    }
    hide CompleteBatch;
    assert t.jobs.Keys == s.jobs.Keys;
    hide Matched, JobsOf, RowsOk, AfterDone, CountsDown, Completes, DoneParents;
    forall j | j in done ensures j in s.jobs && Completes(s.jobs[j], t.jobs[j]) {
      MatchedRuns(s, batch, j);
      AfterDoneCompletes(s, done, now, j);
    }
    forall j | j in s.jobs && j !in done ensures CountsDown(s.jobs[j], t.jobs[j], |DoneParents(s.edges, done, j)|) {
      AfterDoneCounts(s, done, now, j);
    }
  }

  // ---------------------------------------------------------------- submissions

  /** Every named parent either is counted or can never complete any more: none is dead-lettered,
      and a live one belongs to the job's own project. */
  predicate SoundParents(s: Db, r: Submission) {
    forall p :: p in r.parents && p in s.jobs ==>
      !s.jobs[p].status.DeadLetter? && (s.jobs[p].project == r.project || Terminal(s.jobs[p].status))
  }

  lemma SubmitFits(s: Db, r: Submission, now: Time)
    requires Acceptable(s, r) && EdgesFit(s)
    ensures EdgesFit(Submit(s, r, now))
  {
    var t := Submit(s, r, now);
    assert |t.jobs| == |s.jobs| + 1 by {
      assert t.jobs.Keys == s.jobs.Keys + {r.id};
    }
    forall e | e in t.edges ensures e.0 in t.jobs && e.1 in t.jobs && t.jobs[e.0].serial < t.jobs[e.1].serial {
      if e !in s.edges {
        assert e.0 in r.parents && e.1 == r.id;
      }
    }
  }

  lemma SubmitCounts(s: Db, r: Submission, now: Time)
    requires Acceptable(s, r) && EdgesFit(s) && CountsRight(s)
    ensures CountsRight(Submit(s, r, now))
  {
    var t := Submit(s, r, now);
    forall c | c in t.jobs ensures CountRight(t, c) {
      if c == r.id {
        assert Outstanding(t, c) == LiveParents(s.jobs, r.parents, r.project);
      } else {
        assert CountRight(s, c);
        assert Outstanding(t, c) == Outstanding(s, c);
      }
    }
  }

  /** The submission waits on nothing, or all its parents are counted or out of the game. */
  predicate SoundSubmission(s: Db, r: Submission) {
    LiveParents(s.jobs, r.parents, r.project) == {} || SoundParents(s, r)
  }

  lemma SoundSubmitKeeps(s: Db, r: Submission, now: Time)
    requires Acceptable(s, r) && DepsOk(s) && SoundSubmission(s, r)
    ensures DepsOk(Submit(s, r, now))
  {
    var t := Submit(s, r, now);
    SubmitFits(s, r, now);
    SubmitCounts(s, r, now);
    hide EdgesFit, CountsRight;
    assert t.jobs == s.jobs[r.id := t.jobs[r.id]] && t.jobs[r.id].waitsOn == LiveParents(s.jobs, r.parents, r.project);
    forall e | e in t.edges && e.0 in t.jobs && e.1 in t.jobs && t.jobs[e.1].waitsOn != {}
        && e.0 !in t.jobs[e.1].waitsOn
      ensures Spent(t.jobs[e.0].status)
    {
      if e.1 == r.id {
        LooseOnlyAtNew(s, r, now, e);
      }
    }
  }

  lemma LooseOnlyAtNew(s: Db, r: Submission, now: Time, e: (JobId, JobId))
    requires Acceptable(s, r) && EdgesFit(s) && e in Submit(s, r, now).edges && e.1 == r.id
    ensures e.0 in r.parents && e.0 in s.jobs
  {
  }

  // ---------------------------------------------------------------- every transaction

  lemma PlainIsSameWait(o: Job, n: Job)
    requires PlainStep(o, n) || StartStep(o, n)
    ensures SameWait(o, n)
  {
  }

  lemma PlainKeepsDeps(s: Db, t: Db, now: Time)
    requires RowsOk(s) && DepsOk(s) && PlainRows(s, t, now) && t.jobs.Keys == s.jobs.Keys && t.edges == s.edges
    ensures DepsOk(t)
  {
    hide PlainStep, SameWait, RowsOk, DepsOk;
    forall j | j in s.jobs ensures SameWait(s.jobs[j], t.jobs[j]) {
      PlainIsSameWait(s.jobs[j], t.jobs[j]);
    }
    SameWaitKeeps(s, t);
  }

  lemma StartKeepsDeps(s: Db, job: JobId, f: int, w: WorkerId, x: ExecId, now: Time)
    requires RowsOk(s) && DepsOk(s)
    ensures DepsOk(Start(s, job, f, w, x, now))
  {
    var t := Start(s, job, f, w, x, now);
    forall j | j in s.jobs ensures SameWait(s.jobs[j], t.jobs[j]) {
    }
    hide RowsOk, DepsOk, SameWait;
    SameWaitKeeps(s, t);
  }

  lemma LoneJobCounts(s: Db, t: Db, id: JobId, c: JobId)
    requires EdgesFit(s) && CountsRight(s) && id !in s.jobs && id in t.jobs && t.jobs == s.jobs[id := t.jobs[id]]
    requires t.jobs[id].waitsOn == {} && t.jobs[id].pendingDeps == 0 && c in t.jobs
    ensures CountRight(t, c)
  {
    if c == id {
      assert Outstanding(t, c) == {};
    } else {
      assert CountRight(s, c);
      assert Outstanding(t, c) == Outstanding(s, c);
    }
  }

  lemma LoneEdgesFit(s: Db, t: Db, id: JobId)
    requires EdgesFit(s) && id !in s.jobs && id in t.jobs && t.jobs == s.jobs[id := t.jobs[id]] && t.edges == s.edges
    requires t.jobs[id].waitsOn == {} && t.jobs[id].serial == |s.jobs|
    ensures EdgesFit(t)
  {
    assert |t.jobs| == |s.jobs| + 1 by {
      assert t.jobs.Keys == s.jobs.Keys + {id};
    }
  }

  lemma LoneJobFits(s: Db, t: Db, id: JobId)
    requires EdgesFit(s) && NoLooseEdge(s) && id !in s.jobs && id in t.jobs && t.jobs == s.jobs[id := t.jobs[id]]
        && t.edges == s.edges
    requires t.jobs[id].waitsOn == {} && t.jobs[id].serial == |s.jobs|
    ensures EdgesFit(t) && NoLooseEdge(t)
  {
    LoneEdgesFit(s, t, id);
    assert forall e :: e in s.edges ==> e.0 in s.jobs && e.1 in s.jobs;
    hide EdgesFit;
  }

  lemma LoneJobKeepsDeps(s: Db, t: Db, id: JobId)
    requires DepsOk(s) && id !in s.jobs && id in t.jobs && t.jobs == s.jobs[id := t.jobs[id]] && t.edges == s.edges
    requires t.jobs[id].waitsOn == {} && t.jobs[id].pendingDeps == 0 && t.jobs[id].serial == |s.jobs|
    ensures DepsOk(t)
  {
    hide EdgesFit, NoLooseEdge, CountRight;
    LoneJobFits(s, t, id);
    forall c | c in t.jobs ensures CountRight(t, c) {
      LoneJobCounts(s, t, id, c);
    }
  }

  lemma FireKeepsDeps(s: Db, r: Submission, tick: Time, now: Time)
    requires DepsOk(s)
    ensures DepsOk(Fire(s, r, tick, now))
  {
    if Acceptable(s, r) {
      hide DepsOk;
      LoneJobKeepsDeps(s, Fire(s, r, tick, now), r.id);
    }
  }

  lemma CompletionKeepsDeps(s: Db, op: Op, now: Time)
    requires RowsOk(s) && DepsOk(s) && Completing(op)
    ensures DepsOk(Apply(s, op, now))
  {
    hide DepsOk, Finishes, Complete, CompleteBatch;
    match op
    case DoComplete(job, f, x) =>
      if HeldAs(s, job, f, Running) {
        assert RowOk(s.jobs[job]);
        hide RowOk, RowsOk;
        CompleteFinishes(s, job, f, x, now);
        FinishesKeeps(s, Complete(s, job, f, x, now), {job});
      } else {
        CompleteNothing(s, job, f, x, now);
      }
    case DoCompleteBatch(b) =>
      hide RowsOk, Matched;
      if Matched(s, b) != [] {
        BatchFinishes(s, b, now);
        FinishesKeeps(s, CompleteBatch(s, b, now), JobsOf(Matched(s, b)));
      } else {
        BatchNothing(s, b, now);
      }
  }

  lemma CompleteNothing(s: Db, job: JobId, f: int, x: ExecId, now: Time)
    requires !HeldAs(s, job, f, Running)
    ensures Complete(s, job, f, x, now) == s
  {
  }

  lemma BatchNothing(s: Db, batch: seq<Done>, now: Time)
    requires Matched(s, batch) == []
    ensures CompleteBatch(s, batch, now) == s
  {
    hide Matched;
  }

  /** The transactions that do more than move rows between statuses. */
  predicate Reshapes(op: Op) { op.DoSubmit? || op.DoFire? || op.DoStart? || Completing(op) }

  lemma OtherWrites(op: Op)
    requires !Reshapes(op)
    ensures NewJobs !in Writes(op) && Edges !in Writes(op) && !op.DoStart? && !Completing(op)
  {
  }

  lemma OtherKeepsDeps(s: Db, op: Op, now: Time)
    requires RowsOk(s) && DepsOk(s) && !Reshapes(op)
    ensures DepsOk(Apply(s, op, now))
  {
    hide Apply, Writes, RowsOk, DepsOk, PlainRows, Reshapes, Completing;
    OtherWrites(op);
    ApplyWrites(s, op, now);
    PlainOps(s, op, now);
    PlainKeepsDeps(s, Apply(s, op, now), now);
  }

  lemma StepKeepsDeps(s: Db, op: Op, now: Time)
    requires RowsOk(s) && DepsOk(s) && (op.DoSubmit? && Acceptable(s, op.r) ==> SoundSubmission(s, op.r))
    ensures DepsOk(Apply(s, op, now))
  {
    if !Reshapes(op) {
      hide *;
      OtherKeepsDeps(s, op, now);
    } else {
      hide RowsOk, DepsOk, SoundSubmission, Submit, Fire, Start, Complete, CompleteBatch;
      match op
      case DoSubmit(r) => SubmitKeepsDeps(s, r, now);
      case DoFire(r, tick) => FireKeepsDeps(s, r, tick, now);
      case DoStart(job, f, w, x) => StartKeepsDeps(s, job, f, w, x, now);
      case DoComplete(_, _, _) => CompletionKeepsDeps(s, op, now);
      case DoCompleteBatch(_) => CompletionKeepsDeps(s, op, now);
    }
  }

  lemma SubmitKeepsDeps(s: Db, r: Submission, now: Time)
    requires DepsOk(s) && (Acceptable(s, r) ==> SoundSubmission(s, r))
    ensures DepsOk(Submit(s, r, now))
  {
    hide DepsOk, SoundSubmission, LiveParents, NewJob;
    if Acceptable(s, r) { SoundSubmitKeeps(s, r, now); }
  }

  // ---------------------------------------------------------------- runs

  /** Every submission of the run is sound. */
  predicate SoundRun(ss: seq<Db>, acts: seq<Act>) {
    && IsRun(ss, acts)
    && forall i :: 0 <= i < |acts| && acts[i].op.DoSubmit? && Acceptable(ss[i], acts[i].op.r) ==>
        SoundSubmission(ss[i], acts[i].op.r)
  }

  lemma SoundStep(ss: seq<Db>, acts: seq<Act>, i: nat)
    requires SoundRun(ss, acts) && i + 1 < |ss|
    ensures i < |acts| && OnTime(ss[i], acts[i]) && ss[i + 1] == Step(ss[i], acts[i])
    ensures acts[i].op.DoSubmit? && Acceptable(ss[i], acts[i].op.r) ==> SoundSubmission(ss[i], acts[i].op.r)
  {
    hide Step, OnTime, SoundSubmission, Acceptable;
  }

  lemma FreshDeps(s: Db)
    requires Fresh(s)
    ensures DepsOk(s)
  {
  }

  lemma DepsAfter(s: Db, a: Act)
    requires RowsOk(s) && DepsOk(s) && (a.op.DoSubmit? && Acceptable(s, a.op.r) ==> SoundSubmission(s, a.op.r))
    ensures DepsOk(Step(s, a))
  {
    assert Step(s, a) == Apply(s, a.op, a.now).(clock := a.now) by { hide Apply; }
    hide *;
    StepKeepsDeps(s, a.op, a.now);
    DepsIgnoreClock(Apply(s, a.op, a.now), a.now);
  }

  lemma DepsIgnoreClock(s: Db, now: Time)
    requires DepsOk(s)
    ensures DepsOk(s.(clock := now))
  {
    var t := s.(clock := now);
    forall c | c in t.jobs ensures CountRight(t, c) {
      assert CountRight(s, c) && Outstanding(t, c) == Outstanding(s, c);
    }
  }

  lemma {:induction false} RunKeepsDeps(ss: seq<Db>, acts: seq<Act>, i: nat)
    requires SoundRun(ss, acts) && Fresh(ss[0]) && i < |ss|
    ensures DepsOk(ss[i]) && RowsOk(ss[i])
  {
    assert IsRun(ss, acts);
    hide *;
    if i == 0 {
      FreshDeps(ss[0]);
    } else {
      RunKeepsDeps(ss, acts, i - 1);
      SoundStep(ss, acts, i - 1);
      DepsAfter(ss[i - 1], acts[i - 1]);
    }
    RunKeepsRows(ss, acts, i);
  }

  // ---------------------------------------------------------------- the count in every run

  /** The parents of c that have completed since s0. */
  function FiredSince(s0: Db, s: Db, c: JobId): set<JobId> {
    set p | p in s.jobs && (p, c) in s.edges && s.jobs[p].status.Completed?
      && !(p in s0.jobs && s0.jobs[p].status.Completed?)
  }

  /** c was submitted in s0 with these parents: its edges are still those, and its count has come
      down by one for every parent that has completed since. */
  ghost predicate Tally(s0: Db, s: Db, c: JobId, parents: seq<JobId>) {
    && c in s.jobs
    && (forall p :: (p, c) in s.edges <==> p in parents) && (forall p :: p in parents ==> p in s.jobs)
    && (!s.jobs[c].status.Cancelled? ==> s.jobs[c].pendingDeps == Max(|s.jobs[c].waitsOn| - |FiredSince(s0, s, c)|, 0))
    && (s.jobs[c].status.Cancelled? && s.jobs[c].fence > 0 ==> |s.jobs[c].waitsOn| <= |FiredSince(s0, s, c)|)
  }

  lemma TallyBegins(s: Db, r: Submission, now: Time)
    requires Acceptable(s, r) && EdgesFit(s)
    ensures Tally(s, Submit(s, r, now), r.id, r.parents)
    ensures Submit(s, r, now).jobs[r.id].waitsOn == LiveParents(s.jobs, r.parents, r.project)
  {
    var t := Submit(s, r, now);
    forall p ensures (p, r.id) in t.edges <==> p in r.parents {
      assert (p, r.id) !in s.edges;
    }
    assert FiredSince(s, t, r.id) == {};
  }

  lemma SameTally(s0: Db, s: Db, t: Db, c: JobId, parents: seq<JobId>)
    requires Tally(s0, s, c, parents) && AllSameWait(s, t) && RowOk(s.jobs[c])
    ensures Tally(s0, t, c, parents)
  {
    assert SameWait(s.jobs[c], t.jobs[c]);
    assert FiredSince(s0, t, c) == FiredSince(s0, s, c);
  }

  lemma FiredMore(s0: Db, s: Db, t: Db, done: set<JobId>, c: JobId)
    requires Finishes(s, t, done)
    ensures FiredSince(s0, t, c) == FiredSince(s0, s, c) + (DoneParents(s.edges, done, c) - Before(s0, done))
  {
  }

  /** Those of `done` that had completed in s0 already. */
  function Before(s0: Db, done: set<JobId>): set<JobId> {
    set p | p in done && p in s0.jobs && s0.jobs[p].status.Completed?
  }

  lemma FinishTally(s0: Db, s: Db, t: Db, done: set<JobId>, c: JobId, parents: seq<JobId>)
    requires Tally(s0, s, c, parents) && Finishes(s, t, done) && RowOk(s.jobs[c]) && Before(s0, done) == {}
    ensures Tally(s0, t, c, parents)
  {
    FiredMore(s0, s, t, done, c);
    var old_, more := FiredSince(s0, s, c), DoneParents(s.edges, done, c);
    assert FiredSince(s0, t, c) == old_ + more;
    forall p | p in more ensures p !in old_ {
      assert Completes(s.jobs[p], t.jobs[p]);
    }
    assert |old_ + more| == |old_| + |more|;
    assert c in done ==> Completes(s.jobs[c], t.jobs[c]);
  }

  lemma InsertTally(s0: Db, s: Db, t: Db, c: JobId, parents: seq<JobId>, id: JobId)
    requires Tally(s0, s, c, parents) && id !in s.jobs && id in t.jobs && t.jobs == s.jobs[id := t.jobs[id]]
    requires forall e :: e in t.edges && e !in s.edges ==> e.1 == id
    requires s.edges <= t.edges
    ensures Tally(s0, t, c, parents)
  {
    forall p ensures (p, c) in t.edges <==> (p, c) in s.edges { }
    assert FiredSince(s0, t, c) == FiredSince(s0, s, c);
  }

  lemma SubmitTally(s0: Db, s: Db, c: JobId, parents: seq<JobId>, r: Submission, tick: Time, now: Time)
    requires Tally(s0, s, c, parents)
    ensures Tally(s0, Submit(s, r, now), c, parents) && Tally(s0, Fire(s, r, tick, now), c, parents)
  {
    hide Tally, LiveParents, NewJob;
    if Acceptable(s, r) {
      InsertTally(s0, s, Submit(s, r, now), c, parents, r.id);
      InsertTally(s0, s, Fire(s, r, tick, now), c, parents, r.id);
    }
  }

  /** Nothing that had completed in s0 runs now. */
  ghost predicate DoneStays(s0: Db, s: Db) {
    forall p :: p in s0.jobs && s0.jobs[p].status.Completed? ==> p in s.jobs && s.jobs[p].status.Completed?
  }

  lemma NoneBefore(s0: Db, s: Db, t: Db, done: set<JobId>)
    requires DoneStays(s0, s) && Finishes(s, t, done)
    ensures Before(s0, done) == {}
  {
    forall p | p in done ensures !(p in s0.jobs && s0.jobs[p].status.Completed?) {
      assert Completes(s.jobs[p], t.jobs[p]);
    }
  }

  lemma CompleteTally(s0: Db, s: Db, job: JobId, f: int, x: ExecId, now: Time, c: JobId, parents: seq<JobId>)
    requires RowsOk(s) && Tally(s0, s, c, parents) && DoneStays(s0, s)
    ensures Tally(s0, Complete(s, job, f, x, now), c, parents)
  {
    TallyHas(s0, s, c, parents);
    assert RowOk(s.jobs[c]);
    hide Tally, Finishes, Complete, DoneStays;
    if HeldAs(s, job, f, Running) {
      assert RowOk(s.jobs[job]);
      hide RowOk, RowsOk;
      CompleteFinishes(s, job, f, x, now);
      NoneBefore(s0, s, Complete(s, job, f, x, now), {job});
      FinishTally(s0, s, Complete(s, job, f, x, now), {job}, c, parents);
    } else {
      CompleteNothing(s, job, f, x, now);
    }
  }

  lemma BatchTally(s0: Db, s: Db, batch: seq<Done>, now: Time, c: JobId, parents: seq<JobId>)
    requires RowsOk(s) && Tally(s0, s, c, parents) && DoneStays(s0, s)
    ensures Tally(s0, CompleteBatch(s, batch, now), c, parents)
  {
    TallyHas(s0, s, c, parents);
    assert RowOk(s.jobs[c]);
    hide *;
    if Matched(s, batch) != [] {
      BatchFinishes(s, batch, now);
      NoneBefore(s0, s, CompleteBatch(s, batch, now), JobsOf(Matched(s, batch)));
      FinishTally(s0, s, CompleteBatch(s, batch, now), JobsOf(Matched(s, batch)), c, parents);
    } else {
      BatchNothing(s, batch, now);
    }
  }

  lemma PlainTally(s0: Db, s: Db, t: Db, now: Time, c: JobId, parents: seq<JobId>)
    requires RowsOk(s) && Tally(s0, s, c, parents) && PlainRows(s, t, now) && t.jobs.Keys == s.jobs.Keys
        && t.edges == s.edges
    ensures Tally(s0, t, c, parents)
  {
    TallyHas(s0, s, c, parents);
    assert RowOk(s.jobs[c]);
    hide PlainStep, SameWait, Tally, RowOk;
    forall j | j in s.jobs ensures SameWait(s.jobs[j], t.jobs[j]) {
      PlainIsSameWait(s.jobs[j], t.jobs[j]);
    }
    SameTally(s0, s, t, c, parents);
  }

  lemma StartWaits(s: Db, job: JobId, f: int, w: WorkerId, x: ExecId, now: Time)
    ensures AllSameWait(s, Start(s, job, f, w, x, now))
  {
    var t := Start(s, job, f, w, x, now);
    forall j | j in s.jobs ensures SameWait(s.jobs[j], t.jobs[j]) {
    }
  }

  lemma StartTally(s0: Db, s: Db, job: JobId, f: int, w: WorkerId, x: ExecId, now: Time, c: JobId, parents: seq<JobId>)
    requires RowsOk(s) && Tally(s0, s, c, parents)
    ensures Tally(s0, Start(s, job, f, w, x, now), c, parents)
  {
    TallyHas(s0, s, c, parents);
    assert RowOk(s.jobs[c]);
    hide RowOk, Tally, AllSameWait, Start;
    StartWaits(s, job, f, w, x, now);
    SameTally(s0, s, Start(s, job, f, w, x, now), c, parents);
  }

  lemma OtherTally(s0: Db, s: Db, op: Op, now: Time, c: JobId, parents: seq<JobId>)
    requires RowsOk(s) && Tally(s0, s, c, parents) && !Reshapes(op)
    ensures Tally(s0, Apply(s, op, now), c, parents)
  {
    hide Apply, Writes, RowsOk, Tally, PlainRows, Reshapes, Completing;
    OtherWrites(op);
    ApplyWrites(s, op, now);
    PlainOps(s, op, now);
    PlainTally(s0, s, Apply(s, op, now), now, c, parents);
  }

  lemma StepTally(s0: Db, s: Db, op: Op, now: Time, c: JobId, parents: seq<JobId>)
    requires RowsOk(s) && Tally(s0, s, c, parents) && DoneStays(s0, s)
    ensures Tally(s0, Apply(s, op, now), c, parents)
  {
    if !Reshapes(op) {
      hide *;
      OtherTally(s0, s, op, now, c, parents);
    } else {
      hide RowsOk, Tally, DoneStays, Submit, Fire, Start, Complete, CompleteBatch;
      match op
      case DoSubmit(r) => SubmitTally(s0, s, c, parents, r, now, now);
      case DoFire(r, tick) => SubmitTally(s0, s, c, parents, r, tick, now);
      case DoStart(job, f, w, x) => StartTally(s0, s, job, f, w, x, now, c, parents);
      case DoComplete(job, f, x) => CompleteTally(s0, s, job, f, x, now, c, parents);
      case DoCompleteBatch(b) => BatchTally(s0, s, b, now, c, parents);
    }
  }

  lemma TallyIgnoresClock(s0: Db, s: Db, now: Time, c: JobId, parents: seq<JobId>)
    requires Tally(s0, s, c, parents)
    ensures Tally(s0, s.(clock := now), c, parents)
  {
    assert FiredSince(s0, s.(clock := now), c) == FiredSince(s0, s, c);
  }

  lemma SpentRowStays(o: Job, n: Job)
    requires RowStep(o, n) && Spent(o.status)
    ensures n == o
  {
  }

  lemma DoneStaysStep(s0: Db, s: Db, a: Act)
    requires DoneStays(s0, s) && RowsOk(s) && OnTime(s, a)
    ensures DoneStays(s0, Step(s, a))
  {
    assert Dated(s);
    hide Step, OnTime, RowStep, RowsOk, Dated, NewRow;
    StepMovesRows(s, a);
    forall p | p in s0.jobs && s0.jobs[p].status.Completed?
        ensures p in Step(s, a).jobs && Step(s, a).jobs[p].status.Completed?
    {
      SpentRowStays(s.jobs[p], Step(s, a).jobs[p]);
    }
  }

  lemma {:induction false} DoneStaysRun(ss: seq<Db>, acts: seq<Act>, k: nat, i: nat)
    requires IsRun(ss, acts) && Fresh(ss[0]) && k <= i < |ss|
    ensures DoneStays(ss[k], ss[i])
    decreases i
  {
    hide *;
    if k == i {
      DoneStaysItself(ss[k]);
    } else {
      RunStep(ss, acts, i - 1);
      RunKeepsRows(ss, acts, i - 1);
      DoneStaysRun(ss, acts, k, i - 1);
      DoneStaysStep(ss[k], ss[i - 1], acts[i - 1]);
    }
  }

  lemma DoneStaysItself(s: Db)
    ensures DoneStays(s, s)
  {
  }

  lemma TallyAfter(s0: Db, s: Db, a: Act, c: JobId, parents: seq<JobId>)
    requires RowsOk(s) && Tally(s0, s, c, parents) && DoneStays(s0, s)
    ensures Tally(s0, Step(s, a), c, parents)
  {
    assert Step(s, a) == Apply(s, a.op, a.now).(clock := a.now) by { hide Apply; }
    hide *;
    StepTally(s0, s, a.op, a.now, c, parents);
    TallyIgnoresClock(s0, Apply(s, a.op, a.now), a.now, c, parents);
  }

  /** Transaction k of the run is the accepted submission r. */
  predicate Submits(ss: seq<Db>, acts: seq<Act>, k: nat, r: Submission) {
    k < |acts| && k < |ss| && acts[k].op == DoSubmit(r) && Acceptable(ss[k], r)
  }

  lemma SubmitsParts(ss: seq<Db>, acts: seq<Act>, k: nat, r: Submission)
    requires Submits(ss, acts, k, r)
    ensures k < |acts| && k < |ss| && acts[k].op == DoSubmit(r) && Acceptable(ss[k], r)
  {
  }

  lemma SubmitStep(s: Db, a: Act, r: Submission)
    requires a.op == DoSubmit(r) && Acceptable(s, r) && EdgesFit(s)
    ensures Tally(s, Step(s, a), r.id, r.parents)
    ensures r.id in Step(s, a).jobs && Step(s, a).jobs[r.id].waitsOn == LiveParents(s.jobs, r.parents, r.project)
  {
    hide EdgesFit, Tally, LiveParents, Acceptable;
    TallyBegins(s, r, a.now);
    TallyIgnoresClock(s, Submit(s, r, a.now), a.now, r.id, r.parents);
    TallyHas(s, Step(s, a), r.id, r.parents);
  }

  lemma TallyHas(s0: Db, s: Db, c: JobId, parents: seq<JobId>)
    requires Tally(s0, s, c, parents)
    ensures c in s.jobs
  {
  }

  lemma WaitsOnStays(s: Db, a: Act, c: JobId)
    requires RowsOk(s) && OnTime(s, a) && c in s.jobs
    ensures c in Step(s, a).jobs && Step(s, a).jobs[c].waitsOn == s.jobs[c].waitsOn
  {
    assert Dated(s);
    hide Step, OnTime, RowStep, RowsOk, Dated, NewRow;
    StepMovesRows(s, a);
    RowStepKeeps(s.jobs[c], Step(s, a).jobs[c]);
  }

  lemma {:induction false} RunKeepsTally(ss: seq<Db>, acts: seq<Act>, k: nat, i: nat, r: Submission)
    requires IsRun(ss, acts) && Fresh(ss[0]) && Submits(ss, acts, k, r) && k < i < |ss|
    ensures Tally(ss[k], ss[i], r.id, r.parents)
    ensures r.id in ss[i].jobs && ss[i].jobs[r.id].waitsOn == LiveParents(ss[k].jobs, r.parents, r.project)
    decreases i
  {
    hide *;
    SubmitsParts(ss, acts, k, r);
    RunStep(ss, acts, i - 1);
    if i == k + 1 {
      RunKeepsEdges(ss, acts, k);
      SubmitStep(ss[k], acts[k], r);
    } else {
      RunKeepsTally(ss, acts, k, i - 1, r);
      RunKeepsRows(ss, acts, i - 1);
      DoneStaysRun(ss, acts, k, i - 1);
      TallyAfter(ss[k], ss[i - 1], acts[i - 1], r.id, r.parents);
      WaitsOnStays(ss[i - 1], acts[i - 1], r.id);
    }
  }

  /** The parents that completed since s0 although the submission had not counted them. */
  function LooseSince(s0: Db, s: Db, c: JobId): set<JobId>
    requires c in s.jobs
  {
    FiredSince(s0, s, c) - s.jobs[c].waitsOn
  }

  lemma DifferencesBalance(w: set<JobId>, f: set<JobId>)
    ensures |w| - |f| == |w - f| - |f - w|
  {
    assert w == (w - f) + (w * f) && f == (f - w) + (w * f);
    assert |w| == |w - f| + |w * f|;
    assert |f| == |f - w| + |w * f|;
  }

  lemma OutstandingIs(s0: Db, s: Db, c: JobId, parents: seq<JobId>)
    requires Tally(s0, s, c, parents)
    requires forall p :: p in s.jobs[c].waitsOn ==> p in parents && p in s0.jobs && !s0.jobs[p].status.Completed?
    ensures Outstanding(s, c) == s.jobs[c].waitsOn - FiredSince(s0, s, c)
  {
    forall p ensures p in Outstanding(s, c) <==> p in s.jobs[c].waitsOn && p !in FiredSince(s0, s, c) {
      if p in s.jobs[c].waitsOn { assert (p, c) in s.edges && p in s.jobs; }
    }
  }

  lemma TallySplits(s0: Db, s: Db, c: JobId, parents: seq<JobId>)
    requires Tally(s0, s, c, parents)
    requires forall p :: p in s.jobs[c].waitsOn ==> p in parents && p in s0.jobs && !s0.jobs[p].status.Completed?
    ensures |s.jobs[c].waitsOn| - |FiredSince(s0, s, c)| == |Outstanding(s, c)| - |LooseSince(s0, s, c)|
  {
    TallyHas(s0, s, c, parents);
    OutstandingIs(s0, s, c, parents);
    hide Tally, Outstanding, FiredSince;
    DifferencesBalance(s.jobs[c].waitsOn, FiredSince(s0, s, c));
  }

  /** In every run, whatever parents are named: the count of a submitted job is its counted parents
      that have not completed, less one for every uncounted parent that has completed since, and
      not below zero. */
  lemma CountInEveryRun(ss: seq<Db>, acts: seq<Act>, k: nat, i: nat, r: Submission)
    requires IsRun(ss, acts) && Fresh(ss[0]) && Submits(ss, acts, k, r) && k < i < |ss|
    ensures r.id in ss[i].jobs
    ensures !ss[i].jobs[r.id].status.Cancelled? ==>
              ss[i].jobs[r.id].pendingDeps == Max(|Outstanding(ss[i], r.id)| - |LooseSince(ss[k], ss[i], r.id)|, 0)
  {
    RunKeepsTally(ss, acts, k, i, r);
    hide IsRun;
    TallySplits(ss[k], ss[i], r.id, r.parents);
  }

  /** The count is exact if and only if no uncounted parent has completed since the submission, or
      no counted one is outstanding any more; and it lets the job go exactly when at least as many
      uncounted parents have completed as counted ones are outstanding. */
  lemma CountExactIff(ss: seq<Db>, acts: seq<Act>, k: nat, i: nat, r: Submission)
    requires IsRun(ss, acts) && Fresh(ss[0]) && Submits(ss, acts, k, r) && k < i < |ss|
    ensures r.id in ss[i].jobs
    ensures !ss[i].jobs[r.id].status.Cancelled? ==>
              (ss[i].jobs[r.id].pendingDeps == |Outstanding(ss[i], r.id)|
               <==> LooseSince(ss[k], ss[i], r.id) == {} || Outstanding(ss[i], r.id) == {})
    ensures !ss[i].jobs[r.id].status.Cancelled? ==>
              (ss[i].jobs[r.id].pendingDeps == 0 <==> |Outstanding(ss[i], r.id)| <= |LooseSince(ss[k], ss[i], r.id)|)
  {
    hide IsRun;
    CountInEveryRun(ss, acts, k, i, r);
    hide Outstanding, LooseSince, Submits;
  }

  lemma CancelledStaysRun(ss: seq<Db>, acts: seq<Act>, k: nat, i: nat, p: JobId)
    requires IsRun(ss, acts) && Fresh(ss[0]) && k <= i < |ss| && p in ss[k].jobs && ss[k].jobs[p].status.Cancelled?
    ensures p in ss[i].jobs && ss[i].jobs[p].status.Cancelled?
  {
    hide *;
    CancelledForever(ss, acts, k, i, p);
  }

  lemma SoundHasNoLoose(ss: seq<Db>, acts: seq<Act>, k: nat, i: nat, r: Submission)
    requires IsRun(ss, acts) && Fresh(ss[0]) && Submits(ss, acts, k, r) && k < i < |ss| && SoundSubmission(ss[k], r)
    requires r.id in ss[i].jobs && Tally(ss[k], ss[i], r.id, r.parents)
    requires ss[i].jobs[r.id].waitsOn == LiveParents(ss[k].jobs, r.parents, r.project)
    ensures LooseSince(ss[k], ss[i], r.id) == {} || Outstanding(ss[i], r.id) == {}
  {
    hide IsRun;
    if LiveParents(ss[k].jobs, r.parents, r.project) != {} {
      forall p | p in FiredSince(ss[k], ss[i], r.id) ensures p in ss[i].jobs[r.id].waitsOn {
        assert p in r.parents && p in ss[k].jobs;
        if ss[k].jobs[p].status.Cancelled? { CancelledStaysRun(ss, acts, k, i, p); }
      }
    }
  }

  /** For a job whose own submission was sound, whatever the others were, pending_deps is in every
      later state of every run the number of its counted parents that have not completed. */
  lemma PendingIsExact(ss: seq<Db>, acts: seq<Act>, k: nat, i: nat, r: Submission)
    requires IsRun(ss, acts) && Fresh(ss[0]) && Submits(ss, acts, k, r) && k < i < |ss| && SoundSubmission(ss[k], r)
    ensures r.id in ss[i].jobs
    ensures !ss[i].jobs[r.id].status.Cancelled? ==>
      ss[i].jobs[r.id].pendingDeps
      == |set p | p in ss[i].jobs[r.id].waitsOn && p in ss[i].jobs && !ss[i].jobs[p].status.Completed?|
  {
    RunKeepsTally(ss, acts, k, i, r);
    SoundHasNoLoose(ss, acts, k, i, r);
    CountExactIff(ss, acts, k, i, r);
    var s, c := ss[i], r.id;
    hide IsRun, Submits, SoundSubmission;
    forall p | p in s.jobs[c].waitsOn ensures p in s.jobs {
      assert p in r.parents;
    }
    assert Outstanding(s, c) == set p | p in s.jobs[c].waitsOn && p in s.jobs && !s.jobs[p].status.Completed?;
  }

  /** Past the wait: queued, claimed, run or finished at some time. */
  predicate HasLeft(j: Job) { j.fence > 0 || !(j.status.Scheduled? || j.status.Cancelled?) }

  /** A job whose own submission was sound leaves the waiting state, is claimed and is started only
      after every parent that was live at its submission has completed. */
  lemma NoEarlyStart(ss: seq<Db>, acts: seq<Act>, k: nat, i: nat, r: Submission)
    requires IsRun(ss, acts) && Fresh(ss[0]) && Submits(ss, acts, k, r) && k < i < |ss| && SoundSubmission(ss[k], r)
    requires r.id in ss[i].jobs && HasLeft(ss[i].jobs[r.id])
    ensures forall p :: p in LiveParents(ss[k].jobs, r.parents, r.project) ==>
        p in ss[i].jobs && ss[i].jobs[p].status.Completed?
  {
    RunKeepsTally(ss, acts, k, i, r);
    SoundHasNoLoose(ss, acts, k, i, r);
    RunKeepsRows(ss, acts, i);
    var s, c := ss[i], r.id;
    assert RowOk(s.jobs[c]);
    TallySplits(ss[k], s, c, r.parents);
    hide IsRun, SoundSubmission;
    assert |Outstanding(s, c)| <= |LooseSince(ss[k], s, c)|;
    assert Outstanding(s, c) == {};
    forall p | p in s.jobs[c].waitsOn ensures p in s.jobs && s.jobs[p].status.Completed? {
      assert p in r.parents && p !in Outstanding(s, c);
    }
  }

  lemma FireFits(s: Db, r: Submission, tick: Time, now: Time)
    requires EdgesFit(s)
    ensures EdgesFit(Fire(s, r, tick, now))
  {
    hide EdgesFit;
    if Acceptable(s, r) { LoneEdgesFit(s, Fire(s, r, tick, now), r.id); }
  }

  lemma SubmitKeepsEdges(s: Db, r: Submission, now: Time)
    requires EdgesFit(s)
    ensures EdgesFit(Submit(s, r, now))
  {
    hide EdgesFit, LiveParents, NewJob;
    if Acceptable(s, r) { SubmitFits(s, r, now); }
  }

  lemma OthersKeepEdges(s: Db, op: Op, now: Time)
    requires Dated(s) && s.clock <= now && EdgesFit(s) && !op.DoSubmit? && !op.DoFire?
    ensures EdgesFit(Apply(s, op, now))
  {
    hide EdgesFit, Apply, RowStep, NewRow, Dated, QuietRows;
    ApplyWrites(s, op, now);
    ApplyMovesRows(s, op, now);
    var t := Apply(s, op, now);
    forall j | j in s.jobs ensures Fixed(s.jobs[j], t.jobs[j]) { RowStepKeeps(s.jobs[j], t.jobs[j]); }
    FixedKeepsEdges(s, t);
  }

  lemma ApplyKeepsEdges(s: Db, op: Op, now: Time)
    requires Dated(s) && s.clock <= now && EdgesFit(s)
    ensures EdgesFit(Apply(s, op, now))
  {
    hide EdgesFit, Dated, Submit, Fire;
    match op
    case DoSubmit(r) => SubmitKeepsEdges(s, r, now);
    case DoFire(r, tick) => FireFits(s, r, tick, now);
    case _ => hide *; OthersKeepEdges(s, op, now);
  }

  lemma EdgesIgnoreClock(s: Db, now: Time)
    requires EdgesFit(s)
    ensures EdgesFit(s.(clock := now))
  {
  }

  lemma StepKeepsEdges(s: Db, a: Act)
    requires RowsOk(s) && OnTime(s, a) && EdgesFit(s)
    ensures EdgesFit(Step(s, a))
  {
    hide EdgesFit, Apply, RowOk, Dated;
    ApplyKeepsEdges(s, a.op, a.now);
    EdgesIgnoreClock(Apply(s, a.op, a.now), a.now);
  }

  lemma FreshEdges(s: Db)
    requires Fresh(s)
    ensures EdgesFit(s)
  {
  }

  /** Every edge enters a job created after its source, in every run whatsoever. */
  lemma {:induction false} RunKeepsEdges(ss: seq<Db>, acts: seq<Act>, i: nat)
    requires IsRun(ss, acts) && Fresh(ss[0]) && i < |ss|
    ensures EdgesFit(ss[i])
  {
    hide *;
    if i == 0 {
      FreshEdges(ss[0]);
    } else {
      RunStep(ss, acts, i - 1);
      RunKeepsRows(ss, acts, i - 1);
      RunKeepsEdges(ss, acts, i - 1);
      StepKeepsEdges(ss[i - 1], acts[i - 1]);
    }
  }

  /** The dependency graph never holds a cycle, whatever parents are named. */
  lemma GraphStaysAcyclic(ss: seq<Db>, acts: seq<Act>, i: nat)
    requires IsRun(ss, acts) && Fresh(ss[0]) && i < |ss|
    ensures Graph.Acyclic(ss[i].edges) && Graph.NoSelfEdge(ss[i].edges)
  {
    hide *;
    RunKeepsEdges(ss, acts, i);
    FitIsAcyclic(ss[i]);
  }

  lemma FitIsAcyclic(s: Db)
    requires EdgesFit(s)
    ensures Graph.Acyclic(s.edges) && Graph.NoSelfEdge(s.edges)
  {
    var birth := map j | j in s.jobs :: s.jobs[j].serial;
    Graph.ClimbingIsAcyclic(s.edges, birth);
  }

  /** link's cycle query answers false on every submission of every run, and rightly so: the new
      child is not on a cycle of the table it has just been linked into. */
  lemma CycleAnswerIsRight(ss: seq<Db>, acts: seq<Act>, i: nat, r: Submission, now: Time)
    requires IsRun(ss, acts) && Fresh(ss[0]) && i < |ss| && Acceptable(ss[i], r)
    ensures var t := Submit(ss[i], r, now);
            && Graph.NoSelfEdge(t.edges) && !Graph.CycleQuery(t.edges, r.id) && !Graph.Reaches(t.edges, r.id, r.id)
  {
    hide *;
    var t := Submit(ss[i], r, now);
    RunKeepsEdges(ss, acts, i);
    SubmitFits(ss[i], r, now);
    FitIsAcyclic(t);
    NotOnCycle(t.edges, r.id);
    Graph.CycleQueryNeverFires(t.edges, r.id);
  }

  lemma NotOnCycle(edges: Graph.Edges, n: JobId)
    requires Graph.Acyclic(edges)
    ensures !Graph.Reaches(edges, n, n)
  {
  }

  // ---------------------------------------------------------------- the cascade

  /** Edges that were counted when their child was submitted. */
  function CountedEdges(s: Db): set<(JobId, JobId)> {
    set e | e in s.edges && e.1 in s.jobs && e.0 in s.jobs[e.1].waitsOn
  }

  /** Dead-lettering rewrites exactly the idle jobs that can be reached from the root. */
  lemma CascadeIsExact(s: Db, root: JobId, now: Time, c: JobId)
    requires c in s.jobs && c != root
    ensures CancelDescendants(s.jobs, s.edges, root, now)[c]
         == if Graph.Reaches(s.edges, root, c) && Idle(s.jobs[c].status) then KillRow(s.jobs[c], now) else s.jobs[c]
  {
    Graph.DescendantsExact(s.edges, root, c);
  }

  /** The count of every job on the walk, the first excepted, is right. */
  ghost predicate CountedWell(s: Db, p: seq<JobId>) {
    forall n :: 0 < n < |p| ==> p[n] in s.jobs && CountRight(s, p[n])
  }

  /** A counted descendant of an unfinished job has itself not finished: it still waits, or a
      cascade has cancelled it before it was ever claimed. */
  lemma {:induction false} DescendantWaits(s: Db, p: seq<JobId>)
    requires RowsOk(s) && CountedWell(s, p) && Graph.Walk(CountedEdges(s), p)
    requires p[0] in s.jobs && !s.jobs[p[0]].status.Completed?
    ensures var c := p[|p| - 1];
            && c in s.jobs && s.jobs[c].fence == 0 && s.jobs[c].attempts == 0
            && (s.jobs[c].status.Scheduled? || s.jobs[c].status.Cancelled?)
    decreases |p|
  {
    var n := |p| - 1;
    var parent, c := p[n - 1], p[n];
    assert (p[n - 1], p[n - 1 + 1]) in CountedEdges(s);
    if n > 1 {
      assert Graph.Walk(CountedEdges(s), p[..n]) by {
        forall i | 0 <= i < n - 1 ensures (p[..n][i], p[..n][i + 1]) in CountedEdges(s) {
          assert (p[i], p[i + 1]) in CountedEdges(s);
        }
      }
      DescendantWaits(s, p[..n]);
    }
    assert parent in Outstanding(s, c) && CountRight(s, c) && RowOk(s.jobs[c]);
  }

  lemma WalkInLarger(a: set<(JobId, JobId)>, b: set<(JobId, JobId)>, p: seq<JobId>)
    requires a <= b && Graph.Walk(a, p)
    ensures Graph.Walk(b, p)
  {
    forall i | 0 <= i < |p| - 1 ensures (p[i], p[i + 1]) in b {
      assert (p[i], p[i + 1]) in a;
    }
  }

  /** When a job is dead-lettered, every descendant through counted parents is cancelled and none
      of them was ever claimed, as long as the counts on the way are right. */
  lemma DeadLetterCancelsDescendants(s: Db, job: JobId, f: Option<int>, o: Outcome, permanent: bool, backoff: Time,
      now: Time, p: seq<JobId>)
    requires RowsOk(s) && Failable(s, job, f) && Exhausted(s.jobs[job], permanent)
    requires Graph.Walk(CountedEdges(s), p) && p[0] == job && CountedWell(s, p)
    ensures var t, c := Fail(s, job, f, o, permanent, backoff, now), p[|p| - 1];
            && t.jobs[job].status.DeadLetter?
            && c in t.jobs && t.jobs[c].status.Cancelled? && t.jobs[c].fence == 0 && t.jobs[c].attempts == 0
  {
    var c := p[|p| - 1];
    DescendantWaits(s, p);
    WalkInLarger(CountedEdges(s), s.edges, p);
    assert Graph.WalkFromTo(s.edges, p, job, c);
    hide RowsOk, CountedEdges, CountedWell;
    FailCascades(s, job, f, o, permanent, backoff, now, c);
  }

  lemma FailCascades(s: Db, job: JobId, f: Option<int>, o: Outcome, permanent: bool, backoff: Time, now: Time, c: JobId)
    requires Failable(s, job, f) && Exhausted(s.jobs[job], permanent) && c in s.jobs && c != job
        && Graph.Reaches(s.edges, job, c)
    ensures var t := Fail(s, job, f, o, permanent, backoff, now);
            && t.jobs[job].status.DeadLetter?
            && c in t.jobs && t.jobs[c] == if Idle(s.jobs[c].status) then KillRow(s.jobs[c], now) else s.jobs[c]
  {
    var rows := s.jobs[job := FailRow(s.jobs[job], permanent, backoff, now)];
    hide CloseOfJob, EventsOf, ReleaseSlots, Count, DeadReason;
    CascadeIsExact(s.(jobs := rows), job, now, c);
  }

  lemma CancelledStep(s: Db, a: Act, c: JobId)
    requires RowsOk(s) && OnTime(s, a) && c in s.jobs && s.jobs[c].status.Cancelled?
    ensures c in Step(s, a).jobs && Step(s, a).jobs[c] == s.jobs[c]
  {
    hide Step, OnTime, RowStep;
    StepMovesRows(s, a);
    SpentRowStays(s.jobs[c], Step(s, a).jobs[c]);
  }

  /** A cancelled job is never touched again. */
  lemma {:induction false} CancelledForever(ss: seq<Db>, acts: seq<Act>, i: nat, k: nat, c: JobId)
    requires IsRun(ss, acts) && Fresh(ss[0]) && i <= k < |ss| && c in ss[i].jobs && ss[i].jobs[c].status.Cancelled?
    ensures c in ss[k].jobs && ss[k].jobs[c] == ss[i].jobs[c]
    decreases k
  {
    hide *;
    if k > i {
      CancelledForever(ss, acts, i, k - 1, c);
      RunKeepsRows(ss, acts, k - 1);
      RunStep(ss, acts, k - 1);
      CancelledStep(ss[k - 1], acts[k - 1], c);
    }
  }

  /** The transaction dead-letters this job. */
  predicate DeadLetters(s: Db, op: Op, job: JobId) {
    && (op.DoFail? || op.DoReap?) && op.job == job && job in s.jobs && Active(s.jobs[job].status)
    && (op.DoFail? ==> op.fence == s.jobs[job].fence)
    && Exhausted(s.jobs[job], op.DoFail? && op.permanent)
  }

  predicate NeverClaimed(s: Db, c: JobId) {
    c in s.jobs && s.jobs[c].status.Cancelled? && s.jobs[c].fence == 0 && s.jobs[c].attempts == 0
  }

  lemma CascadeStep(s: Db, a: Act, p: seq<JobId>)
    requires RowsOk(s) && Graph.Walk(CountedEdges(s), p) && CountedWell(s, p) && DeadLetters(s, a.op, p[0])
    ensures NeverClaimed(Step(s, a), p[|p| - 1])
  {
    hide RowsOk, Fail, CountedEdges, CountedWell;
    match a.op
    case DoFail(_, f, o, perm, backoff) => DeadLetterCancelsDescendants(s, p[0], Some(f), o, perm, backoff, a.now, p);
    case DoReap(_, backoff) => DeadLetterCancelsDescendants(s, p[0], None, Lost, false, backoff, a.now, p);
  }

  lemma NeverClaimedStays(ss: seq<Db>, acts: seq<Act>, i: nat, k: nat, c: JobId)
    requires IsRun(ss, acts) && Fresh(ss[0]) && i <= k < |ss| && NeverClaimed(ss[i], c)
    ensures NeverClaimed(ss[k], c)
  {
    CancelledForever(ss, acts, i, k, c);
    hide IsRun;
  }

  /** c was submitted before state i, and soundly. */
  ghost predicate SoundlySubmitted(ss: seq<Db>, acts: seq<Act>, i: nat, c: JobId) {
    exists k: nat, r: Submission :: Submits(ss, acts, k, r) && k < i && r.id == c && SoundSubmission(ss[k], r)
  }

  lemma SoundCounts(ss: seq<Db>, acts: seq<Act>, i: nat, c: JobId)
    requires IsRun(ss, acts) && Fresh(ss[0]) && i < |ss| && SoundlySubmitted(ss, acts, i, c)
    ensures c in ss[i].jobs && CountRight(ss[i], c)
  {
    var k: nat, r: Submission :| Submits(ss, acts, k, r) && k < i && r.id == c && SoundSubmission(ss[k], r);
    RunKeepsRows(ss, acts, i);
    hide IsRun, Outstanding, LooseSince, FiredSince, SoundSubmission, Submits, Fresh;
    RunKeepsTally(ss, acts, k, i, r);
    SoundHasNoLoose(ss, acts, k, i, r);
    TallySplits(ss[k], ss[i], c, r.parents);
    assert RowOk(ss[i].jobs[c]);
    hide RowsOk;
    assert Outstanding(ss[i], c) != {} ==> LooseSince(ss[k], ss[i], c) == {};
  }

  /** Over whole runs: from the moment a job is dead-lettered, by its worker or by the reaper, every
      descendant through counted parents is cancelled, has never been claimed, and never will be.
      Only the submissions along the way have to be sound; p is that way. */
  lemma CascadeOverRuns(ss: seq<Db>, acts: seq<Act>, i: nat, k: nat, p: seq<JobId>)
    requires IsRun(ss, acts) && Fresh(ss[0]) && i < |acts| && i < k < |ss|
    requires Graph.Walk(CountedEdges(ss[i]), p) && DeadLetters(ss[i], acts[i].op, p[0])
    requires forall n :: 0 < n < |p| ==> SoundlySubmitted(ss, acts, i, p[n])
    ensures NeverClaimed(ss[k], p[|p| - 1])
  {
    assert |p| >= 2;
    hide *;
    RunStep(ss, acts, i);
    RunKeepsRows(ss, acts, i);
    CountedWellBy(ss, acts, i, p);
    CascadeStep(ss[i], acts[i], p);
    NeverClaimedStays(ss, acts, i + 1, k, p[|p| - 1]);
  }

  lemma CountedWellBy(ss: seq<Db>, acts: seq<Act>, i: nat, p: seq<JobId>)
    requires IsRun(ss, acts) && Fresh(ss[0]) && i < |ss| && forall n :: 0 < n < |p| ==>
        SoundlySubmitted(ss, acts, i, p[n])
    ensures CountedWell(ss[i], p)
  {
    hide IsRun, SoundlySubmitted, CountRight, Fresh;
    forall n | 0 < n < |p| ensures p[n] in ss[i].jobs && CountRight(ss[i], p[n]) {
      SoundCounts(ss, acts, i, p[n]);
    }
  }
}
