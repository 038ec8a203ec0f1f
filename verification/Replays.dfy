/** The two guards on replaying a dead letter: by name, the job must have no cancelled descendant; in
    bulk, no cancelled child. */
module Replays {
  import opened Schema
  import opened Transactions
  import opened Protocol
  import opened Fencing
  import opened Scenarios
  import opened Findings
  import Forgetting
  import Deps = Dependencies
  import Graph

  // ---------------------------------------------------------------- when the guards agree

  predicate ReplayableByName(s: Db, job: JobId) {
    job in s.jobs && s.jobs[job].status.DeadLetter? && CancelledKin(s, job) == {}
  }

  /** Some child would itself be refused: something below it is cancelled. */
  predicate ChildHasCancelledKin(s: Db, job: JobId) {
    exists e :: e in s.edges && e.0 == job && CancelledKin(s, e.1) != {}
  }

  /** A node below is a child or below a child. */
  lemma ReachesThroughChild(edges: Graph.Edges, a: JobId, b: JobId)
    ensures Graph.Reaches(edges, a, b) <==> (a, b) in edges || exists c :: (a, c) in edges && Graph.Reaches(edges, c, b)
  {
    if Graph.Reaches(edges, a, b) {
      var p :| Graph.WalkFromTo(edges, p, a, b);
      assert (p[0], p[1]) in edges;
      if |p| > 2 { assert Graph.WalkFromTo(edges, p[1..], p[1], b); }
    }
    if (a, b) in edges { assert Graph.WalkFromTo(edges, [a, b], a, b); }
    if c :| (a, c) in edges && Graph.Reaches(edges, c, b) {
      var p :| Graph.WalkFromTo(edges, p, c, b);
      assert Graph.WalkFromTo(edges, [a] + p, a, b);
    }
  }

  lemma KinIsReached(s: Db, job: JobId, c: JobId)
    requires Graph.Acyclic(s.edges)
    ensures c in CancelledKin(s, job) <==> c in s.jobs && s.jobs[c].status.Cancelled? && Graph.Reaches(s.edges, job, c)
  {
    Graph.DescendantsExact(s.edges, job, c);
    assert (job, job) in s.edges ==> Graph.WalkFromTo(s.edges, [job, job], job, job);
    assert !Graph.Reaches(s.edges, job, job);
    hide Graph.Descendants;
  }

  lemma KinThroughChild(s: Db, job: JobId)
    requires Graph.Acyclic(s.edges)
    ensures CancelledKin(s, job) != {} <==> ChildCancelled(s, job) || ChildHasCancelledKin(s, job)
  {
    hide CancelledKin, Graph.Reaches, Graph.Acyclic;
    if CancelledKin(s, job) != {} {
      var x :| x in CancelledKin(s, job);
      KinIsReached(s, job, x);
      ReachesThroughChild(s.edges, job, x);
      if (job, x) !in s.edges {
        var c :| (job, c) in s.edges && Graph.Reaches(s.edges, c, x);
        KinIsReached(s, c, x);
        assert (job, c).1 == c;
      }
    }
    if ChildCancelled(s, job) {
      var c :| c in s.jobs && (job, c) in s.edges && s.jobs[c].status.Cancelled?;
      ReachesThroughChild(s.edges, job, c);
      KinIsReached(s, job, c);
    }
    if ChildHasCancelledKin(s, job) {
      var e :| e in s.edges && e.0 == job && CancelledKin(s, e.1) != {};
      var x :| x in CancelledKin(s, e.1);
      assert e == (job, e.1);
      KinIsReached(s, e.1, x);
      ReachesThroughChild(s.edges, job, x);
      KinIsReached(s, job, x);
    }
  }

  /** For a dead letter that was never replayed, in every run: the guards agree if and only if a child
      is cancelled or no child would itself be refused. */
  lemma GuardsAgreeIff(ss: seq<Db>, acts: seq<Act>, i: nat, job: JobId)
    requires IsRun(ss, acts) && Fresh(ss[0]) && ss[0].dead == map[] && i < |ss| && job in ss[i].jobs
    requires ss[i].jobs[job].status.DeadLetter? && ss[i].jobs[job].generation == 0
    ensures (BulkReplayable(ss[i], job) <==> ReplayableByName(ss[i], job)) <==>
        ChildCancelled(ss[i], job) || !ChildHasCancelledKin(ss[i], job)
  {
    Deps.GraphStaysAcyclic(ss, acts, i);
    BulkReplayableIff(ss, acts, i, job);
    KinThroughChild(ss[i], job);
    hide IsRun, BulkReplayable, ChildCancelled, ChildHasCancelledKin, CancelledKin;
  }

  // ---------------------------------------------------------------- a run in which they differ

  const Grandson: Submission := Order(2, 0, [1])

  function GrandsonRow(): Job { Queued0(0, 2).(status := Scheduled, pendingDeps := 1, waitsOn := {1}) }

  /** Job 0 dies; job 1 is submitted below it all the same, and job 2 below job 1; then job 1 dies. */
  function LineActs(): seq<Act> {
    FirstDies() + [Now(DoSubmit(Forgetting.Kid))] + [Now(DoSubmit(Grandson))] + DriveActs(0, 1, 1, 1, 1)
    + [Now(DoFail(1, 1, PermanentError, true, 0.0))]
  }

  /** Three jobs in a line, the last waiting on the one before it; one attempt has been started. */
  predicate Line(s: Db, son: Job, out: int) {
    && s.jobs == map[0 := DeadJob(), 1 := son, 2 := GrandsonRow()] && s.edges == {(0, 1), (1, 2)}
    && 0 in s.queues && s.queues[0] == Row(0, 1, out)
  }

  lemma SonSubmitted(s: Db)
    requires Alone(s, DeadJob(), 1, 0)
    ensures var t := Step(s, Now(DoSubmit(Forgetting.Kid)));
            && t.jobs == map[0 := DeadJob(), 1 := Queued0(0, 1)] && t.edges == {(0, 1)} && t.queues == s.queues
            && t.grants == s.grants && t.execs == s.execs
  {
    ReplayedIsDue();
    assert LiveParents(s.jobs, Forgetting.Kid.parents, 0) == {};
    hide Step, LiveParents, DeadJob;
    SubmitIs(s, Forgetting.Kid, {});
    assert |s.jobs| == 1;
    assert (set p | p in Forgetting.Kid.parents :: (p, Forgetting.Kid.id)) == {(0, 1)};
  }

  lemma GrandsonSubmitted(s: Db)
    requires s.jobs == map[0 := DeadJob(), 1 := Queued0(0, 1)] && s.edges == {(0, 1)}
    requires 0 in s.queues && s.queues[0] == Row(0, 1, 0)
    ensures var t := Step(s, Now(DoSubmit(Grandson)));
            Line(t, Queued0(0, 1), 0) && t.grants == s.grants && t.execs == s.execs
  {
    assert LiveParents(s.jobs, Grandson.parents, 0) == {1};
    hide Step, LiveParents, DeadJob;
    SubmitIs(s, Grandson, {1});
    assert |s.jobs| == 2 by { assert s.jobs.Keys == {0, 1}; }
    assert |{1}| == 1;
    assert (set p | p in Grandson.parents :: (p, Grandson.id)) == {(1, 2)};
  }

  lemma SonDriven(s: Db)
    requires Line(s, Queued0(0, 1), 0) && |s.grants| == 1 && 1 !in s.execs
    ensures Line(End(s, DriveActs(0, 1, 1, 1, 1)), RunRow(Queued0(0, 1)), 1)
  {
    hide Step, End, RunRow, Row, DriveActs, DeadJob, GrandsonRow;
    DriveIs(s, 0, 1, 1, 0, 1, 0);
  }

  /** 0 is a dead letter that was never replayed, its only child is a dead letter too, and the child's
      only child is cancelled. */
  predicate SkipsOne(s: Db) {
    && s.edges == {(0, 1), (1, 2)} && s.jobs.Keys == {0, 1, 2}
    && s.jobs[0].status.DeadLetter? && s.jobs[0].generation == 0
    && s.jobs[1].status.DeadLetter? && s.jobs[2].status.Cancelled?
  }

  lemma SonFails(s: Db)
    requires Line(s, RunRow(Queued0(0, 1)), 1)
    ensures SkipsOne(Step(s, Now(DoFail(1, 1, PermanentError, true, 0.0))))
  {
    ReplayedIsDue();
    assert DeadJob().generation == 0;
    var rows := s.jobs[1 := FailRow(s.jobs[1], true, 0.0, 0.0)];
    assert rows[1].status.DeadLetter? && Idle(rows[2].status);
    Forgetting.FailWithCascade(s, 1);
    CascadeSkips(s.(jobs := rows));
    hide Step, FailRow, CancelDescendants;
  }

  lemma CascadeSkips(s: Db)
    requires s.jobs.Keys == {0, 1, 2} && s.edges == {(0, 1), (1, 2)} && s.jobs[0].status.DeadLetter?
    requires s.jobs[1].status.DeadLetter? && Idle(s.jobs[2].status)
    ensures var t := CancelDescendants(s.jobs, s.edges, 1, 0.0);
            t.Keys == {0, 1, 2} && t[0] == s.jobs[0] && t[1] == s.jobs[1] && t[2].status.Cancelled?
  {
    Deps.CascadeIsExact(s, 1, 0.0, 0);
    Deps.CascadeIsExact(s, 1, 0.0, 2);
    assert Graph.WalkFromTo(s.edges, [1, 2], 1, 2);
    hide Graph.Descendants, Graph.Reaches;
  }

  lemma AfterLine()
    ensures SkipsOne(End(Workshop(1), LineActs()))
  {
    var s0, a := Workshop(1), FirstDies();
    var son, grandson, drive := Now(DoSubmit(Forgetting.Kid)), Now(DoSubmit(Grandson)), DriveActs(0, 1, 1, 1, 1);
    AfterFirstDies();
    hide Step, End, FirstDies, DriveActs, Workshop, SkipsOne, Line, Queued0, DeadJob, Row;
    var s := End(s0, a);
    SonSubmitted(s);
    EndSteps(s0, a, son);
    GrandsonSubmitted(End(s0, a + [son]));
    EndSteps(s0, a + [son], grandson);
    SonDriven(End(s0, a + [son] + [grandson]));
    EndJoin(s0, a + [son] + [grandson], drive);
    SonFails(End(s0, a + [son] + [grandson] + drive));
    EndSteps(s0, a + [son] + [grandson] + drive, Now(DoFail(1, 1, PermanentError, true, 0.0)));
  }

  lemma SkippedGuards(s: Db)
    requires SkipsOne(s) && Graph.Acyclic(s.edges)
    ensures !ChildCancelled(s, 0) && !ReplayableByName(s, 0)
  {
    assert Graph.WalkFromTo(s.edges, [0, 1, 2], 0, 2);
    KinIsReached(s, 0, 2);
    hide CancelledKin;
  }

  lemma LineIsPaced()
    ensures AtOnce(LineActs())
  {
  }

  /** A run from an empty database after which a dead letter may be replayed in bulk but not by name. */
  lemma GuardsDiffer()
    ensures var acts := LineActs();
            var ss := Play(Workshop(1), acts);
            && IsRun(ss, acts) && Fresh(ss[0]) && ss[0].dead == map[] && |ss| == |acts| + 1
            && BulkReplayable(ss[|acts|], 0) && !ReplayableByName(ss[|acts|], 0)
  {
    var s0, acts := Workshop(1), LineActs();
    var ss := Play(s0, acts);
    WorkshopIsFresh(1);
    assert s0.dead == map[] && s0.clock == 0.0;
    LineIsPaced();
    AfterLine();
    hide Step, End, IsRun, LineActs, AtOnce, Fresh, Play, BulkReplayable, ReplayableByName, ChildCancelled, Workshop;
    PlayIsRun(s0, acts);
    Deps.GraphStaysAcyclic(ss, acts, |acts|);
    SkippedGuards(ss[|acts|]);
    BulkReplayableIff(ss, acts, |acts|, 0);
  }
}
