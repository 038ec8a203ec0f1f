/** The replay guard and the archiver: a run in which archiving a cancelled child lets through a
    replay that was refused for its sake. */
module Forgetting {
  import opened Schema
  import opened Transactions
  import opened Protocol
  import opened Rows
  import opened Fencing
  import opened Archiver
  import opened Scenarios
  import L = Ledger
  import Deps = Dependencies
  import Graph

  function Wrap(s: Db): Vault { Vault(s, map[], Cold(map[], map[], map[], map[]), map[]) }

  const Kid: Submission := Order(1, 0, [0])

  function FamilyActs(): seq<Act> {
    [Submits0(0, 0)] + [Now(DoSubmit(Kid))] + DriveActs(0, 0, 0, 0, 1) + [Now(DoFail(0, 1, PermanentError, true, 0.0))]
  }

  function KidRow(): Job { Queued0(0, 1).(status := Scheduled, pendingDeps := 1, waitsOn := {0}) }

  lemma FamilyBegins()
    ensures var t := End(Workshop(1), [Submits0(0, 0)] + [Now(DoSubmit(Kid))]);
            && t.jobs == map[0 := Queued0(0, 0), 1 := KidRow()] && t.edges == {(0, 1)} && t.execs == map[]
            && t.grants == [] && t.clock == 0.0
            && t.queues == Workshop(1).queues
  {
    hide Step, End;
    var s0 := Workshop(1);
    SubmitsPlain(s0, 0, 0);
    EndOne(s0, Submits0(0, 0));
    var s1 := Step(s0, Submits0(0, 0));
    assert s1.jobs == map[0 := Queued0(0, 0)] && |s1.jobs| == 1;
    assert LiveParents(s1.jobs, [0], 0) == {0};
    SubmitIs(s1, Kid, {0});
    assert (set p | p in Kid.parents :: (p, Kid.id)) == {(0, 1)} && |{0}| == 1;
    EndSteps(s0, [Submits0(0, 0)], Now(DoSubmit(Kid)));
  }

  lemma FamilyFails(s: Db)
    requires s.jobs == map[0 := RunRow(Queued0(0, 0)), 1 := KidRow()] && s.edges == {(0, 1)}
    ensures var t := Step(s, Now(DoFail(0, 1, PermanentError, true, 0.0)));
            t.jobs == map[0 := DeadJob(), 1 := KillRow(KidRow(), 0.0)] && t.edges == {(0, 1)}
              && t.execs.Keys == s.execs.Keys
  {
    var rows := s.jobs[0 := FailRow(s.jobs[0], true, 0.0, 0.0)];
    assert rows == map[0 := DeadJob(), 1 := KidRow()];
    FamilyCascades(s.(jobs := rows));
    FailWithCascade(s, 0);
  }

  lemma FamilyCascades(s: Db)
    requires s.jobs == map[0 := DeadJob(), 1 := KidRow()] && s.edges == {(0, 1)}
    ensures CancelDescendants(s.jobs, s.edges, 0, 0.0) == map[0 := DeadJob(), 1 := KillRow(KidRow(), 0.0)]
  {
    assert Graph.WalkFromTo(s.edges, [0, 1], 0, 1);
    Deps.CascadeIsExact(s, 0, 0.0, 1);
    assert s.jobs[0].status.DeadLetter? && Idle(s.jobs[1].status);
    RootSpared(s.jobs, s.edges, 0.0);
    hide CancelDescendants, Graph.Reaches, DeadJob, KidRow, KillRow;
  }

  lemma FailWithCascade(s: Db, j: JobId)
    requires j in s.jobs && s.jobs[j].status.Running? && s.jobs[j].fence == 1
    ensures var t := Step(s, Now(DoFail(j, 1, PermanentError, true, 0.0)));
            && t.jobs == CancelDescendants(s.jobs[j := FailRow(s.jobs[j], true, 0.0, 0.0)], s.edges, j, 0.0)
            && t.edges == s.edges && t.execs.Keys == s.execs.Keys
  {
    hide CancelDescendants, Killed, EventsOf, ReleaseSlots, Count, DeadReason, FailRow;
  }

  lemma RootSpared(rows: map<JobId, Job>, edges: set<(JobId, JobId)>, now: Time)
    requires 0 in rows && rows[0].status.DeadLetter? && rows.Keys == {0, 1}
    ensures var c := CancelDescendants(rows, edges, 0, now); c.Keys == {0, 1} && c[0] == rows[0]
  {
    hide Graph.Descendants;
  }

  lemma AfterFamily()
    ensures var t := End(Workshop(1), FamilyActs());
            t.jobs == map[0 := DeadJob(), 1 := KillRow(KidRow(), 0.0)] && t.edges == {(0, 1)} && t.execs.Keys == {0}
  {
    var s0, first := Workshop(1), [Submits0(0, 0)] + [Now(DoSubmit(Kid))];
    FamilyBegins();
    hide Step, End, RunRow, DeadJob;
    var s := End(s0, first);
    DriveIs(s, 0, 0, 0, 0, 1, 0);
    var drive := DriveActs(0, 0, 0, 0, 1);
    var u := End(s, drive);
    EndJoin(s0, first, drive);
    FamilyFails(u);
    EndSteps(s0, first + drive, Now(DoFail(0, 1, PermanentError, true, 0.0)));
  }

  const Month: Time := 30.0 * Day

  function ForgettingMoves(): seq<Move> {
    seq(|FamilyActs()|, i requires 0 <= i < |FamilyActs()| => Work(FamilyActs()[i]))
    + [Shift({1}, Day, Month, 2.0 * Day), Work(Act(DoReplay(0), 2.0 * Day))]
  }

  function ForgettingStates(): seq<Vault> {
    var ss := Play(Workshop(1), FamilyActs());
    var v := Wrap(End(Workshop(1), FamilyActs()));
    var w := Next(v, Shift({1}, Day, Month, 2.0 * Day));
    seq(|ss|, i requires 0 <= i < |ss| => Wrap(ss[i])) + [w, Next(w, Work(Act(DoReplay(0), 2.0 * Day)))]
  }

  lemma FamilyIsRun()
    ensures var ss, acts := Play(Workshop(1), FamilyActs()), FamilyActs();
            IsRun(ss, acts) && |ss| == |acts| + 1 && ss[0] == Workshop(1) && ss[|acts|] == End(Workshop(1), acts)
    ensures End(Workshop(1), FamilyActs()).clock == 0.0
  {
    assert AtOnce(FamilyActs());
    hide Step, End, Play, IsRun, AtOnce, FamilyActs;
    PlayIsRun(Workshop(1), FamilyActs());
    EndAtOnce(Workshop(1), FamilyActs());
  }

  lemma ForgettingIsRun()
    ensures IsVaultRun(ForgettingStates(), ForgettingMoves()) && EmptyVault(ForgettingStates()[0])
        && Fresh(ForgettingStates()[0].db)
  {
    hide *;
    var ss, acts := Play(Workshop(1), FamilyActs()), FamilyActs();
    var vs, ms := ForgettingStates(), ForgettingMoves();
    FamilyIsRun();
    WorkshopIsFresh(1);
    WrapIsEmpty(1);
    ForgettingParts(vs, ms, ss, acts);
    forall i | 0 <= i < |ms| ensures Proper(vs[i], ms[i]) && vs[i + 1] == Archiver.Next(vs[i], ms[i]) {
      if i < |acts| {
        RunStep(ss, acts, i);
        WrappedStep(ss[i], acts[i]);
      } else if i == |acts| {
        ShiftIsProper(ss[i]);
      } else {
        ReplayIsProper(vs[i - 1]);
      }
    }
    MakesVaultRun(vs, ms);
  }

  lemma MakesVaultRun(vs: seq<Vault>, ms: seq<Move>)
    requires |vs| == |ms| + 1
    requires forall i :: 0 <= i < |ms| ==> Proper(vs[i], ms[i]) && vs[i + 1] == Archiver.Next(vs[i], ms[i])
    ensures IsVaultRun(vs, ms)
  {
  }

  lemma ForgettingParts(vs: seq<Vault>, ms: seq<Move>, ss: seq<Db>, acts: seq<Act>)
    requires vs == ForgettingStates() && ms == ForgettingMoves()
    requires acts == FamilyActs() && ss == Play(Workshop(1), acts) && |ss| == |acts| + 1
        && ss[|acts|] == End(Workshop(1), acts)
    ensures |vs| == |acts| + 3 && |ms| == |acts| + 2
    ensures forall i :: 0 <= i < |ss| ==> vs[i] == Wrap(ss[i])
    ensures forall i :: 0 <= i < |acts| ==> ms[i] == Work(acts[i])
    ensures ms[|acts|] == Shift({1}, Day, Month, 2.0 * Day) && ms[|acts| + 1] == Work(Act(DoReplay(0), 2.0 * Day))
    ensures vs[|acts| + 1] == Archiver.Next(vs[|acts|], ms[|acts|])
    ensures vs[|acts| + 2] == Archiver.Next(vs[|acts| + 1], ms[|acts| + 1])
  {
    hide Play, End, FamilyActs, Archiver.Next, Wrap, Workshop;
  }

  lemma WrapIsEmpty(maxc: int)
    ensures EmptyVault(Wrap(Workshop(maxc))) && Wrap(Workshop(maxc)).db == Workshop(maxc)
  {
  }

  lemma ShiftIsProper(s: Db)
    requires s.clock == 0.0
    ensures Proper(Wrap(s), Shift({1}, Day, Month, 2.0 * Day))
  {
  }

  lemma ReplayIsProper(v: Vault)
    ensures Proper(Archiver.Next(v, Shift({1}, Day, Month, 2.0 * Day)), Work(Act(DoReplay(0), 2.0 * Day)))
  {
    hide Archive;
    ReplayOnTime(Archiver.Next(v, Shift({1}, Day, Month, 2.0 * Day)).db);
  }

  lemma WrappedStep(s: Db, a: Act)
    ensures Next(Wrap(s), Work(a)) == Wrap(Step(s, a))
    ensures OnTime(s, a) ==> Proper(Wrap(s), Work(a))
  {
    hide Step;
  }

  lemma ReplayOnTime(s: Db)
    requires s.clock == 2.0 * Day
    ensures OnTime(s, Act(DoReplay(0), 2.0 * Day))
  {
  }

  lemma FamilyGuard(s: Db)
    requires s.jobs == map[0 := DeadJob(), 1 := KillRow(KidRow(), 0.0)] && s.edges == {(0, 1)} && s.execs.Keys == {0}
        && s.clock == 0.0
    requires forall x :: x in s.execs ==> s.execs[x].job == 0
    ensures Replay(s, 0, 2.0 * Day) == s && Archivable(s, 1, Day, Month, 2.0 * Day)
  {
    assert Graph.WalkFromTo(s.edges, [0, 1], 0, 1);
    Graph.DescendantsExact(s.edges, 0, 1);
    hide Graph.Descendants, Graph.Reaches;
    assert 1 in CancelledKin(s, 0);
  }

  lemma NoKinLeft(v: Vault)
    requires v.db.jobs == map[0 := DeadJob(), 1 := KillRow(KidRow(), 0.0)]
    ensures CancelledKin(MoveAll(v, {1}).db, 0) == {}
  {
    assert v.db.jobs[0].status.DeadLetter?;
    forall c | c in v.db.jobs && c !in {1} ensures !v.db.jobs[c].status.Cancelled? { }
    hide MoveAll, CancelledKin, DeadJob, KillRow, KidRow, Graph.Reaches, EdgesOutside;
    GuardAfterArchivingIff(v, {1}, 0);
  }

  lemma ReplayGoes(s: Db, job: JobId, now: Time)
    requires job in s.jobs && s.jobs[job].status.DeadLetter? && CancelledKin(s, job) == {}
    ensures job in Replay(s, job, now).jobs && Replay(s, job, now).jobs[job].status.Queued?
  {
    hide CancelledKin, MarkReplayed;
  }

  lemma FamilyForgotten(v: Vault)
    requires v.db.jobs == map[0 := DeadJob(), 1 := KillRow(KidRow(), 0.0)] && Archivable(v.db, 1, Day, Month, 2.0 * Day)
    ensures var w := Next(v, Shift({1}, Day, Month, 2.0 * Day));
            && 0 in Replay(w.db, 0, 2.0 * Day).jobs && Replay(w.db, 0, 2.0 * Day).jobs[0].status.Queued?
            && 1 in w.cold.jobs
  {
    assert DeadJob().status.DeadLetter?;
    hide DeadJob, KillRow, KidRow, MoveAll, Archivable, ExecsOfJobs, LogsOfJobs, CancelledKin, Replay, Archiver.Next;
    var t := MoveAll(v, {1});
    ShiftMoves(v);
    MoveParts(v, {1});
    NoKinLeft(v);
    KinIgnoresClock(t.db, 0, 2.0 * Day);
    ReplayGoes(t.db.(clock := 2.0 * Day), 0, 2.0 * Day);
  }

  lemma ShiftMoves(v: Vault)
    requires Archivable(v.db, 1, Day, Month, 2.0 * Day)
    ensures Archiver.Next(v, Shift({1}, Day, Month, 2.0 * Day)) == Tick(MoveAll(v, {1}), 2.0 * Day)
  {
    hide MoveAll, Archivable;
  }

  lemma KinIgnoresClock(s: Db, job: JobId, now: Time)
    ensures CancelledKin(s.(clock := now), job) == CancelledKin(s, job)
  {
  }

  /** A run from an empty database: a dead letter's child was cancelled with it, so replaying the
      dead letter is refused; a day later the child is archived, the dead letter is not, and the
      same replay goes through. */
  lemma GuardForgetsArchived()
    ensures var vs, ms, n := ForgettingStates(), ForgettingMoves(), |FamilyActs()|;
            && IsVaultRun(vs, ms) && EmptyVault(vs[0]) && Fresh(vs[0].db) && |vs| == n + 3
            && Replay(vs[n].db, 0, 2.0 * Day) == vs[n].db
            && 1 in vs[n + 2].cold.jobs && 0 in vs[n + 2].db.jobs && vs[n + 2].db.jobs[0].status.Queued?
  {
    ForgettingIsRun();
    FamilyIsRun();
    AfterFamily();
    var s := End(Workshop(1), FamilyActs());
    FamilyExecs();
    hide Play, End, IsRun, IsVaultRun, EmptyVault, Fresh, FamilyActs, ForgettingMoves, DeadJob, KillRow, KidRow, Replay,
        Archivable, Archive;
    FamilyGuard(s);
    FamilyForgotten(Wrap(s));
    assert |ForgettingStates()| == |FamilyActs()| + 3;
    StepReplays(Next(Wrap(s), Shift({1}, Day, Month, 2.0 * Day)));
  }

  lemma StepReplays(w: Vault)
    ensures Next(w, Work(Act(DoReplay(0), 2.0 * Day))).db.jobs == Replay(w.db, 0, 2.0 * Day).jobs
    ensures Next(w, Work(Act(DoReplay(0), 2.0 * Day))).cold == w.cold
  {
    hide Replay;
  }

  /** The one execution of the scenario belongs to the root. */
  lemma FamilyExecs()
    ensures var s := End(Workshop(1), FamilyActs()); forall x :: x in s.execs ==> s.execs[x].job == 0
  {
    var ss, acts := Play(Workshop(1), FamilyActs()), FamilyActs();
    FamilyIsRun();
    AfterFamily();
    WorkshopIsFresh(1);
    L.RunKeepsHistory(ss, acts, |acts|);
  }
}
