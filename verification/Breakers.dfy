/** The breaker sweep: what it reads of each queue, what it makes of it, and where that leaves the row. */
module Breakers {
  import opened Schema
  import opened Transactions
  import A = Admission
  import Query
  import opened Selects

  /** What the sweep read about one queue: its state, the outcomes of the last executions, and the
      latest outcome since the breaker opened. */
  datatype Sighting = Sighting(queue: QueueId, state: A.Breaker, window: seq<Outcome>, probe: Option<Outcome>)

  predicate IsFailure(o: Outcome) { o.RetryableError? || o.PermanentError? || o.TimedOut? || o.Lost? }

  function Failures(window: seq<Outcome>): nat {
    if window == [] then 0 else Failures(window[..|window| - 1]) + if IsFailure(window[|window| - 1]) then 1 else 0
  }

  function Verdict(x: Sighting, trip: nat): Option<A.Switch> {
    match x.state
    case Closed => if Failures(x.window) >= trip then Some(A.Trip) else None
    case HalfOpen =>
      if x.probe.None? then None
      else if x.probe.value.Success? then Some(A.Close)
      else if IsFailure(x.probe.value) then Some(A.Reopen) else None
    case Open => None
  }

  function Switched(s: Db, x: Sighting, trip: nat, until: Time): Db {
    if Verdict(x, trip).None? then s else FlipBreaker(s, x.queue, Verdict(x, trip).value, until)
  }

  predicate Switches(s: Db, x: Sighting, trip: nat) {
    Verdict(x, trip).Some? && x.queue in s.queues && s.queues[x.queue].breaker == x.state
  }

  function SwitchEach(s: Db, seen: seq<Sighting>, trip: nat, until: Time): Db {
    if seen == [] then s
    else Switched(SwitchEach(s, seen[..|seen| - 1], trip, until), seen[|seen| - 1], trip, until)
  }

  function CountSwitched(s: Db, seen: seq<Sighting>, trip: nat, until: Time): nat {
    if seen == [] then 0
    else
      CountSwitched(s, seen[..|seen| - 1], trip, until)
      + if Switches(SwitchEach(s, seen[..|seen| - 1], trip, until), seen[|seen| - 1], trip) then 1 else 0
  }

  function FinishTime(execs: map<ExecId, Exec>, x: ExecId): Time {
    if x in execs && execs[x].closed.Some? then execs[x].closed.value.at else 0.0
  }

  function LatestFirst(execs: map<ExecId, Exec>): (ExecId, ExecId) -> bool {
    (a: ExecId, b: ExecId) => FinishTime(execs, a) >= FinishTime(execs, b)
  }

  lemma RankingByFinish(execs: map<ExecId, Exec>)
    ensures Query.Ranking(LatestFirst(execs))
  {
  }

  function FinishedOn(execs: map<ExecId, Exec>, q: QueueId): set<ExecId> {
    set x | x in execs && execs[x].queue == q && execs[x].closed.Some?
  }

  /** A deadline that is not set selects nothing. */
  function FinishedSince(execs: map<ExecId, Exec>, q: QueueId, from: Option<Time>): set<ExecId> {
    set x | x in FinishedOn(execs, q) && from.Some? && FinishTime(execs, x) >= from.value
  }

  function OutcomeOf(execs: map<ExecId, Exec>, x: ExecId): Outcome
    requires x in execs && execs[x].closed.Some?
  {
    execs[x].closed.value.outcome
  }

  function OutcomesOf(execs: map<ExecId, Exec>, ids: seq<ExecId>): seq<Outcome>
    requires forall i :: 0 <= i < |ids| ==> ids[i] in execs && execs[ids[i]].closed.Some?
  {
    seq(|ids|, i requires 0 <= i < |ids| => OutcomeOf(execs, ids[i]))
  }

  predicate Reads(execs: map<ExecId, Exec>, ids: seq<ExecId>, outcomes: seq<Outcome>) {
    |outcomes| == |ids| && forall i :: 0 <= i < |ids| ==>
      ids[i] in execs && execs[ids[i]].closed.Some? && outcomes[i] == OutcomeOf(execs, ids[i])
  }

  ghost predicate SeesWindow(s: Db, q: QueueId, window: nat, outcomes: seq<Outcome>) {
    exists ids :: Query.FirstRows(FinishedOn(s.execs, q), LatestFirst(s.execs), window, ids)
      && Reads(s.execs, ids, outcomes)
  }

  ghost predicate SeesProbe(s: Db, q: QueueId, from: Option<Time>, probe: Option<Outcome>) {
    exists ids :: Query.FirstRows(FinishedSince(s.execs, q, from), LatestFirst(s.execs), 1, ids)
      && Reads(s.execs, ids, if probe.None? then [] else [probe.value])
  }

  /** A sighting says what the tables say. */
  ghost predicate Sights(s: Db, window: nat, x: Sighting) {
    && x.queue in s.queues && x.state == s.queues[x.queue].breaker
    && SeesWindow(s, x.queue, window, x.window) && SeesProbe(s, x.queue, s.queues[x.queue].openUntil, x.probe)
  }

  lemma OutcomesAreThere(execs: map<ExecId, Exec>, q: QueueId, from: Option<Time>, le: (ExecId, ExecId) -> bool,
                         window: nat, ids: seq<ExecId>, probes: seq<ExecId>)
    requires Query.FirstRows(FinishedOn(execs, q), le, window, ids)
        && Query.FirstRows(FinishedSince(execs, q, from), le, 1, probes)
    ensures forall i :: 0 <= i < |ids| ==> ids[i] in execs && execs[ids[i]].closed.Some?
    ensures forall i :: 0 <= i < |probes| ==> probes[i] in execs && execs[probes[i]].closed.Some?
  {
  }

  lemma Sighted(s: Db, window: nat, x: Sighting, ids: seq<ExecId>, probes: seq<ExecId>)
    requires x.queue in s.queues && x.state == s.queues[x.queue].breaker
    requires Query.FirstRows(FinishedOn(s.execs, x.queue), LatestFirst(s.execs), window, ids)
    requires Query.FirstRows(FinishedSince(s.execs, x.queue, s.queues[x.queue].openUntil), LatestFirst(s.execs), 1,
        probes)
    requires Reads(s.execs, ids, x.window) && Reads(s.execs, probes, if x.probe.None? then [] else [x.probe.value])
    ensures Sights(s, window, x)
  {
  }

  predicate SightedOnce(seen: seq<Sighting>) {
    forall i, k :: 0 <= i < k < |seen| ==> seen[i].queue != seen[k].queue
  }

  predicate SeenIn(seen: seq<Sighting>, q: QueueId) { exists i :: 0 <= i < |seen| && seen[i].queue == q }

  lemma StillSeen(seen: seq<Sighting>, x: Sighting, q: QueueId)
    requires SeenIn(seen, q)
    ensures SeenIn(seen + [x], q)
  {
    var i :| 0 <= i < |seen| && seen[i].queue == q;
    assert (seen + [x])[i].queue == q;
  }

  /** One sighting of every queue. */
  ghost predicate AllSighted(s: Db, window: nat, seen: seq<Sighting>) {
    && SightedOnce(seen) && (forall i :: 0 <= i < |seen| ==> Sights(s, window, seen[i]))
    && (forall q :: q in s.queues ==> SeenIn(seen, q))
  }

  lemma AllAreThere(s: Db, window: nat, seen: seq<Sighting>)
    requires AllSighted(s, window, seen)
    ensures SightedOnce(seen) && forall i :: 0 <= i < |seen| ==> seen[i].queue in s.queues
  {
    hide SeesWindow, SeesProbe;
    forall i | 0 <= i < |seen| ensures seen[i].queue in s.queues { assert Sights(s, window, seen[i]); }
  }

  function AfterVerdict(q: A.Queue, x: Sighting, trip: nat, until: Time): A.Queue {
    if Verdict(x, trip).None? then q else A.Flip(q, Verdict(x, trip).value, until)
  }

  lemma SwitchedRow(s: Db, x: Sighting, trip: nat, until: Time, q: QueueId)
    requires q in s.queues
    ensures var t := Switched(s, x, trip, until).queues;
            t.Keys == s.queues.Keys && t[q] == if q == x.queue then AfterVerdict(s.queues[q], x, trip, until)
              else s.queues[q]
  {
    hide Verdict, A.Flip;
  }

  lemma {:induction false} RowSwitched(s: Db, seen: seq<Sighting>, trip: nat, until: Time, q: QueueId)
    requires q in s.queues && SightedOnce(seen)
    ensures var t := SwitchEach(s, seen, trip, until).queues;
            && t.Keys == s.queues.Keys && (!SeenIn(seen, q) ==> t[q] == s.queues[q])
            && forall i :: 0 <= i < |seen| && seen[i].queue == q ==>
                t[q] == AfterVerdict(s.queues[q], seen[i], trip, until)
  {
    if seen != [] {
      var n := |seen| - 1;
      hide AfterVerdict, Switched;
      RowSwitched(s, seen[..n], trip, until, q);
      SwitchedRow(SwitchEach(s, seen[..n], trip, until), seen[n], trip, until, q);
      assert seen[n].queue == q ==> !SeenIn(seen[..n], q);
      if SeenIn(seen[..n], q) {
        StillSeen(seen[..n], seen[n], q);
        assert seen[..n] + [seen[n]] == seen;
      }
      assert forall i :: 0 <= i < n ==> seen[..n][i] == seen[i];
    }
  }

  lemma {:induction false} SwitchingKeepsQueues(s: Db, seen: seq<Sighting>, trip: nat, until: Time)
    ensures SwitchEach(s, seen, trip, until).queues.Keys == s.queues.Keys
  {
    if seen != [] {
      SwitchingKeepsQueues(s, seen[..|seen| - 1], trip, until);
      hide Verdict, A.Flip;
    }
  }

  lemma EachSwitchedOnce(s: Db, seen: seq<Sighting>, trip: nat, until: Time)
    requires SightedOnce(seen) && forall i :: 0 <= i < |seen| ==> seen[i].queue in s.queues
    ensures var t := SwitchEach(s, seen, trip, until).queues;
            && t.Keys == s.queues.Keys
            && forall i :: 0 <= i < |seen| ==>
                seen[i].queue in t && t[seen[i].queue] == AfterVerdict(s.queues[seen[i].queue], seen[i], trip, until)
  {
    SwitchingKeepsQueues(s, seen, trip, until);
    hide SwitchEach, AfterVerdict;
    forall i | 0 <= i < |seen| ensures
      var t, q := SwitchEach(s, seen, trip, until).queues, seen[i].queue;
      t.Keys == s.queues.Keys && t[q] == AfterVerdict(s.queues[q], seen[i], trip, until)
    {
      RowSwitched(s, seen, trip, until, seen[i].queue);
    }
  }

  // ---------------------------------------------------------------- in the columns' own words

  predicate FinishedOf(execs: map<ExecId, Exec>, q: QueueId, x: ExecId) {
    x in execs && execs[x].queue == q && execs[x].closed.Some?
  }

  /** w are the latest executions of the queue that have finished, `window` of them or all there are. */
  ghost predicate IsLatest(execs: map<ExecId, Exec>, q: QueueId, window: nat, w: set<ExecId>) {
    && |w| <= window && (forall x :: x in w ==> FinishedOf(execs, q, x))
    && (forall x, y :: FinishedOf(execs, q, y) && y !in w && x in w && FinishedOf(execs, q, x) ==>
          execs[y].closed.value.at <= execs[x].closed.value.at)
    && (|w| < window ==> forall y :: FinishedOf(execs, q, y) ==> y in w)
  }

  function FailedIn(execs: map<ExecId, Exec>, w: set<ExecId>): set<ExecId> {
    set x | x in w && x in execs && execs[x].closed.Some?
      && execs[x].closed.value.outcome in {RetryableError, PermanentError, TimedOut, Lost}
  }

  /** x finished last of all, and not before the time the breaker was to stay open until. */
  ghost predicate IsProbe(execs: map<ExecId, Exec>, q: QueueId, from: Option<Time>, x: ExecId) {
    && FinishedOf(execs, q, x) && from.Some? && execs[x].closed.value.at >= from.value
    && forall y :: FinishedOf(execs, q, y) ==> execs[y].closed.value.at <= execs[x].closed.value.at
  }

  predicate NoProbe(execs: map<ExecId, Exec>, q: QueueId, from: Option<Time>) {
    from.Some? ==> forall x :: x in execs && FinishedOf(execs, q, x) ==> execs[x].closed.value.at < from.value
  }

  /** A closed breaker opens if and only if `trip` of the latest executions failed. */
  ghost predicate ClosedRight(s: Db, q: QueueId, window: nat, trip: nat, until: Time, r: A.Queue)
    requires q in s.queues
  {
    exists w :: IsLatest(s.execs, q, window, w)
      && r == if |FailedIn(s.execs, w)| >= trip
              then s.queues[q].(breaker := A.Open, openUntil := Some(until), probeBudget := 0) else s.queues[q]
  }

  /** A half-open breaker closes after a success and opens again after a failure. */
  ghost predicate HalfOpenRight(s: Db, q: QueueId, until: Time, r: A.Queue)
    requires q in s.queues
  {
    var row := s.queues[q];
    || (NoProbe(s.execs, q, row.openUntil) && r == row)
    || exists x :: IsProbe(s.execs, q, row.openUntil, x)
         && r == match s.execs[x].closed.value.outcome
                 case Success => row.(breaker := A.Closed, openUntil := None, probeBudget := 0)
                 case RetryableError => row.(breaker := A.Open, openUntil := Some(until), probeBudget := 0)
                 case PermanentError => row.(breaker := A.Open, openUntil := Some(until), probeBudget := 0)
                 case TimedOut => row.(breaker := A.Open, openUntil := Some(until), probeBudget := 0)
                 case Lost => row.(breaker := A.Open, openUntil := Some(until), probeBudget := 0)
                 case Fenced => row
                 case CancelledRun => row
                 case Snoozed => row
  }

  /** Where a round of the sweep has to leave the row of a queue. */
  ghost predicate RoundRight(s: Db, q: QueueId, window: nat, trip: nat, until: Time, r: A.Queue)
    requires q in s.queues
  {
    match s.queues[q].breaker
    case Closed => ClosedRight(s, q, window, trip, until, r)
    case HalfOpen => HalfOpenRight(s, q, until, r)
    case Open => r == s.queues[q]
  }

  lemma FailedGrow(execs: map<ExecId, Exec>, w: set<ExecId>, x: ExecId, o: Outcome)
    requires x in execs && execs[x].closed.Some? && execs[x].closed.value.outcome == o && x !in w
    ensures FailedIn(execs, w + {x}) == if IsFailure(o) then FailedIn(execs, w) + {x} else FailedIn(execs, w)
    ensures |FailedIn(execs, w + {x})| == |FailedIn(execs, w)| + if IsFailure(o) then 1 else 0
  {
  }

  lemma {:induction false} FailuresAreCounted(execs: map<ExecId, Exec>, ids: seq<ExecId>, outcomes: seq<Outcome>)
    requires Reads(execs, ids, outcomes) && NoDuplicates(ids)
    ensures Failures(outcomes) == |FailedIn(execs, IdsOf(ids))|
  {
    if ids == [] {
      assert FailedIn(execs, IdsOf(ids)) == {};
    } else {
      var n := |ids| - 1;
      FailuresAreCounted(execs, ids[..n], outcomes[..n]);
      assert IdsOf(ids) == IdsOf(ids[..n]) + {ids[n]} && ids[n] !in IdsOf(ids[..n]);
      hide FailedIn, IsFailure;
      FailedGrow(execs, IdsOf(ids[..n]), ids[n], outcomes[n]);
    }
  }

  lemma WindowIsLatest(execs: map<ExecId, Exec>, q: QueueId, window: nat, ids: seq<ExecId>)
    requires Query.FirstRows(FinishedOn(execs, q), LatestFirst(execs), window, ids)
    ensures IsLatest(execs, q, window, IdsOf(ids))
  {
    var le, w := LatestFirst(execs), IdsOf(ids);
    assert forall x :: FinishedOf(execs, q, x) <==> x in FinishedOn(execs, q);
    DistinctIds(ids);
    forall x, y | FinishedOf(execs, q, y) && y !in w && x in w
      ensures FinishedOf(execs, q, x) && execs[y].closed.value.at <= execs[x].closed.value.at
    {
      assert Query.NoneAfter(le, ids, y);
      assert le(x, y) && x in FinishedOn(execs, q);
    }
  }

  lemma ClosedSighting(s: Db, window: nat, x: Sighting, trip: nat, until: Time)
    requires Sights(s, window, x) && x.state.Closed?
    ensures ClosedRight(s, x.queue, window, trip, until, AfterVerdict(s.queues[x.queue], x, trip, until))
  {
    var ids :| Query.FirstRows(FinishedOn(s.execs, x.queue), LatestFirst(s.execs), window, ids)
        && Reads(s.execs, ids, x.window);
    WindowIsLatest(s.execs, x.queue, window, ids);
    FailuresAreCounted(s.execs, ids, x.window);
    hide IsLatest, FailedIn, Failures, Query.FirstRows, Reads;
  }

  lemma LatestSince(execs: map<ExecId, Exec>, q: QueueId, from: Option<Time>, ids: seq<ExecId>)
    requires Query.FirstRows(FinishedSince(execs, q, from), LatestFirst(execs), 1, ids)
    ensures ids == [] ==> NoProbe(execs, q, from)
    ensures ids != [] ==> IsProbe(execs, q, from, ids[0])
  {
    var le := LatestFirst(execs);
    assert forall x :: x in FinishedSince(execs, q, from) <==>
      FinishedOf(execs, q, x) && from.Some? && execs[x].closed.value.at >= from.value;
    if ids != [] {
      assert ids[0] in FinishedSince(execs, q, from);
      forall y | FinishedOf(execs, q, y) ensures execs[y].closed.value.at <= execs[ids[0]].closed.value.at {
        if y in FinishedSince(execs, q, from) && y !in ids {
          assert Query.NoneAfter(le, ids, y);
          assert le(ids[0], y);
        }
      }
    }
  }

  lemma HalfOpenSighting(s: Db, window: nat, x: Sighting, trip: nat, until: Time)
    requires Sights(s, window, x) && x.state.HalfOpen?
    ensures HalfOpenRight(s, x.queue, until, AfterVerdict(s.queues[x.queue], x, trip, until))
  {
    var from := s.queues[x.queue].openUntil;
    var ids :| Query.FirstRows(FinishedSince(s.execs, x.queue, from), LatestFirst(s.execs), 1, ids)
      && Reads(s.execs, ids, if x.probe.None? then [] else [x.probe.value]);
    LatestSince(s.execs, x.queue, from, ids);
    if ids != [] {
      assert x.probe == Some(s.execs[ids[0]].closed.value.outcome);
      hide NoProbe;
      assert IsProbe(s.execs, x.queue, from, ids[0]);
    }
    hide IsProbe, Query.FirstRows, SeesWindow, Failures;
  }

  /** Every queue ends where its own columns and executions send it. */
  lemma SightingRight(s: Db, window: nat, x: Sighting, trip: nat, until: Time)
    requires Sights(s, window, x)
    ensures x.queue in s.queues
        && RoundRight(s, x.queue, window, trip, until, AfterVerdict(s.queues[x.queue], x, trip, until))
  {
    match x.state
    case Closed => hide ClosedRight, AfterVerdict, SeesWindow, SeesProbe; ClosedSighting(s, window, x, trip, until);
    case HalfOpen => hide HalfOpenRight, AfterVerdict, SeesWindow,
        SeesProbe; HalfOpenSighting(s, window, x, trip, until);
    case Open => hide SeesWindow, SeesProbe;
  }

  // ---------------------------------------------------------------- the number of switches

  lemma SwitchChanges(q: A.Queue, x: Sighting, trip: nat, until: Time)
    requires x.state == q.breaker
    ensures Verdict(x, trip).Some? <==> AfterVerdict(q, x, trip, until) != q
  {
    hide Failures;
  }

  function Changed(s: Db, t: Db): set<QueueId> { set q | q in s.queues && q in t.queues && t.queues[q] != s.queues[q] }

  lemma {:induction false} SwitchesAreCounted(s: Db, seen: seq<Sighting>, trip: nat, until: Time)
    requires SightedOnce(seen)
    requires forall i :: 0 <= i < |seen| ==>
        seen[i].queue in s.queues && seen[i].state == s.queues[seen[i].queue].breaker
    ensures CountSwitched(s, seen, trip, until) == |Changed(s, SwitchEach(s, seen, trip, until))|
  {
    if seen == [] {
      assert Changed(s, s) == {};
    } else {
      var n := |seen| - 1;
      var x, u := seen[n], SwitchEach(s, seen[..n], trip, until);
      var t := Switched(u, x, trip, until);
      SwitchesAreCounted(s, seen[..n], trip, until);
      RowSwitched(s, seen[..n], trip, until, x.queue);
      assert !SeenIn(seen[..n], x.queue);
      SwitchChanges(s.queues[x.queue], x, trip, until);
      forall q | q in s.queues ensures q in u.queues && q in t.queues
        && t.queues[q] == if q == x.queue then AfterVerdict(u.queues[q], x, trip, until) else u.queues[q]
      {
        RowSwitched(s, seen[..n], trip, until, q);
        SwitchedRow(u, x, trip, until, q);
      }
      hide Verdict, AfterVerdict, Switched, SwitchEach;
      assert x.queue !in Changed(s, u);
      assert Changed(s, t) == if Verdict(x, trip).Some? then Changed(s, u) + {x.queue} else Changed(s, u);
    }
  }

  /** A round over one sighting of every queue leaves every row right and counts those it changed. */
  lemma RoundIsRight(s: Db, window: nat, seen: seq<Sighting>, trip: nat, until: Time)
    requires AllSighted(s, window, seen)
    ensures var t := SwitchEach(s, seen, trip, until);
            && t.queues.Keys == s.queues.Keys
            && (forall q :: q in s.queues ==> RoundRight(s, q, window, trip, until, t.queues[q]))
            && CountSwitched(s, seen, trip, until) == |Changed(s, t)|
  {
    AllAreThere(s, window, seen);
    EachSwitchedOnce(s, seen, trip, until);
    StatesSeen(s, window, seen);
    hide Sights, SwitchEach, CountSwitched, AfterVerdict, RoundRight, Changed;
    SwitchesAreCounted(s, seen, trip, until);
    forall q | q in s.queues ensures RoundRight(s, q, window, trip, until, SwitchEach(s, seen, trip, until).queues[q]) {
      assert SeenIn(seen, q);
      var i :| 0 <= i < |seen| && seen[i].queue == q;
      SightingRight(s, window, seen[i], trip, until);
    }
  }

  lemma StatesSeen(s: Db, window: nat, seen: seq<Sighting>)
    requires AllSighted(s, window, seen)
    ensures forall i :: 0 <= i < |seen| ==>
        seen[i].queue in s.queues && seen[i].state == s.queues[seen[i].queue].breaker
  {
    hide SeesWindow, SeesProbe;
    forall i | 0 <= i < |seen| ensures seen[i].queue in s.queues && seen[i].state == s.queues[seen[i].queue].breaker {
      assert Sights(s, window, seen[i]);
    }
  }
}
