/** The cron materialiser: each sweep walks the due ticks of a schedule, fires at most one job and
    accounts for the rest.

    The cron library is an arbitrary next-tick function; `None` is an expression or time zone it
    cannot read. */
module Cron {
  import opened Schema
  import Query

  type NextTick = Time -> Option<Time>

  const CutOff: nat := 100000

  datatype Catchup = FireOnce | SkipMissed
  datatype Fate = Fired | Overlapped | Skipped

  /** A schedules row with the jobs and events it has produced.  `origin` and `fates` are history:
      the first tick, and what became of every tick consumed since. */
  datatype Schedule = Schedule(
    enabled: bool, nextRunAt: Time, lastFiredFor: Option<Time>, catchup: Catchup, skipOverlap: bool,
    jobs: set<Time>, fired: int, overlapped: int, skipped: int, errors: int,
    origin: Time, fates: seq<Fate>)

  // ---------------------------------------------------------------- the chain of ticks

  /** The k-th tick after the origin, if the library gets that far. */
  function Tick(next: NextTick, origin: Time, k: nat): Option<Time> {
    if k == 0 then Some(origin)
    else
      var t := Tick(next, origin, k - 1);
      if t.None? then None else next(t.value)
  }

  ghost predicate StrictlyIncreasing(next: NextTick) {
    forall t :: next(t).Some? ==> next(t).value > t
  }

  lemma {:induction false} TicksJoin(next: NextTick, origin: Time, i: nat, k: nat)
    requires Tick(next, origin, i).Some?
    ensures Tick(next, origin, i + k) == Tick(next, Tick(next, origin, i).value, k)
  {
    if k > 0 {
      TicksJoin(next, origin, i, k - 1);
    }
  }

  lemma {:induction false} TicksIncrease(next: NextTick, origin: Time, i: nat, j: nat)
    requires StrictlyIncreasing(next) && i < j && Tick(next, origin, j).Some?
    ensures Tick(next, origin, i).Some? && Tick(next, origin, i).value < Tick(next, origin, j).value
  {
    if i < j - 1 {
      TicksIncrease(next, origin, i, j - 1);
    }
  }

  // ---------------------------------------------------------------- one sweep of one schedule

  datatype Walked = Unreadable | Reached(last: Time, count: nat)

  /** The tick loop from tick t, with `count` ticks behind it and `last` the latest of them. */
  function Walk(next: NextTick, t: Time, last: Time, count: nat, now: Time): Walked
    requires count <= CutOff
    decreases CutOff - count
  {
    if t > now then Reached(last, count)
    else if next(t).None? then Unreadable
    else if count + 1 > CutOff then Reached(t, count + 1)
    else Walk(next, next(t).value, t, count + 1, now)
  }

  predicate Due(s: Schedule, at: Time) { s.enabled && s.nextRunAt <= at }

  function Disable(s: Schedule): Schedule { s.(enabled := false, errors := s.errors + 1) }

  function Copies(f: Fate, n: nat): seq<Fate> { seq(n, _ => f) }

  /** The ticks a sweep passes over: those it missed, then the last one unless it is among them. */
  function SkippedBy(s: Schedule, count: nat): nat {
    if count <= 1 then 0 else if s.catchup.FireOnce? then count - 1 else count
  }

  predicate Tries(s: Schedule, count: nat) { count <= 1 || s.catchup.FireOnce? }

  function Advance(s: Schedule, last: Time, count: nat, clear: bool, nextFuture: Time): Schedule {
    var blocked := Tries(s, count) && s.skipOverlap && !clear;
    var fire := Tries(s, count) && !blocked;
    var inserted := fire && last !in s.jobs;
    s.(nextRunAt := nextFuture,
       lastFiredFor := if inserted then Some(last) else s.lastFiredFor,
       jobs := if inserted then s.jobs + {last} else s.jobs,
       fired := s.fired + if inserted then 1 else 0,
       overlapped := s.overlapped + if blocked then 1 else 0,
       skipped := s.skipped + SkippedBy(s, count),
       fates := s.fates + Copies(Skipped, SkippedBy(s, count)) + if fire then [Fired] else if blocked then [Overlapped]
         else [])
  }

  /** What the sweep makes of a due schedule; `clear` is the answer of the overlap query. */
  function Sweep(s: Schedule, next: NextTick, now: Time, clear: bool): Schedule {
    var w := Walk(next, s.nextRunAt, s.nextRunAt, 0, now);
    if w.Unreadable? || next(w.last).None? then Disable(s)
    else Advance(s, w.last, w.count, clear, next(w.last).value)
  }

  /** The same, as the code does it. */
  method SweepOne(s: Schedule, next: NextTick, now: Time, clear: bool) returns (r: Schedule, materialized: nat)
    ensures r == Sweep(s, next, now, clear)
    ensures materialized == r.fired - s.fired
  {
    r := s;
    var last, count, t := s.nextRunAt, 0, s.nextRunAt;
    while t <= now
      invariant count <= CutOff
      invariant r == s
      invariant Walk(next, t, last, count, now) == Walk(next, s.nextRunAt, s.nextRunAt, 0, now)
      decreases CutOff - count
    {
      last := t;
      count := count + 1;
      var nt := next(t);
      if nt.None? {
        r := r.(enabled := false, errors := r.errors + 1);
        return r, 0;
      }
      t := nt.value;
      if count > CutOff { break; }
    }
    var nextFuture := next(last);
    if nextFuture.None? {
      r := r.(enabled := false, errors := r.errors + 1);
      return r, 0;
    }
    var target, skipped, fire := last, 0, true;
    if count > 1 {
      if s.catchup.FireOnce? {
        skipped := count - 1;
      } else {
        fire := false;
        skipped := count;
      }
    }
    var overlapSkip := false;
    if fire && s.skipOverlap && !clear {
      fire := false;
      overlapSkip := true;
    }
    materialized := 0;
    var firedFor: Option<Time> := None;
    var fate: seq<Fate> := [];
    if fire {
      fate := [Fired];
      if target !in r.jobs {
        r := r.(jobs := r.jobs + {target}, fired := r.fired + 1);
        materialized := 1;
        firedFor := Some(target);
      }
    }
    if overlapSkip {
      fate := [Overlapped];
      r := r.(overlapped := r.overlapped + 1);
    }
    if skipped > 0 {
      r := r.(skipped := r.skipped + skipped);
    }
    r := r.(nextRunAt := nextFuture.value,
            lastFiredFor := if firedFor.Some? then firedFor else r.lastFiredFor,
            fates := r.fates + Copies(Skipped, skipped) + fate);
  }

  // ---------------------------------------------------------------- what the walk finds

  /** The walk stops at the first tick after now, or one past the cut-off. */
  lemma {:induction false} WalkIsExact(next: NextTick, origin: Time, count: nat, now: Time)
    requires count <= CutOff && Tick(next, origin, count).Some?
    requires forall k: nat :: k < count ==> Tick(next, origin, k).Some? && Tick(next, origin, k).value <= now
    ensures var last := if count == 0 then origin else Tick(next, origin, count - 1).value;
            var w := Walk(next, Tick(next, origin, count).value, last, count, now);
            w.Reached? ==>
              && w.count <= CutOff + 1
              && Some(w.last) == Tick(next, origin, Max(w.count, 1) - 1)
              && (forall k: nat :: k < w.count ==> Tick(next, origin, k).Some? && Tick(next, origin, k).value <= now)
              && (w.count <= CutOff ==> Tick(next, origin, w.count).Some? && Tick(next, origin, w.count).value > now)
    decreases CutOff - count
  {
    var t := Tick(next, origin, count).value;
    if t <= now && next(t).Some? && count + 1 <= CutOff {
      assert Tick(next, origin, count + 1) == next(t);
      WalkIsExact(next, origin, count + 1, now);
    }
  }

  /** The ticks a sweep of the schedule would consume: none, if the library fails it. */
  function Consumed(s: Schedule, next: NextTick, now: Time): nat {
    var w := Walk(next, s.nextRunAt, s.nextRunAt, 0, now);
    if w.Unreadable? || next(w.last).None? then 0 else Max(w.count, 1)
  }

  function Total(fates: seq<Fate>, f: Fate): int {
    if fates == [] then 0 else Total(fates[..|fates| - 1], f) + if fates[|fates| - 1] == f then 1 else 0
  }

  lemma {:induction false} TotalJoin(a: seq<Fate>, b: seq<Fate>, f: Fate)
    ensures Total(a + b, f) == Total(a, f) + Total(b, f)
  {
    if b == [] {
      assert a + b == a;
    } else {
      TotalJoin(a, b[..|b| - 1], f);
      assert (a + b)[..|a + b| - 1] == a + b[..|b| - 1];
    }
  }

  lemma {:induction false} TotalCopies(g: Fate, n: nat, f: Fate)
    ensures Total(Copies(g, n), f) == if f == g then n else 0
  {
    if n > 0 {
      TotalCopies(g, n - 1, f);
      assert Copies(g, n)[..n - 1] == Copies(g, n - 1);
    }
  }

  // ---------------------------------------------------------------- the account

  predicate IsFiredTick(s: Schedule, next: NextTick, t: Time, k: nat) {
    k < |s.fates| && s.fates[k].Fired? && Tick(next, s.origin, k) == Some(t)
  }

  predicate TotalsRight(s: Schedule) {
    && s.fired == Total(s.fates, Fired) && s.overlapped == Total(s.fates, Overlapped)
    && s.skipped == Total(s.fates, Skipped)
    && |s.jobs| == s.fired
  }

  ghost predicate JobsRight(s: Schedule, next: NextTick) {
    && (forall k: nat :: k < |s.fates| && s.fates[k].Fired? ==>
        Tick(next, s.origin, k).Some? && Tick(next, s.origin, k).value in s.jobs)
    && (forall t :: t in s.jobs ==> exists k: nat :: IsFiredTick(s, next, t, k))
  }

  /** Every tick from the origin up to next_run_at has one fate; the counters and the jobs are
      exactly what the fates say. */
  ghost predicate AccountOk(s: Schedule, next: NextTick) {
    Tick(next, s.origin, |s.fates|) == Some(s.nextRunAt) && TotalsRight(s) && JobsRight(s, next)
  }

  /** The sweep reaches the tick it means to fire at the index it has in the chain. */
  lemma SweepReaches(s: Schedule, next: NextTick, now: Time)
    requires Tick(next, s.origin, |s.fates|) == Some(s.nextRunAt) && Consumed(s, next, now) > 0
    ensures var w, n := Walk(next, s.nextRunAt, s.nextRunAt, 0, now), Consumed(s, next, now);
            && Tick(next, s.origin, |s.fates| + n - 1) == Some(w.last)
            && Tick(next, s.origin, |s.fates| + n) == next(w.last)
            && (n <= CutOff ==> next(w.last).value > now || w.count == 0)
            && (w.count == 0 ==> s.nextRunAt > now)
  {
    var w, n := Walk(next, s.nextRunAt, s.nextRunAt, 0, now), Consumed(s, next, now);
    WalkIsExact(next, s.nextRunAt, 0, now);
    TicksJoin(next, s.origin, |s.fates|, n - 1);
    TicksJoin(next, s.origin, |s.fates|, n);
    assert Tick(next, s.nextRunAt, n) == next(w.last);
    hide Walk;
  }

  /** The unique index on (schedule, tick) never refuses the insert: the tick is new. */
  lemma NoConflict(s: Schedule, next: NextTick, now: Time)
    requires StrictlyIncreasing(next) && AccountOk(s, next) && Consumed(s, next, now) > 0
    ensures Walk(next, s.nextRunAt, s.nextRunAt, 0, now).last !in s.jobs
  {
    var w, n := Walk(next, s.nextRunAt, s.nextRunAt, 0, now), Consumed(s, next, now);
    SweepReaches(s, next, now);
    hide Walk, Consumed;
    forall t | t in s.jobs ensures t != w.last {
      var k: nat :| IsFiredTick(s, next, t, k);
      TicksIncrease(next, s.origin, k, |s.fates| + n - 1);
    }
  }

  /** The fate of the last tick a sweep reaches, unless it is skipped with the others. */
  function LastFate(s: Schedule, count: nat, clear: bool): seq<Fate> {
    if !Tries(s, count) then [] else if s.skipOverlap && !clear then [Overlapped] else [Fired]
  }

  lemma AdvanceFates(s: Schedule, last: Time, count: nat, clear: bool, nf: Time)
    ensures var r := Advance(s, last, count, clear, nf);
            && r.fates == s.fates + Copies(Skipped, SkippedBy(s, count)) + LastFate(s, count, clear)
            && |r.fates| == |s.fates| + Max(count, 1) && s.fates <= r.fates
            && (forall f :: Total(r.fates, f) ==
                  Total(s.fates, f) + (if f.Skipped? then SkippedBy(s, count) else 0)
                    + if f in LastFate(s, count, clear) then 1 else 0)
  {
    var k, end := SkippedBy(s, count), LastFate(s, count, clear);
    forall f ensures Total(s.fates + Copies(Skipped, k) + end, f) ==
               Total(s.fates, f) + (if f.Skipped? then k else 0) + if f in end then 1 else 0 {
      TotalJoin(s.fates, Copies(Skipped, k), f);
      TotalJoin(s.fates + Copies(Skipped, k), end, f);
      TotalCopies(Skipped, k, f);
      assert end != [] ==> end[..|end| - 1] == [];
    }
  }

  lemma AdvanceJobs(s: Schedule, r: Schedule, next: NextTick, last: Time, mark: seq<Fate>)
    requires JobsRight(s, next) && r.origin == s.origin
    requires r.fates == s.fates + mark && mark != [] && (forall k :: 0 <= k < |mark| - 1 ==> !mark[k].Fired?)
    requires Tick(next, s.origin, |r.fates| - 1) == Some(last)
    requires r.jobs == if mark[|mark| - 1].Fired? then s.jobs + {last} else s.jobs
    ensures JobsRight(r, next)
  {
    hide Tick, Total;
    forall t | t in r.jobs ensures exists i: nat :: IsFiredTick(r, next, t, i) {
      if t in s.jobs {
        var i: nat :| IsFiredTick(s, next, t, i);
        assert IsFiredTick(r, next, t, i);
      } else {
        assert IsFiredTick(r, next, t, |r.fates| - 1);
      }
    }
  }

  lemma AdvanceTotals(s: Schedule, last: Time, count: nat, clear: bool, nf: Time)
    requires TotalsRight(s) && last !in s.jobs
    ensures TotalsRight(Advance(s, last, count, clear, nf))
  {
    AdvanceFates(s, last, count, clear, nf);
    hide Total, Copies;
  }

  lemma MarkEnds(s: Schedule, count: nat, clear: bool)
    ensures var mark := Copies(Skipped, SkippedBy(s, count)) + LastFate(s, count, clear);
            && mark != [] && (forall k :: 0 <= k < |mark| - 1 ==> !mark[k].Fired?)
            && (mark[|mark| - 1].Fired? <==> LastFate(s, count, clear) == [Fired])
  {
  }

  lemma AdvanceAccounts(s: Schedule, next: NextTick, last: Time, count: nat, clear: bool, nf: Time)
    requires AccountOk(s, next) && last !in s.jobs
    requires Tick(next, s.origin, |s.fates| + Max(count, 1) - 1) == Some(last)
    requires Tick(next, s.origin, |s.fates| + Max(count, 1)) == Some(nf)
    ensures AccountOk(Advance(s, last, count, clear, nf), next)
  {
    hide Tick, Total, TotalsRight, JobsRight, Copies;
    var r := Advance(s, last, count, clear, nf);
    AdvanceFates(s, last, count, clear, nf);
    AdvanceTotals(s, last, count, clear, nf);
    MarkEnds(s, count, clear);
    var mark := Copies(Skipped, SkippedBy(s, count)) + LastFate(s, count, clear);
    assert r.fates == s.fates + mark;
    AdvanceJobs(s, r, next, last, mark);
  }

  /** Sweeping keeps the account, and consumes a contiguous stretch of the chain: all due ticks, or
      the one the schedule was due for when the clock was first read before it. */
  lemma SweepAccounts(s: Schedule, next: NextTick, now: Time, clear: bool)
    requires StrictlyIncreasing(next) && AccountOk(s, next)
    ensures AccountOk(Sweep(s, next, now, clear), next)
    ensures s.fates <= Sweep(s, next, now, clear).fates
    ensures |Sweep(s, next, now, clear).fates| == |s.fates| + Consumed(s, next, now)
  {
    if Consumed(s, next, now) > 0 {
      SweepReaches(s, next, now);
      NoConflict(s, next, now);
      var w := Walk(next, s.nextRunAt, s.nextRunAt, 0, now);
      hide Walk, AccountOk, Advance;
      AdvanceAccounts(s, next, w.last, w.count, clear, next(w.last).value);
      AdvanceFates(s, w.last, w.count, clear, next(w.last).value);
    } else {
      assert forall t, k: nat :: IsFiredTick(s, next, t, k) ==> IsFiredTick(Disable(s), next, t, k);
    }
  }

  /** A sweep that moves a schedule leaves it due in the future, unless it was cut off. */
  lemma SweepReachesFuture(s: Schedule, next: NextTick, now: Time, clear: bool)
    requires StrictlyIncreasing(next) && AccountOk(s, next) && Consumed(s, next, now) > 0
    ensures Sweep(s, next, now, clear).nextRunAt > s.nextRunAt
    ensures Sweep(s, next, now, clear).nextRunAt <= now ==> Consumed(s, next, now) == CutOff + 1
    ensures Consumed(s, next, now) <= CutOff + 1
  {
    var n := Consumed(s, next, now);
    SweepReaches(s, next, now);
    WalkIsExact(next, s.nextRunAt, 0, now);
    TicksIncrease(next, s.origin, |s.fates|, |s.fates| + n);
    hide Walk;
  }

  // ---------------------------------------------------------------- what a policy makes of the ticks

  /** The next n ticks are due and the one after them is not, or the cut-off ends the stretch; n is one
      also when the clock was read before the tick the schedule is due for. */
  ghost predicate Takes(s: Schedule, next: NextTick, now: Time, n: nat) {
    && 1 <= n <= 100001 && (forall k: nat :: k <= n ==> Tick(next, s.nextRunAt, k).Some?)
    && if s.nextRunAt > now then n == 1
       else
         && (forall k: nat :: k < n ==> Tick(next, s.nextRunAt, k).value <= now)
         && (n <= 100000 ==> Tick(next, s.nextRunAt, n).value > now)
  }

  /** The library fails on the tick after the first n, and the sweep gets that far. */
  ghost predicate Breaks(s: Schedule, next: NextTick, now: Time, n: nat) {
    && 1 <= n <= 100001 && (forall k: nat :: k < n ==> Tick(next, s.nextRunAt, k).Some?)
    && Tick(next, s.nextRunAt, n).None?
    && if s.nextRunAt > now then n == 1 else forall k: nat :: k < n ==> Tick(next, s.nextRunAt, k).value <= now
  }

  lemma {:induction false} WalkTakes(s: Schedule, next: NextTick, now: Time, n: nat, k: nat)
    requires Takes(s, next, now, n) && s.nextRunAt <= now && k <= n && k <= CutOff
    ensures var last := if k == 0 then s.nextRunAt else Tick(next, s.nextRunAt, k - 1).value;
            Walk(next, Tick(next, s.nextRunAt, k).value, last, k, now) ==
              Reached(Tick(next, s.nextRunAt, n - 1).value, n)
    decreases n - k
  {
    var t := Tick(next, s.nextRunAt, k).value;
    if k < n {
      assert t <= now && Tick(next, s.nextRunAt, k + 1) == next(t);
      if k < CutOff { WalkTakes(s, next, now, n, k + 1); }
    }
  }

  lemma {:induction false} WalkBreaks(s: Schedule, next: NextTick, now: Time, n: nat, k: nat)
    requires Breaks(s, next, now, n) && s.nextRunAt <= now && k < n
    ensures var last := if k == 0 then s.nextRunAt else Tick(next, s.nextRunAt, k - 1).value;
            var w := Walk(next, Tick(next, s.nextRunAt, k).value, last, k, now);
            w.Unreadable? || next(w.last).None?
    decreases n - k
  {
    var t := Tick(next, s.nextRunAt, k).value;
    assert Tick(next, s.nextRunAt, k + 1) == next(t);
    if k + 1 < n { WalkBreaks(s, next, now, n, k + 1); }
  }

  /** A sweep that takes n ticks skips all but the last, and fires a job for the last unless it would
      overlap; with a backlog and a policy that skips it, all n are skipped and none fires. */
  lemma PolicyDecides(s: Schedule, next: NextTick, now: Time, clear: bool, n: nat)
    requires Takes(s, next, now, n)
    ensures var r, last := Sweep(s, next, now, clear), Tick(next, s.nextRunAt, n - 1).value;
            && r.nextRunAt == Tick(next, s.nextRunAt, n).value && r.enabled == s.enabled && r.errors == s.errors
            && (n > 1 && s.catchup.SkipMissed? ==>
                 && r.jobs == s.jobs && r.fired == s.fired && r.overlapped == s.overlapped && r.skipped == s.skipped + n
                 && r.lastFiredFor == s.lastFiredFor)
            && (n == 1 || s.catchup.FireOnce? ==>
                 && r.skipped == s.skipped + n - 1
                 && (s.skipOverlap && !clear ==>
                      && r.jobs == s.jobs && r.fired == s.fired && r.overlapped == s.overlapped + 1
                      && r.lastFiredFor == s.lastFiredFor)
                 && (!s.skipOverlap || clear ==>
                      && r.jobs == s.jobs + {last} && r.overlapped == s.overlapped
                      && (last in s.jobs ==> r.fired == s.fired && r.lastFiredFor == s.lastFiredFor)
                      && (last !in s.jobs ==> r.fired == s.fired + 1 && r.lastFiredFor == Some(last))))
  {
    var last := Tick(next, s.nextRunAt, n - 1).value;
    assert Tick(next, s.nextRunAt, n) == next(last);
    assert Tick(next, s.nextRunAt, 0) == Some(s.nextRunAt);
    if s.nextRunAt <= now { WalkTakes(s, next, now, n, 0); }
    assert Walk(next, s.nextRunAt, s.nextRunAt, 0, now) == Reached(last, if s.nextRunAt > now then 0 else n);
    hide Walk, Tick;
  }

  /** A schedule the library cannot carry on is disabled, and nothing else about it changes. */
  lemma UnreadableIsDisabled(s: Schedule, next: NextTick, now: Time, clear: bool, n: nat)
    requires Breaks(s, next, now, n)
    ensures Sweep(s, next, now, clear) == s.(enabled := false, errors := s.errors + 1)
  {
    assert Tick(next, s.nextRunAt, 0) == Some(s.nextRunAt);
    if s.nextRunAt <= now {
      WalkBreaks(s, next, now, n, 0);
    } else {
      assert Tick(next, s.nextRunAt, 1) == next(s.nextRunAt);
    }
  }

  /** Every schedule is one or the other. */
  lemma TakesOrBreaks(s: Schedule, next: NextTick, now: Time)
    ensures exists n: nat :: Takes(s, next, now, n) || Breaks(s, next, now, n)
  {
    assert Tick(next, s.nextRunAt, 0) == Some(s.nextRunAt);
    if s.nextRunAt > now {
      assert Tick(next, s.nextRunAt, 1) == next(s.nextRunAt);
      assert Takes(s, next, now, 1) || Breaks(s, next, now, 1);
    } else {
      FirstStop(s, next, now, 1);
    }
  }

  lemma {:induction false} FirstStop(s: Schedule, next: NextTick, now: Time, k: nat)
    requires 1 <= k <= 100001 && s.nextRunAt <= now
    requires forall i: nat :: i < k ==> Tick(next, s.nextRunAt, i).Some? && Tick(next, s.nextRunAt, i).value <= now
    ensures exists n: nat :: Takes(s, next, now, n) || Breaks(s, next, now, n)
    decreases 100001 - k
  {
    hide Tick;
    var t := Tick(next, s.nextRunAt, k);
    if t.None? {
      assert Breaks(s, next, now, k);
    } else if t.value > now || k == 100001 {
      assert Takes(s, next, now, k);
    } else {
      FirstStop(s, next, now, k + 1);
    }
  }

  // ---------------------------------------------------------------- runs of sweeps

  datatype Visit = Visit(at: Time, now: Time, clear: bool)

  function Step(s: Schedule, next: NextTick, v: Visit): Schedule {
    if Due(s, v.at) then Sweep(s, next, v.now, v.clear) else s
  }

  /** The sweep reads the clock before the query that selects due schedules reads it again. */
  predicate IsRun(ss: seq<Schedule>, next: NextTick, vs: seq<Visit>) {
    && |ss| == |vs| + 1
    && forall i :: 0 <= i < |vs| ==> vs[i].now <= vs[i].at && ss[i + 1] == Step(ss[i], next, vs[i])
  }

  predicate NewSchedule(s: Schedule) {
    s.jobs == {} && s.fates == [] && s.fired == 0 && s.overlapped == 0 && s.skipped == 0 && s.origin == s.nextRunAt
  }

  lemma {:induction false} RunAccounts(ss: seq<Schedule>, next: NextTick, vs: seq<Visit>, i: nat)
    requires StrictlyIncreasing(next) && IsRun(ss, next, vs) && NewSchedule(ss[0]) && i < |ss|
    ensures AccountOk(ss[i], next)
  {
    if i > 0 {
      RunAccounts(ss, next, vs, i - 1);
      hide Sweep, AccountOk;
      SweepAccounts(ss[i - 1], next, vs[i - 1].now, vs[i - 1].clear);
    }
  }

  /** Over any run of sweeps every tick before next_run_at was consumed exactly once: fired,
      skipped for overlap or counted as skipped; and no tick was fired twice. */
  lemma EveryTickAccounted(ss: seq<Schedule>, next: NextTick, vs: seq<Visit>, i: nat)
    requires StrictlyIncreasing(next) && IsRun(ss, next, vs) && NewSchedule(ss[0]) && i < |ss|
    ensures Tick(next, ss[i].origin, |ss[i].fates|) == Some(ss[i].nextRunAt)
    ensures ss[i].fired + ss[i].overlapped + ss[i].skipped == |ss[i].fates|
    ensures |ss[i].jobs| == ss[i].fired
    ensures i > 0 ==> ss[i - 1].fates <= ss[i].fates
    ensures forall t :: t in ss[i].jobs <==> exists k: nat :: IsFiredTick(ss[i], next, t, k)
  {
    RunAccounts(ss, next, vs, i);
    TotalsAddUp(ss[i].fates);
    if i > 0 {
      RunAccounts(ss, next, vs, i - 1);
      hide Sweep, AccountOk;
      SweepAccounts(ss[i - 1], next, vs[i - 1].now, vs[i - 1].clear);
    }
    hide IsRun;
    assert AccountOk(ss[i], next);
    forall t | exists k: nat :: IsFiredTick(ss[i], next, t, k) ensures t in ss[i].jobs {
      var k: nat :| IsFiredTick(ss[i], next, t, k);
    }
  }

  lemma {:induction false} TotalsAddUp(fates: seq<Fate>)
    ensures Total(fates, Fired) + Total(fates, Overlapped) + Total(fates, Skipped) == |fates|
  {
    if fates != [] {
      TotalsAddUp(fates[..|fates| - 1]);
    }
  }

  // ---------------------------------------------------------------- the whole sweep

  type ScheduleId = nat

  type Table = map<ScheduleId, Schedule>
  type Clocks = map<ScheduleId, NextTick>

  /** Exactly the named schedules have been swept. */
  ghost predicate Swept(a: Table, b: Table, next: Clocks, now: Time, clear: set<ScheduleId>, ids: seq<ScheduleId>)
    requires forall i :: 0 <= i < |ids| ==> ids[i] in next
  {
    b.Keys == a.Keys && forall id :: id in b ==>
      b[id] == if id in ids then Sweep(a[id], next[id], now, id in clear) else a[id]
  }

  lemma SweptOneMore(a: Table, b: Table, next: Clocks, now: Time, clear: set<ScheduleId>, ids: seq<ScheduleId>,
      id: ScheduleId)
    requires forall i :: 0 <= i < |ids| ==> ids[i] in next && ids[i] in a && ids[i] != id
    requires id in next && id in a && Swept(a, b, next, now, clear, ids)
    ensures b[id] == a[id]
    ensures var r := Sweep(a[id], next[id], now, id in clear);
            && Swept(a, b[id := r], next, now, clear, ids + [id])
            && NewlyFired(a, b[id := r], ids + [id]) == NewlyFired(a, b, ids) + r.fired - a[id].fired
  {
    hide Sweep;
    var r := Sweep(a[id], next[id], now, id in clear);
    SameFired(a, b, b[id := r], ids);
    assert (ids + [id])[..|ids|] == ids;
  }

  class Materializer {
    var table: Table

    constructor (rows: Table)
      ensures table == rows
    {
      table := rows;
    }

    /** Materialize, on the due rows its query locked. */
    method Materialize(dues: seq<ScheduleId>, next: Clocks, now: Time, clear: set<ScheduleId>)
        returns (materialized: int)
      requires forall i, j :: 0 <= i < j < |dues| ==> dues[i] != dues[j]
      requires forall i :: 0 <= i < |dues| ==> dues[i] in table && dues[i] in next
      modifies this
      ensures Swept(old(table), table, next, now, clear, dues)
      ensures materialized == NewlyFired(old(table), table, dues)
    {
      hide Sweep;
      materialized := 0;
      var i := 0;
      while i < |dues|
        invariant i <= |dues|
        invariant Swept(old(table), table, next, now, clear, dues[..i])
        invariant materialized == NewlyFired(old(table), table, dues[..i])
      {
        var id := dues[i];
        SweptOneMore(old(table), table, next, now, clear, dues[..i], id);
        hide Swept, NewlyFired;
        assert dues[..i + 1] == dues[..i] + [id];
        var r, n := SweepOne(table[id], next[id], now, id in clear);
        table := table[id := r];
        materialized := materialized + n;
        i := i + 1;
      }
      assert dues[..i] == dues;
    }

    /** The whole transaction: the due schedules that nobody else has locked, the longest due first. */
    method MaterializeSome(next: Clocks, locked: set<ScheduleId>, limit: nat, now: Time, clear: set<ScheduleId>)
      returns (materialized: int, ghost dues: seq<ScheduleId>)
      requires table.Keys <= next.Keys
      modifies this
      ensures Query.FirstRows(DueIn(old(table), now) - locked, DueFirst(old(table)), limit, dues)
      ensures forall i :: 0 <= i < |dues| ==> dues[i] in old(table) && dues[i] in table
      ensures TookDue(old(table), locked, limit, now, dues)
      ensures Swept(old(table), table, next, now, clear, dues)
      ensures materialized == NewlyFired(old(table), table, dues)
    {
      RankingByDue(table);
      hide DueFirst;
      var ids := Query.Select(DueIn(table, now) - locked, DueFirst(table), limit);
      dues := ids;
      DueTakes(table, locked, limit, now, ids);
      hide TookDue;
      materialized := Materialize(ids, next, now, clear);
    }
  }

  function DueIn(table: Table, now: Time): set<ScheduleId> { set id | id in table && Due(table[id], now) }

  function DueTime(table: Table, id: ScheduleId): Time { if id in table then table[id].nextRunAt else 0.0 }

  function DueFirst(table: Table): (ScheduleId, ScheduleId) -> bool {
    (a: ScheduleId, b: ScheduleId) => DueTime(table, a) <= DueTime(table, b)
  }

  lemma RankingByDue(table: Table)
    ensures Query.Ranking(DueFirst(table))
  {
  }

  /** The enabled schedules whose next run has come and that were not locked, the longest due first, as
      many as the limit allows. */
  ghost predicate TookDue(table: Table, locked: set<ScheduleId>, limit: nat, now: Time, dues: seq<ScheduleId>) {
    && |dues| <= limit
    && (forall i :: 0 <= i < |dues| ==>
          dues[i] in table && table[dues[i]].enabled && table[dues[i]].nextRunAt <= now && dues[i] !in locked)
    && (forall i, k :: 0 <= i < k < |dues| ==>
          dues[i] != dues[k] && table[dues[i]].nextRunAt <= table[dues[k]].nextRunAt)
    && (forall id :: id in table && table[id].enabled && table[id].nextRunAt <= now && id !in locked && id !in dues ==>
          |dues| == limit && forall i :: 0 <= i < |dues| ==> table[dues[i]].nextRunAt <= table[id].nextRunAt)
  }

  lemma DueTakes(table: Table, locked: set<ScheduleId>, limit: nat, now: Time, dues: seq<ScheduleId>)
    requires Query.FirstRows(DueIn(table, now) - locked, DueFirst(table), limit, dues)
    ensures TookDue(table, locked, limit, now, dues)
  {
    var le := DueFirst(table);
    assert forall i :: 0 <= i < |dues| ==> dues[i] in DueIn(table, now);
    forall i, k | 0 <= i < k < |dues| ensures dues[i] != dues[k] && table[dues[i]].nextRunAt <= table[dues[k]].nextRunAt
    {
      assert le(dues[i], dues[k]);
    }
    forall id | id in table && table[id].enabled && table[id].nextRunAt <= now && id !in locked && id !in dues
      ensures |dues| == limit && forall i :: 0 <= i < |dues| ==> table[dues[i]].nextRunAt <= table[id].nextRunAt
    {
      assert id in DueIn(table, now) && Query.NoneAfter(le, dues, id);
      forall i | 0 <= i < |dues| ensures table[dues[i]].nextRunAt <= table[id].nextRunAt { assert le(dues[i], id); }
    }
  }

  function NewlyFired(a: map<ScheduleId, Schedule>, b: map<ScheduleId, Schedule>, ids: seq<ScheduleId>): int
    requires forall i :: 0 <= i < |ids| ==> ids[i] in a && ids[i] in b
  {
    if ids == [] then 0
    else
      var id := ids[|ids| - 1];
      NewlyFired(a, b, ids[..|ids| - 1]) + b[id].fired - a[id].fired
  }

  lemma {:induction false} SameFired(a: map<ScheduleId, Schedule>, b: map<ScheduleId, Schedule>,
      c: map<ScheduleId, Schedule>, ids: seq<ScheduleId>)
    requires forall i :: 0 <= i < |ids| ==> ids[i] in a && ids[i] in b && ids[i] in c && b[ids[i]] == c[ids[i]]
    ensures NewlyFired(a, b, ids) == NewlyFired(a, c, ids)
  {
    if ids != [] {
      SameFired(a, b, c, ids[..|ids| - 1]);
    }
  }
}
