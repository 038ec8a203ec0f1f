/** Token buckets and circuit breakers over whole runs. */
module Limits {
  import opened Schema
  import opened Transactions
  import opened Protocol
  import opened Rows
  import opened Fencing
  import opened Frames
  import opened Slots
  import A = Admission

  // ---------------------------------------------------------------- what each step does to one queue row

  /** Only counters have moved. */
  predicate CountersMoved(q: A.Queue, r: A.Queue) {
    && r == q.(shards := r.shards) && |r.shards| == |q.shards|
    && forall i :: 0 <= i < |q.shards| ==> r.shards[i] == q.shards[i].(inFlight := r.shards[i].inFlight)
  }

  lemma LoweredIsMoved(q: A.Queue, r: A.Queue)
    requires OnlyLowered(q, r)
    ensures CountersMoved(q, r)
  {
  }

  lemma ReconcileMoves(s: Db, q: QueueId)
    requires q in s.queues
    ensures q in Reconcile(s).queues && CountersMoved(s.queues[q], Reconcile(s).queues[q])
  {
    hide ActiveAt, ForgetLost;
  }

  predicate Admits(op: Op, q: QueueId) { op.DoAdmit? && op.queue == q }
  predicate Flips(op: Op, q: QueueId) { op.DoFlip? && op.queue == q }

  /** The row after a transaction: admitted to, switched, configured, or with moved counters. */
  ghost predicate RowMoves(s: Db, op: Op, now: Time, q: QueueId, r: A.Queue)
    requires q in s.queues
  {
    if Admits(op, q) then r == A.Admit(s.queues[q], op.want, op.pick, op.clock).queue
    else if Flips(op, q) then r == A.Flip(s.queues[q], op.switch, op.until)
    else if ConfiguresIt(op, q) then
      r == s.queues[q]
      || (SaneSettings(op.settings) && A.Configure(s.queues[q], op.settings, Busy(s, q), now) == Some(r))
    else CountersMoved(s.queues[q], r)
  }

  lemma TouchedMoves(s: Db, op: Op, now: Time, q: QueueId)
    requires TouchesQueues(op) && q in s.queues
    ensures q in Apply(s, op, now).queues && RowMoves(s, op, now, q, Apply(s, op, now).queues[q])
  {
    hide AdmitTo, FlipBreaker, ConfigureQueue, A.Admit, A.Flip, A.Configure, Busy, SaneSettings, CountersMoved;
    NothingMoved(s.queues[q]);
    match op
    case DoAdmit(p, want, pick, c) => AdmittedRow(s, p, want, pick, c, q);
    case DoFlip(p, sw, until) => FlippedRow(s, p, sw, until, q);
    case DoConfigure(p, st) => ConfiguredRow(s, p, st, now, q);
  }

  lemma NothingMoved(q: A.Queue)
    ensures CountersMoved(q, q)
  {
  }

  lemma ApplyMovesRow(s: Db, op: Op, now: Time, q: QueueId)
    requires q in s.queues
    ensures q in Apply(s, op, now).queues && RowMoves(s, op, now, q, Apply(s, op, now).queues[q])
  {
    if TouchesQueues(op) {
      hide *;
      TouchedMoves(s, op, now, q);
    } else {
      hide Apply, CountersMoved, OnlyLowered;
      if op.DoReconcile? {
        ApplyReconcile(s, now);
        ReconcileMoves(s, q);
      } else {
        OpsOnlyLower(s, op, now);
        LoweredIsMoved(s.queues[q], Apply(s, op, now).queues[q]);
      }
    }
  }

  // ---------------------------------------------------------------- buckets and breakers stay sound

  predicate RowSane(q: A.Queue, t: Time) {
    |q.shards| > 0 && A.TokensOk(q) && A.BreakerOk(q) && A.RefilledBy(q, t)
  }

  lemma AdmitSane(q: A.Queue, want: int, pick: Option<nat>, c: A.Clock, t: Time)
    requires RowSane(q, t) && A.Orderly(c) && t <= c.breaker
    ensures RowSane(A.Admit(q, want, pick, c).queue, c.refill)
  {
    A.AdmitAccounts(q, want, pick, c);
    A.AdmitKeepsTokens(q, want, pick, c);
    A.AdmitKeepsBreaker(q, want, pick, c);
    hide A.Admit, A.WithinShares;
  }

  lemma FlipSane(q: A.Queue, sw: A.Switch, until: Time, t: Time)
    requires RowSane(q, t)
    ensures RowSane(A.Flip(q, sw, until), t)
  {
  }

  lemma MovedSane(q: A.Queue, r: A.Queue, t: Time)
    requires RowSane(q, t) && CountersMoved(q, r)
    ensures RowSane(r, t)
  {
  }

  lemma ConfigureSane(q: A.Queue, st: A.Settings, busy: bool, t: Time, now: Time)
    requires RowSane(q, t) && t <= now && SaneSettings(st) && A.Configure(q, st, busy, now).Some?
    ensures RowSane(A.Configure(q, st, busy, now).value, now)
  {
    A.ConfigureKeeps(q, st, busy, now);
  }

  lemma LaterSane(q: A.Queue, t: Time, u: Time)
    requires RowSane(q, t) && t <= u
    ensures RowSane(q, u)
  {
  }

  lemma StepSane(s: Db, a: Act, q: QueueId)
    requires q in s.queues && OnTime(s, a) && RowSane(s.queues[q], s.clock)
    ensures q in Step(s, a).queues && RowSane(Step(s, a).queues[q], a.now)
  {
    hide Apply, RowSane, A.Admit, A.Flip, A.Configure, SaneSettings, Busy, CountersMoved;
    ApplyMovesRow(s, a.op, a.now, q);
    var row, r := s.queues[q], Apply(s, a.op, a.now).queues[q];
    if Admits(a.op, q) {
      AdmitSane(row, a.op.want, a.op.pick, a.op.clock, s.clock);
      LaterSane(r, a.op.clock.refill, a.now);
    } else if Flips(a.op, q) {
      FlipSane(row, a.op.switch, a.op.until, s.clock);
      LaterSane(r, s.clock, a.now);
    } else if ConfiguresIt(a.op, q) {
      if r == row {
        LaterSane(r, s.clock, a.now);
      } else {
        ConfigureSane(row, a.op.settings, Busy(s, q), s.clock, a.now);
      }
    } else {
      MovedSane(row, r, s.clock);
      LaterSane(r, s.clock, a.now);
    }
  }

  /** The buckets were not refilled in the future. */
  predicate Timely(s: Db) {
    forall q :: q in s.queues ==> A.RefilledBy(s.queues[q], s.clock)
  }

  lemma FreshSane(s: Db, q: QueueId)
    requires Fresh(s) && Timely(s) && q in s.queues
    ensures RowSane(s.queues[q], s.clock)
  {
    assert FreshQueue(s.queues[q]);
  }

  lemma StepClock(s: Db, a: Act)
    ensures Step(s, a).clock == a.now
  {
    hide Apply;
  }

  /** In every state of every run tokens lie between zero and the shard's share of the burst, the
      probe budget is 0 or 1, and it is 0 unless the breaker is half open. */
  lemma {:induction false} BucketsAndBreakers(ss: seq<Db>, acts: seq<Act>, i: nat, q: QueueId)
    requires IsRun(ss, acts) && Fresh(ss[0]) && Timely(ss[0]) && i < |ss| && q in ss[i].queues
    ensures RowSane(ss[i].queues[q], ss[i].clock)
  {
    hide *;
    if i == 0 {
      FreshSane(ss[0], q);
    } else {
      RunStep(ss, acts, i - 1);
      SameQueues(ss[i - 1], acts[i - 1]);
      BucketsAndBreakers(ss, acts, i - 1, q);
      StepSane(ss[i - 1], acts[i - 1], q);
      StepClock(ss[i - 1], acts[i - 1]);
    }
  }

  // ---------------------------------------------------------------- the rate limit

  /** Slots one transaction grants on q. */
  function Grants(s: Db, op: Op, q: QueueId): int {
    if Admits(op, q) && q in s.queues then A.Admit(s.queues[q], op.want, op.pick, op.clock).slots else 0
  }

  /** Slots granted on q by the transactions from i up to j. */
  function Granted(ss: seq<Db>, acts: seq<Act>, q: QueueId, i: nat, j: nat): int
    requires i <= j <= |acts| <= |ss|
    decreases j - i
  {
    if i == j then 0 else Granted(ss, acts, q, i, j - 1) + Grants(ss[j - 1], acts[j - 1].op, q)
  }

  lemma SwitchedBuckets(q: A.Queue, sw: A.Switch, until: Time)
    ensures A.SameBuckets(q, A.Flip(q, sw, until))
  {
  }

  lemma MovedBuckets(q: A.Queue, r: A.Queue)
    requires CountersMoved(q, r)
    ensures A.SameBuckets(q, r)
  {
  }

  /** What a step grants, and what is left in the buckets after it, was in them before or has
      dripped in since. */
  lemma StepPays(s: Db, a: Act, q: QueueId)
    requires q in s.queues && OnTime(s, a) && !ConfiguresIt(a.op, q) && A.Limited(s.queues[q], s.clock)
    ensures var t := Step(s, a);
            && q in t.queues && A.Limited(t.queues[q], a.now) && t.queues[q].limit == s.queues[q].limit
            && t.queues[q].burst == s.queues[q].burst
            && Grants(s, a.op, q) as real + A.Potential(t.queues[q], a.now)
               <= A.Potential(s.queues[q], s.clock) + s.queues[q].limit * (a.now - s.clock)
  {
    hide Apply, A.Limited, A.Admit, A.Flip, CountersMoved, A.SameBuckets, A.Potential;
    ApplyMovesRow(s, a.op, a.now, q);
    var row, r := s.queues[q], Apply(s, a.op, a.now).queues[q];
    LimitedRow(row, s.clock);
    if Admits(a.op, q) {
      var c := a.op.clock;
      A.AdmitPays(row, a.op.want, a.op.pick, c, s.clock);
      A.PotentialGrows(row, s.clock, c.refill);
      LimitedRow(r, c.refill);
      A.PotentialGrows(r, c.refill, a.now);
      A.Distribute(row.limit, c.refill - s.clock, a.now - c.refill);
      LaterLimited(r, c.refill, a.now);
    } else {
      if Flips(a.op, q) { SwitchedBuckets(row, a.op.switch, a.op.until); } else { MovedBuckets(row, r); }
      BucketsKeepSettings(row, r);
      A.BucketsKeepPotential(row, r, s.clock);
      LimitedRow(r, s.clock);
      A.PotentialGrows(r, s.clock, a.now);
      LaterLimited(r, s.clock, a.now);
    }
  }

  lemma LimitedRow(q: A.Queue, t: Time)
    requires A.Limited(q, t)
    ensures |q.shards| > 0
  {
  }

  lemma LaterLimited(q: A.Queue, t: Time, u: Time)
    requires A.Limited(q, t) && t <= u
    ensures A.Limited(q, u)
  {
  }

  lemma BucketsKeepSettings(q: A.Queue, r: A.Queue)
    requires A.SameBuckets(q, r)
    ensures r.limit == q.limit && r.burst == q.burst
  {
  }

  lemma {:induction false} RunPays(ss: seq<Db>, acts: seq<Act>, q: QueueId, i: nat, j: nat)
    requires IsRun(ss, acts) && i <= j < |ss| && q in ss[i].queues && A.Limited(ss[i].queues[q], ss[i].clock)
        && SettingsStay(acts, q, i, j)
    ensures q in ss[j].queues && A.Limited(ss[j].queues[q], ss[j].clock)
    ensures ss[j].queues[q].limit == ss[i].queues[q].limit && ss[j].queues[q].burst == ss[i].queues[q].burst
    ensures Granted(ss, acts, q, i, j) as real + A.Potential(ss[j].queues[q], ss[j].clock)
         <= A.Potential(ss[i].queues[q], ss[i].clock) + ss[i].queues[q].limit * (ss[j].clock - ss[i].clock)
    decreases j - i
  {
    hide *;
    RunLength(ss, acts);
    LimitedRow(ss[i].queues[q], ss[i].clock);
    if i == j {
      GrantedNone(ss, acts, q, i);
    } else {
      RunStep(ss, acts, j - 1);
      SettingsStayed(acts, q, i, j);
      RunPays(ss, acts, q, i, j - 1);
      StepPays(ss[j - 1], acts[j - 1], q);
      StepClock(ss[j - 1], acts[j - 1]);
      GrantedMore(ss, acts, q, i, j);
      LimitedRow(ss[j - 1].queues[q], ss[j - 1].clock);
      LimitedRow(ss[j].queues[q], ss[j].clock);
      PaidTwice(ss[i].queues[q].limit, ss[i].clock, ss[j - 1].clock, ss[j].clock,
                Granted(ss, acts, q, i, j - 1), Grants(ss[j - 1], acts[j - 1].op, q),
                A.Potential(ss[i].queues[q], ss[i].clock), A.Potential(ss[j - 1].queues[q], ss[j - 1].clock),
                  A.Potential(ss[j].queues[q], ss[j].clock));
    }
  }

  lemma PaidTwice(limit: real, start: Time, mid: Time, end: Time, before: int, more: int, x: real, y: real, z: real)
    requires before as real + y <= x + limit * (mid - start)
    requires more as real + z <= y + limit * (end - mid)
    ensures (before + more) as real + z <= x + limit * (end - start)
  {
    A.Distribute(limit, mid - start, end - mid);
  }

  lemma RunLength(ss: seq<Db>, acts: seq<Act>)
    requires IsRun(ss, acts)
    ensures |ss| == |acts| + 1
  {
  }

  lemma GrantedNone(ss: seq<Db>, acts: seq<Act>, q: QueueId, i: nat)
    requires i <= |acts| <= |ss|
    ensures Granted(ss, acts, q, i, i) == 0
  {
  }

  lemma GrantedMore(ss: seq<Db>, acts: seq<Act>, q: QueueId, i: nat, j: nat)
    requires i < j <= |acts| <= |ss|
    ensures Granted(ss, acts, q, i, j) == Granted(ss, acts, q, i, j - 1) + Grants(ss[j - 1], acts[j - 1].op, q)
  {
    hide Grants;
  }

  /** A rate-limited queue grants at most burst + rate * T slots in any window of length T of any
      run, over all shards and claimers, with reconciliation, breaker switches and everything else
      going on, as long as its settings stay. */
  lemma WindowBound(ss: seq<Db>, acts: seq<Act>, q: QueueId, i: nat, j: nat)
    requires IsRun(ss, acts) && Fresh(ss[0]) && Timely(ss[0]) && i <= j < |ss| && q in ss[i].queues
    requires ss[i].queues[q].limit > 0.0 && SettingsStay(acts, q, i, j)
    ensures Granted(ss, acts, q, i, j) as real <= ss[i].queues[q].burst
        + ss[i].queues[q].limit * (ss[j].clock - ss[i].clock)
  {
    BucketsAndBreakers(ss, acts, i, q);
    assert A.Limited(ss[i].queues[q], ss[i].clock);
    hide RowSane, IsRun;
    RunPays(ss, acts, q, i, j);
    A.PotentialWithinBurst(ss[i].queues[q], ss[i].clock);
    A.PotentialWithinBurst(ss[j].queues[q], ss[j].clock);
  }

  // ---------------------------------------------------------------- a shard left alone fills up

  /** Neither an admission that picks shard sh of q nor a change of its settings from i up to j. */
  predicate LeftAlone(acts: seq<Act>, q: QueueId, sh: nat, i: nat, j: nat) {
    forall m :: i <= m < j && m < |acts| ==>
      !(Admits(acts[m].op, q) && acts[m].op.pick == Some(sh)) && !ConfiguresIt(acts[m].op, q)
  }

  /** Bucket and rate of one shard are as they were. */
  predicate SameBucket(a: A.Queue, b: A.Queue, sh: nat) {
    && b.limit == a.limit && b.burst == a.burst && |b.shards| == |a.shards|
    && (sh < |a.shards| ==>
          b.shards[sh].tokens == a.shards[sh].tokens && b.shards[sh].refilledAt == a.shards[sh].refilledAt)
  }

  lemma StepLeavesBucket(s: Db, a: Act, q: QueueId, sh: nat)
    requires q in s.queues && !(Admits(a.op, q) && a.op.pick == Some(sh)) && !ConfiguresIt(a.op, q)
    ensures q in Step(s, a).queues && SameBucket(s.queues[q], Step(s, a).queues[q], sh)
  {
    hide Apply;
    ApplyMovesRow(s, a.op, a.now, q);
    var row, r := s.queues[q], Apply(s, a.op, a.now).queues[q];
    if !Admits(a.op, q) && !Flips(a.op, q) { MovedBuckets(row, r); }
    hide A.Allowed;
  }

  lemma LeftAloneBefore(acts: seq<Act>, q: QueueId, sh: nat, i: nat, j: nat)
    requires i < j <= |acts| && LeftAlone(acts, q, sh, i, j)
    ensures LeftAlone(acts, q, sh, i, j - 1)
    ensures !(Admits(acts[j - 1].op, q) && acts[j - 1].op.pick == Some(sh)) && !ConfiguresIt(acts[j - 1].op, q)
  {
  }

  lemma SameBucketTwice(a: A.Queue, b: A.Queue, c: A.Queue, sh: nat)
    requires SameBucket(a, b, sh) && SameBucket(b, c, sh)
    ensures SameBucket(a, c, sh)
  {
  }

  lemma SameBucketAtOnce(a: A.Queue, sh: nat)
    ensures SameBucket(a, a, sh)
  {
  }

  lemma {:induction false} BucketRests(ss: seq<Db>, acts: seq<Act>, q: QueueId, sh: nat, i: nat, j: nat)
    requires IsRun(ss, acts) && i <= j < |ss| && q in ss[i].queues && LeftAlone(acts, q, sh, i, j)
    ensures q in ss[j].queues && SameBucket(ss[i].queues[q], ss[j].queues[q], sh)
    decreases j - i
  {
    hide *;
    if i == j {
      SameBucketAtOnce(ss[i].queues[q], sh);
    } else {
      RunLength(ss, acts);
      LeftAloneBefore(acts, q, sh, i, j);
      RunStep(ss, acts, j - 1);
      BucketRests(ss, acts, q, sh, i, j - 1);
      StepLeavesBucket(ss[j - 1], acts[j - 1], q, sh);
      SameBucketTwice(ss[i].queues[q], ss[j - 1].queues[q], ss[j].queues[q], sh);
    }
  }

  lemma Dripped(rate: real, mark: Time, from: Time, upto: Time, at: Time)
    requires rate >= 0.0 && mark <= from <= upto <= at
    ensures (at - mark) * rate >= (upto - from) * rate
  {
    A.NonNegativeProduct((at - mark) - (upto - from), rate);
    assert ((at - mark) - (upto - from)) * rate == (at - mark) * rate - (upto - from) * rate;
  }

  /** The row takes admissions, and shard sh has n slots left of its share of the cap. */
  predicate RoomFor(q: A.Queue, sh: nat, n: int) {
    && !q.paused && q.breaker.Closed? && sh < |q.shards|
    && q.shards[sh].inFlight + n <= q.maxConcurrency / |q.shards|
        + (if sh < q.maxConcurrency % |q.shards| then 1 else 0)
  }

  lemma FilledBucketGrants(a: A.Queue, b: A.Queue, sh: nat, from: Time, upto: Time, want: int, n: int, c: A.Clock)
    requires RowSane(a, from) && SameBucket(a, b, sh) && sh < |a.shards| && a.limit > 0.0 && from <= upto <= c.slots
    requires RoomFor(b, sh, n) && 1 <= n <= want && n as real <= a.burst / |a.shards| as real
    requires n as real <= (upto - from) * (a.limit / |a.shards| as real)
    ensures A.Admit(b, want, Some(sh), c).slots >= n
  {
    var sr := a.shards[sh];
    assert |a.shards| == |b.shards| && sr.refilledAt <= from && sr.tokens >= 0.0;
    assert a.limit >= 0.0;
    var rate := a.limit / |a.shards| as real;
    assert rate >= 0.0 by { A.ShareNonNegative(a.limit, |a.shards|); }
    hide RowSane, A.TokensOk;
    Dripped(rate, sr.refilledAt, from, upto, c.slots);
    EnoughFits(b, sh, want, n, c.slots, rate);
    A.AdmitGrantsMost(b, want, sh, c);
    hide A.Admit, A.Fits;
  }

  lemma EnoughFits(b: A.Queue, sh: nat, want: int, n: int, t: Time, rate: real)
    requires RoomFor(b, sh, n) && n <= want && rate == b.limit / |b.shards| as real
    requires n as real <= b.burst / |b.shards| as real && b.shards[sh].tokens >= 0.0
    requires n as real <= (t - b.shards[sh].refilledAt) * rate
    ensures A.Fits(b, sh, want, n, t)
  {
    assert n as real <= b.shards[sh].tokens + (t - b.shards[sh].refilledAt) * rate;
  }

  /** The dual of WindowBound: in every run, a shard left alone for T seconds then grants any number of
      slots up to rate * T and the burst, each by its share, that are asked for and have room. */
  lemma RestedShardGrants(ss: seq<Db>, acts: seq<Act>, q: QueueId, sh: nat, i: nat, j: nat, want: int, n: int,
      c: A.Clock)
    requires IsRun(ss, acts) && Fresh(ss[0]) && Timely(ss[0]) && i <= j < |ss| && q in ss[i].queues && q in ss[j].queues
    requires LeftAlone(acts, q, sh, i, j) && ss[j].clock <= c.slots
    requires RoomFor(ss[j].queues[q], sh, n) && 1 <= n <= want
    requires var a := ss[i].queues[q];
             && sh < |a.shards| && a.limit > 0.0 && n as real <= a.burst / |a.shards| as real
             && n as real <= (ss[j].clock - ss[i].clock) * (a.limit / |a.shards| as real)
    ensures A.Admit(ss[j].queues[q], want, Some(sh), c).slots >= n
  {
    hide *;
    BucketRests(ss, acts, q, sh, i, j);
    BucketsAndBreakers(ss, acts, i, q);
    ClockGrows(ss, acts, i, j);
    FilledBucketGrants(ss[i].queues[q], ss[j].queues[q], sh, ss[i].clock, ss[j].clock, want, n, c);
  }

  lemma FullAfter(limit: real, burst: real, k: nat, wait: Time)
    requires limit > 0.0 && k > 0 && wait >= burst / limit
    ensures wait * (limit / k as real) >= burst / k as real
  {
    var rate := limit / k as real;
    assert rate > 0.0;
    A.NonNegativeProduct(wait - burst / limit, rate);
    assert (wait - burst / limit) * rate == wait * rate - burst / limit * rate;
    assert burst / limit * rate == burst / k as real;
  }

  lemma NoMoreThanFull(b: A.Queue, sh: nat, want: int, c: A.Clock)
    requires !b.paused && b.breaker.Closed? && sh < |b.shards| && b.limit > 0.0
    ensures var n := A.Admit(b, want, Some(sh), c).slots; n > 0 ==> n as real <= b.burst / |b.shards| as real
  {
    A.AdmitGrantsMost(b, want, sh, c);
    hide A.Admit;
  }

  /** Left alone for burst / rate seconds, a shard is full: it grants its whole share of the burst. */
  lemma RestedShardIsFull(ss: seq<Db>, acts: seq<Act>, q: QueueId, sh: nat, i: nat, j: nat, want: int, n: int,
      c: A.Clock)
    requires IsRun(ss, acts) && Fresh(ss[0]) && Timely(ss[0]) && i <= j < |ss| && q in ss[i].queues && q in ss[j].queues
    requires LeftAlone(acts, q, sh, i, j) && ss[j].clock <= c.slots
    requires RoomFor(ss[j].queues[q], sh, n) && 1 <= n <= want
    requires var a := ss[i].queues[q];
             && sh < |a.shards| && a.limit > 0.0 && ss[j].clock - ss[i].clock >= a.burst / a.limit
             && n == (a.burst / |a.shards| as real).Floor
    ensures A.Admit(ss[j].queues[q], want, Some(sh), c).slots == n
  {
    hide IsRun, Fresh, Timely, LeftAlone, A.Admit;
    var a := ss[i].queues[q];
    FullAfter(a.limit, a.burst, |a.shards|, ss[j].clock - ss[i].clock);
    RestedShardGrants(ss, acts, q, sh, i, j, want, n, c);
    BucketRests(ss, acts, q, sh, i, j);
    NoMoreThanFull(ss[j].queues[q], sh, want, c);
  }

  // ---------------------------------------------------------------- the breaker

  /** In every run breaker states only follow closed -> open, open -> half_open and half_open ->
      closed or open; only an admission makes the middle one, and not before the deadline; only
      the sweeps make the others. */
  lemma BreakerMovesLegally(s: Db, a: Act, q: QueueId)
    requires q in s.queues
    ensures q in Step(s, a).queues
    ensures var x, y := s.queues[q], Step(s, a).queues[q];
            x.breaker == y.breaker
            || (Flips(a.op, q) && x.breaker.Closed? && y.breaker.Open?)
            || (Flips(a.op, q) && x.breaker.HalfOpen? && !y.breaker.HalfOpen?)
            || (Admits(a.op, q) && x.breaker.Open? && y.breaker.HalfOpen?
                && (x.openUntil.Some? ==> x.openUntil.value <= a.op.clock.breaker))
  {
    hide Apply, Busy, SaneSettings;
    ApplyMovesRow(s, a.op, a.now, q);
    if ConfiguresIt(a.op, q) {
      ConfigureBreaker(s, a.op, a.now, q, Apply(s, a.op, a.now).queues[q]);
    } else {
      hide A.Allowed, A.TakeSlots;
    }
  }

  lemma ConfigureBreaker(s: Db, op: Op, now: Time, q: QueueId, r: A.Queue)
    requires q in s.queues && ConfiguresIt(op, q) && RowMoves(s, op, now, q, r)
    ensures r.breaker == s.queues[q].breaker && r.openUntil == s.queues[q].openUntil
        && r.probeBudget == s.queues[q].probeBudget
  {
    hide Busy;
    if r != s.queues[q] {
      A.ConfigureKeeps(s.queues[q], op.settings, Busy(s, q), now);
    }
  }

  predicate OpenUntil(s: Db, q: QueueId, d: Time) {
    q in s.queues && s.queues[q].breaker.Open? && s.queues[q].openUntil == Some(d)
  }

  /** An admission to the queue reads a clock at or past the deadline, and the queue is not paused. */
  predicate ReadsPast(s: Db, op: Op, q: QueueId, d: Time) {
    Admits(op, q) && q in s.queues && !s.queues[q].paused && op.clock.breaker >= d
  }

  lemma OpenStep(s: Db, a: Act, q: QueueId, d: Time)
    requires OpenUntil(s, q, d)
    ensures ReadsPast(s, a.op, q, d) ==> q in Step(s, a).queues && Step(s, a).queues[q].breaker.HalfOpen?
    ensures !ReadsPast(s, a.op, q, d) ==> OpenUntil(Step(s, a), q, d) && Grants(s, a.op, q) == 0
  {
    hide Apply, Busy, SaneSettings;
    ApplyMovesRow(s, a.op, a.now, q);
    if ConfiguresIt(a.op, q) {
      ConfigureBreaker(s, a.op, a.now, q, Apply(s, a.op, a.now).queues[q]);
    } else {
      hide A.Allowed, A.TakeSlots;
    }
  }

  lemma HalfOpenIsNotOpen(s: Db, q: QueueId, d: Time)
    requires q in s.queues && s.queues[q].breaker.HalfOpen?
    ensures !OpenUntil(s, q, d)
  {
  }

  predicate NoneReadsPast(ss: seq<Db>, acts: seq<Act>, q: QueueId, i: nat, j: nat, d: Time) {
    forall m :: i <= m < j && m < |acts| && m < |ss| ==> !ReadsPast(ss[m], acts[m].op, q, d)
  }

  lemma NoneReadsPastYet(ss: seq<Db>, acts: seq<Act>, q: QueueId, i: nat, j: nat, d: Time)
    requires i < j <= |acts| && j < |ss| && NoneReadsPast(ss, acts, q, i, j, d)
    ensures NoneReadsPast(ss, acts, q, i, j - 1, d) && !ReadsPast(ss[j - 1], acts[j - 1].op, q, d)
  {
    hide ReadsPast;
  }

  lemma {:induction false} OpenLasts(ss: seq<Db>, acts: seq<Act>, q: QueueId, i: nat, j: nat, d: Time)
    requires IsRun(ss, acts) && i <= j < |ss| && OpenUntil(ss[i], q, d) && NoneReadsPast(ss, acts, q, i, j, d)
    ensures |ss| == |acts| + 1 && OpenUntil(ss[j], q, d) && Granted(ss, acts, q, i, j) == 0
    decreases j - i
  {
    hide *;
    RunLength(ss, acts);
    if i == j {
      GrantedNone(ss, acts, q, i);
    } else {
      RunStep(ss, acts, j - 1);
      NoneReadsPastYet(ss, acts, q, i, j, d);
      OpenLasts(ss, acts, q, i, j - 1, d);
      OpenStep(ss[j - 1], acts[j - 1], q, d);
      GrantedMore(ss, acts, q, i, j);
    }
  }

  lemma {:induction false} ClockGrows(ss: seq<Db>, acts: seq<Act>, i: nat, j: nat)
    requires IsRun(ss, acts) && i <= j < |ss|
    ensures ss[i].clock <= ss[j].clock
    decreases j - i
  {
    hide *;
    if i < j {
      ClockGrows(ss, acts, i, j - 1);
      RunStep(ss, acts, j - 1);
      StepClock(ss[j - 1], acts[j - 1]);
    }
  }

  /** An admission that has committed read a clock no later than the present one. */
  lemma ReadBefore(s: Db, a: Act, q: QueueId, d: Time)
    requires OnTime(s, a) && Step(s, a).clock < d
    ensures !ReadsPast(s, a.op, q, d)
  {
    hide Apply;
  }

  lemma NoneReadsPastBefore(ss: seq<Db>, acts: seq<Act>, q: QueueId, i: nat, j: nat, d: Time)
    requires IsRun(ss, acts) && i <= j < |ss| && ss[j].clock < d
    ensures NoneReadsPast(ss, acts, q, i, j, d)
  {
    hide Step, OnTime, ReadsPast;
    forall m | i <= m < j ensures !ReadsPast(ss[m], acts[m].op, q, d) {
      RunStep(ss, acts, m);
      ClockGrows(ss, acts, m + 1, j);
      ReadBefore(ss[m], acts[m], q, d);
    }
  }

  predicate OpenThroughout(ss: seq<Db>, q: QueueId, i: nat, j: nat, d: Time) {
    forall k :: i <= k <= j && k < |ss| ==> OpenUntil(ss[k], q, d)
  }

  /** A breaker that is open stays open, with its deadline, until an admission reads a clock at or
      past that deadline, and no longer; until then the queue grants no slot, over all shards and
      claimers, in every run.  While the clock is before the deadline that has not happened. */
  lemma OpenGrantsNothing(ss: seq<Db>, acts: seq<Act>, q: QueueId, i: nat, j: nat, d: Time)
    requires IsRun(ss, acts) && i <= j < |ss| && OpenUntil(ss[i], q, d)
    ensures OpenThroughout(ss, q, i, j, d) <==> NoneReadsPast(ss, acts, q, i, j, d)
    ensures OpenThroughout(ss, q, i, j, d) ==> Granted(ss, acts, q, i, j) == 0
    ensures ss[j].clock < d ==> OpenThroughout(ss, q, i, j, d)
  {
    if ss[j].clock < d { NoneReadsPastBefore(ss, acts, q, i, j, d); }
    hide Step, OnTime, Granted, OpenUntil, ReadsPast;
    if NoneReadsPast(ss, acts, q, i, j, d) {
      forall k | i <= k <= j ensures OpenUntil(ss[k], q, d) { OpenLasts(ss, acts, q, i, k, d); }
      OpenLasts(ss, acts, q, i, j, d);
    } else {
      var m :| i <= m < j && m < |acts| && m < |ss| && ReadsPast(ss[m], acts[m].op, q, d);
      if OpenUntil(ss[m], q, d) {
        OpenStep(ss[m], acts[m], q, d);
        HalfOpenIsNotOpen(ss[m + 1], q, d);
      }
    }
  }

  function ProbesLeft(q: A.Queue): int {
    if q.breaker.HalfOpen? then q.probeBudget else 1
  }

  lemma AdmitProbes(q: A.Queue, want: int, pick: Option<nat>, c: A.Clock)
    requires A.BreakerOk(q) && A.Admit(q, want, pick, c).queue.breaker.HalfOpen?
    ensures var r := A.Admit(q, want, pick, c);
            r.slots + ProbesLeft(r.queue) <= ProbesLeft(q) && 0 <= ProbesLeft(r.queue)
  {
    hide A.Refilled, A.Share, A.Rate, A.ShardSlots;
  }

  lemma StepProbes(s: Db, a: Act, q: QueueId)
    requires q in s.queues && A.BreakerOk(s.queues[q])
    requires q in Step(s, a).queues && Step(s, a).queues[q].breaker.HalfOpen?
    requires s.queues[q].breaker.Closed? ==> !Step(s, a).queues[q].breaker.HalfOpen?
    ensures Grants(s, a.op, q) + ProbesLeft(Step(s, a).queues[q]) <= ProbesLeft(s.queues[q])
  {
    hide Apply, Busy, SaneSettings, A.Admit;
    ApplyMovesRow(s, a.op, a.now, q);
    if Admits(a.op, q) {
      AdmitProbes(s.queues[q], a.op.want, a.op.pick, a.op.clock);
    } else if ConfiguresIt(a.op, q) {
      ConfigureBreaker(s, a.op, a.now, q, Apply(s, a.op, a.now).queues[q]);
    }
  }

  /** The breaker of q is half open in every state after i, up to j. */
  predicate HalfOpenAfter(ss: seq<Db>, q: QueueId, i: nat, j: nat) {
    forall k :: i < k <= j && k < |ss| ==> q in ss[k].queues && ss[k].queues[q].breaker.HalfOpen?
  }

  lemma {:induction false} ProbesSpent(ss: seq<Db>, acts: seq<Act>, q: QueueId, i: nat, j: nat)
    requires IsRun(ss, acts) && Fresh(ss[0]) && Timely(ss[0]) && i <= j < |ss| && q in ss[i].queues
        && HalfOpenAfter(ss, q, i, j)
    ensures q in ss[j].queues && Granted(ss, acts, q, i, j) + ProbesLeft(ss[j].queues[q]) <= ProbesLeft(ss[i].queues[q])
    decreases j - i
  {
    hide *;
    RunLength(ss, acts);
    if i == j {
      GrantedNone(ss, acts, q, i);
    } else {
      RunStep(ss, acts, j - 1);
      StillHalfOpen(ss, q, i, j);
      ProbesSpent(ss, acts, q, i, j - 1);
      BucketsAndBreakers(ss, acts, j - 1, q);
      SaneBreaker(ss[j - 1].queues[q], ss[j - 1].clock);
      BreakerMovesLegally(ss[j - 1], acts[j - 1], q);
      StepProbes(ss[j - 1], acts[j - 1], q);
      GrantedMore(ss, acts, q, i, j);
    }
  }

  lemma SaneBreaker(q: A.Queue, t: Time)
    requires RowSane(q, t)
    ensures A.BreakerOk(q)
  {
  }

  lemma StillHalfOpen(ss: seq<Db>, q: QueueId, i: nat, j: nat)
    requires HalfOpenAfter(ss, q, i, j) && i < j < |ss|
    ensures HalfOpenAfter(ss, q, i, j - 1) && q in ss[j].queues && ss[j].queues[q].breaker.HalfOpen?
  {
  }

  /** From the transaction that enters half_open until the state is left, one slot at most is
      granted on the queue, over all shards and claimers, in every run. */
  lemma OneProbe(ss: seq<Db>, acts: seq<Act>, q: QueueId, i: nat, j: nat)
    requires IsRun(ss, acts) && Fresh(ss[0]) && Timely(ss[0]) && i <= j < |ss|
    requires q in ss[i].queues && !ss[i].queues[q].breaker.HalfOpen? && HalfOpenAfter(ss, q, i, j)
    ensures Granted(ss, acts, q, i, j) <= 1
  {
    ProbesSpent(ss, acts, q, i, j);
    BucketsAndBreakers(ss, acts, j, q);
  }
}
