/** One queue row with its shard rows: admission, release, resize and the circuit breaker. */
module Admission {
  import opened Schema

  datatype Shard = Shard(inFlight: int, tokens: real, refilledAt: Time)

  datatype Breaker = Closed | Open | HalfOpen

  datatype Queue = Queue(
    project: ProjectId, paused: bool, maxConcurrency: int, limit: real, burst: real,
    breaker: Breaker, openUntil: Option<Time>, probeBudget: int, shards: seq<Shard>)

  /** The readings of fl.now() made by one admission, in the order they are made. */
  datatype Clock = Clock(breaker: Time, slots: Time, tokens: Time, refill: Time)

  predicate Orderly(c: Clock) { c.breaker <= c.slots <= c.tokens <= c.refill }

  // ---------------------------------------------------------------- shares of the cap

  function ShardSlots(maxc: int, k: nat, s: nat): int
    requires k > 0
  {
    maxc / k + if s < maxc % k then 1 else 0
  }

  function SlotSum(maxc: int, k: nat, n: nat): int
    requires k > 0
  {
    if n == 0 then 0 else SlotSum(maxc, k, n - 1) + ShardSlots(maxc, k, n - 1)
  }

  lemma {:induction false} SlotSumUpTo(maxc: int, k: nat, n: nat)
    requires 0 < k && n <= k
    ensures SlotSum(maxc, k, n) == n * (maxc / k) + Min(n, maxc % k)
  {
    if n > 0 {
      SlotSumUpTo(maxc, k, n - 1);
      assert (n - 1) * (maxc / k) + maxc / k == n * (maxc / k);
    }
  }

  /** The shares handed to the shards add up to the queue's cap, for every shard count. */
  lemma SharesAddUp(maxc: int, k: nat)
    requires 0 < k
    ensures SlotSum(maxc, k, k) == maxc
  {
    SlotSumUpTo(maxc, k, k);
  }

  lemma QuotientNonNegative(k: nat, x: int)
    requires 0 < k && k * x > 0 - k
    ensures x >= 0
  {
  }

  lemma DivGrows(a: int, b: int, k: nat)
    requires 0 < k && a <= b
    ensures a / k < b / k || (a / k == b / k && a % k <= b % k)
  {
    assert k * (b / k - a / k) == (b - b % k) - (a - a % k);
    QuotientNonNegative(k, b / k - a / k);
  }

  /** Raising the cap never takes a slot from a shard. */
  lemma SharesGrow(maxc: int, more: int, k: nat, s: nat)
    requires 0 < k && maxc <= more
    ensures ShardSlots(maxc, k, s) <= ShardSlots(more, k, s)
  {
    DivGrows(maxc, more, k);
  }

  // ---------------------------------------------------------------- transactions

  /** fl.queue_release */
  function Release(q: Queue, s: nat, n: int): Queue {
    if s < |q.shards| then
      q.(shards := q.shards[s := q.shards[s].(inFlight := Max(q.shards[s].inFlight - n, 0))])
    else q
  }

  /** The tokens a shard would hold if it were refilled at time t. */
  function Refilled(sh: Shard, share: real, rate: real, t: Time): real {
    MinR(share, sh.tokens + (t - sh.refilledAt) * rate)
  }

  function Share(q: Queue): real
    requires |q.shards| > 0
  { q.burst / |q.shards| as real }

  function Rate(q: Queue): real
    requires |q.shards| > 0
  { q.limit / |q.shards| as real }

  datatype Admitted = Admitted(queue: Queue, slots: int, shard: nat)

  /** Slots the locked shard row allows. */
  function Allowed(q: Queue, s: nat, want: int, c: Clock): int
    requires s < |q.shards|
  {
    var sr := q.shards[s];
    var room := Max(ShardSlots(q.maxConcurrency, |q.shards|, s) - sr.inFlight, 0);
    var byRate := if q.limit == 0.0 then want else Refilled(sr, Share(q), Rate(q), c.slots).Floor;
    Min(want, Min(room, byRate))
  }

  function TakeSlots(q: Queue, s: nat, n: int, c: Clock): Queue
    requires s < |q.shards|
  {
    var sr := q.shards[s];
    q.(shards := q.shards[s := Shard(
      sr.inFlight + n,
      if q.limit == 0.0 then sr.tokens else Refilled(sr, Share(q), Rate(q), c.tokens) - n as real,
      if q.limit == 0.0 then sr.refilledAt else c.refill)])
  }

  /** fl.queue_admit.  `pick` is the outcome of the unlocked shard choice, which may be out of date. */
  function Admit(q: Queue, want: int, pick: Option<nat>, c: Clock): Admitted {
    if q.paused then Admitted(q, 0, 0)
    else if q.breaker.Open? && q.openUntil.Some? && q.openUntil.value > c.breaker then Admitted(q, 0, 0)
    else
      var probing := !q.breaker.Closed?;
      var q1 := if q.breaker.Open? then q.(breaker := HalfOpen, probeBudget := 1) else q;
      if probing && q1.probeBudget <= 0 then Admitted(q1, 0, 0)
      else if pick.None? || pick.value >= |q.shards| then Admitted(q1, 0, 0)
      else
        var n := Allowed(q1, pick.value, if probing then 1 else want, c);
        if n <= 0 then Admitted(q1, 0, pick.value)
        else
          var q2 := TakeSlots(q1, pick.value, n, c);
          Admitted(if probing then q2.(probeBudget := q2.probeBudget - n) else q2, n, pick.value)
  }

  datatype Settings = Settings(paused: bool, maxConcurrency: int, limit: real, burst: real, shards: nat)

  /** An update of the queue's settings with fl.spread behind it; None when the trigger refuses.
      `busy` says whether some job of the queue is claimed or running. */
  function Configure(q: Queue, t: Settings, busy: bool, now: Time): Option<Queue>
    requires t.shards > 0
  {
    if t.shards != |q.shards| && (busy || exists i :: 0 <= i < |q.shards| && q.shards[i].inFlight > 0) then None
    else
      var share := t.burst / t.shards as real;
      var rows := seq(t.shards, i requires 0 <= i =>
        if i < |q.shards| then q.shards[i].(tokens := MinR(q.shards[i].tokens, share))
        else Shard(0, share, now));
      Some(q.(paused := t.paused, maxConcurrency := t.maxConcurrency, limit := t.limit, burst := t.burst,
        shards := rows))
  }

  datatype Switch = Trip | Reopen | Close

  /** The breaker sweep's updates, each guarded by the state it expects. */
  function Flip(q: Queue, sw: Switch, until: Time): Queue {
    match sw
    case Trip => if q.breaker.Closed? then q.(breaker := Open, openUntil := Some(until), probeBudget := 0) else q
    case Reopen => if q.breaker.HalfOpen? then q.(breaker := Open, openUntil := Some(until), probeBudget := 0) else q
    case Close => if q.breaker.HalfOpen? then q.(breaker := Closed, openUntil := None, probeBudget := 0) else q
  }

  // ---------------------------------------------------------------- what one admission keeps

  predicate WithinShares(q: Queue) {
    forall s :: 0 <= s < |q.shards| ==> q.shards[s].inFlight <= ShardSlots(q.maxConcurrency, |q.shards|, s)
  }

  predicate TokensOk(q: Queue) {
    && q.burst >= 0.0 && q.limit >= 0.0
    && forall s :: 0 <= s < |q.shards| ==> 0.0 <= q.shards[s].tokens <= Share(q)
  }

  /** The check constraints on the breaker columns, with the bound of one on the budget. */
  predicate BreakerOk(q: Queue) {
    && (q.breaker.Open? ==> q.openUntil.Some?)
    && 0 <= q.probeBudget <= 1
    && (q.breaker.HalfOpen? || q.probeBudget == 0)
  }

  /** Whatever shard was picked, admission hands out what it adds to that shard and nothing
      else moves; it never lifts a shard above its share, and grants nothing on one already there. */
  lemma AdmitAccounts(q: Queue, want: int, pick: Option<nat>, c: Clock)
    ensures var r := Admit(q, want, pick, c);
            && r.slots >= 0 && (want >= 0 ==> r.slots <= Max(want, 1))
            && |r.queue.shards| == |q.shards| && r.queue.maxConcurrency == q.maxConcurrency
            && (r.slots > 0 ==>
                  r.shard < |q.shards| && r.queue.shards[r.shard].inFlight == q.shards[r.shard].inFlight + r.slots)
            && (r.slots > 0 ==> r.queue.shards[r.shard].inFlight <= ShardSlots(q.maxConcurrency, |q.shards|, r.shard))
            && (forall s :: 0 <= s < |q.shards| && (r.slots == 0 || s != r.shard) ==> r.queue.shards[s] == q.shards[s])
            && (WithinShares(q) ==> WithinShares(r.queue))
  {
  }

  /** n more slots fit on shard s at time t: within what is asked for, within the shard's share of the
      cap and, under a rate limit, within its share of the burst and what its bucket then holds. */
  predicate Fits(q: Queue, s: nat, want: int, n: int, t: Time)
    requires s < |q.shards|
  {
    var k, sr := |q.shards|, q.shards[s];
    && n <= want
    && sr.inFlight + n <= q.maxConcurrency / k + (if s < q.maxConcurrency % k then 1 else 0)
    && (q.limit != 0.0 ==>
         && n as real <= q.burst / k as real
         && n as real <= sr.tokens + (t - sr.refilledAt) * (q.limit / k as real))
  }

  lemma FitsIsAllowed(q: Queue, s: nat, want: int, n: int, c: Clock)
    requires s < |q.shards| && n >= 1
    ensures Fits(q, s, want, n, c.slots) <==> n <= Allowed(q, s, want, c)
  {
  }

  /** What the bucket of a shard holds at time t, before anything is taken. */
  predicate HoldsTokens(q: Queue, s: nat, t: Time, level: real)
    requires s < |q.shards|
  {
    var k, sr := |q.shards|, q.shards[s];
    var full, dripped := q.burst / k as real, sr.tokens + (t - sr.refilledAt) * (q.limit / k as real);
    level <= full && level <= dripped && (level == full || level == dripped)
  }

  /** The row after n slots were taken from shard s. */
  predicate Took(q: Queue, r: Queue, s: nat, n: int, c: Clock)
    requires s < |q.shards|
  {
    && |r.shards| == |q.shards| && r == q.(shards := r.shards, breaker := r.breaker, probeBudget := r.probeBudget)
    && (forall i :: 0 <= i < |q.shards| && i != s ==> r.shards[i] == q.shards[i])
    && r.shards[s].inFlight == q.shards[s].inFlight + n
    && (q.limit == 0.0 ==> r.shards[s].tokens == q.shards[s].tokens && r.shards[s].refilledAt == q.shards[s].refilledAt)
    && (q.limit != 0.0 ==>
          r.shards[s].refilledAt == c.refill && HoldsTokens(q, s, c.tokens, r.shards[s].tokens + n as real))
  }

  lemma TakeSlotsTook(q: Queue, s: nat, n: int, c: Clock)
    requires s < |q.shards|
    ensures Took(q, TakeSlots(q, s, n, c), s, n, c) && TakeSlots(q, s, n, c).breaker == q.breaker
    ensures TakeSlots(q, s, n, c).probeBudget == q.probeBudget
  {
  }

  /** With the breaker closed an admission grants as many slots as fit on the picked shard, no fewer, and
      leaves the row short of exactly those slots and tokens. */
  lemma AdmitGrantsMost(q: Queue, want: int, s: nat, c: Clock)
    requires !q.paused && q.breaker.Closed? && s < |q.shards|
    ensures var r := Admit(q, want, Some(s), c);
            && r.slots >= 0 && (r.slots > 0 ==> r.shard == s && Fits(q, s, want, r.slots, c.slots))
            && (forall n :: n >= 1 && Fits(q, s, want, n, c.slots) ==> n <= r.slots)
            && (r.slots == 0 ==> r.queue == q)
            && (r.slots > 0 ==>
                 && Took(q, r.queue, s, r.slots, c)
                 && r.queue.breaker == q.breaker && r.queue.probeBudget == q.probeBudget)
  {
    forall n | n >= 1 ensures Fits(q, s, want, n, c.slots) <==> n <= Allowed(q, s, want, c) {
      FitsIsAllowed(q, s, want, n, c);
    }
    var m := Allowed(q, s, want, c);
    if m > 0 { TakeSlotsTook(q, s, m, c); }
    hide Allowed, Fits, Took, TakeSlots;
  }

  /** The breaker lets an admission through as a probe. */
  predicate LetsProbe(q: Queue, c: Clock) {
    || (q.breaker.HalfOpen? && q.probeBudget >= 1)
    || (q.breaker.Open? && (q.openUntil.None? || q.openUntil.value <= c.breaker))
  }

  /** While the breaker is not closed one slot is granted if the probe is let through and one fits, and
      the budget pays for it; passing the deadline makes the row half open in any case. */
  lemma ProbeGrantsOne(q: Queue, want: int, s: nat, c: Clock)
    requires !q.paused && !q.breaker.Closed? && s < |q.shards|
    ensures var r := Admit(q, want, Some(s), c);
            && (!LetsProbe(q, c) ==> r.slots == 0 && r.queue == q)
            && (LetsProbe(q, c) ==>
                 var budget := if q.breaker.Open? then 1 else q.probeBudget;
                 && r.slots == (if Fits(q, s, 1, 1, c.slots) then 1 else 0)
                 && r.queue.breaker.HalfOpen? && r.queue.probeBudget == budget - r.slots
                 && (r.slots == 0 ==> r.queue == q.(breaker := HalfOpen, probeBudget := budget))
                 && (r.slots == 1 ==> r.shard == s && Took(q, r.queue, s, 1, c)))
  {
    var q1 := if q.breaker.Open? then q.(breaker := HalfOpen, probeBudget := 1) else q;
    FitsIsAllowed(q1, s, 1, 1, c);
    assert Allowed(q1, s, 1, c) <= 1;
    assert Fits(q1, s, 1, 1, c.slots) <==> Fits(q, s, 1, 1, c.slots);
    TakeSlotsTook(q1, s, 1, c);
    hide Allowed, Fits, TakeSlots;
  }

  /** A paused queue, and an admission that found no shard, get nothing. */
  lemma AdmitRefuses(q: Queue, want: int, pick: Option<nat>, c: Clock)
    requires q.paused || pick.None? || pick.value >= |q.shards|
    ensures var r := Admit(q, want, pick, c);
            && r.slots == 0 && r.queue.shards == q.shards
            && (q.paused || q.breaker.Closed? || !LetsProbe(q, c) ==> r.queue == q)
  {
  }

  lemma Distribute(r: real, a: real, b: real)
    ensures r * (a + b) == r * a + r * b
  {
  }

  lemma NonNegativeProduct(a: real, b: real)
    requires a >= 0.0 && b >= 0.0
    ensures a * b >= 0.0
  {
  }

  lemma DivideKeeps(share: real, k: nat, total: real)
    requires k > 0 && share == total / k as real
    ensures k as real * share == total
  {
  }

  lemma RefillBounds(sh: Shard, share: real, rate: real, t: Time, u: Time)
    requires 0.0 <= sh.tokens <= share && rate >= 0.0 && sh.refilledAt <= t <= u
    ensures 0.0 <= Refilled(sh, share, rate, t) <= Refilled(sh, share, rate, u) <= share
    ensures Refilled(sh, share, rate, u) <= Refilled(sh, share, rate, t) + (u - t) * rate
  {
    NonNegativeProduct(t - sh.refilledAt, rate);
    NonNegativeProduct(u - t, rate);
    Distribute(rate, t - sh.refilledAt, u - t);
    assert (u - sh.refilledAt) * rate == (t - sh.refilledAt) * rate + (u - t) * rate;
  }

  predicate RefilledBy(q: Queue, t: Time) {
    forall s :: 0 <= s < |q.shards| ==> q.shards[s].refilledAt <= t
  }

  lemma ShareNonNegative(total: real, k: nat)
    requires k > 0 && total >= 0.0
    ensures total / k as real >= 0.0
  {
  }

  lemma RateNonNegative(q: Queue)
    requires |q.shards| > 0 && q.limit >= 0.0
    ensures Rate(q) >= 0.0
  {
    ShareNonNegative(q.limit, |q.shards|);
  }

  /** Tokens stay between zero and the shard's share although the clock is read anew
      for the count, for the balance and for the refill mark. */
  lemma AdmitKeepsTokens(q: Queue, want: int, pick: Option<nat>, c: Clock)
    requires TokensOk(q) && RefilledBy(q, c.slots) && Orderly(c)
    ensures TokensOk(Admit(q, want, pick, c).queue)
    ensures RefilledBy(Admit(q, want, pick, c).queue, c.refill)
  {
    var r := Admit(q, want, pick, c);
    AdmitAccounts(q, want, pick, c);
    if r.slots > 0 && q.limit != 0.0 {
      RateNonNegative(q);
      RefillBounds(q.shards[r.shard], Share(q), Rate(q), c.slots, c.tokens);
    }
  }

  lemma AdmitKeepsBreaker(q: Queue, want: int, pick: Option<nat>, c: Clock)
    requires BreakerOk(q)
    ensures BreakerOk(Admit(q, want, pick, c).queue)
  {
  }

  // ---------------------------------------------------------------- tokens over time

  // Sums of reals, kept away from multiplication.

  function Sum(xs: seq<real>): real {
    if xs == [] then 0.0 else Sum(xs[..|xs| - 1]) + xs[|xs| - 1]
  }

  function Times(n: nat, x: real): real {
    if n == 0 then 0.0 else Times(n - 1, x) + x
  }

  lemma {:induction false} TimesIsProduct(n: nat, x: real)
    ensures Times(n, x) == n as real * x
  {
    if n > 0 {
      TimesIsProduct(n - 1, x);
      Distribute(x, (n - 1) as real, 1.0);
    }
  }

  lemma {:induction false} SumWithin(xs: seq<real>, top: real)
    requires forall i :: 0 <= i < |xs| ==> 0.0 <= xs[i] <= top
    ensures 0.0 <= Sum(xs) <= Times(|xs|, top)
  {
    if xs != [] {
      SumWithin(xs[..|xs| - 1], top);
    }
  }

  lemma {:induction false} SumGrows(xs: seq<real>, ys: seq<real>, g: real)
    requires |xs| == |ys| && forall i :: 0 <= i < |xs| ==> ys[i] <= xs[i] + g
    ensures Sum(ys) <= Sum(xs) + Times(|xs|, g)
  {
    if xs != [] {
      SumGrows(xs[..|xs| - 1], ys[..|ys| - 1], g);
    }
  }

  lemma {:induction false} SumUpdate(xs: seq<real>, i: nat, v: real)
    requires i < |xs|
    ensures Sum(xs[i := v]) == Sum(xs) - xs[i] + v
  {
    var n := |xs| - 1;
    if i == n {
      assert xs[i := v][..n] == xs[..n];
    } else {
      assert xs[i := v][..n] == xs[..n][i := v];
      SumUpdate(xs[..n], i, v);
    }
  }

  lemma Reorder(k: real, rate: real, d: real)
    ensures k * (d * rate) == (k * rate) * d
  {
  }

  function Levels(q: Queue, t: Time): seq<real>
    requires |q.shards| > 0
  {
    seq(|q.shards|, i requires 0 <= i < |q.shards| => Refilled(q.shards[i], Share(q), Rate(q), t))
  }

  /** The tokens all shards together would hold at time t. */
  function Potential(q: Queue, t: Time): real
    requires |q.shards| > 0
  {
    Sum(Levels(q, t))
  }

  predicate Limited(q: Queue, t: Time) {
    q.limit > 0.0 && |q.shards| > 0 && TokensOk(q) && RefilledBy(q, t)
  }

  lemma LevelsWithin(q: Queue, t: Time)
    requires Limited(q, t)
    ensures forall i :: 0 <= i < |q.shards| ==> 0.0 <= Levels(q, t)[i] <= Share(q)
  {
    RateNonNegative(q);
    forall i | 0 <= i < |q.shards| ensures 0.0 <= Levels(q, t)[i] <= Share(q) {
      RefillBounds(q.shards[i], Share(q), Rate(q), t, t);
    }
  }

  lemma PotentialWithinBurst(q: Queue, t: Time)
    requires Limited(q, t)
    ensures 0.0 <= Potential(q, t) <= q.burst && q.limit > 0.0
  {
    LevelsWithin(q, t);
    SumWithin(Levels(q, t), Share(q));
    TimesIsProduct(|q.shards|, Share(q));
    DivideKeeps(Share(q), |q.shards|, q.burst);
  }

  lemma GainTotal(limit: real, k: nat, rate: real, d: real)
    requires k > 0 && rate == limit / k as real
    ensures Times(k, d * rate) == limit * d
  {
    TimesIsProduct(k, d * rate);
    Reorder(k as real, rate, d);
    DivideKeeps(rate, k, limit);
  }

  lemma TotalGrows(xs: seq<real>, ys: seq<real>, limit: real, rate: real, d: real, g: real)
    requires |xs| == |ys| > 0 && rate == limit / |xs| as real && g == d * rate
    requires forall i :: 0 <= i < |xs| ==> ys[i] <= xs[i] + g
    ensures Sum(ys) <= Sum(xs) + limit * d
  {
    SumGrows(xs, ys, g);
    GainTotal(limit, |xs|, rate, d);
  }

  lemma LevelsGrow(q: Queue, t: Time, u: Time) returns (g: real)
    requires Limited(q, t) && t <= u
    ensures g == (u - t) * Rate(q)
    ensures forall i :: 0 <= i < |q.shards| ==> Levels(q, u)[i] <= Levels(q, t)[i] + g
  {
    g := (u - t) * Rate(q);
    RateNonNegative(q);
    forall i | 0 <= i < |q.shards| ensures Levels(q, u)[i] <= Levels(q, t)[i] + g {
      RefillBounds(q.shards[i], Share(q), Rate(q), t, u);
    }
  }

  lemma PotentialGrows(q: Queue, t: Time, u: Time)
    requires Limited(q, t) && t <= u
    ensures Potential(q, u) <= Potential(q, t) + q.limit * (u - t)
  {
    var g := LevelsGrow(q, t, u);
    TotalGrows(Levels(q, t), Levels(q, u), q.limit, Rate(q), u - t, g);
  }

  lemma ZeroTimes(d: real, rate: real)
    requires d == 0.0
    ensures d * rate == 0.0
  {
  }

  lemma FreshLevel(sh: Shard, share: real, rate: real)
    requires sh.tokens <= share
    ensures Refilled(sh, share, rate, sh.refilledAt) == sh.tokens
  {
    var t := sh.refilledAt;
    ZeroTimes(t - sh.refilledAt, rate);
    assert sh.tokens + (t - sh.refilledAt) * rate == sh.tokens;
    assert MinR(share, sh.tokens) == sh.tokens;
  }

  /** One admission: what it grants is taken out of the potential. */
  lemma AdmitPays(q: Queue, want: int, pick: Option<nat>, c: Clock, start: Time)
    requires Limited(q, start) && Orderly(c) && start <= c.slots
    ensures var r := Admit(q, want, pick, c);
            && Limited(r.queue, c.refill) && r.queue.limit == q.limit && r.queue.burst == q.burst
            && r.slots as real + Potential(r.queue, c.refill) <= Potential(q, c.refill)
  {
    var r := Admit(q, want, pick, c);
    AdmitAccounts(q, want, pick, c);
    AdmitKeepsTokens(q, want, pick, c);
    RateNonNegative(q);
    var s := r.shard;
    if r.slots > 0 {
      RefillBounds(q.shards[s], Share(q), Rate(q), c.tokens, c.refill);
      FreshLevel(r.queue.shards[s], Share(q), Rate(q));
      assert Levels(r.queue, c.refill) == Levels(q, c.refill)[s := r.queue.shards[s].tokens];
      SumUpdate(Levels(q, c.refill), s, r.queue.shards[s].tokens);
    } else {
      assert Levels(r.queue, c.refill) == Levels(q, c.refill);
    }
  }

  /** Counters and breaker may have moved; settings and buckets have not. */
  predicate SameBuckets(q: Queue, r: Queue) {
    && r.limit == q.limit && r.burst == q.burst && r.maxConcurrency == q.maxConcurrency && |r.shards| == |q.shards|
    && forall i :: 0 <= i < |q.shards| ==> r.shards[i] == q.shards[i].(inFlight := r.shards[i].inFlight)
  }

  lemma BucketsKeepPotential(q: Queue, r: Queue, t: Time)
    requires SameBuckets(q, r) && Limited(q, t)
    ensures Limited(r, t) && Potential(r, t) == Potential(q, t)
  {
    assert Share(r) == Share(q) && Rate(r) == Rate(q);
    assert forall i :: 0 <= i < |q.shards| ==> Levels(r, t)[i] == Levels(q, t)[i];
    assert Levels(r, t) == Levels(q, t);
  }

  // ---------------------------------------------------------------- settings

  /** A permitted change of settings keeps the breaker and token bounds and the counters that stay. */
  lemma ConfigureKeeps(q: Queue, t: Settings, busy: bool, now: Time)
    requires t.shards > 0 && t.burst >= 0.0 && t.limit >= 0.0
    requires Configure(q, t, busy, now).Some?
    ensures var r := Configure(q, t, busy, now).value;
            && |r.shards| == t.shards && r.maxConcurrency == t.maxConcurrency
            && r.breaker == q.breaker && r.openUntil == q.openUntil && r.probeBudget == q.probeBudget
            && (TokensOk(q) ==> TokensOk(r))
            && (forall i :: 0 <= i < t.shards ==>
                r.shards[i].inFlight == if i < |q.shards| then q.shards[i].inFlight else 0)
  {
    ShareNonNegative(t.burst, t.shards);
  }

  // ---------------------------------------------------------------- slots out above the cap

  /** The most a shard can come to hold while settings stay: its share, or what it has out now. */
  function Ceiling(q: Queue, i: nat): int
    requires i < |q.shards|
  {
    Max(ShardSlots(q.maxConcurrency, |q.shards|, i), q.shards[i].inFlight)
  }

  function CeilingSum(q: Queue, n: nat): int
    requires n <= |q.shards|
  {
    if n == 0 then 0 else CeilingSum(q, n - 1) + Ceiling(q, n - 1)
  }

  function OutSum(q: Queue, n: nat): int
    requires n <= |q.shards|
  {
    if n == 0 then 0 else OutSum(q, n - 1) + q.shards[n - 1].inFlight
  }

  /** Every slot of the queue that is out, claimed or in transit. */
  function Out(q: Queue): int { OutSum(q, |q.shards|) }

  lemma {:induction false} CeilingAboveShares(q: Queue, n: nat)
    requires 0 < |q.shards| && n <= |q.shards|
    ensures SlotSum(q.maxConcurrency, |q.shards|, n) <= CeilingSum(q, n)
    ensures CeilingSum(q, n) == SlotSum(q.maxConcurrency, |q.shards|, n) <==>
              forall i :: 0 <= i < n ==> q.shards[i].inFlight <= ShardSlots(q.maxConcurrency, |q.shards|, i)
  {
    if n > 0 {
      CeilingAboveShares(q, n - 1);
      hide ShardSlots;
    }
  }

  /** The ceilings add up to the cap itself if and only if no shard has more out than its share. */
  lemma CeilingIsCapIff(q: Queue)
    requires 0 < |q.shards|
    ensures q.maxConcurrency <= CeilingSum(q, |q.shards|)
    ensures CeilingSum(q, |q.shards|) == q.maxConcurrency <==> WithinShares(q)
  {
    CeilingAboveShares(q, |q.shards|);
    SharesAddUp(q.maxConcurrency, |q.shards|);
  }

  /** What admissions and releases may do to one queue row while its settings stay. */
  datatype Move = Take(want: int, pick: Option<nat>, clock: Clock) | Return(shard: nat, n: nat)

  function Moved(q: Queue, m: Move): Queue {
    match m
    case Take(want, pick, c) => Admit(q, want, pick, c).queue
    case Return(s, n) => Release(q, s, n)
  }

  function After(q: Queue, ms: seq<Move>): Queue {
    if ms == [] then q else Moved(After(q, ms[..|ms| - 1]), ms[|ms| - 1])
  }

  predicate NoDebt(q: Queue) { forall i :: 0 <= i < |q.shards| ==> q.shards[i].inFlight >= 0 }

  lemma ShareIsNat(maxc: int, k: nat, i: nat)
    requires k > 0 && maxc >= 0
    ensures 0 <= ShardSlots(maxc, k, i)
  {
    assert maxc / k >= 0;
  }

  lemma MoveKeepsShares(q: Queue, m: Move)
    requires WithinShares(q) && |q.shards| > 0 && q.maxConcurrency >= 0
    ensures var r := Moved(q, m); WithinShares(r) && |r.shards| == |q.shards| && r.maxConcurrency == q.maxConcurrency
  {
    match m
    case Take(want, pick, c) => AdmitAccounts(q, want, pick, c);
    case Return(s, n) => ShareIsNat(q.maxConcurrency, |q.shards|, s);
  }

  lemma {:induction false} MovesKeepShares(q: Queue, ms: seq<Move>)
    requires WithinShares(q) && |q.shards| > 0 && q.maxConcurrency >= 0
    ensures var r := After(q, ms); WithinShares(r) && |r.shards| == |q.shards| && r.maxConcurrency == q.maxConcurrency
  {
    if ms != [] {
      hide Moved, WithinShares;
      MovesKeepShares(q, ms[..|ms| - 1]);
      MoveKeepsShares(After(q, ms[..|ms| - 1]), ms[|ms| - 1]);
    }
  }

  lemma {:induction false} OutWithinShares(q: Queue, n: nat)
    requires WithinShares(q) && 0 < |q.shards| && n <= |q.shards|
    ensures OutSum(q, n) <= SlotSum(q.maxConcurrency, |q.shards|, n)
  {
    if n > 0 {
      OutWithinShares(q, n - 1);
      hide ShardSlots;
    }
  }

  // Filling every shard up, one admission each.

  const Instant: Clock := Clock(0.0, 0.0, 0.0, 0.0)

  function Fill(maxc: int, n: nat): seq<Move> {
    if n == 0 then [] else Fill(maxc, n - 1) + [Take(maxc, Some(n - 1), Instant)]
  }

  /** The first n shards stand at their ceilings. */
  predicate Filled(q: Queue, r: Queue, n: nat) {
    && r == q.(shards := r.shards) && |r.shards| == |q.shards|
    && forall i :: 0 <= i < |q.shards| ==>
        r.shards[i] == q.shards[i].(inFlight := if i < n then Ceiling(q, i) else q.shards[i].inFlight)
  }

  /** A row on which nothing but the counters limits an admission. */
  predicate Unhindered(q: Queue) {
    !q.paused && q.breaker.Closed? && q.limit == 0.0 && |q.shards| > 0 && q.maxConcurrency > 0 && NoDebt(q)
  }

  lemma {:induction false} SharesBelowCap(maxc: int, k: nat, n: nat, i: nat)
    requires 0 < k && maxc >= 0 && i < n <= k
    ensures ShardSlots(maxc, k, i) <= SlotSum(maxc, k, n)
  {
    if i < n - 1 {
      SharesBelowCap(maxc, k, n - 1, i);
      ShareIsNat(maxc, k, n - 1);
    } else {
      SumIsNat(maxc, k, n - 1);
    }
  }

  lemma {:induction false} SumIsNat(maxc: int, k: nat, n: nat)
    requires 0 < k && maxc >= 0 && n <= k
    ensures SlotSum(maxc, k, n) >= 0
  {
    if n > 0 {
      SumIsNat(maxc, k, n - 1);
      ShareIsNat(maxc, k, n - 1);
    }
  }

  lemma FillOne(q: Queue, r: Queue, n: nat)
    requires Unhindered(q) && n < |q.shards| && Filled(q, r, n)
    ensures Filled(q, Admit(r, q.maxConcurrency, Some(n), Instant).queue, n + 1)
  {
    SharesBelowCap(q.maxConcurrency, |q.shards|, |q.shards|, n);
    SharesAddUp(q.maxConcurrency, |q.shards|);
    var share := ShardSlots(q.maxConcurrency, |q.shards|, n);
    hide ShardSlots;
    assert r.shards[n] == q.shards[n];
    assert Allowed(r, n, q.maxConcurrency, Instant) == Max(share - q.shards[n].inFlight, 0);
  }

  lemma {:induction false} FillFills(q: Queue, n: nat)
    requires Unhindered(q) && n <= |q.shards|
    ensures Filled(q, After(q, Fill(q.maxConcurrency, n)), n)
  {
    if n > 0 {
      var ms := Fill(q.maxConcurrency, n);
      assert ms[..|ms| - 1] == Fill(q.maxConcurrency, n - 1);
      FillFills(q, n - 1);
      hide Filled, Admit;
      FillOne(q, After(q, ms[..|ms| - 1]), n - 1);
    }
  }

  lemma {:induction false} FilledOut(q: Queue, r: Queue, n: nat)
    requires Filled(q, r, |q.shards|) && n <= |q.shards|
    ensures OutSum(r, n) == CeilingSum(q, n)
  {
    if n > 0 {
      FilledOut(q, r, n - 1);
      hide Ceiling;
    }
  }

  ghost predicate StaysUnderCap(q: Queue) {
    forall ms: seq<Move> :: Out(After(q, ms)) <= q.maxConcurrency
  }

  /** Whatever admissions and releases follow, the slots out stay within the cap if and only if no
      shard has more out than its share now: an overfull shard does not stop the others from
      filling up to theirs. */
  lemma UnderCapIff(q: Queue)
    requires Unhindered(q)
    ensures StaysUnderCap(q) <==> WithinShares(q)
  {
    CeilingIsCapIff(q);
    if WithinShares(q) {
      forall ms: seq<Move> ensures Out(After(q, ms)) <= q.maxConcurrency {
        MovesKeepShares(q, ms);
        var r := After(q, ms);
        OutWithinShares(r, |r.shards|);
        SharesAddUp(q.maxConcurrency, |q.shards|);
      }
    } else {
      var ms := Fill(q.maxConcurrency, |q.shards|);
      FillFills(q, |q.shards|);
      FilledOut(q, After(q, ms), |q.shards|);
      assert Out(After(q, ms)) > q.maxConcurrency;
    }
  }

  // ---------------------------------------------------------------- the breaker read without a lock

  /** fl.queue_admit as the source runs it: `seen` is the breaker state of its first, unlocked read;
      the row is read again under a lock only when that was not closed. */
  function AdmitSeen(seen: Breaker, q: Queue, want: int, pick: Option<nat>, c: Clock): Admitted {
    if q.paused then Admitted(q, 0, 0)
    else
      var probing := !seen.Closed?;
      if probing && q.breaker.Open? && q.openUntil.Some? && q.openUntil.value > c.breaker then Admitted(q, 0, 0)
      else
        var q1 := if probing && q.breaker.Open? then q.(breaker := HalfOpen, probeBudget := 1) else q;
        if probing && q1.probeBudget <= 0 then Admitted(q1, 0, 0)
        else if pick.None? || pick.value >= |q.shards| then Admitted(q1, 0, 0)
        else
          var n := Allowed(q1, pick.value, if probing then 1 else want, c);
          if n <= 0 then Admitted(q1, 0, pick.value)
          else
            var q2 := TakeSlots(q1, pick.value, n, c);
            Admitted(if probing then q2.(probeBudget := q2.probeBudget - n) else q2, n, pick.value)
  }

  lemma SeenTrueIsAdmit(seen: Breaker, q: Queue, want: int, pick: Option<nat>, c: Clock)
    requires seen.Closed? <==> q.breaker.Closed?
    ensures AdmitSeen(seen, q, want, pick, c) == Admit(q, want, pick, c)
  {
    hide Allowed, TakeSlots;
  }

  /** The first shard has a slot to give. */
  predicate HasRoom(q: Queue) {
    !q.paused && q.limit == 0.0 && |q.shards| > 0 && q.shards[0].inFlight < ShardSlots(q.maxConcurrency, |q.shards|, 0)
  }

  /** A trip that falls between the two reads: a slot is granted on an open breaker. */
  lemma ClosedReadGrants(q: Queue, c: Clock)
    requires HasRoom(q)
    ensures AdmitSeen(Closed, q, 1, Some(0), c).slots == 1
    ensures !q.breaker.Closed? ==> AdmitSeen(Closed, q, 1, Some(0), c) != Admit(q, 1, Some(0), c)
  {
    assert Allowed(q, 0, 1, c) == 1;
    hide Allowed, ShardSlots;
  }

  lemma OpenReadRefuses(seen: Breaker, q: Queue, c: Clock)
    requires HasRoom(q) && BreakerOk(q) && q.breaker.Closed? && !seen.Closed?
    ensures AdmitSeen(seen, q, 1, Some(0), c).slots == 0 && Admit(q, 1, Some(0), c).slots == 1
  {
    assert Allowed(q, 0, 1, c) == 1;
    hide Allowed, ShardSlots;
  }

  /** Reading the breaker without a lock makes no difference to any admission if and only if what was
      read agrees with the row on whether the breaker is closed. */
  lemma SeenBreakerIff(seen: Breaker, q: Queue)
    requires HasRoom(q) && BreakerOk(q)
    ensures (forall want, pick, c :: AdmitSeen(seen, q, want, pick, c) == Admit(q, want, pick, c)) <==>
        (seen.Closed? <==> q.breaker.Closed?)
  {
    if seen.Closed? <==> q.breaker.Closed? {
      forall want, pick, c ensures AdmitSeen(seen, q, want, pick, c) == Admit(q, want, pick, c) {
        SeenTrueIsAdmit(seen, q, want, pick, c);
      }
    } else {
      hide Admit, AdmitSeen, HasRoom, BreakerOk;
      if seen.Closed? { ClosedReadGrants(q, Instant); } else { OpenReadRefuses(seen, q, Instant); }
      assert AdmitSeen(seen, q, 1, Some(0), Instant) != Admit(q, 1, Some(0), Instant);
    }
  }
}
