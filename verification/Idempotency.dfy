/** Concurrent submissions that carry the same idempotency key.

    Each client runs the transaction of submitJob step by step, at read committed, inside the
    bounded retry loop of Server.tx.  A row of the key table that another open transaction has
    inserted or deleted makes an insert or delete of that key wait. */
module Idempotency {
  import opened Schema

  type ClientId = nat
  type Digest = nat

  const MaxTries: nat := 5

  datatype Key = Key(job: JobId, digest: Digest, expired: bool)

  datatype Answer = Created(job: JobId) | Existing(job: JobId) | Mismatch | GaveUp | Failed

  datatype Phase =
    | Ready
    | Stale
    | Searched
    | Inserted(job: JobId)
    | Keyed(job: JobId)
    | Answered(answer: Answer)

  /** `deleted`: the open transaction has deleted the committed key row. */
  datatype Client = Client(digest: Digest, tries: nat, phase: Phase, deleted: bool)

  /** `jobs` are the jobs these submissions have committed, `used` every job id drawn so far. */
  datatype World = World(clients: map<ClientId, Client>, key: Option<Key>, jobs: set<JobId>, used: set<JobId>)

  datatype Move =
    | Find(c: ClientId)
    | Delete(c: ClientId, sees: bool)
    | InsertJob(c: ClientId, id: JobId)
    | InsertKey(c: ClientId)
    | Commit(c: ClientId)
    | Abort(c: ClientId, retryable: bool)
    | Prune

  // ---------------------------------------------------------------- transactions

  predicate Locks(c: Client) { c.deleted || c.phase.Keyed? }

  /** No other open transaction holds the key's row. */
  predicate Free(w: World, c: ClientId) {
    forall d :: d in w.clients && d != c ==> !Locks(w.clients[d])
  }

  /** Roll back; try again unless the retries are used up. */
  function Again(c: Client): Client {
    c.(deleted := false, tries := c.tries + 1, phase := if c.tries + 1 >= MaxTries then Answered(GaveUp) else Ready)
  }

  function Put(w: World, c: ClientId, r: Client): World { w.(clients := w.clients[c := r]) }

  function FindKey(w: World, c: ClientId): World
    requires c in w.clients
  {
    var r := w.clients[c];
    if w.key.None? then Put(w, c, r.(phase := Searched))
    else if w.key.value.expired then Put(w, c, r.(phase := Stale))
    else if w.key.value.digest != r.digest then Put(w, c, r.(phase := Answered(Mismatch)))
    else Put(w, c, r.(phase := Answered(Existing(w.key.value.job))))
  }

  /** The row this transaction would collide with. */
  predicate KeyTaken(w: World, c: ClientId)
    requires c in w.clients
  {
    w.key.Some? && !w.clients[c].deleted
  }

  /** A move that is not enabled waits, or does not exist. */
  function Next(w: World, m: Move): World {
    match m
    case Prune =>
      if w.key.Some? && w.key.value.expired && forall d :: d in w.clients ==> !Locks(w.clients[d])
      then w.(key := None) else w
    case Find(c) => if c in w.clients && w.clients[c].phase.Ready? then FindKey(w, c) else w
    case Delete(c, sees) =>
      if !(c in w.clients && w.clients[c].phase.Stale? && Free(w, c)) then w
      else Put(w, c, w.clients[c].(phase := Searched, deleted := sees && w.key.Some?))
    case InsertJob(c, id) =>
      if !(c in w.clients && w.clients[c].phase.Searched? && id !in w.used) then w
      else Put(w, c, w.clients[c].(phase := Inserted(id))).(used := w.used + {id})
    case InsertKey(c) =>
      if !(c in w.clients && w.clients[c].phase.Inserted? && Free(w, c)) then w
      else if KeyTaken(w, c) then Put(w, c, Again(w.clients[c]))
      else Put(w, c, w.clients[c].(phase := Keyed(w.clients[c].phase.job)))
    case Commit(c) =>
      if !(c in w.clients && w.clients[c].phase.Keyed?) then w
      else
        var r := w.clients[c];
        Put(w, c, r.(phase := Answered(Created(r.phase.job)), deleted := false)).(
          key := Some(Key(r.phase.job, r.digest, false)), jobs := w.jobs + {r.phase.job})
    case Abort(c, retryable) =>
      if !(c in w.clients) || w.clients[c].phase.Answered? then w
      else Put(w, c, if retryable then Again(w.clients[c])
        else w.clients[c].(phase := Answered(Failed), deleted := false))
  }

  predicate IsRun(ws: seq<World>, ms: seq<Move>) {
    |ws| == |ms| + 1 && forall i :: 0 <= i < |ms| ==> ws[i + 1] == Next(ws[i], ms[i])
  }

  /** Nobody has begun. */
  predicate Start(w: World) {
    && w.jobs == {} && (w.key.Some? ==> w.key.value.job in w.used)
    && forall c :: c in w.clients ==> w.clients[c].phase.Ready? && w.clients[c].tries == 0 && !w.clients[c].deleted
  }

  predicate KeyExpired(w: World) { w.key.Some? && w.key.value.expired }

  // ---------------------------------------------------------------- one job per key

  /** Where the key row stands between two transactions, given the row there was at the start. */
  predicate KeyOk(k0: Option<Key>, w: World) {
    && (w.key.Some? ==> !w.key.value.expired)
    && (w.key.None? ==> k0.None? && w.jobs == {})
    && (w.key.Some? ==> if k0.Some? then w.key == k0 && w.jobs == {} else w.jobs == {w.key.value.job})
  }

  /** What a client may be in the middle of, or has been told. */
  predicate ClientOk(k0: Option<Key>, w: World, c: Client) {
    && !c.deleted && !c.phase.Stale?
    && (c.phase.Keyed? ==> w.key.None?)
    && (c.phase.Answered? ==>
          match c.phase.answer
          case Created(j) => w.key.Some? && w.key.value.job == j && w.key.value.digest == c.digest && k0.None?
          case Existing(j) => w.key.Some? && w.key.value.job == j && w.key.value.digest == c.digest
          case Mismatch => w.key.Some? && w.key.value.digest != c.digest
          case GaveUp => c.tries == MaxTries
          case Failed => true)
    && c.tries <= MaxTries && (!c.phase.Answered? ==> c.tries < MaxTries)
  }

  predicate Writes(c: Client) { c.phase.Keyed? || Creator(c) }

  predicate OneWriter(w: World) {
    forall c, d :: c in w.clients && d in w.clients && Writes(w.clients[c]) && Writes(w.clients[d]) ==> c == d
  }

  predicate KeysOk(k0: Option<Key>, w: World) {
    && KeyOk(k0, w) && OneWriter(w)
    && (forall c :: c in w.clients ==> ClientOk(k0, w, w.clients[c]))
    && (w.key.Some? && k0.None? ==>
        exists c :: c in w.clients && w.clients[c].phase == Answered(Created(w.key.value.job)))
  }

  lemma CommitKeeps(k0: Option<Key>, w: World, c: ClientId)
    requires KeysOk(k0, w) && c in w.clients && w.clients[c].phase.Keyed?
    ensures KeysOk(k0, Next(w, Commit(c)))
  {
    var n := Next(w, Commit(c));
    assert ClientOk(k0, w, w.clients[c]);
    assert n.clients[c].phase == Answered(Created(n.key.value.job));
    forall d | d in n.clients ensures ClientOk(k0, n, n.clients[d]) {
      assert ClientOk(k0, w, w.clients[d]);
    }
  }

  /** One client moves without touching the key or the jobs. */
  lemma ClientMoves(k0: Option<Key>, w: World, n: World, c: ClientId)
    requires KeysOk(k0, w) && c in w.clients && c in n.clients && n.clients == w.clients[c := n.clients[c]]
    requires n.key == w.key && n.jobs == w.jobs
    requires ClientOk(k0, n, n.clients[c]) && !(w.clients[c].phase.Answered?)
    requires Writes(n.clients[c]) ==> w.key.None? && Free(w, c) && n.clients[c].phase.Keyed?
    ensures KeysOk(k0, n)
  {
    forall d | d in n.clients ensures ClientOk(k0, n, n.clients[d]) {
      assert d in w.clients && ClientOk(k0, w, w.clients[d]);
    }
    if w.key.Some? && k0.None? {
      var d :| d in w.clients && w.clients[d].phase == Answered(Created(w.key.value.job));
      assert n.clients[d] == w.clients[d];
    }
    forall d, e | d in n.clients && e in n.clients && Writes(n.clients[d]) && Writes(n.clients[e]) ensures d == e {
      assert d in w.clients && e in w.clients && ClientOk(k0, w, w.clients[d]) && ClientOk(k0, w, w.clients[e]);
    }
  }

  lemma MoveKeepsKeys(k0: Option<Key>, w: World, m: Move)
    requires KeysOk(k0, w)
    ensures KeysOk(k0, Next(w, m))
  {
    var n := Next(w, m);
    if n != w && !m.Prune? {
      assert m.c in w.clients && ClientOk(k0, w, w.clients[m.c]);
      if m.Commit? {
        CommitKeeps(k0, w, m.c);
      } else {
        ClientMoves(k0, w, n, m.c);
      }
    }
  }

  lemma {:induction false} RunKeepsKeys(ws: seq<World>, ms: seq<Move>, i: nat)
    requires IsRun(ws, ms) && Start(ws[0]) && !KeyExpired(ws[0]) && i < |ws|
    ensures KeysOk(ws[0].key, ws[i])
  {
    if i > 0 {
      RunKeepsKeys(ws, ms, i - 1);
      hide KeysOk, Next;
      MoveKeepsKeys(ws[0].key, ws[i - 1], ms[i - 1]);
    }
  }

  predicate Creator(c: Client) { c.phase.Answered? && c.phase.answer.Created? }

  predicate Succeeded(c: Client) { c.phase.Answered? && (c.phase.answer.Created? || c.phase.answer.Existing?) }

  /** For a key that was absent at the start, under any interleaving: one job is committed if any
      submission succeeds, and none otherwise; every success returns that job and carries the
      fingerprint it was created with; one client created it; any other fingerprint, and a client
      that ran out of retries, created nothing. */
  lemma OneJobPerKey(ws: seq<World>, ms: seq<Move>, i: nat, c: ClientId, d: ClientId)
    requires IsRun(ws, ms) && Start(ws[0]) && ws[0].key.None? && i < |ws| && c in ws[i].clients && d in ws[i].clients
    ensures var w := ws[i];
            && |w.jobs| <= 1
            && (Succeeded(w.clients[c]) ==> w.jobs == {w.clients[c].phase.answer.job})
            && (Succeeded(w.clients[c]) && Succeeded(w.clients[d]) ==>
                  w.clients[c].phase.answer.job == w.clients[d].phase.answer.job
                    && w.clients[c].digest == w.clients[d].digest)
            && (w.jobs != {} ==> exists e :: e in w.clients && Creator(w.clients[e]))
            && (Creator(w.clients[c]) && Creator(w.clients[d]) ==> c == d)
  {
    RunKeepsKeys(ws, ms, i);
    hide IsRun, Start;
    var w := ws[i];
    assert ClientOk(None, w, w.clients[c]) && ClientOk(None, w, w.clients[d]);
    if w.jobs != {} {
      assert w.key.Some?;
      var e :| e in w.clients && w.clients[e].phase == Answered(Created(w.key.value.job));
    }
  }

  /** For a key that was already there and has not expired, nothing is created. */
  lemma KnownKeyCreatesNothing(ws: seq<World>, ms: seq<Move>, i: nat, c: ClientId)
    requires IsRun(ws, ms) && Start(ws[0]) && ws[0].key.Some? && !ws[0].key.value.expired && i < |ws|
        && c in ws[i].clients
    ensures ws[i].jobs == {} && ws[i].key == ws[0].key
    ensures Succeeded(ws[i].clients[c]) ==>
              ws[i].clients[c].phase.answer == Existing(ws[0].key.value.job)
                && ws[i].clients[c].digest == ws[0].key.value.digest
  {
    RunKeepsKeys(ws, ms, i);
    hide IsRun, Start;
    assert ClientOk(ws[0].key, ws[i], ws[i].clients[c]);
  }

  // ---------------------------------------------------------------- an expired key

  /** Two clients that both found the key expired: the second deletes the row the first has just
      committed, because the delete does not look at the expiry. */
  function Script(a: ClientId, b: ClientId, x: JobId, y: JobId): seq<Move> {
    [Find(a), Find(b)] + RewriteMoves(a, x) + RewriteMoves(b, y)
  }

  function RewriteMoves(c: ClientId, id: JobId): seq<Move> {
    [Delete(c, true), InsertJob(c, id), InsertKey(c), Commit(c)]
  }

  function End(w: World, ms: seq<Move>): World {
    if ms == [] then w else Next(End(w, ms[..|ms| - 1]), ms[|ms| - 1])
  }

  function Play(w: World, ms: seq<Move>): seq<World> {
    if ms == [] then [w] else Play(w, ms[..|ms| - 1]) + [End(w, ms)]
  }

  lemma {:induction false} PlayIsRun(w: World, ms: seq<Move>)
    ensures IsRun(Play(w, ms), ms) && Play(w, ms)[0] == w && Play(w, ms)[|ms|] == End(w, ms)
  {
    if ms != [] {
      PlayIsRun(w, ms[..|ms| - 1]);
    }
  }

  lemma {:induction false} EndJoin(w: World, a: seq<Move>, b: seq<Move>)
    ensures End(w, a + b) == End(End(w, a), b)
  {
    if b == [] {
      assert a + b == a;
    } else {
      EndJoin(w, a, b[..|b| - 1]);
      assert (a + b)[..|a + b| - 1] == a + b[..|b| - 1];
    }
  }

  /** One client's whole transaction over an expired or newly written key, from its delete on. */
  function Rewrite(w: World, c: ClientId, id: JobId): World {
    Next(Next(Next(Next(w, Delete(c, true)), InsertJob(c, id)), InsertKey(c)), Commit(c))
  }

  lemma RewriteCreates(w: World, c: ClientId, id: JobId)
    requires c in w.clients && w.clients[c].phase.Stale? && Free(w, c) && w.key.Some? && id !in w.used
    ensures var n := Rewrite(w, c, id);
            && n.jobs == w.jobs + {id} && n.used == w.used + {id} && n.key == Some(Key(id, w.clients[c].digest, false))
            && n.clients.Keys == w.clients.Keys && !Locks(n.clients[c])
            && (forall d :: d in w.clients && d != c ==> n.clients[d] == w.clients[d])
  {
    var w1 := Next(w, Delete(c, true));
    assert Free(w1, c);
    var w2 := Next(w1, InsertJob(c, id));
    assert Free(w2, c);
    var w3 := Next(w2, InsertKey(c));
    assert w3.clients[c].phase == Keyed(id);
  }

  lemma EndOne(w: World, m: Move, rest: seq<Move>)
    ensures End(w, [m] + rest) == End(Next(w, m), rest)
  {
    EndJoin(w, [m], rest);
    assert [m][..0] == [];
    assert End(w, [m]) == Next(End(w, []), m);
  }

  lemma RewriteEnds(w: World, c: ClientId, id: JobId)
    ensures End(w, RewriteMoves(c, id)) == Rewrite(w, c, id)
  {
    hide Next;
    var w1 := Next(w, Delete(c, true));
    var w2 := Next(w1, InsertJob(c, id));
    var w3 := Next(w2, InsertKey(c));
    assert RewriteMoves(c, id) == [Delete(c, true)] + ([InsertJob(c, id)] + ([InsertKey(c)] + ([Commit(c)] + [])));
    EndOne(w, Delete(c, true), [InsertJob(c, id)] + ([InsertKey(c)] + ([Commit(c)] + [])));
    EndOne(w1, InsertJob(c, id), [InsertKey(c)] + ([Commit(c)] + []));
    EndOne(w2, InsertKey(c), [Commit(c)] + []);
    EndOne(w3, Commit(c), []);
  }

  lemma ScriptEnds(w: World, a: ClientId, b: ClientId, x: JobId, y: JobId)
    ensures End(w, Script(a, b, x, y)) == Rewrite(Rewrite(Next(Next(w, Find(a)), Find(b)), a, x), b, y)
  {
    hide Next, Rewrite, RewriteMoves;
    var u := Next(Next(w, Find(a)), Find(b));
    EndJoin(w, [Find(a), Find(b)] + RewriteMoves(a, x), RewriteMoves(b, y));
    EndJoin(w, [Find(a), Find(b)], RewriteMoves(a, x));
    assert [Find(a), Find(b)] == [Find(a)] + ([Find(b)] + []);
    EndOne(w, Find(a), [Find(b)] + []);
    EndOne(Next(w, Find(a)), Find(b), []);
    RewriteEnds(u, a, x);
    RewriteEnds(Rewrite(u, a, x), b, y);
  }

  lemma ExpiredKeyMakesTwoJobs(w: World, a: ClientId, b: ClientId, x: JobId, y: JobId)
    requires Start(w) && KeyExpired(w) && a in w.clients && b in w.clients && a != b && x !in w.used && y !in w.used
        && x != y
    ensures End(w, Script(a, b, x, y)).jobs == {x, y}
  {
    var u := Next(Next(w, Find(a)), Find(b));
    assert u.key == w.key && u.used == w.used && u.jobs == {} && u.clients.Keys == w.clients.Keys;
    assert u.clients[a].phase.Stale? && u.clients[b].phase.Stale?;
    assert forall d :: d in u.clients ==> !Locks(u.clients[d]);
    RewriteCreates(u, a, x);
    var n := Rewrite(u, a, x);
    hide Rewrite;
    RewriteCreates(n, b, y);
    ScriptEnds(w, a, b, x, y);
  }

  ghost predicate AtMostOneJob(w: World) {
    forall ws: seq<World>, ms: seq<Move> :: IsRun(ws, ms) && ws[0] == w ==> |ws[|ws| - 1].jobs| <= 1
  }

  lemma ExpiredBreaks(w: World, a: ClientId, b: ClientId, x: JobId, y: JobId)
    requires Start(w) && KeyExpired(w) && a in w.clients && b in w.clients && a != b && x !in w.used && y !in w.used
        && x != y
    ensures !AtMostOneJob(w)
  {
    var ms := Script(a, b, x, y);
    var ws := Play(w, ms);
    PlayIsRun(w, ms);
    ExpiredKeyMakesTwoJobs(w, a, b, x, y);
    assert |ws| == |ms| + 1;
    hide Play, Script, IsRun, End;
    assert |{x, y}| == 2;
  }

  /** With two or more clients, submissions sharing a key commit at most one job in every run if
      and only if the run does not start from an expired row of that key. */
  lemma OneJobIffNotExpired(w: World, a: ClientId, b: ClientId, x: JobId, y: JobId)
    requires Start(w) && a in w.clients && b in w.clients && a != b && x !in w.used && y !in w.used && x != y
    ensures AtMostOneJob(w) <==> !KeyExpired(w)
  {
    if KeyExpired(w) {
      ExpiredBreaks(w, a, b, x, y);
    } else {
      forall ws: seq<World>, ms: seq<Move> | IsRun(ws, ms) && ws[0] == w ensures |ws[|ws| - 1].jobs| <= 1 {
        RunKeepsKeys(ws, ms, |ws| - 1);
      }
    }
  }

  // ---------------------------------------------------------------- a client on its own

  /** A submission that nobody disturbs is answered: with a new job and a new key row where there was no
      row or an expired one, with the job of the row where the fingerprints agree, and with a mismatch
      where they do not. */
  lemma UndisturbedIsAnswered(w: World, c: ClientId, id: JobId)
    requires c in w.clients && w.clients[c].phase.Ready? && !w.clients[c].deleted && Free(w, c) && id !in w.used
    ensures var r := w.clients[c];
            var plain := Next(Next(Next(Next(w, Find(c)), InsertJob(c, id)), InsertKey(c)), Commit(c));
            var again := Next(Next(Next(Next(Next(w, Find(c)), Delete(c, true)), InsertJob(c, id)), InsertKey(c)),
                Commit(c));
            var t := if w.key.Some? && w.key.value.expired then again else plain;
            && c in t.clients
            && (w.key.None? || w.key.value.expired ==>
                 && t.clients[c].phase == Answered(Created(id)) && t.jobs == w.jobs + {id}
                 && t.key == Some(Key(id, r.digest, false)))
            && (w.key.Some? && !w.key.value.expired ==>
                 && t.jobs == w.jobs && t.key == w.key
                 && t.clients[c].phase ==
                     Answered(if w.key.value.digest == r.digest then Existing(w.key.value.job) else Mismatch))
  {
  }

  /** A client whose insert meets a committed key rolls back and starts over; the fifth time it gives up. */
  lemma CollisionRetries(w: World, c: ClientId)
    requires c in w.clients && w.clients[c].phase.Inserted? && Free(w, c) && w.key.Some? && !w.clients[c].deleted
    ensures var t := Next(w, InsertKey(c));
            && c in t.clients && t.jobs == w.jobs && t.key == w.key && t.clients[c].tries == w.clients[c].tries + 1
            && t.clients[c].phase == (if w.clients[c].tries >= 4 then Answered(GaveUp) else Ready)
  {
  }

  // ---------------------------------------------------------------- the retry loop

  datatype Try<T> = Done(value: T) | Error(code: nat, retryable: bool)

  /** Server.tx: the i-th entry is what the i-th attempt, commit included, came to. */
  method Transact<T>(attempts: seq<Try<T>>) returns (r: Try<T>, used: nat)
    requires |attempts| == MaxTries
    ensures 1 <= used <= 5 && r == attempts[used - 1]
    ensures forall i :: 0 <= i < used - 1 ==> attempts[i].Error? && attempts[i].retryable
    ensures r.Error? && r.retryable ==> used == 5
  {
    var i := 0;
    r, used := attempts[0], 0;
    while i < MaxTries
      invariant 0 <= i <= MaxTries && used == i
      invariant forall k :: 0 <= k < i ==> attempts[k].Error? && attempts[k].retryable
      invariant i > 0 ==> r == attempts[i - 1]
    {
      r := attempts[i];
      used := i + 1;
      if r.Done? || !r.retryable { return; }
      i := i + 1;
    }
  }
}
