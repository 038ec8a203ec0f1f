/** The event outbox: concurrent transactions that append events under a lock per project, and
    readers that poll by id.

    fl.emit takes an advisory lock whose key is a hash of the project, then draws an id from one
    global sequence and inserts the row; rows become visible and locks are freed at commit.  The
    hash is an arbitrary function, so projects may share a lock. */
module Outbox {
  import opened Schema

  type TxId = nat
  type EventId = nat
  type Hash = ProjectId -> nat

  datatype Tx = Tx(locks: set<nat>, pending: map<EventId, Event>)

  datatype World = World(nextId: nat, txs: map<TxId, Tx>, visible: map<EventId, Event>)

  datatype Move =
    | Begin(tx: TxId)
    | Lock(tx: TxId, project: ProjectId)
    | Insert(tx: TxId, event: Event, skipped: nat)
    | Commit(tx: TxId)
    | Rollback(tx: TxId)

  predicate Free(w: World, t: TxId, key: nat) {
    forall u :: u in w.txs && u != t ==> key !in w.txs[u].locks
  }

  /** A move that cannot be made now: the lock is held elsewhere, or the call makes no sense. */
  predicate Enabled(w: World, m: Move, h: Hash) {
    match m
    case Begin(t) => t !in w.txs
    case Lock(t, p) => t in w.txs && Free(w, t, h(p))
    case Insert(t, e, _) => t in w.txs && h(e.project) in w.txs[t].locks
    case Commit(t) => t in w.txs
    case Rollback(t) => t in w.txs
  }

  /** `skipped` ids of the sequence went to others or were lost. */
  function Next(w: World, m: Move, h: Hash): World {
    if !Enabled(w, m, h) then w
    else
      match m
      case Begin(t) => w.(txs := w.txs[t := Tx({}, map[])])
      case Lock(t, p) => w.(txs := w.txs[t := w.txs[t].(locks := w.txs[t].locks + {h(p)})])
      case Insert(t, e, skipped) =>
        var id := w.nextId + skipped;
        w.(nextId := id + 1, txs := w.txs[t := w.txs[t].(pending := w.txs[t].pending[id := e])])
      case Commit(t) => w.(txs := w.txs - {t}, visible := w.visible + w.txs[t].pending)
      case Rollback(t) => w.(txs := w.txs - {t})
  }

  predicate IsHistory(ws: seq<World>, ms: seq<Move>, h: Hash) {
    |ws| == |ms| + 1 && forall i :: 0 <= i < |ms| ==> ws[i + 1] == Next(ws[i], ms[i], h)
  }

  predicate Empty(w: World) { w.nextId >= 1 && w.txs == map[] && w.visible == map[] }

  // ---------------------------------------------------------------- what commits is seen

  /** A transaction that finds the project's lock free emits its event, and the commit shows it under the
      id it drew. */
  lemma EmitSucceeds(w: World, t: TxId, e: Event, skipped: nat, h: Hash)
    requires t !in w.txs && forall u :: u in w.txs ==> h(e.project) !in w.txs[u].locks
    ensures var b := Next(Next(w, Begin(t), h), Lock(t, e.project), h);
            var n := Next(Next(b, Insert(t, e, skipped), h), Commit(t), h);
            && n.visible == w.visible[w.nextId + skipped := e] && n.nextId == w.nextId + skipped + 1
            && n.txs == w.txs
  {
    var b := Next(Next(w, Begin(t), h), Lock(t, e.project), h);
    assert t in b.txs && h(e.project) in b.txs[t].locks && b.txs[t].pending == map[];
    var n := Next(Next(b, Insert(t, e, skipped), h), Commit(t), h);
    assert n.txs == w.txs;
  }

  /** The transaction stays open from i up to k. */
  predicate StaysOpen(ms: seq<Move>, t: TxId, i: nat, k: nat) {
    forall m :: i <= m < k && m < |ms| ==> ms[m] != Commit(t) && ms[m] != Rollback(t)
  }

  lemma {:induction false} PendingStays(ws: seq<World>, ms: seq<Move>, h: Hash, i: nat, k: nat, t: TxId, id: EventId)
    requires IsHistory(ws, ms, h) && i <= k < |ws| && StaysOpen(ms, t, i, k)
    requires OutboxOk(ws[i], h) && t in ws[i].txs && id in ws[i].txs[t].pending
    ensures OutboxOk(ws[k], h) && t in ws[k].txs && id in ws[k].txs[t].pending
    ensures ws[k].txs[t].pending[id] == ws[i].txs[t].pending[id]
    decreases k - i
  {
    hide OutboxOk, Next;
    if i < k {
      PendingStays(ws, ms, h, i, k - 1, t, id);
      MoveKeepsOutbox(ws[k - 1], ms[k - 1], h);
      PendingMoves(ws[k - 1], ms[k - 1], h, t, id);
    }
  }

  lemma PendingMoves(w: World, m: Move, h: Hash, t: TxId, id: EventId)
    requires OutboxOk(w, h) && t in w.txs && id in w.txs[t].pending && m != Commit(t) && m != Rollback(t)
    ensures var n := Next(w, m, h);
            t in n.txs && id in n.txs[t].pending && n.txs[t].pending[id] == w.txs[t].pending[id]
  {
    PendingAll(w, t, h);
    hide OutboxOk;
  }

  lemma PendingAll(w: World, t: TxId, h: Hash)
    requires OutboxOk(w, h) && t in w.txs
    ensures PendingOk(w, w.txs[t], h)
  {
  }

  /** In every history an event that was inserted is seen from its transaction's commit on, for good. */
  lemma CommittedIsSeen(ws: seq<World>, ms: seq<Move>, h: Hash, i: nat, k: nat, j: nat, t: TxId, id: EventId)
    requires IsHistory(ws, ms, h) && Empty(ws[0]) && i <= k < j < |ws| && StaysOpen(ms, t, i, k) && ms[k] == Commit(t)
    requires t in ws[i].txs && id in ws[i].txs[t].pending
    ensures id in ws[j].visible && ws[j].visible[id] == ws[i].txs[t].pending[id]
  {
    HistoryKeepsOutbox(ws, ms, h, i);
    PendingStays(ws, ms, h, i, k, t, id);
    HistoryAppends(ws, ms, h, k + 1, j);
    hide OutboxOk, Empty;
    assert ws[k + 1] == Next(ws[k], ms[k], h);
  }

  /** The id has been drawn and is neither seen nor pending. */
  predicate Spent(w: World, id: EventId) {
    id < w.nextId && id !in w.visible && forall t :: t in w.txs ==> id !in w.txs[t].pending
  }

  lemma SpentStays(w: World, m: Move, h: Hash, id: EventId)
    requires Spent(w, id)
    ensures Spent(Next(w, m, h), id)
  {
  }

  /** An event whose transaction rolls back is never seen. */
  lemma {:induction false} RolledBackIsNeverSeen(ws: seq<World>, ms: seq<Move>, h: Hash, k: nat, j: nat, t: TxId,
      id: EventId)
    requires IsHistory(ws, ms, h) && Empty(ws[0]) && k < j < |ws| && ms[k] == Rollback(t)
    requires t in ws[k].txs && id in ws[k].txs[t].pending
    ensures Spent(ws[j], id)
    decreases j
  {
    if j == k + 1 {
      HistoryKeepsOutbox(ws, ms, h, k);
      PendingAll(ws[k], t, h);
      assert ws[j] == Next(ws[k], ms[k], h);
      hide PendingOk;
    } else {
      hide Spent, Next;
      RolledBackIsNeverSeen(ws, ms, h, k, j - 1, t, id);
      SpentStays(ws[j - 1], ms[j - 1], h, id);
    }
  }

  // ---------------------------------------------------------------- commit order is id order

  predicate LocksExclusive(w: World) {
    forall t, u :: t in w.txs && u in w.txs && t != u ==> w.txs[t].locks !! w.txs[u].locks
  }

  predicate PendingOk(w: World, t: Tx, h: Hash) {
    forall id :: id in t.pending ==>
      && 1 <= id < w.nextId && id !in w.visible && h(t.pending[id].project) in t.locks
      && (forall v :: v in w.visible && h(w.visible[v].project) == h(t.pending[id].project) ==> v < id)
  }

  predicate OutboxOk(w: World, h: Hash) {
    && LocksExclusive(w) && w.nextId >= 1
    && (forall v :: v in w.visible ==> 1 <= v < w.nextId)
    && (forall t :: t in w.txs ==> PendingOk(w, w.txs[t], h))
    && (forall t, u :: t in w.txs && u in w.txs && t != u ==> w.txs[t].pending.Keys !! w.txs[u].pending.Keys)
  }

  lemma InsertKeepsOutbox(w: World, t: TxId, e: Event, skipped: nat, h: Hash)
    requires OutboxOk(w, h) && t in w.txs && h(e.project) in w.txs[t].locks
    ensures OutboxOk(Next(w, Insert(t, e, skipped), h), h)
  {
    var n := Next(w, Insert(t, e, skipped), h);
    forall u | u in n.txs ensures PendingOk(n, n.txs[u], h) {
      assert PendingOk(w, w.txs[u], h);
    }
    assert LocksExclusive(n);
    hide LocksExclusive;
    forall u, v | u in n.txs && v in n.txs && u != v ensures n.txs[u].pending.Keys !! n.txs[v].pending.Keys {
      assert PendingOk(w, w.txs[u], h) && PendingOk(w, w.txs[v], h);
      assert w.txs[u].pending.Keys !! w.txs[v].pending.Keys;
    }
  }

  lemma CommitKeepsOutbox(w: World, t: TxId, h: Hash)
    requires OutboxOk(w, h) && t in w.txs
    ensures OutboxOk(Next(w, Commit(t), h), h)
  {
    var n := Next(w, Commit(t), h);
    forall u | u in n.txs ensures PendingOk(n, n.txs[u], h) {
      assert PendingOk(w, w.txs[u], h) && PendingOk(w, w.txs[t], h);
      assert w.txs[u].pending.Keys !! w.txs[t].pending.Keys && w.txs[u].locks !! w.txs[t].locks;
    }
    assert PendingOk(w, w.txs[t], h);
  }

  lemma MoveKeepsOutbox(w: World, m: Move, h: Hash)
    requires OutboxOk(w, h)
    ensures OutboxOk(Next(w, m, h), h)
  {
    if Enabled(w, m, h) {
      match m
      case Insert(t, e, skipped) => InsertKeepsOutbox(w, t, e, skipped, h);
      case Commit(t) => CommitKeepsOutbox(w, t, h);
      case _ =>
        var n := Next(w, m, h);
        forall u | u in n.txs ensures PendingOk(n, n.txs[u], h) {
          if u in w.txs { assert PendingOk(w, w.txs[u], h); }
        }
    }
  }

  /** Rows are never taken back, and a row that appears lies above every visible row of its lock. */
  predicate Appends(v: map<EventId, Event>, n: map<EventId, Event>, h: Hash) {
    && (forall id :: id in v ==> id in n && n[id] == v[id])
    && (forall id, x :: id in n && id !in v && x in v && h(v[x].project) == h(n[id].project) ==> x < id)
  }

  lemma MoveAppends(w: World, m: Move, h: Hash)
    requires OutboxOk(w, h)
    ensures Appends(w.visible, Next(w, m, h).visible, h)
  {
    if Enabled(w, m, h) && m.Commit? {
      assert PendingOk(w, w.txs[m.tx], h);
    }
  }

  lemma AppendsTransitive(a: map<EventId, Event>, b: map<EventId, Event>, c: map<EventId, Event>, h: Hash)
    requires Appends(a, b, h) && Appends(b, c, h)
    ensures Appends(a, c, h)
  {
  }

  lemma {:induction false} HistoryKeepsOutbox(ws: seq<World>, ms: seq<Move>, h: Hash, i: nat)
    requires IsHistory(ws, ms, h) && Empty(ws[0]) && i < |ws|
    ensures OutboxOk(ws[i], h)
  {
    if i > 0 {
      HistoryKeepsOutbox(ws, ms, h, i - 1);
      MoveKeepsOutbox(ws[i - 1], ms[i - 1], h);
    }
  }

  lemma {:induction false} HistoryAppends(ws: seq<World>, ms: seq<Move>, h: Hash, i: nat, j: nat)
    requires IsHistory(ws, ms, h) && Empty(ws[0]) && i <= j < |ws|
    ensures Appends(ws[i].visible, ws[j].visible, h)
    decreases j - i
  {
    if i < j {
      HistoryAppends(ws, ms, h, i, j - 1);
      HistoryKeepsOutbox(ws, ms, h, j - 1);
      MoveAppends(ws[j - 1], ms[j - 1], h);
      AppendsTransitive(ws[i].visible, ws[j - 1].visible, ws[j].visible, h);
    }
  }

  /** When an event of a project is visible, every event of that project with a smaller id that
      ever commits is visible already, unchanged. */
  lemma NothingAppearsBelow(ws: seq<World>, ms: seq<Move>, h: Hash, i: nat, j: nat, seen: EventId, id: EventId)
    requires IsHistory(ws, ms, h) && Empty(ws[0]) && i <= j < |ws|
    requires seen in ws[i].visible && id in ws[j].visible && id <= seen
    requires ws[i].visible[seen].project == ws[j].visible[id].project
    ensures id in ws[i].visible && ws[i].visible[id] == ws[j].visible[id]
  {
    HistoryAppends(ws, ms, h, i, j);
  }

  // ---------------------------------------------------------------- pages

  type Table = map<EventId, Event>

  function Above(v: Table, p: ProjectId, after: EventId): set<EventId> {
    set id | id in v && v[id].project == p && id > after
  }

  /** listEventsSQL: the rows of the project above the cursor, in id order, the first n of them. */
  function Page(v: Table, p: ProjectId, after: EventId, n: nat): seq<EventId>
    decreases n
  {
    if n == 0 || Above(v, p, after) == {} then []
    else
      var id := Least(Above(v, p, after));
      [id] + Page(v, p, id, n - 1)
  }

  function Last(ids: seq<EventId>, otherwise: EventId): EventId {
    if ids == [] then otherwise else ids[|ids| - 1]
  }

  predicate Increasing(ids: seq<EventId>) { forall i, j :: 0 <= i < j < |ids| ==> ids[i] < ids[j] }

  /** A page holds, in order, exactly the project's rows above the cursor up to its last one; it is
      shorter than the limit only when nothing is left. */
  lemma {:induction false} PageIsExact(v: Table, p: ProjectId, after: EventId, n: nat)
    ensures var page := Page(v, p, after, n);
            && |page| <= n && Increasing(page)
            && (forall id :: id in page ==> id in Above(v, p, after) && id <= Last(page, after))
            && (forall id :: id in Above(v, p, after) && id <= Last(page, after) ==> id in page)
            && (|page| < n ==> Above(v, p, Last(page, after)) == {})
    decreases n
  {
    if n != 0 && Above(v, p, after) != {} {
      var id := Least(Above(v, p, after));
      LeastIsLower(Above(v, p, after));
      PageIsExact(v, p, id, n - 1);
      var rest := Page(v, p, id, n - 1);
      assert Page(v, p, after, n) == [id] + rest;
      assert Last([id] + rest, after) == Last(rest, id);
      assert forall x :: x in Above(v, p, id) ==> x in Above(v, p, after);
      assert forall x :: x in Above(v, p, after) ==> x == id || x in Above(v, p, id);
      assert forall x :: x in Above(v, p, id) ==> x > id;
      assert Above(v, p, after) == Above(v, p, id) + {id};
      hide Page, Above, Least;
      FirstThenRest(id, rest, Above(v, p, id));
    }
  }

  lemma FirstThenRest(id: EventId, rest: seq<EventId>, above: set<EventId>)
    requires Increasing(rest) && (forall x :: x in above ==> x > id)
    requires forall x :: x in rest <==> x in above && x <= Last(rest, id)
    ensures Increasing([id] + rest) && id <= Last(rest, id)
    ensures forall x :: x in [id] + rest <==> x in above + {id} && x <= Last(rest, id)
  {
    assert forall i :: 0 <= i < |rest| ==> rest[i] in rest;
    forall i, j | 0 <= i < j < |[id] + rest| ensures ([id] + rest)[i] < ([id] + rest)[j] {
      if i > 0 { assert rest[i - 1] < rest[j - 1]; }
    }
  }

  /** Two pages in a row are one longer page. */
  lemma {:induction false} PagesJoin(v: Table, p: ProjectId, after: EventId, n: nat, m: nat)
    requires |Page(v, p, after, n)| == n
    ensures Page(v, p, after, n) + Page(v, p, Last(Page(v, p, after, n), after), m) == Page(v, p, after, n + m)
    decreases n
  {
    if n != 0 {
      var id := Least(Above(v, p, after));
      PagesJoin(v, p, id, n - 1, m);
      var rest := Page(v, p, id, n - 1);
      assert Last([id] + rest, after) == Last(rest, id);
      assert [id] + (rest + Page(v, p, Last(rest, id), m)) == ([id] + rest) + Page(v, p, Last(rest, id), m);
    }
  }

  /** A page already read reads the same after more events have been committed. */
  lemma {:induction false} PageIsStable(v: Table, w: Table, p: ProjectId, after: EventId, n: nat)
    requires |Page(v, p, after, n)| == n
    requires forall id :: id in v ==> id in w && w[id] == v[id]
    requires forall id :: id in w && id !in v && w[id].project == p ==> Last(Page(v, p, after, n), after) < id
    ensures Page(w, p, after, n) == Page(v, p, after, n)
    decreases n
  {
    if n != 0 {
      var a, b := Above(v, p, after), Above(w, p, after);
      var id := Least(a);
      assert id in b;
      var rest := Page(v, p, id, n - 1);
      assert Page(v, p, after, n) == [id] + rest;
      assert Last([id] + rest, after) == Last(rest, id);
      PageIsExact(v, p, id, n - 1);
      assert id <= Last(rest, id);
      LeastIsLower(a);
      LeastIsLower(b);
      assert Least(b) in a;
      PageIsStable(v, w, p, id, n - 1);
    }
  }

  /** All the project's committed events, in id order. */
  function Listing(v: Table, p: ProjectId): seq<EventId> { Page(v, p, 0, |v|) }

  lemma {:induction false} EnoughRoom(v: Table, p: ProjectId, after: EventId, n: nat)
    requires |Above(v, p, after)| <= n
    ensures Above(v, p, Last(Page(v, p, after, n), after)) == {}
    decreases n
  {
    var a := Above(v, p, after);
    if a != {} {
      var id := Least(a);
      assert Above(v, p, id) < a;
      SmallerSet(Above(v, p, id), a);
      EnoughRoom(v, p, id, n - 1);
      assert Last([id] + Page(v, p, id, n - 1), after) == Last(Page(v, p, id, n - 1), id);
    }
  }

  lemma SmallerSet<T>(a: set<T>, b: set<T>)
    requires a < b
    ensures |a| < |b|
  {
    assert b == a + (b - a);
    assert b - a != {};
  }

  lemma AboveFits(v: Table, p: ProjectId, after: EventId)
    ensures |Above(v, p, after)| <= |v|
  {
    var a := Above(v, p, after);
    assert a <= v.Keys;
    if a != v.Keys { SmallerSet(a, v.Keys); }
    assert |v| == |v.Keys|;
  }

  /** The listing holds every committed event of the project once, in id order. */
  lemma ListingIsExact(v: Table, p: ProjectId)
    requires forall id :: id in v ==> id >= 1
    ensures Increasing(Listing(v, p))
    ensures forall id :: id in Listing(v, p) <==> id in v && v[id].project == p
  {
    PageIsExact(v, p, 0, |v|);
    AboveFits(v, p, 0);
    EnoughRoom(v, p, 0, |v|);
    forall id | id in v && v[id].project == p ensures id in Listing(v, p) {
      assert id in Above(v, p, 0);
      assert id !in Above(v, p, Last(Listing(v, p), 0));
    }
  }

  // ---------------------------------------------------------------- polling

  /** A reader's cursor and everything it has been handed. */
  datatype Reader = Reader(cursor: EventId, got: seq<EventId>)

  /** What a reader has is the first part of the listing, and its cursor is the end of that part. */
  predicate Abreast(v: Table, p: ProjectId, r: Reader) {
    r.got == Page(v, p, 0, |r.got|) && r.cursor == Last(r.got, 0)
  }

  function Poll(v: Table, p: ProjectId, r: Reader, n: nat): Reader {
    var page := Page(v, p, r.cursor, n);
    Reader(Last(page, r.cursor), r.got + page)
  }

  lemma PollKeepsAbreast(v: Table, p: ProjectId, r: Reader, n: nat)
    requires Abreast(v, p, r)
    ensures Abreast(v, p, Poll(v, p, r, n))
  {
    var page := Page(v, p, r.cursor, n);
    PageFull(v, p, r.cursor, n);
    PagesJoin(v, p, 0, |r.got|, |page|);
  }

  /** A page asked for with its own length as the limit is the same page. */
  lemma {:induction false} PageFull(v: Table, p: ProjectId, after: EventId, n: nat)
    ensures Page(v, p, after, |Page(v, p, after, n)|) == Page(v, p, after, n)
    decreases n
  {
    if n != 0 && Above(v, p, after) != {} {
      PageFull(v, p, Least(Above(v, p, after)), n - 1);
    }
  }

  lemma MoveKeepsAbreast(v: Table, w: Table, p: ProjectId, r: Reader, h: Hash)
    requires Abreast(v, p, r) && Appends(v, w, h)
    ensures Abreast(w, p, r)
  {
    PageIsExact(v, p, 0, |r.got|);
    if r.got == [] {
      assert Page(w, p, 0, 0) == [];
    } else {
      assert r.cursor in r.got;
      assert r.cursor in Above(v, p, 0);
      PageIsStable(v, w, p, 0, |r.got|);
    }
  }

  lemma {:induction false} PageFits(v: Table, p: ProjectId, after: EventId, n: nat)
    ensures |Page(v, p, after, n)| <= |Above(v, p, after)|
    decreases n
  {
    if n != 0 && Above(v, p, after) != {} {
      var id := Least(Above(v, p, after));
      SmallerSet(Above(v, p, id), Above(v, p, after));
      PageFits(v, p, id, n - 1);
    }
  }

  lemma AbreastIsPrefix(v: Table, p: ProjectId, r: Reader)
    requires Abreast(v, p, r)
    ensures |r.got| <= |v| && r.got <= Listing(v, p)
    ensures Above(v, p, r.cursor) == {} ==> r.got == Listing(v, p)
  {
    PageFits(v, p, 0, |r.got|);
    AboveFits(v, p, 0);
    PagesJoin(v, p, 0, |r.got|, |v| - |r.got|);
  }

  /** A poll interleaved with the outbox: at step i the reader asks for a page of size polls[i]. */
  predicate IsTail(ws: seq<World>, p: ProjectId, rs: seq<Reader>, polls: seq<nat>) {
    && |rs| == |ws| == |polls| + 1 && rs[0] == Reader(0, [])
    && forall i :: 0 <= i < |polls| ==> rs[i + 1] == Poll(ws[i + 1].visible, p, rs[i], polls[i])
  }

  lemma {:induction false} TailStaysAbreast(ws: seq<World>, ms: seq<Move>, h: Hash, p: ProjectId, rs: seq<Reader>,
      polls: seq<nat>, i: nat)
    requires IsHistory(ws, ms, h) && Empty(ws[0]) && IsTail(ws, p, rs, polls) && i < |ws|
    ensures Abreast(ws[i].visible, p, rs[i])
  {
    if i > 0 {
      TailStaysAbreast(ws, ms, h, p, rs, polls, i - 1);
      HistoryKeepsOutbox(ws, ms, h, i - 1);
      MoveAppends(ws[i - 1], ms[i - 1], h);
      MoveKeepsAbreast(ws[i - 1].visible, ws[i].visible, p, rs[i - 1], h);
      PollKeepsAbreast(ws[i].visible, p, rs[i - 1], polls[i - 1]);
    }
  }

  /** Repeated polling, under any interleaving of transactions and with any page sizes (0 for a
      step without a poll), delivers the committed events of the project in id order, none twice
      and none left out; a poll that comes back short has delivered all of them. */
  lemma PollingMissesNothing(ws: seq<World>, ms: seq<Move>, h: Hash, p: ProjectId, rs: seq<Reader>, polls: seq<nat>,
      i: nat)
    requires IsHistory(ws, ms, h) && Empty(ws[0]) && IsTail(ws, p, rs, polls) && i < |ws|
    ensures rs[i].got <= Listing(ws[i].visible, p)
    ensures Increasing(rs[i].got)
    ensures forall id :: id in ws[i].visible && ws[i].visible[id].project == p && id <= rs[i].cursor ==> id in rs[i].got
    ensures i > 0 && |rs[i].got| < |rs[i - 1].got| + polls[i - 1] ==> rs[i].got == Listing(ws[i].visible, p)
  {
    TailStaysAbreast(ws, ms, h, p, rs, polls, i);
    HistoryKeepsOutbox(ws, ms, h, i);
    hide IsHistory, Empty, Page, Listing, Increasing, LocksExclusive, PendingOk;
    var v, r := ws[i].visible, rs[i];
    PageIsExact(v, p, 0, |r.got|);
    AbreastIsPrefix(v, p, r);
    forall id | id in v && v[id].project == p && id <= r.cursor ensures id in r.got {
      assert id in Above(v, p, 0);
    }
    if i > 0 && |r.got| < |rs[i - 1].got| + polls[i - 1] {
      PageIsExact(v, p, rs[i - 1].cursor, polls[i - 1]);
    }
  }
}
