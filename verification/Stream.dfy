/** The event stream: the server's pump, the browser's client, and the pair of them over a
    connection that may break at any moment. */
module Stream {
  import opened Schema
  import opened Outbox

  const StreamBatch: nat := 1000

  datatype Frame =
    | Events(prev: EventId, next: EventId, more: bool, ids: seq<EventId>)
    | TooOld(prev: EventId, oldest: EventId)

  // ---------------------------------------------------------------- server

  /** One connection as the server sees it: its cursor, the frames on their way to the client,
      and whether the pump has returned. */
  datatype Conn = Conn(after: EventId, wire: seq<Frame>, over: bool)

  predicate Refused(after: EventId, low: nat) { after + 1 < low }

  /** pump, up to its loop: a cursor below the retained rows is refused at once. */
  function Accept(after: EventId, low: nat): Conn {
    if Refused(after, low) then Conn(after, [TooOld(after, low)], true) else Conn(after, [], false)
  }

  /** One turn of pump's loop. */
  function Turn(c: Conn, v: Table, p: ProjectId): Conn {
    var ids := Page(v, p, c.after, StreamBatch);
    if c.over || ids == [] then c
    else
      var next := ids[|ids| - 1];
      Conn(next, c.wire + [Events(c.after, next, |ids| == StreamBatch, ids)], false)
  }

  // ---------------------------------------------------------------- client

  datatype Shown = Connecting | Live | Reconnecting | Gap

  datatype Client = Client(cursor: EventId, retry: nat, shown: Shown, closed: bool, got: seq<EventId>, gaps: nat)

  function NewClient(): Client { Client(0, 0, Connecting, false, [], 0) }

  /** onmessage */
  function Receive(c: Client, f: Frame): Client {
    match f
    case TooOld(_, oldest) => c.(cursor := if oldest > 0 then oldest - 1 else 0, gaps := c.gaps + 1, shown := Gap)
    case Events(prev, next, _, ids) =>
      if prev != c.cursor then c.(cursor := next, gaps := c.gaps + 1, shown := Gap, got := c.got + ids)
      else if ids != [] then c.(got := c.got + ids, cursor := next, shown := Live)
      else c.(shown := Live)
  }

  /** onclose */
  function Hangup(c: Client): Client {
    if c.closed then c else c.(shown := Reconnecting, retry := Min(c.retry + 1, 5))
  }

  // ---------------------------------------------------------------- the two together

  datatype System = System(world: World, client: Client, conn: Option<Conn>)

  datatype Act =
    | Database(m: Move)
    | Connect(low: nat)
    | Opened
    | Serve
    | Deliver
    | Break
    | Unmount

  function Do(s: System, a: Act, p: ProjectId, h: Hash): System {
    match a
    case Database(m) => s.(world := Next(s.world, m, h))
    case Connect(low) =>
      if s.conn.Some? || s.client.closed then s
      else s.(client := s.client.(shown := Connecting), conn := Some(Accept(s.client.cursor, low)))
    case Opened => if s.conn.None? then s else s.(client := s.client.(retry := 0, shown := Live))
    case Serve => if s.conn.None? then s else s.(conn := Some(Turn(s.conn.value, s.world.visible, p)))
    case Deliver =>
      if s.conn.None? || s.conn.value.wire == [] then s
      else
        s.(client := Receive(s.client, s.conn.value.wire[0]),
           conn := Some(s.conn.value.(wire := s.conn.value.wire[1..])))
    case Break => if s.conn.None? then s else s.(client := Hangup(s.client), conn := None)
    case Unmount => s.(client := s.client.(closed := true), conn := None)
  }

  /** The retention sweep has not dropped anything the client still needs when it connects. */
  predicate Retained(s: System, a: Act) {
    a.Connect? ==> !Refused(s.client.cursor, a.low)
  }

  predicate IsSession(ss: seq<System>, acts: seq<Act>, p: ProjectId, h: Hash) {
    && |ss| == |acts| + 1
    && forall i :: 0 <= i < |acts| ==> Retained(ss[i], acts[i]) && ss[i + 1] == Do(ss[i], acts[i], p, h)
  }

  predicate Begins(s: System) { Empty(s.world) && s.client == NewClient() && s.conn.None? }

  // ---------------------------------------------------------------- the frame chain

  /** Each frame starts where the one before it ended; the first starts at `from`, the last ends at `to`. */
  predicate Chained(wire: seq<Frame>, from: EventId, to: EventId) {
    if wire == [] then from == to
    else
      var f := wire[0];
      f.Events? && f.prev == from && f.ids != [] && f.next == f.ids[|f.ids| - 1] && Chained(wire[1..], f.next, to)
  }

  function Carried(wire: seq<Frame>): seq<EventId> {
    if wire == [] then []
    else (if wire[0].Events? then wire[0].ids else []) + Carried(wire[1..])
  }

  lemma {:induction false} ChainGrows(wire: seq<Frame>, f: Frame, from: EventId, to: EventId)
    requires Chained(wire, from, to) && f.Events? && f.prev == to && f.ids != [] && f.next == f.ids[|f.ids| - 1]
    ensures Chained(wire + [f], from, f.next) && Carried(wire + [f]) == Carried(wire) + f.ids
  {
    if wire != [] {
      ChainGrows(wire[1..], f, wire[0].next, to);
      assert (wire + [f])[1..] == wire[1..] + [f];
    }
  }

  lemma {:induction false} ChainLinks(wire: seq<Frame>, from: EventId, to: EventId, k: nat)
    requires Chained(wire, from, to) && k < |wire|
    ensures wire[k].Events? && (k > 0 ==> wire[k - 1].Events? && wire[k].prev == wire[k - 1].next)
  {
    if k > 0 {
      ChainLinks(wire[1..], wire[0].next, to, k - 1);
      assert wire[1..][k - 1] == wire[k];
    }
  }

  /** Client and server agree: what was delivered, followed by what is on the wire, is the first
      part of the committed events, and the frames on the wire chain from one cursor to the other. */
  predicate InStep(s: System, p: ProjectId, h: Hash) {
    && OutboxOk(s.world, h)
    && s.client.gaps == 0
    && Abreast(s.world.visible, p, Reader(s.client.cursor, s.client.got))
    && (s.conn.Some? ==>
          var c := s.conn.value;
          && !c.over
          && Chained(c.wire, s.client.cursor, c.after)
          && Abreast(s.world.visible, p, Reader(c.after, s.client.got + Carried(c.wire))))
  }

  lemma TurnIsPoll(s: System, p: ProjectId, h: Hash)
    requires InStep(s, p, h) && s.conn.Some?
    ensures InStep(Do(s, Serve, p, h), p, h)
  {
    hide Page, Abreast, OutboxOk;
    var c, v := s.conn.value, s.world.visible;
    var ids := Page(v, p, c.after, StreamBatch);
    if ids != [] {
      var f := Events(c.after, ids[|ids| - 1], |ids| == StreamBatch, ids);
      ChainGrows(c.wire, f, s.client.cursor, c.after);
      PollKeepsAbreast(v, p, Reader(c.after, s.client.got + Carried(c.wire)), StreamBatch);
      assert s.client.got + Carried(c.wire) + ids == s.client.got + (Carried(c.wire) + ids);
    }
  }

  /** Dropping the end of what a reader has leaves it in step, at the cursor it had then. */
  lemma EarlierAbreast(v: Table, p: ProjectId, got: seq<EventId>, more: seq<EventId>, cursor: EventId)
    requires Abreast(v, p, Reader(cursor, got + more))
    ensures Abreast(v, p, Reader(Last(got, 0), got))
  {
    var n := |got + more|;
    PageSplits(v, p, 0, |got|, |more|);
    assert (got + more)[..|got|] == got;
  }

  lemma {:induction false} PageSplits(v: Table, p: ProjectId, after: EventId, n: nat, m: nat)
    requires |Page(v, p, after, n + m)| == n + m
    ensures Page(v, p, after, n) == Page(v, p, after, n + m)[..n]
    decreases n
  {
    if n != 0 {
      PageSplits(v, p, Least(Above(v, p, after)), n - 1, m);
    }
  }

  lemma DeliverKeepsStep(s: System, p: ProjectId, h: Hash)
    requires InStep(s, p, h) && s.conn.Some? && s.conn.value.wire != []
    ensures InStep(Do(s, Deliver, p, h), p, h)
  {
    var c, v := s.conn.value, s.world.visible;
    var f, rest := c.wire[0], c.wire[1..];
    var got := s.client.got + f.ids;
    assert s.client.got + (f.ids + Carried(rest)) == got + Carried(rest);
    assert Last(got, 0) == f.next;
    EarlierAbreast(v, p, got, Carried(rest), c.after);
    hide Abreast, OutboxOk;
  }

  lemma DatabaseKeepsStep(s: System, m: Move, p: ProjectId, h: Hash)
    requires InStep(s, p, h)
    ensures InStep(Do(s, Database(m), p, h), p, h)
  {
    var v, w := s.world.visible, Next(s.world, m, h).visible;
    MoveKeepsOutbox(s.world, m, h);
    MoveAppends(s.world, m, h);
    hide Abreast, OutboxOk, Appends, Next;
    MoveKeepsAbreast(v, w, p, Reader(s.client.cursor, s.client.got), h);
    if s.conn.Some? {
      MoveKeepsAbreast(v, w, p, Reader(s.conn.value.after, s.client.got + Carried(s.conn.value.wire)), h);
    }
  }

  lemma ActKeepsStep(s: System, a: Act, p: ProjectId, h: Hash)
    requires InStep(s, p, h) && Retained(s, a)
    ensures InStep(Do(s, a, p, h), p, h)
  {
    hide Abreast, OutboxOk;
    match a
    case Database(m) => DatabaseKeepsStep(s, m, p, h);
    case Serve => if s.conn.Some? { TurnIsPoll(s, p, h); }
    case Deliver => if s.conn.Some? && s.conn.value.wire != [] { DeliverKeepsStep(s, p, h); }
    case Connect(low) => assert s.client.got + [] == s.client.got;
    case _ =>
  }

  lemma BeginsInStep(s: System, p: ProjectId, h: Hash)
    requires Begins(s)
    ensures InStep(s, p, h)
  {
  }

  lemma {:induction false} SessionStaysInStep(ss: seq<System>, acts: seq<Act>, p: ProjectId, h: Hash, i: nat)
    requires IsSession(ss, acts, p, h) && Begins(ss[0]) && i < |ss|
    ensures InStep(ss[i], p, h)
  {
    hide InStep, Do, Begins, Retained;
    if i == 0 {
      BeginsInStep(ss[0], p, h);
    } else {
      SessionStaysInStep(ss, acts, p, h, i - 1);
      ActKeepsStep(ss[i - 1], acts[i - 1], p, h);
    }
  }

  /** End to end: through any disconnects and reconnects, and any concurrent transactions, the
      client holds the first part of the project's committed events, in order, with no gap and
      no repeat; no gap is ever reported, and consecutive frames chain. */
  lemma ClientSeesAPrefix(ss: seq<System>, acts: seq<Act>, p: ProjectId, h: Hash, i: nat)
    requires IsSession(ss, acts, p, h) && Begins(ss[0]) && i < |ss|
    ensures ss[i].client.got <= Listing(ss[i].world.visible, p)
    ensures Increasing(ss[i].client.got)
    ensures ss[i].client.gaps == 0
    ensures ss[i].conn.Some? ==> forall k :: 0 <= k < |ss[i].conn.value.wire| ==>
              var wire := ss[i].conn.value.wire;
              wire[k].Events? && (k > 0 ==> wire[k - 1].Events? && wire[k].prev == wire[k - 1].next)
  {
    SessionStaysInStep(ss, acts, p, h, i);
    hide IsSession, Begins;
    var s := ss[i];
    AbreastIsPrefix(s.world.visible, p, Reader(s.client.cursor, s.client.got));
    PageIsExact(s.world.visible, p, 0, |s.client.got|);
    if s.conn.Some? {
      hide Abreast, OutboxOk;
      var c := s.conn.value;
      forall k | 0 <= k < |c.wire|
          ensures c.wire[k].Events? && (k > 0 ==> c.wire[k - 1].Events? && c.wire[k].prev == c.wire[k - 1].next)
      {
        ChainLinks(c.wire, s.client.cursor, c.after, k);
      }
    }
  }

  /** A client whose wire is drained, and whose server last found nothing new, has everything. */
  lemma CaughtUp(ss: seq<System>, acts: seq<Act>, p: ProjectId, h: Hash, i: nat)
    requires IsSession(ss, acts, p, h) && Begins(ss[0]) && i < |ss|
    requires ss[i].conn.Some? && ss[i].conn.value.wire == []
        && Turn(ss[i].conn.value, ss[i].world.visible, p) == ss[i].conn.value
    ensures ss[i].client.got == Listing(ss[i].world.visible, p)
  {
    SessionStaysInStep(ss, acts, p, h, i);
    hide IsSession, Begins, OutboxOk;
    var s := ss[i];
    assert Above(s.world.visible, p, s.client.cursor) == {};
    AbreastIsPrefix(s.world.visible, p, Reader(s.client.cursor, s.client.got));
  }

  lemma RetryStep(s: System, a: Act, p: ProjectId, h: Hash)
    requires s.client.retry <= 5
    ensures Do(s, a, p, h).client.retry <= 5
  {
    hide Next, Turn, Accept;
  }

  /** The back-off counter never passes five. */
  lemma {:induction false} RetryBounded(ss: seq<System>, acts: seq<Act>, p: ProjectId, h: Hash, i: nat)
    requires IsSession(ss, acts, p, h) && Begins(ss[0]) && i < |ss|
    ensures ss[i].client.retry <= 5
  {
    if i > 0 {
      RetryBounded(ss, acts, p, h, i - 1);
      hide Do;
      RetryStep(ss[i - 1], acts[i - 1], p, h);
    }
  }

  /** When a socket closes, frames on it are lost, but the client keeps its cursor and its events:
      the next connection starts at the first event not delivered yet, and its first frame carries
      the events that directly follow those the client has. */
  lemma ReconnectResumes(ss: seq<System>, acts: seq<Act>, p: ProjectId, h: Hash, i: nat, low: nat)
    requires IsSession(ss, acts, p, h) && Begins(ss[0]) && i < |ss|
    requires ss[i].conn.Some? && !ss[i].client.closed && !Refused(ss[i].client.cursor, low)
    ensures var s := ss[i];
            var t := Do(Do(s, Break, p, h), Connect(low), p, h);
            && t.conn == Some(Conn(Last(s.client.got, 0), [], false))
            && t.client.got == s.client.got && t.client.cursor == s.client.cursor && t.client.gaps == 0
            && s.client.retry <= t.client.retry <= 5 && (t.client.retry == s.client.retry ==> t.client.retry == 5)
    ensures var s := ss[i];
            var u := Do(Do(Do(s, Break, p, h), Connect(low), p, h), Serve, p, h);
            && u.conn.Some? && Chained(u.conn.value.wire, s.client.cursor, u.conn.value.after)
            && s.client.got + Carried(u.conn.value.wire) <= Listing(s.world.visible, p)
            && (s.client.got != Listing(s.world.visible, p) ==> u.conn.value.wire != [])
  {
    SessionStaysInStep(ss, acts, p, h, i);
    RetryBounded(ss, acts, p, h, i);
    hide IsSession, Begins;
    ResumeStep(ss[i], p, h, low);
  }

  lemma ResumeStep(s: System, p: ProjectId, h: Hash, low: nat)
    requires InStep(s, p, h) && s.conn.Some? && !Refused(s.client.cursor, low) && !s.client.closed
    ensures var t := Do(Do(s, Break, p, h), Connect(low), p, h);
            t.conn == Some(Conn(Last(s.client.got, 0), [], false)) && t.client.gaps == 0
    ensures var u := Do(Do(Do(s, Break, p, h), Connect(low), p, h), Serve, p, h);
            && u.conn.Some? && Chained(u.conn.value.wire, s.client.cursor, u.conn.value.after)
            && s.client.got + Carried(u.conn.value.wire) <= Listing(s.world.visible, p)
            && (s.client.got != Listing(s.world.visible, p) ==> u.conn.value.wire != [])
  {
    hide Page, Listing, OutboxOk;
    var t := Do(Do(s, Break, p, h), Connect(low), p, h);
    assert s.client.got + [] == s.client.got;
    assert InStep(t, p, h);
    TurnIsPoll(t, p, h);
    var u := Do(t, Serve, p, h);
    AbreastIsPrefix(s.world.visible, p, Reader(u.conn.value.after, s.client.got + Carried(u.conn.value.wire)));
    AbreastIsPrefix(s.world.visible, p, Reader(s.client.cursor, s.client.got));
    PageIsExact(s.world.visible, p, s.client.cursor, StreamBatch);
  }

  /** One turn of the server and one delivery bring a client whose wire is drained a thousand events
      further, or to the end. */
  lemma TurnAndDelivery(ss: seq<System>, acts: seq<Act>, p: ProjectId, h: Hash, i: nat)
    requires IsSession(ss, acts, p, h) && Begins(ss[0]) && i < |ss|
    requires ss[i].conn.Some? && ss[i].conn.value.wire == []
    ensures var t, all := Do(Do(ss[i], Serve, p, h), Deliver, p, h), Listing(ss[i].world.visible, p);
            && t.client.got == all[..Min(|ss[i].client.got| + 1000, |all|)]
            && t.client.gaps == 0 && t.world == ss[i].world
            && (t.client.got != ss[i].client.got ==> t.client.shown.Live?)
  {
    SessionStaysInStep(ss, acts, p, h, i);
    hide IsSession, Begins;
    Advances(ss[i], p, h);
  }

  lemma Advances(s: System, p: ProjectId, h: Hash)
    requires InStep(s, p, h) && s.conn.Some? && s.conn.value.wire == []
    ensures var t, all := Do(Do(s, Serve, p, h), Deliver, p, h), Listing(s.world.visible, p);
            && |s.client.got| <= |all| && t.client.got == all[..Min(|s.client.got| + 1000, |all|)]
            && t.client.gaps == 0 && t.world == s.world
            && (t.client.got != s.client.got ==> t.client.shown.Live?)
  {
    hide Page, Listing, OutboxOk, Abreast;
    var v, c := s.world.visible, s.client.cursor;
    var ids, all := Page(v, p, c, 1000), Listing(v, p);
    var more := s.client.got + ids;
    PollKeepsAbreast(v, p, Reader(c, s.client.got), 1000);
    AbreastIsPrefix(v, p, Reader(c, s.client.got));
    AbreastIsPrefix(v, p, Reader(Last(ids, c), more));
    PageIsExact(v, p, c, 1000);
    assert more == all[..|more|];
    if ids == [] { assert more == s.client.got; }
  }

  /** Opening a socket clears the back-off; unmounting ends the client, and nothing connects it again. */
  lemma OpenedAndUnmounted(s: System, p: ProjectId, h: Hash, low: nat)
    ensures s.conn.Some? ==> Do(s, Opened, p, h) == s.(client := s.client.(retry := 0, shown := Live))
    ensures var t := Do(s, Unmount, p, h);
            t.conn.None? && t.client == s.client.(closed := true) && Do(t, Connect(low), p, h) == t
  {
  }

  /** The server refuses a cursor whose next event may be gone, and serves every other from where it is. */
  lemma AcceptIs(after: EventId, low: nat)
    ensures after + 1 < low ==> Accept(after, low) == Conn(after, [TooOld(after, low)], true)
    ensures after + 1 >= low ==> Accept(after, low) == Conn(after, [], false)
  {
  }

  /** A refused cursor is reported as a gap, and the client restarts at the oldest row kept. */
  lemma RefusedRestarts(c: Client, low: nat, wire: seq<Frame>)
    requires wire == Accept(c.cursor, low).wire && wire != []
    ensures Refused(c.cursor, low)
    ensures Receive(c, wire[0]).gaps == c.gaps + 1 && Receive(c, wire[0]).cursor == low - 1
        && Receive(c, wire[0]).got == c.got
    ensures !Refused(Receive(c, wire[0]).cursor, low)
  {
  }

  // ---------------------------------------------------------------- the code as it runs

  /** The query and scanEvents: rows are appended one at a time, in id order, up to the limit. */
  method ReadPage(v: Table, p: ProjectId, after: EventId, limit: nat) returns (out: seq<EventId>)
    ensures out == Page(v, p, after, limit)
  {
    out := [];
    var cursor := after;
    while |out| < limit && Above(v, p, cursor) != {}
      invariant |out| <= limit
      invariant out + Page(v, p, cursor, limit - |out|) == Page(v, p, after, limit)
      decreases limit - |out|
    {
      cursor := Least(Above(v, p, cursor));
      out := out + [cursor];
    }
  }

  /** GET events: the page and the cursor to ask with next, or a refusal. */
  method ListEvents(v: Table, p: ProjectId, after: EventId, low: nat, limit: nat)
      returns (r: Option<(seq<EventId>, EventId)>)
    ensures r.None? <==> after + 1 < low
    ensures r.Some? ==> forall id :: id in r.value.0 <==> id in Above(v, p, after) && id <= r.value.1
    ensures r.Some? ==> Increasing(r.value.0) && |r.value.0| <= limit
    ensures r.Some? && |r.value.0| < limit ==> Above(v, p, r.value.1) == {}
  {
    if after + 1 < low { return None; }
    var out := ReadPage(v, p, after, limit);
    PageIsExact(v, p, after, limit);
    var next := after;
    if |out| > 0 { next := out[|out| - 1]; }
    r := Some((out, next));
  }

  /** The frames sent so far carry the first rows above `from`, up to the cursor. */
  predicate Sent(v: Table, p: ProjectId, from: EventId, after: EventId, sent: seq<Frame>) {
    Chained(sent, from, after) && Carried(sent) == Page(v, p, from, |Carried(sent)|)
      && after == Last(Carried(sent), from)
  }

  function NextFrame(v: Table, p: ProjectId, after: EventId): Frame {
    var ids := Page(v, p, after, StreamBatch);
    Events(after, Last(ids, after), |ids| == StreamBatch, ids)
  }

  lemma TurnSends(v: Table, p: ProjectId, from: EventId, after: EventId, sent: seq<Frame>)
    requires Sent(v, p, from, after, sent)
    ensures var f, ids := NextFrame(v, p, after), Page(v, p, after, StreamBatch);
            && (ids != [] ==>
                  && f.next > after && Sent(v, p, from, f.next, sent + [f])
                  && |Above(v, p, f.next)| < |Above(v, p, after)|)
            && (|ids| < StreamBatch ==> Above(v, p, f.next) == {})
  {
    hide Page;
    var f, ids := NextFrame(v, p, after), Page(v, p, after, StreamBatch);
    PageIsExact(v, p, after, StreamBatch);
    PageFull(v, p, after, StreamBatch);
    if ids != [] {
      PagesJoin(v, p, from, |Carried(sent)|, |ids|);
      ChainGrows(sent, f, from, after);
      assert f.next in Above(v, p, after);
      SmallerSet(Above(v, p, f.next), Above(v, p, after));
    }
  }

  lemma SentNothing(v: Table, p: ProjectId, after: EventId)
    ensures Sent(v, p, after, after, [])
  {
  }

  /** What was sent stays the first part of the rows when more events are committed. */
  lemma SentGrows(v: Table, w: Table, p: ProjectId, from: EventId, after: EventId, sent: seq<Frame>, h: Hash)
    requires Sent(v, p, from, after, sent) && Appends(v, w, h)
    ensures Sent(w, p, from, after, sent)
  {
    var ids := Carried(sent);
    PageIsExact(v, p, from, |ids|);
    if ids != [] {
      assert after in ids && after in Above(v, p, from);
      PageIsStable(v, w, p, from, |ids|);
    }
  }

  class Pump {
    var after: EventId
    var wire: seq<Frame>
    var over: bool

    function State(): Conn
      reads this
    {
      Conn(after, wire, over)
    }

    constructor (cursor: EventId, low: nat)
      ensures State() == Accept(cursor, low)
    {
      after, wire, over := cursor, [], false;
      new;
      if after + 1 < low {
        wire := [TooOld(after, low)];
        over := true;
      }
    }

    method TakeTurn(v: Table, p: ProjectId) returns (more: bool)
      requires !over
      modifies this
      ensures State() == Turn(old(State()), v, p)
      ensures more ==> |Page(v, p, old(after), StreamBatch)| == StreamBatch
      ensures !more ==> |Page(v, p, old(after), StreamBatch)| < StreamBatch
    {
      hide Page;
      PageIsExact(v, p, after, StreamBatch);
      var ids := ReadPage(v, p, after, StreamBatch);
      more := |ids| == StreamBatch;
      if |ids| > 0 {
        var next := ids[|ids| - 1];
        wire := wire + [Events(after, next, more, ids)];
        after := next;
      }
    }

    /** Everything the loop does between two waits: full frames follow one another at once, each
        turn reading the table as it is by then.  The frames sent chain, carry exactly the first
        rows above the cursor, and the pump waits only when no visible event is left to send. */
    method Drain(vs: seq<Table>, p: ProjectId, ghost h: Hash) returns (turns: nat)
      requires !over && |vs| > 0 && forall k :: 0 <= k < |vs| - 1 ==> Appends(vs[k], vs[k + 1], h)
      modifies this
      ensures !over && old(wire) <= wire
      ensures 1 <= turns <= |vs|
      ensures Sent(vs[turns - 1], p, old(after), after, wire[|old(wire)|..])
      ensures turns < |vs| ==> Above(vs[turns - 1], p, after) == {}
    {
      ghost var sent: seq<Frame> := [];
      var more := true;
      turns := 0;
      SentNothing(vs[0], p, after);
      hide Sent, Page, Above, Appends;
      while more && turns < |vs|
        invariant !over && wire == old(wire) + sent && turns <= |vs| && (more || turns > 0)
        invariant Sent(vs[if turns == 0 then 0 else turns - 1], p, old(after), after, sent)
        invariant !more ==> Above(vs[turns - 1], p, after) == {}
        decreases |vs| - turns
      {
        ghost var was := after;
        if turns > 0 { SentGrows(vs[turns - 1], vs[turns], p, old(after), was, sent, h); }
        TurnSends(vs[turns], p, old(after), was, sent);
        more := TakeTurn(vs[turns], p);
        if after != was {
          sent := sent + [NextFrame(vs[turns], p, was)];
        }
        turns := turns + 1;
      }
      assert wire[|old(wire)|..] == sent;
    }
  }

  /** openStream: the variables its socket callbacks share. */
  class EventStream {
    var cursor: EventId
    var retry: nat
    var shown: Shown
    var closed: bool
    var got: seq<EventId>
    var gaps: nat

    function State(): Client
      reads this
    {
      Client(cursor, retry, shown, closed, got, gaps)
    }

    constructor ()
      ensures State() == NewClient()
    {
      cursor, retry, shown, closed, got, gaps := 0, 0, Connecting, false, [], 0;
    }

    method OnGap()
      modifies this
      ensures State() == old(State()).(gaps := old(gaps) + 1, shown := Gap)
    {
      gaps := gaps + 1;
      shown := Gap;
    }

    method OnMessage(f: Frame)
      modifies this
      ensures State() == Receive(old(State()), f)
      ensures gaps == old(gaps) <==> f.Events? && f.prev == old(cursor)
    {
      if f.TooOld? {
        cursor := if f.oldest > 0 then f.oldest - 1 else 0;
        OnGap();
        return;
      }
      if f.prev != cursor {
        cursor := f.next;
        OnGap();
        if |f.ids| > 0 { got := got + f.ids; }
        return;
      }
      if |f.ids| > 0 {
        got := got + f.ids;
        cursor := f.next;
      }
      shown := Live;
    }

    /** The counter grows until it reaches five; what was delivered, and where to resume, stays. */
    method OnClose()
      requires retry <= 5
      modifies this
      ensures State() == Hangup(old(State()))
      ensures old(closed) ==> State() == old(State())
      ensures !old(closed) ==> shown == Reconnecting && old(retry) <= retry <= 5 && (retry == old(retry) ==> retry == 5)
      ensures cursor == old(cursor) && got == old(got) && gaps == old(gaps) && closed == old(closed)
    {
      if closed { return; }
      shown := Reconnecting;
      retry := Min(retry + 1, 5);
    }
  }
}
