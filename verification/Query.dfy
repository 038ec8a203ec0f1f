/** `order by … limit …`, as the sweeps and the claim query use it. */
module Query {
  /** A ranking that may hold rows to be equal. */
  ghost predicate Ranking(le: (nat, nat) -> bool) {
    && (forall a, b :: le(a, b) || le(b, a))
    && (forall a, b, c :: le(a, b) && le(b, c) ==> le(a, c))
  }

  predicate Ranked(le: (nat, nat) -> bool, ids: seq<nat>) {
    forall i, k :: 0 <= i < k < |ids| ==> ids[i] != ids[k] && le(ids[i], ids[k])
  }

  predicate NoneAfter(le: (nat, nat) -> bool, ids: seq<nat>, r: nat) {
    forall i :: 0 <= i < |ids| ==> le(ids[i], r)
  }

  /** The ids are the first of the rows, in order, as many as the limit allows. */
  ghost predicate FirstRows(rows: set<nat>, le: (nat, nat) -> bool, limit: nat, ids: seq<nat>) {
    && |ids| <= limit && (forall i :: 0 <= i < |ids| ==> ids[i] in rows) && Ranked(le, ids)
    && (|ids| < limit ==> forall r :: r in rows ==> r in ids)
    && (forall r :: r in rows && r !in ids ==> NoneAfter(le, ids, r))
  }

  /** Looks at the rows one by one. */
  method First(rows: set<nat>, le: (nat, nat) -> bool) returns (r: nat)
    requires rows != {} && Ranking(le)
    ensures r in rows && forall k :: k in rows ==> le(r, k)
  {
    r :| r in rows;
    var todo := rows;
    while todo != {}
      invariant r in rows && todo <= rows
      invariant forall k :: k in rows && k !in todo ==> le(r, k)
      decreases |todo|
    {
      var k :| k in todo;
      if !le(r, k) { r := k; }
      todo := todo - {k};
    }
  }

  method Select(rows: set<nat>, le: (nat, nat) -> bool, limit: nat) returns (ids: seq<nat>)
    requires Ranking(le)
    ensures FirstRows(rows, le, limit, ids)
  {
    var todo := rows;
    ids := [];
    while |ids| < limit && todo != {}
      invariant |ids| <= limit && todo <= rows && Ranked(le, ids)
      invariant forall i :: 0 <= i < |ids| ==> ids[i] in rows && ids[i] !in todo
      invariant forall r :: r in rows ==> r in ids || r in todo
      invariant forall r :: r in todo ==> NoneAfter(le, ids, r)
      decreases |todo|
    {
      var r := First(todo, le);
      ids, todo := ids + [r], todo - {r};
    }
  }

  lemma SameNext(rows: set<nat>, le: (nat, nat) -> bool, limit: nat, a: seq<nat>, b: seq<nat>, n: nat)
    requires Ranking(le) && FirstRows(rows, le, limit, a) && FirstRows(rows, le, limit, b)
    requires n <= |a| && n < |b| && a[..n] == b[..n]
    ensures n < |a| && le(a[n], b[n])
  {
    var r := b[n];
    assert forall i :: 0 <= i < n ==> a[i] == a[..n][i] == b[..n][i] == b[i] && a[i] != r;
    if r in a {
      var i :| 0 <= i < |a| && a[i] == r;
      assert i >= n;
    } else {
      assert NoneAfter(le, a, r);
    }
  }

  lemma {:induction false} SameStart(rows: set<nat>, le: (nat, nat) -> bool, limit: nat, a: seq<nat>, b: seq<nat>,
      n: nat)
    requires Ranking(le) && (forall x, y :: le(x, y) && le(y, x) ==> x == y)
    requires FirstRows(rows, le, limit, a) && FirstRows(rows, le, limit, b) && n <= |a| && n <= |b|
    ensures a[..n] == b[..n]
  {
    if n > 0 {
      SameStart(rows, le, limit, a, b, n - 1);
      SameNext(rows, le, limit, a, b, n - 1);
      SameNext(rows, le, limit, b, a, n - 1);
      assert a[..n] == a[..n - 1] + [a[n - 1]] && b[..n] == b[..n - 1] + [b[n - 1]];
    }
  }

  /** With no two rows equal in rank there is only one answer. */
  lemma OneAnswer(rows: set<nat>, le: (nat, nat) -> bool, limit: nat, a: seq<nat>, b: seq<nat>)
    requires Ranking(le) && (forall x, y :: le(x, y) && le(y, x) ==> x == y)
    requires FirstRows(rows, le, limit, a) && FirstRows(rows, le, limit, b)
    ensures a == b
  {
    var n := if |a| <= |b| then |a| else |b|;
    SameStart(rows, le, limit, a, b, n);
    if |a| < |b| {
      SameNext(rows, le, limit, a, b, n);
    } else if |b| < |a| {
      SameNext(rows, le, limit, b, a, n);
    }
    assert a[..n] == a && b[..n] == b;
  }
}
