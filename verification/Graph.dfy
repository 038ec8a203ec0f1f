/** The dependency graph and the two recursive queries the scheduler runs over it.

    Edges are (parent, child) pairs.  A recursive query is modelled by the rows of its
    working table: each row is the path walked so far, the row's id being the last node. */
module Graph {

  type Node = nat
  type Edges = set<(Node, Node)>

  predicate Distinct(p: seq<Node>) {
    forall i, j :: 0 <= i < j < |p| ==> p[i] != p[j]
  }

  predicate Walk(edges: Edges, p: seq<Node>) {
    && |p| >= 2
    && forall i :: 0 <= i < |p| - 1 ==> (p[i], p[i + 1]) in edges
  }

  predicate WalkFromTo(edges: Edges, p: seq<Node>, a: Node, b: Node) {
    Walk(edges, p) && p[0] == a && p[|p| - 1] == b
  }

  /** b can be reached from a by following at least one edge. */
  ghost predicate Reaches(edges: Edges, a: Node, b: Node) {
    exists p :: WalkFromTo(edges, p, a, b)
  }

  ghost predicate Acyclic(edges: Edges) {
    forall n :: !Reaches(edges, n, n)
  }

  /** The table's own check: a job cannot depend on itself. */
  predicate NoSelfEdge(edges: Edges) {
    forall e :: e in edges ==> e.0 != e.1
  }

  function Targets(edges: Edges): set<Node> {
    set e | e in edges :: e.1
  }

  function Reversed(edges: Edges): Edges {
    set e | e in edges :: (e.1, e.0)
  }

  // ---------------------------------------------------------------- descendants

  function FirstRows(edges: Edges, root: Node): set<seq<Node>> {
    set e | e in edges && e.0 == root :: [e.0, e.1]
  }

  function NextRows(edges: Edges, rows: set<seq<Node>>): set<seq<Node>> {
    set p, e | p in rows && e in edges && |p| > 0 && e.0 == p[|p| - 1] && e.1 !in p :: p + [e.1]
  }

  /** What every row of the n-th working table looks like. */
  predicate RowShape(edges: Edges, root: Node, n: nat, p: seq<Node>) {
    && |p| == n
    && Walk(edges, p)
    && p[0] == root
    && Distinct(p[1..])
    && forall i :: 2 <= i < |p| ==> p[i] != root
  }

  predicate RowsShaped(edges: Edges, root: Node, n: nat, rows: set<seq<Node>>) {
    forall p :: p in rows ==> RowShape(edges, root, n, p)
  }

  lemma {:induction false} DistinctFits(p: seq<Node>, s: set<Node>)
    requires Distinct(p)
    requires forall i :: 0 <= i < |p| ==> p[i] in s
    ensures |p| <= |s|
  {
    if |p| > 0 {
      var last := p[|p| - 1];
      DistinctFits(p[..|p| - 1], s - {last});
    }
  }

  lemma RowIsShort(edges: Edges, root: Node, n: nat, p: seq<Node>)
    requires RowShape(edges, root, n, p)
    ensures n <= |Targets(edges)| + 1
  {
    forall i | 0 <= i < |p[1..]| ensures p[1..][i] in Targets(edges) {
      assert (p[i], p[i + 1]) in edges;
    }
    DistinctFits(p[1..], Targets(edges));
  }

  lemma RowsShort(edges: Edges, root: Node, n: nat, rows: set<seq<Node>>)
    requires RowsShaped(edges, root, n, rows) && rows != {}
    ensures n <= |Targets(edges)| + 1
  {
    var p :| p in rows;
    RowIsShort(edges, root, n, p);
  }

  lemma FirstRowsShaped(edges: Edges, root: Node)
    ensures RowsShaped(edges, root, 2, FirstRows(edges, root))
  {
  }

  lemma NextRowsShaped(edges: Edges, root: Node, n: nat, rows: set<seq<Node>>)
    requires RowsShaped(edges, root, n, rows)
    ensures RowsShaped(edges, root, n + 1, NextRows(edges, rows))
  {
    forall q | q in NextRows(edges, rows) ensures RowShape(edges, root, n + 1, q) {
      var p, e :| p in rows && e in edges && |p| > 0 && e.0 == p[|p| - 1] && e.1 !in p && q == p + [e.1];
      assert q[1..] == p[1..] + [e.1];
      assert forall i :: 1 <= i < |p| ==> p[i] == p[1..][i - 1];
      forall i | 0 <= i < |q| - 1 ensures (q[i], q[i + 1]) in edges {
        if i < |p| - 1 {
          assert (p[i], p[i + 1]) in edges;
        }
      }
    }
  }

  /** The union of all working tables, from one of them on.  The recursion ends on every
      finite graph because a row never visits a node twice. */
  function Closure(edges: Edges, root: Node, n: nat, rows: set<seq<Node>>): (all: set<seq<Node>>)
    requires RowsShaped(edges, root, n, rows)
    ensures rows <= all
    ensures forall p :: p in all ==> Walk(edges, p) && p[0] == root && |p| >= n
    ensures forall p, i :: p in all && 2 <= i < |p| ==> p[i] != root
    decreases |Targets(edges)| + 2 - n
  {
    if rows == {} then {} else
      NextRowsShaped(edges, root, n, rows);
      RowsShort(edges, root, n, rows);
      rows + Closure(edges, root, n + 1, NextRows(edges, rows))
  }

  /** The ids selected by the recursive query of fl.cancel_descendants. */
  function Descendants(edges: Edges, root: Node): set<Node> {
    FirstRowsShaped(edges, root);
    set p | p in Closure(edges, root, 2, FirstRows(edges, root)) :: p[|p| - 1]
  }

  lemma {:induction false} ClosureHasPath(edges: Edges, root: Node, n: nat, rows: set<seq<Node>>, p: seq<Node>)
    requires RowsShaped(edges, root, n, rows)
    requires 2 <= n <= |p| && Walk(edges, p) && Distinct(p) && p[..n] in rows
    ensures p in Closure(edges, root, n, rows)
    decreases |p| - n
  {
    if n == |p| {
      assert p[..n] == p;
    } else {
      NextRowsShaped(edges, root, n, rows);
      var e := (p[n - 1], p[n]);
      assert e in edges && p[..n][n - 1] == e.0;
      assert p[..n + 1] == p[..n] + [e.1];
      ClosureHasPath(edges, root, n + 1, NextRows(edges, rows), p);
    }
  }

  /** Every walk between two different nodes can be cut down to one without repeats. */
  lemma {:induction false} CutLoops(edges: Edges, w: seq<Node>, a: Node, b: Node) returns (p: seq<Node>)
    requires WalkFromTo(edges, w, a, b) && a != b
    ensures WalkFromTo(edges, p, a, b) && Distinct(p)
    decreases |w|
  {
    if Distinct(w) {
      p := w;
    } else {
      var i, j :| 0 <= i < j < |w| && w[i] == w[j];
      var v := w[..i] + w[j..];
      forall k | 0 <= k < |v| - 1 ensures (v[k], v[k + 1]) in edges {
        var k' := if k < i then k else k + j - i;
        assert (w[k'], w[k' + 1]) in edges;
      }
      p := CutLoops(edges, v, a, b);
    }
  }

  /** The query visits exactly the nodes reachable from the root, except the root itself;
      the root is visited only through an edge from itself to itself. */
  lemma DescendantsExact(edges: Edges, root: Node, c: Node)
    ensures c != root ==> (c in Descendants(edges, root) <==> Reaches(edges, root, c))
    ensures root in Descendants(edges, root) <==> (root, root) in edges
  {
    FirstRowsShaped(edges, root);
    var all := Closure(edges, root, 2, FirstRows(edges, root));
    if c in Descendants(edges, root) {
      var p :| p in all && c == p[|p| - 1];
      assert WalkFromTo(edges, p, root, c);
    }
    if c != root && Reaches(edges, root, c) {
      var w :| WalkFromTo(edges, w, root, c);
      var p := CutLoops(edges, w, root, c);
      assert (p[0], p[1]) in edges && p[..2] == [p[0], p[1]];
      ClosureHasPath(edges, root, 2, FirstRows(edges, root), p);
    }
    if root in Descendants(edges, root) {
      var p :| p in all && root == p[|p| - 1];
      assert |p| == 2 && (p[0], p[1]) in edges;
    }
    if (root, root) in edges {
      assert [root, root] in all;
    }
  }

  // ---------------------------------------------------------------- the cycle check

  /** A row of the upward query: the path followed by the row's id.  The query tests a new
      parent against the path only, which does not hold the id yet. */
  function UpFirst(edges: Edges, child: Node): set<seq<Node>> {
    set e | e in edges && e.1 == child :: [child, e.0]
  }

  function UpNext(edges: Edges, rows: set<seq<Node>>): set<seq<Node>> {
    set p, e | p in rows && e in edges && |p| > 0 && e.1 == p[|p| - 1] && e.0 !in p[..|p| - 1] :: p + [e.0]
  }

  lemma UpIsDownReversed(edges: Edges, root: Node, n: nat, rows: set<seq<Node>>)
    requires NoSelfEdge(edges)
    ensures UpFirst(edges, root) == FirstRows(Reversed(edges), root)
    ensures RowsShaped(Reversed(edges), root, n, rows) ==> UpNext(edges, rows) == NextRows(Reversed(edges), rows)
  {
    forall q | q in FirstRows(Reversed(edges), root) ensures q in UpFirst(edges, root) {
      var e :| e in Reversed(edges) && e.0 == root && q == [e.0, e.1];
      assert (e.1, e.0) in edges;
    }
    forall q | q in UpFirst(edges, root) ensures q in FirstRows(Reversed(edges), root) {
      var e :| e in edges && e.1 == root && q == [root, e.0];
      assert (e.1, e.0) in Reversed(edges);
    }
    if RowsShaped(Reversed(edges), root, n, rows) {
      forall q | q in UpNext(edges, rows) ensures q in NextRows(Reversed(edges), rows) {
        var p, e :| p in rows && e in edges && |p| > 0 && e.1 == p[|p| - 1] && e.0 !in p[..|p| - 1] && q == p + [e.0];
        assert p == p[..|p| - 1] + [p[|p| - 1]];
        assert (e.1, e.0) in Reversed(edges);
      }
      forall q | q in NextRows(Reversed(edges), rows) ensures q in UpNext(edges, rows) {
        var p, e :| p in rows && e in Reversed(edges) && |p| > 0 && e.0 == p[|p| - 1] && e.1 !in p && q == p + [e.1];
        assert (e.1, e.0) in edges;
      }
    }
  }

  function UpClosure(edges: Edges, child: Node, n: nat, rows: set<seq<Node>>): (all: set<seq<Node>>)
    requires NoSelfEdge(edges) && RowsShaped(Reversed(edges), child, n, rows)
    ensures all == Closure(Reversed(edges), child, n, rows)
    decreases |Targets(Reversed(edges))| + 2 - n
  {
    if rows == {} then {} else
      NextRowsShaped(Reversed(edges), child, n, rows);
      UpIsDownReversed(edges, child, n, rows);
      RowsShort(Reversed(edges), child, n, rows);
      rows + UpClosure(edges, child, n + 1, UpNext(edges, rows))
  }

  /** cycleSQL: does the upward walk from the child come back to the child? */
  predicate CycleQuery(edges: Edges, child: Node)
    requires NoSelfEdge(edges)
  {
    UpIsDownReversed(edges, child, 0, {});
    FirstRowsShaped(Reversed(edges), child);
    exists p :: p in UpClosure(edges, child, 2, UpFirst(edges, child)) && |p| > 0 && p[|p| - 1] == child
  }

  /** The path starts with the child and excludes its own members, so the query has no way
      to answer true on a table without self edges. */
  lemma CycleQueryNeverFires(edges: Edges, child: Node)
    requires NoSelfEdge(edges)
    ensures !CycleQuery(edges, child)
  {
    UpIsDownReversed(edges, child, 0, {});
    FirstRowsShaped(Reversed(edges), child);
    forall p | p in UpClosure(edges, child, 2, UpFirst(edges, child)) ensures p[|p| - 1] != child {
      assert (p[0], p[1]) in Reversed(edges);
    }
  }

  /** Its answer is therefore right exactly on the graphs that hold no cycle through the child. */
  lemma CycleQueryRightIff(edges: Edges, child: Node)
    requires NoSelfEdge(edges)
    ensures (CycleQuery(edges, child) <==> Reaches(edges, child, child)) <==> !Reaches(edges, child, child)
  {
    CycleQueryNeverFires(edges, child);
  }

  /** A two-job cycle that the query does not report. */
  lemma CycleQueryMissesACycle()
    ensures var edges := {(1, 2), (2, 1)};
            NoSelfEdge(edges) && Reaches(edges, 1, 1) && !CycleQuery(edges, 1)
  {
    var edges: Edges := {(1, 2), (2, 1)};
    assert WalkFromTo(edges, [1, 2, 1], 1, 1);
    CycleQueryNeverFires(edges, 1);
  }

  /** Edges that always enter a later-born node form no cycle. */
  lemma {:induction false} WalkClimbs(edges: Edges, birth: map<Node, nat>, p: seq<Node>)
    requires forall e :: e in edges ==> e.0 in birth && e.1 in birth && birth[e.0] < birth[e.1]
    requires Walk(edges, p)
    ensures p[0] in birth && p[|p| - 1] in birth && birth[p[0]] < birth[p[|p| - 1]]
    decreases |p|
  {
    assert (p[0], p[1]) in edges;
    if |p| > 2 {
      WalkClimbs(edges, birth, p[1..]) by {
        forall i | 0 <= i < |p[1..]| - 1 ensures (p[1..][i], p[1..][i + 1]) in edges {
          assert (p[i + 1], p[i + 2]) in edges;
        }
      }
    }
  }

  lemma ClimbingIsAcyclic(edges: Edges, birth: map<Node, nat>)
    requires forall e :: e in edges ==> e.0 in birth && e.1 in birth && birth[e.0] < birth[e.1]
    ensures Acyclic(edges)
  {
    forall n ensures !Reaches(edges, n, n) {
      if Reaches(edges, n, n) {
        var p :| WalkFromTo(edges, p, n, n);
        WalkClimbs(edges, birth, p);
      }
    }
  }
}
