/** Walks, cycles and orders in a finite directed graph of named tasks. */
module TaskGraph {
  import opened Sets

  type Adjacency = map<string, seq<string>>

  predicate HasEdge(adj: Adjacency, from: string, to: string) {
    from in adj && to in adj[from]
  }

  /** Every edge leads to a node of the graph. */
  ghost predicate Closed(adj: Adjacency) {
    forall from, to | HasEdge(adj, from, to) :: to in adj
  }

  ghost predicate IsWalk(adj: Adjacency, walk: seq<string>) {
    forall i, j | 0 <= i && j == i + 1 < |walk| :: HasEdge(adj, walk[i], walk[j])
  }

  ghost predicate IsCycle(adj: Adjacency, walk: seq<string>) {
    |walk| >= 2 && walk[0] == walk[|walk| - 1] && IsWalk(adj, walk)
  }

  ghost predicate Acyclic(adj: Adjacency) {
    forall walk :: !IsCycle(adj, walk)
  }

  predicate Distinct<T(==)>(s: seq<T>) {
    forall i, j | 0 <= i < j < |s| :: s[i] != s[j]
  }

  lemma DistinctCons<T>(x: T, s: seq<T>)
    ensures Distinct([x] + s) <==> x !in s && Distinct(s)
  {
    var all := [x] + s;
    if Distinct(all) {
      forall i | 0 <= i < |s| ensures x != s[i] && forall j | i < j < |s| :: s[i] != s[j] {
        assert all[0] != all[i + 1];
        forall j | i < j < |s| ensures s[i] != s[j] {
          assert all[i + 1] != all[j + 1];
        }
      }
    }
  }

  // ---------- A finish order rules out cycles ----------

  /** Every successor of a node comes earlier in the order. */
  ghost predicate FinishOrder(adj: Adjacency, order: seq<string>) {
    && Distinct(order)
    && forall i, to | 0 <= i < |order| && HasEdge(adj, order[i], to) :: to in order[..i]
  }

  /** Along a walk the positions in a finish order go down. */
  lemma {:induction false} WalkDescends(adj: Adjacency, order: seq<string>, walk: seq<string>, at: nat)
    requires FinishOrder(adj, order) && IsWalk(adj, walk)
    requires at < |order| && walk != [] && walk[0] == order[at]
    ensures walk[|walk| - 1] in order[..at + 1]
    ensures |walk| > 1 ==> walk[|walk| - 1] in order[..at]
  {
    if |walk| > 1 {
      assert HasEdge(adj, walk[0], walk[1]);
      var next :| 0 <= next < at && order[next] == walk[1];
      assert IsWalk(adj, walk[1..]) by {
        forall i, j | 0 <= i && j == i + 1 < |walk[1..]| ensures HasEdge(adj, walk[1..][i], walk[1..][j]) {
          assert HasEdge(adj, walk[i + 1], walk[j + 1]);
        }
      }
      WalkDescends(adj, order, walk[1..], next);
    }
  }

  lemma FinishOrderIsAcyclic(adj: Adjacency, order: seq<string>)
    requires FinishOrder(adj, order) && forall node | node in adj :: node in order
    ensures Acyclic(adj)
  {
    forall walk ensures !IsCycle(adj, walk) {
      if IsCycle(adj, walk) {
        assert HasEdge(adj, walk[0], walk[1]);
        var at :| 0 <= at < |order| && order[at] == walk[0];
        WalkDescends(adj, order, walk, at);
        assert false;
      }
    }
  }

  // ---------- A set of nodes that all have a predecessor in it contains a cycle ----------

  function ToSet<T(==)>(s: seq<T>): set<T> {
    set x | x in s
  }

  lemma {:induction false} DistinctSize<T>(s: seq<T>)
    requires Distinct(s)
    ensures |ToSet(s)| == |s|
  {
    if s != [] {
      var last := |s| - 1;
      DistinctSize(s[..last]);
      assert ToSet(s) == ToSet(s[..last]) + {s[last]};
      assert s[last] !in s[..last];
    }
  }

  ghost predicate PrecededIn(adj: Adjacency, nodes: set<string>, to: string) {
    exists from | from in nodes :: HasEdge(adj, from, to)
  }

  /** Every node of the set has a predecessor in the set. */
  ghost predicate Stuck(adj: Adjacency, nodes: set<string>) {
    nodes != {} && forall to {:trigger PrecededIn(adj, nodes, to)} | to in nodes :: PrecededIn(adj, nodes, to)
  }

  /** A walk of any length that ends in the set and never leaves it. */
  lemma {:induction false} BackwardWalk(adj: Adjacency, nodes: set<string>, length: nat) returns (walk: seq<string>)
    requires Stuck(adj, nodes)
    ensures |walk| == length + 1 && IsWalk(adj, walk) && ToSet(walk) <= nodes
  {
    if length == 0 {
      var node :| node in nodes;
      walk := [node];
    } else {
      var rest := BackwardWalk(adj, nodes, length - 1);
      assert rest[0] in ToSet(rest) && PrecededIn(adj, nodes, rest[0]);
      var from :| from in nodes && HasEdge(adj, from, rest[0]);
      walk := [from] + rest;
      forall i, j | 0 <= i && j == i + 1 < |walk| ensures HasEdge(adj, walk[i], walk[j]) {
        if i > 0 {
          assert HasEdge(adj, rest[i - 1], rest[j - 1]);
        }
      }
    }
  }

  lemma StuckSetHasCycle(adj: Adjacency, nodes: set<string>)
    requires Stuck(adj, nodes)
    ensures !Acyclic(adj)
  {
    var walk := BackwardWalk(adj, nodes, |nodes|);
    SubsetSize(ToSet(walk), nodes);
    if Distinct(walk) {
      DistinctSize(walk);
      assert false;
    }
    var i, j :| 0 <= i < j < |walk| && walk[i] == walk[j];
    var cycle := walk[i..j + 1];
    forall k, l | 0 <= k && l == k + 1 < |cycle| ensures HasEdge(adj, cycle[k], cycle[l]) {
      assert HasEdge(adj, walk[i + k], walk[i + l]);
    }
    assert IsCycle(adj, cycle);
  }

  /** In an acyclic graph every non-empty set of nodes has one that no other node of the set precedes. */
  lemma SourceExists(adj: Adjacency, nodes: set<string>) returns (source: string)
    requires Acyclic(adj) && nodes != {}
    ensures source in nodes && forall from | from in nodes :: !HasEdge(adj, from, source)
  {
    if Stuck(adj, nodes) {
      StuckSetHasCycle(adj, nodes);
      assert false;
    }
    source :| source in nodes && !PrecededIn(adj, nodes, source);
  }

  /** Every predecessor of a node comes earlier in the order. */
  ghost predicate TopologicalOrder(adj: Adjacency, order: seq<string>) {
    && Distinct(order)
    && forall i, from | 0 <= i < |order| && HasEdge(adj, from, order[i]) :: from in order[..i]
  }

  /** An acyclic graph's nodes can be put in topological order, after any initial part of one. */
  lemma {:induction false} TopologicalOrderExists(adj: Adjacency, done: seq<string>) returns (order: seq<string>)
    requires Acyclic(adj) && TopologicalOrder(adj, done) && ToSet(done) <= adj.Keys
    ensures TopologicalOrder(adj, order) && ToSet(order) == adj.Keys
    decreases |adj.Keys - ToSet(done)|
  {
    var left := adj.Keys - ToSet(done);
    if left == {} {
      order := done;
    } else {
      var next := SourceExists(adj, left);
      var more := done + [next];
      assert next !in done && ToSet(more) == ToSet(done) + {next};
      forall i, from | 0 <= i < |more| && HasEdge(adj, from, more[i]) ensures from in more[..i] {
        if i < |done| {
          assert more[..i] == done[..i];
        } else {
          assert more[..i] == done;
        }
      }
      assert adj.Keys - ToSet(more) < left;
      SubsetStrictSize(adj.Keys - ToSet(more), left);
      order := TopologicalOrderExists(adj, more);
    }
  }
}
