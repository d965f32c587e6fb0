/** Three-colour depth-first search for cyclical dependencies (gitdot-config/src/validate.rs:160-213). */
module DagCheck {
  import opened Sets
  import opened TaskGraph

  datatype Color = White | Gray | Black

  class Search {
    const adj: Adjacency
    var color: map<string, Color>
    var path: seq<string>
    var errors: seq<seq<string>>   // each a reported cycle, its first node repeated at the end
    ghost var finished: seq<string>

    /**
      The gray nodes are exactly those on the path, the path is a simple walk,
      every reported error is a cycle, and as long as none was reported every
      finished node's successors finished before it.
     */
    ghost predicate Valid()
      reads this
    {
      && Closed(adj) && color.Keys == adj.Keys
      && (forall node | node in adj :: color[node].Gray? <==> node in path)
      && (forall node | node in adj :: color[node].Black? <==> node in finished)
      && ToSet(path) <= adj.Keys && ToSet(finished) <= adj.Keys
      && Distinct(path) && Distinct(finished) && IsWalk(adj, path)
      && (forall error | error in errors :: IsCycle(adj, error))
      && (errors == [] ==> FinishOrder(adj, finished))
    }

    ghost function Whites(): set<string>
      reads this
    {
      set node | node in color && color[node].White?
    }

    constructor (adj: Adjacency)
      requires Closed(adj)
      ensures Valid() && this.adj == adj && path == [] && errors == [] && Whites() == adj.Keys
    {
      this.adj := adj;
      color := map node | node in adj :: White;
      path, errors, finished := [], [], [];
    }

    /** The first position of a node that is on the path: the `unwrap` cannot fail. */
    method Position(node: string) returns (at: nat)
      requires node in path
      ensures at < |path| && path[at] == node && node !in path[..at]
    {
      at := 0;
      while path[at] != node
        invariant at < |path| && node !in path[..at]
        decreases |path| - at
      {
        at := at + 1;
      }
    }

    method Enter(node: string)
      requires Valid() && node in adj && color[node].White?
      requires path != [] ==> HasEdge(adj, path[|path| - 1], node)
      modifies this`color, this`path
      ensures Valid() && path == old(path) + [node] && Whites() < old(Whites())
    {
      color := color[node := Gray];
      path := path + [node];
      assert node in old(Whites()) && node !in Whites();
    }

    method Leave(node: string)
      requires Valid() && path != [] && path[|path| - 1] == node
      requires errors == [] ==> forall next | HasEdge(adj, node, next) :: next in finished
      modifies this`color, this`path, this`finished
      ensures Valid() && path == old(path)[..|old(path)| - 1]
      ensures finished == old(finished) + [node] && Whites() == old(Whites())
    {
      assert node in path && node in ToSet(path) && node !in finished;
      path := path[..|path| - 1];
      color := color[node := Black];
      if errors == [] {
        FinishedExtends(adj, finished, node);
      }
      finished := finished + [node];
      assert ToSet(path) <= adj.Keys;
    }

    /** A neighbour on the path: the walk from there back to it is reported. */
    method ReportCycle(next: string)
      requires Valid() && path != [] && HasEdge(adj, path[|path| - 1], next) && next in path
      modifies this`errors
      ensures Valid() && old(errors) < errors
    {
      var start := Position(next);
      CycleFromPath(adj, path, start, next);
      errors := errors + [path[start..] + [next]];
    }

    method Dfs(node: string)
      requires Valid() && node in adj && color[node].White?
      requires path != [] ==> HasEdge(adj, path[|path| - 1], node)
      modifies this
      ensures Valid() && path == old(path) && node in finished
      ensures Whites() <= old(Whites()) && old(finished) <= finished && old(errors) <= errors
      decreases |Whites()|
    {
      Enter(node);
      var neighbors := adj[node];
      for i := 0 to |neighbors|
        invariant Valid() && path == old(path) + [node]
        invariant Whites() < old(Whites()) && old(finished) <= finished && old(errors) <= errors
        invariant errors == [] ==> forall j | 0 <= j < i :: neighbors[j] in finished
      {
        var next := neighbors[i];
        assert HasEdge(adj, node, next);
        match color[next] {
          case Gray => ReportCycle(next);
          case White =>
            SubsetStrictSize(Whites(), old(Whites()));
            Dfs(next);
          case Black =>
        }
      }
      Leave(node);
    }

    /** The outer loop over the nodes, in whatever order the hash map yields them. */
    method Run(nodes: seq<string>)
      requires Valid() && path == [] && errors == [] && ToSet(nodes) == adj.Keys
      modifies this
      ensures errors == [] <==> Acyclic(adj)
      ensures forall error | error in errors :: IsCycle(adj, error)
      ensures Valid() && path == [] && forall node | node in adj :: node in finished
    {
      for i := 0 to |nodes|
        invariant Valid() && path == []
        invariant forall j | 0 <= j < i :: nodes[j] in finished
      {
        assert nodes[i] in ToSet(nodes);
        if color[nodes[i]].White? {
          Dfs(nodes[i]);
        }
      }
      assert forall node | node in ToSet(nodes) :: node in finished;
      if errors == [] {
        FinishOrderIsAcyclic(adj, finished);
      } else {
        assert IsCycle(adj, errors[0]);
      }
    }
  }

  lemma FinishedExtends(adj: Adjacency, finished: seq<string>, node: string)
    requires FinishOrder(adj, finished) && node !in finished
    requires forall next | HasEdge(adj, node, next) :: next in finished
    ensures FinishOrder(adj, finished + [node])
  {
    var more := finished + [node];
    forall i, to | 0 <= i < |more| && HasEdge(adj, more[i], to) ensures to in more[..i] {
      assert more[..i] == if i < |finished| then finished[..i] else finished;
    }
  }

  /** An edge back to the path closes a cycle. */
  lemma CycleFromPath(adj: Adjacency, path: seq<string>, start: nat, next: string)
    requires IsWalk(adj, path) && start < |path| && path[start] == next && HasEdge(adj, path[|path| - 1], next)
    ensures IsCycle(adj, path[start..] + [next])
  {
    var cycle := path[start..] + [next];
    forall i, j | 0 <= i && j == i + 1 < |cycle| ensures HasEdge(adj, cycle[i], cycle[j]) {
      if j < |cycle| - 1 {
        assert HasEdge(adj, path[start + i], path[start + j]);
      }
    }
  }
}
