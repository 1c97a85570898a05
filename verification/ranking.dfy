/** The measures both generators' termination arguments count down: the
    fuel the nested levels of blocks may use, and how many nodes a chain
    may still visit before the visited set cuts it. */
module Ranking {
  import opened Schema

  /** The fuel the blocks nested below height `h` may use: each level walks
      a chain of at most `width` nodes. */
  function Budget(h: nat, width: nat): nat {
    if h == 0 then 0 else Budget(h - 1, width) + width + 1
  }

  lemma {:induction false} BudgetMono(a: nat, b: nat, width: nat)
    requires a <= b
    ensures Budget(a, width) <= Budget(b, width)
    decreases b
  {
    if a < b {
      BudgetMono(a, b - 1, width);
      assert Budget(b, width) == Budget(b - 1, width) + width + 1;
    }
  }

  /** How many of `nodes` have an id outside `visited`. */
  function Unvisited(nodes: seq<Node>, visited: set<int>): nat {
    if |nodes| == 0 then 0 else (if nodes[0].id in visited then 0 else 1) + Unvisited(nodes[1..], visited)
  }

  lemma {:induction false} UnvisitedAtMost(nodes: seq<Node>, visited: set<int>)
    ensures Unvisited(nodes, visited) <= |nodes|
  {
    if |nodes| > 0 {
      UnvisitedAtMost(nodes[1..], visited);
    }
  }

  /** An id no node carries does not change the count. */
  lemma {:induction false} UnvisitedOther(nodes: seq<Node>, visited: set<int>, x: int)
    requires forall i :: 0 <= i < |nodes| ==> nodes[i].id != x
    ensures Unvisited(nodes, visited + {x}) == Unvisited(nodes, visited)
  {
    if |nodes| > 0 {
      UnvisitedOther(nodes[1..], visited, x);
    }
  }

  /** Visiting a node of the graph, ids being unique, leaves one fewer. */
  lemma {:induction false} OneFewer(nodes: seq<Node>, visited: set<int>, n: Node)
    requires UniqueIds(nodes) && n in nodes && n.id !in visited
    ensures Unvisited(nodes, visited + {n.id}) + 1 == Unvisited(nodes, visited)
  {
    assert forall i, j :: 0 <= i < j < |nodes| ==> DistinctIds(nodes[i], nodes[j]);
    var rest := nodes[1..];
    if nodes[0] == n {
      assert forall i :: 0 <= i < |rest| ==> rest[i].id != n.id by {
        forall i | 0 <= i < |rest|
          ensures rest[i].id != n.id
        {
          assert DistinctIds(nodes[0], nodes[i + 1]);
        }
      }
      UnvisitedOther(rest, visited, n.id);
    } else {
      assert UniqueIds(rest) by {
        forall i, j | 0 <= i < j < |rest|
          ensures DistinctIds(rest[i], rest[j])
        {
          assert DistinctIds(nodes[i + 1], nodes[j + 1]);
        }
      }
      assert nodes[0].id != n.id by {
        var k :| 0 <= k < |nodes| && nodes[k] == n;
        assert DistinctIds(nodes[0], nodes[k]);
      }
      OneFewer(rest, visited, n);
    }
  }
}
