/** Exec cycles in the older back end. A chain of `out` connections that
    comes back to a node already generated on its path ends there without a
    word. A chain that leads from a block's nested port back to the block is
    different: the block opens every nested chain on a fresh visited set, so
    it is generated again inside itself and no fuel is enough. */
module BackendCycles {
  import opened Wrappers
  import opened Schema
  import IR = IntermediateRepresentation
  import opened Backend
  import opened BackendLemmas
  import BackendTermination

  /** The node an exec connection out of the port leads to, when there is
      such a connection and its target exists. */
  function Successor(g: Graph, fromId: int, fromPort: string): Option<Node> {
    match ExecEdgeFrom(g, fromId, fromPort)
    case None => None
    case Some(c) => IR.GetNodeById(g, c.toNode)
  }

  lemma FollowSuccessor(g: Graph, fromId: int, fromPort: string, next: Node,
                        indent: string, visited: set<int>, memo: Memo, fuel: nat)
    requires Successor(g, fromId, fromPort) == Some(next)
    ensures GenConnected(g, fromId, fromPort, indent, visited, memo, fuel) == GenExec(g, Some(next), indent, visited, memo, fuel)
  {
  }

  /** `path` is a chain of `out` connections whose last node leads to
      `target`. */
  predicate OutChain(g: Graph, path: seq<Node>, target: Node) {
    && |path| > 0
    && (forall i :: 0 <= i < |path| - 1 ==> Successor(g, path[i].id, "out") == Some(path[i + 1]))
    && Successor(g, path[|path| - 1].id, "out") == Some(target)
  }

  lemma TailChain(g: Graph, path: seq<Node>, target: Node)
    requires OutChain(g, path, target) && |path| > 1
    ensures OutChain(g, path[1..], target) && Successor(g, path[0].id, "out") == Some(path[1])
  {
    var rest := path[1..];
    forall i | 0 <= i < |rest| - 1
      ensures Successor(g, rest[i].id, "out") == Some(rest[i + 1])
    {
      assert rest[i] == path[i + 1] && rest[i + 1] == path[i + 2];
    }
  }

  lemma TailUnique(path: seq<Node>)
    requires UniqueIds(path) && |path| > 0
    ensures UniqueIds(path[1..])
    ensures forall i :: 1 <= i < |path| ==> path[i].id != path[0].id
  {
    var rest := path[1..];
    forall i, j | 0 <= i < j < |rest|
      ensures DistinctIds(rest[i], rest[j])
    {
      assert DistinctIds(path[i + 1], path[j + 1]);
    }
    forall i | 1 <= i < |path|
      ensures path[i].id != path[0].id
    {
      assert DistinctIds(path[0], path[i]);
    }
  }

  // ---------------------------------------------------------------------
  // Chains cut by the visited set
  // ---------------------------------------------------------------------

  /** Statements that are not blocks and have no data inputs: their text
      does not depend on the cache, and they leave it alone. */
  predicate Quiet(path: seq<Node>) {
    forall i :: 0 <= i < |path| ==> !IsBlock(path[i].nodeType) && NoDataPorts(path[i].inputs)
  }

  /** The statements of such a chain, one after another. */
  function Texts(path: seq<Node>, indent: string): string {
    if |path| == 0 then ""
    else StatementCode(path[0], map[], "\n" + indent) + Texts(path[1..], indent)
  }

  /** What the rest of a chain needs once its first node is on the path. */
  lemma TailReady(g: Graph, path: seq<Node>, target: Node, visited: set<int>)
    requires OutChain(g, path, target) && Quiet(path) && UniqueIds(path) && |path| > 1
    requires forall i :: 0 <= i < |path| ==> path[i].id !in visited
    requires target.id in visited || target in path
    ensures OutChain(g, path[1..], target) && Successor(g, path[0].id, "out") == Some(path[1])
    ensures Quiet(path[1..]) && UniqueIds(path[1..])
    ensures forall i :: 0 <= i < |path[1..]| ==> path[1..][i].id !in visited + {path[0].id}
    ensures target.id in visited + {path[0].id} || target in path[1..]
  {
    TailChain(g, path, target);
    TailUnique(path);
    if target !in path[1..] && target in path {
      assert target == path[0];
    }
  }

  /** One frame of a statement without data inputs, not a block, whose
      continuation is known. */
  lemma StepText(g: Graph, n: Node, indent: string, visited: set<int>, memo: Memo, fuel: nat, less: nat, t: string)
    requires less + 1 == fuel && n.id !in visited && !IsBlock(n.nodeType) && NoDataPorts(n.inputs)
    requires GenConnected(g, n.id, "out", indent, visited + {n.id}, memo, less) == Some(Step(t, memo))
    ensures GenExec(g, Some(n), indent, visited, memo, fuel) == Some(Step(StatementCode(n, map[], "\n" + indent) + t, memo))
  {
    ChainStep(g, n, indent, visited, memo, fuel, less);
  }

  /** A chain of `out` connections through distinct nodes that are not yet
      on the path, which leads to a node already on the path or on the
      chain itself: every node of the chain is written once, in order, and
      the chain ends there without a word. The cache is untouched. */
  lemma {:induction false} ChainCut(g: Graph, path: seq<Node>, target: Node, indent: string, visited: set<int>,
                                    memo: Memo, fuel: nat)
    requires OutChain(g, path, target) && Quiet(path) && UniqueIds(path)
    requires forall i :: 0 <= i < |path| ==> path[i].id !in visited
    requires target.id in visited || target in path
    requires fuel > |path|
    ensures GenExec(g, Some(path[0]), indent, visited, memo, fuel) == Some(Step(Texts(path, indent), memo))
    decreases |path|
  {
    if |path| == 1 {
      CutLast(g, path[0], target, indent, visited, memo, fuel);
    } else {
      var less: nat := fuel - 1;
      TailReady(g, path, target, visited);
      ChainCut(g, path[1..], target, indent, visited + {path[0].id}, memo, less);
      CutStep(g, path, indent, visited, memo, fuel, less);
    }
  }

  /** The last node of such a chain: its statement, and nothing after it. */
  lemma CutLast(g: Graph, n: Node, target: Node, indent: string, visited: set<int>, memo: Memo, fuel: nat)
    requires Successor(g, n.id, "out") == Some(target) && Quiet([n]) && n.id !in visited
    requires target.id in visited || target == n
    requires fuel > 1
    ensures GenExec(g, Some(n), indent, visited, memo, fuel) == Some(Step(Texts([n], indent), memo))
  {
    var less: nat := fuel - 1;
    var v := visited + {n.id};
    var head := StatementCode(n, map[], "\n" + indent);
    Silent(g, Some(target), indent, v, memo, less);
    FollowSuccessor(g, n.id, "out", target, indent, v, memo, less);
    assert Quiet([n]) ==> !IsBlock([n][0].nodeType) && NoDataPorts([n][0].inputs);
    StepText(g, n, indent, visited, memo, fuel, less, "");
    assert Texts([n], indent) == head + Texts([], indent);
  }

  /** An earlier node of such a chain: its statement, then the rest. */
  lemma CutStep(g: Graph, path: seq<Node>, indent: string, visited: set<int>, memo: Memo, fuel: nat, less: nat)
    requires |path| > 1 && Quiet(path) && path[0].id !in visited && less + 1 == fuel
    requires Successor(g, path[0].id, "out") == Some(path[1])
    requires GenExec(g, Some(path[1..][0]), indent, visited + {path[0].id}, memo, less) == Some(Step(Texts(path[1..], indent), memo))
    ensures GenExec(g, Some(path[0]), indent, visited, memo, fuel) == Some(Step(Texts(path, indent), memo))
  {
    var rest := path[1..];
    assert rest[0] == path[1];
    FollowSuccessor(g, path[0].id, "out", path[1], indent, visited + {path[0].id}, memo, less);
    StepText(g, path[0], indent, visited, memo, fuel, less, Texts(rest, indent));
  }

  /** Two statements whose `out` ports lead to each other: each is written
      once, and the chain ends without a word when it comes back to the
      first. */
  lemma OutLoopCut(g: Graph, a: Node, b: Node, indent: string, visited: set<int>, memo: Memo, fuel: nat)
    requires Successor(g, a.id, "out") == Some(b) && Successor(g, b.id, "out") == Some(a)
    requires Quiet([a, b]) && a.id != b.id && a.id !in visited && b.id !in visited && fuel >= 3
    ensures GenExec(g, Some(a), indent, visited, memo, fuel) ==
      Some(Step(StatementCode(a, map[], "\n" + indent) + StatementCode(b, map[], "\n" + indent), memo))
  {
    var path := [a, b];
    assert path[1..] == [b] && path[1..][0] == b && path[0] == a;
    CutLast(g, b, a, indent, visited + {a.id}, memo, fuel - 1);
    CutStep(g, path, indent, visited, memo, fuel, fuel - 1);
    TwoTexts(a, b, indent);
  }

  lemma TwoTexts(a: Node, b: Node, indent: string)
    ensures Texts([a, b], indent) == StatementCode(a, map[], "\n" + indent) + StatementCode(b, map[], "\n" + indent)
  {
    var sb := StatementCode(b, map[], "\n" + indent);
    assert [a, b][1..] == [b] && [b][1..] == [];
    assert Texts([b], indent) == sb + Texts([], indent);
  }

  // ---------------------------------------------------------------------
  // Chains back into a block
  // ---------------------------------------------------------------------

  /** The ports whose chains a block's statement generates. */
  predicate NestedPort(t: string, port: string) {
    if t == "if" then port == "then" || port == "else" else port == "body"
  }

  /** A chain from a nested port of block `r`, through distinct nodes other
      than `r`, back to `r`. */
  predicate BackChain(g: Graph, r: Node, port: string, path: seq<Node>) {
    && IsBlock(r.nodeType) && NestedPort(r.nodeType, port)
    && OutChain(g, path, r) && Successor(g, r.id, port) == Some(path[0]) && UniqueIds(path)
    && forall i :: 0 <= i < |path| ==> path[i].id != r.id
  }

  /** One frame of a node yields nothing when what follows its `out` port
      yields nothing. */
  lemma FrameStalls(g: Graph, n: Node, indent: string, visited: set<int>, memo: Memo, fuel: nat, less: nat)
    requires less + 1 == fuel && n.id !in visited
    requires ResolveInputs(g, n, n.inputs, map[], memo, less).Some? ==>
      forall m: Memo :: GenConnected(g, n.id, "out", indent, visited + {n.id}, m, less).None?
    ensures GenExec(g, Some(n), indent, visited, memo, fuel).None?
  {
    var ins := ResolveInputs(g, n, n.inputs, map[], memo, less);
    assert ResolveInputs(g, n, n.inputs, map[], memo, fuel - 1) == ins;
    if ins.Some? {
      var body := BackendTermination.FrameBody(g, n, ins.value, indent, less);
      if IsBlock(n.nodeType) {
        assert BlockCode(g, n, ins.value.values, indent, ins.value.memo, fuel - 1) == body;
      }
      if body.Some? {
        assert GenConnected(g, n.id, "out", indent, visited + {n.id}, body.value.memo, fuel - 1).None?;
      }
    }
  }

  /** A block one of whose nested chains leads back to it is generated again
      inside that chain, from a fresh visited set each time: no fuel is
      enough. */
  lemma {:induction false} LoopDiverges(g: Graph, r: Node, port: string, path: seq<Node>,
                                        indent: string, visited: set<int>, memo: Memo, fuel: nat)
    requires BackChain(g, r, port, path) && r.id !in visited
    ensures GenExec(g, Some(r), indent, visited, memo, fuel).None?
    decreases fuel, 1
  {
    if fuel > 0 {
      var less: nat := fuel - 1;
      var ins := ResolveInputs(g, r, r.inputs, map[], memo, less);
      if ins.Some? {
        NestedStalls(g, r, port, path, ins.value.values, indent, ins.value.memo, less);
      }
      BlockStallsExec(g, r, indent, visited, memo, fuel, less);
    }
  }

  /** The statement of such a block yields nothing. */
  lemma {:induction false} NestedStalls(g: Graph, r: Node, port: string, path: seq<Node>,
                                        vals: map<string, string>, indent: string, memo: Memo, fuel: nat)
    requires BackChain(g, r, port, path)
    ensures BlockCode(g, r, vals, indent, memo, fuel).None?
    decreases fuel, 4
  {
    PortStalls(g, r, port, path, indent + "  ", fuel);
    BlockNone(g, r, port, vals, indent, memo, fuel);
  }

  /** The nested chain back into the block yields nothing, whatever the
      cache. */
  lemma {:induction false} PortStalls(g: Graph, r: Node, port: string, path: seq<Node>, inner: string, fuel: nat)
    requires BackChain(g, r, port, path)
    ensures forall m: Memo :: GenConnected(g, r.id, port, inner, {}, m, fuel).None?
    decreases fuel, 3
  {
    forall m: Memo
      ensures GenConnected(g, r.id, port, inner, {}, m, fuel).None?
    {
      PathDiverges(g, r, port, path, 0, inner, {}, m, fuel);
      FollowSuccessor(g, r.id, port, path[0], inner, {}, m, fuel);
    }
  }

  /** A block's statement yields nothing when one of its nested chains
      yields nothing, whatever the cache. */
  lemma BlockNone(g: Graph, r: Node, port: string, vals: map<string, string>, indent: string, memo: Memo, fuel: nat)
    requires IsBlock(r.nodeType) && NestedPort(r.nodeType, port)
    requires forall m: Memo :: GenConnected(g, r.id, port, indent + "  ", {}, m, fuel).None?
    ensures BlockCode(g, r, vals, indent, memo, fuel).None?
  {
    var inner := indent + "  ";
    if r.nodeType == "if" {
      var t := GenConnected(g, r.id, "then", inner, {}, memo, fuel);
      if t.Some? {
        assert GenConnected(g, r.id, "else", inner, {}, t.value.memo, fuel).None?;
      }
    } else {
      assert GenConnected(g, r.id, "body", inner, {}, memo, fuel).None?;
    }
  }

  /** Every node of the chain back into the block yields nothing. */
  lemma {:induction false} PathDiverges(g: Graph, r: Node, port: string, path: seq<Node>, i: nat,
                                        inner: string, visited: set<int>, memo: Memo, fuel: nat)
    requires BackChain(g, r, port, path) && i < |path|
    requires r.id !in visited && forall j :: i <= j < |path| ==> path[j].id !in visited
    ensures GenExec(g, Some(path[i]), inner, visited, memo, fuel).None?
    decreases fuel, 2
  {
    if fuel > 0 {
      var less: nat := fuel - 1;
      var n := path[i];
      forall m: Memo
        ensures GenConnected(g, n.id, "out", inner, visited + {n.id}, m, less).None?
      {
        if i + 1 < |path| {
          NextStalls(g, r, port, path, i, inner, visited, m, less);
        } else {
          BackStalls(g, r, port, path, inner, visited, m, less);
        }
      }
      FrameStalls(g, n, inner, visited, memo, fuel, less);
    }
  }

  /** What follows a node of that chain before its last yields nothing... */
  lemma {:induction false} NextStalls(g: Graph, r: Node, port: string, path: seq<Node>, i: nat,
                                      inner: string, visited: set<int>, memo: Memo, fuel: nat)
    requires BackChain(g, r, port, path) && i + 1 < |path|
    requires r.id !in visited && forall j :: i <= j < |path| ==> path[j].id !in visited
    ensures GenConnected(g, path[i].id, "out", inner, visited + {path[i].id}, memo, fuel).None?
    decreases fuel, 3
  {
    var v := visited + {path[i].id};
    NextReady(path, i, visited);
    PathDiverges(g, r, port, path, i + 1, inner, v, memo, fuel);
    FollowSuccessor(g, path[i].id, "out", path[i + 1], inner, v, memo, fuel);
  }

  /** ...and so does the way back into the block after the last one. */
  lemma {:induction false} BackStalls(g: Graph, r: Node, port: string, path: seq<Node>,
                                      inner: string, visited: set<int>, memo: Memo, fuel: nat)
    requires BackChain(g, r, port, path) && r.id !in visited
    ensures GenConnected(g, path[|path| - 1].id, "out", inner, visited + {path[|path| - 1].id}, memo, fuel).None?
    decreases fuel, 3
  {
    var last := path[|path| - 1];
    var v := visited + {last.id};
    LoopDiverges(g, r, port, path, inner, v, memo, fuel);
    FollowSuccessor(g, last.id, "out", r, inner, v, memo, fuel);
  }

  lemma NextReady(path: seq<Node>, i: nat, visited: set<int>)
    requires UniqueIds(path) && i + 1 < |path|
    requires forall j :: i <= j < |path| ==> path[j].id !in visited
    ensures forall j :: i + 1 <= j < |path| ==> path[j].id !in visited + {path[i].id}
  {
    forall j | i + 1 <= j < |path|
      ensures path[j].id !in visited + {path[i].id}
    {
      assert DistinctIds(path[i], path[j]);
    }
  }

  /** The smallest case: a `repeat` or `while` whose body statement leads
      back to it. */
  lemma BodyLoopDiverges(g: Graph, r: Node, a: Node, indent: string, visited: set<int>, memo: Memo, fuel: nat)
    requires (r.nodeType == "repeat" || r.nodeType == "while") && r.id != a.id && r.id !in visited
    requires Successor(g, r.id, "body") == Some(a) && Successor(g, a.id, "out") == Some(r)
    ensures GenExec(g, Some(r), indent, visited, memo, fuel).None?
  {
    LoopDiverges(g, r, "body", [a], indent, visited, memo, fuel);
  }
}
