/** When the older back end finishes. As for the newer generator, two
    rankings of the nodes suffice: a data rank that every data connection
    climbs, so that the chain of `getVariable` names behind an input ends,
    and a height that no `out` connection raises and every other exec
    connection lowers, so that every nested block sits strictly lower than
    the block that opens it while a chain at one level is cut by the
    visited set. Then `generateCode` finishes with fuel above a bound
    computed from the two rankings and the number of nodes. */
module BackendTermination {
  import opened Wrappers
  import opened Schema
  import Seqs
  import IR = IntermediateRepresentation
  import opened Backend
  import opened BackendResolution
  import opened Ranking
  import BackendLemmas

  // ---------------------------------------------------------------------
  // Rankings
  // ---------------------------------------------------------------------

  /** No `out` connection leads to a higher node, and every other exec
      connection (into a block's body or branch, a function body) leads to
      a strictly lower one. */
  predicate ExecRanked(g: Graph, height: map<int, nat>) {
    forall i :: 0 <= i < |g.connections| && g.connections[i].fromPortType == Exec ==>
      && g.connections[i].fromNode in height && g.connections[i].toNode in height
      && if g.connections[i].fromPort == "out" then height[g.connections[i].toNode] <= height[g.connections[i].fromNode]
         else height[g.connections[i].toNode] < height[g.connections[i].fromNode]
  }

  /** No data input of a node shares the name `in` of the exec input. */
  predicate DataInputsNamed(g: Graph) {
    forall n, j :: n in g.nodes && 0 <= j < |n.inputs| && n.inputs[j].portType == Data ==> n.inputs[j].id != "in"
  }

  /** The two rankings cover every node, and every data rank is below `d`. */
  predicate Ranked(g: Graph, data: map<int, nat>, height: map<int, nat>, d: nat) {
    && UniqueIds(g.nodes) && DataRanked(g, data) && ExecRanked(g, height) && DataInputsNamed(g)
    && forall n :: n in g.nodes ==> n.id in data && data[n.id] < d && n.id in height
  }

  /** The longest chain a visited set lets through: one node per node. */
  function Width(g: Graph): nat {
    |g.nodes|
  }

  /** The node an exec connection out of the port leads to, if it exists,
      is below `top`. */
  predicate EdgeBelow(g: Graph, height: map<int, nat>, fromId: int, fromPort: string, top: nat) {
    match ExecEdgeFrom(g, fromId, fromPort)
    case None => true
    case Some(c) =>
      match IR.GetNodeById(g, c.toNode)
      case None => true
      case Some(next) => next.id in height && height[next.id] < top
  }

  lemma EdgeRanked(g: Graph, height: map<int, nat>, c: IR.Connection)
    requires ExecRanked(g, height) && c in g.connections && c.fromPortType == Exec
    ensures c.fromNode in height && c.toNode in height
    ensures c.fromPort == "out" ==> height[c.toNode] <= height[c.fromNode]
    ensures c.fromPort != "out" ==> height[c.toNode] < height[c.fromNode]
  {
    var i :| 0 <= i < |g.connections| && g.connections[i] == c;
  }

  /** Out of a node, `out` leads no higher... */
  lemma OutBelow(g: Graph, height: map<int, nat>, n: Node)
    requires ExecRanked(g, height) && n.id in height
    ensures EdgeBelow(g, height, n.id, "out", height[n.id] + 1)
  {
    match ExecEdgeFrom(g, n.id, "out")
    case None =>
    case Some(c) =>
      EdgeRanked(g, height, c);
  }

  /** ...and any other exec port strictly lower. */
  lemma PortBelow(g: Graph, height: map<int, nat>, n: Node, port: string)
    requires ExecRanked(g, height) && n.id in height && port != "out"
    ensures EdgeBelow(g, height, n.id, port, height[n.id])
  {
    match ExecEdgeFrom(g, n.id, port)
    case None =>
    case Some(c) =>
      EdgeRanked(g, height, c);
  }

  // ---------------------------------------------------------------------
  // Data inputs
  // ---------------------------------------------------------------------

  /** The data inputs of a node resolve, whatever the cache holds, with
      fuel above the node's data rank. */
  lemma {:induction false} InputsResolve(g: Graph, data: map<int, nat>, n: Node, ports: seq<Port>,
                                         acc: map<string, string>, memo: Memo, fuel: nat)
    requires DataRanked(g, data) && n.id in data && fuel > data[n.id]
    requires forall j :: 0 <= j < |ports| && ports[j].portType == Data ==> ports[j].id != "in"
    ensures ResolveInputs(g, n, ports, acc, memo, fuel).Some?
    decreases |ports|
  {
    if |ports| > 0 {
      if ports[0].portType != Data {
        InputsResolve(g, data, n, ports[1..], acc, memo, fuel);
      } else {
        RankedResolvesCached(g, data, n, ports[0].id, memo, fuel);
        var v := Resolve(g, n, ports[0].id, memo, fuel).value;
        InputsResolve(g, data, n, ports[1..], acc[ports[0].id := v.text], v.memo, fuel);
      }
    }
  }

  // ---------------------------------------------------------------------
  // Exec chains and blocks
  // ---------------------------------------------------------------------

  /** The statement part of a frame: a block's statement with its nested
      chains, or the text of a plain statement. */
  function FrameBody(g: Graph, n: Node, ins: Inputs, indent: string, fuel: nat): Option<Step> {
    if IsBlock(n.nodeType) then BlockCode(g, n, ins.values, indent, ins.memo, fuel)
    else Some(Step(StatementCode(n, ins.values, "\n" + indent), ins.memo))
  }

  /** One frame of `generateExecCode` on a node not yet visited succeeds
      when its parts do: the resolved inputs, the statement, and what
      follows its `out` port. */
  lemma FrameSome(g: Graph, n: Node, indent: string, visited: set<int>, memo: Memo, fuel: nat, less: nat, ins: Inputs)
    requires less + 1 == fuel && n.id !in visited
    requires ResolveInputs(g, n, n.inputs, map[], memo, less) == Some(ins)
    requires FrameBody(g, n, ins, indent, less).Some?
    requires GenConnected(g, n.id, "out", indent, visited + {n.id}, FrameBody(g, n, ins, indent, less).value.memo, less).Some?
    ensures GenExec(g, Some(n), indent, visited, memo, fuel).Some?
  {
    assert ResolveInputs(g, n, n.inputs, map[], memo, fuel - 1) == Some(ins);
    var body := FrameBody(g, n, ins, indent, less).value;
    if IsBlock(n.nodeType) {
      assert BlockCode(g, n, ins.values, indent, ins.memo, fuel - 1) == Some(body);
    }
    assert GenConnected(g, n.id, "out", indent, visited + {n.id}, body.memo, fuel - 1).Some?;
  }

  // The fuel arithmetic, kept apart from the generator's terms.

  lemma FrameFuel(g: Graph, data: map<int, nat>, height: map<int, nat>, d: nat, n: Node, visited: set<int>, fuel: nat, less: nat)
    requires Ranked(g, data, height, d) && n in g.nodes && less + 1 == fuel
    requires fuel > d + Budget(height[n.id] + 1, Width(g)) + Unvisited(g.nodes, visited)
    ensures less > data[n.id]
    ensures less >= d + Budget(height[n.id] + 1, Width(g))
    ensures less >= d + Budget(height[n.id] + 1, Width(g)) + Unvisited(g.nodes, visited)
  {
  }

  lemma BodyFuel(g: Graph, height: map<int, nat>, d: nat, n: Node, fuel: nat)
    requires n.id in height && fuel >= d + Budget(height[n.id] + 1, Width(g))
    ensures fuel > d + Budget(height[n.id], Width(g)) + Width(g)
  {
    assert Budget(height[n.id] + 1, Width(g)) == Budget(height[n.id], Width(g)) + Width(g) + 1;
  }

  lemma OutFuel(g: Graph, height: map<int, nat>, d: nat, n: Node, visited: set<int>, fuel: nat)
    requires UniqueIds(g.nodes) && n in g.nodes && n.id in height && n.id !in visited
    requires fuel >= d + Budget(height[n.id] + 1, Width(g)) + Unvisited(g.nodes, visited)
    ensures fuel > d + Budget(height[n.id] + 1, Width(g)) + Unvisited(g.nodes, visited + {n.id})
  {
    OneFewer(g.nodes, visited, n);
  }

  lemma BlockFuel(g: Graph, height: map<int, nat>, d: nat, n: Node, fuel: nat)
    requires n.id in height && fuel > d + Budget(height[n.id], Width(g)) + Width(g)
    ensures fuel > d + Budget(height[n.id], Width(g)) + Unvisited(g.nodes, {})
  {
    UnvisitedAtMost(g.nodes, {});
  }

  lemma NextFuel(g: Graph, height: map<int, nat>, d: nat, fromId: int, fromPort: string, e: IR.Connection, next: Node,
                 visited: set<int>, top: nat, fuel: nat)
    requires EdgeBelow(g, height, fromId, fromPort, top)
    requires ExecEdgeFrom(g, fromId, fromPort) == Some(e) && IR.GetNodeById(g, e.toNode) == Some(next)
    requires fuel > d + Budget(top, Width(g)) + Unvisited(g.nodes, visited)
    ensures next.id in height && next in g.nodes
    ensures fuel > d + Budget(height[next.id] + 1, Width(g)) + Unvisited(g.nodes, visited)
  {
    BudgetMono(height[next.id] + 1, top, Width(g));
  }

  /** `generateExecCode` of a node of a ranked graph finishes when the fuel
      covers the data ranks, the blocks nested below the node, and one
      frame for each node not yet visited. */
  lemma {:induction false} ExecTerminates(g: Graph, data: map<int, nat>, height: map<int, nat>, d: nat, n: Node,
                                          indent: string, visited: set<int>, memo: Memo, fuel: nat)
    requires Ranked(g, data, height, d) && n in g.nodes
    requires fuel > d + Budget(height[n.id] + 1, Width(g)) + Unvisited(g.nodes, visited)
    ensures GenExec(g, Some(n), indent, visited, memo, fuel).Some?
    decreases fuel, 1
  {
    if n.id !in visited {
      FrameTerminates(g, data, height, d, n, indent, visited, memo, fuel);
    }
  }

  /** The frame of a node not yet visited: its inputs, its statement (a
      block's nested chains one level down) and what follows `out`. */
  lemma {:induction false} FrameTerminates(g: Graph, data: map<int, nat>, height: map<int, nat>, d: nat, n: Node,
                                           indent: string, visited: set<int>, memo: Memo, fuel: nat)
    requires Ranked(g, data, height, d) && n in g.nodes && n.id !in visited
    requires fuel > d + Budget(height[n.id] + 1, Width(g)) + Unvisited(g.nodes, visited)
    ensures GenExec(g, Some(n), indent, visited, memo, fuel).Some?
    decreases fuel, 0
  {
    var less: nat := fuel - 1;
    FrameFuel(g, data, height, d, n, visited, fuel, less);
    InputsResolve(g, data, n, n.inputs, map[], memo, less);
    var ins := ResolveInputs(g, n, n.inputs, map[], memo, less).value;
    BodyTerminates(g, data, height, d, n, ins, indent, less);
    OutTerminates(g, data, height, d, n, indent, visited, FrameBody(g, n, ins, indent, less).value.memo, less);
    FrameSome(g, n, indent, visited, memo, fuel, less, ins);
  }

  /** The statement of a frame finishes with one frame's fuel less. */
  lemma {:induction false} BodyTerminates(g: Graph, data: map<int, nat>, height: map<int, nat>, d: nat, n: Node,
                                          ins: Inputs, indent: string, fuel: nat)
    requires Ranked(g, data, height, d) && n in g.nodes
    requires fuel >= d + Budget(height[n.id] + 1, Width(g))
    ensures FrameBody(g, n, ins, indent, fuel).Some?
    decreases fuel, 4
  {
    if IsBlock(n.nodeType) {
      BodyFuel(g, height, d, n, fuel);
      BlockTerminates(g, data, height, d, n, ins.values, indent, ins.memo, fuel);
    }
  }

  /** What follows the `out` port of a frame finishes with one frame's fuel
      less, the node now visited. */
  lemma {:induction false} OutTerminates(g: Graph, data: map<int, nat>, height: map<int, nat>, d: nat, n: Node,
                                         indent: string, visited: set<int>, memo: Memo, fuel: nat)
    requires Ranked(g, data, height, d) && n in g.nodes && n.id !in visited
    requires fuel >= d + Budget(height[n.id] + 1, Width(g)) + Unvisited(g.nodes, visited)
    ensures GenConnected(g, n.id, "out", indent, visited + {n.id}, memo, fuel).Some?
    decreases fuel, 3
  {
    OutFuel(g, height, d, n, visited, fuel);
    OutBelow(g, height, n);
    ConnectedTerminates(g, data, height, d, n.id, "out", indent, visited + {n.id}, memo, height[n.id] + 1, fuel);
  }

  /** The statement of a block finishes when the fuel covers the data ranks,
      the blocks nested below it and one chain of at most every node. */
  lemma {:induction false} BlockTerminates(g: Graph, data: map<int, nat>, height: map<int, nat>, d: nat, n: Node,
                                           vals: map<string, string>, indent: string, memo: Memo, fuel: nat)
    requires Ranked(g, data, height, d) && n in g.nodes && IsBlock(n.nodeType)
    requires fuel > d + Budget(height[n.id], Width(g)) + Width(g)
    ensures BlockCode(g, n, vals, indent, memo, fuel).Some?
    decreases fuel, 3
  {
    var inner := indent + "  ";
    BlockFuel(g, height, d, n, fuel);
    if n.nodeType == "if" {
      PortBelow(g, height, n, "then");
      ConnectedTerminates(g, data, height, d, n.id, "then", inner, {}, memo, height[n.id], fuel);
      var t := GenConnected(g, n.id, "then", inner, {}, memo, fuel).value;
      PortBelow(g, height, n, "else");
      ConnectedTerminates(g, data, height, d, n.id, "else", inner, {}, t.memo, height[n.id], fuel);
    } else {
      PortBelow(g, height, n, "body");
      ConnectedTerminates(g, data, height, d, n.id, "body", inner, {}, memo, height[n.id], fuel);
    }
  }

  /** `generateConnectedExec` finishes when the node the port leads to is
      below `top` and the fuel covers the blocks below `top` and one frame
      for each node not yet visited. */
  lemma {:induction false} ConnectedTerminates(g: Graph, data: map<int, nat>, height: map<int, nat>, d: nat,
                                               fromId: int, fromPort: string, indent: string, visited: set<int>,
                                               memo: Memo, top: nat, fuel: nat)
    requires Ranked(g, data, height, d) && EdgeBelow(g, height, fromId, fromPort, top)
    requires fuel > d + Budget(top, Width(g)) + Unvisited(g.nodes, visited)
    ensures GenConnected(g, fromId, fromPort, indent, visited, memo, fuel).Some?
    decreases fuel, 2
  {
    var e := ExecEdgeFrom(g, fromId, fromPort);
    if e.Some? {
      var found := IR.GetNodeById(g, e.value.toNode);
      if found.Some? {
        var next := found.value;
        NextFuel(g, height, d, fromId, fromPort, e.value, next, visited, top, fuel);
        ExecTerminates(g, data, height, d, next, indent, visited, memo, fuel);
      } else {
        BackendLemmas.Silent(g, found, indent, visited, memo, fuel);
      }
      BackendLemmas.FollowEdge(g, fromId, fromPort, e.value, indent, visited, memo, fuel);
    }
  }

  // ---------------------------------------------------------------------
  // generateCode
  // ---------------------------------------------------------------------

  /** Every node is below height `top`, and the fuel covers the data ranks,
      every level of nested blocks and one chain through every node. */
  predicate Enough(g: Graph, data: map<int, nat>, height: map<int, nat>, d: nat, top: nat, fuel: nat) {
    && Ranked(g, data, height, d)
    && (forall n :: n in g.nodes ==> height[n.id] < top)
    && fuel > d + Budget(top, Width(g)) + Width(g)
  }

  lemma RootFuel(g: Graph, data: map<int, nat>, height: map<int, nat>, d: nat, top: nat, n: Node, fuel: nat)
    requires Enough(g, data, height, d, top, fuel) && n in g.nodes
    ensures fuel > data[n.id]
    ensures fuel > d + Budget(height[n.id] + 1, Width(g)) + Unvisited(g.nodes, {})
    ensures fuel > d + Budget(height[n.id], Width(g)) + Unvisited(g.nodes, {})
  {
    UnvisitedAtMost(g.nodes, {});
    BudgetMono(height[n.id] + 1, top, Width(g));
    BudgetMono(height[n.id], top, Width(g));
  }

  /** The definition of one function node finishes. */
  lemma DefinitionTerminates(g: Graph, data: map<int, nat>, height: map<int, nat>, d: nat, top: nat,
                             f: Node, defined: set<int>, memo: Memo, fuel: nat)
    requires Enough(g, data, height, d, top, fuel) && f in g.nodes
    ensures FunctionDefinition(g, f, defined, memo, fuel).Some?
  {
    if f.id !in defined {
      RootFuel(g, data, height, d, top, f, fuel);
      RankedResolvesCached(g, data, f, "name", memo, fuel);
      var r := Resolve(g, f, "name", memo, fuel).value;
      PortBelow(g, height, f, "body");
      ConnectedTerminates(g, data, height, d, f.id, "body", "  ", {}, r.memo, height[f.id], fuel);
    }
  }

  lemma {:induction false} DefinitionsTerminate(g: Graph, data: map<int, nat>, height: map<int, nat>, d: nat, top: nat,
                                                fs: seq<Node>, defined: set<int>, memo: Memo, fuel: nat)
    requires Enough(g, data, height, d, top, fuel) && forall i :: 0 <= i < |fs| ==> fs[i] in g.nodes
    ensures FunctionDefinitions(g, fs, defined, memo, fuel).Some?
    decreases |fs|
  {
    if |fs| > 0 {
      DefinitionTerminates(g, data, height, d, top, fs[0], defined, memo, fuel);
      var r := FunctionDefinition(g, fs[0], defined, memo, fuel).value;
      DefinitionsTerminate(g, data, height, d, top, fs[1..], r.defined, r.memo, fuel);
    }
  }

  /** `generateCode` finishes on every graph whose data connections climb a
      ranking and whose exec connections never climb a height (and strictly
      descend out of every port but `out`), given fuel above a bound computed
      from the two rankings and the number of nodes. */
  lemma RankedGenerates(g: Graph, data: map<int, nat>, height: map<int, nat>, d: nat, top: nat, fuel: nat)
    requires Ranked(g, data, height, d) && forall n :: n in g.nodes ==> height[n.id] < top
    requires fuel > d + Budget(top, Width(g)) + Width(g)
    ensures GenerateCode(g, fuel).Some?
  {
    match Seqs.Find(g.nodes, IsStart)
    case None =>
    case Some(s) =>
      var functions := Seqs.Filter(g.nodes, IsFunction);
      DefinitionsTerminate(g, data, height, d, top, functions, {}, map[], fuel);
      var defs := FunctionDefinitions(g, functions, {}, map[], fuel).value;
      RootFuel(g, data, height, d, top, s, fuel);
      ExecTerminates(g, data, height, d, s, "", {}, defs.memo, fuel);
  }
}
