/** Properties of the newer generator's output: entry points, cycles along
    exec and data edges, block lowering, handler and function names. */
module CodeGeneratorLemmas {
  import opened Wrappers
  import opened Schema
  import Seqs
  import Text
  import LD = LanguageDefinition
  import AST = AbstractSyntaxTree
  import opened CodeGenerator
  import opened CodeGeneratorResolution

  // ---------------------------------------------------------------------
  // Data cycles never finish
  // ---------------------------------------------------------------------

  /** A source whose first operand cannot be resolved supplies nothing. */
  lemma SourceStalls(g: Graph, src: Node, memo: Memo, fuel: nat)
    requires |Operands(LD.KindOf(src.nodeType))| > 0
    requires Resolve(g, src, Operands(LD.KindOf(src.nodeType))[0], memo, fuel).None?
    ensures Source(g, src, memo, fuel).None?
  {
  }

  lemma OperatorOperandsStartWithA(k: LD.NodeKind)
    requires LD.IsBinaryOperator(k) || k == LD.Not
    ensures |Operands(Some(k))| > 0 && Operands(Some(k))[0] == "a"
  {
  }

  /** An operator whose own result feeds its input `a` sends resolution
      round the loop forever: the cache entry is written only after the
      value is known, so no fuel is enough. */
  lemma {:induction false} SelfFedOperatorDiverges(g: Graph, x: Node, k: LD.NodeKind, c: AST.Connection, memo: Memo, fuel: nat)
    requires LD.KindOf(x.nodeType) == Some(k) && (LD.IsBinaryOperator(k) || k == LD.Not)
    requires AST.GetConnectionToInput(g, x.id, "a") == Some(c) && c.fromNode == x.id
    requires AST.GetNodeById(g, x.id) == Some(x)
    requires KeyOf(x, "a") !in memo
    ensures Resolve(g, x, "a", memo, fuel).None?
    decreases fuel
  {
    if fuel > 0 {
      var less: int := fuel - 1;
      ResolveUnfold(g, x, "a", memo, c, x, fuel, less);
      SelfFedOperatorDiverges(g, x, k, c, memo, less);
      OperatorOperandsStartWithA(k);
      SourceStalls(g, x, memo, less);
    }
  }

  /** No ranking fits a graph with such a loop. */
  lemma SelfFedNotRanked(g: Graph, x: Node, c: AST.Connection, rank: map<int, nat>)
    requires AST.GetConnectionToInput(g, x.id, "a") == Some(c) && c.fromNode == x.id
    ensures !DataRanked(g, rank)
  {
    var i :| 0 <= i < |g.connections| && g.connections[i] == c;
  }

  // ---------------------------------------------------------------------
  // Exec cycles
  // ---------------------------------------------------------------------

  /** A statement that is neither a block nor a root of its own. */
  predicate Plain(k: Option<LD.NodeKind>) {
    !IsBlock(k) && k != Some(LD.GameLoop) && k != Some(LD.WhenKeyPressed)
  }

  /** One `generateExecCode` frame of a block node whose statement cannot
      be generated yields nothing. */
  lemma BlockStallsExec(g: Graph, n: Node, indent: string, visited: set<int>, onMain: bool, memo: Memo, fuel: nat, less: nat)
    requires less + 1 == fuel && n.id !in visited && IsBlock(LD.KindOf(n.nodeType))
    requires ResolveInputs(g, n, n.inputs, map[], memo, less).Some? ==>
      BlockCode(g, n, LD.KindOf(n.nodeType).value, ResolveInputs(g, n, n.inputs, map[], memo, less).value.values,
                indent, ResolveInputs(g, n, n.inputs, map[], memo, less).value.memo, less).None?
    ensures GenExec(g, n, indent, visited, onMain, memo, fuel).None?
  {
    var k := LD.KindOf(n.nodeType);
    assert k != Some(LD.WhenKeyPressed) && IsBlock(k);
    var ins := ResolveInputs(g, n, n.inputs, map[], memo, less);
    assert ResolveInputs(g, n, n.inputs, map[], memo, fuel - 1) == ins;
    if ins.Some? {
      assert BlockCode(g, n, k.value, ins.value.values, indent, ins.value.memo, fuel - 1).None?;
    }
  }

  /** One frame of a plain statement whose continuation cannot be generated
      yields nothing. */
  lemma ChainStallsExec(g: Graph, n: Node, indent: string, visited: set<int>, onMain: bool, memo: Memo, fuel: nat, less: nat)
    requires less + 1 == fuel && n.id !in visited && Plain(LD.KindOf(n.nodeType))
    requires ResolveInputs(g, n, n.inputs, map[], memo, less).Some? ==>
      GenConnected(g, n.id, "out", indent, visited + {n.id}, onMain, ResolveInputs(g, n, n.inputs, map[], memo, less).value.memo, less).None?
    ensures GenExec(g, n, indent, visited, onMain, memo, fuel).None?
  {
    var k := LD.KindOf(n.nodeType);
    assert k != Some(LD.WhenKeyPressed) && !IsBlock(k) && k != Some(LD.GameLoop);
    var ins := ResolveInputs(g, n, n.inputs, map[], memo, less);
    assert ResolveInputs(g, n, n.inputs, map[], memo, fuel - 1) == ins;
    if ins.Some? {
      assert GenConnected(g, n.id, "out", indent, visited + {n.id}, onMain, ins.value.memo, fuel - 1).None?;
    }
  }

  /** Following an exec edge to a node that exists generates that node. */
  lemma FollowEdge(g: Graph, fromId: int, fromPort: string, e: AST.Connection, next: Node,
                   indent: string, visited: set<int>, onMain: bool, memo: Memo, fuel: nat)
    requires ExecEdgeFrom(g, fromId, fromPort) == Some(e) && AST.GetNodeById(g, e.toNode) == Some(next)
    ensures GenConnected(g, fromId, fromPort, indent, visited, onMain, memo, fuel) == GenExec(g, next, indent, visited, onMain, memo, fuel)
  {
  }

  /** A node without data inputs resolves nothing and leaves the cache alone. */
  lemma {:induction false} NothingToResolve(g: Graph, n: Node, ports: seq<Port>, acc: map<string, Resolved>, memo: Memo, fuel: nat)
    requires NoDataPorts(ports)
    ensures ResolveInputs(g, n, ports, acc, memo, fuel) == Some(Inputs(acc, memo))
    decreases |ports|
  {
    if |ports| > 0 {
      NothingToResolve(g, n, ports[1..], acc, memo, fuel);
    }
  }

  /** One frame of a plain statement: its own text from the resolved
      inputs, then whatever follows its `out` port on the same visited set
      plus itself. */
  lemma PlainFrame(g: Graph, n: Node, indent: string, visited: set<int>, onMain: bool, memo: Memo, fuel: nat, less: nat, ins: Inputs)
    requires less + 1 == fuel && n.id !in visited && Plain(LD.KindOf(n.nodeType))
    requires ResolveInputs(g, n, n.inputs, map[], memo, less) == Some(ins)
    ensures GenExec(g, n, indent, visited, onMain, memo, fuel) ==
      if GenConnected(g, n.id, "out", indent, visited + {n.id}, onMain, ins.memo, less).Some? then
        Some(Step(StatementCode(n, LD.KindOf(n.nodeType), ins.values, "\n" + indent)
                    + GenConnected(g, n.id, "out", indent, visited + {n.id}, onMain, ins.memo, less).value.text,
                  GenConnected(g, n.id, "out", indent, visited + {n.id}, onMain, ins.memo, less).value.memo))
      else None
  {
    assert ResolveInputs(g, n, n.inputs, map[], memo, fuel - 1) == Some(ins);
    assert GenConnected(g, n.id, "out", indent, visited + {n.id}, onMain, ins.memo, fuel - 1)
        == GenConnected(g, n.id, "out", indent, visited + {n.id}, onMain, ins.memo, less);
  }

  /** One frame of a plain statement without data inputs: its own text, then
      whatever follows its `out` port on the same visited set plus itself. */
  lemma ChainStep(g: Graph, n: Node, indent: string, visited: set<int>, onMain: bool, memo: Memo, fuel: nat, less: nat)
    requires less + 1 == fuel && n.id !in visited && Plain(LD.KindOf(n.nodeType)) && NoDataPorts(n.inputs)
    ensures GenExec(g, n, indent, visited, onMain, memo, fuel) ==
      if GenConnected(g, n.id, "out", indent, visited + {n.id}, onMain, memo, less).Some? then
        Some(Step(StatementCode(n, LD.KindOf(n.nodeType), map[], "\n" + indent)
                    + GenConnected(g, n.id, "out", indent, visited + {n.id}, onMain, memo, less).value.text,
                  GenConnected(g, n.id, "out", indent, visited + {n.id}, onMain, memo, less).value.memo))
      else None
  {
    NothingToResolve(g, n, n.inputs, map[], memo, less);
    PlainFrame(g, n, indent, visited, onMain, memo, fuel, less, Inputs(map[], memo));
  }

  /** Reaching a node already on the path writes the comment and stops. */
  lemma Revisit(g: Graph, n: Node, indent: string, visited: set<int>, onMain: bool, memo: Memo, fuel: nat)
    requires fuel > 0 && n.id in visited && LD.KindOf(n.nodeType) != Some(LD.WhenKeyPressed)
    ensures GenExec(g, n, indent, visited, onMain, memo, fuel) == Some(Step(LoopDetected(n), memo))
  {
  }
}
