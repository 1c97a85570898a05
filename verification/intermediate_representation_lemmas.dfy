/** What the editing operations of the older graph promise. */
module IntermediateRepresentationLemmas {
  import opened Wrappers
  import opened Schema
  import Seqs
  import ND = NodeDefinitions
  import opened IntermediateRepresentation

  // ---------------------------------------------------------------------
  // createConnection
  // ---------------------------------------------------------------------

  /** A request that fails one of the checks changes nothing. */
  lemma RefusalChangesNothing(g: Graph, fromId: int, fromPortId: string, toId: int, toPortId: string, stamp: nat)
    requires !Admissible(g, fromId, fromPortId, toId, toPortId)
    ensures CreateConnection(g, fromId, fromPortId, toId, toPortId, stamp) == Outcome(g, None)
  {
  }

  /** A connection is only made for an admissible request, never from a node
      to itself, and joins exactly the requested ports. */
  lemma MadeAsRequested(g: Graph, fromId: int, fromPortId: string, toId: int, toPortId: string, stamp: nat)
    requires CreateConnection(g, fromId, fromPortId, toId, toPortId, stamp).made.Some?
    ensures Admissible(g, fromId, fromPortId, toId, toPortId) && fromId != toId
    ensures var r := CreateConnection(g, fromId, fromPortId, toId, toPortId, stamp);
      && r.made.value.fromNode == fromId && r.made.value.fromPort == fromPortId
      && r.made.value.toNode == toId && r.made.value.toPort == toPortId
      && r.made.value.id == ConnectionId(fromId, fromPortId, toId, toPortId, stamp)
      && |r.graph.connections| > 0 && r.graph.connections[|r.graph.connections| - 1] == r.made.value
  {
  }

  function SourcePort(g: Graph, fromId: int, fromPortId: string, toId: int, toPortId: string): Port
    requires Admissible(g, fromId, fromPortId, toId, toPortId)
  {
    FindPort(FindNode(g.nodes, fromId).value.outputs, fromPortId).value
  }

  function TargetPort(g: Graph, fromId: int, fromPortId: string, toId: int, toPortId: string): Port
    requires Admissible(g, fromId, fromPortId, toId, toPortId)
  {
    FindPort(FindNode(g.nodes, toId).value.inputs, toPortId).value
  }

  lemma AdmissibleAttaches(g: Graph, fromId: int, fromPortId: string, toId: int, toPortId: string, stamp: nat)
    requires Admissible(g, fromId, fromPortId, toId, toPortId)
    ensures CreateConnection(g, fromId, fromPortId, toId, toPortId, stamp)
         == Attach(g, fromId, SourcePort(g, fromId, fromPortId, toId, toPortId),
                   toId, TargetPort(g, fromId, fromPortId, toId, toPortId), stamp)
  {
  }

  /** With at most one connection per input, removing the one into an input
      by its id leaves none into it. Every connection sharing that id goes
      too, wherever it leads. */
  lemma ClearedClears(g: Graph, toId: int, toPortId: string)
    requires SingleIncoming(g.connections)
    ensures var cs := ClearInput(g, toId, toPortId).connections;
      && SingleIncoming(cs)
      && (forall c :: c in cs ==> c in g.connections && !Into(c, toId, toPortId))
      && (forall c :: c in g.connections && !Into(c, toId, toPortId)
            && (GetConnectionToInput(g, toId, toPortId).Some? ==> c.id != GetConnectionToInput(g, toId, toPortId).value.id)
            ==> c in cs)
  {
    var cs := ClearInput(g, toId, toPortId).connections;
    match GetConnectionToInput(g, toId, toPortId)
    case None =>
    case Some(prior) =>
      Seqs.FilterPairwise(g.connections, (c: Connection) => c.id != prior.id, DistinctInputs);
      forall c | c in cs ensures !Into(c, toId, toPortId) {
        var i :| 0 <= i < |g.connections| && g.connections[i] == c;
        var j :| 0 <= j < |g.connections| && g.connections[j] == prior;
        if i < j {
          assert DistinctInputs(g.connections[i], g.connections[j]);
        } else if j < i {
          assert DistinctInputs(g.connections[j], g.connections[i]);
        }
      }
  }

  /** Attaching under the invariant: the connection is made, the input's
      earlier connection (and anything sharing its id) is gone, every other
      connection stays, and the input is now fed by the new one. */
  lemma AttachReplaces(g: Graph, fromId: int, p: Port, toId: int, q: Port, stamp: nat)
    requires SingleIncoming(g.connections)
    ensures var r := Attach(g, fromId, p, toId, q, stamp);
      && r.made.Some? && Into(r.made.value, toId, q.id)
      && r.graph.connections == ClearInput(g, toId, q.id).connections + [r.made.value]
      && GetConnectionToInput(r.graph, toId, q.id) == r.made
  {
    ClearedClears(g, toId, q.id);
    var kept := ClearInput(g, toId, q.id).connections;
    assert forall k :: 0 <= k < |kept| ==> kept[k] in kept;
    var r := Attach(g, fromId, p, toId, q, stamp);
    var f := GetConnectionToInput(r.graph, toId, q.id);
    assert r.graph.connections[|kept|] == r.made.value;
    assert f.Some?;
  }

  /** Under the invariant an admissible request is never refused. */
  lemma AdmissibleIsMade(g: Graph, fromId: int, fromPortId: string, toId: int, toPortId: string, stamp: nat)
    requires Valid(g) && Admissible(g, fromId, fromPortId, toId, toPortId)
    ensures var r := CreateConnection(g, fromId, fromPortId, toId, toPortId, stamp);
      && r.made.Some?
      && GetConnectionToInput(r.graph, toId, toPortId) == r.made
  {
    AdmissibleAttaches(g, fromId, fromPortId, toId, toPortId, stamp);
    AttachReplaces(g, fromId, SourcePort(g, fromId, fromPortId, toId, toPortId),
                   toId, TargetPort(g, fromId, fromPortId, toId, toPortId), stamp);
  }

  // ---------------------------------------------------------------------
  // The invariant
  // ---------------------------------------------------------------------

  lemma EmptyValid()
    ensures Valid(Empty)
  {
  }

  lemma EdgesFitMoved(nodes: seq<Node>, nodes': seq<Node>, cs: seq<Connection>)
    requires EdgesFit(nodes, cs)
    requires forall i :: 0 <= i < |cs| ==>
      FindNode(nodes', cs[i].fromNode) == FindNode(nodes, cs[i].fromNode)
      && FindNode(nodes', cs[i].toNode) == FindNode(nodes, cs[i].toNode)
    ensures EdgesFit(nodes', cs)
  {
    forall i | 0 <= i < |cs| ensures EdgeFits(nodes', cs[i]) {
      assert EdgeFits(nodes, cs[i]);
    }
  }

  lemma EdgesFitSubset(nodes: seq<Node>, cs: seq<Connection>, cs': seq<Connection>)
    requires EdgesFit(nodes, cs)
    requires forall c :: c in cs' ==> c in cs
    ensures EdgesFit(nodes, cs')
  {
    forall i | 0 <= i < |cs'| ensures EdgeFits(nodes, cs'[i]) {
      assert cs'[i] in cs;
    }
  }

  lemma CreateNodeKeepsValid(g: Graph, t: string, x: int, y: int)
    requires Valid(g)
    ensures Valid(CreateNode(g, t, x, y).0)
  {
    var (g', n) := CreateNode(g, t, x, y);
    Seqs.AppendPairwise(g.nodes, n, DistinctIds);
    forall id | FindNode(g.nodes, id).Some?
      ensures FindNode(g'.nodes, id) == FindNode(g.nodes, id)
    {
      FindNodeAppend(g.nodes, n, id);
    }
    EdgesFitMoved(g.nodes, g'.nodes, g.connections);
  }

  lemma RemoveNodeKeepsValid(g: Graph, id: int)
    requires Valid(g)
    ensures Valid(RemoveNode(g, id))
  {
    RemoveNodeKeepsIds(g, id);
    RemoveNodeKeepsInputs(g, id);
    RemoveNodeKeepsEdges(g, id);
  }

  lemma RemoveNodeKeepsIds(g: Graph, id: int)
    requires UniqueIds(g.nodes) && IdsBelow(g.nodes, g.nextNodeId)
    ensures UniqueIds(RemoveNode(g, id).nodes) && IdsBelow(RemoveNode(g, id).nodes, g.nextNodeId)
  {
    var nodes' := RemoveNode(g, id).nodes;
    Seqs.FilterPairwise(g.nodes, (n: Node) => n.id != id, DistinctIds);
    assert forall i :: 0 <= i < |nodes'| ==> nodes'[i] in g.nodes;
  }

  lemma RemoveNodeKeepsInputs(g: Graph, id: int)
    requires SingleIncoming(g.connections)
    ensures SingleIncoming(RemoveNode(g, id).connections)
  {
    Seqs.FilterPairwise(g.connections, (c: Connection) => c.fromNode != id && c.toNode != id, DistinctInputs);
  }

  lemma RemoveNodeKeepsEdges(g: Graph, id: int)
    requires EdgesFit(g.nodes, g.connections)
    ensures EdgesFit(RemoveNode(g, id).nodes, RemoveNode(g, id).connections)
  {
    var g' := RemoveNode(g, id);
    EdgesFitSubset(g.nodes, g.connections, g'.connections);
    forall i | 0 <= i < |g'.connections|
      ensures FindNode(g'.nodes, g'.connections[i].fromNode) == FindNode(g.nodes, g'.connections[i].fromNode)
      ensures FindNode(g'.nodes, g'.connections[i].toNode) == FindNode(g.nodes, g'.connections[i].toNode)
    {
      assert g'.connections[i] in g'.connections;
      FindNodeWithout(g.nodes, id, g'.connections[i].fromNode);
      FindNodeWithout(g.nodes, id, g'.connections[i].toNode);
    }
    EdgesFitMoved(g.nodes, g'.nodes, g'.connections);
  }

  lemma RemoveConnectionKeepsValid(g: Graph, id: string)
    requires Valid(g)
    ensures Valid(RemoveConnection(g, id))
  {
    var g' := RemoveConnection(g, id);
    Seqs.FilterPairwise(g.connections, (c: Connection) => c.id != id, DistinctInputs);
    EdgesFitSubset(g.nodes, g.connections, g'.connections);
  }

  lemma NewEdgeFits(nodes: seq<Node>, c: Connection, p: Port, q: Port)
    requires FindNode(nodes, c.fromNode).Some? && FindPort(FindNode(nodes, c.fromNode).value.outputs, p.id) == Some(p)
    requires FindNode(nodes, c.toNode).Some? && FindPort(FindNode(nodes, c.toNode).value.inputs, q.id) == Some(q)
    requires Compatible(p, q) && c.fromNode != c.toNode
    requires c.fromPort == p.id && c.fromPortType == p.portType
    requires c.toPort == q.id && c.toPortType == q.portType
    ensures EdgeFits(nodes, c)
  {
  }

  lemma AppendKeepsInputs(kept: seq<Connection>, c: Connection)
    requires SingleIncoming(kept)
    requires forall x :: x in kept ==> !Into(x, c.toNode, c.toPort)
    ensures SingleIncoming(kept + [c])
  {
    assert forall k :: 0 <= k < |kept| ==> kept[k] in kept;
    Seqs.AppendPairwise(kept, c, DistinctInputs);
  }

  lemma AppendKeepsEdges(nodes: seq<Node>, cs: seq<Connection>, kept: seq<Connection>, c: Connection)
    requires EdgesFit(nodes, cs) && (forall x :: x in kept ==> x in cs)
    requires EdgeFits(nodes, c)
    ensures EdgesFit(nodes, kept + [c])
  {
    EdgesFitSubset(nodes, cs, kept);
    var cs' := kept + [c];
    forall i | 0 <= i < |cs'| ensures EdgeFits(nodes, cs'[i]) {
      if i < |kept| {
        assert cs'[i] == kept[i];
      }
    }
  }

  lemma AttachKeepsValid(g: Graph, fromId: int, p: Port, toId: int, q: Port, stamp: nat)
    requires Valid(g)
    requires FindNode(g.nodes, fromId).Some? && FindPort(FindNode(g.nodes, fromId).value.outputs, p.id) == Some(p)
    requires FindNode(g.nodes, toId).Some? && FindPort(FindNode(g.nodes, toId).value.inputs, q.id) == Some(q)
    requires Compatible(p, q) && fromId != toId
    ensures Valid(Attach(g, fromId, p, toId, q, stamp).graph)
  {
    AttachReplaces(g, fromId, p, toId, q, stamp);
    ClearedClears(g, toId, q.id);
    var r := Attach(g, fromId, p, toId, q, stamp);
    var kept := ClearInput(g, toId, q.id).connections;
    var c := r.made.value;
    assert c == Connection(ConnectionId(fromId, p.id, toId, q.id, stamp), fromId, p.id, p.portType, toId, q.id, q.portType);
    NewEdgeFits(g.nodes, c, p, q);
    AppendKeepsInputs(kept, c);
    AppendKeepsEdges(g.nodes, g.connections, kept, c);
  }

  lemma CreateConnectionKeepsValid(g: Graph, fromId: int, fromPortId: string, toId: int, toPortId: string, stamp: nat)
    requires Valid(g)
    ensures Valid(CreateConnection(g, fromId, fromPortId, toId, toPortId, stamp).graph)
  {
    if Admissible(g, fromId, fromPortId, toId, toPortId) {
      AdmissibleAttaches(g, fromId, fromPortId, toId, toPortId, stamp);
      AttachKeepsValid(g, fromId, SourcePort(g, fromId, fromPortId, toId, toPortId),
                       toId, TargetPort(g, fromId, fromPortId, toId, toPortId), stamp);
    } else {
      RefusalChangesNothing(g, fromId, fromPortId, toId, toPortId, stamp);
    }
  }

  // ---------------------------------------------------------------------
  // New nodes, saving and loading
  // ---------------------------------------------------------------------

  /** A new `number` or `string` node keeps in its `value` property the
      default of its `value` input. */
  lemma NewLiteralMirrorsInput(g: Graph, k: ND.NodeKind, x: int, y: int)
    requires k == ND.Number || k == ND.String
    ensures var n := CreateNode(g, ND.Tag(k), x, y).1;
      && "value" in n.properties
      && FindPort(n.inputs, "value").Some?
      && FindPort(n.inputs, "value").value.default == Some(n.properties["value"])
  {
    ND.KindOfTag(k);
    ND.ConfigOfTag(k);
    assert PropertyMirrorsDefault(ND.Config(k), "value");
  }

  /** Saving then loading gives the graph back exactly when its next id is
      not 0; nothing is migrated or checked on the way. */
  lemma RoundTrip(g: Graph)
    ensures FromJSON(ToJSON(g)) == g <==> g.nextNodeId != 0
  {
  }
}
