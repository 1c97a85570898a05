/** What the editing operations of the newer graph promise. */
module AbstractSyntaxTreeLemmas {
  import opened Wrappers
  import opened Schema
  import Seqs
  import LD = LanguageDefinition
  import opened AbstractSyntaxTree

  // ---------------------------------------------------------------------
  // createConnection
  // ---------------------------------------------------------------------

  /** A request that fails one of the five checks changes nothing. */
  lemma RefusalChangesNothing(g: Graph, fromId: int, fromPortId: string, toId: int, toPortId: string, stamp: nat)
    requires !Admissible(g, fromId, fromPortId, toId, toPortId)
    ensures CreateConnection(g, fromId, fromPortId, toId, toPortId, stamp) == Outcome(g, None)
  {
  }

  /** A connection is only made for an admissible request, joins exactly the
      requested ports, and is the last connection of the graph afterwards. */
  lemma MadeAsRequested(g: Graph, fromId: int, fromPortId: string, toId: int, toPortId: string, stamp: nat)
    requires CreateConnection(g, fromId, fromPortId, toId, toPortId, stamp).made.Some?
    ensures Admissible(g, fromId, fromPortId, toId, toPortId)
    ensures var r := CreateConnection(g, fromId, fromPortId, toId, toPortId, stamp);
      && r.made.value.fromNode == fromId && r.made.value.fromPort == fromPortId
      && r.made.value.toNode == toId && r.made.value.toPort == toPortId
      && r.made.value.id == ConnectionId(fromId, fromPortId, toId, toPortId, stamp)
      && |r.graph.connections| > 0 && r.graph.connections[|r.graph.connections| - 1] == r.made.value
  {
  }

  /** The output and the input an admissible request names. */
  function SourcePort(g: Graph, fromId: int, fromPortId: string, toId: int, toPortId: string): Port
    requires Admissible(g, fromId, fromPortId, toId, toPortId)
  {
    FindPort(FindNode(g.nodes, fromId).value.outputs, fromPortId).value
  }

  function TargetPort(g: Graph, fromId: int, fromPortId: string, toId: int, toPortId: string): Port
    requires Admissible(g, fromId, fromPortId, toId, toPortId)
  {
    FindPort(FindNode(g.nodes, toId).value.inputs, toPortId).value
  }

  lemma AdmissibleAttaches(g: Graph, fromId: int, fromPortId: string, toId: int, toPortId: string, stamp: nat)
    requires Admissible(g, fromId, fromPortId, toId, toPortId)
    ensures CreateConnection(g, fromId, fromPortId, toId, toPortId, stamp)
         == Attach(g, fromId, SourcePort(g, fromId, fromPortId, toId, toPortId),
                   toId, TargetPort(g, fromId, fromPortId, toId, toPortId), stamp)
  {
  }

  /** With at most one connection per input, dropping the first connection
      into an input leaves none, and keeps every other connection. */
  lemma SpliceClears(cs: seq<Connection>, toId: int, toPortId: string)
    requires SingleIncoming(cs)
    ensures SingleIncoming(Splice(cs, toId, toPortId))
    ensures forall c :: c in Splice(cs, toId, toPortId) <==> c in cs && !Into(c, toId, toPortId)
  {
    var r := Splice(cs, toId, toPortId);
    match Seqs.FindIndex(cs, (c: Connection) => Into(c, toId, toPortId))
    case None =>
    case Some(i) =>
      Seqs.RemoveAtPairwise(cs, i, DistinctInputs);
      forall j | 0 <= j < |cs| && j != i ensures !Into(cs[j], toId, toPortId) {
        if j < i {
          assert DistinctInputs(cs[j], cs[i]);
        } else {
          assert DistinctInputs(cs[i], cs[j]);
        }
      }
      forall c | c in cs && !Into(c, toId, toPortId) ensures c in r {
        var j :| 0 <= j < |cs| && cs[j] == c;
        if j < i {
          assert r[j] == c;
        } else {
          assert r[j - 1] == c;
        }
      }
      forall c | c in r ensures !Into(c, toId, toPortId) {
        var j :| 0 <= j < |r| && r[j] == c;
        assert c == if j < i then cs[j] else cs[j + 1];
      }
  }

  /** Attaching under the invariant: nothing can be a duplicate any more, so
      the connection is made, replaces whatever fed that input before and
      keeps every other connection. */
  lemma AttachReplaces(g: Graph, fromId: int, p: Port, toId: int, q: Port, stamp: nat)
    requires SingleIncoming(g.connections)
    ensures var r := Attach(g, fromId, p, toId, q, stamp);
      && r.made.Some? && Into(r.made.value, toId, q.id)
      && r.graph.connections == Splice(g.connections, toId, q.id) + [r.made.value]
      && (forall c :: c in r.graph.connections <==> c == r.made.value || (c in g.connections && !Into(c, toId, q.id)))
      && GetConnectionToInput(r.graph, toId, q.id) == r.made
  {
    SpliceClears(g.connections, toId, q.id);
    var kept := Splice(g.connections, toId, q.id);
    assert forall k :: 0 <= k < |kept| ==> kept[k] in kept;
    var r := Attach(g, fromId, p, toId, q, stamp);
    var f := GetConnectionToInput(r.graph, toId, q.id);
    assert r.graph.connections[|kept|] == r.made.value;
    assert f.Some?;
  }

  /** A connection recording a checked pair of ports fits. */
  lemma NewEdgeFits(nodes: seq<Node>, c: Connection, p: Port, q: Port)
    requires FindNode(nodes, c.fromNode).Some? && FindPort(FindNode(nodes, c.fromNode).value.outputs, p.id) == Some(p)
    requires FindNode(nodes, c.toNode).Some? && FindPort(FindNode(nodes, c.toNode).value.inputs, q.id) == Some(q)
    requires Compatible(p, q) && !(c.fromNode == c.toNode && p.portType == Exec)
    requires c.fromPort == p.id && c.fromPortType == p.portType && c.fromDataType == p.dataType
    requires c.toPort == q.id && c.toPortType == q.portType && c.toDataType == q.dataType
    ensures EdgeFits(nodes, c)
  {
  }

  /** Attaching ports that passed the checks keeps the invariant. */
  lemma AttachKeepsValid(g: Graph, fromId: int, p: Port, toId: int, q: Port, stamp: nat)
    requires Valid(g)
    requires FindNode(g.nodes, fromId).Some? && FindPort(FindNode(g.nodes, fromId).value.outputs, p.id) == Some(p)
    requires FindNode(g.nodes, toId).Some? && FindPort(FindNode(g.nodes, toId).value.inputs, q.id) == Some(q)
    requires Compatible(p, q) && !(fromId == toId && p.portType == Exec)
    ensures Valid(Attach(g, fromId, p, toId, q, stamp).graph)
  {
    AttachReplaces(g, fromId, p, toId, q, stamp);
    SpliceClears(g.connections, toId, q.id);
    var r := Attach(g, fromId, p, toId, q, stamp);
    var kept := Splice(g.connections, toId, q.id);
    var c := r.made.value;
    assert c == Connection(ConnectionId(fromId, p.id, toId, q.id, stamp),
                           fromId, p.id, p.portType, p.dataType, toId, q.id, q.portType, q.dataType);
    NewEdgeFits(g.nodes, c, p, q);
    AppendKeepsInputs(kept, c);
    AppendKeepsEdges(g.nodes, g.connections, kept, c);
  }

  lemma AppendKeepsInputs(kept: seq<Connection>, c: Connection)
    requires SingleIncoming(kept)
    requires forall x :: x in kept ==> !Into(x, c.toNode, c.toPort)
    ensures SingleIncoming(kept + [c])
  {
    assert forall k :: 0 <= k < |kept| ==> kept[k] in kept;
    Seqs.AppendPairwise(kept, c, DistinctInputs);
  }

  lemma AppendKeepsEdges(nodes: seq<Node>, cs: seq<Connection>, kept: seq<Connection>, c: Connection)
    requires EdgesFit(nodes, cs) && (forall x :: x in kept ==> x in cs)
    requires EdgeFits(nodes, c)
    ensures EdgesFit(nodes, kept + [c])
  {
    EdgesFitSubset(nodes, cs, kept);
    var cs' := kept + [c];
    forall i | 0 <= i < |cs'| ensures EdgeFits(nodes, cs'[i]) {
      if i < |kept| {
        assert cs'[i] == kept[i];
      }
    }
  }

  /** Under the invariant an admissible request is never refused: the new
      connection replaces whatever fed that input before, every other
      connection stays, and the input is now fed by it. */
  lemma AdmissibleIsMade(g: Graph, fromId: int, fromPortId: string, toId: int, toPortId: string, stamp: nat)
    requires Valid(g) && Admissible(g, fromId, fromPortId, toId, toPortId)
    ensures var r := CreateConnection(g, fromId, fromPortId, toId, toPortId, stamp);
      && r.made.Some?
      && (forall c :: c in r.graph.connections <==> c == r.made.value || (c in g.connections && !Into(c, toId, toPortId)))
      && GetConnectionToInput(r.graph, toId, toPortId) == r.made
  {
    AdmissibleAttaches(g, fromId, fromPortId, toId, toPortId, stamp);
    AttachReplaces(g, fromId, SourcePort(g, fromId, fromPortId, toId, toPortId),
                   toId, TargetPort(g, fromId, fromPortId, toId, toPortId), stamp);
  }

  /** `createConnection` keeps the invariant, whether it refuses or not. */
  lemma CreateConnectionKeepsValid(g: Graph, fromId: int, fromPortId: string, toId: int, toPortId: string, stamp: nat)
    requires Valid(g)
    ensures Valid(CreateConnection(g, fromId, fromPortId, toId, toPortId, stamp).graph)
  {
    if Admissible(g, fromId, fromPortId, toId, toPortId) {
      AdmissibleAttaches(g, fromId, fromPortId, toId, toPortId, stamp);
      AttachKeepsValid(g, fromId, SourcePort(g, fromId, fromPortId, toId, toPortId),
                       toId, TargetPort(g, fromId, fromPortId, toId, toPortId), stamp);
    } else {
      RefusalChangesNothing(g, fromId, fromPortId, toId, toPortId, stamp);
    }
  }

  // ---------------------------------------------------------------------
  // The invariant
  // ---------------------------------------------------------------------

  lemma EmptyValid()
    ensures Valid(Empty)
  {
  }

  /** Edges keep fitting when every endpoint they name is looked up to the same node. */
  lemma EdgesFitMoved(nodes: seq<Node>, nodes': seq<Node>, cs: seq<Connection>)
    requires EdgesFit(nodes, cs)
    requires forall i :: 0 <= i < |cs| ==>
      FindNode(nodes', cs[i].fromNode) == FindNode(nodes, cs[i].fromNode)
      && FindNode(nodes', cs[i].toNode) == FindNode(nodes, cs[i].toNode)
    ensures EdgesFit(nodes', cs)
  {
    forall i | 0 <= i < |cs| ensures EdgeFits(nodes', cs[i]) {
      assert EdgeFits(nodes, cs[i]);
    }
  }

  /** Edges taken from a list of fitting edges fit. */
  lemma EdgesFitSubset(nodes: seq<Node>, cs: seq<Connection>, cs': seq<Connection>)
    requires EdgesFit(nodes, cs)
    requires forall c :: c in cs' ==> c in cs
    ensures EdgesFit(nodes, cs')
  {
    forall i | 0 <= i < |cs'| ensures EdgeFits(nodes, cs'[i]) {
      assert cs'[i] in cs;
    }
  }

  /** A node always takes an id nobody holds, and edges keep their endpoints. */
  lemma CreateNodeKeepsValid(g: Graph, t: string, x: int, y: int)
    requires Valid(g)
    ensures Valid(CreateNode(g, t, x, y).0)
  {
    var (g', n) := CreateNode(g, t, x, y);
    Seqs.AppendPairwise(g.nodes, n, DistinctIds);
    forall id | FindNode(g.nodes, id).Some?
      ensures FindNode(g'.nodes, id) == FindNode(g.nodes, id)
    {
      FindNodeAppend(g.nodes, n, id);
    }
    EdgesFitMoved(g.nodes, g'.nodes, g.connections);
  }

  /** Removing a node takes its connections along, so no edge is left dangling. */
  lemma RemoveNodeKeepsValid(g: Graph, id: int)
    requires Valid(g)
    ensures Valid(RemoveNode(g, id))
  {
    RemoveNodeKeepsIds(g, id);
    RemoveNodeKeepsInputs(g, id);
    RemoveNodeKeepsEdges(g, id);
  }

  lemma RemoveNodeKeepsIds(g: Graph, id: int)
    requires UniqueIds(g.nodes) && IdsBelow(g.nodes, g.nextNodeId)
    ensures UniqueIds(RemoveNode(g, id).nodes) && IdsBelow(RemoveNode(g, id).nodes, g.nextNodeId)
  {
    var nodes' := RemoveNode(g, id).nodes;
    Seqs.FilterPairwise(g.nodes, (n: Node) => n.id != id, DistinctIds);
    assert forall i :: 0 <= i < |nodes'| ==> nodes'[i] in g.nodes;
  }

  lemma RemoveNodeKeepsInputs(g: Graph, id: int)
    requires SingleIncoming(g.connections)
    ensures SingleIncoming(RemoveNode(g, id).connections)
  {
    Seqs.FilterPairwise(g.connections, (c: Connection) => c.fromNode != id && c.toNode != id, DistinctInputs);
  }

  lemma RemoveNodeKeepsEdges(g: Graph, id: int)
    requires EdgesFit(g.nodes, g.connections)
    ensures EdgesFit(RemoveNode(g, id).nodes, RemoveNode(g, id).connections)
  {
    var g' := RemoveNode(g, id);
    EdgesFitSubset(g.nodes, g.connections, g'.connections);
    forall i | 0 <= i < |g'.connections|
      ensures FindNode(g'.nodes, g'.connections[i].fromNode) == FindNode(g.nodes, g'.connections[i].fromNode)
      ensures FindNode(g'.nodes, g'.connections[i].toNode) == FindNode(g.nodes, g'.connections[i].toNode)
    {
      assert g'.connections[i] in g'.connections;
      FindNodeWithout(g.nodes, id, g'.connections[i].fromNode);
      FindNodeWithout(g.nodes, id, g'.connections[i].toNode);
    }
    EdgesFitMoved(g.nodes, g'.nodes, g'.connections);
  }

  lemma RemoveConnectionKeepsValid(g: Graph, id: string)
    requires Valid(g)
    ensures Valid(RemoveConnection(g, id))
  {
    var g' := RemoveConnection(g, id);
    Seqs.FilterPairwise(g.connections, (c: Connection) => c.id != id, DistinctInputs);
    EdgesFitSubset(g.nodes, g.connections, g'.connections);
  }

  // ---------------------------------------------------------------------
  // New nodes
  // ---------------------------------------------------------------------

  /** The bounds the random block's blueprint names. */
  lemma RandomBoundsListed()
    ensures PropertyMirrorsDefault(LD.Config(LD.RandomNumber), "min")
    ensures PropertyMirrorsDefault(LD.Config(LD.RandomNumber), "max")
  {
  }

  lemma SeedWithBounds(bp: Blueprint)
    requires "min" in PropertiesOf(bp) && "max" in PropertiesOf(bp)
    ensures SeedProperties(Some(LD.RandomNumber), bp) == PropertiesOf(bp)
  {
  }

  /** Every type the registry lists already carries the properties
      `createNode` seeds, so a new node's properties are exactly its
      blueprint's. */
  lemma SeedKeepsBlueprint(t: string)
    ensures SeedProperties(LD.KindOf(t), LD.ConfigByType(t)) == PropertiesOf(LD.ConfigByType(t))
  {
    if LD.KindOf(t) == Some(LD.RandomNumber) {
      RandomBoundsListed();
      SeedWithBounds(LD.Config(LD.RandomNumber));
    }
  }

  /** The property `key` of `n` repeats the default of its input `key`. */
  predicate MirrorsInput(n: Node, key: string) {
    && key in n.properties
    && FindPort(n.inputs, key).Some?
    && FindPort(n.inputs, key).value.default == Some(n.properties[key])
  }

  /** A new `number` or `string` node keeps in its `value` property the
      default of its `value` input. */
  lemma NewLiteralMirrorsInput(g: Graph, k: LD.NodeKind, x: int, y: int)
    requires k == LD.Number || k == LD.String
    ensures MirrorsInput(CreateNode(g, LD.Tag(k), x, y).1, "value")
  {
    LD.KindOfTag(k);
    SeedKeepsBlueprint(LD.Tag(k));
  }

  /** A new random block starts with the bounds of its `min` and `max` inputs. */
  lemma NewRandomMirrorsBounds(g: Graph, x: int, y: int)
    ensures MirrorsInput(CreateNode(g, LD.Tag(LD.RandomNumber), x, y).1, "min")
    ensures MirrorsInput(CreateNode(g, LD.Tag(LD.RandomNumber), x, y).1, "max")
  {
    LD.KindOfTag(LD.RandomNumber);
    SeedKeepsBlueprint(LD.Tag(LD.RandomNumber));
    RandomBoundsListed();
  }

  // ---------------------------------------------------------------------
  // Saving and loading
  // ---------------------------------------------------------------------

  /** `p` is the blueprint input `base`, with perhaps a default of its own. */
  predicate InstanceOf(p: Port, base: Port) {
    p.(default := base.default) == base && (p.default.Some? || base.default.None?)
  }

  /** A node conforms to its type when it has exactly the blueprint's ports,
      in order (inputs may carry defaults of their own), and at least the
      blueprint's properties. */
  predicate Conforms(n: Node) {
    var bp := LD.ConfigByType(n.nodeType);
    && n.outputs == OutputsOf(bp)
    && |n.inputs| == |InputsOf(bp)|
    && (forall i :: 0 <= i < |n.inputs| ==> InstanceOf(n.inputs[i], InputsOf(bp)[i]))
    && PropertiesOf(bp).Keys <= n.properties.Keys
  }

  /** Loading always yields conforming nodes. */
  lemma MigrateConforms(s: SavedNode)
    ensures Conforms(Migrate(s))
  {
  }

  lemma NewNodeConforms(g: Graph, t: string, x: int, y: int)
    ensures Conforms(CreateNode(g, t, x, y).1)
  {
    var bp := LD.ConfigByType(t);
    var n := CreateNode(g, t, x, y).1;
    assert forall i :: 0 <= i < |n.inputs| ==> n.inputs[i] == InputsOf(bp)[i];
  }

  /** Saving and migrating a node gives it back exactly when it conforms. */
  lemma MigrateSavedIffConforms(n: Node)
    ensures Migrate(Save(n)) == n <==> Conforms(n)
  {
    if Conforms(n) {
      ConformingSurvivesMigration(n);
    }
    if Migrate(Save(n)) == n {
      MigrateConforms(Save(n));
    }
  }

  lemma ConformingSurvivesMigration(n: Node)
    requires Conforms(n)
    ensures Migrate(Save(n)) == n
  {
    var bp := LD.ConfigByType(n.nodeType);
    LD.ConfigWellFormed(n.nodeType);
    MergeKeepsInstances(n.inputs, InputsOf(bp));
    OverlayKeepsOwn(PropertiesOf(bp), n.properties);
  }

  /** Merging saved defaults that already are instances of the blueprint
      inputs gives them back. */
  lemma MergeKeepsInstances(inputs: seq<Port>, base: seq<Port>)
    requires |inputs| == |base| && UniquePortIds(base)
    requires forall i :: 0 <= i < |inputs| ==> InstanceOf(inputs[i], base[i])
    ensures forall i :: 0 <= i < |base| ==> MergeDefault(inputs, base[i]) == inputs[i]
  {
    forall i | 0 <= i < |base| ensures MergeDefault(inputs, base[i]) == inputs[i] {
      FindPortAtSameIds(inputs, base, i);
    }
  }

  /** Laying properties over the blueprint's adds nothing when they already
      have every key. */
  lemma OverlayKeepsOwn(base: Props, own: Props)
    requires base.Keys <= own.Keys
    ensures base + own == own
  {
  }

  /** In a list with the blueprint's port ids, in order, the port found under
      the `i`th blueprint id is the `i`th. */
  lemma FindPortAtSameIds(ports: seq<Port>, base: seq<Port>, i: nat)
    requires |ports| == |base| && i < |base| && UniquePortIds(base)
    requires forall j :: 0 <= j < |ports| ==> ports[j].id == base[j].id
    ensures FindPort(ports, base[i].id) == Some(ports[i])
  {
    FindPortUnique(ports, i);
  }

  /** Loading a node that was loaded before changes nothing more. */
  lemma MigrateIdempotent(s: SavedNode)
    ensures Migrate(Save(Migrate(s))) == Migrate(s)
  {
    MigrateConforms(s);
    MigrateSavedIffConforms(Migrate(s));
  }

  /** What the editor saves can be loaded back unchanged: its next id is not 0
      and every node conforms. */
  predicate Saveable(g: Graph) {
    g.nextNodeId >= 1 && forall i :: 0 <= i < |g.nodes| ==> Conforms(g.nodes[i])
  }

  /** Saving then loading gives the graph back exactly when no node needs
      migrating and the next id is not the 0 that loading recomputes. */
  lemma RoundTrip(g: Graph)
    ensures FromJSON(ToJSON(g)) == g <==> g.nextNodeId != 0 && forall i :: 0 <= i < |g.nodes| ==> Conforms(g.nodes[i])
  {
    var h := FromJSON(ToJSON(g));
    forall i | 0 <= i < |g.nodes| ensures h.nodes[i] == Migrate(Save(g.nodes[i])) {
    }
    forall i | 0 <= i < |g.nodes| ensures h.nodes[i] == g.nodes[i] <==> Conforms(g.nodes[i]) {
      MigrateSavedIffConforms(g.nodes[i]);
    }
    if g.nextNodeId == 0 {
      assert h.nextNodeId >= 1;
    }
  }

  lemma EmptySaveable()
    ensures Saveable(Empty)
  {
  }

  lemma CreateNodeKeepsSaveable(g: Graph, t: string, x: int, y: int)
    requires Saveable(g)
    ensures Saveable(CreateNode(g, t, x, y).0)
  {
    NewNodeConforms(g, t, x, y);
    var g' := CreateNode(g, t, x, y).0;
    assert forall i :: 0 <= i < |g.nodes| ==> g'.nodes[i] == g.nodes[i];
  }

  lemma RemoveNodeKeepsSaveable(g: Graph, id: int)
    requires Saveable(g)
    ensures Saveable(RemoveNode(g, id))
  {
    var g' := RemoveNode(g, id);
    assert forall i :: 0 <= i < |g'.nodes| ==> g'.nodes[i] in g.nodes;
  }

  /** Loading recomputes a missing or zero next id above every loaded id. */
  lemma LoadedIdsBelow(d: Document)
    requires d.Document? && (d.nextNodeId.None? || d.nextNodeId == Some(0))
    ensures IdsBelow(FromJSON(d).nodes, FromJSON(d).nextNodeId)
  {
  }
}
