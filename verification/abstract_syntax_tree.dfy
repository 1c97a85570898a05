/** The graph the newer editor edits: nodes built from the registry of
    `LanguageDefinition`, and connections from an output port to an input
    port. Every operation is a function from the old graph to the new one. */
module AbstractSyntaxTree {
  import opened Wrappers
  import opened Schema
  import Seqs
  import Text
  import LD = LanguageDefinition

  /** A connection record; it copies the kinds and data types of both ports
      at the time it is made. */
  datatype Connection = Connection(
    id: string,
    fromNode: int, fromPort: string, fromPortType: PortKind, fromDataType: DataType,
    toNode: int, toPort: string, toPortType: PortKind, toDataType: DataType)

  datatype Graph = Graph(nodes: seq<Node>, connections: seq<Connection>, nextNodeId: int)

  /** The graph of a fresh editor. */
  const Empty := Graph([], [], 1)

  /** The result of `createConnection`: the graph afterwards, and the
      connection made (`null` when the request is refused). */
  datatype Outcome = Outcome(graph: Graph, made: Option<Connection>)

  // ---------------------------------------------------------------------
  // Nodes
  // ---------------------------------------------------------------------

  /** The properties of a new node: the blueprint's, where the random block
      falls back to bounds 1 and 100 if its blueprint names none. `k` is the
      registered kind of the node's type, if any: the type is `'number'`
      exactly when `k` is `Some(Number)`, and so on. */
  function SeedProperties(k: Option<LD.NodeKind>, bp: Blueprint): Props {
    var props := PropertiesOf(bp);
    if (k == Some(LD.Number) || k == Some(LD.String)) && bp.properties.Some? && "value" in props then
      props["value" := props["value"]]
    else if k == Some(LD.RandomNumber) && bp.properties.Some? then
      props["min" := if "min" in props then props["min"] else VNum(1)]
           ["max" := if "max" in props then props["max"] else VNum(100)]
    else
      props
  }

  function NewNode(id: int, t: string, x: int, y: int): Node {
    var bp := LD.ConfigByType(t);
    Node(id, t, x, y, InputsOf(bp), OutputsOf(bp), SeedProperties(LD.KindOf(t), bp))
  }

  /** `createNode(type, x, y)`: the node gets the next id and copies of its
      blueprint's ports and properties, and is appended. */
  function CreateNode(g: Graph, t: string, x: int, y: int): (r: (Graph, Node))
    ensures r.1.id == g.nextNodeId && r.1.nodeType == t
    ensures r.0.nodes == g.nodes + [r.1] && r.0.connections == g.connections
    ensures r.0.nextNodeId == g.nextNodeId + 1
  {
    var n := NewNode(g.nextNodeId, t, x, y);
    (g.(nodes := g.nodes + [n], nextNodeId := g.nextNodeId + 1), n)
  }

  /** `getNodeById(id)` */
  function GetNodeById(g: Graph, id: int): (r: Option<Node>)
    ensures r.Some? ==> r.value in g.nodes && r.value.id == id
    ensures r.None? <==> forall i :: 0 <= i < |g.nodes| ==> g.nodes[i].id != id
  {
    FindNode(g.nodes, id)
  }

  // ---------------------------------------------------------------------
  // Connections
  // ---------------------------------------------------------------------

  /** `c` ends at input `port` of node `node`. */
  predicate Into(c: Connection, node: int, port: string) {
    c.toNode == node && c.toPort == port
  }

  /** What `createConnection` demands of a request: both nodes exist, the
      output and the input exist on them, the ports are compatible, and an
      exec edge does not lead from a node back to itself. */
  predicate Admissible(g: Graph, fromId: int, fromPortId: string, toId: int, toPortId: string) {
    && FindNode(g.nodes, fromId).Some? && FindNode(g.nodes, toId).Some?
    && FindPort(FindNode(g.nodes, fromId).value.outputs, fromPortId).Some?
    && FindPort(FindNode(g.nodes, toId).value.inputs, toPortId).Some?
    && var p := FindPort(FindNode(g.nodes, fromId).value.outputs, fromPortId).value;
       var q := FindPort(FindNode(g.nodes, toId).value.inputs, toPortId).value;
       && Compatible(p, q)
       && !(fromId == toId && p.portType == Exec)
  }

  /** The id text of a connection; `stamp` stands for `Date.now()`. */
  function ConnectionId(fromId: int, fromPortId: string, toId: int, toPortId: string, stamp: nat): string {
    "conn_" + Text.IntToString(fromId) + "_" + fromPortId + "_" + Text.IntToString(toId) + "_" + toPortId
      + "_" + Text.IntToString(stamp)
  }

  /** The connections without the first one into the given input. */
  function Splice(cs: seq<Connection>, toId: int, toPortId: string): (r: seq<Connection>)
    ensures forall c :: c in r ==> c in cs
  {
    match Seqs.FindIndex(cs, (c: Connection) => Into(c, toId, toPortId))
    case Some(i) => Seqs.RemoveAt(cs, i)
    case None => cs
  }

  /** The second half of `createConnection`, once the ports have passed the
      checks: an earlier connection into the input is dropped, an identical
      connection still present refuses the request, and otherwise the new
      connection is appended. */
  function Attach(g: Graph, fromId: int, p: Port, toId: int, q: Port, stamp: nat): Outcome {
    var kept := Splice(g.connections, toId, q.id);
    var duplicate := Seqs.FindIndex(kept, (c: Connection) =>
      c.fromNode == fromId && c.fromPort == p.id && c.toNode == toId && c.toPort == q.id);
    if duplicate.Some? then Outcome(g.(connections := kept), None)
    else
      var c := Connection(ConnectionId(fromId, p.id, toId, q.id, stamp),
                          fromId, p.id, p.portType, p.dataType, toId, q.id, q.portType, q.dataType);
      Outcome(g.(connections := kept + [c]), Some(c))
  }

  /** `createConnection(fromNodeId, fromPortId, toNodeId, toPortId)`. The
      checks run in the source's order; a refusal leaves the graph alone,
      except the duplicate check, which runs after an earlier connection into
      the same input has already been dropped. */
  function CreateConnection(g: Graph, fromId: int, fromPortId: string, toId: int, toPortId: string, stamp: nat): (r: Outcome)
    ensures r.graph.nodes == g.nodes && r.graph.nextNodeId == g.nextNodeId
  {
    match (FindNode(g.nodes, fromId), FindNode(g.nodes, toId))
    case (Some(a), Some(b)) =>
      (match (FindPort(a.outputs, fromPortId), FindPort(b.inputs, toPortId))
       case (Some(p), Some(q)) =>
         if fromId == toId && p.portType == Exec && q.portType == Exec then Outcome(g, None)
         else if p.portType != q.portType then Outcome(g, None)
         else if p.portType == Data && p.dataType != DAny && q.dataType != DAny && p.dataType != q.dataType then
           Outcome(g, None)
         else Attach(g, fromId, p, toId, q, stamp)
       case _ => Outcome(g, None))
    case _ => Outcome(g, None)
  }

  /** `removeNode(id)`: the node goes, with every connection touching it. */
  function RemoveNode(g: Graph, id: int): (r: Graph)
    ensures forall c :: c in r.connections <==> c in g.connections && c.fromNode != id && c.toNode != id
    ensures forall n :: n in r.nodes <==> n in g.nodes && n.id != id
    ensures Seqs.Subsequence(r.nodes, g.nodes) && Seqs.Subsequence(r.connections, g.connections)
    ensures forall n :: Seqs.Count(r.nodes, n) == if n.id != id then Seqs.Count(g.nodes, n) else 0
    ensures forall c :: Seqs.Count(r.connections, c) == if c.fromNode != id && c.toNode != id then Seqs.Count(g.connections, c) else 0
    ensures r.nextNodeId == g.nextNodeId
  {
    Seqs.FilterInOrder(g.nodes, (n: Node) => n.id != id);
    Seqs.FilterInOrder(g.connections, (c: Connection) => c.fromNode != id && c.toNode != id);
    g.(connections := Seqs.Filter(g.connections, (c: Connection) => c.fromNode != id && c.toNode != id),
       nodes := Seqs.Filter(g.nodes, (n: Node) => n.id != id))
  }

  /** `removeConnection(id)`: every connection with that id goes. */
  function RemoveConnection(g: Graph, id: string): (r: Graph)
    ensures forall c :: c in r.connections <==> c in g.connections && c.id != id
    ensures (forall i :: 0 <= i < |g.connections| ==> g.connections[i].id != id) ==> r == g
    ensures Seqs.Subsequence(r.connections, g.connections)
    ensures forall c :: Seqs.Count(r.connections, c) == if c.id != id then Seqs.Count(g.connections, c) else 0
    ensures r.nodes == g.nodes && r.nextNodeId == g.nextNodeId
  {
    Seqs.FilterInOrder(g.connections, (c: Connection) => c.id != id);
    g.(connections := Seqs.Filter(g.connections, (c: Connection) => c.id != id))
  }

  /** `getConnectionsForNode(id)` */
  function GetConnectionsForNode(g: Graph, id: int): (r: seq<Connection>)
    ensures forall c :: c in r <==> c in g.connections && (c.fromNode == id || c.toNode == id)
  {
    Seqs.Filter(g.connections, (c: Connection) => c.fromNode == id || c.toNode == id)
  }

  /** `getConnectionToInput(toNodeId, toPortId)` */
  function GetConnectionToInput(g: Graph, toId: int, toPortId: string): (r: Option<Connection>)
    ensures r.Some? ==> r.value in g.connections && Into(r.value, toId, toPortId)
    ensures r.None? <==> forall i :: 0 <= i < |g.connections| ==> !Into(g.connections[i], toId, toPortId)
  {
    Seqs.Find(g.connections, (c: Connection) => Into(c, toId, toPortId))
  }

  // ---------------------------------------------------------------------
  // Saving and loading
  // ---------------------------------------------------------------------

  /** A node as read back from a saved document, where the port lists and the
      properties may be missing. */
  datatype SavedNode = SavedNode(
    id: int, nodeType: string, x: int, y: int,
    inputs: Option<seq<Port>>, outputs: Option<seq<Port>>, properties: Option<Props>)

  /** A parsed document: something other than an object, or an object whose
      three fields may each be missing. */
  datatype Document =
    | NotAnObject
    | Document(nodes: Option<seq<SavedNode>>, connections: Option<seq<Connection>>, nextNodeId: Option<int>)

  function Save(n: Node): SavedNode {
    SavedNode(n.id, n.nodeType, n.x, n.y, Some(n.inputs), Some(n.outputs), Some(n.properties))
  }

  /** `toJSON()` */
  function ToJSON(g: Graph): (d: Document)
    ensures d.Document? && d.nodes.Some? && |d.nodes.value| == |g.nodes|
    ensures forall i :: 0 <= i < |g.nodes| ==> d.nodes.value[i] == Save(g.nodes[i])
    ensures d.connections == Some(g.connections) && d.nextNodeId == Some(g.nextNodeId)
  {
    Document(Some(Seqs.Map(g.nodes, Save)), Some(g.connections), Some(g.nextNodeId))
  }

  /** A blueprint input, carrying instead the default of the saved input with
      the same id when that one has a default. */
  function MergeDefault(saved: seq<Port>, base: Port): (p: Port)
    ensures p.(default := base.default) == base
    ensures p.default.None? ==> base.default.None?
  {
    match FindPort(saved, base.id)
    case Some(s) => if s.default.Some? then base.(default := s.default) else base
    case None => base
  }

  /** The migration `fromJSON` applies to every loaded node: the ports are
      those of the current blueprint, saved input defaults win, and saved
      properties are laid over the blueprint's. */
  function Migrate(s: SavedNode): Node {
    var bp := LD.ConfigByType(s.nodeType);
    Node(s.id, s.nodeType, s.x, s.y,
         Seqs.Map(InputsOf(bp), (p: Port) => MergeDefault(s.inputs.GetOr([]), p)),
         OutputsOf(bp),
         PropertiesOf(bp) + s.properties.GetOr(map[]))
  }

  /** `Math.max(...ids, 0)` */
  function MaxId(nodes: seq<SavedNode>): (m: int)
    ensures m >= 0 && forall i :: 0 <= i < |nodes| ==> nodes[i].id <= m
    ensures m == 0 || exists i :: 0 <= i < |nodes| && nodes[i].id == m
  {
    if |nodes| == 0 then 0
    else
      var rest := MaxId(nodes[1..]);
      assert forall i :: 1 <= i < |nodes| ==> nodes[i] == nodes[1..][i - 1];
      if nodes[0].id > rest then nodes[0].id else rest
  }

  /** `fromJSON(data)`: a saved `nextNodeId` of 0 or none is recomputed
      from the largest saved id. */
  function FromJSON(d: Document): (g: Graph)
    ensures d.NotAnObject? ==> g == Empty && g.nextNodeId == 1
    ensures d.Document? ==> g.connections == d.connections.GetOr([])
    ensures d.Document? ==> |g.nodes| == |d.nodes.GetOr([])|
    ensures d.Document? ==> forall i :: 0 <= i < |g.nodes| ==> g.nodes[i] == Migrate(d.nodes.GetOr([])[i])
    ensures d.Document? && d.nextNodeId.Some? && d.nextNodeId.value != 0 ==> g.nextNodeId == d.nextNodeId.value
    ensures d.Document? && (d.nextNodeId.None? || d.nextNodeId.value == 0) ==>
      g.nextNodeId == MaxId(d.nodes.GetOr([])) + 1
  {
    match d
    case NotAnObject => Empty
    case Document(nodes, connections, next) =>
      var saved := nodes.GetOr([]);
      var nextId := if next.Some? && next.value != 0 then next.value
                    else if |saved| > 0 then MaxId(saved) + 1 else 1;
      Graph(Seqs.Map(saved, Migrate), connections.GetOr([]), nextId)
  }

  // ---------------------------------------------------------------------
  // The invariant every editing operation keeps
  // ---------------------------------------------------------------------

  predicate DistinctInputs(a: Connection, b: Connection) {
    !Into(b, a.toNode, a.toPort)
  }

  /** No input has two incoming connections. */
  predicate SingleIncoming(cs: seq<Connection>) {
    Seqs.Pairwise(cs, DistinctInputs)
  }

  /** A connection joins an existing output to an existing compatible input
      and records their kinds and data types. */
  predicate EdgeFits(nodes: seq<Node>, c: Connection) {
    && FindNode(nodes, c.fromNode).Some? && FindNode(nodes, c.toNode).Some?
    && FindPort(FindNode(nodes, c.fromNode).value.outputs, c.fromPort).Some?
    && FindPort(FindNode(nodes, c.toNode).value.inputs, c.toPort).Some?
    && var p := FindPort(FindNode(nodes, c.fromNode).value.outputs, c.fromPort).value;
       var q := FindPort(FindNode(nodes, c.toNode).value.inputs, c.toPort).value;
       && p.portType == c.fromPortType && p.dataType == c.fromDataType
       && q.portType == c.toPortType && q.dataType == c.toDataType
       && Compatible(p, q)
       && !(c.fromNode == c.toNode && p.portType == Exec)
  }

  predicate EdgesFit(nodes: seq<Node>, cs: seq<Connection>) {
    forall i :: 0 <= i < |cs| ==> EdgeFits(nodes, cs[i])
  }

  predicate Valid(g: Graph) {
    && UniqueIds(g.nodes)
    && IdsBelow(g.nodes, g.nextNodeId)
    && SingleIncoming(g.connections)
    && EdgesFit(g.nodes, g.connections)
  }
}
