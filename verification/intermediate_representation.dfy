/** The graph the older editor edits, built from the registry of
    `NodeDefinitions`. It differs from the newer graph in its checks (no
    connection from a node to itself at all), in how it drops the earlier
    connection into an input (by that connection's id), in the records it
    keeps (no data types) and in how it loads (no migration). */
module IntermediateRepresentation {
  import opened Wrappers
  import opened Schema
  import Seqs
  import Text
  import ND = NodeDefinitions

  datatype Connection = Connection(
    id: string,
    fromNode: int, fromPort: string, fromPortType: PortKind,
    toNode: int, toPort: string, toPortType: PortKind)

  datatype Graph = Graph(nodes: seq<Node>, connections: seq<Connection>, nextNodeId: int)

  const Empty := Graph([], [], 1)

  datatype Outcome = Outcome(graph: Graph, made: Option<Connection>)

  // ---------------------------------------------------------------------
  // Nodes
  // ---------------------------------------------------------------------

  /** The properties of a new node: a `number` or `string` node takes the
      default of its `value` input as its `value` property; a missing default
      leaves the property `undefined`, which no saved document keeps. `k` is
      the registered kind of the node's type, if any. */
  function SeedProperties(k: Option<ND.NodeKind>, inputs: seq<Port>, props: Props): Props {
    if k == Some(ND.Number) || k == Some(ND.String) then
      match FindPort(inputs, "value")
      case Some(p) => if p.default.Some? then props["value" := p.default.value] else props - {"value"}
      case None => props
    else props
  }

  function NewNode(id: int, t: string, x: int, y: int): Node {
    var bp := ND.ConfigByType(t);
    Node(id, t, x, y, InputsOf(bp), OutputsOf(bp), SeedProperties(ND.KindOf(t), InputsOf(bp), PropertiesOf(bp)))
  }

  /** `createNode(type, x, y)` */
  function CreateNode(g: Graph, t: string, x: int, y: int): (r: (Graph, Node))
    ensures r.1.id == g.nextNodeId && r.1.nodeType == t && r.1.x == x && r.1.y == y
    ensures r.0.nodes == g.nodes + [r.1] && r.0.connections == g.connections
    ensures r.0.nextNodeId == g.nextNodeId + 1
  {
    var n := NewNode(g.nextNodeId, t, x, y);
    (g.(nodes := g.nodes + [n], nextNodeId := g.nextNodeId + 1), n)
  }

  /** `getNodeById(id)` */
  function GetNodeById(g: Graph, id: int): (r: Option<Node>)
    ensures r.Some? ==> r.value in g.nodes && r.value.id == id
    ensures r.None? <==> forall i :: 0 <= i < |g.nodes| ==> g.nodes[i].id != id
  {
    FindNode(g.nodes, id)
  }

  // ---------------------------------------------------------------------
  // Connections
  // ---------------------------------------------------------------------

  predicate Into(c: Connection, node: int, port: string) {
    c.toNode == node && c.toPort == port
  }

  /** What `createConnection` demands: both nodes exist and are different,
      the output and the input exist on them, and the ports are compatible. */
  predicate Admissible(g: Graph, fromId: int, fromPortId: string, toId: int, toPortId: string) {
    && FindNode(g.nodes, fromId).Some? && FindNode(g.nodes, toId).Some?
    && FindPort(FindNode(g.nodes, fromId).value.outputs, fromPortId).Some?
    && FindPort(FindNode(g.nodes, toId).value.inputs, toPortId).Some?
    && fromId != toId
    && Compatible(FindPort(FindNode(g.nodes, fromId).value.outputs, fromPortId).value,
                  FindPort(FindNode(g.nodes, toId).value.inputs, toPortId).value)
  }

  /** The id text of a connection; `stamp` stands for `Date.now()`. */
  function ConnectionId(fromId: int, fromPortId: string, toId: int, toPortId: string, stamp: nat): string {
    "conn_" + Text.IntToString(fromId) + "_" + fromPortId + "_" + Text.IntToString(toId) + "_" + toPortId
      + "_" + Text.IntToString(stamp)
  }

  /** `removeConnection(id)`: every connection with that id goes. */
  function RemoveConnection(g: Graph, id: string): (r: Graph)
    ensures forall c :: c in r.connections <==> c in g.connections && c.id != id
    ensures (forall i :: 0 <= i < |g.connections| ==> g.connections[i].id != id) ==> r == g
    ensures Seqs.Subsequence(r.connections, g.connections)
    ensures forall c :: Seqs.Count(r.connections, c) == if c.id != id then Seqs.Count(g.connections, c) else 0
    ensures r.nodes == g.nodes && r.nextNodeId == g.nextNodeId
  {
    Seqs.FilterInOrder(g.connections, (c: Connection) => c.id != id);
    g.(connections := Seqs.Filter(g.connections, (c: Connection) => c.id != id))
  }

  /** The graph without the connection into the given input, removed by its
      id (the lookup is the one `getConnectionToInput` makes). */
  function ClearInput(g: Graph, toId: int, toPortId: string): Graph {
    match GetConnectionToInput(g, toId, toPortId)
    case Some(prior) => RemoveConnection(g, prior.id)
    case None => g
  }

  /** The second half of `createConnection`: the connection into the input,
      if any, is removed; an identical connection still present refuses the
      request; otherwise the new connection is appended. */
  function Attach(g: Graph, fromId: int, p: Port, toId: int, q: Port, stamp: nat): Outcome {
    var g1 := ClearInput(g, toId, q.id);
    var duplicate := Seqs.FindIndex(g1.connections, (c: Connection) =>
      c.fromNode == fromId && c.fromPort == p.id && c.toNode == toId && c.toPort == q.id);
    if duplicate.Some? then Outcome(g1, None)
    else
      var c := Connection(ConnectionId(fromId, p.id, toId, q.id, stamp), fromId, p.id, p.portType, toId, q.id, q.portType);
      Outcome(g1.(connections := g1.connections + [c]), Some(c))
  }

  /** `createConnection(fromNodeId, fromPortId, toNodeId, toPortId)` */
  function CreateConnection(g: Graph, fromId: int, fromPortId: string, toId: int, toPortId: string, stamp: nat): (r: Outcome)
    ensures r.graph.nodes == g.nodes && r.graph.nextNodeId == g.nextNodeId
  {
    match (FindNode(g.nodes, fromId), FindNode(g.nodes, toId))
    case (Some(a), Some(b)) =>
      (match (FindPort(a.outputs, fromPortId), FindPort(b.inputs, toPortId))
       case (Some(p), Some(q)) =>
         if fromId == toId then Outcome(g, None)
         else if p.portType != q.portType then Outcome(g, None)
         else if p.portType == Data && p.dataType != DAny && q.dataType != DAny && p.dataType != q.dataType then
           Outcome(g, None)
         else Attach(g, fromId, p, toId, q, stamp)
       case _ => Outcome(g, None))
    case _ => Outcome(g, None)
  }

  /** `removeNode(id)` */
  function RemoveNode(g: Graph, id: int): (r: Graph)
    ensures forall c :: c in r.connections <==> c in g.connections && c.fromNode != id && c.toNode != id
    ensures forall n :: n in r.nodes <==> n in g.nodes && n.id != id
    ensures Seqs.Subsequence(r.nodes, g.nodes) && Seqs.Subsequence(r.connections, g.connections)
    ensures forall n :: Seqs.Count(r.nodes, n) == if n.id != id then Seqs.Count(g.nodes, n) else 0
    ensures forall c :: Seqs.Count(r.connections, c) == if c.fromNode != id && c.toNode != id then Seqs.Count(g.connections, c) else 0
    ensures r.nextNodeId == g.nextNodeId
  {
    Seqs.FilterInOrder(g.nodes, (n: Node) => n.id != id);
    Seqs.FilterInOrder(g.connections, (c: Connection) => c.fromNode != id && c.toNode != id);
    g.(connections := Seqs.Filter(g.connections, (c: Connection) => c.fromNode != id && c.toNode != id),
       nodes := Seqs.Filter(g.nodes, (n: Node) => n.id != id))
  }

  /** `getConnectionsForNode(id)` */
  function GetConnectionsForNode(g: Graph, id: int): (r: seq<Connection>)
    ensures forall c :: c in r <==> c in g.connections && (c.fromNode == id || c.toNode == id)
  {
    Seqs.Filter(g.connections, (c: Connection) => c.fromNode == id || c.toNode == id)
  }

  /** `getConnectionToInput(toNodeId, toPortId)` */
  function GetConnectionToInput(g: Graph, toId: int, toPortId: string): (r: Option<Connection>)
    ensures r.Some? ==> r.value in g.connections && Into(r.value, toId, toPortId)
    ensures r.None? <==> forall i :: 0 <= i < |g.connections| ==> !Into(g.connections[i], toId, toPortId)
  {
    Seqs.Find(g.connections, (c: Connection) => Into(c, toId, toPortId))
  }

  // ---------------------------------------------------------------------
  // Saving and loading
  // ---------------------------------------------------------------------

  /** A parsed document: an object whose fields may each be missing. */
  datatype Document = Document(nodes: Option<seq<Node>>, connections: Option<seq<Connection>>, nextNodeId: Option<int>)

  /** `toJSON()` */
  function ToJSON(g: Graph): (d: Document)
    ensures d.nodes == Some(g.nodes) && d.connections == Some(g.connections) && d.nextNodeId == Some(g.nextNodeId)
  {
    Document(Some(g.nodes), Some(g.connections), Some(g.nextNodeId))
  }

  /** `fromJSON(data)`: the nodes are taken as saved; a next id of 0 or none
      becomes 1, whatever ids the nodes hold. */
  function FromJSON(d: Document): (g: Graph)
    ensures g.nodes == d.nodes.GetOr([]) && g.connections == d.connections.GetOr([])
    ensures g.nextNodeId != 0
    ensures d.nextNodeId.Some? && d.nextNodeId.value != 0 ==> g.nextNodeId == d.nextNodeId.value
  {
    Graph(d.nodes.GetOr([]), d.connections.GetOr([]),
          if d.nextNodeId.Some? && d.nextNodeId.value != 0 then d.nextNodeId.value else 1)
  }

  // ---------------------------------------------------------------------
  // The invariant every editing operation keeps
  // ---------------------------------------------------------------------

  predicate DistinctInputs(a: Connection, b: Connection) {
    !Into(b, a.toNode, a.toPort)
  }

  /** No input has two incoming connections. */
  predicate SingleIncoming(cs: seq<Connection>) {
    Seqs.Pairwise(cs, DistinctInputs)
  }

  /** A connection joins an output of one node to a compatible input of
      another, and records the kinds of both ports. */
  predicate EdgeFits(nodes: seq<Node>, c: Connection) {
    && FindNode(nodes, c.fromNode).Some? && FindNode(nodes, c.toNode).Some?
    && FindPort(FindNode(nodes, c.fromNode).value.outputs, c.fromPort).Some?
    && FindPort(FindNode(nodes, c.toNode).value.inputs, c.toPort).Some?
    && var p := FindPort(FindNode(nodes, c.fromNode).value.outputs, c.fromPort).value;
       var q := FindPort(FindNode(nodes, c.toNode).value.inputs, c.toPort).value;
       && p.portType == c.fromPortType && q.portType == c.toPortType
       && Compatible(p, q)
       && c.fromNode != c.toNode
  }

  predicate EdgesFit(nodes: seq<Node>, cs: seq<Connection>) {
    forall i :: 0 <= i < |cs| ==> EdgeFits(nodes, cs[i])
  }

  predicate Valid(g: Graph) {
    && UniqueIds(g.nodes)
    && IdsBelow(g.nodes, g.nextNodeId)
    && SingleIncoming(g.connections)
    && EdgesFit(g.nodes, g.connections)
  }
}
