/** The shapes shared by both generations: JSON-like values, port
    declarations, node-type blueprints and node instances. */
module Schema {
  import opened Wrappers
  import Seqs
  import Text

  /** A JSON scalar as stored in a port default or a node property. Numbers are
      integral here; JSON `null` is not modelled (an absent value is `None`). */
  datatype Value = VNum(n: int) | VStr(s: string) | VBool(b: bool)

  type Props = map<string, Value>

  /** JavaScript truthiness of a present value. */
  predicate Truthy(v: Value) {
    match v
    case VNum(n) => n != 0
    case VStr(s) => s != ""
    case VBool(b) => b
  }

  function BoolText(b: bool): string {
    if b then "true" else "false"
  }

  /** `String(v)`, also what `${v}` interpolates. */
  function ValueText(v: Value): string {
    match v
    case VNum(n) => Text.IntToString(n)
    case VStr(s) => s
    case VBool(b) => BoolText(b)
  }

  /** `String(v)` where `v` may be `undefined`. */
  function OptionText(v: Option<Value>): string {
    match v
    case None => "undefined"
    case Some(x) => ValueText(x)
  }

  /** `JSON.stringify(v)` on a scalar; on `undefined` it yields `undefined`,
      which then prints as the text `undefined`. */
  function JsonText(v: Option<Value>): string {
    match v
    case Some(VStr(s)) => Text.Quote(s)
    case _ => OptionText(v)
  }

  datatype PortKind = Exec | Data

  datatype DataType = DNumber | DString | DBoolean | DColor | DExpression | DAny | DExec

  /** A port declaration `{id, portType, dataType, default?}`; the display
      `name` only labels the socket in the editor and is not modelled. */
  datatype Port = Port(id: string, portType: PortKind, dataType: DataType, default: Option<Value>)

  function ExecPort(id: string): Port {
    Port(id, Exec, DExec, None)
  }

  function DataInput(id: string, dataType: DataType, default: Value): Port {
    Port(id, Data, dataType, Some(default))
  }

  function DataOutput(id: string, dataType: DataType): Port {
    Port(id, Data, dataType, None)
  }

  /** The palette categories, `'control'` … `'data'`, and the `'general'`
      category of the fallback blueprint. */
  datatype Category = Control | Drawing | Procedural | Variables | DataBlocks | General

  function CategoryName(c: Category): string {
    match c
    case Control => "control"
    case Drawing => "drawing"
    case Procedural => "procedural"
    case Variables => "variables"
    case DataBlocks => "data"
    case General => "general"
  }

  /** A registry entry `{category, inputs?, outputs?, properties?}`; the older
      registry omits some of the fields, so each may be absent. */
  datatype Blueprint = Blueprint(category: Option<Category>, inputs: Option<seq<Port>>, outputs: Option<seq<Port>>, properties: Option<Props>)

  /** The fallback `{ inputs: [], outputs: [], properties: {}, category: 'general' }`
      both registries return for a type they do not list. */
  const GeneralBlueprint := Blueprint(Some(General), Some([]), Some([]), Some(map[]))

  /** `configs[type]` on an object literal also finds the members every object
      inherits; each is truthy and has none of the blueprint fields. */
  const InheritedKeys: set<string> := {
    "constructor", "hasOwnProperty", "isPrototypeOf", "propertyIsEnumerable",
    "toString", "toLocaleString", "valueOf", "__proto__",
    "__defineGetter__", "__defineSetter__", "__lookupGetter__", "__lookupSetter__"
  }

  const InheritedBlueprint := Blueprint(None, None, None, None)

  /** One palette entry of `getNodeTypes()`; the description text is left out. */
  datatype TypeEntry = TypeEntry(nodeType: string, name: string, category: Category)

  /** `config.inputs || []` and friends. */
  function InputsOf(bp: Blueprint): seq<Port> { bp.inputs.GetOr([]) }
  function OutputsOf(bp: Blueprint): seq<Port> { bp.outputs.GetOr([]) }
  function PropertiesOf(bp: Blueprint): Props { bp.properties.GetOr(map[]) }

  predicate IsExecPort(p: Port) {
    p.portType == Exec
  }

  predicate HasExecInput(bp: Blueprint) {
    Seqs.FindIndex(InputsOf(bp), IsExecPort).Some?
  }

  predicate HasExecOutput(bp: Blueprint) {
    Seqs.FindIndex(OutputsOf(bp), IsExecPort).Some?
  }

  /** A node instance; x and y only matter to the editor. */
  datatype Node = Node(id: int, nodeType: string, x: int, y: int, inputs: seq<Port>, outputs: seq<Port>, properties: Props)

  /** `node.properties.fill` is set and truthy. */
  predicate Filled(n: Node) {
    "fill" in n.properties && Truthy(n.properties["fill"])
  }

  /** `ports.find(p => p.id === id)` */
  function FindPort(ports: seq<Port>, id: string): (r: Option<Port>)
    ensures r.Some? ==> r.value in ports && r.value.id == id
    ensures r.None? <==> forall i :: 0 <= i < |ports| ==> ports[i].id != id
  {
    Seqs.Find(ports, (p: Port) => p.id == id)
  }

  /** `nodes.find(n => n.id === id)` */
  function FindNode(nodes: seq<Node>, id: int): (r: Option<Node>)
    ensures r.Some? ==> r.value in nodes && r.value.id == id
    ensures r.None? <==> forall i :: 0 <= i < |nodes| ==> nodes[i].id != id
  {
    Seqs.Find(nodes, (n: Node) => n.id == id)
  }

  function NodeIds(nodes: seq<Node>): set<int> {
    set i | 0 <= i < |nodes| :: nodes[i].id
  }

  lemma NodeIdsCons(fs: seq<Node>)
    requires |fs| > 0
    ensures NodeIds(fs) == {fs[0].id} + NodeIds(fs[1..])
  {
    assert forall i :: 0 <= i < |fs[1..]| ==> fs[1..][i] == fs[i + 1];
    forall x | x in NodeIds(fs) ensures x in {fs[0].id} + NodeIds(fs[1..]) {
      var i :| 0 <= i < |fs| && fs[i].id == x;
      if i > 0 {
        assert fs[1..][i - 1].id == x;
      }
    }
  }

  /** No port of the list is a data port. */
  predicate NoDataPorts(ports: seq<Port>) {
    forall i :: 0 <= i < |ports| ==> ports[i].portType != Data
  }

  // ---------------------------------------------------------------------
  // Well-formedness of port lists, stated once for both registries
  // ---------------------------------------------------------------------

  predicate UniquePortIds(ports: seq<Port>) {
    forall i, j :: 0 <= i < j < |ports| ==> ports[i].id != ports[j].id
  }

  /** Exec ports carry the data type `exec`, and only they do. */
  predicate ExecPortsTagged(ports: seq<Port>) {
    forall i :: 0 <= i < |ports| ==> (ports[i].portType == Exec <==> ports[i].dataType == DExec)
  }

  predicate DataPortsHaveDefaults(ports: seq<Port>) {
    forall i :: 0 <= i < |ports| ==> ports[i].portType == Data ==> ports[i].default.Some?
  }

  /** The exec input of a node, when it has one, is the port `in`, and no
      data input is called `in`. */
  predicate ExecInputIsIn(ports: seq<Port>) {
    forall i :: 0 <= i < |ports| ==> (ports[i].portType == Exec <==> ports[i].id == "in")
  }

  predicate WellFormedBlueprint(bp: Blueprint) {
    && UniquePortIds(InputsOf(bp)) && UniquePortIds(OutputsOf(bp))
    && ExecPortsTagged(InputsOf(bp)) && ExecPortsTagged(OutputsOf(bp))
    && DataPortsHaveDefaults(InputsOf(bp))
    && ExecInputIsIn(InputsOf(bp))
  }

  /** The ids of a port list, in order. */
  function PortIds(ports: seq<Port>): seq<string> {
    Seqs.Map(ports, (p: Port) => p.id)
  }

  predicate AllData(ports: seq<Port>) {
    forall i :: 0 <= i < |ports| ==> ports[i].portType == Data
  }

  /** `properties[key]` repeats the default of the input port `key`. */
  predicate PropertyMirrorsDefault(bp: Blueprint, key: string) {
    && key in PropertiesOf(bp)
    && FindPort(InputsOf(bp), key).Some?
    && FindPort(InputsOf(bp), key).value.default == Some(PropertiesOf(bp)[key])
  }

  /** Looking a port up by the id of a member of a list with unique ids finds that member. */
  lemma FindPortUnique(ports: seq<Port>, i: nat)
    requires UniquePortIds(ports) && i < |ports|
    ensures FindPort(ports, ports[i].id) == Some(ports[i])
  {
  }

  /** The ports may be joined: the same kind, and for data ports the same
      data type unless either side accepts `any`. */
  predicate Compatible(p: Port, q: Port) {
    && p.portType == q.portType
    && (p.portType == Data ==> p.dataType == DAny || q.dataType == DAny || p.dataType == q.dataType)
  }

  predicate DistinctIds(a: Node, b: Node) {
    a.id != b.id
  }

  predicate UniqueIds(nodes: seq<Node>) {
    Seqs.Pairwise(nodes, DistinctIds)
  }

  /** With unique ids, a node of the sequence is known by its id. */
  lemma SameIdSameNode(nodes: seq<Node>, m: Node, n: Node)
    requires UniqueIds(nodes) && m in nodes && n in nodes && m.id == n.id
    ensures m == n
  {
    var i :| 0 <= i < |nodes| && nodes[i] == m;
    var j :| 0 <= j < |nodes| && nodes[j] == n;
    if i < j {
      assert false;
    } else if j < i {
      assert false;
    }
  }

  predicate IdsBelow(nodes: seq<Node>, bound: int) {
    forall i :: 0 <= i < |nodes| ==> nodes[i].id < bound
  }

  // ---------------------------------------------------------------------
  // Node lookups across the edits the graphs make
  // ---------------------------------------------------------------------

  /** Appending a node leaves every other id's lookup alone, and finds the new
      node by its id when that id was unused. */
  lemma FindNodeAppend(nodes: seq<Node>, n: Node, id: int)
    ensures id != n.id ==> FindNode(nodes + [n], id) == FindNode(nodes, id)
    ensures id == n.id && id !in NodeIds(nodes) ==> FindNode(nodes + [n], id) == Some(n)
  {
    var s := nodes + [n];
    if id != n.id {
      assert forall i :: 0 <= i < |nodes| ==> s[i] == nodes[i];
    } else if id !in NodeIds(nodes) {
      assert forall i :: 0 <= i < |nodes| ==> nodes[i].id in NodeIds(nodes);
      assert s[|nodes|] == n;
    }
  }

  /** Dropping the nodes with one id leaves the lookup of every other id alone. */
  lemma FindNodeWithout(nodes: seq<Node>, gone: int, id: int)
    requires id != gone
    ensures FindNode(Seqs.Filter(nodes, (n: Node) => n.id != gone), id) == FindNode(nodes, id)
  {
    Seqs.FindFiltered(nodes, (n: Node) => n.id != gone, (n: Node) => n.id == id);
  }
}
