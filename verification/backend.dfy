/** The older compiler's back end: it walks the exec edges of an
    `IntermediateRepresentation` graph from its `start` node and writes
    JavaScript text. Node types are told apart by their type text alone, the
    registry is not consulted, and every resolved input is text.

    As in the newer generator, every function takes `fuel`, a bound on the
    depth of the JavaScript call stack; `None` means the run would go deeper
    than the bound. */
module Backend {
  import opened Wrappers
  import opened Schema
  import Seqs
  import Text
  import IR = IntermediateRepresentation

  type Graph = IR.Graph

  // ---------------------------------------------------------------------
  // Data inputs and the cache
  // ---------------------------------------------------------------------

  /** The cache key `${id}_${inputId}`. */
  function CacheKey(id: int, input: string): string {
    Text.IntToString(id) + "_" + input
  }

  type Memo = map<string, string>

  /** Every entry of `a` is still in `b`, unchanged. */
  predicate Extends(a: Memo, b: Memo) {
    forall k :: k in a ==> k in b && b[k] == a[k]
  }

  datatype Res = Res(text: string, memo: Memo)

  const SourceNotFound := "undefined /* Source node not found */"
  const Unsupported := "undefined /* Unsupported data source node */"
  const ConfigNotFound := "undefined /* Input config not found */"

  /** The value of an input nothing feeds: an `expression` default as it
      is, a `string` or `color` default as a JSON literal, any other default
      as it is. */
  function DefaultText(port: Port): string {
    if port.dataType == DExpression then OptionText(port.default)
    else if port.dataType == DString || port.dataType == DColor then JsonText(port.default)
    else OptionText(port.default)
  }

  /** The text a `number` or `string` source node supplies. */
  function LiteralText(src: Node): string
    requires src.nodeType == "number" || src.nodeType == "string"
  {
    var v := if "value" in src.properties then Some(src.properties["value"]) else None;
    if src.nodeType == "number" then (if v.Some? then ValueText(v.value) else "0")
    else JsonText(Some(v.GetOr(VStr(""))))
  }

  /** Cache `v` under `key` and return it. */
  function Cache(memo: Memo, key: string, v: string): (r: Res)
    ensures r.text == v && key in r.memo && r.memo[key] == v
  {
    Res(v, memo[key := v])
  }

  /** `resolveDataInput(n, input)`: a cached value is returned as it is;
      otherwise the connection into the input decides, falling back to the
      input's declaration. The two "not found" placeholders are returned
      without being cached. */
  function Resolve(g: Graph, n: Node, input: string, memo: Memo, fuel: nat): (r: Option<Res>)
    ensures r.Some? ==> Extends(memo, r.value.memo)
    ensures r.Some? && CacheKey(n.id, input) in r.value.memo ==> r.value.memo[CacheKey(n.id, input)] == r.value.text
    decreases fuel, 0
  {
    var key := CacheKey(n.id, input);
    if fuel == 0 then None
    else if key in memo then Some(Res(memo[key], memo))
    else
      match IR.GetConnectionToInput(g, n.id, input)
      case Some(c) =>
        (match IR.GetNodeById(g, c.fromNode)
         case None => Some(Res(SourceNotFound, memo))
         case Some(src) => FromSource(g, src, key, memo, fuel - 1))
      case None =>
        match FindPort(n.inputs, input)
        case None => Some(Res(ConfigNotFound, memo))
        case Some(port) => Some(Cache(memo, key, DefaultText(port)))
  }

  /** The value the source node `src` supplies, cached under `key`: a
      `getVariable` node reads the variable its own `name` input names. */
  function FromSource(g: Graph, src: Node, key: string, memo: Memo, fuel: nat): (r: Option<Res>)
    requires key !in memo
    ensures r.Some? ==> Extends(memo, r.value.memo) && key in r.value.memo && r.value.memo[key] == r.value.text
    decreases fuel, 1
  {
    if src.nodeType == "getVariable" then
      match Resolve(g, src, "name", memo, fuel)
      case None => None
      case Some(name) => Some(Cache(name.memo, key, "variables[" + name.text + "]"))
    else if src.nodeType == "number" || src.nodeType == "string" then
      Some(Cache(memo, key, LiteralText(src)))
    else Some(Cache(memo, key, Unsupported))
  }

  datatype Inputs = Inputs(values: map<string, string>, memo: Memo)

  /** The `resolvedInputs` object: every data input among `ports`, resolved
      in order, a later port of the same id overwriting an earlier one. */
  function ResolveInputs(g: Graph, n: Node, ports: seq<Port>, acc: map<string, string>, memo: Memo, fuel: nat): (r: Option<Inputs>)
    ensures r.Some? ==> Extends(memo, r.value.memo)
    decreases |ports|
  {
    if |ports| == 0 then Some(Inputs(acc, memo))
    else if ports[0].portType != Data then ResolveInputs(g, n, ports[1..], acc, memo, fuel)
    else
      var v :- Resolve(g, n, ports[0].id, memo, fuel);
      ResolveInputs(g, n, ports[1..], acc[ports[0].id := v.text], v.memo, fuel)
  }

  /** `${resolvedInputs[id]}`: a missing input prints as `undefined`. */
  function Get(vals: map<string, string>, id: string): string {
    if id in vals then vals[id] else "undefined"
  }

  // ---------------------------------------------------------------------
  // Statements
  // ---------------------------------------------------------------------

  function Fill(n: Node, nl: string): string {
    if Filled(n) then nl + "ctx.fill();" else ""
  }

  /** The name a `callFunction` node calls: the resolved text without any
      double quote. */
  function CalledName(vals: map<string, string>): string {
    Text.StripAllQuotes(Get(vals, "name"))
  }

  /** The text of one statement that has no nested block. */
  function StatementCode(n: Node, vals: map<string, string>, nl: string): string {
    var t := n.nodeType;
    if t == "start" then ""
    else if t == "moveTo" then nl + "ctx.moveTo(" + Get(vals, "x") + ", " + Get(vals, "y") + ");"
    else if t == "lineTo" then nl + "ctx.lineTo(" + Get(vals, "x") + ", " + Get(vals, "y") + ");" + nl + "ctx.stroke();" + nl + "ctx.beginPath();"
    else if t == "setColor" then nl + "ctx.strokeStyle = " + Get(vals, "color") + ";" + nl + "ctx.fillStyle = " + Get(vals, "color") + ";"
    else if t == "setPenWidth" then nl + "ctx.lineWidth = " + Get(vals, "width") + ";"
    else if t == "drawCircle" then
      nl + "ctx.beginPath();" + nl + "ctx.arc(" + Get(vals, "x") + ", " + Get(vals, "y") + ", " + Get(vals, "radius") + ", 0, Math.PI * 2);"
      + nl + "ctx.stroke();" + Fill(n, nl) + nl + "ctx.beginPath();"
    else if t == "drawRectangle" then
      nl + "ctx.beginPath();" + nl + "ctx.rect(" + Get(vals, "x") + ", " + Get(vals, "y") + ", " + Get(vals, "width") + ", " + Get(vals, "height") + ");"
      + nl + "ctx.stroke();" + Fill(n, nl) + nl + "ctx.beginPath();"
    else if t == "setVariable" then nl + "variables[" + Get(vals, "name") + "] = " + Get(vals, "value") + ";"
    else if t == "callFunction" then nl + CalledName(vals) + "();"
    else nl + "// Node type " + t + " not implemented in backend"
  }

  predicate IsBlock(t: string) {
    t == "repeat" || t == "if" || t == "while"
  }

  datatype Step = Step(text: string, memo: Memo)

  /** The connection leaves port `fromPort` of node `fromId` and carries
      control flow. */
  predicate ExecOut(c: IR.Connection, fromId: int, fromPort: string) {
    c.fromNode == fromId && c.fromPort == fromPort && c.fromPortType == Exec
  }

  /** The connection `generateConnectedExec` follows: the first exec
      connection out of the given port. */
  function ExecEdgeFrom(g: Graph, fromId: int, fromPort: string): (r: Option<IR.Connection>)
    ensures r.Some? ==> r.value in g.connections && ExecOut(r.value, fromId, fromPort)
    ensures r.Some? ==> exists i :: (0 <= i < |g.connections| && g.connections[i] == r.value
      && forall j :: 0 <= j < i ==> !ExecOut(g.connections[j], fromId, fromPort))
    ensures r.None? <==> forall i :: 0 <= i < |g.connections| ==> !ExecOut(g.connections[i], fromId, fromPort)
  {
    match Seqs.FindIndex(g.connections, (c: IR.Connection) => ExecOut(c, fromId, fromPort))
    case Some(i) => Some(g.connections[i])
    case None => None
  }

  /** `generateExecCode(node, indent, visited)`: nothing for a missing node
      or one already on the path; otherwise the statement, then the chain
      after `out` on the same path. */
  function GenExec(g: Graph, node: Option<Node>, indent: string, visited: set<int>, memo: Memo, fuel: nat): (r: Option<Step>)
    ensures r.Some? ==> Extends(memo, r.value.memo)
    decreases fuel, 0
  {
    if fuel == 0 then None
    else
      match node
      case None => Some(Step("", memo))
      case Some(n) =>
        if n.id in visited then Some(Step("", memo))
        else
          var ins :- ResolveInputs(g, n, n.inputs, map[], memo, fuel - 1);
          var body :- if IsBlock(n.nodeType) then BlockCode(g, n, ins.values, indent, ins.memo, fuel - 1)
                      else Some(Step(StatementCode(n, ins.values, "\n" + indent), ins.memo));
          var next :- GenConnected(g, n.id, "out", indent, visited + {n.id}, body.memo, fuel - 1);
          Some(Step(body.text + next.text, next.memo))
  }

  /** The statement of a `repeat`, `if` or `while` node, its nested blocks
      generated one level deeper from a fresh visited set. */
  function BlockCode(g: Graph, n: Node, vals: map<string, string>, indent: string, memo: Memo, fuel: nat): (r: Option<Step>)
    requires IsBlock(n.nodeType)
    ensures r.Some? ==> Extends(memo, r.value.memo)
    decreases fuel, 2
  {
    var nl := "\n" + indent;
    var inner := indent + "  ";
    if n.nodeType == "repeat" then
      var b :- GenConnected(g, n.id, "body", inner, {}, memo, fuel);
      Some(Step(nl + "for (let i = 0; i < " + Get(vals, "count") + "; i++) {" + b.text + nl + "}", b.memo))
    else if n.nodeType == "if" then
      var t :- GenConnected(g, n.id, "then", inner, {}, memo, fuel);
      var e :- GenConnected(g, n.id, "else", inner, {}, t.memo, fuel);
      Some(Step(nl + "if (" + Get(vals, "condition") + ") {" + t.text + nl + "} else {" + e.text + nl + "}", e.memo))
    else
      var b :- GenConnected(g, n.id, "body", inner, {}, memo, fuel);
      Some(Step(nl + "while (" + Get(vals, "condition") + ") {" + b.text + nl + "}", b.memo))
  }

  /** `generateConnectedExec(fromId, fromPort, indent, visited)`: a
      connection to a node that does not exist yields nothing. */
  function GenConnected(g: Graph, fromId: int, fromPort: string, indent: string, visited: set<int>, memo: Memo, fuel: nat): (r: Option<Step>)
    ensures r.Some? ==> Extends(memo, r.value.memo)
    decreases fuel, 1
  {
    match ExecEdgeFrom(g, fromId, fromPort)
    case None => Some(Step("", memo))
    case Some(c) => GenExec(g, IR.GetNodeById(g, c.toNode), indent, visited, memo, fuel)
  }

  // ---------------------------------------------------------------------
  // Function definitions and generateCode
  // ---------------------------------------------------------------------

  datatype Defs = Defs(text: string, defined: set<int>, memo: Memo)

  /** `generateFunctionDefinition(f)`: nothing for an id already defined;
      otherwise a function named by the resolved `name` without any double
      quote, its body generated from a fresh visited set. */
  function FunctionDefinition(g: Graph, f: Node, defined: set<int>, memo: Memo, fuel: nat): (r: Option<Defs>)
    ensures r.Some? ==> r.value.defined == defined + {f.id} && Extends(memo, r.value.memo)
  {
    if f.id in defined then Some(Defs("", defined, memo))
    else
      var r :- Resolve(g, f, "name", memo, fuel);
      var b :- GenConnected(g, f.id, "body", "  ", {}, r.memo, fuel);
      Some(Defs("\nfunction " + Text.StripAllQuotes(r.text) + "() {\n" + b.text + "}\n", defined + {f.id}, b.memo))
  }

  function FunctionDefinitions(g: Graph, fs: seq<Node>, defined: set<int>, memo: Memo, fuel: nat): (r: Option<Defs>)
    ensures r.Some? ==> Extends(memo, r.value.memo)
  {
    if |fs| == 0 then Some(Defs("", defined, memo))
    else
      var d :- FunctionDefinition(g, fs[0], defined, memo, fuel);
      var rest :- FunctionDefinitions(g, fs[1..], d.defined, d.memo, fuel);
      Some(Defs(d.text + rest.text, rest.defined, rest.memo))
  }

  predicate IsStart(n: Node) { n.nodeType == "start" }
  predicate IsFunction(n: Node) { n.nodeType == "function" }

  const NoStart := "// No Start node found."

  /** The fixed header: the variables object and the initial canvas state. */
  const Header := "// Generated by NodeCanvas Compiler\n"
    + "let variables = {};\n\n"
    + "// --- Global Scope Initializations ---\n"
    + "ctx.strokeStyle = '#000000';\n"
    + "ctx.fillStyle = '#000000';\n"
    + "ctx.lineWidth = 2;\n"
    + "ctx.beginPath(); // Initial beginPath\n\n"

  const MainBanner := "\n// --- Main Program Execution ---\n"

  /** `generateCode(ir)`: the cache, the visited set and the defined-function
      set all start empty. */
  function GenerateCode(g: Graph, fuel: nat): Option<string> {
    match Seqs.Find(g.nodes, IsStart)
    case None => Some(NoStart)
    case Some(s) => Program(g, Seqs.Filter(g.nodes, IsFunction), s, fuel)
  }

  /** The header, the function definitions, then the chain from `start`. */
  function Program(g: Graph, functions: seq<Node>, start: Node, fuel: nat): Option<string> {
    var defs :- FunctionDefinitions(g, functions, {}, map[], fuel);
    var main :- GenExec(g, Some(start), "", {}, defs.memo, fuel);
    Some(Header + defs.text + MainBanner + main.text)
  }
}
