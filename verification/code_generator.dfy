/** The newer compiler's back end: it walks the exec edges of an
    `AbstractSyntaxTree` graph from its roots and writes JavaScript text,
    turning every data input into an expression through a cache.

    Every generator takes `fuel`, a bound on the depth of the JavaScript call
    stack: each `generateExecCode` and each `resolveDataInput` frame uses one
    unit. `None` means the run would go deeper than the bound; a graph on
    which the JavaScript recursion never ends yields `None` for every fuel. */
module CodeGenerator {
  import opened Wrappers
  import opened Schema
  import Seqs
  import Text
  import LD = LanguageDefinition
  import AST = AbstractSyntaxTree

  type Graph = AST.Graph

  // ---------------------------------------------------------------------
  // Resolved data inputs and the cache
  // ---------------------------------------------------------------------

  /** What `resolveDataInput` returns and caches: expression text, or a raw
      number or boolean taken from a literal. */
  datatype Resolved = RText(s: string) | RNum(n: int) | RBool(b: bool)

  /** JavaScript falsiness of a resolved value. */
  predicate Falsy(v: Resolved) {
    v == RText("") || v == RNum(0) || v == RBool(false)
  }

  /** `String(v)`, also what `${v}` interpolates. */
  function Show(v: Resolved): string {
    match v
    case RText(s) => s
    case RNum(n) => Text.IntToString(n)
    case RBool(b) => BoolText(b)
  }

  /** The cache key `${id}_${inputId}_${type}`, kept as the triple it spells. */
  datatype Key = Key(node: int, input: string, nodeType: string)

  type Memo = map<Key, Resolved>

  function KeyOf(n: Node, input: string): Key {
    Key(n.id, input, n.nodeType)
  }

  /** Every entry of `a` is still in `b`, unchanged. */
  predicate Extends(a: Memo, b: Memo) {
    forall k :: k in a ==> k in b && b[k] == a[k]
  }

  datatype Res = Res(value: Resolved, memo: Memo)

  /** The value a connected source supplies before formatting: expression
      text, or the literal stored on a `number`/`string` node. */
  datatype Picked = Code(text: string) | Literal(v: Value)

  datatype Sourced = Sourced(picked: Option<Picked>, memo: Memo)

  /** The formatting of a value a connected source supplied. */
  function Finish(p: Picked): Resolved {
    match p
    case Code(s) => RText(s)
    case Literal(VStr(s)) => RText(Text.Quote(s))
    case Literal(VNum(n)) => RNum(n)
    case Literal(VBool(b)) => RBool(b)
  }

  /** The value of an input nothing usable feeds: its declared default,
      formatted by the port's data type. A string default on a number or
      boolean port that looks like code is emitted as code. */
  function Unconnected(port: Port): Resolved {
    if port.dataType == DExpression then RText(OptionText(port.default))
    else
      match port.default
      case Some(VStr(s)) =>
        if (port.dataType == DNumber || port.dataType == DBoolean) && Text.LooksLikeExpression(s) then RText(s)
        else RText(Text.Quote(s))
      case Some(VNum(n)) => RNum(n)
      case Some(VBool(b)) => RBool(b)
      case None =>
        if port.dataType == DNumber then RNum(0)
        else if port.dataType == DString || port.dataType == DColor then RText("\"\"")
        else if port.dataType == DBoolean then RBool(false)
        else RText("undefined")
  }

  const SourceMissing := RText("undefined /* Error: Source node missing */")

  function InputMissing(n: Node, input: string): Resolved {
    RText("undefined /* Error: Input " + input + " on " + n.nodeType + " missing */")
  }

  /** Cache `v` under `key` and return it. */
  function Store(memo: Memo, key: Key, v: Resolved): (r: Res)
    ensures r.value == v && key in r.memo && r.memo[key] == v
  {
    Res(v, memo[key := v])
  }

  /** The value the input's own declaration gives it, when no connected
      source supplies one; an input the node does not declare gets an error
      placeholder. */
  function Declared(n: Node, input: string): Resolved {
    match FindPort(n.inputs, input)
    case None => InputMissing(n, input)
    case Some(port) => Unconnected(port)
  }

  /** The value of an input whose source node exists: what the source
      supplied, formatted, or else the input's own declaration. */
  function Settled(n: Node, input: string, picked: Option<Picked>): Resolved {
    match picked
    case Some(p) => Finish(p)
    case None => Declared(n, input)
  }

  function OperatorText(k: LD.NodeKind, a: string, b: string): string
    requires LD.IsBinaryOperator(k)
  {
    if k == LD.Add then "((" + a + ") + (" + b + "))"
    else if k == LD.Subtract then "((" + a + ") - (" + b + "))"
    else if k == LD.Multiply then "((" + a + ") * (" + b + "))"
    else if k == LD.Divide then "((" + a + ") / ((" + b + ") || 1))"
    else if k == LD.LessThan then "((" + a + ") < (" + b + "))"
    else if k == LD.EqualTo then "((" + a + ") === (" + b + "))"
    else if k == LD.GreaterThan then "((" + a + ") > (" + b + "))"
    else if k == LD.And then "((" + a + ") && (" + b + "))"
    else "((" + a + ") || (" + b + "))"
  }

  function RandomText(min: string, max: string): string {
    "(Math.floor(Math.random() * ((Number(" + max + ")) - (Number(" + min + ")) + 1)) + (Number(" + min + ")))"
  }

  const MouseXText := "(typeof window.nodeCanvasRuntime_mouseX !== 'undefined' ? window.nodeCanvasRuntime_mouseX : (canvas ? canvas.width/2 : 200))"

  /** The inputs of a connected source that are resolved first, in the
      order the source's expression evaluates them. */
  function Operands(k: Option<LD.NodeKind>): (ids: seq<string>)
    ensures |ids| <= 2
  {
    if k == Some(LD.GetVariable) then ["name"]
    else if k == Some(LD.RandomNumber) then ["min", "max"]
    else if k == Some(LD.Not) then ["a"]
    else if k.Some? && LD.IsBinaryOperator(k.value) then ["a", "b"]
    else []
  }

  /** What a connected source node of kind `k` supplies, given its operands
      resolved; `None` for a type that supplies nothing. */
  function Supplied(src: Node, k: Option<LD.NodeKind>, vals: seq<Resolved>): Option<Picked>
    requires |vals| == |Operands(k)|
  {
    if k == Some(LD.GetVariable) then Some(Code("variables[" + Show(vals[0]) + "]"))
    else if k == Some(LD.Number) then
      Some(Literal(if "value" in src.properties then src.properties["value"] else VNum(0)))
    else if k == Some(LD.String) then
      Some(Literal(if "value" in src.properties then src.properties["value"] else VStr("")))
    else if k == Some(LD.RandomNumber) then Some(Code(RandomText(Show(vals[0]), Show(vals[1]))))
    else if k == Some(LD.GetMouseX) then Some(Code(MouseXText))
    else if k == Some(LD.Not) then Some(Code("(!(" + Show(vals[0]) + "))"))
    else if k.Some? && LD.IsBinaryOperator(k.value) then Some(Code(OperatorText(k.value, Show(vals[0]), Show(vals[1]))))
    else None
  }

  /** `resolveDataInput(n, input)`: a cached value is returned as it is;
      otherwise the first connection into the input decides, falling back to
      the input's declaration, and the result is cached. */
  function Resolve(g: Graph, n: Node, input: string, memo: Memo, fuel: nat): (r: Option<Res>)
    ensures r.Some? ==> KeyOf(n, input) in r.value.memo && r.value.memo[KeyOf(n, input)] == r.value.value
    ensures r.Some? ==> Extends(memo, r.value.memo)
    decreases fuel, 0, 0
  {
    if fuel == 0 then None
    else if KeyOf(n, input) in memo then Some(Res(memo[KeyOf(n, input)], memo))
    else
      match AST.GetConnectionToInput(g, n.id, input)
      case None => Some(Store(memo, KeyOf(n, input), Declared(n, input)))
      case Some(c) =>
        match AST.GetNodeById(g, c.fromNode)
        case None => Some(Store(memo, KeyOf(n, input), SourceMissing))
        case Some(src) => Via(g, n, input, src, memo, fuel - 1)
  }

  /** The rest of `resolveDataInput` once the connection has led to the node
      `src`: what `src` supplies is settled and cached. */
  function Via(g: Graph, n: Node, input: string, src: Node, memo: Memo, fuel: nat): (r: Option<Res>)
    requires KeyOf(n, input) !in memo
    ensures r.Some? ==> KeyOf(n, input) in r.value.memo && r.value.memo[KeyOf(n, input)] == r.value.value
    ensures r.Some? ==> Extends(memo, r.value.memo)
    decreases fuel, 3, 0
  {
    var s :- Source(g, src, memo, fuel);
    Some(Store(s.memo, KeyOf(n, input), Settled(n, input, s.picked)))
  }

  /** What the node `src` at the other end of a data connection supplies:
      its operands are resolved in order, then combined. */
  function Source(g: Graph, src: Node, memo: Memo, fuel: nat): (r: Option<Sourced>)
    ensures r.Some? ==> Extends(memo, r.value.memo)
    decreases fuel, 2, 0
  {
    var k := LD.KindOf(src.nodeType);
    var vs :- ResolveAll(g, src, Operands(k), memo, fuel);
    Some(Sourced(Supplied(src, k, vs.values), vs.memo))
  }

  datatype Results = Results(values: seq<Resolved>, memo: Memo)

  /** Inputs `ids` of `n` resolved one after the other, the cache threaded through. */
  function ResolveAll(g: Graph, n: Node, ids: seq<string>, memo: Memo, fuel: nat): (r: Option<Results>)
    ensures r.Some? ==> |r.value.values| == |ids| && Extends(memo, r.value.memo)
    decreases fuel, 1, |ids|
  {
    if |ids| == 0 then Some(Results([], memo))
    else
      var v :- Resolve(g, n, ids[0], memo, fuel);
      var rest :- ResolveAll(g, n, ids[1..], v.memo, fuel);
      Some(Results([v.value] + rest.values, rest.memo))
  }

  datatype Inputs = Inputs(values: map<string, Resolved>, memo: Memo)

  /** The `resolvedInputs` object: every data input among `ports`, resolved
      in order, a later port of the same id overwriting an earlier one. */
  function ResolveInputs(g: Graph, n: Node, ports: seq<Port>, acc: map<string, Resolved>, memo: Memo, fuel: nat): (r: Option<Inputs>)
    ensures r.Some? ==> Extends(memo, r.value.memo)
    decreases |ports|
  {
    if |ports| == 0 then Some(Inputs(acc, memo))
    else if ports[0].portType != Data then ResolveInputs(g, n, ports[1..], acc, memo, fuel)
    else
      var v :- Resolve(g, n, ports[0].id, memo, fuel);
      ResolveInputs(g, n, ports[1..], acc[ports[0].id := v.value], v.memo, fuel)
  }

  /** `${resolvedInputs[id] || fallback}` */
  function Or(vals: map<string, Resolved>, id: string, fallback: string): string {
    if id in vals && !Falsy(vals[id]) then Show(vals[id]) else fallback
  }

  // ---------------------------------------------------------------------
  // Statements
  // ---------------------------------------------------------------------

  function IdText(n: Node): string {
    Text.IntToString(n.id)
  }

  function ChangeByCode(vals: map<string, Resolved>, nl: string, t: string): string {
    var v := Or(vals, "variableName", "\"\"");
    var a := Or(vals, "amount", "0");
    nl + "if (typeof variables[" + v + "] === 'number') { variables[" + v + "] += (" + a
      + "); } else if (variables[" + v + "] === undefined) { variables[" + v + "] = (" + a
      + "); } else { console.warn('Variable ' + " + v + " + ' not a number for " + t + ".'); }"
  }

  function SayCode(vals: map<string, Resolved>, nl: string): string {
    nl + "if(ctx) { const prevFontS_ = ctx.font; const prevFillS_ = ctx.fillStyle; const prevAlignS_ = ctx.textAlign; const prevBaselineS_ = ctx.textBaseline;"
    + nl + "  ctx.font = 'bold 14px Nunito, sans-serif'; ctx.fillStyle = '#555555'; ctx.textAlign = 'center'; ctx.textBaseline = 'bottom';"
    + nl + "  ctx.fillText(" + Or(vals, "message", "''") + ", " + Or(vals, "targetX", "0") + ", Number(" + Or(vals, "targetY", "0") + ") - 5);"
    + nl + "  ctx.font = prevFontS_; ctx.fillStyle = prevFillS_; ctx.textAlign = prevAlignS_; ctx.textBaseline = prevBaselineS_; }"
  }

  function DrawTextCode(vals: map<string, Resolved>, nl: string): string {
    nl + "if(ctx) { const prevFontDT_ = ctx.font; const prevFillDT_ = ctx.fillStyle; const prevAlignDT_ = ctx.textAlign; const prevBaselineDT_ = ctx.textBaseline;"
    + " ctx.font = " + Or(vals, "font", "'16px Arial'") + "; ctx.fillStyle = " + Or(vals, "color", "'#000000'")
    + "; ctx.textAlign = 'left'; ctx.textBaseline = 'top';"
    + " ctx.fillText(" + Or(vals, "text", "''") + ", " + Or(vals, "x", "0") + ", " + Or(vals, "y", "20") + ");"
    + " ctx.font = prevFontDT_; ctx.fillStyle = prevFillDT_; ctx.textAlign = prevAlignDT_; ctx.textBaseline = prevBaselineDT_; }"
  }

  function ShapeCode(n: Node, call: string, nl: string): string {
    nl + "if(ctx) { ctx.beginPath();" + call + " ctx.stroke();" + (if Filled(n) then " ctx.fill();" else "") + " ctx.beginPath(); }"
  }

  /** The function name a `callFunction` or `playSound` node uses: the
      resolved text without one pair of outer double quotes. */
  function NameArgument(vals: map<string, Resolved>, id: string): string {
    Text.StripOuterQuotes(Or(vals, id, "\"\""))
  }

  function CallCode(f: string, nl: string): string {
    nl + "if(typeof " + f + " === 'function') { " + f + "(); } else { console.warn('Attempted to call undefined/undeclared function: " + f + "'); }"
  }

  /** The text of one statement that has no nested block; `k` is the
      registered kind of the node's type. */
  function StatementCode(n: Node, k: Option<LD.NodeKind>, vals: map<string, Resolved>, nl: string): string {
    if k == Some(LD.Start) then nl + "// Start Node (ID " + IdText(n) + ") Execution Path"
    else if k == Some(LD.GameLoop) then nl + "// Game Loop Node (ID " + IdText(n) + ") - its tick logic is defined and started elsewhere."
    else if k == Some(LD.WhenKeyPressed) then nl + "// When Key Pressed Node (ID " + IdText(n) + ") - its actions are registered as event handlers."
    else if k == Some(LD.MoveTo) then nl + "if(ctx) { ctx.moveTo(" + Or(vals, "x", "0") + ", " + Or(vals, "y", "0") + "); }"
    else if k == Some(LD.LineTo) then nl + "if(ctx) { ctx.lineTo(" + Or(vals, "x", "0") + ", " + Or(vals, "y", "0") + "); ctx.stroke(); ctx.beginPath(); }"
    else if k == Some(LD.SetColor) then
      nl + "if(ctx) { ctx.strokeStyle = " + Or(vals, "color", "\"#000000\"") + "; ctx.fillStyle = " + Or(vals, "color", "\"#000000\"") + "; }"
    else if k == Some(LD.SetPenWidth) then nl + "if(ctx) { ctx.lineWidth = " + Or(vals, "width", "1") + "; }"
    else if k == Some(LD.DrawCircle) then
      ShapeCode(n, " ctx.arc(" + Or(vals, "x", "0") + ", " + Or(vals, "y", "0") + ", Math.max(0, " + Or(vals, "radius", "10") + "), 0, Math.PI * 2);", nl)
    else if k == Some(LD.DrawRectangle) then
      ShapeCode(n, " ctx.rect(" + Or(vals, "x", "0") + ", " + Or(vals, "y", "0") + ", Math.max(0, " + Or(vals, "width", "10")
        + "), Math.max(0, " + Or(vals, "height", "10") + "));", nl)
    else if k == Some(LD.ClearCanvas) then nl + "if(ctx && canvas) { ctx.clearRect(0, 0, canvas.width, canvas.height); ctx.beginPath(); }"
    else if k == Some(LD.DrawText) then DrawTextCode(vals, nl)
    else if k == Some(LD.Say) then SayCode(vals, nl)
    else if k == Some(LD.ChangeXBy) then ChangeByCode(vals, nl, "changeXBy")
    else if k == Some(LD.ChangeYBy) then ChangeByCode(vals, nl, "changeYBy")
    else if k == Some(LD.SetXTo) then nl + "variables[" + Or(vals, "variableName", "\"\"") + "] = (" + Or(vals, "value", "0") + ");"
    else if k == Some(LD.SetYTo) then nl + "variables[" + Or(vals, "variableName", "\"\"") + "] = (" + Or(vals, "value", "0") + ");"
    else if k == Some(LD.SetVariable) then
      nl + "variables[" + Or(vals, "name", "\"\"") + "] = " + (if "value" in vals then Show(vals["value"]) else "undefined") + ";"
    else if k == Some(LD.CallFunction) then CallCode(NameArgument(vals, "name"), nl)
    else if k == Some(LD.PlaySound) then nl + "playNodeSound('" + NameArgument(vals, "soundName") + "');"
    else nl + "// Node type " + n.nodeType + " (ID " + IdText(n) + ") has no specific exec code generation logic."
  }

  predicate IsBlock(k: Option<LD.NodeKind>) {
    k == Some(LD.Repeat) || k == Some(LD.If) || k == Some(LD.While)
  }

  /** The declaration of a `while` loop's iteration counter. */
  function WhileDecl(n: Node, nl: string): string {
    nl + "let whileGuard_" + IdText(n) + " = 0;"
  }

  /** The test that ends a `while` loop after 25000 iterations. */
  function WhileLimit(n: Node): string {
    "if (whileGuard_" + IdText(n) + "++ > 25000)"
  }

  function WhileWarning(n: Node): string {
    " { console.warn(\"While loop (ID " + IdText(n) + ") iteration limit exceeded (25k).\"); break; }"
  }

  function WhileHead(n: Node, cond: string, nl: string): string {
    WhileDecl(n, nl) + nl + "while (" + cond + ") {" + nl + "  " + WhileLimit(n) + WhileWarning(n)
  }

  function LoopDetected(n: Node): string {
    "/* Loop detected: Re-entry to node " + n.nodeType + " (ID " + IdText(n) + ") skipped in current path. */\n"
  }

  function HatInFlow(n: Node): string {
    "/* When Key Pressed (ID " + IdText(n) + ") is an event handler, not called in sequential flow. */\n"
  }

  function MissingNext(toId: int, fromId: int, fromPort: string, indent: string): string {
    "\n" + indent + "/* Error: Next node (ID " + Text.IntToString(toId) + ") in exec path from "
      + Text.IntToString(fromId) + "." + fromPort + " not found. */"
  }

  /** The connection leaves port `fromPort` of node `fromId` and carries
      control flow. */
  predicate ExecOut(c: AST.Connection, fromId: int, fromPort: string) {
    c.fromNode == fromId && c.fromPort == fromPort && c.fromPortType == Exec
  }

  /** The connection `generateConnectedExec` follows: the first exec
      connection out of the given port. */
  function ExecEdgeFrom(g: Graph, fromId: int, fromPort: string): (r: Option<AST.Connection>)
    ensures r.Some? ==> r.value in g.connections && ExecOut(r.value, fromId, fromPort)
    ensures r.Some? ==> exists i :: (0 <= i < |g.connections| && g.connections[i] == r.value
      && forall j :: 0 <= j < i ==> !ExecOut(g.connections[j], fromId, fromPort))
    ensures r.None? <==> forall i :: 0 <= i < |g.connections| ==> !ExecOut(g.connections[i], fromId, fromPort)
  {
    match Seqs.FindIndex(g.connections, (c: AST.Connection) => ExecOut(c, fromId, fromPort))
    case Some(i) => Some(g.connections[i])
    case None => None
  }

  datatype Step = Step(text: string, memo: Memo)

  /** `generateExecCode(n, indent, visited)`. `onMain` says whether `visited`
      is the generator's own set, which only the start node's chain outside a
      game loop passes; every nested block starts from a fresh set. */
  function GenExec(g: Graph, n: Node, indent: string, visited: set<int>, onMain: bool, memo: Memo, fuel: nat): (r: Option<Step>)
    ensures r.Some? ==> Extends(memo, r.value.memo)
    decreases fuel, 0
  {
    if fuel == 0 then None
    else
      var k := LD.KindOf(n.nodeType);
      if k == Some(LD.WhenKeyPressed) && onMain then Some(Step(HatInFlow(n), memo))
      else if n.id in visited then Some(Step(LoopDetected(n), memo))
      else
        var ins :- ResolveInputs(g, n, n.inputs, map[], memo, fuel - 1);
        var nl := "\n" + indent;
        var body :- if IsBlock(k) then BlockCode(g, n, k.value, ins.values, indent, ins.memo, fuel - 1)
                    else Some(Step(StatementCode(n, k, ins.values, nl), ins.memo));
        if k == Some(LD.GameLoop) || k == Some(LD.WhenKeyPressed) then Some(body)
        else
          var next :- GenConnected(g, n.id, "out", indent, visited + {n.id}, onMain, body.memo, fuel - 1);
          Some(Step(body.text + next.text, next.memo))
  }

  /** The statement of a `repeat`, `if` or `while` node, its nested blocks
      generated one level deeper from a fresh visited set. */
  function BlockCode(g: Graph, n: Node, k: LD.NodeKind, vals: map<string, Resolved>, indent: string, memo: Memo, fuel: nat): (r: Option<Step>)
    requires IsBlock(Some(k))
    ensures r.Some? ==> Extends(memo, r.value.memo)
    decreases fuel, 2
  {
    var nl := "\n" + indent;
    var inner := indent + "  ";
    if k == LD.Repeat then
      var b :- GenConnected(g, n.id, "body", inner, {}, false, memo, fuel);
      Some(Step(nl + "for (let i = 0; i < (" + Or(vals, "count", "0") + "); i++) {" + b.text + nl + "}", b.memo))
    else if k == LD.If then
      var t :- GenConnected(g, n.id, "then", inner, {}, false, memo, fuel);
      var e :- GenConnected(g, n.id, "else", inner, {}, false, t.memo, fuel);
      Some(Step(nl + "if (" + Or(vals, "condition", "false") + ") {" + t.text + nl + "} else {" + e.text + nl + "}", e.memo))
    else
      var b :- GenConnected(g, n.id, "body", inner, {}, false, memo, fuel);
      Some(Step(WhileHead(n, Or(vals, "condition", "false"), nl) + b.text + nl + "}", b.memo))
  }

  /** `generateConnectedExec(fromId, fromPort, indent, visited)` */
  function GenConnected(g: Graph, fromId: int, fromPort: string, indent: string, visited: set<int>, onMain: bool, memo: Memo, fuel: nat): (r: Option<Step>)
    ensures r.Some? ==> Extends(memo, r.value.memo)
    decreases fuel, 1
  {
    match ExecEdgeFrom(g, fromId, fromPort)
    case None => Some(Step("", memo))
    case Some(c) =>
      match AST.GetNodeById(g, c.toNode)
      case None => Some(Step(MissingNext(c.toNode, fromId, fromPort, indent), memo))
      case Some(next) => GenExec(g, next, indent, visited, onMain, memo, fuel)
  }

  // ---------------------------------------------------------------------
  // Event handlers, function definitions and the game loop
  // ---------------------------------------------------------------------

  /** The trimmed text is empty or opens a block comment. */
  predicate Blank(code: string) {
    Text.Trim(code) == "" || Text.StartsWith(Text.Trim(code), "/*")
  }

  /** The key a `whenKeyPressed` node listens to: its `key` input resolved
      against an empty cache, one pair of outer quotes removed, lower-cased;
      `space` when the node has no `key` input. */
  function KeyName(g: Graph, hat: Node, fuel: nat): Option<string> {
    match FindPort(hat.inputs, "key")
    case None => Some(Text.ToLower("space"))
    case Some(_) =>
      var r :- Resolve(g, hat, "key", map[], fuel);
      Some(Text.ToLower(Text.StripOuterQuotes(Show(r.value))))
  }

  function HandlerName(id: int, key: string): string {
    "handleKeyPress_node" + Text.IntToString(id) + "_" + Text.SanitizeKey(key)
  }

  function NoActions(key: string, id: int): string {
    "/* 'When Key Pressed' for \"" + key + "\" (ID " + Text.IntToString(id) + ") has no actions connected or actions were skipped. */\n"
  }

  function Registration(id: int, key: string, action: string): string {
    var h := HandlerName(id, key);
    var ids := Text.IntToString(id);
    "function " + h + "() {\n"
    + "  // console.log('Key \"" + key + "\" pressed, executing handler " + h + " from node ID " + ids + "');\n"
    + action + "\n"
    + "}\n"
    + "if (typeof registerKeyPressAction === 'function') { registerKeyPressAction(\"" + key + "\", " + h + "); }\n"
    + "else { console.warn(\"'registerKeyPressAction' not available. Cannot register key event for node ID " + ids + ".\"); }\n"
  }

  /** `generateEventHandlerRegistration(hat)`: the cache is set aside while
      the key is resolved, then the actions after `out` are generated. */
  function Handler(g: Graph, hat: Node, memo: Memo, fuel: nat): (r: Option<Step>)
    ensures r.Some? ==> Extends(memo, r.value.memo)
  {
    var key :- KeyName(g, hat, fuel);
    var action :- GenConnected(g, hat.id, "out", "    ", {}, false, memo, fuel);
    if Blank(action.text) then Some(Step(NoActions(key, hat.id), action.memo))
    else Some(Step(Registration(hat.id, key, action.text), action.memo))
  }

  function Handlers(g: Graph, hats: seq<Node>, memo: Memo, fuel: nat): (r: Option<Step>)
    ensures r.Some? ==> Extends(memo, r.value.memo)
  {
    if |hats| == 0 then Some(Step("", memo))
    else
      var h :- Handler(g, hats[0], memo, fuel);
      var rest :- Handlers(g, hats[1..], h.memo, fuel);
      Some(Step(h.text + rest.text, rest.memo))
  }

  datatype Defs = Defs(text: string, defined: set<int>, memo: Memo)

  function InvalidName(resolved: string, id: int): string {
    "/* Invalid function name: " + resolved + " (Node ID " + Text.IntToString(id) + "). Skipping definition. */\n"
  }

  /** `generateFunctionDefinition(f)`: nothing for an id already defined;
      otherwise its name is resolved and checked, and its body generated. */
  function FunctionDefinition(g: Graph, f: Node, defined: set<int>, memo: Memo, fuel: nat): (r: Option<Defs>)
    ensures r.Some? ==> r.value.defined == defined + {f.id} && Extends(memo, r.value.memo)
  {
    if f.id in defined then Some(Defs("", defined, memo))
    else
      var r :- Resolve(g, f, "name", memo, fuel);
      var name := Text.StripOuterQuotes(Show(r.value));
      if name == "" || !Text.IsIdentifier(name) then Some(Defs(InvalidName(Show(r.value), f.id), defined + {f.id}, r.memo))
      else
        var b :- GenConnected(g, f.id, "body", "  ", {}, false, r.memo, fuel);
        Some(Defs("\nfunction " + name + "() {\n" + b.text + "}\n", defined + {f.id}, b.memo))
  }

  function FunctionDefinitions(g: Graph, fs: seq<Node>, defined: set<int>, memo: Memo, fuel: nat): (r: Option<Defs>)
    ensures r.Some? ==> Extends(memo, r.value.memo)
  {
    if |fs| == 0 then Some(Defs("", defined, memo))
    else
      var d :- FunctionDefinition(g, fs[0], defined, memo, fuel);
      var rest :- FunctionDefinitions(g, fs[1..], d.defined, d.memo, fuel);
      Some(Defs(d.text + rest.text, rest.defined, rest.memo))
  }

  const TickHead := "\nfunction gameLoopTick_generated(timestamp) {\n"
    + "  if (!isGameLoopRunning) { if(animationFrameId_gameLoop) { cancelAnimationFrame(animationFrameId_gameLoop); } return; }\n"

  const TickTail := "  animationFrameId_gameLoop = requestAnimationFrame(gameLoopTick_generated);\n"
    + "}\n\n"
    + "function startGameLoop_generated() {\n"
    + "  if (animationFrameId_gameLoop) { cancelAnimationFrame(animationFrameId_gameLoop); }\n"
    + "  isGameLoopRunning = true;\n"
    + "  animationFrameId_gameLoop = requestAnimationFrame(gameLoopTick_generated);\n"
    + "  console.log(\"NodeCanvas Game Loop Started\");\n"
    + "}\n\n"
    + "function stopGameLoop_generated() {\n"
    + "  isGameLoopRunning = false;\n"
    + "  if (animationFrameId_gameLoop) { cancelAnimationFrame(animationFrameId_gameLoop); animationFrameId_gameLoop = null; }\n"
    + "  console.log(\"NodeCanvas Game Loop Stopped\");\n"
    + "}\n\n"
    + "if (typeof startGameLoop_generated === 'function') { startGameLoop_generated(); }\n"

  /** `generateGameLoop(gl)`: the actions after `tick` inside the frame
      callback, followed by the start and stop functions. */
  function GameLoop(g: Graph, gl: Node, memo: Memo, fuel: nat): (r: Option<Step>)
    ensures r.Some? ==> Extends(memo, r.value.memo)
  {
    var c :- GenConnected(g, gl.id, "tick", "  ", {}, false, memo, fuel);
    Some(Step(TickHead + c.text + TickTail, c.memo))
  }

  // ---------------------------------------------------------------------
  // generateCode
  // ---------------------------------------------------------------------

  predicate IsStartNode(n: Node) { LD.KindOf(n.nodeType) == Some(LD.Start) }
  predicate IsGameLoopNode(n: Node) { LD.KindOf(n.nodeType) == Some(LD.GameLoop) }
  predicate IsHat(n: Node) { LD.KindOf(n.nodeType) == Some(LD.WhenKeyPressed) }
  predicate IsFunctionNode(n: Node) { LD.KindOf(n.nodeType) == Some(LD.Function) }

  const NoEntry := "// No Start Flag, Game Loop, " + "or Event nodes found. Add one " + "to begin your program!\n// Nothing to run."

  const Banner := "\n// --- Event Handler Registrations & Main Program Logic ---\n" + "ensureAudioContext();\n"

  datatype MainPart = MainPart(setup: string, main: string)

  /** With a game loop: the start node's chain as one-time setup (kept only
      if it is not blank), then the loop. Without one: the start node's chain
      on the generator's own visited set. */
  function MainCode(g: Graph, gameLoop: Option<Node>, start: Option<Node>, memo: Memo, fuel: nat): Option<MainPart> {
    match gameLoop
    case Some(gl) =>
      var setup :- (match start
                    case Some(s) => GenExec(g, s, "", {}, false, memo, fuel)
                    case None => Some(Step("", memo)));
      var loop :- GameLoop(g, gl, setup.memo, fuel);
      var kept := if start.Some? && !Blank(setup.text) then
                    "\n// --- One-time Setup from Start Node ---\n" + setup.text + "\n// --- End of One-time Setup ---\n"
                  else "";
      Some(MainPart(kept, loop.text))
    case None =>
      match start
      case Some(s) =>
        var m :- GenExec(g, s, "", {}, true, memo, fuel);
        Some(MainPart("", m.text))
      case None => Some(MainPart("", ""))
  }

  /** The closing comment: which one depends on whether the main code is
      blank and whether anything else will run later. */
  function Closing(main: string, hats: nat, hasLoop: bool): string {
    if Text.Trim(main) == "" && hats == 0 && !hasLoop then
      "\n// console.log('NodeCanvas script finished (no active execution paths found).');"
    else if Text.Trim(main) == "" && (hats > 0 || hasLoop) then
      "\n// console.log('NodeCanvas script setup complete. Awaiting events or game loop ticks.');"
    else ""
  }

  /** `generateCode(ast)`. `preamble` is the fixed header the generator
      writes first (its time stamp, variables, sound helpers and canvas
      set-up). The cache and the defined-function set start empty. */
  function GenerateCode(g: Graph, preamble: string, fuel: nat): Option<string> {
    var gameLoop := Seqs.Find(g.nodes, IsGameLoopNode);
    var hats := Seqs.Filter(g.nodes, IsHat);
    var start := Seqs.Find(g.nodes, IsStartNode);
    if gameLoop.None? && start.None? && |hats| == 0 then Some(NoEntry)
    else Program(g, preamble, Seqs.Filter(g.nodes, IsFunctionNode), hats, gameLoop, start, fuel)
  }

  /** The program after the entry points are found: the preamble, the
      function definitions, the key handlers, then the main code. */
  function Program(g: Graph, preamble: string, functions: seq<Node>, hats: seq<Node>,
                   gameLoop: Option<Node>, start: Option<Node>, fuel: nat): Option<string> {
    var defs :- FunctionDefinitions(g, functions, {}, map[], fuel);
    var hs :- Handlers(g, hats, defs.memo, fuel);
    var m :- MainCode(g, gameLoop, start, hs.memo, fuel);
    Some(preamble + defs.text + AfterDefinitions(hs.text, m, |hats|, gameLoop.Some?))
  }

  /** The banner, the key handlers, the main code and the closing comment. */
  function AfterDefinitions(handlers: string, m: MainPart, hats: nat, hasLoop: bool): string {
    Banner + handlers + m.setup + m.main + Closing(m.main, hats, hasLoop)
  }
}
