/** Properties of the newer generator's text: what a connected source
    supplies, loop guards, key handlers, function definitions and the entry
    points of `generateCode`. */
module CodeGeneratorOutput {
  import opened Wrappers
  import opened Schema
  import Seqs
  import Text
  import LD = LanguageDefinition
  import AST = AbstractSyntaxTree
  import opened CodeGenerator
  import CodeGeneratorResolution

  // ---------------------------------------------------------------------
  // What a connected source supplies
  // ---------------------------------------------------------------------

  predicate IsDataPort(p: Port) {
    p.portType == Data
  }

  /** The blueprint declares a data output. */
  predicate DataOut(bp: Blueprint) {
    Seqs.FindIndex(OutputsOf(bp), IsDataPort).Some?
  }

  /** The registered kinds a data connection can usefully start from: the
      literals, sensors and operators, and `getVariable`. */
  predicate Supplies(k: LD.NodeKind) {
    k == LD.GetVariable || LD.SectionOf(k) == LD.Values || LD.SectionOf(k) == LD.Operators
  }

  lemma FlowOutputs(k: LD.NodeKind)
    requires LD.SectionOf(k) == LD.Flow
    ensures !DataOut(LD.Config(k))
  {
    assert LD.Config(k) == LD.FlowConfig(k);
    if k == LD.Start {
      assert !DataOut(LD.StartConfig(k));
    } else if k == LD.GameLoop {
      assert !DataOut(LD.GameLoopConfig(k));
    } else if k == LD.WhenKeyPressed {
      assert !DataOut(LD.WhenKeyPressedConfig(k));
    } else if k == LD.Repeat {
      assert !DataOut(LD.RepeatConfig(k));
    } else if k == LD.If {
      assert !DataOut(LD.IfConfig(k));
    } else {
      assert !DataOut(LD.WhileConfig(k));
    }
  }

  lemma PenOutputs(k: LD.NodeKind)
    requires LD.SectionOf(k) == LD.Pen
    ensures !DataOut(LD.Config(k))
  {
    assert LD.Config(k) == LD.PenConfig(k);
    if k == LD.MoveTo {
      assert !DataOut(LD.MoveToConfig(k));
    } else if k == LD.LineTo {
      assert !DataOut(LD.LineToConfig(k));
    } else if k == LD.SetColor {
      assert !DataOut(LD.SetColorConfig(k));
    } else if k == LD.SetPenWidth {
      assert !DataOut(LD.SetPenWidthConfig(k));
    } else if k == LD.DrawCircle {
      assert !DataOut(LD.DrawCircleConfig(k));
    } else if k == LD.DrawRectangle {
      assert !DataOut(LD.DrawRectangleConfig(k));
    } else {
      assert !DataOut(LD.ClearCanvasConfig(k));
    }
  }

  lemma SpriteOutputs(k: LD.NodeKind)
    requires LD.SectionOf(k) == LD.Sprite
    ensures !DataOut(LD.Config(k))
  {
    assert LD.Config(k) == LD.SpriteConfig(k);
    if k == LD.DrawText {
      assert !DataOut(LD.DrawTextConfig(k));
    } else if k == LD.Say {
      assert !DataOut(LD.SayConfig(k));
    } else if k == LD.ChangeXBy {
      assert !DataOut(LD.ChangeXByConfig(k));
    } else if k == LD.SetXTo {
      assert !DataOut(LD.SetXToConfig(k));
    } else if k == LD.ChangeYBy {
      assert !DataOut(LD.ChangeYByConfig(k));
    } else {
      assert !DataOut(LD.SetYToConfig(k));
    }
  }

  lemma ProceduresOutputs(k: LD.NodeKind)
    requires LD.SectionOf(k) == LD.Procedures
    ensures DataOut(LD.Config(k)) <==> k == LD.GetVariable
  {
    assert LD.Config(k) == LD.ProceduresConfig(k);
    if k == LD.Function {
      assert !DataOut(LD.FunctionConfig(k));
    } else if k == LD.CallFunction {
      assert !DataOut(LD.CallFunctionConfig(k));
    } else if k == LD.PlaySound {
      assert !DataOut(LD.PlaySoundConfig(k));
    } else if k == LD.SetVariable {
      assert !DataOut(LD.SetVariableConfig(k));
    } else {
      assert DataOut(LD.GetVariableConfig(k));
    }
  }

  lemma ValuesOutputs(k: LD.NodeKind)
    requires LD.SectionOf(k) == LD.Values
    ensures DataOut(LD.Config(k))
  {
  }

  lemma OperatorsOutputs(k: LD.NodeKind)
    requires LD.SectionOf(k) == LD.Operators
    ensures DataOut(LD.Config(k))
  {
  }

  /** The kinds that supply a value are exactly those with a data output. */
  lemma KindSupplies(k: LD.NodeKind)
    ensures Supplies(k) <==> DataOut(LD.Config(k))
  {
    match LD.SectionOf(k)
    case Flow => FlowOutputs(k);
    case Pen => PenOutputs(k);
    case Sprite => SpriteOutputs(k);
    case Procedures => ProceduresOutputs(k);
    case Values => ValuesOutputs(k);
    case Operators => OperatorsOutputs(k);
  }

  lemma SuppliedIffSupplies(src: Node, k: LD.NodeKind, vals: seq<Resolved>)
    requires |vals| == |Operands(Some(k))|
    ensures Supplied(src, Some(k), vals).Some? <==> Supplies(k)
  {
  }

  /** A connected source supplies a value exactly when the blueprint of its
      type declares a data output; any other source, registered or not,
      leaves the input to its own declaration. */
  lemma SuppliesIffDataOutput(src: Node, vals: seq<Resolved>)
    requires |vals| == |Operands(LD.KindOf(src.nodeType))|
    ensures Supplied(src, LD.KindOf(src.nodeType), vals).Some? <==> DataOut(LD.ConfigByType(src.nodeType))
  {
    match LD.KindOf(src.nodeType)
    case None =>
    case Some(k) =>
      SuppliedIffSupplies(src, k, vals);
      KindSupplies(k);
  }

  lemma OperandsOnlyForSuppliers(k: Option<LD.NodeKind>)
    requires |Operands(k)| > 0
    ensures k.Some? && Supplies(k.value)
  {
  }

  /** A source that supplies nothing adds nothing to the cache. */
  lemma SilentSource(g: Graph, src: Node, memo: Memo, fuel: nat)
    requires !DataOut(LD.ConfigByType(src.nodeType))
    ensures Source(g, src, memo, fuel) == Some(Sourced(None, memo))
  {
    var k := LD.KindOf(src.nodeType);
    if |Operands(k)| > 0 {
      OperandsOnlyForSuppliers(k);
      KindSupplies(k.value);
      assert false;
    }
    SuppliesIffDataOutput(src, []);
  }

  /** An input fed by a node whose type has no data output (a statement, or
      an unregistered type) takes the value its own declaration gives it. */
  lemma SilentSourceFallsBack(g: Graph, n: Node, input: string, memo: Memo, c: AST.Connection, src: Node, fuel: nat)
    requires fuel > 0 && KeyOf(n, input) !in memo
    requires AST.GetConnectionToInput(g, n.id, input) == Some(c) && AST.GetNodeById(g, c.fromNode) == Some(src)
    requires !DataOut(LD.ConfigByType(src.nodeType))
    ensures Resolve(g, n, input, memo, fuel) == Some(Store(memo, KeyOf(n, input), Declared(n, input)))
  {
    var less: int := fuel - 1;
    CodeGeneratorResolution.ResolveUnfold(g, n, input, memo, c, src, fuel, less);
    SilentSource(g, src, memo, less);
  }

  // ---------------------------------------------------------------------
  // Loop guards
  // ---------------------------------------------------------------------

  /** A `while` loop starts by declaring its counter. */
  lemma WhileHeadDeclares(n: Node, cond: string, nl: string, body: string)
    ensures Text.StartsWith(WhileHead(n, cond, nl) + body + nl + "}", WhileDecl(n, nl))
  {
    var decl := WhileDecl(n, nl);
    Text.StartsWithConcat(decl, nl);
    var t := decl + nl;
    Text.StartsWithAppend(t, decl, "while (");
    t := t + "while (";
    Text.StartsWithAppend(t, decl, cond);
    t := t + cond;
    Text.StartsWithAppend(t, decl, ") {");
    t := t + ") {";
    Text.StartsWithAppend(t, decl, nl);
    t := t + nl;
    Text.StartsWithAppend(t, decl, "  ");
    t := t + "  ";
    Text.StartsWithAppend(t, decl, WhileLimit(n));
    t := t + WhileLimit(n);
    Text.StartsWithAppend(t, decl, WhileWarning(n));
    t := t + WhileWarning(n);
    Text.StartsWithAppend(t, decl, body);
    t := t + body;
    Text.StartsWithAppend(t, decl, nl);
    t := t + nl;
    Text.StartsWithAppend(t, decl, "}");
  }

  /** The first statement of a `while` loop's body tests its counter. */
  lemma WhileHeadLimits(n: Node, cond: string, nl: string, body: string)
    ensures Text.Contains(WhileHead(n, cond, nl) + body + nl + "}", WhileLimit(n))
  {
    var pre := WhileDecl(n, nl) + nl + "while (" + cond + ") {" + nl + "  ";
    Text.ContainsSuffix(pre, WhileLimit(n));
    var t := pre + WhileLimit(n);
    Text.ContainsAppend(t, WhileLimit(n), WhileWarning(n));
    t := t + WhileWarning(n);
    Text.ContainsAppend(t, WhileLimit(n), body);
    t := t + body;
    Text.ContainsAppend(t, WhileLimit(n), nl);
    t := t + nl;
    Text.ContainsAppend(t, WhileLimit(n), "}");
  }

  /** Every `while` loop is emitted with its iteration guard: the counter is
      declared before the loop and tested at the top of its body, whatever
      the condition and the body are. */
  lemma WhileGuarded(g: Graph, n: Node, vals: map<string, Resolved>, indent: string, memo: Memo, fuel: nat)
    ensures BlockCode(g, n, LD.While, vals, indent, memo, fuel).Some? ==>
      && Text.StartsWith(BlockCode(g, n, LD.While, vals, indent, memo, fuel).value.text, WhileDecl(n, "\n" + indent))
      && Text.Contains(BlockCode(g, n, LD.While, vals, indent, memo, fuel).value.text, WhileLimit(n))
  {
    var b := GenConnected(g, n.id, "body", indent + "  ", {}, false, memo, fuel);
    if b.Some? {
      WhileHeadDeclares(n, Or(vals, "condition", "false"), "\n" + indent, b.value.text);
      WhileHeadLimits(n, Or(vals, "condition", "false"), "\n" + indent, b.value.text);
    }
  }

  // ---------------------------------------------------------------------
  // Key handlers
  // ---------------------------------------------------------------------

  /** The handler name is a JavaScript identifier exactly when the node id
      is not negative: the key is sanitised to word characters, but a minus
      sign in the id is kept. */
  lemma HandlerNameIsIdentifier(id: int, key: string)
    ensures Text.IsIdentifier(HandlerName(id, key)) <==> id >= 0
  {
    var h := HandlerName(id, key);
    var prefix := "handleKeyPress_node";
    var digits := Text.IntToString(id);
    Text.IntToStringDigits(id);
    var tail := "_" + Text.SanitizeKey(key);
    assert h == prefix + digits + tail;
    assert |prefix| == 19;
    if id >= 0 {
      forall i | 1 <= i < |h| ensures Text.IsIdentifierPart(h[i]) {
        if i < 19 {
          assert h[i] == prefix[i];
        } else if i < 19 + |digits| {
          assert h[i] == digits[i - 19];
        } else {
          assert h[i] == tail[i - 19 - |digits|];
        }
      }
    } else {
      assert h[19] == '-';
    }
  }

  /** A key handler without actions: nothing is registered, and a comment
      names the key. */
  lemma HatWithoutActions(g: Graph, hat: Node, memo: Memo, fuel: nat, key: string)
    requires ExecEdgeFrom(g, hat.id, "out").None?
    requires KeyName(g, hat, fuel) == Some(key)
    ensures Handler(g, hat, memo, fuel) == Some(Step(NoActions(key, hat.id), memo))
  {
    assert GenConnected(g, hat.id, "out", "    ", {}, false, memo, fuel) == Some(Step("", memo));
    BlankEmpty();
  }

  lemma BlankEmpty()
    ensures Blank("")
  {
  }

  /** A text default on a text port is emitted as a JSON string literal. */
  lemma QuotedDefault(port: Port, s: string)
    requires port.default == Some(VStr(s)) && port.dataType == DString
    ensures Unconnected(port) == RText(Text.Quote(s))
  {
  }

  /** An unconnected `key` input with a plain text default: the handler
      listens to that text, lower-cased, the quotes the resolution added
      being removed again. */
  lemma KeyFromDefault(g: Graph, hat: Node, port: Port, s: string, fuel: nat)
    requires FindPort(hat.inputs, "key") == Some(port)
    requires port.default == Some(VStr(s)) && port.dataType == DString
    requires forall i :: 0 <= i < |s| ==> Text.IsPlainJsonChar(s[i])
    requires AST.GetConnectionToInput(g, hat.id, "key").None? && fuel > 0
    ensures KeyName(g, hat, fuel) == Some(Text.ToLower(s))
  {
    QuotedDefault(port, s);
    assert Resolve(g, hat, "key", map[], fuel) == Some(Store(map[], KeyOf(hat, "key"), RText(Text.Quote(s))));
    Text.StripOuterQuotesOfQuote(s);
  }

  // ---------------------------------------------------------------------
  // Function definitions
  // ---------------------------------------------------------------------

  /** One step of `FunctionDefinitions`: the first node, then the rest. */
  lemma DefinitionsStep(g: Graph, fs: seq<Node>, defined: set<int>, memo: Memo, fuel: nat)
    requires |fs| > 0
    ensures FunctionDefinitions(g, fs, defined, memo, fuel) ==
      match FunctionDefinition(g, fs[0], defined, memo, fuel)
      case None => None
      case Some(d) =>
        match FunctionDefinitions(g, fs[1..], d.defined, d.memo, fuel)
        case None => None
        case Some(r) => Some(Defs(d.text + r.text, r.defined, r.memo))
  {
  }

  /** Function nodes whose ids are all defined already add nothing. */
  lemma {:induction false} DefinedAreSkipped(g: Graph, fs: seq<Node>, defined: set<int>, memo: Memo, fuel: nat)
    requires forall i :: 0 <= i < |fs| ==> fs[i].id in defined
    ensures FunctionDefinitions(g, fs, defined, memo, fuel) == Some(Defs("", defined, memo))
    decreases |fs|
  {
    if |fs| > 0 {
      DefinitionsStep(g, fs, defined, memo, fuel);
      assert FunctionDefinition(g, fs[0], defined, memo, fuel) == Some(Defs("", defined, memo));
      DefinedAreSkipped(g, fs[1..], defined, memo, fuel);
      assert "" + "" == "";
    }
  }

  /** Appending what `rest` generates to the definitions `d`. */
  function Join(d: Defs, rest: Option<Defs>): Option<Defs> {
    match rest
    case None => None
    case Some(e) => Some(Defs(d.text + e.text, e.defined, e.memo))
  }

  predicate AppendHolds(g: Graph, a: seq<Node>, b: seq<Node>, defined: set<int>, memo: Memo, fuel: nat) {
    FunctionDefinitions(g, a + b, defined, memo, fuel) ==
      match FunctionDefinitions(g, a, defined, memo, fuel)
      case None => None
      case Some(d) => Join(d, FunctionDefinitions(g, b, d.defined, d.memo, fuel))
  }

  lemma AppendNil(g: Graph, a: seq<Node>, b: seq<Node>, defined: set<int>, memo: Memo, fuel: nat)
    requires |a| == 0
    ensures AppendHolds(g, a, b, defined, memo, fuel)
  {
    assert a + b == b;
    var e := FunctionDefinitions(g, b, defined, memo, fuel);
    if e.Some? {
      assert "" + e.value.text == e.value.text;
    }
  }

  lemma AppendCons(g: Graph, a: seq<Node>, b: seq<Node>, defined: set<int>, memo: Memo, fuel: nat)
    requires |a| > 0
    requires FunctionDefinition(g, a[0], defined, memo, fuel).Some? ==>
      AppendHolds(g, a[1..], b, FunctionDefinition(g, a[0], defined, memo, fuel).value.defined,
                  FunctionDefinition(g, a[0], defined, memo, fuel).value.memo, fuel)
    ensures AppendHolds(g, a, b, defined, memo, fuel)
  {
    Seqs.AppendHeadTail(a, b);
    DefinitionsStep(g, a + b, defined, memo, fuel);
    DefinitionsStep(g, a, defined, memo, fuel);
    var d0 := FunctionDefinition(g, a[0], defined, memo, fuel);
    if d0.Some? {
      var d := d0.value;
      var d1 := FunctionDefinitions(g, a[1..], d.defined, d.memo, fuel);
      assert FunctionDefinitions(g, a, defined, memo, fuel) == Join(d, d1);
      assert FunctionDefinitions(g, a + b, defined, memo, fuel) == Join(d, FunctionDefinitions(g, a[1..] + b, d.defined, d.memo, fuel));
      if d1.Some? {
        var e := FunctionDefinitions(g, b, d1.value.defined, d1.value.memo, fuel);
        assert FunctionDefinitions(g, a[1..] + b, d.defined, d.memo, fuel) == Join(d1.value, e);
        JoinAssoc(d, d1.value, e);
      }
    }
  }

  lemma JoinAssoc(d: Defs, d1: Defs, e: Option<Defs>)
    ensures Join(d, Join(d1, e)) == Join(Defs(d.text + d1.text, d1.defined, d1.memo), e)
  {
    if e.Some? {
      assert d.text + (d1.text + e.value.text) == (d.text + d1.text) + e.value.text;
    }
  }

  /** The definitions of `a + b` are those of `a` followed by those of `b`,
      generated with the ids and the cache `a` left behind. */
  lemma {:induction false} DefinitionsAppend(g: Graph, a: seq<Node>, b: seq<Node>, defined: set<int>, memo: Memo, fuel: nat)
    ensures FunctionDefinitions(g, a + b, defined, memo, fuel) ==
      match FunctionDefinitions(g, a, defined, memo, fuel)
      case None => None
      case Some(d) => Join(d, FunctionDefinitions(g, b, d.defined, d.memo, fuel))
    decreases |a|
  {
    if |a| == 0 {
      AppendNil(g, a, b, defined, memo, fuel);
    } else {
      var d0 := FunctionDefinition(g, a[0], defined, memo, fuel);
      if d0.Some? {
        DefinitionsAppend(g, a[1..], b, d0.value.defined, d0.value.memo, fuel);
      }
      AppendCons(g, a, b, defined, memo, fuel);
    }
  }

  /** Generating the definitions of `fs` marks exactly their ids as defined,
      in addition to those defined before. */
  lemma {:induction false} DefinitionsRecordIds(g: Graph, fs: seq<Node>, defined: set<int>, memo: Memo, fuel: nat)
    ensures FunctionDefinitions(g, fs, defined, memo, fuel).Some? ==>
      FunctionDefinitions(g, fs, defined, memo, fuel).value.defined == defined + NodeIds(fs)
    decreases |fs|
  {
    if |fs| > 0 {
      DefinitionsStep(g, fs, defined, memo, fuel);
      var d0 := FunctionDefinition(g, fs[0], defined, memo, fuel);
      if d0.Some? {
        DefinitionsRecordIds(g, fs[1..], d0.value.defined, d0.value.memo, fuel);
        NodeIdsCons(fs);
      }
    }
  }

  /** Each function node is defined once, however often it is listed. */
  lemma DefinedOnce(g: Graph, fs: seq<Node>, memo: Memo, fuel: nat)
    ensures FunctionDefinitions(g, fs + fs, {}, memo, fuel) == FunctionDefinitions(g, fs, {}, memo, fuel)
  {
    DefinitionsAppend(g, fs, fs, {}, memo, fuel);
    DefinitionsRecordIds(g, fs, {}, memo, fuel);
    var r := FunctionDefinitions(g, fs, {}, memo, fuel);
    if r.Some? {
      var d := r.value;
      assert forall i :: 0 <= i < |fs| ==> fs[i].id in NodeIds(fs);
      DefinedAreSkipped(g, fs, d.defined, d.memo, fuel);
      assert d.text + "" == d.text;
      assert Join(d, Some(Defs("", d.defined, d.memo))) == Some(d);
    }
  }

  /** The characters of an identifier need no escaping in a JSON string. */
  lemma IdentifierIsPlain(s: string)
    requires Text.IsIdentifier(s)
    ensures forall i :: 0 <= i < |s| ==> Text.IsPlainJsonChar(s[i])
  {
  }

  /** An input with no connection into it resolves to its declaration,
      which is then cached. */
  lemma UnconnectedResolve(g: Graph, n: Node, input: string, memo: Memo, fuel: nat)
    requires fuel > 0 && KeyOf(n, input) !in memo && AST.GetConnectionToInput(g, n.id, input).None?
    ensures Resolve(g, n, input, memo, fuel) == Some(Store(memo, KeyOf(n, input), Declared(n, input)))
  {
  }

  /** A function node whose name resolves to an identifier, once its outer
      quotes are removed, opens a function of that name. */
  lemma NamedDefinition(g: Graph, f: Node, defined: set<int>, memo: Memo, fuel: nat, v: Res, name: string)
    requires f.id !in defined && Resolve(g, f, "name", memo, fuel) == Some(v)
    requires name == Text.StripOuterQuotes(Show(v.value)) && Text.IsIdentifier(name)
    ensures FunctionDefinition(g, f, defined, memo, fuel).Some? ==>
      Text.StartsWith(FunctionDefinition(g, f, defined, memo, fuel).value.text, "\nfunction " + name + "() {\n")
  {
    var b := GenConnected(g, f.id, "body", "  ", {}, false, v.memo, fuel);
    if b.Some? {
      var head := "\nfunction " + name + "() {\n";
      assert FunctionDefinition(g, f, defined, memo, fuel).value.text == head + b.value.text + "}\n";
      Text.StartsWithConcat(head, b.value.text);
      Text.StartsWithAppend(head + b.value.text, head, "}\n");
    }
  }

  /** A function node whose unconnected `name` input has an identifier as its
      text default is defined under that very name: the quotes added when
      the default is resolved are taken off again. */
  lemma FunctionNamedByDefault(g: Graph, f: Node, port: Port, s: string, defined: set<int>, memo: Memo, fuel: nat)
    requires f.id !in defined && KeyOf(f, "name") !in memo && fuel > 0
    requires FindPort(f.inputs, "name") == Some(port) && port.default == Some(VStr(s)) && port.dataType == DString
    requires Text.IsIdentifier(s) && AST.GetConnectionToInput(g, f.id, "name").None?
    ensures FunctionDefinition(g, f, defined, memo, fuel).Some? ==>
      Text.StartsWith(FunctionDefinition(g, f, defined, memo, fuel).value.text, "\nfunction " + s + "() {\n")
  {
    QuotedDefault(port, s);
    UnconnectedResolve(g, f, "name", memo, fuel);
    var v := Store(memo, KeyOf(f, "name"), RText(Text.Quote(s)));
    IdentifierIsPlain(s);
    Text.StripOuterQuotesOfQuote(s);
    NamedDefinition(g, f, defined, memo, fuel, v, s);
  }

  /** A name that is not an identifier once its outer quotes are removed
      (the empty name among them) is reported in a comment that shows the
      resolved text; no body is generated, and the id counts as defined. */
  lemma InvalidNameSkipped(g: Graph, f: Node, defined: set<int>, memo: Memo, fuel: nat, v: Res)
    requires f.id !in defined && Resolve(g, f, "name", memo, fuel) == Some(v)
    requires !Text.IsIdentifier(Text.StripOuterQuotes(Show(v.value)))
    ensures FunctionDefinition(g, f, defined, memo, fuel) == Some(Defs(InvalidName(Show(v.value), f.id), defined + {f.id}, v.memo))
  {
  }

  // ---------------------------------------------------------------------
  // Entry points
  // ---------------------------------------------------------------------

  predicate IsEntry(n: Node) {
    IsStartNode(n) || IsGameLoopNode(n) || IsHat(n)
  }

  predicate HasEntry(g: Graph) {
    exists i :: 0 <= i < |g.nodes| && IsEntry(g.nodes[i])
  }

  /** The three searches `generateCode` makes for entry points find
      something exactly when the graph has an entry point. */
  lemma EntrySearch(g: Graph)
    ensures HasEntry(g) <==>
      Seqs.Find(g.nodes, IsGameLoopNode).Some? || Seqs.Find(g.nodes, IsStartNode).Some? || |Seqs.Filter(g.nodes, IsHat)| > 0
  {
    var hats := Seqs.Filter(g.nodes, IsHat);
    if HasEntry(g) {
      var i :| 0 <= i < |g.nodes| && IsEntry(g.nodes[i]);
      if IsHat(g.nodes[i]) {
        assert g.nodes[i] in hats;
      }
    }
    if |hats| > 0 {
      assert hats[0] in g.nodes;
    }
  }

  /** A graph without a start, game loop or key node yields only the notice
      that there is nothing to run. */
  lemma NoEntryPoints(g: Graph, preamble: string, fuel: nat)
    ensures !HasEntry(g) ==> GenerateCode(g, preamble, fuel) == Some(NoEntry)
  {
    EntrySearch(g);
  }

  /** The notice that there is nothing to run has no parenthesis... */
  lemma NoEntryHasNoParen()
    ensures '(' !in NoEntry
  {
  }

  /** ...while the banner that follows the definitions has one. */
  lemma AfterDefinitionsHasParen(handlers: string, m: MainPart, hats: nat, hasLoop: bool)
    ensures '(' in AfterDefinitions(handlers, m, hats, hasLoop)
  {
    var t := AfterDefinitions(handlers, m, hats, hasLoop);
    assert Banner[79] == '(';
    assert t[79] == '(';
  }

  /** So no program is the notice. */
  lemma ProgramIsNotNoEntry(g: Graph, preamble: string, functions: seq<Node>, hats: seq<Node>,
                            gameLoop: Option<Node>, start: Option<Node>, fuel: nat)
    ensures Program(g, preamble, functions, hats, gameLoop, start, fuel) != Some(NoEntry)
  {
    var p := Program(g, preamble, functions, hats, gameLoop, start, fuel);
    if p.Some? {
      var defs := FunctionDefinitions(g, functions, {}, map[], fuel).value;
      var hs := Handlers(g, hats, defs.memo, fuel).value;
      var m := MainCode(g, gameLoop, start, hs.memo, fuel).value;
      var rest := AfterDefinitions(hs.text, m, |hats|, gameLoop.Some?);
      assert p.value == (preamble + defs.text) + rest;
      AfterDefinitionsHasParen(hs.text, m, |hats|, gameLoop.Some?);
      NoEntryHasNoParen();
      InTail(preamble + defs.text, rest, '(');
    }
  }

  lemma InTail(a: string, b: string, c: char)
    requires c in b
    ensures c in a + b
  {
    var k :| 0 <= k < |b| && b[k] == c;
    assert (a + b)[|a| + k] == c;
  }

  /** `generateCode` answers with the notice that there is nothing to run
      exactly when the graph has no start, game loop or key node. */
  lemma NoEntryIff(g: Graph, preamble: string, fuel: nat)
    ensures GenerateCode(g, preamble, fuel) == Some(NoEntry) <==> !HasEntry(g)
  {
    EntrySearch(g);
    ProgramIsNotNoEntry(g, preamble, Seqs.Filter(g.nodes, IsFunctionNode), Seqs.Filter(g.nodes, IsHat),
                        Seqs.Find(g.nodes, IsGameLoopNode), Seqs.Find(g.nodes, IsStartNode), fuel);
  }

  /** The preamble is followed at once by every function definition. */
  lemma ProgramOpensWithDefinitions(g: Graph, preamble: string, functions: seq<Node>, hats: seq<Node>,
                                    gameLoop: Option<Node>, start: Option<Node>, fuel: nat)
    ensures Program(g, preamble, functions, hats, gameLoop, start, fuel).Some? ==>
      && FunctionDefinitions(g, functions, {}, map[], fuel).Some?
      && Text.StartsWith(Program(g, preamble, functions, hats, gameLoop, start, fuel).value,
                         preamble + FunctionDefinitions(g, functions, {}, map[], fuel).value.text)
  {
    var fd := FunctionDefinitions(g, functions, {}, map[], fuel);
    if fd.Some? {
      var hs := Handlers(g, hats, fd.value.memo, fuel);
      if hs.Some? {
        var m := MainCode(g, gameLoop, start, hs.value.memo, fuel);
        if m.Some? {
          var rest := AfterDefinitions(hs.value.text, m.value, |hats|, gameLoop.Some?);
          assert Program(g, preamble, functions, hats, gameLoop, start, fuel) == Some((preamble + fd.value.text) + rest);
          Text.StartsWithConcat(preamble + fd.value.text, rest);
        }
      }
    }
  }

  /** In a graph with an entry point, the preamble is followed at once by
      every function definition, so functions are declared before any code
      that calls them. */
  lemma DefinitionsFirst(g: Graph, preamble: string, fuel: nat)
    requires HasEntry(g)
    ensures GenerateCode(g, preamble, fuel).Some? ==>
      && FunctionDefinitions(g, Seqs.Filter(g.nodes, IsFunctionNode), {}, map[], fuel).Some?
      && Text.StartsWith(GenerateCode(g, preamble, fuel).value,
                         preamble + FunctionDefinitions(g, Seqs.Filter(g.nodes, IsFunctionNode), {}, map[], fuel).value.text)
  {
    EntrySearch(g);
    ProgramOpensWithDefinitions(g, preamble, Seqs.Filter(g.nodes, IsFunctionNode), Seqs.Filter(g.nodes, IsHat),
                                Seqs.Find(g.nodes, IsGameLoopNode), Seqs.Find(g.nodes, IsStartNode), fuel);
  }
}
