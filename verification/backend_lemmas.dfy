/** Properties of the older back end: its cache, what each kind of data
    source resolves to, how exec chains end, how function definitions are
    named and hoisted, and when there is no program at all. */
module BackendLemmas {
  import opened Wrappers
  import opened Schema
  import Seqs
  import Text
  import IR = IntermediateRepresentation
  import opened Backend

  // ---------------------------------------------------------------------
  // The cache
  // ---------------------------------------------------------------------

  /** The position of the first `c` in `s`, or `|s|` when there is none. */
  function IndexOf(s: string, c: char): (r: nat)
    ensures r <= |s|
  {
    if |s| == 0 || s[0] == c then 0 else 1 + IndexOf(s[1..], c)
  }

  lemma {:induction false} IndexAfter(p: string, c: char, rest: string)
    requires forall i :: 0 <= i < |p| ==> p[i] != c
    ensures IndexOf(p + [c] + rest, c) == |p|
  {
    if |p| > 0 {
      assert (p + [c] + rest)[1..] == p[1..] + [c] + rest;
      IndexAfter(p[1..], c, rest);
    }
  }

  /** `${id}_${inputId}` names one input of one node: the number text holds
      no underscore, so the first underscore ends it. */
  lemma CacheKeyInjective(a: int, x: string, b: int, y: string)
    requires CacheKey(a, x) == CacheKey(b, y)
    ensures a == b && x == y
  {
    var sa := Text.IntToString(a);
    var sb := Text.IntToString(b);
    Text.IntToStringDigits(a);
    Text.IntToStringDigits(b);
    var k := CacheKey(a, x);
    assert k == sa + ['_'] + x && k == sb + ['_'] + y;
    IndexAfter(sa, '_', x);
    IndexAfter(sb, '_', y);
    assert sa == k[..|sa|] == sb;
    Text.IntToStringInjective(a, b);
    assert x == k[|sa| + 1..] == y;
  }

  /** The connection into the input exists but its source node does not. */
  predicate SourceMissing(g: Graph, n: Node, input: string) {
    && IR.GetConnectionToInput(g, n.id, input).Some?
    && IR.GetNodeById(g, IR.GetConnectionToInput(g, n.id, input).value.fromNode).None?
  }

  /** Nothing feeds the input and the node does not declare it. */
  predicate ConfigMissing(g: Graph, n: Node, input: string) {
    IR.GetConnectionToInput(g, n.id, input).None? && FindPort(n.inputs, input).None?
  }

  /** A lookup that was not cached before is cached afterwards unless the
      source node or the input's declaration is missing; in those two cases
      the placeholder is returned and the cache is left as it was. */
  lemma CachedUnlessNotFound(g: Graph, n: Node, input: string, memo: Memo, fuel: nat, r: Res)
    requires Resolve(g, n, input, memo, fuel) == Some(r) && CacheKey(n.id, input) !in memo
    ensures CacheKey(n.id, input) in r.memo <==> !(SourceMissing(g, n, input) || ConfigMissing(g, n, input))
    ensures SourceMissing(g, n, input) ==> r == Res(SourceNotFound, memo)
    ensures ConfigMissing(g, n, input) ==> r == Res(ConfigNotFound, memo)
  {
  }

  /** Resolving the same input again returns the same text and adds
      nothing to the cache, whether the first answer was cached or was one
      of the placeholders that are not. */
  lemma RepeatedLookup(g: Graph, n: Node, input: string, memo: Memo, fuel: nat, r: Res, later: nat)
    requires Resolve(g, n, input, memo, fuel) == Some(r) && later > 0
    ensures Resolve(g, n, input, r.memo, later) == Some(r)
  {
    var key := CacheKey(n.id, input);
    if key !in r.memo {
      assert key !in memo;
      CachedUnlessNotFound(g, n, input, memo, fuel, r);
    }
  }

  // ---------------------------------------------------------------------
  // What a data input resolves to
  // ---------------------------------------------------------------------

  /** The input is fed by `src` through the connection `c`. */
  predicate FedBy(g: Graph, n: Node, input: string, c: IR.Connection, src: Node) {
    IR.GetConnectionToInput(g, n.id, input) == Some(c) && IR.GetNodeById(g, c.fromNode) == Some(src)
  }

  /** A `string` node supplies its `value` property as a JSON string
      literal, and `""` when it has none. */
  lemma StringSource(g: Graph, n: Node, input: string, c: IR.Connection, src: Node, s: string, memo: Memo, fuel: nat)
    requires fuel > 0 && CacheKey(n.id, input) !in memo && FedBy(g, n, input, c, src) && src.nodeType == "string"
    ensures "value" in src.properties && src.properties["value"] == VStr(s) ==>
      Resolve(g, n, input, memo, fuel) == Some(Cache(memo, CacheKey(n.id, input), Text.Quote(s)))
    ensures "value" !in src.properties ==>
      Resolve(g, n, input, memo, fuel) == Some(Cache(memo, CacheKey(n.id, input), "\"\""))
  {
    assert Text.Quote("") == "\"\"" by {
      assert Text.Escape("") == "";
    }
  }

  /** A `number` node supplies the digits of its `value` property, and `0`
      when it has none. */
  lemma NumberSource(g: Graph, n: Node, input: string, c: IR.Connection, src: Node, k: int, memo: Memo, fuel: nat)
    requires fuel > 0 && CacheKey(n.id, input) !in memo && FedBy(g, n, input, c, src) && src.nodeType == "number"
    ensures "value" in src.properties && src.properties["value"] == VNum(k) ==>
      Resolve(g, n, input, memo, fuel) == Some(Cache(memo, CacheKey(n.id, input), Text.IntToString(k)))
    ensures "value" !in src.properties ==>
      Resolve(g, n, input, memo, fuel) == Some(Cache(memo, CacheKey(n.id, input), "0"))
  {
  }

  /** Any other kind of source node supplies the unsupported placeholder,
      which is cached. */
  lemma OtherSource(g: Graph, n: Node, input: string, c: IR.Connection, src: Node, memo: Memo, fuel: nat)
    requires fuel > 0 && CacheKey(n.id, input) !in memo && FedBy(g, n, input, c, src)
    requires src.nodeType !in {"getVariable", "number", "string"}
    ensures Resolve(g, n, input, memo, fuel) == Some(Cache(memo, CacheKey(n.id, input), Unsupported))
  {
  }

  /** The default of an unconnected input by its declared type: an
      expression as written, a text or colour as a JSON string literal, a
      number as its digits, a missing default as `undefined`. */
  lemma DefaultByType(port: Port, s: string, k: int)
    ensures port.dataType == DExpression && port.default == Some(VStr(s)) ==> DefaultText(port) == s
    ensures (port.dataType == DString || port.dataType == DColor) && port.default == Some(VStr(s)) ==>
      DefaultText(port) == Text.Quote(s)
    ensures port.default == Some(VNum(k)) ==> DefaultText(port) == Text.IntToString(k)
    ensures port.default.None? ==> DefaultText(port) == "undefined"
  {
  }

  /** An unconnected input the node declares resolves to its default,
      which is cached. */
  lemma UnconnectedResolve(g: Graph, n: Node, input: string, port: Port, memo: Memo, fuel: nat)
    requires fuel > 0 && CacheKey(n.id, input) !in memo
    requires IR.GetConnectionToInput(g, n.id, input).None? && FindPort(n.inputs, input) == Some(port)
    ensures Resolve(g, n, input, memo, fuel) == Some(Cache(memo, CacheKey(n.id, input), DefaultText(port)))
  {
  }

  /** A `getVariable` node whose unconnected `name` input has the text
      default `s` reads `variables["s"]`. */
  lemma VariableByDefaultName(g: Graph, n: Node, input: string, c: IR.Connection, src: Node, port: Port, s: string,
                              memo: Memo, fuel: nat)
    requires fuel > 1 && CacheKey(n.id, input) !in memo && CacheKey(src.id, "name") !in memo
    requires FedBy(g, n, input, c, src) && src.nodeType == "getVariable"
    requires IR.GetConnectionToInput(g, src.id, "name").None? && FindPort(src.inputs, "name") == Some(port)
    requires port.dataType == DString && port.default == Some(VStr(s))
    ensures Resolve(g, n, input, memo, fuel).Some?
    ensures Resolve(g, n, input, memo, fuel).value.text == "variables[" + Text.Quote(s) + "]"
  {
    var less: nat := fuel - 1;
    UnconnectedResolve(g, src, "name", port, memo, less);
    VariableStep(g, n, input, c, src, memo, less, Cache(memo, CacheKey(src.id, "name"), Text.Quote(s)));
  }

  /** An input fed by an existing node takes what that node supplies. */
  lemma ConnectedStep(g: Graph, n: Node, input: string, c: IR.Connection, src: Node, memo: Memo, fuel: nat)
    requires fuel > 0 && CacheKey(n.id, input) !in memo && FedBy(g, n, input, c, src)
    ensures Resolve(g, n, input, memo, fuel) == FromSource(g, src, CacheKey(n.id, input), memo, fuel - 1)
  {
  }

  /** An input fed by a `getVariable` node reads the variable its `name`
      input resolves to... */
  lemma VariableStep(g: Graph, n: Node, input: string, c: IR.Connection, src: Node, memo: Memo, less: nat, t: Res)
    requires CacheKey(n.id, input) !in memo && FedBy(g, n, input, c, src) && src.nodeType == "getVariable"
    requires Resolve(g, src, "name", memo, less) == Some(t)
    ensures Resolve(g, n, input, memo, less + 1) == Some(Cache(t.memo, CacheKey(n.id, input), "variables[" + t.text + "]"))
  {
    ConnectedStep(g, n, input, c, src, memo, less + 1);
  }

  /** ... and cannot be resolved when that name cannot. */
  lemma VariableStalls(g: Graph, n: Node, input: string, c: IR.Connection, src: Node, memo: Memo, less: nat)
    requires CacheKey(n.id, input) !in memo && FedBy(g, n, input, c, src) && src.nodeType == "getVariable"
    requires Resolve(g, src, "name", memo, less).None?
    ensures Resolve(g, n, input, memo, less + 1).None?
  {
    ConnectedStep(g, n, input, c, src, memo, less + 1);
  }

  /** `getVariable` nodes in a ring, each naming its variable by the next:
      the `name` input of `ring[i]` is fed through `conns[i]` by
      `ring[(i + 1) % |ring|]`. Two nodes feeding each other form the
      smallest ring a graph can hold. */
  predicate NameRing(g: Graph, ring: seq<Node>, conns: seq<IR.Connection>) {
    && |ring| > 0 && |conns| == |ring|
    && (forall i :: 0 <= i < |ring| ==> ring[i].nodeType == "getVariable")
    && (forall i {:trigger conns[i]} :: 0 <= i < |ring| ==> FedBy(g, ring[i], "name", conns[i], ring[(i + 1) % |ring|]))
  }

  predicate NoneCached(ring: seq<Node>, memo: Memo) {
    forall i :: 0 <= i < |ring| ==> CacheKey(ring[i].id, "name") !in memo
  }

  /** Looking up a name on the ring goes round it until no fuel is enough:
      nothing is cached on the way down. */
  lemma {:induction false} NameRingDiverges(g: Graph, ring: seq<Node>, conns: seq<IR.Connection>, memo: Memo, fuel: nat, i: nat)
    requires NameRing(g, ring, conns) && NoneCached(ring, memo) && i < |ring|
    ensures Resolve(g, ring[i], "name", memo, fuel).None?
    decreases fuel
  {
    if fuel > 0 {
      var j: nat := (i + 1) % |ring|;
      var less: nat := fuel - 1;
      NameRingDiverges(g, ring, conns, memo, less, j);
      assert FedBy(g, ring[i], "name", conns[i], ring[j]);
      VariableStalls(g, ring[i], "name", conns[i], ring[j], memo, less);
    }
  }

  /** An input fed by a node of such a ring cannot be resolved either. */
  lemma FedByNameRing(g: Graph, n: Node, input: string, c: IR.Connection, ring: seq<Node>, conns: seq<IR.Connection>,
                      i: nat, memo: Memo, fuel: nat)
    requires NameRing(g, ring, conns) && NoneCached(ring, memo) && i < |ring|
    requires FedBy(g, n, input, c, ring[i]) && CacheKey(n.id, input) !in memo
    ensures Resolve(g, n, input, memo, fuel).None?
  {
    if fuel > 0 {
      var less: nat := fuel - 1;
      NameRingDiverges(g, ring, conns, memo, less, i);
      VariableStalls(g, n, input, c, ring[i], memo, less);
    }
  }

  // ---------------------------------------------------------------------
  // Exec chains
  // ---------------------------------------------------------------------

  /** A missing node, or one already on the path, is generated as nothing. */
  lemma Silent(g: Graph, node: Option<Node>, indent: string, visited: set<int>, memo: Memo, fuel: nat)
    requires fuel > 0 && (node.None? || node.value.id in visited)
    ensures GenExec(g, node, indent, visited, memo, fuel) == Some(Step("", memo))
  {
  }

  /** Following an exec edge generates its target, or nothing when the
      target node does not exist. */
  lemma FollowEdge(g: Graph, fromId: int, fromPort: string, e: IR.Connection,
                   indent: string, visited: set<int>, memo: Memo, fuel: nat)
    requires ExecEdgeFrom(g, fromId, fromPort) == Some(e)
    ensures GenConnected(g, fromId, fromPort, indent, visited, memo, fuel) ==
      GenExec(g, IR.GetNodeById(g, e.toNode), indent, visited, memo, fuel)
  {
  }

  /** A port with no exec connection out of it generates nothing. */
  lemma NoEdge(g: Graph, fromId: int, fromPort: string, indent: string, visited: set<int>, memo: Memo, fuel: nat)
    requires forall i :: 0 <= i < |g.connections| ==>
      !(g.connections[i].fromNode == fromId && g.connections[i].fromPort == fromPort && g.connections[i].fromPortType == Exec)
    ensures GenConnected(g, fromId, fromPort, indent, visited, memo, fuel) == Some(Step("", memo))
  {
  }

  /** A node without data inputs resolves nothing and leaves the cache alone. */
  lemma {:induction false} NothingToResolve(g: Graph, n: Node, ports: seq<Port>, acc: map<string, string>, memo: Memo, fuel: nat)
    requires NoDataPorts(ports)
    ensures ResolveInputs(g, n, ports, acc, memo, fuel) == Some(Inputs(acc, memo))
    decreases |ports|
  {
    if |ports| > 0 {
      NothingToResolve(g, n, ports[1..], acc, memo, fuel);
    }
  }

  /** One frame of a statement that is not a block: its own text from the
      resolved inputs, then whatever follows its `out` port on the same
      visited set plus itself. */
  lemma PlainFrame(g: Graph, n: Node, indent: string, visited: set<int>, memo: Memo, fuel: nat, less: nat, ins: Inputs)
    requires less + 1 == fuel && n.id !in visited && !IsBlock(n.nodeType)
    requires ResolveInputs(g, n, n.inputs, map[], memo, less) == Some(ins)
    ensures GenExec(g, Some(n), indent, visited, memo, fuel) ==
      if GenConnected(g, n.id, "out", indent, visited + {n.id}, ins.memo, less).Some? then
        Some(Step(StatementCode(n, ins.values, "\n" + indent)
                    + GenConnected(g, n.id, "out", indent, visited + {n.id}, ins.memo, less).value.text,
                  GenConnected(g, n.id, "out", indent, visited + {n.id}, ins.memo, less).value.memo))
      else None
  {
    assert ResolveInputs(g, n, n.inputs, map[], memo, fuel - 1) == Some(ins);
    assert GenConnected(g, n.id, "out", indent, visited + {n.id}, ins.memo, fuel - 1)
        == GenConnected(g, n.id, "out", indent, visited + {n.id}, ins.memo, less);
  }

  /** One frame of a statement that is not a block and has no data inputs:
      its own text, then whatever follows its `out` port on the same path
      plus itself. */
  lemma ChainStep(g: Graph, n: Node, indent: string, visited: set<int>, memo: Memo, fuel: nat, less: nat)
    requires less + 1 == fuel && n.id !in visited && !IsBlock(n.nodeType) && NoDataPorts(n.inputs)
    ensures GenExec(g, Some(n), indent, visited, memo, fuel) ==
      if GenConnected(g, n.id, "out", indent, visited + {n.id}, memo, less).Some? then
        Some(Step(StatementCode(n, map[], "\n" + indent)
                    + GenConnected(g, n.id, "out", indent, visited + {n.id}, memo, less).value.text,
                  GenConnected(g, n.id, "out", indent, visited + {n.id}, memo, less).value.memo))
      else None
  {
    NothingToResolve(g, n, n.inputs, map[], memo, less);
    PlainFrame(g, n, indent, visited, memo, fuel, less, Inputs(map[], memo));
  }

  /** One frame of a block node whose statement cannot be generated yields
      nothing. */
  lemma BlockStallsExec(g: Graph, n: Node, indent: string, visited: set<int>, memo: Memo, fuel: nat, less: nat)
    requires less + 1 == fuel && n.id !in visited && IsBlock(n.nodeType)
    requires ResolveInputs(g, n, n.inputs, map[], memo, less).Some? ==>
      BlockCode(g, n, ResolveInputs(g, n, n.inputs, map[], memo, less).value.values,
                indent, ResolveInputs(g, n, n.inputs, map[], memo, less).value.memo, less).None?
    ensures GenExec(g, Some(n), indent, visited, memo, fuel).None?
  {
    var ins := ResolveInputs(g, n, n.inputs, map[], memo, less);
    assert ResolveInputs(g, n, n.inputs, map[], memo, fuel - 1) == ins;
    if ins.Some? {
      assert BlockCode(g, n, ins.value.values, indent, ins.value.memo, fuel - 1).None?;
    }
  }

  /** One frame of a statement whose continuation cannot be generated
      yields nothing. */
  lemma ChainStallsExec(g: Graph, n: Node, indent: string, visited: set<int>, memo: Memo, fuel: nat, less: nat)
    requires less + 1 == fuel && n.id !in visited && !IsBlock(n.nodeType)
    requires ResolveInputs(g, n, n.inputs, map[], memo, less).Some? ==>
      GenConnected(g, n.id, "out", indent, visited + {n.id}, ResolveInputs(g, n, n.inputs, map[], memo, less).value.memo, less).None?
    ensures GenExec(g, Some(n), indent, visited, memo, fuel).None?
  {
    var ins := ResolveInputs(g, n, n.inputs, map[], memo, less);
    assert ResolveInputs(g, n, n.inputs, map[], memo, fuel - 1) == ins;
    if ins.Some? {
      assert GenConnected(g, n.id, "out", indent, visited + {n.id}, ins.value.memo, fuel - 1).None?;
    }
  }

  // ---------------------------------------------------------------------
  // Function definitions and calls
  // ---------------------------------------------------------------------

  /** One step of `FunctionDefinitions`: the first node, then the rest. */
  lemma DefinitionsStep(g: Graph, fs: seq<Node>, defined: set<int>, memo: Memo, fuel: nat)
    requires |fs| > 0
    ensures FunctionDefinitions(g, fs, defined, memo, fuel) ==
      match FunctionDefinition(g, fs[0], defined, memo, fuel)
      case None => None
      case Some(d) =>
        match FunctionDefinitions(g, fs[1..], d.defined, d.memo, fuel)
        case None => None
        case Some(r) => Some(Defs(d.text + r.text, r.defined, r.memo))
  {
  }

  /** Function nodes whose ids are all defined already add nothing. */
  lemma {:induction false} DefinedAreSkipped(g: Graph, fs: seq<Node>, defined: set<int>, memo: Memo, fuel: nat)
    requires forall i :: 0 <= i < |fs| ==> fs[i].id in defined
    ensures FunctionDefinitions(g, fs, defined, memo, fuel) == Some(Defs("", defined, memo))
    decreases |fs|
  {
    if |fs| > 0 {
      DefinitionsStep(g, fs, defined, memo, fuel);
      assert FunctionDefinition(g, fs[0], defined, memo, fuel) == Some(Defs("", defined, memo));
      DefinedAreSkipped(g, fs[1..], defined, memo, fuel);
      assert "" + "" == "";
    }
  }

  /** Appending what `rest` generates to the definitions `d`. */
  function Join(d: Defs, rest: Option<Defs>): Option<Defs> {
    match rest
    case None => None
    case Some(e) => Some(Defs(d.text + e.text, e.defined, e.memo))
  }

  predicate AppendHolds(g: Graph, a: seq<Node>, b: seq<Node>, defined: set<int>, memo: Memo, fuel: nat) {
    FunctionDefinitions(g, a + b, defined, memo, fuel) ==
      match FunctionDefinitions(g, a, defined, memo, fuel)
      case None => None
      case Some(d) => Join(d, FunctionDefinitions(g, b, d.defined, d.memo, fuel))
  }

  lemma AppendNil(g: Graph, a: seq<Node>, b: seq<Node>, defined: set<int>, memo: Memo, fuel: nat)
    requires |a| == 0
    ensures AppendHolds(g, a, b, defined, memo, fuel)
  {
    assert a + b == b;
    var e := FunctionDefinitions(g, b, defined, memo, fuel);
    if e.Some? {
      assert "" + e.value.text == e.value.text;
    }
  }

  lemma JoinAssoc(d: Defs, d1: Defs, e: Option<Defs>)
    ensures Join(d, Join(d1, e)) == Join(Defs(d.text + d1.text, d1.defined, d1.memo), e)
  {
    if e.Some? {
      assert d.text + (d1.text + e.value.text) == (d.text + d1.text) + e.value.text;
    }
  }

  lemma AppendCons(g: Graph, a: seq<Node>, b: seq<Node>, defined: set<int>, memo: Memo, fuel: nat)
    requires |a| > 0
    requires FunctionDefinition(g, a[0], defined, memo, fuel).Some? ==>
      AppendHolds(g, a[1..], b, FunctionDefinition(g, a[0], defined, memo, fuel).value.defined,
                  FunctionDefinition(g, a[0], defined, memo, fuel).value.memo, fuel)
    ensures AppendHolds(g, a, b, defined, memo, fuel)
  {
    Seqs.AppendHeadTail(a, b);
    DefinitionsStep(g, a + b, defined, memo, fuel);
    DefinitionsStep(g, a, defined, memo, fuel);
    var d0 := FunctionDefinition(g, a[0], defined, memo, fuel);
    if d0.Some? {
      var d := d0.value;
      var d1 := FunctionDefinitions(g, a[1..], d.defined, d.memo, fuel);
      assert FunctionDefinitions(g, a, defined, memo, fuel) == Join(d, d1);
      assert FunctionDefinitions(g, a + b, defined, memo, fuel) == Join(d, FunctionDefinitions(g, a[1..] + b, d.defined, d.memo, fuel));
      if d1.Some? {
        var e := FunctionDefinitions(g, b, d1.value.defined, d1.value.memo, fuel);
        assert FunctionDefinitions(g, a[1..] + b, d.defined, d.memo, fuel) == Join(d1.value, e);
        JoinAssoc(d, d1.value, e);
      }
    }
  }

  /** The definitions of `a + b` are those of `a` followed by those of `b`,
      generated with the ids and the cache `a` left behind. */
  lemma {:induction false} DefinitionsAppend(g: Graph, a: seq<Node>, b: seq<Node>, defined: set<int>, memo: Memo, fuel: nat)
    ensures AppendHolds(g, a, b, defined, memo, fuel)
    decreases |a|
  {
    if |a| == 0 {
      AppendNil(g, a, b, defined, memo, fuel);
    } else {
      var d0 := FunctionDefinition(g, a[0], defined, memo, fuel);
      if d0.Some? {
        DefinitionsAppend(g, a[1..], b, d0.value.defined, d0.value.memo, fuel);
      }
      AppendCons(g, a, b, defined, memo, fuel);
    }
  }

  /** Generating the definitions of `fs` marks exactly their ids as defined,
      in addition to those defined before. */
  lemma {:induction false} DefinitionsRecordIds(g: Graph, fs: seq<Node>, defined: set<int>, memo: Memo, fuel: nat)
    ensures FunctionDefinitions(g, fs, defined, memo, fuel).Some? ==>
      FunctionDefinitions(g, fs, defined, memo, fuel).value.defined == defined + NodeIds(fs)
    decreases |fs|
  {
    if |fs| > 0 {
      DefinitionsStep(g, fs, defined, memo, fuel);
      var d0 := FunctionDefinition(g, fs[0], defined, memo, fuel);
      if d0.Some? {
        DefinitionsRecordIds(g, fs[1..], d0.value.defined, d0.value.memo, fuel);
        NodeIdsCons(fs);
      }
    }
  }

  /** Each function node is defined once, however often it is listed. */
  lemma DefinedOnce(g: Graph, fs: seq<Node>, memo: Memo, fuel: nat)
    ensures FunctionDefinitions(g, fs + fs, {}, memo, fuel) == FunctionDefinitions(g, fs, {}, memo, fuel)
  {
    DefinitionsAppend(g, fs, fs, {}, memo, fuel);
    DefinitionsRecordIds(g, fs, {}, memo, fuel);
    var r := FunctionDefinitions(g, fs, {}, memo, fuel);
    if r.Some? {
      var d := r.value;
      assert forall i :: 0 <= i < |fs| ==> fs[i].id in NodeIds(fs);
      DefinedAreSkipped(g, fs, d.defined, d.memo, fuel);
      assert d.text + "" == d.text;
      assert Join(d, Some(Defs("", d.defined, d.memo))) == Some(d);
    }
  }

  /** A function node whose `name` resolves to `v` opens a function named by
      `v` without its double quotes. */
  lemma NamedDefinition(g: Graph, f: Node, defined: set<int>, memo: Memo, fuel: nat, v: Res, name: string)
    requires f.id !in defined && Resolve(g, f, "name", memo, fuel) == Some(v) && name == Text.StripAllQuotes(v.text)
    ensures FunctionDefinition(g, f, defined, memo, fuel).Some? ==>
      Text.StartsWith(FunctionDefinition(g, f, defined, memo, fuel).value.text, "\nfunction " + name + "() {\n")
  {
    var b := GenConnected(g, f.id, "body", "  ", {}, v.memo, fuel);
    if b.Some? {
      var head := "\nfunction " + name + "() {\n";
      assert FunctionDefinition(g, f, defined, memo, fuel).value.text == head + b.value.text + "}\n";
      Text.StartsWithConcat(head, b.value.text);
      Text.StartsWithAppend(head + b.value.text, head, "}\n");
    }
  }

  /** A function node whose unconnected `name` input has a text default
      needing no escaping is defined under that very name: the quotes added
      when the default is resolved are all taken off again. */
  lemma FunctionNamedByDefault(g: Graph, f: Node, port: Port, s: string, defined: set<int>, memo: Memo, fuel: nat)
    requires f.id !in defined && CacheKey(f.id, "name") !in memo && fuel > 0
    requires FindPort(f.inputs, "name") == Some(port) && port.default == Some(VStr(s)) && port.dataType == DString
    requires (forall i :: 0 <= i < |s| ==> Text.IsPlainJsonChar(s[i])) && IR.GetConnectionToInput(g, f.id, "name").None?
    ensures FunctionDefinition(g, f, defined, memo, fuel).Some? ==>
      Text.StartsWith(FunctionDefinition(g, f, defined, memo, fuel).value.text, "\nfunction " + s + "() {\n")
  {
    UnconnectedResolve(g, f, "name", port, memo, fuel);
    Text.StripAllQuotesOfQuote(s);
    NamedDefinition(g, f, defined, memo, fuel, Cache(memo, CacheKey(f.id, "name"), Text.Quote(s)), s);
  }

  /** A `callFunction` node whose name resolved to the JSON literal of `s`
      calls `s`, the name `FunctionNamedByDefault` defines. */
  lemma CallByQuotedName(n: Node, vals: map<string, string>, nl: string, s: string)
    requires n.nodeType == "callFunction" && "name" in vals && vals["name"] == Text.Quote(s)
    requires forall i :: 0 <= i < |s| ==> Text.IsPlainJsonChar(s[i])
    ensures StatementCode(n, vals, nl) == nl + s + "();"
  {
    Text.StripAllQuotesOfQuote(s);
    assert CalledName(vals) == s;
  }

  // ---------------------------------------------------------------------
  // generateCode
  // ---------------------------------------------------------------------

  /** The no-start message is the whole output exactly when no node is a
      `start` node; otherwise the output opens with the header. */
  lemma NoStartIff(g: Graph, fuel: nat)
    ensures GenerateCode(g, fuel) == Some(NoStart) <==> forall i :: 0 <= i < |g.nodes| ==> !IsStart(g.nodes[i])
  {
    var s := Seqs.Find(g.nodes, IsStart);
    if s.Some? {
      var p := Program(g, Seqs.Filter(g.nodes, IsFunction), s.value, fuel);
      assert GenerateCode(g, fuel) == p;
      if p.Some? {
        HeaderFirst(g, Seqs.Filter(g.nodes, IsFunction), s.value, fuel);
        HeaderIsNotNoStart(p.value);
      }
    }
  }

  lemma HeaderIsNotNoStart(t: string)
    requires Text.StartsWith(t, Header)
    ensures t != NoStart
  {
    assert Header[3] == 'G';
    assert t[3] == Header[3];
  }

  lemma HeaderFirst(g: Graph, functions: seq<Node>, start: Node, fuel: nat)
    ensures Program(g, functions, start, fuel).Some? ==> Text.StartsWith(Program(g, functions, start, fuel).value, Header)
  {
    var d := FunctionDefinitions(g, functions, {}, map[], fuel);
    if d.Some? {
      var m := GenExec(g, Some(start), "", {}, d.value.memo, fuel);
      if m.Some? {
        assert Program(g, functions, start, fuel).value == Header + (d.value.text + MainBanner + m.value.text);
        Text.StartsWithConcat(Header, d.value.text + MainBanner + m.value.text);
      }
    }
  }

  /** With a start node, every function definition comes before the main
      program: the header, the definitions of the function nodes in graph
      order, then the main banner. */
  lemma DefinitionsHoisted(g: Graph, fuel: nat)
    requires exists i :: 0 <= i < |g.nodes| && IsStart(g.nodes[i])
    ensures GenerateCode(g, fuel).Some? ==>
      && FunctionDefinitions(g, Seqs.Filter(g.nodes, IsFunction), {}, map[], fuel).Some?
      && Text.StartsWith(GenerateCode(g, fuel).value,
           Header + FunctionDefinitions(g, Seqs.Filter(g.nodes, IsFunction), {}, map[], fuel).value.text + MainBanner)
  {
    var s := Seqs.Find(g.nodes, IsStart);
    var d := FunctionDefinitions(g, Seqs.Filter(g.nodes, IsFunction), {}, map[], fuel);
    if s.Some? && d.Some? {
      var m := GenExec(g, Some(s.value), "", {}, d.value.memo, fuel);
      if m.Some? {
        var head := Header + d.value.text + MainBanner;
        assert GenerateCode(g, fuel).value == head + m.value.text;
        Text.StartsWithConcat(head, m.value.text);
      }
    }
  }
}
