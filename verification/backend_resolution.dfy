/** Data resolution of the older back end without the cache. `RefResolve`
    computes what an input resolves to directly from the graph; the cache
    of `resolveDataInput` is shown to be transparent: started from any
    cache whose entries are such reference values, resolution returns the
    reference value, and it succeeds whenever the reference does, from any
    cache at all. On a graph whose data connections go strictly up a
    ranking, the reference always succeeds. */
module BackendResolution {
  import opened Wrappers
  import opened Schema
  import IR = IntermediateRepresentation
  import opened Backend
  import BackendLemmas

  // ---------------------------------------------------------------------
  // The reference semantics
  // ---------------------------------------------------------------------

  /** What input `input` of `n` resolves to, computed afresh every time. */
  function RefResolve(g: Graph, n: Node, input: string, fuel: nat): Option<string>
    decreases fuel, 0
  {
    if fuel == 0 then None
    else
      match IR.GetConnectionToInput(g, n.id, input)
      case Some(c) =>
        (match IR.GetNodeById(g, c.fromNode)
         case None => Some(SourceNotFound)
         case Some(src) => RefSource(g, src, fuel - 1))
      case None =>
        match FindPort(n.inputs, input)
        case None => Some(ConfigNotFound)
        case Some(port) => Some(DefaultText(port))
  }

  /** What a connected source supplies, computed afresh: a `getVariable`
      node reads the variable its own `name` input names. */
  function RefSource(g: Graph, src: Node, fuel: nat): Option<string>
    decreases fuel, 1
  {
    if src.nodeType == "getVariable" then
      var name :- RefResolve(g, src, "name", fuel);
      Some("variables[" + name + "]")
    else if src.nodeType == "number" || src.nodeType == "string" then Some(LiteralText(src))
    else Some(Unsupported)
  }

  /** One step of `RefResolve` through a source node that exists; `less`
      is the fuel left for the source. */
  lemma RefUnfold(g: Graph, n: Node, input: string, c: IR.Connection, src: Node, fuel: nat, less: nat)
    requires less + 1 == fuel
    requires IR.GetConnectionToInput(g, n.id, input) == Some(c) && IR.GetNodeById(g, c.fromNode) == Some(src)
    ensures RefResolve(g, n, input, fuel) == RefSource(g, src, less)
  {
  }

  /** One step of `Resolve` on a cache miss through a source node that exists. */
  lemma ResolveUnfold(g: Graph, n: Node, input: string, memo: Memo, c: IR.Connection, src: Node, fuel: nat, less: nat)
    requires less + 1 == fuel && CacheKey(n.id, input) !in memo
    requires IR.GetConnectionToInput(g, n.id, input) == Some(c) && IR.GetNodeById(g, c.fromNode) == Some(src)
    ensures Resolve(g, n, input, memo, fuel) == FromSource(g, src, CacheKey(n.id, input), memo, less)
  {
  }

  /** More fuel never changes a reference value that was found. */
  lemma {:induction false} RefMono(g: Graph, n: Node, input: string, f1: nat, f2: nat)
    requires f1 <= f2 && RefResolve(g, n, input, f1).Some?
    ensures RefResolve(g, n, input, f2) == RefResolve(g, n, input, f1)
    decreases f1
  {
    match IR.GetConnectionToInput(g, n.id, input)
    case None =>
    case Some(c) =>
      match IR.GetNodeById(g, c.fromNode)
      case None =>
      case Some(src) =>
        var a: int := f1 - 1;
        var b: int := f2 - 1;
        RefUnfold(g, n, input, c, src, f1, a);
        RefUnfold(g, n, input, c, src, f2, b);
        if src.nodeType == "getVariable" {
          RefMono(g, src, "name", a, b);
        }
  }

  // ---------------------------------------------------------------------
  // Sound caches
  // ---------------------------------------------------------------------

  /** `v` is the reference value of the input at some fuel. */
  ghost predicate IsRef(g: Graph, n: Node, input: string, v: string) {
    exists f: nat :: RefResolve(g, n, input, f) == Some(v)
  }

  /** Every cache entry under the key of an input of a node of the graph
      holds that input's reference value. */
  ghost predicate Sound(g: Graph, memo: Memo) {
    forall n, input :: n in g.nodes && CacheKey(n.id, input) in memo ==> IsRef(g, n, input, memo[CacheKey(n.id, input)])
  }

  lemma EmptySound(g: Graph)
    ensures Sound(g, map[])
  {
  }

  /** Caching a reference value keeps the cache sound: a key names one
      input of one node. */
  lemma SoundStore(g: Graph, memo: Memo, n: Node, input: string, v: string)
    requires UniqueIds(g.nodes) && n in g.nodes && Sound(g, memo) && IsRef(g, n, input, v)
    ensures Sound(g, memo[CacheKey(n.id, input) := v])
  {
    var m2 := memo[CacheKey(n.id, input) := v];
    forall m, inp | m in g.nodes && CacheKey(m.id, inp) in m2
      ensures IsRef(g, m, inp, m2[CacheKey(m.id, inp)])
    {
      if CacheKey(m.id, inp) == CacheKey(n.id, input) {
        BackendLemmas.CacheKeyInjective(m.id, inp, n.id, input);
        SameIdSameNode(g.nodes, m, n);
      }
    }
  }

  /** From a sound cache, a resolved input holds its reference value and
      the cache stays sound. */
  lemma {:induction false} ResolveIsRef(g: Graph, n: Node, input: string, memo: Memo, fuel: nat)
    requires UniqueIds(g.nodes) && n in g.nodes && Sound(g, memo)
    requires Resolve(g, n, input, memo, fuel).Some?
    ensures IsRef(g, n, input, Resolve(g, n, input, memo, fuel).value.text)
    ensures Sound(g, Resolve(g, n, input, memo, fuel).value.memo)
    decreases fuel, 1
  {
    if CacheKey(n.id, input) !in memo {
      match IR.GetConnectionToInput(g, n.id, input)
      case None =>
        UnconnectedIsRef(g, n, input, memo, fuel);
      case Some(c) =>
        match IR.GetNodeById(g, c.fromNode)
        case None =>
          assert RefResolve(g, n, input, fuel) == Some(SourceNotFound);
        case Some(src) =>
          var less: int := fuel - 1;
          ResolveUnfold(g, n, input, memo, c, src, fuel, less);
          if src.nodeType == "getVariable" {
            SourceIsRef(g, n, input, memo, c, src, fuel, less);
          } else {
            LiteralIsRef(g, n, input, memo, c, src, fuel, less);
          }
    }
  }

  /** An input nothing feeds holds its declared default, or the placeholder
      when it is not declared. */
  lemma UnconnectedIsRef(g: Graph, n: Node, input: string, memo: Memo, fuel: nat)
    requires UniqueIds(g.nodes) && n in g.nodes && Sound(g, memo) && fuel > 0
    requires CacheKey(n.id, input) !in memo && IR.GetConnectionToInput(g, n.id, input).None?
    ensures Resolve(g, n, input, memo, fuel).Some?
    ensures IsRef(g, n, input, Resolve(g, n, input, memo, fuel).value.text)
    ensures Sound(g, Resolve(g, n, input, memo, fuel).value.memo)
  {
    match FindPort(n.inputs, input)
    case None =>
      assert RefResolve(g, n, input, fuel) == Some(ConfigNotFound);
    case Some(port) =>
      assert RefResolve(g, n, input, fuel) == Some(DefaultText(port));
      SoundStore(g, memo, n, input, DefaultText(port));
  }

  /** A source other than `getVariable` supplies a text of its own. */
  lemma LiteralIsRef(g: Graph, n: Node, input: string, memo: Memo, c: IR.Connection, src: Node, fuel: nat, less: nat)
    requires UniqueIds(g.nodes) && n in g.nodes && Sound(g, memo) && less + 1 == fuel
    requires CacheKey(n.id, input) !in memo && src.nodeType != "getVariable"
    requires IR.GetConnectionToInput(g, n.id, input) == Some(c) && IR.GetNodeById(g, c.fromNode) == Some(src)
    ensures FromSource(g, src, CacheKey(n.id, input), memo, less).Some?
    ensures IsRef(g, n, input, FromSource(g, src, CacheKey(n.id, input), memo, less).value.text)
    ensures Sound(g, FromSource(g, src, CacheKey(n.id, input), memo, less).value.memo)
  {
    RefUnfold(g, n, input, c, src, fuel, less);
    SoundStore(g, memo, n, input, RefSource(g, src, less).value);
  }

  /** The `getVariable` step: the variable's name is a reference value at
      some fuel, so the expression reading it is one at the next. */
  lemma {:induction false} SourceIsRef(g: Graph, n: Node, input: string, memo: Memo, c: IR.Connection, src: Node, fuel: nat, less: nat)
    requires UniqueIds(g.nodes) && n in g.nodes && Sound(g, memo) && less + 1 == fuel
    requires CacheKey(n.id, input) !in memo && src.nodeType == "getVariable"
    requires IR.GetConnectionToInput(g, n.id, input) == Some(c) && IR.GetNodeById(g, c.fromNode) == Some(src)
    requires FromSource(g, src, CacheKey(n.id, input), memo, less).Some?
    ensures IsRef(g, n, input, FromSource(g, src, CacheKey(n.id, input), memo, less).value.text)
    ensures Sound(g, FromSource(g, src, CacheKey(n.id, input), memo, less).value.memo)
    decreases fuel, 0
  {
    ResolveIsRef(g, src, "name", memo, less);
    var name := Resolve(g, src, "name", memo, less).value;
    var f0: nat :| RefResolve(g, src, "name", f0) == Some(name.text);
    RefUnfold(g, n, input, c, src, f0 + 1, f0);
    var v := "variables[" + name.text + "]";
    assert RefResolve(g, n, input, f0 + 1) == Some(v);
    SoundStore(g, name.memo, n, input, v);
  }

  /** With any cache at all, resolution succeeds whenever the cache-free
      computation does: a hit answers at once, and a miss follows the same
      connections. */
  lemma {:induction false} ResolveComplete(g: Graph, n: Node, input: string, memo: Memo, fuel: nat)
    requires RefResolve(g, n, input, fuel).Some?
    ensures Resolve(g, n, input, memo, fuel).Some?
    decreases fuel
  {
    if CacheKey(n.id, input) !in memo {
      match IR.GetConnectionToInput(g, n.id, input)
      case None =>
      case Some(c) =>
        match IR.GetNodeById(g, c.fromNode)
        case None =>
        case Some(src) =>
          var less: int := fuel - 1;
          ResolveUnfold(g, n, input, memo, c, src, fuel, less);
          RefUnfold(g, n, input, c, src, fuel, less);
          if src.nodeType == "getVariable" {
            ResolveComplete(g, src, "name", memo, less);
          }
    }
  }

  /** The cache changes nothing: from a sound cache (the empty one, say)
      resolution succeeds whenever the cache-free computation does, and then
      returns the very same text, whatever fuel that computation used. */
  lemma CacheTransparent(g: Graph, n: Node, input: string, memo: Memo, fuel: nat, f: nat)
    requires UniqueIds(g.nodes) && n in g.nodes && Sound(g, memo)
    ensures RefResolve(g, n, input, fuel).Some? ==> Resolve(g, n, input, memo, fuel).Some?
    ensures Resolve(g, n, input, memo, fuel).Some? && RefResolve(g, n, input, f).Some? ==>
      Resolve(g, n, input, memo, fuel).value.text == RefResolve(g, n, input, f).value
  {
    if RefResolve(g, n, input, fuel).Some? {
      ResolveComplete(g, n, input, memo, fuel);
    }
    if Resolve(g, n, input, memo, fuel).Some? && RefResolve(g, n, input, f).Some? {
      ResolveIsRef(g, n, input, memo, fuel);
      var f0: nat :| RefResolve(g, n, input, f0) == Some(Resolve(g, n, input, memo, fuel).value.text);
      if f0 <= f {
        RefMono(g, n, input, f0, f);
      } else {
        RefMono(g, n, input, f, f0);
      }
    }
  }

  // ---------------------------------------------------------------------
  // Termination on data graphs without cycles
  // ---------------------------------------------------------------------

  /** Every connection into a port other than the exec input `in` goes from a
      node of lower rank to a node of higher rank. */
  predicate DataRanked(g: Graph, rank: map<int, nat>) {
    forall i :: 0 <= i < |g.connections| && g.connections[i].toPort != "in" ==>
      && g.connections[i].fromNode in rank && g.connections[i].toNode in rank
      && rank[g.connections[i].fromNode] < rank[g.connections[i].toNode]
  }

  /** On a ranked graph the chain of `getVariable` names behind an input
      ends with fuel above the input's node's rank. */
  lemma {:induction false} RankedResolves(g: Graph, rank: map<int, nat>, n: Node, input: string, fuel: nat)
    requires DataRanked(g, rank) && n.id in rank && input != "in" && fuel > rank[n.id]
    ensures RefResolve(g, n, input, fuel).Some?
    decreases rank[n.id]
  {
    match IR.GetConnectionToInput(g, n.id, input)
    case None =>
    case Some(c) =>
      var i :| 0 <= i < |g.connections| && g.connections[i] == c;
      match IR.GetNodeById(g, c.fromNode)
      case None =>
      case Some(src) =>
        var less: int := fuel - 1;
        RefUnfold(g, n, input, c, src, fuel, less);
        if src.nodeType == "getVariable" {
          RankedResolves(g, rank, src, "name", less);
        }
  }

  /** On a ranked graph resolution succeeds from any cache. */
  lemma RankedResolvesCached(g: Graph, rank: map<int, nat>, n: Node, input: string, memo: Memo, fuel: nat)
    requires DataRanked(g, rank) && n.id in rank && input != "in" && fuel > rank[n.id]
    ensures Resolve(g, n, input, memo, fuel).Some?
  {
    RankedResolves(g, rank, n, input, fuel);
    ResolveComplete(g, n, input, memo, fuel);
  }

  /** On a graph whose data connections are ranked, resolving an input of a
      node succeeds with fuel above the node's rank, from an empty cache,
      and yields the reference value. */
  lemma AcyclicDataResolves(g: Graph, rank: map<int, nat>, n: Node, input: string, fuel: nat)
    requires UniqueIds(g.nodes) && n in g.nodes && DataRanked(g, rank)
    requires n.id in rank && input != "in" && fuel > rank[n.id]
    ensures Resolve(g, n, input, map[], fuel).Some? && RefResolve(g, n, input, fuel).Some?
    ensures Resolve(g, n, input, map[], fuel).value.text == RefResolve(g, n, input, fuel).value
  {
    RankedResolves(g, rank, n, input, fuel);
    EmptySound(g);
    CacheTransparent(g, n, input, map[], fuel, fuel);
  }
}
