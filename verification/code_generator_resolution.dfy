/** Data resolution without the cache. `RefResolve` computes what an input
    resolves to directly from the graph; the cache of `resolveDataInput` is
    shown to be transparent: started from any cache whose entries are such
    reference values, resolution returns the reference value and succeeds
    whenever the reference does. On a graph whose data connections go
    strictly up a ranking, the reference always succeeds. */
module CodeGeneratorResolution {
  import opened Wrappers
  import opened Schema
  import Seqs
  import LD = LanguageDefinition
  import AST = AbstractSyntaxTree
  import opened CodeGenerator

  // ---------------------------------------------------------------------
  // The reference semantics
  // ---------------------------------------------------------------------

  /** What input `input` of `n` resolves to, computed afresh every time. */
  function RefResolve(g: Graph, n: Node, input: string, fuel: nat): Option<Resolved>
    decreases fuel, 0, 0
  {
    if fuel == 0 then None
    else
      match AST.GetConnectionToInput(g, n.id, input)
      case None => Some(Declared(n, input))
      case Some(c) =>
        match AST.GetNodeById(g, c.fromNode)
        case None => Some(SourceMissing)
        case Some(src) => RefVia(g, n, input, src, fuel - 1)
  }

  /** What the input resolves to once its connection has led to `src`. */
  function RefVia(g: Graph, n: Node, input: string, src: Node, fuel: nat): Option<Resolved>
    decreases fuel, 3, 0
  {
    var p :- RefSource(g, src, fuel);
    Some(Settled(n, input, p))
  }

  /** What a connected source supplies, computed afresh. */
  function RefSource(g: Graph, src: Node, fuel: nat): Option<Option<Picked>>
    decreases fuel, 2, 0
  {
    var k := LD.KindOf(src.nodeType);
    var vs :- RefAll(g, src, Operands(k), fuel);
    Some(Supplied(src, k, vs))
  }

  function RefAll(g: Graph, n: Node, ids: seq<string>, fuel: nat): (r: Option<seq<Resolved>>)
    ensures r.Some? ==> |r.value| == |ids|
    decreases fuel, 1, |ids|
  {
    if |ids| == 0 then Some([])
    else
      var v :- RefResolve(g, n, ids[0], fuel);
      var rest :- RefAll(g, n, ids[1..], fuel);
      Some([v] + rest)
  }

  /** One step of `RefResolve` through a source node that exists; `less`
      is the fuel left for the source. */
  lemma RefUnfold(g: Graph, n: Node, input: string, c: AST.Connection, src: Node, fuel: nat, less: nat)
    requires less + 1 == fuel
    requires AST.GetConnectionToInput(g, n.id, input) == Some(c) && AST.GetNodeById(g, c.fromNode) == Some(src)
    ensures RefResolve(g, n, input, fuel) == RefVia(g, n, input, src, less)
  {
  }

  /** One step of `Resolve` on a cache miss through a source node that exists. */
  lemma ResolveUnfold(g: Graph, n: Node, input: string, memo: Memo, c: AST.Connection, src: Node, fuel: nat, less: nat)
    requires less + 1 == fuel && KeyOf(n, input) !in memo
    requires AST.GetConnectionToInput(g, n.id, input) == Some(c) && AST.GetNodeById(g, c.fromNode) == Some(src)
    ensures Resolve(g, n, input, memo, fuel) == Via(g, n, input, src, memo, less)
  {
    assert fuel - 1 == less;
  }

  /** More fuel never changes a reference value that was found. */
  lemma {:induction false} RefMono(g: Graph, n: Node, input: string, f1: nat, f2: nat)
    requires f1 <= f2 && RefResolve(g, n, input, f1).Some?
    ensures RefResolve(g, n, input, f2) == RefResolve(g, n, input, f1)
    decreases f1, 0, 0
  {
    match AST.GetConnectionToInput(g, n.id, input)
    case None =>
    case Some(c) =>
      match AST.GetNodeById(g, c.fromNode)
      case None =>
      case Some(src) =>
        var a: int := f1 - 1;
        var b: int := f2 - 1;
        RefUnfold(g, n, input, c, src, f1, a);
        RefUnfold(g, n, input, c, src, f2, b);
        RefSourceMono(g, src, a, b);
  }

  lemma {:induction false} RefSourceMono(g: Graph, src: Node, f1: nat, f2: nat)
    requires f1 <= f2 && RefSource(g, src, f1).Some?
    ensures RefSource(g, src, f2) == RefSource(g, src, f1)
    decreases f1, 2, 0
  {
    RefAllMono(g, src, Operands(LD.KindOf(src.nodeType)), f1, f2);
  }

  lemma {:induction false} RefAllMono(g: Graph, n: Node, ids: seq<string>, f1: nat, f2: nat)
    requires f1 <= f2 && RefAll(g, n, ids, f1).Some?
    ensures RefAll(g, n, ids, f2) == RefAll(g, n, ids, f1)
    decreases f1, 1, |ids|
  {
    if |ids| > 0 {
      RefMono(g, n, ids[0], f1, f2);
      RefAllMono(g, n, ids[1..], f1, f2);
    }
  }

  /** `v` is the reference value of the input at some fuel. */
  ghost predicate IsRef(g: Graph, n: Node, input: string, v: Resolved) {
    exists f: nat :: RefResolve(g, n, input, f) == Some(v)
  }

  /** Every cache entry of a node of the graph holds that input's reference value. */
  ghost predicate Sound(g: Graph, memo: Memo) {
    forall n, input :: n in g.nodes && KeyOf(n, input) in memo ==> IsRef(g, n, input, memo[KeyOf(n, input)])
  }

  lemma StoreSound(g: Graph, memo: Memo, n: Node, input: string, v: Resolved)
    requires UniqueIds(g.nodes) && n in g.nodes && Sound(g, memo) && IsRef(g, n, input, v)
    ensures Sound(g, memo[KeyOf(n, input) := v])
  {
    var m2 := memo[KeyOf(n, input) := v];
    forall m, i | m in g.nodes && KeyOf(m, i) in m2
      ensures IsRef(g, m, i, m2[KeyOf(m, i)])
    {
      if KeyOf(m, i) == KeyOf(n, input) {
        SameIdSameNode(g.nodes, m, n);
      }
    }
  }

  // ---------------------------------------------------------------------
  // The cache is transparent
  // ---------------------------------------------------------------------

  /** Resolution from a sound cache returns a reference value and leaves the
      cache sound. */
  lemma {:induction false} ResolveIsRef(g: Graph, n: Node, input: string, memo: Memo, fuel: nat)
    requires UniqueIds(g.nodes) && n in g.nodes && Sound(g, memo)
    requires Resolve(g, n, input, memo, fuel).Some?
    ensures IsRef(g, n, input, Resolve(g, n, input, memo, fuel).value.value)
    ensures Sound(g, Resolve(g, n, input, memo, fuel).value.memo)
    decreases fuel, 0, 0
  {
    var r := Resolve(g, n, input, memo, fuel).value;
    if KeyOf(n, input) in memo {
    } else {
      match AST.GetConnectionToInput(g, n.id, input)
      case None =>
        assert RefResolve(g, n, input, 1) == Some(r.value);
        StoreSound(g, memo, n, input, r.value);
      case Some(c) =>
        match AST.GetNodeById(g, c.fromNode)
        case None =>
          assert RefResolve(g, n, input, 1) == Some(r.value);
          StoreSound(g, memo, n, input, r.value);
        case Some(src) =>
          var less: int := fuel - 1;
          ResolveUnfold(g, n, input, memo, c, src, fuel, less);
          var s := Source(g, src, memo, less).value;
          SourceIsRef(g, src, memo, less);
          var fs: nat :| RefSource(g, src, fs) == Some(s.picked);
          RefUnfold(g, n, input, c, src, fs + 1, fs);
          StoreSound(g, s.memo, n, input, r.value);
    }
  }

  lemma {:induction false} SourceIsRef(g: Graph, src: Node, memo: Memo, fuel: nat)
    requires UniqueIds(g.nodes) && src in g.nodes && Sound(g, memo)
    requires Source(g, src, memo, fuel).Some?
    ensures Sound(g, Source(g, src, memo, fuel).value.memo)
    ensures exists f: nat :: RefSource(g, src, f) == Some(Source(g, src, memo, fuel).value.picked)
    decreases fuel, 2, 0
  {
    var k := LD.KindOf(src.nodeType);
    var vs := ResolveAll(g, src, Operands(k), memo, fuel).value;
    AllIsRef(g, src, Operands(k), memo, fuel);
    var f: nat :| RefAll(g, src, Operands(k), f) == Some(vs.values);
    assert RefSource(g, src, f) == Some(Source(g, src, memo, fuel).value.picked);
  }

  lemma {:induction false} AllIsRef(g: Graph, n: Node, ids: seq<string>, memo: Memo, fuel: nat)
    requires UniqueIds(g.nodes) && n in g.nodes && Sound(g, memo)
    requires ResolveAll(g, n, ids, memo, fuel).Some?
    ensures Sound(g, ResolveAll(g, n, ids, memo, fuel).value.memo)
    ensures exists f: nat :: RefAll(g, n, ids, f) == Some(ResolveAll(g, n, ids, memo, fuel).value.values)
    decreases fuel, 1, |ids|
  {
    if |ids| == 0 {
      assert RefAll(g, n, ids, 0) == Some([]);
    } else {
      var v := Resolve(g, n, ids[0], memo, fuel).value;
      ResolveIsRef(g, n, ids[0], memo, fuel);
      var rest := ResolveAll(g, n, ids[1..], v.memo, fuel).value;
      AllIsRef(g, n, ids[1..], v.memo, fuel);
      var f1: nat :| RefResolve(g, n, ids[0], f1) == Some(v.value);
      var f2: nat :| RefAll(g, n, ids[1..], f2) == Some(rest.values);
      var f := if f1 < f2 then f2 else f1;
      RefMono(g, n, ids[0], f1, f);
      RefAllMono(g, n, ids[1..], f2, f);
      assert RefAll(g, n, ids, f) == Some([v.value] + rest.values);
    }
  }

  /** Resolution from a sound cache succeeds whenever the reference does. */
  lemma {:induction false} ResolveComplete(g: Graph, n: Node, input: string, memo: Memo, fuel: nat)
    requires UniqueIds(g.nodes) && n in g.nodes && Sound(g, memo)
    requires RefResolve(g, n, input, fuel).Some?
    ensures Resolve(g, n, input, memo, fuel).Some?
    decreases fuel, 0, 0
  {
    if KeyOf(n, input) !in memo {
      match AST.GetConnectionToInput(g, n.id, input)
      case None =>
      case Some(c) =>
        match AST.GetNodeById(g, c.fromNode)
        case None =>
        case Some(src) =>
          var less: int := fuel - 1;
          RefUnfold(g, n, input, c, src, fuel, less);
          ResolveUnfold(g, n, input, memo, c, src, fuel, less);
          SourceComplete(g, src, memo, less);
    }
  }

  lemma {:induction false} SourceComplete(g: Graph, src: Node, memo: Memo, fuel: nat)
    requires UniqueIds(g.nodes) && src in g.nodes && Sound(g, memo)
    requires RefSource(g, src, fuel).Some?
    ensures Source(g, src, memo, fuel).Some?
    decreases fuel, 2, 0
  {
    AllComplete(g, src, Operands(LD.KindOf(src.nodeType)), memo, fuel);
  }

  lemma {:induction false} AllComplete(g: Graph, n: Node, ids: seq<string>, memo: Memo, fuel: nat)
    requires UniqueIds(g.nodes) && n in g.nodes && Sound(g, memo)
    requires RefAll(g, n, ids, fuel).Some?
    ensures ResolveAll(g, n, ids, memo, fuel).Some?
    decreases fuel, 1, |ids|
  {
    if |ids| > 0 {
      ResolveComplete(g, n, ids[0], memo, fuel);
      var v := Resolve(g, n, ids[0], memo, fuel).value;
      ResolveIsRef(g, n, ids[0], memo, fuel);
      AllComplete(g, n, ids[1..], v.memo, fuel);
    }
  }

  lemma EmptySound(g: Graph)
    ensures Sound(g, map[])
  {
  }

  /** The cache changes nothing: from a sound cache (the empty one, say)
      resolution succeeds whenever the cache-free computation does, and then
      returns the very same value, whatever fuel that computation used. */
  lemma CacheTransparent(g: Graph, n: Node, input: string, memo: Memo, fuel: nat, f: nat)
    requires UniqueIds(g.nodes) && n in g.nodes && Sound(g, memo)
    ensures RefResolve(g, n, input, fuel).Some? ==> Resolve(g, n, input, memo, fuel).Some?
    ensures Resolve(g, n, input, memo, fuel).Some? && RefResolve(g, n, input, f).Some? ==>
      Resolve(g, n, input, memo, fuel).value.value == RefResolve(g, n, input, f).value
  {
    if RefResolve(g, n, input, fuel).Some? {
      ResolveComplete(g, n, input, memo, fuel);
    }
    if Resolve(g, n, input, memo, fuel).Some? && RefResolve(g, n, input, f).Some? {
      ResolveIsRef(g, n, input, memo, fuel);
      var f0: nat :| RefResolve(g, n, input, f0) == Some(Resolve(g, n, input, memo, fuel).value.value);
      if f0 <= f {
        RefMono(g, n, input, f0, f);
      } else {
        RefMono(g, n, input, f, f0);
      }
    }
  }

  /** A second request for the same input is answered from the cache, with
      any fuel at all, and leaves the cache as it was. */
  lemma SecondRequestCached(g: Graph, n: Node, input: string, memo: Memo, fuel: nat, later: nat)
    requires Resolve(g, n, input, memo, fuel).Some? && later > 0
    ensures Resolve(g, n, input, Resolve(g, n, input, memo, fuel).value.memo, later) == Resolve(g, n, input, memo, fuel)
  {
  }

  // ---------------------------------------------------------------------
  // Termination on data graphs without cycles
  // ---------------------------------------------------------------------

  /** Every connection into a port other than the exec input `in` goes from a
      node of lower rank to a node of higher rank. */
  predicate DataRanked(g: Graph, rank: map<int, nat>) {
    forall i :: 0 <= i < |g.connections| && g.connections[i].toPort != "in" ==>
      && g.connections[i].fromNode in rank && g.connections[i].toNode in rank
      && rank[g.connections[i].fromNode] < rank[g.connections[i].toNode]
  }

  lemma {:induction false} RankedResolves(g: Graph, rank: map<int, nat>, n: Node, input: string, fuel: nat)
    requires DataRanked(g, rank) && n.id in rank && input != "in" && fuel > rank[n.id]
    ensures RefResolve(g, n, input, fuel).Some?
    decreases rank[n.id], 0, 0
  {
    match AST.GetConnectionToInput(g, n.id, input)
    case None =>
    case Some(c) =>
      var i :| 0 <= i < |g.connections| && g.connections[i] == c;
      match AST.GetNodeById(g, c.fromNode)
      case None =>
      case Some(src) =>
        var less: int := fuel - 1;
        RefUnfold(g, n, input, c, src, fuel, less);
        RankedSource(g, rank, src, less);
  }

  lemma {:induction false} RankedSource(g: Graph, rank: map<int, nat>, src: Node, fuel: nat)
    requires DataRanked(g, rank) && src.id in rank && fuel > rank[src.id]
    ensures RefSource(g, src, fuel).Some?
    decreases rank[src.id], 2, 0
  {
    OperandsAvoidIn(LD.KindOf(src.nodeType));
    RankedAll(g, rank, src, Operands(LD.KindOf(src.nodeType)), fuel);
  }

  lemma OperandsAvoidIn(k: Option<LD.NodeKind>)
    ensures forall i :: 0 <= i < |Operands(k)| ==> Operands(k)[i] != "in"
  {
  }

  lemma {:induction false} RankedAll(g: Graph, rank: map<int, nat>, n: Node, ids: seq<string>, fuel: nat)
    requires DataRanked(g, rank) && n.id in rank && fuel > rank[n.id]
    requires forall i :: 0 <= i < |ids| ==> ids[i] != "in"
    ensures RefAll(g, n, ids, fuel).Some?
    decreases rank[n.id], 1, |ids|
  {
    if |ids| > 0 {
      RankedResolves(g, rank, n, ids[0], fuel);
      RankedAll(g, rank, n, ids[1..], fuel);
    }
  }

  /** On a ranked graph resolution with the cache succeeds with fuel above
      the node's rank, whatever the cache holds: a hit answers at once, and
      a miss only asks for inputs of lower rank. */
  lemma {:induction false} RankedResolvesCached(g: Graph, rank: map<int, nat>, n: Node, input: string, memo: Memo, fuel: nat)
    requires DataRanked(g, rank) && n.id in rank && input != "in" && fuel > rank[n.id]
    ensures Resolve(g, n, input, memo, fuel).Some?
    decreases rank[n.id], 0, 0
  {
    if KeyOf(n, input) !in memo {
      match AST.GetConnectionToInput(g, n.id, input)
      case None =>
      case Some(c) =>
        var i :| 0 <= i < |g.connections| && g.connections[i] == c;
        match AST.GetNodeById(g, c.fromNode)
        case None =>
        case Some(src) =>
          var less: int := fuel - 1;
          ResolveUnfold(g, n, input, memo, c, src, fuel, less);
          RankedSourceCached(g, rank, src, memo, less);
    }
  }

  lemma {:induction false} RankedSourceCached(g: Graph, rank: map<int, nat>, src: Node, memo: Memo, fuel: nat)
    requires DataRanked(g, rank) && src.id in rank && fuel > rank[src.id]
    ensures Source(g, src, memo, fuel).Some?
    decreases rank[src.id], 2, 0
  {
    OperandsAvoidIn(LD.KindOf(src.nodeType));
    RankedAllCached(g, rank, src, Operands(LD.KindOf(src.nodeType)), memo, fuel);
  }

  lemma {:induction false} RankedAllCached(g: Graph, rank: map<int, nat>, n: Node, ids: seq<string>, memo: Memo, fuel: nat)
    requires DataRanked(g, rank) && n.id in rank && fuel > rank[n.id]
    requires forall i :: 0 <= i < |ids| ==> ids[i] != "in"
    ensures ResolveAll(g, n, ids, memo, fuel).Some?
    decreases rank[n.id], 1, |ids|
  {
    if |ids| > 0 {
      RankedResolvesCached(g, rank, n, ids[0], memo, fuel);
      var v := Resolve(g, n, ids[0], memo, fuel).value;
      RankedAllCached(g, rank, n, ids[1..], v.memo, fuel);
    }
  }

  /** On a graph whose data connections are ranked, resolving an input of a
      node succeeds with fuel above the node's rank, from an empty cache,
      and yields the reference value. */
  lemma AcyclicDataResolves(g: Graph, rank: map<int, nat>, n: Node, input: string, fuel: nat)
    requires UniqueIds(g.nodes) && n in g.nodes && DataRanked(g, rank)
    requires n.id in rank && input != "in" && fuel > rank[n.id]
    ensures Resolve(g, n, input, map[], fuel).Some? && RefResolve(g, n, input, fuel).Some?
    ensures Resolve(g, n, input, map[], fuel).value.value == RefResolve(g, n, input, fuel).value
  {
    RankedResolves(g, rank, n, input, fuel);
    EmptySound(g);
    CacheTransparent(g, n, input, map[], fuel, fuel);
  }
}
