# NodeCanvas compilers in Dafny

NodeCanvas is a visual programming playground. A program is a graph of
nodes, such as "move to", "repeat", "add" or "get variable". Nodes have
typed ports:

- **exec ports** carry control flow;
- **data ports** carry values.

A compiler walks the graph and writes a JavaScript program that draws on
a canvas. The repository holds two generations of this pipeline. This
project models both.

| generation | node registry | graph | generator |
|---|---|---|---|
| newer | `js/core/LanguageDefinition.js` | `js/AbstractSyntaxTree.js` | `js/CodeGenerator.js` |
| older | `js/core/NodeDefinitions.js` | `js/IntermediateRepresentation.js` | `js/Backend.js` |

The model follows the code's own structure, with one module per source
file:

- **`LanguageDefinition` and `NodeDefinitions`** hold the palettes of
  node types, their titles and the blueprint of each type. A blueprint
  lists the type's ports, defaults and properties.
- **`AbstractSyntaxTree` and `IntermediateRepresentation`** hold the
  editable graph:
  - creating nodes from blueprints;
  - the checks that decide whether a connection may be made;
  - the rule that an input has at most one incoming connection;
  - removal of nodes and connections;
  - saving and loading. The newer graph also migrates loaded nodes to
    the current blueprints.
- **`CodeGenerator` and `Backend`** are the two generators. They take the
  same steps:
  - resolve data inputs, with a cache;
  - walk the exec chains with a "visited" set;
  - hoist function definitions ahead of the main program.

  The newer generator also generates a game loop and keyboard handlers.
- **The `…Lemmas`, `…Resolution`, `…Cycles`, `…Termination` and
  `CodeGeneratorOutput` modules** hold the properties proved about these:
  - `…Resolution` compares cached resolution with a cache-free reference;
  - `…Cycles` shows how exec cycles are cut, or never end;
  - `…Termination` shows that generation finishes on graphs that fit a
    ranking. `Ranking` holds the fuel arithmetic these proofs share.
- **`Wrappers`, `Seqs`, `Text` and `Schema`** are shared modules. They
  cover options, the array methods the code uses (`find`, `filter`, …),
  JavaScript string operations (`JSON.stringify` of a string,
  `toLowerCase`, `trim`, the quote-removing `replace` calls) and the node
  and port records.

Each generator is a set of mutually recursive functions, and each takes a
`fuel` bound. A result of `None` means that the JavaScript recursion would
go deeper than the bound. Several lemmas show that certain graphs give
`None` for every fuel. Those are graphs on which the JavaScript recursion
never ends, so the stack overflows.

A text placeholder that a generator writes into its output is modelled as
text, character for character. Examples are `undefined /* Source node not
found */` and `// No Start node found.`.

## Model

| member | source | states |
|---|---|---|
| LanguageDefinition.KindOf | js/core/LanguageDefinition.js:60-114 | a type string is looked up to a registered kind only under that kind's own tag |
| LanguageDefinition.Config | js/core/LanguageDefinition.js:60-114 | every registered blueprint is well formed and filed under its palette category; it has an exec input exactly when it has an exec output and is not one of the three program roots; operators have data inputs `a`/`b` (or `a`) and output `result`; literal and random blocks keep the defaults of their inputs in their properties |
| LanguageDefinition.TagInjective | js/core/LanguageDefinition.js:60-113 | no two registry entries share a type tag |
| LanguageDefinition.KindOfTag | js/core/LanguageDefinition.js:60-114 | looking up a kind's own tag finds that kind |
| LanguageDefinition.Listed | js/core/LanguageDefinition.js:3-53 | every registered kind appears in the palette, at its ordinal, with its title and category |
| LanguageDefinition.PaletteTypesUnique | js/core/LanguageDefinition.js:3-53 | no type is listed twice in the palette |
| LanguageDefinition.PaletteMatchesRegistry | js/core/LanguageDefinition.js:3-114 | a type has a registry entry exactly when the palette lists it |
| LanguageDefinition.ConfigOfTag | js/core/LanguageDefinition.js:60-114 | `getNodeConfigByType` of a listed tag returns that kind's own entry |
| LanguageDefinition.CategoriesAgree | js/core/LanguageDefinition.js:3-114 | each palette entry's blueprint carries the same category as the palette entry |
| LanguageDefinition.UnlistedIsGeneral | js/core/LanguageDefinition.js:113 | an unlisted type, other than an inherited object member name, gets the empty `general` fallback blueprint |
| LanguageDefinition.TitleOfListed | js/core/LanguageDefinition.js:55-58 | a listed type's title is its palette name |
| LanguageDefinition.TitleOfUnlisted | js/core/LanguageDefinition.js:55-58 | an unlisted type is its own title |
| LanguageDefinition.ConfigWellFormed | js/core/LanguageDefinition.js:60-114 | every blueprint the lookup hands out, for any string, is well formed: exec ports typed `exec`, data inputs with defaults, unique port ids, the exec input named `in` |
| LanguageDefinition.StatementsHaveExecInput | js/core/LanguageDefinition.js:62-112 | exactly the statement types take an exec input, so no exec edge can end at `start`, `gameLoop` or `whenKeyPressed` |
| LanguageDefinition.OperatorShape | js/core/LanguageDefinition.js:102-110 | the binary operators read data inputs `a` then `b` and produce the data output `result` |
| LanguageDefinition.NotShape | js/core/LanguageDefinition.js:111 | `not` reads the one data input `a` and produces `result` |
| LanguageDefinition.LiteralsConsistent | js/core/LanguageDefinition.js:98-100 | `number` and `string` keep their `value` input default in their `value` property, and `randomNumber` its `min` and `max` defaults |
| NodeDefinitions.KindOf | js/core/NodeDefinitions.js:31-175 | a type string is looked up to a registered kind only under that kind's own tag |
| NodeDefinitions.Config | js/core/NodeDefinitions.js:31-175 | every registered blueprint of the older registry is well formed and filed under its palette category; exec inputs exactly on the statements; `start` has only the exec output `out`; `if`/`while` take an expression condition; the literals mirror their defaults in their properties |
| NodeDefinitions.TagInjective | js/core/NodeDefinitions.js:32-173 | no two registry entries share a type tag |
| NodeDefinitions.KindOfTag | js/core/NodeDefinitions.js:31-175 | looking up a kind's own tag finds that kind |
| NodeDefinitions.Listed | js/core/NodeDefinitions.js:3-22 | every registered kind appears in the palette, at its ordinal |
| NodeDefinitions.PaletteTypesUnique | js/core/NodeDefinitions.js:3-22 | no type is listed twice in the palette |
| NodeDefinitions.PaletteMatchesRegistry | js/core/NodeDefinitions.js:3-175 | a type has a registry entry exactly when the palette lists it |
| NodeDefinitions.ConfigOfTag | js/core/NodeDefinitions.js:31-175 | a listed tag is looked up to that kind's own entry |
| NodeDefinitions.CategoriesAgree | js/core/NodeDefinitions.js:3-175 | each palette entry's blueprint carries the palette entry's category |
| NodeDefinitions.UnlistedIsGeneral | js/core/NodeDefinitions.js:174 | an unlisted type, other than an inherited object member name, gets the empty `general` fallback |
| NodeDefinitions.TitleOfListed | js/core/NodeDefinitions.js:24-27 | a listed type's title is its palette name |
| NodeDefinitions.TitleOfUnlisted | js/core/NodeDefinitions.js:24-27 | an unlisted type is its own title |
| NodeDefinitions.ConfigWellFormed | js/core/NodeDefinitions.js:31-175 | every blueprint handed out, for any string, is well formed |
| NodeDefinitions.StatementsHaveExecInput | js/core/NodeDefinitions.js:33-172 | a type has an exec input exactly when it has an exec output and is not `start`, so no exec edge can end at `start` |
| NodeDefinitions.StartShape | js/core/NodeDefinitions.js:33-36 | `start` has no inputs and the single exec output `out` |
| NodeDefinitions.ConditionsAreExpressions | js/core/NodeDefinitions.js:105-127 | the `if` and `while` conditions are data inputs of type `expression` with the default `true` |
| NodeDefinitions.LiteralsConsistent | js/core/NodeDefinitions.js:161-172 | `number` and `string` keep their `value` input default (`0`, `'hello'`) in their `value` property |
| AbstractSyntaxTree.CreateNode | js/AbstractSyntaxTree.js:11-42 | the new node takes the next id and the requested type, is appended, connections stay, and the next id goes up by one |
| AbstractSyntaxTree.GetNodeById | js/AbstractSyntaxTree.js:121-123 | a node is found only if it is in the graph with that id, and nothing is found exactly when no node has that id |
| AbstractSyntaxTree.CreateConnection | js/AbstractSyntaxTree.js:44-105 | making a connection never touches the nodes or the next id |
| AbstractSyntaxTree.RemoveNode | js/AbstractSyntaxTree.js:107-113 | exactly the nodes with that id go, and exactly the connections touching it; the rest keep their order and every remaining node and connection occurs as often as before |
| AbstractSyntaxTree.RemoveConnection | js/AbstractSyntaxTree.js:115-119 | exactly the connections with that id go, the rest in their order and number; an unknown id leaves the graph as it was |
| AbstractSyntaxTree.GetConnectionsForNode | js/AbstractSyntaxTree.js:125-127 | the result holds exactly the connections starting or ending at the node |
| AbstractSyntaxTree.GetConnectionToInput | js/AbstractSyntaxTree.js:129-131 | a connection found feeds that input, and none is found exactly when nothing feeds it |
| AbstractSyntaxTree.ToJSON | js/AbstractSyntaxTree.js:133-141 | the document holds every node as saved, in order, the connections and the next id |
| AbstractSyntaxTree.MergeDefault | js/AbstractSyntaxTree.js:161-167 | a migrated input is the blueprint input except perhaps its default, and it has a default whenever the blueprint's has one |
| AbstractSyntaxTree.MaxId | js/AbstractSyntaxTree.js:156 | `Math.max(...ids, 0)` is at least 0 and every id, and is 0 or one of the ids |
| AbstractSyntaxTree.FromJSON | js/AbstractSyntaxTree.js:143-184 | invalid data loads the empty graph with next id 1; otherwise the connections are kept, every saved node is migrated, in order, and the next id is the saved one when it is not 0, else one more than the largest saved id (1 without nodes) |
| AbstractSyntaxTreeLemmas.RefusalChangesNothing | js/AbstractSyntaxTree.js:45-76 | a request failing any of the checks (missing node, missing port, exec self-loop, port type or data type mismatch) returns null and changes nothing |
| AbstractSyntaxTreeLemmas.MadeAsRequested | js/AbstractSyntaxTree.js:44-105 | a connection is only made for an admissible request, joins exactly the requested ports under the `conn_…` id, and is appended last |
| AbstractSyntaxTreeLemmas.AdmissibleAttaches | js/AbstractSyntaxTree.js:78-105 | an admissible request replaces the connection into the input and attaches the new one |
| AbstractSyntaxTreeLemmas.SpliceClears | js/AbstractSyntaxTree.js:79-83 | with at most one connection per input, removing the first one into an input leaves none and keeps every other connection |
| AbstractSyntaxTreeLemmas.AttachReplaces | js/AbstractSyntaxTree.js:79-104 | after attaching, the old connection into the input is gone, everything else stays, and the input is fed by the new connection; the duplicate check never fires |
| AbstractSyntaxTreeLemmas.AdmissibleIsMade | js/AbstractSyntaxTree.js:44-105 | in a valid graph an admissible request is never refused, and afterwards feeds the input |
| AbstractSyntaxTreeLemmas.CreateConnectionKeepsValid | js/AbstractSyntaxTree.js:44-105 | unique ids below the next id, one connection per input and well-fitting edges survive `createConnection`, refused or not |
| AbstractSyntaxTreeLemmas.CreateNodeKeepsValid | js/AbstractSyntaxTree.js:11-42 | creating a node keeps the graph invariant: the new id is unused |
| AbstractSyntaxTreeLemmas.RemoveNodeKeepsValid | js/AbstractSyntaxTree.js:107-113 | removing a node keeps the invariant: no edge is left dangling |
| AbstractSyntaxTreeLemmas.RemoveConnectionKeepsValid | js/AbstractSyntaxTree.js:115-119 | removing a connection keeps the invariant |
| AbstractSyntaxTreeLemmas.SeedKeepsBlueprint | js/AbstractSyntaxTree.js:33-38 | seeding literal and random properties at creation gives the blueprint's own properties, for every type |
| AbstractSyntaxTreeLemmas.NewLiteralMirrorsInput | js/AbstractSyntaxTree.js:33-34 | a new `number` or `string` node's `value` property equals its `value` input default |
| AbstractSyntaxTreeLemmas.NewRandomMirrorsBounds | js/AbstractSyntaxTree.js:35-37 | a new random block's `min` and `max` properties equal its input defaults |
| AbstractSyntaxTreeLemmas.MigrateConforms | js/AbstractSyntaxTree.js:156-175 | every migrated node has its type's ports, in order, and at least its blueprint's properties |
| AbstractSyntaxTreeLemmas.NewNodeConforms | js/AbstractSyntaxTree.js:11-42 | a freshly created node conforms to its blueprint |
| AbstractSyntaxTreeLemmas.MigrateSavedIffConforms | js/AbstractSyntaxTree.js:156-175 | saving then migrating a node gives it back exactly when it conforms |
| AbstractSyntaxTreeLemmas.MergeKeepsInstances | js/AbstractSyntaxTree.js:161-167 | merging saved defaults that are already instances of the blueprint inputs gives them back |
| AbstractSyntaxTreeLemmas.MigrateIdempotent | js/AbstractSyntaxTree.js:156-175 | loading a node that was loaded before changes nothing more |
| AbstractSyntaxTreeLemmas.RoundTrip | js/AbstractSyntaxTree.js:133-175 | saving then loading gives the graph back exactly when every node conforms and the next id is not 0 |
| AbstractSyntaxTreeLemmas.CreateNodeKeepsSaveable | js/AbstractSyntaxTree.js:11-42 | creating nodes keeps a graph one that survives saving and loading |
| AbstractSyntaxTreeLemmas.RemoveNodeKeepsSaveable | js/AbstractSyntaxTree.js:107-113 | removing nodes keeps a graph one that survives saving and loading |
| AbstractSyntaxTreeLemmas.LoadedIdsBelow | js/AbstractSyntaxTree.js:153 | a missing or zero next id is recomputed above every loaded id |
| IntermediateRepresentation.CreateNode | js/IntermediateRepresentation.js:10-36 | the new node takes the next id, type and position, is appended, and the next id goes up by one |
| IntermediateRepresentation.GetNodeById | js/IntermediateRepresentation.js:91-93 | a node found has that id and is in the graph; none is found exactly when no node has that id |
| IntermediateRepresentation.CreateConnection | js/IntermediateRepresentation.js:38-80 | making a connection never touches the nodes or the next id |
| IntermediateRepresentation.RemoveNode | js/IntermediateRepresentation.js:82-85 | exactly the nodes with that id go, and exactly the connections touching it; the rest keep their order and every remaining node and connection occurs as often as before |
| IntermediateRepresentation.RemoveConnection | js/IntermediateRepresentation.js:87-89 | exactly the connections with that id go, the rest in their order and number; an unknown id changes nothing |
| IntermediateRepresentation.GetConnectionsForNode | js/IntermediateRepresentation.js:95-97 | exactly the connections starting or ending at the node |
| IntermediateRepresentation.GetConnectionToInput | js/IntermediateRepresentation.js:99-101 | a connection found feeds that input; none is found exactly when nothing feeds it |
| IntermediateRepresentation.ToJSON | js/IntermediateRepresentation.js:103-105 | the document holds the nodes, connections and next id as they are |
| IntermediateRepresentation.FromJSON | js/IntermediateRepresentation.js:107-111 | nodes and connections are taken as saved; the next id is never 0 and is the saved one when that is not 0 |
| IntermediateRepresentationLemmas.RefusalChangesNothing | js/IntermediateRepresentation.js:39-59 | a request failing any check (missing node or port, self-connection, port or data type mismatch) returns null and changes nothing |
| IntermediateRepresentationLemmas.MadeAsRequested | js/IntermediateRepresentation.js:38-80 | a connection is only made for an admissible request between two different nodes, joins exactly the requested ports under the `conn_…_stamp` id, and is appended last |
| IntermediateRepresentationLemmas.AdmissibleAttaches | js/IntermediateRepresentation.js:61-79 | an admissible request clears the input and attaches the new connection |
| IntermediateRepresentationLemmas.ClearedClears | js/IntermediateRepresentation.js:61-65 | with one connection per input, removing the existing connection's id leaves the input unfed and keeps every connection with another id |
| IntermediateRepresentationLemmas.AttachReplaces | js/IntermediateRepresentation.js:61-79 | after attaching, the input is fed by the new connection, appended after the cleared list; the duplicate check never fires |
| IntermediateRepresentationLemmas.AdmissibleIsMade | js/IntermediateRepresentation.js:38-80 | in a valid graph an admissible request is never refused, and afterwards feeds the input |
| IntermediateRepresentationLemmas.CreateConnectionKeepsValid | js/IntermediateRepresentation.js:38-80 | the graph invariant survives `createConnection`, refused or not |
| IntermediateRepresentationLemmas.CreateNodeKeepsValid | js/IntermediateRepresentation.js:10-36 | creating a node keeps the invariant |
| IntermediateRepresentationLemmas.RemoveNodeKeepsValid | js/IntermediateRepresentation.js:82-85 | removing a node keeps the invariant |
| IntermediateRepresentationLemmas.RemoveConnectionKeepsValid | js/IntermediateRepresentation.js:87-89 | removing a connection keeps the invariant |
| IntermediateRepresentationLemmas.NewLiteralMirrorsInput | js/IntermediateRepresentation.js:28-32 | a new `number` or `string` node's `value` property is its `value` input default |
| IntermediateRepresentationLemmas.RoundTrip | js/IntermediateRepresentation.js:103-111 | saving then loading gives the graph back exactly when its next id is not 0 |
| CodeGenerator.Resolve | js/CodeGenerator.js:253-345 | a resolved input is cached under its node-input-type key, and the cache only grows |
| CodeGenerator.ResolveAll | js/CodeGenerator.js:281-299 | one value per requested operand, and the cache only grows |
| CodeGenerator.ResolveInputs | js/CodeGenerator.js:146-149 | resolving a node's data inputs only adds to the cache |
| CodeGenerator.ExecEdgeFrom | js/CodeGenerator.js:241 | the edge found is an exec connection out of that port and no such connection comes before it; none is found exactly when there is none |
| CodeGenerator.FunctionDefinition | js/CodeGenerator.js:386-401 | a definition records its node's id as defined and only adds to the cache |
| CodeGeneratorResolution.RefMono | js/CodeGenerator.js:253-345 | the cache-free reference value of an input does not depend on the fuel once found |
| CodeGeneratorResolution.ResolveIsRef | js/CodeGenerator.js:253-345 | resolving with a sound cache returns the input's reference value and leaves the cache sound |
| CodeGeneratorResolution.ResolveComplete | js/CodeGenerator.js:253-345 | resolving with a sound cache succeeds whenever the cache-free reference does |
| CodeGeneratorResolution.CacheTransparent | js/CodeGenerator.js:254-255 | the cache changes no value: what is resolved with it equals the reference value at any fuel |
| CodeGeneratorResolution.SecondRequestCached | js/CodeGenerator.js:254-255 | asking again for a resolved input returns the same value and leaves the cache alone |
| CodeGeneratorResolution.RankedResolves | js/CodeGenerator.js:261-303 | in a data graph ranked without cycles, an input's reference value exists once fuel exceeds its node's rank |
| CodeGeneratorResolution.AcyclicDataResolves | js/CodeGenerator.js:253-345 | on a graph without data cycles resolution from the empty cache terminates and gives the reference value |
| CodeGeneratorLemmas.SourceStalls | js/CodeGenerator.js:281-299 | a source whose first operand cannot be resolved supplies nothing |
| CodeGeneratorLemmas.OperatorOperandsStartWithA | js/CodeGenerator.js:290-299 | every operator resolves its `a` input first |
| CodeGeneratorLemmas.SelfFedOperatorDiverges | js/CodeGenerator.js:290-299 | an operator whose `a` input is fed by itself recurses forever: no fuel resolves it |
| CodeGeneratorLemmas.SelfFedNotRanked | js/CodeGenerator.js:290-299 | no ranking fits a graph with such a self-loop |
| CodeGeneratorLemmas.BlockStallsExec | js/CodeGenerator.js:143-221 | a block whose statement cannot be generated makes its frame fail |
| CodeGeneratorLemmas.ChainStallsExec | js/CodeGenerator.js:143-236 | a statement whose continuation cannot be generated makes its frame fail |
| CodeGeneratorLemmas.FollowEdge | js/CodeGenerator.js:240-245 | following an exec edge to an existing node generates that node, on the same path |
| CodeGeneratorLemmas.NothingToResolve | js/CodeGenerator.js:146-149 | a node without data inputs resolves nothing and leaves the cache alone |
| CodeGeneratorLemmas.ChainStep | js/CodeGenerator.js:143-237 | a plain statement emits its own text, then what follows its `out` port with itself marked visited |
| CodeGeneratorLemmas.Revisit | js/CodeGenerator.js:140-142 | reaching a node already on the path writes the loop comment and stops |
| CodeGeneratorResolution.RankedResolvesCached | js/CodeGenerator.js:253-345 | on a ranked data graph an input resolves from any cache once fuel exceeds its node's rank |
| CodeGeneratorCycles.ChainCut | js/CodeGenerator.js:139-143 | a chain of `out` edges through distinct plain statements that comes back to a node on the path or on the chain writes each statement once, in order, then the loop comment about that node; the cache is untouched |
| CodeGeneratorCycles.OutLoopCaught | js/CodeGenerator.js:139-143 | in particular a two-node cycle of `out` edges is cut after one round with a comment, and generation goes on |
| CodeGeneratorCycles.FrameStalls | js/CodeGenerator.js:128-237 | a frame of a node that is neither a game loop nor a key node fails when what follows its `out` port fails for every cache |
| CodeGeneratorCycles.LoopDiverges | js/CodeGenerator.js:203-221 | a `repeat`, `if` or `while` from one of whose nested ports a chain of `out` edges through distinct nodes leads back to it is generated again inside that chain from a fresh visited set: no fuel is enough |
| CodeGeneratorCycles.NestedStalls | js/CodeGenerator.js:203-221 | the statement of such a block fails at every fuel and cache |
| CodeGeneratorCycles.PathDiverges | js/CodeGenerator.js:128-237 | every node of the chain back into the block fails at every fuel and cache |
| CodeGeneratorCycles.BlockNone | js/CodeGenerator.js:203-221 | a block's statement fails when one of the chains it opens fails for every cache; for `if`, the `else` chain counts as well as `then` |
| CodeGeneratorCycles.BodyLoopDiverges | js/CodeGenerator.js:203-207 | the smallest case: a `repeat` whose body statement leads back to it never finishes |
| CodeGeneratorTermination.InputsResolve | js/CodeGenerator.js:146-149 | on a ranked data graph a node's data inputs resolve from any cache once fuel exceeds its rank |
| CodeGeneratorTermination.ExecTerminates | js/CodeGenerator.js:128-237 | on a graph whose exec edges never climb a height out of `out` and descend out of every other port, `generateExecCode` finishes when fuel covers the data ranks, the block levels below the node and one frame per unvisited node |
| CodeGeneratorTermination.BlockTerminates | js/CodeGenerator.js:203-221 | a block's statement finishes when fuel covers the levels below it and one chain through every node |
| CodeGeneratorTermination.ConnectedTerminates | js/CodeGenerator.js:240-246 | `generateConnectedExec` finishes when the node it leads to is below the current height |
| CodeGeneratorTermination.HandlersTerminate | js/CodeGenerator.js:58-64 | every key handler is generated on such a graph |
| CodeGeneratorTermination.DefinitionsTerminate | js/CodeGenerator.js:49-55 | every function definition is generated on such a graph |
| CodeGeneratorTermination.MainTerminates | js/CodeGenerator.js:66-84 | the main code (setup chain and game loop, or the start chain) is generated on such a graph |
| CodeGeneratorTermination.RankedGenerates | js/CodeGenerator.js:13-95 | on a graph whose data edges climb a ranking and whose exec edges fit a height, `generateCode` returns a program once fuel exceeds a bound computed from the two rankings and the number of nodes |
| CodeGeneratorOutput.NoEntryIff | js/CodeGenerator.js:19-25 | the output is the "nothing to run" notice exactly when the graph has no start, game loop or key node |
| CodeGeneratorOutput.ProgramIsNotNoEntry | js/CodeGenerator.js:27-93 | no generated program is the notice, since the banner every program carries has a parenthesis and the notice has none |
| CodeGeneratorOutput.KindSupplies | js/CodeGenerator.js:268-303 | the kinds with a case in the source switch are exactly the kinds with a data output |
| CodeGeneratorOutput.SuppliesIffDataOutput | js/CodeGenerator.js:268-306 | a source node supplies a value exactly when its blueprint declares a data output; otherwise the input falls back to its declaration |
| CodeGeneratorOutput.OperandsOnlyForSuppliers | js/CodeGenerator.js:268-303 | only nodes that supply a value have operands to resolve |
| CodeGeneratorOutput.SilentSource | js/CodeGenerator.js:300-302 | a source without a data output adds nothing to the cache |
| CodeGeneratorOutput.SilentSourceFallsBack | js/CodeGenerator.js:300-313 | an input fed by a node with no data output takes its own declared default |
| CodeGeneratorOutput.WhileGuarded | js/CodeGenerator.js:215-221 | every generated `while` loop starts by declaring its guard counter and contains the 25000-iteration limit |
| CodeGeneratorOutput.HandlerNameIsIdentifier | js/CodeGenerator.js:375 | a key handler's function name is a JavaScript identifier exactly when the node id is not negative |
| CodeGeneratorOutput.HatWithoutActions | js/CodeGenerator.js:366-373 | a key node with nothing after `out` registers nothing and leaves a comment naming the key |
| CodeGeneratorOutput.QuotedDefault | js/CodeGenerator.js:327-328 | a text default on a text port is emitted as a JSON string literal |
| CodeGeneratorOutput.KeyFromDefault | js/CodeGenerator.js:352-357 | an unconnected key input yields its default key name, quotes removed and lower-cased |
| CodeGeneratorOutput.DefinedAreSkipped | js/CodeGenerator.js:387 | function nodes already defined add nothing |
| CodeGeneratorOutput.DefinitionsAppend | js/CodeGenerator.js:49-55 | the definitions of a concatenation are those of the first part followed by those of the second |
| CodeGeneratorOutput.DefinitionsRecordIds | js/CodeGenerator.js:387-388 | generating definitions marks exactly the listed ids as defined |
| CodeGeneratorOutput.DefinedOnce | js/CodeGenerator.js:387-388 | each function node is defined once, however often it is listed |
| CodeGeneratorOutput.UnconnectedResolve | js/CodeGenerator.js:306-322 | an unconnected input resolves to its declared value, which is cached |
| CodeGeneratorOutput.NamedDefinition | js/CodeGenerator.js:390-397 | a name that is an identifier once its outer quotes are removed opens a function of that name |
| CodeGeneratorOutput.FunctionNamedByDefault | js/CodeGenerator.js:390-397 | an unconnected identifier default names the function, the quotes `JSON.stringify` adds being taken off again |
| CodeGeneratorOutput.InvalidNameSkipped | js/CodeGenerator.js:393-395 | an invalid name gives the skip comment, no body, and still counts as defined |
| CodeGeneratorOutput.EntrySearch | js/CodeGenerator.js:19-23 | the three entry searches find something exactly when the graph has an entry node |
| CodeGeneratorOutput.NoEntryPoints | js/CodeGenerator.js:23-25 | a graph without an entry node yields only the "nothing to run" notice |
| CodeGeneratorOutput.ProgramOpensWithDefinitions | js/CodeGenerator.js:27-55 | the preamble is followed at once by every function definition |
| CodeGeneratorOutput.DefinitionsFirst | js/CodeGenerator.js:13-95 | with an entry node, the program opens with the preamble and then all function definitions, before any code that calls them |
| Backend.Resolve | js/Backend.js:106-141 | the cache only grows, and an input whose key is cached holds the text returned |
| Backend.FromSource | js/Backend.js:113-126 | what a source supplies is cached under the input's key, and the cache only grows |
| Backend.ResolveInputs | js/Backend.js:44-47 | resolving a node's data inputs only adds to the cache |
| Backend.ExecEdgeFrom | js/Backend.js:98 | the edge found is an exec connection out of that port and no such connection comes before it; none is found exactly when there is none |
| Backend.FunctionDefinition | js/Backend.js:143-156 | a definition records its node's id as defined and only adds to the cache |
| BackendLemmas.CacheKeyInjective | js/Backend.js:107 | `${id}_${inputId}` names one input of one node: different inputs never share a cache key |
| BackendLemmas.CachedUnlessNotFound | js/Backend.js:113-140 | a resolution is cached exactly when neither the source node nor the input's declaration is missing; the two missing cases return their placeholder and leave the cache alone |
| BackendLemmas.RepeatedLookup | js/Backend.js:107-108 | asking again for a resolved input returns the same text and cache, placeholders included |
| BackendLemmas.StringSource | js/Backend.js:124 | a `string` source supplies its value as a JSON string literal, `""` when it has none |
| BackendLemmas.NumberSource | js/Backend.js:123 | a `number` source supplies the digits of its value, `0` when it has none |
| BackendLemmas.OtherSource | js/Backend.js:125 | any other source type supplies the unsupported placeholder, which is cached |
| BackendLemmas.DefaultByType | js/Backend.js:131-137 | an expression default is taken as is, a text or colour default is JSON-quoted, a number becomes its digits and a missing default `undefined` |
| BackendLemmas.UnconnectedResolve | js/Backend.js:127-140 | an unconnected declared input resolves to its default, which is cached |
| BackendLemmas.VariableByDefaultName | js/Backend.js:118-122 | an input fed by a `getVariable` whose name is the default `s` reads `variables["s"]` |
| BackendLemmas.ConnectedStep | js/Backend.js:113-126 | an input fed by an existing node takes what that node supplies |
| BackendLemmas.VariableStep | js/Backend.js:118-122 | an input fed by `getVariable` reads the variable its `name` input resolves to |
| BackendLemmas.VariableStalls | js/Backend.js:118-122 | it cannot be resolved when that name cannot |
| BackendLemmas.NameRingDiverges | js/Backend.js:118-122 | a ring of `getVariable` nodes feeding each other's names recurses forever: no fuel resolves it |
| BackendLemmas.FedByNameRing | js/Backend.js:113-122 | an input fed by a node of such a ring cannot be resolved either |
| BackendLemmas.Silent | js/Backend.js:40 | a missing node, or one already on the path, generates nothing |
| BackendLemmas.FollowEdge | js/Backend.js:97-102 | following an exec edge generates its target, or nothing when the target does not exist |
| BackendLemmas.NoEdge | js/Backend.js:103 | a port with no exec connection generates nothing |
| BackendLemmas.NothingToResolve | js/Backend.js:44-47 | a node without data inputs resolves nothing and leaves the cache alone |
| BackendLemmas.ChainStep | js/Backend.js:39-94 | a plain statement emits its own text, then what follows its `out` port with itself visited |
| BackendCycles.ChainCut | js/Backend.js:39-94 | a chain of `out` edges through distinct statements without data inputs that comes back to a node on the path or on the chain writes each statement once, in order, and ends there without a word; the cache is untouched |
| BackendCycles.OutLoopCut | js/Backend.js:39-94 | in particular a two-node cycle of `out` edges is cut silently after one round |
| BackendCycles.FrameStalls | js/Backend.js:39-94 | a frame fails when what follows its `out` port fails for every cache |
| BackendCycles.LoopDiverges | js/Backend.js:71-87 | a `repeat`, `if` or `while` from one of whose nested ports a chain of `out` edges through distinct nodes leads back to it is generated again from a fresh visited set forever: no fuel is enough |
| BackendCycles.NestedStalls | js/Backend.js:71-87 | the statement of such a block fails at every fuel and cache |
| BackendCycles.PathDiverges | js/Backend.js:39-94 | every node of the chain back into the block fails at every fuel and cache |
| BackendCycles.BlockNone | js/Backend.js:71-87 | a block's statement fails when one of the chains it opens fails for every cache; for `if`, the `else` chain counts as well as `then` |
| BackendCycles.BodyLoopDiverges | js/Backend.js:71-75 | the smallest case: a `repeat` or `while` whose body statement leads back to it never finishes |
| BackendResolution.RefMono | js/Backend.js:106-141 | the cache-free reference value of an input does not depend on the fuel once found |
| BackendResolution.ResolveIsRef | js/Backend.js:106-141 | resolving with a sound cache returns the input's reference value and leaves the cache sound |
| BackendResolution.UnconnectedIsRef | js/Backend.js:127-140 | an input nothing feeds is resolved to its reference value: its default, or the placeholder for an undeclared input |
| BackendResolution.LiteralIsRef | js/Backend.js:113-126 | a source other than `getVariable` supplies its reference value |
| BackendResolution.SourceIsRef | js/Backend.js:118-122 | a `getVariable` source reads the variable named by the reference value of its `name` input |
| BackendResolution.ResolveComplete | js/Backend.js:106-141 | resolving with any cache succeeds whenever the cache-free reference does |
| BackendResolution.CacheTransparent | js/Backend.js:107-108 | the cache changes no value: what is resolved with a sound cache equals the reference value at any fuel |
| BackendResolution.RankedResolves | js/Backend.js:118-122 | in a data graph ranked without cycles, an input's reference value exists once fuel exceeds its node's rank |
| BackendResolution.RankedResolvesCached | js/Backend.js:106-141 | on such a graph resolution succeeds from any cache |
| BackendResolution.AcyclicDataResolves | js/Backend.js:106-141 | on such a graph resolution from the empty cache terminates and gives the reference value |
| BackendTermination.InputsResolve | js/Backend.js:44-47 | on a ranked data graph a node's data inputs resolve from any cache once fuel exceeds its rank |
| BackendTermination.ExecTerminates | js/Backend.js:39-94 | on a graph whose exec edges never climb a height out of `out` and descend out of every other port, `generateExecCode` finishes when fuel covers the data ranks, the block levels below the node and one frame per unvisited node |
| BackendTermination.BlockTerminates | js/Backend.js:71-87 | a block's statement finishes when fuel covers the levels below it and one chain through every node |
| BackendTermination.ConnectedTerminates | js/Backend.js:97-103 | `generateConnectedExec` finishes when the node it leads to is below the current height |
| BackendTermination.DefinitionsTerminate | js/Backend.js:143-156 | every function definition is generated on such a graph |
| BackendTermination.RankedGenerates | js/Backend.js:10-37 | on a graph whose data edges climb a ranking and whose exec edges fit a height, `generateCode` returns a program once fuel exceeds a bound computed from the two rankings and the number of nodes |
| BackendLemmas.BlockStallsExec | js/Backend.js:71-87 | a block whose statement cannot be generated makes its frame fail |
| BackendLemmas.ChainStallsExec | js/Backend.js:93 | a statement whose continuation cannot be generated makes its frame fail |
| BackendLemmas.DefinedAreSkipped | js/Backend.js:144 | function nodes already defined add nothing |
| BackendLemmas.DefinitionsAppend | js/Backend.js:30-31 | the definitions of a concatenation are those of the first part followed by those of the second |
| BackendLemmas.DefinitionsRecordIds | js/Backend.js:144-145 | generating definitions marks exactly the listed ids as defined |
| BackendLemmas.DefinedOnce | js/Backend.js:144-145 | each function node is defined once, however often it is listed |
| BackendLemmas.NamedDefinition | js/Backend.js:148-152 | a function opens under the name its `name` input resolves to, with every double quote removed |
| BackendLemmas.FunctionNamedByDefault | js/Backend.js:148-152 | an unconnected text default names the function, the quotes `JSON.stringify` added being removed again |
| BackendLemmas.CallByQuotedName | js/Backend.js:89 | a `callFunction` whose name resolved to the JSON literal of `s` calls `s()`, the name the definition above opens |
| BackendLemmas.NoStartIff | js/Backend.js:15-16 | the output is the no-start comment exactly when the graph has no `start` node |
| BackendLemmas.HeaderFirst | js/Backend.js:18-26 | a generated program opens with the fixed header |
| BackendLemmas.DefinitionsHoisted | js/Backend.js:10-37 | with a start node, the output is the header, then every function definition in node order, then the main banner |
| Seqs.FilterInOrder | js/CodeGenerator.js:20 | `filter` keeps the accepted elements in order, each as often as before, and drops the rest |
| Text.IntToStringInjective | js/Backend.js:107 | different integers print differently |
| Text.IntToStringDigits | js/Backend.js:107 | an integer prints as decimal digits, behind a minus sign exactly when it is negative, so the text of an id never holds an underscore |
| Text.StripOuterQuotesOfQuote | js/CodeGenerator.js:391 | removing the outer quotes of a JSON string literal of plain text gives the text back |
| Text.StripAllQuotesOfQuote | js/Backend.js:149 | removing every double quote from a JSON string literal of plain text gives the text back |
| Text.ToLower | js/CodeGenerator.js:357 | lower-casing keeps the length, maps each character and leaves no ASCII upper-case letter |
| Text.SanitizeKey | js/CodeGenerator.js:375 | every character becomes a word character, and word characters are kept |
| Text.TrimEmptyIffBlank | js/CodeGenerator.js:73 | a text trims to empty exactly when it is all white space |

## Left out

- **Display texts.** Port display names and the palette descriptions are
  not modelled. Palette names (titles) and categories are.
- **Coordinates.** They are integers. `Math.round` of a fractional
  coordinate (js/AbstractSyntaxTree.js:24-25) is not modelled, since there
  are no floating-point numbers here.
- **Connection ids.** `Date.now()` in a connection id is a parameter
  `stamp`. The clock is not modelled.
- **Newer generator output.** The audio helpers and canvas set-up that
  open the program (js/CodeGenerator.js:27-47) form a `preamble`
  parameter. The `toLocaleTimeString` stamp is part of it. The game-loop
  scaffolding is written out as constant text.
- **Console output and logging** (`console.warn`, `console.log`) are not
  modelled, since they change no result.
- **JSON values.** `null` and floating-point values in saved documents are
  not modelled. Values are integers, strings and booleans.
- **Text case.** `toLowerCase` is modelled on ASCII letters only.
- **Branches that cannot be taken.**
  - Both registries return a blueprint for every type, so the null-config
    branches of `createNode` (js/AbstractSyntaxTree.js:14-17,
    js/IntermediateRepresentation.js:13-16) are never taken.
  - For the same reason, the unknown-type branch of `fromJSON`
    (js/AbstractSyntaxTree.js:176-181) is never taken.
  - `generateExecCode(null)` (js/CodeGenerator.js:129) is never reached.
  - The start-node check during game-loop generation
    (js/CodeGenerator.js:131-135) compares a fresh set with the shared
    one, so it is never true.
  - The type check in `generateEventHandlerRegistration`
    (js/CodeGenerator.js:348) never fails, because only key nodes are
    passed to it.
- **Divergence.** Recursion depth is bounded by `fuel`. A JavaScript run
  that overflows the stack appears as `None` at every fuel. How deep the
  real stack is does not matter to the model. The `RankedGenerates`
  lemmas give a sufficient condition for finishing: rankings of the data
  and exec edges. They do not characterise every graph on which
  generation finishes.
- CodeGeneratorCycles.ChainCut: stated for chains of plain statements
  without data inputs, whose text does not depend on the cache. Chains
  through other nodes are cut by the same check
  (`CodeGeneratorLemmas.Revisit`), but their text is not written out.
- BackendCycles.ChainCut: likewise for chains of statements that are not
  blocks and have no data inputs (`BackendLemmas.Silent` is the cut
  itself).
- Backend.Resolve: on a cache hit, js/Backend.js:108 returns the raw
  cached value, and a first request returns `String(value)`. Every caller
  turns either into text in a template, so both are modelled as the same
  text.
- **Missing `inputs` array.** `node.inputs || []` in the generators is
  not modelled. Every node in the model has an input list. Loading,
  creating and migrating always supply one.
- CodeGenerator.ResolveAll: its contract states only the number of values
  and the growth of the cache. What the values are is stated through the
  reference semantics in `CodeGeneratorResolution.AllIsRef`.
- Text.SanitizeKey: replaces one Unicode code point at a time, since a Dafny
  string is a sequence of code points. The regular expression at
  js/CodeGenerator.js:375 replaces UTF-16 code units, so a key outside the
  Basic Multilingual Plane becomes `__` there and `_` here. The model's
  `|r| == |s|` counts code points.
