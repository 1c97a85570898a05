/** The node-type registry of the older editor: the palette of node types
    (`getNodeTypes`, `getNodeTitle`) and the blueprint every node of a type is
    built from (`getNodeConfigByType`). Several entries leave out `inputs` or
    `properties`, which every consumer reads as empty. */
module NodeDefinitions {
  import opened Wrappers
  import opened Schema
  import Seqs

  /** The node types the registry lists, one constructor per own key of the
      `configs` object, in palette order. */
  datatype NodeKind =
    | Start
    | MoveTo
    | LineTo
    | SetColor
    | SetPenWidth
    | DrawCircle
    | DrawRectangle
    | Repeat
    | If
    | While
    | Function
    | CallFunction
    | SetVariable
    | GetVariable
    | Number
    | String

  const KindCount := 16

  /** The kind at a palette position. */
  function KindAt(i: nat): NodeKind
    requires i < KindCount
  {
    match i
    case 0 => Start
    case 1 => MoveTo
    case 2 => LineTo
    case 3 => SetColor
    case 4 => SetPenWidth
    case 5 => DrawCircle
    case 6 => DrawRectangle
    case 7 => Repeat
    case 8 => If
    case 9 => While
    case 10 => Function
    case 11 => CallFunction
    case 12 => SetVariable
    case 13 => GetVariable
    case 14 => Number
    case _ => String
  }

  /** The palette position of a kind. */
  function Ordinal(k: NodeKind): nat {
    match k
    case Start => 0
    case MoveTo => 1
    case LineTo => 2
    case SetColor => 3
    case SetPenWidth => 4
    case DrawCircle => 5
    case DrawRectangle => 6
    case Repeat => 7
    case If => 8
    case While => 9
    case Function => 10
    case CallFunction => 11
    case SetVariable => 12
    case GetVariable => 13
    case Number => 14
    case String => 15
  }

  /** The type tag a node of this kind carries in `node.type`. */
  function Tag(k: NodeKind): string {
    match k
    case Start => "start"
    case MoveTo => "moveTo"
    case LineTo => "lineTo"
    case SetColor => "setColor"
    case SetPenWidth => "setPenWidth"
    case DrawCircle => "drawCircle"
    case DrawRectangle => "drawRectangle"
    case Repeat => "repeat"
    case If => "if"
    case While => "while"
    case Function => "function"
    case CallFunction => "callFunction"
    case SetVariable => "setVariable"
    case GetVariable => "getVariable"
    case Number => "number"
    case String => "string"
  }

  /** The palette name of a kind. */
  function Title(k: NodeKind): string {
    match k
    case Start => "Start"
    case MoveTo => "Move To"
    case LineTo => "Draw Line"
    case SetColor => "Set Color"
    case SetPenWidth => "Set Pen Width"
    case DrawCircle => "Draw Circle"
    case DrawRectangle => "Draw Rectangle"
    case Repeat => "Repeat"
    case If => "If"
    case While => "While"
    case Function => "Define Function"
    case CallFunction => "Call Function"
    case SetVariable => "Set Variable"
    case GetVariable => "Get Variable"
    case Number => "Number"
    case String => "Text"
  }

  /** The palette category of a kind. */
  function PaletteCategory(k: NodeKind): Category {
    match k
    case Start => Control
    case MoveTo => Drawing
    case LineTo => Drawing
    case SetColor => Drawing
    case SetPenWidth => Drawing
    case DrawCircle => Drawing
    case DrawRectangle => Drawing
    case Repeat => Control
    case If => Control
    case While => Control
    case Function => Procedural
    case CallFunction => Procedural
    case SetVariable => Variables
    case GetVariable => Variables
    case Number => DataBlocks
    case String => DataBlocks
  }

  /** The own key of the `configs` object equal to `t`, if there is one. */
  function KindOf(t: string): (r: Option<NodeKind>)
    ensures r.Some? ==> Tag(r.value) == t
  {
    if exists k :: Tag(k) == t then
      TagsDistinct();
      Some(var k :| Tag(k) == t; k)
    else None
  }

  /** A decision table from tags to kinds, used only to show that no two
      kinds share a tag. */
  ghost function KindOfTagTable(t: string): Option<NodeKind> {
    match t
    case "start" => Some(Start)
    case "moveTo" => Some(MoveTo)
    case "lineTo" => Some(LineTo)
    case "setColor" => Some(SetColor)
    case "setPenWidth" => Some(SetPenWidth)
    case "drawCircle" => Some(DrawCircle)
    case "drawRectangle" => Some(DrawRectangle)
    case "repeat" => Some(Repeat)
    case "if" => Some(If)
    case "while" => Some(While)
    case "function" => Some(Function)
    case "callFunction" => Some(CallFunction)
    case "setVariable" => Some(SetVariable)
    case "getVariable" => Some(GetVariable)
    case "number" => Some(Number)
    case "string" => Some(String)
    case _ => None
  }

  /** The registry table is split into sections of a few entries each; the
      split only keeps each part of the table small. */
  datatype Section = Flow | Pen | Procedures | Values

  function SectionOf(k: NodeKind): (s: Section)
    ensures k == Start ==> s == Flow
    ensures k == If || k == While ==> s == Flow
    ensures k == Number ==> s == Values
    ensures k == String ==> s == Values
  {
    match k
    case Start | Repeat | If | While => Flow
    case MoveTo | LineTo | SetColor | SetPenWidth | DrawCircle | DrawRectangle => Pen
    case Function | CallFunction | SetVariable | GetVariable => Procedures
    case Number | String => Values
  }

  // One function per entry of the `configs` object. Each takes its own kind
  // as argument so that an entry is unfolded only where it is asked for.

  /** `configs.start` */
  function StartConfig(k: NodeKind): (bp: Blueprint)
    requires k == Start
    ensures WellFormedBlueprint(bp)
    ensures bp.category == Some(PaletteCategory(k))
    ensures HasExecInput(bp) <==> HasExecOutput(bp) && !IsRoot(k)
    ensures bp.inputs.None? && OutputsOf(bp) == [ExecPort("out")]
  {
    Blueprint(
      Some(Control),
      None,
      Some([
        ExecPort("out")
      ]),
      None
    )
  }

  /** `configs.moveTo` */
  function MoveToConfig(k: NodeKind): (bp: Blueprint)
    requires k == MoveTo
    ensures WellFormedBlueprint(bp)
    ensures bp.category == Some(PaletteCategory(k))
    ensures HasExecInput(bp) <==> HasExecOutput(bp) && !IsRoot(k)
  {
    Blueprint(
      Some(Drawing),
      Some([
        ExecPort("in"),
        DataInput("x", DNumber, VNum(50)),
        DataInput("y", DNumber, VNum(50))
      ]),
      Some([
        ExecPort("out")
      ]),
      None
    )
  }

  /** `configs.lineTo` */
  function LineToConfig(k: NodeKind): (bp: Blueprint)
    requires k == LineTo
    ensures WellFormedBlueprint(bp)
    ensures bp.category == Some(PaletteCategory(k))
    ensures HasExecInput(bp) <==> HasExecOutput(bp) && !IsRoot(k)
  {
    Blueprint(
      Some(Drawing),
      Some([
        ExecPort("in"),
        DataInput("x", DNumber, VNum(150)),
        DataInput("y", DNumber, VNum(150))
      ]),
      Some([
        ExecPort("out")
      ]),
      None
    )
  }

  /** `configs.setColor` */
  function SetColorConfig(k: NodeKind): (bp: Blueprint)
    requires k == SetColor
    ensures WellFormedBlueprint(bp)
    ensures bp.category == Some(PaletteCategory(k))
    ensures HasExecInput(bp) <==> HasExecOutput(bp) && !IsRoot(k)
  {
    Blueprint(
      Some(Drawing),
      Some([
        ExecPort("in"),
        DataInput("color", DColor, VStr("#FF0000"))
      ]),
      Some([
        ExecPort("out")
      ]),
      None
    )
  }

  /** `configs.setPenWidth` */
  function SetPenWidthConfig(k: NodeKind): (bp: Blueprint)
    requires k == SetPenWidth
    ensures WellFormedBlueprint(bp)
    ensures bp.category == Some(PaletteCategory(k))
    ensures HasExecInput(bp) <==> HasExecOutput(bp) && !IsRoot(k)
  {
    Blueprint(
      Some(Drawing),
      Some([
        ExecPort("in"),
        DataInput("width", DNumber, VNum(2))
      ]),
      Some([
        ExecPort("out")
      ]),
      None
    )
  }

  /** `configs.drawCircle` */
  function DrawCircleConfig(k: NodeKind): (bp: Blueprint)
    requires k == DrawCircle
    ensures WellFormedBlueprint(bp)
    ensures bp.category == Some(PaletteCategory(k))
    ensures HasExecInput(bp) <==> HasExecOutput(bp) && !IsRoot(k)
  {
    Blueprint(
      Some(Drawing),
      Some([
        ExecPort("in"),
        DataInput("x", DNumber, VNum(100)),
        DataInput("y", DNumber, VNum(100)),
        DataInput("radius", DNumber, VNum(30))
      ]),
      Some([
        ExecPort("out")
      ]),
      Some(map["fill" := VBool(false)])
    )
  }

  /** `configs.drawRectangle` */
  function DrawRectangleConfig(k: NodeKind): (bp: Blueprint)
    requires k == DrawRectangle
    ensures WellFormedBlueprint(bp)
    ensures bp.category == Some(PaletteCategory(k))
    ensures HasExecInput(bp) <==> HasExecOutput(bp) && !IsRoot(k)
  {
    Blueprint(
      Some(Drawing),
      Some([
        ExecPort("in"),
        DataInput("x", DNumber, VNum(50)),
        DataInput("y", DNumber, VNum(50)),
        DataInput("width", DNumber, VNum(80)),
        DataInput("height", DNumber, VNum(60))
      ]),
      Some([
        ExecPort("out")
      ]),
      Some(map["fill" := VBool(false)])
    )
  }

  /** `configs.repeat` */
  function RepeatConfig(k: NodeKind): (bp: Blueprint)
    requires k == Repeat
    ensures WellFormedBlueprint(bp)
    ensures bp.category == Some(PaletteCategory(k))
    ensures HasExecInput(bp) <==> HasExecOutput(bp) && !IsRoot(k)
  {
    Blueprint(
      Some(Control),
      Some([
        ExecPort("in"),
        DataInput("count", DNumber, VNum(3))
      ]),
      Some([
        ExecPort("body"),
        ExecPort("out")
      ]),
      None
    )
  }

  /** `configs.if` */
  function IfConfig(k: NodeKind): (bp: Blueprint)
    requires k == If
    ensures WellFormedBlueprint(bp)
    ensures bp.category == Some(PaletteCategory(k))
    ensures HasExecInput(bp) <==> HasExecOutput(bp) && !IsRoot(k)
    ensures FindPort(InputsOf(bp), "condition") == Some(DataInput("condition", DExpression, VStr("true")))
  {
    Blueprint(
      Some(Control),
      Some([
        ExecPort("in"),
        DataInput("condition", DExpression, VStr("true"))
      ]),
      Some([
        ExecPort("then"),
        ExecPort("else"),
        ExecPort("out")
      ]),
      None
    )
  }

  /** `configs.while` */
  function WhileConfig(k: NodeKind): (bp: Blueprint)
    requires k == While
    ensures WellFormedBlueprint(bp)
    ensures bp.category == Some(PaletteCategory(k))
    ensures HasExecInput(bp) <==> HasExecOutput(bp) && !IsRoot(k)
    ensures FindPort(InputsOf(bp), "condition") == Some(DataInput("condition", DExpression, VStr("true")))
  {
    Blueprint(
      Some(Control),
      Some([
        ExecPort("in"),
        DataInput("condition", DExpression, VStr("true"))
      ]),
      Some([
        ExecPort("body"),
        ExecPort("out")
      ]),
      None
    )
  }

  /** `configs.function` */
  function FunctionConfig(k: NodeKind): (bp: Blueprint)
    requires k == Function
    ensures WellFormedBlueprint(bp)
    ensures bp.category == Some(PaletteCategory(k))
    ensures HasExecInput(bp) <==> HasExecOutput(bp) && !IsRoot(k)
  {
    Blueprint(
      Some(Procedural),
      Some([
        ExecPort("in"),
        DataInput("name", DString, VStr("myFunc"))
      ]),
      Some([
        ExecPort("body"),
        ExecPort("out")
      ]),
      None
    )
  }

  /** `configs.callFunction` */
  function CallFunctionConfig(k: NodeKind): (bp: Blueprint)
    requires k == CallFunction
    ensures WellFormedBlueprint(bp)
    ensures bp.category == Some(PaletteCategory(k))
    ensures HasExecInput(bp) <==> HasExecOutput(bp) && !IsRoot(k)
  {
    Blueprint(
      Some(Procedural),
      Some([
        ExecPort("in"),
        DataInput("name", DString, VStr("myFunc"))
      ]),
      Some([
        ExecPort("out")
      ]),
      None
    )
  }

  /** `configs.setVariable` */
  function SetVariableConfig(k: NodeKind): (bp: Blueprint)
    requires k == SetVariable
    ensures WellFormedBlueprint(bp)
    ensures bp.category == Some(PaletteCategory(k))
    ensures HasExecInput(bp) <==> HasExecOutput(bp) && !IsRoot(k)
  {
    Blueprint(
      Some(Variables),
      Some([
        ExecPort("in"),
        DataInput("name", DString, VStr("x")),
        DataInput("value", DExpression, VStr("0"))
      ]),
      Some([
        ExecPort("out")
      ]),
      None
    )
  }

  /** `configs.getVariable` */
  function GetVariableConfig(k: NodeKind): (bp: Blueprint)
    requires k == GetVariable
    ensures WellFormedBlueprint(bp)
    ensures bp.category == Some(PaletteCategory(k))
    ensures HasExecInput(bp) <==> HasExecOutput(bp) && !IsRoot(k)
  {
    Blueprint(
      Some(Variables),
      Some([
        DataInput("name", DString, VStr("x"))
      ]),
      Some([
        DataOutput("value", DAny)
      ]),
      None
    )
  }

  /** `configs.number` */
  function NumberConfig(k: NodeKind): (bp: Blueprint)
    requires k == Number
    ensures WellFormedBlueprint(bp)
    ensures bp.category == Some(PaletteCategory(k))
    ensures HasExecInput(bp) <==> HasExecOutput(bp) && !IsRoot(k)
    ensures PropertyMirrorsDefault(bp, "value") && PropertiesOf(bp)["value"] == VNum(0)
  {
    Blueprint(
      Some(DataBlocks),
      Some([
        DataInput("value", DNumber, VNum(0))
      ]),
      Some([
        DataOutput("value", DNumber)
      ]),
      Some(map["value" := VNum(0)])
    )
  }

  /** `configs.string` */
  function StringConfig(k: NodeKind): (bp: Blueprint)
    requires k == String
    ensures WellFormedBlueprint(bp)
    ensures bp.category == Some(PaletteCategory(k))
    ensures HasExecInput(bp) <==> HasExecOutput(bp) && !IsRoot(k)
    ensures PropertyMirrorsDefault(bp, "value") && PropertiesOf(bp)["value"] == VStr("hello")
  {
    Blueprint(
      Some(DataBlocks),
      Some([
        DataInput("value", DString, VStr("hello"))
      ]),
      Some([
        DataOutput("value", DString)
      ]),
      Some(map["value" := VStr("hello")])
    )
  }

  /** The entries for program roots and blocks. */
  function FlowConfig(k: NodeKind): (bp: Blueprint)
    requires SectionOf(k) == Flow
    ensures WellFormedBlueprint(bp)
    ensures bp.category == Some(PaletteCategory(k))
    ensures HasExecInput(bp) <==> HasExecOutput(bp) && !IsRoot(k)
    ensures k == Start ==> bp.inputs.None? && OutputsOf(bp) == [ExecPort("out")]
    ensures k == If || k == While ==> FindPort(InputsOf(bp), "condition") == Some(DataInput("condition", DExpression, VStr("true")))
  {
    if k == Start then StartConfig(k)
    else if k == Repeat then RepeatConfig(k)
    else if k == If then IfConfig(k)
    else WhileConfig(k)
  }

  /** The entries for pen and canvas statements. */
  function PenConfig(k: NodeKind): (bp: Blueprint)
    requires SectionOf(k) == Pen
    ensures WellFormedBlueprint(bp)
    ensures bp.category == Some(PaletteCategory(k))
    ensures HasExecInput(bp) <==> HasExecOutput(bp) && !IsRoot(k)
  {
    if k == MoveTo then MoveToConfig(k)
    else if k == LineTo then LineToConfig(k)
    else if k == SetColor then SetColorConfig(k)
    else if k == SetPenWidth then SetPenWidthConfig(k)
    else if k == DrawCircle then DrawCircleConfig(k)
    else DrawRectangleConfig(k)
  }

  /** The entries for functions, sound and variables. */
  function ProceduresConfig(k: NodeKind): (bp: Blueprint)
    requires SectionOf(k) == Procedures
    ensures WellFormedBlueprint(bp)
    ensures bp.category == Some(PaletteCategory(k))
    ensures HasExecInput(bp) <==> HasExecOutput(bp) && !IsRoot(k)
  {
    if k == Function then FunctionConfig(k)
    else if k == CallFunction then CallFunctionConfig(k)
    else if k == SetVariable then SetVariableConfig(k)
    else GetVariableConfig(k)
  }

  /** The entries for literals and sensors. */
  function ValuesConfig(k: NodeKind): (bp: Blueprint)
    requires SectionOf(k) == Values
    ensures WellFormedBlueprint(bp)
    ensures bp.category == Some(PaletteCategory(k))
    ensures HasExecInput(bp) <==> HasExecOutput(bp) && !IsRoot(k)
    ensures k == Number ==> PropertyMirrorsDefault(bp, "value") && PropertiesOf(bp)["value"] == VNum(0)
    ensures k == String ==> PropertyMirrorsDefault(bp, "value") && PropertiesOf(bp)["value"] == VStr("hello")
  {
    if k == Number then NumberConfig(k)
    else StringConfig(k)
  }

  /** The own entry of the `configs` object for a kind. */
  function Config(k: NodeKind): (bp: Blueprint)
    ensures WellFormedBlueprint(bp)
    ensures bp.category == Some(PaletteCategory(k))
    ensures HasExecInput(bp) <==> HasExecOutput(bp) && !IsRoot(k)
    ensures k == Start ==> bp.inputs.None? && OutputsOf(bp) == [ExecPort("out")]
    ensures k == If || k == While ==> FindPort(InputsOf(bp), "condition") == Some(DataInput("condition", DExpression, VStr("true")))
    ensures k == Number ==> PropertyMirrorsDefault(bp, "value") && PropertiesOf(bp)["value"] == VNum(0)
    ensures k == String ==> PropertyMirrorsDefault(bp, "value") && PropertiesOf(bp)["value"] == VStr("hello")
  {
    match SectionOf(k)
    case Flow => FlowConfig(k)
    case Pen => PenConfig(k)
    case Procedures => ProceduresConfig(k)
    case Values => ValuesConfig(k)
  }
  /** The program root: it has an exec output but no exec input. */
  predicate IsRoot(k: NodeKind) {
    k == Start
  }

  /** One palette entry. */
  function Entry(k: NodeKind): TypeEntry {
    TypeEntry(Tag(k), Title(k), PaletteCategory(k))
  }

  /** `getNodeTypes()`: the palette, in display order. */
  function NodeTypes(): seq<TypeEntry> {
    seq(KindCount, i requires 0 <= i < KindCount => Entry(KindAt(i)))
  }

  /** The type tags the palette lists. */
  function PaletteTypes(): set<string> {
    set i | 0 <= i < |NodeTypes()| :: NodeTypes()[i].nodeType
  }

  /** `getNodeConfigByType(type)`: `configs[type] || fallback`. Looking a
      string up on the object literal also finds the members every object
      inherits, and those carry no blueprint fields at all. */
  function ConfigByType(t: string): Blueprint {
    match KindOf(t)
    case Some(k) => Config(k)
    case None => if t in InheritedKeys then InheritedBlueprint else GeneralBlueprint
  }

  /** `getNodeTitle(type)`: the name of the first palette entry of that type,
      or the type itself. */
  function NodeTitle(t: string): string {
    match Seqs.FindIndex(NodeTypes(), (e: TypeEntry) => e.nodeType == t)
    case Some(i) => NodeTypes()[i].name
    case None => t
  }

  // ---------------------------------------------------------------------
  // Kinds, tags and palette positions correspond one to one
  // ---------------------------------------------------------------------

  lemma TagTableInverts(k: NodeKind)
    ensures KindOfTagTable(Tag(k)) == Some(k)
  {
    match k
    case Start => assert KindOfTagTable("start") == Some(Start);
    case MoveTo => assert KindOfTagTable("moveTo") == Some(MoveTo);
    case LineTo => assert KindOfTagTable("lineTo") == Some(LineTo);
    case SetColor => assert KindOfTagTable("setColor") == Some(SetColor);
    case SetPenWidth => assert KindOfTagTable("setPenWidth") == Some(SetPenWidth);
    case DrawCircle => assert KindOfTagTable("drawCircle") == Some(DrawCircle);
    case DrawRectangle => assert KindOfTagTable("drawRectangle") == Some(DrawRectangle);
    case Repeat => assert KindOfTagTable("repeat") == Some(Repeat);
    case If => assert KindOfTagTable("if") == Some(If);
    case While => assert KindOfTagTable("while") == Some(While);
    case Function => assert KindOfTagTable("function") == Some(Function);
    case CallFunction => assert KindOfTagTable("callFunction") == Some(CallFunction);
    case SetVariable => assert KindOfTagTable("setVariable") == Some(SetVariable);
    case GetVariable => assert KindOfTagTable("getVariable") == Some(GetVariable);
    case Number => assert KindOfTagTable("number") == Some(Number);
    case String => assert KindOfTagTable("string") == Some(String);
  }

  /** No two kinds share a tag. */
  lemma TagInjective(a: NodeKind, b: NodeKind)
    requires Tag(a) == Tag(b)
    ensures a == b
  {
    TagTableInverts(a);
    TagTableInverts(b);
  }

  /** No two kinds share a tag, for all pairs at once. */
  lemma TagsDistinct()
    ensures forall a: NodeKind, b: NodeKind :: Tag(a) == Tag(b) ==> a == b
  {
    forall a: NodeKind, b: NodeKind | Tag(a) == Tag(b)
      ensures a == b
    {
      TagInjective(a, b);
    }
  }

  /** Looking up a kind's own tag finds that kind. */
  lemma KindOfTag(k: NodeKind)
    ensures KindOf(Tag(k)) == Some(k)
  {
    TagInjective(KindOf(Tag(k)).value, k);
  }

  lemma KindAtOrdinal(k: NodeKind)
    ensures Ordinal(k) < KindCount && KindAt(Ordinal(k)) == k
  {
  }

  lemma OrdinalKindAt(i: nat)
    requires i < KindCount
    ensures Ordinal(KindAt(i)) == i
  {
  }

  /** Every kind is listed in the palette, at its ordinal. */
  lemma Listed(k: NodeKind)
    ensures Ordinal(k) < |NodeTypes()| && NodeTypes()[Ordinal(k)] == Entry(k)
  {
    KindAtOrdinal(k);
  }

  // ---------------------------------------------------------------------
  // Palette and registry
  // ---------------------------------------------------------------------

  /** No type is listed twice in the palette. */
  lemma PaletteTypesUnique()
    ensures forall i, j :: 0 <= i < j < |NodeTypes()| ==> NodeTypes()[i].nodeType != NodeTypes()[j].nodeType
  {
    forall i, j | 0 <= i < j < |NodeTypes()|
      ensures NodeTypes()[i].nodeType != NodeTypes()[j].nodeType
    {
      if NodeTypes()[i].nodeType == NodeTypes()[j].nodeType {
        TagInjective(KindAt(i), KindAt(j));
        OrdinalKindAt(i);
        OrdinalKindAt(j);
      }
    }
  }

  lemma RegisteredIsListed(t: string)
    requires KindOf(t).Some?
    ensures t in PaletteTypes()
  {
    var k := KindOf(t).value;
    Listed(k);
    assert NodeTypes()[Ordinal(k)].nodeType == t;
  }

  lemma ListedIsRegistered(t: string)
    requires t in PaletteTypes()
    ensures KindOf(t).Some?
  {
    var i :| 0 <= i < |NodeTypes()| && NodeTypes()[i].nodeType == t;
    KindOfTag(KindAt(i));
  }

  /** The palette and the registry list the same types. */
  lemma PaletteMatchesRegistry(t: string)
    ensures KindOf(t).Some? <==> t in PaletteTypes()
  {
    if KindOf(t).Some? {
      RegisteredIsListed(t);
    }
    if t in PaletteTypes() {
      ListedIsRegistered(t);
    }
  }

  /** A listed tag is looked up to its own entry. */
  lemma ConfigOfTag(k: NodeKind)
    ensures ConfigByType(Tag(k)) == Config(k)
  {
    KindOfTag(k);
  }

  /** Every palette entry has a registry entry filed under the same category. */
  lemma CategoriesAgree(i: nat)
    requires i < |NodeTypes()|
    ensures ConfigByType(NodeTypes()[i].nodeType).category == Some(NodeTypes()[i].category)
  {
    ConfigOfTag(KindAt(i));
  }

  /** The lookup is total: a type the palette does not list, other than a name
      every object inherits, gets the empty `general` blueprint. */
  lemma UnlistedIsGeneral(t: string)
    requires t !in PaletteTypes() && t !in InheritedKeys
    ensures ConfigByType(t) == GeneralBlueprint
  {
    PaletteMatchesRegistry(t);
  }

  lemma TitleOfListed(k: NodeKind)
    ensures NodeTitle(Tag(k)) == Title(k)
  {
    Listed(k);
    var j := Seqs.FindIndex(NodeTypes(), (e: TypeEntry) => e.nodeType == Tag(k)).value;
    TagInjective(KindAt(j), k);
  }

  lemma TitleOfUnlisted(t: string)
    requires t !in PaletteTypes()
    ensures NodeTitle(t) == t
  {
  }

  // ---------------------------------------------------------------------
  // Facts about every blueprint handed out
  // ---------------------------------------------------------------------

  /** Every blueprint the registry hands out, listed or not, is well formed:
      exec ports carry the data type `exec`, data inputs carry defaults, port
      ids are unique per list and the exec input is the port `in`. */
  lemma ConfigWellFormed(t: string)
    ensures WellFormedBlueprint(ConfigByType(t))
  {
  }

  /** Exactly the statement types take an exec input: every type with an exec
      output has one except `start`, so no exec edge can end at `start`. */
  lemma StatementsHaveExecInput(k: NodeKind)
    ensures HasExecInput(ConfigByType(Tag(k))) <==> HasExecOutput(ConfigByType(Tag(k))) && !IsRoot(k)
  {
    ConfigOfTag(k);
  }

  /** `start` declares no `inputs` at all and the single exec output `out`. */
  lemma StartShape()
    ensures ConfigByType(Tag(Start)).inputs.None?
    ensures OutputsOf(ConfigByType(Tag(Start))) == [ExecPort("out")]
  {
    ConfigOfTag(Start);
  }

  /** The conditions of `if` and `while` are raw expressions defaulting to `true`. */
  lemma ConditionsAreExpressions(k: NodeKind)
    requires k == If || k == While
    ensures FindPort(InputsOf(ConfigByType(Tag(k))), "condition") == Some(DataInput("condition", DExpression, VStr("true")))
  {
    ConfigOfTag(k);
  }

  /** The literal blocks keep the same value in their `value` property as the
      default of their `value` input: `0` and `'hello'`. */
  lemma LiteralsConsistent()
    ensures PropertyMirrorsDefault(ConfigByType(Tag(Number)), "value")
    ensures PropertiesOf(ConfigByType(Tag(Number)))["value"] == VNum(0)
    ensures PropertyMirrorsDefault(ConfigByType(Tag(String)), "value")
    ensures PropertiesOf(ConfigByType(Tag(String)))["value"] == VStr("hello")
  {
    ConfigOfTag(Number);
    ConfigOfTag(String);
  }
}
