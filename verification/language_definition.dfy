/** The node-type registry of the newer editor: the palette of node types
    (`getNodeTypes`, `getNodeTitle`) and the blueprint every node of a type is
    built from (`getNodeConfigByType`). */
module LanguageDefinition {
  import opened Wrappers
  import opened Schema
  import Seqs

  /** The node types the registry lists, one constructor per own key of the
      `configs` object, in palette order. */
  datatype NodeKind =
    | Start
    | GameLoop
    | WhenKeyPressed
    | Repeat
    | If
    | While
    | MoveTo
    | LineTo
    | SetColor
    | SetPenWidth
    | DrawCircle
    | DrawRectangle
    | ClearCanvas
    | DrawText
    | Say
    | ChangeXBy
    | SetXTo
    | ChangeYBy
    | SetYTo
    | Function
    | CallFunction
    | PlaySound
    | SetVariable
    | GetVariable
    | Number
    | String
    | RandomNumber
    | GetMouseX
    | Add
    | Subtract
    | Multiply
    | Divide
    | LessThan
    | EqualTo
    | GreaterThan
    | And
    | Or
    | Not

  const KindCount := 38

  /** The kind at a palette position. */
  function KindAt(i: nat): NodeKind
    requires i < KindCount
  {
    match i
    case 0 => Start
    case 1 => GameLoop
    case 2 => WhenKeyPressed
    case 3 => Repeat
    case 4 => If
    case 5 => While
    case 6 => MoveTo
    case 7 => LineTo
    case 8 => SetColor
    case 9 => SetPenWidth
    case 10 => DrawCircle
    case 11 => DrawRectangle
    case 12 => ClearCanvas
    case 13 => DrawText
    case 14 => Say
    case 15 => ChangeXBy
    case 16 => SetXTo
    case 17 => ChangeYBy
    case 18 => SetYTo
    case 19 => Function
    case 20 => CallFunction
    case 21 => PlaySound
    case 22 => SetVariable
    case 23 => GetVariable
    case 24 => Number
    case 25 => String
    case 26 => RandomNumber
    case 27 => GetMouseX
    case 28 => Add
    case 29 => Subtract
    case 30 => Multiply
    case 31 => Divide
    case 32 => LessThan
    case 33 => EqualTo
    case 34 => GreaterThan
    case 35 => And
    case 36 => Or
    case _ => Not
  }

  /** The palette position of a kind. */
  function Ordinal(k: NodeKind): nat {
    match k
    case Start => 0
    case GameLoop => 1
    case WhenKeyPressed => 2
    case Repeat => 3
    case If => 4
    case While => 5
    case MoveTo => 6
    case LineTo => 7
    case SetColor => 8
    case SetPenWidth => 9
    case DrawCircle => 10
    case DrawRectangle => 11
    case ClearCanvas => 12
    case DrawText => 13
    case Say => 14
    case ChangeXBy => 15
    case SetXTo => 16
    case ChangeYBy => 17
    case SetYTo => 18
    case Function => 19
    case CallFunction => 20
    case PlaySound => 21
    case SetVariable => 22
    case GetVariable => 23
    case Number => 24
    case String => 25
    case RandomNumber => 26
    case GetMouseX => 27
    case Add => 28
    case Subtract => 29
    case Multiply => 30
    case Divide => 31
    case LessThan => 32
    case EqualTo => 33
    case GreaterThan => 34
    case And => 35
    case Or => 36
    case Not => 37
  }

  /** The type tag a node of this kind carries in `node.type`. */
  function Tag(k: NodeKind): string {
    match k
    case Start => "start"
    case GameLoop => "gameLoop"
    case WhenKeyPressed => "whenKeyPressed"
    case Repeat => "repeat"
    case If => "if"
    case While => "while"
    case MoveTo => "moveTo"
    case LineTo => "lineTo"
    case SetColor => "setColor"
    case SetPenWidth => "setPenWidth"
    case DrawCircle => "drawCircle"
    case DrawRectangle => "drawRectangle"
    case ClearCanvas => "clearCanvas"
    case DrawText => "drawText"
    case Say => "say"
    case ChangeXBy => "changeXBy"
    case SetXTo => "setXTo"
    case ChangeYBy => "changeYBy"
    case SetYTo => "setYTo"
    case Function => "function"
    case CallFunction => "callFunction"
    case PlaySound => "playSound"
    case SetVariable => "setVariable"
    case GetVariable => "getVariable"
    case Number => "number"
    case String => "string"
    case RandomNumber => "randomNumber"
    case GetMouseX => "getMouseX"
    case Add => "add"
    case Subtract => "subtract"
    case Multiply => "multiply"
    case Divide => "divide"
    case LessThan => "lessThan"
    case EqualTo => "equalTo"
    case GreaterThan => "greaterThan"
    case And => "and"
    case Or => "or"
    case Not => "not"
  }

  /** The palette name of a kind. */
  function Title(k: NodeKind): string {
    match k
    case Start => "Start Flag! \U{1F3C1}"
    case GameLoop => "Game Loop \U{1F3C3}\U{200D}\U{2642}\U{FE0F}"
    case WhenKeyPressed => "When [Key] Pressed \U{2328}\U{FE0F}"
    case Repeat => "Do Again! \U{1F501}"
    case If => "If This...Then \U{1F914}"
    case While => "Keep Doing If... \U{1F504}"
    case MoveTo => "Jump Pen \U{1F938}"
    case LineTo => "Draw Line! \U{1F4CF}"
    case SetColor => "Pen Color \U{1F3A8}"
    case SetPenWidth => "Pen Size \U{1F58A}\U{FE0F}"
    case DrawCircle => "Draw Circle \U{2B55}"
    case DrawRectangle => "Draw Box \U{1F4E6}"
    case ClearCanvas => "Erase All \U{1F9F9}"
    case DrawText => "Write Text \U{270F}\U{FE0F}"
    case Say => "Say Bubble \U{1F4AC}"
    case ChangeXBy => "Change X by \U{27A1}\U{FE0F}"
    case SetXTo => "Set X to \U{27A1}\U{FE0F}"
    case ChangeYBy => "Change Y by \U{2B06}\U{FE0F}"
    case SetYTo => "Set Y to \U{2B06}\U{FE0F}"
    case Function => "Make a Recipe \U{1F4DC}"
    case CallFunction => "Use Recipe \U{2728}"
    case PlaySound => "Play Sound \U{1F3B6}"
    case SetVariable => "Save a Thing \U{1F4BE}"
    case GetVariable => "Get Saved Thing \U{1F50D}"
    case Number => "Number Block \U{1F522}"
    case String => "Text Block \U{1F521}"
    case RandomNumber => "Random Number \U{1F3B2}"
    case GetMouseX => "Mouse X Spot \U{1F5B1}\U{FE0F}\U{2194}\U{FE0F}"
    case Add => "Add (+)"
    case Subtract => "Subtract (-)"
    case Multiply => "Multiply (*)"
    case Divide => "Divide (/)"
    case LessThan => "Less Than (<)"
    case EqualTo => "Equal To (=)"
    case GreaterThan => "Greater Than (>)"
    case And => "And (&&)"
    case Or => "Or (||)"
    case Not => "Not (!)"
  }

  /** The palette category of a kind. */
  function PaletteCategory(k: NodeKind): Category {
    match k
    case Start => Control
    case GameLoop => Control
    case WhenKeyPressed => Control
    case Repeat => Control
    case If => Control
    case While => Control
    case MoveTo => Drawing
    case LineTo => Drawing
    case SetColor => Drawing
    case SetPenWidth => Drawing
    case DrawCircle => Drawing
    case DrawRectangle => Drawing
    case ClearCanvas => Drawing
    case DrawText => Drawing
    case Say => Drawing
    case ChangeXBy => Drawing
    case SetXTo => Drawing
    case ChangeYBy => Drawing
    case SetYTo => Drawing
    case Function => Procedural
    case CallFunction => Procedural
    case PlaySound => Procedural
    case SetVariable => Variables
    case GetVariable => Variables
    case Number => DataBlocks
    case String => DataBlocks
    case RandomNumber => DataBlocks
    case GetMouseX => DataBlocks
    case Add => DataBlocks
    case Subtract => DataBlocks
    case Multiply => DataBlocks
    case Divide => DataBlocks
    case LessThan => DataBlocks
    case EqualTo => DataBlocks
    case GreaterThan => DataBlocks
    case And => DataBlocks
    case Or => DataBlocks
    case Not => DataBlocks
  }

  /** The own key of the `configs` object equal to `t`, if there is one. */
  function KindOf(t: string): (r: Option<NodeKind>)
    ensures r.Some? ==> Tag(r.value) == t
  {
    if exists k :: Tag(k) == t then
      TagsDistinct();
      Some(var k :| Tag(k) == t; k)
    else None
  }

  /** A decision table from tags to kinds, used only to show that no two
      kinds share a tag. */
  ghost function KindOfTagTable(t: string): Option<NodeKind> {
    match t
    case "start" => Some(Start)
    case "gameLoop" => Some(GameLoop)
    case "whenKeyPressed" => Some(WhenKeyPressed)
    case "repeat" => Some(Repeat)
    case "if" => Some(If)
    case "while" => Some(While)
    case "moveTo" => Some(MoveTo)
    case "lineTo" => Some(LineTo)
    case "setColor" => Some(SetColor)
    case "setPenWidth" => Some(SetPenWidth)
    case "drawCircle" => Some(DrawCircle)
    case "drawRectangle" => Some(DrawRectangle)
    case "clearCanvas" => Some(ClearCanvas)
    case "drawText" => Some(DrawText)
    case "say" => Some(Say)
    case "changeXBy" => Some(ChangeXBy)
    case "setXTo" => Some(SetXTo)
    case "changeYBy" => Some(ChangeYBy)
    case "setYTo" => Some(SetYTo)
    case "function" => Some(Function)
    case "callFunction" => Some(CallFunction)
    case "playSound" => Some(PlaySound)
    case "setVariable" => Some(SetVariable)
    case "getVariable" => Some(GetVariable)
    case "number" => Some(Number)
    case "string" => Some(String)
    case "randomNumber" => Some(RandomNumber)
    case "getMouseX" => Some(GetMouseX)
    case "add" => Some(Add)
    case "subtract" => Some(Subtract)
    case "multiply" => Some(Multiply)
    case "divide" => Some(Divide)
    case "lessThan" => Some(LessThan)
    case "equalTo" => Some(EqualTo)
    case "greaterThan" => Some(GreaterThan)
    case "and" => Some(And)
    case "or" => Some(Or)
    case "not" => Some(Not)
    case _ => None
  }

  /** The registry table is split into sections of a few entries each; the
      split only keeps each part of the table small. */
  datatype Section = Flow | Pen | Sprite | Procedures | Values | Operators

  function SectionOf(k: NodeKind): (s: Section)
    ensures IsBinaryOperator(k) ==> s == Operators
    ensures k == Not ==> s == Operators
    ensures k == Number || k == String ==> s == Values
    ensures k == RandomNumber ==> s == Values
  {
    match k
    case Start | GameLoop | WhenKeyPressed | Repeat | If | While => Flow
    case MoveTo | LineTo | SetColor | SetPenWidth | DrawCircle | DrawRectangle | ClearCanvas => Pen
    case DrawText | Say | ChangeXBy | SetXTo | ChangeYBy | SetYTo => Sprite
    case Function | CallFunction | PlaySound | SetVariable | GetVariable => Procedures
    case Number | String | RandomNumber | GetMouseX => Values
    case Add | Subtract | Multiply | Divide | LessThan | EqualTo | GreaterThan | And | Or | Not => Operators
  }

  // One function per entry of the `configs` object. Each takes its own kind
  // as argument so that an entry is unfolded only where it is asked for.

  /** `configs.start` */
  function StartConfig(k: NodeKind): (bp: Blueprint)
    requires k == Start
    ensures WellFormedBlueprint(bp)
    ensures bp.category == Some(PaletteCategory(k))
    ensures HasExecInput(bp) <==> HasExecOutput(bp) && !IsRoot(k)
  {
    Blueprint(
      Some(Control),
      Some([]),
      Some([
        ExecPort("out")
      ]),
      Some(map[])
    )
  }

  /** `configs.gameLoop` */
  function GameLoopConfig(k: NodeKind): (bp: Blueprint)
    requires k == GameLoop
    ensures WellFormedBlueprint(bp)
    ensures bp.category == Some(PaletteCategory(k))
    ensures HasExecInput(bp) <==> HasExecOutput(bp) && !IsRoot(k)
  {
    Blueprint(
      Some(Control),
      Some([]),
      Some([
        ExecPort("tick")
      ]),
      Some(map[])
    )
  }

  /** `configs.whenKeyPressed` */
  function WhenKeyPressedConfig(k: NodeKind): (bp: Blueprint)
    requires k == WhenKeyPressed
    ensures WellFormedBlueprint(bp)
    ensures bp.category == Some(PaletteCategory(k))
    ensures HasExecInput(bp) <==> HasExecOutput(bp) && !IsRoot(k)
  {
    Blueprint(
      Some(Control),
      Some([
        DataInput("key", DString, VStr("space"))
      ]),
      Some([
        ExecPort("out")
      ]),
      Some(map[])
    )
  }

  /** `configs.repeat` */
  function RepeatConfig(k: NodeKind): (bp: Blueprint)
    requires k == Repeat
    ensures WellFormedBlueprint(bp)
    ensures bp.category == Some(PaletteCategory(k))
    ensures HasExecInput(bp) <==> HasExecOutput(bp) && !IsRoot(k)
  {
    Blueprint(
      Some(Control),
      Some([
        ExecPort("in"),
        DataInput("count", DNumber, VNum(3))
      ]),
      Some([
        ExecPort("body"),
        ExecPort("out")
      ]),
      Some(map[])
    )
  }

  /** `configs.if` */
  function IfConfig(k: NodeKind): (bp: Blueprint)
    requires k == If
    ensures WellFormedBlueprint(bp)
    ensures bp.category == Some(PaletteCategory(k))
    ensures HasExecInput(bp) <==> HasExecOutput(bp) && !IsRoot(k)
  {
    Blueprint(
      Some(Control),
      Some([
        ExecPort("in"),
        DataInput("condition", DBoolean, VBool(true))
      ]),
      Some([
        ExecPort("then"),
        ExecPort("else"),
        ExecPort("out")
      ]),
      Some(map[])
    )
  }

  /** `configs.while` */
  function WhileConfig(k: NodeKind): (bp: Blueprint)
    requires k == While
    ensures WellFormedBlueprint(bp)
    ensures bp.category == Some(PaletteCategory(k))
    ensures HasExecInput(bp) <==> HasExecOutput(bp) && !IsRoot(k)
  {
    Blueprint(
      Some(Control),
      Some([
        ExecPort("in"),
        DataInput("condition", DBoolean, VBool(false))
      ]),
      Some([
        ExecPort("body"),
        ExecPort("out")
      ]),
      Some(map[])
    )
  }

  /** `configs.moveTo` */
  function MoveToConfig(k: NodeKind): (bp: Blueprint)
    requires k == MoveTo
    ensures WellFormedBlueprint(bp)
    ensures bp.category == Some(PaletteCategory(k))
    ensures HasExecInput(bp) <==> HasExecOutput(bp) && !IsRoot(k)
  {
    Blueprint(
      Some(Drawing),
      Some([
        ExecPort("in"),
        DataInput("x", DNumber, VNum(50)),
        DataInput("y", DNumber, VNum(50))
      ]),
      Some([
        ExecPort("out")
      ]),
      Some(map[])
    )
  }

  /** `configs.lineTo` */
  function LineToConfig(k: NodeKind): (bp: Blueprint)
    requires k == LineTo
    ensures WellFormedBlueprint(bp)
    ensures bp.category == Some(PaletteCategory(k))
    ensures HasExecInput(bp) <==> HasExecOutput(bp) && !IsRoot(k)
  {
    Blueprint(
      Some(Drawing),
      Some([
        ExecPort("in"),
        DataInput("x", DNumber, VNum(150)),
        DataInput("y", DNumber, VNum(150))
      ]),
      Some([
        ExecPort("out")
      ]),
      Some(map[])
    )
  }

  /** `configs.setColor` */
  function SetColorConfig(k: NodeKind): (bp: Blueprint)
    requires k == SetColor
    ensures WellFormedBlueprint(bp)
    ensures bp.category == Some(PaletteCategory(k))
    ensures HasExecInput(bp) <==> HasExecOutput(bp) && !IsRoot(k)
  {
    Blueprint(
      Some(Drawing),
      Some([
        ExecPort("in"),
        DataInput("color", DColor, VStr("#FF6347"))
      ]),
      Some([
        ExecPort("out")
      ]),
      Some(map[])
    )
  }

  /** `configs.setPenWidth` */
  function SetPenWidthConfig(k: NodeKind): (bp: Blueprint)
    requires k == SetPenWidth
    ensures WellFormedBlueprint(bp)
    ensures bp.category == Some(PaletteCategory(k))
    ensures HasExecInput(bp) <==> HasExecOutput(bp) && !IsRoot(k)
  {
    Blueprint(
      Some(Drawing),
      Some([
        ExecPort("in"),
        DataInput("width", DNumber, VNum(3))
      ]),
      Some([
        ExecPort("out")
      ]),
      Some(map[])
    )
  }

  /** `configs.drawCircle` */
  function DrawCircleConfig(k: NodeKind): (bp: Blueprint)
    requires k == DrawCircle
    ensures WellFormedBlueprint(bp)
    ensures bp.category == Some(PaletteCategory(k))
    ensures HasExecInput(bp) <==> HasExecOutput(bp) && !IsRoot(k)
  {
    Blueprint(
      Some(Drawing),
      Some([
        ExecPort("in"),
        DataInput("x", DNumber, VNum(100)),
        DataInput("y", DNumber, VNum(100)),
        DataInput("radius", DNumber, VNum(25))
      ]),
      Some([
        ExecPort("out")
      ]),
      Some(map["fill" := VBool(true)])
    )
  }

  /** `configs.drawRectangle` */
  function DrawRectangleConfig(k: NodeKind): (bp: Blueprint)
    requires k == DrawRectangle
    ensures WellFormedBlueprint(bp)
    ensures bp.category == Some(PaletteCategory(k))
    ensures HasExecInput(bp) <==> HasExecOutput(bp) && !IsRoot(k)
  {
    Blueprint(
      Some(Drawing),
      Some([
        ExecPort("in"),
        DataInput("x", DNumber, VNum(50)),
        DataInput("y", DNumber, VNum(50)),
        DataInput("width", DNumber, VNum(50)),
        DataInput("height", DNumber, VNum(50))
      ]),
      Some([
        ExecPort("out")
      ]),
      Some(map["fill" := VBool(true)])
    )
  }

  /** `configs.clearCanvas` */
  function ClearCanvasConfig(k: NodeKind): (bp: Blueprint)
    requires k == ClearCanvas
    ensures WellFormedBlueprint(bp)
    ensures bp.category == Some(PaletteCategory(k))
    ensures HasExecInput(bp) <==> HasExecOutput(bp) && !IsRoot(k)
  {
    Blueprint(
      Some(Drawing),
      Some([
        ExecPort("in")
      ]),
      Some([
        ExecPort("out")
      ]),
      Some(map[])
    )
  }

  /** `configs.drawText` */
  function DrawTextConfig(k: NodeKind): (bp: Blueprint)
    requires k == DrawText
    ensures WellFormedBlueprint(bp)
    ensures bp.category == Some(PaletteCategory(k))
    ensures HasExecInput(bp) <==> HasExecOutput(bp) && !IsRoot(k)
  {
    Blueprint(
      Some(Drawing),
      Some([
        ExecPort("in"),
        DataInput("text", DString, VStr("Hello!")),
        DataInput("x", DNumber, VNum(10)),
        DataInput("y", DNumber, VNum(20)),
        DataInput("color", DColor, VStr("#333333")),
        DataInput("font", DString, VStr("16px Arial"))
      ]),
      Some([
        ExecPort("out")
      ]),
      Some(map[])
    )
  }

  /** `configs.say` */
  function SayConfig(k: NodeKind): (bp: Blueprint)
    requires k == Say
    ensures WellFormedBlueprint(bp)
    ensures bp.category == Some(PaletteCategory(k))
    ensures HasExecInput(bp) <==> HasExecOutput(bp) && !IsRoot(k)
  {
    Blueprint(
      Some(Drawing),
      Some([
        ExecPort("in"),
        DataInput("message", DString, VStr("Hi!")),
        DataInput("targetX", DNumber, VNum(100)),
        DataInput("targetY", DNumber, VNum(100))
      ]),
      Some([
        ExecPort("out")
      ]),
      Some(map[])
    )
  }

  /** `configs.changeXBy` */
  function ChangeXByConfig(k: NodeKind): (bp: Blueprint)
    requires k == ChangeXBy
    ensures WellFormedBlueprint(bp)
    ensures bp.category == Some(PaletteCategory(k))
    ensures HasExecInput(bp) <==> HasExecOutput(bp) && !IsRoot(k)
  {
    Blueprint(
      Some(Drawing),
      Some([
        ExecPort("in"),
        DataInput("variableName", DString, VStr("objectX")),
        DataInput("amount", DNumber, VNum(10))
      ]),
      Some([
        ExecPort("out")
      ]),
      Some(map[])
    )
  }

  /** `configs.setXTo` */
  function SetXToConfig(k: NodeKind): (bp: Blueprint)
    requires k == SetXTo
    ensures WellFormedBlueprint(bp)
    ensures bp.category == Some(PaletteCategory(k))
    ensures HasExecInput(bp) <==> HasExecOutput(bp) && !IsRoot(k)
  {
    Blueprint(
      Some(Drawing),
      Some([
        ExecPort("in"),
        DataInput("variableName", DString, VStr("objectX")),
        DataInput("value", DNumber, VNum(0))
      ]),
      Some([
        ExecPort("out")
      ]),
      Some(map[])
    )
  }

  /** `configs.changeYBy` */
  function ChangeYByConfig(k: NodeKind): (bp: Blueprint)
    requires k == ChangeYBy
    ensures WellFormedBlueprint(bp)
    ensures bp.category == Some(PaletteCategory(k))
    ensures HasExecInput(bp) <==> HasExecOutput(bp) && !IsRoot(k)
  {
    Blueprint(
      Some(Drawing),
      Some([
        ExecPort("in"),
        DataInput("variableName", DString, VStr("objectY")),
        DataInput("amount", DNumber, VNum(10))
      ]),
      Some([
        ExecPort("out")
      ]),
      Some(map[])
    )
  }

  /** `configs.setYTo` */
  function SetYToConfig(k: NodeKind): (bp: Blueprint)
    requires k == SetYTo
    ensures WellFormedBlueprint(bp)
    ensures bp.category == Some(PaletteCategory(k))
    ensures HasExecInput(bp) <==> HasExecOutput(bp) && !IsRoot(k)
  {
    Blueprint(
      Some(Drawing),
      Some([
        ExecPort("in"),
        DataInput("variableName", DString, VStr("objectY")),
        DataInput("value", DNumber, VNum(0))
      ]),
      Some([
        ExecPort("out")
      ]),
      Some(map[])
    )
  }

  /** `configs.function` */
  function FunctionConfig(k: NodeKind): (bp: Blueprint)
    requires k == Function
    ensures WellFormedBlueprint(bp)
    ensures bp.category == Some(PaletteCategory(k))
    ensures HasExecInput(bp) <==> HasExecOutput(bp) && !IsRoot(k)
  {
    Blueprint(
      Some(Procedural),
      Some([
        ExecPort("in"),
        DataInput("name", DString, VStr("myCoolRecipe"))
      ]),
      Some([
        ExecPort("body"),
        ExecPort("out")
      ]),
      Some(map[])
    )
  }

  /** `configs.callFunction` */
  function CallFunctionConfig(k: NodeKind): (bp: Blueprint)
    requires k == CallFunction
    ensures WellFormedBlueprint(bp)
    ensures bp.category == Some(PaletteCategory(k))
    ensures HasExecInput(bp) <==> HasExecOutput(bp) && !IsRoot(k)
  {
    Blueprint(
      Some(Procedural),
      Some([
        ExecPort("in"),
        DataInput("name", DString, VStr("myCoolRecipe"))
      ]),
      Some([
        ExecPort("out")
      ]),
      Some(map[])
    )
  }

  /** `configs.playSound` */
  function PlaySoundConfig(k: NodeKind): (bp: Blueprint)
    requires k == PlaySound
    ensures WellFormedBlueprint(bp)
    ensures bp.category == Some(PaletteCategory(k))
    ensures HasExecInput(bp) <==> HasExecOutput(bp) && !IsRoot(k)
  {
    Blueprint(
      Some(Procedural),
      Some([
        ExecPort("in"),
        DataInput("soundName", DString, VStr("click"))
      ]),
      Some([
        ExecPort("out")
      ]),
      Some(map[])
    )
  }

  /** `configs.setVariable` */
  function SetVariableConfig(k: NodeKind): (bp: Blueprint)
    requires k == SetVariable
    ensures WellFormedBlueprint(bp)
    ensures bp.category == Some(PaletteCategory(k))
    ensures HasExecInput(bp) <==> HasExecOutput(bp) && !IsRoot(k)
  {
    Blueprint(
      Some(Variables),
      Some([
        ExecPort("in"),
        DataInput("name", DString, VStr("score")),
        DataInput("value", DExpression, VStr("0"))
      ]),
      Some([
        ExecPort("out")
      ]),
      Some(map[])
    )
  }

  /** `configs.getVariable` */
  function GetVariableConfig(k: NodeKind): (bp: Blueprint)
    requires k == GetVariable
    ensures WellFormedBlueprint(bp)
    ensures bp.category == Some(PaletteCategory(k))
    ensures HasExecInput(bp) <==> HasExecOutput(bp) && !IsRoot(k)
  {
    Blueprint(
      Some(Variables),
      Some([
        DataInput("name", DString, VStr("score"))
      ]),
      Some([
        DataOutput("value", DAny)
      ]),
      Some(map[])
    )
  }

  /** `configs.number` */
  function NumberConfig(k: NodeKind): (bp: Blueprint)
    requires k == Number
    ensures WellFormedBlueprint(bp)
    ensures bp.category == Some(PaletteCategory(k))
    ensures HasExecInput(bp) <==> HasExecOutput(bp) && !IsRoot(k)
    ensures PropertyMirrorsDefault(bp, "value")
  {
    Blueprint(
      Some(DataBlocks),
      Some([
        DataInput("value", DNumber, VNum(10))
      ]),
      Some([
        DataOutput("value", DNumber)
      ]),
      Some(map["value" := VNum(10)])
    )
  }

  /** `configs.string` */
  function StringConfig(k: NodeKind): (bp: Blueprint)
    requires k == String
    ensures WellFormedBlueprint(bp)
    ensures bp.category == Some(PaletteCategory(k))
    ensures HasExecInput(bp) <==> HasExecOutput(bp) && !IsRoot(k)
    ensures PropertyMirrorsDefault(bp, "value")
  {
    Blueprint(
      Some(DataBlocks),
      Some([
        DataInput("value", DString, VStr("Hello!"))
      ]),
      Some([
        DataOutput("value", DString)
      ]),
      Some(map["value" := VStr("Hello!")])
    )
  }

  /** `configs.randomNumber` */
  function RandomNumberConfig(k: NodeKind): (bp: Blueprint)
    requires k == RandomNumber
    ensures WellFormedBlueprint(bp)
    ensures bp.category == Some(PaletteCategory(k))
    ensures HasExecInput(bp) <==> HasExecOutput(bp) && !IsRoot(k)
    ensures PropertyMirrorsDefault(bp, "min") && PropertyMirrorsDefault(bp, "max")
  {
    Blueprint(
      Some(DataBlocks),
      Some([
        DataInput("min", DNumber, VNum(1)),
        DataInput("max", DNumber, VNum(100))
      ]),
      Some([
        DataOutput("value", DNumber)
      ]),
      Some(map["min" := VNum(1), "max" := VNum(100)])
    )
  }

  /** `configs.getMouseX` */
  function GetMouseXConfig(k: NodeKind): (bp: Blueprint)
    requires k == GetMouseX
    ensures WellFormedBlueprint(bp)
    ensures bp.category == Some(PaletteCategory(k))
    ensures HasExecInput(bp) <==> HasExecOutput(bp) && !IsRoot(k)
  {
    Blueprint(
      Some(DataBlocks),
      Some([]),
      Some([
        DataOutput("x", DNumber)
      ]),
      Some(map[])
    )
  }

  /** `configs.add` */
  function AddConfig(k: NodeKind): (bp: Blueprint)
    requires k == Add
    ensures WellFormedBlueprint(bp)
    ensures bp.category == Some(PaletteCategory(k))
    ensures HasExecInput(bp) <==> HasExecOutput(bp) && !IsRoot(k)
    ensures BinaryShape(bp)
  {
    Blueprint(
      Some(DataBlocks),
      Some([
        DataInput("a", DNumber, VNum(0)),
        DataInput("b", DNumber, VNum(0))
      ]),
      Some([
        DataOutput("result", DNumber)
      ]),
      Some(map[])
    )
  }

  /** `configs.subtract` */
  function SubtractConfig(k: NodeKind): (bp: Blueprint)
    requires k == Subtract
    ensures WellFormedBlueprint(bp)
    ensures bp.category == Some(PaletteCategory(k))
    ensures HasExecInput(bp) <==> HasExecOutput(bp) && !IsRoot(k)
    ensures BinaryShape(bp)
  {
    Blueprint(
      Some(DataBlocks),
      Some([
        DataInput("a", DNumber, VNum(0)),
        DataInput("b", DNumber, VNum(0))
      ]),
      Some([
        DataOutput("result", DNumber)
      ]),
      Some(map[])
    )
  }

  /** `configs.multiply` */
  function MultiplyConfig(k: NodeKind): (bp: Blueprint)
    requires k == Multiply
    ensures WellFormedBlueprint(bp)
    ensures bp.category == Some(PaletteCategory(k))
    ensures HasExecInput(bp) <==> HasExecOutput(bp) && !IsRoot(k)
    ensures BinaryShape(bp)
  {
    Blueprint(
      Some(DataBlocks),
      Some([
        DataInput("a", DNumber, VNum(1)),
        DataInput("b", DNumber, VNum(1))
      ]),
      Some([
        DataOutput("result", DNumber)
      ]),
      Some(map[])
    )
  }

  /** `configs.divide` */
  function DivideConfig(k: NodeKind): (bp: Blueprint)
    requires k == Divide
    ensures WellFormedBlueprint(bp)
    ensures bp.category == Some(PaletteCategory(k))
    ensures HasExecInput(bp) <==> HasExecOutput(bp) && !IsRoot(k)
    ensures BinaryShape(bp)
  {
    Blueprint(
      Some(DataBlocks),
      Some([
        DataInput("a", DNumber, VNum(0)),
        DataInput("b", DNumber, VNum(1))
      ]),
      Some([
        DataOutput("result", DNumber)
      ]),
      Some(map[])
    )
  }

  /** `configs.lessThan` */
  function LessThanConfig(k: NodeKind): (bp: Blueprint)
    requires k == LessThan
    ensures WellFormedBlueprint(bp)
    ensures bp.category == Some(PaletteCategory(k))
    ensures HasExecInput(bp) <==> HasExecOutput(bp) && !IsRoot(k)
    ensures BinaryShape(bp)
  {
    Blueprint(
      Some(DataBlocks),
      Some([
        DataInput("a", DAny, VNum(0)),
        DataInput("b", DAny, VNum(50))
      ]),
      Some([
        DataOutput("result", DBoolean)
      ]),
      Some(map[])
    )
  }

  /** `configs.equalTo` */
  function EqualToConfig(k: NodeKind): (bp: Blueprint)
    requires k == EqualTo
    ensures WellFormedBlueprint(bp)
    ensures bp.category == Some(PaletteCategory(k))
    ensures HasExecInput(bp) <==> HasExecOutput(bp) && !IsRoot(k)
    ensures BinaryShape(bp)
  {
    Blueprint(
      Some(DataBlocks),
      Some([
        DataInput("a", DAny, VNum(0)),
        DataInput("b", DAny, VNum(0))
      ]),
      Some([
        DataOutput("result", DBoolean)
      ]),
      Some(map[])
    )
  }

  /** `configs.greaterThan` */
  function GreaterThanConfig(k: NodeKind): (bp: Blueprint)
    requires k == GreaterThan
    ensures WellFormedBlueprint(bp)
    ensures bp.category == Some(PaletteCategory(k))
    ensures HasExecInput(bp) <==> HasExecOutput(bp) && !IsRoot(k)
    ensures BinaryShape(bp)
  {
    Blueprint(
      Some(DataBlocks),
      Some([
        DataInput("a", DAny, VNum(50)),
        DataInput("b", DAny, VNum(0))
      ]),
      Some([
        DataOutput("result", DBoolean)
      ]),
      Some(map[])
    )
  }

  /** `configs.and` */
  function AndConfig(k: NodeKind): (bp: Blueprint)
    requires k == And
    ensures WellFormedBlueprint(bp)
    ensures bp.category == Some(PaletteCategory(k))
    ensures HasExecInput(bp) <==> HasExecOutput(bp) && !IsRoot(k)
    ensures BinaryShape(bp)
  {
    Blueprint(
      Some(DataBlocks),
      Some([
        DataInput("a", DBoolean, VBool(true)),
        DataInput("b", DBoolean, VBool(true))
      ]),
      Some([
        DataOutput("result", DBoolean)
      ]),
      Some(map[])
    )
  }

  /** `configs.or` */
  function OrConfig(k: NodeKind): (bp: Blueprint)
    requires k == Or
    ensures WellFormedBlueprint(bp)
    ensures bp.category == Some(PaletteCategory(k))
    ensures HasExecInput(bp) <==> HasExecOutput(bp) && !IsRoot(k)
    ensures BinaryShape(bp)
  {
    Blueprint(
      Some(DataBlocks),
      Some([
        DataInput("a", DBoolean, VBool(false)),
        DataInput("b", DBoolean, VBool(false))
      ]),
      Some([
        DataOutput("result", DBoolean)
      ]),
      Some(map[])
    )
  }

  /** `configs.not` */
  function NotConfig(k: NodeKind): (bp: Blueprint)
    requires k == Not
    ensures WellFormedBlueprint(bp)
    ensures bp.category == Some(PaletteCategory(k))
    ensures HasExecInput(bp) <==> HasExecOutput(bp) && !IsRoot(k)
    ensures UnaryShape(bp)
  {
    Blueprint(
      Some(DataBlocks),
      Some([
        DataInput("a", DBoolean, VBool(false))
      ]),
      Some([
        DataOutput("result", DBoolean)
      ]),
      Some(map[])
    )
  }

  /** The entries for program roots and blocks. */
  function FlowConfig(k: NodeKind): (bp: Blueprint)
    requires SectionOf(k) == Flow
    ensures WellFormedBlueprint(bp)
    ensures bp.category == Some(PaletteCategory(k))
    ensures HasExecInput(bp) <==> HasExecOutput(bp) && !IsRoot(k)
  {
    if k == Start then StartConfig(k)
    else if k == GameLoop then GameLoopConfig(k)
    else if k == WhenKeyPressed then WhenKeyPressedConfig(k)
    else if k == Repeat then RepeatConfig(k)
    else if k == If then IfConfig(k)
    else WhileConfig(k)
  }

  /** The entries for pen and canvas statements. */
  function PenConfig(k: NodeKind): (bp: Blueprint)
    requires SectionOf(k) == Pen
    ensures WellFormedBlueprint(bp)
    ensures bp.category == Some(PaletteCategory(k))
    ensures HasExecInput(bp) <==> HasExecOutput(bp) && !IsRoot(k)
  {
    if k == MoveTo then MoveToConfig(k)
    else if k == LineTo then LineToConfig(k)
    else if k == SetColor then SetColorConfig(k)
    else if k == SetPenWidth then SetPenWidthConfig(k)
    else if k == DrawCircle then DrawCircleConfig(k)
    else if k == DrawRectangle then DrawRectangleConfig(k)
    else ClearCanvasConfig(k)
  }

  /** The entries for text and sprite statements. */
  function SpriteConfig(k: NodeKind): (bp: Blueprint)
    requires SectionOf(k) == Sprite
    ensures WellFormedBlueprint(bp)
    ensures bp.category == Some(PaletteCategory(k))
    ensures HasExecInput(bp) <==> HasExecOutput(bp) && !IsRoot(k)
  {
    if k == DrawText then DrawTextConfig(k)
    else if k == Say then SayConfig(k)
    else if k == ChangeXBy then ChangeXByConfig(k)
    else if k == SetXTo then SetXToConfig(k)
    else if k == ChangeYBy then ChangeYByConfig(k)
    else SetYToConfig(k)
  }

  /** The entries for functions, sound and variables. */
  function ProceduresConfig(k: NodeKind): (bp: Blueprint)
    requires SectionOf(k) == Procedures
    ensures WellFormedBlueprint(bp)
    ensures bp.category == Some(PaletteCategory(k))
    ensures HasExecInput(bp) <==> HasExecOutput(bp) && !IsRoot(k)
  {
    if k == Function then FunctionConfig(k)
    else if k == CallFunction then CallFunctionConfig(k)
    else if k == PlaySound then PlaySoundConfig(k)
    else if k == SetVariable then SetVariableConfig(k)
    else GetVariableConfig(k)
  }

  /** The entries for literals and sensors. */
  function ValuesConfig(k: NodeKind): (bp: Blueprint)
    requires SectionOf(k) == Values
    ensures WellFormedBlueprint(bp)
    ensures bp.category == Some(PaletteCategory(k))
    ensures HasExecInput(bp) <==> HasExecOutput(bp) && !IsRoot(k)
    ensures k == Number || k == String ==> PropertyMirrorsDefault(bp, "value")
    ensures k == RandomNumber ==> PropertyMirrorsDefault(bp, "min") && PropertyMirrorsDefault(bp, "max")
  {
    if k == Number then NumberConfig(k)
    else if k == String then StringConfig(k)
    else if k == RandomNumber then RandomNumberConfig(k)
    else GetMouseXConfig(k)
  }

  /** The entries for arithmetic, comparison and logic. */
  function OperatorsConfig(k: NodeKind): (bp: Blueprint)
    requires SectionOf(k) == Operators
    ensures WellFormedBlueprint(bp)
    ensures bp.category == Some(PaletteCategory(k))
    ensures HasExecInput(bp) <==> HasExecOutput(bp) && !IsRoot(k)
    ensures IsBinaryOperator(k) ==> BinaryShape(bp)
    ensures k == Not ==> UnaryShape(bp)
  {
    if k == Add then AddConfig(k)
    else if k == Subtract then SubtractConfig(k)
    else if k == Multiply then MultiplyConfig(k)
    else if k == Divide then DivideConfig(k)
    else if k == LessThan then LessThanConfig(k)
    else if k == EqualTo then EqualToConfig(k)
    else if k == GreaterThan then GreaterThanConfig(k)
    else if k == And then AndConfig(k)
    else if k == Or then OrConfig(k)
    else NotConfig(k)
  }

  /** The own entry of the `configs` object for a kind. */
  function Config(k: NodeKind): (bp: Blueprint)
    ensures WellFormedBlueprint(bp)
    ensures bp.category == Some(PaletteCategory(k))
    ensures HasExecInput(bp) <==> HasExecOutput(bp) && !IsRoot(k)
    ensures IsBinaryOperator(k) ==> BinaryShape(bp)
    ensures k == Not ==> UnaryShape(bp)
    ensures k == Number || k == String ==> PropertyMirrorsDefault(bp, "value")
    ensures k == RandomNumber ==> PropertyMirrorsDefault(bp, "min") && PropertyMirrorsDefault(bp, "max")
  {
    match SectionOf(k)
    case Flow => FlowConfig(k)
    case Pen => PenConfig(k)
    case Sprite => SpriteConfig(k)
    case Procedures => ProceduresConfig(k)
    case Values => ValuesConfig(k)
    case Operators => OperatorsConfig(k)
  }
  /** The program roots: they have an exec output but no exec input. */
  predicate IsRoot(k: NodeKind) {
    k == Start || k == GameLoop || k == WhenKeyPressed
  }

  /** `add` through `or`. */
  predicate IsBinaryOperator(k: NodeKind) {
    || k == Add || k == Subtract || k == Multiply || k == Divide
    || k == LessThan || k == EqualTo || k == GreaterThan || k == And || k == Or
  }

  /** Data inputs exactly `a` then `b`, one data output `result`. */
  predicate BinaryShape(bp: Blueprint) {
    && PortIds(InputsOf(bp)) == ["a", "b"] && AllData(InputsOf(bp))
    && PortIds(OutputsOf(bp)) == ["result"] && AllData(OutputsOf(bp))
  }

  /** One data input `a`, one data output `result`. */
  predicate UnaryShape(bp: Blueprint) {
    && PortIds(InputsOf(bp)) == ["a"] && AllData(InputsOf(bp))
    && PortIds(OutputsOf(bp)) == ["result"] && AllData(OutputsOf(bp))
  }

  /** One palette entry. */
  function Entry(k: NodeKind): TypeEntry {
    TypeEntry(Tag(k), Title(k), PaletteCategory(k))
  }

  /** `getNodeTypes()`: the palette, in display order. */
  function NodeTypes(): seq<TypeEntry> {
    seq(KindCount, i requires 0 <= i < KindCount => Entry(KindAt(i)))
  }

  /** The type tags the palette lists. */
  function PaletteTypes(): set<string> {
    set i | 0 <= i < |NodeTypes()| :: NodeTypes()[i].nodeType
  }

  /** `getNodeConfigByType(type)`: `configs[type] || fallback`. Looking a
      string up on the object literal also finds the members every object
      inherits, and those carry no blueprint fields at all. */
  function ConfigByType(t: string): Blueprint {
    match KindOf(t)
    case Some(k) => Config(k)
    case None => if t in InheritedKeys then InheritedBlueprint else GeneralBlueprint
  }

  /** `getNodeTitle(type)`: the name of the first palette entry of that type,
      or the type itself. */
  function NodeTitle(t: string): string {
    match Seqs.FindIndex(NodeTypes(), (e: TypeEntry) => e.nodeType == t)
    case Some(i) => NodeTypes()[i].name
    case None => t
  }

  // ---------------------------------------------------------------------
  // Kinds, tags and palette positions correspond one to one
  // ---------------------------------------------------------------------

  lemma TagTableInverts(k: NodeKind)
    ensures KindOfTagTable(Tag(k)) == Some(k)
  {
    match k
    case Start => assert KindOfTagTable("start") == Some(Start);
    case GameLoop => assert KindOfTagTable("gameLoop") == Some(GameLoop);
    case WhenKeyPressed => assert KindOfTagTable("whenKeyPressed") == Some(WhenKeyPressed);
    case Repeat => assert KindOfTagTable("repeat") == Some(Repeat);
    case If => assert KindOfTagTable("if") == Some(If);
    case While => assert KindOfTagTable("while") == Some(While);
    case MoveTo => assert KindOfTagTable("moveTo") == Some(MoveTo);
    case LineTo => assert KindOfTagTable("lineTo") == Some(LineTo);
    case SetColor => assert KindOfTagTable("setColor") == Some(SetColor);
    case SetPenWidth => assert KindOfTagTable("setPenWidth") == Some(SetPenWidth);
    case DrawCircle => assert KindOfTagTable("drawCircle") == Some(DrawCircle);
    case DrawRectangle => assert KindOfTagTable("drawRectangle") == Some(DrawRectangle);
    case ClearCanvas => assert KindOfTagTable("clearCanvas") == Some(ClearCanvas);
    case DrawText => assert KindOfTagTable("drawText") == Some(DrawText);
    case Say => assert KindOfTagTable("say") == Some(Say);
    case ChangeXBy => assert KindOfTagTable("changeXBy") == Some(ChangeXBy);
    case SetXTo => assert KindOfTagTable("setXTo") == Some(SetXTo);
    case ChangeYBy => assert KindOfTagTable("changeYBy") == Some(ChangeYBy);
    case SetYTo => assert KindOfTagTable("setYTo") == Some(SetYTo);
    case Function => assert KindOfTagTable("function") == Some(Function);
    case CallFunction => assert KindOfTagTable("callFunction") == Some(CallFunction);
    case PlaySound => assert KindOfTagTable("playSound") == Some(PlaySound);
    case SetVariable => assert KindOfTagTable("setVariable") == Some(SetVariable);
    case GetVariable => assert KindOfTagTable("getVariable") == Some(GetVariable);
    case Number => assert KindOfTagTable("number") == Some(Number);
    case String => assert KindOfTagTable("string") == Some(String);
    case RandomNumber => assert KindOfTagTable("randomNumber") == Some(RandomNumber);
    case GetMouseX => assert KindOfTagTable("getMouseX") == Some(GetMouseX);
    case Add => assert KindOfTagTable("add") == Some(Add);
    case Subtract => assert KindOfTagTable("subtract") == Some(Subtract);
    case Multiply => assert KindOfTagTable("multiply") == Some(Multiply);
    case Divide => assert KindOfTagTable("divide") == Some(Divide);
    case LessThan => assert KindOfTagTable("lessThan") == Some(LessThan);
    case EqualTo => assert KindOfTagTable("equalTo") == Some(EqualTo);
    case GreaterThan => assert KindOfTagTable("greaterThan") == Some(GreaterThan);
    case And => assert KindOfTagTable("and") == Some(And);
    case Or => assert KindOfTagTable("or") == Some(Or);
    case Not => assert KindOfTagTable("not") == Some(Not);
  }

  /** No two kinds share a tag. */
  lemma TagInjective(a: NodeKind, b: NodeKind)
    requires Tag(a) == Tag(b)
    ensures a == b
  {
    TagTableInverts(a);
    TagTableInverts(b);
  }

  /** No two kinds share a tag, for all pairs at once. */
  lemma TagsDistinct()
    ensures forall a: NodeKind, b: NodeKind :: Tag(a) == Tag(b) ==> a == b
  {
    forall a: NodeKind, b: NodeKind | Tag(a) == Tag(b)
      ensures a == b
    {
      TagInjective(a, b);
    }
  }

  /** Looking up a kind's own tag finds that kind. */
  lemma KindOfTag(k: NodeKind)
    ensures KindOf(Tag(k)) == Some(k)
  {
    TagInjective(KindOf(Tag(k)).value, k);
  }

  lemma KindAtOrdinal(k: NodeKind)
    ensures Ordinal(k) < KindCount && KindAt(Ordinal(k)) == k
  {
  }

  lemma OrdinalKindAt(i: nat)
    requires i < KindCount
    ensures Ordinal(KindAt(i)) == i
  {
  }

  /** Every kind is listed in the palette, at its ordinal. */
  lemma Listed(k: NodeKind)
    ensures Ordinal(k) < |NodeTypes()| && NodeTypes()[Ordinal(k)] == Entry(k)
  {
    KindAtOrdinal(k);
  }

  // ---------------------------------------------------------------------
  // Palette and registry
  // ---------------------------------------------------------------------

  /** No type is listed twice in the palette. */
  lemma PaletteTypesUnique()
    ensures forall i, j :: 0 <= i < j < |NodeTypes()| ==> NodeTypes()[i].nodeType != NodeTypes()[j].nodeType
  {
    forall i, j | 0 <= i < j < |NodeTypes()|
      ensures NodeTypes()[i].nodeType != NodeTypes()[j].nodeType
    {
      if NodeTypes()[i].nodeType == NodeTypes()[j].nodeType {
        TagInjective(KindAt(i), KindAt(j));
        OrdinalKindAt(i);
        OrdinalKindAt(j);
      }
    }
  }

  lemma RegisteredIsListed(t: string)
    requires KindOf(t).Some?
    ensures t in PaletteTypes()
  {
    var k := KindOf(t).value;
    Listed(k);
    assert NodeTypes()[Ordinal(k)].nodeType == t;
  }

  lemma ListedIsRegistered(t: string)
    requires t in PaletteTypes()
    ensures KindOf(t).Some?
  {
    var i :| 0 <= i < |NodeTypes()| && NodeTypes()[i].nodeType == t;
    KindOfTag(KindAt(i));
  }

  /** The palette and the registry list the same types. */
  lemma PaletteMatchesRegistry(t: string)
    ensures KindOf(t).Some? <==> t in PaletteTypes()
  {
    if KindOf(t).Some? {
      RegisteredIsListed(t);
    }
    if t in PaletteTypes() {
      ListedIsRegistered(t);
    }
  }

  /** A listed tag is looked up to its own entry. */
  lemma ConfigOfTag(k: NodeKind)
    ensures ConfigByType(Tag(k)) == Config(k)
  {
    KindOfTag(k);
  }

  /** Every palette entry has a registry entry filed under the same category. */
  lemma CategoriesAgree(i: nat)
    requires i < |NodeTypes()|
    ensures ConfigByType(NodeTypes()[i].nodeType).category == Some(NodeTypes()[i].category)
  {
    ConfigOfTag(KindAt(i));
  }

  /** The lookup is total: a type the palette does not list, other than a name
      every object inherits, gets the empty `general` blueprint. */
  lemma UnlistedIsGeneral(t: string)
    requires t !in PaletteTypes() && t !in InheritedKeys
    ensures ConfigByType(t) == GeneralBlueprint
  {
    PaletteMatchesRegistry(t);
  }

  lemma TitleOfListed(k: NodeKind)
    ensures NodeTitle(Tag(k)) == Title(k)
  {
    Listed(k);
    var j := Seqs.FindIndex(NodeTypes(), (e: TypeEntry) => e.nodeType == Tag(k)).value;
    TagInjective(KindAt(j), k);
  }

  lemma TitleOfUnlisted(t: string)
    requires t !in PaletteTypes()
    ensures NodeTitle(t) == t
  {
  }

  // ---------------------------------------------------------------------
  // Facts about every blueprint handed out
  // ---------------------------------------------------------------------

  /** Every blueprint the registry hands out, listed or not, is well formed:
      exec ports carry the data type `exec`, data inputs carry defaults, port
      ids are unique per list and the exec input is the port `in`. */
  lemma ConfigWellFormed(t: string)
    ensures WellFormedBlueprint(ConfigByType(t))
  {
  }

  /** Exactly the statement types take an exec input: every type with an exec
      output has one, except the three program roots, so no exec edge can end
      at `start`, `gameLoop` or `whenKeyPressed`. */
  lemma StatementsHaveExecInput(k: NodeKind)
    ensures HasExecInput(ConfigByType(Tag(k))) <==> HasExecOutput(ConfigByType(Tag(k))) && !IsRoot(k)
  {
    ConfigOfTag(k);
  }

  /** The binary operators read data inputs `a` and `b` and produce the data
      output `result`. */
  lemma OperatorShape(k: NodeKind)
    requires IsBinaryOperator(k)
    ensures BinaryShape(ConfigByType(Tag(k)))
  {
    ConfigOfTag(k);
  }

  /** `not` reads the single data input `a`. */
  lemma NotShape()
    ensures UnaryShape(ConfigByType(Tag(Not)))
  {
    ConfigOfTag(Not);
  }

  /** The literal blocks keep the same value in their `value` property as the
      default of their `value` input, and the random block its bounds. */
  lemma LiteralsConsistent()
    ensures PropertyMirrorsDefault(ConfigByType(Tag(Number)), "value")
    ensures PropertyMirrorsDefault(ConfigByType(Tag(String)), "value")
    ensures PropertyMirrorsDefault(ConfigByType(Tag(RandomNumber)), "min")
    ensures PropertyMirrorsDefault(ConfigByType(Tag(RandomNumber)), "max")
  {
    ConfigOfTag(Number);
    ConfigOfTag(String);
    ConfigOfTag(RandomNumber);
  }
}
