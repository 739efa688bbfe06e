/**
 * The values that flow through a conversation and the three response kinds
 * (render, transition, widget result) that tie states and widgets together.
 */
module Protocol {
  import opened Wrappers
  import opened Text

  /** The Python values a widget stages in scratch or hands back to its host. */
  datatype Value =
    | NoneV
    | IntV(i: int)
    | BoolV(b: bool)
    | StrV(s: string)
    | ListV(items: seq<Value>)
      /** The dict `{'year': .., 'month': .., 'day': ..}` of the date widgets. */
    | DateV(year: Value, month: Value, day: Value)
      /** A model instance: its `str()` and its field values. */
    | RecordV(display: string, fields: map<string, Value>)

  /** Python truthiness: `bool(v)`. A dict with three keys and a model instance are always true. */
  predicate Truthy(v: Value) {
    match v
    case NoneV => false
    case IntV(i) => i != 0
    case BoolV(b) => b
    case StrV(s) => s != ""
    case ListV(items) => items != []
    case DateV(_, _, _) => true
    case RecordV(_, _) => true
  }

  function JoinComma(parts: seq<string>): string
    decreases |parts|
  {
    if parts == [] then ""
    else if |parts| == 1 then parts[0]
    else parts[0] + ", " + JoinComma(parts[1..])
  }

  function Quote(s: string): string { "'" + s + "'" }

  /** `str(v)`, which is what `"{}".format(v)` inserts. */
  function Show(v: Value): string
    decreases v, 1
  {
    match v
    case NoneV => "None"
    case IntV(i) => IntToString(i)
    case BoolV(b) => if b then "True" else "False"
    case StrV(s) => s
    case ListV(items) => "[" + JoinComma(seq(|items|, k requires 0 <= k < |items| => ShowItem(items[k]))) + "]"
    case DateV(y, m, d) =>
      "{'year': " + ShowItem(y) + ", 'month': " + ShowItem(m) + ", 'day': " + ShowItem(d) + "}"
    case RecordV(display, _) => display
  }

  /** `repr(v)` of a value inside a container. */
  function ShowItem(v: Value): string
    decreases v, 2
  {
    if v.StrV? then Quote(v.s) else Show(v)
  }

  /** A keyboard button: its label and its callback token. */
  datatype Button = Button(caption: string, data: string)

  type Keyboard = seq<seq<Button>>

  /** A render payload: text and an optional inline keyboard. */
  datatype MenuResponse = MenuResponse(text: string, keyboard: Option<Keyboard>)

  /** The step part of a transition: absent, a step number or a step name. */
  datatype Step = NoStep | StepNum(n: int) | StepName(name: string)

  predicate StepTruthy(s: Step) {
    match s
    case NoStep => false
    case StepNum(n) => n != 0
    case StepName(name) => name != ""
  }

  /** A transition directive. */
  datatype NextResponse = NextResponse(state: string, step: Step, forceReturn: Option<int>)

  /** The widget-result protocol; `OtherStatus` is any value outside the three constants. */
  datatype Status = Continue | Stop | Abort | OtherStatus(code: int)

  datatype InputResponse = InputResponse(status: Status, menu: Option<MenuResponse>, value: Value)

  /** The facts of one incoming event the core reads. */
  datatype Event = Event(
    text: string,
    userId: int,
    username: Option<string>,
    chatId: int,
    chatUsername: Option<string>,
    chatType: string,
    userIsStaff: bool,
    userIsSuper: bool,
    chatIsStaff: bool)

  /** The widget classes `FIELDS_MAP` can name. */
  datatype InputClass =
    | IntegerInput
    | DjangoBoolean        // Django's model BooleanField, not a bot widget
    | CharInput
    | CalendarFieldInput
    | FloatInput
    | TimeFieldInput
    | TextInput
    | UniqueSelectInput
    | MultipleSelectInput

  /** What a host state persists about its installed hook, to rebuild it on the next event. */
  datatype HookSpec =
    | FieldHook(cls: InputClass, fieldLabel: string, initial: Value)
    | FormHook(model: string)
    | SelectHook(name: string, offset: int)
}
