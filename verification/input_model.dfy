/**
  The command vocabulary of the input controller (tools/input_controller.py) and
  the pure specification of one batch: which primitives each command asks for,
  which required fields it checks first, how a failing primitive is turned into
  a result, and how the batch stops at the first failing command.

  A pyautogui (or `time.sleep`) call is an `Event`; what that call does on the
  real desktop is not modelled. Whether it returns or raises is decided by a
  fault oracle `faults: nat -> Response`, read at the position the call takes
  in the trace of all primitive calls so far.
 */
module InputModel {
  import opened Wrappers
  import opened Format

  /** Seconds as the source's floats; passed through, never computed with. */
  type Seconds = real

  datatype Button = Left | Middle | Right

  /** `keys: Union[str, List[str]]`: one key name or an ordered list of names. */
  datatype Keys = Single(key: string) | Many(names: seq<string>)

  /**
    One requested operation. Every field but `action` is optional, as in the
    pydantic model; `action` is kept as text so that a value outside the
    eleven known kinds can be represented.
   */
  datatype Command = Command(
    action: string,
    x: Option<int>,
    y: Option<int>,
    text: Option<string>,
    keys: Option<Keys>,
    duration: Option<Seconds>,
    button: Option<Button>,
    clicks: Option<int>,
    scrollAmount: Option<int>,
    waitTime: Option<Seconds>,
    comment: Option<string>)

  /** A command built with only its action given: the pydantic field defaults. */
  function NewCommand(action: string): (cmd: Command)
    ensures cmd.action == action && !HasComment(cmd)
    ensures PresentFields(cmd) == {}
  {
    Command(action, None, None, None, None, Some(0.2), Some(Left), Some(1), None, Some(1.0), None)
  }

  /** The eleven values the `Literal` type of `action` admits. */
  datatype ActionKind =
    | Click | DoubleClick | RightClick | MiddleClick
    | Type | Press | Hotkey | MoveTo | DragTo | Scroll | Wait

  /** The action text of each kind, as the source spells it. */
  function ActionName(kind: ActionKind): string {
    match kind
    case Click => "click"
    case DoubleClick => "double_click"
    case RightClick => "right_click"
    case MiddleClick => "middle_click"
    case Type => "type"
    case Press => "press"
    case Hotkey => "hotkey"
    case MoveTo => "move_to"
    case DragTo => "drag_to"
    case Scroll => "scroll"
    case Wait => "wait"
  }

  /** Which of the `cmd.action == "..."` tests succeeds, if any. */
  function Kind(action: string): Option<ActionKind> {
    if action == "click" then Some(Click)
    else if action == "double_click" then Some(DoubleClick)
    else if action == "right_click" then Some(RightClick)
    else if action == "middle_click" then Some(MiddleClick)
    else if action == "type" then Some(Type)
    else if action == "press" then Some(Press)
    else if action == "hotkey" then Some(Hotkey)
    else if action == "move_to" then Some(MoveTo)
    else if action == "drag_to" then Some(DragTo)
    else if action == "scroll" then Some(Scroll)
    else if action == "wait" then Some(Wait)
    else None
  }

  predicate KnownAction(action: string) {
    Kind(action).Some?
  }

  predicate IsClickFamily(kind: ActionKind) {
    kind.Click? || kind.DoubleClick? || kind.RightClick? || kind.MiddleClick?
  }

  /** The fields a command can carry that some action requires. */
  datatype Field = XCoord | YCoord | TextField | KeysField | ScrollAmountField

  /** How a missing-field message names the field. */
  function FieldText(f: Field): string {
    match f
    case XCoord => "'x'"
    case YCoord => "'y'"
    case TextField => "'text'"
    case KeysField => "'keys'"
    case ScrollAmountField => "'scroll_amount'"
  }

  /** Reference table of required fields per action (independent of Dispatch). */
  function RequiredFields(kind: ActionKind): set<Field> {
    match kind
    case Type => {TextField}
    case Press | Hotkey => {KeysField}
    case MoveTo | DragTo => {XCoord, YCoord}
    case Scroll => {ScrollAmountField}
    case _ => {}
  }

  function PresentFields(cmd: Command): set<Field> {
    (if cmd.x.Some? then {XCoord} else {})
    + (if cmd.y.Some? then {YCoord} else {})
    + (if cmd.text.Some? then {TextField} else {})
    + (if cmd.keys.Some? then {KeysField} else {})
    + (if cmd.scrollAmount.Some? then {ScrollAmountField} else {})
  }

  /** `if cmd.comment:` — an empty comment is falsy in Python. */
  predicate HasComment(cmd: Command) {
    cmd.comment.Some? && cmd.comment.value != ""
  }

  /** One primitive call, with the arguments the source passes to it. */
  datatype Event =
    | ClickCall(at: Option<(int, int)>, clicks: Option<int>, button: Option<Button>, duration: Option<Seconds>)
    | DoubleClickCall(at: Option<(int, int)>, button: Option<Button>, duration: Option<Seconds>)
    | RightClickCall(at: Option<(int, int)>, duration: Option<Seconds>)
    | MiddleClickCall(at: Option<(int, int)>, duration: Option<Seconds>)
    | TypewriteCall(text: string, interval: Seconds)
    | PressCall(key: string)
    | HotkeyCall(chord: seq<string>)
    | MoveToCall(toX: int, toY: int, duration: Option<Seconds>)
    | DragToCall(toX: int, toY: int, duration: Option<Seconds>, button: Option<Button>)
    | ScrollCall(amount: int)
    | SleepCall(seconds: Option<Seconds>)

  /** Every primitive except `time.sleep` drives the pointer or the keyboard. */
  predicate IsInputPrimitive(e: Event) {
    !e.SleepCall?
  }

  /** How a primitive call ends: it returns, or raises FailSafeException, or raises another exception. */
  datatype Response = Returned | FailSafe | Raised(reason: string)

  datatype Status = Success | Error

  datatype InputControlResult = InputControlResult(
    status: Status,
    message: string,
    lastExecutedCommandIndex: Option<nat>)

  /** The typing interval the source fixes for `typewrite`. */
  const TypeInterval: Seconds := 0.01

  const SuccessMessage: string := "All commands executed successfully."
  const FailSafeMessage: string :=
    "FailSafeException: Mouse moved to a corner (likely top-left). Operation aborted."

  const SuccessResult: InputControlResult := InputControlResult(Success, SuccessMessage, None)

  function ErrorAt(i: nat, message: string): InputControlResult {
    InputControlResult(Error, message, Some(i))
  }

  /** The start every missing-field message shares: it names the index and the action. */
  function MissingPrefix(i: nat, action: string): string {
    "Command " + NatToString(i) + " ('" + action + "') missing "
  }

  /** The message returned when a field `kind` requires is absent. */
  function MissingMessage(i: nat, kind: ActionKind): string
    requires RequiredFields(kind) != {}
  {
    match kind
    case Type => MissingPrefix(i, "type") + FieldText(TextField) + " parameter."
    case Press => MissingPrefix(i, "press") + FieldText(KeysField) + " parameter."
    case Hotkey => MissingPrefix(i, "hotkey") + FieldText(KeysField) + " parameter or keys not a list/str."
    case MoveTo => MissingPrefix(i, "move_to") + FieldText(XCoord) + " or " + FieldText(YCoord) + " parameters."
    case DragTo => MissingPrefix(i, "drag_to") + FieldText(XCoord) + " or " + FieldText(YCoord) + " parameters."
    case Scroll => MissingPrefix(i, "scroll") + FieldText(ScrollAmountField) + " parameter."
  }

  function UnknownActionMessage(i: nat, action: string): string {
    "Unknown action type '" + action + "' at command " + NatToString(i) + "."
  }

  /** The two `except` clauses: a fail-safe abort, or any other exception with its text. */
  function FaultResult(i: nat, action: string, r: Response): InputControlResult
    requires !r.Returned?
  {
    match r
    case FailSafe => ErrorAt(i, FailSafeMessage)
    case Raised(reason) =>
      ErrorAt(i, "Error executing command " + NatToString(i) + " (" + action + "): " + reason)
  }

  /** Coordinates are passed only when both are present. */
  function Position(cmd: Command): Option<(int, int)> {
    if cmd.x.Some? && cmd.y.Some? then Some((cmd.x.value, cmd.y.value)) else None
  }

  /** One independent keystroke per key, in list order. */
  function PressEach(names: seq<string>): seq<Event> {
    seq(|names|, j requires 0 <= j < |names| => PressCall(names[j]))
  }

  /** What the dispatch chain decides for a command before any primitive runs. */
  datatype Plan = Primitives(events: seq<Event>) | Invalid(message: string)

  /**
    The `if`/`elif` chain: either the primitives command `i` issues, in order,
    or the validation error it returns without issuing any.
   */
  function Dispatch(i: nat, cmd: Command): Plan {
    match Kind(cmd.action)
    case None => Invalid(UnknownActionMessage(i, cmd.action))
    case Some(kind) =>
      match kind
      case Click => Primitives([ClickCall(Position(cmd), cmd.clicks, cmd.button, cmd.duration)])
      case DoubleClick => Primitives([DoubleClickCall(Position(cmd), cmd.button, cmd.duration)])
      case RightClick => Primitives([RightClickCall(Position(cmd), cmd.duration)])
      case MiddleClick => Primitives([MiddleClickCall(Position(cmd), cmd.duration)])
      case Type =>
        if cmd.text.Some? then Primitives([TypewriteCall(cmd.text.value, TypeInterval)])
        else Invalid(MissingMessage(i, Type))
      case Press =>
        (match cmd.keys
         case Some(Many(names)) => Primitives(PressEach(names))
         case Some(Single(key)) => Primitives([PressCall(key)])
         case None => Invalid(MissingMessage(i, Press)))
      case Hotkey =>
        (match cmd.keys
         case Some(Many(names)) => Primitives([HotkeyCall(names)])
         case Some(Single(key)) => Primitives([HotkeyCall([key])])
         case None => Invalid(MissingMessage(i, Hotkey)))
      case MoveTo =>
        if cmd.x.Some? && cmd.y.Some? then Primitives([MoveToCall(cmd.x.value, cmd.y.value, cmd.duration)])
        else Invalid(MissingMessage(i, MoveTo))
      case DragTo =>
        if cmd.x.Some? && cmd.y.Some? then Primitives([DragToCall(cmd.x.value, cmd.y.value, cmd.duration, cmd.button)])
        else Invalid(MissingMessage(i, DragTo))
      case Scroll =>
        if cmd.scrollAmount.Some? then Primitives([ScrollCall(cmd.scrollAmount.value)])
        else Invalid(MissingMessage(i, Scroll))
      case Wait => Primitives([SleepCall(cmd.waitTime)])
  }

  /** No primitive at trace positions `from .. from + n - 1` raises. */
  ghost predicate NoFault(faults: nat -> Response, from: nat, n: nat) {
    forall k :: from <= k < from + n ==> faults(k).Returned?
  }

  datatype Issued = Issued(trace: seq<Event>, response: Response)

  /**
    Calls the primitives `evs` one after another, appending each to `trace`,
    and stops right after the first one that raises.
   */
  function Issue(evs: seq<Event>, faults: nat -> Response, trace: seq<Event>): (r: Issued)
    ensures trace <= r.trace
    decreases |evs|
  {
    if evs == [] then Issued(trace, Returned)
    else
      var r := faults(|trace|);
      if r.Returned? then Issue(evs[1..], faults, trace + [evs[0]])
      else Issued(trace + [evs[0]], r)
  }

  /** The effect of one command: the trace afterwards and, if it failed, the result returned. */
  datatype Step = Step(trace: seq<Event>, failure: Option<InputControlResult>)

  /** The plan of every command of a batch, by index. */
  function Plans(cmds: seq<Command>): seq<Plan> {
    seq(|cmds|, k requires 0 <= k < |cmds| => Dispatch(k, cmds[k]))
  }

  /**
    One iteration of the batch loop's body, inside its `try`: command `i`,
    whose action text is `action`, runs its plan.
   */
  function ExecuteSpec(i: nat, action: string, plan: Plan, faults: nat -> Response, trace: seq<Event>): (s: Step)
    ensures trace <= s.trace
    ensures s.failure.Some? ==> s.failure.value.status == Error && s.failure.value.lastExecutedCommandIndex == Some(i)
    ensures plan.Invalid? ==> s == Step(trace, Some(ErrorAt(i, plan.message)))
  {
    match plan
    case Invalid(message) => Step(trace, Some(ErrorAt(i, message)))
    case Primitives(evs) =>
      var issued := Issue(evs, faults, trace);
      if issued.response.Returned? then Step(issued.trace, None)
      else Step(issued.trace, Some(FaultResult(i, action, issued.response)))
  }

  /** The outcome of a batch: its result, the primitive trace, and how many commands were started. */
  datatype BatchRun = BatchRun(result: InputControlResult, trace: seq<Event>, attempted: nat)

  /**
    The batch loop from command `i` on, with `plans` the dispatch plans of
    `cmds` and `trace` the primitives issued so far.
   */
  function RunFrom(cmds: seq<Command>, plans: seq<Plan>, i: nat, faults: nat -> Response, trace: seq<Event>): (r: BatchRun)
    requires |plans| == |cmds| && i <= |cmds|
    ensures trace <= r.trace
    ensures i <= r.attempted <= |cmds|
    ensures r.result.status == Success <==> r.result.lastExecutedCommandIndex.None?
    ensures r.result.status == Success ==> r.result == SuccessResult && r.attempted == |cmds|
    ensures r.result.status == Error ==> i < r.attempted && r.result.lastExecutedCommandIndex == Some(r.attempted - 1)
    decreases |cmds| - i
  {
    if i == |cmds| then BatchRun(SuccessResult, trace, i)
    else
      var step := ExecuteSpec(i, cmds[i].action, plans[i], faults, trace);
      match step.failure
      case Some(result) => BatchRun(result, step.trace, i + 1)
      case None => RunFrom(cmds, plans, i + 1, faults, step.trace)
  }

  /** One turn of the batch: command `i` either ends the run or hands the rest its trace. */
  lemma RunFromStep(cmds: seq<Command>, plans: seq<Plan>, i: nat, faults: nat -> Response, trace: seq<Event>, step: Step)
    requires |plans| == |cmds| && i < |cmds|
    requires step == ExecuteSpec(i, cmds[i].action, plans[i], faults, trace)
    ensures RunFrom(cmds, plans, i, faults, trace) ==
      if step.failure.Some? then BatchRun(step.failure.value, step.trace, i + 1)
      else RunFrom(cmds, plans, i + 1, faults, step.trace)
  {
  }

  /** `control_input` on `cmds`, starting from the primitives issued so far. */
  function RunBatch(cmds: seq<Command>, faults: nat -> Response, trace: seq<Event>): (r: BatchRun)
    ensures trace <= r.trace && r.attempted <= |cmds|
    ensures r.result.status == Success <==> r.result == SuccessResult
    ensures r.result.status == Success ==> r.attempted == |cmds|
    ensures r.result.status == Error ==> 0 < r.attempted && r.result.lastExecutedCommandIndex == Some(r.attempted - 1)
  {
    RunFrom(cmds, Plans(cmds), 0, faults, trace)
  }

  /** The diagnostic line printed before command `i` runs. */
  function LogLine(i: nat, cmd: Command): string {
    if HasComment(cmd) then
      "Executing command " + NatToString(i) + " (" + cmd.action + "): " + cmd.comment.value
    else
      "Executing command " + NatToString(i) + ": " + cmd.action
  }

  /** The log lines of the first `n` commands. */
  function LogLines(cmds: seq<Command>, n: nat): (lines: seq<string>)
    requires n <= |cmds|
    ensures |lines| == n
    ensures forall k :: 0 <= k < n ==> lines[k] == LogLine(k, cmds[k])
  {
    if n == 0 then [] else LogLines(cmds, n - 1) + [LogLine(n - 1, cmds[n - 1])]
  }
}
