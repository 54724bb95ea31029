/**
  The batch interpreter `control_input` as an imperative method over the
  desktop's input devices. The desktop keeps the trace of primitive calls
  issued so far and the console lines printed so far; whether a primitive
  call raises is decided by its fault oracle.
 */
module InputController {
  import opened Wrappers
  import opened InputModel

  class Desktop {
    /** Response of the primitive call at each trace position. */
    const faults: nat -> Response
    /** Every pyautogui / time.sleep call issued, in order. */
    var trace: seq<Event>
    /** Every line printed by the interpreter, in order. */
    var console: seq<string>

    constructor (faults: nat -> Response)
      ensures this.faults == faults && trace == [] && console == []
    {
      this.faults := faults;
      trace := [];
      console := [];
    }

    /** Calls one primitive; it returns or raises as the oracle says. */
    method Perform(e: Event) returns (r: Response)
      modifies this`trace
      ensures trace == old(trace) + [e]
      ensures r == faults(|old(trace)|)
    {
      r := faults(|trace|);
      trace := trace + [e];
    }

    method Log(line: string)
      modifies this`console
      ensures console == old(console) + [line]
    {
      console := console + [line];
    }

    /** Maps the response of a primitive call to the `except` clauses of command `i`. */
    static function Caught(i: nat, action: string, r: Response): (failure: Option<InputControlResult>)
      ensures failure.None? <==> r.Returned?
      ensures failure.Some? ==> failure.value.status == Error && failure.value.lastExecutedCommandIndex == Some(i)
    {
      if r.Returned? then None else Some(FaultResult(i, action, r))
    }

    /** Calls one primitive for command `i` and catches what it raises. */
    method Fire(i: nat, cmd: Command, e: Event) returns (failure: Option<InputControlResult>)
      modifies this`trace
      ensures Step(trace, failure) == ExecuteSpec(i, cmd.action, Primitives([e]), faults, old(trace))
    {
      var r := Perform(e);
      failure := Caught(i, cmd.action, r);
      assert [e][1..] == [];
      assert Issue([e], faults, old(trace)) == Issued(trace, r);
    }

    /** `press` with a list: one keystroke per key, stopping at the first that raises. */
    method PressAll(i: nat, cmd: Command, names: seq<string>) returns (failure: Option<InputControlResult>)
      modifies this`trace
      ensures Step(trace, failure) == ExecuteSpec(i, cmd.action, Primitives(PressEach(names)), faults, old(trace))
    {
      ghost var evs := PressEach(names);
      var j := 0;
      while j < |names|
        invariant 0 <= j <= |names|
        invariant Issue(evs, faults, old(trace)) == Issue(evs[j..], faults, trace)
      {
        assert evs[j..][0] == PressCall(names[j]) && evs[j..][1..] == evs[j + 1..];
        var r := Perform(PressCall(names[j]));
        if !r.Returned? {
          return Some(FaultResult(i, cmd.action, r));
        }
        j := j + 1;
      }
      return None;
    }

    /**
      The body of the loop's `try` for command `i`: find which action it
      names, validate the fields that action needs, then call its primitives.
     */
    method ExecuteCommand(i: nat, cmd: Command) returns (failure: Option<InputControlResult>)
      modifies this`trace
      ensures Step(trace, failure) == ExecuteSpec(i, cmd.action, Dispatch(i, cmd), faults, old(trace))
    {
      match Kind(cmd.action)
      case None =>
        failure := Some(ErrorAt(i, UnknownActionMessage(i, cmd.action)));
      case Some(Click) =>
        failure := Fire(i, cmd, ClickCall(Position(cmd), cmd.clicks, cmd.button, cmd.duration));
      case Some(DoubleClick) =>
        failure := Fire(i, cmd, DoubleClickCall(Position(cmd), cmd.button, cmd.duration));
      case Some(RightClick) =>
        failure := Fire(i, cmd, RightClickCall(Position(cmd), cmd.duration));
      case Some(MiddleClick) =>
        failure := Fire(i, cmd, MiddleClickCall(Position(cmd), cmd.duration));
      case Some(Type) =>
        if cmd.text.Some? {
          failure := Fire(i, cmd, TypewriteCall(cmd.text.value, TypeInterval));
        } else {
          failure := Some(ErrorAt(i, MissingMessage(i, Type)));
        }
      case Some(Press) =>
        if cmd.keys.Some? && cmd.keys.value.Many? {
          failure := PressAll(i, cmd, cmd.keys.value.names);
        } else if cmd.keys.Some? {
          failure := Fire(i, cmd, PressCall(cmd.keys.value.key));
        } else {
          failure := Some(ErrorAt(i, MissingMessage(i, Press)));
        }
      case Some(Hotkey) =>
        if cmd.keys.Some? && cmd.keys.value.Many? {
          failure := Fire(i, cmd, HotkeyCall(cmd.keys.value.names));
        } else if cmd.keys.Some? {
          failure := Fire(i, cmd, HotkeyCall([cmd.keys.value.key]));
        } else {
          failure := Some(ErrorAt(i, MissingMessage(i, Hotkey)));
        }
      case Some(MoveTo) =>
        if cmd.x.Some? && cmd.y.Some? {
          failure := Fire(i, cmd, MoveToCall(cmd.x.value, cmd.y.value, cmd.duration));
        } else {
          failure := Some(ErrorAt(i, MissingMessage(i, MoveTo)));
        }
      case Some(DragTo) =>
        if cmd.x.Some? && cmd.y.Some? {
          failure := Fire(i, cmd, DragToCall(cmd.x.value, cmd.y.value, cmd.duration, cmd.button));
        } else {
          failure := Some(ErrorAt(i, MissingMessage(i, DragTo)));
        }
      case Some(Scroll) =>
        if cmd.scrollAmount.Some? {
          failure := Fire(i, cmd, ScrollCall(cmd.scrollAmount.value));
        } else {
          failure := Some(ErrorAt(i, MissingMessage(i, Scroll)));
        }
      case Some(Wait) =>
        failure := Fire(i, cmd, SleepCall(cmd.waitTime));
    }

    /**
      `control_input`: runs the commands in index order, printing a log line
      before each, and returns at the first command that fails.
     */
    method ControlInput(commands: seq<Command>) returns (result: InputControlResult)
      modifies this`trace, this`console
      ensures var run := RunBatch(commands, faults, old(trace));
        && result == run.result
        && trace == run.trace
        && console == old(console) + LogLines(commands, run.attempted)
    {
      ghost var plans := Plans(commands);
      var i := 0;
      while i < |commands|
        invariant 0 <= i <= |commands|
        invariant RunBatch(commands, faults, old(trace)) == RunFrom(commands, plans, i, faults, trace)
        invariant console == old(console) + LogLines(commands, i)
      {
        Log(LogLine(i, commands[i]));
        ghost var before := trace;
        var failure := ExecuteCommand(i, commands[i]);
        assert plans[i] == Dispatch(i, commands[i]);
        RunFromStep(commands, plans, i, faults, before, Step(trace, failure));
        assert console == old(console) + LogLines(commands, i + 1);
        if failure.Some? {
          assert RunBatch(commands, faults, old(trace)) == BatchRun(failure.value, trace, i + 1);
          return failure.value;
        }
        i := i + 1;
      }
      assert RunBatch(commands, faults, old(trace)) == BatchRun(SuccessResult, trace, |commands|);
      return SuccessResult;
    }
  }
}
