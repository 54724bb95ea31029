/**
  What the input controller promises, stated over the specification in
  InputModel: the required-field table, the shape of each action's primitive
  calls, the exception-to-result mapping, the success condition of a batch,
  the first-failure rule and the irrelevance of comments.
 */
module InputProperties {
  import opened Wrappers
  import opened Format
  import opened InputModel

  // ----- Recognising the action -----

  /** `Kind` recognises exactly the eleven action texts, and each kind's own text back. */
  lemma {:induction false} KindRoundTrip(action: string, kind: ActionKind)
    ensures Kind(ActionName(kind)) == Some(kind)
    ensures Kind(action) == Some(kind) <==> action == ActionName(kind)
  {
  }

  // ----- Dispatch: validation -----

  /** A command is rejected exactly when its action is unknown or a field its action requires is absent. */
  lemma DispatchValidation(i: nat, cmd: Command)
    ensures Dispatch(i, cmd).Invalid? <==>
      Kind(cmd.action).None? || !(RequiredFields(Kind(cmd.action).value) <= PresentFields(cmd))
  {
    match Kind(cmd.action)
    case None =>
    case Some(kind) =>
      var present := PresentFields(cmd);
      match kind
      case Type => assert TextField in present <==> cmd.text.Some?;
      case Press | Hotkey => assert KeysField in present <==> cmd.keys.Some?;
      case MoveTo | DragTo =>
        assert XCoord in present <==> cmd.x.Some?;
        assert YCoord in present <==> cmd.y.Some?;
      case Scroll => assert ScrollAmountField in present <==> cmd.scrollAmount.Some?;
      case _ =>
  }

  /** The missing-field message of an action names its index, its action and one field the action requires. */
  lemma MissingMessageNamesField(i: nat, kind: ActionKind)
    requires RequiredFields(kind) != {}
    ensures exists f ::
              f in RequiredFields(kind) && MissingPrefix(i, ActionName(kind)) + FieldText(f) <= MissingMessage(i, kind)
  {
    var prefix := MissingPrefix(i, ActionName(kind));
    var f := match kind
      case Type => TextField
      case Press | Hotkey => KeysField
      case Scroll => ScrollAmountField
      case _ => XCoord;
    assert f in RequiredFields(kind);
    var tail := match kind
      case Hotkey => " parameter or keys not a list/str."
      case MoveTo | DragTo => " or " + FieldText(YCoord) + " parameters."
      case _ => " parameter.";
    assert MissingMessage(i, kind) == prefix + FieldText(f) + tail;
  }

  /**
    A command rejected for a missing field gets the missing-field message of
    its action, which names the index, the action and one field the action
    requires; an unknown action gets its own message.
   */
  lemma ValidationMessage(i: nat, cmd: Command)
    ensures Dispatch(i, cmd).Invalid? && KnownAction(cmd.action) ==>
      && RequiredFields(Kind(cmd.action).value) != {}
      && Dispatch(i, cmd).message == MissingMessage(i, Kind(cmd.action).value)
      && exists f ::
                f in RequiredFields(Kind(cmd.action).value) &&
                MissingPrefix(i, cmd.action) + FieldText(f) <= Dispatch(i, cmd).message
    ensures !KnownAction(cmd.action) ==> Dispatch(i, cmd) == Invalid(UnknownActionMessage(i, cmd.action))
  {
    match Kind(cmd.action)
    case None =>
    case Some(kind) =>
      if Dispatch(i, cmd).Invalid? {
        assert RequiredFields(kind) != {};
        KindRoundTrip(cmd.action, kind);
        MissingMessageNamesField(i, kind);
      }
  }

  // ----- Dispatch: the primitives of each action -----

  /**
    A click-family command issues one click, with coordinates exactly when both
    x and y are given; `click` forwards clicks and button, `double_click` only
    button, right and middle clicks neither.
   */
  lemma ClickCoordinates(i: nat, cmd: Command)
    requires KnownAction(cmd.action) && IsClickFamily(Kind(cmd.action).value)
    ensures Dispatch(i, cmd).Primitives? && |Dispatch(i, cmd).events| == 1
    ensures var e := Dispatch(i, cmd).events[0];
      && (e.at.Some? <==> cmd.x.Some? && cmd.y.Some?)
      && (e.at.Some? ==> e.at.value == (cmd.x.value, cmd.y.value))
      && e.duration == cmd.duration
      && (cmd.action == "click" ==> e.ClickCall? && e.clicks == cmd.clicks && e.button == cmd.button)
      && (cmd.action == "double_click" ==> e.DoubleClickCall? && e.button == cmd.button)
      && (cmd.action == "right_click" ==> e.RightClickCall?)
      && (cmd.action == "middle_click" ==> e.MiddleClickCall?)
  {
  }

  /** `press` with a list sends one keystroke per key in list order (none for an empty list); with a name, one. */
  lemma PressKeystrokes(i: nat, cmd: Command)
    requires cmd.action == "press" && cmd.keys.Some?
    ensures Dispatch(i, cmd).Primitives?
    ensures var evs := Dispatch(i, cmd).events;
      match cmd.keys.value
      case Many(names) => |evs| == |names| && forall j :: 0 <= j < |names| ==> evs[j] == PressCall(names[j])
      case Single(key) => evs == [PressCall(key)]
  {
  }

  /** `hotkey` sends all its keys as one chord, in the given order. */
  lemma HotkeyChord(i: nat, cmd: Command)
    requires cmd.action == "hotkey" && cmd.keys.Some?
    ensures Dispatch(i, cmd).Primitives?
    ensures var evs := Dispatch(i, cmd).events;
      match cmd.keys.value
      case Many(names) => evs == [HotkeyCall(names)]
      case Single(key) => evs == [HotkeyCall([key])]
  {
  }

  /** Two keys pressed are two keystrokes; the same two keys as a hotkey are one chord. */
  lemma PressVersusHotkey(i: nat)
    ensures Dispatch(i, NewCommand("press").(keys := Some(Many(["a", "b"])))).events
      == [PressCall("a"), PressCall("b")]
    ensures Dispatch(i, NewCommand("hotkey").(keys := Some(Many(["a", "b"])))).events
      == [HotkeyCall(["a", "b"])]
  {
    var press := NewCommand("press").(keys := Some(Many(["a", "b"])));
    PressKeystrokes(i, press);
    var evs := Dispatch(i, press).events;
    assert evs[0] == PressCall("a") && evs[1] == PressCall("b");
  }

  /** `wait` only sleeps; every other action issues only pointer or keyboard primitives. */
  lemma WaitOnlySleeps(i: nat, cmd: Command)
    ensures cmd.action == "wait" ==> Dispatch(i, cmd) == Primitives([SleepCall(cmd.waitTime)])
    ensures Dispatch(i, cmd).Primitives? && cmd.action != "wait" ==>
      forall e :: e in Dispatch(i, cmd).events ==> IsInputPrimitive(e)
  {
    if KnownAction(cmd.action) {
      KindRoundTrip(cmd.action, Kind(cmd.action).value);
    }
  }

  /** `scroll` forwards its signed amount unchanged; zero is accepted. */
  lemma ScrollForwardsAmount(i: nat, cmd: Command)
    requires cmd.action == "scroll"
    ensures Dispatch(i, cmd).Primitives? <==> cmd.scrollAmount.Some?
    ensures cmd.scrollAmount.Some? ==> Dispatch(i, cmd).events == [ScrollCall(cmd.scrollAmount.value)]
  {
  }

  // ----- Issuing primitives -----

  /**
    Issuing primitives returns normally exactly when none raises, and then
    appends them all; otherwise it appends a non-empty prefix whose last call
    raised and whose other calls returned.
   */
  lemma {:induction false} IssueStopsAtFirstFault(evs: seq<Event>, faults: nat -> Response, trace: seq<Event>)
    ensures var r := Issue(evs, faults, trace);
      && (r.response.Returned? <==> NoFault(faults, |trace|, |evs|))
      && (r.response.Returned? ==> r.trace == trace + evs)
      && (!r.response.Returned? ==>
            && |trace| < |r.trace| <= |trace| + |evs|
            && r.trace == trace + evs[..|r.trace| - |trace|]
            && NoFault(faults, |trace|, |r.trace| - |trace| - 1)
            && faults(|r.trace| - 1) == r.response)
    decreases |evs|
  {
    if evs != [] && faults(|trace|).Returned? {
      var rest := evs[1..];
      IssueStopsAtFirstFault(rest, faults, trace + [evs[0]]);
      var r := Issue(rest, faults, trace + [evs[0]]);
      if !r.response.Returned? {
        var n := |r.trace| - |trace|;
        assert r.trace == trace + [evs[0]] + rest[..n - 1];
        assert [evs[0]] + rest[..n - 1] == evs[..n];
      }
    }
  }

  // ----- One command -----

  /** A command succeeds exactly when it passes validation and none of its primitives raises; then all are issued. */
  lemma ExecuteSucceedsIff(i: nat, action: string, plan: Plan, faults: nat -> Response, trace: seq<Event>)
    ensures var s := ExecuteSpec(i, action, plan, faults, trace);
      && (s.failure.None? <==> plan.Primitives? && NoFault(faults, |trace|, |plan.events|))
      && (s.failure.None? ==> s.trace == trace + plan.events)
  {
    if plan.Primitives? {
      IssueStopsAtFirstFault(plan.events, faults, trace);
    }
  }

  /**
    When a primitive of command `i` raises, the command fails at the last
    primitive issued: a fail-safe abort gives the fixed message, any other
    exception the command's index, action and the exception text.
   */
  lemma FaultMessages(i: nat, action: string, plan: Plan, faults: nat -> Response, trace: seq<Event>)
    requires plan.Primitives?
    ensures var s := ExecuteSpec(i, action, plan, faults, trace);
      s.failure.Some? ==>
        && |trace| < |s.trace|
        && NoFault(faults, |trace|, |s.trace| - |trace| - 1)
        && (faults(|s.trace| - 1) == FailSafe ==> s.failure.value == ErrorAt(i, FailSafeMessage))
        && (faults(|s.trace| - 1).Raised? ==>
              s.failure.value == ErrorAt(i, "Error executing command " + NatToString(i)
                + " (" + action + "): " + faults(|s.trace| - 1).reason))
  {
    IssueStopsAtFirstFault(plan.events, faults, trace);
  }

  // ----- The batch: success -----

  function PlanEvents(p: Plan): seq<Event> {
    if p.Primitives? then p.events else []
  }

  /** The primitives of plans `i..` in order. */
  function Planned(plans: seq<Plan>, i: nat): seq<Event>
    requires i <= |plans|
    decreases |plans| - i
  {
    if i == |plans| then [] else PlanEvents(plans[i]) + Planned(plans, i + 1)
  }

  ghost predicate AllValid(plans: seq<Plan>, i: nat) {
    forall k :: i <= k < |plans| ==> plans[k].Primitives?
  }

  lemma NoFaultSplit(faults: nat -> Response, from: nat, m: nat, n: nat)
    ensures NoFault(faults, from, m + n) <==> NoFault(faults, from, m) && NoFault(faults, from + m, n)
  {
  }

  /**
    A batch succeeds exactly when every command passes validation and no
    primitive raises; then every planned primitive has been issued, in order.
   */
  lemma {:induction false} SuccessIff(cmds: seq<Command>, plans: seq<Plan>, i: nat, faults: nat -> Response, trace: seq<Event>)
    requires |plans| == |cmds| && i <= |cmds|
    ensures var r := RunFrom(cmds, plans, i, faults, trace);
      && (r.result.status == Success <==> AllValid(plans, i) && NoFault(faults, |trace|, |Planned(plans, i)|))
      && (r.result.status == Success ==> r.trace == trace + Planned(plans, i))
    decreases |cmds| - i
  {
    if i < |cmds| {
      var step := ExecuteSpec(i, cmds[i].action, plans[i], faults, trace);
      ExecuteSucceedsIff(i, cmds[i].action, plans[i], faults, trace);
      RunFromStep(cmds, plans, i, faults, trace, step);
      assert Planned(plans, i) == PlanEvents(plans[i]) + Planned(plans, i + 1);
      NoFaultSplit(faults, |trace|, |PlanEvents(plans[i])|, |Planned(plans, i + 1)|);
      if step.failure.None? {
        SuccessIff(cmds, plans, i + 1, faults, step.trace);
        assert AllValid(plans, i) <==> AllValid(plans, i + 1);
      } else if plans[i].Primitives? {
        assert !NoFault(faults, |trace|, |PlanEvents(plans[i])|);
      } else {
        assert !AllValid(plans, i);
      }
    }
  }

  /** The empty batch, and any batch of valid commands whose primitives all return, succeeds. */
  lemma AllValidSucceeds(cmds: seq<Command>, faults: nat -> Response, trace: seq<Event>)
    requires forall k :: 0 <= k < |cmds| ==> Dispatch(k, cmds[k]).Primitives?
    requires NoFault(faults, |trace|, |Planned(Plans(cmds), 0)|)
    ensures RunBatch(cmds, faults, trace).result == InputControlResult(Success, "All commands executed successfully.", None)
    ensures RunBatch(cmds, faults, trace).trace == trace + Planned(Plans(cmds), 0)
  {
    SuccessIff(cmds, Plans(cmds), 0, faults, trace);
  }

  // ----- The batch: first failure -----

  /**
    Running a batch is running its first `n` commands and, if they all
    succeeded, running the rest from index `n` on the trace they left.
   */
  lemma {:induction false} RunSplit(cmds: seq<Command>, plans: seq<Plan>, n: nat, i: nat, faults: nat -> Response, trace: seq<Event>)
    requires |plans| == |cmds| && i <= n <= |cmds|
    ensures var head := RunFrom(cmds[..n], plans[..n], i, faults, trace);
      RunFrom(cmds, plans, i, faults, trace) ==
        if head.result.status == Error then head else RunFrom(cmds, plans, n, faults, head.trace)
    decreases n - i
  {
    if i < n {
      assert cmds[..n][i] == cmds[i] && plans[..n][i] == plans[i];
      var step := ExecuteSpec(i, cmds[i].action, plans[i], faults, trace);
      if step.failure.None? {
        RunSplit(cmds, plans, n, i + 1, faults, step.trace);
      }
    }
  }

  /** The plans of a prefix are the prefix of the plans. */
  lemma PlansPrefix(cmds: seq<Command>, n: nat)
    requires n <= |cmds|
    ensures Plans(cmds[..n]) == Plans(cmds)[..n]
  {
  }

  /** Once a batch fails, appending commands changes neither its result nor its primitives. */
  lemma FailureIgnoresLaterCommands(cmds: seq<Command>, rest: seq<Command>, faults: nat -> Response, trace: seq<Event>)
    requires RunBatch(cmds, faults, trace).result.status == Error
    ensures RunBatch(cmds + rest, faults, trace) == RunBatch(cmds, faults, trace)
  {
    var all := cmds + rest;
    assert all[..|cmds|] == cmds;
    PlansPrefix(all, |cmds|);
    RunSplit(all, Plans(all), |cmds|, 0, faults, trace);
  }

  /**
    A failed batch failed at command k = last_executed_command_index: the
    commands before k all succeeded and issued all their primitives, and the
    result and final trace are exactly those of command k run after them.
   */
  lemma FirstFailure(cmds: seq<Command>, faults: nat -> Response, trace: seq<Event>)
    requires RunBatch(cmds, faults, trace).result.status == Error
    ensures var r := RunBatch(cmds, faults, trace);
      var k := r.attempted - 1;
      && r.result.lastExecutedCommandIndex == Some(k)
      && k < |cmds|
      && RunBatch(cmds[..k], faults, trace).result == SuccessResult
      && RunBatch(cmds[..k], faults, trace).trace == trace + Planned(Plans(cmds[..k]), 0)
      && ExecuteSpec(k, cmds[k].action, Dispatch(k, cmds[k]), faults, RunBatch(cmds[..k], faults, trace).trace)
         == Step(r.trace, Some(r.result))
  {
    var r := RunBatch(cmds, faults, trace);
    var k := r.attempted - 1;
    PlansPrefix(cmds, k);
    RunSplit(cmds, Plans(cmds), k, 0, faults, trace);
    SuccessIff(cmds[..k], Plans(cmds[..k]), 0, faults, trace);
  }

  // ----- Comments -----

  function Uncommented(cmd: Command): Command {
    cmd.(comment := None)
  }

  lemma DispatchIgnoresComment(i: nat, c: Command, d: Command)
    requires Uncommented(c) == Uncommented(d)
    ensures Dispatch(i, c) == Dispatch(i, d)
  {
    assert c.action == d.action;
  }

  lemma {:induction false} RunIgnoresComments(a: seq<Command>, b: seq<Command>, plans: seq<Plan>, i: nat, faults: nat -> Response, trace: seq<Event>)
    requires |a| == |b| == |plans| && i <= |a|
    requires forall k :: 0 <= k < |a| ==> a[k].action == b[k].action
    ensures RunFrom(a, plans, i, faults, trace) == RunFrom(b, plans, i, faults, trace)
    decreases |a| - i
  {
    if i < |a| {
      var step := ExecuteSpec(i, a[i].action, plans[i], faults, trace);
      if step.failure.None? {
        RunIgnoresComments(a, b, plans, i + 1, faults, step.trace);
      }
    }
  }

  /** Comments change neither the primitives issued nor the result of a batch. */
  lemma CommentIrrelevant(a: seq<Command>, b: seq<Command>, faults: nat -> Response, trace: seq<Event>)
    requires |a| == |b|
    requires forall k :: 0 <= k < |a| ==> Uncommented(a[k]) == Uncommented(b[k])
    ensures RunBatch(a, faults, trace) == RunBatch(b, faults, trace)
  {
    forall k | 0 <= k < |a|
      ensures Plans(a)[k] == Plans(b)[k] && a[k].action == b[k].action
    {
      DispatchIgnoresComment(k, a[k], b[k]);
    }
    assert Plans(a) == Plans(b);
    RunIgnoresComments(a, b, Plans(a), 0, faults, trace);
  }

  /** Every log line starts by naming the command's index. */
  lemma LogLineNamesIndex(i: nat, cmd: Command)
    ensures "Executing command " + NatToString(i) <= LogLine(i, cmd)
  {
    var head := "Executing command " + NatToString(i);
    if HasComment(cmd) {
      assert LogLine(i, cmd) == head + (" (" + cmd.action + "): " + cmd.comment.value);
    } else {
      assert LogLine(i, cmd) == head + (": " + cmd.action);
    }
  }

  /** The log line mentions the comment exactly when the comment is present and non-empty. */
  lemma LogLineComment(i: nat, cmd: Command)
    ensures LogLine(i, cmd) == LogLine(i, Uncommented(cmd)) <==> !HasComment(cmd)
  {
    var n := NatToString(i);
    if HasComment(cmd) {
      var with := LogLine(i, cmd);
      var without := LogLine(i, Uncommented(cmd));
      assert with[18 + |n|] == ' ';
      assert without[18 + |n|] == ':';
    }
  }

  // ----- Scenarios -----

  /** move_to, click, type and press with every primitive returning: the fixed success result. */
  lemma ScenarioAllSucceed(faults: nat -> Response, trace: seq<Event>)
    requires NoFault(faults, |trace|, 4)
    ensures var cmds := [
        NewCommand("move_to").(x := Some(0), y := Some(0)),
        NewCommand("click"),
        NewCommand("type").(text := Some("hi")),
        NewCommand("press").(keys := Some(Single("enter")))];
      var r := RunBatch(cmds, faults, trace);
      && r.result == InputControlResult(Success, "All commands executed successfully.", None)
      && r.trace == trace + [MoveToCall(0, 0, Some(0.2)), ClickCall(None, Some(1), Some(Left), Some(0.2)),
                             TypewriteCall("hi", 0.01), PressCall("enter")]
  {
    var cmds := [
        NewCommand("move_to").(x := Some(0), y := Some(0)),
        NewCommand("click"),
        NewCommand("type").(text := Some("hi")),
        NewCommand("press").(keys := Some(Single("enter")))];
    var plans := Plans(cmds);
    assert plans[0] == Primitives([MoveToCall(0, 0, Some(0.2))]);
    assert plans[1] == Primitives([ClickCall(None, Some(1), Some(Left), Some(0.2))]);
    assert plans[2] == Primitives([TypewriteCall("hi", 0.01)]);
    assert plans[3] == Primitives([PressCall("enter")]);
    assert Planned(plans, 3) == [PressCall("enter")];
    assert Planned(plans, 2) == [TypewriteCall("hi", 0.01), PressCall("enter")];
    assert Planned(plans, 1) == [ClickCall(None, Some(1), Some(Left), Some(0.2)), TypewriteCall("hi", 0.01), PressCall("enter")];
    SuccessIff(cmds, plans, 0, faults, trace);
  }

  lemma PressPrefixText()
    ensures MissingPrefix(1, "press") == "Command 1 ('press') missing "
  {
    assert NatToString(1) == "1";
  }

  lemma MissingKeysText()
    ensures MissingMessage(1, Press) == "Command 1 ('press') missing 'keys' parameter."
  {
    PressPrefixText();
  }

  /** move_to then press without keys: error at index 1 naming `press` and `keys`, after the move. */
  lemma ScenarioMissingKeys(faults: nat -> Response, trace: seq<Event>)
    requires faults(|trace|) == Returned
    ensures var cmds := [NewCommand("move_to").(x := Some(5), y := Some(5)), NewCommand("press")];
      var r := RunBatch(cmds, faults, trace);
      && r.result == InputControlResult(Error, "Command 1 ('press') missing 'keys' parameter.", Some(1))
      && r.trace == trace + [MoveToCall(5, 5, Some(0.2))]
  {
    var cmds := [NewCommand("move_to").(x := Some(5), y := Some(5)), NewCommand("press")];
    var plans := Plans(cmds);
    var moved := trace + [MoveToCall(5, 5, Some(0.2))];
    var message := MissingMessage(1, Press);
    assert plans[0] == Primitives([MoveToCall(5, 5, Some(0.2))]);
    assert plans[1] == Invalid(message);
    assert ExecuteSpec(0, "move_to", plans[0], faults, trace) == Step(moved, None);
    assert RunFrom(cmds, plans, 1, faults, moved) == BatchRun(ErrorAt(1, message), moved, 2);
    MissingKeysText();
  }
}
