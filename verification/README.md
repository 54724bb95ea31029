# Input-command interpreter and drive-letter rewrite, modelled in Dafny

This project models two pieces of a desktop-automation tool server.

**`control_input`** (tools/input_controller.py) is a batch interpreter. It takes an
ordered list of `Command` records. Each record has an action (`click`,
`double_click`, `right_click`, `middle_click`, `type`, `press`, `hotkey`,
`move_to`, `drag_to`, `scroll`, `wait`) and optional fields. The interpreter
works through the list in index order:

- It prints a log line for the command.
- It checks the fields that command's action needs.
- It calls the matching pyautogui primitive, or `time.sleep` for `wait`.

It stops at the first command that fails a field check or whose primitive raises.
It then returns one `InputControlResult` naming that command's index. If every
command succeeds, it returns the fixed success result.

**`_normalize_path`** (utils/path_utils.py) rewrites Windows drive prefixes
before building a `Path`. This project models only that string rewrite.

Files:

- `input_model.dfy` (module `InputModel`): the data model.
  - `Command`, `Keys` (`Single` name or `Many` names), `Button` and `InputControlResult`.
  - One `Event` per primitive call, with the arguments the source passes.
  - `Kind` says which of the `cmd.action == "..."` tests succeeds, if any.
  - `Dispatch` is the `if`/`elif` chain as a function, matching on that kind. It gives either the primitives a command issues, or the validation error.
  - `Issue`, `ExecuteSpec` and `RunFrom`/`RunBatch` specify how a command and a batch run against a fault oracle. `RunFrom` takes the plan of every command (`Plans`) as a parameter, so the batch lemmas hold for any plans and apply to `Dispatch` through `Plans`. The oracle (`faults: nat -> Response`) says whether the primitive call at each trace position returns, raises `FailSafeException`, or raises another exception with a message.
- `input_controller.dfy` (module `InputController`): the imperative interpreter.
  - The class `Desktop` holds the trace of primitive calls issued and the console lines printed.
  - `ControlInput` is the batch loop, `ExecuteCommand` is the per-command dispatch, and `PressAll` is the inner keystroke loop.
  - Each is proved equal to the specification functions.
- `input_properties.dfy` (module `InputProperties`): what the interpreter promises, as lemmas over the specification.
- `path_utils.dfy` (module `PathUtils`): the two drive-letter rules and their properties.
- `format.dfy` (module `Format`): decimal rendering of the command index in messages (Python's `f"{i}"`), with its parse-back partner.
- `wrappers.dfy` (module `Wrappers`): `Option`.

Modelling choices:

- `action` is a string rather than an enumeration. This keeps the unknown-action branch (lines 110-111) reachable.
  - `KnownAction` states the pydantic `Literal`.
  - `InputProperties.KindRoundTrip` shows that `Kind` recognises exactly the eleven action texts. Matching on the kind is therefore the same as the source's chain of string tests.
  - `InputProperties.ValidationMessage` shows that only an action outside that set takes the unknown-action branch.
- Whether a primitive raises depends on the fault oracle, not on modelled desktop geometry.
- Float fields (`duration`, `wait_time`, the typing interval) are `real`s. They are passed through unchanged.
- Facts about the source that the model keeps:
  - A click with coordinates is one `pyautogui.click(x=…, y=…)` call (tools/input_controller.py:54), with no separate move before it.
  - `type` is one `typewrite` call with `interval=0.01` (tools/input_controller.py:74).
  - A fail-safe abort is caught and turned into an error result (tools/input_controller.py:113-114). It does not propagate.
  - The separator inserted after a bare drive prefix is two backslash characters (utils/path_utils.py:19), although the comment at utils/path_utils.py:17 shows one.
- The missing-field messages are built by `MissingMessage` from the index, the action text and `FieldText`, the quoted name of each field. The result is the exact text of tools/input_controller.py:76, 85, 92, 97, 102 and 107.

## Model

| member | source | states |
|---|---|---|
| `InputController.Desktop.ControlInput` | tools/input_controller.py:35-118 | The method's returned result, its trace of primitive calls and its printed log lines are those of `RunBatch` on the old trace. The log holds one line per command started, up to and including the failing one. |
| `InputController.Desktop.ExecuteCommand` | tools/input_controller.py:46-116 | One pass of the loop body (field checks, primitive calls, the two `except` clauses) leaves exactly the trace and failure of `ExecuteSpec`. |
| `InputController.Desktop.Perform` | tools/input_controller.py:52-109 | A primitive call is appended to the trace, and its outcome is the oracle's answer for its trace position. |
| `InputController.Desktop.Log` | tools/input_controller.py:47-50 | A printed line is appended to the console. |
| `InputController.Desktop.Caught` | tools/input_controller.py:113-116 | A call that returns is not caught. A call that raises becomes an error result carrying index i. |
| `InputController.Desktop.Fire` | tools/input_controller.py:113-116 | Calling one primitive for command i and catching what it raises leaves exactly the trace and failure of `ExecuteSpec` for a single-primitive plan. |
| `InputController.Desktop.PressAll` | tools/input_controller.py:79-81 | The keystroke-per-key loop issues the keys in order and stops after the first keystroke that raises, matching `ExecuteSpec`. |
| `InputModel.NewCommand` | tools/input_controller.py:19-28 | A command given only its action keeps that action, has no comment, and carries none of the fields any action requires. The defaults are duration 0.2, button left, clicks 1 and wait_time 1.0. |
| `InputModel.Kind` | tools/input_controller.py:52-111 | Which `cmd.action == "..."` test succeeds, if any. `KindRoundTrip` shows that it recognises exactly the eleven action texts. |
| `InputModel.Dispatch` | tools/input_controller.py:52-111 | The `if`/`elif` chain: the primitives command i issues, in order, or the error it returns. `DispatchValidation`, `ValidationMessage` and the per-action lemmas below characterise it against the required-field table. |
| `InputModel.MissingMessage` | tools/input_controller.py:76-107 | The missing-field text of each action. `MissingMessageNamesField` and `ValidationMessage` tie it to the required-field table. |
| `InputModel.UnknownActionMessage` | tools/input_controller.py:111 | The unknown-action text. `ValidationMessage` shows that exactly the actions outside the eleven known ones get it. |
| `InputModel.FaultResult` | tools/input_controller.py:113-116 | The two `except` clauses. `FaultMessages` states the result for a fail-safe abort and for any other `Exception`. |
| `InputModel.Issue` | tools/input_controller.py:80-81 | Issuing primitives only appends to the trace. |
| `InputModel.ExecuteSpec` | tools/input_controller.py:46-116 | A command never removes earlier primitives from the trace. A failure is an `error` result carrying index i. A validation failure issues no primitive and returns its message. |
| `InputModel.RunBatch` | tools/input_controller.py:35-118 | `control_input` never removes primitives from the trace and starts at most every command. It returns the fixed success result exactly when the status is success, and then all commands were started. An error names the last command started. |
| `InputModel.LogLine` | tools/input_controller.py:47-50 | The line printed before command i. It includes the comment exactly when the comment is present and non-empty. `LogLineNamesIndex` and `LogLineComment` characterise it. |
| `InputModel.LogLines` | tools/input_controller.py:47-50 | The log of the first n commands has n lines, and line k is command k's log line. |
| `InputModel.RunFrom` | tools/input_controller.py:45-118 | The batch result is `success` exactly when no index is reported, and success is the fixed success result after all commands. An error reports the index of the last command started. The trace only grows. |
| `InputProperties.KindRoundTrip` | tools/input_controller.py:52-111 | The kind of each action's own text is that kind, and an action has a given kind exactly when it is that kind's text. |
| `InputProperties.DispatchValidation` | tools/input_controller.py:72-111 | A command is rejected exactly when its action is unknown, or a field from the required-field table is absent. The table: `type` needs text, `press`/`hotkey` need keys, `move_to`/`drag_to` need x and y, `scroll` needs scroll_amount. |
| `InputProperties.ValidationMessage` | tools/input_controller.py:72-111 | A command rejected for a missing field gets its action's missing-field message. That message starts "Command i ('action') missing " followed by the quoted name of a field that the required-field table lists for the action. An unknown action gets "Unknown action type '…' at command i.". |
| `InputProperties.MissingMessageNamesField` | tools/input_controller.py:76-107 | Each action's missing-field message names its index, its action text and one field from the required-field table for that action. |
| `InputProperties.ClickCoordinates` | tools/input_controller.py:52-71 | A click-family command issues one click. It has coordinates exactly when both x and y are given, and they are (x, y). `click` forwards clicks and button, `double_click` forwards button, right and middle clicks forward neither. All four forward duration. |
| `InputProperties.PressKeystrokes` | tools/input_controller.py:77-85 | `press` with a list issues one keystroke per key, in list order, so an empty list issues nothing. `press` with a single name issues exactly one keystroke. |
| `InputProperties.HotkeyChord` | tools/input_controller.py:86-92 | `hotkey` issues exactly one chord holding the list in its order, or the single name alone. |
| `InputProperties.PressVersusHotkey` | tools/input_controller.py:77-92 | Keys ["a","b"] give two keystrokes a then b under `press`, and one chord a+b under `hotkey`. |
| `InputProperties.WaitOnlySleeps` | tools/input_controller.py:108-109 | `wait` issues only a sleep of `wait_time`. Every other action issues only pointer or keyboard primitives. |
| `InputProperties.ScrollForwardsAmount` | tools/input_controller.py:103-107 | `scroll` is accepted exactly when scroll_amount is present, including 0. It forwards the signed amount unchanged. |
| `InputProperties.IssueStopsAtFirstFault` | tools/input_controller.py:80-81 | Issuing a run of primitives returns normally exactly when none of them raises, and then appends them all in order. Otherwise it appends a non-empty prefix whose last call is the one that raised, and every earlier call returned. |
| `InputProperties.ExecuteSucceedsIff` | tools/input_controller.py:46-116 | A command succeeds exactly when it passes validation and none of its primitives raises. On success all its primitives are appended, in order. |
| `InputProperties.FaultMessages` | tools/input_controller.py:113-116 | When command i's primitive raises, the failure comes at the raising call, after calls that all returned. `FailSafeException` gives the fixed fail-safe message with index i. Any other `Exception` gives "Error executing command i (action): msg" with index i. |
| `InputProperties.SuccessIff` | tools/input_controller.py:45-118 | A batch succeeds exactly when every command passes validation and no planned primitive raises. On success the trace is all planned primitives, command by command, in order. |
| `InputProperties.AllValidSucceeds` | tools/input_controller.py:118 | An empty batch, or valid commands whose primitives all return, gives status success, "All commands executed successfully." and no index. |
| `InputProperties.RunSplit` | tools/input_controller.py:45-116 | A batch runs as its first n commands followed, only if those all succeed, by the rest from index n. |
| `InputProperties.PlansPrefix` | tools/input_controller.py:45 | The plans of the first n commands are the first n plans, since a command's plan depends only on its index and itself. |
| `InputProperties.FailureIgnoresLaterCommands` | tools/input_controller.py:45-116 | Once a batch fails, appending commands changes neither its result nor its trace, so no later command issues a primitive. |
| `InputProperties.FirstFailure` | tools/input_controller.py:45-116 | A failed batch reports k = last_executed_command_index < n. Commands 0..k-1 succeeded and issued all their planned primitives. The result and final trace are command k's failure after them. |
| `InputProperties.DispatchIgnoresComment` | tools/input_controller.py:52-111 | Two commands that differ only in their comment dispatch identically. |
| `InputProperties.RunIgnoresComments` | tools/input_controller.py:45-116 | Given the same plans, two batches whose commands have the same actions run identically. |
| `InputProperties.CommentIrrelevant` | tools/input_controller.py:47-50 | Batches that differ only in comments give the same result and the same primitive trace. |
| `InputProperties.LogLineNamesIndex` | tools/input_controller.py:47-50 | Every log line starts with "Executing command " and the index. |
| `InputProperties.LogLineComment` | tools/input_controller.py:47-50 | The log line differs from the comment-free line exactly when the comment is present and non-empty. |
| `InputProperties.ScenarioAllSucceed` | tools/input_controller.py:45-118 | move_to(0,0), click, type "hi", press "enter" with all primitives returning give the success result. The trace is those four calls with the default duration, clicks and button. |
| `InputProperties.MissingKeysText` | tools/input_controller.py:85 | The missing-keys message of `press` at index 1 is "Command 1 ('press') missing 'keys' parameter.". |
| `InputProperties.ScenarioMissingKeys` | tools/input_controller.py:84-85 | move_to(5,5) then press without keys give error index 1, "Command 1 ('press') missing 'keys' parameter.", after exactly the move. |
| `Format.NatToString` | tools/input_controller.py:76 | The index text is at least one decimal digit, with no leading zero. |
| `Format.ParseNatToString` | tools/input_controller.py:76 | Reading the index text back gives the index. |
| `Format.NatToStringInjective` | tools/input_controller.py:76 | Distinct indices give distinct texts. |
| `PathUtils.StripDriveSlash` | utils/path_utils.py:13-14 | A string starting with "/", an ASCII letter and ":" loses exactly its first character. Anything else is unchanged. |
| `PathUtils.InsertDriveSeparator` | utils/path_utils.py:18-19 | "X:" followed by a character other than "\" or "/" gets two backslash characters inserted after the colon. Its length grows by 2, and removing them gives the input back. Anything else is unchanged. |
| `PathUtils.RewriteDrive` | utils/path_utils.py:10-19 | Off Windows the string is unchanged. On Windows, neither drive pattern matches the result. |
| `PathUtils.PathArgument` | utils/path_utils.py:8-21 | Off Windows, the unquoted string reaches `Path(...)` unchanged. |
| `PathUtils.RewriteIdempotent` | utils/path_utils.py:10-19 | Rewriting an already rewritten string changes nothing. |
| `PathUtils.NoDrivePatternUnchanged` | utils/path_utils.py:13-19 | A string matching neither pattern is unchanged. |
| `PathUtils.RewriteKeepsRemainder` | utils/path_utils.py:13-19 | The rules apply in order. "/X:rest" becomes "X:" + two backslashes + rest when rest starts with a non-separator. It becomes "X:rest" when rest is empty or starts with a separator. Without the slash, only the second rule can apply. |
| `PathUtils.SeparatedDriveUnchanged` | utils/path_utils.py:18 | "X:" followed by "\" or "/", or a bare "X:", is left unchanged. |
| `PathUtils.Examples` | utils/path_utils.py:11-19 | "/d:foo" becomes "d:" + two backslashes + "foo", and "/d:" becomes "d:". "d:/x", "//d:x", "1:x" and a non-ASCII drive letter are unchanged, and nothing changes off Windows. |

## Left out

- Real pyautogui effects (pointer motion, keystroke injection, screen corners) are library and OS behaviour. A primitive is a trace event, and its outcome comes from the fault oracle.
- The fail-safe corner geometry and the `PAUSE = 0.1` rate limit (tools/input_controller.py:7-8) are library configuration, outside this model.
- The oracle lets any call raise either kind of exception, including `time.sleep`, which in practice never raises `FailSafeException`. The model therefore over-approximates which failures occur.
- Exceptions outside `Exception` (tools/input_controller.py:115), such as `KeyboardInterrupt` or `SystemExit`, escape `control_input` in the source. The model has no such outcome: every raised exception is caught, so their propagation is not modelled.
- `print` (tools/input_controller.py:48, 50) runs inside the `try`, so in the source a print that raises (for example a comment the console cannot encode) ends command i with "Error executing command i (…)" before any primitive. `Desktop.Log` cannot fail, so `CommentIrrelevant` and `ControlInput` hold only for a print that returns.
- `time.sleep` with `None` or a negative `wait_time` always raises (`TypeError` or `ValueError`; `wait_time` is optional and unconstrained, tools/input_controller.py:27, 109). The oracle may still let such a `SleepCall` return, so the model over-approximates this outcome: a `wait` with no or a negative `wait_time` can succeed in the model.
- Elapsed time is not modelled, because durations are floats passed to the library and nothing is proved about them.
- `async`: the interpreter never awaits inside the loop, so it is modelled as a sequential method. Concurrent batches are not modelled.
- `print` is modelled as lines appended to the desktop's console, not as writes to standard output.
- `main_test` and the `__main__` block are demonstration code.
- pydantic validation at construction time is not modelled. `Keys` is a closed variant, so the "keys not a list/str" half of the hotkey message (line 92) can only be reached with keys absent.
- `urllib.parse.unquote` is a parameter of `PathArgument`. `Path`, `absolute()`, `resolve()` and their exception fallbacks (utils/path_utils.py:21-39) are path-library calls outside this model, as is `platform.system()`, which is the `isWindows` parameter.
- tools/capture_screen.py, tools/google_genai.py and tools/subarea_tool.py are screen capture, network and image-file I/O. mcp_server.py is tool registration, and tools/say_greeting.py is a demo. None of these is part of this model.
