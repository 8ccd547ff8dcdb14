# BlueStacks agent SDK: turn protocol, event stream and result projections

This project models the core of the BlueStacks agent SDK in Dafny. That core is the client that drives a
remote Android automation agent. Each task has a session and a task identifier. The agent sends requests
over HTTP and reads a long-lived Server-Sent Events stream. Only one "turn" may be awaited at a time: the
result a caller of `run_task` or `resume_task` is waiting for.

The model covers the following.

- **`Agent.BluestacksAgent`** is a class with the instance state of `bluestacks/agent.py`: the session and
  task identifiers, the stream task (`NoStream`, `Live` or `Done`), the stop flag, the pending-turn slot (a
  `Future` object or `null`) and the stream loop's accumulator. Every HTTP request is an oracle parameter,
  `Reply`: the decoded body or the exception `_post` raises. The agent records the requests it sends in
  `requests` and the callback invocations in `delivered`.
  - The ghost set `waiters` holds the futures that suspended callers are waiting for.
  - `Valid()` is the turn protocol. Every unresolved waiter waits for the future in the slot, so at most
    one turn is open. An open turn always has a live stream that can resolve it. Every resolved turn
    follows the `RunResult` convention. The live stream's accumulator is the one its lines produce.
  - Every method that touches the turn keeps `Valid()`, except `AwaitTurnAsWritten`, which models the
    `finally` that can break it (see Findings). `SetCallbacks` and `RunTool` do not touch the turn.
  - What reading the stream does to the turn, the callbacks and the requests is a value, `Effect`. The
    stream methods state their change of the observable state as such an effect, and lemmas say what
    each effect means: only a completion, a failed default resume or the end of the stream resolves the turn.
- **`Sse`** models the line accumulator of `_event_stream_loop`. It implements Server-Sent Events framing
  as in the WHATWG HTML Living Standard, section 9.2 "Server-sent events", restricted to the `event:` and
  `data:` fields, with every line stripped first.
  - `Scan` is the loop as a function. `ParseStream` is the loop itself.
  - Both are proved equal to a reference semantics in which each blank-terminated block of lines yields
    one frame: the block's last name and its data lines joined with a line break.
- **`Frames`** models `_handle_sse_event` without its callbacks. A frame becomes an event record and an
  action; a `task_completed` frame becomes the `RunResult` that resolves the turn.
- **`Gateway`** models the status classification of `_post` and `_get`.
- **`Errors`** models the exception taxonomy. **`Types`** models the `RunResult` record and its defaults.
- **`Adb`** models the dictionaries that the adb helpers build from a subprocess outcome; the process
  runner is a parameter.
- **`CoreTools`** and **`SmartTools`** model the MCP tool functions, which project a `RunResult` into
  their own records. The task tools always stop the task after running it.
- **`Json`** and **`Text`** model the parts of Python's `dict`, `str`, `repr` and `sorted` that the
  code relies on.

## Behaviour of the code worth knowing

- **Slot check in `run_task`.** `run_task` checks the slot only after `_start_task` and
  `_ensure_event_stream` have sent their requests. When a turn is already open, the `except` clause then
  fails that other caller's turn (agent.py:881-887). `resume_task` instead refuses and leaves the slot
  untouched.
- **Session creation.** `_ensure_session` has no single-flight protection: it creates a session whenever
  none is cached.
- **Finished streams.** `_ensure_event_stream` attaches a fresh stream whenever the previous one has
  finished, including in `resume_task`.
- **Stopping with a live stream.** `stop_task` waits for the stream loop. The loop's `finally` has
  already failed the open turn with the stream's exit reason (a lost connection, when no error ended it),
  so the "stopped before completion" reason applies only when no stream was live.
- **Completion summary.** The console summary of a completion reads `payload["result"]` and concatenates
  its `output` or `message`, each defaulting to the empty text. It raises when `result` is missing or not a
  dict, or when the field it shows is present and not text, and that exception ends the stream.
  The summary is printed only when default callbacks are on, since `_print_progress_to_console` is set to
  `use_default_callbacks`, and no `on_completed` is registered.
- **Unreadable completions.** A `task_completed` frame whose result block cannot be read (its output
  has no length) is still seen by `on_event`, and then ends the stream.
- **Event names.** Only the event name `task_completed` resolves a turn. `task_failed` appears only in
  docstrings.

## Model

| member | source | states |
|---|---|---|
| Types.MakeRunResult | bluestacks/types.py:22-30 | every field not given takes its declared default: no error code, no input needed, no prompt, an empty response list, no delta, no raw record |
| Types.Failed | bluestacks/agent.py:890-901 | a failure result has no output and empty defaults, and follows the convention exactly when its code is non-empty |
| Types.Succeeded | bluestacks/agent.py:1853-1863 | a tool success carries its output and the response as raw, and follows the convention (empty reason, no code) |
| Errors.NewSdkError | bluestacks/errors.py:13-15 | the message is kept unchanged; the code is the one supplied, or `sdk_error` when it is missing or empty, so it is never empty |
| Errors.Raise | bluestacks/errors.py:19-86 | a subclass raised with only a message carries that subclass's default code |
| Errors.DefaultCode | bluestacks/errors.py:19-86 | every subclass has a non-empty default code, distinct from the `sdk_error` fallback |
| Errors.Text | bluestacks/errors.py:16 | the exception text starts with the message and ends with the code, joined by the `Error code:` line |
| Errors.FailureCode | bluestacks/agent.py:887-889 | the code a handler derives is the SDK error's code, or `sdk_runtime_error` for any other exception, and is never empty |
| Errors.DefaultCodesDistinct | bluestacks/errors.py:19-86 | the subclass default codes are pairwise distinct and differ from the `sdk_error` fallback |
| Gateway.StatusFailure | bluestacks/agent.py:357-367 | for a non-200 status, the code is the body's `error` or `http_error`, and the message is the body's `message` or `HTTP <status>` |
| Gateway.Send | bluestacks/agent.py:322-370 | a request yields the body exactly for status 200 with a JSON body; a timeout, a transport error, a non-JSON body and a bad status each raise their own coded error |
| Json.Truthy | bluestacks/agent.py:806 | `None`, `False`, zero, the empty string, list and dict are false; a number is true exactly when some mantissa digit is non-zero; a container exactly when it is non-empty |
| Json.Lookup | bluestacks/agent.py:449 | `d.get(key)` finds a value exactly when the key is present, and the value found is the one stored under the last occurrence of the key, as a decoded object keeps the last of duplicate keys |
| Json.LastIndex | bluestacks/agent.py:449 | the index found holds the key and no later member does; no index is found only when no member holds the key |
| Json.GetOrElse | bluestacks/agent.py:806 | `d.get(key) or default` is the stored value when it is present and truthy, and the default otherwise |
| Json.PyStr | bluestacks/agent.py:984-985 | `str` of a string is the string itself |
| Json.TruthyTextNonEmpty | bluestacks/agent.py:806 | a truthy value never prints as the empty string |
| Json.ReprQuote | bluestacks/agent.py:456 | `repr` double-quotes exactly a string that holds a single quote and no double quote |
| Json.QuoteString | bluestacks/agent.py:456 | `repr` of a string starts and ends with its quote, and what lies between reads back as exactly that string |
| Json.HexDigit | bluestacks/agent.py:456 | a hexadecimal digit reads back as its value |
| Json.UnescapeChar | bluestacks/agent.py:456 | reading back one escaped character gives that character in front of what follows |
| Json.EscapeRoundTrip | bluestacks/agent.py:456 | every string reads back from its escaped form, whichever quote is chosen |
| Text.StripEmptyIffBlank | bluestacks/agent.py:866 | `strip()` yields the empty text exactly when every character is whitespace, which is the blank-query test |
| Text.StripInside | bluestacks/agent.py:654 | `strip()` keeps a contiguous part of the line and removes only whitespace around it |
| Text.StripTrimmed | bluestacks/agent.py:654 | a stripped line neither starts nor ends with whitespace |
| Text.RemoveAll | utils/adb.py:182 | removing every occurrence of a pattern never lengthens the text, and leaves a text without the pattern unchanged |
| Text.Split | utils/adb.py:181 | splitting at line breaks yields at least one piece, and no piece holds a line break |
| Text.SortStrings | utils/adb.py:188 | `sorted` yields an ascending permutation of its input |
| Text.Insert | utils/adb.py:188 | inserting into a sorted list keeps it sorted and adds exactly that element |
| Text.Strip | bluestacks/agent.py:654 | `strip()` never lengthens the text, and its result neither starts nor ends with whitespace |
| Text.IntToString | utils/adb.py:154 | `str(n)` is non-empty and starts with `-` exactly for a negative number |
| Text.Less | utils/adb.py:188 | the order `sorted` uses on text is irreflexive |
| Sse.Classify | bluestacks/agent.py:654-683 | a line is blank exactly when it strips to nothing; an event name or a data part comes only from a stripped line with that prefix, and is shorter than the line |
| Sse.Kinds | bluestacks/agent.py:646-654 | one kind per line, each the classification of that line, in order |
| Sse.Scan | bluestacks/agent.py:645-683 | reading lines from the start of a stream dispatches at most one frame per line |
| Sse.Step | bluestacks/agent.py:657-683 | a blank line resets name and data, and dispatches a frame exactly when data was accumulated; a keepalive or unrecognised line leaves the accumulator unchanged; an `event:` line replaces the name; a `data:` line keeps the name and sets the data |
| Sse.ScanFromSplit | bluestacks/agent.py:645-683 | reading `a + b` is reading `a`, then reading `b` from the accumulator that `a` reached |
| Sse.ScanSnoc | bluestacks/agent.py:645-683 | one more line steps the accumulator from where the earlier lines left it, and appends the frame it dispatches |
| Sse.ScanSplit | bluestacks/agent.py:645-683 | the frames of a concatenated stream are those of the first part, then those of the second part read on from the first part's accumulator |
| Sse.ParseStream | bluestacks/agent.py:645-683 | the loop dispatches exactly one frame per blank-terminated block holding a `data:` line, and ends holding the state of the unterminated block |
| Sse.ScanMatchesReference | bluestacks/agent.py:657-681 | the accumulator after any prefix is the state of its open block, and the frames so far are those of its complete blocks |
| Sse.ReferenceBlank | bluestacks/agent.py:657-663 | a blank line closes the open block, which yields its frame if it has data, and starts an empty one |
| Sse.ReferenceNonBlank | bluestacks/agent.py:665-681 | any other line joins the open block without dispatching, with the last `event:` name winning and the data parts joined by line breaks in arrival order |
| Sse.JoinLinesSplit | bluestacks/agent.py:677-681 | joined data splits back into exactly its parts when no part holds a line break |
| Sse.TransparentLine | bluestacks/agent.py:665-683 | a keepalive or unrecognised line anywhere in the stream changes nothing that is dispatched |
| Sse.BlankLineResets | bluestacks/agent.py:657-663 | after a blank line, earlier lines no longer influence the frames still to come or the accumulator |
| Sse.KindsStep | bluestacks/agent.py:645-655 | reading one more line appends that line's kind to the kinds read so far |
| Sse.KindsFrom | bluestacks/agent.py:645-655 | the kinds of the lines from the `i`-th on are that line's kind followed by the kinds of the rest |
| Frames.Payload | bluestacks/agent.py:706-710 | data that is not JSON becomes the payload `{"raw": data}`; valid JSON is the payload itself |
| Frames.OutputText | bluestacks/agent.py:814 | `len(output)` is defined for text, lists and dicts and raises a `TypeError` for null, booleans and numbers |
| Frames.CompletedResult | bluestacks/agent.py:800-833 | success iff the result status is `success`; reason empty on success, else `task_failed`; code the result's `error` or `task_failed` on failure; output the result's `output`, default empty; responses and delta copied; an unreadable block gives the exception text instead |
| Frames.HandleFrame | bluestacks/agent.py:698-834 | a payload that is not a dict raises before any callback; `responses` defaults to an empty list when missing or falsy; only `task_completed` yields a completion (or an unreadable completion), progress and await-input frames their own actions |
| Frames.SummaryError | bluestacks/agent.py:731-740 | the console summary raises when `result` is missing or not a dict, or when the shown field (output on success, message otherwise) is present and not text |
| Agent.MergeLlmConfig | bluestacks/agent.py:173-180 | the merged configuration has exactly the keys of both, with each override winning and every other key keeping its default |
| Agent.CreatedId | bluestacks/agent.py:447-458 | a creation succeeds iff the body is a dict with status `success` holding the key; otherwise it raises the subclass error with the `error: message (response: …)` text, or a `KeyError` |
| Agent.IdOf | bluestacks/agent.py:458 | an identifier the server sent as `null` is stored as no identifier |
| Agent.Created | bluestacks/agent.py:440-460 | a creation request yields the stored identifier exactly when the request succeeded and the body was accepted, and otherwise passes the exception on |
| Agent.SessionOutcome | bluestacks/agent.py:424-460 | a cached session is returned without a request |
| Agent.StartOutcome | bluestacks/agent.py:510-544 | a session failure is passed on; otherwise the outcome is that of the task creation |
| Agent.Rejection | bluestacks/agent.py:1831-1833 | the corrected refusal (`get("error") or default`): a failure that always follows the convention; the code is the body's non-empty text `error`, or the default when `error` is absent or falsy; the reason starts with the code |
| Agent.RejectionAsWritten | bluestacks/agent.py:981-1003 | the refusal as the code builds it (`get("error", default)`): a failure with the body as raw, equal to the corrected one when `error` is absent or truthy; a `null` error gives no code and an empty one an empty code, both against the convention |
| Agent.NullErrorRejection | bluestacks/agent.py:1831-1850 | a `tap` refusal with `"error": null` breaks the convention as written, and not once corrected, where it carries `tap_failed` |
| Agent.ExitReason | bluestacks/agent.py:689-695 | the stream's exit reason is never empty: the caught error's text, or the lost-connection message |
| Agent.ErrorEvent | bluestacks/agent.py:581-593 | the synthetic event is a `task_error` with state `error`, an empty output and the reason in its data |
| Agent.FailedTurn | bluestacks/agent.py:602-613 | a failed turn carries the reason and `event_stream_error`, and follows the convention |
| Agent.InvalidArgument | bluestacks/agent.py:866-877 | a guard refusal is a conventional failure with code `invalid_argument` and the guard's reason |
| Agent.Caught | bluestacks/agent.py:885-901 | an exception becomes a conventional failure with the exception text as reason and the derived code |
| Agent.ArgumentError | bluestacks/agent.py:1238-1727 | exactly a missing package, a non-positive delay, empty text and a non-positive swipe duration are refused, each with a non-empty reason |
| Agent.ResumeAccepted | bluestacks/agent.py:981-982 | the only text statuses that do not refuse a resume are `accepted`, `in_progress` and `success` |
| Agent.ToolUnknownError | bluestacks/agent.py:1238-1879 | every tool's default refusal message has the form `Unknown … error` |
| Agent.ResumeVerdict | bluestacks/agent.py:977-1003 | a resume is accepted iff the body is a dict whose status is absent, null, `accepted`, `in_progress` or `success`; any other status is a refusal built as written, which follows the convention when `error` is absent or truthy; a request failure raises |
| Agent.After | bluestacks/agent.py:569-834 | an effect appends its callback calls and requests, resolves an open turn exactly when it brings a resolution, and never changes a turn that is resolved or absent |
| Agent.AfterThen | bluestacks/agent.py:616-696 | doing one effect and then another is doing their sequence |
| Agent.NothingAfter | bluestacks/agent.py:616-696 | an effect with no calls, no requests and no resolution leaves the observable state as it is |
| Agent.Failing | bluestacks/agent.py:569-614 | failing the turn resolves it exactly when one is open, with the conventional failure carrying the reason and `event_stream_error`; it never ends the stream or sends anything |
| Agent.Exit | bluestacks/agent.py:685-696 | the loop's `finally` always ends the stream, sends nothing, and resolves the turn exactly when one is open |
| Agent.SummaryFailure | bluestacks/agent.py:731-740 | the summary can raise only for a `task_completed` frame with default callbacks on and no `on_completed` |
| Agent.DispatchMeaning | bluestacks/agent.py:765-834 | dispatch never ends the stream and calls `on_event` first; it resolves only an open turn, a completion with its own result and otherwise only a failed default resume, with `event_stream_error`; the resume request is the only thing sent, and only on the default await-input path with a session and a task |
| Agent.EventMeaning | bluestacks/agent.py:731-834 | handling an event ends the stream exactly when the summary raises or the completion is unreadable, and then leaves no turn open; otherwise `on_event` comes first and a completion resolves an open turn with its own result |
| Agent.FrameMeaning | bluestacks/agent.py:698-834 | a frame resolves only an open turn and with a conventional result; a payload that cannot be read ends the stream without a request; a progress frame, or one of a name no branch handles, neither resolves, ends nor sends; a readable completion whose summary does not raise resolves an open turn with its own result; an ending frame leaves no turn open |
| Agent.FrameHandler | bluestacks/agent.py:698-834 | there is a frame handler that behaves as the frame handling of `_handle_sse_event` |
| Agent.LineEffect | bluestacks/agent.py:645-683 | a raised stop flag leaves the accumulator as it was and ends the stream; a line that completes no frame does nothing observable |
| Agent.LinesFrom | bluestacks/agent.py:645-696 | with the stop flag raised, the loop ends at its first line through the `finally`, with no error |
| Agent.ThenParts | bluestacks/agent.py:645-683 | what the loop does is the current line's calls and requests followed by the rest's; the first resolution wins; the loop ends as the rest ends |
| Agent.RestStep | bluestacks/agent.py:645-683 | reading one more line keeps the loop's account: from the new state, the lines still to come end where the whole loop ends |
| Agent.StreamEffect | bluestacks/agent.py:616-696 | once the connection ends, the stream has ended |
| Agent.Ending | bluestacks/agent.py:685-696 | the end of the connection always ends the stream: through the loop itself or through its `finally` |
| Agent.LinesSettle | bluestacks/agent.py:645-696 | the stream loop resolves the turn only when one is open, always with a conventional result, and when it ends the stream no turn is left open |
| Agent.StreamSettles | bluestacks/agent.py:616-696 | reading lines and then losing the connection ends the stream and resolves the turn exactly when one was open, with a conventional result |
| Agent.QuietLines | bluestacks/agent.py:645-683 | lines whose frames are all readable progress frames or frames of a name no branch handles, read without a stop request, resolve nothing, send nothing and keep the stream open |
| Agent.Future.constructor | bluestacks/agent.py:852 | a new future is unresolved |
| Agent.BluestacksAgent.constructor | bluestacks/agent.py:146-262 | a new agent has the merged LLM configuration, no session, task, stream or pending turn, and a valid turn protocol |
| Agent.BluestacksAgent.SetCallbacks | bluestacks/agent.py:266-289 | exactly the given callbacks are registered |
| Agent.BluestacksAgent.FailPendingTurnGracefully | bluestacks/agent.py:569-614 | an open turn is resolved once with `event_stream_error` and the reason, and `on_completed` is handed the `task_error` event; with no open turn, or an already-resolved one, nothing changes |
| Agent.BluestacksAgent.EnsureSession | bluestacks/agent.py:424-460 | the session is cached on success; a creation request is sent only without a cached session |
| Agent.BluestacksAgent.StartTask | bluestacks/agent.py:510-544 | a session failure stops before the task request; the session is stored when it was created; the task becomes current only when the server accepted it |
| Agent.BluestacksAgent.EnsureEventStream | bluestacks/agent.py:546-567 | without a session and a task it refuses with `invalid_state`; a live stream is kept with its stop flag and accumulator; otherwise a fresh stream starts with an empty accumulator and the stop flag cleared |
| Agent.BluestacksAgent.ResumeFromOperator | bluestacks/agent.py:786-798 | the operator's line is sent as a resume only with a session and a task; a failed request fails the open turn with its text and hands `on_completed` the `task_error` event; otherwise neither the turn nor the callbacks see anything |
| Agent.BluestacksAgent.Dispatch | bluestacks/agent.py:765-834 | the observable state changes exactly as `DispatchEffect` says, on every path including the default await-input strategy: `on_event` first, then the branch the frame selects (see DispatchMeaning) |
| Agent.BluestacksAgent.DispatchAction | bluestacks/agent.py:786-834 | the branch after `on_event`: progress to `on_progress`, await-input to its callback or the default resume, a completion to `on_completed` and to the open turn; nothing else changes |
| Agent.BluestacksAgent.StreamExit | bluestacks/agent.py:685-696 | however the loop exits, the open turn is failed with the exit reason, `on_completed` is handed the `task_error` event, and the stream is finished, leaving no turn open; with no turn open nothing is called |
| Agent.BluestacksAgent.HandleSseEvent | bluestacks/agent.py:698-834 | the observable state changes exactly as `FrameEffect` says and the stream ends exactly when that effect ends it; a readable completion whose summary does not raise resolves the open turn with its own result; a progress frame, or one of a name no branch handles, keeps the stream live, the turn as it was, and sends nothing |
| Agent.BluestacksAgent.HandleEvent | bluestacks/agent.py:731-834 | the observable state changes exactly as `EventEffect` says; a raising summary ends the stream before dispatch; otherwise a completion resolves the open turn with its own result, and a progress frame, or one of a name no branch handles, leaves the turn as it was with the stream live |
| Agent.BluestacksAgent.ReadLine | bluestacks/agent.py:645-683 | a raised stop flag ends the stream before the line is read; otherwise the line steps the accumulator and the frame it completes is handled; the observable state changes exactly as `LineEffect` says |
| Agent.BluestacksAgent.FeedLine | bluestacks/agent.py:654-683 | the line's kind is recorded, the accumulator steps, the completed frame is recorded and handled, and the observable state changes exactly as `LineEffect` says |
| Agent.BluestacksAgent.ReadLines | bluestacks/agent.py:645-683 | the loop reads every line while the stream is live; the observable state changes exactly as `LinesFrom` says over those lines, so by LinesSettle and QuietLines the turn is resolved only by a completion, a failed resume or the end of the stream |
| Agent.BluestacksAgent.ReadNext | bluestacks/agent.py:645-683 | one iteration keeps the loop's account: the lines still to come, done from the new state, end where the whole loop ends |
| Agent.BluestacksAgent.ConsumeStream | bluestacks/agent.py:616-696 | after the lines, a live stream has dispatched exactly the reference frames of everything read; the end of the connection finishes the stream; the observable state changes exactly as `StreamEffect` says, so the turn gets the first resolution the lines bring or else the exit reason, and an empty read without an end leaves it open |
| Agent.BluestacksAgent.CloseConnection | bluestacks/agent.py:685-696 | when the connection ends on a live stream, the `finally` runs with its error; the whole read is then what `Ending` says |
| Agent.BluestacksAgent.OpenTurn | bluestacks/agent.py:851-852 | a fresh unresolved future goes into the empty slot |
| Agent.BluestacksAgent.ClearSlot | bluestacks/agent.py:857-858 | the slot is emptied once no turn is open in it |
| Agent.BluestacksAgent.Prepare | bluestacks/agent.py:881-883 | starting a task and attaching its stream fails exactly as the creation replies and a null identifier dictate; the created session and task identifiers are stored, and kept on failure; a live stream keeps its accumulator, a new one starts empty |
| Agent.BluestacksAgent.Abandon | bluestacks/agent.py:885-901 | the `except` clause fails the open turn, whoever waits for it, with the exception text, hands `on_completed` the `task_error` event, and returns the caught failure |
| Agent.BluestacksAgent.RunTask | bluestacks/agent.py:860-901 | a blank query is refused with no request; otherwise the task is started and the created identifiers are stored; any failure, including a turn already open, fails the open turn (with its `task_error` event to `on_completed`) and is returned; else the caller waits for a fresh turn in the slot, with no callback called |
| Agent.BluestacksAgent.Launch | bluestacks/agent.py:881-901 | the `try` of `run_task`: the created identifiers are stored, the slot is checked only after the start requests, and an open turn is then failed with the in-progress error and its `task_error` event |
| Agent.BluestacksAgent.Attempt | bluestacks/agent.py:881-884 | the failure met up to the slot check is exactly `RunFailure`; the identifiers and the stream are left as the start requests dictate |
| Agent.BluestacksAgent.Settle | bluestacks/agent.py:883-901 | a failure is caught and fails the open turn, with its `task_error` event to `on_completed`; otherwise a fresh turn is opened and awaited with no callback called |
| Agent.BluestacksAgent.AwaitTurn | bluestacks/agent.py:854-858 | the corrected `finally` (see Findings): the waiter resumes with its turn's result, which follows the convention, and empties the slot only if it still holds its own turn, so the turn protocol holds |
| Agent.BluestacksAgent.AwaitTurnAsWritten | bluestacks/agent.py:854-858 | the `finally` as written: the waiter resumes with its turn's result, which follows the convention, and the slot is emptied whatever it holds; the protocol holds when no other turn was opened meanwhile, and otherwise that turn is left unresolved and out of reach |
| Agent.BluestacksAgent.SendResume | bluestacks/agent.py:975-1028 | the resume is sent with a new turn in the slot; a refusal or an exception fails that turn, hands `on_completed` its `task_error` event, clears the slot and is returned; an accepted resume leaves the caller waiting |
| Agent.BluestacksAgent.Conclude | bluestacks/agent.py:980-1028 | a refusal fails the new turn with its reason, an exception with its text, each handing `on_completed` the `task_error` event, and both clear the slot; acceptance keeps the turn open for its waiter |
| Agent.BluestacksAgent.ResumeTask | bluestacks/agent.py:903-1028 | a blank query, a missing task and an open turn are refused with no request, no callback and the slot untouched; otherwise the resume is sent and judged, with the `task_error` event of a failed new turn; a returned failure breaks the convention only for a server refusal whose `error` is present and falsy |
| Agent.BluestacksAgent.StopTask | bluestacks/agent.py:1047-1077 | afterwards the stop flag is up and there is no stream, no task and an empty slot; every waiter is resolved; the close request is sent only with a session and a task; an open turn is failed with the stream's exit reason and its `task_error` event |
| Agent.BluestacksAgent.EndStream | bluestacks/agent.py:1047-1071 | the stop flag, the close request when there is a task, and the end of a live stream leave no turn open; an open turn gets the exit reason and its `task_error` event, a resolved one keeps its result |
| Agent.BluestacksAgent.Forget | bluestacks/agent.py:1073-1077 | the stream and the task are forgotten and the slot emptied, with every waiter resolved |
| Agent.BluestacksAgent.RunTool | bluestacks/agent.py:1238-1879 | a tool command refused by its guard sends nothing; otherwise the session (stored when created) and one POST; success iff the reply is a dict with status `success`, with output `<name> executed`; a refusal is built as written; the result breaks the convention only for a refusal whose `error` is present and falsy |
| Agent.AcceptedCreation | bluestacks/agent.py:440-460 | a creation reply reporting success yields the identifier it carries |
| Agent.AcceptedStart | bluestacks/agent.py:510-567 | accepted session and task creations with non-null identifiers start a task with no failure |
| Agent.StartAccepted | bluestacks/agent.py:860-884 | a non-blank `run_task` with no turn open and accepted creations leaves the caller waiting for a fresh turn on a live stream |
| Agent.QuietStream | bluestacks/agent.py:645-683 | lines whose frames are all readable progress frames or frames of a name no branch handles leave a live stream live, the turn as it was and the requests unchanged |
| Agent.FirstCaller | bluestacks/agent.py:860-884 | a new agent's first `run_task` leaves exactly one waiter, for the turn in the slot |
| Agent.TwoCallers | bluestacks/agent.py:685-696 | after the connection closes, the first turn is resolved and a second caller can open a new turn before the first resumes |
| Agent.OrphanedTurn | bluestacks/agent.py:857-858 | as written, the first caller's `finally` leaves the second turn unresolved with an empty slot, breaking the turn protocol |
| Agent.KeptTurn | bluestacks/agent.py:857-858 | with the slot cleared only for the caller's own turn, the second turn stays in the slot and the protocol holds |
| Adb.RunAdbCommand | utils/adb.py:51-77 | success iff the return code is 0; a timeout, a missing binary or any exception gives return code -1, no output and its own error text |
| Adb.Judged | utils/adb.py:103-114 | success iff the command succeeded or printed `Success`; a failure's error is stderr, or stdout when stderr is empty |
| Adb.Install | utils/adb.py:80-114 | a missing APK is refused without running anything; otherwise the install succeeds as the command is judged |
| Adb.Uninstall | utils/adb.py:117-140 | success iff the command succeeded or printed `Success`; a failure's error is stderr or else stdout |
| Adb.Logcat | utils/adb.py:143-167 | success gives the logs and no error; failure gives no logs and stderr |
| Adb.ParsePackages | utils/adb.py:181-185 | the parser yields at most one package per output line |
| Adb.ParsePackagesMembers | utils/adb.py:181-185 | a name is listed exactly when some non-blank line starting with `package:` names it, once `package:` is removed and the rest trimmed |
| Adb.Contributes | utils/adb.py:184 | a line contributes exactly when it starts with `package:`; the non-blank test adds nothing |
| Adb.PackageName | utils/adb.py:182 | the name is no longer than its line, and is the trimmed line when `package:` does not occur in it |
| Adb.ListPackages | utils/adb.py:170-196 | on success the packages are sorted ascending and are a permutation of the parsed lines; on failure there are none and the error is stderr |
| CoreTools.TypedMessage | tools/core_tools.py:119 | the message shows the whole text when it has at most 50 characters, and otherwise its first 50 followed by `...` |
| CoreTools.TypedMessageShowsText | tools/core_tools.py:119 | for texts of at most 50 characters, the message determines the text |
| CoreTools.TypedMessageCuts | tools/core_tools.py:119 | long texts that agree in their first 50 characters give the same message |
| CoreTools.SuccessMessage | tools/core_tools.py:45 | every tool's success message is non-empty |
| CoreTools.Project | tools/core_tools.py:26-204 | success and the error code are copied; the message is non-empty exactly on success; the error is the reason on failure and empty otherwise |
| CoreTools.ProjectKeepsConvention | tools/core_tools.py:43-48 | a conventional result projects to a tool result with a non-empty code exactly on failure |
| CoreTools.TakeScreenshot | tools/core_tools.py:206-241 | success iff the agent returned the image and any requested file write succeeded; success carries the Base64 image; any exception becomes a failure with its text |
| CoreTools.GetUiTree | tools/core_tools.py:243-264 | success iff the agent returned the tree, which is carried unchanged; an exception becomes a failure with its text |
| SmartTools.ToTaskResult | tools/smart_tools.py:44-49 | success and the code are copied; output only on success; error only on failure |
| SmartTools.ToReport | tools/smart_tools.py:93-104 | on success the report is the output; on failure the report is empty and the reason and code are kept |
| SmartTools.ReportAgreesWithTask | tools/smart_tools.py:93-104 | for a conventional result, the report carries exactly the task result's information |
| SmartTools.RunThenStop | tools/smart_tools.py:40-42 | the turn is run to its end and the task is stopped whatever the result, leaving no stream, task or open turn; a blank prompt is refused as an invalid argument; a start failure is returned as the caught failure; otherwise the result is the turn's outcome on the stream's lines; the start requests carry exactly the prompt |
| SmartTools.TurnOutcome | tools/smart_tools.py:40-42 | the result a waiting caller resumes with is the resolution the stream brings, which always exists and follows the convention |
| SmartTools.FinishTurn | tools/smart_tools.py:40-42 | a waiting caller reads the stream and resumes with exactly its turn's result, which is the turn's outcome on the lines (the `finally` as written); a call that returned at once keeps its result; then the task is stopped, leaving no stream, task or open turn |
| SmartTools.ReadTurn | tools/smart_tools.py:40-42 | the waiting turn is resolved with its outcome on the stream's lines, then the end of the connection |
| SmartTools.LoseConnection | bluestacks/agent.py:685-696 | the end of the connection fails the open turn with its exit reason |
| SmartTools.OutcomeParts | bluestacks/agent.py:645-696 | the outcome is the first resolution the lines bring, and when they bring none the lost-connection failure, with the stream still live |
| SmartTools.RunAndroidTask | tools/smart_tools.py:19-49 | the query runs as one turn followed by a stop; the task result is the projection of the run's result, which is the caught start failure or the turn's outcome on the stream's lines; it has a code exactly on failure and output only on success |
| SmartTools.GenerateTestReport | tools/smart_tools.py:51-104 | the built prompt runs as one turn followed by a stop; the report is the projection of the run's result, which is the caught start failure or the turn's outcome on the stream's lines; it is empty on failure, which carries a non-empty code |
| SmartTools.TestFeature | tools/smart_tools.py:106-167 | the built prompt runs as one turn followed by a stop; the report is the projection of the run's result, which is the caught start failure or the turn's outcome on the stream's lines; it is empty on failure, which carries a non-empty code |

## Left out

- HTTP transport, JSON decoding and the `subprocess`/`Path` calls are parameters: `Reply`,
  `Gateway.Response`, the `decode` function, `Adb.Runner` and the path resolver, file test and name function.
- Concurrency is reduced to the suspension points that matter: a caller waiting for its turn and the stream
  reading a line. Requests and callbacks are atomic. Liveness ("never blocks indefinitely") is not a
  property the code establishes and is not modelled.
- Logging, the file handler and all console printing are left out. The exception the completion summary can
  raise is modelled, because it ends the stream. `input()` is reduced to the operator's line, an oracle.
- The `isinstance` guards are left out: arguments are typed, so a non-string query or non-integer
  coordinates cannot occur.
- `close()`, `submit_input`, `submit_input_async` and `send_feedback` are not part of this model.
- The HTTP bodies of the agent's `get_ui_tree` and `take_screenshot` are not part of this model; the tools
  take their outcome as an input. Base64 encoding and the file write are also parameters.
- `load_helper_service_url`, `bluestacks/config.py`, `mcp_config.py`, `main.py`, `prompts.py` (the prompt
  builders are function parameters) and `tools/adb_tools.py` are not part of this model.
- `ScreenshotResult` has no `file_path` field in `models.py`, so the path the tool passes is not kept.
- The stream loop's early return without a session or task, and its skip of `None` lines, are not modelled:
  the stream is attached only with both, and lines are text.
- Agent.ErrorEvent: the `exception` field holds the exception's text rather than its `repr`.
- Agent.RejectionAsWritten: a non-text `error` value other than `null` becomes its printed text as the code,
  where the source keeps the value itself.
- Agent.BluestacksAgent.ResumeTask: a server refusal whose `error` is present and falsy gives a failure outside
  the convention, as the source does (see Findings).
- Agent.BluestacksAgent.RunTool: a server refusal whose `error` is present and falsy gives a failure outside
  the convention, as the source does (see Findings).
- Agent.ResumeVerdict: a refusal whose `error` is present and falsy does not follow the convention, as in the
  source (see Findings).
- Frames.OutputText: a list or dict `output` becomes its printed text, where the source keeps the value itself.
- Frames.CompletedResult: a non-text `error` value becomes its printed text as the code, and a list or dict
  `output` its printed text as the output, where the source keeps the values themselves.
- Gateway.StatusFailure: a non-text `error` value becomes its printed text as the code, where the source
  keeps the value itself.
- Agent.BluestacksAgent.SendResume: attaches the stream before putting the new turn in the slot, where the
  source does it the other way round. With a session and a task the attachment cannot fail, so the outcome
  is the same.
- Json numbers keep their source text; their truthiness is read from the digits, and `repr` of a number is its text.
- Json.QuoteString: characters from U+0100 up are kept as they are, where `repr` writes the non-printable ones
  as `\u` or `\U` escapes; the printability table of Unicode is not modelled.

## Findings

| source | as written | input that shows it | evidently intended | confidence | as-written member | corrected member |
|---|---|---|---|---|---|---|
| bluestacks/agent.py:857-858 | the `finally` of the turn wait sets the slot to `None` whatever it holds (the same at 1027-1028) | caller A's turn is failed when the connection closes; caller B starts `run_task`, which opens a new turn before A resumes; A's `finally` empties the slot, so B's turn can no longer be resolved by the stream, `stop_task` or a failure | clear the slot only while it still holds the caller's own future | not executed | Agent.OrphanedTurn | Agent.BluestacksAgent.AwaitTurn |
| bluestacks/agent.py:1831-1833 | a refusal takes its code from `data.get("error", default)` (the same at 983, 1274, 1352, 1413, 1474, 1556, 1636, 1753) | a `tap` reply `{"status": "error", "error": null}` gives a failure whose `error_code` is `None`, against the convention that a failure carries a code | `data.get("error") or default`, as `_post` and the completion handler do | not executed | Agent.NullErrorRejection | Agent.Rejection |
