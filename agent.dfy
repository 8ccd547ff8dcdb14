/**
 * `BluestacksAgent`: the session and task identifiers, the long-lived event stream, and the
 * single slot holding the turn a caller of `run_task` or `resume_task` is waiting for.
 *
 * Each request is an oracle parameter (`Reply`: what `_post` returns or raises); each one, and
 * each callback, is atomic. The only suspension points are the ones that matter to the turn protocol:
 * a caller waiting for its turn (`RunTask`/`ResumeTask` return `Awaiting`, `AwaitTurn`
 * resumes it) and the stream loop reading a line (`ReadLine`, `StreamExit`).
 */
module Agent {
  import opened Wrappers
  import opened Json
  import opened Types
  import opened Errors
  import Sse
  import Frames
  import Text

  // ---- Configuration ----

  const DefaultLlmConfig: map<string, Json> := map[
    "provider" := JStr("GoogleGenAI"),
    "model" := JStr("gemini-3-flash-preview"),
    "temperature" := JNumber("1.0"),
    "max_tokens" := JNumber("10000"),
    "max_steps" := JNumber("25"),
    "timeout" := JNumber("300"),
    "vision" := JBool(true),
    "accessibility" := JBool(true)
  ]

  /**
   * The LLM settings of a new agent: the `defaults`, each overridden by the developer's
   * value for the same key. An absent or empty configuration leaves the defaults.
   */
  method MergeLlmConfig(defaults: map<string, Json>, overrides: map<string, Json>) returns (cfg: map<string, Json>)
    ensures forall k :: k in cfg <==> k in defaults || k in overrides
    ensures forall k :: k in overrides ==> cfg[k] == overrides[k]
    ensures forall k :: k in defaults && k !in overrides ==> cfg[k] == defaults[k]
  {
    cfg := defaults;
    if overrides == map[] {
      return;
    }
    var todo := overrides.Keys;
    while todo != {}
      invariant todo <= overrides.Keys
      invariant forall k :: k in cfg <==> k in defaults || (k in overrides && k !in todo)
      invariant forall k :: k in cfg ==> cfg[k] == if k in overrides && k !in todo then overrides[k] else defaults[k]
      decreases |todo|
    {
      var k :| k in todo;
      cfg := cfg[k := overrides[k]];
      todo := todo - {k};
    }
  }

  // ---- Endpoints and reply interpretation ----

  const SessionCreatePath := "/v1/session/create"
  const TaskCreatePath := "/v1/task/create"
  const TaskResumePath := "/v1/task/resume"
  const TaskClosePath := "/v1/task/close"

  /** `data.get(key, default)` as an f-string prints it. */
  function FieldText(data: Json, key: string, default: string): string
    requires data.JObj?
  {
    PyStr(GetOr(data, key, JStr(default)))
  }

  /**
   * The identifier a creation endpoint hands back (`_ensure_session`, `_start_task`): the
   * body must say `status == "success"`, otherwise the subclass error is raised with the text
   * `"{error}: {message} (response: {data!r})"`; then `data[key]`, a `KeyError` when absent.
   */
  function CreatedId(data: Json, kind: ErrorKind, unknown: string, key: string): (r: Result<Json, Failure>)
    requires kind != SdkBase
    ensures !data.JObj? ==> r == Err(Runtime(NoGetMessage(data)))
    ensures r.Ok? <==> data.JObj? && Get(data, "status") == Some(JStr("success")) && Get(data, key).Some?
    ensures r.Ok? ==> Get(data, key) == Some(r.value)
    ensures data.JObj? && Get(data, "status") != Some(JStr("success")) ==>
      r == Err(Sdk(Raise(kind, FieldText(data, "error", DefaultCode(kind)) + ": " + FieldText(data, "message", unknown)
                             + " (response: " + Repr(data) + ")")))
    ensures data.JObj? && Get(data, "status") == Some(JStr("success")) && Get(data, key).None? ==>
      r == Err(Runtime(KeyErrorText(key)))
  {
    if !data.JObj? then Err(Runtime(NoGetMessage(data)))
    else if Get(data, "status") != Some(JStr("success")) then
      Err(Sdk(Raise(kind, FieldText(data, "error", DefaultCode(kind)) + ": " + FieldText(data, "message", unknown)
                          + " (response: " + Repr(data) + ")")))
    else if Get(data, key).None? then Err(Runtime(KeyErrorText(key)))
    else Ok(Get(data, key).value)
  }

  /** A stored identifier: `None` when the server sent `null`. */
  function IdOf(j: Json): (r: Option<Json>)
    ensures r.None? <==> j.JNull?
    ensures r.Some? ==> r.value == j
  {
    if j.JNull? then None else Some(j)
  }

  /** A refusal body whose `error` is absent or truthy: both readings of it then give the same code. */
  predicate RefusalCoded(data: Json)
    requires data.JObj?
  {
    Get(data, "error").None? || Truthy(Get(data, "error").value)
  }

  /**
   * The failure a tool command or a resume returns when the server refuses it: the code is
   * the body's `error` when that is set, the command's own default code otherwise.
   */
  function Rejection(data: Json, defaultCode: string, unknown: string): (r: RunResult)
    requires data.JObj? && defaultCode != ""
    ensures !r.success && FollowsConvention(r) && r.raw == RawResponse(data)
    ensures var e := Get(data, "error");
      && (e.Some? && e.value.JStr? && e.value.s != "" ==> r.errorCode == Some(e.value.s))
      && (e.None? || !Truthy(e.value) ==> r.errorCode == Some(defaultCode))
    ensures Text.StartsWith(r.reason, r.errorCode.value + ": ")
  {
    var error := GetOrElse(data, "error", JStr(defaultCode));
    TruthyTextNonEmpty(error);
    var reason := PyStr(error) + ": " + FieldText(data, "message", unknown);
    assert reason[..|PyStr(error) + ": "|] == PyStr(error) + ": ";
    Failed(reason, Some(PyStr(error)), RawResponse(data))
  }

  /**
   * The refusal as the tool methods and `resume_task` build it, with `data.get("error", default)`:
   * it agrees with `Rejection` unless the body carries an `error` that is `null` or empty.
   */
  function RejectionAsWritten(data: Json, defaultCode: string, unknown: string): (r: RunResult)
    requires data.JObj? && defaultCode != ""
    ensures !r.success && r.raw == RawResponse(data)
    ensures RefusalCoded(data) ==> r == Rejection(data, defaultCode, unknown) && FollowsConvention(r)
    ensures Get(data, "error") == Some(JNull) ==> r.errorCode == None && !FollowsConvention(r)
    ensures Get(data, "error") == Some(JStr("")) ==> r.errorCode == Some("") && !FollowsConvention(r)
  {
    var error := GetOr(data, "error", JStr(defaultCode));
    var reason := PyStr(error) + ": " + FieldText(data, "message", unknown);
    Failed(reason, if error.JNull? then None else Some(PyStr(error)), RawResponse(data))
  }

  /** A refusal whose `error` is `null` breaks the documented convention as written, and not once corrected. */
  lemma NullErrorRejection()
    ensures var data := JObj([("status", JStr("error")), ("error", JNull)]);
      && !FollowsConvention(RejectionAsWritten(data, "tap_failed", "Unknown tap error"))
      && FollowsConvention(Rejection(data, "tap_failed", "Unknown tap error"))
      && Rejection(data, "tap_failed", "Unknown tap error").errorCode == Some("tap_failed")
  {
    var data := JObj([("status", JStr("error")), ("error", JNull)]);
    assert Get(data, "error") == Some(JNull);
  }

  /**
   * What one `_post` gives back: the decoded body, or the exception it raises (`Gateway.Send`
   * states which HTTP outcomes give which).
   */
  type Reply = Result<Json, Failure>

  /** The reply to a POST to a creation endpoint, and the identifier it yields. */
  function Created(reply: Reply, kind: ErrorKind, unknown: string, key: string): (r: Result<Option<Json>, Failure>)
    requires kind != SdkBase
    ensures reply.Err? ==> r == Err(reply.error)
    ensures reply.Ok? && CreatedId(reply.value, kind, unknown, key).Err? ==>
      r == Err(CreatedId(reply.value, kind, unknown, key).error)
    ensures r.Ok? <==> reply.Ok? && CreatedId(reply.value, kind, unknown, key).Ok?
    ensures r.Ok? ==> r.value == IdOf(CreatedId(reply.value, kind, unknown, key).value)
  {
    match reply
    case Err(f) => Err(f)
    case Ok(data) =>
      match CreatedId(data, kind, unknown, key)
      case Err(f) => Err(f)
      case Ok(id) => Ok(IdOf(id))
  }

  /** What `_ensure_session` yields given the cached session and the reply a creation would get. */
  function SessionOutcome(cached: Option<Json>, reply: Reply): (r: Result<Option<Json>, Failure>)
    ensures cached.Some? ==> r == Ok(cached)
  {
    if cached.Some? then Ok(cached)
    else Created(reply, SessionCreation, "Unknown session creation error", "session_id")
  }

  /** The requests `_ensure_session` sends: one creation, and only without a cached session. */
  function SessionRequests(cached: Option<Json>): seq<Request> {
    if cached.Some? then [] else [Request(SessionCreatePath, None)]
  }

  /** What `_start_task` yields: the session's failure, or the outcome of the task creation. */
  function StartOutcome(cached: Option<Json>, sessionReply: Reply, createReply: Reply)
    : (r: Result<Option<Json>, Failure>)
    ensures SessionOutcome(cached, sessionReply).Err? ==> r == Err(SessionOutcome(cached, sessionReply).error)
    ensures SessionOutcome(cached, sessionReply).Ok? ==>
      r == Created(createReply, TaskStart, "Unknown task start error", "task_id")
  {
    match SessionOutcome(cached, sessionReply)
    case Err(f) => Err(f)
    case Ok(_) => Created(createReply, TaskStart, "Unknown task start error", "task_id")
  }

  /** The requests `_start_task` sends: the session creation, if needed, then the task creation. */
  function StartRequests(cached: Option<Json>, sessionReply: Reply, query: string): seq<Request> {
    SessionRequests(cached)
    + (if SessionOutcome(cached, sessionReply).Ok? then [Request(TaskCreatePath, Some(query))] else [])
  }

  // ---- Events and turns ----

  datatype Callback = OnEvent | OnProgress | OnWaitingInput | OnCompleted

  /** One call of a registered callback with the event record it received. */
  datatype Delivery = Delivery(callback: Callback, event: Event)

  /** One POST the agent sent: the path and, for task creation and resumption, the query text. */
  datatype Request = Request(path: string, text: Option<string>)

  /** `_event_stream_task`: none, running, or finished. */
  datatype StreamTask = NoStream | Live | Done

  /** The operator's console line and the server's reply to the resume it is sent with. */
  datatype OperatorReply = OperatorReply(text: string, reply: Reply)

  /** What a turn-starting call does before it suspends: return at once, or wait for `turn`. */
  datatype Begin = Returned(result: RunResult) | Awaiting(turn: Future)

  const LostConnection :=
    "[BlueStacks Agent]: ERROR: Lost connection to BlueStacks AppPlayer. Please check if BlueStacks AppPlayer is running."
  const StopReason := "Task stopped before turn completion"
  const TurnInProgressMessage :=
    "Another task turn is already waiting for completion. Wait for it to finish before starting/resuming again."
  const ResumeInProgressMessage :=
    "Another task turn is already waiting for completion. Wait for it to finish before resuming again."

  /** The reason the stream loop's `finally` hands on: the error it caught, or a lost connection. */
  function ExitReason(error: Option<string>): (r: string)
    ensures r != ""
    ensures error.Some? ==> Text.StartsWith(r, "Event stream error: ")
  {
    if error.Some? then
      var r := "Event stream error: " + error.value;
      assert r[..20] == "Event stream error: ";
      r
    else LostConnection
  }

  /** The synthetic `task_error` event that `on_completed` receives when a turn is failed. */
  function ErrorEvent(reason: string, exc: Option<string>): (e: Event)
    ensures e.name == Some("task_error") && e.output == Some("") && e.taskState == JStr("error")
    ensures e.data.JObj? && Get(e.data, "reason") == Some(JStr(reason))
  {
    var members := [("reason", JStr(reason)), ("exception", if exc.Some? then JStr(exc.value) else JNull)];
    assert members[..1] == [("reason", JStr(reason))];
    assert Lookup(members[..1], "reason") == Some(JStr(reason));
    Event(Some("task_error"), JObj(members), JNull, JStr("error"), JNull, JArr([]), JNull, Some(""))
  }

  /** The result a failed turn resolves with. */
  function FailedTurn(reason: string, exc: Option<string>): (r: RunResult)
    ensures !r.success && r.reason == reason && r.errorCode == Some("event_stream_error")
    ensures FollowsConvention(r)
  {
    Failed(reason, Some("event_stream_error"), RawEvent(ErrorEvent(reason, exc)))
  }

  const RunInvalidQuery := "ERROR: run_task(query) requires a non-empty string"
  const ResumeInvalidQuery := "ERROR: resume_task(new_query) requires a non-empty string"

  /** A query the turn-starting calls refuse: missing, or nothing but whitespace. */
  predicate BlankQuery(q: Option<string>) {
    q.None? || Text.Strip(q.value) == ""
  }

  /** The refusal of an argument guard, before any request. */
  function InvalidArgument(reason: string): (r: RunResult)
    ensures !r.success && FollowsConvention(r) && r.reason == reason && r.errorCode == Some("invalid_argument")
  {
    Failed(reason, Some("invalid_argument"), NoRaw)
  }

  /** The result an `except Exception as e` clause returns: `str(e)` and the derived code. */
  function Caught(f: Failure): (r: RunResult)
    ensures !r.success && FollowsConvention(r) && r.raw == NoRaw
    ensures r.reason == FailureText(f) && r.errorCode == Some(FailureCode(f))
  {
    Failed(FailureText(f), Some(FailureCode(f)), NoRaw)
  }

  const InvalidState := Sdk(NewSdkError(SdkBase, "Cannot start SSE stream without active session/task", Some("invalid_state")))
  const TurnInProgress := Sdk(NewSdkError(SdkBase, TurnInProgressMessage, Some("task_turn_in_progress")))

  /**
   * The failure of starting a task and attaching its stream, if any: the task creation's, or
   * `invalid_state` when the server handed back a `null` session or task identifier.
   */
  function PrepareFailure(cached: Option<Json>, sessionReply: Reply, createReply: Reply)
    : Option<Failure>
  {
    var start := StartOutcome(cached, sessionReply, createReply);
    if start.Err? then Some(start.error)
    else if SessionOutcome(cached, sessionReply).value.None? || start.value.None? then Some(InvalidState)
    else None
  }

  /** The failure `run_task` meets after its guard, if any: preparing, or finding a turn already open. */
  function RunFailure(cached: Option<Json>, sessionReply: Reply, createReply: Reply, open: bool)
    : Option<Failure>
  {
    var prepared := PrepareFailure(cached, sessionReply, createReply);
    if prepared.Some? then prepared
    else if open then Some(TurnInProgress)
    else None
  }

  /** The statuses a resume reply may carry without being a refusal (an absent one included). */
  predicate ResumeAccepted(status: Option<Json>)
    ensures ResumeAccepted(status) && status.Some? && status.value.JStr? ==>
      status.value.s == "accepted" || status.value.s == "in_progress" || status.value.s == "success"
  {
    status.None? || status.value in [JNull, JStr("accepted"), JStr("in_progress"), JStr("success")]
  }

  // ---- Tool commands ----

  /** A device command and its arguments; `None` stands for a missing or empty package. */
  datatype ToolCommand =
    | StartApp(package: Option<string>, activity: Option<string>)
    | Delay(ms: int)
    | Home
    | Back
    | InputText(text: string)
    | PressKey(keycode: int)
    | Swipe(startX: int, startY: int, endX: int, endY: int, durationMs: int)
    | Tap(x: int, y: int)

  function ToolName(cmd: ToolCommand): (name: string)
    ensures name != ""
  {
    match cmd
    case StartApp(_, _) => "start_app"
    case Delay(_) => "delay"
    case Home => "home"
    case Back => "back"
    case InputText(_) => "input_text"
    case PressKey(_) => "press_key"
    case Swipe(_, _, _, _, _) => "swipe"
    case Tap(_, _) => "tap"
  }

  function ToolPath(cmd: ToolCommand): string {
    "/v1/tools/" + ToolName(cmd)
  }

  /** The `message` a refusal without one reports. */
  function ToolUnknownError(cmd: ToolCommand): (m: string)
    ensures Text.StartsWith(m, "Unknown ") && m[|m| - 6..] == " error"
  {
    match cmd
    case Home => "Unknown home command error"
    case Back => "Unknown back command error"
    case _ => "Unknown " + ToolName(cmd) + " error"
  }

  /**
   * The argument guards: a missing package, a non-positive delay or swipe duration, and empty
   * text are refused before any request, each with its own reason.
   */
  function ArgumentError(cmd: ToolCommand): (e: Option<string>)
    ensures e.Some? <==>
      || (cmd.StartApp? && (cmd.package.None? || cmd.package.value == ""))
      || (cmd.Delay? && cmd.ms <= 0)
      || (cmd.InputText? && cmd.text == "")
      || (cmd.Swipe? && cmd.durationMs <= 0)
    ensures e.Some? ==> e.value != ""
  {
    match cmd
    case StartApp(package, _) =>
      if package.None? || package.value == "" then Some("package is required for start_app()") else None
    case Delay(ms) =>
      if ms <= 0 then Some("delay(ms) requires a positive duration in milliseconds") else None
    case InputText(text) =>
      if text == "" then Some("input_text() requires a non-empty string") else None
    case Swipe(_, _, _, _, durationMs) =>
      if durationMs <= 0 then Some("duration_ms must be greater than zero") else None
    case _ => None
  }

  /** What the resume request comes to: accepted, refused by the server, or an exception. */
  datatype Verdict = Accepted | Refused(result: RunResult) | Raised(failure: Failure)

  /**
   * The POST to `/v1/task/resume` and the check of the reply's `status`: a failure of the request
   * or a body that is not a dictionary raises; a status other than the accepted ones is a refusal.
   */
  function ResumeVerdict(reply: Reply): (v: Verdict)
    ensures reply.Err? ==> v == Raised(reply.error)
    ensures reply.Ok? && !reply.value.JObj? ==> v == Raised(Runtime(NoGetMessage(reply.value)))
    ensures reply.Ok? && reply.value.JObj? && !ResumeAccepted(Get(reply.value, "status")) ==>
      v == Refused(RejectionAsWritten(reply.value, "task_resume_failed", "Unknown task resume error"))
    ensures v.Accepted? <==> reply.Ok? && reply.value.JObj? && ResumeAccepted(Get(reply.value, "status"))
    ensures v.Refused? ==> !v.result.success
    ensures v.Refused? && RefusalCoded(reply.value) ==> FollowsConvention(v.result)
  {
    match reply
    case Err(f) => Raised(f)
    case Ok(data) =>
      if !data.JObj? then Raised(Runtime(NoGetMessage(data)))
      else if !ResumeAccepted(Get(data, "status")) then
        Refused(RejectionAsWritten(data, "task_resume_failed", "Unknown task resume error"))
      else Accepted
  }

  /** `BluestacksAgent.Valid` over the fields it constrains, so that changing any other field keeps it. */
  ghost predicate TurnProtocol(
    waiters: set<Future>, pending: Future?, stream: StreamTask,
    kinds: seq<Sse.LineKind>, acc: Sse.Accumulator, frames: seq<Sse.Frame>)
    reads waiters, pending
  {
    && (forall w | w in waiters :: w.result.None? ==> w == pending)
    && (pending != null && pending.result.None? ==> stream == Live)
    && (forall w | w in waiters :: w.result.Some? ==> FollowsConvention(w.result.value))
    && (stream == Live ==> Sse.Scan(kinds) == (acc, frames))
  }

  // ---- What reading the stream does, as a function of the agent's settings ----

  /**
   * The settings stream handling depends on and never changes: the registered callbacks, the
   * default-callback flag, `json.loads`, and whether a session and a task exist, so that the
   * operator's line can be sent.
   */
  datatype Env = Env(callbacks: set<Callback>, useDefaultCallbacks: bool, decode: string -> Option<Json>, canResume: bool)

  /**
   * What reading part of the stream does: the result the open turn is resolved with, if it is;
   * whether the stream ends; the callback calls made and the requests sent, in order.
   */
  datatype Effect = Effect(resolution: Option<RunResult>, ends: bool, calls: seq<Delivery>, sent: seq<Request>)

  const NoEffect := Effect(None, false, [], [])

  /** The turn slot as callers see it: no future, or a future and its result so far. */
  datatype Slot = NoTurn | Turn(result: Option<RunResult>)

  /** What the agent has done that anyone can observe: callback calls, requests sent, and the turn. */
  datatype Observable = Observable(delivered: seq<Delivery>, requests: seq<Request>, turn: Slot)

  /** `o` after `e`: its calls and requests appended, and an open turn resolved if `e` resolves it. */
  function After(o: Observable, e: Effect): (r: Observable)
    ensures o.turn != Turn(None) ==> r.turn == o.turn
    ensures o.turn == Turn(None) ==> r.turn == Turn(e.resolution)
  {
    Observable(o.delivered + e.calls, o.requests + e.sent,
               if o.turn == Turn(None) && e.resolution.Some? then Turn(e.resolution) else o.turn)
  }

  /** Doing `e` and then `rest` is doing `Then(e, rest)`. */
  lemma AfterThen(o: Observable, e: Effect, rest: Effect)
    ensures After(After(o, e), rest) == After(o, Then(e, rest))
  {
    assert (o.delivered + e.calls) + rest.calls == o.delivered + (e.calls + rest.calls);
    assert (o.requests + e.sent) + rest.sent == o.requests + (e.sent + rest.sent);
  }

  /** An effect that calls, sends and resolves nothing leaves `o` as it is. */
  lemma NothingAfter(o: Observable, e: Effect)
    requires e.resolution.None? && e.calls == [] && e.sent == []
    ensures After(o, e) == o
  {
    assert o.delivered + [] == o.delivered && o.requests + [] == o.requests;
  }

  /** The call of `cb` with `e`, if it is registered. */
  function Calls(callbacks: set<Callback>, cb: Callback, e: Event): seq<Delivery> {
    if cb in callbacks then [Delivery(cb, e)] else []
  }

  /** `e`, then `rest`: the first resolution wins, and the stream ends as `rest` leaves it. */
  function Then(e: Effect, rest: Effect): Effect {
    Effect(if e.resolution.Some? then e.resolution else rest.resolution, rest.ends, e.calls + rest.calls, e.sent + rest.sent)
  }

  /** `_fail_pending_turn_gracefully` with a turn open or not. */
  function Failing(env: Env, open: bool, reason: string, exc: Option<string>): (e: Effect)
    ensures e.resolution.Some? <==> open
    ensures open ==> e.resolution.value == FailedTurn(reason, exc) && FollowsConvention(e.resolution.value)
    ensures !e.ends && e.sent == []
  {
    if open then Effect(Some(FailedTurn(reason, exc)), false, Calls(env.callbacks, OnCompleted, ErrorEvent(reason, exc)), [])
    else NoEffect
  }

  /** The stream loop's `finally` when it leaves with `error`: the open turn fails and the stream ends. */
  function Exit(env: Env, open: bool, error: Option<string>): (e: Effect)
    ensures e.ends && (e.resolution.Some? <==> open) && e.sent == []
  {
    Failing(env, open, ExitReason(error), error).(ends := true)
  }

  /**
   * The console summary's exception, when default callbacks are on and no `on_completed` is
   * registered (the summary is printed only then).
   */
  function SummaryFailure(env: Env, h: Frames.Handled): (e: Option<string>)
    requires h.event.data.JObj?
    ensures e.Some? ==> env.useDefaultCallbacks && OnCompleted !in env.callbacks && h.event.name == Some(Frames.TaskCompleted)
  {
    if env.useDefaultCallbacks && OnCompleted !in env.callbacks && h.event.name == Some(Frames.TaskCompleted)
    then Frames.SummaryError(h.event.data)
    else None
  }

  /**
   * Dispatching an event: `on_event` first, then what its action selects. A completion resolves
   * an open turn with its result; the default await-input strategy sends the operator's line and
   * fails the open turn if that request fails; nothing else touches the turn.
   */
  function DispatchEffect(env: Env, h: Frames.Handled, op: OperatorReply, open: bool): Effect {
    Then(Effect(None, false, Calls(env.callbacks, OnEvent, h.event), []), ActionEffect(env, h, op, open))
  }

  /**
   * The default `task_await_input` strategy: with a session and a task, the operator's line is
   * sent as a resume, and a failed request fails the open turn with its text.
   */
  function ResumeEffect(env: Env, op: OperatorReply, open: bool): Effect {
    if !env.canResume then NoEffect
    else
      var failed := if op.reply.Err? then Failing(env, open, FailureText(op.reply.error), Some(FailureText(op.reply.error)))
                    else NoEffect;
      Effect(failed.resolution, false, failed.calls, [Request(TaskResumePath, Some(op.text))])
  }

  /** What follows `on_event`: the callback, or the default strategy, the frame's name selects. */
  function ActionEffect(env: Env, h: Frames.Handled, op: OperatorReply, open: bool): Effect {
    match h.action
    case ReportProgress => Effect(None, false, Calls(env.callbacks, OnProgress, h.event), [])
    case AwaitInput =>
      if OnWaitingInput in env.callbacks then Effect(None, false, [Delivery(OnWaitingInput, h.event)], [])
      else if env.useDefaultCallbacks then ResumeEffect(env, op, open)
      else NoEffect
    case Complete(result, completed) =>
      Effect(if open then Some(result) else None, false, Calls(env.callbacks, OnCompleted, completed), [])
    case Unreadable(_) => NoEffect
    case NoAction => NoEffect
  }

  /**
   * Dispatch never ends the stream and calls `on_event` first; only a completion, or a failed
   * resume request, resolves the turn, and a completion resolves an open turn with its own result;
   * the default strategy is the only sender.
   */
  lemma DispatchMeaning(env: Env, h: Frames.Handled, op: OperatorReply, open: bool)
    ensures var e := DispatchEffect(env, h, op, open);
      && !e.ends && Calls(env.callbacks, OnEvent, h.event) <= e.calls
      && (e.resolution.Some? ==> open)
      && (e.resolution.Some? && Frames.Conventional(h) ==> FollowsConvention(e.resolution.value))
      && (open && h.action.Complete? ==> e.resolution == Some(h.action.result))
      && (e.resolution.Some? && !h.action.Complete? ==>
            h.action == Frames.AwaitInput && e.resolution.value.errorCode == Some("event_stream_error"))
      && e.sent == if h.action == Frames.AwaitInput && OnWaitingInput !in env.callbacks && env.useDefaultCallbacks && env.canResume
                   then [Request(TaskResumePath, Some(op.text))] else []
  {
  }

  /**
   * Handling a read event: a raising summary ends the stream; otherwise the event is dispatched,
   * and an unreadable completion then ends the stream.
   */
  function EventEffect(env: Env, h: Frames.Handled, op: OperatorReply, open: bool): Effect
    requires h.event.data.JObj?
  {
    var summary := SummaryFailure(env, h);
    if summary.Some? then Exit(env, open, summary)
    else
      var d := DispatchEffect(env, h, op, open);
      if h.action.Unreadable? then Then(d, Exit(env, open, Some(h.action.error))) else d
  }

  /**
   * Handling an event ends the stream exactly when the summary raises or the completion is
   * unreadable; otherwise `on_event` comes first, and a completion resolves an open turn with
   * its own result.
   */
  lemma EventMeaning(env: Env, h: Frames.Handled, op: OperatorReply, open: bool)
    requires h.event.data.JObj?
    ensures var e := EventEffect(env, h, op, open);
      && (e.resolution.Some? ==> open)
      && (e.resolution.Some? && Frames.Conventional(h) ==> FollowsConvention(e.resolution.value))
      && (e.ends && open ==> e.resolution.Some?)
      && (e.ends <==> SummaryFailure(env, h).Some? || h.action.Unreadable?)
      && (SummaryFailure(env, h).None? ==> Calls(env.callbacks, OnEvent, h.event) <= e.calls)
      && (SummaryFailure(env, h).None? && open && h.action.Complete? ==> e.resolution == Some(h.action.result))
  {
    DispatchMeaning(env, h, op, open);
  }

  /** Handling a dispatched frame: reading it, which raises for a payload that is not a dictionary, then its event. */
  function FrameEffect(env: Env, frame: Sse.Frame, op: OperatorReply, open: bool): Effect {
    var h := Frames.HandleFrame(frame.name, frame.data, env.decode(frame.data));
    if h.Err? then Exit(env, open, Some(h.error)) else EventEffect(env, h.value, op, open)
  }

  /**
   * A frame whose payload cannot be read ends the stream without a request; a readable
   * completion whose summary does not raise resolves an open turn with its own result.
   */
  lemma FrameMeaning(env: Env, frame: Sse.Frame, op: OperatorReply, open: bool)
    ensures var h := Frames.HandleFrame(frame.name, frame.data, env.decode(frame.data));
      var e := FrameEffect(env, frame, op, open);
      && (e.resolution.Some? ==> open && FollowsConvention(e.resolution.value))
      && (e.ends && open ==> e.resolution.Some?)
      && (h.Err? ==> e.ends && e.sent == [])
      && (Quiet(env, frame) ==> e == Effect(None, false, e.calls, []))
      && (h.Ok? && SummaryFailure(env, h.value).None? && open && h.value.action.Complete? ==>
            e.resolution == Some(h.value.action.result))
  {
    var h := Frames.HandleFrame(frame.name, frame.data, env.decode(frame.data));
    if h.Ok? {
      EventMeaning(env, h.value, op, open);
    }
  }

  /** A frame that is read without raising and asks only for progress reporting or nothing at all. */
  predicate Quiet(env: Env, frame: Sse.Frame) {
    var h := Frames.HandleFrame(frame.name, frame.data, env.decode(frame.data));
    h.Ok? && (h.value.action.ReportProgress? || h.value.action.NoAction?)
  }

  /** Frame handling as the stream loop applies it: the settings, a frame, the operator's reply and whether a turn is open, to its effect. */
  type Handler = (Env, Sse.Frame, OperatorReply, bool) -> Effect

  /** `handle` is the frame handling `FrameEffect` defines. */
  ghost predicate Handles(handle: Handler) {
    forall env, frame, op, open {:trigger FrameEffect(env, frame, op, open)} ::
      handle(env, frame, op, open) == FrameEffect(env, frame, op, open)
  }

  /** There is such a handler. */
  lemma FrameHandler() returns (handle: Handler)
    ensures Handles(handle)
  {
    handle := (env, frame, op, open) => FrameEffect(env, frame, op, open);
  }

  /**
   * One iteration of the stream loop from the accumulator `acc`: leave when asked to stop,
   * otherwise step the accumulator and handle the frame the line completes, if any.
   */
  function LineEffect(env: Env, handle: Handler, stop: bool, acc: Sse.Accumulator, line: string, op: OperatorReply, open: bool)
    : (r: (Sse.Accumulator, Effect))
    ensures stop ==> r.0 == acc && r.1.ends
    ensures !stop && Sse.Next(acc, Sse.Classify(line)).1.None? ==> r.1 == NoEffect
  {
    if stop then (acc, Exit(env, open, None))
    else
      var next := Sse.Next(acc, Sse.Classify(line));
      (next.0, if next.1.Some? then handle(env, next.1.value, op, open) else NoEffect)
  }

  /**
   * The stream loop over the lines from index `i` (with the operator's reply to each), until
   * they run out or the stream ends.
   */
  function LinesFrom(
    env: Env, handle: Handler, stop: bool, acc: Sse.Accumulator, lines: seq<string>, ops: seq<OperatorReply>,
    i: nat, open: bool)
    : (e: Effect)
    requires |ops| == |lines| && i <= |lines|
    ensures stop && i < |lines| ==> e == Exit(env, open, None)
    decreases |lines| - i
  {
    if i == |lines| then NoEffect
    else
      var step := LineEffect(env, handle, stop, acc, lines[i], ops[i], open);
      if step.1.ends then step.1
      else Then(step.1, LinesFrom(env, handle, stop, step.0, lines, ops, i + 1, open && step.1.resolution.None?))
  }

  /** What is left of the loop after a step: everything the step did not do. */
  lemma ThenParts(step: Effect, rest: Effect, whole: Effect, calls: seq<Delivery>, sent: seq<Request>)
    requires whole == if step.ends then step else Then(step, rest)
    requires step.ends ==> rest == Effect(None, true, [], [])
    ensures (calls + step.calls) + rest.calls == calls + whole.calls && (sent + step.sent) + rest.sent == sent + whole.sent
    ensures whole.ends == rest.ends
    ensures whole.resolution == if step.resolution.Some? then step.resolution else rest.resolution
  {
  }

  /** What the stream loop still does from the `i`-th line: nothing more once the stream has `ended`. */
  function Rest(
    ended: bool, env: Env, handle: Handler, stop: bool, acc: Sse.Accumulator, lines: seq<string>, ops: seq<OperatorReply>,
    i: nat, open: bool)
    : Effect
    requires |ops| == |lines| && i <= |lines|
  {
    if ended then Effect(None, true, [], []) else LinesFrom(env, handle, stop, acc, lines, ops, i, open)
  }

  /**
   * One iteration keeps the loop's account: from the state `o` the `i`-th line leads to `next`,
   * and what is left after it, done from `next`, ends where the rest from the `i`-th line ends.
   */
  lemma RestStep(
    env: Env, handle: Handler, stop: bool, acc: Sse.Accumulator, lines: seq<string>, ops: seq<OperatorReply>, i: nat,
    o: Observable, open: bool, nextAcc: Sse.Accumulator, ended: bool, next: Observable, nextOpen: bool)
    requires |ops| == |lines| && i < |lines|
    requires open == (o.turn == Turn(None)) && nextOpen == (next.turn == Turn(None))
    requires var step := LineEffect(env, handle, stop, acc, lines[i], ops[i], open);
      next == After(o, step.1) && (ended <==> step.1.ends) && (!ended ==> nextAcc == step.0)
    ensures var before := Rest(false, env, handle, stop, acc, lines, ops, i, open);
      var after := Rest(ended, env, handle, stop, nextAcc, lines, ops, i + 1, nextOpen);
      After(next, after) == After(o, before) && after.ends == before.ends
  {
    var step := LineEffect(env, handle, stop, acc, lines[i], ops[i], open);
    var after := Rest(ended, env, handle, stop, nextAcc, lines, ops, i + 1, nextOpen);
    AfterThen(o, step.1, after);
    if ended {
      assert step.1.calls + [] == step.1.calls && step.1.sent + [] == step.1.sent;
    } else {
      assert nextOpen == (open && step.1.resolution.None?);
    }
  }

  /** The stream loop over `lines`, then, when `end` is given and the stream is still live, the end of the connection. */
  function StreamEffect(
    env: Env, handle: Handler, stop: bool, acc: Sse.Accumulator, lines: seq<string>, ops: seq<OperatorReply>,
    end: Option<Option<string>>, open: bool)
    : (e: Effect)
    requires |ops| == |lines|
    ensures end.Some? ==> e.ends
  {
    Ending(env, LinesFrom(env, handle, stop, acc, lines, ops, 0, open), end, open)
  }

  /**
   * After the loop's effect `e`, the end of the connection: nothing more when the loop ended the
   * stream or the connection is still open, otherwise the `finally` with the connection's error.
   */
  function Ending(env: Env, e: Effect, end: Option<Option<string>>, open: bool): (r: Effect)
    ensures end.Some? ==> r.ends
  {
    if e.ends || end.None? then e else Then(e, Exit(env, open && e.resolution.None?, end.value))
  }

  /**
   * The stream loop resolves the turn only when one is open, and when it ends the stream it
   * leaves no turn open.
   */
  lemma {:induction false} LinesSettle(
    env: Env, handle: Handler, stop: bool, acc: Sse.Accumulator, lines: seq<string>, ops: seq<OperatorReply>,
    i: nat, open: bool)
    requires Handles(handle) && |ops| == |lines| && i <= |lines|
    ensures var e := LinesFrom(env, handle, stop, acc, lines, ops, i, open);
      && (e.resolution.Some? ==> open && FollowsConvention(e.resolution.value))
      && (e.ends && open ==> e.resolution.Some?)
    decreases |lines| - i
  {
    if i < |lines| {
      var step := LineEffect(env, handle, stop, acc, lines[i], ops[i], open);
      var next := Sse.Next(acc, Sse.Classify(lines[i]));
      if !stop && next.1.Some? {
        FrameMeaning(env, next.1.value, ops[i], open);
      }
      if !step.1.ends {
        LinesSettle(env, handle, stop, step.0, lines, ops, i + 1, open && step.1.resolution.None?);
      }
    }
  }

  /**
   * Reading lines and then losing the connection: the turn is resolved exactly when one was
   * open, by the stream's frames or, failing them, by the loop's `finally`.
   */
  lemma StreamSettles(
    env: Env, handle: Handler, stop: bool, acc: Sse.Accumulator, lines: seq<string>, ops: seq<OperatorReply>,
    end: Option<string>, open: bool)
    requires Handles(handle) && |ops| == |lines|
    ensures var e := StreamEffect(env, handle, stop, acc, lines, ops, Some(end), open);
      && e.ends && (e.resolution.Some? <==> open)
      && (e.resolution.Some? ==> FollowsConvention(e.resolution.value))
  {
    LinesSettle(env, handle, stop, acc, lines, ops, 0, open);
  }

  /**
   * Lines whose frames are all quiet, read without a stop request, leave the turn as it was,
   * send nothing and keep the stream open: only a completion, an await-input frame, or a frame
   * that cannot be read can touch the turn.
   */
  lemma {:induction false} QuietLines(
    env: Env, handle: Handler, acc: Sse.Accumulator, lines: seq<string>, ops: seq<OperatorReply>, i: nat, open: bool)
    requires Handles(handle) && |ops| == |lines| && i <= |lines|
    requires forall f | f in Sse.ScanFrom(acc, Sse.Kinds(lines[i..])).1 :: Quiet(env, f)
    ensures var e := LinesFrom(env, handle, false, acc, lines, ops, i, open);
      e.resolution.None? && !e.ends && e.sent == []
    decreases |lines| - i
  {
    if i < |lines| {
      var next := Sse.Next(acc, Sse.Classify(lines[i]));
      Sse.KindsFrom(lines, i);
      var rest := Sse.ScanFrom(next.0, Sse.Kinds(lines[i + 1..])).1;
      assert Sse.ScanFrom(acc, Sse.Kinds(lines[i..])).1 == Sse.Dispatched(next.1) + rest;
      if next.1.Some? {
        FrameMeaning(env, next.1.value, ops[i], open);
      }
      QuietLines(env, handle, next.0, lines, ops, i + 1, open);
    }
  }

  /** The stop flag and accumulator a turn's stream starts from: a live stream's own, or a fresh stream's. */
  function StreamStart(stream: StreamTask, stop: bool, acc: Sse.Accumulator): (bool, Sse.Accumulator) {
    if stream == Live then (stop, acc) else (false, Sse.Empty)
  }

  /** An `asyncio` future a caller awaits: unresolved until `result` is set, once. */
  class Future {
    var result: Option<RunResult>

    constructor ()
      ensures result == None
    {
      result := None;
    }
  }

  class BluestacksAgent {
    const useDefaultCallbacks: bool
    const llmConfig: map<string, Json>
    /** `json.loads` on a frame's data: `None` when it is not valid JSON. */
    const decode: string -> Option<Json>
    /** The frame handling the stream loop applies. */
    ghost const handle: Handler

    var callbacks: set<Callback>
    var sessionId: Option<Json>
    var currentTaskId: Option<Json>
    var stream: StreamTask
    var stopStream: bool
    var pending: Future?
    /** The stream loop's `current_event_name` and `current_event_data`. */
    var acc: Sse.Accumulator
    var delivered: seq<Delivery>
    var requests: seq<Request>

    /** The kinds of the lines the live stream has read, and the frames it has dispatched. */
    ghost var streamKinds: seq<Sse.LineKind>
    ghost var frames: seq<Sse.Frame>
    /** The futures some suspended caller is waiting for. */
    ghost var waiters: set<Future>

    /**
     * The turn protocol: a caller still waiting waits for the future in the slot (so at most
     * one turn is open and failing or completing the slot reaches every waiter); a resolved
     * turn follows the result convention; an open turn always has a live stream that can resolve
     * it; the live stream's accumulator is the one its lines produce.
     */
    ghost predicate Valid()
      reads this`waiters, this`pending, this`stream, this`streamKinds, this`acc, this`frames, waiters, pending
    {
      TurnProtocol(waiters, pending, stream, streamKinds, acc, frames)
    }

    /** The stream loop handles frames as `FrameEffect` says. */
    ghost predicate HandlesFrames() {
      Handles(handle)
    }

    /** A turn is pending and unresolved. */
    predicate TurnOpen()
      reads this`pending, pending
    {
      pending != null && pending.result.None?
    }

    constructor (useDefaultCallbacks: bool, llmOverrides: map<string, Json>, decode: string -> Option<Json>)
      ensures Valid() && HandlesFrames()
      ensures this.useDefaultCallbacks == useDefaultCallbacks && this.decode == decode
      ensures forall k :: k in llmConfig <==> k in DefaultLlmConfig || k in llmOverrides
      ensures forall k :: k in llmOverrides ==> llmConfig[k] == llmOverrides[k]
      ensures forall k :: k in DefaultLlmConfig && k !in llmOverrides ==> llmConfig[k] == DefaultLlmConfig[k]
      ensures sessionId == None && currentTaskId == None && stream == NoStream && !stopStream && pending == null
      ensures callbacks == {} && delivered == [] && requests == [] && waiters == {}
    {
      var cfg := MergeLlmConfig(DefaultLlmConfig, llmOverrides);
      ghost var h := FrameHandler();
      handle := h;
      this.useDefaultCallbacks := useDefaultCallbacks;
      this.decode := decode;
      llmConfig := cfg;
      callbacks := {};
      sessionId, currentTaskId := None, None;
      stream, stopStream := NoStream, false;
      pending := null;
      acc := Sse.Empty;
      delivered, requests := [], [];
      streamKinds, frames, waiters := [], [], {};
    }

    /** `set_callbacks`: exactly the given callbacks are registered. */
    method SetCallbacks(registered: set<Callback>)
      modifies this`callbacks
      ensures callbacks == registered
    {
      callbacks := registered;
    }

    /** The call of a callback, if one is registered (its exceptions are swallowed). */
    function Deliver(cb: Callback, e: Event): seq<Delivery>
      reads this`callbacks
    {
      Calls(callbacks, cb, e)
    }

    /** The settings the stream's handling depends on. */
    function Environment(): Env
      reads this`callbacks, this`sessionId, this`currentTaskId
    {
      Env(callbacks, useDefaultCallbacks, decode, sessionId.Some? && currentTaskId.Some?)
    }

    /** What failing the turn hands `on_completed`: the `task_error` event when a turn is `open`. */
    function FailureCalls(open: bool, reason: string, exc: Option<string>): seq<Delivery>
      reads this`callbacks
    {
      if open then Deliver(OnCompleted, ErrorEvent(reason, exc)) else []
    }

    /**
     * What a judged resume hands `on_completed` when it fails the new turn: the `task_error`
     * event with the exception's text, or with the refusal's reason; nothing when accepted.
     */
    function ResumeCalls(verdict: Verdict): seq<Delivery>
      reads this`callbacks
    {
      match verdict
      case Raised(failure) => FailureCalls(true, FailureText(failure), Some(FailureText(failure)))
      case Refused(refused) => FailureCalls(true, refused.reason, None)
      case Accepted => []
    }

    /** The calls made, the requests sent and the turn, as anyone can observe them. */
    function Observed(): (o: Observable)
      reads this`delivered, this`requests, this`pending, pending
      ensures o.turn == Turn(None) <==> TurnOpen()
    {
      Observable(delivered, requests, if pending == null then NoTurn else Turn(pending.result))
    }

    /** The observable state changed as `e` says, and nothing else about the turn. */
    twostate predicate Took(e: Effect)
      reads this, pending
    {
      pending == old(pending) && Observed() == After(old(Observed()), e)
    }

    /**
     * `_fail_pending_turn_gracefully`: an open turn is resolved, once, with a failure carrying
     * `reason` and code `event_stream_error`, after `on_completed` sees the `task_error`
     * event; with no open turn nothing happens.
     */
    method FailPendingTurnGracefully(reason: string, exc: Option<string>)
      requires Valid()
      modifies this`delivered, pending
      ensures Valid()
      ensures old(TurnOpen()) ==>
        && pending.result == Some(FailedTurn(reason, exc))
        && delivered == old(delivered) + Deliver(OnCompleted, ErrorEvent(reason, exc))
      ensures !old(TurnOpen()) ==> delivered == old(delivered) && (pending != null ==> pending.result == old(pending.result))
      ensures delivered == old(delivered) + FailureCalls(old(TurnOpen()), reason, exc)
      ensures requests == old(requests) && Took(Failing(Environment(), old(TurnOpen()), reason, exc))
    {
      if pending == null || pending.result.Some? {
        return;
      }
      var event := ErrorEvent(reason, exc);
      delivered := delivered + Deliver(OnCompleted, event);
      pending.result := Some(FailedTurn(reason, exc));
    }

    /**
     * `_ensure_session`: the cached session, or a new one from `/v1/session/create`.
     */
    method EnsureSession(reply: Reply) returns (r: Result<Option<Json>, Failure>)
      modifies this`sessionId, this`requests
      ensures r == SessionOutcome(old(sessionId), reply)
      ensures r.Ok? ==> sessionId == r.value
      ensures r.Err? ==> sessionId == old(sessionId) == None
      ensures requests == old(requests) + SessionRequests(old(sessionId))
    {
      if sessionId.Some? {
        return Ok(sessionId);
      }
      requests := requests + [Request(SessionCreatePath, None)];
      r := Created(reply, SessionCreation, "Unknown session creation error", "session_id");
      if r.Ok? {
        sessionId := r.value;
      }
    }

    /**
     * `_start_task`: ensure a session, then create a task for `query`; the new task becomes
     * the current one only when the server accepted it.
     */
    method StartTask(query: string, sessionReply: Reply, createReply: Reply)
      returns (r: Result<Option<Json>, Failure>)
      requires Valid()
      modifies this`sessionId, this`currentTaskId, this`requests
      ensures Valid()
      ensures r == StartOutcome(old(sessionId), sessionReply, createReply)
      ensures requests == old(requests) + StartRequests(old(sessionId), sessionReply, query)
      ensures r.Ok? ==> currentTaskId == r.value
      ensures r.Err? ==> currentTaskId == old(currentTaskId)
      ensures SessionOutcome(old(sessionId), sessionReply).Ok? ==> sessionId == SessionOutcome(old(sessionId), sessionReply).value
      ensures SessionOutcome(old(sessionId), sessionReply).Err? ==> sessionId == old(sessionId)
    {
      var session := EnsureSession(sessionReply);
      if session.Err? {
        return Err(session.error);
      }
      requests := requests + [Request(TaskCreatePath, Some(query))];
      r := Created(createReply, TaskStart, "Unknown task start error", "task_id");
      if r.Ok? {
        currentTaskId := r.value;
      }
    }

    /**
     * `_ensure_event_stream`: refuses with `invalid_state` without a session and a task;
     * keeps a live stream; otherwise attaches a fresh one with an empty accumulator.
     */
    method EnsureEventStream() returns (err: Option<Failure>)
      requires Valid()
      modifies this`stream, this`stopStream, this`acc, this`streamKinds, this`frames
      ensures Valid()
      ensures sessionId.None? || currentTaskId.None? ==>
        && err == Some(InvalidState)
        && stream == old(stream) && acc == old(acc)
      ensures sessionId.Some? && currentTaskId.Some? ==> err.None? && stream == Live
      ensures sessionId.Some? && currentTaskId.Some? && old(stream) != Live ==>
        !stopStream && acc == Sse.Empty && streamKinds == [] && frames == []
      ensures old(stream) == Live ==> stopStream == old(stopStream) && acc == old(acc) && streamKinds == old(streamKinds)
      ensures sessionId.Some? && currentTaskId.Some? ==> (stopStream, acc) == StreamStart(old(stream), old(stopStream), old(acc))
    {
      if sessionId.None? || currentTaskId.None? {
        return Some(InvalidState);
      }
      err := None;
      if stream == Live {
        return;
      }
      stopStream := false;
      stream := Live;
      acc := Sse.Empty;
      streamKinds, frames := [], [];
    }

    /**
     * The default `task_await_input` strategy: with a session and a task, the operator's line is
     * sent to `/v1/task/resume`; a failure of that request fails the open turn with its text.
     */
    method ResumeFromOperator(op: OperatorReply)
      requires Valid()
      modifies this`delivered, this`requests, pending
      ensures Valid()
      ensures Took(ResumeEffect(Environment(), op, old(TurnOpen())))
      ensures var sent := sessionId.Some? && currentTaskId.Some?;
        && requests == old(requests) + (if sent then [Request(TaskResumePath, Some(op.text))] else [])
        && (sent && op.reply.Err? && old(TurnOpen()) ==>
              && pending.result == Some(FailedTurn(FailureText(op.reply.error), Some(FailureText(op.reply.error))))
              && delivered == old(delivered) + Deliver(OnCompleted, ErrorEvent(FailureText(op.reply.error), Some(FailureText(op.reply.error)))))
        && (!(sent && op.reply.Err? && old(TurnOpen())) ==>
              delivered == old(delivered) && (pending != null ==> pending.result == old(pending.result)))
    {
      if sessionId.Some? && currentTaskId.Some? {
        requests := requests + [Request(TaskResumePath, Some(op.text))];
        if op.reply.Err? {
          var text := FailureText(op.reply.error);
          FailPendingTurnGracefully(text, Some(text));
        }
      }
    }

    /**
     * `_handle_sse_event` once the frame has been read: `on_event` first, then the callback
     * the frame's name selects. Only `task_completed` resolves the open turn, with the result
     * it carries.
     */
    method Dispatch(h: Frames.Handled, op: OperatorReply)
      requires Valid() && Frames.Conventional(h)
      modifies this`delivered, this`requests, pending
      ensures Valid()
      ensures Took(DispatchEffect(Environment(), h, op, old(TurnOpen())))
    {
      ghost var o := Observed();
      delivered := delivered + Deliver(OnEvent, h.event);
      DispatchAction(h, op);
      AfterThen(o, Effect(None, false, Deliver(OnEvent, h.event), []), ActionEffect(Environment(), h, op, old(TurnOpen())));
    }

    /** The branch of `_handle_sse_event` the frame's name selects, after `on_event`. */
    method DispatchAction(h: Frames.Handled, op: OperatorReply)
      requires Valid() && Frames.Conventional(h)
      modifies this`delivered, this`requests, pending
      ensures Valid()
      ensures Took(ActionEffect(Environment(), h, op, old(TurnOpen())))
    {
      match h.action
      case ReportProgress =>
        delivered := delivered + Deliver(OnProgress, h.event);
      case AwaitInput =>
        if OnWaitingInput in callbacks {
          delivered := delivered + [Delivery(OnWaitingInput, h.event)];
        } else if useDefaultCallbacks {
          ResumeFromOperator(op);
        } else {
          assert delivered + [] == delivered && requests + [] == requests;
        }
      case Complete(result, completed) =>
        delivered := delivered + Deliver(OnCompleted, completed);
        if pending != null && pending.result.None? {
          pending.result := Some(result);
        }
      case Unreadable(_) =>
        assert delivered + [] == delivered && requests + [] == requests;
      case NoAction =>
        assert delivered + [] == delivered && requests + [] == requests;
    }

    /**
     * The stream loop's `finally`: the open turn, if any, is failed with the exit reason, and
     * the stream task is finished.
     */
    method StreamExit(error: Option<string>)
      requires Valid() && stream == Live
      modifies this`stream, this`delivered, pending
      ensures Valid() && stream == Done && !TurnOpen()
      ensures old(TurnOpen()) ==> pending.result == Some(FailedTurn(ExitReason(error), error))
      ensures delivered == old(delivered) + FailureCalls(old(TurnOpen()), ExitReason(error), error)
      ensures !old(TurnOpen()) ==> delivered == old(delivered) && (pending != null ==> pending.result == old(pending.result))
      ensures Took(Exit(Environment(), old(TurnOpen()), error))
    {
      FailPendingTurnGracefully(ExitReason(error), error);
      stream := Done;
    }

    /**
     * `_handle_sse_event` inside the stream loop: read the frame, then handle its event; an
     * exception while reading it leaves the loop, through its `finally`.
     */
    method HandleSseEvent(frame: Sse.Frame, op: OperatorReply)
      requires Valid() && stream == Live
      modifies this`stream, this`delivered, this`requests, pending
      ensures Valid() && (stream == Live || stream == Done)
      ensures var e := FrameEffect(Environment(), frame, op, old(TurnOpen()));
        Took(e) && (stream == Done <==> e.ends)
      ensures var h := Frames.HandleFrame(frame.name, frame.data, decode(frame.data));
        h.Ok? && SummaryFailure(Environment(), h.value).None? && h.value.action.Complete? && old(TurnOpen()) ==>
          pending.result == Some(h.value.action.result)
      ensures Quiet(Environment(), frame) ==> stream == Live && TurnOpen() == old(TurnOpen()) && requests == old(requests)
    {
      FrameMeaning(Environment(), frame, op, TurnOpen());
      var h := Frames.HandleFrame(frame.name, frame.data, decode(frame.data));
      if h.Err? {
        StreamExit(Some(h.error));
      } else {
        HandleEvent(h.value, op);
      }
    }

    /**
     * The rest of `_handle_sse_event` once the event record is built: print the console summary
     * of a completion, then dispatch. A completion whose result cannot be read is seen by
     * `on_event` before it raises; either exception leaves the loop, through its `finally`.
     */
    method HandleEvent(h: Frames.Handled, op: OperatorReply)
      requires Valid() && stream == Live && h.event.data.JObj? && Frames.Conventional(h)
      modifies this`stream, this`delivered, this`requests, pending
      ensures Valid() && (stream == Live || stream == Done)
      ensures var e := EventEffect(Environment(), h, op, old(TurnOpen()));
        Took(e) && (stream == Done <==> e.ends)
      ensures SummaryFailure(Environment(), h).None? && h.action.Complete? && old(TurnOpen()) ==>
        pending.result == Some(h.action.result)
      ensures SummaryFailure(Environment(), h).None? && (h.action.ReportProgress? || h.action.NoAction?) ==>
        stream == Live && TurnOpen() == old(TurnOpen()) && requests == old(requests)
    {
      EventMeaning(Environment(), h, op, TurnOpen());
      var summary := SummaryFailure(Environment(), h);
      if summary.Some? {
        StreamExit(summary);
        return;
      }
      ghost var o, open := Observed(), TurnOpen();
      Dispatch(h, op);
      if h.action.Unreadable? {
        ghost var d := DispatchEffect(Environment(), h, op, open);
        assert d.resolution.None? && TurnOpen() == open;
        StreamExit(Some(h.action.error));
        AfterThen(o, d, Exit(Environment(), open, Some(h.action.error)));
      }
    }

    /**
     * One iteration of the stream loop: stop when asked to, otherwise feed the line to the
     * accumulator and handle the frame it completes; an exception while handling ends the stream.
     */
    method ReadLine(line: string, op: OperatorReply)
      requires Valid() && HandlesFrames() && stream == Live
      modifies this`stream, this`acc, this`streamKinds, this`frames, this`delivered, this`requests, pending
      ensures Valid() && (stream == Live || stream == Done)
      ensures old(stopStream) ==> streamKinds == old(streamKinds)
      ensures !old(stopStream) ==> streamKinds == old(streamKinds) + [Sse.Classify(line)]
      ensures stream == Live ==> frames == old(frames) + Sse.Dispatched(Sse.Next(old(acc), Sse.Classify(line)).1)
      ensures var r := LineEffect(Environment(), handle, stopStream, old(acc), line, op, old(TurnOpen()));
        Took(r.1) && (stream == Done <==> r.1.ends) && (stream == Live ==> acc == r.0)
    {
      if stopStream {
        StreamExit(None);
      } else {
        FeedLine(line, op);
      }
    }

    /** The loop body past the stop check: feed the line to the accumulator and handle the frame it completes. */
    method FeedLine(line: string, op: OperatorReply)
      requires Valid() && HandlesFrames() && stream == Live && !stopStream
      modifies this`stream, this`acc, this`streamKinds, this`frames, this`delivered, this`requests, pending
      ensures Valid() && (stream == Live || stream == Done)
      ensures streamKinds == old(streamKinds) + [Sse.Classify(line)]
      ensures stream == Live ==> frames == old(frames) + Sse.Dispatched(Sse.Next(old(acc), Sse.Classify(line)).1)
      ensures var r := LineEffect(Environment(), handle, false, old(acc), line, op, old(TurnOpen()));
        Took(r.1) && (stream == Done <==> r.1.ends) && (stream == Live ==> acc == r.0)
    {
      var kind := Sse.Classify(line);
      var next := Sse.Next(acc, kind);
      Sse.ScanSnoc(streamKinds, kind);
      acc := next.0;
      streamKinds := streamKinds + [kind];
      frames := frames + Sse.Dispatched(next.1);
      if next.1.Some? {
        HandleSseEvent(next.1.value, op);
      }
    }

    /**
     * The stream loop over `lines` (with the operator's reply to each await-input frame), then,
     * when `end` is given, the end of the connection with its error, if any. However the loop
     * exits, no turn is left open.
     */
    method ConsumeStream(lines: seq<string>, ops: seq<OperatorReply>, end: Option<Option<string>>)
      requires Valid() && HandlesFrames() && stream == Live && |ops| == |lines|
      modifies this`stream, this`acc, this`streamKinds, this`frames, this`delivered, this`requests, pending
      ensures Valid()
      ensures stream == Live || stream == Done
      ensures stream == Done ==> !TurnOpen()
      ensures end.Some? ==> stream == Done
      ensures stream == Live ==> streamKinds == old(streamKinds) + Sse.Kinds(lines)
      ensures stream == Live ==> frames == Sse.ReferenceFrames(streamKinds) && acc == Sse.BlockState(Sse.OpenBlock(streamKinds))
      ensures old(requests) <= requests
      ensures var e := StreamEffect(old(Environment()), handle, old(stopStream), old(acc), lines, ops, end, old(TurnOpen()));
        Took(e) && (stream == Done <==> e.ends)
    {
      ghost var env, o0, open0, acc0 := Environment(), Observed(), TurnOpen(), acc;
      ReadLines(lines, ops);
      CloseConnection(end, env, o0, open0, LinesFrom(env, handle, stopStream, acc0, lines, ops, 0, open0));
      if stream == Live {
        Sse.ScanMatchesReference(streamKinds);
      }
    }

    /**
     * The end of the connection once the loop has done `e` from `o0`: when it ends while the
     * stream is live, the stream loop's `finally` runs with its error.
     */
    method CloseConnection(end: Option<Option<string>>, ghost env: Env, ghost o0: Observable, ghost open0: bool, ghost e: Effect)
      requires Valid() && (stream == Live || stream == Done) && env == Environment()
      requires open0 == (o0.turn == Turn(None)) && Observed() == After(o0, e) && (stream == Done <==> e.ends)
      modifies this`stream, this`delivered, pending
      ensures Valid() && (stream == Live || stream == Done) && pending == old(pending)
      ensures stream == Live ==> unchanged(this`stream, this`delivered) && end.None?
      ensures var whole := Ending(env, e, end, open0);
        Observed() == After(o0, whole) && (stream == Done <==> whole.ends)
    {
      if stream == Live && end.Some? {
        StreamExit(end.value);
        AfterThen(o0, e, Exit(env, open0 && e.resolution.None?, end.value));
      }
    }

    /** The stream loop over `lines`, until they run out or the stream ends. */
    method ReadLines(lines: seq<string>, ops: seq<OperatorReply>)
      requires Valid() && HandlesFrames() && stream == Live && |ops| == |lines|
      modifies this`stream, this`acc, this`streamKinds, this`frames, this`delivered, this`requests, pending
      ensures Valid() && (stream == Live || stream == Done)
      ensures stream == Live ==> streamKinds == old(streamKinds) + Sse.Kinds(lines)
      ensures var e := LinesFrom(old(Environment()), handle, old(stopStream), old(acc), lines, ops, 0, old(TurnOpen()));
        Took(e) && (stream == Done <==> e.ends)
    {
      ghost var env, o0 := Environment(), Observed();
      ghost var total := LinesFrom(env, handle, stopStream, acc, lines, ops, 0, TurnOpen());
      var i := 0;
      while i < |lines| && stream == Live
        invariant 0 <= i <= |lines| && pending == old(pending)
        invariant Reading(lines, ops, i, env, o0, total, old(streamKinds))
      {
        ReadNext(lines, ops, i, env, o0, total, old(streamKinds));
        i := i + 1;
      }
      ghost var rest := Rest(stream != Live, env, handle, stopStream, acc, lines, ops, i, TurnOpen());
      if stream == Live {
        assert lines[..i] == lines;
      }
      NothingAfter(Observed(), rest);
    }

    /** The account `ReadLines` keeps after reading `i` lines. */
    ghost predicate Reading(
      lines: seq<string>, ops: seq<OperatorReply>, i: nat, env: Env, o0: Observable, total: Effect, kinds0: seq<Sse.LineKind>)
      reads this, waiters, pending
    {
      && i <= |lines| && |ops| == |lines| && env == Environment()
      && Valid() && (stream == Live || stream == Done)
      && (stream == Live ==> streamKinds == kinds0 + Sse.Kinds(lines[..i]))
      && var rest := Rest(stream != Live, env, handle, stopStream, acc, lines, ops, i, TurnOpen());
        After(Observed(), rest) == After(o0, total) && rest.ends == total.ends
    }

    /**
     * One iteration of the loop in `ReadLines`: the `i`-th line is read, and what the lines after
     * it will do, done from the new state, still ends where the whole loop ends.
     */
    method ReadNext(
      lines: seq<string>, ops: seq<OperatorReply>, i: nat,
      ghost env: Env, ghost o0: Observable, ghost total: Effect, ghost kinds0: seq<Sse.LineKind>)
      requires HandlesFrames() && stream == Live && i < |lines|
      requires Reading(lines, ops, i, env, o0, total, kinds0)
      modifies this`stream, this`acc, this`streamKinds, this`frames, this`delivered, this`requests, pending
      ensures pending == old(pending) && Reading(lines, ops, i + 1, env, o0, total, kinds0)
    {
      ghost var o, open, a := Observed(), TurnOpen(), acc;
      ReadLine(lines[i], ops[i]);
      RestStep(env, handle, stopStream, a, lines, ops, i, o, open, acc, stream != Live, Observed(), TurnOpen());
      Sse.KindsAfter(kinds0, lines, i);
    }

    /** `loop.create_future()` into the empty slot, with the stream live to resolve it. */
    method OpenTurn() returns (f: Future)
      requires Valid() && !TurnOpen() && stream == Live
      modifies this`pending
      ensures Valid() && fresh(f) && pending == f && f.result.None?
    {
      f := new Future();
      pending := f;
    }

    /** The `finally` that empties the slot once no turn is open in it. */
    method ClearSlot()
      requires Valid() && !TurnOpen()
      modifies this`pending
      ensures Valid() && pending == null
    {
      pending := null;
    }

    /**
     * The part of `run_task`'s `try` before the wait: `_start_task`, then `_ensure_event_stream`.
     */
    method Prepare(query: string, sessionReply: Reply, createReply: Reply)
      returns (failure: Option<Failure>)
      requires Valid()
      modifies this`sessionId, this`currentTaskId, this`requests, this`stream, this`stopStream, this`acc,
               this`streamKinds, this`frames
      ensures Valid()
      ensures failure == PrepareFailure(old(sessionId), sessionReply, createReply)
      ensures requests == old(requests) + StartRequests(old(sessionId), sessionReply, query)
      ensures failure.None? ==> stream == Live && (stopStream, acc) == StreamStart(old(stream), old(stopStream), old(acc))
      ensures var session := SessionOutcome(old(sessionId), sessionReply);
        (session.Ok? ==> sessionId == session.value) && (session.Err? ==> sessionId == old(sessionId))
      ensures var started := StartOutcome(old(sessionId), sessionReply, createReply);
        (started.Ok? ==> currentTaskId == started.value) && (started.Err? ==> currentTaskId == old(currentTaskId))
    {
      var started := StartTask(query, sessionReply, createReply);
      if started.Err? {
        return Some(started.error);
      }
      failure := EnsureEventStream();
    }

    /**
     * The `except` clause of `run_task` and `resume_task`: the open turn, whoever waits for it,
     * is failed with the exception's text, and the exception is returned as a failure.
     */
    method Abandon(failure: Failure) returns (b: Begin)
      requires Valid()
      modifies this`delivered, pending
      ensures Valid() && !TurnOpen()
      ensures b == Returned(Caught(failure))
      ensures old(TurnOpen()) ==> pending.result == Some(FailedTurn(FailureText(failure), Some(FailureText(failure))))
      ensures delivered == old(delivered) + FailureCalls(old(TurnOpen()), FailureText(failure), Some(FailureText(failure)))
      ensures pending != null && old(pending.result).Some? ==> pending.result == old(pending.result)
    {
      var text := FailureText(failure);
      FailPendingTurnGracefully(text, Some(text));
      return Returned(Caught(failure));
    }

    /**
     * `run_task` up to its wait: refuse a blank query; start a task and attach the stream; then
     * open a new turn, unless one is already open. Any failure on the way fails the open turn,
     * whoever waits for it, and is returned.
     */
    method RunTask(query: Option<string>, sessionReply: Reply, createReply: Reply)
      returns (b: Begin)
      requires Valid()
      modifies this`sessionId, this`currentTaskId, this`requests, this`stream, this`stopStream, this`acc,
               this`streamKinds, this`frames, this`delivered, this`pending, this`waiters, pending
      ensures Valid()
      ensures BlankQuery(query) ==>
        && b == Returned(InvalidArgument(RunInvalidQuery))
        && requests == old(requests) && sessionId == old(sessionId) && currentTaskId == old(currentTaskId)
        && stream == old(stream) && pending == old(pending) && delivered == old(delivered)
      ensures !BlankQuery(query) ==>
        var failure := RunFailure(old(sessionId), sessionReply, createReply, old(TurnOpen()));
        && requests == old(requests) + StartRequests(old(sessionId), sessionReply, query.value)
        && (failure.Some? ==> b == Returned(Caught(failure.value)) && !TurnOpen() && pending == old(pending))
        && (failure.Some? && old(TurnOpen()) ==>
              old(pending).result == Some(FailedTurn(FailureText(failure.value), Some(FailureText(failure.value)))))
        && (failure.Some? ==>
              delivered == old(delivered) + FailureCalls(old(TurnOpen()), FailureText(failure.value), Some(FailureText(failure.value))))
        && (failure.None? ==> delivered == old(delivered))
        && (failure.None? ==>
              && b.Awaiting? && fresh(b.turn) && pending == b.turn && b.turn.result.None?
              && waiters == old(waiters) + {b.turn} && stream == Live)
      ensures b.Returned? ==> !b.result.success && FollowsConvention(b.result)
      ensures b.Returned? ==> waiters == old(waiters)
      ensures old(pending) != null && old(pending.result).Some? ==> old(pending).result == old(pending.result)
      ensures !BlankQuery(query) ==> var session := SessionOutcome(old(sessionId), sessionReply);
        (session.Ok? ==> sessionId == session.value) && (session.Err? ==> sessionId == old(sessionId))
      ensures !BlankQuery(query) ==> var started := StartOutcome(old(sessionId), sessionReply, createReply);
        (started.Ok? ==> currentTaskId == started.value) && (started.Err? ==> currentTaskId == old(currentTaskId))
      ensures !BlankQuery(query) && RunFailure(old(sessionId), sessionReply, createReply, old(TurnOpen())).None? ==>
        (stopStream, acc) == StreamStart(old(stream), old(stopStream), old(acc))
    {
      if BlankQuery(query) {
        return Returned(InvalidArgument(RunInvalidQuery));
      }
      b := Launch(query.value, sessionReply, createReply);
    }

    /**
     * The `try` of `run_task` for a query that passed the guard: start a task and attach the stream,
     * then find the slot empty.
     */
    method Launch(query: string, sessionReply: Reply, createReply: Reply)
      returns (b: Begin)
      requires Valid()
      modifies this`sessionId, this`currentTaskId, this`requests, this`stream, this`stopStream, this`acc,
               this`streamKinds, this`frames, this`delivered, this`pending, this`waiters, pending
      ensures Valid()
      ensures var failure := RunFailure(old(sessionId), sessionReply, createReply, old(TurnOpen()));
        && requests == old(requests) + StartRequests(old(sessionId), sessionReply, query)
        && (failure.Some? ==> b == Returned(Caught(failure.value)) && !TurnOpen() && pending == old(pending))
        && (failure.Some? && old(TurnOpen()) ==>
              old(pending).result == Some(FailedTurn(FailureText(failure.value), Some(FailureText(failure.value)))))
        && (failure.Some? ==>
              delivered == old(delivered) + FailureCalls(old(TurnOpen()), FailureText(failure.value), Some(FailureText(failure.value))))
        && (failure.None? ==> delivered == old(delivered))
        && (failure.None? ==>
              && b.Awaiting? && fresh(b.turn) && pending == b.turn && b.turn.result.None?
              && waiters == old(waiters) + {b.turn} && stream == Live)
      ensures b.Returned? ==> !b.result.success && FollowsConvention(b.result)
      ensures b.Returned? ==> waiters == old(waiters)
      ensures old(pending) != null && old(pending.result).Some? ==> old(pending).result == old(pending.result)
      ensures var session := SessionOutcome(old(sessionId), sessionReply);
        (session.Ok? ==> sessionId == session.value) && (session.Err? ==> sessionId == old(sessionId))
      ensures var started := StartOutcome(old(sessionId), sessionReply, createReply);
        (started.Ok? ==> currentTaskId == started.value) && (started.Err? ==> currentTaskId == old(currentTaskId))
      ensures RunFailure(old(sessionId), sessionReply, createReply, old(TurnOpen())).None? ==>
        (stopStream, acc) == StreamStart(old(stream), old(stopStream), old(acc))
    {
      var failure := Attempt(query, sessionReply, createReply);
      b := Settle(failure);
    }

    /** `run_task`'s `try` up to the slot check: the failure met on the way, if any. */
    method Attempt(query: string, sessionReply: Reply, createReply: Reply)
      returns (failure: Option<Failure>)
      requires Valid()
      modifies this`sessionId, this`currentTaskId, this`requests, this`stream, this`stopStream, this`acc,
               this`streamKinds, this`frames
      ensures Valid()
      ensures failure == RunFailure(old(sessionId), sessionReply, createReply, old(TurnOpen()))
      ensures requests == old(requests) + StartRequests(old(sessionId), sessionReply, query)
      ensures failure.None? ==> stream == Live && !TurnOpen()
      ensures failure.None? ==> (stopStream, acc) == StreamStart(old(stream), old(stopStream), old(acc))
      ensures var session := SessionOutcome(old(sessionId), sessionReply);
        (session.Ok? ==> sessionId == session.value) && (session.Err? ==> sessionId == old(sessionId))
      ensures var started := StartOutcome(old(sessionId), sessionReply, createReply);
        (started.Ok? ==> currentTaskId == started.value) && (started.Err? ==> currentTaskId == old(currentTaskId))
    {
      ghost var open := TurnOpen();
      failure := Prepare(query, sessionReply, createReply);
      assert TurnOpen() == open;
      if failure.None? && TurnOpen() {
        failure := Some(TurnInProgress);
      }
    }

    /** The end of `run_task`'s `try`: the failure met, if any, is caught; otherwise a new turn is awaited. */
    method Settle(failure: Option<Failure>) returns (b: Begin)
      requires Valid() && (failure.None? ==> !TurnOpen() && stream == Live)
      modifies this`delivered, this`pending, this`waiters, pending
      ensures Valid()
      ensures failure.Some? ==> b == Returned(Caught(failure.value)) && !TurnOpen() && pending == old(pending) && waiters == old(waiters)
      ensures failure.Some? && old(TurnOpen()) ==>
        old(pending).result == Some(FailedTurn(FailureText(failure.value), Some(FailureText(failure.value))))
      ensures failure.Some? ==>
        delivered == old(delivered) + FailureCalls(old(TurnOpen()), FailureText(failure.value), Some(FailureText(failure.value)))
      ensures failure.None? ==> delivered == old(delivered)
      ensures failure.None? ==>
        && b.Awaiting? && fresh(b.turn) && pending == b.turn && b.turn.result.None?
        && waiters == old(waiters) + {b.turn}
      ensures old(pending) != null && old(pending.result).Some? ==> old(pending).result == old(pending.result)
    {
      if failure.Some? {
        b := Abandon(failure.value);
        return;
      }
      var f := OpenTurn();
      waiters := waiters + {f};
      return Awaiting(f);
    }

    /**
     * The end of `_wait_for_turn_completion` once the awaited turn is resolved: its result is
     * returned and the slot is cleared, but only while it still holds this turn.
     */
    method AwaitTurn(turn: Future) returns (r: RunResult)
      requires Valid() && turn in waiters && turn.result.Some?
      modifies this`pending, this`waiters
      ensures Valid()
      ensures r == turn.result.value && FollowsConvention(r)
      ensures waiters == old(waiters) - {turn}
      ensures pending == if old(pending) == turn then null else old(pending)
    {
      r := turn.result.value;
      if pending == turn {
        pending := null;
      }
      waiters := waiters - {turn};
    }

    /**
     * The same `finally` as written: the slot is cleared whatever it holds by then. When another
     * caller has opened a turn meanwhile, that turn is left unresolved with an empty slot, where
     * nothing that resolves turns can reach it.
     */
    method AwaitTurnAsWritten(turn: Future) returns (r: RunResult)
      requires Valid() && turn in waiters && turn.result.Some?
      modifies this`pending, this`waiters
      ensures r == turn.result.value && FollowsConvention(r)
      ensures waiters == old(waiters) - {turn} && pending == null
      ensures old(TurnOpen()) ==> old(pending) != turn && old(pending).result.None? && !TurnOpen()
      ensures !old(TurnOpen()) ==> Valid()
    {
      r := turn.result.value;
      pending := null;
      waiters := waiters - {turn};
    }

    /**
     * The `try` of `resume_task` with no turn open: attach the stream, open a new turn and send the
     * resume; a refusal or an exception fails the new turn and clears the slot (the `finally`).
     */
    method SendResume(query: string, resumeReply: Reply) returns (b: Begin)
      requires Valid() && sessionId.Some? && currentTaskId.Some? && !TurnOpen()
      modifies this`requests, this`stream, this`stopStream, this`acc, this`streamKinds, this`frames,
               this`delivered, this`pending, this`waiters
      ensures Valid()
      ensures var verdict := ResumeVerdict(resumeReply);
        && requests == old(requests) + [Request(TaskResumePath, Some(query))]
        && (verdict.Raised? ==> b == Returned(Caught(verdict.failure)) && pending == null && waiters == old(waiters))
        && (verdict.Refused? ==> b == Returned(verdict.result) && pending == null && waiters == old(waiters))
        && delivered == old(delivered) + ResumeCalls(verdict)
        && (verdict.Accepted? ==>
              && b.Awaiting? && fresh(b.turn) && pending == b.turn && b.turn.result.None?
              && b.turn in waiters && stream == Live)
    {
      // The stream is attached before the new turn is put in the slot, so that an open turn always
      // has a live stream; with a session and a task this attachment cannot fail.
      var err := EnsureEventStream();
      assert err.None?;
      var f := OpenTurn();
      requests := requests + [Request(TaskResumePath, Some(query))];
      assert delivered == old(delivered) && callbacks == old(callbacks);
      b := Conclude(ResumeVerdict(resumeReply), f);
    }

    /**
     * The rest of `resume_task`'s `try` once the reply is judged: a refusal fails the new turn
     * with its reason, an exception with its text, and either clears the slot; an accepted
     * resume leaves the caller waiting for the new turn.
     */
    method Conclude(verdict: Verdict, turn: Future) returns (b: Begin)
      requires Valid() && pending == turn && turn.result.None? && turn !in waiters
      modifies this`delivered, this`pending, this`waiters, turn
      ensures Valid()
      ensures verdict.Raised? ==> b == Returned(Caught(verdict.failure)) && pending == null && waiters == old(waiters)
      ensures verdict.Refused? ==> b == Returned(verdict.result) && pending == null && waiters == old(waiters)
      ensures verdict.Raised? ==> turn.result == Some(FailedTurn(FailureText(verdict.failure), Some(FailureText(verdict.failure))))
      ensures verdict.Refused? ==> turn.result == Some(FailedTurn(verdict.result.reason, None))
      ensures delivered == old(delivered) + ResumeCalls(verdict)
      ensures verdict.Accepted? ==> b == Awaiting(turn) && pending == turn && turn.result.None? && waiters == old(waiters) + {turn}
    {
      match verdict
      case Raised(failure) =>
        b := Abandon(failure);
        ClearSlot();
      case Refused(refused) =>
        FailPendingTurnGracefully(refused.reason, None);
        ClearSlot();
        return Returned(refused);
      case Accepted =>
        waiters := waiters + {turn};
        return Awaiting(turn);
    }

    /**
     * `resume_task` up to its wait: refuse a blank query, a missing task and an open turn (the
     * open turn untouched); otherwise open a new turn and send the resume. A refusal by the
     * server, or any failure, fails the new turn, clears the slot and is returned.
     */
    method ResumeTask(newQuery: Option<string>, resumeReply: Reply) returns (b: Begin)
      requires Valid()
      modifies this`requests, this`stream, this`stopStream, this`acc, this`streamKinds, this`frames,
               this`delivered, this`pending, this`waiters
      ensures Valid()
      ensures BlankQuery(newQuery) ==>
        b == Returned(InvalidArgument(ResumeInvalidQuery)) && requests == old(requests) && pending == old(pending)
        && delivered == old(delivered)
      ensures !BlankQuery(newQuery) && (sessionId.None? || currentTaskId.None?) ==>
        && b == Returned(Failed("No active task to resume", Some("no_active_task"), NoRaw))
        && requests == old(requests) && pending == old(pending) && delivered == old(delivered)
      ensures !BlankQuery(newQuery) && sessionId.Some? && currentTaskId.Some? && old(TurnOpen()) ==>
        && b == Returned(Failed(ResumeInProgressMessage, Some("task_turn_in_progress"), NoRaw))
        && requests == old(requests) && pending == old(pending) && TurnOpen() && delivered == old(delivered)
      ensures !BlankQuery(newQuery) && sessionId.Some? && currentTaskId.Some? && !old(TurnOpen()) ==>
        var verdict := ResumeVerdict(resumeReply);
        && requests == old(requests) + [Request(TaskResumePath, newQuery)]
        && (verdict.Raised? ==> b == Returned(Caught(verdict.failure)) && pending == null)
        && (verdict.Refused? ==> b == Returned(verdict.result) && pending == null)
        && delivered == old(delivered) + ResumeCalls(verdict)
        && (verdict.Accepted? ==>
              && b.Awaiting? && fresh(b.turn) && pending == b.turn && b.turn.result.None?
              && b.turn in waiters && stream == Live)
      ensures b.Returned? ==> !b.result.success && waiters == old(waiters)
      ensures b.Returned? && !FollowsConvention(b.result) ==>
        resumeReply.Ok? && resumeReply.value.JObj? && !RefusalCoded(resumeReply.value)
    {
      if BlankQuery(newQuery) {
        return Returned(InvalidArgument(ResumeInvalidQuery));
      }
      if sessionId.None? || currentTaskId.None? {
        return Returned(Failed("No active task to resume", Some("no_active_task"), NoRaw));
      }
      if TurnOpen() {
        return Returned(Failed(ResumeInProgressMessage, Some("task_turn_in_progress"), NoRaw));
      }
      b := SendResume(newQuery.value, resumeReply);
    }

    /**
     * `stop_task`: raise the stop flag, ask the server to close the task when there is one,
     * wait for a live stream to end (with `streamEnd`, the error it ends with, if any), then
     * forget the stream and the task and fail whatever turn is still open. No turn is left open.
     */
    method StopTask(streamEnd: Option<string>)
      requires Valid()
      modifies this`stopStream, this`requests, this`stream, this`delivered, this`currentTaskId, this`pending, pending
      ensures Valid()
      ensures stopStream && stream == NoStream && currentTaskId == None && pending == null
      ensures requests == old(requests) +
        (if old(sessionId).Some? && old(currentTaskId).Some? then [Request(TaskClosePath, None)] else [])
      ensures forall w | w in waiters :: w.result.Some?
      ensures old(TurnOpen()) ==> old(pending).result == Some(FailedTurn(ExitReason(streamEnd), streamEnd))
      ensures delivered == old(delivered) + FailureCalls(old(TurnOpen()), ExitReason(streamEnd), streamEnd)
    {
      EndStream(streamEnd);
      Forget();
    }

    /**
     * The rest of `stop_task` once the stream has ended: forget the stream and the task, fail the
     * turn still open (none is, by then), and empty the slot.
     */
    method Forget()
      requires Valid() && !TurnOpen()
      modifies this`stream, this`currentTaskId, this`delivered, this`pending, pending
      ensures Valid() && stream == NoStream && currentTaskId == None && pending == null
      ensures forall w | w in waiters :: w.result.Some?
      ensures delivered == old(delivered)
      ensures old(pending) != null ==> old(pending).result == old(pending.result)
    {
      stream := NoStream;
      currentTaskId := None;
      FailPendingTurnGracefully(StopReason, None);
      pending := null;
    }

    /**
     * The first part of `stop_task`: the stop flag, the close request when there is a task, and
     * the end of a live stream, whose `finally` fails the open turn.
     */
    method EndStream(streamEnd: Option<string>)
      requires Valid()
      modifies this`stopStream, this`requests, this`stream, this`delivered, pending
      ensures Valid() && stopStream && stream != Live && !TurnOpen() && pending == old(pending)
      ensures requests == old(requests) +
        (if sessionId.Some? && currentTaskId.Some? then [Request(TaskClosePath, None)] else [])
      ensures old(TurnOpen()) ==> pending.result == Some(FailedTurn(ExitReason(streamEnd), streamEnd))
      ensures !old(TurnOpen()) ==> pending != null ==> pending.result == old(pending.result)
      ensures delivered == old(delivered) + FailureCalls(old(TurnOpen()), ExitReason(streamEnd), streamEnd)
    {
      stopStream := true;
      if sessionId.Some? && currentTaskId.Some? {
        requests := requests + [Request(TaskClosePath, None)];
        // Whatever the close request comes to, it is only logged.
      }
      if stream == Live {
        StreamExit(streamEnd);
      }
    }

    /**
     * One tool command (`start_app`, `delay`, `home`, `back`, `input_text`, `press_key`, `swipe`,
     * `tap`): its argument guard, then the session and one POST; the server's refusal, any
     * failure, or `"<name> executed"` with the reply as `raw`.
     */
    method RunTool(cmd: ToolCommand, sessionReply: Reply, reply: Reply) returns (r: RunResult)
      modifies this`sessionId, this`requests
      ensures ArgumentError(cmd).Some? ==>
        r == InvalidArgument(ArgumentError(cmd).value) && requests == old(requests) && sessionId == old(sessionId)
      ensures ArgumentError(cmd).None? ==>
        var session := SessionOutcome(old(sessionId), sessionReply);
        && (session.Err? ==> r == Caught(session.error) && requests == old(requests) + SessionRequests(old(sessionId)))
        && (session.Ok? ==> requests == old(requests) + SessionRequests(old(sessionId)) + [Request(ToolPath(cmd), None)])
        && (session.Ok? && reply.Err? ==> r == Caught(reply.error))
        && (session.Ok? && reply.Ok? && !reply.value.JObj? ==> r == Caught(Runtime(NoGetMessage(reply.value))))
        && (session.Ok? && reply.Ok? && reply.value.JObj? && Get(reply.value, "status") != Some(JStr("success")) ==>
              r == RejectionAsWritten(reply.value, ToolName(cmd) + "_failed", ToolUnknownError(cmd)))
        && (r.success <==> session.Ok? && reply.Ok? && reply.value.JObj? && Get(reply.value, "status") == Some(JStr("success")))
        && (r.success ==> r.output == ToolName(cmd) + " executed" && r.raw == RawResponse(reply.value))
      ensures !FollowsConvention(r) ==> reply.Ok? && reply.value.JObj? && !RefusalCoded(reply.value)
      ensures ArgumentError(cmd).None? ==> var session := SessionOutcome(old(sessionId), sessionReply);
        (session.Ok? ==> sessionId == session.value) && (session.Err? ==> sessionId == old(sessionId))
    {
      var guard := ArgumentError(cmd);
      if guard.Some? {
        return InvalidArgument(guard.value);
      }
      var session := EnsureSession(sessionReply);
      if session.Err? {
        return Caught(session.error);
      }
      requests := requests + [Request(ToolPath(cmd), None)];
      if reply.Err? {
        return Caught(reply.error);
      }
      var data := reply.value;
      if !data.JObj? {
        return Caught(Runtime(NoGetMessage(data)));
      }
      if Get(data, "status") != Some(JStr("success")) {
        return RejectionAsWritten(data, ToolName(cmd) + "_failed", ToolUnknownError(cmd));
      }
      return Succeeded(ToolName(cmd) + " executed", RawResponse(data));
    }
  }

  /** A creation reply reporting success and carrying the identifier `id` under `key`. */
  function Accepting(key: string, id: string): Json {
    JObj([("status", JStr("success")), (key, JStr(id))])
  }

  /** A creation reply reporting success yields the identifier it carries. */
  lemma AcceptedCreation(kind: ErrorKind, unknown: string, key: string, id: string)
    requires kind != SdkBase && key != "status"
    ensures Created(Ok(Accepting(key, id)), kind, unknown, key) == Ok(Some(JStr(id)))
  {
    var data := Accepting(key, id);
    assert data.members[..1] == [("status", JStr("success"))];
    assert Lookup(data.members[..1], "status") == Some(JStr("success"));
    assert Get(data, "status") == Some(JStr("success"));
  }

  /**
   * Replies accepting the session and the task creation, each with a non-null identifier, start
   * a task without failure, whether or not a session was cached.
   */
  lemma AcceptedStart(cached: Option<Json>, sid: string, tid: string)
    ensures RunFailure(cached, Ok(Accepting("session_id", sid)), Ok(Accepting("task_id", tid)), false) == None
  {
    AcceptedCreation(SessionCreation, "Unknown session creation error", "session_id", sid);
    AcceptedCreation(TaskStart, "Unknown task start error", "task_id", tid);
  }

  /**
   * A `run_task` call for a non-blank query, with no turn open, whose session and task creation
   * the server accepts: the caller is left waiting for a new turn.
   */
  method StartAccepted(agent: BluestacksAgent, query: string, sid: string, tid: string) returns (turn: Future)
    requires agent.Valid() && !agent.TurnOpen() && !BlankQuery(Some(query))
    modifies agent, agent.pending
    ensures agent.Valid() && fresh(turn) && turn.result.None? && agent.pending == turn && agent.stream == Live
    ensures agent.waiters == old(agent.waiters) + {turn}
  {
    AcceptedStart(agent.sessionId, sid, tid);
    var b := agent.RunTask(Some(query), Ok(Accepting("session_id", sid)), Ok(Accepting("task_id", tid)));
    turn := b.turn;
  }

  /**
   * Lines whose frames are all quiet, read from a live stream nobody has asked to stop: the stream
   * stays live, the turn stays as it was and nothing is sent.
   */
  method QuietStream(agent: BluestacksAgent, lines: seq<string>, ops: seq<OperatorReply>)
    requires agent.Valid() && agent.HandlesFrames() && agent.stream == Live && !agent.stopStream && |ops| == |lines|
    requires forall f | f in Sse.ScanFrom(agent.acc, Sse.Kinds(lines)).1 :: Quiet(agent.Environment(), f)
    modifies agent`stream, agent`acc, agent`streamKinds, agent`frames, agent`delivered, agent`requests, agent.pending
    ensures agent.Valid() && agent.stream == Live && agent.pending == old(agent.pending)
    ensures agent.TurnOpen() == old(agent.TurnOpen()) && agent.requests == old(agent.requests)
    ensures agent.pending != null ==> agent.pending.result == old(agent.pending.result)
  {
    assert lines[0..] == lines;
    QuietLines(agent.Environment(), agent.handle, agent.acc, lines, ops, 0, agent.TurnOpen());
    agent.ConsumeStream(lines, ops, None);
  }

  /** A new agent whose first `run_task` call is waiting for its turn. */
  method FirstCaller(decode: string -> Option<Json>) returns (agent: BluestacksAgent, first: Future)
    ensures fresh(agent) && fresh(first) && agent.Valid() && agent.HandlesFrames() && agent.waiters == {first} && first.result.None?
    ensures agent.pending == first && agent.stream == Live
  {
    agent := new BluestacksAgent(false, map[], decode);
    assert !BlankQuery(Some("open settings"));
    first := StartAccepted(agent, "open settings", "s-1", "t-1");
  }

  /**
   * Two callers of `run_task`: the first one's turn is failed when the connection closes, and the
   * second one opens a new turn before the first caller has resumed from its wait.
   */
  method TwoCallers(decode: string -> Option<Json>) returns (agent: BluestacksAgent, first: Future, second: Future)
    ensures fresh(agent) && agent.Valid() && first in agent.waiters && first.result.Some?
    ensures second in agent.waiters && second.result.None? && agent.pending == second && first != second
  {
    agent, first := FirstCaller(decode);
    agent.ConsumeStream([], [], Some(None));
    assert !BlankQuery(Some("go home"));
    second := StartAccepted(agent, "go home", "s-2", "t-2");
  }

  /**
   * As written, the first caller's `finally` empties the slot that holds the second turn: that
   * turn stays unresolved while nothing that resolves turns can reach it.
   */
  method OrphanedTurn(decode: string -> Option<Json>) returns (agent: BluestacksAgent, second: Future)
    ensures second in agent.waiters && second.result.None? && agent.pending == null
    ensures !agent.Valid()
  {
    var first;
    agent, first, second := TwoCallers(decode);
    var _ := agent.AwaitTurnAsWritten(first);
  }

  /** With the slot cleared only when it holds the caller's own turn, the second turn stays reachable. */
  method KeptTurn(decode: string -> Option<Json>) returns (agent: BluestacksAgent, second: Future)
    ensures second in agent.waiters && second.result.None? && agent.pending == second
    ensures agent.Valid()
  {
    var first;
    agent, first, second := TwoCallers(decode);
    var _ := agent.AwaitTurn(first);
  }
}
