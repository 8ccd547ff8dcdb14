/**
 * `_handle_sse_event` without its callbacks: how one dispatched frame becomes the event
 * record handed to the callbacks, what it asks the agent to do next, and, for
 * `task_completed`, the `RunResult` that resolves a waiting turn.
 */
module Frames {
  import opened Wrappers
  import opened Json
  import opened Types

  /**
   * What the frame asks of the agent once `on_event` has seen it; `Unreadable` is a completion
   * whose result block raises `error` when it is read, which ends the stream.
   */
  datatype Action =
    | ReportProgress
    | AwaitInput
    | Complete(result: RunResult, completed: Event)
    | Unreadable(error: string)
    | NoAction

  /** The event record `on_event` receives, and the action the frame asks for. */
  datatype Handled = Handled(event: Event, action: Action)

  /** A completion carries a conventional result whose `raw` is the event `on_completed` receives. */
  predicate Conventional(h: Handled) {
    h.action.Complete? ==> FollowsConvention(h.action.result) && h.action.result.raw == RawEvent(h.action.completed)
  }

  const TaskCompleted := "task_completed"
  const TaskProgress := "task_progress"
  const TaskAwaitInput := "task_await_input"

  /** The decoded payload; data that is not JSON is kept under the key `raw`. */
  function Payload(data: string, decoded: Option<Json>): (p: Json)
    ensures decoded.None? ==> p.JObj? && Get(p, "raw") == Some(JStr(data))
    ensures decoded.Some? ==> p == decoded.value
  {
    if decoded.Some? then decoded.value else JObj([("raw", JStr(data))])
  }

  /** `len(output)`: defined for text, lists and dictionaries, a `TypeError` otherwise. */
  function OutputText(j: Json): (r: Result<string, string>)
    ensures r.Err? <==> j.JNull? || j.JBool? || j.JNumber?
    ensures j.JStr? ==> r == Ok(j.s)
    ensures r.Err? ==> r.error == "object of type '" + TypeName(j) + "' has no len()"
  {
    match j
    case JStr(s) => Ok(s)
    case JArr(_) => Ok(PyStr(j))
    case JObj(_) => Ok(PyStr(j))
    case _ => Err("object of type '" + TypeName(j) + "' has no len()")
  }

  /** `result.get("output", "")` can be read and measured. */
  predicate Readable(block: Json) {
    block.JObj? && OutputText(GetOr(block, "output", JStr(""))).Ok?
  }

  /** `payload.get("result", {}) or {}` */
  function ResultBlock(payload: Json): Json
    requires payload.JObj?
  {
    Or(GetOr(payload, "result", JObj([])), JObj([]))
  }

  /**
   * The turn outcome a `task_completed` frame carries, read from its `result` block; the
   * error is the text of the exception raised while reading it.
   */
  function CompletedResult(block: Json, event: Event): (r: Result<RunResult, string>)
    ensures !block.JObj? ==> r == Err(NoGetMessage(block))
    ensures r.Ok? <==> Readable(block)
    ensures r.Ok? ==> block.JObj? && FollowsConvention(r.value)
    ensures r.Ok? ==> (r.value.success <==> Get(block, "status") == Some(JStr("success")))
    ensures r.Ok? ==> r.value.reason == (if r.value.success then "" else "task_failed")
    ensures r.Ok? && !r.value.success ==>
      var e := Get(block, "error");
      && (e.Some? && e.value.JStr? && e.value.s != "" ==> r.value.errorCode == Some(e.value.s))
      && (e.None? || !Truthy(e.value) ==> r.value.errorCode == Some("task_failed"))
    ensures r.Ok? ==>
      var o := Get(block, "output");
      && (o.None? ==> r.value.output == "")
      && (o.Some? && o.value.JStr? ==> r.value.output == o.value.s)
    ensures r.Ok? ==> r.value.responses == event.responses && r.value.delta == event.delta
    ensures r.Ok? ==> r.value.raw == RawEvent(event.(output := Some(r.value.output)))
    ensures r.Ok? ==> !r.value.needsInput && r.value.inputPrompt == None
  {
    if !block.JObj? then Err(NoGetMessage(block))
    else
      var out := OutputText(GetOr(block, "output", JStr("")));
      var success := Get(block, "status") == Some(JStr("success"));
      var error := GetOrElse(block, "error", JStr("task_failed"));
      var code: Option<string> := if success then None else Some(PyStr(error));
      if out.Err? then Err(out.error)
      else
        assert !success ==> Truthy(error) && PyStr(error) != "" by {
          if !success { TruthyTextNonEmpty(error); }
        }
        Ok(RunResult(success, out.value, if success then "" else "task_failed", code, false, None,
                     event.responses, event.delta, RawEvent(event.(output := Some(out.value)))))
  }

  /**
   * One frame: the event record and the action it asks for, or the text of the exception
   * raised while reading it before any callback sees it.
   */
  function HandleFrame(name: Option<string>, data: string, decoded: Option<Json>): (r: Result<Handled, string>)
    ensures var p := Payload(data, decoded);
      && (r.Err? <==> !p.JObj?)
      && (r.Err? ==> r.error == NoGetMessage(p))
    ensures decoded.None? ==> r.Ok?
    ensures r.Ok? ==> r.value.event.name == name && r.value.event.data == Payload(data, decoded)
    ensures r.Ok? ==>
      var rs := Get(r.value.event.data, "responses");
      && (rs.Some? && Truthy(rs.value) ==> r.value.event.responses == rs.value)
      && (rs.None? || !Truthy(rs.value) ==> r.value.event.responses == JArr([]))
    ensures r.Ok? ==>
      (r.value.action.Complete? <==> name == Some(TaskCompleted) && Readable(ResultBlock(r.value.event.data)))
    ensures r.Ok? ==>
      (r.value.action.Unreadable? <==> name == Some(TaskCompleted) && !Readable(ResultBlock(r.value.event.data)))
    ensures r.Ok? ==> (r.value.action == ReportProgress <==> name == Some(TaskProgress))
    ensures r.Ok? ==> (r.value.action == AwaitInput <==> name == Some(TaskAwaitInput))
    ensures r.Ok? && r.value.action.Complete? ==>
      CompletedResult(ResultBlock(r.value.event.data), r.value.event) == Ok(r.value.action.result)
    ensures r.Ok? && r.value.action.Unreadable? ==>
      CompletedResult(ResultBlock(r.value.event.data), r.value.event) == Err(r.value.action.error)
    ensures r.Ok? ==> r.value.event.output == None && Conventional(r.value)
  {
    var payload := Payload(data, decoded);
    if !payload.JObj? then Err(NoGetMessage(payload))
    else
      var event := Event(name, payload, GetOr(payload, "step_index", JNull), GetOr(payload, "task_state", JNull),
                         GetOr(payload, "timestamp", JNull), Or(GetOr(payload, "responses", JArr([])), JArr([])),
                         GetOr(payload, "delta", JNull), None);
      if name == Some(TaskProgress) then Ok(Handled(event, ReportProgress))
      else if name == Some(TaskAwaitInput) then Ok(Handled(event, AwaitInput))
      else if name == Some(TaskCompleted) then
        match CompletedResult(ResultBlock(payload), event)
        case Err(e) => Ok(Handled(event, Unreadable(e)))
        case Ok(res) => Ok(Handled(event, Complete(res, res.raw.event)))
      else Ok(Handled(event, NoAction))
  }

  /**
   * The console summary of a completion, printed when default callbacks are on and no
   * `on_completed` is registered: it reads `payload["result"]` and prints its `output` on
   * success or its `message` otherwise. The text of the exception that raises, if any.
   */
  function SummaryError(payload: Json): (e: Option<string>)
    requires payload.JObj?
    ensures Get(payload, "result").None? ==> e == Some("'result'")
    ensures var b := Get(payload, "result"); b.Some? && !b.value.JObj? ==> e == Some(NoGetMessage(b.value))
    ensures var b := Get(payload, "result");
      b.Some? && b.value.JObj? ==>
        var key := if Get(b.value, "status") == Some(JStr("success")) then "output" else "message";
        (e.None? <==> Get(b.value, key).None? || Get(b.value, key).value.JStr?)
  {
    match Get(payload, "result")
    case None => Some("'result'")
    case Some(block) =>
      if !block.JObj? then Some(NoGetMessage(block))
      else
        var shown := if Get(block, "status") == Some(JStr("success")) then GetOr(block, "output", JStr(""))
                     else GetOr(block, "message", JStr(""));
        if shown.JStr? then None
        else Some("can only concatenate str (not \"" + TypeName(shown) + "\") to str")
  }
}
