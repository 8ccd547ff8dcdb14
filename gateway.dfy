/**
 * The request helpers `_post` and `_get`: one HTTP exchange, classified into the decoded body
 * or the error the helper raises.
 */
module Gateway {
  import opened Wrappers
  import opened Json
  import opened Errors
  import Text

  datatype Verb = HttpPost | HttpGet

  /**
   * What the HTTP client produced for one request: a timeout, any other transport error,
   * or a response with its status and its body decoded as JSON (`None` when it is not JSON).
   */
  datatype Response = TimedOut | ConnectFailed | Received(status: int, body: Option<Json>)

  const ConnectFailedMessage :=
    "Could not connect to BlueStacks AppPlayer. Please ensure that BlueStacks AppPlayer is running and you have configured API_KEY properly"

  function TimeoutMessage(v: Verb): string {
    match v
    case HttpPost => "Connection with BlueStacks AppPlayer timed out"
    case HttpGet => "Connection with App Player timed out"
  }

  /** The error raised for a decoded body that came with a status other than 200. */
  function StatusFailure(status: int, data: Json): (f: Failure)
    ensures !data.JObj? ==> f == Runtime(NoGetMessage(data))
    ensures data.JObj? ==> f.Sdk? && f.err.kind == SdkBase
    ensures data.JObj? ==>
      var e := Get(data, "error");
      && (e.Some? && e.value.JStr? && e.value.s != "" ==> f.err.code == e.value.s)
      && (e.None? || !Truthy(e.value) ==> f.err.code == "http_error")
    ensures data.JObj? ==>
      var m := Get(data, "message");
      && (m.Some? && m.value.JStr? && m.value.s != "" ==> f.err.message == m.value.s)
      && (m.None? || !Truthy(m.value) ==> f.err.message == "HTTP " + Text.IntToString(status))
  {
    if !data.JObj? then Runtime(NoGetMessage(data))
    else
      var error := GetOrElse(data, "error", JStr("http_error"));
      var message := GetOrElse(data, "message", JStr("HTTP " + Text.IntToString(status)));
      TruthyTextNonEmpty(error);
      Sdk(NewSdkError(SdkBase, PyStr(message), Some(PyStr(error))))
  }

  /**
   * One call of `_post` or `_get`: the decoded body exactly when the exchange completed with
   * status 200 and a JSON body; otherwise the error the helper raises.
   */
  function Send(v: Verb, path: string, resp: Response): (r: Result<Json, Failure>)
    ensures r.Ok? <==> resp.Received? && resp.status == 200 && resp.body.Some?
    ensures r.Ok? ==> r.value == resp.body.value
    ensures resp.TimedOut? ==>
      r == Err(Sdk(NewSdkError(SdkBase, TimeoutMessage(v), Some("connection_timeout"))))
    ensures resp.ConnectFailed? ==>
      r == Err(Sdk(NewSdkError(SdkBase, ConnectFailedMessage, Some("connection_failed"))))
    ensures resp.Received? && resp.body.None? ==>
      r == Err(Sdk(NewSdkError(SdkBase, "Non-JSON response from " + path, Some("invalid_response"))))
    ensures resp.Received? && resp.body.Some? && resp.status != 200 ==>
      r == Err(StatusFailure(resp.status, resp.body.value))
  {
    match resp
    case TimedOut => Err(Sdk(NewSdkError(SdkBase, TimeoutMessage(v), Some("connection_timeout"))))
    case ConnectFailed => Err(Sdk(NewSdkError(SdkBase, ConnectFailedMessage, Some("connection_failed"))))
    case Received(status, body) =>
      if body.None? then Err(Sdk(NewSdkError(SdkBase, "Non-JSON response from " + path, Some("invalid_response"))))
      else if status != 200 then Err(StatusFailure(status, body.value))
      else Ok(body.value)
  }
}
