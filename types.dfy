/** The outcome record of one turn or tool command, and the event record callbacks receive. */
module Types {
  import opened Wrappers
  import opened Json

  /**
   * The event dictionary handed to callbacks: its `type`, the decoded `data` payload, the
   * convenience fields copied out of the payload, and `output`, which only completed and
   * synthetic error events carry (`None` when the key is absent).
   */
  datatype Event = Event(
    name: Option<string>,
    data: Json,
    stepIndex: Json,
    taskState: Json,
    timestamp: Json,
    responses: Json,
    delta: Json,
    output: Option<string>)

  /** The `raw` field: nothing, an event dictionary, or a decoded response body. */
  datatype Raw = NoRaw | RawEvent(event: Event) | RawResponse(body: Json)

  datatype RunResult = RunResult(
    success: bool,
    output: string,
    reason: string,
    errorCode: Option<string>,
    needsInput: bool,
    inputPrompt: Option<string>,
    responses: Json,
    delta: Json,
    raw: Raw)

  /** `RunResult(success, output, reason)`: every field not given takes its declared default. */
  function MakeRunResult(success: bool, output: string, reason: string): (r: RunResult)
    ensures r.success == success && r.output == output && r.reason == reason
    ensures r.errorCode == None
    ensures !r.needsInput && r.inputPrompt == None
    ensures r.responses == JArr([]) && r.delta == JNull && r.raw == NoRaw
  {
    RunResult(success, output, reason, None, false, None, JArr([]), JNull, NoRaw)
  }

  /**
   * The documented convention: a success carries an empty reason and no error code;
   * a failure carries a non-empty error code.
   */
  predicate FollowsConvention(r: RunResult) {
    if r.success then r.reason == "" && r.errorCode == None
    else r.errorCode.Some? && r.errorCode.value != ""
  }

  /** The failure shape every failing path of the agent builds: no output, no responses, no delta. */
  function Failed(reason: string, code: Option<string>, raw: Raw): (r: RunResult)
    ensures !r.success && r.output == "" && r.reason == reason && r.errorCode == code && r.raw == raw
    ensures !r.needsInput && r.inputPrompt == None && r.responses == JArr([]) && r.delta == JNull
    ensures FollowsConvention(r) <==> code.Some? && code.value != ""
  {
    RunResult(false, "", reason, code, false, None, JArr([]), JNull, raw)
  }

  /** The success shape of the tool commands: a fixed output text and the response body as `raw`. */
  function Succeeded(output: string, raw: Raw): (r: RunResult)
    ensures r.success && r.output == output && r.raw == raw
    ensures FollowsConvention(r)
  {
    RunResult(true, output, "", None, false, None, JArr([]), JNull, raw)
  }
}
