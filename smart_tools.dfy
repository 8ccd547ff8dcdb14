/**
 * The task tools: each builds a prompt, runs it as one agent turn, always stops the task
 * afterwards, and projects the turn's `RunResult` into its own record. The prompt builders'
 * template text is a parameter.
 */
module SmartTools {
  import opened Wrappers
  import opened Types
  import opened Agent
  import Sse

  /** The `TaskResult` record. */
  datatype TaskResult = TaskResult(success: bool, output: string, error: string, errorCode: Option<string>)

  /** The `TestReportResult` record; `error_code` defaults to `None`. */
  datatype TestReportResult = TestReportResult(success: bool, reportMarkdown: string, error: string, errorCode: Option<string>)

  /**
   * What one turn meets: the replies to the session and task creation requests, the stream lines
   * that arrive before the turn ends (with the operator's reply to each await-input frame), the
   * error, if any, with which the connection ends when they leave the turn open, and the one with
   * which a live stream ends when the task is stopped.
   */
  datatype TurnInputs = TurnInputs(
    sessionReply: Reply,
    createReply: Reply,
    lines: seq<string>,
    ops: seq<OperatorReply>,
    connectionEnd: Option<string>,
    stopEnd: Option<string>)

  /** `run_android_task`'s projection: success and the code copied, output only on success, error only on failure. */
  function ToTaskResult(r: RunResult): (t: TaskResult)
    ensures t.success == r.success && t.errorCode == r.errorCode
    ensures r.success ==> t.output == r.output && t.error == ""
    ensures !r.success ==> t.output == "" && t.error == r.reason
  {
    TaskResult(r.success, if r.success then r.output else "", if !r.success then r.reason else "", r.errorCode)
  }

  /** The report tools' projection: the output is the report on success; a failure keeps its reason and code. */
  function ToReport(r: RunResult): (t: TestReportResult)
    ensures t.success == r.success
    ensures r.success ==> t.reportMarkdown == r.output && t.error == "" && t.errorCode == None
    ensures !r.success ==> t.reportMarkdown == "" && t.error == r.reason && t.errorCode == r.errorCode
  {
    if r.success then TestReportResult(true, r.output, "", None)
    else TestReportResult(false, "", r.reason, r.errorCode)
  }

  /**
   * For a result that follows the convention, the two projections carry the same information:
   * the report is the task output, and the error and its code agree. (A success carrying an error
   * code would keep it in a `TaskResult` but not in a report.)
   */
  lemma ReportAgreesWithTask(r: RunResult)
    requires FollowsConvention(r)
    ensures var t := ToTaskResult(r);
      ToReport(r) == TestReportResult(t.success, t.output, t.error, t.errorCode)
  {
  }

  /**
   * The result a waiting caller resumes with when its turn is open on a stream that starts from
   * the stop flag and accumulator `start`: the first resolution the stream's lines bring, or
   * failing one, the failure the end of the connection brings. It always exists and follows the
   * convention.
   */
  function TurnOutcome(env: Env, handle: Handler, start: (bool, Sse.Accumulator), io: TurnInputs): (r: RunResult)
    requires Handles(handle) && |io.ops| == |io.lines|
    ensures Some(r) == StreamEffect(env, handle, start.0, start.1, io.lines, io.ops, Some(io.connectionEnd), true).resolution
    ensures FollowsConvention(r)
  {
    StreamSettles(env, handle, start.0, start.1, io.lines, io.ops, io.connectionEnd, true);
    StreamEffect(env, handle, start.0, start.1, io.lines, io.ops, Some(io.connectionEnd), true).resolution.value
  }

  /**
   * `agent.run_task(prompt)` followed by `agent.stop_task()`: the turn is run to its end (the
   * stream's lines, then the end of the connection if the turn is still open), and the task is
   * stopped whatever the result was.
   */
  method RunThenStop(agent: BluestacksAgent, prompt: string, io: TurnInputs) returns (r: RunResult)
    requires agent.Valid() && agent.HandlesFrames() && |io.ops| == |io.lines|
    modifies agent, agent.pending
    ensures agent.Valid()
    ensures FollowsConvention(r)
    ensures agent.stopStream && agent.stream == NoStream && agent.currentTaskId == None && agent.pending == null
    ensures forall w | w in agent.waiters :: w.result.Some?
    ensures BlankQuery(Some(prompt)) ==> r == InvalidArgument(RunInvalidQuery)
    ensures !BlankQuery(Some(prompt)) ==>
      old(agent.requests) + StartRequests(old(agent.sessionId), io.sessionReply, prompt) <= agent.requests
    ensures var failure := RunFailure(old(agent.sessionId), io.sessionReply, io.createReply, old(agent.TurnOpen()));
      !BlankQuery(Some(prompt)) && failure.Some? ==> r == Caught(failure.value)
    ensures var failure := RunFailure(old(agent.sessionId), io.sessionReply, io.createReply, old(agent.TurnOpen()));
      !BlankQuery(Some(prompt)) && failure.None? ==>
        r == TurnOutcome(Env(old(agent.callbacks), agent.useDefaultCallbacks, agent.decode, true), agent.handle,
                         StreamStart(old(agent.stream), old(agent.stopStream), old(agent.acc)), io)
  {
    var b := agent.RunTask(Some(prompt), io.sessionReply, io.createReply);
    r := FinishTurn(agent, b, io);
  }

  /**
   * The wait of `run_task` and the `stop_task` after it: a caller left waiting reads the stream's
   * lines, then the end of the connection if its turn is still open, and resumes with the turn's
   * result; a call that returned at once keeps its result. The task is stopped either way.
   */
  method FinishTurn(agent: BluestacksAgent, b: Begin, io: TurnInputs) returns (r: RunResult)
    requires agent.Valid() && agent.HandlesFrames() && |io.ops| == |io.lines|
    requires b.Awaiting? ==> b.turn in agent.waiters && agent.pending == b.turn && b.turn.result.None? && agent.stream == Live
    requires b.Returned? ==> FollowsConvention(b.result)
    modifies agent, agent.pending
    ensures agent.Valid() && FollowsConvention(r)
    ensures agent.stopStream && agent.stream == NoStream && agent.currentTaskId == None && agent.pending == null
    ensures forall w | w in agent.waiters :: w.result.Some?
    ensures b.Returned? ==> r == b.result
    ensures b.Awaiting? ==> b.turn.result == Some(r)
    ensures b.Awaiting? ==> r == TurnOutcome(old(agent.Environment()), agent.handle, (old(agent.stopStream), old(agent.acc)), io)
    ensures old(agent.requests) <= agent.requests
  {
    if b.Returned? {
      r := b.result;
    } else {
      ReadTurn(agent, io);
      r := agent.AwaitTurnAsWritten(b.turn);
    }
    agent.StopTask(io.stopEnd);
  }

  /**
   * The stream as the waiting caller meets it: the lines, then the end of the connection if the
   * turn is still open. The turn is then resolved with its outcome.
   */
  method ReadTurn(agent: BluestacksAgent, io: TurnInputs)
    requires agent.Valid() && agent.HandlesFrames() && |io.ops| == |io.lines| && agent.stream == Live && agent.TurnOpen()
    modifies agent`stream, agent`acc, agent`streamKinds, agent`frames, agent`delivered, agent`requests, agent.pending
    ensures agent.Valid() && agent.pending == old(agent.pending) && old(agent.requests) <= agent.requests
    ensures agent.pending.result == Some(TurnOutcome(old(agent.Environment()), agent.handle, (old(agent.stopStream), old(agent.acc)), io))
  {
    OutcomeParts(agent.Environment(), agent.handle, (agent.stopStream, agent.acc), io);
    agent.ConsumeStream(io.lines, io.ops, None);
    if agent.stream == Live && agent.TurnOpen() {
      LoseConnection(agent, io.connectionEnd);
    }
  }

  /** The connection of a live stream ends, with `error` if any, while the turn is open: the turn fails with its reason. */
  method LoseConnection(agent: BluestacksAgent, error: Option<string>)
    requires agent.Valid() && agent.HandlesFrames() && agent.stream == Live && agent.TurnOpen()
    modifies agent`stream, agent`acc, agent`streamKinds, agent`frames, agent`delivered, agent`requests, agent.pending
    ensures agent.Valid() && agent.pending == old(agent.pending) && old(agent.requests) <= agent.requests
    ensures agent.pending.result == Some(FailedTurn(ExitReason(error), error))
  {
    agent.ConsumeStream([], [], Some(error));
  }

  /**
   * The outcome of a waiting turn is the first resolution the stream's lines bring, and when they
   * bring none, the failure of the lost connection with its error.
   */
  lemma OutcomeParts(env: Env, handle: Handler, start: (bool, Sse.Accumulator), io: TurnInputs)
    requires Handles(handle) && |io.ops| == |io.lines|
    ensures var lines := LinesFrom(env, handle, start.0, start.1, io.lines, io.ops, 0, true);
      && (lines.resolution.Some? ==> TurnOutcome(env, handle, start, io) == lines.resolution.value)
      && (lines.resolution.None? ==> TurnOutcome(env, handle, start, io) == FailedTurn(ExitReason(io.connectionEnd), io.connectionEnd))
      && (lines.resolution.None? ==> !lines.ends)
  {
    LinesSettle(env, handle, start.0, start.1, io.lines, io.ops, 0, true);
  }

  /** `run_android_task`: the query runs as one turn, the task is stopped, and the result is projected. */
  method RunAndroidTask(agent: BluestacksAgent, query: string, io: TurnInputs) returns (t: TaskResult, r: RunResult)
    requires agent.Valid() && agent.HandlesFrames() && |io.ops| == |io.lines|
    modifies agent, agent.pending
    ensures agent.Valid()
    ensures t == ToTaskResult(r)
    ensures FollowsConvention(r)
    ensures var failure := RunFailure(old(agent.sessionId), io.sessionReply, io.createReply, old(agent.TurnOpen()));
      !BlankQuery(Some(query)) && failure.Some? ==> r == Caught(failure.value)
    ensures var failure := RunFailure(old(agent.sessionId), io.sessionReply, io.createReply, old(agent.TurnOpen()));
      !BlankQuery(Some(query)) && failure.None? ==>
        r == TurnOutcome(Env(old(agent.callbacks), agent.useDefaultCallbacks, agent.decode, true), agent.handle,
                         StreamStart(old(agent.stream), old(agent.stopStream), old(agent.acc)), io)
    ensures agent.stopStream && agent.stream == NoStream && agent.currentTaskId == None && agent.pending == null
    ensures t.success <==> t.errorCode.None?
    ensures t.success ==> t.error == ""
    ensures !t.success ==> t.output == "" && t.errorCode.value != ""
    ensures BlankQuery(Some(query)) ==> t == ToTaskResult(InvalidArgument(RunInvalidQuery))
    ensures !BlankQuery(Some(query)) ==>
      old(agent.requests) + StartRequests(old(agent.sessionId), io.sessionReply, query) <= agent.requests
  {
    r := RunThenStop(agent, query, io);
    t := ToTaskResult(r);
  }

  /**
   * `generate_test_report`: the prompt `build` makes from the app's name and description runs as
   * one turn, the task is stopped, and the result is projected into a report.
   */
  method GenerateTestReport(
    agent: BluestacksAgent, appName: string, appDescription: Option<string>,
    build: (string, Option<string>) -> string, io: TurnInputs)
    returns (t: TestReportResult, r: RunResult)
    requires agent.Valid() && agent.HandlesFrames() && |io.ops| == |io.lines|
    modifies agent, agent.pending
    ensures agent.Valid()
    ensures t == ToReport(r)
    ensures FollowsConvention(r)
    ensures var failure := RunFailure(old(agent.sessionId), io.sessionReply, io.createReply, old(agent.TurnOpen()));
      !BlankQuery(Some(build(appName, appDescription))) && failure.Some? ==> r == Caught(failure.value)
    ensures var failure := RunFailure(old(agent.sessionId), io.sessionReply, io.createReply, old(agent.TurnOpen()));
      !BlankQuery(Some(build(appName, appDescription))) && failure.None? ==>
        r == TurnOutcome(Env(old(agent.callbacks), agent.useDefaultCallbacks, agent.decode, true), agent.handle,
                         StreamStart(old(agent.stream), old(agent.stopStream), old(agent.acc)), io)
    ensures agent.stopStream && agent.stream == NoStream && agent.currentTaskId == None && agent.pending == null
    ensures t.success <==> t.errorCode.None?
    ensures t.success ==> t.error == ""
    ensures !t.success ==> t.reportMarkdown == "" && t.errorCode.value != ""
    ensures var prompt := build(appName, appDescription);
      !BlankQuery(Some(prompt)) ==>
        old(agent.requests) + StartRequests(old(agent.sessionId), io.sessionReply, prompt) <= agent.requests
  {
    var prompt := build(appName, appDescription);
    r := RunThenStop(agent, prompt, io);
    t := ToReport(r);
  }

  /**
   * `test_feature`: the prompt `build` makes from the app, the feature's name and its
   * description runs as one turn, the task is stopped, and the result is projected into a report.
   */
  method TestFeature(
    agent: BluestacksAgent, appName: string, featureName: string, featureDescription: string,
    build: (string, string, string) -> string, io: TurnInputs)
    returns (t: TestReportResult, r: RunResult)
    requires agent.Valid() && agent.HandlesFrames() && |io.ops| == |io.lines|
    modifies agent, agent.pending
    ensures agent.Valid()
    ensures t == ToReport(r)
    ensures FollowsConvention(r)
    ensures var failure := RunFailure(old(agent.sessionId), io.sessionReply, io.createReply, old(agent.TurnOpen()));
      !BlankQuery(Some(build(appName, featureName, featureDescription))) && failure.Some? ==> r == Caught(failure.value)
    ensures var failure := RunFailure(old(agent.sessionId), io.sessionReply, io.createReply, old(agent.TurnOpen()));
      !BlankQuery(Some(build(appName, featureName, featureDescription))) && failure.None? ==>
        r == TurnOutcome(Env(old(agent.callbacks), agent.useDefaultCallbacks, agent.decode, true), agent.handle,
                         StreamStart(old(agent.stream), old(agent.stopStream), old(agent.acc)), io)
    ensures agent.stopStream && agent.stream == NoStream && agent.currentTaskId == None && agent.pending == null
    ensures t.success <==> t.errorCode.None?
    ensures t.success ==> t.error == ""
    ensures !t.success ==> t.reportMarkdown == "" && t.errorCode.value != ""
    ensures var prompt := build(appName, featureName, featureDescription);
      !BlankQuery(Some(prompt)) ==>
        old(agent.requests) + StartRequests(old(agent.sessionId), io.sessionReply, prompt) <= agent.requests
  {
    var prompt := build(appName, featureName, featureDescription);
    r := RunThenStop(agent, prompt, io);
    t := ToReport(r);
  }
}
