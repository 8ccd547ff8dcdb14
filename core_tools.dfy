/**
 * The device tools: each runs one agent command and projects its `RunResult` into a
 * `ToolResult` with a message of its own; the screenshot and UI-tree tools turn an exception
 * into a failed result instead.
 */
module CoreTools {
  import opened Wrappers
  import opened Types
  import Text
  import opened Agent

  /** The `ToolResult` record; `message`, `error` and `error_code` default to `""`, `""` and `None`. */
  datatype ToolResult = ToolResult(success: bool, message: string, error: string, errorCode: Option<string>)

  /** The `ScreenshotResult` record. */
  datatype ScreenshotResult = ScreenshotResult(success: bool, imageBase64: string, error: string)

  /** The `UITreeResult` record. */
  datatype UiTreeResult = UiTreeResult(success: bool, uiTree: string, error: string)

  const TypedLimit := 50

  /** The `type_input` message: at most the first 50 characters, with `...` when some were cut. */
  function TypedMessage(text: string): (m: string)
    ensures |text| <= TypedLimit ==> m == "Typed text: '" + text + "'"
    ensures |text| > TypedLimit ==> m == "Typed text: '" + text[..TypedLimit] + "...'"
    ensures |m| <= 14 + TypedLimit + 3
  {
    "Typed text: '" + Text.Take(text, TypedLimit) + (if |text| > TypedLimit then "..." else "") + "'"
  }

  /** The message each tool reports on success, from the arguments it passed to the agent. */
  function SuccessMessage(cmd: ToolCommand): (m: string)
    ensures m != ""
  {
    match cmd
    case Tap(x, y) => "Tapped at (" + Text.IntToString(x) + ", " + Text.IntToString(y) + ")"
    case Swipe(sx, sy, ex, ey, _) =>
      "Swiped from (" + Text.IntToString(sx) + ", " + Text.IntToString(sy) + ") to ("
      + Text.IntToString(ex) + ", " + Text.IntToString(ey) + ")"
    case PressKey(keycode) => "Pressed key: " + Text.IntToString(keycode)
    case InputText(text) => TypedMessage(text)
    case Back => "Pressed back button"
    case Home => "Navigated to home screen"
    case Delay(ms) => "Waited " + Text.IntToString(ms) + "ms"
    case StartApp(package, _) => "Started " + (if package.Some? then package.value else "None")
  }

  /**
   * `tap_screen`, `swipe_screen`, `press_key`, `type_input`, `go_back`, `go_home`, `wait_delay`
   * and `start_app`: the agent's result for `cmd` projected into a `ToolResult`. Success and the
   * error code are copied; the message appears only on success and the reason only on failure.
   */
  function Project(cmd: ToolCommand, r: RunResult): (t: ToolResult)
    ensures t.success == r.success && t.errorCode == r.errorCode
    ensures t.message != "" <==> r.success
    ensures r.success ==> t.message == SuccessMessage(cmd) && t.error == ""
    ensures !r.success ==> t.message == "" && t.error == r.reason
  {
    ToolResult(
      r.success,
      if r.success then SuccessMessage(cmd) else "",
      if !r.success then r.reason else "",
      r.errorCode)
  }

  /**
   * For a result that follows the `RunResult` convention (as every result of the agent's tool
   * commands does), the tool result keeps it: an error code exactly on failure, never empty, and
   * a non-empty error text whenever the reason was.
   */
  lemma ProjectKeepsConvention(cmd: ToolCommand, r: RunResult)
    requires FollowsConvention(r)
    ensures var t := Project(cmd, r);
      && (t.errorCode.None? <==> t.success)
      && (t.errorCode.Some? ==> t.errorCode.value != "")
      && (t.success ==> t.error == "" && t.message != "")
      && (!t.success ==> t.message == "" && (t.error != "" <==> r.reason != ""))
  {
  }

  /**
   * `type_input`'s message shows the whole text when it is short, and otherwise only a 50-character
   * prefix followed by `...`, so the text can be read back from the message exactly when nothing
   * was cut.
   */
  lemma {:induction false} TypedMessageShowsText(text: string, other: string)
    requires |text| <= TypedLimit && |other| <= TypedLimit
    ensures TypedMessage(text) == TypedMessage(other) <==> text == other
  {
    var m, n := TypedMessage(text), TypedMessage(other);
    if m == n {
      assert m[13..|m| - 1] == text;
      assert n[13..|n| - 1] == other;
    }
  }

  /** Two long texts sharing their first 50 characters give the same message. */
  lemma TypedMessageCuts(text: string, other: string)
    requires |text| > TypedLimit && |other| > TypedLimit && text[..TypedLimit] == other[..TypedLimit]
    ensures TypedMessage(text) == TypedMessage(other)
  {
  }

  /**
   * `take_screenshot`: the agent's PNG bytes (or the text of the exception it raised), encoded
   * with `encode` (Base64), and written to `path` when one is given, where `written` is the text
   * of the exception the write raised, if any. Any exception becomes a failure carrying its text.
   */
  function TakeScreenshot(shot: Result<seq<bv8>, string>, encode: seq<bv8> -> string, path: Option<string>, written: Option<string>)
    : (s: ScreenshotResult)
    ensures s.success <==> shot.Ok? && (path.None? || path.value == "" || written.None?)
    ensures s.success ==> s.imageBase64 == encode(shot.value) && s.error == ""
    ensures shot.Err? ==> s.error == shot.error && s.imageBase64 == ""
    ensures !s.success && shot.Ok? ==> s.error == written.value && s.imageBase64 == ""
  {
    match shot
    case Err(e) => ScreenshotResult(false, "", e)
    case Ok(png) =>
      if path.Some? && path.value != "" && written.Some? then ScreenshotResult(false, "", written.value)
      else ScreenshotResult(true, encode(png), "")
  }

  /** `get_ui_tree`: the agent's UI hierarchy text, or the text of the exception it raised. */
  function GetUiTree(tree: Result<string, string>): (u: UiTreeResult)
    ensures u.success <==> tree.Ok?
    ensures tree.Ok? ==> u.uiTree == tree.value && u.error == ""
    ensures tree.Err? ==> u.uiTree == "" && u.error == tree.error
  {
    match tree
    case Ok(t) => UiTreeResult(true, t, "")
    case Err(e) => UiTreeResult(false, "", e)
  }
}
