/** The SDK's exception taxonomy: a base error with a machine-readable code and its subclasses. */
module Errors {
  import opened Wrappers

  /** The exception classes: the base class and each subclass. */
  datatype ErrorKind =
    | SdkBase | SessionCreation | TaskStart | TaskStatus | TaskResume | UITree | Screenshot
    | StartApp | Delay | HomeCommand | BackCommand | InputText | PressKey | Swipe | Tap

  /** The default `code` argument of each subclass constructor. */
  function DefaultCode(k: ErrorKind): (c: string)
    requires k != SdkBase
    ensures c != "" && c != FallbackCode
  {
    match k
    case SessionCreation => "session_creation_failed"
    case TaskStart => "task_start_failed"
    case TaskStatus => "task_status_failed"
    case TaskResume => "task_resume_failed"
    case UITree => "ui_tree_failed"
    case Screenshot => "screenshot_failed"
    case StartApp => "start_app_failed"
    case Delay => "delay_failed"
    case HomeCommand => "home_failed"
    case BackCommand => "back_failed"
    case InputText => "input_text_failed"
    case PressKey => "press_key_failed"
    case Swipe => "swipe_failed"
    case Tap => "tap_failed"
  }

  /** An exception's `code` is never empty: the constructor replaces an empty one. */
  type Code = s: string | s != "" witness "sdk_error"

  datatype SdkError = SdkError(kind: ErrorKind, message: string, code: Code)

  const FallbackCode := "sdk_error"

  /** The base constructor: the code given, or `sdk_error` when it is `None` or empty. */
  function NewSdkError(kind: ErrorKind, message: string, code: Option<string>): (e: SdkError)
    ensures e.kind == kind && e.message == message
    ensures code.Some? && code.value != "" ==> e.code == code.value
    ensures code.None? || code.value == "" ==> e.code == FallbackCode
    ensures e.code != ""
  {
    SdkError(kind, message, if code.Some? && code.value != "" then code.value else FallbackCode)
  }

  /** A subclass constructed with only a message: its own default code. */
  function Raise(kind: ErrorKind, message: string): (e: SdkError)
    requires kind != SdkBase
    ensures e.kind == kind && e.message == message && e.code == DefaultCode(kind)
  {
    NewSdkError(kind, message, Some(DefaultCode(kind)))
  }

  /** `str(e)`: the message, then the code on a line of its own. */
  function Text(e: SdkError): (t: string)
    ensures t == e.message + "\nError code: " + e.code
    ensures t[..|e.message|] == e.message
    ensures t[|t| - |e.code|..] == e.code
  {
    e.message + "\nError code: " + e.code
  }

  /** What an `except Exception` clause can catch: an SDK error, or any other exception by its text. */
  datatype Failure = Sdk(err: SdkError) | Runtime(text: string)

  /** The `err_code` the agent's handlers derive: the SDK code, or `sdk_runtime_error`. */
  function FailureCode(f: Failure): (c: string)
    ensures c != ""
    ensures f.Sdk? ==> c == f.err.code
  {
    match f
    case Sdk(e) => e.code
    case Runtime(_) => "sdk_runtime_error"
  }

  /** `str(e)` for any caught exception. */
  function FailureText(f: Failure): string {
    match f
    case Sdk(e) => Text(e)
    case Runtime(t) => t
  }

  /** `str(KeyError(key))`. */
  function KeyErrorText(key: string): string {
    "'" + key + "'"
  }

  /** Each subclass's default code differs from every other one and from the fallback. */
  lemma DefaultCodesDistinct(k1: ErrorKind, k2: ErrorKind)
    requires k1 != SdkBase && k2 != SdkBase
    ensures DefaultCode(k1) != FallbackCode
    ensures DefaultCode(k1) == DefaultCode(k2) ==> k1 == k2
  {
  }
}
