/**
 * The adb helpers: one command run under a timeout, and the dictionaries that `install`,
 * `uninstall`, `logcat` and `pm list packages` turn its outcome into. The process itself,
 * path resolution and the file-system check are inputs.
 */
module Adb {
  import Text

  /** How `subprocess.run` ended: an exit status with the captured output, or an exception. */
  datatype Process =
    | Exited(returnCode: int, stdout: string, stderr: string)
    | TimedOut
    | NotFound
    | Crashed(text: string)

  /** The process runner: the outcome of a command line under a timeout in seconds. */
  type Runner = (seq<string>, int) -> Process

  /** The dictionary `_run_adb_command` returns. */
  datatype CommandResult = CommandResult(success: bool, stdout: string, stderr: string, returnCode: int)

  /** The dictionary `adb_install` and `adb_uninstall` return. */
  datatype Outcome = Outcome(success: bool, message: string, error: string)

  /** The dictionary `adb_logcat` returns. */
  datatype Logs = Logs(success: bool, logs: string, error: string)

  /** The dictionary `adb_list_packages` returns. */
  datatype Packages = Packages(success: bool, packages: seq<string>, error: string)

  const NotFoundMessage := "ADB not found. Ensure Android SDK platform-tools is in PATH."

  /**
   * `_run_adb_command`: `adb` followed by `args`. Success is exactly a zero exit status; a
   * timeout, a missing binary or any other exception gives return code -1 and no output.
   */
  function RunAdbCommand(args: seq<string>, timeout: int, run: Runner): (r: CommandResult)
    ensures r.success <==> r.returnCode == 0
    ensures var p := run(["adb"] + args, timeout);
      && (p.Exited? ==> r.returnCode == p.returnCode && r.stdout == p.stdout && r.stderr == p.stderr)
      && (!p.Exited? ==> !r.success && r.returnCode == -1 && r.stdout == "")
      && (p.TimedOut? ==> r.stderr == "Command timed out after " + Text.IntToString(timeout) + " seconds")
      && (p.NotFound? ==> r.stderr == NotFoundMessage)
      && (p.Crashed? ==> r.stderr == p.text)
  {
    match run(["adb"] + args, timeout)
    case Exited(code, out, err) => CommandResult(code == 0, out, err, code)
    case TimedOut =>
      CommandResult(false, "", "Command timed out after " + Text.IntToString(timeout) + " seconds", -1)
    case NotFound => CommandResult(false, "", NotFoundMessage, -1)
    case Crashed(text) => CommandResult(false, "", text, -1)
  }

  /**
   * The verdict `adb_install` and `adb_uninstall` share: success when the command succeeded or
   * printed `Success`; otherwise the error is stderr, or stdout when stderr is empty.
   */
  function Judged(r: CommandResult, message: string): (o: Outcome)
    ensures o.success <==> r.success || Text.Contains(r.stdout, "Success")
    ensures o.success ==> o.message == message && o.error == ""
    ensures !o.success ==> o.message == "" && o.error == (if r.stderr != "" then r.stderr else r.stdout)
  {
    if r.success || Text.Contains(r.stdout, "Success") then Outcome(true, message, "")
    else Outcome(false, "", if r.stderr != "" then r.stderr else r.stdout)
  }

  /**
   * `adb_install`: resolve the path, refuse a missing file without running anything, then
   * `adb install -r <path>` with a 120-second timeout.
   */
  function Install(apkPath: string, resolve: string -> string, present: string -> bool, name: string -> string, run: Runner)
    : (o: Outcome)
    ensures var path := resolve(apkPath);
      var r := RunAdbCommand(["install", "-r", path], 120, run);
      && (o.success <==> present(path) && (r.success || Text.Contains(r.stdout, "Success")))
      && (!present(path) ==> o.message == "" && o.error == "APK file not found: " + path)
      && (o.success ==> o.message == "Successfully installed " + name(path) && o.error == "")
      && (present(path) && !o.success ==> o.message == "" && o.error == (if r.stderr != "" then r.stderr else r.stdout))
  {
    var path := resolve(apkPath);
    if !present(path) then Outcome(false, "", "APK file not found: " + path)
    else Judged(RunAdbCommand(["install", "-r", path], 120, run), "Successfully installed " + name(path))
  }

  /** `adb_uninstall`: `adb uninstall <package>` with a 60-second timeout. */
  function Uninstall(package: string, run: Runner): (o: Outcome)
    ensures var r := RunAdbCommand(["uninstall", package], 60, run);
      && (o.success <==> r.success || Text.Contains(r.stdout, "Success"))
      && (o.success ==> o.message == "Successfully uninstalled " + package)
      && (!o.success ==> o.error == (if r.stderr != "" then r.stderr else r.stdout))
  {
    Judged(RunAdbCommand(["uninstall", package], 60, run), "Successfully uninstalled " + package)
  }

  /** `adb_logcat`: the last `lines` log lines; on success the logs, on failure stderr. */
  function Logcat(lines: int, run: Runner): (l: Logs)
    ensures var r := RunAdbCommand(["logcat", "-d", "-t", Text.IntToString(lines)], 30, run);
      && (l.success <==> r.success)
      && (l.success ==> l.logs == r.stdout && l.error == "")
      && (!l.success ==> l.logs == "" && l.error == r.stderr)
  {
    var r := RunAdbCommand(["logcat", "-d", "-t", Text.IntToString(lines)], 30, run);
    if r.success then Logs(true, r.stdout, "") else Logs(false, "", r.stderr)
  }

  /**
   * A line of `pm list packages` output names a package: it is not blank and starts with
   * `package:`. The non-blank test is implied by the prefix test.
   */
  predicate Contributes(line: string)
    ensures Contributes(line) <==> Text.StartsWith(line, "package:")
  {
    Text.StripEmptyIffBlank(line);
    assert Text.StartsWith(line, "package:") ==> line[0] == 'p';
    Text.Strip(line) != "" && Text.StartsWith(line, "package:")
  }

  /** The package a contributing line names: every `package:` removed, then whitespace trimmed. */
  function PackageName(line: string): (r: string)
    ensures |r| <= |line|
    ensures !Text.Contains(line, "package:") ==> r == Text.Strip(line)
  {
    Text.Strip(Text.RemoveAll(line, "package:"))
  }

  /** The list comprehension over the output lines, in output order. */
  function ParsePackages(lines: seq<string>): (ps: seq<string>)
    ensures |ps| <= |lines|
  {
    if lines == [] then []
    else (if Contributes(lines[0]) then [PackageName(lines[0])] else []) + ParsePackages(lines[1..])
  }

  /** A name is listed exactly when some contributing line names it. */
  lemma {:induction false} ParsePackagesMembers(lines: seq<string>, p: string)
    ensures p in ParsePackages(lines) <==> exists i :: 0 <= i < |lines| && Contributes(lines[i]) && p == PackageName(lines[i])
  {
    if lines != [] {
      ParsePackagesMembers(lines[1..], p);
      if p in ParsePackages(lines[1..]) {
        var i :| 0 <= i < |lines[1..]| && Contributes(lines[1..][i]) && p == PackageName(lines[1..][i]);
        assert lines[i + 1] == lines[1..][i];
      }
      if exists i :: 0 <= i < |lines| && Contributes(lines[i]) && p == PackageName(lines[i]) {
        var i :| 0 <= i < |lines| && Contributes(lines[i]) && p == PackageName(lines[i]);
        if i > 0 {
          assert lines[1..][i - 1] == lines[i];
        }
      }
    }
  }

  /**
   * `adb_list_packages`: on success the named packages, sorted ascending; on failure none, with
   * stderr as the error.
   */
  function ListPackages(run: Runner): (p: Packages)
    ensures var r := RunAdbCommand(["shell", "pm", "list", "packages"], 30, run);
      && (p.success <==> r.success)
      && (p.success ==> Text.Sorted(p.packages) && p.error == "")
      && (p.success ==> multiset(p.packages) == multiset(ParsePackages(Text.Split(r.stdout, '\n'))))
      && (!p.success ==> p.packages == [] && p.error == r.stderr)
  {
    var r := RunAdbCommand(["shell", "pm", "list", "packages"], 30, run);
    if r.success then Packages(true, Text.SortStrings(ParsePackages(Text.Split(r.stdout, '\n'))), "")
    else Packages(false, [], r.stderr)
  }
}
