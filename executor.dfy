/**
 * `execute_ssh_command` reduced to what the bot sees of it: the one string it
 * returns for a command, and the substring test its callers use to decide failure.
 */
module Executor {
  import opened Text

  /** The SSH coordinates of one server, as typed into the wizard. */
  datatype Host = Host(address: string, username: string, password: string)

  /**
   * What one remote run produced: paramiko raised an exception with message `str(e)`
   * (refused connection, failed login, timeout, undecodable output), or the command ran and
   * its standard output and standard error were read back as text.
   */
  datatype SshOutcome = Raised(message: string) | Finished(stdout: string, stderr: string)

  /** The word every error string of the bot starts with, and the callers' failure test. */
  const FailureMark: string := "خطا"

  /** The failure mark and its colon, the first four characters of every error text. */
  const ErrorPrefix: string := FailureMark + ":"

  const PermissionDenied: string := "Permission denied"

  /** The text returned from the `except` branch. */
  function ExceptionText(address: string, command: string, message: string): string {
    ErrorPrefix + " " + message + " - میزبان: " + address + ", دستور: " + command
  }

  /** The text returned when standard error reports a permission problem. */
  function DeniedText(command: string): string {
    ErrorPrefix + " دسترسی غیرمجاز برای اجرای دستور " + command
  }

  /** Standard error is non-empty and mentions "Permission denied". */
  predicate Denied(o: SshOutcome) {
    o.Finished? && o.stderr != "" && Contains(o.stderr, PermissionDenied)
  }

  /** The result string starts with the failure mark and a colon. */
  predicate MarkedFailure(r: string) {
    |r| >= 4 && r[..4] == ErrorPrefix
  }

  lemma PrefixMarked(rest: string)
    ensures MarkedFailure(ErrorPrefix + rest)
  {
    assert (ErrorPrefix + rest)[..4] == ErrorPrefix;
  }

  /** How callers read a result: any occurrence of the failure mark is a failure. */
  predicate IsFailure(r: string) {
    Contains(r, FailureMark)
  }

  /**
   * `execute_ssh_command` for the command `command` on the server `address`: an exception
   * or a permission problem becomes a marked error text naming the command; otherwise the
   * standard output is returned, or standard error when the output is empty.
   */
  function ShapeResult(address: string, command: string, o: SshOutcome): (r: string)
    ensures o.Raised? ==> MarkedFailure(r) && OccursAt(r, o.message, 5)
    ensures Denied(o) ==> MarkedFailure(r)
    ensures (o.Raised? || Denied(o)) ==> |command| <= |r| && r[|r| - |command|..] == command
    ensures o.Finished? && !Denied(o) ==> r == (if o.stdout != "" then o.stdout else o.stderr)
  {
    match o
    case Raised(message) =>
      PrefixMarked(" " + message + " - میزبان: " + address + ", دستور: " + command);
      assert ExceptionText(address, command, message)
          == ErrorPrefix + (" " + message + " - میزبان: " + address + ", دستور: " + command);
      ExceptionText(address, command, message)
    case Finished(stdout, stderr) =>
      if stderr != "" && Contains(stderr, PermissionDenied) then
        PrefixMarked(" دسترسی غیرمجاز برای اجرای دستور " + command);
        assert DeniedText(command) == ErrorPrefix + (" دسترسی غیرمجاز برای اجرای دستور " + command);
        DeniedText(command)
      else if stdout != "" then stdout
      else stderr
  }

  /** A marked error text is a failure for every caller. */
  lemma MarkedIsFailure(r: string)
    requires MarkedFailure(r)
    ensures IsFailure(r)
  {
    assert OccursAt(r, FailureMark, 0) by { assert r[..3] == r[..4][..3]; }
  }

  /**
   * The callers' failure test fires exactly on an exception, on a permission problem, or
   * when the text the command itself printed contains the failure mark.
   */
  lemma FailureIff(address: string, command: string, o: SshOutcome)
    ensures IsFailure(ShapeResult(address, command, o)) <==>
              o.Raised? || Denied(o)
              || IsFailure(if o.stdout != "" then o.stdout else o.stderr)
  {
    var r := ShapeResult(address, command, o);
    if o.Raised? || Denied(o) {
      MarkedIsFailure(r);
    }
  }

  /** Text that lacks the first character of t cannot contain t. */
  lemma AbsentFirstChar(s: string, t: string)
    requires |t| > 0 && t[0] !in s
    ensures !Contains(s, t)
  {
    forall i | 0 <= i <= |s| ensures !OccursAt(s, t, i) {
      if i + |t| <= |s| {
        assert s[i..i + |t|][0] == s[i] && s[i] in s;
      }
    }
  }

  /**
   * A command that ran and only printed the failure mark, say a log line, is taken as failed:
   * the test looks at the text, not at how the command ended.
   */
  lemma PrintedMarkIsFailure(address: string, command: string)
    ensures IsFailure(ShapeResult(address, command, Finished(FailureMark, "")))
  {
    assert OccursAt(FailureMark, FailureMark, 0);
  }

  /**
   * A command that failed with an error on standard error, but not a permission problem and
   * not carrying the failure mark, is taken as succeeded: its exit status is never looked at.
   */
  lemma SilentErrorIsSuccess(address: string, command: string)
    ensures !IsFailure(ShapeResult(address, command, Finished("", "No such file or directory")))
  {
    AbsentFirstChar("No such file or directory", PermissionDenied);
    AbsentFirstChar("No such file or directory", FailureMark);
  }
}
