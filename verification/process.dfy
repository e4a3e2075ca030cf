/** What one `subprocess.run` call can come to, as the handler sees it, and the
    failure text it keeps from a test run that exited non-zero.
 */
module Process {
  import opened Py

  /** The outcome of launching a process and waiting for it: it ran to an exit
      code with captured text output, it outlived its timeout and
      `TimeoutExpired` was raised, or some other exception was raised (the
      interpreter could not be started, the output could not be decoded, ...). */
  datatype Outcome =
    | Completed(exitCode: int, stdout: string, stderr: string)
    | TimedOut
    | LaunchError(message: string)

  /** A stage counts a process as passed only when it ran to exit code 0. */
  predicate Succeeded(o: Outcome) {
    o.Completed? && o.exitCode == 0
  }

  /** How many trailing characters of a failing test's output are kept. */
  const SnippetLimit := 4000

  /** Python's `a or b` on two strings: `a` unless it is empty. */
  function OrElse(a: string, b: string): (r: string)
    ensures a != [] ==> r == a
    ensures a == [] ==> r == b
  {
    if a != [] then a else b
  }

  /** The text kept from a failing test run: the last 4000 characters of its
      error output, or of its standard output when the error output is empty,
      or nothing when both are empty. */
  function FailureSnippet(stdout: string, stderr: string): (r: string)
    ensures |r| <= SnippetLimit
    ensures stderr != [] ==> |r| == Min(|stderr|, SnippetLimit) && r == stderr[|stderr| - |r|..]
    ensures stderr == [] ==> |r| == Min(|stdout|, SnippetLimit) && r == stdout[|stdout| - |r|..]
    ensures stderr == [] && stdout == [] ==> r == []
  {
    SliceFrom(OrElse(OrElse(stderr, stdout), ""), -SnippetLimit)
  }
}
