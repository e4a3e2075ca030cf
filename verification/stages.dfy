/** The two stages a push runs: the test stage launches every configured test
    file that exists, one after another, and passes only when each of them ran
    to exit code 0; the deploy stage launches the deploy script when it exists
    and passes only when that run exits 0.

    The file system and the processes are a `map` from test file name to the
    outcome its run would have: a name that is not a key is a file that does
    not exist, and an absent deploy script is `None`.
 */
module Stages {
  import opened Py
  import opened Process

  /** One process launch, as it appears in a delivery's trace. */
  datatype Launch = RunTest(file: string) | RunDeploy

  /** What the test stage made of one configured file. */
  datatype Verdict =
    | Skipped
    | Passed
    | Failed(snippet: string)
    | Expired
    | Crashed(error: string)

  datatype FileReport = FileReport(file: string, verdict: Verdict)

  datatype TestRun = TestRun(launches: seq<Launch>, reports: seq<FileReport>, passed: bool)

  datatype DeployRun = DeployRun(launches: seq<Launch>, ok: bool)

  /** The verdict on an existing test file whose run had outcome `o`: a timeout
      or a launch exception fails the file just as a non-zero exit does. */
  function Judge(o: Outcome): (v: Verdict)
    ensures v.Passed? <==> Succeeded(o)
    ensures !v.Skipped?
    ensures o.TimedOut? ==> v == Expired
    ensures o.LaunchError? ==> v == Crashed(o.message)
    ensures o.Completed? && o.exitCode != 0 ==> v == Failed(FailureSnippet(o.stdout, o.stderr))
  {
    match o
    case Completed(code, out, err) => if code == 0 then Passed else Failed(FailureSnippet(out, err))
    case TimedOut => Expired
    case LaunchError(e) => Crashed(e)
  }

  /** How many of `files` exist. The launch of an existing `files[i]` is the
      `CountExisting(files[..i], host)`-th one. */
  function CountExisting(files: seq<string>, host: map<string, Outcome>): (k: nat)
    ensures k <= |files|
  {
    if files == [] then 0
    else CountExisting(files[..|files| - 1], host) + (if files[|files| - 1] in host then 1 else 0)
  }

  /** The loop over the configured test files. Each file is looked at in turn,
      and the loop never stops early: a missing file is skipped, an existing one
      is launched and judged, and any verdict other than `Passed` clears the
      flag the stage returns. */
  function TestStage(files: seq<string>, host: map<string, Outcome>): (r: TestRun)
    ensures |r.reports| == |files|
    ensures forall i :: 0 <= i < |files| ==> r.reports[i].file == files[i]
    ensures forall i :: 0 <= i < |files| && files[i] !in host ==> r.reports[i].verdict == Skipped
    ensures forall i :: 0 <= i < |files| && files[i] in host ==> r.reports[i].verdict == Judge(host[files[i]])
    ensures r.passed <==> forall i :: 0 <= i < |files| && files[i] in host ==> Succeeded(host[files[i]])
    decreases |files|
  {
    if files == [] then TestRun([], [], true)
    else
      var prev := TestStage(files[..|files| - 1], host);
      var f := files[|files| - 1];
      if f !in host then
        TestRun(prev.launches, prev.reports + [FileReport(f, Skipped)], prev.passed)
      else
        var v := Judge(host[f]);
        TestRun(prev.launches + [RunTest(f)], prev.reports + [FileReport(f, v)], prev.passed && v.Passed?)
  }

  /** Every existing test file is launched exactly once and in configured order,
      whatever became of the files before it, and nothing else is launched: the
      launch of an existing `files[i]` comes after those of the existing files
      before it. */
  lemma {:induction false} TestLaunchOrder(files: seq<string>, host: map<string, Outcome>)
    ensures var r := TestStage(files, host);
            && |r.launches| == CountExisting(files, host)
            && (forall l :: l in r.launches ==> l.RunTest? && l.file in files && l.file in host)
            && (forall i :: 0 <= i < |files| && files[i] in host ==>
                  CountExisting(files[..i], host) < |r.launches| &&
                  r.launches[CountExisting(files[..i], host)] == RunTest(files[i]))
    decreases |files|
  {
    if files != [] {
      var n := |files| - 1;
      var prefix := files[..n];
      TestLaunchOrder(prefix, host);
      var prev := TestStage(prefix, host);
      var r := TestStage(files, host);
      assert files == prefix + [files[n]];
      forall i | 0 <= i < |files| && files[i] in host
        ensures CountExisting(files[..i], host) < |r.launches|
        ensures r.launches[CountExisting(files[..i], host)] == RunTest(files[i])
      {
        if i < n {
          assert files[..i] == prefix[..i];
          assert prefix[i] == files[i];
        } else {
          assert files[..i] == prefix;
        }
      }
    }
  }

  /** Appending a file to the configuration appends at most its own launch. */
  lemma TestStageSnoc(files: seq<string>, f: string, host: map<string, Outcome>)
    ensures TestStage(files + [f], host).launches ==
              TestStage(files, host).launches + (if f in host then [RunTest(f)] else [])
  {
    assert (files + [f])[..|files|] == files;
  }

  /** Which test files get launched, and in which order, depends only on which
      files exist and never on how earlier runs ended: there is no short circuit. */
  lemma {:induction false} LaunchesIgnoreOutcomes(files: seq<string>, host1: map<string, Outcome>, host2: map<string, Outcome>)
    requires host1.Keys == host2.Keys
    ensures TestStage(files, host1).launches == TestStage(files, host2).launches
    decreases |files|
  {
    if files != [] {
      LaunchesIgnoreOutcomes(files[..|files| - 1], host1, host2);
    }
  }

  /** The deploy stage: a missing script fails the stage without launching
      anything; otherwise the script is launched once and the stage passes
      exactly when it exits 0. */
  function DeployStage(script: Option<Outcome>): (r: DeployRun)
    ensures script.None? ==> r.launches == [] && !r.ok
    ensures script.Some? ==> r.launches == [RunDeploy]
    ensures r.ok <==> script.Some? && Succeeded(script.value)
  {
    match script
    case None => DeployRun([], false)
    case Some(o) => DeployRun([RunDeploy], Succeeded(o))
  }
}
