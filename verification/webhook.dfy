/** The decision a POST to the webhook server comes to: which processes it
    launches, in which order, and which status and body it answers with.

    A delivery is decoded as JSON and its repository field is read for the log;
    only a `push` event then goes on to `handle_push`, which derives branch,
    commit count and clone URL from the payload, runs the test stage and runs
    the deploy stage only when the test stage passed. Whatever the stages come
    to, a POST during which nothing raised is answered 200 with a fixed success
    body; an exception anywhere is answered 500 with a JSON error body carrying
    its message.
 */
module Webhook {
  import opened Py
  import opened PyJson
  import opened Process
  import opened Stages
  import JsonText
  import opened Branch

  /** The request body after `int(Content-Length)`, `rfile.read`, UTF-8 decoding
      and `json.loads`: the decoded value, or the text of the exception one of
      those steps raised. */
  datatype Body = Decoded(payload: Json) | Undecodable(error: string)

  /** A POST: the `X-GitHub-Event` header, if present, and the body. */
  datatype Request = Request(event: Option<string>, body: Body)

  /** The world the stages see: the outcome each existing test file's run would
      have, keyed by file name, and the deploy script's outcome if it exists. */
  datatype Host = Host(tests: map<string, Outcome>, deploy: Option<Outcome>)

  /** What `handle_push` derives from the payload before running anything. */
  datatype PushInfo = PushInfo(branch: string, commits: nat, cloneUrl: Json)

  /** A push that got past its derivations: the test stage's run, and the deploy
      stage's run if the deploy stage was entered. */
  datatype PushRun = PushRun(info: PushInfo, tests: TestRun, deploy: Option<DeployRun>) {
    function Launches(): seq<Launch> {
      tests.launches + (if deploy.Some? then deploy.value.launches else [])
    }
  }

  /** Which path a delivery took. The server only logs this; its answer tells
      just `InternalError` apart from the rest. */
  datatype Terminal = Ignored | TestsFailed | Deployed | DeployFailed | InternalError

  /** The processes a delivery launched, in order, and the answer it got. */
  datatype Reply = Reply(launches: seq<Launch>, status: int, body: string, terminal: Terminal)

  const PushEvent := "push"
  const DefaultEvent := "unknown"
  const UnitTests := "test_unit.py"
  const ApiTests := "test_api.py"

  /** The configured test files, in the order they run. */
  const TestFiles := [UnitTests, ApiTests]

  /** The body `_ok` writes. */
  const SuccessBody := "{\"status\":\"success\",\"message\":\"Webhook processed\"}"

  /** What `json.dumps` writes before the message, with its default ", " and ": "
      separators. */
  const ErrorPrefix := "{\"status\": \"error\", \"message\": "

  /** The body `_err` writes: a two-key JSON object, `status` "error" and
      `message` the exception text, as `json.dumps` lays it out.
      It is ASCII, so its UTF-8 bytes are its characters' codes. */
  function ErrorBody(msg: string): (b: string)
    ensures ParseErrorBody(b) == Some(msg)
    ensures JsonText.Ascii(b)
  {
    var q := JsonText.Quote(msg);
    Wrapped(ErrorPrefix, q);
    ErrorPrefixIsAscii();
    WrappedAscii(ErrorPrefix, q);
    ErrorPrefix + q + "}"
  }

  lemma ErrorPrefixIsAscii()
    ensures JsonText.Ascii(ErrorPrefix)
  {
  }

  /** The string literal between `prefix` and a closing brace, decoded. */
  function Unwrap(prefix: string, b: string): Option<string> {
    var n := |prefix|;
    if n + 3 <= |b| && b[..n] == prefix && b[n] == '"' && b[|b| - 2..] == "\"}"
    then JsonText.Unescape(b[n + 1..|b| - 2])
    else None
  }

  /** `Unwrap` reads back a quoted literal placed between a prefix and a closing
      brace. */
  lemma Wrapped(prefix: string, q: string)
    requires |q| >= 2 && q[0] == '"' && q[|q| - 1] == '"'
    ensures Unwrap(prefix, prefix + q + "}") == JsonText.Unescape(q[1..|q| - 1])
  {
    var n := |prefix|;
    var tail := q + "}";
    var b := prefix + tail;
    assert b == prefix + q + "}";
    assert |b| == n + |q| + 1;
    assert b[..n] == prefix;
    assert b[n..] == tail;
    assert b[n] == '"';
    assert tail[|q| - 1..] == "\"}";
    assert b[|b| - 2..] == tail[|q| - 1..];
    assert tail[1..|q| - 1] == q[1..|q| - 1];
    assert b[n + 1..|b| - 2] == tail[1..|q| - 1];
  }

  /** ASCII parts make an ASCII whole. */
  lemma WrappedAscii(prefix: string, q: string)
    requires JsonText.Ascii(prefix) && JsonText.Ascii(q)
    ensures JsonText.Ascii(prefix + q + "}")
  {
  }

  /** The message an error body carries, or None for text that is not one. */
  function ParseErrorBody(b: string): Option<string> {
    Unwrap(ErrorPrefix, b)
  }

  /** The success body is not an error body. */
  lemma SuccessBodyIsNoError()
    ensures ParseErrorBody(SuccessBody) == None
  {
    assert SuccessBody[10] != ErrorPrefix[10];
  }

  /** The event kind: the `X-GitHub-Event` header, or "unknown" without one. */
  function EventKind(req: Request): string {
    match req.event
    case Some(e) => e
    case None => DefaultEvent
  }

  /** The repository lookup the handler does for its log line, before it looks
      at the event: `get` on the payload, then `get` on its `repository` (an
      empty dict when absent). It runs for every event, and raises unless the
      payload is an object whose `repository`, if present, is an object too. */
  function RepositoryOf(payload: Json): (r: Result<map<string, Json>>)
    ensures r.Ok? <==> payload.Dict? && ("repository" in payload.fields ==> payload.fields["repository"].Dict?)
    ensures !payload.Dict? ==> r == Raised(NoAttribute(payload, "get"))
    ensures payload.Dict? && "repository" in payload.fields && !payload.fields["repository"].Dict? ==>
              r == Raised(NoAttribute(payload.fields["repository"], "get"))
    ensures r.Ok? && "repository" !in payload.fields ==> r.value == map[]
  {
    match GetAttr(payload, "repository", Dict(map[]))
    case Raised(m) => Raised(m)
    case Ok(repo) =>
      match GetAttr(repo, "full_name", Str(DefaultEvent))
      case Raised(m) => Raised(m)
      case Ok(_) => Ok(repo.fields)
  }

  /** The derivations at the start of `handle_push`. `ref` must be a string and
      `commits` must have a length; the `ref` check comes first. */
  function DerivePush(fields: map<string, Json>, repo: map<string, Json>): (r: Result<PushInfo>)
    ensures r.Ok? <==> ("ref" in fields ==> fields["ref"].Str?) && ("commits" in fields ==> HasLength(fields["commits"]))
    ensures "ref" in fields && !fields["ref"].Str? ==> r == Raised(NoAttribute(fields["ref"], "replace"))
    ensures ("ref" in fields ==> fields["ref"].Str?) && "commits" in fields && !HasLength(fields["commits"]) ==>
              r == Raised(NoLength(fields["commits"]))
    ensures r.Ok? ==> r.value.branch == (if "ref" in fields then BranchName(fields["ref"].s) else "")
    ensures r.Ok? && "commits" !in fields ==> r.value.commits == 0
    ensures r.Ok? && "commits" in fields ==> Len(fields["commits"]) == Ok(r.value.commits)
  {
    match ReplaceAttr(Get(fields, "ref", Str("")), RefPrefix, "")
    case Raised(m) => Raised(m)
    case Ok(branch) =>
      match Len(Get(fields, "commits", List([])))
      case Raised(m) => Raised(m)
      case Ok(n) => Ok(PushInfo(branch, n, Get(repo, "clone_url", Str(""))))
  }

  /** `handle_push`: the derivations, then the test stage, then the deploy stage
      only if the test stage passed. Its result is not used by the caller. */
  function HandlePush(fields: map<string, Json>, repo: map<string, Json>, host: Host): (r: Result<PushRun>)
    ensures r.Ok? <==> DerivePush(fields, repo).Ok?
    ensures r.Raised? ==> r.message == DerivePush(fields, repo).message
    ensures r.Ok? ==> r.value.tests == TestStage(TestFiles, host.tests)
    ensures r.Ok? ==> (r.value.deploy.Some? <==> r.value.tests.passed)
    ensures r.Ok? && r.value.deploy.Some? ==> r.value.deploy.value == DeployStage(host.deploy)
  {
    match DerivePush(fields, repo)
    case Raised(m) => Raised(m)
    case Ok(info) =>
      var tests := TestStage(TestFiles, host.tests);
      var deploy := if tests.passed then Some(DeployStage(host.deploy)) else None;
      Ok(PushRun(info, tests, deploy))
  }

  /** Which path a push that got past its derivations took. */
  function Classify(run: PushRun): Terminal {
    if !run.tests.passed then TestsFailed
    else if run.deploy.Some? && run.deploy.value.ok then Deployed
    else DeployFailed
  }

  /** The requests during whose handling something raises, read directly off the
      handler: a body that does not decode, a payload that is not an object or
      whose `repository` is not an object, and, for a push only, a `ref` that is
      not a string or `commits` without a length. */
  predicate Raises(req: Request) {
    match req.body
    case Undecodable(_) => true
    case Decoded(p) =>
      || !p.Dict?
      || ("repository" in p.fields && !p.fields["repository"].Dict?)
      || (EventKind(req) == PushEvent &&
            (|| ("ref" in p.fields && !p.fields["ref"].Str?)
             || ("commits" in p.fields && !HasLength(p.fields["commits"]))))
  }

  /** The text of the exception a request in `Raises` raises first, in the order
      the handler evaluates: decoding, `.get` on the payload, `.get` on its
      `repository`, `.replace` on `ref`, then `len` of `commits`. */
  function FirstError(req: Request): string
    requires Raises(req)
  {
    match req.body
    case Undecodable(e) => e
    case Decoded(p) =>
      if !p.Dict? then NoAttribute(p, "get")
      else if "repository" in p.fields && !p.fields["repository"].Dict? then NoAttribute(p.fields["repository"], "get")
      else if "ref" in p.fields && !p.fields["ref"].Str? then NoAttribute(p.fields["ref"], "replace")
      else NoLength(p.fields["commits"])
  }

  function Fail(message: string): Reply {
    Reply([], 500, ErrorBody(message), InternalError)
  }

  /** `do_POST`. */
  function DoPost(req: Request, host: Host): (r: Reply)
    ensures r.status == 200 <==> !Raises(req)
    ensures r.status != 200 ==> r.status == 500
    ensures r.status == 200 ==> r.body == SuccessBody
    ensures r.status == 500 ==> r.launches == [] && ParseErrorBody(r.body).Some?
    ensures r.terminal == InternalError <==> r.status == 500
    ensures Raises(req) ==> r.body == ErrorBody(FirstError(req))
    ensures r.launches != [] ==> req.event == Some(PushEvent)
  {
    match req.body
    case Undecodable(e) => Fail(e)
    case Decoded(payload) =>
      var event := EventKind(req);
      match RepositoryOf(payload)
      case Raised(m) => Fail(m)
      case Ok(repo) =>
        if event == PushEvent then
          match HandlePush(payload.fields, repo, host)
          case Raised(m) => Fail(m)
          case Ok(run) => Reply(run.Launches(), 200, SuccessBody, Classify(run))
        else Reply([], 200, SuccessBody, Ignored)
  }

  /** Only a push launches anything. Any other event, and a request without the
      header, which counts as "unknown", launches nothing and, unless something
      raised, is answered with the success body. */
  lemma EventFilter(req: Request, host: Host)
    requires EventKind(req) != PushEvent
    ensures DoPost(req, host).launches == []
    ensures DoPost(req, host).terminal in {Ignored, InternalError}
    ensures req.body.Decoded? && req.body.payload.Dict? && "repository" !in req.body.payload.fields ==>
              DoPost(req, host).status == 200 && DoPost(req, host).body == SuccessBody
  {
  }

  /** The gate: the deploy script is launched exactly when a push got past its
      derivations, its tests passed and the script exists. */
  lemma DeployGate(req: Request, host: Host)
    ensures RunDeploy in DoPost(req, host).launches <==>
              && !Raises(req)
              && EventKind(req) == PushEvent
              && TestStage(TestFiles, host.tests).passed
              && host.deploy.Some?
  {
    TestLaunchOrder(TestFiles, host.tests);
  }

  /** The deploy script, when launched, is launched once and last, after every
      test launch; after a test failure only test files are launched. */
  lemma DeployAfterTests(req: Request, host: Host)
    ensures var r := DoPost(req, host);
            RunDeploy in r.launches ==> r.launches == TestStage(TestFiles, host.tests).launches + [RunDeploy]
    ensures !TestStage(TestFiles, host.tests).passed ==>
              forall l :: l in DoPost(req, host).launches ==> l.RunTest?
    ensures !Raises(req) && EventKind(req) == PushEvent && !TestStage(TestFiles, host.tests).passed ==>
              DoPost(req, host).launches == TestStage(TestFiles, host.tests).launches
  {
    TestLaunchOrder(TestFiles, host.tests);
  }

  /** The trace of a push that raises nothing: every existing test file, in
      configured order and whatever became of the ones before it, then the
      deploy stage's launch when the tests passed. */
  lemma PushTrace(req: Request, host: Host)
    requires !Raises(req) && EventKind(req) == PushEvent
    ensures var t := TestStage(TestFiles, host.tests);
            DoPost(req, host).launches == t.launches + (if t.passed then DeployStage(host.deploy).launches else [])
  {
  }

  /** The configured test stage: `test_unit.py` is launched before `test_api.py`,
      each if it exists, and the stage passes when every existing one exits 0,
      so vacuously when neither exists. */
  lemma ConfiguredTests(tests: map<string, Outcome>)
    ensures TestStage(TestFiles, tests).launches ==
              (if UnitTests in tests then [RunTest(UnitTests)] else []) +
              (if ApiTests in tests then [RunTest(ApiTests)] else [])
    ensures TestStage(TestFiles, tests).passed <==>
              && (UnitTests in tests ==> Succeeded(tests[UnitTests]))
              && (ApiTests in tests ==> Succeeded(tests[ApiTests]))
  {
    TestStageSnoc([], UnitTests, tests);
    TestStageSnoc([UnitTests], ApiTests, tests);
    assert [] + [UnitTests] == [UnitTests];
    assert TestFiles[0] == UnitTests && TestFiles[1] == ApiTests;
  }

  /** The status and body do not depend on how the tests or the deploy went,
      nor on which files exist: they are decided by the request alone. */
  lemma ResponseIgnoresOutcomes(req: Request, host1: Host, host2: Host)
    ensures DoPost(req, host1).status == DoPost(req, host2).status
    ensures DoPost(req, host1).body == DoPost(req, host2).body
  {
  }

  /** The path a successful push took, read off the outcomes. */
  lemma TerminalStates(req: Request, host: Host)
    requires !Raises(req) && EventKind(req) == PushEvent
    ensures var r := DoPost(req, host);
            var passed := TestStage(TestFiles, host.tests).passed;
            && (r.terminal == TestsFailed <==> !passed)
            && (r.terminal == Deployed <==> passed && host.deploy.Some? && Succeeded(host.deploy.value))
            && (r.terminal == DeployFailed <==> passed && !(host.deploy.Some? && Succeeded(host.deploy.value)))
  {
  }

  /** A push that raises nothing, with both test files present and exiting 0
      and a deploy script that exits 0: both tests, then the deploy, then 200. */
  lemma PushDeploys(req: Request, host: Host)
    requires !Raises(req) && EventKind(req) == PushEvent
    requires UnitTests in host.tests && Succeeded(host.tests[UnitTests])
    requires ApiTests in host.tests && Succeeded(host.tests[ApiTests])
    requires host.deploy.Some? && Succeeded(host.deploy.value)
    ensures DoPost(req, host) == Reply([RunTest(UnitTests), RunTest(ApiTests), RunDeploy], 200, SuccessBody, Deployed)
  {
    ConfiguredTests(host.tests);
  }

  /** A push whose unit tests fail, time out or cannot be launched: the API
      tests still run, the deploy does not, and the answer is still 200. */
  lemma FailedUnitTestsStillRunApiTests(req: Request, host: Host)
    requires !Raises(req) && EventKind(req) == PushEvent
    requires UnitTests in host.tests && !Succeeded(host.tests[UnitTests]) && ApiTests in host.tests
    ensures DoPost(req, host) == Reply([RunTest(UnitTests), RunTest(ApiTests)], 200, SuccessBody, TestsFailed)
  {
    ConfiguredTests(host.tests);
  }

  /** A payload that is not an object is answered 500, whatever the event, with
      the message of the `AttributeError` that `.get` raised, for example
      "'list' object has no attribute 'get'". */
  lemma NonObjectPayload(event: Option<string>, payload: Json, host: Host)
    requires !payload.Dict?
    ensures DoPost(Request(event, Decoded(payload)), host) ==
              Reply([], 500, ErrorBody(NoAttribute(payload, "get")), InternalError)
  {
  }
}
