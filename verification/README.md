# Push-handling pipeline of the Catty Reminders webhook server

The webhook server receives GitHub deliveries as HTTP POSTs. For a `push` it
runs two pytest files and then, only if they pass, runs a deploy script. This
project models how one POST is decided, as pure functions over immutable values:

- what the handler reads from the payload;
- which processes it launches, and in which order;
- which status and body it answers with.

Process runs and file existence are inputs, not effects. A `Host` maps each
test file that exists to the `Outcome` its run would have. A name that is not a
key is a missing file. The deploy script is `Some(outcome)` when it exists and
`None` when it does not. An `Outcome` is one of:

- `Completed(exitCode, stdout, stderr)`;
- `TimedOut`, standing for `subprocess.TimeoutExpired`;
- `LaunchError(message)`, standing for any other exception of the run.

`DoPost` returns a `Reply`. It holds the trace of launches (`RunTest(file)`,
`RunDeploy`), the status, the body and the path the delivery took
(`Ignored`, `TestsFailed`, `Deployed`, `DeployFailed`, `InternalError`). The
server never names these paths; the model records them so that the gate can be
stated.

Modules:

- `Py` (`py.dfy`): Python exceptions as `Raised(str(e))`, `str.replace` and
  negative-start slicing.
- `PyJson` (`pyjson.dfy`): the values `json.loads` returns. It also models
  `.get`, `len` and `.replace` on them, with the `AttributeError` and
  `TypeError` texts they raise.
- `JsonText` (`jsontext.dfy`): how `json.dumps` writes a string with its
  default `ensure_ascii`. It comes with a reader for string escapes, as defined
  in section 7 of RFC 8259, and a round-trip proof.
- `Process` (`process.dfy`): process outcomes and the failure snippet.
- `Stages` (`stages.dfy`): the test stage (`run_tests`) and the deploy stage
  (`run_deploy`).
- `Branch` (`branch.dfy`): the branch name derived from `ref`.
- `Webhook` (`webhook.dfy`): `do_POST`, `handle_push`, `_ok` and `_err`.

## Error paths of the handler

The model follows the code in each case below.

- Malformed and empty bodies are answered 500, not 200 with default fields:
  `json.loads` at line 52 raises for a body that is not JSON, and also for an
  empty body. `.get` at
  line 57 raises for a JSON value that is not an object. Either way the answer
  is 500 with the error body.
- Line 57 runs before the event filter. So a `repository` field that is present
  but not an object also gives 500 for events other than `push`.
- For a push, a `ref` that is not a string raises at line 72, before anything
  is launched. So does a `commits` value without a length, at line 73. Both give
  500 with an empty trace. `ref` is checked first.
- The deploy stage's output is not kept: the code only prints it, and
  `handle_push` discards the deploy result itself.

## Model

| member | source | states |
|---|---|---|
| Py.Replace | webhook_server.py:72 | `str.replace` never lengthens the text when the replacement is no longer than the pattern, and never shortens it when the replacement is at least as long |
| Py.ReplaceLeftmost | webhook_server.py:72 | when no occurrence of the pattern starts before a given one, the text before it is kept, that occurrence becomes the replacement, and the rest of the text is replaced in turn; with `ReplaceWithoutMatch` this fixes the result of `str.replace` on every text |
| Py.ReplaceWithoutMatch | webhook_server.py:72 | text with no occurrence of the pattern comes back unchanged |
| Py.ReplaceBySelf | webhook_server.py:72 | replacing the pattern by itself gives the text back, so the pass splits the text without losing or duplicating characters |
| Py.SliceFrom | webhook_server.py:116 | `s[start:]` is a suffix of `s`; for a negative start its length is `min(-start, len(s))`, otherwise `max(len(s) - start, 0)` |
| Process.FailureSnippet | webhook_server.py:116 | the snippet has at most 4000 characters; it is the tail of stderr when stderr is non-empty, else the tail of stdout, else empty; it is the whole text when that fits |
| PyJson.GetAttr | webhook_server.py:57 | `v.get(key, default)` succeeds exactly on a dict, giving the key's value or the default; on anything else it raises "'T' object has no attribute 'get'" |
| PyJson.Len | webhook_server.py:73 | `len` succeeds exactly on a string, list or dict, giving its character, item or key count; otherwise it raises "object of type 'T' has no len()" |
| PyJson.ReplaceAttr | webhook_server.py:72 | `.replace` succeeds exactly on a string; otherwise it raises "'T' object has no attribute 'replace'" |
| JsonText.Escape | webhook_server.py:167-169 | the text `json.dumps` writes for the message is printable ASCII and at least as long as the message |
| JsonText.UnescapeEscape | webhook_server.py:167-169 | reading the escapes back gives exactly the original message, for every string including ones with quotes, control characters and characters beyond U+FFFF |
| JsonText.Quote | webhook_server.py:167-169 | the quoted literal starts and ends with a quote, is ASCII, and its inside decodes to the message |
| Stages.Judge | webhook_server.py:112-124 | a test file passes exactly when its run completed with exit code 0; a timeout or a launch exception fails it as a non-zero exit does; a non-zero exit keeps the failure snippet |
| Stages.TestStage | webhook_server.py:94-126 | one report per configured file, in order; a missing file is skipped; the stage passes exactly when every existing file's run succeeded, so it passes when no file exists |
| Stages.TestLaunchOrder | webhook_server.py:95-111 | every existing test file is launched exactly once, in configured order, after the launches of the existing files before it; nothing else is launched |
| Stages.LaunchesIgnoreOutcomes | webhook_server.py:95-124 | which test files are launched depends only on which files exist, never on earlier outcomes: there is no short circuit |
| Stages.DeployStage | webhook_server.py:128-155 | a missing script launches nothing and fails; otherwise the script is launched once and the stage passes exactly when it exits 0 |
| Branch.BranchOfHeadsRef | webhook_server.py:72 | `BranchName`, the `ref.replace("refs/heads/", "")` of the handler, maps `"refs/heads/" + b` back to `b` when `b` holds no further "refs/heads/" |
| Branch.BranchNameNotIdempotent | webhook_server.py:72 | `BranchName` of `"refs/hrefs/heads/eads/" + t` gives `"refs/heads/" + t`, which gives `t`, so deriving the branch twice can change it |
| Webhook.ErrorBody | webhook_server.py:163-169 | the error body is ASCII and its message field reads back as exactly the exception text |
| Webhook.SuccessBodyIsNoError | webhook_server.py:157-169 | the success body cannot be read as an error body |
| Webhook.RepositoryOf | webhook_server.py:52-57 | the repository lookup succeeds exactly when the payload is an object whose `repository`, if present, is an object; otherwise it raises the matching `AttributeError` |
| Webhook.DerivePush | webhook_server.py:72-74 | derivation succeeds exactly when `ref`, if present, is a string and `commits`, if present, has a length; a bad `ref` is reported before a bad `commits`; the branch comes from `ref` and the commit count is `len(commits)`, or 0 without it |
| Webhook.HandlePush | webhook_server.py:70-82 | the test stage runs after a successful derivation, and the deploy stage runs if and only if the test stage passed |
| Webhook.DoPost | webhook_server.py:45-68 | status 200 exactly when no exception is raised, as `Raises` lists them read off the handler; 200 always carries the success body; otherwise the status is 500, nothing is launched, and the error body carries the text of the first exception raised, in the handler's order: decoding, `.get` on the payload, `.get` on `repository`, `.replace` on `ref`, `len` of `commits`; only a `push` launches anything |
| Webhook.EventFilter | webhook_server.py:53-65 | for the event kind `EventKind` derives from the `X-GitHub-Event` header, with "unknown" when it is absent: any event other than `push`, including a missing header read as "unknown", launches nothing; with an object payload without `repository` it is answered 200 with the success body |
| Webhook.DeployGate | webhook_server.py:79-82 | the deploy script is launched if and only if the request raises nothing, is a push, its tests passed and the script exists |
| Webhook.DeployAfterTests | webhook_server.py:79-82 | a launched deploy comes once and last, after all test launches; after a test failure only test files are launched, and for a push that raises nothing they are exactly the test stage's launches: every existing test file, in configured order |
| Webhook.PushTrace | webhook_server.py:70-82 | a push that raises nothing launches every existing test file in configured order, whatever their outcomes, followed by the deploy script's launch exactly when the tests passed and the script exists |
| Webhook.ConfiguredTests | webhook_server.py:86-99 | `test_unit.py` is launched before `test_api.py`, each only if it exists; the stage passes when each existing one succeeds |
| Webhook.ResponseIgnoresOutcomes | webhook_server.py:60-68 | the status and body do not depend on test or deploy outcomes or on which files exist |
| Webhook.TerminalStates | webhook_server.py:79-82 | for a push that raises nothing: tests failed exactly when the test stage failed; deployed exactly when the tests passed and the script exists and exits 0; deploy failed otherwise |
| Webhook.PushDeploys | webhook_server.py:45-82 | a push that raises nothing, with both test files and the deploy script present and exiting 0, launches both tests, then the deploy, and is answered 200 |
| Webhook.FailedUnitTestsStillRunApiTests | webhook_server.py:94-124 | when the unit tests fail in any way, the API tests still run, the deploy does not, and the answer is still 200 |
| Webhook.NonObjectPayload | webhook_server.py:52-68 | a payload that is not an object is answered 500 for any event, with the `AttributeError` text of `.get`, and nothing is launched |

## Left out

- HTTP transport: `HTTPServer`, sockets, `send_response`, `send_header`,
  `end_headers` and `wfile.write` are not modelled. Only the chosen status and
  body are. A failing `_ok` write that leads to a second `_err` response is
  transport behaviour and is not modelled either.
- `do_GET` and `do_HEAD`: a static status page built from `datetime.now()`.
- Request intake at lines 47-52: `Content-Length` parsing, `rfile.read`, UTF-8
  decoding and `json.loads` are folded into `Body`. A body is either the decoded
  value or the text of the exception raised.
- Header lookup: `event` is the value `headers.get` returns. Case-insensitive
  header names and repeated headers belong to the HTTP library.
- `subprocess.run`, `os.path.exists` and the 300 and 600 second timeouts are
  replaced by `Host`. The command lines, `cwd`, `PYTHONPATH`, the `BASE_URL`
  default and `sys.executable` are process plumbing.
- `print` and `log_message`: logging only. This includes the Russian test
  labels, the repository `full_name` and the deploy output. A `print` is assumed
  never to raise.
- `main()` and the constants `PORT`, `APP_DIR` and `DEPLOY_SCRIPT`: startup and
  configuration.
- JSON numbers are kept only as `int` or `float`, which is all the handler's
  error messages can tell apart. A string holding a lone UTF-16 surrogate, which
  `json.loads` can produce, has no counterpart in Dafny's `char`.
- Py.Replace: requires a non-empty pattern. Python's empty-pattern case inserts
  the replacement between characters, and the handler never uses it.
- JsonText.Unescape: reads escapes for the round-trip proof. It is not a model
  of `json.loads`, and it rejects lone surrogate escapes, which Python accepts.
