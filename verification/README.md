# RunPod job client — a Dafny model

This project models the decision logic of a small client for a RunPod
serverless endpoint. The client sends a text prompt to the endpoint's `/run`
URL, then either receives the finished result straight away or receives a job
id. With a job id it polls `/status/{id}` every two seconds until the job is
COMPLETED, FAILED, a request fails, or a time limit passes. The project also
models the worker-side handler, which echoes the prompt back behind a fixed
greeting.

The network and the clock are parameters:

- the reply to the POST is a `Reply`: a connection error, or a status code and a JSON object;
- the replies to the status queries are a script `nat -> Reply`;
- the clock is a sequence of readings `nat -> int`. `clock(0)` is the start
  time and `clock(k + 1)` is the reading taken before the k-th query.

`ClockAdvances` assumes the readings never go backwards and that each round
after the first takes at least the two-second sleep. Every `sys.exit(1)` is an
`Exit(failure)` outcome. The requests a run sends are returned as a ghost trace.

Modules:

- `Wire`: JSON values, HTTP replies, `raise_for_status` and the failure outcomes.
- `Configuration`: the two placeholder checks.
- `Api`: URLs, headers and payloads.
- `Poller`: the status loop. `Poll` is its reference function and
  `PollForResult` is the imperative loop proved equal to it.
- `Client`: the submit-and-dispatch reference function shared by both clients.
- `GpuCli`: the `send` and `status` commands, `send_to_gpu` and the key mask.
- `LocalBridge`: `send_request`.
- `Handler`: the worker's handler.

`poll_for_result` appears twice in the source, in `gpu_cli.py` and in
`local_bridge.py`. The two copies differ only in what they print, so one
`Poller.PollForResult` models both. The rows below cite whichever copy shows a
property most directly. The API key and endpoint id are module globals in the
source; here they are passed in as a `Config` value.

Details where the model follows the code literally:

- `raise_for_status()` raises only for status codes 400–599. Any other code,
  including 1xx and 3xx, is treated as a usable reply, not as a failure of
  "any non-2xx".
- The comparison `elapsed > max_wait` is strict. With an ideal clock and a
  limit of 4, a job that stays IN_PROGRESS is queried at 0, 2 and 4 seconds
  (three queries) and times out at 6 (`Poller.AlwaysInProgressTimesOut`).
  When each round takes a little longer (readings 1, 3, 5), only two queries
  fit (`Poller.SlowRoundsInProgressTimesOut`).
- A status-query failure carries the HTTP code in the same way a submission
  failure does. The source only prints it as part of the exception text.

## Model

| member | source | states |
|---|---|---|
| `Configuration.Validate` | gpu_cli.py:28-38 | Accepts exactly when neither string is its placeholder. A placeholder key is reported first, whatever the endpoint id is. A placeholder endpoint id is reported only when the key is real. |
| `Wire.Received` | gpu_cli.py:56-59 | A connection error gives an error with no code. A reply with a code in 400–599 gives an error carrying that code. Any other reply hands back its body unchanged. |
| `Api.SubmitRequestShape` | gpu_cli.py:43-54 | The submission is a POST to `https://api.runpod.ai/v2/<endpoint>/run`. It carries exactly the headers `Content-Type: application/json` and `Authorization: Bearer <key>`, and the body `{"input": {"prompt": P}}`. |
| `Api.StatusRequestShape` | local_bridge.py:124-128 | A status query is a GET to `https://api.runpod.ai/v2/<endpoint>/status/<id>` whose only header is `Authorization: Bearer <key>`. |
| `Api.StatusUrlNamesOneJob` | gpu_cli.py:88 | Two status URLs for the same endpoint are equal exactly when their job ids are equal. |
| `Client.Submit` | gpu_cli.py:56-83 | Exactly one POST is sent, and it comes first; every later request is a status query. A connection error or 4xx/5xx reply is a `SubmissionError` carrying the code when there is one, with no poll. A usable reply without `"id"` is returned unchanged with no status query. A reply with `"id"` polls exactly that job and ends as the poll ends. |
| `Client.SubmitThenQueuedThenCompleted` | gpu_cli.py:61-63 | The reply `{"id":"abc"}`, then IN_QUEUE, then COMPLETED with output "hi", returns the COMPLETED body. The run sends exactly one POST and two status queries for "abc". |
| `Client.DirectResultNoPoll` | gpu_cli.py:64-65 | A direct `{"status":"COMPLETED","output":"direct"}` reply is the result, and the POST is the only request. |
| `Client.UnauthorisedSubmitFails` | gpu_cli.py:67-83 | An HTTP 401 reply to the POST, whatever its body, gives `SubmissionError(Some(401))` and no status query. |
| `GpuCli.SendToGpu` | gpu_cli.py:41-83 | The imperative `send_to_gpu` returns the outcome that `Client.Submit` specifies and sends exactly the requests it lists. |
| `GpuCli.Display` | gpu_cli.py:157-171 | Only the `output` field is echoed, and only when JSON output was not requested and the result has that field. Otherwise the whole result is shown as JSON. |
| `GpuCli.Send` | gpu_cli.py:142-173 | With a placeholder in the configuration, `send` exits with that problem and sends no request. Otherwise it sends the requests `Client.Submit` lists. It either exits with the submission's failure or displays the submission's result. |
| `GpuCli.MaskKey` | gpu_cli.py:184-187 | The mask is as long as the key. When the key has at least 4 characters, its last 4 appear in place and all other positions are `*`. A shorter key is masked entirely. |
| `GpuCli.MaskIdempotent` | gpu_cli.py:184-187 | Masking a masked key gives the same mask. |
| `GpuCli.MaskRevealsOnlyLengthAndSuffix` | gpu_cli.py:183-187 | Two keys get the same mask exactly when they have the same length and, for keys of 4 or more characters, the same last 4 characters. |
| `GpuCli.StatusCommand` | gpu_cli.py:176-189 | `status` exits exactly when the configuration has a placeholder, with that problem. Otherwise it shows the endpoint id and the masked key, and makes no request. |
| `GpuCli.EchoEndToEnd` | handler.py:15-23 | The handler is given the input from the client's payload and answers "GPU Received your message: " + P. When the service reports that answer as the completed output, `send` without `--json-output` echoes exactly that string. |
| `LocalBridge.SendRequest` | local_bridge.py:32-110 | A placeholder key, and then a placeholder endpoint id, ends the run before any request. Otherwise the outcome and the requests are those of `Client.Submit`. |
| `Poller.Verdict` | local_bridge.py:139-163 | A reply never maps to a timeout. A reply lets the loop continue exactly when it is usable and its status is IN_QUEUE, IN_PROGRESS, unrecognised or missing. A connection error gives a status-query error without a code. A 4xx/5xx reply gives a status-query error with its code. A usable COMPLETED reply returns its body. A usable FAILED reply gives a job failure carrying its body. |
| `Poller.TerminalReplyEndsPoll` | local_bridge.py:132-163 | A query issued within the limit whose reply is terminal is the last one, and the poll ends with that reply's verdict. |
| `Poller.Poll` | gpu_cli.py:99-129 | Entered before query k, the run issues at least k queries. It issues more than k unless it times out at once. |
| `Poller.PollForResult` | gpu_cli.py:86-129 | The imperative loop ends with the outcome and query count of `Poll`. Every query is a GET of this job's status URL with the bearer header. |
| `Poller.PollStopsAtFirstVerdict` | local_bridge.py:132-163 | Every query is issued within the time limit. Every reply before the last one says to ask again. The outcome is either a timeout, with the next reading past the limit, or the verdict of the last reply. |
| `Poller.NoQueryPastLimit` | gpu_cli.py:99-104 | No query is issued once elapsed time exceeds the limit. A timeout is reported only when the reading exceeds the limit. |
| `Poller.StopsAtFirstTerminal` | gpu_cli.py:105-124 | No reply before the last one is terminal. A returned body is the last reply's COMPLETED body. A job failure carries the last reply's FAILED body. Conversely, unless the poll timed out, the last reply fixes the outcome: a connection error or a 4xx/5xx code gives a status-query error, a usable COMPLETED reply returns its body, a usable FAILED reply gives a job failure carrying its body. |
| `Poller.NonTerminalStatusRepeats` | local_bridge.py:153-158 | Within the limit, a usable reply whose status is neither COMPLETED nor FAILED (IN_QUEUE, IN_PROGRESS, unknown or missing) leads only to the next round. |
| `Poller.ReadingAtLimitStillQueries` | local_bridge.py:133-137 | A reading exactly equal to the limit is not a timeout: that round still queries. |
| `Poller.QueryBound` | local_bridge.py:132-158 | A poll issues at most `maxWait / 2 + 1` queries. It issues none if the first reading is already past the limit. |
| `Poller.QueuedThenCompleted` | gpu_cli.py:113-124 | IN_QUEUE, then COMPLETED with output "hi", returns that body after exactly two queries. |
| `Poller.AlwaysInProgressTimesOut` | gpu_cli.py:99-124 | With the ideal 2-second clock and a limit of 4, a job that is always IN_PROGRESS is queried three times and then times out. |
| `Poller.SlowRoundsInProgressTimesOut` | gpu_cli.py:99-124 | With readings 0, 1, 3, 5 (rounds longer than the 2-second sleep) and a limit of 4, a job that is always IN_PROGRESS is queried twice and then times out. |
| `Poller.FailedCarriesBody` | local_bridge.py:149-152 | A FAILED reply `{"status":"FAILED","error":"oom"}` ends the poll after one query with a job failure carrying that whole body. |
| `Handler.HandleJob` | handler.py:3-23 | A job without `input` raises KeyError, and a non-dict input raises AttributeError. Otherwise the answer starts with "GPU Received your message: ", is as long as that greeting plus the prompt, and ends with exactly the prompt. |
| `Handler.MissingPromptUsesDefault` | handler.py:16 | An input without `prompt` is answered with the greeting followed by "No prompt provided". |
| `Handler.AnswerDeterminesPrompt` | handler.py:19 | Two jobs that get the same answer had the same prompt. |

## Left out

- Real HTTP and JSON parsing: replies are parameters. A failing `response.json()` and the fallback that prints `response.text` (gpu_cli.py:73-77) are not modelled. Replies that are JSON but not objects are not modelled either.
- Blocking calls: every request is answered. `requests.post` and `requests.get` have no timeout in the source, so a call that hangs can keep the loop waiting past its limit; the model cannot show this.
- Time: readings are integers, not floats. `ClockAdvances` assumes `time.time()` never goes backwards and that each round after the first lasts at least the 2-second sleep. The source does not check either.
- Floating-point JSON numbers are not modelled; `Value` has integers only.
- `Client.Submit`, `GpuCli.SendToGpu`, `GpuCli.Send` and `LocalBridge.SendRequest` require that an `"id"` in a usable (not 4xx/5xx) POST reply be a JSON string (`JobIdIsText`). Python would format any other value with `str()` into the status URL, and that formatting is not modelled.
- `Handler.HandleJob` requires the prompt, when present, to be a string (`PromptIsText`). Python's f-string would format any other value with `str()`, which is not modelled.
- The progress bar (gpu_cli.py:96-98, 114, 121), all printed and echoed text, colours and troubleshooting hints: output only, with no effect on control flow.
- `sys.exit(1)` as process termination: each one is an `Exit` outcome. The exit code is 1 for every `Exit` and 0 otherwise.
- The `examples` command (gpu_cli.py:192-207), the `click` group wiring and the `__main__` blocks (gpu_cli.py:210-211, local_bridge.py:170-195): fixed text and entry points.
- The import-failure fallback of gpu_cli.py (lines 20-25), a process-level concern.
- `runpod.serverless.start` (handler.py:25), a call into the worker runtime. `GpuCli.EchoEndToEnd` assumes the runtime passes the POSTed `input` to the handler and reports the handler's answer as the job's `output`.
