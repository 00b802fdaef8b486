/**
 * The command-line client: `send` validates the configuration, submits the
 * prompt and shows either the full JSON result or only its `output` field;
 * `status` validates the configuration and shows the endpoint id with a
 * masked API key.
 */
module GpuCli {
  import opened Wire
  import opened Configuration
  import opened Api
  import opened Poller
  import opened Client
  import opened Handler

  /**
   * `send_to_gpu`: POST the prompt, then poll the job the reply names or return
   * the reply itself. The ghost `trace` lists every request sent, in order.
   */
  method SendToGpu(cfg: Config, prompt: string, maxWait: int, submitReply: Reply,
                   script: nat -> Reply, clock: nat -> int)
    returns (result: Outcome<Object>, ghost trace: seq<Request>)
    requires ClockAdvances(clock)
    requires JobIdIsText(submitReply)
    ensures result == Submit(cfg, prompt, maxWait, submitReply, script, clock).outcome
    ensures trace == Submit(cfg, prompt, maxWait, submitReply, script, clock).trace
  {
    var post := SubmitRequest(cfg, prompt);
    trace := [post];
    match submitReply {
      case ConnectionError =>
        result := Exit(SubmissionError(None));
      case Response(code, body) =>
        if RaisesForStatus(code) {
          result := Exit(SubmissionError(Some(code)));
        } else if "id" in body {
          var jobId := body["id"].s;
          ghost var queries;
          result, queries := PollForResult(cfg, jobId, maxWait, script, clock);
          assert queries == seq(|queries|, _ => StatusRequest(cfg, jobId));
          trace := trace + queries;
        } else {
          result := Done(body);
        }
    }
  }

  /** What `send` prints as the result: the JSON dump of a value, or the value echoed as is. */
  datatype Shown = PrettyJson(json: Value) | Echoed(text: Value)

  /**
   * The output selection of `send`: the whole result as JSON when asked for,
   * otherwise the `output` field alone when the result has one.
   */
  function Display(result: Object, jsonOutput: bool): (s: Shown)
    ensures s.Echoed? <==> !jsonOutput && "output" in result
    ensures s.Echoed? ==> s.text == result["output"]
    ensures s.PrettyJson? ==> s.json == Obj(result)
  {
    if jsonOutput then PrettyJson(Obj(result))
    else if "output" in result then Echoed(result["output"])
    else PrettyJson(Obj(result))
  }

  /**
   * The `send` command: a configuration with a placeholder exits before any
   * request is sent; otherwise the submission runs and a result is displayed.
   */
  method Send(cfg: Config, prompt: string, wait: int, jsonOutput: bool, submitReply: Reply,
              script: nat -> Reply, clock: nat -> int)
    returns (shown: Outcome<Shown>, ghost trace: seq<Request>)
    requires ClockAdvances(clock)
    requires JobIdIsText(submitReply)
    ensures Validate(cfg).Some? ==> shown == Exit(Validate(cfg).value)
    ensures Validate(cfg) == None ==>
      shown == match Submit(cfg, prompt, wait, submitReply, script, clock).outcome
               case Done(result) => Done(Display(result, jsonOutput))
               case Exit(failure) => Exit(failure)
    ensures trace == if Validate(cfg).Some? then [] else Submit(cfg, prompt, wait, submitReply, script, clock).trace
  {
    var problem := Validate(cfg);
    if problem.Some? {
      shown, trace := Exit(problem.value), [];
      return;
    }
    var result;
    result, trace := SendToGpu(cfg, prompt, wait, submitReply, script, clock);
    match result {
      case Done(body) => shown := Done(Display(body, jsonOutput));
      case Exit(failure) => shown := Exit(failure);
    }
  }

  function Stars(n: nat): string
  {
    seq(n, _ => '*')
  }

  /**
   * The API key as `status` shows it: as long as the key, the last four
   * characters shown in place when the key has at least four, every other
   * character replaced by an asterisk.
   */
  function MaskKey(key: string): (masked: string)
    ensures |masked| == |key|
    ensures forall i :: 0 <= i < |key| ==>
      masked[i] == if |key| >= 4 && i >= |key| - 4 then key[i] else '*'
  {
    if |key| >= 4 then Stars(|key| - 4) + key[|key| - 4..] else Stars(|key|)
  }

  /** Masking a masked key changes nothing. */
  lemma MaskIdempotent(key: string)
    ensures MaskKey(MaskKey(key)) == MaskKey(key)
  {
  }

  /** The mask reveals the key's length and its last four characters, and nothing else. */
  lemma MaskRevealsOnlyLengthAndSuffix(key1: string, key2: string)
    ensures MaskKey(key1) == MaskKey(key2) <==>
      |key1| == |key2| && (|key1| >= 4 ==> key1[|key1| - 4..] == key2[|key2| - 4..])
  {
  }

  /** What `status` prints once the configuration is accepted. */
  datatype StatusReport = StatusReport(endpointId: string, maskedKey: string)

  /**
   * The `status` command: no request is made; a placeholder exits, otherwise
   * the endpoint id is shown with the masked key.
   */
  function StatusCommand(cfg: Config): (r: Outcome<StatusReport>)
    ensures r.Exit? <==> Validate(cfg).Some?
    ensures r.Exit? ==> r.failure == Validate(cfg).value
    ensures r.Done? ==> r.value.endpointId == cfg.endpointId && r.value.maskedKey == MaskKey(cfg.apiKey)
  {
    match Validate(cfg)
    case Some(problem) => Exit(problem)
    case None => Done(StatusReport(cfg.endpointId, MaskKey(cfg.apiKey)))
  }

  /**
   * End to end: the worker receives the input the client POSTed, answers with
   * its greeting, the service reports that answer as the output of the
   * completed job, and `send` (without `--json-output`) shows
   * "GPU Received your message: " followed by the prompt.
   */
  lemma EchoEndToEnd(cfg: Config, prompt: string, jobId: string, clock: nat -> int, wait: int)
    requires ClockAdvances(clock)
    requires Elapsed(clock, 0) <= wait
    ensures var job := map["id" := Str(jobId), "input" := SubmitPayload(prompt).fields["input"]];
      && PromptIsText(job)
      && HandleJob(job) == Ok(Greeting + prompt)
      && var completed := map["id" := Str(jobId), "status" := Str("COMPLETED"), "output" := Str(HandleJob(job).value)];
         var run := Submit(cfg, prompt, wait, Response(200, map["id" := Str(jobId)]), _ => Response(200, completed), clock);
         && run.outcome == Done(completed)
         && Display(completed, false) == Echoed(Str(Greeting + prompt))
  {
  }
}
