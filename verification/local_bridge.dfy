/**
 * The bridge module: the same submission as the command-line client, with the
 * configuration checks written inline at the top of `send_request`.
 */
module LocalBridge {
  import opened Wire
  import opened Configuration
  import opened Api
  import opened Poller
  import opened Client

  /**
   * `send_request`: refuse a placeholder key, then a placeholder endpoint id,
   * before any request; otherwise POST the prompt, then poll the job the reply
   * names or return the reply itself.
   */
  method SendRequest(cfg: Config, prompt: string, maxWait: int, submitReply: Reply,
                     script: nat -> Reply, clock: nat -> int)
    returns (result: Outcome<Object>, ghost trace: seq<Request>)
    requires ClockAdvances(clock)
    requires JobIdIsText(submitReply)
    ensures Validate(cfg).Some? ==> result == Exit(Validate(cfg).value)
    ensures Validate(cfg) == None ==> result == Submit(cfg, prompt, maxWait, submitReply, script, clock).outcome
    ensures trace == if Validate(cfg).Some? then [] else Submit(cfg, prompt, maxWait, submitReply, script, clock).trace
  {
    if cfg.apiKey == ApiKeyPlaceholder {
      result, trace := Exit(PlaceholderApiKey), [];
      return;
    }
    if cfg.endpointId == EndpointIdPlaceholder {
      result, trace := Exit(PlaceholderEndpointId), [];
      return;
    }
    trace := [SubmitRequest(cfg, prompt)];
    match Received(submitReply) {
      case Err(code) =>
        result := Exit(SubmissionError(code));
      case Ok(body) =>
        if "id" in body {
          var jobId := body["id"].s;
          ghost var queries;
          result, queries := PollForResult(cfg, jobId, maxWait, script, clock);
          assert queries == seq(|queries|, _ => StatusRequest(cfg, jobId));
          trace := trace + queries;
        } else {
          result := Done(body);
        }
    }
  }
}
