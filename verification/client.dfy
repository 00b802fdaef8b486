/**
 * Submission and dispatch, common to `send_to_gpu` and `send_request`: one
 * POST of the prompt; a reply naming a job (an `"id"` field) is handed to the
 * poller, any other usable reply is the result itself, and a failed POST ends
 * the run without polling.
 */
module Client {
  import opened Wire
  import opened Configuration
  import opened Api
  import opened Poller

  /** A usable submit reply names its job with a string, whenever it names one. */
  predicate JobIdIsText(reply: Reply)
  {
    reply.Response? && !RaisesForStatus(reply.code) && "id" in reply.body ==> reply.body["id"].Str?
  }

  /** How a submission ended, and every request it sent, in order. */
  datatype SendRun = SendRun(outcome: Outcome<Object>, trace: seq<Request>)

  /**
   * The reference run of a submission after the configuration was accepted:
   * the specification both clients' imperative versions are proved against.
   */
  function Submit(cfg: Config, prompt: string, maxWait: int, submitReply: Reply,
                  script: nat -> Reply, clock: nat -> int): (r: SendRun)
    requires ClockAdvances(clock)
    requires JobIdIsText(submitReply)
    // exactly one POST, first, carrying the prompt; everything after it is a status query
    ensures |r.trace| >= 1 && r.trace[0] == SubmitRequest(cfg, prompt)
    ensures forall j :: 1 <= j < |r.trace| ==> r.trace[j].Get?
    // a failed POST: submission error with the HTTP code when there is one, no poll
    ensures submitReply == ConnectionError ==> r == SendRun(Exit(SubmissionError(None)), [SubmitRequest(cfg, prompt)])
    ensures submitReply.Response? && RaisesForStatus(submitReply.code) ==>
              r == SendRun(Exit(SubmissionError(Some(submitReply.code))), [SubmitRequest(cfg, prompt)])
    // a usable reply without "id" is returned unchanged, with no status query
    ensures submitReply.Response? && !RaisesForStatus(submitReply.code) && "id" !in submitReply.body ==>
              r == SendRun(Done(submitReply.body), [SubmitRequest(cfg, prompt)])
    // a usable reply with "id" polls exactly that job and ends as the poll ends
    ensures submitReply.Response? && !RaisesForStatus(submitReply.code) && "id" in submitReply.body ==>
              && r.outcome == Poll(script, clock, maxWait, 0).outcome
              && |r.trace| == 1 + Poll(script, clock, maxWait, 0).queries
              && forall j :: 1 <= j < |r.trace| ==> r.trace[j] == StatusRequest(cfg, submitReply.body["id"].s)
  {
    var post := SubmitRequest(cfg, prompt);
    match Received(submitReply)
    case Err(code) => SendRun(Exit(SubmissionError(code)), [post])
    case Ok(body) =>
      if "id" in body then
        var jobId := body["id"].s;
        var run := Poll(script, clock, maxWait, 0);
        SendRun(run.outcome, [post] + seq(run.queries, _ => StatusRequest(cfg, jobId)))
      else
        SendRun(Done(body), [post])
  }

  /** A job that is submitted, queued once and then completed: two polls after the one POST. */
  lemma SubmitThenQueuedThenCompleted(cfg: Config, prompt: string, clock: nat -> int, maxWait: int)
    requires ClockAdvances(clock)
    requires Elapsed(clock, 1) <= maxWait
    ensures var done := map["status" := Str("COMPLETED"), "output" := Str("hi")];
      var r := Submit(cfg, prompt, maxWait, Response(200, map["id" := Str("abc")]),
                      k => if k == 0 then StatusReply("IN_QUEUE") else Response(200, done), clock);
      && r.outcome == Done(done)
      && r.trace == [SubmitRequest(cfg, prompt), StatusRequest(cfg, "abc"), StatusRequest(cfg, "abc")]
  {
    QueuedThenCompleted(clock, maxWait);
  }

  /** An endpoint that answers the POST with the finished result directly: that body, and no poll. */
  lemma DirectResultNoPoll(cfg: Config, prompt: string, script: nat -> Reply, clock: nat -> int, maxWait: int)
    requires ClockAdvances(clock)
    ensures var direct := map["status" := Str("COMPLETED"), "output" := Str("direct")];
      Submit(cfg, prompt, maxWait, Response(200, direct), script, clock)
        == SendRun(Done(direct), [SubmitRequest(cfg, prompt)])
  {
  }

  /** An unauthorised POST (HTTP 401) is a submission error carrying 401, and no job is polled. */
  lemma UnauthorisedSubmitFails(cfg: Config, prompt: string, body: Object, script: nat -> Reply, clock: nat -> int, maxWait: int)
    requires ClockAdvances(clock)
    ensures Submit(cfg, prompt, maxWait, Response(401, body), script, clock)
      == SendRun(Exit(SubmissionError(Some(401))), [SubmitRequest(cfg, prompt)])
  {
  }
}
