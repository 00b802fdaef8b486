/**
 * The two HTTP calls the clients make to the job service, as records of the
 * request: where it goes, which headers it carries and what JSON it sends.
 */
module Api {
  import opened Wire
  import opened Configuration

  type Headers = map<string, string>

  /** One request as the service sees it. */
  datatype Request =
    | Post(url: string, headers: Headers, payload: Value)
    | Get(url: string, headers: Headers)

  const ApiBase := "https://api.runpod.ai/v2/"

  function Bearer(apiKey: string): string
  {
    "Bearer " + apiKey
  }

  function RunUrl(endpointId: string): string
  {
    ApiBase + endpointId + "/run"
  }

  function StatusUrl(endpointId: string, jobId: string): string
  {
    ApiBase + endpointId + "/status/" + jobId
  }

  /** The JSON body of the submission: `{"input": {"prompt": prompt}}`. */
  function SubmitPayload(prompt: string): Value
  {
    Obj(map["input" := Obj(map["prompt" := Str(prompt)])])
  }

  /** The one POST of a submission, with a JSON content type and the bearer credential. */
  function SubmitRequest(cfg: Config, prompt: string): Request
  {
    Post(RunUrl(cfg.endpointId),
         map["Content-Type" := "application/json", "Authorization" := Bearer(cfg.apiKey)],
         SubmitPayload(prompt))
  }

  /** One status query: a GET carrying only the bearer credential. */
  function StatusRequest(cfg: Config, jobId: string): Request
  {
    Get(StatusUrl(cfg.endpointId, jobId), map["Authorization" := Bearer(cfg.apiKey)])
  }

  /** A status query names exactly one job: different job ids give different status URLs. */
  lemma {:induction false} StatusUrlNamesOneJob(endpointId: string, id1: string, id2: string)
    ensures StatusUrl(endpointId, id1) == StatusUrl(endpointId, id2) <==> id1 == id2
  {
    var prefix := ApiBase + endpointId + "/status/";
    if StatusUrl(endpointId, id1) == StatusUrl(endpointId, id2) {
      assert StatusUrl(endpointId, id1) == prefix + id1;
      assert StatusUrl(endpointId, id2) == prefix + id2;
      assert id1 == (prefix + id1)[|prefix|..];
      assert id2 == (prefix + id2)[|prefix|..];
    }
  }

  /** The request facts the submission promises: one POST to the run URL carrying the prompt and the bearer key. */
  lemma SubmitRequestShape(cfg: Config, prompt: string)
    ensures var req := SubmitRequest(cfg, prompt);
      && req.Post?
      && req.url == ApiBase + cfg.endpointId + "/run"
      && req.headers.Keys == {"Content-Type", "Authorization"}
      && req.headers["Content-Type"] == "application/json"
      && req.headers["Authorization"] == "Bearer " + cfg.apiKey
      && req.payload.Obj? && req.payload.fields.Keys == {"input"}
      && req.payload.fields["input"] == Obj(map["prompt" := Str(prompt)])
  {
  }

  /** A status query carries the Authorization header and no other. */
  lemma StatusRequestShape(cfg: Config, jobId: string)
    ensures var req := StatusRequest(cfg, jobId);
      && req.Get?
      && req.url == ApiBase + cfg.endpointId + "/status/" + jobId
      && req.headers.Keys == {"Authorization"}
      && req.headers["Authorization"] == "Bearer " + cfg.apiKey
  {
  }
}
