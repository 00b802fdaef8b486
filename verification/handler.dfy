/**
 * The serverless handler run on the GPU worker: it reads the prompt from the
 * job's input (with a default) and answers with a fixed greeting followed by
 * the prompt.
 */
module Handler {
  import opened Wire

  const Greeting := "GPU Received your message: "

  const DefaultPrompt := "No prompt provided"

  /**
   * The exceptions the handler can raise: `job["input"]` on a job without an
   * input (KeyError), and `.get` on an input that is not a dict (AttributeError).
   */
  datatype HandlerError = MissingInput | InputNotObject

  /** `job_input.get("prompt", "No prompt provided")`. */
  function PromptOf(input: Object): Value
  {
    if "prompt" in input then input["prompt"] else Str(DefaultPrompt)
  }

  /** The prompt the handler formats, when it gets that far, is a string. */
  predicate PromptIsText(job: Object)
  {
    "input" in job && job["input"].Obj? ==> PromptOf(job["input"].fields).Str?
  }

  /** `handler(job)`. */
  function HandleJob(job: Object): (r: Result<string, HandlerError>)
    requires PromptIsText(job)
    ensures r == Err(MissingInput) <==> "input" !in job
    ensures r == Err(InputNotObject) <==> "input" in job && !job["input"].Obj?
    ensures r.Ok? ==>
      && "input" in job && job["input"].Obj?
      && Greeting <= r.value
      && |r.value| == |Greeting| + |PromptOf(job["input"].fields).s|
      && r.value[|Greeting|..] == PromptOf(job["input"].fields).s
  {
    if "input" !in job then Err(MissingInput)
    else
      match job["input"]
      case Obj(input) => Ok(Greeting + PromptOf(input).s)
      case _ => Err(InputNotObject)
  }

  /** An input without a prompt is answered as if the prompt were "No prompt provided". */
  lemma MissingPromptUsesDefault(job: Object)
    requires "input" in job && job["input"].Obj? && "prompt" !in job["input"].fields
    ensures HandleJob(job) == Ok(Greeting + DefaultPrompt)
  {
  }

  /** The answer determines the prompt: two jobs answered alike carried the same prompt. */
  lemma AnswerDeterminesPrompt(job1: Object, job2: Object)
    requires PromptIsText(job1) && PromptIsText(job2)
    requires HandleJob(job1).Ok? && HandleJob(job1) == HandleJob(job2)
    ensures PromptOf(job1["input"].fields) == PromptOf(job2["input"].fields)
  {
  }
}
