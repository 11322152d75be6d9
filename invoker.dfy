/**
 * The Model Invoker: `call_model` in agents.py, with the hosted model
 * service abstracted as an oracle.
 */
module Invoker {

  /**
   * What a prompt embeds; the wording of the templates is not modelled.
   * `rubric` tells the full-history templates (which append the scoring
   * hints) from the plain ones.
   */
  datatype Prompt =
    | Opening(chainLength: nat, task: string, rubric: bool)
    | Refinement(step: nat, chainLength: nat, task: string, previousModel: string,
                 previousOutput: string, rubric: bool)
    | Evaluation(task: string, response: string)

  /**
   * One outbound call. `step` is the chain step on whose behalf the call is
   * made, so that the oracle may answer differently on every call.
   */
  datatype Request = Request(step: nat, model: string, prompt: Prompt, apiKey: string)

  /**
   * What the hosted service does with a request: it generates text, it fails
   * inside the guarded call, or the client cannot even be built (that
   * exception is raised outside the `try` of `call_model`).
   */
  datatype Reply = Text(text: string) | Error(reason: string) | Crash(reason: string)

  /** The oracle standing for the hosted service. */
  type Service = Request -> Reply

  /** The uniform record returned by `call_model`. */
  datatype CallResult =
    | Generated(model: string, text: string)
    | Failed(model: string, reason: string)
  {
    predicate Success() { Generated? }

    /** The "output" field: the generated text, or "" on failure. */
    function Output(): string { if Generated? then text else "" }
  }

  /** `call_model` either returns its record or lets an exception escape. */
  datatype CallOutcome = Returned(result: CallResult) | Raised(reason: string)

  /** `call_model(model, prompt, api_key)`. */
  function CallModel(service: Service, req: Request): (r: CallOutcome)
    ensures r.Returned? <==> !service(req).Crash?
    ensures r.Returned? ==> r.result.model == req.model
    ensures r.Returned? ==> (r.result.Success() <==> service(req).Text?)
    ensures r.Returned? && r.result.Success() ==> r.result.Output() == service(req).text
    ensures r.Returned? && !r.result.Success() ==>
              r.result.Output() == "" && r.result.reason == service(req).reason
    ensures r.Raised? ==> r.reason == service(req).reason
  {
    match service(req)
    case Text(t) => Returned(Generated(req.model, t))
    case Error(e) => Returned(Failed(req.model, e))
    case Crash(e) => Raised(e)
  }
}
