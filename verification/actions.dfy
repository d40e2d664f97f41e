/**
  The server actions the card calls (src/app/actions.ts), as far as they decide
  what reaches the flows. Each flow validates its input against its schema,
  where `model` is a required string; a request is modelled with optional
  fields so that a dropped argument, or a card that never had a model chosen,
  is visible.
*/
module Actions {
  import opened Wrappers
  import opened Types
  import ResultFlow

  /** The object handed to `generateRealtimeResult`; `None` is a missing key. */
  datatype RunRequest = RunRequest(prompt: Option<string>, model: Option<string>, evaluationCriteria: Option<string>)

  /** The object handed to `promptOptimizer`. */
  datatype OptimizeRequest = OptimizeRequest(prompt: Option<string>, model: Option<string>)

  /** Stand-in for the message of the validation library's input error. */
  const InputRejection: string := "Schema validation failed"

  /** `GenerateRealtimeResultInputSchema`: `prompt` and `model` are required strings,
      `evaluationCriteria` is optional. */
  function ValidateRunInput(req: RunRequest): Result<ResultFlow.FlowInput, Thrown> {
    if req.prompt.Some? && req.model.Some? then
      Ok(ResultFlow.FlowInput(req.prompt.value, req.model.value, req.evaluationCriteria))
    else
      Err(ErrorObject(InputRejection))
  }

  /** `PromptOptimizerInputSchema`: `prompt` and `model` are required strings;
      an accepted request yields the pair the optimizer receives. */
  function ValidateOptimizeInput(req: OptimizeRequest): Result<(string, string), Thrown> {
    if req.prompt.Some? && req.model.Some? then
      Ok((req.prompt.value, req.model.value))
    else
      Err(ErrorObject(InputRejection))
  }

  /** `runPromptAction` as written: it declares one parameter and forwards `{ prompt }`,
      so the model and criteria the card passes are dropped. */
  function RunPromptActionAsWritten(prompt: string, model: Option<string>, evaluationCriteria: Option<string>): RunRequest {
    RunRequest(Some(prompt), None, None)
  }

  /** `optimizePromptAction` as written: forwards `{ prompt }` only. */
  function OptimizePromptActionAsWritten(prompt: string, model: Option<string>): OptimizeRequest {
    OptimizeRequest(Some(prompt), None)
  }

  /** As written, every run the card starts is rejected by the flow's input schema,
      and so is every optimization, even for a card whose model is chosen: the
      card's Run click on "Say hi" with model `gemini-1.5-pro` and criteria
      "Be brief" shows this. */
  lemma AsWrittenActionsRejected(prompt: string, model: Option<string>, evaluationCriteria: Option<string>)
    ensures ValidateRunInput(RunPromptActionAsWritten(prompt, model, evaluationCriteria)).Err?
    ensures ValidateOptimizeInput(OptimizePromptActionAsWritten(prompt, model)) == Err(ErrorObject(InputRejection))
    ensures ValidateRunInput(RunPromptActionAsWritten("Say hi", Some("gemini-1.5-pro"), Some("Be brief")))
      == Err(ErrorObject(InputRejection))
  {
  }

  /** `runPromptAction` forwarding all three arguments, as the card calls it. The
      card's `model` is absent until its model selector is used, and then the
      schema still rejects the request. */
  function RunPromptAction(prompt: string, model: Option<string>, evaluationCriteria: Option<string>): (req: RunRequest)
    ensures ValidateRunInput(req).Ok? <==> model.Some?
    ensures model.Some? ==>
      ValidateRunInput(req) == Ok(ResultFlow.FlowInput(prompt, model.value, evaluationCriteria))
  {
    RunRequest(Some(prompt), model, evaluationCriteria)
  }

  /** `optimizePromptAction` forwarding the model too. */
  function OptimizePromptAction(prompt: string, model: Option<string>): (req: OptimizeRequest)
    ensures ValidateOptimizeInput(req).Ok? <==> model.Some?
    ensures model.Some? ==> ValidateOptimizeInput(req) == Ok((prompt, model.value))
  {
    OptimizeRequest(Some(prompt), model)
  }

  /** The corrected run action end to end: validate the forwarded input, then run
      the flow. A card without a model fails with the schema's error; a result
      comes back only for a card with a model, and is well formed. */
  function RunAction(
    prompt: string, model: Option<string>, evaluationCriteria: Option<string>,
    startTime: int, endTime: int,
    generate: (string, string) -> ResultFlow.GenReply,
    evaluate: (string, string, string, string) -> ResultFlow.EvalReply): (r: Result<RunResult, Thrown>)
    ensures model.None? ==> r == Err(ErrorObject(InputRejection))
    ensures model.Some? ==> r == ResultFlow.GenerateRealtimeResult(
      ResultFlow.FlowInput(prompt, model.value, evaluationCriteria), startTime, endTime, generate, evaluate).outcome
    ensures r.Ok? ==> model.Some? && WellFormed(r.value)
  {
    match ValidateRunInput(RunPromptAction(prompt, model, evaluationCriteria))
    case Err(e) => Err(e)
    case Ok(input) => ResultFlow.GenerateRealtimeResult(input, startTime, endTime, generate, evaluate).outcome
  }

  /** With the arguments forwarded and a model chosen, a card with non-empty
      criteria whose generation yields non-empty text gets its result evaluated. */
  lemma ForwardedCriteriaReachEvaluator(
    prompt: string, model: string, criteria: string,
    startTime: int, endTime: int,
    generate: (string, string) -> ResultFlow.GenReply,
    evaluate: (string, string, string, string) -> ResultFlow.EvalReply)
    requires criteria != ""
    requires generate(prompt, ResultFlow.ModelId(model)).Generated?
    requires ResultFlow.ResultText(generate(prompt, ResultFlow.ModelId(model)).output) != ""
    ensures var input := ValidateRunInput(RunPromptAction(prompt, Some(model), Some(criteria))).value;
      ResultFlow.EvaluateCount(ResultFlow.GenerateRealtimeResult(input, startTime, endTime, generate, evaluate).calls) == 1
  {
  }
}
