/**
  The execution flow `generateRealtimeResultFlow` (src/ai/flows/realtime-results.ts):
  one generation call bracketed by two clock reads, an optional evaluation call,
  and the assembly of the output record. The generator, the evaluator and the
  clock are parameters: what the model states is everything the flow decides
  on its own.
*/
module ResultFlow {
  import opened Wrappers
  import opened Types

  /** Provider prefix of every model id. */
  const ModelPrefix: string := "googleai/"

  /** The fixed model the evaluator runs on. */
  const EvaluatorModel: string := "googleai/gemini-1.5-flash"

  /** Stand-in for the message of the error thrown when the evaluator's output
      does not match `QualityEvaluationSchema`; its text is the validation
      library's, which is not part of this model. */
  const SchemaRejection: string := "Schema validation failed"

  /** `GenerateRealtimeResultInput`. */
  datatype FlowInput = FlowInput(prompt: string, model: string, evaluationCriteria: Option<string>)

  /** What awaiting the generation prompt yields: its (possibly absent) `output.result`
      and `usage.totalTokens`, or a thrown value. */
  datatype GenReply = Generated(output: Option<string>, totalTokens: int) | GenFailed(thrown: Thrown)

  /** What awaiting the evaluator prompt yields: its (possibly absent) output
      before validation, or a thrown value. */
  datatype EvalReply = Evaluated(output: Option<Quality>) | EvalFailed(thrown: Thrown)

  /** The external interactions of one flow run, in order. */
  datatype Call =
    | ClockRead
    | Generate(prompt: string, modelId: string)
    | Evaluate(prompt: string, result: string, criteria: string, modelId: string)

  /** The interactions a run made and how it settled. */
  datatype FlowRun = FlowRun(calls: seq<Call>, outcome: Result<RunResult, Thrown>)

  /** The model id handed to the generator. */
  function ModelId(model: string): string {
    ModelPrefix + model
  }

  /** JavaScript truthiness of an optional string. */
  predicate Truthy(s: Option<string>) {
    s.Some? && s.value != ""
  }

  /** `output?.result || ''`. */
  function ResultText(output: Option<string>): string {
    if output.Some? && output.value != "" then output.value else ""
  }

  /** An absent output and an empty one both give the empty text; any other
      output is taken as is. */
  lemma ResultTextDefault(output: Option<string>)
    ensures ResultText(output) == output.GetOr("")
  {
  }

  /** Whether the flow asks the evaluator: criteria given and non-empty, and a
      non-empty generated text. */
  predicate ShouldEvaluate(input: FlowInput, text: string) {
    Truthy(input.evaluationCriteria) && text != ""
  }

  /** Number of evaluator calls in a sequence of interactions. */
  function EvaluateCount(calls: seq<Call>): nat {
    if calls == [] then 0 else (if calls[0].Evaluate? then 1 else 0) + EvaluateCount(calls[1..])
  }

  /** Counting distributes over concatenation. */
  lemma {:induction false} EvaluateCountAppend(a: seq<Call>, b: seq<Call>)
    ensures EvaluateCount(a + b) == EvaluateCount(a) + EvaluateCount(b)
    decreases |a|
  {
    if a == [] {
      assert a + b == b;
    } else {
      assert (a + b)[1..] == a[1..] + b;
      EvaluateCountAppend(a[1..], b);
    }
  }

  lemma EvaluateCountOne(c: Call)
    ensures EvaluateCount([c]) == if c.Evaluate? then 1 else 0
  {
    assert [c][1..] == [];
  }

  /** `generateRealtimeResultFlow` run against the given generator and evaluator,
      with `startTime` and `endTime` the values the two `Date.now()` calls return. */
  function GenerateRealtimeResult(
    input: FlowInput,
    startTime: int,
    endTime: int,
    generate: (string, string) -> GenReply,
    evaluate: (string, string, string, string) -> EvalReply): (run: FlowRun)
    // The generator is called once, on the prefixed model, after the first clock read.
    ensures |run.calls| >= 2
    ensures run.calls[0] == ClockRead
    ensures run.calls[1] == Generate(input.prompt, "googleai/" + input.model)
    ensures forall k :: 2 <= k < |run.calls| ==> !run.calls[k].Generate?
    // A failed generation fails the run with what was thrown, before anything else happens.
    ensures generate(input.prompt, ModelId(input.model)).GenFailed? ==>
      run.outcome == Err(generate(input.prompt, ModelId(input.model)).thrown) && |run.calls| == 2
    // Otherwise the second clock read comes straight after generation and before any evaluation.
    ensures generate(input.prompt, ModelId(input.model)).Generated? ==>
      |run.calls| >= 3 && run.calls[2] == ClockRead
    ensures forall k :: 0 <= k < |run.calls| && run.calls[k].Evaluate? ==> k >= 3
    // The evaluator is called exactly once when criteria and text are both non-empty, never otherwise.
    ensures var g := generate(input.prompt, ModelId(input.model));
      EvaluateCount(run.calls) == (if g.Generated? && ShouldEvaluate(input, ResultText(g.output)) then 1 else 0)
    ensures forall k :: 0 <= k < |run.calls| && run.calls[k].Evaluate? ==>
      var g := generate(input.prompt, ModelId(input.model));
      && g.Generated?
      && input.evaluationCriteria.Some?
      && run.calls[k] == Evaluate(input.prompt, ResultText(g.output), input.evaluationCriteria.value, EvaluatorModel)
    // A generation that needs no evaluation always yields the record.
    ensures var g := generate(input.prompt, ModelId(input.model));
      g.Generated? && !ShouldEvaluate(input, ResultText(g.output)) ==> run.outcome.Ok?
    // An evaluator failure fails the run with what the evaluator threw.
    ensures var g := generate(input.prompt, ModelId(input.model));
      g.Generated? && ShouldEvaluate(input, ResultText(g.output)) ==>
        var v := evaluate(input.prompt, ResultText(g.output), input.evaluationCriteria.value, EvaluatorModel);
        v.EvalFailed? ==> run.outcome == Err(v.thrown)
    // The assembled record.
    ensures run.outcome.Ok? ==>
      var g := generate(input.prompt, ModelId(input.model));
      var r := run.outcome.value;
      && g.Generated?
      && WellFormed(r)
      && r.result == g.output.GetOr("")
      && r.tokenUsage == g.totalTokens
      && r.latency == endTime - startTime
      && (r.quality.Some? <==> EvaluateCount(run.calls) == 1)
  {
    var modelId := ModelId(input.model);
    var generation := Generate(input.prompt, modelId);
    EvaluateCountOne(ClockRead);
    EvaluateCountOne(generation);
    EvaluateCountAppend([ClockRead], [generation]);
    EvaluateCountAppend([ClockRead, generation], [ClockRead]);
    match generate(input.prompt, modelId)
    case GenFailed(e) => FlowRun([ClockRead, generation], Err(e))
    case Generated(output, totalTokens) =>
      var latency := endTime - startTime;
      var text := ResultText(output);
      var timed := [ClockRead, generation, ClockRead];
      if ShouldEvaluate(input, text) then
        var criteria := input.evaluationCriteria.value;
        var calls := timed + [Evaluate(input.prompt, text, criteria, EvaluatorModel)];
        EvaluateCountOne(calls[3]);
        EvaluateCountAppend(timed, [calls[3]]);
        match evaluate(input.prompt, text, criteria, EvaluatorModel)
        case EvalFailed(e) => FlowRun(calls, Err(e))
        case Evaluated(quality) =>
          if quality.Some? && ScoreInRange(quality.value) then
            FlowRun(calls, Ok(RunResult(text, quality, |text|, latency, totalTokens)))
          else
            FlowRun(calls, Err(ErrorObject(SchemaRejection)))
      else
        FlowRun(timed, Ok(RunResult(text, None, |text|, latency, totalTokens)))
  }

  /** Without criteria nothing is evaluated, and a generation that resolves
      always yields a record without a quality verdict. */
  lemma NoCriteriaNoQuality(
    input: FlowInput, startTime: int, endTime: int,
    generate: (string, string) -> GenReply,
    evaluate: (string, string, string, string) -> EvalReply)
    requires !Truthy(input.evaluationCriteria)
    ensures var run := GenerateRealtimeResult(input, startTime, endTime, generate, evaluate);
      && EvaluateCount(run.calls) == 0
      && (generate(input.prompt, ModelId(input.model)).Generated? ==>
            run.outcome.Ok? && run.outcome.value.quality.None?)
  {
  }

  /** With criteria and a non-empty generated text, a successful run carries the
      evaluator's verdict, whose score lies in [1, 5]; an evaluator failure or a
      verdict outside the schema fails the whole run. */
  lemma EvaluatedRun(
    input: FlowInput, startTime: int, endTime: int,
    generate: (string, string) -> GenReply,
    evaluate: (string, string, string, string) -> EvalReply)
    requires Truthy(input.evaluationCriteria)
    requires generate(input.prompt, ModelId(input.model)).Generated?
    requires ResultText(generate(input.prompt, ModelId(input.model)).output) != ""
    ensures var run := GenerateRealtimeResult(input, startTime, endTime, generate, evaluate);
      var text := ResultText(generate(input.prompt, ModelId(input.model)).output);
      var verdict := evaluate(input.prompt, text, input.evaluationCriteria.value, EvaluatorModel);
      && (run.outcome.Ok? <==> verdict.Evaluated? && verdict.output.Some? && ScoreInRange(verdict.output.value))
      && (run.outcome.Ok? ==>
            && run.outcome.value.quality == verdict.output
            && 1.0 <= run.outcome.value.quality.value.score <= 5.0)
  {
  }

  /** A generator that says "Hello" for 3 tokens yields a five-character result
      with 3 tokens and no verdict. */
  lemma HelloScenario(evaluate: (string, string, string, string) -> EvalReply)
    ensures var run := GenerateRealtimeResult(
        FlowInput("Say hi", "modelX", None), 100, 130,
        (p: string, m: string) => Generated(Some("Hello"), 3), evaluate);
      run.outcome == Ok(RunResult("Hello", None, 5, 30, 3))
  {
  }
}
