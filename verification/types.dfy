/**
  The records the application passes around: a prompt card's data (`Prompt` in
  src/lib/types.ts), the output of the execution flow, and `Partial<Prompt>`
  patches as `onUpdate` receives them.
*/
module Types {
  import opened Wrappers

  /** What a JavaScript `throw` hands to a `catch` block: an `Error` instance with
      its message, or some other value. */
  datatype Thrown = ErrorObject(message: string) | OtherValue

  /** `QualityEvaluationSchema`: a JavaScript number score and an explanation. */
  datatype Quality = Quality(score: real, explanation: string)

  /** The `.min(1).max(5)` bounds of the schema's `score`. */
  predicate ScoreInRange(q: Quality) {
    1.0 <= q.score <= 5.0
  }

  /** `GenerateRealtimeResultOutput`. */
  datatype RunResult = RunResult(
    result: string,
    quality: Option<Quality>,
    length: int,
    latency: int,
    tokenUsage: int)

  /** What every result the flow returns satisfies: the length is derived from the
      text and a present score is within the schema's bounds. */
  predicate WellFormed(r: RunResult) {
    && r.length == |r.result|
    && (r.quality.Some? ==> ScoreInRange(r.quality.value))
  }

  /** `Prompt`: one card of the collection. `evaluationCriteria` and `model` are
      `None` while the card object carries no such key: the page creates cards
      without them, and only the card's inputs add them. */
  datatype Prompt = Prompt(
    id: int,
    prompt: string,
    evaluationCriteria: Option<string>,
    result: Option<RunResult>,
    model: Option<string>)

  /** `Partial<Prompt>`: `None` is a key the object does not carry. `result` is
      doubly optional because `null` is a value a patch may set. */
  datatype Patch = Patch(
    id: Option<int>,
    prompt: Option<string>,
    evaluationCriteria: Option<string>,
    result: Option<Option<RunResult>>,
    model: Option<string>)

  const EmptyPatch: Patch := Patch(None, None, None, None, None)

  /** `{ result }`, the patch a successful run sends. */
  function ResultPatch(r: RunResult): Patch {
    EmptyPatch.(result := Some(Some(r)))
  }

  /** `{ prompt: text }`, the patch an applied optimization or an edit sends. */
  function PromptPatch(text: string): Patch {
    EmptyPatch.(prompt := Some(text))
  }

  /** The object spread `{ ...p, ...d }`: every key `d` carries wins. */
  function Merge(p: Prompt, d: Patch): Prompt {
    Prompt(
      d.id.GetOr(p.id),
      d.prompt.GetOr(p.prompt),
      if d.evaluationCriteria.Some? then d.evaluationCriteria else p.evaluationCriteria,
      d.result.GetOr(p.result),
      if d.model.Some? then d.model else p.model)
  }

  /** Spreading the same patch twice is the same as spreading it once. */
  lemma MergeIdempotent(p: Prompt, d: Patch)
    ensures Merge(Merge(p, d), d) == Merge(p, d)
  {
  }
}
