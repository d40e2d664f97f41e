# PromptPilot core, modelled in Dafny

PromptPilot is a browser tool for writing several variations of a prompt,
running each against a hosted language model, optionally having a second model
score the result against user criteria, and exporting the results as CSV. This
project models the parts of it that have behaviour of their own:

- **The collection controller** of the home page (`src/app/page.tsx`), in
  `collection.dfy`. It holds the ordered list of prompt cards and the `nextId`
  counter, with `addPrompt`, `updatePrompt` (a shallow merge of a
  `Partial<Prompt>` into the card with that id) and `deletePrompt`. The id
  invariant is proved: ids are pairwise distinct, all are below the counter,
  and ids are never reused in a session.
- **The CSV export** of `handleExport`, in `csv.dfy`. It covers the
  seven-column header, one row per card, and quoted text fields with doubled
  inner quotes. A reader for section 2 of RFC 4180 is defined too. Reading the
  export back gives the header and one record per card, with prompts and
  results recovered exactly.
- **The execution flow** `generateRealtimeResultFlow`
  (`src/ai/flows/realtime-results.ts`), in `result_flow.dfy`. The generator,
  the evaluator and the clock are parameters. The model records the calls the
  flow makes, in order, and states the following:
  - the generation call is bracketed by the two clock reads;
  - the evaluator is called exactly when criteria and text are both non-empty;
  - the assembled record has length equal to its text's length, the
    generator's token count, and a score within [1, 5].
- **The card state machine** (`src/components/prompt-card.tsx`), in
  `prompt_card.dfy`. It covers `handleRun`, `handleOptimize`,
  `handleApplyOptimization` and the disabled condition of the two buttons.
  - Each async handler is split at its `await` into a start step and a settle
    step, and the backend's outcome is a parameter.
  - A handler's external actions are returned as effects: backend calls,
    `onUpdate` calls and toasts.
  - `ApplyEffects` plays the `onUpdate` calls into the collection.
  - A late result for a deleted card is an update of an absent id, which is
    dropped.
- **The server actions** (`src/app/actions.ts`), in `actions.dfy`. They are
  modelled only for what they forward to the flows and for the flows' input
  schemas, which require `model`; see Findings.

`wrappers.dfy` holds `Option`/`Result`, `types.dfy` the records of
`src/lib/types.ts` and the flow's output schema, and `strings.dfy`
`String.prototype.includes` and the decimal text of an integer.

The generator, evaluator and optimizer are function parameters or outcome
parameters. `Date.now()` is two integer parameters. Toasts are kept as effects
only so that the error classification is visible.

## Model

| member | source | states |
|---|---|---|
| Collection.Initial | src/app/page.tsx:9-19 | The page starts with one seeded card with id 1, no result and no model, and the counter at 2, so the id invariant holds from the start |
| Collection.AddPrompt | src/app/page.tsx:21-30 | Appends exactly one card at the end and leaves the earlier cards as they were. The new card has id = the old counter, an empty prompt, no result, and no model or criteria. The counter goes up by one. The invariant is kept and the new id was not in use |
| Collection.UpdateAll | src/app/page.tsx:34 | The mapped list keeps its length and order. Cards with another id are unchanged, and the matching card takes the patch's keys and keeps its other fields |
| Collection.UpdatePrompt | src/app/page.tsx:32-36 | Same as UpdateAll, and the counter is unchanged. For a patch without an `id` key the id invariant is kept |
| Collection.RemoveAllMembers | src/app/page.tsx:39 | The filtered list holds exactly the cards whose id differs |
| Collection.RemoveAllDistinct | src/app/page.tsx:39 | Filtering a list with distinct ids leaves distinct ids |
| Collection.DeletePrompt | src/app/page.tsx:38-40 | Removes exactly the cards with that id. No card with it remains, the counter is unchanged and the invariant is kept |
| Collection.UpdateAbsentIsNoOp | src/app/page.tsx:32-36 | Updating an id no card carries leaves the state unchanged |
| Collection.LateUpdateAfterDelete | src/app/page.tsx:32-40 | An update delivered after its card was deleted leaves the state exactly as the delete did, and the id is not reintroduced |
| Collection.RemoveAllAppend | src/app/page.tsx:39 | The filter distributes over concatenation, so the remaining cards keep their relative order |
| Collection.RemoveAllIdempotent | src/app/page.tsx:39 | Filtering twice by the same id equals filtering once |
| Collection.DeleteIdempotent | src/app/page.tsx:38-40 | Deleting twice equals deleting once |
| Collection.UpdateWithIdCanBreakValid | src/app/page.tsx:32-36 | A patch carrying an `id` key can make two cards share an id, so update keeps the invariant only for patches without one |
| Collection.ReplayKeepsValid | src/app/page.tsx:19-40 | Over any session of adds, deletes and id-free updates, the invariant is kept, the counter never decreases, and every issued id lies between the old and new counter |
| Collection.CounterBounds | src/app/page.tsx:21-40 | In any session, whatever its patches, the counter never decreases and every issued id lies between the old and new counter |
| Collection.IssuedIdsIncrease | src/app/page.tsx:21-30 | In any session, the ids handed out by the adds strictly increase, so ids are never reused, even after deletions |
| Types.MergeIdempotent | src/app/page.tsx:34 | Spreading the same patch twice equals spreading it once |
| Csv.Escape | src/app/page.tsx:55 | An escaped field starts and ends with a quote and is at least two characters longer than its text |
| Csv.RowFields | src/app/page.tsx:52-62 | A row's prompt field is the escaped prompt. Its result field is the escaped result text, or `""` for a card without a result |
| Csv.EscapeRoundTrip | src/app/page.tsx:55-56 | Reading an escaped field per RFC 4180 returns the original text and stops at the following separator, line break or end |
| Csv.EscapeIffRead | src/app/page.tsx:55-56 | A quoted field reads back as `s` with nothing left over if and only if it is `Escape(s)`, so every inner quote is doubled and nothing else is |
| Csv.ExportReadsBack | src/app/page.tsx:43-64 | Reading the export per RFC 4180 gives the seven-column header and then one record per card, in list order. Each record holds the card's id, prompt, result text, quality marker, length, latency and token count. This holds whatever quotes, commas or line breaks the texts contain |
| Strings.IntTextRoundTrip | src/app/page.tsx:54-60 | The decimal text written for an id or a metric reads back as the same integer |
| Strings.ContainsIffOccurs | src/components/prompt-card.tsx:132 | `includes` holds exactly when the substring occurs at some index |
| ResultFlow.ResultTextDefault | src/ai/flows/realtime-results.ts:108 | The result text is the generator's text, or `''` when the output is absent or empty |
| ResultFlow.GenerateRealtimeResult | src/ai/flows/realtime-results.ts:99-130 | **Calls.** The flow reads the clock, then generates once on model `googleai/` + model, and makes no other generation call. A generation failure fails the run with what was thrown, after two calls. Otherwise the second clock read comes right after generation and before any evaluation. The evaluator is called exactly once, with (prompt, text, criteria) on `googleai/gemini-1.5-flash`, when criteria and text are both non-empty, and never otherwise. An evaluator failure fails the run with what the evaluator threw. **Record.** A resolved generation that needs no evaluation always yields the record. A successful record is well formed. It holds the generator's text, or `''`, the generator's token count unchanged, latency = end − start, and a quality exactly when the evaluator was called |
| ResultFlow.NoCriteriaNoQuality | src/ai/flows/realtime-results.ts:110-129 | Without non-empty criteria there is no evaluation, and a generation that resolves always yields the record, without a quality |
| ResultFlow.EvaluatedRun | src/ai/flows/realtime-results.ts:110-121 | With criteria and non-empty text, the run succeeds iff the evaluator returns a verdict within the schema. A stored verdict is the evaluator's, with a score in [1, 5] |
| ResultFlow.HelloScenario | src/ai/flows/realtime-results.ts:100-129 | A generator that answers "Hello" with 3 tokens yields text "Hello", length 5, 3 tokens and no quality |
| PromptCard.ErrorDescription | src/components/prompt-card.tsx:131-135 | A failed run's description is the rate-limit text exactly when an `Error` with a message containing `429` was thrown. Otherwise it is the generic text |
| PromptCard.RunStart | src/components/prompt-card.tsx:112-127 | An empty prompt makes no call and no update and leaves the card unchanged. Otherwise the card only gains `isLoading`, both buttons become disabled, and exactly one run call carries the card's prompt, model and criteria |
| PromptCard.RunSettle | src/components/prompt-card.tsx:128-143 | `isLoading` drops and nothing else on the card changes. A success makes exactly one `onUpdate(id, { result })`. A failure makes no update and raises a toast with the classified description |
| PromptCard.HandleRun | src/components/prompt-card.tsx:112-144 | The whole handler. An empty prompt calls nothing. Otherwise exactly one run call is made and the card ends with `isLoading` false. There is exactly one result update on success and none on failure |
| PromptCard.OptimizeStart | src/components/prompt-card.tsx:146-160 | An empty prompt makes no call. Otherwise the card only gains `isOptimizing`, both buttons become disabled, and exactly one optimize call is made |
| PromptCard.OptimizeSettle | src/components/prompt-card.tsx:161-172 | A success stores the suggestion and opens the dialog. A failure leaves the suggestion and dialog as they were and raises the failure toast. Neither touches the page, and `isOptimizing` drops |
| PromptCard.ApplyOptimization | src/components/prompt-card.tsx:175-184 | With no suggestion nothing happens. With one, exactly one `onUpdate(id, { prompt })` carries the optimized text, the dialog closes and no call is made |
| PromptCard.ClickRun | src/components/prompt-card.tsx:267-274 | A click reaches the backend iff the buttons are enabled and the prompt is non-empty. It makes at most one call, a run call, and leaves both buttons disabled. A click that calls nothing leaves the card unchanged and sends no update |
| PromptCard.ClickOptimize | src/components/prompt-card.tsx:275-287 | A click reaches the backend iff the buttons are enabled and the prompt is non-empty. It makes at most one call, an optimize call, and leaves both buttons disabled. A click that calls nothing leaves the card unchanged and sends no update |
| PromptCard.MountedCardAcceptsClick | src/components/prompt-card.tsx:104-105 | A freshly mounted card is neither loading nor optimizing, so both buttons are enabled and a click on a non-empty prompt makes exactly one call with the card's prompt, model and criteria |
| PromptCard.NoSecondCallWhileBusy | src/components/prompt-card.tsx:267-287 | While a run or an optimization is in flight, neither button issues another backend call |
| PromptCard.RunSuccessTouchesOnlyResult | src/components/prompt-card.tsx:122-128 | A successful run changes only the `result` field of the card with that id. Every other card and field, the list length and order, and the counter are unchanged |
| PromptCard.RunFailureKeepsPage | src/components/prompt-card.tsx:129-143 | A failed run leaves the page exactly as it was, including the previous result |
| PromptCard.EmptyRunDoesNothing | src/components/prompt-card.tsx:112-120 | A run on an empty prompt leaves card and page as they were and calls nothing |
| PromptCard.LateRunAfterDelete | src/components/prompt-card.tsx:122-128 | A run that settles after its card was deleted leaves the page as the delete left it |
| PromptCard.ApplyTouchesOnlyPrompt | src/components/prompt-card.tsx:175-178 | Applying a suggestion changes only the `prompt` field of the card with that id |
| PromptCard.FlowRunsKeepResultsWellFormed | src/components/prompt-card.tsx:122-128 | With the corrected run action as the backend, every stored result stays well formed: length equals text length and any score lies in [1, 5] |
| PromptCard.UnsetModelRunKeepsPage | src/components/prompt-card.tsx:122-143 | A card whose model was never chosen, as every card the page creates starts out, gets the input schema's error from the corrected run action, and the page stays as it was |
| Actions.AsWrittenActionsRejected | src/app/actions.ts:12-24 | As written, every run and every optimization the card starts fails input validation, whether or not a model is chosen |
| Actions.RunPromptAction | src/ai/flows/realtime-results.ts:14-21 | Corrected forwarding: the flow's input schema accepts the request iff the card has a model, and then the flow receives the card's prompt, model and criteria |
| Actions.OptimizePromptAction | src/ai/flows/prompt-optimizer.ts:14-17 | Corrected forwarding: the optimizer's input schema accepts the request iff the card has a model, and then the optimizer receives the card's own prompt and model |
| Actions.RunAction | src/ai/flows/realtime-results.ts:14-21 | The corrected action end to end: without a model it fails with the schema's error. With one it returns exactly the flow's outcome on the card's prompt, model and criteria. A result comes back only for a card with a model, and it is well formed |
| Actions.ForwardedCriteriaReachEvaluator | src/app/actions.ts:12-17 | With the arguments forwarded and a model chosen, a card with criteria whose generation returns text gets exactly one evaluation |

## Left out

- JSX rendering, tooltips, skeletons, the dialog's own open/close controls, toast variants, `console.error` and the clipboard: these are presentation or side effects.
- The Blob, object URL and anchor download in `handleExport`: this is browser I/O. Only the CSV text is modelled.
- The generator, evaluator and optimizer are uninterpreted parameters. Genkit's `definePrompt`/`defineFlow` and the language model calls are not modelled.
- Schema validation is modelled only in two places:
  - the `score` bounds and the presence of the evaluator's output;
  - the required `prompt`/`model` of the flows' inputs.
- The texts of the validation library's error messages are stand-in constants (`SchemaRejection`, `InputRejection`).
- `usage.totalTokens` is taken to be a present integer. A missing value, which the output schema would reject, is not modelled.
- `Date.now()` becomes two integer parameters; the clock is not monotonic, so no `latency >= 0` is claimed.
- `length` counts the elements of a Dafny `string` (Unicode scalar values). JavaScript's `.length` counts UTF-16 code units, so the two differ for characters outside the Basic Multilingual Plane.
- Ids, the `nextId` counter and the metrics are JavaScript numbers, modelled as unbounded `int`. Past 2^53, `nextId.current++` no longer changes the counter; this is not modelled.
- `Strings.IntText` renders integral numbers only. JavaScript's exponent notation at 1e21 and beyond, and non-integral numbers, are not modelled.
- The CSV reader uses `'\n'` as the record separator, as the export writes it, where RFC 4180 uses CRLF.
- Concurrency between in-flight runs, optimizations and deletes is sequentialised. A late result is a settle step applied to whatever the page then holds.
- `src/ai/flows/prompt-optimizer.ts`: it is one external call with no logic of its own. Only its input schema is modelled, in `Actions.ValidateOptimizeInput`.
- `src/components/saved-prompts-sidebar.tsx`: it is rendering only.
- Collection.AddPrompt: the model is the production behaviour, where the `setPrompts` updater holding `nextId.current++` runs once per add. Under React Strict Mode in development, updaters run twice, so each add moves the counter by two and skips an id. The id invariant holds either way.
- Behaviour of the code a reader might not expect:
  - the CSV header has seven columns (`id, prompt, result, quality, length, latency_ms, tokens`);
  - the quality column is rendered as JavaScript's `join` renders an object (`[object Object]`), or as empty when there is no verdict;
  - the quality score is a JavaScript number, modelled as `real`, not an integer;
  - applying a suggestion does not clear the stored `optimization`; it only closes the dialog.

## Findings

| source | as written | input that shows it | evidently intended | confidence | as-written member | corrected member |
|---|---|---|---|---|---|---|
| src/app/actions.ts:12-17 | `runPromptAction(prompt)` declares one parameter and forwards `{ prompt }`. The card calls it with prompt, model and criteria (src/components/prompt-card.tsx:123-127), so model and criteria are dropped and the flow's input schema, which requires `model`, rejects the request | A Run click on prompt "Say hi", model `gemini-1.5-pro`, criteria "Be brief" | Forward all three, so the flow generates on the chosen model and evaluates against the criteria. Even then a card whose model selector was never used has no `model` key, as every card the page creates starts out, and its runs are rejected until a model is chosen | medium: the dropped arguments are certain from the text; the rejection assumes the flow validates its input; not executed | Actions.RunPromptActionAsWritten, Actions.AsWrittenActionsRejected | Actions.RunPromptAction, Actions.RunAction, Actions.ForwardedCriteriaReachEvaluator, PromptCard.UnsetModelRunKeepsPage |
| src/app/actions.ts:19-24 | `optimizePromptAction(prompt)` forwards `{ prompt }`. The card passes the model as well (src/components/prompt-card.tsx:157-160), and the optimizer's input schema requires `model` | An Optimize click on any non-empty prompt | Forward prompt and model. A card with no model chosen is still rejected | medium: same assumption as above; not executed | Actions.OptimizePromptActionAsWritten, Actions.AsWrittenActionsRejected | Actions.OptimizePromptAction |
