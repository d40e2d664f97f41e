/**
  The run/optimize state machine of one prompt card (src/components/prompt-card.tsx).
  Each async handler is split at its `await`: a start step that checks the
  empty-prompt guard and raises the busy flag, and a settle step that receives
  the backend's outcome, which is a parameter. What a handler does outside the
  card (backend calls, `onUpdate`, toasts) is returned as a list of effects, and
  `ApplyEffects` plays the `onUpdate`s into the page's collection.
*/
module PromptCard {
  import opened Wrappers
  import opened Types
  import Strings
  import Collection
  import ResultFlow
  import Actions

  /** `PromptOptimizerOutput`. */
  datatype Suggestion = Suggestion(optimizedPrompt: string, explanation: string)

  /** The card's local state: `isLoading`, `isOptimizing`, `optimization` and `isOptimizeOpen`. */
  datatype Card = Card(isLoading: bool, isOptimizing: bool, optimization: Option<Suggestion>, optimizeOpen: bool)

  /** The state a freshly mounted card starts in. */
  const Mounted: Card := Card(false, false, None, false)

  /** What a handler does outside the card. */
  datatype Effect =
    | RunCall(prompt: string, model: Option<string>, evaluationCriteria: Option<string>)
    | OptimizeCall(prompt: string, model: Option<string>)
    | Update(id: int, patch: Patch)
    | Toast(title: string, description: string)

  /** A handler step: the card's next state and the effects, in order. */
  datatype Step = Step(card: Card, effects: seq<Effect>)

  const EmptyPromptTitle: string := "Empty Prompt"
  const EmptyRunText: string := "Please enter a prompt before running."
  const EmptyOptimizeText: string := "Please enter a prompt to optimize."
  const ErrorTitle: string := "Error"
  const GenericRunFailure: string := "Failed to get a result from the AI."
  const RateLimitFailure: string := "Rate limit exceeded. Please wait a moment before trying again."
  const OptimizeFailure: string := "Failed to optimize the prompt."
  const AppliedTitle: string := "Prompt Updated"
  const AppliedText: string := "The optimized prompt has been applied."

  function IsBackendCall(e: Effect): bool {
    e.RunCall? || e.OptimizeCall?
  }

  /** The backend calls among the effects, in order. */
  function CallsOf(effects: seq<Effect>): (r: seq<Effect>)
    ensures forall e :: e in r <==> e in effects && IsBackendCall(e)
  {
    if effects == [] then []
    else (if IsBackendCall(effects[0]) then [effects[0]] else []) + CallsOf(effects[1..])
  }

  /** The `onUpdate` calls among the effects, in order. */
  function UpdatesOf(effects: seq<Effect>): (r: seq<Effect>)
    ensures forall e :: e in r <==> e in effects && e.Update?
  {
    if effects == [] then []
    else (if effects[0].Update? then [effects[0]] else []) + UpdatesOf(effects[1..])
  }

  /** The toasts among the effects, in order. */
  function ToastsOf(effects: seq<Effect>): (r: seq<Effect>)
    ensures forall e :: e in r <==> e in effects && e.Toast?
  {
    if effects == [] then []
    else (if effects[0].Toast? then [effects[0]] else []) + ToastsOf(effects[1..])
  }

  /** The Run and Optimize buttons are enabled: `!(isLoading || isOptimizing)`. */
  predicate ActionsEnabled(c: Card) {
    !(c.isLoading || c.isOptimizing)
  }

  /** The description of a failed run's toast: the rate-limit text exactly when an
      `Error` was thrown whose message contains `429`. */
  function ErrorDescription(e: Thrown): (d: string)
    ensures d == RateLimitFailure <==> (e.ErrorObject? && exists i :: Strings.OccursAt(e.message, "429", i))
    ensures d == RateLimitFailure || d == GenericRunFailure
  {
    if e.ErrorObject? then
      Strings.ContainsIffOccurs(e.message, "429");
      if Strings.Contains(e.message, "429") then RateLimitFailure else GenericRunFailure
    else GenericRunFailure
  }

  // ----- Run -----

  /** `handleRun` up to its `await`: the empty-prompt guard, then `setIsLoading(true)`
      and the backend call with the card's prompt, model and criteria. */
  function RunStart(c: Card, p: Prompt): (s: Step)
    ensures p.prompt == "" ==> s.card == c && CallsOf(s.effects) == [] && UpdatesOf(s.effects) == []
    ensures p.prompt != "" ==>
      && s.card == c.(isLoading := true)
      && !ActionsEnabled(s.card)
      && CallsOf(s.effects) == [RunCall(p.prompt, p.model, p.evaluationCriteria)]
      && UpdatesOf(s.effects) == []
  {
    if p.prompt == "" then Step(c, [Toast(EmptyPromptTitle, EmptyRunText)])
    else Step(c.(isLoading := true), [RunCall(p.prompt, p.model, p.evaluationCriteria)])
  }

  /** `handleRun` after its `await`: on success one `onUpdate(id, { result })`, on
      failure a toast and no update; `isLoading` drops in both cases. */
  function RunSettle(c: Card, id: int, outcome: Result<RunResult, Thrown>): (s: Step)
    ensures s.card == c.(isLoading := false)
    ensures CallsOf(s.effects) == []
    ensures outcome.Ok? ==> UpdatesOf(s.effects) == [Update(id, ResultPatch(outcome.value))]
    ensures outcome.Err? ==>
      && UpdatesOf(s.effects) == []
      && ToastsOf(s.effects) == [Toast(ErrorTitle, ErrorDescription(outcome.error))]
  {
    match outcome
    case Ok(r) => Step(c.(isLoading := false), [Update(id, ResultPatch(r))])
    case Err(e) => Step(c.(isLoading := false), [Toast(ErrorTitle, ErrorDescription(e))])
  }

  /** The whole of `handleRun`, with nothing else happening during the `await`. */
  function HandleRun(c: Card, p: Prompt, outcome: Result<RunResult, Thrown>): (s: Step)
    ensures p.prompt == "" ==> s.card == c && CallsOf(s.effects) == [] && UpdatesOf(s.effects) == []
    ensures p.prompt != "" ==>
      && s.card == c.(isLoading := false)
      && CallsOf(s.effects) == [RunCall(p.prompt, p.model, p.evaluationCriteria)]
    ensures p.prompt != "" && outcome.Ok? ==> UpdatesOf(s.effects) == [Update(p.id, ResultPatch(outcome.value))]
    ensures outcome.Err? ==> UpdatesOf(s.effects) == []
  {
    var start := RunStart(c, p);
    if p.prompt == "" then start
    else
      var settle := RunSettle(start.card, p.id, outcome);
      CallsAppend(start.effects, settle.effects);
      UpdatesAppend(start.effects, settle.effects);
      Step(settle.card, start.effects + settle.effects)
  }

  lemma FiltersOfOne(e: Effect)
    ensures CallsOf([e]) == if IsBackendCall(e) then [e] else []
    ensures UpdatesOf([e]) == if e.Update? then [e] else []
  {
    assert [e][1..] == [];
  }

  lemma {:induction false} CallsAppend(a: seq<Effect>, b: seq<Effect>)
    ensures CallsOf(a + b) == CallsOf(a) + CallsOf(b)
    decreases |a|
  {
    if a == [] {
      assert a + b == b;
    } else {
      assert (a + b)[1..] == a[1..] + b;
      CallsAppend(a[1..], b);
    }
  }

  lemma {:induction false} UpdatesAppend(a: seq<Effect>, b: seq<Effect>)
    ensures UpdatesOf(a + b) == UpdatesOf(a) + UpdatesOf(b)
    decreases |a|
  {
    if a == [] {
      assert a + b == b;
    } else {
      assert (a + b)[1..] == a[1..] + b;
      UpdatesAppend(a[1..], b);
    }
  }

  // ----- Optimize -----

  /** `handleOptimize` up to its `await`. */
  function OptimizeStart(c: Card, p: Prompt): (s: Step)
    ensures p.prompt == "" ==> s.card == c && CallsOf(s.effects) == [] && UpdatesOf(s.effects) == []
    ensures p.prompt != "" ==>
      && s.card == c.(isOptimizing := true)
      && !ActionsEnabled(s.card)
      && CallsOf(s.effects) == [OptimizeCall(p.prompt, p.model)]
      && UpdatesOf(s.effects) == []
  {
    if p.prompt == "" then Step(c, [Toast(EmptyPromptTitle, EmptyOptimizeText)])
    else Step(c.(isOptimizing := true), [OptimizeCall(p.prompt, p.model)])
  }

  /** `handleOptimize` after its `await`: a suggestion is stored and the dialog
      opened; a failure leaves both as they were. Nothing reaches the page. */
  function OptimizeSettle(c: Card, outcome: Result<Suggestion, Thrown>): (s: Step)
    ensures !s.card.isOptimizing && s.card.isLoading == c.isLoading
    ensures CallsOf(s.effects) == [] && UpdatesOf(s.effects) == []
    ensures outcome.Ok? ==> s.card.optimization == Some(outcome.value) && s.card.optimizeOpen
    ensures outcome.Err? ==>
      && s.card.optimization == c.optimization
      && s.card.optimizeOpen == c.optimizeOpen
      && ToastsOf(s.effects) == [Toast(ErrorTitle, OptimizeFailure)]
  {
    match outcome
    case Ok(suggestion) =>
      Step(c.(isOptimizing := false, optimization := Some(suggestion), optimizeOpen := true), [])
    case Err(_) =>
      Step(c.(isOptimizing := false), [Toast(ErrorTitle, OptimizeFailure)])
  }

  /** `handleApplyOptimization`: with a stored suggestion, one `onUpdate(id, { prompt })`
      and the dialog closes; without one, nothing. The suggestion itself stays stored. */
  function ApplyOptimization(c: Card, id: int): (s: Step)
    ensures c.optimization.None? ==> s == Step(c, [])
    ensures c.optimization.Some? ==>
      && UpdatesOf(s.effects) == [Update(id, PromptPatch(c.optimization.value.optimizedPrompt))]
      && s.card == c.(optimizeOpen := false)
      && CallsOf(s.effects) == []
  {
    match c.optimization
    case None => Step(c, [])
    case Some(suggestion) =>
      var update := Update(id, PromptPatch(suggestion.optimizedPrompt));
      var toast := Toast(AppliedTitle, AppliedText);
      FiltersOfOne(update);
      FiltersOfOne(toast);
      CallsAppend([update], [toast]);
      UpdatesAppend([update], [toast]);
      Step(c.(optimizeOpen := false), [update] + [toast])
  }

  // ----- Buttons -----

  /** Clicking Run: a disabled button does nothing. A click reaches the backend
      exactly when the buttons are enabled and the prompt is non-empty, at most
      once, and then leaves both buttons disabled; a click that calls nothing
      leaves the card as it was. */
  function ClickRun(c: Card, p: Prompt): (s: Step)
    ensures CallsOf(s.effects) != [] <==> ActionsEnabled(c) && p.prompt != ""
    ensures CallsOf(s.effects) != [] ==> !ActionsEnabled(s.card) && CallsOf(s.effects)[0].RunCall?
    ensures |CallsOf(s.effects)| <= 1
    ensures CallsOf(s.effects) == [] ==> s.card == c && UpdatesOf(s.effects) == []
  {
    if ActionsEnabled(c) then RunStart(c, p) else Step(c, [])
  }

  /** Clicking Optimize: as for Run, with the optimizer as the backend. */
  function ClickOptimize(c: Card, p: Prompt): (s: Step)
    ensures CallsOf(s.effects) != [] <==> ActionsEnabled(c) && p.prompt != ""
    ensures CallsOf(s.effects) != [] ==> !ActionsEnabled(s.card) && CallsOf(s.effects)[0].OptimizeCall?
    ensures |CallsOf(s.effects)| <= 1
    ensures CallsOf(s.effects) == [] ==> s.card == c && UpdatesOf(s.effects) == []
  {
    if ActionsEnabled(c) then OptimizeStart(c, p) else Step(c, [])
  }

  /** A freshly mounted card has both buttons enabled: its first click on a
      non-empty prompt reaches the backend, once. */
  lemma MountedCardAcceptsClick(p: Prompt)
    requires p.prompt != ""
    ensures ActionsEnabled(Mounted)
    ensures CallsOf(ClickRun(Mounted, p).effects) == [RunCall(p.prompt, p.model, p.evaluationCriteria)]
    ensures CallsOf(ClickOptimize(Mounted, p).effects) == [OptimizeCall(p.prompt, p.model)]
  {
  }

  /** While a run or an optimization is in flight, neither button issues a
      second backend call. */
  lemma NoSecondCallWhileBusy(c: Card, p: Prompt, q: Prompt)
    requires ActionsEnabled(c) && p.prompt != ""
    ensures CallsOf(ClickRun(ClickRun(c, p).card, q).effects) == []
    ensures CallsOf(ClickOptimize(ClickRun(c, p).card, q).effects) == []
    ensures CallsOf(ClickRun(ClickOptimize(c, p).card, q).effects) == []
    ensures CallsOf(ClickOptimize(ClickOptimize(c, p).card, q).effects) == []
  {
  }

  // ----- Effects on the page -----

  /** Plays the `onUpdate` calls into the page's collection; other effects leave it alone. */
  function ApplyEffects(s: Collection.Store, effects: seq<Effect>): Collection.Store
    decreases |effects|
  {
    if effects == [] then s
    else
      var next := if effects[0].Update? then Collection.UpdatePrompt(s, effects[0].id, effects[0].patch) else s;
      ApplyEffects(next, effects[1..])
  }

  /** Only the `onUpdate`s matter to the page. */
  lemma {:induction false} ApplyOnlyUpdates(s: Collection.Store, effects: seq<Effect>)
    ensures ApplyEffects(s, effects) == ApplyEffects(s, UpdatesOf(effects))
    decreases |effects|
  {
    if effects != [] {
      var next := if effects[0].Update? then Collection.UpdatePrompt(s, effects[0].id, effects[0].patch) else s;
      ApplyOnlyUpdates(next, effects[1..]);
      if effects[0].Update? {
        var u := [effects[0]] + UpdatesOf(effects[1..]);
        assert u[1..] == UpdatesOf(effects[1..]);
      } else {
        assert UpdatesOf(effects) == [] + UpdatesOf(effects[1..]) == UpdatesOf(effects[1..]);
      }
    }
  }

  lemma ApplyOneUpdate(s: Collection.Store, id: int, d: Patch)
    ensures ApplyEffects(s, [Update(id, d)]) == Collection.UpdatePrompt(s, id, d)
  {
    assert [Update(id, d)][1..] == [];
  }

  /** A successful run changes the page in exactly one place: the `result` of the
      card with that id. Every other card, every other field, and the list's
      length, order and counter stay as they were. */
  lemma RunSuccessTouchesOnlyResult(s: Collection.Store, c: Card, p: Prompt, r: RunResult)
    requires p.prompt != ""
    ensures var s' := ApplyEffects(s, HandleRun(c, p, Ok(r)).effects);
      && s'.nextId == s.nextId
      && |s'.prompts| == |s.prompts|
      && forall i :: 0 <= i < |s.prompts| ==>
           s'.prompts[i] == if s.prompts[i].id == p.id then s.prompts[i].(result := Some(r)) else s.prompts[i]
  {
    var effects := HandleRun(c, p, Ok(r)).effects;
    ApplyOnlyUpdates(s, effects);
    ApplyOneUpdate(s, p.id, ResultPatch(r));
  }

  /** A failed run leaves the page exactly as it was, previous result included. */
  lemma RunFailureKeepsPage(s: Collection.Store, c: Card, p: Prompt, e: Thrown)
    ensures ApplyEffects(s, HandleRun(c, p, Err(e)).effects) == s
  {
    ApplyOnlyUpdates(s, HandleRun(c, p, Err(e)).effects);
  }

  /** A run on an empty prompt calls nothing and leaves card and page as they were. */
  lemma EmptyRunDoesNothing(s: Collection.Store, c: Card, p: Prompt, outcome: Result<RunResult, Thrown>)
    requires p.prompt == ""
    ensures HandleRun(c, p, outcome).card == c
    ensures CallsOf(HandleRun(c, p, outcome).effects) == []
    ensures ApplyEffects(s, HandleRun(c, p, outcome).effects) == s
  {
  }

  /** A card deleted while its run is in flight stays deleted when the run settles. */
  lemma LateRunAfterDelete(s: Collection.Store, c: Card, id: int, outcome: Result<RunResult, Thrown>)
    ensures var gone := Collection.DeletePrompt(s, id);
      ApplyEffects(gone, RunSettle(c, id, outcome).effects) == gone
  {
  }

  /** Applying a suggestion changes only the `prompt` of the card with that id. */
  lemma ApplyTouchesOnlyPrompt(s: Collection.Store, c: Card, id: int)
    requires c.optimization.Some?
    ensures var s' := ApplyEffects(s, ApplyOptimization(c, id).effects);
      var text := c.optimization.value.optimizedPrompt;
      && s'.nextId == s.nextId
      && |s'.prompts| == |s.prompts|
      && forall i :: 0 <= i < |s.prompts| ==>
           s'.prompts[i] == if s.prompts[i].id == id then s.prompts[i].(prompt := text) else s.prompts[i]
  {
    var text := c.optimization.value.optimizedPrompt;
    ApplyOnlyUpdates(s, ApplyOptimization(c, id).effects);
    ApplyOneUpdate(s, id, PromptPatch(text));
  }

  /** Every result the page holds is well formed. */
  ghost predicate ResultsWellFormed(s: Collection.Store) {
    forall i :: 0 <= i < |s.prompts| && s.prompts[i].result.Some? ==> WellFormed(s.prompts[i].result.value)
  }

  /** When the backend is the corrected run action (the card's prompt, model and
      criteria validated and handed to the execution flow), runs keep every
      stored result well formed: the stored length is its text's length and a
      stored score lies in [1, 5]. */
  lemma FlowRunsKeepResultsWellFormed(
    s: Collection.Store, c: Card, p: Prompt,
    startTime: int, endTime: int,
    generate: (string, string) -> ResultFlow.GenReply,
    evaluate: (string, string, string, string) -> ResultFlow.EvalReply)
    requires ResultsWellFormed(s)
    ensures var outcome := Actions.RunAction(p.prompt, p.model, p.evaluationCriteria, startTime, endTime, generate, evaluate);
      ResultsWellFormed(ApplyEffects(s, HandleRun(c, p, outcome).effects))
  {
    var outcome := Actions.RunAction(p.prompt, p.model, p.evaluationCriteria, startTime, endTime, generate, evaluate);
    if p.prompt == "" {
      EmptyRunDoesNothing(s, c, p, outcome);
    } else if outcome.Ok? {
      RunSuccessTouchesOnlyResult(s, c, p, outcome.value);
    } else {
      RunFailureKeepsPage(s, c, p, outcome.error);
    }
  }

  /** A card whose model was never chosen, as every card the page creates starts
      out, cannot get a result: its run fails the flow's input schema, and the
      page, previous result included, stays as it was. */
  lemma UnsetModelRunKeepsPage(
    s: Collection.Store, c: Card, p: Prompt,
    startTime: int, endTime: int,
    generate: (string, string) -> ResultFlow.GenReply,
    evaluate: (string, string, string, string) -> ResultFlow.EvalReply)
    requires p.model.None?
    ensures Actions.RunAction(p.prompt, p.model, p.evaluationCriteria, startTime, endTime, generate, evaluate)
      == Err(ErrorObject(Actions.InputRejection))
    ensures ApplyEffects(s, HandleRun(c, p,
      Actions.RunAction(p.prompt, p.model, p.evaluationCriteria, startTime, endTime, generate, evaluate)).effects) == s
  {
    RunFailureKeepsPage(s, c, p, Actions.RunAction(p.prompt, p.model, p.evaluationCriteria, startTime, endTime, generate, evaluate).error);
  }
}
