/**
 * The truth-or-dare generation flow: validate the request, choose a template
 * and a safety policy from the category and intensity, ask the hosted model
 * (a parameter here), and drop a timer the text does not justify.
 */
module PromptFlow {
  import opened Wrappers
  import opened Types
  import opened AiShared
  import opened TimerPolicy

  /** A player as sent to the model: name and gender only. */
  datatype PromptPlayer = PromptPlayer(name: string, gender: Option<Gender>)

  datatype PromptInput = PromptInput(
    player: PromptPlayer,
    category: Category,
    intensity: int,
    promptType: PromptKind,
    players: seq<PromptPlayer>,
    previousPrompts: Option<seq<string>>)

  datatype PromptOutput = PromptOutput(prompt: string, timerInSeconds: Option<int>)

  /** The template and safety policy a request is sent with. */
  datatype Selection = Selection(template: Template, safety: seq<SafetySetting>)

  datatype FlowError =
    | InvalidInput  // the request does not match the input schema
    | NoOutput      // the model returned no structured output; the caller fails reading it
    | InvalidOutput // the model's output does not match the output schema

  /** The player schema accepts only a male or female gender. */
  predicate ValidPlayer(p: PromptPlayer)
  {
    p.gender.Some?
  }

  /** The input schema: intensity within 1..5, a truth or dare request, every player with a gender. */
  predicate ValidInput(input: PromptInput)
  {
    && ValidPlayer(input.player)
    && 1 <= input.intensity <= 5
    && input.promptType in {Truth, Dare}
    && forall i :: 0 <= i < |input.players| ==> ValidPlayer(input.players[i])
  }

  /** The category switch: 18+ at intensity 5 uses the extreme template, everything else the normal one. */
  function SelectPrompt(category: Category, intensity: int): (r: Selection)
    ensures r.template == ExtremePromptTemplate <==> category == Adult && intensity == 5
    ensures r.template != ExtremePromptTemplate ==> r.template == PromptTemplate && r.safety == SettingsForCategory(category)
    ensures r.template == ExtremePromptTemplate ==> r.safety == ExtremeSettings()
  {
    match category
    case Kids => Selection(PromptTemplate, SettingsForCategory(Kids))
    case Teens => Selection(PromptTemplate, SettingsForCategory(Teens))
    case Adult =>
      if intensity == 5 then Selection(ExtremePromptTemplate, ExtremeSettings())
      else Selection(PromptTemplate, SettingsForCategory(Adult))
  }

  /** The kids category never reaches the extreme template or a policy weaker than its own. */
  lemma KidsNeverExtreme(intensity: int)
    ensures SelectPrompt(Kids, intensity) == Selection(PromptTemplate, SettingsForCategory(Kids))
  {
  }

  /** Post-processing: the text is kept, and a timer only if the text mentions a duration. */
  function PostProcess(o: PromptOutput): (r: PromptOutput)
    ensures r.prompt == o.prompt
    ensures r.timerInSeconds == None <==> o.timerInSeconds == None || !MentionsTime(o.prompt)
    ensures r.timerInSeconds != None ==> r.timerInSeconds == o.timerInSeconds
  {
    o.(timerInSeconds := KeptTimer(o.prompt, o.timerInSeconds))
  }

  /** Post-processing a second time changes nothing. */
  lemma PostProcessIdempotent(o: PromptOutput)
    ensures PostProcess(PostProcess(o)) == PostProcess(o)
  {
  }

  /**
   * The flow. The hosted model is the parameter `generate`, which sees which
   * template and policy were selected.
   */
  function Run(input: PromptInput, generate: Selection -> Option<PromptOutput>): (r: Result<PromptOutput, FlowError>)
    ensures r == Err(InvalidInput) <==> !ValidInput(input)
    ensures r == Err(NoOutput) <==> ValidInput(input) && generate(SelectPrompt(input.category, input.intensity)).None?
    ensures r.Ok? ==>
              var o := generate(SelectPrompt(input.category, input.intensity));
              && o.Some? && r.value.prompt == o.value.prompt
              && (r.value.timerInSeconds != None ==> r.value.timerInSeconds == o.value.timerInSeconds && MentionsTime(r.value.prompt))
    ensures var o := generate(SelectPrompt(input.category, input.intensity));
            ValidInput(input) && o.Some? ==> r == Ok(PostProcess(o.value))
  {
    if !ValidInput(input) then Err(InvalidInput)
    else
      match generate(SelectPrompt(input.category, input.intensity))
      case None => Err(NoOutput)
      case Some(o) => Ok(PostProcess(o))
  }
}
