/**
 * The wildcard generation flow: the same category switch over the wildcard
 * templates, an output that carries its own points, and the same timer rule.
 */
module WildcardFlow {
  import opened Wrappers
  import opened Types
  import opened AiShared
  import opened TimerPolicy
  import PromptFlow

  datatype WildcardInput = WildcardInput(
    player: PromptFlow.PromptPlayer,
    category: Category,
    intensity: int,
    players: seq<PromptFlow.PromptPlayer>,
    previousPrompts: Option<seq<string>>)

  datatype WildcardOutput = WildcardOutput(challenge: string, points: int, timerInSeconds: Option<int>)

  /** The input schema: intensity within 1..5 and every player with a gender. */
  predicate ValidInput(input: WildcardInput)
  {
    && PromptFlow.ValidPlayer(input.player)
    && 1 <= input.intensity <= 5
    && forall i :: 0 <= i < |input.players| ==> PromptFlow.ValidPlayer(input.players[i])
  }

  /** The output schema: points are an integer from 15 to 30. */
  predicate ValidOutput(o: WildcardOutput)
  {
    15 <= o.points <= 30
  }

  /** The category switch over the wildcard templates. */
  function SelectWildcard(category: Category, intensity: int): (r: PromptFlow.Selection)
    ensures r.template == ExtremeWildcardTemplate <==> category == Adult && intensity == 5
    ensures r.template != ExtremeWildcardTemplate ==> r.template == WildcardTemplate && r.safety == SettingsForCategory(category)
    ensures r.template == ExtremeWildcardTemplate ==> r.safety == ExtremeSettings()
  {
    match category
    case Kids => PromptFlow.Selection(WildcardTemplate, SettingsForCategory(Kids))
    case Teens => PromptFlow.Selection(WildcardTemplate, SettingsForCategory(Teens))
    case Adult =>
      if intensity == 5 then PromptFlow.Selection(ExtremeWildcardTemplate, ExtremeSettings())
      else PromptFlow.Selection(WildcardTemplate, SettingsForCategory(Adult))
  }

  /** Post-processing: the challenge and points are kept, and a timer only if the challenge mentions a duration. */
  function PostProcess(o: WildcardOutput): (r: WildcardOutput)
    ensures r.challenge == o.challenge && r.points == o.points
    ensures r.timerInSeconds == None <==> o.timerInSeconds == None || !MentionsTime(o.challenge)
    ensures r.timerInSeconds != None ==> r.timerInSeconds == o.timerInSeconds
  {
    o.(timerInSeconds := KeptTimer(o.challenge, o.timerInSeconds))
  }

  /** Post-processing a second time changes nothing. */
  lemma PostProcessIdempotent(o: WildcardOutput)
    ensures PostProcess(PostProcess(o)) == PostProcess(o)
  {
  }

  /** The flow, with the hosted model as the parameter `generate`. */
  function Run(input: WildcardInput, generate: PromptFlow.Selection -> Option<WildcardOutput>): (r: Result<WildcardOutput, PromptFlow.FlowError>)
    ensures r == Err(PromptFlow.InvalidInput) <==> !ValidInput(input)
    ensures r.Ok? ==>
              var o := generate(SelectWildcard(input.category, input.intensity));
              && o.Some? && ValidOutput(o.value)
              && r.value.challenge == o.value.challenge && r.value.points == o.value.points
              && 15 <= r.value.points <= 30
              && (r.value.timerInSeconds != None ==> MentionsTime(r.value.challenge))
    ensures var o := generate(SelectWildcard(input.category, input.intensity));
            ValidInput(input) && o.Some? && !ValidOutput(o.value) ==> r == Err(PromptFlow.InvalidOutput)
    ensures var o := generate(SelectWildcard(input.category, input.intensity));
            ValidInput(input) && o.None? ==> r == Err(PromptFlow.NoOutput)
    ensures var o := generate(SelectWildcard(input.category, input.intensity));
            ValidInput(input) && o.Some? && ValidOutput(o.value) ==> r == Ok(PostProcess(o.value))
  {
    if !ValidInput(input) then Err(PromptFlow.InvalidInput)
    else
      match generate(SelectWildcard(input.category, input.intensity))
      case None => Err(PromptFlow.NoOutput)
      case Some(o) => if ValidOutput(o) then Ok(PostProcess(o)) else Err(PromptFlow.InvalidOutput)
  }
}
