/**
 * The streaming endpoint: it validates the request, picks the template,
 * safety policy and points for the requested kind, and announces the points
 * in a response header before the text streams. The two template helpers it
 * registers, `each` and `if`, are modelled too.
 */
module StreamRoute {
  import opened Wrappers
  import opened Types
  import opened AiShared
  import opened JsStrings
  import PromptFlow
  import WildcardFlow

  datatype StreamInput = StreamInput(
    player: PromptFlow.PromptPlayer,
    category: Category,
    intensity: int,
    promptType: PromptKind,
    players: seq<PromptFlow.PromptPlayer>,
    previousPrompts: Option<seq<string>>)

  /** What the endpoint settles before calling the model. */
  datatype StreamSelection = StreamSelection(template: Template, safety: seq<SafetySetting>, points: nat)

  /** The response head: status 200 with the points header, or status 500. */
  datatype Response = Streaming(selection: StreamSelection, pointsHeader: string) | ServerError

  /** The input schema. */
  predicate ValidInput(input: StreamInput)
  {
    && PromptFlow.ValidPlayer(input.player)
    && 1 <= input.intensity <= 5
    && forall i :: 0 <= i < |input.players| ==> PromptFlow.ValidPlayer(input.players[i])
  }

  predicate IsExtreme(t: Template)
  {
    t == ExtremePromptTemplate || t == ExtremeWildcardTemplate
  }

  /**
   * The selection. `offset` stands for Math.floor(Math.random() * 16), an
   * integer from 0 to 15.
   */
  function Select(kind: PromptKind, category: Category, intensity: int, offset: nat): (r: StreamSelection)
    requires offset <= 15
    ensures kind == Truth ==> r.points == 5
    ensures kind == Dare ==> r.points == 10
    ensures kind == Wildcard ==> r.points == 15 + offset && 15 <= r.points <= 30
    ensures IsExtreme(r.template) <==> category == Adult && intensity == 5
    ensures (r.template == PromptTemplate || r.template == ExtremePromptTemplate) <==> kind != Wildcard
    ensures r.safety == if IsExtreme(r.template) then ExtremeSettings() else SettingsForCategory(category)
  {
    if kind == Truth || kind == Dare then
      var points := if kind == Truth then 5 else 10;
      if category == Adult && intensity == 5 then StreamSelection(ExtremePromptTemplate, ExtremeSettings(), points)
      else StreamSelection(PromptTemplate, SettingsForCategory(category), points)
    else
      assert kind == Wildcard;
      var points := offset + 15;
      if category == Adult && intensity == 5 then StreamSelection(ExtremeWildcardTemplate, ExtremeSettings(), points)
      else StreamSelection(WildcardTemplate, SettingsForCategory(category), points)
  }

  /** The endpoint chooses the same template and policy as the flow for the same kind. */
  lemma SelectAgreesWithFlows(kind: PromptKind, category: Category, intensity: int, offset: nat)
    requires offset <= 15
    ensures var s := Select(kind, category, intensity, offset);
            kind != Wildcard ==> PromptFlow.Selection(s.template, s.safety) == PromptFlow.SelectPrompt(category, intensity)
    ensures var s := Select(kind, category, intensity, offset);
            kind == Wildcard ==> PromptFlow.Selection(s.template, s.safety) == WildcardFlow.SelectWildcard(category, intensity)
  {
  }

  /** The points header is the decimal string of the selected points, and reads back as them. */
  function PointsHeader(s: StreamSelection): (h: string)
    ensures IsDigits(h) && DecimalValue(h) == s.points
  {
    DecimalRoundTrip(s.points);
    NatToDecimal(s.points)
  }

  /** The request handling up to the model call; the streamed body is not modelled. */
  function Post(input: StreamInput, offset: nat): (r: Response)
    requires offset <= 15
    ensures r == ServerError <==> !ValidInput(input)
    ensures r.Streaming? ==> r.selection.points > 0 && IsDigits(r.pointsHeader) && DecimalValue(r.pointsHeader) == r.selection.points
    ensures r.Streaming? ==>
              && r.selection == Select(input.promptType, input.category, input.intensity, offset)
              && r.pointsHeader == NatToDecimal(r.selection.points)
  {
    if !ValidInput(input) then ServerError
    else
      var s := Select(input.promptType, input.category, input.intensity, offset);
      Streaming(s, PointsHeader(s))
  }

  /** What the `each` helper produces: the block rendered for every element, in order. */
  function RenderEach<T>(xs: seq<T>, block: T -> string): string
  {
    if |xs| == 0 then "" else RenderEach(xs[..|xs| - 1], block) + block(xs[|xs| - 1])
  }

  /** Rendering a concatenated list renders each part in turn. */
  lemma {:induction false} RenderEachAppend<T>(xs: seq<T>, ys: seq<T>, block: T -> string)
    ensures RenderEach(xs + ys, block) == RenderEach(xs, block) + RenderEach(ys, block)
    decreases |ys|
  {
    if |ys| == 0 {
      assert xs + ys == xs;
    } else {
      var ys' := ys[..|ys| - 1];
      assert (xs + ys)[..|xs + ys| - 1] == xs + ys';
      RenderEachAppend(xs, ys', block);
    }
  }

  /** The `each` helper, accumulating into `ret` as the registered helper does. */
  method Each<T>(context: seq<T>, block: T -> string) returns (ret: string)
    ensures ret == RenderEach(context, block)
    ensures context == [] ==> ret == ""
  {
    ret := "";
    var i, j := 0, |context|;
    while i < j
      invariant 0 <= i <= j == |context|
      invariant ret == RenderEach(context[..i], block)
    {
      assert context[..i + 1][..i] == context[..i];
      ret := ret + block(context[i]);
      i := i + 1;
    }
    assert context[..i] == context;
  }

  /** The JavaScript values a template condition can take (NaN is not modelled). */
  datatype JsValue = JsUndefined | JsNull | JsBool(b: bool) | JsNumber(n: int) | JsString(s: string) | JsArray(items: seq<JsValue>) | JsObject

  /** JavaScript truthiness. Every array is truthy, the empty one included. */
  predicate Truthy(v: JsValue)
  {
    match v
    case JsUndefined => false
    case JsNull => false
    case JsBool(b) => b
    case JsNumber(n) => n != 0
    case JsString(s) => s != ""
    case JsArray(_) => true
    case JsObject => true
  }

  /** The `if` helper: the block when the condition is truthy, otherwise nothing (undefined renders as ""). */
  function RenderIf(conditional: JsValue, block: string): (r: string)
    ensures Truthy(conditional) ==> r == block
    ensures !Truthy(conditional) ==> r == ""
  {
    if Truthy(conditional) then block else ""
  }

  /**
   * Because the helper uses plain truthiness, an empty list of previous
   * prompts still renders the block it guards, unlike the stock Handlebars
   * `if`, which treats an empty array as false.
   */
  lemma EmptyListRendersBlock(block: string)
    ensures RenderIf(JsArray([]), block) == block
    ensures RenderIf(JsUndefined, block) == ""
  {
  }
}
