/**
 * What the flows and the streaming endpoint share: the four prompt
 * templates (their prose is not modelled, only which one is chosen) and the
 * content-safety policy for each audience.
 */
module AiShared {
  import opened Types

  /** The four template variants. */
  datatype Template = PromptTemplate | ExtremePromptTemplate | WildcardTemplate | ExtremeWildcardTemplate

  datatype HarmCategory = HateSpeech | SexuallyExplicit | DangerousContent | Harassment

  datatype Threshold = BlockMediumAndAbove | BlockOnlyHigh | BlockNone

  datatype SafetySetting = SafetySetting(category: HarmCategory, threshold: Threshold)

  /** The order in which every policy lists the harm categories. */
  const HarmOrder: seq<HarmCategory> := [HateSpeech, SexuallyExplicit, DangerousContent, Harassment]

  /** How much a threshold blocks: higher is stricter. */
  function Strictness(t: Threshold): nat
  {
    match t
    case BlockMediumAndAbove => 2
    case BlockOnlyHigh => 1
    case BlockNone => 0
  }

  /** A policy lists each harm category once, in the fixed order. */
  predicate WellFormed(p: seq<SafetySetting>)
  {
    |p| == 4 && forall i :: 0 <= i < 4 ==> p[i].category == HarmOrder[i]
  }

  /** The threshold a well-formed policy applies to a harm category. */
  function ThresholdOf(p: seq<SafetySetting>, h: HarmCategory): Threshold
    requires WellFormed(p)
  {
    match h
    case HateSpeech => p[0].threshold
    case SexuallyExplicit => p[1].threshold
    case DangerousContent => p[2].threshold
    case Harassment => p[3].threshold
  }

  /** p blocks at least as much as q for every harm category. */
  predicate AtLeastAsStrict(p: seq<SafetySetting>, q: seq<SafetySetting>)
    requires WellFormed(p) && WellFormed(q)
  {
    forall i :: 0 <= i < 4 ==> Strictness(p[i].threshold) >= Strictness(q[i].threshold)
  }

  /** The safety policy of a category. */
  function SettingsForCategory(c: Category): (r: seq<SafetySetting>)
    ensures WellFormed(r)
    ensures c == Kids ==> forall h :: ThresholdOf(r, h) == BlockMediumAndAbove
    ensures c == Teens ==>
              && ThresholdOf(r, HateSpeech) == BlockMediumAndAbove && ThresholdOf(r, Harassment) == BlockMediumAndAbove
              && ThresholdOf(r, SexuallyExplicit) == BlockOnlyHigh && ThresholdOf(r, DangerousContent) == BlockOnlyHigh
    ensures c == Adult ==>
              && ThresholdOf(r, HateSpeech) == BlockOnlyHigh && ThresholdOf(r, Harassment) == BlockOnlyHigh
              && ThresholdOf(r, SexuallyExplicit) == BlockNone && ThresholdOf(r, DangerousContent) == BlockNone
  {
    match c
    case Kids =>
      [ SafetySetting(HateSpeech, BlockMediumAndAbove),
        SafetySetting(SexuallyExplicit, BlockMediumAndAbove),
        SafetySetting(DangerousContent, BlockMediumAndAbove),
        SafetySetting(Harassment, BlockMediumAndAbove) ]
    case Teens =>
      [ SafetySetting(HateSpeech, BlockMediumAndAbove),
        SafetySetting(SexuallyExplicit, BlockOnlyHigh),
        SafetySetting(DangerousContent, BlockOnlyHigh),
        SafetySetting(Harassment, BlockMediumAndAbove) ]
    case Adult =>
      [ SafetySetting(HateSpeech, BlockOnlyHigh),
        SafetySetting(SexuallyExplicit, BlockNone),
        SafetySetting(DangerousContent, BlockNone),
        SafetySetting(Harassment, BlockOnlyHigh) ]
  }

  /** The policy used at the highest 18+ intensity: nothing is blocked. */
  function ExtremeSettings(): (r: seq<SafetySetting>)
    ensures WellFormed(r)
    ensures forall h :: ThresholdOf(r, h) == BlockNone
  {
    [ SafetySetting(HateSpeech, BlockNone),
      SafetySetting(SexuallyExplicit, BlockNone),
      SafetySetting(DangerousContent, BlockNone),
      SafetySetting(Harassment, BlockNone) ]
  }

  /** Audiences ordered from youngest to the extreme level. */
  datatype Audience = AudienceOf(category: Category) | Extreme

  function PolicyOf(a: Audience): (r: seq<SafetySetting>)
    ensures WellFormed(r)
  {
    match a
    case AudienceOf(c) => SettingsForCategory(c)
    case Extreme => ExtremeSettings()
  }

  function AudienceRank(a: Audience): nat
  {
    match a
    case AudienceOf(Kids) => 0
    case AudienceOf(Teens) => 1
    case AudienceOf(Adult) => 2
    case Extreme => 3
  }

  /** The younger the audience, the stricter the policy, for every harm category (kids, teens, 18+, extreme). */
  lemma {:induction false} YoungerIsStricter(a: Audience, b: Audience)
    requires AudienceRank(a) <= AudienceRank(b)
    ensures AtLeastAsStrict(PolicyOf(a), PolicyOf(b))
  {
    var p, q := PolicyOf(a), PolicyOf(b);
    forall i | 0 <= i < 4 ensures Strictness(p[i].threshold) >= Strictness(q[i].threshold) {
      assert ThresholdOf(p, HarmOrder[i]) == p[i].threshold;
      assert ThresholdOf(q, HarmOrder[i]) == q[i].threshold;
    }
  }
}
