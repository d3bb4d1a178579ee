/**
 * The game screen's turn bookkeeping: which request is sent for the current
 * player, what a prompt is worth, and what completing or skipping a turn
 * reports back to the game hook.
 *
 * The class `TurnPanel` holds the screen's state cells; the hosted models are
 * the parameters `generate`, `generateWildcard` and `media`.
 */
module GameScreen {
  import opened Wrappers
  import opened Types
  import PromptFlow
  import WildcardFlow
  import SpeechFlow
  import StreamRoute

  /** A prompt on screen, with the points completing it is worth. */
  datatype Prompt = Prompt(kind: PromptKind, text: string, points: int)

  /** How many earlier prompt texts a request carries. */
  const RecentLimit := 25

  /** What skipping a turn costs. */
  const SkipPenalty := -5

  /** A truth is worth 5 points and a dare 10. */
  function PointsFor(kind: PromptKind): (p: int)
    requires kind != Wildcard
    ensures kind == Truth ==> p == 5
    ensures kind == Dare ==> p == 10
  {
    if kind == Truth then 5 else 10
  }

  /** The screen and the streaming endpoint give a truth or a dare the same points. */
  lemma PointsAgreeWithEndpoint(kind: PromptKind, category: Category, intensity: int, offset: nat)
    requires kind != Wildcard && offset <= 15
    ensures PointsFor(kind) == StreamRoute.Select(kind, category, intensity, offset).points
  {
  }

  /** The name-and-gender projection of a player. */
  function AsPromptPlayer(p: Player): PromptFlow.PromptPlayer
  {
    PromptFlow.PromptPlayer(p.name, p.gender)
  }

  /** The players other than the one with id `currentId`, projected to name and gender, in order. */
  function OtherPlayers(ps: seq<Player>, currentId: int): seq<PromptFlow.PromptPlayer>
  {
    if |ps| == 0 then []
    else
      var last := ps[|ps| - 1];
      OtherPlayers(ps[..|ps| - 1], currentId) + (if last.id != currentId then [AsPromptPlayer(last)] else [])
  }

  /** Every other player is sent, and everything sent comes from another player. */
  lemma {:induction false} OtherPlayersMembers(ps: seq<Player>, currentId: int)
    ensures |OtherPlayers(ps, currentId)| <= |ps|
    ensures forall p :: p in ps && p.id != currentId ==> AsPromptPlayer(p) in OtherPlayers(ps, currentId)
    ensures forall q :: q in OtherPlayers(ps, currentId) ==>
      exists j :: 0 <= j < |ps| && ps[j].id != currentId && q == AsPromptPlayer(ps[j])
  {
    if |ps| > 0 {
      var n := |ps|;
      var front := ps[..n - 1];
      OtherPlayersMembers(front, currentId);
      assert ps == front + [ps[n - 1]];
      forall q | q in OtherPlayers(ps, currentId)
        ensures exists j :: 0 <= j < |ps| && ps[j].id != currentId && q == AsPromptPlayer(ps[j])
      {
        if q in OtherPlayers(front, currentId) {
          var j :| 0 <= j < |front| && front[j].id != currentId && q == AsPromptPlayer(front[j]);
          assert ps[j] == front[j];
        } else {
          assert q == AsPromptPlayer(ps[n - 1]);
        }
      }
    }
  }

  /**
   * `js` picks the entries of `r` out of `ps`: strictly increasing indices of
   * players whose id is not `currentId`, covering every such player, with
   * `r[i]` the projection of the player at `js[i]`.
   */
  ghost predicate Picks(ps: seq<Player>, currentId: int, js: seq<int>, r: seq<PromptFlow.PromptPlayer>)
  {
    && |js| == |r|
    && (forall i :: 0 <= i < |js| ==>
          0 <= js[i] < |ps| && ps[js[i]].id != currentId && r[i] == AsPromptPlayer(ps[js[i]]))
    && (forall i, j :: 0 <= i < j < |js| ==> js[i] < js[j])
    && (forall k :: 0 <= k < |ps| && ps[k].id != currentId ==> k in js)
  }

  /** Appending a player to `ps` extends a picking by that player's index when the player is sent. */
  lemma PicksSnoc(front: seq<Player>, last: Player, currentId: int, js: seq<int>, r: seq<PromptFlow.PromptPlayer>)
    requires Picks(front, currentId, js, r)
    ensures last.id != currentId ==> Picks(front + [last], currentId, js + [|front|], r + [AsPromptPlayer(last)])
    ensures last.id == currentId ==> Picks(front + [last], currentId, js, r)
  {
    var ps := front + [last];
    assert forall k :: 0 <= k < |front| ==> ps[k] == front[k];
    if last.id != currentId {
      var js2 := js + [|front|];
      var r2 := r + [AsPromptPlayer(last)];
      assert forall i :: 0 <= i < |js| ==> js2[i] == js[i] && r2[i] == r[i];
      assert forall k :: 0 <= k < |ps| && ps[k].id != currentId ==> k in js2;
    }
  }

  /** The players sent are every other player exactly once, in the order of `ps`. */
  lemma {:induction false} OtherPlayersInOrder(ps: seq<Player>, currentId: int)
    ensures exists js :: Picks(ps, currentId, js, OtherPlayers(ps, currentId))
  {
    if |ps| == 0 {
      assert Picks(ps, currentId, [], OtherPlayers(ps, currentId));
    } else {
      var n := |ps|;
      var front := ps[..n - 1];
      var last := ps[n - 1];
      var r' := OtherPlayers(front, currentId);
      var r := OtherPlayers(ps, currentId);
      assert ps == front + [last];
      assert r == r' + (if last.id != currentId then [AsPromptPlayer(last)] else []);
      OtherPlayersInOrder(front, currentId);
      var js :| Picks(front, currentId, js, r');
      PicksSnoc(front, last, currentId, js, r');
      if last.id != currentId {
        assert r == r' + [AsPromptPlayer(last)];
        assert Picks(ps, currentId, js + [|front|], r);
      } else {
        assert r == r';
        assert Picks(ps, currentId, js, r);
      }
    }
  }

  /** With unique ids, every player but the current one is sent. */
  lemma {:induction false} OtherPlayersCount(ps: seq<Player>, k: nat)
    requires UniqueIds(ps) && k < |ps|
    ensures |OtherPlayers(ps, ps[k].id)| == |ps| - 1
  {
    var n := |ps|;
    if k == n - 1 {
      AllOthers(ps[..n - 1], ps[k].id);
    } else {
      OtherPlayersCount(ps[..n - 1], k);
    }
  }

  lemma {:induction false} AllOthers(ps: seq<Player>, id: int)
    requires forall j :: 0 <= j < |ps| ==> ps[j].id != id
    ensures |OtherPlayers(ps, id)| == |ps|
  {
    if |ps| > 0 {
      AllOthers(ps[..|ps| - 1], id);
    }
  }

  /** The last `RecentLimit` texts, or all of them when there are fewer. */
  function RecentPrompts(s: seq<string>): seq<string>
  {
    if |s| > RecentLimit then s[|s| - RecentLimit..] else s
  }

  /** The window holds min(25, n) texts, and they are the last ones. */
  lemma RecentPromptsMeaning(s: seq<string>)
    ensures |RecentPrompts(s)| == if |s| < RecentLimit then |s| else RecentLimit
    ensures RecentPrompts(s) == s[|s| - |RecentPrompts(s)|..]
  {
  }

  /** Appending one text slides the window by one: the new text enters, the oldest leaves once it is full. */
  lemma RecentAfterAppend(s: seq<string>, x: string)
    ensures RecentPrompts(s + [x]) ==
      if |s| < RecentLimit then RecentPrompts(s) + [x] else RecentPrompts(s)[1..] + [x]
  {
    var t := s + [x];
    if |s| >= RecentLimit {
      assert t[|t| - RecentLimit..] == s[|s| - RecentLimit..][1..] + [x];
    }
  }

  /** The request for a truth or a dare sent for `current`. */
  function TruthOrDareRequest(kind: PromptKind, players: seq<Player>, current: Player, category: Category,
                              intensity: int, generated: seq<string>): PromptFlow.PromptInput
  {
    PromptFlow.PromptInput(AsPromptPlayer(current), category, intensity, kind,
                           OtherPlayers(players, current.id), Some(RecentPrompts(generated)))
  }

  /** The request for a wildcard sent for `current`. */
  function WildcardRequest(players: seq<Player>, current: Player, category: Category, intensity: int,
                           generated: seq<string>): WildcardFlow.WildcardInput
  {
    WildcardFlow.WildcardInput(AsPromptPlayer(current), category, intensity,
                               OtherPlayers(players, current.id), Some(RecentPrompts(generated)))
  }

  /**
   * The audio for `text`: the speech schema accepts only a male or female
   * gender, and a failed synthesis leaves no audio.
   */
  function SpokenUri(text: string, gender: Option<Gender>, media: SpeechFlow.Voice -> Option<SpeechFlow.Media>,
                     toWav: string -> string): (u: Option<string>)
    ensures gender.None? ==> u.None?
    ensures gender.Some? ==> (u.Some? <==> media(SpeechFlow.VoiceFor(gender.value)).Some?)
    ensures u.Some? ==> |u.value| >= |SpeechFlow.WavPrefix| && u.value[..|SpeechFlow.WavPrefix|] == SpeechFlow.WavPrefix
    ensures gender.Some? ==>
      var answer := SpeechFlow.Run(text, gender.value, media, toWav);
      (answer.Ok? ==> u == Some(answer.value)) && (answer.Err? ==> u.None?)
  {
    match gender
    case None => None
    case Some(g) =>
      match SpeechFlow.Run(text, g, media, toWav)
      case Ok(uri) => Some(uri)
      case Err(_) => None
  }

  /** A prompt's points are those of its kind; a wildcard's are within the flow's range. */
  predicate PointsMatchKind(p: Prompt)
  {
    match p.kind
    case Truth => p.points == 5
    case Dare => p.points == 10
    case Wildcard => 15 <= p.points <= 30
  }

  /**
   * Players built by the setup form carry no gender, so a request for any of
   * them is refused by the prompt flow's input schema.
   */
  lemma GenderlessPlayerIsRefused(kind: PromptKind, players: seq<Player>, current: Player, category: Category,
                                  intensity: int, generated: seq<string>,
                                  generate: PromptFlow.Selection -> Option<PromptFlow.PromptOutput>)
    requires current.gender.None?
    ensures PromptFlow.Run(TruthOrDareRequest(kind, players, current, category, intensity, generated), generate)
            == Err(PromptFlow.InvalidInput)
  {
  }

  /** The game screen's state cells. */
  class TurnPanel {
    var prompt: Option<Prompt>
    var turnInProgress: bool
    var isLoading: bool
    var generatedPrompts: seq<string>
    var isTtsEnabled: bool
    var audioUrl: Option<string>

    /** A turn in progress shows a prompt, which is the latest generated text and is worth its kind's points. */
    ghost predicate Valid()
      reads this
    {
      && (turnInProgress ==> prompt.Some?)
      && (prompt.Some? ==>
            && |generatedPrompts| > 0
            && generatedPrompts[|generatedPrompts| - 1] == prompt.value.text
            && PointsMatchKind(prompt.value))
    }

    constructor ()
      ensures Valid()
      ensures prompt == None && !turnInProgress && !isLoading && generatedPrompts == []
      ensures isTtsEnabled && audioUrl == None
    {
      prompt := None;
      turnInProgress := false;
      isLoading := false;
      generatedPrompts := [];
      isTtsEnabled := true;
      audioUrl := None;
    }

    /** Asks for audio of `text` when the voice is on; a failure is silent. */
    method GetAudio(text: string, gender: Option<Gender>, media: SpeechFlow.Voice -> Option<SpeechFlow.Media>,
                    toWav: string -> string)
      modifies this`audioUrl
      ensures audioUrl == if isTtsEnabled && SpokenUri(text, gender, media, toWav).Some?
                          then SpokenUri(text, gender, media, toWav) else old(audioUrl)
    {
      if !isTtsEnabled {
        return;
      }
      var uri := SpokenUri(text, gender, media, toWav);
      if uri.Some? {
        audioUrl := uri;
      }
    }

    /** What both requests do on success: show the prompt, remember its text, start the turn, ask for audio. */
    method ShowPrompt(p: Prompt, gender: Option<Gender>, media: SpeechFlow.Voice -> Option<SpeechFlow.Media>,
                      toWav: string -> string)
      requires Valid() && PointsMatchKind(p) && audioUrl == None
      modifies this`prompt, this`generatedPrompts, this`turnInProgress, this`audioUrl
      ensures Valid()
      ensures prompt == Some(p) && generatedPrompts == old(generatedPrompts) + [p.text] && turnInProgress
      ensures audioUrl == if isTtsEnabled then SpokenUri(p.text, gender, media, toWav) else None
    {
      prompt := Some(p);
      generatedPrompts := generatedPrompts + [p.text];
      turnInProgress := true;
      GetAudio(p.text, gender, media, toWav);
    }

    /**
     * Requests a truth or a dare for `current` and returns the request sent.
     * On success the prompt is shown with its kind's points and its text is
     * appended to the generated texts; on failure only the audio is cleared.
     */
    method GetTruthOrDare(kind: PromptKind, players: seq<Player>, current: Player, category: Category,
                          intensity: int, generate: PromptFlow.Selection -> Option<PromptFlow.PromptOutput>,
                          media: SpeechFlow.Voice -> Option<SpeechFlow.Media>, toWav: string -> string)
      returns (request: PromptFlow.PromptInput)
      requires Valid() && kind != Wildcard
      modifies this`prompt, this`turnInProgress, this`isLoading, this`generatedPrompts, this`audioUrl
      ensures Valid()
      ensures request == TruthOrDareRequest(kind, players, current, category, intensity, old(generatedPrompts))
      ensures var r := PromptFlow.Run(request, generate);
        r.Ok? ==>
          && prompt == Some(Prompt(kind, r.value.prompt, PointsFor(kind)))
          && generatedPrompts == old(generatedPrompts) + [r.value.prompt]
          && turnInProgress
          && audioUrl == if isTtsEnabled then SpokenUri(r.value.prompt, current.gender, media, toWav) else None
      ensures PromptFlow.Run(request, generate).Err? ==>
        && prompt == old(prompt) && generatedPrompts == old(generatedPrompts)
        && turnInProgress == old(turnInProgress) && audioUrl == None
      ensures !isLoading
    {
      isLoading := true;
      audioUrl := None;
      request := TruthOrDareRequest(kind, players, current, category, intensity, generatedPrompts);
      var result := PromptFlow.Run(request, generate);
      if result.Ok? {
        var points := PointsFor(kind);
        ShowPrompt(Prompt(kind, result.value.prompt, points), current.gender, media, toWav);
      }
      isLoading := false;
    }

    /**
     * Requests a wildcard for `current` and returns the request sent. On
     * success the prompt carries exactly the points the generator returned.
     */
    method GetWildcard(players: seq<Player>, current: Player, category: Category, intensity: int,
                       generate: PromptFlow.Selection -> Option<WildcardFlow.WildcardOutput>,
                       media: SpeechFlow.Voice -> Option<SpeechFlow.Media>, toWav: string -> string)
      returns (request: WildcardFlow.WildcardInput)
      requires Valid()
      modifies this`prompt, this`turnInProgress, this`isLoading, this`generatedPrompts, this`audioUrl
      ensures Valid()
      ensures request == WildcardRequest(players, current, category, intensity, old(generatedPrompts))
      ensures var r := WildcardFlow.Run(request, generate);
        r.Ok? ==>
          && prompt == Some(Prompt(Wildcard, r.value.challenge, r.value.points))
          && generatedPrompts == old(generatedPrompts) + [r.value.challenge]
          && turnInProgress
          && audioUrl == if isTtsEnabled then SpokenUri(r.value.challenge, current.gender, media, toWav) else None
      ensures WildcardFlow.Run(request, generate).Err? ==>
        && prompt == old(prompt) && generatedPrompts == old(generatedPrompts)
        && turnInProgress == old(turnInProgress) && audioUrl == None
      ensures !isLoading
    {
      isLoading := true;
      audioUrl := None;
      request := WildcardRequest(players, current, category, intensity, generatedPrompts);
      var result := WildcardFlow.Run(request, generate);
      if result.Ok? {
        ShowPrompt(Prompt(Wildcard, result.value.challenge, result.value.points), current.gender, media, toWav);
      }
      isLoading := false;
    }

    /** No prompt, no audio, no turn in progress; everything else as it was. */
    method ClearTurnState()
      requires Valid()
      modifies this`prompt, this`audioUrl, this`turnInProgress
      ensures Valid()
      ensures prompt == None && audioUrl == None && !turnInProgress
    {
      prompt := None;
      audioUrl := None;
      turnInProgress := false;
    }

    /** Reports the prompt's points if a prompt is shown, and nothing otherwise; then clears the turn. */
    method HandleComplete() returns (report: Option<int>)
      requires Valid()
      modifies this`prompt, this`audioUrl, this`turnInProgress
      ensures Valid()
      ensures report == if old(prompt).Some? then Some(old(prompt).value.points) else None
      ensures prompt == None && audioUrl == None && !turnInProgress
    {
      if prompt.Some? {
        report := Some(prompt.value.points);
      } else {
        report := None;
      }
      ClearTurnState();
    }

    /** Reports the skip penalty whatever is shown; then clears the turn. */
    method HandleSkip() returns (report: int)
      requires Valid()
      modifies this`prompt, this`audioUrl, this`turnInProgress
      ensures Valid()
      ensures report == SkipPenalty
      ensures prompt == None && audioUrl == None && !turnInProgress
    {
      report := SkipPenalty;
      ClearTurnState();
    }

    /** The voice switch. */
    method SetIsTtsEnabled(enabled: bool)
      requires Valid()
      modifies this`isTtsEnabled
      ensures Valid() && isTtsEnabled == enabled
    {
      isTtsEnabled := enabled;
    }
  }
}
