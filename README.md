# Truth or Dare Showdown — a Dafny model of the game core

Truth or Dare Showdown is a party game for two to four players:

- The players enter their names.
- They pick an audience category (kids, teens or 18+), an intensity from 1 to 5 and a number of rounds.
- They then take turns asking a hosted language model for a truth, a dare or a wildcard challenge.

Completing a prompt earns its points: 5 for a truth, 10 for a dare, 15 to 30 for a wildcard. Skipping costs 5. After the final round the game either ends on the leaderboard or, when several players share a positive top score, adds one sudden-death round among exactly those players. Finished games go into a history of at most twenty entries, newest first. A running game is saved in browser storage and resumed on the next visit.

This project models that core and proves its properties. There is one Dafny module per source file:

- `UseGame` (use_game.dfy) is the game hook. The session is a value, and `TurnStep` and `Play` give one turn and a sequence of turns as functions of it. Class `Game` holds the hook's state cells and the two storage entries; its methods are the handlers, and each handler is proved against `TurnStep`, `ResetScores`, `PrependCapped` and `ResultOf`. Each handler's `modifies` clause names the state cells it may change, so every cell outside it is unchanged. `Restore` sets all nine session cells at once and is how handlers that call several setters are written; where that puts a cell in the clause that the handler's setters never touch (`players` and `isSuddenDeath` in `HandleCategorySelect`, `isTtsEnabled` in `HandlePlayAgain`, the cells of a session `Mount` does not restore), the handler's `ensures` states that the cell keeps its value.
- `GameScreen` is the game screen. It covers the points per prompt kind, the other-players filter, and the window of the 25 most recent texts. Class `TurnPanel` holds the screen's state cells, with the request, complete, skip and clear handlers.
- `PromptFlow`, `WildcardFlow` and `SpeechFlow` are the server flows:
  - the choice of template and safety policy by category and intensity;
  - removing a timer the text does not justify;
  - the wildcard output range;
  - the voice choice, and extraction and assembly of the audio data URI.
- `StreamRoute` is the streaming endpoint:
  - the selection of template, safety policy and points;
  - the `X-Prompt-Points` header;
  - the registered `each` and `if` template helpers, with `each` as the accumulating loop it is.
- `AiShared` holds the safety tables and the ordering "younger audience, stricter policy".
- `Leaderboard` has the stable descending sort by score (JavaScript's `Array.prototype.sort` is stable) and the crown/rank rows.
- `PlayerSetup` is the setup form (class `SetupForm`), with name validation and player construction.
- `JsStrings` holds the JavaScript built-ins the core relies on:
  - `String.prototype.trim` with the ECMAScript white-space set;
  - `indexOf`;
  - the case-insensitive match of `/second|minute/i`, ASCII case folding being what the `i` flag without `u` does for these patterns;
  - `Number.prototype.toString` for naturals, with its decimal round trip.
- `Types` and `Wrappers` hold the shared shapes, `Option` and `Result`.

The hosted models are function parameters: `generate` maps a selected template and policy to the model's structured output or to nothing, and `media` maps a voice to the audio returned. The clock (`Date.now()`, the locale date string) and `Math.random()` (the wildcard points offset, 0 to 15) are parameters too.

Deliberate readings of the code:

- `Player.gender` and `Player.avatar` are optional. The setup form builds players with neither, and the hook reads `avatar`. `src/lib/types.ts` declares a different shape.
- A stored session is resumed only when its screen is `'game'`, and the stored history is loaded whenever present.
- `handleEndGame(finalPlayers)` records `finalPlayers` but does not store them: the hook's `players` stay as they were.
- `finalPlayers` defaults to the hook's `players` (src/hooks/use-game.ts:106). The End Game button calls `handleEndGame()` with no argument, so that path is `UseGame.Game.HandleEndGame(players, …)`.
- Starting a new game from setup does not clear the stored session; only ending a game and playing again do.
- The custom `if` helper uses plain JavaScript truthiness, so an empty list of previous prompts still renders the block it guards (`StreamRoute.EmptyListRendersBlock`).
- Players built by the setup form have no gender, while every flow's player schema demands male or female. So a prompt request for such a player is refused by the input schema (`GameScreen.GenderlessPlayerIsRefused`). The model keeps this as the code has it.

## Model

| member | source | states |
|---|---|---|
| UseGame.ResetScoresMeaning | src/hooks/use-game.ts:91-92 | resetting keeps every id in order, keeps ids unique and makes the total score 0 |
| UseGame.ResetScores | src/hooks/use-game.ts:92 | every player in order with the score set to 0 and every other field kept |
| UseGame.Game.HandleStartGame | src/hooks/use-game.ts:91-94 | the players become the given ones with scores 0, the screen becomes category selection, and nothing else changes |
| UseGame.Game.HandleCategorySelect | src/hooks/use-game.ts:96-104 | category, intensity, rounds and voice setting are stored, round 1 and index 0 are set, the screen becomes the game, and the invariant is kept |
| UseGame.AwardPointsTotal | src/hooks/use-game.ts:128-132 | with unique ids, awarding points to a present player raises the total score by exactly those points |
| UseGame.AwardPointsAt | src/hooks/use-game.ts:128-132 | the player at the current index gains exactly the points; every other player is unchanged; ids stay unique and in order |
| UseGame.TurnStep | src/hooks/use-game.ts:127-165 | a turn that does not end the game leaves a playable session (round within rounds, index naming a player) and never lowers `rounds` |
| UseGame.TurnScoresCurrentPlayer | src/hooks/use-game.ts:128-132 | outside sudden death, only the current player's score changes, by exactly `points`, and the total rises by `points` |
| UseGame.AwardPoints | src/hooks/use-game.ts:129-131 | the players in their order, the one with the given id gaining the points and every other one unchanged |
| UseGame.TurnStepCases | src/hooks/use-game.ts:134-164 | the next player exactly when the index is not the last; a new round, with index 0, exactly when it is the last of a non-final round; nothing else changes |
| UseGame.TurnDecidesGame | src/hooks/use-game.ts:137-157 | after the final round, sudden death iff more than one player shares a positive top score; the players become exactly those leaders in their original order; rounds and round each grow by one; index 0; sudden death is on; otherwise the game ends with the updated players |
| UseGame.TiedLeadersIsWithScore | src/hooks/use-game.ts:141 | the filter on the top score keeps every player with that score when it is positive, and nobody otherwise |
| UseGame.TiedLeaders | src/hooks/use-game.ts:141 | the definition (no contract of its own) of the filter on the top, positive score; its meaning is `TiedLeadersIsWithScore` |
| UseGame.SuddenDeathPoolMeaning | src/hooks/use-game.ts:139-141 | the pool computed from the sorted copy equals the players with the highest score in their own order when that score is positive, else nobody |
| UseGame.SuddenDeathPool | src/hooks/use-game.ts:139-141 | the definition (no contract of its own): the sorted players with the top score, when it is positive; its meaning is `SuddenDeathPoolMeaning` |
| UseGame.WinnerNameMeaning | src/hooks/use-game.ts:107-113 | "No one" with no players or a non-positive best score; otherwise the earliest player with the best score |
| UseGame.WinnerName | src/hooks/use-game.ts:107-113 | the definition (no contract of its own): the first sorted player's name if that score is positive, else "No one"; its meaning is `WinnerNameMeaning` |
| UseGame.WinnerOfClearLead | src/hooks/use-game.ts:107-113 | with scores 5, 3 and 3 the player with 5 is the winner |
| UseGame.WinnerOfNoPoints | src/hooks/use-game.ts:113 | with scores 0, 0 and 0 the winner is "No one" |
| UseGame.ResultOf | src/hooks/use-game.ts:109-114 | the record has the clock's id and date and the winner's name |
| UseGame.ResultOfRows | src/hooks/use-game.ts:111 | the record has one row per player, in order, each with that player's name, score and avatar |
| UseGame.PrependCapped | src/hooks/use-game.ts:116 | the new history starts with the new result, followed by the old history, and has min(old length + 1, 20) entries |
| UseGame.HistoryKeepsNewest | src/hooks/use-game.ts:116 | after any sequence of finished games the history is those games newest first, followed by the old history, cut to 20 |
| UseGame.Game.HandleEndGame | src/hooks/use-game.ts:106-125 | the history becomes the new result prepended and capped, and is written to storage; the saved session is cleared; the screen becomes the leaderboard; the players are untouched |
| UseGame.Game.HandleTurnComplete | src/hooks/use-game.ts:127-165 | the new state is exactly the turn step of the old one; a finished game is recorded as by HandleEndGame with the updated players; the invariant is kept |
| UseGame.Game.DecideFinalRound | src/hooks/use-game.ts:139-157 | the final-round branch: sudden death among the tied positive leaders, or the end of the game |
| UseGame.TurnAdvances | src/hooks/use-game.ts:134-164 | before the last turn of the final round, a turn moves exactly one step along the schedule (round - 1) * players + index, with the same rounds, ids and sudden-death flag |
| UseGame.RegularTurns | src/hooks/use-game.ts:127-165 | any sequence of turns that stays within rounds * players keeps the game on and advances the schedule by its length |
| UseGame.LastPosition | src/hooks/use-game.ts:134-137 | the last schedule position is the last player of the final round |
| UseGame.GameLength | src/hooks/use-game.ts:127-165 | a game from round 1 is still on after every one of its first rounds * players - 1 turns; after exactly rounds * players turns it has ended or is in sudden death with one more round |
| UseGame.PlayTotal | src/hooks/use-game.ts:128-164 | for any turns that are all taken while the game is on and none of which forms a sudden-death pool (including turns inside a sudden death, and a last turn that ends the game), the ids stay unchanged and unique and the total score of the players the game is left with, on or ended, is the starting total plus the sum of the turns' points |
| UseGame.Game.Mount | src/hooks/use-game.ts:38-67 | a stored history replaces the in-memory one; a stored session is restored in full only if its screen is the game; otherwise the state is unchanged |
| UseGame.Game.Restore | src/hooks/use-game.ts:49-57 | after the nine setter calls the session state equals the given session (mount restore; other handlers use it for their batches of setter calls) |
| UseGame.Game.PersistSession | src/hooks/use-game.ts:70-85 | a snapshot of the session is written only while the screen is the game with at least one player |
| UseGame.Game.HandlePlayAgain | src/hooks/use-game.ts:167-177 | the saved session is cleared and every default is restored (no players, kids, intensity 1, 5 rounds, round 1, index 0, no sudden death, player setup); the voice setting and the history are kept |
| UseGame.Game.HandleShowHistory | src/hooks/use-game.ts:179-181 | the screen becomes the history and the invariant is kept |
| UseGame.Game.HandleBackToSetup | src/hooks/use-game.ts:183-185 | the screen becomes player setup and the invariant is kept |
| UseGame.Game.SetIsTtsEnabled | src/hooks/use-game.ts:30 | the exported voice setter sets the voice setting, changes no other cell and keeps the invariant |
| UseGame.Game.CurrentPlayer | src/hooks/use-game.ts:35 | during a game the current player is the player at the current index, and so one of the players |
| UseGame.Game.constructor | src/hooks/use-game.ts:23-32 | the initial state cells: player setup, no players, kids, intensity 1, 5 rounds, round 1, index 0, voice on, empty history |
| GameScreen.PointsFor | src/components/game-screen.tsx:70 | a truth is worth 5 points and a dare 10 |
| GameScreen.PointsAgreeWithEndpoint | src/components/game-screen.tsx:70 | the screen and the streaming endpoint give a truth or a dare the same points |
| GameScreen.OtherPlayersMembers | src/components/game-screen.tsx:57-59 | every player whose id differs from the current one is sent as name and gender, and nothing sent comes from any other player |
| GameScreen.OtherPlayersInOrder | src/components/game-screen.tsx:57-59 | the players sent are picked by strictly increasing indices into the players, one entry per player whose id differs from the current one, each projected to name and gender: every other player exactly once, in the players' order |
| GameScreen.OtherPlayers | src/components/game-screen.tsx:57-59 | the definition (no contract of its own): the filter and projection; its meaning is `OtherPlayersMembers` and `OtherPlayersInOrder` |
| GameScreen.OtherPlayersCount | src/components/game-screen.tsx:57-59 | with unique ids, exactly one player (the current one) is left out |
| GameScreen.RecentPromptsMeaning | src/components/game-screen.tsx:67 | the window is the last min(25, n) texts |
| GameScreen.RecentPrompts | src/components/game-screen.tsx:67 | the definition (no contract of its own) of `slice(-25)`; its meaning is `RecentPromptsMeaning` |
| GameScreen.RecentAfterAppend | src/components/game-screen.tsx:67-72 | appending a text adds it to the window, and the oldest text leaves once the window holds 25 |
| GameScreen.SpokenUri | src/components/game-screen.tsx:38-50 | no audio for a player without gender; otherwise exactly the speech flow's answer for this text and gender: its data URI when it succeeds, no audio when it fails (the WAV data URI exists exactly when media comes back) |
| GameScreen.GenderlessPlayerIsRefused | src/components/game-screen.tsx:61-68 | the request for a player without gender is refused by the prompt flow's input schema |
| GameScreen.AsPromptPlayer | src/components/game-screen.tsx:59 | the definition (no contract of its own) of the name-and-gender projection |
| GameScreen.TruthOrDareRequest | src/components/game-screen.tsx:61-68 | the definition (no contract of its own) of the request: the current player, category, intensity, kind, the other players and the recent window; `GenderlessPlayerIsRefused` is about it |
| GameScreen.WildcardRequest | src/components/game-screen.tsx:91-98 | the definition (no contract of its own) of the wildcard request, with the same fields but no kind |
| GameScreen.TurnPanel.constructor | src/components/game-screen.tsx:30-35 | no prompt, no turn, not loading, no texts, voice on, no audio |
| GameScreen.TurnPanel.GetAudio | src/components/game-screen.tsx:38-50 | with the voice on and audio produced, the audio becomes the speech flow's data URI for the text and gender; otherwise nothing changes |
| GameScreen.TurnPanel.ShowPrompt | src/components/game-screen.tsx:71-74 | as also at lines 100-103, the prompt is shown, its text appended, the turn started and audio requested |
| GameScreen.TurnPanel.GetTruthOrDare | src/components/game-screen.tsx:52-81 | the request carries the current player, the other players and the last 25 texts; on success the prompt has its kind's points and its text is appended once; on failure only the audio is cleared; loading ends either way |
| GameScreen.TurnPanel.GetWildcard | src/components/game-screen.tsx:83-110 | the same for a wildcard, whose prompt carries exactly the points the flow returned |
| GameScreen.TurnPanel.ClearTurnState | src/components/game-screen.tsx:112-116 | no prompt, no audio, no turn in progress |
| GameScreen.TurnPanel.HandleComplete | src/components/game-screen.tsx:118-124 | reports the prompt's points exactly when a prompt is shown, then clears the turn |
| GameScreen.TurnPanel.HandleSkip | src/components/game-screen.tsx:126-136 | always reports -5, then clears the turn |
| GameScreen.TurnPanel.SetIsTtsEnabled | src/components/game-screen.tsx:160-164 | the voice switch sets the screen's voice setting, changes nothing else and keeps the invariant |
| PromptFlow.SelectPrompt | src/ai/flows/generatePromptFlow.ts:89-106 | the extreme template and policy exactly for 18+ at intensity 5; otherwise the normal template with the category's policy |
| PromptFlow.ValidPlayer | src/lib/ai-shared.ts:5-8 | the definition (no contract of its own) of the player schema: a gender, male or female, is required |
| PromptFlow.ValidInput | src/ai/flows/generatePromptFlow.ts:21-28 | the definition (no contract of its own) of the input schema: valid player and players, intensity within 1..5, a truth or a dare; `Run` rejects exactly its failures |
| PromptFlow.KidsNeverExtreme | src/ai/flows/generatePromptFlow.ts:91-93 | kids always get the normal template and the kids policy, whatever the intensity |
| PromptFlow.PostProcess | src/ai/flows/generatePromptFlow.ts:111-118 | the text is kept; the timer is dropped exactly when the text names no second or minute |
| PromptFlow.PostProcessIdempotent | src/ai/flows/generatePromptFlow.ts:111-118 | post-processing twice is post-processing once |
| PromptFlow.Run | src/ai/flows/generatePromptFlow.ts:82-121 | schema rejection exactly for invalid input; failure exactly when the model gives no output; on valid input with an output, success with the post-processed output: the model's text, with its timer only if the text names a duration |
| WildcardFlow.SelectWildcard | src/ai/flows/generateWildcardFlow.ts:90-107 | the extreme wildcard template and policy exactly for 18+ at intensity 5; otherwise the wildcard template with the category's policy |
| WildcardFlow.ValidInput | src/ai/flows/generateWildcardFlow.ts:22-28 | the definition (no contract of its own) of the input schema: valid player and players, intensity within 1..5; `Run` rejects exactly its failures |
| WildcardFlow.ValidOutput | src/ai/flows/generateWildcardFlow.ts:31-35 | the definition (no contract of its own) of the output schema: points within 15..30; `Run` rejects an answer that fails it |
| WildcardFlow.PostProcess | src/ai/flows/generateWildcardFlow.ts:111-120 | challenge and points are kept; the timer is dropped exactly when the text names no duration |
| WildcardFlow.PostProcessIdempotent | src/ai/flows/generateWildcardFlow.ts:111-120 | post-processing twice is post-processing once |
| WildcardFlow.Run | src/ai/flows/generateWildcardFlow.ts:84-122 | schema rejection exactly for invalid input; on valid input, failure when the model gives no output, rejection when its points are outside 15..30, and otherwise success with the post-processed output (the model's challenge and points, its timer only if the challenge names a duration) |
| TimerPolicy.KeptTimer | src/ai/flows/generatePromptFlow.ts:113-117 | no timer exactly when there was none or the text names no second or minute in any letter case; otherwise the given timer |
| TimerPolicy.TellAJokeLosesTimer | src/ai/flows/generatePromptFlow.ts:113-117 | "Tell a joke" with a 30-second timer loses the timer |
| TimerPolicy.PlankKeepsTimer | src/ai/flows/generatePromptFlow.ts:113-117 | "Plank for 30 SECONDS" keeps its timer |
| StreamRoute.Select | src/app/api/stream/route.ts:43-65 | 5 points for a truth, 10 for a dare, 15 + offset (15..30) for a wildcard; extreme template exactly for 18+ at intensity 5; prompt templates exactly for truth and dare; the matching policy |
| StreamRoute.ValidInput | src/app/api/stream/route.ts:16-23 | the definition (no contract of its own) of the input schema, with wildcard admitted as a type; `Post` answers a server error exactly for its failures |
| StreamRoute.SelectAgreesWithFlows | src/app/api/stream/route.ts:47-65 | the endpoint chooses the same template and policy as the flow for the same kind |
| StreamRoute.PointsHeader | src/app/api/stream/route.ts:89 | the header is a decimal string that reads back as the points |
| StreamRoute.Post | src/app/api/stream/route.ts:39-100 | given a parsed body and a model call that does not fail, a server error exactly when the input fails the schema; otherwise the stream uses the template, safety settings and points chosen by type, category, intensity and the wildcard offset, with the points (positive) as a decimal header |
| StreamRoute.RenderEachAppend | src/app/api/stream/route.ts:25-31 | rendering a concatenated list renders each part in turn |
| StreamRoute.Each | src/app/api/stream/route.ts:25-31 | the loop produces the block rendered for every element, in order |
| StreamRoute.RenderIf | src/app/api/stream/route.ts:33-37 | the block when the condition is truthy, nothing otherwise |
| StreamRoute.Truthy | src/app/api/stream/route.ts:34 | the definition (no contract of its own) of JavaScript truthiness, every array included; `EmptyListRendersBlock` states the empty-array case |
| StreamRoute.EmptyListRendersBlock | src/app/api/stream/route.ts:33-37 | an empty list is truthy, so its block is rendered; undefined renders nothing |
| AiShared.SettingsForCategory | src/lib/ai-shared.ts:101-125 | the threshold of each harm category for kids, teens and 18+ |
| AiShared.ExtremeSettings | src/lib/ai-shared.ts:127-132 | every harm category unblocked |
| AiShared.PolicyOf | src/lib/ai-shared.ts:101-132 | every policy names the four harm categories once, in the same order |
| AiShared.YoungerIsStricter | src/lib/ai-shared.ts:101-132 | a younger audience's policy is at least as strict as an older one's, for every harm category |
| SpeechFlow.VoiceFor | src/ai/flows/generateSpeechFlow.ts:63 | Rigel exactly for a female player, Vega for a male one |
| SpeechFlow.PayloadAfterFirstComma | src/ai/flows/generateSpeechFlow.ts:83-86 | the payload is the text after the first comma, or the whole URL if there is none |
| SpeechFlow.Payload | src/ai/flows/generateSpeechFlow.ts:84 | the definition (no contract of its own) of `substring(indexOf(',') + 1)`; its meaning is `PayloadAfterFirstComma` |
| SpeechFlow.AudioDataUri | src/ai/flows/generateSpeechFlow.ts:90-92 | the WAV data URI prefix followed by the encoded audio |
| SpeechFlow.PayloadOfAudioDataUri | src/ai/flows/generateSpeechFlow.ts:83-92 | taking the payload of an assembled data URI gives back comma-free encoded audio |
| SpeechFlow.Run | src/ai/flows/generateSpeechFlow.ts:60-93 | failure exactly when no media is returned for the chosen voice; otherwise a WAV data URI whose payload is the transcoded audio |
| Leaderboard.InsertByScore | src/components/leaderboard.tsx:15 | insertion keeps every element (same multiset) and adds one |
| Leaderboard.InsertBounded | src/components/leaderboard.tsx:15 | inserting a player who does not exceed a bound into a list within the bound keeps every score within it |
| Leaderboard.InsertKeepsOrder | src/components/leaderboard.tsx:15 | inserting into a list sorted by descending score keeps it sorted |
| Leaderboard.SortByScore | src/components/leaderboard.tsx:15 | the sorted copy is a permutation of the players with non-increasing scores |
| Leaderboard.InsertWithScore | src/components/leaderboard.tsx:15 | insertion places an element before every element of equal score |
| Leaderboard.SortIsStable | src/components/leaderboard.tsx:15 | players with equal scores keep their relative order |
| Leaderboard.MaxScore | src/components/leaderboard.tsx:15 | the highest score is attained by some player and bounds every score |
| Leaderboard.SortedHeadIsMax | src/components/leaderboard.tsx:15 | the first sorted player has the highest score |
| Leaderboard.WithScoreMembers | src/components/leaderboard.tsx:15 | the filter by score keeps exactly the players with that score |
| Leaderboard.Rows | src/components/leaderboard.tsx:36-42 | one row per player; the first row has the crown and the highest score; row i shows rank i + 1; scores do not increase down the table |
| Leaderboard.RowsShowSorted | src/components/leaderboard.tsx:36-46 | row i shows the name and score of player i of the sorted list |
| PlayerSetup.BuildPlayers | src/components/player-setup.tsx:34-50 | nothing is started exactly when some name is blank after trimming |
| PlayerSetup.SomeNameBlank | src/components/player-setup.tsx:36 | the definition (no contract of its own) of the blank-name test; `WhitespaceNameBlocksStart` and `BuildPlayers` are about it |
| PlayerSetup.SetupForm.constructor | src/components/player-setup.tsx:18-19 | no count chosen and no names |
| PlayerSetup.MakePlayers | src/components/player-setup.tsx:45-49 | one player per name, in order: id its position, the trimmed name, score 0, no gender and no avatar |
| PlayerSetup.BuiltPlayersAreWellFormed | src/components/player-setup.tsx:45-49 | ids are the slot indexes and unique; names are trimmed and non-empty; every score is 0 |
| PlayerSetup.AllZeroTotal | src/components/player-setup.tsx:48 | players who all have score 0 have total score 0 |
| PlayerSetup.WhitespaceNameBlocksStart | src/components/player-setup.tsx:36 | a name made only of white space stops the start |
| PlayerSetup.SetupForm.HandleNumPlayerSelect | src/components/player-setup.tsx:22-26 | choosing n players opens exactly n empty name slots |
| PlayerSetup.SetupForm.HandleNameChange | src/components/player-setup.tsx:28-32 | only the edited slot changes |
| PlayerSetup.SetupForm.HandleBack | src/components/player-setup.tsx:97 | the count is cleared |
| PlayerSetup.SetupForm.HandleStartGame | src/components/player-setup.tsx:34-51 | the players handed on are those that validation and construction give, with unique ids |
| JsStrings.TrimStart | src/components/player-setup.tsx:36 | the result is a suffix, starts with a non-white-space character unless empty, and only white space was removed |
| JsStrings.Trim | src/components/player-setup.tsx:36 | the definition (no contract of its own): the end trim of the start trim; its meaning is `TrimIsSlice`, `TrimEmptyIffBlank` and `TrimIdempotent` |
| JsStrings.TrimEnd | src/components/player-setup.tsx:36 | the result is a prefix, ends with a non-white-space character unless empty, and only white space was removed |
| JsStrings.TrimIsSlice | src/components/player-setup.tsx:47 | a trimmed string is a slice of the original with only white space removed at both ends |
| JsStrings.TrimEmptyIffBlank | src/components/player-setup.tsx:36 | trimming gives the empty string exactly when the string is all white space |
| JsStrings.TrimIdempotent | src/components/player-setup.tsx:47 | trimming twice is trimming once |
| JsStrings.IndexOf | src/ai/flows/generateSpeechFlow.ts:84 | -1 exactly when the character is absent; otherwise the index of its first occurrence |
| JsStrings.NatToDecimal | src/app/api/stream/route.ts:89 | a non-empty digit string without leading zeros |
| JsStrings.DecimalRoundTrip | src/app/api/stream/route.ts:89 | the decimal string of a natural number reads back as that number |

## Left out

- The hosted model calls (`ai.generate`, `definePrompt`, `generateStream`) and the text of the prompt templates. The model's answer is a parameter.
- `Handlebars.compile` and any template rendering other than the two registered helpers.
- The streamed response body (`ReadableStream`, text encoding) and the error message body.
- `toWav` and the base64 decoding. `toWav` is a parameter with no assumption on it; that the payload read back from the data URI is the WAV audio is stated in `SpeechFlow.Run`'s contract only under the condition that that audio has no comma, as base64 never has.
- JSON parsing of storage and its failures. A parse failure leaves the state unchanged, and this is not modelled.
- UseGame.Game.constructor: requires a stored session on the game screen to satisfy the session invariant (round within 1..rounds, player index within the players). The hook parses whatever the storage holds without checking it; a corrupt or hand-edited entry is not modelled.
- UseGame.Game.HandleEndGame: the write of the history to storage always succeeds in the model. The hook wraps it in try/catch (src/hooks/use-game.ts:118-122), so a failed write (storage full or disabled) leaves the stored entry as it was; that case is not modelled, and neither is it for `HandleTurnComplete` and `DecideFinalRound`, which end the game through it.
- Toasts, vibration, icons and every other piece of presentation. This includes the sudden-death message that joins the tied names with " and ".
- Numeric intensity and points are integers: zod's `z.number()` accepts non-integer values such as 2.5 (it rejects NaN), which the model does not represent.
- Asynchrony: audio is requested synchronously after the prompt is shown. So a late audio reply from an earlier prompt, racing with a newer prompt, is not modelled.
- The wiring in `src/app/page.tsx` is not part of this model, nor are the welcome screen, the category screen's widgets, the history view or the theme.
- The custom `if` helper's `this` context: the helper's block is modelled as an already rendered string.
- UseGame.Game.DecideFinalRound: not a separate function in the hook. It is the final-round branch of `handleTurnComplete`, split out only to keep each proof small.
- StreamRoute.Post: the other failures that reach the route's catch (src/app/api/stream/route.ts:93-99) are not modelled: a body that is not JSON (`req.json()` throws, line 41), a template compile or fill that throws (lines 67-68), and a rejected `ai.generateStream` call (lines 70-73). Each of them answers 500 in the source; the model only takes a parsed body and has no model call.
- GameScreen.TurnPanel.ShowPrompt: not a separate function on the screen. It is the success path the two request handlers share.
- UseGame.Game.HandleCategorySelect: requires a round count of at least 1 and at least one player. The category screen offers 3 to 15 rounds after setup has produced players.
- PlayerSetup.SetupForm.HandleNumPlayerSelect: accepts any count. The form offers only the buttons 2, 3 and 4 (src/components/player-setup.tsx:68), which is presentation and not modelled.
- PlayerSetup.SetupForm.HandleStartGame: requires a chosen player count, as the Start button is disabled until a count is chosen (src/components/player-setup.tsx:106).
- GameScreen.TurnPanel.GetTruthOrDare: requires a truth or a dare, the only kinds its parameter type admits.
