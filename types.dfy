/**
 * The shapes shared by the game: players, categories, prompt kinds, screens
 * and history records, as the hook and the components actually use them.
 */
module Types {
  import opened Wrappers

  datatype Gender = Male | Female

  /** The three audience categories offered on the category screen. */
  datatype Category = Kids | Teens | Adult

  /** The kinds of prompt a player can ask for. */
  datatype PromptKind = Truth | Dare | Wildcard

  /**
   * A player. The setup form builds players without a gender or an avatar,
   * so both are optional here.
   */
  datatype Player = Player(id: int, name: string, gender: Option<Gender>, avatar: Option<string>, score: int)

  /** The screens the game hook moves between. */
  datatype Screen = PlayerSetupPage | CategorySelectionPage | GamePage | LeaderboardPage | HistoryPage

  /** A player as recorded in a finished game's history entry. */
  datatype ResultPlayer = ResultPlayer(name: string, score: int, avatar: Option<string>)

  /** One entry of the game history. */
  datatype GameResult = GameResult(id: int, date: string, players: seq<ResultPlayer>, winnerName: string)

  /** No two players share an id. */
  predicate UniqueIds(ps: seq<Player>)
  {
    forall i, j :: 0 <= i < j < |ps| ==> ps[i].id != ps[j].id
  }

  /** The sum of all players' scores. */
  function TotalScore(ps: seq<Player>): int
  {
    if |ps| == 0 then 0 else TotalScore(ps[..|ps| - 1]) + ps[|ps| - 1].score
  }

  /** The ids of the players, in order. */
  function Ids(ps: seq<Player>): (r: seq<int>)
    ensures |r| == |ps| && forall i :: 0 <= i < |ps| ==> r[i] == ps[i].id
  {
    seq(|ps|, i requires 0 <= i < |ps| => ps[i].id)
  }
}
