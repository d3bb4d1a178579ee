/**
 * The game hook: the session state of one game and the handlers that move it
 * from player setup through the rounds to the leaderboard.
 *
 * The pure part first: a session value, one turn as a function of it, and a
 * whole sequence of turns, with what they keep and what they change. Then
 * the class `Game`, whose fields are the hook's state cells together with
 * the two browser-storage entries, and whose methods are the handlers.
 */
module UseGame {
  import opened Wrappers
  import opened Types
  import opened Leaderboard

  /** How many finished games the history keeps. */
  const HistoryLimit := 20

  /** The winner recorded when nobody has a positive score. */
  const NoOne := "No one"

  /** The hook's state cells that a saved session holds. */
  datatype Session = Session(
    screen: Screen,
    players: seq<Player>,
    category: Category,
    intensity: int,
    rounds: int,
    currentRound: int,
    currentPlayerIndex: nat,
    isTtsEnabled: bool,
    isSuddenDeath: bool)

  /** The invariant the handlers keep: a round is in range and, in a game, the index names a player. */
  predicate SessionValid(s: Session)
  {
    && 1 <= s.currentRound <= s.rounds
    && (s.screen == GamePage ==> s.currentPlayerIndex < |s.players|)
  }

  /** A session in which a turn can be completed. */
  predicate Playable(s: Session)
  {
    SessionValid(s) && s.screen == GamePage
  }

  // ---------------------------------------------------------------------------
  // Scores
  // ---------------------------------------------------------------------------

  /** Every player whose id is `id` gains `points`; everybody else is unchanged. */
  function AwardPoints(ps: seq<Player>, id: int, points: int): (r: seq<Player>)
    ensures |r| == |ps|
    ensures forall j :: 0 <= j < |ps| ==>
      r[j] == if ps[j].id == id then ps[j].(score := ps[j].score + points) else ps[j]
  {
    seq(|ps|, j requires 0 <= j < |ps| =>
      if ps[j].id == id then ps[j].(score := ps[j].score + points) else ps[j])
  }

  lemma AwardAbsent(ps: seq<Player>, id: int, points: int)
    requires forall j :: 0 <= j < |ps| ==> ps[j].id != id
    ensures AwardPoints(ps, id, points) == ps
  {
  }

  /** With unique ids, awarding points to a present id raises the total by exactly those points. */
  lemma {:induction false} AwardPointsTotal(ps: seq<Player>, k: nat, points: int)
    requires UniqueIds(ps) && k < |ps|
    ensures TotalScore(AwardPoints(ps, ps[k].id, points)) == TotalScore(ps) + points
  {
    var id := ps[k].id;
    var r := AwardPoints(ps, id, points);
    var n := |ps|;
    assert r[..n - 1] == AwardPoints(ps[..n - 1], id, points);
    if k == n - 1 {
      AwardAbsent(ps[..n - 1], id, points);
    } else {
      AwardPointsTotal(ps[..n - 1], k, points);
    }
  }

  /** Every score back to zero, order and everything else kept. */
  function ResetScores(ps: seq<Player>): (r: seq<Player>)
    ensures |r| == |ps|
    ensures forall j :: 0 <= j < |ps| ==> r[j] == ps[j].(score := 0)
  {
    seq(|ps|, j requires 0 <= j < |ps| => ps[j].(score := 0))
  }

  lemma {:induction false} ResetScoresMeaning(ps: seq<Player>)
    ensures Ids(ResetScores(ps)) == Ids(ps)
    ensures TotalScore(ResetScores(ps)) == 0
    ensures UniqueIds(ps) ==> UniqueIds(ResetScores(ps))
  {
    var r := ResetScores(ps);
    if |ps| > 0 {
      assert r[..|ps| - 1] == ResetScores(ps[..|ps| - 1]);
      ResetScoresMeaning(ps[..|ps| - 1]);
    }
  }

  // ---------------------------------------------------------------------------
  // Winners and ties
  // ---------------------------------------------------------------------------

  /** The end-of-game filter on the sorted players: those with the top score, if it is positive. */
  function TiedLeaders(sorted: seq<Player>, top: int): seq<Player>
  {
    if |sorted| == 0 then []
    else
      (if sorted[0].score == top && sorted[0].score > 0 then [sorted[0]] else [])
      + TiedLeaders(sorted[1..], top)
  }

  lemma {:induction false} TiedLeadersIsWithScore(s: seq<Player>, top: int)
    ensures TiedLeaders(s, top) == if top > 0 then WithScore(s, top) else []
  {
    if |s| > 0 {
      TiedLeadersIsWithScore(s[1..], top);
    }
  }

  /** The players who go on to sudden death, as the hook computes them. */
  function SuddenDeathPool(ps: seq<Player>): seq<Player>
    requires |ps| > 0
  {
    var sorted := SortByScore(ps);
    TiedLeaders(sorted, sorted[0].score)
  }

  /**
   * The sudden-death pool is, in the players' own order, every player with
   * the highest score when that score is positive, and nobody otherwise.
   */
  lemma SuddenDeathPoolMeaning(ps: seq<Player>)
    requires |ps| > 0
    ensures SuddenDeathPool(ps) == if MaxScore(ps) > 0 then WithScore(ps, MaxScore(ps)) else []
  {
    SortedHeadIsMax(ps);
    var sorted := SortByScore(ps);
    TiedLeadersIsWithScore(sorted, sorted[0].score);
    SortIsStable(ps, MaxScore(ps));
  }

  /** The recorded winner: the first player of the sorted list if their score is positive. */
  function WinnerName(ps: seq<Player>): string
  {
    var sorted := SortByScore(ps);
    if |sorted| > 0 && sorted[0].score > 0 then sorted[0].name else NoOne
  }

  lemma WithScoreHead(s: seq<Player>)
    requires |s| > 0
    ensures |WithScore(s, s[0].score)| > 0 && WithScore(s, s[0].score)[0] == s[0]
  {
  }

  /**
   * The winner is "No one" when there are no players or the best score is not
   * positive; otherwise it is the earliest player with the best score.
   */
  lemma WinnerNameMeaning(ps: seq<Player>)
    ensures |ps| == 0 ==> WinnerName(ps) == NoOne
    ensures |ps| > 0 && MaxScore(ps) <= 0 ==> WinnerName(ps) == NoOne
    ensures |ps| > 0 && MaxScore(ps) > 0 ==>
      |WithScore(ps, MaxScore(ps))| > 0 && WinnerName(ps) == WithScore(ps, MaxScore(ps))[0].name
  {
    if |ps| > 0 {
      SortedHeadIsMax(ps);
      var sorted := SortByScore(ps);
      WithScoreHead(sorted);
      SortIsStable(ps, MaxScore(ps));
    }
  }

  /** Scores 5, 3, 3: the player with 5 wins. */
  lemma WinnerOfClearLead()
    ensures WinnerName([Player(0, "Ann", None, None, 5), Player(1, "Bo", None, None, 3),
                        Player(2, "Cy", None, None, 3)]) == "Ann"
  {
    var ps := [Player(0, "Ann", None, None, 5), Player(1, "Bo", None, None, 3),
               Player(2, "Cy", None, None, 3)];
    WinnerNameMeaning(ps);
    assert MaxScore(ps) == 5;
    assert WithScore(ps, 5) == [ps[0]];
  }

  /** Scores 0, 0, 0: nobody wins. */
  lemma WinnerOfNoPoints()
    ensures WinnerName([Player(0, "Ann", None, None, 0), Player(1, "Bo", None, None, 0),
                        Player(2, "Cy", None, None, 0)]) == NoOne
  {
    var ps := [Player(0, "Ann", None, None, 0), Player(1, "Bo", None, None, 0),
               Player(2, "Cy", None, None, 0)];
    WinnerNameMeaning(ps);
  }

  // ---------------------------------------------------------------------------
  // History
  // ---------------------------------------------------------------------------

  /** The record of a finished game; `id` and `date` come from the clock. */
  function ResultOf(finalPlayers: seq<Player>, id: int, date: string): (g: GameResult)
    ensures g.winnerName == WinnerName(finalPlayers) && g.id == id && g.date == date
  {
    GameResult(id, date,
      seq(|finalPlayers|, i requires 0 <= i < |finalPlayers| =>
        ResultPlayer(finalPlayers[i].name, finalPlayers[i].score, finalPlayers[i].avatar)),
      WinnerName(finalPlayers))
  }

  /** The record lists every player's name, score and avatar, in the players' order. */
  lemma ResultOfRows(finalPlayers: seq<Player>, id: int, date: string)
    ensures var g := ResultOf(finalPlayers, id, date);
      && |g.players| == |finalPlayers|
      && forall i :: 0 <= i < |finalPlayers| ==>
           g.players[i] == ResultPlayer(finalPlayers[i].name, finalPlayers[i].score, finalPlayers[i].avatar)
  {
  }

  function Min(a: int, b: int): int { if a < b then a else b }

  /** The new result in front of the old history, cut to the limit. */
  function PrependCapped(g: GameResult, h: seq<GameResult>): (r: seq<GameResult>)
    ensures |r| == Min(|h| + 1, HistoryLimit)
    ensures r[0] == g && forall i :: 1 <= i < |r| ==> r[i] == h[i - 1]
  {
    ([g] + h)[..Min(|h| + 1, HistoryLimit)]
  }

  function Reverse<T>(s: seq<T>): (r: seq<T>)
    ensures |r| == |s|
  {
    if |s| == 0 then [] else [s[|s| - 1]] + Reverse(s[..|s| - 1])
  }

  /** The history after finishing the games `gs`, in that order. */
  function HistoryAfter(h: seq<GameResult>, gs: seq<GameResult>): seq<GameResult>
  {
    if |gs| == 0 then h else PrependCapped(gs[|gs| - 1], HistoryAfter(h, gs[..|gs| - 1]))
  }

  /** The history holds the newest games first, at most twenty of them. */
  lemma {:induction false} HistoryKeepsNewest(h: seq<GameResult>, gs: seq<GameResult>)
    requires |h| <= HistoryLimit
    ensures HistoryAfter(h, gs) == (Reverse(gs) + h)[..Min(|gs| + |h|, HistoryLimit)]
  {
    if |gs| > 0 {
      var n := |gs|;
      HistoryKeepsNewest(h, gs[..n - 1]);
      var prev := HistoryAfter(h, gs[..n - 1]);
      var all := Reverse(gs) + h;
      assert all == [gs[n - 1]] + (Reverse(gs[..n - 1]) + h);
      var r := HistoryAfter(h, gs);
      assert |r| == Min(|gs| + |h|, HistoryLimit);
      forall i | 0 <= i < |r| ensures r[i] == all[i] {
        if i > 0 {
          assert r[i] == prev[i - 1];
        }
      }
    }
  }

  // ---------------------------------------------------------------------------
  // Turns
  // ---------------------------------------------------------------------------

  /** What completing a turn leads to. */
  datatype TurnOutcome =
    | NextPlayer(next: Session)
    | NextRound(next: Session)
    | SuddenDeath(next: Session)
    | GameOver(final: seq<Player>)

  /** Completing the current player's turn, worth `points` (possibly negative). */
  function TurnStep(s: Session, points: int): (o: TurnOutcome)
    requires Playable(s)
    ensures !o.GameOver? ==> Playable(o.next) && o.next.rounds >= s.rounds
  {
    var updated := AwardPoints(s.players, s.players[s.currentPlayerIndex].id, points);
    if s.currentPlayerIndex + 1 < |s.players| then
      NextPlayer(s.(players := updated, currentPlayerIndex := s.currentPlayerIndex + 1))
    else if s.currentRound < s.rounds then
      NextRound(s.(players := updated, currentRound := s.currentRound + 1, currentPlayerIndex := 0))
    else
      var pool := SuddenDeathPool(updated);
      if |pool| > 1 then
        SuddenDeath(s.(players := pool, rounds := s.rounds + 1, currentRound := s.currentRound + 1,
                       currentPlayerIndex := 0, isSuddenDeath := true))
      else
        GameOver(updated)
  }

  /** A turn that does not start sudden death keeps the players, with the updated scores. */
  lemma TurnKeepsAwarded(s: Session, points: int)
    requires Playable(s)
    ensures var o := TurnStep(s, points);
      var updated := AwardPoints(s.players, s.players[s.currentPlayerIndex].id, points);
      && (o.GameOver? ==> o.final == updated)
      && (o.NextPlayer? || o.NextRound? ==> o.next.players == updated)
  {
  }

  /** Awarding to the player at index k changes exactly that player's score, by exactly the points. */
  lemma AwardPointsAt(ps: seq<Player>, k: nat, points: int)
    requires UniqueIds(ps) && k < |ps|
    ensures var r := AwardPoints(ps, ps[k].id, points);
      && r[k] == ps[k].(score := ps[k].score + points)
      && (forall j :: 0 <= j < |ps| && j != k ==> r[j] == ps[j])
      && Ids(r) == Ids(ps)
      && UniqueIds(r)
      && TotalScore(r) == TotalScore(ps) + points
  {
    AwardPointsTotal(ps, k, points);
    var r := AwardPoints(ps, ps[k].id, points);
    assert Ids(r) == Ids(ps);
  }

  /** The scores after a turn: only the current player's changes, by exactly `points`. */
  lemma TurnScoresCurrentPlayer(s: Session, points: int)
    requires Playable(s) && UniqueIds(s.players)
    ensures var o := TurnStep(s, points);
      var ps := if o.GameOver? then o.final else o.next.players;
      !o.SuddenDeath? ==>
        && |ps| == |s.players|
        && ps[s.currentPlayerIndex].score == s.players[s.currentPlayerIndex].score + points
        && (forall j :: 0 <= j < |ps| && j != s.currentPlayerIndex ==> ps[j] == s.players[j])
        && Ids(ps) == Ids(s.players)
        && UniqueIds(ps)
        && TotalScore(ps) == TotalScore(s.players) + points
  {
    TurnKeepsAwarded(s, points);
    AwardPointsAt(s.players, s.currentPlayerIndex, points);
  }

  /** Which branch a turn takes, and where it leaves the player index and the rounds. */
  lemma TurnStepCases(s: Session, points: int)
    requires Playable(s)
    ensures var o := TurnStep(s, points);
      && (o.NextPlayer? <==> s.currentPlayerIndex + 1 < |s.players|)
      && (o.NextPlayer? ==>
            o.next == s.(players := o.next.players, currentPlayerIndex := s.currentPlayerIndex + 1))
      && (o.NextRound? <==> s.currentPlayerIndex + 1 == |s.players| && s.currentRound < s.rounds)
      && (o.NextRound? ==>
            o.next == s.(players := o.next.players, currentRound := s.currentRound + 1, currentPlayerIndex := 0))
  {
  }

  /**
   * After the last turn of the final round, sudden death starts exactly when
   * more than one player shares a positive top score: the players become
   * those leaders in their own order, and one more round is added.
   */
  lemma TurnDecidesGame(s: Session, points: int)
    requires Playable(s)
    requires s.currentPlayerIndex + 1 == |s.players| && s.currentRound >= s.rounds
    ensures var o := TurnStep(s, points);
      var updated := AwardPoints(s.players, s.players[s.currentPlayerIndex].id, points);
      && (o.SuddenDeath? || o.GameOver?)
      && (o.SuddenDeath? <==> MaxScore(updated) > 0 && |WithScore(updated, MaxScore(updated))| > 1)
      && (o.SuddenDeath? ==>
            && o.next.players == WithScore(updated, MaxScore(updated))
            && o.next == s.(players := o.next.players, rounds := s.rounds + 1, currentRound := s.currentRound + 1,
                            currentPlayerIndex := 0, isSuddenDeath := true))
      && (o.GameOver? ==> o.final == updated)
  {
    var updated := AwardPoints(s.players, s.players[s.currentPlayerIndex].id, points);
    FinalTurnOutcome(s, points);
    SuddenDeathPoolMeaning(updated);
  }

  /** The outcome of the last turn of the final round, as the pool of tied leaders decides it. */
  lemma FinalTurnOutcome(s: Session, points: int)
    requires Playable(s)
    requires s.currentPlayerIndex + 1 == |s.players| && s.currentRound >= s.rounds
    ensures var updated := AwardPoints(s.players, s.players[s.currentPlayerIndex].id, points);
      var pool := SuddenDeathPool(updated);
      TurnStep(s, points) ==
        if |pool| > 1 then
          SuddenDeath(s.(players := pool, rounds := s.rounds + 1, currentRound := s.currentRound + 1,
                         currentPlayerIndex := 0, isSuddenDeath := true))
        else GameOver(updated)
  {
  }

  /** A position in the fixed schedule of turns: earlier rounds, then the index within the round. */
  function Position(s: Session): int
  {
    (s.currentRound - 1) * |s.players| + s.currentPlayerIndex
  }

  lemma MulMono(a: int, b: int, n: nat)
    requires a <= b
    ensures a * n <= b * n
  {
    var d := b - a;
    assert b * n == a * n + d * n;
  }

  /** Before the last turn of the final round, a turn moves one step along the schedule. */
  lemma {:induction false} TurnAdvances(s: Session, points: int)
    requires Playable(s) && Position(s) + 1 < s.rounds * |s.players|
    ensures var o := TurnStep(s, points);
      && (o.NextPlayer? || o.NextRound?)
      && Position(o.next) == Position(s) + 1
      && o.next.rounds == s.rounds
      && |o.next.players| == |s.players|
      && Ids(o.next.players) == Ids(s.players)
      && o.next.isSuddenDeath == s.isSuddenDeath
  {
    var n := |s.players|;
    var c := s.currentRound;
    if s.currentPlayerIndex + 1 >= n {
      assert (c - 1) * n + n == c * n;
      if c >= s.rounds {
        MulMono(s.rounds, c, n);
        assert false;
      }
      assert c * n == Position(s) + 1;
    }
  }

  /** The state of play after a sequence of completed turns. */
  datatype Progress = Playing(session: Session) | Ended(final: seq<Player>)

  /** Completing the turns `pts`, in order, starting from `s`. */
  function Play(s: Session, pts: seq<int>): (p: Progress)
    requires Playable(s)
    ensures p.Playing? ==> Playable(p.session) && p.session.rounds >= s.rounds
  {
    if |pts| == 0 then Playing(s)
    else
      match Play(s, pts[..|pts| - 1])
      case Ended(f) => Ended(f)
      case Playing(t) =>
        var o := TurnStep(t, pts[|pts| - 1]);
        if o.GameOver? then Ended(o.final) else Playing(o.next)
  }

  /**
   * Away from the end of the final round, every turn moves one step along the
   * schedule: the game is still on, with the same players' ids and rounds.
   */
  lemma {:induction false} RegularTurns(s: Session, pts: seq<int>)
    requires Playable(s) && Position(s) + |pts| < s.rounds * |s.players|
    ensures var p := Play(s, pts);
      && p.Playing?
      && Position(p.session) == Position(s) + |pts|
      && p.session.rounds == s.rounds
      && Ids(p.session.players) == Ids(s.players)
      && p.session.isSuddenDeath == s.isSuddenDeath
  {
    if |pts| > 0 {
      var n := |pts|;
      RegularTurns(s, pts[..n - 1]);
      var t := Play(s, pts[..n - 1]).session;
      TurnAdvances(t, pts[n - 1]);
    }
  }

  /** At the last position of the schedule, the current player is the last one of the final round. */
  lemma LastPosition(s: Session)
    requires Playable(s) && Position(s) + 1 == s.rounds * |s.players|
    ensures s.currentPlayerIndex + 1 == |s.players| && s.currentRound == s.rounds
  {
    var n := |s.players|;
    var c := s.currentRound;
    assert (c - 1) * n + n == c * n;
    if s.currentPlayerIndex + 1 < n {
      MulMono(c, s.rounds, n);
      assert false;
    }
    if c < s.rounds {
      MulMono(c + 1, s.rounds, n);
      assert false;
    }
  }

  /**
   * A game started at round 1 with the first player lasts exactly
   * rounds * |players| turns before the final decision: it is on after every
   * shorter prefix, and after the last of those turns it is either over or in
   * sudden death with one more round.
   */
  lemma {:induction false} GameLength(s: Session, pts: seq<int>)
    requires Playable(s) && Position(s) == 0 && |pts| == s.rounds * |s.players|
    ensures forall k :: 0 <= k < |pts| ==> Play(s, pts[..k]).Playing?
    ensures var p := Play(s, pts);
      p.Ended? || (p.session.isSuddenDeath && p.session.rounds == s.rounds + 1)
  {
    forall k | 0 <= k < |pts| ensures Play(s, pts[..k]).Playing? {
      RegularTurns(s, pts[..k]);
    }
    var n := |pts|;
    assert pts[..n - 1] == pts[..n][..n - 1];
    RegularTurns(s, pts[..n - 1]);
    var t := Play(s, pts[..n - 1]).session;
    LastPosition(t);
    assert pts == pts[..n];
  }

  /** The sum of a sequence of turn points. */
  function Sum(pts: seq<int>): int
  {
    if |pts| == 0 then 0 else Sum(pts[..|pts| - 1]) + pts[|pts| - 1]
  }

  /** Every turn of `pts` is taken while the game is on, and none of them starts a sudden death. */
  ghost predicate TakenWithoutNewPool(s: Session, pts: seq<int>)
    requires Playable(s)
  {
    forall k :: 0 <= k < |pts| ==>
      Play(s, pts[..k]).Playing? && !TurnStep(Play(s, pts[..k]).session, pts[k]).SuddenDeath?
  }

  /** The players a game is left with: the session's while it is on, the final ones once it has ended. */
  function PlayersOf(p: Progress): seq<Player>
  {
    if p.Playing? then p.session.players else p.final
  }

  /**
   * While no sudden-death pool is formed, whether the game is still on or
   * has ended (in a regular round or inside a sudden death), the ids are
   * unchanged and unique and the total score is the starting total plus
   * every turn's points.
   */
  lemma {:induction false} PlayTotal(s: Session, pts: seq<int>)
    requires Playable(s) && UniqueIds(s.players) && TakenWithoutNewPool(s, pts)
    ensures var ps := PlayersOf(Play(s, pts));
      && UniqueIds(ps)
      && Ids(ps) == Ids(s.players)
      && TotalScore(ps) == TotalScore(s.players) + Sum(pts)
  {
    if |pts| > 0 {
      var n := |pts|;
      var init := pts[..n - 1];
      forall k | 0 <= k < |init|
        ensures Play(s, init[..k]).Playing? && !TurnStep(Play(s, init[..k]).session, init[k]).SuddenDeath?
      {
        assert init[..k] == pts[..k];
        assert init[k] == pts[k];
      }
      PlayTotal(s, init);
      assert pts[..n - 1] == init;
      var t := Play(s, init).session;
      TurnScoresCurrentPlayer(t, pts[n - 1]);
    }
  }

  // ---------------------------------------------------------------------------
  // The hook's state cells and handlers
  // ---------------------------------------------------------------------------

  /**
   * The state of the game hook. `storedSession` and `storedHistory` are the
   * browser-storage entries for the saved session and the history; `None` is
   * an absent entry.
   */
  class Game {
    var screen: Screen
    var players: seq<Player>
    var category: Category
    var intensity: int
    var rounds: int
    var currentRound: int
    var currentPlayerIndex: nat
    var isTtsEnabled: bool
    var gameHistory: seq<GameResult>
    var isSuddenDeath: bool
    var storedSession: Option<Session>
    var storedHistory: Option<seq<GameResult>>

    /** The state cells a saved session holds. */
    function State(): Session
      reads this
    {
      Session(screen, players, category, intensity, rounds, currentRound, currentPlayerIndex,
              isTtsEnabled, isSuddenDeath)
    }

    /** None of the session's state cells changed. */
    twostate predicate SessionKept()
      reads this
    {
      && screen == old(screen) && players == old(players) && category == old(category)
      && intensity == old(intensity) && rounds == old(rounds) && currentRound == old(currentRound)
      && currentPlayerIndex == old(currentPlayerIndex) && isTtsEnabled == old(isTtsEnabled)
      && isSuddenDeath == old(isSuddenDeath)
    }

    /** The hook's invariant; a saved game session that would be resumed keeps it too. */
    ghost predicate Valid()
      reads this
    {
      && SessionValid(State())
      && (storedSession.Some? && storedSession.value.screen == GamePage ==> SessionValid(storedSession.value))
    }

    /** The initial state cells, with whatever the browser storage holds. */
    constructor (session: Option<Session>, history: Option<seq<GameResult>>)
      requires session.Some? && session.value.screen == GamePage ==> SessionValid(session.value)
      ensures Valid()
      ensures State() == Session(PlayerSetupPage, [], Kids, 1, 5, 1, 0, true, false)
      ensures gameHistory == [] && storedSession == session && storedHistory == history
    {
      screen := PlayerSetupPage;
      players := [];
      category := Kids;
      intensity := 1;
      rounds := 5;
      currentRound := 1;
      currentPlayerIndex := 0;
      isTtsEnabled := true;
      gameHistory := [];
      isSuddenDeath := false;
      storedSession := session;
      storedHistory := history;
    }

    /** The load effect: the stored history, and the stored session only if it was saved during a game. */
    method Mount()
      requires Valid()
      modifies this`screen, this`players, this`category, this`intensity, this`rounds,
               this`currentRound, this`currentPlayerIndex, this`isTtsEnabled, this`isSuddenDeath,
               this`gameHistory
      ensures Valid()
      ensures gameHistory == if old(storedHistory).Some? then old(storedHistory).value else old(gameHistory)
      ensures old(storedSession).Some? && old(storedSession).value.screen == GamePage ==>
        State() == old(storedSession).value
      ensures !(old(storedSession).Some? && old(storedSession).value.screen == GamePage) ==>
        SessionKept()
      ensures storedSession == old(storedSession) && storedHistory == old(storedHistory)
    {
      if storedHistory.Some? {
        gameHistory := storedHistory.value;
      }
      if storedSession.Some? && storedSession.value.screen == GamePage {
        Restore(storedSession.value);
      }
    }

    /** Copies a saved session back into the state cells. */
    method Restore(saved: Session)
      modifies this`screen, this`players, this`category, this`intensity, this`rounds,
               this`currentRound, this`currentPlayerIndex, this`isTtsEnabled, this`isSuddenDeath
      ensures State() == saved
    {
      screen, players, category, intensity, rounds := saved.screen, saved.players, saved.category, saved.intensity, saved.rounds;
      currentRound, currentPlayerIndex := saved.currentRound, saved.currentPlayerIndex;
      isTtsEnabled, isSuddenDeath := saved.isTtsEnabled, saved.isSuddenDeath;
    }

    /** The save effect: a snapshot is written only during a game with at least one player. */
    method PersistSession()
      requires Valid()
      modifies this`storedSession
      ensures Valid()
      ensures storedSession == if screen == GamePage && |players| > 0 then Some(State()) else old(storedSession)
    {
      if screen == GamePage && |players| > 0 {
        storedSession := Some(State());
      }
    }

    /** Takes the new players with their scores reset and moves to the category screen. */
    method HandleStartGame(newPlayers: seq<Player>)
      requires Valid()
      modifies this`players, this`screen
      ensures Valid()
      ensures State() == old(State()).(players := ResetScores(newPlayers), screen := CategorySelectionPage)
      ensures gameHistory == old(gameHistory)
      ensures storedSession == old(storedSession) && storedHistory == old(storedHistory)
    {
      players := ResetScores(newPlayers);
      screen := CategorySelectionPage;
    }

    /** Stores the chosen settings and starts the first round with the first player. */
    method HandleCategorySelect(selectedCategory: Category, selectedIntensity: int, selectedRounds: int,
                                ttsEnabled: bool)
      requires Valid() && |players| > 0 && selectedRounds >= 1
      modifies this`screen, this`players, this`category, this`intensity, this`rounds,
               this`currentRound, this`currentPlayerIndex, this`isTtsEnabled, this`isSuddenDeath
      ensures Valid()
      ensures State() == old(State()).(category := selectedCategory, intensity := selectedIntensity,
                                       rounds := selectedRounds, isTtsEnabled := ttsEnabled,
                                       currentRound := 1, currentPlayerIndex := 0, screen := GamePage)
      ensures gameHistory == old(gameHistory)
      ensures storedSession == old(storedSession) && storedHistory == old(storedHistory)
    {
      Restore(State().(category := selectedCategory, intensity := selectedIntensity, rounds := selectedRounds,
                       isTtsEnabled := ttsEnabled, currentRound := 1, currentPlayerIndex := 0, screen := GamePage));
    }

    /**
     * Records the finished game in front of the history, writes the history
     * to storage, clears the saved session and shows the leaderboard. The
     * players are left as they were.
     */
    method HandleEndGame(finalPlayers: seq<Player>, now: int, date: string)
      requires Valid()
      modifies this`gameHistory, this`storedHistory, this`storedSession, this`screen
      ensures Valid()
      ensures gameHistory == PrependCapped(ResultOf(finalPlayers, now, date), old(gameHistory))
      ensures storedHistory == Some(gameHistory) && storedSession == None
      ensures screen == LeaderboardPage
    {
      var result := ResultOf(finalPlayers, now, date);
      var updatedHistory := PrependCapped(result, gameHistory);
      gameHistory := updatedHistory;
      storedHistory := Some(updatedHistory);
      storedSession := None;
      screen := LeaderboardPage;
    }

    /**
     * Completes the current player's turn worth `points`: the new state is
     * the turn step of the old one, and a game that is over is recorded as by
     * `HandleEndGame` with the updated players.
     */
    method HandleTurnComplete(points: int, now: int, date: string)
      requires Valid() && screen == GamePage
      modifies this`screen, this`players, this`category, this`intensity, this`rounds,
               this`currentRound, this`currentPlayerIndex, this`isTtsEnabled, this`isSuddenDeath,
               this`gameHistory, this`storedHistory, this`storedSession
      ensures Valid()
      ensures var o := TurnStep(old(State()), points);
        o.GameOver? ==>
          && State() == old(State()).(players := o.final, screen := LeaderboardPage)
          && gameHistory == PrependCapped(ResultOf(o.final, now, date), old(gameHistory))
          && storedHistory == Some(gameHistory) && storedSession == None
      ensures var o := TurnStep(old(State()), points);
        !o.GameOver? ==>
          && State() == o.next
          && gameHistory == old(gameHistory)
          && storedSession == old(storedSession) && storedHistory == old(storedHistory)
    {
      ghost var s0 := State();
      ghost var o := TurnStep(s0, points);
      var currentPlayerId := players[currentPlayerIndex].id;
      var updatedPlayers := AwardPoints(players, currentPlayerId, points);
      var isRoundOver := currentPlayerIndex + 1 >= |players|;
      if isRoundOver {
        var isFinalRound := currentRound >= rounds;
        if isFinalRound {
          players := updatedPlayers;
          DecideFinalRound(updatedPlayers, now, date);
        } else {
          Restore(State().(players := updatedPlayers, currentRound := currentRound + 1, currentPlayerIndex := 0));
          assert o == NextRound(State());
        }
      } else {
        Restore(State().(players := updatedPlayers, currentPlayerIndex := currentPlayerIndex + 1));
        assert o == NextPlayer(State());
      }
    }

    /**
     * The end of the final round, once the scores are updated: sudden death
     * among the tied positive leaders, or the end of the game.
     */
    method DecideFinalRound(updatedPlayers: seq<Player>, now: int, date: string)
      requires Valid() && screen == GamePage && players == updatedPlayers
      requires currentPlayerIndex + 1 == |players| && currentRound >= rounds
      modifies this`screen, this`players, this`category, this`intensity, this`rounds,
               this`currentRound, this`currentPlayerIndex, this`isTtsEnabled, this`isSuddenDeath,
               this`gameHistory, this`storedHistory, this`storedSession
      ensures Valid()
      ensures |SuddenDeathPool(updatedPlayers)| > 1 ==>
        && State() == old(State()).(players := SuddenDeathPool(updatedPlayers), rounds := old(rounds) + 1,
                                    currentRound := old(currentRound) + 1, currentPlayerIndex := 0,
                                    isSuddenDeath := true)
        && gameHistory == old(gameHistory)
        && storedSession == old(storedSession) && storedHistory == old(storedHistory)
      ensures |SuddenDeathPool(updatedPlayers)| <= 1 ==>
        && State() == old(State()).(screen := LeaderboardPage)
        && gameHistory == PrependCapped(ResultOf(updatedPlayers, now, date), old(gameHistory))
        && storedHistory == Some(gameHistory) && storedSession == None
    {
      var potentialWinners := SuddenDeathPool(updatedPlayers);
      if |potentialWinners| > 1 {
        Restore(State().(players := potentialWinners, rounds := rounds + 1, currentRound := currentRound + 1,
                         currentPlayerIndex := 0, isSuddenDeath := true));
      } else {
        HandleEndGame(updatedPlayers, now, date);
      }
    }

    /** Clears the saved session and restores every default except the voice setting and the history. */
    method HandlePlayAgain()
      requires Valid()
      modifies this`storedSession, this`players, this`category, this`intensity, this`rounds,
               this`currentRound, this`currentPlayerIndex, this`isTtsEnabled, this`isSuddenDeath, this`screen
      ensures Valid()
      ensures State() == Session(PlayerSetupPage, [], Kids, 1, 5, 1, 0, old(isTtsEnabled), false)
      ensures storedSession == None
    {
      storedSession := None;
      Restore(Session(PlayerSetupPage, [], Kids, 1, 5, 1, 0, isTtsEnabled, false));
    }

    /** Shows the history screen; nothing else changes. */
    method HandleShowHistory()
      requires Valid()
      modifies this`screen
      ensures Valid() && screen == HistoryPage
    {
      screen := HistoryPage;
    }

    /** Goes back to player setup; nothing else changes. */
    method HandleBackToSetup()
      requires Valid()
      modifies this`screen
      ensures Valid() && screen == PlayerSetupPage
    {
      screen := PlayerSetupPage;
    }

    /** The voice switch. */
    method SetIsTtsEnabled(enabled: bool)
      requires Valid()
      modifies this`isTtsEnabled
      ensures Valid() && isTtsEnabled == enabled
    {
      isTtsEnabled := enabled;
    }

    /** The player whose turn it is. */
    function CurrentPlayer(): (p: Player)
      requires Valid() && screen == GamePage
      reads this
      ensures p == players[currentPlayerIndex] && p in players
    {
      players[currentPlayerIndex]
    }
  }
}
