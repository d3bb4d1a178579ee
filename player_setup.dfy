/**
 * The player setup form: choose how many players, type their names, and
 * start only when every name is non-blank.
 */
module PlayerSetup {
  import opened Wrappers
  import opened Types
  import opened JsStrings

  /** Some name is blank once trimmed. */
  predicate SomeNameBlank(names: seq<string>)
  {
    exists i :: 0 <= i < |names| && Trim(names[i]) == ""
  }

  /** The players built from the names: id = position, trimmed name, score 0, no gender, no avatar. */
  function MakePlayers(names: seq<string>): (ps: seq<Player>)
    ensures |ps| == |names|
    ensures forall i :: 0 <= i < |ps| ==> ps[i] == Player(i, Trim(names[i]), None, None, 0)
  {
    seq(|names|, i requires 0 <= i < |names| => Player(i, Trim(names[i]), None, None, 0))
  }

  /** Validation and construction: nothing when some name is blank, else the players. */
  function BuildPlayers(names: seq<string>): (r: Option<seq<Player>>)
    ensures r == None <==> SomeNameBlank(names)
  {
    if SomeNameBlank(names) then None else Some(MakePlayers(names))
  }

  /**
   * Players that setup accepts have distinct ids, start at zero, and carry
   * names that are non-empty and already trimmed.
   */
  lemma BuiltPlayersAreWellFormed(names: seq<string>)
    requires BuildPlayers(names).Some?
    ensures var ps := BuildPlayers(names).value;
            && |ps| == |names| && UniqueIds(ps) && TotalScore(ps) == 0
            && forall i :: 0 <= i < |ps| ==> ps[i].id == i && ps[i].name != "" && Trim(ps[i].name) == ps[i].name
  {
    var ps := BuildPlayers(names).value;
    forall i | 0 <= i < |ps| ensures Trim(ps[i].name) == ps[i].name {
      TrimIdempotent(names[i]);
    }
    AllZeroTotal(ps);
  }

  lemma {:induction false} AllZeroTotal(ps: seq<Player>)
    requires forall i :: 0 <= i < |ps| ==> ps[i].score == 0
    ensures TotalScore(ps) == 0
  {
    if |ps| > 0 {
      AllZeroTotal(ps[..|ps| - 1]);
    }
  }

  /** A name made only of spaces, tabs or line breaks stops the start. */
  lemma WhitespaceNameBlocksStart(names: seq<string>, i: nat)
    requires i < |names| && AllWhitespace(names[i])
    ensures BuildPlayers(names) == None
  {
    TrimEmptyIffBlank(names[i]);
  }

  class SetupForm {
    var numPlayers: Option<nat>
    var playerNames: seq<string>

    constructor ()
      ensures numPlayers == None && playerNames == []
    {
      numPlayers := None;
      playerNames := [];
    }

    /** Choosing a count opens that many empty name slots. */
    method HandleNumPlayerSelect(num: nat)
      modifies this
      ensures numPlayers == Some(num)
      ensures |playerNames| == num && forall i :: 0 <= i < num ==> playerNames[i] == ""
    {
      numPlayers := Some(num);
      playerNames := seq(num, _ => "");
    }

    /** Editing slot `index` changes only that slot. */
    method HandleNameChange(index: nat, name: string)
      requires index < |playerNames|
      modifies this`playerNames
      ensures playerNames == old(playerNames)[index := name]
      ensures |playerNames| == old(|playerNames|)
      ensures forall i :: 0 <= i < |playerNames| && i != index ==> playerNames[i] == old(playerNames[i])
    {
      var newNames := playerNames;
      newNames := newNames[index := name];
      playerNames := newNames;
    }

    /** The Back link returns to the count buttons; the names typed so far are kept. */
    method HandleBack()
      modifies this`numPlayers
      ensures numPlayers == None
    {
      numPlayers := None;
    }

    /**
     * Start (disabled until a count is chosen): the players handed to the
     * game, or nothing when some name is blank.
     */
    method HandleStartGame() returns (started: Option<seq<Player>>)
      requires numPlayers.Some?
      ensures started == BuildPlayers(playerNames)
      ensures started.Some? ==> |started.value| == |playerNames| && UniqueIds(started.value)
    {
      if SomeNameBlank(playerNames) {
        return None;
      }
      var newPlayers := MakePlayers(playerNames);
      BuiltPlayersAreWellFormed(playerNames);
      started := Some(newPlayers);
    }
  }
}
