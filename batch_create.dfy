/** The batch-creation form (`BatchCreate`): three tabs that post a team, a
    player or a mini-game from what was typed, with no check of their own.
    The player tab proposes the next free number from the players loaded
    when the form opened, and counts it up after each player created. */
module BatchCreate {
  import opened Wrappers
  import opened Text
  import opened Records
  import opened Server
  import opened PlayerNumbers
  import opened Creation

  class BatchForm {
    // The team tab.
    var teamName: string
    var teamHideRanking: bool
    var teamHideTeamName: bool
    // The player tab; `playerNumber` is read-only and filled in.
    var playerName: string
    var playerNumber: string
    var playerTeam: string
    var playerHideName: bool
    var playerHideTeam: bool
    var playerHidePersonalScore: bool
    var playerHideCompletedMinigameCount: bool
    // The mini-game tab: the two number inputs hold `0` until typed into,
    // then the text typed.
    var gameCategory: string
    var gameRoom: string
    var gameName: string
    var gameAvailableChips: Value
    var gameIsDisplayed: bool
    var gameIsLimited: bool
    var gameLimitedTime: Value
    // What the form loaded when it opened.
    var teamsList: seq<Team>
    var existingPlayers: seq<Player>

    /** The player tab as a creation row. */
    function PlayerRow(): NewPlayerRow
      reads this
    {
      NewPlayerRow(playerName, playerNumber, playerTeam, playerHideName, playerHideTeam,
                   playerHidePersonalScore, playerHideCompletedMinigameCount)
    }

    /** The team tab as a creation row. */
    function TeamRow(): NewTeamRow
      reads this
    {
      NewTeamRow(teamName, teamHideRanking, teamHideTeamName)
    }

    /** The body of `handleGameSubmit`. */
    function GameBody(): Body
      reads this
    {
      NewGameBody(gameCategory, gameRoom, gameName, ToNum(gameAvailableChips),
                  gameIsDisplayed, gameIsLimited, ToNum(gameLimitedTime))
    }

    /** Every tab starts out empty, the game shown and not limited. */
    constructor ()
      ensures TeamRow() == EmptyTeamRow && PlayerRow() == EmptyPlayerRow
      ensures gameCategory == "" && gameRoom == "" && gameName == ""
      ensures gameAvailableChips == VInt(0) && gameIsDisplayed && !gameIsLimited && gameLimitedTime == VInt(0)
      ensures teamsList == [] && existingPlayers == []
    {
      teamName, teamHideRanking, teamHideTeamName := "", false, false;
      playerName, playerNumber, playerTeam := "", "", "";
      playerHideName, playerHideTeam, playerHidePersonalScore, playerHideCompletedMinigameCount := false, false, false, false;
      gameCategory, gameRoom, gameName := "", "", "";
      gameAvailableChips, gameIsDisplayed, gameIsLimited, gameLimitedTime := VInt(0), true, false, VInt(0);
      teamsList, existingPlayers := [], [];
    }

    /** The team list for the select; `None` when loading it failed. */
    method ReceiveTeams(data: Option<seq<Team>>)
      modifies this`teamsList
      ensures teamsList == if data.Some? then data.value else old(teamsList)
    {
      if data.Some? {
        teamsList := data.value;
      }
    }

    /** The existing players, and the number proposed from them. */
    method ReceivePlayers(data: Option<seq<Player>>)
      modifies this`existingPlayers, this`playerNumber
      ensures data.None? ==> existingPlayers == old(existingPlayers) && playerNumber == old(playerNumber)
      ensures data.Some? ==> existingPlayers == data.value && playerNumber == NextNumber(data.value)
    {
      if data.Some? {
        existingPlayers := data.value;
        playerNumber := ComputeNextNumber(data.value);
      }
    }

    /** `handleTeamSubmit`: the team tab is posted as typed and cleared once
        the team is created. */
    method SubmitTeam(server: Backend) returns (outcome: AddOutcome)
      modifies this`teamName, this`teamHideRanking, this`teamHideTeamName, server
      ensures var step := PostTeamStep(old(server.State()), NewTeamBody(old(TeamRow())));
        server.State() == step.0 && outcome == AddOutcomeOf(step.1)
      ensures TeamRow() == if outcome == Created then EmptyTeamRow else old(TeamRow())
    {
      var r := server.PostTeam(NewTeamBody(TeamRow()));
      outcome := AddOutcomeOf(r);
      if r.Success? {
        teamName := "";
        teamHideRanking := false;
        teamHideTeamName := false;
      }
    }

    /** `handlePlayerSubmit`: the player tab is posted as shown; once the
        player is created the tab is cleared, except that the number counts
        up by one. */
    method SubmitPlayer(server: Backend) returns (outcome: AddOutcome)
      modifies this`playerName, this`playerNumber, this`playerTeam, this`playerHideName, this`playerHideTeam,
               this`playerHidePersonalScore, this`playerHideCompletedMinigameCount, server
      ensures var step := PostPlayerStep(old(server.State()), NewPlayerBody(old(PlayerRow())));
        server.State() == step.0 && outcome == AddOutcomeOf(step.1)
      ensures outcome == Created ==> PlayerRow() == EmptyPlayerRow.(number := Incremented(old(playerNumber)))
      ensures outcome != Created ==> PlayerRow() == old(PlayerRow())
    {
      var r := server.PostPlayer(NewPlayerBody(PlayerRow()));
      outcome := AddOutcomeOf(r);
      if r.Success? {
        ResetPlayerTab(Incremented(playerNumber));
      }
    }

    /** The resets after a player was created, one field at a time. */
    method ResetPlayerTab(next: string)
      modifies this`playerName, this`playerNumber, this`playerTeam, this`playerHideName, this`playerHideTeam,
               this`playerHidePersonalScore, this`playerHideCompletedMinigameCount
      ensures PlayerRow() == EmptyPlayerRow.(number := next)
    {
      playerName := "";
      playerNumber := next;
      playerTeam := "";
      playerHideName := false;
      playerHideTeam := false;
      playerHidePersonalScore := false;
      playerHideCompletedMinigameCount := false;
    }

    /** `handleGameSubmit`: the game tab is posted with its numbers through
        `Number()`, and reset once the game is created. */
    method SubmitGame(server: Backend) returns (outcome: AddOutcome)
      modifies this`gameCategory, this`gameRoom, this`gameName, this`gameAvailableChips, this`gameIsDisplayed,
               this`gameIsLimited, this`gameLimitedTime, server
      ensures var step := PostGameStep(old(server.State()), old(GameBody()));
        server.State() == step.0 && outcome == AddOutcomeOf(step.1)
      ensures outcome == Created ==>
                && gameCategory == "" && gameRoom == "" && gameName == ""
                && gameAvailableChips == VInt(0) && gameIsDisplayed && !gameIsLimited && gameLimitedTime == VInt(0)
      ensures outcome != Created ==> GameBody() == old(GameBody()) && gameIsDisplayed == old(gameIsDisplayed)
    {
      var r := server.PostGame(GameBody());
      outcome := AddOutcomeOf(r);
      if r.Success? {
        ResetGameTab();
      }
    }

    /** The resets after a game was created, one field at a time. */
    method ResetGameTab()
      modifies this`gameCategory, this`gameRoom, this`gameName, this`gameAvailableChips, this`gameIsDisplayed,
               this`gameIsLimited, this`gameLimitedTime
      ensures && gameCategory == "" && gameRoom == "" && gameName == ""
              && gameAvailableChips == VInt(0) && gameIsDisplayed && !gameIsLimited && gameLimitedTime == VInt(0)
    {
      gameCategory := "";
      gameRoom := "";
      gameName := "";
      gameAvailableChips := VInt(0);
      gameIsDisplayed := true;
      gameIsLimited := false;
      gameLimitedTime := VInt(0);
    }
  }

  /** The form does not check the team tab itself: a name that strips to
      nothing is sent, and the backend refuses it. */
  lemma BlankTeamNameRefused(s: ServerState, name: string, hideRanking: bool, hideTeamName: bool)
    requires Reaches(s) && StripBlank(name)
    ensures var r := PostTeamStep(s, NewTeamBody(NewTeamRow(name, hideRanking, hideTeamName)));
      r.1 == Failure(HttpError(400)) && r.0.teams == s.teams
  {
    TeamCreation(s, NewTeamRow(name, hideRanking, hideTeamName));
  }

  /** A name that is blank to `trim` but not to `str.strip()`, such as a
      lone byte-order mark, is sent unchecked and creates a team. */
  lemma ByteOrderMarkNameCreated(s: ServerState, hideRanking: bool, hideTeamName: bool)
    requires Reaches(s)
    ensures Blank("\U{FEFF}")
    ensures var r := PostTeamStep(s, NewTeamBody(NewTeamRow("\U{FEFF}", hideRanking, hideTeamName)));
      r.1.Success? && r.1.value.name == "\U{FEFF}"
  {
    StripIsNotTrim();
    TeamCreation(s, NewTeamRow("\U{FEFF}", hideRanking, hideTeamName));
  }

  /** The number shown after a player was created from the proposal reads
      back as one more again, and is still no existing player's number. */
  lemma ProposalAfterCreation(ps: seq<Player>)
    ensures ParseInt(Incremented(NextNumber(ps))) == Some(MaxNumber(ps) + 2)
    ensures forall i :: 0 <= i < |ps| ==> ps[i].number != Incremented(NextNumber(ps))
  {
    var next := Incremented(NextNumber(ps));
    IncrementedOfNumber(MaxNumber(ps) + 1);
    ParseIntOfIntToString(MaxNumber(ps) + 2);
    MaxNumberIsMax(ps);
    forall i | 0 <= i < |ps| ensures ps[i].number != next {
      if ParseInt(ps[i].number).Some? {
        assert ParseInt(ps[i].number).value <= MaxNumber(ps);
      }
    }
  }
}
