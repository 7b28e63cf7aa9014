/** The admin table of teams and players (`Dashboard`): the lists as fetched
    and sorted, the inline edits sent as one-field PATCHes whose answers
    replace the local entry, the deletion of a player, the "clear" buttons,
    and the two creation rows with their validation and payloads. The
    proposed number of the player creation row follows the player list
    (`PlayerNumbers`). */
module Dashboard {
  import opened Wrappers
  import opened Text
  import opened Lists
  import opened Sorting
  import opened Records
  import opened Server
  import opened PlayerNumbers
  import opened Creation

  // ---- Order of the fetched lists ----

  /** Players are shown by ascending number: `parseInt(a.number) -
      parseInt(b.number)`, as a descending sort by the negated number. A
      number that does not parse is placed as the number 0. */
  function NumberOrder(p: Player): int {
    match ParseInt(p.number)
    case Some(n) => -n
    case None => 0
  }

  /** The fetched players are a permutation of the data, in ascending order
      of the numbers that parse. */
  lemma FetchedPlayersAscending(data: seq<Player>)
    ensures multiset(SortDesc(data, NumberOrder)) == multiset(data)
    ensures var ps := SortDesc(data, NumberOrder);
      forall i, j :: 0 <= i < j < |ps| && ParseInt(ps[i].number).Some? && ParseInt(ps[j].number).Some? ==>
        ParseInt(ps[i].number).value <= ParseInt(ps[j].number).value
  {
    SortDescSorted(data, NumberOrder);
    SortDescPermutes(data, NumberOrder);
  }

  // ---- Payloads of the inline edits ----

  predicate TeamNumeric(field: Field) {
    field == Score || field == AttackedCount
  }

  predicate PlayerNumeric(field: Field) {
    field == PersonalScore || field == Chips || field == CompletedMinigameCount
  }

  /** The body of `updateTeam(teamId, field, newValue)`. */
  function TeamEdit(field: Field, newValue: Value): (b: Body)
    ensures b.Keys == {field}
    ensures TeamNumeric(field) ==> b[field].VInt? || b[field].VNaN?
    ensures !TeamNumeric(field) ==> b[field] == newValue
  {
    map[field := if TeamNumeric(field) then ToNum(newValue) else newValue]
  }

  /** The body of `updatePlayer(playerId, field, newValue)`. */
  function PlayerEdit(field: Field, newValue: Value): (b: Body)
    ensures b.Keys == {field}
    ensures PlayerNumeric(field) ==> b[field].VInt? || b[field].VNaN?
    ensures !PlayerNumeric(field) ==> b[field] == newValue
  {
    map[field := if PlayerNumeric(field) then ToNum(newValue) else newValue]
  }

  /** Typing a number into a team's score cell stores exactly that number as
      the score; typing anything `Number` cannot read is refused by the
      server (the `NaN` goes out as `null`), and the team stays as it was. */
  lemma EditTeamScore(s: ServerState, id: int, text: string)
    requires Reaches(s) && id in s.teams
    ensures var r := PatchTeamStep(s, id, TeamEdit(Score, VStr(text)));
      match ToNumber(text)
      case Some(n) => r.1 == Success(s.teams[id].(score := n)) && r.0.teams == s.teams[id := s.teams[id].(score := n)]
      case None => r.1 == Failure(HttpError(400)) && r.0.teams == s.teams
  {
    match ToNumber(text)
    case Some(n) =>
      assert TeamEdit(Score, VStr(text)) == map[Score := VInt(n)];
      MergeTeamScore(s.teams[id], n);
    case None =>
      assert TeamEdit(Score, VStr(text)) == map[Score := VNaN];
  }

  /** A clear button sends the number 0 for its field, which `Number` keeps. */
  lemma ClearPayloads()
    ensures TeamEdit(Score, VInt(0)) == map[Score := VInt(0)]
    ensures TeamEdit(AttackedCount, VInt(0)) == map[AttackedCount := VInt(0)]
    ensures PlayerEdit(PersonalScore, VInt(0)) == map[PersonalScore := VInt(0)]
    ensures PlayerEdit(Chips, VInt(0)) == map[Chips := VInt(0)]
  {
  }

  /** A name is sent as typed; the server stores it stripped, and refuses
      one that strips to nothing. */
  lemma EditTeamName(s: ServerState, id: int, text: string)
    requires Reaches(s) && id in s.teams
    ensures var r := PatchTeamStep(s, id, TeamEdit(Name, VStr(text)));
      if StripBlank(text) then r.1 == Failure(HttpError(400)) && r.0.teams == s.teams
      else r.1 == Success(s.teams[id].(name := Strip(text)))
  {
    assert TeamEdit(Name, VStr(text)) == map[Name := VStr(text)];
  }

  // ---- Creation rows ----

  /** `!newTeam.name.trim()`. */
  predicate TeamRowIncomplete(row: NewTeamRow) {
    Blank(row.name)
  }

  /** `!newPlayer.name.trim() || !newPlayer.number.trim() || !newPlayer.team`. */
  predicate PlayerRowIncomplete(row: NewPlayerRow) {
    Blank(row.name) || Blank(row.number) || row.team == []
  }

  /** The admin table's state. */
  class Table {
    var teams: seq<Team>
    var players: seq<Player>
    var newTeam: NewTeamRow
    var newPlayer: NewPlayerRow

    /** The initial state, before the first fetch; the number effect has
        already proposed "1" for the empty player list. */
    constructor ()
      ensures teams == [] && players == [] && newTeam == EmptyTeamRow
      ensures newPlayer == EmptyPlayerRow.(number := "1")
    {
      teams, players := [], [];
      newTeam := EmptyTeamRow;
      newPlayer := EmptyPlayerRow.(number := IntToString(1));
    }

    /** The effect on `[players]`: the creation row proposes the next number. */
    method ProposeNumber()
      modifies this`newPlayer
      ensures newPlayer == old(newPlayer).(number := NextNumber(players))
    {
      var next := ComputeNextNumber(players);
      newPlayer := newPlayer.(number := next);
    }

    /** `fetchTeams`: the answer (`None` when the request failed, which only
        logs) is sorted in place by descending score and becomes the list. */
    method FetchTeams(data: Option<seq<Team>>)
      modifies this`teams
      ensures teams == if data.Some? then SortDesc(data.value, TeamScore) else old(teams)
    {
      if data.Some? {
        var a := new Team[|data.value|](i requires 0 <= i < |data.value| => data.value[i]);
        assert a[..] == data.value;
        SortInPlace(a, TeamScore);
        teams := a[..];
      }
    }

    /** `fetchPlayers`: sorted in place by ascending number; a new list
        re-runs the number effect. */
    method FetchPlayers(data: Option<seq<Player>>)
      modifies this`players, this`newPlayer
      ensures players == if data.Some? then SortDesc(data.value, NumberOrder) else old(players)
      ensures newPlayer == if data.Some? then old(newPlayer).(number := NextNumber(players)) else old(newPlayer)
    {
      if data.Some? {
        var a := new Player[|data.value|](i requires 0 <= i < |data.value| => data.value[i]);
        assert a[..] == data.value;
        SortInPlace(a, NumberOrder);
        players := a[..];
        ProposeNumber();
      }
    }

    /** `updateTeam`: a one-field PATCH; on success the answer replaces the
        entry with its id, on failure the list stays. */
    method UpdateTeam(server: Backend, id: int, field: Field, newValue: Value) returns (r: Result<Team, Failure>)
      modifies this`teams, server
      ensures (server.State(), r) == PatchTeamStep(old(server.State()), id, TeamEdit(field, newValue))
      ensures teams == if r.Success? then ReplaceById(old(teams), TeamKey, r.value) else old(teams)
    {
      r := server.PatchTeam(id, TeamEdit(field, newValue));
      if r.Success? {
        teams := ReplaceById(teams, TeamKey, r.value);
      }
    }

    /** `updatePlayer`, likewise; a new player list re-runs the number effect. */
    method UpdatePlayer(server: Backend, id: int, field: Field, newValue: Value) returns (r: Result<Player, Failure>)
      modifies this`players, this`newPlayer, server
      ensures (server.State(), r) == PatchPlayerStep(old(server.State()), id, PlayerEdit(field, newValue))
      ensures players == if r.Success? then ReplaceById(old(players), PlayerKey, r.value) else old(players)
      ensures newPlayer == if r.Success? then old(newPlayer).(number := NextNumber(players)) else old(newPlayer)
    {
      r := server.PatchPlayer(id, PlayerEdit(field, newValue));
      if r.Success? {
        players := ReplaceById(players, PlayerKey, r.value);
        ProposeNumber();
      }
    }

    /** `deletePlayer`, after the confirmation dialog answered `confirmed`:
        nothing is sent when it was cancelled; a successful DELETE drops the
        entries with that id. */
    method DeletePlayer(server: Backend, id: int, confirmed: bool) returns (r: Option<Result<(), Failure>>)
      modifies this`players, this`newPlayer, server
      ensures !confirmed ==> r.None? && server.State() == old(server.State())
      ensures confirmed ==> r.Some? && (server.State(), r.value) == DeletePlayerStep(old(server.State()), id)
      ensures players == if r.Some? && r.value.Success? then RemoveById(old(players), PlayerKey, id) else old(players)
      ensures newPlayer == if r.Some? && r.value.Success? then old(newPlayer).(number := NextNumber(players))
                           else old(newPlayer)
    {
      if !confirmed {
        return None;
      }
      var d := server.DeletePlayer(id);
      r := Some(d);
      if d.Success? {
        players := RemoveById(players, PlayerKey, id);
        ProposeNumber();
      }
    }

    /** The clear buttons: after confirmation, the field is updated to 0. */
    method ClearTeamField(server: Backend, id: int, field: Field, confirmed: bool) returns (r: Option<Result<Team, Failure>>)
      requires field == Score || field == AttackedCount
      modifies this`teams, server
      ensures !confirmed ==> r.None? && server.State() == old(server.State()) && teams == old(teams)
      ensures confirmed ==> r.Some? && (server.State(), r.value) == PatchTeamStep(old(server.State()), id, map[field := VInt(0)])
      ensures teams == if r.Some? && r.value.Success? then ReplaceById(old(teams), TeamKey, r.value.value) else old(teams)
    {
      if !confirmed {
        return None;
      }
      var u := UpdateTeam(server, id, field, VInt(0));
      r := Some(u);
    }

    method ClearPlayerField(server: Backend, id: int, field: Field, confirmed: bool) returns (r: Option<Result<Player, Failure>>)
      requires field == PersonalScore || field == Chips
      modifies this`players, this`newPlayer, server
      ensures !confirmed ==> r.None? && server.State() == old(server.State())
      ensures !confirmed ==> players == old(players) && newPlayer == old(newPlayer)
      ensures confirmed ==> r.Some? && (server.State(), r.value) == PatchPlayerStep(old(server.State()), id, map[field := VInt(0)])
      ensures players == if r.Some? && r.value.Success? then ReplaceById(old(players), PlayerKey, r.value.value) else old(players)
    {
      if !confirmed {
        return None;
      }
      var u := UpdatePlayer(server, id, field, VInt(0));
      r := Some(u);
    }

    /** `addTeam`: a blank name is refused before any request; a created
        team clears the row. */
    method AddTeam(server: Backend) returns (outcome: AddOutcome)
      modifies this`newTeam, server
      ensures TeamRowIncomplete(old(newTeam)) ==> outcome == Incomplete && server.State() == old(server.State())
      ensures !TeamRowIncomplete(old(newTeam)) ==>
                var step := PostTeamStep(old(server.State()), NewTeamBody(old(newTeam)));
                server.State() == step.0 && outcome == AddOutcomeOf(step.1)
      ensures newTeam == if outcome == Created then EmptyTeamRow else old(newTeam)
    {
      if Blank(newTeam.name) {
        return Incomplete;
      }
      var r := server.PostTeam(NewTeamBody(newTeam));
      outcome := AddOutcomeOf(r);
      if r.Success? {
        newTeam := EmptyTeamRow;
      }
    }

    /** `addPlayer`: a blank name or number, or no team, is refused before
        any request; a created player clears the row, number included. */
    method AddPlayer(server: Backend) returns (outcome: AddOutcome)
      modifies this`newPlayer, server
      ensures PlayerRowIncomplete(old(newPlayer)) ==> outcome == Incomplete && server.State() == old(server.State())
      ensures !PlayerRowIncomplete(old(newPlayer)) ==>
                var step := PostPlayerStep(old(server.State()), NewPlayerBody(old(newPlayer)));
                server.State() == step.0 && outcome == AddOutcomeOf(step.1)
      ensures newPlayer == if outcome == Created then EmptyPlayerRow else old(newPlayer)
    {
      if Blank(newPlayer.name) || Blank(newPlayer.number) || newPlayer.team == [] {
        return Incomplete;
      }
      var r := server.PostPlayer(NewPlayerBody(newPlayer));
      outcome := AddOutcomeOf(r);
      if r.Success? {
        newPlayer := EmptyPlayerRow;
      }
    }
  }
}
