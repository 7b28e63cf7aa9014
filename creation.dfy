/** The creation payloads the console posts (a team, a player, a mini-game),
    shared by the admin table, the batch-creation form and the game
    settings page, and what the backend makes of each. */
module Creation {
  import opened Wrappers
  import opened Text
  import opened Records
  import opened Server

  /** The fields of a team being created. */
  datatype NewTeamRow = NewTeamRow(name: string, hide_ranking: bool, hide_team_name: bool)

  /** The fields of a player being created; `team` is the value of the team
      select, the id of a team as text, or "" for none. */
  datatype NewPlayerRow = NewPlayerRow(
    name: string,
    number: string,
    team: string,
    hide_name: bool,
    hide_team: bool,
    hide_personal_score: bool,
    hide_completed_minigame_count: bool)

  const EmptyTeamRow := NewTeamRow("", false, false)
  const EmptyPlayerRow := NewPlayerRow("", "", "", false, false, false, false)

  /** What a creation ends in: the "fill in the fields" alert, the success
      alert, the failure alert (the server answered with an error), or the
      error alert (the request did not get through). */
  datatype AddOutcome = Incomplete | Created | Refused | Unreachable

  function AddOutcomeOf<T>(r: Result<T, Failure>): (o: AddOutcome)
    ensures o != Incomplete
    ensures o == Created <==> r.Success?
    ensures o == Unreachable <==> r == Failure(NetworkError)
  {
    match r
    case Success(_) => Created
    case Failure(HttpError(_)) => Refused
    case Failure(NetworkError) => Unreachable
  }

  /** A team's body: the name and flags, with both counters 0. */
  function NewTeamBody(row: NewTeamRow): (b: Body)
    ensures b.Keys == {Name, Score, AttackedCount, HideRanking, HideTeamName}
    ensures b[Score] == VInt(0) && b[AttackedCount] == VInt(0)
  {
    map[Name := VStr(row.name), Score := VInt(0), AttackedCount := VInt(0),
        HideRanking := VBool(row.hide_ranking), HideTeamName := VBool(row.hide_team_name)]
  }

  /** A player's body: the fields of the row, with the three counters 0. */
  function NewPlayerBody(row: NewPlayerRow): (b: Body)
    ensures b.Keys == {Name, Number, PersonalScore, Chips, CompletedMinigameCount, TeamField,
                       HideName, HideTeam, HidePersonalScore, HideCompletedMinigameCount}
    ensures b[PersonalScore] == VInt(0) && b[Chips] == VInt(0) && b[CompletedMinigameCount] == VInt(0)
  {
    map[Name := VStr(row.name), Number := VStr(row.number),
        PersonalScore := VInt(0), Chips := VInt(0), CompletedMinigameCount := VInt(0),
        TeamField := VStr(row.team),
        HideName := VBool(row.hide_name), HideTeam := VBool(row.hide_team),
        HidePersonalScore := VBool(row.hide_personal_score),
        HideCompletedMinigameCount := VBool(row.hide_completed_minigame_count)]
  }

  /** A mini-game's body: the texts, the two numbers as `Number()` made
      them, the two flags, and `play_count` 0. */
  function NewGameBody(category: string, room: string, name: string, chips: Value,
                       displayed: bool, limited: bool, time: Value): (b: Body)
    ensures b.Keys == {Category, Room, Name, AvailableChips, PlayCount, IsDisplayed, IsLimited, LimitedTime}
    ensures b[PlayCount] == VInt(0)
  {
    map[Category := VStr(category), Room := VStr(room), Name := VStr(name),
        AvailableChips := chips, PlayCount := VInt(0),
        IsDisplayed := VBool(displayed), IsLimited := VBool(limited), LimitedTime := time]
  }

  /** A team is created exactly when the request gets through and the name
      does not strip to nothing; it gets a fresh id, the stripped name, the
      row's flags and both counters 0, and the backend stays well formed. A
      name that strips to nothing is a 400. */
  lemma TeamCreation(s: ServerState, row: NewTeamRow)
    ensures var r := PostTeamStep(s, NewTeamBody(row));
      && (r.1.Success? <==> Reaches(s) && !StripBlank(row.name))
      && (r.1.Success? ==> r.1.value == Team(s.nextId, Strip(row.name), 0, 0, row.hide_ranking, row.hide_team_name))
      && (Reaches(s) && StripBlank(row.name) ==> r.1 == Failure(HttpError(400)))
      && (ValidState(s) ==> ValidState(r.0) && s.nextId !in s.teams)
  {
    if ValidState(s) {
      PostTeamStepValid(s, NewTeamBody(row));
    }
  }

  /** The team a player row's select names: none for "", else the id. */
  predicate TeamChoiceOk(team: string, teams: set<int>) {
    team == [] || (ParseInt(team).Some? && ParseInt(team).value in teams)
  }

  function TeamChoice(team: string): TeamRef {
    if team == [] then NoTeam else TeamId(ParseInt(team).GetOr(0))
  }

  /** A player is created exactly when the request gets through, name and
      number do not strip to nothing and the select names no team or an
      existing one; it gets the stripped name and number, that team, the row's flags
      and all three counters 0. */
  lemma PlayerCreation(s: ServerState, row: NewPlayerRow)
    ensures var r := PostPlayerStep(s, NewPlayerBody(row));
      && (r.1.Success? <==>
            Reaches(s) && !StripBlank(row.name) && !StripBlank(row.number) && TeamChoiceOk(row.team, TeamIds(s)))
      && (r.1.Success? ==>
            r.1.value == Player(s.nextId, Strip(row.name), Strip(row.number), 0, 0, 0, TeamChoice(row.team),
                                row.hide_name, row.hide_team, row.hide_personal_score,
                                row.hide_completed_minigame_count))
  {
    PlayerBodyOfRow(row, TeamIds(s));
    if !StripBlank(row.name) && !StripBlank(row.number) && TeamChoiceOk(row.team, TeamIds(s)) {
      MergePlayerRow(row, s.nextId, TeamIds(s));
    }
  }

  lemma PlayerBodyOfRow(row: NewPlayerRow, teams: set<int>)
    ensures PlayerBodyOk(NewPlayerBody(row), teams) <==> !StripBlank(row.name) && !StripBlank(row.number) && TeamChoiceOk(row.team, teams)
  {
  }

  lemma MergePlayerRow(row: NewPlayerRow, id: int, teams: set<int>)
    requires !StripBlank(row.name) && !StripBlank(row.number) && TeamChoiceOk(row.team, teams)
    ensures MergePlayer(DefaultPlayer(id), NewPlayerBody(row), teams)
         == Player(id, Strip(row.name), Strip(row.number), 0, 0, 0,
                   TeamChoice(row.team), row.hide_name, row.hide_team, row.hide_personal_score,
                   row.hide_completed_minigame_count)
  {
    PlayerRowFields(row, teams);
  }

  lemma PlayerRowFields(row: NewPlayerRow, teams: set<int>)
    requires !StripBlank(row.name) && !StripBlank(row.number) && TeamChoiceOk(row.team, teams)
    ensures var b := NewPlayerBody(row);
      && TextOr(b, Name, "") == Strip(row.name)
      && TextOr(b, Number, "") == Strip(row.number)
      && TeamRefOr(b, TeamField, teams, NoTeam) == TeamChoice(row.team)
  {
    var b := NewPlayerBody(row);
    assert AsTeamRef(b[TeamField], teams) == Some(TeamChoice(row.team));
  }

  /** A mini-game is created exactly when the request gets through, the
      three texts do not strip to nothing and both numbers are integers
      (`NaN` goes out as `null`, which the integer fields refuse); it gets
      the stripped texts, the numbers, the flags and `play_count` 0. */
  lemma GameCreation(s: ServerState, category: string, room: string, name: string, chips: Value,
                     displayed: bool, limited: bool, time: Value)
    ensures var r := PostGameStep(s, NewGameBody(category, room, name, chips, displayed, limited, time));
      && (r.1.Success? <==>
            Reaches(s) && !StripBlank(category) && !StripBlank(room) && !StripBlank(name) && chips.VInt? && time.VInt?)
      && (r.1.Success? ==>
            && chips.VInt? && time.VInt?
            && r.1.value == MiniGame(s.nextId, Strip(category), Strip(room), Strip(name), chips.i, 0,
                                        VBool(displayed), limited, time.i))
  {
    GameBodyOfRow(category, room, name, chips, displayed, limited, time);
    if !StripBlank(category) && !StripBlank(room) && !StripBlank(name) && chips.VInt? && time.VInt? {
      MergeGameRow(s.nextId, category, room, name, chips, displayed, limited, time);
    }
  }

  lemma MergeGameRow(id: int, category: string, room: string, name: string, chips: Value,
                     displayed: bool, limited: bool, time: Value)
    requires !StripBlank(category) && !StripBlank(room) && !StripBlank(name) && chips.VInt? && time.VInt?
    ensures MergeGame(DefaultGame(id), NewGameBody(category, room, name, chips, displayed, limited, time))
         == MiniGame(id, Strip(category), Strip(room), Strip(name), chips.i, 0, VBool(displayed), limited, time.i)
  {
  }

  lemma GameBodyOfRow(category: string, room: string, name: string, chips: Value,
                      displayed: bool, limited: bool, time: Value)
    ensures GameBodyOk(NewGameBody(category, room, name, chips, displayed, limited, time))
        <==> !StripBlank(category) && !StripBlank(room) && !StripBlank(name) && chips.VInt? && time.VInt?
  {
  }
}
