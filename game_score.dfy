/** The scoring page of one mini-game (`GameScore`). The user picks a team,
    which narrows the player select to that team's players, and a player;
    scoring adds the game's `available_chips` to the player's chips and then
    raises the game's `play_count` by one, as two awaited PATCHes. */
module GameScore {
  import opened Wrappers
  import opened Text
  import opened Lists
  import opened Records
  import opened Server
  import opened Lookup

  /** The player's team name matches the selection up to surrounding white
      space and ASCII case. */
  predicate OnTeamCalled(p: Player, teams: seq<Team>, selected: string) {
    Fold(TeamNameOf(p, teams)) == Fold(selected)
  }

  /** The filter effect: the players of the selected team, none when no
      team is selected. */
  function TeamPlayers(players: seq<Player>, teams: seq<Team>, selected: string): (r: seq<Player>)
    ensures selected == [] ==> r == []
    ensures forall p :: p in r <==> selected != [] && p in players && OnTeamCalled(p, teams, selected)
  {
    if selected == [] then [] else Filter(players, p => OnTeamCalled(p, teams, selected))
  }

  /** The filtered list keeps the order of the player list. */
  lemma TeamPlayersKeepOrder(players: seq<Player>, teams: seq<Team>, selected: string)
    ensures Subsequence(TeamPlayers(players, teams, selected), players)
  {
    if selected != [] {
      FilterIsSubsequence(players, p => OnTeamCalled(p, teams, selected));
    }
  }

  /** A player whose team object is embedded is matched by that object's
      name, whatever the cached team list holds. */
  lemma EmbeddedTeamMatches(p: Player, teams: seq<Team>, selected: string)
    requires p.team.Embedded?
    ensures OnTeamCalled(p, teams, selected) <==> Fold(p.team.name) == Fold(selected)
  {
  }

  /** `filteredPlayers.find(p => String(p.id) === selectedPlayer)`. */
  function PlayerWithIdText(ps: seq<Player>, selected: string): Option<Player> {
    if ps == [] then None
    else if IntToString(ps[0].id) == selected then Some(ps[0])
    else PlayerWithIdText(ps[1..], selected)
  }

  /** The search returns the first player whose id's text is the selection,
      and none exactly when no player's is. */
  lemma {:induction false} PlayerWithIdTextSpec(ps: seq<Player>, selected: string)
    ensures var r := PlayerWithIdText(ps, selected);
      && (r.None? <==> forall i :: 0 <= i < |ps| ==> IntToString(ps[i].id) != selected)
      && (r.Some? ==>
            exists i :: 0 <= i < |ps| && ps[i] == r.value && IntToString(r.value.id) == selected
              && forall j :: 0 <= j < i ==> IntToString(ps[j].id) != selected)
  {
    if ps != [] && IntToString(ps[0].id) != selected {
      PlayerWithIdTextSpec(ps[1..], selected);
      var r := PlayerWithIdText(ps, selected);
      if r.Some? {
        var i :| 0 <= i < |ps[1..]| && ps[1..][i] == r.value
          && IntToString(r.value.id) == selected
          && forall j :: 0 <= j < i ==> IntToString(ps[1..][j].id) != selected;
        assert ps[i + 1] == r.value;
        forall j | 0 <= j < i + 1 ensures IntToString(ps[j].id) != selected {
          if j > 0 { assert ps[j] == ps[1..][j - 1]; }
        }
      } else {
        forall i | 0 <= i < |ps| ensures IntToString(ps[i].id) != selected {
          if i > 0 { assert ps[i] == ps[1..][i - 1]; }
        }
      }
    }
  }

  /** What the user is told: the "select team and player" alert, the
      "player not found" alert, the scoring failure alert (the chips PATCH
      was answered with an error), the error alert (a request did not get
      through; `chipsApplied` when the chips had been stored already), or
      success, followed by the play-count failure alert when
      `!playCounted`. */
  datatype ScoreOutcome =
    | Incomplete
    | UnknownPlayer
    | Refused
    | Error(chipsApplied: bool)
    | Scored(playCounted: bool)

  /** Everything the handler reads. */
  datatype ScoreInput = ScoreInput(
    gameId: int,
    game: Option<MiniGame>,
    players: seq<Player>,
    filtered: seq<Player>,
    selectedTeam: string,
    selectedPlayer: string)

  /** The backend after the handler, what the user is told, and the page's
      cached player list and game afterwards. */
  datatype ScoreResult = ScoreResult(
    server: ServerState,
    outcome: ScoreOutcome,
    players: seq<Player>,
    game: Option<MiniGame>)

  /** The player's new chips, from the cached player and game. */
  function NewChips(p: Player, g: MiniGame): int {
    p.chips + g.available_chips
  }

  /** The handler on the backend state `s`. */
  function ScoreSpec(s: ServerState, a: ScoreInput): ScoreResult {
    if a.selectedTeam == [] || a.selectedPlayer == [] || a.game.None? then
      ScoreResult(s, Incomplete, a.players, a.game)
    else match PlayerWithIdText(a.filtered, a.selectedPlayer)
      case None => ScoreResult(s, UnknownPlayer, a.players, a.game)
      case Some(p) => ScoreChips(s, a, p, a.game.value)
  }

  /** The chips PATCH. */
  function ScoreChips(s: ServerState, a: ScoreInput, p: Player, g: MiniGame): ScoreResult {
    var step := PatchPlayerStep(s, p.id, map[Chips := VInt(NewChips(p, g))]);
    match step.1
    case Failure(NetworkError) => ScoreResult(step.0, Error(false), a.players, a.game)
    case Failure(HttpError(_)) => ScoreResult(step.0, Refused, a.players, a.game)
    case Success(q) => ScorePlayCount(step.0, a, q, g)
  }

  /** After the chips were stored: the play-count PATCH, then the local
      player list takes the chips answer. A play-count request that does not
      get through ends the handler before that. */
  function ScorePlayCount(s1: ServerState, a: ScoreInput, q: Player, g: MiniGame): ScoreResult {
    var step := PatchGameStep(s1, a.gameId, map[PlayCount := VInt(g.play_count + 1)]);
    match step.1
    case Failure(NetworkError) => ScoreResult(step.0, Error(true), a.players, a.game)
    case Failure(HttpError(_)) => ScoreResult(step.0, Scored(false), ReplaceById(a.players, PlayerKey, q), a.game)
    case Success(g2) => ScoreResult(step.0, Scored(true), ReplaceById(a.players, PlayerKey, q), Some(g2))
  }

  /** The checks before any request, in both directions, and a rejected
      score sends nothing and changes nothing. */
  lemma {:induction false} ScoreValidation(s: ServerState, a: ScoreInput)
    ensures ScoreSpec(s, a).outcome == Incomplete <==> a.selectedTeam == [] || a.selectedPlayer == [] || a.game.None?
    ensures ScoreSpec(s, a).outcome == UnknownPlayer
        <==> a.selectedTeam != [] && a.selectedPlayer != [] && a.game.Some?
             && forall i :: 0 <= i < |a.filtered| ==> IntToString(a.filtered[i].id) != a.selectedPlayer
    ensures ScoreSpec(s, a).outcome in {Incomplete, UnknownPlayer} ==>
              ScoreSpec(s, a) == ScoreResult(s, ScoreSpec(s, a).outcome, a.players, a.game)
  {
    PlayerWithIdTextSpec(a.filtered, a.selectedPlayer);
  }

  /** When the chips PATCH fails, no play-count request is sent: the game
      and the local lists stay as they were. */
  lemma {:induction false} ChipsFailureLeavesGame(s: ServerState, a: ScoreInput, p: Player, g: MiniGame)
    requires !PatchPlayerStep(s, p.id, map[Chips := VInt(NewChips(p, g))]).1.Success?
    ensures var r := ScoreChips(s, a, p, g);
      && r.server.games == s.games && r.server.players == s.players
      && r.server.log == s.log + [Patch(Players, p.id, map[Chips := VInt(NewChips(p, g))])]
      && r.players == a.players && r.game == a.game
      && (r.outcome == Refused || r.outcome == Error(false))
  {
  }

  lemma ChipsOk(s: ServerState, id: int, n: int)
    requires Reaches(s) && id in s.players
    ensures var q := s.players[id].(chips := n);
      PatchPlayerStep(s, id, map[Chips := VInt(n)])
        == (s.(log := s.log + [Patch(Players, id, map[Chips := VInt(n)])], players := s.players[id := q]), Success(q))
  {
    MergePlayerChips(s.players[id], n, TeamIds(s));
  }

  lemma PlayCountOk(s: ServerState, id: int, n: int)
    requires Reaches(s) && id in s.games
    ensures var g := s.games[id].(play_count := n);
      PatchGameStep(s, id, map[PlayCount := VInt(n)])
        == (s.(log := s.log + [Patch(MiniGames, id, map[PlayCount := VInt(n)])], games := s.games[id := g]), Success(g))
  {
    MergeGamePlayCount(s.games[id], n);
  }

  /** The play-count step when its request gets through. */
  lemma ScorePlayCountOk(s1: ServerState, a: ScoreInput, q: Player, g: MiniGame)
    requires Reaches(s1) && a.gameId in s1.games
    ensures var g2 := s1.games[a.gameId].(play_count := g.play_count + 1);
      ScorePlayCount(s1, a, q, g)
      == ScoreResult(s1.(log := s1.log + [Patch(MiniGames, a.gameId, map[PlayCount := VInt(g.play_count + 1)])],
                         games := s1.games[a.gameId := g2]),
                     Scored(true), ReplaceById(a.players, PlayerKey, q), Some(g2))
  {
    PlayCountOk(s1, a.gameId, g.play_count + 1);
  }

  /** Both requests get through: the player's chips become the cached chips
      plus the game's chips, the game's play count the cached count plus
      one, exactly these two one-field bodies are sent in that order, and
      the local list takes the stored player in place of the old entry. */
  lemma {:induction false} ScoreSuccess(s: ServerState, a: ScoreInput, p: Player)
    requires a.selectedTeam != [] && a.selectedPlayer != [] && a.game.Some?
    requires PlayerWithIdText(a.filtered, a.selectedPlayer) == Some(p)
    requires Reaches(s) && (|s.log| + 1) !in s.outages && p.id in s.players && a.gameId in s.games
    ensures var g := a.game.value; var q := s.players[p.id].(chips := NewChips(p, g));
      var g2 := s.games[a.gameId].(play_count := g.play_count + 1);
      ScoreSpec(s, a)
      == ScoreResult(
           s.(log := s.log + [Patch(Players, p.id, map[Chips := VInt(NewChips(p, g))]),
                              Patch(MiniGames, a.gameId, map[PlayCount := VInt(g.play_count + 1)])],
              players := s.players[p.id := q],
              games := s.games[a.gameId := g2]),
           Scored(true),
           ReplaceById(a.players, PlayerKey, q),
           Some(g2))
  {
    var g := a.game.value;
    var n := NewChips(p, g);
    var q := s.players[p.id].(chips := n);
    var s1 := s.(log := s.log + [Patch(Players, p.id, map[Chips := VInt(n)])], players := s.players[p.id := q]);
    assert ScoreSpec(s, a) == ScoreChips(s, a, p, g);
    ScoreChipsOk(s, a, p, g);
    assert Reaches(s1) && a.gameId in s1.games;
    ScorePlayCountOk(s1, a, q, g);
    assert s1.log + [Patch(MiniGames, a.gameId, map[PlayCount := VInt(g.play_count + 1)])]
        == s.log + [Patch(Players, p.id, map[Chips := VInt(n)]),
                    Patch(MiniGames, a.gameId, map[PlayCount := VInt(g.play_count + 1)])];
  }

  /** The chips step when its request gets through. */
  lemma ScoreChipsOk(s: ServerState, a: ScoreInput, p: Player, g: MiniGame)
    requires Reaches(s) && p.id in s.players
    ensures var q := s.players[p.id].(chips := NewChips(p, g));
      ScoreChips(s, a, p, g)
      == ScorePlayCount(s.(log := s.log + [Patch(Players, p.id, map[Chips := VInt(NewChips(p, g))])],
                           players := s.players[p.id := q]), a, q, g)
  {
    ChipsOk(s, p.id, NewChips(p, g));
  }

  /** A successful score changes only the scored player in the local list:
      the list keeps its length and every other entry. */
  lemma ScoredListChange(players: seq<Player>, q: Player)
    ensures |ReplaceById(players, PlayerKey, q)| == |players|
    ensures forall i :: 0 <= i < |players| && players[i].id != q.id ==> ReplaceById(players, PlayerKey, q)[i] == players[i]
    ensures forall i :: 0 <= i < |players| && players[i].id == q.id ==> ReplaceById(players, PlayerKey, q)[i] == q
  {
  }

  /** The scoring page. */
  class Page {
    const gameId: int
    var game: Option<MiniGame>
    var teams: seq<Team>
    var players: seq<Player>
    var selectedTeam: string
    var filteredPlayers: seq<Player>
    var selectedPlayer: string

    function Input(): ScoreInput
      reads this
    {
      ScoreInput(gameId, game, players, filteredPlayers, selectedTeam, selectedPlayer)
    }

    /** The page before its fetches have answered. */
    constructor (id: int)
      ensures gameId == id && game.None? && teams == [] && players == []
      ensures selectedTeam == "" && filteredPlayers == [] && selectedPlayer == ""
    {
      gameId := id;
      game, teams, players := None, [], [];
      selectedTeam, filteredPlayers, selectedPlayer := "", [], "";
    }

    /** The effect on `[selectedTeam, players, teams]`: the player select is
        narrowed again and cleared. */
    method Refilter()
      modifies this`filteredPlayers, this`selectedPlayer
      ensures filteredPlayers == TeamPlayers(players, teams, selectedTeam) && selectedPlayer == ""
    {
      filteredPlayers := TeamPlayers(players, teams, selectedTeam);
      selectedPlayer := "";
    }

    /** The fetches of the page: an answer (`None` for a failed request,
        which only logs) replaces the cached copy. */
    method ReceiveGame(data: Option<MiniGame>)
      modifies this`game
      ensures game == if data.Some? then data else old(game)
    {
      if data.Some? {
        game := data;
      }
    }

    method ReceiveTeams(data: Option<seq<Team>>)
      modifies this`teams, this`filteredPlayers, this`selectedPlayer
      ensures teams == if data.Some? then data.value else old(teams)
      ensures data.Some? ==> filteredPlayers == TeamPlayers(players, teams, selectedTeam) && selectedPlayer == ""
      ensures data.None? ==> filteredPlayers == old(filteredPlayers) && selectedPlayer == old(selectedPlayer)
    {
      if data.Some? {
        teams := data.value;
        Refilter();
      }
    }

    method ReceivePlayers(data: Option<seq<Player>>)
      modifies this`players, this`filteredPlayers, this`selectedPlayer
      ensures players == if data.Some? then data.value else old(players)
      ensures data.Some? ==> filteredPlayers == TeamPlayers(players, teams, selectedTeam) && selectedPlayer == ""
      ensures data.None? ==> filteredPlayers == old(filteredPlayers) && selectedPlayer == old(selectedPlayer)
    {
      if data.Some? {
        players := data.value;
        Refilter();
      }
    }

    method SelectTeam(name: string)
      modifies this`selectedTeam, this`filteredPlayers, this`selectedPlayer
      ensures selectedTeam == name
      ensures filteredPlayers == TeamPlayers(players, teams, name) && selectedPlayer == ""
    {
      selectedTeam := name;
      Refilter();
    }

    method SelectPlayer(id: string)
      modifies this`selectedPlayer
      ensures selectedPlayer == id
    {
      selectedPlayer := id;
    }

    /** `handleScore`. The cached player list and game take what the
        handler sets; the new player list re-runs the filter effect. */
    method HandleScore(server: Backend) returns (outcome: ScoreOutcome)
      modifies this`game, this`players, this`filteredPlayers, this`selectedPlayer, server
      ensures var r := ScoreSpec(old(server.State()), old(Input()));
        server.State() == r.server && outcome == r.outcome && players == r.players && game == r.game
      ensures outcome.Scored? ==>
                filteredPlayers == TeamPlayers(players, teams, selectedTeam) && selectedPlayer == ""
      ensures !outcome.Scored? ==>
                filteredPlayers == old(filteredPlayers) && selectedPlayer == old(selectedPlayer)
    {
      if selectedTeam == [] || selectedPlayer == [] || game.None? {
        return Incomplete;
      }
      var found := PlayerWithIdText(filteredPlayers, selectedPlayer);
      if found.None? {
        return UnknownPlayer;
      }
      outcome := SendChips(server, found.value, game.value);
    }

    method SendChips(server: Backend, p: Player, g: MiniGame) returns (outcome: ScoreOutcome)
      modifies this`game, this`players, this`filteredPlayers, this`selectedPlayer, server
      ensures var r := ScoreChips(old(server.State()), old(Input()), p, g);
        server.State() == r.server && outcome == r.outcome && players == r.players && game == r.game
      ensures outcome.Scored? ==>
                filteredPlayers == TeamPlayers(players, teams, selectedTeam) && selectedPlayer == ""
      ensures !outcome.Scored? ==>
                filteredPlayers == old(filteredPlayers) && selectedPlayer == old(selectedPlayer)
    {
      var r := server.PatchPlayer(p.id, map[Chips := VInt(NewChips(p, g))]);
      if r.Failure? {
        return if r.error.NetworkError? then Error(false) else Refused;
      }
      outcome := SendPlayCount(server, r.value, g);
    }

    method SendPlayCount(server: Backend, q: Player, g: MiniGame) returns (outcome: ScoreOutcome)
      modifies this`game, this`players, this`filteredPlayers, this`selectedPlayer, server
      ensures var r := ScorePlayCount(old(server.State()), old(Input()), q, g);
        server.State() == r.server && outcome == r.outcome && players == r.players && game == r.game
      ensures outcome.Scored? ==>
                filteredPlayers == TeamPlayers(players, teams, selectedTeam) && selectedPlayer == ""
      ensures !outcome.Scored? ==>
                filteredPlayers == old(filteredPlayers) && selectedPlayer == old(selectedPlayer)
    {
      var r := server.PatchGame(gameId, map[PlayCount := VInt(g.play_count + 1)]);
      if r.Failure? && r.error.NetworkError? {
        return Error(true);
      }
      if r.Success? {
        game := Some(r.value);
      }
      outcome := Scored(r.Success?);
      players := ReplaceById(players, PlayerKey, q);
      Refilter();
    }
  }
}
