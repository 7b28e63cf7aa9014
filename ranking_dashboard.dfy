/** The public leaderboard (`RankingDashboard`): four boards (teams by score
    and by attack count, players by personal score and by completed
    mini-games), each cut to a top-N count the viewer can change, with the
    largest value of each board as the denominator of its bars, labels that
    honour the hide flags, and a polled fetch that replaces a list only when
    its content changed. */
module RankingDashboard {
  import opened Wrappers
  import opened Lists
  import opened Sorting
  import opened Records
  import opened Display
  import opened Lookup

  // ---- Top-N counts and the four boards ----

  /** The four boards, the keys of `topCounts` and of `hideRankings`. */
  datatype BoardKind = TeamsScore | TeamsAttacked | PlayersScore | PlayersMiniGame

  const AllBoards: set<BoardKind> := {TeamsScore, TeamsAttacked, PlayersScore, PlayersMiniGame}

  /** The count inputs hold `Number(e.target.value)`; they start at 6. */
  datatype TopCounts = TopCounts(teamsScore: Value, teamsAttacked: Value, playersScore: Value, playersMiniGame: Value)
  {
    /** `{ ...prev, [key]: v }`. */
    function With(kind: BoardKind, v: Value): TopCounts {
      match kind
      case TeamsScore => this.(teamsScore := v)
      case TeamsAttacked => this.(teamsAttacked := v)
      case PlayersScore => this.(playersScore := v)
      case PlayersMiniGame => this.(playersMiniGame := v)
    }
  }

  const InitialTopCounts := TopCounts(VInt(6), VInt(6), VInt(6), VInt(6))

  /** The end argument of `slice(0, n)` for a count: an integer, or `NaN`. */
  function SliceArg(v: Value): Option<int> {
    if v.VInt? then Some(v.i) else None
  }

  datatype Boards = Boards(
    teamsByScore: seq<Team>,
    teamsByAttacked: seq<Team>,
    playersByScore: seq<Player>,
    playersByMiniGame: seq<Player>)

  /** `sortedData`: the score boards cut the lists as held (already by
      score); the other two sort a copy first. */
  function SortedData(teams: seq<Team>, players: seq<Player>, top: TopCounts): Boards {
    Boards(
      SliceTo(teams, SliceArg(top.teamsScore)),
      SliceTo(SortDesc(teams, TeamAttacked), SliceArg(top.teamsAttacked)),
      SliceTo(players, SliceArg(top.playersScore)),
      SliceTo(SortDesc(players, PlayerMiniGames), SliceArg(top.playersMiniGame)))
  }

  /** The first entries of a list in descending order are in descending
      order themselves, and none of the entries cut off ranks above any
      entry shown. */
  lemma {:induction false} TopOfSorted<T>(xs: seq<T>, key: T -> int, end: Option<int>)
    requires SortedDesc(xs, key)
    ensures var r := SliceTo(xs, end);
      && SortedDesc(r, key)
      && multiset(r) <= multiset(xs)
      && (forall i, j :: 0 <= i < |r| <= j < |xs| ==> key(r[i]) >= key(xs[j]))
  {
    var r := SliceTo(xs, end);
    assert xs == r + xs[|r|..];
    forall i, j | 0 <= i < |r| <= j < |xs| ensures key(r[i]) >= key(xs[j]) {
      assert r[i] == xs[i];
    }
  }

  /** A non-negative count N shows min(N, size) entries of every board. */
  lemma BoardSizes(teams: seq<Team>, players: seq<Player>, top: TopCounts, n: nat)
    requires top == TopCounts(VInt(n), VInt(n), VInt(n), VInt(n))
    ensures var b := SortedData(teams, players, top);
      var nt := if n < |teams| then n else |teams|;
      var np := if n < |players| then n else |players|;
      |b.teamsByScore| == nt && |b.teamsByAttacked| == nt && |b.playersByScore| == np && |b.playersByMiniGame| == np
  {
  }

  /** The attack board is the top of the teams by attack count: in
      descending order of `attacked_count`, drawn from the teams without
      loss or duplication, and no team left off it has a larger count than
      one on it. */
  lemma {:induction false} TeamsByAttackedIsTop(teams: seq<Team>, top: TopCounts)
    ensures var b := SortedData(teams, [], top).teamsByAttacked; var sorted := SortDesc(teams, TeamAttacked);
      && SortedDesc(b, TeamAttacked)
      && multiset(b) <= multiset(teams)
      && (forall i, j :: 0 <= i < |b| <= j < |sorted| ==> b[i].attacked_count >= sorted[j].attacked_count)
  {
    var sorted := SortDesc(teams, TeamAttacked);
    SortDescSorted(teams, TeamAttacked);
    SortDescPermutes(teams, TeamAttacked);
    TopOfSorted(sorted, TeamAttacked, SliceArg(top.teamsAttacked));
    var b := SliceTo(sorted, SliceArg(top.teamsAttacked));
    forall i, j | 0 <= i < |b| <= j < |sorted| ensures b[i].attacked_count >= sorted[j].attacked_count {
      assert TeamAttacked(b[i]) >= TeamAttacked(sorted[j]);
    }
  }

  /** Likewise for the players by completed mini-games. */
  lemma {:induction false} PlayersByMiniGameIsTop(players: seq<Player>, top: TopCounts)
    ensures var b := SortedData([], players, top).playersByMiniGame; var sorted := SortDesc(players, PlayerMiniGames);
      && SortedDesc(b, PlayerMiniGames)
      && multiset(b) <= multiset(players)
      && (forall i, j :: 0 <= i < |b| <= j < |sorted| ==>
            b[i].completed_minigame_count >= sorted[j].completed_minigame_count)
  {
    var sorted := SortDesc(players, PlayerMiniGames);
    SortDescSorted(players, PlayerMiniGames);
    SortDescPermutes(players, PlayerMiniGames);
    TopOfSorted(sorted, PlayerMiniGames, SliceArg(top.playersMiniGame));
    var b := SliceTo(sorted, SliceArg(top.playersMiniGame));
    forall i, j | 0 <= i < |b| <= j < |sorted| ensures b[i].completed_minigame_count >= sorted[j].completed_minigame_count {
      assert PlayerMiniGames(b[i]) >= PlayerMiniGames(sorted[j]);
    }
  }

  // ---- Bar denominators ----

  /** `Math.max(...xs.map(f), 1)`. */
  function MaxValue<T>(xs: seq<T>, f: T -> int): int {
    MaxWithFloor(Column(xs, f), 1)
  }

  /** The denominator is at least 1 and at least the value of every entry,
      and it is 1 or the value of some entry. */
  lemma MaxValueSpec<T>(xs: seq<T>, f: T -> int)
    ensures MaxValue(xs, f) >= 1
    ensures forall i :: 0 <= i < |xs| ==> f(xs[i]) <= MaxValue(xs, f)
    ensures MaxValue(xs, f) == 1 || exists i :: 0 <= i < |xs| && f(xs[i]) == MaxValue(xs, f)
  {
    var c := Column(xs, f);
    assert forall i :: 0 <= i < |xs| ==> c[i] == f(xs[i]);
    if MaxValue(xs, f) != 1 {
      var i :| 0 <= i < |c| && c[i] == MaxValue(xs, f);
    }
  }

  datatype Maxima = Maxima(teamScore: int, teamAttacked: int, playerScore: int, playerMiniGame: int)

  /** `maxValues`. */
  function MaxValues(teams: seq<Team>, players: seq<Player>): Maxima {
    Maxima(MaxValue(teams, TeamScore), MaxValue(teams, TeamAttacked),
           MaxValue(players, PlayerScore), MaxValue(players, PlayerMiniGames))
  }

  /** No bar is longer than its board's denominator, and no denominator is 0. */
  lemma MaxValuesBound(teams: seq<Team>, players: seq<Player>)
    ensures var m := MaxValues(teams, players);
      && m.teamScore >= 1 && m.teamAttacked >= 1 && m.playerScore >= 1 && m.playerMiniGame >= 1
      && (forall i :: 0 <= i < |teams| ==> teams[i].score <= m.teamScore && teams[i].attacked_count <= m.teamAttacked)
      && (forall i :: 0 <= i < |players| ==>
            players[i].personal_score <= m.playerScore && players[i].completed_minigame_count <= m.playerMiniGame)
  {
    MaxValueSpec(teams, TeamScore);
    MaxValueSpec(teams, TeamAttacked);
    MaxValueSpec(players, PlayerScore);
    MaxValueSpec(players, PlayerMiniGames);
  }

  // ---- Labels ----

  /** `formatLabel(item, "team")`. */
  function TeamLabel(t: Team): string {
    if t.hide_team_name then Dash else t.name
  }

  lemma TeamLabelSpec(t: Team)
    ensures TeamLabel(t) == Dash <==> t.hide_team_name || t.name == Dash
    ensures !t.hide_team_name ==> TeamLabel(t) == t.name
  {
  }

  /** The team part of a player's label: the team's name, when the team is
      in the list and the player does not hide it. */
  function TeamPart(p: Player, teams: seq<Team>): string {
    match TeamById(p, teams)
    case Some(t) => if !p.hide_team then t.name else ""
    case None => ""
  }

  function NamePart(p: Player): string {
    if !p.hide_name then p.name else ""
  }

  /** `formatLabel(item, "player")`. */
  function PlayerLabel(p: Player, teams: seq<Team>): string {
    var teamPart := TeamPart(p, teams);
    var namePart := NamePart(p);
    if teamPart != [] && namePart != [] then teamPart + "-" + namePart
    else if teamPart != [] then teamPart
    else if namePart != [] then namePart
    else Dash
  }

  /** The label starts with the team part and ends with the name part
      whenever these are shown, joins them with one "-" when both are, and
      is "---" exactly when neither is. */
  lemma PlayerLabelSpec(p: Player, teams: seq<Team>)
    ensures var l := PlayerLabel(p, teams); var tp := TeamPart(p, teams); var np := NamePart(p);
      && (tp != [] ==> |tp| <= |l| && l[..|tp|] == tp)
      && (np != [] ==> |np| <= |l| && l[|l| - |np|..] == np)
      && (tp != [] && np != [] ==> |l| == |tp| + 1 + |np| && l[|tp|] == '-')
      && (tp == [] && np == [] ==> l == Dash)
      && (tp != [] || np != [] ==> l == tp || l == np || l == tp + "-" + np)
  {
    var l := PlayerLabel(p, teams);
    var tp := TeamPart(p, teams);
    var np := NamePart(p);
    if tp != [] && np != [] {
      assert l == tp + "-" + np;
      assert l[..|tp|] == tp;
      assert l[|l| - |np|..] == np;
    }
  }

  /** A player who hides both the name and the team is shown as "---",
      whatever the team list holds. */
  lemma FullyHiddenPlayer(p: Player, teams: seq<Team>)
    requires p.hide_name && p.hide_team
    ensures PlayerLabel(p, teams) == Dash
  {
  }

  // ---- The polled lists ----

  /** The board's state. `teamsVersion` and `playersVersion` count how often
      the list was replaced by a new one (a new array, which re-renders the
      boards); `prevTeams` and `prevPlayers` are `prevDataRef.current`. */
  class Board {
    var teams: seq<Team>
    var players: seq<Player>
    var teamsVersion: nat
    var playersVersion: nat
    var prevTeams: seq<Team>
    var prevPlayers: seq<Player>
    var top: TopCounts
    var hidden: map<BoardKind, bool>

    /** The lists are always ordered by score. */
    ghost predicate Valid()
      reads this
    {
      SortedDesc(teams, TeamScore) && SortedDesc(players, PlayerScore)
    }

    constructor ()
      ensures Valid()
      ensures teams == [] && players == [] && prevTeams == [] && prevPlayers == []
      ensures teamsVersion == 0 && playersVersion == 0 && top == InitialTopCounts
      ensures forall k :: k in hidden <==> k in AllBoards
      ensures forall k :: k in hidden ==> !hidden[k]
    {
      teams, players, prevTeams, prevPlayers := [], [], [], [];
      teamsVersion, playersVersion := 0, 0;
      top := InitialTopCounts;
      hidden := map k: BoardKind | k in AllBoards :: false;
    }

    /** The boards as shown. */
    function Shown(): Boards
      reads this
    {
      SortedData(teams, players, top)
    }

    /** One poll (`fetchData`): `None` when either request, or reading
        either answer, failed, which only logs. Otherwise each answer is
        sorted in place by score, and replaces the list when its content
        differs; an equal answer keeps the previous list. */
    method ReceiveData(data: Option<(seq<Team>, seq<Player>)>)
      requires Valid()
      modifies this`teams, this`players, this`teamsVersion, this`playersVersion, this`prevTeams, this`prevPlayers
      ensures Valid()
      ensures data.None? ==> teams == old(teams) && players == old(players)
      ensures data.None? ==> teamsVersion == old(teamsVersion) && playersVersion == old(playersVersion)
      ensures data.Some? ==> teams == SortDesc(data.value.0, TeamScore) && players == SortDesc(data.value.1, PlayerScore)
      ensures data.Some? ==> prevTeams == old(teams) && prevPlayers == old(players)
      ensures data.Some? ==> teamsVersion == old(teamsVersion) + (if teams != old(teams) then 1 else 0)
      ensures data.Some? ==> playersVersion == old(playersVersion) + (if players != old(players) then 1 else 0)
    {
      if data.Some? {
        ReceiveTeams(data.value.0);
        ReceivePlayers(data.value.1);
      }
    }

    /** The `setTeams` updater of one poll. */
    method ReceiveTeams(teamsData: seq<Team>)
      modifies this`teams, this`teamsVersion, this`prevTeams
      ensures teams == SortDesc(teamsData, TeamScore) && SortedDesc(teams, TeamScore)
      ensures prevTeams == old(teams)
      ensures teamsVersion == old(teamsVersion) + (if teams != old(teams) then 1 else 0)
    {
      var a := new Team[|teamsData|](i requires 0 <= i < |teamsData| => teamsData[i]);
      assert a[..] == teamsData;
      SortInPlace(a, TeamScore);
      SortDescSorted(teamsData, TeamScore);
      prevTeams := teams;
      if a[..] != teams {
        teams := a[..];
        teamsVersion := teamsVersion + 1;
      }
    }

    /** The `setPlayers` updater of one poll. */
    method ReceivePlayers(playersData: seq<Player>)
      modifies this`players, this`playersVersion, this`prevPlayers
      ensures players == SortDesc(playersData, PlayerScore) && SortedDesc(players, PlayerScore)
      ensures prevPlayers == old(players)
      ensures playersVersion == old(playersVersion) + (if players != old(players) then 1 else 0)
    {
      var a := new Player[|playersData|](i requires 0 <= i < |playersData| => playersData[i]);
      assert a[..] == playersData;
      SortInPlace(a, PlayerScore);
      SortDescSorted(playersData, PlayerScore);
      prevPlayers := players;
      if a[..] != players {
        players := a[..];
        playersVersion := playersVersion + 1;
      }
    }

    /** A count input: `setTopCounts(prev => ({ ...prev, [key]: Number(value) }))`. */
    method SetTopCount(kind: BoardKind, text: string)
      modifies this`top
      ensures top == old(top).With(kind, ToNum(VStr(text)))
    {
      top := top.With(kind, ToNum(VStr(text)));
    }

    /** A "hide" switch: `setHideRankings(prev => ({ ...prev, [key]: checked }))`. */
    method SetHidden(kind: BoardKind, checked: bool)
      modifies this`hidden
      ensures hidden == old(hidden)[kind := checked]
    {
      hidden := hidden[kind := checked];
    }
  }

  /** Polling an unchanged backend twice replaces nothing the second time. */
  method PollTwice(board: Board, data: (seq<Team>, seq<Player>))
    requires board.Valid()
    modifies board
    ensures board.Valid()
    ensures board.teamsVersion <= old(board.teamsVersion) + 1
    ensures board.playersVersion <= old(board.playersVersion) + 1
    ensures board.teams == SortDesc(data.0, TeamScore) && board.players == SortDesc(data.1, PlayerScore)
  {
    board.ReceiveData(Some(data));
    board.ReceiveData(Some(data));
  }

  /** The score boards are the top of the lists by score. */
  lemma ScoreBoardsAreTop(teams: seq<Team>, players: seq<Player>, top: TopCounts)
    requires SortedDesc(teams, TeamScore) && SortedDesc(players, PlayerScore)
    ensures var b := SortedData(teams, players, top);
      && SortedDesc(b.teamsByScore, TeamScore) && SortedDesc(b.playersByScore, PlayerScore)
      && (forall i, j :: 0 <= i < |b.teamsByScore| <= j < |teams| ==> b.teamsByScore[i].score >= teams[j].score)
      && (forall i, j :: 0 <= i < |b.playersByScore| <= j < |players| ==>
            b.playersByScore[i].personal_score >= players[j].personal_score)
  {
    TopOfSorted(teams, TeamScore, SliceArg(top.teamsScore));
    TopOfSorted(players, PlayerScore, SliceArg(top.playersScore));
  }
}
