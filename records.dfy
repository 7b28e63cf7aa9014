/** The records the console exchanges with its REST backend (teams, players,
    mini-games, the common settings) and the JSON values inside them, with the
    JavaScript coercions the components apply to those values. */
module Records {
  import opened Wrappers
  import opened Text

  /** A JSON value as a component holds it. `VNaN` is the number `NaN`, which
      `JSON.stringify` sends as `null`. */
  datatype Value = VNull | VBool(b: bool) | VInt(i: int) | VNaN | VStr(s: string)

  /** The JSON keys of the records. A key the models do not have is `Other`. */
  datatype Field =
    | Id | Name | Number | Score | AttackedCount | PersonalScore | Chips | CompletedMinigameCount
    | TeamField | HideRanking | HideTeamName | HideName | HideTeam | HidePersonalScore
    | HideCompletedMinigameCount | Category | Room | AvailableChips | PlayCount | IsDisplayed
    | IsLimited | LimitedTime | Other(key: string)

  /** A request body or a PATCH payload: field to value. */
  type Body = map<Field, Value>

  /** JavaScript truthiness: `false`, `0`, `NaN`, `""` and `null` are falsy. */
  predicate Truthy(v: Value) {
    match v
    case VNull => false
    case VBool(b) => b
    case VInt(i) => i != 0
    case VNaN => false
    case VStr(s) => s != []
  }

  /** `Number(v)`. */
  function ToNum(v: Value): (r: Value)
    ensures r.VInt? || r.VNaN?
    ensures v.VInt? ==> r == v
    ensures v.VStr? ==> (r.VInt? <==> ToNumber(v.s).Some?)
    ensures v.VStr? && r.VInt? ==> r.i == ToNumber(v.s).value
  {
    match v
    case VNull => VInt(0)
    case VBool(b) => VInt(if b then 1 else 0)
    case VInt(i) => v
    case VNaN => VNaN
    case VStr(s) => match ToNumber(s) case Some(n) => VInt(n) case None => VNaN
  }

  /** `v !== null && v !== undefined ? v.toString() : ''`, the text an inline
      editor shows for a value. */
  function CellText(v: Value): string {
    match v
    case VNull => ""
    case VBool(b) => if b then "true" else "false"
    case VInt(i) => IntToString(i)
    case VNaN => "NaN"
    case VStr(s) => s
  }

  /** What a player's `team` field holds: `null`, the id of a team, or (in
      responses that nest it) a team object, of which only the name is read. */
  datatype TeamRef = NoTeam | TeamId(id: int) | Embedded(name: string)

  /** `String(player.team)`. */
  function TeamRefText(r: TeamRef): string {
    match r
    case NoTeam => "null"
    case TeamId(id) => IntToString(id)
    case Embedded(_) => "[object Object]"
  }

  datatype Team = Team(
    id: int,
    name: string,
    score: int,
    attacked_count: int,
    hide_ranking: bool,
    hide_team_name: bool)

  datatype Player = Player(
    id: int,
    name: string,
    number: string,
    personal_score: int,
    chips: int,
    completed_minigame_count: int,
    team: TeamRef,
    hide_name: bool,
    hide_team: bool,
    hide_personal_score: bool,
    hide_completed_minigame_count: bool)

  /** `is_displayed` is kept as a JSON value because the game catalogue tests
      it defensively for strings as well as booleans. */
  datatype MiniGame = MiniGame(
    id: int,
    category: string,
    room: string,
    name: string,
    available_chips: int,
    play_count: int,
    is_displayed: Value,
    is_limited: bool,
    limited_time: int)

  /** The common settings record: the three attack multipliers and the login
      password, which may be missing (`null`). */
  datatype Settings = Settings(
    id: int,
    attacker_team_bonus: int,
    attacker_player_bonus: int,
    attacked_increment: int,
    login_password: Option<string>)

  // The ids, and the fields the leaderboards sort by.
  function TeamKey(t: Team): int { t.id }
  function PlayerKey(p: Player): int { p.id }
  function GameKey(g: MiniGame): int { g.id }
  function TeamScore(t: Team): int { t.score }
  function TeamAttacked(t: Team): int { t.attacked_count }
  function PlayerScore(p: Player): int { p.personal_score }
  function PlayerMiniGames(p: Player): int { p.completed_minigame_count }
}
