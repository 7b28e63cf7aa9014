/** The REST backend as the console sees it: three collections of records
    keyed by id (`/api/teams/`, `/api/players/`, `/api/minigames/`), served by
    model view sets over model serializers. A PATCH merges the fields it
    names into the stored record, a POST creates a record from the model's
    defaults and the fields it names, a DELETE removes one record. Every
    request is appended to a log; a request whose position in the log is
    listed in the state's outages never reaches the server (the `fetch`
    promise rejects). */
module Server {
  import opened Wrappers
  import opened Text
  import opened Records

  datatype Resource = Teams | Players | MiniGames

  datatype Request =
    | Patch(resource: Resource, id: int, body: Body)
    | Post(resource: Resource, body: Body)
    | Delete(resource: Resource, id: int)

  /** Why a request did not succeed: the transport failed, or the server
      answered with a status other than 2xx. */
  datatype Failure = NetworkError | HttpError(status: int)

  datatype ServerState = ServerState(
    teams: map<int, Team>,
    players: map<int, Player>,
    games: map<int, MiniGame>,
    nextId: int,
    log: seq<Request>,
    outages: set<nat>)

  /** Each record is stored under its own id, every id is below the next one
      to be handed out, and every player's team exists. */
  ghost predicate ValidState(s: ServerState) {
    && (forall k :: k in s.teams ==> s.teams[k].id == k && k < s.nextId)
    && (forall k :: k in s.players ==> s.players[k].id == k && k < s.nextId)
    && (forall k :: k in s.games ==> s.games[k].id == k && k < s.nextId)
    && (forall k :: k in s.players ==> PlayerTeamExists(s.players[k], s.teams))
  }

  predicate PlayerTeamExists(p: Player, teams: map<int, Team>) {
    match p.team
    case NoTeam => true
    case TeamId(t) => t in teams
    case Embedded(_) => false
  }

  /** The next request reaches the server. */
  predicate Reaches(s: ServerState) {
    |s.log| !in s.outages
  }

  // Field conversions of the serializers: `None` is a validation error (400).

  /** An integer field takes a JSON integer. (`NaN` is sent as JSON `null`,
      which the field refuses.) */
  function AsInt(v: Value): Option<int> {
    match v
    case VInt(i) => Some(i)
    case _ => None
  }

  // ---- Python's `str.strip()` ----

  /** The characters for which Python's `str.isspace()` holds, which
      `str.strip()` removes. Besides JavaScript's white space they include
      the separators U+001C to U+001F and U+0085, and they lack U+FEFF. */
  predicate IsPythonSpace(c: char) {
    || ('\t' <= c <= '\r') || ('\U{001C}' <= c <= ' ')
    || c == '\U{0085}' || c == '\U{00A0}' || c == '\U{1680}'
    || ('\U{2000}' <= c <= '\U{200A}')
    || c == '\U{2028}' || c == '\U{2029}' || c == '\U{202F}' || c == '\U{205F}'
    || c == '\U{3000}'
  }

  function StripStart(s: string): string {
    if s != [] && IsPythonSpace(s[0]) then StripStart(s[1..]) else s
  }

  function StripEnd(s: string): string {
    if s != [] && IsPythonSpace(s[|s| - 1]) then StripEnd(s[..|s| - 1]) else s
  }

  /** `s.strip()`. */
  function Strip(s: string): string {
    StripEnd(StripStart(s))
  }

  /** The text is empty once stripped, which a character field refuses. */
  predicate StripBlank(s: string) {
    Strip(s) == []
  }

  /** `StripStart` cuts a prefix of Python white space and stops at a
      character that is not. */
  lemma {:induction false} StripStartSpec(s: string)
    ensures var r := StripStart(s);
      |r| <= |s| && r == s[|s| - |r|..]
      && (forall i :: 0 <= i < |s| - |r| ==> IsPythonSpace(s[i]))
      && (r != [] ==> !IsPythonSpace(r[0]))
  {
    if s != [] && IsPythonSpace(s[0]) {
      StripStartSpec(s[1..]);
      var r := StripStart(s[1..]);
      forall i | 0 <= i < |s| - |r| ensures IsPythonSpace(s[i]) {
        if i > 0 { assert s[i] == s[1..][i - 1]; }
      }
    }
  }

  /** `StripEnd` cuts a suffix of Python white space and stops at a
      character that is not. */
  lemma {:induction false} StripEndSpec(s: string)
    ensures var r := StripEnd(s);
      |r| <= |s| && r == s[..|r|]
      && (forall i :: |r| <= i < |s| ==> IsPythonSpace(s[i]))
      && (r != [] ==> !IsPythonSpace(r[|r| - 1]))
  {
    if s != [] && IsPythonSpace(s[|s| - 1]) {
      StripEndSpec(s[..|s| - 1]);
      var r := StripEnd(s[..|s| - 1]);
      forall i | |r| <= i < |s| ensures IsPythonSpace(s[i]) {
        if i < |s| - 1 { assert s[i] == s[..|s| - 1][i]; }
      }
    }
  }

  /** A text strips to nothing exactly when all of it is Python white space. */
  lemma StripBlankIffAllPythonSpaces(s: string)
    ensures StripBlank(s) <==> forall i :: 0 <= i < |s| ==> IsPythonSpace(s[i])
  {
    var t := StripStart(s);
    StripStartSpec(s);
    StripEndSpec(t);
    if t != [] {
      assert t[0] == s[|s| - |t|];
    }
  }

  /** Stripping twice is stripping once. */
  lemma StripIdempotent(s: string)
    ensures Strip(Strip(s)) == Strip(s)
  {
    var t := StripStart(s);
    StripStartSpec(s);
    var r := StripEnd(t);
    StripEndSpec(t);
    if r != [] {
      assert r[0] == t[0];
      assert StripStart(r) == r;
      assert StripEnd(r) == r;
    }
  }

  /** The backend's strip and the console's `trim` differ: U+001F is
      Python white space only, U+FEFF is JavaScript white space only. */
  lemma StripIsNotTrim()
    ensures StripBlank("\U{001F}") && !Blank("\U{001F}")
    ensures Blank("\U{FEFF}") && !StripBlank("\U{FEFF}")
    ensures Strip("\U{FEFF}A") == "\U{FEFF}A" && Trim("\U{FEFF}A") == "A"
  {
    assert StripEnd(StripStart("\U{001F}")) == [] by {
      assert "\U{001F}"[1..] == [];
    }
    assert TrimEnd(TrimStart("\U{001F}")) == "\U{001F}";
    assert TrimEnd(TrimStart("\U{FEFF}")) == [] by {
      assert "\U{FEFF}"[1..] == [];
    }
    assert StripEnd(StripStart("\U{FEFF}")) == "\U{FEFF}";
    assert StripEnd(StripStart("\U{FEFF}A")) == "\U{FEFF}A";
    assert TrimEnd(TrimStart("\U{FEFF}A")) == "A" by {
      assert "\U{FEFF}A"[1..] == "A";
    }
  }

  /** On text in which every character is white space to both languages or
      to neither, the backend's strip is the console's `trim`. */
  lemma StripAgreesWithTrim(s: string)
    requires forall i :: 0 <= i < |s| ==> (IsPythonSpace(s[i]) <==> IsSpace(s[i]))
    ensures Strip(s) == Trim(s)
  {
    StartsAgree(s);
    TrimStartSpec(s);
    EndsAgree(TrimStart(s));
  }

  lemma {:induction false} StartsAgree(s: string)
    requires forall i :: 0 <= i < |s| ==> (IsPythonSpace(s[i]) <==> IsSpace(s[i]))
    ensures StripStart(s) == TrimStart(s)
  {
    if s != [] && IsSpace(s[0]) {
      StartsAgree(s[1..]);
    }
  }

  lemma {:induction false} EndsAgree(s: string)
    requires forall i :: 0 <= i < |s| ==> (IsPythonSpace(s[i]) <==> IsSpace(s[i]))
    ensures StripEnd(s) == TrimEnd(s)
  {
    if s != [] && IsSpace(s[|s| - 1]) {
      EndsAgree(s[..|s| - 1]);
    }
  }

  /** A character field strips its input with `str.strip()` and refuses a
      text that strips to nothing. */
  function AsText(v: Value): Option<string> {
    match v
    case VStr(s) => if StripBlank(s) then None else Some(Strip(s))
    case _ => None
  }

  function AsBool(v: Value): Option<bool> {
    match v
    case VBool(b) => Some(b)
    case _ => None
  }

  /** A nullable foreign key to a team: `null` and `""` clear it, otherwise
      the id must name an existing team. */
  function AsTeamRef(v: Value, teams: set<int>): (r: Option<TeamRef>)
    ensures r.Some? && r.value.TeamId? ==> r.value.id in teams
    ensures r.Some? ==> !r.value.Embedded?
  {
    match v
    case VNull => Some(NoTeam)
    case VInt(k) => if k in teams then Some(TeamId(k)) else None
    case VStr(s) =>
      if s == [] then Some(NoTeam)
      else (match ParseInt(s)
            case Some(k) => if k in teams then Some(TeamId(k)) else None
            case None => None)
    case _ => None
  }

  // Field `k` is absent from the body or converts; and the converted value
  // of field `k`, or the record's own when the body does not name it.

  predicate IntOk(b: Body, k: Field) { k !in b || AsInt(b[k]).Some? }
  predicate TextOk(b: Body, k: Field) { k !in b || AsText(b[k]).Some? }
  predicate BoolOk(b: Body, k: Field) { k !in b || AsBool(b[k]).Some? }
  predicate BoolValueOk(b: Body, k: Field) { k !in b || AsBoolValue(b[k]).Some? }
  predicate TeamRefOk(b: Body, k: Field, teams: set<int>) { k !in b || AsTeamRef(b[k], teams).Some? }

  function IntOr(b: Body, k: Field, d: int): int {
    if k in b && AsInt(b[k]).Some? then AsInt(b[k]).value else d
  }
  function TextOr(b: Body, k: Field, d: string): string {
    if k in b && AsText(b[k]).Some? then AsText(b[k]).value else d
  }
  function BoolOr(b: Body, k: Field, d: bool): bool {
    if k in b && AsBool(b[k]).Some? then AsBool(b[k]).value else d
  }
  function BoolValueOr(b: Body, k: Field, d: Value): Value {
    if k in b && AsBoolValue(b[k]).Some? then AsBoolValue(b[k]).value else d
  }
  function TeamRefOr(b: Body, k: Field, teams: set<int>, d: TeamRef): TeamRef {
    if k in b && AsTeamRef(b[k], teams).Some? then AsTeamRef(b[k], teams).value else d
  }

  function TeamIds(s: ServerState): set<int> {
    s.teams.Keys
  }

  // ---- Teams ----

  predicate TeamBodyOk(b: Body) {
    && TextOk(b, Name)
    && IntOk(b, Score)
    && IntOk(b, AttackedCount)
    && BoolOk(b, HideRanking)
    && BoolOk(b, HideTeamName)
  }

  /** The stored team after a PATCH with body `b`: every field `b` names
      takes its converted value, every other field keeps its value. */
  function MergeTeam(t: Team, b: Body): (r: Team)
    ensures r.id == t.id
  {
    Team(
      t.id,
      TextOr(b, Name, t.name),
      IntOr(b, Score, t.score),
      IntOr(b, AttackedCount, t.attacked_count),
      BoolOr(b, HideRanking, t.hide_ranking),
      BoolOr(b, HideTeamName, t.hide_team_name))
  }

  /** The model defaults of a new team (`name` has none and is required). */
  function DefaultTeam(id: int): Team {
    Team(id, "", 0, 0, false, false)
  }

  // ---- Players ----

  predicate PlayerBodyOk(b: Body, teams: set<int>) {
    && TextOk(b, Name)
    && TextOk(b, Number)
    && IntOk(b, PersonalScore)
    && IntOk(b, Chips)
    && IntOk(b, CompletedMinigameCount)
    && TeamRefOk(b, TeamField, teams)
    && BoolOk(b, HideName)
    && BoolOk(b, HideTeam)
    && BoolOk(b, HidePersonalScore)
    && BoolOk(b, HideCompletedMinigameCount)
  }

  function MergePlayer(p: Player, b: Body, teams: set<int>): (r: Player)
    ensures r.id == p.id
  {
    Player(
      p.id,
      TextOr(b, Name, p.name),
      TextOr(b, Number, p.number),
      IntOr(b, PersonalScore, p.personal_score),
      IntOr(b, Chips, p.chips),
      IntOr(b, CompletedMinigameCount, p.completed_minigame_count),
      TeamRefOr(b, TeamField, teams, p.team),
      BoolOr(b, HideName, p.hide_name),
      BoolOr(b, HideTeam, p.hide_team),
      BoolOr(b, HidePersonalScore, p.hide_personal_score),
      BoolOr(b, HideCompletedMinigameCount, p.hide_completed_minigame_count))
  }

  function DefaultPlayer(id: int): Player {
    Player(id, "", "", 0, 0, 0, NoTeam, false, false, false, false)
  }

  // ---- Mini-games ----

  function AsBoolValue(v: Value): Option<Value> {
    if v.VBool? then Some(v) else None
  }

  predicate GameBodyOk(b: Body) {
    && TextOk(b, Category)
    && TextOk(b, Room)
    && TextOk(b, Name)
    && IntOk(b, AvailableChips)
    && IntOk(b, PlayCount)
    && BoolValueOk(b, IsDisplayed)
    && BoolOk(b, IsLimited)
    && IntOk(b, LimitedTime)
  }

  function MergeGame(g: MiniGame, b: Body): (r: MiniGame)
    ensures r.id == g.id
  {
    MiniGame(
      g.id,
      TextOr(b, Category, g.category),
      TextOr(b, Room, g.room),
      TextOr(b, Name, g.name),
      IntOr(b, AvailableChips, g.available_chips),
      IntOr(b, PlayCount, g.play_count),
      BoolValueOr(b, IsDisplayed, g.is_displayed),
      BoolOr(b, IsLimited, g.is_limited),
      IntOr(b, LimitedTime, g.limited_time))
  }

  function DefaultGame(id: int): MiniGame {
    MiniGame(id, "", "", "", 0, 0, VBool(true), false, 0)
  }

  // ---- Requests ----

  /** `s` with request `q` appended to its log. */
  function Sent(s: ServerState, q: Request): (r: ServerState)
    ensures r.log == s.log + [q] && r.log[|s.log|] == q
    ensures r.teams == s.teams && r.players == s.players && r.games == s.games
    ensures r.nextId == s.nextId && r.outages == s.outages
  {
    s.(log := s.log + [q])
  }

  /** PATCH `/api/teams/{id}/`. */
  function PatchTeamStep(s: ServerState, id: int, b: Body): (r: (ServerState, Result<Team, Failure>))
    ensures r.0.log == s.log + [Patch(Teams, id, b)]
    ensures r.0.players == s.players && r.0.games == s.games
    ensures r.0.nextId == s.nextId && r.0.outages == s.outages
    ensures r.1.Success? <==> Reaches(s) && id in s.teams && TeamBodyOk(b)
    ensures !Reaches(s) ==> r.1 == Failure(NetworkError)
    ensures Reaches(s) && id !in s.teams ==> r.1 == Failure(HttpError(404))
    ensures Reaches(s) && id in s.teams && !TeamBodyOk(b) ==> r.1 == Failure(HttpError(400))
    ensures r.1.Success? ==> r.1.value == MergeTeam(s.teams[id], b) && r.0.teams == s.teams[id := r.1.value]
    ensures r.1.Failure? ==> r.0.teams == s.teams
  {
    var s1 := Sent(s, Patch(Teams, id, b));
    if !Reaches(s) then (s1, Failure(NetworkError))
    else if id !in s.teams then (s1, Failure(HttpError(404)))
    else if !TeamBodyOk(b) then (s1, Failure(HttpError(400)))
    else
      var t := MergeTeam(s.teams[id], b);
      (s1.(teams := s.teams[id := t]), Success(t))
  }

  /** PATCH `/api/players/{id}/`. */
  function PatchPlayerStep(s: ServerState, id: int, b: Body): (r: (ServerState, Result<Player, Failure>))
    ensures r.0.log == s.log + [Patch(Players, id, b)]
    ensures r.0.teams == s.teams && r.0.games == s.games
    ensures r.0.nextId == s.nextId && r.0.outages == s.outages
    ensures r.1.Success? <==> Reaches(s) && id in s.players && PlayerBodyOk(b, TeamIds(s))
    ensures !Reaches(s) ==> r.1 == Failure(NetworkError)
    ensures Reaches(s) && id !in s.players ==> r.1 == Failure(HttpError(404))
    ensures Reaches(s) && id in s.players && !PlayerBodyOk(b, TeamIds(s)) ==> r.1 == Failure(HttpError(400))
    ensures r.1.Success? ==> r.1.value == MergePlayer(s.players[id], b, TeamIds(s)) && r.0.players == s.players[id := r.1.value]
    ensures r.1.Failure? ==> r.0.players == s.players
  {
    var s1 := Sent(s, Patch(Players, id, b));
    if !Reaches(s) then (s1, Failure(NetworkError))
    else if id !in s.players then (s1, Failure(HttpError(404)))
    else if !PlayerBodyOk(b, TeamIds(s)) then (s1, Failure(HttpError(400)))
    else
      var p := MergePlayer(s.players[id], b, TeamIds(s));
      (s1.(players := s.players[id := p]), Success(p))
  }

  /** PATCH `/api/minigames/{id}/`. */
  function PatchGameStep(s: ServerState, id: int, b: Body): (r: (ServerState, Result<MiniGame, Failure>))
    ensures r.0.log == s.log + [Patch(MiniGames, id, b)]
    ensures r.0.teams == s.teams && r.0.players == s.players
    ensures r.0.nextId == s.nextId && r.0.outages == s.outages
    ensures r.1.Success? <==> Reaches(s) && id in s.games && GameBodyOk(b)
    ensures !Reaches(s) ==> r.1 == Failure(NetworkError)
    ensures Reaches(s) && id !in s.games ==> r.1 == Failure(HttpError(404))
    ensures Reaches(s) && id in s.games && !GameBodyOk(b) ==> r.1 == Failure(HttpError(400))
    ensures r.1.Success? ==> r.1.value == MergeGame(s.games[id], b) && r.0.games == s.games[id := r.1.value]
    ensures r.1.Failure? ==> r.0.games == s.games
  {
    var s1 := Sent(s, Patch(MiniGames, id, b));
    if !Reaches(s) then (s1, Failure(NetworkError))
    else if id !in s.games then (s1, Failure(HttpError(404)))
    else if !GameBodyOk(b) then (s1, Failure(HttpError(400)))
    else
      var g := MergeGame(s.games[id], b);
      (s1.(games := s.games[id := g]), Success(g))
  }

  /** POST `/api/teams/`: `name` is required, the other fields default. */
  function PostTeamStep(s: ServerState, b: Body): (r: (ServerState, Result<Team, Failure>))
    ensures r.0.log == s.log + [Post(Teams, b)]
    ensures r.0.players == s.players && r.0.games == s.games && r.0.outages == s.outages
    ensures r.1.Success? <==> Reaches(s) && Name in b && TeamBodyOk(b)
    ensures !Reaches(s) ==> r.1 == Failure(NetworkError)
    ensures Reaches(s) && !r.1.Success? ==> r.1 == Failure(HttpError(400))
    ensures r.1.Success? ==>
              r.1.value == MergeTeam(DefaultTeam(s.nextId), b)
              && r.0.teams == s.teams[s.nextId := r.1.value] && r.0.nextId == s.nextId + 1
    ensures r.1.Failure? ==> r.0.teams == s.teams && r.0.nextId == s.nextId
  {
    var s1 := Sent(s, Post(Teams, b));
    if !Reaches(s) then (s1, Failure(NetworkError))
    else if !(Name in b && TeamBodyOk(b)) then (s1, Failure(HttpError(400)))
    else
      var t := MergeTeam(DefaultTeam(s.nextId), b);
      (s1.(teams := s.teams[s.nextId := t], nextId := s.nextId + 1), Success(t))
  }

  /** POST `/api/players/`: `name` and `number` are required. */
  function PostPlayerStep(s: ServerState, b: Body): (r: (ServerState, Result<Player, Failure>))
    ensures r.0.log == s.log + [Post(Players, b)]
    ensures r.0.teams == s.teams && r.0.games == s.games && r.0.outages == s.outages
    ensures r.1.Success? <==> Reaches(s) && Name in b && Number in b && PlayerBodyOk(b, TeamIds(s))
    ensures !Reaches(s) ==> r.1 == Failure(NetworkError)
    ensures Reaches(s) && !r.1.Success? ==> r.1 == Failure(HttpError(400))
    ensures r.1.Success? ==>
              r.1.value == MergePlayer(DefaultPlayer(s.nextId), b, TeamIds(s))
              && r.0.players == s.players[s.nextId := r.1.value] && r.0.nextId == s.nextId + 1
    ensures r.1.Failure? ==> r.0.players == s.players && r.0.nextId == s.nextId
  {
    var s1 := Sent(s, Post(Players, b));
    if !Reaches(s) then (s1, Failure(NetworkError))
    else if !(Name in b && Number in b && PlayerBodyOk(b, TeamIds(s))) then (s1, Failure(HttpError(400)))
    else
      var p := MergePlayer(DefaultPlayer(s.nextId), b, TeamIds(s));
      (s1.(players := s.players[s.nextId := p], nextId := s.nextId + 1), Success(p))
  }

  /** POST `/api/minigames/`: `category`, `room` and `name` are required. */
  function PostGameStep(s: ServerState, b: Body): (r: (ServerState, Result<MiniGame, Failure>))
    ensures r.0.log == s.log + [Post(MiniGames, b)]
    ensures r.0.teams == s.teams && r.0.players == s.players && r.0.outages == s.outages
    ensures r.1.Success? <==> Reaches(s) && Category in b && Room in b && Name in b && GameBodyOk(b)
    ensures !Reaches(s) ==> r.1 == Failure(NetworkError)
    ensures Reaches(s) && !r.1.Success? ==> r.1 == Failure(HttpError(400))
    ensures r.1.Success? ==>
              r.1.value == MergeGame(DefaultGame(s.nextId), b)
              && r.0.games == s.games[s.nextId := r.1.value] && r.0.nextId == s.nextId + 1
    ensures r.1.Failure? ==> r.0.games == s.games && r.0.nextId == s.nextId
  {
    var s1 := Sent(s, Post(MiniGames, b));
    if !Reaches(s) then (s1, Failure(NetworkError))
    else if !(Category in b && Room in b && Name in b && GameBodyOk(b)) then (s1, Failure(HttpError(400)))
    else
      var g := MergeGame(DefaultGame(s.nextId), b);
      (s1.(games := s.games[s.nextId := g], nextId := s.nextId + 1), Success(g))
  }

  /** DELETE `/api/players/{id}/`. */
  function DeletePlayerStep(s: ServerState, id: int): (r: (ServerState, Result<(), Failure>))
    ensures r.0.log == s.log + [Delete(Players, id)]
    ensures r.0.teams == s.teams && r.0.games == s.games
    ensures r.0.nextId == s.nextId && r.0.outages == s.outages
    ensures r.1.Success? <==> Reaches(s) && id in s.players
    ensures !Reaches(s) ==> r.1 == Failure(NetworkError)
    ensures Reaches(s) && id !in s.players ==> r.1 == Failure(HttpError(404))
    ensures r.0.players == if r.1.Success? then s.players - {id} else s.players
  {
    var s1 := Sent(s, Delete(Players, id));
    if !Reaches(s) then (s1, Failure(NetworkError))
    else if id !in s.players then (s1, Failure(HttpError(404)))
    else (s1.(players := s.players - {id}), Success(()))
  }

  /** DELETE `/api/minigames/{id}/`. */
  function DeleteGameStep(s: ServerState, id: int): (r: (ServerState, Result<(), Failure>))
    ensures r.0.log == s.log + [Delete(MiniGames, id)]
    ensures r.0.teams == s.teams && r.0.players == s.players
    ensures r.0.nextId == s.nextId && r.0.outages == s.outages
    ensures r.1.Success? <==> Reaches(s) && id in s.games
    ensures !Reaches(s) ==> r.1 == Failure(NetworkError)
    ensures Reaches(s) && id !in s.games ==> r.1 == Failure(HttpError(404))
    ensures r.0.games == if r.1.Success? then s.games - {id} else s.games
  {
    var s1 := Sent(s, Delete(MiniGames, id));
    if !Reaches(s) then (s1, Failure(NetworkError))
    else if id !in s.games then (s1, Failure(HttpError(404)))
    else (s1.(games := s.games - {id}), Success(()))
  }

  // ---- Properties of the backend model ----

  /** A PATCH with an empty body (or one naming no known field) leaves the
      record as it is. */
  lemma MergeTeamEmpty(t: Team)
    ensures MergeTeam(t, map[]) == t
  {
  }

  /** A PATCH that names one integer field changes that field and nothing else. */
  lemma MergeTeamScore(t: Team, n: int)
    ensures TeamBodyOk(map[Score := VInt(n)])
    ensures MergeTeam(t, map[Score := VInt(n)]) == t.(score := n)
  {
  }

  lemma MergeTeamAttacked(t: Team, n: int)
    ensures TeamBodyOk(map[AttackedCount := VInt(n)])
    ensures MergeTeam(t, map[AttackedCount := VInt(n)]) == t.(attacked_count := n)
  {
  }

  lemma MergePlayerPersonalScore(p: Player, n: int, teams: set<int>)
    ensures PlayerBodyOk(map[PersonalScore := VInt(n)], teams)
    ensures MergePlayer(p, map[PersonalScore := VInt(n)], teams) == p.(personal_score := n)
  {
  }

  lemma MergePlayerChips(p: Player, n: int, teams: set<int>)
    ensures PlayerBodyOk(map[Chips := VInt(n)], teams)
    ensures MergePlayer(p, map[Chips := VInt(n)], teams) == p.(chips := n)
  {
  }

  lemma MergeGamePlayCount(g: MiniGame, n: int)
    ensures GameBodyOk(map[PlayCount := VInt(n)])
    ensures MergeGame(g, map[PlayCount := VInt(n)]) == g.(play_count := n)
  {
  }

  /** A one-field PATCH of a team's score that gets through, in full. */
  lemma PatchTeamScoreOk(s: ServerState, id: int, n: int)
    requires Reaches(s) && id in s.teams
    ensures var t := s.teams[id].(score := n);
      PatchTeamStep(s, id, map[Score := VInt(n)])
        == (s.(log := s.log + [Patch(Teams, id, map[Score := VInt(n)])], teams := s.teams[id := t]), Success(t))
  {
    MergeTeamScore(s.teams[id], n);
  }

  /** A one-field PATCH of a team's attack count that gets through, in full. */
  lemma PatchTeamAttackedOk(s: ServerState, id: int, n: int)
    requires Reaches(s) && id in s.teams
    ensures var t := s.teams[id].(attacked_count := n);
      PatchTeamStep(s, id, map[AttackedCount := VInt(n)])
        == (s.(log := s.log + [Patch(Teams, id, map[AttackedCount := VInt(n)])], teams := s.teams[id := t]), Success(t))
  {
    MergeTeamAttacked(s.teams[id], n);
  }

  /** A one-field PATCH of a player's personal score that gets through, in full. */
  lemma PatchPlayerScoreOk(s: ServerState, id: int, n: int)
    requires Reaches(s) && id in s.players
    ensures var p := s.players[id].(personal_score := n);
      PatchPlayerStep(s, id, map[PersonalScore := VInt(n)])
        == (s.(log := s.log + [Patch(Players, id, map[PersonalScore := VInt(n)])], players := s.players[id := p]), Success(p))
  {
    MergePlayerPersonalScore(s.players[id], n, TeamIds(s));
  }

  /** Re-sending a PATCH that succeeded changes nothing more: the merge is
      idempotent, because every field it writes is taken from the body. */
  lemma MergeTeamIdempotent(t: Team, b: Body)
    ensures MergeTeam(MergeTeam(t, b), b) == MergeTeam(t, b)
  {
  }

  /** Every step keeps the state well formed. */
  lemma {:induction false} PatchTeamStepValid(s: ServerState, id: int, b: Body)
    requires ValidState(s)
    ensures ValidState(PatchTeamStep(s, id, b).0)
  {
    var r := PatchTeamStep(s, id, b);
    if r.1.Success? {
      assert r.0.teams.Keys == s.teams.Keys;
    }
  }

  lemma {:induction false} PatchPlayerStepValid(s: ServerState, id: int, b: Body)
    requires ValidState(s)
    ensures ValidState(PatchPlayerStep(s, id, b).0)
  {
    var r := PatchPlayerStep(s, id, b);
    if r.1.Success? {
      var p := r.1.value;
      assert p.team == TeamRefOr(b, TeamField, TeamIds(s), s.players[id].team);
      if TeamField in b && AsTeamRef(b[TeamField], TeamIds(s)).Some? {
        assert PlayerTeamExists(p, s.teams);
      } else {
        assert p.team == s.players[id].team;
      }
    }
  }

  lemma PostTeamStepValid(s: ServerState, b: Body)
    requires ValidState(s)
    ensures ValidState(PostTeamStep(s, b).0)
  {
    var r := PostTeamStep(s, b);
    if r.1.Success? {
      forall k | k in r.0.players ensures PlayerTeamExists(r.0.players[k], r.0.teams) {
        assert PlayerTeamExists(s.players[k], s.teams);
      }
    }
  }

  lemma {:induction false} PostPlayerStepValid(s: ServerState, b: Body)
    requires ValidState(s)
    ensures ValidState(PostPlayerStep(s, b).0)
  {
    var r := PostPlayerStep(s, b);
    if r.1.Success? {
      var p := r.1.value;
      NewPlayerTeamExists(s, b);
      forall k | k in r.0.players
        ensures r.0.players[k].id == k && k < r.0.nextId && PlayerTeamExists(r.0.players[k], r.0.teams)
      {
        if k != s.nextId {
          assert r.0.players[k] == s.players[k];
        }
      }
    }
  }

  lemma {:induction false} PatchGameStepValid(s: ServerState, id: int, b: Body)
    requires ValidState(s)
    ensures ValidState(PatchGameStep(s, id, b).0)
  {
    var r := PatchGameStep(s, id, b);
    if r.1.Success? {
      assert r.0.games.Keys == s.games.Keys;
    }
  }

  lemma {:induction false} PostGameStepValid(s: ServerState, b: Body)
    requires ValidState(s)
    ensures ValidState(PostGameStep(s, b).0)
  {
    var r := PostGameStep(s, b);
    if r.1.Success? {
      forall k | k in r.0.games ensures r.0.games[k].id == k && k < r.0.nextId {
        if k != s.nextId {
          assert r.0.games[k] == s.games[k];
        }
      }
    }
  }

  /** Deleting a player leaves every remaining player's team in place. */
  lemma {:induction false} DeletePlayerStepValid(s: ServerState, id: int)
    requires ValidState(s)
    ensures ValidState(DeletePlayerStep(s, id).0)
  {
    var r := DeletePlayerStep(s, id);
    forall k | k in r.0.players
      ensures r.0.players[k].id == k && k < r.0.nextId && PlayerTeamExists(r.0.players[k], r.0.teams)
    {
      assert r.0.players[k] == s.players[k];
    }
  }

  lemma {:induction false} DeleteGameStepValid(s: ServerState, id: int)
    requires ValidState(s)
    ensures ValidState(DeleteGameStep(s, id).0)
  {
    var r := DeleteGameStep(s, id);
    forall k | k in r.0.games ensures r.0.games[k].id == k && k < r.0.nextId {
      assert r.0.games[k] == s.games[k];
    }
  }

  lemma NewPlayerTeamExists(s: ServerState, b: Body)
    ensures PlayerTeamExists(MergePlayer(DefaultPlayer(s.nextId), b, TeamIds(s)), s.teams)
  {

  }

  /** A created record gets an id no existing record has. */
  lemma PostTeamFreshId(s: ServerState, b: Body)
    requires ValidState(s)
    requires PostTeamStep(s, b).1.Success?
    ensures var t := PostTeamStep(s, b).1.value;
      t.id !in s.teams && t.score == IntOr(b, Score, 0)
      && t.attacked_count == IntOr(b, AttackedCount, 0)
  {
  }

  /** Deleting a player and then patching it is a 404. */
  lemma DeleteThenPatch(s: ServerState, id: int, b: Body)
    requires DeletePlayerStep(s, id).1.Success?
    requires Reaches(DeletePlayerStep(s, id).0)
    ensures PatchPlayerStep(DeletePlayerStep(s, id).0, id, b).1 == Failure(HttpError(404))
  {
  }

  /** The backend as an object whose collections change with each request. */
  class Backend {
    var teams: map<int, Team>
    var players: map<int, Player>
    var games: map<int, MiniGame>
    var nextId: int
    var log: seq<Request>
    const outages: set<nat>

    function State(): ServerState
      reads this
    {
      ServerState(teams, players, games, nextId, log, outages)
    }

    constructor (s: ServerState)
      ensures State() == s
    {
      teams, players, games := s.teams, s.players, s.games;
      nextId, log, outages := s.nextId, s.log, s.outages;
    }

    method PatchTeam(id: int, b: Body) returns (r: Result<Team, Failure>)
      modifies this
      ensures (State(), r) == PatchTeamStep(old(State()), id, b)
    {
      var up := |log| !in outages;
      log := log + [Patch(Teams, id, b)];
      if !up {
        r := Failure(NetworkError);
      } else if id !in teams {
        r := Failure(HttpError(404));
      } else if !TeamBodyOk(b) {
        r := Failure(HttpError(400));
      } else {
        var t := MergeTeam(teams[id], b);
        teams := teams[id := t];
        r := Success(t);
      }
    }

    method PatchPlayer(id: int, b: Body) returns (r: Result<Player, Failure>)
      modifies this
      ensures (State(), r) == PatchPlayerStep(old(State()), id, b)
    {
      var up := |log| !in outages;
      log := log + [Patch(Players, id, b)];
      if !up {
        r := Failure(NetworkError);
      } else if id !in players {
        r := Failure(HttpError(404));
      } else if !PlayerBodyOk(b, teams.Keys) {
        r := Failure(HttpError(400));
      } else {
        var p := MergePlayer(players[id], b, teams.Keys);
        players := players[id := p];
        r := Success(p);
      }
    }

    method PatchGame(id: int, b: Body) returns (r: Result<MiniGame, Failure>)
      modifies this
      ensures (State(), r) == PatchGameStep(old(State()), id, b)
    {
      var up := |log| !in outages;
      log := log + [Patch(MiniGames, id, b)];
      if !up {
        r := Failure(NetworkError);
      } else if id !in games {
        r := Failure(HttpError(404));
      } else if !GameBodyOk(b) {
        r := Failure(HttpError(400));
      } else {
        var g := MergeGame(games[id], b);
        games := games[id := g];
        r := Success(g);
      }
    }

    method PostTeam(b: Body) returns (r: Result<Team, Failure>)
      modifies this
      ensures (State(), r) == PostTeamStep(old(State()), b)
    {
      var up := |log| !in outages;
      log := log + [Post(Teams, b)];
      if !up {
        r := Failure(NetworkError);
      } else if !(Name in b && TeamBodyOk(b)) {
        r := Failure(HttpError(400));
      } else {
        var t := MergeTeam(DefaultTeam(nextId), b);
        teams := teams[nextId := t];
        nextId := nextId + 1;
        r := Success(t);
      }
    }

    method PostPlayer(b: Body) returns (r: Result<Player, Failure>)
      modifies this
      ensures (State(), r) == PostPlayerStep(old(State()), b)
    {
      var up := |log| !in outages;
      log := log + [Post(Players, b)];
      if !up {
        r := Failure(NetworkError);
      } else if !(Name in b && Number in b && PlayerBodyOk(b, teams.Keys)) {
        r := Failure(HttpError(400));
      } else {
        var p := MergePlayer(DefaultPlayer(nextId), b, teams.Keys);
        players := players[nextId := p];
        nextId := nextId + 1;
        r := Success(p);
      }
    }

    method PostGame(b: Body) returns (r: Result<MiniGame, Failure>)
      modifies this
      ensures (State(), r) == PostGameStep(old(State()), b)
    {
      var up := |log| !in outages;
      log := log + [Post(MiniGames, b)];
      if !up {
        r := Failure(NetworkError);
      } else if !(Category in b && Room in b && Name in b && GameBodyOk(b)) {
        r := Failure(HttpError(400));
      } else {
        var g := MergeGame(DefaultGame(nextId), b);
        games := games[nextId := g];
        nextId := nextId + 1;
        r := Success(g);
      }
    }

    method DeletePlayer(id: int) returns (r: Result<(), Failure>)
      modifies this
      ensures (State(), r) == DeletePlayerStep(old(State()), id)
    {
      var up := |log| !in outages;
      log := log + [Delete(Players, id)];
      if !up {
        r := Failure(NetworkError);
      } else if id !in players {
        r := Failure(HttpError(404));
      } else {
        players := players - {id};
        r := Success(());
      }
    }

    method DeleteGame(id: int) returns (r: Result<(), Failure>)
      modifies this
      ensures (State(), r) == DeleteGameStep(old(State()), id)
    {
      var up := |log| !in outages;
      log := log + [Delete(MiniGames, id)];
      if !up {
        r := Failure(NetworkError);
      } else if id !in games {
        r := Failure(HttpError(404));
      } else {
        games := games - {id};
        r := Success(());
      }
    }
  }
}
