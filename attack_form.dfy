/** The attack form of a team panel. The user picks an attacking team and one
    of its players' numbers and an attack count; submitting checks the
    selection and then issues three dependent PATCH requests in order: the
    target team's `attacked_count`, the attacking player's `personal_score`,
    the attacking team's `score`, each grown by the count times a multiplier
    from the common settings. The steps are awaited one after the other and
    nothing undoes an earlier step when a later one fails. */
module AttackForm {
  import opened Wrappers
  import opened Text
  import opened Lists
  import opened Records
  import opened Server
  import opened Lookup

  /** The player's team, looked up by id, carries `name` up to surrounding
      white space and ASCII case. */
  predicate OnTeamNamed(p: Player, teams: seq<Team>, name: string) {
    var t := TeamById(p, teams);
    t.Some? && Fold(t.value.name) == Fold(name)
  }

  /** The players offered as attackers for the selected team (the effect). */
  function Roster(allPlayers: seq<Player>, allTeams: seq<Team>, attackerTeam: string): (r: seq<Player>)
    ensures attackerTeam == [] ==> r == []
    ensures forall p :: p in r <==> attackerTeam != [] && p in allPlayers && OnTeamNamed(p, allTeams, attackerTeam)
  {
    if attackerTeam == [] then [] else Filter(allPlayers, p => OnTeamNamed(p, allTeams, attackerTeam))
  }

  /** The roster lists the chosen players in the order of the player list. */
  lemma RosterKeepsOrder(allPlayers: seq<Player>, allTeams: seq<Team>, attackerTeam: string)
    ensures Subsequence(Roster(allPlayers, allTeams, attackerTeam), allPlayers)
  {
    if attackerTeam != [] {
      FilterIsSubsequence(allPlayers, p => OnTeamNamed(p, allTeams, attackerTeam));
    }
  }

  /** The teams offered as attackers: every team except the target, by name. */
  function AttackerChoices(allTeams: seq<Team>, target: Team): (r: seq<Team>)
    ensures forall t :: t in r <==> t in allTeams && t.name != target.name
  {
    Filter(allTeams, (t: Team) => t.name != target.name)
  }

  datatype Rejection = MissingField | SameTeam | InvalidCount

  /** What the user is told. `Failed(applied)` is the error alert, raised
      after `applied` of the updates had been committed. */
  datatype Outcome = Rejected(why: Rejection) | Failed(applied: nat) | Submitted

  /** Everything the submit handler reads: the panel's target team, the
      cached lists, the form state and the settings (`None` while loading). */
  datatype AttackInput = AttackInput(
    target: Team,
    allTeams: seq<Team>,
    roster: seq<Player>,
    attackerTeam: string,
    attackerNumber: string,
    attackCount: Value,
    settings: Option<Settings>)

  /** All four inputs are present (truthy). */
  predicate Complete(a: AttackInput) {
    a.attackerTeam != [] && a.attackerNumber != [] && Truthy(a.attackCount) && a.settings.Some?
  }

  /** `Number(attackCount)` when it is a positive number. */
  function PositiveCount(v: Value): (r: Option<int>)
    ensures r.Some? ==> r.value > 0
    ensures r.Some? <==> ToNum(v).VInt? && ToNum(v).i > 0
  {
    match ToNum(v)
    case VInt(c) => if c > 0 then Some(c) else None
    case _ => None
  }

  /** `roster.find(p => p.number.trim() === attackerNumber.trim())`. */
  function PlayerWithNumber(roster: seq<Player>, attackerNumber: string): Option<Player> {
    if roster == [] then None
    else if Trim(roster[0].number) == Trim(attackerNumber) then Some(roster[0])
    else PlayerWithNumber(roster[1..], attackerNumber)
  }

  /** The search returns the first player whose trimmed number matches, and
      none exactly when no player matches. */
  lemma {:induction false} PlayerWithNumberSpec(roster: seq<Player>, attackerNumber: string)
    ensures var r := PlayerWithNumber(roster, attackerNumber);
      && (r.None? <==> forall i :: 0 <= i < |roster| ==> Trim(roster[i].number) != Trim(attackerNumber))
      && (r.Some? ==>
            exists i :: 0 <= i < |roster| && roster[i] == r.value && Trim(r.value.number) == Trim(attackerNumber)
              && forall j :: 0 <= j < i ==> Trim(roster[j].number) != Trim(attackerNumber))
  {
    if roster != [] && Trim(roster[0].number) != Trim(attackerNumber) {
      PlayerWithNumberSpec(roster[1..], attackerNumber);
      var r := PlayerWithNumber(roster, attackerNumber);
      if r.Some? {
        var i :| 0 <= i < |roster[1..]| && roster[1..][i] == r.value
          && Trim(r.value.number) == Trim(attackerNumber)
          && forall j :: 0 <= j < i ==> Trim(roster[1..][j].number) != Trim(attackerNumber);
        assert roster[i + 1] == r.value;
        forall j | 0 <= j < i + 1 ensures Trim(roster[j].number) != Trim(attackerNumber) {
          if j > 0 { assert roster[j] == roster[1..][j - 1]; }
        }
      } else {
        forall i | 0 <= i < |roster| ensures Trim(roster[i].number) != Trim(attackerNumber) {
          if i > 0 { assert roster[i] == roster[1..][i - 1]; }
        }
      }
    }
  }

  /** `allTeams.find(t => t.name === attackerTeam)`, an exact comparison. */
  function TeamNamed(teams: seq<Team>, name: string): Option<Team> {
    if teams == [] then None
    else if teams[0].name == name then Some(teams[0])
    else TeamNamed(teams[1..], name)
  }

  /** The search returns the first team with exactly that name, and none
      exactly when no team has it. */
  lemma {:induction false} TeamNamedSpec(teams: seq<Team>, name: string)
    ensures var r := TeamNamed(teams, name);
      && (r.None? <==> forall i :: 0 <= i < |teams| ==> teams[i].name != name)
      && (r.Some? ==>
            exists i :: 0 <= i < |teams| && teams[i] == r.value && r.value.name == name
              && forall j :: 0 <= j < i ==> teams[j].name != name)
  {
    if teams != [] && teams[0].name != name {
      TeamNamedSpec(teams[1..], name);
      var r := TeamNamed(teams, name);
      if r.Some? {
        var i :| 0 <= i < |teams[1..]| && teams[1..][i] == r.value && r.value.name == name
          && forall j :: 0 <= j < i ==> teams[1..][j].name != name;
        assert teams[i + 1] == r.value;
        forall j | 0 <= j < i + 1 ensures teams[j].name != name {
          if j > 0 { assert teams[j] == teams[1..][j - 1]; }
        }
      } else {
        forall i | 0 <= i < |teams| ensures teams[i].name != name {
          if i > 0 { assert teams[i] == teams[1..][i - 1]; }
        }
      }
    }
  }

  /** The target's new `attacked_count`, from the cached target. */
  function NewAttacked(target: Team, count: int, cs: Settings): int {
    target.attacked_count + count * cs.attacked_increment
  }

  /** The attacking player's new `personal_score`, from the roster's copy. */
  function NewPersonal(p: Player, count: int, cs: Settings): int {
    p.personal_score + count * cs.attacker_player_bonus
  }

  /** The attacking team's new `score`, from the cached team. */
  function NewScore(t: Team, count: int, cs: Settings): int {
    t.score + count * cs.attacker_team_bonus
  }

  /** The checks of the submit handler, in order: the first that fails
      names the alert, and `None` lets the attack go ahead. */
  function Check(a: AttackInput): Option<Rejection> {
    if !Complete(a) then Some(MissingField)
    else if a.attackerTeam == a.target.name then Some(SameTeam)
    else if PositiveCount(a.attackCount).None? then Some(InvalidCount)
    else None
  }

  /** The submit handler on the backend state `s`. */
  function AttackSpec(s: ServerState, a: AttackInput): (ServerState, Outcome) {
    match Check(a)
    case Some(why) => (s, Rejected(why))
    case None => Strike(s, a, PositiveCount(a.attackCount).value, a.settings.value)
  }

  /** The three awaited updates; the first failure ends the handler. */
  function Strike(s: ServerState, a: AttackInput, count: int, cs: Settings): (ServerState, Outcome) {
    var step := PatchTeamStep(s, a.target.id, map[AttackedCount := VInt(NewAttacked(a.target, count, cs))]);
    if step.1.Failure? then (step.0, Failed(0)) else StrikePlayer(step.0, a, count, cs)
  }

  /** After the target was updated: the attacking player, found by number in
      the roster; a missing player is an error like a failed request. */
  function StrikePlayer(s1: ServerState, a: AttackInput, count: int, cs: Settings): (ServerState, Outcome) {
    match PlayerWithNumber(a.roster, a.attackerNumber)
    case None => (s1, Failed(1))
    case Some(p) =>
      var step := PatchPlayerStep(s1, p.id, map[PersonalScore := VInt(NewPersonal(p, count, cs))]);
      if step.1.Failure? then (step.0, Failed(1)) else StrikeTeam(step.0, a, count, cs)
  }

  /** After the player was updated: the attacking team, found by exact name in
      the cached list; when there is none the attack still counts as done. */
  function StrikeTeam(s2: ServerState, a: AttackInput, count: int, cs: Settings): (ServerState, Outcome) {
    match TeamNamed(a.allTeams, a.attackerTeam)
    case None => (s2, Submitted)
    case Some(t) =>
      var step := PatchTeamStep(s2, t.id, map[Score := VInt(NewScore(t, count, cs))]);
      if step.1.Failure? then (step.0, Failed(2)) else (step.0, Submitted)
  }

  /** The checks before any request: each rejection names the first check
      that failed, and a rejected attack sends nothing. */
  lemma {:induction false} AttackValidation(s: ServerState, a: AttackInput)
    ensures AttackSpec(s, a).1 == Rejected(MissingField) <==> !Complete(a)
    ensures AttackSpec(s, a).1 == Rejected(SameTeam) <==> Complete(a) && a.attackerTeam == a.target.name
    ensures AttackSpec(s, a).1 == Rejected(InvalidCount)
        <==> Complete(a) && a.attackerTeam != a.target.name && PositiveCount(a.attackCount).None?
    ensures AttackSpec(s, a).1.Rejected? ==> AttackSpec(s, a).0 == s
  {
    if Complete(a) && a.attackerTeam != a.target.name && PositiveCount(a.attackCount).Some? {
      StrikeNeverRejects(s, a, PositiveCount(a.attackCount).value, a.settings.value);
    }
  }

  /** Once the checks passed, the outcome is never a rejection, and the
      requests sent extend the log, starting with the target's update. */
  lemma StrikeNeverRejects(s: ServerState, a: AttackInput, count: int, cs: Settings)
    ensures !Strike(s, a, count, cs).1.Rejected?
    ensures var r := Strike(s, a, count, cs).0;
      |r.log| > |s.log| && r.log[..|s.log|] == s.log
      && r.log[|s.log|] == Patch(Teams, a.target.id, map[AttackedCount := VInt(NewAttacked(a.target, count, cs))])
  {
    var s1 := PatchTeamStep(s, a.target.id, map[AttackedCount := VInt(NewAttacked(a.target, count, cs))]).0;
    StrikePlayerExtends(s1, a, count, cs);
    var r := Strike(s, a, count, cs).0;
    assert r.log[..|s.log|] == r.log[..|s1.log|][..|s.log|];
  }

  lemma StrikePlayerExtends(s1: ServerState, a: AttackInput, count: int, cs: Settings)
    ensures !StrikePlayer(s1, a, count, cs).1.Rejected?
    ensures var r := StrikePlayer(s1, a, count, cs).0; |r.log| >= |s1.log| && r.log[..|s1.log|] == s1.log
  {
    match PlayerWithNumber(a.roster, a.attackerNumber)
    case None =>
    case Some(p) =>
      var s2 := PatchPlayerStep(s1, p.id, map[PersonalScore := VInt(NewPersonal(p, count, cs))]).0;
      StrikeTeamExtends(s2, a, count, cs);
      var r := StrikePlayer(s1, a, count, cs).0;
      assert r.log[..|s1.log|] == r.log[..|s2.log|][..|s1.log|];
  }

  lemma StrikeTeamExtends(s2: ServerState, a: AttackInput, count: int, cs: Settings)
    ensures !StrikeTeam(s2, a, count, cs).1.Rejected?
    ensures var r := StrikeTeam(s2, a, count, cs).0; |r.log| >= |s2.log| && r.log[..|s2.log|] == s2.log
  {
  }

  /** An attack that passes the checks first sends the target's new attack
      count, as a body with that one field, computed from the cached target. */
  lemma {:induction false} AttackFirstRequest(s: ServerState, a: AttackInput)
    requires !AttackSpec(s, a).1.Rejected?
    ensures |AttackSpec(s, a).0.log| > |s.log|
    ensures AttackSpec(s, a).0.log[..|s.log|] == s.log
    ensures AttackSpec(s, a).0.log[|s.log|]
         == Patch(Teams, a.target.id,
                  map[AttackedCount := VInt(a.target.attacked_count
                         + PositiveCount(a.attackCount).value * a.settings.value.attacked_increment)])
  {
    AttackValidation(s, a);
    StrikeNeverRejects(s, a, PositiveCount(a.attackCount).value, a.settings.value);
  }

  /** No matching attacker player: the error is raised after the target's
      attack count was already raised on the server, and that update stays. */
  lemma {:induction false} AttackPartialCommit(s: ServerState, a: AttackInput)
    requires Complete(a) && a.attackerTeam != a.target.name && PositiveCount(a.attackCount).Some?
    requires Reaches(s) && a.target.id in s.teams
    requires forall i :: 0 <= i < |a.roster| ==> Trim(a.roster[i].number) != Trim(a.attackerNumber)
    ensures AttackSpec(s, a).1 == Failed(1)
    ensures AttackSpec(s, a).0.teams
         == s.teams[a.target.id := s.teams[a.target.id].(attacked_count := a.target.attacked_count
              + PositiveCount(a.attackCount).value * a.settings.value.attacked_increment)]
    ensures AttackSpec(s, a).0.players == s.players
  {
    var count := PositiveCount(a.attackCount).value;
    PatchTeamAttackedOk(s, a.target.id, NewAttacked(a.target, count, a.settings.value));
    PlayerWithNumberSpec(a.roster, a.attackerNumber);
  }

  /** The last step succeeds when the team exists and the request gets through. */
  lemma StrikeTeamSubmits(s2: ServerState, a: AttackInput, count: int, cs: Settings, t: Team)
    requires TeamNamed(a.allTeams, a.attackerTeam) == Some(t)
    requires Reaches(s2) && t.id in s2.teams
    ensures StrikeTeam(s2, a, count, cs)
         == (s2.(log := s2.log + [Patch(Teams, t.id, map[Score := VInt(NewScore(t, count, cs))])],
                 teams := s2.teams[t.id := s2.teams[t.id].(score := NewScore(t, count, cs))]),
             Submitted)
  {
    PatchTeamScoreOk(s2, t.id, NewScore(t, count, cs));
  }

  /** The player step and the team step succeed. */
  lemma StrikePlayerSubmits(s1: ServerState, a: AttackInput, count: int, cs: Settings, p: Player, t: Team)
    requires PlayerWithNumber(a.roster, a.attackerNumber) == Some(p)
    requires TeamNamed(a.allTeams, a.attackerTeam) == Some(t)
    requires Reaches(s1) && (|s1.log| + 1) !in s1.outages && p.id in s1.players && t.id in s1.teams
    ensures StrikePlayer(s1, a, count, cs)
         == (s1.(log := s1.log + [Patch(Players, p.id, map[PersonalScore := VInt(NewPersonal(p, count, cs))]),
                                  Patch(Teams, t.id, map[Score := VInt(NewScore(t, count, cs))])],
                 players := s1.players[p.id := s1.players[p.id].(personal_score := NewPersonal(p, count, cs))],
                 teams := s1.teams[t.id := s1.teams[t.id].(score := NewScore(t, count, cs))]),
             Submitted)
  {
    PatchPlayerScoreOk(s1, p.id, NewPersonal(p, count, cs));
    var s2 := PatchPlayerStep(s1, p.id, map[PersonalScore := VInt(NewPersonal(p, count, cs))]).0;
    StrikeTeamSubmits(s2, a, count, cs, t);
    assert s2.log + [Patch(Teams, t.id, map[Score := VInt(NewScore(t, count, cs))])]
        == s1.log + [Patch(Players, p.id, map[PersonalScore := VInt(NewPersonal(p, count, cs))]),
                     Patch(Teams, t.id, map[Score := VInt(NewScore(t, count, cs))])];
  }

  /** When every request of the attack reaches the server and the records
      exist there, the attack completes: the target, the player and the team
      hold the cached values plus count times their multipliers, and exactly
      the three one-field bodies are sent, in order. The values are computed
      from the cached copies, so a concurrent change of the same field on the
      server is overwritten. */
  lemma {:induction false} AttackSuccess(s: ServerState, a: AttackInput, p: Player, t: Team)
    requires Complete(a) && a.attackerTeam != a.target.name && PositiveCount(a.attackCount).Some?
    requires Reaches(s) && (|s.log| + 1) !in s.outages && (|s.log| + 2) !in s.outages
    requires PlayerWithNumber(a.roster, a.attackerNumber) == Some(p)
    requires TeamNamed(a.allTeams, a.attackerTeam) == Some(t)
    requires a.target.id in s.teams && p.id in s.players && t.id in s.teams
    ensures var count := PositiveCount(a.attackCount).value; var cs := a.settings.value;
      var afterTarget := s.teams[a.target.id := s.teams[a.target.id].(attacked_count := NewAttacked(a.target, count, cs))];
      AttackSpec(s, a)
      == (s.(log := s.log + [Patch(Teams, a.target.id, map[AttackedCount := VInt(NewAttacked(a.target, count, cs))]),
                             Patch(Players, p.id, map[PersonalScore := VInt(NewPersonal(p, count, cs))]),
                             Patch(Teams, t.id, map[Score := VInt(NewScore(t, count, cs))])],
             teams := afterTarget[t.id := afterTarget[t.id].(score := NewScore(t, count, cs))],
             players := s.players[p.id := s.players[p.id].(personal_score := NewPersonal(p, count, cs))]),
          Submitted)
  {
    var count := PositiveCount(a.attackCount).value;
    var cs := a.settings.value;
    PatchTeamAttackedOk(s, a.target.id, NewAttacked(a.target, count, cs));
    var s1 := PatchTeamStep(s, a.target.id, map[AttackedCount := VInt(NewAttacked(a.target, count, cs))]).0;
    assert AttackSpec(s, a) == Strike(s, a, count, cs);
    assert Strike(s, a, count, cs) == StrikePlayer(s1, a, count, cs);
    StrikePlayerSubmits(s1, a, count, cs, p, t);
    assert s1.log + [Patch(Players, p.id, map[PersonalScore := VInt(NewPersonal(p, count, cs))]),
                     Patch(Teams, t.id, map[Score := VInt(NewScore(t, count, cs))])]
        == s.log + [Patch(Teams, a.target.id, map[AttackedCount := VInt(NewAttacked(a.target, count, cs))]),
                    Patch(Players, p.id, map[PersonalScore := VInt(NewPersonal(p, count, cs))]),
                    Patch(Teams, t.id, map[Score := VInt(NewScore(t, count, cs))])];
  }

  /** A worked attack: target T (score 10, attacked 2), attacking team A
      (score 5), attacking player P (score 1), multipliers 2/1/1 and count 3
      give T attacked 5, P 4 and A 11, sent in that order, each as a
      one-field body. */
  lemma AttackScenario()
    ensures
      var T := Team(1, "T", 10, 2, false, false);
      var A := Team(2, "A", 5, 0, false, false);
      var P := Player(10, "P", "7", 1, 0, 0, TeamId(2), false, false, false, false);
      var s := ServerState(map[1 := T, 2 := A], map[10 := P], map[], 11, [], {});
      var a := AttackInput(T, [T, A], [P], "A", "7", VInt(3), Some(Settings(1, 2, 1, 1, Some(""))));
      var r := AttackSpec(s, a);
      && r.1 == Submitted
      && r.0.teams[1].attacked_count == 5 && r.0.players[10].personal_score == 4 && r.0.teams[2].score == 11
      && r.0.log == [Patch(Teams, 1, map[AttackedCount := VInt(5)]),
                     Patch(Players, 10, map[PersonalScore := VInt(4)]),
                     Patch(Teams, 2, map[Score := VInt(11)])]
  {
    var T := Team(1, "T", 10, 2, false, false);
    var A := Team(2, "A", 5, 0, false, false);
    var P := Player(10, "P", "7", 1, 0, 0, TeamId(2), false, false, false, false);
    var s := ServerState(map[1 := T, 2 := A], map[10 := P], map[], 11, [], {});
    var cs := Settings(1, 2, 1, 1, Some(""));
    var a := AttackInput(T, [T, A], [P], "A", "7", VInt(3), Some(cs));
    assert "A" != "T";
    assert PositiveCount(VInt(3)) == Some(3);
    assert PlayerWithNumber([P], "7") == Some(P);
    assert TeamNamed([T, A], "A") == Some(A) by {
      assert [T, A][1..] == [A];
    }
    AttackSuccess(s, a, P, A);
  }

  /** The attack form as the component holds it. */
  class Form {
    // props
    var team: Team
    var allTeams: seq<Team>
    var allPlayers: seq<Player>
    var commonSettings: Option<Settings>
    // state
    var attackerTeam: string
    var attackerNumber: string
    var attackCount: Value
    var attackerPlayers: seq<Player>

    function Input(): AttackInput
      reads this
    {
      AttackInput(team, allTeams, attackerPlayers, attackerTeam, attackerNumber, attackCount, commonSettings)
    }

    /** The initial state, after the effect's first run. */
    constructor (target: Team, teams: seq<Team>, players: seq<Player>, settings: Option<Settings>)
      ensures team == target && allTeams == teams && allPlayers == players && commonSettings == settings
      ensures attackerTeam == "" && attackerNumber == "" && attackCount == VInt(1) && attackerPlayers == []
    {
      team, allTeams, allPlayers, commonSettings := target, teams, players, settings;
      attackerTeam, attackerNumber, attackCount := "", "", VInt(1);
      attackerPlayers := Roster(players, teams, "");
    }

    /** The effect on `[attackerTeam, allPlayers, allTeams]`: the roster is
        recomputed and the chosen number is cleared. */
    method RefreshRoster()
      modifies this`attackerPlayers, this`attackerNumber
      ensures attackerPlayers == Roster(allPlayers, allTeams, attackerTeam)
      ensures attackerNumber == ""
    {
      attackerPlayers := Roster(allPlayers, allTeams, attackerTeam);
      attackerNumber := "";
    }

    /** Choosing an attacking team. */
    method SelectAttackerTeam(name: string)
      modifies this`attackerTeam, this`attackerPlayers, this`attackerNumber
      ensures attackerTeam == name
      ensures attackerPlayers == Roster(allPlayers, allTeams, name) && attackerNumber == ""
    {
      attackerTeam := name;
      RefreshRoster();
    }

    /** New lists from the panel's refresh. */
    method ReceiveLists(teams: seq<Team>, players: seq<Player>)
      modifies this`allTeams, this`allPlayers, this`attackerPlayers, this`attackerNumber
      ensures allTeams == teams && allPlayers == players
      ensures attackerPlayers == Roster(players, teams, attackerTeam) && attackerNumber == ""
    {
      allTeams, allPlayers := teams, players;
      RefreshRoster();
    }

    method SelectAttackerNumber(number: string)
      modifies this`attackerNumber
      ensures attackerNumber == number
    {
      attackerNumber := number;
    }

    /** The count input stores `Number(e.target.value)`. */
    method EnterAttackCount(text: string)
      modifies this`attackCount
      ensures attackCount == ToNum(VStr(text))
    {
      attackCount := ToNum(VStr(text));
    }

    /** `handleAttack`. On success the form is reset (and the effect clears
        the roster); otherwise the form keeps what the user entered. */
    method HandleAttack(server: Backend) returns (outcome: Outcome)
      modifies this`attackerTeam, this`attackerNumber, this`attackCount, this`attackerPlayers, server
      ensures (server.State(), outcome) == AttackSpec(old(server.State()), old(Input()))
      ensures team == old(team) && allTeams == old(allTeams) && allPlayers == old(allPlayers)
      ensures commonSettings == old(commonSettings)
      ensures outcome.Submitted? ==>
                attackerTeam == "" && attackerNumber == "" && attackCount == VInt(1) && attackerPlayers == []
      ensures !outcome.Submitted? ==>
                attackerTeam == old(attackerTeam) && attackerNumber == old(attackerNumber)
                && attackCount == old(attackCount) && attackerPlayers == old(attackerPlayers)
    {
      var why := Check(Input());
      if why.Some? {
        return Rejected(why.value);
      }
      outcome := SendAttack(server, PositiveCount(attackCount).value, commonSettings.value);
      if !outcome.Submitted? {
        return;
      }
      attackerTeam, attackerNumber, attackCount := "", "", VInt(1);
      RefreshRoster();
    }

    /** The three awaited updates, up to the first failure. */
    method SendAttack(server: Backend, count: int, cs: Settings) returns (outcome: Outcome)
      modifies server
      ensures (server.State(), outcome) == Strike(old(server.State()), Input(), count, cs)
    {
      var r1 := server.PatchTeam(team.id, map[AttackedCount := VInt(NewAttacked(team, count, cs))]);
      if r1.Failure? {
        return Failed(0);
      }
      outcome := SendPlayerBonus(server, count, cs);
    }

    method SendPlayerBonus(server: Backend, count: int, cs: Settings) returns (outcome: Outcome)
      modifies server
      ensures (server.State(), outcome) == StrikePlayer(old(server.State()), Input(), count, cs)
    {
      var attacker := PlayerWithNumber(attackerPlayers, attackerNumber);
      if attacker.None? {
        return Failed(1);
      }
      var p := attacker.value;
      var r2 := server.PatchPlayer(p.id, map[PersonalScore := VInt(NewPersonal(p, count, cs))]);
      if r2.Failure? {
        return Failed(1);
      }
      outcome := SendTeamBonus(server, count, cs);
    }

    method SendTeamBonus(server: Backend, count: int, cs: Settings) returns (outcome: Outcome)
      modifies server
      ensures (server.State(), outcome) == StrikeTeam(old(server.State()), Input(), count, cs)
    {
      var teamObj := TeamNamed(allTeams, attackerTeam);
      if teamObj.Some? {
        var r3 := server.PatchTeam(teamObj.value.id, map[Score := VInt(NewScore(teamObj.value, count, cs))]);
        if r3.Failure? {
          return Failed(2);
        }
      }
      outcome := Submitted;
    }
  }
}
