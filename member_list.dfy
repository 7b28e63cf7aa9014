/** A team's member table (`MemberList`): four switches per member, each
    sending a one-field PATCH of a hide flag and putting the server's answer
    into the list the parent holds. */
module MemberList {
  import opened Wrappers
  import opened Lists
  import opened Records
  import opened Server

  /** The switches of a row: the four privacy flags of a player. */
  datatype HideFlag = HideTeamFlag | HideNameFlag | HidePersonalScoreFlag | HideCompletedMinigameCountFlag

  function FlagField(f: HideFlag): Field {
    match f
    case HideTeamFlag => HideTeam
    case HideNameFlag => HideName
    case HidePersonalScoreFlag => HidePersonalScore
    case HideCompletedMinigameCountFlag => HideCompletedMinigameCount
  }

  /** The flag of a player a switch shows. */
  function FlagOf(p: Player, f: HideFlag): bool {
    match f
    case HideTeamFlag => p.hide_team
    case HideNameFlag => p.hide_name
    case HidePersonalScoreFlag => p.hide_personal_score
    case HideCompletedMinigameCountFlag => p.hide_completed_minigame_count
  }

  /** The PATCH body of a switch: the one field and its new value. */
  function ToggleBody(f: HideFlag, value: bool): (b: Body)
    ensures b.Keys == {FlagField(f)} && b[FlagField(f)] == VBool(value)
  {
    map[FlagField(f) := VBool(value)]
  }

  /** `handleToggle(memberId, field, value)`: the backend after the PATCH and
      the member list after it. Any failure (the transport, or a status the
      service turns into an exception) only logs, leaving the list as it was. */
  function Toggle(s: ServerState, members: seq<Player>, memberId: int, f: HideFlag, value: bool)
    : (r: (ServerState, seq<Player>))
  {
    var (s1, answer) := PatchPlayerStep(s, memberId, ToggleBody(f, value));
    match answer
    case Success(updated) => (s1, ReplaceById(members, PlayerKey, updated))
    case Failure(_) => (s1, members)
  }

  /** A switch merges exactly its own flag into the stored player. */
  lemma MergeToggle(p: Player, f: HideFlag, value: bool, teams: set<int>)
    ensures PlayerBodyOk(ToggleBody(f, value), teams)
    ensures var q := MergePlayer(p, ToggleBody(f, value), teams);
      && FlagOf(q, f) == value
      && (forall g :: g != f ==> FlagOf(q, g) == FlagOf(p, g))
      && q.(hide_team := p.hide_team, hide_name := p.hide_name, hide_personal_score := p.hide_personal_score,
            hide_completed_minigame_count := p.hide_completed_minigame_count) == p
  {
  }

  /** A toggle that reaches an existing player sets that flag on the server
      and in the list and changes no other field; the list keeps its length
      and order, and only the entries with the id of the answer change. */
  lemma ToggleReaches(s: ServerState, members: seq<Player>, memberId: int, f: HideFlag, value: bool)
    requires Reaches(s) && memberId in s.players
    ensures var (s1, ms) := Toggle(s, members, memberId, f, value);
      var q := MergePlayer(s.players[memberId], ToggleBody(f, value), TeamIds(s));
      && s1.players == s.players[memberId := q]
      && FlagOf(q, f) == value
      && (forall g :: g != f ==> FlagOf(q, g) == FlagOf(s.players[memberId], g))
      && |ms| == |members|
      && (forall i :: 0 <= i < |ms| ==> ms[i] == if members[i].id == q.id then q else members[i])
  {
    MergeToggle(s.players[memberId], f, value, TeamIds(s));
    var q := MergePlayer(s.players[memberId], ToggleBody(f, value), TeamIds(s));
    var step := PatchPlayerStep(s, memberId, ToggleBody(f, value));
    assert step.1 == Success(q);
    assert Toggle(s, members, memberId, f, value) == (step.0, ReplaceById(members, PlayerKey, q));
  }

  /** A toggle that fails leaves the list, and the stored players, as they were. */
  lemma ToggleFails(s: ServerState, members: seq<Player>, memberId: int, f: HideFlag, value: bool)
    requires !Reaches(s) || memberId !in s.players
    ensures Toggle(s, members, memberId, f, value).1 == members
    ensures Toggle(s, members, memberId, f, value).0.players == s.players
  {
  }

  /** The list keeps the same ids in the same order whatever the answer. */
  lemma ToggleKeepsIds(s: ServerState, members: seq<Player>, memberId: int, f: HideFlag, value: bool)
    ensures Column(Toggle(s, members, memberId, f, value).1, PlayerKey) == Column(members, PlayerKey)
  {
    var (s1, answer) := PatchPlayerStep(s, memberId, ToggleBody(f, value));
    if answer.Success? {
      ReplaceKeepsIds(members, PlayerKey, answer.value);
    }
  }
}
