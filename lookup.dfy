/** Looking a player's team up in a cached list of teams. */
module Lookup {
  import opened Wrappers
  import opened Lists
  import opened Records

  /** `allTeams.find(t => t.id === player.team)`: a player's team in the
      cached team list. A player without a team, or whose team field holds an
      object, matches no id. */
  function TeamById(p: Player, teams: seq<Team>): (r: Option<Team>)
    ensures r.Some? ==> r.value in teams && p.team == TeamId(r.value.id)
    ensures r.None? ==> !p.team.TeamId? || forall i :: 0 <= i < |teams| ==> teams[i].id != p.team.id
  {
    match p.team
    case TeamId(k) => Find(teams, HasId(TeamKey, k))
    case _ => None
  }

  /** The team name the scoring page reads off a player: the `name` of an
      embedded team object when it has one, otherwise, for a truthy team
      field, the name of the team with that id in the cached list, and ""
      when neither gives a name. An embedded object without a name is looked
      up as an id and matches none. */
  function TeamNameOf(p: Player, teams: seq<Team>): string {
    match p.team
    case Embedded(n) => n
    case TeamId(k) =>
      if k == 0 then ""
      else (match TeamById(p, teams) case Some(t) => t.name case None => "")
    case NoTeam => ""
  }
}
