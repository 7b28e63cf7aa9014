/** The older, local-only team panel (`TeamDashboard`): an attack form that
    updates only the lists held in the page (attacker team +2 score, target
    team +1 attack count, attacker player +1 personal score), a choice of
    ordering for the team cards, and each team's members listed under it.
    Teams and players are matched by the text of their `number` and `team`
    properties. */
module TeamDashboard {
  import opened Wrappers
  import opened Text
  import opened Lists
  import opened Sorting
  import opened Records

  /** A fetched team as this page reads it: the record, and the value of
      its `number` property, which the backend's team records do not carry
      (`None`: the property is missing). */
  datatype NumberedTeam = NumberedTeam(team: Team, number: Option<Value>)

  /** `String(team.number)`. */
  function NumberText(n: Option<Value>): string {
    match n
    case None => "undefined"
    case Some(VNull) => "null"
    case Some(VBool(b)) => if b then "true" else "false"
    case Some(VInt(i)) => IntToString(i)
    case Some(VNaN) => "NaN"
    case Some(VStr(s)) => s
  }

  function TeamNumber(t: NumberedTeam): string {
    NumberText(t.number)
  }

  // ---- The local attack ----

  /** What `handleAttack` ends in: the "fill in" alert, the "same team"
      alert, or the "updated" alert. */
  datatype LocalOutcome = MissingInput | SameTeam | Updated

  /** One team after the attack: the attacker's team first, then the target. */
  function BumpTeam(t: NumberedTeam, attackerTeam: string, targetTeam: string): NumberedTeam {
    if TeamNumber(t) == attackerTeam then t.(team := t.team.(score := t.team.score + 2))
    else if TeamNumber(t) == targetTeam then t.(team := t.team.(attacked_count := t.team.attacked_count + 1))
    else t
  }

  /** `teams.map(...)` of the attack. */
  function AttackTeams(ts: seq<NumberedTeam>, attackerTeam: string, targetTeam: string): (r: seq<NumberedTeam>)
    ensures |r| == |ts|
    ensures forall i :: 0 <= i < |ts| ==> r[i] == BumpTeam(ts[i], attackerTeam, targetTeam)
  {
    if ts == [] then [] else [BumpTeam(ts[0], attackerTeam, targetTeam)] + AttackTeams(ts[1..], attackerTeam, targetTeam)
  }

  /** The player credited: number and team both match as text. */
  predicate IsAttacker(p: Player, attackerNumber: string, attackerTeam: string) {
    p.number == attackerNumber && TeamRefText(p.team) == attackerTeam
  }

  function BumpPlayer(p: Player, attackerNumber: string, attackerTeam: string): Player {
    if IsAttacker(p, attackerNumber, attackerTeam) then p.(personal_score := p.personal_score + 1) else p
  }

  /** `players.map(...)` of the attack. */
  function AttackPlayers(ps: seq<Player>, attackerNumber: string, attackerTeam: string): (r: seq<Player>)
    ensures |r| == |ps|
    ensures forall i :: 0 <= i < |ps| ==> r[i] == BumpPlayer(ps[i], attackerNumber, attackerTeam)
  {
    if ps == [] then [] else [BumpPlayer(ps[0], attackerNumber, attackerTeam)] + AttackPlayers(ps[1..], attackerNumber, attackerTeam)
  }

  function AttackerIs(attackerNumber: string, attackerTeam: string): Player -> bool {
    (p: Player) => IsAttacker(p, attackerNumber, attackerTeam)
  }

  function NumberIs(n: string): NumberedTeam -> bool {
    (t: NumberedTeam) => TeamNumber(t) == n
  }

  function TotalScore(ts: seq<NumberedTeam>): int {
    if ts == [] then 0 else ts[0].team.score + TotalScore(ts[1..])
  }

  function TotalAttacked(ts: seq<NumberedTeam>): int {
    if ts == [] then 0 else ts[0].team.attacked_count + TotalAttacked(ts[1..])
  }

  /** The attack adds 2 to the total score for each team numbered as the
      attacker's team and 1 to the total attack count for each team
      numbered as the target (and not as the attacker), and keeps every
      team in its place; with numbers unique among the teams that is +2 and
      +1 exactly. */
  lemma {:induction false} AttackTeamsTotals(ts: seq<NumberedTeam>, attackerTeam: string, targetTeam: string)
    ensures var r := AttackTeams(ts, attackerTeam, targetTeam);
      && TotalScore(r) == TotalScore(ts) + 2 * Count(ts, NumberIs(attackerTeam))
      && (attackerTeam != targetTeam ==> TotalAttacked(r) == TotalAttacked(ts) + Count(ts, NumberIs(targetTeam)))
      && (forall i :: 0 <= i < |ts| ==> r[i].team.id == ts[i].team.id && r[i].number == ts[i].number)
  {
    if ts != [] {
      AttackTeamsTotals(ts[1..], attackerTeam, targetTeam);
      var r := AttackTeams(ts, attackerTeam, targetTeam);
      assert r[1..] == AttackTeams(ts[1..], attackerTeam, targetTeam);
    }
  }

  /** The attack adds 1 to the total of personal scores for each player
      matching the attacker's number and team; `BumpPlayer` changes no one
      else. */
  lemma {:induction false} AttackPlayersTotal(ps: seq<Player>, attackerNumber: string, attackerTeam: string)
    ensures Sum(AttackPlayers(ps, attackerNumber, attackerTeam), PlayerScore)
         == Sum(ps, PlayerScore) + Count(ps, AttackerIs(attackerNumber, attackerTeam))
  {
    if ps != [] {
      AttackPlayersTotal(ps[1..], attackerNumber, attackerTeam);
      var r := AttackPlayers(ps, attackerNumber, attackerTeam);
      assert r[1..] == AttackPlayers(ps[1..], attackerNumber, attackerTeam);
    }
  }

  /** With team records that carry no `number` (as the backend's do), an
      attack naming teams by any other text than "undefined" changes no team. */
  lemma NoNumberNoTeamChanges(ts: seq<NumberedTeam>, attackerTeam: string, targetTeam: string)
    requires forall i :: 0 <= i < |ts| ==> ts[i].number.None?
    requires attackerTeam != "undefined" && targetTeam != "undefined"
    ensures AttackTeams(ts, attackerTeam, targetTeam) == ts
  {
  }

  // ---- Ordering and members ----

  /** The three orderings: fetch order, by score, by attack count. */
  datatype SortType = NoSort | ByScore | ByAttacked

  function CardScore(t: NumberedTeam): int { t.team.score }
  function CardAttacked(t: NumberedTeam): int { t.team.attacked_count }

  /** `sortedTeams`: a copy, sorted by the chosen field. */
  function SortedTeams(ts: seq<NumberedTeam>, sortType: SortType): seq<NumberedTeam> {
    match sortType
    case NoSort => ts
    case ByScore => SortDesc(ts, CardScore)
    case ByAttacked => SortDesc(ts, CardAttacked)
  }

  /** The cards are the teams, each once, in descending order of the chosen
      field (in fetch order when none is chosen). */
  lemma SortedTeamsSpec(ts: seq<NumberedTeam>, sortType: SortType)
    ensures multiset(SortedTeams(ts, sortType)) == multiset(ts)
    ensures sortType == ByScore ==> SortedDesc(SortedTeams(ts, sortType), CardScore)
    ensures sortType == ByAttacked ==> SortedDesc(SortedTeams(ts, sortType), CardAttacked)
    ensures sortType == NoSort ==> SortedTeams(ts, sortType) == ts
  {
    SortDescSorted(ts, CardScore);
    SortDescSorted(ts, CardAttacked);
    SortDescPermutes(ts, CardScore);
    SortDescPermutes(ts, CardAttacked);
  }

  function MemberOf(t: NumberedTeam): Player -> bool {
    (p: Player) => TeamRefText(p.team) == TeamNumber(t)
  }

  /** The members listed under a team card: the players whose `team`, as
      text, is the team's `number` as text. */
  function Members(ps: seq<Player>, t: NumberedTeam): seq<Player> {
    Filter(ps, MemberOf(t))
  }

  lemma MembersSpec(ps: seq<Player>, t: NumberedTeam)
    ensures forall p :: p in Members(ps, t) <==> p in ps && TeamRefText(p.team) == TeamNumber(t)
    ensures Subsequence(Members(ps, t), ps)
  {
    FilterIsSubsequence(ps, MemberOf(t));
  }

  // ---- The page ----

  class Panel {
    var attackerTeam: string
    var attackerNumber: string
    var targetTeam: string
    var teams: seq<NumberedTeam>
    var players: seq<Player>
    var sortType: SortType

    constructor ()
      ensures attackerTeam == "" && attackerNumber == "" && targetTeam == ""
      ensures teams == [] && players == [] && sortType == NoSort
    {
      attackerTeam, attackerNumber, targetTeam := "", "", "";
      teams, players := [], [];
      sortType := NoSort;
    }

    method FetchTeams(data: Option<seq<NumberedTeam>>)
      modifies this`teams
      ensures teams == if data.Some? then data.value else old(teams)
    {
      if data.Some? {
        teams := data.value;
      }
    }

    method FetchPlayers(data: Option<seq<Player>>)
      modifies this`players
      ensures players == if data.Some? then data.value else old(players)
    {
      if data.Some? {
        players := data.value;
      }
    }

    /** `handleAttack`: refused when a field is empty or both teams are the
        same; otherwise both lists are replaced by their attacked copies. */
    method HandleAttack() returns (outcome: LocalOutcome)
      modifies this`teams, this`players
      ensures outcome == MissingInput <==> attackerTeam == [] || attackerNumber == [] || targetTeam == []
      ensures outcome == SameTeam <==> outcome != MissingInput && attackerTeam == targetTeam
      ensures outcome == Updated ==>
                teams == AttackTeams(old(teams), attackerTeam, targetTeam)
                && players == AttackPlayers(old(players), attackerNumber, attackerTeam)
      ensures outcome != Updated ==> teams == old(teams) && players == old(players)
    {
      if attackerTeam == [] || attackerNumber == [] || targetTeam == [] {
        return MissingInput;
      }
      if attackerTeam == targetTeam {
        return SameTeam;
      }
      teams := AttackTeams(teams, attackerTeam, targetTeam);
      players := AttackPlayers(players, attackerNumber, attackerTeam);
      outcome := Updated;
    }

    /** The cards as rendered: a copy of the team list sorted in place; the
        list held is not reordered. */
    method SortedCards() returns (cards: seq<NumberedTeam>)
      ensures cards == SortedTeams(teams, sortType)
    {
      if sortType == NoSort {
        return teams;
      }
      var a := new NumberedTeam[|teams|](i requires 0 <= i < |teams| reads this => teams[i]);
      assert a[..] == teams;
      if sortType == ByScore {
        SortInPlace(a, CardScore);
      } else {
        SortInPlace(a, CardAttacked);
      }
      cards := a[..];
    }
  }

  /** The local attack in full: on valid input, the attacker's team gains 2,
      the target gains one attack, and the attacking player gains 1, when
      each is found once in the lists. */
  lemma LocalAttackScenario(n1: NumberedTeam, n2: NumberedTeam, p: Player, attackerNumber: string)
    requires TeamNumber(n1) != TeamNumber(n2)
    requires IsAttacker(p, attackerNumber, TeamNumber(n1))
    ensures AttackTeams([n1, n2], TeamNumber(n1), TeamNumber(n2))
         == [n1.(team := n1.team.(score := n1.team.score + 2)), n2.(team := n2.team.(attacked_count := n2.team.attacked_count + 1))]
    ensures AttackPlayers([p], attackerNumber, TeamNumber(n1)) == [p.(personal_score := p.personal_score + 1)]
  {
  }
}
