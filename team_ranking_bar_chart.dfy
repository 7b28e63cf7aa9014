/** The team bar chart (`TeamRankingBarChart`): the teams polled from the
    backend, sorted in place by descending score, each drawn as a bar whose
    length is its score over the largest score (at least 1), with its rank. */
module TeamRankingBarChart {
  import opened Wrappers
  import opened Lists
  import opened Sorting
  import opened Records

  /** `teams.reduce((max, t) => t.score > max ? t.score : max, 0) || 1`. */
  function MaxScore(teams: seq<Team>): int {
    var m := MaxWithFloor(Column(teams, TeamScore), 0);
    if m == 0 then 1 else m
  }

  /** The denominator is at least 1 and at least every score; it is the
      largest score when some score is positive, and 1 otherwise. */
  lemma MaxScoreSpec(teams: seq<Team>)
    ensures MaxScore(teams) >= 1
    ensures forall i :: 0 <= i < |teams| ==> teams[i].score <= MaxScore(teams)
    ensures (exists i :: 0 <= i < |teams| && teams[i].score > 0) ==>
              exists i :: 0 <= i < |teams| && teams[i].score == MaxScore(teams)
    ensures (forall i :: 0 <= i < |teams| ==> teams[i].score <= 0) ==> MaxScore(teams) == 1
  {
    var c := Column(teams, TeamScore);
    if exists i :: 0 <= i < |teams| && teams[i].score > 0 {
      var i :| 0 <= i < |teams| && teams[i].score > 0;
      assert c[i] > 0;
      var j :| 0 <= j < |c| && c[j] == MaxWithFloor(c, 0);
    }
  }

  /** One bar: the rank shown beside it and the team it stands for. */
  datatype Bar = Bar(rank: nat, team: Team)

  /** The bars, one per team in list order (`teams.map((team, index) => …)`). */
  function Bars(teams: seq<Team>): (r: seq<Bar>)
    ensures |r| == |teams|
    ensures forall i :: 0 <= i < |r| ==> r[i].team == teams[i]
  {
    if teams == [] then [] else [Bar(1, teams[0])] + Renumbered(Bars(teams[1..]))
  }

  /** The bars of the rest of the list, each one rank lower. */
  function Renumbered(bars: seq<Bar>): (r: seq<Bar>)
    ensures |r| == |bars|
    ensures forall i :: 0 <= i < |r| ==> r[i] == bars[i].(rank := bars[i].rank + 1)
  {
    if bars == [] then [] else [bars[0].(rank := bars[0].rank + 1)] + Renumbered(bars[1..])
  }

  /** The ranks are 1..n in list order, and in a chart sorted by score a
      better rank never has a lower score. */
  lemma {:induction false} BarsRanked(teams: seq<Team>)
    ensures forall i :: 0 <= i < |Bars(teams)| ==> Bars(teams)[i].rank == i + 1
    ensures SortedDesc(teams, TeamScore) ==>
              forall i, j :: 0 <= i < j < |teams| ==> Bars(teams)[i].team.score >= Bars(teams)[j].team.score
  {
    if teams != [] {
      BarsRanked(teams[1..]);
    }
  }

  class Chart {
    var teams: seq<Team>

    ghost predicate Valid()
      reads this
    {
      SortedDesc(teams, TeamScore)
    }

    constructor ()
      ensures Valid() && teams == []
    {
      teams := [];
    }

    /** One poll (`fetchTeams`): `None` when the request or reading its
        answer failed, which only logs; otherwise the answer sorted in place
        by descending score. */
    method FetchTeams(data: Option<seq<Team>>)
      requires Valid()
      modifies this
      ensures Valid()
      ensures teams == if data.Some? then SortDesc(data.value, TeamScore) else old(teams)
    {
      if data.Some? {
        var a := new Team[|data.value|](i requires 0 <= i < |data.value| => data.value[i]);
        assert a[..] == data.value;
        SortInPlace(a, TeamScore);
        SortDescSorted(data.value, TeamScore);
        teams := a[..];
      }
    }
  }
}
