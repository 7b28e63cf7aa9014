/** The displayed-game catalogue (`fetchGames` of the game service): the
    mini-games the backend lists, restricted to those marked for display. */
module GameService {
  import opened Wrappers
  import opened Lists
  import opened Records
  import opened Server

  /** The filter as written: `is_displayed === true || is_displayed ===
      "true" || !!is_displayed`. */
  predicate Displayed(g: MiniGame) {
    g.is_displayed == VBool(true) || g.is_displayed == VStr("true") || Truthy(g.is_displayed)
  }

  /** The first two tests add nothing to the third: a game is displayed
      exactly when its flag is truthy. */
  lemma DisplayedIsTruthy(g: MiniGame)
    ensures Displayed(g) <==> Truthy(g.is_displayed)
  {
  }

  /** The answer to `GET /api/minigames/` (or why it could not be read),
      filtered; a failure is passed on to the caller. */
  function FetchGames(answer: Result<seq<MiniGame>, Failure>): (r: Result<seq<MiniGame>, Failure>)
    ensures answer.Failure? ==> r == answer
    ensures answer.Success? ==> r.Success?
  {
    match answer
    case Success(games) => Success(Filter(games, Displayed))
    case Failure(e) => Failure(e)
  }

  /** Every game returned is displayed, every displayed game fetched is
      returned, and the result keeps the fetched order. */
  lemma FetchGamesSpec(games: seq<MiniGame>)
    ensures var r := FetchGames(Success(games)).value;
      && (forall i :: 0 <= i < |r| ==> Truthy(r[i].is_displayed))
      && (forall g :: g in games && Truthy(g.is_displayed) ==> g in r)
      && Subsequence(r, games) && |r| <= |games|
  {
    var r := FetchGames(Success(games)).value;
    FilterIsSubsequence(games, Displayed);
    forall i | 0 <= i < |r| ensures Truthy(r[i].is_displayed) {
      assert r[i] in r;
    }
  }

  /** A catalogue in which every game is displayed comes back whole. */
  lemma AllDisplayed(games: seq<MiniGame>)
    requires forall i :: 0 <= i < |games| ==> Truthy(games[i].is_displayed)
    ensures FetchGames(Success(games)) == Success(games)
  {
    FilterAll(games, Displayed);
  }
}
