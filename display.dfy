/** The masking of hidden leaderboard values shared by the admin table and
    the public ranking board (`displayValueByField`): a value whose record
    asks for it to be hidden is shown as "---". */
module Display {
  import opened Records

  const Dash: string := "---"

  /** The hide flags `displayValueByField` reads from an item. A team has no
      personal flags and a player no `hide_ranking`; reading a missing
      property gives `undefined`, which is falsy. */
  datatype Mask = Mask(hide_ranking: bool, hide_personal_score: bool, hide_completed_minigame_count: bool)

  function TeamMask(t: Team): Mask {
    Mask(t.hide_ranking, false, false)
  }

  function PlayerMask(p: Player): Mask {
    Mask(false, p.hide_personal_score, p.hide_completed_minigame_count)
  }

  /** The value shown for `field` of an item with flags `m`. */
  function DisplayValueByField(v: Value, m: Mask, field: Field): (r: Value)
    ensures r == v || r == VStr(Dash)
    ensures field == Score || field == AttackedCount ==> (r == VStr(Dash) <==> m.hide_ranking || v == VStr(Dash))
    ensures field == PersonalScore ==> (r == VStr(Dash) <==> m.hide_personal_score || v == VStr(Dash))
    ensures field == CompletedMinigameCount ==> (r == VStr(Dash) <==> m.hide_completed_minigame_count || v == VStr(Dash))
    ensures field != Score && field != AttackedCount && field != PersonalScore && field != CompletedMinigameCount ==> r == v
  {
    if field == Score || field == AttackedCount then
      (if m.hide_ranking then VStr(Dash) else v)
    else if field == PersonalScore then
      (if m.hide_personal_score then VStr(Dash) else v)
    else if field == CompletedMinigameCount then
      (if m.hide_completed_minigame_count then VStr(Dash) else v)
    else v
  }

  /** A team hides its score and its attack count exactly when its
      `hide_ranking` is set, and the personal fields never mask a team. */
  lemma TeamMasking(t: Team, field: Field)
    ensures DisplayValueByField(VInt(t.score), TeamMask(t), Score) == if t.hide_ranking then VStr(Dash) else VInt(t.score)
    ensures DisplayValueByField(VInt(t.attacked_count), TeamMask(t), AttackedCount)
         == if t.hide_ranking then VStr(Dash) else VInt(t.attacked_count)
    ensures field == PersonalScore || field == CompletedMinigameCount ==>
              forall v :: DisplayValueByField(v, TeamMask(t), field) == v
  {
  }

  /** A player's numbers are masked by the player's own flags, and a player
      never hides a score or attack count, which are team fields. */
  lemma PlayerMasking(p: Player, field: Field)
    ensures DisplayValueByField(VInt(p.personal_score), PlayerMask(p), PersonalScore)
         == if p.hide_personal_score then VStr(Dash) else VInt(p.personal_score)
    ensures DisplayValueByField(VInt(p.completed_minigame_count), PlayerMask(p), CompletedMinigameCount)
         == if p.hide_completed_minigame_count then VStr(Dash) else VInt(p.completed_minigame_count)
    ensures field == Score || field == AttackedCount ==>
              forall v :: DisplayValueByField(v, PlayerMask(p), field) == v
  {
  }

  /** Masking a shown value again changes nothing. */
  lemma MaskIdempotent(v: Value, m: Mask, field: Field)
    ensures DisplayValueByField(DisplayValueByField(v, m, field), m, field) == DisplayValueByField(v, m, field)
  {
  }
}
