/** The player number the creation forms propose: one more than the largest
    existing player number that parses as an integer, counting from 0 (the
    `forEach` that accumulates `maxNumber` in the admin table's effect and in
    the batch-creation form), and the increment after a player is created. */
module PlayerNumbers {
  import opened Wrappers
  import opened Text
  import opened Records

  /** What `parseInt` makes of each player's number, in order. */
  function Parsed(ps: seq<Player>): (r: seq<Option<int>>)
    ensures |r| == |ps|
  {
    if ps == [] then [] else Parsed(ps[..|ps| - 1]) + [ParseInt(ps[|ps| - 1].number)]
  }

  lemma {:induction false} ParsedAt(ps: seq<Player>, i: nat)
    requires i < |ps|
    ensures Parsed(ps)[i] == ParseInt(ps[i].number)
  {
    if i < |ps| - 1 {
      ParsedAt(ps[..|ps| - 1], i);
    }
  }

  /** The accumulator of the loop over parsed numbers: starting from 0, each
      number that is present and larger replaces it. */
  function MaxOf(nums: seq<Option<int>>): (m: int)
    ensures m >= 0
  {
    if nums == [] then 0
    else
      var m := MaxOf(nums[..|nums| - 1]);
      var last := nums[|nums| - 1];
      if last.Some? && last.value > m then last.value else m
  }

  /** No present number exceeds `MaxOf`. */
  lemma {:induction false} MaxOfBound(nums: seq<Option<int>>)
    ensures forall i :: 0 <= i < |nums| && nums[i].Some? ==> nums[i].value <= MaxOf(nums)
  {
    if nums != [] {
      var init := nums[..|nums| - 1];
      MaxOfBound(init);
      assert forall i :: 0 <= i < |nums| - 1 ==> nums[i] == init[i];
    }
  }

  /** `MaxOf` is 0 or one of the present numbers. */
  lemma {:induction false} MaxOfAttained(nums: seq<Option<int>>)
    ensures MaxOf(nums) == 0 || exists i :: 0 <= i < |nums| && nums[i] == Some(MaxOf(nums))
  {
    if nums != [] {
      var init := nums[..|nums| - 1];
      MaxOfAttained(init);
      if MaxOf(nums) != 0 && MaxOf(nums) == MaxOf(init) {
        var i :| 0 <= i < |init| && init[i] == Some(MaxOf(init));
        assert nums[i] == init[i];
      }
    }
  }

  /** `maxNumber` after the loop has seen `ps`. */
  function MaxNumber(ps: seq<Player>): (m: int)
    ensures m >= 0
  {
    MaxOf(Parsed(ps))
  }

  /** No player's number parses to more than `MaxNumber`, and `MaxNumber`
      is 0 or some player's number. */
  lemma MaxNumberIsMax(ps: seq<Player>)
    ensures forall i :: 0 <= i < |ps| && ParseInt(ps[i].number).Some? ==> ParseInt(ps[i].number).value <= MaxNumber(ps)
    ensures MaxNumber(ps) == 0 || exists i :: 0 <= i < |ps| && ParseInt(ps[i].number) == Some(MaxNumber(ps))
  {
    MaxOfBound(Parsed(ps));
    MaxOfAttained(Parsed(ps));
    forall i | 0 <= i < |ps|
      ensures Parsed(ps)[i] == ParseInt(ps[i].number)
    {
      ParsedAt(ps, i);
    }
  }

  /** The proposed number `(maxNumber + 1).toString()`. */
  function NextNumber(ps: seq<Player>): string {
    IntToString(MaxNumber(ps) + 1)
  }

  /** The loop of the effect, over the players as fetched. */
  method ComputeNextNumber(ps: seq<Player>) returns (next: string)
    ensures next == NextNumber(ps)
  {
    var maxNumber := 0;
    var i := 0;
    while i < |ps|
      invariant 0 <= i <= |ps|
      invariant maxNumber == MaxNumber(ps[..i])
    {
      var num := ParseInt(ps[i].number);
      MaxNumberStep(ps, i);
      if num.Some? && num.value > maxNumber {
        maxNumber := num.value;
      }
      i := i + 1;
    }
    assert ps[..|ps|] == ps;
    next := IntToString(maxNumber + 1);
  }

  lemma MaxNumberStep(ps: seq<Player>, i: nat)
    requires i < |ps|
    ensures var num := ParseInt(ps[i].number);
      MaxNumber(ps[..i + 1]) == if num.Some? && num.value > MaxNumber(ps[..i]) then num.value else MaxNumber(ps[..i])
  {
    assert ps[..i + 1][..i] == ps[..i];
    var nums := Parsed(ps[..i + 1]);
    assert nums[..i] == Parsed(ps[..i]);
  }

  /** The proposed number reads back as one more than the largest parseable
      existing number, so (with `MaxNumber`'s bound) above every one of them. */
  lemma NextNumberAbove(ps: seq<Player>)
    ensures ParseInt(NextNumber(ps)) == Some(MaxNumber(ps) + 1)
  {
    ParsesBack(MaxNumber(ps) + 1, NextNumber(ps));
  }

  lemma ParsesBack(n: int, s: string)
    requires s == IntToString(n)
    ensures ParseInt(s) == Some(n)
  {
    ParseIntOfIntToString(n);
  }

  /** So it collides with no existing number, not even as text. */
  lemma NextNumberUnused(ps: seq<Player>)
    ensures forall i :: 0 <= i < |ps| ==> ps[i].number != NextNumber(ps)
  {
    NextNumberAbove(ps);
    MaxNumberIsMax(ps);
    var next := NextNumber(ps);
    forall i | 0 <= i < |ps| ensures ps[i].number != next {
      assert ParseInt(next) == Some(MaxNumber(ps) + 1);
    }
  }

  /** With no parseable number, the proposal is "1". */
  lemma {:induction false} NextNumberWhenNoneParse(ps: seq<Player>)
    requires forall i :: 0 <= i < |ps| ==> ParseInt(ps[i].number).None?
    ensures NextNumber(ps) == "1"
  {
    MaxNumberIsMax(ps);
  }

  /** The number field after a player was created:
      `(parseInt(playerNumber) + 1).toString()`, which is "NaN" when the field
      does not parse. */
  function Incremented(number: string): string {
    match ParseInt(number)
    case Some(n) => IntToString(n + 1)
    case None => "NaN"
  }

  /** Incrementing the proposed number proposes the next one, so a run of
      creations from the proposal numbers players consecutively. */
  lemma IncrementedOfNumber(n: int)
    ensures Incremented(IntToString(n)) == IntToString(n + 1)
  {
    ParseIntOfIntToString(n);
  }

  /** When the players never loaded, the field is empty and the increment
      gives the text "NaN". */
  lemma IncrementedOfEmpty()
    ensures Incremented("") == "NaN"
  {
  }
}
