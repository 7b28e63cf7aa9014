/** The array operations the components rely on, as functions on sequences:
    `filter`, `find`, the `map` that replaces an entry by id, the `filter` that
    removes entries by id, `slice(0, n)`, and sums and counts used to state
    what a change does to a whole list. */
module Lists {
  import opened Wrappers

  /** `a` is `b` with some entries left out and the rest in their order. */
  ghost predicate Subsequence<T>(a: seq<T>, b: seq<T>)
    decreases |b|
  {
    a == [] || (b != [] && ((a[0] == b[0] && Subsequence(a[1..], b[1..])) || Subsequence(a, b[1..])))
  }

  /** `xs.filter(p)`. */
  function Filter<T(!new)>(xs: seq<T>, p: T -> bool): (r: seq<T>)
    ensures |r| <= |xs|
    ensures forall x :: x in r <==> x in xs && p(x)
  {
    if xs == [] then []
    else
      var rest := Filter(xs[1..], p);
      assert forall x :: x in xs <==> x == xs[0] || x in xs[1..];
      if p(xs[0]) then [xs[0]] + rest else rest
  }

  /** A filtered list keeps the order of the entries it keeps. */
  lemma {:induction false} FilterIsSubsequence<T(!new)>(xs: seq<T>, p: T -> bool)
    ensures Subsequence(Filter(xs, p), xs)
  {
    if xs != [] {
      FilterIsSubsequence(xs[1..], p);
      var rest := Filter(xs[1..], p);
      if p(xs[0]) {
        assert Filter(xs, p) == [xs[0]] + rest;
        assert ([xs[0]] + rest)[1..] == rest;
      }
    }
  }

  /** Filtering with a predicate every entry satisfies changes nothing. */
  lemma {:induction false} FilterAll<T(!new)>(xs: seq<T>, p: T -> bool)
    requires forall i :: 0 <= i < |xs| ==> p(xs[i])
    ensures Filter(xs, p) == xs
  {
    if xs != [] {
      FilterAll(xs[1..], p);
      assert [xs[0]] + xs[1..] == xs;
    }
  }

  /** The number of entries that satisfy `p`. */
  function Count<T>(xs: seq<T>, p: T -> bool): (n: nat)
    ensures n <= |xs|
  {
    if xs == [] then 0 else (if p(xs[0]) then 1 else 0) + Count(xs[1..], p)
  }

  /** A filter keeps exactly the entries that satisfy its predicate, so it
      drops exactly the ones that do not. */
  lemma {:induction false} FilterLength<T(!new)>(xs: seq<T>, p: T -> bool)
    ensures |Filter(xs, p)| == Count(xs, p)
  {
    if xs != [] { FilterLength(xs[1..], p); }
  }

  /** `xs.findIndex(p)`, with `None` for -1. */
  function FindIndex<T>(xs: seq<T>, p: T -> bool): (r: Option<nat>)
    ensures r.None? <==> forall i :: 0 <= i < |xs| ==> !p(xs[i])
    ensures r.Some? ==> r.value < |xs| && p(xs[r.value]) && forall j :: 0 <= j < r.value ==> !p(xs[j])
  {
    if xs == [] then None
    else if p(xs[0]) then Some(0)
    else match FindIndex(xs[1..], p)
      case None => None
      case Some(i) => Some(i + 1)
  }

  /** `xs.find(p)`: the first entry that satisfies `p`, if there is one. */
  function Find<T>(xs: seq<T>, p: T -> bool): (r: Option<T>)
    ensures r.None? <==> forall i :: 0 <= i < |xs| ==> !p(xs[i])
    ensures r.Some? ==> r.value in xs && p(r.value)
    ensures r.Some? ==> r.value == xs[FindIndex(xs, p).value]
  {
    match FindIndex(xs, p)
    case None => None
    case Some(i) => Some(xs[i])
  }

  /** The predicate "has id `k`" for the records whose id `idOf` reads. */
  function HasId<T>(idOf: T -> int, k: int): T -> bool {
    x => idOf(x) == k
  }

  function LacksId<T>(idOf: T -> int, k: int): T -> bool {
    x => idOf(x) != k
  }

  /** `xs.map(f)` for an integer field `f`: that column of the records, in order. */
  function Column<T>(xs: seq<T>, f: T -> int): (r: seq<int>)
    ensures |r| == |xs|
    ensures forall i :: 0 <= i < |xs| ==> r[i] == f(xs[i])
  {
    if xs == [] then [] else [f(xs[0])] + Column(xs[1..], f)
  }

  /** `xs.map(x => x.id === y.id ? y : x)`: the local copy of a list after the
      server has answered an update of one of its records with `y`. */
  function ReplaceById<T>(xs: seq<T>, idOf: T -> int, y: T): (r: seq<T>)
    ensures |r| == |xs|
    ensures forall i :: 0 <= i < |xs| ==> r[i] == if idOf(xs[i]) == idOf(y) then y else xs[i]
  {
    if xs == [] then [] else [if idOf(xs[0]) == idOf(y) then y else xs[0]] + ReplaceById(xs[1..], idOf, y)
  }

  /** Replacing by id neither adds, drops nor reorders entries: the list of
      ids is the same before and after. */
  lemma ReplaceKeepsIds<T>(xs: seq<T>, idOf: T -> int, y: T)
    ensures Column(ReplaceById(xs, idOf, y), idOf) == Column(xs, idOf)
  {
  }

  /** After a replace, looking the id up finds the server's answer, provided
      the list held that id at all; otherwise the list is unchanged. */
  lemma {:induction false} ReplaceThenFind<T>(xs: seq<T>, idOf: T -> int, y: T)
    ensures (exists i :: 0 <= i < |xs| && idOf(xs[i]) == idOf(y)) ==>
              Find(ReplaceById(xs, idOf, y), HasId(idOf, idOf(y))) == Some(y)
    ensures (forall i :: 0 <= i < |xs| ==> idOf(xs[i]) != idOf(y)) ==> ReplaceById(xs, idOf, y) == xs
  {
    var r := ReplaceById(xs, idOf, y);
    if exists i :: 0 <= i < |xs| && idOf(xs[i]) == idOf(y) {
      var f := Find(r, HasId(idOf, idOf(y)));
      assert HasId(idOf, idOf(y))(y);
      assert f.Some?;
      var i :| 0 <= i < |r| && r[i] == f.value && HasId(idOf, idOf(y))(r[i]);
      assert idOf(r[i]) == idOf(y);
    }
    if forall i :: 0 <= i < |xs| ==> idOf(xs[i]) != idOf(y) {
      assert forall i :: 0 <= i < |xs| ==> r[i] == xs[i];
    }
  }

  /** Applying the same answer twice is applying it once. */
  lemma ReplaceIdempotent<T>(xs: seq<T>, idOf: T -> int, y: T)
    ensures ReplaceById(ReplaceById(xs, idOf, y), idOf, y) == ReplaceById(xs, idOf, y)
  {
  }

  /** `xs.filter(x => x.id !== k)`: the local copy of a list after the server
      has deleted record `k`. */
  function RemoveById<T(!new)>(xs: seq<T>, idOf: T -> int, k: int): (r: seq<T>)
    ensures forall x :: x in r <==> x in xs && idOf(x) != k
  {
    Filter(xs, LacksId(idOf, k))
  }

  /** A remove drops exactly the entries with that id, keeps the others in
      their order, and shortens the list by their number. */
  lemma RemoveByIdSpec<T(!new)>(xs: seq<T>, idOf: T -> int, k: int)
    ensures Subsequence(RemoveById(xs, idOf, k), xs)
    ensures |RemoveById(xs, idOf, k)| == |xs| - Count(xs, HasId(idOf, k))
    ensures forall i :: 0 <= i < |RemoveById(xs, idOf, k)| ==> idOf(RemoveById(xs, idOf, k)[i]) != k
  {
    FilterIsSubsequence(xs, LacksId(idOf, k));
    FilterLength(xs, LacksId(idOf, k));
    CountComplement(xs, HasId(idOf, k), LacksId(idOf, k));
    var r := RemoveById(xs, idOf, k);
    forall i | 0 <= i < |r| ensures idOf(r[i]) != k {
      assert r[i] in r;
    }
  }

  lemma {:induction false} CountComplement<T>(xs: seq<T>, p: T -> bool, q: T -> bool)
    requires forall x :: q(x) == !p(x)
    ensures Count(xs, q) == |xs| - Count(xs, p)
  {
    if xs != [] { CountComplement(xs[1..], p, q); }
  }

  /** Where `xs.slice(0, end)` stops: a negative end counts from the back,
      and `NaN` (here `None`) is 0. */
  function SliceEnd(len: nat, end: Option<int>): (e: nat)
    ensures e <= len
  {
    match end
    case None => 0
    case Some(n) => if n >= 0 then (if n < len then n else len)
                    else if len + n > 0 then len + n else 0
  }

  /** `xs.slice(0, end)`, the top-N cut of a leaderboard. */
  function SliceTo<T>(xs: seq<T>, end: Option<int>): (r: seq<T>)
    ensures |r| <= |xs| && r == xs[..|r|]
    ensures end.Some? && end.value >= 0 ==> |r| == if end.value < |xs| then end.value else |xs|
    ensures end.Some? && end.value < 0 ==> |r| == if |xs| + end.value > 0 then |xs| + end.value else 0
    ensures end.None? ==> r == []
  {
    xs[..SliceEnd(|xs|, end)]
  }

  /** The sum of `f` over the entries. */
  function Sum<T>(xs: seq<T>, f: T -> int): int {
    if xs == [] then 0 else f(xs[0]) + Sum(xs[1..], f)
  }

  /** `Math.max(...xs, floor)`. */
  function MaxWithFloor(xs: seq<int>, floor: int): (m: int)
    ensures m >= floor
    ensures forall i :: 0 <= i < |xs| ==> xs[i] <= m
    ensures m == floor || m in xs
  {
    if xs == [] then floor
    else
      var rest := MaxWithFloor(xs[1..], floor);
      if xs[0] > rest then xs[0] else rest
  }
}
