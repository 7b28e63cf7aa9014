/** The descending sorts the leaderboards and tables apply, such as
    `data.sort((a, b) => b.score - a.score)`. ECMAScript's `Array.prototype.sort` is
    stable, so the model is a stable insertion sort: as a function, and as the
    in-place method that the fetch handlers run on the array they received. */
module Sorting {
  import Lists

  /** Every entry's key is at least the key of every later entry. */
  ghost predicate SortedDesc<T>(xs: seq<T>, key: T -> int) {
    forall i, j :: 0 <= i < j < |xs| ==> key(xs[i]) >= key(xs[j])
  }

  /** `s` with `x` placed after every leading entry whose key is at least `x`'s. */
  function InsertDesc<T>(s: seq<T>, x: T, key: T -> int): (r: seq<T>)
    ensures |r| == |s| + 1
  {
    if s == [] then [x]
    else if key(s[0]) < key(x) then [x] + s
    else
      assert s == [s[0]] + s[1..];
      [s[0]] + InsertDesc(s[1..], x, key)
  }

  /** Inserting into a sorted list keeps it sorted. */
  lemma {:induction false} InsertDescSorted<T>(s: seq<T>, x: T, key: T -> int)
    requires SortedDesc(s, key)
    ensures SortedDesc(InsertDesc(s, x, key), key)
  {
    if s != [] && key(s[0]) >= key(x) {
      InsertDescSorted(s[1..], x, key);
      InsertDescBounded(s[1..], x, key, key(s[0]));
    }
  }

  /** A bound on every key of the list and on `x` bounds the keys after insertion. */
  lemma {:induction false} InsertDescBounded<T>(s: seq<T>, x: T, key: T -> int, b: int)
    requires forall k :: 0 <= k < |s| ==> key(s[k]) <= b
    requires key(x) <= b
    ensures forall k :: 0 <= k < |s| + 1 ==> key(InsertDesc(s, x, key)[k]) <= b
  {
    if s != [] && key(s[0]) >= key(x) {
      InsertDescBounded(s[1..], x, key, b);
      var r := InsertDesc(s, x, key);
      forall k | 0 <= k < |r| ensures key(r[k]) <= b {
        if k > 0 {
          assert r[k] == InsertDesc(s[1..], x, key)[k - 1];
        }
      }
    }
  }

  /** Where the insertion lands: after the first `j` entries when these are the
      ones with a key of at least `x`'s. */
  lemma {:induction false} InsertDescAt<T>(s: seq<T>, x: T, key: T -> int, j: nat)
    requires j <= |s|
    requires forall k :: 0 <= k < j ==> key(s[k]) >= key(x)
    requires j == |s| || key(s[j]) < key(x)
    ensures InsertDesc(s, x, key) == s[..j] + [x] + s[j..]
  {
    if j == 0 {
      assert s[..0] + [x] + s[0..] == [x] + s;
    } else {
      var t := s[1..];
      TailKeys(s, x, key, j);
      InsertDescAt(t, x, key, j - 1);
      ConsSplit(s, x, j);
    }
  }

  lemma TailKeys<T>(s: seq<T>, x: T, key: T -> int, j: nat)
    requires 0 < j <= |s|
    requires forall k :: 0 <= k < j ==> key(s[k]) >= key(x)
    requires j == |s| || key(s[j]) < key(x)
    ensures forall k :: 0 <= k < j - 1 ==> key(s[1..][k]) >= key(x)
    ensures j - 1 == |s[1..]| || key(s[1..][j - 1]) < key(x)
  {
  }

  lemma ConsSplit<T>(s: seq<T>, x: T, j: nat)
    requires 0 < j <= |s|
    ensures [s[0]] + (s[1..][..j - 1] + [x] + s[1..][j - 1..]) == s[..j] + [x] + s[j..]
  {
    assert s[1..][..j - 1] == s[1..j];
    assert s[1..][j - 1..] == s[j..];
    assert s[..j] == [s[0]] + s[1..j];
  }

  /** The stable descending sort of `xs` by `key`. */
  function SortDesc<T>(xs: seq<T>, key: T -> int): (r: seq<T>)
    ensures |r| == |xs|
  {
    if xs == [] then []
    else
      var n := |xs| - 1;
      InsertDesc(SortDesc(xs[..n], key), xs[n], key)
  }

  /** Insertion adds `x` and loses nothing. */
  lemma {:induction false} InsertDescPermutes<T>(s: seq<T>, x: T, key: T -> int)
    ensures multiset(InsertDesc(s, x, key)) == multiset(s) + multiset{x}
  {
    if s != [] && key(s[0]) >= key(x) {
      InsertDescPermutes(s[1..], x, key);
      assert s == [s[0]] + s[1..];
    }
  }

  /** The sort returns a permutation of its input. */
  lemma {:induction false} SortDescPermutes<T>(xs: seq<T>, key: T -> int)
    ensures multiset(SortDesc(xs, key)) == multiset(xs)
  {
    if xs != [] {
      var n := |xs| - 1;
      SortDescPermutes(xs[..n], key);
      InsertDescPermutes(SortDesc(xs[..n], key), xs[n], key);
      assert xs == xs[..n] + [xs[n]];
    }
  }

  /** The sort returns its input in descending order of key. */
  lemma {:induction false} SortDescSorted<T>(xs: seq<T>, key: T -> int)
    ensures SortedDesc(SortDesc(xs, key), key)
  {
    if xs != [] {
      var n := |xs| - 1;
      SortDescSorted(xs[..n], key);
      InsertDescSorted(SortDesc(xs[..n], key), xs[n], key);
    }
  }

  /** A list that is already in descending order is returned as it is. */
  lemma {:induction false} SortDescOfSorted<T>(xs: seq<T>, key: T -> int)
    requires SortedDesc(xs, key)
    ensures SortDesc(xs, key) == xs
  {
    if xs != [] {
      var n := |xs| - 1;
      assert SortedDesc(xs[..n], key);
      SortDescOfSorted(xs[..n], key);
      InsertDescAt(xs[..n], xs[n], key, n);
      assert xs[..n] + [xs[n]] == xs;
    }
  }

  /** The entries of `xs` whose key is `k`, in their order. */
  function WithKey<T>(xs: seq<T>, key: T -> int, k: int): seq<T> {
    if xs == [] then []
    else (if key(xs[0]) == k then [xs[0]] else []) + WithKey(xs[1..], key, k)
  }

  /** Inserting `x` into a sorted list appends it to the entries of its own key. */
  lemma {:induction false} InsertDescStable<T>(s: seq<T>, x: T, key: T -> int, k: int)
    requires SortedDesc(s, key)
    ensures WithKey(InsertDesc(s, x, key), key, k)
         == WithKey(s, key, k) + (if key(x) == k then [x] else [])
  {
    if s == [] {
    } else if key(s[0]) < key(x) {
      assert ([x] + s)[1..] == s;
      if key(x) == k {
        assert forall i :: 0 <= i < |s| ==> key(s[i]) != k by {
          forall i | 0 <= i < |s| ensures key(s[i]) != k {
            if i > 0 { assert key(s[0]) >= key(s[i]); }
          }
        }
        NoneWithKey(s, key, k);
      }
    } else {
      var r := InsertDesc(s[1..], x, key);
      assert InsertDesc(s, x, key) == [s[0]] + r;
      InsertDescStable(s[1..], x, key, k);
      WithKeyCons(s[0], r, key, k);
      WithKeyCons(s[0], s[1..], key, k);
      assert [s[0]] + s[1..] == s;
    }
  }

  lemma WithKeyCons<T>(y: T, r: seq<T>, key: T -> int, k: int)
    ensures WithKey([y] + r, key, k) == (if key(y) == k then [y] else []) + WithKey(r, key, k)
  {
    assert ([y] + r)[1..] == r;
  }

  lemma {:induction false} NoneWithKey<T>(s: seq<T>, key: T -> int, k: int)
    requires forall i :: 0 <= i < |s| ==> key(s[i]) != k
    ensures WithKey(s, key, k) == []
  {
    if s != [] {
      NoneWithKey(s[1..], key, k);
    }
  }

  lemma {:induction false} WithKeyAppend<T>(a: seq<T>, b: seq<T>, key: T -> int, k: int)
    ensures WithKey(a + b, key, k) == WithKey(a, key, k) + WithKey(b, key, k)
  {
    if a != [] {
      WithKeyAppend(a[1..], b, key, k);
      assert (a + b)[1..] == a[1..] + b;
    } else {
      assert a + b == b;
    }
  }

  /** The sort is stable: the entries that share a key keep their order. */
  lemma {:induction false} SortDescStable<T>(xs: seq<T>, key: T -> int, k: int)
    ensures WithKey(SortDesc(xs, key), key, k) == WithKey(xs, key, k)
  {
    if xs != [] {
      var n := |xs| - 1;
      var init := xs[..n];
      var x := xs[n];
      var srt := SortDesc(init, key);
      var last := if key(x) == k then [x] else [];
      SortDescUnfold(xs, key);
      assert WithKey(InsertDesc(srt, x, key), key, k) == WithKey(srt, key, k) + last by {
        SortDescSorted(init, key);
        InsertDescStable(srt, x, key, k);
      }
      SortDescStable(init, key, k);
      WithKeyLast(init, x, key, k);
      assert init + [x] == xs;
    }
  }

  lemma SortDescUnfold<T>(xs: seq<T>, key: T -> int)
    requires xs != []
    ensures SortDesc(xs, key) == InsertDesc(SortDesc(xs[..|xs| - 1], key), xs[|xs| - 1], key)
  {
  }

  lemma WithKeyLast<T>(init: seq<T>, x: T, key: T -> int, k: int)
    ensures WithKey(init + [x], key, k) == WithKey(init, key, k) + (if key(x) == k then [x] else [])
  {
    WithKeyAppend(init, [x], key, k);
    assert [x][1..] == [];
  }

  /** One pass of insertion: `a[i]` moves left past the entries of smaller key
      in the sorted prefix `a[..i]`. */
  method InsertStep<T>(a: array<T>, i: nat, key: T -> int)
    requires i < a.Length
    requires SortedDesc(a[..i], key)
    modifies a
    ensures a[..i + 1] == InsertDesc(old(a[..i]), old(a[i]), key)
    ensures a[i + 1..] == old(a[i + 1..])
  {
    ghost var orig := a[..];
    ghost var s := a[..i];
    var x := a[i];
    var j := i;
    while j > 0 && key(a[j - 1]) < key(x)
      invariant 0 <= j <= i
      invariant forall k :: 0 <= k < j ==> a[k] == orig[k]
      invariant forall k :: j < k <= i ==> a[k] == orig[k - 1]
      invariant forall k :: i < k < a.Length ==> a[k] == orig[k]
      invariant forall k :: j <= k < i ==> key(s[k]) < key(x)
    {
      a[j] := a[j - 1];
      j := j - 1;
    }
    a[j] := x;
    Shifted(orig, a[..], x, i, j);
    assert forall k :: 0 <= k < j ==> key(s[k]) >= key(x) by {
      if j > 0 {
        assert key(s[j - 1]) >= key(x);
        forall k | 0 <= k < j ensures key(s[k]) >= key(x) {
          assert key(s[k]) >= key(s[j - 1]);
        }
      }
    }
    InsertDescAt(s, x, key, j);
  }

  /** The array after the pass, described entry by entry, as slices. */
  lemma Shifted<T>(orig: seq<T>, after: seq<T>, x: T, i: nat, j: nat)
    requires j <= i < |orig| == |after|
    requires forall k :: 0 <= k < j ==> after[k] == orig[k]
    requires after[j] == x
    requires forall k :: j < k <= i ==> after[k] == orig[k - 1]
    requires forall k :: i < k < |after| ==> after[k] == orig[k]
    ensures after[..i + 1] == orig[..i][..j] + [x] + orig[..i][j..]
    ensures after[i + 1..] == orig[i + 1..]
  {
    var r := orig[..i][..j] + [x] + orig[..i][j..];
    forall k | 0 <= k <= i ensures after[k] == r[k] {
      if k < j {
        assert r[k] == orig[k];
      } else if k > j {
        assert r[k] == orig[..i][j..][k - j - 1];
      }
    }
  }

  /** `a.sort(...)` by descending key, in place: after the call the array holds
      `SortDesc` of what it held before. */
  method SortInPlace<T>(a: array<T>, key: T -> int)
    modifies a
    ensures a[..] == SortDesc(old(a[..]), key)
  {
    ghost var orig := a[..];
    var i := 0;
    while i < a.Length
      invariant 0 <= i <= a.Length
      invariant a[..i] == SortDesc(orig[..i], key)
      invariant a[i..] == orig[i..]
    {
      SortDescSorted(orig[..i], key);
      ghost var before := a[..];
      InsertStep(a, i, key);
      SortStep(orig, i, before, a[..], key);
      i := i + 1;
    }
    assert a[..] == a[..a.Length];
    assert orig == orig[..a.Length];
  }

  lemma SortStep<T>(orig: seq<T>, i: nat, before: seq<T>, after: seq<T>, key: T -> int)
    requires i < |orig| == |before| == |after|
    requires before[..i] == SortDesc(orig[..i], key) && before[i..] == orig[i..]
    requires after[..i + 1] == InsertDesc(before[..i], before[i], key)
    requires after[i + 1..] == before[i + 1..]
    ensures after[..i + 1] == SortDesc(orig[..i + 1], key)
    ensures after[i + 1..] == orig[i + 1..]
  {
    assert before[i] == orig[i];
    assert orig[..i + 1][..i] == orig[..i];
    assert before[i + 1..] == orig[i + 1..];
  }
}
