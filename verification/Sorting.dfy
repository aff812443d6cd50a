/** Sorting lists whose keys are distinct. */
module Sorting {
  ghost predicate Distinct<T(!new)>(xs: seq<T>, key: T -> int) {
    forall i, j :: 0 <= i < j < |xs| ==> key(xs[i]) != key(xs[j])
  }

  ghost predicate Ascending<T(!new)>(xs: seq<T>, key: T -> int) {
    forall i, j :: 0 <= i < j < |xs| ==> key(xs[i]) < key(xs[j])
  }

  lemma NothingIn<T(!new)>(xs: seq<T>, ys: seq<T>)
    requires forall x :: x in xs ==> x in ys
    ensures ys == [] ==> xs == []
  {
    if xs != [] {
      assert xs[0] in xs;
    }
  }

  /** Two ascending lists of the same things are the same list. */
  lemma {:induction false} AscendingIsUnique<T(!new)>(xs: seq<T>, ys: seq<T>, key: T -> int)
    requires Ascending(xs, key) && Ascending(ys, key)
    requires forall x :: x in xs <==> x in ys
    ensures xs == ys
    decreases |xs|
  {
    NothingIn(xs, ys);
    NothingIn(ys, xs);
    if xs != [] {
      var n, m := |xs| - 1, |ys| - 1;
      assert xs[n] in ys;
      assert ys[m] in xs;
      assert xs[n] == ys[m];
      forall x
        ensures x in xs[..n] <==> x in ys[..m]
      {
        assert x in xs <==> x in xs[..n] || x == xs[n];
        assert x in ys <==> x in ys[..m] || x == ys[m];
      }
      AscendingIsUnique(xs[..n], ys[..m], key);
      assert xs == xs[..n] + [xs[n]] && ys == ys[..m] + [ys[m]];
    }
  }

  lemma InsertedIsAscending<T(!new)>(xs: seq<T>, j: nat, x: T, key: T -> int)
    requires Ascending(xs, key) && j <= |xs|
    requires forall i :: 0 <= i < j ==> key(xs[i]) < key(x)
    requires j < |xs| ==> key(x) < key(xs[j])
    ensures Ascending(xs[..j] + [x] + xs[j..], key)
  {
  }

  method Insert<T(!new)>(xs: seq<T>, x: T, key: T -> int) returns (r: seq<T>)
    requires Ascending(xs, key) && forall y :: y in xs ==> key(y) != key(x)
    ensures Ascending(r, key) && |r| == |xs| + 1
    ensures forall y :: y in r <==> y in xs || y == x
  {
    var j := 0;
    while j < |xs| && key(xs[j]) < key(x)
      invariant j <= |xs|
      invariant forall k :: 0 <= k < j ==> key(xs[k]) < key(x)
    {
      j := j + 1;
    }
    if j < |xs| {
      assert xs[j] in xs;
    }
    InsertedIsAscending(xs, j, x, key);
    assert xs == xs[..j] + xs[j..];
    r := xs[..j] + [x] + xs[j..];
  }

  method SortBy<T(!new)>(xs: seq<T>, key: T -> int) returns (r: seq<T>)
    requires Distinct(xs, key)
    ensures Ascending(r, key) && |r| == |xs|
    ensures forall x :: x in r <==> x in xs
  {
    r := [];
    for i := 0 to |xs|
      invariant Ascending(r, key) && |r| == i
      invariant forall x :: x in r <==> x in xs[..i]
    {
      assert xs[..i + 1] == xs[..i] + [xs[i]];
      r := Insert(r, xs[i], key);
    }
    assert xs[..|xs|] == xs;
  }
}
