/** The Swift `Array` operations the favourites store is built from, each
    related to a reference definition in terms of Dafny's `in` and slices. */
module Sequences {
  import opened Wrappers

  /** No element occurs twice. */
  ghost predicate NoDup<T>(xs: seq<T>) {
    forall i, j :: 0 <= i < j < |xs| ==> xs[i] != xs[j]
  }

  /** `Array.contains(_:)`: a scan from the front. */
  function Contains<T(==)>(xs: seq<T>, x: T): (b: bool)
    ensures b <==> x in xs
  {
    if |xs| == 0 then false
    else xs[0] == x || Contains(xs[1..], x)
  }

  /** `Array.firstIndex(of:)`: the position of the earliest occurrence, if any. */
  function FirstIndex<T(==)>(xs: seq<T>, x: T): (r: Option<nat>)
    ensures r.None? <==> x !in xs
    ensures r.Some? ==> r.value < |xs| && xs[r.value] == x
    ensures r.Some? ==> forall k :: 0 <= k < r.value ==> xs[k] != x
  {
    if |xs| == 0 then None
    else if xs[0] == x then Some(0)
    else match FirstIndex(xs[1..], x)
      case None => None
      case Some(i) => Some(i + 1)
  }

  /** `Array.remove(at:)`: drops the element at `i`, closing the gap. */
  function RemoveAt<T>(xs: seq<T>, i: nat): (r: seq<T>)
    requires i < |xs|
    ensures |r| == |xs| - 1
    ensures forall k :: 0 <= k < i ==> r[k] == xs[k]
    ensures forall k :: i <= k < |r| ==> r[k] == xs[k + 1]
  {
    xs[..i] + xs[i + 1..]
  }

  /** Reference definition: the sequence without the first occurrence of `x`. */
  function RemoveFirst<T(==)>(xs: seq<T>, x: T): seq<T> {
    if |xs| == 0 then []
    else if xs[0] == x then xs[1..]
    else [xs[0]] + RemoveFirst(xs[1..], x)
  }

  /** Removing at the first index of `x` is exactly `RemoveFirst`. */
  lemma {:induction false} RemoveAtFirstIndex<T>(xs: seq<T>, x: T, i: nat)
    requires i < |xs| && xs[i] == x && x !in xs[..i]
    ensures RemoveAt(xs, i) == RemoveFirst(xs, x)
  {
    if i == 0 {
      assert xs[0] == x;
    } else {
      assert xs[0] != x by { assert xs[0] == xs[..i][0]; }
      assert x !in xs[1..][..i - 1] by { assert xs[1..][..i - 1] == xs[..i][1..]; }
      RemoveAtFirstIndex(xs[1..], x, i - 1);
      assert RemoveAt(xs, i) == [xs[0]] + RemoveAt(xs[1..], i - 1);
    }
  }

  /** Removing an absent element changes nothing. */
  lemma {:induction false} RemoveFirstAbsent<T>(xs: seq<T>, x: T)
    requires x !in xs
    ensures RemoveFirst(xs, x) == xs
  {
    if |xs| > 0 {
      assert x !in xs[1..] by { assert forall y :: y in xs[1..] ==> y in xs; }
      RemoveFirstAbsent(xs[1..], x);
      assert xs == [xs[0]] + xs[1..];
    }
  }

  /** Removing the first `x` keeps every other value's membership. */
  lemma {:induction false} RemoveFirstKeepsOthers<T>(xs: seq<T>, x: T, y: T)
    requires y != x
    ensures y in RemoveFirst(xs, x) <==> y in xs
  {
    if |xs| > 0 {
      assert xs == [xs[0]] + xs[1..];
      if xs[0] != x {
        RemoveFirstKeepsOthers(xs[1..], x, y);
      }
    }
  }

  /** On a duplicate-free sequence, removing the first `x` removes `x` altogether
      and keeps the sequence duplicate-free. */
  lemma {:induction false} RemoveFirstNoDup<T>(xs: seq<T>, x: T)
    requires NoDup(xs)
    ensures NoDup(RemoveFirst(xs, x))
    ensures x !in RemoveFirst(xs, x)
  {
    if |xs| > 0 {
      var tail := xs[1..];
      assert NoDup(tail) by {
        forall i, j | 0 <= i < j < |tail| ensures tail[i] != tail[j] {
          assert tail[i] == xs[i + 1] && tail[j] == xs[j + 1];
        }
      }
      assert xs[0] !in tail by {
        forall k | 0 <= k < |tail| ensures tail[k] != xs[0] {
          assert tail[k] == xs[k + 1];
        }
      }
      if xs[0] != x {
        RemoveFirstNoDup(tail, x);
        var r := RemoveFirst(tail, x);
        assert xs[0] !in r by {
          if xs[0] in r { RemoveFirstKeepsOthers(tail, x, xs[0]); }
        }
        ConsNoDup(xs[0], r);
      }
    }
  }

  /** Prepending an absent element keeps a sequence duplicate-free. */
  lemma ConsNoDup<T>(x: T, xs: seq<T>)
    requires NoDup(xs) && x !in xs
    ensures NoDup([x] + xs)
  {
    var ys := [x] + xs;
    forall i, j | 0 <= i < j < |ys| ensures ys[i] != ys[j] {
      assert ys[j] == xs[j - 1];
      if i > 0 { assert ys[i] == xs[i - 1]; }
    }
  }

  /** Appending an absent element keeps a sequence duplicate-free. */
  lemma AppendNoDup<T>(xs: seq<T>, x: T)
    requires NoDup(xs) && x !in xs
    ensures NoDup(xs + [x])
  {
    var ys := xs + [x];
    forall i, j | 0 <= i < j < |ys| ensures ys[i] != ys[j] {
      assert ys[i] == xs[i];
      if j < |xs| { assert ys[j] == xs[j]; }
    }
  }
}
