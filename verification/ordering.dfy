/** Query helpers: a filter (a Mongo `find` condition) and a sort by a descending key
    (a Mongo `.sort('-field')`), stated over sequences. */
module Ordering {

  /** The elements of `xs` that satisfy `p`, in their original order and multiplicity. */
  function Filter<T(!new)>(xs: seq<T>, p: T -> bool): (r: seq<T>)
    ensures forall x :: multiset(r)[x] == if p(x) then multiset(xs)[x] else 0
    ensures forall x :: x in r <==> x in xs && p(x)
  {
    if |xs| == 0 then []
    else
      var rest := Filter(xs[1..], p);
      assert xs == [xs[0]] + xs[1..];
      if p(xs[0]) then [xs[0]] + rest else rest
  }

  /** Non-increasing by `key`: newest first when `key` is a creation time. */
  ghost predicate SortedDesc<T>(xs: seq<T>, key: T -> int) {
    forall i, j :: 0 <= i < j < |xs| ==> key(xs[i]) >= key(xs[j])
  }

  /** A head no smaller than the first element of a sorted tail keeps the sequence sorted. */
  lemma ConsSorted<T>(h: T, t: seq<T>, key: T -> int)
    requires SortedDesc(t, key)
    requires |t| == 0 || key(h) >= key(t[0])
    ensures SortedDesc([h] + t, key)
  {
    var s := [h] + t;
    forall i, j | 0 <= i < j < |s| ensures key(s[i]) >= key(s[j]) {
      if i == 0 {
        assert s[j] == t[j - 1];
        assert key(t[0]) >= key(t[j - 1]) || j == 1;
      } else {
        assert s[i] == t[i - 1] && s[j] == t[j - 1];
      }
    }
  }

  /** Inserts `x` into a sequence already sorted by descending `key`. */
  function Insert<T>(x: T, ys: seq<T>, key: T -> int): (r: seq<T>)
    requires SortedDesc(ys, key)
    ensures multiset(r) == multiset(ys) + multiset{x}
    ensures SortedDesc(r, key)
    ensures |r| == |ys| + 1
    ensures r[0] == x || (|ys| > 0 && r[0] == ys[0])
  {
    if |ys| == 0 || key(x) >= key(ys[0]) then
      ConsSorted(x, ys, key);
      [x] + ys
    else
      var rest := Insert(x, ys[1..], key);
      assert ys == [ys[0]] + ys[1..];
      assert |ys| > 1 ==> key(ys[0]) >= key(ys[1]);
      ConsSorted(ys[0], rest, key);
      [ys[0]] + rest
  }

  /** Orders `xs` by descending `key`; elements with equal keys may come in any order,
      as Mongo leaves them. */
  function SortDesc<T>(xs: seq<T>, key: T -> int): (r: seq<T>)
    ensures multiset(r) == multiset(xs)
    ensures SortedDesc(r, key)
  {
    if |xs| == 0 then []
    else
      assert xs == [xs[0]] + xs[1..];
      Insert(xs[0], SortDesc(xs[1..], key), key)
  }

  /** A list query: the elements satisfying `p`, newest first. */
  function Query<T(!new)>(xs: seq<T>, p: T -> bool, key: T -> int): (r: seq<T>)
    ensures forall x :: multiset(r)[x] == if p(x) then multiset(xs)[x] else 0
    ensures forall x :: x in r <==> x in xs && p(x)
    ensures SortedDesc(r, key)
  {
    var f := Filter(xs, p);
    var r := SortDesc(f, key);
    assert forall x :: x in r <==> x in f by {
      forall x ensures x in r <==> x in f {
        assert x in r <==> multiset(r)[x] > 0;
        assert x in f <==> multiset(f)[x] > 0;
      }
    }
    r
  }
}
