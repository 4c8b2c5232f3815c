/**
 * `array.slice().sort(compare)` over a sequence: a stable insertion sort driven
 * by a JavaScript-style comparator (negative: a first, positive: b first).
 */
module Sorting {

  function Sign(n: int): (r: int)
    ensures r == -1 || r == 0 || r == 1
    ensures (r < 0 <==> n < 0) && (r > 0 <==> n > 0)
  {
    if n < 0 then -1 else if n > 0 then 1 else 0
  }

  /** `compare(a, b)` and `compare(b, a)` always have opposite signs. */
  ghost predicate SignAntisymmetric<T(!new)>(compare: (T, T) -> int) {
    forall a, b :: Sign(compare(a, b)) == -Sign(compare(b, a))
  }

  /** No neighbouring pair is out of order for `compare`. */
  ghost predicate Sorted<T>(s: seq<T>, compare: (T, T) -> int) {
    forall i :: 0 < i < |s| ==> compare(s[i - 1], s[i]) <= 0
  }

  /** Places `x` before the first element of `s` that it need not follow. */
  function Insert<T>(x: T, s: seq<T>, compare: (T, T) -> int): (r: seq<T>)
    ensures multiset(r) == multiset(s) + multiset{x}
    ensures |r| == |s| + 1
    ensures r[0] == x || (s != [] && r[0] == s[0])
  {
    if s == [] then [x]
    else if compare(x, s[0]) <= 0 then [x] + s
    else
      assert s == [s[0]] + s[1..];
      [s[0]] + Insert(x, s[1..], compare)
  }

  /** The sorted copy; an element only moves past elements it compares greater than. */
  function Sort<T>(s: seq<T>, compare: (T, T) -> int): (r: seq<T>)
    ensures multiset(r) == multiset(s)
    ensures |r| == |s|
  {
    if s == [] then []
    else
      assert s == [s[0]] + s[1..];
      Insert(s[0], Sort(s[1..], compare), compare)
  }

  lemma {:induction false} InsertSorted<T(!new)>(x: T, s: seq<T>, compare: (T, T) -> int)
    requires SignAntisymmetric(compare)
    requires Sorted(s, compare)
    ensures Sorted(Insert(x, s, compare), compare)
    decreases |s|
  {
    if s != [] && compare(x, s[0]) > 0 {
      var tail := s[1..];
      assert Sorted(tail, compare) by {
        forall i | 0 < i < |tail| ensures compare(tail[i - 1], tail[i]) <= 0 {
          assert tail[i - 1] == s[i] && tail[i] == s[i + 1];
        }
      }
      InsertSorted(x, tail, compare);
      var rest := Insert(x, tail, compare);
      assert Sign(compare(s[0], x)) == -Sign(compare(x, s[0]));
      assert compare(s[0], rest[0]) <= 0 by {
        if rest[0] != x { assert rest[0] == s[1]; }
      }
      var r := [s[0]] + rest;
      forall i | 0 < i < |r| ensures compare(r[i - 1], r[i]) <= 0 {
        if i > 1 { assert r[i - 1] == rest[i - 2] && r[i] == rest[i - 1]; }
      }
    }
  }

  /** With a sign-antisymmetric comparator the result is in order. */
  lemma {:induction false} SortSorted<T(!new)>(s: seq<T>, compare: (T, T) -> int)
    requires SignAntisymmetric(compare)
    ensures Sorted(Sort(s, compare), compare)
    decreases |s|
  {
    if s != [] {
      SortSorted(s[1..], compare);
      InsertSorted(s[0], Sort(s[1..], compare), compare);
    }
  }
}
