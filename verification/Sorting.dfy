/** Insertion sort by falling key; equal keys keep their order, one of the orders std::sort may produce. */
module Sorting {
  ghost predicate Falling<T>(key: T -> real, s: seq<T>)
  {
    forall i, j :: 0 <= i < j < |s| ==> key(s[i]) >= key(s[j])
  }

  function Insert<T>(key: T -> real, x: T, s: seq<T>): (r: seq<T>)
    ensures |r| == |s| + 1
  {
    if s == [] then [x]
    else if key(x) > key(s[0]) then [x] + s
    else [s[0]] + Insert(key, x, s[1..])
  }

  function Sorted<T>(key: T -> real, s: seq<T>): (r: seq<T>)
    ensures |r| == |s|
  {
    if s == [] then [] else Insert(key, s[|s| - 1], Sorted(key, s[..|s| - 1]))
  }

  lemma {:induction false} InsertPermutes<T>(key: T -> real, x: T, s: seq<T>)
    ensures multiset(Insert(key, x, s)) == multiset(s) + multiset{x}
  {
    if s == [] {
    } else if key(x) > key(s[0]) {
      PutFirst(x, s);
    } else {
      InsertPermutes(key, x, s[1..]);
      assert s == [s[0]] + s[1..];
      hide Insert;
      PutFirst(s[0], s[1..]);
      PutFirst(s[0], Insert(key, x, s[1..]));
    }
  }

  lemma PutFirst<T>(x: T, s: seq<T>)
    ensures multiset([x] + s) == multiset{x} + multiset(s)
  {
  }

  lemma {:induction false} InsertKeepsTop<T>(key: T -> real, x: T, s: seq<T>, top: real)
    requires key(x) <= top && forall i :: 0 <= i < |s| ==> key(s[i]) <= top
    ensures forall i :: 0 <= i < |Insert(key, x, s)| ==> key(Insert(key, x, s)[i]) <= top
  {
    if s != [] && key(x) <= key(s[0]) {
      InsertKeepsTop(key, x, s[1..], top);
    }
  }

  lemma {:induction false} InsertFalls<T>(key: T -> real, x: T, s: seq<T>)
    requires Falling(key, s)
    ensures Falling(key, Insert(key, x, s))
  {
    if s != [] && key(x) <= key(s[0]) {
      InsertFalls(key, x, s[1..]);
      InsertKeepsTop(key, x, s[1..], key(s[0]));
    }
  }

  lemma {:induction false} SortedIsSorted<T>(key: T -> real, s: seq<T>)
    ensures Falling(key, Sorted(key, s))
    ensures multiset(Sorted(key, s)) == multiset(s)
  {
    if s != [] {
      var k := |s| - 1;
      SortedIsSorted(key, s[..k]);
      assert s == s[..k] + [s[k]];
      hide Insert, Falling;
      InsertFalls(key, s[k], Sorted(key, s[..k]));
      InsertPermutes(key, s[k], Sorted(key, s[..k]));
    }
  }
}
