/** list.sort with a key function: the stable insertion of each item into the sorted rest. */
module Sorting {

  function Insert<T>(x: T, xs: seq<T>, key: T -> int): seq<T> {
    if xs == [] || key(x) <= key(xs[0]) then [x] + xs else [xs[0]] + Insert(x, xs[1..], key)
  }

  function SortedBy<T>(xs: seq<T>, key: T -> int): seq<T> {
    if xs == [] then [] else Insert(xs[0], SortedBy(xs[1..], key), key)
  }

  ghost predicate Ascending<T>(xs: seq<T>, key: T -> int) {
    |xs| < 2 || (key(xs[0]) <= key(xs[1]) && Ascending(xs[1..], key))
  }

  ghost predicate StrictlyAscending<T>(xs: seq<T>, key: T -> int) {
    |xs| < 2 || (key(xs[0]) < key(xs[1]) && StrictlyAscending(xs[1..], key))
  }

  lemma {:induction false} InsertKeeps<T>(x: T, xs: seq<T>, key: T -> int)
    requires Ascending(xs, key)
    ensures Ascending(Insert(x, xs, key), key)
    ensures multiset(Insert(x, xs, key)) == multiset{x} + multiset(xs)
  {
    if xs != [] && key(x) > key(xs[0]) {
      InsertKeeps(x, xs[1..], key);
      var rest := Insert(x, xs[1..], key);
      assert ([xs[0]] + rest)[1..] == rest;
      assert xs == [xs[0]] + xs[1..];
    } else {
      assert ([x] + xs)[1..] == xs;
    }
  }

  lemma {:induction false} SortKeeps<T>(xs: seq<T>, key: T -> int)
    ensures Ascending(SortedBy(xs, key), key)
    ensures multiset(SortedBy(xs, key)) == multiset(xs)
  {
    if xs != [] {
      SortKeeps(xs[1..], key);
      InsertKeeps(xs[0], SortedBy(xs[1..], key), key);
      assert xs == [xs[0]] + xs[1..];
    }
  }

  lemma {:induction false} HeadIsLeast<T>(xs: seq<T>, key: T -> int, y: T)
    requires Ascending(xs, key) && y in xs
    ensures key(xs[0]) <= key(y)
  {
    if y != xs[0] {
      assert y in xs[1..];
      HeadIsLeast(xs[1..], key, y);
    }
  }

  lemma {:induction false} StrictHead<T>(xs: seq<T>, key: T -> int)
    requires StrictlyAscending(xs, key)
    ensures Ascending(xs, key)
    ensures forall y :: y in xs && xs != [] && key(y) == key(xs[0]) ==> y == xs[0]
  {
    if |xs| >= 2 {
      StrictHead(xs[1..], key);
      forall y | y in xs && key(y) == key(xs[0])
        ensures y == xs[0]
      {
        if y != xs[0] {
          assert y in xs[1..];
          HeadIsLeast(xs[1..], key, y);
        }
      }
    }
  }

  lemma SameHeads<T>(xs: seq<T>, ys: seq<T>, key: T -> int)
    requires multiset(xs) == multiset(ys) && Ascending(xs, key) && StrictlyAscending(ys, key)
    requires xs != [] && ys != []
    ensures xs[0] == ys[0]
  {
    assert xs[0] in multiset(ys) && ys[0] in multiset(xs);
    StrictHead(ys, key);
    HeadIsLeast(xs, key, ys[0]);
    HeadIsLeast(ys, key, xs[0]);
  }

  lemma SameTails<T>(xs: seq<T>, ys: seq<T>)
    requires multiset(xs) == multiset(ys) && xs != [] && ys != [] && xs[0] == ys[0]
    ensures multiset(xs[1..]) == multiset(ys[1..])
  {
    assert xs == [xs[0]] + xs[1..] && ys == [ys[0]] + ys[1..];
    assert multiset(xs[1..]) == multiset(xs) - multiset{xs[0]};
    assert multiset(ys[1..]) == multiset(ys) - multiset{ys[0]};
  }

  lemma SameLength<T>(xs: seq<T>, ys: seq<T>)
    requires multiset(xs) == multiset(ys)
    ensures |xs| == |ys|
  {
    assert |xs| == |multiset(xs)| == |multiset(ys)| == |ys|;
  }

  /** Given items can be put in order in one way when no two share a key. */
  lemma {:induction false} OneOrder<T>(xs: seq<T>, ys: seq<T>, key: T -> int)
    requires multiset(xs) == multiset(ys) && Ascending(xs, key) && StrictlyAscending(ys, key)
    ensures xs == ys
  {
    SameLength(xs, ys);
    if xs != [] {
      SameHeads(xs, ys, key);
      SameTails(xs, ys);
      OneOrder(xs[1..], ys[1..], key);
      assert xs == [xs[0]] + xs[1..] && ys == [ys[0]] + ys[1..];
    }
  }

  /** Sorting any arrangement of items with distinct keys gives their ascending order. */
  lemma SortFinds<T>(xs: seq<T>, ys: seq<T>, key: T -> int)
    requires multiset(xs) == multiset(ys) && StrictlyAscending(ys, key)
    ensures SortedBy(xs, key) == ys
  {
    SortKeeps(xs, key);
    OneOrder(SortedBy(xs, key), ys, key);
  }

  lemma {:induction false} StrictlyAscendingAppend<T>(xs: seq<T>, x: T, key: T -> int)
    requires StrictlyAscending(xs, key) && forall y :: y in xs ==> key(y) < key(x)
    ensures StrictlyAscending(xs + [x], key)
  {
    if |xs| > 0 {
      assert (xs + [x])[1..] == xs[1..] + [x];
      StrictlyAscendingAppend(xs[1..], x, key);
      assert xs[0] in xs;
    }
  }
}
