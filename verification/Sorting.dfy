/** Sorting by a key, as `Array.prototype.sort` with a numeric comparison does it. */
module Sorting {

  function Insert<T>(x: T, xs: seq<T>, key: T -> int): seq<T> {
    if xs == [] || key(x) <= key(xs[0]) then [x] + xs else [xs[0]] + Insert(x, xs[1..], key)
  }

  function SortBy<T>(xs: seq<T>, key: T -> int): seq<T> {
    if xs == [] then [] else Insert(xs[0], SortBy(xs[1..], key), key)
  }

  ghost predicate AtLeast<T>(low: int, xs: seq<T>, key: T -> int) { forall x :: x in xs ==> low <= key(x) }

  ghost predicate Ordered<T>(xs: seq<T>, key: T -> int) {
    xs == [] || (AtLeast(key(xs[0]), xs[1..], key) && Ordered(xs[1..], key))
  }

  predicate Rising<T>(xs: seq<T>, key: T -> int) {
    forall i, j :: 0 <= i < j < |xs| ==> key(xs[i]) < key(xs[j])
  }

  lemma {:induction false} Inserted<T>(x: T, xs: seq<T>, key: T -> int)
    requires Ordered(xs, key)
    ensures multiset(Insert(x, xs, key)) == multiset{x} + multiset(xs)
    ensures Ordered(Insert(x, xs, key), key)
    decreases |xs|, 1
  {
    if xs == [] || key(x) <= key(xs[0]) {
      assert multiset([x] + xs) == multiset([x]) + multiset(xs);
      assert ([x] + xs)[1..] == xs;
      if xs != [] {
        assert xs == [xs[0]] + xs[1..];
      }
    } else {
      InsertedBehind(x, xs, key);
    }
  }

  lemma AmongThem<T>(x: T, xs: seq<T>, rest: seq<T>, low: int, key: T -> int)
    requires multiset(rest) == multiset{x} + multiset(xs) && low <= key(x) && AtLeast(low, xs, key)
    ensures AtLeast(low, rest, key)
  {
    forall y | y in rest ensures low <= key(y) {
      assert y in multiset(rest);
      assert y == x || y in multiset(xs);
    }
  }

  lemma {:induction false} InsertedBehind<T>(x: T, xs: seq<T>, key: T -> int)
    requires xs != [] && key(xs[0]) < key(x) && Ordered(xs, key)
    ensures multiset(Insert(x, xs, key)) == multiset{x} + multiset(xs)
    ensures Ordered(Insert(x, xs, key), key)
    decreases |xs|, 0
  {
    var rest := Insert(x, xs[1..], key);
    Inserted(x, xs[1..], key);
    assert xs == [xs[0]] + xs[1..];
    assert multiset([xs[0]] + rest) == multiset([xs[0]]) + multiset(rest);
    assert ([xs[0]] + rest)[1..] == rest;
    AmongThem(x, xs[1..], rest, key(xs[0]), key);
  }

  lemma {:induction false} Sorted<T>(xs: seq<T>, key: T -> int)
    ensures multiset(SortBy(xs, key)) == multiset(xs)
    ensures Ordered(SortBy(xs, key), key)
  {
    hide Insert, Ordered;
    if xs != [] {
      Sorted(xs[1..], key);
      Inserted(xs[0], SortBy(xs[1..], key), key);
      assert xs == [xs[0]] + xs[1..];
    } else {
      assert Ordered([], key) by { NoneOrdered(key); }
    }
  }

  lemma NoneOrdered<T>(key: T -> int)
    ensures Ordered([], key)
  {
  }

  lemma HeadIsLeast<T>(xs: seq<T>, key: T -> int, x: T)
    requires xs != [] && Ordered(xs, key) && x in multiset(xs)
    ensures key(xs[0]) <= key(x)
  {
    assert xs == [xs[0]] + xs[1..];
  }

  lemma RisingLeast<T>(ys: seq<T>, key: T -> int, y: T)
    requires ys != [] && Rising(ys, key) && y in multiset(ys) && key(y) <= key(ys[0])
    ensures y == ys[0]
  {
    var j :| 0 <= j < |ys| && ys[j] == y;
  }

  lemma SizeOf<T>(xs: seq<T>, ys: seq<T>)
    requires multiset(xs) == multiset(ys)
    ensures |xs| == |ys|
  {
    assert |multiset(xs)| == |xs|;
    assert |multiset(ys)| == |ys|;
  }

  lemma TailsMatch<T>(xs: seq<T>, ys: seq<T>)
    requires xs != [] && ys != [] && xs[0] == ys[0] && multiset(xs) == multiset(ys)
    ensures multiset(xs[1..]) == multiset(ys[1..])
  {
    assert xs == [xs[0]] + xs[1..] && ys == [ys[0]] + ys[1..];
    assert multiset(xs[1..]) == multiset(xs) - multiset{xs[0]};
    assert multiset(ys[1..]) == multiset(ys) - multiset{ys[0]};
  }

  lemma RisingTail<T>(ys: seq<T>, key: T -> int)
    requires ys != [] && Rising(ys, key)
    ensures Rising(ys[1..], key)
  {
  }

  lemma OrderedTail<T>(xs: seq<T>, key: T -> int)
    requires xs != [] && Ordered(xs, key)
    ensures Ordered(xs[1..], key)
  {
  }

  lemma SameHead<T>(xs: seq<T>, ys: seq<T>, key: T -> int)
    requires xs != [] && ys != [] && Ordered(xs, key) && Rising(ys, key) && multiset(xs) == multiset(ys)
    ensures xs[0] == ys[0]
  {
    hide Ordered, Rising;
    assert ys[0] in multiset(ys) && xs[0] in multiset(xs);
    HeadIsLeast(xs, key, ys[0]);
    RisingLeast(ys, key, xs[0]);
  }

  /** The only ordered arrangement, when keys differ. */
  lemma {:induction false} SameOrder<T>(xs: seq<T>, ys: seq<T>, key: T -> int)
    requires Ordered(xs, key) && Rising(ys, key) && multiset(xs) == multiset(ys)
    ensures xs == ys
    decreases |xs|
  {
    hide *;
    SizeOf(xs, ys);
    if xs != [] {
      SameHead(xs, ys, key);
      TailsMatch(xs, ys);
      RisingTail(ys, key);
      OrderedTail(xs, key);
      SameOrder(xs[1..], ys[1..], key);
      assert xs == [xs[0]] + xs[1..] && ys == [ys[0]] + ys[1..];
    }
  }

  /** Sorting recovers a strictly increasing sequence from any permutation of it. */
  lemma SortRecovers<T>(xs: seq<T>, ys: seq<T>, key: T -> int)
    requires Rising(ys, key) && multiset(xs) == multiset(ys)
    ensures SortBy(xs, key) == ys
  {
    Sorted(xs, key);
    SameOrder(SortBy(xs, key), ys, key);
  }
}
