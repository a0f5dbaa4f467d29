/** Sorted lists as Python's sorted() returns them, compared for equality. */
module Sorting {

  ghost predicate TotalOrder<T(!new)>(le: (T, T) -> bool) {
    && (forall x, y :: le(x, y) || le(y, x))
    && (forall x, y :: le(x, y) && le(y, x) ==> x == y)
    && (forall x, y, z :: le(x, y) && le(y, z) ==> le(x, z))
  }

  function Insert<T>(x: T, xs: seq<T>, le: (T, T) -> bool): seq<T> {
    if xs == [] then [x]
    else if le(x, xs[0]) then [x] + xs
    else [xs[0]] + Insert(x, xs[1..], le)
  }

  function Sort<T>(xs: seq<T>, le: (T, T) -> bool): seq<T> {
    if xs == [] then [] else Insert(xs[0], Sort(xs[1..], le), le)
  }

  ghost predicate Ordered<T>(xs: seq<T>, le: (T, T) -> bool) {
    forall i, j :: 0 <= i < j < |xs| ==> le(xs[i], xs[j])
  }

  lemma {:induction false} InsertKeeps<T(!new)>(x: T, xs: seq<T>, le: (T, T) -> bool)
    requires TotalOrder(le) && Ordered(xs, le)
    ensures multiset(Insert(x, xs, le)) == multiset{x} + multiset(xs)
    ensures Ordered(Insert(x, xs, le), le)
  {
    if xs != [] {
      assert xs == [xs[0]] + xs[1..];
      if !le(x, xs[0]) {
        InsertKeeps(x, xs[1..], le);
        var rest := Insert(x, xs[1..], le);
        forall j | 0 <= j < |rest| ensures le(xs[0], rest[j]) {
          assert rest[j] in multiset(rest);
          assert rest[j] == x || rest[j] in xs[1..];
        }
      }
    }
  }

  lemma {:induction false} SortSorts<T(!new)>(xs: seq<T>, le: (T, T) -> bool)
    requires TotalOrder(le)
    ensures multiset(Sort(xs, le)) == multiset(xs)
    ensures Ordered(Sort(xs, le), le)
  {
    if xs != [] {
      SortSorts(xs[1..], le);
      InsertKeeps(xs[0], Sort(xs[1..], le), le);
      assert xs == [xs[0]] + xs[1..];
    }
  }

  lemma {:induction false} OrderedIsUnique<T(!new)>(xs: seq<T>, ys: seq<T>, le: (T, T) -> bool)
    requires TotalOrder(le) && Ordered(xs, le) && Ordered(ys, le)
    requires multiset(xs) == multiset(ys)
    ensures xs == ys
  {
    if xs == [] {
      assert |multiset(ys)| == 0;
    } else {
      SameFirst(xs, ys, le);
      assert xs == [xs[0]] + xs[1..] && ys == [ys[0]] + ys[1..];
      assert multiset(xs[1..]) == multiset(xs) - multiset{xs[0]};
      assert multiset(ys[1..]) == multiset(ys) - multiset{ys[0]};
      OrderedIsUnique(xs[1..], ys[1..], le);
    }
  }

  lemma SameFirst<T(!new)>(xs: seq<T>, ys: seq<T>, le: (T, T) -> bool)
    requires TotalOrder(le) && Ordered(xs, le) && Ordered(ys, le)
    requires multiset(xs) == multiset(ys) && xs != []
    ensures ys != [] && xs[0] == ys[0]
  {
    assert |multiset(xs)| == |xs| && |multiset(ys)| == |ys|;
    assert xs[0] in multiset(ys) && ys[0] in multiset(xs);
    var i :| 0 <= i < |ys| && ys[i] == xs[0];
    var j :| 0 <= j < |xs| && xs[j] == ys[0];
    assert le(ys[0], xs[0]) && le(xs[0], ys[0]);
  }

  /** Comparing sorted lists compares the lists as multisets. */
  lemma SortedEqualIffSameMultiset<T(!new)>(xs: seq<T>, ys: seq<T>, le: (T, T) -> bool)
    requires TotalOrder(le)
    ensures Sort(xs, le) == Sort(ys, le) <==> multiset(xs) == multiset(ys)
  {
    SortSorts(xs, le);
    SortSorts(ys, le);
    if multiset(xs) == multiset(ys) {
      OrderedIsUnique(Sort(xs, le), Sort(ys, le), le);
    }
  }
}
