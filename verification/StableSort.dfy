/** Sorting by a key, as Python's `sorted` does it: the result is in order, holds the same elements the
    same number of times, and keeps equal elements in their original order. */
module StableSort {
  ghost predicate TotalPreorder<T(!new)>(le: (T, T) -> bool) {
    && (forall x, y :: le(x, y) || le(y, x))
    && (forall x, y, z :: le(x, y) && le(y, z) ==> le(x, z))
  }

  predicate SortedBy<T>(le: (T, T) -> bool, xs: seq<T>) {
    forall i, j :: 0 <= i < j < |xs| ==> le(xs[i], xs[j])
  }

  function Insert<T>(le: (T, T) -> bool, x: T, xs: seq<T>): seq<T> {
    if xs == [] || le(x, xs[0]) then [x] + xs else [xs[0]] + Insert(le, x, xs[1..])
  }

  function Sort<T>(le: (T, T) -> bool, xs: seq<T>): seq<T> {
    if xs == [] then [] else Insert(le, xs[0], Sort(le, xs[1..]))
  }

  lemma {:induction false} InsertKeeps<T>(le: (T, T) -> bool, x: T, xs: seq<T>)
    ensures multiset(Insert(le, x, xs)) == multiset(xs) + multiset{x}
  {
    if xs != [] && !le(x, xs[0]) {
      InsertKeeps(le, x, xs[1..]);
      assert xs == [xs[0]] + xs[1..];
    }
  }

  lemma {:induction false} InsertSorts<T(!new)>(le: (T, T) -> bool, x: T, xs: seq<T>)
    requires TotalPreorder(le) && SortedBy(le, xs)
    ensures SortedBy(le, Insert(le, x, xs))
  {
    if xs == [] {
    } else if le(x, xs[0]) {
      forall j | 0 <= j < |xs| ensures le(x, xs[j]) { assert j > 0 ==> le(xs[0], xs[j]); }
    } else {
      var tail := Insert(le, x, xs[1..]);
      InsertSorts(le, x, xs[1..]);
      InsertKeeps(le, x, xs[1..]);
      forall j | 0 <= j < |tail| ensures le(xs[0], tail[j]) {
        assert tail[j] in multiset(tail);
        if tail[j] != x {
          assert tail[j] in multiset(xs[1..]);
          assert tail[j] in xs[1..];
        }
      }
    }
  }

  lemma {:induction false} SortIsSorted<T(!new)>(le: (T, T) -> bool, xs: seq<T>)
    requires TotalPreorder(le)
    ensures SortedBy(le, Sort(le, xs)) && multiset(Sort(le, xs)) == multiset(xs)
    ensures |Sort(le, xs)| == |xs|
  {
    if xs != [] {
      SortIsSorted(le, xs[1..]);
      InsertSorts(le, xs[0], Sort(le, xs[1..]));
      InsertKeeps(le, xs[0], Sort(le, xs[1..]));
      assert xs == [xs[0]] + xs[1..];
    }
    assert |multiset(Sort(le, xs))| == |multiset(xs)|;
  }

  /** The elements equivalent to `k`, in order. */
  function Ties<T>(le: (T, T) -> bool, k: T, xs: seq<T>): seq<T> {
    if xs == [] then []
    else (if le(k, xs[0]) && le(xs[0], k) then [xs[0]] else []) + Ties(le, k, xs[1..])
  }

  lemma {:induction false} InsertIsStable<T(!new)>(le: (T, T) -> bool, x: T, xs: seq<T>, k: T)
    requires TotalPreorder(le)
    ensures Ties(le, k, Insert(le, x, xs)) == Ties(le, k, [x] + xs)
  {
    if xs != [] && !le(x, xs[0]) {
      InsertIsStable(le, x, xs[1..], k);
      var tail := Insert(le, x, xs[1..]);
      assert ([xs[0]] + tail)[1..] == tail;
      assert ([x] + xs)[1..] == xs;
      assert ([x] + xs[1..])[1..] == xs[1..];
    }
  }

  lemma {:induction false} SortIsStable<T(!new)>(le: (T, T) -> bool, xs: seq<T>, k: T)
    requires TotalPreorder(le)
    ensures Ties(le, k, Sort(le, xs)) == Ties(le, k, xs)
  {
    if xs != [] {
      var tail := Sort(le, xs[1..]);
      SortIsStable(le, xs[1..], k);
      InsertIsStable(le, xs[0], tail, k);
      assert ([xs[0]] + tail)[1..] == tail;
    }
  }
}
