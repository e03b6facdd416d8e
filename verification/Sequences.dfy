/** Facts about sequences that several modules need. */
module Sequences {
  predicate Distinct<T(==)>(s: seq<T>) {
    forall i, j :: 0 <= i < j < |s| ==> s[i] != s[j]
  }

  lemma Shift<T>(a: seq<T>, b: seq<T>, c: seq<T>)
    ensures (a + b) + c == a + (b + c)
  {
  }

  lemma ShiftTwo<T>(a: seq<T>, b: seq<T>, c: seq<T>, d: seq<T>)
    ensures (a + (b + c)) + d == a + (b + (c + d))
  {
  }

  lemma TailOf<T>(x: T, s: seq<T>)
    ensures [x] + s != [] && ([x] + s)[0] == x && ([x] + s)[1..] == s
  {
  }
}
