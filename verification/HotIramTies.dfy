/** What the choice looks like from outside: functions come by falling samples per byte, equal ones by name;
    a function is not passed over for a later one that is no smaller; and the order of the profile does not
    matter. */
module HotIramTies {
  import opened Sequences
  import opened StableSort
  import opened HotIram

  // ----- the order of names -----

  /** `a` is a proper prefix of `b`, or smaller at the first place where they differ. */
  ghost predicate Before(a: string, b: string) {
    (a <= b && a != b) || exists k :: 0 <= k < |a| && k < |b| && a[..k] == b[..k] && a[k] < b[k]
  }

  lemma {:induction false} NameLeIff(a: string, b: string)
    ensures NameLe(a, b) <==> a == b || Before(a, b)
  {
    if a != [] && b != [] {
      if a[0] == b[0] {
        NameLeIff(a[1..], b[1..]);
        TailsDecide(a, b);
      } else if a[0] < b[0] {
        assert a[..0] == b[..0];
      } else if Before(a, b) {
        FirstDecides(a, b);
        assert false;
      }
    }
  }

  lemma {:induction false} FirstDecides(a: string, b: string)
    requires a != [] && b != [] && Before(a, b)
    ensures a[0] <= b[0]
  {
    if !(a <= b) {
      var k :| 0 <= k < |a| && k < |b| && a[..k] == b[..k] && a[k] < b[k];
      if k > 0 { assert a[0] == a[..k][0] && b[0] == b[..k][0]; }
    }
  }

  lemma {:induction false} TailsDecide(a: string, b: string)
    requires a != [] && b != [] && a[0] == b[0]
    ensures a == b <==> a[1..] == b[1..]
    ensures Before(a, b) <==> Before(a[1..], b[1..])
  {
    assert a == [a[0]] + a[1..] && b == [b[0]] + b[1..];
    if Before(a, b) { TailsFollow(a, b); }
    if Before(a[1..], b[1..]) { TailsLead(a[0], a[1..], b[1..]); }
  }

  lemma {:induction false} TailsFollow(a: string, b: string)
    requires a != [] && b != [] && a[0] == b[0] && Before(a, b)
    ensures Before(a[1..], b[1..])
  {
    if a <= b && a != b {
      assert a == [a[0]] + a[1..] && b == [b[0]] + b[1..];
    } else {
      var k :| 0 <= k < |a| && k < |b| && a[..k] == b[..k] && a[k] < b[k];
      var x, y := a[1..], b[1..];
      assert x[..k - 1] == a[..k][1..] && y[..k - 1] == b[..k][1..];
      assert x[k - 1] < y[k - 1];
    }
  }

  lemma {:induction false} TailsLead(c: char, x: string, y: string)
    requires Before(x, y)
    ensures Before([c] + x, [c] + y)
  {
    var a, b := [c] + x, [c] + y;
    if x <= y && x != y {
      assert a[1..] == x && b[1..] == y;
    } else {
      var k :| 0 <= k < |x| && k < |y| && x[..k] == y[..k] && x[k] < y[k];
      assert a[..k + 1] == [c] + x[..k] && b[..k + 1] == [c] + y[..k];
      assert a[k + 1] < b[k + 1];
    }
  }

  lemma {:induction false} BeforeIsStrict(a: string, b: string)
    requires NameLe(a, b) && NameLe(b, a)
    ensures a == b
  {
    if a != [] && b != [] { BeforeIsStrict(a[1..], b[1..]); assert a == [a[0]] + a[1..] && b == [b[0]] + b[1..]; }
  }

  // ----- samples per byte -----

  /** Bytes a function counts for. */
  function Weight(e: Entry): nat {
    if e.size < 16 then 16 else e.size
  }

  /** More samples per byte, and as many. */
  predicate Hotter(a: Entry, b: Entry) {
    a.samples * Weight(b) > b.samples * Weight(a)
  }

  predicate EquallyHot(a: Entry, b: Entry) {
    a.samples * Weight(b) == b.samples * Weight(a)
  }

  /** The ranking in these terms. */
  lemma {:induction false} RankedIff(a: Entry, b: Entry)
    ensures RankedLe(a, b) <==> Hotter(a, b) || (EquallyHot(a, b) && (a.name == b.name || Before(a.name, b.name)))
  {
    NameLeIff(a.name, b.name);
  }

  // ----- the loop over a ranked list -----

  /** What is taken is a subsequence, so it keeps the order. */
  lemma {:induction false} SelectIsSorted(xs: seq<Entry>, mask: seq<bool>)
    requires |mask| == |xs| && SortedBy(RankedLe, xs)
    ensures SortedBy(RankedLe, Select(xs, mask)) && forall e <- Select(xs, mask) :: e in xs
  {
    if xs != [] {
      var tail := Select(xs[1..], mask[1..]);
      SelectIsSorted(xs[1..], mask[1..]);
      forall e | e in tail ensures RankedLe(xs[0], e) {
        var k :| 0 <= k < |xs[1..]| && xs[1..][k] == e;
        assert xs[k + 1] == e;
      }
      assert Select(xs, mask) == (if mask[0] then [xs[0]] else []) + tail;
    }
  }

  /** A function that is skipped needed more than a later one that is taken. */
  lemma {:induction false} SkippedIsLarger(xs: seq<Entry>, budget: int, used: nat, i: nat, j: nat)
    requires i < j < |xs| && !Greedy(xs, budget, used)[i] && Greedy(xs, budget, used)[j]
    ensures xs[i].size > xs[j].size
  {
    var take := used + xs[0].size <= budget;
    var used' := if take then used + xs[0].size else used;
    assert Greedy(xs, budget, used)[1..] == Greedy(xs[1..], budget, used');
    if i == 0 { TakenFits(xs[1..], budget, used, j - 1); } else { SkippedIsLarger(xs[1..], budget, used', i - 1, j - 1); }
  }

  lemma {:induction false} TakenFits(xs: seq<Entry>, budget: int, used: nat, j: nat)
    requires j < |xs| && Greedy(xs, budget, used)[j]
    ensures used + xs[j].size <= budget
  {
    if j > 0 {
      var used' := if used + xs[0].size <= budget then used + xs[0].size else used;
      assert Greedy(xs, budget, used)[1..] == Greedy(xs[1..], budget, used');
      TakenFits(xs[1..], budget, used', j - 1);
    }
  }

  /** A copy that is not among the taken ones was skipped somewhere, and a taken one was taken. */
  lemma {:induction false} SkippedSomewhere(xs: seq<Entry>, mask: seq<bool>, e: Entry) returns (i: nat)
    requires |mask| == |xs| && multiset(Select(xs, mask))[e] < multiset(xs)[e]
    ensures i < |xs| && !mask[i] && xs[i] == e
  {
    assert xs == [xs[0]] + xs[1..];
    if !mask[0] && xs[0] == e {
      i := 0;
    } else {
      assert Select(xs, mask) == (if mask[0] then [xs[0]] else []) + Select(xs[1..], mask[1..]);
      var k := SkippedSomewhere(xs[1..], mask[1..], e);
      i := k + 1;
    }
  }

  lemma {:induction false} TakenSomewhere(xs: seq<Entry>, mask: seq<bool>, e: Entry) returns (i: nat)
    requires |mask| == |xs| && e in Select(xs, mask)
    ensures i < |xs| && mask[i] && xs[i] == e
  {
    if mask[0] && xs[0] == e {
      i := 0;
    } else {
      assert Select(xs, mask) == (if mask[0] then [xs[0]] else []) + Select(xs[1..], mask[1..]);
      var k := TakenSomewhere(xs[1..], mask[1..], e);
      i := k + 1;
    }
  }

  // ----- the theorems -----

  /** The choice comes by falling samples per byte, and equally hot functions by name. */
  lemma {:induction false} ChoiceIsInOrder(entries: seq<Entry>, budget: int, i: nat, j: nat)
    requires var chosen := Choice(entries, budget); i < j < |chosen|
    ensures var a, b := Choice(entries, budget)[i], Choice(entries, budget)[j];
            Hotter(a, b) || (EquallyHot(a, b) && (a.name == b.name || Before(a.name, b.name)))
  {
    RankingIsAnOrder();
    SortIsSorted(RankedLe, entries);
    SelectIsSorted(Ranked(entries), Greedy(Ranked(entries), budget, 0));
    RankedIff(Choice(entries, budget)[i], Choice(entries, budget)[j]);
  }

  /** A function left out is not hotter than a chosen one of at least its size, nor before it in name order
      when equally hot. */
  lemma {:induction false} NotPassedOver(entries: seq<Entry>, budget: int, out: Entry, kept: Entry)
    requires var chosen := Choice(entries, budget);
             multiset(chosen)[out] < multiset(entries)[out] && kept in chosen
    requires kept.size >= out.size
    ensures !Hotter(out, kept) && !(EquallyHot(out, kept) && Before(out.name, kept.name))
  {
    var xs := Ranked(entries);
    var mask := Greedy(xs, budget, 0);
    RankingIsAnOrder();
    SortIsSorted(RankedLe, entries);
    var i := SkippedSomewhere(xs, mask, out);
    var j := TakenSomewhere(xs, mask, kept);
    if i < j { SkippedIsLarger(xs, budget, 0, i, j); }
    assert j < i && RankedLe(kept, out);
    RankedIff(kept, out);
    if EquallyHot(out, kept) && Before(out.name, kept.name) {
      NameLeIff(out.name, kept.name);
      NameLeIff(kept.name, out.name);
      BeforeIsStrict(out.name, kept.name);
      NotBeforeItself(out.name);
      assert false;
    }
  }

  lemma {:induction false} NotBeforeItself(a: string)
    ensures !Before(a, a)
  {
  }

  /** With distinct names, the order of the profile does not matter. */
  lemma {:induction false} OrderDoesNotMatter(entries: seq<Entry>, other: seq<Entry>, budget: int)
    requires multiset(entries) == multiset(other)
    requires forall a, b :: a in entries && b in entries && a.name == b.name ==> a == b
    ensures Choice(entries, budget) == Choice(other, budget)
  {
    RankingIsAnOrder();
    SortIsSorted(RankedLe, entries);
    SortIsSorted(RankedLe, other);
    SortedIsUnique(Ranked(entries), Ranked(other), multiset(entries));
  }

  lemma {:induction false} SortedIsUnique(xs: seq<Entry>, ys: seq<Entry>, all: multiset<Entry>)
    requires SortedBy(RankedLe, xs) && SortedBy(RankedLe, ys) && multiset(xs) == multiset(ys) <= all
    requires forall a, b :: a in all && b in all && a.name == b.name ==> a == b
    ensures xs == ys
  {
    if xs == [] {
      assert |ys| == |multiset(ys)| == 0;
    } else {
      assert xs[0] in multiset(ys);
      FirstIsSame(xs, ys, all);
      FirstAndTail(xs);
      FirstAndTail(ys);
      TailsFit(xs, ys, all);
      SortedIsUnique(xs[1..], ys[1..], all);
    }
  }

  lemma {:induction false} FirstAndTail(xs: seq<Entry>)
    requires xs != []
    ensures xs == [xs[0]] + xs[1..] && multiset(xs) == multiset{xs[0]} + multiset(xs[1..])
    ensures SortedBy(RankedLe, xs) ==> SortedBy(RankedLe, xs[1..])
  {
    assert xs == [xs[0]] + xs[1..];
  }

  lemma {:induction false} TailsFit(xs: seq<Entry>, ys: seq<Entry>, all: multiset<Entry>)
    requires xs != [] && ys != [] && xs[0] == ys[0] && multiset(xs) == multiset(ys) <= all
    ensures multiset(xs[1..]) == multiset(ys[1..]) <= all
  {
    FirstAndTail(xs);
    FirstAndTail(ys);
    assert multiset(xs[1..]) == multiset(xs) - multiset{xs[0]};
    assert multiset(ys[1..]) == multiset(ys) - multiset{ys[0]};
  }

  lemma {:induction false} FirstIsSame(xs: seq<Entry>, ys: seq<Entry>, all: multiset<Entry>)
    requires xs != [] && ys != []
    requires SortedBy(RankedLe, xs) && SortedBy(RankedLe, ys) && multiset(xs) == multiset(ys) <= all
    requires forall a, b :: a in all && b in all && a.name == b.name ==> a == b
    ensures xs[0] == ys[0]
  {
    var a, b := xs[0], ys[0];
    assert a in multiset(ys) && b in multiset(xs);
    if a != b {
      var i :| 0 <= i < |ys| && ys[i] == a;
      var j :| 0 <= j < |xs| && xs[j] == b;
      assert RankedLe(b, a) && RankedLe(a, b);
      BeforeIsStrict(a.name, b.name);
      assert false;
    }
  }
}
