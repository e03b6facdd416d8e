/** Greedy selection of hot functions for IRAM: rank by samples per byte (a function counts as at least
    16 bytes), then take each one that still fits. The choice always fits and nothing skipped would
    still fit. With sizes padded to 16 bytes, no selection that fits beats the choice plus the first
    function skipped; at true sizes that is so for all profiles exactly from 16-byte functions on. */
module HotIram {
  import opened StableSort

  datatype Entry = Entry(samples: nat, size: nat, name: string)

  const FLOOR: nat := 16

  function Padded(e: Entry): nat {
    if e.size < FLOOR then FLOOR else e.size
  }

  // ----- the ranking -----

  /** Lexicographic order of code points. */
  predicate NameLe(a: string, b: string) {
    a == [] || (b != [] && (a[0] < b[0] || (a[0] == b[0] && NameLe(a[1..], b[1..]))))
  }

  /** Higher ratio first, compared without division. */
  predicate Denser(a: Entry, b: Entry) {
    a.samples * Padded(b) > b.samples * Padded(a)
  }

  /** Sort by falling ratio, then by name. */
  predicate RankedLe(a: Entry, b: Entry) {
    Denser(a, b) || (!Denser(b, a) && NameLe(a.name, b.name))
  }

  lemma {:induction false} NameLeTotal(a: string, b: string)
    ensures NameLe(a, b) || NameLe(b, a)
  {
    if a != [] && b != [] && a[0] == b[0] { NameLeTotal(a[1..], b[1..]); }
  }

  lemma {:induction false} NameLeTransitive(a: string, b: string, c: string)
    requires NameLe(a, b) && NameLe(b, c)
    ensures NameLe(a, c)
  {
    if a != [] && b != [] && c != [] && a[0] == b[0] == c[0] { NameLeTransitive(a[1..], b[1..], c[1..]); }
  }

  /** Products with positive sizes compare as the ratios do. */
  lemma {:induction false} DenserTransitive(x: nat, p: nat, y: nat, q: nat, z: nat, r: nat)
    requires p > 0 && q > 0 && r > 0
    requires x * q >= y * p && y * r >= z * q
    ensures x * r >= z * p
    ensures x * q > y * p || y * r > z * q ==> x * r > z * p
  {
    assert (x * q) * r >= (y * p) * r by { MulGe(x * q, y * p, r); }
    assert (y * r) * p >= (z * q) * p by { MulGe(y * r, z * q, p); }
    assert (y * p) * r == (y * r) * p && (x * q) * r == (x * r) * q && (z * q) * p == (z * p) * q;
    if x * q > y * p { MulGt(x * q, y * p, r); }
    if y * r > z * q { MulGt(y * r, z * q, p); }
    CancelGe(x * r, z * p, q);
  }

  lemma MulGe(a: nat, b: nat, c: nat)
    requires a >= b
    ensures a * c >= b * c
  {
  }

  lemma MulGt(a: nat, b: nat, c: nat)
    requires a > b && c > 0
    ensures a * c > b * c
  {
  }

  lemma {:induction false} CancelGe(a: nat, b: nat, c: nat)
    requires c > 0
    ensures a * c >= b * c ==> a >= b
    ensures a * c > b * c ==> a > b
  {
    if a < b { MulGt(b, a, c); }
  }

  lemma {:induction false} RankedIsTransitive(a: Entry, b: Entry, c: Entry)
    requires RankedLe(a, b) && RankedLe(b, c)
    ensures RankedLe(a, c)
  {
    DenserTransitive(a.samples, Padded(a), b.samples, Padded(b), c.samples, Padded(c));
    if !Denser(a, b) && !Denser(b, c) {
      DenserTransitive(c.samples, Padded(c), b.samples, Padded(b), a.samples, Padded(a));
      NameLeTransitive(a.name, b.name, c.name);
    }
  }

  lemma {:induction false} RankingIsAnOrder()
    ensures TotalPreorder(RankedLe)
  {
    forall a, b ensures RankedLe(a, b) || RankedLe(b, a) { NameLeTotal(a.name, b.name); }
    forall a, b, c | RankedLe(a, b) && RankedLe(b, c) ensures RankedLe(a, c) { RankedIsTransitive(a, b, c); }
  }

  function Ranked(entries: seq<Entry>): seq<Entry> {
    Sort(RankedLe, entries)
  }

  // ----- selections -----

  /** A selection marks the entries it takes. */
  function Select(xs: seq<Entry>, mask: seq<bool>): seq<Entry>
    requires |mask| == |xs|
  {
    if xs == [] then [] else (if mask[0] then [xs[0]] else []) + Select(xs[1..], mask[1..])
  }

  function Samples(xs: seq<Entry>): nat {
    if xs == [] then 0 else xs[0].samples + Samples(xs[1..])
  }

  function Size(xs: seq<Entry>): nat {
    if xs == [] then 0 else xs[0].size + Size(xs[1..])
  }

  function PaddedSize(xs: seq<Entry>): nat {
    if xs == [] then 0 else Padded(xs[0]) + PaddedSize(xs[1..])
  }

  /** Sorting does not change what can be selected. */
  lemma {:induction false} SelectAcrossInsert(x: Entry, b: bool, xs: seq<Entry>, mask: seq<bool>) returns (m: seq<bool>)
    requires |mask| == |xs|
    ensures var ys := Insert(RankedLe, x, xs);
            && |m| == |ys|
            && Samples(Select(ys, m)) == Samples(Select([x] + xs, [b] + mask))
            && PaddedSize(Select(ys, m)) == PaddedSize(Select([x] + xs, [b] + mask))
  {
    assert ([x] + xs)[1..] == xs && ([b] + mask)[1..] == mask;
    if xs == [] || RankedLe(x, xs[0]) {
      m := [b] + mask;
    } else {
      var tail := Insert(RankedLe, x, xs[1..]);
      var m' := SelectAcrossInsert(x, b, xs[1..], mask[1..]);
      m := [mask[0]] + m';
      assert ([xs[0]] + tail)[1..] == tail && m[1..] == m';
      assert ([x] + xs[1..])[1..] == xs[1..] && ([b] + mask[1..])[1..] == mask[1..];
      SumOfHead(mask[0], xs[0], Select(tail, m'));
      SumOfHead(b, x, Select(xs, mask));
      SumOfHead(b, x, Select(xs[1..], mask[1..]));
      SumOfHead(mask[0], xs[0], Select(xs[1..], mask[1..]));
    }
  }

  lemma {:induction false} SumOfHead(b: bool, x: Entry, rest: seq<Entry>)
    ensures Samples((if b then [x] else []) + rest) == (if b then x.samples else 0) + Samples(rest)
    ensures PaddedSize((if b then [x] else []) + rest) == (if b then Padded(x) else 0) + PaddedSize(rest)
    ensures Size((if b then [x] else []) + rest) == (if b then x.size else 0) + Size(rest)
  {
    if b { assert ([x] + rest)[1..] == rest; } else { assert [] + rest == rest; }
  }

  lemma {:induction false} SelectAcrossSort(xs: seq<Entry>, mask: seq<bool>) returns (m: seq<bool>)
    requires |mask| == |xs|
    ensures |m| == |Ranked(xs)|
    ensures Samples(Select(Ranked(xs), m)) == Samples(Select(xs, mask))
    ensures PaddedSize(Select(Ranked(xs), m)) == PaddedSize(Select(xs, mask))
  {
    if xs == [] {
      m := [];
    } else {
      var m' := SelectAcrossSort(xs[1..], mask[1..]);
      var tail := Ranked(xs[1..]);
      m := SelectAcrossInsert(xs[0], mask[0], tail, m');
      assert ([xs[0]] + tail)[1..] == tail && ([mask[0]] + m')[1..] == m';
      SumOfHead(mask[0], xs[0], Select(tail, m'));
      SumOfHead(mask[0], xs[0], Select(xs[1..], mask[1..]));
    }
  }

  // ----- the greedy choice -----

  /** Which of the ranked entries the loop takes when `used` bytes are gone. */
  function Greedy(xs: seq<Entry>, budget: int, used: nat): (mask: seq<bool>)
    ensures |mask| == |xs|
  {
    if xs == [] then []
    else if used + xs[0].size > budget then [false] + Greedy(xs[1..], budget, used)
    else [true] + Greedy(xs[1..], budget, used + xs[0].size)
  }

  /** What the loop takes of `xs`, in order, when `used` bytes are gone. */
  function Taken(xs: seq<Entry>, budget: int, used: nat): seq<Entry> {
    Select(xs, Greedy(xs, budget, used))
  }

  /** What is chosen from a profile. */
  function Choice(entries: seq<Entry>, budget: int): seq<Entry> {
    Taken(Ranked(entries), budget, 0)
  }

  method Choose(entries: seq<Entry>, budget: int) returns (chosen: seq<Entry>)
    ensures chosen == Choice(entries, budget)
    ensures budget >= 0 ==> Size(chosen) <= budget
  {
    var ranked := Ranked(entries);
    var used: nat := 0;
    chosen := [];
    for i := 0 to |ranked|
      invariant chosen + Taken(ranked[i..], budget, used) == Taken(ranked, budget, 0)
    {
      var e := ranked[i];
      assert ranked[i..] == [e] + ranked[i + 1..];
      GreedyStep(e, ranked[i + 1..], budget, used, chosen);
      if used + e.size > budget { continue; }
      used := used + e.size;
      chosen := chosen + [e];
    }
    if budget >= 0 { GreedyFits(ranked, budget, 0); }
  }

  /** Taking or skipping one entry leaves the choice as a whole the same. */
  lemma {:induction false} GreedyStep(e: Entry, rest: seq<Entry>, budget: int, used: nat, chosen: seq<Entry>)
    ensures chosen + Taken([e] + rest, budget, used) ==
            if used + e.size > budget then chosen + Taken(rest, budget, used)
            else (chosen + [e]) + Taken(rest, budget, used + e.size)
  {
    var take := used + e.size <= budget;
    var g := Greedy(rest, budget, if take then used + e.size else used);
    assert ([e] + rest)[1..] == rest && ([take] + g)[1..] == g;
    assert Greedy([e] + rest, budget, used) == [take] + g;
    assert take ==> chosen + ([e] + Select(rest, g)) == (chosen + [e]) + Select(rest, g);
    assert !take ==> [] + Select(rest, g) == Select(rest, g);
  }

  /** The choice fits, and grows from `used`. */
  lemma {:induction false} GreedyFits(xs: seq<Entry>, budget: int, used: nat)
    requires used <= budget
    ensures used + Size(Taken(xs, budget, used)) <= budget
  {
    if xs != [] {
      var take := used + xs[0].size <= budget;
      var used' := if take then used + xs[0].size else used;
      GreedyFits(xs[1..], budget, used');
      var g := Greedy(xs[1..], budget, used');
      assert Greedy(xs, budget, used) == [take] + g && ([take] + g)[1..] == g;
      SumOfHead(take, xs[0], Select(xs[1..], g));
    }
  }

  /** Nothing skipped would still fit next to the final choice. */
  lemma {:induction false} NothingSkippedFits(xs: seq<Entry>, budget: int, used: nat, i: nat)
    requires i < |xs| && !Greedy(xs, budget, used)[i]
    ensures used + Size(Taken(xs, budget, used)) + xs[i].size > budget
  {
    var take := used + xs[0].size <= budget;
    var used' := if take then used + xs[0].size else used;
    var g := Greedy(xs[1..], budget, used');
    assert Greedy(xs, budget, used) == [take] + g && ([take] + g)[1..] == g;
    SumOfHead(take, xs[0], Select(xs[1..], g));
    if i > 0 {
      NothingSkippedFits(xs[1..], budget, used', i - 1);
    }
  }

  /** The first entry the loop skips, or the end of the list. */
  function FirstSkipped(xs: seq<Entry>, budget: int, used: nat): (k: nat)
    ensures k <= |xs|
  {
    if xs == [] || used + xs[0].size > budget then 0
    else 1 + FirstSkipped(xs[1..], budget, used + xs[0].size)
  }

  lemma {:induction false} BeforeFirstSkipped(xs: seq<Entry>, budget: int, used: nat)
    ensures var k := FirstSkipped(xs, budget, used);
            && Samples(Taken(xs, budget, used)) >= Samples(xs[..k])
            && (k < |xs| ==> used + Size(xs[..k]) + xs[k].size > budget)
  {
    var k := FirstSkipped(xs, budget, used);
    if k == 0 {
      assert Samples(xs[..0]) == 0 && Size(xs[..0]) == 0;
    } else {
      var used' := used + xs[0].size;
      BeforeFirstSkipped(xs[1..], budget, used');
      var g := Greedy(xs[1..], budget, used');
      assert Greedy(xs, budget, used)[1..] == g;
      SumOfHead(true, xs[0], Select(xs[1..], g));
      assert xs[..k][1..] == xs[1..][..k - 1];
    }
  }

  // ----- no selection beats the choice plus the first skipped -----

  lemma Distribute(a: int, b: int, c: int)
    ensures (a + b) * c == a * c + b * c && c * (a + b) == c * a + c * b
  {
  }

  ghost predicate AllDenser(xs: seq<Entry>, e: Entry) {
    forall i :: 0 <= i < |xs| ==> xs[i].samples * Padded(e) >= e.samples * Padded(xs[i])
  }

  ghost predicate NoneDenser(xs: seq<Entry>, e: Entry) {
    forall i :: 0 <= i < |xs| ==> xs[i].samples * Padded(e) <= e.samples * Padded(xs[i])
  }

  /** What a selection leaves out of dense entries is worth at least `e`'s ratio. */
  lemma {:induction false} LeftOutIsDense(xs: seq<Entry>, mask: seq<bool>, e: Entry)
    requires |mask| == |xs| && AllDenser(xs, e)
    ensures (Samples(xs) - Samples(Select(xs, mask))) * Padded(e) >=
            e.samples * (PaddedSize(xs) - PaddedSize(Select(xs, mask)))
  {
    if xs != [] {
      LeftOutIsDense(xs[1..], mask[1..], e);
      SumOfHead(mask[0], xs[0], Select(xs[1..], mask[1..]));
      var s, p := Samples(xs[1..]) - Samples(Select(xs[1..], mask[1..])),
                  PaddedSize(xs[1..]) - PaddedSize(Select(xs[1..], mask[1..]));
      if !mask[0] {
        Distribute(xs[0].samples, s, Padded(e));
        Distribute(Padded(xs[0]), p, e.samples);
      }
    }
  }

  /** What a selection takes of thin entries is worth at most `e`'s ratio. */
  lemma {:induction false} TakenIsThin(xs: seq<Entry>, mask: seq<bool>, e: Entry)
    requires |mask| == |xs| && NoneDenser(xs, e)
    ensures Samples(Select(xs, mask)) * Padded(e) <= e.samples * PaddedSize(Select(xs, mask))
  {
    if xs != [] {
      TakenIsThin(xs[1..], mask[1..], e);
      SumOfHead(mask[0], xs[0], Select(xs[1..], mask[1..]));
      var s, p := Samples(Select(xs[1..], mask[1..])), PaddedSize(Select(xs[1..], mask[1..]));
      if mask[0] {
        Distribute(xs[0].samples, s, Padded(e));
        Distribute(Padded(xs[0]), p, e.samples);
      }
    }
  }

  lemma {:induction false} SelectSplit(xs: seq<Entry>, mask: seq<bool>, k: nat)
    requires |mask| == |xs| && k <= |xs|
    ensures Samples(Select(xs, mask)) == Samples(Select(xs[..k], mask[..k])) + Samples(Select(xs[k..], mask[k..]))
    ensures PaddedSize(Select(xs, mask)) ==
            PaddedSize(Select(xs[..k], mask[..k])) + PaddedSize(Select(xs[k..], mask[k..]))
  {
    if k == 0 {
      assert xs[..0] == [] && xs[0..] == xs && mask[0..] == mask;
    } else {
      SelectSplit(xs[1..], mask[1..], k - 1);
      assert xs[..k][1..] == xs[1..][..k - 1] && mask[..k][1..] == mask[1..][..k - 1];
      assert xs[1..][k - 1..] == xs[k..] && mask[1..][k - 1..] == mask[k..];
      SumOfHead(mask[0], xs[0], Select(xs[1..], mask[1..]));
      SumOfHead(mask[0], xs[0], Select(xs[1..][..k - 1], mask[1..][..k - 1]));
    }
  }

  lemma {:induction false} SelectAtMostAll(xs: seq<Entry>, mask: seq<bool>)
    requires |mask| == |xs|
    ensures Samples(Select(xs, mask)) <= Samples(xs) && PaddedSize(Select(xs, mask)) <= PaddedSize(xs)
  {
    if xs != [] {
      SelectAtMostAll(xs[1..], mask[1..]);
      SumOfHead(mask[0], xs[0], Select(xs[1..], mask[1..]));
    }
  }

  /** If the dense head is heavier than a selection, the selection is worth no more than the head. */
  lemma {:induction false} HeadBeatsSelection(head: seq<Entry>, tail: seq<Entry>, e: Entry, h: seq<bool>, t: seq<bool>)
    requires |h| == |head| && |t| == |tail| && AllDenser(head, e) && NoneDenser(tail, e)
    requires PaddedSize(Select(head, h)) + PaddedSize(Select(tail, t)) <= PaddedSize(head)
    ensures Samples(Select(head, h)) + Samples(Select(tail, t)) <= Samples(head)
  {
    LeftOutIsDense(head, h, e);
    TakenIsThin(tail, t, e);
    SelectAtMostAll(head, h);
    Exchange(Samples(head) - Samples(Select(head, h)), PaddedSize(head) - PaddedSize(Select(head, h)),
             Samples(Select(tail, t)), PaddedSize(Select(tail, t)), e.samples, Padded(e));
  }

  /** Giving up `room` at no less than the ratio `x / p` for `weight` at no more gains nothing. */
  lemma {:induction false} Exchange(lost: nat, room: nat, taken: nat, weight: nat, x: nat, p: nat)
    requires p > 0 && weight <= room && lost * p >= x * room && taken * p <= x * weight
    ensures taken <= lost
  {
    MulGe(room, weight, x);
    assert x * weight == weight * x && x * room == room * x;
    CancelGe(lost, taken, p);
  }

  lemma {:induction false} SizeIsAtMostPadded(xs: seq<Entry>)
    ensures Size(xs) <= PaddedSize(xs)
  {
    if xs != [] { SizeIsAtMostPadded(xs[1..]); }
  }

  lemma {:induction false} HeadSums(xs: seq<Entry>, k: nat)
    requires k < |xs|
    ensures Samples(xs[..k + 1]) == Samples(xs[..k]) + xs[k].samples
    ensures PaddedSize(xs[..k + 1]) == PaddedSize(xs[..k]) + Padded(xs[k])
  {
    if k == 0 {
      assert xs[..1][1..] == [] && xs[..0] == [];
    } else {
      HeadSums(xs[1..], k - 1);
      assert xs[..k + 1][1..] == xs[1..][..k] && xs[..k][1..] == xs[1..][..k - 1];
    }
  }

  lemma {:induction false} RankedSplits(xs: seq<Entry>, k: nat)
    requires SortedBy(RankedLe, xs) && k < |xs|
    ensures AllDenser(xs[..k + 1], xs[k]) && NoneDenser(xs[k + 1..], xs[k])
  {
    var head, tail := xs[..k + 1], xs[k + 1..];
    forall i | 0 <= i < |head| ensures head[i].samples * Padded(xs[k]) >= xs[k].samples * Padded(head[i]) {
      if i < k { assert RankedLe(xs[i], xs[k]); }
    }
    forall i | 0 <= i < |tail| ensures tail[i].samples * Padded(xs[k]) <= xs[k].samples * Padded(tail[i]) {
      assert RankedLe(xs[k], xs[k + 1 + i]);
    }
  }

  /** Samples of the choice. */
  function GreedySamples(entries: seq<Entry>, budget: int): nat {
    Samples(Choice(entries, budget))
  }

  /** Samples of the first skipped entry; none if nothing was skipped. */
  function SkippedSamples(entries: seq<Entry>, budget: int): nat {
    var xs := Ranked(entries);
    var k := FirstSkipped(xs, budget, 0);
    if k < |xs| then xs[k].samples else 0
  }

  lemma {:induction false} RankedBound(xs: seq<Entry>, budget: int, mask: seq<bool>)
    requires SortedBy(RankedLe, xs) && |mask| == |xs| && PaddedSize(Select(xs, mask)) <= budget
    ensures var k := FirstSkipped(xs, budget, 0);
            Samples(Select(xs, mask)) <=
            Samples(Taken(xs, budget, 0)) + if k < |xs| then xs[k].samples else 0
  {
    var k := FirstSkipped(xs, budget, 0);
    BeforeFirstSkipped(xs, budget, 0);
    if k == |xs| {
      assert xs[..k] == xs;
      SelectAtMostAll(xs, mask);
    } else {
      RankedSplits(xs, k);
      HeadSums(xs, k);
      SizeIsAtMostPadded(xs[..k]);
      SelectSplit(xs, mask, k + 1);
      HeadBeatsSelection(xs[..k + 1], xs[k + 1..], xs[k], mask[..k + 1], mask[k + 1..]);
    }
  }

  /** The greedy bound: any selection whose padded size fits has at most the samples of the choice plus
      those of the first function skipped. */
  lemma {:induction false} GreedyBound(entries: seq<Entry>, budget: int, mask: seq<bool>)
    requires |mask| == |entries| && PaddedSize(Select(entries, mask)) <= budget
    ensures Samples(Select(entries, mask)) <= GreedySamples(entries, budget) + SkippedSamples(entries, budget)
  {
    RankingIsAnOrder();
    SortIsSorted(RankedLe, entries);
    var m := SelectAcrossSort(entries, mask);
    RankedBound(Ranked(entries), budget, m);
  }

  /** When every function has at least 16 bytes, padding changes nothing: the bound holds for every
      selection that fits. */
  lemma {:induction false} GreedyBoundAboveFloor(entries: seq<Entry>, budget: int, mask: seq<bool>)
    requires |mask| == |entries| && Size(Select(entries, mask)) <= budget
    requires forall i :: 0 <= i < |entries| ==> entries[i].size >= FLOOR
    ensures Samples(Select(entries, mask)) <= GreedySamples(entries, budget) + SkippedSamples(entries, budget)
  {
    PaddingIsVoid(entries, mask);
    GreedyBound(entries, budget, mask);
  }

  lemma {:induction false} PaddingIsVoid(entries: seq<Entry>, mask: seq<bool>)
    requires |mask| == |entries| && forall i :: 0 <= i < |entries| ==> entries[i].size >= FLOOR
    ensures PaddedSize(Select(entries, mask)) == Size(Select(entries, mask))
  {
    if entries != [] {
      PaddingIsVoid(entries[1..], mask[1..]);
      SumOfHead(mask[0], entries[0], Select(entries[1..], mask[1..]));
    }
  }

  // ----- 16 bytes is the exact threshold -----

  /** The bound, against every selection that fits, for every profile of functions of at least `least`
      bytes and every budget. */
  ghost predicate BoundHoldsFrom(least: nat) {
    forall entries: seq<Entry>, budget: int, mask: seq<bool> ::
      AllAtLeast(entries, least) && |mask| == |entries| && Size(Select(entries, mask)) <= budget ==>
        Samples(Select(entries, mask)) <= GreedySamples(entries, budget) + SkippedSamples(entries, budget)
  }

  predicate AllAtLeast(entries: seq<Entry>, least: nat) {
    forall i :: 0 <= i < |entries| ==> entries[i].size >= least
  }

  const LARGE: Entry := Entry(61, 480, "large")
  const SMALL: Entry := Entry(2, 15, "small")

  function Many(n: nat): seq<Entry> {
    if n == 0 then [] else [SMALL] + Many(n - 1)
  }

  function All(n: nat, b: bool): (mask: seq<bool>)
    ensures |mask| == n
  {
    if n == 0 then [] else [b] + All(n - 1, b)
  }

  /** Small functions are ranked as they come. */
  lemma {:induction false} ManyAreRanked(n: nat)
    ensures |Many(n)| == n && (n > 0 ==> Many(n)[0] == SMALL)
    ensures Ranked(Many(n)) == Many(n) && AllAtLeast(Many(n), 15)
  {
    if n > 0 {
      ManyAreRanked(n - 1);
      assert Many(n)[1..] == Many(n - 1);
      NameLeTotal(SMALL.name, SMALL.name);
    }
  }

  /** Together they have 2 samples and 15 bytes each. */
  lemma {:induction false} ManyTogether(n: nat)
    ensures |Many(n)| == n
    ensures Samples(Select(Many(n), All(n, true))) == 2 * n && Size(Select(Many(n), All(n, true))) == 15 * n
  {
    if n > 0 {
      ManyTogether(n - 1);
      assert Many(n)[1..] == Many(n - 1) && All(n, true)[1..] == All(n - 1, true);
      SumOfHead(true, SMALL, Select(Many(n - 1), All(n - 1, true)));
    }
  }

  /** Once the budget is gone, they are all skipped. */
  lemma {:induction false} ManySkipped(n: nat, budget: nat)
    ensures |Many(n)| == n
    ensures Greedy(Many(n), budget, budget) == All(n, false) && Samples(Select(Many(n), All(n, false))) == 0
  {
    if n > 0 {
      ManySkipped(n - 1, budget);
      assert Many(n)[1..] == Many(n - 1) && All(n, false)[1..] == All(n - 1, false);
      SumOfHead(false, SMALL, Select(Many(n - 1), All(n - 1, false)));
    }
  }

  function Profile(n: nat): seq<Entry> {
    [LARGE] + Many(n)
  }

  lemma {:induction false} ProfileIsRanked(n: nat)
    requires n > 0
    ensures Ranked(Profile(n)) == Profile(n) && AllAtLeast(Profile(n), 15)
  {
    ManyAreRanked(n);
    assert Profile(n)[1..] == Many(n) && Denser(LARGE, SMALL);
  }

  /** With a budget of its size, the large function is all that is chosen. */
  lemma {:induction false} ProfileChoice(n: nat, budget: nat)
    requires n > 0 && budget == LARGE.size
    ensures GreedySamples(Profile(n), budget) == 61 && SkippedSamples(Profile(n), budget) == 2
  {
    var xs, many, none := Profile(n), Many(n), All(n, false);
    ProfileIsRanked(n);
    ManySkipped(n, budget);
    assert xs[1..] == many && many[0] == SMALL;
    assert Greedy(xs, budget, 0) == [true] + none && ([true] + none)[1..] == none;
    SumOfHead(true, LARGE, Select(many, none));
    assert FirstSkipped(many, budget, budget) == 0;
  }

  lemma {:induction false} ProfileSelection(n: nat) returns (mask: seq<bool>)
    ensures |mask| == |Profile(n)|
    ensures Size(Select(Profile(n), mask)) == 15 * n && Samples(Select(Profile(n), mask)) == 2 * n
  {
    mask := [false] + All(n, true);
    ManyTogether(n);
    assert Profile(n)[1..] == Many(n) && mask[1..] == All(n, true);
    SumOfHead(false, LARGE, Select(Many(n), All(n, true)));
  }

  /** Thirty-two functions of 15 bytes fill the budget of 480 with 64 samples; the choice takes the one
      function of 480 bytes with 61 and skips them all. */
  lemma {:induction false} FifteenBytesBeatTheBound()
    ensures !BoundHoldsFrom(15)
  {
    var n: nat :| n == 32;
    var budget := LARGE.size;
    ProfileIsRanked(n);
    ProfileChoice(n, budget);
    var mask := ProfileSelection(n);
    assert AllAtLeast(Profile(n), 15) && Size(Select(Profile(n), mask)) <= budget;
  }

  lemma {:induction false} LargerIsWeaker(least: nat, more: nat)
    requires BoundHoldsFrom(least) && least <= more
    ensures BoundHoldsFrom(more)
  {
    forall entries: seq<Entry>, budget: int, mask: seq<bool> |
      AllAtLeast(entries, more) && |mask| == |entries| && Size(Select(entries, mask)) <= budget
      ensures Samples(Select(entries, mask)) <= GreedySamples(entries, budget) + SkippedSamples(entries, budget)
    {
      assert AllAtLeast(entries, least);
    }
  }

  /** The bound holds for all profiles of functions of at least `least` bytes exactly from 16 bytes on. */
  lemma {:induction false} BoundHoldsExactlyFromFloor(least: nat)
    ensures BoundHoldsFrom(least) <==> least >= FLOOR
  {
    if least >= FLOOR {
      forall entries: seq<Entry>, budget: int, mask: seq<bool> |
        AllAtLeast(entries, least) && |mask| == |entries| && Size(Select(entries, mask)) <= budget
        ensures Samples(Select(entries, mask)) <= GreedySamples(entries, budget) + SkippedSamples(entries, budget)
      {
        GreedyBoundAboveFloor(entries, budget, mask);
      }
    } else {
      if BoundHoldsFrom(least) {
        LargerIsWeaker(least, 15);
        FifteenBytesBeatTheBound();
      }
    }
  }
}
