/** Painting one section: first the section's own claim, then its symbols, compiler-merged containers
    before the rest and the rest from largest to smallest. So a byte that regular symbols cover
    belongs to one of the smallest of them. */
module RamSections {
  import opened Options
  import opened RamLayout
  import opened RamPainter
  import opened StableSort

  datatype Symbol = Symbol(name: string, lo: int, size: nat, claim: Claim)

  const MERGED: string := ".L_MergedGlobals"

  predicate IsContainer(y: Symbol) {
    MERGED <= y.name
  }

  /** The names of the compiler's merged globals start that way, and no others do. */
  lemma ContainersAreMerged(y: Symbol)
    ensures IsContainer(y) <==> |y.name| >= 16 && y.name[..16] == ".L_MergedGlobals"
  {
  }

  predicate CoversByte(y: Symbol, a: int) {
    Within(a, y.lo, y.lo + y.size)
  }

  function Containers(ys: seq<Symbol>): seq<Symbol> {
    if ys == [] then [] else (if IsContainer(ys[0]) then [ys[0]] else []) + Containers(ys[1..])
  }

  function Regular(ys: seq<Symbol>): seq<Symbol> {
    if ys == [] then [] else (if IsContainer(ys[0]) then [] else [ys[0]]) + Regular(ys[1..])
  }

  predicate LargerFirst(a: Symbol, b: Symbol) {
    a.size >= b.size
  }

  function PaintOrder(ys: seq<Symbol>): seq<Symbol> {
    Containers(ys) + Sort(LargerFirst, Regular(ys))
  }

  // ----- painting in order -----

  function PaintAll(look: View, addrs: seq<int>, ys: seq<Symbol>): (r: View)
    requires |look| == |addrs|
    ensures |r| == |look|
  {
    if ys == [] then look else
    var n := |ys| - 1;
    Overlay(PaintAll(look, addrs, ys[..n]), addrs, ys[n].lo, ys[n].lo + ys[n].size, Some(ys[n].claim))
  }

  /** `i` is the last symbol of `ys` that covers the address. */
  ghost predicate LastCovering(ys: seq<Symbol>, a: int, i: int) {
    && -1 <= i < |ys|
    && (i >= 0 ==> CoversByte(ys[i], a))
    && forall j :: i < j < |ys| ==> !CoversByte(ys[j], a)
  }

  /** The last covering symbol wins; without one the byte keeps its claim. */
  lemma {:induction false} LastPaintWins(look: View, addrs: seq<int>, ys: seq<Symbol>, pos: nat) returns (i: int)
    requires |look| == |addrs| && pos < |addrs|
    ensures LastCovering(ys, addrs[pos], i)
    ensures PaintAll(look, addrs, ys)[pos] == if i < 0 then look[pos] else Some(ys[i].claim)
  {
    if ys == [] {
      i := -1;
    } else {
      var n := |ys| - 1;
      if CoversByte(ys[n], addrs[pos]) {
        i := n;
      } else {
        i := LastPaintWins(look, addrs, ys[..n], pos);
      }
    }
  }

  // ----- who ends up with a byte -----

  ghost predicate Smallest(ys: seq<Symbol>, a: int, y: Symbol) {
    && y in ys && !IsContainer(y) && CoversByte(y, a)
    && forall z :: z in ys && !IsContainer(z) && CoversByte(z, a) ==> y.size <= z.size
  }

  ghost predicate CoveredBy(ys: seq<Symbol>, a: int, container: bool) {
    exists y :: y in ys && IsContainer(y) == container && CoversByte(y, a)
  }

  /** Symbol `k` is the smallest regular one that covers the address, of equal ones the last listed. */
  ghost predicate LastSmallest(ys: seq<Symbol>, a: int, k: nat) {
    && k < |ys| && !IsContainer(ys[k]) && CoversByte(ys[k], a)
    && forall j :: 0 <= j < |ys| && !IsContainer(ys[j]) && CoversByte(ys[j], a) ==>
         ys[k].size < ys[j].size || (ys[k].size == ys[j].size && j <= k)
  }

  /** Symbol `k` is the last listed container that covers the address. */
  ghost predicate LastContainer(ys: seq<Symbol>, a: int, k: nat) {
    && k < |ys| && IsContainer(ys[k]) && CoversByte(ys[k], a)
    && forall j :: k < j < |ys| && IsContainer(ys[j]) ==> !CoversByte(ys[j], a)
  }

  /** A byte that regular symbols cover belongs to the smallest of them, of equal ones to the last listed;
      one that only containers cover belongs to the last listed of those; any other keeps the section's
      claim. */
  ghost predicate Owned(ys: seq<Symbol>, a: int, was: Option<Claim>, now: Option<Claim>) {
    if CoveredBy(ys, a, false) then exists k: nat :: LastSmallest(ys, a, k) && now == Some(ys[k].claim)
    else if CoveredBy(ys, a, true) then exists k: nat :: LastContainer(ys, a, k) && now == Some(ys[k].claim)
    else now == was
  }

  // ----- the last of several -----

  /** Which symbols are looked at: all, the containers, or the regular ones of one size. */
  datatype Kind = Any | Merged | Sized(n: nat)

  predicate Matches(y: Symbol, a: int, kind: Kind) {
    && CoversByte(y, a)
    && match kind
       case Any => true
       case Merged => IsContainer(y)
       case Sized(n) => !IsContainer(y) && y.size == n
  }

  /** The claim of the last one that covers the address. */
  function Latest(ys: seq<Symbol>, a: int, kind: Kind): Option<Claim> {
    if ys == [] then None
    else if Matches(ys[|ys| - 1], a, kind) then Some(ys[|ys| - 1].claim)
    else Latest(ys[..|ys| - 1], a, kind)
  }

  lemma {:induction false} LatestAppend(x: seq<Symbol>, y: seq<Symbol>, a: int, kind: Kind)
    ensures Latest(x + y, a, kind) == if Latest(y, a, kind).Some? then Latest(y, a, kind) else Latest(x, a, kind)
  {
    if y == [] {
      assert x + y == x;
    } else {
      assert (x + y)[..|x + y| - 1] == x + y[..|y| - 1];
      LatestAppend(x, y[..|y| - 1], a, kind);
    }
  }

  lemma {:induction false} LatestFirst(y: Symbol, rest: seq<Symbol>, a: int, kind: Kind)
    ensures Latest([y] + rest, a, kind) ==
            if Latest(rest, a, kind).Some? then Latest(rest, a, kind)
            else if Matches(y, a, kind) then Some(y.claim) else None
  {
    LatestAppend([y], rest, a, kind);
    assert Latest([y][..0], a, kind) == None;
  }

  /** With nothing later that matches, the last match is the latest. */
  lemma {:induction false} LatestAt(ys: seq<Symbol>, a: int, kind: Kind, i: nat)
    requires i < |ys| && Matches(ys[i], a, kind) && forall j :: i < j < |ys| ==> !Matches(ys[j], a, kind)
    ensures Latest(ys, a, kind) == Some(ys[i].claim)
  {
    if i < |ys| - 1 { LatestAt(ys[..|ys| - 1], a, kind, i); }
  }

  lemma {:induction false} LatestIndex(ys: seq<Symbol>, a: int, kind: Kind) returns (k: nat)
    requires Latest(ys, a, kind).Some?
    ensures k < |ys| && Matches(ys[k], a, kind) && Latest(ys, a, kind) == Some(ys[k].claim)
    ensures forall j :: k < j < |ys| ==> !Matches(ys[j], a, kind)
  {
    var n := |ys| - 1;
    if Matches(ys[n], a, kind) { k := n; } else { k := LatestIndex(ys[..n], a, kind); }
  }

  lemma {:induction false} LatestOfContainers(ys: seq<Symbol>, a: int)
    ensures Latest(Containers(ys), a, Any) == Latest(ys, a, Merged)
  {
    if ys != [] {
      LatestOfContainers(ys[1..], a);
      assert ys == [ys[0]] + ys[1..];
      LatestFirst(ys[0], ys[1..], a, Merged);
      if IsContainer(ys[0]) {
        LatestFirst(ys[0], Containers(ys[1..]), a, Any);
      } else {
        assert [] + Containers(ys[1..]) == Containers(ys[1..]);
      }
    }
  }

  lemma {:induction false} LatestOfRegular(ys: seq<Symbol>, a: int, n: nat)
    ensures Latest(Regular(ys), a, Sized(n)) == Latest(ys, a, Sized(n))
  {
    if ys != [] {
      LatestOfRegular(ys[1..], a, n);
      assert ys == [ys[0]] + ys[1..];
      LatestFirst(ys[0], ys[1..], a, Sized(n));
      if IsContainer(ys[0]) {
        assert [] + Regular(ys[1..]) == Regular(ys[1..]);
      } else {
        LatestFirst(ys[0], Regular(ys[1..]), a, Sized(n));
      }
    }
  }

  lemma {:induction false} LatestOfTies(k: Symbol, ys: seq<Symbol>, a: int)
    ensures Latest(Ties(LargerFirst, k, ys), a, Sized(k.size)) == Latest(ys, a, Sized(k.size))
  {
    if ys != [] {
      LatestOfTies(k, ys[1..], a);
      assert ys == [ys[0]] + ys[1..];
      LatestFirst(ys[0], ys[1..], a, Sized(k.size));
      if ys[0].size == k.size {
        LatestFirst(ys[0], Ties(LargerFirst, k, ys[1..]), a, Sized(k.size));
      } else {
        assert [] + Ties(LargerFirst, k, ys[1..]) == Ties(LargerFirst, k, ys[1..]);
      }
    }
  }

  /** Sorting keeps the order of symbols of one size, so the last of them stays the last. */
  lemma {:induction false} LatestOfSorted(k: Symbol, ys: seq<Symbol>, a: int)
    ensures Latest(Sort(LargerFirst, Regular(ys)), a, Sized(k.size)) == Latest(ys, a, Sized(k.size))
  {
    SortIsStable(LargerFirst, Regular(ys), k);
    LatestOfTies(k, Sort(LargerFirst, Regular(ys)), a);
    LatestOfTies(k, Regular(ys), a);
    LatestOfRegular(ys, a, k.size);
  }

  lemma {:induction false} PartsOf(ys: seq<Symbol>)
    ensures forall y :: y in Containers(ys) <==> y in ys && IsContainer(y)
    ensures forall y :: y in Regular(ys) <==> y in ys && !IsContainer(y)
  {
    if ys != [] {
      PartsOf(ys[1..]);
      assert ys == [ys[0]] + ys[1..];
    }
  }

  lemma {:induction false} SortKeepsMembers(ys: seq<Symbol>)
    ensures SortedBy(LargerFirst, Sort(LargerFirst, ys))
    ensures forall y :: y in Sort(LargerFirst, ys) <==> y in ys
  {
    SortIsSorted(LargerFirst, ys);
    var r := Sort(LargerFirst, ys);
    forall y ensures y in r <==> y in ys {
      assert y in r <==> y in multiset(r);
      assert y in ys <==> y in multiset(ys);
    }
  }

  lemma {:induction false} OwnedAfterPainting(look: View, addrs: seq<int>, ys: seq<Symbol>, pos: nat)
    requires |look| == |addrs| && pos < |addrs|
    ensures Owned(ys, addrs[pos], look[pos], PaintAll(look, addrs, PaintOrder(ys))[pos])
  {
    var a, order := addrs[pos], PaintOrder(ys);
    var m := |Containers(ys)|;
    var rest := Sort(LargerFirst, Regular(ys));
    PartsOf(ys);
    SortKeepsMembers(Regular(ys));
    var i := LastPaintWins(look, addrs, order, pos);
    OwnerOfLast(ys, a, rest, i, look[pos], PaintAll(look, addrs, order)[pos]);
  }

  /** The last symbol painted over a byte is the owner it should have. */
  lemma {:induction false} OwnerOfLast(
    ys: seq<Symbol>, a: int, rest: seq<Symbol>, i: int, was: Option<Claim>, now: Option<Claim>)
    requires rest == Sort(LargerFirst, Regular(ys)) && SortedBy(LargerFirst, rest)
    requires forall y :: y in rest <==> y in ys && !IsContainer(y)
    requires forall y :: y in Containers(ys) <==> y in ys && IsContainer(y)
    requires LastCovering(Containers(ys) + rest, a, i)
    requires now == if i < 0 then was else Some((Containers(ys) + rest)[i].claim)
    ensures Owned(ys, a, was, now)
  {
    var order, m := Containers(ys) + rest, |Containers(ys)|;
    if i >= m {
      LastInRest(Containers(ys), rest, a, i);
      var k := RegularOwner(ys, a, rest, i - m);
    } else {
      NothingRegular(ys, a, rest, order, m, i);
      if i >= 0 { var k := ContainerOwner(ys, a, order, i); }
    }
  }

  lemma {:induction false} LastInRest(front: seq<Symbol>, rest: seq<Symbol>, a: int, i: int)
    requires LastCovering(front + rest, a, i) && i >= |front|
    ensures (front + rest)[i] == rest[i - |front|] && LastCovering(rest, a, i - |front|)
  {
    forall j | i - |front| < j < |rest| ensures !CoversByte(rest[j], a) {
      assert (front + rest)[|front| + j] == rest[j];
    }
  }

  lemma {:induction false} RegularOwner(ys: seq<Symbol>, a: int, rest: seq<Symbol>, i: nat) returns (k: nat)
    requires rest == Sort(LargerFirst, Regular(ys)) && SortedBy(LargerFirst, rest)
    requires forall y :: y in rest <==> y in ys && !IsContainer(y)
    requires i < |rest| && LastCovering(rest, a, i)
    ensures LastSmallest(ys, a, k) && ys[k].claim == rest[i].claim && CoveredBy(ys, a, false)
  {
    var n := rest[i].size;
    LastIsSmallest(ys, a, rest, i);
    LatestAt(rest, a, Sized(n), i);
    LatestOfSorted(rest[i], ys, a);
    k := LatestIndex(ys, a, Sized(n));
    forall j | 0 <= j < |ys| && !IsContainer(ys[j]) && CoversByte(ys[j], a)
      ensures n < ys[j].size || (n == ys[j].size && j <= k)
    {
      assert ys[j] in ys;
      if n == ys[j].size { assert Matches(ys[j], a, Sized(n)); }
    }
  }

  lemma {:induction false} ContainerOwner(ys: seq<Symbol>, a: int, order: seq<Symbol>, i: nat) returns (k: nat)
    requires Containers(ys) <= order && i < |Containers(ys)| && LastCovering(order, a, i)
    ensures LastContainer(ys, a, k) && ys[k].claim == order[i].claim
  {
    var cs := Containers(ys);
    assert forall j :: 0 <= j < |cs| ==> cs[j] == order[j];
    LatestAt(cs, a, Any, i);
    LatestOfContainers(ys, a);
    k := LatestIndex(ys, a, Merged);
    forall j | k < j < |ys| && IsContainer(ys[j]) ensures !CoversByte(ys[j], a) {
      assert !Matches(ys[j], a, Merged);
    }
  }

  lemma {:induction false} LastIsSmallest(ys: seq<Symbol>, a: int, rest: seq<Symbol>, i: nat)
    requires SortedBy(LargerFirst, rest) && (forall y :: y in rest <==> y in ys && !IsContainer(y))
    requires i < |rest| && LastCovering(rest, a, i)
    ensures Smallest(ys, a, rest[i]) && CoveredBy(ys, a, false)
  {
    forall z | z in ys && !IsContainer(z) && CoversByte(z, a) ensures rest[i].size <= z.size {
      assert z in rest;
      var j :| 0 <= j < |rest| && rest[j] == z;
      if j < i { assert LargerFirst(rest[j], rest[i]); }
    }
    assert rest[i] in rest;
  }

  lemma {:induction false} NothingRegular(
    ys: seq<Symbol>, a: int, rest: seq<Symbol>, order: seq<Symbol>, m: nat, i: int)
    requires (forall y :: y in rest <==> y in ys && !IsContainer(y)) && m == |Containers(ys)|
    requires forall y :: y in Containers(ys) <==> y in ys && IsContainer(y)
    requires order == Containers(ys) + rest && LastCovering(order, a, i) && i < m
    ensures !CoveredBy(ys, a, false)
    ensures if i >= 0 then order[i] in ys && IsContainer(order[i]) && CoversByte(order[i], a)
            else !CoveredBy(ys, a, true)
  {
    NoneCovers(order, rest, a, m, i);
    if i >= 0 {
      assert order[i] in Containers(ys);
    } else {
      NoneCovers(order, Containers(ys), a, 0, i);
    }
  }

  /** Nothing after the last covering symbol covers. */
  lemma {:induction false} NoneCovers(order: seq<Symbol>, part: seq<Symbol>, a: int, m: nat, i: int)
    requires LastCovering(order, a, i) && i < m && m + |part| <= |order|
    requires forall j :: 0 <= j < |part| ==> part[j] == order[m + j]
    ensures forall y :: y in part ==> !CoversByte(y, a)
  {
    forall y | y in part ensures !CoversByte(y, a) {
      var j :| 0 <= j < |part| && part[j] == y;
      assert order[m + j] == y;
    }
  }

  // ----- the painter at work -----

  /** Paint a section and its symbols; the number of the section's bytes that lie in a window. */
  method PaintSection(p: Painter, lo: int, hi: int, section: Claim, ys: seq<Symbol>) returns (got: nat)
    requires p.Valid()
    modifies p`claims, p`index, p.claimIds
    ensures p.Valid() && got == CountWithin(p.Addrs(), lo, hi)
    ensures var base := Overlay(old(p.Look()), p.Addrs(), lo, hi, Some(section));
            && p.Look() == PaintAll(base, p.Addrs(), PaintOrder(ys))
            && forall pos :: 0 <= pos < |p.Addrs()| ==> Owned(ys, p.Addrs()[pos], base[pos], p.Look()[pos])
  {
    got := p.PaintClaim(lo, hi, section);
    ghost var base, addrs := p.Look(), p.Addrs();
    PaintSymbols(p, PaintOrder(ys));
    forall pos | 0 <= pos < |addrs| ensures Owned(ys, addrs[pos], base[pos], p.Look()[pos]) {
      OwnedAfterPainting(base, addrs, ys, pos);
    }
  }

  method PaintSymbols(p: Painter, order: seq<Symbol>)
    requires p.Valid()
    modifies p`claims, p`index, p.claimIds
    ensures p.Valid() && p.Look() == PaintAll(old(p.Look()), p.Addrs(), order)
  {
    for i := 0 to |order|
      invariant p.Valid() && p.Look() == PaintAll(old(p.Look()), p.Addrs(), order[..i])
    {
      var y := order[i];
      var _ := p.PaintClaim(y.lo, y.lo + y.size, y.claim);
      assert order[..i + 1][..i] == order[..i];
    }
    assert order[..|order|] == order;
  }
}
