/** The per-byte ownership map. Claims are interned to small numbers (0 means unclaimed), and painting
    writes a number over an address range wherever it lies in a window. What a client sees is `View`,
    the claim of every byte; there the last paint wins and nothing else changes. */
module RamPainter {
  import opened Options
  import opened RamLayout

  datatype Kind = Symbol | Section | Inferred | Fixed | Pad | Idle | Unknown

  datatype Claim = Claim(
    category: string, owner: string, section: string, name: string, size: int, addr: int,
    source: string, family: string, kind: Kind, between: string)

  type View = seq<Option<Claim>>

  /** Paint a claim over an address range of a view. */
  function Overlay<T>(marks: seq<T>, addrs: seq<int>, lo: int, hi: int, c: T): (r: seq<T>)
    requires |marks| == |addrs|
    ensures |r| == |marks|
    ensures forall i :: 0 <= i < |r| ==> r[i] == if Within(addrs[i], lo, hi) then c else marks[i]
  {
    seq(|marks|, i requires 0 <= i < |marks| => if Within(addrs[i], lo, hi) then c else marks[i])
  }

  /** The claims behind the numbers. */
  function Resolve(ids: seq<nat>, claims: seq<Option<Claim>>): (v: View)
    requires forall i :: 0 <= i < |ids| ==> ids[i] < |claims|
    ensures |v| == |ids|
    ensures forall i :: 0 <= i < |ids| ==> v[i] == claims[ids[i]]
  {
    seq(|ids|, i requires 0 <= i < |ids| => claims[ids[i]])
  }

  class Painter {
    const windows: seq<Window>
    const offsets: seq<nat>
    const claimIds: array<nat>
    var claims: seq<Option<Claim>>
    var index: map<Claim, nat>

    ghost predicate Valid()
      reads this, claimIds
    {
      && Proper(windows) && claimIds.Length == |Addresses(windows)|
      && |offsets| == |windows|
      && (forall k :: 0 <= k < |windows| ==> offsets[k] == Offset(windows, k))
      && Interned()
      && forall i :: 0 <= i < claimIds.Length ==> claimIds[i] < |claims|
    }

    /** Number 0 is no claim, every other number is one claim, and each claim has one number. */
    ghost predicate Interned()
      reads this
    {
      && |claims| > 0 && claims[0] == None
      && (forall id :: 0 < id < |claims| ==>
            claims[id].Some? && claims[id].value in index && index[claims[id].value] == id)
      && (forall c :: c in index ==> 0 < index[c] < |claims| && claims[index[c]] == Some(c))
    }

    ghost function Addrs(): seq<int>
      requires Proper(windows)
    {
      Addresses(windows)
    }

    ghost function Look(): (v: View)
      requires Valid()
      reads this, claimIds
      ensures |v| == |Addrs()|
    {
      Resolve(claimIds[..], claims)
    }

    constructor (ws: seq<Window>)
      requires Proper(ws)
      ensures Valid() && windows == InAddressOrder(ws) && fresh(claimIds)
      ensures multiset(windows) == multiset(ws) && StartsAscend(windows)
      ensures forall i :: 0 <= i < |Look()| ==> Look()[i] == None
    {
      SortedWindows(ws);
      var sorted := InAddressOrder(ws);
      var offs: seq<nat> := [];
      var total := 0;
      for k := 0 to |sorted|
        invariant |offs| == k && total == Offset(sorted, k)
        invariant forall j :: 0 <= j < k ==> offs[j] == Offset(sorted, j)
      {
        offs := offs + [total];
        OffsetStep(sorted, k);
        total := total + (sorted[k].hi - sorted[k].lo);
      }
      assert sorted[..|sorted|] == sorted;
      windows, offsets := sorted, offs;
      claimIds := new nat[total](_ => 0);
      claims, index := [None], map[];
    }

    /** The number of a claim, new or known. */
    method Intern(c: Claim) returns (id: nat)
      requires Valid()
      modifies this`claims, this`index
      ensures Valid() && 0 < id < |claims| && claims[id] == Some(c)
      ensures old(claims) <= claims
      ensures c in old(index) ==> claims == old(claims)
      ensures Look() == old(Look())
    {
      if c in index {
        id := index[c];
      } else {
        id := |claims|;
        claims := claims + [Some(c)];
        index := index[c := id];
      }
    }

    /** Claim `[lo, hi)` wherever it lies in a window; the number of bytes painted. */
    method Paint(lo: int, hi: int, id: nat) returns (n: nat)
      requires Valid() && id < |claims|
      modifies claimIds
      ensures Valid()
      ensures claimIds[..] == Overlay(old(claimIds[..]), Addrs(), lo, hi, id)
      ensures Look() == Overlay(old(Look()), Addrs(), lo, hi, claims[id])
      ensures n == CountWithin(Addrs(), lo, hi)
    {
      ghost var before := claimIds[..];
      n := PaintWindows(lo, hi, id);
      assert claimIds[..] == Overlay(before, Addrs(), lo, hi, id);
      OverlayResolves(before, claims, Addrs(), lo, hi, id);
    }

    /** Window after window. */
    method PaintWindows(lo: int, hi: int, id: nat) returns (n: nat)
      requires Valid() && id < |claims|
      modifies claimIds
      ensures forall i :: 0 <= i < claimIds.Length ==>
                claimIds[i] == if Within(Addrs()[i], lo, hi) then id else old(claimIds[i])
      ensures n == CountWithin(Addrs(), lo, hi)
    {
      n := 0;
      ghost var addrs := Addrs();
      for k := 0 to |windows|
        invariant Offset(windows, k) <= claimIds.Length
        invariant forall i :: 0 <= i < claimIds.Length ==>
                    claimIds[i] == if i < Offset(windows, k) && Within(addrs[i], lo, hi) then id else old(claimIds[i])
        invariant n == CountWithin(Addresses(windows[..k]), lo, hi)
      {
        var m := PaintWindow(k, lo, hi, id);
        CountInWindow(windows, k, lo, hi);
        n := n + m;
      }
      assert windows[..|windows|] == windows;
    }

    /** What `AddressIn` says about all bytes of window k. */
    lemma WindowAddresses(k: nat)
      requires Valid() && k < |windows|
      ensures Offset(windows, k + 1) == Offset(windows, k) + (windows[k].hi - windows[k].lo)
      ensures Offset(windows, k + 1) <= claimIds.Length
      ensures forall i :: Offset(windows, k) <= i < Offset(windows, k + 1) ==>
                Addrs()[i] == windows[k].lo + (i - Offset(windows, k))
    {
      OffsetStep(windows, k);
      AddressesGrow(windows, k + 1);
      forall i | Offset(windows, k) <= i < Offset(windows, k + 1)
        ensures Addrs()[i] == windows[k].lo + (i - Offset(windows, k))
      {
        AddressIn(windows, k, i - Offset(windows, k));
      }
    }

    /** Write the part of window k that `[lo, hi)` covers. */
    method PaintWindow(k: nat, lo: int, hi: int, id: nat) returns (m: nat)
      requires Valid() && k < |windows| && id < |claims|
      modifies claimIds
      ensures Offset(windows, k) <= Offset(windows, k + 1) <= claimIds.Length
      ensures forall i :: 0 <= i < claimIds.Length ==>
                claimIds[i] ==
                if Offset(windows, k) <= i < Offset(windows, k + 1) && Within(Addrs()[i], lo, hi) then id
                else old(claimIds[i])
      ensures var a := if lo > windows[k].lo then lo else windows[k].lo;
              var b := if hi < windows[k].hi then hi else windows[k].hi;
              m == if a < b then b - a else 0
    {
      WindowAddresses(k);
      var a := if lo > windows[k].lo then lo else windows[k].lo;
      var b := if hi < windows[k].hi then hi else windows[k].hi;
      if a >= b { return 0; }
      m := b - a;
      var from, to := offsets[k] + (a - windows[k].lo), offsets[k] + (b - windows[k].lo);
      for i := from to to
        invariant forall j :: 0 <= j < claimIds.Length ==>
                    claimIds[j] == if from <= j < i then id else old(claimIds[j])
      {
        claimIds[i] := id;
      }
    }

    /** Intern and paint in one go. */
    method PaintClaim(lo: int, hi: int, c: Claim) returns (n: nat)
      requires Valid()
      modifies this`claims, this`index, claimIds
      ensures Valid() && old(claims) <= claims
      ensures Look() == Overlay(old(Look()), Addrs(), lo, hi, Some(c))
      ensures n == CountWithin(Addrs(), lo, hi)
    {
      var id := Intern(c);
      n := Paint(lo, hi, id);
    }
  }

  lemma {:induction false} OverlayResolves(
    ids: seq<nat>, claims: seq<Option<Claim>>, addrs: seq<int>, lo: int, hi: int, id: nat)
    requires |ids| == |addrs| && id < |claims| && forall i :: 0 <= i < |ids| ==> ids[i] < |claims|
    ensures Resolve(Overlay(ids, addrs, lo, hi, id), claims) ==
            Overlay(Resolve(ids, claims), addrs, lo, hi, claims[id])
  {
  }

  /** The bytes of `[lo, hi)` in window k are the overlap of the two ranges. */
  lemma {:induction false} CountInWindow(ws: seq<Window>, k: nat, lo: int, hi: int)
    requires Proper(ws) && k < |ws|
    ensures var a := if lo > ws[k].lo then lo else ws[k].lo;
            var b := if hi < ws[k].hi then hi else ws[k].hi;
            CountWithin(Addresses(ws[..k + 1]), lo, hi) ==
            CountWithin(Addresses(ws[..k]), lo, hi) + if a < b then b - a else 0
  {
    assert ws[..k + 1][..k] == ws[..k];
    CountSpan(Addresses(ws[..k]), ws[k].lo, ws[k].hi - ws[k].lo, lo, hi);
  }

  lemma {:induction false} CountSpan(pre: seq<int>, start: int, len: nat, lo: int, hi: int)
    ensures var a := if lo > start then lo else start;
            var b := if hi < start + len then hi else start + len;
            CountWithin(pre + seq(len, i => start + i), lo, hi) ==
            CountWithin(pre, lo, hi) + if a < b then b - a else 0
    decreases len
  {
    var s := seq(len, i => start + i);
    if len == 0 {
      assert pre + s == pre;
    } else {
      var t := seq(len - 1, i => start + i);
      CountSpan(pre, start, len - 1, lo, hi);
      assert (pre + s)[..|pre + s| - 1] == pre + t;
      assert (pre + s)[|pre + s| - 1] == start + (len - 1);
    }
  }
}
