/** Addresses of the bytes a painter tracks. The bytes of all windows lie one after the other; the
    sequence of their addresses is the key to everything the painter does. */
module RamLayout {
  import opened StableSort

  datatype Window = Window(lo: int, hi: int)

  predicate Proper(ws: seq<Window>) {
    forall k :: 0 <= k < |ws| ==> ws[k].lo <= ws[k].hi
  }

  /** In address order without overlap. */
  predicate Apart(ws: seq<Window>) {
    forall i, j :: 0 <= i < j < |ws| ==> ws[i].hi <= ws[j].lo
  }

  function Addresses(ws: seq<Window>): seq<int>
    requires Proper(ws)
  {
    if ws == [] then [] else
    var w := ws[|ws| - 1];
    Addresses(ws[..|ws| - 1]) + seq(w.hi - w.lo, i => w.lo + i)
  }

  /** Where a window's bytes start. */
  function Offset(ws: seq<Window>, k: nat): nat
    requires Proper(ws) && k <= |ws|
  {
    |Addresses(ws[..k])|
  }

  lemma {:induction false} OffsetStep(ws: seq<Window>, k: nat)
    requires Proper(ws) && k < |ws|
    ensures Offset(ws, k + 1) == Offset(ws, k) + (ws[k].hi - ws[k].lo)
  {
    assert ws[..k + 1][..k] == ws[..k];
  }

  lemma {:induction false} AddressesGrow(ws: seq<Window>, k: nat)
    requires Proper(ws) && k <= |ws|
    ensures Addresses(ws[..k]) <= Addresses(ws)
    decreases |ws|
  {
    if k < |ws| {
      var n := |ws| - 1;
      assert ws[..n][..k] == ws[..k];
      AddressesGrow(ws[..n], k);
    } else {
      assert ws[..k] == ws;
    }
  }

  /** The i-th byte of window k. */
  lemma {:induction false} AddressIn(ws: seq<Window>, k: nat, i: nat)
    requires Proper(ws) && k < |ws| && i < ws[k].hi - ws[k].lo
    ensures Offset(ws, k) + i < Offset(ws, k + 1) <= |Addresses(ws)|
    ensures Addresses(ws)[Offset(ws, k) + i] == ws[k].lo + i
  {
    OffsetStep(ws, k);
    AddressesGrow(ws, k + 1);
    assert ws[..k + 1][..k] == ws[..k];
    assert Addresses(ws[..k + 1])[Offset(ws, k) + i] == ws[k].lo + i;
  }

  // ----- the painter sorts its windows -----

  predicate Before(a: Window, b: Window) {
    a.lo < b.lo || (a.lo == b.lo && a.hi <= b.hi)
  }

  function InAddressOrder(ws: seq<Window>): seq<Window> {
    Sort(Before, ws)
  }

  /** By where they start, then by where they end. */
  predicate StartsAscend(ws: seq<Window>) {
    forall i, j :: 0 <= i < j < |ws| ==> ws[i].lo < ws[j].lo || (ws[i].lo == ws[j].lo && ws[i].hi <= ws[j].hi)
  }

  /** The same windows, so the same number of bytes, in address order. */
  lemma {:induction false} SortedWindows(ws: seq<Window>)
    requires Proper(ws)
    ensures Proper(InAddressOrder(ws)) && multiset(InAddressOrder(ws)) == multiset(ws)
    ensures StartsAscend(InAddressOrder(ws))
  {
    SortIsSorted(Before, ws);
    var r := InAddressOrder(ws);
    forall k | 0 <= k < |r| ensures r[k].lo <= r[k].hi {
      assert r[k] in multiset(r);
      assert r[k] in ws;
    }
  }

  // ----- bytes of a range -----

  predicate Within(a: int, lo: int, hi: int) {
    lo <= a < hi
  }

  function CountWithin(addrs: seq<int>, lo: int, hi: int): nat {
    if addrs == [] then 0
    else CountWithin(addrs[..|addrs| - 1], lo, hi) + if Within(addrs[|addrs| - 1], lo, hi) then 1 else 0
  }
}
