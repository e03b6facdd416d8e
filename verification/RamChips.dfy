/** The three chip maps. Their segments are separate, and together exactly as large as the chip's RAM,
    so the ledger of any image sums to the chip. */
module RamChips {
  import opened Options
  import opened StableSort
  import opened RamLayout
  import opened RamPainter
  import opened RamClassify
  import opened RamSummary

  datatype Chip = Chip(name: string, ramBytes: int, segs: seq<Seg>)

  const C6: Chip := Chip("esp32c6", 0x40880000 - 0x40800000, [
    Seg(0x40800000, 0x4087E610, "app RAM (image-owned)", FillUnknown),
    Seg(0x4087E610, 0x40880000, "ROM data/stack", FillUnknown)])

  const V3: Chip := Chip("esp32v3",
    (0x40080000 - 0x40070000) + (0x400A0000 - 0x40080000) + (0x40000000 - 0x3FFE0000) + (0x3FFE0000 - 0x3FFAE000), [
    Seg(0x3FFAE000, 0x3FFB0000, "SRAM2 ROM block", FillUnknown),
    Seg(0x3FFB0000, 0x3FFE0000, "SRAM2 dram_seg (image-owned)", FillUnknown),
    Seg(0x3FFE0000, 0x3FFE0440, "SRAM1 ROM PRO data", FillUnknown),
    Seg(0x3FFE0440, 0x3FFE3F20, "SRAM1 ROM PRO stack + hole (reclaimed)", FillUnknown),
    Seg(0x3FFE3F20, 0x3FFE4350, "SRAM1 ROM APP data", FillUnknown),
    Seg(0x3FFE4350, 0x3FFE8000, "SRAM1 ROM APP stack + dram2 head (reclaimed)", FillUnknown),
    Seg(0x3FFE8000, 0x40000000, "SRAM1 tail", FillUnknown),
    Seg(0x40070000, 0x40080000, "SRAM0 flash cache (PRO+APP)", FillUnknown),
    Seg(0x40080000, 0x40088000, "SRAM0 IRAM below the JIT region", FillIdle),
    Seg(0x40088000, 0x40098000, "SRAM0 JIT code region", FillUnknown),
    Seg(0x40098000, 0x400A0000, "SRAM0 IRAM above the JIT region", FillUnknown)])

  const S3: Chip := Chip("esp32s3", (0x40378000 - 0x40370000) + (0x3FD00000 - 0x3FC88000), [
    Seg(0x40370000, 0x40378000, "SRAM0 instruction-cache reserve", FillUnknown),
    Seg(0x3FC88000, 0x3FCDB700, "SRAM1 dram_seg (image-owned)", FillUnknown),
    Seg(0x3FCDB700, 0x3FCED710, "SRAM1 dram2_seg (bootloader's)", FillIdle),
    Seg(0x3FCED710, 0x3FCF0000, "SRAM1 top: ROM data", FillUnknown),
    Seg(0x3FCF0000, 0x3FCF8000, "SRAM2 low half (unregistered)", FillUnknown),
    Seg(0x3FCF8000, 0x3FD00000, "SRAM2 top half: data cache (32 KiB)", FillUnknown)])

  function WindowsOf(segs: seq<Seg>): (ws: seq<Window>)
    ensures |ws| == |segs|
    ensures forall i :: 0 <= i < |segs| ==> ws[i] == Window(segs[i].start, segs[i].end)
  {
    seq(|segs|, i requires 0 <= i < |segs| => Window(segs[i].start, segs[i].end))
  }

  // ----- separate windows are apart once sorted -----

  predicate NonEmpty(ws: seq<Window>) {
    forall k :: 0 <= k < |ws| ==> ws[k].lo < ws[k].hi
  }

  predicate Separate(ws: seq<Window>) {
    forall i, j :: 0 <= i < j < |ws| ==> ws[i].hi <= ws[j].lo || ws[j].hi <= ws[i].lo
  }

  lemma {:induction false} TwiceMeansTwo<T>(xs: seq<T>, x: T) returns (i: nat, j: nat)
    requires multiset(xs)[x] >= 2
    ensures i < j < |xs| && xs[i] == x && xs[j] == x
  {
    var n := |xs| - 1;
    assert xs == xs[..n] + [xs[n]];
    if xs[n] == x {
      j := n;
      assert x in multiset(xs[..n]);
      assert x in xs[..n];
      i :| 0 <= i < n && xs[..n][i] == x;
    } else {
      i, j := TwiceMeansTwo(xs[..n], x);
    }
  }

  lemma {:induction false} PairCountsTwice<T>(xs: seq<T>, i: nat, j: nat)
    requires i < j < |xs| && xs[i] == xs[j]
    ensures multiset(xs)[xs[i]] >= 2
  {
    assert xs == xs[..j] + xs[j..];
    assert xs[i] in xs[..j] && xs[j] in xs[j..];
  }

  lemma {:induction false} SeparateIsApart(ws: seq<Window>)
    requires NonEmpty(ws) && Separate(ws)
    ensures Proper(InAddressOrder(ws)) && Apart(InAddressOrder(ws))
  {
    SortedWindows(ws);
    var r := InAddressOrder(ws);
    forall i, j | 0 <= i < j < |r| ensures r[i].hi <= r[j].lo {
      assert Before(r[i], r[j]);
      assert r[i] in multiset(r) && r[j] in multiset(r);
      assert r[i] in ws && r[j] in ws;
      if r[i] == r[j] {
        PairCountsTwice(r, i, j);
        var a, b := TwiceMeansTwo(ws, r[i]);
      } else {
        var a :| 0 <= a < |ws| && ws[a] == r[i];
        var b :| 0 <= b < |ws| && ws[b] == r[j];
      }
    }
  }

  // ----- sorting keeps the number of bytes -----

  function Bytes(ws: seq<Window>): int {
    if ws == [] then 0 else (ws[0].hi - ws[0].lo) + Bytes(ws[1..])
  }

  lemma {:induction false} InsertBytes(w: Window, ws: seq<Window>)
    ensures Bytes(Insert(Before, w, ws)) == Bytes(ws) + (w.hi - w.lo)
  {
    if ws == [] || Before(w, ws[0]) {
      assert ([w] + ws)[1..] == ws;
    } else {
      InsertBytes(w, ws[1..]);
      assert ([ws[0]] + Insert(Before, w, ws[1..]))[1..] == Insert(Before, w, ws[1..]);
    }
  }

  lemma {:induction false} SortBytes(ws: seq<Window>)
    ensures Bytes(InAddressOrder(ws)) == Bytes(ws)
  {
    if ws != [] {
      SortBytes(ws[1..]);
      InsertBytes(ws[0], Sort(Before, ws[1..]));
    }
  }

  lemma {:induction false} BytesSnoc(ws: seq<Window>, w: Window)
    ensures Bytes(ws + [w]) == Bytes(ws) + (w.hi - w.lo)
  {
    if ws == [] {
      assert ws + [w] == [w];
      assert Bytes([w][1..]) == 0;
    } else {
      assert (ws + [w])[1..] == ws[1..] + [w];
      BytesSnoc(ws[1..], w);
    }
  }

  lemma {:induction false} AddressesAreBytes(ws: seq<Window>)
    requires Proper(ws)
    ensures |Addresses(ws)| == Bytes(ws)
  {
    if ws != [] {
      var n := |ws| - 1;
      AddressesAreBytes(ws[..n]);
      BytesSnoc(ws[..n], ws[n]);
      assert ws == ws[..n] + [ws[n]];
    }
  }

  // ----- the chip maps -----

  /** The map of a chip is sound: non-empty, separate segments, together as large as the RAM. */
  ghost predicate Sound(c: Chip) {
    var ws := WindowsOf(c.segs);
    NonEmpty(ws) && Separate(ws) && Bytes(ws) == c.ramBytes
  }

  lemma C6IsSound()
    ensures Sound(C6)
  {
    BytesUnfold(WindowsOf(C6.segs), 2);
  }

  predicate Ascending(ws: seq<Window>) {
    forall k :: 0 < k < |ws| ==> ws[k - 1].hi <= ws[k].lo
  }

  lemma {:induction false} AscendingIsSeparate(ws: seq<Window>, i: nat, j: nat)
    requires NonEmpty(ws) && Ascending(ws) && i < j < |ws|
    ensures ws[i].hi <= ws[j].lo
  {
    if i < j - 1 { AscendingIsSeparate(ws, i, j - 1); }
  }

  lemma V3Ascends()
    ensures NonEmpty(WindowsOf(V3.segs)) && Ascending(WindowsOf(V3.segs))
  {
  }

  lemma V3Bytes()
    ensures Bytes(WindowsOf(V3.segs)) == V3.ramBytes
  {
    var ws := WindowsOf(V3.segs);
    BytesUnfold(ws, 11);
    assert SumTo(ws, 1) == 0x3FFB0000 - 0x3FFAE000;
    assert SumTo(ws, 2) == 0x3FFE0000 - 0x3FFAE000;
    assert SumTo(ws, 4) == 0x3FFE3F20 - 0x3FFAE000;
    assert SumTo(ws, 6) == 0x3FFE8000 - 0x3FFAE000;
    assert SumTo(ws, 8) == 0x40000000 - 0x3FFAE000 + (0x40080000 - 0x40070000);
    assert SumTo(ws, 10) == 0x40000000 - 0x3FFAE000 + (0x40098000 - 0x40070000);
  }

  lemma V3IsSound()
    ensures Sound(V3)
  {
    var ws := WindowsOf(V3.segs);
    V3Ascends();
    V3Bytes();
    forall i, j | 0 <= i < j < |ws| ensures ws[i].hi <= ws[j].lo { AscendingIsSeparate(ws, i, j); }
  }

  lemma S3IsSound()
    ensures Sound(S3)
  {
    BytesUnfold(WindowsOf(S3.segs), 6);
  }

  function SumTo(ws: seq<Window>, n: nat): int
    requires n <= |ws|
  {
    if n == 0 then 0 else SumTo(ws, n - 1) + (ws[n - 1].hi - ws[n - 1].lo)
  }

  lemma {:induction false} BytesUnfold(ws: seq<Window>, n: nat)
    requires n <= |ws|
    ensures Bytes(ws[..n]) == SumTo(ws, n)
    ensures n == |ws| ==> Bytes(ws) == SumTo(ws, n)
  {
    if n > 0 {
      BytesUnfold(ws, n - 1);
      BytesSnoc(ws[..n - 1], ws[n - 1]);
      assert ws[..n] == ws[..n - 1] + [ws[n - 1]];
    }
    assert n == |ws| ==> ws[..n] == ws;
  }

  // ----- the sum check -----

  lemma {:induction false} SegAtFinds(segs: seq<Seg>, a: int, i: nat)
    requires i < |segs| && segs[i].start <= a < segs[i].end
    ensures SegAt(segs, a).Some?
  {
    if i > 0 { SegAtFinds(segs[1..], a, i - 1); }
  }

  /** A painter over a sound chip map has as many bytes as the chip, all in a segment, none twice. */
  lemma {:induction false} SoundMap(c: Chip)
    requires Sound(c)
    ensures var ws := InAddressOrder(WindowsOf(c.segs));
            Proper(ws) && Apart(ws) && |Addresses(ws)| == c.ramBytes && Mapped(c.segs, ws)
  {
    var segs, plain := c.segs, WindowsOf(c.segs);
    var ws := InAddressOrder(plain);
    SeparateIsApart(plain);
    SortedWindows(plain);
    SortBytes(plain);
    AddressesAreBytes(ws);
    forall k, a | 0 <= k < |ws| && ws[k].lo <= a < ws[k].hi ensures SegAt(segs, a).Some? {
      assert ws[k] in multiset(ws);
      assert ws[k] in plain;
      var i :| 0 <= i < |plain| && plain[i] == ws[k];
      SegAtFinds(segs, a, i);
    }
  }

  lemma {:induction false} SumDropLast(cats: Tally<string>, i: nat)
    requires i < |cats|
    ensures Sum(cats[..i + 1]) == Sum(cats[..i]) + cats[i].1
  {
    assert cats[..i + 1] == cats[..i] + [cats[i]];
    SumSnoc(cats[..i], cats[i], Any());
  }

  /** The final check of the tool: the category totals add up to the chip's RAM. It cannot fail, whatever
      has been painted. */
  method SumsToChip(p: Painter, c: Chip) returns (ok: bool)
    requires p.Valid() && p.windows == InAddressOrder(WindowsOf(c.segs)) && c in {C6, V3, S3}
    ensures ok
  {
    var cats := Summarize(p);
    var total := 0;
    for i := 0 to |cats|
      invariant total == Sum(cats[..i])
    {
      SumDropLast(cats, i);
      total := total + cats[i].1;
    }
    assert cats[..|cats|] == cats;
    ok := total == c.ramBytes;
    C6IsSound();
    V3IsSound();
    S3IsSound();
    SoundMap(c);
  }
}
