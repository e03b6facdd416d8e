/** The two passes said without runs. A byte the image left open lies in one stretch of open bytes that
    cannot be extended inside its window, and what becomes of it depends on the length of that stretch,
    on the bytes just before and just after it, and on the segment. */
module RamBytes {
  import opened Options
  import opened RamLayout
  import opened RamPainter
  import opened RamRuns
  import opened RamClassify

  /** The byte at address `x` is tracked and has the number `id`. */
  ghost predicate Has(addrs: seq<int>, ids: seq<nat>, x: int, id: nat) {
    exists pos :: 0 <= pos < |addrs| && pos < |ids| && addrs[pos] == x && ids[pos] == id
  }

  ghost predicate WindowEdge(ws: seq<Window>, x: int) {
    exists k :: 0 <= k < |ws| && ws[k].lo == x
  }

  /** `[a, b)` holds one number throughout, and no more of it on either side short of a window's edge. */
  ghost predicate Stretch(ws: seq<Window>, addrs: seq<int>, ids: seq<nat>, a: int, b: int, id: nat) {
    && (forall x :: a <= x < b ==> Has(addrs, ids, x, id))
    && (Has(addrs, ids, a - 1, id) ==> WindowEdge(ws, a))
    && (Has(addrs, ids, b, id) ==> WindowEdge(ws, b))
  }

  // ----- runs and the bytes beside them -----

  ghost predicate Tracked(rs: seq<Run>, addrs: seq<int>) {
    forall j, x :: 0 <= j < |rs| && In(x, rs[j]) ==> x in addrs
  }

  lemma {:induction false} RunsAreTracked(ws: seq<Window>, ids: seq<nat>)
    requires Proper(ws) && |ids| == |Addresses(ws)|
    ensures Tracked(AllRuns(ws, ids), Addresses(ws))
  {
    if ws != [] {
      var n := |ws| - 1;
      var off, w := Offset(ws, n), ws[n];
      var a, b := AllRuns(ws[..n], ids[..off]), WindowRuns(w.lo, ids[off..]);
      var span := Span(w.lo, w.hi - w.lo);
      assert Addresses(ws) == Addresses(ws[..n]) + span;
      RunsAreTracked(ws[..n], ids[..off]);
      WindowRunsBounded(w.lo, ids[off..], span, w.hi);
      forall j, x | 0 <= j < |a + b| && In(x, (a + b)[j]) ensures x in Addresses(ws) {
        if j >= |a| { assert In(x, b[j - |a|]) && span[x - w.lo] == x; }
      }
    }
  }

  lemma {:induction false} RunHas(rs: seq<Run>, ids: seq<nat>, addrs: seq<int>, j: nat, x: int)
    requires Faithful(rs, ids, addrs) && Tracked(rs, addrs) && j < |rs| && In(x, rs[j])
    ensures Has(addrs, ids, x, rs[j].id)
  {
    assert x in addrs;
    var pos :| 0 <= pos < |addrs| && addrs[pos] == x;
    assert ids[pos] == rs[j].id;
  }

  lemma {:induction false} HasRun(rs: seq<Run>, ids: seq<nat>, addrs: seq<int>, x: int, id: nat) returns (i: nat)
    requires Faithful(rs, ids, addrs) && Has(addrs, ids, x, id)
    ensures i < |rs| && In(x, rs[i]) && rs[i].id == id
  {
    var pos :| 0 <= pos < |addrs| && pos < |ids| && addrs[pos] == x && ids[pos] == id;
    assert Covered(rs, addrs[pos]);
    i :| 0 <= i < |rs| && In(addrs[pos], rs[i]);
  }

  /** The byte just before a run belongs to the run before it, which touches. */
  lemma {:induction false} ByteBefore(rs: seq<Run>, ids: seq<nat>, addrs: seq<int>, j: nat, id: nat)
    requires Faithful(rs, ids, addrs) && Tracked(rs, addrs) && j < |rs|
    ensures Has(addrs, ids, rs[j].start - 1, id) <==> j > 0 && rs[j - 1].end == rs[j].start && rs[j - 1].id == id
  {
    if Has(addrs, ids, rs[j].start - 1, id) {
      var i := HasRun(rs, ids, addrs, rs[j].start - 1, id);
      assert i < j && rs[i].end <= rs[i + 1].start;
    } else if j > 0 && rs[j - 1].end == rs[j].start {
      RunHas(rs, ids, addrs, j - 1, rs[j].start - 1);
    }
  }

  lemma {:induction false} ByteAfter(rs: seq<Run>, ids: seq<nat>, addrs: seq<int>, j: nat, id: nat)
    requires Faithful(rs, ids, addrs) && Tracked(rs, addrs) && j < |rs|
    ensures Has(addrs, ids, rs[j].end, id) <==> j + 1 < |rs| && rs[j + 1].start == rs[j].end && rs[j + 1].id == id
  {
    if Has(addrs, ids, rs[j].end, id) {
      var i := HasRun(rs, ids, addrs, rs[j].end, id);
      assert j < i && rs[i - 1].end <= rs[i].start;
    } else if j + 1 < |rs| && rs[j + 1].start == rs[j].end {
      RunHas(rs, ids, addrs, j + 1, rs[j].end);
    }
  }

  lemma {:induction false} BytesBeside(rs: seq<Run>, ids: seq<nat>, addrs: seq<int>, j: nat, x: int, y: int)
    requires Faithful(rs, ids, addrs) && Tracked(rs, addrs) && j < |rs| && x == rs[j].start - 1 && y == rs[j].end
    ensures forall id: nat :: Has(addrs, ids, x, id) <==> j > 0 && rs[j - 1].end == rs[j].start && rs[j - 1].id == id
    ensures forall id: nat :: Has(addrs, ids, y, id) <==> j + 1 < |rs| && rs[j + 1].start == rs[j].end && rs[j + 1].id == id
  {
    forall id: nat ensures Has(addrs, ids, x, id) <==> j > 0 && rs[j - 1].end == rs[j].start && rs[j - 1].id == id {
      ByteBefore(rs, ids, addrs, j, id);
    }
    forall id: nat ensures Has(addrs, ids, y, id) <==> j + 1 < |rs| && rs[j + 1].start == rs[j].end && rs[j + 1].id == id {
      ByteAfter(rs, ids, addrs, j, id);
    }
  }

  lemma {:induction false} FirstRunStarts(lo: int, ids: seq<nat>)
    requires ids != []
    ensures WindowRuns(lo, ids) != [] && WindowRuns(lo, ids)[0].start == lo
  {
    if |ids| > 1 { FirstRunStarts(lo, ids[..|ids| - 1]); }
  }

  /** Touching runs with one number meet at the edge of a window. */
  lemma {:induction false} EqualNeighboursMeetAtEdge(ws: seq<Window>, ids: seq<nat>, j: nat)
    requires Proper(ws) && |ids| == |Addresses(ws)| && 0 < j < |AllRuns(ws, ids)|
    requires var rs := AllRuns(ws, ids); rs[j - 1].end == rs[j].start && rs[j - 1].id == rs[j].id
    ensures WindowEdge(ws, AllRuns(ws, ids)[j].start)
  {
    var n := |ws| - 1;
    var off := Offset(ws, n);
    var a, b := AllRuns(ws[..n], ids[..off]), WindowRuns(ws[n].lo, ids[off..]);
    if j < |a| {
      EqualNeighboursMeetAtEdge(ws[..n], ids[..off], j);
      var k :| 0 <= k < n && ws[..n][k].lo == a[j].start;
      assert ws[k].lo == a[j].start;
    } else if j == |a| {
      FirstRunStarts(ws[n].lo, ids[off..]);
      assert ws[n].lo == b[0].start;
    } else {
      WindowRunsMaximal(ws[n].lo, ids[off..]);
      assert false;
    }
  }

  /** Every run is such a stretch. */
  lemma {:induction false} RunIsStretch(ws: seq<Window>, ids: seq<nat>, j: nat)
    requires Proper(ws) && Apart(ws) && |ids| == |Addresses(ws)| && j < |AllRuns(ws, ids)|
    ensures var r := AllRuns(ws, ids)[j]; Stretch(ws, Addresses(ws), ids, r.start, r.end, r.id)
  {
    var rs, addrs := AllRuns(ws, ids), Addresses(ws);
    RunsOfPainter(ws, ids);
    RunsAreTracked(ws, ids);
    forall x | rs[j].start <= x < rs[j].end ensures Has(addrs, ids, x, rs[j].id) { RunHas(rs, ids, addrs, j, x); }
    ByteBefore(rs, ids, addrs, j, rs[j].id);
    ByteAfter(rs, ids, addrs, j, rs[j].id);
    if Has(addrs, ids, rs[j].start - 1, rs[j].id) { EqualNeighboursMeetAtEdge(ws, ids, j); }
    if Has(addrs, ids, rs[j].end, rs[j].id) { EqualNeighboursMeetAtEdge(ws, ids, j + 1); }
  }

  // ----- pass 1 -----

  ghost predicate ClaimedAt(addrs: seq<int>, ids: seq<nat>, x: int) {
    exists id: nat :: id != 0 && Has(addrs, ids, x, id)
  }

  /** The first segment of the map that holds the address. */
  ghost predicate FirstSegment(segs: seq<Seg>, a: int, seg: Seg) {
    exists k :: 0 <= k < |segs| && segs[k] == seg && seg.start <= a < seg.end &&
                forall j :: 0 <= j < k ==> !(segs[j].start <= a < segs[j].end)
  }

  lemma {:induction false} SegAtIsFirst(segs: seq<Seg>, a: int)
    requires SegAt(segs, a).Some?
    ensures FirstSegment(segs, a, SegAt(segs, a).value)
  {
    if !(segs[0].start <= a < segs[0].end) {
      SegAtIsFirst(segs[1..], a);
      var seg := SegAt(segs, a).value;
      var k :| 0 <= k < |segs[1..]| && segs[1..][k] == seg && seg.start <= a < seg.end &&
               forall j :: 0 <= j < k ==> !(segs[1..][j].start <= a < segs[1..][j].end);
      assert segs[k + 1] == seg;
      forall j | 0 <= j < k + 1 ensures !(segs[j].start <= a < segs[j].end) {
        if j > 0 { assert segs[j] == segs[1..][j - 1]; }
      }
    }
  }

  /** Fewer than 16 bytes between two claims are padding; the tail of a segment the map calls spare is
      idle there; the rest is unknown, under its own address range. */
  ghost predicate GapFate(segs: seq<Seg>, addrs: seq<int>, ids: seq<nat>, a: int, b: int, now: Option<Claim>) {
    exists seg :: FirstSegment(segs, a, seg) && GapFateIn(seg, addrs, ids, a, b, now)
  }

  ghost predicate GapFateIn(seg: Seg, addrs: seq<int>, ids: seq<nat>, a: int, b: int, now: Option<Claim>) {
    var between := b - a < 16 && ClaimedAt(addrs, ids, a - 1) && ClaimedAt(addrs, ids, b);
    var spare := seg.fill == FillIdle && (b == seg.end || !ClaimedAt(addrs, ids, b));
    && (between ==> now == Some(Claim("padding", "alignment padding", "", "", 0, 0, "", "", Pad, "")))
    && (!between && spare ==>
          now == Some(Claim("idle", "idle in " + seg.title, seg.title, "", b - a, a, "", "", Idle, "")))
    && (!between && !spare ==>
          && now.Some? && IsRange(now.value.owner, a, b)
          && now == Some(Claim("unknown", now.value.owner, seg.title, "", b - a, a, "", "", Unknown, "")))
  }

  // ----- addresses in hexadecimal -----

  function HexDigitValue(c: char): int {
    if '0' <= c <= '9' then (c - '0') as int else if 'a' <= c <= 'f' then 10 + (c - 'a') as int else -1
  }

  /** The digits spell the number, and there is no zero in front of more than `width` of them. */
  ghost predicate SpellsHex(ds: string, n: nat, width: nat) {
    && |ds| >= width && (|ds| > width ==> ds[0] != '0')
    && (forall k :: 0 <= k < |ds| ==> 0 <= HexDigitValue(ds[k]) < 16)
    && HexSum(ds) == n
  }

  function HexSum(ds: string): int {
    if ds == "" then 0 else 16 * HexSum(ds[..|ds| - 1]) + HexDigitValue(ds[|ds| - 1])
  }

  /** `0x`, eight or more digits, `..`, and the same for the end. */
  ghost predicate IsRange(text: string, a: int, b: int) {
    exists x, y :: text == x + ".." + y && IsAddress(x, a) && IsAddress(y, b)
  }

  ghost predicate IsAddress(text: string, a: int) {
    if a >= 0 then exists ds :: text == "0x" + ds && SpellsHex(ds, a, 8)
    else exists ds :: text == "0x-" + ds && SpellsHex(ds, -a, 7)
  }

  lemma {:induction false} HexDigitsSpell(n: nat, width: nat)
    ensures SpellsHex(HexDigits(n, width), n, width)
    ensures n == 0 && width == 0 <==> HexDigits(n, width) == ""
    decreases n, width
  {
    if n > 0 || width > 0 {
      var rest := if width == 0 then 0 else width - 1;
      HexDigitsSpell(n / 16, rest);
      HexDigitIs(n % 16);
      SpellsOneMore(HexDigits(n / 16, rest), n / 16, rest, HexDigit(n % 16), n, width);
    }
  }

  lemma {:induction false} SpellsOneMore(ds: string, m: nat, rest: nat, c: char, n: nat, width: nat)
    requires SpellsHex(ds, m, rest) && 0 <= HexDigitValue(c) < 16 && n == 16 * m + HexDigitValue(c)
    requires rest == (if width == 0 then 0 else width - 1) && (width == 0 && ds == "" ==> c != '0')
    ensures SpellsHex(ds + [c], n, width)
  {
    assert (ds + [c])[..|ds|] == ds;
  }

  lemma {:induction false} HexDigitIs(d: nat)
    requires d < 16
    ensures HexDigitValue(HexDigit(d)) == d && (HexDigit(d) == '0' <==> d == 0)
  {
  }

  lemma {:induction false} HexIsAddress(a: int)
    ensures IsAddress(Hex(a), a)
  {
    if a >= 0 { HexDigitsSpell(a, 8); } else { HexDigitsSpell(-a, 7); }
  }

  lemma {:induction false} HexRange(a: int, b: int)
    ensures IsRange(Hex(a) + ".." + Hex(b), a, b)
  {
    HexIsAddress(a);
    HexIsAddress(b);
  }

  // ----- the gap of an unclaimed byte -----

  lemma {:induction false} PaintedIsClaimed(rs: seq<Run>, ids: seq<nat>, addrs: seq<int>, j: nat)
    requires Faithful(rs, ids, addrs) && Tracked(rs, addrs) && j < |rs|
    ensures PaintedBefore(rs, j) <==> ClaimedAt(addrs, ids, rs[j].start - 1)
    ensures PaintedAfter(rs, j) <==> ClaimedAt(addrs, ids, rs[j].end)
  {
    BytesBeside(rs, ids, addrs, j, rs[j].start - 1, rs[j].end);
    if PaintedBefore(rs, j) { assert Has(addrs, ids, rs[j].start - 1, rs[j - 1].id); }
    if PaintedAfter(rs, j) { assert Has(addrs, ids, rs[j].end, rs[j + 1].id); }
  }

  lemma {:induction false} SettledRun(rs: seq<Run>, segs: seq<Seg>, ids: seq<nat>, addrs: seq<int>, j: nat)
    requires Faithful(rs, ids, addrs) && Tracked(rs, addrs) && j < |rs|
    requires rs[j].id == 0 && SegAt(segs, rs[j].start).Some?
    ensures GapFate(segs, addrs, ids, rs[j].start, rs[j].end, Verdict1(rs, segs, j))
  {
    PaintedIsClaimed(rs, ids, addrs, j);
    SegAtIsFirst(segs, rs[j].start);
    HexRange(rs[j].start, rs[j].end);
    assert GapFateIn(SegAt(segs, rs[j].start).value, addrs, ids, rs[j].start, rs[j].end, Verdict1(rs, segs, j));
  }

  /** Pass 1, byte by byte: an unclaimed byte takes the fate of the gap it lies in. */
  lemma {:induction false} UnclaimedByGap(
    ws: seq<Window>, segs: seq<Seg>, ids: seq<nat>, claims: seq<Option<Claim>>, look: View, pos: nat) returns (a: int, b: int)
    requires Apart(ws) && Mapped(segs, ws) && Settled(ws, segs, ids, claims, look)
    requires pos < |ids| && ids[pos] == 0
    ensures a <= Addresses(ws)[pos] < b && Stretch(ws, Addresses(ws), ids, a, b, 0)
    ensures GapFate(segs, Addresses(ws), ids, a, b, look[pos])
  {
    var rs, addrs := AllRuns(ws, ids), Addresses(ws);
    RunsOfPainter(ws, ids);
    RunsAreTracked(ws, ids);
    assert Has(addrs, ids, addrs[pos], 0);
    var j := HasRun(rs, ids, addrs, addrs[pos], 0);
    RunIsStretch(ws, ids, j);
    StartIsMapped(segs, ws, rs, j);
    SettledRun(rs, segs, ids, addrs, j);
    a, b := rs[j].start, rs[j].end;
  }

  // ----- pass 2 -----

  /** The byte at `x` is tracked and claimed by the symbol `c`. */
  ghost predicate SymbolAt(addrs: seq<int>, ids: seq<nat>, claims: seq<Option<Claim>>, x: int, c: Claim) {
    (c.kind == Symbol || c.kind == Inferred) && exists id: nat :: id < |claims| && claims[id] == Some(c) && Has(addrs, ids, x, id)
  }

  ghost predicate NoSymbolAt(addrs: seq<int>, ids: seq<nat>, claims: seq<Option<Claim>>, x: int) {
    forall c :: !SymbolAt(addrs, ids, claims, x, c)
  }

  /** At most 40 characters: a longer text is cut to 39 and an ellipsis. */
  function Short(text: string): string {
    if |text| > 40 then text[..39] + "\U{2026}" else text
  }

  /** A symbol's name, or its owner if it has none. */
  function Naming(c: Claim): string {
    Short(if c.name == "" then c.owner else c.name)
  }

  /** What a section's stretch `[a, b)` becomes between the symbols `p` and `n`: padding below 4 bytes in code
      and below 16 elsewhere; else the common owner's, if they share owner and category; else it stays the
      section's, with the symbol before it and the symbol after it named in that order. */
  ghost predicate BetweenFate(a: int, b: int, p: Claim, n: Claim, was: Claim, now: Claim) {
    var code := was.category == "code" || was.category == "radio_code";
    var short := (code && b - a < 4) || (!code && b - a < 16);
    var shared := p.owner == n.owner && p.category == n.category;
    && (short ==> now == Claim("padding", "alignment padding", "", "", 0, 0, "", "", Pad, ""))
    && (!short && shared ==>
          now == Claim(was.category, p.owner, was.section, "", b - a, a, "", p.family, Inferred, ""))
    && (!short && !shared ==>
          now == Claim(was.category, was.owner, was.section, "", b - a, a, "", "", Section, Naming(p) + " .. " + Naming(n)))
  }

  lemma {:induction false} RevisitIsBetweenFate(a: int, b: int, p: Claim, n: Claim, was: Claim)
    ensures BetweenFate(a, b, p, n, was, Revisit(was, a, b, p, n))
  {
  }

  /** Only a stretch between two symbols is revisited, and what it becomes depends on them. */
  ghost predicate SectionFate(
    addrs: seq<int>, ids: seq<nat>, claims: seq<Option<Claim>>, a: int, b: int, was: Claim, now: Option<Claim>) {
    && now.Some?
    && (forall p, n :: SymbolAt(addrs, ids, claims, a - 1, p) && SymbolAt(addrs, ids, claims, b, n) ==>
          BetweenFate(a, b, p, n, was, now.value))
    && (NoSymbolAt(addrs, ids, claims, a - 1) || NoSymbolAt(addrs, ids, claims, b) ==> now == Some(was))
  }

  lemma {:induction false} NeighbourSymbols(
    rs: seq<Run>, ids: seq<nat>, addrs: seq<int>, claims: seq<Option<Claim>>, j: nat, c: Claim)
    requires Faithful(rs, ids, addrs) && Tracked(rs, addrs) && j < |rs|
    requires forall i :: 0 <= i < |rs| ==> rs[i].id < |claims|
    ensures SymbolAt(addrs, ids, claims, rs[j].start - 1, c) <==> ClaimBefore(claims, rs, j) == Some(c) && Symbolic(Some(c))
    ensures SymbolAt(addrs, ids, claims, rs[j].end, c) <==> ClaimAfter(claims, rs, j) == Some(c) && Symbolic(Some(c))
  {
    BytesBeside(rs, ids, addrs, j, rs[j].start - 1, rs[j].end);
  }

  lemma {:induction false} SymbolsBeside(
    rs: seq<Run>, ids: seq<nat>, addrs: seq<int>, claims: seq<Option<Claim>>, j: nat, x: int, y: int)
    requires Faithful(rs, ids, addrs) && Tracked(rs, addrs) && j < |rs| && x == rs[j].start - 1 && y == rs[j].end
    requires forall i :: 0 <= i < |rs| ==> rs[i].id < |claims|
    ensures forall c :: SymbolAt(addrs, ids, claims, x, c) <==> ClaimBefore(claims, rs, j) == Some(c) && Symbolic(Some(c))
    ensures forall c :: SymbolAt(addrs, ids, claims, y, c) <==> ClaimAfter(claims, rs, j) == Some(c) && Symbolic(Some(c))
  {
    forall c ensures SymbolAt(addrs, ids, claims, x, c) <==> ClaimBefore(claims, rs, j) == Some(c) && Symbolic(Some(c)) {
      NeighbourSymbols(rs, ids, addrs, claims, j, c);
    }
    forall c ensures SymbolAt(addrs, ids, claims, y, c) <==> ClaimAfter(claims, rs, j) == Some(c) && Symbolic(Some(c)) {
      NeighbourSymbols(rs, ids, addrs, claims, j, c);
    }
  }

  lemma {:induction false} RevisitedRun(
    rs: seq<Run>, ids: seq<nat>, addrs: seq<int>, claims: seq<Option<Claim>>, j: nat, was: Claim)
    requires Faithful(rs, ids, addrs) && Tracked(rs, addrs) && j < |rs|
    requires forall i :: 0 <= i < |rs| ==> rs[i].id < |claims|
    requires claims[rs[j].id] == Some(was) && was.kind == Section
    ensures var d := Verdict2(claims, rs, j);
            SectionFate(addrs, ids, claims, rs[j].start, rs[j].end, was, if d.Some? then d else Some(was))
  {
    SymbolsBeside(rs, ids, addrs, claims, j, rs[j].start - 1, rs[j].end);
    forall p, n ensures BetweenFate(rs[j].start, rs[j].end, p, n, was, Revisit(was, rs[j].start, rs[j].end, p, n)) {
      RevisitIsBetweenFate(rs[j].start, rs[j].end, p, n, was);
    }
  }

  /** Pass 2, byte by byte: a byte that only a section holds takes the fate of its stretch. */
  lemma {:induction false} SectionByStretch(
    ws: seq<Window>, ids: seq<nat>, claims: seq<Option<Claim>>, look: View, pos: nat) returns (a: int, b: int)
    requires Apart(ws) && Revisited(ws, ids, claims, look)
    requires pos < |ids| && claims[ids[pos]].Some? && claims[ids[pos]].value.kind == Section
    ensures a <= Addresses(ws)[pos] < b && Stretch(ws, Addresses(ws), ids, a, b, ids[pos])
    ensures SectionFate(Addresses(ws), ids, claims, a, b, claims[ids[pos]].value, look[pos])
  {
    var rs, addrs := AllRuns(ws, ids), Addresses(ws);
    RunsOfPainter(ws, ids);
    RunsAreTracked(ws, ids);
    assert Has(addrs, ids, addrs[pos], ids[pos]);
    var j := HasRun(rs, ids, addrs, addrs[pos], ids[pos]);
    RunIsStretch(ws, ids, j);
    RevisitedRun(rs, ids, addrs, claims, j, claims[ids[pos]].value);
    a, b := rs[j].start, rs[j].end;
  }
}
