/** Classification of the bytes the image left open. Pass 1 settles unclaimed runs (padding, idle tail,
    or unknown); pass 2 revisits runs that only a section claims. Both passes decide from a snapshot of
    the runs. Afterwards no byte is unclaimed, and no byte held by anything but a bare section has
    changed hands; the quality tally adds up to all bytes. */
module RamClassify {
  import opened Options
  import opened RamLayout
  import opened RamPainter
  import opened RamRuns

  const PAD_MAX: int := 16

  datatype Fill = FillIdle | FillUnknown

  datatype Seg = Seg(start: int, end: int, title: string, fill: Fill)

  const PADDING: Claim := Claim("padding", "alignment padding", "", "", 0, 0, "", "", Pad, "")

  // ----- texts -----

  function HexDigit(d: nat): char
    requires d < 16
  {
    "0123456789abcdef"[d]
  }

  function HexDigits(n: nat, width: nat): string
    decreases n, width
  {
    if n == 0 && width == 0 then ""
    else HexDigits(n / 16, if width == 0 then 0 else width - 1) + [HexDigit(n % 16)]
  }

  /** `0x` and at least eight characters, a sign included. */
  function Hex(a: int): string {
    if a < 0 then "0x-" + HexDigits(-a, 7) else "0x" + HexDigits(a, 8)
  }

  function Trunc(s: string, w: nat): string
    requires w > 0
  {
    if |s| <= w then s else s[..w - 1] + ['\U{2026}']
  }

  function NameOrOwner(c: Claim): string {
    if c.name != "" then c.name else c.owner
  }

  // ----- pass 1 -----

  function SegAt(segs: seq<Seg>, a: int): Option<Seg> {
    if segs == [] then None
    else if segs[0].start <= a < segs[0].end then Some(segs[0])
    else SegAt(segs[1..], a)
  }

  predicate PaintedBefore(rs: seq<Run>, j: nat)
    requires j < |rs|
  {
    j > 0 && rs[j - 1].id != 0 && rs[j - 1].end == rs[j].start
  }

  predicate PaintedAfter(rs: seq<Run>, j: nat)
    requires j < |rs|
  {
    j + 1 < |rs| && rs[j + 1].id != 0 && rs[j + 1].start == rs[j].end
  }

  /** What an unclaimed run becomes. */
  function Settle(rs: seq<Run>, j: nat, seg: Seg): Claim
    requires j < |rs|
  {
    var a, b := rs[j].start, rs[j].end;
    if b - a < PAD_MAX && PaintedBefore(rs, j) && PaintedAfter(rs, j) then PADDING
    else if seg.fill == FillIdle && (b == seg.end || !PaintedAfter(rs, j)) then
      Claim("idle", "idle in " + seg.title, seg.title, "", b - a, a, "", "", Idle, "")
    else Claim("unknown", Hex(a) + ".." + Hex(b), seg.title, "", b - a, a, "", "", Unknown, "")
  }

  /** Every run start lies in a segment of the map. */
  ghost predicate Mapped(segs: seq<Seg>, ws: seq<Window>) {
    forall k, a :: 0 <= k < |ws| && ws[k].lo <= a < ws[k].hi ==> SegAt(segs, a).Some?
  }

  /** What pass 1 does to run `j`: nothing, or repaint it with a claim. */
  function Verdict1(rs: seq<Run>, segs: seq<Seg>, j: nat): Option<Claim>
    requires j < |rs|
  {
    var seg := SegAt(segs, rs[j].start);
    if rs[j].id != 0 || seg.None? then None else Some(Settle(rs, j, seg.value))
  }

  ghost function Verdicts1(rs: seq<Run>, segs: seq<Seg>): (ds: seq<Option<Claim>>)
    ensures |ds| == |rs| && forall j :: 0 <= j < |rs| ==> ds[j] == Verdict1(rs, segs, j)
  {
    seq(|rs|, j requires 0 <= j < |rs| => Verdict1(rs, segs, j))
  }

  method SettleUnclaimed(p: Painter, segs: seq<Seg>)
    requires p.Valid() && Apart(p.windows) && Mapped(segs, p.windows)
    modifies p`claims, p`index, p.claimIds
    ensures p.Valid() && old(p.claims) <= p.claims
    ensures var rs := AllRuns(p.windows, old(p.claimIds[..]));
            Repainted(p.Look(), old(p.Look()), p.Addrs(), rs, Verdicts1(rs, segs), |rs|)
  {
    var padId := p.Intern(PADDING);
    var rs := ListRuns(p);
    ghost var look0, addrs, ds := p.Look(), p.Addrs(), Verdicts1(rs, segs);
    RunsOfPainter(p.windows, p.claimIds[..]);
    for idx := 0 to |rs|
      invariant p.Valid() && padId < |p.claims| && p.claims[padId] == Some(PADDING)
      invariant old(p.claims) <= p.claims
      invariant Repainted(p.Look(), look0, addrs, rs, ds, idx)
    {
      ghost var look1 := p.Look();
      SettleRun(p, rs[idx], Verdict1(rs, segs, idx), padId);
      RepaintStep(look1, p.Look(), look0, addrs, rs, ds, idx);
    }
  }

  /** Repaint a run as decided; padding has its number already. */
  method SettleRun(p: Painter, run: Run, d: Option<Claim>, padId: nat)
    requires p.Valid() && padId < |p.claims| && p.claims[padId] == Some(PADDING)
    modifies p`claims, p`index, p.claimIds
    ensures p.Valid() && old(p.claims) <= p.claims
    ensures p.Look() == if d.Some? then Overlay(old(p.Look()), p.Addrs(), run.start, run.end, d) else old(p.Look())
  {
    if d == Some(PADDING) {
      var _ := p.Paint(run.start, run.end, padId);
    } else if d.Some? {
      var _ := p.PaintClaim(run.start, run.end, d.value);
    }
  }

  // ----- repainting whole runs from a snapshot -----

  /** The runs before `upTo` have been repainted as decided, the others not yet. */
  ghost predicate Repainted(
    look: View, look0: View, addrs: seq<int>, rs: seq<Run>, ds: seq<Option<Claim>>, upTo: nat) {
    && |look| == |look0| == |addrs| && |ds| == |rs| && upTo <= |rs|
    && forall j, pos :: 0 <= j < |rs| && 0 <= pos < |addrs| && In(addrs[pos], rs[j]) ==>
         look[pos] == if j < upTo && ds[j].Some? then ds[j] else look0[pos]
  }

  lemma {:induction false} RepaintStep(
    look: View, look': View, look0: View, addrs: seq<int>, rs: seq<Run>, ds: seq<Option<Claim>>, idx: nat)
    requires Ordered(rs) && idx < |rs| && Repainted(look, look0, addrs, rs, ds, idx)
    requires look' == if ds[idx].Some? then Overlay(look, addrs, rs[idx].start, rs[idx].end, ds[idx]) else look
    ensures Repainted(look', look0, addrs, rs, ds, idx + 1)
  {
    forall j, pos | 0 <= j < |rs| && 0 <= pos < |addrs| && In(addrs[pos], rs[j])
      ensures look'[pos] == if j < idx + 1 && ds[j].Some? then ds[j] else look0[pos]
    {
      if j != idx { assert !In(addrs[pos], rs[idx]); }
    }
  }

  // ----- pass 2 -----

  /** The claim of the run just before or just after, if it touches. */
  function ClaimBefore(claims: seq<Option<Claim>>, rs: seq<Run>, j: nat): Option<Claim>
    requires j < |rs| && forall i :: 0 <= i < |rs| ==> rs[i].id < |claims|
  {
    if j > 0 && rs[j - 1].end == rs[j].start then claims[rs[j - 1].id] else None
  }

  function ClaimAfter(claims: seq<Option<Claim>>, rs: seq<Run>, j: nat): Option<Claim>
    requires j < |rs| && forall i :: 0 <= i < |rs| ==> rs[i].id < |claims|
  {
    if j + 1 < |rs| && rs[j + 1].start == rs[j].end then claims[rs[j + 1].id] else None
  }

  predicate Symbolic(c: Option<Claim>) {
    c.Some? && (c.value.kind == Symbol || c.value.kind == Inferred)
  }

  /** What pass 2 does to run `j`: only a bare section between two symbols is revisited. */
  function Verdict2(claims: seq<Option<Claim>>, rs: seq<Run>, j: nat): Option<Claim>
    requires j < |rs| && forall i :: 0 <= i < |rs| ==> rs[i].id < |claims|
  {
    var c := claims[rs[j].id];
    if c.None? || c.value.kind != Section then None else
    var prv, nxt := ClaimBefore(claims, rs, j), ClaimAfter(claims, rs, j);
    if !Symbolic(prv) || !Symbolic(nxt) then None else
    Some(Revisit(c.value, rs[j].start, rs[j].end, prv.value, nxt.value))
  }

  /** What the bytes `[a, b)` of a section become between two symbols: padding if short (less than 4
      bytes in code, 16 elsewhere), else the owner's of both, else the section's with both named. */
  function Revisit(c: Claim, a: int, b: int, prv: Claim, nxt: Claim): Claim {
    var padMax := if c.category == "code" || c.category == "radio_code" then 4 else PAD_MAX;
    if b - a < padMax then PADDING
    else if prv.owner == nxt.owner && prv.category == nxt.category then
      Claim(c.category, prv.owner, c.section, "", b - a, a, "", prv.family, Inferred, "")
    else
      Claim(c.category, c.owner, c.section, "", b - a, a, "", "", Section,
            Trunc(NameOrOwner(prv), 40) + " .. " + Trunc(NameOrOwner(nxt), 40))
  }

  ghost function Verdicts2(claims: seq<Option<Claim>>, rs: seq<Run>): (ds: seq<Option<Claim>>)
    requires forall i :: 0 <= i < |rs| ==> rs[i].id < |claims|
    ensures |ds| == |rs| && forall j :: 0 <= j < |rs| ==> ds[j] == Verdict2(claims, rs, j)
  {
    seq(|rs|, j requires 0 <= j < |rs| => Verdict2(claims, rs, j))
  }

  /** The claims a growing table gives to old numbers do not change, nor do the verdicts. */
  lemma {:induction false} VerdictStable(claims: seq<Option<Claim>>, claims': seq<Option<Claim>>, rs: seq<Run>, j: nat)
    requires j < |rs| && claims <= claims' && forall i :: 0 <= i < |rs| ==> rs[i].id < |claims|
    ensures Verdict2(claims', rs, j) == Verdict2(claims, rs, j)
  {
  }

  method RevisitSections(p: Painter)
    requires p.Valid() && Apart(p.windows)
    modifies p`claims, p`index, p.claimIds
    ensures p.Valid() && old(p.claims) <= p.claims
    ensures var rs := AllRuns(p.windows, old(p.claimIds[..]));
            && (forall i :: 0 <= i < |rs| ==> rs[i].id < |old(p.claims)|)
            && Repainted(p.Look(), old(p.Look()), p.Addrs(), rs, Verdicts2(old(p.claims), rs), |rs|)
  {
    var rs := ListRuns(p);
    RunsOfPainter(p.windows, p.claimIds[..]);
    RunIdsAreKnown(p.windows, p.claimIds[..], |p.claims|);
    ghost var look0, addrs, ds := p.Look(), p.Addrs(), Verdicts2(p.claims, rs);
    for idx := 0 to |rs|
      invariant p.Valid() && old(p.claims) <= p.claims
      invariant Repainted(p.Look(), look0, addrs, rs, ds, idx)
    {
      var d := Verdict2(p.claims, rs, idx);
      VerdictStable(old(p.claims), p.claims, rs, idx);
      ghost var look1 := p.Look();
      if d.Some? {
        var _ := p.PaintClaim(rs[idx].start, rs[idx].end, d.value);
      }
      RepaintStep(look1, p.Look(), look0, addrs, rs, ds, idx);
    }
  }

  // ----- what the runs of a painter satisfy -----

  lemma {:induction false} RunsOfPainter(ws: seq<Window>, ids: seq<nat>)
    requires Proper(ws) && Apart(ws) && |ids| == |Addresses(ws)|
    ensures Faithful(AllRuns(ws, ids), ids, Addresses(ws))
    ensures forall j :: 0 <= j < |AllRuns(ws, ids)| ==> StartsInWindow(ws, AllRuns(ws, ids)[j])
  {
    var lo, hi := if ws == [] then 0 else ws[0].lo, if ws == [] then 0 else ws[|ws| - 1].hi;
    AllRunsFaithful(ws, ids, lo, hi);
    AllRunsInWindows(ws, ids);
  }

  ghost predicate StartsInWindow(ws: seq<Window>, r: Run) {
    exists k :: 0 <= k < |ws| && ws[k].lo <= r.start < ws[k].hi
  }

  lemma {:induction false} AllRunsInWindows(ws: seq<Window>, ids: seq<nat>)
    requires Proper(ws) && |ids| == |Addresses(ws)|
    ensures forall j :: 0 <= j < |AllRuns(ws, ids)| ==> StartsInWindow(ws, AllRuns(ws, ids)[j])
  {
    if ws != [] {
      var n := |ws| - 1;
      var off := Offset(ws, n);
      var a, b := AllRuns(ws[..n], ids[..off]), WindowRuns(ws[n].lo, ids[off..]);
      AllRunsInWindows(ws[..n], ids[..off]);
      WindowRunsFaithful(ws[n].lo, ids[off..], b, Span(ws[n].lo, ws[n].hi - ws[n].lo));
      forall j | 0 <= j < |a + b| ensures StartsInWindow(ws, (a + b)[j]) {
        if j < |a| {
          assert StartsInWindow(ws[..n], a[j]);
          var k :| 0 <= k < n && ws[..n][k].lo <= a[j].start < ws[..n][k].hi;
          assert ws[k].lo <= a[j].start < ws[k].hi;
        } else {
          assert ws[n].lo <= b[j - |a|].start < ws[n].hi;
        }
      }
    }
  }

  lemma StartIsMapped(segs: seq<Seg>, ws: seq<Window>, rs: seq<Run>, j: nat)
    requires Mapped(segs, ws) && j < |rs| && StartsInWindow(ws, rs[j])
    ensures SegAt(segs, rs[j].start).Some?
  {
  }

  /** A run's number is that of some byte. */
  lemma {:induction false} RunIdsAreKnown(ws: seq<Window>, ids: seq<nat>, n: nat)
    requires Proper(ws) && |ids| == |Addresses(ws)| && forall i :: 0 <= i < |ids| ==> ids[i] < n
    ensures forall j :: 0 <= j < |AllRuns(ws, ids)| ==> AllRuns(ws, ids)[j].id < n
  {
    if ws != [] {
      var off := Offset(ws, |ws| - 1);
      RunIdsAreKnown(ws[..|ws| - 1], ids[..off], n);
      WindowRunIdsAreKnown(ws[|ws| - 1].lo, ids[off..], n);
    }
  }

  lemma {:induction false} WindowRunIdsAreKnown(lo: int, ids: seq<nat>, n: nat)
    requires forall i :: 0 <= i < |ids| ==> ids[i] < n
    ensures forall j :: 0 <= j < |WindowRuns(lo, ids)| ==> WindowRuns(lo, ids)[j].id < n
  {
    if ids != [] { WindowRunIdsAreKnown(lo, ids[..|ids| - 1], n); }
  }

  // ----- what becomes of one byte -----

  /** Pass 1 leaves a claimed byte alone and settles an unclaimed one. */
  ghost predicate Fate1(was: Option<Claim>, now: Option<Claim>) {
    if was.Some? then now == was
    else now.Some? && (now.value.kind == Pad || now.value.kind == Idle || now.value.kind == Unknown)
  }

  /** Pass 2 leaves every byte alone except one that only a section holds; that one keeps its category
      and section, or becomes padding. */
  ghost predicate Fate2(was: Option<Claim>, now: Option<Claim>) {
    || now == was
    || (&& was.Some? && was.value.kind == Section
        && (|| now == Some(PADDING)
            || (&& now.Some? && (now.value.kind == Inferred || now.value.kind == Section)
                && now.value.category == was.value.category && now.value.section == was.value.section)))
  }

  /** Number 0 and only number 0 is no claim. */
  ghost predicate ZeroIsNone(claims: seq<Option<Claim>>) {
    |claims| > 0 && claims[0] == None && forall id :: 0 < id < |claims| ==> claims[id].Some?
  }

  lemma {:induction false} Pass1Fates(
    ws: seq<Window>, segs: seq<Seg>, ids: seq<nat>, claims: seq<Option<Claim>>, look: View)
    requires Proper(ws) && Apart(ws) && |ids| == |Addresses(ws)| && Mapped(segs, ws) && ZeroIsNone(claims)
    requires forall i :: 0 <= i < |ids| ==> ids[i] < |claims|
    requires var rs := AllRuns(ws, ids);
             Repainted(look, Resolve(ids, claims), Addresses(ws), rs, Verdicts1(rs, segs), |rs|)
    ensures forall pos :: 0 <= pos < |ids| ==> Fate1(Resolve(ids, claims)[pos], look[pos])
  {
    var rs, addrs := AllRuns(ws, ids), Addresses(ws);
    RunsOfPainter(ws, ids);
    forall j | 0 <= j < |rs| ensures SegAt(segs, rs[j].start).Some? { StartIsMapped(segs, ws, rs, j); }
    forall pos | 0 <= pos < |ids| ensures Fate1(Resolve(ids, claims)[pos], look[pos]) {
      ByteFate1(segs, ids, claims, look, addrs, rs, pos);
    }
  }

  lemma {:induction false} ByteFate1(
    segs: seq<Seg>, ids: seq<nat>, claims: seq<Option<Claim>>, look: View, addrs: seq<int>, rs: seq<Run>, pos: nat)
    requires pos < |ids| && ZeroIsNone(claims) && Faithful(rs, ids, addrs)
    requires forall i :: 0 <= i < |ids| ==> ids[i] < |claims|
    requires forall j :: 0 <= j < |rs| ==> SegAt(segs, rs[j].start).Some?
    requires Repainted(look, Resolve(ids, claims), addrs, rs, Verdicts1(rs, segs), |rs|)
    ensures Fate1(Resolve(ids, claims)[pos], look[pos])
  {
    assert Covered(rs, addrs[pos]);
    var j :| 0 <= j < |rs| && In(addrs[pos], rs[j]);
    assert look[pos] == if Verdicts1(rs, segs)[j].Some? then Verdicts1(rs, segs)[j] else Resolve(ids, claims)[pos];
    Verdict1Fate(rs, segs, j, claims[ids[pos]]);
  }

  lemma {:induction false} Verdict1Fate(rs: seq<Run>, segs: seq<Seg>, j: nat, was: Option<Claim>)
    requires j < |rs| && SegAt(segs, rs[j].start).Some? && (rs[j].id == 0 <==> was.None?)
    ensures Fate1(was, if Verdict1(rs, segs, j).Some? then Verdict1(rs, segs, j) else was)
  {
  }

  lemma {:induction false} Pass2Fates(ws: seq<Window>, ids: seq<nat>, claims: seq<Option<Claim>>, look: View)
    requires Proper(ws) && Apart(ws) && |ids| == |Addresses(ws)|
    requires forall i :: 0 <= i < |ids| ==> ids[i] < |claims|
    requires forall j :: 0 <= j < |AllRuns(ws, ids)| ==> AllRuns(ws, ids)[j].id < |claims|
    requires var rs := AllRuns(ws, ids);
             Repainted(look, Resolve(ids, claims), Addresses(ws), rs, Verdicts2(claims, rs), |rs|)
    ensures forall pos :: 0 <= pos < |ids| ==> Fate2(Resolve(ids, claims)[pos], look[pos])
  {
    var rs, addrs := AllRuns(ws, ids), Addresses(ws);
    RunsOfPainter(ws, ids);
    forall pos | 0 <= pos < |ids| ensures Fate2(Resolve(ids, claims)[pos], look[pos]) {
      ByteFate2(ids, claims, look, addrs, rs, pos);
    }
  }

  lemma {:induction false} ByteFate2(
    ids: seq<nat>, claims: seq<Option<Claim>>, look: View, addrs: seq<int>, rs: seq<Run>, pos: nat)
    requires pos < |ids| && Faithful(rs, ids, addrs)
    requires forall i :: 0 <= i < |ids| ==> ids[i] < |claims|
    requires forall j :: 0 <= j < |rs| ==> rs[j].id < |claims|
    requires Repainted(look, Resolve(ids, claims), addrs, rs, Verdicts2(claims, rs), |rs|)
    ensures Fate2(Resolve(ids, claims)[pos], look[pos])
  {
    assert Covered(rs, addrs[pos]);
    var j :| 0 <= j < |rs| && In(addrs[pos], rs[j]);
    assert look[pos] == if Verdicts2(claims, rs)[j].Some? then Verdicts2(claims, rs)[j] else Resolve(ids, claims)[pos];
    Verdict2Fate(claims, rs, j);
  }

  lemma {:induction false} Verdict2Fate(claims: seq<Option<Claim>>, rs: seq<Run>, j: nat)
    requires j < |rs| && forall i :: 0 <= i < |rs| ==> rs[i].id < |claims|
    ensures var d, was := Verdict2(claims, rs, j), claims[rs[j].id]; Fate2(was, if d.Some? then d else was)
  {
  }

  // ----- the tally -----

  function OfKind(claims: seq<Option<Claim>>, k: Kind): nat -> bool {
    (id: nat) => id < |claims| && claims[id].Some? && claims[id].value.kind == k
  }

  const NOTHING: map<Kind, int> :=
    map[Symbol := 0, Inferred := 0, Section := 0, Fixed := 0, Pad := 0, Idle := 0, Unknown := 0]

  lemma NothingYet(k: Kind)
    ensures k in NOTHING && NOTHING[k] == 0
  {
    match k
    case Symbol =>
    case Inferred =>
    case Section =>
    case Fixed =>
    case Pad =>
    case Idle =>
    case Unknown =>
  }

  function TotalOf(q: map<Kind, int>): int
    requires forall k: Kind :: k in q
  {
    q[Symbol] + q[Inferred] + q[Section] + q[Fixed] + q[Pad] + q[Idle] + q[Unknown]
  }

  /** When every byte is claimed, the kinds partition the bytes. */
  lemma {:induction false} KindsPartition(ids: seq<nat>, claims: seq<Option<Claim>>)
    requires forall i :: 0 <= i < |ids| ==> ids[i] < |claims| && claims[ids[i]].Some?
    ensures CountIf(ids, OfKind(claims, Symbol)) + CountIf(ids, OfKind(claims, Inferred)) +
            CountIf(ids, OfKind(claims, Section)) + CountIf(ids, OfKind(claims, Fixed)) +
            CountIf(ids, OfKind(claims, Pad)) + CountIf(ids, OfKind(claims, Idle)) +
            CountIf(ids, OfKind(claims, Unknown)) == |ids|
  {
    if ids != [] {
      var n := |ids| - 1;
      KindsPartition(ids[..n], claims);
      assert claims[ids[n]].Some?;
    }
  }

  method TallyRuns(rs: seq<Run>, claims: seq<Option<Claim>>) returns (q: map<Kind, int>)
    requires forall j :: 0 <= j < |rs| ==> rs[j].id < |claims|
    ensures forall k: Kind :: k in q && q[k] == RunBytes(rs, OfKind(claims, k))
  {
    q := NOTHING;
    forall k: Kind ensures k in q && q[k] == 0 { NothingYet(k); }
    for i := 0 to |rs|
      invariant forall k: Kind :: k in q && q[k] == RunBytes(rs[..i], OfKind(claims, k))
    {
      var c := claims[rs[i].id];
      assert rs[..i + 1][..i] == rs[..i];
      if c.Some? {
        var k := c.value.kind;
        q := q[k := q[k] + (rs[i].end - rs[i].start)];
      }
    }
    assert rs[..|rs|] == rs;
  }

  method QualityTally(p: Painter) returns (q: map<Kind, int>)
    requires p.Valid()
    ensures forall k: Kind :: k in q && q[k] == CountIf(p.claimIds[..], OfKind(p.claims, k))
  {
    var rs := ListRuns(p);
    RunIdsAreKnown(p.windows, p.claimIds[..], |p.claims|);
    q := TallyRuns(rs, p.claims);
    forall k: Kind ensures q[k] == CountIf(p.claimIds[..], OfKind(p.claims, k)) {
      AllRunBytes(p.windows, p.claimIds[..], OfKind(p.claims, k));
    }
  }

  lemma {:induction false} TallyAddsUp(ids: seq<nat>, claims: seq<Option<Claim>>, q: map<Kind, int>)
    requires forall i :: 0 <= i < |ids| ==> ids[i] < |claims|
    requires forall i :: 0 <= i < |ids| ==> Resolve(ids, claims)[i].Some?
    requires forall k: Kind :: k in q && q[k] == CountIf(ids, OfKind(claims, k))
    ensures TotalOf(q) == |ids|
  {
    forall i | 0 <= i < |ids| ensures claims[ids[i]].Some? { assert Resolve(ids, claims)[i].Some?; }
    KindsPartition(ids, claims);
  }

  // ----- the classifier -----

  /** What becomes of one byte over both passes. */
  ghost predicate Fate(was: Option<Claim>, now: Option<Claim>) {
    && now.Some?
    && (was.None? ==> now.value.kind == Pad || now.value.kind == Idle || now.value.kind == Unknown)
    && (was.Some? ==> Fate2(was, now))
  }

  ghost predicate InTable(ws: seq<Window>, ids: seq<nat>, claims: seq<Option<Claim>>) {
    Proper(ws) && |ids| == |Addresses(ws)| && forall i :: 0 <= i < |ids| ==> ids[i] < |claims|
  }

  /** `look` is the painting after pass 1. */
  ghost predicate Settled(ws: seq<Window>, segs: seq<Seg>, ids: seq<nat>, claims: seq<Option<Claim>>, look: View) {
    && InTable(ws, ids, claims)
    && var rs := AllRuns(ws, ids);
       Repainted(look, Resolve(ids, claims), Addresses(ws), rs, Verdicts1(rs, segs), |rs|)
  }

  /** `look` is the painting after pass 2. */
  ghost predicate Revisited(ws: seq<Window>, ids: seq<nat>, claims: seq<Option<Claim>>, look: View) {
    && InTable(ws, ids, claims)
    && var rs := AllRuns(ws, ids);
       && (forall j :: 0 <= j < |rs| ==> rs[j].id < |claims|)
       && Repainted(look, Resolve(ids, claims), Addresses(ws), rs, Verdicts2(claims, rs), |rs|)
  }

  /** Pass 1 leads to the numbers and claims in between, and pass 2 from them to `look`. */
  ghost predicate TwoPasses(
    ws: seq<Window>, segs: seq<Seg>, ids: seq<nat>, claims: seq<Option<Claim>>,
    ids': seq<nat>, claims': seq<Option<Claim>>, look: View) {
    InTable(ws, ids', claims') && Settled(ws, segs, ids, claims, Resolve(ids', claims')) && Revisited(ws, ids', claims', look)
  }

  /** Total and conservative: every byte ends up claimed, and a byte held by a symbol, a fixed row, or
      anything but a bare section keeps its claim. The tally counts the bytes of each kind and adds
      up to all of them. */
  method Classify(p: Painter, segs: seq<Seg>) returns (q: map<Kind, int>)
    requires p.Valid() && Apart(p.windows) && Mapped(segs, p.windows)
    modifies p`claims, p`index, p.claimIds
    ensures p.Valid() && |p.Look()| == |old(p.Look())|
    ensures exists ids, claims :: TwoPasses(p.windows, segs, old(p.claimIds[..]), old(p.claims), ids, claims, p.Look())
    ensures forall pos :: 0 <= pos < |p.Look()| ==> Fate(old(p.Look())[pos], p.Look()[pos])
    ensures forall k: Kind :: k in q && q[k] == CountIf(p.claimIds[..], OfKind(p.claims, k))
    ensures TotalOf(q) == |p.Addrs()|
  {
    ghost var ids0, claims0, look0 := p.claimIds[..], p.claims, p.Look();
    Pass1(p, segs);
    ghost var ids1, claims1, look1 := p.claimIds[..], p.claims, p.Look();
    Pass2(p);
    FatesCompose(look0, look1, p.Look());
    assert TwoPasses(p.windows, segs, ids0, claims0, ids1, claims1, p.Look());
    q := QualityTally(p);
    TallyAddsUp(p.claimIds[..], p.claims, q);
  }

  lemma {:induction false} FatesCompose(a: View, b: View, c: View)
    requires |a| == |b| == |c|
    requires forall pos :: 0 <= pos < |a| ==> Fate1(a[pos], b[pos])
    requires forall pos :: 0 <= pos < |b| ==> Fate2(b[pos], c[pos])
    ensures forall pos :: 0 <= pos < |c| ==> Fate(a[pos], c[pos])
  {
  }

  method Pass1(p: Painter, segs: seq<Seg>)
    requires p.Valid() && Apart(p.windows) && Mapped(segs, p.windows)
    modifies p`claims, p`index, p.claimIds
    ensures p.Valid() && Settled(p.windows, segs, old(p.claimIds[..]), old(p.claims), p.Look())
    ensures forall pos :: 0 <= pos < |p.Look()| ==> Fate1(old(p.Look())[pos], p.Look()[pos])
  {
    ghost var ids0, claims0 := p.claimIds[..], p.claims;
    SettleUnclaimed(p, segs);
    Pass1Fates(p.windows, segs, ids0, claims0, p.Look());
  }

  method Pass2(p: Painter)
    requires p.Valid() && Apart(p.windows)
    modifies p`claims, p`index, p.claimIds
    ensures p.Valid() && Revisited(p.windows, old(p.claimIds[..]), old(p.claims), p.Look())
    ensures forall pos :: 0 <= pos < |p.Look()| ==> Fate2(old(p.Look())[pos], p.Look()[pos])
  {
    ghost var ids0, claims0 := p.claimIds[..], p.claims;
    RevisitSections(p);
    Pass2Fates(p.windows, ids0, claims0, p.Look());
  }
}
