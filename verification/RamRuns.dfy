/** Maximal runs of equally claimed bytes, window by window. Whatever the painting, the runs are in
    address order, cover every byte exactly once, hold one claim number each, cannot be extended
    inside their window, and their lengths add up to the bytes they describe. */
module RamRuns {
  import opened Options
  import opened RamLayout
  import opened RamPainter

  datatype Run = Run(start: int, end: int, id: nat)

  // ----- the runs -----

  /** One more byte: it extends the last run or starts a new one. */
  function Extend(rs: seq<Run>, a: int, id: nat): seq<Run> {
    var n := |rs| - 1;
    if rs != [] && rs[n].id == id then rs[..n] + [Run(rs[n].start, a + 1, id)] else rs + [Run(a, a + 1, id)]
  }

  function WindowRuns(lo: int, ids: seq<nat>): seq<Run> {
    if ids == [] then [] else
    var n := |ids| - 1;
    Extend(WindowRuns(lo, ids[..n]), lo + n, ids[n])
  }

  function AllRuns(ws: seq<Window>, ids: seq<nat>): seq<Run>
    requires Proper(ws) && |ids| == |Addresses(ws)|
  {
    if ws == [] then [] else
    var n := |ws| - 1;
    var off := Offset(ws, n);
    AllRuns(ws[..n], ids[..off]) + WindowRuns(ws[n].lo, ids[off..])
  }

  // ----- what makes a list of runs faithful -----

  predicate In(a: int, r: Run) {
    r.start <= a < r.end
  }

  predicate Ordered(rs: seq<Run>) {
    && (forall j :: 0 <= j < |rs| ==> rs[j].start < rs[j].end)
    && (forall i, j :: 0 <= i < j < |rs| ==> rs[i].end <= rs[j].start)
  }

  predicate Uniform(rs: seq<Run>, ids: seq<nat>, addrs: seq<int>)
    requires |ids| == |addrs|
  {
    forall j, pos :: 0 <= j < |rs| && 0 <= pos < |ids| && In(addrs[pos], rs[j]) ==> ids[pos] == rs[j].id
  }

  ghost predicate Covered(rs: seq<Run>, a: int) {
    exists j :: 0 <= j < |rs| && In(a, rs[j])
  }

  ghost predicate Covers(rs: seq<Run>, addrs: seq<int>) {
    forall pos :: 0 <= pos < |addrs| ==> Covered(rs, addrs[pos])
  }

  ghost predicate Faithful(rs: seq<Run>, ids: seq<nat>, addrs: seq<int>) {
    |ids| == |addrs| && Ordered(rs) && Uniform(rs, ids, addrs) && Covers(rs, addrs)
  }

  /** Everything lies in `[lo, hi)`. */
  ghost predicate Bounded(rs: seq<Run>, addrs: seq<int>, lo: int, hi: int) {
    && (forall j :: 0 <= j < |rs| ==> lo <= rs[j].start && rs[j].end <= hi)
    && (forall pos :: 0 <= pos < |addrs| ==> lo <= addrs[pos] < hi)
  }

  lemma {:induction false} FaithfulAppend(
    rs: seq<Run>, ids: seq<nat>, addrs: seq<int>, rs': seq<Run>, ids': seq<nat>, addrs': seq<int>,
    lo: int, mid: int, hi: int)
    requires Faithful(rs, ids, addrs) && Bounded(rs, addrs, lo, mid)
    requires Faithful(rs', ids', addrs') && Bounded(rs', addrs', mid, hi)
    requires lo <= mid <= hi
    ensures Faithful(rs + rs', ids + ids', addrs + addrs')
    ensures Bounded(rs + rs', addrs + addrs', lo, hi)
  {
    forall pos | 0 <= pos < |addrs + addrs'| ensures Covered(rs + rs', (addrs + addrs')[pos]) {
      if pos < |addrs| {
        assert Covered(rs, addrs[pos]);
        var j :| 0 <= j < |rs| && In(addrs[pos], rs[j]);
        assert (rs + rs')[j] == rs[j];
      } else {
        assert Covered(rs', addrs'[pos - |addrs|]);
        var j :| 0 <= j < |rs'| && In(addrs'[pos - |addrs|], rs'[j]);
        assert (rs + rs')[|rs| + j] == rs'[j];
      }
    }
    UniformAppend(rs, ids, addrs, rs', ids', addrs', lo, mid, hi);
  }

  lemma {:induction false} UniformAppend(
    rs: seq<Run>, ids: seq<nat>, addrs: seq<int>, rs': seq<Run>, ids': seq<nat>, addrs': seq<int>,
    lo: int, mid: int, hi: int)
    requires |ids| == |addrs| && Uniform(rs, ids, addrs) && Bounded(rs, addrs, lo, mid)
    requires |ids'| == |addrs'| && Uniform(rs', ids', addrs') && Bounded(rs', addrs', mid, hi)
    ensures Uniform(rs + rs', ids + ids', addrs + addrs')
  {
    forall j, pos | 0 <= j < |rs + rs'| && 0 <= pos < |ids + ids'| && In((addrs + addrs')[pos], (rs + rs')[j])
      ensures (ids + ids')[pos] == (rs + rs')[j].id
    {
      if j < |rs| {
        assert pos < |ids|;
      } else {
        assert pos >= |ids|;
        var j', pos' := j - |rs|, pos - |ids|;
        assert In(addrs'[pos'], rs'[j']);
      }
    }
  }

  function Span(lo: int, n: nat): seq<int> {
    seq(n, i => lo + i)
  }

  /** The runs so far end where the next byte is. */
  predicate EndsAt(rs: seq<Run>, lo: int, a: int) {
    && (rs == [] ==> a == lo)
    && (rs != [] ==> rs[|rs| - 1].end == a)
  }

  lemma {:induction false} ExtendCovers(rs: seq<Run>, addrs: seq<int>, lo: int, a: int, id: nat)
    requires Ordered(rs) && Covers(rs, addrs) && EndsAt(rs, lo, a)
    ensures Covers(Extend(rs, a, id), addrs + [a])
  {
    var r := Extend(rs, a, id);
    forall pos | 0 <= pos < |addrs + [a]| ensures Covered(r, (addrs + [a])[pos]) {
      if pos < |addrs| {
        var j :| 0 <= j < |rs| && In(addrs[pos], rs[j]);
        assert In(addrs[pos], r[j]);
      } else {
        assert In(a, r[|r| - 1]);
      }
    }
  }

  lemma {:induction false} ExtendFaithful(
    rs: seq<Run>, ids: seq<nat>, addrs: seq<int>, lo: int, a: int, id: nat)
    requires Faithful(rs, ids, addrs) && Bounded(rs, addrs, lo, a) && EndsAt(rs, lo, a) && lo <= a
    ensures Faithful(Extend(rs, a, id), ids + [id], addrs + [a])
    ensures Bounded(Extend(rs, a, id), addrs + [a], lo, a + 1) && EndsAt(Extend(rs, a, id), lo, a + 1)
  {
    ExtendCovers(rs, addrs, lo, a, id);
    var r := Extend(rs, a, id);
    forall j, pos | 0 <= j < |r| && 0 <= pos < |ids + [id]| && In((addrs + [a])[pos], r[j])
      ensures (ids + [id])[pos] == r[j].id
    {
      if pos < |ids| && j < |rs| { assert In(addrs[pos], rs[j]); }
    }
  }

  ghost predicate Good(rs: seq<Run>, ids: seq<nat>, addrs: seq<int>, lo: int, hi: int) {
    lo <= hi && Faithful(rs, ids, addrs) && Bounded(rs, addrs, lo, hi) && EndsAt(rs, lo, hi)
  }

  lemma {:induction false} SpanStep(lo: int, n: nat)
    ensures Span(lo, n) + [lo + n] == Span(lo, n + 1)
  {
  }

  lemma {:induction false} ExtendGood(
    rs: seq<Run>, ids: seq<nat>, addrs: seq<int>, lo: int, a: int, id: nat,
    rs': seq<Run>, ids': seq<nat>, addrs': seq<int>)
    requires Good(rs, ids, addrs, lo, a)
    requires rs' == Extend(rs, a, id) && ids' == ids + [id] && addrs' == addrs + [a]
    ensures Good(rs', ids', addrs', lo, a + 1)
  {
    ExtendFaithful(rs, ids, addrs, lo, a, id);
  }

  lemma {:induction false} WindowRunsFaithful(lo: int, ids: seq<nat>, rs: seq<Run>, addrs: seq<int>)
    requires rs == WindowRuns(lo, ids) && addrs == Span(lo, |ids|)
    ensures Good(rs, ids, addrs, lo, lo + |ids|)
    decreases |ids|
  {
    if ids != [] {
      var n := |ids| - 1;
      var rs0, ids0, addrs0 := WindowRuns(lo, ids[..n]), ids[..n], Span(lo, n);
      WindowRunsFaithful(lo, ids0, rs0, addrs0);
      OneMoreByte(lo, ids, rs, addrs, rs0, addrs0);
    }
  }

  lemma {:induction false} OneMoreByte(
    lo: int, ids: seq<nat>, rs: seq<Run>, addrs: seq<int>, rs0: seq<Run>, addrs0: seq<int>)
    requires ids != [] && Good(rs0, ids[..|ids| - 1], addrs0, lo, lo + |ids| - 1)
    requires rs == Extend(rs0, lo + |ids| - 1, ids[|ids| - 1])
    requires addrs0 == Span(lo, |ids| - 1) && addrs == Span(lo, |ids|)
    ensures Good(rs, ids, addrs, lo, lo + |ids|)
  {
    var n := |ids| - 1;
    SpanStep(lo, n);
    assert ids == ids[..n] + [ids[n]];
    ExtendGood(rs0, ids[..n], addrs0, lo, lo + n, ids[n], rs, ids, addrs);
  }

  lemma {:induction false} WindowRunsBounded(lo: int, ids: seq<nat>, addrs: seq<int>, hi: int)
    requires addrs == Span(lo, |ids|) && lo + |ids| <= hi
    ensures Faithful(WindowRuns(lo, ids), ids, addrs) && Bounded(WindowRuns(lo, ids), addrs, lo, hi)
  {
    WindowRunsFaithful(lo, ids, WindowRuns(lo, ids), addrs);
  }

  /** The runs of a whole painter: in order, uniform, and covering every byte. */
  lemma {:induction false} AllRunsFaithful(ws: seq<Window>, ids: seq<nat>, lo: int, hi: int)
    requires Proper(ws) && Apart(ws) && |ids| == |Addresses(ws)|
    requires lo <= hi && forall k :: 0 <= k < |ws| ==> lo <= ws[k].lo && ws[k].hi <= hi
    ensures Faithful(AllRuns(ws, ids), ids, Addresses(ws))
    ensures Bounded(AllRuns(ws, ids), Addresses(ws), lo, hi)
  {
    if ws != [] {
      var n := |ws| - 1;
      var off, w := Offset(ws, n), ws[n];
      var span := Span(w.lo, w.hi - w.lo);
      assert ids[..off] + ids[off..] == ids && |ids[off..]| == w.hi - w.lo;
      assert Addresses(ws) == Addresses(ws[..n]) + span;
      AllRunsFaithful(ws[..n], ids[..off], lo, w.lo);
      WindowRunsBounded(w.lo, ids[off..], span, hi);
      FaithfulAppend(AllRuns(ws[..n], ids[..off]), ids[..off], Addresses(ws[..n]),
                     WindowRuns(w.lo, ids[off..]), ids[off..], span, lo, w.lo, hi);
    }
  }

  predicate NeighboursDiffer(rs: seq<Run>) {
    forall j :: 0 < j < |rs| ==> rs[j - 1].end == rs[j].start && rs[j - 1].id != rs[j].id
  }

  /** Inside a window no run can be extended: it touches its neighbours, and they hold other numbers. */
  lemma {:induction false} WindowRunsMaximal(lo: int, ids: seq<nat>)
    ensures NeighboursDiffer(WindowRuns(lo, ids)) && EndsAt(WindowRuns(lo, ids), lo, lo + |ids|)
  {
    if ids != [] {
      var n := |ids| - 1;
      WindowRunsMaximal(lo, ids[..n]);
      var rs := WindowRuns(lo, ids[..n]);
      assert NeighboursDiffer(Extend(rs, lo + n, ids[n]));
    }
  }

  // ----- counting -----

  function CountIf(ids: seq<nat>, p: nat -> bool): nat {
    if ids == [] then 0 else CountIf(ids[..|ids| - 1], p) + if p(ids[|ids| - 1]) then 1 else 0
  }

  function RunBytes(rs: seq<Run>, p: nat -> bool): int {
    if rs == [] then 0
    else RunBytes(rs[..|rs| - 1], p) +
         (var r := rs[|rs| - 1]; if p(r.id) then r.end - r.start else 0)
  }

  lemma {:induction false} CountAppend(a: seq<nat>, b: seq<nat>, p: nat -> bool)
    ensures CountIf(a + b, p) == CountIf(a, p) + CountIf(b, p)
    decreases |b|
  {
    if b == [] {
      assert a + b == a;
    } else {
      assert (a + b)[..|a + b| - 1] == a + b[..|b| - 1];
      CountAppend(a, b[..|b| - 1], p);
    }
  }

  lemma {:induction false} RunBytesAppend(a: seq<Run>, b: seq<Run>, p: nat -> bool)
    ensures RunBytes(a + b, p) == RunBytes(a, p) + RunBytes(b, p)
    decreases |b|
  {
    if b == [] {
      assert a + b == a;
    } else {
      assert (a + b)[..|a + b| - 1] == a + b[..|b| - 1];
      RunBytesAppend(a, b[..|b| - 1], p);
    }
  }

  lemma {:induction false} ExtendBytes(rs: seq<Run>, lo: int, a: int, id: nat, p: nat -> bool)
    requires EndsAt(rs, lo, a)
    ensures RunBytes(Extend(rs, a, id), p) == RunBytes(rs, p) + if p(id) then 1 else 0
  {
    var r := Extend(rs, a, id);
    assert r[..|r| - 1] == if rs != [] && rs[|rs| - 1].id == id then rs[..|rs| - 1] else rs;
  }

  lemma {:induction false} WindowRunBytes(lo: int, ids: seq<nat>, p: nat -> bool)
    ensures RunBytes(WindowRuns(lo, ids), p) == CountIf(ids, p)
  {
    if ids != [] {
      var n := |ids| - 1;
      WindowRunBytes(lo, ids[..n], p);
      WindowRunsMaximal(lo, ids[..n]);
      ExtendBytes(WindowRuns(lo, ids[..n]), lo, lo + n, ids[n], p);
    }
  }

  /** For any selection of claim numbers, the selected runs are as long as there are selected bytes. */
  lemma {:induction false} AllRunBytes(ws: seq<Window>, ids: seq<nat>, p: nat -> bool)
    requires Proper(ws) && |ids| == |Addresses(ws)|
    ensures RunBytes(AllRuns(ws, ids), p) == CountIf(ids, p)
  {
    if ws != [] {
      var n := |ws| - 1;
      var off := Offset(ws, n);
      AllRunBytes(ws[..n], ids[..off], p);
      WindowRunBytes(ws[n].lo, ids[off..], p);
      RunBytesAppend(AllRuns(ws[..n], ids[..off]), WindowRuns(ws[n].lo, ids[off..]), p);
      CountAppend(ids[..off], ids[off..], p);
      assert ids[..off] + ids[off..] == ids;
    }
  }

  // ----- the generator -----

  /** Walk the windows and group equal neighbours. */
  method ListRuns(p: Painter) returns (rs: seq<Run>)
    requires p.Valid()
    ensures rs == AllRuns(p.windows, p.claimIds[..])
  {
    rs := RunsOver(p.windows, p.offsets, p.claimIds[..]);
  }

  method RunsOver(ws: seq<Window>, offsets: seq<nat>, ids: seq<nat>) returns (rs: seq<Run>)
    requires Proper(ws) && |offsets| == |ws| && |ids| == |Addresses(ws)|
    requires forall k :: 0 <= k < |ws| ==> offsets[k] == Offset(ws, k)
    ensures rs == AllRuns(ws, ids)
  {
    rs := [];
    for k := 0 to |ws|
      invariant Offset(ws, k) <= |ids| && rs == RunsUpTo(ws, ids, k)
    {
      AllRunsStep(ws, ids, k);
      var part := GroupRuns(ws[k].lo, ids[offsets[k]..offsets[k] + (ws[k].hi - ws[k].lo)]);
      rs := rs + part;
    }
    assert ws[..|ws|] == ws && ids[..|ids|] == ids;
  }

  /** The runs of the first `k` windows. */
  ghost function RunsUpTo(ws: seq<Window>, ids: seq<nat>, k: nat): seq<Run>
    requires Proper(ws) && k <= |ws| && Offset(ws, k) <= |ids|
  {
    AllRuns(ws[..k], ids[..Offset(ws, k)])
  }

  lemma {:induction false} AllRunsStep(ws: seq<Window>, ids: seq<nat>, k: nat)
    requires Proper(ws) && k < |ws| && |ids| == |Addresses(ws)|
    ensures Offset(ws, k) <= Offset(ws, k + 1) == Offset(ws, k) + (ws[k].hi - ws[k].lo) <= |ids|
    ensures RunsUpTo(ws, ids, k + 1) ==
            RunsUpTo(ws, ids, k) + WindowRuns(ws[k].lo, ids[Offset(ws, k)..Offset(ws, k + 1)])
  {
    OffsetStep(ws, k);
    AddressesGrow(ws, k + 1);
    var lo, hi := Offset(ws, k), Offset(ws, k + 1);
    assert ws[..k + 1][..k] == ws[..k];
    assert ids[..hi][..lo] == ids[..lo] && ids[..hi][lo..] == ids[lo..hi];
  }

  /** Group equal neighbours of one window's slice. */
  method GroupRuns(lo: int, ids: seq<nat>) returns (rs: seq<Run>)
    ensures rs == WindowRuns(lo, ids)
  {
    rs := [];
    for i := 0 to |ids|
      invariant rs == WindowRuns(lo, ids[..i])
    {
      rs := Extend(rs, lo + i, ids[i]);
      assert ids[..i + 1][..i] == ids[..i];
    }
    assert ids[..|ids|] == ids;
  }
}
