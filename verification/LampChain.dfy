/** Lamps in wire order, read from a netlist, and the checks that tie that order to the strokes table
    and to the placed lamps. */
module LampChain {
  import opened Sequences

  type Lamp = string

  /** A net, by the lamps whose data-in pins and whose data-out pins are on it. */
  datatype Net = Net(ins: seq<Lamp>, outs: seq<Lamp>)

  datatype Error = TwoHeads | SplitNet | NoHead | LoopsBack | LampsDisagree | StrokesDisagree

  datatype Result<+T> = Ok(value: T) | Err(error: Error)

  predicate IsLink(net: Net) {
    |net.ins| == 1 && |net.outs| == 1
  }

  predicate IsHead(net: Net) {
    |net.ins| == 1 && net.outs == []
  }

  /** Which lamp each data-out pin feeds; a later net wins. */
  function Links(nets: seq<Net>): map<Lamp, Lamp> {
    if nets == [] then map[] else
    var net, before := nets[|nets| - 1], Links(nets[..|nets| - 1]);
    if IsLink(net) then before[net.outs[0] := net.ins[0]] else before
  }

  /** The lamps that take data from off the chain. */
  function Heads(nets: seq<Net>): seq<Lamp> {
    if nets == [] then [] else
    var net, before := nets[|nets| - 1], Heads(nets[..|nets| - 1]);
    if IsHead(net) then before + [net.ins[0]] else before
  }

  predicate Unsplit(nets: seq<Net>) {
    forall k :: 0 <= k < |nets| ==> |nets[k].ins| <= 1
  }

  predicate OneHead(nets: seq<Net>) {
    Unsplit(nets) && |Heads(nets)| == 1
  }

  /** Net `k` is the last one on which `d` alone feeds one lamp. */
  predicate LastLink(nets: seq<Net>, d: Lamp, k: nat) {
    && k < |nets| && IsLink(nets[k]) && nets[k].outs[0] == d
    && forall j :: k < j < |nets| && IsLink(nets[j]) ==> nets[j].outs[0] != d
  }

  lemma {:induction false} LinksAreLastNets(nets: seq<Net>, d: Lamp)
    ensures d in Links(nets) <==> exists k: nat :: LastLink(nets, d, k)
    ensures forall k: nat :: LastLink(nets, d, k) ==> d in Links(nets) && Links(nets)[d] == nets[k].ins[0]
  {
    if nets != [] {
      var n := |nets| - 1;
      var before := nets[..n];
      LinksAreLastNets(before, d);
      if IsLink(nets[n]) && nets[n].outs[0] == d {
        assert LastLink(nets, d, n);
        assert forall k: nat :: LastLink(nets, d, k) ==> k == n;
      } else {
        forall k: nat ensures LastLink(before, d, k) <==> LastLink(nets, d, k) {
          assert forall j :: 0 <= j < n ==> before[j] == nets[j];
        }
      }
    }
  }

  // ----- following the links -----

  predicate Path(links: map<Lamp, Lamp>, head: Lamp, c: seq<Lamp>) {
    && c != [] && c[0] == head
    && forall k :: 0 <= k < |c| - 1 ==> c[k] in links && links[c[k]] == c[k + 1]
  }

  /** A path that cannot be extended. */
  predicate Wire(links: map<Lamp, Lamp>, head: Lamp, c: seq<Lamp>) {
    Path(links, head, c) && c[|c| - 1] !in links
  }

  /** From the same lamp, the same lamps follow. */
  lemma {:induction false} SameOnward(links: map<Lamp, Lamp>, head: Lamp, c: seq<Lamp>, d: seq<Lamp>, i: nat, j: nat, m: nat)
    requires Path(links, head, c) && Path(links, head, d)
    requires i + m < |c| && j + m < |d| && c[i] == d[j]
    ensures c[i + m] == d[j + m]
  {
    if m > 0 {
      SameOnward(links, head, c, d, i, j, m - 1);
      assert links[c[i + m - 1]] == c[i + m - 1 + 1] && links[d[j + m - 1]] == d[j + m - 1 + 1];
    }
  }

  /** A wire never repeats a lamp: a repeated lamp would lead round for ever. */
  lemma {:induction false} WireIsDistinct(links: map<Lamp, Lamp>, head: Lamp, c: seq<Lamp>)
    requires Wire(links, head, c)
    ensures Distinct(c)
  {
    forall i, j | 0 <= i < j < |c| ensures c[i] != c[j] {
      if c[i] == c[j] {
        var m := |c| - 1 - j;
        SameOnward(links, head, c, c, i, j, m);
        assert false;
      }
    }
  }

  /** There is at most one wire. */
  lemma {:induction false} WireIsUnique(links: map<Lamp, Lamp>, head: Lamp, c: seq<Lamp>, d: seq<Lamp>)
    requires Wire(links, head, c) && Wire(links, head, d)
    ensures c == d
  {
    NotLonger(links, head, c, d);
    NotLonger(links, head, d, c);
    forall k | 0 <= k < |c| ensures c[k] == d[k] {
      SameOnward(links, head, c, d, 0, 0, k);
    }
  }

  lemma {:induction false} NotLonger(links: map<Lamp, Lamp>, head: Lamp, c: seq<Lamp>, d: seq<Lamp>)
    requires Wire(links, head, c) && Path(links, head, d)
    ensures |d| <= |c|
  {
    if |d| > |c| {
      SameOnward(links, head, c, d, 0, 0, |c| - 1);
      assert false;
    }
  }

  /** A path whose next lamp is already on it goes on for ever: no wire starts at its head. */
  lemma {:induction false} LoopHasNoWire(links: map<Lamp, Lamp>, head: Lamp, c: seq<Lamp>, w: seq<Lamp>)
    requires Path(links, head, c) && c[|c| - 1] in links && links[c[|c| - 1]] in c
    ensures !Wire(links, head, w)
  {
    if Wire(links, head, w) {
      var d := c + [links[c[|c| - 1]]];
      assert Path(links, head, d);
      var j :| 0 <= j < |c| && c[j] == d[|c|];
      NotLonger(links, head, w, d);
      SameOnward(links, head, d, w, 0, 0, j);
      SameOnward(links, head, d, w, 0, 0, |c|);
      WireIsDistinct(links, head, w);
      assert false;
    }
  }

  /** Distinct lamps with an onward link are at most as many as the links. */
  lemma {:induction false} DistinctFit(c: seq<Lamp>, s: set<Lamp>)
    requires Distinct(c) && forall x <- c :: x in s
    ensures |c| <= |s|
  {
    if c != [] {
      var n := |c| - 1;
      DistinctFit(c[..n], s - {c[n]});
    }
  }

  // ----- the two loops -----

  /** `r` is what the nets give: the links and the head, or the first fault in net order. */
  ghost predicate Scanned(nets: seq<Net>, r: Result<(map<Lamp, Lamp>, Lamp)>) {
    match r
    case Ok(found) => OneHead(nets) && found == (Links(nets), Heads(nets)[0])
    case Err(e) => !OneHead(nets) && Fault(nets, e)
  }

  ghost predicate Fault(nets: seq<Net>, e: Error) {
    match e
    case NoHead => Unsplit(nets) && Heads(nets) == []
    case SplitNet => exists k :: 0 <= k < |nets| && |nets[k].ins| > 1 && Unsplit(nets[..k]) && |Heads(nets[..k])| <= 1
    case TwoHeads => exists k :: 0 <= k < |nets| && IsHead(nets[k]) && OneHead(nets[..k])
    case _ => false
  }

  lemma {:induction false} HeadsGrow(nets: seq<Net>, k: nat)
    requires k <= |nets|
    ensures |Heads(nets[..k])| <= |Heads(nets)|
    decreases |nets| - k
  {
    if k < |nets| {
      assert nets[..k + 1][..k] == nets[..k];
      HeadsGrow(nets, k + 1);
    } else {
      assert nets[..k] == nets;
    }
  }

  method Scan(nets: seq<Net>) returns (r: Result<(map<Lamp, Lamp>, Lamp)>)
    ensures Scanned(nets, r)
  {
    var links: map<Lamp, Lamp>, head: seq<Lamp> := map[], [];
    for i := 0 to |nets|
      invariant Unsplit(nets[..i]) && links == Links(nets[..i]) && head == Heads(nets[..i]) && |head| <= 1
    {
      var net := nets[i];
      assert nets[..i + 1][..i] == nets[..i];
      if |net.ins| == 1 && |net.outs| == 1 {
        links := links[net.outs[0] := net.ins[0]];
      } else if |net.ins| == 1 && net.outs == [] {
        if head != [] {
          HeadsGrow(nets, i + 1);
          return Err(TwoHeads);
        }
        head := [net.ins[0]];
      } else if |net.ins| > 1 {
        return Err(SplitNet);
      }
    }
    assert nets[..|nets|] == nets;
    if head == [] { return Err(NoHead); }
    return Ok((links, head[0]));
  }

  method ReadChain(nets: seq<Net>) returns (r: Result<seq<Lamp>>)
    ensures r.Ok? ==> OneHead(nets) && Wire(Links(nets), Heads(nets)[0], r.value) && Distinct(r.value)
    ensures r.Err? && r.error == LoopsBack ==>
              OneHead(nets) && forall w: seq<Lamp> :: !Wire(Links(nets), Heads(nets)[0], w)
    ensures r.Err? && r.error != LoopsBack ==> !OneHead(nets) && Fault(nets, r.error)
  {
    var scan := Scan(nets);
    if scan.Err? { return Err(scan.error); }
    var links, head := scan.value.0, scan.value.1;
    var chain := [head];
    while chain[|chain| - 1] in links
      invariant Path(links, head, chain) && Distinct(chain)
      invariant |chain| <= |links.Keys| + 1
      decreases |links.Keys| + 1 - |chain|
    {
      var next := links[chain[|chain| - 1]];
      if next in chain {
        forall w: seq<Lamp> ensures !Wire(links, head, w) { LoopHasNoWire(links, head, chain, w); }
        return Err(LoopsBack);
      }
      AllLinked(links, head, chain);
      chain := chain + [next];
    }
    return Ok(chain);
  }

  lemma {:induction false} AllLinked(links: map<Lamp, Lamp>, head: Lamp, c: seq<Lamp>)
    requires Path(links, head, c) && Distinct(c) && c[|c| - 1] in links
    ensures |c| <= |links.Keys|
  {
    DistinctFit(c, links.Keys);
  }

  // ----- the strokes and the placed lamps -----

  function Flat(strokes: seq<seq<Lamp>>): seq<Lamp> {
    if strokes == [] then [] else strokes[0] + Flat(strokes[1..])
  }

  /** Lamp `j` of stroke `i` comes after the lamps of the strokes before it. */
  lemma {:induction false} FlatKeepsOrder(strokes: seq<seq<Lamp>>, i: nat, j: nat)
    requires i < |strokes| && j < |strokes[i]|
    ensures |Flat(strokes[..i])| + j < |Flat(strokes)|
    ensures Flat(strokes)[|Flat(strokes[..i])| + j] == strokes[i][j]
  {
    if i > 0 {
      FlatKeepsOrder(strokes[1..], i - 1, j);
      assert strokes[..i][1..] == strokes[1..][..i - 1];
    }
  }

  lemma {:induction false} FlatAppend(strokes: seq<seq<Lamp>>, more: seq<Lamp>)
    ensures Flat(strokes + [more]) == Flat(strokes) + more
  {
    if strokes == [] {
      assert strokes + [more] == [more];
      assert Flat([more][1..]) == [];
    } else {
      assert (strokes + [more])[1..] == strokes[1..] + [more];
      FlatAppend(strokes[1..], more);
    }
  }

  lemma {:induction false} DistinctCounts(c: seq<Lamp>, x: Lamp)
    requires Distinct(c)
    ensures multiset(c)[x] == if x in c then 1 else 0
  {
    if c != [] {
      var n := |c| - 1;
      assert c == c[..n] + [c[n]];
      DistinctCounts(c[..n], x);
    }
  }

  /** Comparing the sorted lists compares the lamps, because a chain has no repetition. */
  lemma {:induction false} SameLamps(c: seq<Lamp>, placed: set<Lamp>)
    requires Distinct(c)
    ensures multiset(placed) == multiset(c) <==> placed == set x | x in c
  {
    forall x ensures multiset(c)[x] == if x in c then 1 else 0 { DistinctCounts(c, x); }
    if multiset(placed) == multiset(c) {
      forall x ensures x in placed <==> x in c { assert multiset(placed)[x] == multiset(c)[x]; }
    }
  }

  /** What the strokes must be for the drawing to be made: the whole wire, over exactly the placed lamps. */
  ghost predicate Drawable(nets: seq<Net>, placed: set<Lamp>, strokes: seq<seq<Lamp>>) {
    && OneHead(nets) && Wire(Links(nets), Heads(nets)[0], Flat(strokes))
    && placed == set x | x in Flat(strokes)
  }

  /** Why nothing is drawn: no chain, a chain over other lamps, or strokes that are not the chain. */
  ghost predicate Refused(nets: seq<Net>, placed: set<Lamp>, strokes: seq<seq<Lamp>>, e: Error) {
    match e
    case LoopsBack => OneHead(nets) && forall w: seq<Lamp> :: !Wire(Links(nets), Heads(nets)[0], w)
    case LampsDisagree =>
      OneHead(nets) && exists w :: Wire(Links(nets), Heads(nets)[0], w) && placed != set x | x in w
    case StrokesDisagree =>
      && OneHead(nets)
      && exists w :: Wire(Links(nets), Heads(nets)[0], w) && placed == (set x | x in w) && w != Flat(strokes)
    case _ => !OneHead(nets) && Fault(nets, e)
  }

  method Flatten(strokes: seq<seq<Lamp>>) returns (flat: seq<Lamp>)
    ensures flat == Flat(strokes)
  {
    flat := [];
    for i := 0 to |strokes|
      invariant flat == Flat(strokes[..i])
    {
      assert strokes[..i + 1] == strokes[..i] + [strokes[i]];
      FlatAppend(strokes[..i], strokes[i]);
      flat := flat + strokes[i];
    }
    assert strokes[..|strokes|] == strokes;
  }

  method Generate(nets: seq<Net>, placed: set<Lamp>, strokes: seq<seq<Lamp>>) returns (r: Result<seq<Lamp>>)
    ensures r.Ok? <==> Drawable(nets, placed, strokes)
    ensures r.Ok? ==> Flat(strokes) == r.value
    ensures r.Err? ==> Refused(nets, placed, strokes, r.error)
    ensures r.Ok? ==> forall x :: multiset(Flat(strokes))[x] == if x in placed then 1 else 0
  {
    var chain := ReadChain(nets);
    if chain.Err? { return Err(chain.error); }
    ghost var links, head := Links(nets), Heads(nets)[0];
    if Wire(links, head, Flat(strokes)) { WireIsUnique(links, head, chain.value, Flat(strokes)); }
    SameLamps(chain.value, placed);
    if multiset(placed) != multiset(chain.value) { return Err(LampsDisagree); }
    var flat := Flatten(strokes);
    if flat != chain.value { return Err(StrokesDisagree); }
    return Ok(chain.value);
  }
}
