/** Summing the ledger: bytes per claim number, then bytes per category. Dictionaries keep insertion
    order, so they are lists of key and amount with distinct keys. Each category gets exactly its
    bytes, and together they are all the bytes. */
module RamSummary {
  import opened Options
  import opened RamLayout
  import opened RamPainter
  import opened RamRuns

  type Tally<K> = seq<(K, int)>

  /** `d[k] = d.get(k, 0) + n` */
  function Bump<K(==)>(t: Tally<K>, k: K, n: int): Tally<K> {
    if t == [] then [(k, n)]
    else if t[0].0 == k then [(k, t[0].1 + n)] + t[1..]
    else [t[0]] + Bump(t[1..], k, n)
  }

  function SumIf<K>(t: Tally<K>, p: K -> bool): int {
    if t == [] then 0 else (if p(t[0].0) then t[0].1 else 0) + SumIf(t[1..], p)
  }

  function Sum<K>(t: Tally<K>): int {
    SumIf(t, Any())
  }

  function Any<K>(): K -> bool {
    k => true
  }

  function Is<K(==)>(k: K): K -> bool {
    x => x == k
  }

  predicate DistinctKeys<K(==)>(t: Tally<K>) {
    forall i, j :: 0 <= i < j < |t| ==> t[i].0 != t[j].0
  }

  function Get<K(==)>(t: Tally<K>, k: K): int {
    if t == [] then 0 else if t[0].0 == k then t[0].1 else Get(t[1..], k)
  }

  lemma {:induction false} BumpSum<K>(t: Tally<K>, k: K, n: int, p: K -> bool)
    ensures SumIf(Bump(t, k, n), p) == SumIf(t, p) + if p(k) then n else 0
  {
    if t == [] {
      assert SumIf([(k, n)][1..], p) == 0;
    } else if t[0].0 == k {
      assert ([(k, t[0].1 + n)] + t[1..])[1..] == t[1..];
    } else {
      BumpSum(t[1..], k, n, p);
      assert ([t[0]] + Bump(t[1..], k, n))[1..] == Bump(t[1..], k, n);
    }
  }

  lemma {:induction false} BumpKeys<K>(t: Tally<K>, k: K, n: int)
    ensures forall i :: 0 <= i < |Bump(t, k, n)| ==>
              Bump(t, k, n)[i].0 == k || exists j :: 0 <= j < |t| && t[j].0 == Bump(t, k, n)[i].0
  {
    if t != [] && t[0].0 != k {
      BumpKeys(t[1..], k, n);
      var b := Bump(t[1..], k, n);
      forall i | 0 <= i < |Bump(t, k, n)|
        ensures Bump(t, k, n)[i].0 == k || exists j :: 0 <= j < |t| && t[j].0 == Bump(t, k, n)[i].0
      {
        if i > 0 && b[i - 1].0 != k {
          var j :| 0 <= j < |t[1..]| && t[1..][j].0 == b[i - 1].0;
          assert t[j + 1].0 == Bump(t, k, n)[i].0;
        } else {
          assert i == 0 ==> t[0].0 == Bump(t, k, n)[i].0;
        }
      }
    }
  }

  lemma {:induction false} BumpDistinct<K>(t: Tally<K>, k: K, n: int)
    requires DistinctKeys(t)
    ensures DistinctKeys(Bump(t, k, n))
  {
    if t != [] && t[0].0 != k {
      BumpDistinct(t[1..], k, n);
      BumpKeys(t[1..], k, n);
      var b := Bump(t[1..], k, n);
      forall i | 0 <= i < |b| ensures b[i].0 != t[0].0 {
        if b[i].0 != k {
          var j :| 0 <= j < |t[1..]| && t[1..][j].0 == b[i].0;
          assert t[j + 1].0 != t[0].0;
        }
      }
    }
  }

  lemma {:induction false} GetIsSum<K>(t: Tally<K>, k: K)
    requires DistinctKeys(t)
    ensures Get(t, k) == SumIf(t, Is(k))
  {
    if t != [] {
      if t[0].0 == k {
        forall i | 0 <= i < |t[1..]| ensures t[1..][i].0 != k { assert t[i + 1].0 != t[0].0; }
        SumOfNone(t[1..], k);
      } else {
        GetIsSum(t[1..], k);
      }
    }
  }

  lemma {:induction false} SumOfNone<K>(t: Tally<K>, k: K)
    requires forall i :: 0 <= i < |t| ==> t[i].0 != k
    ensures SumIf(t, Is(k)) == 0
  {
    if t != [] { SumOfNone(t[1..], k); }
  }

  // ----- bytes per claim number -----

  function TallyOf(rs: seq<Run>): Tally<nat> {
    if rs == [] then [] else
    var r := rs[|rs| - 1];
    Bump(TallyOf(rs[..|rs| - 1]), r.id, r.end - r.start)
  }

  lemma {:induction false} TallySums(rs: seq<Run>, p: nat -> bool)
    ensures SumIf(TallyOf(rs), p) == RunBytes(rs, p)
  {
    if rs != [] {
      var n := |rs| - 1;
      TallySums(rs[..n], p);
      BumpSum(TallyOf(rs[..n]), rs[n].id, rs[n].end - rs[n].start, p);
    }
  }

  lemma {:induction false} TallyIsDistinct(rs: seq<Run>)
    ensures DistinctKeys(TallyOf(rs))
  {
    if rs != [] {
      var n := |rs| - 1;
      TallyIsDistinct(rs[..n]);
      BumpDistinct(TallyOf(rs[..n]), rs[n].id, rs[n].end - rs[n].start);
    }
  }

  /** Each claim number has as many bytes as carry it. */
  lemma {:induction false} TallyIsExact(ws: seq<Window>, ids: seq<nat>)
    requires Proper(ws) && |ids| == |Addresses(ws)|
    ensures DistinctKeys(TallyOf(AllRuns(ws, ids)))
    ensures forall id: nat :: Get(TallyOf(AllRuns(ws, ids)), id) == CountIf(ids, Is<nat>(id))
  {
    var t := TallyOf(AllRuns(ws, ids));
    TallyIsDistinct(AllRuns(ws, ids));
    forall id: nat ensures Get(t, id) == CountIf(ids, Is<nat>(id)) {
      GetIsSum(t, id);
      TallySums(AllRuns(ws, ids), Is<nat>(id));
      AllRunBytes(ws, ids, Is<nat>(id));
    }
  }

  method CountPerClaim(p: Painter) returns (t: Tally<nat>)
    requires p.Valid()
    ensures t == TallyOf(AllRuns(p.windows, p.claimIds[..])) && DistinctKeys(t)
    ensures forall id: nat :: Get(t, id) == CountIf(p.claimIds[..], Is<nat>(id))
  {
    var rs := ListRuns(p);
    t := [];
    for i := 0 to |rs|
      invariant t == TallyOf(rs[..i])
    {
      t := Bump(t, rs[i].id, rs[i].end - rs[i].start);
      assert rs[..i + 1][..i] == rs[..i];
    }
    assert rs[..|rs|] == rs;
    TallyIsExact(p.windows, p.claimIds[..]);
  }

  // ----- bytes per category -----

  /** An unclaimed byte counts as unknown. */
  function CategoryOf(claims: seq<Option<Claim>>, id: nat): string {
    if id < |claims| && claims[id].Some? then claims[id].value.category else "unknown"
  }

  function CategoriesOf(t: Tally<nat>, claims: seq<Option<Claim>>): Tally<string> {
    if t == [] then [] else
    var n := |t| - 1;
    Bump(CategoriesOf(t[..n], claims), CategoryOf(claims, t[n].0), t[n].1)
  }

  lemma {:induction false} SumSnoc<K>(t: Tally<K>, x: (K, int), p: K -> bool)
    ensures SumIf(t + [x], p) == SumIf(t, p) + if p(x.0) then x.1 else 0
  {
    if t == [] {
      assert t + [x] == [x];
      assert SumIf([x][1..], p) == 0;
    } else {
      assert (t + [x])[1..] == t[1..] + [x];
      SumSnoc(t[1..], x, p);
    }
  }

  lemma {:induction false} CategorySums(t: Tally<nat>, claims: seq<Option<Claim>>, p: string -> bool)
    ensures SumIf(CategoriesOf(t, claims), p) == SumIf(t, id => p(CategoryOf(claims, id)))
    ensures DistinctKeys(CategoriesOf(t, claims))
  {
    if t != [] {
      var n := |t| - 1;
      CategorySums(t[..n], claims, p);
      BumpSum(CategoriesOf(t[..n], claims), CategoryOf(claims, t[n].0), t[n].1, p);
      BumpDistinct(CategoriesOf(t[..n], claims), CategoryOf(claims, t[n].0), t[n].1);
      SumSnoc(t[..n], t[n], id => p(CategoryOf(claims, id)));
      assert t[..n] + [t[n]] == t;
    }
  }

  function InCategory(claims: seq<Option<Claim>>, c: string): nat -> bool {
    (id: nat) => if id < |claims| && claims[id].Some? then c == claims[id].value.category else c == "unknown"
  }

  lemma {:induction false} SumIfSame<K(!new)>(t: Tally<K>, p: K -> bool, q: K -> bool)
    requires forall k :: p(k) == q(k)
    ensures SumIf(t, p) == SumIf(t, q)
  {
    if t != [] { SumIfSame(t[1..], p, q); }
  }

  lemma {:induction false} CountAll(ids: seq<nat>, p: nat -> bool)
    requires forall id :: p(id)
    ensures CountIf(ids, p) == |ids|
  {
    if ids != [] { CountAll(ids[..|ids| - 1], p); }
  }

  /** The chain of sums behind one category, or behind all of them. */
  lemma {:induction false} CategoryCounts(
    ws: seq<Window>, ids: seq<nat>, claims: seq<Option<Claim>>, p: string -> bool, q: nat -> bool)
    requires Proper(ws) && |ids| == |Addresses(ws)|
    requires forall id: nat :: q(id) == p(CategoryOf(claims, id))
    ensures SumIf(CategoriesOf(TallyOf(AllRuns(ws, ids)), claims), p) == CountIf(ids, q)
  {
    var rs := AllRuns(ws, ids);
    var r := (id: nat) => p(CategoryOf(claims, id));
    CategorySums(TallyOf(rs), claims, p);
    SumIfSame(TallyOf(rs), r, q);
    TallySums(rs, q);
    AllRunBytes(ws, ids, q);
  }

  method Summarize(p: Painter) returns (cats: Tally<string>)
    requires p.Valid()
    ensures DistinctKeys(cats)
    ensures forall c: string :: Get(cats, c) == CountIf(p.claimIds[..], InCategory(p.claims, c))
    ensures Sum(cats) == |p.Addrs()|
  {
    var t := CountPerClaim(p);
    cats := [];
    for i := 0 to |t|
      invariant cats == CategoriesOf(t[..i], p.claims)
    {
      cats := Bump(cats, CategoryOf(p.claims, t[i].0), t[i].1);
      assert t[..i + 1][..i] == t[..i];
    }
    assert t[..|t|] == t;
    SummaryIsExact(p.windows, p.claimIds[..], p.claims, cats);
  }

  lemma {:induction false} SummaryIsExact(
    ws: seq<Window>, ids: seq<nat>, claims: seq<Option<Claim>>, cats: Tally<string>)
    requires Proper(ws) && |ids| == |Addresses(ws)|
    requires cats == CategoriesOf(TallyOf(AllRuns(ws, ids)), claims)
    ensures DistinctKeys(cats) && Sum(cats) == |ids|
    ensures forall c: string :: Get(cats, c) == CountIf(ids, InCategory(claims, c))
  {
    CategorySums(TallyOf(AllRuns(ws, ids)), claims, Any());
    CategoryCounts(ws, ids, claims, Any(), Any());
    CountAll(ids, Any());
    forall c: string ensures Get(cats, c) == CountIf(ids, InCategory(claims, c)) {
      OneCategory(ws, ids, claims, cats, c);
    }
  }

  lemma {:induction false} OneCategory(
    ws: seq<Window>, ids: seq<nat>, claims: seq<Option<Claim>>, cats: Tally<string>, c: string)
    requires Proper(ws) && |ids| == |Addresses(ws)| && DistinctKeys(cats)
    requires cats == CategoriesOf(TallyOf(AllRuns(ws, ids)), claims)
    ensures Get(cats, c) == CountIf(ids, InCategory(claims, c))
  {
    GetIsSum(cats, c);
    CategoryCounts(ws, ids, claims, Is(c), InCategory(claims, c));
  }
}
