/** What the test builders feed the programs: numbered trace sites, and every tuple of 0/1 arguments. */
module TortureInputs {
  import opened Division
  import opened TortureAst
  import opened TortureTrace

  datatype Issued = Site(s: Stmt) | TooMany

  /** Hands out the sites of one function: the digits 1 to 9 in order, each once, then none. */
  class SiteAlloc {
    var next: nat

    constructor ()
      ensures next == 1
    {
      next := 1;
    }

    method NextSite() returns (r: Issued)
      requires next >= 1
      modifies this
      ensures next == old(next) + 1
      ensures old(next) <= 9 ==> r.Site? && IsSite(r.s) && SiteDigit(r.s) == old(next)
      ensures old(next) > 9 ==> r == TooMany
    {
      var k := next;
      next := next + 1;
      if k > 9 { return TooMany; }
      return Site(TortureTrace.Site(k));
    }
  }

  // ----- all 0/1 tuples -----

  function Pow2(n: nat): nat {
    if n == 0 then 1 else 2 * Pow2(n - 1)
  }

  predicate IsTuple(t: seq<nat>, n: nat) {
    |t| == n && forall i :: 0 <= i < n ==> t[i] <= 1
  }

  /** A number's last `n` binary digits, highest first. */
  function Bits(b: nat, n: nat): (t: seq<nat>)
    ensures |t| == n
  {
    if n == 0 then [] else Bits(b / 2, n - 1) + [b % 2]
  }

  function ValueOf(t: seq<nat>): nat {
    if t == [] then 0 else 2 * ValueOf(t[..|t| - 1]) + t[|t| - 1]
  }

  /** Shifting and masking picks the digit at a place. */
  lemma {:induction false} BitAt(b: nat, n: nat, i: nat)
    requires i < n
    ensures Pow2(n - 1 - i) > 0 && Bits(b, n)[i] == (b / Pow2(n - 1 - i)) % 2
  {
    if n > 1 { BitAt(b / 2, n - 1, if i < n - 1 then i else 0); }
    if i < n - 1 { HalveFirst(b, Pow2(n - 2 - i)); }
  }

  lemma {:induction false} HalveFirst(b: nat, p: nat)
    requires p > 0
    ensures (b / 2) / p == b / (2 * p)
  {
    var h := b / 2;
    var q, r := h / p, h % p;
    assert h == p * q + r && 2 * h <= b <= 2 * h + 1;
    assert (2 * p) * q <= b < (2 * p) * q + 2 * p;
    DivisionIs(b, 2 * p, q);
  }

  lemma {:induction false} BitsReadBack(b: nat, n: nat)
    requires b < Pow2(n)
    ensures IsTuple(Bits(b, n), n) && ValueOf(Bits(b, n)) == b
  {
    if n > 0 {
      BitsReadBack(b / 2, n - 1);
      assert Bits(b, n)[..n - 1] == Bits(b / 2, n - 1);
    }
  }

  lemma {:induction false} ValueReadsBack(t: seq<nat>, n: nat)
    requires IsTuple(t, n)
    ensures ValueOf(t) < Pow2(n) && Bits(ValueOf(t), n) == t
  {
    if n > 0 {
      ValueReadsBack(t[..n - 1], n - 1);
      assert t == t[..n - 1] + [t[n - 1]];
      HalfAndBit(ValueOf(t[..n - 1]), t[n - 1]);
    }
  }

  lemma HalfAndBit(v: nat, d: nat)
    requires d <= 1
    ensures (2 * v + d) / 2 == v && (2 * v + d) % 2 == d
  {
  }

  ghost predicate Precedes(x: seq<nat>, y: seq<nat>) {
    exists p :: 0 <= p < |x| && p < |y| && x[..p] == y[..p] && x[p] < y[p]
  }

  lemma {:induction false} BitsInOrder(a: nat, b: nat, n: nat)
    requires a < b < Pow2(n)
    ensures Precedes(Bits(a, n), Bits(b, n))
  {
    var x, y := Bits(a, n), Bits(b, n);
    BitsReadBack(a, n);
    BitsReadBack(b, n);
    assert x[..n - 1] == Bits(a / 2, n - 1) && y[..n - 1] == Bits(b / 2, n - 1);
    if a / 2 < b / 2 {
      BitsInOrder(a / 2, b / 2, n - 1);
      var p :| 0 <= p < n - 1 && x[..n - 1][..p] == y[..n - 1][..p] && x[..n - 1][p] < y[..n - 1][p];
      assert x[..p] == x[..n - 1][..p] && y[..p] == y[..n - 1][..p];
      assert x[p] < y[p];
    } else {
      assert x[n - 1] < y[n - 1];
    }
  }

  /** Every tuple of 0 and 1 once, in lexicographic order. */
  ghost predicate AllTuples(out: seq<seq<nat>>, n: nat) {
    && (forall k :: 0 <= k < |out| ==> IsTuple(out[k], n))
    && (forall t :: IsTuple(t, n) ==> t in out)
    && forall j, k :: 0 <= j < k < |out| ==> Precedes(out[j], out[k])
  }

  method Combos(n: nat) returns (out: seq<seq<nat>>)
    ensures |out| == Pow2(n) && AllTuples(out, n)
  {
    out := [];
    for b := 0 to Pow2(n)
      invariant |out| == b && forall k :: 0 <= k < b ==> out[k] == Bits(k, n)
    {
      var t := [];
      for i := 0 to n
        invariant t == Bits(b, n)[..i]
      {
        BitAt(b, n, i);
        t := t + [(b / Pow2(n - 1 - i)) % 2];
      }
      out := out + [t];
    }
    BitsAreAllTuples(out, n);
  }

  lemma {:induction false} BitsAreAllTuples(out: seq<seq<nat>>, n: nat)
    requires |out| == Pow2(n) && forall k :: 0 <= k < |out| ==> out[k] == Bits(k, n)
    ensures AllTuples(out, n)
  {
    forall k | 0 <= k < |out| ensures IsTuple(out[k], n) { BitsReadBack(k, n); }
    forall t | IsTuple(t, n) ensures t in out {
      ValueReadsBack(t, n);
      assert out[ValueOf(t)] == t;
    }
    forall j, k | 0 <= j < k < |out| ensures Precedes(out[j], out[k]) { BitsInOrder(j, k, n); }
  }
}
