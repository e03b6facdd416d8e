/** Texts that end too soon. The reader is meant to raise an error on anything it does not understand; on
    some truncated texts it never comes back (`Hung`) or recurses until the host language gives up
    (`TooDeep`). Here is exactly when its loops run on, with texts on which whole paths do; the encoding of
    a path with non-empty identifiers never meets either. */
module RustV0Truncated {
  import opened Sequences
  import opened Options
  import opened Decimals
  import opened RustV0
  import opened RustV0Reader
  import opened RustV0RoundTrip
  import opened RustV0Plain

  predicate AllBase62(ts: string) {
    forall k :: 0 <= k < |ts| ==> Value62(ts[k]).Some?
  }

  lemma {:induction false} DigitsHangIff(ts: string, n: nat)
    ensures Digits(ts, n) == Hung <==> AllBase62(ts)
    ensures Digits(ts, n).Got? || Digits(ts, n) == Hung || Digits(ts, n) == Raised
  {
    if ts != "" && ts[0] != '_' && Value62(ts[0]).Some? {
      DigitsHangIff(ts[1..], n * 62 + Value62(ts[0]).value);
      assert ts == [ts[0]] + ts[1..];
    }
  }

  /** The base-62 loop runs on exactly when the text is all base-62 digits, so also at its end. */
  lemma {:induction false} Base62HangsIff(ts: string)
    ensures ReadBase62(ts) == Hung <==> AllBase62(ts)
    ensures ReadBase62(ts).Got? || ReadBase62(ts) == Hung || ReadBase62(ts) == Raised
  {
    DigitsHangIff(ts, 0);
  }

  /** The loop over a constant's value runs on exactly when no underscore is left. */
  lemma {:induction false} HexHangsIff(ts: string)
    ensures ReadHex(ts) == Hung <==> '_' !in ts
  {
    if ts != "" && ts[0] != '_' {
      HexHangsIff(ts[1..]);
      assert ts == [ts[0]] + ts[1..];
    }
  }

  /** An identifier hangs exactly in a disambiguator that does not end, and never gets too deep. */
  lemma {:induction false} IdentHangsIff(ts: string)
    ensures ReadIdent(ts) == Hung <==> At(ts, 's') && AllBase62(ts[1..])
    ensures ReadIdent(ts) != TooDeep && ReadIdent(ts) != BackReference
  {
    if At(ts, 's') { Base62HangsIff(ts[1..]); }
  }

  /** A crate root cut off in its disambiguator: `Cs` is one. */
  lemma {:induction false} CutDisambiguatorHangs(ts: string)
    requires AllBase62(ts)
    ensures ReadPath("Cs" + ts) == Hung
  {
    assert "Cs" + ts == "C" + ("s" + ts);
    TailOf('C', "s" + ts);
    TailOf('s', ts);
    IdentHangsIff("s" + ts);
  }

  /** An impl block cut off before its type: `MC1a` is one. */
  lemma {:induction false} CutImplIsTooDeep(p: Path)
    requires PlainPath(p)
    ensures ReadPath("M" + EncPath(p)) == TooDeep
  {
    PathTurn(EncPath(p));
    PathStart(p);
    PlainPathReads(p, "");
    assert EncPath(p) + "" == EncPath(p);
    assert ReadType("") == TooDeep;
  }

  /** An array type cut off in its length: `MC1aAhj` is one. */
  lemma {:induction false} CutLengthHangs(p: Path, hex: string)
    requires PlainPath(p) && '_' !in hex
    ensures ReadPath("M" + (EncPath(p) + ("Ahj" + hex))) == Hung
  {
    var ty := "Ahj" + hex;
    PathTurn(EncPath(p) + ty);
    PathStart(p);
    assert (EncPath(p) + ty)[0] == EncPath(p)[0];
    PlainPathReads(p, ty);
    CutArrayHangs(hex);
  }

  lemma {:induction false} CutArrayHangs(hex: string)
    requires '_' !in hex
    ensures ReadType("Ahj" + hex) == Hung
  {
    assert "Ahj" + hex == "A" + ("h" + ("j" + hex));
    ArrayTurn("h" + ("j" + hex));
    TailOf('h', "j" + hex);
    TailOf('j', hex);
    HexHangsIff(hex);
    if At(hex, 'n') { HexHangsIff(hex[1..]); }
    assert ReadType("h" + ("j" + hex)) == Got("u8", "j" + hex);
    assert ReadType("j" + hex) == Got("usize", hex);
  }

  /** A whole encoding meets neither, whatever follows it. */
  lemma {:induction false} WholePathComesBack(p: Path, rest: string)
    requires PlainPath(p)
    ensures var r := ReadPath(EncPath(p) + rest); r != Hung && r != TooDeep && r != Raised && r != BackReference
  {
    PlainPathReads(p, rest);
  }

  /** Two such texts. */
  lemma {:induction false} CutTexts()
    ensures ReadPath("Cs") == Hung && ReadPath("MC1a") == TooDeep
  {
    CutDisambiguatorHangs("");
    assert "Cs" + "" == "Cs";
    var a := Crate(Ident(0, false, "a"));
    assert EncPath(a) == "C1a" by { assert Decimal(1) == "1"; }
    CutImplIsTooDeep(a);
    assert "M" + "C1a" == "MC1a";
  }
}
