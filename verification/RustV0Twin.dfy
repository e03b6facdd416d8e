/** Beyond nested names a misread can come out right: a path that is not clean and reads back all the
    same. So for paths with generic arguments clean is enough, but not needed. */
module RustV0Twin {
  import opened Sequences
  import opened Options
  import opened Decimals
  import opened RustV0
  import opened RustV0Reader
  import opened RustV0RoundTrip
  import opened RustV0Plain
  import opened RustV0Names

  const EMPTY: Ident := Ident(0, false, "")

  function ClosureOf(id: Ident): Path {
    Nested('C', Crate(id), EMPTY)
  }

  /** A closure of the crate `q` whose name is marked, with the encoding of its unmarked twin in its own
      name. */
  function Twin(q: string): Path {
    Nested('C', Crate(Ident(0, true, q)), Ident(0, false, "a_" + EncPath(ClosureOf(Ident(0, false, q)))))
  }

  /** A constant of a closure type, followed by that path. */
  function TwinArgs(q: string): seq<Arg> {
    [ConstArg(TwinConst()), TypeArg(Named(Twin(q)))]
  }

  /** A name of 13 letters. */
  predicate Thirteen(q: string) {
    |q| == 13 && Separator(q) == ""
  }

  function Head(q: string): string {
    "NCC" + EncIdent(Ident(0, true, q))
  }

  lemma {:induction false} DecimalsUsed()
    ensures Decimal(21) == "21" && Decimal(13) == "13" && Decimal(0) == "0"
  {
    assert Decimal(2) == "2" && Decimal(1) == "1";
  }

  lemma {:induction false} TwentyOne(name: string)
    requires |name| == 21 && name[0] == 'a'
    ensures EncIdent(Ident(0, false, name)) == "21" + name
  {
    DecimalsUsed();
  }

  lemma {:induction false} TwinLengths(q: string)
    requires Thirteen(q)
    ensures |Head(q)| == 19 && |EncPath(ClosureOf(Ident(0, false, q)))| == 19
  {
    DecimalsUsed();
    assert EncIdent(Ident(0, true, q)) == "u" + ("13" + q);
    assert EncIdent(Ident(0, false, q)) == "13" + q;
    assert EncIdent(EMPTY) == "0";
  }

  lemma {:induction false} TwinText(q: string, rest: string)
    requires Thirteen(q)
    ensures var e := EncPath(ClosureOf(Ident(0, false, q)));
            EncPath(Twin(q)) + rest == Head(q) + ("21" + ("a_" + (e + rest)))
  {
    var e := EncPath(ClosureOf(Ident(0, false, q)));
    TwinLengths(q);
    TwentyOne("a_" + e);
    var u := EncIdent(Ident(0, true, q));
    ShiftTwo("N", "C", "C" + u, EncIdent(Ident(0, false, "a_" + e)));
    assert EncPath(Twin(q)) == Head(q) + ("21" + ("a_" + e)) by { assert "N" + ("C" + ("C" + u)) == Head(q); }
    ShiftTwo(Head(q), "21", "a_" + e, rest);
    Shift("a_", e, rest);
  }

  /** The closure's empty identifier takes the 21 characters after the digits. */
  lemma {:induction false} ClosureTakesName(id: Ident, name: string, rest: string)
    requires id.name != "" && name != ""
    ensures var r := ReadPath(EncPath(ClosureOf(id)) + (EncIdent(Ident(0, false, name)) + rest));
            r.Got? && r.rest == rest
  {
    var next := EncIdent(Ident(0, false, name)) + rest;
    var tail := EncPath(Crate(id)) + (EncIdent(EMPTY) + next);
    ShiftTwo("N", "C", EncPath(Crate(id)) + EncIdent(EMPTY), next);
    Shift(EncPath(Crate(id)), EncIdent(EMPTY), next);
    PathTurn("C" + tail);
    NestedBody('C', tail);
    PathReads(Crate(id), EncIdent(EMPTY) + next);
    UnmarkedIsBody(Ident(0, false, name), rest);
    EmptyIdentReads(EMPTY, next);
    NameIsTaken(name, rest);
  }

  lemma Regroup(a: string, h: string, e: string)
    ensures (a + ("" + ("21a" + "_"))) + (h + ("21" + ("a_" + e))) == a + (("21" + ("a_" + h)) + ("21a" + ("_" + e)))
  {
  }

  function TwinConst(): Const {
    Value(Named(ClosureOf(Ident(0, false, "a"))), false, "21a")
  }

  /** The same text, as the reader takes it. */
  lemma {:induction false} ConstantText(q: string, rest: string)
    requires Thirteen(q)
    ensures var e := EncPath(ClosureOf(Ident(0, false, q)));
            EncConst(TwinConst()) + (EncPath(Twin(q)) + rest) ==
            EncPath(ClosureOf(Ident(0, false, "a"))) +
            (EncIdent(Ident(0, false, "a_" + Head(q))) + ("21a" + ("_" + (e + rest))))
  {
    TwinLengths(q);
    TwentyOne("a_" + Head(q));
    TwinText(q, rest);
    Regroup(EncPath(ClosureOf(Ident(0, false, "a"))), Head(q), EncPath(ClosureOf(Ident(0, false, q))) + rest);
  }

  /** The constant reads as it should, from the digits inside the twin's name. */
  lemma {:induction false} ConstantReadsTwin(q: string, rest: string)
    requires Thirteen(q)
    ensures ReadConst(EncConst(TwinConst()) + (EncPath(Twin(q)) + rest)) ==
            Got(ShowConst(TwinConst()), EncPath(ClosureOf(Ident(0, false, q))) + rest)
  {
    var id, after := Ident(0, false, "a"), EncPath(ClosureOf(Ident(0, false, q))) + rest;
    ConstantText(q, rest);
    ClosureTakesName(id, "a_" + Head(q), "21a" + ("_" + after));
    var ts := EncPath(ClosureOf(id)) + (EncIdent(Ident(0, false, "a_" + Head(q))) + ("21a" + ("_" + after)));
    ClosureTypeReads(ts, "21a" + ("_" + after));
    HexIsNumber();
    HexReads("21a", 0, after);
    ValueTurn(ts, false, "21a", after);
  }

  lemma {:induction false} HexIsNumber()
    ensures HexNumber("21a", 0).Some?
  {
    assert "21a"[1..] == "1a" && "1a"[1..] == "a" && "a"[1..] == "";
    assert HexNumber("", 538) == Some(538) && HexNumber("a", 33) == Some(538) && HexNumber("1a", 2) == Some(538);
  }

  lemma {:induction false} ClosureTypeReads(ts: string, rest: string)
    requires ts != "" && ts[0] == 'N' && ReadPath(ts).Got? && ReadPath(ts).rest == rest
    ensures ReadType(ts).Got? && ReadType(ts).rest == rest
  {
    PathLetterIsNoSign('N');
    NamedTurn(ts);
  }

  lemma {:induction false} OneArg(a: Arg, rest: string)
    ensures EncArgs([a]) == EncArg(a) && ShowArgs([a]) == [ShowArg(a)]
    ensures CleanArgs([a], rest) <==> CleanArg(a, rest)
  {
    assert [a][1..] == [] && EncArgs([]) == "" && "" + rest == rest;
    assert EncArg(a) + "" == EncArg(a) && ShowArgs([]) == [];
  }

  lemma {:induction false} TwinArgsText(q: string, rest: string)
    ensures EncArgs(TwinArgs(q)) + rest == "K" + (EncConst(TwinConst()) + (EncPath(Twin(q)) + rest))
    ensures ShowArgs(TwinArgs(q)) == [ShowConst(TwinConst())] + [ShowPath(Twin(q))]
  {
    var twin := TypeArg(Named(Twin(q)));
    assert TwinArgs(q)[1..] == [twin];
    OneArg(twin, rest);
    ShiftTwo("K", EncConst(TwinConst()), EncPath(Twin(q)), rest);
    Shift("K", EncConst(TwinConst()), EncPath(Twin(q)));
  }

  lemma {:induction false} TwinArgsRead(q: string, rest: string)
    requires Thirteen(q)
    ensures ReadArgs(EncArgs(TwinArgs(q)) + ("E" + rest)) == Got(ShowArgs(TwinArgs(q)), rest)
  {
    var plain := TypeArg(Named(ClosureOf(Ident(0, false, q))));
    TwinArgsText(q, "E" + rest);
    ConstantReadsTwin(q, "E" + rest);
    OneArg(plain, "E" + rest);
    ClosureIsClean(Ident(0, false, q), "E" + rest);
    ArgsRead([plain], rest);
    FirstArgReads(EncConst(TwinConst()) + (EncPath(Twin(q)) + ("E" + rest)));
    assert ShowPath(Twin(q)) == ShowPath(ClosureOf(Ident(0, false, q)));
  }

  lemma {:induction false} ClosureIsClean(id: Ident, rest: string)
    requires id.name != "" && !RunsOn(rest)
    ensures CleanArg(TypeArg(Named(ClosureOf(id))), rest)
  {
    assert CleanPath(Crate(id), EncIdent(EMPTY) + rest);
    assert CleanPath(ClosureOf(id), rest);
    assert CleanType(Named(ClosureOf(id)), rest);
  }

  lemma {:induction false} FirstArgReads(ts: string)
    requires ReadConst(ts).Got? && ReadArgs(ReadConst(ts).rest).Got?
    ensures ReadArgs("K" + ts) ==
            Got([ReadConst(ts).val] + ReadArgs(ReadConst(ts).rest).val, ReadArgs(ReadConst(ts).rest).rest)
  {
    TailOf('K', ts);
  }

  /** Not every path that reads back is clean: here the constant's closure type swallows the start of the
      next argument, and the reader goes on inside that argument's name, where it finds the same
      constant and the same readable name again. So for paths beyond nested names clean is enough, but not
      needed. */
  lemma {:induction false} UncleanCanReadBack(base: Path, q: string, rest: string)
    requires PlainPath(base) && Thirteen(q)
    ensures var p := Generic(base, TwinArgs(q));
            !CleanPath(p, rest) && ReadPath(EncPath(p) + rest) == Got((ShowPath(p), OwnerOf(p)), rest)
  {
    TwinIsUnclean(q, "E" + rest);
    TwinPathReads(base, q, rest);
  }

  lemma {:induction false} TwinPathReads(base: Path, q: string, rest: string)
    requires PlainPath(base) && Thirteen(q)
    ensures var p := Generic(base, TwinArgs(q)); ReadPath(EncPath(p) + rest) == Got((ShowPath(p), OwnerOf(p)), rest)
  {
    var args := TwinArgs(q);
    var tail := EncArgs(args) + ("E" + rest);
    ShiftTwo("I", EncPath(base), EncArgs(args) + "E", rest);
    Shift(EncArgs(args), "E", rest);
    PathTurn(EncPath(base) + tail);
    PlainPathReads(base, tail);
    TwinArgsRead(q, rest);
  }

  lemma {:induction false} TwinIsUnclean(q: string, rest: string)
    ensures !CleanArgs(TwinArgs(q), rest)
  {
    var args, ty := TwinArgs(q), Named(ClosureOf(Ident(0, false, "a")));
    var after := EncArgs(args[1..]) + rest;
    var text := "" + ("21a" + ("_" + after));
    assert text[0] == '2';
    assert !CleanPath(ty.p, text);
    assert !CleanType(ty, text);
    assert !CleanArg(args[0], after);
  }
}
