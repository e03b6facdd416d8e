/** The demangler as it runs: one text, one cursor that every method moves. Each method is proved to
    return what the reader functions say of the text ahead of the cursor, and to leave the cursor just
    before what they leave unread. */
module RustV0Cursor {
  import opened Options
  import opened Decimals
  import opened RustV0
  import opened RustV0Reader

  /** A list read so far, before what is still to come. */
  function Prepend(xs: seq<string>, r: Read<seq<string>>): Read<seq<string>> {
    match r
    case Got(more, rest) => Got(xs + more, rest)
    case _ => r
  }

  lemma PrependStep(xs: seq<string>, x: string, r: Read<seq<string>>)
    ensures Prepend(xs + [x], r) == Prepend(xs, Prepend([x], r))
  {
    if r.Got? { assert xs + [x] + r.val == xs + ([x] + r.val); }
  }

  lemma PrependNone(r: Read<seq<string>>)
    ensures Prepend([], r) == r
  {
    if r.Got? { assert [] + r.val == r.val; }
  }

  lemma PrependEnd(xs: seq<string>, s: string)
    ensures At(s, 'E') ==> Prepend(xs, Got([], s[1..])) == Got(xs, s[1..])
  {
    assert xs + [] == xs;
  }

  class Cursor {
    const s: string
    var i: nat

    constructor (s: string)
      ensures this.s == s && i == 0 && Valid() && Ahead() == s
    {
      this.s := s;
      i := 0;
    }

    ghost predicate Valid() reads this {
      i <= |s|
    }

    ghost function Ahead(): string reads this requires Valid() {
      s[i..]
    }

    /** The cursor is just before what the outcome leaves unread. */
    ghost predicate Stands<T>(r: Read<T>) reads this {
      r.Got? ==> Valid() && Ahead() == r.rest
    }

    method Eat(c: char) returns (ate: bool)
      requires Valid()
      modifies this
      ensures Valid() && ate == At(old(Ahead()), c) && Ahead() == Past(old(Ahead()), c)
    {
      ate := i < |s| && s[i] == c;
      if ate { i := i + 1; }
    }

    method Base62() returns (r: Read<nat>)
      requires Valid()
      modifies this
      ensures r == ReadBase62(old(Ahead())) && Stands(r)
    {
      var none := Eat('_');
      if none { return Got(0, s[i..]); }
      var n: nat := 0;
      while true
        invariant Valid() && ReadBase62(old(Ahead())) == Digits(Ahead(), n)
        decreases |s| - i
      {
        if i == |s| { return Hung; }
        var c := s[i];
        i := i + 1;
        if c == '_' { return Got(n + 1, s[i..]); }
        if Value62(c).None? { return Raised; }
        n := n * 62 + Value62(c).value;
      }
    }

    method DecimalNumber() returns (r: Read<nat>)
      requires Valid()
      modifies this
      ensures r == ReadDecimal(old(Ahead())) && Stands(r)
    {
      var j: nat, n: nat := i, 0;
      while i < |s| && IsDigit(s[i])
        invariant Valid() && j <= i
        invariant DecimalDigits(old(Ahead()), 0) == DecimalDigits(Ahead(), n)
        invariant j < i ==> IsDigit(s[j])
      {
        n := n * 10 + (s[i] - '0') as nat;
        i := i + 1;
      }
      if j == i { return Raised; }
      return Got(n, s[i..]);
    }

    method Disambiguator() returns (r: Read<nat>)
      requires Valid()
      modifies this
      ensures r == ReadDisambiguator(old(Ahead())) && Stands(r)
    {
      var has := Eat('s');
      if !has { return Got(0, s[i..]); }
      var n :- Base62();
      return Got(n.0 + 1, s[i..]);
    }

    method Identifier() returns (r: Read<(string, nat)>)
      requires Valid()
      modifies this
      ensures r == ReadIdent(old(Ahead())) && Stands(r)
    {
      var d :- Disambiguator();
      var name :- Name();
      return Got((name.0, d.0), s[i..]);
    }

    method Name() returns (r: Read<string>)
      requires Valid()
      modifies this
      ensures r == ReadName(old(Ahead())) && Stands(r)
    {
      var _ := Eat('u');
      var n :- DecimalNumber();
      var _ := Eat('_');
      r := Chars(n.0);
    }

    method Chars(n: nat) returns (r: Read<string>)
      requires Valid()
      modifies this
      ensures r == ReadChars(old(Ahead()), n) && Stands(r)
    {
      if |s| - i < n { return Raised; }
      var name := s[i..i + n];
      assert name == Ahead()[..n] && s[i + n..] == Ahead()[n..];
      i := i + n;
      return Got(name, s[i..]);
    }

    /** An optional lifetime or binder. */
    method Life(letter: char) returns (r: Read<()>)
      requires Valid()
      modifies this
      ensures r == ReadLife(old(Ahead()), letter) && Stands(r)
    {
      var has := Eat(letter);
      if has { var _ :- Base62(); }
      return Got((), s[i..]);
    }

    // ----- paths -----

    method Path() returns (r: Read<(string, string)>)
      requires Valid()
      modifies this
      ensures r == ReadPath(old(Ahead())) && Stands(r)
      decreases |s| - i, 0
    {
      if i == |s| { return Raised; }
      var c := s[i];
      i := i + 1;
      if c == 'C' {
        var id :- Identifier();
        r := Got((id.0.0, id.0.0), s[i..]);
      } else if c == 'N' {
        r := NestedPath();
      } else if c == 'M' {
        r := InherentPath();
      } else if c == 'X' {
        r := TraitImplPath();
      } else if c == 'Y' {
        r := TraitDefPath();
      } else if c == 'I' {
        r := GenericPath();
      } else if c == 'B' {
        r := BackReference;
      } else {
        r := Raised;
      }
    }

    method NestedPath() returns (r: Read<(string, string)>)
      requires Valid()
      modifies this
      ensures r == ReadNested(old(Ahead())) && Stands(r)
      decreases |s| - i, 6
    {
      if i == |s| { return Raised; }
      var ns := s[i];
      i := i + 1;
      assert Ahead() == old(Ahead())[1..];
      var parent :- Path();
      var id :- Identifier();
      var segment := Segment(ns, Ident(id.0.1, false, id.0.0));
      return Got((Under(parent.0.0, segment), parent.0.1), s[i..]);
    }

    method InherentPath() returns (r: Read<(string, string)>)
      requires Valid()
      modifies this
      ensures r == ReadInherent(old(Ahead())) && Stands(r)
      decreases |s| - i, 6
    {
      var _ :- Disambiguator();
      var impl :- Path();
      var ty :- Type();
      return Got(("<" + ty.0 + ">", impl.0.1), s[i..]);
    }

    method TraitImplPath() returns (r: Read<(string, string)>)
      requires Valid()
      modifies this
      ensures r == ReadTraitImpl(old(Ahead())) && Stands(r)
      decreases |s| - i, 6
    {
      var _ :- Disambiguator();
      var impl :- Path();
      var ty :- Type();
      var tr :- Path();
      return Got(("<" + ty.0 + " as " + tr.0.0 + ">", impl.0.1), s[i..]);
    }

    method TraitDefPath() returns (r: Read<(string, string)>)
      requires Valid()
      modifies this
      ensures r == ReadTraitDef(old(Ahead())) && Stands(r)
      decreases |s| - i, 6
    {
      var ty :- Type();
      var tr :- Path();
      return Got(("<" + ty.0 + " as " + tr.0.0 + ">", tr.0.1), s[i..]);
    }

    method GenericPath() returns (r: Read<(string, string)>)
      requires Valid()
      modifies this
      ensures r == ReadGeneric(old(Ahead())) && Stands(r)
      decreases |s| - i, 6
    {
      var base :- Path();
      var args :- Args();
      return Got((base.0.0 + "::<" + Join(args.0, ", ") + ">", base.0.1), s[i..]);
    }

    method Args() returns (r: Read<seq<string>>)
      requires Valid()
      modifies this
      ensures r == ReadArgs(old(Ahead())) && Stands(r)
      decreases |s| - i, 4
    {
      var args := [];
      PrependNone(ReadArgs(Ahead()));
      var done := Eat('E');
      while !done
        invariant Valid() && |s| - i <= old(|s| - i)
        invariant done ==> ReadArgs(old(Ahead())) == Got(args, Ahead())
        invariant !done ==> !At(Ahead(), 'E') && ReadArgs(old(Ahead())) == Prepend(args, ReadArgs(Ahead()))
        decreases |s| - i, !done
      {
        ghost var here := Ahead();
        var a :- GenericArg();
        assert ReadArgs(here) == Prepend([a.0], ReadArgs(Ahead()));
        PrependStep(args, a.0, ReadArgs(Ahead()));
        args := args + [a.0];
        PrependEnd(args, Ahead());
        done := Eat('E');
      }
      return Got(args, s[i..]);
    }

    method GenericArg() returns (r: Read<string>)
      requires Valid()
      modifies this
      ensures r == ReadArg(old(Ahead())) && Stands(r)
      decreases |s| - i, 3
    {
      var life := Eat('L');
      if life {
        var _ :- Base62();
        return Got("'_", s[i..]);
      }
      var constant := Eat('K');
      if constant { r := Constant(); } else { r := Type(); }
    }

    method Constant() returns (r: Read<string>)
      requires Valid()
      modifies this
      ensures r == ReadConst(old(Ahead())) && Stands(r)
      decreases |s| - i, 3
    {
      var placeholder := Eat('p');
      if placeholder { return Got("_", s[i..]); }
      if i < |s| && s[i] == 'B' { return BackReference; }
      var _ :- Type();
      var neg := Eat('n');
      var hex :- Hex();
      if hex.0 != "" && HexNumber(hex.0, 0).None? { return Raised; }
      return Got((if neg then "-" else "") + ShowHex(hex.0), s[i..]);
    }

    method Hex() returns (r: Read<string>)
      requires Valid()
      modifies this
      ensures r == ReadHex(old(Ahead())) && Stands(r)
    {
      var j := i;
      while i < |s| && s[i] != '_'
        invariant Valid() && j <= i
        invariant j == old(i) && forall k :: j <= k < i ==> s[k] != '_'
      {
        i := i + 1;
      }
      var hex := s[j..i];
      assert hex + Ahead() == old(Ahead());
      HexScan(hex, Ahead());
      if i == |s| { return Hung; }
      i := i + 1;
      return Got(hex, s[i..]);
    }

    // ----- types -----

    method Type() returns (r: Read<string>)
      requires Valid()
      modifies this
      ensures r == ReadType(old(Ahead())) && Stands(r)
      decreases |s| - i, 2
    {
      if i == |s| { return TooDeep; }
      var c := s[i];
      if BasicName(c).Some? {
        i := i + 1;
        r := Got(BasicName(c).value, s[i..]);
      } else if c == 'B' {
        r := BackReference;
      } else if TypeSign(c) {
        i := i + 1;
        r := SignedType(c);
      } else {
        var p :- Path();
        r := Got(p.0.0, s[i..]);
      }
    }

    /** After a letter that opens a type made of others. */
    method SignedType(c: char) returns (r: Read<string>)
      requires Valid() && TypeSign(c)
      modifies this
      ensures r == ReadType([c] + old(Ahead())) && Stands(r)
      decreases |s| - i, 8
    {
      ghost var tail := Ahead();
      SignIsNotBasic(c);
      assert ([c] + tail)[1..] == tail;
      if c == 'A' {
        r := ArrayType();
      } else if c == 'S' {
        var t :- Type();
        r := Got("[" + t.0 + "]", s[i..]);
      } else if c == 'T' {
        var xs :- Types();
        r := Got("(" + Join(xs.0, ", ") + ")", s[i..]);
      } else if c == 'R' || c == 'Q' {
        var _ :- Life('L');
        var t :- Type();
        r := Got((if c == 'R' then "&" else "&mut ") + t.0, s[i..]);
      } else if c == 'P' || c == 'O' {
        var t :- Type();
        r := Got((if c == 'P' then "*const " else "*mut ") + t.0, s[i..]);
      } else if c == 'F' {
        r := FnType();
      } else {
        r := DynType();
      }
    }

    method ArrayType() returns (r: Read<string>)
      requires Valid()
      modifies this
      ensures r == ReadArray(old(Ahead())) && Stands(r)
      decreases |s| - i, 5
    {
      var t :- Type();
      var n :- Constant();
      return Got("[" + t.0 + "; " + n.0 + "]", s[i..]);
    }

    method Abi() returns (r: Read<()>)
      requires Valid()
      modifies this
      ensures r == ReadAbi(old(Ahead())) && Stands(r)
    {
      var has := Eat('K');
      if has {
        var c := Eat('C');
        if !c { var _ :- Identifier(); }
      }
      return Got((), s[i..]);
    }

    method FnType() returns (r: Read<string>)
      requires Valid()
      modifies this
      ensures r == ReadFn(old(Ahead())) && Stands(r)
      decreases |s| - i, 5
    {
      var _ :- Life('G');
      var _ := Eat('U');
      var _ :- Abi();
      var ts :- Types();
      return Got(ShowFn(ts.0), s[i..]);
    }

    method DynType() returns (r: Read<string>)
      requires Valid()
      modifies this
      ensures r == ReadDyn(old(Ahead())) && Stands(r)
      decreases |s| - i, 7
    {
      var _ :- Life('G');
      var ts :- Bounds();
      var has := Eat('L');
      if !has { return Raised; }
      var _ :- Base62();
      return Got("dyn " + Join(ts.0, " + "), s[i..]);
    }

    method Types() returns (r: Read<seq<string>>)
      requires Valid()
      modifies this
      ensures r == ReadTypes(old(Ahead())) && Stands(r)
      decreases |s| - i, 4
    {
      var ts := [];
      PrependNone(ReadTypes(Ahead()));
      var done := Eat('E');
      while !done
        invariant Valid() && |s| - i <= old(|s| - i)
        invariant done ==> ReadTypes(old(Ahead())) == Got(ts, Ahead())
        invariant !done ==> !At(Ahead(), 'E') && ReadTypes(old(Ahead())) == Prepend(ts, ReadTypes(Ahead()))
        decreases |s| - i, !done
      {
        ghost var here := Ahead();
        var t :- Type();
        assert ReadTypes(here) == Prepend([t.0], ReadTypes(Ahead()));
        PrependStep(ts, t.0, ReadTypes(Ahead()));
        ts := ts + [t.0];
        PrependEnd(ts, Ahead());
        done := Eat('E');
      }
      return Got(ts, s[i..]);
    }

    method Bounds() returns (r: Read<seq<string>>)
      requires Valid()
      modifies this
      ensures r == ReadBounds(old(Ahead())) && Stands(r)
      decreases |s| - i, 6
    {
      var ts := [];
      PrependNone(ReadBounds(Ahead()));
      var done := Eat('E');
      while !done
        invariant Valid() && |s| - i <= old(|s| - i)
        invariant done ==> ReadBounds(old(Ahead())) == Got(ts, Ahead())
        invariant !done ==> !At(Ahead(), 'E') && ReadBounds(old(Ahead())) == Prepend(ts, ReadBounds(Ahead()))
        decreases |s| - i, !done
      {
        ghost var here := Ahead();
        var p :- BoundPath();
        assert ReadBounds(here) == Prepend([p.0], ReadBounds(Ahead()));
        PrependStep(ts, p.0, ReadBounds(Ahead()));
        ts := ts + [p.0];
        PrependEnd(ts, Ahead());
        done := Eat('E');
      }
      return Got(ts, s[i..]);
    }

    /** A trait path; its associated-type bindings are passed over. */
    method BoundPath() returns (r: Read<string>)
      requires Valid()
      modifies this
      ensures r == ReadBound(old(Ahead())) && Stands(r)
      decreases |s| - i, 5
    {
      var p :- Path();
      var _ :- Assocs();
      return Got(p.0.0, s[i..]);
    }

    method AssocBinding() returns (r: Read<()>)
      requires Valid()
      modifies this
      ensures r == ReadAssoc(old(Ahead())) && Stands(r)
      decreases |s| - i, 3
    {
      var _ :- Identifier();
      var _ :- Type();
      return Got((), s[i..]);
    }

    method Assocs() returns (r: Read<()>)
      requires Valid()
      modifies this
      ensures r == ReadAssocs(old(Ahead())) && Stands(r)
      decreases |s| - i, 4
    {
      var more := Eat('p');
      while more
        invariant Valid() && |s| - i <= old(|s| - i)
        invariant more ==> |s| - i < old(|s| - i) && ReadAssocs(old(Ahead())) == ReadMoreAssocs(Ahead())
        invariant !more ==> ReadAssocs(old(Ahead())) == Got((), Ahead())
        decreases |s| - i, more
      {
        var _ :- AssocBinding();
        more := Eat('p');
      }
      return Got((), s[i..]);
    }
  }

  predicate NoUnderscore(hex: string) {
    forall k :: 0 <= k < |hex| ==> hex[k] != '_'
  }

  lemma {:induction false} HexScan(hex: string, rest: string)
    requires NoUnderscore(hex)
    ensures rest == "" ==> ReadHex(hex + rest) == Hung
    ensures At(rest, '_') ==> ReadHex(hex + rest) == Got(hex, rest[1..])
  {
    if hex == "" {
      assert hex + rest == rest;
    } else {
      assert (hex + rest)[1..] == hex[1..] + rest && [hex[0]] + hex[1..] == hex;
      HexScan(hex[1..], rest);
    }
  }
}
