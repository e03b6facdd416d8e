/** Reading an encoded name back gives its readable form and its owning crate, and consumes exactly the
    encoding, whatever follows. One thing must hold of the text: an empty identifier (a closure has
    one) is not followed by a digit or an underscore, because the reader would take them for the
    identifier's length or separator. */
module RustV0RoundTrip {
  import opened Sequences
  import opened Options
  import opened Decimals
  import opened RustV0
  import opened RustV0Reader

  // ----- numbers -----

  lemma Digit62Reads(d: nat)
    requires d < 62
    ensures Value62(Digit62(d)) == Some(d) && Digit62(d) != '_'
  {
  }

  /** No other character is a base-62 digit. */
  lemma Digits62Only(c: char, v: nat)
    ensures Value62(c) == Some(v) <==> v < 62 && Digit62(v) == c
  {
  }

  lemma {:induction false} DecimalReads(n: nat, rest: string)
    ensures DecimalDigits(Decimal(n) + rest, 0) == DecimalDigits(rest, n)
    ensures Decimal(n) != "" && IsDigit(Decimal(n)[0])
  {
    if n < 10 {
      TailOf('0' + n as char, rest);
    } else {
      var d := '0' + (n % 10) as char;
      DecimalReads(n / 10, [d] + rest);
      Shift(Decimal(n / 10), [d], rest);
      TailOf(d, rest);
    }
  }

  lemma {:induction false} Digits62Read(n: nat, rest: string)
    ensures Digits(Digits62(n) + rest, 0) == Digits(rest, n)
    ensures Digits62(n) != "" && Digits62(n)[0] != '_'
  {
    if n < 62 {
      Digit62Reads(n);
      TailOf(Digit62(n), rest);
    } else {
      var d := Digit62(n % 62);
      Digit62Reads(n % 62);
      Digits62Read(n / 62, [d] + rest);
      Shift(Digits62(n / 62), [d], rest);
      TailOf(d, rest);
    }
  }

  /** Base-62 numbers read back, for every number and every following text. */
  lemma {:induction false} Base62Reads(n: nat, rest: string)
    ensures ReadBase62(Base62(n) + rest) == Got(n, rest)
  {
    TailOf('_', rest);
    if n > 0 {
      Shift(Digits62(n - 1), "_", rest);
      Digits62Read(n - 1, "_" + rest);
    }
  }

  lemma {:induction false} DisambiguatorReads(d: nat, rest: string)
    requires !At(rest, 's')
    ensures ReadDisambiguator(EncDisambiguator(d) + rest) == Got(d, rest)
  {
    if d == 0 {
      assert EncDisambiguator(d) + rest == rest;
    } else {
      Shift("s", Base62(d - 1), rest);
      TailOf('s', Base62(d - 1) + rest);
      Base62Reads(d - 1, rest);
    }
  }

  lemma {:induction false} LifeReads(letter: char, life: Option<nat>, rest: string)
    requires !At(rest, letter)
    ensures ReadLife(EncLife([letter], life) + rest, letter) == Got((), rest)
  {
    match life
    case None => assert EncLife([letter], life) + rest == rest;
    case Some(n) =>
      Shift([letter], Base62(n), rest);
      TailOf(letter, Base62(n) + rest);
      Base62Reads(n, rest);
  }

  // ----- identifiers -----

  predicate CleanIdent(id: Ident, rest: string) {
    id.name == "" ==> rest == "" || (!IsDigit(rest[0]) && rest[0] != '_')
  }

  /** Length, separator and name. */
  lemma {:induction false} NameReads(name: string, rest: string)
    requires name == "" ==> rest == "" || (!IsDigit(rest[0]) && rest[0] != '_')
    ensures var ts := Decimal(|name|) + (Separator(name) + (name + rest));
            && ReadDecimal(ts) == Got(|name|, Separator(name) + (name + rest))
            && Past(Separator(name) + (name + rest), '_') == name + rest
  {
    var body := Separator(name) + (name + rest);
    DecimalReads(|name|, body);
    if Separator(name) == "_" {
      TailOf('_', name + rest);
    } else {
      assert body == name + rest;
    }
    assert body == [] || !IsDigit(body[0]);
  }

  function Mark(id: Ident): string {
    if id.puny then "u" else ""
  }

  function Body(name: string, rest: string): string {
    Decimal(|name|) + (Separator(name) + (name + rest))
  }

  /** The disambiguator and the Punycode mark come off first. */
  lemma {:induction false} IdentPrefixReads(id: Ident, rest: string)
    ensures ReadDisambiguator(EncIdent(id) + rest) == Got(id.d, Mark(id) + Body(id.name, rest))
    ensures Past(Mark(id) + Body(id.name, rest), 'u') == Body(id.name, rest)
  {
    var sep, num, tail := Separator(id.name), Decimal(|id.name|), Body(id.name, rest);
    assert EncIdent(id) + rest == EncDisambiguator(id.d) + (Mark(id) + tail) by {
      ShiftTwo(EncDisambiguator(id.d), Mark(id), num + (sep + id.name), rest);
      ShiftTwo(num, sep, id.name, rest);
    }
    DecimalReads(|id.name|, sep + (id.name + rest));
    assert tail[0] == num[0];
    if id.puny { TailOf('u', tail); } else { assert Mark(id) + tail == tail; }
    DisambiguatorReads(id.d, Mark(id) + tail);
  }

  lemma {:induction false} IdentReads(id: Ident, rest: string)
    requires CleanIdent(id, rest)
    ensures ReadIdent(EncIdent(id) + rest) == Got((id.name, id.d), rest)
  {
    IdentPrefixReads(id, rest);
    NameReads(id.name, rest);
    assert (id.name + rest)[..|id.name|] == id.name && (id.name + rest)[|id.name|..] == rest;
  }

  lemma {:induction false} EmptyNameRunsOn(rest: string)
    requires rest != "" && (IsDigit(rest[0]) || rest[0] == '_')
    ensures ReadDecimal(Body("", rest)) == DecimalDigits(rest, 0)
    ensures |Past(DecimalDigits(rest, 0).rest, '_')| < |rest|
  {
    assert Body("", rest) == "0" + rest by { assert "" + ("" + rest) == rest; }
    TailOf('0', rest);
  }

  /** And only then: an empty identifier before a digit or underscore is misread. */
  lemma {:induction false} IdentReadsOnlyIfClean(id: Ident, rest: string)
    requires ReadIdent(EncIdent(id) + rest) == Got((id.name, id.d), rest)
    ensures CleanIdent(id, rest)
  {
    if id.name == "" && rest != "" && (IsDigit(rest[0]) || rest[0] == '_') {
      IdentPrefixReads(id, rest);
      EmptyNameRunsOn(rest);
    }
  }

  lemma {:induction false} IdentStart(id: Ident)
    ensures EncIdent(id) != ""
    ensures IsDigit(EncIdent(id)[0]) || EncIdent(id)[0] == 's' || EncIdent(id)[0] == 'u'
  {
    DecimalReads(|id.name|, "");
    if id.d == 0 {
      var u := if id.puny then "u" else "";
      var tail := Decimal(|id.name|) + (Separator(id.name) + id.name);
      assert EncDisambiguator(0) + (u + tail) == u + tail;
    }
  }

  // ----- what the rest of the text must be like -----

  predicate CleanPath(p: Path, rest: string) {
    match p
    case Crate(id) => CleanIdent(id, rest)
    case Nested(_, parent, id) => CleanPath(parent, EncIdent(id) + rest) && CleanIdent(id, rest)
    case Inherent(_, impl, ty) => CleanPath(impl, EncType(ty) + rest) && CleanType(ty, rest)
    case TraitImpl(_, impl, ty, tr) =>
      && CleanPath(impl, EncType(ty) + (EncPath(tr) + rest)) && CleanType(ty, EncPath(tr) + rest)
      && CleanPath(tr, rest)
    case TraitDef(ty, tr) => CleanType(ty, EncPath(tr) + rest) && CleanPath(tr, rest)
    case Generic(base, args) => CleanPath(base, EncArgs(args) + ("E" + rest)) && CleanArgs(args, "E" + rest)
  }

  predicate CleanArgs(args: seq<Arg>, rest: string) {
    args == [] || (CleanArg(args[0], EncArgs(args[1..]) + rest) && CleanArgs(args[1..], rest))
  }

  predicate CleanArg(a: Arg, rest: string) {
    match a
    case Lifetime(_) => true
    case ConstArg(c) => CleanConst(c, rest)
    case TypeArg(t) => CleanType(t, rest)
  }

  /** A constant's type is not the placeholder type, and its value is in hexadecimal digits. */
  predicate CleanConst(c: Const, rest: string) {
    match c
    case Placeholder => true
    case Value(ty, neg, hex) =>
      && ty != Basic('p') && HexNumber(hex, 0).Some?
      && CleanType(ty, (if neg then "n" else "") + (hex + ("_" + rest)))
  }

  predicate CleanAbi(abi: Abi, rest: string) {
    abi.AbiName? ==> CleanIdent(abi.id, rest)
  }

  predicate CleanType(t: Type, rest: string) {
    match t
    case Basic(c) => BasicName(c).Some?
    case Array(t, n) => CleanType(t, EncConst(n) + rest) && CleanConst(n, rest)
    case Slice(t) => CleanType(t, rest)
    case Tuple(ts) => CleanTypes(ts, "E" + rest)
    case Ref(_, _, t) => CleanType(t, rest)
    case Ptr(_, t) => CleanType(t, rest)
    case Fn(_, _, abi, ts) => CleanAbi(abi, EncTypes(ts) + ("E" + rest)) && CleanTypes(ts, "E" + rest)
    case Dyn(_, bounds, region) => CleanBounds(bounds, "E" + ("L" + (Base62(region) + rest)))
    case Named(p) => CleanPath(p, rest)
  }

  predicate CleanTypes(ts: seq<Type>, rest: string) {
    ts == [] || (CleanType(ts[0], EncTypes(ts[1..]) + rest) && CleanTypes(ts[1..], rest))
  }

  predicate CleanBounds(bs: seq<Bound>, rest: string) {
    bs == [] || (CleanBound(bs[0], EncBounds(bs[1..]) + rest) && CleanBounds(bs[1..], rest))
  }

  predicate CleanBound(b: Bound, rest: string) {
    CleanPath(b.path, EncAssocs(b.assoc) + rest) && CleanAssocs(b.assoc, rest)
  }

  predicate CleanAssocs(xs: seq<Assoc>, rest: string) {
    xs == [] || (CleanAssoc(xs[0], EncAssocs(xs[1..]) + rest) && CleanAssocs(xs[1..], rest))
  }

  predicate CleanAssoc(x: Assoc, rest: string) {
    CleanIdent(x.id, EncType(x.ty) + rest) && CleanType(x.ty, rest)
  }

  // ----- first characters -----

  predicate PathLetter(c: char) {
    c == 'C' || c == 'N' || c == 'M' || c == 'X' || c == 'Y' || c == 'I'
  }

  predicate TypeLetter(c: char) {
    PathLetter(c) || BasicName(c).Some? || TypeSign(c)
  }

  lemma PathLetterIsNoSign(c: char)
    requires PathLetter(c)
    ensures BasicName(c).None? && c != 'B' && !TypeSign(c)
  {
  }

  lemma PathStart(p: Path)
    ensures EncPath(p) != "" && PathLetter(EncPath(p)[0])
  {
  }

  lemma {:induction false} TypeStart(t: Type, rest: string)
    requires CleanType(t, rest)
    ensures EncType(t) != "" && TypeLetter(EncType(t)[0])
    ensures EncType(t)[0] == 'p' ==> t == Basic('p')
    ensures EncType(t)[0] != 'B' && EncType(t)[0] != 'E'
  {
    if t.Named? { PathStart(t.p); }
  }

  lemma {:induction false} ArgStart(a: Arg, rest: string)
    requires CleanArg(a, rest)
    ensures EncArg(a) != "" && EncArg(a)[0] != 'E'
  {
    if a.TypeArg? { TypeStart(a.t, rest); }
  }

  // ----- paths read back -----

  /** Which reader each first letter of a path leads to. */
  lemma PathTurn(tail: string)
    ensures ReadPath("N" + tail) == ReadNested(tail) && ReadPath("M" + tail) == ReadInherent(tail)
    ensures ReadPath("X" + tail) == ReadTraitImpl(tail) && ReadPath("Y" + tail) == ReadTraitDef(tail)
    ensures ReadPath("I" + tail) == ReadGeneric(tail)
  {
    TailOf('N', tail);
    TailOf('M', tail);
    TailOf('X', tail);
    TailOf('Y', tail);
    TailOf('I', tail);
  }

  lemma {:induction false} PathReads(p: Path, rest: string)
    requires CleanPath(p, rest)
    ensures ReadPath(EncPath(p) + rest) == Got((ShowPath(p), OwnerOf(p)), rest)
    decreases p, 1
  {
    match p
    case Crate(id) =>
      Shift("C", EncIdent(id), rest);
      TailOf('C', EncIdent(id) + rest);
      IdentReads(id, rest);
    case Nested(_, _, _) => NestedReads(p, rest);
    case Inherent(_, _, _) => InherentReads(p, rest);
    case TraitImpl(_, _, _, _) => TraitImplReads(p, rest);
    case TraitDef(_, _) => TraitDefReads(p, rest);
    case Generic(_, _) => GenericReads(p, rest);
  }

  lemma {:induction false} NestedReads(p: Path, rest: string)
    requires p.Nested? && CleanPath(p, rest)
    ensures ReadPath(EncPath(p) + rest) == Got((ShowPath(p), OwnerOf(p)), rest)
    decreases p, 0
  {
    var tail := EncPath(p.parent) + (EncIdent(p.id) + rest);
    ShiftTwo("N", [p.ns], EncPath(p.parent) + EncIdent(p.id), rest);
    Shift(EncPath(p.parent), EncIdent(p.id), rest);
    PathTurn([p.ns] + tail);
    TailOf(p.ns, tail);
    PathReads(p.parent, EncIdent(p.id) + rest);
    IdentReads(p.id, rest);
    assert Segment(p.ns, Ident(p.id.d, false, p.id.name)) == Segment(p.ns, p.id);
  }

  /** The disambiguator and the path of an impl block come off before its type. */
  lemma {:induction false} ImplReads(d: nat, impl: Path, rest: string)
    requires CleanPath(impl, rest)
    ensures ReadDisambiguator(EncDisambiguator(d) + (EncPath(impl) + rest)) == Got(d, EncPath(impl) + rest)
    ensures ReadPath(EncPath(impl) + rest) == Got((ShowPath(impl), OwnerOf(impl)), rest)
    decreases impl, 2
  {
    PathStart(impl);
    assert (EncPath(impl) + rest)[0] == EncPath(impl)[0];
    DisambiguatorReads(d, EncPath(impl) + rest);
    PathReads(impl, rest);
  }

  lemma {:induction false} InherentReads(p: Path, rest: string)
    requires p.Inherent? && CleanPath(p, rest)
    ensures ReadPath(EncPath(p) + rest) == Got((ShowPath(p), OwnerOf(p)), rest)
    decreases p, 0
  {
    var tail := EncPath(p.impl) + (EncType(p.ty) + rest);
    ShiftTwo("M", EncDisambiguator(p.d), EncPath(p.impl) + EncType(p.ty), rest);
    Shift(EncPath(p.impl), EncType(p.ty), rest);
    PathTurn(EncDisambiguator(p.d) + tail);
    ImplReads(p.d, p.impl, EncType(p.ty) + rest);
    TypeReads(p.ty, rest);
  }

  lemma {:induction false} TraitImplReads(p: Path, rest: string)
    requires p.TraitImpl? && CleanPath(p, rest)
    ensures ReadPath(EncPath(p) + rest) == Got((ShowPath(p), OwnerOf(p)), rest)
    decreases p, 0
  {
    var after := EncType(p.ty) + (EncPath(p.tr) + rest);
    ShiftTwo("X", EncDisambiguator(p.d), EncPath(p.impl) + (EncType(p.ty) + EncPath(p.tr)), rest);
    ShiftTwo(EncPath(p.impl), EncType(p.ty), EncPath(p.tr), rest);
    PathTurn(EncDisambiguator(p.d) + (EncPath(p.impl) + after));
    ImplReads(p.d, p.impl, after);
    TypeReads(p.ty, EncPath(p.tr) + rest);
    PathReads(p.tr, rest);
  }

  lemma {:induction false} TraitDefReads(p: Path, rest: string)
    requires p.TraitDef? && CleanPath(p, rest)
    ensures ReadPath(EncPath(p) + rest) == Got((ShowPath(p), OwnerOf(p)), rest)
    decreases p, 0
  {
    ShiftTwo("Y", EncType(p.ty), EncPath(p.tr), rest);
    PathTurn(EncType(p.ty) + (EncPath(p.tr) + rest));
    TypeReads(p.ty, EncPath(p.tr) + rest);
    PathReads(p.tr, rest);
  }

  lemma {:induction false} GenericReads(p: Path, rest: string)
    requires p.Generic? && CleanPath(p, rest)
    ensures ReadPath(EncPath(p) + rest) == Got((ShowPath(p), OwnerOf(p)), rest)
    decreases p, 0
  {
    var tail := EncArgs(p.args) + ("E" + rest);
    ShiftTwo("I", EncPath(p.base), EncArgs(p.args) + "E", rest);
    Shift(EncArgs(p.args), "E", rest);
    PathTurn(EncPath(p.base) + tail);
    PathReads(p.base, tail);
    ArgsRead(p.args, rest);
  }

  // ----- generic arguments and constants -----

  lemma {:induction false} ArgsRead(args: seq<Arg>, rest: string)
    requires CleanArgs(args, "E" + rest)
    ensures ReadArgs(EncArgs(args) + ("E" + rest)) == Got(ShowArgs(args), rest)
    decreases args
  {
    TailOf('E', rest);
    if args == [] {
      assert EncArgs(args) + ("E" + rest) == "E" + rest;
    } else {
      var tail := EncArgs(args[1..]) + ("E" + rest);
      Shift(EncArg(args[0]), EncArgs(args[1..]), "E" + rest);
      ArgStart(args[0], tail);
      ArgReads(args[0], tail);
      ArgsRead(args[1..], rest);
    }
  }

  lemma {:induction false} ArgReads(a: Arg, rest: string)
    requires CleanArg(a, rest)
    ensures ReadArg(EncArg(a) + rest) == Got(ShowArg(a), rest)
    decreases a
  {
    match a
    case Lifetime(n) =>
      Shift("L", Base62(n), rest);
      TailOf('L', Base62(n) + rest);
      Base62Reads(n, rest);
    case ConstArg(c) =>
      Shift("K", EncConst(c), rest);
      TailOf('K', EncConst(c) + rest);
      ConstReads(c, rest);
    case TypeArg(t) =>
      TypeStart(t, rest);
      TypeReads(t, rest);
  }

  lemma {:induction false} HexReads(hex: string, acc: nat, rest: string)
    requires HexNumber(hex, acc).Some?
    ensures ReadHex(hex + ("_" + rest)) == Got(hex, rest)
    ensures hex != "" ==> hex[0] != 'n'
  {
    TailOf('_', rest);
    if hex == "" {
      assert hex + ("_" + rest) == "_" + rest;
    } else {
      var d := HexValue(hex[0]).value;
      HexReads(hex[1..], acc * 16 + d, rest);
      assert hex + ("_" + rest) == [hex[0]] + (hex[1..] + ("_" + rest));
      TailOf(hex[0], hex[1..] + ("_" + rest));
      assert [hex[0]] + hex[1..] == hex;
    }
  }

  lemma {:induction false} ConstReads(c: Const, rest: string)
    requires CleanConst(c, rest)
    ensures ReadConst(EncConst(c) + rest) == Got(ShowConst(c), rest)
    decreases c
  {
    match c
    case Placeholder => TailOf('p', rest);
    case Value(ty, neg, hex) =>
      var n := if neg then "n" else "";
      var digits := hex + ("_" + rest);
      ShiftTwo(EncType(ty), n, hex + "_", rest);
      Shift(hex, "_", rest);
      TypeStart(ty, n + digits);
      assert (EncType(ty) + (n + digits))[0] == EncType(ty)[0];
      TypeReads(ty, n + digits);
      HexReads(hex, 0, rest);
      SignReads(neg, digits);
      ValueTurn(EncType(ty) + (n + digits), neg, hex, rest);
  }

  /** What a constant other than the placeholder reads as, once its type and its digits are known. */
  lemma ValueTurn(s: string, neg: bool, hex: string, rest: string)
    requires !At(s, 'p') && !At(s, 'B') && ReadType(s).Got? && HexNumber(hex, 0).Some?
    requires At(ReadType(s).rest, 'n') == neg && ReadHex(Past(ReadType(s).rest, 'n')) == Got(hex, rest)
    ensures ReadConst(s) == Got((if neg then "-" else "") + ShowHex(hex), rest)
  {
  }

  lemma SignReads(neg: bool, digits: string)
    requires !At(digits, 'n')
    ensures var s := (if neg then "n" else "") + digits; At(s, 'n') == neg && Past(s, 'n') == digits
  {
    if neg { TailOf('n', digits); } else { assert "" + digits == digits; }
  }

  // ----- types -----

  lemma {:induction false} TypeReads(t: Type, rest: string)
    requires CleanType(t, rest)
    ensures ReadType(EncType(t) + rest) == Got(ShowType(t), rest)
    decreases t, 1
  {
    match t
    case Basic(c) => TailOf(c, rest);
    case Array(_, _) => ArrayReads(t, rest);
    case Slice(_) => SliceReads(t, rest);
    case Tuple(_) => TupleReads(t, rest);
    case Ref(_, _, _) => RefReads(t, rest);
    case Ptr(_, _) => PtrReads(t, rest);
    case Fn(_, _, _, _) => FnReads(t, rest);
    case Dyn(_, _, _) => DynReads(t, rest);
    case Named(_) => NamedReads(t, rest);
  }

  lemma {:induction false} ArrayReads(t: Type, rest: string)
    requires t.Array? && CleanType(t, rest)
    ensures ReadType(EncType(t) + rest) == Got(ShowType(t), rest)
    decreases t, 0
  {
    ShiftTwo("A", EncType(t.t), EncConst(t.n), rest);
    TypeReads(t.t, EncConst(t.n) + rest);
    ConstReads(t.n, rest);
    ArrayTurn(EncType(t.t) + (EncConst(t.n) + rest));
  }

  lemma {:induction false} SliceReads(t: Type, rest: string)
    requires t.Slice? && CleanType(t, rest)
    ensures ReadType(EncType(t) + rest) == Got(ShowType(t), rest)
    decreases t, 0
  {
    Shift("S", EncType(t.t), rest);
    TailOf('S', EncType(t.t) + rest);
    TypeReads(t.t, rest);
  }

  lemma {:induction false} TupleReads(t: Type, rest: string)
    requires t.Tuple? && CleanType(t, rest)
    ensures ReadType(EncType(t) + rest) == Got(ShowType(t), rest)
    decreases t, 0
  {
    ShiftTwo("T", EncTypes(t.ts), "E", rest);
    TailOf('T', EncTypes(t.ts) + ("E" + rest));
    TypesRead(t.ts, rest);
  }

  lemma {:induction false} PtrReads(t: Type, rest: string)
    requires t.Ptr? && CleanType(t, rest)
    ensures ReadType(EncType(t) + rest) == Got(ShowType(t), rest)
    decreases t, 0
  {
    var c := if t.mutable then 'O' else 'P';
    Shift([c], EncType(t.t), rest);
    TailOf(c, EncType(t.t) + rest);
    TypeReads(t.t, rest);
  }

  lemma {:induction false} NamedReads(t: Type, rest: string)
    requires t.Named? && CleanType(t, rest)
    ensures ReadType(EncType(t) + rest) == Got(ShowType(t), rest)
    decreases t, 0
  {
    PathStart(t.p);
    assert (EncPath(t.p) + rest)[0] == EncPath(t.p)[0];
    PathLetterIsNoSign(EncPath(t.p)[0]);
    NamedTurn(EncPath(t.p) + rest);
    NamedPathReads(t.p, rest);
  }

  lemma {:induction false} NamedPathReads(p: Path, rest: string)
    requires CleanPath(p, rest)
    ensures ReadNamed(EncPath(p) + rest) == Got(ShowPath(p), rest)
    decreases p, 2
  {
    PathReads(p, rest);
  }

  // What each first letter of a type leads to.

  lemma NamedTurn(s: string)
    requires s != "" && BasicName(s[0]).None? && s[0] != 'B' && !TypeSign(s[0])
    ensures ReadType(s) == ReadNamed(s)
  {
  }

  lemma ArrayTurn(tail: string)
    ensures ReadType("A" + tail) == ReadArray(tail)
  {
    TailOf('A', tail);
  }

  lemma RefTurn(mutable: bool, tail: string)
    requires ReadLife(tail, 'L').Got? && ReadType(ReadLife(tail, 'L').rest).Got?
    ensures var r := ReadType(ReadLife(tail, 'L').rest);
            ReadType((if mutable then "Q" else "R") + tail) ==
            Got((if mutable then "&mut " else "&") + r.val, r.rest)
  {
    TailOf(if mutable then 'Q' else 'R', tail);
  }

  lemma FnTurn(tail: string)
    ensures ReadType("F" + tail) == ReadFn(tail)
  {
    TailOf('F', tail);
  }

  lemma DynTurn(tail: string)
    ensures ReadType("D" + tail) == ReadDyn(tail)
  {
    TailOf('D', tail);
  }

  lemma {:induction false} RefReads(t: Type, rest: string)
    requires t.Ref? && CleanType(t, rest)
    ensures ReadType(EncType(t) + rest) == Got(ShowType(t), rest)
    decreases t, 0
  {
    var c := if t.mutable then "Q" else "R";
    var tail := EncType(t.t) + rest;
    ShiftTwo(c, EncLife("L", t.life), EncType(t.t), rest);
    TypeStart(t.t, rest);
    assert tail[0] == EncType(t.t)[0];
    LifeReads('L', t.life, tail);
    TypeReads(t.t, rest);
    RefTurn(t.mutable, EncLife("L", t.life) + tail);
  }

  lemma {:induction false} TypesRead(ts: seq<Type>, rest: string)
    requires CleanTypes(ts, "E" + rest)
    ensures ReadTypes(EncTypes(ts) + ("E" + rest)) == Got(ShowTypes(ts), rest)
    decreases ts
  {
    TailOf('E', rest);
    if ts == [] {
      assert EncTypes(ts) + ("E" + rest) == "E" + rest;
    } else {
      var tail := EncTypes(ts[1..]) + ("E" + rest);
      Shift(EncType(ts[0]), EncTypes(ts[1..]), "E" + rest);
      TypeStart(ts[0], tail);
      TypeReads(ts[0], tail);
      TypesRead(ts[1..], rest);
    }
  }

  lemma {:induction false} TypesStart(ts: seq<Type>, rest: string)
    requires CleanTypes(ts, "E" + rest)
    ensures var s := EncTypes(ts) + ("E" + rest); s != "" && (TypeLetter(s[0]) || s[0] == 'E')
  {
    if ts != [] { TypeStart(ts[0], EncTypes(ts[1..]) + ("E" + rest)); }
  }

  lemma {:induction false} AbiReads(abi: Abi, rest: string)
    requires CleanAbi(abi, rest) && !At(rest, 'K')
    ensures ReadAbi(EncAbi(abi) + rest) == Got((), rest)
  {
    match abi
    case NoAbi => assert EncAbi(abi) + rest == rest;
    case AbiC => assert (EncAbi(abi) + rest)[2..] == rest;
    case AbiName(id) =>
      Shift("K", EncIdent(id), rest);
      TailOf('K', EncIdent(id) + rest);
      IdentStart(id);
      IdentReads(id, rest);
  }

  lemma {:induction false} FnReads(t: Type, rest: string)
    requires t.Fn? && CleanType(t, rest)
    ensures ReadType(EncType(t) + rest) == Got(ShowType(t), rest)
    decreases t, 0
  {
    var types := EncTypes(t.ts) + ("E" + rest);
    var abi := EncAbi(t.abi) + types;
    var u := if t.unsafety then "U" else "";
    assert EncType(t) + rest == "F" + (EncLife("G", t.binder) + (u + abi)) by {
      ShiftTwo("F", EncLife("G", t.binder), u + (EncAbi(t.abi) + (EncTypes(t.ts) + "E")), rest);
      ShiftTwo(u, EncAbi(t.abi), EncTypes(t.ts) + "E", rest);
      Shift(EncTypes(t.ts), "E", rest);
    }
    TypesStart(t.ts, rest);
    TypesRead(t.ts, rest);
    FnBodyReads(t.binder, t.unsafety, t.abi, types);
    FnTurn(EncLife("G", t.binder) + (u + abi));
  }

  /** The binder, the `unsafe` mark and the ABI come off before the types. */
  lemma {:induction false} FnBodyReads(binder: Option<nat>, unsafety: bool, abi: Abi, types: string)
    requires CleanAbi(abi, types) && types != "" && (TypeLetter(types[0]) || types[0] == 'E')
    requires ReadTypes(types).Got?
    ensures ReadFn(EncLife("G", binder) + ((if unsafety then "U" else "") + (EncAbi(abi) + types))) ==
            Got(ShowFn(ReadTypes(types).val), ReadTypes(types).rest)
  {
    var u, tail := if unsafety then "U" else "", EncAbi(abi) + types;
    AbiStart(abi, types);
    if unsafety { TailOf('U', tail); } else { assert u + tail == tail; }
    LifeReads('G', binder, u + tail);
    AbiReads(abi, types);
  }

  lemma {:induction false} AbiStart(abi: Abi, types: string)
    requires types != "" && (TypeLetter(types[0]) || types[0] == 'E')
    ensures var s := EncAbi(abi) + types; s != "" && s[0] != 'G' && s[0] != 'U'
    ensures !At(types, 'K')
  {
    if abi.NoAbi? { assert EncAbi(abi) + types == types; }
  }

  lemma {:induction false} DynReads(t: Type, rest: string)
    requires t.Dyn? && CleanType(t, rest)
    ensures ReadType(EncType(t) + rest) == Got(ShowType(t), rest)
    decreases t, 0
  {
    var life := "L" + (Base62(t.region) + rest);
    var bounds := EncBounds(t.bounds) + ("E" + life);
    assert EncType(t) + rest == "D" + (EncLife("G", t.binder) + bounds) by {
      ShiftTwo("D", EncLife("G", t.binder), EncBounds(t.bounds) + ("E" + ("L" + Base62(t.region))), rest);
      ShiftTwo(EncBounds(t.bounds), "E", "L" + Base62(t.region), rest);
      Shift("L", Base62(t.region), rest);
    }
    BoundsStart(t.bounds, life);
    BoundsRead(t.bounds, life);
    DynBodyReads(t.binder, bounds, t.region, rest);
    DynTurn(EncLife("G", t.binder) + bounds);
  }

  /** The binder comes off before the bounds, the region after them. */
  lemma {:induction false} DynBodyReads(binder: Option<nat>, bounds: string, region: nat, rest: string)
    requires !At(bounds, 'G')
    requires ReadBounds(bounds).Got? && ReadBounds(bounds).rest == "L" + (Base62(region) + rest)
    ensures ReadDyn(EncLife("G", binder) + bounds) == Got("dyn " + Join(ReadBounds(bounds).val, " + "), rest)
  {
    LifeReads('G', binder, bounds);
    TailOf('L', Base62(region) + rest);
    Base62Reads(region, rest);
  }

  lemma {:induction false} BoundStart(b: Bound)
    ensures EncBound(b) != "" && PathLetter(EncBound(b)[0])
  {
    PathStart(b.path);
  }

  lemma {:induction false} BoundsStart(bs: seq<Bound>, rest: string)
    ensures var s := EncBounds(bs) + ("E" + rest); s != "" && (PathLetter(s[0]) || s[0] == 'E')
  {
    if bs != [] { BoundStart(bs[0]); }
  }

  lemma {:induction false} BoundsRead(bs: seq<Bound>, rest: string)
    requires CleanBounds(bs, "E" + rest)
    ensures ReadBounds(EncBounds(bs) + ("E" + rest)) == Got(ShowBounds(bs), rest)
    decreases bs
  {
    TailOf('E', rest);
    if bs == [] {
      assert EncBounds(bs) + ("E" + rest) == "E" + rest;
    } else {
      var tail := EncBounds(bs[1..]) + ("E" + rest);
      Shift(EncBound(bs[0]), EncBounds(bs[1..]), "E" + rest);
      BoundStart(bs[0]);
      BoundsStart(bs[1..], rest);
      BoundReads(bs[0], tail);
      BoundsRead(bs[1..], rest);
    }
  }

  lemma {:induction false} BoundReads(b: Bound, rest: string)
    requires CleanBound(b, rest) && !At(rest, 'p')
    ensures ReadBound(EncBound(b) + rest) == Got(ShowBound(b), rest)
    decreases b
  {
    Shift(EncPath(b.path), EncAssocs(b.assoc), rest);
    PathReads(b.path, EncAssocs(b.assoc) + rest);
    AssocsRead(b.assoc, rest);
  }

  lemma {:induction false} AssocsRead(xs: seq<Assoc>, rest: string)
    requires CleanAssocs(xs, rest) && !At(rest, 'p')
    ensures ReadAssocs(EncAssocs(xs) + rest) == Got((), rest)
    decreases xs
  {
    if xs == [] {
      assert EncAssocs(xs) + rest == rest;
    } else {
      var tail := EncAssocs(xs[1..]) + rest;
      Shift(EncAssoc(xs[0]), EncAssocs(xs[1..]), rest);
      AssocReads(xs[0], tail);
      AssocsRead(xs[1..], rest);
    }
  }

  lemma {:induction false} AssocReads(x: Assoc, rest: string)
    requires CleanAssoc(x, rest)
    ensures ReadAssocs(EncAssoc(x) + rest) == ReadAssocs(rest)
    decreases x, 1
  {
    ShiftTwo("p", EncIdent(x.id), EncType(x.ty), rest);
    TailOf('p', EncIdent(x.id) + (EncType(x.ty) + rest));
    AssocBodyReads(x, rest);
  }

  lemma {:induction false} AssocBodyReads(x: Assoc, rest: string)
    requires CleanAssoc(x, rest)
    ensures ReadAssoc(EncIdent(x.id) + (EncType(x.ty) + rest)) == Got((), rest)
    decreases x, 0
  {
    IdentReads(x.id, EncType(x.ty) + rest);
    TypeReads(x.ty, rest);
  }
}
