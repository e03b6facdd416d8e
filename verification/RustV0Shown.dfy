/** What a reader of the ledger sees: the readable form of every encoded name, written out without any of
    the definitions that the reader and its round trip are made of. A path is a row of parts from the
    outermost to the innermost. */
module RustV0Shown {
  import opened Sequences
  import opened Options
  import opened Decimals
  import opened RustV0
  import opened RustV0Reader
  import opened RustV0RoundTrip
  import opened RustV0Plain

  // ----- the reference -----

  /** The texts one after the other, with `between` between neighbours. */
  function Row(texts: seq<string>, between: string): string {
    if |texts| == 0 then ""
    else if |texts| == 1 then texts[0]
    else Row(texts[..|texts| - 1], between) + between + texts[|texts| - 1]
  }

  function PathText(p: Path): string
    decreases p, 1
  {
    Row(Parts(p), "::")
  }

  /** The innermost part of a nested name; an empty name adds none. */
  function OwnParts(ns: char, name: string, d: nat): seq<string> {
    match ns
    case 'C' => ["{closure#" + Decimal(d) + "}"]
    case 'S' => ["{shim:" + name + "#" + Decimal(d) + "}"]
    case _ => if name == "" then [] else [name]
  }

  function Parts(p: Path): seq<string>
    decreases p, 0
  {
    match p
    case Crate(id) => [id.name]
    case Nested(ns, parent, id) => Parts(parent) + OwnParts(ns, id.name, id.d)
    case Inherent(_, _, ty) => ["<" + TypeText(ty) + ">"]
    case TraitImpl(_, _, ty, tr) => ["<" + TypeText(ty) + " as " + PathText(tr) + ">"]
    case TraitDef(ty, tr) => ["<" + TypeText(ty) + " as " + PathText(tr) + ">"]
    case Generic(base, args) =>
      Parts(base) + ["<" + Row(ArgTexts(args), ", ") + ">"]
  }

  function ArgTexts(args: seq<Arg>): seq<string>
    decreases args, 0
  {
    seq(|args|, i requires 0 <= i < |args| => ArgText(args[i]))
  }

  function ArgText(a: Arg): string
    decreases a, 0
  {
    match a
    case Lifetime(_) => "'_"
    case ConstArg(c) => ConstText(c)
    case TypeArg(t) => TypeText(t)
  }

  /** The hexadecimal digits, in either case. */
  const HEX_DIGITS: map<char, nat> := map[
    '0' := 0, '1' := 1, '2' := 2, '3' := 3, '4' := 4, '5' := 5, '6' := 6, '7' := 7, '8' := 8, '9' := 9,
    'a' := 10, 'b' := 11, 'c' := 12, 'd' := 13, 'e' := 14, 'f' := 15,
    'A' := 10, 'B' := 11, 'C' := 12, 'D' := 13, 'E' := 14, 'F' := 15]

  predicate AllHex(hex: string) {
    forall c <- hex :: c in HEX_DIGITS
  }

  /** Sixteen times the digits before the last, plus the last. */
  function Sixteens(hex: string): nat
    requires AllHex(hex)
  {
    if hex == "" then 0 else Sixteens(hex[..|hex| - 1]) * 16 + HEX_DIGITS[hex[|hex| - 1]]
  }

  function ConstText(c: Const): string
    decreases c, 0
  {
    match c
    case Placeholder => "_"
    case Value(_, neg, hex) =>
      var n := if AllHex(hex) then Decimal(Sixteens(hex)) else "";
      if neg then "-" + n else n
  }

  /** The basic types of RFC 2603. */
  const BASIC_TYPES: map<char, string> := map[
    'a' := "i8", 'b' := "bool", 'c' := "char", 'd' := "f64", 'e' := "str", 'f' := "f32", 'h' := "u8",
    'i' := "isize", 'j' := "usize", 'l' := "i32", 'm' := "u32", 'n' := "i128", 'o' := "u128", 'p' := "_",
    's' := "i16", 't' := "u16", 'u' := "()", 'v' := "...", 'x' := "i64", 'y' := "u64", 'z' := "!"]

  function TypeText(t: Type): string
    decreases t, 0
  {
    match t
    case Basic(c) => if c in BASIC_TYPES then BASIC_TYPES[c] else ""
    case Array(t, n) => "[" + TypeText(t) + "; " + ConstText(n) + "]"
    case Slice(t) => "[" + TypeText(t) + "]"
    case Tuple(ts) => "(" + Row(TypeTexts(ts), ", ") + ")"
    case Ref(false, _, t) => "&" + TypeText(t)
    case Ref(true, _, t) => "&mut " + TypeText(t)
    case Ptr(false, t) => "*const " + TypeText(t)
    case Ptr(true, t) => "*mut " + TypeText(t)
    case Fn(_, _, _, ts) =>
      if ts == [] then "fn() -> ()" else
      var last := |ts| - 1;
      "fn(" + Row(TypeTexts(ts[..last]), ", ") + ") -> " + TypeText(ts[last])
    case Dyn(_, bounds, _) => "dyn " + Row(BoundTexts(bounds), " + ")
    case Named(p) => PathText(p)
  }

  function TypeTexts(ts: seq<Type>): seq<string>
    decreases ts, 0
  {
    seq(|ts|, i requires 0 <= i < |ts| => TypeText(ts[i]))
  }

  /** A bound shows its trait, not what it binds. */
  function BoundTexts(bounds: seq<Bound>): seq<string>
    decreases bounds, 0
  {
    seq(|bounds|, i requires 0 <= i < |bounds| => PathText(bounds[i].path))
  }

  // ----- rows -----

  lemma {:induction false} RowAppends(texts: seq<string>, x: string, between: string)
    requires texts != []
    ensures Row(texts + [x], between) == Row(texts, between) + between + x
  {
    assert (texts + [x])[..|texts|] == texts;
  }

  lemma {:induction false} JoinAppends(texts: seq<string>, x: string, sep: string)
    requires texts != []
    ensures Join(texts + [x], sep) == Join(texts, sep) + sep + x
  {
    assert (texts + [x])[1..] == texts[1..] + [x];
    if |texts| > 1 { JoinAppends(texts[1..], x, sep); }
  }

  lemma {:induction false} JoinIsRow(texts: seq<string>, sep: string)
    ensures Join(texts, sep) == Row(texts, sep)
  {
    if |texts| > 1 {
      var init := texts[..|texts| - 1];
      JoinIsRow(init, sep);
      JoinAppends(init, texts[|texts| - 1], sep);
      assert init + [texts[|texts| - 1]] == texts;
    }
  }

  // ----- constants and basic types -----

  lemma DigitsAgree(c: char)
    ensures HexValue(c) == if c in HEX_DIGITS then Some(HEX_DIGITS[c]) else None
  {
  }

  lemma {:induction false} HexAppends(hex: string, c: char, acc: nat)
    ensures HexNumber(hex + [c], acc) ==
            match HexNumber(hex, acc) case None => None
            case Some(n) => if c in HEX_DIGITS then Some(n * 16 + HEX_DIGITS[c]) else None
  {
    DigitsAgree(c);
    if hex == [] {
      TailOf(c, "");
      assert hex + [c] == [c];
      assert ([c])[1..] == [];
    } else {
      assert (hex + [c])[1..] == hex[1..] + [c];
      if HexValue(hex[0]).Some? { HexAppends(hex[1..], c, acc * 16 + HexValue(hex[0]).value); }
    }
  }

  /** A text is a hexadecimal number exactly when all of it is digits, and then counts sixteens. */
  lemma {:induction false} HexIsSixteens(hex: string)
    ensures HexNumber(hex, 0) == if AllHex(hex) then Some(Sixteens(hex)) else None
  {
    if hex != [] {
      var init, c := hex[..|hex| - 1], hex[|hex| - 1];
      assert hex == init + [c];
      HexIsSixteens(init);
      HexAppends(init, c, 0);
    }
  }

  lemma {:induction false} BasicIsTable(c: char)
    ensures BasicName(c) == if c in BASIC_TYPES then Some(BASIC_TYPES[c]) else None
  {
  }

  // ----- the readable form is the reference -----

  lemma {:induction false} PathShown(p: Path)
    ensures ShowPath(p) == PathText(p) && Parts(p) != []
    decreases p
  {
    match p
    case Crate(_) =>
    case Nested(ns, parent, id) =>
      PathShown(parent);
      SegmentShown(parent, ns, id);
    case Inherent(_, _, ty) => TypeShown(ty);
    case TraitImpl(_, _, ty, tr) => TypeShown(ty); PathShown(tr);
    case TraitDef(ty, tr) => TypeShown(ty); PathShown(tr);
    case Generic(base, args) =>
      PathShown(base);
      ArgsShown(args);
      GenericShown(base, args);
  }

  lemma {:induction false} SegmentShown(parent: Path, ns: char, id: Ident)
    requires Parts(parent) != []
    ensures PathText(Nested(ns, parent, id)) == Under(PathText(parent), Segment(ns, id))
  {
    var own := OwnParts(ns, id.name, id.d);
    if own == [] {
      assert Parts(parent) + own == Parts(parent);
    } else {
      RowAppends(Parts(parent), own[0], "::");
    }
  }

  lemma {:induction false} GenericShown(base: Path, args: seq<Arg>)
    requires Parts(base) != []
    requires Join(ShowArgs(args), ", ") == Row(ArgTexts(args), ", ")
    ensures PathText(Generic(base, args)) == PathText(base) + "::<" + Join(ShowArgs(args), ", ") + ">"
  {
    RowAppends(Parts(base), "<" + Row(ArgTexts(args), ", ") + ">", "::");
  }

  lemma {:induction false} ArgsShown(args: seq<Arg>)
    ensures Join(ShowArgs(args), ", ") == Row(ArgTexts(args), ", ")
    decreases args, 1
  {
    ArgListShown(args);
    JoinIsRow(ArgTexts(args), ", ");
  }

  lemma {:induction false} ArgListShown(args: seq<Arg>)
    ensures ShowArgs(args) == ArgTexts(args)
    decreases args, 0
  {
    if args != [] {
      ArgShown(args[0]);
      ArgListShown(args[1..]);
      assert ArgTexts(args) == [ArgText(args[0])] + ArgTexts(args[1..]);
    }
  }

  lemma {:induction false} ArgShown(a: Arg)
    ensures ShowArg(a) == ArgText(a)
    decreases a
  {
    match a
    case Lifetime(_) =>
    case ConstArg(c) => ConstShown(c);
    case TypeArg(t) => TypeShown(t);
  }

  lemma {:induction false} ConstShown(c: Const)
    ensures ShowConst(c) == ConstText(c)
  {
    if c.Value? {
      HexIsSixteens(c.hex);
    }
  }

  lemma {:induction false} TypeShown(t: Type)
    ensures ShowType(t) == TypeText(t)
    decreases t
  {
    match t
    case Basic(c) => BasicIsTable(c);
    case Array(u, n) => TypeShown(u); ConstShown(n);
    case Slice(u) => TypeShown(u);
    case Ref(_, _, u) => TypeShown(u);
    case Ptr(_, u) => TypeShown(u);
    case Named(p) => PathShown(p);
    case Tuple(ts) => TypeListShown(ts); TupleShown(t);
    case Fn(_, _, _, ts) => TypeListShown(ts); FnShown(t);
    case Dyn(_, bounds, _) => BoundListShown(bounds); DynShown(t);
  }

  lemma {:induction false} TypeListShown(ts: seq<Type>)
    ensures ShowTypes(ts) == TypeTexts(ts)
    decreases ts
  {
    if ts != [] {
      TypeShown(ts[0]);
      TypeListShown(ts[1..]);
      assert TypeTexts(ts) == [TypeText(ts[0])] + TypeTexts(ts[1..]);
    }
  }

  lemma {:induction false} TupleShown(t: Type)
    requires t.Tuple? && ShowTypes(t.ts) == TypeTexts(t.ts)
    ensures ShowType(t) == TypeText(t)
  {
    JoinIsRow(TypeTexts(t.ts), ", ");
  }

  lemma {:induction false} DynShown(t: Type)
    requires t.Dyn? && ShowBounds(t.bounds) == BoundTexts(t.bounds)
    ensures ShowType(t) == TypeText(t)
  {
    JoinIsRow(BoundTexts(t.bounds), " + ");
  }

  lemma {:induction false} FnShown(t: Type)
    requires t.Fn? && ShowTypes(t.ts) == TypeTexts(t.ts)
    ensures ShowType(t) == TypeText(t)
  {
    if t.ts != [] {
      var last := |t.ts| - 1;
      assert TypeTexts(t.ts)[..last] == TypeTexts(t.ts[..last]);
      JoinIsRow(TypeTexts(t.ts[..last]), ", ");
    }
  }

  lemma {:induction false} BoundListShown(bs: seq<Bound>)
    ensures ShowBounds(bs) == BoundTexts(bs)
    decreases bs
  {
    if bs != [] {
      PathShown(bs[0].path);
      BoundListShown(bs[1..]);
      assert BoundTexts(bs) == [PathText(bs[0].path)] + BoundTexts(bs[1..]);
    }
  }

  // ----- what is read -----

  /** Every clean path reads as its parts from the outermost to the innermost, and as its owner. */
  lemma {:induction false} PathReadsAsParts(p: Path, rest: string)
    requires CleanPath(p, rest)
    ensures ReadPath(EncPath(p) + rest) == Got((Row(Parts(p), "::"), OwnerOf(p)), rest)
  {
    PathReads(p, rest);
    PathShown(p);
  }

  /** Every clean type reads as its reference text. */
  lemma {:induction false} TypeReadsAsText(t: Type, rest: string)
    requires CleanType(t, rest)
    ensures ReadType(EncType(t) + rest) == Got(TypeText(t), rest)
  {
    TypeReads(t, rest);
    TypeShown(t);
  }

  /** A closure adds its number. */
  lemma {:induction false} ClosureReads(parent: Path, id: Ident, rest: string)
    requires CleanPath(Nested('C', parent, id), rest)
    ensures ReadPath(EncPath(Nested('C', parent, id)) + rest) ==
            Got((PathText(parent) + "::" + ("{closure#" + Decimal(id.d) + "}"), OwnerOf(parent)), rest)
  {
    PathReadsAsParts(Nested('C', parent, id), rest);
    PathShown(parent);
    RowAppends(Parts(parent), "{closure#" + Decimal(id.d) + "}", "::");
  }

  /** A shim adds its name and its number. */
  lemma {:induction false} ShimReads(parent: Path, id: Ident, rest: string)
    requires CleanPath(Nested('S', parent, id), rest)
    ensures ReadPath(EncPath(Nested('S', parent, id)) + rest) ==
            Got((PathText(parent) + "::" + ("{shim:" + id.name + "#" + Decimal(id.d) + "}"),
                 OwnerOf(parent)), rest)
  {
    PathReadsAsParts(Nested('S', parent, id), rest);
    PathShown(parent);
    RowAppends(Parts(parent), "{shim:" + id.name + "#" + Decimal(id.d) + "}", "::");
  }

  /** Generic arguments follow their path in order. */
  lemma {:induction false} GenericReadsInOrder(base: Path, args: seq<Arg>, rest: string)
    requires CleanPath(Generic(base, args), rest)
    ensures ReadPath(EncPath(Generic(base, args)) + rest) ==
            Got((PathText(base) + "::" + ("<" + Row(ArgTexts(args), ", ") + ">"), OwnerOf(base)), rest)
  {
    PathReadsAsParts(Generic(base, args), rest);
    PathShown(base);
    RowAppends(Parts(base), "<" + Row(ArgTexts(args), ", ") + ">", "::");
  }

  /** A function type shows its last type as the result and the others in order. */
  lemma {:induction false} LastTypeIsResult(f: Type, ts: seq<Type>, result: Type, rest: string)
    requires f.Fn? && f.ts == ts + [result] && CleanType(f, rest)
    ensures ReadType(EncType(f) + rest) ==
            Got("fn(" + Row(TypeTexts(ts), ", ") + ") -> " + TypeText(result), rest)
  {
    TypeReadsAsText(f, rest);
    assert f.ts[..|ts|] == ts;
  }

  /** Each of the basic letters reads as the type listed for it. */
  lemma {:induction false} BasicLetterReads(c: char, rest: string)
    requires c in BASIC_TYPES
    ensures ReadType([c] + rest) == Got(BASIC_TYPES[c], rest)
  {
    BasicIsTable(c);
    TypeReadsAsText(Basic(c), rest);
  }

  // ----- a row of names over a crate root -----

  /** The path of the names one inside the other, the last one innermost. */
  function Inside(root: Ident, spaces: seq<char>, ids: seq<Ident>): Path
    requires |spaces| == |ids|
  {
    if ids == [] then Crate(root) else
    var last := |ids| - 1;
    Nested(spaces[last], Inside(root, spaces[..last], ids[..last]), ids[last])
  }

  lemma {:induction false} NamesAreParts(root: Ident, spaces: seq<char>, ids: seq<Ident>)
    requires |spaces| == |ids| && 'C' !in spaces && 'S' !in spaces
    requires root.name != "" && forall id <- ids :: id.name != ""
    ensures var p := Inside(root, spaces, ids);
            && PlainPath(p) && OwnerOf(p) == root.name && |Parts(p)| == 1 + |ids| && Parts(p)[0] == root.name
            && forall i :: 0 <= i < |ids| ==> Parts(p)[1 + i] == ids[i].name
  {
    if ids != [] {
      var last := |ids| - 1;
      NamesAreParts(root, spaces[..last], ids[..last]);
    }
  }

  /** Non-empty names over a crate root read from the outermost to the innermost, with "::" between
      neighbours, and belong to that crate. */
  lemma {:induction false} NamesReadInOrder(root: Ident, spaces: seq<char>, ids: seq<Ident>, rest: string)
    requires |spaces| == |ids| && 'C' !in spaces && 'S' !in spaces
    requires root.name != "" && forall id <- ids :: id.name != ""
    ensures var names := seq(|ids|, i requires 0 <= i < |ids| => ids[i].name);
            ReadPath(EncPath(Inside(root, spaces, ids)) + rest) ==
            Got((Row([root.name] + names, "::"), root.name), rest)
  {
    var p, names := Inside(root, spaces, ids), seq(|ids|, i requires 0 <= i < |ids| => ids[i].name);
    NamesAreParts(root, spaces, ids);
    assert Parts(p) == [root.name] + names;
    PlainPathIsClean(p, rest);
    PathReadsAsParts(p, rest);
  }
}
