/** Rust v0 symbol names ("Syntax of mangled names" in Rust RFC 2603): the names, how they are encoded,
    and the readable form the ledger shows. Back-references are not part of this grammar. */
module RustV0 {
  import opened Options
  import opened Decimals

  /** `d` is the disambiguator; `puny` marks a Punycode identifier. */
  datatype Ident = Ident(d: nat, puny: bool, name: string)

  datatype Path =
    | Crate(id: Ident)
    | Nested(ns: char, parent: Path, id: Ident)
    | Inherent(d: nat, impl: Path, ty: Type)
    | TraitImpl(d: nat, impl: Path, ty: Type, tr: Path)
    | TraitDef(ty: Type, tr: Path)
    | Generic(base: Path, args: seq<Arg>)

  datatype Arg = Lifetime(n: nat) | ConstArg(c: Const) | TypeArg(t: Type)

  datatype Const = Placeholder | Value(ty: Type, neg: bool, hex: string)

  datatype Abi = NoAbi | AbiC | AbiName(id: Ident)

  datatype Bound = Bound(path: Path, assoc: seq<Assoc>)

  datatype Assoc = Assoc(id: Ident, ty: Type)

  datatype Type =
    | Basic(c: char)
    | Array(t: Type, n: Const)
    | Slice(t: Type)
    | Tuple(ts: seq<Type>)
    | Ref(mutable: bool, life: Option<nat>, t: Type)
    | Ptr(mutable: bool, t: Type)
    | Fn(binder: Option<nat>, unsafety: bool, abi: Abi, ts: seq<Type>)
    | Dyn(binder: Option<nat>, bounds: seq<Bound>, region: nat)
    | Named(p: Path)

  // ----- characters -----

  function BasicName(c: char): Option<string> {
    match c
    case 'a' => Some("i8") case 'b' => Some("bool") case 'c' => Some("char") case 'd' => Some("f64")
    case 'e' => Some("str") case 'f' => Some("f32") case 'h' => Some("u8") case 'i' => Some("isize")
    case 'j' => Some("usize") case 'l' => Some("i32") case 'm' => Some("u32") case 'n' => Some("i128")
    case 'o' => Some("u128") case 'p' => Some("_") case 's' => Some("i16") case 't' => Some("u16")
    case 'u' => Some("()") case 'v' => Some("...") case 'x' => Some("i64") case 'y' => Some("u64")
    case 'z' => Some("!") case _ => None
  }

  function Digit62(d: nat): char
    requires d < 62
  {
    if d < 10 then '0' + d as char
    else if d < 36 then 'a' + (d - 10) as char
    else 'A' + (d - 36) as char
  }

  /** The index of a character in the base-62 alphabet. */
  function Value62(c: char): Option<nat> {
    if '0' <= c <= '9' then Some((c - '0') as nat)
    else if 'a' <= c <= 'z' then Some(10 + (c - 'a') as nat)
    else if 'A' <= c <= 'Z' then Some(36 + (c - 'A') as nat)
    else None
  }

  function HexValue(c: char): Option<nat> {
    if '0' <= c <= '9' then Some((c - '0') as nat)
    else if 'a' <= c <= 'f' then Some(10 + (c - 'a') as nat)
    else if 'A' <= c <= 'F' then Some(10 + (c - 'A') as nat)
    else None
  }

  // ----- numbers -----

  function Digits62(n: nat): string {
    if n < 62 then [Digit62(n)] else Digits62(n / 62) + [Digit62(n % 62)]
  }

  function Base62(n: nat): string {
    if n == 0 then "_" else Digits62(n - 1) + "_"
  }

  function HexNumber(hex: string, acc: nat): Option<nat> {
    if hex == [] then Some(acc)
    else match HexValue(hex[0])
      case None => None
      case Some(d) => HexNumber(hex[1..], acc * 16 + d)
  }

  // ----- encoding -----

  function EncDisambiguator(d: nat): string {
    if d == 0 then "" else "s" + Base62(d - 1)
  }

  /** The separator that keeps a name starting with a digit or underscore apart from its length. */
  function Separator(name: string): string {
    if name != "" && (IsDigit(name[0]) || name[0] == '_') then "_" else ""
  }

  function EncIdent(id: Ident): string {
    EncDisambiguator(id.d) + ((if id.puny then "u" else "") + (Decimal(|id.name|) + (Separator(id.name) + id.name)))
  }

  function EncPath(p: Path): string {
    match p
    case Crate(id) => "C" + EncIdent(id)
    case Nested(ns, parent, id) => "N" + ([ns] + (EncPath(parent) + EncIdent(id)))
    case Inherent(d, impl, ty) => "M" + (EncDisambiguator(d) + (EncPath(impl) + EncType(ty)))
    case TraitImpl(d, impl, ty, tr) =>
      "X" + (EncDisambiguator(d) + (EncPath(impl) + (EncType(ty) + EncPath(tr))))
    case TraitDef(ty, tr) => "Y" + (EncType(ty) + EncPath(tr))
    case Generic(base, args) => "I" + (EncPath(base) + (EncArgs(args) + "E"))
  }

  function EncArgs(args: seq<Arg>): string {
    if args == [] then "" else EncArg(args[0]) + EncArgs(args[1..])
  }

  function EncArg(a: Arg): string {
    match a
    case Lifetime(n) => "L" + Base62(n)
    case ConstArg(c) => "K" + EncConst(c)
    case TypeArg(t) => EncType(t)
  }

  function EncConst(c: Const): string {
    match c
    case Placeholder => "p"
    case Value(ty, neg, hex) => EncType(ty) + ((if neg then "n" else "") + (hex + "_"))
  }

  function EncLife(letter: string, life: Option<nat>): string {
    match life
    case None => ""
    case Some(n) => letter + Base62(n)
  }

  function EncAbi(abi: Abi): string {
    match abi
    case NoAbi => ""
    case AbiC => "KC"
    case AbiName(id) => "K" + EncIdent(id)
  }

  function EncType(t: Type): string {
    match t
    case Basic(c) => [c]
    case Array(t, n) => "A" + (EncType(t) + EncConst(n))
    case Slice(t) => "S" + EncType(t)
    case Tuple(ts) => "T" + (EncTypes(ts) + "E")
    case Ref(mutable, life, t) => (if mutable then "Q" else "R") + (EncLife("L", life) + EncType(t))
    case Ptr(mutable, t) => (if mutable then "O" else "P") + EncType(t)
    case Fn(binder, unsafety, abi, ts) =>
      "F" + (EncLife("G", binder) + ((if unsafety then "U" else "") + (EncAbi(abi) + (EncTypes(ts) + "E"))))
    case Dyn(binder, bounds, region) =>
      "D" + (EncLife("G", binder) + (EncBounds(bounds) + ("E" + ("L" + Base62(region)))))
    case Named(p) => EncPath(p)
  }

  function EncTypes(ts: seq<Type>): string {
    if ts == [] then "" else EncType(ts[0]) + EncTypes(ts[1..])
  }

  function EncBounds(bs: seq<Bound>): string {
    if bs == [] then "" else EncBound(bs[0]) + EncBounds(bs[1..])
  }

  function EncBound(b: Bound): string {
    EncPath(b.path) + EncAssocs(b.assoc)
  }

  function EncAssocs(xs: seq<Assoc>): string {
    if xs == [] then "" else EncAssoc(xs[0]) + EncAssocs(xs[1..])
  }

  function EncAssoc(x: Assoc): string {
    "p" + (EncIdent(x.id) + EncType(x.ty))
  }

  // ----- the readable form and the owning crate -----

  function Join(parts: seq<string>, sep: string): string {
    if parts == [] then ""
    else if |parts| == 1 then parts[0]
    else parts[0] + sep + Join(parts[1..], sep)
  }

  /** A closure and a shim are named by kind and number. */
  function Segment(ns: char, id: Ident): string {
    if ns == 'C' then "{closure#" + Decimal(id.d) + "}"
    else if ns == 'S' then "{shim:" + id.name + "#" + Decimal(id.d) + "}"
    else id.name
  }

  function Under(parent: string, segment: string): string {
    if segment == "" then parent else parent + "::" + segment
  }

  function ShowPath(p: Path): string {
    match p
    case Crate(id) => id.name
    case Nested(ns, parent, id) => Under(ShowPath(parent), Segment(ns, id))
    case Inherent(_, _, ty) => "<" + ShowType(ty) + ">"
    case TraitImpl(_, _, ty, tr) => "<" + ShowType(ty) + " as " + ShowPath(tr) + ">"
    case TraitDef(ty, tr) => "<" + ShowType(ty) + " as " + ShowPath(tr) + ">"
    case Generic(base, args) => ShowPath(base) + "::<" + Join(ShowArgs(args), ", ") + ">"
  }

  /** The crate an impl block sits in owns it; a trait definition's names belong to the trait's crate. */
  function OwnerOf(p: Path): string {
    match p
    case Crate(id) => id.name
    case Nested(_, parent, _) => OwnerOf(parent)
    case Inherent(_, impl, _) => OwnerOf(impl)
    case TraitImpl(_, impl, _, _) => OwnerOf(impl)
    case TraitDef(_, tr) => OwnerOf(tr)
    case Generic(base, _) => OwnerOf(base)
  }

  function ShowArgs(args: seq<Arg>): seq<string> {
    if args == [] then [] else [ShowArg(args[0])] + ShowArgs(args[1..])
  }

  function ShowArg(a: Arg): string {
    match a
    case Lifetime(_) => "'_"
    case ConstArg(c) => ShowConst(c)
    case TypeArg(t) => ShowType(t)
  }

  function ShowHex(hex: string): string {
    if hex == "" then "0" else
    match HexNumber(hex, 0)
    case None => ""
    case Some(n) => Decimal(n)
  }

  function ShowConst(c: Const): string {
    match c
    case Placeholder => "_"
    case Value(_, neg, hex) => (if neg then "-" else "") + ShowHex(hex)
  }

  /** The last type of a function type is its result. */
  function ShowFn(ts: seq<string>): string {
    if ts == [] then "fn() -> ()"
    else "fn(" + Join(ts[..|ts| - 1], ", ") + ") -> " + ts[|ts| - 1]
  }

  function ShowType(t: Type): string {
    match t
    case Basic(c) => (match BasicName(c) case None => "" case Some(s) => s)
    case Array(t, n) => "[" + ShowType(t) + "; " + ShowConst(n) + "]"
    case Slice(t) => "[" + ShowType(t) + "]"
    case Tuple(ts) => "(" + Join(ShowTypes(ts), ", ") + ")"
    case Ref(mutable, _, t) => (if mutable then "&mut " else "&") + ShowType(t)
    case Ptr(mutable, t) => (if mutable then "*mut " else "*const ") + ShowType(t)
    case Fn(_, _, _, ts) => ShowFn(ShowTypes(ts))
    case Dyn(_, bounds, _) => "dyn " + Join(ShowBounds(bounds), " + ")
    case Named(p) => ShowPath(p)
  }

  function ShowTypes(ts: seq<Type>): seq<string> {
    if ts == [] then [] else [ShowType(ts[0])] + ShowTypes(ts[1..])
  }

  function ShowBounds(bs: seq<Bound>): seq<string> {
    if bs == [] then [] else [ShowBound(bs[0])] + ShowBounds(bs[1..])
  }

  function ShowBound(b: Bound): string {
    ShowPath(b.path)
  }
}
