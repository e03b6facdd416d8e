/** Names whose identifiers are all non-empty read back whatever follows them. */
module RustV0Plain {
  import opened Sequences
  import opened Options
  import opened Decimals
  import opened RustV0
  import opened RustV0Reader
  import opened RustV0RoundTrip

  // ----- non-empty identifiers, known basic letters, hexadecimal values -----

  predicate PlainPath(p: Path) {
    match p
    case Crate(id) => id.name != ""
    case Nested(_, parent, id) => PlainPath(parent) && id.name != ""
    case Inherent(_, impl, ty) => PlainPath(impl) && PlainType(ty)
    case TraitImpl(_, impl, ty, tr) => PlainPath(impl) && PlainType(ty) && PlainPath(tr)
    case TraitDef(ty, tr) => PlainType(ty) && PlainPath(tr)
    case Generic(base, args) => PlainPath(base) && forall a <- args :: PlainArg(a)
  }

  predicate PlainArg(a: Arg) {
    match a
    case Lifetime(_) => true
    case ConstArg(c) => PlainConst(c)
    case TypeArg(t) => PlainType(t)
  }

  predicate PlainConst(c: Const) {
    c.Value? ==> PlainType(c.ty) && c.ty != Basic('p') && HexNumber(c.hex, 0).Some?
  }

  predicate PlainType(t: Type) {
    match t
    case Basic(c) => BasicName(c).Some?
    case Array(t, n) => PlainType(t) && PlainConst(n)
    case Slice(t) => PlainType(t)
    case Tuple(ts) => forall t <- ts :: PlainType(t)
    case Ref(_, _, t) => PlainType(t)
    case Ptr(_, t) => PlainType(t)
    case Fn(_, _, abi, ts) => (abi.AbiName? ==> abi.id.name != "") && forall t <- ts :: PlainType(t)
    case Dyn(_, bounds, _) => forall b <- bounds :: PlainBound(b)
    case Named(p) => PlainPath(p)
  }

  predicate PlainBound(b: Bound) {
    PlainPath(b.path) && forall x <- b.assoc :: PlainAssoc(x)
  }

  predicate PlainAssoc(x: Assoc) {
    x.id.name != "" && PlainType(x.ty)
  }

  // ----- plain is clean -----

  lemma {:induction false} PlainPathIsClean(p: Path, rest: string)
    requires PlainPath(p)
    ensures CleanPath(p, rest)
    decreases p
  {
    match p
    case Crate(_) =>
    case Nested(_, parent, id) => PlainPathIsClean(parent, EncIdent(id) + rest);
    case Inherent(_, impl, ty) =>
      PlainPathIsClean(impl, EncType(ty) + rest);
      PlainTypeIsClean(ty, rest);
    case TraitImpl(_, impl, ty, tr) =>
      PlainPathIsClean(impl, EncType(ty) + (EncPath(tr) + rest));
      PlainTypeIsClean(ty, EncPath(tr) + rest);
      PlainPathIsClean(tr, rest);
    case TraitDef(ty, tr) =>
      PlainTypeIsClean(ty, EncPath(tr) + rest);
      PlainPathIsClean(tr, rest);
    case Generic(base, args) =>
      PlainPathIsClean(base, EncArgs(args) + ("E" + rest));
      PlainArgsAreClean(args, "E" + rest);
  }

  lemma {:induction false} PlainArgsAreClean(args: seq<Arg>, rest: string)
    requires forall a <- args :: PlainArg(a)
    ensures CleanArgs(args, rest)
    decreases args
  {
    if args != [] {
      PlainArgIsClean(args[0], EncArgs(args[1..]) + rest);
      PlainArgsAreClean(args[1..], rest);
    }
  }

  lemma {:induction false} PlainArgIsClean(a: Arg, rest: string)
    requires PlainArg(a)
    ensures CleanArg(a, rest)
    decreases a
  {
    match a
    case Lifetime(_) =>
    case ConstArg(c) => PlainConstIsClean(c, rest);
    case TypeArg(t) => PlainTypeIsClean(t, rest);
  }

  lemma {:induction false} PlainConstIsClean(c: Const, rest: string)
    requires PlainConst(c)
    ensures CleanConst(c, rest)
    decreases c
  {
    if c.Value? { PlainTypeIsClean(c.ty, (if c.neg then "n" else "") + (c.hex + ("_" + rest))); }
  }

  lemma {:induction false} PlainTypeIsClean(t: Type, rest: string)
    requires PlainType(t)
    ensures CleanType(t, rest)
    decreases t
  {
    match t
    case Basic(_) =>
    case Array(u, n) =>
      PlainTypeIsClean(u, EncConst(n) + rest);
      PlainConstIsClean(n, rest);
    case Slice(u) => PlainTypeIsClean(u, rest);
    case Tuple(ts) => PlainTypesAreClean(ts, "E" + rest);
    case Ref(_, _, u) => PlainTypeIsClean(u, rest);
    case Ptr(_, u) => PlainTypeIsClean(u, rest);
    case Fn(_, _, _, ts) => PlainTypesAreClean(ts, "E" + rest);
    case Dyn(_, bounds, region) => PlainBoundsAreClean(bounds, "E" + ("L" + (Base62(region) + rest)));
    case Named(p) => PlainPathIsClean(p, rest);
  }

  lemma {:induction false} PlainTypesAreClean(ts: seq<Type>, rest: string)
    requires forall t <- ts :: PlainType(t)
    ensures CleanTypes(ts, rest)
    decreases ts
  {
    if ts != [] {
      PlainTypeIsClean(ts[0], EncTypes(ts[1..]) + rest);
      PlainTypesAreClean(ts[1..], rest);
    }
  }

  lemma {:induction false} PlainBoundsAreClean(bs: seq<Bound>, rest: string)
    requires forall b <- bs :: PlainBound(b)
    ensures CleanBounds(bs, rest)
    decreases bs
  {
    if bs != [] {
      PlainBoundIsClean(bs[0], EncBounds(bs[1..]) + rest);
      PlainBoundsAreClean(bs[1..], rest);
    }
  }

  lemma {:induction false} PlainBoundIsClean(b: Bound, rest: string)
    requires PlainBound(b)
    ensures CleanBound(b, rest)
    decreases b
  {
    PlainPathIsClean(b.path, EncAssocs(b.assoc) + rest);
    PlainAssocsAreClean(b.assoc, rest);
  }

  lemma {:induction false} PlainAssocsAreClean(xs: seq<Assoc>, rest: string)
    requires forall x <- xs :: PlainAssoc(x)
    ensures CleanAssocs(xs, rest)
    decreases xs
  {
    if xs != [] {
      PlainAssocIsClean(xs[0], EncAssocs(xs[1..]) + rest);
      PlainAssocsAreClean(xs[1..], rest);
    }
  }

  lemma {:induction false} PlainAssocIsClean(x: Assoc, rest: string)
    requires PlainAssoc(x)
    ensures CleanAssoc(x, rest)
    decreases x
  {
    PlainTypeIsClean(x.ty, rest);
  }

  /** Every path with non-empty identifiers reads back to its readable form and owning crate, consuming
      exactly its encoding. */
  lemma {:induction false} PlainPathReads(p: Path, rest: string)
    requires PlainPath(p)
    ensures ReadPath(EncPath(p) + rest) == Got((ShowPath(p), OwnerOf(p)), rest)
  {
    PlainPathIsClean(p, rest);
    PathReads(p, rest);
  }

  /** So two plain paths with the same encoding read the same and have the same owner. */
  lemma {:induction false} EncodingDecidesName(p: Path, q: Path)
    requires PlainPath(p) && PlainPath(q) && EncPath(p) == EncPath(q)
    ensures ShowPath(p) == ShowPath(q) && OwnerOf(p) == OwnerOf(q)
  {
    PlainPathReads(p, "");
    PlainPathReads(q, "");
  }
}
