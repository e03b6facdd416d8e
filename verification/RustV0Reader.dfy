/** What the demangler does on any text, as functions of the text still ahead of its cursor. It may
    raise the error its caller expects (`Raised`). On some truncated texts it never comes back: the
    base-62 loop and the hex loop run on past the end (`Hung`). A type at the end of the text calls
    itself until the host language gives up, with an error the caller does not expect (`TooDeep`). And it
    may meet a back-reference, which this model does not follow. */
module RustV0Reader {
  import opened Options
  import opened Decimals
  import opened RustV0

  datatype Read<+T> = Got(val: T, rest: string) | Raised | Hung | TooDeep | BackReference {
    predicate IsFailure() { !Got? }
    function PropagateFailure<U>(): Read<U> requires !Got? {
      if Hung? then Hung else if TooDeep? then TooDeep else if BackReference? then BackReference else Raised
    }
    function Extract(): (T, string) requires Got? { (val, rest) }
  }

  predicate At(ts: string, c: char) {
    ts != [] && ts[0] == c
  }

  /** The text after an optional character. */
  function Past(ts: string, c: char): (r: string)
    ensures |r| <= |ts|
  {
    if At(ts, c) then ts[1..] else ts
  }

  // ----- numbers and identifiers -----

  function ReadBase62(ts: string): (r: Read<nat>)
    ensures r.Got? ==> |r.rest| < |ts|
  {
    if At(ts, '_') then Got(0, ts[1..]) else Digits(ts, 0)
  }

  /** Base-62 digits up to the closing underscore, which stands for one more. */
  function Digits(ts: string, n: nat): (r: Read<nat>)
    ensures r.Got? ==> |r.rest| < |ts|
  {
    if ts == [] then Hung
    else if ts[0] == '_' then Got(n + 1, ts[1..])
    else match Value62(ts[0])
      case None => Raised
      case Some(d) => Digits(ts[1..], n * 62 + d)
  }

  function ReadDecimal(ts: string): (r: Read<nat>)
    ensures r.Got? ==> |r.rest| < |ts|
  {
    if ts == [] || !IsDigit(ts[0]) then Raised else DecimalDigits(ts, 0)
  }

  function DecimalDigits(ts: string, n: nat): (r: Read<nat>)
    ensures r.Got? && |r.rest| <= |ts|
    ensures ts != [] && IsDigit(ts[0]) ==> |r.rest| < |ts|
  {
    if ts == [] || !IsDigit(ts[0]) then Got(n, ts)
    else DecimalDigits(ts[1..], n * 10 + (ts[0] - '0') as nat)
  }

  function ReadDisambiguator(ts: string): (r: Read<nat>)
    ensures r.Got? ==> |r.rest| <= |ts|
  {
    if !At(ts, 's') then Got(0, ts) else
    var (n, ts1) :- ReadBase62(ts[1..]);
    Got(n + 1, ts1)
  }

  /** Name and disambiguator. */
  function ReadIdent(ts: string): (r: Read<(string, nat)>)
    ensures r.Got? ==> |r.rest| < |ts|
  {
    var (d, ts1) :- ReadDisambiguator(ts);
    var (name, ts2) :- ReadName(ts1);
    Got((name, d), ts2)
  }

  /** The Punycode mark, the length, the separator and the name. */
  function ReadName(ts: string): (r: Read<string>)
    ensures r.Got? ==> |r.rest| < |ts|
  {
    var (n, ts1) :- ReadDecimal(Past(ts, 'u'));
    ReadChars(Past(ts1, '_'), n)
  }

  function ReadChars(ts: string, n: nat): (r: Read<string>)
    ensures r.Got? ==> |r.rest| <= |ts|
  {
    if |ts| < n then Raised else Got(ts[..n], ts[n..])
  }

  function ReadLife(ts: string, letter: char): (r: Read<()>)
    ensures r.Got? ==> |r.rest| <= |ts|
  {
    if !At(ts, letter) then Got((), ts) else
    var (_, ts1) :- ReadBase62(ts[1..]);
    Got((), ts1)
  }

  // ----- paths -----

  /** Readable form and owning crate. */
  function ReadPath(ts: string): (r: Read<(string, string)>)
    ensures r.Got? ==> |r.rest| < |ts|
    decreases |ts|, 0
  {
    if ts == [] then Raised else
    var c, ts0 := ts[0], ts[1..];
    if c == 'C' then
      var (id, ts1) :- ReadIdent(ts0);
      Got((id.0, id.0), ts1)
    else if c == 'N' then ReadNested(ts0)
    else if c == 'M' then ReadInherent(ts0)
    else if c == 'X' then ReadTraitImpl(ts0)
    else if c == 'Y' then ReadTraitDef(ts0)
    else if c == 'I' then ReadGeneric(ts0)
    else if c == 'B' then BackReference
    else Raised
  }

  function ReadNested(ts: string): (r: Read<(string, string)>)
    ensures r.Got? ==> |r.rest| < |ts|
    decreases |ts|, 5
  {
    if ts == [] then Raised else
    var (parent, ts1) :- ReadPath(ts[1..]);
    var (id, ts2) :- ReadIdent(ts1);
    Got((Under(parent.0, Segment(ts[0], Ident(id.1, false, id.0))), parent.1), ts2)
  }

  function ReadInherent(ts: string): (r: Read<(string, string)>)
    ensures r.Got? ==> |r.rest| < |ts|
    decreases |ts|, 5
  {
    var (_, ts1) :- ReadDisambiguator(ts);
    var (impl, ts2) :- ReadPath(ts1);
    var (ty, ts3) :- ReadType(ts2);
    Got(("<" + ty + ">", impl.1), ts3)
  }

  function ReadTraitImpl(ts: string): (r: Read<(string, string)>)
    ensures r.Got? ==> |r.rest| < |ts|
    decreases |ts|, 5
  {
    var (_, ts1) :- ReadDisambiguator(ts);
    var (impl, ts2) :- ReadPath(ts1);
    var (ty, ts3) :- ReadType(ts2);
    var (tr, ts4) :- ReadPath(ts3);
    Got(("<" + ty + " as " + tr.0 + ">", impl.1), ts4)
  }

  function ReadTraitDef(ts: string): (r: Read<(string, string)>)
    ensures r.Got? ==> |r.rest| < |ts|
    decreases |ts|, 5
  {
    var (ty, ts1) :- ReadType(ts);
    var (tr, ts2) :- ReadPath(ts1);
    Got(("<" + ty + " as " + tr.0 + ">", tr.1), ts2)
  }

  function ReadGeneric(ts: string): (r: Read<(string, string)>)
    ensures r.Got? ==> |r.rest| < |ts|
    decreases |ts|, 5
  {
    var (base, ts1) :- ReadPath(ts);
    var (args, ts2) :- ReadArgs(ts1);
    Got((base.0 + "::<" + Join(args, ", ") + ">", base.1), ts2)
  }

  /** Generic arguments up to the closing `E`. */
  function ReadArgs(ts: string): (r: Read<seq<string>>)
    ensures r.Got? ==> |r.rest| < |ts|
    decreases |ts|, 4
  {
    if At(ts, 'E') then Got([], ts[1..]) else
    var (a, ts1) :- ReadArg(ts);
    var (more, ts2) :- ReadArgs(ts1);
    Got([a] + more, ts2)
  }

  function ReadArg(ts: string): (r: Read<string>)
    ensures r.Got? ==> |r.rest| < |ts|
    decreases |ts|, 3
  {
    if At(ts, 'L') then
      var (_, ts1) :- ReadBase62(ts[1..]);
      Got("'_", ts1)
    else if At(ts, 'K') then ReadConst(ts[1..])
    else ReadType(ts)
  }

  function ReadConst(ts: string): (r: Read<string>)
    ensures r.Got? ==> |r.rest| < |ts|
    decreases |ts|, 3
  {
    if At(ts, 'p') then Got("_", ts[1..])
    else if At(ts, 'B') then BackReference
    else
      var (_, ts1) :- ReadType(ts);
      var (hex, ts2) :- ReadHex(Past(ts1, 'n'));
      if hex != "" && HexNumber(hex, 0).None? then Raised
      else Got((if At(ts1, 'n') then "-" else "") + ShowHex(hex), ts2)
  }

  /** The text up to the next underscore, which is skipped. */
  function ReadHex(ts: string): (r: Read<string>)
    ensures r.Got? ==> |r.rest| < |ts|
  {
    if ts == [] then Hung
    else if ts[0] == '_' then Got("", ts[1..])
    else
      var (more, ts1) :- ReadHex(ts[1..]);
      Got([ts[0]] + more, ts1)
  }

  // ----- types -----

  /** The letters that open a type made of others. */
  predicate TypeSign(c: char) {
    c == 'A' || c == 'S' || c == 'T' || c == 'R' || c == 'Q' || c == 'P' || c == 'O' || c == 'F' || c == 'D'
  }

  lemma SignIsNotBasic(c: char)
    requires TypeSign(c)
    ensures BasicName(c).None? && c != 'B'
  {
  }

  function ReadType(ts: string): (r: Read<string>)
    ensures r.Got? ==> |r.rest| < |ts|
    decreases |ts|, 2
  {
    if ts == [] then TooDeep else
    var c, ts0 := ts[0], ts[1..];
    if BasicName(c).Some? then Got(BasicName(c).value, ts0)
    else if c == 'B' then BackReference
    else if c == 'A' then ReadArray(ts0)
    else if c == 'S' then
      var (t, ts1) :- ReadType(ts0);
      Got("[" + t + "]", ts1)
    else if c == 'T' then
      var (xs, ts1) :- ReadTypes(ts0);
      Got("(" + Join(xs, ", ") + ")", ts1)
    else if c == 'R' || c == 'Q' then
      var (_, ts1) :- ReadLife(ts0, 'L');
      var (t, ts2) :- ReadType(ts1);
      Got((if c == 'R' then "&" else "&mut ") + t, ts2)
    else if c == 'P' || c == 'O' then
      var (t, ts1) :- ReadType(ts0);
      Got((if c == 'P' then "*const " else "*mut ") + t, ts1)
    else if c == 'F' then ReadFn(ts0)
    else if c == 'D' then ReadDyn(ts0)
    else ReadNamed(ts)
  }

  function ReadArray(ts: string): (r: Read<string>)
    ensures r.Got? ==> |r.rest| < |ts|
    decreases |ts|, 5
  {
    var (t, ts1) :- ReadType(ts);
    var (n, ts2) :- ReadConst(ts1);
    Got("[" + t + "; " + n + "]", ts2)
  }

  function ReadNamed(ts: string): (r: Read<string>)
    ensures r.Got? ==> |r.rest| < |ts|
    decreases |ts|, 1
  {
    var (p, ts1) :- ReadPath(ts);
    Got(p.0, ts1)
  }

  function ReadAbi(ts: string): (r: Read<()>)
    ensures r.Got? ==> |r.rest| <= |ts|
  {
    if !At(ts, 'K') then Got((), ts)
    else if At(ts[1..], 'C') then Got((), ts[2..])
    else
      var (_, ts1) :- ReadIdent(ts[1..]);
      Got((), ts1)
  }

  function ReadFn(ts: string): (r: Read<string>)
    ensures r.Got? ==> |r.rest| < |ts|
    decreases |ts|, 5
  {
    var (_, ts1) :- ReadLife(ts, 'G');
    var (_, ts2) :- ReadAbi(Past(ts1, 'U'));
    var (xs, ts3) :- ReadTypes(ts2);
    Got(ShowFn(xs), ts3)
  }

  function ReadDyn(ts: string): (r: Read<string>)
    ensures r.Got? ==> |r.rest| < |ts|
    decreases |ts|, 5
  {
    var (_, ts1) :- ReadLife(ts, 'G');
    var (xs, ts2) :- ReadBounds(ts1);
    if !At(ts2, 'L') then Raised else
    var (_, ts3) :- ReadBase62(ts2[1..]);
    Got("dyn " + Join(xs, " + "), ts3)
  }

  /** Types up to the closing `E`. */
  function ReadTypes(ts: string): (r: Read<seq<string>>)
    ensures r.Got? ==> |r.rest| < |ts|
    decreases |ts|, 3
  {
    if At(ts, 'E') then Got([], ts[1..]) else
    var (x, ts1) :- ReadType(ts);
    var (more, ts2) :- ReadTypes(ts1);
    Got([x] + more, ts2)
  }

  /** Trait bounds up to the closing `E`. */
  function ReadBounds(ts: string): (r: Read<seq<string>>)
    ensures r.Got? ==> |r.rest| < |ts|
    decreases |ts|, 3
  {
    if At(ts, 'E') then Got([], ts[1..]) else
    var (p, ts1) :- ReadBound(ts);
    var (more, ts2) :- ReadBounds(ts1);
    Got([p] + more, ts2)
  }

  function ReadBound(ts: string): (r: Read<string>)
    ensures r.Got? ==> |r.rest| < |ts|
    decreases |ts|, 1
  {
    var (p, ts1) :- ReadPath(ts);
    var (_, ts2) :- ReadAssocs(ts1);
    Got(p.0, ts2)
  }

  /** Associated-type bindings, each after a `p`. */
  function ReadAssocs(ts: string): (r: Read<()>)
    ensures r.Got? ==> |r.rest| <= |ts|
    decreases |ts|, 3
  {
    if !At(ts, 'p') then Got((), ts) else ReadMoreAssocs(ts[1..])
  }

  function ReadMoreAssocs(ts: string): (r: Read<()>)
    ensures r.Got? ==> |r.rest| <= |ts|
    decreases |ts|, 4
  {
    var (_, ts1) :- ReadAssoc(ts);
    ReadAssocs(ts1)
  }

  function ReadAssoc(ts: string): (r: Read<()>)
    ensures r.Got? ==> |r.rest| < |ts|
    decreases |ts|, 3
  {
    var (_, ts1) :- ReadIdent(ts);
    var (_, ts2) :- ReadType(ts1);
    Got((), ts2)
  }
}
