/** Empty identifiers (closures have them) in chains of nested names. The reader takes an empty
    identifier's length together with the digits after it, so it can swallow identifiers that follow.
    On names nested to any depth, over a crate root or any other path with non-empty identifiers, the
    path then never reads back: it reads back if and only if it is clean. */
module RustV0Names {
  import opened Sequences
  import opened Options
  import opened Decimals
  import opened RustV0
  import opened RustV0Reader
  import opened RustV0RoundTrip
  import opened RustV0Plain

  // ----- identifiers in a row -----

  function EncIdents(ids: seq<Ident>): string {
    if ids == [] then "" else EncIdent(ids[0]) + EncIdents(ids[1..])
  }

  /** The text from the first of the identifiers on. */
  function From(ids: seq<Ident>, rest: string): string {
    EncIdents(ids) + rest
  }

  /** `ts` is what is left after `m` of the identifiers, or, for `m` one too large, after some of `rest`
      as well. */
  ghost predicate Stands(ids: seq<Ident>, rest: string, ts: string, m: nat) {
    && m <= |ids| + 1
    && if m <= |ids| then ts == From(ids[m..], rest) else |ts| < |rest|
  }

  /** A reading that leaves the reader after `m` of the identifiers; with nothing after those it comes
      back, with a result or an error. */
  ghost predicate Ends<T>(ids: seq<Ident>, rest: string, r: Read<T>, m: nat) {
    && (r.Got? ==> Stands(ids, rest, r.rest, m))
    && (rest == "" ==> r.Got? || r == Raised)
  }

  /** `r` ends as `i` does. */
  ghost predicate EndAlike<T, U>(i: Read<T>, r: Read<U>) {
    (r.Got? <==> i.Got?) && (i.Got? ==> r.rest == i.rest) && (i == Raised ==> r == Raised)
  }

  lemma {:induction false} FromStep(ids: seq<Ident>, rest: string)
    requires ids != []
    ensures From(ids, rest) == EncIdent(ids[0]) + From(ids[1..], rest)
  {
    Shift(EncIdent(ids[0]), EncIdents(ids[1..]), rest);
  }

  lemma {:induction false} FromNone(rest: string)
    ensures From([], rest) == rest
  {
  }

  predicate Marked(id: Ident) {
    id.d != 0 || id.puny
  }

  /** A disambiguator or a Punycode mark keeps an identifier's length apart from what is before it. */
  lemma {:induction false} MarkedStarts(id: Ident, rest: string)
    requires Marked(id)
    ensures var s := EncIdent(id) + rest; s != "" && (s[0] == 's' || s[0] == 'u')
  {
    if id.d == 0 {
      var tail := Decimal(|id.name|) + (Separator(id.name) + id.name);
      assert EncDisambiguator(0) + ("u" + tail) == "u" + tail;
    }
  }

  lemma {:induction false} UnmarkedIsBody(id: Ident, rest: string)
    requires !Marked(id)
    ensures EncIdent(id) + rest == Body(id.name, rest)
    ensures Body(id.name, rest) != "" && IsDigit(Body(id.name, rest)[0])
  {
    var tail := Decimal(|id.name|) + (Separator(id.name) + id.name);
    assert EncIdent(id) == tail by { assert "" + ("" + tail) == tail; }
    ShiftTwo(Decimal(|id.name|), Separator(id.name), id.name, rest);
    DecimalReads(|id.name|, Separator(id.name) + (id.name + rest));
  }

  /** An identifier is followed by something that runs on exactly when the next one is unmarked. */
  predicate RunsOn(ts: string) {
    ts != "" && (IsDigit(ts[0]) || ts[0] == '_')
  }

  lemma {:induction false} RunsOnIffUnmarked(id: Ident, rest: string)
    ensures RunsOn(EncIdent(id) + rest) <==> !Marked(id)
  {
    if Marked(id) { MarkedStarts(id, rest); } else { UnmarkedIsBody(id, rest); }
  }

  // ----- what an empty identifier swallows -----

  /** The name the reader takes once it has read the 0 of an empty identifier. */
  function AfterZero(ts: string): Read<string> {
    var n := DecimalDigits(ts, 0);
    ReadChars(Past(n.rest, '_'), n.val)
  }

  lemma {:induction false} ZeroRunsOn(ts: string)
    ensures DecimalDigits("0" + ts, 0) == DecimalDigits(ts, 0) && AfterZero("0" + ts) == AfterZero(ts)
  {
    TailOf('0', ts);
  }

  lemma {:induction false} EmptyBody(rest: string)
    ensures Body("", rest) == "0" + rest
  {
    assert "" + ("" + rest) == rest;
  }

  /** Identifiers without a mark are swallowed up to the first with a name, or to a marked one, or on
      into the text that follows. */
  lemma {:induction false} Swallows(ids: seq<Ident>, rest: string) returns (m: nat)
    ensures Ends(ids, rest, AfterZero(From(ids, rest)), m)
    ensures RunsOn(From(ids, rest)) ==> m >= 1
    decreases |ids|
  {
    if !RunsOn(From(ids, rest)) {
      NothingTaken(From(ids, rest));
      m := 0;
      assert ids[0..] == ids;
    } else if ids == [] {
      FromNone(rest);
      RestIsEntered(rest);
      m := 1;
    } else if ids[0].name == "" {
      EmptyIsPassed(ids, rest);
      var k := Swallows(ids[1..], rest);
      BeforeOne(ids, rest, AfterZero(From(ids[1..], rest)), k);
      m := k + 1;
    } else {
      FromStep(ids, rest);
      RunsOnIffUnmarked(ids[0], From(ids[1..], rest));
      UnmarkedIsBody(ids[0], From(ids[1..], rest));
      NameIsTaken(ids[0].name, From(ids[1..], rest));
      m := 1;
    }
  }

  lemma {:induction false} NothingTaken(ts: string)
    requires !RunsOn(ts)
    ensures AfterZero(ts) == Got("", ts)
  {
  }

  lemma {:induction false} RestIsEntered(rest: string)
    requires RunsOn(rest)
    ensures AfterZero(rest).Got? ==> |AfterZero(rest).rest| < |rest|
  {
  }

  lemma {:induction false} EmptyIsPassed(ids: seq<Ident>, rest: string)
    requires ids != [] && ids[0].name == "" && RunsOn(From(ids, rest))
    ensures AfterZero(From(ids, rest)) == AfterZero(From(ids[1..], rest))
  {
    var ts := From(ids[1..], rest);
    FromStep(ids, rest);
    RunsOnIffUnmarked(ids[0], ts);
    UnmarkedIsBody(ids[0], ts);
    EmptyBody(ts);
    ZeroRunsOn(ts);
  }

  /** Passing `k` after the first passes one more in all. */
  lemma {:induction false} BeforeOne<T>(ids: seq<Ident>, rest: string, r: Read<T>, k: nat)
    requires ids != [] && Ends(ids[1..], rest, r, k)
    ensures Ends(ids, rest, r, k + 1)
  {
    assert k <= |ids[1..]| ==> ids[1..][k..] == ids[k + 1..];
  }

  lemma {:induction false} NameIsTaken(name: string, rest: string)
    requires name != ""
    ensures AfterZero(Body(name, rest)) == Got(name, rest)
  {
    NameReads(name, rest);
    DecimalReads(|name|, Separator(name) + (name + rest));
    assert (name + rest)[..|name|] == name && (name + rest)[|name|..] == rest;
  }

  // ----- one identifier -----

  lemma {:induction false} EmptyIdentReads(id: Ident, ts: string)
    requires id.name == "" && RunsOn(ts)
    ensures EndAlike(AfterZero(ts), ReadIdent(EncIdent(id) + ts))
  {
    IdentPrefixReads(id, ts);
    EmptyNameRunsOn(ts);
  }

  /** Reading one identifier off a row leaves the reader at the start of a later one, or inside the text
      that follows; it passes more than one exactly when it misreads. */
  lemma {:induction false} OneIdent(ids: seq<Ident>, rest: string) returns (m: nat)
    requires ids != []
    ensures m >= 1 && (m == 1 <==> CleanIdent(ids[0], From(ids[1..], rest)))
    ensures Ends(ids, rest, ReadIdent(From(ids, rest)), m)
  {
    FromStep(ids, rest);
    if CleanIdent(ids[0], From(ids[1..], rest)) {
      IdentReads(ids[0], From(ids[1..], rest));
      m := 1;
    } else {
      EmptyIdentReads(ids[0], From(ids[1..], rest));
      m := OneMisread(ids, rest, ReadIdent(EncIdent(ids[0]) + From(ids[1..], rest)));
    }
  }

  lemma {:induction false} OneMisread<T>(ids: seq<Ident>, rest: string, r: Read<T>) returns (m: nat)
    requires ids != [] && RunsOn(From(ids[1..], rest)) && EndAlike(AfterZero(From(ids[1..], rest)), r)
    ensures m >= 2 && Ends(ids, rest, r, m)
  {
    var k := Swallows(ids[1..], rest);
    BeforeOne(ids, rest, r, k);
    m := k + 1;
  }

  // ----- nested names -----

  /** Names nested to any depth over a crate root or over a path with non-empty identifiers. The
      identifiers of the crate root and of the names are any. */
  predicate Names(p: Path) {
    match p
    case Crate(_) => true
    case Nested(_, parent, _) => Names(parent)
    case _ => PlainPath(p)
  }

  lemma {:induction false} PlainIsNames(p: Path)
    requires PlainPath(p)
    ensures Names(p)
  {
    if p.Nested? { PlainIsNames(p.parent); }
  }

  /** Passing `k` of `[id] + more` passes one less of `more`. */
  lemma {:induction false} AfterOne<T>(id: Ident, more: seq<Ident>, rest: string, r: Read<T>, k: nat)
    requires k >= 1 && Ends([id] + more, rest, r, k)
    ensures Ends(more, rest, r, k - 1)
  {
    assert k <= |more| + 1 ==> ([id] + more)[k..] == more[k - 1..];
  }

  /** Where the reader stands after names that are followed by more identifiers: past some of those exactly
      if the names are not clean. */
  lemma {:induction false} NamesEnd(p: Path, more: seq<Ident>, rest: string) returns (m: nat)
    requires Names(p)
    ensures Ends(more, rest, ReadPath(EncPath(p) + From(more, rest)), m)
    ensures m == 0 <==> CleanPath(p, From(more, rest))
    decreases p, 1
  {
    m := 0;
    var ts := EncPath(p) + From(more, rest);
    if CleanPath(p, From(more, rest)) {
      PathReads(p, From(more, rest));
      CleanEnd(more, rest, ReadPath(ts));
    } else {
      match p
      case Crate(id) =>
        CrateText(id, more, rest);
        var k := CrateRow([id] + more, rest, ts);
        MisreadOne(id, more, rest, ReadPath(ts), k);
        m := k - 1;
      case Nested(_, _, _) => m := NestedEnd(p, more, rest);
      case _ =>
        PlainPathIsClean(p, From(more, rest));
        assert false;
    }
  }

  lemma {:induction false} MisreadOne<T>(id: Ident, more: seq<Ident>, rest: string, r: Read<T>, k: nat)
    requires k >= 1 && Ends([id] + more, rest, r, k) && !CleanIdent(id, From(more, rest))
    requires k == 1 <==> CleanIdent(([id] + more)[0], From(([id] + more)[1..], rest))
    ensures k >= 2 && Ends(more, rest, r, k - 1)
  {
    assert ([id] + more)[1..] == more;
    AfterOne(id, more, rest, r, k);
  }

  lemma {:induction false} CleanEnd<T>(more: seq<Ident>, rest: string, r: Read<T>)
    requires r.Got? && r.rest == From(more, rest)
    ensures Ends(more, rest, r, 0)
  {
    assert more[0..] == more;
  }

  /** A crate root over a row of identifiers is read as the first of them. */
  lemma {:induction false} CrateRow(ids: seq<Ident>, rest: string, ts: string) returns (k: nat)
    requires ids != [] && ts == "C" + From(ids, rest)
    ensures k >= 1 && (k == 1 <==> CleanIdent(ids[0], From(ids[1..], rest)))
    ensures Ends(ids, rest, ReadPath(ts), k)
  {
    k := OneIdent(ids, rest);
    CrateBody(From(ids, rest));
    EndsAlike(ids, rest, ReadIdent(From(ids, rest)), ReadPath(ts), k);
  }

  lemma {:induction false} EndsAlike<T, U>(ids: seq<Ident>, rest: string, i: Read<T>, r: Read<U>, k: nat)
    requires Ends(ids, rest, i, k) && EndAlike(i, r)
    ensures Ends(ids, rest, r, k)
  {
  }

  lemma {:induction false} CrateText(id: Ident, more: seq<Ident>, rest: string)
    ensures EncPath(Crate(id)) + From(more, rest) == "C" + From([id] + more, rest)
  {
    assert ([id] + more)[1..] == more;
    FromStep([id] + more, rest);
    Shift("C", EncIdent(id), From(more, rest));
  }

  lemma {:induction false} CrateBody(ts: string)
    ensures EndAlike(ReadIdent(ts), ReadPath("C" + ts))
  {
    TailOf('C', ts);
  }

  /** `r` reads a path as `q` does and then an identifier. */
  ghost predicate ThenIdent<T, U>(q: Read<T>, r: Read<U>) {
    if q.Got? then
      var i := ReadIdent(q.rest);
      (r.Got? ==> i.Got? && r.rest == i.rest) && (i.Got? ==> r.Got?) && (i == Raised ==> r == Raised)
    else !r.Got? && (q == Raised ==> r == Raised)
  }

  lemma {:induction false} NestedTurn(p: Path, more: seq<Ident>, rest: string)
    requires p.Nested?
    ensures ThenIdent(ReadPath(EncPath(p.parent) + From([p.id] + more, rest)), ReadPath(EncPath(p) + From(more, rest)))
  {
    var ids := [p.id] + more;
    assert ids[1..] == more;
    FromStep(ids, rest);
    var tail := EncPath(p.parent) + From(ids, rest);
    ShiftTwo("N", [p.ns], EncPath(p.parent) + EncIdent(p.id), From(more, rest));
    Shift(EncPath(p.parent), EncIdent(p.id), From(more, rest));
    PathTurn([p.ns] + tail);
    NestedBody(p.ns, tail);
  }

  lemma {:induction false} NestedBody(ns: char, tail: string)
    ensures ThenIdent(ReadPath(tail), ReadNested([ns] + tail))
  {
    TailOf(ns, tail);
  }

  lemma {:induction false} NestedEnd(p: Path, more: seq<Ident>, rest: string) returns (m: nat)
    requires p.Nested? && Names(p) && !CleanPath(p, From(more, rest))
    ensures Ends(more, rest, ReadPath(EncPath(p) + From(more, rest)), m) && m >= 1
    decreases p, 0
  {
    var ids := [p.id] + more;
    assert ids[1..] == more;
    FromStep(ids, rest);
    NestedTurn(p, more, rest);
    var j := NamesEnd(p.parent, ids, rest);
    m := IdentAfter(p.id, more, rest, j, ReadPath(EncPath(p.parent) + From(ids, rest)), ReadPath(EncPath(p) + From(more, rest)));
  }

  lemma {:induction false} IdentAfter<T, U>(id: Ident, more: seq<Ident>, rest: string, j: nat, q: Read<T>, r: Read<U>)
    returns (m: nat)
    requires Ends([id] + more, rest, q, j) && ThenIdent(q, r)
    requires j >= 1 || !CleanIdent(id, From(more, rest))
    ensures Ends(more, rest, r, m) && m >= 1
  {
    var ids := [id] + more;
    assert ids[1..] == more;
    m := 1;
    if q.Got? {
      var k := IdentFrom(ids, rest, q.rest, j);
      AfterOne(id, more, rest, r, k);
      m := k - 1;
    }
  }

  /** Reading one more identifier from where the reader stands in a row. */
  lemma {:induction false} IdentFrom(ids: seq<Ident>, rest: string, ts: string, j: nat) returns (k: nat)
    requires ids != [] && Stands(ids, rest, ts, j)
    ensures k >= 1 && (j >= 1 || !CleanIdent(ids[0], From(ids[1..], rest)) ==> k >= 2)
    ensures Ends(ids, rest, ReadIdent(ts), k)
  {
    if j >= |ids| {
      k := |ids| + 1;
      if j == |ids| { FromNone(rest); }
    } else {
      var n := OneIdent(ids[j..], rest);
      k := j + n;
      assert j == 0 ==> ids[0..] == ids;
      assert n <= |ids[j..]| ==> ids[j..][n..] == ids[k..];
    }
  }

  /** Names that are not clean are lost, whatever follows; with nothing after them the reader raises. */
  lemma {:induction false} UncleanNamesAreLost(p: Path, rest: string)
    requires Names(p) && !CleanPath(p, rest)
    ensures var r := ReadPath(EncPath(p) + rest); (r.Got? ==> |r.rest| < |rest|) && (rest == "" ==> r == Raised)
  {
    FromNone(rest);
    var m := NamesEnd(p, [], rest);
  }

  /** Nested names read back if and only if they are clean. */
  lemma {:induction false} NamesReadBackIffClean(p: Path, rest: string)
    requires Names(p)
    ensures ReadPath(EncPath(p) + rest) == Got((ShowPath(p), OwnerOf(p)), rest) <==> CleanPath(p, rest)
  {
    if CleanPath(p, rest) { PathReads(p, rest); } else { UncleanNamesAreLost(p, rest); }
  }

  /** An item or a closure directly inside a closure reads back exactly when it has a disambiguator or a
      Punycode mark, and is itself clean. */
  lemma {:induction false} ItemInClosureReadsIff(
    outer: char, inner: char, parent: Path, closure: Ident, id: Ident, rest: string)
    requires PlainPath(parent) && closure.name == ""
    ensures var p := Nested(outer, Nested(inner, parent, closure), id);
            ReadPath(EncPath(p) + rest) == Got((ShowPath(p), OwnerOf(p)), rest) <==> Marked(id) && CleanIdent(id, rest)
  {
    var p := Nested(outer, Nested(inner, parent, closure), id);
    PlainIsNames(parent);
    NamesReadBackIffClean(p, rest);
    PlainPathIsClean(parent, EncIdent(closure) + (EncIdent(id) + rest));
    RunsOnIffUnmarked(id, rest);
  }
}
