/** The ids a layout's parts get: a slug of the name where that is unique, else a kind word and a
    number, and one `repeat` id for each repeat around the part. */
module PartIds {
  import opened Options
  import opened Sequences
  import opened Decimals

  const KIND_WORDS := ["path", "polygon", "circle", "grid", "filled", "points", "group", "repeat"]

  const ID_MAX_LEN := 24

  /** A name, a kind word, and how many repeats wrap the part. */
  datatype Object = Object(name: string, word: string, repeats: nat)

  datatype Ids = Ids(repeats: seq<string>, held: string)

  // ----- slugs -----

  predicate IdChar(c: char) {
    'a' <= c <= 'z' || '0' <= c <= '9' || c == '_' || c == '-'
  }

  function Lower(c: char): char {
    if 'A' <= c <= 'Z' then c - 'A' + 'a' else c
  }

  /** Lower case; anything that is no id character is a dash. */
  function Plain(c: char): char {
    if IdChar(Lower(c)) then Lower(c) else '-'
  }

  predicate EndsInDash(s: string) {
    s != "" && s[|s| - 1] == '-'
  }

  function Push(s: string, c: char): string {
    if c == '-' && (s == "" || EndsInDash(s)) then s else s + [c]
  }

  function Spell(name: string): string {
    if name == "" then "" else Push(Spell(name[..|name| - 1]), Plain(name[|name| - 1]))
  }

  function StripDashes(s: string): string {
    if EndsInDash(s) then StripDashes(s[..|s| - 1]) else s
  }

  function Cut(s: string): string {
    if |s| <= ID_MAX_LEN then s else s[..ID_MAX_LEN]
  }

  function Slug(name: string): Option<string> {
    var s := StripDashes(Cut(Spell(name)));
    if s != "" && 'a' <= s[0] <= 'z' then Some(s) else None
  }

  /** A dash, or a character no id can have in either case. */
  predicate Gap(c: char) {
    !('a' <= c <= 'z' || 'A' <= c <= 'Z' || '0' <= c <= '9' || c == '_')
  }

  /** Small letters, digits, underscores and dashes, with no dash at the front and no two in a row. */
  predicate Tidy(s: string) {
    && (forall k :: 0 <= k < |s| ==> s[k] == '-' || (!Gap(s[k]) && !('A' <= s[k] <= 'Z')))
    && (s != "" ==> s[0] != '-')
    && forall k :: 0 <= k < |s| - 1 ==> s[k] != '-' || s[k + 1] != '-'
  }

  predicate IsId(s: string) {
    0 < |s| <= 24 && Tidy(s) && 'a' <= s[0] <= 'z' && s[|s| - 1] != '-'
  }

  lemma PlainIsSmall(c: char)
    ensures Plain(c) == '-' || (!Gap(Plain(c)) && !('A' <= Plain(c) <= 'Z'))
    ensures c == '-' || (!Gap(c) && !('A' <= c <= 'Z')) ==> Plain(c) == c
  {
  }

  lemma {:induction false} SpellIsTidy(name: string)
    ensures Tidy(Spell(name))
  {
    if name != "" {
      SpellIsTidy(name[..|name| - 1]);
      PlainIsSmall(name[|name| - 1]);
    }
  }

  lemma {:induction false} StripKeepsPrefix(s: string)
    ensures StripDashes(s) <= s && !EndsInDash(StripDashes(s))
  {
    if EndsInDash(s) { StripKeepsPrefix(s[..|s| - 1]); }
  }

  /** A slug is an id, whatever the name. */
  lemma {:induction false} SlugIsId(name: string)
    requires Slug(name).Some?
    ensures IsId(Slug(name).value)
  {
    SpellIsTidy(name);
    StripKeepsPrefix(Cut(Spell(name)));
  }

  lemma {:induction false} TidySpellsItself(s: string)
    requires Tidy(s)
    ensures Spell(s) == s
  {
    if s != "" {
      var n := |s| - 1;
      TidySpellsItself(s[..n]);
      PlainIsSmall(s[n]);
      assert s[..n] + [s[n]] == s;
    }
  }

  /** And every id is its own slug: ids are exactly the slugs. */
  lemma {:induction false} IdIsItsSlug(s: string)
    requires IsId(s)
    ensures Slug(s) == Some(s)
  {
    TidySpellsItself(s);
  }

  predicate IsCapitalOf(a: char, b: char) {
    'A' <= a <= 'Z' && b as int == a as int + 32
  }

  /** The same letter in either case, or both a gap. */
  predicate Alike(a: char, b: char) {
    a == b || IsCapitalOf(a, b) || IsCapitalOf(b, a) || (Gap(a) && Gap(b))
  }

  lemma AlikeIsPlain(a: char, b: char)
    requires Alike(a, b)
    ensures Plain(a) == Plain(b) && (Gap(a) ==> Plain(a) == '-')
  {
  }

  lemma {:induction false} SpellSeesLettersOnly(a: string, b: string)
    requires |a| == |b| && forall i :: 0 <= i < |a| ==> Alike(a[i], b[i])
    ensures Spell(a) == Spell(b)
  {
    if a != "" {
      SpellSeesLettersOnly(a[..|a| - 1], b[..|b| - 1]);
      AlikeIsPlain(a[|a| - 1], b[|b| - 1]);
    }
  }

  /** Names that differ in case only, or in which characters no id can have stand at a place, get the
      same slug. */
  lemma {:induction false} SlugSeesLettersOnly(a: string, b: string)
    requires |a| == |b| && forall i :: 0 <= i < |a| ==> Alike(a[i], b[i])
    ensures Slug(a) == Slug(b)
  {
    SpellSeesLettersOnly(a, b);
  }

  lemma {:induction false} SpellPush(a: string, c: char)
    ensures Spell(a + [c]) == Push(Spell(a), Plain(c))
  {
    assert (a + [c])[..|a|] == a;
  }

  /** What follows is spelled alike after two names that are. */
  lemma {:induction false} SpellAfter(a: string, b: string, rest: string)
    requires Spell(a) == Spell(b)
    ensures Spell(a + rest) == Spell(b + rest)
  {
    if rest == "" {
      assert a + rest == a && b + rest == b;
    } else {
      var n := |rest| - 1;
      SpellAfter(a, b, rest[..n]);
      SpellLast(a, rest);
      SpellLast(b, rest);
    }
  }

  lemma {:induction false} SpellLast(a: string, rest: string)
    requires rest != ""
    ensures Spell(a + rest) == Push(Spell(a + rest[..|rest| - 1]), Plain(rest[|rest| - 1]))
  {
    assert a + rest == (a + rest[..|rest| - 1]) + [rest[|rest| - 1]];
    SpellPush(a + rest[..|rest| - 1], rest[|rest| - 1]);
  }

  lemma {:induction false} SpellClosesGaps(a: string, g: char, h: char)
    requires Gap(g) && Gap(h)
    ensures Spell(a + [g, h]) == Spell(a + [g])
    ensures Spell([g]) == ""
  {
    AlikeIsPlain(g, '-');
    AlikeIsPlain(h, '-');
    SpellPush(a, g);
    SpellPush(a + [g], h);
    assert a + [g] + [h] == a + [g, h];
  }

  /** Two gaps in a row count as one, and a gap at the front as none. */
  lemma {:induction false} SlugClosesGaps(a: string, g: char, h: char, rest: string)
    requires Gap(g) && Gap(h)
    ensures Slug(a + [g, h] + rest) == Slug(a + [g] + rest)
    ensures Slug([g] + rest) == Slug(rest)
  {
    SpellClosesGaps(a, g, h);
    SpellAfter(a + [g, h], a + [g], rest);
    SpellAfter([g], "", rest);
    assert "" + rest == rest;
  }

  /** Of a tidy name that starts with a letter the slug keeps the first 24 characters, less a dash at
      their end; no other tidy name has one. */
  lemma {:induction false} TidySlug(s: string)
    requires Tidy(s)
    ensures Slug(s) ==
            if s == "" || !('a' <= s[0] <= 'z') then None
            else var kept := if |s| <= 24 then s else s[..24];
                 Some(if kept[|kept| - 1] == '-' then kept[..|kept| - 1] else kept)
  {
    TidySpellsItself(s);
    if s != "" { OneDashStripped(if |s| <= 24 then s else s[..24]); }
  }

  lemma {:induction false} OneDashStripped(s: string)
    requires Tidy(s) && s != ""
    ensures StripDashes(s) == if s[|s| - 1] == '-' then s[..|s| - 1] else s
  {
    if s[|s| - 1] == '-' { assert !EndsInDash(s[..|s| - 1]); }
  }

  method MakeSlug(name: string) returns (r: Option<string>)
    ensures r == Slug(name)
  {
    var out := "";
    for i := 0 to |name|
      invariant out == Spell(name[..i])
    {
      assert name[..i + 1][..i] == name[..i];
      var c := Plain(name[i]);
      if c == '-' && (out == "" || out[|out| - 1] == '-') { continue; }
      out := out + [c];
    }
    assert name[..|name|] == name;
    if |out| > ID_MAX_LEN { out := out[..ID_MAX_LEN]; }
    while out != "" && out[|out| - 1] == '-'
      invariant StripDashes(out) == StripDashes(Cut(Spell(name)))
      decreases |out|
    {
      out := out[..|out| - 1];
    }
    if out != "" && 'a' <= out[0] <= 'z' { return Some(out); }
    return None;
  }

  // ----- minted numbers -----

  predicate ReadsAs(id: string, word: string) {
    word <= id && |word| < |id| && AllDigits(id[|word|..])
  }

  /** The kind word and number of an id that reads as minted, for the first kind word that fits. */
  function MintedNumber(id: string): (r: Option<(string, nat)>)
    ensures r.Some? ==> r.value.0 in KIND_WORDS && ReadsAs(id, r.value.0) && r.value.1 == NumberOf(id[|r.value.0|..])
  {
    FirstFit(KIND_WORDS, id)
  }

  function FirstFit(words: seq<string>, id: string): (r: Option<(string, nat)>)
    ensures r.Some? ==> r.value.0 in words && ReadsAs(id, r.value.0) && r.value.1 == NumberOf(id[|r.value.0|..])
  {
    if words == [] then None
    else if ReadsAs(id, words[0]) then Some((words[0], NumberOf(id[|words[0]|..])))
    else FirstFit(words[1..], id)
  }

  predicate NoDigits(w: string) {
    forall k :: 0 <= k < |w| ==> !IsDigit(w[k])
  }

  predicate IsKindWord(w: string) {
    || w == "path" || w == "polygon" || w == "circle" || w == "grid"
    || w == "filled" || w == "points" || w == "group" || w == "repeat"
  }

  lemma KindWordsHaveNoDigits(w: string)
    ensures w in KIND_WORDS <==> IsKindWord(w)
    ensures IsKindWord(w) ==> NoDigits(w)
  {
  }

  /** Where the word ends is where the digits start. */
  lemma WordIsUnique(id: string, w: string, v: string)
    requires NoDigits(w) && NoDigits(v) && ReadsAs(id, w) && ReadsAs(id, v)
    ensures w == v
  {
    NotLonger(id, w, v);
    NotLonger(id, v, w);
    assert w == id[..|w|] && v == id[..|v|];
  }

  lemma NotLonger(id: string, w: string, v: string)
    requires NoDigits(v) && ReadsAs(id, w) && ReadsAs(id, v)
    ensures |v| <= |w|
  {
    assert IsDigit(id[|w|..][0]);
    assert v == id[..|v|];
  }

  lemma {:induction false} FirstFitIsTheFit(words: seq<string>, id: string, w: string)
    requires (forall x <- words :: NoDigits(x)) && w in words && ReadsAs(id, w)
    ensures FirstFit(words, id) == Some((w, NumberOf(id[|w|..])))
  {
    if ReadsAs(id, words[0]) {
      WordIsUnique(id, w, words[0]);
    } else {
      assert words == [words[0]] + words[1..];
      FirstFitIsTheFit(words[1..], id, w);
    }
  }

  lemma {:induction false} NumberedReads(w: string, n: nat)
    ensures ReadsAs(w + Decimal(n), w) && NumberOf((w + Decimal(n))[|w|..]) == n
  {
    DecimalReadsBack(n);
    assert (w + Decimal(n))[|w|..] == Decimal(n);
  }

  /** An id reads as minted exactly when it is a kind word and digits, whichever of the words comes first. */
  lemma {:induction false} MintedIff(id: string, w: string, n: nat)
    ensures MintedNumber(id) == Some((w, n)) <==>
            && IsKindWord(w) && |w| < |id| && id[..|w|] == w
            && AllDigits(id[|w|..]) && NumberOf(id[|w|..]) == n
  {
    forall x ensures x in KIND_WORDS <==> IsKindWord(x)
             ensures x in KIND_WORDS ==> NoDigits(x) { KindWordsHaveNoDigits(x); }
    if IsKindWord(w) && ReadsAs(id, w) { FirstFitIsTheFit(KIND_WORDS, id, w); }
  }

  /** A minted id reads back to its kind word and number. */
  lemma {:induction false} MintedReadsBack(w: string, n: nat)
    requires IsKindWord(w)
    ensures MintedNumber(w + Decimal(n)) == Some((w, n))
  {
    NumberedReads(w, n);
    MintedIff(w + Decimal(n), w, n);
  }

  lemma {:induction false} NumberedIsInjective(w: string, m: nat, n: nat)
    requires w + Decimal(m) == w + Decimal(n)
    ensures m == n
  {
    NumberedReads(w, m);
    NumberedReads(w, n);
  }

  /** A run of used numbers is no longer than the used ids are many. */
  lemma {:induction false} UsedRunFits(w: string, a: nat, b: nat, used: set<string>)
    requires a <= b && forall k :: a <= k < b ==> w + Decimal(k) in used
    ensures b - a <= |used|
  {
    if a < b {
      var top := w + Decimal(b - 1);
      forall k | a <= k < b - 1 ensures w + Decimal(k) in used - {top} {
        if w + Decimal(k) == top { NumberedIsInjective(w, k, b - 1); }
      }
      UsedRunFits(w, a, b - 1, used - {top});
    }
  }

  // ----- minting -----

  function CounterOf(counters: map<string, nat>, w: string): nat {
    if w in counters then counters[w] else 1
  }

  /** `n` is the first number at or after `start` whose id is free. */
  ghost predicate NextFree(used: set<string>, start: nat, word: string, n: nat) {
    start <= n && word + Decimal(n) !in used && forall k :: start <= k < n ==> word + Decimal(k) in used
  }

  /** The id is the word and the first number from 1 on that is not taken. */
  ghost predicate IsFirstFree(taken: set<string>, word: string, id: string) {
    exists n: nat :: id == word + Decimal(n) && NextFree(taken, 1, word, n)
  }

  /** The numbers below a counter are all used. */
  ghost predicate Dense(used: set<string>, counters: map<string, nat>) {
    forall w, k: nat :: w in counters && 1 <= k < counters[w] ==> w + Decimal(k) in used
  }

  /** The id reads as the word and the number before `counter`. */
  ghost predicate Backs(id: string, w: string, counter: nat) {
    ReadsAs(id, w) && NumberOf(id[|w|..]) + 1 == counter
  }

  /** Every counter is one past the number of a used id. */
  ghost predicate Backed(used: set<string>, counters: map<string, nat>) {
    forall w :: w in counters ==> exists id :: id in used && Backs(id, w, counters[w])
  }

  lemma {:induction false} BackedByNew(used: set<string>, counters: map<string, nat>, w: string, n: nat)
    requires Backed(used, counters)
    ensures Backed(used + {w + Decimal(n)}, counters[w := n + 1])
  {
    var id := w + Decimal(n);
    NumberedReads(w, n);
    var now := counters[w := n + 1];
    forall v | v in now ensures exists x :: x in used + {id} && Backs(x, v, now[v]) {
      if v == w {
        assert Backs(id, w, now[w]);
      } else {
        var x :| x in used && Backs(x, v, counters[v]);
        assert x in used + {id} && Backs(x, v, now[v]);
      }
    }
  }

  lemma {:induction false} DenseByNew(used: set<string>, counters: map<string, nat>, w: string, n: nat)
    requires Dense(used, counters) && NextFree(used, CounterOf(counters, w), w, n) && 1 <= CounterOf(counters, w)
    ensures Dense(used + {w + Decimal(n)}, counters[w := n + 1]) && IsFirstFree(used, w, w + Decimal(n))
  {
    assert NextFree(used, 1, w, n);
  }

  /** The counters after an id in use has been looked at. */
  function Raised(counters: map<string, nat>, id: string): map<string, nat> {
    match MintedNumber(id)
    case None => counters
    case Some((w, n)) => counters[w := if CounterOf(counters, w) <= n + 1 then n + 1 else CounterOf(counters, w)]
  }

  /** The counter of an id's kind word is past its number. */
  ghost predicate Passed(counters: map<string, nat>, id: string) {
    match MintedNumber(id)
    case None => true
    case Some((w, n)) => w in counters && n < counters[w]
  }

  ghost predicate NotBelow(before: map<string, nat>, after: map<string, nat>) {
    forall w :: w in before ==> w in after && before[w] <= after[w]
  }

  lemma {:induction false} RaisedIsBacked(used: set<string>, counters: map<string, nat>, id: string)
    requires Backed(used, counters) && id in used
    ensures Backed(used, Raised(counters, id)) && Passed(Raised(counters, id), id)
    ensures NotBelow(counters, Raised(counters, id))
  {
    if MintedNumber(id).Some? {
      var (w, n) := MintedNumber(id).value;
      var now := Raised(counters, id);
      forall v | v in now ensures exists x :: x in used && Backs(x, v, now[v]) {
        if v == w && now[w] == n + 1 {
          assert Backs(id, w, now[w]);
        } else {
          var x :| x in used && Backs(x, v, counters[v]);
          assert Backs(x, v, now[v]);
        }
      }
    }
  }

  ghost predicate AllPassed(counters: map<string, nat>, ids: set<string>) {
    forall id :: id in ids ==> Passed(counters, id)
  }

  ghost predicate AllFree(counters: map<string, nat>, used: set<string>) {
    forall w, n: nat :: IsKindWord(w) && (if w in counters then counters[w] else 1) <= n ==> w + Decimal(n) !in used
  }

  lemma {:induction false} OneMorePassed(used: set<string>, counters: map<string, nat>, todo: set<string>, id: string)
    requires Backed(used, counters) && id in todo && todo <= used && AllPassed(counters, used - todo)
    ensures AllPassed(Raised(counters, id), used - (todo - {id}))
  {
    RaisedIsBacked(used, counters, id);
    forall x | x in used - (todo - {id}) ensures Passed(Raised(counters, id), x) {
      if x != id { assert Passed(counters, x); }
    }
  }

  /** Once every used id has been looked at, the numbers from a counter on are free. */
  lemma {:induction false} PassedMeansFree(used: set<string>, counters: map<string, nat>)
    requires AllPassed(counters, used)
    ensures AllFree(counters, used)
  {
    forall w, n: nat | IsKindWord(w) && (if w in counters then counters[w] else 1) <= n ensures w + Decimal(n) !in used {
      MintedReadsBack(w, n);
    }
  }

  function Contents(ids: seq<string>): set<string> {
    set x | x in ids
  }

  // ----- slugs that one object alone has -----

  function Slugs(objects: seq<Object>): seq<Option<string>> {
    seq(|objects|, i requires 0 <= i < |objects| => Slug(objects[i].name))
  }

  predicate Alone(slugs: seq<Option<string>>, i: nat)
    requires i < |slugs|
  {
    forall j :: 0 <= j < |slugs| && j != i ==> slugs[j] != slugs[i]
  }

  function HeldSlug(objects: seq<Object>, i: nat): Option<string>
    requires i < |objects|
  {
    if Alone(Slugs(objects), i) then Slug(objects[i].name) else None
  }

  function HeldFrom(held: seq<Option<string>>, k: nat): set<string> {
    set j | k <= j < |held| && held[j].Some? :: held[j].value
  }

  lemma CountsOnce(slugs: seq<Option<string>>, i: nat)
    requires i < |slugs|
    ensures multiset(slugs)[slugs[i]] == 1 <==> Alone(slugs, i)
  {
    var before, after := slugs[..i], slugs[i + 1..];
    assert slugs == before + [slugs[i]] + after;
    assert multiset(slugs) == multiset(before) + multiset{slugs[i]} + multiset(after);
    if Alone(slugs, i) {
      assert slugs[i] !in before && slugs[i] !in after;
    } else {
      var j :| 0 <= j < |slugs| && j != i && slugs[j] == slugs[i];
      if j < i { assert before[j] == slugs[i]; } else { assert after[j - i - 1] == slugs[i]; }
    }
  }

  lemma HeldStep(held: seq<Option<string>>, i: nat, x: string)
    requires i < |held| && held[i].None?
    ensures HeldFrom(held[i := Some(x)], 0) == HeldFrom(held, 0) + {x}
  {
    var now := held[i := Some(x)];
    forall y ensures y in HeldFrom(now, 0) <==> y in HeldFrom(held, 0) + {x} {
      if y in HeldFrom(held, 0) {
        var j :| 0 <= j < |held| && held[j].Some? && held[j].value == y;
        assert now[j].Some? && now[j].value == y;
      }
      assert now[i].Some? && now[i].value == x;
    }
  }

  function Own(ids: Ids): seq<string> {
    ids.repeats + [ids.held]
  }

  function AllIds(out: seq<Ids>): seq<string> {
    if out == [] then [] else
    var n := |out| - 1;
    AllIds(out[..n]) + Own(out[n])
  }

  lemma DistinctAppend(a: seq<string>, b: seq<string>)
    requires Distinct(a) && Distinct(b) && Contents(a) !! Contents(b)
    ensures Distinct(a + b) && Contents(a + b) == Contents(a) + Contents(b)
  {
    forall i, j | 0 <= i < j < |a + b| ensures (a + b)[i] != (a + b)[j] {
      assert i < |a| ==> (a + b)[i] in Contents(a);
      assert j >= |a| ==> (a + b)[j] in Contents(b);
    }
  }

  /** The first free `repeat` ids one after the other. */
  ghost predicate AreRepeats(taken: set<string>, ids: seq<string>) {
    forall j {:trigger ids[..j]} :: 0 <= j < |ids| ==> IsFirstFree(taken + Contents(ids[..j]), "repeat", ids[j])
  }

  /** With `taken` taken, an object's repeats have as many `repeat` ids, and its own id is its slug when
      that is its alone, else its kind word and a number: the first that are free. */
  ghost predicate Fits(objects: seq<Object>, i: nat, taken: set<string>, ids: Ids)
    requires i < |objects|
  {
    && |ids.repeats| == objects[i].repeats && AreRepeats(taken, ids.repeats)
    && match HeldSlug(objects, i)
       case Some(slug) => ids.held == slug
       case None => IsFirstFree(taken + Contents(ids.repeats), objects[i].word, ids.held)
  }

  function HeldSlugs(objects: seq<Object>): seq<Option<string>> {
    seq(|objects|, i requires 0 <= i < |objects| => HeldSlug(objects, i))
  }

  /** What is taken when object `i` gets its ids: all ids given out before, and the slugs still to come. */
  function Taken(objects: seq<Object>, out: seq<Ids>, i: nat): set<string>
    requires i <= |out|
  {
    Contents(AllIds(out[..i])) + HeldFrom(HeldSlugs(objects), i)
  }

  lemma AllIdsGrow(out: seq<Ids>, ids: Ids)
    requires Distinct(AllIds(out)) && Distinct(Own(ids)) && Contents(AllIds(out)) !! Contents(Own(ids))
    ensures Distinct(AllIds(out + [ids])) && Contents(AllIds(out + [ids])) == Contents(AllIds(out)) + Contents(Own(ids))
  {
    assert (out + [ids])[..|out|] == out;
    DistinctAppend(AllIds(out), Own(ids));
  }

  lemma RepeatsGrow(taken: set<string>, ids: seq<string>, id: string)
    requires AreRepeats(taken, ids) && IsFirstFree(taken + Contents(ids), "repeat", id)
    ensures AreRepeats(taken, ids + [id])
  {
    forall j | 0 <= j < |ids + [id]|
      ensures IsFirstFree(taken + Contents((ids + [id])[..j]), "repeat", (ids + [id])[j])
    {
      assert (ids + [id])[..j] == ids[..j];
      if j == |ids| { assert ids[..j] == ids; }
    }
  }

  method MakeSlugs(objects: seq<Object>) returns (slugs: seq<Option<string>>)
    ensures slugs == Slugs(objects)
  {
    slugs := [];
    for i := 0 to |objects|
      invariant slugs == Slugs(objects)[..i]
    {
      var slug := MakeSlug(objects[i].name);
      slugs := slugs + [slug];
    }
  }

  class Minter {
    var used: set<string>
    var counters: map<string, nat>

    constructor ()
      ensures used == {} && counters == map[]
    {
      used, counters := {}, map[];
    }

    method Mint(word: string) returns (id: string)
      requires Backed(used, counters) && Dense(used, counters)
      modifies this
      ensures id !in old(used) && used == old(used) + {id} && Backed(used, counters) && Dense(used, counters)
      ensures IsFirstFree(old(used), word, id)
      ensures exists n: nat :: id == word + Decimal(n) && counters == old(counters)[word := n + 1]
    {
      var start := CounterOf(counters, word);
      var n := start;
      while word + Decimal(n) in used
        invariant used == old(used) && counters == old(counters)
        invariant start <= n && forall k :: start <= k < n ==> word + Decimal(k) in used
        decreases |used| + start - n
      {
        UsedRunFits(word, start, n + 1, used);
        n := n + 1;
      }
      id := word + Decimal(n);
      BackedByNew(used, counters, word, n);
      DenseByNew(used, counters, word, n);
      counters := counters[word := n + 1];
      used := used + {id};
    }

    method MintRepeats(count: nat) returns (ids: seq<string>)
      requires Backed(used, counters) && Dense(used, counters)
      modifies this
      ensures |ids| == count && Distinct(ids) && AreRepeats(old(used), ids)
      ensures Contents(ids) !! old(used) && used == old(used) + Contents(ids)
      ensures Backed(used, counters) && Dense(used, counters)
    {
      ids := [];
      for i := 0 to count
        invariant |ids| == i && Distinct(ids) && AreRepeats(old(used), ids)
        invariant Contents(ids) !! old(used) && used == old(used) + Contents(ids)
        invariant Backed(used, counters) && Dense(used, counters)
      {
        var id := Mint("repeat");
        assert Contents(ids + [id]) == Contents(ids) + {id};
        RepeatsGrow(old(used), ids, id);
        ids := ids + [id];
      }
    }

    /** The ids of one object: its repeats', then its own. */
    method IdsFor(objects: seq<Object>, held: seq<Option<string>>, k: nat) returns (ids: Ids)
      requires Backed(used, counters) && Dense(used, counters)
      requires k < |objects| == |held| && held[k] == HeldSlug(objects, k)
      requires held[k].Some? ==> held[k].value in used
      modifies this
      ensures Fits(objects, k, old(used), ids) && Distinct(Own(ids))
      ensures Backed(used, counters) && Dense(used, counters)
      ensures used == old(used) + Contents(Own(ids))
      ensures old(used) * Contents(Own(ids)) == if held[k].Some? then {held[k].value} else {}
    {
      var repeats := MintRepeats(objects[k].repeats);
      var mine: string;
      if held[k].Some? { mine := held[k].value; } else { mine := Mint(objects[k].word); }
      ids := Ids(repeats, mine);
      DistinctAppend(repeats, [mine]);
    }

    /** Slugs that one object alone has are taken first. */
    method HoldSlugs(objects: seq<Object>) returns (held: seq<Option<string>>)
      requires used == {} && counters == map[]
      modifies this
      ensures held == HeldSlugs(objects)
      ensures used == HeldFrom(held, 0) && counters == map[]
    {
      var slugs := MakeSlugs(objects);
      held := seq(|objects|, _ => None);
      for i := 0 to |objects|
        invariant |held| == |objects| && counters == map[]
        invariant forall j :: 0 <= j < |objects| ==> held[j] == if j < i then HeldSlug(objects, j) else None
        invariant used == HeldFrom(held, 0)
      {
        CountsOnce(slugs, i);
        if slugs[i].Some? && multiset(slugs)[slugs[i]] == 1 && slugs[i].value !in used {
          HeldStep(held, i, slugs[i].value);
          used := used + {slugs[i].value};
          held := held[i := slugs[i]];
        }
      }
    }

    method RaiseFor(id: string)
      modifies this`counters
      ensures counters == Raised(old(counters), id)
    {
      var minted := MintedNumber(id);
      if minted.Some? {
        var (w, n) := minted.value;
        var counter := CounterOf(counters, w);
        counters := counters[w := if counter <= n + 1 then n + 1 else counter];
      }
    }

    /** After the ids are given out, no counter is at or below a number in use. */
    method RaiseCounters()
      requires Backed(used, counters)
      modifies this`counters
      ensures Backed(used, counters)
      ensures AllFree(counters, used) && AllPassed(counters, used)
      ensures NotBelow(old(counters), counters)
    {
      var todo := used;
      while todo != {}
        invariant todo <= used && used == old(used) && Backed(used, counters)
        invariant AllPassed(counters, used - todo)
        invariant NotBelow(old(counters), counters)
        decreases |todo|
      {
        var id :| id in todo;
        RaisedIsBacked(used, counters, id);
        OneMorePassed(used, counters, todo, id);
        RaiseFor(id);
        todo := todo - {id};
      }
      PassedMeansFree(used, counters);
    }
  }

  // ----- every object's ids -----

  method AssignIds(objects: seq<Object>) returns (out: seq<Ids>, next: map<string, nat>)
    ensures |out| == |objects| && AllFit(objects, out)
    ensures Distinct(AllIds(out))
    ensures AllFree(next, Contents(AllIds(out))) && AllPassed(next, Contents(AllIds(out)))
    ensures Backed(Contents(AllIds(out)), next)
  {
    var minter := new Minter();
    var held := minter.HoldSlugs(objects);
    out := [];
    for k := 0 to |objects|
      invariant |out| == k && AllFit(objects, out)
      invariant GivenOut(out, held, k, minter.used)
      invariant Backed(minter.used, minter.counters) && Dense(minter.used, minter.counters)
    {
      HeldSplit(objects, held, k);
      ghost var used := minter.used;
      var ids := minter.IdsFor(objects, held, k);
      GivenOutGrows(objects, out, held, k, used, ids);
      AllFitGrows(objects, out, used, ids);
      out := out + [ids];
    }
    minter.RaiseCounters();
    next := minter.counters;
  }

  ghost predicate AllFit(objects: seq<Object>, out: seq<Ids>) {
    && |out| <= |objects|
    && forall i {:trigger Taken(objects, out, i)} :: 0 <= i < |out| ==> Fits(objects, i, Taken(objects, out, i), out[i])
  }

  lemma {:induction false} AllFitGrows(objects: seq<Object>, out: seq<Ids>, used: set<string>, ids: Ids)
    requires AllFit(objects, out) && |out| < |objects|
    requires used == Contents(AllIds(out)) + HeldFrom(HeldSlugs(objects), |out|) && Fits(objects, |out|, used, ids)
    ensures AllFit(objects, out + [ids])
  {
    forall i | 0 <= i < |out + [ids]| ensures Fits(objects, i, Taken(objects, out + [ids], i), (out + [ids])[i]) {
      assert (out + [ids])[..i] == out[..i];
      assert Taken(objects, out + [ids], i) == Taken(objects, out, i);
      if i == |out| { assert out[..i] == out; }
    }
  }

  lemma {:induction false} FirstFreeIsUnique(taken: set<string>, word: string, a: string, b: string)
    requires IsFirstFree(taken, word, a) && IsFirstFree(taken, word, b)
    ensures a == b
  {
    var m: nat :| a == word + Decimal(m) && NextFree(taken, 1, word, m);
    var n: nat :| b == word + Decimal(n) && NextFree(taken, 1, word, n);
    assert m == n;
  }

  lemma {:induction false} RepeatsAreUnique(taken: set<string>, a: seq<string>, b: seq<string>, k: nat)
    requires |a| == |b| && k <= |a| && AreRepeats(taken, a) && AreRepeats(taken, b)
    ensures a[..k] == b[..k]
  {
    if k > 0 {
      RepeatsAreUnique(taken, a, b, k - 1);
      FirstFreeIsUnique(taken + Contents(a[..k - 1]), "repeat", a[k - 1], b[k - 1]);
      OneMoreAgrees(a, b, k - 1);
    }
  }

  lemma {:induction false} FitIsUnique(objects: seq<Object>, i: nat, taken: set<string>, a: Ids, b: Ids)
    requires i < |objects| && Fits(objects, i, taken, a) && Fits(objects, i, taken, b)
    ensures a == b
  {
    RepeatsAreUnique(taken, a.repeats, b.repeats, |a.repeats|);
    assert a.repeats[..|a.repeats|] == a.repeats && b.repeats[..|b.repeats|] == b.repeats;
    if HeldSlug(objects, i).None? {
      FirstFreeIsUnique(taken + Contents(a.repeats), objects[i].word, a.held, b.held);
    }
  }

  lemma {:induction false} IdsAgree(objects: seq<Object>, a: seq<Ids>, b: seq<Ids>, k: nat)
    requires |a| == |b| && k <= |a| && AllFit(objects, a) && AllFit(objects, b)
    ensures a[..k] == b[..k]
  {
    if k > 0 {
      IdsAgree(objects, a, b, k - 1);
      NextAgrees(objects, a, b, k - 1);
      OneMoreAgrees(a, b, k - 1);
    }
  }

  lemma OneMoreAgrees<T>(a: seq<T>, b: seq<T>, i: nat)
    requires |a| == |b| && i < |a| && a[..i] == b[..i] && a[i] == b[i]
    ensures a[..i + 1] == b[..i + 1]
  {
    assert a[..i + 1] == a[..i] + [a[i]];
    assert b[..i + 1] == b[..i] + [b[i]];
  }

  lemma {:induction false} NextAgrees(objects: seq<Object>, a: seq<Ids>, b: seq<Ids>, i: nat)
    requires |a| == |b| <= |objects| && i < |a| && a[..i] == b[..i]
    requires Fits(objects, i, Taken(objects, a, i), a[i]) && Fits(objects, i, Taken(objects, b, i), b[i])
    ensures a[i] == b[i]
  {
    assert Taken(objects, a, i) == Taken(objects, b, i);
    FitIsUnique(objects, i, Taken(objects, a, i), a[i], b[i]);
  }

  /** The description of the ids picks out one assignment. */
  lemma {:induction false} IdsAreUnique(objects: seq<Object>, a: seq<Ids>, b: seq<Ids>)
    requires |a| == |b| == |objects| && AllFit(objects, a) && AllFit(objects, b)
    ensures a == b
  {
    IdsAgree(objects, a, b, |a|);
    assert a[..|a|] == a && b[..|b|] == b;
  }

  /** The ids in use are those given out so far and the slugs held from `k` on, and all are different. */
  ghost predicate GivenOut(out: seq<Ids>, held: seq<Option<string>>, k: nat, used: set<string>) {
    && Distinct(AllIds(out)) && Contents(AllIds(out)) !! HeldFrom(held, k)
    && used == Contents(AllIds(out)) + HeldFrom(held, k)
  }

  lemma {:induction false} GivenOutGrows(
    objects: seq<Object>, out: seq<Ids>, held: seq<Option<string>>, k: nat, used: set<string>, ids: Ids)
    requires k < |objects| && held == HeldSlugs(objects)
    requires GivenOut(out, held, k, used) && Distinct(Own(ids))
    requires used * Contents(Own(ids)) == if held[k].Some? then {held[k].value} else {}
    ensures GivenOut(out + [ids], held, k + 1, used + Contents(Own(ids)))
  {
    HeldSplit(objects, held, k);
    AllIdsGrow(out, ids);
  }

  /** What is held from `k` on is what object `k` holds and what is held after it, and these differ. */
  lemma HeldSplit(objects: seq<Object>, held: seq<Option<string>>, k: nat)
    requires k < |objects| && held == HeldSlugs(objects)
    ensures HeldFrom(held, k) == HeldFrom(held, k + 1) + if held[k].Some? then {held[k].value} else {}
    ensures held[k].Some? ==> held[k].value !in HeldFrom(held, k + 1)
  {
    forall j | k < j < |held| ensures held[j].Some? && held[k].Some? ==> held[j] != held[k] {
      assert Slugs(objects)[j] == Slug(objects[j].name) && Slugs(objects)[k] == Slug(objects[k].name);
    }
  }
}
