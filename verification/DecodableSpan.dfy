/** The part of a serial capture that is console output: the leftmost longest run of decodable bytes,
    cut just after its last newline. */
module DecodableSpan {
  newtype Byte = x: int | 0 <= x < 256

  predicate Decodable(x: Byte) {
    x == 0x09 || x == 0x0A || x == 0x0D || x == 0x1B || 0x20 <= x < 0x7F
  }

  /** Tab, newline, carriage return, escape and the printable ASCII characters. */
  predicate IsText(x: Byte) {
    var c := x as int as char;
    c == '\t' || c == '\n' || c == '\r' || c == '\U{1B}' || ' ' <= c <= '~'
  }

  ghost predicate Run(raw: seq<Byte>, a: nat, b: nat) {
    a <= b <= |raw| && forall k :: a <= k < b ==> IsText(raw[k])
  }

  /** `[a, b)` is the leftmost of the longest runs that end by `limit`; it is `[0, 0)` if there is none. */
  ghost predicate Best(raw: seq<Byte>, limit: nat, a: nat, b: nat) {
    && Run(raw, a, b) && b <= limit && (a == b ==> a == 0)
    && forall x: nat, y: nat :: Run(raw, x, y) && x < y <= limit ==> y - x < b - a || (y - x == b - a && a <= x)
  }

  /** `end` is just after the last newline of `[a, b)`, or `b` if there is no newline there. */
  ghost predicate CutAfterNewline(raw: seq<Byte>, a: nat, b: nat, end: nat) {
    && a <= end <= b <= |raw|
    && (forall k :: end <= k < b ==> raw[k] != 0x0A)
    && ((a < end && raw[end - 1] == 0x0A) || (end == b && forall k :: a <= k < b ==> raw[k] != 0x0A))
  }

  ghost predicate Span(raw: seq<Byte>, start: nat, end: nat) {
    exists b: nat :: Best(raw, |raw|, start, b) && CutAfterNewline(raw, start, b, end)
  }

  /** The description picks out one span. */
  lemma SpanIsUnique(raw: seq<Byte>, a: nat, end: nat, a': nat, end': nat)
    requires Span(raw, a, end) && Span(raw, a', end')
    ensures a == a' && end == end'
  {
    var b: nat :| Best(raw, |raw|, a, b) && CutAfterNewline(raw, a, b, end);
    var b': nat :| Best(raw, |raw|, a', b') && CutAfterNewline(raw, a', b', end');
    if a < b { assert Run(raw, a, b); }
    if a' < b' { assert Run(raw, a', b'); }
    assert a == a' && b == b';
    CutIsUnique(raw, a, b, end, end');
  }

  lemma CutIsUnique(raw: seq<Byte>, a: nat, b: nat, end: nat, end': nat)
    requires CutAfterNewline(raw, a, b, end) && CutAfterNewline(raw, a, b, end')
    ensures end == end'
  {
    if end < end' { assert false; }
    if end' < end { assert false; }
  }

  /** It is text throughout, and empty only when no byte at all is text. */
  lemma SpanIsDecodable(raw: seq<Byte>, start: nat, end: nat)
    requires Span(raw, start, end)
    ensures Run(raw, start, end)
    ensures start == end <==> forall k :: 0 <= k < |raw| ==> !IsText(raw[k])
  {
    var b: nat :| Best(raw, |raw|, start, b) && CutAfterNewline(raw, start, b, end);
    forall k | 0 <= k < |raw| && start == end ensures !IsText(raw[k]) {
      if IsText(raw[k]) { assert Run(raw, k, k + 1); }
    }
  }

  /** A run that starts after a noise byte, or at the start, takes in every run that ends within it. */
  lemma BestAfterRun(raw: seq<Byte>, since: nat, i: nat, a: nat, b: nat)
    requires Best(raw, since, a, b) && since < i && Run(raw, since, i)
    requires since == 0 || !IsText(raw[since - 1])
    ensures if i - since > b - a then Best(raw, i, since, i) else Best(raw, i, a, b)
  {
    forall x: nat, y: nat | Run(raw, x, y) && x < y <= i
      ensures y <= since || since <= x
    {
      if x < since < y { assert false; }
    }
  }

  lemma BestPastNoise(raw: seq<Byte>, i: nat, a: nat, b: nat)
    requires i < |raw| && Best(raw, i, a, b) && !IsText(raw[i])
    ensures Best(raw, i + 1, a, b)
  {
    forall x: nat, y: nat | Run(raw, x, y) && x < y <= i + 1 ensures y <= i {
      if y == i + 1 { assert false; }
    }
  }

  /** Where the run that is still open began. */
  datatype Open = Outside | Since(at: nat)

  method Find(raw: seq<Byte>) returns (start: nat, end: nat)
    ensures Span(raw, start, end)
  {
    start, end := 0, 0;
    var open := Outside;
    for i := 0 to |raw|
      invariant open.Outside? ==> Best(raw, i, start, end) && (i == 0 || !IsText(raw[i - 1]))
      invariant open.Since? ==> open.at < i && Run(raw, open.at, i) && Best(raw, open.at, start, end)
      invariant open.Since? ==> open.at == 0 || !IsText(raw[open.at - 1])
    {
      if Decodable(raw[i]) {
        if open.Outside? { open := Since(i); }
      } else {
        if open.Since? {
          BestAfterRun(raw, open.at, i, start, end);
          if i - open.at > end - start { start, end := open.at, i; }
          open := Outside;
        }
        BestPastNoise(raw, i, start, end);
      }
    }
    if open.Since? {
      BestAfterRun(raw, open.at, |raw|, start, end);
      if |raw| - open.at > end - start { start, end := open.at, |raw|; }
    }
    end := CutBack(raw, start, end);
  }

  /** Just after the last newline, searched from the end. */
  method CutBack(raw: seq<Byte>, a: nat, b: nat) returns (end: nat)
    requires a <= b <= |raw|
    ensures CutAfterNewline(raw, a, b, end)
  {
    var k := b;
    while a < k && raw[k - 1] != 0x0A
      invariant a <= k <= b
      invariant forall j :: k <= j < b ==> raw[j] != 0x0A
    {
      k := k - 1;
    }
    end := if a < k then k else b;
  }
}
