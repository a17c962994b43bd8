/** Rust's string operations on sequences of Unicode scalar values. */
module Text {

  /** Bytes of one character in UTF-8. */
  function Utf8(c: char): (n: nat)
    ensures 1 <= n <= 4
  {
    var code := c as int;
    if code < 0x80 then 1 else if code < 0x800 then 2 else if code < 0x10000 then 3 else 4
  }

  function Bytes(s: string): (n: nat)
    ensures |s| <= n <= 4 * |s|
  {
    if s == "" then 0 else Utf8(s[0]) + Bytes(s[1..])
  }

  predicate IsAsciiWhite(c: char) {
    var code := c as int;
    code == 9 || code == 10 || code == 12 || code == 13 || code == 32
  }

  /** The Unicode White_Space property. */
  predicate IsWhite(c: char) {
    var code := c as int;
    || 9 <= code <= 13 || code == 32 || code == 0x85 || code == 0xA0 || code == 0x1680
    || 0x2000 <= code <= 0x200A || code == 0x2028 || code == 0x2029 || code == 0x202F
    || code == 0x205F || code == 0x3000
  }

  /** Position of the first `c`, or the length. */
  function Find(s: string, c: char): (i: nat)
    ensures i <= |s|
    ensures forall k :: 0 <= k < i ==> s[k] != c
    ensures i < |s| ==> s[i] == c
  {
    if s == "" || s[0] == c then 0 else 1 + Find(s[1..], c)
  }

  // -----------------------------------------------------------------------------
  // Lines
  // -----------------------------------------------------------------------------

  function StripCr(s: string): string {
    if s != "" && s[|s| - 1] == '\r' then s[..|s| - 1] else s
  }

  /** `lines`: every line ending is removed, and a carriage return with it. */
  function Lines(s: string): seq<string>
    decreases |s|
  {
    if s == "" then []
    else
      var i := Find(s, '\n');
      if i == |s| then [s] else [StripCr(s[..i])] + Lines(s[i + 1..])
  }

  function Unlines(lines: seq<string>): string {
    if lines == [] then "" else lines[0] + "\n" + Unlines(lines[1..])
  }

  function StripAll(lines: seq<string>): (r: seq<string>)
    ensures |r| == |lines| && forall i :: 0 <= i < |lines| ==> r[i] == StripCr(lines[i])
  {
    seq(|lines|, i requires 0 <= i < |lines| => StripCr(lines[i]))
  }

  lemma {:induction false} LinesHaveNoBreaks(s: string)
    ensures forall l :: l in Lines(s) ==> '\n' !in l
    decreases |s|
  {
    if s != "" {
      var i := Find(s, '\n');
      if i < |s| {
        LinesHaveNoBreaks(s[i + 1..]);
      }
    }
  }

  lemma LinesCons(line: string, rest: string)
    requires '\n' !in line
    ensures Lines(line + "\n" + rest) == [StripCr(line)] + Lines(rest)
  {
    var s := line + "\n" + rest;
    var i := Find(s, '\n');
    assert s[|line|] == '\n';
    forall k | 0 <= k < |line| ensures s[k] != '\n' {
      assert s[k] == line[k] && line[k] in line;
    }
    assert s[..|line|] == line && s[|line| + 1..] == rest;
  }

  /** Reading back written lines loses at most one trailing carriage return per line. */
  lemma {:induction false} LinesOfUnlines(lines: seq<string>)
    requires forall l :: l in lines ==> '\n' !in l
    ensures Lines(Unlines(lines)) == StripAll(lines)
  {
    if lines != [] {
      LinesOfUnlines(lines[1..]);
      LinesCons(lines[0], Unlines(lines[1..]));
      assert StripAll(lines) == [StripCr(lines[0])] + StripAll(lines[1..]);
    }
  }

  // -----------------------------------------------------------------------------
  // Words
  // -----------------------------------------------------------------------------

  /** Length of the leading run of characters that are, or are not, whitespace. */
  function Span(s: string, white: bool): (n: nat)
    ensures n <= |s|
    ensures forall k :: 0 <= k < n ==> IsWhite(s[k]) == white
    ensures n < |s| ==> IsWhite(s[n]) != white
  {
    if s == "" || IsWhite(s[0]) != white then 0 else 1 + Span(s[1..], white)
  }

  function TrimStart(s: string): string {
    s[Span(s, true)..]
  }

  function TrimEnd(s: string): string
    decreases |s|
  {
    if s != "" && IsWhite(s[|s| - 1]) then TrimEnd(s[..|s| - 1]) else s
  }

  function Trim(s: string): string {
    TrimEnd(TrimStart(s))
  }

  /** `split_whitespace`. */
  function Words(s: string): seq<string>
    decreases |s|
  {
    if s == "" then []
    else if IsWhite(s[0]) then Words(s[1..])
    else
      var n := Span(s, false);
      [s[..n]] + Words(s[n..])
  }

  lemma {:induction false} SpanConcat(a: string, b: string)
    requires Span(a, false) < |a| || b == "" || IsWhite(b[0])
    ensures Span(a + b, false) == Span(a, false)
  {
    if a != "" && !IsWhite(a[0]) {
      SpanConcat(a[1..], b);
      assert (a + b)[1..] == a[1..] + b;
    }
  }

  /** Words split where whitespace separates the two parts. */
  lemma {:induction false} WordsConcat(a: string, b: string)
    requires a == "" || b == "" || IsWhite(a[|a| - 1]) || IsWhite(b[0])
    ensures Words(a + b) == Words(a) + Words(b)
    decreases |a|
  {
    hide Span;
    if a == "" {
      assert a + b == b;
    } else if IsWhite(a[0]) {
      assert (a + b)[1..] == a[1..] + b;
      WordsConcat(a[1..], b);
    } else {
      var n := Span(a, false);
      assert n == |a| ==> !IsWhite(a[|a| - 1]);
      SpanConcat(a, b);
      assert (a + b)[..n] == a[..n] && (a + b)[n..] == a[n..] + b;
      assert n > 0;
      WordsConcat(a[n..], b);
    }
  }

  lemma {:induction false} WordsTrimmed(s: string)
    ensures Words(TrimStart(s)) == Words(s)
  {
    if s != "" && IsWhite(s[0]) {
      assert TrimStart(s) == TrimStart(s[1..]);
      WordsTrimmed(s[1..]);
    }
  }
}
