/**
 * Putting systemd-resolved in front of ordinary DNS in nsswitch.conf, against the
 * reader that decides whether the file already does so.
 */
module NssHosts {
  import opened Wrappers
  import opened Text

  const INSERTED := "resolve [!UNAVAIL=return] "
  const APPENDED := " resolve [!UNAVAIL=return]"
  const ACTIONS := "files ["
  const TOKENS := ["resolve", "[!UNAVAIL=return]"]

  // -----------------------------------------------------------------------------
  // Rewriting
  // -----------------------------------------------------------------------------

  function Colon(line: string): (c: nat)
    ensures c <= |line|
    ensures ':' !in line[..c]
    ensures c < |line| ==> line[c] == ':'
  {
    Find(line, ':')
  }

  predicate IsHosts(line: string) {
    Colon(line) < |line| && Trim(line[..Colon(line)]) == "hosts"
  }

  /** The text after the database name. */
  function Policy(line: string): string
    requires IsHosts(line)
  {
    line[Colon(line) + 1..]
  }

  predicate DnsAt(services: string, i: nat) {
    && i + 3 <= |services| && services[i..i + 3] == "dns"
    && (i == 0 || IsAsciiWhite(services[i - 1]))
    && (i + 3 == |services| || IsAsciiWhite(services[i + 3]))
  }

  /** Where the first ordinary `dns` service stands, or the end. */
  function Point(services: string, from: nat := 0): (i: nat)
    requires from <= |services|
    ensures from <= i <= |services|
    ensures i < |services| ==> DnsAt(services, i)
    ensures forall k :: from <= k < i ==> !DnsAt(services, k)
    decreases |services| - from
  {
    if from == |services| || DnsAt(services, from) then from else Point(services, from + 1)
  }

  function Rewritten(line: string): string
    requires IsHosts(line)
  {
    var services := TrimStart(Policy(line));
    var i := Point(services);
    line[..Colon(line)] + ": " + if i < |services| then services[..i] + INSERTED + services[i..] else services + APPENDED
  }

  predicate Refused(line: string) {
    IsHosts(line) && ACTIONS <= TrimStart(Policy(line))
  }

  function Replaced(line: string): string {
    if IsHosts(line) then Rewritten(line) else line
  }

  function ReplacedAll(lines: seq<string>): (r: seq<string>)
    ensures |r| == |lines| && forall i :: 0 <= i < |lines| ==> r[i] == Replaced(lines[i])
  {
    seq(|lines|, i requires 0 <= i < |lines| => Replaced(lines[i]))
  }

  function HostsCount(lines: seq<string>): nat {
    if lines == [] then 0 else (if IsHosts(lines[|lines| - 1]) then 1 else 0) + HostsCount(lines[..|lines| - 1])
  }

  predicate AnyRefused(lines: seq<string>) {
    exists i :: 0 <= i < |lines| && Refused(lines[i])
  }

  /** The whole file: refused unless it has exactly one hosts entry that may be changed. */
  function Integrated(input: string): Option<string> {
    var lines := Lines(input);
    if AnyRefused(lines) || HostsCount(lines) != 1 then None else Some(Unlines(ReplacedAll(lines)))
  }

  lemma {:induction false} UnlinesAppend(lines: seq<string>, line: string)
    ensures Unlines(lines + [line]) == Unlines(lines) + line + "\n"
  {
    if lines == [] {
      assert ([] + [line])[1..] == [];
    } else {
      assert (lines + [line])[1..] == lines[1..] + [line];
      UnlinesAppend(lines[1..], line);
    }
  }

  method IntegrateHosts(input: string) returns (r: Option<string>)
    ensures r == Integrated(input)
  {
    hide Lines, Unlines, IsHosts, Refused, Replaced;
    var lines := Lines(input);
    var found := 0;
    var result := "";
    assert ReplacedAll(lines[..0]) == [];
    assert Unlines([]) == "" by { UnlinesNothing(); }
    for i := 0 to |lines|
      invariant found == HostsCount(lines[..i])
      invariant !AnyRefused(lines[..i])
      invariant result == Unlines(ReplacedAll(lines[..i]))
    {
      assert lines[..i + 1][..i] == lines[..i];
      if IsHosts(lines[i]) {
        found := found + 1;
        if Refused(lines[i]) {
          return None;
        }
      }
      RefusedIsHosts(lines[i]);
      UnlinesAppend(ReplacedAll(lines[..i]), Replaced(lines[i]));
      assert ReplacedAll(lines[..i + 1]) == ReplacedAll(lines[..i]) + [Replaced(lines[i])];
      result := result + Replaced(lines[i]) + "\n";
    }
    assert lines[..|lines|] == lines;
    if found != 1 {
      return None;
    }
    return Some(result);
  }

  lemma UnlinesNothing()
    ensures Unlines([]) == ""
  {
  }

  lemma RefusedIsHosts(line: string)
    ensures Refused(line) ==> IsHosts(line)
  {
  }

  // -----------------------------------------------------------------------------
  // Detecting
  // -----------------------------------------------------------------------------

  function IndexOf(words: seq<string>, word: string): (i: nat)
    ensures i <= |words|
    ensures i < |words| <==> word in words
  {
    if words == [] || words[0] == word then 0 else 1 + IndexOf(words[1..], word)
  }

  /** `resolve` is listed, and before any `dns`. */
  predicate ResolveFirst(words: seq<string>) {
    IndexOf(words, "resolve") < IndexOf(words, "dns")
  }

  function BeforeHash(line: string): string {
    line[..Find(line, '#')]
  }

  /** The services of the first hosts entry, comments cut off. */
  function FirstHosts(lines: seq<string>): Option<seq<string>> {
    if lines == [] then None
    else if IsHosts(BeforeHash(lines[0])) then Some(Words(Policy(BeforeHash(lines[0]))))
    else FirstHosts(lines[1..])
  }

  function FirstServer(lines: seq<string>): Option<string> {
    if lines == [] then None
    else
      var fields := Words(BeforeHash(lines[0]));
      if |fields| > 1 && fields[0] == "nameserver" then Some(fields[1]) else FirstServer(lines[1..])
  }

  predicate ResolverStub(resolv: string) {
    var server := FirstServer(Lines(resolv));
    server == Some("127.0.0.53") || server == Some("127.0.0.54")
  }

  predicate DnsIntegrated(nsswitch: string, resolv: string) {
    var hosts := FirstHosts(Lines(nsswitch));
    (hosts.Some? && ResolveFirst(hosts.value)) || ResolverStub(resolv)
  }

  // -----------------------------------------------------------------------------
  // The service tokens of the rewritten line
  // -----------------------------------------------------------------------------

  predicate IsWord(word: string) {
    word != "" && forall i :: 0 <= i < |word| ==> !IsWhite(word[i])
  }

  lemma OneWord(word: string)
    requires IsWord(word)
    ensures Words(word) == [word]
  {
    var n := Span(word, false);
    assert n == |word|;
    assert word[..n] == word && word[n..] == "";
  }

  lemma TwoWords(a: string, b: string)
    requires IsWord(a) && IsWord(b)
    ensures Words(a + (" " + (b + " "))) == [a, b] && Words(" " + (a + (" " + b))) == [a, b]
  {
    hide Words, IsWord;
    Blanks();
    OneWord(a);
    OneWord(b);
    WordsConcat(b, " ");
    WordsConcat(" ", b + " ");
    WordsConcat(a, " " + (b + " "));
    WordsConcat(" ", b);
    WordsConcat(a, " " + b);
    WordsConcat(" ", a + (" " + b));
  }

  lemma ResolveIsWord()
    ensures IsWord("resolve")
  {
  }

  lemma ActionIsWord()
    ensures IsWord("[!UNAVAIL=return]")
  {
  }

  lemma InsertedWords()
    ensures Words(INSERTED) == TOKENS && Words(APPENDED) == TOKENS
  {
    hide Words, IsWord;
    ResolveIsWord();
    ActionIsWord();
    TwoWords("resolve", "[!UNAVAIL=return]");
    assert INSERTED == "resolve" + (" " + ("[!UNAVAIL=return]" + " "));
    assert APPENDED == " " + ("resolve" + (" " + "[!UNAVAIL=return]"));
  }

  /** The services up to and from the point where the tokens go in. */
  function Before(line: string): seq<string>
    requires IsHosts(line)
  {
    var services := TrimStart(Policy(line));
    Words(services[..Point(services)])
  }

  function After(line: string): seq<string>
    requires IsHosts(line)
  {
    var services := TrimStart(Policy(line));
    Words(services[Point(services)..])
  }

  lemma PointSeparates(services: string)
    ensures var i := Point(services);
            i == 0 || i == |services| || IsWhite(services[..i][i - 1])
  {
  }

  lemma OriginalTokens(line: string)
    requires IsHosts(line)
    ensures Words(Policy(line)) == Before(line) + After(line)
  {
    hide Words, Span, Point, IsHosts;
    var services := TrimStart(Policy(line));
    var i := Point(services);
    WordsTrimmed(Policy(line));
    PointSeparates(services);
    WordsConcat(services[..i], services[i..]);
    assert services[..i] + services[i..] == services;
  }

  /** The text after the colon of a rewritten line. */
  function Inserted(services: string): string {
    var i := Point(services);
    " " + if i < |services| then services[..i] + INSERTED + services[i..] else services + APPENDED
  }

  lemma InsertedTokens(services: string)
    ensures var i := Point(services);
            Words(Inserted(services)) == Words(services[..i]) + TOKENS + Words(services[i..])
  {
    hide Words, Span, Point;
    var i := Point(services);
    var pre, post := services[..i], services[i..];
    InsertedWords();
    assert Words(" ") == [] && Words("") == [] by { Blanks(); }
    if i < |services| {
      PointSeparates(services);
      WordsConcat(INSERTED, post);
      WordsConcat(pre, INSERTED + post);
      WordsConcat(" ", pre + (INSERTED + post));
      assert Inserted(services) == " " + (pre + (INSERTED + post));
    } else {
      assert pre == services && post == "";
      WordsConcat(services, APPENDED);
      WordsConcat(" ", services + APPENDED);
    }
  }

  lemma Blanks()
    ensures Words(" ") == [] && Words("") == [] && Words("\r") == []
  {
  }

  lemma StripKeepsWords(s: string)
    ensures Words(StripCr(s)) == Words(s)
  {
    hide Words;
    Blanks();
    if s != "" && s[|s| - 1] == '\r' {
      assert s == StripCr(s) + "\r";
      WordsConcat(StripCr(s), "\r");
    }
  }

  lemma InsertedLacks(services: string, c: char)
    requires c !in services && c !in INSERTED && c !in APPENDED
    ensures c !in Inserted(services)
  {
    hide Point;
    assert ' ' in INSERTED by { assert INSERTED[7] == ' '; }
  }

  lemma TrimStartLacks(s: string, c: char)
    requires c !in s
    ensures c !in TrimStart(s)
  {
    hide Span;
  }

  lemma RewrittenParts(line: string)
    requires IsHosts(line)
    ensures Rewritten(line) == line[..Colon(line)] + ":" + Inserted(TrimStart(Policy(line)))
  {
    hide Point, Span, Trim;
  }

  /** A database name, a colon and a text are read back as such. */
  lemma ReadsBack(name: string, text: string)
    requires ':' !in name && Trim(name) == "hosts"
    ensures IsHosts(name + ":" + text) && Policy(name + ":" + text) == text
  {
    hide Trim;
    var s := name + ":" + text;
    assert s[|name|] == ':';
    forall k | 0 <= k < |name| ensures s[k] != ':' {
      assert s[k] == name[k];
    }
    assert Colon(s) == |name| && s[..|name|] == name;
  }

  lemma StripInside(head: string, text: string)
    requires text != ""
    ensures StripCr(head + text) == head + StripCr(text)
  {
  }

  lemma UncommentedIsWhole(line: string)
    requires '#' !in line
    ensures BeforeHash(line) == line
  {
    assert Find(line, '#') == |line|;
  }

  /** The rewritten line keeps its database and gains the two tokens. */
  lemma RewrittenTokens(line: string)
    requires IsHosts(line)
    ensures var read := StripCr(Rewritten(line));
            IsHosts(read) && Words(Policy(read)) == Before(line) + TOKENS + After(line)
  {
    hide Words, TrimStart, Point, Trim, StripCr, Inserted, Rewritten;
    var services := TrimStart(Policy(line));
    var name, text := line[..Colon(line)], Inserted(services);
    RewrittenParts(line);
    InsertedIsText(services);
    StripInside(name + ":", text);
    ReadsBack(name, StripCr(text));
    StripKeepsWords(text);
    InsertedTokens(services);
  }

  lemma RewrittenLacks(line: string, c: char)
    requires IsHosts(line) && c !in line && c !in INSERTED && c !in APPENDED && c != ':'
    ensures c !in Rewritten(line)
  {
    hide TrimStart, Inserted, Rewritten, IsHosts;
    RewrittenParts(line);
    TrimStartLacks(Policy(line), c);
    InsertedLacks(TrimStart(Policy(line)), c);
  }

  /** Without a comment the reader of the file sees the whole rewritten line. */
  lemma RewrittenReads(line: string)
    requires IsHosts(line) && '#' !in line
    ensures var read := BeforeHash(StripCr(Rewritten(line)));
            IsHosts(read) && Words(Policy(read)) == Before(line) + TOKENS + After(line)
  {
    hide Words, IsHosts, StripCr, BeforeHash, Rewritten, Before, After;
    RewrittenTokens(line);
    assert '#' !in INSERTED && '#' !in APPENDED;
    RewrittenLacks(line, '#');
    StripLacks(Rewritten(line), '#');
    UncommentedIsWhole(StripCr(Rewritten(line)));
  }

  lemma InsertedIsText(services: string)
    ensures Inserted(services) != ""
  {
  }

  lemma StripLacks(s: string, c: char)
    requires c !in s
    ensures c !in StripCr(s)
  {
  }

  lemma {:induction false} IndexOfConcat(a: seq<string>, b: seq<string>, word: string)
    ensures IndexOf(a + b, word) == if word in a then IndexOf(a, word) else |a| + IndexOf(b, word)
  {
    if a == [] {
      assert a + b == b;
    } else {
      assert (a + b)[1..] == a[1..] + b;
      IndexOfConcat(a[1..], b, word);
    }
  }

  /** The inserted tokens take effect unless a `dns` already stands before them. */
  lemma TokensResolve(before: seq<string>, after: seq<string>)
    ensures ResolveFirst(before + TOKENS + after) <==> "dns" !in before || ResolveFirst(before)
  {
    assert before + TOKENS + after == before + (TOKENS + after);
    IndexOfConcat(before, TOKENS + after, "resolve");
    IndexOfConcat(before, TOKENS + after, "dns");
    assert (TOKENS + after)[0] == "resolve" && "resolve" != "dns";
  }

  // -----------------------------------------------------------------------------
  // The whole file
  // -----------------------------------------------------------------------------

  /** The last hosts entry, which is the only one when there is exactly one. */
  function HostsIndex(lines: seq<string>): (k: nat)
    requires HostsCount(lines) > 0
    ensures k < |lines| && IsHosts(lines[k])
  {
    if IsHosts(lines[|lines| - 1]) then |lines| - 1 else HostsIndex(lines[..|lines| - 1])
  }

  lemma {:induction false} NoHosts(lines: seq<string>, i: nat)
    requires HostsCount(lines) == 0 && i < |lines|
    ensures !IsHosts(lines[i])
  {
    hide IsHosts;
    if i < |lines| - 1 {
      NoHosts(lines[..|lines| - 1], i);
    }
  }

  lemma {:induction false} OnlyHosts(lines: seq<string>, i: nat)
    requires HostsCount(lines) == 1 && i < |lines| && i != HostsIndex(lines)
    ensures !IsHosts(lines[i])
  {
    hide IsHosts;
    var init := lines[..|lines| - 1];
    if IsHosts(lines[|lines| - 1]) {
      NoHosts(init, i);
    } else if i < |lines| - 1 {
      OnlyHosts(init, i);
    }
  }

  /** The hosts entry of a file that can be integrated. */
  function HostsLine(input: string): (line: string)
    requires Integrated(input).Some?
    ensures IsHosts(line)
  {
    Lines(input)[HostsIndex(Lines(input))]
  }

  /** Cutting a comment or a carriage return makes no line a hosts entry. */
  lemma NoNewHosts(line: string)
    requires !IsHosts(line)
    ensures !IsHosts(BeforeHash(StripCr(line)))
  {
    hide Trim;
    var read := BeforeHash(StripCr(line));
    assert read <= line;
    if Colon(read) < |read| {
      PrefixColon(read, line);
    }
  }

  lemma PrefixColon(read: string, line: string)
    requires read <= line && Colon(read) < |read|
    ensures Colon(line) == Colon(read) && line[..Colon(line)] == read[..Colon(read)]
  {
    assert line[Colon(read)] == ':';
    assert forall i :: 0 <= i < Colon(read) ==> line[i] == read[i] && line[i] in line && read[i] in read[..Colon(read)];
  }

  lemma {:induction false} FirstHostsAt(lines: seq<string>, k: nat)
    requires k < |lines| && IsHosts(BeforeHash(lines[k]))
    requires forall i :: 0 <= i < k ==> !IsHosts(BeforeHash(lines[i]))
    ensures FirstHosts(lines) == Some(Words(Policy(BeforeHash(lines[k]))))
  {
    hide IsHosts, BeforeHash, Words;
    if k > 0 {
      FirstHostsAt(lines[1..], k - 1);
    }
  }

  /** What the next reader of the written file sees, line by line. */
  lemma WrittenLines(input: string)
    requires Integrated(input).Some?
    ensures Lines(Integrated(input).value) == StripAll(ReplacedAll(Lines(input)))
  {
    hide Lines, Unlines, IsHosts, Rewritten;
    var lines := Lines(input);
    LinesHaveNoBreaks(input);
    assert '\n' !in INSERTED && '\n' !in APPENDED;
    forall i | 0 <= i < |lines| ensures '\n' !in ReplacedAll(lines)[i] {
      assert lines[i] in lines;
      if IsHosts(lines[i]) {
        RewrittenLacks(lines[i], '\n');
      }
    }
    LinesOfUnlines(ReplacedAll(lines));
  }

  /** Every other line is kept in place, except for a carriage return at its very end. */
  lemma OtherLinesKept(input: string, i: nat)
    requires Integrated(input).Some? && i < |Lines(input)| && !IsHosts(Lines(input)[i])
    ensures var written := Lines(Integrated(input).value);
            && |written| == |Lines(input)|
            && written[i] == StripCr(Lines(input)[i])
            && (written[i] == Lines(input)[i] <==> !EndsInCr(Lines(input)[i]))
  {
    hide Lines, Integrated, IsHosts;
    WrittenLines(input);
  }

  predicate EndsInCr(line: string) {
    line != "" && line[|line| - 1] == '\r'
  }

  /** The service tokens gain exactly the two inserted ones, and none is lost. */
  lemma TokensInserted(input: string)
    requires Integrated(input).Some? && '#' !in HostsLine(input)
    ensures var line := HostsLine(input);
            && Words(Policy(line)) == Before(line) + After(line)
            && FirstHosts(Lines(Integrated(input).value)) == Some(Before(line) + TOKENS + After(line))
  {
    hide Lines, IsHosts, Rewritten, StripCr, BeforeHash, Words, Before, After, Unlines, HostsIndex;
    var lines := Lines(input);
    var k := HostsIndex(lines);
    WrittenLines(input);
    OriginalTokens(lines[k]);
    RewrittenReads(lines[k]);
    var written := StripAll(ReplacedAll(lines));
    forall i | 0 <= i < k ensures !IsHosts(BeforeHash(written[i])) {
      OnlyHosts(lines, i);
      NoNewHosts(lines[i]);
    }
    FirstHostsAt(written, k);
  }

  /** A rewrite never leaves the file as it was. */
  lemma RewriteChanges(input: string)
    requires Integrated(input).Some?
    ensures Integrated(input).value != input
  {
    hide Lines, Unlines, IsHosts, Rewritten, StripCr, Words, Before, After;
    var k := HostsIndex(Lines(input));
    var line := Lines(input)[k];
    WrittenLines(input);
    RewrittenTokens(line);
    OriginalTokens(line);
    assert StripAll(ReplacedAll(Lines(input)))[k] == StripCr(Rewritten(line));
    assert StripCr(Rewritten(line)) != line;
  }

  /**
   * A rewritten file is detected as integrated exactly when no whitespace-separated
   * `dns` was overlooked before the insertion, or `resolve` already preceded it.
   */
  lemma IntegrationIsDetected(input: string, resolv: string)
    requires Integrated(input).Some? && '#' !in HostsLine(input)
    ensures DnsIntegrated(Integrated(input).value, resolv)
            <==> ("dns" !in Before(HostsLine(input)) || ResolveFirst(Before(HostsLine(input))) || ResolverStub(resolv))
  {
    hide Lines, Integrated, IsHosts, Before, After, ResolveFirst, ResolverStub, FirstHosts, HostsLine;
    TokensInserted(input);
    TokensResolve(Before(HostsLine(input)), After(HostsLine(input)));
  }

  predicate OrdinarySpaces(line: string) {
    forall i :: 0 <= i < |line| && IsWhite(line[i]) ==> IsAsciiWhite(line[i])
  }

  predicate Stands(s: string, j: nat, word: string) {
    && j + |word| <= |s| && s[j..j + |word|] == word
    && (j == 0 || IsWhite(s[j - 1]))
    && (j + |word| == |s| || IsWhite(s[j + |word|]))
  }

  lemma StandsShift(s: string, m: nat, j: nat, word: string)
    requires 0 < m <= |s| && IsWhite(s[m - 1]) && Stands(s[m..], j, word)
    ensures Stands(s, j + m, word)
  {
    hide IsWhite;
    assert s[j + m..j + m + |word|] == s[m..][j..j + |word|];
  }

  /** Every word stands in the text between whitespace. */
  lemma {:induction false} WordStands(s: string, word: string) returns (j: nat)
    requires word in Words(s)
    ensures Stands(s, j, word)
    decreases |s|
  {
    hide Span, IsWhite, Stands;
    if IsWhite(s[0]) {
      j := WordStands(s[1..], word);
      StandsShift(s, 1, j, word);
      j := j + 1;
    } else {
      var n := Span(s, false);
      if word == s[..n] {
        j := 0;
        FirstWordStands(s);
      } else {
        assert word in Words(s[n..]);
        assert s[n..][1..] == s[n + 1..];
        j := WordStands(s[n + 1..], word);
        StandsShift(s, n + 1, j, word);
        j := j + n + 1;
      }
    }
  }

  lemma FirstWordStands(s: string)
    ensures Stands(s, 0, s[..Span(s, false)])
  {
  }

  lemma StandingDns(services: string, j: nat)
    requires OrdinarySpaces(services) && Stands(services[..Point(services)], j, "dns")
    ensures DnsAt(services, j) && j < Point(services)
  {
    hide IsWhite, IsAsciiWhite;
    var pre := services[..Point(services)];
    assert pre[j + 2] == "dns"[2] == services[j + 2];
    assert services[j..j + 3] == pre[j..j + 3];
    PointSeparates(services);
    SIsLetter();
  }

  lemma SuffixOrdinary(s: string, n: nat)
    requires n <= |s| && OrdinarySpaces(s)
    ensures OrdinarySpaces(s[n..])
  {
    hide IsWhite, IsAsciiWhite;
  }

  /** With ordinary spaces the rewrite overlooks no `dns`. */
  lemma NoDnsOverlooked(line: string)
    requires IsHosts(line) && OrdinarySpaces(line)
    ensures "dns" !in Before(line)
  {
    hide Trim, Words, OrdinarySpaces, Stands;
    SuffixOrdinary(line, Colon(line) + 1);
    SuffixOrdinary(Policy(line), Span(Policy(line), true));
    if "dns" in Before(line) {
      var services := TrimStart(Policy(line));
      var j := WordStands(services[..Point(services)], "dns");
      StandingDns(services, j);
      assert false;
    }
  }

  lemma SIsLetter()
    ensures !IsWhite('s')
  {
  }

  /** Hence a file with ordinary spaces is integrated by one rewrite. */
  lemma OneRewriteSuffices(input: string, resolv: string)
    requires Integrated(input).Some? && '#' !in HostsLine(input) && OrdinarySpaces(HostsLine(input))
    ensures DnsIntegrated(Integrated(input).value, resolv)
  {
    hide Integrated, HostsLine, DnsIntegrated, Before;
    IntegrationIsDetected(input, resolv);
    NoDnsOverlooked(HostsLine(input));
  }

  const ODD_SERVICES := "a\U{00A0}dns"
  const ODD_FILE := "hosts:a\U{00A0}dns"

  lemma OneLine(s: string)
    requires s != "" && '\n' !in s
    ensures Lines(s) == [s]
  {
    assert Find(s, '\n') == |s|;
  }

  lemma TrimmedWord(word: string)
    requires IsWord(word)
    ensures Trim(word) == word
  {
    assert Span(word, true) == 0 && word[0..] == word;
  }

  lemma OddLine()
    ensures Lines(ODD_FILE) == [ODD_FILE]
    ensures IsHosts(ODD_FILE) && Policy(ODD_FILE) == ODD_SERVICES && '#' !in ODD_FILE
  {
    hide Lines, IsHosts, Policy, Trim;
    OneLine(ODD_FILE);
    TrimmedWord("hosts");
    ReadsBack("hosts", ODD_SERVICES);
    assert ODD_FILE == "hosts" + ":" + ODD_SERVICES;
  }

  lemma OddPoint()
    ensures TrimStart(ODD_SERVICES) == ODD_SERVICES && Point(ODD_SERVICES) == |ODD_SERVICES|
  {
    var i := Point(ODD_SERVICES);
    assert Span(ODD_SERVICES, true) == 0;
    assert ODD_SERVICES[0] == 'a' && ODD_SERVICES[1] == '\U{00A0}';
    assert !DnsAt(ODD_SERVICES, 0) && !DnsAt(ODD_SERVICES, 1) && !DnsAt(ODD_SERVICES, 2);
    assert !DnsAt(ODD_SERVICES, 3) && !DnsAt(ODD_SERVICES, 4);
  }

  lemma BlankWords(c: char)
    requires IsWhite(c)
    ensures Words([c]) == []
  {
  }

  lemma OddWords()
    ensures Words(ODD_SERVICES) == ["a", "dns"]
  {
    hide Words;
    OneWord("a");
    OneWord("dns");
    BlankWords('\U{00A0}');
    WordsConcat("a", "\U{00A0}");
    WordsConcat("a" + "\U{00A0}", "dns");
    assert ODD_SERVICES == "a" + "\U{00A0}" + "dns";
  }

  /** A `dns` set off by a no-break space is overlooked, and the file stays unintegrated. */
  lemma NoBreakSpaceIsOverlooked(resolv: string)
    requires !ResolverStub(resolv)
    ensures Integrated(ODD_FILE).Some? && '#' !in HostsLine(ODD_FILE)
    ensures !DnsIntegrated(Integrated(ODD_FILE).value, resolv)
  {
    hide ResolverStub, Lines, IsHosts, Words, Point, TrimStart, DnsIntegrated, Rewritten, Unlines;
    OddLine();
    OddPoint();
    OddWords();
    assert HostsCount([ODD_FILE]) == 1;
    assert Integrated(ODD_FILE).Some? && HostsLine(ODD_FILE) == ODD_FILE;
    assert ODD_SERVICES[..|ODD_SERVICES|] == ODD_SERVICES;
    assert Before(ODD_FILE) == ["a", "dns"];
    assert ["a", "dns"][1..] == ["dns"] && ["dns"][1..] == [];
    assert IndexOf(["dns"], "resolve") == 1 && IndexOf(["dns"], "dns") == 0;
    IntegrationIsDetected(ODD_FILE, resolv);
  }

  // -----------------------------------------------------------------------------
  // Configuring the host
  // -----------------------------------------------------------------------------

  function Lower(c: char): char {
    if 'A' <= c <= 'Z' then c + ' ' else c
  }

  /** Another tool claims the file. */
  predicate Managed(contents: string) {
    exists i :: 0 <= i <= |contents| - 12 && GeneratedAt(contents, i)
  }

  predicate GeneratedAt(contents: string, i: nat) {
    i + 12 <= |contents| && forall k :: 0 <= k < 12 ==> Lower(contents[i + k]) == "generated by"[k]
  }

  /** A replacement that fails may already be in place: the directory is synced last. */
  datatype Write = Absent | Unsynced | Synced

  /**
   * What one attempt meets: privileges and ownership, the fate of the two writes, and edits by
   * the administrator: before the file is read again, between that and the replacement, during
   * verification, and between the last reading and the undoing write.
   */
  datatype Circumstance = Circumstance(
    privileged: bool, owned: bool, resolv: string,
    edited: Option<string>, slipped: Option<string>, write: Write,
    meddled: Option<string>, verified: bool, crossed: Option<string>, undo: Write)
  {
    predicate Undisturbed() {
      edited.None? && slipped.None? && meddled.None? && crossed.None?
    }
  }

  function Seen(contents: string, edit: Option<string>): string {
    if edit.Some? then edit.value else contents
  }

  function Landed(contents: string, replacement: string, write: Write): string {
    if write.Absent? then contents else replacement
  }

  /** Replacing `contents` by `replacement`, with verification and undo. */
  function Updated(contents: string, replacement: string, c: Circumstance): (string, bool) {
    var found := Seen(contents, c.edited);
    if found != contents then (found, false)
    else
      var written := Landed(Seen(found, c.slipped), replacement, c.write);
      if !c.write.Synced? then (written, false)
      else
        var now := Seen(written, c.meddled);
        if c.verified then (now, true)
        else if now != replacement then (now, false)
        else (Landed(Seen(now, c.crossed), contents, c.undo), false)
  }

  /** The attempt gets as far as replacing the file. */
  predicate Rewrites(contents: string, c: Circumstance) {
    && c.privileged && !DnsIntegrated(contents, c.resolv) && c.owned
    && !Managed(contents) && Integrated(contents).Some?
  }

  /** The file afterwards, and whether the attempt succeeded. */
  function Configured(contents: string, c: Circumstance): (string, bool) {
    if Rewrites(contents, c) then Updated(contents, Integrated(contents).value, c)
    else (contents, c.privileged && DnsIntegrated(contents, c.resolv) && c.verified)
  }

  datatype Window = BeforeReading | BeforeReplacing | Verifying | BeforeUndoing

  /** The last edit that falls into the attempt: a changed file ends it early. */
  function LastEdit(contents: string, replacement: string, c: Circumstance): Option<(Window, string)> {
    if c.edited.Some? && c.edited.value != contents then Some((BeforeReading, c.edited.value))
    else if c.write.Synced? && c.meddled.Some? && (c.verified || c.meddled.value != replacement) then
      Some((Verifying, c.meddled.value))
    else if c.write.Synced? && !c.verified && c.crossed.Some? then Some((BeforeUndoing, c.crossed.value))
    else if c.slipped.Some? then Some((BeforeReplacing, c.slipped.value))
    else None
  }

  /**
   * The last edit of an attempt survives exactly when it does not fall between a reading of the
   * file and a write that then takes effect.
   */
  lemma EditsSurvive(contents: string, c: Circumstance)
    requires Rewrites(contents, c)
    requires var last := LastEdit(contents, Integrated(contents).value, c);
             last.Some? && last.value.1 != contents && last.value.1 != Integrated(contents).value
    ensures var last := LastEdit(contents, Integrated(contents).value, c).value;
            Configured(contents, c).0 == last.1
            <==> match last.0
                 case BeforeReading => true
                 case BeforeReplacing => c.write.Absent?
                 case Verifying => true
                 case BeforeUndoing => c.undo.Absent?
  {
    hide DnsIntegrated, Managed, Integrated;
  }

  /** An edit that lands just before the replacement is lost without a trace. */
  lemma EditIsLost(contents: string, c: Circumstance, edit: string)
    requires Rewrites(contents, c) && c.edited.None? && c.meddled.None? && c.slipped == Some(edit)
    requires c.write.Synced? && c.verified && edit != Integrated(contents).value
    ensures Configured(contents, c) == (Integrated(contents).value, true) && Integrated(contents).value != edit
  {
    hide DnsIntegrated, Managed, Integrated;
  }

  /**
   * Left alone, a failed attempt restores the original file exactly when the first
   * replacement did not fail after taking effect and the undoing write took effect.
   */
  lemma FailureRestores(contents: string, c: Circumstance)
    requires c.Undisturbed() && !Configured(contents, c).1
    ensures Configured(contents, c).0 == contents
            <==> (Rewrites(contents, c) ==> c.write.Absent? || (c.write.Synced? && !c.undo.Absent?))
  {
    hide DnsIntegrated, Managed, Integrated;
    if Integrated(contents).Some? {
      RewriteChanges(contents);
    }
  }

  // -----------------------------------------------------------------------------
  // A second attempt
  // -----------------------------------------------------------------------------

  lemma TrimStartTwice(s: string)
    ensures TrimStart(TrimStart(s)) == TrimStart(s)
  {
    var t := TrimStart(s);
    assert t != "" ==> t[0] == s[Span(s, true)];
    assert Span(t, true) == 0;
  }

  /** A text that trimming leaves alone starts with no whitespace. */
  lemma TrimmedStarts(s: string)
    requires s == TrimStart(s) && s != ""
    ensures !IsWhite(s[0])
  {
    assert |TrimStart(s)| == |s| - Span(s, true);
  }

  /** One space, then something that is not: trimming takes exactly the space. */
  lemma TrimOneSpace(s: string)
    requires |s| > 1 && s[0] == ' ' && !IsWhite(s[1])
    ensures TrimStart(s) == s[1..]
  {
    assert Span(s, true) == 1;
  }

  predicate StartsPlain(text: string) {
    text != "" && !IsWhite(text[0]) && !(ACTIONS <= text)
  }

  lemma DiffersAt(text: string, j: nat)
    requires j < 7 && j < |text| && text[j] != ACTIONS[j]
    ensures !(ACTIONS <= text)
  {
  }

  lemma SameStart(a: string, b: string)
    requires |a| >= 7 && |b| >= 7 && a[..7] == b[..7]
    ensures ACTIONS <= a <==> ACTIONS <= b
  {
    assert forall t: string :: |t| >= 7 ==> (ACTIONS <= t <==> t[..7] == ACTIONS);
  }

  lemma NoActionLetter(j: nat)
    requires j < 7
    ensures ACTIONS[j] != 'r' && (ACTIONS[j] == ' ' <==> j == 5)
  {
    assert ACTIONS[0] == 'f' && ACTIONS[1] == 'i' && ACTIONS[2] == 'l' && ACTIONS[3] == 'e';
    assert ACTIONS[4] == 's' && ACTIONS[5] == ' ' && ACTIONS[6] == '[';
  }

  /** A rewritten policy starts with a service, and not with actions on `files`. */
  lemma InsertedBefore(services: string, i: nat)
    requires i < |services| && services == TrimStart(services) && !(ACTIONS <= services)
    ensures StartsPlain(services[..i] + INSERTED + services[i..])
  {
    hide IsWhite, TrimStart;
    TrimmedStarts(services);
    RIsLetter();
    var text := services[..i] + INSERTED + services[i..];
    assert i > 0 ==> text[0] == services[0];
    assert text[i] == INSERTED[0] == 'r';
    if i < 7 {
      NoActionLetter(i);
      DiffersAt(text, i);
    } else {
      assert text[..7] == services[..7];
      SameStart(text, services);
    }
  }

  lemma InsertedAfter(services: string)
    requires services == TrimStart(services) && services != "" && !(ACTIONS <= services)
    ensures StartsPlain(services + APPENDED)
  {
    hide IsWhite, TrimStart;
    TrimmedStarts(services);
    var text, n := services + APPENDED, |services|;
    assert text[n] == APPENDED[0] == ' ' && text[n + 1] == APPENDED[1] == 'r';
    if n >= 7 {
      assert text[..7] == services[..7];
      SameStart(text, services);
    } else {
      NoActionLetter(n);
      NoActionLetter(6);
      DiffersAt(text, if n == 5 then 6 else n);
    }
  }

  lemma RIsLetter()
    ensures !IsWhite('r')
  {
  }

  /** Losing a carriage return at the end changes none of this. */
  lemma StripPlain(text: string)
    requires |text| > 1 && StartsPlain(text)
    ensures !(ACTIONS <= TrimStart(StripCr(" " + text)))
  {
    hide IsWhite;
    var s := " " + text;
    var t := StripCr(s);
    assert t[0] == ' ' && t[1] == text[0];
    TrimOneSpace(t);
    assert t[1..] <= text;
  }

  lemma NothingBefore()
    ensures !(ACTIONS <= TrimStart(StripCr(" " + APPENDED)))
  {
    var s := " " + APPENDED;
    assert s[|s| - 1] == ']' && StripCr(s) == s;
    assert s[0] == ' ' && s[1] == ' ' && s[2] == 'r' && !IsWhite('r');
    assert Span(s, true) == 2;
    assert s[2..][0] == 'r';
  }

  lemma InsertedIsNotRefused(services: string)
    requires services == TrimStart(services) && !(ACTIONS <= services)
    ensures !(ACTIONS <= TrimStart(StripCr(Inserted(services))))
  {
    hide Point, StartsPlain, StripCr, TrimStart;
    var i := Point(services);
    if i < |services| {
      InsertedBefore(services, i);
      StripPlain(services[..i] + INSERTED + services[i..]);
    } else if services != "" {
      InsertedAfter(services);
      StripPlain(services + APPENDED);
    } else {
      assert Inserted("") == " " + APPENDED;
      NothingBefore();
    }
  }

  /** A line that was not refused is not refused after its rewrite. */
  lemma RewrittenIsNotRefused(line: string)
    requires IsHosts(line) && !Refused(line)
    ensures !Refused(StripCr(Rewritten(line)))
  {
    hide TrimStart, Inserted, StripCr, Trim, Rewritten;
    var services := TrimStart(Policy(line));
    var name, text := line[..Colon(line)], Inserted(services);
    TrimStartTwice(Policy(line));
    InsertedIsNotRefused(services);
    RewrittenParts(line);
    InsertedIsText(services);
    StripInside(name + ":", text);
    ReadsBack(name, StripCr(text));
  }

  lemma {:induction false} CountOne(lines: seq<string>, k: nat)
    requires k < |lines| && IsHosts(lines[k])
    requires forall i :: 0 <= i < |lines| && i != k ==> !IsHosts(lines[i])
    ensures HostsCount(lines) == 1
  {
    hide IsHosts;
    var n := |lines| - 1;
    if k < n {
      CountOne(lines[..n], k);
    } else {
      CountNone(lines[..n]);
    }
  }

  lemma {:induction false} CountNone(lines: seq<string>)
    requires forall i :: 0 <= i < |lines| ==> !IsHosts(lines[i])
    ensures HostsCount(lines) == 0
  {
    hide IsHosts;
    if lines != [] {
      CountNone(lines[..|lines| - 1]);
    }
  }

  /** Cutting a carriage return makes no line a hosts entry. */
  lemma StripIsNoHosts(line: string)
    requires !IsHosts(line)
    ensures !IsHosts(StripCr(line))
  {
    hide Trim;
    if Colon(StripCr(line)) < |StripCr(line)| {
      PrefixColon(StripCr(line), line);
    }
  }

  /** A rewritten file can be rewritten again. */
  lemma IntegratesAgain(input: string)
    requires Integrated(input).Some?
    ensures Integrated(Integrated(input).value).Some?
  {
    hide Lines, IsHosts, Rewritten, StripCr, Unlines, HostsIndex, Words, Before, After, Refused;
    var lines := Lines(input);
    var k := HostsIndex(lines);
    WrittenLines(input);
    var written := StripAll(ReplacedAll(lines));
    RewrittenTokens(lines[k]);
    RewrittenIsNotRefused(lines[k]);
    forall i | 0 <= i < |written| && i != k ensures !IsHosts(written[i]) {
      OnlyHosts(lines, i);
      StripIsNoHosts(lines[i]);
    }
    CountOne(written, k);
    forall i | 0 <= i < |written| ensures !Refused(written[i]) {
      RefusedIsHosts(written[i]);
    }
  }

  /** Nothing that an undisturbed attempt with this resolver configuration does changes the file. */
  ghost predicate LeftAlone(contents: string, resolv: string) {
    forall c: Circumstance :: c.Undisturbed() && c.resolv == resolv ==> Configured(contents, c).0 == contents
  }

  lemma LeftAloneIff(contents: string, resolv: string)
    ensures LeftAlone(contents, resolv)
            <==> DnsIntegrated(contents, resolv) || Managed(contents) || Integrated(contents).None?
  {
    hide DnsIntegrated, Managed, Integrated;
    if !DnsIntegrated(contents, resolv) && !Managed(contents) && Integrated(contents).Some? {
      var c := Circumstance(true, true, resolv, None, None, Synced, None, true, None, Synced);
      assert Configured(contents, c).0 == Integrated(contents).value;
      RewriteChanges(contents);
    }
  }

  /**
   * After a success, further attempts leave the file alone exactly when the first one did not
   * have to rewrite it, or left no whitespace-separated `dns` before its insertion, or one that
   * `resolve` already preceded, or when another tool claims the result.
   */
  lemma SecondConfigureRewritesNothing(contents: string, c: Circumstance)
    requires c.Undisturbed() && Configured(contents, c).1
    requires Rewrites(contents, c) ==> '#' !in HostsLine(contents)
    ensures LeftAlone(Configured(contents, c).0, c.resolv)
            <==> (Rewrites(contents, c) ==>
                    || Managed(Configured(contents, c).0)
                    || "dns" !in Before(HostsLine(contents)) || ResolveFirst(Before(HostsLine(contents))))
  {
    hide DnsIntegrated, Managed, Integrated, HostsLine, Before, ResolveFirst, LeftAlone;
    var after := Configured(contents, c).0;
    LeftAloneIff(after, c.resolv);
    if Rewrites(contents, c) {
      assert after == Integrated(contents).value;
      IntegratesAgain(contents);
      IntegrationIsDetected(contents, c.resolv);
      assert !ResolverStub(c.resolv) by { StubIsIntegrated(contents, c.resolv); }
    }
  }

  lemma StubIsIntegrated(contents: string, resolv: string)
    ensures ResolverStub(resolv) ==> DnsIntegrated(contents, resolv)
  {
  }

  class Host {
    var nsswitch: string

    method Configure(c: Circumstance) returns (ok: bool)
      modifies this
      ensures (nsswitch, ok) == Configured(old(nsswitch), c)
    {
      hide DnsIntegrated, Managed, Integrated;
      if !c.privileged {
        return false;
      }
      if DnsIntegrated(nsswitch, c.resolv) {
        return c.verified;
      }
      if !c.owned || Managed(nsswitch) {
        return false;
      }
      var original := nsswitch;
      var replacement := IntegrateHosts(original);
      if replacement.None? {
        return false;
      }
      ok := UpdateVerified(original, replacement.value, c);
    }

    /** Replaces the file and puts the original back when verification fails. The edits of
        `c` happen between the steps. */
    method UpdateVerified(original: string, replacement: string, c: Circumstance) returns (ok: bool)
      requires nsswitch == original
      modifies this
      ensures (nsswitch, ok) == Updated(original, replacement, c)
    {
      nsswitch := Seen(nsswitch, c.edited);
      if nsswitch != original {
        return false;
      }
      nsswitch := Seen(nsswitch, c.slipped);
      nsswitch := Landed(nsswitch, replacement, c.write);
      if !c.write.Synced? {
        return false;
      }
      nsswitch := Seen(nsswitch, c.meddled);
      if c.verified {
        return true;
      }
      if nsswitch == replacement {
        nsswitch := Seen(nsswitch, c.crossed);
        nsswitch := Landed(nsswitch, original, c.undo);
      }
      return false;
    }
  }
}
