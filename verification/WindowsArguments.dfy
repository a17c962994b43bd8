/**
 * The command line of a detached Windows process, and the Microsoft C runtime
 * rules ("Parsing C command-line arguments") that the started program reads it by.
 */
module WindowsArguments {
  import opened Wrappers

  type Unit = u: nat | u < 0x10000
  type Wide = seq<Unit>

  const NUL: Unit := 0
  const TAB: Unit := 9
  const SPACE: Unit := 32
  const QUOTE: Unit := 34
  const SLASH: Unit := 92

  function Slashes(n: nat): (r: Wide)
    ensures |r| == n && forall i :: 0 <= i < n ==> r[i] == SLASH
  {
    seq(n, _ => SLASH)
  }

  // -----------------------------------------------------------------------------
  // Writing
  // -----------------------------------------------------------------------------

  /** The escaped form of `value` after `slashes` backslashes not yet written. */
  function Escaped(value: Wide, slashes: nat): Wide
    decreases |value|
  {
    if value == [] then Slashes(2 * slashes)
    else if value[0] == SLASH then Escaped(value[1..], slashes + 1)
    else
      Slashes(if value[0] == QUOTE then 2 * slashes + 1 else slashes) + [value[0]] + Escaped(value[1..], 0)
  }

  function Quoted(value: Wide): Wide {
    [QUOTE] + Escaped(value, 0) + [QUOTE]
  }

  function Listed(arguments: seq<Wide>): Wide {
    if arguments == [] then [] else [SPACE] + Quoted(arguments[0]) + Listed(arguments[1..])
  }

  function Assembled(program: Wide, arguments: seq<Wide>): Wide {
    Quoted(program) + Listed(arguments)
  }

  predicate NulFree(values: seq<Wide>) {
    forall v :: v in values ==> NUL !in v
  }

  // -----------------------------------------------------------------------------
  // Reading
  // -----------------------------------------------------------------------------

  predicate IsBlank(u: Unit) {
    u == SPACE || u == TAB
  }

  /** What a C program sees of a buffer. */
  function Visible(buffer: Wide): Wide {
    if buffer == [] || buffer[0] == NUL then [] else [buffer[0]] + Visible(buffer[1..])
  }

  /** The program name: quotes group and vanish, backslashes mean nothing. */
  function ReadProgram(line: Wide, inside: bool, name: Wide): (Wide, Wide) {
    if line == [] || (!inside && IsBlank(line[0])) then (name, line)
    else if line[0] == QUOTE then ReadProgram(line[1..], !inside, name)
    else ReadProgram(line[1..], inside, name + [line[0]])
  }

  /** One further argument, after `slashes` backslashes have been passed. */
  function ReadArgument(line: Wide, inside: bool, slashes: nat, argument: Wide): (r: (Wide, Wide))
    ensures |r.1| <= |line|
    ensures line != [] && (inside || !IsBlank(line[0])) ==> |r.1| < |line|
    decreases |line|
  {
    if line == [] then (argument + Slashes(slashes), line)
    else if line[0] == SLASH then ReadArgument(line[1..], inside, slashes + 1, argument)
    else if line[0] == QUOTE then
      var sofar := argument + Slashes(slashes / 2);
      if slashes % 2 == 1 then ReadArgument(line[1..], inside, 0, sofar + [QUOTE])
      else if inside && |line| > 1 && line[1] == QUOTE then ReadArgument(line[2..], inside, 0, sofar + [QUOTE])
      else ReadArgument(line[1..], !inside, 0, sofar)
    else if !inside && IsBlank(line[0]) then (argument + Slashes(slashes), line)
    else ReadArgument(line[1..], inside, 0, argument + Slashes(slashes) + [line[0]])
  }

  function ReadArguments(line: Wide): seq<Wide>
    decreases |line|
  {
    if line == [] then []
    else if IsBlank(line[0]) then ReadArguments(line[1..])
    else
      var (argument, rest) := ReadArgument(line, false, 0, []);
      [argument] + ReadArguments(rest)
  }

  function Parsed(line: Wide): seq<Wide> {
    var (program, rest) := ReadProgram(line, false, []);
    [program] + ReadArguments(rest)
  }

  // -----------------------------------------------------------------------------
  // Arguments survive
  // -----------------------------------------------------------------------------

  predicate Ends(tail: Wide) {
    tail == [] || tail[0] == SPACE
  }

  lemma {:induction false} SlashesAreCounted(n: nat, line: Wide, inside: bool, slashes: nat, argument: Wide)
    ensures ReadArgument(Slashes(n) + line, inside, slashes, argument)
            == ReadArgument(line, inside, slashes + n, argument)
  {
    if n == 0 {
      assert Slashes(0) + line == line;
    } else {
      assert (Slashes(n) + line)[1..] == Slashes(n - 1) + line;
      SlashesAreCounted(n - 1, line, inside, slashes + 1, argument);
    }
  }

  /** The closing quote after an even run ends the quoted part and the argument. */
  lemma ClosingQuote(k: nat, tail: Wide, argument: Wide)
    requires Ends(tail)
    ensures ReadArgument(Slashes(2 * k) + ([QUOTE] + tail), true, 0, argument) == (argument + Slashes(k), tail)
  {
    SlashesAreCounted(2 * k, [QUOTE] + tail, true, 0, argument);
    assert ([QUOTE] + tail)[1..] == tail;
    assert argument + Slashes(k) + Slashes(0) == argument + Slashes(k);
  }

  lemma EscapedUnit(k: nat, u: Unit, rest: Wide, argument: Wide)
    requires u != SLASH
    ensures ReadArgument(Slashes(if u == QUOTE then 2 * k + 1 else k) + ([u] + rest), true, 0, argument)
            == ReadArgument(rest, true, 0, argument + Slashes(k) + [u])
  {
    SlashesAreCounted(if u == QUOTE then 2 * k + 1 else k, [u] + rest, true, 0, argument);
    assert ([u] + rest)[1..] == rest;
  }

  /** Reading undoes escaping, whatever backslashes came before. */
  lemma {:induction false} ReadsEscaped(value: Wide, k: nat, tail: Wide, argument: Wide)
    requires Ends(tail)
    ensures ReadArgument(Escaped(value, k) + ([QUOTE] + tail), true, 0, argument)
            == (argument + Slashes(k) + value, tail)
    decreases |value|
  {
    hide ReadArgument;
    if value == [] {
      ClosingQuote(k, tail, argument);
      assert argument + Slashes(k) + value == argument + Slashes(k);
    } else if value[0] == SLASH {
      ReadsEscaped(value[1..], k + 1, tail, argument);
      assert Slashes(k + 1) + value[1..] == Slashes(k) + value;
      assert argument + Slashes(k + 1) + value[1..] == argument + (Slashes(k + 1) + value[1..]);
      assert argument + Slashes(k) + value == argument + (Slashes(k) + value);
    } else {
      var u, rest := value[0], Escaped(value[1..], 0) + ([QUOTE] + tail);
      EscapedUnit(k, u, rest, argument);
      assert Escaped(value, k) + ([QUOTE] + tail)
          == Slashes(if u == QUOTE then 2 * k + 1 else k) + ([u] + rest);
      var next := argument + Slashes(k) + [u];
      ReadsEscaped(value[1..], 0, tail, next);
      assert next + Slashes(0) + value[1..] == argument + Slashes(k) + value;
    }
  }

  lemma ReadsQuoted(value: Wide, tail: Wide)
    requires Ends(tail)
    ensures ReadArgument(Quoted(value) + tail, false, 0, []) == (value, tail)
  {
    var line := Quoted(value) + tail;
    var inner := Escaped(value, 0) + ([QUOTE] + tail);
    assert line[1..] == inner;
    assert ReadArgument(line, false, 0, []) == ReadArgument(inner, true, 0, []) by {
      assert line[0] == QUOTE && [] + Slashes(0) == [];
    }
    ReadsEscaped(value, 0, tail, []);
    assert [] + Slashes(0) + value == value;
  }

  lemma {:induction false} ReadsListed(arguments: seq<Wide>)
    ensures ReadArguments(Listed(arguments)) == arguments
  {
    hide ReadArguments, Quoted;
    if arguments == [] {
      assert ReadArguments([]) == [] by { ReadsNothing(); }
    } else {
      ReadsListed(arguments[1..]);
      ReadsOneMore(arguments[0], Listed(arguments[1..]));
      assert Listed(arguments) == [SPACE] + (Quoted(arguments[0]) + Listed(arguments[1..]));
    }
  }

  lemma ReadsNothing()
    ensures ReadArguments([]) == []
  {
  }

  lemma ReadsOneMore(value: Wide, tail: Wide)
    requires Ends(tail)
    ensures ReadArguments([SPACE] + (Quoted(value) + tail)) == [value] + ReadArguments(tail)
  {
    hide ReadArgument, Escaped;
    var line := Quoted(value) + tail;
    ReadsQuoted(value, tail);
    assert line[0] == QUOTE;
    assert ([SPACE] + line)[1..] == line;
  }

  // -----------------------------------------------------------------------------
  // The program name survives exactly without quotes and trailing backslashes
  // -----------------------------------------------------------------------------

  predicate Plain(program: Wide) {
    QUOTE !in program && (program != [] ==> program[|program| - 1] != SLASH)
  }

  /** Trailing backslashes of `value`, counting `slashes` before it. */
  function Trailing(value: Wide, slashes: nat): nat {
    if value == [] then slashes
    else Trailing(value[1..], if value[0] == SLASH then slashes + 1 else 0)
  }

  lemma {:induction false} TrailingIsLast(value: Wide, slashes: nat)
    requires value != []
    ensures Trailing(value, slashes) > 0 <==> value[|value| - 1] == SLASH
  {
    if |value| > 1 {
      TrailingIsLast(value[1..], if value[0] == SLASH then slashes + 1 else 0);
    }
  }

  /** Without quotes, escaping only doubles the trailing run. */
  lemma {:induction false} EscapedWithoutQuotes(value: Wide, slashes: nat)
    requires QUOTE !in value
    ensures Escaped(value, slashes) == Slashes(slashes) + value + Slashes(Trailing(value, slashes))
  {
    if value == [] {
    } else if value[0] == SLASH {
      EscapedWithoutQuotes(value[1..], slashes + 1);
      assert Slashes(slashes + 1) + value[1..] == Slashes(slashes) + value;
    } else {
      EscapedWithoutQuotes(value[1..], 0);
      assert Slashes(slashes) + [value[0]] + value[1..] == Slashes(slashes) + value;
    }
  }

  lemma {:induction false} NameHasNoQuotes(line: Wide, inside: bool, name: Wide)
    requires QUOTE !in name
    ensures QUOTE !in ReadProgram(line, inside, name).0
  {
    if line == [] || (!inside && IsBlank(line[0])) {
    } else if line[0] == QUOTE {
      NameHasNoQuotes(line[1..], !inside, name);
    } else {
      NameHasNoQuotes(line[1..], inside, name + [line[0]]);
    }
  }

  lemma {:induction false} ReadsInside(text: Wide, tail: Wide, name: Wide)
    requires QUOTE !in text && Ends(tail)
    ensures ReadProgram(text + ([QUOTE] + tail), true, name) == (name + text, tail)
    decreases |text|
  {
    var line := text + ([QUOTE] + tail);
    if text == [] {
      assert line[1..] == tail && name + text == name;
    } else {
      assert line[1..] == text[1..] + ([QUOTE] + tail);
      ReadsInside(text[1..], tail, name + [text[0]]);
      assert name + [text[0]] + text[1..] == name + text;
    }
  }

  /** Without quotes the name read back is the program plus its doubled trailing backslashes. */
  lemma ReadsProgram(program: Wide, tail: Wide)
    requires QUOTE !in program && Ends(tail)
    ensures ReadProgram(Quoted(program) + tail, false, []) == (program + Slashes(Trailing(program, 0)), tail)
  {
    EscapedWithoutQuotes(program, 0);
    var text := program + Slashes(Trailing(program, 0));
    assert Escaped(program, 0) == text;
    assert (Quoted(program) + tail)[1..] == text + ([QUOTE] + tail);
    ReadsInside(text, tail, []);
    assert [] + text == text;
  }

  /** Whatever its backslashes, a program path without quotes leaves the arguments intact. */
  lemma ArgumentsSurvive(program: Wide, arguments: seq<Wide>)
    requires QUOTE !in program
    ensures Parsed(Assembled(program, arguments))[1..] == arguments
  {
    hide ReadProgram, ReadArguments, Escaped;
    ReadsProgram(program, Listed(arguments));
    ReadsListed(arguments);
  }

  /** The started program receives the program and arguments exactly when the program is plain. */
  lemma RoundTrip(program: Wide, arguments: seq<Wide>)
    ensures Parsed(Assembled(program, arguments)) == [program] + arguments <==> Plain(program)
  {
    hide ReadProgram, ReadArguments, Escaped;
    var line := Assembled(program, arguments);
    var (name, rest) := ReadProgram(line, false, []);
    NameHasNoQuotes(line, false, []);
    assert Parsed(line)[0] == name;
    if QUOTE in program {
      assert name != program;
    } else {
      ReadsProgram(program, Listed(arguments));
      ReadsListed(arguments);
      assert program == [] ==> Trailing(program, 0) == 0;
      if program != [] {
        TrailingIsLast(program, 0);
      }
      assert |name| == |program| + Trailing(program, 0);
      if Plain(program) {
        assert program + Slashes(0) == program;
      }
    }
  }

  /** A program path ending in a backslash reaches the child with the backslash doubled. */
  lemma TrailingBackslashIsDoubled()
    ensures Parsed(Assembled([65, SLASH], [])) == [[65, SLASH, SLASH]]
  {
    var program: Wide := [65, SLASH];
    ReadsProgram(program, Listed([]));
    assert program[1..] == [SLASH] && [SLASH][1..] == [];
    assert Trailing([], 1) == 1;
    assert Trailing([SLASH], 0) == 1;
    assert program + Slashes(1) == [65, SLASH, SLASH];
  }

  lemma {:induction false} EscapedHasNoNul(value: Wide, slashes: nat)
    requires NUL !in value
    ensures NUL !in Escaped(value, slashes)
    decreases |value|
  {
    if value != [] {
      EscapedHasNoNul(value[1..], if value[0] == SLASH then slashes + 1 else 0);
    }
  }

  lemma {:induction false} ListedHasNoNul(arguments: seq<Wide>)
    requires NulFree(arguments)
    ensures NUL !in Listed(arguments)
  {
    hide Escaped;
    if arguments != [] {
      EscapedHasNoNul(arguments[0], 0);
      ListedHasNoNul(arguments[1..]);
    }
  }

  lemma {:induction false} TerminatedIsVisible(line: Wide)
    requires NUL !in line
    ensures Visible(line + [NUL]) == line
  {
    if line != [] {
      assert (line + [NUL])[1..] == line[1..] + [NUL];
      TerminatedIsVisible(line[1..]);
    }
  }

  // -----------------------------------------------------------------------------
  // The buffers as they are filled
  // -----------------------------------------------------------------------------

  lemma EscapedStep(done: Wide, value: Wide, slashes: nat)
    requires value != []
    ensures done + Escaped(value, slashes)
            == if value[0] == SLASH then done + Escaped(value[1..], slashes + 1)
               else done + Slashes(if value[0] == QUOTE then 2 * slashes + 1 else slashes) + [value[0]]
                    + Escaped(value[1..], 0)
  {
  }

  /** Appends the quoted value, or fails at a NUL. */
  method Quote(value: Wide, output: Wide) returns (r: Option<Wide>)
    ensures r == if NUL in value then None else Some(output + Quoted(value))
  {
    hide Escaped;
    var buffer := output + [QUOTE];
    var slashes := 0;
    for i := 0 to |value|
      invariant NUL !in value[..i]
      invariant buffer + Escaped(value[i..], slashes) == output + [QUOTE] + Escaped(value, 0)
    {
      assert value[i..][1..] == value[i + 1..];
      EscapedStep(buffer, value[i..], slashes);
      if value[i] == NUL {
        return None;
      }
      if value[i] == SLASH {
        slashes := slashes + 1;
      } else {
        buffer := buffer + Slashes(if value[i] == QUOTE then 2 * slashes + 1 else slashes) + [value[i]];
        slashes := 0;
      }
    }
    assert value[..|value|] == value && value[|value|..] == [];
    assert Escaped([], slashes) == Slashes(2 * slashes) by { EscapedNothing(slashes); }
    assert buffer + Slashes(2 * slashes) + [QUOTE] == output + Quoted(value);
    return Some(buffer + Slashes(2 * slashes) + [QUOTE]);
  }

  lemma EscapedNothing(slashes: nat)
    ensures Escaped([], slashes) == Slashes(2 * slashes)
  {
  }

  lemma {:induction false} ListedConcat(a: seq<Wide>, b: seq<Wide>)
    ensures Listed(a + b) == Listed(a) + Listed(b)
  {
    hide Escaped;
    if a == [] {
      assert a + b == b;
    } else {
      assert (a + b)[1..] == a[1..] + b;
      ListedConcat(a[1..], b);
    }
  }

  /**
   * The NUL-terminated command line. It is refused exactly when a value contains a
   * NUL; otherwise the child parses it back to the same program and arguments
   * exactly when the program path is plain.
   */
  method CommandLine(program: Wide, arguments: seq<Wide>) returns (r: Option<Wide>)
    ensures r.Some? <==> NulFree([program] + arguments)
    ensures r.Some? ==> (Parsed(Visible(r.value)) == [program] + arguments <==> Plain(program))
    ensures r.Some? && QUOTE !in program ==> Parsed(Visible(r.value))[1..] == arguments
  {
    hide Quoted, Parsed, ReadArguments, Visible;
    var first := Quote(program, []);
    if first.None? {
      assert program in [program] + arguments;
      return None;
    }
    var buffer := first.value;
    for i := 0 to |arguments|
      invariant NUL !in program && NulFree(arguments[..i])
      invariant buffer == Assembled(program, arguments[..i])
    {
      var more := Quote(arguments[i], buffer + [SPACE]);
      if more.None? {
        assert arguments[i] in [program] + arguments;
        return None;
      }
      ListedConcat(arguments[..i], [arguments[i]]);
      assert arguments[..i + 1] == arguments[..i] + [arguments[i]];
      assert Listed([arguments[i]]) == [SPACE] + Quoted(arguments[i]);
      buffer := more.value;
    }
    assert arguments[..|arguments|] == arguments;
    RoundTrip(program, arguments);
    if QUOTE !in program {
      ArgumentsSurvive(program, arguments);
    }
    AssembledHasNoNul(program, arguments);
    TerminatedIsVisible(buffer);
    return Some(buffer + [NUL]);
  }

  lemma AssembledHasNoNul(program: Wide, arguments: seq<Wide>)
    requires NUL !in program && NulFree(arguments)
    ensures NUL !in Assembled(program, arguments)
  {
    hide Escaped, Listed;
    EscapedHasNoNul(program, 0);
    ListedHasNoNul(arguments);
  }
}
