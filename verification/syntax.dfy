/**
 * The line shapes of the cdiff format, written as explicit scanners instead
 * of regular expressions, and the tagged line kind the classifiers produce.
 *
 * A line never holds a line feed (lines are read with `readlines` and their
 * terminator is stripped), so a pattern's `$` is the end of the line and its
 * `.` matches every character. Each scanner is shown to agree with its
 * pattern: a match yields exactly the decomposition the pattern describes,
 * and every such decomposition is matched.
 */
module Syntax {
  import opened Text

  datatype Option<T> = None | Some(value: T)

  datatype CharClass = Word | Space | Digit | CommandId

  predicate InClass(c: char, cls: CharClass) {
    match cls
    case Word => IsWordChar(c)
    case Space => IsSpace(c)
    case Digit => IsDigit(c)
    case CommandId => IsCommandIdChar(c)
  }

  predicate AllIn(s: string, from: int, to: int, cls: CharClass)
    requires 0 <= from <= to <= |s|
  {
    forall k :: from <= k < to ==> InClass(s[k], cls)
  }

  /** End of the longest run of `cls` characters that starts at `i`: a greedy `cls*`. */
  function RunEnd(s: string, i: nat, cls: CharClass): (j: nat)
    requires i <= |s|
    ensures i <= j <= |s|
    ensures AllIn(s, i, j, cls)
    ensures j == |s| || !InClass(s[j], cls)
    decreases |s| - i
  {
    if i < |s| && InClass(s[i], cls) then RunEnd(s, i + 1, cls) else i
  }

  /** A run is determined by where it starts: any maximal run from `i` ends at `RunEnd`. */
  lemma RunEndUnique(s: string, i: nat, cls: CharClass, j: nat)
    requires i <= j <= |s|
    requires AllIn(s, i, j, cls)
    requires j == |s| || !InClass(s[j], cls)
    ensures RunEnd(s, i, cls) == j
  {
  }

  /** `@[\w\d]+`: a reference token, the sigil followed by a non-empty identifier. */
  predicate IsReference(t: string) {
    |t| >= 2 && t[0] == '@' && AllIn(t, 1, |t|, Word)
  }

  /**
   * `^(@[\w\d]+)\s(.*)$` with DOTALL: the reference, one white-space
   * character, then the content verbatim to the end of the line.
   */
  function MatchDefinition(line: string): (m: Option<(string, string)>)
    ensures m.Some? ==> IsReference(m.value.0) && |m.value.0| < |line|
    ensures m.Some? ==> IsSpace(line[|m.value.0|])
    ensures m.Some? ==> line == m.value.0 + [line[|m.value.0|]] + m.value.1
  {
    if |line| < 2 || line[0] != '@' then None
    else
      var e := RunEnd(line, 1, Word);
      if e == 1 || e == |line| || !IsSpace(line[e]) then None
      else
        assert line == line[..e] + [line[e]] + line[e + 1..];
        Some((line[..e], line[e + 1..]))
  }

  /** Every line of the definition shape is matched, with its own reference and content. */
  lemma MatchDefinitionComplete(name: string, w: char, content: string)
    requires IsReference(name) && IsSpace(w)
    ensures MatchDefinition(name + [w] + content) == Some((name, content))
  {
    var line := name + [w] + content;
    assert AllIn(line, 1, |name|, Word);
    RunEndUnique(line, 1, Word, |name|);
    assert line[..|name|] == name && line[|name| + 1..] == content;
  }

  /** `int()` of a run of ASCII digits. */
  function DecimalValue(ds: string): nat
    requires AllIn(ds, 0, |ds|, Digit)
  {
    if ds == [] then 0
    else DecimalValue(ds[..|ds| - 1]) * 10 + (ds[|ds| - 1] as int - '0' as int)
  }

  /**
   * The cut points of `^([\w\d]+)\s+([AD]\+)\s+(\d+)$`: the identifier ends
   * at `a`, the tag `A+`/`D+` sits at `b`, the count starts at `c`.
   */
  ghost predicate HeaderShape(line: string, a: int, b: int, c: int) {
    && 0 < a < b && b + 2 < c < |line|
    && AllIn(line, 0, a, Word)
    && AllIn(line, a, b, Space)
    && (line[b] == 'A' || line[b] == 'D') && line[b + 1] == '+'
    && AllIn(line, b + 2, c, Space)
    && AllIn(line, c, |line|, Digit)
  }

  /** The declared line count of a block header, or `None` for any other line. */
  function MatchBlockHeader(line: string): (m: Option<nat>)
  {
    var a := RunEnd(line, 0, Word);
    var b := RunEnd(line, a, Space);
    if a == 0 || b == a || b + 2 > |line| || !(line[b] == 'A' || line[b] == 'D') || line[b + 1] != '+' then None
    else
      var c := RunEnd(line, b + 2, Space);
      if c == b + 2 || c == |line| || RunEnd(line, c, Digit) != |line| then None
      else Some(DecimalValue(line[c..]))
  }

  /** A matched header has the pattern's shape and its count is the decimal value of the digits. */
  lemma BlockHeaderSound(line: string)
    requires MatchBlockHeader(line).Some?
    ensures exists a, b, c :: HeaderShape(line, a, b, c) && MatchBlockHeader(line) == Some(DecimalValue(line[c..]))
  {
    var a := RunEnd(line, 0, Word);
    var b := RunEnd(line, a, Space);
    var c := RunEnd(line, b + 2, Space);
    assert HeaderShape(line, a, b, c);
  }

  /** Every line of the header shape is matched, with the count its digits spell. */
  lemma BlockHeaderComplete(line: string, a: int, b: int, c: int)
    requires HeaderShape(line, a, b, c)
    ensures MatchBlockHeader(line) == Some(DecimalValue(line[c..]))
  {
    RunEndUnique(line, 0, Word, a);
    RunEndUnique(line, a, Space, b);
    RunEndUnique(line, b + 2, Space, c);
    RunEndUnique(line, c, Digit, |line|);
  }

  /**
   * `^[\w\d,-]+\s+[ad].*$` or `^[\w\d,-]+\s+[MR].*$`: a line range, white
   * space, then one of the command letters `a`, `d`, `M`, `R`.
   */
  predicate IsCommandLine(line: string) {
    var a := RunEnd(line, 0, CommandId);
    var b := RunEnd(line, a, Space);
    a > 0 && a < b < |line| && line[b] in "adMR"
  }

  ghost predicate CommandShape(line: string, a: int, b: int) {
    && 0 < a < b < |line|
    && AllIn(line, 0, a, CommandId)
    && AllIn(line, a, b, Space)
    && line[b] in "adMR"
  }

  /** The command test accepts exactly the lines of the command shape. */
  lemma CommandLineShape(line: string)
    ensures IsCommandLine(line) <==> exists a, b :: CommandShape(line, a, b)
  {
    if IsCommandLine(line) {
      var a := RunEnd(line, 0, CommandId);
      assert CommandShape(line, a, RunEnd(line, a, Space));
    }
    if exists a, b :: CommandShape(line, a, b) {
      var a, b :| CommandShape(line, a, b);
      RunEndUnique(line, 0, CommandId, a);
      RunEndUnique(line, a, Space, b);
    }
  }

  /**
   * `findall` of `@[\w\d]+`: the reference tokens of `s`, scanned left to
   * right without overlap, each as long as its identifier runs.
   */
  function Usages(s: string): (toks: seq<string>)
    ensures forall t :: t in toks ==> IsReference(t)
    ensures TokensLength(toks) <= |s|
    decreases |s|
  {
    if s == [] then []
    else if s[0] == '@' && RunEnd(s, 1, Word) > 1 then
      var e := RunEnd(s, 1, Word);
      var rest := Usages(s[e..]);
      TokensLengthPrepend(s[..e], rest);
      [s[..e]] + rest
    else Usages(s[1..])
  }

  /** Total number of characters of a list of tokens. */
  function TokensLength(toks: seq<string>): nat {
    if toks == [] then 0 else TokensLength(toks[..|toks| - 1]) + |toks[|toks| - 1]|
  }

  lemma {:induction false} TokensLengthAppend(a: seq<string>, b: seq<string>)
    ensures TokensLength(a + b) == TokensLength(a) + TokensLength(b)
    decreases |b|
  {
    if b == [] {
      assert a + b == a;
    } else {
      assert (a + b)[..|a + b| - 1] == a + b[..|b| - 1];
      TokensLengthAppend(a, b[..|b| - 1]);
    }
  }

  lemma TokensLengthPrepend(t: string, rest: seq<string>)
    ensures TokensLength([t] + rest) == |t| + TokensLength(rest)
  {
    TokensLengthAppend([t], rest);
    assert [t][..0] == [];
  }

  /** A reference followed by a character that cannot extend it is the first token found. */
  lemma {:induction false} UsagesAfterReference(t: string, rest: string)
    requires IsReference(t)
    requires rest == [] || !IsWordChar(rest[0])
    ensures Usages(t + rest) == [t] + Usages(rest)
  {
    var s := t + rest;
    assert AllIn(s, 1, |t|, Word);
    RunEndUnique(s, 1, Word, |t|);
    assert s[..|t|] == t && s[|t|..] == rest;
  }

  /** A text without the sigil holds no reference. */
  lemma {:induction false} UsagesWithoutSigil(s: string)
    requires '@' !in s
    ensures Usages(s) == []
    decreases |s|
  {
    if s != [] {
      assert '@' !in s[1..];
      UsagesWithoutSigil(s[1..]);
    }
  }

  /**
   * `findall` of `#(\d+)\s`: the digit strings of the literal-gap headers of
   * `s`, scanned left to right without overlap.
   */
  function GapHeaders(s: string): (gaps: seq<string>)
    ensures forall g :: g in gaps ==> |g| >= 1 && AllIn(g, 0, |g|, Digit)
    ensures GapCost(gaps) <= |s|
    decreases |s|
  {
    if s == [] then []
    else
      var e := RunEnd(s, 1, Digit);
      if s[0] == '#' && e > 1 && e < |s| && IsSpace(s[e]) then
        var rest := GapHeaders(s[e + 1..]);
        GapCostPrepend(s[1..e], rest);
        [s[1..e]] + rest
      else GapHeaders(s[1..])
  }

  /** A gap header `#<digits><white space>` at the start of the text is found, and the scan goes on after it. */
  lemma GapHeadersAfterHeader(d: string, w: char, rest: string)
    requires |d| >= 1 && AllIn(d, 0, |d|, Digit) && IsSpace(w)
    ensures GapHeaders("#" + d + [w] + rest) == [d] + GapHeaders(rest)
  {
    var s := "#" + d + [w] + rest;
    assert AllIn(s, 1, |d| + 1, Digit);
    RunEndUnique(s, 1, Digit, |d| + 1);
    assert s[1..|d| + 1] == d && s[|d| + 2..] == rest;
  }

  /** Text without `#` holds no gap header. */
  lemma {:induction false} GapHeadersWithoutHash(s: string)
    requires '#' !in s
    ensures GapHeaders(s) == []
    decreases |s|
  {
    if s != [] {
      assert s[0] != '#';
      assert '#' !in s[1..];
      GapHeadersWithoutHash(s[1..]);
    }
  }

  /** Overhead of a list of gap headers: `len(f"#{digits} ")` each. */
  function GapCost(gaps: seq<string>): nat {
    if gaps == [] then 0 else GapCost(gaps[..|gaps| - 1]) + 2 + |gaps[|gaps| - 1]|
  }

  lemma {:induction false} GapCostAppend(a: seq<string>, b: seq<string>)
    ensures GapCost(a + b) == GapCost(a) + GapCost(b)
    decreases |b|
  {
    if b == [] {
      assert a + b == a;
    } else {
      assert (a + b)[..|a + b| - 1] == a + b[..|b| - 1];
      GapCostAppend(a, b[..|b| - 1]);
    }
  }

  lemma GapCostPrepend(g: string, rest: seq<string>)
    ensures GapCost([g] + rest) == 2 + |g| + GapCost(rest)
  {
    GapCostAppend([g], rest);
    assert [g][..0] == [];
  }

  /** `line.startswith(('a ', 'd ', 'A ', 'D '))`: the two-character prefix of a block-body line. */
  predicate HasBlockPrefix(line: string) {
    |line| >= 2 && line[0] in "adAD" && line[1] == ' '
  }

  /** The kinds of line the classifiers tell apart. */
  datatype LineKind =
    | CompressionFlag                             // `~` as the first line
    | Definition(name: string, content: string)   // `@id<ws>content`
    | BareDefinition(name: string)                // `@id` alone
    | BlockHeader(count: nat)                     // `id A+|D+ count`
    | BlockBody(content: string, prefixed: bool)  // a line inside a block, prefix stripped
    | Command                                     // a standalone `a`/`d`/`M`/`R` command
    | Other                                       // anything else

  /** A line inside an `A+`/`D+` block: whatever its shape, only its prefix is looked at. */
  function BodyKind(line: string): (k: LineKind)
    ensures k.BlockBody? && k.prefixed == HasBlockPrefix(line)
    ensures k.prefixed ==> line == line[..2] + k.content
    ensures !k.prefixed ==> k.content == line
  {
    if HasBlockPrefix(line) then BlockBody(line[2..], true) else BlockBody(line, false)
  }

  /** A line outside blocks and definitions: a block header, a standalone command, or other. */
  function TopLevelKind(line: string): (k: LineKind)
    ensures k.BlockHeader? || k.Command? || k.Other?
    ensures k.BlockHeader? <==> MatchBlockHeader(line).Some?
    ensures k.Command? <==> MatchBlockHeader(line).None? && IsCommandLine(line)
  {
    match MatchBlockHeader(line)
    case Some(n) => BlockHeader(n)
    case None => if IsCommandLine(line) then Command else Other
  }

  /** The text whose references and gap headers are scanned: a body line's content or a whole command line. */
  function Scanned(k: LineKind, line: string): string {
    match k
    case BlockBody(content, _) => content
    case Command => line
    case _ => ""
  }

  predicate IsDefinitionKind(k: LineKind) {
    k.Definition? || k.BareDefinition?
  }

  /** `a`, `d`, `M`, `R` lines and block headers and bodies are all counted as command lines. */
  predicate IsCommandKind(k: LineKind) {
    k.BlockHeader? || k.BlockBody? || k.Command?
  }

  /** The counter a line of kind `k` is booked under, and the finer body-line groups. */
  datatype Bucket = FlagLine | DefinitionLine | CommandLine | OtherLine | BodyLine | PrefixedBodyLine

  predicate InBucket(k: LineKind, b: Bucket) {
    match b
    case FlagLine => k.CompressionFlag?
    case DefinitionLine => IsDefinitionKind(k)
    case CommandLine => IsCommandKind(k)
    case OtherLine => k.Other?
    case BodyLine => k.BlockBody?
    case PrefixedBodyLine => k.BlockBody? && k.prefixed
  }
}
