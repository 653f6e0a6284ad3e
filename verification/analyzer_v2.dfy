/**
 * Version 2 of the patch analyser: a definitions phase followed by the
 * command phase, the overhead buckets H1-H4 (H3 now the full byte length
 * of each `@id` reference), and the savings accounting split between
 * full-line and fragment definitions.
 *
 * `ScanOf(lines)` is the state after the line loop has read `lines`, one
 * `Step` per line; `AnalyzeLines` is that loop written as the source writes
 * it and is proved to compute `ScanOf`. The lemmas state what the source
 * relies on about the result.
 */
module AnalyzerV2 {
  import opened Text
  import opened Syntax
  import opened Costs

  /** The counters of the `stats` dictionary (`total_size_b` comes from the file system and is kept apart). */
  datatype Stats = Stats(
    totalLines: nat,
    compressionFlag: bool,
    definitionLines: nat,
    definitionSize: nat,
    definitionAtOverhead: nat,  // H2
    commandLines: nat,
    commandSize: nat,
    literalGapOverhead: nat,    // H4
    blockPrefixOverhead: nat,   // H1
    otherLines: nat,
    otherSize: nat,
    totalReferenceCost: nat,    // H3
    totalReplacedBytes: nat,
    fullLineVars: set<string>,
    fragmentVars: set<string>,
    fullLineReplaced: nat,
    fullLineRefCost: nat,
    fragmentReplaced: nat,
    fragmentRefCost: nat)

  const EmptyStats: Stats := Stats(0, false, 0, 0, 0, 0, 0, 0, 0, 0, 0, 0, 0, {}, {}, 0, 0, 0, 0)

  /** Everything the line loop updates besides its control state: `stats`, `defined_vars`, `used_vars_count`. */
  datatype Ledger = Ledger(stats: Stats, defined: map<string, string>, used: map<string, nat>)

  /** The loop's control state: `parsing_definitions`, `in_block`, `block_lines_remaining`. */
  datatype Phase = Phase(parsingDefinitions: bool, inBlock: bool, blockLinesRemaining: int)

  datatype Scan = Scan(phase: Phase, ledger: Ledger)

  const Start: Scan := Scan(Phase(true, false, 0), Ledger(EmptyStats, map[], map[]))

  /** `^(\s+.*|.*[};])$`: the content starts with white space or ends with `}` or `;`. */
  predicate IsFullLineShape(content: string) {
    |content| > 0 && (IsSpace(content[0]) || content[|content| - 1] in "};")
  }

  /** The heuristic: a definition is a full line when its content is over five characters long and of full-line shape. */
  predicate IsFullLine(content: string) {
    |content| > 5 && IsFullLineShape(content)
  }

  /** `used_vars_count[name]` read through the `defaultdict`. */
  function CountOf(used: map<string, nat>, name: string): nat {
    if name in used then used[name] else 0
  }

  /** How the loop reads line `lineNum` in the control state `ph`. */
  function Classify(ph: Phase, lineNum: nat, line: string): LineKind {
    if lineNum == 0 && line == "~" then CompressionFlag
    else if ph.parsingDefinitions && MatchDefinition(line).Some? then
      Definition(MatchDefinition(line).value.0, MatchDefinition(line).value.1)
    else if ph.parsingDefinitions && IsReference(line) then BareDefinition(line)
    else if ph.inBlock then BodyKind(line)
    else TopLevelKind(line)
  }

  /** The control state after a line of kind `k`. */
  function Advance(ph: Phase, k: LineKind): Phase {
    match k
    case CompressionFlag => ph
    case Definition(_, _) => ph
    case BareDefinition(_) => ph
    case BlockBody(_, _) =>
      var r := ph.blockLinesRemaining - 1;
      Phase(false, if r == 0 then false else ph.inBlock, r)
    case BlockHeader(n) => Phase(false, n > 0, n)
    case _ => ph.(parsingDefinitions := false)
  }

  /** One pass of the usage loop: count the reference, charge its bytes, and credit the replaced content. */
  function UseReference(led: Ledger, name: string): Ledger {
    var used := led.used[name := CountOf(led.used, name) + 1];
    var cost := Utf8Length(name);
    var s := led.stats.(totalReferenceCost := led.stats.totalReferenceCost + cost);
    if name in led.defined then
      var replaced := Utf8Length(led.defined[name]);
      var s' := s.(totalReplacedBytes := s.totalReplacedBytes + replaced);
      if name in s.fullLineVars then
        Ledger(s'.(fullLineReplaced := s'.fullLineReplaced + replaced, fullLineRefCost := s'.fullLineRefCost + cost), led.defined, used)
      else
        Ledger(s'.(fragmentReplaced := s'.fragmentReplaced + replaced, fragmentRefCost := s'.fragmentRefCost + cost), led.defined, used)
    else Ledger(s, led.defined, used)
  }

  /** The usage loop over a list of references, in order. */
  function UseAll(led: Ledger, toks: seq<string>): Ledger {
    if toks == [] then led else UseReference(UseAll(led, toks[..|toks| - 1]), toks[|toks| - 1])
  }

  /** The references and then the literal-gap headers of a scanned text. */
  function ScanText(led: Ledger, text: string): Ledger {
    var l := UseAll(led, Usages(text));
    l.(stats := l.stats.(literalGapOverhead := l.stats.literalGapOverhead + GapCost(GapHeaders(text))))
  }

  /** `total_lines` counts every line, whatever its kind. */
  function CountLine(s: Stats): Stats {
    s.(totalLines := s.totalLines + 1)
  }

  /** The line and byte counters, H1, H2 and the classification sets a line of kind `k` updates (`total_lines` apart). */
  function Count(s: Stats, k: LineKind, bytes: nat): Stats {
    match k
    case CompressionFlag => s.(compressionFlag := true)
    case Definition(name, content) =>
      var s1 := s.(definitionLines := s.definitionLines + 1, definitionSize := s.definitionSize + bytes,
                   definitionAtOverhead := s.definitionAtOverhead + 1);
      if IsFullLine(content) then s1.(fullLineVars := s1.fullLineVars + {name})
      else s1.(fragmentVars := s1.fragmentVars + {name})
    case BareDefinition(name) =>
      s.(definitionLines := s.definitionLines + 1, definitionSize := s.definitionSize + bytes,
         definitionAtOverhead := s.definitionAtOverhead + 1, fragmentVars := s.fragmentVars + {name})
    case BlockHeader(_) =>
      s.(commandLines := s.commandLines + 1, commandSize := s.commandSize + bytes)
    case BlockBody(_, prefixed) =>
      s.(commandLines := s.commandLines + 1, commandSize := s.commandSize + bytes,
         blockPrefixOverhead := s.blockPrefixOverhead + if prefixed then 2 else 0)
    case Command =>
      s.(commandLines := s.commandLines + 1, commandSize := s.commandSize + bytes)
    case Other =>
      s.(otherLines := s.otherLines + 1, otherSize := s.otherSize + bytes)
  }

  /** `defined_vars` after a line of kind `k`: a definition binds its id, the last binding winning. */
  function Define(defined: map<string, string>, k: LineKind): map<string, string> {
    match k
    case Definition(name, content) => defined[name := content]
    case BareDefinition(name) => defined[name := ""]
    case _ => defined
  }

  /** What a line of kind `k` adds to the ledger: `total_lines`, its counters, its binding, then the scan of its text. */
  function Account(led: Ledger, k: LineKind, line: string): Ledger {
    ScanText(Ledger(Count(CountLine(led.stats), k, Utf8Length(line)), Define(led.defined, k), led.used), Scanned(k, line))
  }

  /** One iteration of the line loop. */
  function Step(sc: Scan, lineNum: nat, line: string): Scan {
    var k := Classify(sc.phase, lineNum, line);
    Scan(Advance(sc.phase, k), Account(sc.ledger, k, line))
  }

  /**
   * The control state after the line loop has read `lines`. It depends on
   * the lines alone, never on the counters, so it is folded on its own.
   */
  function PhaseOf(lines: seq<string>): Phase {
    if lines == [] then Start.phase
    else
      var ph := PhaseOf(lines[..|lines| - 1]);
      Advance(ph, Classify(ph, |lines| - 1, lines[|lines| - 1]))
  }

  /** How line `i` of the file is classified. */
  function KindOf(lines: seq<string>, i: nat): LineKind
    requires i < |lines|
  {
    Classify(PhaseOf(lines[..i]), i, lines[i])
  }

  /** The ledger after the line loop has read `lines`. */
  function LedgerOf(lines: seq<string>): Ledger {
    if lines == [] then Start.ledger
    else Account(LedgerOf(lines[..|lines| - 1]), KindOf(lines, |lines| - 1), lines[|lines| - 1])
  }

  /** The state after the line loop has read all of `lines`. */
  function ScanOf(lines: seq<string>): Scan {
    Scan(PhaseOf(lines), LedgerOf(lines))
  }

  lemma PhaseOfNext(lines: seq<string>, i: nat)
    requires i < |lines|
    ensures PhaseOf(lines[..i + 1]) == Advance(PhaseOf(lines[..i]), KindOf(lines, i))
  {
    assert lines[..i + 1][..i] == lines[..i];
  }

  lemma LedgerOfNext(lines: seq<string>, i: nat)
    requires i < |lines|
    ensures LedgerOf(lines[..i + 1]) == Account(LedgerOf(lines[..i]), KindOf(lines, i), lines[i])
  {
    assert lines[..i + 1][..i] == lines[..i];
  }

  /** Reading one more line is one more `Step`. */
  lemma ScanOfNext(lines: seq<string>, i: nat)
    requires i < |lines|
    ensures ScanOf(lines[..i + 1]) == Step(ScanOf(lines[..i]), i, lines[i])
  {
    PhaseOfNext(lines, i);
    LedgerOfNext(lines, i);
  }

  /** Line `lineNum` is read past the flag check and the definitions phase. */
  predicate PastDefinitions(ph: Phase, lineNum: nat, line: string) {
    !(lineNum == 0 && line == "~") && !(ph.parsingDefinitions && (MatchDefinition(line).Some? || IsReference(line)))
  }

  /** The step over a line inside a block. */
  lemma StepBlockLine(sc: Scan, lineNum: nat, line: string)
    requires PastDefinitions(sc.phase, lineNum, line) && sc.phase.inBlock
    ensures var r := sc.phase.blockLinesRemaining - 1;
            var s := CountLine(sc.ledger.stats);
            Step(sc, lineNum, line)
            == Scan(Phase(false, r != 0, r),
                    ScanText(Ledger(Count(s, BodyKind(line), Utf8Length(line)), sc.ledger.defined, sc.ledger.used), BodyKind(line).content))
  {
    ClassifyInBlock(sc.phase, lineNum, line);
    AccountBlockLine(sc.ledger, line);
  }

  lemma ClassifyInBlock(ph: Phase, lineNum: nat, line: string)
    requires PastDefinitions(ph, lineNum, line) && ph.inBlock
    ensures Classify(ph, lineNum, line) == BodyKind(line)
  {
  }

  lemma AccountBlockLine(led: Ledger, line: string)
    ensures var s := CountLine(led.stats);
            Account(led, BodyKind(line), line)
            == ScanText(Ledger(Count(s, BodyKind(line), Utf8Length(line)), led.defined, led.used), BodyKind(line).content)
  {
  }

  /** The step over a block header outside a block. */
  lemma StepBlockHeader(sc: Scan, lineNum: nat, line: string)
    requires PastDefinitions(sc.phase, lineNum, line) && !sc.phase.inBlock && MatchBlockHeader(line).Some?
    ensures var n := MatchBlockHeader(line).value;
            var s := CountLine(sc.ledger.stats);
            Step(sc, lineNum, line)
            == Scan(Phase(false, n > 0, n), Ledger(Count(s, BlockHeader(n), Utf8Length(line)), sc.ledger.defined, sc.ledger.used))
  {
    ScanTextEmpty(Ledger(Count(CountLine(sc.ledger.stats), BlockHeader(MatchBlockHeader(line).value), Utf8Length(line)), sc.ledger.defined, sc.ledger.used));
  }

  /** The step over a standalone command outside a block. */
  lemma StepCommandLine(sc: Scan, lineNum: nat, line: string)
    requires PastDefinitions(sc.phase, lineNum, line) && !sc.phase.inBlock
    requires MatchBlockHeader(line).None? && IsCommandLine(line)
    ensures var s := CountLine(sc.ledger.stats);
            Step(sc, lineNum, line)
            == Scan(sc.phase.(parsingDefinitions := false),
                    ScanText(Ledger(Count(s, Command, Utf8Length(line)), sc.ledger.defined, sc.ledger.used), line))
  {
    ClassifyTopLevel(sc.phase, lineNum, line);
    AccountCommandLine(sc.ledger, line);
  }

  lemma ClassifyTopLevel(ph: Phase, lineNum: nat, line: string)
    requires PastDefinitions(ph, lineNum, line) && !ph.inBlock
    ensures Classify(ph, lineNum, line) == TopLevelKind(line)
  {
  }

  lemma AccountCommandLine(led: Ledger, line: string)
    ensures var s := CountLine(led.stats);
            Account(led, Command, line) == ScanText(Ledger(Count(s, Command, Utf8Length(line)), led.defined, led.used), line)
  {
  }

  /** The step over any other line outside a block. */
  lemma StepOtherLine(sc: Scan, lineNum: nat, line: string)
    requires PastDefinitions(sc.phase, lineNum, line) && !sc.phase.inBlock
    requires MatchBlockHeader(line).None? && !IsCommandLine(line)
    ensures var s := CountLine(sc.ledger.stats);
            Step(sc, lineNum, line)
            == Scan(sc.phase.(parsingDefinitions := false), Ledger(Count(s, Other, Utf8Length(line)), sc.ledger.defined, sc.ledger.used))
  {
    ScanTextEmpty(Ledger(Count(CountLine(sc.ledger.stats), Other, Utf8Length(line)), sc.ledger.defined, sc.ledger.used));
  }

  /** A text with no references and no gap headers leaves the ledger as it is. */
  lemma ScanTextEmpty(led: Ledger)
    ensures ScanText(led, "") == led
  {
  }

  // ---------------------------------------------------------------------
  // The loop as the source writes it
  // ---------------------------------------------------------------------

  /** One pass of the usage loop: count the reference, charge its bytes to H3, credit what it replaces. */
  method CountUsage(fullVarName: string, stats0: Stats, definedVars: map<string, string>, used0: map<string, nat>)
    returns (stats: Stats, usedVarsCount: map<string, nat>)
    ensures Ledger(stats, definedVars, usedVarsCount) == UseReference(Ledger(stats0, definedVars, used0), fullVarName)
  {
    usedVarsCount := used0[fullVarName := CountOf(used0, fullVarName) + 1];
    var refCostB := Utf8Length(fullVarName);
    stats := stats0.(totalReferenceCost := stats0.totalReferenceCost + refCostB);
    if fullVarName in definedVars {
      var replacedB := Utf8Length(definedVars[fullVarName]);
      stats := stats.(totalReplacedBytes := stats.totalReplacedBytes + replacedB);
      if fullVarName in stats.fullLineVars {
        stats := stats.(fullLineReplaced := stats.fullLineReplaced + replacedB,
                        fullLineRefCost := stats.fullLineRefCost + refCostB);
      } else {
        stats := stats.(fragmentReplaced := stats.fragmentReplaced + replacedB,
                        fragmentRefCost := stats.fragmentRefCost + refCostB);
      }
    }
  }

  /** The usage loop over the references of `content` (H3 and the savings credits). */
  method CountUsages(content: string, stats0: Stats, definedVars: map<string, string>, used0: map<string, nat>)
    returns (stats: Stats, usedVarsCount: map<string, nat>)
    ensures Ledger(stats, definedVars, usedVarsCount) == UseAll(Ledger(stats0, definedVars, used0), Usages(content))
  {
    stats, usedVarsCount := stats0, used0;
    var usages := Usages(content);
    for j := 0 to |usages|
      invariant Ledger(stats, definedVars, usedVarsCount) == UseAll(Ledger(stats0, definedVars, used0), usages[..j])
    {
      assert usages[..j + 1][..j] == usages[..j];
      stats, usedVarsCount := CountUsage(usages[j], stats, definedVars, usedVarsCount);
    }
    assert usages[..|usages|] == usages;
  }

  /** The H4 loop over the literal-gap headers of `content`. */
  method CountGaps(content: string, stats0: Stats) returns (stats: Stats)
    ensures stats == stats0.(literalGapOverhead := stats0.literalGapOverhead + GapCost(GapHeaders(content)))
  {
    stats := stats0;
    var gaps := GapHeaders(content);
    for j := 0 to |gaps|
      invariant stats == stats0.(literalGapOverhead := stats0.literalGapOverhead + GapCost(gaps[..j]))
    {
      assert gaps[..j + 1][..j] == gaps[..j];
      var gapLenStr := gaps[j];
      stats := stats.(literalGapOverhead := stats.literalGapOverhead + 2 + |gapLenStr|);
    }
    assert gaps[..|gaps|] == gaps;
  }

  /** The reference scan and then the gap-header scan of one text. */
  method ScanContent(content: string, stats0: Stats, definedVars: map<string, string>, used0: map<string, nat>)
    returns (stats: Stats, usedVarsCount: map<string, nat>)
    ensures Ledger(stats, definedVars, usedVarsCount) == ScanText(Ledger(stats0, definedVars, used0), content)
  {
    stats, usedVarsCount := CountUsages(content, stats0, definedVars, used0);
    stats := CountGaps(content, stats);
  }

  /** A definition line `@id content`: bind the id and put it in the full-line or the fragment set. */
  method ReadDefinition(varName: string, content: string, lineLenB: nat, stats0: Stats, defined0: map<string, string>)
    returns (stats: Stats, definedVars: map<string, string>)
    ensures stats == Count(stats0, Definition(varName, content), lineLenB)
    ensures definedVars == Define(defined0, Definition(varName, content))
  {
    definedVars := defined0[varName := content];
    stats := stats0.(definitionLines := stats0.definitionLines + 1, definitionSize := stats0.definitionSize + lineLenB,
                     definitionAtOverhead := stats0.definitionAtOverhead + 1);
    if |content| > 5 && IsFullLineShape(content) {
      stats := stats.(fullLineVars := stats.fullLineVars + {varName});
    } else {
      stats := stats.(fragmentVars := stats.fragmentVars + {varName});
    }
  }

  /** A bare `@id` line in the definitions phase: bind the id to the empty string, as a fragment. */
  method ReadBareDefinition(varName: string, lineLenB: nat, stats0: Stats, defined0: map<string, string>)
    returns (stats: Stats, definedVars: map<string, string>)
    ensures stats == Count(stats0, BareDefinition(varName), lineLenB)
    ensures definedVars == Define(defined0, BareDefinition(varName))
  {
    definedVars := defined0[varName := ""];
    stats := stats0.(definitionLines := stats0.definitionLines + 1, definitionSize := stats0.definitionSize + lineLenB,
                     definitionAtOverhead := stats0.definitionAtOverhead + 1);
    stats := stats.(fragmentVars := stats.fragmentVars + {varName});
  }

  /** A line inside a block: a command line, H1 for an `a `/`d ` prefix, then the scan of its content. */
  method ReadBlockLine(line: string, lineLenB: nat, stats0: Stats, definedVars: map<string, string>, used0: map<string, nat>)
    returns (stats: Stats, usedVarsCount: map<string, nat>)
    ensures Ledger(stats, definedVars, usedVarsCount)
            == ScanText(Ledger(Count(stats0, BodyKind(line), lineLenB), definedVars, used0), BodyKind(line).content)
  {
    stats := stats0.(commandLines := stats0.commandLines + 1, commandSize := stats0.commandSize + lineLenB);
    var content := line;
    if HasBlockPrefix(line) {
      stats := stats.(blockPrefixOverhead := stats.blockPrefixOverhead + 2);
      content := line[2..];
    }
    assert stats == Count(stats0, BodyKind(line), lineLenB) && content == BodyKind(line).content;
    stats, usedVarsCount := ScanContent(content, stats, definedVars, used0);
  }

  /** A standalone command line: a command line, then the scan of the whole line. */
  method ReadCommandLine(line: string, lineLenB: nat, stats0: Stats, definedVars: map<string, string>, used0: map<string, nat>)
    returns (stats: Stats, usedVarsCount: map<string, nat>)
    ensures Ledger(stats, definedVars, usedVarsCount)
            == ScanText(Ledger(Count(stats0, Command, lineLenB), definedVars, used0), line)
  {
    stats := stats0.(commandLines := stats0.commandLines + 1, commandSize := stats0.commandSize + lineLenB);
    stats, usedVarsCount := ScanContent(line, stats, definedVars, used0);
  }

  /** A block header: one more command line and its bytes. */
  method CountBlockHeader(stats0: Stats, n: nat, lineLenB: nat) returns (stats: Stats)
    ensures stats == Count(stats0, BlockHeader(n), lineLenB)
  {
    stats := stats0.(commandLines := stats0.commandLines + 1, commandSize := stats0.commandSize + lineLenB);
  }

  /** A line of no recognised kind: one more other line and its bytes. */
  method CountOtherLine(stats0: Stats, lineLenB: nat) returns (stats: Stats)
    ensures stats == Count(stats0, Other, lineLenB)
  {
    stats := stats0.(otherLines := stats0.otherLines + 1, otherSize := stats0.otherSize + lineLenB);
  }

  /** The line loop of `analyze_patch`: one pass over the lines, the definitions phase first. */
  method AnalyzeLines(lines: seq<string>) returns (stats: Stats, definedVars: map<string, string>, usedVarsCount: map<string, nat>)
    ensures Ledger(stats, definedVars, usedVarsCount) == LedgerOf(lines)
  {
    stats, definedVars, usedVarsCount := EmptyStats, map[], map[];
    var inBlock := false;
    var blockLinesRemaining: int := 0;
    var parsingDefinitions := true;
    for lineNum := 0 to |lines|
      invariant Scan(Phase(parsingDefinitions, inBlock, blockLinesRemaining), Ledger(stats, definedVars, usedVarsCount))
                == ScanOf(lines[..lineNum])
    {
      ScanOfNext(lines, lineNum);
      ghost var before := ScanOf(lines[..lineNum]);
      var line := lines[lineNum];
      var lineLenB := Utf8Length(line);
      stats := CountLine(stats);

      if lineNum == 0 && line == "~" {
        stats := stats.(compressionFlag := true);
        continue;
      }

      if parsingDefinitions {
        var defMatch := MatchDefinition(line);
        if defMatch.Some? {
          var (varName, content) := defMatch.value;
          stats, definedVars := ReadDefinition(varName, content, lineLenB, stats, definedVars);
          continue;
        }
        if IsReference(line) {
          stats, definedVars := ReadBareDefinition(line, lineLenB, stats, definedVars);
          continue;
        }
        parsingDefinitions := false;
      }

      if inBlock {
        StepBlockLine(before, lineNum, line);
        stats, usedVarsCount := ReadBlockLine(line, lineLenB, stats, definedVars, usedVarsCount);
        blockLinesRemaining := blockLinesRemaining - 1;
        if blockLinesRemaining == 0 {
          inBlock := false;
        }
        continue;
      }

      var blockMatch := MatchBlockHeader(line);
      if blockMatch.Some? {
        StepBlockHeader(before, lineNum, line);
        stats := CountBlockHeader(stats, blockMatch.value, lineLenB);
        blockLinesRemaining := blockMatch.value;
        inBlock := blockLinesRemaining > 0;
        continue;
      }

      if IsCommandLine(line) {
        StepCommandLine(before, lineNum, line);
        stats, usedVarsCount := ReadCommandLine(line, lineLenB, stats, definedVars, usedVarsCount);
        continue;
      }

      StepOtherLine(before, lineNum, line);
      stats := CountOtherLine(stats, lineLenB);
    }
    assert lines[..|lines|] == lines;
  }
}
