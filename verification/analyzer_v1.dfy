/**
 * Version 1 of the patch analyser: a single pass with no definitions phase.
 * Outside a block a definition is recognised on any line, before block
 * headers; inside a block every line is body content. H3 counts one byte
 * per `@` reference, and the usage table is keyed by the token `@id`.
 *
 * `ScanOf(lines)` is the state after the line loop has read `lines`, one
 * `Step` per line; `AnalyzeLines` is that loop as the source writes it and
 * is proved to compute `ScanOf`.
 */
module AnalyzerV1 {
  import opened Text
  import opened Syntax

  /** The counters of the `stats` dictionary (`total_size_b` comes from the file system and is kept apart). */
  datatype Stats = Stats(
    totalLines: nat,
    compressionFlag: bool,
    definitionLines: nat,
    definitionSize: nat,
    definitionAtOverhead: nat,  // H2
    commandLines: nat,
    commandSize: nat,
    commandAtOverhead: nat,     // H3
    literalGapOverhead: nat,    // H4
    blockPrefixOverhead: nat,   // H1
    otherLines: nat,
    otherSize: nat)

  const EmptyStats: Stats := Stats(0, false, 0, 0, 0, 0, 0, 0, 0, 0, 0, 0)

  /** Everything the line loop updates besides its control state: `stats`, `defined_vars`, `used_vars_count`. */
  datatype Ledger = Ledger(stats: Stats, defined: map<string, string>, used: map<string, nat>)

  /** The loop's control state: `in_block`, `block_lines_remaining`. */
  datatype Phase = Phase(inBlock: bool, blockLinesRemaining: int)

  datatype Scan = Scan(phase: Phase, ledger: Ledger)

  const Start: Scan := Scan(Phase(false, 0), Ledger(EmptyStats, map[], map[]))

  /** `used_vars_count[name]` read through the `defaultdict`. */
  function CountOf(used: map<string, nat>, name: string): nat {
    if name in used then used[name] else 0
  }

  /** How the loop reads line `lineNum` in the control state `ph`: the block first, then definitions, then the top-level shapes. */
  function Classify(ph: Phase, lineNum: nat, line: string): (k: LineKind)
    ensures !k.BareDefinition?
  {
    if lineNum == 0 && line == "~" then CompressionFlag
    else if ph.inBlock then BodyKind(line)
    else if MatchDefinition(line).Some? then Definition(MatchDefinition(line).value.0, MatchDefinition(line).value.1)
    else TopLevelKind(line)
  }

  /** The control state after a line of kind `k`. */
  function Advance(ph: Phase, k: LineKind): Phase {
    match k
    case BlockBody(_, _) =>
      var r := ph.blockLinesRemaining - 1;
      Phase(if r == 0 then false else ph.inBlock, r)
    case BlockHeader(n) => Phase(n > 0, n)
    case _ => ph
  }

  /** The usage loop: `used_vars_count[f"@{var_id}"] += 1` for each token, the key being the token itself. */
  function Tally(used: map<string, nat>, toks: seq<string>): map<string, nat> {
    if toks == [] then used
    else
      var u := Tally(used, toks[..|toks| - 1]);
      var t := toks[|toks| - 1];
      u[t := CountOf(u, t) + 1]
  }

  /** The references of a scanned text, H3 by their number, then H4 by its gap headers. */
  function ScanText(led: Ledger, text: string): Ledger {
    var toks := Usages(text);
    var s := led.stats;
    Ledger(s.(commandAtOverhead := s.commandAtOverhead + |toks|,
              literalGapOverhead := s.literalGapOverhead + GapCost(GapHeaders(text))),
           led.defined, Tally(led.used, toks))
  }

  /** `total_lines` counts every line, whatever its kind. */
  function CountLine(s: Stats): Stats {
    s.(totalLines := s.totalLines + 1)
  }

  /** The line and byte counters, H1 and H2 a line of kind `k` updates (`total_lines` apart). */
  function Count(s: Stats, k: LineKind, bytes: nat): Stats {
    match k
    case CompressionFlag => s.(compressionFlag := true)
    case Definition(_, _) | BareDefinition(_) =>
      s.(definitionLines := s.definitionLines + 1, definitionSize := s.definitionSize + bytes,
         definitionAtOverhead := s.definitionAtOverhead + 1)
    case BlockHeader(_) =>
      s.(commandLines := s.commandLines + 1, commandSize := s.commandSize + bytes)
    case BlockBody(_, prefixed) =>
      s.(commandLines := s.commandLines + 1, commandSize := s.commandSize + bytes,
         blockPrefixOverhead := s.blockPrefixOverhead + if prefixed then 2 else 0)
    case Command =>
      s.(commandLines := s.commandLines + 1, commandSize := s.commandSize + bytes)
    case Other =>
      s.(otherLines := s.otherLines + 1, otherSize := s.otherSize + bytes)
  }

  /** `defined_vars` after a line of kind `k`: a definition binds its `@id`, the last binding winning. */
  function Define(defined: map<string, string>, k: LineKind): map<string, string> {
    match k
    case Definition(name, content) => defined[name := content]
    case _ => defined
  }

  /** What a line of kind `k` adds to the ledger: `total_lines`, its counters, its binding, then the scan of its text. */
  function Account(led: Ledger, k: LineKind, line: string): Ledger {
    ScanText(Ledger(Count(CountLine(led.stats), k, Utf8Length(line)), Define(led.defined, k), led.used), Scanned(k, line))
  }

  /** One iteration of the line loop. */
  function Step(sc: Scan, lineNum: nat, line: string): Scan {
    var k := Classify(sc.phase, lineNum, line);
    Scan(Advance(sc.phase, k), Account(sc.ledger, k, line))
  }

  /** The control state after the line loop has read `lines`. */
  function PhaseOf(lines: seq<string>): Phase {
    if lines == [] then Start.phase
    else
      var ph := PhaseOf(lines[..|lines| - 1]);
      Advance(ph, Classify(ph, |lines| - 1, lines[|lines| - 1]))
  }

  /** How line `i` of the file is classified. */
  function KindOf(lines: seq<string>, i: nat): LineKind
    requires i < |lines|
  {
    Classify(PhaseOf(lines[..i]), i, lines[i])
  }

  /** The ledger after the line loop has read `lines`. */
  function LedgerOf(lines: seq<string>): Ledger {
    if lines == [] then Start.ledger
    else Account(LedgerOf(lines[..|lines| - 1]), KindOf(lines, |lines| - 1), lines[|lines| - 1])
  }

  /** The state after the line loop has read all of `lines`. */
  function ScanOf(lines: seq<string>): Scan {
    Scan(PhaseOf(lines), LedgerOf(lines))
  }

  lemma PhaseOfNext(lines: seq<string>, i: nat)
    requires i < |lines|
    ensures PhaseOf(lines[..i + 1]) == Advance(PhaseOf(lines[..i]), KindOf(lines, i))
  {
    assert lines[..i + 1][..i] == lines[..i];
  }

  lemma LedgerOfNext(lines: seq<string>, i: nat)
    requires i < |lines|
    ensures LedgerOf(lines[..i + 1]) == Account(LedgerOf(lines[..i]), KindOf(lines, i), lines[i])
  {
    assert lines[..i + 1][..i] == lines[..i];
  }

  /** Reading one more line is one more `Step`. */
  lemma ScanOfNext(lines: seq<string>, i: nat)
    requires i < |lines|
    ensures ScanOf(lines[..i + 1]) == Step(ScanOf(lines[..i]), i, lines[i])
  {
    PhaseOfNext(lines, i);
    LedgerOfNext(lines, i);
  }

  /** Past the flag check, a line inside a block is a body line, whatever its shape. */
  lemma ClassifyInBlock(ph: Phase, lineNum: nat, line: string)
    requires !(lineNum == 0 && line == "~") && ph.inBlock
    ensures Classify(ph, lineNum, line) == BodyKind(line)
  {
  }

  /** Past the flag check and outside a block, a definition-shaped line is a definition, wherever it stands. */
  lemma ClassifyDefinition(ph: Phase, lineNum: nat, line: string)
    requires !(lineNum == 0 && line == "~") && !ph.inBlock && MatchDefinition(line).Some?
    ensures Classify(ph, lineNum, line) == Definition(MatchDefinition(line).value.0, MatchDefinition(line).value.1)
  {
  }

  /** Past the flag check, outside a block and not a definition: a header, a command or other. */
  lemma ClassifyTopLevel(ph: Phase, lineNum: nat, line: string)
    requires !(lineNum == 0 && line == "~") && !ph.inBlock && MatchDefinition(line).None?
    ensures Classify(ph, lineNum, line) == TopLevelKind(line)
  {
  }

  /** The step over a line inside a block. */
  lemma StepBlockLine(sc: Scan, lineNum: nat, line: string)
    requires !(lineNum == 0 && line == "~") && sc.phase.inBlock
    ensures var r := sc.phase.blockLinesRemaining - 1;
            var s := CountLine(sc.ledger.stats);
            Step(sc, lineNum, line)
            == Scan(Phase(r != 0, r),
                    ScanText(Ledger(Count(s, BodyKind(line), Utf8Length(line)), sc.ledger.defined, sc.ledger.used), BodyKind(line).content))
  {
    ClassifyInBlock(sc.phase, lineNum, line);
  }

  /** The step over a definition outside a block. */
  lemma StepDefinition(sc: Scan, lineNum: nat, line: string)
    requires !(lineNum == 0 && line == "~") && !sc.phase.inBlock && MatchDefinition(line).Some?
    ensures var (name, content) := MatchDefinition(line).value;
            var s := CountLine(sc.ledger.stats);
            Step(sc, lineNum, line)
            == Scan(sc.phase, Ledger(Count(s, Definition(name, content), Utf8Length(line)), sc.ledger.defined[name := content], sc.ledger.used))
  {
    var (name, content) := MatchDefinition(line).value;
    ClassifyDefinition(sc.phase, lineNum, line);
    ScanTextEmpty(Ledger(Count(CountLine(sc.ledger.stats), Definition(name, content), Utf8Length(line)), sc.ledger.defined[name := content], sc.ledger.used));
  }

  /** The step over a block header outside a block. */
  lemma StepBlockHeader(sc: Scan, lineNum: nat, line: string)
    requires !(lineNum == 0 && line == "~") && !sc.phase.inBlock && MatchDefinition(line).None?
    requires MatchBlockHeader(line).Some?
    ensures var n := MatchBlockHeader(line).value;
            var s := CountLine(sc.ledger.stats);
            Step(sc, lineNum, line)
            == Scan(Phase(n > 0, n), Ledger(Count(s, BlockHeader(n), Utf8Length(line)), sc.ledger.defined, sc.ledger.used))
  {
    ClassifyTopLevel(sc.phase, lineNum, line);
    ScanTextEmpty(Ledger(Count(CountLine(sc.ledger.stats), BlockHeader(MatchBlockHeader(line).value), Utf8Length(line)), sc.ledger.defined, sc.ledger.used));
  }

  /** The step over a standalone command outside a block. */
  lemma StepCommandLine(sc: Scan, lineNum: nat, line: string)
    requires !(lineNum == 0 && line == "~") && !sc.phase.inBlock && MatchDefinition(line).None?
    requires MatchBlockHeader(line).None? && IsCommandLine(line)
    ensures var s := CountLine(sc.ledger.stats);
            Step(sc, lineNum, line)
            == Scan(sc.phase, ScanText(Ledger(Count(s, Command, Utf8Length(line)), sc.ledger.defined, sc.ledger.used), line))
  {
    ClassifyTopLevel(sc.phase, lineNum, line);
  }

  /** The step over any other line outside a block. */
  lemma StepOtherLine(sc: Scan, lineNum: nat, line: string)
    requires !(lineNum == 0 && line == "~") && !sc.phase.inBlock && MatchDefinition(line).None?
    requires MatchBlockHeader(line).None? && !IsCommandLine(line)
    ensures var s := CountLine(sc.ledger.stats);
            Step(sc, lineNum, line)
            == Scan(sc.phase, Ledger(Count(s, Other, Utf8Length(line)), sc.ledger.defined, sc.ledger.used))
  {
    ClassifyTopLevel(sc.phase, lineNum, line);
    ScanTextEmpty(Ledger(Count(CountLine(sc.ledger.stats), Other, Utf8Length(line)), sc.ledger.defined, sc.ledger.used));
  }

  /** A text with no references and no gap headers leaves the ledger as it is. */
  lemma ScanTextEmpty(led: Ledger)
    ensures ScanText(led, "") == led
  {
  }

  // ---------------------------------------------------------------------
  // The loop as the source writes it
  // ---------------------------------------------------------------------

  /** The usage loop over the tokens of a text, then H3 by their number. */
  method CountUsages(content: string, stats0: Stats, used0: map<string, nat>)
    returns (stats: Stats, usedVarsCount: map<string, nat>)
    ensures usedVarsCount == Tally(used0, Usages(content))
    ensures stats == stats0.(commandAtOverhead := stats0.commandAtOverhead + |Usages(content)|)
  {
    usedVarsCount := used0;
    var usages := Usages(content);
    for j := 0 to |usages|
      invariant usedVarsCount == Tally(used0, usages[..j])
    {
      assert usages[..j + 1][..j] == usages[..j];
      var fullVarName := usages[j];
      usedVarsCount := usedVarsCount[fullVarName := CountOf(usedVarsCount, fullVarName) + 1];
    }
    assert usages[..|usages|] == usages;
    stats := stats0.(commandAtOverhead := stats0.commandAtOverhead + |usages|);
  }

  /** The H4 loop over the literal-gap headers of a text. */
  method CountGaps(content: string, stats0: Stats) returns (stats: Stats)
    ensures stats == stats0.(literalGapOverhead := stats0.literalGapOverhead + GapCost(GapHeaders(content)))
  {
    stats := stats0;
    var gaps := GapHeaders(content);
    for j := 0 to |gaps|
      invariant stats == stats0.(literalGapOverhead := stats0.literalGapOverhead + GapCost(gaps[..j]))
    {
      assert gaps[..j + 1][..j] == gaps[..j];
      var gapLenStr := gaps[j];
      stats := stats.(literalGapOverhead := stats.literalGapOverhead + 2 + |gapLenStr|);
    }
    assert gaps[..|gaps|] == gaps;
  }

  /** The reference scan and then the gap-header scan of one text. */
  method ScanContent(content: string, stats0: Stats, definedVars: map<string, string>, used0: map<string, nat>)
    returns (stats: Stats, usedVarsCount: map<string, nat>)
    ensures Ledger(stats, definedVars, usedVarsCount) == ScanText(Ledger(stats0, definedVars, used0), content)
  {
    stats, usedVarsCount := CountUsages(content, stats0, used0);
    stats := CountGaps(content, stats);
  }

  /** A line inside a block: a command line, H1 for an `a `/`d `/`A `/`D ` prefix, then the scan of its content. */
  method ReadBlockLine(line: string, lineLenB: nat, stats0: Stats, definedVars: map<string, string>, used0: map<string, nat>)
    returns (stats: Stats, usedVarsCount: map<string, nat>)
    ensures Ledger(stats, definedVars, usedVarsCount)
            == ScanText(Ledger(Count(stats0, BodyKind(line), lineLenB), definedVars, used0), BodyKind(line).content)
  {
    stats := stats0.(commandLines := stats0.commandLines + 1, commandSize := stats0.commandSize + lineLenB);
    var content := line;
    if HasBlockPrefix(line) {
      stats := stats.(blockPrefixOverhead := stats.blockPrefixOverhead + 2);
      content := line[2..];
    }
    assert stats == Count(stats0, BodyKind(line), lineLenB) && content == BodyKind(line).content;
    stats, usedVarsCount := ScanContent(content, stats, definedVars, used0);
  }

  /** A definition line `@id content`: bind the `@id`, one more definition line, H2 by one. */
  method ReadDefinition(varName: string, content: string, lineLenB: nat, stats0: Stats, defined0: map<string, string>)
    returns (stats: Stats, definedVars: map<string, string>)
    ensures stats == Count(stats0, Definition(varName, content), lineLenB)
    ensures definedVars == Define(defined0, Definition(varName, content))
  {
    definedVars := defined0[varName := content];
    stats := stats0.(definitionLines := stats0.definitionLines + 1, definitionSize := stats0.definitionSize + lineLenB,
                     definitionAtOverhead := stats0.definitionAtOverhead + 1);
  }

  /** A standalone command line: a command line, then the scan of the whole line. */
  method ReadCommandLine(line: string, lineLenB: nat, stats0: Stats, definedVars: map<string, string>, used0: map<string, nat>)
    returns (stats: Stats, usedVarsCount: map<string, nat>)
    ensures Ledger(stats, definedVars, usedVarsCount)
            == ScanText(Ledger(Count(stats0, Command, lineLenB), definedVars, used0), line)
  {
    stats := stats0.(commandLines := stats0.commandLines + 1, commandSize := stats0.commandSize + lineLenB);
    stats, usedVarsCount := ScanContent(line, stats, definedVars, used0);
  }

  /** A block header: one more command line and its bytes. */
  method CountBlockHeader(stats0: Stats, n: nat, lineLenB: nat) returns (stats: Stats)
    ensures stats == Count(stats0, BlockHeader(n), lineLenB)
  {
    stats := stats0.(commandLines := stats0.commandLines + 1, commandSize := stats0.commandSize + lineLenB);
  }

  /** A line of no recognised kind: one more other line and its bytes. */
  method CountOtherLine(stats0: Stats, lineLenB: nat) returns (stats: Stats)
    ensures stats == Count(stats0, Other, lineLenB)
  {
    stats := stats0.(otherLines := stats0.otherLines + 1, otherSize := stats0.otherSize + lineLenB);
  }

  /** The line loop of `analyze_patch`: one pass over the lines, blocks checked first. */
  method AnalyzeLines(lines: seq<string>) returns (stats: Stats, definedVars: map<string, string>, usedVarsCount: map<string, nat>)
    ensures Ledger(stats, definedVars, usedVarsCount) == LedgerOf(lines)
  {
    stats, definedVars, usedVarsCount := EmptyStats, map[], map[];
    var inBlock := false;
    var blockLinesRemaining: int := 0;
    for lineNum := 0 to |lines|
      invariant Scan(Phase(inBlock, blockLinesRemaining), Ledger(stats, definedVars, usedVarsCount))
                == ScanOf(lines[..lineNum])
    {
      ScanOfNext(lines, lineNum);
      ghost var before := ScanOf(lines[..lineNum]);
      var line := lines[lineNum];
      var lineLenB := Utf8Length(line);
      stats := CountLine(stats);

      if lineNum == 0 && line == "~" {
        stats := stats.(compressionFlag := true);
        continue;
      }

      if inBlock {
        StepBlockLine(before, lineNum, line);
        stats, usedVarsCount := ReadBlockLine(line, lineLenB, stats, definedVars, usedVarsCount);
        blockLinesRemaining := blockLinesRemaining - 1;
        if blockLinesRemaining == 0 {
          inBlock := false;
        }
        continue;
      }

      var defMatch := MatchDefinition(line);
      if defMatch.Some? {
        StepDefinition(before, lineNum, line);
        var (varName, content) := defMatch.value;
        stats, definedVars := ReadDefinition(varName, content, lineLenB, stats, definedVars);
        continue;
      }

      var blockMatch := MatchBlockHeader(line);
      if blockMatch.Some? {
        StepBlockHeader(before, lineNum, line);
        stats := CountBlockHeader(stats, blockMatch.value, lineLenB);
        blockLinesRemaining := blockMatch.value;
        inBlock := blockLinesRemaining > 0;
        continue;
      }

      if IsCommandLine(line) {
        StepCommandLine(before, lineNum, line);
        stats, usedVarsCount := ReadCommandLine(line, lineLenB, stats, definedVars, usedVarsCount);
        continue;
      }

      StepOtherLine(before, lineNum, line);
      stats := CountOtherLine(stats, lineLenB);
    }
    assert lines[..|lines|] == lines;
  }
}
