/**
 * What the version 1 line loop guarantees about the ledger it builds: the
 * line partition, block bookkeeping, definitions recognised anywhere
 * outside a block, the last definition winning, and H3, H4 and the usage
 * table as sums over the scanned tokens and gap headers.
 */
module AnalyzerV1Props {
  import opened Text
  import opened Syntax
  import opened Chains
  import opened AnalyzerV1

  // ---------------------------------------------------------------------
  // One line
  // ---------------------------------------------------------------------

  /** Only the first line can be the flag, and only when it is exactly `~`. */
  lemma ClassifyFlag(ph: Phase, lineNum: nat, line: string)
    ensures Classify(ph, lineNum, line) == CompressionFlag <==> lineNum == 0 && line == "~"
  {
  }

  /** The counters a line of kind `k` adds to, `total_lines` included. */
  lemma AccountCounters(led: Ledger, k: LineKind, line: string)
    ensures var s, s' := led.stats, Account(led, k, line).stats;
            var bytes := Utf8Length(line);
            s'.totalLines == s.totalLines + 1
            && s'.compressionFlag == (s.compressionFlag || k.CompressionFlag?)
            && s'.definitionLines == s.definitionLines + (if InBucket(k, DefinitionLine) then 1 else 0)
            && s'.definitionSize == s.definitionSize + (if InBucket(k, DefinitionLine) then bytes else 0)
            && s'.definitionAtOverhead == s.definitionAtOverhead + (if InBucket(k, DefinitionLine) then 1 else 0)
            && s'.commandLines == s.commandLines + (if InBucket(k, CommandLine) then 1 else 0)
            && s'.commandSize == s.commandSize + (if InBucket(k, CommandLine) then bytes else 0)
            && s'.otherLines == s.otherLines + (if InBucket(k, OtherLine) then 1 else 0)
            && s'.otherSize == s.otherSize + (if InBucket(k, OtherLine) then bytes else 0)
            && s'.blockPrefixOverhead == s.blockPrefixOverhead + (if InBucket(k, PrefixedBodyLine) then 2 else 0)
  {
  }

  /** What reading one line adds to H3, H4 and the usage table, and to the definition table. */
  lemma AccountScan(led: Ledger, k: LineKind, line: string)
    ensures var r := Account(led, k, line);
            var toks := Usages(Scanned(k, line));
            r.stats.commandAtOverhead == led.stats.commandAtOverhead + |toks|
            && r.stats.literalGapOverhead == led.stats.literalGapOverhead + GapCost(GapHeaders(Scanned(k, line)))
            && r.used == Tally(led.used, toks)
            && r.defined == Define(led.defined, k)
  {
  }

  // ---------------------------------------------------------------------
  // The whole file: counters
  // ---------------------------------------------------------------------

  /** Number of lines of `lines` booked under `b`. */
  function LinesIn(lines: seq<string>, b: Bucket): nat {
    if lines == [] then 0
    else LinesIn(lines[..|lines| - 1], b) + if InBucket(KindOf(lines, |lines| - 1), b) then 1 else 0
  }

  /** Total UTF-8 length of the lines of `lines` booked under `b`. */
  function BytesIn(lines: seq<string>, b: Bucket): nat {
    if lines == [] then 0
    else BytesIn(lines[..|lines| - 1], b) + if InBucket(KindOf(lines, |lines| - 1), b) then Utf8Length(lines[|lines| - 1]) else 0
  }

  /** Total UTF-8 length of all the lines. */
  function LinesBytes(lines: seq<string>): nat {
    if lines == [] then 0 else LinesBytes(lines[..|lines| - 1]) + Utf8Length(lines[|lines| - 1])
  }

  /** The last line read is the flag only when it is the first line and is `~`, one byte long. */
  lemma LastLineFlag(lines: seq<string>)
    requires lines != []
    ensures var i := |lines| - 1;
            (KindOf(lines, i).CompressionFlag? <==> i == 0 && lines[0] == "~")
            && (KindOf(lines, i).CompressionFlag? ==> Utf8Length(lines[i]) == 1)
            && (i > 0 ==> lines[..i][0] == lines[0])
  {
    var i := |lines| - 1;
    ClassifyFlag(PhaseOf(lines[..i]), i, lines[i]);
    if lines[i] == "~" {
      assert Utf8Length(lines[i]) == 1;
    }
  }

  /** `total_lines` counts every line, and the flag is set exactly when the first line is `~`. */
  lemma {:induction false} FlagCounters(lines: seq<string>)
    ensures var s := LedgerOf(lines).stats;
            s.totalLines == |lines|
            && s.compressionFlag == (|lines| > 0 && lines[0] == "~")
            && LinesIn(lines, FlagLine) == BytesIn(lines, FlagLine) == (if s.compressionFlag then 1 else 0)
  {
    if lines != [] {
      var init := lines[..|lines| - 1];
      var i := |lines| - 1;
      FlagCounters(init);
      AccountCounters(LedgerOf(init), KindOf(lines, i), lines[i]);
      LastLineFlag(lines);
    }
  }

  /**
   * Each line counter is the number of lines of its kind and each size
   * counter their byte total; H2 is one per definition line, redefinitions
   * included, and H1 two per prefixed body line.
   */
  lemma {:induction false} LineCounters(lines: seq<string>)
    ensures var s := LedgerOf(lines).stats;
            s.definitionLines == LinesIn(lines, DefinitionLine) && s.definitionSize == BytesIn(lines, DefinitionLine)
            && s.definitionAtOverhead == s.definitionLines
            && s.commandLines == LinesIn(lines, CommandLine) && s.commandSize == BytesIn(lines, CommandLine)
            && s.otherLines == LinesIn(lines, OtherLine) && s.otherSize == BytesIn(lines, OtherLine)
            && s.blockPrefixOverhead == 2 * LinesIn(lines, PrefixedBodyLine)
  {
    if lines != [] {
      var init := lines[..|lines| - 1];
      LineCounters(init);
      AccountCounters(LedgerOf(init), KindOf(lines, |lines| - 1), lines[|lines| - 1]);
    }
  }

  /** Every line is booked under exactly one of the flag, definition, command and other counters. */
  lemma {:induction false} BucketsCover(lines: seq<string>)
    ensures LinesIn(lines, FlagLine) + LinesIn(lines, DefinitionLine) + LinesIn(lines, CommandLine) + LinesIn(lines, OtherLine) == |lines|
    ensures BytesIn(lines, FlagLine) + BytesIn(lines, DefinitionLine) + BytesIn(lines, CommandLine) + BytesIn(lines, OtherLine) == LinesBytes(lines)
    ensures LinesIn(lines, PrefixedBodyLine) <= LinesIn(lines, BodyLine) <= LinesIn(lines, CommandLine)
  {
    if lines != [] {
      BucketsCover(lines[..|lines| - 1]);
    }
  }

  /**
   * The line partition: apart from a leading `~`, every line is a
   * definition, a command or other, and their byte totals add up to the
   * file's lines; H1 is at most two bytes per body line.
   */
  lemma LinePartition(lines: seq<string>)
    ensures var s := LedgerOf(lines).stats;
            var flag := if s.compressionFlag then 1 else 0;
            s.definitionLines + s.commandLines + s.otherLines + flag == s.totalLines
            && s.definitionSize + s.commandSize + s.otherSize + flag == LinesBytes(lines)
            && s.definitionAtOverhead == s.definitionLines
            && s.blockPrefixOverhead <= 2 * LinesIn(lines, BodyLine)
  {
    FlagCounters(lines);
    LineCounters(lines);
    BucketsCover(lines);
  }

  // ---------------------------------------------------------------------
  // Blocks
  // ---------------------------------------------------------------------

  /** A block is open exactly while lines remain in it. */
  predicate PhaseOk(ph: Phase) {
    ph.blockLinesRemaining >= 0 && (ph.inBlock <==> ph.blockLinesRemaining > 0)
  }

  lemma AdvanceKeepsPhaseOk(ph: Phase, lineNum: nat, line: string)
    requires PhaseOk(ph)
    ensures PhaseOk(Advance(ph, Classify(ph, lineNum, line)))
  {
  }

  /** `in_block` implies `block_lines_remaining > 0` after any number of lines, and conversely. */
  lemma {:induction false} PhaseInvariant(lines: seq<string>)
    ensures PhaseOk(PhaseOf(lines))
  {
    if lines != [] {
      var init := lines[..|lines| - 1];
      PhaseInvariant(init);
      AdvanceKeepsPhaseOk(PhaseOf(init), |lines| - 1, lines[|lines| - 1]);
    }
  }

  /** The header line opens a block of `n` lines (none when `n` is 0). */
  lemma HeaderOpens(lines: seq<string>, i: nat, n: nat)
    requires i < |lines| && KindOf(lines, i) == BlockHeader(n)
    ensures PhaseOf(lines[..i + 1]) == Phase(n > 0, n)
  {
    PhaseOfNext(lines, i);
  }

  /** A line read inside a block after the first line is a body line and uses up one line of the block. */
  lemma BodyStep(ph: Phase, lineNum: nat, line: string)
    requires ph.inBlock && lineNum > 0
    ensures Classify(ph, lineNum, line) == BodyKind(line)
    ensures Advance(ph, Classify(ph, lineNum, line)) == Phase(ph.blockLinesRemaining != 1, ph.blockLinesRemaining - 1)
  {
    ClassifyInBlock(ph, lineNum, line);
  }

  /** The control state before each line of the file: `PhasesOf(lines)(j)` is the state after reading `j` lines. */
  function PhasesOf(lines: seq<string>): nat -> Phase {
    (j: nat) => if j <= |lines| then PhaseOf(lines[..j]) else Start.phase
  }

  /** Reading line `j` inside a block uses up one of its lines. */
  lemma BlockLineStep(lines: seq<string>, j: nat)
    requires 0 < j < |lines| && PhasesOf(lines)(j).inBlock
    ensures var f := PhasesOf(lines);
            f(j + 1) == Phase(f(j).blockLinesRemaining != 1, f(j).blockLinesRemaining - 1)
  {
    BodyStep(PhaseOf(lines[..j]), j, lines[j]);
    PhaseOfNext(lines, j);
  }

  /** Counting down any run of states in which each state inside a block uses up one of its lines. */
  lemma {:induction false} CountdownOn(f: nat -> Phase, i: nat, n: nat, j: nat)
    requires i < j <= i + 1 + n
    requires f(i + 1) == Phase(n > 0, n)
    requires forall m :: i < m < j && f(m).inBlock ==>
               f(m + 1) == Phase(f(m).blockLinesRemaining != 1, f(m).blockLinesRemaining - 1)
    ensures f(j) == Phase(j <= i + n, i + 1 + n - j)
    decreases j
  {
    if j > i + 1 {
      CountdownOn(f, i, n, j - 1);
    }
  }

  /** Every line read inside a block, past the first line, uses up one line of the block. */
  lemma BlockSteps(lines: seq<string>, i: nat, j: nat)
    requires j <= |lines|
    ensures var f := PhasesOf(lines);
            forall m :: i < m < j && f(m).inBlock ==>
              f(m + 1) == Phase(f(m).blockLinesRemaining != 1, f(m).blockLinesRemaining - 1)
  {
    var f := PhasesOf(lines);
    forall m | i < m < j && f(m).inBlock
      ensures f(m + 1) == Phase(f(m).blockLinesRemaining != 1, f(m).blockLinesRemaining - 1)
    {
      BlockLineStep(lines, m);
    }
  }

  /** Counting down a block: before line `j` of a block of `n` lines opened at line `i`, `i + 1 + n - j` remain. */
  lemma Countdown(lines: seq<string>, i: nat, n: nat, j: nat)
    requires i < j <= |lines| && j <= i + 1 + n
    requires PhaseOf(lines[..i + 1]) == Phase(n > 0, n)
    ensures PhaseOf(lines[..j]) == Phase(j <= i + n, i + 1 + n - j)
  {
    BlockSteps(lines, i, j);
    CountdownOn(PhasesOf(lines), i, n, j);
  }

  /** After a header with count `n` at line `i`, before line `j` of the block (or just after it) `i + 1 + n - j` lines remain. */
  lemma InsideBlock(lines: seq<string>, i: nat, n: nat, j: nat)
    requires i < j <= |lines| && j <= i + 1 + n && KindOf(lines, i) == BlockHeader(n)
    ensures PhaseOf(lines[..j]) == Phase(j <= i + n, i + 1 + n - j)
  {
    HeaderOpens(lines, i, n);
    Countdown(lines, i, n, j);
  }

  /** Outside a block, a line after the first is a definition when it has the shape of one, else a header, a command or other. */
  lemma OutsideStep(ph: Phase, lineNum: nat, line: string)
    requires !ph.inBlock && lineNum > 0
    ensures MatchDefinition(line).Some? ==> Classify(ph, lineNum, line) == Definition(MatchDefinition(line).value.0, MatchDefinition(line).value.1)
    ensures MatchDefinition(line).None? ==> Classify(ph, lineNum, line) == TopLevelKind(line)
  {
  }

  /**
   * Block bookkeeping: a header with count `n` makes exactly the next `n`
   * lines (fewer if the file ends first) body lines, definition-shaped or
   * not; the line after them, and after a header with count 0 the very next
   * line, is read outside a block.
   */
  lemma BlockExtent(lines: seq<string>, i: nat, n: nat)
    requires i < |lines| && KindOf(lines, i) == BlockHeader(n)
    ensures forall j :: i < j <= i + n && j < |lines| ==> KindOf(lines, j) == BodyKind(lines[j])
    ensures i + n + 1 < |lines| ==>
              var line := lines[i + n + 1];
              KindOf(lines, i + n + 1)
              == match MatchDefinition(line)
                 case Some((name, content)) => Definition(name, content)
                 case None => TopLevelKind(line)
  {
    forall j | i < j <= i + n && j < |lines|
      ensures KindOf(lines, j) == BodyKind(lines[j])
    {
      InsideBlock(lines, i, n, j);
      BodyStep(PhaseOf(lines[..j]), j, lines[j]);
    }
    if i + n + 1 < |lines| {
      var j := i + n + 1;
      InsideBlock(lines, i, n, j);
      OutsideStep(PhaseOf(lines[..j]), j, lines[j]);
    }
  }

  /**
   * Definitions are recognised on any line outside a block, before headers
   * and commands, wherever the line stands in the file; inside a block a
   * definition-shaped line is body content.
   */
  lemma DefinitionAnywhere(lines: seq<string>, i: nat)
    requires 0 < i < |lines| && MatchDefinition(lines[i]).Some?
    ensures var m := MatchDefinition(lines[i]).value;
            KindOf(lines, i) == (if PhaseOf(lines[..i]).inBlock then BodyKind(lines[i]) else Definition(m.0, m.1))
  {
    if PhaseOf(lines[..i]).inBlock {
      BodyStep(PhaseOf(lines[..i]), i, lines[i]);
    } else {
      OutsideStep(PhaseOf(lines[..i]), i, lines[i]);
    }
  }

  // ---------------------------------------------------------------------
  // The definition table
  // ---------------------------------------------------------------------

  /** Line kind `k` binds `name`. */
  predicate Binds(k: LineKind, name: string) {
    k.Definition? && k.name == name
  }

  /** The definition table alone, folded over the lines' kinds. */
  function DefinedOf(lines: seq<string>): map<string, string> {
    if lines == [] then map[] else Define(DefinedOf(lines[..|lines| - 1]), KindOf(lines, |lines| - 1))
  }

  /** `defined_vars` depends on the kinds of the lines alone. */
  lemma {:induction false} DefinedOfLedger(lines: seq<string>)
    ensures LedgerOf(lines).defined == DefinedOf(lines)
  {
    if lines != [] {
      var init := lines[..|lines| - 1];
      DefinedOfLedger(init);
      AccountScan(LedgerOf(init), KindOf(lines, |lines| - 1), lines[|lines| - 1]);
    }
  }

  lemma DefinedOfNext(lines: seq<string>, i: nat)
    requires i < |lines|
    ensures DefinedOf(lines[..i + 1]) == Define(DefinedOf(lines[..i]), KindOf(lines, i))
  {
    assert lines[..i + 1][..i] == lines[..i];
  }

  /** The table before each line of the file: `TablesOf(lines)(j)` is the table after reading `j` lines. */
  function TablesOf(lines: seq<string>): nat -> map<string, string> {
    (j: nat) => if j <= |lines| then DefinedOf(lines[..j]) else map[]
  }

  /** A line that does not bind `name` leaves its binding alone. */
  lemma TableStep(lines: seq<string>, m: nat, name: string)
    requires m < |lines| && name in TablesOf(lines)(m) && !Binds(KindOf(lines, m), name)
    ensures var f := TablesOf(lines);
            name in f(m + 1) && f(m + 1)[name] == f(m)[name]
  {
    DefinedOfNext(lines, m);
  }

  /** Lines that do not bind `name` leave its binding alone. */
  lemma TableSteps(lines: seq<string>, i: nat, j: nat, name: string)
    requires j <= |lines|
    requires forall m :: i < m < j ==> !Binds(KindOf(lines, m), name)
    ensures var f := TablesOf(lines);
            forall m :: i + 1 <= m < j && name in f(m) ==> name in f(m + 1) && f(m + 1)[name] == f(m)[name]
  {
    var f := TablesOf(lines);
    forall m | i + 1 <= m < j && name in f(m)
      ensures name in f(m + 1) && f(m + 1)[name] == f(m)[name]
    {
      TableStep(lines, m, name);
    }
  }

  /** With no later line binding `name`, its binding stays as line `i` left it. */
  lemma BindingKept(lines: seq<string>, i: nat, j: nat, name: string)
    requires i < j <= |lines| && name in DefinedOf(lines[..i + 1])
    requires forall m :: i < m < j ==> !Binds(KindOf(lines, m), name)
    ensures name in DefinedOf(lines[..j]) && DefinedOf(lines[..j])[name] == DefinedOf(lines[..i + 1])[name]
  {
    TableSteps(lines, i, j, name);
    KeptOn(TablesOf(lines), name, i + 1, j);
  }

  /** Every id in the table is an `@id` reference, the same form the usage table is keyed by. */
  lemma {:induction false} DefinedAreReferences(lines: seq<string>)
    ensures forall n :: n in DefinedOf(lines) ==> IsReference(n)
  {
    if lines != [] {
      DefinedAreReferences(lines[..|lines| - 1]);
    }
  }

  /**
   * Redefinition: the last definition of an id wins in the table, while
   * every definition line, earlier ones included, is counted.
   */
  lemma LastDefinitionWins(lines: seq<string>, i: nat)
    requires i < |lines| && KindOf(lines, i).Definition?
    requires forall m :: i < m < |lines| ==> !Binds(KindOf(lines, m), KindOf(lines, i).name)
    ensures var k := KindOf(lines, i);
            k.name in LedgerOf(lines).defined && LedgerOf(lines).defined[k.name] == k.content
  {
    DefinedOfNext(lines, i);
    BindingKept(lines, i, |lines|, KindOf(lines, i).name);
    assert lines[..|lines|] == lines;
    DefinedOfLedger(lines);
  }

  // ---------------------------------------------------------------------
  // References and gap headers
  // ---------------------------------------------------------------------

  /** The text of line `i` that is scanned for references and gap headers. */
  function ScannedAt(lines: seq<string>, i: nat): string
    requires i < |lines|
  {
    Scanned(KindOf(lines, i), lines[i])
  }

  /** Every `@id` token the loop scans, in file order. */
  function TokensOf(lines: seq<string>): seq<string> {
    if lines == [] then [] else TokensOf(lines[..|lines| - 1]) + Usages(ScannedAt(lines, |lines| - 1))
  }

  /** Every `#<digits>` gap header the loop scans, in file order. */
  function GapsOf(lines: seq<string>): seq<string> {
    if lines == [] then [] else GapsOf(lines[..|lines| - 1]) + GapHeaders(ScannedAt(lines, |lines| - 1))
  }

  /** H3 is a count: one byte for each `@` reference scanned. */
  lemma {:induction false} AtOverheadCount(lines: seq<string>)
    ensures LedgerOf(lines).stats.commandAtOverhead == |TokensOf(lines)|
  {
    if lines != [] {
      var init, i := lines[..|lines| - 1], |lines| - 1;
      AtOverheadCount(init);
      AccountScan(LedgerOf(init), KindOf(lines, i), lines[i]);
    }
  }

  /** H4 is `2 + len(digits)` summed over every gap header scanned. */
  lemma {:induction false} GapOverheadTotal(lines: seq<string>)
    ensures LedgerOf(lines).stats.literalGapOverhead == GapCost(GapsOf(lines))
  {
    if lines != [] {
      var init, i := lines[..|lines| - 1], |lines| - 1;
      GapOverheadTotal(init);
      AccountScan(LedgerOf(init), KindOf(lines, i), lines[i]);
      GapCostAppend(GapsOf(init), GapHeaders(ScannedAt(lines, i)));
    }
  }

  /** The usage loop has a key for every token of the table or the list, and counts each token once more per occurrence. */
  lemma {:induction false} TallyCounts(used: map<string, nat>, toks: seq<string>)
    ensures Tally(used, toks).Keys == used.Keys + (set t | t in toks)
    ensures forall n :: CountOf(Tally(used, toks), n) == CountOf(used, n) + multiset(toks)[n]
    decreases |toks|
  {
    if toks != [] {
      var init, last := toks[..|toks| - 1], toks[|toks| - 1];
      assert toks == init + [last];
      TallyCounts(used, init);
      assert (set t | t in toks) == (set t | t in init) + {last};
    }
  }

  /** Tallying two lists in turn is tallying their concatenation. */
  lemma {:induction false} TallyAppend(used: map<string, nat>, a: seq<string>, b: seq<string>)
    ensures Tally(Tally(used, a), b) == Tally(used, a + b)
    decreases |b|
  {
    if b == [] {
      assert a + b == a;
    } else {
      TallyAppend(used, a, b[..|b| - 1]);
      assert (a + b)[..|a + b| - 1] == a + b[..|b| - 1];
    }
  }

  /** The usage table is the tally of every token the loop scans. */
  lemma {:induction false} UsedIsTally(lines: seq<string>)
    ensures LedgerOf(lines).used == Tally(map[], TokensOf(lines))
  {
    if lines != [] {
      var init, i := lines[..|lines| - 1], |lines| - 1;
      UsedIsTally(init);
      AccountScan(LedgerOf(init), KindOf(lines, i), lines[i]);
      TallyAppend(map[], TokensOf(init), Usages(ScannedAt(lines, i)));
    }
  }

  /**
   * `used_vars_count` has a key `@id` for exactly the references scanned,
   * and counts each as often as it is scanned.
   */
  lemma UsageCounts(lines: seq<string>)
    ensures var used, toks := LedgerOf(lines).used, TokensOf(lines);
            used.Keys == (set t | t in toks) && forall n :: CountOf(used, n) == multiset(toks)[n]
  {
    UsedIsTally(lines);
    TallyCounts(map[], TokensOf(lines));
  }
}
