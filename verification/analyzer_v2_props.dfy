/**
 * What the version 2 line loop guarantees about the ledger it builds:
 * how the lines partition into the definition, command and other counters,
 * the one-way definitions phase, the extent of a block, the full-line and
 * fragment sets, and the reference and savings totals.
 */
module AnalyzerV2Props {
  import opened Text
  import opened Syntax
  import opened Chains
  import opened AnalyzerV2

  // ---------------------------------------------------------------------
  // What the reference scan touches
  // ---------------------------------------------------------------------

  /** The counters the reference and gap-header scans never change. */
  predicate SameLineCounters(a: Stats, b: Stats) {
    a.totalLines == b.totalLines && a.compressionFlag == b.compressionFlag
    && a.definitionLines == b.definitionLines && a.definitionSize == b.definitionSize
    && a.definitionAtOverhead == b.definitionAtOverhead
    && a.commandLines == b.commandLines && a.commandSize == b.commandSize
    && a.blockPrefixOverhead == b.blockPrefixOverhead
    && a.otherLines == b.otherLines && a.otherSize == b.otherSize
    && a.fullLineVars == b.fullLineVars && a.fragmentVars == b.fragmentVars
  }

  /** Replaced bytes are split between the two buckets, and the bucketed reference costs stay within H3. */
  predicate SavingsSplit(s: Stats) {
    s.totalReplacedBytes == s.fullLineReplaced + s.fragmentReplaced
    && s.fullLineRefCost + s.fragmentRefCost <= s.totalReferenceCost
  }

  /** Total UTF-8 length of a list of references. */
  function TokensBytes(toks: seq<string>): nat {
    if toks == [] then 0 else TokensBytes(toks[..|toks| - 1]) + Utf8Length(toks[|toks| - 1])
  }

  /** `b` is `a` after some references: same table, same line counters and H4, the savings split kept. */
  predicate Referenced(a: Ledger, b: Ledger) {
    b.defined == a.defined && SameLineCounters(b.stats, a.stats)
    && b.stats.literalGapOverhead == a.stats.literalGapOverhead
    && (SavingsSplit(a.stats) ==> SavingsSplit(b.stats))
  }

  /** One reference: its count goes up by one, H3 by its byte length, and the split is kept. */
  lemma UseReferenceEffect(led: Ledger, name: string)
    ensures var r := UseReference(led, name);
            Referenced(led, r) && r.stats.totalReferenceCost == led.stats.totalReferenceCost + Utf8Length(name)
  {
  }

  lemma UseReferenceCounts(led: Ledger, name: string)
    ensures var r := UseReference(led, name);
            r.used.Keys == led.used.Keys + {name}
            && (forall n :: CountOf(r.used, n) == CountOf(led.used, n) + if n == name then 1 else 0)
  {
  }

  /** The usage loop over `toks`: H3 grows by the references' byte lengths, and nothing but the reference and savings counters changes. */
  lemma {:induction false} UseAllEffect(led: Ledger, toks: seq<string>)
    ensures var r := UseAll(led, toks);
            Referenced(led, r) && r.stats.totalReferenceCost == led.stats.totalReferenceCost + TokensBytes(toks)
    decreases |toks|
  {
    if toks != [] {
      var init, last := toks[..|toks| - 1], toks[|toks| - 1];
      UseAllEffect(led, init);
      UseReferenceEffect(UseAll(led, init), last);
    }
  }

  /** The usage loop counts each reference as often as it occurs in `toks`. */
  lemma {:induction false} UseAllCounts(led: Ledger, toks: seq<string>)
    ensures var r := UseAll(led, toks);
            r.used.Keys == led.used.Keys + (set t | t in toks)
            && (forall n :: CountOf(r.used, n) == CountOf(led.used, n) + multiset(toks)[n])
    decreases |toks|
  {
    if toks != [] {
      var init, last := toks[..|toks| - 1], toks[|toks| - 1];
      assert toks == init + [last];
      UseAllCounts(led, init);
      UseReferenceCounts(UseAll(led, init), last);
      assert (set t | t in toks) == (set t | t in init) + {last};
    }
  }

  /** Scanning a text: the reference loop, then H4 grows by the cost of the text's gap headers. */
  lemma ScanTextEffect(led: Ledger, text: string)
    ensures var r := ScanText(led, text);
            var toks := Usages(text);
            r.defined == led.defined && SameLineCounters(r.stats, led.stats)
            && r.stats.literalGapOverhead == led.stats.literalGapOverhead + GapCost(GapHeaders(text))
            && r.stats.totalReferenceCost == led.stats.totalReferenceCost + TokensBytes(toks)
            && (SavingsSplit(led.stats) ==> SavingsSplit(r.stats))
            && r.used.Keys == led.used.Keys + (set t | t in toks)
            && (forall n :: CountOf(r.used, n) == CountOf(led.used, n) + multiset(toks)[n])
  {
    UseAllEffect(led, Usages(text));
    UseAllCounts(led, Usages(text));
  }

  // ---------------------------------------------------------------------
  // One line
  // ---------------------------------------------------------------------

  /** Only the first line can be the flag, and only when it is exactly `~`. */
  lemma ClassifyFlag(ph: Phase, lineNum: nat, line: string)
    ensures Classify(ph, lineNum, line) == CompressionFlag <==> lineNum == 0 && line == "~"
  {
  }

  /** The counters a line of kind `k` adds to (after `total_lines`). */
  lemma CountCounters(s: Stats, k: LineKind, bytes: nat)
    ensures var s' := Count(s, k, bytes);
            s'.totalLines == s.totalLines
            && s'.compressionFlag == (s.compressionFlag || k.CompressionFlag?)
            && s'.definitionLines == s.definitionLines + (if InBucket(k, DefinitionLine) then 1 else 0)
            && s'.definitionSize == s.definitionSize + (if InBucket(k, DefinitionLine) then bytes else 0)
            && s'.definitionAtOverhead == s.definitionAtOverhead + (if InBucket(k, DefinitionLine) then 1 else 0)
            && s'.commandLines == s.commandLines + (if InBucket(k, CommandLine) then 1 else 0)
            && s'.commandSize == s.commandSize + (if InBucket(k, CommandLine) then bytes else 0)
            && s'.otherLines == s.otherLines + (if InBucket(k, OtherLine) then 1 else 0)
            && s'.otherSize == s.otherSize + (if InBucket(k, OtherLine) then bytes else 0)
            && s'.blockPrefixOverhead == s.blockPrefixOverhead + (if InBucket(k, PrefixedBodyLine) then 2 else 0)
  {
  }

  /** The counters a line of kind `k` adds to, `total_lines` included. */
  lemma AccountCounters(led: Ledger, k: LineKind, line: string)
    ensures var s, s' := led.stats, Account(led, k, line).stats;
            var bytes := Utf8Length(line);
            s'.totalLines == s.totalLines + 1
            && s'.compressionFlag == (s.compressionFlag || k.CompressionFlag?)
            && s'.definitionLines == s.definitionLines + (if InBucket(k, DefinitionLine) then 1 else 0)
            && s'.definitionSize == s.definitionSize + (if InBucket(k, DefinitionLine) then bytes else 0)
            && s'.definitionAtOverhead == s.definitionAtOverhead + (if InBucket(k, DefinitionLine) then 1 else 0)
            && s'.commandLines == s.commandLines + (if InBucket(k, CommandLine) then 1 else 0)
            && s'.commandSize == s.commandSize + (if InBucket(k, CommandLine) then bytes else 0)
            && s'.otherLines == s.otherLines + (if InBucket(k, OtherLine) then 1 else 0)
            && s'.otherSize == s.otherSize + (if InBucket(k, OtherLine) then bytes else 0)
            && s'.blockPrefixOverhead == s.blockPrefixOverhead + (if InBucket(k, PrefixedBodyLine) then 2 else 0)
  {
    CountCounters(CountLine(led.stats), k, Utf8Length(line));
    ScanTextEffect(Ledger(Count(CountLine(led.stats), k, Utf8Length(line)), Define(led.defined, k), led.used), Scanned(k, line));
  }

  // ---------------------------------------------------------------------
  // The whole file: counters
  // ---------------------------------------------------------------------

  /** Number of lines of `lines` booked under `b`. */
  function LinesIn(lines: seq<string>, b: Bucket): nat {
    if lines == [] then 0
    else LinesIn(lines[..|lines| - 1], b) + if InBucket(KindOf(lines, |lines| - 1), b) then 1 else 0
  }

  /** Total UTF-8 length of the lines of `lines` booked under `b`. */
  function BytesIn(lines: seq<string>, b: Bucket): nat {
    if lines == [] then 0
    else BytesIn(lines[..|lines| - 1], b) + if InBucket(KindOf(lines, |lines| - 1), b) then Utf8Length(lines[|lines| - 1]) else 0
  }

  /** Total UTF-8 length of all the lines. */
  function LinesBytes(lines: seq<string>): nat {
    if lines == [] then 0 else LinesBytes(lines[..|lines| - 1]) + Utf8Length(lines[|lines| - 1])
  }

  /** `total_lines` counts every line, and the flag is set exactly when the first line is `~`. */
  lemma {:induction false} FlagCounters(lines: seq<string>)
    ensures var s := LedgerOf(lines).stats;
            s.totalLines == |lines|
            && s.compressionFlag == (|lines| > 0 && lines[0] == "~")
            && LinesIn(lines, FlagLine) == BytesIn(lines, FlagLine) == (if s.compressionFlag then 1 else 0)
  {
    if lines != [] {
      var init := lines[..|lines| - 1];
      var i := |lines| - 1;
      FlagCounters(init);
      AccountCounters(LedgerOf(init), KindOf(lines, i), lines[i]);
      LastLineFlag(lines);
    }
  }

  /** The last line read is the flag only when it is the first line and is `~`, one byte long. */
  lemma LastLineFlag(lines: seq<string>)
    requires lines != []
    ensures var i := |lines| - 1;
            (KindOf(lines, i).CompressionFlag? <==> i == 0 && lines[0] == "~")
            && (KindOf(lines, i).CompressionFlag? ==> Utf8Length(lines[i]) == 1)
            && (i > 0 ==> lines[..i][0] == lines[0])
  {
    var i := |lines| - 1;
    ClassifyFlag(PhaseOf(lines[..i]), i, lines[i]);
    if lines[i] == "~" {
      assert Utf8Length(lines[i]) == 1;
    }
  }

  /**
   * Each line counter is the number of lines of its kind and each size
   * counter their byte total; H2 is one per definition line and H1 two per
   * prefixed body line.
   */
  lemma {:induction false} LineCounters(lines: seq<string>)
    ensures var s := LedgerOf(lines).stats;
            s.definitionLines == LinesIn(lines, DefinitionLine) && s.definitionSize == BytesIn(lines, DefinitionLine)
            && s.definitionAtOverhead == s.definitionLines
            && s.commandLines == LinesIn(lines, CommandLine) && s.commandSize == BytesIn(lines, CommandLine)
            && s.otherLines == LinesIn(lines, OtherLine) && s.otherSize == BytesIn(lines, OtherLine)
            && s.blockPrefixOverhead == 2 * LinesIn(lines, PrefixedBodyLine)
  {
    if lines != [] {
      var init := lines[..|lines| - 1];
      LineCounters(init);
      AccountCounters(LedgerOf(init), KindOf(lines, |lines| - 1), lines[|lines| - 1]);
    }
  }

  /** Every line is booked under exactly one of the flag, definition, command and other counters. */
  lemma {:induction false} BucketsCover(lines: seq<string>)
    ensures LinesIn(lines, FlagLine) + LinesIn(lines, DefinitionLine) + LinesIn(lines, CommandLine) + LinesIn(lines, OtherLine) == |lines|
    ensures BytesIn(lines, FlagLine) + BytesIn(lines, DefinitionLine) + BytesIn(lines, CommandLine) + BytesIn(lines, OtherLine) == LinesBytes(lines)
    ensures LinesIn(lines, PrefixedBodyLine) <= LinesIn(lines, BodyLine) <= LinesIn(lines, CommandLine)
  {
    if lines != [] {
      BucketsCover(lines[..|lines| - 1]);
    }
  }

  /**
   * The line partition: apart from a leading `~`, every line is a
   * definition, a command or other, and their byte totals add up to the
   * file's lines; H1 is at most two bytes per body line.
   */
  lemma LinePartition(lines: seq<string>)
    ensures var s := LedgerOf(lines).stats;
            var flag := if s.compressionFlag then 1 else 0;
            s.definitionLines + s.commandLines + s.otherLines + flag == s.totalLines
            && s.definitionSize + s.commandSize + s.otherSize + flag == LinesBytes(lines)
            && s.definitionAtOverhead == s.definitionLines
            && s.blockPrefixOverhead <= 2 * LinesIn(lines, BodyLine)
  {
    FlagCounters(lines);
    LineCounters(lines);
    BucketsCover(lines);
  }

  // ---------------------------------------------------------------------
  // The control state: the definitions phase and blocks
  // ---------------------------------------------------------------------

  /** A block is open exactly while lines remain in it, and never during the definitions phase. */
  predicate PhaseOk(ph: Phase) {
    ph.blockLinesRemaining >= 0
    && (ph.inBlock <==> ph.blockLinesRemaining > 0)
    && (ph.inBlock ==> !ph.parsingDefinitions)
  }

  lemma AdvanceKeepsPhaseOk(ph: Phase, lineNum: nat, line: string)
    requires PhaseOk(ph)
    ensures PhaseOk(Advance(ph, Classify(ph, lineNum, line)))
  {
  }

  /** `in_block` implies `block_lines_remaining > 0` after any number of lines, and conversely. */
  lemma {:induction false} PhaseInvariant(lines: seq<string>)
    ensures PhaseOk(PhaseOf(lines))
  {
    if lines != [] {
      var init := lines[..|lines| - 1];
      PhaseInvariant(init);
      AdvanceKeepsPhaseOk(PhaseOf(init), |lines| - 1, lines[|lines| - 1]);
    }
  }

  /** The phase survives a line only when that line is a definition or the flag. */
  lemma AdvanceParsing(ph: Phase, k: LineKind)
    ensures Advance(ph, k).parsingDefinitions == (ph.parsingDefinitions && Opens(k))
  {
  }

  /** Definition kinds are produced only in the definitions phase. */
  lemma DefinitionNeedsPhase(ph: Phase, lineNum: nat, line: string)
    ensures IsDefinitionKind(Classify(ph, lineNum, line)) ==> ph.parsingDefinitions
  {
  }

  /** A line that keeps the definitions phase going: a definition or the flag. */
  predicate Opens(k: LineKind) {
    IsDefinitionKind(k) || k.CompressionFlag?
  }

  /** Whether line `j` of the file keeps the phase going (false past the end). */
  function OpensAt(lines: seq<string>): nat -> bool {
    (j: nat) => j < |lines| && Opens(KindOf(lines, j))
  }

  /** `p` holds of each of `0 .. i - 1`, folded one index at a time. */
  function AllUpTo(p: nat -> bool, i: nat): bool {
    i == 0 || (AllUpTo(p, i - 1) && p(i - 1))
  }

  lemma {:induction false} AllUpToForall(p: nat -> bool, i: nat)
    ensures AllUpTo(p, i) <==> forall j: nat :: j < i ==> p(j)
  {
    if i > 0 {
      AllUpToForall(p, i - 1);
    }
  }

  lemma {:induction false} PhaseParsing(lines: seq<string>, i: nat)
    requires i <= |lines|
    ensures PhaseOf(lines[..i]).parsingDefinitions == AllUpTo(OpensAt(lines), i)
  {
    if i > 0 {
      PhaseParsing(lines, i - 1);
      PhaseOfNext(lines, i - 1);
      AdvanceParsing(PhaseOf(lines[..i - 1]), KindOf(lines, i - 1));
    }
  }

  /** The definitions phase lasts exactly as long as every line so far is a definition or the flag. */
  lemma DefinitionsPhase(lines: seq<string>, i: nat)
    requires i <= |lines|
    ensures PhaseOf(lines[..i]).parsingDefinitions <==> forall j :: 0 <= j < i ==> Opens(KindOf(lines, j))
  {
    PhaseParsing(lines, i);
    AllUpToForall(OpensAt(lines), i);
    forall j | 0 <= j < i
      ensures OpensAt(lines)(j) == Opens(KindOf(lines, j))
    {
    }
  }

  /** The phase is one-way: a definition line is preceded only by definition lines and the flag. */
  lemma DefinitionsFirst(lines: seq<string>, i: nat, j: nat)
    requires i < j < |lines| && IsDefinitionKind(KindOf(lines, j))
    ensures Opens(KindOf(lines, i))
  {
    DefinitionNeedsPhase(PhaseOf(lines[..j]), j, lines[j]);
    DefinitionsPhase(lines, j);
  }

  /** The line that ends the phase is read as a header, command or other in the same step, and the phase is over. */
  lemma PhaseEnd(lines: seq<string>, i: nat)
    requires i < |lines| && PhaseOf(lines[..i]).parsingDefinitions
    requires !Opens(KindOf(lines, i))
    ensures KindOf(lines, i) == TopLevelKind(lines[i])
    ensures !PhaseOf(lines[..i + 1]).parsingDefinitions
  {
    var ph := PhaseOf(lines[..i]);
    PhaseInvariant(lines[..i]);
    ClassifyFlag(ph, i, lines[i]);
    ClassifyTopLevel(ph, i, lines[i]);
    PhaseOfNext(lines, i);
    AdvanceParsing(ph, KindOf(lines, i));
  }

  /** The header line opens a block of `n` lines (none when `n` is 0). */
  lemma HeaderOpens(lines: seq<string>, i: nat, n: nat)
    requires i < |lines| && KindOf(lines, i) == BlockHeader(n)
    ensures PhaseOf(lines[..i + 1]) == Phase(false, n > 0, n)
  {
    PhaseOfNext(lines, i);
  }

  /** A line read inside a block after the first line is a body line and uses up one line of the block. */
  lemma BodyStep(ph: Phase, lineNum: nat, line: string)
    requires !ph.parsingDefinitions && ph.inBlock && lineNum > 0
    ensures Classify(ph, lineNum, line) == BodyKind(line)
    ensures Advance(ph, Classify(ph, lineNum, line))
            == Phase(false, ph.blockLinesRemaining != 1, ph.blockLinesRemaining - 1)
  {
    ClassifyInBlock(ph, lineNum, line);
  }

  /** The control state before each line of the file: `PhasesOf(lines)(j)` is the state after reading `j` lines. */
  function PhasesOf(lines: seq<string>): nat -> Phase {
    (j: nat) => if j <= |lines| then PhaseOf(lines[..j]) else Start.phase
  }

  /** Reading line `j` inside a block uses up one of its lines. */
  lemma BlockLineStep(lines: seq<string>, j: nat)
    requires 0 < j < |lines| && !PhasesOf(lines)(j).parsingDefinitions && PhasesOf(lines)(j).inBlock
    ensures var f := PhasesOf(lines);
            f(j + 1) == Phase(false, f(j).blockLinesRemaining != 1, f(j).blockLinesRemaining - 1)
  {
    BodyStep(PhaseOf(lines[..j]), j, lines[j]);
    PhaseOfNext(lines, j);
  }

  /** Counting down any run of states in which each state inside a block uses up one of its lines. */
  lemma {:induction false} CountdownOn(f: nat -> Phase, i: nat, n: nat, j: nat)
    requires i < j <= i + 1 + n
    requires f(i + 1) == Phase(false, n > 0, n)
    requires forall m :: i < m < j && !f(m).parsingDefinitions && f(m).inBlock ==>
               f(m + 1) == Phase(false, f(m).blockLinesRemaining != 1, f(m).blockLinesRemaining - 1)
    ensures f(j) == Phase(false, j <= i + n, i + 1 + n - j)
    decreases j
  {
    if j > i + 1 {
      CountdownOn(f, i, n, j - 1);
    }
  }

  /** Every line read inside a block, past the first line, uses up one line of the block. */
  lemma BlockSteps(lines: seq<string>, i: nat, j: nat)
    requires j <= |lines|
    ensures var f := PhasesOf(lines);
            forall m :: i < m < j && !f(m).parsingDefinitions && f(m).inBlock ==>
              f(m + 1) == Phase(false, f(m).blockLinesRemaining != 1, f(m).blockLinesRemaining - 1)
  {
    var f := PhasesOf(lines);
    forall m | i < m < j && !f(m).parsingDefinitions && f(m).inBlock
      ensures f(m + 1) == Phase(false, f(m).blockLinesRemaining != 1, f(m).blockLinesRemaining - 1)
    {
      BlockLineStep(lines, m);
    }
  }

  /** Counting down a block: before line `j` of a block of `n` lines opened at line `i`, `i + 1 + n - j` remain. */
  lemma Countdown(lines: seq<string>, i: nat, n: nat, j: nat)
    requires i < j <= |lines| && j <= i + 1 + n
    requires PhaseOf(lines[..i + 1]) == Phase(false, n > 0, n)
    ensures PhaseOf(lines[..j]) == Phase(false, j <= i + n, i + 1 + n - j)
  {
    BlockSteps(lines, i, j);
    CountdownOn(PhasesOf(lines), i, n, j);
  }

  /** After a header with count `n` at line `i`, before line `j` of the block (or just after it) `i + 1 + n - j` lines remain. */
  lemma InsideBlock(lines: seq<string>, i: nat, n: nat, j: nat)
    requires i < j <= |lines| && j <= i + 1 + n && KindOf(lines, i) == BlockHeader(n)
    ensures PhaseOf(lines[..j]) == Phase(false, j <= i + n, i + 1 + n - j)
  {
    HeaderOpens(lines, i, n);
    Countdown(lines, i, n, j);
  }

  /**
   * Block bookkeeping: a header with count `n` makes exactly the next `n`
   * lines (fewer if the file ends first) block-body lines; the line after
   * them, and after a header with count 0 the very next line, is read as a
   * header, a command or other.
   */
  lemma BlockExtent(lines: seq<string>, i: nat, n: nat)
    requires i < |lines| && KindOf(lines, i) == BlockHeader(n)
    ensures forall j :: i < j <= i + n && j < |lines| ==> KindOf(lines, j) == BodyKind(lines[j])
    ensures i + n + 1 < |lines| ==> KindOf(lines, i + n + 1) == TopLevelKind(lines[i + n + 1])
  {
    forall j | i < j <= i + n && j < |lines|
      ensures KindOf(lines, j) == BodyKind(lines[j])
    {
      InsideBlock(lines, i, n, j);
      BodyStep(PhaseOf(lines[..j]), j, lines[j]);
    }
    if i + n + 1 < |lines| {
      var j := i + n + 1;
      InsideBlock(lines, i, n, j);
      TopLevelStep(PhaseOf(lines[..j]), j, lines[j]);
    }
  }

  /** After the definitions phase, outside a block, a line after the first is a header, a command or other. */
  lemma TopLevelStep(ph: Phase, lineNum: nat, line: string)
    requires !ph.parsingDefinitions && !ph.inBlock && lineNum > 0
    ensures Classify(ph, lineNum, line) == TopLevelKind(line)
  {
    ClassifyTopLevel(ph, lineNum, line);
  }


  // ---------------------------------------------------------------------
  // The definition table and the two classification sets
  // ---------------------------------------------------------------------

  /** Every defined id is in one of the two sets (a redefined one may be in both), and the savings split holds. */
  predicate LedgerOk(led: Ledger) {
    led.stats.fullLineVars + led.stats.fragmentVars == led.defined.Keys && SavingsSplit(led.stats)
  }

  /** Booking a line keeps the sets in step with the table. */
  lemma CountDefine(s: Stats, k: LineKind, bytes: nat, defined: map<string, string>)
    requires s.fullLineVars + s.fragmentVars == defined.Keys && SavingsSplit(s)
    ensures var s' := Count(s, k, bytes);
            s'.fullLineVars + s'.fragmentVars == Define(defined, k).Keys && SavingsSplit(s')
  {
  }

  lemma AccountKeepsOk(led: Ledger, k: LineKind, line: string)
    requires LedgerOk(led)
    ensures LedgerOk(Account(led, k, line))
  {
    var s := CountLine(led.stats);
    CountDefine(s, k, Utf8Length(line), led.defined);
    ScanTextEffect(Ledger(Count(s, k, Utf8Length(line)), Define(led.defined, k), led.used), Scanned(k, line));
  }

  /**
   * After any number of lines, `full_line_vars` and `fragment_vars` together
   * hold exactly the defined ids, total replaced bytes are the sum of the two
   * buckets and the bucketed reference costs stay within H3.
   */
  lemma {:induction false} LedgerInvariant(lines: seq<string>)
    ensures LedgerOk(LedgerOf(lines))
  {
    if lines != [] {
      var init := lines[..|lines| - 1];
      LedgerInvariant(init);
      AccountKeepsOk(LedgerOf(init), KindOf(lines, |lines| - 1), lines[|lines| - 1]);
    }
  }

  /** Line `j` binds `name`. */
  predicate Binds(k: LineKind, name: string) {
    IsDefinitionKind(k) && k.name == name
  }

  /** The content a definition kind binds its id to. */
  function BoundContent(k: LineKind): string
    requires IsDefinitionKind(k)
  {
    if k.Definition? then k.content else ""
  }

  /** What reading a line does to the table and the sets, whatever the line's scan adds. */
  lemma AccountDefines(led: Ledger, k: LineKind, line: string)
    ensures var r := Account(led, k, line);
            r.defined == Define(led.defined, k)
            && r.stats.fullLineVars == led.stats.fullLineVars + (if k.Definition? && IsFullLine(k.content) then {k.name} else {})
            && r.stats.fragmentVars == led.stats.fragmentVars
                                       + (if k.BareDefinition? || (k.Definition? && !IsFullLine(k.content)) then {k.name} else {})
  {
    var s := CountLine(led.stats);
    ScanTextEffect(Ledger(Count(s, k, Utf8Length(line)), Define(led.defined, k), led.used), Scanned(k, line));
  }

  /**
   * A definition line binds its id to its content (a bare `@id` to the empty
   * string) and puts it in `full_line_vars` when the heuristic calls the
   * content a full line, in `fragment_vars` otherwise.
   */
  lemma DefinitionBuckets(lines: seq<string>, i: nat)
    requires i < |lines| && IsDefinitionKind(KindOf(lines, i))
    ensures var k, led := KindOf(lines, i), LedgerOf(lines[..i + 1]);
            k.name in led.defined && led.defined[k.name] == BoundContent(k)
            && (k.Definition? && IsFullLine(k.content) ==> k.name in led.stats.fullLineVars)
            && (k.BareDefinition? || !IsFullLine(k.content) ==> k.name in led.stats.fragmentVars)
  {
    LedgerOfNext(lines, i);
    AccountDefines(LedgerOf(lines[..i]), KindOf(lines, i), lines[i]);
  }

  /** The ledger before each line of the file: `LedgersOf(lines)(j)` is the ledger after reading `j` lines. */
  function LedgersOf(lines: seq<string>): nat -> Ledger {
    (j: nat) => if j <= |lines| then LedgerOf(lines[..j]) else Start.ledger
  }

  /** `b` has every id of `a` in its table and in each of its two sets. */
  predicate Grown(a: Ledger, b: Ledger) {
    a.defined.Keys <= b.defined.Keys
    && a.stats.fullLineVars <= b.stats.fullLineVars && a.stats.fragmentVars <= b.stats.fragmentVars
  }

  lemma {:induction false} GrowsOn(f: nat -> Ledger, i: nat, j: nat)
    requires i <= j
    requires forall m :: i <= m < j ==> Grown(f(m), f(m + 1))
    ensures Grown(f(i), f(j))
    decreases j - i
  {
    if i < j {
      GrowsOn(f, i, j - 1);
    }
  }

  /** A line takes no id out of the table or the sets. */
  lemma LedgerStep(lines: seq<string>, m: nat)
    requires m < |lines|
    ensures Grown(LedgersOf(lines)(m), LedgersOf(lines)(m + 1))
  {
    LedgerOfNext(lines, m);
    AccountDefines(LedgerOf(lines[..m]), KindOf(lines, m), lines[m]);
  }

  /** No line takes an id out of the table or the sets. */
  lemma LedgerSteps(lines: seq<string>, i: nat, j: nat)
    requires j <= |lines|
    ensures var f := LedgersOf(lines);
            forall m :: i <= m < j ==> Grown(f(m), f(m + 1))
  {
    forall m | i <= m < j
      ensures Grown(LedgersOf(lines)(m), LedgersOf(lines)(m + 1))
    {
      LedgerStep(lines, m);
    }
  }

  /** The table only gains or rebinds ids, and the two sets only grow. */
  lemma SetsGrow(lines: seq<string>, i: nat, j: nat)
    requires i <= j <= |lines|
    ensures var a, b := LedgerOf(lines[..i]), LedgerOf(lines[..j]);
            a.defined.Keys <= b.defined.Keys
            && a.stats.fullLineVars <= b.stats.fullLineVars && a.stats.fragmentVars <= b.stats.fragmentVars
  {
    LedgerSteps(lines, i, j);
    GrowsOn(LedgersOf(lines), i, j);
  }

  /** The definition table alone, folded over the lines' kinds. */
  function DefinedOf(lines: seq<string>): map<string, string> {
    if lines == [] then map[] else Define(DefinedOf(lines[..|lines| - 1]), KindOf(lines, |lines| - 1))
  }

  /** `defined_vars` depends on the kinds of the lines alone. */
  lemma {:induction false} DefinedOfLedger(lines: seq<string>)
    ensures LedgerOf(lines).defined == DefinedOf(lines)
  {
    if lines != [] {
      var init := lines[..|lines| - 1];
      DefinedOfLedger(init);
      AccountDefines(LedgerOf(init), KindOf(lines, |lines| - 1), lines[|lines| - 1]);
    }
  }

  lemma DefinedOfNext(lines: seq<string>, i: nat)
    requires i < |lines|
    ensures DefinedOf(lines[..i + 1]) == Define(DefinedOf(lines[..i]), KindOf(lines, i))
  {
    assert lines[..i + 1][..i] == lines[..i];
  }

  /** The table before each line of the file: `TablesOf(lines)(j)` is the table after reading `j` lines. */
  function TablesOf(lines: seq<string>): nat -> map<string, string> {
    (j: nat) => if j <= |lines| then DefinedOf(lines[..j]) else map[]
  }

  /** A line that does not bind `name` leaves its binding alone. */
  lemma TableStep(lines: seq<string>, m: nat, name: string)
    requires m < |lines| && name in TablesOf(lines)(m) && !Binds(KindOf(lines, m), name)
    ensures var f := TablesOf(lines);
            name in f(m + 1) && f(m + 1)[name] == f(m)[name]
  {
    DefinedOfNext(lines, m);
  }

  /** Lines that do not bind `name` leave its binding alone. */
  lemma TableSteps(lines: seq<string>, i: nat, j: nat, name: string)
    requires j <= |lines|
    requires forall m :: i < m < j ==> !Binds(KindOf(lines, m), name)
    ensures var f := TablesOf(lines);
            forall m :: i + 1 <= m < j && name in f(m) ==> name in f(m + 1) && f(m + 1)[name] == f(m)[name]
  {
    var f := TablesOf(lines);
    forall m | i + 1 <= m < j && name in f(m)
      ensures name in f(m + 1) && f(m + 1)[name] == f(m)[name]
    {
      TableStep(lines, m, name);
    }
  }

  /** With no later line binding `name`, its binding stays as line `i` left it. */
  lemma BindingKept(lines: seq<string>, i: nat, j: nat, name: string)
    requires i < j <= |lines| && name in DefinedOf(lines[..i + 1])
    requires forall m :: i < m < j ==> !Binds(KindOf(lines, m), name)
    ensures name in DefinedOf(lines[..j]) && DefinedOf(lines[..j])[name] == DefinedOf(lines[..i + 1])[name]
  {
    TableSteps(lines, i, j, name);
    KeptOn(TablesOf(lines), name, i + 1, j);
  }

  /** The last definition of an id wins: at the end the table holds what its last definition line bound. */
  lemma LastDefinitionWins(lines: seq<string>, i: nat)
    requires i < |lines| && IsDefinitionKind(KindOf(lines, i))
    requires forall m :: i < m < |lines| ==> !Binds(KindOf(lines, m), KindOf(lines, i).name)
    ensures var k := KindOf(lines, i);
            k.name in LedgerOf(lines).defined && LedgerOf(lines).defined[k.name] == BoundContent(k)
  {
    DefinitionBuckets(lines, i);
    DefinedOfLedger(lines[..i + 1]);
    BindingKept(lines, i, |lines|, KindOf(lines, i).name);
    assert lines[..|lines|] == lines;
    DefinedOfLedger(lines);
  }
}
