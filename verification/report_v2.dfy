/**
 * The integer part of the version 2 report, computed after the line loop:
 * the definition cost of each savings bucket, the stray ids and their dead
 * weight, the total syntax overhead, and the net savings per bucket and in
 * total. Net savings can be negative, so they are `int`.
 */
module ReportV2 {
  import opened Text
  import opened Syntax
  import opened Costs
  import opened AnalyzerV2
  import opened AnalyzerV2Props
  import opened AnalyzerV2Refs

  datatype Report = Report(
    defCostFull: nat,
    defCostFragment: nat,
    unused: set<string>,
    deadWeight: nat,
    totalOverhead: nat,
    totalCostFull: nat,
    netSavingsFull: int,
    totalCostFragment: nat,
    netSavingsFragment: int,
    totalReplaced: nat,
    totalCost: nat,
    totalSavings: int)

  /** H1 + H2 + H3 + H4. */
  function TotalOverhead(s: Stats): nat {
    s.blockPrefixOverhead + s.definitionAtOverhead + s.totalReferenceCost + s.literalGapOverhead
  }

  /** The report's arithmetic, from the counters and the three cost sums. */
  function Assemble(s: Stats, unused: set<string>, defCostFull: nat, defCostFragment: nat, deadWeight: nat): Report {
    var costFull := defCostFull + s.fullLineRefCost;
    var costFrag := defCostFragment + s.fragmentRefCost;
    Report(defCostFull, defCostFragment, unused, deadWeight, TotalOverhead(s),
           costFull, s.fullLineReplaced - costFull, costFrag, s.fragmentReplaced - costFrag,
           s.totalReplacedBytes, costFull + costFrag,
           (s.fullLineReplaced - costFull) + (s.fragmentReplaced - costFrag))
  }

  /**
   * The report the source prints for a ledger: each defined id's cost goes
   * to the full-line bucket when it is in `full_line_vars`, to the fragment
   * bucket otherwise; the strays are the defined ids never used.
   */
  ghost function ReportOf(led: Ledger): Report {
    var d, f := led.defined, led.stats.fullLineVars;
    var unused := d.Keys - led.used.Keys;
    Assemble(led.stats, unused, CostOf(d, d.Keys * f), CostOf(d, d.Keys - f), CostOf(d, unused))
  }

  /** Taking a full-line id out of the walk moves its cost out of the full-line remainder only. */
  lemma TakeFull(defined: map<string, string>, rest: set<string>, full: set<string>, name: string)
    requires rest <= defined.Keys && name in rest && name in full
    ensures CostOf(defined, rest * full) == DefinitionCost(defined[name]) + CostOf(defined, (rest - {name}) * full)
    ensures CostOf(defined, rest - full) == CostOf(defined, (rest - {name}) - full)
  {
    CostOfRemove(defined, rest * full, name);
    assert (rest - {name}) * full == rest * full - {name};
    assert (rest - {name}) - full == rest - full;
  }

  /** Taking a fragment id out of the walk moves its cost out of the fragment remainder only. */
  lemma TakeFragment(defined: map<string, string>, rest: set<string>, full: set<string>, name: string)
    requires rest <= defined.Keys && name in rest && name !in full
    ensures CostOf(defined, rest - full) == DefinitionCost(defined[name]) + CostOf(defined, (rest - {name}) - full)
    ensures CostOf(defined, rest * full) == CostOf(defined, (rest - {name}) * full)
  {
    CostOfRemove(defined, rest - full, name);
    assert (rest - {name}) - full == (rest - full) - {name};
    assert (rest - {name}) * full == rest * full;
  }

  /** The two buckets together cost what the whole table costs. */
  lemma BucketsCost(defined: map<string, string>, full: set<string>)
    ensures CostOf(defined, defined.Keys * full) + CostOf(defined, defined.Keys - full) == CostOf(defined, defined.Keys)
  {
    var keys := defined.Keys;
    CostOfUnion(defined, keys * full, keys - full);
    assert keys * full + (keys - full) == keys;
  }

  /**
   * The loop over `defined_vars.items()`: `2 + bytes(content)` per id, to the
   * full-line total when the id is in `full_line_vars`, to the fragment total
   * otherwise, in whatever order the table is walked.
   */
  method DefinitionCosts(definedVars: map<string, string>, fullLineVars: set<string>)
    returns (defCostFull: nat, defCostFragment: nat)
    ensures defCostFull == CostOf(definedVars, definedVars.Keys * fullLineVars)
    ensures defCostFragment == CostOf(definedVars, definedVars.Keys - fullLineVars)
    ensures defCostFull + defCostFragment == CostOf(definedVars, definedVars.Keys)
  {
    var keys := definedVars.Keys;
    defCostFull, defCostFragment := 0, 0;
    var rest := keys;
    while rest != {}
      invariant rest <= keys
      invariant defCostFull + CostOf(definedVars, rest * fullLineVars) == CostOf(definedVars, keys * fullLineVars)
      invariant defCostFragment + CostOf(definedVars, rest - fullLineVars) == CostOf(definedVars, keys - fullLineVars)
      decreases |rest|
    {
      var varName :| varName in rest;
      var cost := DefinitionCost(definedVars[varName]);
      if varName in fullLineVars {
        TakeFull(definedVars, rest, fullLineVars, varName);
        defCostFull := defCostFull + cost;
      } else {
        TakeFragment(definedVars, rest, fullLineVars, varName);
        defCostFragment := defCostFragment + cost;
      }
      rest := rest - {varName};
    }
    BucketsCost(definedVars, fullLineVars);
  }

  /** The post-analysis of a ledger, in the order the source computes it. */
  method PostAnalysis(stats: Stats, definedVars: map<string, string>, usedVarsCount: map<string, nat>)
    returns (r: Report)
    ensures r == ReportOf(Ledger(stats, definedVars, usedVarsCount))
  {
    var defCostFull, defCostFragment := DefinitionCosts(definedVars, stats.fullLineVars);
    var unusedVars := definedVars.Keys - usedVarsCount.Keys;
    var unusedSize := StrayWeight(definedVars, unusedVars);
    var totalOverhead := stats.blockPrefixOverhead + stats.definitionAtOverhead
                         + stats.totalReferenceCost + stats.literalGapOverhead;
    var totalCostFull := defCostFull + stats.fullLineRefCost;
    var netSavingsFull := stats.fullLineReplaced - totalCostFull;
    var totalCostFragment := defCostFragment + stats.fragmentRefCost;
    var netSavingsFragment := stats.fragmentReplaced - totalCostFragment;
    var totalReplaced := stats.totalReplacedBytes;
    var totalCost := totalCostFull + totalCostFragment;
    var totalSavings := netSavingsFull + netSavingsFragment;
    r := Report(defCostFull, defCostFragment, unusedVars, unusedSize, totalOverhead,
                totalCostFull, netSavingsFull, totalCostFragment, netSavingsFragment,
                totalReplaced, totalCost, totalSavings);
    assert r == Assemble(stats, unusedVars, defCostFull, defCostFragment, unusedSize);
  }

  /** `analyze_patch` without its I/O: the line loop, then the post-analysis. */
  method AnalyzePatch(lines: seq<string>) returns (r: Report)
    ensures r == ReportOf(LedgerOf(lines))
  {
    var stats, definedVars, usedVarsCount := AnalyzeLines(lines);
    r := PostAnalysis(stats, definedVars, usedVarsCount);
  }

  // ---------------------------------------------------------------------
  // What the report promises
  // ---------------------------------------------------------------------

  /**
   * For any ledger: each defined id is charged to exactly one bucket, the
   * strays are defined ids nobody used, their dead weight is at most the
   * definition cost, and total savings add up across the two buckets.
   */
  lemma ReportBalances(led: Ledger)
    ensures var r, keys := ReportOf(led), led.defined.Keys;
            r.defCostFull + r.defCostFragment == CostOf(led.defined, keys)
            && r.unused <= keys && r.unused !! led.used.Keys
            && r.deadWeight <= r.defCostFull + r.defCostFragment
            && r.deadWeight >= 2 * |r.unused|
            && r.totalCost == CostOf(led.defined, keys) + led.stats.fullLineRefCost + led.stats.fragmentRefCost
            && r.totalSavings == r.netSavingsFull + r.netSavingsFragment
  {
    var keys := led.defined.Keys;
    BucketsCost(led.defined, led.stats.fullLineVars);
    CostOfSubset(led.defined, keys - led.used.Keys, keys);
    CostOfAtLeastTwoEach(led.defined, keys - led.used.Keys);
  }

  /** With the replaced bytes split between the buckets, total savings are total replaced bytes less total cost. */
  lemma SavingsReconcile(led: Ledger)
    requires SavingsSplit(led.stats)
    ensures ReportOf(led).totalSavings == ReportOf(led).totalReplaced - ReportOf(led).totalCost
  {
  }

  /**
   * The report of a whole file: the savings reconcile, the overhead is the
   * prefix bytes, one byte per definition line, every reference's bytes and
   * every gap header's cost, and each bucket's savings are the bytes its
   * references stand for less what its definitions and references cost.
   */
  lemma FileReport(lines: seq<string>)
    ensures var led, r := LedgerOf(lines), ReportOf(LedgerOf(lines));
            var d, toks := led.defined, TokensOf(lines);
            var full, frag := led.stats.fullLineVars, d.Keys - led.stats.fullLineVars;
            r.totalSavings == r.totalReplaced - r.totalCost
            && r.totalOverhead == 2 * LinesIn(lines, PrefixedBodyLine) + LinesIn(lines, DefinitionLine)
                                  + TokensBytes(toks) + GapCost(GapsOf(lines))
            && r.totalReplaced == Replaced(d, d.Keys, toks)
            && r.netSavingsFull == Replaced(d, full, toks) - (CostOf(d, d.Keys * full) + RefCost(d, full, toks))
            && r.netSavingsFragment == Replaced(d, frag, toks) - (CostOf(d, frag) + RefCost(d, frag, toks))
  {
    var led := LedgerOf(lines);
    LedgerInvariant(lines);
    SavingsReconcile(led);
    LineCounters(lines);
    ReferenceCostTotal(lines);
    GapOverheadTotal(lines);
    ReplacedTotals(lines);
  }
}
