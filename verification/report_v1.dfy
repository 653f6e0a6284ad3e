/**
 * The integer part of the version 1 report, computed after the line loop:
 * the stray ids and their dead weight, and the total syntax overhead.
 */
module ReportV1 {
  import opened Text
  import opened Syntax
  import opened Costs
  import opened AnalyzerV1
  import opened AnalyzerV1Props

  datatype Report = Report(unused: set<string>, deadWeight: nat, totalOverhead: nat)

  /** The report the source prints for a ledger: the strays are the defined ids never used. */
  ghost function ReportOf(led: Ledger): Report {
    var d := led.defined;
    var unused := d.Keys - led.used.Keys;
    var s := led.stats;
    Report(unused, CostOf(d, unused),
           s.blockPrefixOverhead + s.definitionAtOverhead + s.commandAtOverhead + s.literalGapOverhead)
  }

  /** The post-analysis of a ledger, in the order the source computes it. */
  method PostAnalysis(stats: Stats, definedVars: map<string, string>, usedVarsCount: map<string, nat>)
    returns (r: Report)
    ensures r == ReportOf(Ledger(stats, definedVars, usedVarsCount))
  {
    var unusedVars := definedVars.Keys - usedVarsCount.Keys;
    var unusedSize := StrayWeight(definedVars, unusedVars);
    var totalOverhead := stats.blockPrefixOverhead + stats.definitionAtOverhead
                         + stats.commandAtOverhead + stats.literalGapOverhead;
    r := Report(unusedVars, unusedSize, totalOverhead);
  }

  /** `analyze_patch` without its I/O: the line loop, then the post-analysis. */
  method AnalyzePatch(lines: seq<string>) returns (r: Report)
    ensures r == ReportOf(LedgerOf(lines))
  {
    var stats, definedVars, usedVarsCount := AnalyzeLines(lines);
    r := PostAnalysis(stats, definedVars, usedVarsCount);
  }

  /**
   * For any ledger: the strays are defined ids nobody used, and their dead
   * weight is at least two bytes each and at most what the whole table costs.
   */
  lemma ReportBalances(led: Ledger)
    ensures var r, keys := ReportOf(led), led.defined.Keys;
            r.unused <= keys && r.unused !! led.used.Keys
            && 2 * |r.unused| <= r.deadWeight <= CostOf(led.defined, keys)
            && (r.unused == {} <==> r.deadWeight == 0)
  {
    var keys := led.defined.Keys;
    CostOfSubset(led.defined, keys - led.used.Keys, keys);
    CostOfAtLeastTwoEach(led.defined, keys - led.used.Keys);
  }

  /**
   * The report of a whole file: an id is a stray exactly when it is defined
   * and no scanned reference names it, and the overhead is two bytes per
   * prefixed body line, one per definition line, one per reference scanned
   * and every gap header's cost.
   */
  lemma FileReport(lines: seq<string>)
    ensures var led, r := LedgerOf(lines), ReportOf(LedgerOf(lines));
            var toks := TokensOf(lines);
            (forall n :: n in r.unused <==> n in led.defined && n !in toks)
            && r.totalOverhead == 2 * LinesIn(lines, PrefixedBodyLine) + LinesIn(lines, DefinitionLine)
                                  + |toks| + GapCost(GapsOf(lines))
  {
    LineCounters(lines);
    AtOverheadCount(lines);
    GapOverheadTotal(lines);
    UsageCounts(lines);
  }
}
