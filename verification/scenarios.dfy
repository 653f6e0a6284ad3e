/**
 * A worked file, read by the version 2 analyser: a fragment definition
 * used once inside a one-line block costs more than it saves.
 */
module Scenarios {
  import opened Text
  import opened Syntax
  import opened Costs
  import opened AnalyzerV2
  import opened AnalyzerV2Props
  import opened AnalyzerV2Refs
  import opened ReportV2

  /** `@x hello`, a one-line `A+` block, and a body line using `@x`. */
  predicate IsSample(lines: seq<string>) {
    |lines| == 3 && lines[0] == "@x hello" && lines[1] == "1 A+ 1" && lines[2] == "a @x"
  }

  lemma SampleDefinition(lines: seq<string>)
    requires IsSample(lines)
    ensures MatchDefinition(lines[0]) == Some(("@x", "hello"))
    ensures KindOf(lines, 0) == Definition("@x", "hello")
  {
    MatchDefinitionComplete("@x", ' ', "hello");
    assert "@x" + [' '] + "hello" == lines[0];
    assert lines[..0] == [];
  }

  lemma SampleHeader(lines: seq<string>)
    requires IsSample(lines)
    ensures MatchDefinition(lines[1]) == None && !IsReference(lines[1])
    ensures MatchBlockHeader(lines[1]) == Some(1)
  {
    var line := lines[1];
    assert HeaderShape(line, 1, 2, 5);
    BlockHeaderComplete(line, 1, 2, 5);
    assert line[5..] == "1";
    assert DecimalValue("1") == DecimalValue("") * 10 + 1;
  }

  lemma SamplePhases(lines: seq<string>)
    requires IsSample(lines)
    ensures PhaseOf(lines[..1]) == Phase(true, false, 0)
    ensures KindOf(lines, 1) == BlockHeader(1)
    ensures PhaseOf(lines[..2]) == Phase(false, true, 1)
    ensures KindOf(lines, 2) == BlockBody("@x", true)
  {
    SampleDefinition(lines);
    PhaseOfNext(lines, 0);
    assert lines[..0] == [];
    SampleHeader(lines);
    PhaseOfNext(lines, 1);
    BodyStep(PhaseOf(lines[..2]), 2, lines[2]);
    assert lines[2][2..] == "@x";
  }

  /** The three lines are a definition, a header opening one line, and a prefixed body line. */
  lemma SampleKinds(lines: seq<string>)
    requires IsSample(lines)
    ensures KindOf(lines, 0) == Definition("@x", "hello")
    ensures KindOf(lines, 1) == BlockHeader(1)
    ensures KindOf(lines, 2) == BlockBody("@x", true)
  {
    SampleDefinition(lines);
    SamplePhases(lines);
  }

  lemma TokensOfNext(lines: seq<string>, i: nat)
    requires i < |lines|
    ensures TokensOf(lines[..i + 1]) == TokensOf(lines[..i]) + Usages(ScannedAt(lines, i))
  {
    assert lines[..i + 1][..i] == lines[..i];
  }

  /** The definition and the header are not scanned; the body line's content `@x` is. */
  lemma SampleScanned(lines: seq<string>)
    requires IsSample(lines)
    ensures ScannedAt(lines, 0) == "" && ScannedAt(lines, 1) == "" && ScannedAt(lines, 2) == "@x"
  {
    SampleKinds(lines);
  }

  lemma SampleUsages()
    ensures Usages("") == [] && Usages("@x") == ["@x"]
  {
    UsagesAfterReference("@x", "");
    assert "@x" + "" == "@x";
  }

  /** Only the body line is scanned, and its one token is `@x`. */
  lemma SampleTokens(lines: seq<string>)
    requires IsSample(lines)
    ensures TokensOf(lines) == ["@x"]
  {
    SampleScanned(lines);
    SampleUsages();
    assert lines[..0] == [];
    TokensOfNext(lines, 0);
    TokensOfNext(lines, 1);
    TokensOfNext(lines, 2);
    assert lines[..3] == lines;
  }

  /** `@x` is the only id defined. */
  lemma SampleTable(lines: seq<string>)
    requires IsSample(lines)
    ensures DefinedOf(lines) == map["@x" := "hello"]
  {
    SampleKinds(lines);
    assert lines[..0] == [];
    DefinedOfNext(lines, 0);
    DefinedOfNext(lines, 1);
    DefinedOfNext(lines, 2);
    assert lines[..3] == lines;
  }

  /** A line that is not a full-line definition leaves `full_line_vars` as it was. */
  lemma FullLineVarsKept(lines: seq<string>, i: nat, k: LineKind)
    requires i < |lines| && KindOf(lines, i) == k
    requires !(k.Definition? && IsFullLine(k.content))
    ensures LedgerOf(lines[..i + 1]).stats.fullLineVars == LedgerOf(lines[..i]).stats.fullLineVars
  {
    LedgerOfNext(lines, i);
    AccountDefines(LedgerOf(lines[..i]), KindOf(lines, i), lines[i]);
  }

  /** `hello` is only five characters long, so `@x` is not a full line. */
  lemma SampleSets(lines: seq<string>)
    requires IsSample(lines)
    ensures LedgerOf(lines).stats.fullLineVars == {}
  {
    SampleKinds(lines);
    assert !IsFullLine("hello");
    FullLineVarsKept(lines, 0, Definition("@x", "hello"));
    FullLineVarsKept(lines, 1, BlockHeader(1));
    FullLineVarsKept(lines, 2, BlockBody("@x", true));
    assert lines[..0] == [];
    assert lines[..3] == lines;
  }

  /** The sums of the report for the table `{@x: hello}` and the single token `@x`. */
  lemma SampleSums(d: map<string, string>, toks: seq<string>)
    requires d == map["@x" := "hello"] && toks == ["@x"]
    ensures CostOf(d, d.Keys * {}) == 0 && CostOf(d, d.Keys - {}) == 7
    ensures Replaced(d, d.Keys, toks) == 5
    ensures Replaced(d, {}, toks) == 0 && RefCost(d, {}, toks) == 0
    ensures Replaced(d, d.Keys - {}, toks) == 5 && RefCost(d, d.Keys - {}, toks) == 2
  {
    assert d.Keys == {"@x"} && d.Keys * {} == {} && d.Keys - {} == {"@x"};
    CostOfRemove(d, {"@x"}, "@x");
    assert {"@x"} - {"@x"} == {};
    assert Utf8Length("hello") == 5 by {
      Utf8LengthAscii("hello");
    }
    assert Utf8Length("@x") == 2 by {
      Utf8LengthAscii("@x");
    }
    assert toks[..0] == [];
  }

  /**
   * The reference `@x` costs its two bytes, so the fragment bucket nets
   * `5 - (7 + 2) == -4` bytes, and so does the whole file.
   */
  lemma SampleReport(lines: seq<string>)
    requires IsSample(lines)
    ensures var r := ReportOf(LedgerOf(lines));
            r.defCostFragment == 7 && r.totalReplaced == 5
            && r.netSavingsFragment == -4 && r.totalSavings == -4
  {
    SampleTokens(lines);
    SampleTable(lines);
    DefinedOfLedger(lines);
    SampleSets(lines);
    SampleSums(LedgerOf(lines).defined, TokensOf(lines));
    FileReport(lines);
  }
}
