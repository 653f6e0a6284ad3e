/**
 * The reference side of the version 2 ledger over a whole file: H3, H4
 * and the usage counts are sums over the `@id` tokens and `#<digits>`
 * headers of the scanned lines, and the replaced bytes and reference costs
 * of each savings bucket are sums over the tokens whose id is defined.
 */
module AnalyzerV2Refs {
  import opened Text
  import opened Syntax
  import opened AnalyzerV2
  import opened AnalyzerV2Props

  // ---------------------------------------------------------------------
  // Token and gap lists of a file
  // ---------------------------------------------------------------------

  /** The text of line `i` that is scanned for references and gap headers. */
  function ScannedAt(lines: seq<string>, i: nat): string
    requires i < |lines|
  {
    Scanned(KindOf(lines, i), lines[i])
  }

  /** Every `@id` token the loop scans, in file order. */
  function TokensOf(lines: seq<string>): seq<string> {
    if lines == [] then [] else TokensOf(lines[..|lines| - 1]) + Usages(ScannedAt(lines, |lines| - 1))
  }

  /** Every `#<digits>` gap header the loop scans, in file order. */
  function GapsOf(lines: seq<string>): seq<string> {
    if lines == [] then [] else GapsOf(lines[..|lines| - 1]) + GapHeaders(ScannedAt(lines, |lines| - 1))
  }

  lemma {:induction false} TokensBytesAppend(a: seq<string>, b: seq<string>)
    ensures TokensBytes(a + b) == TokensBytes(a) + TokensBytes(b)
    decreases |b|
  {
    if b == [] {
      assert a + b == a;
    } else {
      var b' := b[..|b| - 1];
      TokensBytesAppend(a, b');
      assert (a + b)[..|a + b| - 1] == a + b';
    }
  }

  /** What reading one line adds to H3, H4 and the usage counts. */
  lemma AccountScan(led: Ledger, k: LineKind, line: string)
    ensures var r := Account(led, k, line);
            var toks := Usages(Scanned(k, line));
            r.stats.totalReferenceCost == led.stats.totalReferenceCost + TokensBytes(toks)
            && r.stats.literalGapOverhead == led.stats.literalGapOverhead + GapCost(GapHeaders(Scanned(k, line)))
            && r.used.Keys == led.used.Keys + (set t | t in toks)
            && (forall n :: CountOf(r.used, n) == CountOf(led.used, n) + multiset(toks)[n])
  {
    var s := CountLine(led.stats);
    CountCounters(s, k, Utf8Length(line));
    ScanTextEffect(Ledger(Count(s, k, Utf8Length(line)), Define(led.defined, k), led.used), Scanned(k, line));
  }

  /** H3 is the total UTF-8 length of every reference scanned. */
  lemma {:induction false} ReferenceCostTotal(lines: seq<string>)
    ensures LedgerOf(lines).stats.totalReferenceCost == TokensBytes(TokensOf(lines))
  {
    if lines != [] {
      var init, i := lines[..|lines| - 1], |lines| - 1;
      ReferenceCostTotal(init);
      AccountScan(LedgerOf(init), KindOf(lines, i), lines[i]);
      TokensBytesAppend(TokensOf(init), Usages(ScannedAt(lines, i)));
    }
  }

  /** H4 is `2 + len(digits)` summed over every gap header scanned. */
  lemma {:induction false} GapOverheadTotal(lines: seq<string>)
    ensures LedgerOf(lines).stats.literalGapOverhead == GapCost(GapsOf(lines))
  {
    if lines != [] {
      var init, i := lines[..|lines| - 1], |lines| - 1;
      GapOverheadTotal(init);
      AccountScan(LedgerOf(init), KindOf(lines, i), lines[i]);
      GapCostAppend(GapsOf(init), GapHeaders(ScannedAt(lines, i)));
    }
  }

  /** `used_vars_count` has a key for exactly the ids scanned at least once. */
  lemma {:induction false} UsedIds(lines: seq<string>)
    ensures LedgerOf(lines).used.Keys == (set t | t in TokensOf(lines))
  {
    if lines != [] {
      var init, i := lines[..|lines| - 1], |lines| - 1;
      UsedIds(init);
      AccountScan(LedgerOf(init), KindOf(lines, i), lines[i]);
      var a, b := TokensOf(init), Usages(ScannedAt(lines, i));
      assert (set t | t in a + b) == (set t | t in a) + (set t | t in b);
    }
  }

  /** `used_vars_count` counts each `@id` as often as it is scanned. */
  lemma {:induction false} UsageCounts(lines: seq<string>)
    ensures forall n :: CountOf(LedgerOf(lines).used, n) == multiset(TokensOf(lines))[n]
  {
    if lines != [] {
      var init, i := lines[..|lines| - 1], |lines| - 1;
      UsageCounts(init);
      AccountScan(LedgerOf(init), KindOf(lines, i), lines[i]);
      var a, b := TokensOf(init), Usages(ScannedAt(lines, i));
      assert multiset(a + b) == multiset(a) + multiset(b);
    }
  }

  /** Every scanned token is an `@` followed by a run of word characters. */
  lemma {:induction false} TokensAreReferences(lines: seq<string>)
    ensures forall t :: t in TokensOf(lines) ==> IsReference(t)
  {
    if lines != [] {
      TokensAreReferences(lines[..|lines| - 1]);
    }
  }

  /** Every key of `used_vars_count` is a reference `@id`. */
  lemma UsedAreReferences(lines: seq<string>)
    ensures forall n :: n in LedgerOf(lines).used ==> IsReference(n)
  {
    UsedIds(lines);
    TokensAreReferences(lines);
  }

  // ---------------------------------------------------------------------
  // Replaced bytes and the savings buckets
  // ---------------------------------------------------------------------

  /** Bytes the tokens of `toks` whose id is defined and in `among` stand for. */
  function Replaced(defined: map<string, string>, among: set<string>, toks: seq<string>): nat {
    if toks == [] then 0
    else
      var t := toks[|toks| - 1];
      Replaced(defined, among, toks[..|toks| - 1]) + if t in defined && t in among then Utf8Length(defined[t]) else 0
  }

  /** Bytes of the tokens of `toks` whose id is defined and in `among`. */
  function RefCost(defined: map<string, string>, among: set<string>, toks: seq<string>): nat {
    if toks == [] then 0
    else
      var t := toks[|toks| - 1];
      RefCost(defined, among, toks[..|toks| - 1]) + if t in defined && t in among then Utf8Length(t) else 0
  }

  /**
   * The five savings counters of a ledger, as sums over `toks`: every token
   * of a defined id credits its content's bytes to the total, and its bytes
   * and its content's bytes to exactly one bucket — the full-line bucket
   * when the id is in `full_line_vars`, the fragment bucket otherwise.
   */
  predicate Credited(led: Ledger, toks: seq<string>) {
    var d, s := led.defined, led.stats;
    var full, frag := s.fullLineVars, d.Keys - s.fullLineVars;
    s.totalReplacedBytes == Replaced(d, d.Keys, toks)
    && s.fullLineReplaced == Replaced(d, full, toks) && s.fullLineRefCost == RefCost(d, full, toks)
    && s.fragmentReplaced == Replaced(d, frag, toks) && s.fragmentRefCost == RefCost(d, frag, toks)
  }

  /** One usage adds its credits, and changes neither the table nor the sets. */
  lemma UseReferenceCredits(led: Ledger, toks: seq<string>, t: string)
    requires Credited(led, toks)
    ensures Credited(UseReference(led, t), toks + [t])
  {
    UseReferenceEffect(led, t);
    assert (toks + [t])[..|toks|] == toks;
  }

  lemma {:induction false} UseAllCredits(led: Ledger, toks: seq<string>, more: seq<string>)
    requires Credited(led, toks)
    ensures Credited(UseAll(led, more), toks + more)
    decreases |more|
  {
    if more == [] {
      assert toks + more == toks;
    } else {
      var init, last := more[..|more| - 1], more[|more| - 1];
      UseAllCredits(led, toks, init);
      UseAllEffect(led, init);
      UseReferenceCredits(UseAll(led, init), toks + init, last);
      assert toks + init + [last] == toks + more;
    }
  }

  /** A line read past the definitions phase credits its tokens against the table as it stands. */
  lemma AccountCredits(led: Ledger, k: LineKind, line: string, toks: seq<string>)
    requires !IsDefinitionKind(k) && Credited(led, toks)
    ensures Credited(Account(led, k, line), toks + Usages(Scanned(k, line)))
  {
    var s := CountLine(led.stats);
    var l := Ledger(Count(s, k, Utf8Length(line)), Define(led.defined, k), led.used);
    CountCounters(s, k, Utf8Length(line));
    assert Credited(l, toks);
    UseAllCredits(l, toks, Usages(Scanned(k, line)));
  }

  /** A line of the definitions phase scans nothing. */
  lemma OpeningScansNothing(k: LineKind, line: string)
    requires Opens(k)
    ensures Usages(Scanned(k, line)) == [] && GapHeaders(Scanned(k, line)) == []
  {
  }

  /** While the definitions phase lasts, no token has been scanned. */
  lemma {:induction false} NoTokensInPhase(lines: seq<string>, i: nat)
    requires i <= |lines| && PhaseOf(lines[..i]).parsingDefinitions
    ensures TokensOf(lines[..i]) == []
  {
    if i > 0 {
      PhaseOfNext(lines, i - 1);
      AdvanceParsing(PhaseOf(lines[..i - 1]), KindOf(lines, i - 1));
      NoTokensInPhase(lines, i - 1);
      OpeningScansNothing(KindOf(lines, i - 1), lines[i - 1]);
      assert lines[..i][..i - 1] == lines[..i - 1];
    }
  }

  /** A definition line, with nothing scanned before it, leaves nothing credited. */
  lemma DefinitionCredits(led: Ledger, k: LineKind, line: string)
    requires IsDefinitionKind(k) && Credited(led, [])
    ensures Credited(Account(led, k, line), [])
  {
    var s := CountLine(led.stats);
    CountCounters(s, k, Utf8Length(line));
    ScanTextEmpty(Ledger(Count(s, k, Utf8Length(line)), Define(led.defined, k), led.used));
  }

  /**
   * The savings counters after the loop, against the final table and sets:
   * the definitions all come before the first scanned line, so each token is
   * credited against the table it will end with.
   */
  lemma {:induction false} ReplacedTotals(lines: seq<string>)
    ensures Credited(LedgerOf(lines), TokensOf(lines))
  {
    if lines != [] {
      var init, i := lines[..|lines| - 1], |lines| - 1;
      var k := KindOf(lines, i);
      ReplacedTotals(init);
      if IsDefinitionKind(k) {
        DefinitionNeedsPhase(PhaseOf(init), i, lines[i]);
        NoTokensInPhase(lines, i);
        DefinitionCredits(LedgerOf(init), k, lines[i]);
        OpeningScansNothing(k, lines[i]);
      } else {
        AccountCredits(LedgerOf(init), k, lines[i], TokensOf(init));
      }
    }
  }

  /** The two buckets split the replaced bytes, since every defined id is in or out of `full_line_vars`. */
  lemma {:induction false} ReplacedSplit(defined: map<string, string>, full: set<string>, toks: seq<string>)
    ensures Replaced(defined, defined.Keys, toks) == Replaced(defined, full, toks) + Replaced(defined, defined.Keys - full, toks)
    ensures RefCost(defined, full, toks) + RefCost(defined, defined.Keys - full, toks) <= TokensBytes(toks)
  {
    if toks != [] {
      ReplacedSplit(defined, full, toks[..|toks| - 1]);
    }
  }
}
