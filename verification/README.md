# cdiff patch analyser, modelled in Dafny

A cdiff patch is a compressed text diff. It starts with an optional `~` flag line. A definitions section binds
base-58 ids to text (`@id content`). Commands follow:

- block headers `id A+ n` / `id D+ n`, each followed by `n` body lines;
- single `a`/`d`/`M`/`R` command lines.

The `@id` references in commands stand for the defined texts. The analyser reads such a patch line by line and
reports:

- how its bytes split between definitions, commands and other lines;
- four kinds of syntax overhead:
  - H1: the `a `/`d ` prefixes in blocks;
  - H2: the `@` of each definition;
  - H3: references;
  - H4: `#<len> ` literal gap headers;
- the defined ids nobody uses (the "strays") and their dead weight.

Version 2 adds a savings account. It weighs the bytes each reference stands for against what its definition and
the reference itself cost. Definitions are split into "full-line" and "fragment" ones by a heuristic.

The project models both versions of the analyser:

- the shared base-58 decoder (`Base58`);
- each version's classifier and line loop (`AnalyzerV1`, `AnalyzerV2`);
- the integer part of each report (`ReportV1`, `ReportV2`).

The regular expressions the analyser relies on are written out as scanners in `Syntax`. The UTF-8 byte length is
in `Text`. The definition-cost sums shared by the reports are in `Costs`.

Each version's loop is a `method` written as the source writes it: a `for` over the lines that updates `stats`,
`defined_vars` and `used_vars_count`. It is proved to compute a fold:

- `ScanOf(lines)` is one `Step` per line, defined by recursion on the lines read so far;
- `LedgerOf(lines)` is the fold's ledger;
- the lemmas in `AnalyzerV1Props`, `AnalyzerV2Props` and `AnalyzerV2Refs` state what that fold guarantees:
  - the counters partition the lines;
  - blocks swallow exactly their announced lines;
  - definitions only come first (v2);
  - the last definition of an id wins;
  - H3 and H4 are the sums over the references and gap headers scanned;
  - the usage table counts every reference;
  - the savings buckets split the replaced bytes.

The report methods are proved to compute `ReportOf`. The lemmas about `ReportOf` state:

- the strays are exactly the defined ids never referenced;
- dead weight is at least two bytes per stray and at most the total definition cost;
- the two savings buckets add up to the totals.

`Scenarios` works one three-line file through the whole version 2 model:

- a five-byte fragment definition, used once inside a one-line block;
- `len("@x".encode('utf-8')) == 2`, so the fragment nets `5 - (7 + 2) == -4` bytes.

## Model

| member | source | states |
|---|---|---|
| Text.Utf8Width | tools/analyze_patch_saving.py:91 | a character takes one to four UTF-8 bytes, and exactly one when it is ASCII |
| Text.Utf8Length | tools/analyze_patch_saving.py:91 | a line's byte length lies between its character count and four times that |
| Text.Utf8LengthAppend | tools/analyze_patch_saving.py:91 | the byte length of a concatenation is the sum of the parts' byte lengths |
| Text.Utf8LengthAscii | tools/analyze_patch_saving.py:146 | an ASCII string, such as every reference, has as many bytes as characters |
| Text.WordCharsAreAscii | tools/analyze_patch_saving.py:63 | the modelled `\w`, `\s` and `\d` classes are ASCII; white space is not a word character; digits are word characters |
| Syntax.RunEnd | tools/analyze_patch_saving.py:63 | the greedy run of a character class: every character before the end is in the class, and the one at the end is not |
| Syntax.RunEndUnique | tools/analyze_patch_saving.py:63 | only one position has that property, so the greedy match has one outcome |
| Syntax.MatchDefinition | tools/analyze_patch_saving.py:63 | a match splits the line into an `@id` reference, one white-space character and the content, which rebuild the line |
| Syntax.MatchDefinitionComplete | tools/analyze_patch_saving.py:63 | any reference, white-space character and content, put together, match and give those parts back |
| Syntax.BlockHeaderSound | tools/analyze_patch_saving.py:65 | a header match means the line is an id, white space, `A+` or `D+`, white space and digits, and the count is those digits' decimal value |
| Syntax.BlockHeaderComplete | tools/analyze_patch_saving.py:65 | every line of that shape matches, with its count |
| Syntax.CommandLineShape | tools/analyze_patch_saving.py:181-182 | the command test holds exactly when the line is id characters, white space, then `a`, `d`, `M` or `R` |
| Syntax.Usages | tools/analyze_patch_saving.py:66 | every token found is an `@id` reference, and the tokens together are no longer than the text |
| Syntax.UsagesAfterReference | tools/analyze_patch_saving.py:66 | a reference followed by a non-word character is found first, and the scan goes on after it |
| Syntax.UsagesWithoutSigil | tools/analyze_patch_saving.py:66 | text without `@` holds no reference |
| Syntax.GapHeaders | tools/analyze_patch_saving.py:67 | every gap length found is a non-empty digit string, and the headers together cost no more bytes than the text has characters |
| Syntax.GapHeadersAfterHeader | tools/analyze_patch_saving.py:67 | a `#<digits><white space>` header at the start of the text is found, with its digits, and the scan goes on after it |
| Syntax.GapHeadersWithoutHash | tools/analyze_patch_saving.py:67 | text without `#` holds no gap header |
| Syntax.GapCostPrepend | tools/analyze_patch_saving.py:165 | the header `#<digits> ` costs two bytes plus its digits |
| Syntax.BodyKind | tools/analyze_patch_saving.py:136-140 | a block line's `a `, `d `, `A ` or `D ` prefix is stripped when present; otherwise the whole line is the content |
| Syntax.TopLevelKind | tools/analyze_patch_saving.py:173-182 | a line is a block header exactly when the header regex matches, a command exactly when it is no header and the command regex matches, and other otherwise |
| Base58.FindFrom | tools/analyze_patch_saving.py:9 | the first position of the character at or after the start, or -1 when it does not occur |
| Base58.DigitOf | tools/analyze_patch_saving.py:9 | -1 exactly for characters outside the alphabet; otherwise the character's index in the alphabet |
| Base58.DigitOfInjective | tools/analyze_patch_saving.py:9 | distinct alphabet characters have distinct digits |
| Base58.DecodeBase58 | tools/analyze_patch_saving.py:12-23 | -1 for the empty string and for any string with a character outside the alphabet; otherwise the string's base-58 value, last character least significant (the decoder at tools/analyze_patch.py:13-28 is the same) |
| Base58.DecodeStep | tools/analyze_patch_saving.py:17-22 | one iteration from the right keeps `decoded` equal to the value of the suffix read and `multi` equal to 58 to the power of its length |
| Base58.ValueStep | tools/analyze_patch_saving.py:21-22 | a digit read in front of a suffix adds digit times 58 to the power of the suffix's length |
| Base58.ValueAppend | tools/analyze_patch_saving.py:17-22 | appending a digit multiplies the value by 58 and adds the digit |
| Base58.ValuePrepend | tools/analyze_patch_saving.py:17-22 | prepending a digit adds it at the highest place |
| Base58.ValueBound | tools/analyze_patch_saving.py:12-23 | an n-digit id decodes to less than 58 to the power n |
| Base58.ValueInjective | tools/analyze_patch_saving.py:12-23 | two ids of one length that decode to the same number are the same id |
| Costs.DefinitionCost | tools/analyze_patch_saving.py:238 | a definition costs at least two bytes, the `@` and the space |
| Costs.CostOfRemove | tools/analyze_patch_saving.py:257-259 | the cost of a set of ids is one member's cost plus the cost of the others |
| Costs.CostOfUnion | tools/analyze_patch_saving.py:234-242 | the costs of disjoint sets of ids add up |
| Costs.CostOfSubset | tools/analyze_patch_saving.py:257-259 | fewer ids never cost more |
| Costs.CostOfAtLeastTwoEach | tools/analyze_patch_saving.py:257-259 | a set of ids costs at least two bytes per id |
| Costs.DeadWeight | tools/analyze_patch_saving.py:257-259 | the loop over the strays, in whatever order the set is walked, sums their definition costs, at least two bytes each |
| Costs.StrayWeight | tools/analyze_patch_saving.py:252-259 | the dead weight equals the strays' definition cost, and is 0 when there are none |
| AnalyzerV2.ClassifyInBlock | tools/analyze_patch_saving.py:133-140 | past the definitions and inside a block, every line is a body line, whatever it looks like |
| AnalyzerV2.ClassifyTopLevel | tools/analyze_patch_saving.py:172-182 | past the definitions and outside blocks, a line is classified as a header, a command or other |
| AnalyzerV2.StepBlockLine | tools/analyze_patch_saving.py:133-170 | a body line is booked as a command line, its content is scanned, and it uses up one line of the block, which closes at zero |
| AnalyzerV2.StepBlockHeader | tools/analyze_patch_saving.py:173-179 | a header is booked as a command line and opens a block of its count, but only when the count is positive |
| AnalyzerV2.StepCommandLine | tools/analyze_patch_saving.py:181-211 | a command line is booked and scanned whole, and no block opens |
| AnalyzerV2.StepOtherLine | tools/analyze_patch_saving.py:213-214 | any other line is booked as other, and nothing else changes |
| AnalyzerV2.ScanTextEmpty | tools/analyze_patch_saving.py:142-165 | scanning text with no references and no gap headers changes nothing |
| AnalyzerV2.CountUsage | tools/analyze_patch_saving.py:144-160 | one reference is counted, adds its bytes to H3 and, when defined, credits its content's bytes to one savings bucket |
| AnalyzerV2.CountUsages | tools/analyze_patch_saving.py:143-160 | the usage loop books every reference found in the content, in order |
| AnalyzerV2.CountGaps | tools/analyze_patch_saving.py:162-165 | H4 grows by the cost of every gap header in the content, and nothing else changes |
| AnalyzerV2.ScanContent | tools/analyze_patch_saving.py:142-165 | scanning a line's content books its references, then its gap headers |
| AnalyzerV2.ReadDefinition | tools/analyze_patch_saving.py:100-116 | a definition line is counted, binds its id to its content, and files the id by the full-line heuristic |
| AnalyzerV2.ReadBareDefinition | tools/analyze_patch_saving.py:118-126 | a bare `@id` line binds the id to the empty text and files it as a fragment |
| AnalyzerV2.ReadBlockLine | tools/analyze_patch_saving.py:133-170 | a body line is counted, its prefix is charged to H1, and its content is scanned |
| AnalyzerV2.ReadCommandLine | tools/analyze_patch_saving.py:181-211 | a command line is counted and scanned whole |
| AnalyzerV2.CountBlockHeader | tools/analyze_patch_saving.py:173-179 | a header is counted as a command line |
| AnalyzerV2.CountOtherLine | tools/analyze_patch_saving.py:213-214 | any other line is counted as other |
| AnalyzerV2.AnalyzeLines | tools/analyze_patch_saving.py:89-214 | the line loop leaves `stats`, `defined_vars` and `used_vars_count` equal to the fold `LedgerOf(lines)`, whose properties are the lemmas below |
| AnalyzerV2Props.UseReferenceEffect | tools/analyze_patch_saving.py:144-160 | a reference changes no line counter, no table entry and no H4; it adds its byte length to H3 and keeps the savings split |
| AnalyzerV2Props.UseReferenceCounts | tools/analyze_patch_saving.py:145 | a reference adds its id to the usage table and raises that id's count, and only that one, by one |
| AnalyzerV2Props.UseAllEffect | tools/analyze_patch_saving.py:143-160 | a run of references adds their total byte length to H3 and changes no line counter |
| AnalyzerV2Props.UseAllCounts | tools/analyze_patch_saving.py:143-145 | after a run of references, each id's count has grown by its number of occurrences in the run |
| AnalyzerV2Props.ScanTextEffect | tools/analyze_patch_saving.py:142-165 | scanning text changes only H3, H4, the savings counters and the usage table, each by what the text's references and gap headers contribute |
| AnalyzerV2Props.ClassifyFlag | tools/analyze_patch_saving.py:95-97 | a line is the compression flag exactly when it is line 0 and is `~` |
| AnalyzerV2Props.CountCounters | tools/analyze_patch_saving.py:93-214 | a line adds one and its byte length to exactly the counters of its bucket, and 2 to H1 when it is a prefixed body line |
| AnalyzerV2Props.AccountCounters | tools/analyze_patch_saving.py:89-214 | reading a line raises `total_lines` by one and books the line in its bucket's counters |
| AnalyzerV2Props.FlagCounters | tools/analyze_patch_saving.py:93-97 | `total_lines` counts every line; the flag is set exactly when the first line is `~` |
| AnalyzerV2Props.LastLineFlag | tools/analyze_patch_saving.py:95-97 | only line 0 can be the flag, and the flag line is one byte |
| AnalyzerV2Props.LineCounters | tools/analyze_patch_saving.py:89-214 | each counter is the number, or the bytes, of the lines in its bucket; H2 is the number of definition lines; H1 is two bytes per prefixed body line |
| AnalyzerV2Props.BucketsCover | tools/analyze_patch_saving.py:89-214 | every line falls in exactly one of the flag, definition, command and other buckets, by count and by bytes |
| AnalyzerV2Props.LinePartition | tools/analyze_patch_saving.py:89-214 | definition, command and other lines, plus the flag line, are all the lines and all their bytes; H1 is at most two bytes per body line |
| AnalyzerV2Props.AdvanceKeepsPhaseOk | tools/analyze_patch_saving.py:129-179 | one line keeps the control state consistent: a block is open exactly while lines remain, and never during definitions |
| AnalyzerV2Props.PhaseInvariant | tools/analyze_patch_saving.py:82-214 | that consistency holds after any number of lines |
| AnalyzerV2Props.AdvanceParsing | tools/analyze_patch_saving.py:99-129 | the definitions phase goes on exactly while lines are definitions or the flag |
| AnalyzerV2Props.DefinitionNeedsPhase | tools/analyze_patch_saving.py:99-126 | a line is read as a definition only during the definitions phase |
| AnalyzerV2Props.AllUpToForall | tools/analyze_patch_saving.py:84-129 | the recursive "all lines so far" test agrees with the quantified one |
| AnalyzerV2Props.PhaseParsing | tools/analyze_patch_saving.py:84-129 | the definitions phase is still on exactly when every line so far was a definition or the flag |
| AnalyzerV2Props.DefinitionsPhase | tools/analyze_patch_saving.py:84-129 | the same, with the lines' kinds quantified |
| AnalyzerV2Props.DefinitionsFirst | tools/analyze_patch_saving.py:128-129 | every line before a definition is a definition or the flag: definitions only come first |
| AnalyzerV2Props.PhaseEnd | tools/analyze_patch_saving.py:128-129 | the first non-definition line ends the phase and is itself classified as a command-phase line |
| AnalyzerV2Props.HeaderOpens | tools/analyze_patch_saving.py:173-179 | after a header with count n, a block of n lines is open, or none when n is 0 |
| AnalyzerV2Props.BodyStep | tools/analyze_patch_saving.py:133-170 | inside a block, a line is a body line and uses up one line of the block |
| AnalyzerV2Props.BlockLineStep | tools/analyze_patch_saving.py:167-169 | reading line j inside a block leaves one line fewer, and closes the block at zero |
| AnalyzerV2Props.Countdown | tools/analyze_patch_saving.py:167-169 | before line j of a block of n lines opened at line i, `i + 1 + n - j` lines remain |
| AnalyzerV2Props.InsideBlock | tools/analyze_patch_saving.py:133-179 | the same, starting from the header line itself |
| AnalyzerV2Props.BlockExtent | tools/analyze_patch_saving.py:133-179 | the n lines after a header are body lines whatever their shape, and the line after them is read at top level |
| AnalyzerV2Props.TopLevelStep | tools/analyze_patch_saving.py:172-214 | outside the definitions and outside blocks, a line is classified by its own shape |
| AnalyzerV2Props.CountDefine | tools/analyze_patch_saving.py:104-125 | booking a line keeps the two sets covering exactly the table's ids |
| AnalyzerV2Props.AccountKeepsOk | tools/analyze_patch_saving.py:89-214 | reading a line keeps the table, the sets and the savings split consistent |
| AnalyzerV2Props.LedgerInvariant | tools/analyze_patch_saving.py:89-214 | after any lines, every defined id is in the full-line or the fragment set, every id in those sets is defined, and the replaced bytes split between the buckets |
| AnalyzerV2Props.AccountDefines | tools/analyze_patch_saving.py:104-125 | a line rebinds the table only when it is a definition; a full-line definition adds its id to `full_line_vars`, any other definition adds it to `fragment_vars` |
| AnalyzerV2Props.DefinitionBuckets | tools/analyze_patch_saving.py:100-126 | right after a definition line, its id is bound to its content and filed in the set the heuristic picks |
| AnalyzerV2Props.LedgerStep | tools/analyze_patch_saving.py:104-125 | no line takes an id out of the table or the sets |
| AnalyzerV2Props.SetsGrow | tools/analyze_patch_saving.py:104-125 | the table's ids and both sets only grow as lines are read |
| AnalyzerV2Props.DefinedOfLedger | tools/analyze_patch_saving.py:104-121 | the table depends on the lines' kinds alone |
| AnalyzerV2Props.TableStep | tools/analyze_patch_saving.py:104-121 | a line that does not define an id leaves its binding alone |
| AnalyzerV2Props.BindingKept | tools/analyze_patch_saving.py:104-121 | with no later definition of an id, its binding stays as it was |
| AnalyzerV2Props.LastDefinitionWins | tools/analyze_patch_saving.py:104-121 | at the end, an id is bound to what its last definition line bound it to |
| AnalyzerV2Refs.TokensBytesAppend | tools/analyze_patch_saving.py:146-147 | the byte lengths of two runs of references add up |
| AnalyzerV2Refs.AccountScan | tools/analyze_patch_saving.py:142-165 | reading a line adds the bytes of the references it scans to H3 and their gap headers' cost to H4, and counts each reference |
| AnalyzerV2Refs.ReferenceCostTotal | tools/analyze_patch_saving.py:147 | H3 is the total byte length of every reference scanned in the file |
| AnalyzerV2Refs.GapOverheadTotal | tools/analyze_patch_saving.py:165 | H4 is the total cost of every gap header scanned in the file |
| AnalyzerV2Refs.UsedIds | tools/analyze_patch_saving.py:145 | the usage table's ids are exactly the references scanned |
| AnalyzerV2Refs.UsageCounts | tools/analyze_patch_saving.py:145 | each id's count is its number of occurrences among the scanned references |
| AnalyzerV2Refs.TokensAreReferences | tools/analyze_patch_saving.py:66 | everything scanned as a reference is an `@id` |
| AnalyzerV2Refs.UsedAreReferences | tools/analyze_patch_saving.py:145 | the usage table is keyed by `@id` references, the same form the definition table uses |
| AnalyzerV2Refs.UseReferenceCredits | tools/analyze_patch_saving.py:149-160 | one more reference adds its credits to the total and to exactly one bucket |
| AnalyzerV2Refs.UseAllCredits | tools/analyze_patch_saving.py:143-160 | a run of references adds the credits of each |
| AnalyzerV2Refs.AccountCredits | tools/analyze_patch_saving.py:142-165 | a non-definition line credits the references it scans |
| AnalyzerV2Refs.OpeningScansNothing | tools/analyze_patch_saving.py:99-126 | definitions and the flag line are not scanned for references or gap headers |
| AnalyzerV2Refs.NoTokensInPhase | tools/analyze_patch_saving.py:84-129 | no reference is scanned during the definitions phase |
| AnalyzerV2Refs.DefinitionCredits | tools/analyze_patch_saving.py:100-126 | a definition read before any reference leaves every savings counter at its empty sum |
| AnalyzerV2Refs.ReplacedTotals | tools/analyze_patch_saving.py:149-160 | at the end, the replaced bytes and the reference costs of each bucket are the sums over the scanned references of defined ids, split by the final `full_line_vars` |
| AnalyzerV2Refs.ReplacedSplit | tools/analyze_patch_saving.py:155-160 | the total replaced bytes are the full-line part plus the fragment part, and the bucketed reference costs stay within all references' bytes |
| ReportV2.TakeFull | tools/analyze_patch_saving.py:239-240 | a full-line id's cost goes to the full-line sum only |
| ReportV2.TakeFragment | tools/analyze_patch_saving.py:241-242 | any other id's cost goes to the fragment sum only |
| ReportV2.BucketsCost | tools/analyze_patch_saving.py:234-242 | the two definition-cost sums add up to the cost of the whole table |
| ReportV2.DefinitionCosts | tools/analyze_patch_saving.py:234-242 | the loop over the table, in any order, splits the definition cost between full-line and fragment ids, and the two add up to the whole table's cost |
| ReportV2.PostAnalysis | tools/analyze_patch_saving.py:227-310 | the post-analysis computes `ReportOf` of the ledger the loop left |
| ReportV2.AnalyzePatch | tools/analyze_patch_saving.py:89-310 | the analyser without its I/O computes `ReportOf(LedgerOf(lines))` |
| ReportV2.ReportBalances | tools/analyze_patch_saving.py:234-310 | the two definition costs make up the table's cost; the strays are defined and unused; their dead weight is between two bytes each and the table's cost; the costs and savings of the two buckets add up to the totals |
| ReportV2.SavingsReconcile | tools/analyze_patch_saving.py:284-310 | when the replaced bytes split between the buckets, total net savings are total replaced bytes minus total cost |
| ReportV2.FileReport | tools/analyze_patch_saving.py:268-310 | for a whole file: savings reconcile; the overhead is two bytes per prefixed body line, plus one per definition line, plus every reference's bytes and gap header's cost; each bucket nets its references' replaced bytes minus its definitions and references |
| AnalyzerV1.Classify | tools/analyze_patch.py:91-179 | version 1 never reads a bare `@id` line as a definition |
| AnalyzerV1.ClassifyInBlock | tools/analyze_patch.py:95-113 | inside a block, every line but the flag is a body line |
| AnalyzerV1.ClassifyDefinition | tools/analyze_patch.py:136-146 | outside blocks, a line the definition regex matches is a definition, at any point of the file |
| AnalyzerV1.ClassifyTopLevel | tools/analyze_patch.py:148-179 | outside blocks, any other line is a header, a command or other |
| AnalyzerV1.StepBlockLine | tools/analyze_patch.py:95-132 | a body line is booked as a command line, its content is scanned, and it uses up one line of the block |
| AnalyzerV1.StepDefinition | tools/analyze_patch.py:137-146 | a definition line is booked and binds its id, and the control state is unchanged |
| AnalyzerV1.StepBlockHeader | tools/analyze_patch.py:149-155 | a header is booked and opens a block of its count when the count is positive |
| AnalyzerV1.StepCommandLine | tools/analyze_patch.py:158-175 | a command line is booked and scanned whole |
| AnalyzerV1.StepOtherLine | tools/analyze_patch.py:177-179 | any other line is booked as other |
| AnalyzerV1.ScanTextEmpty | tools/analyze_patch.py:115-127 | scanning text with no references and no gap headers changes nothing |
| AnalyzerV1.CountUsages | tools/analyze_patch.py:115-121 | every reference in the content is tallied under its `@id`, and `command_at_overhead_b` grows by their number |
| AnalyzerV1.CountGaps | tools/analyze_patch.py:123-127 | H4 grows by the cost of every gap header in the content |
| AnalyzerV1.ScanContent | tools/analyze_patch.py:115-127 | scanning a line's content books its references, then its gap headers |
| AnalyzerV1.ReadBlockLine | tools/analyze_patch.py:95-132 | a body line is counted, its prefix is charged to H1, and its content is scanned |
| AnalyzerV1.ReadDefinition | tools/analyze_patch.py:137-146 | a definition line is counted and binds its id to its content |
| AnalyzerV1.ReadCommandLine | tools/analyze_patch.py:158-175 | a command line is counted and scanned whole |
| AnalyzerV1.CountBlockHeader | tools/analyze_patch.py:149-155 | a header is counted as a command line |
| AnalyzerV1.CountOtherLine | tools/analyze_patch.py:177-179 | any other line is counted as other |
| AnalyzerV1.AnalyzeLines | tools/analyze_patch.py:84-179 | the line loop leaves `stats`, `defined_vars` and `used_vars_count` equal to the fold `LedgerOf(lines)` |
| AnalyzerV1Props.ClassifyFlag | tools/analyze_patch.py:91-93 | a line is the compression flag exactly when it is line 0 and is `~` |
| AnalyzerV1Props.AccountCounters | tools/analyze_patch.py:84-179 | reading a line raises `total_lines` by one and books the line in its bucket's counters |
| AnalyzerV1Props.AccountScan | tools/analyze_patch.py:115-127 | reading a line adds the number of references it scans to the usage overhead and their gap headers' cost to H4, tallies them, and rebinds only definitions |
| AnalyzerV1Props.LastLineFlag | tools/analyze_patch.py:91-93 | only line 0 can be the flag, and the flag line is one byte |
| AnalyzerV1Props.FlagCounters | tools/analyze_patch.py:89-93 | `total_lines` counts every line; the flag is set exactly when the first line is `~` |
| AnalyzerV1Props.LineCounters | tools/analyze_patch.py:84-179 | each counter is the number, or the bytes, of the lines in its bucket; H2 is the number of definition lines; H1 is two bytes per prefixed body line |
| AnalyzerV1Props.BucketsCover | tools/analyze_patch.py:84-179 | every line falls in exactly one of the flag, definition, command and other buckets, by count and by bytes |
| AnalyzerV1Props.LinePartition | tools/analyze_patch.py:84-179 | definition, command and other lines, plus the flag line, are all the lines and all their bytes |
| AnalyzerV1Props.AdvanceKeepsPhaseOk | tools/analyze_patch.py:129-155 | one line keeps a block open exactly while lines remain in it |
| AnalyzerV1Props.PhaseInvariant | tools/analyze_patch.py:81-179 | that holds after any number of lines |
| AnalyzerV1Props.HeaderOpens | tools/analyze_patch.py:149-155 | after a header with count n, a block of n lines is open, or none when n is 0 |
| AnalyzerV1Props.BodyStep | tools/analyze_patch.py:95-132 | inside a block, a line is a body line and uses up one line of the block |
| AnalyzerV1Props.BlockLineStep | tools/analyze_patch.py:129-131 | reading line j inside a block leaves one line fewer, and closes the block at zero |
| AnalyzerV1Props.Countdown | tools/analyze_patch.py:129-131 | before line j of a block of n lines opened at line i, `i + 1 + n - j` lines remain |
| AnalyzerV1Props.InsideBlock | tools/analyze_patch.py:95-155 | the same, starting from the header line itself |
| AnalyzerV1Props.OutsideStep | tools/analyze_patch.py:134-179 | outside blocks, a line the definition regex matches is a definition, and any other line is classified by its own shape |
| AnalyzerV1Props.BlockExtent | tools/analyze_patch.py:95-179 | the n lines after a header are body lines whatever their shape, and the line after them is a definition when the definition regex matches it, and otherwise a header, a command or other by its own shape |
| AnalyzerV1Props.DefinitionAnywhere | tools/analyze_patch.py:95-146 | a line of definition shape is a definition wherever it stands, unless a block is open |
| AnalyzerV1Props.DefinedOfLedger | tools/analyze_patch.py:141 | the table depends on the lines' kinds alone |
| AnalyzerV1Props.TableStep | tools/analyze_patch.py:141 | a line that does not define an id leaves its binding alone |
| AnalyzerV1Props.BindingKept | tools/analyze_patch.py:141 | with no later definition of an id, its binding stays as it was |
| AnalyzerV1Props.DefinedAreReferences | tools/analyze_patch.py:137-141 | every defined id is an `@id` reference, the same form the usage table is keyed by |
| AnalyzerV1Props.LastDefinitionWins | tools/analyze_patch.py:137-141 | at the end, an id is bound to the content of its last definition line |
| AnalyzerV1Props.AtOverheadCount | tools/analyze_patch.py:121 | the usage overhead is the number of references scanned in the file |
| AnalyzerV1Props.GapOverheadTotal | tools/analyze_patch.py:127 | H4 is the total cost of every gap header scanned in the file |
| AnalyzerV1Props.TallyCounts | tools/analyze_patch.py:117-118 | tallying adds every token as a key and raises each count by its occurrences |
| AnalyzerV1Props.TallyAppend | tools/analyze_patch.py:117-118 | tallying two runs one after the other is tallying them together |
| AnalyzerV1Props.UsedIsTally | tools/analyze_patch.py:117-118 | the usage table is the tally of every reference scanned in the file |
| AnalyzerV1Props.UsageCounts | tools/analyze_patch.py:117-118 | the usage table's ids are exactly the references scanned, each counted by its occurrences |
| ReportV1.PostAnalysis | tools/analyze_patch.py:207-236 | the post-analysis computes `ReportOf` of the ledger the loop left |
| ReportV1.AnalyzePatch | tools/analyze_patch.py:84-236 | the analyser without its I/O computes `ReportOf(LedgerOf(lines))` |
| ReportV1.ReportBalances | tools/analyze_patch.py:207-217 | the strays are defined and unused; their dead weight is between two bytes each and the table's cost, and is zero exactly when there are none |
| ReportV1.FileReport | tools/analyze_patch.py:207-236 | an id is a stray exactly when it is defined and never referenced; the overhead is two bytes per prefixed body line, plus one per definition line, one per reference and every gap header's cost |
| Scenarios.SampleDefinition | tools/analyze_patch_saving.py:100-116 | `@x hello` is the definition of `@x` as `hello` |
| Scenarios.SampleHeader | tools/analyze_patch_saving.py:173-178 | `1 A+ 1` is a header opening one line, not a definition |
| Scenarios.SamplePhases | tools/analyze_patch_saving.py:128-170 | the header ends the definitions phase and opens a one-line block; `a @x` is read as its prefixed body |
| Scenarios.SampleKinds | tools/analyze_patch_saving.py:89-214 | the three lines are a definition, a header and a prefixed body line |
| Scenarios.TokensOfNext | tools/analyze_patch_saving.py:143 | the references scanned grow line by line |
| Scenarios.SampleScanned | tools/analyze_patch_saving.py:136-143 | only the body's content `@x` is scanned |
| Scenarios.SampleUsages | tools/analyze_patch_saving.py:66 | `@x` holds the one reference `@x`, and the empty text none |
| Scenarios.SampleTokens | tools/analyze_patch_saving.py:143 | the file's only reference is `@x` |
| Scenarios.SampleTable | tools/analyze_patch_saving.py:104 | the table ends as `{@x: hello}` |
| Scenarios.FullLineVarsKept | tools/analyze_patch_saving.py:111-114 | only a full-line definition changes `full_line_vars` |
| Scenarios.SampleSets | tools/analyze_patch_saving.py:111 | `hello` is not over five characters, so `full_line_vars` stays empty |
| Scenarios.SampleSums | tools/analyze_patch_saving.py:234-259 | for `{@x: hello}` and one use of `@x`: the definition costs 7, five bytes are replaced, and the reference costs 2 |
| Scenarios.SampleReport | tools/analyze_patch_saving.py:284-310 | the fragment bucket's definition cost is 7, the replaced bytes 5, and its net savings and the total both −4 |

## Left out

- The command-line entry point, its argument parsing and the printing of the report are not modelled. The model
  returns the report's integers.
- Reading the file is not modelled: the lines are a parameter, without their `\n`. Read errors are left out too,
  and so is `total_size_b`, which comes from the file system and not from the lines.
- The percentages and the version 1 average definition size are not modelled: they are floating-point divisions
  of integers the model does compute.
- The top-10 list of the most used ids and the list of stray examples are display only, and are not modelled.
- `\w`, `\s` and `\d` are modelled on ASCII only. `\s` includes the separators U+001C-U+001F, which
  `str.isspace` accepts. Python's Unicode word, space and digit characters beyond ASCII are not modelled.
- The `isinstance(encoded, str)` test in the decoder is not modelled: the model's argument is always a string.
- Dictionary and set iteration order is not modelled. The loops over the table and over the strays take ids in
  any order, and their sums are proved the same for every order.
- Costs.StrayWeight: the source computes the dead weight only when there are strays, and prints nothing
  otherwise. The model returns 0 in that case.
- AnalyzerV2Props.LedgerInvariant: an id defined twice, once as a full line and once as a fragment, stays in both
  sets, as in the source. Its definition cost and its savings go to the full-line bucket. The invariant states
  that the sets cover the table, not that they are disjoint.
