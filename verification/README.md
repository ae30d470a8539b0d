# IdentifierCasing in Dafny

A model of the IdentifierCasing library, which converts identifiers between naming conventions
(Pascal, camel, kebab, snake, COBOL, macro, lower, upper, train and spreadsheet case). The model
covers four parts of the library:

- the casing style, a set of six independent flags;
- the character scans that find the first and last word character of a string;
- style detection, a single pass that gathers evidence about case and separators;
- translation, which copies the leading and trailing decoration and rewrites the words in between.

It also covers the writer and reader that translate an identifier to and from Pascal case, the
library's canonical form.

Files and modules:

| file | module | contents |
|---|---|---|
| `wrappers.dfy` | `Wrappers` | `Option`, `Result` and the error kinds (null argument, empty identifier, unsupported target, index out of range) |
| `chars.dfy` | `Chars` | the abstract character classifier, its validity axioms and an ASCII instance |
| `styles.dfy` | `Styles` | the six-flag `Style` record and the named conventions |
| `string_extensions.dfy` | `StringExtensions` | the three scans |
| `detection.dfy` | `Detection` | the detection pass and a position-by-position statement of the evidence it gathers |
| `word_breaks.dfy` | `WordBreaks` | what each character of the word region becomes in a translation, stated without loops |
| `translation.dfy` | `Translation` | the three translation passes and their relation to the position-wise statement |
| `streams.dfy` | `Streams` | writing to a sink and reading from a source |
| `vectors.dfy` | `Vectors` | the library's own example identifiers, stated and proved about the model with the ASCII classifier |

Each loop of the library is a recursive function that mirrors it branch for branch. The
detection loop and the three translation loops also have an independent description, stated
position by position, and a lemma proves the two agree. The writer's loop is related to the
translation instead, and only for identifiers of word characters: cased letters, and characters
such as digits that neither case mapping changes (see "## Left out"):

- **Detection.** `Detection.DetectionSpec` says which facts hold at which positions between the
  first word character and the last non-blank one.
- **The word loop.** `WordBreaks.Emission` says what each position becomes. Inside a run of
  decoration characters, the first, third, fifth, ... characters are dropped as word breaks.
  The character after a dropped one starts a word.
- **Translation.** `Translation.TranslationSpec` combines the two and states the whole
  translation without loops.

`CasingStyle.cs` declares a closed enumeration whose values are numbered -1 (`Mixed`) to 9. `CasingTranslator.cs`,
however, reads a style through six flag bits and compares it with `None`. The model follows
`CasingTranslator.cs`. A style is a record of six booleans, and `Styles.Mixed`, the value with no
flag set, stands for both `CasingStyle.Mixed` and `None`. The named conventions are the flag
combinations that the documented meaning of each name in `CasingStyle.cs` describes.

Null references become `Option.None`. Thrown exceptions become `Result.Failure`. A text writer is
the string written so far, to which the result is appended. A text reader is the string not yet
read, and reading returns what remains. Character classification is an abstract `Classifier`.
Only the few properties of the Unicode tables listed in `Chars.Valid` are assumed, and only by the
lemmas that need them.

## Model

| member | source | states |
|---|---|---|
| Chars.AsciiIsValid | IdentifierCasing/CasingTranslator.cs:45-47 | the ASCII classifier satisfies the validity axioms: cases are disjoint, cased characters are letters, letters and digits are never decoration, and '-', '_' and ' ' are decoration, so the axioms are consistent |
| Styles.NamedStylesDistinct | IdentifierCasing/CasingStyle.cs:7-11 | the ten named conventions are pairwise distinct flag sets and none is the indeterminate style, so no hint beyond the identifier is needed to tell them apart |
| Styles.NamedStylesMarkWordBreaks | IdentifierCasing/CasingStyle.cs:14-60 | every named convention marks word breaks, by a change of case or by a separator, and the indeterminate style marks none |
| Styles.SeparatorsMatchFlags | IdentifierCasing/CasingTranslator.cs:319-321 | the separators written before a word are exactly the style's set separator flags, each character once |
| StringExtensions.ScanForward | IdentifierCasing/StringExtensions.cs:66-76 | the forward loop returns the least index in its range whose character is not skipped, with every earlier one skipped; it returns -1 when all are skipped, and fails with index out of range when its first read is before the string |
| StringExtensions.ScanBackward | IdentifierCasing/StringExtensions.cs:89-99 | the backward loop returns the greatest index whose character is not skipped, with every later one skipped; otherwise it returns -1, or fails when it reads before the string |
| StringExtensions.IndexOfNotPunctuationWhitespaceOrSymbol | IdentifierCasing/StringExtensions.cs:62-77 | a null source fails with a null-argument error; otherwise the result is the first index in [start, stop) that is not whitespace, punctuation or a symbol, or -1 exactly when the range holds only such characters (including when it is empty); stop is the end of the string when count is negative or overruns, and start + count otherwise |
| StringExtensions.LastIndexOfNotPunctuationWhitespaceOrSymbol | IdentifierCasing/StringExtensions.cs:85-100 | a null source fails; otherwise the result is the last index in the range that is not decoration, with every later index in the range decoration, or -1 when there is none |
| StringExtensions.LastIndexOfNotPunctuationOrWhitespace | IdentifierCasing/StringExtensions.cs:39-54 | the same as the last-index scan, except that symbols count as word characters |
| StringExtensions.ScansReadOnlyTheirRange | IdentifierCasing/StringExtensions.cs:39-100 | two strings that agree on [start, stop) give the same results for all three scans, so no index outside the range is read |
| StringExtensions.SymbolBlindLastIsNotEarlier | IdentifierCasing/StringExtensions.cs:39-100 | on the same range, the symbol-blind last scan fails only when the symbol-aware one does, and otherwise returns an index at least as large |
| StringExtensions.FirstAndLastAgree | IdentifierCasing/StringExtensions.cs:62-100 | for a start that is not negative, the forward scan returns -1 exactly when the backward symbol-aware scan does, and otherwise the first index is at most the last |
| StringExtensions.FirstWordIndex | IdentifierCasing/CasingTranslator.cs:24 | the first word character of an identifier: every character before it is decoration, and the result is -1 exactly when the whole identifier is decoration |
| StringExtensions.LastWordIndex | IdentifierCasing/CasingTranslator.cs:283 | the last word character: every character after it is decoration, and the result is -1 exactly when the whole identifier is decoration |
| StringExtensions.LastNonBlankIndex | IdentifierCasing/CasingTranslator.cs:29 | the last character that is neither whitespace nor punctuation: everything after it is blank, and the result is -1 exactly when all characters are blank |
| Detection.DetectIdentifierCasing | IdentifierCasing/CasingTranslator.cs:21-81 | detection fails with an empty-identifier error exactly when the identifier is null or empty, and it yields the indeterminate style when there is no word character |
| Detection.DetectionMatchesEvidence | IdentifierCasing/CasingTranslator.cs:21-81 | for a non-empty identifier, the detected style is the one that the evidence strictly between the first word character and the last non-blank character determines. Conflicting word-internal evidence gives the indeterminate style. Conflicting word-leading evidence does too, except that word-internal upper case alone then still sets the body flag. Otherwise the first flag follows the case of the first word character, the body flag follows word-internal upper case, the case-switch flag is set when both cases occur, and each separator flag is set when its character occurs |
| Detection.GatherFindsEvidence | IdentifierCasing/CasingTranslator.cs:42-66 | the detection loop, run from any intermediate state over [offset, hi), ends with exactly the evidence that holds at some position strictly between lo and hi |
| Detection.DetectionPassFindsEvidence | IdentifierCasing/CasingTranslator.cs:32-42 | the loop as the library starts it, after the first word character with every flag clear, gathers exactly the position-wise evidence of the range |
| Detection.EvidenceExtends | IdentifierCasing/CasingTranslator.cs:44-65 | one iteration of the loop extends the evidence by exactly the facts that hold at the new position, and shifts the two decoration flags along |
| Detection.SeenExtends | IdentifierCasing/CasingTranslator.cs:55-63 | a fact is seen in a range extended by one position exactly when it was seen before or holds at the new position |
| Detection.PositionalEvidenceIsCased | IdentifierCasing/CasingTranslator.cs:67-71 | word-leading or word-internal evidence of a case implies that the case occurs, which is why the chain of case-switch tests reduces to "both cases occur" |
| Translation.CopyLeading | IdentifierCasing/CasingTranslator.cs:264-281 | the leading loop copies decoration verbatim up to the first word character and writes that character in the target's first case; it stops there, or at the end when there is none |
| Translation.Words | IdentifierCasing/CasingTranslator.cs:284-329 | the word loop never moves backwards and stays within the identifier; its branches mirror the library's, including the early exit for decoration in the last position |
| Translation.CopyTrailing | IdentifierCasing/CasingTranslator.cs:331-340 | the trailing loop writes only decoration characters, at most one per remaining character, and writes the whole rest verbatim when it is all decoration |
| Translation.Translate | IdentifierCasing/CasingTranslator.cs:250-342 | translation fails exactly when the identifier is non-empty and the target is the indeterminate style, and the failure is an unsupported-target error; the empty identifier comes back as it is before the target is checked; an identifier already detected in the target style comes back unchanged |
| Translation.NormalizeIdentifierCasing | IdentifierCasing/CasingTranslator.cs:229-232 | normalizing never fails, and it gives the translation into Pascal case |
| WordBreaks.DroppedAtEvenRunOffset | IdentifierCasing/CasingTranslator.cs:293-306 | within a run of consecutive decoration characters in the word region, exactly the first, third, fifth, ... are dropped as word breaks; the others are copied as ordinary characters |
| Translation.BreakAt | IdentifierCasing/CasingTranslator.cs:293-306 | a decoration character in the word region that does not directly follow a dropped one is dropped, and the character after it is kept even when it is decoration too |
| Translation.NonUpperSinceBreakRestarts | IdentifierCasing/CasingTranslator.cs:297-315 | after a break, the record of a non-upper-case character since the break holds exactly when the character that starts the new word is not upper case |
| Translation.WordsMatchEmissions | IdentifierCasing/CasingTranslator.cs:288-328 | from any offset in the word region, the word loop writes exactly the position-wise emissions up to the last word character, ends one past it, and never takes the early exit |
| Translation.CopyLeadingStopsAtFirstWord | IdentifierCasing/CasingTranslator.cs:264-281 | the leading loop stops exactly at the first word character found by the forward scan, or at the end when there is none |
| Translation.WordRegion | IdentifierCasing/CasingTranslator.cs:283-284 | the word region is empty exactly when there is no first word character, and otherwise the first word character comes no later than the last |
| Translation.TranslationWordPass | IdentifierCasing/CasingTranslator.cs:283-329 | started after the first word character, the word loop writes the emissions of the whole word region and stops just past the last word character |
| Translation.SeparatorBranchUnreachable | IdentifierCasing/CasingTranslator.cs:299-304 | the branch for a decoration character in the last position is never taken by a translation, because the loop ends at the last word character, which is not decoration |
| Translation.TranslateWordsOnWordRegion | IdentifierCasing/CasingTranslator.cs:264-341 | with a word region, the three passes write the leading decoration, the first word character in the target's first case, the emissions of the rest of the region and the trailing decoration |
| Translation.TranslateWordsKeepsDecoration | IdentifierCasing/CasingTranslator.cs:264-341 | an identifier made only of decoration passes through the three passes unchanged |
| Translation.TranslateWordsMatchesSpec | IdentifierCasing/CasingTranslator.cs:259-341 | from any source style, the three passes write the position-wise rewriting |
| Translation.TranslateFromDetected | IdentifierCasing/CasingTranslator.cs:252-257 | for a non-empty identifier and a legal target, translation returns the identifier when its detected style is the target, and its position-wise rewriting from the detected style otherwise |
| Translation.TranslateMatchesSpec | IdentifierCasing/CasingTranslator.cs:250-342 | translation into any legal target succeeds and yields the loop-free translation |
| Translation.TranslateKeepsDecoration | IdentifierCasing/CasingTranslator.cs:264-340 | for every legal target, an identifier made only of decoration comes back unchanged; otherwise the decoration before the first and after the last word character appears verbatim at the start and end of the result, around a non-empty middle |
| Translation.TranslationSpecKeepsDecoration | IdentifierCasing/CasingTranslator.cs:264-340 | the loop-free translation keeps leading and trailing decoration in place in the same way |
| Translation.WordTranslationKeepsEnds | IdentifierCasing/CasingTranslator.cs:264-340 | the word-by-word rewriting from any source style keeps the leading and trailing decoration in place |
| Streams.WriteRest | IdentifierCasing/CasingTranslator.cs:174-195 | the writer's loop writes at least one character per input character, and exactly one when the target has no separator character |
| Streams.WriteCasedIdentifier | IdentifierCasing/CasingTranslator.cs:155-196 | a null writer is rejected. A Pascal target or an empty identifier is appended verbatim. The indeterminate target is rejected for a non-empty identifier. Any other target appends at least as many characters as the identifier has, after the sink's unchanged contents |
| Streams.WriteRestCopiesUncased | IdentifierCasing/CasingTranslator.cs:191-194 | characters that are neither upper nor lower case are copied by the writer as they are |
| Streams.WriteRestMatchesEmissions | IdentifierCasing/CasingTranslator.cs:174-195 | on word characters (cased letters, and characters such as digits that neither case mapping changes), the writer writes each character as a translation from Pascal case would: every upper-case letter starts a word, and a character that is neither upper nor lower case is copied |
| Streams.WriteIsWordTranslation | IdentifierCasing/CasingTranslator.cs:155-196 | writing a non-empty identifier of word characters, digits included, into a target other than Pascal appends its word-by-word rewriting from Pascal case |
| Streams.WriteMatchesTranslate | IdentifierCasing/CasingTranslator.cs:155-196 | for an identifier of word characters (digits included, decoration excluded) detected as Pascal case, writing it in any legal style appends exactly its translation into that style |
| Streams.SeparatorIsRedundant | IdentifierCasing/CasingStyle.cs:51-60 | written in Train case, a Pascal-cased identifier of word characters comes back when its '-' characters are removed. The same holds for Spreadsheet case and ' ' |
| Streams.TrainAndSpreadsheetSeparatorsAreRedundant | IdentifierCasing/CasingStyle.cs:51-60 | the dashes of Train case and the spaces of Spreadsheet case carry no information: removing them from the written form gives back the Pascal-cased identifier |
| Streams.TokenEnd | IdentifierCasing/CasingTranslator.cs:207-210 | the reader's loop stops at the end of the longest run of identifier characters, which are letters or digits other than NUL, '-', '_' and ' ' |
| Streams.ReadNormalizedCaseIdentifier | IdentifierCasing/CasingTranslator.cs:202-213 | a null reader is rejected. Otherwise the longest prefix of identifier characters is consumed and the character after it stays unread. The result is the prefix translated into Pascal case |
| Streams.ReadSplitsAtFirstNonIdentifierChar | IdentifierCasing/CasingTranslator.cs:202-213 | a run of identifier characters followed by text that does not start with one reads as the normalized run, and the text is left unread |
| Vectors.DetectLowerSample | IdentifierCasing.Test/TestIdentifierCasingTranslator.cs:26-29 | with the ASCII classifier, "this is a test" is detected as Lower case |
| Vectors.DetectUpperSample | IdentifierCasing.Test/TestIdentifierCasingTranslator.cs:26-29 | with the ASCII classifier, "THIS IS A TEST" is detected as Upper case |
| Vectors.DetectPascalSample | IdentifierCasing.Test/TestIdentifierCasingTranslator.cs:26-29 | with the ASCII classifier, "ThisIsATest" is detected as Pascal case |
| Vectors.DetectCamelSample | IdentifierCasing.Test/TestIdentifierCasingTranslator.cs:26-29 | with the ASCII classifier, "thisIsATest" is detected as Camel case |
| Vectors.DetectKebabSample | IdentifierCasing.Test/TestIdentifierCasingTranslator.cs:26-29 | with the ASCII classifier, "this-is-a-test" is detected as Kebab case |
| Vectors.DetectSnakeSample | IdentifierCasing.Test/TestIdentifierCasingTranslator.cs:26-29 | with the ASCII classifier, "this_is_a_test" is detected as Snake case |
| Vectors.DetectCobolSample | IdentifierCasing.Test/TestIdentifierCasingTranslator.cs:26-29 | with the ASCII classifier, "THIS-IS-A-TEST" is detected as Cobol case |
| Vectors.DetectMacroSample | IdentifierCasing.Test/TestIdentifierCasingTranslator.cs:26-29 | with the ASCII classifier, "THIS_IS_A_TEST" is detected as Macro case |
| Vectors.DetectTrainSample | IdentifierCasing.Test/TestIdentifierCasingTranslator.cs:26-29 | with the ASCII classifier, "This-Is-A-Test" is detected as Train case |
| Vectors.DetectSpreadsheetSample | IdentifierCasing.Test/TestIdentifierCasingTranslator.cs:26-29 | with the ASCII classifier, "This Is A Test" is detected as Spreadsheet case |
| Vectors.DetectMixedSample | IdentifierCasing.Test/TestIdentifierCasingTranslator.cs:26-29 | with the ASCII classifier, "this-Is_aTest" is detected as the indeterminate style |
| Vectors.TranslatePascalSampleToLower | IdentifierCasing.Test/TestIdentifierCasingTranslator.cs:31-38 | "ThisIsATest" translated into Lower case is "this is a test" |
| Vectors.TranslatePascalSampleToUpper | IdentifierCasing.Test/TestIdentifierCasingTranslator.cs:31-38 | "ThisIsATest" translated into Upper case is "THIS IS A TEST" |
| Vectors.TranslatePascalSampleToCamel | IdentifierCasing.Test/TestIdentifierCasingTranslator.cs:31-38 | "ThisIsATest" translated into Camel case is "thisIsATest" |
| Vectors.TranslatePascalSampleToKebab | IdentifierCasing.Test/TestIdentifierCasingTranslator.cs:31-38 | "ThisIsATest" translated into Kebab case is "this-is-a-test" |
| Vectors.TranslatePascalSampleToSnake | IdentifierCasing.Test/TestIdentifierCasingTranslator.cs:31-38 | "ThisIsATest" translated into Snake case is "this_is_a_test" |
| Vectors.TranslatePascalSampleToCobol | IdentifierCasing.Test/TestIdentifierCasingTranslator.cs:31-38 | "ThisIsATest" translated into Cobol case is "THIS-IS-A-TEST" |
| Vectors.TranslatePascalSampleToMacro | IdentifierCasing.Test/TestIdentifierCasingTranslator.cs:31-38 | "ThisIsATest" translated into Macro case is "THIS_IS_A_TEST" |
| Vectors.TranslatePascalSampleToTrain | IdentifierCasing.Test/TestIdentifierCasingTranslator.cs:31-38 | "ThisIsATest" translated into Train case is "This-Is-A-Test" |
| Vectors.TranslatePascalSampleToSpreadsheet | IdentifierCasing.Test/TestIdentifierCasingTranslator.cs:31-38 | "ThisIsATest" translated into Spreadsheet case is "This Is A Test" |
| Vectors.NormalizeLowerSample | IdentifierCasing.Test/TestIdentifierCasingTranslator.cs:31-38 | "this is a test" translated into Pascal case is "ThisIsATest" |
| Vectors.NormalizeUpperSample | IdentifierCasing.Test/TestIdentifierCasingTranslator.cs:31-38 | "THIS IS A TEST" translated into Pascal case is "ThisIsATest" |
| Vectors.NormalizePascalSample | IdentifierCasing.Test/TestIdentifierCasingTranslator.cs:31-38 | "ThisIsATest" translated into Pascal case is "ThisIsATest" |
| Vectors.NormalizeCamelSample | IdentifierCasing.Test/TestIdentifierCasingTranslator.cs:31-38 | "thisIsATest" translated into Pascal case is "ThisIsATest" |
| Vectors.NormalizeKebabSample | IdentifierCasing.Test/TestIdentifierCasingTranslator.cs:31-38 | "this-is-a-test" translated into Pascal case is "ThisIsATest" |
| Vectors.NormalizeSnakeSample | IdentifierCasing.Test/TestIdentifierCasingTranslator.cs:31-38 | "this_is_a_test" translated into Pascal case is "ThisIsATest" |
| Vectors.NormalizeCobolSample | IdentifierCasing.Test/TestIdentifierCasingTranslator.cs:31-38 | "THIS-IS-A-TEST" translated into Pascal case is "ThisIsATest" |
| Vectors.NormalizeMacroSample | IdentifierCasing.Test/TestIdentifierCasingTranslator.cs:31-38 | "THIS_IS_A_TEST" translated into Pascal case is "ThisIsATest" |
| Vectors.NormalizeTrainSample | IdentifierCasing.Test/TestIdentifierCasingTranslator.cs:31-38 | "This-Is-A-Test" translated into Pascal case is "ThisIsATest" |
| Vectors.NormalizeSpreadsheetSample | IdentifierCasing.Test/TestIdentifierCasingTranslator.cs:31-38 | "This Is A Test" translated into Pascal case is "ThisIsATest" |
| Vectors.NormalizeMixedSample | IdentifierCasing.Test/TestIdentifierCasingTranslator.cs:31-38 | "this-Is_aTest", detected as the indeterminate style, translated into Pascal case is "ThisIsATest": the 'T' after "a" starts a word because a character that is not upper case came since the last break |
| Vectors.WriteLowerSample | IdentifierCasing.Test/TestIdentifierCasingTranslator.cs:40-50 | writing "ThisIsATest" in Lower case to an empty sink gives "this is a test" |
| Vectors.WriteUpperSample | IdentifierCasing.Test/TestIdentifierCasingTranslator.cs:40-50 | writing "ThisIsATest" in Upper case to an empty sink gives "THIS IS A TEST" |
| Vectors.WriteCamelSample | IdentifierCasing.Test/TestIdentifierCasingTranslator.cs:40-50 | writing "ThisIsATest" in Camel case to an empty sink gives "thisIsATest" |
| Vectors.WriteKebabSample | IdentifierCasing.Test/TestIdentifierCasingTranslator.cs:40-50 | writing "ThisIsATest" in Kebab case to an empty sink gives "this-is-a-test" |
| Vectors.WriteSnakeSample | IdentifierCasing.Test/TestIdentifierCasingTranslator.cs:40-50 | writing "ThisIsATest" in Snake case to an empty sink gives "this_is_a_test" |
| Vectors.WriteCobolSample | IdentifierCasing.Test/TestIdentifierCasingTranslator.cs:40-50 | writing "ThisIsATest" in Cobol case to an empty sink gives "THIS-IS-A-TEST" |
| Vectors.WriteMacroSample | IdentifierCasing.Test/TestIdentifierCasingTranslator.cs:40-50 | writing "ThisIsATest" in Macro case to an empty sink gives "THIS_IS_A_TEST" |
| Vectors.WriteTrainSample | IdentifierCasing.Test/TestIdentifierCasingTranslator.cs:40-50 | writing "ThisIsATest" in Train case to an empty sink gives "This-Is-A-Test" |
| Vectors.WriteSpreadsheetSample | IdentifierCasing.Test/TestIdentifierCasingTranslator.cs:40-50 | writing "ThisIsATest" in Spreadsheet case to an empty sink gives "This Is A Test" |
| Vectors.ReadLowerSample | IdentifierCasing.Test/TestIdentifierCasingTranslator.cs:250-256 | reading "this is a test" gives "ThisIsATest" and leaves nothing unread |
| Vectors.ReadUpperSample | IdentifierCasing.Test/TestIdentifierCasingTranslator.cs:250-256 | reading "THIS IS A TEST" gives "ThisIsATest" and leaves nothing unread |
| Vectors.ReadPascalSample | IdentifierCasing.Test/TestIdentifierCasingTranslator.cs:250-256 | reading "ThisIsATest" gives "ThisIsATest" and leaves nothing unread |
| Vectors.ReadCamelSample | IdentifierCasing.Test/TestIdentifierCasingTranslator.cs:250-256 | reading "thisIsATest" gives "ThisIsATest" and leaves nothing unread |
| Vectors.ReadKebabSample | IdentifierCasing.Test/TestIdentifierCasingTranslator.cs:250-256 | reading "this-is-a-test" gives "ThisIsATest" and leaves nothing unread |
| Vectors.ReadSnakeSample | IdentifierCasing.Test/TestIdentifierCasingTranslator.cs:250-256 | reading "this_is_a_test" gives "ThisIsATest" and leaves nothing unread |
| Vectors.ReadCobolSample | IdentifierCasing.Test/TestIdentifierCasingTranslator.cs:250-256 | reading "THIS-IS-A-TEST" gives "ThisIsATest" and leaves nothing unread |
| Vectors.ReadMacroSample | IdentifierCasing.Test/TestIdentifierCasingTranslator.cs:250-256 | reading "THIS_IS_A_TEST" gives "ThisIsATest" and leaves nothing unread |
| Vectors.ReadTrainSample | IdentifierCasing.Test/TestIdentifierCasingTranslator.cs:250-256 | reading "This-Is-A-Test" gives "ThisIsATest" and leaves nothing unread |
| Vectors.ReadSpreadsheetSample | IdentifierCasing.Test/TestIdentifierCasingTranslator.cs:250-256 | reading "This Is A Test" gives "ThisIsATest" and leaves nothing unread |
| Vectors.ReadMixedSample | IdentifierCasing.Test/TestIdentifierCasingTranslator.cs:248-256 | reading "this-Is_aTest" gives "ThisIsATest" and leaves nothing unread |
| Vectors.DetectLeadingSpaceSample | IdentifierCasing.Test/TestIdentifierCasingTranslator.cs:82 | " ThisIsATest" is detected as Pascal case |
| Vectors.TranslateLeadingSpaceSample | IdentifierCasing.Test/TestIdentifierCasingTranslator.cs:82 | " ThisIsATest" translated into camel case is " thisIsATest", with the leading space kept in place |
| Vectors.DetectTrailingDashSample | IdentifierCasing.Test/TestIdentifierCasingTranslator.cs:62 | "ThisIsATest-" is detected as Pascal case |
| Vectors.TranslateTrailingDashSample | IdentifierCasing.Test/TestIdentifierCasingTranslator.cs:62 | "ThisIsATest-" translated into snake case is "this_is_a_test-", with the trailing dash kept in place |
| Vectors.NormalizeTwiceDiffers | IdentifierCasing/CasingTranslator.cs:42 | normalizing is not idempotent: "aaA" normalizes to "AaA" and "AaA" normalizes to "Aaa", because the detection loop stops before the last character and never sees the final one-letter word |

## Left out

- Translate: the null identifier, which the library returns as it is, is not modelled. The identifier is a `string`, and the empty identifier takes the same path.
- Streams.WriteCasedIdentifier: a null identifier, which the library treats like the empty one, is not modelled. The identifier is a `string`.
- StringExtensions.IndexOfNotPunctuationWhitespaceOrSymbol: `start + count` is computed without 32-bit wrap-around. A start and count whose sum overflows `int` are therefore not modelled as the library would see them. The same holds for the two last-index scans.
- Unicode character categories and invariant case mappings: these are an abstract `Classifier`, constrained only by `Chars.Valid`. The ASCII instance classifies ASCII and the four non-ASCII punctuation marks of the library's examples, and nothing else.
- Characters: .NET strings are sequences of UTF-16 code units, and the library indexes, classifies and case-maps one code unit at a time (`identifier[offset]`, `Char.IsUpper(char)`, `TextReader.Peek()`). A Dafny `string` is a sequence of Unicode scalar values. A supplementary character such as U+10428 is therefore one position in the model but two surrogate code units in the library. Each surrogate is in category Cs: neither cased nor decoration, and left unchanged by the invariant case mappings. Unpaired surrogates cannot occur in a model string at all. To match the library on supplementary characters, a `Classifier` must treat them as word characters that are neither upper nor lower case and that both case mappings leave unchanged. `Chars.Valid` does not require this, and `Chars.Ascii` classifies no supplementary character as cased or as decoration.
- Streams.WriteMatchesTranslate: writing and translating are proved to agree only for identifiers of word characters, not for Pascal-cased identifiers that contain decoration. On decoration the two really differ: "Foo.Bar" is detected as Pascal case, but the writer copies the '.' and so writes "foo.-bar" in kebab case, while the translation drops the '.' as a word break and gives "foo-bar". `Streams.WriteIsWordTranslation` and `Streams.WriteRestMatchesEmissions` have the same restriction.
- `OldDetectIdentifierCasing` and the `Debug.Assert` cross-checks (CasingTranslator.cs lines 30, 77-79, 82-148, 161, 166, 180, 188): these exist only in debug builds.
- `TextWriter` and `TextReader` objects: the sink is the string written so far and the source is the string not yet read. Flushing, disposal and I/O errors are not modelled.
- `TranslateNullable` and `NormalizeIdentifierCasingNullable`: these only wrap the null check around `Translate`.
- The `#if false` scan in StringExtensions.cs: this code is never compiled.
- The `StringBuilder` capacity hint and the reference identity of a returned string: results are compared by value.
- `Samples.cs` and `EnumExtensions.cs`: a batch wrapper around the core and the enumeration helper that the tests use.
- Example identifiers: not every example in the library's tests is proved. Proved are detection of all eleven examples, translation of the Pascal example into every style and of every example into Pascal case, writing, reading, and one example each of leading and trailing decoration. The remaining translations between two non-Pascal styles, the other decoration examples and the non-ASCII examples are not stated as concrete outputs. `Translation.TranslateMatchesSpec` and `Translation.TranslateKeepsDecoration` relate every translation to the loop-free `Translation.TranslationSpec`, but they do not name the outputs the tests expect.
- Translation is not idempotent, and no such property is claimed. Translating "aaA" into Pascal case gives "AaA", and translating "AaA" into Pascal case gives "Aaa" (`Vectors.NormalizeTwiceDiffers`). The detection loop never examines the last character (CasingTranslator.cs line 42), so a final one-letter word is not seen: "aaA" is detected as the indeterminate style and "AaA" as first-letter-upper only. `CasingStyle.cs` (line 9) forbids only identifiers consisting entirely of one-letter words, so "aaA" is a legal identifier.
- Detection: the loop stops before the last non-blank character (CasingTranslator.cs line 42), so that character is never examined. "this-is-a-tesT" is therefore detected as kebab case. The model keeps this behaviour.
