/**
  The library's own example identifiers, stated and proved about the model with the ASCII classifier.
  Each vector is proved in small steps, so that no single proof evaluates a whole identifier.
 */
module Vectors {
  import opened Wrappers
  import opened Chars
  import opened Styles
  import opened StringExtensions
  import opened Detection
  import opened Translation
  import opened Streams

  const LowerSample := "this is a test"
  const UpperSample := "THIS IS A TEST"
  const PascalSample := "ThisIsATest"
  const CamelSample := "thisIsATest"
  const KebabSample := "this-is-a-test"
  const SnakeSample := "this_is_a_test"
  const CobolSample := "THIS-IS-A-TEST"
  const MacroSample := "THIS_IS_A_TEST"
  const TrainSample := "This-Is-A-Test"
  const SpreadsheetSample := "This Is A Test"
  const MixedSample := "this-Is_aTest"

  /** Detection as the sum of its parts: the two scans and the evidence of the pass between them. */
  lemma {:induction false} DetectFromParts(cc: Classifier, s: string, lead: int, last: int, ev: Evidence)
    requires s != ""
    requires FirstWordIndex(cc, s) == lead >= 0
    requires LastNonBlankIndex(cc, s) == last
    requires Gather(cc, s, lead + 1, last, InitialPass) == ev
    ensures DetectIdentifierCasing(cc, Some(s)) == Success(Verdict(cc.isUpper(s[lead]), ev))
  {
    var id: Option<string> := Some(s);
    assert id.value == s && |id.value| != 0;
  }

  /** An ASCII letter is a word character. */
  lemma {:induction false} LetterIsWordChar(c: char)
    requires 'A' <= c <= 'Z' || 'a' <= c <= 'z'
    ensures !IsDecoration(Ascii, c)
  {
  }

  /** The three separators are decoration. */
  lemma {:induction false} SeparatorIsDecoration(c: char)
    requires c == '-' || c == '_' || c == ' '
    ensures IsDecoration(Ascii, c)
  {
  }

  /** One iteration of the detection pass. */
  lemma {:induction false} GatherStep(cc: Classifier, s: string, offset: nat, last: int, st: PassState, st': PassState, ev: Evidence)
    requires offset < last <= |s|
    requires Observe(cc, st, s[offset]) == st'
    requires Gather(cc, s, offset + 1, last, st') == ev
    ensures Gather(cc, s, offset, last, st) == ev
  {
  }

  /** id spells "this is a test", stated character by character. */
  predicate SpellsLowerSample(id: string) {
    |id| == 14 && id[0] == 't' && id[1] == 'h' && id[2] == 'i' && id[3] == 's' && id[4] == ' ' && id[5] == 'i' && id[6] == 's' && id[7] == ' ' && id[8] == 'a' && id[9] == ' ' && id[10] == 't' && id[11] == 'e' && id[12] == 's' && id[13] == 't'
  }

  lemma {:induction false} LowerSampleSpelled()
    ensures SpellsLowerSample(LowerSample)
  {
  }

  lemma {:induction false} LowerEvidenceFrom10(id: string)
    requires SpellsLowerSample(id)
    ensures Gather(Ascii, id, 10, 13, PassState(Evidence(false, true, false, true, false, false, true, false, true), true, false)) == Evidence(false, true, false, true, false, false, true, false, true)
  {
    LetterIsWordChar(id[12]);
    GatherStep(Ascii, id, 12, 13, PassState(Evidence(false, true, false, true, false, false, true, false, true), false, false), PassState(Evidence(false, true, false, true, false, false, true, false, true), false, false), Evidence(false, true, false, true, false, false, true, false, true));
    LetterIsWordChar(id[11]);
    GatherStep(Ascii, id, 11, 13, PassState(Evidence(false, true, false, true, false, false, true, false, true), false, true), PassState(Evidence(false, true, false, true, false, false, true, false, true), false, false), Evidence(false, true, false, true, false, false, true, false, true));
    LetterIsWordChar(id[10]);
    GatherStep(Ascii, id, 10, 13, PassState(Evidence(false, true, false, true, false, false, true, false, true), true, false), PassState(Evidence(false, true, false, true, false, false, true, false, true), false, true), Evidence(false, true, false, true, false, false, true, false, true));
  }

  lemma {:induction false} LowerEvidenceFrom7(id: string)
    requires SpellsLowerSample(id)
    ensures Gather(Ascii, id, 7, 13, PassState(Evidence(false, true, false, true, false, false, true, false, true), false, false)) == Evidence(false, true, false, true, false, false, true, false, true)
  {
    LowerEvidenceFrom10(id);
    SeparatorIsDecoration(id[9]);
    GatherStep(Ascii, id, 9, 13, PassState(Evidence(false, true, false, true, false, false, true, false, true), false, true), PassState(Evidence(false, true, false, true, false, false, true, false, true), true, false), Evidence(false, true, false, true, false, false, true, false, true));
    LetterIsWordChar(id[8]);
    GatherStep(Ascii, id, 8, 13, PassState(Evidence(false, true, false, true, false, false, true, false, true), true, false), PassState(Evidence(false, true, false, true, false, false, true, false, true), false, true), Evidence(false, true, false, true, false, false, true, false, true));
    SeparatorIsDecoration(id[7]);
    GatherStep(Ascii, id, 7, 13, PassState(Evidence(false, true, false, true, false, false, true, false, true), false, false), PassState(Evidence(false, true, false, true, false, false, true, false, true), true, false), Evidence(false, true, false, true, false, false, true, false, true));
  }

  lemma {:induction false} LowerEvidenceFrom4(id: string)
    requires SpellsLowerSample(id)
    ensures Gather(Ascii, id, 4, 13, PassState(Evidence(false, true, false, false, false, false, false, false, false), false, false)) == Evidence(false, true, false, true, false, false, true, false, true)
  {
    LowerEvidenceFrom7(id);
    LetterIsWordChar(id[6]);
    GatherStep(Ascii, id, 6, 13, PassState(Evidence(false, true, false, true, false, false, true, false, false), false, true), PassState(Evidence(false, true, false, true, false, false, true, false, true), false, false), Evidence(false, true, false, true, false, false, true, false, true));
    LetterIsWordChar(id[5]);
    GatherStep(Ascii, id, 5, 13, PassState(Evidence(false, true, false, true, false, false, false, false, false), true, false), PassState(Evidence(false, true, false, true, false, false, true, false, false), false, true), Evidence(false, true, false, true, false, false, true, false, true));
    SeparatorIsDecoration(id[4]);
    GatherStep(Ascii, id, 4, 13, PassState(Evidence(false, true, false, false, false, false, false, false, false), false, false), PassState(Evidence(false, true, false, true, false, false, false, false, false), true, false), Evidence(false, true, false, true, false, false, true, false, true));
  }

  lemma {:induction false} LowerEvidenceFrom1(id: string)
    requires SpellsLowerSample(id)
    ensures Gather(Ascii, id, 1, 13, InitialPass) == Evidence(false, true, false, true, false, false, true, false, true)
  {
    LowerEvidenceFrom4(id);
    LetterIsWordChar(id[3]);
    GatherStep(Ascii, id, 3, 13, PassState(Evidence(false, true, false, false, false, false, false, false, false), false, false), PassState(Evidence(false, true, false, false, false, false, false, false, false), false, false), Evidence(false, true, false, true, false, false, true, false, true));
    LetterIsWordChar(id[2]);
    GatherStep(Ascii, id, 2, 13, PassState(Evidence(false, true, false, false, false, false, false, false, false), false, false), PassState(Evidence(false, true, false, false, false, false, false, false, false), false, false), Evidence(false, true, false, true, false, false, true, false, true));
    LetterIsWordChar(id[1]);
    GatherStep(Ascii, id, 1, 13, InitialPass, PassState(Evidence(false, true, false, false, false, false, false, false, false), false, false), Evidence(false, true, false, true, false, false, true, false, true));
  }

  /** The evidence the detection pass gathers from "this is a test". */
  lemma {:induction false} LowerSampleEvidence(id: string)
    requires SpellsLowerSample(id)
    ensures Gather(Ascii, id, 1, 13, InitialPass) == Evidence(false, true, false, true, false, false, true, false, true)
  {
    LowerEvidenceFrom1(id);
  }

  /** "this is a test" is detected as Lower case. */
  lemma {:induction false} DetectLowerSample()
    ensures DetectIdentifierCasing(Ascii, Some(LowerSample)) == Success(Lower)
  {
    LowerSampleSpelled();
    DetectLowerSpelled(LowerSample);
  }

  lemma {:induction false} DetectLowerSpelled(id: string)
    requires SpellsLowerSample(id)
    ensures DetectIdentifierCasing(Ascii, Some(id)) == Success(Lower)
  {
    LetterIsWordChar(id[0]);
    LetterIsWordChar(id[13]);
    LowerSampleEvidence(id);
    DetectFromParts(Ascii, id, 0, 13, Evidence(false, true, false, true, false, false, true, false, true));
  }

  /** id spells "THIS IS A TEST", stated character by character. */
  predicate SpellsUpperSample(id: string) {
    |id| == 14 && id[0] == 'T' && id[1] == 'H' && id[2] == 'I' && id[3] == 'S' && id[4] == ' ' && id[5] == 'I' && id[6] == 'S' && id[7] == ' ' && id[8] == 'A' && id[9] == ' ' && id[10] == 'T' && id[11] == 'E' && id[12] == 'S' && id[13] == 'T'
  }

  lemma {:induction false} UpperSampleSpelled()
    ensures SpellsUpperSample(UpperSample)
  {
  }

  lemma {:induction false} UpperEvidenceFrom10(id: string)
    requires SpellsUpperSample(id)
    ensures Gather(Ascii, id, 10, 13, PassState(Evidence(true, false, false, true, false, true, false, true, false), true, false)) == Evidence(true, false, false, true, false, true, false, true, false)
  {
    LetterIsWordChar(id[12]);
    GatherStep(Ascii, id, 12, 13, PassState(Evidence(true, false, false, true, false, true, false, true, false), false, false), PassState(Evidence(true, false, false, true, false, true, false, true, false), false, false), Evidence(true, false, false, true, false, true, false, true, false));
    LetterIsWordChar(id[11]);
    GatherStep(Ascii, id, 11, 13, PassState(Evidence(true, false, false, true, false, true, false, true, false), false, true), PassState(Evidence(true, false, false, true, false, true, false, true, false), false, false), Evidence(true, false, false, true, false, true, false, true, false));
    LetterIsWordChar(id[10]);
    GatherStep(Ascii, id, 10, 13, PassState(Evidence(true, false, false, true, false, true, false, true, false), true, false), PassState(Evidence(true, false, false, true, false, true, false, true, false), false, true), Evidence(true, false, false, true, false, true, false, true, false));
  }

  lemma {:induction false} UpperEvidenceFrom7(id: string)
    requires SpellsUpperSample(id)
    ensures Gather(Ascii, id, 7, 13, PassState(Evidence(true, false, false, true, false, true, false, true, false), false, false)) == Evidence(true, false, false, true, false, true, false, true, false)
  {
    UpperEvidenceFrom10(id);
    SeparatorIsDecoration(id[9]);
    GatherStep(Ascii, id, 9, 13, PassState(Evidence(true, false, false, true, false, true, false, true, false), false, true), PassState(Evidence(true, false, false, true, false, true, false, true, false), true, false), Evidence(true, false, false, true, false, true, false, true, false));
    LetterIsWordChar(id[8]);
    GatherStep(Ascii, id, 8, 13, PassState(Evidence(true, false, false, true, false, true, false, true, false), true, false), PassState(Evidence(true, false, false, true, false, true, false, true, false), false, true), Evidence(true, false, false, true, false, true, false, true, false));
    SeparatorIsDecoration(id[7]);
    GatherStep(Ascii, id, 7, 13, PassState(Evidence(true, false, false, true, false, true, false, true, false), false, false), PassState(Evidence(true, false, false, true, false, true, false, true, false), true, false), Evidence(true, false, false, true, false, true, false, true, false));
  }

  lemma {:induction false} UpperEvidenceFrom4(id: string)
    requires SpellsUpperSample(id)
    ensures Gather(Ascii, id, 4, 13, PassState(Evidence(true, false, false, false, false, false, false, false, false), false, false)) == Evidence(true, false, false, true, false, true, false, true, false)
  {
    UpperEvidenceFrom7(id);
    LetterIsWordChar(id[6]);
    GatherStep(Ascii, id, 6, 13, PassState(Evidence(true, false, false, true, false, true, false, false, false), false, true), PassState(Evidence(true, false, false, true, false, true, false, true, false), false, false), Evidence(true, false, false, true, false, true, false, true, false));
    LetterIsWordChar(id[5]);
    GatherStep(Ascii, id, 5, 13, PassState(Evidence(true, false, false, true, false, false, false, false, false), true, false), PassState(Evidence(true, false, false, true, false, true, false, false, false), false, true), Evidence(true, false, false, true, false, true, false, true, false));
    SeparatorIsDecoration(id[4]);
    GatherStep(Ascii, id, 4, 13, PassState(Evidence(true, false, false, false, false, false, false, false, false), false, false), PassState(Evidence(true, false, false, true, false, false, false, false, false), true, false), Evidence(true, false, false, true, false, true, false, true, false));
  }

  lemma {:induction false} UpperEvidenceFrom1(id: string)
    requires SpellsUpperSample(id)
    ensures Gather(Ascii, id, 1, 13, InitialPass) == Evidence(true, false, false, true, false, true, false, true, false)
  {
    UpperEvidenceFrom4(id);
    LetterIsWordChar(id[3]);
    GatherStep(Ascii, id, 3, 13, PassState(Evidence(true, false, false, false, false, false, false, false, false), false, false), PassState(Evidence(true, false, false, false, false, false, false, false, false), false, false), Evidence(true, false, false, true, false, true, false, true, false));
    LetterIsWordChar(id[2]);
    GatherStep(Ascii, id, 2, 13, PassState(Evidence(true, false, false, false, false, false, false, false, false), false, false), PassState(Evidence(true, false, false, false, false, false, false, false, false), false, false), Evidence(true, false, false, true, false, true, false, true, false));
    LetterIsWordChar(id[1]);
    GatherStep(Ascii, id, 1, 13, InitialPass, PassState(Evidence(true, false, false, false, false, false, false, false, false), false, false), Evidence(true, false, false, true, false, true, false, true, false));
  }

  /** The evidence the detection pass gathers from "THIS IS A TEST". */
  lemma {:induction false} UpperSampleEvidence(id: string)
    requires SpellsUpperSample(id)
    ensures Gather(Ascii, id, 1, 13, InitialPass) == Evidence(true, false, false, true, false, true, false, true, false)
  {
    UpperEvidenceFrom1(id);
  }

  /** "THIS IS A TEST" is detected as Upper case. */
  lemma {:induction false} DetectUpperSample()
    ensures DetectIdentifierCasing(Ascii, Some(UpperSample)) == Success(Upper)
  {
    UpperSampleSpelled();
    DetectUpperSpelled(UpperSample);
  }

  lemma {:induction false} DetectUpperSpelled(id: string)
    requires SpellsUpperSample(id)
    ensures DetectIdentifierCasing(Ascii, Some(id)) == Success(Upper)
  {
    LetterIsWordChar(id[0]);
    LetterIsWordChar(id[13]);
    UpperSampleEvidence(id);
    DetectFromParts(Ascii, id, 0, 13, Evidence(true, false, false, true, false, true, false, true, false));
  }

  /** id spells "ThisIsATest", stated character by character. */
  predicate SpellsPascalSample(id: string) {
    |id| == 11 && id[0] == 'T' && id[1] == 'h' && id[2] == 'i' && id[3] == 's' && id[4] == 'I' && id[5] == 's' && id[6] == 'A' && id[7] == 'T' && id[8] == 'e' && id[9] == 's' && id[10] == 't'
  }

  lemma {:induction false} PascalSampleSpelled()
    ensures SpellsPascalSample(PascalSample)
  {
  }

  lemma {:induction false} PascalEvidenceFrom7(id: string)
    requires SpellsPascalSample(id)
    ensures Gather(Ascii, id, 7, 10, PassState(Evidence(true, true, false, false, false, false, false, false, false), false, false)) == Evidence(true, true, false, false, false, false, false, false, false)
  {
    LetterIsWordChar(id[9]);
    GatherStep(Ascii, id, 9, 10, PassState(Evidence(true, true, false, false, false, false, false, false, false), false, false), PassState(Evidence(true, true, false, false, false, false, false, false, false), false, false), Evidence(true, true, false, false, false, false, false, false, false));
    LetterIsWordChar(id[8]);
    GatherStep(Ascii, id, 8, 10, PassState(Evidence(true, true, false, false, false, false, false, false, false), false, false), PassState(Evidence(true, true, false, false, false, false, false, false, false), false, false), Evidence(true, true, false, false, false, false, false, false, false));
    LetterIsWordChar(id[7]);
    GatherStep(Ascii, id, 7, 10, PassState(Evidence(true, true, false, false, false, false, false, false, false), false, false), PassState(Evidence(true, true, false, false, false, false, false, false, false), false, false), Evidence(true, true, false, false, false, false, false, false, false));
  }

  lemma {:induction false} PascalEvidenceFrom4(id: string)
    requires SpellsPascalSample(id)
    ensures Gather(Ascii, id, 4, 10, PassState(Evidence(false, true, false, false, false, false, false, false, false), false, false)) == Evidence(true, true, false, false, false, false, false, false, false)
  {
    PascalEvidenceFrom7(id);
    LetterIsWordChar(id[6]);
    GatherStep(Ascii, id, 6, 10, PassState(Evidence(true, true, false, false, false, false, false, false, false), false, false), PassState(Evidence(true, true, false, false, false, false, false, false, false), false, false), Evidence(true, true, false, false, false, false, false, false, false));
    LetterIsWordChar(id[5]);
    GatherStep(Ascii, id, 5, 10, PassState(Evidence(true, true, false, false, false, false, false, false, false), false, false), PassState(Evidence(true, true, false, false, false, false, false, false, false), false, false), Evidence(true, true, false, false, false, false, false, false, false));
    LetterIsWordChar(id[4]);
    GatherStep(Ascii, id, 4, 10, PassState(Evidence(false, true, false, false, false, false, false, false, false), false, false), PassState(Evidence(true, true, false, false, false, false, false, false, false), false, false), Evidence(true, true, false, false, false, false, false, false, false));
  }

  lemma {:induction false} PascalEvidenceFrom1(id: string)
    requires SpellsPascalSample(id)
    ensures Gather(Ascii, id, 1, 10, InitialPass) == Evidence(true, true, false, false, false, false, false, false, false)
  {
    PascalEvidenceFrom4(id);
    LetterIsWordChar(id[3]);
    GatherStep(Ascii, id, 3, 10, PassState(Evidence(false, true, false, false, false, false, false, false, false), false, false), PassState(Evidence(false, true, false, false, false, false, false, false, false), false, false), Evidence(true, true, false, false, false, false, false, false, false));
    LetterIsWordChar(id[2]);
    GatherStep(Ascii, id, 2, 10, PassState(Evidence(false, true, false, false, false, false, false, false, false), false, false), PassState(Evidence(false, true, false, false, false, false, false, false, false), false, false), Evidence(true, true, false, false, false, false, false, false, false));
    LetterIsWordChar(id[1]);
    GatherStep(Ascii, id, 1, 10, InitialPass, PassState(Evidence(false, true, false, false, false, false, false, false, false), false, false), Evidence(true, true, false, false, false, false, false, false, false));
  }

  /** The evidence the detection pass gathers from "ThisIsATest". */
  lemma {:induction false} PascalSampleEvidence(id: string)
    requires SpellsPascalSample(id)
    ensures Gather(Ascii, id, 1, 10, InitialPass) == Evidence(true, true, false, false, false, false, false, false, false)
  {
    PascalEvidenceFrom1(id);
  }

  /** "ThisIsATest" is detected as Pascal case. */
  lemma {:induction false} DetectPascalSample()
    ensures DetectIdentifierCasing(Ascii, Some(PascalSample)) == Success(Pascal)
  {
    PascalSampleSpelled();
    DetectPascalSpelled(PascalSample);
  }

  lemma {:induction false} DetectPascalSpelled(id: string)
    requires SpellsPascalSample(id)
    ensures DetectIdentifierCasing(Ascii, Some(id)) == Success(Pascal)
  {
    LetterIsWordChar(id[0]);
    LetterIsWordChar(id[10]);
    PascalSampleEvidence(id);
    DetectFromParts(Ascii, id, 0, 10, Evidence(true, true, false, false, false, false, false, false, false));
  }

  /** id spells "thisIsATest", stated character by character. */
  predicate SpellsCamelSample(id: string) {
    |id| == 11 && id[0] == 't' && id[1] == 'h' && id[2] == 'i' && id[3] == 's' && id[4] == 'I' && id[5] == 's' && id[6] == 'A' && id[7] == 'T' && id[8] == 'e' && id[9] == 's' && id[10] == 't'
  }

  lemma {:induction false} CamelSampleSpelled()
    ensures SpellsCamelSample(CamelSample)
  {
  }

  lemma {:induction false} CamelEvidenceFrom7(id: string)
    requires SpellsCamelSample(id)
    ensures Gather(Ascii, id, 7, 10, PassState(Evidence(true, true, false, false, false, false, false, false, false), false, false)) == Evidence(true, true, false, false, false, false, false, false, false)
  {
    LetterIsWordChar(id[9]);
    GatherStep(Ascii, id, 9, 10, PassState(Evidence(true, true, false, false, false, false, false, false, false), false, false), PassState(Evidence(true, true, false, false, false, false, false, false, false), false, false), Evidence(true, true, false, false, false, false, false, false, false));
    LetterIsWordChar(id[8]);
    GatherStep(Ascii, id, 8, 10, PassState(Evidence(true, true, false, false, false, false, false, false, false), false, false), PassState(Evidence(true, true, false, false, false, false, false, false, false), false, false), Evidence(true, true, false, false, false, false, false, false, false));
    LetterIsWordChar(id[7]);
    GatherStep(Ascii, id, 7, 10, PassState(Evidence(true, true, false, false, false, false, false, false, false), false, false), PassState(Evidence(true, true, false, false, false, false, false, false, false), false, false), Evidence(true, true, false, false, false, false, false, false, false));
  }

  lemma {:induction false} CamelEvidenceFrom4(id: string)
    requires SpellsCamelSample(id)
    ensures Gather(Ascii, id, 4, 10, PassState(Evidence(false, true, false, false, false, false, false, false, false), false, false)) == Evidence(true, true, false, false, false, false, false, false, false)
  {
    CamelEvidenceFrom7(id);
    LetterIsWordChar(id[6]);
    GatherStep(Ascii, id, 6, 10, PassState(Evidence(true, true, false, false, false, false, false, false, false), false, false), PassState(Evidence(true, true, false, false, false, false, false, false, false), false, false), Evidence(true, true, false, false, false, false, false, false, false));
    LetterIsWordChar(id[5]);
    GatherStep(Ascii, id, 5, 10, PassState(Evidence(true, true, false, false, false, false, false, false, false), false, false), PassState(Evidence(true, true, false, false, false, false, false, false, false), false, false), Evidence(true, true, false, false, false, false, false, false, false));
    LetterIsWordChar(id[4]);
    GatherStep(Ascii, id, 4, 10, PassState(Evidence(false, true, false, false, false, false, false, false, false), false, false), PassState(Evidence(true, true, false, false, false, false, false, false, false), false, false), Evidence(true, true, false, false, false, false, false, false, false));
  }

  lemma {:induction false} CamelEvidenceFrom1(id: string)
    requires SpellsCamelSample(id)
    ensures Gather(Ascii, id, 1, 10, InitialPass) == Evidence(true, true, false, false, false, false, false, false, false)
  {
    CamelEvidenceFrom4(id);
    LetterIsWordChar(id[3]);
    GatherStep(Ascii, id, 3, 10, PassState(Evidence(false, true, false, false, false, false, false, false, false), false, false), PassState(Evidence(false, true, false, false, false, false, false, false, false), false, false), Evidence(true, true, false, false, false, false, false, false, false));
    LetterIsWordChar(id[2]);
    GatherStep(Ascii, id, 2, 10, PassState(Evidence(false, true, false, false, false, false, false, false, false), false, false), PassState(Evidence(false, true, false, false, false, false, false, false, false), false, false), Evidence(true, true, false, false, false, false, false, false, false));
    LetterIsWordChar(id[1]);
    GatherStep(Ascii, id, 1, 10, InitialPass, PassState(Evidence(false, true, false, false, false, false, false, false, false), false, false), Evidence(true, true, false, false, false, false, false, false, false));
  }

  /** The evidence the detection pass gathers from "thisIsATest". */
  lemma {:induction false} CamelSampleEvidence(id: string)
    requires SpellsCamelSample(id)
    ensures Gather(Ascii, id, 1, 10, InitialPass) == Evidence(true, true, false, false, false, false, false, false, false)
  {
    CamelEvidenceFrom1(id);
  }

  /** "thisIsATest" is detected as Camel case. */
  lemma {:induction false} DetectCamelSample()
    ensures DetectIdentifierCasing(Ascii, Some(CamelSample)) == Success(Camel)
  {
    CamelSampleSpelled();
    DetectCamelSpelled(CamelSample);
  }

  lemma {:induction false} DetectCamelSpelled(id: string)
    requires SpellsCamelSample(id)
    ensures DetectIdentifierCasing(Ascii, Some(id)) == Success(Camel)
  {
    LetterIsWordChar(id[0]);
    LetterIsWordChar(id[10]);
    CamelSampleEvidence(id);
    DetectFromParts(Ascii, id, 0, 10, Evidence(true, true, false, false, false, false, false, false, false));
  }

  /** id spells "this-is-a-test", stated character by character. */
  predicate SpellsKebabSample(id: string) {
    |id| == 14 && id[0] == 't' && id[1] == 'h' && id[2] == 'i' && id[3] == 's' && id[4] == '-' && id[5] == 'i' && id[6] == 's' && id[7] == '-' && id[8] == 'a' && id[9] == '-' && id[10] == 't' && id[11] == 'e' && id[12] == 's' && id[13] == 't'
  }

  lemma {:induction false} KebabSampleSpelled()
    ensures SpellsKebabSample(KebabSample)
  {
  }

  lemma {:induction false} KebabEvidenceFrom10(id: string)
    requires SpellsKebabSample(id)
    ensures Gather(Ascii, id, 10, 13, PassState(Evidence(false, true, true, false, false, false, true, false, true), true, false)) == Evidence(false, true, true, false, false, false, true, false, true)
  {
    LetterIsWordChar(id[12]);
    GatherStep(Ascii, id, 12, 13, PassState(Evidence(false, true, true, false, false, false, true, false, true), false, false), PassState(Evidence(false, true, true, false, false, false, true, false, true), false, false), Evidence(false, true, true, false, false, false, true, false, true));
    LetterIsWordChar(id[11]);
    GatherStep(Ascii, id, 11, 13, PassState(Evidence(false, true, true, false, false, false, true, false, true), false, true), PassState(Evidence(false, true, true, false, false, false, true, false, true), false, false), Evidence(false, true, true, false, false, false, true, false, true));
    LetterIsWordChar(id[10]);
    GatherStep(Ascii, id, 10, 13, PassState(Evidence(false, true, true, false, false, false, true, false, true), true, false), PassState(Evidence(false, true, true, false, false, false, true, false, true), false, true), Evidence(false, true, true, false, false, false, true, false, true));
  }

  lemma {:induction false} KebabEvidenceFrom7(id: string)
    requires SpellsKebabSample(id)
    ensures Gather(Ascii, id, 7, 13, PassState(Evidence(false, true, true, false, false, false, true, false, true), false, false)) == Evidence(false, true, true, false, false, false, true, false, true)
  {
    KebabEvidenceFrom10(id);
    SeparatorIsDecoration(id[9]);
    GatherStep(Ascii, id, 9, 13, PassState(Evidence(false, true, true, false, false, false, true, false, true), false, true), PassState(Evidence(false, true, true, false, false, false, true, false, true), true, false), Evidence(false, true, true, false, false, false, true, false, true));
    LetterIsWordChar(id[8]);
    GatherStep(Ascii, id, 8, 13, PassState(Evidence(false, true, true, false, false, false, true, false, true), true, false), PassState(Evidence(false, true, true, false, false, false, true, false, true), false, true), Evidence(false, true, true, false, false, false, true, false, true));
    SeparatorIsDecoration(id[7]);
    GatherStep(Ascii, id, 7, 13, PassState(Evidence(false, true, true, false, false, false, true, false, true), false, false), PassState(Evidence(false, true, true, false, false, false, true, false, true), true, false), Evidence(false, true, true, false, false, false, true, false, true));
  }

  lemma {:induction false} KebabEvidenceFrom4(id: string)
    requires SpellsKebabSample(id)
    ensures Gather(Ascii, id, 4, 13, PassState(Evidence(false, true, false, false, false, false, false, false, false), false, false)) == Evidence(false, true, true, false, false, false, true, false, true)
  {
    KebabEvidenceFrom7(id);
    LetterIsWordChar(id[6]);
    GatherStep(Ascii, id, 6, 13, PassState(Evidence(false, true, true, false, false, false, true, false, false), false, true), PassState(Evidence(false, true, true, false, false, false, true, false, true), false, false), Evidence(false, true, true, false, false, false, true, false, true));
    LetterIsWordChar(id[5]);
    GatherStep(Ascii, id, 5, 13, PassState(Evidence(false, true, true, false, false, false, false, false, false), true, false), PassState(Evidence(false, true, true, false, false, false, true, false, false), false, true), Evidence(false, true, true, false, false, false, true, false, true));
    SeparatorIsDecoration(id[4]);
    GatherStep(Ascii, id, 4, 13, PassState(Evidence(false, true, false, false, false, false, false, false, false), false, false), PassState(Evidence(false, true, true, false, false, false, false, false, false), true, false), Evidence(false, true, true, false, false, false, true, false, true));
  }

  lemma {:induction false} KebabEvidenceFrom1(id: string)
    requires SpellsKebabSample(id)
    ensures Gather(Ascii, id, 1, 13, InitialPass) == Evidence(false, true, true, false, false, false, true, false, true)
  {
    KebabEvidenceFrom4(id);
    LetterIsWordChar(id[3]);
    GatherStep(Ascii, id, 3, 13, PassState(Evidence(false, true, false, false, false, false, false, false, false), false, false), PassState(Evidence(false, true, false, false, false, false, false, false, false), false, false), Evidence(false, true, true, false, false, false, true, false, true));
    LetterIsWordChar(id[2]);
    GatherStep(Ascii, id, 2, 13, PassState(Evidence(false, true, false, false, false, false, false, false, false), false, false), PassState(Evidence(false, true, false, false, false, false, false, false, false), false, false), Evidence(false, true, true, false, false, false, true, false, true));
    LetterIsWordChar(id[1]);
    GatherStep(Ascii, id, 1, 13, InitialPass, PassState(Evidence(false, true, false, false, false, false, false, false, false), false, false), Evidence(false, true, true, false, false, false, true, false, true));
  }

  /** The evidence the detection pass gathers from "this-is-a-test". */
  lemma {:induction false} KebabSampleEvidence(id: string)
    requires SpellsKebabSample(id)
    ensures Gather(Ascii, id, 1, 13, InitialPass) == Evidence(false, true, true, false, false, false, true, false, true)
  {
    KebabEvidenceFrom1(id);
  }

  /** "this-is-a-test" is detected as Kebab case. */
  lemma {:induction false} DetectKebabSample()
    ensures DetectIdentifierCasing(Ascii, Some(KebabSample)) == Success(Kebab)
  {
    KebabSampleSpelled();
    DetectKebabSpelled(KebabSample);
  }

  lemma {:induction false} DetectKebabSpelled(id: string)
    requires SpellsKebabSample(id)
    ensures DetectIdentifierCasing(Ascii, Some(id)) == Success(Kebab)
  {
    LetterIsWordChar(id[0]);
    LetterIsWordChar(id[13]);
    KebabSampleEvidence(id);
    DetectFromParts(Ascii, id, 0, 13, Evidence(false, true, true, false, false, false, true, false, true));
  }

  /** id spells "this_is_a_test", stated character by character. */
  predicate SpellsSnakeSample(id: string) {
    |id| == 14 && id[0] == 't' && id[1] == 'h' && id[2] == 'i' && id[3] == 's' && id[4] == '_' && id[5] == 'i' && id[6] == 's' && id[7] == '_' && id[8] == 'a' && id[9] == '_' && id[10] == 't' && id[11] == 'e' && id[12] == 's' && id[13] == 't'
  }

  lemma {:induction false} SnakeSampleSpelled()
    ensures SpellsSnakeSample(SnakeSample)
  {
  }

  lemma {:induction false} SnakeEvidenceFrom10(id: string)
    requires SpellsSnakeSample(id)
    ensures Gather(Ascii, id, 10, 13, PassState(Evidence(false, true, false, false, true, false, true, false, true), true, false)) == Evidence(false, true, false, false, true, false, true, false, true)
  {
    LetterIsWordChar(id[12]);
    GatherStep(Ascii, id, 12, 13, PassState(Evidence(false, true, false, false, true, false, true, false, true), false, false), PassState(Evidence(false, true, false, false, true, false, true, false, true), false, false), Evidence(false, true, false, false, true, false, true, false, true));
    LetterIsWordChar(id[11]);
    GatherStep(Ascii, id, 11, 13, PassState(Evidence(false, true, false, false, true, false, true, false, true), false, true), PassState(Evidence(false, true, false, false, true, false, true, false, true), false, false), Evidence(false, true, false, false, true, false, true, false, true));
    LetterIsWordChar(id[10]);
    GatherStep(Ascii, id, 10, 13, PassState(Evidence(false, true, false, false, true, false, true, false, true), true, false), PassState(Evidence(false, true, false, false, true, false, true, false, true), false, true), Evidence(false, true, false, false, true, false, true, false, true));
  }

  lemma {:induction false} SnakeEvidenceFrom7(id: string)
    requires SpellsSnakeSample(id)
    ensures Gather(Ascii, id, 7, 13, PassState(Evidence(false, true, false, false, true, false, true, false, true), false, false)) == Evidence(false, true, false, false, true, false, true, false, true)
  {
    SnakeEvidenceFrom10(id);
    SeparatorIsDecoration(id[9]);
    GatherStep(Ascii, id, 9, 13, PassState(Evidence(false, true, false, false, true, false, true, false, true), false, true), PassState(Evidence(false, true, false, false, true, false, true, false, true), true, false), Evidence(false, true, false, false, true, false, true, false, true));
    LetterIsWordChar(id[8]);
    GatherStep(Ascii, id, 8, 13, PassState(Evidence(false, true, false, false, true, false, true, false, true), true, false), PassState(Evidence(false, true, false, false, true, false, true, false, true), false, true), Evidence(false, true, false, false, true, false, true, false, true));
    SeparatorIsDecoration(id[7]);
    GatherStep(Ascii, id, 7, 13, PassState(Evidence(false, true, false, false, true, false, true, false, true), false, false), PassState(Evidence(false, true, false, false, true, false, true, false, true), true, false), Evidence(false, true, false, false, true, false, true, false, true));
  }

  lemma {:induction false} SnakeEvidenceFrom4(id: string)
    requires SpellsSnakeSample(id)
    ensures Gather(Ascii, id, 4, 13, PassState(Evidence(false, true, false, false, false, false, false, false, false), false, false)) == Evidence(false, true, false, false, true, false, true, false, true)
  {
    SnakeEvidenceFrom7(id);
    LetterIsWordChar(id[6]);
    GatherStep(Ascii, id, 6, 13, PassState(Evidence(false, true, false, false, true, false, true, false, false), false, true), PassState(Evidence(false, true, false, false, true, false, true, false, true), false, false), Evidence(false, true, false, false, true, false, true, false, true));
    LetterIsWordChar(id[5]);
    GatherStep(Ascii, id, 5, 13, PassState(Evidence(false, true, false, false, true, false, false, false, false), true, false), PassState(Evidence(false, true, false, false, true, false, true, false, false), false, true), Evidence(false, true, false, false, true, false, true, false, true));
    SeparatorIsDecoration(id[4]);
    GatherStep(Ascii, id, 4, 13, PassState(Evidence(false, true, false, false, false, false, false, false, false), false, false), PassState(Evidence(false, true, false, false, true, false, false, false, false), true, false), Evidence(false, true, false, false, true, false, true, false, true));
  }

  lemma {:induction false} SnakeEvidenceFrom1(id: string)
    requires SpellsSnakeSample(id)
    ensures Gather(Ascii, id, 1, 13, InitialPass) == Evidence(false, true, false, false, true, false, true, false, true)
  {
    SnakeEvidenceFrom4(id);
    LetterIsWordChar(id[3]);
    GatherStep(Ascii, id, 3, 13, PassState(Evidence(false, true, false, false, false, false, false, false, false), false, false), PassState(Evidence(false, true, false, false, false, false, false, false, false), false, false), Evidence(false, true, false, false, true, false, true, false, true));
    LetterIsWordChar(id[2]);
    GatherStep(Ascii, id, 2, 13, PassState(Evidence(false, true, false, false, false, false, false, false, false), false, false), PassState(Evidence(false, true, false, false, false, false, false, false, false), false, false), Evidence(false, true, false, false, true, false, true, false, true));
    LetterIsWordChar(id[1]);
    GatherStep(Ascii, id, 1, 13, InitialPass, PassState(Evidence(false, true, false, false, false, false, false, false, false), false, false), Evidence(false, true, false, false, true, false, true, false, true));
  }

  /** The evidence the detection pass gathers from "this_is_a_test". */
  lemma {:induction false} SnakeSampleEvidence(id: string)
    requires SpellsSnakeSample(id)
    ensures Gather(Ascii, id, 1, 13, InitialPass) == Evidence(false, true, false, false, true, false, true, false, true)
  {
    SnakeEvidenceFrom1(id);
  }

  /** "this_is_a_test" is detected as Snake case. */
  lemma {:induction false} DetectSnakeSample()
    ensures DetectIdentifierCasing(Ascii, Some(SnakeSample)) == Success(Snake)
  {
    SnakeSampleSpelled();
    DetectSnakeSpelled(SnakeSample);
  }

  lemma {:induction false} DetectSnakeSpelled(id: string)
    requires SpellsSnakeSample(id)
    ensures DetectIdentifierCasing(Ascii, Some(id)) == Success(Snake)
  {
    LetterIsWordChar(id[0]);
    LetterIsWordChar(id[13]);
    SnakeSampleEvidence(id);
    DetectFromParts(Ascii, id, 0, 13, Evidence(false, true, false, false, true, false, true, false, true));
  }

  /** id spells "THIS-IS-A-TEST", stated character by character. */
  predicate SpellsCobolSample(id: string) {
    |id| == 14 && id[0] == 'T' && id[1] == 'H' && id[2] == 'I' && id[3] == 'S' && id[4] == '-' && id[5] == 'I' && id[6] == 'S' && id[7] == '-' && id[8] == 'A' && id[9] == '-' && id[10] == 'T' && id[11] == 'E' && id[12] == 'S' && id[13] == 'T'
  }

  lemma {:induction false} CobolSampleSpelled()
    ensures SpellsCobolSample(CobolSample)
  {
  }

  lemma {:induction false} CobolEvidenceFrom10(id: string)
    requires SpellsCobolSample(id)
    ensures Gather(Ascii, id, 10, 13, PassState(Evidence(true, false, true, false, false, true, false, true, false), true, false)) == Evidence(true, false, true, false, false, true, false, true, false)
  {
    LetterIsWordChar(id[12]);
    GatherStep(Ascii, id, 12, 13, PassState(Evidence(true, false, true, false, false, true, false, true, false), false, false), PassState(Evidence(true, false, true, false, false, true, false, true, false), false, false), Evidence(true, false, true, false, false, true, false, true, false));
    LetterIsWordChar(id[11]);
    GatherStep(Ascii, id, 11, 13, PassState(Evidence(true, false, true, false, false, true, false, true, false), false, true), PassState(Evidence(true, false, true, false, false, true, false, true, false), false, false), Evidence(true, false, true, false, false, true, false, true, false));
    LetterIsWordChar(id[10]);
    GatherStep(Ascii, id, 10, 13, PassState(Evidence(true, false, true, false, false, true, false, true, false), true, false), PassState(Evidence(true, false, true, false, false, true, false, true, false), false, true), Evidence(true, false, true, false, false, true, false, true, false));
  }

  lemma {:induction false} CobolEvidenceFrom7(id: string)
    requires SpellsCobolSample(id)
    ensures Gather(Ascii, id, 7, 13, PassState(Evidence(true, false, true, false, false, true, false, true, false), false, false)) == Evidence(true, false, true, false, false, true, false, true, false)
  {
    CobolEvidenceFrom10(id);
    SeparatorIsDecoration(id[9]);
    GatherStep(Ascii, id, 9, 13, PassState(Evidence(true, false, true, false, false, true, false, true, false), false, true), PassState(Evidence(true, false, true, false, false, true, false, true, false), true, false), Evidence(true, false, true, false, false, true, false, true, false));
    LetterIsWordChar(id[8]);
    GatherStep(Ascii, id, 8, 13, PassState(Evidence(true, false, true, false, false, true, false, true, false), true, false), PassState(Evidence(true, false, true, false, false, true, false, true, false), false, true), Evidence(true, false, true, false, false, true, false, true, false));
    SeparatorIsDecoration(id[7]);
    GatherStep(Ascii, id, 7, 13, PassState(Evidence(true, false, true, false, false, true, false, true, false), false, false), PassState(Evidence(true, false, true, false, false, true, false, true, false), true, false), Evidence(true, false, true, false, false, true, false, true, false));
  }

  lemma {:induction false} CobolEvidenceFrom4(id: string)
    requires SpellsCobolSample(id)
    ensures Gather(Ascii, id, 4, 13, PassState(Evidence(true, false, false, false, false, false, false, false, false), false, false)) == Evidence(true, false, true, false, false, true, false, true, false)
  {
    CobolEvidenceFrom7(id);
    LetterIsWordChar(id[6]);
    GatherStep(Ascii, id, 6, 13, PassState(Evidence(true, false, true, false, false, true, false, false, false), false, true), PassState(Evidence(true, false, true, false, false, true, false, true, false), false, false), Evidence(true, false, true, false, false, true, false, true, false));
    LetterIsWordChar(id[5]);
    GatherStep(Ascii, id, 5, 13, PassState(Evidence(true, false, true, false, false, false, false, false, false), true, false), PassState(Evidence(true, false, true, false, false, true, false, false, false), false, true), Evidence(true, false, true, false, false, true, false, true, false));
    SeparatorIsDecoration(id[4]);
    GatherStep(Ascii, id, 4, 13, PassState(Evidence(true, false, false, false, false, false, false, false, false), false, false), PassState(Evidence(true, false, true, false, false, false, false, false, false), true, false), Evidence(true, false, true, false, false, true, false, true, false));
  }

  lemma {:induction false} CobolEvidenceFrom1(id: string)
    requires SpellsCobolSample(id)
    ensures Gather(Ascii, id, 1, 13, InitialPass) == Evidence(true, false, true, false, false, true, false, true, false)
  {
    CobolEvidenceFrom4(id);
    LetterIsWordChar(id[3]);
    GatherStep(Ascii, id, 3, 13, PassState(Evidence(true, false, false, false, false, false, false, false, false), false, false), PassState(Evidence(true, false, false, false, false, false, false, false, false), false, false), Evidence(true, false, true, false, false, true, false, true, false));
    LetterIsWordChar(id[2]);
    GatherStep(Ascii, id, 2, 13, PassState(Evidence(true, false, false, false, false, false, false, false, false), false, false), PassState(Evidence(true, false, false, false, false, false, false, false, false), false, false), Evidence(true, false, true, false, false, true, false, true, false));
    LetterIsWordChar(id[1]);
    GatherStep(Ascii, id, 1, 13, InitialPass, PassState(Evidence(true, false, false, false, false, false, false, false, false), false, false), Evidence(true, false, true, false, false, true, false, true, false));
  }

  /** The evidence the detection pass gathers from "THIS-IS-A-TEST". */
  lemma {:induction false} CobolSampleEvidence(id: string)
    requires SpellsCobolSample(id)
    ensures Gather(Ascii, id, 1, 13, InitialPass) == Evidence(true, false, true, false, false, true, false, true, false)
  {
    CobolEvidenceFrom1(id);
  }

  /** "THIS-IS-A-TEST" is detected as Cobol case. */
  lemma {:induction false} DetectCobolSample()
    ensures DetectIdentifierCasing(Ascii, Some(CobolSample)) == Success(Cobol)
  {
    CobolSampleSpelled();
    DetectCobolSpelled(CobolSample);
  }

  lemma {:induction false} DetectCobolSpelled(id: string)
    requires SpellsCobolSample(id)
    ensures DetectIdentifierCasing(Ascii, Some(id)) == Success(Cobol)
  {
    LetterIsWordChar(id[0]);
    LetterIsWordChar(id[13]);
    CobolSampleEvidence(id);
    DetectFromParts(Ascii, id, 0, 13, Evidence(true, false, true, false, false, true, false, true, false));
  }

  /** id spells "THIS_IS_A_TEST", stated character by character. */
  predicate SpellsMacroSample(id: string) {
    |id| == 14 && id[0] == 'T' && id[1] == 'H' && id[2] == 'I' && id[3] == 'S' && id[4] == '_' && id[5] == 'I' && id[6] == 'S' && id[7] == '_' && id[8] == 'A' && id[9] == '_' && id[10] == 'T' && id[11] == 'E' && id[12] == 'S' && id[13] == 'T'
  }

  lemma {:induction false} MacroSampleSpelled()
    ensures SpellsMacroSample(MacroSample)
  {
  }

  lemma {:induction false} MacroEvidenceFrom10(id: string)
    requires SpellsMacroSample(id)
    ensures Gather(Ascii, id, 10, 13, PassState(Evidence(true, false, false, false, true, true, false, true, false), true, false)) == Evidence(true, false, false, false, true, true, false, true, false)
  {
    LetterIsWordChar(id[12]);
    GatherStep(Ascii, id, 12, 13, PassState(Evidence(true, false, false, false, true, true, false, true, false), false, false), PassState(Evidence(true, false, false, false, true, true, false, true, false), false, false), Evidence(true, false, false, false, true, true, false, true, false));
    LetterIsWordChar(id[11]);
    GatherStep(Ascii, id, 11, 13, PassState(Evidence(true, false, false, false, true, true, false, true, false), false, true), PassState(Evidence(true, false, false, false, true, true, false, true, false), false, false), Evidence(true, false, false, false, true, true, false, true, false));
    LetterIsWordChar(id[10]);
    GatherStep(Ascii, id, 10, 13, PassState(Evidence(true, false, false, false, true, true, false, true, false), true, false), PassState(Evidence(true, false, false, false, true, true, false, true, false), false, true), Evidence(true, false, false, false, true, true, false, true, false));
  }

  lemma {:induction false} MacroEvidenceFrom7(id: string)
    requires SpellsMacroSample(id)
    ensures Gather(Ascii, id, 7, 13, PassState(Evidence(true, false, false, false, true, true, false, true, false), false, false)) == Evidence(true, false, false, false, true, true, false, true, false)
  {
    MacroEvidenceFrom10(id);
    SeparatorIsDecoration(id[9]);
    GatherStep(Ascii, id, 9, 13, PassState(Evidence(true, false, false, false, true, true, false, true, false), false, true), PassState(Evidence(true, false, false, false, true, true, false, true, false), true, false), Evidence(true, false, false, false, true, true, false, true, false));
    LetterIsWordChar(id[8]);
    GatherStep(Ascii, id, 8, 13, PassState(Evidence(true, false, false, false, true, true, false, true, false), true, false), PassState(Evidence(true, false, false, false, true, true, false, true, false), false, true), Evidence(true, false, false, false, true, true, false, true, false));
    SeparatorIsDecoration(id[7]);
    GatherStep(Ascii, id, 7, 13, PassState(Evidence(true, false, false, false, true, true, false, true, false), false, false), PassState(Evidence(true, false, false, false, true, true, false, true, false), true, false), Evidence(true, false, false, false, true, true, false, true, false));
  }

  lemma {:induction false} MacroEvidenceFrom4(id: string)
    requires SpellsMacroSample(id)
    ensures Gather(Ascii, id, 4, 13, PassState(Evidence(true, false, false, false, false, false, false, false, false), false, false)) == Evidence(true, false, false, false, true, true, false, true, false)
  {
    MacroEvidenceFrom7(id);
    LetterIsWordChar(id[6]);
    GatherStep(Ascii, id, 6, 13, PassState(Evidence(true, false, false, false, true, true, false, false, false), false, true), PassState(Evidence(true, false, false, false, true, true, false, true, false), false, false), Evidence(true, false, false, false, true, true, false, true, false));
    LetterIsWordChar(id[5]);
    GatherStep(Ascii, id, 5, 13, PassState(Evidence(true, false, false, false, true, false, false, false, false), true, false), PassState(Evidence(true, false, false, false, true, true, false, false, false), false, true), Evidence(true, false, false, false, true, true, false, true, false));
    SeparatorIsDecoration(id[4]);
    GatherStep(Ascii, id, 4, 13, PassState(Evidence(true, false, false, false, false, false, false, false, false), false, false), PassState(Evidence(true, false, false, false, true, false, false, false, false), true, false), Evidence(true, false, false, false, true, true, false, true, false));
  }

  lemma {:induction false} MacroEvidenceFrom1(id: string)
    requires SpellsMacroSample(id)
    ensures Gather(Ascii, id, 1, 13, InitialPass) == Evidence(true, false, false, false, true, true, false, true, false)
  {
    MacroEvidenceFrom4(id);
    LetterIsWordChar(id[3]);
    GatherStep(Ascii, id, 3, 13, PassState(Evidence(true, false, false, false, false, false, false, false, false), false, false), PassState(Evidence(true, false, false, false, false, false, false, false, false), false, false), Evidence(true, false, false, false, true, true, false, true, false));
    LetterIsWordChar(id[2]);
    GatherStep(Ascii, id, 2, 13, PassState(Evidence(true, false, false, false, false, false, false, false, false), false, false), PassState(Evidence(true, false, false, false, false, false, false, false, false), false, false), Evidence(true, false, false, false, true, true, false, true, false));
    LetterIsWordChar(id[1]);
    GatherStep(Ascii, id, 1, 13, InitialPass, PassState(Evidence(true, false, false, false, false, false, false, false, false), false, false), Evidence(true, false, false, false, true, true, false, true, false));
  }

  /** The evidence the detection pass gathers from "THIS_IS_A_TEST". */
  lemma {:induction false} MacroSampleEvidence(id: string)
    requires SpellsMacroSample(id)
    ensures Gather(Ascii, id, 1, 13, InitialPass) == Evidence(true, false, false, false, true, true, false, true, false)
  {
    MacroEvidenceFrom1(id);
  }

  /** "THIS_IS_A_TEST" is detected as Macro case. */
  lemma {:induction false} DetectMacroSample()
    ensures DetectIdentifierCasing(Ascii, Some(MacroSample)) == Success(Macro)
  {
    MacroSampleSpelled();
    DetectMacroSpelled(MacroSample);
  }

  lemma {:induction false} DetectMacroSpelled(id: string)
    requires SpellsMacroSample(id)
    ensures DetectIdentifierCasing(Ascii, Some(id)) == Success(Macro)
  {
    LetterIsWordChar(id[0]);
    LetterIsWordChar(id[13]);
    MacroSampleEvidence(id);
    DetectFromParts(Ascii, id, 0, 13, Evidence(true, false, false, false, true, true, false, true, false));
  }

  /** id spells "This-Is-A-Test", stated character by character. */
  predicate SpellsTrainSample(id: string) {
    |id| == 14 && id[0] == 'T' && id[1] == 'h' && id[2] == 'i' && id[3] == 's' && id[4] == '-' && id[5] == 'I' && id[6] == 's' && id[7] == '-' && id[8] == 'A' && id[9] == '-' && id[10] == 'T' && id[11] == 'e' && id[12] == 's' && id[13] == 't'
  }

  lemma {:induction false} TrainSampleSpelled()
    ensures SpellsTrainSample(TrainSample)
  {
  }

  lemma {:induction false} TrainEvidenceFrom10(id: string)
    requires SpellsTrainSample(id)
    ensures Gather(Ascii, id, 10, 13, PassState(Evidence(true, true, true, false, false, true, false, false, true), true, false)) == Evidence(true, true, true, false, false, true, false, false, true)
  {
    LetterIsWordChar(id[12]);
    GatherStep(Ascii, id, 12, 13, PassState(Evidence(true, true, true, false, false, true, false, false, true), false, false), PassState(Evidence(true, true, true, false, false, true, false, false, true), false, false), Evidence(true, true, true, false, false, true, false, false, true));
    LetterIsWordChar(id[11]);
    GatherStep(Ascii, id, 11, 13, PassState(Evidence(true, true, true, false, false, true, false, false, true), false, true), PassState(Evidence(true, true, true, false, false, true, false, false, true), false, false), Evidence(true, true, true, false, false, true, false, false, true));
    LetterIsWordChar(id[10]);
    GatherStep(Ascii, id, 10, 13, PassState(Evidence(true, true, true, false, false, true, false, false, true), true, false), PassState(Evidence(true, true, true, false, false, true, false, false, true), false, true), Evidence(true, true, true, false, false, true, false, false, true));
  }

  lemma {:induction false} TrainEvidenceFrom7(id: string)
    requires SpellsTrainSample(id)
    ensures Gather(Ascii, id, 7, 13, PassState(Evidence(true, true, true, false, false, true, false, false, true), false, false)) == Evidence(true, true, true, false, false, true, false, false, true)
  {
    TrainEvidenceFrom10(id);
    SeparatorIsDecoration(id[9]);
    GatherStep(Ascii, id, 9, 13, PassState(Evidence(true, true, true, false, false, true, false, false, true), false, true), PassState(Evidence(true, true, true, false, false, true, false, false, true), true, false), Evidence(true, true, true, false, false, true, false, false, true));
    LetterIsWordChar(id[8]);
    GatherStep(Ascii, id, 8, 13, PassState(Evidence(true, true, true, false, false, true, false, false, true), true, false), PassState(Evidence(true, true, true, false, false, true, false, false, true), false, true), Evidence(true, true, true, false, false, true, false, false, true));
    SeparatorIsDecoration(id[7]);
    GatherStep(Ascii, id, 7, 13, PassState(Evidence(true, true, true, false, false, true, false, false, true), false, false), PassState(Evidence(true, true, true, false, false, true, false, false, true), true, false), Evidence(true, true, true, false, false, true, false, false, true));
  }

  lemma {:induction false} TrainEvidenceFrom4(id: string)
    requires SpellsTrainSample(id)
    ensures Gather(Ascii, id, 4, 13, PassState(Evidence(false, true, false, false, false, false, false, false, false), false, false)) == Evidence(true, true, true, false, false, true, false, false, true)
  {
    TrainEvidenceFrom7(id);
    LetterIsWordChar(id[6]);
    GatherStep(Ascii, id, 6, 13, PassState(Evidence(true, true, true, false, false, true, false, false, false), false, true), PassState(Evidence(true, true, true, false, false, true, false, false, true), false, false), Evidence(true, true, true, false, false, true, false, false, true));
    LetterIsWordChar(id[5]);
    GatherStep(Ascii, id, 5, 13, PassState(Evidence(false, true, true, false, false, false, false, false, false), true, false), PassState(Evidence(true, true, true, false, false, true, false, false, false), false, true), Evidence(true, true, true, false, false, true, false, false, true));
    SeparatorIsDecoration(id[4]);
    GatherStep(Ascii, id, 4, 13, PassState(Evidence(false, true, false, false, false, false, false, false, false), false, false), PassState(Evidence(false, true, true, false, false, false, false, false, false), true, false), Evidence(true, true, true, false, false, true, false, false, true));
  }

  lemma {:induction false} TrainEvidenceFrom1(id: string)
    requires SpellsTrainSample(id)
    ensures Gather(Ascii, id, 1, 13, InitialPass) == Evidence(true, true, true, false, false, true, false, false, true)
  {
    TrainEvidenceFrom4(id);
    LetterIsWordChar(id[3]);
    GatherStep(Ascii, id, 3, 13, PassState(Evidence(false, true, false, false, false, false, false, false, false), false, false), PassState(Evidence(false, true, false, false, false, false, false, false, false), false, false), Evidence(true, true, true, false, false, true, false, false, true));
    LetterIsWordChar(id[2]);
    GatherStep(Ascii, id, 2, 13, PassState(Evidence(false, true, false, false, false, false, false, false, false), false, false), PassState(Evidence(false, true, false, false, false, false, false, false, false), false, false), Evidence(true, true, true, false, false, true, false, false, true));
    LetterIsWordChar(id[1]);
    GatherStep(Ascii, id, 1, 13, InitialPass, PassState(Evidence(false, true, false, false, false, false, false, false, false), false, false), Evidence(true, true, true, false, false, true, false, false, true));
  }

  /** The evidence the detection pass gathers from "This-Is-A-Test". */
  lemma {:induction false} TrainSampleEvidence(id: string)
    requires SpellsTrainSample(id)
    ensures Gather(Ascii, id, 1, 13, InitialPass) == Evidence(true, true, true, false, false, true, false, false, true)
  {
    TrainEvidenceFrom1(id);
  }

  /** "This-Is-A-Test" is detected as Train case. */
  lemma {:induction false} DetectTrainSample()
    ensures DetectIdentifierCasing(Ascii, Some(TrainSample)) == Success(Train)
  {
    TrainSampleSpelled();
    DetectTrainSpelled(TrainSample);
  }

  lemma {:induction false} DetectTrainSpelled(id: string)
    requires SpellsTrainSample(id)
    ensures DetectIdentifierCasing(Ascii, Some(id)) == Success(Train)
  {
    LetterIsWordChar(id[0]);
    LetterIsWordChar(id[13]);
    TrainSampleEvidence(id);
    DetectFromParts(Ascii, id, 0, 13, Evidence(true, true, true, false, false, true, false, false, true));
  }

  /** id spells "This Is A Test", stated character by character. */
  predicate SpellsSpreadsheetSample(id: string) {
    |id| == 14 && id[0] == 'T' && id[1] == 'h' && id[2] == 'i' && id[3] == 's' && id[4] == ' ' && id[5] == 'I' && id[6] == 's' && id[7] == ' ' && id[8] == 'A' && id[9] == ' ' && id[10] == 'T' && id[11] == 'e' && id[12] == 's' && id[13] == 't'
  }

  lemma {:induction false} SpreadsheetSampleSpelled()
    ensures SpellsSpreadsheetSample(SpreadsheetSample)
  {
  }

  lemma {:induction false} SpreadsheetEvidenceFrom10(id: string)
    requires SpellsSpreadsheetSample(id)
    ensures Gather(Ascii, id, 10, 13, PassState(Evidence(true, true, false, true, false, true, false, false, true), true, false)) == Evidence(true, true, false, true, false, true, false, false, true)
  {
    LetterIsWordChar(id[12]);
    GatherStep(Ascii, id, 12, 13, PassState(Evidence(true, true, false, true, false, true, false, false, true), false, false), PassState(Evidence(true, true, false, true, false, true, false, false, true), false, false), Evidence(true, true, false, true, false, true, false, false, true));
    LetterIsWordChar(id[11]);
    GatherStep(Ascii, id, 11, 13, PassState(Evidence(true, true, false, true, false, true, false, false, true), false, true), PassState(Evidence(true, true, false, true, false, true, false, false, true), false, false), Evidence(true, true, false, true, false, true, false, false, true));
    LetterIsWordChar(id[10]);
    GatherStep(Ascii, id, 10, 13, PassState(Evidence(true, true, false, true, false, true, false, false, true), true, false), PassState(Evidence(true, true, false, true, false, true, false, false, true), false, true), Evidence(true, true, false, true, false, true, false, false, true));
  }

  lemma {:induction false} SpreadsheetEvidenceFrom7(id: string)
    requires SpellsSpreadsheetSample(id)
    ensures Gather(Ascii, id, 7, 13, PassState(Evidence(true, true, false, true, false, true, false, false, true), false, false)) == Evidence(true, true, false, true, false, true, false, false, true)
  {
    SpreadsheetEvidenceFrom10(id);
    SeparatorIsDecoration(id[9]);
    GatherStep(Ascii, id, 9, 13, PassState(Evidence(true, true, false, true, false, true, false, false, true), false, true), PassState(Evidence(true, true, false, true, false, true, false, false, true), true, false), Evidence(true, true, false, true, false, true, false, false, true));
    LetterIsWordChar(id[8]);
    GatherStep(Ascii, id, 8, 13, PassState(Evidence(true, true, false, true, false, true, false, false, true), true, false), PassState(Evidence(true, true, false, true, false, true, false, false, true), false, true), Evidence(true, true, false, true, false, true, false, false, true));
    SeparatorIsDecoration(id[7]);
    GatherStep(Ascii, id, 7, 13, PassState(Evidence(true, true, false, true, false, true, false, false, true), false, false), PassState(Evidence(true, true, false, true, false, true, false, false, true), true, false), Evidence(true, true, false, true, false, true, false, false, true));
  }

  lemma {:induction false} SpreadsheetEvidenceFrom4(id: string)
    requires SpellsSpreadsheetSample(id)
    ensures Gather(Ascii, id, 4, 13, PassState(Evidence(false, true, false, false, false, false, false, false, false), false, false)) == Evidence(true, true, false, true, false, true, false, false, true)
  {
    SpreadsheetEvidenceFrom7(id);
    LetterIsWordChar(id[6]);
    GatherStep(Ascii, id, 6, 13, PassState(Evidence(true, true, false, true, false, true, false, false, false), false, true), PassState(Evidence(true, true, false, true, false, true, false, false, true), false, false), Evidence(true, true, false, true, false, true, false, false, true));
    LetterIsWordChar(id[5]);
    GatherStep(Ascii, id, 5, 13, PassState(Evidence(false, true, false, true, false, false, false, false, false), true, false), PassState(Evidence(true, true, false, true, false, true, false, false, false), false, true), Evidence(true, true, false, true, false, true, false, false, true));
    SeparatorIsDecoration(id[4]);
    GatherStep(Ascii, id, 4, 13, PassState(Evidence(false, true, false, false, false, false, false, false, false), false, false), PassState(Evidence(false, true, false, true, false, false, false, false, false), true, false), Evidence(true, true, false, true, false, true, false, false, true));
  }

  lemma {:induction false} SpreadsheetEvidenceFrom1(id: string)
    requires SpellsSpreadsheetSample(id)
    ensures Gather(Ascii, id, 1, 13, InitialPass) == Evidence(true, true, false, true, false, true, false, false, true)
  {
    SpreadsheetEvidenceFrom4(id);
    LetterIsWordChar(id[3]);
    GatherStep(Ascii, id, 3, 13, PassState(Evidence(false, true, false, false, false, false, false, false, false), false, false), PassState(Evidence(false, true, false, false, false, false, false, false, false), false, false), Evidence(true, true, false, true, false, true, false, false, true));
    LetterIsWordChar(id[2]);
    GatherStep(Ascii, id, 2, 13, PassState(Evidence(false, true, false, false, false, false, false, false, false), false, false), PassState(Evidence(false, true, false, false, false, false, false, false, false), false, false), Evidence(true, true, false, true, false, true, false, false, true));
    LetterIsWordChar(id[1]);
    GatherStep(Ascii, id, 1, 13, InitialPass, PassState(Evidence(false, true, false, false, false, false, false, false, false), false, false), Evidence(true, true, false, true, false, true, false, false, true));
  }

  /** The evidence the detection pass gathers from "This Is A Test". */
  lemma {:induction false} SpreadsheetSampleEvidence(id: string)
    requires SpellsSpreadsheetSample(id)
    ensures Gather(Ascii, id, 1, 13, InitialPass) == Evidence(true, true, false, true, false, true, false, false, true)
  {
    SpreadsheetEvidenceFrom1(id);
  }

  /** "This Is A Test" is detected as Spreadsheet case. */
  lemma {:induction false} DetectSpreadsheetSample()
    ensures DetectIdentifierCasing(Ascii, Some(SpreadsheetSample)) == Success(Spreadsheet)
  {
    SpreadsheetSampleSpelled();
    DetectSpreadsheetSpelled(SpreadsheetSample);
  }

  lemma {:induction false} DetectSpreadsheetSpelled(id: string)
    requires SpellsSpreadsheetSample(id)
    ensures DetectIdentifierCasing(Ascii, Some(id)) == Success(Spreadsheet)
  {
    LetterIsWordChar(id[0]);
    LetterIsWordChar(id[13]);
    SpreadsheetSampleEvidence(id);
    DetectFromParts(Ascii, id, 0, 13, Evidence(true, true, false, true, false, true, false, false, true));
  }

  /** id spells "this-Is_aTest", stated character by character. */
  predicate SpellsMixedSample(id: string) {
    |id| == 13 && id[0] == 't' && id[1] == 'h' && id[2] == 'i' && id[3] == 's' && id[4] == '-' && id[5] == 'I' && id[6] == 's' && id[7] == '_' && id[8] == 'a' && id[9] == 'T' && id[10] == 'e' && id[11] == 's' && id[12] == 't'
  }

  lemma {:induction false} MixedSampleSpelled()
    ensures SpellsMixedSample(MixedSample)
  {
  }

  lemma {:induction false} MixedEvidenceFrom9(id: string)
    requires SpellsMixedSample(id)
    ensures Gather(Ascii, id, 9, 12, PassState(Evidence(true, true, true, false, true, true, true, false, true), false, true)) == Evidence(true, true, true, false, true, true, true, true, true)
  {
    LetterIsWordChar(id[11]);
    GatherStep(Ascii, id, 11, 12, PassState(Evidence(true, true, true, false, true, true, true, true, true), false, false), PassState(Evidence(true, true, true, false, true, true, true, true, true), false, false), Evidence(true, true, true, false, true, true, true, true, true));
    LetterIsWordChar(id[10]);
    GatherStep(Ascii, id, 10, 12, PassState(Evidence(true, true, true, false, true, true, true, true, true), false, false), PassState(Evidence(true, true, true, false, true, true, true, true, true), false, false), Evidence(true, true, true, false, true, true, true, true, true));
    LetterIsWordChar(id[9]);
    GatherStep(Ascii, id, 9, 12, PassState(Evidence(true, true, true, false, true, true, true, false, true), false, true), PassState(Evidence(true, true, true, false, true, true, true, true, true), false, false), Evidence(true, true, true, false, true, true, true, true, true));
  }

  lemma {:induction false} MixedEvidenceFrom6(id: string)
    requires SpellsMixedSample(id)
    ensures Gather(Ascii, id, 6, 12, PassState(Evidence(true, true, true, false, false, true, false, false, false), false, true)) == Evidence(true, true, true, false, true, true, true, true, true)
  {
    MixedEvidenceFrom9(id);
    LetterIsWordChar(id[8]);
    GatherStep(Ascii, id, 8, 12, PassState(Evidence(true, true, true, false, true, true, false, false, true), true, false), PassState(Evidence(true, true, true, false, true, true, true, false, true), false, true), Evidence(true, true, true, false, true, true, true, true, true));
    SeparatorIsDecoration(id[7]);
    GatherStep(Ascii, id, 7, 12, PassState(Evidence(true, true, true, false, false, true, false, false, true), false, false), PassState(Evidence(true, true, true, false, true, true, false, false, true), true, false), Evidence(true, true, true, false, true, true, true, true, true));
    LetterIsWordChar(id[6]);
    GatherStep(Ascii, id, 6, 12, PassState(Evidence(true, true, true, false, false, true, false, false, false), false, true), PassState(Evidence(true, true, true, false, false, true, false, false, true), false, false), Evidence(true, true, true, false, true, true, true, true, true));
  }

  lemma {:induction false} MixedEvidenceFrom3(id: string)
    requires SpellsMixedSample(id)
    ensures Gather(Ascii, id, 3, 12, PassState(Evidence(false, true, false, false, false, false, false, false, false), false, false)) == Evidence(true, true, true, false, true, true, true, true, true)
  {
    MixedEvidenceFrom6(id);
    LetterIsWordChar(id[5]);
    GatherStep(Ascii, id, 5, 12, PassState(Evidence(false, true, true, false, false, false, false, false, false), true, false), PassState(Evidence(true, true, true, false, false, true, false, false, false), false, true), Evidence(true, true, true, false, true, true, true, true, true));
    SeparatorIsDecoration(id[4]);
    GatherStep(Ascii, id, 4, 12, PassState(Evidence(false, true, false, false, false, false, false, false, false), false, false), PassState(Evidence(false, true, true, false, false, false, false, false, false), true, false), Evidence(true, true, true, false, true, true, true, true, true));
    LetterIsWordChar(id[3]);
    GatherStep(Ascii, id, 3, 12, PassState(Evidence(false, true, false, false, false, false, false, false, false), false, false), PassState(Evidence(false, true, false, false, false, false, false, false, false), false, false), Evidence(true, true, true, false, true, true, true, true, true));
  }

  lemma {:induction false} MixedEvidenceFrom1(id: string)
    requires SpellsMixedSample(id)
    ensures Gather(Ascii, id, 1, 12, InitialPass) == Evidence(true, true, true, false, true, true, true, true, true)
  {
    MixedEvidenceFrom3(id);
    LetterIsWordChar(id[2]);
    GatherStep(Ascii, id, 2, 12, PassState(Evidence(false, true, false, false, false, false, false, false, false), false, false), PassState(Evidence(false, true, false, false, false, false, false, false, false), false, false), Evidence(true, true, true, false, true, true, true, true, true));
    LetterIsWordChar(id[1]);
    GatherStep(Ascii, id, 1, 12, InitialPass, PassState(Evidence(false, true, false, false, false, false, false, false, false), false, false), Evidence(true, true, true, false, true, true, true, true, true));
  }

  /** The evidence the detection pass gathers from "this-Is_aTest". */
  lemma {:induction false} MixedSampleEvidence(id: string)
    requires SpellsMixedSample(id)
    ensures Gather(Ascii, id, 1, 12, InitialPass) == Evidence(true, true, true, false, true, true, true, true, true)
  {
    MixedEvidenceFrom1(id);
  }

  /** "this-Is_aTest" is detected as the indeterminate style. */
  lemma {:induction false} DetectMixedSample()
    ensures DetectIdentifierCasing(Ascii, Some(MixedSample)) == Success(Mixed)
  {
    MixedSampleSpelled();
    DetectMixedSpelled(MixedSample);
  }

  lemma {:induction false} DetectMixedSpelled(id: string)
    requires SpellsMixedSample(id)
    ensures DetectIdentifierCasing(Ascii, Some(id)) == Success(Mixed)
  {
    LetterIsWordChar(id[0]);
    LetterIsWordChar(id[12]);
    MixedSampleEvidence(id);
    DetectFromParts(Ascii, id, 0, 12, Evidence(true, true, true, false, true, true, true, true, true));
  }

  /** Writing to an empty sink, once the writer's rest is known. */
  lemma {:induction false} WriteFromRest(cc: Classifier, desired: Style, id: string, rest: string)
    requires id != ""
    requires desired != Pascal && desired != Mixed
    requires WriteRest(cc, desired, id, 1) == rest
    ensures WriteCasedIdentifier(cc, Some(""), desired, id) == Success([Recase(cc, desired.firstCharUpper, id[0])] + rest)
  {
    var first := [Recase(cc, desired.firstCharUpper, id[0])];
    assert "" + first + rest == first + rest;
  }

  /** One character of the writer, writing the piece of p at j. */
  lemma {:induction false} WriteStep(cc: Classifier, desired: Style, id: string, offset: nat, p: string, j: nat, written: string, k: nat)
    requires offset < |id|
    requires written == WriteChar(cc, desired, id[offset])
    requires j + |written| == k <= |p| && p[j..k] == written
    requires WriteRest(cc, desired, id, offset + 1) == p[k..]
    ensures WriteRest(cc, desired, id, offset) == p[j..]
  {
    assert p[j..] == written + p[k..];
  }

  lemma {:induction false} WriteCamelFrom10(id: string, p: string)
    requires SpellsPascalSample(id)
    requires SpellsCamelSample(p)
    ensures WriteRest(Ascii, Camel, id, 10) == p[10..]
  {
    WriteStep(Ascii, Camel, id, 10, p, 10, "t", 11);
  }

  lemma {:induction false} WriteCamelFrom9(id: string, p: string)
    requires SpellsPascalSample(id)
    requires SpellsCamelSample(p)
    ensures WriteRest(Ascii, Camel, id, 9) == p[9..]
  {
    WriteCamelFrom10(id, p);
    WriteStep(Ascii, Camel, id, 9, p, 9, "s", 10);
  }

  lemma {:induction false} WriteCamelFrom8(id: string, p: string)
    requires SpellsPascalSample(id)
    requires SpellsCamelSample(p)
    ensures WriteRest(Ascii, Camel, id, 8) == p[8..]
  {
    WriteCamelFrom9(id, p);
    WriteStep(Ascii, Camel, id, 8, p, 8, "e", 9);
  }

  lemma {:induction false} WriteCamelFrom7(id: string, p: string)
    requires SpellsPascalSample(id)
    requires SpellsCamelSample(p)
    ensures WriteRest(Ascii, Camel, id, 7) == p[7..]
  {
    WriteCamelFrom8(id, p);
    WriteStep(Ascii, Camel, id, 7, p, 7, "T", 8);
  }

  lemma {:induction false} WriteCamelFrom6(id: string, p: string)
    requires SpellsPascalSample(id)
    requires SpellsCamelSample(p)
    ensures WriteRest(Ascii, Camel, id, 6) == p[6..]
  {
    WriteCamelFrom7(id, p);
    WriteStep(Ascii, Camel, id, 6, p, 6, "A", 7);
  }

  lemma {:induction false} WriteCamelFrom5(id: string, p: string)
    requires SpellsPascalSample(id)
    requires SpellsCamelSample(p)
    ensures WriteRest(Ascii, Camel, id, 5) == p[5..]
  {
    WriteCamelFrom6(id, p);
    WriteStep(Ascii, Camel, id, 5, p, 5, "s", 6);
  }

  lemma {:induction false} WriteCamelFrom4(id: string, p: string)
    requires SpellsPascalSample(id)
    requires SpellsCamelSample(p)
    ensures WriteRest(Ascii, Camel, id, 4) == p[4..]
  {
    WriteCamelFrom5(id, p);
    WriteStep(Ascii, Camel, id, 4, p, 4, "I", 5);
  }

  lemma {:induction false} WriteCamelFrom3(id: string, p: string)
    requires SpellsPascalSample(id)
    requires SpellsCamelSample(p)
    ensures WriteRest(Ascii, Camel, id, 3) == p[3..]
  {
    WriteCamelFrom4(id, p);
    WriteStep(Ascii, Camel, id, 3, p, 3, "s", 4);
  }

  lemma {:induction false} WriteCamelFrom2(id: string, p: string)
    requires SpellsPascalSample(id)
    requires SpellsCamelSample(p)
    ensures WriteRest(Ascii, Camel, id, 2) == p[2..]
  {
    WriteCamelFrom3(id, p);
    WriteStep(Ascii, Camel, id, 2, p, 2, "i", 3);
  }

  lemma {:induction false} WriteCamelFrom1(id: string, p: string)
    requires SpellsPascalSample(id)
    requires SpellsCamelSample(p)
    ensures WriteRest(Ascii, Camel, id, 1) == p[1..]
  {
    WriteCamelFrom2(id, p);
    WriteStep(Ascii, Camel, id, 1, p, 1, "h", 2);
  }

  /** Writing "ThisIsATest" in Camel case gives "thisIsATest". */
  lemma {:induction false} WriteCamelSample()
    ensures WriteCasedIdentifier(Ascii, Some(""), Camel, PascalSample) == Success(CamelSample)
  {
    PascalSampleSpelled();
    CamelSampleSpelled();
    WriteCamelFrom1(PascalSample, CamelSample);
    WriteFromRest(Ascii, Camel, PascalSample, CamelSample[1..]);
    assert Recase(Ascii, Camel.firstCharUpper, PascalSample[0]) == 't';
    assert ['t'] + CamelSample[1..] == CamelSample;
  }

  lemma {:induction false} WriteKebabFrom10(id: string, p: string)
    requires SpellsPascalSample(id)
    requires SpellsKebabSample(p)
    ensures WriteRest(Ascii, Kebab, id, 10) == p[13..]
  {
    WriteStep(Ascii, Kebab, id, 10, p, 13, "t", 14);
  }

  lemma {:induction false} WriteKebabFrom9(id: string, p: string)
    requires SpellsPascalSample(id)
    requires SpellsKebabSample(p)
    ensures WriteRest(Ascii, Kebab, id, 9) == p[12..]
  {
    WriteKebabFrom10(id, p);
    WriteStep(Ascii, Kebab, id, 9, p, 12, "s", 13);
  }

  lemma {:induction false} WriteKebabFrom8(id: string, p: string)
    requires SpellsPascalSample(id)
    requires SpellsKebabSample(p)
    ensures WriteRest(Ascii, Kebab, id, 8) == p[11..]
  {
    WriteKebabFrom9(id, p);
    WriteStep(Ascii, Kebab, id, 8, p, 11, "e", 12);
  }

  lemma {:induction false} WriteKebabFrom7(id: string, p: string)
    requires SpellsPascalSample(id)
    requires SpellsKebabSample(p)
    ensures WriteRest(Ascii, Kebab, id, 7) == p[9..]
  {
    WriteKebabFrom8(id, p);
    WriteStep(Ascii, Kebab, id, 7, p, 9, "-t", 11);
  }

  lemma {:induction false} WriteKebabFrom6(id: string, p: string)
    requires SpellsPascalSample(id)
    requires SpellsKebabSample(p)
    ensures WriteRest(Ascii, Kebab, id, 6) == p[7..]
  {
    WriteKebabFrom7(id, p);
    WriteStep(Ascii, Kebab, id, 6, p, 7, "-a", 9);
  }

  lemma {:induction false} WriteKebabFrom5(id: string, p: string)
    requires SpellsPascalSample(id)
    requires SpellsKebabSample(p)
    ensures WriteRest(Ascii, Kebab, id, 5) == p[6..]
  {
    WriteKebabFrom6(id, p);
    WriteStep(Ascii, Kebab, id, 5, p, 6, "s", 7);
  }

  lemma {:induction false} WriteKebabFrom4(id: string, p: string)
    requires SpellsPascalSample(id)
    requires SpellsKebabSample(p)
    ensures WriteRest(Ascii, Kebab, id, 4) == p[4..]
  {
    WriteKebabFrom5(id, p);
    WriteStep(Ascii, Kebab, id, 4, p, 4, "-i", 6);
  }

  lemma {:induction false} WriteKebabFrom3(id: string, p: string)
    requires SpellsPascalSample(id)
    requires SpellsKebabSample(p)
    ensures WriteRest(Ascii, Kebab, id, 3) == p[3..]
  {
    WriteKebabFrom4(id, p);
    WriteStep(Ascii, Kebab, id, 3, p, 3, "s", 4);
  }

  lemma {:induction false} WriteKebabFrom2(id: string, p: string)
    requires SpellsPascalSample(id)
    requires SpellsKebabSample(p)
    ensures WriteRest(Ascii, Kebab, id, 2) == p[2..]
  {
    WriteKebabFrom3(id, p);
    WriteStep(Ascii, Kebab, id, 2, p, 2, "i", 3);
  }

  lemma {:induction false} WriteKebabFrom1(id: string, p: string)
    requires SpellsPascalSample(id)
    requires SpellsKebabSample(p)
    ensures WriteRest(Ascii, Kebab, id, 1) == p[1..]
  {
    WriteKebabFrom2(id, p);
    WriteStep(Ascii, Kebab, id, 1, p, 1, "h", 2);
  }

  /** Writing "ThisIsATest" in Kebab case gives "this-is-a-test". */
  lemma {:induction false} WriteKebabSample()
    ensures WriteCasedIdentifier(Ascii, Some(""), Kebab, PascalSample) == Success(KebabSample)
  {
    PascalSampleSpelled();
    KebabSampleSpelled();
    WriteKebabFrom1(PascalSample, KebabSample);
    WriteFromRest(Ascii, Kebab, PascalSample, KebabSample[1..]);
    assert Recase(Ascii, Kebab.firstCharUpper, PascalSample[0]) == 't';
    assert ['t'] + KebabSample[1..] == KebabSample;
  }

  lemma {:induction false} WriteSnakeFrom10(id: string, p: string)
    requires SpellsPascalSample(id)
    requires SpellsSnakeSample(p)
    ensures WriteRest(Ascii, Snake, id, 10) == p[13..]
  {
    WriteStep(Ascii, Snake, id, 10, p, 13, "t", 14);
  }

  lemma {:induction false} WriteSnakeFrom9(id: string, p: string)
    requires SpellsPascalSample(id)
    requires SpellsSnakeSample(p)
    ensures WriteRest(Ascii, Snake, id, 9) == p[12..]
  {
    WriteSnakeFrom10(id, p);
    WriteStep(Ascii, Snake, id, 9, p, 12, "s", 13);
  }

  lemma {:induction false} WriteSnakeFrom8(id: string, p: string)
    requires SpellsPascalSample(id)
    requires SpellsSnakeSample(p)
    ensures WriteRest(Ascii, Snake, id, 8) == p[11..]
  {
    WriteSnakeFrom9(id, p);
    WriteStep(Ascii, Snake, id, 8, p, 11, "e", 12);
  }

  lemma {:induction false} WriteSnakeFrom7(id: string, p: string)
    requires SpellsPascalSample(id)
    requires SpellsSnakeSample(p)
    ensures WriteRest(Ascii, Snake, id, 7) == p[9..]
  {
    WriteSnakeFrom8(id, p);
    WriteStep(Ascii, Snake, id, 7, p, 9, "_t", 11);
  }

  lemma {:induction false} WriteSnakeFrom6(id: string, p: string)
    requires SpellsPascalSample(id)
    requires SpellsSnakeSample(p)
    ensures WriteRest(Ascii, Snake, id, 6) == p[7..]
  {
    WriteSnakeFrom7(id, p);
    WriteStep(Ascii, Snake, id, 6, p, 7, "_a", 9);
  }

  lemma {:induction false} WriteSnakeFrom5(id: string, p: string)
    requires SpellsPascalSample(id)
    requires SpellsSnakeSample(p)
    ensures WriteRest(Ascii, Snake, id, 5) == p[6..]
  {
    WriteSnakeFrom6(id, p);
    WriteStep(Ascii, Snake, id, 5, p, 6, "s", 7);
  }

  lemma {:induction false} WriteSnakeFrom4(id: string, p: string)
    requires SpellsPascalSample(id)
    requires SpellsSnakeSample(p)
    ensures WriteRest(Ascii, Snake, id, 4) == p[4..]
  {
    WriteSnakeFrom5(id, p);
    WriteStep(Ascii, Snake, id, 4, p, 4, "_i", 6);
  }

  lemma {:induction false} WriteSnakeFrom3(id: string, p: string)
    requires SpellsPascalSample(id)
    requires SpellsSnakeSample(p)
    ensures WriteRest(Ascii, Snake, id, 3) == p[3..]
  {
    WriteSnakeFrom4(id, p);
    WriteStep(Ascii, Snake, id, 3, p, 3, "s", 4);
  }

  lemma {:induction false} WriteSnakeFrom2(id: string, p: string)
    requires SpellsPascalSample(id)
    requires SpellsSnakeSample(p)
    ensures WriteRest(Ascii, Snake, id, 2) == p[2..]
  {
    WriteSnakeFrom3(id, p);
    WriteStep(Ascii, Snake, id, 2, p, 2, "i", 3);
  }

  lemma {:induction false} WriteSnakeFrom1(id: string, p: string)
    requires SpellsPascalSample(id)
    requires SpellsSnakeSample(p)
    ensures WriteRest(Ascii, Snake, id, 1) == p[1..]
  {
    WriteSnakeFrom2(id, p);
    WriteStep(Ascii, Snake, id, 1, p, 1, "h", 2);
  }

  /** Writing "ThisIsATest" in Snake case gives "this_is_a_test". */
  lemma {:induction false} WriteSnakeSample()
    ensures WriteCasedIdentifier(Ascii, Some(""), Snake, PascalSample) == Success(SnakeSample)
  {
    PascalSampleSpelled();
    SnakeSampleSpelled();
    WriteSnakeFrom1(PascalSample, SnakeSample);
    WriteFromRest(Ascii, Snake, PascalSample, SnakeSample[1..]);
    assert Recase(Ascii, Snake.firstCharUpper, PascalSample[0]) == 't';
    assert ['t'] + SnakeSample[1..] == SnakeSample;
  }

  lemma {:induction false} WriteCobolFrom10(id: string, p: string)
    requires SpellsPascalSample(id)
    requires SpellsCobolSample(p)
    ensures WriteRest(Ascii, Cobol, id, 10) == p[13..]
  {
    WriteStep(Ascii, Cobol, id, 10, p, 13, "T", 14);
  }

  lemma {:induction false} WriteCobolFrom9(id: string, p: string)
    requires SpellsPascalSample(id)
    requires SpellsCobolSample(p)
    ensures WriteRest(Ascii, Cobol, id, 9) == p[12..]
  {
    WriteCobolFrom10(id, p);
    WriteStep(Ascii, Cobol, id, 9, p, 12, "S", 13);
  }

  lemma {:induction false} WriteCobolFrom8(id: string, p: string)
    requires SpellsPascalSample(id)
    requires SpellsCobolSample(p)
    ensures WriteRest(Ascii, Cobol, id, 8) == p[11..]
  {
    WriteCobolFrom9(id, p);
    WriteStep(Ascii, Cobol, id, 8, p, 11, "E", 12);
  }

  lemma {:induction false} WriteCobolFrom7(id: string, p: string)
    requires SpellsPascalSample(id)
    requires SpellsCobolSample(p)
    ensures WriteRest(Ascii, Cobol, id, 7) == p[9..]
  {
    WriteCobolFrom8(id, p);
    WriteStep(Ascii, Cobol, id, 7, p, 9, "-T", 11);
  }

  lemma {:induction false} WriteCobolFrom6(id: string, p: string)
    requires SpellsPascalSample(id)
    requires SpellsCobolSample(p)
    ensures WriteRest(Ascii, Cobol, id, 6) == p[7..]
  {
    WriteCobolFrom7(id, p);
    WriteStep(Ascii, Cobol, id, 6, p, 7, "-A", 9);
  }

  lemma {:induction false} WriteCobolFrom5(id: string, p: string)
    requires SpellsPascalSample(id)
    requires SpellsCobolSample(p)
    ensures WriteRest(Ascii, Cobol, id, 5) == p[6..]
  {
    WriteCobolFrom6(id, p);
    WriteStep(Ascii, Cobol, id, 5, p, 6, "S", 7);
  }

  lemma {:induction false} WriteCobolFrom4(id: string, p: string)
    requires SpellsPascalSample(id)
    requires SpellsCobolSample(p)
    ensures WriteRest(Ascii, Cobol, id, 4) == p[4..]
  {
    WriteCobolFrom5(id, p);
    WriteStep(Ascii, Cobol, id, 4, p, 4, "-I", 6);
  }

  lemma {:induction false} WriteCobolFrom3(id: string, p: string)
    requires SpellsPascalSample(id)
    requires SpellsCobolSample(p)
    ensures WriteRest(Ascii, Cobol, id, 3) == p[3..]
  {
    WriteCobolFrom4(id, p);
    WriteStep(Ascii, Cobol, id, 3, p, 3, "S", 4);
  }

  lemma {:induction false} WriteCobolFrom2(id: string, p: string)
    requires SpellsPascalSample(id)
    requires SpellsCobolSample(p)
    ensures WriteRest(Ascii, Cobol, id, 2) == p[2..]
  {
    WriteCobolFrom3(id, p);
    WriteStep(Ascii, Cobol, id, 2, p, 2, "I", 3);
  }

  lemma {:induction false} WriteCobolFrom1(id: string, p: string)
    requires SpellsPascalSample(id)
    requires SpellsCobolSample(p)
    ensures WriteRest(Ascii, Cobol, id, 1) == p[1..]
  {
    WriteCobolFrom2(id, p);
    WriteStep(Ascii, Cobol, id, 1, p, 1, "H", 2);
  }

  /** Writing "ThisIsATest" in Cobol case gives "THIS-IS-A-TEST". */
  lemma {:induction false} WriteCobolSample()
    ensures WriteCasedIdentifier(Ascii, Some(""), Cobol, PascalSample) == Success(CobolSample)
  {
    PascalSampleSpelled();
    CobolSampleSpelled();
    WriteCobolFrom1(PascalSample, CobolSample);
    WriteFromRest(Ascii, Cobol, PascalSample, CobolSample[1..]);
    assert Recase(Ascii, Cobol.firstCharUpper, PascalSample[0]) == 'T';
    assert ['T'] + CobolSample[1..] == CobolSample;
  }

  lemma {:induction false} WriteMacroFrom10(id: string, p: string)
    requires SpellsPascalSample(id)
    requires SpellsMacroSample(p)
    ensures WriteRest(Ascii, Macro, id, 10) == p[13..]
  {
    WriteStep(Ascii, Macro, id, 10, p, 13, "T", 14);
  }

  lemma {:induction false} WriteMacroFrom9(id: string, p: string)
    requires SpellsPascalSample(id)
    requires SpellsMacroSample(p)
    ensures WriteRest(Ascii, Macro, id, 9) == p[12..]
  {
    WriteMacroFrom10(id, p);
    WriteStep(Ascii, Macro, id, 9, p, 12, "S", 13);
  }

  lemma {:induction false} WriteMacroFrom8(id: string, p: string)
    requires SpellsPascalSample(id)
    requires SpellsMacroSample(p)
    ensures WriteRest(Ascii, Macro, id, 8) == p[11..]
  {
    WriteMacroFrom9(id, p);
    WriteStep(Ascii, Macro, id, 8, p, 11, "E", 12);
  }

  lemma {:induction false} WriteMacroFrom7(id: string, p: string)
    requires SpellsPascalSample(id)
    requires SpellsMacroSample(p)
    ensures WriteRest(Ascii, Macro, id, 7) == p[9..]
  {
    WriteMacroFrom8(id, p);
    WriteStep(Ascii, Macro, id, 7, p, 9, "_T", 11);
  }

  lemma {:induction false} WriteMacroFrom6(id: string, p: string)
    requires SpellsPascalSample(id)
    requires SpellsMacroSample(p)
    ensures WriteRest(Ascii, Macro, id, 6) == p[7..]
  {
    WriteMacroFrom7(id, p);
    WriteStep(Ascii, Macro, id, 6, p, 7, "_A", 9);
  }

  lemma {:induction false} WriteMacroFrom5(id: string, p: string)
    requires SpellsPascalSample(id)
    requires SpellsMacroSample(p)
    ensures WriteRest(Ascii, Macro, id, 5) == p[6..]
  {
    WriteMacroFrom6(id, p);
    WriteStep(Ascii, Macro, id, 5, p, 6, "S", 7);
  }

  lemma {:induction false} WriteMacroFrom4(id: string, p: string)
    requires SpellsPascalSample(id)
    requires SpellsMacroSample(p)
    ensures WriteRest(Ascii, Macro, id, 4) == p[4..]
  {
    WriteMacroFrom5(id, p);
    WriteStep(Ascii, Macro, id, 4, p, 4, "_I", 6);
  }

  lemma {:induction false} WriteMacroFrom3(id: string, p: string)
    requires SpellsPascalSample(id)
    requires SpellsMacroSample(p)
    ensures WriteRest(Ascii, Macro, id, 3) == p[3..]
  {
    WriteMacroFrom4(id, p);
    WriteStep(Ascii, Macro, id, 3, p, 3, "S", 4);
  }

  lemma {:induction false} WriteMacroFrom2(id: string, p: string)
    requires SpellsPascalSample(id)
    requires SpellsMacroSample(p)
    ensures WriteRest(Ascii, Macro, id, 2) == p[2..]
  {
    WriteMacroFrom3(id, p);
    WriteStep(Ascii, Macro, id, 2, p, 2, "I", 3);
  }

  lemma {:induction false} WriteMacroFrom1(id: string, p: string)
    requires SpellsPascalSample(id)
    requires SpellsMacroSample(p)
    ensures WriteRest(Ascii, Macro, id, 1) == p[1..]
  {
    WriteMacroFrom2(id, p);
    WriteStep(Ascii, Macro, id, 1, p, 1, "H", 2);
  }

  /** Writing "ThisIsATest" in Macro case gives "THIS_IS_A_TEST". */
  lemma {:induction false} WriteMacroSample()
    ensures WriteCasedIdentifier(Ascii, Some(""), Macro, PascalSample) == Success(MacroSample)
  {
    PascalSampleSpelled();
    MacroSampleSpelled();
    WriteMacroFrom1(PascalSample, MacroSample);
    WriteFromRest(Ascii, Macro, PascalSample, MacroSample[1..]);
    assert Recase(Ascii, Macro.firstCharUpper, PascalSample[0]) == 'T';
    assert ['T'] + MacroSample[1..] == MacroSample;
  }

  lemma {:induction false} WriteLowerFrom10(id: string, p: string)
    requires SpellsPascalSample(id)
    requires SpellsLowerSample(p)
    ensures WriteRest(Ascii, Lower, id, 10) == p[13..]
  {
    WriteStep(Ascii, Lower, id, 10, p, 13, "t", 14);
  }

  lemma {:induction false} WriteLowerFrom9(id: string, p: string)
    requires SpellsPascalSample(id)
    requires SpellsLowerSample(p)
    ensures WriteRest(Ascii, Lower, id, 9) == p[12..]
  {
    WriteLowerFrom10(id, p);
    WriteStep(Ascii, Lower, id, 9, p, 12, "s", 13);
  }

  lemma {:induction false} WriteLowerFrom8(id: string, p: string)
    requires SpellsPascalSample(id)
    requires SpellsLowerSample(p)
    ensures WriteRest(Ascii, Lower, id, 8) == p[11..]
  {
    WriteLowerFrom9(id, p);
    WriteStep(Ascii, Lower, id, 8, p, 11, "e", 12);
  }

  lemma {:induction false} WriteLowerFrom7(id: string, p: string)
    requires SpellsPascalSample(id)
    requires SpellsLowerSample(p)
    ensures WriteRest(Ascii, Lower, id, 7) == p[9..]
  {
    WriteLowerFrom8(id, p);
    WriteStep(Ascii, Lower, id, 7, p, 9, " t", 11);
  }

  lemma {:induction false} WriteLowerFrom6(id: string, p: string)
    requires SpellsPascalSample(id)
    requires SpellsLowerSample(p)
    ensures WriteRest(Ascii, Lower, id, 6) == p[7..]
  {
    WriteLowerFrom7(id, p);
    WriteStep(Ascii, Lower, id, 6, p, 7, " a", 9);
  }

  lemma {:induction false} WriteLowerFrom5(id: string, p: string)
    requires SpellsPascalSample(id)
    requires SpellsLowerSample(p)
    ensures WriteRest(Ascii, Lower, id, 5) == p[6..]
  {
    WriteLowerFrom6(id, p);
    WriteStep(Ascii, Lower, id, 5, p, 6, "s", 7);
  }

  lemma {:induction false} WriteLowerFrom4(id: string, p: string)
    requires SpellsPascalSample(id)
    requires SpellsLowerSample(p)
    ensures WriteRest(Ascii, Lower, id, 4) == p[4..]
  {
    WriteLowerFrom5(id, p);
    WriteStep(Ascii, Lower, id, 4, p, 4, " i", 6);
  }

  lemma {:induction false} WriteLowerFrom3(id: string, p: string)
    requires SpellsPascalSample(id)
    requires SpellsLowerSample(p)
    ensures WriteRest(Ascii, Lower, id, 3) == p[3..]
  {
    WriteLowerFrom4(id, p);
    WriteStep(Ascii, Lower, id, 3, p, 3, "s", 4);
  }

  lemma {:induction false} WriteLowerFrom2(id: string, p: string)
    requires SpellsPascalSample(id)
    requires SpellsLowerSample(p)
    ensures WriteRest(Ascii, Lower, id, 2) == p[2..]
  {
    WriteLowerFrom3(id, p);
    WriteStep(Ascii, Lower, id, 2, p, 2, "i", 3);
  }

  lemma {:induction false} WriteLowerFrom1(id: string, p: string)
    requires SpellsPascalSample(id)
    requires SpellsLowerSample(p)
    ensures WriteRest(Ascii, Lower, id, 1) == p[1..]
  {
    WriteLowerFrom2(id, p);
    WriteStep(Ascii, Lower, id, 1, p, 1, "h", 2);
  }

  /** Writing "ThisIsATest" in Lower case gives "this is a test". */
  lemma {:induction false} WriteLowerSample()
    ensures WriteCasedIdentifier(Ascii, Some(""), Lower, PascalSample) == Success(LowerSample)
  {
    PascalSampleSpelled();
    LowerSampleSpelled();
    WriteLowerFrom1(PascalSample, LowerSample);
    WriteFromRest(Ascii, Lower, PascalSample, LowerSample[1..]);
    assert Recase(Ascii, Lower.firstCharUpper, PascalSample[0]) == 't';
    assert ['t'] + LowerSample[1..] == LowerSample;
  }

  lemma {:induction false} WriteUpperFrom10(id: string, p: string)
    requires SpellsPascalSample(id)
    requires SpellsUpperSample(p)
    ensures WriteRest(Ascii, Upper, id, 10) == p[13..]
  {
    WriteStep(Ascii, Upper, id, 10, p, 13, "T", 14);
  }

  lemma {:induction false} WriteUpperFrom9(id: string, p: string)
    requires SpellsPascalSample(id)
    requires SpellsUpperSample(p)
    ensures WriteRest(Ascii, Upper, id, 9) == p[12..]
  {
    WriteUpperFrom10(id, p);
    WriteStep(Ascii, Upper, id, 9, p, 12, "S", 13);
  }

  lemma {:induction false} WriteUpperFrom8(id: string, p: string)
    requires SpellsPascalSample(id)
    requires SpellsUpperSample(p)
    ensures WriteRest(Ascii, Upper, id, 8) == p[11..]
  {
    WriteUpperFrom9(id, p);
    WriteStep(Ascii, Upper, id, 8, p, 11, "E", 12);
  }

  lemma {:induction false} WriteUpperFrom7(id: string, p: string)
    requires SpellsPascalSample(id)
    requires SpellsUpperSample(p)
    ensures WriteRest(Ascii, Upper, id, 7) == p[9..]
  {
    WriteUpperFrom8(id, p);
    WriteStep(Ascii, Upper, id, 7, p, 9, " T", 11);
  }

  lemma {:induction false} WriteUpperFrom6(id: string, p: string)
    requires SpellsPascalSample(id)
    requires SpellsUpperSample(p)
    ensures WriteRest(Ascii, Upper, id, 6) == p[7..]
  {
    WriteUpperFrom7(id, p);
    WriteStep(Ascii, Upper, id, 6, p, 7, " A", 9);
  }

  lemma {:induction false} WriteUpperFrom5(id: string, p: string)
    requires SpellsPascalSample(id)
    requires SpellsUpperSample(p)
    ensures WriteRest(Ascii, Upper, id, 5) == p[6..]
  {
    WriteUpperFrom6(id, p);
    WriteStep(Ascii, Upper, id, 5, p, 6, "S", 7);
  }

  lemma {:induction false} WriteUpperFrom4(id: string, p: string)
    requires SpellsPascalSample(id)
    requires SpellsUpperSample(p)
    ensures WriteRest(Ascii, Upper, id, 4) == p[4..]
  {
    WriteUpperFrom5(id, p);
    WriteStep(Ascii, Upper, id, 4, p, 4, " I", 6);
  }

  lemma {:induction false} WriteUpperFrom3(id: string, p: string)
    requires SpellsPascalSample(id)
    requires SpellsUpperSample(p)
    ensures WriteRest(Ascii, Upper, id, 3) == p[3..]
  {
    WriteUpperFrom4(id, p);
    WriteStep(Ascii, Upper, id, 3, p, 3, "S", 4);
  }

  lemma {:induction false} WriteUpperFrom2(id: string, p: string)
    requires SpellsPascalSample(id)
    requires SpellsUpperSample(p)
    ensures WriteRest(Ascii, Upper, id, 2) == p[2..]
  {
    WriteUpperFrom3(id, p);
    WriteStep(Ascii, Upper, id, 2, p, 2, "I", 3);
  }

  lemma {:induction false} WriteUpperFrom1(id: string, p: string)
    requires SpellsPascalSample(id)
    requires SpellsUpperSample(p)
    ensures WriteRest(Ascii, Upper, id, 1) == p[1..]
  {
    WriteUpperFrom2(id, p);
    WriteStep(Ascii, Upper, id, 1, p, 1, "H", 2);
  }

  /** Writing "ThisIsATest" in Upper case gives "THIS IS A TEST". */
  lemma {:induction false} WriteUpperSample()
    ensures WriteCasedIdentifier(Ascii, Some(""), Upper, PascalSample) == Success(UpperSample)
  {
    PascalSampleSpelled();
    UpperSampleSpelled();
    WriteUpperFrom1(PascalSample, UpperSample);
    WriteFromRest(Ascii, Upper, PascalSample, UpperSample[1..]);
    assert Recase(Ascii, Upper.firstCharUpper, PascalSample[0]) == 'T';
    assert ['T'] + UpperSample[1..] == UpperSample;
  }

  lemma {:induction false} WriteTrainFrom10(id: string, p: string)
    requires SpellsPascalSample(id)
    requires SpellsTrainSample(p)
    ensures WriteRest(Ascii, Train, id, 10) == p[13..]
  {
    WriteStep(Ascii, Train, id, 10, p, 13, "t", 14);
  }

  lemma {:induction false} WriteTrainFrom9(id: string, p: string)
    requires SpellsPascalSample(id)
    requires SpellsTrainSample(p)
    ensures WriteRest(Ascii, Train, id, 9) == p[12..]
  {
    WriteTrainFrom10(id, p);
    WriteStep(Ascii, Train, id, 9, p, 12, "s", 13);
  }

  lemma {:induction false} WriteTrainFrom8(id: string, p: string)
    requires SpellsPascalSample(id)
    requires SpellsTrainSample(p)
    ensures WriteRest(Ascii, Train, id, 8) == p[11..]
  {
    WriteTrainFrom9(id, p);
    WriteStep(Ascii, Train, id, 8, p, 11, "e", 12);
  }

  lemma {:induction false} WriteTrainFrom7(id: string, p: string)
    requires SpellsPascalSample(id)
    requires SpellsTrainSample(p)
    ensures WriteRest(Ascii, Train, id, 7) == p[9..]
  {
    WriteTrainFrom8(id, p);
    WriteStep(Ascii, Train, id, 7, p, 9, "-T", 11);
  }

  lemma {:induction false} WriteTrainFrom6(id: string, p: string)
    requires SpellsPascalSample(id)
    requires SpellsTrainSample(p)
    ensures WriteRest(Ascii, Train, id, 6) == p[7..]
  {
    WriteTrainFrom7(id, p);
    WriteStep(Ascii, Train, id, 6, p, 7, "-A", 9);
  }

  lemma {:induction false} WriteTrainFrom5(id: string, p: string)
    requires SpellsPascalSample(id)
    requires SpellsTrainSample(p)
    ensures WriteRest(Ascii, Train, id, 5) == p[6..]
  {
    WriteTrainFrom6(id, p);
    WriteStep(Ascii, Train, id, 5, p, 6, "s", 7);
  }

  lemma {:induction false} WriteTrainFrom4(id: string, p: string)
    requires SpellsPascalSample(id)
    requires SpellsTrainSample(p)
    ensures WriteRest(Ascii, Train, id, 4) == p[4..]
  {
    WriteTrainFrom5(id, p);
    WriteStep(Ascii, Train, id, 4, p, 4, "-I", 6);
  }

  lemma {:induction false} WriteTrainFrom3(id: string, p: string)
    requires SpellsPascalSample(id)
    requires SpellsTrainSample(p)
    ensures WriteRest(Ascii, Train, id, 3) == p[3..]
  {
    WriteTrainFrom4(id, p);
    WriteStep(Ascii, Train, id, 3, p, 3, "s", 4);
  }

  lemma {:induction false} WriteTrainFrom2(id: string, p: string)
    requires SpellsPascalSample(id)
    requires SpellsTrainSample(p)
    ensures WriteRest(Ascii, Train, id, 2) == p[2..]
  {
    WriteTrainFrom3(id, p);
    WriteStep(Ascii, Train, id, 2, p, 2, "i", 3);
  }

  lemma {:induction false} WriteTrainFrom1(id: string, p: string)
    requires SpellsPascalSample(id)
    requires SpellsTrainSample(p)
    ensures WriteRest(Ascii, Train, id, 1) == p[1..]
  {
    WriteTrainFrom2(id, p);
    WriteStep(Ascii, Train, id, 1, p, 1, "h", 2);
  }

  /** Writing "ThisIsATest" in Train case gives "This-Is-A-Test". */
  lemma {:induction false} WriteTrainSample()
    ensures WriteCasedIdentifier(Ascii, Some(""), Train, PascalSample) == Success(TrainSample)
  {
    PascalSampleSpelled();
    TrainSampleSpelled();
    WriteTrainFrom1(PascalSample, TrainSample);
    WriteFromRest(Ascii, Train, PascalSample, TrainSample[1..]);
    assert Recase(Ascii, Train.firstCharUpper, PascalSample[0]) == 'T';
    assert ['T'] + TrainSample[1..] == TrainSample;
  }

  lemma {:induction false} WriteSpreadsheetFrom10(id: string, p: string)
    requires SpellsPascalSample(id)
    requires SpellsSpreadsheetSample(p)
    ensures WriteRest(Ascii, Spreadsheet, id, 10) == p[13..]
  {
    WriteStep(Ascii, Spreadsheet, id, 10, p, 13, "t", 14);
  }

  lemma {:induction false} WriteSpreadsheetFrom9(id: string, p: string)
    requires SpellsPascalSample(id)
    requires SpellsSpreadsheetSample(p)
    ensures WriteRest(Ascii, Spreadsheet, id, 9) == p[12..]
  {
    WriteSpreadsheetFrom10(id, p);
    WriteStep(Ascii, Spreadsheet, id, 9, p, 12, "s", 13);
  }

  lemma {:induction false} WriteSpreadsheetFrom8(id: string, p: string)
    requires SpellsPascalSample(id)
    requires SpellsSpreadsheetSample(p)
    ensures WriteRest(Ascii, Spreadsheet, id, 8) == p[11..]
  {
    WriteSpreadsheetFrom9(id, p);
    WriteStep(Ascii, Spreadsheet, id, 8, p, 11, "e", 12);
  }

  lemma {:induction false} WriteSpreadsheetFrom7(id: string, p: string)
    requires SpellsPascalSample(id)
    requires SpellsSpreadsheetSample(p)
    ensures WriteRest(Ascii, Spreadsheet, id, 7) == p[9..]
  {
    WriteSpreadsheetFrom8(id, p);
    WriteStep(Ascii, Spreadsheet, id, 7, p, 9, " T", 11);
  }

  lemma {:induction false} WriteSpreadsheetFrom6(id: string, p: string)
    requires SpellsPascalSample(id)
    requires SpellsSpreadsheetSample(p)
    ensures WriteRest(Ascii, Spreadsheet, id, 6) == p[7..]
  {
    WriteSpreadsheetFrom7(id, p);
    WriteStep(Ascii, Spreadsheet, id, 6, p, 7, " A", 9);
  }

  lemma {:induction false} WriteSpreadsheetFrom5(id: string, p: string)
    requires SpellsPascalSample(id)
    requires SpellsSpreadsheetSample(p)
    ensures WriteRest(Ascii, Spreadsheet, id, 5) == p[6..]
  {
    WriteSpreadsheetFrom6(id, p);
    WriteStep(Ascii, Spreadsheet, id, 5, p, 6, "s", 7);
  }

  lemma {:induction false} WriteSpreadsheetFrom4(id: string, p: string)
    requires SpellsPascalSample(id)
    requires SpellsSpreadsheetSample(p)
    ensures WriteRest(Ascii, Spreadsheet, id, 4) == p[4..]
  {
    WriteSpreadsheetFrom5(id, p);
    WriteStep(Ascii, Spreadsheet, id, 4, p, 4, " I", 6);
  }

  lemma {:induction false} WriteSpreadsheetFrom3(id: string, p: string)
    requires SpellsPascalSample(id)
    requires SpellsSpreadsheetSample(p)
    ensures WriteRest(Ascii, Spreadsheet, id, 3) == p[3..]
  {
    WriteSpreadsheetFrom4(id, p);
    WriteStep(Ascii, Spreadsheet, id, 3, p, 3, "s", 4);
  }

  lemma {:induction false} WriteSpreadsheetFrom2(id: string, p: string)
    requires SpellsPascalSample(id)
    requires SpellsSpreadsheetSample(p)
    ensures WriteRest(Ascii, Spreadsheet, id, 2) == p[2..]
  {
    WriteSpreadsheetFrom3(id, p);
    WriteStep(Ascii, Spreadsheet, id, 2, p, 2, "i", 3);
  }

  lemma {:induction false} WriteSpreadsheetFrom1(id: string, p: string)
    requires SpellsPascalSample(id)
    requires SpellsSpreadsheetSample(p)
    ensures WriteRest(Ascii, Spreadsheet, id, 1) == p[1..]
  {
    WriteSpreadsheetFrom2(id, p);
    WriteStep(Ascii, Spreadsheet, id, 1, p, 1, "h", 2);
  }

  /** Writing "ThisIsATest" in Spreadsheet case gives "This Is A Test". */
  lemma {:induction false} WriteSpreadsheetSample()
    ensures WriteCasedIdentifier(Ascii, Some(""), Spreadsheet, PascalSample) == Success(SpreadsheetSample)
  {
    PascalSampleSpelled();
    SpreadsheetSampleSpelled();
    WriteSpreadsheetFrom1(PascalSample, SpreadsheetSample);
    WriteFromRest(Ascii, Spreadsheet, PascalSample, SpreadsheetSample[1..]);
    assert Recase(Ascii, Spreadsheet.firstCharUpper, PascalSample[0]) == 'T';
    assert ['T'] + SpreadsheetSample[1..] == SpreadsheetSample;
  }

  /**
    Translation as the sum of its parts: the leading pass, the word pass and the trailing pass,
    for an identifier detected in a style other than the target.
   */
  lemma {:induction false} TranslateFromWords(cc: Classifier, s: string, casing: Style, desired: Style, result: string)
    requires s != ""
    requires desired != Mixed
    requires DetectIdentifierCasing(cc, Some(s)) == Success(casing) && casing != desired
    requires TranslateWords(cc, s, casing, desired) == result
    ensures Translate(cc, s, desired) == Success(result)
  {
  }

  /** Translating a sample into Pascal case, once each of its passes is known. */
  lemma {:induction false} PascalFromParts(cc: Classifier, id: string, casing: Style, end: nat)
    requires LastWordIndex(cc, id) == end
    requires CopyLeading(cc, id, true, 0) == Pass("T", 0)
    requires CopyTrailing(cc, id, end + 1) == ""
    requires Words(cc, id, casing, Pascal, 1, end, false) == WordPass(PascalSample[1..], end + 1, false)
    ensures TranslateWords(cc, id, casing, Pascal) == PascalSample
  {
    PascalSampleSplit();
    TranslateWordsFromParts(cc, id, casing, Pascal, 0, 1, end, end + 1, "T", PascalSample[1..], "", PascalSample);
  }

  /** The style facts the word pass consults at every character, stated once. */
  lemma {:induction false} StyleFacts()
    ensures Separators(Pascal) == "" && WordStartUpper(Pascal) && !Pascal.wordBodyCharsUpper
    ensures Separators(Camel) == "" && WordStartUpper(Camel) && !Camel.wordBodyCharsUpper && !Camel.firstCharUpper
    ensures Separators(Snake) == "_" && !WordStartUpper(Snake) && !Snake.wordBodyCharsUpper && !Snake.firstCharUpper
    ensures BreaksAtUpperCase(Camel) && BreaksAtUpperCase(Train) && BreaksAtUpperCase(Spreadsheet)
    ensures !BreaksAtUpperCase(Lower) && !BreaksAtUpperCase(Upper) && !BreaksAtUpperCase(Kebab)
    ensures !BreaksAtUpperCase(Snake) && !BreaksAtUpperCase(Cobol) && !BreaksAtUpperCase(Macro)
    ensures Camel != Mixed && Train != Mixed && Spreadsheet != Mixed && Lower != Mixed && Upper != Mixed
    ensures Kebab != Mixed && Snake != Mixed && Cobol != Mixed && Macro != Mixed
    ensures Camel != Pascal && Train != Pascal && Spreadsheet != Pascal && Lower != Pascal && Upper != Pascal
    ensures Kebab != Pascal && Snake != Pascal && Cobol != Pascal && Macro != Pascal
    ensures !BreaksAtUpperCase(Mixed) && Mixed != Pascal
  {
  }

  lemma {:induction false} PascalSampleSplit()
    ensures "T" + PascalSample[1..] + "" == PascalSample
  {
  }

  /** One iteration of the word pass on a decoration character that is not the last character, writing the piece of p at j. */
  lemma {:induction false} DecorationStep(cc: Classifier, s: string, casing: Style, desired: Style, offset: nat, end: int, nonUpper: bool, p: string, j: nat, written: string, k: nat, nextNonUpper: bool, next: int, stopped: bool)
    requires offset <= end < |s|
    requires offset + 1 < |s|
    requires IsDecoration(cc, s[offset])
    requires written == Separators(desired) + [Recase(cc, WordStartUpper(desired), s[offset + 1])]
    requires nextNonUpper == !cc.isUpper(s[offset + 1])
    requires j + |written| == k <= |p| && p[j..k] == written
    requires Words(cc, s, casing, desired, offset + 2, end, nextNonUpper) == WordPass(p[k..], next, stopped)
    ensures Words(cc, s, casing, desired, offset, end, nonUpper) == WordPass(p[j..], next, stopped)
  {
    assert p[j..] == written + p[k..];
  }

  /** One iteration of the word pass on a word character, writing the piece of p at j. */
  lemma {:induction false} WordCharStep(cc: Classifier, s: string, casing: Style, desired: Style, offset: nat, end: int, nonUpper: bool, p: string, j: nat, written: string, k: nat, nextNonUpper: bool, next: int, stopped: bool)
    requires offset <= end < |s|
    requires !IsDecoration(cc, s[offset])
    requires written ==
      if cc.isUpper(s[offset]) && (BreaksAtUpperCase(casing) || (casing == Mixed && nonUpper)) then Separators(desired) + [Recase(cc, WordStartUpper(desired), s[offset])]
      else [Recase(cc, desired.wordBodyCharsUpper, s[offset])]
    requires nextNonUpper == (nonUpper || !cc.isUpper(s[offset]))
    requires j + |written| == k <= |p| && p[j..k] == written
    requires Words(cc, s, casing, desired, offset + 1, end, nextNonUpper) == WordPass(p[k..], next, stopped)
    ensures Words(cc, s, casing, desired, offset, end, nonUpper) == WordPass(p[j..], next, stopped)
  {
    assert p[j..] == written + p[k..];
  }

  /** Every character of the sample in Pascal case is a cased letter, so a word character. */
  lemma {:induction false} PascalSampleIsCased(id: string)
    requires SpellsPascalSample(id)
    ensures WordChars(Ascii, id)
  {
  }

  /** Translating "ThisIsATest" into Camel case gives "thisIsATest", as writing it does. */
  lemma {:induction false} TranslatePascalSampleToCamel()
    ensures Translate(Ascii, PascalSample, Camel) == Success(CamelSample)
  {
    AsciiIsValid();
    PascalSampleSpelled();
    PascalSampleIsCased(PascalSample);
    DetectPascalSample();
    WriteMatchesTranslate(Ascii, "", Camel, PascalSample);
    WriteCamelSample();
  }

  /** Translating "ThisIsATest" into Kebab case gives "this-is-a-test", as writing it does. */
  lemma {:induction false} TranslatePascalSampleToKebab()
    ensures Translate(Ascii, PascalSample, Kebab) == Success(KebabSample)
  {
    AsciiIsValid();
    PascalSampleSpelled();
    PascalSampleIsCased(PascalSample);
    DetectPascalSample();
    WriteMatchesTranslate(Ascii, "", Kebab, PascalSample);
    WriteKebabSample();
  }

  /** Translating "ThisIsATest" into Snake case gives "this_is_a_test", as writing it does. */
  lemma {:induction false} TranslatePascalSampleToSnake()
    ensures Translate(Ascii, PascalSample, Snake) == Success(SnakeSample)
  {
    AsciiIsValid();
    PascalSampleSpelled();
    PascalSampleIsCased(PascalSample);
    DetectPascalSample();
    WriteMatchesTranslate(Ascii, "", Snake, PascalSample);
    WriteSnakeSample();
  }

  /** Translating "ThisIsATest" into Cobol case gives "THIS-IS-A-TEST", as writing it does. */
  lemma {:induction false} TranslatePascalSampleToCobol()
    ensures Translate(Ascii, PascalSample, Cobol) == Success(CobolSample)
  {
    AsciiIsValid();
    PascalSampleSpelled();
    PascalSampleIsCased(PascalSample);
    DetectPascalSample();
    WriteMatchesTranslate(Ascii, "", Cobol, PascalSample);
    WriteCobolSample();
  }

  /** Translating "ThisIsATest" into Macro case gives "THIS_IS_A_TEST", as writing it does. */
  lemma {:induction false} TranslatePascalSampleToMacro()
    ensures Translate(Ascii, PascalSample, Macro) == Success(MacroSample)
  {
    AsciiIsValid();
    PascalSampleSpelled();
    PascalSampleIsCased(PascalSample);
    DetectPascalSample();
    WriteMatchesTranslate(Ascii, "", Macro, PascalSample);
    WriteMacroSample();
  }

  /** Translating "ThisIsATest" into Lower case gives "this is a test", as writing it does. */
  lemma {:induction false} TranslatePascalSampleToLower()
    ensures Translate(Ascii, PascalSample, Lower) == Success(LowerSample)
  {
    AsciiIsValid();
    PascalSampleSpelled();
    PascalSampleIsCased(PascalSample);
    DetectPascalSample();
    WriteMatchesTranslate(Ascii, "", Lower, PascalSample);
    WriteLowerSample();
  }

  /** Translating "ThisIsATest" into Upper case gives "THIS IS A TEST", as writing it does. */
  lemma {:induction false} TranslatePascalSampleToUpper()
    ensures Translate(Ascii, PascalSample, Upper) == Success(UpperSample)
  {
    AsciiIsValid();
    PascalSampleSpelled();
    PascalSampleIsCased(PascalSample);
    DetectPascalSample();
    WriteMatchesTranslate(Ascii, "", Upper, PascalSample);
    WriteUpperSample();
  }

  /** Translating "ThisIsATest" into Train case gives "This-Is-A-Test", as writing it does. */
  lemma {:induction false} TranslatePascalSampleToTrain()
    ensures Translate(Ascii, PascalSample, Train) == Success(TrainSample)
  {
    AsciiIsValid();
    PascalSampleSpelled();
    PascalSampleIsCased(PascalSample);
    DetectPascalSample();
    WriteMatchesTranslate(Ascii, "", Train, PascalSample);
    WriteTrainSample();
  }

  /** Translating "ThisIsATest" into Spreadsheet case gives "This Is A Test", as writing it does. */
  lemma {:induction false} TranslatePascalSampleToSpreadsheet()
    ensures Translate(Ascii, PascalSample, Spreadsheet) == Success(SpreadsheetSample)
  {
    AsciiIsValid();
    PascalSampleSpelled();
    PascalSampleIsCased(PascalSample);
    DetectPascalSample();
    WriteMatchesTranslate(Ascii, "", Spreadsheet, PascalSample);
    WriteSpreadsheetSample();
  }

  lemma {:induction false} NormalizeLowerFrom13(id: string, p: string)
    requires SpellsLowerSample(id)
    requires SpellsPascalSample(p)
    ensures Words(Ascii, id, Lower, Pascal, 13, 13, true) == WordPass(p[10..], 14, false)
  {
    LetterIsWordChar(id[13]);
    WordCharStep(Ascii, id, Lower, Pascal, 13, 13, true, p, 10, "t", 11, true, 14, false);
  }

  lemma {:induction false} NormalizeLowerFrom12(id: string, p: string)
    requires SpellsLowerSample(id)
    requires SpellsPascalSample(p)
    ensures Words(Ascii, id, Lower, Pascal, 12, 13, true) == WordPass(p[9..], 14, false)
  {
    NormalizeLowerFrom13(id, p);
    LetterIsWordChar(id[12]);
    WordCharStep(Ascii, id, Lower, Pascal, 12, 13, true, p, 9, "s", 10, true, 14, false);
  }

  lemma {:induction false} NormalizeLowerFrom11(id: string, p: string)
    requires SpellsLowerSample(id)
    requires SpellsPascalSample(p)
    ensures Words(Ascii, id, Lower, Pascal, 11, 13, true) == WordPass(p[8..], 14, false)
  {
    NormalizeLowerFrom12(id, p);
    LetterIsWordChar(id[11]);
    WordCharStep(Ascii, id, Lower, Pascal, 11, 13, true, p, 8, "e", 9, true, 14, false);
  }

  lemma {:induction false} NormalizeLowerFrom9(id: string, p: string)
    requires SpellsLowerSample(id)
    requires SpellsPascalSample(p)
    ensures Words(Ascii, id, Lower, Pascal, 9, 13, true) == WordPass(p[7..], 14, false)
  {
    NormalizeLowerFrom11(id, p);
    SeparatorIsDecoration(id[9]);
    DecorationStep(Ascii, id, Lower, Pascal, 9, 13, true, p, 7, "T", 8, true, 14, false);
  }

  lemma {:induction false} NormalizeLowerFrom7(id: string, p: string)
    requires SpellsLowerSample(id)
    requires SpellsPascalSample(p)
    ensures Words(Ascii, id, Lower, Pascal, 7, 13, true) == WordPass(p[6..], 14, false)
  {
    NormalizeLowerFrom9(id, p);
    SeparatorIsDecoration(id[7]);
    DecorationStep(Ascii, id, Lower, Pascal, 7, 13, true, p, 6, "A", 7, true, 14, false);
  }

  lemma {:induction false} NormalizeLowerFrom6(id: string, p: string)
    requires SpellsLowerSample(id)
    requires SpellsPascalSample(p)
    ensures Words(Ascii, id, Lower, Pascal, 6, 13, true) == WordPass(p[5..], 14, false)
  {
    NormalizeLowerFrom7(id, p);
    LetterIsWordChar(id[6]);
    WordCharStep(Ascii, id, Lower, Pascal, 6, 13, true, p, 5, "s", 6, true, 14, false);
  }

  lemma {:induction false} NormalizeLowerFrom4(id: string, p: string)
    requires SpellsLowerSample(id)
    requires SpellsPascalSample(p)
    ensures Words(Ascii, id, Lower, Pascal, 4, 13, true) == WordPass(p[4..], 14, false)
  {
    NormalizeLowerFrom6(id, p);
    SeparatorIsDecoration(id[4]);
    DecorationStep(Ascii, id, Lower, Pascal, 4, 13, true, p, 4, "I", 5, true, 14, false);
  }

  lemma {:induction false} NormalizeLowerFrom3(id: string, p: string)
    requires SpellsLowerSample(id)
    requires SpellsPascalSample(p)
    ensures Words(Ascii, id, Lower, Pascal, 3, 13, true) == WordPass(p[3..], 14, false)
  {
    NormalizeLowerFrom4(id, p);
    LetterIsWordChar(id[3]);
    WordCharStep(Ascii, id, Lower, Pascal, 3, 13, true, p, 3, "s", 4, true, 14, false);
  }

  lemma {:induction false} NormalizeLowerFrom2(id: string, p: string)
    requires SpellsLowerSample(id)
    requires SpellsPascalSample(p)
    ensures Words(Ascii, id, Lower, Pascal, 2, 13, true) == WordPass(p[2..], 14, false)
  {
    NormalizeLowerFrom3(id, p);
    LetterIsWordChar(id[2]);
    WordCharStep(Ascii, id, Lower, Pascal, 2, 13, true, p, 2, "i", 3, true, 14, false);
  }

  lemma {:induction false} NormalizeLowerFrom1(id: string, p: string)
    requires SpellsLowerSample(id)
    requires SpellsPascalSample(p)
    ensures Words(Ascii, id, Lower, Pascal, 1, 13, false) == WordPass(p[1..], 14, false)
  {
    NormalizeLowerFrom2(id, p);
    LetterIsWordChar(id[1]);
    WordCharStep(Ascii, id, Lower, Pascal, 1, 13, false, p, 1, "h", 2, true, 14, false);
  }

  /** The parts of the translation of "this is a test" into Pascal case. */
  lemma {:induction false} LowerSampleParts(id: string)
    requires SpellsLowerSample(id)
    ensures LastWordIndex(Ascii, id) == 13
    ensures CopyLeading(Ascii, id, true, 0) == Pass("T", 0)
    ensures CopyTrailing(Ascii, id, 14) == ""
  {
  }

  /** "this is a test" in Pascal case is "ThisIsATest". */
  lemma {:induction false} NormalizeLowerSample()
    ensures Translate(Ascii, LowerSample, Pascal) == Success(PascalSample)
  {
    LowerSampleSpelled();
    DetectLowerSample();
    LowerSampleWords(LowerSample);
    StyleFacts();
    TranslateFromWords(Ascii, LowerSample, Lower, Pascal, PascalSample);
  }

  lemma {:induction false} LowerSampleWords(id: string)
    requires SpellsLowerSample(id)
    ensures TranslateWords(Ascii, id, Lower, Pascal) == PascalSample
  {
    LowerSampleParts(id);
    PascalSampleSpelled();
    NormalizeLowerFrom1(id, PascalSample);
    PascalFromParts(Ascii, id, Lower, 13);
  }

  /** Reading "this is a test" gives "ThisIsATest" and leaves nothing unread. */
  lemma {:induction false} ReadLowerSample()
    ensures ReadNormalizedCaseIdentifier(Ascii, Some(LowerSample)) == Success(ReadResult(PascalSample, ""))
  {
    assert forall i :: 0 <= i < |LowerSample| ==> IdentifierChar(Ascii, LowerSample[i]);
    assert LowerSample + "" == LowerSample;
    ReadSplitsAtFirstNonIdentifierChar(Ascii, LowerSample, "");
    NormalizeLowerSample();
  }

  lemma {:induction false} NormalizeUpperFrom13(id: string, p: string)
    requires SpellsUpperSample(id)
    requires SpellsPascalSample(p)
    ensures Words(Ascii, id, Upper, Pascal, 13, 13, false) == WordPass(p[10..], 14, false)
  {
    LetterIsWordChar(id[13]);
    WordCharStep(Ascii, id, Upper, Pascal, 13, 13, false, p, 10, "t", 11, false, 14, false);
  }

  lemma {:induction false} NormalizeUpperFrom12(id: string, p: string)
    requires SpellsUpperSample(id)
    requires SpellsPascalSample(p)
    ensures Words(Ascii, id, Upper, Pascal, 12, 13, false) == WordPass(p[9..], 14, false)
  {
    NormalizeUpperFrom13(id, p);
    LetterIsWordChar(id[12]);
    WordCharStep(Ascii, id, Upper, Pascal, 12, 13, false, p, 9, "s", 10, false, 14, false);
  }

  lemma {:induction false} NormalizeUpperFrom11(id: string, p: string)
    requires SpellsUpperSample(id)
    requires SpellsPascalSample(p)
    ensures Words(Ascii, id, Upper, Pascal, 11, 13, false) == WordPass(p[8..], 14, false)
  {
    NormalizeUpperFrom12(id, p);
    LetterIsWordChar(id[11]);
    WordCharStep(Ascii, id, Upper, Pascal, 11, 13, false, p, 8, "e", 9, false, 14, false);
  }

  lemma {:induction false} NormalizeUpperFrom9(id: string, p: string)
    requires SpellsUpperSample(id)
    requires SpellsPascalSample(p)
    ensures Words(Ascii, id, Upper, Pascal, 9, 13, false) == WordPass(p[7..], 14, false)
  {
    NormalizeUpperFrom11(id, p);
    SeparatorIsDecoration(id[9]);
    DecorationStep(Ascii, id, Upper, Pascal, 9, 13, false, p, 7, "T", 8, false, 14, false);
  }

  lemma {:induction false} NormalizeUpperFrom7(id: string, p: string)
    requires SpellsUpperSample(id)
    requires SpellsPascalSample(p)
    ensures Words(Ascii, id, Upper, Pascal, 7, 13, false) == WordPass(p[6..], 14, false)
  {
    NormalizeUpperFrom9(id, p);
    SeparatorIsDecoration(id[7]);
    DecorationStep(Ascii, id, Upper, Pascal, 7, 13, false, p, 6, "A", 7, false, 14, false);
  }

  lemma {:induction false} NormalizeUpperFrom6(id: string, p: string)
    requires SpellsUpperSample(id)
    requires SpellsPascalSample(p)
    ensures Words(Ascii, id, Upper, Pascal, 6, 13, false) == WordPass(p[5..], 14, false)
  {
    NormalizeUpperFrom7(id, p);
    LetterIsWordChar(id[6]);
    WordCharStep(Ascii, id, Upper, Pascal, 6, 13, false, p, 5, "s", 6, false, 14, false);
  }

  lemma {:induction false} NormalizeUpperFrom4(id: string, p: string)
    requires SpellsUpperSample(id)
    requires SpellsPascalSample(p)
    ensures Words(Ascii, id, Upper, Pascal, 4, 13, false) == WordPass(p[4..], 14, false)
  {
    NormalizeUpperFrom6(id, p);
    SeparatorIsDecoration(id[4]);
    DecorationStep(Ascii, id, Upper, Pascal, 4, 13, false, p, 4, "I", 5, false, 14, false);
  }

  lemma {:induction false} NormalizeUpperFrom3(id: string, p: string)
    requires SpellsUpperSample(id)
    requires SpellsPascalSample(p)
    ensures Words(Ascii, id, Upper, Pascal, 3, 13, false) == WordPass(p[3..], 14, false)
  {
    NormalizeUpperFrom4(id, p);
    LetterIsWordChar(id[3]);
    WordCharStep(Ascii, id, Upper, Pascal, 3, 13, false, p, 3, "s", 4, false, 14, false);
  }

  lemma {:induction false} NormalizeUpperFrom2(id: string, p: string)
    requires SpellsUpperSample(id)
    requires SpellsPascalSample(p)
    ensures Words(Ascii, id, Upper, Pascal, 2, 13, false) == WordPass(p[2..], 14, false)
  {
    NormalizeUpperFrom3(id, p);
    LetterIsWordChar(id[2]);
    WordCharStep(Ascii, id, Upper, Pascal, 2, 13, false, p, 2, "i", 3, false, 14, false);
  }

  lemma {:induction false} NormalizeUpperFrom1(id: string, p: string)
    requires SpellsUpperSample(id)
    requires SpellsPascalSample(p)
    ensures Words(Ascii, id, Upper, Pascal, 1, 13, false) == WordPass(p[1..], 14, false)
  {
    NormalizeUpperFrom2(id, p);
    LetterIsWordChar(id[1]);
    WordCharStep(Ascii, id, Upper, Pascal, 1, 13, false, p, 1, "h", 2, false, 14, false);
  }

  /** The parts of the translation of "THIS IS A TEST" into Pascal case. */
  lemma {:induction false} UpperSampleParts(id: string)
    requires SpellsUpperSample(id)
    ensures LastWordIndex(Ascii, id) == 13
    ensures CopyLeading(Ascii, id, true, 0) == Pass("T", 0)
    ensures CopyTrailing(Ascii, id, 14) == ""
  {
  }

  /** "THIS IS A TEST" in Pascal case is "ThisIsATest". */
  lemma {:induction false} NormalizeUpperSample()
    ensures Translate(Ascii, UpperSample, Pascal) == Success(PascalSample)
  {
    UpperSampleSpelled();
    DetectUpperSample();
    UpperSampleWords(UpperSample);
    StyleFacts();
    TranslateFromWords(Ascii, UpperSample, Upper, Pascal, PascalSample);
  }

  lemma {:induction false} UpperSampleWords(id: string)
    requires SpellsUpperSample(id)
    ensures TranslateWords(Ascii, id, Upper, Pascal) == PascalSample
  {
    UpperSampleParts(id);
    PascalSampleSpelled();
    NormalizeUpperFrom1(id, PascalSample);
    PascalFromParts(Ascii, id, Upper, 13);
  }

  /** Reading "THIS IS A TEST" gives "ThisIsATest" and leaves nothing unread. */
  lemma {:induction false} ReadUpperSample()
    ensures ReadNormalizedCaseIdentifier(Ascii, Some(UpperSample)) == Success(ReadResult(PascalSample, ""))
  {
    assert forall i :: 0 <= i < |UpperSample| ==> IdentifierChar(Ascii, UpperSample[i]);
    assert UpperSample + "" == UpperSample;
    ReadSplitsAtFirstNonIdentifierChar(Ascii, UpperSample, "");
    NormalizeUpperSample();
  }

  lemma {:induction false} NormalizeCamelFrom10(id: string, p: string)
    requires SpellsCamelSample(id)
    requires SpellsPascalSample(p)
    ensures Words(Ascii, id, Camel, Pascal, 10, 10, true) == WordPass(p[10..], 11, false)
  {
    LetterIsWordChar(id[10]);
    WordCharStep(Ascii, id, Camel, Pascal, 10, 10, true, p, 10, "t", 11, true, 11, false);
  }

  lemma {:induction false} NormalizeCamelFrom9(id: string, p: string)
    requires SpellsCamelSample(id)
    requires SpellsPascalSample(p)
    ensures Words(Ascii, id, Camel, Pascal, 9, 10, true) == WordPass(p[9..], 11, false)
  {
    NormalizeCamelFrom10(id, p);
    LetterIsWordChar(id[9]);
    WordCharStep(Ascii, id, Camel, Pascal, 9, 10, true, p, 9, "s", 10, true, 11, false);
  }

  lemma {:induction false} NormalizeCamelFrom8(id: string, p: string)
    requires SpellsCamelSample(id)
    requires SpellsPascalSample(p)
    ensures Words(Ascii, id, Camel, Pascal, 8, 10, true) == WordPass(p[8..], 11, false)
  {
    NormalizeCamelFrom9(id, p);
    LetterIsWordChar(id[8]);
    WordCharStep(Ascii, id, Camel, Pascal, 8, 10, true, p, 8, "e", 9, true, 11, false);
  }

  lemma {:induction false} NormalizeCamelFrom7(id: string, p: string)
    requires SpellsCamelSample(id)
    requires SpellsPascalSample(p)
    ensures Words(Ascii, id, Camel, Pascal, 7, 10, true) == WordPass(p[7..], 11, false)
  {
    NormalizeCamelFrom8(id, p);
    LetterIsWordChar(id[7]);
    WordCharStep(Ascii, id, Camel, Pascal, 7, 10, true, p, 7, "T", 8, true, 11, false);
  }

  lemma {:induction false} NormalizeCamelFrom6(id: string, p: string)
    requires SpellsCamelSample(id)
    requires SpellsPascalSample(p)
    ensures Words(Ascii, id, Camel, Pascal, 6, 10, true) == WordPass(p[6..], 11, false)
  {
    NormalizeCamelFrom7(id, p);
    LetterIsWordChar(id[6]);
    WordCharStep(Ascii, id, Camel, Pascal, 6, 10, true, p, 6, "A", 7, true, 11, false);
  }

  lemma {:induction false} NormalizeCamelFrom5(id: string, p: string)
    requires SpellsCamelSample(id)
    requires SpellsPascalSample(p)
    ensures Words(Ascii, id, Camel, Pascal, 5, 10, true) == WordPass(p[5..], 11, false)
  {
    NormalizeCamelFrom6(id, p);
    LetterIsWordChar(id[5]);
    WordCharStep(Ascii, id, Camel, Pascal, 5, 10, true, p, 5, "s", 6, true, 11, false);
  }

  lemma {:induction false} NormalizeCamelFrom4(id: string, p: string)
    requires SpellsCamelSample(id)
    requires SpellsPascalSample(p)
    ensures Words(Ascii, id, Camel, Pascal, 4, 10, true) == WordPass(p[4..], 11, false)
  {
    NormalizeCamelFrom5(id, p);
    LetterIsWordChar(id[4]);
    WordCharStep(Ascii, id, Camel, Pascal, 4, 10, true, p, 4, "I", 5, true, 11, false);
  }

  lemma {:induction false} NormalizeCamelFrom3(id: string, p: string)
    requires SpellsCamelSample(id)
    requires SpellsPascalSample(p)
    ensures Words(Ascii, id, Camel, Pascal, 3, 10, true) == WordPass(p[3..], 11, false)
  {
    NormalizeCamelFrom4(id, p);
    LetterIsWordChar(id[3]);
    WordCharStep(Ascii, id, Camel, Pascal, 3, 10, true, p, 3, "s", 4, true, 11, false);
  }

  lemma {:induction false} NormalizeCamelFrom2(id: string, p: string)
    requires SpellsCamelSample(id)
    requires SpellsPascalSample(p)
    ensures Words(Ascii, id, Camel, Pascal, 2, 10, true) == WordPass(p[2..], 11, false)
  {
    NormalizeCamelFrom3(id, p);
    LetterIsWordChar(id[2]);
    WordCharStep(Ascii, id, Camel, Pascal, 2, 10, true, p, 2, "i", 3, true, 11, false);
  }

  lemma {:induction false} NormalizeCamelFrom1(id: string, p: string)
    requires SpellsCamelSample(id)
    requires SpellsPascalSample(p)
    ensures Words(Ascii, id, Camel, Pascal, 1, 10, false) == WordPass(p[1..], 11, false)
  {
    NormalizeCamelFrom2(id, p);
    LetterIsWordChar(id[1]);
    WordCharStep(Ascii, id, Camel, Pascal, 1, 10, false, p, 1, "h", 2, true, 11, false);
  }

  /** The parts of the translation of "thisIsATest" into Pascal case. */
  lemma {:induction false} CamelSampleParts(id: string)
    requires SpellsCamelSample(id)
    ensures LastWordIndex(Ascii, id) == 10
    ensures CopyLeading(Ascii, id, true, 0) == Pass("T", 0)
    ensures CopyTrailing(Ascii, id, 11) == ""
  {
  }

  /** "thisIsATest" in Pascal case is "ThisIsATest". */
  lemma {:induction false} NormalizeCamelSample()
    ensures Translate(Ascii, CamelSample, Pascal) == Success(PascalSample)
  {
    CamelSampleSpelled();
    DetectCamelSample();
    CamelSampleWords(CamelSample);
    StyleFacts();
    TranslateFromWords(Ascii, CamelSample, Camel, Pascal, PascalSample);
  }

  lemma {:induction false} CamelSampleWords(id: string)
    requires SpellsCamelSample(id)
    ensures TranslateWords(Ascii, id, Camel, Pascal) == PascalSample
  {
    CamelSampleParts(id);
    PascalSampleSpelled();
    NormalizeCamelFrom1(id, PascalSample);
    PascalFromParts(Ascii, id, Camel, 10);
  }

  /** Reading "thisIsATest" gives "ThisIsATest" and leaves nothing unread. */
  lemma {:induction false} ReadCamelSample()
    ensures ReadNormalizedCaseIdentifier(Ascii, Some(CamelSample)) == Success(ReadResult(PascalSample, ""))
  {
    assert forall i :: 0 <= i < |CamelSample| ==> IdentifierChar(Ascii, CamelSample[i]);
    assert CamelSample + "" == CamelSample;
    ReadSplitsAtFirstNonIdentifierChar(Ascii, CamelSample, "");
    NormalizeCamelSample();
  }

  lemma {:induction false} NormalizeKebabFrom13(id: string, p: string)
    requires SpellsKebabSample(id)
    requires SpellsPascalSample(p)
    ensures Words(Ascii, id, Kebab, Pascal, 13, 13, true) == WordPass(p[10..], 14, false)
  {
    LetterIsWordChar(id[13]);
    WordCharStep(Ascii, id, Kebab, Pascal, 13, 13, true, p, 10, "t", 11, true, 14, false);
  }

  lemma {:induction false} NormalizeKebabFrom12(id: string, p: string)
    requires SpellsKebabSample(id)
    requires SpellsPascalSample(p)
    ensures Words(Ascii, id, Kebab, Pascal, 12, 13, true) == WordPass(p[9..], 14, false)
  {
    NormalizeKebabFrom13(id, p);
    LetterIsWordChar(id[12]);
    WordCharStep(Ascii, id, Kebab, Pascal, 12, 13, true, p, 9, "s", 10, true, 14, false);
  }

  lemma {:induction false} NormalizeKebabFrom11(id: string, p: string)
    requires SpellsKebabSample(id)
    requires SpellsPascalSample(p)
    ensures Words(Ascii, id, Kebab, Pascal, 11, 13, true) == WordPass(p[8..], 14, false)
  {
    NormalizeKebabFrom12(id, p);
    LetterIsWordChar(id[11]);
    WordCharStep(Ascii, id, Kebab, Pascal, 11, 13, true, p, 8, "e", 9, true, 14, false);
  }

  lemma {:induction false} NormalizeKebabFrom9(id: string, p: string)
    requires SpellsKebabSample(id)
    requires SpellsPascalSample(p)
    ensures Words(Ascii, id, Kebab, Pascal, 9, 13, true) == WordPass(p[7..], 14, false)
  {
    NormalizeKebabFrom11(id, p);
    SeparatorIsDecoration(id[9]);
    DecorationStep(Ascii, id, Kebab, Pascal, 9, 13, true, p, 7, "T", 8, true, 14, false);
  }

  lemma {:induction false} NormalizeKebabFrom7(id: string, p: string)
    requires SpellsKebabSample(id)
    requires SpellsPascalSample(p)
    ensures Words(Ascii, id, Kebab, Pascal, 7, 13, true) == WordPass(p[6..], 14, false)
  {
    NormalizeKebabFrom9(id, p);
    SeparatorIsDecoration(id[7]);
    DecorationStep(Ascii, id, Kebab, Pascal, 7, 13, true, p, 6, "A", 7, true, 14, false);
  }

  lemma {:induction false} NormalizeKebabFrom6(id: string, p: string)
    requires SpellsKebabSample(id)
    requires SpellsPascalSample(p)
    ensures Words(Ascii, id, Kebab, Pascal, 6, 13, true) == WordPass(p[5..], 14, false)
  {
    NormalizeKebabFrom7(id, p);
    LetterIsWordChar(id[6]);
    WordCharStep(Ascii, id, Kebab, Pascal, 6, 13, true, p, 5, "s", 6, true, 14, false);
  }

  lemma {:induction false} NormalizeKebabFrom4(id: string, p: string)
    requires SpellsKebabSample(id)
    requires SpellsPascalSample(p)
    ensures Words(Ascii, id, Kebab, Pascal, 4, 13, true) == WordPass(p[4..], 14, false)
  {
    NormalizeKebabFrom6(id, p);
    SeparatorIsDecoration(id[4]);
    DecorationStep(Ascii, id, Kebab, Pascal, 4, 13, true, p, 4, "I", 5, true, 14, false);
  }

  lemma {:induction false} NormalizeKebabFrom3(id: string, p: string)
    requires SpellsKebabSample(id)
    requires SpellsPascalSample(p)
    ensures Words(Ascii, id, Kebab, Pascal, 3, 13, true) == WordPass(p[3..], 14, false)
  {
    NormalizeKebabFrom4(id, p);
    LetterIsWordChar(id[3]);
    WordCharStep(Ascii, id, Kebab, Pascal, 3, 13, true, p, 3, "s", 4, true, 14, false);
  }

  lemma {:induction false} NormalizeKebabFrom2(id: string, p: string)
    requires SpellsKebabSample(id)
    requires SpellsPascalSample(p)
    ensures Words(Ascii, id, Kebab, Pascal, 2, 13, true) == WordPass(p[2..], 14, false)
  {
    NormalizeKebabFrom3(id, p);
    LetterIsWordChar(id[2]);
    WordCharStep(Ascii, id, Kebab, Pascal, 2, 13, true, p, 2, "i", 3, true, 14, false);
  }

  lemma {:induction false} NormalizeKebabFrom1(id: string, p: string)
    requires SpellsKebabSample(id)
    requires SpellsPascalSample(p)
    ensures Words(Ascii, id, Kebab, Pascal, 1, 13, false) == WordPass(p[1..], 14, false)
  {
    NormalizeKebabFrom2(id, p);
    LetterIsWordChar(id[1]);
    WordCharStep(Ascii, id, Kebab, Pascal, 1, 13, false, p, 1, "h", 2, true, 14, false);
  }

  /** The parts of the translation of "this-is-a-test" into Pascal case. */
  lemma {:induction false} KebabSampleParts(id: string)
    requires SpellsKebabSample(id)
    ensures LastWordIndex(Ascii, id) == 13
    ensures CopyLeading(Ascii, id, true, 0) == Pass("T", 0)
    ensures CopyTrailing(Ascii, id, 14) == ""
  {
  }

  /** "this-is-a-test" in Pascal case is "ThisIsATest". */
  lemma {:induction false} NormalizeKebabSample()
    ensures Translate(Ascii, KebabSample, Pascal) == Success(PascalSample)
  {
    KebabSampleSpelled();
    DetectKebabSample();
    KebabSampleWords(KebabSample);
    StyleFacts();
    TranslateFromWords(Ascii, KebabSample, Kebab, Pascal, PascalSample);
  }

  lemma {:induction false} KebabSampleWords(id: string)
    requires SpellsKebabSample(id)
    ensures TranslateWords(Ascii, id, Kebab, Pascal) == PascalSample
  {
    KebabSampleParts(id);
    PascalSampleSpelled();
    NormalizeKebabFrom1(id, PascalSample);
    PascalFromParts(Ascii, id, Kebab, 13);
  }

  /** Reading "this-is-a-test" gives "ThisIsATest" and leaves nothing unread. */
  lemma {:induction false} ReadKebabSample()
    ensures ReadNormalizedCaseIdentifier(Ascii, Some(KebabSample)) == Success(ReadResult(PascalSample, ""))
  {
    assert forall i :: 0 <= i < |KebabSample| ==> IdentifierChar(Ascii, KebabSample[i]);
    assert KebabSample + "" == KebabSample;
    ReadSplitsAtFirstNonIdentifierChar(Ascii, KebabSample, "");
    NormalizeKebabSample();
  }

  lemma {:induction false} NormalizeSnakeFrom13(id: string, p: string)
    requires SpellsSnakeSample(id)
    requires SpellsPascalSample(p)
    ensures Words(Ascii, id, Snake, Pascal, 13, 13, true) == WordPass(p[10..], 14, false)
  {
    LetterIsWordChar(id[13]);
    WordCharStep(Ascii, id, Snake, Pascal, 13, 13, true, p, 10, "t", 11, true, 14, false);
  }

  lemma {:induction false} NormalizeSnakeFrom12(id: string, p: string)
    requires SpellsSnakeSample(id)
    requires SpellsPascalSample(p)
    ensures Words(Ascii, id, Snake, Pascal, 12, 13, true) == WordPass(p[9..], 14, false)
  {
    NormalizeSnakeFrom13(id, p);
    LetterIsWordChar(id[12]);
    WordCharStep(Ascii, id, Snake, Pascal, 12, 13, true, p, 9, "s", 10, true, 14, false);
  }

  lemma {:induction false} NormalizeSnakeFrom11(id: string, p: string)
    requires SpellsSnakeSample(id)
    requires SpellsPascalSample(p)
    ensures Words(Ascii, id, Snake, Pascal, 11, 13, true) == WordPass(p[8..], 14, false)
  {
    NormalizeSnakeFrom12(id, p);
    LetterIsWordChar(id[11]);
    WordCharStep(Ascii, id, Snake, Pascal, 11, 13, true, p, 8, "e", 9, true, 14, false);
  }

  lemma {:induction false} NormalizeSnakeFrom9(id: string, p: string)
    requires SpellsSnakeSample(id)
    requires SpellsPascalSample(p)
    ensures Words(Ascii, id, Snake, Pascal, 9, 13, true) == WordPass(p[7..], 14, false)
  {
    NormalizeSnakeFrom11(id, p);
    SeparatorIsDecoration(id[9]);
    DecorationStep(Ascii, id, Snake, Pascal, 9, 13, true, p, 7, "T", 8, true, 14, false);
  }

  lemma {:induction false} NormalizeSnakeFrom7(id: string, p: string)
    requires SpellsSnakeSample(id)
    requires SpellsPascalSample(p)
    ensures Words(Ascii, id, Snake, Pascal, 7, 13, true) == WordPass(p[6..], 14, false)
  {
    NormalizeSnakeFrom9(id, p);
    SeparatorIsDecoration(id[7]);
    DecorationStep(Ascii, id, Snake, Pascal, 7, 13, true, p, 6, "A", 7, true, 14, false);
  }

  lemma {:induction false} NormalizeSnakeFrom6(id: string, p: string)
    requires SpellsSnakeSample(id)
    requires SpellsPascalSample(p)
    ensures Words(Ascii, id, Snake, Pascal, 6, 13, true) == WordPass(p[5..], 14, false)
  {
    NormalizeSnakeFrom7(id, p);
    LetterIsWordChar(id[6]);
    WordCharStep(Ascii, id, Snake, Pascal, 6, 13, true, p, 5, "s", 6, true, 14, false);
  }

  lemma {:induction false} NormalizeSnakeFrom4(id: string, p: string)
    requires SpellsSnakeSample(id)
    requires SpellsPascalSample(p)
    ensures Words(Ascii, id, Snake, Pascal, 4, 13, true) == WordPass(p[4..], 14, false)
  {
    NormalizeSnakeFrom6(id, p);
    SeparatorIsDecoration(id[4]);
    DecorationStep(Ascii, id, Snake, Pascal, 4, 13, true, p, 4, "I", 5, true, 14, false);
  }

  lemma {:induction false} NormalizeSnakeFrom3(id: string, p: string)
    requires SpellsSnakeSample(id)
    requires SpellsPascalSample(p)
    ensures Words(Ascii, id, Snake, Pascal, 3, 13, true) == WordPass(p[3..], 14, false)
  {
    NormalizeSnakeFrom4(id, p);
    LetterIsWordChar(id[3]);
    WordCharStep(Ascii, id, Snake, Pascal, 3, 13, true, p, 3, "s", 4, true, 14, false);
  }

  lemma {:induction false} NormalizeSnakeFrom2(id: string, p: string)
    requires SpellsSnakeSample(id)
    requires SpellsPascalSample(p)
    ensures Words(Ascii, id, Snake, Pascal, 2, 13, true) == WordPass(p[2..], 14, false)
  {
    NormalizeSnakeFrom3(id, p);
    LetterIsWordChar(id[2]);
    WordCharStep(Ascii, id, Snake, Pascal, 2, 13, true, p, 2, "i", 3, true, 14, false);
  }

  lemma {:induction false} NormalizeSnakeFrom1(id: string, p: string)
    requires SpellsSnakeSample(id)
    requires SpellsPascalSample(p)
    ensures Words(Ascii, id, Snake, Pascal, 1, 13, false) == WordPass(p[1..], 14, false)
  {
    NormalizeSnakeFrom2(id, p);
    LetterIsWordChar(id[1]);
    WordCharStep(Ascii, id, Snake, Pascal, 1, 13, false, p, 1, "h", 2, true, 14, false);
  }

  /** The parts of the translation of "this_is_a_test" into Pascal case. */
  lemma {:induction false} SnakeSampleParts(id: string)
    requires SpellsSnakeSample(id)
    ensures LastWordIndex(Ascii, id) == 13
    ensures CopyLeading(Ascii, id, true, 0) == Pass("T", 0)
    ensures CopyTrailing(Ascii, id, 14) == ""
  {
  }

  /** "this_is_a_test" in Pascal case is "ThisIsATest". */
  lemma {:induction false} NormalizeSnakeSample()
    ensures Translate(Ascii, SnakeSample, Pascal) == Success(PascalSample)
  {
    SnakeSampleSpelled();
    DetectSnakeSample();
    SnakeSampleWords(SnakeSample);
    StyleFacts();
    TranslateFromWords(Ascii, SnakeSample, Snake, Pascal, PascalSample);
  }

  lemma {:induction false} SnakeSampleWords(id: string)
    requires SpellsSnakeSample(id)
    ensures TranslateWords(Ascii, id, Snake, Pascal) == PascalSample
  {
    SnakeSampleParts(id);
    PascalSampleSpelled();
    NormalizeSnakeFrom1(id, PascalSample);
    PascalFromParts(Ascii, id, Snake, 13);
  }

  /** Reading "this_is_a_test" gives "ThisIsATest" and leaves nothing unread. */
  lemma {:induction false} ReadSnakeSample()
    ensures ReadNormalizedCaseIdentifier(Ascii, Some(SnakeSample)) == Success(ReadResult(PascalSample, ""))
  {
    assert forall i :: 0 <= i < |SnakeSample| ==> IdentifierChar(Ascii, SnakeSample[i]);
    assert SnakeSample + "" == SnakeSample;
    ReadSplitsAtFirstNonIdentifierChar(Ascii, SnakeSample, "");
    NormalizeSnakeSample();
  }

  lemma {:induction false} NormalizeCobolFrom13(id: string, p: string)
    requires SpellsCobolSample(id)
    requires SpellsPascalSample(p)
    ensures Words(Ascii, id, Cobol, Pascal, 13, 13, false) == WordPass(p[10..], 14, false)
  {
    LetterIsWordChar(id[13]);
    WordCharStep(Ascii, id, Cobol, Pascal, 13, 13, false, p, 10, "t", 11, false, 14, false);
  }

  lemma {:induction false} NormalizeCobolFrom12(id: string, p: string)
    requires SpellsCobolSample(id)
    requires SpellsPascalSample(p)
    ensures Words(Ascii, id, Cobol, Pascal, 12, 13, false) == WordPass(p[9..], 14, false)
  {
    NormalizeCobolFrom13(id, p);
    LetterIsWordChar(id[12]);
    WordCharStep(Ascii, id, Cobol, Pascal, 12, 13, false, p, 9, "s", 10, false, 14, false);
  }

  lemma {:induction false} NormalizeCobolFrom11(id: string, p: string)
    requires SpellsCobolSample(id)
    requires SpellsPascalSample(p)
    ensures Words(Ascii, id, Cobol, Pascal, 11, 13, false) == WordPass(p[8..], 14, false)
  {
    NormalizeCobolFrom12(id, p);
    LetterIsWordChar(id[11]);
    WordCharStep(Ascii, id, Cobol, Pascal, 11, 13, false, p, 8, "e", 9, false, 14, false);
  }

  lemma {:induction false} NormalizeCobolFrom9(id: string, p: string)
    requires SpellsCobolSample(id)
    requires SpellsPascalSample(p)
    ensures Words(Ascii, id, Cobol, Pascal, 9, 13, false) == WordPass(p[7..], 14, false)
  {
    NormalizeCobolFrom11(id, p);
    SeparatorIsDecoration(id[9]);
    DecorationStep(Ascii, id, Cobol, Pascal, 9, 13, false, p, 7, "T", 8, false, 14, false);
  }

  lemma {:induction false} NormalizeCobolFrom7(id: string, p: string)
    requires SpellsCobolSample(id)
    requires SpellsPascalSample(p)
    ensures Words(Ascii, id, Cobol, Pascal, 7, 13, false) == WordPass(p[6..], 14, false)
  {
    NormalizeCobolFrom9(id, p);
    SeparatorIsDecoration(id[7]);
    DecorationStep(Ascii, id, Cobol, Pascal, 7, 13, false, p, 6, "A", 7, false, 14, false);
  }

  lemma {:induction false} NormalizeCobolFrom6(id: string, p: string)
    requires SpellsCobolSample(id)
    requires SpellsPascalSample(p)
    ensures Words(Ascii, id, Cobol, Pascal, 6, 13, false) == WordPass(p[5..], 14, false)
  {
    NormalizeCobolFrom7(id, p);
    LetterIsWordChar(id[6]);
    WordCharStep(Ascii, id, Cobol, Pascal, 6, 13, false, p, 5, "s", 6, false, 14, false);
  }

  lemma {:induction false} NormalizeCobolFrom4(id: string, p: string)
    requires SpellsCobolSample(id)
    requires SpellsPascalSample(p)
    ensures Words(Ascii, id, Cobol, Pascal, 4, 13, false) == WordPass(p[4..], 14, false)
  {
    NormalizeCobolFrom6(id, p);
    SeparatorIsDecoration(id[4]);
    DecorationStep(Ascii, id, Cobol, Pascal, 4, 13, false, p, 4, "I", 5, false, 14, false);
  }

  lemma {:induction false} NormalizeCobolFrom3(id: string, p: string)
    requires SpellsCobolSample(id)
    requires SpellsPascalSample(p)
    ensures Words(Ascii, id, Cobol, Pascal, 3, 13, false) == WordPass(p[3..], 14, false)
  {
    NormalizeCobolFrom4(id, p);
    LetterIsWordChar(id[3]);
    WordCharStep(Ascii, id, Cobol, Pascal, 3, 13, false, p, 3, "s", 4, false, 14, false);
  }

  lemma {:induction false} NormalizeCobolFrom2(id: string, p: string)
    requires SpellsCobolSample(id)
    requires SpellsPascalSample(p)
    ensures Words(Ascii, id, Cobol, Pascal, 2, 13, false) == WordPass(p[2..], 14, false)
  {
    NormalizeCobolFrom3(id, p);
    LetterIsWordChar(id[2]);
    WordCharStep(Ascii, id, Cobol, Pascal, 2, 13, false, p, 2, "i", 3, false, 14, false);
  }

  lemma {:induction false} NormalizeCobolFrom1(id: string, p: string)
    requires SpellsCobolSample(id)
    requires SpellsPascalSample(p)
    ensures Words(Ascii, id, Cobol, Pascal, 1, 13, false) == WordPass(p[1..], 14, false)
  {
    NormalizeCobolFrom2(id, p);
    LetterIsWordChar(id[1]);
    WordCharStep(Ascii, id, Cobol, Pascal, 1, 13, false, p, 1, "h", 2, false, 14, false);
  }

  /** The parts of the translation of "THIS-IS-A-TEST" into Pascal case. */
  lemma {:induction false} CobolSampleParts(id: string)
    requires SpellsCobolSample(id)
    ensures LastWordIndex(Ascii, id) == 13
    ensures CopyLeading(Ascii, id, true, 0) == Pass("T", 0)
    ensures CopyTrailing(Ascii, id, 14) == ""
  {
  }

  /** "THIS-IS-A-TEST" in Pascal case is "ThisIsATest". */
  lemma {:induction false} NormalizeCobolSample()
    ensures Translate(Ascii, CobolSample, Pascal) == Success(PascalSample)
  {
    CobolSampleSpelled();
    DetectCobolSample();
    CobolSampleWords(CobolSample);
    StyleFacts();
    TranslateFromWords(Ascii, CobolSample, Cobol, Pascal, PascalSample);
  }

  lemma {:induction false} CobolSampleWords(id: string)
    requires SpellsCobolSample(id)
    ensures TranslateWords(Ascii, id, Cobol, Pascal) == PascalSample
  {
    CobolSampleParts(id);
    PascalSampleSpelled();
    NormalizeCobolFrom1(id, PascalSample);
    PascalFromParts(Ascii, id, Cobol, 13);
  }

  /** Reading "THIS-IS-A-TEST" gives "ThisIsATest" and leaves nothing unread. */
  lemma {:induction false} ReadCobolSample()
    ensures ReadNormalizedCaseIdentifier(Ascii, Some(CobolSample)) == Success(ReadResult(PascalSample, ""))
  {
    assert forall i :: 0 <= i < |CobolSample| ==> IdentifierChar(Ascii, CobolSample[i]);
    assert CobolSample + "" == CobolSample;
    ReadSplitsAtFirstNonIdentifierChar(Ascii, CobolSample, "");
    NormalizeCobolSample();
  }

  lemma {:induction false} NormalizeMacroFrom13(id: string, p: string)
    requires SpellsMacroSample(id)
    requires SpellsPascalSample(p)
    ensures Words(Ascii, id, Macro, Pascal, 13, 13, false) == WordPass(p[10..], 14, false)
  {
    LetterIsWordChar(id[13]);
    WordCharStep(Ascii, id, Macro, Pascal, 13, 13, false, p, 10, "t", 11, false, 14, false);
  }

  lemma {:induction false} NormalizeMacroFrom12(id: string, p: string)
    requires SpellsMacroSample(id)
    requires SpellsPascalSample(p)
    ensures Words(Ascii, id, Macro, Pascal, 12, 13, false) == WordPass(p[9..], 14, false)
  {
    NormalizeMacroFrom13(id, p);
    LetterIsWordChar(id[12]);
    WordCharStep(Ascii, id, Macro, Pascal, 12, 13, false, p, 9, "s", 10, false, 14, false);
  }

  lemma {:induction false} NormalizeMacroFrom11(id: string, p: string)
    requires SpellsMacroSample(id)
    requires SpellsPascalSample(p)
    ensures Words(Ascii, id, Macro, Pascal, 11, 13, false) == WordPass(p[8..], 14, false)
  {
    NormalizeMacroFrom12(id, p);
    LetterIsWordChar(id[11]);
    WordCharStep(Ascii, id, Macro, Pascal, 11, 13, false, p, 8, "e", 9, false, 14, false);
  }

  lemma {:induction false} NormalizeMacroFrom9(id: string, p: string)
    requires SpellsMacroSample(id)
    requires SpellsPascalSample(p)
    ensures Words(Ascii, id, Macro, Pascal, 9, 13, false) == WordPass(p[7..], 14, false)
  {
    NormalizeMacroFrom11(id, p);
    SeparatorIsDecoration(id[9]);
    DecorationStep(Ascii, id, Macro, Pascal, 9, 13, false, p, 7, "T", 8, false, 14, false);
  }

  lemma {:induction false} NormalizeMacroFrom7(id: string, p: string)
    requires SpellsMacroSample(id)
    requires SpellsPascalSample(p)
    ensures Words(Ascii, id, Macro, Pascal, 7, 13, false) == WordPass(p[6..], 14, false)
  {
    NormalizeMacroFrom9(id, p);
    SeparatorIsDecoration(id[7]);
    DecorationStep(Ascii, id, Macro, Pascal, 7, 13, false, p, 6, "A", 7, false, 14, false);
  }

  lemma {:induction false} NormalizeMacroFrom6(id: string, p: string)
    requires SpellsMacroSample(id)
    requires SpellsPascalSample(p)
    ensures Words(Ascii, id, Macro, Pascal, 6, 13, false) == WordPass(p[5..], 14, false)
  {
    NormalizeMacroFrom7(id, p);
    LetterIsWordChar(id[6]);
    WordCharStep(Ascii, id, Macro, Pascal, 6, 13, false, p, 5, "s", 6, false, 14, false);
  }

  lemma {:induction false} NormalizeMacroFrom4(id: string, p: string)
    requires SpellsMacroSample(id)
    requires SpellsPascalSample(p)
    ensures Words(Ascii, id, Macro, Pascal, 4, 13, false) == WordPass(p[4..], 14, false)
  {
    NormalizeMacroFrom6(id, p);
    SeparatorIsDecoration(id[4]);
    DecorationStep(Ascii, id, Macro, Pascal, 4, 13, false, p, 4, "I", 5, false, 14, false);
  }

  lemma {:induction false} NormalizeMacroFrom3(id: string, p: string)
    requires SpellsMacroSample(id)
    requires SpellsPascalSample(p)
    ensures Words(Ascii, id, Macro, Pascal, 3, 13, false) == WordPass(p[3..], 14, false)
  {
    NormalizeMacroFrom4(id, p);
    LetterIsWordChar(id[3]);
    WordCharStep(Ascii, id, Macro, Pascal, 3, 13, false, p, 3, "s", 4, false, 14, false);
  }

  lemma {:induction false} NormalizeMacroFrom2(id: string, p: string)
    requires SpellsMacroSample(id)
    requires SpellsPascalSample(p)
    ensures Words(Ascii, id, Macro, Pascal, 2, 13, false) == WordPass(p[2..], 14, false)
  {
    NormalizeMacroFrom3(id, p);
    LetterIsWordChar(id[2]);
    WordCharStep(Ascii, id, Macro, Pascal, 2, 13, false, p, 2, "i", 3, false, 14, false);
  }

  lemma {:induction false} NormalizeMacroFrom1(id: string, p: string)
    requires SpellsMacroSample(id)
    requires SpellsPascalSample(p)
    ensures Words(Ascii, id, Macro, Pascal, 1, 13, false) == WordPass(p[1..], 14, false)
  {
    NormalizeMacroFrom2(id, p);
    LetterIsWordChar(id[1]);
    WordCharStep(Ascii, id, Macro, Pascal, 1, 13, false, p, 1, "h", 2, false, 14, false);
  }

  /** The parts of the translation of "THIS_IS_A_TEST" into Pascal case. */
  lemma {:induction false} MacroSampleParts(id: string)
    requires SpellsMacroSample(id)
    ensures LastWordIndex(Ascii, id) == 13
    ensures CopyLeading(Ascii, id, true, 0) == Pass("T", 0)
    ensures CopyTrailing(Ascii, id, 14) == ""
  {
  }

  /** "THIS_IS_A_TEST" in Pascal case is "ThisIsATest". */
  lemma {:induction false} NormalizeMacroSample()
    ensures Translate(Ascii, MacroSample, Pascal) == Success(PascalSample)
  {
    MacroSampleSpelled();
    DetectMacroSample();
    MacroSampleWords(MacroSample);
    StyleFacts();
    TranslateFromWords(Ascii, MacroSample, Macro, Pascal, PascalSample);
  }

  lemma {:induction false} MacroSampleWords(id: string)
    requires SpellsMacroSample(id)
    ensures TranslateWords(Ascii, id, Macro, Pascal) == PascalSample
  {
    MacroSampleParts(id);
    PascalSampleSpelled();
    NormalizeMacroFrom1(id, PascalSample);
    PascalFromParts(Ascii, id, Macro, 13);
  }

  /** Reading "THIS_IS_A_TEST" gives "ThisIsATest" and leaves nothing unread. */
  lemma {:induction false} ReadMacroSample()
    ensures ReadNormalizedCaseIdentifier(Ascii, Some(MacroSample)) == Success(ReadResult(PascalSample, ""))
  {
    assert forall i :: 0 <= i < |MacroSample| ==> IdentifierChar(Ascii, MacroSample[i]);
    assert MacroSample + "" == MacroSample;
    ReadSplitsAtFirstNonIdentifierChar(Ascii, MacroSample, "");
    NormalizeMacroSample();
  }

  lemma {:induction false} NormalizeTrainFrom13(id: string, p: string)
    requires SpellsTrainSample(id)
    requires SpellsPascalSample(p)
    ensures Words(Ascii, id, Train, Pascal, 13, 13, true) == WordPass(p[10..], 14, false)
  {
    LetterIsWordChar(id[13]);
    WordCharStep(Ascii, id, Train, Pascal, 13, 13, true, p, 10, "t", 11, true, 14, false);
  }

  lemma {:induction false} NormalizeTrainFrom12(id: string, p: string)
    requires SpellsTrainSample(id)
    requires SpellsPascalSample(p)
    ensures Words(Ascii, id, Train, Pascal, 12, 13, true) == WordPass(p[9..], 14, false)
  {
    NormalizeTrainFrom13(id, p);
    LetterIsWordChar(id[12]);
    WordCharStep(Ascii, id, Train, Pascal, 12, 13, true, p, 9, "s", 10, true, 14, false);
  }

  lemma {:induction false} NormalizeTrainFrom11(id: string, p: string)
    requires SpellsTrainSample(id)
    requires SpellsPascalSample(p)
    ensures Words(Ascii, id, Train, Pascal, 11, 13, false) == WordPass(p[8..], 14, false)
  {
    NormalizeTrainFrom12(id, p);
    LetterIsWordChar(id[11]);
    WordCharStep(Ascii, id, Train, Pascal, 11, 13, false, p, 8, "e", 9, true, 14, false);
  }

  lemma {:induction false} NormalizeTrainFrom9(id: string, p: string)
    requires SpellsTrainSample(id)
    requires SpellsPascalSample(p)
    ensures Words(Ascii, id, Train, Pascal, 9, 13, false) == WordPass(p[7..], 14, false)
  {
    NormalizeTrainFrom11(id, p);
    SeparatorIsDecoration(id[9]);
    DecorationStep(Ascii, id, Train, Pascal, 9, 13, false, p, 7, "T", 8, false, 14, false);
  }

  lemma {:induction false} NormalizeTrainFrom7(id: string, p: string)
    requires SpellsTrainSample(id)
    requires SpellsPascalSample(p)
    ensures Words(Ascii, id, Train, Pascal, 7, 13, true) == WordPass(p[6..], 14, false)
  {
    NormalizeTrainFrom9(id, p);
    SeparatorIsDecoration(id[7]);
    DecorationStep(Ascii, id, Train, Pascal, 7, 13, true, p, 6, "A", 7, false, 14, false);
  }

  lemma {:induction false} NormalizeTrainFrom6(id: string, p: string)
    requires SpellsTrainSample(id)
    requires SpellsPascalSample(p)
    ensures Words(Ascii, id, Train, Pascal, 6, 13, false) == WordPass(p[5..], 14, false)
  {
    NormalizeTrainFrom7(id, p);
    LetterIsWordChar(id[6]);
    WordCharStep(Ascii, id, Train, Pascal, 6, 13, false, p, 5, "s", 6, true, 14, false);
  }

  lemma {:induction false} NormalizeTrainFrom4(id: string, p: string)
    requires SpellsTrainSample(id)
    requires SpellsPascalSample(p)
    ensures Words(Ascii, id, Train, Pascal, 4, 13, true) == WordPass(p[4..], 14, false)
  {
    NormalizeTrainFrom6(id, p);
    SeparatorIsDecoration(id[4]);
    DecorationStep(Ascii, id, Train, Pascal, 4, 13, true, p, 4, "I", 5, false, 14, false);
  }

  lemma {:induction false} NormalizeTrainFrom3(id: string, p: string)
    requires SpellsTrainSample(id)
    requires SpellsPascalSample(p)
    ensures Words(Ascii, id, Train, Pascal, 3, 13, true) == WordPass(p[3..], 14, false)
  {
    NormalizeTrainFrom4(id, p);
    LetterIsWordChar(id[3]);
    WordCharStep(Ascii, id, Train, Pascal, 3, 13, true, p, 3, "s", 4, true, 14, false);
  }

  lemma {:induction false} NormalizeTrainFrom2(id: string, p: string)
    requires SpellsTrainSample(id)
    requires SpellsPascalSample(p)
    ensures Words(Ascii, id, Train, Pascal, 2, 13, true) == WordPass(p[2..], 14, false)
  {
    NormalizeTrainFrom3(id, p);
    LetterIsWordChar(id[2]);
    WordCharStep(Ascii, id, Train, Pascal, 2, 13, true, p, 2, "i", 3, true, 14, false);
  }

  lemma {:induction false} NormalizeTrainFrom1(id: string, p: string)
    requires SpellsTrainSample(id)
    requires SpellsPascalSample(p)
    ensures Words(Ascii, id, Train, Pascal, 1, 13, false) == WordPass(p[1..], 14, false)
  {
    NormalizeTrainFrom2(id, p);
    LetterIsWordChar(id[1]);
    WordCharStep(Ascii, id, Train, Pascal, 1, 13, false, p, 1, "h", 2, true, 14, false);
  }

  /** The parts of the translation of "This-Is-A-Test" into Pascal case. */
  lemma {:induction false} TrainSampleParts(id: string)
    requires SpellsTrainSample(id)
    ensures LastWordIndex(Ascii, id) == 13
    ensures CopyLeading(Ascii, id, true, 0) == Pass("T", 0)
    ensures CopyTrailing(Ascii, id, 14) == ""
  {
  }

  /** "This-Is-A-Test" in Pascal case is "ThisIsATest". */
  lemma {:induction false} NormalizeTrainSample()
    ensures Translate(Ascii, TrainSample, Pascal) == Success(PascalSample)
  {
    TrainSampleSpelled();
    DetectTrainSample();
    TrainSampleWords(TrainSample);
    StyleFacts();
    TranslateFromWords(Ascii, TrainSample, Train, Pascal, PascalSample);
  }

  lemma {:induction false} TrainSampleWords(id: string)
    requires SpellsTrainSample(id)
    ensures TranslateWords(Ascii, id, Train, Pascal) == PascalSample
  {
    TrainSampleParts(id);
    PascalSampleSpelled();
    NormalizeTrainFrom1(id, PascalSample);
    PascalFromParts(Ascii, id, Train, 13);
  }

  /** Reading "This-Is-A-Test" gives "ThisIsATest" and leaves nothing unread. */
  lemma {:induction false} ReadTrainSample()
    ensures ReadNormalizedCaseIdentifier(Ascii, Some(TrainSample)) == Success(ReadResult(PascalSample, ""))
  {
    assert forall i :: 0 <= i < |TrainSample| ==> IdentifierChar(Ascii, TrainSample[i]);
    assert TrainSample + "" == TrainSample;
    ReadSplitsAtFirstNonIdentifierChar(Ascii, TrainSample, "");
    NormalizeTrainSample();
  }

  lemma {:induction false} NormalizeSpreadsheetFrom13(id: string, p: string)
    requires SpellsSpreadsheetSample(id)
    requires SpellsPascalSample(p)
    ensures Words(Ascii, id, Spreadsheet, Pascal, 13, 13, true) == WordPass(p[10..], 14, false)
  {
    LetterIsWordChar(id[13]);
    WordCharStep(Ascii, id, Spreadsheet, Pascal, 13, 13, true, p, 10, "t", 11, true, 14, false);
  }

  lemma {:induction false} NormalizeSpreadsheetFrom12(id: string, p: string)
    requires SpellsSpreadsheetSample(id)
    requires SpellsPascalSample(p)
    ensures Words(Ascii, id, Spreadsheet, Pascal, 12, 13, true) == WordPass(p[9..], 14, false)
  {
    NormalizeSpreadsheetFrom13(id, p);
    LetterIsWordChar(id[12]);
    WordCharStep(Ascii, id, Spreadsheet, Pascal, 12, 13, true, p, 9, "s", 10, true, 14, false);
  }

  lemma {:induction false} NormalizeSpreadsheetFrom11(id: string, p: string)
    requires SpellsSpreadsheetSample(id)
    requires SpellsPascalSample(p)
    ensures Words(Ascii, id, Spreadsheet, Pascal, 11, 13, false) == WordPass(p[8..], 14, false)
  {
    NormalizeSpreadsheetFrom12(id, p);
    LetterIsWordChar(id[11]);
    WordCharStep(Ascii, id, Spreadsheet, Pascal, 11, 13, false, p, 8, "e", 9, true, 14, false);
  }

  lemma {:induction false} NormalizeSpreadsheetFrom9(id: string, p: string)
    requires SpellsSpreadsheetSample(id)
    requires SpellsPascalSample(p)
    ensures Words(Ascii, id, Spreadsheet, Pascal, 9, 13, false) == WordPass(p[7..], 14, false)
  {
    NormalizeSpreadsheetFrom11(id, p);
    SeparatorIsDecoration(id[9]);
    DecorationStep(Ascii, id, Spreadsheet, Pascal, 9, 13, false, p, 7, "T", 8, false, 14, false);
  }

  lemma {:induction false} NormalizeSpreadsheetFrom7(id: string, p: string)
    requires SpellsSpreadsheetSample(id)
    requires SpellsPascalSample(p)
    ensures Words(Ascii, id, Spreadsheet, Pascal, 7, 13, true) == WordPass(p[6..], 14, false)
  {
    NormalizeSpreadsheetFrom9(id, p);
    SeparatorIsDecoration(id[7]);
    DecorationStep(Ascii, id, Spreadsheet, Pascal, 7, 13, true, p, 6, "A", 7, false, 14, false);
  }

  lemma {:induction false} NormalizeSpreadsheetFrom6(id: string, p: string)
    requires SpellsSpreadsheetSample(id)
    requires SpellsPascalSample(p)
    ensures Words(Ascii, id, Spreadsheet, Pascal, 6, 13, false) == WordPass(p[5..], 14, false)
  {
    NormalizeSpreadsheetFrom7(id, p);
    LetterIsWordChar(id[6]);
    WordCharStep(Ascii, id, Spreadsheet, Pascal, 6, 13, false, p, 5, "s", 6, true, 14, false);
  }

  lemma {:induction false} NormalizeSpreadsheetFrom4(id: string, p: string)
    requires SpellsSpreadsheetSample(id)
    requires SpellsPascalSample(p)
    ensures Words(Ascii, id, Spreadsheet, Pascal, 4, 13, true) == WordPass(p[4..], 14, false)
  {
    NormalizeSpreadsheetFrom6(id, p);
    SeparatorIsDecoration(id[4]);
    DecorationStep(Ascii, id, Spreadsheet, Pascal, 4, 13, true, p, 4, "I", 5, false, 14, false);
  }

  lemma {:induction false} NormalizeSpreadsheetFrom3(id: string, p: string)
    requires SpellsSpreadsheetSample(id)
    requires SpellsPascalSample(p)
    ensures Words(Ascii, id, Spreadsheet, Pascal, 3, 13, true) == WordPass(p[3..], 14, false)
  {
    NormalizeSpreadsheetFrom4(id, p);
    LetterIsWordChar(id[3]);
    WordCharStep(Ascii, id, Spreadsheet, Pascal, 3, 13, true, p, 3, "s", 4, true, 14, false);
  }

  lemma {:induction false} NormalizeSpreadsheetFrom2(id: string, p: string)
    requires SpellsSpreadsheetSample(id)
    requires SpellsPascalSample(p)
    ensures Words(Ascii, id, Spreadsheet, Pascal, 2, 13, true) == WordPass(p[2..], 14, false)
  {
    NormalizeSpreadsheetFrom3(id, p);
    LetterIsWordChar(id[2]);
    WordCharStep(Ascii, id, Spreadsheet, Pascal, 2, 13, true, p, 2, "i", 3, true, 14, false);
  }

  lemma {:induction false} NormalizeSpreadsheetFrom1(id: string, p: string)
    requires SpellsSpreadsheetSample(id)
    requires SpellsPascalSample(p)
    ensures Words(Ascii, id, Spreadsheet, Pascal, 1, 13, false) == WordPass(p[1..], 14, false)
  {
    NormalizeSpreadsheetFrom2(id, p);
    LetterIsWordChar(id[1]);
    WordCharStep(Ascii, id, Spreadsheet, Pascal, 1, 13, false, p, 1, "h", 2, true, 14, false);
  }

  /** The parts of the translation of "This Is A Test" into Pascal case. */
  lemma {:induction false} SpreadsheetSampleParts(id: string)
    requires SpellsSpreadsheetSample(id)
    ensures LastWordIndex(Ascii, id) == 13
    ensures CopyLeading(Ascii, id, true, 0) == Pass("T", 0)
    ensures CopyTrailing(Ascii, id, 14) == ""
  {
  }

  /** "This Is A Test" in Pascal case is "ThisIsATest". */
  lemma {:induction false} NormalizeSpreadsheetSample()
    ensures Translate(Ascii, SpreadsheetSample, Pascal) == Success(PascalSample)
  {
    SpreadsheetSampleSpelled();
    DetectSpreadsheetSample();
    SpreadsheetSampleWords(SpreadsheetSample);
    StyleFacts();
    TranslateFromWords(Ascii, SpreadsheetSample, Spreadsheet, Pascal, PascalSample);
  }

  lemma {:induction false} SpreadsheetSampleWords(id: string)
    requires SpellsSpreadsheetSample(id)
    ensures TranslateWords(Ascii, id, Spreadsheet, Pascal) == PascalSample
  {
    SpreadsheetSampleParts(id);
    PascalSampleSpelled();
    NormalizeSpreadsheetFrom1(id, PascalSample);
    PascalFromParts(Ascii, id, Spreadsheet, 13);
  }

  /** Reading "This Is A Test" gives "ThisIsATest" and leaves nothing unread. */
  lemma {:induction false} ReadSpreadsheetSample()
    ensures ReadNormalizedCaseIdentifier(Ascii, Some(SpreadsheetSample)) == Success(ReadResult(PascalSample, ""))
  {
    assert forall i :: 0 <= i < |SpreadsheetSample| ==> IdentifierChar(Ascii, SpreadsheetSample[i]);
    assert SpreadsheetSample + "" == SpreadsheetSample;
    ReadSplitsAtFirstNonIdentifierChar(Ascii, SpreadsheetSample, "");
    NormalizeSpreadsheetSample();
  }

  lemma {:induction false} NormalizeMixedFrom12(id: string, p: string)
    requires SpellsMixedSample(id)
    requires SpellsPascalSample(p)
    ensures Words(Ascii, id, Mixed, Pascal, 12, 12, true) == WordPass(p[10..], 13, false)
  {
    LetterIsWordChar(id[12]);
    WordCharStep(Ascii, id, Mixed, Pascal, 12, 12, true, p, 10, "t", 11, true, 13, false);
  }

  lemma {:induction false} NormalizeMixedFrom11(id: string, p: string)
    requires SpellsMixedSample(id)
    requires SpellsPascalSample(p)
    ensures Words(Ascii, id, Mixed, Pascal, 11, 12, true) == WordPass(p[9..], 13, false)
  {
    NormalizeMixedFrom12(id, p);
    LetterIsWordChar(id[11]);
    WordCharStep(Ascii, id, Mixed, Pascal, 11, 12, true, p, 9, "s", 10, true, 13, false);
  }

  lemma {:induction false} NormalizeMixedFrom10(id: string, p: string)
    requires SpellsMixedSample(id)
    requires SpellsPascalSample(p)
    ensures Words(Ascii, id, Mixed, Pascal, 10, 12, true) == WordPass(p[8..], 13, false)
  {
    NormalizeMixedFrom11(id, p);
    LetterIsWordChar(id[10]);
    WordCharStep(Ascii, id, Mixed, Pascal, 10, 12, true, p, 8, "e", 9, true, 13, false);
  }

  lemma {:induction false} NormalizeMixedFrom9(id: string, p: string)
    requires SpellsMixedSample(id)
    requires SpellsPascalSample(p)
    ensures Words(Ascii, id, Mixed, Pascal, 9, 12, true) == WordPass(p[7..], 13, false)
  {
    NormalizeMixedFrom10(id, p);
    LetterIsWordChar(id[9]);
    WordCharStep(Ascii, id, Mixed, Pascal, 9, 12, true, p, 7, "T", 8, true, 13, false);
  }

  lemma {:induction false} NormalizeMixedFrom7(id: string, p: string)
    requires SpellsMixedSample(id)
    requires SpellsPascalSample(p)
    ensures Words(Ascii, id, Mixed, Pascal, 7, 12, true) == WordPass(p[6..], 13, false)
  {
    NormalizeMixedFrom9(id, p);
    SeparatorIsDecoration(id[7]);
    DecorationStep(Ascii, id, Mixed, Pascal, 7, 12, true, p, 6, "A", 7, true, 13, false);
  }

  lemma {:induction false} NormalizeMixedFrom6(id: string, p: string)
    requires SpellsMixedSample(id)
    requires SpellsPascalSample(p)
    ensures Words(Ascii, id, Mixed, Pascal, 6, 12, false) == WordPass(p[5..], 13, false)
  {
    NormalizeMixedFrom7(id, p);
    LetterIsWordChar(id[6]);
    WordCharStep(Ascii, id, Mixed, Pascal, 6, 12, false, p, 5, "s", 6, true, 13, false);
  }

  lemma {:induction false} NormalizeMixedFrom4(id: string, p: string)
    requires SpellsMixedSample(id)
    requires SpellsPascalSample(p)
    ensures Words(Ascii, id, Mixed, Pascal, 4, 12, true) == WordPass(p[4..], 13, false)
  {
    NormalizeMixedFrom6(id, p);
    SeparatorIsDecoration(id[4]);
    DecorationStep(Ascii, id, Mixed, Pascal, 4, 12, true, p, 4, "I", 5, false, 13, false);
  }

  lemma {:induction false} NormalizeMixedFrom3(id: string, p: string)
    requires SpellsMixedSample(id)
    requires SpellsPascalSample(p)
    ensures Words(Ascii, id, Mixed, Pascal, 3, 12, true) == WordPass(p[3..], 13, false)
  {
    NormalizeMixedFrom4(id, p);
    LetterIsWordChar(id[3]);
    WordCharStep(Ascii, id, Mixed, Pascal, 3, 12, true, p, 3, "s", 4, true, 13, false);
  }

  lemma {:induction false} NormalizeMixedFrom2(id: string, p: string)
    requires SpellsMixedSample(id)
    requires SpellsPascalSample(p)
    ensures Words(Ascii, id, Mixed, Pascal, 2, 12, true) == WordPass(p[2..], 13, false)
  {
    NormalizeMixedFrom3(id, p);
    LetterIsWordChar(id[2]);
    WordCharStep(Ascii, id, Mixed, Pascal, 2, 12, true, p, 2, "i", 3, true, 13, false);
  }

  lemma {:induction false} NormalizeMixedFrom1(id: string, p: string)
    requires SpellsMixedSample(id)
    requires SpellsPascalSample(p)
    ensures Words(Ascii, id, Mixed, Pascal, 1, 12, false) == WordPass(p[1..], 13, false)
  {
    NormalizeMixedFrom2(id, p);
    LetterIsWordChar(id[1]);
    WordCharStep(Ascii, id, Mixed, Pascal, 1, 12, false, p, 1, "h", 2, true, 13, false);
  }

  /** The parts of the translation of "this-Is_aTest" into Pascal case. */
  lemma {:induction false} MixedSampleParts(id: string)
    requires SpellsMixedSample(id)
    ensures LastWordIndex(Ascii, id) == 12
    ensures CopyLeading(Ascii, id, true, 0) == Pass("T", 0)
    ensures CopyTrailing(Ascii, id, 13) == ""
  {
  }

  /** "this-Is_aTest" in Pascal case is "ThisIsATest". */
  lemma {:induction false} NormalizeMixedSample()
    ensures Translate(Ascii, MixedSample, Pascal) == Success(PascalSample)
  {
    MixedSampleSpelled();
    DetectMixedSample();
    MixedSampleWords(MixedSample);
    StyleFacts();
    TranslateFromWords(Ascii, MixedSample, Mixed, Pascal, PascalSample);
  }

  lemma {:induction false} MixedSampleWords(id: string)
    requires SpellsMixedSample(id)
    ensures TranslateWords(Ascii, id, Mixed, Pascal) == PascalSample
  {
    MixedSampleParts(id);
    PascalSampleSpelled();
    NormalizeMixedFrom1(id, PascalSample);
    PascalFromParts(Ascii, id, Mixed, 12);
  }

  /** Reading "this-Is_aTest" gives "ThisIsATest" and leaves nothing unread. */
  lemma {:induction false} ReadMixedSample()
    ensures ReadNormalizedCaseIdentifier(Ascii, Some(MixedSample)) == Success(ReadResult(PascalSample, ""))
  {
    assert forall i :: 0 <= i < |MixedSample| ==> IdentifierChar(Ascii, MixedSample[i]);
    assert MixedSample + "" == MixedSample;
    ReadSplitsAtFirstNonIdentifierChar(Ascii, MixedSample, "");
    NormalizeMixedSample();
  }

  lemma {:induction false} LeadingSpaceEvidenceFrom8(id: string)
    requires SpellsLeadingSpaceSample(id)
    ensures Gather(Ascii, id, 8, 11, PassState(Evidence(true, true, false, false, false, false, false, false, false), false, false)) == Evidence(true, true, false, false, false, false, false, false, false)
  {
    LetterIsWordChar(id[10]);
    GatherStep(Ascii, id, 10, 11, PassState(Evidence(true, true, false, false, false, false, false, false, false), false, false), PassState(Evidence(true, true, false, false, false, false, false, false, false), false, false), Evidence(true, true, false, false, false, false, false, false, false));
    LetterIsWordChar(id[9]);
    GatherStep(Ascii, id, 9, 11, PassState(Evidence(true, true, false, false, false, false, false, false, false), false, false), PassState(Evidence(true, true, false, false, false, false, false, false, false), false, false), Evidence(true, true, false, false, false, false, false, false, false));
    LetterIsWordChar(id[8]);
    GatherStep(Ascii, id, 8, 11, PassState(Evidence(true, true, false, false, false, false, false, false, false), false, false), PassState(Evidence(true, true, false, false, false, false, false, false, false), false, false), Evidence(true, true, false, false, false, false, false, false, false));
  }

  lemma {:induction false} LeadingSpaceEvidenceFrom5(id: string)
    requires SpellsLeadingSpaceSample(id)
    ensures Gather(Ascii, id, 5, 11, PassState(Evidence(false, true, false, false, false, false, false, false, false), false, false)) == Evidence(true, true, false, false, false, false, false, false, false)
  {
    LeadingSpaceEvidenceFrom8(id);
    LetterIsWordChar(id[7]);
    GatherStep(Ascii, id, 7, 11, PassState(Evidence(true, true, false, false, false, false, false, false, false), false, false), PassState(Evidence(true, true, false, false, false, false, false, false, false), false, false), Evidence(true, true, false, false, false, false, false, false, false));
    LetterIsWordChar(id[6]);
    GatherStep(Ascii, id, 6, 11, PassState(Evidence(true, true, false, false, false, false, false, false, false), false, false), PassState(Evidence(true, true, false, false, false, false, false, false, false), false, false), Evidence(true, true, false, false, false, false, false, false, false));
    LetterIsWordChar(id[5]);
    GatherStep(Ascii, id, 5, 11, PassState(Evidence(false, true, false, false, false, false, false, false, false), false, false), PassState(Evidence(true, true, false, false, false, false, false, false, false), false, false), Evidence(true, true, false, false, false, false, false, false, false));
  }

  lemma {:induction false} LeadingSpaceEvidenceFrom2(id: string)
    requires SpellsLeadingSpaceSample(id)
    ensures Gather(Ascii, id, 2, 11, InitialPass) == Evidence(true, true, false, false, false, false, false, false, false)
  {
    LeadingSpaceEvidenceFrom5(id);
    LetterIsWordChar(id[4]);
    GatherStep(Ascii, id, 4, 11, PassState(Evidence(false, true, false, false, false, false, false, false, false), false, false), PassState(Evidence(false, true, false, false, false, false, false, false, false), false, false), Evidence(true, true, false, false, false, false, false, false, false));
    LetterIsWordChar(id[3]);
    GatherStep(Ascii, id, 3, 11, PassState(Evidence(false, true, false, false, false, false, false, false, false), false, false), PassState(Evidence(false, true, false, false, false, false, false, false, false), false, false), Evidence(true, true, false, false, false, false, false, false, false));
    LetterIsWordChar(id[2]);
    GatherStep(Ascii, id, 2, 11, InitialPass, PassState(Evidence(false, true, false, false, false, false, false, false, false), false, false), Evidence(true, true, false, false, false, false, false, false, false));
  }

  const LeadingSpaceSample := " ThisIsATest"

  /** The evidence the detection pass gathers from " ThisIsATest". */
  lemma {:induction false} LeadingSpaceSampleEvidence(id: string)
    requires SpellsLeadingSpaceSample(id)
    ensures Gather(Ascii, id, 2, 11, InitialPass) == Evidence(true, true, false, false, false, false, false, false, false)
  {
    LeadingSpaceEvidenceFrom2(id);
  }

  /** " ThisIsATest", the sample in Pascal case with a leading space, is still detected as Pascal case. */
  lemma {:induction false} DetectLeadingSpaceSample()
    ensures DetectIdentifierCasing(Ascii, Some(LeadingSpaceSample)) == Success(Pascal)
  {
    LeadingSpaceSampleSpelled();
    LeadingSpaceSampleEvidence(LeadingSpaceSample);
    LeadingSpaceSampleScans();
    DetectFromParts(Ascii, LeadingSpaceSample, 1, 11, Evidence(true, true, false, false, false, false, false, false, false));
  }

  lemma {:induction false} LeadingSpaceSampleScans()
    ensures FirstWordIndex(Ascii, LeadingSpaceSample) == 1
    ensures LastNonBlankIndex(Ascii, LeadingSpaceSample) == 11
  {
    assert IsDecoration(Ascii, LeadingSpaceSample[0]) && !IsDecoration(Ascii, LeadingSpaceSample[1]) && !IsBlank(Ascii, LeadingSpaceSample[11]);
  }

  /** id spells " ThisIsATest", stated character by character. */
  predicate SpellsLeadingSpaceSample(id: string) {
    |id| == 12 && id[0] == ' ' && id[1] == 'T' && id[2] == 'h' && id[3] == 'i' && id[4] == 's' && id[5] == 'I' && id[6] == 's' && id[7] == 'A' && id[8] == 'T' && id[9] == 'e' && id[10] == 's' && id[11] == 't'
  }

  lemma {:induction false} LeadingSpaceSampleSpelled()
    ensures SpellsLeadingSpaceSample(LeadingSpaceSample)
  {
  }

  lemma {:induction false} LeadingSpaceCamelFrom11(id: string, p: string)
    requires SpellsLeadingSpaceSample(id)
    requires SpellsCamelSample(p)
    ensures Words(Ascii, id, Pascal, Camel, 11, 11, true) == WordPass(p[10..], 12, false)
  {
    LetterIsWordChar(id[11]);
    WordCharStep(Ascii, id, Pascal, Camel, 11, 11, true, p, 10, "t", 11, true, 12, false);
  }

  lemma {:induction false} LeadingSpaceCamelFrom10(id: string, p: string)
    requires SpellsLeadingSpaceSample(id)
    requires SpellsCamelSample(p)
    ensures Words(Ascii, id, Pascal, Camel, 10, 11, true) == WordPass(p[9..], 12, false)
  {
    LeadingSpaceCamelFrom11(id, p);
    LetterIsWordChar(id[10]);
    WordCharStep(Ascii, id, Pascal, Camel, 10, 11, true, p, 9, "s", 10, true, 12, false);
  }

  lemma {:induction false} LeadingSpaceCamelFrom9(id: string, p: string)
    requires SpellsLeadingSpaceSample(id)
    requires SpellsCamelSample(p)
    ensures Words(Ascii, id, Pascal, Camel, 9, 11, true) == WordPass(p[8..], 12, false)
  {
    LeadingSpaceCamelFrom10(id, p);
    LetterIsWordChar(id[9]);
    WordCharStep(Ascii, id, Pascal, Camel, 9, 11, true, p, 8, "e", 9, true, 12, false);
  }

  lemma {:induction false} LeadingSpaceCamelFrom8(id: string, p: string)
    requires SpellsLeadingSpaceSample(id)
    requires SpellsCamelSample(p)
    ensures Words(Ascii, id, Pascal, Camel, 8, 11, true) == WordPass(p[7..], 12, false)
  {
    LeadingSpaceCamelFrom9(id, p);
    LetterIsWordChar(id[8]);
    WordCharStep(Ascii, id, Pascal, Camel, 8, 11, true, p, 7, "T", 8, true, 12, false);
  }

  lemma {:induction false} LeadingSpaceCamelFrom7(id: string, p: string)
    requires SpellsLeadingSpaceSample(id)
    requires SpellsCamelSample(p)
    ensures Words(Ascii, id, Pascal, Camel, 7, 11, true) == WordPass(p[6..], 12, false)
  {
    LeadingSpaceCamelFrom8(id, p);
    LetterIsWordChar(id[7]);
    WordCharStep(Ascii, id, Pascal, Camel, 7, 11, true, p, 6, "A", 7, true, 12, false);
  }

  lemma {:induction false} LeadingSpaceCamelFrom6(id: string, p: string)
    requires SpellsLeadingSpaceSample(id)
    requires SpellsCamelSample(p)
    ensures Words(Ascii, id, Pascal, Camel, 6, 11, true) == WordPass(p[5..], 12, false)
  {
    LeadingSpaceCamelFrom7(id, p);
    LetterIsWordChar(id[6]);
    WordCharStep(Ascii, id, Pascal, Camel, 6, 11, true, p, 5, "s", 6, true, 12, false);
  }

  lemma {:induction false} LeadingSpaceCamelFrom5(id: string, p: string)
    requires SpellsLeadingSpaceSample(id)
    requires SpellsCamelSample(p)
    ensures Words(Ascii, id, Pascal, Camel, 5, 11, true) == WordPass(p[4..], 12, false)
  {
    LeadingSpaceCamelFrom6(id, p);
    LetterIsWordChar(id[5]);
    WordCharStep(Ascii, id, Pascal, Camel, 5, 11, true, p, 4, "I", 5, true, 12, false);
  }

  lemma {:induction false} LeadingSpaceCamelFrom4(id: string, p: string)
    requires SpellsLeadingSpaceSample(id)
    requires SpellsCamelSample(p)
    ensures Words(Ascii, id, Pascal, Camel, 4, 11, true) == WordPass(p[3..], 12, false)
  {
    LeadingSpaceCamelFrom5(id, p);
    LetterIsWordChar(id[4]);
    WordCharStep(Ascii, id, Pascal, Camel, 4, 11, true, p, 3, "s", 4, true, 12, false);
  }

  lemma {:induction false} LeadingSpaceCamelFrom3(id: string, p: string)
    requires SpellsLeadingSpaceSample(id)
    requires SpellsCamelSample(p)
    ensures Words(Ascii, id, Pascal, Camel, 3, 11, true) == WordPass(p[2..], 12, false)
  {
    LeadingSpaceCamelFrom4(id, p);
    LetterIsWordChar(id[3]);
    WordCharStep(Ascii, id, Pascal, Camel, 3, 11, true, p, 2, "i", 3, true, 12, false);
  }

  lemma {:induction false} LeadingSpaceCamelFrom2(id: string, p: string)
    requires SpellsLeadingSpaceSample(id)
    requires SpellsCamelSample(p)
    ensures Words(Ascii, id, Pascal, Camel, 2, 11, false) == WordPass(p[1..], 12, false)
  {
    LeadingSpaceCamelFrom3(id, p);
    LetterIsWordChar(id[2]);
    WordCharStep(Ascii, id, Pascal, Camel, 2, 11, false, p, 1, "h", 2, true, 12, false);
  }

  lemma {:induction false} LeadingSpaceSampleParts(id: string)
    requires SpellsLeadingSpaceSample(id)
    ensures LastWordIndex(Ascii, id) == 11
    ensures CopyLeading(Ascii, id, Camel.firstCharUpper, 0) == Pass(" t", 1)
    ensures CopyTrailing(Ascii, id, 11 + 1) == ""
  {
  }

  lemma {:induction false} LeadingSpaceSampleSplit()
    ensures " t" + CamelSample[1..] + "" == " thisIsATest"
  {
  }

  lemma {:induction false} LeadingSpaceSampleWords(id: string)
    requires SpellsLeadingSpaceSample(id)
    ensures TranslateWords(Ascii, id, Pascal, Camel) == " thisIsATest"
  {
    LeadingSpaceSampleParts(id);
    CamelSampleSpelled();
    LeadingSpaceCamelFrom2(id, CamelSample);
    LeadingSpaceSampleFromParts(Ascii, id, CamelSample[1..], "");
    LeadingSpaceSampleSplit();
  }

  lemma {:induction false} LeadingSpaceSampleFromParts(cc: Classifier, id: string, words: string, trailing: string)
    requires LastWordIndex(cc, id) == 11
    requires CopyLeading(cc, id, Camel.firstCharUpper, 0) == Pass(" t", 1)
    requires CopyTrailing(cc, id, 12) == trailing
    requires Words(cc, id, Pascal, Camel, 2, 11, false) == WordPass(words, 12, false)
    ensures TranslateWords(cc, id, Pascal, Camel) == " t" + words + trailing
  {
    TranslateWordsFromParts(cc, id, Pascal, Camel, 1, 2, 11, 12, " t", words, trailing, " t" + words + trailing);
  }

  /** Translating " ThisIsATest" into Camel case gives " thisIsATest": a leading space is kept in place. */
  lemma {:induction false} TranslateLeadingSpaceSample()
    ensures Translate(Ascii, LeadingSpaceSample, Camel) == Success(" thisIsATest")
  {
    LeadingSpaceSampleSpelled();
    DetectLeadingSpaceSample();
    LeadingSpaceSampleWords(LeadingSpaceSample);
    StyleFacts();
    TranslateFromWords(Ascii, LeadingSpaceSample, Pascal, Camel, " thisIsATest");
  }

  lemma {:induction false} TrailingDashEvidenceFrom7(id: string)
    requires SpellsTrailingDashSample(id)
    ensures Gather(Ascii, id, 7, 10, PassState(Evidence(true, true, false, false, false, false, false, false, false), false, false)) == Evidence(true, true, false, false, false, false, false, false, false)
  {
    LetterIsWordChar(id[9]);
    GatherStep(Ascii, id, 9, 10, PassState(Evidence(true, true, false, false, false, false, false, false, false), false, false), PassState(Evidence(true, true, false, false, false, false, false, false, false), false, false), Evidence(true, true, false, false, false, false, false, false, false));
    LetterIsWordChar(id[8]);
    GatherStep(Ascii, id, 8, 10, PassState(Evidence(true, true, false, false, false, false, false, false, false), false, false), PassState(Evidence(true, true, false, false, false, false, false, false, false), false, false), Evidence(true, true, false, false, false, false, false, false, false));
    LetterIsWordChar(id[7]);
    GatherStep(Ascii, id, 7, 10, PassState(Evidence(true, true, false, false, false, false, false, false, false), false, false), PassState(Evidence(true, true, false, false, false, false, false, false, false), false, false), Evidence(true, true, false, false, false, false, false, false, false));
  }

  lemma {:induction false} TrailingDashEvidenceFrom4(id: string)
    requires SpellsTrailingDashSample(id)
    ensures Gather(Ascii, id, 4, 10, PassState(Evidence(false, true, false, false, false, false, false, false, false), false, false)) == Evidence(true, true, false, false, false, false, false, false, false)
  {
    TrailingDashEvidenceFrom7(id);
    LetterIsWordChar(id[6]);
    GatherStep(Ascii, id, 6, 10, PassState(Evidence(true, true, false, false, false, false, false, false, false), false, false), PassState(Evidence(true, true, false, false, false, false, false, false, false), false, false), Evidence(true, true, false, false, false, false, false, false, false));
    LetterIsWordChar(id[5]);
    GatherStep(Ascii, id, 5, 10, PassState(Evidence(true, true, false, false, false, false, false, false, false), false, false), PassState(Evidence(true, true, false, false, false, false, false, false, false), false, false), Evidence(true, true, false, false, false, false, false, false, false));
    LetterIsWordChar(id[4]);
    GatherStep(Ascii, id, 4, 10, PassState(Evidence(false, true, false, false, false, false, false, false, false), false, false), PassState(Evidence(true, true, false, false, false, false, false, false, false), false, false), Evidence(true, true, false, false, false, false, false, false, false));
  }

  lemma {:induction false} TrailingDashEvidenceFrom1(id: string)
    requires SpellsTrailingDashSample(id)
    ensures Gather(Ascii, id, 1, 10, InitialPass) == Evidence(true, true, false, false, false, false, false, false, false)
  {
    TrailingDashEvidenceFrom4(id);
    LetterIsWordChar(id[3]);
    GatherStep(Ascii, id, 3, 10, PassState(Evidence(false, true, false, false, false, false, false, false, false), false, false), PassState(Evidence(false, true, false, false, false, false, false, false, false), false, false), Evidence(true, true, false, false, false, false, false, false, false));
    LetterIsWordChar(id[2]);
    GatherStep(Ascii, id, 2, 10, PassState(Evidence(false, true, false, false, false, false, false, false, false), false, false), PassState(Evidence(false, true, false, false, false, false, false, false, false), false, false), Evidence(true, true, false, false, false, false, false, false, false));
    LetterIsWordChar(id[1]);
    GatherStep(Ascii, id, 1, 10, InitialPass, PassState(Evidence(false, true, false, false, false, false, false, false, false), false, false), Evidence(true, true, false, false, false, false, false, false, false));
  }

  const TrailingDashSample := "ThisIsATest-"

  /** The evidence the detection pass gathers from "ThisIsATest-". */
  lemma {:induction false} TrailingDashSampleEvidence(id: string)
    requires SpellsTrailingDashSample(id)
    ensures Gather(Ascii, id, 1, 10, InitialPass) == Evidence(true, true, false, false, false, false, false, false, false)
  {
    TrailingDashEvidenceFrom1(id);
  }

  /** "ThisIsATest-", the sample in Pascal case with a trailing dash, is still detected as Pascal case. */
  lemma {:induction false} DetectTrailingDashSample()
    ensures DetectIdentifierCasing(Ascii, Some(TrailingDashSample)) == Success(Pascal)
  {
    TrailingDashSampleSpelled();
    TrailingDashSampleEvidence(TrailingDashSample);
    TrailingDashSampleScans();
    DetectFromParts(Ascii, TrailingDashSample, 0, 10, Evidence(true, true, false, false, false, false, false, false, false));
  }

  lemma {:induction false} TrailingDashSampleScans()
    ensures FirstWordIndex(Ascii, TrailingDashSample) == 0
    ensures LastNonBlankIndex(Ascii, TrailingDashSample) == 10
  {
    assert !IsDecoration(Ascii, TrailingDashSample[0]) && IsBlank(Ascii, TrailingDashSample[11]) && !IsBlank(Ascii, TrailingDashSample[10]);
  }

  /** id spells "ThisIsATest-", stated character by character. */
  predicate SpellsTrailingDashSample(id: string) {
    |id| == 12 && id[0] == 'T' && id[1] == 'h' && id[2] == 'i' && id[3] == 's' && id[4] == 'I' && id[5] == 's' && id[6] == 'A' && id[7] == 'T' && id[8] == 'e' && id[9] == 's' && id[10] == 't' && id[11] == '-'
  }

  lemma {:induction false} TrailingDashSampleSpelled()
    ensures SpellsTrailingDashSample(TrailingDashSample)
  {
  }

  lemma {:induction false} TrailingDashSnakeFrom10(id: string, p: string)
    requires SpellsTrailingDashSample(id)
    requires SpellsSnakeSample(p)
    ensures Words(Ascii, id, Pascal, Snake, 10, 10, true) == WordPass(p[13..], 11, false)
  {
    LetterIsWordChar(id[10]);
    WordCharStep(Ascii, id, Pascal, Snake, 10, 10, true, p, 13, "t", 14, true, 11, false);
  }

  lemma {:induction false} TrailingDashSnakeFrom9(id: string, p: string)
    requires SpellsTrailingDashSample(id)
    requires SpellsSnakeSample(p)
    ensures Words(Ascii, id, Pascal, Snake, 9, 10, true) == WordPass(p[12..], 11, false)
  {
    TrailingDashSnakeFrom10(id, p);
    LetterIsWordChar(id[9]);
    WordCharStep(Ascii, id, Pascal, Snake, 9, 10, true, p, 12, "s", 13, true, 11, false);
  }

  lemma {:induction false} TrailingDashSnakeFrom8(id: string, p: string)
    requires SpellsTrailingDashSample(id)
    requires SpellsSnakeSample(p)
    ensures Words(Ascii, id, Pascal, Snake, 8, 10, true) == WordPass(p[11..], 11, false)
  {
    TrailingDashSnakeFrom9(id, p);
    LetterIsWordChar(id[8]);
    WordCharStep(Ascii, id, Pascal, Snake, 8, 10, true, p, 11, "e", 12, true, 11, false);
  }

  lemma {:induction false} TrailingDashSnakeFrom7(id: string, p: string)
    requires SpellsTrailingDashSample(id)
    requires SpellsSnakeSample(p)
    ensures Words(Ascii, id, Pascal, Snake, 7, 10, true) == WordPass(p[9..], 11, false)
  {
    TrailingDashSnakeFrom8(id, p);
    LetterIsWordChar(id[7]);
    WordCharStep(Ascii, id, Pascal, Snake, 7, 10, true, p, 9, "_t", 11, true, 11, false);
  }

  lemma {:induction false} TrailingDashSnakeFrom6(id: string, p: string)
    requires SpellsTrailingDashSample(id)
    requires SpellsSnakeSample(p)
    ensures Words(Ascii, id, Pascal, Snake, 6, 10, true) == WordPass(p[7..], 11, false)
  {
    TrailingDashSnakeFrom7(id, p);
    LetterIsWordChar(id[6]);
    WordCharStep(Ascii, id, Pascal, Snake, 6, 10, true, p, 7, "_a", 9, true, 11, false);
  }

  lemma {:induction false} TrailingDashSnakeFrom5(id: string, p: string)
    requires SpellsTrailingDashSample(id)
    requires SpellsSnakeSample(p)
    ensures Words(Ascii, id, Pascal, Snake, 5, 10, true) == WordPass(p[6..], 11, false)
  {
    TrailingDashSnakeFrom6(id, p);
    LetterIsWordChar(id[5]);
    WordCharStep(Ascii, id, Pascal, Snake, 5, 10, true, p, 6, "s", 7, true, 11, false);
  }

  lemma {:induction false} TrailingDashSnakeFrom4(id: string, p: string)
    requires SpellsTrailingDashSample(id)
    requires SpellsSnakeSample(p)
    ensures Words(Ascii, id, Pascal, Snake, 4, 10, true) == WordPass(p[4..], 11, false)
  {
    TrailingDashSnakeFrom5(id, p);
    LetterIsWordChar(id[4]);
    WordCharStep(Ascii, id, Pascal, Snake, 4, 10, true, p, 4, "_i", 6, true, 11, false);
  }

  lemma {:induction false} TrailingDashSnakeFrom3(id: string, p: string)
    requires SpellsTrailingDashSample(id)
    requires SpellsSnakeSample(p)
    ensures Words(Ascii, id, Pascal, Snake, 3, 10, true) == WordPass(p[3..], 11, false)
  {
    TrailingDashSnakeFrom4(id, p);
    LetterIsWordChar(id[3]);
    WordCharStep(Ascii, id, Pascal, Snake, 3, 10, true, p, 3, "s", 4, true, 11, false);
  }

  lemma {:induction false} TrailingDashSnakeFrom2(id: string, p: string)
    requires SpellsTrailingDashSample(id)
    requires SpellsSnakeSample(p)
    ensures Words(Ascii, id, Pascal, Snake, 2, 10, true) == WordPass(p[2..], 11, false)
  {
    TrailingDashSnakeFrom3(id, p);
    LetterIsWordChar(id[2]);
    WordCharStep(Ascii, id, Pascal, Snake, 2, 10, true, p, 2, "i", 3, true, 11, false);
  }

  lemma {:induction false} TrailingDashSnakeFrom1(id: string, p: string)
    requires SpellsTrailingDashSample(id)
    requires SpellsSnakeSample(p)
    ensures Words(Ascii, id, Pascal, Snake, 1, 10, false) == WordPass(p[1..], 11, false)
  {
    TrailingDashSnakeFrom2(id, p);
    LetterIsWordChar(id[1]);
    WordCharStep(Ascii, id, Pascal, Snake, 1, 10, false, p, 1, "h", 2, true, 11, false);
  }

  lemma {:induction false} TrailingDashSampleParts(id: string)
    requires SpellsTrailingDashSample(id)
    ensures LastWordIndex(Ascii, id) == 10
    ensures CopyLeading(Ascii, id, Snake.firstCharUpper, 0) == Pass("t", 0)
    ensures CopyTrailing(Ascii, id, 10 + 1) == "-"
  {
  }

  lemma {:induction false} TrailingDashSampleSplit()
    ensures "t" + SnakeSample[1..] + "-" == "this_is_a_test-"
  {
  }

  lemma {:induction false} TrailingDashSampleWords(id: string)
    requires SpellsTrailingDashSample(id)
    ensures TranslateWords(Ascii, id, Pascal, Snake) == "this_is_a_test-"
  {
    TrailingDashSampleParts(id);
    SnakeSampleSpelled();
    TrailingDashSnakeFrom1(id, SnakeSample);
    TrailingDashSampleFromParts(Ascii, id, SnakeSample[1..], "-");
    TrailingDashSampleSplit();
  }

  lemma {:induction false} TrailingDashSampleFromParts(cc: Classifier, id: string, words: string, trailing: string)
    requires LastWordIndex(cc, id) == 10
    requires CopyLeading(cc, id, Snake.firstCharUpper, 0) == Pass("t", 0)
    requires CopyTrailing(cc, id, 11) == trailing
    requires Words(cc, id, Pascal, Snake, 1, 10, false) == WordPass(words, 11, false)
    ensures TranslateWords(cc, id, Pascal, Snake) == "t" + words + trailing
  {
    TranslateWordsFromParts(cc, id, Pascal, Snake, 0, 1, 10, 11, "t", words, trailing, "t" + words + trailing);
  }

  /** Translating "ThisIsATest-" into Snake case gives "this_is_a_test-": a trailing dash is kept in place. */
  lemma {:induction false} TranslateTrailingDashSample()
    ensures Translate(Ascii, TrailingDashSample, Snake) == Success("this_is_a_test-")
  {
    TrailingDashSampleSpelled();
    DetectTrailingDashSample();
    TrailingDashSampleWords(TrailingDashSample);
    StyleFacts();
    TranslateFromWords(Ascii, TrailingDashSample, Pascal, Snake, "this_is_a_test-");
  }

  /** "ThisIsATest" is already in Pascal case, so normalizing it gives it back unchanged. */
  lemma {:induction false} NormalizePascalSample()
    ensures Translate(Ascii, PascalSample, Pascal) == Success(PascalSample)
  {
    DetectPascalSample();
  }

  /** Reading "ThisIsATest" gives "ThisIsATest" and leaves nothing unread. */
  lemma {:induction false} ReadPascalSample()
    ensures ReadNormalizedCaseIdentifier(Ascii, Some(PascalSample)) == Success(ReadResult(PascalSample, ""))
  {
    assert forall i :: 0 <= i < |PascalSample| ==> IdentifierChar(Ascii, PascalSample[i]);
    assert PascalSample + "" == PascalSample;
    ReadSplitsAtFirstNonIdentifierChar(Ascii, PascalSample, "");
    NormalizePascalSample();
  }

  /** The style detected for "AaA": the first letter is upper case, and nothing else is known. */
  const FirstUpperOnly := Mixed.(firstCharUpper := true)

  /** id spells the three characters a, b and c. */
  predicate SpellsThree(id: string, a: char, b: char, c: char) {
    |id| == 3 && id[0] == a && id[1] == b && id[2] == c
  }

  /**
    Detecting a three-letter identifier with a lower-case middle letter: the pass examines only
    the middle letter, so the last letter's case is never seen.
   */
  lemma {:induction false} DetectThreeLetters(id: string, a: char, c: char)
    requires SpellsThree(id, a, 'a', c)
    requires 'A' <= a <= 'Z' || 'a' <= a <= 'z'
    requires 'A' <= c <= 'Z' || 'a' <= c <= 'z'
    ensures DetectIdentifierCasing(Ascii, Some(id)) == Success(if 'A' <= a <= 'Z' then FirstUpperOnly else Mixed)
  {
    LetterIsWordChar(id[0]);
    LetterIsWordChar(id[2]);
    var ev := Evidence(false, true, false, false, false, false, false, false, false);
    GatherStep(Ascii, id, 1, 2, InitialPass, PassState(ev, false, false), ev);
    DetectFromParts(Ascii, id, 0, 2, ev);
  }

  /** The three passes of translating "aaA", detected as the indeterminate style, into Pascal case. */
  lemma {:induction false} EndsInShortWordWords(id: string, p: string)
    requires SpellsThree(id, 'a', 'a', 'A')
    requires SpellsThree(p, 'A', 'a', 'A')
    ensures TranslateWords(Ascii, id, Mixed, Pascal) == p
  {
    StyleFacts();
    LetterIsWordChar(id[0]);
    LetterIsWordChar(id[1]);
    LetterIsWordChar(id[2]);
    WordCharStep(Ascii, id, Mixed, Pascal, 2, 2, true, p, 2, "A", 3, true, 3, false);
    WordCharStep(Ascii, id, Mixed, Pascal, 1, 2, false, p, 1, "a", 2, true, 3, false);
    assert CopyLeading(Ascii, id, true, 0) == Pass("A", 0);
    assert "A" + p[1..] + "" == p;
    TranslateWordsFromParts(Ascii, id, Mixed, Pascal, 0, 1, 2, 3, "A", p[1..], "", p);
  }

  /** The three passes of translating "AaA", detected as first-letter-upper only, into Pascal case. */
  lemma {:induction false} FirstUpperOnlyWords(id: string, p: string)
    requires SpellsThree(id, 'A', 'a', 'A')
    requires SpellsThree(p, 'A', 'a', 'a')
    ensures TranslateWords(Ascii, id, FirstUpperOnly, Pascal) == p
  {
    StyleFacts();
    LetterIsWordChar(id[0]);
    LetterIsWordChar(id[1]);
    LetterIsWordChar(id[2]);
    WordCharStep(Ascii, id, FirstUpperOnly, Pascal, 2, 2, true, p, 2, "a", 3, true, 3, false);
    WordCharStep(Ascii, id, FirstUpperOnly, Pascal, 1, 2, false, p, 1, "a", 2, true, 3, false);
    assert CopyLeading(Ascii, id, true, 0) == Pass("A", 0);
    assert "A" + p[1..] + "" == p;
    TranslateWordsFromParts(Ascii, id, FirstUpperOnly, Pascal, 0, 1, 2, 3, "A", p[1..], "", p);
  }

  /**
    Normalizing is not idempotent on an identifier that ends in a one-letter word: "aaA" is
    detected as the indeterminate style and normalizes to "AaA", which is detected as
    first-letter-upper only and normalizes to "Aaa".
   */
  lemma {:induction false} NormalizeTwiceDiffers()
    ensures NormalizeIdentifierCasing(Ascii, "aaA") == "AaA"
    ensures NormalizeIdentifierCasing(Ascii, "AaA") == "Aaa"
  {
    var once, twice := "aaA", "AaA";
    var thrice := "Aaa";
    assert SpellsThree(once, 'a', 'a', 'A');
    assert SpellsThree(twice, 'A', 'a', 'A');
    assert SpellsThree(thrice, 'A', 'a', 'a');
    StyleFacts();
    DetectThreeLetters(once, 'a', 'A');
    EndsInShortWordWords(once, twice);
    TranslateFromWords(Ascii, once, Mixed, Pascal, twice);
    DetectThreeLetters(twice, 'A', 'A');
    FirstUpperOnlyWords(twice, thrice);
    TranslateFromWords(Ascii, twice, FirstUpperOnly, Pascal, thrice);
  }
}
