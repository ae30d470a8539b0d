/**
  Translation of an identifier into a casing style. The library works in three passes over the
  identifier: leading decoration is copied, the word region is re-cased with word breaks found
  according to the detected source style, and trailing decoration is copied. Each pass is
  modelled by one recursive function mirroring its loop, and the word pass is related to a
  position-by-position description of what each character becomes.
 */
module Translation {
  import opened Wrappers
  import opened Chars
  import opened Styles
  import opened StringExtensions
  import opened Detection
  import opened WordBreaks

  /** The text a pass appended and the offset at which the loop stopped. */
  datatype Pass = Pass(text: string, next: int)

  /**
    The leading loop from `offset`: decoration is copied until the first word character, which is
    written in the case of the target's first character; the loop stops at that character, or at
    the end when there is none.
   */
  function CopyLeading(cc: Classifier, s: string, firstUpper: bool, offset: nat): (r: Pass)
    requires offset <= |s|
    ensures offset <= r.next <= |s|
    ensures AllSkipped(cc, s, true, offset, r.next)
    ensures r.next == |s| ==> r.text == s[offset..]
    ensures r.next < |s| ==> !IsDecoration(cc, s[r.next]) && r.text == s[offset..r.next] + [Recase(cc, firstUpper, s[r.next])]
    decreases |s| - offset
  {
    if offset == |s| then Pass("", offset)
    else if IsDecoration(cc, s[offset]) then
      var rest := CopyLeading(cc, s, firstUpper, offset + 1);
      Pass([s[offset]] + rest.text, rest.next)
    else Pass([Recase(cc, firstUpper, s[offset])], offset)
  }

  /**
    The word loop's result: the text appended, the offset after the loop, and whether the loop left
    through the early exit for a decoration character in the last position.
   */
  datatype WordPass = WordPass(text: string, next: int, stoppedAtLastChar: bool)

  /**
    The word loop from `offset` to `end` inclusive. `nonUpperSinceBreak` records whether a
    character that is not upper case was written since the last decoration. A decoration character
    is a word break: it is skipped and the character after it starts a word, unless the decoration
    is the last character of the identifier, in which case it is copied and the loop ends. An
    upper-case character starts a word when the source style breaks words at upper case, or when
    the source style is indeterminate and a non-upper-case character came since the last break.
   */
  function Words(cc: Classifier, s: string, casing: Style, desired: Style, offset: nat, end: int, nonUpperSinceBreak: bool): (r: WordPass)
    requires end < |s|
    ensures offset <= r.next
    ensures offset <= end + 1 ==> r.next <= |s|
    decreases end - offset
  {
    if offset > end then WordPass("", offset, false)
    else
      var c := s[offset];
      if IsDecoration(cc, c) then
        if offset + 1 >= |s| then WordPass([c], offset + 1, true)
        else
          var d := s[offset + 1];
          var rest := Words(cc, s, casing, desired, offset + 2, end, !cc.isUpper(d));
          WordPass(Separators(desired) + [Recase(cc, WordStartUpper(desired), d)] + rest.text, rest.next, rest.stoppedAtLastChar)
      else
        var wordBreak := cc.isUpper(c) && (BreaksAtUpperCase(casing) || (casing == Mixed && nonUpperSinceBreak));
        var written :=
          if wordBreak then Separators(desired) + [Recase(cc, WordStartUpper(desired), c)]
          else [Recase(cc, desired.wordBodyCharsUpper, c)];
        var rest := Words(cc, s, casing, desired, offset + 1, end, nonUpperSinceBreak || !cc.isUpper(c));
        WordPass(written + rest.text, rest.next, rest.stoppedAtLastChar)
  }

  /** The decoration characters of s from `offset` on: the trailing loop copies these and drops the rest. */
  function CopyTrailing(cc: Classifier, s: string, offset: nat): (r: string)
    requires offset <= |s|
    ensures |r| <= |s| - offset
    ensures forall i :: 0 <= i < |r| ==> IsDecoration(cc, r[i])
    ensures AllSkipped(cc, s, true, offset, |s|) ==> r == s[offset..]
    decreases |s| - offset
  {
    if offset == |s| then ""
    else if IsDecoration(cc, s[offset]) then [s[offset]] + CopyTrailing(cc, s, offset + 1)
    else CopyTrailing(cc, s, offset + 1)
  }

  /**
    The identifier translated into the desired style. The empty identifier is returned as it is,
    before the target is looked at; the indeterminate style is rejected as a target; an identifier
    already detected in the desired style is returned unchanged; otherwise the three passes run.
   */
  function Translate(cc: Classifier, identifier: string, desired: Style): (r: Result<string, Error>)
    ensures r.Failure? <==> identifier != "" && desired == Mixed
    ensures r.Failure? ==> r.error == UnsupportedTargetStyle
    ensures identifier == "" ==> r == Success("")
    ensures r.Success? && DetectIdentifierCasing(cc, Some(identifier)) == Success(desired) ==> r.value == identifier
  {
    if identifier == "" then Success(identifier)
    else if desired == Mixed then Failure(UnsupportedTargetStyle)
    else
      var casing := DetectIdentifierCasing(cc, Some(identifier)).value;
      if casing == desired then Success(identifier)
      else Success(TranslateWords(cc, identifier, casing, desired))
  }

  /** The three passes of a translation from the detected style `casing`. */
  function TranslateWords(cc: Classifier, s: string, casing: Style, desired: Style): string {
    var leading := CopyLeading(cc, s, desired.firstCharUpper, 0);
    var end := LastWordIndex(cc, s);
    var words :=
      if end >= 0 then Words(cc, s, casing, desired, leading.next + 1, end, false)
      else WordPass("", leading.next, false);
    leading.text + words.text + CopyTrailing(cc, s, words.next)
  }

  /** Translation into the library's canonical style, Pascal case, which never fails. */
  function NormalizeIdentifierCasing(cc: Classifier, identifier: string): (r: string)
    ensures Translate(cc, identifier, Pascal) == Success(r)
  {
    Translate(cc, identifier, Pascal).value
  }

  /** The character after a dropped one is kept. */
  lemma {:induction false} AfterDroppedIsKept(cc: Classifier, s: string, lead: int, k: int)
    requires 0 <= lead < k
    requires k + 1 < |s|
    requires Dropped(cc, s, lead, k)
    ensures !Dropped(cc, s, lead, k + 1)
  {
  }

  /** A decoration character that is not right after a dropped one is dropped, and the character after it is kept. */
  lemma {:induction false} BreakAt(cc: Classifier, s: string, lead: int, k: int)
    requires 0 <= lead < k
    requires k + 1 < |s|
    requires IsDecoration(cc, s[k])
    requires !(k - 1 > lead && Dropped(cc, s, lead, k - 1))
    ensures Dropped(cc, s, lead, k) && !Dropped(cc, s, lead, k + 1)
  {
    AfterDroppedIsKept(cc, s, lead, k);
  }

  /** Past a kept character, the non-upper-case record grows by that character. */
  lemma {:induction false} NonUpperSinceBreakExtends(cc: Classifier, s: string, lead: int, k: int)
    requires 0 <= lead < k < |s|
    requires !Dropped(cc, s, lead, k)
    ensures NonUpperSinceBreak(cc, s, lead, k + 1) == (NonUpperSinceBreak(cc, s, lead, k) || !cc.isUpper(s[k]))
  {
    assert LastDrop(cc, s, lead, k + 1) == LastDrop(cc, s, lead, k);
    if NonUpperSinceBreak(cc, s, lead, k + 1) && cc.isUpper(s[k]) {
      var j :| LastDrop(cc, s, lead, k + 1) < j < k + 1 && !cc.isUpper(s[j]);
      assert j < k;
    }
  }

  /** Past a dropped character and the kept one after it, the record holds exactly when the kept one is not upper case. */
  lemma {:induction false} NonUpperSinceBreakRestarts(cc: Classifier, s: string, lead: int, k: int)
    requires 0 <= lead < k
    requires k + 1 < |s|
    requires Dropped(cc, s, lead, k)
    requires !Dropped(cc, s, lead, k + 1)
    ensures NonUpperSinceBreak(cc, s, lead, k + 2) == !cc.isUpper(s[k + 1])
  {
    assert LastDrop(cc, s, lead, k + 2) == k;
    if NonUpperSinceBreak(cc, s, lead, k + 2) {
      var j :| k < j < k + 2 && !cc.isUpper(s[j]);
      assert j == k + 1;
    }
  }

  /** The emissions at a dropped character and the kept one after it: the separators and the word-start character. */
  lemma {:induction false} EmissionsAtBreak(cc: Classifier, s: string, lead: int, casing: Style, desired: Style, k: int, hi: int)
    requires 0 <= lead < k
    requires k + 1 < hi <= |s|
    requires Dropped(cc, s, lead, k)
    requires !Dropped(cc, s, lead, k + 1)
    ensures Emissions(cc, s, lead, casing, desired, k, hi)
            == Separators(desired) + [Recase(cc, WordStartUpper(desired), s[k + 1])] + Emissions(cc, s, lead, casing, desired, k + 2, hi)
  {
    assert WordStart(cc, s, lead, casing, k + 1);
  }

  /** The emission at a kept word character that is not right after a dropped one. */
  lemma {:induction false} EmissionAtWordChar(cc: Classifier, s: string, lead: int, casing: Style, desired: Style, k: int)
    requires 0 <= lead < k < |s|
    requires !IsDecoration(cc, s[k])
    requires !(k - 1 > lead && Dropped(cc, s, lead, k - 1))
    ensures var wordBreak := cc.isUpper(s[k]) && (BreaksAtUpperCase(casing) || (casing == Mixed && NonUpperSinceBreak(cc, s, lead, k)));
            Emission(cc, s, lead, casing, desired, k)
            == if wordBreak then Separators(desired) + [Recase(cc, WordStartUpper(desired), s[k])]
               else [Recase(cc, desired.wordBodyCharsUpper, s[k])]
  {
  }

  /** The word loop at a dropped character writes the emissions of the character and the one after it, and then those of the rest. */
  lemma {:induction false} WordsStepAtBreak(cc: Classifier, s: string, lead: int, end: int, casing: Style, desired: Style, offset: nat, nonUpper: bool)
    requires 0 <= lead < offset < end < |s|
    requires IsDecoration(cc, s[offset])
    requires !(offset - 1 > lead && Dropped(cc, s, lead, offset - 1))
    requires !IsDecoration(cc, s[end])
    ensures Words(cc, s, casing, desired, offset, end, nonUpper)
            == WordPass(Emissions(cc, s, lead, casing, desired, offset, end + 1), end + 1, false)
    decreases end - offset, 1
  {
    BreakAt(cc, s, lead, offset);
    var d := s[offset + 1];
    var written := Separators(desired) + [Recase(cc, WordStartUpper(desired), d)];
    var tail := Emissions(cc, s, lead, casing, desired, offset + 2, end + 1);
    WordsAfterBreak(cc, s, lead, end, casing, desired, offset);
    assert Words(cc, s, casing, desired, offset + 2, end, !cc.isUpper(d)) == WordPass(tail, end + 1, false);
    EmissionsAtBreak(cc, s, lead, casing, desired, offset, end + 1);
    assert Emissions(cc, s, lead, casing, desired, offset, end + 1) == written + tail;
    WordsAtDecoration(cc, s, casing, desired, offset, end, nonUpper);
  }

  /** After a dropped character and the kept one after it, the word loop writes the emissions of the rest. */
  lemma {:induction false} WordsAfterBreak(cc: Classifier, s: string, lead: int, end: int, casing: Style, desired: Style, offset: nat)
    requires 0 <= lead < offset < end < |s|
    requires Dropped(cc, s, lead, offset)
    requires !Dropped(cc, s, lead, offset + 1)
    requires !IsDecoration(cc, s[end])
    ensures Words(cc, s, casing, desired, offset + 2, end, !cc.isUpper(s[offset + 1]))
            == WordPass(Emissions(cc, s, lead, casing, desired, offset + 2, end + 1), end + 1, false)
    decreases end - offset, 0
  {
    NonUpperSinceBreakRestarts(cc, s, lead, offset);
    WordsMatchEmissions(cc, s, lead, end, casing, desired, offset + 2);
  }

  /** The word loop at a decoration character that is not the last of the identifier. */
  lemma {:induction false} WordsAtDecoration(cc: Classifier, s: string, casing: Style, desired: Style, offset: nat, end: int, nonUpper: bool)
    requires offset <= end < |s|
    requires offset + 1 < |s|
    requires IsDecoration(cc, s[offset])
    ensures var d := s[offset + 1];
            var rest := Words(cc, s, casing, desired, offset + 2, end, !cc.isUpper(d));
            Words(cc, s, casing, desired, offset, end, nonUpper)
            == WordPass(Separators(desired) + [Recase(cc, WordStartUpper(desired), d)] + rest.text, rest.next, rest.stoppedAtLastChar)
  {
  }

  /** The word loop at a word character writes the emission of that character and then those of the rest. */
  lemma {:induction false} WordsStepAtWordChar(cc: Classifier, s: string, lead: int, end: int, casing: Style, desired: Style, offset: nat)
    requires 0 <= lead < offset <= end < |s|
    requires !IsDecoration(cc, s[offset])
    requires !(offset - 1 > lead && Dropped(cc, s, lead, offset - 1))
    requires !IsDecoration(cc, s[end])
    ensures Words(cc, s, casing, desired, offset, end, NonUpperSinceBreak(cc, s, lead, offset))
            == WordPass(Emissions(cc, s, lead, casing, desired, offset, end + 1), end + 1, false)
    decreases end - offset, 0
  {
    WordsMatchEmissions(cc, s, lead, end, casing, desired, offset + 1);
    var c := s[offset];
    var nonUpper := NonUpperSinceBreak(cc, s, lead, offset);
    NonUpperSinceBreakExtends(cc, s, lead, offset);
    EmissionAtWordChar(cc, s, lead, casing, desired, offset);
    var rest := Words(cc, s, casing, desired, offset + 1, end, nonUpper || !cc.isUpper(c));
    var wordBreak := cc.isUpper(c) && (BreaksAtUpperCase(casing) || (casing == Mixed && nonUpper));
    var written :=
      if wordBreak then Separators(desired) + [Recase(cc, WordStartUpper(desired), c)]
      else [Recase(cc, desired.wordBodyCharsUpper, c)];
    assert Words(cc, s, casing, desired, offset, end, nonUpper) == WordPass(written + rest.text, rest.next, rest.stoppedAtLastChar);
  }

  /**
    From a position that is not right after a dropped character, with the non-upper-case record
    matching the characters before it, the word loop writes the emissions of the positions up to
    and including the last word character, ends just after it, and never takes the early exit.
   */
  lemma {:induction false} WordsMatchEmissions(cc: Classifier, s: string, lead: int, end: int, casing: Style, desired: Style, offset: nat)
    requires 0 <= lead < offset <= end + 1
    requires end < |s|
    requires !IsDecoration(cc, s[end])
    requires !(offset - 1 > lead && Dropped(cc, s, lead, offset - 1))
    ensures Words(cc, s, casing, desired, offset, end, NonUpperSinceBreak(cc, s, lead, offset))
            == WordPass(Emissions(cc, s, lead, casing, desired, offset, end + 1), end + 1, false)
    decreases end - offset, 2
  {
    if offset <= end {
      if IsDecoration(cc, s[offset]) {
        WordsStepAtBreak(cc, s, lead, end, casing, desired, offset, NonUpperSinceBreak(cc, s, lead, offset));
      } else {
        WordsStepAtWordChar(cc, s, lead, end, casing, desired, offset);
      }
    }
  }

  /** The leading loop stops exactly at the first word character, or at the end when there is none. */
  lemma {:induction false} CopyLeadingStopsAtFirstWord(cc: Classifier, s: string, firstUpper: bool)
    ensures var lead := FirstWordIndex(cc, s);
            CopyLeading(cc, s, firstUpper, 0).next == if lead < 0 then |s| else lead
  {
    var lead := FirstWordIndex(cc, s);
    var next := CopyLeading(cc, s, firstUpper, 0).next;
    if next < |s| {
      assert !IsDecoration(cc, s[next]);
    }
    if lead >= 0 {
      assert !IsDecoration(cc, s[lead]);
    }
  }

  /** The word region: it is empty exactly when the identifier is all decoration, and otherwise its first word character comes no later than its last. */
  lemma {:induction false} WordRegion(cc: Classifier, s: string)
    ensures FirstWordIndex(cc, s) < 0 <==> LastWordIndex(cc, s) < 0
    ensures FirstWordIndex(cc, s) <= LastWordIndex(cc, s)
    ensures FirstWordIndex(cc, s) >= 0 ==> !IsDecoration(cc, s[LastWordIndex(cc, s)])
  {
    var lead := FirstWordIndex(cc, s);
    var end := LastWordIndex(cc, s);
    if end >= 0 {
      assert !IsDecoration(cc, s[end]);
    }
  }

  /**
    The word-by-word rewriting of s from source style `casing`, stated without the loops: an
    identifier made only of decoration is unchanged; otherwise the decoration before the first
    word character is kept, that character takes the target's first case, each later character of
    the word region up to the last word character is written as its emission, and the decoration
    after the last word character is kept.
   */
  ghost function WordTranslation(cc: Classifier, s: string, casing: Style, desired: Style): string {
    var lead := FirstWordIndex(cc, s);
    var end := LastWordIndex(cc, s);
    if lead < 0 then s
    else s[..lead] + [Recase(cc, desired.firstCharUpper, s[lead])] + Emissions(cc, s, lead, casing, desired, lead + 1, end + 1) + s[end + 1..]
  }

  /**
    The translation, stated without the loops: an identifier that is empty or whose style, as its
    evidence determines it, is already the target comes back unchanged; any other is rewritten
    word by word from that style.
   */
  ghost function TranslationSpec(cc: Classifier, s: string, desired: Style): string {
    var casing := DetectionSpec(cc, s);
    if s == "" || casing == desired then s else WordTranslation(cc, s, casing, desired)
  }

  /** The word loop as the translation starts it covers the word region and never takes the early exit. */
  lemma {:induction false} TranslationWordPass(cc: Classifier, s: string, casing: Style, desired: Style)
    requires FirstWordIndex(cc, s) >= 0
    ensures var lead := FirstWordIndex(cc, s);
            var end := LastWordIndex(cc, s);
            Words(cc, s, casing, desired, lead + 1, end, false)
            == WordPass(Emissions(cc, s, lead, casing, desired, lead + 1, end + 1), end + 1, false)
  {
    WordRegion(cc, s);
    WordsFromFirstWordChar(cc, s, FirstWordIndex(cc, s), LastWordIndex(cc, s), casing, desired);
  }

  /** Started after a word character at lead, with nothing seen yet, the word loop writes the emissions up to a word character at end. */
  lemma {:induction false} WordsFromFirstWordChar(cc: Classifier, s: string, lead: int, end: int, casing: Style, desired: Style)
    requires 0 <= lead <= end < |s|
    requires !IsDecoration(cc, s[end])
    ensures Words(cc, s, casing, desired, lead + 1, end, false)
            == WordPass(Emissions(cc, s, lead, casing, desired, lead + 1, end + 1), end + 1, false)
  {
    assert LastDrop(cc, s, lead, lead + 1) == lead;
    assert !NonUpperSinceBreak(cc, s, lead, lead + 1);
    WordsMatchEmissions(cc, s, lead, end, casing, desired, lead + 1);
  }

  /**
    The branch of the word loop for a decoration character in the last position of the identifier
    is never taken by a translation: the loop ends at the last word character, which is not decoration.
   */
  lemma {:induction false} SeparatorBranchUnreachable(cc: Classifier, s: string, casing: Style, desired: Style)
    requires FirstWordIndex(cc, s) >= 0
    ensures !Words(cc, s, casing, desired, FirstWordIndex(cc, s) + 1, LastWordIndex(cc, s), false).stoppedAtLastChar
  {
    TranslationWordPass(cc, s, casing, desired);
  }

  /** With a word region, the three passes write the decoration around it and the emissions inside it. */
  lemma {:induction false} TranslateWordsOnWordRegion(cc: Classifier, s: string, casing: Style, desired: Style)
    requires FirstWordIndex(cc, s) >= 0
    ensures var lead := FirstWordIndex(cc, s);
            var end := LastWordIndex(cc, s);
            TranslateWords(cc, s, casing, desired)
            == s[..lead] + [Recase(cc, desired.firstCharUpper, s[lead])] + Emissions(cc, s, lead, casing, desired, lead + 1, end + 1) + s[end + 1..]
  {
    var lead := FirstWordIndex(cc, s);
    var end := LastWordIndex(cc, s);
    CopyLeadingStopsAtFirstWord(cc, s, desired.firstCharUpper);
    WordRegion(cc, s);
    assert s[0..lead] == s[..lead];
    var leading := s[..lead] + [Recase(cc, desired.firstCharUpper, s[lead])];
    assert CopyLeading(cc, s, desired.firstCharUpper, 0) == Pass(leading, lead);
    assert CopyTrailing(cc, s, end + 1) == s[end + 1..];
    TranslationWordPass(cc, s, casing, desired);
    TranslateWordsFromParts(cc, s, casing, desired, lead, lead + 1, end, end + 1, leading, Emissions(cc, s, lead, casing, desired, lead + 1, end + 1), s[end + 1..],
                            leading + Emissions(cc, s, lead, casing, desired, lead + 1, end + 1) + s[end + 1..]);
  }

  /** The three passes, once each pass's result is known. */
  lemma {:induction false} TranslateWordsFromParts(cc: Classifier, s: string, casing: Style, desired: Style, lead: nat, start: nat, end: int, next: int, leading: string, words: string, trailing: string, result: string)
    requires 0 <= end == LastWordIndex(cc, s)
    requires start == lead + 1 && next == end + 1
    requires CopyLeading(cc, s, desired.firstCharUpper, 0) == Pass(leading, lead)
    requires Words(cc, s, casing, desired, start, end, false) == WordPass(words, next, false)
    requires CopyTrailing(cc, s, next) == trailing
    requires leading + words + trailing == result
    ensures TranslateWords(cc, s, casing, desired) == result
  {
  }

  /** An identifier made only of decoration goes through the three passes unchanged. */
  lemma {:induction false} TranslateWordsKeepsDecoration(cc: Classifier, s: string, casing: Style, desired: Style)
    requires FirstWordIndex(cc, s) < 0
    ensures TranslateWords(cc, s, casing, desired) == s
    ensures WordTranslation(cc, s, casing, desired) == s
  {
    CopyLeadingStopsAtFirstWord(cc, s, desired.firstCharUpper);
    WordRegion(cc, s);
  }

  /** With a word region, the position-wise rewriting is the decoration around it and the emissions inside it. */
  lemma {:induction false} WordTranslationOnWordRegion(cc: Classifier, s: string, casing: Style, desired: Style)
    requires FirstWordIndex(cc, s) >= 0
    ensures var lead := FirstWordIndex(cc, s);
            var end := LastWordIndex(cc, s);
            WordTranslation(cc, s, casing, desired)
            == s[..lead] + [Recase(cc, desired.firstCharUpper, s[lead])] + Emissions(cc, s, lead, casing, desired, lead + 1, end + 1) + s[end + 1..]
  {
  }

  /** The three passes, from any source style, write the position-wise rewriting. */
  lemma {:induction false} TranslateWordsMatchesSpec(cc: Classifier, s: string, casing: Style, desired: Style)
    ensures TranslateWords(cc, s, casing, desired) == WordTranslation(cc, s, casing, desired)
  {
    if FirstWordIndex(cc, s) >= 0 {
      TranslateWordsOnWordRegion(cc, s, casing, desired);
      WordTranslationOnWordRegion(cc, s, casing, desired);
    } else {
      TranslateWordsKeepsDecoration(cc, s, casing, desired);
    }
  }

  /** Translation of a non-empty identifier whose detected style is known, into a legal target. */
  lemma {:induction false} TranslateFromDetected(cc: Classifier, s: string, casing: Style, desired: Style)
    requires s != ""
    requires desired != Mixed
    requires DetectIdentifierCasing(cc, Some(s)) == Success(casing)
    ensures Translate(cc, s, desired) == Success(if casing == desired then s else WordTranslation(cc, s, casing, desired))
  {
    TranslateWordsMatchesSpec(cc, s, casing, desired);
  }

  /** Translation into any legal target yields the position-wise translation. */
  lemma {:induction false} TranslateMatchesSpec(cc: Classifier, s: string, desired: Style)
    requires desired != Mixed
    ensures Translate(cc, s, desired) == Success(TranslationSpec(cc, s, desired))
  {
    if s != "" {
      DetectionMatchesEvidence(cc, s);
      TranslateFromDetected(cc, s, DetectionSpec(cc, s), desired);
    }
  }

  /**
    r keeps the decoration of s in place: when s is all decoration, r is s; otherwise the first
    word character of s comes no later than its last, and r starts with the decoration before the
    first word character and ends with the decoration after the last one, with something in between.
   */
  ghost predicate KeepsDecoration(cc: Classifier, s: string, r: string) {
    var lead := FirstWordIndex(cc, s);
    var end := LastWordIndex(cc, s);
    && (lead < 0 ==> r == s)
    && (lead >= 0 ==> lead <= end && |r| > lead + |s| - end - 1
                      && r[..lead] == s[..lead] && r[|r| - (|s| - end - 1)..] == s[end + 1..])
  }

  /**
    Translation keeps decoration in place: an identifier made only of decoration comes back
    unchanged, and otherwise the decoration before the first word character and after the last
    one is copied to the start and end of the result.
   */
  lemma {:induction false} TranslateKeepsDecoration(cc: Classifier, s: string, desired: Style)
    requires desired != Mixed
    ensures KeepsDecoration(cc, s, Translate(cc, s, desired).value)
  {
    TranslateMatchesSpec(cc, s, desired);
    TranslationSpecKeepsDecoration(cc, s, desired);
  }

  /** The translation, stated without the loops, keeps decoration in place. */
  lemma {:induction false} TranslationSpecKeepsDecoration(cc: Classifier, s: string, desired: Style)
    ensures KeepsDecoration(cc, s, TranslationSpec(cc, s, desired))
  {
    WordRegion(cc, s);
    var casing := DetectionSpec(cc, s);
    if s != "" && casing != desired {
      WordTranslationKeepsEnds(cc, s, casing, desired);
    }
  }

  /** When the word region is the whole identifier, there is no decoration to keep around it. */
  lemma {:induction false} WholeWordRegion(cc: Classifier, s: string, casing: Style, desired: Style)
    requires s != ""
    requires FirstWordIndex(cc, s) == 0 && LastWordIndex(cc, s) == |s| - 1
    ensures WordTranslation(cc, s, casing, desired) == [Recase(cc, desired.firstCharUpper, s[0])] + Emissions(cc, s, 0, casing, desired, 1, |s|)
  {
    EmptyFrame(s, [Recase(cc, desired.firstCharUpper, s[0])], Emissions(cc, s, 0, casing, desired, 1, |s|));
  }

  /** Framing by the empty head and tail of s leaves the middle as it is. */
  lemma {:induction false} EmptyFrame(s: string, first: string, rest: string)
    ensures s[..0] + first + rest + s[|s|..] == first + rest
  {
    assert s[..0] == [] && s[|s|..] == [];
  }

  /** The word-by-word rewriting keeps the decoration before the first and after the last word character. */
  lemma {:induction false} WordTranslationKeepsEnds(cc: Classifier, s: string, casing: Style, desired: Style)
    ensures KeepsDecoration(cc, s, WordTranslation(cc, s, casing, desired))
  {
    WordRegion(cc, s);
    var lead := FirstWordIndex(cc, s);
    var end := LastWordIndex(cc, s);
    if lead >= 0 {
      var first := [Recase(cc, desired.firstCharUpper, s[lead])];
      var rest := Emissions(cc, s, lead, casing, desired, lead + 1, end + 1);
      KeepsEnds(s, lead, end, first, rest, WordTranslation(cc, s, casing, desired));
    }
  }

  /** Putting a non-empty middle in place of s[lead..end] keeps what comes before lead and after end. */
  lemma {:induction false} KeepsEnds(s: string, lead: int, end: int, first: string, rest: string, r: string)
    requires 0 <= lead <= end < |s|
    requires first != ""
    requires r == s[..lead] + first + rest + s[end + 1..]
    ensures |r| > lead + |s| - end - 1 && r[..lead] == s[..lead] && r[|r| - (|s| - end - 1)..] == s[end + 1..]
  {
    assert r[..lead] == s[..lead];
    assert r[|r| - (|s| - end - 1)..] == s[end + 1..];
  }
}
