/**
  Writing a Pascal-cased identifier in a target style to a text sink, and reading an identifier
  from a text source into Pascal case. The sink is the text written so far, to which the
  identifier is appended; the source is the text not yet read, of which the identifier is a prefix.
 */
module Streams {
  import opened Wrappers
  import opened Chars
  import opened Styles
  import opened Detection
  import opened Translation
  import opened StringExtensions
  import opened WordBreaks

  /**
    What the writer appends for the characters of `id` from `offset` on: an upper-case character
    starts a word and gets the target's separators and word-start case, a lower-case character
    gets the word-body case, and any other character is copied.
   */
  function WriteRest(cc: Classifier, desired: Style, id: string, offset: nat): (r: string)
    requires offset <= |id|
    ensures |r| >= |id| - offset
    ensures !MarksWordBreaksBySeparator(desired) ==> |r| == |id| - offset
    decreases |id| - offset
  {
    if offset == |id| then ""
    else WriteChar(cc, desired, id[offset]) + WriteRest(cc, desired, id, offset + 1)
  }

  /**
    What the writer appends for one character after the first: an upper-case character starts a
    word and gets the target's separators and word-start case, a lower-case character gets the
    word-body case, and any other character is copied.
   */
  function WriteChar(cc: Classifier, desired: Style, ch: char): string {
    if cc.isUpper(ch) then Separators(desired) + [if WordStartUpper(desired) then ch else cc.toLower(ch)]
    else if cc.isLower(ch) then [if desired.wordBodyCharsUpper then cc.toUpper(ch) else ch]
    else [ch]
  }

  /** The style writes at least one separator character before each word after the first. */
  predicate MarksWordBreaksBySeparator(style: Style) {
    style.wordSeparatorDash || style.wordSeparatorSpace || style.wordSeparatorUnderscore
  }

  /**
    The sink after writing a Pascal-cased identifier in the desired style. A null writer is
    rejected; a Pascal target or an empty identifier is written as it is; the indeterminate style
    is rejected as a target; otherwise the first character takes the target's first case and the
    rest are written character by character.
   */
  function WriteCasedIdentifier(cc: Classifier, writer: Option<string>, desired: Style, id: string): (r: Result<string, Error>)
    ensures writer.None? ==> r == Failure(NullArgument)
    ensures writer.Some? && (desired == Pascal || id == "") ==> r == Success(writer.value + id)
    ensures writer.Some? && desired == Mixed && id != "" ==> r == Failure(UnsupportedTargetStyle)
    ensures writer.Some? && desired != Mixed ==> r.Success? && |r.value| >= |writer.value| + |id| && r.value[..|writer.value|] == writer.value
  {
    if writer.None? then Failure(NullArgument)
    else if desired == Pascal || id == "" then Success(writer.value + id)
    else if desired == Mixed then Failure(UnsupportedTargetStyle)
    else Success(writer.value + [Recase(cc, desired.firstCharUpper, id[0])] + WriteRest(cc, desired, id, 1))
  }

  /**
    A character the reader takes as part of an identifier: a letter or digit other than the NUL
    character, or one of '-', '_' and ' '.
   */
  predicate IdentifierChar(cc: Classifier, c: char) {
    (c != '\0' && cc.isLetterOrDigit(c)) || c == '-' || c == '_' || c == ' '
  }

  /** The length of the longest prefix of `input` made of identifier characters, counted from `offset`. */
  function TokenEnd(cc: Classifier, input: string, offset: nat): (r: nat)
    requires offset <= |input|
    ensures offset <= r <= |input|
    ensures forall i :: offset <= i < r ==> IdentifierChar(cc, input[i])
    ensures r == |input| || !IdentifierChar(cc, input[r])
    decreases |input| - offset
  {
    if offset == |input| || !IdentifierChar(cc, input[offset]) then offset
    else TokenEnd(cc, input, offset + 1)
  }

  /** The identifier read, in Pascal case, and the text left in the source. */
  datatype ReadResult = ReadResult(identifier: string, remaining: string)

  /**
    Reading an identifier: a null reader is rejected; otherwise the longest prefix of identifier
    characters is consumed, the character after it stays unread, and the prefix is translated
    into Pascal case.
   */
  function ReadNormalizedCaseIdentifier(cc: Classifier, input: Option<string>): (r: Result<ReadResult, Error>)
    ensures input.None? <==> r == Failure(NullArgument)
    ensures input.Some? ==> r.Success?
    ensures input.Some? ==>
              var n := |input.value| - |r.value.remaining|;
              && 0 <= n <= |input.value|
              && input.value == input.value[..n] + r.value.remaining
              && (forall i :: 0 <= i < n ==> IdentifierChar(cc, input.value[i]))
              && (r.value.remaining == "" || !IdentifierChar(cc, r.value.remaining[0]))
              && Translate(cc, input.value[..n], Pascal) == Success(r.value.identifier)
  {
    if input.None? then Failure(NullArgument)
    else
      var n := TokenEnd(cc, input.value, 0);
      Success(ReadResult(NormalizeIdentifierCasing(cc, input.value[..n]), input.value[n..]))
  }

  /**
    Reading is determined by where the identifier ends: when the source is a run of identifier
    characters followed by text that does not start with one, the run is what is read and the
    text after it is what remains.
   */
  lemma {:induction false} ReadSplitsAtFirstNonIdentifierChar(cc: Classifier, token: string, rest: string)
    requires forall i :: 0 <= i < |token| ==> IdentifierChar(cc, token[i])
    requires rest == "" || !IdentifierChar(cc, rest[0])
    ensures ReadNormalizedCaseIdentifier(cc, Some(token + rest)) == Success(ReadResult(NormalizeIdentifierCasing(cc, token), rest))
  {
    var input := token + rest;
    var n := TokenEnd(cc, input, 0);
    assert forall i :: 0 <= i < |token| ==> input[i] == token[i];
    assert |token| < |input| ==> input[|token|] == rest[0];
    assert input[..n] == token;
  }

  /**
    Every character of s is an upper- or lower-case letter, or a word character that neither case
    mapping changes, such as a digit. Decoration is excluded: the writer copies it, while a
    translation drops it as a word break.
   */
  predicate WordChars(cc: Classifier, s: string) {
    forall i :: 0 <= i < |s| ==> WordChar(cc, s[i])
  }

  /** A cased letter, or a word character fixed by both case mappings. */
  predicate WordChar(cc: Classifier, c: char) {
    || cc.isUpper(c) || cc.isLower(c)
    || (!IsDecoration(cc, c) && cc.toUpper(c) == c && cc.toLower(c) == c)
  }

  /** On word characters, the writer writes each character as its emission in a translation from Pascal case. */
  lemma {:induction false} WriteRestMatchesEmissions(cc: Classifier, desired: Style, p: string, offset: nat)
    requires Valid(cc)
    requires WordChars(cc, p)
    requires 0 < offset <= |p|
    ensures WriteRest(cc, desired, p, offset) == Emissions(cc, p, 0, Pascal, desired, offset, |p|)
    decreases |p| - offset
  {
    if offset < |p| {
      var ch := p[offset];
      assert WordChar(cc, ch);
      assert !IsDecoration(cc, ch);
      assert !Dropped(cc, p, 0, offset);
      assert offset - 1 > 0 ==> !Dropped(cc, p, 0, offset - 1) by {
        if offset - 1 > 0 {
          assert WordChar(cc, p[offset - 1]);
          assert !IsDecoration(cc, p[offset - 1]);
        }
      }
      assert WordStart(cc, p, 0, Pascal, offset) == cc.isUpper(ch);
      WriteRestMatchesEmissions(cc, desired, p, offset + 1);
    }
  }

  /** In an identifier of word characters, the word region is the whole identifier. */
  lemma {:induction false} CasedWordRegion(cc: Classifier, p: string)
    requires Valid(cc)
    requires WordChars(cc, p)
    requires p != ""
    ensures FirstWordIndex(cc, p) == 0
    ensures LastWordIndex(cc, p) == |p| - 1
  {
    assert WordChar(cc, p[0]) && WordChar(cc, p[|p| - 1]);
  }

  /** The position-wise rewriting of an identifier of word characters from Pascal case. */
  lemma {:induction false} TranslationFromPascal(cc: Classifier, desired: Style, p: string)
    requires Valid(cc)
    requires WordChars(cc, p)
    requires p != ""
    ensures WordTranslation(cc, p, Pascal, desired) == [Recase(cc, desired.firstCharUpper, p[0])] + Emissions(cc, p, 0, Pascal, desired, 1, |p|)
  {
    CasedWordRegion(cc, p);
    WholeWordRegion(cc, p, Pascal, desired);
  }

  /**
    Writing a Pascal-cased identifier made of word characters gives the same text as translating it:
    the writer's shortcut of treating every upper-case letter as a word start agrees with the
    general translation when the source is in Pascal case.
   */
  lemma {:induction false} WriteMatchesTranslate(cc: Classifier, sink: string, desired: Style, p: string)
    requires Valid(cc)
    requires WordChars(cc, p)
    requires p != "" ==> DetectIdentifierCasing(cc, Some(p)) == Success(Pascal)
    requires desired != Mixed
    ensures WriteCasedIdentifier(cc, Some(sink), desired, p) == Success(sink + Translate(cc, p, desired).value)
  {
    if p != "" && desired != Pascal {
      TranslateFromDetected(cc, p, Pascal, desired);
      WriteIsWordTranslation(cc, sink, desired, p);
    }
  }

  /** Writing an identifier of word characters appends its position-wise rewriting from Pascal case. */
  lemma {:induction false} WriteIsWordTranslation(cc: Classifier, sink: string, desired: Style, p: string)
    requires Valid(cc)
    requires WordChars(cc, p)
    requires p != ""
    requires desired != Mixed && desired != Pascal
    ensures WriteCasedIdentifier(cc, Some(sink), desired, p) == Success(sink + WordTranslation(cc, p, Pascal, desired))
  {
    TranslationFromPascal(cc, desired, p);
    WriteRestMatchesEmissions(cc, desired, p, 1);
    var first := [Recase(cc, desired.firstCharUpper, p[0])];
    assert sink + first + WriteRest(cc, desired, p, 1) == sink + (first + WriteRest(cc, desired, p, 1));
  }

  /** s with every occurrence of c removed. */
  function Without(s: string, c: char): (r: string)
    ensures c !in r
    ensures |r| <= |s|
  {
    if s == [] then [] else (if s[0] == c then [] else [s[0]]) + Without(s[1..], c)
  }

  /** Removing c from a concatenation removes it from each part. */
  lemma {:induction false} WithoutConcat(a: string, b: string, c: char)
    ensures Without(a + b, c) == Without(a, c) + Without(b, c)
  {
    if a != [] {
      var head := if a[0] == c then [] else [a[0]];
      assert (a + b)[0] == a[0];
      assert (a + b)[1..] == a[1..] + b;
      assert Without(a + b, c) == head + Without(a[1..] + b, c);
      WithoutConcat(a[1..], b, c);
      assert head + (Without(a[1..], c) + Without(b, c)) == (head + Without(a[1..], c)) + Without(b, c);
    } else {
      assert a + b == b;
    }
  }

  /** What Train or Spreadsheet writing appends for a rest without the separator, with the separator removed, is that rest. */
  lemma {:induction false} WriteRestSeparatorRedundant(cc: Classifier, desired: Style, sep: char, p: string, offset: nat)
    requires (desired == Train && sep == '-') || (desired == Spreadsheet && sep == ' ')
    requires offset <= |p|
    requires forall i :: offset <= i < |p| ==> p[i] != sep
    ensures Without(WriteRest(cc, desired, p, offset), sep) == p[offset..]
    decreases |p| - offset
  {
    if offset < |p| {
      var ch := p[offset];
      WriteCharSeparatorRedundant(cc, desired, sep, ch);
      WithoutConcat(WriteChar(cc, desired, ch), WriteRest(cc, desired, p, offset + 1), sep);
      WriteRestSeparatorRedundant(cc, desired, sep, p, offset + 1);
      assert p[offset..] == [ch] + p[offset + 1..];
    }
  }

  /**
    What Train or Spreadsheet writing appends for one character other than the separator, with the
    separator removed, is that character: both styles keep the case of every letter after the first.
   */
  lemma {:induction false} WriteCharSeparatorRedundant(cc: Classifier, desired: Style, sep: char, ch: char)
    requires (desired == Train && sep == '-') || (desired == Spreadsheet && sep == ' ')
    requires ch != sep
    ensures Without(WriteChar(cc, desired, ch), sep) == [ch]
  {
    if cc.isUpper(ch) {
      assert WriteChar(cc, desired, ch) == [sep] + [ch];
      WithoutConcat([sep], [ch], sep);
    }
  }

  /** Written in Train or Spreadsheet case, a Pascal-cased identifier of word characters comes back when its separator is removed. */
  lemma {:induction false} SeparatorIsRedundant(cc: Classifier, desired: Style, sep: char, p: string)
    requires Valid(cc)
    requires WordChars(cc, p)
    requires p != "" ==> cc.isUpper(p[0])
    requires (desired == Train && sep == '-') || (desired == Spreadsheet && sep == ' ')
    ensures Without(WriteCasedIdentifier(cc, Some(""), desired, p).value, sep) == p
  {
    if p != "" {
      var first := [Recase(cc, true, p[0])];
      var rest := WriteRest(cc, desired, p, 1);
      assert first == [p[0]];
      assert WriteCasedIdentifier(cc, Some(""), desired, p).value == first + rest;
      forall i | 0 <= i < |p|
        ensures p[i] != sep
      {
        assert WordChar(cc, p[i]);
      }
      WriteRestSeparatorRedundant(cc, desired, sep, p, 1);
      WithoutConcat(first, rest, sep);
      assert p == [p[0]] + p[1..];
    }
  }

  /**
    The '-' of Train case and the ' ' of Spreadsheet case are redundant: written from a
    Pascal-cased identifier of word characters, removing them gives back the identifier.
   */
  lemma {:induction false} TrainAndSpreadsheetSeparatorsAreRedundant(cc: Classifier, p: string)
    requires Valid(cc)
    requires WordChars(cc, p)
    requires p != "" ==> cc.isUpper(p[0])
    ensures Without(WriteCasedIdentifier(cc, Some(""), Train, p).value, '-') == p
    ensures Without(WriteCasedIdentifier(cc, Some(""), Spreadsheet, p).value, ' ') == p
  {
    SeparatorIsRedundant(cc, Train, '-', p);
    SeparatorIsRedundant(cc, Spreadsheet, ' ', p);
  }

  /** Characters that are neither upper nor lower case are copied by the writer as they are. */
  lemma {:induction false} WriteRestCopiesUncased(cc: Classifier, desired: Style, id: string, offset: nat)
    requires offset <= |id|
    requires forall i :: offset <= i < |id| ==> !cc.isUpper(id[i]) && !cc.isLower(id[i])
    ensures WriteRest(cc, desired, id, offset) == id[offset..]
    decreases |id| - offset
  {
    if offset < |id| {
      WriteRestCopiesUncased(cc, desired, id, offset + 1);
      assert id[offset..] == [id[offset]] + id[offset + 1..];
    }
  }
}
