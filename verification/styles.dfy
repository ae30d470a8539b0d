/**
  Casing styles. A style is a set of six independent flags rather than a closed list of
  conventions; the named conventions are fixed flag combinations, and the all-clear value
  marks an identifier whose word breaks cannot be determined.
 */
module Styles {

  datatype Style = Style(
    firstCharUpper: bool,          // the first word character is upper case
    wordBodyCharsUpper: bool,      // characters after the first of each word are upper case
    wordSeparatorCaseSwitch: bool, // a word starts with a change of case
    wordSeparatorDash: bool,       // words are separated by '-'
    wordSeparatorSpace: bool,      // words are separated by ' '
    wordSeparatorUnderscore: bool  // words are separated by '_'
  )

  /** No flag set: the indeterminate style (the library's `None`), never a legal output target. */
  const Mixed := Style(false, false, false, false, false, false)

  const Pascal := Mixed.(firstCharUpper := true, wordSeparatorCaseSwitch := true)
  const Camel := Mixed.(wordSeparatorCaseSwitch := true)
  const Kebab := Mixed.(wordSeparatorDash := true)
  const Snake := Mixed.(wordSeparatorUnderscore := true)
  const Cobol := Mixed.(firstCharUpper := true, wordBodyCharsUpper := true, wordSeparatorDash := true)
  const Macro := Mixed.(firstCharUpper := true, wordBodyCharsUpper := true, wordSeparatorUnderscore := true)
  const Lower := Mixed.(wordSeparatorSpace := true)
  const Upper := Mixed.(firstCharUpper := true, wordBodyCharsUpper := true, wordSeparatorSpace := true)
  const Train := Mixed.(firstCharUpper := true, wordSeparatorCaseSwitch := true, wordSeparatorDash := true)
  const Spreadsheet := Mixed.(firstCharUpper := true, wordSeparatorCaseSwitch := true, wordSeparatorSpace := true)

  /** The ten conventions the library names, in declaration order. */
  const NamedStyles := [Pascal, Camel, Kebab, Cobol, Snake, Macro, Lower, Upper, Train, Spreadsheet]

  /** A style can mark word breaks: by a change of case or by at least one separator character. */
  predicate MarksWordBreaks(style: Style) {
    style.wordSeparatorCaseSwitch || style.wordSeparatorDash || style.wordSeparatorSpace || style.wordSeparatorUnderscore
  }

  /** The separator characters written before each word after the first, in the order dash, space, underscore. */
  function Separators(style: Style): string {
    (if style.wordSeparatorDash then "-" else "")
    + (if style.wordSeparatorSpace then " " else "")
    + (if style.wordSeparatorUnderscore then "_" else "")
  }

  /** Whether the first character of each word after the first is upper case. */
  function WordStartUpper(style: Style): bool {
    if style.wordSeparatorCaseSwitch then !style.wordBodyCharsUpper else style.wordBodyCharsUpper
  }

  /** The source styles whose word breaks are found at upper-case characters. */
  predicate BreaksAtUpperCase(casing: Style) {
    casing == Pascal || casing == Train || casing == Spreadsheet || casing == Camel
  }

  /** The named conventions are pairwise distinct and none of them is the indeterminate style. */
  lemma {:induction false} NamedStylesDistinct()
    ensures forall i, j :: 0 <= i < j < |NamedStyles| ==> NamedStyles[i] != NamedStyles[j]
    ensures Mixed !in NamedStyles
  {
  }

  /** Every named convention marks word breaks, and the indeterminate style does not. */
  lemma {:induction false} NamedStylesMarkWordBreaks()
    ensures forall i :: 0 <= i < |NamedStyles| ==> MarksWordBreaks(NamedStyles[i])
    ensures !MarksWordBreaks(Mixed)
  {
  }

  /** The separators of a style are exactly its set separator flags, each character once. */
  lemma {:induction false} SeparatorsMatchFlags(style: Style)
    ensures ('-' in Separators(style)) == style.wordSeparatorDash
    ensures (' ' in Separators(style)) == style.wordSeparatorSpace
    ensures ('_' in Separators(style)) == style.wordSeparatorUnderscore
    ensures |Separators(style)| == (if style.wordSeparatorDash then 1 else 0)
                                 + (if style.wordSeparatorSpace then 1 else 0)
                                 + (if style.wordSeparatorUnderscore then 1 else 0)
  {
  }
}
