/**
  Character classification, as done by the .NET `Char` predicates and invariant case mappings.
  The Unicode tables are not modelled: a `Classifier` is any bundle of predicates, and `Valid`
  lists the few facts about the real tables that the proofs rely on. A character here is a Unicode
  scalar value, where .NET works on UTF-16 code units.
 */
module Chars {

  datatype Classifier = Classifier(
    isUpper: char -> bool,         // Char.IsUpper
    isLower: char -> bool,         // Char.IsLower
    isWhiteSpace: char -> bool,    // Char.IsWhiteSpace
    isPunctuation: char -> bool,   // Char.IsPunctuation
    isSymbol: char -> bool,        // Char.IsSymbol
    isLetterOrDigit: char -> bool, // Char.IsLetterOrDigit
    toUpper: char -> char,         // Char.ToUpperInvariant
    toLower: char -> char          // Char.ToLowerInvariant
  )

  /** Whitespace, punctuation or symbol: the characters that never belong to a word. */
  predicate IsDecoration(cc: Classifier, c: char) {
    cc.isWhiteSpace(c) || cc.isPunctuation(c) || cc.isSymbol(c)
  }

  /** Whitespace or punctuation: decoration as seen by a scan that treats symbols as word characters. */
  predicate IsBlank(cc: Classifier, c: char) {
    cc.isWhiteSpace(c) || cc.isPunctuation(c)
  }

  /** What a scan skips: blanks, and symbols too when `withSymbols` holds. */
  predicate Skipped(cc: Classifier, c: char, withSymbols: bool) {
    if withSymbols then IsDecoration(cc, c) else IsBlank(cc, c)
  }

  /** `c` mapped to upper case when `upper` holds and to lower case otherwise. */
  function Recase(cc: Classifier, upper: bool, c: char): char {
    if upper then cc.toUpper(c) else cc.toLower(c)
  }

  /**
    Facts about the Unicode categories and invariant case mappings that hold in .NET:
    upper and lower case letters are disjoint letters, letters and digits are never
    decoration, a letter is fixed by the mapping to its own case, and the three
    separator characters are punctuation or whitespace.
   */
  ghost predicate Valid(cc: Classifier) {
    && (forall c :: !(cc.isUpper(c) && cc.isLower(c)))
    && (forall c :: cc.isUpper(c) ==> cc.isLetterOrDigit(c))
    && (forall c :: cc.isLower(c) ==> cc.isLetterOrDigit(c))
    && (forall c :: cc.isLetterOrDigit(c) ==> !IsDecoration(cc, c))
    && (forall c :: cc.isUpper(c) ==> cc.toUpper(c) == c)
    && (forall c :: cc.isLower(c) ==> cc.toLower(c) == c)
    && cc.isPunctuation('-') && cc.isPunctuation('_') && cc.isWhiteSpace(' ')
  }

  function AsciiIsUpper(c: char): bool { 'A' <= c <= 'Z' }

  function AsciiIsLower(c: char): bool { 'a' <= c <= 'z' }

  function AsciiIsWhiteSpace(c: char): bool { c == ' ' || '\t' <= c <= '\r' }

  /** ASCII punctuation, plus the em dash, inverted question mark, corner bracket and Thai angkhankhu. */
  function AsciiIsPunctuation(c: char): bool {
    || ('!' <= c <= '/' && c != '$' && c != '+')
    || c == ':' || c == ';' || c == '?' || c == '@'
    || ('[' <= c <= ']') || c == '_' || c == '{' || c == '}'
    || c == '\U{2014}' || c == '\U{BF}' || c == '\U{300C}' || c == '\U{E5A}'
  }

  function AsciiIsSymbol(c: char): bool {
    c == '$' || c == '+' || ('<' <= c <= '>') || c == '^' || c == '`' || c == '|' || c == '~'
  }

  function AsciiIsLetterOrDigit(c: char): bool {
    AsciiIsUpper(c) || AsciiIsLower(c) || '0' <= c <= '9'
  }

  function AsciiToUpper(c: char): char {
    if AsciiIsLower(c) then (c as int - 32) as char else c
  }

  function AsciiToLower(c: char): char {
    if AsciiIsUpper(c) then (c as int + 32) as char else c
  }

  /** The categories .NET assigns to ASCII characters (and to the four punctuation marks above). */
  const Ascii := Classifier(AsciiIsUpper, AsciiIsLower, AsciiIsWhiteSpace, AsciiIsPunctuation,
                            AsciiIsSymbol, AsciiIsLetterOrDigit, AsciiToUpper, AsciiToLower)

  /** The ASCII instance satisfies the axioms, so they are consistent. */
  lemma {:induction false} AsciiIsValid()
    ensures Valid(Ascii)
  {
  }
}
