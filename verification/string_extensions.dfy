/**
  Scans that find the first or last word character of a string range, skipping
  decoration (whitespace, punctuation and, in most variants, symbols).
  Each scan looks at the characters with indices in [start, stop), where stop is the
  end of the string when `count` is negative or runs past the end, and start + count otherwise.
 */
module StringExtensions {
  import opened Wrappers
  import opened Chars

  /** The exclusive end of the scanned range. */
  function StopIndex(length: int, start: int, count: int): int {
    if count < 0 || start + count > length then length else start + count
  }

  /** Every in-bounds character with index in [lo, hi) is skipped by the scan. */
  ghost predicate AllSkipped(cc: Classifier, s: string, withSymbols: bool, lo: int, hi: int) {
    forall k :: lo <= k < hi && 0 <= k < |s| ==> Skipped(cc, s[k], withSymbols)
  }

  /**
    What a forward scan over [start, stop) returns: an IndexOutOfRange failure when its first read
    is before the string, otherwise the least index of a character not skipped, or -1 if there is none.
   */
  ghost predicate FirstScanOutcome(cc: Classifier, s: string, withSymbols: bool, start: int, stop: int, r: Result<int, Error>)
    requires stop <= |s|
  {
    if start < 0 && start < stop then r == Failure(IndexOutOfRange)
    else if AllSkipped(cc, s, withSymbols, start, stop) then r == Success(-1)
    else
      && r.Success?
      && start <= r.value < stop
      && !Skipped(cc, s[r.value], withSymbols)
      && AllSkipped(cc, s, withSymbols, start, r.value)
  }

  /**
    What a backward scan over [start, stop) returns: the greatest index of a character not skipped;
    failing that, an IndexOutOfRange failure when the scan runs before the string, and -1 otherwise.
   */
  ghost predicate LastScanOutcome(cc: Classifier, s: string, withSymbols: bool, start: int, stop: int, r: Result<int, Error>)
    requires stop <= |s|
  {
    if !AllSkipped(cc, s, withSymbols, start, stop) then
      && r.Success?
      && start <= r.value < stop
      && 0 <= r.value
      && !Skipped(cc, s[r.value], withSymbols)
      && AllSkipped(cc, s, withSymbols, r.value + 1, stop)
    else if start < 0 && start < stop then r == Failure(IndexOutOfRange)
    else r == Success(-1)
  }

  /** The loop of a forward scan: it visits the indices from `index` up to `stop - 1`, in increasing order. */
  function ScanForward(cc: Classifier, s: string, withSymbols: bool, index: int, stop: int): (r: Result<int, Error>)
    requires stop <= |s|
    ensures FirstScanOutcome(cc, s, withSymbols, index, stop, r)
    decreases stop - index
  {
    if index >= stop then Success(-1)
    else if index < 0 then Failure(IndexOutOfRange)
    else if !Skipped(cc, s[index], withSymbols) then Success(index)
    else ScanForward(cc, s, withSymbols, index + 1, stop)
  }

  /** The loop of a backward scan: it visits the indices from `index` down to `start`, in decreasing order. */
  function ScanBackward(cc: Classifier, s: string, withSymbols: bool, start: int, index: int): (r: Result<int, Error>)
    requires index < |s|
    ensures LastScanOutcome(cc, s, withSymbols, start, index + 1, r)
    decreases index - start
  {
    if index < start then Success(-1)
    else if index < 0 then Failure(IndexOutOfRange)
    else if !Skipped(cc, s[index], withSymbols) then Success(index)
    else ScanBackward(cc, s, withSymbols, start, index - 1)
  }

  /** The first index in the range whose character is not whitespace, punctuation or a symbol, or -1. */
  function IndexOfNotPunctuationWhitespaceOrSymbol(cc: Classifier, source: Option<string>, start: int := 0, count: int := -1): (r: Result<int, Error>)
    ensures source.None? ==> r == Failure(NullArgument)
    ensures source.Some? ==> FirstScanOutcome(cc, source.value, true, start, StopIndex(|source.value|, start, count), r)
  {
    if source.None? then Failure(NullArgument)
    else ScanForward(cc, source.value, true, start, StopIndex(|source.value|, start, count))
  }

  /** The last index in the range whose character is not whitespace, punctuation or a symbol, or -1. */
  function LastIndexOfNotPunctuationWhitespaceOrSymbol(cc: Classifier, source: Option<string>, start: int := 0, count: int := -1): (r: Result<int, Error>)
    ensures source.None? ==> r == Failure(NullArgument)
    ensures source.Some? ==> LastScanOutcome(cc, source.value, true, start, StopIndex(|source.value|, start, count), r)
  {
    if source.None? then Failure(NullArgument)
    else ScanBackward(cc, source.value, true, start, StopIndex(|source.value|, start, count) - 1)
  }

  /** The last index in the range whose character is not whitespace or punctuation (symbols count as word characters), or -1. */
  function LastIndexOfNotPunctuationOrWhitespace(cc: Classifier, source: Option<string>, start: int := 0, count: int := -1): (r: Result<int, Error>)
    ensures source.None? ==> r == Failure(NullArgument)
    ensures source.Some? ==> LastScanOutcome(cc, source.value, false, start, StopIndex(|source.value|, start, count), r)
  {
    if source.None? then Failure(NullArgument)
    else ScanBackward(cc, source.value, false, start, StopIndex(|source.value|, start, count) - 1)
  }

  /** The scans only depend on the characters inside their range. */
  lemma {:induction false} ScansReadOnlyTheirRange(cc: Classifier, s: string, t: string, start: int, count: int)
    requires |s| == |t|
    requires forall k :: start <= k < StopIndex(|s|, start, count) && 0 <= k ==> s[k] == t[k]
    ensures IndexOfNotPunctuationWhitespaceOrSymbol(cc, Some(s), start, count) == IndexOfNotPunctuationWhitespaceOrSymbol(cc, Some(t), start, count)
    ensures LastIndexOfNotPunctuationWhitespaceOrSymbol(cc, Some(s), start, count) == LastIndexOfNotPunctuationWhitespaceOrSymbol(cc, Some(t), start, count)
    ensures LastIndexOfNotPunctuationOrWhitespace(cc, Some(s), start, count) == LastIndexOfNotPunctuationOrWhitespace(cc, Some(t), start, count)
  {
  }

  /**
    Treating symbols as word characters can only move the last word character later:
    on the same range the symbol-blind scan fails only when the symbol-aware one does,
    and otherwise returns an index no smaller.
   */
  lemma {:induction false} SymbolBlindLastIsNotEarlier(cc: Classifier, s: string, start: int, count: int)
    ensures var aware := LastIndexOfNotPunctuationWhitespaceOrSymbol(cc, Some(s), start, count);
            var blind := LastIndexOfNotPunctuationOrWhitespace(cc, Some(s), start, count);
            && (blind.Failure? ==> aware.Failure?)
            && (aware.Success? && blind.Success? ==> aware.value <= blind.value)
  {
  }

  /**
    On one range, the forward scan finds nothing exactly when the backward symbol-aware scan
    finds nothing, and otherwise the first word character is not after the last.
   */
  lemma {:induction false} FirstAndLastAgree(cc: Classifier, s: string, start: int, count: int)
    requires 0 <= start
    ensures var first := IndexOfNotPunctuationWhitespaceOrSymbol(cc, Some(s), start, count);
            var last := LastIndexOfNotPunctuationWhitespaceOrSymbol(cc, Some(s), start, count);
            && first.Success? && last.Success?
            && (first.value == -1 <==> last.value == -1)
            && first.value <= last.value
  {
  }

  /** The first word character of s (symbol-aware), or -1 when s is all decoration. */
  function FirstWordIndex(cc: Classifier, s: string): (lead: int)
    ensures -1 <= lead < |s|
    ensures lead == -1 <==> AllSkipped(cc, s, true, 0, |s|)
    ensures lead >= 0 ==> !IsDecoration(cc, s[lead]) && AllSkipped(cc, s, true, 0, lead)
  {
    IndexOfNotPunctuationWhitespaceOrSymbol(cc, Some(s)).value
  }

  /** The last word character of s (symbol-aware), or -1 when s is all decoration. */
  function LastWordIndex(cc: Classifier, s: string): (end: int)
    ensures -1 <= end < |s|
    ensures end == -1 <==> AllSkipped(cc, s, true, 0, |s|)
    ensures end >= 0 ==> !IsDecoration(cc, s[end]) && AllSkipped(cc, s, true, end + 1, |s|)
  {
    LastIndexOfNotPunctuationWhitespaceOrSymbol(cc, Some(s)).value
  }

  /** The last character of s that is neither whitespace nor punctuation, or -1. */
  function LastNonBlankIndex(cc: Classifier, s: string): (last: int)
    ensures -1 <= last < |s|
    ensures last == -1 <==> AllSkipped(cc, s, false, 0, |s|)
    ensures last >= 0 ==> !IsBlank(cc, s[last]) && AllSkipped(cc, s, false, last + 1, |s|)
  {
    LastIndexOfNotPunctuationOrWhitespace(cc, Some(s)).value
  }
}
