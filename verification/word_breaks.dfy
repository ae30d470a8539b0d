/**
  What the word pass of a translation writes for each character of the word region, stated
  position by position rather than as a loop. The word region of s starts after its first word
  character `lead`. Inside it, a decoration character is dropped when it starts a run of decoration
  or follows a character that was kept after a dropped one: within a run of consecutive decoration
  characters, the first, third, fifth, ... are dropped and the others are kept as ordinary characters.
 */
module WordBreaks {
  import opened Chars
  import opened Styles

  /** The first index of the run of decoration characters that ends just before k, or k when s[k - 1] is not decoration. */
  function RunStart(cc: Classifier, s: string, lead: int, k: int): (r: int)
    requires 0 <= lead < k < |s|
    ensures lead < r <= k
    decreases k
  {
    if k - 1 > lead && IsDecoration(cc, s[k - 1]) then RunStart(cc, s, lead, k - 1) else k
  }

  /**
    The character at k is a word break that the word pass skips: a decoration character is
    dropped unless the character before it, inside the word region, was dropped.
   */
  predicate Dropped(cc: Classifier, s: string, lead: int, k: int)
    requires 0 <= lead < k < |s|
    decreases k
  {
    IsDecoration(cc, s[k]) && !(k - 1 > lead && Dropped(cc, s, lead, k - 1))
  }

  /** Within a run of decoration characters, exactly those an even distance from the start of the run are dropped. */
  lemma {:induction false} DroppedAtEvenRunOffset(cc: Classifier, s: string, lead: int, k: int)
    requires 0 <= lead < k < |s|
    ensures Dropped(cc, s, lead, k) <==> IsDecoration(cc, s[k]) && (k - RunStart(cc, s, lead, k)) % 2 == 0
    decreases k
  {
    if k - 1 > lead {
      DroppedAtEvenRunOffset(cc, s, lead, k - 1);
    }
  }

  /** The last dropped position before k, or lead when there is none. */
  function LastDrop(cc: Classifier, s: string, lead: int, k: int): (r: int)
    requires 0 <= lead < k <= |s|
    ensures lead <= r < k
    ensures r > lead ==> Dropped(cc, s, lead, r)
    decreases k
  {
    if k - 1 <= lead then lead
    else if Dropped(cc, s, lead, k - 1) then k - 1
    else LastDrop(cc, s, lead, k - 1)
  }

  /** Some character that is not upper case lies after the last dropped character before k. */
  ghost predicate NonUpperSinceBreak(cc: Classifier, s: string, lead: int, k: int)
    requires 0 <= lead < k <= |s|
  {
    exists j :: LastDrop(cc, s, lead, k) < j < k && !cc.isUpper(s[j])
  }

  /**
    The kept character at k starts a word: it follows a dropped character, or it is upper case and
    the source style breaks words at upper case, or the source style is indeterminate and a
    character that is not upper case came since the last dropped one.
   */
  ghost predicate WordStart(cc: Classifier, s: string, lead: int, casing: Style, k: int)
    requires 0 <= lead < k < |s|
  {
    && !Dropped(cc, s, lead, k)
    && ((k - 1 > lead && Dropped(cc, s, lead, k - 1))
        || (cc.isUpper(s[k]) && (BreaksAtUpperCase(casing) || (casing == Mixed && NonUpperSinceBreak(cc, s, lead, k)))))
  }

  /**
    What the character at k becomes: nothing when dropped; the target's separators and the character
    in the target's word-start case when it starts a word; otherwise the character in the target's
    word-body case.
   */
  ghost function Emission(cc: Classifier, s: string, lead: int, casing: Style, desired: Style, k: int): string
    requires 0 <= lead < k < |s|
  {
    if Dropped(cc, s, lead, k) then ""
    else if WordStart(cc, s, lead, casing, k) then Separators(desired) + [Recase(cc, WordStartUpper(desired), s[k])]
    else [Recase(cc, desired.wordBodyCharsUpper, s[k])]
  }

  /** The emissions of the positions in [lo, hi), in order. */
  ghost function Emissions(cc: Classifier, s: string, lead: int, casing: Style, desired: Style, lo: int, hi: int): string
    requires 0 <= lead < lo
    requires hi <= |s|
    decreases hi - lo
  {
    if lo >= hi then "" else Emission(cc, s, lead, casing, desired, lo) + Emissions(cc, s, lead, casing, desired, lo + 1, hi)
  }
}
