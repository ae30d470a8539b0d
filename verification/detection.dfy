/**
  Detection of the casing style of an identifier, in one pass over the characters strictly
  between its first word character and its last non-blank character.
 */
module Detection {
  import opened Wrappers
  import opened Chars
  import opened Styles
  import opened StringExtensions

  /** What the detection pass has seen. */
  datatype Evidence = Evidence(
    hasUpper: bool,      // some upper-case character
    hasLower: bool,      // some lower-case character
    dash: bool,          // some '-'
    space: bool,         // some ' '
    underscore: bool,    // some '_'
    leadingUpper: bool,  // an upper-case character right after decoration
    leadingLower: bool,  // a lower-case character right after decoration
    internalUpper: bool, // an upper-case character two places after decoration
    internalLower: bool  // a lower-case character two places after decoration
  )

  const NoEvidence := Evidence(false, false, false, false, false, false, false, false, false)

  /** The loop variables: the evidence so far, and whether the previous and the one before were decoration. */
  datatype PassState = PassState(evidence: Evidence, prevDefiniteWordBreak: bool, prevLeadingWordChar: bool)

  const InitialPass := PassState(NoEvidence, false, false)

  /** One iteration of the detection loop, on character `ch`. */
  function Observe(cc: Classifier, st: PassState, ch: char): PassState {
    var isUpper := cc.isUpper(ch);
    var isLower := cc.isLower(ch);
    var ev := st.evidence;
    var ev' := Evidence(
      ev.hasUpper || isUpper,
      ev.hasLower || isLower,
      ev.dash || ch == '-',
      ev.space || ch == ' ',
      ev.underscore || ch == '_',
      ev.leadingUpper || (st.prevDefiniteWordBreak && isUpper),
      ev.leadingLower || (st.prevDefiniteWordBreak && isLower),
      ev.internalUpper || (st.prevLeadingWordChar && isUpper),
      ev.internalLower || (st.prevLeadingWordChar && isLower));
    PassState(ev', IsDecoration(cc, ch), st.prevDefiniteWordBreak)
  }

  /** The detection loop over offsets [offset, last). */
  function Gather(cc: Classifier, s: string, offset: int, last: int, st: PassState): Evidence
    requires 0 <= offset
    requires last <= |s|
    decreases last - offset
  {
    if offset >= last then st.evidence
    else Gather(cc, s, offset + 1, last, Observe(cc, st, s[offset]))
  }

  /** The facts the detection pass records about a position. */
  datatype Fact =
    | UpperCase | LowerCase | Dash | Space | Underscore
    | LeadingUpper | LeadingLower | InternalUpper | InternalLower

  /**
    Whether fact f holds at position k of a pass that starts after lo: a character is
    word-leading when the character before it, itself after lo, is decoration, and
    word-internal when the character two before it is.
   */
  ghost predicate HoldsAt(cc: Classifier, s: string, lo: int, k: int, f: Fact)
    requires 0 <= lo < k < |s|
  {
    match f
    case UpperCase => cc.isUpper(s[k])
    case LowerCase => cc.isLower(s[k])
    case Dash => s[k] == '-'
    case Space => s[k] == ' '
    case Underscore => s[k] == '_'
    case LeadingUpper => k - 1 > lo && IsDecoration(cc, s[k - 1]) && cc.isUpper(s[k])
    case LeadingLower => k - 1 > lo && IsDecoration(cc, s[k - 1]) && cc.isLower(s[k])
    case InternalUpper => k - 2 > lo && IsDecoration(cc, s[k - 2]) && cc.isUpper(s[k])
    case InternalLower => k - 2 > lo && IsDecoration(cc, s[k - 2]) && cc.isLower(s[k])
  }

  /** Fact f holds at some position strictly between lo and hi. */
  ghost predicate Seen(cc: Classifier, s: string, lo: int, hi: int, f: Fact)
    requires 0 <= lo
    requires hi <= |s|
  {
    exists k :: lo < k < hi && HoldsAt(cc, s, lo, k, f)
  }

  /** The evidence found strictly between positions lo and hi, stated position by position. */
  ghost function EvidenceIn(cc: Classifier, s: string, lo: int, hi: int): Evidence
    requires 0 <= lo
    requires hi <= |s|
  {
    Evidence(
      Seen(cc, s, lo, hi, UpperCase), Seen(cc, s, lo, hi, LowerCase),
      Seen(cc, s, lo, hi, Dash), Seen(cc, s, lo, hi, Space), Seen(cc, s, lo, hi, Underscore),
      Seen(cc, s, lo, hi, LeadingUpper), Seen(cc, s, lo, hi, LeadingLower),
      Seen(cc, s, lo, hi, InternalUpper), Seen(cc, s, lo, hi, InternalLower))
  }

  /** The loop state on entry to offset, when the loop started at lo + 1. */
  ghost function StateBefore(cc: Classifier, s: string, lo: int, offset: int): PassState
    requires 0 <= lo < offset <= |s|
  {
    PassState(
      EvidenceIn(cc, s, lo, offset),
      offset - 1 > lo && IsDecoration(cc, s[offset - 1]),
      offset - 2 > lo && IsDecoration(cc, s[offset - 2]))
  }

  /** The style built from the first character's case and the evidence, as the pass ends. */
  function Verdict(firstUpper: bool, ev: Evidence): Style {
    var style := Style(firstUpper, false, false, ev.dash, ev.space, ev.underscore);
    var switched :=
      if ev.leadingLower && ev.leadingUpper then Mixed
      else if ev.leadingLower && ev.hasUpper then style.(wordSeparatorCaseSwitch := true)
      else if ev.leadingUpper && ev.hasLower then style.(wordSeparatorCaseSwitch := true)
      else if ev.hasLower && ev.hasUpper then style.(wordSeparatorCaseSwitch := true)
      else style;
    if ev.internalLower && ev.internalUpper then Mixed
    else if ev.internalLower then switched.(wordBodyCharsUpper := false)
    else if ev.internalUpper then switched.(wordBodyCharsUpper := true)
    else switched
  }

  /**
    The detected style, stated from the evidence: conflicting word-internal evidence gives the
    indeterminate style; conflicting word-leading evidence does too, except that word-internal
    upper-case evidence alone still sets the body flag; otherwise the first flag follows the first
    word character, the body flag the word-internal upper-case evidence, the case-switch flag the
    presence of both cases, and each separator flag the presence of its character.
   */
  ghost function DetectionSpec(cc: Classifier, s: string): Style {
    var lead := FirstWordIndex(cc, s);
    if lead < 0 then Mixed
    else
      var ev := EvidenceIn(cc, s, lead, LastNonBlankIndex(cc, s));
      if ev.internalUpper && ev.internalLower then Mixed
      else if ev.leadingUpper && ev.leadingLower then
        if ev.internalUpper then Mixed.(wordBodyCharsUpper := true) else Mixed
      else
        Style(cc.isUpper(s[lead]), ev.internalUpper, ev.hasUpper && ev.hasLower, ev.dash, ev.space, ev.underscore)
  }

  /** A fact is seen before offset + 1 exactly when it is seen before offset or holds at offset. */
  lemma {:induction false} SeenExtends(cc: Classifier, s: string, lo: int, offset: int, f: Fact)
    requires 0 <= lo < offset < |s|
    ensures Seen(cc, s, lo, offset + 1, f) == (Seen(cc, s, lo, offset, f) || HoldsAt(cc, s, lo, offset, f))
  {
    if Seen(cc, s, lo, offset + 1, f) && !HoldsAt(cc, s, lo, offset, f) {
      var k :| lo < k < offset + 1 && HoldsAt(cc, s, lo, k, f);
      assert k < offset;
    }
  }

  /** Extending the range by one position extends the evidence as one loop iteration does. */
  lemma {:induction false} EvidenceExtends(cc: Classifier, s: string, lo: int, offset: int)
    requires 0 <= lo < offset < |s|
    ensures Observe(cc, StateBefore(cc, s, lo, offset), s[offset]) == StateBefore(cc, s, lo, offset + 1)
  {
    SeenExtends(cc, s, lo, offset, UpperCase);
    SeenExtends(cc, s, lo, offset, LowerCase);
    SeenExtends(cc, s, lo, offset, Dash);
    SeenExtends(cc, s, lo, offset, Space);
    SeenExtends(cc, s, lo, offset, Underscore);
    SeenExtends(cc, s, lo, offset, LeadingUpper);
    SeenExtends(cc, s, lo, offset, LeadingLower);
    SeenExtends(cc, s, lo, offset, InternalUpper);
    SeenExtends(cc, s, lo, offset, InternalLower);
  }

  /** Word-leading and word-internal evidence of a case is also evidence that the case occurs. */
  lemma {:induction false} PositionalEvidenceIsCased(cc: Classifier, s: string, lo: int, hi: int)
    requires 0 <= lo
    requires hi <= |s|
    ensures var ev := EvidenceIn(cc, s, lo, hi);
            && (ev.leadingUpper || ev.internalUpper ==> ev.hasUpper)
            && (ev.leadingLower || ev.internalLower ==> ev.hasLower)
  {
    if Seen(cc, s, lo, hi, LeadingUpper) {
      var k :| lo < k < hi && HoldsAt(cc, s, lo, k, LeadingUpper);
      assert HoldsAt(cc, s, lo, k, UpperCase);
    }
    if Seen(cc, s, lo, hi, InternalUpper) {
      var k :| lo < k < hi && HoldsAt(cc, s, lo, k, InternalUpper);
      assert HoldsAt(cc, s, lo, k, UpperCase);
    }
    if Seen(cc, s, lo, hi, LeadingLower) {
      var k :| lo < k < hi && HoldsAt(cc, s, lo, k, LeadingLower);
      assert HoldsAt(cc, s, lo, k, LowerCase);
    }
    if Seen(cc, s, lo, hi, InternalLower) {
      var k :| lo < k < hi && HoldsAt(cc, s, lo, k, InternalLower);
      assert HoldsAt(cc, s, lo, k, LowerCase);
    }
  }

  /** The detection loop, started at lo + 1 and run to hi, gathers exactly the evidence strictly between lo and hi. */
  lemma {:induction false} GatherFindsEvidence(cc: Classifier, s: string, lo: int, hi: int, offset: int)
    requires 0 <= lo < |s|
    requires hi <= |s|
    requires lo < offset && (offset <= hi || offset == lo + 1)
    ensures Gather(cc, s, offset, hi, StateBefore(cc, s, lo, offset)) == EvidenceIn(cc, s, lo, hi)
    decreases hi - offset
  {
    if offset >= hi {
      if offset != hi {
        assert EvidenceIn(cc, s, lo, offset) == NoEvidence == EvidenceIn(cc, s, lo, hi);
      }
    } else {
      EvidenceExtends(cc, s, lo, offset);
      GatherFindsEvidence(cc, s, lo, hi, offset + 1);
    }
  }

  /** The detection loop as the library starts it: at the character after the first word character. */
  lemma {:induction false} DetectionPassFindsEvidence(cc: Classifier, s: string, lead: int, last: int)
    requires 0 <= lead < |s|
    requires last <= |s|
    ensures Gather(cc, s, lead + 1, last, InitialPass) == EvidenceIn(cc, s, lead, last)
  {
    assert StateBefore(cc, s, lead, lead + 1) == InitialPass;
    GatherFindsEvidence(cc, s, lead, last, lead + 1);
  }

  /**
    The casing style of an identifier: a null or empty identifier is rejected, an identifier
    made only of decoration is indeterminate, and otherwise one pass over the characters strictly
    between the first word character and the last non-blank character decides the flags.
   */
  function DetectIdentifierCasing(cc: Classifier, identifier: Option<string>): (r: Result<Style, Error>)
    ensures identifier.None? || identifier.value == "" <==> r == Failure(EmptyIdentifier)
    ensures r.Failure? || r.value == Mixed || FirstWordIndex(cc, identifier.value) >= 0
  {
    if identifier.None? || |identifier.value| == 0 then Failure(EmptyIdentifier)
    else
      var s := identifier.value;
      var lead := FirstWordIndex(cc, s);
      if lead < 0 then Success(Mixed)
      else
        var last := LastNonBlankIndex(cc, s);
        Success(Verdict(cc.isUpper(s[lead]), Gather(cc, s, lead + 1, last, InitialPass)))
  }

  /** Detection of a non-empty identifier yields the style its evidence determines. */
  lemma {:induction false} DetectionMatchesEvidence(cc: Classifier, s: string)
    requires s != ""
    ensures DetectIdentifierCasing(cc, Some(s)) == Success(DetectionSpec(cc, s))
  {
    var lead := FirstWordIndex(cc, s);
    if lead >= 0 {
      var last := LastNonBlankIndex(cc, s);
      DetectionPassFindsEvidence(cc, s, lead, last);
      PositionalEvidenceIsCased(cc, s, lead, last);
    }
  }
}
