/**
 `ClassificationType` of small_text/query_strategies/base.py: the closed enumeration of
 the two settings a query strategy can be written for, and its parser `from_str`.
 */
module ClassificationTypes {
  import opened Exceptions

  datatype ClassificationType = SingleLabel | MultiLabel {

    /** The member's `.value`: its canonical lower-case, hyphenated name. */
    function Value(): (s: string)
      ensures s == "single-label" <==> SingleLabel?
      ensures s == "multi-label" <==> MultiLabel?
    {
      match this
      case SingleLabel => "single-label"
      case MultiLabel => "multi-label"
    }
  }

  /** The message of the `ValueError` raised for an unparsable string. */
  function ConversionMessage(s: string): string {
    "Cannot convert string to classification type enum: " + s
  }

  /**
   `ClassificationType.from_str`: exact, case-sensitive match against the two canonical
   names; every other string raises `ValueError`.
   */
  function FromStr(s: string): (r: Result<ClassificationType>)
    ensures r.Ok? <==> s == "single-label" || s == "multi-label"
    ensures r.Ok? ==> r.value.Value() == s
    ensures r.Err? ==> r.error.ValueError?
  {
    if s == "single-label" then Ok(SingleLabel)
    else if s == "multi-label" then Ok(MultiLabel)
    else Err(ValueError(ConversionMessage(s)))
  }

  /** Parsing a member's `.value` gives the member back. */
  lemma FromStrValue(t: ClassificationType)
    ensures FromStr(t.Value()) == Ok(t)
  {
  }

  /** The two `.value` strings are distinct, so `.value` identifies the member. */
  lemma ValueInjective(t: ClassificationType, u: ClassificationType)
    ensures t.Value() == u.Value() <==> t == u
  {
  }

  /** A string is parsed to a member exactly when it is that member's `.value`. */
  lemma FromStrInverse(s: string, t: ClassificationType)
    ensures FromStr(s) == Ok(t) <==> s == t.Value()
  {
  }

  /** A rejected string raises `ValueError` whose message names the offending text. */
  lemma {:induction false} FromStrRejects(s: string)
    requires s != "single-label" && s != "multi-label"
    ensures FromStr(s).Err? && FromStr(s).error.ValueError?
    ensures Mentions(FromStr(s).error.msg, s)
  {
    var prefix := "Cannot convert string to classification type enum: ";
    var nothing: string := [];
    assert FromStr(s).error.msg == prefix + s + nothing;
    MentionsInfix(prefix, s, nothing);
  }

  /** Case and separator variants and the empty string are not classification types. */
  lemma FromStrRejectsVariants()
    ensures FromStr("SINGLE_LABEL").Err? && FromStr("MULTI_LABEL").Err?
    ensures FromStr("single_label").Err? && FromStr("multi_label").Err?
    ensures FromStr("Single-Label").Err? && FromStr("").Err?
  {
  }
}
