/** The check every field of the form passes through when the form is submitted. */
module FormValidator {
  import opened Wrappers
  import opened CharacterSets
  import opened Regex

  /** The max-length rule of both validators: a positive limit that the text exceeds. */
  predicate ExceedsLimit(limit: Option<int>, t: string) {
    limit.Some? && limit.value > 0 && |t| > limit.value
  }

  /** A pattern is checked only when it is present and non-empty. */
  predicate HasPattern(pattern: Option<string>) {
    pattern.Some? && pattern.value != ""
  }

  /**
   * `FormValidator.validateField`: the text, trimmed of `.whitespaces` only,
   * must be non-empty, within a positive limit, and contain a match of the
   * pattern somewhere; a pattern that does not compile rejects the field.
   */
  function ValidateField(engine: RegexEngine, text: Option<string>, maxInputLength: Option<int>,
                         validationRegex: Option<string>): (valid: bool)
  {
    if text.None? then false
    else
      var t := Trim(text.value, Whitespaces);
      if t == [] then false
      else if ExceedsLimit(maxInputLength, t) then false
      else if HasPattern(validationRegex) then
        // `try?` gives nil for a pattern that does not compile, and a nil match fails the field
        engine.compiles(validationRegex.value) && engine.containsMatch(validationRegex.value, t)
      else true
  }

  /**
   * What the verdict means: nil or blank text fails, a positive limit the
   * trimmed text exceeds fails, and otherwise the field passes exactly when
   * there is no pattern or the pattern compiles and matches somewhere.
   */
  lemma ValidateFieldMeaning(engine: RegexEngine, text: Option<string>, maxInputLength: Option<int>,
                             validationRegex: Option<string>)
    ensures ValidateField(engine, text, maxInputLength, validationRegex) <==>
              && text.Some?
              && Trim(text.value, Whitespaces) != []
              && !ExceedsLimit(maxInputLength, Trim(text.value, Whitespaces))
              && (HasPattern(validationRegex) ==>
                    engine.compiles(validationRegex.value)
                    && engine.containsMatch(validationRegex.value, Trim(text.value, Whitespaces)))
  {
  }

  /** A pattern that does not compile rejects every input, empty or not. */
  lemma BrokenPatternRejects(engine: RegexEngine, text: Option<string>, maxInputLength: Option<int>,
                             validationRegex: Option<string>)
    requires HasPattern(validationRegex) && !engine.compiles(validationRegex.value)
    ensures !ValidateField(engine, text, maxInputLength, validationRegex)
  {
  }

  /** Without a pattern the verdict does not depend on the regex engine at all. */
  lemma NoPatternIgnoresEngine(e1: RegexEngine, e2: RegexEngine, text: Option<string>,
                               maxInputLength: Option<int>, validationRegex: Option<string>)
    requires !HasPattern(validationRegex)
    ensures ValidateField(e1, text, maxInputLength, validationRegex)
         == ValidateField(e2, text, maxInputLength, validationRegex)
  {
  }

  /** A limit that is absent, zero or negative never rejects, however long the text. */
  lemma NonPositiveLimitDisabled(engine: RegexEngine, text: Option<string>, limit: Option<int>,
                                 validationRegex: Option<string>)
    requires limit.None? || limit.value <= 0
    ensures ValidateField(engine, text, limit, validationRegex)
         == ValidateField(engine, text, None, validationRegex)
  {
  }

  /** A match anywhere in the trimmed text is enough: the pattern is not anchored. */
  lemma SubstringMatchSuffices(engine: RegexEngine, s: string, maxInputLength: Option<int>, p: string)
    requires p != "" && engine.compiles(p)
    requires Trim(s, Whitespaces) != [] && !ExceedsLimit(maxInputLength, Trim(s, Whitespaces))
    requires engine.containsMatch(p, Trim(s, Whitespaces))
    ensures ValidateField(engine, Some(s), maxInputLength, Some(p))
  {
  }

  /** A trailing line break is not trimmed, so it counts towards the limit. */
  lemma TrailingNewlineCounts(engine: RegexEngine)
    ensures Trim("abc\n", Whitespaces) == "abc\n"
    ensures !ValidateField(engine, Some("abc\n"), Some(3), None)
  {
    var t := "abc\n";
    assert t[0] == 'a' && !InClass('a', Whitespaces);
    assert t[3] == '\n' && !InClass('\n', Whitespaces);
    assert TrimStart(t, Whitespaces) == t;
    assert TrimEnd(t, Whitespaces) == t;
    assert |t| == 4;
  }
}
