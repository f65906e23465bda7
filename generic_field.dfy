/**
 * The reusable form control: a header, a text field that is either typed
 * into or filled from a picker, and an error label. Its validation rules are
 * set when the form is built and then only read; its text, the picker's
 * selected row and the error label change as the user works.
 */
module GenericFieldComponent {
  import opened Wrappers
  import opened Texts
  import opened CharacterSets
  import opened Regex
  import opened FieldModel
  import opened FormValidator

  datatype KeyboardType = DefaultKeyboard | PhonePad | DecimalPad

  /** Phone numbers get a phone pad, numbers a decimal pad, everything else the default keyboard. */
  function MapKeyboardType(t: Option<FieldType>): (k: KeyboardType)
    ensures k == PhonePad <==> t == Some(MsisdnField)
    ensures k == DecimalPad <==> t == Some(NumberField)
    ensures k == DefaultKeyboard <==> t != Some(MsisdnField) && t != Some(NumberField)
  {
    match t
    case Some(MsisdnField) => PhonePad
    case Some(NumberField) => DecimalPad
    case Some(TextField) => DefaultKeyboard
    case _ => DefaultKeyboard
  }

  /** Which closure the form builder installs as `onValueChange`. */
  datatype ChangeHandler = NoHandler | ServiceChanged | ProviderChanged

  /** Everything the form builder writes into a field it creates. */
  datatype FieldDescriptor = FieldDescriptor(
    headerText: Option<Text>,
    placeholderText: Option<Text>,
    fieldType: Option<FieldType>,
    isDropdown: bool,
    dropdownOptions: seq<string>,
    validationRegex: Option<string>,
    maxInputLength: Option<int>,
    validationErrorMessage: Option<string>,
    fieldName: Option<string>,
    initialText: Option<string>,
    onValueChange: ChangeHandler)

  /** The rules of the end-of-editing check, in the order they are tried. */
  datatype Rule = RequiredRule | MaxLengthRule | PatternRule

  datatype Verdict = Accepted | Rejected(rule: Rule, message: Text)

  function RequiredMessage(headerText: Option<Text>): Text {
    Formatted(Key("field_required_message"), headerText.GetOr(Literal("Field")))
  }

  function MaxLengthMessage(limit: nat): Text {
    Formatted(Key("field_max_length_message"), Literal(Decimal(limit)))
  }

  const InvalidMessage: Text := Key("invalid_input_message")

  /** `validationErrorMessage?.localized ?? fallback`. */
  function MessageOr(validationErrorMessage: Option<string>, fallback: Text): Text {
    if validationErrorMessage.Some? then Localized(Literal(validationErrorMessage.value)) else fallback
  }

  /**
   * The end-of-editing check (`validateInput`): the text, trimmed of
   * whitespace and newlines, must be non-empty, within a positive limit, and
   * match the pattern as a whole; the first rule that fails decides the
   * message, and a custom message replaces each rule's own.
   */
  function InputVerdict(engine: RegexEngine, headerText: Option<Text>, text: Option<string>,
                        maxInputLength: Option<int>, validationRegex: Option<string>,
                        validationErrorMessage: Option<string>): (v: Verdict)
    ensures v.Accepted? <==>
              && text.Some?
              && Trim(text.value, WhitespacesAndNewlines) != []
              && !ExceedsLimit(maxInputLength, Trim(text.value, WhitespacesAndNewlines))
              && (HasPattern(validationRegex) ==>
                    engine.fullMatch(validationRegex.value, Trim(text.value, WhitespacesAndNewlines)))
    ensures v.Rejected? ==>
              (v.rule == RequiredRule <==> text.None? || Trim(text.value, WhitespacesAndNewlines) == [])
    ensures v.Rejected? && v.rule == MaxLengthRule ==>
              text.Some? && ExceedsLimit(maxInputLength, Trim(text.value, WhitespacesAndNewlines))
    ensures v.Rejected? && v.rule == PatternRule ==>
              && text.Some?
              && !ExceedsLimit(maxInputLength, Trim(text.value, WhitespacesAndNewlines))
              && HasPattern(validationRegex)
              && !engine.fullMatch(validationRegex.value, Trim(text.value, WhitespacesAndNewlines))
    ensures v.Rejected? && validationErrorMessage.Some? ==>
              v.message == Localized(Literal(validationErrorMessage.value))
    ensures v.Rejected? && validationErrorMessage.None? ==>
              v.message == match v.rule
                           case RequiredRule => RequiredMessage(headerText)
                           case MaxLengthRule => MaxLengthMessage(maxInputLength.value)
                           case PatternRule => InvalidMessage
  {
    if text.None? || Trim(text.value, WhitespacesAndNewlines) == [] then
      Rejected(RequiredRule, MessageOr(validationErrorMessage, RequiredMessage(headerText)))
    else
      var t := Trim(text.value, WhitespacesAndNewlines);
      if ExceedsLimit(maxInputLength, t) then
        Rejected(MaxLengthRule, MessageOr(validationErrorMessage, MaxLengthMessage(maxInputLength.value)))
      else if HasPattern(validationRegex) && !engine.fullMatch(validationRegex.value, t) then
        Rejected(PatternRule, MessageOr(validationErrorMessage, InvalidMessage))
      else
        Accepted
  }

  class GenericField {
    // Set once by the form builder.
    const headerText: Option<Text>
    const placeholderText: Option<Text>
    const fieldType: Option<FieldType>
    const keyboardType: KeyboardType
    const isDropdown: bool
    const dropdownOptions: seq<string>
    const validationRegex: Option<string>
    const maxInputLength: Option<int>
    const validationErrorMessage: Option<string>
    const fieldName: Option<string>
    const onValueChange: ChangeHandler

    // Changed while the user works.
    var text: Option<string>      // textField.text
    var selectedRow: int          // the picker's selected row, -1 when it has no rows
    var errorHidden: bool         // errorLabel.isHidden
    var errorText: Option<Text>   // errorLabel.text

    /** The builder wrote exactly `d` into this field. */
    predicate Configured(d: FieldDescriptor) {
      && headerText == d.headerText
      && placeholderText == d.placeholderText
      && fieldType == d.fieldType
      && keyboardType == MapKeyboardType(d.fieldType)
      && isDropdown == d.isDropdown
      && dropdownOptions == d.dropdownOptions
      && validationRegex == d.validationRegex
      && maxInputLength == d.maxInputLength
      && validationErrorMessage == d.validationErrorMessage
      && fieldName == d.fieldName
      && onValueChange == d.onValueChange
    }

    /** A field just built from `d`: its initial text, the picker on its first row, no error shown. */
    ghost predicate Fresh(d: FieldDescriptor)
      reads this
    {
      && Configured(d)
      && text == d.initialText
      && selectedRow == (if |d.dropdownOptions| > 0 then 0 else -1)
      && errorHidden
      && errorText == None
    }

    constructor (d: FieldDescriptor)
      ensures Fresh(d)
    {
      headerText := d.headerText;
      placeholderText := d.placeholderText;
      fieldType := d.fieldType;
      keyboardType := MapKeyboardType(d.fieldType);
      isDropdown := d.isDropdown;
      dropdownOptions := d.dropdownOptions;
      validationRegex := d.validationRegex;
      maxInputLength := d.maxInputLength;
      validationErrorMessage := d.validationErrorMessage;
      fieldName := d.fieldName;
      onValueChange := d.onValueChange;
      text := d.initialText;
      selectedRow := if |d.dropdownOptions| > 0 then 0 else -1;
      errorHidden := true;
      errorText := None;
    }

    /** The end-of-editing verdict on this field. */
    function Verdict(engine: RegexEngine): Verdict
      reads this`text
    {
      InputVerdict(engine, headerText, text, maxInputLength, validationRegex, validationErrorMessage)
    }

    method ShowError(message: Text)
      modifies this`errorHidden, this`errorText
      ensures !errorHidden && errorText == Some(message)
    {
      errorHidden := false;
      errorText := Some(message);
    }

    method HideError()
      modifies this`errorHidden
      ensures errorHidden
    {
      errorHidden := true;
    }

    /** `validateInput`, run when editing ends: shows the verdict's message or hides the label. */
    method ValidateInput(engine: RegexEngine) returns (valid: bool)
      modifies this`errorHidden, this`errorText
      ensures valid <==> old(Verdict(engine)).Accepted?
      ensures valid ==> errorHidden && errorText == old(errorText)
      ensures !valid ==> !errorHidden && errorText == Some(old(Verdict(engine)).message)
    {
      var v := InputVerdict(engine, headerText, text, maxInputLength, validationRegex, validationErrorMessage);
      if v.Rejected? {
        ShowError(v.message);
        return false;
      }
      HideError();
      return true;
    }

    /**
     * The picker reports row `row` (which must exist): the text becomes that
     * option, and the same option is what `onValueChange` is called with.
     */
    method PickerDidSelectRow(row: int) returns (selectedValue: string)
      requires 0 <= row < |dropdownOptions|
      modifies this`text, this`selectedRow
      ensures selectedValue == dropdownOptions[row]
      ensures text == Some(selectedValue) && selectedRow == row
    {
      selectedRow := row;
      selectedValue := dropdownOptions[row];
      text := Some(selectedValue);
    }

    /**
     * The toolbar's Done button. On a dropdown it takes the picker's
     * selected row, which must exist, as the new text and as the value for
     * `onValueChange`; on other fields the text is left alone. Either way it
     * then ends editing, and the field, being its own text-field delegate,
     * runs `validateInput` on the text it now holds.
     */
    method DismissInputView(engine: RegexEngine) returns (selectedValue: Option<string>, valid: bool)
      requires isDropdown ==> 0 <= selectedRow < |dropdownOptions|
      modifies this`text, this`errorHidden, this`errorText
      ensures isDropdown ==> selectedValue == Some(dropdownOptions[selectedRow]) && text == selectedValue
      ensures !isDropdown ==> selectedValue == None && text == old(text)
      ensures valid <==> Verdict(engine).Accepted?
      ensures valid ==> errorHidden && errorText == old(errorText)
      ensures !valid ==> !errorHidden && errorText == Some(Verdict(engine).message)
    {
      if isDropdown {
        var v := dropdownOptions[selectedRow];
        text := Some(v);
        selectedValue := Some(v);
      } else {
        selectedValue := None;
      }
      valid := ValidateInput(engine);
    }
  }

  /** A non-empty trimmed text fails the length rule before the pattern is looked at. */
  lemma LengthBeforePattern(engine: RegexEngine, headerText: Option<Text>, s: string, limit: int,
                            validationRegex: Option<string>)
    requires limit > 0 && |Trim(s, WhitespacesAndNewlines)| > limit
    ensures InputVerdict(engine, headerText, Some(s), Some(limit), validationRegex, None)
         == Rejected(MaxLengthRule, MaxLengthMessage(limit))
  {
  }

  /** An empty trimmed text fails the required rule whatever the limit and the pattern. */
  lemma RequiredFirst(engine: RegexEngine, headerText: Option<Text>, s: string, limit: Option<int>,
                      validationRegex: Option<string>)
    requires Trim(s, WhitespacesAndNewlines) == []
    ensures InputVerdict(engine, headerText, Some(s), limit, validationRegex, None)
         == Rejected(RequiredRule, RequiredMessage(headerText))
    ensures InputVerdict(engine, headerText, None, limit, validationRegex, None)
         == Rejected(RequiredRule, RequiredMessage(headerText))
  {
  }

  /**
   * A blank field's message names its header, or "Field" when it has none;
   * a custom message replaces it, and then the header plays no part.
   */
  lemma RequiredMessageNamesHeader(engine: RegexEngine, h1: Option<Text>, h2: Option<Text>, text: Option<string>,
                                   limit: Option<int>, validationRegex: Option<string>, custom: string)
    requires text.None? || Trim(text.value, WhitespacesAndNewlines) == []
    ensures h1.Some? ==> InputVerdict(engine, h1, text, limit, validationRegex, None)
                         == Rejected(RequiredRule, Formatted(Key("field_required_message"), h1.value))
    ensures h1.None? ==> InputVerdict(engine, h1, text, limit, validationRegex, None)
                         == Rejected(RequiredRule, Formatted(Key("field_required_message"), Literal("Field")))
    ensures InputVerdict(engine, h1, text, limit, validationRegex, Some(custom))
         == InputVerdict(engine, h2, text, limit, validationRegex, Some(custom))
  {
  }

  /**
   * A custom message is shown for every failing rule, even when it is the
   * empty string; `effectiveErrorMessage` would fall back to the default there.
   */
  lemma EmptyCustomMessageStillShown(engine: RegexEngine, f: FieldModel, headerText: Option<Text>,
                                     text: Option<string>)
    requires f.validationErrorMessage == Some("")
    ensures f.EffectiveErrorMessage() == DefaultErrorMessage
    ensures InputVerdict(engine, headerText, text, f.maxLength, f.validation, f.validationErrorMessage).Rejected? ==>
              InputVerdict(engine, headerText, text, f.maxLength, f.validation, f.validationErrorMessage).message
              == Localized(Literal(""))
  {
  }

  /**
   * The two checks disagree on a pattern matching only part of the text:
   * submitting accepts it and the end-of-editing check rejects it.
   */
  lemma SubstringMatchSplitsValidators(engine: RegexEngine, s: string, p: string)
    requires p != "" && engine.compiles(p)
    requires forall i :: 0 <= i < |s| ==> !IsNewline(s[i])
    requires Trim(s, Whitespaces) != []
    requires engine.containsMatch(p, Trim(s, Whitespaces)) && !engine.fullMatch(p, Trim(s, Whitespaces))
    ensures ValidateField(engine, Some(s), None, Some(p))
    ensures InputVerdict(engine, None, Some(s), None, Some(p), None) == Rejected(PatternRule, InvalidMessage)
  {
    TrimsAgreeWithoutNewlines(s);
  }

  /** A trailing newline: fine at the end of editing, too long at submission. */
  lemma NewlineSplitsValidators(engine: RegexEngine)
    ensures InputVerdict(engine, None, Some("abc\n"), Some(3), None, None).Accepted?
    ensures !ValidateField(engine, Some("abc\n"), Some(3), None)
  {
    TrailingNewlineCounts(engine);
    TrailingLineFeedTrims();
  }

  /**
   * Where the two checks agree: without a pattern and without line-break
   * characters, submission accepts exactly what the end of editing accepts.
   */
  lemma ValidatorsAgreeWithoutPattern(engine: RegexEngine, s: string, limit: Option<int>,
                                      headerText: Option<Text>, custom: Option<string>)
    requires forall i :: 0 <= i < |s| ==> !IsNewline(s[i])
    ensures ValidateField(engine, Some(s), limit, None)
        <==> InputVerdict(engine, headerText, Some(s), limit, None, custom).Accepted?
  {
    TrimsAgreeWithoutNewlines(s);
  }

  /** Whatever the text, an end-of-editing pass on length implies a submit-time pass on emptiness. */
  lemma EndOfEditingTextSurvivesSubmitTrim(engine: RegexEngine, s: string, limit: Option<int>,
                                           validationRegex: Option<string>, headerText: Option<Text>,
                                           custom: Option<string>)
    requires InputVerdict(engine, headerText, Some(s), limit, validationRegex, custom).Accepted?
    ensures Trim(s, Whitespaces) != []
  {
    WiderTrimIsShorter(s);
  }

  /** Submit-time acceptance implies the end-of-editing length rule passes too. */
  lemma SubmitLengthImpliesEditingLength(engine: RegexEngine, s: string, limit: Option<int>,
                                         validationRegex: Option<string>)
    requires ValidateField(engine, Some(s), limit, validationRegex)
    ensures !ExceedsLimit(limit, Trim(s, WhitespacesAndNewlines))
  {
    WiderTrimIsShorter(s);
  }
}
