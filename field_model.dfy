/** The field schema of a provider's form, as the catalog describes it. */
module FieldModel {
  import opened Wrappers
  import opened Translation

  /**
   * The kind of input a field expects. A closed enumeration whose cases are
   * decoded from the raw strings "msisdn", "number", "option" and "text".
   */
  datatype FieldType = MsisdnField | NumberField | OptionField | TextField

  function RawValue(t: FieldType): (raw: string)
  {
    match t
    case MsisdnField => "msisdn"
    case NumberField => "number"
    case OptionField => "option"
    case TextField => "text"
  }

  /** `FieldType(rawValue:)`: the case with that raw value, if any. */
  function FromRawValue(raw: string): (t: Option<FieldType>)
    ensures t.Some? ==> RawValue(t.value) == raw
    ensures t.None? <==> raw !in {"msisdn", "number", "option", "text"}
  {
    if raw == "msisdn" then Some(MsisdnField)
    else if raw == "number" then Some(NumberField)
    else if raw == "option" then Some(OptionField)
    else if raw == "text" then Some(TextField)
    else None
  }

  /** Every case comes back from its raw value, so no two cases share one. */
  lemma RawValueRoundTrip(t: FieldType)
    ensures FromRawValue(RawValue(t)) == Some(t)
  {
  }

  lemma RawValuesDistinct(a: FieldType, b: FieldType)
    ensures RawValue(a) == RawValue(b) ==> a == b
  {
    RawValueRoundTrip(a);
    RawValueRoundTrip(b);
  }

  /** The JSON keys of a field object. */
  datatype FieldCodingKey =
    | LabelKey | NameKey | PlaceholderKey | TypeKey | ValidationKey
    | MaxLengthKey | ValidationErrorMessageKey | OptionsKey

  function KeyName(k: FieldCodingKey): (name: string)
  {
    match k
    case LabelKey => "label"
    case NameKey => "name"
    case PlaceholderKey => "placeholder"
    case TypeKey => "type"
    case ValidationKey => "validation"
    case MaxLengthKey => "max_length"
    case ValidationErrorMessageKey => "validation_error_message"
    case OptionsKey => "options"
  }

  /** The coding key a JSON key decodes to, if any. */
  function KeyFromName(name: string): (k: Option<FieldCodingKey>)
    ensures k.Some? ==> KeyName(k.value) == name
  {
    match name
    case "label" => Some(LabelKey)
    case "name" => Some(NameKey)
    case "placeholder" => Some(PlaceholderKey)
    case "type" => Some(TypeKey)
    case "validation" => Some(ValidationKey)
    case "max_length" => Some(MaxLengthKey)
    case "validation_error_message" => Some(ValidationErrorMessageKey)
    case "options" => Some(OptionsKey)
    case _ => None
  }

  /** The two renamed keys use snake case; the mapping is injective. */
  lemma CodingKeysRenamed(a: FieldCodingKey, b: FieldCodingKey)
    ensures KeyName(MaxLengthKey) == "max_length"
    ensures KeyName(ValidationErrorMessageKey) == "validation_error_message"
    ensures KeyFromName(KeyName(a)) == Some(a)
    ensures KeyName(a) == KeyName(b) ==> a == b
  {
    assert KeyFromName(KeyName(b)) == Some(b);
  }

  /** One entry of an option list. */
  datatype FieldOption = FieldOption(labelText: Option<string>, name: Option<string>)

  const DefaultErrorMessage: string := "This field is required"

  /** A field of a provider's form; every property may be absent in the catalog. */
  datatype FieldModel = FieldModel(
    labelText: Option<TranslationObj>,
    name: Option<string>,
    placeholder: Option<string>,
    fieldType: Option<FieldType>,
    validation: Option<string>,
    maxLength: Option<int>,
    validationErrorMessage: Option<string>,
    options: Option<seq<FieldOption>>)
  {
    /** The custom message when it is present and non-empty, otherwise the default. */
    function EffectiveErrorMessage(): (message: string)
      ensures message != ""
      ensures validationErrorMessage.Some? && validationErrorMessage.value != "" ==>
                message == validationErrorMessage.value
      ensures validationErrorMessage.None? || validationErrorMessage.value == "" ==>
                message == DefaultErrorMessage
    {
      if validationErrorMessage.Some? && validationErrorMessage.value != "" then
        validationErrorMessage.value
      else
        DefaultErrorMessage
    }
  }
}
