/** The catalog: its title and services, each service's providers and their forms. */
module ServicesModel {
  import opened Wrappers
  import opened Translation
  import opened FieldModel

  /** A provider of a service, with the fields its form requires, in display order. */
  datatype ProviderModel = ProviderModel(
    name: Option<string>,
    id: Option<string>,
    requiredFields: seq<FieldModel>)

  /** The JSON keys of a provider object. */
  datatype ProviderCodingKey = ProviderNameKey | ProviderIdKey | RequiredFieldsKey

  function ProviderKeyName(k: ProviderCodingKey): (name: string)
  {
    match k
    case ProviderNameKey => "name"
    case ProviderIdKey => "id"
    case RequiredFieldsKey => "required_fields"
  }

  /** `requiredFields` is read from "required_fields"; the mapping is injective. */
  lemma ProviderKeysRenamed(a: ProviderCodingKey, b: ProviderCodingKey)
    ensures ProviderKeyName(RequiredFieldsKey) == "required_fields"
    ensures ProviderKeyName(a) == ProviderKeyName(b) ==> a == b
  {
  }

  datatype ServiceModel = ServiceModel(
    labelText: TranslationObj,
    name: Option<string>,
    providers: seq<ProviderModel>)

  /** The decoded catalog document. */
  datatype ServicesResponse = ServicesResponse(
    title: TranslationObj,
    services: seq<ServiceModel>)

  /** Why loading the catalog failed. */
  datatype DataServiceError = FileNotFound | DecodingError(message: string) | UnexpectedError
}
