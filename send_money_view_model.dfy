/**
 * The send-money session: the loaded catalog, the chosen service and
 * provider, and the submit-time validation of the whole form.
 * `onDataUpdated` is modelled by returning whether it was fired.
 */
module SendMoney {
  import opened Wrappers
  import opened Texts
  import opened Translation
  import opened ServicesModel
  import opened Regex
  import opened FormValidator
  import opened GenericFieldComponent

  /** `services.first { $0.label.en == name }`: matched on the English label, never on `name`. */
  function FindServiceByEnglishLabel(services: seq<ServiceModel>, name: string): (r: Option<ServiceModel>)
    ensures r.Some? ==> r.value in services && r.value.labelText.en == Some(name)
    ensures r.None? <==> forall i :: 0 <= i < |services| ==> services[i].labelText.en != Some(name)
    decreases |services|
  {
    if services == [] then None
    else if services[0].labelText.en == Some(name) then Some(services[0])
    else FindServiceByEnglishLabel(services[1..], name)
  }

  /** The lookup returns the first matching service. */
  lemma {:induction false} FindServiceIsFirst(services: seq<ServiceModel>, name: string, i: nat)
    requires i < |services| && services[i].labelText.en == Some(name)
    requires forall j :: 0 <= j < i ==> services[j].labelText.en != Some(name)
    ensures FindServiceByEnglishLabel(services, name) == Some(services[i])
    decreases i
  {
    if i > 0 {
      FindServiceIsFirst(services[1..], name, i - 1);
    }
  }

  /** `providers.first { $0.name == name }`. */
  function FindProviderByName(providers: seq<ProviderModel>, name: string): (r: Option<ProviderModel>)
    ensures r.Some? ==> r.value in providers && r.value.name == Some(name)
    ensures r.None? <==> forall i :: 0 <= i < |providers| ==> providers[i].name != Some(name)
    decreases |providers|
  {
    if providers == [] then None
    else if providers[0].name == Some(name) then Some(providers[0])
    else FindProviderByName(providers[1..], name)
  }

  lemma {:induction false} FindProviderIsFirst(providers: seq<ProviderModel>, name: string, i: nat)
    requires i < |providers| && providers[i].name == Some(name)
    requires forall j :: 0 <= j < i ==> providers[j].name != Some(name)
    ensures FindProviderByName(providers, name) == Some(providers[i])
    decreases i
  {
    if i > 0 {
      FindProviderIsFirst(providers[1..], name, i - 1);
    }
  }

  /** The message a field gets when it fails the submit-time check. */
  function SubmitFailureMessage(headerText: Option<Text>): Text {
    Concat(Key("Validation failed for field:"),
           if headerText.Some? then Localized(headerText.value) else Literal("Unknown"))
  }

  class SendMoneyViewModel {
    var services: seq<ServiceModel>
    var screenTitle: Option<TranslationObj>
    var selectedService: Option<ServiceModel>
    var selectedProvider: Option<ProviderModel>

    /** A provider is selected only together with a service that offers it. */
    ghost predicate Valid()
      reads this
    {
      selectedProvider.Some? ==>
        selectedService.Some? && selectedProvider.value in selectedService.value.providers
    }

    constructor ()
      ensures Valid()
      ensures services == [] && screenTitle == None
      ensures selectedService == None && selectedProvider == None
    {
      services := [];
      screenTitle := None;
      selectedService := None;
      selectedProvider := None;
    }

    /**
     * `loadFormData`, given what fetching the catalog produced: a decoded
     * catalog replaces the title and the services; an error changes nothing.
     * The selection is kept either way.
     */
    method LoadFormData(fetched: Result<ServicesResponse, DataServiceError>) returns (dataUpdated: bool)
      requires Valid()
      modifies this
      ensures Valid()
      ensures dataUpdated <==> fetched.Success?
      ensures fetched.Success? ==> screenTitle == Some(fetched.value.title) && services == fetched.value.services
      ensures fetched.Failure? ==> screenTitle == old(screenTitle) && services == old(services)
      ensures selectedService == old(selectedService) && selectedProvider == old(selectedProvider)
    {
      match fetched
      case Success(response) =>
        screenTitle := Some(response.title);
        services := response.services;
        dataUpdated := true;
      case Failure(_) =>
        dataUpdated := false;
    }

    /** Selects the first service whose English label is `serviceName` (or none) and clears the provider. */
    method UpdateSelectedService(serviceName: string) returns (dataUpdated: bool)
      modifies this`selectedService, this`selectedProvider
      ensures Valid()
      ensures selectedService == FindServiceByEnglishLabel(services, serviceName)
      ensures selectedProvider == None
      ensures dataUpdated
    {
      selectedService := FindServiceByEnglishLabel(services, serviceName);
      selectedProvider := None;
      dataUpdated := true;
    }

    /**
     * Selects the first provider of the selected service named
     * `providerName`, clearing the provider when none is; without a
     * selected service nothing changes and nothing is signalled.
     */
    method UpdateSelectedProvider(providerName: string) returns (dataUpdated: bool)
      requires Valid()
      modifies this`selectedProvider
      ensures Valid()
      ensures dataUpdated <==> selectedService.Some?
      ensures selectedService.None? ==> selectedProvider == old(selectedProvider)
      ensures selectedService.Some? ==>
                selectedProvider == FindProviderByName(selectedService.value.providers, providerName)
    {
      if selectedService.None? {
        return false;
      }
      selectedProvider := FindProviderByName(selectedService.value.providers, providerName);
      dataUpdated := true;
    }

    /**
     * `validateForm`: checks every field, without stopping at the first
     * failure; each failing field shows the failure message, each passing
     * field hides its label. The form is valid when every field passes.
     */
    method ValidateForm(engine: RegexEngine, inputs: seq<GenericField>) returns (isFormValid: bool)
      modifies inputs`errorHidden, inputs`errorText
      ensures isFormValid <==> forall i :: 0 <= i < |inputs| ==> ValidateField(engine, inputs[i].text, inputs[i].maxInputLength, inputs[i].validationRegex)
      ensures forall i :: 0 <= i < |inputs| ==> inputs[i].errorHidden == ValidateField(engine, inputs[i].text, inputs[i].maxInputLength, inputs[i].validationRegex)
      ensures forall i :: 0 <= i < |inputs| && !ValidateField(engine, inputs[i].text, inputs[i].maxInputLength, inputs[i].validationRegex) ==>
                inputs[i].errorText == Some(SubmitFailureMessage(inputs[i].headerText))
      ensures forall i :: 0 <= i < |inputs| && ValidateField(engine, inputs[i].text, inputs[i].maxInputLength, inputs[i].validationRegex) ==>
                inputs[i].errorText == old(inputs[i].errorText)
    {
      ghost var verdicts := Verdicts(engine, inputs);
      isFormValid := true;
      var i := 0;
      while i < |inputs|
        invariant 0 <= i <= |inputs|
        invariant isFormValid <==> false !in verdicts[..i]
        invariant forall j :: 0 <= j < i ==> LabelShows(inputs[j], verdicts[j])
        invariant forall j :: 0 <= j < |inputs| && verdicts[j] ==> inputs[j].errorText == old(inputs[j].errorText)
      {
        var field := inputs[i];
        // the same field may be listed twice: all its entries share one verdict
        assert forall j :: 0 <= j < |inputs| && inputs[j] == field ==> verdicts[j] == verdicts[i];
        var passes := CheckField(engine, field);
        assert passes == verdicts[i];
        if !passes {
          isFormValid := false;
        }
        assert verdicts[..i + 1] == verdicts[..i] + [verdicts[i]];
        i := i + 1;
      }
      assert verdicts[..i] == verdicts;
      assert forall j :: 0 <= j < |inputs| ==> LabelShows(inputs[j], verdicts[j]);
    }
  }

  /** The label of `field` shows the verdict `passes`: hidden when it passes, the failure message when not. */
  ghost predicate LabelShows(field: GenericField, passes: bool)
    reads field`errorHidden, field`errorText
  {
    field.errorHidden == passes && (!passes ==> field.errorText == Some(SubmitFailureMessage(field.headerText)))
  }

  /** The verdict of each field, in order. */
  ghost function Verdicts(engine: RegexEngine, inputs: seq<GenericField>): (verdicts: seq<bool>)
    reads inputs`text
    ensures |verdicts| == |inputs|
    ensures forall j :: 0 <= j < |inputs| ==>
              verdicts[j] == ValidateField(engine, inputs[j].text, inputs[j].maxInputLength, inputs[j].validationRegex)
  {
    if inputs == [] then []
    else
      var field := inputs[|inputs| - 1];
      Verdicts(engine, inputs[..|inputs| - 1]) + [ValidateField(engine, field.text, field.maxInputLength, field.validationRegex)]
  }

  /** One step of `validateForm`: shows the failure message on a failing field, hides the label of a passing one. */
  method CheckField(engine: RegexEngine, field: GenericField) returns (passes: bool)
    modifies field`errorHidden, field`errorText
    ensures passes == ValidateField(engine, field.text, field.maxInputLength, field.validationRegex)
    ensures LabelShows(field, passes)
    ensures passes ==> field.errorText == old(field.errorText)
  {
    passes := ValidateField(engine, field.text, field.maxInputLength, field.validationRegex);
    if passes {
      field.HideError();
    } else {
      field.ShowError(SubmitFailureMessage(field.headerText));
    }
  }

  /** Selecting the same service twice leaves the session as selecting it once. */
  method SelectServiceTwice(vm: SendMoneyViewModel, serviceName: string)
    modifies vm
    ensures vm.Valid()
    ensures vm.services == old(vm.services) && vm.screenTitle == old(vm.screenTitle)
    ensures vm.selectedService == FindServiceByEnglishLabel(old(vm.services), serviceName)
    ensures vm.selectedProvider == None
  {
    var _ := vm.UpdateSelectedService(serviceName);
    var _ := vm.UpdateSelectedService(serviceName);
  }
}
