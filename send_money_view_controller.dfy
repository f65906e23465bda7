/**
 * The send-money screen: it rebuilds its stack of fields from the session
 * whenever the session changes, and on Send validates every field and saves
 * a request made of the values typed into the provider's fields.
 *
 * Building is split in two: pure functions describe the fields a session
 * calls for, in order, and `UpdateUI` creates one `GenericField` per
 * description. Localisation of the fixed strings is kept symbolic (`Text`);
 * catalog translations are resolved in the language passed in.
 */
module SendMoneyScreen {
  import opened Wrappers
  import opened Texts
  import opened CharacterSets
  import opened Translation
  import opened FieldModel
  import opened ServicesModel
  import opened Transactions
  import opened Regex
  import opened FormValidator
  import opened GenericFieldComponent
  import opened SendMoney
  import opened Managers
  import opened Utils

  // ----- The fields a session calls for -----

  /** The service picker's rows: each service's label in `lang`, "" for a service without one. */
  function ServiceOptions(services: seq<ServiceModel>, lang: Language): (options: seq<string>)
    ensures |options| == |services|
    ensures forall i :: 0 <= i < |services| ==> options[i] == services[i].labelText.Localized(lang).GetOr("")
    decreases |services|
  {
    if services == [] then []
    else [services[0].labelText.Localized(lang).GetOr("")] + ServiceOptions(services[1..], lang)
  }

  /** The provider picker's rows: each provider's name, "" for a provider without one. */
  function ProviderOptions(providers: seq<ProviderModel>): (options: seq<string>)
    ensures |options| == |providers|
    ensures forall i :: 0 <= i < |providers| ==> options[i] == providers[i].name.GetOr("")
    decreases |providers|
  {
    if providers == [] then []
    else [providers[0].name.GetOr("")] + ProviderOptions(providers[1..])
  }

  /** An option field's rows: each option's label, "" for an option without one. */
  function OptionLabels(options: seq<FieldOption>): (labels: seq<string>)
    ensures |labels| == |options|
    ensures forall i :: 0 <= i < |options| ==> labels[i] == options[i].labelText.GetOr("")
    decreases |options|
  {
    if options == [] then []
    else [options[0].labelText.GetOr("")] + OptionLabels(options[1..])
  }

  /** `label?.localized`. */
  function LocalizedLabel(labelText: Option<TranslationObj>, lang: Language): Option<string> {
    if labelText.Some? then labelText.value.Localized(lang) else None
  }

  /** The name under which a selected service is shown and saved: `selectedService?.label.localized ?? ""`. */
  function ServiceDisplayName(service: Option<ServiceModel>, lang: Language): string {
    if service.Some? then service.value.labelText.Localized(lang).GetOr("") else ""
  }

  /** `selectedProvider?.name ?? ""`. */
  function ProviderDisplayName(provider: Option<ProviderModel>): string {
    if provider.Some? then provider.value.name.GetOr("") else ""
  }

  /** The service picker, showing the selected service's label. */
  function ServiceField(services: seq<ServiceModel>, selectedService: Option<ServiceModel>,
                        lang: Language): (d: FieldDescriptor)
    ensures d.headerText == Some(Key("select_service")) && d.placeholderText == d.headerText
    ensures d.isDropdown && d.onValueChange == ServiceChanged
    ensures d.dropdownOptions == ServiceOptions(services, lang)
    ensures selectedService.None? ==> d.initialText == Some("")
    ensures selectedService.Some? ==> d.initialText == Some(selectedService.value.labelText.Localized(lang).GetOr(""))
    ensures d.fieldType == None && d.fieldName == None
    ensures d.validationRegex == None && d.maxInputLength == None && d.validationErrorMessage == None
  {
    FieldDescriptor(
      headerText := Some(Key("select_service")),
      placeholderText := Some(Key("select_service")),
      fieldType := None,
      isDropdown := true,
      dropdownOptions := ServiceOptions(services, lang),
      validationRegex := None,
      maxInputLength := None,
      validationErrorMessage := None,
      fieldName := None,
      initialText := Some(ServiceDisplayName(selectedService, lang)),
      onValueChange := ServiceChanged)
  }

  /** The provider picker of a selected service, showing the selected provider's name. */
  function ProviderField(service: ServiceModel, selectedProvider: Option<ProviderModel>): (d: FieldDescriptor)
    ensures d.headerText == Some(Key("select_provider")) && d.placeholderText == d.headerText
    ensures d.isDropdown && d.onValueChange == ProviderChanged
    ensures d.dropdownOptions == ProviderOptions(service.providers)
    ensures selectedProvider.None? ==> d.initialText == Some("")
    ensures selectedProvider.Some? ==> d.initialText == Some(selectedProvider.value.name.GetOr(""))
    ensures d.fieldType == None && d.fieldName == None
    ensures d.validationRegex == None && d.maxInputLength == None && d.validationErrorMessage == None
  {
    FieldDescriptor(
      headerText := Some(Key("select_provider")),
      placeholderText := Some(Key("select_provider")),
      fieldType := None,
      isDropdown := true,
      dropdownOptions := ProviderOptions(service.providers),
      validationRegex := None,
      maxInputLength := None,
      validationErrorMessage := None,
      fieldName := None,
      initialText := Some(ProviderDisplayName(selectedProvider)),
      onValueChange := ProviderChanged)
  }

  /**
   * A picker built for a selection from its own list shows one of its rows,
   * and, having no rules besides the required one, it passes submission
   * exactly when that row's label is not blank.
   */
  lemma PickerShowsItsRow(engine: RegexEngine, services: seq<ServiceModel>, service: ServiceModel,
                          provider: ProviderModel, lang: Language)
    requires service in services && provider in service.providers
    ensures var d := ServiceField(services, Some(service), lang);
            && d.initialText.Some? && d.initialText.value in d.dropdownOptions
            && (ValidateField(engine, d.initialText, d.maxInputLength, d.validationRegex) <==>
                Trim(d.initialText.value, Whitespaces) != [])
    ensures var d := ProviderField(service, Some(provider));
            && d.initialText.Some? && d.initialText.value in d.dropdownOptions
            && (ValidateField(engine, d.initialText, d.maxInputLength, d.validationRegex) <==>
                Trim(d.initialText.value, Whitespaces) != [])
  {
    var i :| 0 <= i < |services| && services[i] == service;
    var j :| 0 <= j < |service.providers| && service.providers[j] == provider;
    var sd := ServiceField(services, Some(service), lang);
    var pd := ProviderField(service, Some(provider));
    assert sd.dropdownOptions[i] == sd.initialText.value;
    assert pd.dropdownOptions[j] == pd.initialText.value;
    ValidateFieldMeaning(engine, sd.initialText, sd.maxInputLength, sd.validationRegex);
    ValidateFieldMeaning(engine, pd.initialText, pd.maxInputLength, pd.validationRegex);
  }

  /**
   * The field for one schema entry: a dropdown exactly when the schema says
   * `option`, with the option labels as rows and no rows otherwise; the
   * validation rules and the name are copied unchanged. The text starts as
   * the empty string, which is what an untouched text field holds.
   */
  function DescribeField(f: FieldModel, lang: Language): (d: FieldDescriptor)
    ensures d.isDropdown <==> f.fieldType == Some(OptionField)
    ensures d.isDropdown ==> d.dropdownOptions == OptionLabels(f.options.GetOr([]))
    ensures !d.isDropdown ==> d.dropdownOptions == []
    ensures d.fieldType == f.fieldType && d.fieldName == f.name
    ensures d.validationRegex == f.validation && d.maxInputLength == f.maxLength
    ensures d.validationErrorMessage == f.validationErrorMessage
    ensures d.headerText.Some? <==> LocalizedLabel(f.labelText, lang).Some?
    ensures d.headerText.Some? ==> d.headerText.value == Literal(LocalizedLabel(f.labelText, lang).value)
    ensures d.initialText == Some("") && d.onValueChange == NoHandler
  {
    var header := LocalizedLabel(f.labelText, lang);
    FieldDescriptor(
      headerText := if header.Some? then Some(Literal(header.value)) else None,
      placeholderText := if f.placeholder.Some? then Some(Literal(f.placeholder.value)) else None,
      fieldType := f.fieldType,
      isDropdown := f.fieldType == Some(OptionField),
      dropdownOptions := if f.fieldType == Some(OptionField) then OptionLabels(f.options.GetOr([])) else [],
      validationRegex := f.validation,
      maxInputLength := f.maxLength,
      validationErrorMessage := f.validationErrorMessage,
      fieldName := f.name,
      initialText := Some(""),
      onValueChange := NoHandler)
  }

  /** One field per schema entry, in schema order. */
  function DescribeFields(fields: seq<FieldModel>, lang: Language): (ds: seq<FieldDescriptor>)
    ensures |ds| == |fields|
    ensures forall i :: 0 <= i < |fields| ==> ds[i] == DescribeField(fields[i], lang)
    decreases |fields|
  {
    if fields == [] then []
    else [DescribeField(fields[0], lang)] + DescribeFields(fields[1..], lang)
  }

  /**
   * What `updateUI` puts in the stack, field by field: the service picker;
   * the provider picker when a service is selected; the selected provider's
   * fields when a provider is selected.
   */
  function BuildForm(services: seq<ServiceModel>, selectedService: Option<ServiceModel>,
                     selectedProvider: Option<ProviderModel>, lang: Language): (form: seq<FieldDescriptor>)
    ensures |form| >= 1 && form[0] == ServiceField(services, selectedService, lang)
    ensures selectedService.Some? <==> |form| >= 2 && form[1].onValueChange == ProviderChanged
    ensures selectedService.Some? ==> form[1] == ProviderField(selectedService.value, selectedProvider)
    ensures selectedProvider.None? ==> |form| == (if selectedService.Some? then 2 else 1)
    ensures selectedProvider.Some? ==>
              var required := selectedProvider.value.requiredFields;
              && |form| == |required| + (if selectedService.Some? then 2 else 1)
              && form[|form| - |required|..] == DescribeFields(required, lang)
  {
    [ServiceField(services, selectedService, lang)]
    + (if selectedService.Some? then [ProviderField(selectedService.value, selectedProvider)] else [])
    + (if selectedProvider.Some? then DescribeFields(selectedProvider.value.requiredFields, lang) else [])
  }

  /**
   * With a provider selected in a consistent session, the first two fields
   * are the two pickers and everything after them is the provider's form,
   * none of it a picker: dropping two fields leaves exactly the form.
   */
  lemma PickersComeFirst(services: seq<ServiceModel>, selectedService: Option<ServiceModel>,
                         selectedProvider: ProviderModel, lang: Language)
    requires selectedService.Some? && selectedProvider in selectedService.value.providers
    ensures var form := BuildForm(services, selectedService, Some(selectedProvider), lang);
            && form[0].onValueChange == ServiceChanged
            && form[1].onValueChange == ProviderChanged
            && form[2..] == DescribeFields(selectedProvider.requiredFields, lang)
            && forall i :: 2 <= i < |form| ==> form[i].onValueChange == NoHandler
  {
  }

  /**
   * In English a service's picker row is its English label, so picking it
   * selects a service with that label: the first one, which is the picked
   * one unless an earlier service shares the label.
   */
  lemma EnglishServiceRowSelects(services: seq<ServiceModel>, i: nat)
    requires i < |services| && services[i].labelText.en.Some?
    ensures var found := FindServiceByEnglishLabel(services, ServiceOptions(services, English)[i]);
            && found.Some?
            && found.value.labelText.en == services[i].labelText.en
  {
  }

  /**
   * In Arabic a service with an Arabic label is listed under it, and the
   * lookup compares English labels only: unless some English label happens to
   * equal it, picking that row selects no service at all.
   */
  lemma ArabicServiceRowMisses(services: seq<ServiceModel>, i: nat)
    requires i < |services| && services[i].labelText.ar.Some?
    requires forall j :: 0 <= j < |services| ==> services[j].labelText.en != services[i].labelText.ar
    ensures FindServiceByEnglishLabel(services, ServiceOptions(services, Arabic)[i]).None?
  {
  }

  /** Picking a named provider's row selects a provider of that name. */
  lemma ProviderRowSelects(providers: seq<ProviderModel>, i: nat)
    requires i < |providers| && providers[i].name.Some?
    ensures var found := FindProviderByName(providers, ProviderOptions(providers)[i]);
            found.Some? && found.value.name == providers[i].name
  {
  }

  /**
   * A schema field nobody has typed into yet holds the empty string, so it
   * fails both checks: Send refuses a form while any of its schema fields is
   * untouched.
   */
  lemma UntouchedFieldFails(engine: RegexEngine, f: FieldModel, lang: Language)
    ensures var d := DescribeField(f, lang);
            && !ValidateField(engine, d.initialText, d.maxInputLength, d.validationRegex)
            && InputVerdict(engine, d.headerText, d.initialText, d.maxInputLength, d.validationRegex,
                            d.validationErrorMessage).Rejected?
  {
    var d := DescribeField(f, lang);
    ValidateFieldMeaning(engine, d.initialText, d.maxInputLength, d.validationRegex);
  }

  // ----- The request a submission saves -----

  /** `dropFirst(n)`. */
  function DropFirst<T>(n: nat, s: seq<T>): seq<T> {
    if |s| <= n then [] else s[n..]
  }

  /** `items[key] = value`: a nil value removes the key. */
  function Store(items: map<string, string>, key: string, value: Option<string>): map<string, string> {
    if value.Some? then items[key := value.value] else items - {key}
  }

  /** The dictionary left after storing each (key, value) entry in turn. */
  function RequestItems(entries: seq<(string, Option<string>)>): map<string, string>
    decreases |entries|
  {
    if entries == [] then map[]
    else
      var last := entries[|entries| - 1];
      Store(RequestItems(entries[..|entries| - 1]), last.0, last.1)
  }

  /**
   * A key holds a value exactly when the last entry with that key carries
   * that value: later entries overwrite earlier ones, and a last entry with
   * a nil value leaves the key out.
   */
  lemma {:induction false} RequestItemsLastWins(entries: seq<(string, Option<string>)>, key: string, value: string)
    ensures (key in RequestItems(entries) && RequestItems(entries)[key] == value) <==>
            exists i :: 0 <= i < |entries| && entries[i] == (key, Some(value))
                        && forall j :: i < j < |entries| ==> entries[j].0 != key
    decreases |entries|
  {
    if entries != [] {
      var n := |entries| - 1;
      var front := entries[..n];
      var last := entries[n];
      RequestItemsLastWins(front, key, value);
      assert forall i :: 0 <= i < n ==> front[i] == entries[i];
      if last.0 == key {
        if last == (key, Some(value)) {
          assert entries[n] == (key, Some(value));
        } else {
          forall i | 0 <= i < |entries| && entries[i] == (key, Some(value))
            ensures exists j :: i < j < |entries| && entries[j].0 == key
          {
            assert i < n;
            assert entries[n].0 == key;
          }
        }
      } else {
        if exists i :: 0 <= i < |entries| && entries[i] == (key, Some(value))
                       && forall j :: i < j < |entries| ==> entries[j].0 != key {
          var i :| 0 <= i < |entries| && entries[i] == (key, Some(value))
                   && forall j :: i < j < |entries| ==> entries[j].0 != key;
          assert i < n && front[i] == (key, Some(value));
          assert forall j :: i < j < |front| ==> front[j].0 != key;
        }
      }
    }
  }

  /** Two fields without a name are both stored under "": the later one's value is kept. */
  lemma NamelessFieldsCollide(first: string, second: string)
    ensures RequestItems([("", Some(first)), ("", Some(second))]) == map["" := second]
  {
    var e := [("", Some(first)), ("", Some(second))];
    assert e[..1] == [("", Some(first))];
    assert [("", Some(first))][..0] == [];
    assert RequestItems(e[..1]) == map["" := first];
    assert map["" := first]["" := second] == map["" := second];
  }

  /**
   * A phone number and an amount typed as " 100": the amount passes a limit
   * of 4 at submission, because the length check looks at the trimmed text,
   * and both values are saved under their names as typed, the amount with
   * its leading space.
   */
  lemma TopUpRecord(engine: RegexEngine)
    ensures ValidateField(engine, Some(" 100"), Some(4), None)
    ensures RequestItems([("msisdn", Some("0501234567")), ("amount", Some(" 100"))])
         == map["msisdn" := "0501234567", "amount" := " 100"]
  {
    var t := " 100";
    assert InClass(t[0], Whitespaces) && !InClass(t[1], Whitespaces) && !InClass(t[3], Whitespaces);
    assert t[1..] == "100";
    assert TrimStart("100", Whitespaces) == "100";
    assert TrimStart(t, Whitespaces) == "100";
    assert TrimEnd("100", Whitespaces) == "100";
    ValidateFieldMeaning(engine, Some(t), Some(4), None);
    var e := [("msisdn", Some("0501234567")), ("amount", Some(t))];
    assert e[..1] == [("msisdn", Some("0501234567"))];
    assert [("msisdn", Some("0501234567"))][..0] == [];
  }

  /** Every field passes the submit-time check. */
  ghost predicate AllFieldsPass(engine: RegexEngine, inputs: seq<GenericField>)
    reads inputs`text
  {
    forall i :: 0 <= i < |inputs| ==> ValidateField(engine, inputs[i].text, inputs[i].maxInputLength, inputs[i].validationRegex)
  }

  /**
   * What `validateForm` leaves on the labels: each field's label is hidden
   * exactly when the field passes, and a failing field shows the failure
   * message.
   */
  ghost predicate LabelsShowVerdicts(engine: RegexEngine, inputs: seq<GenericField>)
    reads inputs`text, inputs`errorHidden, inputs`errorText
  {
    forall i :: 0 <= i < |inputs| ==>
      && inputs[i].errorHidden == ValidateField(engine, inputs[i].text, inputs[i].maxInputLength, inputs[i].validationRegex)
      && (!inputs[i].errorHidden ==> inputs[i].errorText == Some(SubmitFailureMessage(inputs[i].headerText)))
  }

  // ----- The screen -----

  /** A view in the stack: a field, or the container holding the Send button. */
  datatype Subview = FieldView(field: GenericField) | SendButtonContainer

  /** The fields among the views, in stack order (`for case let field as GenericField in ...`). */
  function FieldsOf(subviews: seq<Subview>): (fields: seq<GenericField>)
    ensures |fields| <= |subviews|
    decreases |subviews|
  {
    if subviews == [] then []
    else
      var last := subviews[|subviews| - 1];
      FieldsOf(subviews[..|subviews| - 1]) + (if last.FieldView? then [last.field] else [])
  }

  /** The field objects among the views, as a set. */
  ghost function FieldSet(subviews: seq<Subview>): set<GenericField> {
    set i | 0 <= i < |subviews| && subviews[i].FieldView? :: subviews[i].field
  }

  /** Views that are fields up to `n` and not fields after it contribute exactly those fields. */
  lemma {:induction false} LeadingFields(subviews: seq<Subview>, n: nat)
    requires n <= |subviews|
    requires forall i :: 0 <= i < n ==> subviews[i].FieldView?
    requires forall i :: n <= i < |subviews| ==> !subviews[i].FieldView?
    ensures |FieldsOf(subviews)| == n
    ensures forall i :: 0 <= i < n ==> FieldsOf(subviews)[i] == subviews[i].field
    decreases |subviews|
  {
    if subviews != [] {
      var front := subviews[..|subviews| - 1];
      if n == |subviews| {
        LeadingFields(front, n - 1);
      } else {
        LeadingFields(front, n);
      }
    }
  }

  /**
   * On a stack built for a selected provider, the fields left after dropping
   * the first two are the provider's form, in order: the two pickers are
   * exactly what `generateRequestData` skips.
   */
  lemma SubmittedFieldsAreProviderFields(views: seq<Subview>, services: seq<ServiceModel>,
                                         service: ServiceModel, provider: ProviderModel, lang: Language)
    requires provider in service.providers
    requires StackShows(views, BuildForm(services, Some(service), Some(provider), lang), true)
    ensures var rest := DropFirst(2, FieldsOf(views));
            && |rest| == |provider.requiredFields|
            && forall i :: 0 <= i < |rest| ==> rest[i].Fresh(DescribeField(provider.requiredFields[i], lang))
  {
    var form := BuildForm(services, Some(service), Some(provider), lang);
    PickersComeFirst(services, Some(service), provider, lang);
    LeadingFields(views, |form|);
    var fields := FieldsOf(views);
    var rest := DropFirst(2, fields);
    forall i | 0 <= i < |rest|
      ensures rest[i].Fresh(DescribeField(provider.requiredFields[i], lang))
    {
      assert rest[i] == fields[i + 2] == views[i + 2].field;
      assert form[i + 2] == form[2..][i];
    }
  }

  /** The (key, value) pair each field contributes: `fieldName ?? ""` and the field's text. */
  function EntriesOf(fields: seq<GenericField>): (entries: seq<(string, Option<string>)>)
    reads fields`text
    ensures |entries| == |fields|
    ensures forall i :: 0 <= i < |fields| ==> entries[i] == (fields[i].fieldName.GetOr(""), fields[i].text)
    decreases |fields|
  {
    if fields == [] then []
    else [(fields[0].fieldName.GetOr(""), fields[0].text)] + EntriesOf(fields[1..])
  }

  /**
   * `views` holds one field per entry of `form`, each just built from that
   * entry and each its own object, then the Send button when `withButton`.
   */
  ghost predicate StackShows(views: seq<Subview>, form: seq<FieldDescriptor>, withButton: bool)
    reads FieldSet(views)
  {
    && |views| == |form| + (if withButton then 1 else 0)
    && (forall i :: 0 <= i < |form| ==> views[i].FieldView?)
    && (forall i :: 0 <= i < |form| ==> views[i].field.Fresh(form[i]))
    && (forall i, j :: 0 <= i < j < |form| ==> views[i].field != views[j].field)
    && (withButton ==> views[|form|] == SendButtonContainer)
  }

  /** A new field for each description, in order, each its own object. */
  method MakeFields(form: seq<FieldDescriptor>) returns (views: seq<Subview>)
    ensures StackShows(views, form, false)
    ensures forall i :: 0 <= i < |views| ==> views[i].FieldView? && fresh(views[i].field)
  {
    views := [];
    for k := 0 to |form|
      invariant |views| == k
      invariant forall i :: 0 <= i < k ==> views[i].FieldView? && fresh(views[i].field)
      invariant forall i :: 0 <= i < k ==> views[i].field.Fresh(form[i])
      invariant forall i, j :: 0 <= i < j < k ==> views[i].field != views[j].field
    {
      var field := new GenericField(form[k]);
      views := views + [FieldView(field)];
    }
  }

  /**
   * The views `updateUI` adds: one field per entry of the session's form,
   * then, when a provider is selected, the container of the Send button.
   */
  method BuildStack(services: seq<ServiceModel>, selectedService: Option<ServiceModel>,
                    selectedProvider: Option<ProviderModel>, lang: Language) returns (views: seq<Subview>)
    ensures StackShows(views, BuildForm(services, selectedService, selectedProvider, lang), selectedProvider.Some?)
    ensures forall i :: 0 <= i < |views| && views[i].FieldView? ==> fresh(views[i].field)
  {
    var form := BuildForm(services, selectedService, selectedProvider, lang);
    views := MakeFields(form);
    if selectedProvider.Some? {
      ghost var fields := views;
      views := views + [SendButtonContainer];
      assert forall i :: 0 <= i < |form| ==> views[i] == fields[i];
    }
  }

  class SendMoneyViewController {
    const viewModel: SendMoneyViewModel
    const appState: AppState
    var arrangedSubviews: seq<Subview>   // stackView.arrangedSubviews
    var title: Option<string>            // navigationItem.title

    constructor (viewModel: SendMoneyViewModel, appState: AppState)
      ensures this.viewModel == viewModel && this.appState == appState
      ensures arrangedSubviews == [] && title == None
    {
      this.viewModel := viewModel;
      this.appState := appState;
      arrangedSubviews := [];
      title := None;
    }

    /** The stack shows the form of the current session, just built. */
    ghost predicate ShowsForm(lang: Language)
      reads this, viewModel, FieldSet(arrangedSubviews)
    {
      StackShows(arrangedSubviews,
                 BuildForm(viewModel.services, viewModel.selectedService, viewModel.selectedProvider, lang),
                 viewModel.selectedProvider.Some?)
    }

    /**
     * `updateUI`: sets the title from the catalog when there is one, drops
     * every view and builds the form afresh for the current session.
     */
    method UpdateUI(lang: Language)
      modifies this`arrangedSubviews, this`title
      ensures ShowsForm(lang)
      ensures forall i :: 0 <= i < |arrangedSubviews| && arrangedSubviews[i].FieldView? ==>
                fresh(arrangedSubviews[i].field)
      ensures viewModel.screenTitle.Some? ==> title == viewModel.screenTitle.value.Localized(lang)
      ensures viewModel.screenTitle.None? ==> title == old(title)
    {
      if viewModel.screenTitle.Some? {
        title := viewModel.screenTitle.value.Localized(lang);
      }
      var subviews := BuildStack(viewModel.services, viewModel.selectedService, viewModel.selectedProvider, lang);
      arrangedSubviews := subviews;
    }

    /** `gatherInputFields`: the fields in the stack, in order. */
    method GatherInputFields() returns (inputs: seq<GenericField>)
      ensures inputs == FieldsOf(arrangedSubviews)
    {
      inputs := [];
      var i := 0;
      while i < |arrangedSubviews|
        invariant 0 <= i <= |arrangedSubviews|
        invariant inputs == FieldsOf(arrangedSubviews[..i])
      {
        assert arrangedSubviews[..i + 1][..i] == arrangedSubviews[..i];
        if arrangedSubviews[i].FieldView? {
          inputs := inputs + [arrangedSubviews[i].field];
        }
        i := i + 1;
      }
      assert arrangedSubviews[..i] == arrangedSubviews;
    }

    /**
     * `generateRequestData`: every field after the first two stores its text
     * under `fieldName ?? ""`, untrimmed; the record names the selected
     * service in `lang` and the selected provider, with a fresh identifier
     * of the default length.
     */
    method GenerateRequestData(lang: Language) returns (request: TransactionModel)
      ensures request.formData == RequestItems(EntriesOf(DropFirst(2, FieldsOf(arrangedSubviews))))
      ensures request.serviceName == ServiceDisplayName(viewModel.selectedService, lang)
      ensures request.providerName == ProviderDisplayName(viewModel.selectedProvider)
      ensures |request.id| == DefaultLength
      ensures forall i :: 0 <= i < |request.id| ==> request.id[i] in Alphanumerics
    {
      var inputFields := GatherInputFields();
      var rest := DropFirst(2, inputFields);
      var items: map<string, string> := map[];
      ghost var entries := EntriesOf(rest);
      for i := 0 to |rest|
        invariant items == RequestItems(entries[..i])
      {
        var field := rest[i];
        assert entries[..i + 1][..i] == entries[..i];
        assert entries[i] == (field.fieldName.GetOr(""), field.text);
        if field.text.Some? {
          items := items[field.fieldName.GetOr("") := field.text.value];
        } else {
          items := items - {field.fieldName.GetOr("")};
        }
      }
      assert entries[..|rest|] == entries;
      var id := RandomAlphanumeric(DefaultLength);
      request := TransactionModel(id, ServiceDisplayName(viewModel.selectedService, lang),
                                  ProviderDisplayName(viewModel.selectedProvider), items);
    }

    /**
     * `saveRequest`: generates the request from the stack and appends it to
     * the saved requests (the confirmation alert is not modelled).
     */
    method SaveRequest(lang: Language) returns (request: TransactionModel)
      modifies appState`requests
      ensures appState.requests == old(appState.requests) + [request]
      ensures request.formData == RequestItems(EntriesOf(DropFirst(2, FieldsOf(arrangedSubviews))))
      ensures request.serviceName == ServiceDisplayName(viewModel.selectedService, lang)
      ensures request.providerName == ProviderDisplayName(viewModel.selectedProvider)
      ensures |request.id| == DefaultLength
      ensures forall i :: 0 <= i < |request.id| ==> request.id[i] in Alphanumerics
    {
      request := GenerateRequestData(lang);
      ghost var rest := DropFirst(2, FieldsOf(arrangedSubviews));
      ghost var entries := EntriesOf(rest);
      appState.AddRequest(request);
      assert forall i :: 0 <= i < |rest| ==> EntriesOf(rest)[i] == entries[i];
    }

    /**
     * `sendForm`: validates every field in the stack, which shows or hides
     * each field's error label, and only when all of them pass saves the
     * generated request.
     */
    method SendForm(engine: RegexEngine, lang: Language) returns (saved: Option<TransactionModel>)
      modifies FieldsOf(arrangedSubviews)`errorHidden, FieldsOf(arrangedSubviews)`errorText, appState`requests
      ensures saved.Some? <==> AllFieldsPass(engine, FieldsOf(arrangedSubviews))
      ensures LabelsShowVerdicts(engine, FieldsOf(arrangedSubviews))
      ensures saved.Some? ==> appState.requests == old(appState.requests) + [saved.value]
      ensures saved.None? ==> appState.requests == old(appState.requests)
      ensures saved.Some? ==>
                && saved.value.formData == RequestItems(EntriesOf(DropFirst(2, FieldsOf(arrangedSubviews))))
                && saved.value.serviceName == ServiceDisplayName(viewModel.selectedService, lang)
                && saved.value.providerName == ProviderDisplayName(viewModel.selectedProvider)
                && |saved.value.id| == DefaultLength
                && forall i :: 0 <= i < |saved.value.id| ==> saved.value.id[i] in Alphanumerics
    {
      var inputFields := GatherInputFields();
      var isValid := viewModel.ValidateForm(engine, inputFields);
      assert isValid <==> AllFieldsPass(engine, inputFields);
      assert LabelsShowVerdicts(engine, inputFields);
      if isValid {
        var request := SaveRequest(lang);
        saved := Some(request);
      } else {
        saved := None;
      }
    }

    /**
     * The closure a picker calls with its new value: the service picker
     * selects a service, the provider picker a provider. The session then
     * asks for a rebuild and the closure rebuilds once more; the resulting
     * stack is the same either way.
     */
    method OnValueChange(handler: ChangeHandler, value: string, lang: Language)
      requires viewModel.Valid()
      modifies this`arrangedSubviews, this`title, viewModel`selectedService, viewModel`selectedProvider
      ensures viewModel.Valid()
      ensures handler == ServiceChanged ==>
                && viewModel.selectedService == FindServiceByEnglishLabel(viewModel.services, value)
                && viewModel.selectedProvider == None
      ensures handler == ProviderChanged && viewModel.selectedService.Some? ==>
                viewModel.selectedProvider == FindProviderByName(viewModel.selectedService.value.providers, value)
      ensures handler == ProviderChanged ==>
                viewModel.selectedService == old(viewModel.selectedService)
      ensures handler == ProviderChanged && viewModel.selectedService.None? ==>
                viewModel.selectedProvider == old(viewModel.selectedProvider)
      ensures handler != NoHandler ==> ShowsForm(lang)
      ensures handler != NoHandler && viewModel.screenTitle.Some? ==>
                title == viewModel.screenTitle.value.Localized(lang)
      ensures handler != NoHandler && viewModel.screenTitle.None? ==> title == old(title)
      ensures handler == NoHandler ==>
                && arrangedSubviews == old(arrangedSubviews) && title == old(title)
                && viewModel.selectedService == old(viewModel.selectedService)
                && viewModel.selectedProvider == old(viewModel.selectedProvider)
    {
      match handler
      case NoHandler =>
      case ServiceChanged =>
        var dataUpdated := viewModel.UpdateSelectedService(value);
        if dataUpdated {
          UpdateUI(lang);
        }
        UpdateUI(lang);
      case ProviderChanged =>
        var dataUpdated := viewModel.UpdateSelectedProvider(value);
        if dataUpdated {
          UpdateUI(lang);
        }
        UpdateUI(lang);
    }

    /** `viewDidLoad`, given what fetching the catalog produced: a loaded catalog is shown at once. */
    method ViewDidLoad(fetched: Result<ServicesResponse, DataServiceError>, lang: Language)
      requires viewModel.Valid()
      modifies this`arrangedSubviews, this`title, viewModel
      ensures viewModel.Valid()
      ensures fetched.Success? ==>
                viewModel.services == fetched.value.services && viewModel.screenTitle == Some(fetched.value.title)
      ensures fetched.Success? ==> ShowsForm(lang) && title == fetched.value.title.Localized(lang)
      ensures fetched.Failure? ==>
                && viewModel.services == old(viewModel.services)
                && viewModel.screenTitle == old(viewModel.screenTitle)
                && arrangedSubviews == old(arrangedSubviews) && title == old(title)
      ensures viewModel.selectedService == old(viewModel.selectedService)
      ensures viewModel.selectedProvider == old(viewModel.selectedProvider)
    {
      var dataUpdated := viewModel.LoadFormData(fetched);
      if dataUpdated {
        UpdateUI(lang);
      }
    }
  }
}
