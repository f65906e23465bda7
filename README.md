# SendMoneyApplication: the send-money form engine in Dafny

SendMoneyApplication is an iOS app. A user logs in, picks a service and then
one of its providers from a catalog, and fills in the form that provider
requires. The form is validated when the user presses Send, and the request
is saved in an in-memory list of transactions. This project models:

- the catalog's data types and their localisation fallback;
- the two field validators: the submit-time `FormValidator.validateField` and
  the end-of-editing `GenericField.validateInput`;
- the form session;
- the screen that builds the form and aggregates the request;
- the transaction list, the random identifier, and the login rules.

Modules follow the source files:

| module | file | models |
|---|---|---|
| `Translation` | `translation.dfy` | `TranslationObj.localized`, with the language as a parameter |
| `FieldModel` | `field_model.dfy` | `FieldType` raw values, `CodingKeys`, `FieldModel.effectiveErrorMessage` |
| `ServicesModel`, `Transactions` | `services_model.dfy`, `transaction_model.dfy` | the catalog, provider and transaction records |
| `CharacterSets` | `character_sets.dfy` | Foundation's `trimmingCharacters(in:)` for `.whitespaces` and `.whitespacesAndNewlines` |
| `FormValidator` | `form_validator.dfy` | the submit-time rule chain |
| `GenericFieldComponent` | `generic_field.dfy` | the form control as a class: its verdict, error label, keyboard and picker |
| `SendMoney` | `send_money_view_model.dfy` | the session class: loading, selection, `validateForm` |
| `SendMoneyScreen` | `send_money_view_controller.dfy` | the form as a list of descriptors; the screen class with `updateUI`, `gatherInputFields`, `generateRequestData`, `sendForm` and the picker closures |
| `Managers` | `app_state.dfy` | `AppState` and its `requests` list |
| `Utils` | `utils.dfy` | `randomAlphanumeric` |
| `Login` | `login.dfy` | `LoginModel` and `LoginViewModel.login` |
| `Texts`, `Regex`, `Wrappers` | `texts.dfy`, `regex.dfy`, `wrappers.dfy` | symbolic user-facing text, the regular-expression engine as a parameter, `Option`/`Result` |

Things the platform does are not interpreted. They are passed in or kept symbolic:

- Regular expressions are a `RegexEngine` value with three predicates:
  - `compiles`: `NSRegularExpression` accepts the pattern;
  - `containsMatch`: `firstMatch` finds a match anywhere;
  - `fullMatch`: `NSPredicate` `SELF MATCHES`.
- A localised string is a `Text` term that records how the message was put together: a key's `.localized`, `String(format:)`, concatenation.
- The active language is a parameter.
- The catalog fetch and the stored-request decode are inputs of type `Result` or `Option`.

Some behaviour of the code is surprising. The model follows the code and proves each surprise as a lemma:

- the submit-time pattern check accepts a match anywhere in the text (`FormValidator.SubstringMatchSuffices`);
- a pattern that does not compile rejects every input (`FormValidator.BrokenPatternRejects`);
- submission trims only spaces, while the end of editing also trims line breaks (`GenericFieldComponent.NewlineSplitsValidators`);
- services are looked up by their English label, even when the picker shows Arabic (`SendMoneyScreen.ArabicServiceRowMisses`);
- fields without a name are saved under `""`, and the later field wins (`SendMoneyScreen.NamelessFieldsCollide`);
- saved values are not trimmed (`SendMoneyScreen.TopUpRecord`);
- an empty custom error message is still shown (`GenericFieldComponent.EmptyCustomMessageStillShown`);
- a schema field nobody has typed into holds `""`, UIKit's default text, and fails both validators, so Send refuses a form while any of its schema fields is untouched (`SendMoneyScreen.UntouchedFieldFails`);
- `isValidEmail` is never consulted by `validate` (`Login.ValidateIgnoresEmailFormat`).

## Model

| member | source | states |
|---|---|---|
| Texts.Decimal | SendMoneyApplication/Core/Components/GenericField.swift:207 | `"\(maxLen)"` is a non-empty string of decimal digits that denotes the limit, with no leading zero; the single digit for n < 10 |
| Translation.TranslationObj.Localized | SendMoneyApplication/Modules/SendMoney/Model/ServicesModel.swift:30-38 | Arabic prefers `ar`, English prefers `en`, each falling back to the other; the result is nil exactly when both are nil and is always one of the two |
| Translation.SoleTranslationChosen | SendMoneyApplication/Modules/SendMoney/Model/ServicesModel.swift:33-36 | a translation that is the only one present is returned whatever the language |
| Translation.BothTranslationsFollowLanguage | SendMoneyApplication/Modules/SendMoney/Model/ServicesModel.swift:31-36 | with two different translations present, English and Arabic give different results, each its own |
| FieldModel.FromRawValue | SendMoneyApplication/Modules/SendMoney/Model/FieldModel.swift:46-51 | `FieldType(rawValue:)` succeeds exactly on the four raw strings, and the case found has that raw value |
| FieldModel.RawValueRoundTrip | SendMoneyApplication/Modules/SendMoney/Model/FieldModel.swift:46-51 | parsing a case's raw value gives that case back |
| FieldModel.RawValuesDistinct | SendMoneyApplication/Modules/SendMoney/Model/FieldModel.swift:46-51 | no two cases share a raw value |
| FieldModel.KeyFromName | SendMoneyApplication/Modules/SendMoney/Model/FieldModel.swift:29-34 | a JSON key decodes only to the coding key that has that name |
| FieldModel.CodingKeysRenamed | SendMoneyApplication/Modules/SendMoney/Model/FieldModel.swift:29-34 | `maxLength` is read from "max_length" and `validationErrorMessage` from "validation_error_message"; every key decodes back to itself and names are injective |
| FieldModel.FieldModel.EffectiveErrorMessage | SendMoneyApplication/Modules/SendMoney/Model/FieldModel.swift:25-27 | a non-nil, non-empty custom message verbatim, otherwise exactly "This field is required"; never empty |
| ServicesModel.ProviderKeysRenamed | SendMoneyApplication/Modules/SendMoney/Model/ProviderModel.swift:18-21 | `requiredFields` is read from "required_fields"; provider key names are injective |
| CharacterSets.TrimStartShape | SendMoneyApplication/Core/Components/FormValidator.swift:30 | trimming the start leaves the suffix after the leading run of trimmed characters, starting outside the class |
| CharacterSets.TrimEndShape | SendMoneyApplication/Core/Components/FormValidator.swift:30 | trimming the end leaves the prefix before the trailing run of trimmed characters, ending outside the class |
| CharacterSets.TrimShape | SendMoneyApplication/Core/Components/FormValidator.swift:30 | the trimmed text starts and ends outside the class, and is empty exactly when every character is in it |
| CharacterSets.WhitespacesIncluded | SendMoneyApplication/Core/Components/GenericField.swift:200 | `.whitespaces` is contained in `.whitespacesAndNewlines`, and differs from it only by line breaks |
| CharacterSets.TrimsAgreeWithoutNewlines | SendMoneyApplication/Core/Components/GenericField.swift:200 | on text without line breaks the two trims give the same string |
| CharacterSets.WiderTrimIsShorter | SendMoneyApplication/Core/Components/GenericField.swift:200 | trimming line breaks too never leaves more, and leaves something only if the narrower trim does |
| CharacterSets.TrailingLineFeedTrims | SendMoneyApplication/Core/Components/FormValidator.swift:30 | "abc\n" keeps its line feed under `.whitespaces` and loses it under `.whitespacesAndNewlines` |
| FormValidator.ValidateFieldMeaning | SendMoneyApplication/Core/Components/FormValidator.swift:28-53 | a field passes iff its text is non-nil, non-empty after trimming spaces, within a positive limit, and, with a non-empty pattern, the pattern compiles and matches somewhere |
| FormValidator.BrokenPatternRejects | SendMoneyApplication/Core/Components/FormValidator.swift:42-48 | a non-empty pattern that fails to compile rejects every input |
| FormValidator.NoPatternIgnoresEngine | SendMoneyApplication/Core/Components/FormValidator.swift:42 | with a nil or empty pattern the verdict does not depend on the regex engine |
| FormValidator.NonPositiveLimitDisabled | SendMoneyApplication/Core/Components/FormValidator.swift:36-39 | a nil, zero or negative limit gives the same verdict as no limit at all |
| FormValidator.SubstringMatchSuffices | SendMoneyApplication/Core/Components/FormValidator.swift:43-45 | a compiling pattern that matches anywhere in the trimmed text accepts it |
| FormValidator.TrailingNewlineCounts | SendMoneyApplication/Core/Components/FormValidator.swift:30-39 | a trailing line feed is not trimmed and counts towards the limit |
| GenericFieldComponent.MapKeyboardType | SendMoneyApplication/Core/Components/GenericField.swift:239-250 | phone pad exactly for msisdn, decimal pad exactly for number, the default keyboard for everything else |
| GenericFieldComponent.InputVerdict | SendMoneyApplication/Core/Components/GenericField.swift:195-222 | accepted iff the text trimmed of whitespace and newlines is non-empty, within a positive limit, and fully matches a non-empty pattern. Otherwise the rule reported is the first that fails. The message is the custom message when present, else that rule's own: the required template with the header, the length template with the limit, or `invalid_input_message` |
| GenericFieldComponent.GenericField.constructor | SendMoneyApplication/Modules/SendMoney/View/SendMoneyViewController.swift:79-88 | a new field holds exactly its descriptor's configuration and initial text, the picker on row 0 (or -1 with no rows), and a hidden error label |
| GenericFieldComponent.GenericField.ShowError | SendMoneyApplication/Core/Components/GenericField.swift:226-229 | the label becomes visible with the message |
| GenericFieldComponent.GenericField.HideError | SendMoneyApplication/Core/Components/GenericField.swift:232-234 | the label becomes hidden and its text is kept |
| GenericFieldComponent.GenericField.ValidateInput | SendMoneyApplication/Core/Components/GenericField.swift:195-222 | returns whether the verdict accepts; a rejection shows the verdict's message, an acceptance hides the label and keeps its text |
| GenericFieldComponent.GenericField.PickerDidSelectRow | SendMoneyApplication/Core/Components/GenericField.swift:278-282 | the text becomes option `row`, and that same value is what the closure receives |
| GenericFieldComponent.GenericField.DismissInputView | SendMoneyApplication/Core/Components/GenericField.swift:183-191 | on a dropdown the selected row's option becomes the text and the closure's value; otherwise the text is kept and the closure is not called. Ending editing then runs `validateInput` on the resulting text: the result is its verdict, a rejection shows the verdict's message, an acceptance hides the label |
| GenericFieldComponent.LengthBeforePattern | SendMoneyApplication/Core/Components/GenericField.swift:205-209 | a text over the limit is reported for length, with the limit in the message, whatever the pattern |
| GenericFieldComponent.RequiredFirst | SendMoneyApplication/Core/Components/GenericField.swift:199-203 | nil or blank text is reported as required, whatever the limit and pattern |
| GenericFieldComponent.RequiredMessageNamesHeader | SendMoneyApplication/Core/Components/GenericField.swift:196-202 | a blank field without a custom message is rejected with the required template filled with its header, or "Field" without one; with a custom message the header makes no difference to the verdict |
| GenericFieldComponent.EmptyCustomMessageStillShown | SendMoneyApplication/Core/Components/GenericField.swift:201 | an empty custom message is shown for every failure, though `effectiveErrorMessage` falls back to the default for it |
| GenericFieldComponent.SubstringMatchSplitsValidators | SendMoneyApplication/Core/Components/GenericField.swift:212-217 | a pattern matching only part of the text passes at submission and fails at the end of editing |
| GenericFieldComponent.NewlineSplitsValidators | SendMoneyApplication/Core/Components/GenericField.swift:200 | "abc\n" with limit 3 passes at the end of editing and fails at submission |
| GenericFieldComponent.ValidatorsAgreeWithoutPattern | SendMoneyApplication/Core/Components/GenericField.swift:199-209 | without a pattern and without line breaks the two validators accept the same texts |
| GenericFieldComponent.EndOfEditingTextSurvivesSubmitTrim | SendMoneyApplication/Core/Components/GenericField.swift:200 | a text accepted at the end of editing is not blank at submission |
| GenericFieldComponent.SubmitLengthImpliesEditingLength | SendMoneyApplication/Core/Components/GenericField.swift:206 | a text accepted at submission is within the limit at the end of editing too |
| SendMoney.FindServiceByEnglishLabel | SendMoneyApplication/Modules/SendMoney/SendMoneyViewModel.swift:72 | a result is a catalog service with that English label; nil exactly when no service has it |
| SendMoney.FindServiceIsFirst | SendMoneyApplication/Modules/SendMoney/SendMoneyViewModel.swift:72 | the lookup returns the first service with that English label |
| SendMoney.FindProviderByName | SendMoneyApplication/Modules/SendMoney/SendMoneyViewModel.swift:90 | a result is a provider of the service with that name; nil exactly when none has it |
| SendMoney.FindProviderIsFirst | SendMoneyApplication/Modules/SendMoney/SendMoneyViewModel.swift:90 | the lookup returns the first provider with that name |
| SendMoney.SendMoneyViewModel.constructor | SendMoneyApplication/Modules/SendMoney/SendMoneyViewModel.swift:38-49 | a session starts with no services, no title and no selection |
| SendMoney.SendMoneyViewModel.LoadFormData | SendMoneyApplication/Modules/SendMoney/SendMoneyViewModel.swift:53-67 | a fetched catalog replaces title and services and fires the update; any error changes nothing and fires nothing; the selection is kept |
| SendMoney.SendMoneyViewModel.UpdateSelectedService | SendMoneyApplication/Modules/SendMoney/SendMoneyViewModel.swift:71-82 | selects the first service with that English label (or none), clears the provider, fires the update |
| SendMoney.SendMoneyViewModel.UpdateSelectedProvider | SendMoneyApplication/Modules/SendMoney/SendMoneyViewModel.swift:84-99 | without a service changes nothing and fires nothing; otherwise selects the first provider of that name (nil for an unknown name) and fires; a selected provider always belongs to the selected service |
| SendMoney.SendMoneyViewModel.ValidateForm | SendMoneyApplication/Modules/SendMoney/SendMoneyViewModel.swift:103-123 | every field is checked. The result is true iff all fields pass. Each field's label is hidden iff it passes. A failing field shows "Validation failed for field:" with its header, and a passing field keeps its label text |
| SendMoney.CheckField | SendMoneyApplication/Modules/SendMoney/SendMoneyViewModel.swift:107-113 | one field's verdict, the label shown with the failure message when it fails, hidden when it passes |
| SendMoney.SelectServiceTwice | SendMoneyApplication/Modules/SendMoney/SendMoneyViewModel.swift:72-73 | selecting the same service twice leaves the session as selecting it once |
| Managers.AppState.constructor | SendMoneyApplication/Core/Managers/AppState.swift:12-16 | the list starts empty |
| Managers.AppState.AddRequest | SendMoneyApplication/Core/Managers/AppState.swift:20-23 | the request is appended after the unchanged earlier ones |
| Managers.AppState.LoadRequests | SendMoneyApplication/Core/Managers/AppState.swift:26-31 | a decoded list replaces the requests; missing or undecodable data leaves them unchanged |
| Managers.AddTwo | SendMoneyApplication/Core/Managers/AppState.swift:20-23 | two additions keep the old list as a prefix, followed by both requests in order |
| Utils.AlphabetIsAsciiAlphanumerics | SendMoneyApplication/Core/Utils/Utils.swift:18 | the alphabet has 62 characters, each an ASCII letter or digit |
| Utils.RandomAlphanumeric | SendMoneyApplication/Core/Utils/Utils.swift:17-22 | exactly `length` characters, each from the alphabet; length 0 gives the empty string |
| Utils.DefaultIdentifier | SendMoneyApplication/Core/Utils/Utils.swift:17-21 | with the default length: ten ASCII letters and digits |
| Login.LoginModel.Validate | SendMoneyApplication/Modules/Login/LoginModel.swift:71-85 | valid iff the email has at least 3 and the password at least 6 characters, then with an empty message. A short email reports `invalid_username` even when the password is short too; otherwise a short password reports `invalid_password` |
| Login.LowercasedIdempotent | SendMoneyApplication/Modules/Login/LoginViewModel.swift:44 | lower-casing twice is lower-casing once |
| Login.Authenticate | SendMoneyApplication/Modules/Login/LoginViewModel.swift:35-58 | success iff the email lower-cases to "testuser" and the password is "password123". Success iff no error message. An invalid shape reports `validate`'s message; otherwise a failure reports `user_not_found` |
| Login.TestAccountHasValidShape | SendMoneyApplication/Modules/Login/LoginViewModel.swift:44 | the hard-coded account passes `validate` |
| Login.ValidateIgnoresEmailFormat | SendMoneyApplication/Modules/Login/LoginModel.swift:71-85 | even with every email failing the email pattern, the hard-coded account passes `validate` and logs in |
| Login.EmailCaseInsensitive | SendMoneyApplication/Modules/Login/LoginViewModel.swift:44 | the outcome depends only on the lower-cased email |
| Login.PasswordCaseSensitive | SendMoneyApplication/Modules/Login/LoginViewModel.swift:44 | the right password in capitals is refused with `user_not_found` |
| Login.CapitalisedUserLogsIn | SendMoneyApplication/Modules/Login/LoginViewModel.swift:44 | "TestUser" with the right password logs in |
| Login.LoginViewModel.constructor | SendMoneyApplication/Modules/Login/LoginViewModel.swift:25-33 | empty credentials and no error message |
| Login.LoginViewModel.Login | SendMoneyApplication/Modules/Login/LoginViewModel.swift:35-58 | the one reported outcome and the new `errorMessage` are `Authenticate`'s on the entered credentials, which are left unchanged |
| SendMoneyScreen.ServiceOptions | SendMoneyApplication/Modules/SendMoney/View/SendMoneyViewController.swift:49 | one row per service, in catalog order: its label in the language, "" for none |
| SendMoneyScreen.ProviderOptions | SendMoneyApplication/Modules/SendMoney/View/SendMoneyViewController.swift:65 | one row per provider, in order: its name, "" for none |
| SendMoneyScreen.OptionLabels | SendMoneyApplication/Modules/SendMoney/View/SendMoneyViewController.swift:84 | one row per option, in order: its label, "" for none |
| SendMoneyScreen.DescribeField | SendMoneyApplication/Modules/SendMoney/View/SendMoneyViewController.swift:78-92 | a dropdown iff the type is `option`, with the option labels as rows, no rows otherwise. Validation, limit, custom message, type and name are copied unchanged. The header is the label in the language. The field starts empty, with no closure |
| SendMoneyScreen.DescribeFields | SendMoneyApplication/Modules/SendMoney/View/SendMoneyViewController.swift:78-92 | one descriptor per schema entry, in schema order |
| SendMoneyScreen.ServiceField | SendMoneyApplication/Modules/SendMoney/View/SendMoneyViewController.swift:45-56 | the service picker: a dropdown headed `select_service`, one row per service, showing the selected service's label ("" for none), calling the service closure, with no rules and no name |
| SendMoneyScreen.ProviderField | SendMoneyApplication/Modules/SendMoney/View/SendMoneyViewController.swift:61-72 | the provider picker: a dropdown headed `select_provider`, one row per provider of the service, showing the selected provider's name ("" for none), calling the provider closure, with no rules and no name |
| SendMoneyScreen.PickerShowsItsRow | SendMoneyApplication/Modules/SendMoney/View/SendMoneyViewController.swift:49-66 | a picker built for a service in the catalog, or a provider of it, shows one of its own rows, and passes submission exactly when that label is not blank |
| SendMoneyScreen.BuildForm | SendMoneyApplication/Modules/SendMoney/View/SendMoneyViewController.swift:42-92 | the service picker first; the provider picker exactly when a service is selected; the selected provider's fields, in order, exactly when a provider is selected |
| SendMoneyScreen.PickersComeFirst | SendMoneyApplication/Modules/SendMoney/View/SendMoneyViewController.swift:155 | in a consistent session with a provider, fields 0 and 1 are the two pickers and the fields after them are the provider's form, none a picker |
| SendMoneyScreen.EnglishServiceRowSelects | SendMoneyApplication/Modules/SendMoney/View/SendMoneyViewController.swift:49-56 | in English, picking a service's row selects a service with that English label |
| SendMoneyScreen.ArabicServiceRowMisses | SendMoneyApplication/Modules/SendMoney/View/SendMoneyViewController.swift:49-56 | in Arabic, picking a row labelled in Arabic selects no service unless some English label equals it |
| SendMoneyScreen.ProviderRowSelects | SendMoneyApplication/Modules/SendMoney/View/SendMoneyViewController.swift:65-72 | picking a named provider's row selects a provider of that name |
| SendMoneyScreen.UntouchedFieldFails | SendMoneyApplication/Modules/SendMoney/View/SendMoneyViewController.swift:78-92 | a freshly built schema field fails both validators |
| SendMoneyScreen.RequestItemsLastWins | SendMoneyApplication/Modules/SendMoney/View/SendMoneyViewController.swift:155-157 | a key holds a value iff some entry carries that key with that value and no later entry has the key, so a nil last value leaves the key out |
| SendMoneyScreen.NamelessFieldsCollide | SendMoneyApplication/Modules/SendMoney/View/SendMoneyViewController.swift:156 | two nameless fields are stored under "", the second value kept |
| SendMoneyScreen.TopUpRecord | SendMoneyApplication/Modules/SendMoney/View/SendMoneyViewController.swift:156 | an amount " 100" passes a limit of 4 at submission, and it is saved with its leading space next to the phone number under their names |
| SendMoneyScreen.SubmittedFieldsAreProviderFields | SendMoneyApplication/Modules/SendMoney/View/SendMoneyViewController.swift:155 | on a stack built for a selected provider, the fields after the first two are the provider's, in order |
| SendMoneyScreen.EntriesOf | SendMoneyApplication/Modules/SendMoney/View/SendMoneyViewController.swift:156 | each field contributes the key `fieldName ?? ""` and its text, in order |
| SendMoneyScreen.MakeFields | SendMoneyApplication/Modules/SendMoney/View/SendMoneyViewController.swift:78-91 | one new, distinct field per descriptor, in order, each built from its descriptor |
| SendMoneyScreen.BuildStack | SendMoneyApplication/Modules/SendMoney/View/SendMoneyViewController.swift:42-100 | new fields for the session's form, then the Send button exactly when a provider is selected |
| SendMoneyScreen.SendMoneyViewController.constructor | SendMoneyApplication/Modules/SendMoney/View/SendMoneyViewController.swift:9-10 | an empty stack, no title, the given session and transaction list |
| SendMoneyScreen.SendMoneyViewController.UpdateUI | SendMoneyApplication/Modules/SendMoney/View/SendMoneyViewController.swift:30-110 | the title is the catalog title in the language when there is one, else unchanged; the stack holds new fields exactly for the current session's form |
| SendMoneyScreen.SendMoneyViewController.GatherInputFields | SendMoneyApplication/Modules/SendMoney/View/SendMoneyViewController.swift:139-147 | the fields of the stack, in stack order, the Send button left out |
| SendMoneyScreen.SendMoneyViewController.GenerateRequestData | SendMoneyApplication/Modules/SendMoney/View/SendMoneyViewController.swift:150-166 | form data is what storing each field after the first two under `fieldName ?? ""` leaves. The names are the service's label in the language and the provider's name, "" when absent. The identifier has 10 alphanumeric characters |
| SendMoneyScreen.SendMoneyViewController.SaveRequest | SendMoneyApplication/Modules/SendMoney/View/SendMoneyViewController.swift:169-171 | the generated request, with `generateRequestData`'s form data, names and identifier shape, is appended after the unchanged earlier requests |
| SendMoneyScreen.SendMoneyViewController.SendForm | SendMoneyApplication/Modules/SendMoney/View/SendMoneyViewController.swift:126-136 | a request is saved, appended after the old ones, iff every gathered field passes the submit-time check; otherwise the list is unchanged. Each field's label is hidden iff it passes, and a failing field shows "Validation failed for field:" with its header. The saved record is `generateRequestData`'s, its identifier 10 alphanumeric characters |
| SendMoneyScreen.SendMoneyViewController.OnValueChange | SendMoneyApplication/Modules/SendMoney/View/SendMoneyViewController.swift:53-56 | the service closure selects by English label and clears the provider; the provider closure selects within the selected service or changes nothing. Either way the stack is rebuilt for the new session, and the title is the catalog title in the language when there is one, else unchanged |
| SendMoneyScreen.SendMoneyViewController.ViewDidLoad | SendMoneyApplication/Modules/SendMoney/View/SendMoneyViewController.swift:13-26 | a loaded catalog is stored and shown at once, titled in the language; a failed load changes nothing; the selection is kept |

## Left out

- UIKit layout, constraints, toolbar, gestures, colours, keyboard notifications and the `didSet` view side effects: none of them decides a value the form reads.
- Navigation (routers, builders, the success alert after saving) and the app delegate.
- `LoggerService` calls: they are write-only.
- Combine publishing of `requests`.
- `AppState.saveToUserDefaults` and the reading of UserDefaults: `LoadRequests` takes the decoding outcome as input.
- `SendMoneyDataService` and JSON decoding: `LoadFormData` and `ViewDidLoad` take the fetch outcome as input.
- `LanguageManager`: the language is a parameter.
- The localisation tables and `String(format:)`: messages stay symbolic `Text` terms.
- The regular-expression engines: they are the `RegexEngine` parameter. `NSPredicate` raises an exception on a malformed pattern; this model leaves that to `fullMatch`.
- Swift's `Character` counts grapheme clusters and Foundation's tables decide whitespace. Here strings are sequences of code points, and the two trim classes list their code points.
- `randomElement`: each pick is an arbitrary choice from the alphabet, not a random-number generator.
- `tapGestureHandler` and `didTapField`: focus handling only.
- The picker data-source callbacks (`numberOfComponents`, `numberOfRowsInComponent`, `titleForRow`): the rows are `dropdownOptions`.
- `textFieldDidEndEditing`: it only calls `validateInput`, modelled as `ValidateInput`; `DismissInputView` ends with that call, as the Done button ends editing.
- GenericFieldComponent.GenericField: the properties the builder sets are `const`, fixed at construction, because nothing assigns them afterwards. `onValueChange` is one of three closure kinds, `ChangeHandler`.
- Managers.AppState: "writable only through this class" (`private(set)`) has no Dafny counterpart; the methods state every change they make.
- SendMoneyScreen.SendMoneyViewController.OnValueChange: the closure updates the session, whose `onDataUpdated` rebuilds the stack, then rebuilds it once more. Both rebuilds are modelled, and only the final stack is stated.
- FormValidator.ValidateField: carries no contract of its own; its meaning is stated by `FormValidator.ValidateFieldMeaning`.
- Login.Authenticate: lower-cases ASCII letters only, not the full Unicode case mapping of `lowercased()`.
- Login.LoginModel.IsValidEmail: modelled, but `validate` does not use it, as in the source.
- Utils.AlphabetIsAsciiAlphanumerics: states only that every alphabet character is an ASCII letter or digit, not the converse.
- Utils.RandomAlphanumeric: requires a non-negative length, because `0..<length` traps for a negative one.
- GenericFieldComponent.GenericField.PickerDidSelectRow: requires the row to exist; the source indexes `dropdownOptions` without a check and would trap.
- GenericFieldComponent.GenericField.DismissInputView: requires a dropdown's selected row to exist. On an empty picker `selectedRow` is -1 and the source's indexing traps.
- Login.LoginModel.IsValidUserName and Login.LoginModel.IsValidPassword: carry no contract of their own; their thresholds of 3 and 6 characters are stated by `Login.LoginModel.Validate`, which decides through them.
- SendMoneyScreen.SendMoneyViewController.SendForm: does not state that a passing field keeps its label's old text (`SendMoney.SendMoneyViewModel.ValidateForm` does); the confirmation alert and the navigation back are not modelled.
- SendMoneyScreen.FieldsOf: its own contract bounds only the length. What it returns is stated through `GatherInputFields`, `LeadingFields` and `SubmittedFieldsAreProviderFields`.
