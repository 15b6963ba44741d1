# Barcode and QR generator: a Dafny model

This project models the core of a browser-based barcode and QR code generator.

The model covers:
- the per-format barcode validators and their dispatcher;
- the registry of barcode formats, categories, defaults and examples;
- the application's configuration record and its single-field update;
- the editing panel's handlers;
- the history panel's list operations;
- the barcode and QR previews' derived values.

The source is JavaScript, so values are modelled as JavaScript values (`JsValues.JsValue`). The configuration is a `map<string, JsValue>`. Truthiness, `a || b` and property reads are written out, so `0` and `""` fall back to a default just as they do in the code.

The string operations the validators use are modelled in `JsStrings`:
- `replace(/[^0-9]/g, "")` is `KeepOnly` with a character class;
- `/^[...]+$/.test` is `MatchesPlus`;
- the `i` flag is `FoldCase`;
- `trim` removes the ECMAScript whitespace set;
- `parseInt` on a digit string is `DecimalValue`.

The format registry's keys are computed from `BARCODE_FORMATS`. `UPCA` and `UPCE` both map to `"UPC"`, and `EAN13` and `ISBN` both map to `"EAN13"`. So the examples object literal has duplicate keys, and the later entry wins. `BarcodeTypes.BarcodeExamples` is written as the same chain of map updates, in source order.

Consequences that are proved:
- the example stored under `"UPC"` is UPC-E's `"01234565"`;
- the validator registered under `"UPC"` is the UPC-A rule, which wants exactly 12 digits;
- so that one example is rejected (`BarcodeTypes.UpcExampleIsRejected`, `BarcodeTypes.ExamplesValidate`);
- this contradicts the comment above the table, which presents the examples as valid for their formats.

The state-changing parts are classes, each method specified by a function of the old state:
- `App.AppState` holds the configuration. `UpdateConfig` and `LoadConfigFromHistory` replace it.
- The `Controls` handlers issue ordered single-field updates on an `AppState`. The conditions they test are read from the configuration as it was when clicked.
- `HistoryPanel.HistoryPanelState` holds the history list and the drawer flag.
- `BarcodePreview.BarcodePreviewState` holds the error shown and the dependencies of the effect that clears it.

Inputs to the model:
- clocks (ids and timestamps);
- the confirmation dialog's answer;
- the barcode renderer's `valid` report.

The barcode type button fills in CODE128's example whatever format is selected (`src/components/generator/Controls.jsx:95-96`), not the selected format's example (`Controls.BarcodeButtonIgnoresFormat`).

## Model

| member | source | states |
|---|---|---|
| JsStrings.Digits | src/utils/barcodeValidators.js:11 | the digits kept by `replace(/[^0-9]/g, "")` are no more than the input's characters and all ASCII digits |
| JsStrings.KeepOnlyConcat | src/utils/barcodeValidators.js:11 | filtering a character class distributes over concatenation |
| JsStrings.KeepOnlyIdentity | src/utils/barcodeValidators.js:11 | a string already inside the class is unchanged by the filter |
| JsStrings.KeepOnlyNone | src/utils/barcodeValidators.js:11 | a string with no character of the class filters to the empty string |
| JsStrings.KeepOnlyIgnoresInsertion | src/utils/barcodeValidators.js:11 | inserting characters outside the class anywhere does not change the filtered result |
| JsStrings.KeepOnlyIdempotent | src/utils/barcodeValidators.js:11 | filtering twice equals filtering once |
| JsStrings.MatchesPlus | src/utils/barcodeValidators.js:153-162 | `/^[class]+$/` matches iff the string is non-empty and every character is in the class |
| JsStrings.Trim | src/utils/barcodeValidators.js:330 | the trimmed string is empty iff every character is JavaScript whitespace |
| JsStrings.DecimalValue | src/utils/barcodeValidators.js:249 | `parseInt` of an n-digit string is below 10^n |
| JsStrings.DecimalValueLeadingZeros | src/utils/barcodeValidators.js:249 | leading zeros do not change the parsed value |
| JsValues.Truthy | src/components/generator/BarcodePreview.jsx:107-116 | a value is falsy exactly when it is `undefined`, `null`, `false`, `0` or `""` |
| JsValues.Get | src/components/generator/BarcodePreview.jsx:107-116 | reading a present key gives its value and a missing one gives `undefined` |
| JsValues.Or | src/components/generator/BarcodePreview.jsx:108-116 | `a \|\| b` is `a` exactly when `a` is truthy, otherwise `b`; a truthy fallback makes the result truthy |
| JsValues.ToNumber | src/components/generator/QRCodePreview.jsx:21-38 | numeric coercion keeps numbers and sends `undefined` to NaN |
| JsValues.Times | src/components/generator/QRCodePreview.jsx:21-38 | a product is a number iff both operands are, and then it is their product; multiplying by 1 returns the other operand, and 0 times a number is 0 |
| JsValues.TimesCommutes | src/components/generator/QRCodePreview.jsx:21-38 | the operands of `*` may be swapped, NaN included |
| JsValues.Min | src/components/generator/QRCodePreview.jsx:22-23 | `Math.min` is a number iff both operands are, and is then one of them and no larger than either |
| JsValues.DividedBy | src/components/generator/QRCodePreview.jsx:28-38 | a quotient by a non-zero constant is a number iff the dividend is, and multiplies back to it |
| BarcodeValidators.ValidateUPCA | src/utils/barcodeValidators.js:10-20 | accepted iff the value holds exactly 12 ASCII digits, whatever else it holds (`DigitRulesIgnoreSeparators`); a rejection carries UPC-A's message and the example `123456789012`, which the rule accepts (`UpcAAcceptsExample`) |
| BarcodeValidators.ValidateUPCE | src/utils/barcodeValidators.js:25-35 | accepted iff the value holds 6 to 8 digits; a rejection carries UPC-E's message and the example `01234565` (`UpcEAcceptsExample`) |
| BarcodeValidators.ValidateEAN13 | src/utils/barcodeValidators.js:40-50 | accepted iff the value holds exactly 13 digits; a rejection carries EAN-13's message and the example `5901234123457` (`Ean13AcceptsExample`) |
| BarcodeValidators.ValidateEAN8 | src/utils/barcodeValidators.js:55-65 | accepted iff the value holds exactly 8 digits; a rejection carries EAN-8's message and the example `96385074` (`Ean8AcceptsExample`) |
| BarcodeValidators.ValidateEAN5 | src/utils/barcodeValidators.js:70-80 | accepted iff the value holds exactly 5 digits; a rejection carries EAN-5's message and the example `12345` (`Ean5AcceptsExample`) |
| BarcodeValidators.ValidateEAN2 | src/utils/barcodeValidators.js:85-95 | accepted iff the value holds exactly 2 digits; a rejection carries EAN-2's message and the example `12` (`Ean2AcceptsExample`) |
| BarcodeValidators.ValidateISBN | src/utils/barcodeValidators.js:100-110 | accepted iff the value holds 10 or 13 characters that are digits or upper-case `X` (`IsbnIgnoresOtherCharacters`); a rejection carries ISBN's message and its example (`IsbnAcceptsExample`) |
| BarcodeValidators.ValidateITF | src/utils/barcodeValidators.js:115-132 | an odd digit count gets the parity message, zero digits the minimum message, and the value is accepted iff it holds an even number of digits, at least 2 |
| BarcodeValidators.ValidateITF14 | src/utils/barcodeValidators.js:137-147 | accepted iff the value holds exactly 14 digits; a rejection carries ITF-14's message and the example `12345678901231` (`Itf14AcceptsExample`) |
| BarcodeValidators.ValidateCODE128 | src/utils/barcodeValidators.js:167-176 | accepted iff the value is non-empty; a rejection carries the message "Digite um valor para o código" and the example `Example 1234` |
| BarcodeValidators.ValidateCODE128B | src/utils/barcodeValidators.js:196-205 | accepted iff the value is non-empty; a rejection carries CODE128's message and the example `Example123` |
| BarcodeValidators.ValidateCODE128C | src/utils/barcodeValidators.js:210-220 | accepted iff the value holds a non-zero, even number of digits; a rejection carries CODE128C's message and the example `12345678` (`Code128CAcceptsExample`) |
| BarcodeValidators.ValidateMSI | src/utils/barcodeValidators.js:225-235 | accepted iff the value holds at least one digit, whatever else it holds; a rejection carries MSI's message and the example `1234567890` |
| BarcodeValidators.ValidatePharmacode | src/utils/barcodeValidators.js:240-258 | no digits or more than 6 gets the length message; every rejection suggests `1234` (the full verdict is `PharmacodeDecides`) |
| BarcodeValidators.ValidateCodabar | src/utils/barcodeValidators.js:263-273 | accepted iff the Codabar pattern matches (`MatchesCodabar`); a rejection carries Codabar's message and the example `A1234567890B` (`CodabarAcceptsExample`) |
| BarcodeValidators.ValidateGS1_128 | src/utils/barcodeValidators.js:278-287 | accepted iff the value has at least 2 characters of any kind; a rejection carries GS1-128's message and its example (`Gs1_128AcceptsExample`) |
| BarcodeValidators.Apply | src/utils/barcodeValidators.js:337-340 | every rejection a rule gives suggests that rule's one example (`RuleSuggestion`), which the rule accepts (`RuleAcceptsSuggestion`) |
| BarcodeValidators.ValidateCODE39 | src/utils/barcodeValidators.js:152-162 | accepted iff the value is non-empty and every character is an upper-case letter, digit, space or one of `-.$/+%` |
| BarcodeValidators.ValidateCODE128A | src/utils/barcodeValidators.js:181-191 | accepted iff the value is non-empty and every character is an upper-case letter, digit or space |
| BarcodeValidators.MatchesCodabar | src/utils/barcodeValidators.js:264 | the Codabar pattern matches iff the first and last characters are A-D in either case and one or more characters lie between, every one a digit or one of `-$:/.+` |
| BarcodeValidators.ValidateBarcodeValue | src/utils/barcodeValidators.js:329-345 | a missing or whitespace-only value is rejected with an empty suggestion for every format; otherwise a registered format applies its rule and an unknown format accepts |
| BarcodeValidators.UpcIsUpcA | src/utils/barcodeValidators.js:292-324 | the id `"UPC"` is registered with the UPC-A rule |
| BarcodeValidators.KnownFormatDelegates | src/utils/barcodeValidators.js:329-341 | for every non-blank value the dispatcher's verdict is the registered rule's |
| BarcodeValidators.Code128FamilyAcceptsNonBlank | src/utils/barcodeValidators.js:165-205 | under CODE128 and CODE128B a value is accepted iff it is not blank, so the only rejection is the dispatcher's empty-value one and the rules' own message is never returned |
| JsStrings.DigitsExcludeBlank | src/utils/barcodeValidators.js:330 | a value with a digit in it is never blank, so it passes the dispatcher's empty-value guard |
| BarcodeValidators.DigitCountFormatAccepts | src/utils/barcodeValidators.js:292-345 | through the dispatcher, a counting format accepts any value whose digit count its rule admits |
| BarcodeValidators.DigitFormatAccepts | src/utils/barcodeValidators.js:292-345 | through the dispatcher, a counting format accepts a string of digits of an admitted length |
| BarcodeValidators.GetBarcodeExample | src/utils/barcodeValidators.js:350-386 | the example is never empty, and an unknown format gets `"123456789"` |
| BarcodeValidators.DigitCountDecides | src/utils/barcodeValidators.js:10-110 | each counting rule accepts iff the digit count is admitted: UPC-A 12, UPC-E 6-8, EAN-13 13, EAN-8 8, EAN-5 5, EAN-2 2, ITF-14 14, ITF even and at least 2, CODE128C even and non-zero, MSI at least 1 |
| BarcodeValidators.DigitStringVerdict | src/utils/barcodeValidators.js:10-235 | on a string of digits a counting rule's verdict depends on the length alone |
| BarcodeValidators.DigitStringAccepted | src/utils/barcodeValidators.js:10-235 | a string of digits of an admitted length is accepted by its counting rule |
| BarcodeValidators.DigitRulesIgnoreSeparators | src/utils/barcodeValidators.js:10-235 | inserting non-digit characters never changes a digit-reading rule's verdict |
| BarcodeValidators.IsbnIgnoresOtherCharacters | src/utils/barcodeValidators.js:100-110 | inserting characters other than digits and `X` never changes the ISBN verdict |
| BarcodeValidators.IsbnCountDecides | src/utils/barcodeValidators.js:100-110 | ISBN accepts iff the count of digits and `X` is 10 or 13 |
| BarcodeValidators.SeparatedDigitCount | src/utils/barcodeValidators.js:11 | two digit runs joined by a non-digit separator keep all their digits |
| BarcodeValidators.Ean13IgnoresHyphen | src/utils/barcodeValidators.js:40-50 | `"590-1234123457"` is accepted as EAN-13 |
| BarcodeValidators.Ean13RejectsTwelveDigits | src/utils/barcodeValidators.js:40-50 | twelve digits are rejected as EAN-13 |
| BarcodeValidators.ItfVerdicts | src/utils/barcodeValidators.js:115-132 | an odd digit count gets the parity message, zero digits the minimum message, and ITF accepts iff the count is even and at least 2 |
| BarcodeValidators.ItfRejectsNoDigits | src/utils/barcodeValidators.js:124-130 | `"abc"` gets the minimum-length message |
| BarcodeValidators.ItfRejectsOddCount | src/utils/barcodeValidators.js:117-123 | `"123"` gets the parity message |
| BarcodeValidators.PharmacodeDecides | src/utils/barcodeValidators.js:240-258 | Pharmacode accepts iff there are 1 to 6 digits and their decimal value is 3 to 131070; no digits or more than 6 get the length message, and an in-length value out of range gets the range message |
| BarcodeValidators.PharmacodeOnDigits | src/utils/barcodeValidators.js:240-258 | on 1 to 6 digits the verdict is decided by the range alone |
| BarcodeValidators.PharmacodeLeadingZeros | src/utils/barcodeValidators.js:249-256 | `"000002"` passes the length check and fails the range check |
| BarcodeValidators.PharmacodeTooLong | src/utils/barcodeValidators.js:242-248 | seven digits get the length message |
| BarcodeValidators.Code39RejectsLowerCase | src/utils/barcodeValidators.js:152-162 | any lower-case letter makes CODE39 and the CODE93 entry that shares its rule reject |
| BarcodeValidators.CodabarLowerCaseGuards | src/utils/barcodeValidators.js:264 | the case-insensitive flag accepts lower-case guard letters |
| BarcodeValidators.CodabarNeedsGuards | src/utils/barcodeValidators.js:263-273 | digits without guard letters are rejected |
| BarcodeValidators.Gs1LengthDecides | src/utils/barcodeValidators.js:278-287 | GS1-128 accepts iff the value has at least two characters |
| BarcodeValidators.RuleAcceptsSuggestion | src/utils/barcodeValidators.js:10-287 | every rule accepts the example it suggests |
| BarcodeValidators.UpcAAcceptsExample | src/utils/barcodeValidators.js:10-20 | UPC-A accepts its suggestion |
| BarcodeValidators.UpcEAcceptsExample | src/utils/barcodeValidators.js:25-35 | UPC-E accepts its suggestion |
| BarcodeValidators.Ean13AcceptsExample | src/utils/barcodeValidators.js:40-50 | EAN-13 accepts its suggestion |
| BarcodeValidators.Ean8AcceptsExample | src/utils/barcodeValidators.js:55-65 | EAN-8 accepts its suggestion |
| BarcodeValidators.Ean5AcceptsExample | src/utils/barcodeValidators.js:70-80 | EAN-5 accepts its suggestion |
| BarcodeValidators.Ean2AcceptsExample | src/utils/barcodeValidators.js:85-95 | EAN-2 accepts its suggestion |
| BarcodeValidators.IsbnAcceptsExample | src/utils/barcodeValidators.js:100-110 | ISBN accepts its suggestion |
| BarcodeValidators.ItfAcceptsExample | src/utils/barcodeValidators.js:115-132 | ITF accepts its suggestion |
| BarcodeValidators.Itf14AcceptsExample | src/utils/barcodeValidators.js:137-147 | ITF-14 accepts its suggestion |
| BarcodeValidators.Code39AcceptsExample | src/utils/barcodeValidators.js:152-162 | CODE39 accepts its suggestion |
| BarcodeValidators.Code128AcceptsExample | src/utils/barcodeValidators.js:167-176 | CODE128 accepts its suggestion |
| BarcodeValidators.Code128AAcceptsExample | src/utils/barcodeValidators.js:181-191 | CODE128A accepts its suggestion |
| BarcodeValidators.Code128BAcceptsExample | src/utils/barcodeValidators.js:196-205 | CODE128B accepts its suggestion |
| BarcodeValidators.Code128CAcceptsExample | src/utils/barcodeValidators.js:210-220 | CODE128C accepts its suggestion |
| BarcodeValidators.MsiAcceptsExample | src/utils/barcodeValidators.js:225-235 | MSI accepts its suggestion |
| BarcodeValidators.PharmacodeAcceptsExample | src/utils/barcodeValidators.js:240-258 | Pharmacode accepts its suggestion |
| BarcodeValidators.CodabarAcceptsExample | src/utils/barcodeValidators.js:263-273 | Codabar accepts its suggestion |
| BarcodeValidators.Gs1_128AcceptsExample | src/utils/barcodeValidators.js:278-287 | GS1-128 accepts its suggestion |
| BarcodeValidators.ExampleTableMatchesValidators | src/utils/barcodeValidators.js:292-386 | the example table (`ExampleTable`) and the validator table (`BarcodeValidatorTable`) have the same keys, and each key's example is its rule's suggestion |
| BarcodeValidators.ExampleValidates | src/utils/barcodeValidators.js:329-386 | the example for any format id, known or not, passes the dispatcher |
| BarcodeValidators.SuggestionIsExample | src/utils/barcodeValidators.js:329-386 | a known format's rejection of a non-blank value suggests that format's example, which validates |
| BarcodeTypes.FormatNamed | src/constants/barcodeTypes.js:8-43 | a string resolved to a format name is that name's value |
| BarcodeTypes.FormatNamedInverts | src/constants/barcodeTypes.js:8-43 | resolving a name's value gives back the name, up to the two shared values |
| BarcodeTypes.FormatsAreValidated | src/utils/barcodeValidators.js:292-324 | every id `BARCODE_FORMATS` declares has a registered validator |
| BarcodeTypes.FormatValueCollisions | src/constants/barcodeTypes.js:31-35 | two names share a value iff they are equal, or are UPC-A and UPC-E, or are EAN-13 and ISBN |
| BarcodeTypes.CategoryLayout | src/constants/barcodeTypes.js:48-97 | five categories in a fixed order, with 6, 3, 5, 2 and 7 options |
| BarcodeTypes.SharedOptionValues | src/constants/barcodeTypes.js:48-97 | both UPC options carry the value `"UPC"`, and the EAN-13 and ISBN options both carry `"EAN13"` |
| BarcodeTypes.OptionsAreFormats | src/constants/barcodeTypes.js:48-97 | every option's value is a declared format value |
| BarcodeTypes.EveryFormatListed | src/constants/barcodeTypes.js:8-97 | every declared format is offered by some category |
| BarcodeTypes.OptionCategory | src/constants/barcodeTypes.js:48-97 | every option sits in the category its format belongs to |
| BarcodeTypes.CategoriesDisjoint | src/constants/barcodeTypes.js:48-97 | no value is offered by two categories |
| BarcodeTypes.OptionsAreValidated | src/constants/barcodeTypes.js:48-97 | every option has a registered validator |
| BarcodeTypes.OptionsHaveExamples | src/constants/barcodeTypes.js:48-139 | every option has an example |
| BarcodeTypes.EveryFormatHasExample | src/constants/barcodeTypes.js:115-139 | every declared format value has an example |
| BarcodeTypes.ExamplesNonEmpty | src/constants/barcodeTypes.js:115-139 | no stored example is the empty string |
| BarcodeTypes.ExampleKeys | src/constants/barcodeTypes.js:115-139 | the example keys are exactly the declared format values |
| BarcodeTypes.DuplicateKeysKeepLastEntry | src/constants/barcodeTypes.js:125-131 | the `"UPC"` key holds UPC-E's example and the `"EAN13"` key holds ISBN's |
| BarcodeTypes.UpcExampleIsRejected | src/constants/barcodeTypes.js:113-131 | the example stored under `"UPC"` is rejected by the UPC-A rule registered under that key, with UPC-A's message |
| BarcodeTypes.UpcOnDigits | src/utils/barcodeValidators.js:10-20 | a string of digits is accepted under `"UPC"` iff it has 12 digits |
| BarcodeTypes.ExamplesValidate | src/constants/barcodeTypes.js:113-139 | every stored example passes its key's validator except the one under `"UPC"` |
| BarcodeTypes.Ean13AcceptsIsbnExample | src/constants/barcodeTypes.js:129 | ISBN's example, stored under `"EAN13"`, passes EAN-13 |
| BarcodeTypes.ExamplesMatchProvider | src/constants/barcodeTypes.js:115-139 | apart from the two shared keys, each stored example equals the validators' own example for that format |
| App.UpdatedConfig | src/App.jsx:54-56 | the updated field holds the new value, every other field is unchanged, and the key set gains the field |
| App.AppState.constructor | src/App.jsx:17-42 | the state starts with the initial configuration |
| App.AppState.UpdateConfig | src/App.jsx:54-56 | the configuration becomes the old one with the field set |
| App.AppState.LoadConfigFromHistory | src/App.jsx:59-61 | the configuration is replaced by the snapshot, with no merge |
| App.ShouldScheduleHistorySave | src/App.jsx:65 | a save is scheduled iff `text` is a non-empty string |
| App.HandleCopyText | src/App.jsx:94-101 | the empty-text message is shown iff `text` is falsy; otherwise `text` goes to the clipboard with the copied message |
| App.InitialConfigFields | src/App.jsx:17-42 | the initial record has exactly the seventeen fields, QR kind, empty text, size 280, level H, format CODE128 |
| App.InitialConfigSchedulesNothing | src/App.jsx:22-101 | the initial configuration schedules no save and copying it reports empty text |
| App.InitialConfigMatchesBarcodeDefaults | src/App.jsx:23-41 | the initial barcode fields and colours agree with the registry's barcode defaults |
| App.UpdatesCompose | src/App.jsx:54-56 | after two updates a field holds the last value written to it |
| App.UpdatesCommute | src/App.jsx:54-56 | updates of two different fields commute |
| App.UpdateWithCurrentValue | src/App.jsx:54-56 | writing a present field's current value changes nothing |
| App.CopyAgreesWithHistoryGuard | src/App.jsx:65-101 | for string text, copying finds nothing to copy iff no history save is scheduled |
| Controls.ExampleFor | src/components/generator/Controls.jsx:65-66 | the example lookup is truthy exactly for the ids that have an example, since no stored example is empty, and is then that example |
| Controls.FormatChanged | src/components/generator/Controls.jsx:63-68 | the format is set, the text becomes the format's example when it has a truthy one, nothing else changes |
| Controls.BarcodeSelected | src/components/generator/Controls.jsx:89-98 | the kind becomes barcode, a falsy format becomes CODE128, a falsy or placeholder text becomes CODE128's example, nothing else changes |
| Controls.QrSelected | src/components/generator/Controls.jsx:80-82 | only the kind changes, to QR |
| Controls.TemplateApplied | src/components/generator/Controls.jsx:122-127 | the template's colours and styles are set and nothing else changes |
| Controls.HandleFormatChange | src/components/generator/Controls.jsx:63-68 | the ordered updates leave the configuration described by `FormatChanged` |
| Controls.OnBarcodeButton | src/components/generator/Controls.jsx:89-98 | the updates, with conditions read from the clicked configuration, leave the one described by `BarcodeSelected` |
| Controls.OnQrButton | src/components/generator/Controls.jsx:80-82 | the update leaves the configuration described by `QrSelected` |
| Controls.OnTemplateClick | src/components/generator/Controls.jsx:122-127 | the four updates leave the configuration described by `TemplateApplied` |
| Controls.FindOption | src/components/generator/Controls.jsx:197 | a found option has the value sought and is the first option with it; none is found iff no option has that value |
| Controls.SelectValue | src/components/generator/Controls.jsx:196-200 | a select shows the current format iff its category offers it, and `""` otherwise |
| Controls.AtMostOneSelectShows | src/components/generator/Controls.jsx:192-200 | at most one category select shows a format |
| Controls.ChoosingNoFormatKeepsText | src/components/generator/Controls.jsx:63-68 | choosing the empty option clears the format and keeps the text |
| Controls.ChosenExampleValidates | src/components/generator/Controls.jsx:63-68 | choosing an option fills in its example, which validates for every option except `"UPC"` |
| Controls.ExampleChangeValidates | src/components/generator/Controls.jsx:63-68 | a format change to any id with an example fills that example in, and it validates unless the id is `"UPC"` |
| Controls.BarcodeButtonReplacesPlaceholder | src/components/generator/Controls.jsx:95-96 | the barcode button replaces the text exactly when the QR preview would show its placeholder |
| Controls.DefaultExample | src/components/generator/Controls.jsx:96 | the barcode button's example is CODE128's |
| Controls.BarcodeButtonIgnoresFormat | src/components/generator/Controls.jsx:89-98 | with UPC selected and empty text, the button keeps UPC and fills in CODE128's example, which UPC rejects |
| Controls.Code128ExampleFailsUpc | src/utils/barcodeValidators.js:10-20 | CODE128's example is rejected under `"UPC"` |
| Controls.QrButtonKeepsBarcodeFields | src/components/generator/Controls.jsx:80-82 | switching to QR keeps every barcode field and the text |
| Controls.TemplatesDistinct | src/components/generator/Controls.jsx:28-57 | the four templates have distinct names, which key their buttons, and each has a foreground different from its background |
| Controls.TemplateIdempotent | src/components/generator/Controls.jsx:122-127 | applying a template twice equals applying it once |
| HistoryPanel.Preview | src/components/generator/HistoryPanel.jsx:39-40 | a text of at most 50 characters is its own preview; a preview is at most 53 characters, starts with the text's first 50, ends in `...` when the text is longer, and is at most 50 iff the text is |
| HistoryPanel.NewItem | src/components/generator/HistoryPanel.jsx:35-41 | an entry is built iff `text` is a string, with the given id and timestamp, the configuration as a copy and the preview of the text |
| HistoryPanel.Prepended | src/components/generator/HistoryPanel.jsx:43 | the new entry is first, the length is min(old + 1, 20), and the rest is a prefix of the old list |
| HistoryPanel.Saved | src/components/generator/HistoryPanel.jsx:33-49 | a save prepends the new entry, or leaves the list when building it throws |
| HistoryPanel.Without | src/components/generator/HistoryPanel.jsx:52 | an entry survives a delete iff it was in the list and has a different id |
| HistoryPanel.HistoryPanelState.constructor | src/components/generator/HistoryPanel.jsx:13-14 | the list starts empty and the drawer closed |
| HistoryPanel.HistoryPanelState.SaveToHistory | src/components/generator/HistoryPanel.jsx:84-101 | the list becomes `Saved` of the old one, the drawer is unchanged, and the 20-entry bound is kept |
| HistoryPanel.HistoryPanelState.DeleteItem | src/components/generator/HistoryPanel.jsx:51-56 | the list becomes `Without` of the old one and the bound is kept |
| HistoryPanel.HistoryPanelState.ClearHistory | src/components/generator/HistoryPanel.jsx:58-64 | a confirmed clear empties the list; a refused one leaves it |
| HistoryPanel.HistoryPanelState.LoadItem | src/components/generator/HistoryPanel.jsx:66-70 | the application's configuration becomes the entry's snapshot unchanged, the drawer closes, the list stays |
| HistoryPanel.ScheduledSaveSucceeds | src/App.jsx:65 | every save the application schedules builds an entry |
| HistoryPanel.SaveDropsOldest | src/components/generator/HistoryPanel.jsx:43 | on a full list a save drops exactly the oldest entry |
| HistoryPanel.WithoutConcat | src/components/generator/HistoryPanel.jsx:52 | deleting distributes over concatenation, so the kept entries keep their order |
| HistoryPanel.WithoutAbsentId | src/components/generator/HistoryPanel.jsx:52 | deleting an id no entry carries changes nothing |
| HistoryPanel.WithoutIdempotent | src/components/generator/HistoryPanel.jsx:52 | deleting twice equals deleting once |
| HistoryPanel.DeleteUndoesSave | src/components/generator/HistoryPanel.jsx:43-52 | below the limit, deleting a freshly saved entry by its new id restores the list |
| HistoryPanel.LongPreview | src/components/generator/HistoryPanel.jsx:39-40 | a longer text's preview is its first 50 characters and `...`, 53 in all |
| BarcodePreview.RenderProps | src/components/generator/BarcodePreview.jsx:107-116 | each prop keeps a truthy configuration value and otherwise takes its default; the format passes through; the text is shown unless the display value is exactly `false` |
| BarcodePreview.BarcodePreviewState.constructor | src/components/generator/BarcodePreview.jsx:8 | no error at first |
| BarcodePreview.BarcodePreviewState.OnRendererReport | src/components/generator/BarcodePreview.jsx:117-123 | an invalid report sets the message, a valid one changes nothing |
| BarcodePreview.BarcodePreviewState.OnConfigChange | src/components/generator/BarcodePreview.jsx:86-88 | the error is cleared iff the text or the format changed |
| BarcodePreview.BarcodePreviewState.ActionsDisabled | src/components/generator/BarcodePreview.jsx:136-144 | the copy and download buttons are disabled iff an error is set |
| BarcodePreview.BarcodePreviewState.Shown | src/components/generator/BarcodePreview.jsx:101-125 | the card shows the message iff the actions are disabled, and otherwise the renderer with the props |
| BarcodePreview.EmptyConfigUsesDefaults | src/components/generator/BarcodePreview.jsx:107-116 | with nothing set: value `123456789`, width 2, height 100, text shown, font 20, margin 10, white background, black lines |
| BarcodePreview.StoredDefaultsRenderAsMissing | src/constants/barcodeTypes.js:102-110 | every barcode default is truthy, so a field holding its default renders exactly as a missing field |
| BarcodePreview.PropsAreTruthy | src/components/generator/BarcodePreview.jsx:107-116 | every defaulted prop is truthy |
| BarcodePreview.ZeroTakesDefault | src/components/generator/BarcodePreview.jsx:110-116 | a stored 0 renders as the default |
| BarcodePreview.DisplayValueOnlyFalseHides | src/components/generator/BarcodePreview.jsx:112 | a missing or falsy non-boolean display value still shows the text |
| BarcodePreview.InitialConfigRendersDefaults | src/components/generator/BarcodePreview.jsx:107-116 | the initial configuration renders the placeholder with the registry's defaults |
| QRCodePreview.EyeRadius | src/components/generator/QRCodePreview.jsx:12 | the radius is [10,10,10] iff the eye style is `"circle"`, and [0,0,0] otherwise |
| QRCodePreview.LogoShare | src/components/generator/QRCodePreview.jsx:28-38 | a falsy logo size counts as 25 percent |
| QRCodePreview.CalculateLogoSize | src/components/generator/QRCodePreview.jsx:15-41 | width equals height; no logo gives 0x0; `original` gives the smaller of 0.4 of the size and the size; every other mode gives the size times the logo share |
| QRCodePreview.QrValue | src/components/generator/QRCodePreview.jsx:94 | a truthy `text` is encoded as itself and a falsy one as `"https://seusite.com"`; so the value is always truthy, and is the placeholder iff the text is falsy or is the placeholder |
| QRCodePreview.OriginalLogoFits | src/components/generator/QRCodePreview.jsx:19-24 | in `original` mode the logo is 0.4 of a non-negative size, hence no larger |
| QRCodePreview.PercentageLogoSize | src/components/generator/QRCodePreview.jsx:25-39 | in the other modes a non-zero percentage p gives size times p over 100 |
| QRCodePreview.ZeroLogoSizeActsAsDefault | src/components/generator/QRCodePreview.jsx:28-38 | a logo size of 0, or none, gives the same size as 25 |
| QRCodePreview.NoLogoNoSize | src/components/generator/QRCodePreview.jsx:16 | without a logo the size is 0x0 whatever the mode |

## Left out

- The history save's two-second debounce timer and the `window.addToHistory` global. Only the non-empty-text guard is modelled (`App.ShouldScheduleHistorySave`).
- `localStorage` reads and writes and the JSON round trip of the history. Loading the history at mount is not modelled either, so the 20-entry bound is stated as an invariant that saves and deletes keep.
- `window.confirm`, `Date.now()` and ISO timestamps. The dialog's answer, the ids and the timestamps are inputs.
- Date formatting through `Intl.DateTimeFormat`.
- Toast messages in the history panel.
- The clipboard, download, canvas and SVG conversion, image fetching, the logo upload and the social share links.
- The `react-barcode` and `react-qrcode-logo` renderers. The renderer's `valid` report is an input.
- The values of `GENERATOR_TYPES`. `src/constants/generatorTypes.js` is not part of this model, so the two kinds are distinct tags.
- React's rendering: the model equates the configuration a handler reads with the one the click saw, and treats each `updateConfig` as applied in order.
- Property lookups that reach the object prototype (keys such as `toString`) are not modelled. A plain map has none.
- JsValues.ToNumber: non-empty strings are taken as non-numeric, so numeric strings are not coerced.
- Number and string width: JavaScript numbers are modelled as reals with NaN as `None`, with no IEEE rounding. Strings are sequences of characters rather than UTF-16 code units, so lengths and the 50-character cut count characters.
- QRCodePreview.PercentageLogoSize: stated for a numeric logo size only. Other truthy values go through `ToNumber`, which `CalculateLogoSize`'s contract covers.
- The `useHistory`, `useExport`, `useLocalStorage` and `useClipboard` hooks, the header, the loading spinner, the context providers of the refactored application and the re-export files lie outside the modelled core. They wrap services that are not part of this model, or only present data.
