# LWC panels: FX rate, company suggest, postal-code autofill

A Dafny model of three Lightning Web Component controllers and the rules
beside them:

- **FX rate panel** (`FxRate`): base and quote currency (USD and JPY by
  default), an amount box, the last rate result, a loading flag and the time
  of the last fetch attempt. A fetch is ignored within 300 ms of the previous
  attempt; past that gate the attempt time is recorded, the inputs are
  validated (both currencies chosen, different, amount positive when given),
  and only valid input reaches the rate service. Clearing restores USD/JPY
  and drops the result.
- **Company suggest panel** (`CompanySuggest`): every keystroke cancels the
  pending search; fewer than two UTF-16 code units left once whitespace is
  removed (JavaScript's `.length`) clear the list,
  anything else schedules one search. The search asks the service for at
  most ten companies, labels each with " • status" when it has a status and
  preselects the first; a failure clears the list with an error toast. A
  click on a candidate emits `companyselect` with that candidate.
- **Postal-code autofill** (`ZipcodeAutoFill`): the postal code is reduced to
  its ASCII digits; when the debounce timer fires with exactly seven digits
  the code (as typed) is looked up, otherwise the picker is emptied. Matches
  become index-keyed picker entries; the first fills prefecture, city and
  town (never street) and is preselected when there is a choice. Every
  address change emits `addresschange` with the sanitised code and the four
  parts concatenated.

Shared pieces: `Common` (optional values, remote responses, the
`errorMessage` rule, toasts) and `Text` (character filtering, JavaScript's
`\s` and `trim`, and the decimal text of indices with its round trip).

How the platform appears in the model:

- Each controller is a class whose fields are the component's fields.
  A `Valid()` invariant says what every handler preserves:
  - FX: no request ever reached the rate service with invalid input.
  - Company: a scheduled search always has a query that passed the gate,
    and every service call was for a searchable query with the fixed limit.
  - Postal: every looked-up code had seven digits, the picker is keyed by
    index, and every `addresschange` is well formed.
- Toasts and custom events are appended to an `events` log.
- Calls to the remote services are appended to a request log
  (`requests`, `searches`, `lookups`). "No remote call" can therefore be
  stated as "the log is unchanged".
- Each remote outcome is a parameter of type `Success(payload) | Failure(err)`.
- `Date.now()` is the `now` parameter of `HandleFetch`.
- A `setTimeout` handle is a single pending flag. `FireTimer` runs the
  scheduled callback if one is pending.
- `Number(...)` parsing and `Intl.NumberFormat` are functions given to the
  FX panel's constructor and left uninterpreted.

The getters `hasResult`, `amountValue`, `hasAmount`, `postalSanitized` and
`hasOptions` are the functions `HasResult`, `AmountValue`, `HasAmount`,
`PostalSanitized` and `HasOptions`. They are read by the contracts listed
below.

Two places where the code does less than its comments suggest; the model
follows the code:

- The comment at companySuggestPanel.js:51 promises dummy results for
  "test" or "mock:…". The branch at lines 57-58 reads `seed` before its
  `const` declaration, so it throws before touching the candidates, and
  such a query changes nothing.
- Line 79 tests the status for truthiness, so an empty status gets no label,
  just like a null one.

## Model

| member | source | states |
|---|---|---|
| `Common.ErrorMessage` | force-app/main/default/lwc/fxRatePanel/fxRatePanel.js:171-176 | a non-empty `body.message` wins, then a non-empty `message`, then the generic text; the result is one of these and never empty (the same rule is repeated in companySuggestPanel.js:113-118 and zipcodeAutoFill.js:110-114) |
| `Text.Filter` | force-app/main/default/lwc/zipcodeAutoFill/zipcodeAutoFill.js:39-41 | removing a character class leaves only kept characters and never lengthens the string |
| `Text.FilterConcat` | force-app/main/default/lwc/zipcodeAutoFill/zipcodeAutoFill.js:39-41 | filtering distributes over concatenation, so kept characters stay in their original order |
| `Text.FilterIdempotent` | force-app/main/default/lwc/zipcodeAutoFill/zipcodeAutoFill.js:39-41 | sanitising a sanitised string changes nothing |
| `Text.FilterMembers` | force-app/main/default/lwc/zipcodeAutoFill/zipcodeAutoFill.js:39-41 | a character survives iff it occurs in the input and is of the kept class |
| `Text.Utf16Length` | force-app/main/default/lwc/companySuggestPanel/companySuggestPanel.js:24 | JavaScript's `.length`: at least one code unit per character and at most two |
| `Text.RemoveWhitespace` | force-app/main/default/lwc/companySuggestPanel/companySuggestPanel.js:24 | `replace(/\s+/g, '')` leaves no whitespace and never adds code units |
| `Text.Trim` | force-app/main/default/lwc/companySuggestPanel/companySuggestPanel.js:43 | `trim` never lengthens the string, and what it returns neither starts nor ends with whitespace |
| `Text.TrimMiddle` | force-app/main/default/lwc/companySuggestPanel/companySuggestPanel.js:43 | `trim` removes only the ends: its result is the contiguous slice of the string after the leading whitespace, and everything before and after that slice is whitespace |
| `Text.TrimKeepsVisible` | force-app/main/default/lwc/companySuggestPanel/companySuggestPanel.js:24-43 | trimming keeps every non-whitespace character: stripping all whitespace before or after trimming gives the same string |
| `Text.VisibleAtMostTrimmed` | force-app/main/default/lwc/companySuggestPanel/companySuggestPanel.js:24-43 | the whitespace-stripped length in code units never exceeds the trimmed length in code units |
| `Text.NatToString` | force-app/main/default/lwc/zipcodeAutoFill/zipcodeAutoFill.js:68 | `String(i)` of an index is a non-empty run of decimal digits, with a leading zero only for 0 |
| `Text.ParseIndex` | force-app/main/default/lwc/companySuggestPanel/companySuggestPanel.js:100 | `Number` of an index text gives a number exactly when the text is a non-empty run of decimal digits |
| `Text.ParseIndexOfNatToString` | force-app/main/default/lwc/companySuggestPanel/companySuggestPanel.js:100 | `Number` read back from `String(i)` gives `i` |
| `Text.NatToStringInjective` | force-app/main/default/lwc/zipcodeAutoFill/zipcodeAutoFill.js:66-70 | different indices give different keys |
| `FxRate.ValidateInputs` | force-app/main/default/lwc/fxRatePanel/fxRatePanel.js:136-148 | ok iff both currencies are chosen, they differ, and the amount is absent or positive; a missing currency, equal currencies and a non-positive amount each give their own message, in that precedence |
| `FxRate.FxRatePanel.FormatNumber` | force-app/main/default/lwc/fxRatePanel/fxRatePanel.js:150-158 | a missing value prints as ""; a number is formatted with the fraction digits that `fractionDigitsFor` gives its currency |
| `FxRate.FractionDigitsFor` | force-app/main/default/lwc/fxRatePanel/fxRatePanel.js:160-165 | JPY gets 0 to 2 fraction digits, every other code 2 to 4; min never exceeds max |
| `FxRate.FxRatePanel.HasResult` | force-app/main/default/lwc/fxRatePanel/fxRatePanel.js:50-52 | there is a result exactly when a rate is stored; a null rate is none |
| `FxRate.FxRatePanel.AmountValue` | force-app/main/default/lwc/fxRatePanel/fxRatePanel.js:54-60 | an empty box gives no amount; otherwise the amount is whatever `Number` makes of the text, none for NaN |
| `FxRate.FxRatePanel.HasAmount` | force-app/main/default/lwc/fxRatePanel/fxRatePanel.js:62-64 | there is an amount exactly when `amountValue` is not null, and then the box is not empty and holds a number |
| `FxRate.FxRatePanel.RateDisplay` | force-app/main/default/lwc/fxRatePanel/fxRatePanel.js:70-74 | empty iff there is no rate; otherwise "1 BASE = rate QUOTE" with the quote currency's digits |
| `FxRate.FxRatePanel.ConvertedDisplay` | force-app/main/default/lwc/fxRatePanel/fxRatePanel.js:76-81 | empty iff there is no rate or no amount; otherwise "amount BASE = converted QUOTE" |
| `FxRate.FxRatePanel.constructor` | force-app/main/default/lwc/fxRatePanel/fxRatePanel.js:33-44 | starts at USD/JPY, empty amount, no result, not loading, last fetch at 0, invariant established |
| `FxRate.FxRatePanel.HandleBaseChange` | force-app/main/default/lwc/fxRatePanel/fxRatePanel.js:83-85 | stores the chosen base currency and nothing else |
| `FxRate.FxRatePanel.HandleQuoteChange` | force-app/main/default/lwc/fxRatePanel/fxRatePanel.js:87-89 | stores the chosen quote currency and nothing else |
| `FxRate.FxRatePanel.HandleAmountChange` | force-app/main/default/lwc/fxRatePanel/fxRatePanel.js:91-93 | stores the typed amount text and nothing else |
| `FxRate.FxRatePanel.HandleClear` | force-app/main/default/lwc/fxRatePanel/fxRatePanel.js:95-102 | USD/JPY, empty amount, no result (both displays empty); last fetch time, loading flag, events and requests untouched |
| `FxRate.FxRatePanel.HandleFetch` | force-app/main/default/lwc/fxRatePanel/fxRatePanel.js:104-134 | within 300 ms of the last attempt every field is unchanged; otherwise the attempt time is recorded before validation; invalid input gives one error toast, no call and an unchanged result; valid input makes exactly one call with the current currencies and amount, stores the response on success, keeps the old result and adds one error toast on failure, and ends not loading; keeps the invariant that only valid input reaches the service |
| `FxRate.RapidSecondFetchIsDropped` | force-app/main/default/lwc/fxRatePanel/fxRatePanel.js:106-110 | on a new panel, two fetches less than 300 ms apart reach the rate service at most once |
| `CompanySuggest.StatusLabel` | force-app/main/default/lwc/companySuggestPanel/companySuggestPanel.js:79 | the label is non-empty iff the status is set and non-empty, and is then " • " followed by the status |
| `CompanySuggest.WithStatusLabels` | force-app/main/default/lwc/companySuggestPanel/companySuggestPanel.js:78-81 | one candidate per record, in order, each keeping its record unchanged and carrying that record's status label |
| `CompanySuggest.MockKeywords` | force-app/main/default/lwc/companySuggestPanel/companySuggestPanel.js:52-55 | only a trimmed query of four or more characters takes the mock branch; "test", "TEST" and anything starting with "mock:" or "MOCK:" take it |
| `CompanySuggest.PassesGuard` | force-app/main/default/lwc/companySuggestPanel/companySuggestPanel.js:43 | a query that passes the guard is non-empty and, once trimmed, non-empty and starting with a non-whitespace character |
| `CompanySuggest.GateImpliesGuard` | force-app/main/default/lwc/companySuggestPanel/companySuggestPanel.js:24-46 | a query with at least two UTF-16 code units left once whitespace is removed is non-empty and at least two code units long once trimmed, so the guard of `doSearch` never rejects it |
| `CompanySuggest.Selected` | force-app/main/default/lwc/companySuggestPanel/companySuggestPanel.js:97-101 | a candidate is named exactly when the index text is present, non-empty, a run of digits and a listed position, and it is then the candidate at that position; a missing, empty, non-numeric or out-of-range index names nothing |
| `CompanySuggest.SelectedByIndexText` | force-app/main/default/lwc/companySuggestPanel/companySuggestPanel.js:98-100 | the index text `String(i)` of a listed position names exactly `candidates[i]` |
| `CompanySuggest.CompanySuggestPanel.constructor` | force-app/main/default/lwc/companySuggestPanel/companySuggestPanel.js:9-14 | empty query and list, nothing pending, loading or selected |
| `CompanySuggest.CompanySuggestPanel.HandleInput` | force-app/main/default/lwc/companySuggestPanel/companySuggestPanel.js:16-36 | stores the input (missing becomes ""), cancels the pending search; fewer than two UTF-16 code units left once whitespace is removed empty the list and leave nothing pending, otherwise exactly one search is pending; no service call |
| `CompanySuggest.CompanySuggestPanel.FireTimer` | force-app/main/default/lwc/companySuggestPanel/companySuggestPanel.js:35-46 | with nothing pending nothing changes; a pending search always passes the guard; a mock query changes nothing but the pending flag; any other query makes exactly one service call for the stored query, and then success lists one labelled candidate per record and selects 0 iff there is one, with no toast, while failure empties the list and adds one error toast; afterwards nothing is pending or loading |
| `CompanySuggest.CompanySuggestPanel.RunPending` | force-app/main/default/lwc/companySuggestPanel/companySuggestPanel.js:35 | the timer callback: the slot is cleared and `doSearch` runs with its outcomes (mock or guarded-out query: nothing else changes; otherwise one call, then the labelled records with 0 selected iff there is one, or an empty list and one error toast) |
| `CompanySuggest.CompanySuggestPanel.DoSearch` | force-app/main/default/lwc/companySuggestPanel/companySuggestPanel.js:38-95 | a query that fails the code-unit guard of `doSearch`, or a mock query, changes nothing; otherwise one call with limit 10 and no jurisdiction; success lists one labelled candidate per record (none for a null response), selects 0 iff non-empty and shows no toast; failure empties the list with one error toast; never left loading |
| `CompanySuggest.CompanySuggestPanel.CallService` | force-app/main/default/lwc/companySuggestPanel/companySuggestPanel.js:73-94 | for a searchable query: one call with limit 10 and no jurisdiction, then the outcomes of `Request`; the invariant on logged calls is kept |
| `CompanySuggest.CompanySuggestPanel.Request` | force-app/main/default/lwc/companySuggestPanel/companySuggestPanel.js:73-94 | the call is logged; success lists one labelled candidate per record and selects 0 iff there is one, with no toast; failure empties the list, keeps the selection and adds one error toast; ends not loading |
| `CompanySuggest.CompanySuggestPanel.HandleSelect` | force-app/main/default/lwc/companySuggestPanel/companySuggestPanel.js:97-106 | emits one `companyselect` carrying exactly the named candidate, or nothing when the index names none; no other state changes |
| `ZipcodeAutoFill.ToOptions` | force-app/main/default/lwc/zipcodeAutoFill/zipcodeAutoFill.js:66-70 | one entry per match; entry `i` has key `String(i)` and carries match `i` |
| `ZipcodeAutoFill.FindOption` | force-app/main/default/lwc/zipcodeAutoFill/zipcodeAutoFill.js:87 | a found entry is in the list with the key sought; no entry has the key when none is found |
| `ZipcodeAutoFill.FindIndexKey` | force-app/main/default/lwc/zipcodeAutoFill/zipcodeAutoFill.js:85-88 | in an index-keyed picker the key `String(i)` finds entry `i` |
| `ZipcodeAutoFill.ZipcodeAutoFill.constructor` | force-app/main/default/lwc/zipcodeAutoFill/zipcodeAutoFill.js:8-17 | empty postal code and address, no picker, nothing pending or selected |
| `ZipcodeAutoFill.ZipcodeAutoFill.PostalSanitized` | force-app/main/default/lwc/zipcodeAutoFill/zipcodeAutoFill.js:39-41 | the digits of the code: only digits, never longer than the code, as many code units as characters, and a code that is already all digits is kept as it is |
| `ZipcodeAutoFill.ZipcodeAutoFill.HasOptions` | force-app/main/default/lwc/zipcodeAutoFill/zipcodeAutoFill.js:19-21 | the picker is shown exactly when there are at least two entries |
| `ZipcodeAutoFill.ZipcodeAutoFill.Detail` | force-app/main/default/lwc/zipcodeAutoFill/zipcodeAutoFill.js:26-33 | the event detail carries a digits-only postal code and the full address prefecture + city + town + street |
| `ZipcodeAutoFill.ZipcodeAutoFill.NotifyChange` | force-app/main/default/lwc/zipcodeAutoFill/zipcodeAutoFill.js:24-37 | appends exactly one `addresschange` with the current sanitised code and address |
| `ZipcodeAutoFill.ZipcodeAutoFill.ApplyDto` | force-app/main/default/lwc/zipcodeAutoFill/zipcodeAutoFill.js:98-104 | prefecture, city and town come from the match (missing parts become ""); street and everything else are untouched; exactly one `addresschange` |
| `ZipcodeAutoFill.ZipcodeAutoFill.HandlePostalChange` | force-app/main/default/lwc/zipcodeAutoFill/zipcodeAutoFill.js:43-47 | stores the code and leaves exactly one check pending |
| `ZipcodeAutoFill.ZipcodeAutoFill.FireTimer` | force-app/main/default/lwc/zipcodeAutoFill/zipcodeAutoFill.js:47-54 | with nothing pending nothing changes; with any digit count but seven the picker and selection are cleared and nothing else changes; with seven digits the raw code is looked up once, and then no match gives one warning and failure one error toast, both leaving picker, selection and address untouched, while matches give the index-keyed picker, preselect "0" only when there are several, and apply the first with one `addresschange`; code and street never change; ends not loading |
| `ZipcodeAutoFill.ZipcodeAutoFill.Search` | force-app/main/default/lwc/zipcodeAutoFill/zipcodeAutoFill.js:57-83 | one lookup of the raw code; no match gives one warning and failure one error toast, both leaving picker, selection and address untouched; n matches give n index-keyed entries, the picker shows iff n > 1, "0" is preselected only when n > 1, the first match is applied with one `addresschange`; street never changes; never left loading |
| `ZipcodeAutoFill.ZipcodeAutoFill.Lookup` | force-app/main/default/lwc/zipcodeAutoFill/zipcodeAutoFill.js:58-82 | the awaited lookup: no match gives one warning and failure one error toast, both leaving picker, selection and address untouched; matches give the index-keyed picker, preselect "0" only when there are several, and apply the first with one `addresschange`; ends not loading |
| `ZipcodeAutoFill.ZipcodeAutoFill.DispatchToast` | force-app/main/default/lwc/zipcodeAutoFill/zipcodeAutoFill.js:106-108 | appends exactly one toast |
| `ZipcodeAutoFill.ZipcodeAutoFill.ShowMatches` | force-app/main/default/lwc/zipcodeAutoFill/zipcodeAutoFill.js:66-77 | lists every match as an index-keyed entry, preselects "0" only when there is more than one, applies the first |
| `ZipcodeAutoFill.ZipcodeAutoFill.HandleSelect` | force-app/main/default/lwc/zipcodeAutoFill/zipcodeAutoFill.js:85-89 | always stores the key; applies the match with that key if there is one, otherwise changes nothing else |
| `ZipcodeAutoFill.ZipcodeAutoFill.HandleManualEdit` | force-app/main/default/lwc/zipcodeAutoFill/zipcodeAutoFill.js:91-96 | only the named field changes (missing value becomes ""), then exactly one `addresschange` |

## Left out

- activityHeatMap.js is not part of this model. It loads assets, drives a third-party chart global, and builds data from `Date` and `Math.random`.
- The component test file only checks that an input renders in the DOM.
- Quiet periods (350 ms and 400 ms) and real time are not modelled. A timer is a pending flag that `FireTimer` fires. `Date.now()` is a parameter.
- Overlapping remote calls are not modelled. Each awaited call completes inside its handler, so a stale response cannot overwrite a newer one, and the transient `loading = true` is never observed between handlers.
- The Apex services (`getLatestRate`, `searchCompanies`, `lookup`) are outcomes supplied by the caller.
- `Number(amountInput)` parsing and `Intl.NumberFormat` formatting are uninterpreted functions. They are given to the FX panel's constructor.
- FxRate.FxRatePanel.HandleFetch: a null result from `getLatestRate` is not modelled. Reading `result.rate` would throw, and the error toast would carry a platform-specific message.
- CompanySuggest.Selected: `Number(idx)` is modelled only on strings of decimal digits, which is what index texts are. Other strings that `Number` accepts name no candidate in the model: surrounding whitespace, a sign, an exponent, hex, `-0` or `1.0`.
- ZipcodeAutoFill.ZipcodeAutoFill.HandleManualEdit: the edited field is one of the four address fields. The source writes whatever property `data-field` names.
- The match's `full` and `zipcode` are taken as strings. A missing value would print as "undefined" in the picker label.
- A parent assigning the public `postal` property directly is not modelled; only `handlePostalChange` sets it.
- Platform scaffolding is not modelled: `console.log`, `debugMsg`, the `currencyOptions` list (the handlers accept any code), the `isFetchDisabled` getter, and the construction of `ShowToastEvent`/`CustomEvent` (only the kind and payload are logged).
- JavaScript's `.length` is modelled as UTF-16 code units (`Text.Utf16Length`). Strings are sequences of Unicode scalar values, so lone surrogates are not modelled.
- Error values carry string messages. A missing message and an empty one are both falsy, so both are written "". Other falsy values (0, false) are not modelled.
