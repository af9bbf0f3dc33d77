# Health portal core, modelled in Dafny

This project models the decision logic of a small browser patient portal. A
user enters a Social Security Number, the portal loads the patient's
demographics, allergies and emergency contacts, the user ticks the items to
share, and the selection is written out as the text of a QR code. Six parts
are modelled:

- **Record aggregator** (`fhircalls.js`, module `FhirCalls`, with the record
  types in `Fhir`). `getPatientData(patientId)` fetches a FHIR R4 Patient,
  its first general practitioner, its AllergyIntolerance and RelatedPerson
  bundles and, only when no blood-group extension settled it, an
  ABO-blood-group Observation (LOINC 883-9). It flattens them into one view.
  - JSON is a tree of optional nodes.
  - The network is a store from request path to resource. A missing path is
    a failed request.
  - The function `Aggregate` is the reference meaning of one call: its
    result and the list of requests, in order. The method `GetPatientData`
    performs the call step by step and is proved equal to it.
- **Mock data service** (`fhirService.js`, module `FhirService`).
  `getPatientData(ssn)` returns a *shallow* copy of a module constant. For an
  ssn containing "123" it writes three properties of the patient object that
  the copy shares with the constant. The classes keep that aliasing: the
  override outlives the call and rewrites results handed out earlier.
- **QR text** (`QRCodeGenerator.js`, module `QrCode`). `formatDataToString`
  accumulates a fixed-order document with `+=` in two loops, then trims it.
  The methods are proved equal to a reference `Document` built from `Join`.
- **Selection** (`DashboardPage.js`, module `Dashboard`). A click toggles an
  id in a copied `Set`. The data is projected onto the selection, and an
  empty projection disables the copy button.
- **Login form** (`LoginPage.js`, module `LoginPage`). `formatSSN`,
  `validateSSN` and the gate in front of `login`.
- **Session** (`AuthContext.js`, module `AuthContext`). Two state cells
  written by `login` and `logout`.

`JsText` holds the JavaScript string operations the code relies on: `join`,
`includes`, `toLowerCase`, `trim`, `||` defaulting, template interpolation
and the decimal printing of a number. `Views` holds the flat view model.

Decisions the model makes:

- A missing `given` or `family` of a name, or a missing `city`/`state` of
  an address, prints as the text `undefined`, exactly as the template
  literal does. It is not excluded by a precondition.
- `||` is modelled as "present and a non-empty string, else the default".
  String-valued leaves are the only ones it is applied to.
- A missing `entry.resource` in a bundle and a blood-group extension scan
  that reaches an extension without `url` both throw a `TypeError` and
  reject the whole call. The model returns `Err(TypeError)` for them.

The model follows the code as written:

- There is no identifier search before the Patient request. The patient id
  is used directly in `Patient/<id>`.
- There is no fallback to the mock data. A failed Patient, allergy or
  contact request rejects the call, and only the practitioner and
  observation requests are caught.
- Names are not trimmed.
- The patient `id` is passed through and can be missing.
- A missing address reads "Unknown" for the patient and "N/A" for the
  practitioner. A missing phone or email reads "N/A".
- A `pcp` that cannot be fetched is `null`, never a placeholder object.

## Model

| member | source | states |
|---|---|---|
| FhirCalls.GetPatientData | fhircalls.js:6-109 | the step-by-step call (patient, practitioner, allergies, contacts, blood group phase A then B) yields exactly the result and the ordered request list of the reference `Aggregate` |
| FhirCalls.AggregateFailsIff | fhircalls.js:14-61 | the call fails iff the Patient, allergy or contact request fails, a bundle entry lacks its resource, or the extension scan meets a url-less extension; practitioner and observation failures never fail it |
| FhirCalls.PatientFailureIsFatal | fhircalls.js:14 | a Patient request that is not ok rejects with "Failed to fetch Patient/<id>" and no other request is issued |
| FhirCalls.AggregateShape | fhircalls.js:17-61 | a successful call has one allergy and one contact per bundle entry in entry order, and `pcp` is null exactly when there is no first `generalPractitioner` or its request fails |
| FhirCalls.PractitionerFailureIsolated | fhircalls.js:17-35 | removing the practitioner's record from the store changes nothing but `pcp`, which becomes null; requests and every other field stay the same |
| FhirCalls.RequestOrder | fhircalls.js:14-87 | requests are Patient, the practitioner when referenced, allergies, contacts, and the LOINC 883-9 query only when phase A left "Unknown" |
| FhirCalls.BloodGroupPhases | fhircalls.js:64-87 | the blood group is phase A's value when not "Unknown", otherwise the observation's value, and "Unknown" when the observation request fails |
| FhirCalls.ExtensionTakesPrecedence | fhircalls.js:71-74 | once an extension supplies a blood group, the observation query is not issued and its record cannot change the result |
| FhirCalls.ExtensionFirstMatchWins | fhircalls.js:67-71 | the first extension whose lower-cased url contains "bloodgroup" or "blood-group" supplies `valueString`, else `valueCode`, else "Unknown" |
| FhirCalls.SameOffObservation | fhircalls.js:71-87 | once an extension supplies a blood group, stores that differ only on the observation query give the same call |
| FhirCalls.BloodGroupUrlIgnoresCase | fhircalls.js:67-69 | a url matches the blood-group test exactly when its lower-cased form does, so the test ignores case |
| FhirCalls.MixedCaseBloodGroupUrl | fhircalls.js:67-69 | a url containing "bloodgroup" or "blood-group" in any mix of cases matches the test |
| FhirCalls.ExtensionWithoutUrlThrows | fhircalls.js:67-69 | an extension without url reached before any match makes the call reject with a TypeError |
| FhirCalls.AllergiesOf | fhircalls.js:38-47 | Ok iff every entry has a resource; an absent `entry` gives []; one allergy per entry, the k-th built from the k-th entry at position k |
| FhirCalls.ContactsOf | fhircalls.js:50-61 | the same for RelatedPerson entries and contacts |
| FhirCalls.AllergyFallbacks | fhircalls.js:42-45 | id, substance (text, then first coding display, then "Unknown"), severity and status each fall back independently, an empty string counting as absent, and no field is empty |
| FhirCalls.SynthesizedAllergyIdsDistinct | fhircalls.js:42 | two entries of one bundle without an id of their own receive different ids |
| FhirCalls.SynthesizedContactIdsDistinct | fhircalls.js:54 | two entries of one bundle without an id of their own receive different ids |
| FhirCalls.PositionalIdInjective | fhircalls.js:42 | `prefix-{i+1}` determines the position i |
| FhirCalls.NameText | fhircalls.js:24-26 | the name text is never empty |
| FhirCalls.NameFromFirstEntry | fhircalls.js:24-26 | only `name[0]` is read: given parts joined by single spaces, one space, the family name, untrimmed; missing parts print "undefined"; no name gives "Unknown" |
| FhirCalls.AddressText | fhircalls.js:28-30 | the address text is never empty when its sentinel is not |
| FhirCalls.AddressFromFirstEntry | fhircalls.js:28-30 | only `address[0]` is read: lines joined by ", ", then ", city, state ", then the postal code or nothing; no address gives the sentinel |
| FhirCalls.AddressSentinels | fhircalls.js:28-30 | a missing address reads "Unknown" for the patient and "N/A" for the practitioner |
| FhirCalls.TelecomValue | fhircalls.js:27 | the phone/email text is never empty |
| FhirCalls.TelecomFirstMatchWins | fhircalls.js:27 | the first contact point of the wanted system decides: its value, or "N/A" when it has none; later entries never matter |
| FhirCalls.AggregateFieldsFilled | fhircalls.js:90-108 | every string field of a successful result, nested practitioner, allergies and contacts included, is non-empty |
| FhirCalls.FixedPathsDistinct | fhircalls.js:14-79 | the Patient, allergy, contact and observation request paths of one call are pairwise different |
| FhirService.FhirService.constructor | src/services/fhirService.js:5-49 | the module constant holds the John Smith profile, allergies 001-003 and contacts 001-002, in order |
| FhirService.FhirService.GetPatientData | src/services/fhirService.js:56-96 | returns a fresh object sharing the constant's patient; with "123" in the ssn the shared patient becomes Alice Johnson and the lists are the override ones, otherwise the current shared patient with the baseline lists; the constant's lists are never changed |
| FhirService.FreshModuleBaseline | src/services/fhirService.js:5-49 | on a fresh module an ssn without "123" yields exactly the baseline profile |
| FhirService.OverrideOutlivesCall | src/services/fhirService.js:68-72 | after a "123" call, a later call without "123" still reports Alice Johnson with the baseline lists |
| FhirService.EarlierResultRewritten | src/services/fhirService.js:68-72 | a result handed out earlier is rewritten by a later "123" call, because its patient object is shared |
| QrCode.FormatDataToString | src/components/QRCodeGenerator.js:83-125 | the accumulated and trimmed text equals the trimmed reference document |
| QrCode.WritePatient | src/components/QRCodeGenerator.js:87-95 | the patient block is the header, the six labelled lines in order, and a blank line |
| QrCode.WriteAllergies | src/components/QRCodeGenerator.js:98-109 | the loop writes the header and the allergy blocks joined by blank lines, then a newline |
| QrCode.AppendAllergy | src/components/QRCodeGenerator.js:101-103 | the three lines written for one allergy are exactly its block |
| QrCode.AppendContact | src/components/QRCodeGenerator.js:115-117 | the three lines written for one contact are exactly its block |
| QrCode.WriteContacts | src/components/QRCodeGenerator.js:112-122 | the loop writes the header and the contact blocks joined by blank lines |
| QrCode.PatientLines | src/components/QRCodeGenerator.js:89-94 | the patient block has exactly six lines |
| QrCode.AllergyBlocks | src/components/QRCodeGenerator.js:100-103 | one block per allergy |
| QrCode.ContactBlocks | src/components/QRCodeGenerator.js:114-117 | one block per contact |
| QrCode.FormattedEmptyIff | src/components/QRCodeGenerator.js:83-125 | the text is empty iff there is no patient and no non-empty list |
| QrCode.EmptyListsGiveBlankCode | src/components/QRCodeGenerator.js:81-112 | data whose only keys are empty lists counts as having data yet encodes the empty text |
| QrCode.SelectedTextIff | src/components/QRCodeGenerator.js:81-125 | on the dashboard's projection, the text is empty iff the data has no key |
| QrCode.FormatIgnoresPatientId | src/components/QRCodeGenerator.js:87-95 | the patient id never affects the text |
| QrCode.AllergiesSeparated | src/components/QRCodeGenerator.js:100-107 | consecutive allergies are separated by one blank line: status line, empty line, substance line |
| QrCode.ContactsSeparated | src/components/QRCodeGenerator.js:114-121 | consecutive contacts are separated by one blank line: phone line, empty line, name line |
| Dashboard.Toggle | src/components/DashboardPage.js:260-268 | the clicked id changes membership and no other id does |
| Dashboard.ToggleTwice | src/components/DashboardPage.js:260-268 | clicking the same item twice restores the selection |
| Dashboard.DashboardPage.HandleItemToggle | src/components/DashboardPage.js:260-268 | a fresh set with the toggled membership replaces the selection; the old set object and the health data are untouched |
| Dashboard.DashboardPage.SetHealthData | src/components/DashboardPage.js:248-249 | stores the loaded data and keeps the selection |
| Dashboard.ItemSet.Copy | src/components/DashboardPage.js:261 | `new Set(other)` has the same elements |
| Dashboard.ItemSet.Add | src/components/DashboardPage.js:265 | adds exactly the id |
| Dashboard.ItemSet.Delete | src/components/DashboardPage.js:263 | removes exactly the id |
| Dashboard.FilterById | src/components/DashboardPage.js:280-282 | the kept items are exactly those whose id is selected, and the result is empty iff none is |
| Dashboard.FilterMultiplicity | src/components/DashboardPage.js:280-282 | each item occurs in the result exactly as often as in the input when its id is selected, and not at all otherwise |
| Dashboard.FilterKeepsOrder | src/components/DashboardPage.js:280-290 | the filtered items are a subsequence of the originals, in order |
| Dashboard.GetSelectedData | src/components/DashboardPage.js:270-296 | no data gives {}; the patient key iff "patient" is selected; a list key iff some item of it is selected, holding the filtered items |
| Dashboard.SelectedListsExact | src/components/DashboardPage.js:280-293 | a selected list is non-empty, in original order, and holds each selected item exactly as often as the health data does, and no other item |
| Dashboard.CopyDisabledIff | src/components/DashboardPage.js:445 | the copy button is disabled iff no data is loaded or nothing of it is selected |
| Views.KeyCount | src/components/DashboardPage.js:445 | at most three keys, and none exactly for {} |
| LoginPage.FormatKeepsLeadingDigits | src/components/LoginPage.js:158-164 | the output's digits are the first min(9, n) input digits in order, and every other character is '-' |
| LoginPage.ShortInputUndashed | src/components/LoginPage.js:159-161 | fewer than nine digits are returned as they are, without dashes |
| LoginPage.LongInputDashed | src/components/LoginPage.js:161-163 | nine or more digits give ddd-dd-dddd of the first nine, eleven characters |
| LoginPage.FormatIdempotent | src/components/LoginPage.js:158-167 | formatting a formatted value changes nothing |
| LoginPage.Digits | src/components/LoginPage.js:159 | stripping never lengthens the input |
| LoginPage.DigitsExact | src/components/LoginPage.js:159 | the stripped text holds exactly the input's digit characters, each as often as it occurs |
| LoginPage.ValidateCountsDigits | src/components/LoginPage.js:172-175 | non-digit characters around a value never change its validity |
| LoginPage.ValidateFormatIff | src/components/LoginPage.js:158-175 | a formatted value is valid iff the raw input had at least nine digits |
| LoginPage.DashedDigits | src/components/LoginPage.js:161 | the dashes of ddd-dd-dddd add no digits and lose none |
| LoginPage.OnSsnChange | src/components/LoginPage.js:166-170 | the formatted input replaces the value and the error is cleared |
| LoginPage.OnSubmit | src/components/LoginPage.js:177-192 | an invalid value shows "Please enter a valid 9-digit Social Security Number" and `login` is not called; a valid one is passed to `login` unchanged |
| LoginPage.TypedValueReachesLogin | src/components/LoginPage.js:158-192 | typed input reaches `login` iff it had at least nine digits, and then as an eleven-character value |
| AuthContext.Auth.constructor | src/context/AuthContext.js:14-15 | starts unauthenticated with ssn null |
| AuthContext.Auth.Login | src/context/AuthContext.js:17-20 | stores the value and authenticates; the session stays consistent iff the value is not null |
| AuthContext.Auth.Logout | src/context/AuthContext.js:22-25 | clears the ssn and deauthenticates |
| AuthContext.RunSession | src/context/AuthContext.js:14-25 | any sequence of non-null logins and logouts keeps authenticated iff ssn is set, and the last step decides the state |
| AuthContext.LogoutTwice | src/context/AuthContext.js:22-25 | logging out twice equals logging out once |
| AuthContext.LoginOverwrites | src/context/AuthContext.js:17-20 | a second login replaces the ssn of the first |
| JsText.Trim | src/components/QRCodeGenerator.js:124 | the trimmed text neither starts nor ends with whitespace |
| JsText.TrimCutsWhitespace | src/components/QRCodeGenerator.js:124 | the trimmed text is a contiguous slice of the input and everything cut off on either side is whitespace |
| JsText.Or | fhircalls.js:42-45 | the default is taken unless the value is present and non-empty, and then the value is |
| JsText.ToLower | fhircalls.js:68-69 | keeps the length, leaves no upper-case letter, maps each upper-case letter to its lower-case partner and keeps every other character |
| JsText.ToLowerIdempotent | fhircalls.js:68-69 | lower-casing twice equals lower-casing once |
| JsText.IncludesToLower | fhircalls.js:68-69 | an occurrence of a text survives lower-casing as an occurrence of the lower-cased text |
| JsText.FirstIndex | fhircalls.js:27 | `find` stops at the first element satisfying the callback, or finds none |
| JsText.IncludesAt | src/services/fhirService.js:69 | an occurrence at some offset makes `includes` true |
| JsText.IncludesWitness | src/services/fhirService.js:69 | `includes` true yields an offset where the text occurs |
| JsText.DecimalString | fhircalls.js:42 | the printed number is non-empty and all digits |
| JsText.DecimalStringInjective | fhircalls.js:42 | different numbers print differently |

## Left out

- HTTP, JSON decoding and the base URLs are not modelled. The store maps a
  request path to its decoded resource, and a path it does not hold models
  a response that is not ok. The HTTP status in the error message is not
  modelled.
- Network failures are reported as `FetchFailed` as well. In the code a
  network failure makes `fetch` itself reject with its own `TypeError`,
  which passes through unchanged, so the message "Failed to fetch
  <resource>: <status>" belongs to a non-ok response only.
- Promises, `async`/`await` and the `setTimeout` delays are modelled as
  sequential steps.
- JSON `null` and a missing key are modelled as the same `None`. A `null`
  or non-string value where a string is expected is not modelled.
- A `url` or `system` that is present but not a string is not modelled. A
  non-string `url` would also throw in `toLowerCase`.
- FhirCalls.GetPatientData: `console.log` of the example call is not
  modelled, and neither is the call itself.
- FhirCalls.PractitionerOf: an exception thrown while reading the fetched
  practitioner is not modelled. Well-typed records cannot throw there, so
  only a failed request nulls `pcp`.
- The commented-out FHIR calls of the data service are dead code and are
  not modelled.
- FhirService.FhirService.GetPatientData: `ssn` is always a string, so the
  `catch` that rethrows "Failed to fetch patient data" when `includes`
  throws is not reachable in the model. The unused `baseUrl` is not
  modelled.
- JsText.ToLower: lower-cases ASCII letters only, not the full Unicode
  mapping of `toLowerCase`. The literals it is compared with are ASCII.
- JsText.Trim: the whitespace set is the fixed ECMAScript list of
  WhiteSpace and LineTerminator code points, over `char`.
- The `\D` regex of the login form is modelled as a filter keeping the ASCII
  digits '0' to '9'. The JS regex engine is not modelled.
- The browser's `maxLength={11}` truncation of typed input is not modelled.
  The formatted value has at most 11 characters anyway.
- LoginPage.OnSubmit: `isLoading`, the `catch` after `login` (unreachable,
  because `login` only sets state), and the navigation to the dashboard are
  not modelled.
- The `showSsn` toggle is not modelled.
- React rendering is not modelled: styled components, icons, the QR image
  library, the loading and error branches, the JSON preview and the `copied`
  flag.
- The dashboard's `useEffect` fetch is modelled only as
  `SetHealthData`.
- The clipboard API is not modelled.
- The `useAuth` context lookup is not modelled.
- Routing in `src/App.js` is not part of this model.
