# MockRealEstateApp property store, in Dafny

This project models the behavioural core of a SwiftUI real-estate showcase app:

- **the property filtering store** (`PropertyViewModel`). It holds three fixture properties and six filter criteria: search text, selected property types, a closed price range, and minimum bedrooms, bathrooms and square footage. It keeps `filteredProperties` equal to the stable filter of the list by the AND of six tests.
- **the immutable records** it filters: `Property`, `PropertyFeature`, the `PropertyType` and `PropertyStatus` enumerations with their raw values, and the keyed encode/decode of a map coordinate.
- **the contact form** of the detail screen: the email pattern `sendMessage` checks, its two outcomes, and the condition that enables the send button.

Files and modules:

| file | module | models |
|---|---|---|
| `wrappers.dfy` | `Wrappers` | `Option` for Swift optionals, `Result` for `throws` |
| `property.dfy` | `PropertyModel` | `Models/Property.swift` |
| `text.dfy` | `Ascii` | `localizedCaseInsensitiveContains`, as ASCII case folding |
| `filter.dfy` | `PropertyFilter` | the filter closure of `setupFiltering` as pure functions, and its lemmas |
| `store.dfy` | `PropertyStore` | the `PropertyViewModel` class, the fixtures of `loadMockData`, and scenarios on them |
| `contact.dfy` | `ContactForm` | `sendMessage`, the send-button condition, and the `@State` they use |

Design of the store:

- The Combine pipeline (`CombineLatest7 … map … assign`) recomputes the list whenever an input is published. Here that is an explicit `Refilter` at the end of every setter.
- The class invariant `Valid()` is `filteredProperties == Filter(properties, CurrentCriteria())`. Every setter preserves it.
- Each setter's contract states the new criteria as the old criteria with exactly one field replaced.
- The minimum and price-range setters also state the monotonicity the filter guarantees. Lowering a minimum or widening the range keeps the old list as a subsequence of the new one. Raising a minimum or narrowing the range does the reverse.

Records are Dafny datatype values, so, like the Swift `let` structs, they cannot change after construction.

Three points of the code that the model keeps as written:

- `updatePriceRange` stores the range it is given. There is no clamping. Swift's `ClosedRange` cannot be formed inverted, so the model's range type carries `lowerBound <= upperBound` as a subset-type constraint.
- `selectProperty` takes a property, not an id. It performs no lookup and always sets the selection.
- The default price range is `0...1000000`, so the 1,250,000 villa is not in the initial list. The initial list is [apartment, townhouse]. A search for "Malibu" under the default range is empty. For any range, it yields [villa] exactly when the range admits the villa's price, and [] otherwise (`SearchFilter`).

## Model

| member | source | states |
|---|---|---|
| `PropertyModel.AllPropertyTypes` | Models/Property.swift:19-25 | `allCases` has five entries, lists every `PropertyType`, has no repeats, and holds each case at its declaration position (house, apartment, condo, townhouse, land) |
| `PropertyModel.TypeRawValueRoundTrip` | Models/Property.swift:19-25 | a type's String raw value reads back as that type, and a raw value reads as a type exactly when it is that type's raw value |
| `PropertyModel.StatusRawValueRoundTrip` | Models/Property.swift:27-31 | the same for the three statuses forSale, pending, sold |
| `PropertyModel.TypeRawValue` | Models/Property.swift:19-25 | the raw value of each case is its case name; `TypeRawValueRoundTrip` states that it reads back as the same case |
| `PropertyModel.TypeFromRawValue` | Models/Property.swift:19-25 | a raw value that reads as a case is that case's raw value; `TypeRawValueRoundTrip` gives the converse |
| `PropertyModel.StatusRawValue` | Models/Property.swift:27-31 | the raw value of each status is its case name; `StatusRawValueRoundTrip` states that it reads back as the same status |
| `PropertyModel.StatusFromRawValue` | Models/Property.swift:27-31 | a raw value that reads as a status is that status's raw value; `StatusRawValueRoundTrip` gives the converse |
| `PropertyModel.EncodeCoordinate` | Models/Property.swift:53-57 | the encoded container has exactly the keys "latitude" and "longitude", holding the latitude and the longitude |
| `PropertyModel.DecodeNumber` | Models/Property.swift:48-49 | `decode(Double.self, forKey:)` succeeds iff the key holds a number, then returns that number; a failure names the key read |
| `PropertyModel.DecodeCoordinate` | Models/Property.swift:46-51 | `init(from:)` asks for a keyed container, then reads latitude, then longitude; `DecodeSucceedsIff`, `DecodeErrors` and `DecodeEncodeCoordinate` state when it succeeds, which error it throws, and that it inverts the encoder |
| `PropertyModel.DecodeEncodeCoordinate` | Models/Property.swift:46-57 | decoding the keyed container written for a coordinate gives the coordinate back |
| `PropertyModel.DecodeErrors` | Models/Property.swift:46-49 | a payload that is not a keyed container fails with a type mismatch; otherwise the first unusable key, latitude before longitude, fails with keyNotFound when absent, valueNotFound when null and typeMismatch when not a number |
| `PropertyModel.DecodeSucceedsIff` | Models/Property.swift:46-51 | decoding succeeds iff the payload is a keyed container whose two keys hold numbers, and then re-encoding gives back exactly the two entries read |
| `Ascii.IsInfixIff` | ViewModels/PropertyViewModel.swift:39-40 | the left-to-right substring search succeeds iff some offset of the haystack starts a copy of the needle |
| `Ascii.NotInfixWhenCharMissing` | ViewModels/PropertyViewModel.swift:39-40 | a needle with a character the haystack lacks is not found |
| `Ascii.NotContainedWhenLetterMissing` | ViewModels/PropertyViewModel.swift:39-40 | a needle with a letter that the text lacks in both cases is not contained, ignoring case |
| `Ascii.ContainsIgnoresNeedleCase` | ViewModels/PropertyViewModel.swift:39-40 | folding the needle's case does not change the case-insensitive answer |
| `Ascii.ContainsIgnoringCase` | ViewModels/PropertyViewModel.swift:39-40 | the text contains the needle, ignoring case, iff the folded needle starts at some offset of the folded text |
| `PropertyFilter.MatchesSearchIff` | ViewModels/PropertyViewModel.swift:38-40 | an empty search text admits every property; otherwise a property is admitted iff the folded text occurs at some offset of its folded title or folded address |
| `PropertyFilter.MatchesSearch` | ViewModels/PropertyViewModel.swift:38-40 | the search conjunct; `MatchesSearchIff` states its meaning by position |
| `PropertyFilter.MatchesTypes` | ViewModels/PropertyViewModel.swift:42 | an empty type set admits every property, otherwise its type must be in the set; `MatchesWidens` states that growing or emptying the set keeps a match |
| `PropertyFilter.MatchesPrice` | ViewModels/PropertyViewModel.swift:44-45 | a price equal to either bound is admitted: the range is inclusive at both ends |
| `PropertyFilter.Matches` | ViewModels/PropertyViewModel.swift:37-52 | the AND of the six tests; `MatchesWidens` and `UnrestrictedKeepsAll` state its monotonicity and that unrestricted criteria admit every property whose counts are non-negative |
| `PropertyFilter.Filter` | ViewModels/PropertyViewModel.swift:36-53 | the result is no longer than the list; every result element is in the list and passes all six tests; every listed property that passes them is in the result |
| `PropertyFilter.FilterIsSubsequence` | ViewModels/PropertyViewModel.swift:37-53 | the result keeps the relative order of the list |
| `PropertyFilter.FilterCount` | ViewModels/PropertyViewModel.swift:37-53 | each property occurs in the result as often as in the list if it passes, and never otherwise |
| `PropertyFilter.FilterAppend` | ViewModels/PropertyViewModel.swift:37 | filtering a concatenation is concatenating the filtered parts |
| `PropertyFilter.FilterAllMatch` | ViewModels/PropertyViewModel.swift:37-53 | when every property passes, the result is the whole list unchanged |
| `PropertyFilter.UnrestrictedKeepsAll` | ViewModels/PropertyViewModel.swift:38-49 | empty search, no types, minimums of zero or less, a range covering every price, and properties whose bedrooms, bathrooms and square footage are all non-negative give back the full list in order |
| `PropertyFilter.FilterIdempotent` | ViewModels/PropertyViewModel.swift:36-53 | filtering the result again with the same criteria changes nothing |
| `PropertyFilter.MatchesWidens` | ViewModels/PropertyViewModel.swift:38-49 | a property that passes some criteria passes any widening of them: inclusive price bounds moved outwards, `>=` minimums lowered, a type set grown or emptied, a search text dropped |
| `PropertyFilter.FilterMonotone` | ViewModels/PropertyViewModel.swift:44-49 | widening the criteria never removes a property: the old result is a subsequence of the new |
| `PropertyStore.InitialFilter` | ViewModels/PropertyViewModel.swift:9-120 | with the initial criteria and the three fixtures the result is [apartment, townhouse] |
| `PropertyStore.MockProperties` | ViewModels/PropertyViewModel.swift:59-117 | the three fixtures in list order: villa (1,250,000, house), apartment (750,000), townhouse (450,000); the scenario lemmas below state their filter results |
| `PropertyStore.DefaultCriteria` | ViewModels/PropertyViewModel.swift:9-14 | the initial criteria: empty search, no types, range 0...1,000,000, minimums 0; the constructor states the store starts with them |
| `PropertyStore.MidPriceFilter` | ViewModels/PropertyViewModel.swift:59-120 | with the range 500,000...1,000,000 the result is [apartment] |
| `PropertyStore.TypeFilter` | ViewModels/PropertyViewModel.swift:42-120 | types {house, townhouse} give [villa, townhouse] under a range up to 2,000,000, and [townhouse] under the default range |
| `PropertyStore.VillaAddressHasMalibu` | ViewModels/PropertyViewModel.swift:65 | any case of "malibu" occurs, ignoring case, in the villa's address |
| `PropertyStore.ApartmentLacksMalibu` | ViewModels/PropertyViewModel.swift:81-84 | it occurs in neither the apartment's title nor its address |
| `PropertyStore.TownhouseLacksMalibu` | ViewModels/PropertyViewModel.swift:100-103 | it occurs in neither the townhouse's title nor its address |
| `PropertyStore.SearchFilter` | ViewModels/PropertyViewModel.swift:38-120 | for every price range, searching "Malibu" in any case gives [villa] when the range admits 1,250,000 and [] otherwise, so [] under the default range |
| `PropertyStore.Toggled` | ViewModels/PropertyViewModel.swift:122-128 | toggling flips the membership of the toggled type and keeps every other type's |
| `PropertyStore.ToggledTwice` | ViewModels/PropertyViewModel.swift:122-128 | toggling the same type twice restores the set |
| `PropertyStore.PropertyViewModel.constructor` | ViewModels/PropertyViewModel.swift:6-24 | the store starts with the fixtures, the default criteria, no selection, the invariant, and the list [apartment, townhouse] |
| `PropertyStore.PropertyViewModel.LoadMockData` | ViewModels/PropertyViewModel.swift:58-120 | the property list becomes the three fixtures |
| `PropertyStore.PropertyViewModel.Refilter` | ViewModels/PropertyViewModel.swift:27-55 | after the pipeline fires, the filtered list equals the filter of the current list and criteria |
| `PropertyStore.PropertyViewModel.SetSearchText` | ViewModels/PropertyViewModel.swift:9-40 | only the search text changes; the invariant holds; clearing it keeps every listed property; setting it from empty adds none |
| `PropertyStore.PropertyViewModel.ToggleFilter` | ViewModels/PropertyViewModel.swift:122-128 | only the type set changes, to the old set with the type toggled; the invariant holds |
| `PropertyStore.PropertyViewModel.SetTypeSelected` | Views/FilterView.swift:33-38 | the type is in the set iff switched on; no other type's membership and no other criterion changes; the invariant holds |
| `PropertyStore.PropertyViewModel.UpdatePriceRange` | ViewModels/PropertyViewModel.swift:130-132 | the range becomes exactly the argument and no other criterion changes; the invariant holds; a containing range keeps every listed property, a contained one adds none |
| `PropertyStore.PropertyViewModel.SetMinBedrooms` | ViewModels/PropertyViewModel.swift:12-47 | only the minimum changes; the invariant holds; lowering it keeps every listed property, raising it adds none |
| `PropertyStore.PropertyViewModel.SetMinBathrooms` | ViewModels/PropertyViewModel.swift:13-48 | the same for the bathrooms minimum |
| `PropertyStore.PropertyViewModel.SetMinSquareFootage` | ViewModels/PropertyViewModel.swift:14-49 | the same for the square-footage minimum |
| `PropertyStore.PropertyViewModel.SelectProperty` | ViewModels/PropertyViewModel.swift:134-136 | the selection becomes the given property; only the selection field may change, so the invariant still holds |
| `ContactForm.FirstIndexOf` | Views/PropertyDetailView.swift:218 | the result is the first position of the character, or the length when it is absent |
| `ContactForm.LastIndexOf` | Views/PropertyDetailView.swift:218 | the result is the last position of the character, or -1 when it is absent |
| `ContactForm.IsValidEmailIff` | Views/PropertyDetailView.swift:218-221 | the form's check accepts a string iff the whole string splits into a non-empty `[A-Za-z0-9._%+-]` run, '@', a non-empty `[A-Za-z0-9.-]` run, '.', and 2 to 64 ASCII letters |
| `ContactForm.IsValidEmail` | Views/PropertyDetailView.swift:218-221 | the check the form runs; `IsValidEmailIff` states it accepts exactly the strings the pattern matches |
| `ContactForm.ValidEmailHasOneAt` | Views/PropertyDetailView.swift:218 | an address the pattern matches holds exactly one '@' |
| `ContactForm.RejectsNotAnEmail` | Views/PropertyDetailView.swift:218-221 | "not-an-email" is rejected |
| `ContactForm.AcceptsShortEmail` | Views/PropertyDetailView.swift:218-221 | "a@b.com" is accepted |
| `ContactForm.ContactFormState.constructor` | Views/PropertyDetailView.swift:7-12 | the form starts closed, with no alert and with empty fields |
| `ContactForm.ContactFormState.OpenContactForm` | Views/PropertyDetailView.swift:176 | the "Contact Agent" button shows the form |
| `ContactForm.ContactFormState.SendMessage` | Views/PropertyDetailView.swift:217-236 | an invalid email raises "Please enter a valid email address" and leaves the three fields and the form as they were; a valid one raises "Your message has been sent successfully!", clears the three fields and closes the form, which disables the send button |
| `ContactForm.ContactFormState.TapSend` | Views/PropertyDetailView.swift:204-209 | while any of name, email and message is empty the button does nothing; otherwise it has the two outcomes of `SendMessage` |
| `ContactForm.SendEnabled` | Views/PropertyDetailView.swift:209 | the send button is enabled iff name, email and message are all non-empty; `TapSend` states that a disabled tap changes nothing |
| `ContactForm.ContactFormState.SendButtonEnabled` | Views/PropertyDetailView.swift:209 | the same condition on the form's current fields; `SendMessage` states that a successful send disables it |

## Left out

- Combine mechanics (`@Published`, `CombineLatest7`, `assign`, `cancellables`): replaced by the explicit `Refilter` after each setter. The pipeline fires once per assignment, even when the assigned value is unchanged. The model's result is the same either way.
- `Ascii.ContainsIgnoringCase`: models `localizedCaseInsensitiveContains` with ASCII case folding. It does not model locale-dependent folding, diacritics or Unicode normalisation. Foundation answers false for an empty needle. The model answers true. That case is unreachable, because the filter tests `searchText.isEmpty` first.
- Floating point: `Double` prices and coordinates are `real`. Prices are only compared and coordinates only copied, so rounding, NaN and infinities are not modelled.
- UUID generation: ids are distinct naturals.
- The NSPredicate/ICU regular-expression engine: the pattern is hand-written as the predicate `MatchesEmailPattern`, with the scanning check `IsValidEmail` proved equivalent to it. Characters are Dafny `char`s, not Swift grapheme clusters.
- The `print` of the sent message in `sendMessage`, alert presentation and dismissal, and sheet presentation are left out. The form's fields are edited directly by the text fields' bindings, so there is no operation to model.
- `PropertyModel.DecodeCoordinate`: a payload that is not a keyed container fails with one error, `NotKeyedContainer`, the model of the `typeMismatch` that `container(keyedBy:)` throws. This also covers a payload that is null as a whole, where a concrete decoder such as `JSONDecoder` reports `valueNotFound` instead. Error contexts (coding paths, debug descriptions) are not modelled.
- The synthesised `Codable` conformance of `Property` and `PropertyFeature` as a whole (their JSON layout) is left out. Only the coordinate's hand-written keyed codec and the enumerations' String raw values are modelled.
- The slider and stepper bounds of the filter sheet (0...1,000,000 in steps of 10,000 for the lower price, 0...10 for bedrooms and bathrooms, 0...10,000 in steps of 100 for square footage) are enforced by the controls, not by the store. The store's setters accept any value, as the Swift properties do.
- Views/HomeView.swift, Views/FilterView.swift (apart from the type toggle, `SetTypeSelected`), Theme/AppTheme.swift and MockRealEstateAppApp.swift: layout, styling and the app entry point, with no behaviour of their own beyond the store's.
- The image gallery (`selectedImageIndex`, `images[safe:]`) and the map view of the detail screen are presentation only. The `safe` subscript is not part of this model.
