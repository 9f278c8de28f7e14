# Medication delivery checkout wizard — Dafny model

This project models the screen logic of a client-side checkout wizard for
medication delivery. A user picks a medication type. The prescription flow
goes address → insurance → prescribed medications → delivery method →
summary. The over-the-counter (OTC) flow goes through a product catalog to
the delivery method. Each screen is a small state machine. Its handlers
return a navigation `Outcome`: `Navigate(route)`, `Error(msg)` or `NoOp`.

Modules, one per source file:

- `Navigation` (`navigation.dfy`): the `Route` enumeration, taken from the router's path table, and `Outcome`.
- `Wrappers` (`wrappers.dfy`): `Option`, standing for `undefined`/`null`.
- `OtcCatalog` (`otc_catalog.dfy`): the class `OtcCatalogScreen`. It holds `products: seq<Product>` and
  `cartCount`. The per-product `map` rewrites are pure functions.
- `Medications` (`medications.dfy`): the class `MedicationsScreen`. The selection toggle is a pure
  filter-or-append function, with induction lemmas about it.
- `Address` (`address.dfy`): the class `AddressScreen`. It has the length validator, a substring
  search checked against a declarative definition, and the case-insensitive suggestion filter.
- `Insurance` (`insurance.dfy`): the class `InsuranceScreen`. Each of its methods is tied to a pure
  transition function `Step`. The status-machine properties are proved about `Step`/`Run`.
- `DeliveryMethod`, `Summary`, `MedicationType` (`delivery_method.dfy`, `summary.dfy`,
  `medication_type.dfy`): the selection, confirmation and route-mapping logic.
- `ProgressIndicator` (`progress_indicator.dfy`): the circle/connector classification and its counts.
- `SettingsScreen` (`settings_screen.dfy`): the order card's bar colours, completion test and sample orders.
- `Flow` (`flow.dfy`): the step order of each flow, as the screens' forward actions wire it. Two
  methods drive the screens through a whole prescription order and a whole OTC order. Lemmas say
  where each fixed Back, home, "Change address" and edit link leads relative to that order.

The insurance check finishes after a random delay with a random result. Here,
starting verification schedules one completion, kept in the ghost counter
`pendingTimers`. Running that completion is a separate operation, and the
caller chooses whether it succeeds.

The model follows the code. In particular:

- The code has no session store and no entry guards. No screen reads or writes browser storage or
  redirects on entry, so neither is modelled.
- Insurance verification can end in `error`. It does not always succeed, and nothing is persisted.
- The address rule is "at least 10 characters", with no other check.
- The OTC cart keeps only a count, not a map from product to size and quantity.

The welcome screen's Start button leads to `/address` (src/components/screens/WelcomeScreen.tsx:30).
So the prescription flow as wired is entered at the address step. The medication-type screen is
reached only from the catalog's Back button or by its URL.

## Model

| member | source | states |
|---|---|---|
| `Navigation.RouteOf` | src/App.tsx:27-36 | a listed path selects the route whose path it is; NotFound is selected exactly when no listed route has that path |
| `Navigation.RouteOfPath` | src/App.tsx:27-36 | every route is selected by its own path |
| `Navigation.PathInjective` | src/App.tsx:27-36 | no two routes share a path |
| `Navigation.Home` | src/components/screens/SummaryScreen.tsx:34-36 | "Back to Home", and the home icons at OtcCatalogScreen.tsx:345, DeliveryMethodScreen.tsx:108 and MedicationTypeScreen.tsx:36, lead to the route registered at `/` |
| `OtcCatalog.InitialCatalog` | src/components/screens/OtcCatalogScreen.tsx:122-270 | twelve products with ids 1..12, all distinct, each with no size selected and quantity 0 |
| `OtcCatalog.FindProduct` | src/components/screens/OtcCatalogScreen.tsx:302 | a found product is in the list and has the id; nothing is found exactly when no product has the id |
| `OtcCatalog.FindProductUnique` | src/components/screens/OtcCatalogScreen.tsx:302 | with distinct ids, the search for a product's id finds that product |
| `OtcCatalog.FindSize` | src/components/screens/OtcCatalogScreen.tsx:408 | a found size is one of the product's sizes and has the label, and no earlier size has that label, as `Array.find` returns the first match; nothing is found exactly when no size has that label |
| `OtcCatalog.SelectSize` | src/components/screens/OtcCatalogScreen.tsx:274-281 | only the products with the id change, and only their selected size; ids, names, sizes and all quantities are kept |
| `OtcCatalog.Increase` | src/components/screens/OtcCatalogScreen.tsx:283-290 | the matching product's quantity goes up by exactly 1; every other product and every selected size is unchanged |
| `OtcCatalog.Decrease` | src/components/screens/OtcCatalogScreen.tsx:292-299 | a matching product with a positive quantity goes down by 1; a quantity at 0 or below and all other products stay as they are |
| `OtcCatalog.DecreaseKeepsNonNegative` | src/components/screens/OtcCatalogScreen.tsx:292-299 | decreasing never makes a non-negative quantity negative |
| `OtcCatalog.ResetQuantity` | src/components/screens/OtcCatalogScreen.tsx:315-321 | the matching product's quantity becomes 0 and its selected size is kept; the other products and the list's items are unchanged |
| `OtcCatalog.AddCheck` | src/components/screens/OtcCatalogScreen.tsx:302-310 | adding goes ahead exactly when the product exists, has a size and has a positive quantity. A missing product or a missing size gives "select a size first"; a sized product with quantity 0 or below gives "select at least one item" |
| `OtcCatalog.CardButtonMatchesHandler` | src/components/screens/OtcCatalogScreen.tsx:452 | for a card on screen, the handler's checks pass exactly when the card's "Add to Order" button is enabled |
| `OtcCatalog.OtcCatalogScreen.constructor` | src/components/screens/OtcCatalogScreen.tsx:122-272 | the screen starts with the initial catalog and a cart count of 0 |
| `OtcCatalog.OtcCatalogScreen.HandleSizeSelect` | src/components/screens/OtcCatalogScreen.tsx:274-281 | the new products are `SelectSize` of the old ones; the cart count is not touched |
| `OtcCatalog.OtcCatalogScreen.ChooseSize` | src/components/screens/OtcCatalogScreen.tsx:406-410 | a label the card's product offers selects that size, which is one of its sizes; an unknown label changes nothing |
| `OtcCatalog.OtcCatalogScreen.IncreaseQuantity` | src/components/screens/OtcCatalogScreen.tsx:283-290 | the new products are `Increase` of the old ones, and the invariant that no counter is negative holds |
| `OtcCatalog.OtcCatalogScreen.DecreaseQuantity` | src/components/screens/OtcCatalogScreen.tsx:292-299 | the new products are `Decrease` of the old ones; starting from the all-zero catalog, no counter goes negative |
| `OtcCatalog.OtcCatalogScreen.AddToCart` | src/components/screens/OtcCatalogScreen.tsx:301-322 | on a failed check it returns that error and changes nothing. Otherwise the cart count grows by exactly the product's quantity and that quantity is reset to 0; the cart count never decreases |
| `OtcCatalog.OtcCatalogScreen.HandleContinue` | src/components/screens/OtcCatalogScreen.tsx:324-330 | goes to `/delivery` exactly when the cart count is positive, which is also when the Continue bar is shown; otherwise it returns the "add an item" error |
| `OtcCatalog.ParacetamolOrder` | src/components/screens/OtcCatalogScreen.tsx:274-330 | choosing "20 tablets" of paracetamol, raising its quantity twice and adding it gives a cart count of 2, and Continue then goes to `/delivery` |
| `Medications.Ids` | src/components/screens/MedicationsScreen.tsx:51-53 | the ids of the medication list, in order |
| `Medications.Without` | src/components/screens/MedicationsScreen.tsx:58 | filtering never lengthens the selection |
| `Medications.WithoutMembership` | src/components/screens/MedicationsScreen.tsx:58 | after filtering out `x`, an id is present exactly when it was present before and is not `x` |
| `Medications.WithoutKeepsDistinct` | src/components/screens/MedicationsScreen.tsx:58 | filtering keeps a duplicate-free selection duplicate-free |
| `Medications.WithoutAbsent` | src/components/screens/MedicationsScreen.tsx:58 | filtering out an absent id leaves the selection exactly as it was |
| `Medications.WithoutAppended` | src/components/screens/MedicationsScreen.tsx:58-59 | filtering out an id that was just appended undoes the append |
| `Medications.WithoutShrinks` | src/components/screens/MedicationsScreen.tsx:58 | filtering out an id that is present makes the selection strictly shorter |
| `Medications.Toggle` | src/components/screens/MedicationsScreen.tsx:56-60 | a selected id is removed, so it is absent and the selection is shorter. An unselected id is appended at the end after the old selection. Further properties are in ToggleMembership, ToggleKeepsDistinct and ToggleTwice |
| `Medications.ToggleMembership` | src/components/screens/MedicationsScreen.tsx:55-61 | toggling flips the membership of the toggled id and leaves every other id's membership alone |
| `Medications.ToggleKeepsDistinct` | src/components/screens/MedicationsScreen.tsx:56-60 | toggling never introduces a duplicate id |
| `Medications.ToggleTwice` | src/components/screens/MedicationsScreen.tsx:55-61 | toggling the same id twice selects the same ids as before; if the id started unselected, the order is restored too |
| `Medications.ContinueOutcome` | src/components/screens/MedicationsScreen.tsx:63-67 | goes to `/delivery` exactly when the selection is non-empty; otherwise it does nothing |
| `Medications.MedicationsScreen.constructor` | src/components/screens/MedicationsScreen.tsx:27-53 | the list is the three prescribed medications, and every one of them starts selected |
| `Medications.MedicationsScreen.HandleCheckboxChange` | src/components/screens/MedicationsScreen.tsx:55-61 | the selection becomes `Toggle` of the old one; the medication list cannot change, because the frame is the selection field alone |
| `Medications.MedicationsScreen.HandleContinue` | src/components/screens/MedicationsScreen.tsx:63-67 | navigates exactly when Continue is enabled. The error message is shown exactly when Continue is disabled, that is, when nothing is selected |
| `Address.ValidateAddress` | src/components/screens/AddressScreen.tsx:22-24 | accepts an address of at least 10 characters, so an empty address never passes; SuggestionsAreValid shows every built-in suggestion passes |
| `Address.SuggestionsAreValid` | src/components/screens/AddressScreen.tsx:15-24 | every built-in suggestion passes the 10-character check |
| `Address.LowerChar` | src/components/screens/AddressScreen.tsx:94 | each upper-case ASCII letter maps to the same letter in lower case; every other character is kept |
| `Address.ToLower` | src/components/screens/AddressScreen.tsx:94 | lower-cases each character in place and keeps the length |
| `Address.IncludesIsOccurrence` | src/components/screens/AddressScreen.tsx:94 | the substring search answers true exactly when the text occurs at some position |
| `Address.MatchingSuggestions` | src/components/screens/AddressScreen.tsx:93-94 | the filter never yields more suggestions than it was given |
| `Address.MatchingSuggestionsExact` | src/components/screens/AddressScreen.tsx:93-94 | the shown suggestions are exactly those that contain the typed text, ignoring case. Each appears as often as it is listed, and they keep their original order |
| `Address.AddressScreen.constructor` | src/components/screens/AddressScreen.tsx:13-20 | the address starts empty, with no error and no suggestion list |
| `Address.AddressScreen.HandleAddressChange` | src/components/screens/AddressScreen.tsx:26-36 | the address becomes the value, and suggestions show exactly when it is non-empty. An empty value clears the error; a non-empty value sets it exactly when invalid |
| `Address.AddressScreen.HandleSuggestionClick` | src/components/screens/AddressScreen.tsx:38-42 | the suggestion becomes the address, the error and the list are hidden, and a built-in suggestion leaves Continue enabled |
| `Address.AddressScreen.HandleContinue` | src/components/screens/AddressScreen.tsx:44-50 | goes to `/insurance` exactly when the address is valid; otherwise it sets the error and does not navigate |
| `Address.AddressScreen.DisplayedSuggestions` | src/components/screens/AddressScreen.tsx:91-94 | no suggestions while the list is hidden; otherwise exactly the matching built-in ones |
| `Insurance.SetField` | src/components/screens/InsuranceScreen.tsx:29-32 | the named field takes the value and the other fields keep theirs |
| `Insurance.Step` | src/components/screens/InsuranceScreen.tsx:29-56 | a form change updates only the named field, and leaves the status and the manual-entry flag alone |
| `Insurance.StepConsistent` | src/components/screens/InsuranceScreen.tsx:34-43 | every event keeps this invariant: Idle means nothing was started, and Verifying means a completion is still pending |
| `Insurance.RunConsistent` | src/components/screens/InsuranceScreen.tsx:34-56 | the invariant holds after any sequence of events |
| `Insurance.StepOrder` | src/components/screens/InsuranceScreen.tsx:34-43 | from Idle the status can move only to Verifying. Success or Error is entered only by a completion while Verifying |
| `Insurance.CompletionOutcome` | src/components/screens/InsuranceScreen.tsx:38-42 | while verifying, a completion sets Success or Error according to its outcome |
| `Insurance.ScanRestarts` | src/components/screens/InsuranceScreen.tsx:34-35 | a scan restarts verification at Verifying from any status, Success and Error included |
| `Insurance.SubmitGate` | src/components/screens/InsuranceScreen.tsx:51-56 | a manual submit starts verification exactly when provider, number and date of birth are all non-empty; otherwise nothing changes |
| `Insurance.NeverBackToIdle` | src/components/screens/InsuranceScreen.tsx:34-43 | once it has left Idle, the status never returns to Idle, whatever events follow |
| `Insurance.FormEditsKeepStatus` | src/components/screens/InsuranceScreen.tsx:29-32 | editing the form and opening it never change the status |
| `Insurance.SuccessNeedsCompletion` | src/components/screens/InsuranceScreen.tsx:34-43 | the status becomes Success only through a completion that reports success |
| `Insurance.ContinueNeedsSuccessfulCompletion` | src/components/screens/InsuranceScreen.tsx:171 | the handler at lines 58-60 navigates unconditionally, but from the initial screen Continue is enabled only after a successful completion |
| `Insurance.ScanDisabled` | src/components/screens/InsuranceScreen.tsx:88 | Scan is disabled while verifying; whenever it is disabled, Verify is disabled too |
| `Insurance.ScanDisabledWhileOutstanding` | src/components/screens/InsuranceScreen.tsx:88 | Scan is disabled only while a started verification is still outstanding, and a scan disables it |
| `Insurance.VerifyDisabled` | src/components/screens/InsuranceScreen.tsx:132 | Verify is disabled while verifying or while any field is empty; an enabled Verify means the form passes the submit check (see EnabledVerifyStarts) |
| `Insurance.ContinueDisabled` | src/components/screens/InsuranceScreen.tsx:171 | Continue is enabled exactly when the "Insurance verified" card is shown; ContinueNeedsSuccessfulCompletion shows this needs a successful completion |
| `Insurance.EnabledVerifyStarts` | src/components/screens/InsuranceScreen.tsx:132 | clicking an enabled Verify button always starts verification |
| `Insurance.StatusMessage` | src/components/screens/InsuranceScreen.tsx:140-166 | there is no status card exactly when Idle |
| `Insurance.StatusMessagesDistinct` | src/components/screens/InsuranceScreen.tsx:140-166 | Verifying, Success and Error each show their own message |
| `Insurance.InsuranceScreen.constructor` | src/components/screens/InsuranceScreen.tsx:21-27 | the screen starts Idle, with an empty form and the manual form closed |
| `Insurance.InsuranceScreen.HandleChange` | src/components/screens/InsuranceScreen.tsx:29-32 | the new state is `Step` of the old one for a field change |
| `Insurance.InsuranceScreen.SimulateVerification` | src/components/screens/InsuranceScreen.tsx:34-43 | sets Verifying and schedules one completion |
| `Insurance.InsuranceScreen.CompleteVerification` | src/components/screens/InsuranceScreen.tsx:38-42 | a scheduled completion sets Success or Error |
| `Insurance.InsuranceScreen.HandleScanCard` | src/components/screens/InsuranceScreen.tsx:45-49 | the new state is `Step` of the old one for a scan |
| `Insurance.InsuranceScreen.HandleSubmitManual` | src/components/screens/InsuranceScreen.tsx:51-56 | the new state is `Step` of the old one for a manual submit |
| `Insurance.InsuranceScreen.ToggleManual` | src/components/screens/InsuranceScreen.tsx:105 | opens or closes the manual form and changes nothing else |
| `DeliveryMethod.OptionsTable` | src/components/screens/DeliveryMethodScreen.tsx:61-81 | exactly two options, car then drone, with distinct ids covering every method |
| `DeliveryMethod.DeliveryMethodScreen.constructor` | src/components/screens/DeliveryMethodScreen.tsx:59 | no method is chosen at first |
| `DeliveryMethod.DeliveryMethodScreen.HandleSelectMethod` | src/components/screens/DeliveryMethodScreen.tsx:83-85 | the clicked option's method is chosen, replacing any earlier choice |
| `DeliveryMethod.DeliveryMethodScreen.HandleContinue` | src/components/screens/DeliveryMethodScreen.tsx:87-91 | goes to `/summary` exactly when a method is chosen, which is exactly when "Review & Confirm" is enabled; otherwise it does nothing |
| `DeliveryMethod.SelectionHighlightsOneCard` | src/components/screens/DeliveryMethodScreen.tsx:146-150 | after a selection, exactly the clicked option's card is highlighted |
| `Summary.EditTarget` | src/components/screens/SummaryScreen.tsx:13-27 | maps `address`, `medications` and `delivery` to their routes; any other section causes no navigation |
| `Summary.EditTargetsDistinct` | src/components/screens/SummaryScreen.tsx:13-23 | the three edit links lead to three different steps |
| `Summary.SummaryScreen.constructor` | src/components/screens/SummaryScreen.tsx:11 | the order starts not placed |
| `Summary.SummaryScreen.HandleConfirmOrder` | src/components/screens/SummaryScreen.tsx:29-32 | the order becomes placed; confirming again changes nothing, and no operation resets it |
| `Summary.SummaryScreen.HandleEdit` | src/components/screens/SummaryScreen.tsx:13-27 | the handler navigates as `EditTarget` maps the section (see EditTargetsDistinct and Flow.EditLeadsBack) |
| `MedicationType.HandleSelectType` | src/components/screens/MedicationTypeScreen.tsx:15-21 | each choice triggers exactly one navigation: prescription to `/address`, OTC to `/otc-catalog` |
| `MedicationType.OtcSkipsAddress` | src/components/screens/MedicationTypeScreen.tsx:18-19 | the OTC choice does not go to the address step |
| `Flow.FlowShape` | src/components/screens/MedicationTypeScreen.tsx:15-21 | both flows start at the medication-type choice, whose selection gives the second step; both end with delivery then summary, and no step repeats |
| `Flow.PrescriptionJourney` | src/components/screens/MedicationTypeScreen.tsx:15-17 | choosing prescription, a suggested address, a successful scan, the initial selection and a car delivery navigate through exactly the prescription steps, with every Continue enabled when pressed (AddressScreen.tsx:44-50, InsuranceScreen.tsx:58-60, MedicationsScreen.tsx:63-67, DeliveryMethodScreen.tsx:87-91) |
| `Flow.OtcJourney` | src/components/screens/OtcCatalogScreen.tsx:324-330 | choosing OTC, the paracetamol cart and a drone delivery navigate through exactly the OTC steps |
| `Flow.MedicationTypeBackLeavesFlow` | src/components/screens/MedicationTypeScreen.tsx:30-36 | Back from the first step of either flow leads to the same place as Home, which is outside both flows |
| `Flow.AddressBackUndoesStart` | src/components/screens/AddressScreen.tsx:59 | Back from the address step returns to the welcome screen, whose Start leads to the address step; it is not the step before the address in the prescription flow |
| `Flow.CatalogBackIsPredecessor` | src/components/screens/OtcCatalogScreen.tsx:339 | Back from the catalog leads to the step before it in the OTC flow |
| `Flow.DeliveryBackAsWritten` | src/components/screens/DeliveryMethodScreen.tsx:102 | Back always leads to `/medications`: the step before delivery in the prescription flow, but a step the OTC flow never visits |
| `Flow.DeliveryBack` | src/components/screens/DeliveryMethodScreen.tsx:102 | Back resolved by flow type; on the prescription flow it is the screen's own Back |
| `Flow.DeliveryBackIsPredecessor` | src/components/screens/DeliveryMethodScreen.tsx:102 | in either flow, the flow-resolved Back leads to the step before delivery |
| `Flow.ChangeAddressOnlyPrescription` | src/components/screens/DeliveryMethodScreen.tsx:137 | "Change address" leads to a step of the prescription flow that the OTC flow does not have |
| `Flow.EditLeadsBack` | src/components/screens/SummaryScreen.tsx:13-23 | every edit link leads back to an earlier step of the prescription flow; only the delivery link is on the OTC flow |
| `ProgressIndicator.CircleStateAt` | src/components/ProgressIndicator.tsx:20-24 | each circle is current, completed or pending according to how `index+1` compares with the current step, and exactly one of the three holds |
| `ProgressIndicator.Label` | src/components/ProgressIndicator.tsx:26-42 | completed circles show a check mark; all others show `index+1` |
| `ProgressIndicator.Circles` | src/components/ProgressIndicator.tsx:16-24 | there are `totalSteps` circles, each classified by its index |
| `ProgressIndicator.Connectors` | src/components/ProgressIndicator.tsx:45-50 | there are `totalSteps-1` lines, and line `i` is highlighted exactly when circle `i` is completed |
| `ProgressIndicator.CompletedCount` | src/components/ProgressIndicator.tsx:22 | among `n` circles, `currentStep-1` are completed, clamped to 0..n |
| `ProgressIndicator.CurrentCount` | src/components/ProgressIndicator.tsx:21 | one circle is current when the step is in range, and none otherwise |
| `ProgressIndicator.InRangeCounts` | src/components/ProgressIndicator.tsx:20-24 | if `1 <= currentStep <= totalSteps`, exactly one circle is current and exactly `currentStep-1` are completed |
| `ProgressIndicator.CompletedDownwardClosed` | src/components/ProgressIndicator.tsx:22 | every circle before a completed one is completed |
| `SettingsScreen.ProgressColor` | src/components/screens/SettingsScreen.tsx:86-90 | `getProgressColor` branch by branch, including its dead branch; the result is green exactly when `index < step` |
| `SettingsScreen.ProgressColorTwoWay` | src/components/screens/SettingsScreen.tsx:86-90 | a bar is green exactly when `index < step` and gray otherwise; the `index === step - 1` branch is never reached |
| `SettingsScreen.Bars` | src/components/screens/SettingsScreen.tsx:109-118 | a card draws exactly `totalSteps` bars, each coloured by `getProgressColor` |
| `SettingsScreen.GreenBars` | src/components/screens/SettingsScreen.tsx:109-118 | the green bars are the first `min(step, totalSteps)` ones (none for a negative step) |
| `SettingsScreen.IsCompleted` | src/components/screens/SettingsScreen.tsx:92 | an order is completed at `step == totalSteps`, and then every bar of its card is green |
| `SettingsScreen.FooterOf` | src/components/screens/SettingsScreen.tsx:92 | the footer shows "Completed" with a receipt exactly when `step == totalSteps`; otherwise it shows step, total and status |
| `SettingsScreen.OnlyD99887Completed` | src/components/screens/SettingsScreen.tsx:243-291 | of the four sample orders only `#D99887`, at step 3 of 3, is completed |

## Left out

- Presentation is not modelled: toasts, animations, icons, CSS classes and fixed display text. Error toasts become `Error(msg)` outcomes. The success toast of an add to cart becomes `NoOp`.
- Prices are kept as integer cents and take part in no computation. Floating point and `toFixed` formatting are not modelled.
- Product descriptions, images, icons and colours are not modelled, and neither are medication info texts or the order cards' medication lists. Nothing reads them.
- Insurance verification: the 2-second delay and the 80% success probability are not modelled. The outcome is a parameter of `CompleteVerification`.
- `Insurance.InsuranceScreen.CompleteVerification` requires a scheduled completion (`pendingTimers > 0`). The timer callback exists only after a verification has started.
- `Insurance.InsuranceScreen.HandleChange` takes one of the three form fields. The source writes any input `name` into the form, but only these three inputs exist.
- `DeliveryMethod.DeliveryMethodScreen.HandleSelectMethod` takes `car` or `drone`. The source's parameter type also admits `null`, but no option card passes it.
- `Address.LowerChar`: lower-casing is modelled for ASCII letters only. Full Unicode case mapping is not modelled.
- `OtcCatalog.OtcCatalogScreen.ChooseSize` takes the position of the card on screen. The source closes over the product the card was rendered with.
- Browser-history back, `navigate(-1)` in src/components/BackButton.tsx:18, is not modelled. Every screen here passes an explicit previous route.
- The welcome screen and the logo are presentation. Of the welcome screen only the Start button's target is kept, as `Flow.Start`.
- `Navigation.RouteOf` matches a path by exact string equality. React Router also matches case-insensitively and accepts a trailing slash, so `/Address/` shows the address screen while `RouteOf` gives `NotFound`. The library's matching is not modelled.
- `Address.ValidateAddress` counts Unicode scalar values, while `address.length` in the source counts UTF-16 code units. The two differ for characters outside the Basic Multilingual Plane. For example, five "🏠" are 10 units and are accepted by the source, but the model counts 5 and rejects them.
- The remote delivery-options and geocoding calls in src/utils/googlePlaces.ts and the map type declarations are network I/O. They are not modelled.
- Session persistence and flow guards are not modelled. None of the modelled screens reads or writes browser storage or checks prerequisites on entry.
- The order card's expand/collapse toggle and the settings switches are UI-only state.

## Findings

| source | as written | input that shows it | evidently intended | confidence | as-written member | corrected member |
|---|---|---|---|---|---|---|
| src/components/screens/DeliveryMethodScreen.tsx:102 | Back on the delivery screen always goes to `/medications` | an OTC order: medication type → catalog → delivery, then Back | Back returns to the step before delivery in the order's own flow, the catalog for an OTC order | medium, not executed | `Flow.DeliveryBackAsWritten` | `Flow.DeliveryBackIsPredecessor` |
