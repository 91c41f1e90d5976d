# HH Real Estate: the client-side rules, modelled in Dafny

HH Real Estate is a property agency's website with an admin back office.
Almost all of it is React markup around calls to a hosted database.
This project models the rules that the pages apply themselves, one Dafny module per source file:

- **SessionTimeout**: the idle-session monitor. It is a 15-minute sliding-window timer.
  - Five DOM event types re-arm it.
  - `clearSessionTimeout` cancels the pending timer.
  - A teardown function detaches the listeners.
  - The pure state machine is `Monitor` / `Step` / `Run`.
  - The class `IdleSession` holds the module state. Each of its methods is proved to take exactly the step `Step` describes.
- **Currency**: `parseKES`. It keeps the digits and reads them in base 10, with 0 when there are none.
- **VirtualTourButton**: the embed-code selection by precedence-ordered substring tests, and the modal flag.
- **VirtualToursManagement**: the tour form's defaults and field handlers, the "exactly one of property or plot" check, the update-or-insert dispatch, and the preview's copy of the embed selector.
- **WebsiteContent**: the per-row edit buffer. It is overlaid on the stored row with `??`, saved as a four-field update and cleared wholesale on success.
- **PlotsManagement**: the plot update payload and the status and client handlers.
- **ReceiptsManagement**: the receipt total, the new-receipt form and its client check, the insert payload and the receipt view condition.
- **Reports** and **Dashboard**: the filter and sum figures and their null defaults.
- **Home**: the city tally. A loop over an accumulator dictionary is followed by a cap of six entries.
- **PlotsPage**, **PropertyCard**, **SiteVisits**: status badges, image fallback and what each card renders.
- **ProtectedRoute**: the loading / redirect / render decision.

Helper modules:
- `Wrappers` (Option);
- `Text` (`includes` and ASCII `toLowerCase`);
- `Decimal` (digit strings and their values);
- `Aggregates` (the `reduce` sum);
- `Records` (row shapes and badge colours).

Modelling choices:
- Remote calls are not modelled. What a page hands to an insert or update is modelled as a payload value; what a select returns is an input, with `None` for a null result.
- Time is a logical clock in milliseconds.
- The clock readings in `CreateReceiptModal`, `Date.now()` and `new Date().toISOString()`, are parameters.

The window is the constant `SESSION_TIMEOUT_MS` (src/lib/sessionTimeout.ts:1); the model has no duration parameter.

## Model

| member | source | states |
|---|---|---|
| SessionTimeout.Initial | src/lib/sessionTimeout.ts:22-26 | initialisation attaches all five listeners and arms the first timer at once, one full window ahead, with nothing fired |
| SessionTimeout.Tick | src/lib/sessionTimeout.ts:11-13 | time reaches `t`: the pending timer fires, exactly once, exactly when its deadline has come, and is then gone; otherwise it stays as it was; listeners and the last arming are kept |
| SessionTimeout.Rearm | src/lib/sessionTimeout.ts:7-14 | `resetTimeout` leaves one timer, due a full window after now, and changes neither the listeners nor the count of firings |
| SessionTimeout.Step | src/lib/sessionTimeout.ts:7-40 | one input; it has no contract of its own: `StepInvariant`, `ActivityRearms`, `OtherEventsIgnored`, `ClearKeepsListening` and `ClearAndTeardownIdempotent` state what it does |
| SessionTimeout.Run | src/lib/sessionTimeout.ts:7-40 | the inputs in order; it has no contract of its own: `RunInvariant`, `FiredMonotone`, `OneFiringPerArming`, `NoExpiryWhileActive` and `InertStaysSilent` state what it does |
| SessionTimeout.StepInvariant | src/lib/sessionTimeout.ts:7-14 | every input keeps the monitor's invariant: at most one pending timer, due exactly one window after the last arming and still in the future; listeners all attached or none |
| SessionTimeout.RunInvariant | src/lib/sessionTimeout.ts:7-40 | the invariant holds after any sequence of activity, time, clear and teardown |
| SessionTimeout.ActivityRearms | src/lib/sessionTimeout.ts:16-24 | a listened-to event before the deadline re-arms the timer with a whole fresh window from the event's time and leaves everything else alone |
| SessionTimeout.OtherEventsIgnored | src/lib/sessionTimeout.ts:16-24 | an event type outside the five does nothing but let time pass |
| SessionTimeout.ClearKeepsListening | src/lib/sessionTimeout.ts:37-40 | clearing cancels the pending timer and keeps the listeners, so the next activity arms a new timer without firing |
| SessionTimeout.ExpiryKeepsListening | src/lib/sessionTimeout.ts:11-13 | after expiry the listeners stay attached and later activity re-arms a full window |
| SessionTimeout.ClearAndTeardownIdempotent | src/lib/sessionTimeout.ts:28-40 | clearing twice is clearing once; tearing down twice is tearing down once |
| SessionTimeout.FiredMonotone | src/lib/sessionTimeout.ts:11-13 | the number of `onTimeout` calls never decreases |
| SessionTimeout.OneFiringPerArming | src/lib/sessionTimeout.ts:7-14 | firings plus still-pending timers never exceed the timers pending at the start plus the listened-to events seen: one firing per arming |
| SessionTimeout.NoExpiryWhileActive | src/lib/sessionTimeout.ts:16-24 | while listened-to activity keeps coming less than a window apart, with time observed in between also less than a window after the last event, `onTimeout` never runs |
| SessionTimeout.ActiveSessionNeverExpires | src/lib/sessionTimeout.ts:16-26 | from initialisation, activity spaced less than a window apart, with time observed in between, never fires the callback |
| SessionTimeout.NoActivityInTimeOnly | src/lib/sessionTimeout.ts:18-20 | a trace of time passing alone holds no activity |
| SessionTimeout.IdleExpiresExactlyOnce | src/lib/sessionTimeout.ts:11-13 | a full idle window after the last arming fires the callback, and however much more time passes without activity it fires exactly once |
| SessionTimeout.InertStaysSilent | src/lib/sessionTimeout.ts:28-34 | with no listener attached and no timer pending, no input ever fires the callback again |
| SessionTimeout.TeardownSilences | src/lib/sessionTimeout.ts:28-34 | teardown removes exactly the five listeners and cancels the timer; after it neither activity nor time passing invokes `onTimeout` |
| SessionTimeout.ClickPostponesExpiry | src/lib/sessionTimeout.ts:1-26 | idle 810 s, a click, 810 s more: not fired; at 1800 s, 990 s after the click: fired once |
| SessionTimeout.ImmediateTeardown | src/lib/sessionTimeout.ts:26-34 | teardown right after initialisation: later time and clicks never fire the callback |
| SessionTimeout.IdleSession.Init | src/lib/sessionTimeout.ts:6-26 | the constructor adds the five listeners in a loop and then arms the timer: the state is `Initial(t)` and `activityTimeout` is null |
| SessionTimeout.IdleSession.CancelTimers | src/lib/sessionTimeout.ts:8-9 | both timer handles are cancelled and nothing else changes |
| SessionTimeout.IdleSession.ResetTimeout | src/lib/sessionTimeout.ts:7-14 | cancels what is pending, then arms a single timer for a full window from now |
| SessionTimeout.IdleSession.Advance | src/lib/sessionTimeout.ts:11-13 | time passes; the pending timer fires once its deadline has come; the new state is `Step(old, Advance(t))` |
| SessionTimeout.IdleSession.Activity | src/lib/sessionTimeout.ts:18-20 | the handler runs `resetTimeout` only for an attached event type; the new state is `Step(old, Activity(t, e))` |
| SessionTimeout.IdleSession.Clear | src/lib/sessionTimeout.ts:37-40 | `clearSessionTimeout`: the new state is `Step(old, Clear)`; `activityTimeout` stays null, so cancelling it does nothing |
| SessionTimeout.IdleSession.Teardown | src/lib/sessionTimeout.ts:28-34 | a loop removes the five listeners, then both timers are cancelled: the new state is `Step(old, Teardown)` |
| SessionTimeout.UnmountAfterActivity | src/components/admin/AdminLayout.tsx:40-50 | the admin shell's unmount order, cleanup and then clear: the callback never runs afterwards |
| Currency.DigitsOf | src/lib/currency.ts:11 | the kept characters are all digits, drawn from the input, and none are kept exactly when the input has no digit |
| Currency.ParseKES | src/lib/currency.ts:10-13 | the result is never negative and is 0 when the input has no digit |
| Currency.DigitsOfDigits | src/lib/currency.ts:11 | a string of digits is its own filter |
| Currency.DigitsOfAppend | src/lib/currency.ts:11 | filtering distributes over concatenation |
| Currency.DigitsOfIdempotent | src/lib/currency.ts:11-12 | filtering twice is filtering once, and `parseKES(s) == parseKES(digitsOf(s))` |
| Currency.ParseKESRoundTrip | src/lib/currency.ts:11-12 | any string whose digits are the decimal writing of n, with other characters anywhere, parses to n |
| Currency.ParseKESOfShow | src/lib/currency.ts:12 | the decimal writing of n parses back to n |
| Currency.ZerosValue | src/lib/currency.ts:12 | leading zeros do not change the base-10 value |
| Currency.ParseKESLeadingZeros | src/lib/currency.ts:12 | zeros written before n's digits are ignored |
| Currency.ParseKESDropsMinus | src/lib/currency.ts:11-12 | the minus sign is stripped: "-250" parses to 250 |
| Decimal.Show | src/lib/currency.ts:12 | the decimal writing is a non-empty digit string without a leading zero |
| Decimal.ValueOfShow | src/lib/currency.ts:12 | the value of n's decimal writing is n |
| Decimal.LeadingZero | src/lib/currency.ts:12 | one leading zero leaves the value unchanged |
| Text.ContainsIff | src/components/VirtualTourButton.tsx:13-21 | `includes` holds exactly when the pattern occurs at some position |
| Text.Contains | src/components/VirtualTourButton.tsx:13 | `includes`; it has no contract of its own: `ContainsIff` states it against an independent definition of an occurrence |
| Text.ContainsInside | src/components/VirtualTourButton.tsx:18-25 | a pattern in the middle part occurs in the whole |
| Text.Lower | src/pages/Plots.tsx:20 | `toLowerCase` keeps the length and lower-cases each ASCII letter in place, leaving every other character alone |
| Text.LowerIdempotent | src/pages/Plots.tsx:20 | lower-casing twice is lower-casing once |
| VirtualTourButton.TemplateFor | src/components/VirtualTourButton.tsx:12-26 | `<iframe` in the URL means pass-through, ahead of every host test; then `kuula.co`; then `matterport.com`; otherwise generic; each as an if-and-only-if |
| VirtualTourButton.EmbedCode | src/components/VirtualTourButton.tsx:12-26 | `getEmbedCode`; it has no contract of its own: `EmbedCodeWraps`, `EmbedCodeIsIframe`, `EmbedCodeIdempotent` and `KuulaBeforeMatterport` state what it returns |
| VirtualTourButton.EmbedCodeWraps | src/components/VirtualTourButton.tsx:13-25 | pass-through returns the URL unchanged; every other case is the fixed prefix, the URL verbatim, then that template's fixed attributes, and the URL can be cut back out |
| VirtualTourButton.KuulaBeforeMatterport | src/components/VirtualTourButton.tsx:17-23 | a URL naming both hosts gets the Kuula template |
| VirtualTourButton.EmbedCodeIsIframe | src/components/VirtualTourButton.tsx:13-25 | every embed code contains `<iframe` |
| VirtualTourButton.EmbedCodeIdempotent | src/components/VirtualTourButton.tsx:13-15 | an embed code is passed through unchanged, so embedding twice is embedding once |
| VirtualTourButton.TourButton.constructor | src/components/VirtualTourButton.tsx:10 | the modal starts closed |
| VirtualTourButton.TourButton.Open | src/components/VirtualTourButton.tsx:31 | the button's click opens the modal |
| VirtualTourButton.TourButton.Close | src/components/VirtualTourButton.tsx:44 | the close button closes it |
| VirtualTourButton.TourButton.Modal | src/components/VirtualTourButton.tsx:38-62 | the modal is rendered iff open, with the tour's title and its embed code; the description paragraph appears iff the description is non-empty |
| VirtualToursManagement.FormOf | src/pages/admin/VirtualToursManagement.tsx:160-171 | a new form has no id and no links, empty title, description, URL and thumbnail, type Kuula and is active; an edited tour's form carries its id and every one of its fields |
| VirtualToursManagement.Submit | src/pages/admin/VirtualToursManagement.tsx:193-217 | rejected with "no link" iff neither link is set, with "both" iff both are; saved iff exactly one is; the save is an update by the tour's id iff the tour has one, else an insert, and carries the form unchanged |
| VirtualToursManagement.NewFormRejected | src/pages/admin/VirtualToursManagement.tsx:160-171 | an untouched new form fails validation for lack of a link |
| VirtualToursManagement.Choice | src/pages/admin/VirtualToursManagement.tsx:313 | the selected value or null: the choice is a link iff the selected value is non-empty |
| VirtualToursManagement.ApplyEdit | src/pages/admin/VirtualToursManagement.tsx:240-329 | each text, type or flag handler writes its own field and nothing else; each selector writes its choice, clears the other link and keeps every other field; no handler changes the id |
| VirtualToursManagement.EditsKeepAtMostOneLink | src/pages/admin/VirtualToursManagement.tsx:313-329 | choosing a property or a plot leaves at most one link set, and no edit breaks "at most one link" |
| VirtualToursManagement.ChoiceDecidesSubmission | src/pages/admin/VirtualToursManagement.tsx:209-217 | after choosing through either selector, `handleSubmit` saves iff the choice was non-empty |
| VirtualToursManagement.PreviewEmbedCode | src/pages/admin/VirtualToursManagement.tsx:371-385 | the preview's own copy of `getEmbedCode`; it has no contract of its own: `PreviewMatchesButton` states that it equals the button's |
| VirtualToursManagement.PreviewMatchesButton | src/pages/admin/VirtualToursManagement.tsx:371-385 | the preview's `getEmbedCode` equals the button's for every URL |
| VirtualToursManagement.TourModal.constructor | src/pages/admin/VirtualToursManagement.tsx:160-171 | the form starts as the tour, or as the defaults when there is none |
| VirtualToursManagement.TourModal.Edit | src/pages/admin/VirtualToursManagement.tsx:240-329 | each handler replaces its field; the selectors clear the other link; "at most one link" is preserved |
| VirtualToursManagement.TourModal.HandleSubmit | src/pages/admin/VirtualToursManagement.tsx:207-218 | takes exactly the decision `Submit` describes: the "no link" alert iff neither link is set, the "both" alert iff both are, otherwise a save of the form, an update by the tour's id iff the tour has one |
| WebsiteContent.FieldCount | src/pages/admin/WebsiteContent.tsx:123 | an entry has at most four keys and none exactly when it is the empty edit |
| WebsiteContent.ApplyChange | src/pages/admin/WebsiteContent.tsx:44-52 | the named field takes the new value and the other three keep theirs, so the entry has at least one key |
| WebsiteContent.Overlay | src/pages/admin/WebsiteContent.tsx:70-74 | each shown value is the edited one whenever present, else the stored one; id, section and order are the stored ones |
| WebsiteContent.NoEditIsStoredRow | src/pages/admin/WebsiteContent.tsx:54-61 | with no edits the merged row is the stored row |
| WebsiteContent.FalsyEditsShow | src/pages/admin/WebsiteContent.tsx:70-74 | an edited `""` title or `false` flag is shown, not replaced by the stored value (`??`, not a truthiness test) |
| WebsiteContent.UpdateOf | src/pages/admin/WebsiteContent.tsx:28-33 | the update is keyed by the row's id and carries every column it writes: storing it on the row it came from changes nothing |
| WebsiteContent.SavedIsDisplayed | src/pages/admin/WebsiteContent.tsx:28-33 | the update writes the displayed title, content, image and flag |
| WebsiteContent.Stored | src/pages/admin/WebsiteContent.tsx:28-34 | an update never changes the row's id, section or display order |
| WebsiteContent.SaveRoundTrip | src/pages/admin/WebsiteContent.tsx:28-61 | storing the saved update gives back exactly the merged row that was on screen |
| WebsiteContent.ContentEditor.constructor | src/pages/admin/WebsiteContent.tsx:11 | the buffer starts empty |
| WebsiteContent.ContentEditor.HandleChange | src/pages/admin/WebsiteContent.tsx:44-52 | sets one field of one entry; other fields and all other ids keep their edits; that row's save button is then shown |
| WebsiteContent.ContentEditor.SaveSucceeded | src/pages/admin/WebsiteContent.tsx:40 | a successful save clears the whole buffer, unsaved edits of other rows included |
| WebsiteContent.ContentEditor.SaveButtonShown | src/pages/admin/WebsiteContent.tsx:123 | shown iff the row has an entry with at least one key |
| WebsiteContent.ContentEditor.Displayed | src/pages/admin/WebsiteContent.tsx:70-74 | a row without an entry is shown as stored |
| WebsiteContent.ContentEditor.HandleSave | src/pages/admin/WebsiteContent.tsx:54-61 | the update is for that row's id and stores exactly what was displayed |
| WebsiteContent.ButtonShownIffPending | src/pages/admin/WebsiteContent.tsx:44-52 | in a buffer only `handleChange` has filled, the button is shown iff the row has an entry |
| PlotsManagement.UpdateDataOf | src/pages/admin/PlotsManagement.tsx:35-37 | the payload has a status iff one is given and non-empty, and a client key iff one is given, null included |
| PlotsManagement.BuildUpdateData | src/pages/admin/PlotsManagement.tsx:35-37 | the two conditional assignments build exactly that payload |
| PlotsManagement.StatusChange | src/pages/admin/PlotsManagement.tsx:51-53 | a status change carries the status only |
| PlotsManagement.AssignClient | src/pages/admin/PlotsManagement.tsx:55-60 | a client choice sends that client with "Sold"; the empty choice sends null with "Available" |
| PlotsManagement.Apply | src/pages/admin/PlotsManagement.tsx:39-42 | a key present in the payload overwrites its column and an absent key keeps it; every other column stays as it was |
| PlotsManagement.StatusChangeKeepsClient | src/pages/admin/PlotsManagement.tsx:51-53 | changing the status leaves the client untouched |
| PlotsManagement.EmptyStatusIsNoop | src/pages/admin/PlotsManagement.tsx:36 | choosing an empty status writes nothing |
| PlotsManagement.AssignmentSoldIffClient | src/pages/admin/PlotsManagement.tsx:55-60 | after an assignment the plot is Sold iff it has a client |
| PlotsManagement.StatusChangeCanOrphanClient | src/pages/admin/PlotsManagement.tsx:51-53 | "Sold iff client" is not kept in general: setting a sold plot to Available keeps its client |
| ReceiptsManagement.TotalRevenueAdds | src/pages/admin/ReceiptsManagement.tsx:48 | the total is 0 for no receipts and adds up over any split of the list |
| ReceiptsManagement.TotalRevenueBounds | src/pages/admin/ReceiptsManagement.tsx:48 | with non-negative amounts the total is at least every single amount |
| ReceiptsManagement.TotalRevenue | src/pages/admin/ReceiptsManagement.tsx:48 | 0 without receipts; `TotalRevenueAdds` and `TotalRevenueBounds` state how it adds up |
| ReceiptsManagement.DatePart | src/pages/admin/ReceiptsManagement.tsx:208 | the date is the prefix of the ISO time stamp up to, not including, its first `T` |
| ReceiptsManagement.DefaultForm | src/pages/admin/ReceiptsManagement.tsx:201-210 | the number is "RCP-" and the time stamp's digits; no client or links; amount 0; "Cash"; the date is the date part of the ISO time stamp |
| ReceiptsManagement.OrNull | src/pages/admin/ReceiptsManagement.tsx:245-246 | the value or null: null iff empty, else the value itself |
| ReceiptsManagement.InsertPayload | src/pages/admin/ReceiptsManagement.tsx:241-252 | the insert row; it has no contract of its own: `InsertPayloadRoundTrip` states that only empty links become null and the rest is copied |
| ReceiptsManagement.InsertPayloadRoundTrip | src/pages/admin/ReceiptsManagement.tsx:241-252 | only empty property and plot choices become null; every other field is copied verbatim, so the form can be read back from the payload |
| ReceiptsManagement.Submission | src/pages/admin/ReceiptsManagement.tsx:258-265 | rejected iff no client is chosen; otherwise the insert payload of the form |
| ReceiptsManagement.BothLinksAccepted | src/pages/admin/ReceiptsManagement.tsx:258-265 | a receipt may name both a property and a plot; both reach the payload |
| ReceiptsManagement.DefaultFormRejected | src/pages/admin/ReceiptsManagement.tsx:201-210 | an untouched form has no client and is rejected |
| ReceiptsManagement.ReceiptView | src/pages/admin/ReceiptsManagement.tsx:155 | the receipt view is rendered iff a receipt is selected and the company config is loaded |
| ReceiptsManagement.ApplyEdit | src/pages/admin/ReceiptsManagement.tsx:286-385 | each of the eight `onChange` handlers writes its own field of the form and leaves the other seven as they were |
| ReceiptsManagement.CreateReceiptModal.constructor | src/pages/admin/ReceiptsManagement.tsx:201-210 | the form starts at the defaults |
| ReceiptsManagement.CreateReceiptModal.Edit | src/pages/admin/ReceiptsManagement.tsx:286-385 | each handler replaces one field; only the client selector changes the client |
| ReceiptsManagement.CreateReceiptModal.HandleSubmit | src/pages/admin/ReceiptsManagement.tsx:258-265 | takes exactly the decision `Submission` describes: the alert iff no client is chosen, otherwise the insert payload of the form, from which the form reads back |
| Reports.SoldRows | src/pages/admin/Reports.tsx:23-27 | the filter keeps exactly the rows whose status is exactly "Sold", never more rows than given |
| Reports.CountOf | src/pages/admin/Reports.tsx:30 | the count is at most the list length, and 0 iff no entry matches |
| Reports.SoldCount | src/pages/admin/Reports.tsx:23-26 | 0 for a null list, never more than the rows given; `SoldCountCounts` fixes it as the number of rows exactly "Sold" |
| Reports.SoldRevenue | src/pages/admin/Reports.tsx:24-27 | 0 for a null list; `SoldFiguresAdd` states that it adds up over any split |
| Reports.TotalRevenue | src/pages/admin/Reports.tsx:29 | 0 for a null list; `TotalRevenueAgrees` ties it to the receipts page's total |
| Reports.PendingVisits | src/pages/admin/Reports.tsx:30 | 0 for a null list, never more than the visits, and 0 for a list iff no visit is exactly "Pending" |
| Reports.Stats | src/pages/admin/Reports.tsx:23-39 | each figure comes from its own list alone: the sold count and revenue of the properties and of the plots, the receipt total and the pending visits |
| Reports.CombinedRevenue | src/pages/admin/Reports.tsx:111 | property revenue plus plot revenue, and 0 before the stats load |
| Reports.SoldRowsAppend | src/pages/admin/Reports.tsx:23-27 | filtering distributes over concatenation |
| Reports.SoldCountCounts | src/pages/admin/Reports.tsx:23 | the sold count equals the number of rows whose status is exactly "Sold" |
| Reports.SoldFiguresAdd | src/pages/admin/Reports.tsx:23-27 | the sold count and the sold revenue add up over any split of the list |
| Reports.SoldCountBounds | src/pages/admin/Reports.tsx:23-26 | the sold count never exceeds the list length and is 0 iff nothing is sold |
| Reports.MissingListsGiveZero | src/pages/admin/Reports.tsx:23-30 | null result lists give 0 for every figure |
| Reports.StatusMatchIsExact | src/pages/admin/Reports.tsx:23-30 | matching is case-sensitive: "sold" is no sale and "pending" no pending visit; a "Sold" row counts its price |
| Reports.TotalRevenueIndependent | src/pages/admin/Reports.tsx:29 | the receipt total does not depend on what was sold or on the visits |
| Reports.CombinedRevenueSplits | src/pages/admin/Reports.tsx:111 | the combined line is the property revenue plus the plot revenue, and 0 before the stats load |
| Reports.TotalRevenueAgrees | src/pages/admin/Reports.tsx:29 | the reports' receipt total equals the receipts page's total for the same amounts |
| Dashboard.OrZero | src/pages/admin/Dashboard.tsx:38-45 | a null count becomes 0; a present one is kept |
| Dashboard.TotalRevenue | src/pages/admin/Dashboard.tsx:36 | 0 for a null list; `MissingAmountsIgnored` states that it is the sum of the amounts present |
| Dashboard.MissingAmountsIgnored | src/pages/admin/Dashboard.tsx:36 | the total is the sum of the amounts that are present |
| Dashboard.NullReceiptsGiveZero | src/pages/admin/Dashboard.tsx:36 | a null or empty receipts list gives a total of 0 |
| Dashboard.StatsOf | src/pages/admin/Dashboard.tsx:36-46 | each count is the one given, or 0 when it is null; the total is `TotalRevenue` of the amounts, so 0 for a null list |
| Dashboard.StatCards | src/pages/admin/Dashboard.tsx:49-86 | exactly six cards, with fixed names in a fixed order, five counts and one money value, each taken from the stats or 0 when they are absent |
| Dashboard.CardNamesDistinct | src/pages/admin/Dashboard.tsx:49-86 | the six card names are pairwise distinct |
| Home.CountCities | src/pages/Home.tsx:53-62 | the reducer loop and the six-entry cap compute exactly `CitiesData`: the cities in first-occurrence order with their row counts |
| Home.Tally | src/pages/Home.tsx:53-61 | one entry per distinct city in first-occurrence order, each with its number of rows |
| Home.CitiesData | src/pages/Home.tsx:60-62 | at most six entries, a prefix of the tally, the whole tally when it has six or fewer |
| Home.CitiesDistinct | src/pages/Home.tsx:53-58 | the tallied cities are pairwise distinct |
| Home.CitiesAreCounted | src/pages/Home.tsx:53-58 | a city is tallied iff at least one row has it |
| Home.EmptyCityNotCounted | src/pages/Home.tsx:54 | rows with an empty or missing city are not counted under any name |
| Home.CountSumSnoc | src/pages/Home.tsx:55 | one more row adds one to at most one of the distinct cities |
| Home.CountSumNew | src/pages/Home.tsx:55 | a row for a city outside a list does not change that list's counts |
| Home.NewCitySum | src/pages/Home.tsx:54-56 | a row with a city not seen before appends that city and adds 1 to the total of the counts |
| Home.CountsSumToRows | src/pages/Home.tsx:53-58 | before the cap, the counts add up to the number of rows with a non-empty city |
| Home.CitiesDataFacts | src/pages/Home.tsx:53-62 | at most six entries, a prefix of the full tally, distinct non-empty cities, each count the exact number of rows for that city and at least 1 |
| PlotsPage.StatusColor | src/pages/Plots.tsx:19-30 | green iff the lower-cased status is "available", yellow iff "booked", red iff "sold"; gray otherwise |
| PlotsPage.StatusIcon | src/pages/Plots.tsx:32-38 | the cross icon iff the lower-cased status is "sold" |
| PlotsPage.SoldTo | src/pages/Plots.tsx:93-98 | the "Sold to" block is rendered iff the status is sold in any case and a client is joined, and names that client |
| PlotsPage.InquireShown | src/pages/Plots.tsx:100 | "Inquire Now" when the lower-cased status is "available"; it has no contract of its own: `BadgeIconAndBlocksAgree` and `SoldToExcludesInquire` state it |
| PlotsPage.CaseInsensitive | src/pages/Plots.tsx:19-38 | colour and icon depend on the status only up to ASCII case |
| PlotsPage.BadgeIconAndBlocksAgree | src/pages/Plots.tsx:19-104 | the cross icon goes with the red badge; "Sold to" with red and a client; "Inquire Now" with green |
| PlotsPage.SoldToExcludesInquire | src/pages/Plots.tsx:93-104 | "Sold to" and "Inquire Now" are never both rendered |
| PlotsPage.UpperCaseSold | src/pages/Plots.tsx:19-38 | "SOLD" gets the red badge and the cross icon |
| PlotsPage.CapitalisedAvailable | src/pages/Plots.tsx:19-22 | "Available" is green |
| PlotsPage.PendingIsGray | src/pages/Plots.tsx:27-28 | a status without a case, such as "Pending", is gray |
| PropertyCard.StatusColor | src/components/PropertyCard.tsx:10-21 | green iff the lower-cased status is "active", blue iff "open house", red iff "sold"; gray otherwise |
| PropertyCard.PendingIsGray | src/components/PropertyCard.tsx:10-21 | "Pending" is gray, and the colour ignores ASCII case |
| PropertyCard.OpenHouseIsBlue | src/components/PropertyCard.tsx:14-15 | "Open House" is blue |
| PropertyCard.ImageSrc | src/components/PropertyCard.tsx:27 | an empty image URL is replaced by the fixed fallback; a non-empty one is used unchanged; the source is never empty |
| PropertyCard.AgentLine | src/components/PropertyCard.tsx:60-65 | the agent line is rendered iff the agent name is non-empty, and shows that name |
| PropertyCard.TourButton | src/components/PropertyCard.tsx:67-69 | the tour button is rendered iff a tour is joined and active, and is given that tour |
| PropertyCard.DeactivatedTourHidden | src/components/PropertyCard.tsx:67-69 | an inactive tour hides the button and the same tour active shows it; the image, the agent line and the badge are unchanged |
| SiteVisits.StatusColor | src/pages/admin/SiteVisitsManagement.tsx:35-48 | yellow iff exactly "Pending", blue iff "Scheduled", green iff "Completed", red iff "Cancelled"; gray otherwise |
| SiteVisits.OptionsColored | src/pages/admin/SiteVisitsManagement.tsx:93-96 | every status the select offers has a non-gray colour, each a different one |
| SiteVisits.CaseSensitive | src/pages/admin/SiteVisitsManagement.tsx:36-46 | "pending" and "PENDING" are gray |
| SiteVisits.OnStatusChange | src/pages/admin/SiteVisitsManagement.tsx:88-90 | the mutation is given the row's id and the chosen status |
| SiteVisits.Apply | src/pages/admin/SiteVisitsManagement.tsx:22-28 | the update changes only the status, and only of the row with that id |
| SiteVisits.ChosenOptionShown | src/pages/admin/SiteVisitsManagement.tsx:22-44 | choosing an option stores it, gives the row a non-gray colour and changes nothing else |
| SiteVisits.NotesLine | src/pages/admin/SiteVisitsManagement.tsx:78-82 | the notes paragraph is rendered iff the notes are non-empty, and shows them |
| ProtectedRoute.Decide | src/components/admin/ProtectedRoute.tsx:8-20 | spinner iff loading; redirect to /admin/login with replace iff not loading and no user; the children iff not loading and a user |
| ProtectedRoute.LoadingIgnoresUser | src/components/admin/ProtectedRoute.tsx:8-14 | while loading, the outcome is the spinner whoever the user is |
| ProtectedRoute.ChildrenNeedUser | src/components/admin/ProtectedRoute.tsx:8-20 | the children are reached only with a user after loading; every input has one of the three outcomes |

## Left out

- Backend calls are not modelled. The selects, inserts, updates, deletes and uploads, and the react-query caching and invalidation, are remote I/O. Only the payloads handed to them are modelled, and the lists they return are inputs.
- Concurrent fetching (`Promise.all`) in Dashboard and Reports is not modelled; the result lists are inputs.
- `formatKES`, `toLocaleString` and `toLocaleDateString` are locale formatting by the platform, so they are not modelled; a card's money value is the amount handed to `formatKES`.
- JavaScript numbers are not modelled; prices and amounts are unbounded integers.
- Currency.ParseKES: `parseInt` on more digits than a double holds exactly loses precision; the model returns the exact value.
- ReceiptsManagement.CreateReceiptModal.Edit: the amount input's `Number(value)` can give a fraction or NaN; the model's amount is an integer.
- Markup, CSS classes (badges are a colour enum), the HTML that `dangerouslySetInnerHTML` parses, and the consequences of unescaped URLs are not modelled; the embed code is a string.
- Printing and the receipt "PDF" in src/components/ReceiptGenerator.tsx are browser plumbing; ReceiptGenerator is not part of this model.
- The CRUD and upload forms of ClientsManagement and PropertiesManagement are not part of this model.
- Layout and routing (AdminLayout, App, Navbar, Footer) are not part of this model. The admin shell's unmount order appears only as the trace in `SessionTimeout.UnmountAfterActivity`.
- SessionTimeout.IdleSession.Init: only one initialisation lifecycle is modelled. A second `initializeSessionTimeout` without a teardown would attach a second handler, which the set of attached event types does not capture.
- SessionTimeout.IdleSession.Advance: a fired timer's stale `timeoutId` is modelled as no pending timer. `clearTimeout` on a fired timer does nothing, so the two agree.
- SessionTimeout.IdleSession.Advance: real `setTimeout` delays and timer drift are replaced by a logical clock; a time stamp earlier than the clock reads as the clock.
- Text.Lower: `toLowerCase` is modelled for ASCII letters only; other Unicode case mappings are not modelled.
- Home.CountCities: `Object.entries` lists integer-like keys such as "2024" first in ascending order; the model keeps every key in insertion order, which is right only for non-numeric city names.
- The unused search `filters` state of the Home page is not modelled.
- Reports: the raw `properties`, `plots` and `receipts` lists that `queryFn` also returns are never rendered, so they are not modelled.
- VirtualToursManagement.Submit: an edited tour's form is the row of `select('*, property:properties(*), plot:plots(*)')` (src/pages/admin/VirtualToursManagement.tsx:19, :161), so the update at :196 also sends the joined `property` and `plot` objects, which the backend may reject as unknown columns; `TourForm` holds only the tour's own columns, so these join objects are not modelled.
- VirtualToursManagement.TourModal.HandleSubmit: the same join objects in the update payload are not modelled.
- VirtualToursManagement.Submit: models `handleSubmit` only. The browser's constraint validation runs first and blocks the submit when the title is empty (`required`, src/pages/admin/VirtualToursManagement.tsx:238), when the tour URL is empty (`required`, :286) or when the thumbnail is not a valid URL (`type="url"`, :301); that validation is not modelled.
- ReceiptsManagement.Submission: models `handleSubmit` only. The browser's constraint validation runs first: the client select is `required` (src/pages/admin/ReceiptsManagement.tsx:296) and so is the amount (:348); that validation is not modelled.
- Home.CountCities: the accumulator is a plain object (src/pages/Home.tsx:53-56), so a city named `__proto__` reads the prototype and is never listed, and one named `constructor` starts from the inherited function and gets a string count; the model treats every name as an ordinary key.
- Timestamps (`created_at`, `updated_at`) and table columns that no modelled rule reads are omitted from the records.
- Plot dimensions and other plain field rendering are not modelled.
