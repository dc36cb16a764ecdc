# BluRide rider app — a verified model of its state and input logic

This project models the logic of the BluRide ride-hailing web app (Next.js and zustand), in Dafny.

**Stores**
- The ride store covers trip planning: pickup, destination, ride type and the fare estimate, plus the shared-ride split count.
- It also holds the loyalty balance with its threshold discount, and the booking lifecycle: book, cancel, complete.
- The notification store and the authentication store are modelled too.

**Formatters and validators**
- The add-card form: card-number grouping, `MM/YY` expiry, CVV, card brand, validation.
- The sign-in rules.
- The keyword fallback of the support-chat endpoint.
- The FAQ chatbot and FAQ search of the help centre.
- The place search of the location picker.
- The relative-time labels and icons of the notification centre.

**Page state machines**
- payment methods, favourites, the ride-completed screen, the complaint flow, onboarding;
- the driver chat, the in-app call screen, and the location picker's handlers.

**How it is modelled**
- Stores and pages whose handlers update state are classes, with `modifies` clauses. Each method's postcondition ties the new state to a pure function of the old one. The properties are lemmas about those functions, together with class invariants (`Valid()`).
- Pure code is modelled as functions:
  - formatters, lookups, filters;
  - derived values such as the fare shown or the unread count.
- Money is an exact `real`. `Math.round(x * 100) / 100` is written out as `RoundToCents`.
- A JavaScript number that can be NaN is `JsNumber`, because the fare-rate table has no entry for the `auto` ride type.
- Several inputs are passed in as parameters:
  - the clock, generated ids and random choices;
  - the geolocation fix;
  - the outcome of the language-model call.

Modules: `Wrappers` (Option), `Lists` (filter, count, subsequence, find-first), `Text` (JavaScript string helpers), `Rides`, `Notifications`, `Auth`, `CardForm`, `SignIn`, `ChatApi`, `Help`, `LocationPicker`, `CallScreen`, `PaymentMethods`, `Favorites`, `RideCompletion`, `Complaint`, `Onboarding`, `DriverChat`.

Helpers with no contract of their own (they appear inside the contracts listed below):
- `Text` mirrors the JavaScript built-ins:
  - `Trim` is `String.prototype.trim`, with `TrimStart`/`TrimEnd` its two halves;
  - `ToLower` is `toLowerCase` (ASCII letters only) and `Contains` is `includes`;
  - `NatToString` is `toString` of a non-negative integer and `PadStart2` is `padStart(2, "0")`;
  - `Split` is `split` on one character and `Join` is `join`;
  - `Digits` is `replace(/[^0-9]/g, "")`, `RemoveWhitespace` is `replace(/\s/g, "")`, and `IsBlank` is `!s.trim()`.
- `Help.GetFaqReply` is `getFaqReply` (src/app/help/page.tsx:166-175) on the page's own FAQ table; its properties are those of `Help.FaqReply`. The chat panel holds that table as its `faqs` field.
- `LocationPicker.Settled` is what the place list shows once every armed search timer has fired (src/app/booking/location/page.tsx:114-122): the newest timer's results, or the current list when none is armed.
- `ChatApi.KeyMatches` is the keyword loop's test (src/app/api/chat/route.ts:107).
- `Complaint.SubmitEnabled` is the button's `disabled` test (src/app/complain/page.tsx:201); `Complaint.SubmitAccepted` is the handler's guard (src/app/complain/page.tsx:75-78).
- `Favorites.CanAdd` is the add handler's guard (src/app/favorites/page.tsx:96-100).
- `RideCompletion.CompletePage.Fare` is the fare line (src/app/booking/complete/page.tsx:53), which is `RideCompletion.DisplayedFare` of the store's ride and estimate.
- `DriverChat.ReplyScheduled` is the effect's test (src/app/chat/page.tsx:100-102); `DriverChat.CountFrom` counts one kind of sender, for the invariant.
- `Lists.CountWhere` counts the elements that satisfy a predicate; `Lists.FilterLength` proves a filter keeps exactly that many.

## Model

| member | source | states |
|---|---|---|
| Rides.FareRate | src/stores/ride-store.ts:30-35 | the rate lookup is partial: it has no rate exactly for `auto`, and every listed rate is positive |
| Rides.RoundToCents | src/stores/ride-store.ts:106 | the result is a whole number of cents within half a cent of the amount (halves go up) |
| Rides.RoundToCentsKeepsCents | src/stores/ride-store.ts:106 | rounding leaves an amount that is already whole cents unchanged |
| Rides.RoundToCentsMonotone | src/stores/ride-store.ts:106 | rounding to cents preserves order |
| Rides.RoundedFareAtLeastBase | src/stores/ride-store.ts:104-106 | a fare of at least the base fare of 5 stays at least 5 after rounding |
| Rides.Distance | src/stores/ride-store.ts:99-102 | the simplified distance is non-negative whenever the square root is |
| Rides.EstimateFare | src/stores/ride-store.ts:91-107 | the fare is 0 without both locations and NaN for `auto`; otherwise it is the base fare plus distance × rate, rounded to cents and at least 5 |
| Rides.DiscountPercent | src/stores/ride-store.ts:76-81 | the discount is 10 exactly when the balance is at least 100 points, else 0 |
| Rides.ApplyDiscount | src/stores/ride-store.ts:83-89 | below 100 points the fare is unchanged; otherwise it is 90% of the fare to the cent; NaN stays NaN and nothing else becomes NaN |
| Rides.DiscountNeverRaisesFare | src/stores/ride-store.ts:83-89 | the discount never raises a non-negative whole-cent fare |
| Rides.ClampSplitCount | src/stores/ride-store.ts:72-74 | the split count is always in 2..4; a count already in range is kept, and others go to the nearer bound |
| Rides.CompletedRide | src/stores/ride-store.ts:154-162 | the history entry is the ride with status completed, rating, feedback and completion time set, and every other field as it was |
| Rides.RideStore.constructor | src/stores/ride-store.ts:41-51 | the initial state: no trip, Economy, fare 0, split 2, 40 points, 20 points per ride; the fare invariant holds |
| Rides.RideStore.CalculateFare | src/stores/ride-store.ts:91-107 | the stored estimate is the fare of the current pickup, destination and ride type |
| Rides.RideStore.SetPickup | src/stores/ride-store.ts:53-56 | only the pickup changes, and the estimate is recomputed for it; the estimate invariant is kept |
| Rides.RideStore.SetDestination | src/stores/ride-store.ts:58-61 | only the destination changes, and the estimate is recomputed for it; the estimate invariant is kept |
| Rides.RideStore.SetRideType | src/stores/ride-store.ts:63-66 | only the ride type changes, and the estimate is recomputed for it; the estimate invariant is kept |
| Rides.RideStore.SetSharedRide | src/stores/ride-store.ts:68-70 | stores the shared-ride flag and keeps the invariant |
| Rides.RideStore.SetSplitCount | src/stores/ride-store.ts:72-74 | stores the clamped split count, which stays in 2..4 |
| Rides.RideStore.BookRide | src/stores/ride-store.ts:109-141 | the current ride is confirmed and carries the discounted estimate; it has a split count exactly when the ride is shared |
| Rides.RideStore.CancelRide | src/stores/ride-store.ts:143-149 | a current ride becomes cancelled and nothing else about it changes; no ride stays no ride |
| Rides.RideStore.CompleteRide | src/stores/ride-store.ts:151-177 | adds 20 points even without a ride; prepends the completed ride to the history; clears the ride and resets the trip fields (fare 0 again); keeps the ride type |
| Rides.RideStore.LoadRideHistory | src/stores/ride-store.ts:179-218 | the history becomes the two fixed past rides |
| Notifications.MarkedRead | src/stores/notification-store.ts:36-41 | entries with the id become read; every other entry, the length and the order are unchanged |
| Notifications.WithoutId | src/stores/notification-store.ts:45-48 | the kept entries are exactly those without the id, in their original order (a subsequence of the list), as many as the list has, duplicates included |
| Notifications.UnreadCount | src/components/common/NotificationCenter.tsx:12 | the number of unread entries, counted one entry at a time; zero exactly when every entry is read |
| Notifications.UnreadFilterLength | src/components/common/NotificationCenter.tsx:12 | the filtered list's length is the number of unread entries |
| Notifications.MarkAsReadIdempotent | src/stores/notification-store.ts:36-41 | marking an id as read twice is the same as once |
| Notifications.RemoveAbsentIdChangesNothing | src/stores/notification-store.ts:45-48 | removing an id that no entry has changes nothing |
| Notifications.RemovePresentIdShortens | src/stores/notification-store.ts:45-48 | removing an id that some entry has shortens the list |
| Notifications.UnreadCountAfterAdd | src/stores/notification-store.ts:23-34 | a new unread head raises the unread count by exactly one |
| Notifications.UnreadCountMarkedRead | src/stores/notification-store.ts:36-41 | marking never raises the unread count; it leaves the count of the list with that id removed, and no entry with the id unread |
| Notifications.UnreadCountRemoved | src/stores/notification-store.ts:45-48 | removing never raises the unread count |
| Notifications.ReadStaysRead | src/stores/notification-store.ts:23-48 | a read entry stays read after marking, and after removing another id it is still present |
| Notifications.NotificationStore.constructor | src/stores/notification-store.ts:21 | the store starts empty |
| Notifications.NotificationStore.AddNotification | src/stores/notification-store.ts:23-34 | the list grows by one; the head is unread with the given type, title, message, id and time; the tail is the old list |
| Notifications.NotificationStore.MarkAsRead | src/stores/notification-store.ts:36-41 | the list becomes the marked-read list |
| Notifications.NotificationStore.ClearNotifications | src/stores/notification-store.ts:43 | the list becomes empty |
| Notifications.NotificationStore.RemoveNotification | src/stores/notification-store.ts:45-48 | the list becomes the old list without that id |
| Notifications.Ago | src/components/common/NotificationCenter.tsx:142-148 | a count label is the decimal count followed by its unit, and is never "just now" |
| Notifications.FormatTime | src/components/common/NotificationCenter.tsx:136-149 | "just now" exactly under one minute (negative differences included); otherwise whole minutes below an hour, whole hours below a day, whole days beyond |
| Notifications.NotificationIcon | src/components/common/NotificationCenter.tsx:14-31 | total: the default loudspeaker exactly for a string that is no known type name |
| Notifications.IconsDistinct | src/components/common/NotificationCenter.tsx:14-31 | different notification types get different icons |
| Auth.Merge | src/stores/auth-store.ts:76-80 | each field comes from the patch when the patch has it, else from the user |
| Auth.MergeEmpty | src/stores/auth-store.ts:76-80 | an empty patch changes nothing |
| Auth.MergeIdempotent | src/stores/auth-store.ts:76-80 | applying a patch twice is the same as once |
| Auth.MergeThen | src/stores/auth-store.ts:76-80 | two updates in a row equal one update with the combined patch, the later one winning |
| Auth.LoginUser | src/stores/auth-store.ts:29-37 | the logged-in user has the given e-mail and the fixed mock id, name, phone and avatar |
| Auth.RegisteredUser | src/stores/auth-store.ts:52-59 | the registered user has the given name and e-mail and an empty phone number |
| Auth.AuthStore.constructor | src/stores/auth-store.ts:19-22 | signed out, no token, not loading; the invariant holds |
| Auth.AuthStore.Login | src/stores/auth-store.ts:24-45 | for any password: the login user, the mock token, authenticated, not loading; authenticated ⇔ user ⇔ token |
| Auth.AuthStore.Register | src/stores/auth-store.ts:47-66 | the registered user, the mock token, authenticated, not loading; the invariant holds |
| Auth.AuthStore.Logout | src/stores/auth-store.ts:68-74 | no user, no token, not authenticated; the loading flag is untouched |
| Auth.AuthStore.UpdateUser | src/stores/auth-store.ts:76-80 | an absent user stays absent, a present one is merged; token and flags untouched, invariant kept |
| CardForm.CardMatch | src/app/payment/add/page.tsx:21-24 | empty when there are fewer than 4 digits; otherwise the first min(n, 16) digits of the input |
| CardForm.Chunks | src/app/payment/add/page.tsx:26-28 | groups of four digits with only the last possibly shorter; ⌈n/4⌉ groups |
| CardForm.FormatCardNumber | src/app/payment/add/page.tsx:20-35 | the loop yields the grouped match joined by single spaces, or the raw input when there is no match |
| CardForm.ConcatChunks | src/app/payment/add/page.tsx:26-28 | the groups glued back together give the match |
| CardForm.GroupedNumberStripsToMatch | src/app/payment/add/page.tsx:20-31 | with at least 4 digits, removing the spaces (or the non-digits) from the output gives back the extracted digits |
| CardForm.FormatCardNumberIdempotent | src/app/payment/add/page.tsx:20-35 | formatting a formatted number changes nothing |
| CardForm.GroupedLength | src/app/payment/add/page.tsx:26-31 | n grouped digits take n + (n − 1) / 4 characters |
| CardForm.RemoveFirstSlash | src/app/payment/add/page.tsx:49-50 | removes one character exactly when there is a slash |
| CardForm.FormatExpiry | src/app/payment/add/page.tsx:37-43 | at most 5 characters: the digits alone below two digits, otherwise the first two digits, a slash and up to two more characters, all digits |
| CardForm.ExpiryKeepsDigits | src/app/payment/add/page.tsx:37-43 | the formatted expiry holds exactly the first four digits of the input |
| CardForm.FormatExpiryIdempotent | src/app/payment/add/page.tsx:37-43 | formatting a formatted expiry changes nothing |
| CardForm.SlashRemovalIrrelevant | src/app/payment/add/page.tsx:49-50 | stripping the first slash before formatting makes no difference |
| CardForm.SanitizeCvv | src/app/payment/add/page.tsx:52-53 | the CVV is digits only, at most 4 of them, and a prefix of the input's digits |
| CardForm.SanitizeCvvIdempotent | src/app/payment/add/page.tsx:52-53 | sanitising twice equals sanitising once |
| CardForm.GetCardType | src/app/payment/add/page.tsx:104-110 | Visa ⇔ a leading 4; Mastercard ⇔ 51–55; Amex ⇔ 34 or 37; matched against the number without white space |
| CardForm.BrandSurvivesGrouping | src/app/payment/add/page.tsx:104-110 | grouping the number does not change the detected brand |
| CardForm.FormErrors | src/app/payment/add/page.tsx:66-87 | a field has an error exactly when it breaks its rule; no other key is present |
| CardForm.FormValidIff | src/app/payment/add/page.tsx:66-87 | the form is valid ⇔ ≥16 non-white-space card characters, expiry ≥5, CVV ≥3 and a non-blank name |
| CardForm.ChangedForm | src/app/payment/add/page.tsx:45-60 | the edited field is stored formatted as its input demands (expiry ≤5, CVV digits ≤4); other fields are kept |
| CardForm.ClearedErrors | src/app/payment/add/page.tsx:61-63 | the edited field's error is blanked and every other error is unchanged |
| CardForm.AddCardPage.constructor | src/app/payment/add/page.tsx:11-18 | the empty form with "save card" on; no errors |
| CardForm.AddCardPage.HandleChange | src/app/payment/add/page.tsx:45-64 | the new form and errors are the changed form and the cleared errors |
| CardForm.AddCardPage.ValidateForm | src/app/payment/add/page.tsx:66-87 | stores the errors and answers whether there are none |
| CardForm.AddCardPage.HandleSubmit | src/app/payment/add/page.tsx:89-102 | navigates back exactly for a valid form, and the errors shown are the form's |
| SignIn.EmailPatternIffWord | src/app/auth/signin/page.tsx:24-25 | the pattern matches ⇔ some stretch without white space has the shape x@y.z with non-empty x, y, z |
| SignIn.EmailPatternInContext | src/app/auth/signin/page.tsx:24 | the regex is unanchored: surrounding text keeps a match |
| SignIn.EmailError | src/app/auth/signin/page.tsx:22-26 | an empty e-mail gets only "required"; a non-empty one gets "invalid" exactly when the pattern fails |
| SignIn.PasswordError | src/app/auth/signin/page.tsx:28-32 | empty ⇒ required, 1–5 characters ⇒ too short, ≥6 ⇒ no error |
| SignIn.SignInValidIff | src/app/auth/signin/page.tsx:19-36 | the form is valid ⇔ the e-mail matches the pattern and the password has at least 6 characters |
| SignIn.SignInPage.constructor | src/app/auth/signin/page.tsx:14-17 | empty fields, no errors |
| SignIn.SignInPage.ValidateForm | src/app/auth/signin/page.tsx:19-36 | stores at most one error per field and answers whether there are none |
| SignIn.SignInPage.HandleSubmit | src/app/auth/signin/page.tsx:38-50 | an invalid form never reaches login and leaves the auth store untouched; a valid one logs in and goes home |
| ChatApi.FirstMatch | src/app/api/chat/route.ts:106-110 | the index of the first keyword entry found in the query, or the table length when there is none |
| ChatApi.FallbackResponse | src/app/api/chat/route.ts:88-113 | the reply of the first key, in table order, found in the lower-cased query; otherwise the default reply |
| ChatApi.FallbackNeverMatchesDefaultKey | src/app/api/chat/route.ts:107 | the "default" entry is never matched as a keyword |
| ChatApi.FallbackCaseInsensitive | src/app/api/chat/route.ts:89 | lower-casing the query first changes nothing |
| ChatApi.FallbackFirstKeyWins | src/app/api/chat/route.ts:106-110 | a key found with no earlier key found decides the reply |
| ChatApi.FallbackNonEmpty | src/app/api/chat/route.ts:88-113 | every fallback reply is non-empty |
| ChatApi.ErrorFallback | src/app/api/chat/route.ts:70-85 | status 200 from the fallback source with no note; it answers the error text, or "General inquiry" when that text is empty |
| ChatApi.Post | src/app/api/chat/route.ts:3-86 | 400 ⇔ the message is missing, non-string or empty; without a key, a 200 fallback reply to the message, and the only response with the note; with a key, the model's text or the no-content reply from source "openai", or the catch branch when the call fails; an unparsable body goes to the catch branch |
| ChatApi.ValidMessageAlwaysAnswered | src/app/api/chat/route.ts:3-86 | a non-empty message always gets a 200 with a non-empty reply, whatever the model call does |
| Help.AllFaqs | src/app/help/page.tsx:168 | the flattened list holds exactly the FAQs of the categories |
| Help.Tokens | src/app/help/page.tsx:177-184 | question tokens are non-empty and contain no space |
| Help.FaqReply | src/app/help/page.tsx:166-190 | the first FAQ whose question contains the query, else the first one sharing a token with it, else the fixed not-found reply; so always one of the table's answers or that reply |
| Help.FirstQuestionIsBooking | src/app/help/page.tsx:24-31 | the table opens with the booking question |
| Help.BookingQuestionTokens | src/app/help/page.tsx:177-184 | the booking question's tokens include the one-letter words "i" and "a" |
| Help.OneLetterTokensCatchAll | src/app/help/page.tsx:166-190 | when no question contains the query, any query with an 'a' or an 'i' gets the booking answer |
| Help.QuestionFindsItsAnswer | src/app/help/page.tsx:166-175 | asking a question verbatim, in any case, gets its own answer unless an earlier question contains it |
| Help.MapFaqs | src/app/help/page.tsx:223-229 | the `map` step: each category, in place, with only its matching FAQs |
| Help.FilterCategories | src/app/help/page.tsx:223-231 | only matching FAQs are kept, and emptied categories are dropped |
| Help.FilterCategoriesInOrder | src/app/help/page.tsx:223-231 | the result is the mapped list with categories left out: categories keep their input order and their ids form a subsequence of the input ids |
| Help.FilterCategoriesSound | src/app/help/page.tsx:223-231 | each result category is an input category with its FAQs filtered, the kept FAQs in their original order |
| Help.FilterCategoriesComplete | src/app/help/page.tsx:223-231 | every matching FAQ shows up under its category's id |
| Help.FilterCategoriesIdempotent | src/app/help/page.tsx:223-231 | searching the results again with the same query changes nothing |
| Help.FilteredCategories | src/app/help/page.tsx:222-231 | an empty query shows every category; any other query shows the filtered list |
| Help.HelpChat.constructor | src/app/help/page.tsx:136-147 | the chat opens with the welcome message, an empty input and no reply pending; it answers from the page's FAQ table |
| Help.HelpChat.HandleSendMessage | src/app/help/page.tsx:192-219 | sent ⇔ the input is not blank; a blank input changes nothing; otherwise one user message with the trimmed text is added, the input cleared, typing shown and a reply timer armed for the trimmed text |
| Help.HelpChat.DeliverReply | src/app/help/page.tsx:208-219 | the oldest armed reply timer fires: the FAQ answer to its query is appended and typing hidden, even while later replies are pending |
| LocationPicker.SearchResults | src/app/booking/location/page.tsx:106-123 | blank ⇔ no results; otherwise the matching recent places, or all of them when none matches |
| LocationPicker.SearchResultsInOrder | src/app/booking/location/page.tsx:115-120 | the results keep the order of the recent list |
| LocationPicker.LocationOf | src/app/booking/location/page.tsx:134-139 | the store location has the place's coordinates and address |
| LocationPicker.HandleSearch | src/app/booking/location/page.tsx:106-123 | a blank query empties the list at once and arms nothing; any other arms one timer and the list then settles on that query's results |
| LocationPicker.FireKeepsSettled | src/app/booking/location/page.tsx:114-122 | timers of one delay fire oldest first, and each firing keeps what the list settles on |
| LocationPicker.ClearedFieldShowsStaleResults | src/app/booking/location/page.tsx:106-123 | clearing the field empties the list, but a timer armed for the earlier text refills it under the blank field |
| LocationPicker.FireKeepsValid | src/app/booking/location/page.tsx:114-122 | a timer firing keeps the search invariant: armed queries are not blank and a field with text settles on its results |
| LocationPicker.SearchEstablishesValid | src/app/booking/location/page.tsx:125-131 | running the search effect on the active text establishes that invariant for it |
| LocationPicker.LocationPage.constructor | src/app/booking/location/page.tsx:77-82 | focus on pickup; empty pickup text; the destination text comes from the URL parameter or is ""; no results and no armed timer |
| LocationPicker.LocationPage.RunSearchEffect | src/app/booking/location/page.tsx:125-131 | the effect runs `handleSearch` on the active text only when a text or the focus changed, and keeps the invariant |
| LocationPicker.LocationPage.SearchTimerFires | src/app/booking/location/page.tsx:114-122 | the oldest armed timer fires and shows the results for its query |
| LocationPicker.LocationPage.EditPickupText | src/app/booking/location/page.tsx:229 | stores the typed pickup text and runs the search effect |
| LocationPicker.LocationPage.EditDestinationText | src/app/booking/location/page.tsx:258 | stores the typed destination text and runs the search effect |
| LocationPicker.LocationPage.SelectPlace | src/app/booking/location/page.tsx:133-148 | pickup active: it sets the pickup and moves focus to destination; otherwise it sets the destination; the other location and trip settings are kept; then the search effect runs |
| LocationPicker.LocationPage.MapClick | src/app/booking/location/page.tsx:175-190 | only the active field's location and text change; then the search effect runs |
| LocationPicker.LocationPage.LocateOnMount | src/app/booking/location/page.tsx:87-103 | the position becomes the pickup labelled "Current Location"; then the search effect runs |
| LocationPicker.LocationPage.UseCurrentLocation | src/app/booking/location/page.tsx:150-167 | the position callback tests the field active at the click, not at its arrival: only when that was the pickup is the position set and the focus moved on; otherwise nothing changes; then the search effect runs |
| LocationPicker.LocationPage.ClearPickup | src/app/booking/location/page.tsx:236-239 | empties the pickup text and location; the fare estimate drops to 0; then the search effect runs |
| LocationPicker.LocationPage.ClearDestination | src/app/booking/location/page.tsx:265-268 | empties the destination text and location; the fare estimate drops to 0; then the search effect runs |
| LocationPicker.LocationPage.Focus | src/app/booking/location/page.tsx:230 | the focused input's field becomes active; then the search effect runs |
| LocationPicker.LocationPage.Confirm | src/app/booking/location/page.tsx:169-173 | moves on ⇔ both locations are set |
| CallScreen.FormatDuration | src/app/call/page.tsx:51-55 | the minutes digits are s / 60 and the seconds digits s % 60 (always below 60), joined by ':'; exactly 5 characters ⇔ s < 6000 |
| CallScreen.FormatDurationRoundTrip | src/app/call/page.tsx:51-55 | minutes × 60 + seconds read back from the label give the duration |
| CallScreen.FormatDurationInjective | src/app/call/page.tsx:51-55 | different durations get different labels |
| CallScreen.Rank | src/app/call/page.tsx:24-25 | the order calling < connected < ended |
| CallScreen.Step | src/app/call/page.tsx:32-63 | ending works from any status; the timeout connects only a calling call; a tick counts only while connected |
| CallScreen.StepMovesForward | src/app/call/page.tsx:32-63 | the status never moves back; only the timeout reaches connected, only from calling; ended comes only from the button |
| CallScreen.StepDuration | src/app/call/page.tsx:42-49 | the duration grows only by a tick while connected, one second at a time |
| CallScreen.RunMovesForward | src/app/call/page.tsx:32-63 | over any run the status only advances and the duration grows by at most one per event |
| CallScreen.EndedIsFinal | src/app/call/page.tsx:57-63 | an ended call stays ended with its duration frozen |
| CallScreen.NoDurationBeforeConnect | src/app/call/page.tsx:32-49 | a call that never connects shows 00:00 throughout |
| CallScreen.CallPage.constructor | src/app/call/page.tsx:24-29 | starts calling, 0 seconds, not muted, speaker off |
| CallScreen.CallPage.OnConnectTimeout | src/app/call/page.tsx:32-39 | the new state is one connect-timeout step of the old |
| CallScreen.CallPage.OnTick | src/app/call/page.tsx:42-49 | the new state is one tick step of the old |
| CallScreen.CallPage.HandleEndCall | src/app/call/page.tsx:57-63 | the new state is one end-call step of the old |
| CallScreen.CallPage.ToggleMute | src/app/call/page.tsx:118 | flips the mute flag |
| CallScreen.CallPage.ToggleSpeaker | src/app/call/page.tsx:131 | flips the speaker flag |
| PaymentMethods.WithDefault | src/app/payment/page.tsx:58-66 | the default flag is set exactly on methods with the id; length, order and all other fields are kept |
| PaymentMethods.SetDefaultIdempotent | src/app/payment/page.tsx:58-66 | setting the same default twice is the same as once |
| PaymentMethods.SetDefaultAbsentId | src/app/payment/page.tsx:58-66 | an absent id leaves no default |
| PaymentMethods.SetDefaultCount | src/app/payment/page.tsx:58-66 | afterwards the number of defaults is the number of methods with that id |
| PaymentMethods.UniqueIdCount | src/app/payment/page.tsx:25-51 | with unique ids, an id is carried by one method if present, else by none |
| PaymentMethods.WithoutMethod | src/app/payment/page.tsx:68-72 | keeps exactly the methods without the id, untouched, in order and as many as there are |
| PaymentMethods.DeleteCount | src/app/payment/page.tsx:68-72 | deleting never adds a default, and removing every default leaves none |
| PaymentMethods.DeleteDefaultLeavesNone | src/app/payment/page.tsx:68-72 | deleting the default leaves no default; none is reassigned |
| PaymentMethods.FilterKeepsUniqueIds | src/app/payment/page.tsx:68-72 | deleting keeps ids unique |
| PaymentMethods.SetDefaultKeepsUniqueIds | src/app/payment/page.tsx:58-66 | setting the default keeps ids unique |
| PaymentMethods.InitialMethodsValid | src/app/payment/page.tsx:25-51 | the initial list has unique ids and exactly one default |
| PaymentMethods.PaymentPage.constructor | src/app/payment/page.tsx:55-56 | the initial list, no confirmation open; the invariant holds |
| PaymentMethods.PaymentPage.HandleSetDefault | src/app/payment/page.tsx:58-66 | exactly one default if the id is present, none otherwise; ids stay unique |
| PaymentMethods.PaymentPage.HandleDelete | src/app/payment/page.tsx:68-72 | removes the id's methods and closes the confirmation; at most one default, ids unique |
| PaymentMethods.PaymentPage.AskDelete | src/app/payment/page.tsx:168 | opens the confirmation for that method |
| PaymentMethods.PaymentPage.CancelDelete | src/app/payment/page.tsx:221 | closes the confirmation |
| Favorites.GetIcon | src/app/favorites/page.tsx:59-87 | the gym icon ⇔ the name contains "gym" in any case; otherwise home, work and other map one-to-one to their icons |
| Favorites.GetIconCaseInsensitive | src/app/favorites/page.tsx:59-87 | the icon does not depend on the name's case |
| Favorites.HomeIconNeedsHomeType | src/app/favorites/page.tsx:59-87 | the home icon requires the home type, whatever the name says |
| Favorites.WithoutPlace | src/app/favorites/page.tsx:90-94 | keeps exactly the places without the id, untouched, in order and as many as there are |
| Favorites.DeleteAbsentId | src/app/favorites/page.tsx:90-94 | deleting an absent id changes nothing |
| Favorites.WhitespaceAccepted | src/app/favorites/page.tsx:97-100 | white-space-only name and address pass the guard (there is no trim) |
| Favorites.NewFavorite | src/app/favorites/page.tsx:101-106 | the added place has type other and the entered name and address |
| Favorites.AddThenDelete | src/app/favorites/page.tsx:90-111 | deleting a freshly added place restores the list |
| Favorites.FavoritesPage.constructor | src/app/favorites/page.tsx:55-58 | the four initial places, no menu, no modal, empty form |
| Favorites.FavoritesPage.HandleDelete | src/app/favorites/page.tsx:90-94 | removes the id's places and closes the menu |
| Favorites.FavoritesPage.HandleAddPlace | src/app/favorites/page.tsx:96-111 | with an empty field nothing changes; otherwise one place is appended after the untouched list and the form is reset and closed |
| Favorites.FavoritesPage.EditNewPlace | src/app/favorites/page.tsx:239-252 | stores the typed name and address |
| Favorites.FavoritesPage.OpenAddModal | src/app/favorites/page.tsx:128 | opens the form |
| Favorites.FavoritesPage.CancelAdd | src/app/favorites/page.tsx:261-264 | resets and closes the form |
| Favorites.FavoritesPage.ToggleMenu | src/app/favorites/page.tsx:184-187 | opens the place's menu, or closes it when it is the open one |
| Favorites.FavoritesPage.CloseMenu | src/app/favorites/page.tsx:281-285 | the backdrop (and the menu's Edit item, lines 196-201) close any open menu |
| RideCompletion.ToggleCompliment | src/app/booking/complete/page.tsx:39-45 | a present compliment is removed everywhere, with the rest kept in order; an absent one is appended |
| RideCompletion.ToggleTwice | src/app/booking/complete/page.tsx:39-45 | toggling an absent compliment twice restores the selection |
| RideCompletion.FilterNoRepeats | src/app/booking/complete/page.tsx:41 | filtering keeps a list free of repeats |
| RideCompletion.ToggleKeepsNoRepeats | src/app/booking/complete/page.tsx:39-45 | toggling never selects a compliment twice |
| RideCompletion.DisplayedFare | src/app/booking/complete/page.tsx:53 | the ride's fare, else the estimate, else 15.5, with 0 and NaN skipped; never 0 |
| RideCompletion.AutoRideShowsFallbackFare | src/app/booking/complete/page.tsx:53 | an auto ride, whose fare is NaN, shows 15.5 |
| RideCompletion.DisplayedSplitCount | src/app/booking/complete/page.tsx:55 | the ride's non-zero split count, else 2; never 0 |
| RideCompletion.PerPersonFare | src/app/booking/complete/page.tsx:54-56 | shared: the share times the split count is the fare; not shared: the whole fare |
| RideCompletion.ShareBounds | src/app/booking/complete/page.tsx:54-56 | a positive fare split 2–4 ways gives each rider a positive share of at most half |
| RideCompletion.Total | src/app/booking/complete/page.tsx:57 | the total exceeds the share by exactly the tip, so by at most 100 |
| RideCompletion.CompletePage.constructor | src/app/booking/complete/page.tsx:34-37 | 5 stars, no tip, no compliments, no feedback |
| RideCompletion.CompletePage.ShownTotal | src/app/booking/complete/page.tsx:53-57 | the total shown is never below the rider's share |
| RideCompletion.CompletePage.SetRating | src/app/booking/complete/page.tsx:121-124 | the rating is one of the five stars |
| RideCompletion.CompletePage.SelectTip | src/app/booking/complete/page.tsx:175 | the tip is one of the offered amounts |
| RideCompletion.CompletePage.HandleCompliment | src/app/booking/complete/page.tsx:39-45 | the selection becomes the toggled one, with no repeats |
| RideCompletion.CompletePage.SetFeedback | src/app/booking/complete/page.tsx:158 | stores the feedback text |
| RideCompletion.CompletePage.HandleSubmit | src/app/booking/complete/page.tsx:47-51 | completes the store's ride with the rating and feedback: the ride joins the history, 20 points are added, the ride is cleared; the trip is reset (no locations, estimate 0, not shared, split count 2) and the ride type and loading flag are kept |
| Complaint.BlankButEnabled | src/app/complain/page.tsx:201 | twenty spaces enable the button, yet the handler refuses them |
| Complaint.AcceptedButDisabled | src/app/complain/page.tsx:201 | a short real description passes the handler but the button stays disabled |
| Complaint.EnabledAndNotBlankAccepted | src/app/complain/page.tsx:75-76 | an enabled button with a non-blank description always gets through |
| Complaint.Back | src/app/complain/page.tsx:97-105 | details go back to categories and stay on the page; success leaves for history; category leaves for the previous page |
| Complaint.ComplaintPage.constructor | src/app/complain/page.tsx:64-67 | starts on the category step with nothing chosen and no submit pending |
| Complaint.ComplaintPage.SelectCategory | src/app/complain/page.tsx:69-72 | records the listed category and moves to details |
| Complaint.ComplaintPage.SetDescription | src/app/complain/page.tsx:175 | stores the description on the details step, also while a submit waits |
| Complaint.ComplaintPage.HandleSubmit | src/app/complain/page.tsx:74-82 | called from the enabled button only (20 characters or more, no submit waiting); accepted ⇔ the description is not blank; an accepted submit starts waiting, a refused one changes nothing; the step stays on details |
| Complaint.ComplaintPage.FinishSubmit | src/app/complain/page.tsx:82-84 | the end of the wait shows the confirmation and ends the submit, whatever the step and description have become |
| Complaint.ClearedDuringWait | src/app/complain/page.tsx:74-84 | a run of the handlers reaches the confirmation with a blank description, by clearing it during the wait |
| Complaint.ComplaintPage.HandleBack | src/app/complain/page.tsx:97-105 | the step and where it goes are the back transition of the old step |
| Onboarding.SwipeAction | src/app/onboarding/page.tsx:75-78 | next ⇔ moved left more than 75; previous ⇔ moved right more than 75; nothing ⇔ within 75 |
| Onboarding.FreshTapAdvances | src/app/onboarding/page.tsx:67-78 | on a fresh page a still tap right of 75 px reads as a swipe to the next slide, because the end point is stale |
| Onboarding.NextSlide | src/app/onboarding/page.tsx:43-49 | one slide further, except on the last slide, which completes onboarding and stays; stays in range |
| Onboarding.PrevSlide | src/app/onboarding/page.tsx:51-55 | one slide back, except on the first; stays in range |
| Onboarding.NextThenPrev | src/app/onboarding/page.tsx:43-55 | next then previous returns from any slide but the last |
| Onboarding.PrevThenNext | src/app/onboarding/page.tsx:43-55 | previous then next returns from any slide but the first |
| Onboarding.OnboardingPage.constructor | src/app/onboarding/page.tsx:30-33 | first slide, touch points 0, the stored flag |
| Onboarding.OnboardingPage.Mount | src/app/onboarding/page.tsx:35-41 | redirects ⇔ onboarding was already done |
| Onboarding.OnboardingPage.CompleteOnboarding | src/app/onboarding/page.tsx:61-64 | the flag is stored |
| Onboarding.OnboardingPage.HandleNext | src/app/onboarding/page.tsx:43-49 | the slide and the completion follow the next-slide rule; the slide stays in range |
| Onboarding.OnboardingPage.HandlePrev | src/app/onboarding/page.tsx:51-55 | the slide follows the previous-slide rule and stays in range |
| Onboarding.OnboardingPage.HandleSkip | src/app/onboarding/page.tsx:57-59 | onboarding is completed from any slide |
| Onboarding.OnboardingPage.GoTo | src/app/onboarding/page.tsx:129 | a dot selects its slide |
| Onboarding.OnboardingPage.TouchStart | src/app/onboarding/page.tsx:67-69 | records the start only |
| Onboarding.OnboardingPage.TouchMove | src/app/onboarding/page.tsx:71-73 | records the end point |
| Onboarding.OnboardingPage.HandleTouchEnd | src/app/onboarding/page.tsx:75-78 | a swipe left is next, a swipe right is previous, a short movement does nothing |
| Onboarding.OnboardingPage.KeyDown | src/app/onboarding/page.tsx:80-88 | right arrow is next, left arrow is previous, other keys do nothing |
| DriverChat.InitialMessages | src/app/chat/page.tsx:37-62 | three opening messages, the last from the driver |
| DriverChat.SenderId | src/app/chat/page.tsx:140 | the signed-in user's id when it is non-empty, else "user-1" |
| DriverChat.UserMessage | src/app/chat/page.tsx:138-147 | a user message with status sent, the trimmed text and the sender's id |
| DriverChat.DriverReply | src/app/chat/page.tsx:107-130 | a delivered driver message whose text is one of the canned responses |
| DriverChat.NoReplyAtStart | src/app/chat/page.tsx:100-102 | the opening conversation schedules no reply |
| DriverChat.SendSchedulesReply | src/app/chat/page.tsx:100-102 | each message the user sends schedules a reply |
| DriverChat.LaterAppend | src/app/chat/page.tsx:135-149 | appending a message adds one to its sender's count after the opening messages and nothing to the other's |
| DriverChat.ReplySchedulesNothing | src/app/chat/page.tsx:100-102 | the driver's answer schedules no further reply |
| DriverChat.DictationOnEmptyInput | src/app/chat/page.tsx:82-85 | the space dictation adds to an empty input is trimmed away on sending |
| DriverChat.ChatPage.constructor | src/app/chat/page.tsx:76-79 | the opening messages, empty input, driver not typing, no timer armed |
| DriverChat.ChatPage.SendMessage | src/app/chat/page.tsx:135-149 | sent ⇔ the text is not blank; then one user message is appended, the input cleared, and one typing and one reply timer armed; otherwise nothing changes; replies pending plus replies given equal the user's messages |
| DriverChat.ChatPage.HandleSubmit | src/app/chat/page.tsx:151-167 | sends the input exactly when it is not blank, arming the two timers |
| DriverChat.ChatPage.QuickReply | src/app/chat/page.tsx:292-293 | appends the chip's text, clears the typed input and arms the two timers |
| DriverChat.ChatPage.VoiceResult | src/app/chat/page.tsx:82-85 | adds the transcript after a space |
| DriverChat.ChatPage.SetInput | src/app/chat/page.tsx:320 | the input's `onChange` stores the typed text |
| DriverChat.ChatPage.DriverStartsTyping | src/app/chat/page.tsx:103-104 | any armed typing timer shows the typing indicator, even after an earlier reply came, and is used up; the driver is shown typing only while a reply is pending |
| DriverChat.ChatPage.DeliverDriverReply | src/app/chat/page.tsx:107-130 | an armed reply timer whose typing timer has fired appends the driver's answer and hides typing; the answer arms nothing; driver replies never outnumber the user's messages |

## Left out

- The OpenAI request in `POST` (the key lookup, the request body, the network call). Whether a key is configured and what the call returned are parameters of `ChatApi.Post`.
- The other API routes (payment intent, payment methods) are not part of this model.
- Timer lengths are not modelled, only the firing order they imply. The timers themselves are modelled as methods that the environment calls once the timer fires:
  - the driver chat's typing and reply timers, counted by `pendingTyping` and `pendingReplies`;
  - the help chat's reply timers, queued in `pendingQueries`;
  - the end of the complaint page's wait (`Complaint.ComplaintPage.FinishSubmit`);
  - the location picker's search timers, queued in `armedSearches`;
  - the call screen's connect timer and its one-second tick.
- Some awaited sleeps collapse into one step, so only the state before and after is modelled: the auth store's `login` and `register`, the ride store's `bookRide` and `loadRideHistory`, and the add-card page's save. The `isLoading`/`isSubmitting` flag they set during the wait is not observable in the model.
- `Date.now()` and `Math.random()` ids, timestamps and random picks are caller-supplied parameters. So are `new Date().toISOString()` and the random driver reply.
- Rides.Distance: `Math.sqrt` is a parameter that is only assumed non-negative, and money is exact `real`. Floating-point error is not modelled, so fares are not claimed float-exact.
- The page-level `toFixed` formatting is not modelled. `LocationPicker.LocationPage.MapClick` takes the map click's address text as a parameter.
- Lower-casing covers ASCII letters only (`Text.ToLower`). JavaScript's `toLowerCase` also folds non-ASCII letters.
- Lengths are counted in characters. JavaScript's `.length` counts UTF-16 code units, so the two differ for characters outside the Basic Multilingual Plane.
- Auth.UserPatch: a `Partial<User>` key present with the value `undefined` is not distinguished from a missing key.
- Not part of this model:
  - `getNotificationColor` and the card-brand icon lookup (styling only);
  - toasts, screen-reader announcements, `router` navigation (returned as flags or tags at most);
  - `localStorage` (a field of the onboarding page).
- The location picker's `isSearching` flag is left out. The search has no debounce: each non-blank text arms its own timer, and none is cancelled. The model queues them (`armedSearches`), and an earlier timer may fill the list after the field was cleared (`LocationPicker.ClearedFieldShowsStaleResults`).
- The geolocation API is modelled as its success callback only, with the position as parameters.
- Speech recognition is reduced to its transcript (`DriverChat.ChatPage.VoiceResult`).
- The complaint page's ride id display and other page markup are not modelled.
- Onboarding's keyboard listener re-subscribes on every slide change. It is modelled as reading the current slide.
- These pages are not part of this model: tracking, select-ride, searching, driver-found and thank-you. They consist of animation timers, random delays and display-only arithmetic.
- Rides.RideStore.BookRide: it requires both locations. The source's non-null assertions on them make the same demand of its callers; with a location missing it would store a null the `Ride` type excludes. The trip fields are read before the 1.5 s wait; the loyalty points are read after it, when the discount is applied. Changes made during the wait are not modelled.
- Help.HelpChat.HandleSendMessage: the reply is delivered by `Help.HelpChat.DeliverReply`, which the timer calls; the armed timers wait in `pendingQueries`, oldest first. The fixed 500 ms delay is not modelled.
