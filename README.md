# WHO NO COME delivery app — a Dafny model of its client stores, screens and two backend procedures

WHO NO COME is a React Native delivery app. Customers request a pickup and dropoff, a driver is
assigned from the online drivers, and the delivery moves through the states pending, accepted,
picked_up, in_transit and delivered, or is cancelled. This project models the app's deterministic
logic in Dafny and proves what it promises:

- the delivery store (create, update status, rate, cancel, the active delivery);
- the driver's next-step button and the status stepper;
- the route sequencer that orders pickups and dropoffs greedily;
- the notification list and its unread counter;
- the validators and formatters of the create-delivery, login and notification screens;
- the delivery card and the rating stars;
- the mock login and signup;
- the list and update-status backend procedures.

Things outside the program become parameters:

- the great-circle distance is a function `dist`;
- the millisecond clock is `now`;
- `Math.random()` is a chosen index (`choice`), a list of offsets (`jitter`) or a real `random` in [0, 1);
- the success of a storage write is a flag `storageOk`;
- date display is a formatting function.

Files, one module per source file:

- `types.dfy`: `Types`, the shared entities of `types/index.ts`.
- `text.dfy`: `Text`, JavaScript string helpers (`trim`, `toLowerCase`, number to string).
- `mock_data.dfy`: `MockData`.
- `status_stepper.dfy`: `StatusStepper`.
- `delivery_store.dfy`: `DeliveryStoreHook`.
- `live_tracking.dfy`: `LiveTracking`.
- `route_optimizer.dfy`: `RouteOptimizer`, the component.
- `route_optimizer_screen.dfy`: `RouteOptimizerScreen`.
- `notification_store.dfy`: `NotificationStoreHook`.
- `notifications_screen.dfy`: `NotificationsScreen`.
- `create_delivery.dfy`: `CreateDelivery`.
- `auth_store.dfy`: `AuthStoreHook`.
- `auth_screen.dfy`: `AuthScreen`.
- `delivery_card.dfy`: `DeliveryCard`.
- `rating_stars.dfy`: `RatingStars`.
- `backend_list.dfy`: `BackendList`.
- `backend_update_status.dfy`: `BackendUpdateStatus`.

The stores are classes whose methods replace their fields. Their postconditions tie the new state
to functions of the old state, and lemmas prove what those functions promise. The sequencer's
loops are methods proved against the recursive functions `GreedyOrder`, `GreedyTotal` and
`PathLength`.

## Model

| member | source | states |
|---|---|---|
| Text.TrimEmptyIffBlank | app/create-delivery.tsx:108 | `items.trim()` is empty exactly when every character of `items` is JavaScript whitespace |
| Text.NatToString | app/notifications.tsx:41 | a number's decimal text is non-empty, all digits, and has no leading zero |
| Text.DecimalRoundTrip | app/notifications.tsx:41-43 | reading a number's decimal text back gives the number |
| Text.FourDigits | backend/trpc/routes/deliveries/update-status/route.ts:20 | every value from 1000 to 9999 prints as exactly four characters |
| MockData.OnlineDrivers | mocks/data.ts:190-193 | the result holds exactly the online drivers of the input and is no longer than it |
| MockData.OnlineDriversConcat | mocks/data.ts:192 | the online-driver filter keeps relative order (it distributes over concatenation) |
| MockData.NearbyDriversAreD1D2 | mocks/data.ts:190-193 | whatever the coordinates, the nearby drivers are d1 then d2, the two online mock drivers |
| MockData.AddressSuggestions | mocks/data.ts:195-225 | no suggestions for a query shorter than 3; otherwise exactly Business, Residence and Mall, in that order, each address beginning with the query |
| MockData.MockCustomerDefaults | mocks/data.ts:64-101 | the mock customer has exactly one default saved address and one default payment method, both first |
| StatusStepper.IndexOf | components/StatusStepper.tsx:23 | `indexOf` is -1 exactly when the value is absent; otherwise it is the first position holding the value |
| StatusStepper.StatusIndex | components/StatusStepper.tsx:21-24 | the index is -1 exactly for cancelled; otherwise it is the state's position in the five-step list |
| StatusStepper.StatusIndexValues | components/StatusStepper.tsx:13-24 | pending through delivered have indices 0 to 4, and cancelled has -1 |
| StatusStepper.StatusIndexInjective | components/StatusStepper.tsx:21-24 | two states with the same index are the same state |
| StatusStepper.FormatStatusIsTitleCase | components/StatusStepper.tsx:28-32 | formatStatus keeps the length; each "_" becomes a space; each word's first letter is upper-cased; every other character is kept |
| StatusStepper.PickedUpLabel | components/StatusStepper.tsx:28-32 | "picked_up" is shown as "Picked Up" |
| StatusStepper.CancelledRendersNotice | components/StatusStepper.tsx:34-42 | the cancelled notice is rendered exactly for a cancelled delivery, compact or not |
| StatusStepper.FullStepsShape | components/StatusStepper.tsx:62-66 | five steps; step i is completed iff i <= the current index and active iff i equals it, so completed steps form a prefix and exactly one step is active |
| StatusStepper.CompactProgressBounds | components/StatusStepper.tsx:54 | compact progress is within (0, 100]: 20 for pending and 100 for delivered |
| DeliveryStoreHook.FindIndex | hooks/delivery-store.ts:125 | `findIndex` is -1 exactly when no record has the id; otherwise it is the first record with it |
| DeliveryStoreHook.FindById | hooks/delivery-store.ts:220-222 | `find` gives nothing exactly when no record has the id; otherwise the first record with that id |
| DeliveryStoreHook.DraftRecord | hooks/delivery-store.ts:80-94 | the new record has id `del-<now>`, the user's id, status pending, no driver and createdAt `now`; locations, notes, schedule and payment method are the draft's; missing or empty items become "Package"; missing price, distance and time become 0; no completion, rating or review |
| DeliveryStoreHook.AssignDriver | hooks/delivery-store.ts:98-107 | with a non-empty pool the record is accepted by a driver from the pool; with an empty pool it is unchanged; no other field changes |
| DeliveryStoreHook.NewDelivery | hooks/delivery-store.ts:73-110 | fails with "User not authenticated" exactly when there is no user; otherwise the record belongs to the user and has id `del-<now>` |
| DeliveryStoreHook.NewDeliveryIsAccepted | hooks/delivery-store.ts:96-107 | since two mock drivers are online, every created delivery is accepted by d1 or d2; its other fields are the draft's |
| DeliveryStoreHook.WithStatus | hooks/delivery-store.ts:128-133 | the new status is written; completedAt is set to `now` iff the status is delivered and kept otherwise; nothing else changes |
| DeliveryStoreHook.StatusUpdate | hooks/delivery-store.ts:121-136 | "Delivery not found" exactly for an unknown id; otherwise the first record with the id, moved to the new status |
| DeliveryStoreHook.Rated | hooks/delivery-store.ts:156-170 | "Delivery not found" exactly for an unknown id; otherwise the record with rating and review written as given, with no status or range check |
| DeliveryStoreHook.ReplaceById | hooks/delivery-store.ts:138-140 | the length is kept; every record with the updated id is replaced and every other record is kept |
| DeliveryStoreHook.FirstInProgress | hooks/delivery-store.ts:50-58 | nothing exactly when every delivery is delivered or cancelled; otherwise the first delivery that is neither |
| DeliveryStoreHook.StatusUpdateTouchesOnlyThatId | hooks/delivery-store.ts:137-142 | after an update the length is kept, records with other ids are unchanged, and records with the id carry the new status |
| DeliveryStoreHook.AnyTransitionIsAccepted | hooks/delivery-store.ts:125-133 | every status can be written over every status, so a delivered delivery can still be cancelled |
| DeliveryStoreHook.DeliveryStore.Load | hooks/delivery-store.ts:26-60 | with a user, the stored list (or the mock list) becomes the list and the first delivery in progress becomes active; without a user nothing changes |
| DeliveryStoreHook.DeliveryStore.CreateDelivery | hooks/delivery-store.ts:111-116 | on success the new delivery is appended and becomes active; on failure nothing changes |
| DeliveryStoreHook.DeliveryStore.UpdateDeliveryStatus | hooks/delivery-store.ts:137-151 | answers whether the id is known; if not, nothing changes; otherwise the records are replaced and the active delivery is cleared for delivered or cancelled and set to the update otherwise |
| DeliveryStoreHook.DeliveryStore.RateDelivery | hooks/delivery-store.ts:171-178 | answers whether the id is known; the rated record replaces every record with the id; the active delivery is untouched |
| DeliveryStoreHook.DeliveryStore.CancelDelivery | hooks/delivery-store.ts:210-218 | cancelling is the update-status path with cancelled, and it succeeds on any known id and clears the active delivery |
| DeliveryStoreHook.DeliveryStore.GetDeliveryById | hooks/delivery-store.ts:220-222 | returns nothing exactly for an unknown id; otherwise the first listed record with that id (ids made in one millisecond can repeat) |
| LiveTracking.DriverAction | app/live-tracking.tsx:117-148 | a button exists exactly for a driver on accepted, picked_up or in_transit, with the captions and targets accepted→picked_up, picked_up→in_transit, in_transit→delivered |
| LiveTracking.CustomerActionsShown | app/live-tracking.tsx:150-151 | customer actions are shown exactly to non-drivers |
| LiveTracking.DriverActionIsOneStepForward | app/live-tracking.tsx:120-144 | every offered target is exactly one position after the current status in the five-state sequence, and is never cancelled |
| LiveTracking.DisplayedAddress | app/live-tracking.tsx:222-227 | a driver sees the pickup address only while the status is accepted; everyone else sees the dropoff address |
| LiveTracking.TrackingScreen | app/live-tracking.tsx:75-90 | the empty screen is shown exactly when there is no active delivery; a screen never has both a driver button and customer actions; the stepper is the compact one |
| LiveTracking.HandleStatusUpdate | app/live-tracking.tsx:94-99 | the error alert is raised exactly when the store does not know the id, so never for the store's own active delivery; on an alert the store is unchanged; otherwise every record with the id carries the new status and the active delivery is cleared for delivered or cancelled and set to the update otherwise |
| RouteOptimizer.PickupOf | components/RouteOptimizer.tsx:68-76 | the pickup stop has id `<id>-pickup`, the address or 'Pickup location', the pickup coordinates, time 5 and priority 1 |
| RouteOptimizer.DropoffOf | components/RouteOptimizer.tsx:77-85 | the dropoff stop has id `<id>-dropoff`, the address or 'Dropoff location', the dropoff coordinates, time 5 and priority 1 |
| RouteOptimizer.Expanded | components/RouteOptimizer.tsx:66-67 | the deliveries taken are exactly the selected ones, or all of them when nothing is selected |
| RouteOptimizer.ExpandedConcat | components/RouteOptimizer.tsx:66-67 | each delivery is taken or skipped on its own, so the expansion distributes over concatenation and keeps input order |
| RouteOptimizer.PairsAt | components/RouteOptimizer.tsx:66-87 | stop 2i is delivery i's pickup and stop 2i+1 its dropoff, so there are twice as many stops as deliveries |
| RouteOptimizer.ExpandStops | components/RouteOptimizer.tsx:65-87 | the forEach builds exactly the pickup/dropoff pairs of the deliveries taken, in input order |
| RouteOptimizer.Penalty | components/RouteOptimizer.tsx:111-113 | the penalty is 1000 exactly for a dropoff while some remaining pickup shares its id prefix before the first '-', and 0 otherwise |
| RouteOptimizer.ScanFrom | components/RouteOptimizer.tsx:99-121 | the chosen index is in range and records its plain distance; no later candidate's penalised distance is below that recorded distance |
| RouteOptimizer.RemoveAt | components/RouteOptimizer.tsx:127 | `splice(i, 1)` removes exactly that one stop |
| RouteOptimizer.FindNearest | components/RouteOptimizer.tsx:99-121 | the forEach scan returns the scan's index and that stop's plain distance; no later stop's penalised distance beats it |
| RouteOptimizer.GreedyLoop | components/RouteOptimizer.tsx:98-128 | the while loop outputs the greedy order and its running total |
| RouteOptimizer.GreedyIsPermutation | components/RouteOptimizer.tsx:98-128 | each iteration moves one stop, so the output is a permutation of the stops |
| RouteOptimizer.GreedyTotalIsPathLength | components/RouteOptimizer.tsx:117-125 | totalDistance is the plain length of the walk along the output; penalties steer the choice but are never added |
| RouteOptimizer.PathLengthNonNegative | components/RouteOptimizer.tsx:131-145 | with a non-negative distance every walk has non-negative length |
| RouteOptimizer.WalkInOrder | components/RouteOptimizer.tsx:131-145 | the baseline is the length of the walk through the stops in input order, from the same start |
| RouteOptimizer.StartPoint | components/RouteOptimizer.tsx:92-95 | the start is the current location if given, else the first stop, else (0, 0) |
| RouteOptimizer.ComputeRoute | components/RouteOptimizer.tsx:61-155 | the route is the greedy order of the expanded stops from the start point: twice the number of deliveries taken, a permutation of the stops, totalDistance equal to its walk length, savings against the input-order walk |
| RouteOptimizer.Summary | components/RouteOptimizer.tsx:147-155 | totalTime is 10 per stop plus 2 per km; savings are non-negative, time savings are twice distance savings, and distance savings are baseline minus total when positive, else 0 |
| RouteOptimizer.CreatedIdsShareKey | hooks/delivery-store.ts:81 | every id the store creates (`del-<digits>...`) has the pairing key "del" |
| RouteOptimizer.CreatedDeliveriesPair | components/RouteOptimizer.tsx:111-113 | any two deliveries the store created share the key "del", so one's dropoff is penalised in every remaining list that still holds the other's pickup |
| RouteOptimizer.DropoffCanPrecedeItsPickup | components/RouteOptimizer.tsx:115-119 | because candidates are compared with the best's plain distance, a penalised dropoff is taken before its own pickup and ahead of a stop with a smaller penalised distance |
| RouteOptimizer.Toggled | components/RouteOptimizer.tsx:165-173 | toggling flips the membership of that id only |
| RouteOptimizer.ToggleTwice | components/RouteOptimizer.tsx:165-173 | toggling the same id twice restores the selection |
| RouteOptimizer.RouteOptimizerPanel.ToggleStopSelection | components/RouteOptimizer.tsx:165-173 | the selection becomes the toggled selection; the route is untouched |
| RouteOptimizer.RouteOptimizerPanel.OptimizeRoute | components/RouteOptimizer.tsx:61-163 | the stored and handed-on route is the greedy order of the selection's stops, a permutation of them, with totalDistance its walk length and time and savings as the summary gives against the input-order walk; optimising ends and the selection is unchanged |
| RouteOptimizerScreen.OptimizableDeliveries | app/route-optimizer.tsx:14-16 | exactly the pending and accepted deliveries are passed on |
| RouteOptimizerScreen.OptimizableConcat | app/route-optimizer.tsx:14-16 | the filter keeps relative order |
| RouteOptimizerScreen.StartLocation | app/route-optimizer.tsx:31 | a missing current location is passed as absent, otherwise its coordinates |
| RouteOptimizerScreen.ScreenStops | app/route-optimizer.tsx:14-31 | with nothing selected there are two stops per pending or accepted delivery, and without a location the tour starts at the first stop |
| RouteOptimizerScreen.Optimize | app/route-optimizer.tsx:29-35 | the sequencer runs on the pending and accepted deliveries from the screen's start location: greedy order, a permutation of the stops, totalDistance the walk length, and the summary's time and savings |
| NotificationStoreHook.Unread | hooks/notification-store.ts:49-52 | the unread count is at most the length, and zero exactly when every entry is read |
| NotificationStoreHook.NewNotification | hooks/notification-store.ts:54-60 | the new entry is unread, stamped `now`, has the clock as its id, and carries the given fields |
| NotificationStoreHook.MarkedRead | hooks/notification-store.ts:78-80 | the length and order are kept; entries with the id become read and the others are unchanged |
| NotificationStoreHook.AllRead | hooks/notification-store.ts:89 | the length is kept and every entry is read |
| NotificationStoreHook.UnreadOfNew | hooks/notification-store.ts:62-66 | an unread entry added in front raises the count by exactly one |
| NotificationStoreHook.MarkedReadNeverRaisesCount | hooks/notification-store.ts:76-84 | marking read never raises the count, and an unknown id changes nothing |
| NotificationStoreHook.MarkedReadIdempotent | hooks/notification-store.ts:78-80 | marking the same id twice equals marking it once |
| NotificationStoreHook.AllReadHasNoUnread | hooks/notification-store.ts:87-93 | after marking all read the count is zero |
| NotificationStoreHook.SameMillisecondShareId | hooks/notification-store.ts:56-79 | two entries added in the same millisecond share an id, and one tap marks both |
| NotificationStoreHook.NotificationStore.LoadNotifications | hooks/notification-store.ts:26-38 | a stored list replaces the list and the count is recomputed; with nothing stored the list is kept; loading ends |
| NotificationStoreHook.NotificationStore.AddNotification | hooks/notification-store.ts:54-67 | the new entry goes in front of the old list; the count grows by one and stays equal to the number of unread entries |
| NotificationStoreHook.NotificationStore.MarkAsRead | hooks/notification-store.ts:76-85 | the list becomes the marked list; the count does not grow and stays exact |
| NotificationStoreHook.NotificationStore.MarkAllAsRead | hooks/notification-store.ts:87-94 | every entry becomes read and the count becomes zero |
| NotificationStoreHook.NotificationStore.ClearAll | hooks/notification-store.ts:96-100 | the list is emptied and the count becomes zero |
| NotificationsScreen.AgeOf | app/notifications.tsx:33-44 | "just now" exactly below a minute (including future times); minutes below an hour, hours below a day, days otherwise, each count the floor of the difference |
| NotificationsScreen.AgeTextRoundTrip | app/notifications.tsx:40-43 | every formatted age reads back to its bucket and count, so the text is unambiguous |
| NotificationsScreen.FormatTimeInjectiveOnAge | app/notifications.tsx:33-44 | two times that format alike fall in the same bucket with the same count |
| NotificationsScreen.IconFor | app/notifications.tsx:20-31 | delivery_update, new_order and payment get their own icon and colour; exactly the other types get the info icon in textLight |
| NotificationsScreen.OnNotificationPress | app/notifications.tsx:49-53 | the item is marked read first; navigation to `/delivery/<id>` happens exactly when a non-empty delivery id is present |
| CreateDelivery.Round | app/create-delivery.tsx:143-147 | `Math.round` gives the integer within half of its argument, with halves rounding up |
| CreateDelivery.RoundToTenth | app/create-delivery.tsx:146 | the stored distance is a whole number of tenths within 0.05 of the distance, and non-negative for a non-negative distance |
| CreateDelivery.DetailsFor | app/create-delivery.tsx:137-149 | price is round(500 + 100·km) from the unrounded distance; time is round(3·km) but never below 15; distance is rounded to a tenth |
| CreateDelivery.PriceBounds | app/create-delivery.tsx:138-143 | every trip costs at least 500, and a longer trip never costs less or takes less time |
| CreateDelivery.CalculateDeliveryDetails | app/create-delivery.tsx:115-150 | no details exactly when a location is missing; otherwise the details of the distance between them |
| CreateDelivery.DefaultAddress | app/create-delivery.tsx:56-57 | a saved address if any exists; when the chosen one is not flagged default it is the first, and none is flagged |
| CreateDelivery.DefaultPayment | app/create-delivery.tsx:65-66 | a saved method if any exists; when the chosen one is not flagged default it is the first, and none is flagged |
| CreateDelivery.DefaultAddressIsFirstFlagged | app/create-delivery.tsx:57 | the first address flagged default is the one chosen |
| CreateDelivery.DefaultPaymentIsFirstFlagged | app/create-delivery.tsx:66 | the first payment method flagged default is the one chosen |
| CreateDelivery.DemoCustomerDefaults | app/create-delivery.tsx:49-68 | for the demo customer the pickup starts at a1 and the payment at pm1 |
| CreateDelivery.FormErrorsOf | app/create-delivery.tsx:103-111 | keys only among pickup, dropoff, items and payment; each present exactly when that field is missing (items: empty after trim), with its own message |
| CreateDelivery.CheckForm | app/create-delivery.tsx:103-113 | validateForm fills the dictionary step by step to exactly those errors; items are missing iff blank; valid iff all four fields are present, iff the dictionary is empty |
| CreateDelivery.CreateDeliveryScreen.LoadDefaults | app/create-delivery.tsx:49-70 | a customer gets the default address as pickup and the default payment method; anyone else changes nothing |
| CreateDelivery.CreateDeliveryScreen.SetSearchQuery | app/create-delivery.tsx:73-84 | suggestions are fetched for queries of 3 or more characters, three of them; shorter queries clear them |
| CreateDelivery.CreateDeliveryScreen.SelectSuggestion | app/create-delivery.tsx:86-101 | the chosen address fills the field being searched, and the search is reset |
| CreateDelivery.CreateDeliveryScreen.ValidateForm | app/create-delivery.tsx:103-113 | the stored errors are the form's errors, and the answer is whether the form is valid |
| CreateDelivery.CreateDeliveryScreen.HandleCreateDelivery | app/create-delivery.tsx:154-168 | the stored errors are the form's; nothing is submitted unless the form is valid; without a user creation fails; unless created the store is unchanged; on creation the store's own new record for the entered fields and computed details is appended after the old list and becomes active, with the entered items and the computed price |
| AuthStoreHook.FindDriverByEmail | hooks/auth-store.ts:56-58 | nothing exactly when no driver's email matches case-insensitively; otherwise the first matching driver |
| AuthStoreHook.LookupUser | hooks/auth-store.ts:47-62 | a customer login finds the mock customer iff the emails match case-insensitively; a driver login finds the first matching driver; the user found has the requested role |
| AuthStoreHook.DriverEmailsFound | hooks/auth-store.ts:54-61 | any capitalisation of sarah@whnocome.com logs in as driver d2 |
| AuthStoreHook.NewUser | hooks/auth-store.ts:101-107 | the id is `user-<now>`; a missing or empty name becomes "New User", email and phone become "", and a missing role becomes customer |
| AuthStoreHook.AuthStore.IsAuthenticated | hooks/auth-store.ts:123 | authenticated exactly when a user is set |
| AuthStoreHook.AuthStore.LoadUser | hooks/auth-store.ts:20-36 | a stored user is restored; loading ends |
| AuthStoreHook.AuthStore.Login | hooks/auth-store.ts:38-77 | the user found is set; with no match the user is unchanged; the answer is true iff a user was found and storing it succeeded; loading ends |
| AuthStoreHook.AuthStore.Logout | hooks/auth-store.ts:79-89 | the user is cleared only when removing it from storage succeeds; loading ends |
| AuthStoreHook.AuthStore.Signup | hooks/auth-store.ts:91-118 | the new user is always set; the answer is whether storing it succeeded; loading ends |
| AuthScreen.EmailPatternIsRegex | app/auth/index.tsx:39 | the email test holds exactly when some substring matches `\S+@\S+\.\S+`, the reference definition |
| AuthScreen.MatchIsUnanchored | app/auth/index.tsx:39 | text added around a matching address never stops it from matching |
| AuthScreen.EmailExamples | app/auth/index.tsx:39 | "alex@example.com" passes; "alex@example" and "a @b.c" fail |
| AuthScreen.EmailError | app/auth/index.tsx:38-39 | an email error exists exactly when the pattern fails; "Email is required" when empty, "Email is invalid" otherwise |
| AuthScreen.PasswordError | app/auth/index.tsx:41-42 | a password error exists exactly when it is shorter than 6; "Password is required" when empty, the too-short message otherwise |
| AuthScreen.AuthFormErrors | app/auth/index.tsx:35-51 | keys only among email, password, name and phone; each present exactly when its check fails, with its message; name and phone only in signup mode |
| AuthScreen.CheckAuthForm | app/auth/index.tsx:35-51 | validateForm fills the error dictionary step by step to exactly those errors; valid iff the email matches, the password has 6 or more characters, and in signup mode name and phone are non-empty |
| AuthScreen.ValidSignupKeepsFields | app/auth/index.tsx:64 | a valid signup form never falls back to the store's defaults: the new user has the entered name, email, phone and role |
| AuthScreen.AuthForm.ValidateForm | app/auth/index.tsx:35-51 | the stored errors are the form's errors, and the answer is whether there are none |
| AuthScreen.AuthForm.ToggleAuthMode | app/auth/index.tsx:73-76 | login and signup swap and every error is cleared |
| AuthScreen.AuthForm.HandleSubmit | app/auth/index.tsx:53-71 | an invalid form does nothing beyond showing its errors; login mode logs in and signup mode signs up with the entered fields; success navigates; failure sets the mode's form error |
| DeliveryCard.StatusColor | components/DeliveryCard.tsx:27-43 | pending is warning, accepted info, picked_up and in_transit primary, delivered success, cancelled error, and exactly the other strings textLight |
| DeliveryCard.StatusColorsOfStates | components/DeliveryCard.tsx:27-43 | no state gets the fallback colour, and two states share a colour only when both are picked_up or in_transit |
| DeliveryCard.StatusLabels | components/DeliveryCard.tsx:45-49 | the card's formatStatus (the stepper's) shows Pending, Accepted, Picked Up, In Transit, Delivered and Cancelled |
| DeliveryCard.TimeTextShowsEstimate | components/DeliveryCard.tsx:99-101 | with a schedule the formatted date is shown; otherwise a number followed by " mins" that reads back as the estimate |
| DeliveryCard.Card | components/DeliveryCard.tsx:62-103 | the colour is the status colour (never the fallback); the label is the state's title-cased name; missing or empty addresses show "Pickup location" and "Dropoff location"; the items are shown as stored; the time field is the schedule or the estimate in minutes |
| DeliveryCard.HandlePress | components/DeliveryCard.tsx:19-25 | a supplied handler is called exactly when there is one; otherwise the route is `/delivery/` followed by the id |
| RatingStars.Ceil | components/RatingStars.tsx:42 | `Math.ceil` gives the least integer not below its argument |
| RatingStars.CeilOfFraction | components/RatingStars.tsx:41-42 | the ceiling equals the floor for a whole rating and is one more otherwise |
| RatingStars.Stars | components/RatingStars.tsx:17-42 | maxRating stars are rendered, 5 by default, each drawn by the per-index rule |
| RatingStars.StarShape | components/RatingStars.tsx:41-42 | full stars form a prefix; a half star only sits at the floor of a non-whole rating, so there is at most one; no star is both; a star is lit iff its index is below the ceiling |
| RatingStars.PressStar | components/RatingStars.tsx:23-27 | a tap reports the one-based star number, within 1..maxRating, exactly when the row is editable and a callback exists |
| RatingStars.LabelIsMonotone | components/RatingStars.tsx:29-35 | the label's rank is the number of the thresholds 1.5, 2.5, 3.5 and 4.5 reached, so a higher rating never gets a worse label |
| RatingStars.TappedStarRedraw | components/RatingStars.tsx:40-48 | tapping star i rates i+1: the first i+1 stars are full, none is half, and the label has rank i |
| BackendList.WithStatus | backend/trpc/routes/deliveries/list/route.ts:69 | exactly the deliveries with that status are kept |
| BackendList.WithStatusConcat | backend/trpc/routes/deliveries/list/route.ts:69 | the filter keeps relative order |
| BackendList.ListDeliveries | backend/trpc/routes/deliveries/list/route.ts:4-76 | input outside the schema is refused; all three deliveries for an absent or "all" status, otherwise the filtered ones; total is the count and success is true |
| BackendList.UserIsIgnored | backend/trpc/routes/deliveries/list/route.ts:12-76 | the answer depends only on the status filter, never on the user type or id |
| BackendList.FilterTotals | backend/trpc/routes/deliveries/list/route.ts:14-70 | "all" gives 3; in_transit, pending and delivered give their one delivery; assigned, picked_up and cancelled give none |
| BackendUpdateStatus.PickupCode | backend/trpc/routes/deliveries/update-status/route.ts:19-20 | the code is four digits with no leading zero, and its value is floor(1000 + 9000·random), within 1000..9999 |
| BackendUpdateStatus.StatusMessage | backend/trpc/routes/deliveries/update-status/route.ts:32-41 | each admitted state has its fixed message, and exactly the other strings get "Status updated" |
| BackendUpdateStatus.MessagesAreDistinct | backend/trpc/routes/deliveries/update-status/route.ts:33-39 | different admitted states have different messages |
| BackendUpdateStatus.UpdateDeliveryStatus | backend/trpc/routes/deliveries/update-status/route.ts:4-30 | a state outside the enum is refused; otherwise the id and state are echoed with success, the state's own message, and a four-digit code exactly for picked_up |
| BackendUpdateStatus.AppStatesAdmitted | backend/trpc/routes/deliveries/update-status/route.ts:6 | of the app's own state names, exactly pending and accepted are refused |

## Left out

- The haversine distance in app/create-delivery.tsx:122-135 and components/RouteOptimizer.tsx:50-59 is the parameter `dist`. Floating-point trigonometry is not modelled. A non-negative distance is assumed only where a lemma needs it.
- Numbers are Dafny reals and integers. NaN, infinities and floating-point rounding error are not modelled. `Math.round`, `toFixed(1)`, `Math.floor` and `Math.ceil` are modelled exactly over the reals.
- The sequencer's `nearestDistance = Infinity` is the `Unset` state of the scan.
- AsyncStorage is not modelled. A write is a success flag (`storageOk`); a read is an optional value. Serialisation to JSON, which turns dates into strings, is not modelled.
- React Query, React state batching, `useEffect` scheduling, `setTimeout` delays and the asynchrony of every store operation are not modelled. Each operation is one atomic step on the state it reads.
- DeliveryStoreHook.DeliveryStore: the `isLoading` flag, which combines query and mutation pending states, is not modelled.
- The mutation handlers in hooks/delivery-store.ts read the list as it was when the mutation started. The model reads the current list.
- `Date.now()` and `new Date()` are the parameter `now` (milliseconds). Display through `toLocaleString`, in the delivery card's dates and price, is a formatting parameter or left out.
- `Math.random()` is a parameter: the driver index `choice`, the suggestion offsets `jitter`, and the OTP's `random`. Random backend ids are not modelled.
- Lengths and case mapping follow Dafny characters, not UTF-16 code units. This affects the 3-character search threshold and the 6-character password rule. `toLowerCase` and `toUpperCase` are modelled for ASCII letters only.
- NotificationsScreen.OnNotificationPress: `data?.deliveryId` is modelled as an optional string. Other truthy values (numbers, objects) are not.
- Alerts, navigation and every screen's rendering and styling are out of scope. The models keep only the decisions the screens make: which alert, which route, which text.
- hooks/location-store.ts is not part of this model. It only wraps the platform's geolocation and permission APIs.
- The echo-only backend stubs are not part of this model: deliveries/create, deliveries/accept, riders/toggle-status, riders/update-location, health/check, auth/login, and the tRPC wiring.
- components/Button.tsx, components/Input.tsx, components/DriverCard.tsx, components/DeliveryMap.tsx, components/QuickActions.tsx, components/PerformanceDashboard.tsx, app/driver-analytics.tsx, app/_layout.tsx and constants/colors.ts hold no logic beyond display. They are not part of this model; colours are names only.
- BackendList.ListDeliveries: the canned deliveries' ISO `createdAt` and `deliveredAt` strings are kept only as minute offsets before the request, not as dates, and each rider's current location is not modelled. A schema refusal is one error value, not tRPC's error shape.
- BackendUpdateStatus.UpdateDeliveryStatus: the response timestamp is not modelled. `riderId`, `otpCode` and `notes` are accepted and never read, as in the procedure.
- RatingStars.Stars: `maxRating` is a natural number. The fractional or negative lengths that `Array.from` would truncate are not modelled.
- StatusStepper rendering keeps the step titles, flags and progress width, not the layout.
