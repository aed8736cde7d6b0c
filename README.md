# Football-pitch booking app — a Dafny model

A Dafny model of the logic in a React booking app for football and futsal pitches, plus proofs about that model. Players pick a pitch, a day and an hourly slot and book it. They can sign in, reschedule a booking, review a pitch and manage their profile. A venue operator sees the venue's bookings grouped by day and can enter new ones.

- **Pure view logic is functions and lemmas.** This covers the filter panel, the upcoming-bookings card, the product catalog and the review text and stars.
- **Component state is classes.** Each stateful screen is a `class` whose event handlers are `method`s. Each method promises the whole new state for every outcome of the remote call it makes.
- **Loops are methods with invariants.** Two loops in the source are modelled this way. One builds the reschedule candidates and filters them. The other groups the bookings by day, and the pitches by location, with `forEach`/`reduce`.

## Time, dates and remote calls

- **Times of day** are `Clock(hour, minute)`. The components compare them as zero-padded `"HH:MM"` strings. `Times.RenderOrder` proves that this string order is the order of minutes since midnight.
- **Booking dates** are whole day numbers. "Today" is a parameter.
- **Remote calls are parameters.** The hosted database and the auth service are not modelled; each call's answer is passed in:
  - a fetch that can fail is a `Fetch<T>`, either `Fetched(value)` or `Failed(message)`;
  - a call that can only throw is an `Option<string>` error message.
- **`bookingsApi.getByDateAndPitch`** is modelled as a filter over the whole booking table (`Bookings.ByDateAndPitch`).

## Model

| member | source | states |
|---|---|---|
| Bookings.ByDateAndPitch | src/lib/supabase.ts:100-114 | a booking is returned iff it is in the table, on that day, for that pitch, and confirmed |
| Bookings.TotalPrice | src/App.tsx:239 | the price both write paths store: hourly rate times the number of hours (also VenueDashboard.tsx:79) |
| Times.ParseRender | src/components/RescheduleModal.tsx:44-50 | parsing the "HH:MM" rendering of a time gives the time back |
| Times.RenderParse | src/components/RescheduleModal.tsx:49-50 | any string that parses as two-digit "HH:MM" is the rendering of its parse (the form is canonical) |
| Times.RenderOrder | src/App.tsx:183-187 | the JavaScript string `<` on two renderings holds iff the first time is earlier in minutes |
| SlotAvailability.SlotTimes | src/App.tsx:35-48 | the grid is twelve slots, 09:00 to 20:00 on the hour, in order, all available |
| SlotAvailability.AddHours | src/App.tsx:202-206 | the end time is five characters with a colon, and parses to hour `(h + hours) % 24` with the minutes kept |
| SlotAvailability.UpdatedSlots | src/App.tsx:181-194 | same slots in the same order; only `available` changes, and it is false iff some loaded booking covers the slot |
| SlotAvailability.CoversSlot | src/App.tsx:183-187 | a booking covers a slot when the slot string is at or after its start string and before its `addHours` end string; read as minutes by `CoversSlotMinutes` |
| SlotAvailability.IsBooked | src/App.tsx:182-188 | `some` over the loaded bookings: a slot is booked when at least one of them covers it |
| SlotAvailability.CoversSlotMinutes | src/App.tsx:183-187 | the string test `slot >= start && slot < end` is the minute test `start <= slot < wrapped end` |
| SlotAvailability.SlotBusyIff | src/App.tsx:181-193 | slot i is unavailable iff some loaded booking starts at or before it and ends after it, in minutes |
| SlotAvailability.NoBookingsAllAvailable | src/App.tsx:181-194 | with no bookings on the day, the grid is the initial all-available grid |
| SlotAvailability.WrappedBookingBlocksNothing | src/App.tsx:184-187 | a booking whose end hour wraps past midnight marks no slot busy |
| SlotAvailability.AgreesWithOverlapForOneHour | src/App.tsx:181-193 | for whole-hour bookings that end before midnight, busy iff the slot's hour overlaps the booking's interval |
| SlotAvailability.WholeHourBounds | src/App.tsx:204-206 | on whole hours, the start/end test on one slot equals the interval-overlap test |
| SlotAvailability.StartOnlyCheckMissesLongerBookings | src/App.tsx:181-188 | the grid checks only a slot's start: 10:00 shows free next to an 11:00 booking although a 2-hour booking there would overlap it |
| BookingScreen.BookingData | src/App.tsx:234-244 | total price is rate × hours; the holder is the signed-in player (no guest fields) or the guest's details |
| BookingScreen.Prefilled | src/App.tsx:72-86 | a typed field is kept; an empty one takes the user's e-mail or the profile's name and phone; signed out nothing changes |
| BookingScreen.Screen.constructor | src/App.tsx:50-69 | the initial state: pitch list step, nothing chosen, duration 1, the twelve free slots |
| BookingScreen.Screen.ProfileChanged | src/App.tsx:72-86 | stores user and profile and applies `Prefilled` to the details; nothing else changes |
| BookingScreen.Screen.CheckAvailability | src/App.tsx:175-200 | with a pitch and day, the grid becomes `UpdatedSlots` of that day's confirmed bookings; a failed query leaves the grid unchanged and sets no error (the catch only logs) |
| BookingScreen.Screen.SelectPitch | src/App.tsx:208-213 | the pitch is chosen, the booking step shown, and day and time cleared |
| BookingScreen.Screen.SubmitBooking | src/App.tsx:215-267 | without pitch, day or time nothing happens; otherwise the `BookingData` payload is sent, then the confirmation step or the error |
| BookingScreen.Screen.ResetForm | src/App.tsx:284-293 | back to the initial form and the pitch list |
| Reschedule.CandidatesSpec | src/components/RescheduleModal.tsx:43-46 | the candidates are the 17 whole hours 06:00 to 22:00, in strictly increasing string order |
| Reschedule.Candidates | src/components/RescheduleModal.tsx:43-46 | the padded whole hours from 06:00 to 22:00 the loop pushes; pinned down by `CandidatesSpec` |
| Reschedule.AvailableStarts | src/components/RescheduleModal.tsx:43-69 | the loops return exactly the candidates the filter keeps, in their order |
| Reschedule.ThreeClauseConflict | src/components/RescheduleModal.tsx:60-64 | the three-clause conflict test on minute offsets; shown equal to half-open overlap by `ThreeClauseIsOverlap` |
| Reschedule.ConflictsWith | src/components/RescheduleModal.tsx:50-64 | another booking (a different id) rules out a start when the three-clause test fires on the two minute intervals |
| Reschedule.FreeTimes | src/components/RescheduleModal.tsx:48-69 | a time is kept iff it is among the given times and no other booking conflicts with it; never longer than the input |
| Reschedule.OfferedIffNoOverlap | src/components/RescheduleModal.tsx:48-69 | a candidate hour is offered iff no other booking's interval overlaps the moved booking's interval |
| Reschedule.ThreeClauseIsOverlap | src/components/RescheduleModal.tsx:60-64 | for non-empty intervals, the three-clause conflict test is the half-open overlap test |
| Reschedule.BackToBackAllowed | src/components/RescheduleModal.tsx:60-64 | ending at another booking's start, or starting at its end, is no conflict |
| Reschedule.SelfIsSkipped | src/components/RescheduleModal.tsx:54 | a booking with the moved booking's own id never affects which starts are free |
| Reschedule.NoOthersAllOffered | src/components/RescheduleModal.tsx:48-69 | with no other bookings that day every candidate is offered |
| Reschedule.Modal.constructor | src/components/RescheduleModal.tsx:11-17 | the dialog opens with no day, no time, no error and no offered times |
| Reschedule.Modal.CheckAvailability | src/components/RescheduleModal.tsx:34-78 | with a day, the offered times become `FreeTimes` of the candidates; on failure an error is set and the list is kept |
| Reschedule.Modal.HandleReschedule | src/components/RescheduleModal.tsx:80-98 | without day and time it only sets an error; otherwise the request is sent, then success or the service's error |
| Lists.Filter | src/components/PlayerProfile.tsx:159-160 | the result holds exactly the elements satisfying the predicate, and is no longer than the input |
| Lists.FilterKeepsOrder | src/components/RescheduleModal.tsx:48-69 | the kept elements sit at strictly increasing input positions |
| Lists.FilterSplits | src/components/PlayerProfile.tsx:159-160 | filtering by a predicate and by its negation splits the input: multisets add up, nothing is in both |
| Lists.Find | src/stripe-config.ts:23-25 | none iff nothing matches; otherwise the first match, with no earlier element matching |
| Sorting.SortBy | src/components/VenueDashboard.tsx:133-136 | the result is ordered by the key and is a permutation of the input |
| Grouping.GroupBy | src/components/VenueDashboard.tsx:124-131 | keys in order of first appearance; each key maps to the non-empty list of its elements in input order |
| Grouping.OnKeyMembers | src/components/VenuesPage.tsx:94-100 | an element is in a group iff it is in the input with that key |
| Grouping.OnKeyCount | src/components/VenuesPage.tsx:94-100 | an element occurs in its key's group as often as in the input, and in no other group |
| Grouping.KeysInOrderSpec | src/components/VenuesPage.tsx:94-100 | the keys are duplicate-free and are exactly the keys occurring in the input |
| Grouping.SizesSum | src/components/VenueDashboard.tsx:124-131 | group sizes over a duplicate-free, covering key list add up to the input length |
| Grouping.OnKeyIsFilter | src/components/VenuesPage.tsx:94-100 | a group is the input filtered by its key, so it keeps input order |
| Grouping.UnlistedKeyEmpty | src/components/VenueDashboard.tsx:126-128 | a key that never appears has no group |
| VenueDashboard.VenueBookings | src/components/VenueDashboard.tsx:53 | a booking is kept iff it belongs to this venue |
| VenueDashboard.SortedDays | src/components/VenueDashboard.tsx:133 | the sorted distinct days are strictly ascending and are the same days |
| VenueDashboard.GroupBookingsByDate | src/components/VenueDashboard.tsx:123-140 | days ascend; each day holds its bookings (a permutation) sorted by start; every booking's day is there; sizes add up; no group is empty |
| VenueDashboard.GroupsNonEmpty | src/components/VenueDashboard.tsx:123-140 | every group has a booking, and no bookings give no groups |
| VenueDashboard.Dashboard.constructor | src/components/VenueDashboard.tsx:20-33 | schedule tab, no venue, no bookings, empty form |
| VenueDashboard.Dashboard.LoadVenueData | src/components/VenueDashboard.tsx:40-47 | the venue is loaded when found; on failure it is left as it was |
| VenueDashboard.Dashboard.LoadBookings | src/components/VenueDashboard.tsx:49-61 | on success the list is this venue's bookings; on failure the fixed error |
| VenueDashboard.Dashboard.HandleCreateBooking | src/components/VenueDashboard.tsx:63-106 | without a loaded venue nothing happens; otherwise the insert is sent, then the form is reset and bookings reloaded, or the error is shown |
| PitchFilters.Commit | src/components/PitchFilters.tsx:47-49 | the stored record and the reported record are the same |
| PitchFilters.Without | src/components/PitchFilters.tsx:44 | every copy of the location is dropped; other elements keep their multiplicity |
| PitchFilters.WithoutAbsent | src/components/PitchFilters.tsx:44 | dropping an absent location changes nothing |
| PitchFilters.WithoutDistinct | src/components/PitchFilters.tsx:44 | dropping keeps a duplicate-free list duplicate-free |
| PitchFilters.LocationToggle | src/components/PitchFilters.tsx:42-50 | a selected location is removed, an unselected one appended; other filters unchanged; the new record is reported |
| PitchFilters.ToggleTwice | src/components/PitchFilters.tsx:42-50 | two toggles restore the selection: the list itself when the location was not selected, else it moves to the end |
| PitchFilters.ToggleKeepsDistinct | src/components/PitchFilters.tsx:42-50 | the selected locations stay duplicate-free |
| PitchFilters.CapacityRangeChange | src/components/PitchFilters.tsx:52-65 | a bound is stored only if it keeps min ≤ max; otherwise nothing changes or is reported |
| PitchFilters.PriceRangeChange | src/components/PitchFilters.tsx:67-80 | the same guard on the price bounds |
| PitchFilters.RangeChangesKeepOrder | src/components/PitchFilters.tsx:52-80 | ordered ranges stay ordered whatever value arrives |
| PitchFilters.RangeChangesStayOnSliders | src/components/PitchFilters.tsx:52-80 | a value read off a slider keeps every bound on its slider |
| PitchFilters.AmenityToggle | src/components/PitchFilters.tsx:82-90 | exactly the chosen amenity flag flips |
| PitchFilters.AmenityTwice | src/components/PitchFilters.tsx:82-90 | two clicks restore the filters |
| PitchFilters.SortChange | src/components/PitchFilters.tsx:92-96 | only the sort order changes |
| PitchFilters.LastSortWins | src/components/PitchFilters.tsx:92-96 | choosing two sort orders in a row equals choosing the second |
| PitchFilters.Reset | src/components/PitchFilters.tsx:98-111 | back to the initial state, which is reported |
| PitchFilters.Initial | src/components/PitchFilters.tsx:28-37 | the fresh panel: no location, both ranges spanning 0 to the data maxima, no amenity, no sort; `Reset` restores it |
| PitchFilters.FilteredIffNotInitial | src/components/PitchFilters.tsx:113-121 | the reset state is not "filtered"; a state on the sliders is filtered iff it differs from the reset state |
| PitchFilters.IsFiltered | src/components/PitchFilters.tsx:113-121 | the badge shows when a location, a narrowed bound, an amenity or a sort order is in force; characterised by `FilteredIffNotInitial` |
| PitchFilters.InitialWellFormed | src/components/PitchFilters.tsx:98-111 | the reset state has ordered ranges, lies on the sliders and has no duplicate location |
| UpcomingBookings.Qualifying | src/components/UpcomingBookings.tsx:29-32 | the confirmed bookings from today on, each as often as in the input |
| UpcomingBookings.KeyIsLexicographic | src/components/UpcomingBookings.tsx:33-37 | the sort key orders by day first, then by start time |
| UpcomingBookings.UpcomingList | src/components/UpcomingBookings.tsx:28-38 | at most three qualifying bookings (all of them when fewer), none more often than it qualifies, ordered by day then start |
| UpcomingBookings.NoEarlierOmitted | src/components/UpcomingBookings.tsx:28-38 | if a qualifying booking is left out, three are shown and none is later than it |
| UpcomingBookings.ShortListShownWhole | src/components/UpcomingBookings.tsx:38 | with at most three qualifying bookings, all are shown |
| UpcomingBookings.FormatDate | src/components/UpcomingBookings.tsx:49-70 | "Today" iff the day is today, "Tomorrow" iff the next day, otherwise the day itself |
| ProfilePage.TabsPartition | src/components/PlayerProfile.tsx:152-160 | the upcoming and past tabs split the bookings by today: no booking lost, none in both |
| ProfilePage.IsUpcoming | src/components/PlayerProfile.tsx:152-157 | a booking is upcoming when its day is today or later |
| ProfilePage.UpcomingOf | src/components/PlayerProfile.tsx:159 | the upcoming tab holds exactly the bookings that are upcoming |
| ProfilePage.PastOf | src/components/PlayerProfile.tsx:160 | the past tab holds exactly the bookings that are not upcoming |
| ProfilePage.EditDataOf | src/components/PlayerProfile.tsx:45-48 | the edit form holds the profile's name, and its phone or "" when it is null |
| ProfilePage.ProfileScreen.constructor | src/components/PlayerProfile.tsx:10-30 | no profile, no bookings, not editing, empty forms |
| ProfilePage.ProfileScreen.LoadProfileData | src/components/PlayerProfile.tsx:36-67 | a found profile fills the form; bookings by player id, else by e-mail; both failing sets the error |
| ProfilePage.ProfileScreen.HandleSaveProfile | src/components/PlayerProfile.tsx:69-92 | with a profile: success stores it and leaves edit mode; failure sets the error |
| ProfilePage.ProfileScreen.HandleChangePassword | src/components/PlayerProfile.tsx:94-122 | mismatch or fewer than 6 characters gives that error and no call; otherwise the update is sent, then success or the service's error |
| ProfilePage.ProfileScreen.CancelEdit | src/components/PlayerProfile.tsx:124-134 | the form reverts to the profile's values, leaves edit mode and clears messages |
| ProfilePage.ProfileScreen.CancelPasswordChange | src/components/PlayerProfile.tsx:136-141 | both password fields cleared, section closed, messages cleared |
| Passwords.PasswordProblem | src/components/PasswordReset.tsx:29-37 | none iff the two passwords match and have at least 6 characters; the mismatch is reported first |
| PasswordReset.ResetScreen.constructor | src/components/PasswordReset.tsx:6-11 | no error, no success, empty fields |
| PasswordReset.ResetScreen.CheckSession | src/components/PasswordReset.tsx:13-22 | without a recovery session the invalid-link error is set |
| PasswordReset.ResetScreen.HandleResetPassword | src/components/PasswordReset.tsx:24-51 | a `PasswordProblem` is shown without a call; otherwise the update is sent, then success and cleared fields, or the error |
| VenuesPage.SectionsPartitionPitches | src/components/VenuesPage.tsx:94-100 | each pitch is in its own location's section only, in input order; sections add up to all pitches |
| VenuesPage.SectionCount | src/components/VenuesPage.tsx:270 | the "Locations" figure is the number of distinct locations |
| VenuesPage.ToggleLocation | src/components/VenuesPage.tsx:118-126 | only that section's open state flips |
| VenuesPage.ToggleTwice | src/components/VenuesPage.tsx:118-126 | two clicks restore the open sections |
| VenuesPage.PriceRange | src/components/VenuesPage.tsx:282 | none iff no pitches; otherwise low and high are attained prices that bound every price |
| VenuesPage.VenuesScreen.constructor | src/components/VenuesPage.tsx:10-14 | no pitches, no sections, none open |
| VenuesPage.VenuesScreen.LoadPitches | src/components/VenuesPage.tsx:20-116 | the fetched list, or the mock list on failure, grouped by location in first-seen order; sections cleared only when the first location is non-empty |
| VenuesPage.VenuesScreen.ToggleSection | src/components/VenuesPage.tsx:118-126 | open sections become `ToggleLocation` of the old ones |
| VenuesPage.MockSections | src/components/VenuesPage.tsx:32-88 | the mock list has three locations: Mount Lavinia, Kalubowila, Colombo 07, in that order |
| VenuesPage.MockPriceRange | src/components/VenuesPage.tsx:32-88 | the mock prices run from 2800 to 4500 an hour |
| StripeConfig.GetProductByPriceId | src/stripe-config.ts:23-25 | none iff no product has that price id; a found product has it and is in the catalog |
| StripeConfig.GetProductById | src/stripe-config.ts:27-28 | none iff no product has that id; a found product has it and is in the catalog |
| StripeConfig.CatalogLookups | src/stripe-config.ts:11-21 | both catalog ids find the 3800 LKR one-off Elite Sports Complex hour; any other id finds nothing |
| ReviewForm.Trim | src/components/ReviewForm.tsx:38 | the result is a slice of the input with only white space outside it; it is empty iff the input is all white space, and otherwise starts and ends with other characters |
| ReviewForm.NormalizeReviewText | src/components/ReviewForm.tsx:38 | no text is sent iff the text is all white space; otherwise the non-empty trimmed text |
| ReviewForm.FilledStarsCount | src/components/ReviewForm.tsx:91 | as many stars are filled as the hovered rating, or the chosen one when nothing is hovered |
| ReviewForm.StarFilled | src/components/ReviewForm.tsx:91 | a star is drawn filled when it is at most the hovered rating, or the chosen rating when nothing is hovered |
| ReviewForm.RatingLabel | src/components/ReviewForm.tsx:99-106 | a label exists iff the rating is 1 to 5 |
| ReviewForm.LabelsDistinct | src/components/ReviewForm.tsx:99-106 | different ratings have different labels |
| ReviewForm.ReviewScreen.constructor | src/components/ReviewForm.tsx:15-19 | unrated, nothing hovered, empty text, no error |
| ReviewForm.ReviewScreen.ClickStar | src/components/ReviewForm.tsx:84 | the rating becomes the clicked star and stays in 0..5 |
| ReviewForm.ReviewScreen.HoverStar | src/components/ReviewForm.tsx:85 | the hovered rating becomes the star and stays in 0..5 |
| ReviewForm.ReviewScreen.LeaveStar | src/components/ReviewForm.tsx:86 | the hovered rating returns to 0 |
| ReviewForm.ReviewScreen.HandleSubmit | src/components/ReviewForm.tsx:21-48 | unrated gives an error and no call; otherwise the payload with `NormalizeReviewText` is sent, then success or the error |
| PlayerLogin.ClassifyAuthError | src/components/PlayerLogin.tsx:79-87 | the first matching known phrase gives its friendly text; any other message is shown as is, or a default when empty; never empty |
| PlayerLogin.ShownError | src/components/PlayerLogin.tsx:77-87 | a failed call with a message shows `ClassifyAuthError` of it; an error without a message shows nothing, since the catch block itself throws |
| PlayerLogin.FirstPhraseWins | src/components/PlayerLogin.tsx:79-82 | a message with two known phrases gets the text of the one tested first |
| PlayerLogin.UnknownMessagePassesThrough | src/components/PlayerLogin.tsx:85-86 | an unknown message is shown as it is; an empty one gets the default |
| PlayerLogin.LoginScreen.constructor | src/components/PlayerLogin.tsx:12 | sign-in mode, empty form, no messages |
| PlayerLogin.LoginScreen.HandleResetPassword | src/components/PlayerLogin.tsx:27-43 | the address is sent; success clears it and shows the sent message; failure shows the error |
| PlayerLogin.LoginScreen.HandleSubmit | src/components/PlayerLogin.tsx:45-91 | an unconfirmed sign-up returns to sign-in keeping only the e-mail; another user logs in; errors are classified |
| PlayerLogin.LoginScreen.ResetForm | src/components/PlayerLogin.tsx:93-97 | empty form, no messages |
| PlayerLogin.LoginScreen.SwitchMode | src/components/PlayerLogin.tsx:99-103 | the new mode with a fresh form, no messages and no reset address |

## Left out

- **Remote services are parameters.** The database, the auth service, and Stripe checkout and webhooks are outside the model. Their answers are passed in:
  - `pitchesApi`;
  - the `bookingsApi` calls `getByDateAndPitch`, `create`, `getByPlayerId`, `getByPlayerEmail` and `rescheduleBooking`;
  - `reviewsApi`;
  - `playerAuthApi` and `supabase.auth`.
- **An unconfigured client is not modelled.** In src/lib/supabase.ts, `getByDateAndPitch` returns `[]` when the client is not configured.
- **Timezones are not modelled.** `new Date("YYYY-MM-DD")` is UTC midnight, while "today" is local midnight. Dates are whole day numbers, so that difference is gone.
- **Stored start times are assumed to be `"HH:MM"`.** The database column's format is not part of this model. A `"HH:MM:SS"` value would compare differently as a string.
- **The check-then-insert race is not modelled.** Neither write path re-checks availability. Two clients may book the same slot, so the model claims no no-double-booking invariant.
- **Sorting:** `Array.prototype.sort` with a comparator is modelled as a stable insertion sort (`Sorting.SortBy`). `localeCompare` on `"HH:MM"` is modelled as comparing minutes, and `Object.keys(...).sort()` on `"YYYY-MM-DD"` as comparing day numbers.
- VenuesPage.VenuesScreen.LoadPitches, key order: `Object.keys` and `Object.entries` (VenuesPage.tsx:105, :168) list integer-like keys such as "7" first, in numeric order, before the other keys in first-appearance order. The model keeps first-appearance order for every key, so the section order and which section counts as first differ for a location named by a non-negative integer. Day keys of the dashboard are "YYYY-MM-DD" strings and are never integer-like.
- Passwords.PasswordProblem: JavaScript's `length` counts UTF-16 code units; the model counts characters.
- VenuesPage.PriceRange: with no pitches the page shows `Infinity - -Infinity`. The model returns `None`.
- VenuesPage.VenuesScreen.LoadPitches, prototype keys: the grouping object is a plain `{}`, so a location that names an `Object.prototype` member ("constructor", "toString", "__proto__") finds a truthy value with no `push`. The `reduce` then throws into the outer catch (VenuesPage.tsx:108-110), which sets 'Failed to load venues. Please try again.' and leaves the sections unset. The model groups such a list like any other and does not model that outer catch.
- PlayerLogin.ShownError: an auth error without a `message` makes the catch block itself throw. The model then shows no error.
- StripeConfig.GetProductByPriceId and StripeConfig.GetProductById: the catalog has one entry, so "the first match" is stated only generically, in `Lists.Find`.
- UpcomingBookings.UpcomingList: the order among bookings with the same day and start time is not stated.
- UpcomingBookings.FormatDate: the locale-formatted date text (`toLocaleDateString`) stays abstract. Only which label applies is modelled.
- **Effects are explicit calls.** React effects that re-run `checkAvailability` after a selection are not triggered automatically. Selecting a pitch does not recheck availability until `CheckAvailability` is called.
- **Not modelled, as presentation or plumbing rather than logic:**
  - the success-message timers (`setTimeout`);
  - loading flags and spinners;
  - JSX rendering and console logging;
  - `onChange` handlers that only copy an input value into state.
- **Inlined handlers:** `handleCapacityChange` and `handlePriceChange` in PitchFilters.tsx are folded into the range handlers they feed.
- **Not part of this model:** the payment pages, the venue login, the router, the static pages and the reviews list.
- **Whole-number prices:** prices are integers. JavaScript numbers are floating point.
