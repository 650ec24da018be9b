# Hotel booking pages — a Dafny model

This project models the logic of a hotel booking web application whose
pages talk straight to a hosted database. Six parts of the application are
modelled:

- **The booking form.** It covers the stay length (`calculateNights`), the
  price (`calculateTotalPrice`) and the checks `handleSubmit` makes before it
  inserts a pending booking.
- **The guest's booking list.** It covers the all, upcoming and past
  filters, the colour of each status badge, and cancellation.
- **The administrator's dashboard.** It covers the four headline figures,
  the role and status breakdowns, and the management actions: change a
  role, toggle or delete a hotel, and set a booking status.
- **The owner's dashboard.** It covers the owner's hotels, the bookings
  made at them, and the revenue, booking and active-hotel figures.
- **The public hotel list.** It covers the query built from the filter
  panel and the case-insensitive text search over name, city and country.
- **The language context.** It covers the English and Arabic tables, the
  lookup `t` that falls back to the key, the text direction, and the
  language kept in browser storage.

Each page is a module. The state of the booking form, the booking list and
the two dashboards, which the source changes with React state setters, is a
class whose methods change its fields. The public hotel list has no class: its
filters, search term and loaded rows are parameters of its functions and of
the method that builds the query, not fields. Pure computations are functions, and the properties are lemmas. The shared pieces are:

- `Types`, the records of `src/lib/supabase.ts`;
- `Lists`, the order-preserving filter;
- `Text`, ASCII lower-casing, `includes` and number printing;
- `BookingTotals`, revenue and status counts;
- `HotelRows`, the active flag and its count.

Conventions used throughout the model:

- Timestamps are integer milliseconds. A date input is `None` while it is
  empty.
- Money is integer cents.
- Guest ratings are exact reals.
- A backend query is given to a method as its answer: the rows, or the
  error it reported (`Fetch`).

Two things the code does not guard against:

- The code does not refuse a room whose `is_available` flag is false
  (`BookingForm.AvailabilityNotChecked`).
- No status transition is ever refused: any status may be written over any
  other, including over `completed` and `canceled`
  (`BookingTotals.SetStatusLastWins`).

## Model

| member | source | states |
|---|---|---|
| Types.StatusName | src/lib/supabase.ts:13 | every booking status has a non-empty stored name |
| Types.StatusNameInjective | src/lib/supabase.ts:13 | two statuses have the same stored name exactly when they are the same status |
| Lists.Filter | src/pages/MyBookingsPage.tsx:65-69 | the result is a subsequence of the input holding only elements that pass the test, and each passing element exactly as often as the input does |
| Lists.FilterAppend | src/pages/AdminDashboardPage.tsx:78-80 | filtering a concatenation is the concatenation of the filtered parts |
| Lists.FilterKeepsOrder | src/pages/HotelsPage.tsx:54-58 | filtering keeps any order the list was already in |
| Text.Lower | src/pages/HotelsPage.tsx:55-57 | lower-casing keeps the length, maps each character on its own, and leaves no upper-case ASCII letter |
| Text.LowerIdempotent | src/pages/HotelsPage.tsx:55-57 | lower-casing twice is lower-casing once |
| Text.LowerOfUpper | src/pages/HotelsPage.tsx:55-57 | lower-casing an upper-cased string gives the lower-cased original |
| Text.ContainsAt | src/pages/HotelsPage.tsx:55 | `includes` holds exactly when the term starts at some offset of the string |
| Text.ContainsEmpty | src/pages/HotelsPage.tsx:55-57 | every string includes the empty string |
| Text.NatToStringRoundTrip | src/pages/BookingPage.tsx:95 | the printed digits of a number denote that number |
| Text.IntToString | src/pages/BookingPage.tsx:95 | the printed integer has a leading minus exactly when negative, and its digits denote its absolute value |
| BookingForm.Nights | src/pages/BookingPage.tsx:66-73 | 0 while either date is empty; otherwise the least whole number of days covering the absolute difference, so never negative |
| BookingForm.NightsSymmetric | src/pages/BookingPage.tsx:70 | swapping the two dates gives the same number of nights |
| BookingForm.NightsUnique | src/pages/BookingPage.tsx:70-71 | any count of days that brackets the difference as a ceiling is the number of nights |
| BookingForm.NightsWholeDays | src/pages/BookingPage.tsx:70-71 | dates k whole days apart give exactly k nights; identical dates give 0 |
| BookingForm.NightsPartialDay | src/pages/BookingPage.tsx:71 | any part of a day already counts as one night |
| BookingForm.TotalPrice | src/pages/BookingPage.tsx:75-79 | 0 before the room is loaded and for a stay of 0 nights; otherwise the nights of `Nights` times the nightly price, never negative for a non-negative price |
| BookingForm.TotalPriceWholeDays | src/pages/BookingPage.tsx:75-79 | a stay of k whole days costs k nightly prices |
| BookingForm.Check | src/pages/BookingPage.tsx:81-121 | sign-in is required exactly when there is no user; a booking is submitted exactly when room and hotel are loaded, the guests are within the limit and the stay is at least one night; the row is pending and carries the user, room, hotel, dates, guests, total price, and the special-requests text unchanged, or null when it is empty |
| BookingForm.GuestCheckComesFirst | src/pages/BookingPage.tsx:94-103 | too many guests is reported with the guest-limit message even when the dates are also wrong |
| BookingForm.GuestLimitBoundary | src/pages/BookingPage.tsx:94-97 | exactly max_guests passes; one more is refused with the guest-limit message |
| BookingForm.SameDayRefused | src/pages/BookingPage.tsx:99-103 | identical check-in and check-out are refused with the date message |
| BookingForm.AvailabilityNotChecked | src/pages/BookingPage.tsx:81-121 | the room's availability flag does not change the outcome of the checks |
| BookingForm.ThreeNightExample | src/pages/BookingPage.tsx:99-121 | three nights at 120.00 insert a pending booking of 360.00 with no special requests |
| BookingForm.BookingPage.constructor | src/pages/BookingPage.tsx:20-30 | the form starts with empty dates, one guest and no requests, not submitting, no success, no error |
| BookingForm.BookingPage.SetForm | src/pages/BookingPage.tsx:25-30 | a form edit replaces the form data |
| BookingForm.BookingPage.HandleSubmit | src/pages/BookingPage.tsx:81-136 | a row is sent exactly when the checks pass, and it is the row the checks describe; a failed check sets its message; after an insert, success on no error, otherwise the reported message or the translated default, and submitting is cleared |
| BookingTotals.SumPrices | src/pages/AdminDashboardPage.tsx:78-80 | the fold from 0: no bookings sum to 0 and one booking to its price |
| BookingTotals.SumPricesAppend | src/pages/AdminDashboardPage.tsx:78-80 | the price sum of a concatenation is the sum of the parts' sums |
| BookingTotals.SumPricesNonNegative | src/pages/AdminDashboardPage.tsx:78-80 | with no negative prices the sum is non-negative |
| BookingTotals.Revenue | src/pages/AdminDashboardPage.tsx:78-80 | revenue is 0 when every booking is canceled and the full price sum when none is |
| BookingTotals.RevenueAppend | src/pages/AdminDashboardPage.tsx:78-80 | revenue is additive over a split of the bookings |
| BookingTotals.RevenueAddBooking | src/pages/AdminDashboardPage.tsx:78-80 | one more booking adds its price, or nothing when it is canceled |
| BookingTotals.RevenueAtMostAllPrices | src/pages/OwnerDashboardPage.tsx:67-69 | with no negative prices, revenue lies between 0 and the summed price of every booking |
| BookingTotals.CountStatus | src/pages/AdminDashboardPage.tsx:324-332 | the count of a status is at most the number of bookings, and 0 exactly when no booking has that status |
| BookingTotals.StatusCountsPartition | src/pages/AdminDashboardPage.tsx:324-332 | the five per-status counts add up to the number of bookings |
| BookingTotals.SetStatus | src/pages/AdminDashboardPage.tsx:149-161 | the bookings with the given id take the new status; every other field and every other booking is unchanged |
| BookingTotals.SetStatusLastWins | src/pages/OwnerDashboardPage.tsx:92-104 | writing two statuses in a row leaves the second, whatever the first |
| HotelRows.SetActive | src/pages/AdminDashboardPage.tsx:117-129 | the hotels with the given id take the new active flag; nothing else changes |
| HotelRows.ToggleTwiceRestores | src/pages/AdminDashboardPage.tsx:117-122 | toggling a hotel twice from the flag shown restores the list |
| HotelRows.CountActive | src/pages/OwnerDashboardPage.tsx:47 | the active count is at most the number of hotels, and equal to it exactly when every hotel is active |
| HotelRows.ActiveCountBelow | src/pages/OwnerDashboardPage.tsx:47 | one inactive hotel puts the active count below the number of hotels |
| MyBookings.FilteredBookings | src/pages/MyBookingsPage.tsx:61-71 | all returns the list; upcoming keeps exactly the bookings starting today or later that are not canceled; past keeps exactly those ended before today or completed; order is kept, and each kept booking appears as often as in the list |
| MyBookings.StatusOverridesDates | src/pages/MyBookingsPage.tsx:65-69 | a canceled booking is never upcoming and a completed one is always past, whatever the dates |
| MyBookings.UpcomingNotPast | src/pages/MyBookingsPage.tsx:65-69 | an open booking starting and ending today or later is upcoming and not past |
| MyBookings.StatusColor | src/pages/MyBookingsPage.tsx:73-82 | any string that is neither a status nor a name inherited from `Object.prototype` gets the grey default; the default is returned exactly for completed and for non-statuses |
| MyBookings.StatusColorTable | src/pages/MyBookingsPage.tsx:73-82 | each of the five statuses gets its listed badge colour |
| MyBookings.MyBookingsPage.constructor | src/pages/MyBookingsPage.tsx:12-14 | the page starts with no bookings, the all filter, and loading |
| MyBookings.MyBookingsPage.Shown | src/pages/MyBookingsPage.tsx:61-71 | the listed bookings are a subsequence of the loaded ones |
| MyBookings.MyBookingsPage.SetFilter | src/pages/MyBookingsPage.tsx:14 | choosing a filter sets it |
| MyBookings.MyBookingsPage.LoadBookings | src/pages/MyBookingsPage.tsx:22-41 | the answer's rows replace the list; an error keeps it; loading ends either way |
| MyBookings.MyBookingsPage.CancelBooking | src/pages/MyBookingsPage.tsx:43-59 | after a confirmed, successful write the list shows that booking canceled; otherwise nothing changes |
| MyBookings.CancelOnlyFromPending | src/pages/MyBookingsPage.tsx:43-59 | when every booking with the id shows the cancel button (pending only, line 246), cancelling changes exactly those bookings, each from pending to canceled, and moves their number from the pending count to the canceled count |
| MyBookings.CanceledLeavesUpcoming | src/pages/MyBookingsPage.tsx:43-71 | after cancelling, no booking with that id is upcoming, and the upcoming list is the old one without it |
| OwnerDashboard.WithHotels | src/pages/OwnerDashboardPage.tsx:47 | the hotel load changes only the active count, which reaches the hotel count exactly when all are active |
| OwnerDashboard.WithBookings | src/pages/OwnerDashboardPage.tsx:64-75 | the booking load sets the booking count and the summed price of the bookings not canceled, and leaves the active count; revenue is non-negative for non-negative prices |
| OwnerDashboard.RevenueNonNegative | src/pages/OwnerDashboardPage.tsx:67-69 | with no negative prices the revenue is non-negative |
| OwnerDashboard.UpdatesCommute | src/pages/OwnerDashboardPage.tsx:28-36 | the two concurrent loads give the same figures in either order |
| OwnerDashboard.OwnedHotels | src/pages/OwnerDashboardPage.tsx:38-43 | exactly the hotels of that owner, in table order, each as often as in the table |
| OwnerDashboard.BookingsAt | src/pages/OwnerDashboardPage.tsx:50-60 | exactly the bookings whose hotel id is in the set, in table order, each as often as in the table |
| OwnerDashboard.OwnerBookings | src/pages/OwnerDashboardPage.tsx:50-60 | a booking is listed exactly when it is at some hotel of the owner |
| OwnerDashboard.MountBookingsAsWritten | src/pages/OwnerDashboardPage.tsx:50-60 | as written, the first load keeps exactly the bookings whose hotel id is among the ids of the first render's hotel list |
| OwnerDashboard.MountLoadsNoBookings | src/pages/OwnerDashboardPage.tsx:28-60 | as written, the first load's booking query matches no booking |
| OwnerDashboard.MountMissesOwnersBooking | src/pages/OwnerDashboardPage.tsx:28-76 | an owner with one booking of 100.00 should see it and 100.00 revenue, but the first load fetches nothing |
| OwnerDashboard.ToggleThenReload | src/pages/OwnerDashboardPage.tsx:78-90 | reloading the owner's hotels after the write equals applying the write to the owner's list |
| OwnerDashboard.PageView | src/pages/OwnerDashboardPage.tsx:106-131 | access is denied exactly to anyone who is not a signed-in owner; the dashboard shows exactly for an owner once loading ends |
| OwnerDashboard.OnlyOwnersGetIn | src/pages/OwnerDashboardPage.tsx:106 | clients and admins are turned away, and so is a signed-out visitor even with an owner profile |
| OwnerDashboard.OwnerDashboardPage.constructor | src/pages/OwnerDashboardPage.tsx:12-19 | no hotels, no bookings, zero figures, loading |
| OwnerDashboard.OwnerDashboardPage.LoadHotels | src/pages/OwnerDashboardPage.tsx:38-48 | the owner's hotels replace the list and the active count follows; an error changes nothing; the figures keep matching the lists |
| OwnerDashboard.OwnerDashboardPage.LoadBookings | src/pages/OwnerDashboardPage.tsx:50-76 | the bookings at the given hotels replace the list, with count and revenue; an error changes nothing |
| OwnerDashboard.OwnerDashboardPage.Open | src/pages/OwnerDashboardPage.tsx:22-36 | nothing loads unless the visitor is an owner; for an owner each list follows its own answer (the owner's hotels, then the bookings at the hotels now shown), a failed load keeps its list, the figures match the lists, and loading ends |
| OwnerDashboard.OwnerDashboardPage.ToggleHotelStatus | src/pages/OwnerDashboardPage.tsx:78-90 | a successful write flips the shown flag of that hotel and the active count follows |
| OwnerDashboard.OwnerDashboardPage.UpdateBookingStatus | src/pages/OwnerDashboardPage.tsx:92-104 | a successful write sets that booking's status and the revenue and count follow |
| AdminDashboard.WithUsers | src/pages/AdminDashboardPage.tsx:40-49 | the user load sets the user count and nothing else |
| AdminDashboard.WithHotels | src/pages/AdminDashboardPage.tsx:51-60 | the hotel load sets the hotel count, active or not, and nothing else |
| AdminDashboard.WithBookings | src/pages/AdminDashboardPage.tsx:62-87 | the booking load sets the booking count and the revenue of bookings not canceled, and leaves the user and hotel counts |
| AdminDashboard.UpdatesCommute | src/pages/AdminDashboardPage.tsx:30-38 | the three concurrent loads give the same figures in any order |
| AdminDashboard.CanceledBookingCountsButEarnsNothing | src/pages/AdminDashboardPage.tsx:78-86 | a canceled booking adds one to the count and nothing to the revenue |
| AdminDashboard.CountRole | src/pages/AdminDashboardPage.tsx:306-314 | a role count is at most the number of users |
| AdminDashboard.RoleCountsPartition | src/pages/AdminDashboardPage.tsx:306-314 | the client, owner and admin counts add up to the number of users |
| AdminDashboard.SetRole | src/pages/AdminDashboardPage.tsx:89-97 | the profiles with the given id take the new role; nothing else changes |
| AdminDashboard.RemoveHotel | src/pages/AdminDashboardPage.tsx:131-143 | exactly the hotels with another id remain, in order, each as often as before |
| AdminDashboard.PageView | src/pages/AdminDashboardPage.tsx:163-188 | access is denied exactly to anyone who is not a signed-in admin; the dashboard shows exactly for an admin once loading ends |
| AdminDashboard.OnlyAdminsGetIn | src/pages/AdminDashboardPage.tsx:163 | owners, clients and signed-out visitors are turned away |
| AdminDashboard.AdminDashboardPage.constructor | src/pages/AdminDashboardPage.tsx:12-21 | empty lists, zero figures, loading |
| AdminDashboard.AdminDashboardPage.LoadUsers | src/pages/AdminDashboardPage.tsx:40-49 | the rows replace the users and the count follows; an error changes nothing |
| AdminDashboard.AdminDashboardPage.LoadHotels | src/pages/AdminDashboardPage.tsx:51-60 | the rows replace the hotels and the count follows; an error changes nothing |
| AdminDashboard.AdminDashboardPage.LoadBookings | src/pages/AdminDashboardPage.tsx:62-87 | the rows replace the bookings and count and revenue follow; an error changes nothing |
| AdminDashboard.AdminDashboardPage.Open | src/pages/AdminDashboardPage.tsx:24-38 | nothing loads unless the visitor is an admin; for an admin each of the three lists takes its own answer's rows, a failed load keeps its list, the figures match the lists, and loading ends |
| AdminDashboard.AdminDashboardPage.UpdateUserRole | src/pages/AdminDashboardPage.tsx:89-101 | a successful write sets that user's role; the figures do not change |
| AdminDashboard.AdminDashboardPage.ToggleHotelStatus | src/pages/AdminDashboardPage.tsx:117-129 | a successful write flips the shown flag; the figures do not change |
| AdminDashboard.AdminDashboardPage.DeleteHotel | src/pages/AdminDashboardPage.tsx:131-147 | after confirmation and a successful delete, the hotel is gone and the hotel count follows |
| AdminDashboard.AdminDashboardPage.UpdateBookingStatus | src/pages/AdminDashboardPage.tsx:149-161 | a successful write sets that booking's status and revenue follows |
| HotelSearch.QueryFor | src/pages/HotelsPage.tsx:22-41 | the query always starts with the active condition and selects exactly the active hotels meeting the rating floor and star category when those are set; it has a rating or star condition exactly when that filter is set |
| HotelSearch.BuildQuery | src/pages/HotelsPage.tsx:22-41 | the query built by reassignment is the query for the filters; it orders by rating exactly for 'rating' and by name exactly for 'name' |
| HotelSearch.InitialQuery | src/pages/HotelsPage.tsx:11-15 | the initial filters ask for the active hotels, best rated first |
| HotelSearch.Matches | src/pages/HotelsPage.tsx:54-58 | the lower-cased term occurs in the lower-cased name, city or country; an empty term always matches |
| HotelSearch.SearchHotels | src/pages/HotelsPage.tsx:54-58 | exactly the hotels whose name, city or country includes the term, ignoring case, in order, each as often as in the loaded list |
| HotelSearch.EmptyTermKeepsAll | src/pages/HotelsPage.tsx:54-58 | an empty search keeps every hotel |
| HotelSearch.CaseInsensitive | src/pages/HotelsPage.tsx:54-58 | terms equal up to case give the same results |
| HotelSearch.AbsentChar | src/pages/HotelsPage.tsx:55 | a string lacking some character of the term does not include it |
| HotelSearch.NoMatchWithoutLetter | src/pages/HotelsPage.tsx:54-58 | a hotel lacking some letter of the term, in both cases, does not match |
| HotelSearch.ParisMatches | src/pages/HotelsPage.tsx:56 | a hotel in Paris matches "Paris" |
| HotelSearch.TokyoDoesNotMatch | src/pages/HotelsPage.tsx:54-58 | the Tokyo hotel does not match "Paris" |
| HotelSearch.ParisExample | src/pages/HotelsPage.tsx:54-58 | searching "Paris" over a Paris and a Tokyo hotel lists only the Paris one |
| HotelSearch.ListedHotels | src/pages/HotelsPage.tsx:22-58 | every listed hotel is active, meets the set filters and matches the search, and the list keeps the requested order |
| HotelSearch.FoundLabel | src/pages/HotelsPage.tsx:152 | the count line ends in 's' exactly when the count is not 1 |
| Translation.TableFor | src/contexts/LanguageContext.tsx:14-211 | among names not inherited from `Object.prototype`, a table exists exactly for "en" and "ar" |
| Translation.Translate | src/contexts/LanguageContext.tsx:229-231 | the entry when present and non-empty, the key otherwise; no result when the language has no table |
| Translation.SameKeys | src/contexts/LanguageContext.tsx:14-211 | the English and Arabic tables define the same keys |
| Translation.NoEmptyEntries | src/contexts/LanguageContext.tsx:14-211 | no entry of either table is empty |
| Translation.FallbackOnlyWhenMissing | src/contexts/LanguageContext.tsx:229-231 | for tables with the same keys and no empty entries, a key falls back in one exactly when it does in the other, and exactly when it is missing |
| Translation.FallbackAgrees | src/contexts/LanguageContext.tsx:14-231 | a key falls back to itself in English exactly when it does in Arabic, and exactly when English lacks it |
| Translation.StatusLabels | src/pages/MyBookingsPage.tsx:200 | in either language the checked_in badge shows the raw key, while pending and canceled are translated |
| Translation.Dir | src/contexts/LanguageContext.tsx:239 | 'rtl' exactly for Arabic, 'ltr' otherwise |
| Translation.InitialLanguage | src/contexts/LanguageContext.tsx:214-217 | the stored value when there is a non-empty one, English otherwise |
| Translation.ForeignStoredValue | src/contexts/LanguageContext.tsx:214-231 | a stored value that is neither a language nor an inherited `Object.prototype` name becomes the language, every lookup then fails, and the direction is 'ltr' |
| Translation.LanguageProvider.constructor | src/contexts/LanguageContext.tsx:213-217 | the provider starts in the language read from storage |
| Translation.LanguageProvider.SetLanguage | src/contexts/LanguageContext.tsx:224-227 | the language becomes the chosen one and the same value is stored, so the next start-up reads it back |
| Translation.LanguageProvider.T | src/contexts/LanguageContext.tsx:229-231 | a result exists exactly for English and Arabic; it is the table's entry when that is present and non-empty, and the key otherwise |
| Translation.LanguageProvider.Direction | src/contexts/LanguageContext.tsx:239 | 'rtl' exactly when the current language is Arabic |

## Left out

- Backend traffic is not modelled. The select, insert, update and delete calls are foreign calls. Each query's answer is a method parameter, and the hotel query is modelled as a descriptor (`HotelSearch.QueryFor`) with a predicate saying what a correct answer is (`HotelSearch.Answers`).
- After a write, the pages reload from the backend. The model takes the reloaded list to be the old list with the write applied. A reload that fails after a successful write is not modelled.
- `auth.admin.deleteUser` is not modelled. It is an authentication-service call with no local logic beyond the confirm dialog and a reload.
- The `confirm` dialogs are not modelled. They are a `confirmed` parameter.
- Redirects (`window.location.href`), the two-second timer after a booking, and console logging are not modelled.
- JavaScript `Date` parsing and time zones are not modelled. A date is the timestamp it parses to, and "today" is a given local-midnight timestamp.
- BookingForm.Nights: an unparsable date, which gives NaN in the source, is not modelled.
- IEEE double arithmetic, `Number()` coercion and `toFixed(2)` are not modelled. Prices are exact integer cents and ratings exact reals.
- Text.Lower: lower-cases ASCII letters only. Unicode case mapping in `toLowerCase` is not modelled.
- `Promise.all` interleaving is not modelled. The loads are applied one after another, and a failed load does not stop the others. `UpdatesCommute` shows their order does not matter. The source ends loading as soon as one load fails, possibly before the others land; the model ends it after all of them.
- The `created_at` ordering of loaded lists is not modelled. A list keeps the order of the answer it came from.
- HotelSearch.LexLe: the database's collation for the name ordering is replaced by character-code order.
- MyBookings.StatusColor: a status string that names a property inherited from `Object.prototype` (such as "constructor" or "toString") is not modelled. In the source, `colors[status]` is then the inherited value, which is truthy and is returned instead of the grey default. The page only passes the five stored statuses.
- Translation.TableFor: a language name inherited from `Object.prototype` is not modelled, and neither is it in Translation.ForeignStoredValue. With such a stored value (say "constructor"), `translations[language]` is the inherited value, so `t` returns the key instead of failing.
- Translation.Translate: JavaScript object keys inherited from `Object.prototype` (such as "constructor") are not modelled. Such a key would return the inherited value instead of falling back.
- Translation: each table is written as the union of four 24-entry parts, in source order. This keeps the proofs small; the union has the same 96 entries.
- Rendering, tabs and the spinner markup are not modelled beyond the gate-and-spinner choice in `PageView`.
- The owner dashboard's `Open` loads the bookings for the hotels it has just loaded (the intended behaviour, see Findings). `MountBookingsAsWritten` models what the code does.

## Findings

| source | as written | input that shows it | evidently intended | confidence | as-written member | corrected member |
|---|---|---|---|---|---|---|
| src/pages/OwnerDashboardPage.tsx:30 | on the effect's first run, `loadBookings` runs alongside `loadHotels` and reads the `hotels` state of the first render (line 59), which is empty, so the first load's booking query asks for no hotel ids; a later re-run of the effect, after a change of `profile`, may see the loaded hotels | an owner with one active hotel "h1" and one pending booking of 100.00 at "h1" | the dashboard lists the bookings at the owner's hotels, here one booking and 100.00 of revenue | not executed | OwnerDashboard.MountMissesOwnersBooking | OwnerDashboard.OwnerDashboardPage.Open |
