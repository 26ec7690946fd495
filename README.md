# Car-cleaning booking flow: a Dafny model

This project models the client-side logic of a React booking app for a
car-cleaning service. It covers the bookings list with its
upcoming/historical split, cancel and reschedule; the three wizard steps
(location, date and time, technician); and the progress indicator those
steps show. The hosted `bookings` table is a sequence of rows with an
abstract select and update. Browser, router, notification and client-library
mechanics are left out.

Modules (one per source file, plus two shared ones):

- `Common` (common.dfy): `Option` (the application's `undefined`) and `Navigation` (a router
  navigation: target path plus the state handed to the next page).
- `BookingTable` (booking_table.dfy): the `Booking` row and the two table operations the page
  uses. `SelectByUser` keeps the owner's rows and orders them newest first. `UpdateStatus`
  changes the status of every row that carries a given id. A remote failure is an input
  (`Option<StoreError>`), and a reply has the library's `{ data, error }` shape (`Response`).
- `MyBookings` (my_bookings.dfy): the two client-side filters, the page's `Render`,
  `SessionStorage` (a class over a key-to-booking map) and `BookingsList` (a class with the
  `bookings` and `loading` state and the fetch, cancel and reschedule handlers).
- `SelectLocation` (select_location.dfy): the city list, the neighborhood table and
  `LocationStep`, the city/neighborhood state machine with its guarded continue.
- `SelectDateTime` (select_datetime.dfy): the disabled-day predicate, the nine time slots and
  `DateTimeStep`, the date/time state machine with its guarded continue.
- `ProgressSteps` (progress_steps.dfy): `Steps(currentStep, totalSteps)`, the sequence of step
  views with their flags, labels and connectors.
- `SelectTechnician` (select_technician.dfy): the roster, JavaScript `split`/`join`, the avatar
  initials, the first name on the button, the navigation state the page reads and the booking
  action's effects.

Time is an integer number of milliseconds since the epoch. The current instant (`now`) and
the local time-zone offset (`tzOffset`) are parameters. A weekday is
`((t + tzOffset) div 86400000 + 4) mod 7`, where 0 is Sunday. This is how a JavaScript date
computes `getDay()`, given that the epoch fell on a Thursday.

The code behaves as follows, which a reader might not expect:

- The upcoming/historical split is not total. A booking dated exactly `now` that is not
  cancelled lands in neither list, and so does a future booking whose status is neither
  "scheduled" nor "cancelled" (`Classification`, `BlankListing`). The lemma
  `PartitionCovers` proves the split total only when those cases are absent.
- Choosing a technician writes no row. It only shows a confirmation and navigates to "/"
  after two seconds (`HandleBooking`).
- Reschedule stores the booking under "rescheduleBooking" and navigates to the location
  step. Nothing on the location step reads that key, so no pre-filling happens.
- The location step's continue navigates to "/agendar/data-hora". The date/time step
  navigates to "/select-technician".

## Model

| member | source | states |
|---|---|---|
| `BookingTable.OwnedBy` | src/pages/MyBookings.tsx:41 | the rows kept are exactly the table rows whose owner is the given user, each owned row as many times as the table holds it, and no other row |
| `BookingTable.InsertByDate` | src/pages/MyBookings.tsx:42 | inserting into a newest-first sequence keeps it newest-first and adds exactly the one row |
| `BookingTable.SortByDateDesc` | src/pages/MyBookings.tsx:42 | the result is ordered by booking date, newest first, and is a permutation of the input |
| `BookingTable.SelectByUser` | src/pages/MyBookings.tsx:38-42 | definition of the select query; see `BookingTable.SelectByUserSpec` |
| `BookingTable.Query` | src/pages/MyBookings.tsx:38-44 | definition of the table's reply, the selected rows or the failure; see `MyBookings.BookingsList.Load` |
| `BookingTable.SelectByUserSpec` | src/pages/MyBookings.tsx:38-42 | the select returns the owner's rows newest first, each owned row as many times as the table holds it and no other row, and a row is returned iff it is in the table and owned by that user |
| `BookingTable.UpdateStatus` | src/pages/MyBookings.tsx:60-63 | the update keeps the number of rows |
| `BookingTable.UpdateStatusSpec` | src/pages/MyBookings.tsx:60-63 | rows carrying the id get the new status with every other field kept; all other rows are unchanged, position by position |
| `BookingTable.UpdateStatusIdempotent` | src/pages/MyBookings.tsx:60-63 | applying the same status update twice equals applying it once |
| `MyBookings.Keep` | src/pages/MyBookings.tsx:89-95 | the filter keeps exactly the elements that satisfy the predicate, and is never longer than its input |
| `MyBookings.KeepNothing` | src/pages/MyBookings.tsx:89-95 | filtering by a predicate that no element satisfies gives the empty list |
| `MyBookings.FutureBookings` | src/pages/MyBookings.tsx:89-91 | definition of the upcoming list, filtered by `IsUpcoming`; see `MyBookings.PartitionDisjoint` and `MyBookings.PartitionsAreSubsequences` |
| `MyBookings.PastBookings` | src/pages/MyBookings.tsx:93-95 | definition of the historical list, filtered by `IsHistorical`; see `MyBookings.PartitionDisjoint` and `MyBookings.PartitionsAreSubsequences` |
| `MyBookings.KeepIsSubsequence` | src/pages/MyBookings.tsx:89-95 | a filter result is an order-preserving subsequence of its input |
| `MyBookings.SubsequenceNoDuplication` | src/pages/MyBookings.tsx:89-95 | a subsequence holds no element more often than the sequence it comes from |
| `MyBookings.PartitionsAreSubsequences` | src/pages/MyBookings.tsx:89-95 | both lists are order-preserving subsequences of `bookings`, and neither holds a booking more often than `bookings` does |
| `MyBookings.PartitionDisjoint` | src/pages/MyBookings.tsx:89-95 | at one instant `now` (`IsFuture`, `IsPast`), no booking is in both lists; every upcoming booking (`IsUpcoming`) is scheduled and after `now`; every cancelled booking is historical (`IsHistorical`) |
| `MyBookings.Classification` | src/pages/MyBookings.tsx:90-94 | a scheduled or cancelled booking not dated `now` satisfies exactly one of `IsUpcoming` and `IsHistorical`; a future booking with another status, or a non-cancelled booking dated `now`, is in neither |
| `MyBookings.PartitionSplitsList` | src/pages/MyBookings.tsx:89-95 | upcoming, historical and unshown bookings together are a permutation of `bookings` |
| `MyBookings.PartitionCovers` | src/pages/MyBookings.tsx:89-95 | when every booking is scheduled or cancelled and none is dated `now`, the two lists together are a permutation of `bookings` and their lengths add up |
| `MyBookings.CancelledIsHistorical` | src/pages/MyBookings.tsx:58-72 | after cancelling an id and fetching again, every fetched row carrying that id is historical, and one appears if the user owned such a row |
| `MyBookings.Render` | src/pages/MyBookings.tsx:97-231 | definition of what the page shows; see `MyBookings.NoBookingsMessage` and `MyBookings.BlankListing` |
| `MyBookings.ClockReadsBetweenFilters` | src/pages/MyBookings.tsx:89-95 | a scheduled booking dated after the upcoming filter's clock reading and before a later reading by the historical filter is in both lists |
| `MyBookings.NoBookingsMessage` | src/pages/MyBookings.tsx:226-231 | once loaded, the "no bookings" message is shown iff `bookings` is empty, and then both lists are empty |
| `MyBookings.BlankListing` | src/pages/MyBookings.tsx:89-95 | a single scheduled booking dated exactly `now` renders no list and no "no bookings" message |
| `MyBookings.SessionStorage.constructor` | src/pages/MyBookings.tsx:85 | session storage starts empty |
| `MyBookings.SessionStorage.SetItem` | src/pages/MyBookings.tsx:85 | storing a value replaces the entry for that key and leaves the other keys unchanged |
| `MyBookings.BookingsList.constructor` | src/pages/MyBookings.tsx:27-28 | the page starts with no bookings and loading |
| `MyBookings.BookingsList.FetchBookings` | src/pages/MyBookings.tsx:44-55 | on error `bookings` is unchanged; otherwise it becomes the returned rows, or empty when the data is null; `loading` is false in both cases |
| `MyBookings.BookingsList.Load` | src/pages/MyBookings.tsx:30-34 | the initial fetch sets `bookings` to the user's rows newest first, or keeps it on failure; loading ends |
| `MyBookings.BookingsList.CancelBooking` | src/pages/MyBookings.tsx:58-81 | on update failure, neither the table nor the page state changes; on success, the table is the status update to "cancelled" and the list is refetched from it (kept if that fetch fails) |
| `MyBookings.BookingsList.Reschedule` | src/pages/MyBookings.tsx:83-87 | the booking is stored under "rescheduleBooking", the page goes to "/select-location" with no state, and `bookings` and `loading` are unchanged |
| `SelectLocation.NeighborhoodOptions` | src/pages/SelectLocation.tsx:101 | for every listed city the lookup is defined and gives that city's table entry, a non-empty list without the empty string |
| `SelectLocation.TableIsComplete` | src/pages/SelectLocation.tsx:14-21 | every listed city is a key of the neighborhood table with a non-empty list, every key is a listed city, and the cities are distinct |
| `SelectLocation.LocationStep.constructor` | src/pages/SelectLocation.tsx:25-26 | the step starts with empty city and neighborhood and satisfies its invariant |
| `SelectLocation.LocationStep.ChooseCity` | src/pages/SelectLocation.tsx:69-72 | choosing a city sets it and resets the neighborhood; the neighborhood selector is then shown (`ShowsNeighborhoodSelect`), and the continue button is not (`ShowsContinue`) |
| `SelectLocation.LocationStep.ChooseNeighborhood` | src/pages/SelectLocation.tsx:93-95 | choosing one of the offered neighborhoods sets only the neighborhood, keeps the invariant and shows the continue button |
| `SelectLocation.LocationStep.HandleContinue` | src/pages/SelectLocation.tsx:28-34 | continue navigates iff both fields are set, which is exactly when the button is shown (`ShowsContinue`); it then carries exactly the two selections, a listed city and one of its neighborhoods |
| `SelectDateTime.Weekday` | src/pages/SelectDateTime.tsx:74 | the weekday of an instant is in 0..6 |
| `SelectDateTime.NextDayWeekday` | src/pages/SelectDateTime.tsx:74 | one day later is the next weekday |
| `SelectDateTime.WeekLaterDisabled` | src/pages/SelectDateTime.tsx:74 | a day that `IsDisabled` rejects and that has not passed is a Sunday (`Weekday` is 0), and the same day a week later is the same weekday and is disabled too |
| `SelectDateTime.MondayAfterSundayEnabled` | src/pages/SelectDateTime.tsx:74 | a Sunday that has not passed is disabled (`IsDisabled`), and the following Monday can be chosen |
| `SelectDateTime.TimeSlotsAscending` | src/pages/SelectDateTime.tsx:11-14 | there are exactly nine slots, all "HH:MM", in strictly ascending order of time of day |
| `SelectDateTime.TimeSlotsDistinct` | src/pages/SelectDateTime.tsx:11-14 | the nine slots are pairwise distinct |
| `SelectDateTime.DateTimeStep.constructor` | src/pages/SelectDateTime.tsx:19-22 | city and neighborhood come from the navigation state, or are absent without one; the time-zone offset is fixed for the step; it starts with no date and an empty time |
| `SelectDateTime.DateTimeStep.SelectDate` | src/pages/SelectDateTime.tsx:73-74 | picking a day that `IsDisabled` does not reject, or clearing the day, sets only the date; the selected time is kept, and the invariant that the date is not a Sunday holds |
| `SelectDateTime.DateTimeStep.SelectTime` | src/pages/SelectDateTime.tsx:97 | picking one of the slots, shown once a date is set (`ShowsTimeSlots`), sets only the time; the summary is then shown (`ShowsSummary`) |
| `SelectDateTime.DateTimeStep.HandleContinue` | src/pages/SelectDateTime.tsx:24-35 | continue navigates iff both a date and a time are set, which is exactly when the summary is shown (`ShowsSummary`); it then forwards the incoming city and neighborhood unchanged, with a date that is not a Sunday and a listed slot |
| `ProgressSteps.StepAt` | src/components/ProgressSteps.tsx:14-46 | definition of one step's flags, label and connector; see `ProgressSteps.StepsShape` |
| `ProgressSteps.Steps` | src/components/ProgressSteps.tsx:13-46 | definition of the indicator; see `ProgressSteps.StepsShape`, `ProgressSteps.ConnectorRule` and `ProgressSteps.StepCounts` |
| `ProgressSteps.StepsShape` | src/components/ProgressSteps.tsx:13-35 | there are `totalSteps` entries (none if negative) numbered 1.. in order; each is exactly one of completed (k < current), current (k = current) or upcoming (k > current); only completed steps show a check |
| `ProgressSteps.ConnectorRule` | src/components/ProgressSteps.tsx:40-46 | every step except the last has a connector, and a connector is highlighted iff the step before it is completed |
| `ProgressSteps.CompletedPrefix` | src/components/ProgressSteps.tsx:15 | among the first m steps, `currentStep - 1` clamped to [0, m] are completed |
| `ProgressSteps.CurrentPrefix` | src/components/ProgressSteps.tsx:16 | among the first m steps, one is current when 1 <= `currentStep` <= m, otherwise none |
| `ProgressSteps.ConnectorPrefix` | src/components/ProgressSteps.tsx:40 | among the first m steps, all carry a connector except the last step overall |
| `ProgressSteps.StepCounts` | src/components/ProgressSteps.tsx:13-40 | `currentStep - 1` clamped to [0, totalSteps] steps are completed; exactly one is current when `currentStep` is in range, none otherwise; there are `totalSteps - 1` connectors |
| `ProgressSteps.WizardIndicators` | src/components/ProgressSteps.tsx:13-46 | for steps 1, 2 and 3 of 3 the indicator shows the expected current, completed and upcoming steps and connectors |
| `SelectTechnician.RosterDistinct` | src/pages/SelectTechnician.tsx:12-43 | the roster has exactly three technicians with distinct ids and distinct names |
| `SelectTechnician.Split` | src/pages/SelectTechnician.tsx:101 | `split` returns at least one part, and no part contains the separator |
| `SelectTechnician.SplitJoin` | src/pages/SelectTechnician.tsx:101 | joining the parts of a split with the separator gives back the original string |
| `SelectTechnician.Join` | src/pages/SelectTechnician.tsx:101 | definition of `join`; see `SelectTechnician.SplitJoin` and `SelectTechnician.JoinConsEmptySep` |
| `SelectTechnician.FirstChar` | src/pages/SelectTechnician.tsx:101 | definition of `n[0]`, "" for an empty segment; see `SelectTechnician.InitialsAreWordStarts` |
| `SelectTechnician.FirstChars` | src/pages/SelectTechnician.tsx:101 | the `map(n => n[0])` step gives one entry per segment |
| `SelectTechnician.JoinConsEmptySep` | src/pages/SelectTechnician.tsx:101 | `join('')` of a list with a first element is that element followed by the join of the rest |
| `SelectTechnician.Initials` | src/pages/SelectTechnician.tsx:101 | definition of the avatar fallback; see `SelectTechnician.InitialsAreWordStarts` |
| `SelectTechnician.InitialsAreWordStartsAux` | src/pages/SelectTechnician.tsx:101 | the initials of a string and of its segments after the first agree with the reference definition |
| `SelectTechnician.InitialsAreWordStarts` | src/pages/SelectTechnician.tsx:101 | the avatar fallback is exactly the non-space characters that start the name or follow a space, so empty segments contribute nothing |
| `SelectTechnician.WordStartsFromName` | src/pages/SelectTechnician.tsx:101 | every initial is a character of the name and not a space |
| `SelectTechnician.WordStartsNoSpace` | src/pages/SelectTechnician.tsx:101 | a non-empty name without spaces has its first character as its only initial |
| `SelectTechnician.FirstName` | src/pages/SelectTechnician.tsx:146 | definition of the first name; see `SelectTechnician.FirstNameIsPrefix` |
| `SelectTechnician.ButtonLabel` | src/pages/SelectTechnician.tsx:146 | definition of the button label, "Agendar com " followed by the first name; see `SelectTechnician.FirstNameIsPrefix` |
| `SelectTechnician.FirstNameIsPrefix` | src/pages/SelectTechnician.tsx:146 | the first name is a prefix of the name with no space in it; it is the whole name when there is no space, and otherwise a space follows it |
| `SelectTechnician.ReadDraft` | src/pages/SelectTechnician.tsx:48 | without navigation state all four fields are absent; with it, city and neighborhood are as received and date and time are present |
| `SelectTechnician.HandleBooking` | src/pages/SelectTechnician.tsx:50-58 | the table is unchanged; the only effects are the confirmation notice, then navigation to "/" after 2000 ms |
| `SelectTechnician.ConfirmationNamesTechnician` | src/pages/SelectTechnician.tsx:51-53 | the confirmation text names the chosen technician |

## Left out

- The hosting service's client library is not modelled. The table is a sequence of rows,
  and a remote failure is an input.
- Row-level access rules of the hosted table are not modelled. The cancel update matches on
  the id alone, as `.eq("id", bookingId)` (src/pages/MyBookings.tsx:63) does.
- Ties in the select order: rows with equal booking dates come back in the order of an
  insertion sort. The hosted table promises no particular tie order, and
  `SelectByUserSpec` states only the ordering and the permutation.
- Asynchrony: the re-fetch after a cancel is started without being awaited. The model runs
  it right after the update, so the interleavings of concurrent calls are not modelled.
- Notifications (toasts) and `console.error` are presentation only and are not modelled,
  except the booking confirmation, which is an effect of `HandleBooking`.
- `sessionStorage` holds strings and the page stores `JSON.stringify(booking)`. The model
  holds the booking value itself.
- Navigation is the emitted `Navigation` value (or, for the booking action, an effect with
  its delay). The router, `setTimeout` and the route table are not modelled, and neither is
  whether a target path is registered.
- `PartitionDisjoint`, `Classification`, `PartitionSplitsList` and `PartitionCovers` evaluate
  both filters at one instant `now`. The page reads the clock once per booking per filter, so
  a booking dated within those few milliseconds could appear in both lists
  (`ClockReadsBetweenFilters`).
- Date parsing and formatting are not modelled: `new Date(b.booking_date)`, `isFuture`,
  `isPast` and `format` with the Portuguese locale. A booking date is an integer instant,
  and the local time-zone offset is a constant parameter, so daylight-saving changes are
  not modelled.
- The calendar component is a caller: `SelectDate` requires that a chosen day is not
  disabled, which is what the component enforces.
- Authentication is external session management and is not modelled. The bookings page
  receives the signed-in user's id when it is created.
- Technician ratings are floating-point display data and are not modelled.
- Strings are sequences of characters. JavaScript indexes UTF-16 code units, so a name
  holding a character outside the Basic Multilingual Plane would give a different `n[0]`.
  The roster has none.
- The landing, dashboard and plans pages, the route table, and all layout, styling, icons
  and animation have no logic beyond navigation and are not modelled.
