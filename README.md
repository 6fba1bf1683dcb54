# training-secretary: row resolution and commute tagging, in Dafny

This project models the decision logic of two small scripts of a personal
training-data utility, and proves what each decision guarantees.

- `sync.py` copies yesterday's resting heart rate into a spreadsheet. It
  resolves the row whose free-text date cell (column 1) names the day. It
  scans the column from row 1, skips empty cells, hands each other cell to a
  date parser, and takes the first row whose parsed date is the target. It
  then writes the value into column 2 of that row. It fails when there is no
  heart rate or no row.
- `tag_commutes.py` handles the day before yesterday and then yesterday. For
  each day it lists the activities in that UTC day's `after`/`before` window.
  It fetches the details of every outdoor ride, meaning type `"Ride"` and not
  a trainer ride. It keeps the rides recorded on the configured device. Each
  kept ride is marked as a commute on the configured bike, unless it already
  is one.

Files:

- `wrappers.dfy`: `Option`.
- `calendar.dfy` (module `Calendar`): a date is its day number counted from
  1970-01-01, a date-time is a count of wall-clock seconds, and `DateOf` is
  `.date()`. It also holds the one-day UTC query window.
- `sync.dfy` (module `Sync`): row resolution as a function
  (`FindRow`) and as a loop (`FindRowByDate`), plus the control flow of
  `main` (`SyncRestingHr`).
- `tag_commutes.dfy` (module `Commutes`): the listing and detail filter
  (`Select`, `GetActivitiesFromDevice`), the update request
  (`UpdateActivity`), the per-day skip/update loop (`TagCommutesForDate`)
  and the two-day `main` (`TagCommutes`).

External services are parameters:
- The date parser is any function `string -> Option<DateTime>`.
- The heart-rate fetch is any function `Date -> Option<int>`.
- The activity platform is a `Strava` value holding three functions: the
  listing, the detail and the update status.
- A response whose status check raises is `None`. That exception ends the
  program, which the model records as an aborted run.
- Every request the scripts make after authentication is recorded, in order,
  in a returned trace (`SyncStep`, `Call`).
- "Today" is a parameter. In `sync.py` it is the local date `date.today()`
  (sync.py:98). In `tag_commutes.py` each of the two dates comes from its
  own read of the UTC clock, `datetime.now(timezone.utc)`
  (tag_commutes.py:132 and 133). `TargetDatesFromClock` shows that when both
  reads fall on the same UTC date, the dates are the two days before it;
  `ClockRaceSkipsADay` shows what happens when they do not (see "## Findings").

Only the empty string is skipped (`if not cell_value`, sync.py:79), so a
cell of blanks is handed to the parser. The parser is called with the single
language `"fr"` (sync.py:83) and is modelled as one opaque function.

## Model

| member | source | states |
|---|---|---|
| `Calendar.DateOf` | sync.py:85 | the date component of a date-time is the day whose midnight-to-midnight span contains it |
| `Calendar.ShiftThenDate` | tag_commutes.py:132-133 | shifting an instant back by n days and then taking its date gives the date n days before the instant's date |
| `Calendar.DayWindow` | tag_commutes.py:46-54 | `after` is midnight UTC of the target date, `before - after` is 86400, and an instant lies in the window iff its date is the target |
| `Calendar.DayHoldsItsInstants` | tag_commutes.py:46-47 | the instants from one midnight to the next are exactly those whose date is that day |
| `Calendar.WindowsAbut` | tag_commutes.py:131-134 | yesterday's window starts where the day before yesterday's ends |
| `Sync.CellMatches` | sync.py:79-85 | a cell matches iff it is not "", the parser reads it, and the instant read lies between midnight of the target day and the next midnight |
| `Sync.FindRowFrom` | sync.py:78-86 | the scan from a given index returns the first matching row after it, or None iff no later cell matches |
| `Sync.FindRow` | sync.py:70-88 | the result is a row in 1..len(column) whose cell is non-empty and parses to the target date, no earlier row matches, and it is None iff no cell matches (so None for an empty column) |
| `Sync.NonEmptyCells` | sync.py:79-80 | a cell survives the skip iff it is not the empty string |
| `Sync.ParseCalls` | sync.py:78-86 | the parser is never given ""; it is given every non-empty cell up to the match, blanks included, and no cell after the match |
| `Sync.FindRowByDate` | sync.py:70-88 | the loop returns exactly `FindRow`, and the texts it hands to the parser are exactly `ParseCalls` |
| `Sync.UnparsableCellIsSkipped` | sync.py:83-85 | a cell the parser cannot read changes nothing: the result is the same as with that cell emptied |
| `Sync.MatchIgnoresTimeOfDay` | sync.py:85 | two parsers that agree on which cells fail and on the date of every parse give the same row, whatever the times of day |
| `Sync.SameMatchesSameRow` | sync.py:78-86 | the resolved row depends only on which rows match |
| `Sync.ResolverExamples` | sync.py:78-88 | an empty row 1, then the 19th, 20th and 20th of January, resolves the 20th to row 3; a column holding only the 18th resolves it to None |
| `Sync.SyncRestingHr` | sync.py:91-126 | targets yesterday; with no heart rate it exits 1 before opening the sheet; with no row it exits 1 without writing; otherwise it writes the heart rate to exactly (row found, column 2) and exits 0 |
| `Commutes.IsOutdoorRide` | tag_commutes.py:64 | a listed activity is processed iff its type is "Ride" and its trainer flag is missing, null or false |
| `Commutes.RecordedOn` | tag_commutes.py:75-76 | a detail is on the device iff its device name equals it, or the name is missing and the device is "" (a null name matches nothing) |
| `Commutes.AlreadyTagged` | tag_commutes.py:112-115 | defined as: `commute` is present and true, and `gear_id` is present and equal to `BIKE_ID` |
| `Commutes.CandidateIdsMembers` | tag_commutes.py:62-65 | an id is fetched iff some listed activity with that id has type "Ride" and a falsy trainer flag |
| `Commutes.Details` | tag_commutes.py:68-73 | the fetched details line up one-to-one with the fetched ids |
| `Commutes.OnDeviceMembers` | tag_commutes.py:75-77 | a detail is kept iff it was fetched and its device name, with a missing one read as "", equals the requested device |
| `Commutes.OnDeviceKeepsOrder` | tag_commutes.py:61-79 | the kept details are a subsequence of the fetched details |
| `Commutes.SelectNext` | tag_commutes.py:62-77 | defined as one turn of the loop: after an abort or for a non-ride nothing changes; otherwise the id is fetched, and a failed fetch aborts while a detail on the device is appended |
| `Commutes.Select` | tag_commutes.py:61-79 | defined as `SelectNext` applied to the listing in order; its guarantees are stated by `SelectSpec` |
| `Commutes.SelectSpec` | tag_commutes.py:61-79 | the fetched ids are a prefix of the outdoor-ride ids; the loop completes iff every one is fetched successfully; otherwise it stops right after the first failed fetch; on completion the result is the on-device details in listing order |
| `Commutes.SelectsFromNext` | tag_commutes.py:62-77 | one turn of the loop keeps that guarantee, with the candidates extended by the activity when it is an outdoor ride |
| `Commutes.SelectStep` | tag_commutes.py:62-77 | one turn of the loop skips a non-ride, aborts on a failed fetch, or appends the detail exactly when it is on the device |
| `Commutes.AbortIsFinal` | tag_commutes.py:72 | after a detail fetch raises, the rest of the listing is not processed |
| `Commutes.GetCallsAt` | tag_commutes.py:68-71 | the k-th detail request is for the k-th fetched id |
| `Commutes.DeviceActivities` | tag_commutes.py:44-79 | the first request is the listing for the day's window and every later request is a detail fetch |
| `Commutes.FetchesOnlyOutdoorRides` | tag_commutes.py:62-73 | every detail request is for a listed outdoor ride; on success every outdoor ride is fetched, in listing order |
| `Commutes.KeptAreOnDeviceInOrder` | tag_commutes.py:61-79 | the returned list is exactly the fetched details recorded on the device, in listing order and with their multiplicity; so it is a subsequence of the fetched details and holds a detail iff it is fetched and on the device |
| `Commutes.GetActivitiesFromDevice` | tag_commutes.py:44-79 | the loop returns exactly `DeviceActivities`: the same kept details (or abort) and the same requests |
| `Commutes.UpdateActivity` | tag_commutes.py:82-92 | one update request for that id whose body sets commute to true and the gear to the given id, reporting success iff the status is 200 |
| `Commutes.UpdateCalls` | tag_commutes.py:109-119 | defined as one commute-on-bike update request per kept activity that is not already tagged, in order; at most one per kept activity |
| `Commutes.UpdateCallsMembers` | tag_commutes.py:112-119 | an update request is issued for exactly the kept activities that are not already a commute on the bike, always with the commute-on-bike body |
| `Commutes.OneUpdatePerActivity` | tag_commutes.py:112-119 | with distinct ids, an activity already a commute with gear `BIKE_ID` gets no update and every other kept activity gets exactly one |
| `Commutes.ReportFor` | tag_commutes.py:112-122 | the outcome for one kept activity names it; it is a skip iff the activity is already tagged, and otherwise a success iff the update returned 200 |
| `Commutes.Reports` | tag_commutes.py:109-122 | one outcome per kept activity |
| `Commutes.ReportsClassify` | tag_commutes.py:109-122 | one outcome per kept activity, naming it: skipped iff already a commute on the bike, otherwise tagged iff the update returned 200 |
| `Commutes.DecideStep` | tag_commutes.py:109-122 | one turn of the update loop adds the update request exactly when the activity is not already tagged, and adds its outcome |
| `Commutes.TagDay` | tag_commutes.py:95-122 | a day's run starts with the listing request for that day's window |
| `Commutes.UpdatesOnlyKeptActivities` | tag_commutes.py:101-122 | every update request of a day is for a kept on-device activity that is not already tagged, with the commute-on-bike body; no kept activity means no update |
| `Commutes.TagCommutesForDate` | tag_commutes.py:95-122 | the loop produces exactly `TagDay`: the same requests and reports, and an update answered with a status other than 200 does not stop it |
| `Commutes.TargetDatesFromClock` | tag_commutes.py:131-134 | when the two clock reads fall on the same UTC date, the dates computed are that date minus two days and minus one day, in that order |
| `Commutes.ClockRaceSkipsADay` | tag_commutes.py:131-134 | clock reads one second apart on either side of a UTC midnight give dates two days apart, so the day between is not handled |
| `Commutes.UntilAbort` | tag_commutes.py:136-137 | defined as the planned runs up to and including the first one that raised; its guarantees are stated by `UntilAbortSpec` |
| `Commutes.UntilAbortSpec` | tag_commutes.py:136-137 | the runs that happen are a prefix of the planned days, at least one; all but the last completed; when a day is left out, the last run raised |
| `Commutes.UntilAbortFrom` | tag_commutes.py:136-137 | from any planned day, that day runs and the following ones run iff it completed |
| `Commutes.TwoDays` | tag_commutes.py:131-137 | the day before yesterday runs first; yesterday runs after it iff the first day completed |
| `Commutes.TagCommutes` | tag_commutes.py:125-139 | the loop over the two dates produces exactly the planned day runs up to the first one that raised |

## Left out

- Network and library calls are not modelled as code. This covers the token
  refresh (tag_commutes.py:22-41), the Garmin login and query
  (sync.py:24-43) and the spreadsheet client setup (sync.py:46-67). The
  results the decisions depend on are function parameters. The token
  request and the Garmin login are not in the request traces.
- Reading environment variables and decoding the base64/JSON credentials are
  left out, and so is the `ValueError` raised when one of them is missing.
  Most of this runs before any decision. The exception is
  `GOOGLE_SERVICE_ACCOUNT_JSON`, which is read and decoded inside
  `get_google_sheet` (sync.py:48-58). That happens only at sync.py:113, after
  the heart-rate decision, so a missing variable ends the script with status
  1 after the fetch. The line below on opening the sheet covers that failure.
- The `dateparser` library and its French parsing rules are left out. The
  parser is any function from text to an optional date-time.
- Wall-clock reads (`date.today()`, `datetime.now(timezone.utc)`) are left
  out. "Today" is a parameter: the local date for `sync.py`, the UTC date of
  the current instant for `tag_commutes.py`.
- TagCommutes: takes a single `today` and so handles the two consecutive
  days before it. The script reads the clock twice (tag_commutes.py:132 and
  133). When the reads straddle a UTC midnight, the first date is two days
  before the earlier read and the second is one day before the later read.
  One day is then skipped, and the two query windows do not abut. `ClockDates` and `ClockRaceSkipsADay`
  model that case; `TagCommutes` and `WindowsAbut` assume it does not happen.
- Printing is left out. The model records which branch ran (`Report`, the
  exit code) instead.
- Conversion between a day number and year/month/day is left out. No
  decision depends on it.
- SyncRestingHr: the heart-rate fetch is a function whose None covers both a
  failed query, which `get_garmin_resting_hr` turns into None (sync.py:37-43),
  and a failed `garth.login` (sync.py:33), which is outside the `try` and
  raises. Either way the script ends with status 1 before the sheet is
  opened, as the model's exit code 1 says.
- SyncRestingHr: opening the sheet (sync.py:113), reading the date column
  (sync.py:76) and writing the cell (sync.py:125) are assumed to succeed. In
  the script any of them can raise, which ends it with status 1; the model
  does not promise that, and its exit code 0 after `UpdateCell` holds only
  when the write succeeds.
- TagCommutesForDate: `requests.put` in `update_activity` (tag_commutes.py:84-91)
  is outside any `try`, so a transport error ends the program. The model's
  update always returns a status, so "a failed update does not stop the
  loop" covers only a status other than 200.
- The activity `name` field is left out. It is only printed.
- A listing entry without `id` (`activity['id']`, tag_commutes.py:69) and a
  fetched detail without `id` (`activity["id"]`, tag_commutes.py:110) are
  left out. Either would raise `KeyError` in the script; every `Summary` and
  every `Detail` in the model has an id.
- JSON values of the wrong type are left out. `trainer` and `commute` are
  JSON booleans in the model, so truthiness means `true`.

## Findings

| source | as written | input that shows it | evidently intended | confidence | as-written member | corrected member |
|---|---|---|---|---|---|---|
| tag_commutes.py:131-134 | the two target dates come from two separate reads of the UTC clock | first read at 3 * 86400 - 1 s, second at 3 * 86400 s: the dates are day 0 and day 2, and day 1 is never handled | both dates from one reading of today, so they are the two consecutive days before it | medium, not executed | `Commutes.ClockRaceSkipsADay` | `Commutes.TargetDates` |
