# Almanac core, modelled in Dafny

Almanac is a small Next.js application with two halves. The first is a
time tracker: a user logs a start and an end time ("HH:MM") per project
and day. The server turns the logs into durations, weekly, monthly and
all-time-average figures, and a per-day series for the month chart. The
day page shows the day's hours and minutes, and the calendar page shows a
Monday-first month grid and exports the month as a spreadsheet. The
second half is an observation gallery with invoices. Each observation
carries a bill of material lines. The pop-up editor recomputes line
totals from quantity and unit cost. The selected observations aggregate
into one bill and into a generated offer, a slide deck of at most seven
table rows per slide with the grand total on the last slide.

This project models the calculations at the heart of both halves and
proves their properties:

- `wrappers.dfy`, module `Wrappers`: `Option`.
- `time_of_day.dfy`, module `TimeOfDay`: "HH:MM" strings, clock minutes
  and `calculateDuration` with its overnight wrap.
- `time_stats.dfy`, module `TimeStats`: the statistics pass of the
  `getTimeLog` endpoint, the month's daily series, and the one-log-per-day
  upsert of `saveTimeLog`.
- `today.dfy`, module `Today`: the day page's total, the save guard and
  the chart click guard.
- `invoice.dfy`, module `Invoice`: the gallery's bill edits, totals,
  selection set and aggregation.
- `slicing.dfy`, module `Slicing`: cutting a sequence into consecutive
  runs of seven, which both the offer deck and the calendar grid do.
- `offer_report.dfy`, module `OfferReport`: the offer's flattened table,
  grand total, slides and date stamp, and `dataUrlToBlob`.
- `calendar_grid.dfy`, module `CalendarGrid`: the month grid and the
  spreadsheet rows.

Conventions of the model:

- A clock time is a `Minute`, 0 to 1439.
- A day is an integer day number.
- The date library's results are parameters: the week's and month's
  bounds, the month's length and the weekday of its first day.
- The browser functions `parseFloat` and `atob` are parameters. `None`
  stands for NaN, or for the exception `atob` throws.
- Money and hours are `real`.
- A JavaScript `Set` of selected ids is a sequence without repeats, in
  insertion order.

The page checks only the pattern `^\d{2}:\d{2}$` (pages/index.js:235-236),
which lets "25:00" or "12:75" through to a JavaScript `Date` that is
invalid. The model follows the code. `ParseTime` rejects such strings,
and `TodayTotal` then shows NaN (`NotANumber`) as the page does.

## Model

| member | source | states |
|---|---|---|
| TimeOfDay.IsTimeString | pages/index.js:209-210 | A string matches `^\d{2}:\d{2}$` exactly when it has five characters, a colon in the middle and ASCII digits `0`–`9` around it |
| TimeOfDay.ParseTime | pages/api/getTimeLog.js:17-18 | A string reads as a clock time exactly when it is two digits, a colon and two digits with hours below 24 and minutes below 60; the value's hour and minute are those fields |
| TimeOfDay.ParseFormat | pages/api/getTimeLog.js:17-18 | Reading the "HH:MM" spelling of any clock time gives that time back |
| TimeOfDay.FormatParse | pages/api/getTimeLog.js:17-18 | A string that reads as a clock time is the spelling of that time, so each time has one spelling |
| TimeOfDay.CalculateDuration | pages/api/getTimeLog.js:16-21 | The duration is below one day, start plus duration lands on end modulo a day, and it is 0 exactly when start equals end |
| TimeOfDay.DurationUnique | pages/api/getTimeLog.js:16-21 | Any offset below a day leading from start to end on the clock is the computed duration: same-day gives end − start, overnight gives end + 1440 − start |
| TimeOfDay.DurationChain | pages/api/getTimeLog.js:16-21 | Two consecutive durations add up to the direct one, or to it plus a whole day |
| TimeOfDay.DurationOfStrings | pages/api/getTimeLog.js:16-21 | A duration exists exactly when both strings are clock times; it is below a day, the start plus it lands on the end modulo a day, which fixes its value, and it is 0 for equal strings |
| TimeOfDay.DurationExamples | pages/api/getTimeLog.js:16-21 | 23:00→01:00 is 120 minutes, 08:00→16:30 is 510, equal times give 0, and "25:00" gives no duration |
| TimeStats.RangeAtMostTotal | pages/api/getTimeLog.js:58-64 | A period's minutes never exceed the all-time minutes |
| TimeStats.RangeWhollyInside | pages/api/getTimeLog.js:62-63 | With every log inside the period, boundary days included, the period holds all minutes |
| TimeStats.RangeWhollyOutside | pages/api/getTimeLog.js:62-63 | With no log inside the period, the period holds no minutes |
| TimeStats.RangeSplitLast | pages/api/getTimeLog.js:62-63 | A period's minutes are those of all its days but the last, plus those of its last day |
| TimeStats.FindLog | pages/api/getTimeLog.js:73 | `find` gives nothing exactly when no log has the date, and otherwise the first log with it |
| TimeStats.FindLogUnique | pages/api/getTimeLog.js:73 | With one log per day, looking up a log's date gives that log |
| TimeStats.FindLogAppend | pages/api/getTimeLog.js:73 | Looking up a day after a log is added at the end gives the old answer, else the new log when it has that date |
| TimeStats.RangeOneDay | pages/api/getTimeLog.js:62-63 | With one log per day, a one-day period holds exactly that day's minutes |
| TimeStats.DayEntryOf | pages/api/getTimeLog.js:71-75 | A day's entry carries its date and non-negative hours equal to its minutes over 60 |
| TimeStats.DailyLogs | pages/api/getTimeLog.js:69-76 | One entry per day of the month, dates ascending from the first, hours 0 for an unlogged day and the log's duration over 60 otherwise |
| TimeStats.DailyLogsSumToMonth | pages/api/getTimeLog.js:63-76 | With one log per day, the daily series adds up to the monthly minutes |
| TimeStats.SplitMinutes | pages/api/getTimeLog.js:81-82 | hours·60 + minutes equals the total, with minutes in [0, 60) |
| TimeStats.Average | pages/api/getTimeLog.js:66 | The average is 0 with no logs, and otherwise times the count gives the all-time minutes |
| TimeStats.JsRound | pages/api/getTimeLog.js:83 | The rounded value lies within one half of its argument, halves going up |
| TimeStats.SplitAverage | pages/api/getTimeLog.js:83 | Hours are the floored hours of the average; hours·60 + minutes is within one half of the average, and minutes lie in [0, 60] |
| TimeStats.AverageMinutesReachSixty | pages/api/getTimeLog.js:83 | Logs of 60 and 59 minutes show an average of 0 hours and 60 minutes |
| TimeStats.AccumulateMinutes | pages/api/getTimeLog.js:52-64 | The loop's all-time, weekly and monthly sums are the total and the two inclusive period sums, and each period sum is at most the total |
| TimeStats.ComputeStats | pages/api/getTimeLog.js:52-86 | Weekly and monthly hours·60 + minutes equal their period sums, with minutes below 60, and neither exceeds the total. The average is the split of total over count. An empty log set gives zeros. The series is `DailyLogs`; with unique dates it adds up to the month |
| TimeStats.Upsert | pages/api/saveTimeLog.js:23-33 | A save adds a log only when the day had none, and every resulting log is the saved one or an old one |
| TimeStats.UpsertFind | pages/api/saveTimeLog.js:23-33 | After a save, the saved day reads back as the saved log and every other day reads as before |
| TimeStats.UpsertKeepsUnique | pages/api/saveTimeLog.js:23-33 | A save keeps one log per day |
| TimeStats.UpsertLastWins | pages/api/saveTimeLog.js:23-33 | Saving the same day twice equals saving only the second time |
| Today.TodayTotal | pages/index.js:234-244 | [0, 0] when a field misses the pattern; NaN exactly when a patterned field is not a clock time; otherwise hours below 24, minutes below 60, and hours·60 + minutes equals the overnight-wrapped duration |
| Today.TodayTotalExamples | pages/index.js:234-244 | 08:00→16:30 shows 8 h 30 m, 23:00→01:00 shows 2 h 0 m, a placeholder shows 0 0, and "25:00" shows NaN |
| Today.IsSelected | pages/index.js:204 | A project counts as selected unless its id is missing or the empty string, the two falsy strings of `!selectedProjectId` |
| Today.ShouldSave | pages/index.js:202-212 | An edit is saved only after loading, with a selected project among a non-empty list, and with both times matching the pattern, and always once all of these hold; a blocked save after loading with a selected project means the page shows [0, 0] |
| Today.SavedTotalMatchesServer | pages/index.js:202-212 | For a saved pair of clock times, the page's total equals the server's duration |
| Today.OnBarClick | pages/index.js:253-256 | A non-number index, or one that is not a whole index of an entry, keeps the date; a valid index moves to that entry's date |
| Invoice.Recompute | pages/gallery.js:104-107 | The line's total becomes quantity times unit cost, missing values counting 0, and nothing else changes |
| Invoice.ComputeMaterials | pages/gallery.js:104-107 | Every line is recomputed, in the same order |
| Invoice.ComputeMaterialsIdempotent | pages/gallery.js:104-107 | Recomputing recomputed lines changes nothing |
| Invoice.SumTotals | pages/gallery.js:152-155 | The `reduce` of line totals is never negative when no line total is |
| Invoice.SumTotalsAppend | pages/gallery.js:108 | The `reduce` of a concatenation is the sum of the two reduces |
| Invoice.ComputedTotalIsSumOfCosts | pages/gallery.js:104-108 | The totals of the recomputed lines add up to the sum of quantity × unit cost over the lines, never the stored totals; 0 for an empty bill |
| Invoice.ComputedTotal | pages/gallery.js:108 | `computedTotal` is the sum of quantity × unit cost over the pop-up's lines, and 0 for an empty bill |
| Invoice.ComputedTotalExample | pages/gallery.js:104-108 | 10 at 20 and 2 at 700 cost 200 and 1400, 1600 in all |
| Invoice.UpdateMaterial | pages/gallery.js:73-85 | Only line `idx` changes, and only the edited field; quantity and unit cost take `parseFloat(value) || 0`, name and unit the text |
| Invoice.SumCostsUpdate | pages/gallery.js:73-85 | Replacing one line moves the sum of costs by the difference of the two lines' costs |
| Invoice.UpdatedSumCosts | pages/gallery.js:73-85 | After an edit, the sum of line costs moves by the change in the edited line's cost; a name or unit edit keeps that cost, and a quantity edit makes it the new quantity times the unit cost |
| Invoice.UpdateMaterialTotal | pages/gallery.js:73-108 | Editing a name or unit leaves the total alone; editing a quantity or unit cost moves it by exactly the change in that line's cost |
| Invoice.AddMaterial | pages/gallery.js:86-98 | One blank line with quantity 1 and unit cost 0 is appended, the old lines stay, and the total is unchanged |
| Invoice.FilterOutIndex | pages/gallery.js:100 | The filter from a position drops the line at `idx` when it lies ahead, and keeps the rest |
| Invoice.RemoveMaterial | pages/gallery.js:99-101 | Exactly line `idx` goes and the others keep their order; an index naming no line changes nothing |
| Invoice.Delete | pages/gallery.js:62 | Removing an id keeps exactly the other ids, and a set without repeats stays so |
| Invoice.DeleteKeepsOrder | pages/gallery.js:62 | In a set without repeats, removing a present id cuts it out at its position and keeps the others in insertion order |
| Invoice.DeleteAbsent | pages/gallery.js:62 | Removing an id that is not there changes nothing |
| Invoice.ToggleSelect | pages/gallery.js:59-65 | The id is selected afterwards exactly when it was not before, other ids keep their state, and there are no repeats; a new id goes at the end, and a present one is cut out where it stood, the others keeping their order |
| Invoice.ToggleTwice | pages/gallery.js:59-65 | Toggling an id twice gives back the same ids, and for an id not selected the very same sequence |
| Invoice.FindIndex | pages/gallery.js:113 | No index exactly when no observation has the id, and otherwise the first one with it |
| Invoice.HandlePopupSave | pages/gallery.js:111-125 | Without a pop-up, or when its observation is gone, nothing changes. Otherwise that observation's bill becomes the recomputed lines and its total their sum of costs, the pop-up closes, and every other observation stays |
| Invoice.FindItem | pages/gallery.js:144 | `items.find` gives the observation at the first index with the id, and nothing when there is none |
| Invoice.AggregatedMaterials | pages/gallery.js:143-151 | There are as many aggregated lines as the matched observations' bills hold together, and every one has its total recomputed from quantity and unit cost |
| Invoice.Bills | pages/gallery.js:143-151 | One recomputed bill per selected id, in selection order, empty for an id naming no observation |
| Invoice.AggregatedIsConcat | pages/gallery.js:143-151 | The aggregated lines are the selected bills joined one after the other |
| Invoice.MatchedPrefixCount | pages/gallery.js:143-151 | The ids selected before the k-th hold as many lines as the first k bills |
| Invoice.AggregatedPosition | pages/gallery.js:143-151 | Line j of the k-th selected bill sits at the number of lines the earlier ids hold, plus j |
| Invoice.AggregatedAt | pages/gallery.js:143-151 | Line j of the observation the k-th selected id names is listed, recomputed, at the number of lines the earlier ids hold, plus j |
| Invoice.AggregatedTotalIsSumOfSelected | pages/gallery.js:143-155 | The aggregated total is the sum of the selected observations' bill costs in selection order; unmatched ids add 0 |
| Invoice.UnmatchedSelectionAddsNothing | pages/gallery.js:144-150 | Selecting an id that names no listed observation leaves the aggregated lines unchanged |
| Slicing.ConcatAt | lib/helpers.js:34 | Element j of part k sits in the joined parts after the elements of the parts before it |
| Slicing.ConcatAtOffset | lib/helpers.js:34 | The same position, with the joined parts and the length before part k given by name |
| Slicing.ConcatPrefix | lib/helpers.js:49-50 | The first k chunks joined are the rows up to where chunk k−1 ends |
| Slicing.SlicingProperties | lib/helpers.js:49-50 | The chunks joined give back the rows; each chunk has 1 to 7 rows, all but the last exactly 7; there are no chunks exactly when there are no rows |
| Slicing.SliceOfItem | pages/calendar.js:220-223 | Element j sits in chunk j / 7 at position j % 7 |
| OfferReport.OfferLineOf | lib/helpers.js:35-41 | An offer row carries its line's name, quantity, unit and unit cost, and costs quantity times unit cost |
| OfferReport.OfferLines | lib/helpers.js:35-41 | One offer row per bill line, in order |
| OfferReport.FlattenItems | lib/helpers.js:34-42 | The flattened table has as many rows as the observations have lines, each costing quantity × unit cost |
| OfferReport.FlattenAt | lib/helpers.js:34-42 | Line j of observation i sits at the number of lines before observation i, plus j |
| OfferReport.GrandTotal | lib/helpers.js:45 | `grandTotal` is never negative when no row total is |
| OfferReport.OfferTotalIsComputedTotal | lib/helpers.js:40-45 | The offer's grand total of a bill equals the gallery's `computedTotal` of the same bill |
| OfferReport.GrandTotalAppend | lib/helpers.js:45 | The grand total of a concatenation is the sum of the two grand totals |
| OfferReport.OfferLinesTotal | lib/helpers.js:40-45 | The rows of one bill total its sum of costs |
| OfferReport.GrandTotalOfObservations | lib/helpers.js:34-45 | The offer's grand total is the sum of the observations' bill costs |
| OfferReport.SlideRows | lib/helpers.js:50 | One table per slide, each being that slide's rows |
| OfferReport.BuildSlides | lib/helpers.js:48-127 | The slides' tables are the rows cut into consecutive runs of seven; a slide shows the grand total exactly when it is the last |
| OfferReport.SlidesShowEveryRowOnce | lib/helpers.js:48-127 | Every row appears once, in order, at most seven per slide; no rows means no slides, and otherwise exactly one slide shows the total |
| OfferReport.GenerateOffer | lib/helpers.js:23-127 | The deck is stamped with the offer date; its tables are the flattened rows cut into runs of seven; there are slides exactly when there are lines; only the last slide shows a total, and that total is the sum of the observations' bill costs |
| OfferReport.DecimalString | lib/helpers.js:28-30 | `String(n)` is a non-empty string of digits with no leading zero, one digit exactly for n below 10 |
| OfferReport.DecimalRoundTrip | lib/helpers.js:28-30 | The digits of `String(n)` denote n |
| OfferReport.LeadingZero | lib/helpers.js:28-29 | A leading zero does not change the number the digits denote |
| OfferReport.PadStart | lib/helpers.js:28-29 | `padStart` keeps the string at the end and fills the front up to the length |
| OfferReport.TwoDigitField | lib/helpers.js:28-29 | A number below 100 padded to two digits reads back as the number |
| OfferReport.OfferDate | lib/helpers.js:27-31 | The stamp is DD.MM.YYYY: dots at 2 and 5, digits elsewhere, reading back as the day, the one-based month and the year, and the year written as `String(year)` |
| OfferReport.LazyEnd | lib/helpers.js:10 | The lazy group ends at the first `;base64` with no line terminator before it, and there is none when a terminator comes first |
| OfferReport.MatchFrom | lib/helpers.js:10 | The leftmost match of `data:(.*?);base64` at or after a position, with the shortest group; none when nothing matches |
| OfferReport.ContentType | lib/helpers.js:10-11 | The content type is the group of the leftmost, shortest match, and `application/octet-stream` when there is no match |
| OfferReport.IndexOf | lib/helpers.js:9 | The first position of a character from a start, or none when it does not occur |
| OfferReport.SplitDataUrl | lib/helpers.js:9 | The header is the text before the first comma and the payload runs to the next comma or to the end of the string; without a comma the payload is "undefined" |
| OfferReport.CopyCharCodes | lib/helpers.js:13-15 | A fresh buffer of the decoded length holds each character code modulo 256 |
| OfferReport.DataUrlToBlob | lib/helpers.js:8-17 | Fails exactly when `atob` fails; otherwise the blob has the header's content type and one byte per decoded character |
| CalendarGrid.DayOffset | pages/calendar.js:213 | The offset lies in [0, 6], and one more than it is the JavaScript weekday modulo 7 |
| CalendarGrid.Cells | pages/calendar.js:214-219 | The cells are `dayOffset` blanks followed by the days 1 to the month's length |
| CalendarGrid.BuildWeeks | pages/calendar.js:220-223 | The weeks are the cells cut into consecutive runs of seven, ceil(cells / 7) of them |
| CalendarGrid.DayColumn | pages/calendar.js:213-219 | Day d's column is its own weekday counted from Monday |
| CalendarGrid.DayInItsColumn | pages/calendar.js:211-223 | Day d sits in week (offset + d − 1) / 7, in the column of its Monday-first weekday |
| CalendarGrid.FindProject | pages/calendar.js:232 | No project exactly when none has the id, and otherwise the first listed project with it |
| CalendarGrid.ProjectName | pages/calendar.js:233 | The name is never empty: the project's own name when it has one, else "Project" |
| CalendarGrid.HeaderRows | pages/calendar.js:237-241 | Five header rows: "Project" with the project's name, "Month" with the month's label, "Total Hours" with the total hours, whose value times 60 is the month's hours·60 + minutes, then an empty row and the headings "Date" and "Hours" |
| CalendarGrid.FindEntry | pages/calendar.js:245 | No entry exactly when none has the day, and otherwise the first entry with it |
| CalendarGrid.HoursOn | pages/calendar.js:245-248 | The hours of the first entry for the day, 0 when no entry has the day; a non-zero value is the hours of an entry for that day |
| CalendarGrid.ExportRows | pages/calendar.js:228-250 | Nothing without a selected project; otherwise 5 header rows and then exactly one row per day, ascending, with the day's hours or 0 |
| CalendarGrid.ExportedHoursAreLogged | pages/calendar.js:243-249 | Built from the month's daily series, each day's exported hours times 60 are that day's logged minutes |

## Left out

- Database access, authentication, request method and field checks, and
  the 401, 400, 405 and 500 responses of the endpoints: they are pass-through
  to MongoDB and Clerk. The endpoints' logs are given as a sequence.
- The OpenAI calls, uploads, media and report fetches, and the QR scanner.
  They are network I/O whose results cannot be specified.
- Slide geometry, images and styling, `ppt.writeFile`, the XLSX writer,
  `toLocaleString` and `toFixed`. These are rendering and float formatting.
  The sheet keeps the total hours as a number tagged for two decimals.
- React state, effects and rendering, the chart's rounded bars and the
  other pages.
- JavaScript `Date`, time zones and daylight saving, and the internals of
  date-fns. Days are day numbers, and the week's and month's bounds, the
  month's length, its label and its first weekday are parameters.
- TimeOfDay.ParseTime: ECMAScript's date-time string format also accepts
  "24:00" as the midnight that ends the day. The model reads "24:00" as no
  clock time. Such a string cannot come from a time input.
- Stored logs with malformed times: logs hold clock minutes, so the NaN
  the server would add for a malformed stored time is not modelled.
- OfferReport.DataUrlToBlob: the `Blob` record holds the content type as it is handed to
  `new Blob`. The constructor lowercases the type, and empties it when a character lies
  outside U+0020 to U+007E. That normalisation is not modelled.
- Floating point: `/ 60`, `parseFloat` results and money amounts are
  exact reals.
- Invoice.UpdateMaterial: requires an index naming a line. With the index
  one past the end, JavaScript would append an object holding only the
  edited field. With a negative index it would set a property that is not
  an element and leave the lines as they were. The pop-up only passes the
  indices of displayed lines.
- OfferReport.GenerateOffer: a line whose unit cost is missing (null or
  undefined) makes `m.unitCost.toLocaleString()` (lib/helpers.js:108)
  throw, so no deck is written. The model builds the slides anyway,
  because `None` here also stands for NaN, which formats without error.
  The editors and the AI schema give a number for every unit cost.
- The `generate_repo` filter (pages/gallery.js:67-70) only picks the
  selected observations in gallery order before the offer is built. The
  offer is modelled from the list it receives.
- The deletion and persistence of observations (`handlePopupDelete`,
  `saveObservationChange`): they are network calls.
- The average's minutes can reach 60 because they are rounded, while the
  weekly and monthly minutes are floored. The model keeps this as written
  and states it in `TimeStats.AverageMinutesReachSixty`.
