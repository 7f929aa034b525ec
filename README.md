# Kindle wall calendar: event-to-display pipeline

This project models the rendering core of a small dashboard server
(`server.js`). The server fetches upcoming events from one calendar and shows
them in two ways:

- **Formatters.** `formatDate`, `formatTime` and `formatLastUpdated` turn a
  local wall-clock value into German labels such as `"Mo, 3. Jun"`, `"11:00"`
  and `"Mo, 3. Jun um 11:00"`. They use the weekday table `DAYS` and the
  month table `MONTHS`.
- **JSON projection.** `/api/events` maps every upstream event to
  `{summary, start, end, isAllDay}`, using JavaScript's `||` and `!`.
- **Page.** `/` appends one `<div class="event">` block per event to
  `eventsHtml`. If no block was appended, the fixed placeholder
  `<p>Keine anstehenden Termine</p>` is shown instead. The result goes into a
  fixed HTML page template.

Modules:

- `Wrappers`: `Option`, which stands for a JavaScript property that may be
  `undefined`.
- `JsValues`: the JavaScript semantics the code relies on. This covers
  truthiness (`''` counts as absent), `||`, `${…}` interpolation,
  `Number.toString` and `padStart`.
- `Formatters`: the two tables and the three formatters.
- `Events`: upstream events and the `/api/events` projection.
- `Page`: the event blocks, the accumulation loop (`RenderPage`), the
  placeholder and the page template.

Things outside the model are passed in as parameters:

- The projection into the configured time zone is `toLocal: string -> Projected`.
  It returns the local weekday, day, month, hour and minute (`Local`), or
  JavaScript's Invalid Date. It stands for
  `new Date(new Date(s).toLocaleString('en-US', {timeZone: TIMEZONE}))` for the
  fixed `TIMEZONE`.
- "Now" is a `WallClock` value.
- The calendar's summary and the event list are the results of the two
  calendar calls.

Behaviour of the code that is easy to get wrong. The model follows the code
in each case:

- **Unparseable moments.** One might expect an unparseable moment to raise a
  format error. The code never raises one. An Invalid Date renders as
  `"undefined, NaN. undefined"` and `"NaN:NaN"`, because `DAYS[NaN]` is
  `undefined` and `"NaN".padStart(2, '0')` is `"NaN"`. A missing start
  (`new Date(undefined)`) behaves the same way. See
  `Formatters.InvalidDateLabels`.
- **Empty titles.** A `??`-style fallback would keep an empty summary. The
  code uses `||`, so an empty summary also becomes `"No title"`.
- **Missing calendar name.** The calendar name is interpolated as is. A
  missing summary is printed as `undefined`.
- **Title escaping.** Titles are inserted without HTML escaping. So "one
  block per event" is proved about how the text is built, not by counting
  occurrences of `<div class="event">`.

## Model

| member | source | states |
|---|---|---|
| `JsValues.Truthy` | server.js:80-83 | JavaScript truthiness of a string property: false for `undefined` and for `''`; defined by its body, used by `Or`, `OrElse` and `isAllDay` |
| `JsValues.Or` | server.js:81-82 | JavaScript’s or-operator on optional strings: the result is one of the two operands, and it is truthy exactly when one of them is |
| `JsValues.OrElse` | server.js:80 | `a` or a literal fallback: the result is the fallback or the present value of `a`, and it is never empty when the fallback is not |
| `JsValues.Interpolate` | server.js:200 | `${v}` spells a missing value as `"undefined"`; defined by its body |
| `JsValues.NumberToString` | server.js:47-54 | `toString` of a getter's result is never empty; NaN prints as `"NaN"`, a number as `NatToString` (properties in `NatToStringRoundTrip`) |
| `JsValues.NatToString` | server.js:53-54 | `getHours().toString()` is non-empty text, and it is one character long exactly for numbers below 10 |
| `JsValues.NatToStringDigits` | server.js:53-54 | the decimal text contains only digits, and has no leading zero unless it is `"0"` |
| `JsValues.NatToStringRoundTrip` | server.js:53-54 | reading the decimal text back as digits gives the original number |
| `JsValues.NatToStringInjective` | server.js:47 | two different day numbers never print the same |
| `JsValues.PadStart` | server.js:53-54 | `padStart(width, fill)` is as long as the larger of the input's length and `width` |
| `JsValues.PadStartShape` | server.js:53-54 | the padded text is fill characters followed by the original text, unchanged |
| `JsValues.LeadingZeroValue` | server.js:53-54 | a leading `'0'` added by padding does not change the value the digits show |
| `JsValues.TwoDigits` | server.js:53-54 | a number below 100, converted and padded to width 2 with `'0'`, is exactly two digits showing that number |
| `Formatters.GetDay` | server.js:47 | `localDate.getDay()` on the projected date: NaN exactly for an Invalid Date, otherwise a weekday index below 7 |
| `Formatters.GetDate` | server.js:47 | `localDate.getDate()`: NaN exactly for an Invalid Date, otherwise a day of the month from 1 to 31 |
| `Formatters.GetMonth` | server.js:47 | `localDate.getMonth()`: NaN exactly for an Invalid Date, otherwise a month index below 12 |
| `Formatters.GetHours` | server.js:53 | `localDate.getHours()`: NaN exactly for an Invalid Date, otherwise an hour below 24 |
| `Formatters.GetMinutes` | server.js:54 | `localDate.getMinutes()`: NaN exactly for an Invalid Date, otherwise a minute below 60 |
| `Formatters.Lookup` | server.js:47 | `DAYS[k]` or `MONTHS[k]` in a template: an entry of the table or `"undefined"`, and `"undefined"` for NaN |
| `Formatters.Pad2` | server.js:53-54 | `toString().padStart(2, '0')` is at least two characters; for a valid hour or minute see `TwoDigits` |
| `Formatters.FormatDate` | server.js:44-48 | `formatDate`, defined by its body on the projected date; its properties are `FormatDateInRange`, `FormatDateInjective` and `InvalidDateLabels` |
| `Formatters.FormatTime` | server.js:50-57 | `formatTime`, defined by its body on the projected date; its properties are `FormatTimeShape`, `FormatTimeInjective` and `InvalidDateLabels` |
| `Formatters.TablesWellFormed` | server.js:40-41 | `DAYS` has 7 entries of 2 letters and `MONTHS` has 12 entries of 3 letters; neither table holds `undefined` |
| `Formatters.DaysDistinct` | server.js:40 | the weekday names are pairwise distinct |
| `Formatters.MonthsDistinct` | server.js:41 | the month names are pairwise distinct |
| `Formatters.FormatDateInRange` | server.js:44-48 | for a valid local date both table lookups are in range; the label is `DAYS[wd] + ", " + day + ". " + MONTHS[m]` |
| `Formatters.FormatDateInjective` | server.js:44-48 | the date label determines the weekday, the day of the month and the month |
| `Formatters.FormatTimeShape` | server.js:50-57 | a valid local time gives 5 characters `HH:MM`: digits, `':'` at index 2, digits; the two pairs read back as the hour and the minute |
| `Formatters.FormatTimeInjective` | server.js:50-57 | the time label determines the hour and the minute |
| `Formatters.FormatLastUpdated` | server.js:59-66 | the last-updated text is the date label of "now", then `" um "`, then the time label of "now"; it ends in `HH:MM` |
| `Formatters.InvalidDateLabels` | server.js:44-57 | an Invalid Date does not raise: it renders as `"undefined, NaN. undefined"` and `"NaN:NaN"` |
| `Formatters.MondayDateLabel` | server.js:44-48 | Monday the 3rd of June renders as `"Mo, 3. Jun"` |
| `Formatters.ElevenOClockLabel` | server.js:50-57 | 11:00 renders as `"11:00"`, with the minutes padded to `"00"` |
| `Events.Moment` | server.js:81-82 | the fallback from `t.dateTime` to `t.date` is one of the two fields; see `MomentChoice` |
| `Events.ToApiEvent` | server.js:79-84 | the `map` callback, defined by its body; its properties are `AllDayIffNoTimestamp`, `TitleFallback` and `MomentChoice` |
| `Events.ApiEvents` | server.js:79-84 | the JSON array has one element per upstream event; element `i` is the projection of event `i` alone |
| `Events.ApiEventsAppend` | server.js:79-84 | projecting a concatenation of event lists gives the concatenation of the projections |
| `Events.AllDayIffNoTimestamp` | server.js:81-83 | `isAllDay` holds exactly when `start.dateTime` is absent or empty; the start sent is then `start.date`, and otherwise the non-empty `start.dateTime` |
| `Events.MomentChoice` | server.js:81-82 | the fallback from `dateTime` to `date` is `dateTime` when that is non-empty and `date` otherwise; the result is non-empty iff one of the two is |
| `Events.TitleFallback` | server.js:80 | the title is the summary when that is non-empty and `"No title"` otherwise; it is never empty |
| `Page.Project` | server.js:45-52 | `new Date(start)` projected into the zone, with a missing start giving Invalid Date; defined by its body from `toLocal` |
| `Page.ToDisplay` | server.js:112-120 | the three values the `forEach` callback interpolates; defined by its body; its properties are `DisplayAgreesWithApi` and `TimedEventShowsClock` |
| `Page.BlockHtml` | server.js:116-122 | the block template around the three values, defined by its body; its properties are `BlockHtmlInjective` and `BlockLongerThanPlaceholder` |
| `Page.EventBlock` | server.js:112-122 | the text one callback call appends; see `EventBlockDeterminesLabels` |
| `Page.Accumulate` | server.js:111-123 | `eventsHtml` after appending one block per event in turn, from `''`; its properties are `AccumulateAppend` and `AccumulateAround` |
| `Page.PageHtml` | server.js:127-205 | the page template around the calendar name, the event section and the last-updated text, defined by its body; see `PlaceholderIffNoEvents` |
| `Page.BlockLongerThanPlaceholder` | server.js:116-122 | every block is longer than the placeholder text |
| `Page.Blocks` | server.js:111-123 | the accumulated `eventsHtml` is empty exactly when there are no events |
| `Page.RenderPage` | server.js:109-205 | the `forEach` loop builds, event by event, exactly the accumulation `Blocks(events)`; the page is the template around it and around `formatLastUpdated` of "now" |
| `Page.AccumulateAppend` | server.js:111-123 | appending blocks over a concatenation of lists gives the concatenation of the two accumulations |
| `Page.AccumulateAround` | server.js:111-123 | an event's block sits between the accumulations of the events before it and after it |
| `Page.BlocksAppend` | server.js:111-123 | the blocks for `a + b` are the blocks for `a` followed by the blocks for `b` |
| `Page.BlockAt` | server.js:111-123 | event `i` contributes exactly one block, placed after the blocks of events `0..i-1` and before those of the later events (input order); identical events give identical, repeated block text |
| `Page.FormatTimeNotMarker` | server.js:119 | no time label equals `'Ganztägig'`, so the time cell tells all-day and timed events apart |
| `Page.DisplayAgreesWithApi` | server.js:112-120 | the HTML and JSON paths agree for every event: same title, date label of the same start, `'Ganztägig'` in the time cell exactly when JSON says `isAllDay`, and otherwise the time label of that start |
| `Page.TimedEventShowsClock` | server.js:113-119 | an event with a timestamp start shows the zone's `HH:MM` for it and its weekday/day/month label |
| `Page.BlockHtmlInjective` | server.js:116-122 | given date and time cells with no markup, a block determines its date, time and title cells |
| `Page.EventBlockDeterminesLabels` | server.js:116-122 | two events give the same block only if they show the same date, time and title |
| `Page.PlaceholderIffNoEvents` | server.js:201 | the section `eventsHtml`-or-placeholder is the placeholder when there are no events and the blocks otherwise; the blocks never equal the placeholder |
| `Page.StandupExample` | server.js:112-120 | an event at 09:00Z that the zone shows as Monday 3 June 11:00 gets the labels `"Mo, 3. Jun"`, `"11:00"`, `"Standup"` and is not all-day |
| `Page.VacationExample` | server.js:112-120 | an event with bare dates gets `'Ganztägig'` and `isAllDay: true` in JSON, in any time zone |

## Left out

- Express wiring is HTTP I/O and not modelled. This covers static files, route registration, `res.send`, `res.json`, `res.status`, `app.listen` and the listening log line (server.js:12-16, 69, 94, 207, 229-231).
- `res.json` turning the array into JSON text is not modelled. The model stops at the array of records, where an absent `start`/`end` is `None`.
- The Google API calls are not modelled (server.js:19-29, 71-77, 97-107). They are network calls into a foreign library. Their results are inputs: the calendar summary and the event list. Ordering by start time, `singleEvents` expansion and the 10-item cap happen upstream, so they are not properties here.
- Date parsing and time-zone conversion are foreign code backed by the Intl/IANA database. They become the parameter `toLocal`. This also covers how such strings are interpreted, including `new Date('')`.
- Clock reads become parameters. The `WallClock` argument stands for `new Date()` in `formatLastUpdated`. The `timeMin` value only feeds the upstream call.
- `dotenv`/`process.env` configuration is environment I/O. `TIMEZONE` is folded into `toLocal`, and `CALENDAR_ID` is used only by the upstream calls.
- The try/catch 500 responses and `console.error` are not modelled. Their bodies are fixed strings and the logging is I/O. An event without a `start` object throws in both handlers (server.js:81, 113), and one without an `end` object throws in `/api/events` only (server.js:82; the `/` handler never reads `end`). Such events are outside the event datatype.
- getjstoken.js is not part of this model. It is an interactive OAuth bootstrap made of library calls, a one-shot local listener and console output.
- Client-side refresh is not modelled. The page head carries `<meta http-equiv="refresh" content="3600">` as constant text, and no property is stated about it.
- Rendering twice with the same inputs gives the same page because every function here is deterministic. No separate lemma states this.
- Page.BlockAt: "exactly K blocks" is stated structurally (block `i` sits at its place in the concatenation), not as a count of `<div class="event">` occurrences. Titles are inserted without HTML escaping, so a title can contain that text.
- Formatters.FormatLastUpdated: takes "now" as a valid `WallClock`, so the re-parse `new Date(now.toLocaleString(...))` (server.js:61) is assumed to succeed; unlike an event's moment it cannot come back as Invalid Date, because `new Date()` is always a valid date.
