/**
 * The `/` handler of server.js: one `<div class="event">` block per event,
 * accumulated in order into `eventsHtml`, the placeholder when there are
 * none, and the page template around them.
 *
 * Time-zone projection is a parameter `toLocal`: it stands for
 * `new Date(new Date(s).toLocaleString('en-US', {timeZone: TIMEZONE}))` with
 * TIMEZONE fixed for the process. A missing start is `new Date(undefined)`,
 * an Invalid Date.
 */
module Page {
  import opened Wrappers
  import opened JsValues
  import opened Formatters
  import opened Events

  /** The time cell of an all-day event. */
  const AllDayMarker: string := "Ganztägig"

  /** What the page shows instead of event blocks when there are none. */
  const Placeholder: string := "<p>Keine anstehenden Termine</p>"

  /** The three values interpolated into one event block. */
  datatype DisplayEvent = DisplayEvent(dateLabel: string, timeLabel: string, title: string)

  /** `new Date(moment)` projected into the configured zone. */
  function Project(toLocal: string -> Projected, moment: Option<string>): Projected {
    match moment
    case None => InvalidDate
    case Some(s) => toLocal(s)
  }

  /** The labels the `events.forEach` callback computes for one event. */
  function ToDisplay(e: CalendarEvent, toLocal: string -> Projected): DisplayEvent {
    var start := Moment(e.start);
    var isAllDay := !Truthy(e.start.dateTime);
    DisplayEvent(
      FormatDate(Project(toLocal, start)),
      if isAllDay then AllDayMarker else FormatTime(Project(toLocal, start)),
      OrElse(e.summary, NoTitle))
  }

  const BlockOpen: string := "\n        <div class=\"event\">\n          <div class=\"event-date\">"
  const DateClose: string := "</div>\n          <div class=\"event-time\">"
  const TimeClose: string := "</div>\n          <div class=\"event-title\">"
  const BlockClose: string := "</div>\n        </div>\n      "

  /** The template literal appended to `eventsHtml` for one event. */
  function BlockHtml(d: DisplayEvent): string {
    BlockOpen + d.dateLabel + DateClose + d.timeLabel + TimeClose + d.title + BlockClose
  }

  function EventBlock(e: CalendarEvent, toLocal: string -> Projected): string {
    BlockHtml(ToDisplay(e, toLocal))
  }

  /** Appending `block(e)` for each `e` of `events` in turn, starting from ''. */
  function Accumulate(events: seq<CalendarEvent>, block: CalendarEvent -> string): string {
    if events == [] then "" else Accumulate(events[..|events| - 1], block) + block(events[|events| - 1])
  }

  /** `eventsHtml` after the `forEach` has visited every event of `events`. */
  function Blocks(events: seq<CalendarEvent>, toLocal: string -> Projected): (r: string)
    ensures r == "" <==> events == []
  {
    var html := Accumulate(events, e => EventBlock(e, toLocal));
    assert events != [] ==> |EventBlock(events[|events| - 1], toLocal)| > 0;
    html
  }

  /** The page text before the calendar's name. */
  const PageHead: string := @"
<!DOCTYPE html>
<html lang=""en"">
<head>
  <meta charset=""UTF-8"">
  <meta name=""viewport"" content=""width=device-width, initial-scale=1.0"">
  <meta http-equiv=""refresh"" content=""3600"">
  <title>Calendar</title>
  <style>
    * {
      margin: 0;
      padding: 0;
      box-sizing: border-box;
    }
    
    body {
      font-family: Arial, sans-serif;
      background: #fff;
      color: #000;
      padding: 20px;
      max-width: 600px;
      margin: 0 auto;
    }
    
    h1 {
      font-size: 28px;
      margin-bottom: 5px;
      border-bottom: 2px solid #000;
      padding-bottom: 10px;
    }
    
    .calendar-name {
      font-size: 14px;
      color: #666;
      margin-bottom: 20px;
    }
    
    .event {
      border-bottom: 1px solid #ccc;
      padding: 15px 0;
    }
    
    .event:last-child {
      border-bottom: none;
    }
    
    .event-date {
      font-size: 14px;
      color: #666;
      margin-bottom: 5px;
    }
    
    .event-time {
      font-size: 16px;
      font-weight: bold;
      margin-bottom: 5px;
    }
    
    .event-title {
      font-size: 18px;
      line-height: 1.4;
    }
    
    .refresh-note {
      margin-top: 30px;
      text-align: center;
      font-size: 12px;
      color: #999;
    }
  </style>
</head>
<body>
  <h1>Anstehende Termine</h1>
  <div class=""calendar-name"">"

  const NameClose: string := "</div>\n  "
  const FooterOpen: string := "\n  <div class=\"refresh-note\">Zuletzt aktualisiert: "
  const FooterClose: string := "<br>Automatische Aktualisierung jede Stunde</div>\n</body>\n</html>\n    "

  /** The page template: calendar name, `eventsHtml || placeholder`, last-updated text. */
  function PageHtml(calendarSummary: Option<string>, eventsHtml: string, lastUpdated: string): string {
    PageHead + Interpolate(calendarSummary) + NameClose + OrElse(Some(eventsHtml), Placeholder)
      + FooterOpen + lastUpdated + FooterClose
  }

  /**
   * The body of the `/` handler once the calendar's summary, the event list
   * and the wall-clock value of "now" have been fetched.
   */
  method RenderPage(calendarSummary: Option<string>, events: seq<CalendarEvent>, now: WallClock,
                    toLocal: string -> Projected)
    returns (html: string)
    ensures html == PageHtml(calendarSummary, Blocks(events, toLocal), FormatLastUpdated(now))
  {
    var eventsHtml := "";
    for i := 0 to |events|
      invariant eventsHtml == Blocks(events[..i], toLocal)
    {
      var event := events[i];
      var start := Or(event.start.dateTime, event.start.date);
      var isAllDay := !Truthy(event.start.dateTime);
      var dateLabel := FormatDate(Project(toLocal, start));
      var timeLabel := if isAllDay then AllDayMarker else FormatTime(Project(toLocal, start));
      var title := OrElse(event.summary, NoTitle);
      assert events[..i + 1][..i] == events[..i];
      eventsHtml := eventsHtml + BlockHtml(DisplayEvent(dateLabel, timeLabel, title));
    }
    assert events[..|events|] == events;
    var lastUpdated := FormatLastUpdated(now);
    html := PageHtml(calendarSummary, eventsHtml, lastUpdated);
  }

  // ---------------------------------------------------------------------
  // The HTML path agrees with the JSON path.

  /** No time label is the all-day marker: it is "HH:MM" or "NaN:NaN". */
  lemma FormatTimeNotMarker(p: Projected)
    ensures FormatTime(p) != AllDayMarker
  {
    match p
    case Local(c) => FormatTimeShape(c);
    case InvalidDate => InvalidDateLabels();
  }

  /**
   * The block's cells are those of the JSON element for the same event:
   * the same title, the date of the same start, and the all-day marker
   * exactly when the JSON element says all-day.
   */
  lemma DisplayAgreesWithApi(e: CalendarEvent, toLocal: string -> Projected)
    ensures var d, a := ToDisplay(e, toLocal), ToApiEvent(e);
      && d.title == a.summary
      && d.dateLabel == FormatDate(Project(toLocal, a.start))
      && (d.timeLabel == AllDayMarker <==> a.isAllDay)
      && (!a.isAllDay ==> d.timeLabel == FormatTime(Project(toLocal, a.start)))
  {
    FormatTimeNotMarker(Project(toLocal, ToApiEvent(e).start));
  }

  /** An event whose start carries a timestamp shows the zone's "HH:MM" for it. */
  lemma TimedEventShowsClock(e: CalendarEvent, toLocal: string -> Projected, c: WallClock)
    requires e.start.dateTime.Some? && e.start.dateTime.value != ""
    requires toLocal(e.start.dateTime.value) == Local(c)
    ensures var t := ToDisplay(e, toLocal).timeLabel;
      IsClockText(t) && ClockHour(t) == c.hour && ClockMinute(t) == c.minute
    ensures ToDisplay(e, toLocal).dateLabel == Days[c.weekday] + ", " + NatToString(c.day) + ". " + Months[c.month]
  {
    FormatTimeShape(c);
    FormatDateInRange(c);
  }

  // ---------------------------------------------------------------------
  // A block determines the labels it shows.

  /** Text with no `<`: it cannot run into the next tag. */
  predicate NoMarkup(s: string) {
    forall i :: 0 <= i < |s| ==> s[i] != '<'
  }

  /** Index of the first `<` in `s`, or `|s|` when there is none. */
  function FirstTag(s: string): (k: nat)
    ensures k <= |s|
  {
    if s == [] || s[0] == '<' then 0 else 1 + FirstTag(s[1..])
  }

  lemma {:induction false} FirstTagOfJoin(x: string, y: string)
    requires NoMarkup(x) && |y| > 0 && y[0] == '<'
    ensures FirstTag(x + y) == |x|
  {
    if x != [] {
      assert (x + y)[1..] == x[1..] + y;
      FirstTagOfJoin(x[1..], y);
    }
  }

  /** Markup-free text followed by a tag splits back uniquely. */
  lemma SplitAtTag(x1: string, y1: string, x2: string, y2: string)
    requires NoMarkup(x1) && |y1| > 0 && y1[0] == '<'
    requires NoMarkup(x2) && |y2| > 0 && y2[0] == '<'
    requires x1 + y1 == x2 + y2
    ensures x1 == x2 && y1 == y2
  {
    FirstTagOfJoin(x1, y1);
    FirstTagOfJoin(x2, y2);
    assert x1 == (x1 + y1)[..|x1|];
    assert x2 == (x2 + y2)[..|x2|];
    assert y1 == (x1 + y1)[|x1|..];
    assert y2 == (x2 + y2)[|x2|..];
  }

  lemma NoMarkupJoin(a: string, b: string)
    requires NoMarkup(a) && NoMarkup(b)
    ensures NoMarkup(a + b)
  {
    forall i | 0 <= i < |a + b| ensures (a + b)[i] != '<' {
      if i >= |a| {
        assert (a + b)[i] == b[i - |a|];
      }
    }
  }

  lemma NoMarkupPad(s: string)
    requires NoMarkup(s)
    ensures NoMarkup(PadStart(s, 2, '0'))
  {
    var r := PadStart(s, 2, '0');
    PadStartShape(s, 2, '0');
    forall i | 0 <= i < |r| ensures r[i] != '<' {
      if i >= |r| - |s| {
        assert r[i] == r[|r| - |s|..][i - (|r| - |s|)];
      }
    }
  }

  lemma NoMarkupNumber(x: JsNumber)
    ensures NoMarkup(NumberToString(x)) && NoMarkup(Pad2(x))
  {
    if x.Num? {
      NatToStringDigits(x.n);
    }
    NoMarkupPad(NumberToString(x));
  }

  lemma LookupNoMarkup(table: seq<string>, k: JsNumber)
    requires forall i :: 0 <= i < |table| ==> NoMarkup(table[i])
    ensures NoMarkup(Lookup(table, k))
  {
  }

  /** Five plain-text pieces make plain text. */
  lemma NoMarkupJoin5(a: string, b: string, c: string, d: string, e: string)
    requires NoMarkup(a) && NoMarkup(b) && NoMarkup(c) && NoMarkup(d) && NoMarkup(e)
    ensures NoMarkup(a + b + c + d + e)
  {
    NoMarkupJoin(a, b);
    NoMarkupJoin(a + b, c);
    NoMarkupJoin(a + b + c, d);
    NoMarkupJoin(a + b + c + d, e);
  }

  /** Date labels are plain text. */
  lemma FormatDateHasNoMarkup(p: Projected)
    ensures NoMarkup(FormatDate(p))
  {
    var day, date, month := Lookup(Days, GetDay(p)), NumberToString(GetDate(p)), Lookup(Months, GetMonth(p));
    assert NoMarkup(day) by {
      assert forall i :: 0 <= i < |Days| ==> NoMarkup(Days[i]);
      LookupNoMarkup(Days, GetDay(p));
    }
    assert NoMarkup(month) by {
      assert forall i :: 0 <= i < |Months| ==> NoMarkup(Months[i]);
      LookupNoMarkup(Months, GetMonth(p));
    }
    NoMarkupNumber(GetDate(p));
    NoMarkupJoin5(day, ", ", date, ". ", month);
  }

  /** Time labels are plain text. */
  lemma FormatTimeHasNoMarkup(p: Projected)
    ensures NoMarkup(FormatTime(p))
  {
    var hours, minutes := Pad2(GetHours(p)), Pad2(GetMinutes(p));
    NoMarkupNumber(GetHours(p));
    NoMarkupNumber(GetMinutes(p));
    NoMarkupJoin(hours, ":");
    NoMarkupJoin(hours + ":", minutes);
  }

  lemma MarkerHasNoMarkup()
    ensures NoMarkup(AllDayMarker)
  {
    assert AllDayMarker == ['G', 'a', 'n', 'z', 't', 'ä', 'g', 'i', 'g'];
  }

  lemma Nest(a: string, b: string, c: string, d: string, e: string, f: string, g: string)
    ensures a + b + c + d + e + f + g == a + (b + (c + (d + (e + (f + g)))))
  {
  }

  lemma DropPrefix(p: string, a: string, b: string)
    requires p + a == p + b
    ensures a == b
  {
    assert a == (p + a)[|p|..];
    assert b == (p + b)[|p|..];
  }

  /** A block whose date and time cells are plain text determines all three cells. */
  lemma BlockHtmlInjective(d1: DisplayEvent, d2: DisplayEvent)
    requires NoMarkup(d1.dateLabel) && NoMarkup(d1.timeLabel)
    requires NoMarkup(d2.dateLabel) && NoMarkup(d2.timeLabel)
    requires BlockHtml(d1) == BlockHtml(d2)
    ensures d1 == d2
  {
    Nest(BlockOpen, d1.dateLabel, DateClose, d1.timeLabel, TimeClose, d1.title, BlockClose);
    Nest(BlockOpen, d2.dateLabel, DateClose, d2.timeLabel, TimeClose, d2.title, BlockClose);
    var r1 := DateClose + (d1.timeLabel + (TimeClose + (d1.title + BlockClose)));
    var r2 := DateClose + (d2.timeLabel + (TimeClose + (d2.title + BlockClose)));
    DropPrefix(BlockOpen, d1.dateLabel + r1, d2.dateLabel + r2);
    SplitAtTag(d1.dateLabel, r1, d2.dateLabel, r2);
    var q1 := TimeClose + (d1.title + BlockClose);
    var q2 := TimeClose + (d2.title + BlockClose);
    DropPrefix(DateClose, d1.timeLabel + q1, d2.timeLabel + q2);
    SplitAtTag(d1.timeLabel, q1, d2.timeLabel, q2);
    DropPrefix(TimeClose, d1.title + BlockClose, d2.title + BlockClose);
    assert d1.title == (d1.title + BlockClose)[..|d1.title|];
    assert d2.title == (d2.title + BlockClose)[..|d2.title|];
  }

  /** Two events render the same block only when they show the same date, time and title. */
  lemma EventBlockDeterminesLabels(e1: CalendarEvent, e2: CalendarEvent, toLocal: string -> Projected)
    requires EventBlock(e1, toLocal) == EventBlock(e2, toLocal)
    ensures ToDisplay(e1, toLocal) == ToDisplay(e2, toLocal)
  {
    var p1, p2 := Project(toLocal, Moment(e1.start)), Project(toLocal, Moment(e2.start));
    FormatDateHasNoMarkup(p1);
    FormatDateHasNoMarkup(p2);
    FormatTimeHasNoMarkup(p1);
    FormatTimeHasNoMarkup(p2);
    MarkerHasNoMarkup();
    BlockHtmlInjective(ToDisplay(e1, toLocal), ToDisplay(e2, toLocal));
  }

  // ---------------------------------------------------------------------
  // One block per event, in input order; the placeholder exactly when empty.

  /** Accumulating over a concatenation is concatenating the accumulations. */
  lemma {:induction false} AccumulateAppend(a: seq<CalendarEvent>, b: seq<CalendarEvent>, block: CalendarEvent -> string)
    ensures Accumulate(a + b, block) == Accumulate(a, block) + Accumulate(b, block)
  {
    if b == [] {
      assert a + b == a;
    } else {
      var front := b[..|b| - 1];
      assert (a + b)[..|a + b| - 1] == a + front;
      assert (a + b)[|a + b| - 1] == b[|b| - 1];
      AccumulateAppend(a, front, block);
    }
  }

  lemma AccumulateSingle(x: CalendarEvent, block: CalendarEvent -> string)
    ensures Accumulate([x], block) == block(x)
  {
    assert [x][..0] == [];
  }

  /** The block of an event sits between the accumulations before and after it. */
  lemma AccumulateAround(before: seq<CalendarEvent>, x: CalendarEvent, after: seq<CalendarEvent>,
                         block: CalendarEvent -> string)
    ensures Accumulate(before + [x] + after, block)
         == Accumulate(before, block) + block(x) + Accumulate(after, block)
  {
    AccumulateAppend(before, [x], block);
    AccumulateSingle(x, block);
    AccumulateAppend(before + [x], after, block);
  }

  /** The blocks of a concatenation are the blocks of each part, in order. */
  lemma BlocksAppend(a: seq<CalendarEvent>, b: seq<CalendarEvent>, toLocal: string -> Projected)
    ensures Blocks(a + b, toLocal) == Blocks(a, toLocal) + Blocks(b, toLocal)
  {
    AccumulateAppend(a, b, e => EventBlock(e, toLocal));
  }

  /** Event `i`'s block sits between the blocks of the events before it and those after it. */
  lemma BlockAt(events: seq<CalendarEvent>, i: nat, toLocal: string -> Projected)
    requires i < |events|
    ensures Blocks(events, toLocal)
         == Blocks(events[..i], toLocal) + EventBlock(events[i], toLocal) + Blocks(events[i + 1..], toLocal)
  {
    assert events == events[..i] + [events[i]] + events[i + 1..];
    AccumulateAround(events[..i], events[i], events[i + 1..], e => EventBlock(e, toLocal));
  }

  /** Every block is longer than the placeholder. */
  lemma BlockLongerThanPlaceholder(d: DisplayEvent)
    ensures |BlockHtml(d)| > |Placeholder|
  {
    assert |BlockOpen| > |Placeholder|;
  }

  /**
   * The page's event section, `eventsHtml || placeholder`, is the
   * placeholder when there are no events and the accumulated blocks
   * otherwise; the two cannot be confused.
   */
  lemma PlaceholderIffNoEvents(events: seq<CalendarEvent>, toLocal: string -> Projected)
    ensures OrElse(Some(Blocks(events, toLocal)), Placeholder)
         == if events == [] then Placeholder else Blocks(events, toLocal)
    ensures Blocks(events, toLocal) != Placeholder
  {
    if events != [] {
      var b := Blocks(events, toLocal);
      BlockAt(events, 0, toLocal);
      BlockLongerThanPlaceholder(ToDisplay(events[0], toLocal));
      assert |b| >= |EventBlock(events[0], toLocal)|;
    }
  }

  // ---------------------------------------------------------------------
  // Worked examples.

  /** A timed event in June, 09:00Z, which the zone shows as Monday 3 June 11:00. */
  lemma StandupExample(toLocal: string -> Projected)
    requires toLocal("2024-06-03T09:00:00Z") == Local(WallClock(1, 3, 5, 11, 0))
    ensures var e := CalendarEvent(Some("Standup"), EventTime(Some("2024-06-03T09:00:00Z"), None),
                                   EventTime(Some("2024-06-03T09:15:00Z"), None));
      ToDisplay(e, toLocal) == DisplayEvent("Mo, 3. Jun", "11:00", "Standup") && !ToApiEvent(e).isAllDay
  {
    var e := CalendarEvent(Some("Standup"), EventTime(Some("2024-06-03T09:00:00Z"), None),
                           EventTime(Some("2024-06-03T09:15:00Z"), None));
    var c := WallClock(1, 3, 5, 11, 0);
    assert ToDisplay(e, toLocal) == DisplayEvent(FormatDate(Local(c)), FormatTime(Local(c)), "Standup");
    MondayDateLabel();
    ElevenOClockLabel();
  }

  /** An event with bare dates is all-day in both paths, whatever the zone. */
  lemma VacationExample(toLocal: string -> Projected)
    ensures var e := CalendarEvent(Some("Vacation"), EventTime(None, Some("2024-07-01")),
                                   EventTime(None, Some("2024-07-05")));
      && ToDisplay(e, toLocal).timeLabel == AllDayMarker
      && ToApiEvent(e) == ApiEvent("Vacation", Some("2024-07-01"), Some("2024-07-05"), true)
  {
  }
}
