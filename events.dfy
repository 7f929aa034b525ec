/**
 * Upstream calendar events and the `/api/events` projection of server.js:
 * `{summary, start, end, isAllDay}` for every event, in order.
 */
module Events {
  import opened Wrappers
  import opened JsValues

  /** An event's `start` or `end`: a timestamp (`dateTime`) or a bare date (`date`). */
  datatype EventTime = EventTime(dateTime: Option<string>, date: Option<string>)

  /** An event as the calendar list call returns it; `summary` may be missing. */
  datatype CalendarEvent = CalendarEvent(summary: Option<string>, start: EventTime, end: EventTime)

  /** One element of the JSON array; `undefined` start or end is omitted by `res.json`. */
  datatype ApiEvent = ApiEvent(summary: string, start: Option<string>, end: Option<string>, isAllDay: bool)

  const NoTitle: string := "No title"

  /** `t.dateTime || t.date`. */
  function Moment(t: EventTime): (r: Option<string>)
    ensures r == t.dateTime || r == t.date
  {
    Or(t.dateTime, t.date)
  }

  /** The callback of `items.map` in the `/api/events` handler. */
  function ToApiEvent(e: CalendarEvent): ApiEvent {
    ApiEvent(
      OrElse(e.summary, NoTitle),
      Moment(e.start),
      Moment(e.end),
      !Truthy(e.start.dateTime))
  }

  /**
   * `items.map(...)`: total and order preserving, and element `i` of the
   * result depends on input element `i` alone.
   */
  function ApiEvents(items: seq<CalendarEvent>): (r: seq<ApiEvent>)
    ensures |r| == |items|
    ensures forall i :: 0 <= i < |items| ==> r[i] == ToApiEvent(items[i])
  {
    if items == [] then [] else [ToApiEvent(items[0])] + ApiEvents(items[1..])
  }

  /** Projecting a concatenation is concatenating the projections. */
  lemma ApiEventsAppend(a: seq<CalendarEvent>, b: seq<CalendarEvent>)
    ensures ApiEvents(a + b) == ApiEvents(a) + ApiEvents(b)
  {
    var l, r := ApiEvents(a + b), ApiEvents(a) + ApiEvents(b);
    assert |l| == |r|;
    forall i | 0 <= i < |l| ensures l[i] == r[i] {
      if i < |a| {
        assert (a + b)[i] == a[i];
      } else {
        assert (a + b)[i] == b[i - |a|];
      }
    }
  }

  /**
   * An event is all-day exactly when its start has no timestamp, an empty
   * string counting as none; the start sent is then the bare date, and
   * otherwise the timestamp.
   */
  lemma AllDayIffNoTimestamp(e: CalendarEvent)
    ensures var a := ToApiEvent(e);
      && (a.isAllDay <==> (e.start.dateTime == None || e.start.dateTime == Some("")))
      && (a.isAllDay ==> a.start == e.start.date)
      && (!a.isAllDay ==> a.start == e.start.dateTime && a.start.Some? && a.start.value != "")
  {
  }

  /** `t.dateTime || t.date` picks the first non-empty field, and is non-empty iff one of them is. */
  lemma MomentChoice(t: EventTime)
    ensures t.dateTime.Some? && t.dateTime.value != "" ==> Moment(t) == t.dateTime
    ensures (t.dateTime == None || t.dateTime == Some("")) ==> Moment(t) == t.date
    ensures Truthy(Moment(t)) <==> Truthy(t.dateTime) || Truthy(t.date)
  {
  }

  /**
   * The title sent is the summary when it is present and non-empty, and
   * "No title" otherwise; it is never empty.
   */
  lemma TitleFallback(e: CalendarEvent)
    ensures var title := ToApiEvent(e).summary;
      && title != ""
      && (e.summary.Some? && e.summary.value != "" ==> title == e.summary.value)
      && (e.summary == None || e.summary == Some("") ==> title == NoTitle)
  {
  }
}
