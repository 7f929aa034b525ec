/**
 * The wall-clock formatters of server.js: `formatDate`, `formatTime` and
 * `formatLastUpdated`, over the German weekday and month tables.
 *
 * The projection of an instant into the configured time zone
 * (`new Date(new Date(s).toLocaleString('en-US', {timeZone}))`) is foreign
 * code; its outcome is given as a `Projected` value. An unparseable moment
 * yields JavaScript's Invalid Date, whose getters all return NaN.
 */
module Formatters {
  import opened JsValues

  /** German weekday abbreviations, indexed by `Date.getDay()` (0 is Sunday). */
  const Days: seq<string> := ["So", "Mo", "Di", "Mi", "Do", "Fr", "Sa"]

  /** German month abbreviations, indexed by `Date.getMonth()` (0 is January). */
  const Months: seq<string> := ["Jan", "Feb", "Mär", "Apr", "Mai", "Jun", "Jul", "Aug", "Sep", "Okt", "Nov", "Dez"]

  type Weekday = d: nat | d < 7
  type MonthDay = d: nat | 1 <= d <= 31 witness 1
  type MonthIndex = m: nat | m < 12
  type Hour = h: nat | h < 24
  type Minute = m: nat | m < 60

  /** The calendar components of a valid local `Date`, as its getters report them. */
  datatype WallClock = WallClock(weekday: Weekday, day: MonthDay, month: MonthIndex, hour: Hour, minute: Minute)

  /** A moment projected into the configured time zone, or Invalid Date. */
  datatype Projected = Local(clock: WallClock) | InvalidDate

  /** `localDate.getDay()`: NaN exactly for an Invalid Date, otherwise in the getter's range. */
  function GetDay(p: Projected): (r: JsNumber)
    ensures r.NaN? <==> p.InvalidDate?
    ensures r.Num? ==> r.n < 7
  {
    if p.Local? then Num(p.clock.weekday) else NaN
  }

  /** `localDate.getDate()`: NaN exactly for an Invalid Date, otherwise in the getter's range. */
  function GetDate(p: Projected): (r: JsNumber)
    ensures r.NaN? <==> p.InvalidDate?
    ensures r.Num? ==> 1 <= r.n <= 31
  {
    if p.Local? then Num(p.clock.day) else NaN
  }

  /** `localDate.getMonth()`: NaN exactly for an Invalid Date, otherwise in the getter's range. */
  function GetMonth(p: Projected): (r: JsNumber)
    ensures r.NaN? <==> p.InvalidDate?
    ensures r.Num? ==> r.n < 12
  {
    if p.Local? then Num(p.clock.month) else NaN
  }

  /** `localDate.getHours()`: NaN exactly for an Invalid Date, otherwise in the getter's range. */
  function GetHours(p: Projected): (r: JsNumber)
    ensures r.NaN? <==> p.InvalidDate?
    ensures r.Num? ==> r.n < 24
  {
    if p.Local? then Num(p.clock.hour) else NaN
  }

  /** `localDate.getMinutes()`: NaN exactly for an Invalid Date, otherwise in the getter's range. */
  function GetMinutes(p: Projected): (r: JsNumber)
    ensures r.NaN? <==> p.InvalidDate?
    ensures r.Num? ==> r.n < 60
  {
    if p.Local? then Num(p.clock.minute) else NaN
  }

  /** `table[k]` interpolated into a template: `undefined` outside the table. */
  function Lookup(table: seq<string>, k: JsNumber): (r: string)
    ensures r in table || r == "undefined"
    ensures k.NaN? ==> r == "undefined"
  {
    if k.Num? && k.n < |table| then table[k.n] else "undefined"
  }

  /** `getHours().toString().padStart(2, '0')` and the same for minutes. */
  function Pad2(x: JsNumber): (r: string)
    ensures |r| >= 2
  {
    PadStart(NumberToString(x), 2, '0')
  }

  /** `formatDate`: "<weekday>, <day>. <month>". */
  function FormatDate(p: Projected): string {
    Lookup(Days, GetDay(p)) + ", " + NumberToString(GetDate(p)) + ". " + Lookup(Months, GetMonth(p))
  }

  /** `formatTime`: "HH:MM". */
  function FormatTime(p: Projected): string {
    Pad2(GetHours(p)) + ":" + Pad2(GetMinutes(p))
  }

  /**
   * `formatLastUpdated` for the wall-clock value of "now". server.js spells
   * the whole string out in one template; the contract says it is the date
   * label, " um ", and the time label of the same moment.
   */
  function FormatLastUpdated(now: WallClock): (r: string)
    ensures r == FormatDate(Local(now)) + " um " + FormatTime(Local(now))
    ensures |r| >= 5 && IsClockText(r[|r| - 5..])
  {
    var local := Local(now);
    var hours := Pad2(GetHours(local));
    var minutes := Pad2(GetMinutes(local));
    var r := Lookup(Days, GetDay(local)) + ", " + NumberToString(GetDate(local)) + ". " + Lookup(Months, GetMonth(local))
      + " um " + hours + ":" + minutes;
    FormatTimeShape(now);
    AppendTime(FormatDate(local) + " um ", hours, minutes);
    r
  }

  /** Appending "h:m" piece by piece is appending it whole, and it is then the suffix. */
  lemma AppendTime(x: string, h: string, m: string)
    ensures x + h + ":" + m == x + (h + ":" + m)
    ensures (x + h + ":" + m)[|x|..] == h + ":" + m
  {
  }

  /** Text of the form "HH:MM": two digits, a colon, two digits. */
  predicate IsClockText(s: string) {
    |s| == 5 && s[2] == ':' && IsDigit(s[0]) && IsDigit(s[1]) && IsDigit(s[3]) && IsDigit(s[4])
  }

  /** Both tables have the sizes the getters' ranges need, and hold no `undefined` entry. */
  lemma TablesWellFormed()
    ensures |Days| == 7 && |Months| == 12
    ensures forall i :: 0 <= i < |Days| ==> |Days[i]| == 2
    ensures forall i :: 0 <= i < |Months| ==> |Months[i]| == 3
    ensures "undefined" !in Days && "undefined" !in Months
  {
  }

  lemma DaysDistinct(i: nat, j: nat)
    requires i < |Days| && j < |Days| && Days[i] == Days[j]
    ensures i == j
  {
  }

  lemma MonthsDistinct(i: nat, j: nat)
    requires i < |Months| && j < |Months| && Months[i] == Months[j]
    ensures i == j
  {
  }

  /**
   * For a valid local date the table lookups are always in range: the
   * label is the weekday's and the month's table entry around the day number.
   */
  lemma FormatDateInRange(c: WallClock)
    ensures FormatDate(Local(c)) == Days[c.weekday] + ", " + NatToString(c.day) + ". " + Months[c.month]
  {
  }

  /** The hour a clock text shows. */
  function ClockHour(s: string): nat
    requires IsClockText(s)
  {
    DigitValue(s[0]) * 10 + DigitValue(s[1])
  }

  /** The minute a clock text shows. */
  function ClockMinute(s: string): nat
    requires IsClockText(s)
  {
    DigitValue(s[3]) * 10 + DigitValue(s[4])
  }

  /** A valid local time is "HH:MM" whose digit pairs read back as the hour and the minute. */
  lemma FormatTimeShape(c: WallClock)
    ensures var r := FormatTime(Local(c));
      IsClockText(r) && ClockHour(r) == c.hour && ClockMinute(r) == c.minute
  {
    TwoDigits(c.hour);
    TwoDigits(c.minute);
    ClockTextJoin(Pad2(Num(c.hour)), Pad2(Num(c.minute)), FormatTime(Local(c)));
  }

  /** Two two-digit strings joined by a colon make clock text that shows them. */
  lemma ClockTextJoin(hh: string, mm: string, r: string)
    requires |hh| == 2 && IsDigit(hh[0]) && IsDigit(hh[1])
    requires |mm| == 2 && IsDigit(mm[0]) && IsDigit(mm[1])
    requires r == hh + ":" + mm
    ensures IsClockText(r)
    ensures ClockHour(r) == DigitValue(hh[0]) * 10 + DigitValue(hh[1])
    ensures ClockMinute(r) == DigitValue(mm[0]) * 10 + DigitValue(mm[1])
  {
    assert r[0] == hh[0] && r[1] == hh[1] && r[3] == mm[0] && r[4] == mm[1];
  }

  /** The time label determines the hour and the minute. */
  lemma FormatTimeInjective(a: WallClock, b: WallClock)
    requires FormatTime(Local(a)) == FormatTime(Local(b))
    ensures a.hour == b.hour && a.minute == b.minute
  {
    FormatTimeShape(a);
    FormatTimeShape(b);
  }

  /** The date label determines the weekday, the day and the month. */
  lemma FormatDateInjective(a: WallClock, b: WallClock)
    requires FormatDate(Local(a)) == FormatDate(Local(b))
    ensures a.weekday == b.weekday && a.day == b.day && a.month == b.month
  {
    FormatDateInRange(a);
    FormatDateInRange(b);
    TablesWellFormed();
    var s := FormatDate(Local(a));
    DateLabelParts(Days[a.weekday], NatToString(a.day), Months[a.month], s);
    DateLabelParts(Days[b.weekday], NatToString(b.day), Months[b.month], s);
    DaysDistinct(a.weekday, b.weekday);
    MonthsDistinct(a.month, b.month);
    NatToStringInjective(a.day, b.day);
  }

  /** Where the three parts of a date label sit, given a two-letter weekday and a three-letter month. */
  lemma DateLabelParts(weekday: string, day: string, month: string, s: string)
    requires |weekday| == 2 && |month| == 3
    requires s == weekday + ", " + day + ". " + month
    ensures s[..2] == weekday && s[4..|s| - 5] == day && s[|s| - 3..] == month
  {
  }

  /**
   * An unparseable moment does not raise: it renders the Invalid Date
   * getters' NaN through the tables and `padStart`.
   */
  lemma InvalidDateLabels()
    ensures FormatDate(InvalidDate) == "undefined, NaN. undefined"
    ensures FormatTime(InvalidDate) == "NaN:NaN"
  {
  }

  /** Monday 3 June renders as "Mo, 3. Jun". */
  lemma MondayDateLabel()
    ensures FormatDate(Local(WallClock(1, 3, 5, 11, 0))) == "Mo, 3. Jun"
  {
    FormatDateInRange(WallClock(1, 3, 5, 11, 0));
    assert Days[1] == "Mo" && Months[5] == "Jun";
    assert NatToString(3) == "3";
    assert "Mo" + ", " + "3" + ". " + "Jun" == "Mo, 3. Jun";
  }

  /** 11:00 local renders as "11:00". */
  lemma ElevenOClockLabel()
    ensures FormatTime(Local(WallClock(1, 3, 5, 11, 0))) == "11:00"
  {
    assert Pad2(Num(11)) == "11" by {
      assert NatToString(1) == "1";
      assert NatToString(11) == "11";
    }
    assert Pad2(Num(0)) == "00" by {
      assert NatToString(0) == "0";
      assert ['0'] + "0" == "00";
      assert PadStart("0", 2, '0') == PadStart("00", 2, '0') == "00";
    }
    assert "11" + ":" + "00" == "11:00";
  }
}
