/**
 * Turning a host record into a calendar event (`parseFMDateTime`,
 * `mapRecordToEvent` in `src/filemakerInterface.js`). Time values are integer
 * milliseconds; the `Date` constructor is the abstract `Clock`.
 */
module EventMapper {
  import opened Prelude
  import opened Strings
  import opened Js
  import opened ConfigResolver
  import CivilDate

  const HourMs := 60 * 60 * 1000

  /** The time a record without one is read at. */
  const Midnight: string := "00:00:00"

  /** A `Date` object: a time value, or the Invalid Date that a `NaN` component produces. */
  datatype Instant = At(ms: int) | InvalidDate

  /**
   * `new Date()` (the current time) and `new Date(y, m, d, h, mi, s)` in local
   * time, whose month is 0-based and which normalises out-of-range components.
   */
  datatype Clock = Clock(now: int, localTime: (int, int, int, int, int, int) -> Instant)

  /** A `parseFMDateTime` call either throws (a non-string argument) or yields a `Date`. */
  datatype DateResult = DateThrows | DateOk(instant: Instant)

  /** `timeParts[i] || "00"`. */
  function TimePart(parts: seq<string>, i: nat): (r: string)
    ensures r != ""
    ensures i < |parts| && parts[i] != "" ==> r == parts[i]
  {
    if i < |parts| && parts[i] != "" then parts[i] else "00"
  }

  /**
   * `parseFMDateTime(dateStr, timeStr = "00:00:00")`: a falsy date, or one that
   * does not split on `/` into exactly three parts, is the current time; else
   * month/day/year and hour:minute:second go to the `Date` constructor, and a
   * part `parseInt` cannot read makes the result an Invalid Date. It never
   * yields `null`; a truthy non-string date, or a non-string time once the
   * date has three parts, throws.
   */
  function ParseFMDateTime(dateVal: JsValue, timeVal: JsValue, clock: Clock): (r: DateResult)
    ensures !Truthy(dateVal) ==> r == DateOk(At(clock.now))
    ensures dateVal.Str? && |Split(dateVal.s, "/")| != 3 ==> r == DateOk(At(clock.now))
    ensures dateVal.Str? && (timeVal.Str? || timeVal.Undefined?) ==> r.DateOk?
    ensures r.DateThrows? <==> Truthy(dateVal) && (!dateVal.Str? || (|Split(dateVal.s, "/")| == 3
                                                    && !timeVal.Str? && !timeVal.Undefined?))
  {
    var time := if timeVal.Undefined? then Str(Midnight) else timeVal;
    if !Truthy(dateVal) then DateOk(At(clock.now))
    else if !dateVal.Str? then DateThrows
    else
      var parts := Split(dateVal.s, "/");
      if |parts| != 3 then DateOk(At(clock.now))
      else if !time.Str? then DateThrows
      else DateOk(FromParts(parts, Split(time.s, ":"), clock))
  }

  /**
   * `new Date(year, month - 1, day, hour, min, sec)` from the date's three
   * parts and the time's parts, each read with `parseInt`; `NaN` anywhere
   * gives an Invalid Date.
   */
  function FromParts(parts: seq<string>, timeParts: seq<string>, clock: Clock): (r: Instant)
    requires |parts| == 3
    ensures (exists i :: 0 <= i < 3 && (ParseInt(parts[i]).None? || ParseInt(TimePart(timeParts, i)).None?))
            ==> r == InvalidDate
  {
    var month, day, year := ParseInt(parts[0]), ParseInt(parts[1]), ParseInt(parts[2]);
    var hour, min, sec := ParseInt(TimePart(timeParts, 0)), ParseInt(TimePart(timeParts, 1)),
                          ParseInt(TimePart(timeParts, 2));
    if month.None? || day.None? || year.None? || hour.None? || min.None? || sec.None? then InvalidDate
    else clock.localTime(year.value, month.value - 1, day.value, hour.value, min.value, sec.value)
  }

  /** `Pad2(h) + ":" + Pad2(m) + ":" + Pad2(s)`: a time as the host writes it. */
  function FormatTime(h: nat, m: nat, s: nat): string {
    Pad2(h) + ":" + Pad2(m) + ":" + Pad2(s)
  }

  lemma DigitsLackColon(s: string)
    requires AllDigits(s)
    ensures Lacks(s, ':')
  {
  }

  /** `HH:MM:SS` splits on `:` into its three fields, which `parseInt` reads back. */
  lemma FormatTimeFields(h: nat, m: nat, s: nat)
    ensures var tp := Split(FormatTime(h, m, s), ":");
      && |tp| == 3
      && ParseInt(TimePart(tp, 0)) == Some(h)
      && ParseInt(TimePart(tp, 1)) == Some(m)
      && ParseInt(TimePart(tp, 2)) == Some(s)
  {
    var hh, mm, ss := Pad2(h), Pad2(m), Pad2(s);
    DigitsLackColon(hh);
    DigitsLackColon(mm);
    DigitsLackColon(ss);
    assert FormatTime(h, m, s) == hh + ":" + (mm + ":" + ss);
    SplitFirst(hh, ":", mm + ":" + ss);
    SplitFirst(mm, ":", ss);
    SplitNone(ss, ":");
    var tp := Split(FormatTime(h, m, s), ":");
    assert tp == [hh, mm, ss];
    assert TimePart(tp, 0) == hh && TimePart(tp, 1) == mm && TimePart(tp, 2) == ss;
    ParseIntOfPad2(h);
    ParseIntOfPad2(m);
    ParseIntOfPad2(s);
  }

  /**
   * A date whose three `/`-separated parts `parseInt` reads as month, day and
   * year, with a time whose parts it reads as hour, minute and second, is that
   * local date and time.
   */
  lemma ReadableDateTime(ds: string, ts: string, clock: Clock,
                         year: int, month: int, day: int, h: int, m: int, s: int)
    requires var parts := Split(ds, "/");
      && |parts| == 3
      && ParseInt(parts[0]) == Some(month) && ParseInt(parts[1]) == Some(day) && ParseInt(parts[2]) == Some(year)
    requires var tp := Split(ts, ":");
      && ParseInt(TimePart(tp, 0)) == Some(h) && ParseInt(TimePart(tp, 1)) == Some(m)
      && ParseInt(TimePart(tp, 2)) == Some(s)
    ensures ParseFMDateTime(Str(ds), Str(ts), clock) == DateOk(clock.localTime(year, month - 1, day, h, m, s))
  {
    ParseThreeParts(ds, ts, clock);
    FromPartsReadable(Split(ds, "/"), Split(ts, ":"), clock, year, month, day, h, m, s);
  }

  /** A date with three `/`-separated parts and a string time goes to the `Date` constructor. */
  lemma ParseThreeParts(ds: string, ts: string, clock: Clock)
    requires |Split(ds, "/")| == 3
    ensures ParseFMDateTime(Str(ds), Str(ts), clock) == DateOk(FromParts(Split(ds, "/"), Split(ts, ":"), clock))
  {
    SplitNone("", "/");
  }

  /** Parts that `parseInt` reads as numbers give the local time they name. */
  lemma FromPartsReadable(parts: seq<string>, tp: seq<string>, clock: Clock,
                          year: int, month: int, day: int, h: int, m: int, s: int)
    requires |parts| == 3
    requires ParseInt(parts[0]) == Some(month) && ParseInt(parts[1]) == Some(day) && ParseInt(parts[2]) == Some(year)
    requires ParseInt(TimePart(tp, 0)) == Some(h) && ParseInt(TimePart(tp, 1)) == Some(m)
    requires ParseInt(TimePart(tp, 2)) == Some(s)
    ensures FromParts(parts, tp, clock) == clock.localTime(year, month - 1, day, h, m, s)
  {
  }

  /** A formatted date with a time whose parts `parseInt` reads is that local date and time. */
  lemma ParseFormattedDate(d: CivilDate.Date, ts: string, clock: Clock, h: int, m: int, s: int)
    requires CivilDate.Valid(d)
    requires var tp := Split(ts, ":");
      && ParseInt(TimePart(tp, 0)) == Some(h) && ParseInt(TimePart(tp, 1)) == Some(m)
      && ParseInt(TimePart(tp, 2)) == Some(s)
    ensures ParseFMDateTime(Str(CivilDate.FormatUSDate(d)), Str(ts), clock)
              == DateOk(clock.localTime(d.year, d.month - 1, d.day, h, m, s))
  {
    CivilDate.FormatUSDateFields(d);
    ReadableDateTime(CivilDate.FormatUSDate(d), ts, clock, d.year, d.month, d.day, h, m, s);
  }

  /**
   * What the find request writes (`formatUSDate`) the record parser reads
   * back: a zero-padded `MM/DD/YYYY` date with an `HH:MM:SS` time is that
   * local date and time.
   */
  lemma ParseFormattedDateTime(d: CivilDate.Date, h: nat, m: nat, s: nat, clock: Clock)
    requires CivilDate.Valid(d)
    ensures ParseFMDateTime(Str(CivilDate.FormatUSDate(d)), Str(FormatTime(h, m, s)), clock)
              == DateOk(clock.localTime(d.year, d.month - 1, d.day, h, m, s))
  {
    FormatTimeFields(h, m, s);
    ParseFormattedDate(d, FormatTime(h, m, s), clock, h, m, s);
  }

  /** A date alone is read at midnight: the default time is "00:00:00". */
  lemma ParseDateOnly(d: CivilDate.Date, clock: Clock)
    requires CivilDate.Valid(d)
    ensures ParseFMDateTime(Str(CivilDate.FormatUSDate(d)), Undefined, clock)
              == DateOk(clock.localTime(d.year, d.month - 1, d.day, 0, 0, 0))
  {
    MidnightFormatted();
    ParseFormattedDateTime(d, 0, 0, 0, clock);
    MissingTimeIsMidnight(Str(CivilDate.FormatUSDate(d)), clock);
  }

  /** The default time is the formatted midnight. */
  lemma MidnightFormatted()
    ensures FormatTime(0, 0, 0) == Midnight
  {
  }

  /** A missing time is read as the default one. */
  lemma MissingTimeIsMidnight(dateVal: JsValue, clock: Clock)
    ensures ParseFMDateTime(dateVal, Undefined, clock) == ParseFMDateTime(dateVal, Str(Midnight), clock)
  {
  }

  // ---------------------------------------------------------------------------
  // mapRecordToEvent

  /** The host field names of the logical event fields. */
  datatype FieldNames = FieldNames(
    id: string, title: string, startDate: string, startTime: string, endDate: string,
    endTime: string, allDay: string, editable: string, description: string, style: string)

  /** `resolveFieldName(key) || fallback`. */
  function FieldName(config: Config, key: string, fallback: string): (r: string)
    ensures key != "" ==> r == ResolveFieldName(config, key)
  {
    var name := ResolveFieldName(config, key);
    if name != "" then name else fallback
  }

  /** The ten field names, each the resolved setting; the literal fallbacks are never used. */
  function Names(config: Config): (n: FieldNames)
    ensures n.id == ResolveFieldName(config, "EventPrimaryKeyField")
    ensures n.startDate == ResolveFieldName(config, "EventStartDateField")
    ensures n.endDate == ResolveFieldName(config, "EventEndDateField")
    ensures n.title == ResolveFieldName(config, "EventTitleField")
    ensures n.startTime == ResolveFieldName(config, "EventStartTimeField")
    ensures n.endTime == ResolveFieldName(config, "EventEndTimeField")
    ensures n.allDay == ResolveFieldName(config, "EventAllDayField")
    ensures n.editable == ResolveFieldName(config, "EventEditableField")
    ensures n.description == ResolveFieldName(config, "EventDescriptionField")
    ensures n.style == ResolveFieldName(config, "EventStyleField")
  {
    FieldNames(
      FieldName(config, "EventPrimaryKeyField", "Id"),
      FieldName(config, "EventTitleField", "Title"),
      FieldName(config, "EventStartDateField", "StartDate"),
      FieldName(config, "EventStartTimeField", "StartTime"),
      FieldName(config, "EventEndDateField", "EndDate"),
      FieldName(config, "EventEndTimeField", "EndTime"),
      FieldName(config, "EventAllDayField", "AllDay"),
      FieldName(config, "EventEditableField", "Editable"),
      FieldName(config, "EventDescriptionField", "Description"),
      FieldName(config, "EventStyleField", "Style"))
  }

  /** The event object handed to the calendar widget. */
  datatype CalendarEvent = CalendarEvent(
    id: string, title: JsValue, start: Instant, end: Instant, allDay: bool,
    editable: JsValue, description: JsValue, classNames: seq<string>)

  /** A record is dropped (`null`), makes the mapper throw, or becomes an event. */
  datatype Mapping = Skipped | Threw | Mapped(event: CalendarEvent)

  /** `fmRecord.fieldData || {}`. */
  function FieldData(rec: JsValue): (r: JsValue)
    ensures Truthy(r)
    ensures Truthy(Prop(rec, "fieldData")) ==> r == Prop(rec, "fieldData")
  {
    Or(Prop(rec, "fieldData"), EmptyObject)
  }

  /** `"fc-event-" + style.toLowerCase().replace(/\s+/g, "-")`. */
  function StyleClass(style: string): (r: string)
    ensures StartsWith(r, "fc-event-") && NoWhitespace(r[9..])
  {
    var r := "fc-event-" + HyphenateWhitespace(ToLowerAscii(style));
    assert r[9..] == HyphenateWhitespace(ToLowerAscii(style));
    r
  }

  /**
   * The all-day test: the flag is `"1"` or `1`, or else both times trim to
   * nothing; `None` when `.trim()` is called on a non-string. The end time is
   * only looked at when the start time trims to nothing.
   */
  function AllDay(flag: JsValue, startTime: JsValue, endTime: JsValue): (r: Option<bool>)
    ensures flag == Str("1") || flag == Num(1) ==> r == Some(true)
    ensures startTime.Str? && endTime.Str? ==>
              r == Some(flag == Str("1") || flag == Num(1) || (Trim(startTime.s) == "" && Trim(endTime.s) == ""))
  {
    if flag == Str("1") || flag == Num(1) then Some(true)
    else if !startTime.Str? then None
    else if Trim(startTime.s) != "" then Some(false)
    else if !endTime.Str? then None
    else Some(Trim(endTime.s) == "")
  }

  /** The end of an event: the parsed end date when there is one, else one hour after the start. */
  function EndOf(start: Instant, endDate: JsValue, endTime: JsValue, clock: Clock): (r: DateResult)
    ensures !Truthy(endDate) && start.At? ==> r == DateOk(At(start.ms + HourMs))
    ensures !Truthy(endDate) && start.InvalidDate? ==> r == DateThrows
    ensures Truthy(endDate) ==> r == ParseFMDateTime(endDate, endTime, clock)
  {
    if Truthy(endDate) then ParseFMDateTime(endDate, endTime, clock)
    else if start.At? then DateOk(At(start.ms + HourMs))
    else DateThrows  // `toISOString` on an Invalid Date throws
  }

  /** `mapRecordToEvent(record)` with the field names the configuration resolves to. */
  function MapRecordToEvent(config: Config, rec: JsValue, clock: Clock): (r: Mapping)
    ensures r == MapFields(Names(config), rec, clock)
    ensures r.Mapped? ==> r.event.id == ToJsString(Prop(FieldData(rec), ResolveFieldName(config, "EventPrimaryKeyField")))
  {
    MapFields(Names(config), rec, clock)
  }

  /**
   * The mapping itself, for field names `n`. A `null` record throws; a record
   * whose id field is falsy is dropped; otherwise the event is built, unless a
   * field of the wrong type (or an Invalid Date start without an end) makes
   * the mapper throw.
   */
  function MapFields(n: FieldNames, rec: JsValue, clock: Clock): (r: Mapping)
    ensures rec.Undefined? || rec.Null? ==> r == Threw
    ensures r.Skipped? <==> !rec.Undefined? && !rec.Null? && !Truthy(Prop(FieldData(rec), n.id))
    ensures r.Mapped? ==> r.event.id == ToJsString(Prop(FieldData(rec), n.id))
    ensures r.Mapped? ==> Truthy(r.event.title) && Truthy(r.event.editable)
    ensures r.Mapped? ==> |r.event.classNames| == 1 && StartsWith(r.event.classNames[0], "fc-event-")
    ensures r.Mapped? ==> var fd := FieldData(rec);
      ParseFMDateTime(Prop(fd, n.startDate), Or(Prop(fd, n.startTime), Str(Midnight)), clock) == DateOk(r.event.start)
    ensures r.Mapped? && Truthy(Prop(FieldData(rec), n.endDate)) ==> var fd := FieldData(rec);
      ParseFMDateTime(Prop(fd, n.endDate), Or(Prop(fd, n.endTime), Str(Midnight)), clock) == DateOk(r.event.end)
    ensures r.Mapped? && Truthy(Prop(FieldData(rec), n.title)) ==> r.event.title == Prop(FieldData(rec), n.title)
    ensures r.Mapped? && Truthy(Prop(FieldData(rec), n.description)) ==>
              r.event.description == Prop(FieldData(rec), n.description)
    ensures r.Mapped? && Truthy(Prop(FieldData(rec), n.style)) ==>
              Prop(FieldData(rec), n.style).Str? && r.event.classNames == [StyleClass(Prop(FieldData(rec), n.style).s)]
    ensures r.Mapped? ==> (r.event.editable == Bool(true) <==> Prop(FieldData(rec), n.editable) == Str("1"))
  {
    if rec.Undefined? || rec.Null? then Threw
    else
      var fd := FieldData(rec);
      var id := Prop(fd, n.id);
      if !Truthy(id) then Skipped
      else
        var title := Or(Prop(fd, n.title), Str("Untitled"));
        var startTime := Or(Prop(fd, n.startTime), Str(Midnight));
        var endTime := Or(Prop(fd, n.endTime), Str(Midnight));
        var rawStyle := Or(Prop(fd, n.style), Str("-"));
        match ParseFMDateTime(Prop(fd, n.startDate), startTime, clock)
        case DateThrows => Threw
        case DateOk(start) =>
          match EndOf(start, Prop(fd, n.endDate), endTime, clock)
          case DateThrows => Threw
          case DateOk(end) =>
            match AllDay(Prop(fd, n.allDay), startTime, endTime)
            case None => Threw
            case Some(allDay) =>
              if !rawStyle.Str? then Threw
              else
                var editable := if Prop(fd, n.editable) == Str("1") then Bool(true) else Num(1);
                Mapped(CalendarEvent(ToJsString(id), title, start, end, allDay, editable,
                                     Or(Prop(fd, n.description), Str("")), [StyleClass(rawStyle.s)]))
  }

  /** A field that holds a string or nothing. */
  predicate StringOrAbsent(v: JsValue) {
    v.Undefined? || v.Str?
  }

  /**
   * A record whose date, time and style fields hold strings (or nothing) and
   * whose id is truthy always becomes an event, unless its start is an
   * Invalid Date and it has no end date: a record is never dropped for its
   * dates.
   */
  lemma StringRecordMaps(n: FieldNames, rec: JsValue, clock: Clock)
    requires !rec.Undefined? && !rec.Null?
    requires var fd := FieldData(rec);
      && Truthy(Prop(fd, n.id))
      && StringOrAbsent(Prop(fd, n.startDate)) && StringOrAbsent(Prop(fd, n.startTime))
      && StringOrAbsent(Prop(fd, n.endDate)) && StringOrAbsent(Prop(fd, n.endTime))
      && StringOrAbsent(Prop(fd, n.style))
    requires var fd := FieldData(rec);
      Truthy(Prop(fd, n.endDate))
      || ParseFMDateTime(Prop(fd, n.startDate), Or(Prop(fd, n.startTime), Str(Midnight)), clock).instant.At?
    ensures MapFields(n, rec, clock).Mapped?
  {
  }

  /** A record with no end date lasts one hour from its start. */
  lemma MissingEndIsOneHour(n: FieldNames, rec: JsValue, clock: Clock)
    requires MapFields(n, rec, clock).Mapped?
    requires !Truthy(Prop(FieldData(rec), n.endDate))
    ensures var e := MapFields(n, rec, clock).event;
      e.start.At? && e.end == At(e.start.ms + HourMs)
  {
    var fd := FieldData(rec);
    var e := MapFields(n, rec, clock).event;
    assert e.start.At?;
    var en := EndOf(e.start, Prop(fd, n.endDate), Or(Prop(fd, n.endTime), Str(Midnight)), clock);
    assert e.end == en.instant;
  }

  /**
   * An event is all-day exactly when its all-day field is `"1"` or `1`, or
   * both its time fields are white space only (an absent or empty time counts
   * as "00:00:00").
   */
  lemma MappedAllDay(n: FieldNames, rec: JsValue, clock: Clock)
    requires MapFields(n, rec, clock).Mapped?
    ensures var fd := FieldData(rec);
      var flag := Prop(fd, n.allDay);
      var startTime := Or(Prop(fd, n.startTime), Str(Midnight));
      var endTime := Or(Prop(fd, n.endTime), Str(Midnight));
      (MapFields(n, rec, clock).event.allDay <==>
         (flag == Str("1") || flag == Num(1)
          || (startTime.Str? && endTime.Str? && Trim(startTime.s) == "" && Trim(endTime.s) == "")))
  {
  }

  /** A missing style is `"-"`, whose class is "fc-event--". */
  lemma StyleClassOfDash()
    ensures StyleClass("-") == "fc-event--"
  {
    assert ToLowerAscii("-") == "-";
    HyphenatePlain("-");
  }

  /** A missing title is "Untitled", a missing description "", and a missing style gives the class "fc-event--". */
  lemma MappedDefaults(n: FieldNames, rec: JsValue, clock: Clock)
    requires MapFields(n, rec, clock).Mapped?
    ensures var fd := FieldData(rec); var e := MapFields(n, rec, clock).event;
      && (!Truthy(Prop(fd, n.title)) ==> e.title == Str("Untitled"))
      && (!Truthy(Prop(fd, n.description)) ==> e.description == Str(""))
      && (!Truthy(Prop(fd, n.style)) ==> e.classNames == ["fc-event--"])
  {
    StyleClassOfDash();
  }

  /**
   * Two words separated by a run of white space give one class: the words
   * lower-cased and joined by a single hyphen ("Home  Visit" gives
   * "fc-event-home-visit").
   */
  lemma StyleClassOfTwoWords(a: string, w: string, b: string)
    requires NoWhitespace(a) && NoWhitespace(b) && w != []
    requires forall i :: 0 <= i < |w| ==> IsWhitespace(w[i])
    ensures StyleClass(a + w + b) == "fc-event-" + ToLowerAscii(a) + "-" + ToLowerAscii(b)
  {
    LowerConcat(a, w + b);
    LowerConcat(w, b);
    LowerWhitespace(w);
    assert a + w + b == a + (w + b);
    assert ToLowerAscii(a + w + b) == ToLowerAscii(a) + w + ToLowerAscii(b);
    HyphenateRun(ToLowerAscii(a), w, ToLowerAscii(b));
  }

  /** A start with three unreadable parts and no end date makes the mapper throw rather than drop the record. */
  lemma InvalidStartWithoutEndThrows(n: FieldNames, rec: JsValue, clock: Clock)
    requires !rec.Undefined? && !rec.Null?
    requires var fd := FieldData(rec);
      && Truthy(Prop(fd, n.id))
      && ParseFMDateTime(Prop(fd, n.startDate), Or(Prop(fd, n.startTime), Str(Midnight)), clock) == DateOk(InvalidDate)
      && !Truthy(Prop(fd, n.endDate))
    ensures MapFields(n, rec, clock) == Threw
  {
  }
}
