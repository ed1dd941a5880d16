/**
 * The per-service loop of `build_calendar`: each upstream record whose next
 * collection date is present and parses contributes one event per date of its
 * expansion; the others contribute nothing. The date parser, the ISO formatter
 * and the MD5 digest are parameters, and so is today.
 */
module Calendar {
  import opened Wrappers
  import opened Interval
  import opened Expansion
  import opened Events

  /** One entry of the upstream payload; `None` is a key the entry does not have. */
  datatype ServiceRecord = ServiceRecord(
    serviceName: Option<string>,
    nextCollection: Option<string>,
    scheduleDescription: Option<string>)

  function ServiceName(r: ServiceRecord): string {
    r.serviceName.GetOr("Unknown")
  }

  function ScheduleText(r: ServiceRecord): string {
    r.scheduleDescription.GetOr("")
  }

  /** The anchor date of a record; `None` exactly when the record is skipped. */
  function Anchor(r: ServiceRecord, parseDate: string -> Option<int>): (a: Option<int>)
    ensures a.None? <==>
      (r.nextCollection.None? || r.nextCollection.value == "" || parseDate(r.nextCollection.value).None?)
    ensures a.Some? ==> a == parseDate(r.nextCollection.value)
  {
    match r.nextCollection
    case None => None
    case Some(text) => if text == "" then None else parseDate(text)
  }

  /** One event per date, in the order of the dates. */
  function EventsFor(
    name: string, schedule: string, dates: seq<int>, iso: int -> string, md5Hex: string -> string): (es: seq<Event>)
    ensures |es| == |dates|
    ensures forall i :: 0 <= i < |dates| ==> es[i] == MakeEvent(name, schedule, dates[i], iso, md5Hex)
  {
    if |dates| == 0 then []
    else [MakeEvent(name, schedule, dates[0], iso, md5Hex)] + EventsFor(name, schedule, dates[1..], iso, md5Hex)
  }

  /** The events one record contributes: none when it is skipped, otherwise the source's events for its service inside the window. */
  function ServiceEvents(
    r: ServiceRecord, today: int, parseDate: string -> Option<int>, iso: int -> string, md5Hex: string -> string)
    : (es: seq<Event>)
    ensures Anchor(r, parseDate).None? ==> es == []
    ensures forall e :: e in es ==>
      && today <= e.dtStart <= HorizonEnd(today)
      && WellFormedEvent(e, ServiceName(r), iso, md5Hex)
      && e == MakeEvent(ServiceName(r), ScheduleText(r), e.dtStart, iso, md5Hex)
  {
    match Anchor(r, parseDate)
    case None => []
    case Some(anchor) =>
      var interval := ParseIntervalDays(ScheduleText(r));
      EventsFor(ServiceName(r), ScheduleText(r), Expand(anchor, interval, today, HorizonEnd(today)), iso, md5Hex)
  }

  /**
   * All events of the feed, records in payload order. Each lies between today
   * and the horizon, is all-day, and has the source's reminder at 07:00 the day before.
   */
  function BuildCalendar(
    services: seq<ServiceRecord>, today: int, parseDate: string -> Option<int>,
    iso: int -> string, md5Hex: string -> string): (events: seq<Event>)
    ensures forall e :: e in events ==>
      && today <= e.dtStart <= HorizonEnd(today)
      && e.dtEnd == e.dtStart + 1
      && e.alarm.action == "DISPLAY"
      && e.alarm.triggerHours == SourceReminderOffsetHours
      && ReminderHour(e) == 24 * (e.dtStart - 1) + 7
    decreases |services|
  {
    if |services| == 0 then []
    else ServiceEvents(services[0], today, parseDate, iso, md5Hex) + BuildCalendar(services[1..], today, parseDate, iso, md5Hex)
  }

  // ---------------------------------------------------------------------------
  // Properties.

  /** A record without date text, with empty date text, or with text the parser rejects yields no events. */
  lemma SkippedRecordHasNoEvents(
    r: ServiceRecord, today: int, parseDate: string -> Option<int>, iso: int -> string, md5Hex: string -> string)
    requires r.nextCollection.None? || r.nextCollection == Some("") || parseDate(r.nextCollection.value).None?
    ensures ServiceEvents(r, today, parseDate, iso, md5Hex) == []
  {
  }

  /**
   * A record with an anchor yields one event per date of its expansion, in order,
   * each the source's event for the record's service name and schedule on its date.
   */
  lemma ServiceEventsFollowExpansion(
    r: ServiceRecord, anchor: int, today: int, parseDate: string -> Option<int>,
    iso: int -> string, md5Hex: string -> string)
    requires Anchor(r, parseDate) == Some(anchor)
    ensures var es := ServiceEvents(r, today, parseDate, iso, md5Hex);
      var dates := Expand(anchor, ParseIntervalDays(ScheduleText(r)), today, HorizonEnd(today));
      && |es| == |dates|
      && forall i :: 0 <= i < |es| ==>
        && es[i] == MakeEvent(ServiceName(r), ScheduleText(r), dates[i], iso, md5Hex)
        && es[i].dtStart == dates[i]
        && WellFormedEvent(es[i], ServiceName(r), iso, md5Hex)
  {
  }

  /** The feed of a concatenated payload is the concatenation of the feeds. */
  lemma {:induction false} BuildCalendarConcat(
    a: seq<ServiceRecord>, b: seq<ServiceRecord>, today: int, parseDate: string -> Option<int>,
    iso: int -> string, md5Hex: string -> string)
    ensures BuildCalendar(a + b, today, parseDate, iso, md5Hex)
      == BuildCalendar(a, today, parseDate, iso, md5Hex) + BuildCalendar(b, today, parseDate, iso, md5Hex)
    decreases |a|
  {
    if |a| > 0 {
      assert (a + b)[0] == a[0] && (a + b)[1..] == a[1..] + b;
      BuildCalendarConcat(a[1..], b, today, parseDate, iso, md5Hex);
      var head := ServiceEvents(a[0], today, parseDate, iso, md5Hex);
      var rest := BuildCalendar(a[1..], today, parseDate, iso, md5Hex);
      var tail := BuildCalendar(b, today, parseDate, iso, md5Hex);
      assert BuildCalendar(a + b, today, parseDate, iso, md5Hex) == head + (rest + tail);
      AppendAssoc(head, rest, tail);
    } else {
      assert a + b == b;
    }
  }

  /** A skipped record changes nothing about the events of the records around it. */
  lemma SkippedRecordIsolated(
    a: seq<ServiceRecord>, r: ServiceRecord, b: seq<ServiceRecord>, today: int,
    parseDate: string -> Option<int>, iso: int -> string, md5Hex: string -> string)
    requires Anchor(r, parseDate).None?
    ensures BuildCalendar(a + [r] + b, today, parseDate, iso, md5Hex) == BuildCalendar(a + b, today, parseDate, iso, md5Hex)
  {
    BuildCalendarConcat(a + [r], b, today, parseDate, iso, md5Hex);
    BuildCalendarConcat(a, [r], today, parseDate, iso, md5Hex);
    BuildCalendarConcat(a, b, today, parseDate, iso, md5Hex);
  }

  /**
   * Within one record's events no two identifier keys coincide: its dates are
   * distinct. The window must lie within the days Python's `date` can represent,
   * as `today + timedelta(days=180)` otherwise raises.
   */
  lemma ServiceUidKeysDistinct(
    r: ServiceRecord, today: int, parseDate: string -> Option<int>, iso: int -> string, md5Hex: string -> string)
    requires IsIsoFormatter(iso)
    requires ValidDay(today) && ValidDay(HorizonEnd(today))
    ensures var es := ServiceEvents(r, today, parseDate, iso, md5Hex);
      forall i, j :: 0 <= i < j < |es| ==>
        UidKey(ServiceName(r), es[i].dtStart, iso) != UidKey(ServiceName(r), es[j].dtStart, iso)
  {
    if Anchor(r, parseDate).Some? {
      var anchor := Anchor(r, parseDate).value;
      ServiceEventsFollowExpansion(r, anchor, today, parseDate, iso, md5Hex);
      ExpandStrictlyIncreasing(anchor, ParseIntervalDays(ScheduleText(r)), today, HorizonEnd(today));
      var es := ServiceEvents(r, today, parseDate, iso, md5Hex);
      forall i, j | 0 <= i < j < |es|
        ensures UidKey(ServiceName(r), es[i].dtStart, iso) != UidKey(ServiceName(r), es[j].dtStart, iso)
      {
        UidKeyInjective(ServiceName(r), es[i].dtStart, ServiceName(r), es[j].dtStart, iso);
      }
    }
  }
}
