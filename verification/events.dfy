/**
 * The calendar event written for each emitted collection date, and the key its
 * stable identifier is hashed from. Days are numbered as by Python's
 * `date.toordinal()` (0001-01-01 is day 1). The ISO date formatter and the MD5
 * hex digest are outside the model and arrive as function parameters.
 */
module Events {

  /** The reminder attached to every event. `triggerHours` is relative to the event's start. */
  datatype Alarm = Alarm(action: string, description: string, triggerHours: int)

  /** An all-day event; `dtStart` and `dtEnd` are day numbers. */
  datatype Event = Event(
    summary: string,
    dtStart: int,
    dtEnd: int,
    description: string,
    uid: string,
    alarm: Alarm)

  /** The reminder offset the source writes: seventeen hours before the start of the collection day. */
  const SourceReminderOffsetHours: int := -17

  /** The offset that puts the reminder at 19:00 the evening before, as the source's comments intend. */
  const IntendedReminderOffsetHours: int := -5

  const UidNamespace: string := "@southglos-bins"

  /** The days Python's `date` can represent: 0001-01-01 to 9999-12-31. */
  predicate ValidDay(d: int) {
    1 <= d <= 3652059
  }

  /**
   * What the model needs of `date.isoformat()`: on every representable day it
   * gives ten characters, and distinct days give distinct text.
   */
  ghost predicate IsIsoFormatter(iso: int -> string) {
    && (forall d :: ValidDay(d) ==> |iso(d)| == 10)
    && (forall d1, d2 :: ValidDay(d1) && ValidDay(d2) && iso(d1) == iso(d2) ==> d1 == d2)
  }

  /** The text hashed into an event's identifier; it splits back into the service name and the date text. */
  function UidKey(service: string, date: int, iso: int -> string): (key: string)
    ensures |key| == |service| + 1 + |iso(date)| + |UidNamespace|
    ensures key[..|service|] == service && key[|service|] == '-'
    ensures key[|service| + 1..|service| + 1 + |iso(date)|] == iso(date)
    ensures key[|service| + 1 + |iso(date)|..] == UidNamespace
  {
    service + "-" + iso(date) + UidNamespace
  }

  /** The event identifier: the hex digest of the key, followed by a fixed suffix. */
  function MakeUid(service: string, date: int, iso: int -> string, md5Hex: string -> string): (uid: string)
    ensures |uid| >= 5 && uid[|uid| - 5..] == "@bins"
    ensures uid[..|uid| - 5] == md5Hex(UidKey(service, date, iso))
  {
    md5Hex(UidKey(service, date, iso)) + "@bins"
  }

  /** The event for one collection day, with its reminder `triggerHours` from the start of that day. */
  function EventAt(
    name: string, schedule: string, date: int, iso: int -> string, md5Hex: string -> string, triggerHours: int): Event
  {
    Event(
      summary := "\U{267B} " + name + " collection",
      dtStart := date,
      dtEnd := date + 1,
      description := "Service: " + name + "\nSchedule: " + schedule,
      uid := MakeUid(name, date, iso, md5Hex),
      alarm := Alarm("DISPLAY", "Put out " + name + " bin tonight!", triggerHours))
  }

  /** The hour, counted from midnight at the start of day 0, at which an event's reminder fires. */
  function ReminderHour(e: Event): int {
    24 * e.dtStart + e.alarm.triggerHours
  }

  /** What every event the feed writes satisfies for its service `name`. */
  ghost predicate WellFormedEvent(e: Event, name: string, iso: int -> string, md5Hex: string -> string) {
    && e.dtEnd == e.dtStart + 1
    && e.alarm.action == "DISPLAY"
    && e.alarm.triggerHours == SourceReminderOffsetHours
    && ReminderHour(e) == 24 * (e.dtStart - 1) + 7
    && e.uid == MakeUid(name, e.dtStart, iso, md5Hex)
  }

  /**
   * The event as the source builds it: all-day on its date, with the
   * seventeen-hour reminder (07:00 the day before) and the identifier of its key.
   */
  function MakeEvent(name: string, schedule: string, date: int, iso: int -> string, md5Hex: string -> string): (e: Event)
    ensures e.dtStart == date && WellFormedEvent(e, name, iso, md5Hex)
  {
    EventAt(name, schedule, date, iso, md5Hex, SourceReminderOffsetHours)
  }

  /** The event with the reminder at the time the source's comments intend. */
  function MakeEventIntended(name: string, schedule: string, date: int, iso: int -> string, md5Hex: string -> string): Event {
    EventAt(name, schedule, date, iso, md5Hex, IntendedReminderOffsetHours)
  }

  /**
   * The source's reminder fires at 07:00 the day before collection, not at
   * 19:00: midnight minus seventeen hours is seven in the morning.
   */
  lemma AsWrittenReminderFiresInTheMorning(name: string, schedule: string, date: int, iso: int -> string, md5Hex: string -> string)
    ensures var e := MakeEvent(name, schedule, date, iso, md5Hex);
      && ReminderHour(e) == 24 * (date - 1) + 7
      && ReminderHour(e) != 24 * (date - 1) + 19
  {
  }

  /** The intended event differs from the source's only in its trigger, which fires at 19:00 the evening before. */
  lemma IntendedReminderFiresInTheEvening(name: string, schedule: string, date: int, iso: int -> string, md5Hex: string -> string)
    ensures var e := MakeEventIntended(name, schedule, date, iso, md5Hex);
      var written := MakeEvent(name, schedule, date, iso, md5Hex);
      && ReminderHour(e) == 24 * (date - 1) + 19
      && e == written.(alarm := written.alarm.(triggerHours := IntendedReminderOffsetHours))
  {
  }

  /** The key determines the service name and the day, and is determined by them. */
  lemma UidKeyInjective(s1: string, d1: int, s2: string, d2: int, iso: int -> string)
    requires IsIsoFormatter(iso)
    requires ValidDay(d1) && ValidDay(d2)
    ensures UidKey(s1, d1, iso) == UidKey(s2, d2, iso) <==> s1 == s2 && d1 == d2
  {
    if UidKey(s1, d1, iso) == UidKey(s2, d2, iso) {
      var key := UidKey(s1, d1, iso);
      assert |iso(d1)| == 10 && |iso(d2)| == 10;
      assert |s1| == |s2|;
      assert iso(d1) == key[|s1| + 1..|s1| + 11];
    }
  }

  /** Two events can share an identifier only through a collision of the digest on two distinct keys. */
  lemma UidCollisionIsDigestCollision(
    s1: string, d1: int, s2: string, d2: int, iso: int -> string, md5Hex: string -> string)
    requires IsIsoFormatter(iso)
    requires ValidDay(d1) && ValidDay(d2)
    requires MakeUid(s1, d1, iso, md5Hex) == MakeUid(s2, d2, iso, md5Hex)
    requires s1 != s2 || d1 != d2
    ensures UidKey(s1, d1, iso) != UidKey(s2, d2, iso)
    ensures md5Hex(UidKey(s1, d1, iso)) == md5Hex(UidKey(s2, d2, iso))
  {
    UidKeyInjective(s1, d1, s2, d2, iso);
  }

  /** Sample identifier keys, on 2024-01-01 (day 738886) and a week later, differ by service and by day. */
  lemma WorkedUidKeys(iso: int -> string)
    requires IsIsoFormatter(iso)
    ensures UidKey("Refuse", 738886, iso) != UidKey("Recycling", 738886, iso)
    ensures UidKey("Refuse", 738886, iso) != UidKey("Refuse", 738893, iso)
  {
    UidKeyInjective("Refuse", 738886, "Recycling", 738886, iso);
    UidKeyInjective("Refuse", 738886, "Refuse", 738893, iso);
  }

  // ---------------------------------------------------------------------------
  // The formatter premise can be met: a ten-digit zero-padded day number is one.

  function Pow10(n: nat): nat {
    if n == 0 then 1 else 10 * Pow10(n - 1)
  }

  /** The last `n` decimal digits of `d`, most significant first. */
  function Digits(n: nat, d: nat): (s: string)
    ensures |s| == n
  {
    if n == 0 then [] else Digits(n - 1, d / 10) + [('0' as int + d % 10) as char]
  }

  lemma {:induction false} DigitsInjective(n: nat, d1: nat, d2: nat)
    requires d1 < Pow10(n) && d2 < Pow10(n)
    requires Digits(n, d1) == Digits(n, d2)
    ensures d1 == d2
  {
    if n > 0 {
      var s1, s2 := Digits(n, d1), Digits(n, d2);
      assert s1[n - 1] == s2[n - 1];
      assert d1 % 10 == d2 % 10;
      assert s1[..n - 1] == Digits(n - 1, d1 / 10);
      assert s2[..n - 1] == Digits(n - 1, d2 / 10);
      DigitsInjective(n - 1, d1 / 10, d2 / 10);
    }
  }

  lemma IsoFormatterSatisfiable()
    ensures IsIsoFormatter((d: int) => Digits(10, if d < 0 then 0 else d))
  {
    var iso := (d: int) => Digits(10, if d < 0 then 0 else d);
    assert Pow10(10) == 10000000000;
    forall d | ValidDay(d)
      ensures |iso(d)| == 10
    {
      assert iso(d) == Digits(10, d);
    }
    forall d1, d2 | ValidDay(d1) && ValidDay(d2) && iso(d1) == iso(d2)
      ensures d1 == d2
    {
      assert iso(d1) == Digits(10, d1) && iso(d2) == Digits(10, d2);
      DigitsInjective(10, d1, d2);
    }
    assert IsIsoFormatter(iso);
  }
}
