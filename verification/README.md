# Bin-collection calendar feed: a Dafny model of the calendar-generation core

The service republishes a council's waste-collection data as an iCalendar feed.
For every upstream service record it reads the next collection date, infers a
repeat interval from the free-text schedule description, walks forward from that
date in steps of the interval up to a horizon of six thirty-day "months", and
writes one all-day event per date, each with a stable identifier and a reminder.

This project models that core in Dafny and proves what it does:

- `Interval.ParseIntervalDays` is `parse_interval_days`: lower-case the text, then
  "fortnight" / "every 2 week" / "every other week" give 14, then "every week" /
  "weekly" / "week" give 7, then a `re.search` for `every\s+(\d+)\s+week` gives
  N×7, else `None`. The regular expression is modelled as written (a leftmost
  search whose runs are necessarily maximal) and proved unreachable: every match
  contains "week", which the second rule has already caught. So the classifier only
  ever returns `None`, 7 or 14, and "Every 3 weeks" gives 7. The comment on
  app.py:39 expects such text to reach the fallback, which would give 21; the
  model follows the code.
- `Expansion.Expand` / `Expansion.CollectionDates` are the `while current <= end_date`
  loop, with dates as integer day numbers and `today` passed in.
- `Events` builds the per-date event record and the identifier key
  `service + "-" + iso(date) + "@southglos-bins"`.
- `Calendar.BuildCalendar` is the loop over service records. It skips records whose
  date is missing, empty or unparseable, and concatenates the others' events in order.

The collaborators the core calls but cannot see are parameters. These are the date
parser (`parseDate: string -> Option<int>`), `date.isoformat()` (`iso: int -> string`),
the MD5 hex digest (`md5Hex: string -> string`) and `date.today()` (`today: int`).
Days are numbered as Python's `date.toordinal()` numbers them, so 0001-01-01 is
day 1 and 9999-12-31 is day 3652059 (`Events.ValidDay`). Of `iso` the model
assumes only `Events.IsIsoFormatter`: on every valid day it gives ten characters,
and distinct valid days give distinct text. `Events.IsoFormatterSatisfiable`
proves that a formatter meeting this assumption exists (ten zero-padded digits
of the day number).

The feed is built as written, with the source's −17 hour reminder. The reminder
the comments intend is modelled separately (see "## Findings").

Files: `wrappers.dfy` (Option), `text.dfy` (ASCII lower-casing, substring test),
`interval.dfy`, `expansion.dfy`, `events.dfy`, `calendar.dfy`.

## Model

| member | source | states |
|---|---|---|
| Text.Lower | app.py:34 | lower-casing keeps the length, leaves no capital A–Z, keeps every other character, and changes only letter case |
| Text.Contains | app.py:35-37 | Python's `p in s`: the empty pattern is in every text, a pattern longer than the text never is, and one of equal length is in it exactly when the two are equal |
| Text.ContainsIff | app.py:35-37 | Python's `p in s`, as computed, holds exactly when `p` occurs at some position of `s` |
| Text.LowerSameUpToCase | app.py:34 | two descriptions that differ only in ASCII letter case lower-case to the same text |
| Interval.ParseIntervalDays | app.py:29-43 | the classifier returns `None`, 7 or 14 and nothing else, because the regular-expression fallback is never reached |
| Interval.RunOf | app.py:40 | a `\s+` or `\d+` run is taken at its longest: every character in it is in the class and the next one is not |
| Interval.FirstMatch | app.py:40 | the search position is the leftmost one where `every\s+(\d+)\s+week` matches; no earlier position matches |
| Interval.SearchEveryNWeek | app.py:40-41 | `re.search` finds nothing exactly when the pattern matches at no position; otherwise it captures the integer of the leftmost match |
| Interval.MatchContainsWeek | app.py:40 | wherever `every\s+(\d+)\s+week` matches, the text contains "week" |
| Interval.SearchContainsWeek | app.py:40-41 | if `re.search` finds the pattern anywhere, the text contains "week" |
| Interval.FallbackUnreachable | app.py:37-42 | when the second rule does not fire, the regular-expression search finds nothing, so line 42 is dead code |
| Interval.FortnightlyIff | app.py:34-36 | the result is 14 exactly when the lower-cased text contains "fortnight", "every 2 week" or "every other week" |
| Interval.WeeklyIff | app.py:34-38 | the result is 7 exactly when the lower-cased text contains "week" and none of the fortnightly phrases |
| Interval.UnrecognisedIff | app.py:34-43 | the result is `None` exactly when the lower-cased text contains neither "week" nor a fortnightly phrase |
| Interval.ClassifierIgnoresCase | app.py:34 | descriptions equal up to ASCII letter case classify alike |
| Interval.FallbackReadsThree | app.py:40-42 | on "every 3 weeks" the search captures 3, so the dead branch would have returned 21 |
| Interval.EveryThreeWeeksPhrases | app.py:35-37 | "every 3 weeks" has no fortnightly phrase and does contain "week" |
| Interval.EveryThreeWeeksIsWeekly | app.py:34-42 | "Every 3 weeks" classifies as 7, although the fallback would read 3 from it |
| Interval.WeeklyCollectionPhrases | app.py:35-37 | "weekly collection" has no fortnightly phrase, and the second rule fires on it |
| Interval.WeeklyCollectionIsWeekly | app.py:34-38 | "Weekly collection" classifies as 7 |
| Interval.CollectedFortnightlyIsFortnightly | app.py:34-36 | "Collected fortnightly" classifies as 14 |
| Interval.EmptyIsUnrecognised | app.py:34-43 | the empty description classifies as `None` |
| Expansion.HorizonEnd | app.py:60 | the window ends 180 days after today: six thirty-day months |
| Expansion.Expand | app.py:78-85 | every emitted date lies between today and the horizon end, and not before the walk's starting date |
| Expansion.CollectionDates | app.py:78-85 | the loop, including its early exit without an interval, emits exactly the expansion, strictly increasing and inside the window |
| Expansion.ExpandStrictlyIncreasing | app.py:79-85 | the emitted dates strictly increase, and with an interval consecutive dates are exactly one interval apart |
| Expansion.ExpandMembership | app.py:79-85 | with an interval of k days, d is emitted exactly when today ≤ d ≤ horizon, d ≥ anchor and d − anchor is a multiple of k; stepping keeps the anchor's phase |
| Expansion.ExpandWithoutInterval | app.py:80-84 | without an interval the output is the anchor alone if it is inside the window, and empty otherwise |
| Expansion.WorkedWalks | app.py:78-85 | three sample walks: weekly from today, a single date, and a fortnightly series whose anchor is before today |
| Events.UidKey | app.py:47 | the key splits back into the service name, a hyphen and the date text, followed by "@southglos-bins" |
| Events.MakeUid | app.py:46-48 | the identifier is the digest of the (service, date) key followed by "@bins" |
| Events.MakeEvent | app.py:87-104 | each event starts on its date, ends one day later, has a DISPLAY reminder with the −17 hour trigger (07:00 the day before), and carries the identifier of (service, date) |
| Events.AsWrittenReminderFiresInTheMorning | app.py:97-103 | the source's −17 hour reminder fires at 07:00 the previous day, not 19:00 |
| Events.IntendedReminderFiresInTheEvening | app.py:97-103 | the event with a −5 hour trigger differs from the source's only in its trigger, and its reminder fires at 19:00 the evening before |
| Events.UidKeyInjective | app.py:46-48 | for valid days, the identifier key is equal for two (service, date) pairs exactly when the pairs are equal |
| Events.UidCollisionIsDigestCollision | app.py:46-48 | two distinct (service, valid day) pairs can share an identifier only through an MD5 collision on two distinct keys |
| Events.WorkedUidKeys | app.py:46-48 | the keys of Refuse on 2024-01-01 differ from those of Recycling on that day and of Refuse a week later |
| Calendar.Anchor | app.py:64-73 | a record has no anchor exactly when its date is missing, empty or rejected by the parser; otherwise the anchor is the parsed date |
| Calendar.EventsFor | app.py:87-106 | one source event per emitted date, in the dates' order |
| Calendar.ServiceEvents | app.py:63-106 | a skipped record gives no events; every event a record gives lies in the window and is exactly the source's event for that service, schedule text and day, summary, description and alarm text included |
| Calendar.BuildCalendar | app.py:59-106 | every event of the feed lies between today and today + 180, is all-day, and has a DISPLAY reminder with the −17 hour trigger, which fires at 07:00 the day before |
| Calendar.SkippedRecordHasNoEvents | app.py:64-73 | a record whose date is missing, empty or unparseable contributes no events |
| Calendar.ServiceEventsFollowExpansion | app.py:75-106 | a parsed record contributes one event per date of its expansion, in order, the i-th being exactly the source's event for the service and schedule text on the i-th date |
| Calendar.BuildCalendarConcat | app.py:62-106 | the feed of a concatenated payload is the concatenation of the two feeds |
| Calendar.SkippedRecordIsolated | app.py:62-73 | removing a skipped record leaves the feed unchanged |
| Calendar.ServiceUidKeysDistinct | app.py:59-95 | when today and the horizon are valid days, the identifier keys of one service's events are pairwise distinct |

Some members are definitions whose contract is their body; the rows above state
what they mean through the members that use them:

- `Interval.MatchesAt`, `Interval.MatchEveryNWeekAt` and `Interval.DecimalValue`
  (app.py:40-41) are the match of `every\s+(\d+)\s+week` at one position and `int`
  of the captured digits; `Interval.SearchEveryNWeek`, `Interval.MatchContainsWeek`
  and `Interval.FallbackReadsThree` state their meaning.
- `Events.EventAt` (app.py:87-104) is the event record with a given trigger;
  `Events.MakeEvent` and `Events.IntendedReminderFiresInTheEvening` state its meaning.
- `Calendar.ServiceName` and `Calendar.ScheduleText` (app.py:63, 65) are the `.get`
  lookups with their defaults "Unknown" and "".

## Findings

| source | as written | input that shows it | evidently intended | confidence | as-written member | corrected member |
|---|---|---|---|---|---|---|
| app.py:97-103 | the reminder trigger is `timedelta(hours=-17)` from the start of the all-day event | any collection day d: midnight of d minus 17 hours is 07:00 on day d − 1 | 19:00 the evening before, as the module docstring and the comments on lines 97 and 101-102 say, which is a −5 hour trigger | high; not executed | Events.AsWrittenReminderFiresInTheMorning | Events.IntendedReminderFiresInTheEvening |

`Events.MakeEvent` is the event as the source builds it, with the −17 hour
trigger, and `Calendar.BuildCalendar` builds the feed from it.
`Events.MakeEventIntended` is the same event with a −5 hour trigger.

## Left out

- The HTTP route, the outbound request, JSON decoding and the entry point (app.py:111-135) are I/O and server plumbing.
- The calendar header properties and `to_ical()` serialisation (app.py:52-57, 108) belong to a library whose text encoding is not part of this model. Events are records, not text.
- `dateutil` parsing (app.py:71) is a foreign library and is the parameter `parseDate`. Every failure becomes `None`, which the source does only for `ValueError` and `TypeError`; other exceptions such as `OverflowError` would escape in the source.
- `date.today()` (app.py:59) reads the clock and is the parameter `today`.
- MD5 (app.py:48) is the parameter `md5Hex`. Nothing is assumed of it, so only the key before hashing is proved injective.
- Gregorian calendar arithmetic and `date.isoformat()` are left out. Dates are integer day numbers, and the ISO text is the parameter `iso`, assumed ten characters long and injective on valid days.
- Python's date range is used only by the identifier lemmas. The walk and the horizon are not bounded by it, so the `OverflowError` of stepping past 9999-12-31 is absent.
- Unicode is left out. `str.lower`, `\s` and `\d` are modelled on ASCII only: lower-casing changes A–Z, `\s` is the ASCII characters Python's `str.isspace` accepts, and `\d` is 0–9.
- A record key that is present with a JSON `null` or non-string value is not modelled; `None` in `ServiceRecord` means the key is absent. In the source, a `null` schedule description on a record whose date parses makes `.lower()` raise and fails the whole request.
- `Calendar.BuildCalendar` builds the feed with the source's 07:00 reminder only. No feed is built from `Events.MakeEventIntended`.
- Only the event fields are modelled. The feed's display timezone and any local-time conversion are left out, and reminder times are counted in hours from midnight of day 0.
- `SERVICE_COLOURS` (app.py:19-24) is unused by the source.
