/**
 * The schedule-interval classifier `parse_interval_days`: an ordered substring
 * heuristic over the lower-cased description, followed by a regular-expression
 * fallback `every\s+(\d+)\s+week`. The fallback is modelled as written and then
 * shown to be unreachable: every string it matches contains "week", and such a
 * string has already been classified as weekly by the second rule.
 */
module Interval {
  import opened Wrappers
  import opened Text

  /** First rule: the phrases that select a fourteen-day interval. */
  predicate SaysFortnightly(desc: string) {
    Contains(desc, "fortnight") || Contains(desc, "every 2 week") || Contains(desc, "every other week")
  }

  /** Second rule: the phrases that select a seven-day interval, the last of them the bare word. */
  predicate SaysWeekly(desc: string) {
    Contains(desc, "every week") || Contains(desc, "weekly") || Contains(desc, "week")
  }

  /**
   * The interval in days named by a free-text schedule description, or `None`
   * when unrecognised. Only a week or a fortnight can come out: the fallback
   * on the last lines is never reached.
   */
  function ParseIntervalDays(schedule: string): (r: Option<int>)
    ensures r == None || r == Some(7) || r == Some(14)
  {
    var desc := Lower(schedule);
    FallbackUnreachable(schedule);
    if SaysFortnightly(desc) then Some(14)
    else if SaysWeekly(desc) then Some(7)
    else
      match SearchEveryNWeek(desc, 0)
      case Some(n) => Some(n * 7)
      case None => None
  }

  // ---------------------------------------------------------------------------
  // The regular expression `every\s+(\d+)\s+week`, searched with `re.search`.

  /** `\s` on ASCII: the characters below 128 for which Python's `str.isspace` holds. */
  predicate IsSpace(c: char) {
    c == ' ' || '\t' <= c <= '\r' || '\U{1C}' <= c <= '\U{1F}'
  }

  /** `\d` on ASCII. */
  predicate IsDigit(c: char) {
    '0' <= c <= '9'
  }

  /** The length of the longest run of characters satisfying `P` that starts at position `i`. */
  function RunOf(P: char -> bool, s: string, i: nat): (n: nat)
    requires i <= |s|
    ensures i + n <= |s|
    ensures forall k :: i <= k < i + n ==> P(s[k])
    ensures i + n == |s| || !P(s[i + n])
    decreases |s| - i
  {
    if i < |s| && P(s[i]) then 1 + RunOf(P, s, i + 1) else 0
  }

  function DigitValue(c: char): nat
    requires IsDigit(c)
  {
    c as int - '0' as int
  }

  /** Python's `int` of a string of ASCII digits. */
  function DecimalValue(ds: string): nat
    requires forall k :: 0 <= k < |ds| ==> IsDigit(ds[k])
  {
    if |ds| == 0 then 0
    else 10 * DecimalValue(ds[..|ds| - 1]) + DigitValue(ds[|ds| - 1])
  }

  /** Where the `\s+` after "every" ends: the start of the digits. */
  function DigitsStart(s: string, i: nat): (b: nat)
    requires i + 5 <= |s|
    ensures i + 5 <= b <= |s|
  {
    i + 5 + RunOf(IsSpace, s, i + 5)
  }

  /** Where the `(\d+)` group ends. */
  function DigitsEnd(s: string, i: nat): (c: nat)
    requires i + 5 <= |s|
    ensures DigitsStart(s, i) <= c <= |s|
  {
    DigitsStart(s, i) + RunOf(IsDigit, s, DigitsStart(s, i))
  }

  /** Where the second `\s+` ends: the position "week" must start at. */
  function WeekStart(s: string, i: nat): (e: nat)
    requires i + 5 <= |s|
    ensures DigitsEnd(s, i) <= e <= |s|
  {
    DigitsEnd(s, i) + RunOf(IsSpace, s, DigitsEnd(s, i))
  }

  /**
   * The pattern matches at position `i`. Each `+` repetition is followed by a
   * character its class excludes (a digit after `\s+`, a space after `\d+`, a
   * `w` after `\s+`), so backtracking never helps and the only candidate match
   * takes every run at its longest.
   */
  predicate MatchesAt(s: string, i: nat) {
    && i + 5 <= |s|
    && s[i..i + 5] == "every"
    && i + 5 < DigitsStart(s, i) < DigitsEnd(s, i) < WeekStart(s, i)
    && WeekStart(s, i) + 4 <= |s|
    && s[WeekStart(s, i)..WeekStart(s, i) + 4] == "week"
  }

  /** The captured integer when the pattern matches at position `i`. */
  function MatchEveryNWeekAt(s: string, i: nat): Option<nat>
    requires i <= |s|
  {
    if MatchesAt(s, i) then Some(DecimalValue(s[DigitsStart(s, i)..DigitsEnd(s, i)])) else None
  }

  /** The leftmost position at or after `i` where the pattern matches, or `|s| + 1` when there is none. */
  function FirstMatch(s: string, i: nat): (j: nat)
    requires i <= |s|
    ensures i <= j <= |s| + 1
    ensures forall k :: i <= k < j && k <= |s| ==> !MatchesAt(s, k)
    ensures j <= |s| ==> MatchesAt(s, j)
    decreases |s| - i
  {
    if MatchesAt(s, i) then i
    else if i == |s| then |s| + 1
    else FirstMatch(s, i + 1)
  }

  /** `re.search` from position `i`: the captured integer of the leftmost match, `None` when nothing matches. */
  function SearchEveryNWeek(s: string, i: nat): (r: Option<nat>)
    requires i <= |s|
    ensures r.None? <==> forall k :: i <= k <= |s| ==> !MatchesAt(s, k)
    ensures r.Some? ==> FirstMatch(s, i) <= |s| && r == MatchEveryNWeekAt(s, FirstMatch(s, i))
  {
    var j := FirstMatch(s, i);
    if j <= |s| then MatchEveryNWeekAt(s, j) else None
  }

  // ---------------------------------------------------------------------------
  // Properties.

  /** A match at any position has "week" as its last four characters. */
  lemma MatchContainsWeek(s: string, i: nat)
    requires i <= |s|
    requires MatchEveryNWeekAt(s, i).Some?
    ensures Contains(s, "week")
  {
    OccursAtContains(s, "week", WeekStart(s, i));
  }

  lemma SearchContainsWeek(s: string, i: nat)
    requires i <= |s|
    ensures SearchEveryNWeek(s, i).Some? ==> Contains(s, "week")
  {
    if SearchEveryNWeek(s, i).Some? {
      MatchContainsWeek(s, FirstMatch(s, i));
    }
  }

  /** The regular-expression fallback never decides the result: when it is reached it finds nothing. */
  lemma FallbackUnreachable(schedule: string)
    ensures !SaysWeekly(Lower(schedule)) ==> SearchEveryNWeek(Lower(schedule), 0) == None
  {
    SearchContainsWeek(Lower(schedule), 0);
  }

  /** Fourteen days exactly when a fortnightly phrase occurs, in any letter case. */
  lemma FortnightlyIff(schedule: string)
    ensures ParseIntervalDays(schedule) == Some(14) <==> SaysFortnightly(Lower(schedule))
  {
    FallbackUnreachable(schedule);
  }

  /** Seven days exactly when "week" occurs but no fortnightly phrase does. */
  lemma WeeklyIff(schedule: string)
    ensures ParseIntervalDays(schedule) == Some(7) <==>
      (!SaysFortnightly(Lower(schedule)) && Contains(Lower(schedule), "week"))
  {
    var desc := Lower(schedule);
    FallbackUnreachable(schedule);
    if Contains(desc, "every week") {
      assert "every week"[6..10] == "week";
      OccursAtContains("every week", "week", 6);
      ContainsTransitive(desc, "every week", "week");
    }
    if Contains(desc, "weekly") {
      assert "weekly"[0..4] == "week";
      OccursAtContains("weekly", "week", 0);
      ContainsTransitive(desc, "weekly", "week");
    }
  }

  /** No interval exactly when neither "week" nor a fortnightly phrase occurs; the empty description is one. */
  lemma UnrecognisedIff(schedule: string)
    ensures ParseIntervalDays(schedule) == None <==>
      (!SaysFortnightly(Lower(schedule)) && !Contains(Lower(schedule), "week"))
  {
    FortnightlyIff(schedule);
    WeeklyIff(schedule);
  }

  /** Changing the case of ASCII letters never changes the classification. */
  lemma ClassifierIgnoresCase(s: string, t: string)
    requires SameUpToCase(s, t)
    ensures ParseIntervalDays(s) == ParseIntervalDays(t)
  {
    LowerSameUpToCase(s, t);
  }

  // ---------------------------------------------------------------------------
  // Worked descriptions.

  /** The fallback, were it reached, would read 3 from "every 3 weeks" (and so produce 21 days). */
  lemma FallbackReadsThree(desc: string)
    requires desc == "every 3 weeks"
    ensures SearchEveryNWeek(desc, 0) == Some(3)
  {
    assert RunOf(IsSpace, desc, 8) == 0;
    assert RunOf(IsDigit, desc, 7) == 0;
    assert RunOf(IsSpace, desc, 6) == 0;
    assert MatchesAt(desc, 0);
    assert DecimalValue(desc[6..7]) == 3;
  }

  lemma EveryThreeWeeksPhrases(desc: string)
    requires desc == "every 3 weeks"
    ensures !SaysFortnightly(desc) && SaysWeekly(desc)
  {
    NotContains(desc, "fortnight", 0);
    NotContains(desc, "every 2 week", 6);
    OccursAtContains(desc, "week", 8);
  }

  /** "Every 3 weeks" is weekly: the bare "week" test fires before the fallback can read the 3. */
  lemma EveryThreeWeeksIsWeekly()
    ensures SearchEveryNWeek(Lower("Every 3 weeks"), 0) == Some(3)
    ensures ParseIntervalDays("Every 3 weeks") == Some(7)
  {
    assert Lower("Every 3 weeks") == "every 3 weeks";
    FallbackReadsThree(Lower("Every 3 weeks"));
    EveryThreeWeeksPhrases(Lower("Every 3 weeks"));
  }

  lemma WeeklyCollectionPhrases(desc: string)
    requires desc == "weekly collection"
    ensures !SaysFortnightly(desc) && SaysWeekly(desc)
  {
    NotContains(desc, "fortnight", 0);
    NotContains(desc, "every 2 week", 6);
    NotContains(desc, "every other week", 1);
    OccursAtContains(desc, "week", 0);
  }

  lemma WeeklyCollectionIsWeekly()
    ensures ParseIntervalDays("Weekly collection") == Some(7)
  {
    assert Lower("Weekly collection") == "weekly collection";
    WeeklyCollectionPhrases(Lower("Weekly collection"));
  }

  lemma CollectedFortnightlyIsFortnightly()
    ensures ParseIntervalDays("Collected fortnightly") == Some(14)
  {
    var desc := Lower("Collected fortnightly");
    assert desc == "collected fortnightly";
    assert OccursAt(desc, "fortnight", 10);
    OccursAtContains(desc, "fortnight", 10);
  }

  lemma EmptyIsUnrecognised()
    ensures ParseIntervalDays("") == None
  {
    assert Lower("") == "";
  }
}
