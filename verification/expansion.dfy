/**
 * The occurrence expansion inside `build_calendar`: from the anchor date (the
 * next known collection) the walk steps by the interval while the current date
 * is within the horizon, keeping only dates on or after today. Dates are
 * integer day numbers; today is a parameter.
 */
module Expansion {
  import opened Wrappers

  /** How many thirty-day "months" ahead the feed reaches. */
  const MonthsAhead: int := 6

  /** The last day of the window: six thirty-day units after today. */
  function HorizonEnd(today: int): (end: int)
    ensures end - today == 180
  {
    today + MonthsAhead * 30
  }

  /** An interval the walk can step by: absent, or a positive number of days. */
  predicate Steppable(interval: Option<int>) {
    interval.Some? ==> interval.value > 0
  }

  predicate StrictlyIncreasing(dates: seq<int>) {
    forall i, j :: 0 <= i < j < |dates| ==> dates[i] < dates[j]
  }

  /** The dates the walk starting at `current` emits. */
  function Expand(current: int, interval: Option<int>, today: int, endDate: int): (dates: seq<int>)
    requires Steppable(interval)
    ensures forall i :: 0 <= i < |dates| ==> today <= dates[i] <= endDate && current <= dates[i]
    decreases endDate - current
  {
    if current > endDate then []
    else
      var here := if current >= today then [current] else [];
      match interval
      case None => here
      case Some(k) => here + Expand(current + k, interval, today, endDate)
  }

  /** The loop as the source writes it, with its early exit when there is no interval. */
  method CollectionDates(anchor: int, interval: Option<int>, today: int, endDate: int)
    returns (dates: seq<int>)
    requires Steppable(interval)
    ensures dates == Expand(anchor, interval, today, endDate)
    ensures StrictlyIncreasing(dates)
    ensures forall i :: 0 <= i < |dates| ==> today <= dates[i] <= endDate
  {
    dates := [];
    var current := anchor;
    while current <= endDate
      invariant dates + Expand(current, interval, today, endDate) == Expand(anchor, interval, today, endDate)
      decreases endDate - current
    {
      ghost var before := dates;
      ghost var here := if current >= today then [current] else [];
      ExpandUnfold(current, interval, today, endDate);
      if current >= today {
        dates := dates + [current];
      }
      assert dates == before + here;
      if interval.None? {
        break;
      }
      AppendAssoc(before, here, Expand(current + interval.value, interval, today, endDate));
      current := current + interval.value;
    }
    ExpandStrictlyIncreasing(anchor, interval, today, endDate);
  }

  /** One step of the walk: the date looked at, then the walk from the next date when there is an interval. */
  lemma ExpandUnfold(current: int, interval: Option<int>, today: int, endDate: int)
    requires Steppable(interval)
    requires current <= endDate
    ensures var here := if current >= today then [current] else [];
      Expand(current, interval, today, endDate)
        == if interval.None? then here else here + Expand(current + interval.value, interval, today, endDate)
  {
  }

  // Associativity is built in; naming the step keeps the proofs of CollectionDates and Calendar.BuildCalendarConcat within the resource limit.
  lemma AppendAssoc<T>(a: seq<T>, b: seq<T>, c: seq<T>)
    ensures (a + b) + c == a + (b + c)
  {
  }

  /** Consecutive emitted dates are exactly one interval apart, so the list strictly increases. */
  lemma {:induction false} ExpandStrictlyIncreasing(current: int, interval: Option<int>, today: int, endDate: int)
    requires Steppable(interval)
    ensures var dates := Expand(current, interval, today, endDate);
      && StrictlyIncreasing(dates)
      && (interval.Some? ==> forall i :: 1 <= i < |dates| ==> dates[i] == dates[i - 1] + interval.value)
    decreases endDate - current
  {
    if current <= endDate && interval.Some? {
      var k := interval.value;
      ExpandStrictlyIncreasing(current + k, interval, today, endDate);
      var rest := Expand(current + k, interval, today, endDate);
      if current >= today && |rest| > 0 {
        ExpandFirst(current + k, k, today, endDate);
      }
    }
  }

  /** A walk whose first point is already on or after today emits that point first. */
  lemma ExpandFirst(current: int, k: int, today: int, endDate: int)
    requires k > 0
    requires today <= current
    requires |Expand(current, Some(k), today, endDate)| > 0
    ensures Expand(current, Some(k), today, endDate)[0] == current
  {
  }

  /**
   * Completeness and phase: with an interval of `k` days the walk emits exactly
   * the days of the window that lie a whole number of intervals after the anchor.
   */
  lemma {:induction false} ExpandMembership(anchor: int, k: int, today: int, endDate: int, d: int)
    requires k > 0
    ensures d in Expand(anchor, Some(k), today, endDate) <==>
      (today <= d <= endDate && anchor <= d && (d - anchor) % k == 0)
    decreases endDate - anchor
  {
    if anchor <= endDate {
      ExpandMembership(anchor + k, k, today, endDate, d);
      if anchor < d {
        ShiftedPhase(d - anchor, k);
      }
    }
  }

  /** Stepping one interval forward does not change the phase. */
  lemma ShiftedPhase(x: int, k: int)
    requires 0 < x && 0 < k
    ensures (x % k == 0) <==> (x >= k && (x - k) % k == 0)
  {
    if x < k {
      ModUnique(x, k, 0, x);
    } else {
      var q := (x - k) / k;
      var r := (x - k) % k;
      assert x == (q + 1) * k + r;
      ModUnique(x, k, q + 1, r);
    }
  }

  /** Euclidean division has one quotient and one remainder. */
  lemma ModUnique(a: int, k: int, q: int, r: int)
    requires 0 < k && 0 <= r < k && a == q * k + r
    ensures a % k == r
  {
    var q', r' := a / k, a % k;
    assert (q - q') * k == r' - r;
    if q > q' {
      MulAtLeast(q - q', k);
    } else if q < q' {
      MulAtLeast(q' - q, k);
    }
  }

  lemma MulAtLeast(m: int, k: int)
    requires 1 <= m && 0 < k
    ensures m * k >= k
  {
  }

  /** Without an interval only the anchor is looked at, and only kept inside the window. */
  lemma ExpandWithoutInterval(anchor: int, today: int, endDate: int)
    ensures Expand(anchor, None, today, endDate) == if today <= anchor <= endDate then [anchor] else []
  {
  }

  /**
   * Three sample walks, on day numbers as `date.toordinal()` gives them:
   * 2024-01-01 is 738886, 2023-12-18 is 738872, 2024-01-20 is 738905,
   * 2024-01-22 is 738907 and 2024-06-01 is 739038.
   */
  lemma WorkedWalks()
    ensures Expand(738886, Some(7), 738886, 738907) == [738886, 738893, 738900, 738907]
    ensures Expand(738886, None, 738886, 739038) == [738886]
    ensures Expand(738872, Some(14), 738886, 738905) == [738886, 738900]
  {
  }
}
