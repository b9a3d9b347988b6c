/**
 The cadence arithmetic, in day numbers: interval bounds, the saturating day
 difference, the n-th occurrence date, and the search for the first occurrence past
 a date.  Module Calendar ties day numbers to year/month/day dates.
 */
module Cadence {
  type Day = int

  const MIN_INTERVAL_DAYS := 7
  const MAX_INTERVAL_DAYS := 180

  // Go durations are int64 nanoseconds and Time.Sub saturates.
  const MAX_DURATION := 0x7fff_ffff_ffff_ffff
  const MIN_DURATION := -0x8000_0000_0000_0000
  const DAY_NANOS := 86_400_000_000_000

  // The largest whole number of days an int64 duration holds.
  const MAX_SPAN := 106751

  predicate ValidInterval(interval: int) {
    MIN_INTERVAL_DAYS <= interval <= MAX_INTERVAL_DAYS
  }

  function Min(a: int, b: int): int { if a < b then a else b }

  function Max(a: int, b: int): int { if a < b then b else a }

  /** Division that drops the fraction, as a conversion from float64 to int does. */
  function TruncDiv(a: int, b: int): int
    requires b > 0
  {
    if a >= 0 then a / b else -((-a) / b)
  }

  /** `to` minus `from` as a duration, then back to whole days. */
  function DaysUntil(from: Day, to: Day): int {
    TruncDiv(Max(MIN_DURATION, Min(MAX_DURATION, (to - from) * DAY_NANOS)), DAY_NANOS)
  }

  /** The round trip through a duration loses everything past 106751 days, either way. */
  lemma DaysUntilSaturates(from: Day, to: Day)
    ensures DaysUntil(from, to) == Max(-MAX_SPAN, Min(MAX_SPAN, to - from))
    ensures DaysUntil(from, to) == to - from <==> -MAX_SPAN <= to - from <= MAX_SPAN
  {
    var d := to - from;
    if d > MAX_SPAN {
      assert d * DAY_NANOS > MAX_DURATION;
    } else if d < -MAX_SPAN {
      assert d * DAY_NANOS < MIN_DURATION;
    }
  }

  /** The n-th date of a cadence. */
  function Nth(anchor: Day, interval: int, n: int): Day {
    anchor + n * interval
  }

  datatype Found = Found(seqNo: int, date: Day) | BadInterval | BadSequence

  function OccurrenceDate(anchor: Day, interval: int, seqNo: int): Found {
    if !ValidInterval(interval) then BadInterval
    else if seqNo < 1 then BadSequence
    else Found(seqNo, Nth(anchor, interval, seqNo))
  }

  function NextOccurrenceAfter(anchor: Day, interval: int, after: Day): Found {
    if !ValidInterval(interval) then BadInterval
    else
      var elapsed := DaysUntil(anchor, after);
      if elapsed < 0 then OccurrenceDate(anchor, interval, 1)
      else
        var seqNo := elapsed / interval + 1;
        var d := OccurrenceDate(anchor, interval, seqNo);
        if d.Found? && !(d.date > after) then OccurrenceDate(anchor, interval, seqNo + 1) else d
  }

  /** What the two functions answer: dates for intervals from 7 to 180 and indices from 1 on,
      and nothing else. */
  lemma CadenceAnswers(anchor: Day, interval: int, seqNo: int, after: Day)
    ensures OccurrenceDate(anchor, interval, seqNo).Found? <==> 7 <= interval <= 180 && seqNo >= 1
    ensures OccurrenceDate(anchor, interval, seqNo).Found? ==>
              OccurrenceDate(anchor, interval, seqNo).date - anchor == interval * seqNo
    ensures OccurrenceDate(anchor, interval, seqNo) == BadInterval <==> !(7 <= interval <= 180)
    ensures NextOccurrenceAfter(anchor, interval, after).Found? <==> 7 <= interval <= 180
    ensures NextOccurrenceAfter(anchor, interval, after) == BadInterval <==> !(7 <= interval <= 180)
  {
    if ValidInterval(interval) {
      NextOccurrenceAfterClosedForm(anchor, interval, after);
    }
  }

  /** n is the least index >= 1 whose date is strictly past `after`. */
  ghost predicate IsLeastAfter(anchor: Day, interval: int, after: Day, n: int) {
    && n >= 1
    && Nth(anchor, interval, n) > after
    && forall m :: 1 <= m < n ==> Nth(anchor, interval, m) <= after
  }

  /** The least such index, by exact arithmetic that never saturates. */
  function FirstAfter(anchor: Day, interval: int, after: Day): (n: int)
    requires interval > 0
    ensures IsLeastAfter(anchor, interval, after, n)
  {
    if after < anchor then 1
    else
      var n := (after - anchor) / interval + 1;
      FirstAfterIsLeast(anchor, interval, after, n);
      n
  }

  lemma FirstAfterIsLeast(anchor: Day, interval: int, after: Day, n: int)
    requires interval > 0 && after >= anchor && n == (after - anchor) / interval + 1
    ensures IsLeastAfter(anchor, interval, after, n)
  {
    var e := after - anchor;
    assert e == (n - 1) * interval + e % interval;
    assert n * interval == (n - 1) * interval + interval;
    forall m | 1 <= m < n ensures Nth(anchor, interval, m) <= after {
      NthMonotone(anchor, interval, m, n - 1);
    }
  }

  lemma NthMonotone(anchor: Day, interval: int, m: int, n: int)
    requires interval > 0
    ensures m <= n ==> Nth(anchor, interval, m) <= Nth(anchor, interval, n)
    ensures m < n ==> Nth(anchor, interval, m) + interval <= Nth(anchor, interval, n)
  {
    assert (n - m) * interval == n * interval - m * interval;
    if m < n {
      assert (n - m - 1) * interval >= 0;
      assert (n - m) * interval == (n - m - 1) * interval + interval;
    }
  }

  lemma LeastAfterUnique(anchor: Day, interval: int, after: Day, m: int, n: int)
    requires IsLeastAfter(anchor, interval, after, m) && IsLeastAfter(anchor, interval, after, n)
    ensures m == n
  {
  }

  /** The last index the search can ever return: saturation stops it here. */
  function LastReachable(interval: int): int
    requires interval > 0
  {
    MAX_SPAN / interval + 2
  }

  /** The date at that index.  From this date on the search no longer moves forward. */
  function ReachLimit(anchor: Day, interval: int): Day
    requires interval > 0
  {
    Nth(anchor, interval, LastReachable(interval))
  }

  /** What the search returns for every input: the true index, capped at LastReachable. */
  lemma NextOccurrenceAfterClosedForm(anchor: Day, interval: int, after: Day)
    requires ValidInterval(interval)
    ensures var n := Min(FirstAfter(anchor, interval, after), LastReachable(interval));
            NextOccurrenceAfter(anchor, interval, after) == Found(n, Nth(anchor, interval, n))
  {
    DaysUntilSaturates(anchor, after);
    var e := after - anchor;
    if 0 <= e <= MAX_SPAN {
      QuotientMonotone(e, MAX_SPAN, interval);
    } else if e > MAX_SPAN {
      var q := MAX_SPAN / interval;
      QuotientMonotone(MAX_SPAN, e, interval);
      var n := FirstAfter(anchor, interval, after);
      if Nth(anchor, interval, q + 1) > after {
        LeastAtMost(anchor, interval, after, q + 1);
        assert n == q + 1;
      } else {
        NthMonotone(anchor, interval, n, q + 1);
        assert n >= q + 2;
      }
    }
  }

  lemma QuotientMonotone(a: int, b: int, interval: int)
    requires interval > 0 && 0 <= a <= b
    ensures a / interval <= b / interval
  {
    assert Nth(0, interval, a / interval) == a - a % interval;
    assert Nth(0, interval, b / interval) == b - b % interval;
    NthMonotone(0, interval, b / interval, a / interval);
  }

  lemma LeastAtMost(anchor: Day, interval: int, after: Day, n: int)
    requires interval > 0 && n >= 1
    ensures FirstAfter(anchor, interval, after) <= n <==> Nth(anchor, interval, n) > after
  {
    NthMonotone(anchor, interval, FirstAfter(anchor, interval, after), n);
  }

  /** The search does what its comment promises exactly below ReachLimit. */
  lemma NextOccurrenceAfterIsLeastIff(anchor: Day, interval: int, after: Day)
    requires ValidInterval(interval)
    ensures var f := NextOccurrenceAfter(anchor, interval, after);
            && f.Found?
            && f.date == Nth(anchor, interval, f.seqNo)
            && (IsLeastAfter(anchor, interval, after, f.seqNo) <==> after < ReachLimit(anchor, interval))
            && (f.date > after <==> after < ReachLimit(anchor, interval))
  {
    NextOccurrenceAfterClosedForm(anchor, interval, after);
    LeastAtMost(anchor, interval, after, LastReachable(interval));
  }

  /** At the limit the search returns the very date it was to get past. */
  lemma SearchStandsStill()
    ensures ReachLimit(0, 7) == 106764
    ensures NextOccurrenceAfter(0, 7, 106764) == Found(15252, 106764)
  {
    NextOccurrenceAfterClosedForm(0, 7, 106764);
    LeastAtMost(0, 7, 106764, 15252);
  }

  /** The "step one more" branch is dead while the difference fits a duration; past that
      it is what buys the last interval. */
  lemma CorrectionStepIsForSaturation(anchor: Day, interval: int, after: Day)
    requires ValidInterval(interval) && after >= anchor
    ensures after - anchor <= MAX_SPAN ==>
              NextOccurrenceAfter(anchor, interval, after).seqNo == DaysUntil(anchor, after) / interval + 1
    ensures after >= Nth(anchor, interval, MAX_SPAN / interval + 1) ==>
              NextOccurrenceAfter(anchor, interval, after)
              == Found(MAX_SPAN / interval + 2, ReachLimit(anchor, interval))
  {
    NextOccurrenceAfterClosedForm(anchor, interval, after);
    DaysUntilSaturates(anchor, after);
    if after - anchor <= MAX_SPAN {
      QuotientMonotone(after - anchor, MAX_SPAN, interval);
    }
    LeastAtMost(anchor, interval, after, MAX_SPAN / interval + 1);
  }

  /** d sits on the cadence, at index 1 or later. */
  ghost predicate OnCadence(anchor: Day, interval: int, d: Day) {
    exists n :: n >= 1 && d == Nth(anchor, interval, n)
  }

  /** The k-th date the materializer's walk visits when it starts at `cursor`. */
  function WalkDate(anchor: Day, interval: int, cursor: Day, k: nat): (d: Day)
    requires interval > 0
    ensures OnCadence(anchor, interval, d)
  {
    var n := Min(FirstAfter(anchor, interval, cursor) + k, LastReachable(interval));
    assert LastReachable(interval) >= 1;
    Nth(anchor, interval, n)
  }

  /** Searching from the date just visited finds the next one: the loop equals the walk. */
  lemma WalkStep(anchor: Day, interval: int, cursor: Day, k: nat)
    requires ValidInterval(interval)
    ensures var from := if k == 0 then cursor else WalkDate(anchor, interval, cursor, k - 1);
            var f := NextOccurrenceAfter(anchor, interval, from);
            f.Found? && f.date == WalkDate(anchor, interval, cursor, k)
  {
    var from := if k == 0 then cursor else WalkDate(anchor, interval, cursor, k - 1);
    NextOccurrenceAfterClosedForm(anchor, interval, from);
    if k > 0 {
      var m := Min(FirstAfter(anchor, interval, cursor) + k - 1, LastReachable(interval));
      assert from == Nth(anchor, interval, m);
      NthMonotone(anchor, interval, m, m + 1);
      forall j | 1 <= j < m + 1 ensures Nth(anchor, interval, j) <= from {
        NthMonotone(anchor, interval, j, m);
      }
      LeastAfterUnique(anchor, interval, from, m + 1, FirstAfter(anchor, interval, from));
    }
  }

  lemma ReachIsFar(interval: int)
    requires ValidInterval(interval)
    ensures LastReachable(interval) >= 500
  {
    var q := MAX_SPAN / interval;
    assert MAX_SPAN == q * interval + MAX_SPAN % interval;
    NthMonotone(0, interval, q, 498);
    assert Nth(0, interval, q) == q * interval && Nth(0, interval, 498) == 498 * interval;
  }

  /** From the anchor itself the walk starts one interval out. */
  lemma WalkFromAnchor(anchor: Day, interval: int)
    requires ValidInterval(interval)
    ensures WalkDate(anchor, interval, anchor, 0) == anchor + interval
  {
    LeastAtMost(anchor, interval, anchor, 1);
  }

  /** The walk never goes back; it is consecutive exactly while it stays within reach;
      and its first date clears the cursor exactly below the limit. */
  lemma WalkShape(anchor: Day, interval: int, cursor: Day, k: nat)
    requires ValidInterval(interval)
    ensures WalkDate(anchor, interval, cursor, 0) <= WalkDate(anchor, interval, cursor, k)
    ensures WalkDate(anchor, interval, cursor, k) <= ReachLimit(anchor, interval)
    ensures WalkDate(anchor, interval, cursor, k)
            == Nth(anchor, interval, FirstAfter(anchor, interval, cursor) + k)
            <==> FirstAfter(anchor, interval, cursor) + k <= LastReachable(interval)
    ensures WalkDate(anchor, interval, cursor, 0) > cursor <==> cursor < ReachLimit(anchor, interval)
  {
    var n, c := FirstAfter(anchor, interval, cursor), LastReachable(interval);
    NthMonotone(anchor, interval, Min(n, c), Min(n + k, c));
    NthMonotone(anchor, interval, Min(n + k, c), c);
    NthMonotone(anchor, interval, c, n + k);
    LeastAtMost(anchor, interval, cursor, c);
    NthMonotone(anchor, interval, c, n);
  }

  /** Every date of a walk clears a date the cursor has passed, exactly below the limit. */
  lemma WalkBeyond(anchor: Day, interval: int, cursor: Day, k: nat, d: Day)
    requires ValidInterval(interval) && d <= cursor
    ensures WalkDate(anchor, interval, cursor, k) > d <==> d < ReachLimit(anchor, interval)
  {
    WalkShape(anchor, interval, cursor, k);
    LeastAtMost(anchor, interval, cursor, LastReachable(interval));
  }
}
