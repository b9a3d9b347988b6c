/**
 The portal's cadence preview, which repeats the service's arithmetic in the browser,
 against what the service commits.
 */
module Portal {
  import opened Wrappers
  import opened Cadence
  import opened Ledgers
  import opened Lifecycle
  import opened Invariants
  import opened Histories
  import Keys

  // ----- the browser's side -----

  function PlacedDates(occs: seq<Occurrence>): seq<Day> {
    if |occs| == 0 then []
    else
      var o := occs[|occs| - 1];
      PlacedDates(occs[..|occs| - 1]) + (if o.status == Placed then [o.date] else [])
  }

  function PendingDates(occs: seq<Occurrence>): seq<Day> {
    if |occs| == 0 then []
    else
      var o := occs[|occs| - 1];
      PendingDates(occs[..|occs| - 1]) + (if o.status == Pending then [o.date] else [])
  }

  /** reduce((a, b) => a > b ? a : b) */
  function Latest(dates: seq<Day>): Day
    requires |dates| > 0
  {
    if |dates| == 1 then dates[0]
    else
      var a, b := Latest(dates[..|dates| - 1]), dates[|dates| - 1];
      if a > b then a else b
  }

  function PreviewAnchor(occs: seq<Occurrence>, today: Day): Day {
    var placed := PlacedDates(occs);
    if |placed| == 0 then today else Latest(placed)
  }

  function Insert(d: Day, dates: seq<Day>): (r: seq<Day>)
    ensures |r| == |dates| + 1
  {
    if |dates| == 0 then [d]
    else if dates[|dates| - 1] <= d then dates + [d]
    else Insert(d, dates[..|dates| - 1]) + [dates[|dates| - 1]]
  }

  function Sort(dates: seq<Day>): (r: seq<Day>)
    ensures |r| == |dates|
  {
    if |dates| == 0 then [] else Insert(dates[|dates| - 1], Sort(dates[..|dates| - 1]))
  }

  /** filter((d) => !kept.includes(d)) */
  function Without(dates: seq<Day>, kept: seq<Day>): seq<Day> {
    if |dates| == 0 then []
    else
      Without(dates[..|dates| - 1], kept)
      + (if dates[|dates| - 1] in kept then [] else [dates[|dates| - 1]])
  }

  function Take<T>(s: seq<T>, n: nat): seq<T> {
    if |s| <= n then s else s[..n]
  }

  function PreviewDates(anchor: Day, interval: int, count: nat, armed: seq<Day>): seq<Day> {
    var kept := Sort(armed);
    var generated := seq(count, k requires 0 <= k < count => Nth(anchor, interval, k + 1));
    Take(kept + Without(generated, kept), count)
  }

  // ----- the service's side -----

  /** The dates still to come, in the order the customer sees them. */
  function Upcoming(occs: seq<Occurrence>): seq<Day> {
    Sort(UnsettledDates(occs))
  }

  function UnsettledDates(occs: seq<Occurrence>): seq<Day> {
    if |occs| == 0 then []
    else
      var o := occs[|occs| - 1];
      UnsettledDates(occs[..|occs| - 1]) + (if o.status in UNSETTLED then [o.date] else [])
  }

  // ----- both pick the same anchor -----

  lemma {:induction false} PlacedDatesTrace(occs: seq<Occurrence>)
    ensures forall d :: d in PlacedDates(occs)
              <==> exists k :: 0 <= k < |occs| && occs[k].status == Placed && occs[k].date == d
  {
    if |occs| > 0 {
      var n := |occs| - 1;
      PlacedDatesTrace(occs[..n]);
      forall d
        ensures d in PlacedDates(occs)
                <==> exists k :: 0 <= k < |occs| && occs[k].status == Placed && occs[k].date == d
      {
        if k :| 0 <= k < |occs| && occs[k].status == Placed && occs[k].date == d {
          if k < n {
            assert occs[..n][k] == occs[k];
          }
        }
      }
    }
  }

  lemma {:induction false} LatestIsMax(dates: seq<Day>)
    requires |dates| > 0
    ensures Latest(dates) in dates && forall d :: d in dates ==> d <= Latest(dates)
  {
    if |dates| > 1 {
      LatestIsMax(dates[..|dates| - 1]);
      assert dates == dates[..|dates| - 1] + [dates[|dates| - 1]];
    }
  }

  lemma AnchorsAgree(l: Ledger, today: Day)
    ensures PreviewAnchor(l.occs, today) == NewAnchor(l, today)
  {
    hide PlacedDates, LastPlaced, Latest;
    var placed := PlacedDates(l.occs);
    PlacedDatesTrace(l.occs);
    var r := LastPlaced(l.occs);
    assert r.Some? ==> l.occs[r.value].date in placed;
    if |placed| > 0 {
      LatestIsMax(placed);
      assert placed[0] in placed;
    }
  }

  // ----- sorting -----

  ghost predicate Sorted(s: seq<Day>) {
    forall i, j :: 0 <= i < j < |s| ==> s[i] <= s[j]
  }

  lemma {:induction false} InsertKeeps(d: Day, s: seq<Day>)
    ensures multiset(Insert(d, s)) == multiset(s) + multiset{d}
    ensures forall e :: e in Insert(d, s) <==> e == d || e in s
  {
    if |s| > 0 {
      InsertKeeps(d, s[..|s| - 1]);
      assert s == s[..|s| - 1] + [s[|s| - 1]];
    }
  }

  lemma SortedSnoc(s: seq<Day>, last: Day)
    requires Sorted(s) && forall e :: e in s ==> e <= last
    ensures Sorted(s + [last])
  {
    assert forall i :: 0 <= i < |s| ==> s[i] in s;
  }

  lemma {:induction false} InsertSorts(d: Day, s: seq<Day>)
    requires Sorted(s)
    ensures Sorted(Insert(d, s))
  {
    if |s| > 0 {
      var n := |s| - 1;
      assert Sorted(s[..n]) && forall e :: e in s[..n] ==> e <= s[n];
      if s[n] <= d {
        assert forall e :: e in s ==> e <= s[n];
        SortedSnoc(s, d);
      } else {
        InsertSorts(d, s[..n]);
        InsertKeeps(d, s[..n]);
        SortedSnoc(Insert(d, s[..n]), s[n]);
      }
    }
  }

  /** Sort puts the dates it is given in order, and only those. */
  lemma {:induction false} SortSorts(s: seq<Day>)
    ensures Sorted(Sort(s)) && multiset(Sort(s)) == multiset(s)
    ensures forall e :: e in Sort(s) <==> e in s
  {
    if |s| > 0 {
      var n := |s| - 1;
      assert s == s[..n] + [s[n]];
      SortSorts(s[..n]);
      InsertSorts(s[n], Sort(s[..n]));
      InsertKeeps(s[n], Sort(s[..n]));
    }
    assert forall e :: e in Sort(s) <==> e in multiset(Sort(s));
  }

  lemma InsertLast(d: Day, s: seq<Day>)
    requires forall e :: e in s ==> e <= d
    ensures Insert(d, s) == s + [d]
  {
    assert |s| > 0 ==> s[|s| - 1] in s;
  }

  lemma SortSnocLast(s: seq<Day>, d: Day)
    requires forall e :: e in s ==> e <= d
    ensures Sort(s + [d]) == Sort(s) + [d]
  {
    assert (s + [d])[..|s|] == s;
    SortSorts(s);
    InsertLast(d, Sort(s));
  }

  /** Dates that come after everything already there simply go last. */
  lemma {:induction false} SortAppends(s: seq<Day>, tail: seq<Day>, bound: Day)
    requires Sorted(tail) && (forall d :: d in s ==> d <= bound) && (forall d :: d in tail ==> bound <= d)
    ensures Sort(s + tail) == Sort(s) + tail
  {
    hide Insert, Sort;
    if |tail| == 0 {
      assert s + tail == s && Sort(s) + tail == Sort(s);
    } else {
      var n := |tail| - 1;
      var most, last := tail[..n], tail[n];
      assert tail == most + [last] && last in tail && forall e :: e in most ==> e in tail;
      assert s + tail == (s + most) + [last];
      SortAppends(s, most, bound);
      SortSnocLast(s + most, last);
      assert Sort(s) + most + [last] == Sort(s) + tail;
    }
  }

  // ----- what the service commits -----

  lemma {:induction false} CancelLeavesPending(occs: seq<Occurrence>)
    requires forall k :: 0 <= k < |occs| ==> (occs[k].orderId.Some? ==> occs[k].status == Placed)
    ensures UnsettledDates(CancelAll(occs, {Planned})) == PendingDates(occs)
  {
    if |occs| > 0 {
      var n := |occs| - 1;
      assert CancelAll(occs, {Planned})[..n] == CancelAll(occs[..n], {Planned});
      CancelLeavesPending(occs[..n]);
    }
  }

  lemma UnsettledAppend(occs: seq<Occurrence>, o: Occurrence)
    requires o.status == Planned
    ensures UnsettledDates(occs + [o]) == UnsettledDates(occs) + [o.date]
  {
    assert (occs + [o])[..|occs|] == occs;
  }

  lemma {:induction false} AddRowsAppends(l: Ledger, dates: seq<Day>)
    ensures UnsettledDates(AddRows(l, dates).occs) == UnsettledDates(l.occs) + dates
  {
    hide AddRows;
    if |dates| > 0 {
      var n := |dates| - 1;
      AddRowsAppends(l, dates[..n]);
      AddRowsAll(l, dates);
      var p := AddRows(l, dates[..n]);
      UnsettledAppend(p.occs, PlannedRow(l.row.id, |p.occs| + 1, dates[n]));
      assert dates == dates[..n] + [dates[n]];
    } else {
      AddRowsNone(l, dates);
      assert UnsettledDates(l.occs) + dates == UnsettledDates(l.occs);
    }
  }

  lemma {:induction false} UnsettledDatesTrace(occs: seq<Occurrence>)
    ensures forall k :: 0 <= k < |occs| && occs[k].status in UNSETTLED ==> occs[k].date in UnsettledDates(occs)
    ensures forall d :: d in UnsettledDates(occs) ==> LatestUnsettled(occs).Some? && d <= LatestUnsettled(occs).value
    ensures LatestUnsettled(occs).Some? ==> LatestUnsettled(occs).value in UnsettledDates(occs)
  {
    if |occs| > 0 {
      UnsettledDatesTrace(occs[..|occs| - 1]);
    }
  }

  /** The planned dates come in order.  They lie past the cursor while the cadence reaches
      past it, and all on the last date it reaches otherwise. */
  lemma PlanDatesSorted(l: Ledger, today: Day, n: nat)
    requires ValidInterval(l.row.interval)
    ensures Sorted(PlanDates(l, today, n))
    ensures var limit := ReachLimit(l.row.anchor, l.row.interval);
            forall k :: 0 <= k < n ==>
              if Cursor(l, today) < limit then PlanDates(l, today, n)[k] > Cursor(l, today)
              else PlanDates(l, today, n)[k] == limit
  {
    hide FirstAfter, LastReachable, LatestUnsettled, WalkDate, Nth;
    var a, i, c := l.row.anchor, l.row.interval, Cursor(l, today);
    forall j, k | 0 <= j < k < n ensures PlanDates(l, today, n)[j] <= PlanDates(l, today, n)[k] {
      WalkMonotone(a, i, c, j, k);
    }
    forall k | 0 <= k < n
      ensures if c < ReachLimit(a, i) then PlanDates(l, today, n)[k] > c
              else PlanDates(l, today, n)[k] == ReachLimit(a, i)
    {
      WalkShape(a, i, c, k);
      WalkBeyond(a, i, c, k, Min(c, ReachLimit(a, i) - 1));
    }
  }

  lemma WalkMonotone(anchor: Day, interval: int, cursor: Day, j: nat, k: nat)
    requires ValidInterval(interval) && j <= k
    ensures WalkDate(anchor, interval, cursor, j) <= WalkDate(anchor, interval, cursor, k)
  {
    hide FirstAfter, LastReachable;
    var f, c := FirstAfter(anchor, interval, cursor), LastReachable(interval);
    NthMonotone(anchor, interval, Min(f + j, c), Min(f + k, c));
  }

  lemma ChangeCadencePlans(l: Ledger, interval: int, today: Day, actor: Actor, horizon: int)
    requires Inv(l) && l.row.status == ScheduleActive && ValidInterval(interval) && horizon >= 1
    ensures var c := Reanchored(l, interval, today, actor);
            && ChangeCadence(l, interval, today, actor, horizon)
               == Ok(Refresh(AddRows(c, PlanDates(c, today, horizon)), today))
            && UnsettledDates(c.occs) == PendingDates(l.occs)
  {
    hide NextRun, AddRows, PlanDates, Refresh, NewAnchor, Keys.IdempotencyKey, PendingDates, UnsettledDates, Cursor;
    var c := Reanchored(l, interval, today, actor);
    CountZero(c.occs, FuturePlanned(today));
    CancelLeavesPending(l.occs);
  }

  /** The queue after a cadence change: the armed orders and the new cadence, in order --
      the armed ones all first exactly while none lies past the cadence's reach. */
  lemma UpcomingAfterChange(l: Ledger, interval: int, today: Day, actor: Actor, horizon: int)
    requires Inv(l) && l.row.status == ScheduleActive && ValidInterval(interval) && horizon >= 1
    ensures var c := Reanchored(l, interval, today, actor);
            var plan := PlanDates(c, today, horizon);
            var m := ChangeCadence(l, interval, today, actor, horizon);
            && m.Ok?
            && Upcoming(m.value.occs) == Sort(PendingDates(l.occs) + plan)
            && (Upcoming(m.value.occs) == Sort(PendingDates(l.occs)) + plan
                <==> forall d :: d in PendingDates(l.occs) ==> d <= ReachLimit(NewAnchor(l, today), interval))
    ensures CursorOf(PendingDates(l.occs), today, Cursor(Reanchored(l, interval, today, actor), today))
  {
    hide NextRun, AddRows, PlanDates, PendingDates, UnsettledDates, LatestUnsettled, Sort, Reanchored;
    hide ChangeCadence, Inv, NewAnchor, ReachLimit, Sorted;
    var c := Reanchored(l, interval, today, actor);
    ChangeCadencePlans(l, interval, today, actor, horizon);
    UnsettledDatesTrace(c.occs);
    ReanchoredInterval(l, interval, today, actor);
    var plan := PlanDates(c, today, horizon);
    AddRowsAppends(c, plan);
    PlanDatesSorted(c, today, horizon);
    ArmedFirstIff(PendingDates(l.occs), plan, Cursor(c, today), ReachLimit(NewAnchor(l, today), interval));
  }

  /** The cursor is today or the furthest armed date, whichever is later. */
  ghost predicate CursorOf(armed: seq<Day>, today: Day, cursor: Day) {
    cursor >= today && (forall d :: d in armed ==> d <= cursor) && (cursor > today ==> cursor in armed)
  }

  lemma ArmedFirstIff(armed: seq<Day>, plan: seq<Day>, cursor: Day, limit: Day)
    requires |plan| >= 1 && Sorted(plan) && forall d :: d in armed ==> d <= cursor
    requires forall k :: 0 <= k < |plan| ==> if cursor < limit then plan[k] > cursor else plan[k] == limit
    ensures Sort(armed + plan) == Sort(armed) + plan <==> forall d :: d in armed ==> d <= limit
  {
    hide Sort;
    if forall d :: d in armed ==> d <= limit {
      assert forall d :: d in plan ==> exists k :: 0 <= k < |plan| && plan[k] == d;
      SortAppends(armed, plan, if cursor < limit then cursor else limit);
    } else {
      var d :| d in armed && d > limit;
      SortSorts(armed + plan);
      SortSorts(armed);
      var i :| 0 <= i < |armed| && Sort(armed)[i] == d;
      assert (Sort(armed) + plan)[i] == d && (Sort(armed) + plan)[|armed|] == plan[0];
    }
  }

  lemma ReanchoredInterval(l: Ledger, interval: int, today: Day, actor: Actor)
    ensures var c := Reanchored(l, interval, today, actor);
            c.row.interval == interval && c.row.anchor == NewAnchor(l, today)
  {
  }

  // ----- the preview -----

  lemma WithoutThree(x: Day, y: Day, z: Day, kept: seq<Day>)
    ensures Without([x, y, z], kept)
            == (if x in kept then [] else [x]) + (if y in kept then [] else [y]) + (if z in kept then [] else [z])
  {
    assert [x, y, z][..2] == [x, y] && [x, y][..1] == [x] && [x][..0] == [];
    assert Without([x], kept) == if x in kept then [] else [x];
  }

  /** Every date the new cadence has up to the cursor belongs to an armed order. */
  ghost predicate GapsAreArmed(anchor: Day, interval: int, cursor: Day, armed: seq<Day>) {
    forall n :: n >= 1 && Nth(anchor, interval, n) <= cursor ==> Nth(anchor, interval, n) in armed
  }

  /** The arithmetic heart: with fewer than three armed orders the preview's tail is the
      service's exactly when the cadence dates already passed are all armed. */
  lemma TailsAgree(anchor: Day, interval: int, cursor: Day, kept: seq<Day>, plan: seq<Day>)
    requires ValidInterval(interval) && |kept| < 3 && |plan| >= 3
    requires forall d :: d in kept ==> d <= cursor
    requires cursor < ReachLimit(anchor, interval)
    requires forall k :: 0 <= k < |plan| ==> plan[k] == WalkDate(anchor, interval, cursor, k)
    ensures var f := Without([Nth(anchor, interval, 1), Nth(anchor, interval, 2), Nth(anchor, interval, 3)], kept);
            Take(kept + f, 3) == (kept + plan)[..3] <==> GapsAreArmed(anchor, interval, cursor, kept)
  {
    hide WalkDate, FirstAfter, ReachLimit;
    var x, y, z := Nth(anchor, interval, 1), Nth(anchor, interval, 2), Nth(anchor, interval, 3);
    WithoutThree(x, y, z, kept);
    GapsByCases(anchor, interval, cursor, kept);
    PlanHead(anchor, interval, cursor, plan);
    hide Nth, Without, GapsAreArmed, Take;
    TakeSplits(kept, Without([x, y, z], kept), plan);
    Heads(kept, x, y, z, cursor, plan);
  }

  lemma TakeSplits(kept: seq<Day>, f: seq<Day>, plan: seq<Day>)
    requires |kept| < 3 && |plan| >= 3
    ensures var rest := 3 - |kept|;
            Take(kept + f, 3) == (kept + plan)[..3] <==> |f| >= rest && f[..rest] == plan[..rest]
  {
    var rest := 3 - |kept|;
    assert (kept + plan)[..3] == kept + plan[..rest];
    if |f| >= rest {
      assert Take(kept + f, 3) == kept + f[..rest];
      assert (kept + f[..rest])[|kept|..] == f[..rest] && (kept + plan[..rest])[|kept|..] == plan[..rest];
    }
  }

  /** The gap condition, spelled out on the first three dates. */
  lemma GapsByCases(anchor: Day, interval: int, cursor: Day, kept: seq<Day>)
    requires ValidInterval(interval) && |kept| < 3
    ensures var x, y, z := Nth(anchor, interval, 1), Nth(anchor, interval, 2), Nth(anchor, interval, 3);
            && x < y < z
            && (GapsAreArmed(anchor, interval, cursor, kept)
                <==> z > cursor && (x <= cursor ==> x in kept) && (y <= cursor ==> y in kept))
  {
    var x, y, z := Nth(anchor, interval, 1), Nth(anchor, interval, 2), Nth(anchor, interval, 3);
    assert x < y < z;
    if z <= cursor && GapsAreArmed(anchor, interval, cursor, kept) {
      ThreeInTwo(kept, x, y, z);
    }
    if z > cursor {
      forall n | n >= 1 && Nth(anchor, interval, n) <= cursor ensures n == 1 || n == 2 {
        NthMonotone(anchor, interval, 3, n);
      }
    }
  }

  lemma ThreeInTwo(kept: seq<Day>, x: Day, y: Day, z: Day)
    requires |kept| < 3 && x < y < z
    ensures x !in kept || y !in kept || z !in kept
  {
  }

  /** The service's first three dates, as far as they are decided by the first three of
      the cadence. */
  lemma PlanHead(anchor: Day, interval: int, cursor: Day, plan: seq<Day>)
    requires ValidInterval(interval) && |plan| >= 3 && cursor < ReachLimit(anchor, interval)
    requires forall k :: 0 <= k < |plan| ==> plan[k] == WalkDate(anchor, interval, cursor, k)
    ensures var x, y, z := Nth(anchor, interval, 1), Nth(anchor, interval, 2), Nth(anchor, interval, 3);
            && plan[0] > cursor
            && (cursor < x ==> plan[0] == x && plan[1] == y && plan[2] == z)
            && (x <= cursor < y ==> plan[0] == y && plan[1] == z)
            && (y <= cursor < z ==> plan[0] == z)
  {
    hide FirstAfter, WalkDate, Nth, LastReachable, ReachLimit;
    WalkShape(anchor, interval, cursor, 0);
    WalkShape(anchor, interval, cursor, 1);
    WalkShape(anchor, interval, cursor, 2);
    LeastAtMost(anchor, interval, cursor, 1);
    LeastAtMost(anchor, interval, cursor, 2);
    LeastAtMost(anchor, interval, cursor, 3);
    ReachIsFar(interval);
  }

  lemma Heads(kept: seq<Day>, x: Day, y: Day, z: Day, cursor: Day, plan: seq<Day>)
    requires |kept| < 3 && |plan| >= 3 && x < y < z && plan[0] > cursor
    requires forall d :: d in kept ==> d <= cursor
    requires cursor < x ==> plan[0] == x && plan[1] == y && plan[2] == z
    requires x <= cursor < y ==> plan[0] == y && plan[1] == z
    requires y <= cursor < z ==> plan[0] == z
    ensures var f := (if x in kept then [] else [x]) + (if y in kept then [] else [y])
                     + (if z in kept then [] else [z]);
            var p := |kept|;
            |f| >= 3 - p && f[..3 - p] == plan[..3 - p]
            <==> z > cursor && (x <= cursor ==> x in kept) && (y <= cursor ==> y in kept)
  {
    ThreeInTwo(kept, x, y, z);
  }

  /** Past the cadence's reach, with fewer than three orders armed, the preview shows a
      date nobody will commit. */
  lemma BeyondReach(anchor: Day, interval: int, cursor: Day, armed: seq<Day>, plan: seq<Day>)
    requires ValidInterval(interval) && |armed| < 3 && |plan| >= 3 && cursor >= ReachLimit(anchor, interval)
    requires forall k :: 0 <= k < |plan| ==> plan[k] == ReachLimit(anchor, interval)
    ensures !GapsAreArmed(anchor, interval, cursor, armed)
    ensures PreviewDates(anchor, interval, 3, armed) != Take(Sort(armed + plan), 3)
  {
    hide ReachLimit, Nth, Sort;
    var x, y, z := Nth(anchor, interval, 1), Nth(anchor, interval, 2), Nth(anchor, interval, 3);
    var limit, kept := ReachLimit(anchor, interval), Sort(armed);
    ThirdBelowReach(anchor, interval);
    SortSorts(armed);
    ThreeInTwo(kept, x, y, z);
    SortSorts(armed + plan);
    var generated := seq(3, k requires 0 <= k < 3 => Nth(anchor, interval, k + 1));
    assert generated == [x, y, z];
    WithoutThree(x, y, z, kept);
    var rest := Without([x, y, z], kept);
    NewOnesAreMissing(kept, x, y, z, rest);
    var preview := PreviewDates(anchor, interval, 3, armed);
    assert preview == Take(kept + rest, 3);
    assert preview[|kept|] == (kept + rest)[|kept|] == rest[0];
    assert forall d :: d in Sort(armed + plan) ==> d in armed || d == limit;
    assert forall k :: 0 <= k < |Take(Sort(armed + plan), 3)| ==> Take(Sort(armed + plan), 3)[k] in Sort(armed + plan);
  }

  lemma ThirdBelowReach(anchor: Day, interval: int)
    requires ValidInterval(interval)
    ensures var x, y, z := Nth(anchor, interval, 1), Nth(anchor, interval, 2), Nth(anchor, interval, 3);
            x < y < z < ReachLimit(anchor, interval)
  {
    ReachIsFar(interval);
    NthMonotone(anchor, interval, 3, LastReachable(interval));
  }

  lemma NewOnesAreMissing(kept: seq<Day>, x: Day, y: Day, z: Day, rest: seq<Day>)
    requires |kept| < 3 && x < y < z
    requires rest == (if x in kept then [] else [x]) + (if y in kept then [] else [y]) + (if z in kept then [] else [z])
    ensures |rest| >= 3 - |kept| && |rest| >= 1 && rest[0] !in kept && rest[0] <= z
  {
    ThreeInTwo(kept, x, y, z);
  }

  /** Three armed dates open the queue exactly when the third does not lie past the last
      date the cadence reaches. */
  lemma ThreeArmedFirst(armed: seq<Day>, plan: seq<Day>, cursor: Day, limit: Day)
    requires |armed| >= 3 && |plan| >= 3 && Sorted(plan) && forall d :: d in armed ==> d <= cursor
    requires forall k :: 0 <= k < |plan| ==> if cursor < limit then plan[k] > cursor else plan[k] == limit
    ensures Sort(armed)[..3] == Sort(armed + plan)[..3] <==> Sort(armed)[2] <= limit
  {
    hide Sort;
    SortSorts(armed);
    SortSorts(armed + plan);
    if Sort(armed)[2] <= limit {
      assert Sort(armed)[2] in armed;
      forall k | 0 <= k < |plan| ensures plan[k] >= Sort(armed)[2] {
      }
      InsertsGoBehind(armed, plan);
    } else {
      TooManyBehind(Sort(armed + plan), armed, plan, limit);
    }
  }

  lemma {:induction false} InsertsGoBehind(armed: seq<Day>, plan: seq<Day>)
    requires |armed| >= 3 && forall k :: 0 <= k < |plan| ==> plan[k] >= Sort(armed)[2]
    ensures Sort(armed + plan)[..3] == Sort(armed)[..3]
  {
    if |plan| == 0 {
      assert armed + plan == armed;
    } else {
      var n := |plan| - 1;
      assert (armed + plan)[..|armed + plan| - 1] == armed + plan[..n];
      InsertsGoBehind(armed, plan[..n]);
      assert Sort(armed + plan[..n])[2] == Sort(armed + plan[..n])[..3][2] == Sort(armed)[..3][2];
      InsertKeepsHead(plan[n], Sort(armed + plan[..n]));
    }
  }

  lemma {:induction false} InsertKeepsHead(d: Day, s: seq<Day>)
    requires |s| >= 3 && s[2] <= d
    ensures Insert(d, s)[..3] == s[..3]
  {
    var n := |s| - 1;
    if s[n] > d {
      InsertKeepsHead(d, s[..n]);
      assert s[..n][..3] == s[..3];
    }
  }

  /** A sorted queue holding `limit` three times has its third date at or before it. */
  lemma TooManyBehind(queue: seq<Day>, armed: seq<Day>, plan: seq<Day>, limit: Day)
    requires Sorted(queue) && multiset(queue) == multiset(armed + plan) && |queue| >= 3 && |plan| >= 3
    requires plan[0] == plan[1] == plan[2] == limit
    ensures queue[2] <= limit
  {
    assert plan == plan[..3] + plan[3..] && plan[..3] == [limit, limit, limit];
    assert armed + plan == armed + plan[..3] + plan[3..];
    assert multiset(armed + plan)[limit] >= 3;
    assert queue == queue[..2] + queue[2..];
    assert multiset(queue[..2])[limit] <= |multiset(queue[..2])| == 2;
    assert limit in multiset(queue[2..]);
    var j :| 0 <= j < |queue[2..]| && queue[2..][j] == limit;
    assert queue[2 + j] == limit;
  }

  /** The preview shows the first three dates the service will commit exactly when three
      orders are armed within the cadence's reach, or fewer are and every cadence date not
      yet ahead is an armed one. */
  lemma PreviewMatchesIff(l: Ledger, interval: int, today: Day, actor: Actor, horizon: int)
    requires Inv(l) && l.row.status == ScheduleActive && ValidInterval(interval) && horizon >= 3
    ensures var armed := PendingDates(l.occs);
            var anchor := PreviewAnchor(l.occs, today);
            var cursor := Cursor(Reanchored(l, interval, today, actor), today);
            var committed := ChangeCadence(l, interval, today, actor, horizon);
            && committed.Ok? && |Upcoming(committed.value.occs)| >= 3
            && (PreviewDates(anchor, interval, 3, armed) == Upcoming(committed.value.occs)[..3]
                <==> if |armed| >= 3 then Sort(armed)[2] <= ReachLimit(anchor, interval)
                     else GapsAreArmed(anchor, interval, cursor, armed))
  {
    hide WalkDate, Nth, FirstAfter, ReachLimit, PendingDates, PreviewAnchor, NewAnchor, ChangeCadence;
    hide Sort, Upcoming, LatestUnsettled, Reanchored, PreviewDates, Cursor, Inv, GapsAreArmed, Sorted;
    var c := Reanchored(l, interval, today, actor);
    AnchorsAgree(l, today);
    UpcomingAfterChange(l, interval, today, actor, horizon);
    ReanchoredInterval(l, interval, today, actor);
    var anchor := NewAnchor(l, today);
    PlanDatesSorted(c, today, horizon);
    PreviewArithmetic(anchor, interval, Cursor(c, today), PendingDates(l.occs), PlanDates(c, today, horizon));
  }

  lemma PreviewArithmetic(anchor: Day, interval: int, cursor: Day, armed: seq<Day>, plan: seq<Day>)
    requires ValidInterval(interval) && |plan| >= 3 && Sorted(plan) && forall d :: d in armed ==> d <= cursor
    requires forall k :: 0 <= k < |plan| ==> plan[k] == WalkDate(anchor, interval, cursor, k)
    requires forall k :: 0 <= k < |plan| ==>
               if cursor < ReachLimit(anchor, interval) then plan[k] > cursor
               else plan[k] == ReachLimit(anchor, interval)
    ensures PreviewDates(anchor, interval, 3, armed) == Sort(armed + plan)[..3]
            <==> if |armed| >= 3 then Sort(armed)[2] <= ReachLimit(anchor, interval)
                 else GapsAreArmed(anchor, interval, cursor, armed)
  {
    hide WalkDate, Nth, FirstAfter, ReachLimit, Sort, Without, GapsAreArmed, Sorted;
    var kept := Sort(armed);
    var generated := seq(3, k requires 0 <= k < 3 => Nth(anchor, interval, k + 1));
    if |armed| >= 3 {
      ThreeArmedFirst(armed, plan, cursor, ReachLimit(anchor, interval));
      assert PreviewDates(anchor, interval, 3, armed) == Take(kept + Without(generated, kept), 3) == kept[..3];
    } else if cursor >= ReachLimit(anchor, interval) {
      BeyondReach(anchor, interval, cursor, armed, plan);
      assert Take(Sort(armed + plan), 3) == Sort(armed + plan)[..3];
    } else {
      ArmedFirstIff(armed, plan, cursor, ReachLimit(anchor, interval));
      SortSorts(armed);
      assert generated == [Nth(anchor, interval, 1), Nth(anchor, interval, 2), Nth(anchor, interval, 3)];
      TailsAgree(anchor, interval, cursor, kept, plan);
      SameMembersSameGaps(anchor, interval, cursor, kept, armed);
    }
  }

  lemma SameMembersSameGaps(anchor: Day, interval: int, cursor: Day, kept: seq<Day>, armed: seq<Day>)
    requires forall d :: d in kept <==> d in armed
    ensures GapsAreArmed(anchor, interval, cursor, kept) <==> GapsAreArmed(anchor, interval, cursor, armed)
  {
  }

  /** In particular whenever the new cadence's first date is still ahead of today and no
      armed order lies beyond it. */
  lemma PreviewMatchesNearAnchor(l: Ledger, interval: int, today: Day, actor: Actor, horizon: int)
    requires Inv(l) && l.row.status == ScheduleActive && ValidInterval(interval) && horizon >= 3
    requires today < NewAnchor(l, today) + interval
    requires forall d :: d in PendingDates(l.occs) ==> d <= NewAnchor(l, today) + interval
    ensures var committed := ChangeCadence(l, interval, today, actor, horizon);
            && committed.Ok? && |Upcoming(committed.value.occs)| >= 3
            && PreviewDates(PreviewAnchor(l.occs, today), interval, 3, PendingDates(l.occs))
               == Upcoming(committed.value.occs)[..3]
  {
    hide PendingDates, PreviewAnchor, NewAnchor, ChangeCadence, PreviewDates, Upcoming, LatestUnsettled, UnsettledDates;
    hide Reanchored, Sort, Cursor, Inv, ReachLimit;
    var c, armed := Reanchored(l, interval, today, actor), PendingDates(l.occs);
    var anchor := NewAnchor(l, today);
    AnchorsAgree(l, today);
    UpcomingAfterChange(l, interval, today, actor, horizon);
    PreviewMatchesIff(l, interval, today, actor, horizon);
    ThirdBelowReach(anchor, interval);
    if |armed| >= 3 {
      SortSorts(armed);
      assert Sort(armed)[2] in armed;
    }
    forall n | n >= 1 && Nth(anchor, interval, n) <= Cursor(c, today) ensures Nth(anchor, interval, n) in armed {
      NthMonotone(anchor, interval, 1, n);
    }
  }

  /** Elsewhere it can be wrong.  Every 90 days from day 0; the first order is armed on day
      87 and pushed back by 180 days; then the customer asks for every 7.  The preview shows
      days 270, 94 and 101; the service cannot commit 94. */
  lemma PreviewCanDiffer() returns (calls: seq<Call>, l: Ledger)
    ensures calls == [Call(DoMaterialize, 0, System), Call(DoArmNext, 87, System),
                      Call(DoDefer(180, "k"), 87, Customer)]
    ensures l == Run(Created("s", "o", 90, 0), calls, 3) && Inv(l) && l.row.status == ScheduleActive
    ensures var committed := ChangeCadence(l, 7, 87, Customer, 3);
            && committed.Ok? && |Upcoming(committed.value.occs)| >= 3
            && PreviewDates(PreviewAnchor(l.occs, 87), 7, 3, PendingDates(l.occs))
               != Upcoming(committed.value.occs)[..3]
  {
    hide Step, Keys.IdempotencyKey, ChangeCadence, Upcoming, PreviewDates, Inv;
    var (s, c) := Opening(90, 0);
    calls := [c, Call(DoArmNext, 87, System), Call(DoDefer(180, "k"), 87, Customer)];
    FirstPlanning(90, 0, 3);
    RunTwo(s, c, calls[1], 3);
    RunThree(s, c, calls[1], calls[2], 3);
    CreatedIsGood("s", "o", 90, 0);
    RunKeeps(s, calls, 3, 0);
    l := Run(s, calls, 3);
    var p := Step(s, c, 3);
    var x, y, z := PlannedRow("s", 1, 90), PlannedRow("s", 2, 180), PlannedRow("s", 3, 270);
    assert p.occs == [x, y, z];
    ArmedThenDeferred(p, x, y, z);
    var late := x.(status := Pending, date := 270);
    assert l.occs == [late, y, z];
    PendingOfThree(late, y, z);
    PreviewMatchesIff(l, 7, 87, Customer, 3);
    AnchorsAgree(l, 87);
    UpcomingAfterChange(l, 7, 87, Customer, 3);
    assert LastPlaced(l.occs) == None;
    assert 270 in PendingDates(l.occs) && Nth(87, 7, 1) == 94;
  }

  lemma PendingOfThree(late: Occurrence, y: Occurrence, z: Occurrence)
    requires late.status == Pending && y.status == Planned && z.status == Planned
    ensures PendingDates([late, y, z]) == [late.date]
  {
    assert [late, y, z][..2] == [late, y] && [late, y][..1] == [late] && [late][..0] == [];
    assert PendingDates([late]) == [late.date] && PendingDates([late, y]) == [late.date];
  }

  lemma ArmedThenDeferred(p: Ledger, x: Occurrence, y: Occurrence, z: Occurrence)
    requires FreshlyPlanned(p, 90, 0, 3) && p.occs == [x, y, z]
    requires x == PlannedRow("s", 1, 90) && y == PlannedRow("s", 2, 180) && z == PlannedRow("s", 3, 270)
    ensures var l := Step(Step(p, Call(DoArmNext, 87, System), 3), Call(DoDefer(180, "k"), 87, Customer), 3);
            l.row.status == ScheduleActive && l.occs == [x.(status := Pending, date := 270), y, z]
  {
    hide Step, Keys.IdempotencyKey;
    ArmsFirstOfThree(p, x, y, z);
    DefersFirstOfThree(Step(p, Call(DoArmNext, 87, System), 3), x.(status := Pending), y, z);
  }

  lemma ArmsFirstOfThree(p: Ledger, x: Occurrence, y: Occurrence, z: Occurrence)
    requires p.row.status == ScheduleActive && p.occs == [x, y, z] && x.status == Planned && y.status == Planned
    requires Sooner(x, y) && Sooner(y, z) && x.seqNo < y.seqNo
    requires !DeferRecorded(p.log, "k")
    ensures var l := Step(p, Call(DoArmNext, 87, System), 3);
            && l.row.status == ScheduleActive && l.occs == [x.(status := Pending), y, z]
            && !DeferRecorded(l.log, "k")
  {
    assert [x, y] + [z] == [x, y, z];
    SoonestOfTwo(x, y, [z], {Planned});
  }

  lemma DefersFirstOfThree(p: Ledger, x: Occurrence, y: Occurrence, z: Occurrence)
    requires p.row.status == ScheduleActive && p.occs == [x, y, z] && x.status == Pending && y.status == Planned
    requires Sooner(x, y) && Sooner(y, z) && x.seqNo < y.seqNo
    requires !DeferRecorded(p.log, "k")
    ensures var l := Step(p, Call(DoDefer(180, "k"), 87, Customer), 3);
            l.row.status == ScheduleActive && l.occs == [x.(date := x.date + 180), y, z]
  {
    hide NextRun, DeferRecorded;
    assert [x, y] + [z] == [x, y, z];
    SoonestOfTwo(x, y, [z], UNSETTLED);
  }
}
