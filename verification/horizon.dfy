/**
 What topping up the horizon achieves, and why a skipped date is not planned again.
 */
module Horizons {
  import opened Wrappers
  import opened Cadence
  import opened Ledgers
  import opened Lifecycle
  import opened Invariants
  import opened Histories
  import Keys

  lemma {:induction false} CountAddRows(l: Ledger, dates: seq<Day>, p: Occurrence -> bool, hit: bool)
    requires forall k :: 0 <= k < |dates| ==> (p(PlannedRow(l.row.id, |l.occs| + k + 1, dates[k])) <==> hit)
    ensures Count(AddRows(l, dates).occs, p) == Count(l.occs, p) + (if hit then |dates| else 0)
  {
    hide AddRows, Count, Keys.IdempotencyKey;
    if |dates| == 0 {
      AddRowsNone(l, dates);
    } else {
      var n := |dates| - 1;
      CountAddRows(l, dates[..n], p, hit);
      AddRowsAll(l, dates);
      var m := AddRows(l, dates[..n]);
      CountAppend(m.occs, PlannedRow(l.row.id, |m.occs| + 1, dates[n]), p);
    }
  }

  /** Whether topping up on this date can succeed: nothing is missing, or the cadence
      still reaches past the date. */
  predicate CanFill(l: Ledger, today: Day, horizon: int)
    requires ValidInterval(l.row.interval)
  {
    Missing(l, today, horizon) <= 0 || today < ReachLimit(l.row.anchor, l.row.interval)
  }

  lemma PlanDatesClear(l: Ledger, today: Day, n: nat)
    requires ValidInterval(l.row.interval)
    ensures var limit := ReachLimit(l.row.anchor, l.row.interval);
            forall k :: 0 <= k < n ==> (PlanDates(l, today, n)[k] > today <==> today < limit)
  {
    hide FirstAfter, Nth, WalkDate;
    var a, i, c := l.row.anchor, l.row.interval, Cursor(l, today);
    forall k | 0 <= k < n
      ensures PlanDates(l, today, n)[k] > today <==> today < ReachLimit(a, i)
    {
      WalkBeyond(a, i, c, k, today);
    }
  }

  /** After a top-up the horizon is full -- or was overfull already -- exactly when it
      could be filled; otherwise not one of the rows it added lies ahead. */
  lemma TopUpFills(l: Ledger, today: Day, horizon: int)
    requires ValidInterval(l.row.interval)
    ensures var before := Count(l.occs, FuturePlanned(today));
            Count(TopUp(l, today, horizon).occs, FuturePlanned(today))
            == if CanFill(l, today, horizon) then Max(before, horizon) else before
  {
    hide NextRun, AddRows, WalkDate;
    var missing := Missing(l, today, horizon);
    if missing > 0 {
      PlanDatesClear(l, today, missing);
      CountAddRows(l, PlanDates(l, today, missing), FuturePlanned(today), CanFill(l, today, horizon));
    }
  }

  /** Running it again on the same date changes nothing -- precisely when it could fill.
      Past the reach of the cadence every run adds `missing` more rows. */
  lemma TopUpIdempotentIff(l: Ledger, today: Day, horizon: int)
    requires ValidInterval(l.row.interval)
    ensures var once := TopUp(l, today, horizon);
            TopUp(once, today, horizon) == once <==> CanFill(l, today, horizon)
  {
    hide AddRows, WalkDate, NextRun;
    var once := TopUp(l, today, horizon);
    var twice := TopUp(once, today, horizon);
    TopUpFills(l, today, horizon);
    if !CanFill(l, today, horizon) {
      assert |twice.occs| == |once.occs| + Missing(once, today, horizon);
    }
  }

  /** Past the reach it does not: planned once on day 106764, a schedule that runs every 7
      days from day 0 is planned again by the very next run that day. */
  lemma SecondRunPlansAgain()
    ensures var s, c := Created("s", "o", 7, 0), Call(DoMaterialize, 106764, System);
            Run(s, [c, c], 1) != Run(s, [c], 1)
  {
    hide TopUp, Count;
    var s, c := Created("s", "o", 7, 0), Call(DoMaterialize, 106764, System);
    RunTwo(s, c, c, 1);
    SearchStandsStill();
    CountZero(s.occs, FuturePlanned(106764));
    TopUpIdempotentIff(s, 106764, 1);
    TopUpKeepsStatus(s, 106764, 1);
  }

  lemma TopUpKeepsStatus(l: Ledger, today: Day, horizon: int)
    requires ValidInterval(l.row.interval)
    ensures TopUp(l, today, horizon).row == l.row.(nextRun := TopUp(l, today, horizon).row.nextRun)
  {
  }

  /** `count` planned rows at cadence indices n, n + 1, ... numbered on from l's last. */
  function ConsecutiveRows(l: Ledger, n: int, count: nat): seq<Occurrence> {
    seq(count, k requires 0 <= k < count =>
      PlannedRow(l.row.id, |l.occs| + k + 1, Nth(l.row.anchor, l.row.interval, n + k)))
  }

  /** The date at index n lies past today and past every order still to come. */
  ghost predicate IsFree(l: Ledger, today: Day, n: int) {
    && l.row.anchor + n * l.row.interval > today
    && forall k :: 0 <= k < |l.occs| && (l.occs[k].status == Planned || l.occs[k].status == Pending) ==>
         l.row.anchor + n * l.row.interval > l.occs[k].date
  }

  ghost predicate IsFirstFree(l: Ledger, today: Day, n: int) {
    n >= 1 && IsFree(l, today, n) && forall m :: 1 <= m < n ==> !IsFree(l, today, m)
  }

  lemma FirstFreeIsPastCursor(l: Ledger, today: Day, n: int)
    requires l.row.interval > 0
    ensures IsFirstFree(l, today, n) <==> n == FirstAfter(l.row.anchor, l.row.interval, Cursor(l, today))
  {
    hide LatestUnsettled, FirstAfter;
    var a, i, c := l.row.anchor, l.row.interval, Cursor(l, today);
    forall m ensures IsFree(l, today, m) <==> Nth(a, i, m) > c {
    }
    if IsFirstFree(l, today, n) {
      LeastAfterUnique(a, i, c, n, FirstAfter(a, i, c));
    }
  }

  /** The rows a top-up adds: `missing` consecutive members of the cadence, starting at
      the least index past both today and every date spoken for -- exactly while the last
      of them stays within reach. */
  lemma TopUpPlansConsecutiveDates(l: Ledger, today: Day, horizon: int, n: int)
    requires ValidInterval(l.row.interval) && Missing(l, today, horizon) > 0 && IsFirstFree(l, today, n)
    ensures var missing := Missing(l, today, horizon);
            TopUp(l, today, horizon).occs == l.occs + ConsecutiveRows(l, n, missing)
            <==> n + missing - 1 <= LastReachable(l.row.interval)
  {
    FirstFreeIsPastCursor(l, today, n);
    hide NextRun, Nth, FirstAfter, WalkDate, LatestUnsettled, Keys.IdempotencyKey, AddRows, Count, LastReachable;
    hide IsFirstFree;
    var a, i, c := l.row.anchor, l.row.interval, Cursor(l, today);
    var missing := Missing(l, today, horizon);
    var dates := PlanDates(l, today, missing);
    var got, want := AddRows(l, dates).occs, l.occs + ConsecutiveRows(l, n, missing);
    forall k | 0 <= k < |l.occs| + missing
      ensures got[k] == want[k] <==> k < |l.occs| || n + (k - |l.occs|) <= LastReachable(i)
    {
      AddRowsAt(l, dates, k);
      if k >= |l.occs| {
        WalkShape(a, i, c, k - |l.occs|);
        assert want[k] == PlannedRow(l.row.id, k + 1, Nth(a, i, n + (k - |l.occs|)));
      }
    }
    if n + missing - 1 > LastReachable(i) {
      assert got[|got| - 1] != want[|want| - 1];
    }
  }

  // ----- between re-anchorings -----

  /** Active, with a full queue of orders still to come. */
  predicate Stocked(l: Ledger, horizon: int) {
    l.row.status == ScheduleActive && Count(l.occs, HasStatus(UNSETTLED)) >= horizon
  }

  /** The commands that neither re-anchor a schedule nor end its queue. */
  predicate KeepsAnchor(c: Command) {
    c.DoSkipNext? || c.DoDefer? || c.DoArmNext? || c.DoMaterialize?
  }

  lemma StockedHasLatest(l: Ledger, horizon: int)
    requires Stocked(l, horizon) && horizon >= 1
    ensures LatestUnsettled(l.occs).Some?
  {
    CountZero(l.occs, HasStatus(UNSETTLED));
  }

  /** The first date new planning may come to: past everything still to come, or the end
      of the cadence's reach. */
  function Floor(l: Ledger): Day
    requires ValidInterval(l.row.interval) && LatestUnsettled(l.occs).Some?
  {
    Min(LatestUnsettled(l.occs).value + 1, ReachLimit(l.row.anchor, l.row.interval))
  }

  /** From l to m the furthest date has not moved back, and whatever was planned lies at or
      past the floor of l, within reach of the cadence. */
  ghost predicate Advances(l: Ledger, m: Ledger) {
    && ValidInterval(l.row.interval)
    && LatestUnsettled(l.occs).Some? && LatestUnsettled(m.occs).Some?
    && LatestUnsettled(l.occs).value <= LatestUnsettled(m.occs).value
    && |l.occs| <= |m.occs| && l.log <= m.log
    && m.row.anchor == l.row.anchor && m.row.interval == l.row.interval
    && (forall k :: |l.occs| <= k < |m.occs| ==> m.occs[k].date >= Floor(l))
    && (forall j :: |l.log| <= j < |m.log| && m.log[j].body.MaterializedEvent? ==>
          Floor(l) <= m.log[j].body.date <= ReachLimit(l.row.anchor, l.row.interval))
  }

  lemma PlanDatesPastFloor(l: Ledger, today: Day, n: nat, k: nat)
    requires ValidInterval(l.row.interval) && LatestUnsettled(l.occs).Some? && k < n
    ensures Floor(l) <= PlanDates(l, today, n)[k] <= ReachLimit(l.row.anchor, l.row.interval)
  {
    hide FirstAfter, Nth, WalkDate, LatestUnsettled;
    var a, i, c := l.row.anchor, l.row.interval, Cursor(l, today);
    WalkShape(a, i, c, k);
    WalkBeyond(a, i, c, k, Min(LatestUnsettled(l.occs).value, ReachLimit(a, i) - 1));
  }

  lemma TopUpAdvances(l: Ledger, today: Day, horizon: int)
    requires WellFormed(l) && l.row.status == ScheduleActive && LatestUnsettled(l.occs).Some?
    ensures Stocked(TopUp(l, today, horizon), horizon) && Advances(l, TopUp(l, today, horizon))
  {
    hide NextRun, Count, WalkDate, FirstAfter, LatestUnsettled, ReachLimit, Keys.IdempotencyKey;
    var m := TopUp(l, today, horizon);
    TopUpStocks(l, today, horizon);
    var missing := Missing(l, today, horizon);
    if missing > 0 {
      var dates := PlanDates(l, today, missing);
      forall k | 0 <= k < |m.occs|
        ensures k < |l.occs| ==> m.occs[k] == l.occs[k]
        ensures k >= |l.occs| ==> m.occs[k].date >= Floor(l)
      {
        AddRowsAt(l, dates, k);
        if k >= |l.occs| {
          PlanDatesPastFloor(l, today, missing, k - |l.occs|);
        }
      }
      forall j | |l.log| <= j < |m.log|
        ensures m.log[j].body.MaterializedEvent?
                && Floor(l) <= m.log[j].body.date <= ReachLimit(l.row.anchor, l.row.interval)
      {
        PlanDatesPastFloor(l, today, missing, j - |l.log|);
      }
      LatestGrows(l.occs, m.occs);
    }
  }

  /** A top-up stocks the queue whatever it had before and wherever the cadence has got to:
      an active schedule has `horizon` orders to come. */
  lemma TopUpStocks(l: Ledger, today: Day, horizon: int)
    requires ValidInterval(l.row.interval) && l.row.status == ScheduleActive
    ensures Stocked(TopUp(l, today, horizon), horizon)
  {
    hide NextRun, Count, WalkDate, FirstAfter, LatestUnsettled, AddRows;
    var missing := Missing(l, today, horizon);
    CountMonotone(l.occs, FuturePlanned(today), HasStatus(UNSETTLED));
    if missing > 0 {
      CountAddRows(l, PlanDates(l, today, missing), HasStatus(UNSETTLED), true);
    }
  }

  lemma LatestGrows(occs: seq<Occurrence>, more: seq<Occurrence>)
    requires |occs| <= |more| && forall k :: 0 <= k < |occs| ==> more[k] == occs[k]
    requires LatestUnsettled(occs).Some?
    ensures LatestUnsettled(more).Some? && LatestUnsettled(occs).value <= LatestUnsettled(more).value
  {
    var k :| 0 <= k < |occs| && occs[k].status in UNSETTLED && occs[k].date == LatestUnsettled(occs).value;
    assert more[k].status in UNSETTLED;
  }

  lemma AnotherUnsettled(occs: seq<Occurrence>, k: nat) returns (other: nat)
    requires Count(occs, HasStatus(UNSETTLED)) >= 2 && k < |occs| && occs[k].status in UNSETTLED
    ensures other < |occs| && other != k && occs[other].status in UNSETTLED
  {
    var settled := occs[k := occs[k].(status := Skipped)];
    CountUpdate(occs, k, settled[k], HasStatus(UNSETTLED));
    CountZero(settled, HasStatus(UNSETTLED));
    other :| 0 <= other < |settled| && HasStatus(UNSETTLED)(settled[other]);
  }

  /** With two orders to come, skipping the soonest leaves the furthest date standing. */
  lemma SkipKeepsLatest(l: Ledger, k: nat, key: string, actor: Actor)
    requires Count(l.occs, HasStatus(UNSETTLED)) >= 2 && Soonest(l.occs, UNSETTLED) == Some(k)
    ensures LatestUnsettled(SkipAt(l, k, key, actor).occs) == LatestUnsettled(l.occs)
    ensures LatestUnsettled(l.occs).Some? && l.occs[k].date <= LatestUnsettled(l.occs).value
  {
    var other := AnotherUnsettled(l.occs, k);
    hide Count, LatestUnsettled, Soonest;
    var occs, settled := l.occs, SkipAt(l, k, key, actor).occs;
    assert !Sooner(occs[other], occs[k]);
    assert settled[other] == occs[other];
    var j :| 0 <= j < |occs| && occs[j].status in UNSETTLED && occs[j].date == LatestUnsettled(occs).value;
    var stays := if j == k then other else j;
    assert settled[stays] == occs[stays];
    assert forall i :: 0 <= i < |settled| && settled[i].status in UNSETTLED ==> settled[i] == occs[i];
    assert occs[stays].date == LatestUnsettled(occs).value;
    LatestIs(settled, stays);
  }

  lemma LatestIs(occs: seq<Occurrence>, k: nat)
    requires k < |occs| && occs[k].status in UNSETTLED
    requires forall j :: 0 <= j < |occs| && occs[j].status in UNSETTLED ==> occs[j].date <= occs[k].date
    ensures LatestUnsettled(occs) == Some(occs[k].date)
  {
  }

  lemma SkipAdvances(l: Ledger, key: string, today: Day, actor: Actor, horizon: int)
    requires Inv(l) && Stocked(l, horizon) && horizon >= 2
    requires !SkipRecorded(l.log, key) && Soonest(l.occs, UNSETTLED).Some?
    ensures var m := SkipNext(l, key, today, actor, horizon).value;
            Stocked(m, horizon) && Advances(l, m)
  {
    hide TopUp, Count, LatestUnsettled, ReachLimit, SkipRecorded, Soonest, Keys.IdempotencyKey;
    var k := Soonest(l.occs, UNSETTLED).value;
    SkipKeepsLatest(l, k, key, actor);
    StockedHasLatest(l, horizon);
    TopUpAdvances(SkipAt(l, k, key, actor), today, horizon);
  }

  lemma DeferAdvances(l: Ledger, days: int, key: string, today: Day, actor: Actor, horizon: int)
    requires WellFormed(l) && Stocked(l, horizon) && horizon >= 1 && days >= 1
    ensures var r := Defer(l, days, key, today, actor);
            r.Ok? ==> Stocked(r.value, horizon) && Advances(l, r.value)
  {
    hide DeferRecorded, NextRun, ReachLimit, LatestUnsettled, Count, Soonest, Keys.IdempotencyKey;
    StockedHasLatest(l, horizon);
    var r := Soonest(l.occs, UNSETTLED);
    if r.Some? {
      var m := DeferAt(l, r.value, days, key, actor);
      CountUpdate(l.occs, r.value, m.occs[r.value], HasStatus(UNSETTLED));
      UpdateKeepsLatest(l.occs, r.value, m.occs[r.value]);
    }
  }

  lemma UpdateKeepsLatest(occs: seq<Occurrence>, k: nat, o: Occurrence)
    requires k < |occs| && o.status in UNSETTLED && o.date >= occs[k].date && LatestUnsettled(occs).Some?
    ensures LatestUnsettled(occs[k := o]).Some?
    ensures LatestUnsettled(occs[k := o]).value >= LatestUnsettled(occs).value
  {
    var j :| 0 <= j < |occs| && occs[j].status in UNSETTLED && occs[j].date == LatestUnsettled(occs).value;
    assert occs[k := o][j].status in UNSETTLED;
  }

  lemma ArmAdvances(l: Ledger, actor: Actor, horizon: int)
    requires WellFormed(l) && Stocked(l, horizon) && horizon >= 1
    ensures var r := ArmNext(l, actor); r.Ok? ==> Stocked(r.value, horizon) && Advances(l, r.value)
  {
    hide ReachLimit, LatestUnsettled, Count, Soonest, Keys.IdempotencyKey;
    StockedHasLatest(l, horizon);
    var r := Soonest(l.occs, {Planned});
    if r.Some? {
      var m := ArmAt(l, r.value, actor);
      CountUpdate(l.occs, r.value, m.occs[r.value], HasStatus(UNSETTLED));
      UpdateKeepsLatest(l.occs, r.value, m.occs[r.value]);
    }
  }

  lemma TopUpAddsMissing(l: Ledger, today: Day, horizon: int)
    requires ValidInterval(l.row.interval)
    ensures |TopUp(l, today, horizon).occs| == |l.occs| + Max(0, Missing(l, today, horizon))
  {
  }

  /** An armed order no longer counts toward the horizon.  After an arming the next top-up
      plans exactly one order more than it would have before, if the armed one was still
      ahead and the horizon not overfull; otherwise it plans just as many. */
  lemma ArmOpensGapIff(l: Ledger, k: nat, actor: Actor, today: Day, horizon: int, m: Ledger)
    requires ValidInterval(l.row.interval)
    requires Soonest(l.occs, {Planned}) == Some(k) && ArmNext(l, actor) == Ok(m)
    ensures ValidInterval(m.row.interval)
    ensures |TopUp(m, today, horizon).occs| - |m.occs|
            == |TopUp(l, today, horizon).occs| - |l.occs|
               + (if l.occs[k].date > today && Missing(l, today, horizon) >= 0 then 1 else 0)
    ensures |TopUp(m, today, horizon).occs| > |m.occs|
            <==> Missing(l, today, horizon) + (if l.occs[k].date > today then 1 else 0) > 0
  {
    hide TopUp, Soonest, Count;
    CountUpdate(l.occs, k, m.occs[k], FuturePlanned(today));
    TopUpAddsMissing(l, today, horizon);
    TopUpAddsMissing(m, today, horizon);
  }

  /** It does plan one more: the horizon is full, the order is armed, and the next top-up
      on the same day adds a row. */
  lemma ArmingOpensAGap() returns (calls: seq<Call>, full: Ledger, armed: Ledger, after: Ledger)
    ensures calls == [Call(DoMaterialize, 0, System), Call(DoArmNext, 4, System), Call(DoMaterialize, 4, System)]
    ensures full == Run(Created("s", "o", 7, 0), calls[..1], 1)
    ensures armed == Run(Created("s", "o", 7, 0), calls[..2], 1)
    ensures after == Run(Created("s", "o", 7, 0), calls, 1)
    ensures Step(full, calls[2], 1).occs == full.occs
    ensures |armed.occs| == |full.occs| == 1 && armed.occs[0].status == Pending && |after.occs| == 2
  {
    hide Step, Keys.IdempotencyKey;
    var (s, c) := Opening(7, 0);
    calls := [c, Call(DoArmNext, 4, System), Call(DoMaterialize, 4, System)];
    FirstPlanning(7, 0, 1);
    RunTwo(s, c, calls[1], 1);
    RunThree(s, c, calls[1], calls[2], 1);
    assert calls[..1] == [c] && calls[..2] == [c, calls[1]];
    full, armed, after := Run(s, calls[..1], 1), Run(s, calls[..2], 1), Run(s, calls, 1);
    GapOfOne(full);
  }

  lemma GapOfOne(full: Ledger)
    requires FreshlyPlanned(full, 7, 0, 1)
    ensures Step(full, Call(DoMaterialize, 4, System), 1).occs == full.occs
    ensures var armed := Step(full, Call(DoArmNext, 4, System), 1);
            && |armed.occs| == 1 && armed.occs[0].status == Pending
            && |Step(armed, Call(DoMaterialize, 4, System), 1).occs| == 2
  {
    hide TopUp, Count, Keys.IdempotencyKey;
    var o := PlannedRow("s", 1, 7);
    assert full.occs == [o] && full.occs[..0] == [];
    assert Soonest(full.occs, {Planned}) == Some(0);
    CountAppend([], o, FuturePlanned(4));
    assert [] + [o] == [o];
    CountZero<Occurrence>([], FuturePlanned(4));
    var armed := ArmAt(full, 0, System);
    ArmOpensGapIff(full, 0, System, 4, 1, armed);
    TopUpAddsMissing(full, 4, 1);
    TopUpAddsMissing(armed, 4, 1);
    FullStays(full, 4, 1);
  }

  lemma FullStays(l: Ledger, today: Day, horizon: int)
    requires ValidInterval(l.row.interval) && Missing(l, today, horizon) <= 0
    ensures TopUp(l, today, horizon).occs == l.occs
  {
  }

  lemma StepAdvances(l: Ledger, c: Call, horizon: int)
    requires Inv(l) && Stocked(l, horizon) && horizon >= 2
    requires KeepsAnchor(c.command) || Step(l, c, horizon) == l
    ensures Stocked(Step(l, c, horizon), horizon) && Advances(l, Step(l, c, horizon))
  {
    hide SkipRecorded, DeferRecorded, Count, LatestUnsettled, TopUp, Defer, ArmNext, ReachLimit, Soonest, WellFormed;
    hide Keys.IdempotencyKey;
    StockedHasLatest(l, horizon);
    GoodInterval(l);
    if KeepsAnchor(c.command) {
      match c.command
      case DoSkipNext(key) =>
        if ValidKey(key) && !SkipRecorded(l.log, key) && Soonest(l.occs, UNSETTLED).Some? {
          SkipAdvances(l, key, c.today, c.actor, horizon);
        }
      case DoDefer(days, key) =>
        if ValidDeferDays(days) {
          DeferAdvances(l, days, key, c.today, c.actor, horizon);
        }
      case DoArmNext => ArmAdvances(l, c.actor, horizon);
      case DoMaterialize => TopUpAdvances(l, c.today, horizon);
    }
  }

  lemma GoodInterval(l: Ledger)
    requires WellFormed(l)
    ensures ValidInterval(l.row.interval)
  {
  }

  /** Each call is a skip, a deferral, an arming or a top-up, or changes nothing. */
  ghost predicate Stretch(l: Ledger, calls: seq<Call>, horizon: int) {
    |calls| > 0 ==>
      var p := Run(l, calls[..|calls| - 1], horizon);
      var c := calls[|calls| - 1];
      Stretch(l, calls[..|calls| - 1], horizon) && (KeepsAnchor(c.command) || Step(p, c, horizon) == p)
  }

  lemma {:induction false} StretchAdvances(l: Ledger, calls: seq<Call>, horizon: int)
    requires Inv(l) && Stocked(l, horizon) && horizon >= 2 && Stretch(l, calls, horizon)
    ensures Stocked(Run(l, calls, horizon), horizon) && Advances(l, Run(l, calls, horizon))
  {
    hide Step, Count, LatestUnsettled, Inv, ReachLimit, Cursor, Keys.IdempotencyKey;
    if |calls| == 0 {
      StockedHasLatest(l, horizon);
      IntervalOf(l);
    } else {
      var n := |calls| - 1;
      var p, m := Run(l, calls[..n], horizon), Run(l, calls, horizon);
      StretchAdvances(l, calls[..n], horizon);
      RunKeeps(l, calls[..n], horizon, 0);
      StepAdvances(p, calls[n], horizon);
      StepKeeps(p, calls[n], horizon);
      AdvancesTransitive(l, p, m);
    }
  }

  lemma IntervalOf(l: Ledger)
    requires Inv(l)
    ensures ValidInterval(l.row.interval)
  {
  }

  lemma AdvancesTransitive(l: Ledger, p: Ledger, m: Ledger)
    requires Advances(l, p) && Advances(p, m) && Follows(p, m)
    ensures Advances(l, m)
  {
    hide LatestUnsettled, ReachLimit;
    assert Floor(l) <= Floor(p);
    forall k | |l.occs| <= k < |m.occs| ensures m.occs[k].date >= Floor(l) {
      assert k < |p.occs| ==> RowFollows(p.occs[k], m.occs[k]);
    }
    forall j | |l.log| <= j < |m.log| && m.log[j].body.MaterializedEvent?
      ensures Floor(l) <= m.log[j].body.date <= ReachLimit(l.row.anchor, l.row.interval)
    {
      assert j < |p.log| ==> m.log[j] == p.log[j];
    }
  }

  /** A date a customer skipped is never planned again: between re-anchorings, with a
      horizon of two or more, every date planned after the skip is later than the skipped
      one -- exactly while the cadence still reaches past that. */
  lemma SkippedDateNeverReturns(l: Ledger, skip: Call, calls: seq<Call>, horizon: int, k: nat)
    requires Inv(l) && Stocked(l, horizon) && horizon >= 2 && Stretch(l, [skip] + calls, horizon)
    requires skip.command.DoSkipNext? && Soonest(l.occs, UNSETTLED) == Some(k)
    ensures ValidInterval(l.row.interval)
    ensures var m := Run(l, [skip] + calls, horizon);
            var skipped, limit := l.occs[k].date, ReachLimit(l.row.anchor, l.row.interval);
            && (forall j :: |l.log| <= j < |m.log| && m.log[j].body.MaterializedEvent? ==>
                  (m.log[j].body.date > skipped <==> skipped < limit))
            && (skipped < limit ==> forall j :: |l.occs| <= j < |m.occs| ==> m.occs[j].date > skipped)
  {
    hide Run, Stretch, Inv, ReachLimit, Soonest;
    IntervalOf(l);
    StretchAdvances(l, [skip] + calls, horizon);
    SoonestIsUnsettled(l, k);
  }

  /** The queue of an active schedule is stocked once anything was ever planned. */
  ghost predicate StockedOnce(l: Ledger, horizon: int) {
    && l.row.status != ScheduleFailed
    && (l.row.status == ScheduleActive ==> |l.occs| == 0 || Stocked(l, horizon))
  }

  lemma StepStocks(l: Ledger, c: Call, horizon: int)
    requires Inv(l) && StockedOnce(l, horizon) && horizon >= 2
    ensures StockedOnce(Step(l, c, horizon), horizon)
  {
    hide Stocked, TopUp, CancelAll, Count, SkipRecorded, DeferRecorded, Defer, ArmNext, SkipNext, Keys.IdempotencyKey;
    IntervalOf(l);
    if KeepsAnchor(c.command) && l.row.status == ScheduleActive && |l.occs| > 0 {
      hide Step, Inv;
      StepAdvances(l, c, horizon);
      StockedIsActive(Step(l, c, horizon), horizon);
    } else {
      match c.command
      case DoResume =>
        var row := l.row.(status := ScheduleActive, pausedUntil := None, anchor := c.today);
        TopUpStocks(Record(l.(row := row), c.actor, None,
                           ResumedEvent(c.today, row.interval, c.today + row.interval)), c.today, horizon);
        StockedIsActive(Step(l, c, horizon), horizon);
      case DoChangeCadence(interval) =>
        if ValidInterval(interval) && l.row.status == ScheduleActive {
          TopUpStocks(Reanchored(l, interval, c.today, c.actor), c.today, horizon);
          StockedIsActive(Step(l, c, horizon), horizon);
        }
      case DoMaterialize =>
        if l.row.status == ScheduleActive {
          TopUpStocks(l, c.today, horizon);
          StockedIsActive(Step(l, c, horizon), horizon);
        }
      case DoPause(_) =>
      case DoCancel(_) =>
      case _ => NothingToMove(l, c, horizon);
    }
  }

  lemma StockedIsActive(l: Ledger, horizon: int)
    ensures Stocked(l, horizon) ==> l.row.status == ScheduleActive
  {
  }

  /** Without rows, or while not active, there is no order to skip, push back or arm. */
  lemma NothingToMove(l: Ledger, c: Call, horizon: int)
    requires c.command.DoSkipNext? || c.command.DoDefer? || c.command.DoArmNext?
    requires l.row.status != ScheduleActive || |l.occs| == 0
    ensures Step(l, c, horizon) == l
  {
  }

  /** In every reachable state, with a horizon of two or more, an active schedule has no
      rows at all or a full queue. */
  lemma {:induction false} RunsAreStocked(id: string, origin: string, interval: int, anchor: Day, calls: seq<Call>,
                                          horizon: int)
    requires ValidInterval(interval) && horizon >= 2
    ensures StockedOnce(Run(Created(id, origin, interval, anchor), calls, horizon), horizon)
  {
    hide Step, Stocked, Inv;
    if |calls| > 0 {
      var most, l := calls[..|calls| - 1], Created(id, origin, interval, anchor);
      RunsAreStocked(id, origin, interval, anchor, most, horizon);
      CreatedIsGood(id, origin, interval, anchor);
      RunKeeps(l, most, horizon, 0);
      StepStocks(Run(l, most, horizon), calls[|calls| - 1], horizon);
    }
  }

  /** So it holds of every run from checkout, whatever came before the skip. */
  lemma RunsNeverReplanSkipped(id: string, origin: string, interval: int, anchor: Day, earlier: seq<Call>,
                               skip: Call, calls: seq<Call>, horizon: int, k: nat)
    requires ValidInterval(interval) && horizon >= 2 && skip.command.DoSkipNext?
    requires Soonest(Run(Created(id, origin, interval, anchor), earlier, horizon).occs, UNSETTLED) == Some(k)
    requires Stretch(Run(Created(id, origin, interval, anchor), earlier, horizon), [skip] + calls, horizon)
    ensures var l := Run(Created(id, origin, interval, anchor), earlier, horizon);
            var m := Run(l, [skip] + calls, horizon);
            && k < |l.occs| && ValidInterval(l.row.interval)
            && forall j :: |l.log| <= j < |m.log| && m.log[j].body.MaterializedEvent? ==>
                 (m.log[j].body.date > l.occs[k].date <==> l.occs[k].date < ReachLimit(l.row.anchor, l.row.interval))
  {
    hide Run, Stretch, Stocked, Soonest, ReachLimit;
    var l := Run(Created(id, origin, interval, anchor), earlier, horizon);
    CreatedIsGood(id, origin, interval, anchor);
    RunKeeps(Created(id, origin, interval, anchor), earlier, horizon, 0);
    RunsAreStocked(id, origin, interval, anchor, earlier, horizon);
    SoonestIsUnsettled(l, k);
    assert l.occs[k].status in UNSETTLED;
    SkippedDateNeverReturns(l, skip, calls, horizon, k);
  }

  lemma SoonestIsUnsettled(l: Ledger, k: nat)
    requires Soonest(l.occs, UNSETTLED) == Some(k)
    ensures k < |l.occs| && LatestUnsettled(l.occs).Some? && l.occs[k].date <= LatestUnsettled(l.occs).value
  {
  }

  /** A skip settles the soonest order and touches no other existing one. */
  lemma SkipTouchesOneRow(l: Ledger, key: string, today: Day, actor: Actor, horizon: int, j: nat)
    requires Inv(l) && l.row.status == ScheduleActive && !SkipRecorded(l.log, key) && j < |l.occs|
    requires Soonest(l.occs, UNSETTLED).Some?
    ensures var k := Soonest(l.occs, UNSETTLED).value;
            var m := SkipNext(l, key, today, actor, horizon).value;
            m.occs[j] == if j == k then l.occs[k].(status := Skipped) else l.occs[j]
  {
    hide SkipRecorded, NextRun, Count;
    var s := SkipAt(l, Soonest(l.occs, UNSETTLED).value, key, actor);
    var missing := Missing(s, today, horizon);
    if missing > 0 {
      AddRowsAt(s, PlanDates(s, today, missing), j);
    }
  }

  /** One skip, any horizon, any date: all it plans lies past the skipped date exactly when
      nothing is missing; or another order was still to come and the cadence reaches past
      the skipped date; or no other was, and the cadence's next date is already later. */
  lemma SkipReplansIff(l: Ledger, k: nat, key: string, today: Day, actor: Actor, horizon: int, m: Ledger)
    requires Inv(l) && !SkipRecorded(l.log, key) && Soonest(l.occs, UNSETTLED) == Some(k)
    requires SkipNext(l, key, today, actor, horizon) == Ok(m)
    ensures (forall j :: |l.occs| <= j < |m.occs| ==> m.occs[j].date > l.occs[k].date)
            <==> Missing(SkipAt(l, k, key, actor), today, horizon) <= 0
                 || (if Count(l.occs, HasStatus(UNSETTLED)) >= 2
                     then l.occs[k].date < ReachLimit(l.row.anchor, l.row.interval)
                     else WalkDate(l.row.anchor, l.row.interval, today, 0) > l.occs[k].date)
  {
    hide SkipRecorded, NextRun, Count, WalkDate, FirstAfter, NextOccurrenceAfter, ReachLimit, Keys.IdempotencyKey;
    hide LatestUnsettled, Soonest;
    var s := SkipAt(l, k, key, actor);
    var cursor := Cursor(s, today);
    NewRowsOf(s, today, horizon);
    assert |m.occs| > |l.occs| ==> m.occs[|l.occs|].date == WalkDate(l.row.anchor, l.row.interval, cursor, 0);
    if Count(l.occs, HasStatus(UNSETTLED)) >= 2 {
      SkipKeepsLatest(l, k, key, actor);
      assert cursor >= l.occs[k].date;
      WalkBeyond(l.row.anchor, l.row.interval, cursor, 0, l.occs[k].date);
    } else {
      LastOneSkipped(l, k, key, today, actor);
      assert cursor == today;
    }
  }

  lemma NewRowsOf(s: Ledger, today: Day, horizon: int)
    requires WellFormed(s)
    ensures var m := TopUp(s, today, horizon);
            var a, i, cursor := s.row.anchor, s.row.interval, Cursor(s, today);
            && |m.occs| == |s.occs| + Max(0, Missing(s, today, horizon))
            && (forall j :: |s.occs| <= j < |m.occs| ==> m.occs[j].date >= WalkDate(a, i, cursor, 0))
            && (|m.occs| > |s.occs| ==> m.occs[|s.occs|].date == WalkDate(a, i, cursor, 0))
  {
    hide NextRun, Count, WalkDate, FirstAfter, LatestUnsettled, Keys.IdempotencyKey;
    var missing := Missing(s, today, horizon);
    if missing > 0 {
      var dates := PlanDates(s, today, missing);
      forall j | |s.occs| <= j < |s.occs| + missing
        ensures AddRows(s, dates).occs[j].date >= WalkDate(s.row.anchor, s.row.interval, Cursor(s, today), 0)
      {
        AddRowsAt(s, dates, j);
        WalkShape(s.row.anchor, s.row.interval, Cursor(s, today), j - |s.occs|);
      }
      AddRowsAt(s, dates, |s.occs|);
    }
  }

  lemma LastOneSkipped(l: Ledger, k: nat, key: string, today: Day, actor: Actor)
    requires Count(l.occs, HasStatus(UNSETTLED)) < 2 && Soonest(l.occs, UNSETTLED) == Some(k)
    ensures var s := SkipAt(l, k, key, actor);
            Count(s.occs, FuturePlanned(today)) == 0 && LatestUnsettled(s.occs) == None
  {
    var s := SkipAt(l, k, key, actor);
    CountUpdate(l.occs, k, s.occs[k], HasStatus(UNSETTLED));
    CountZero(s.occs, HasStatus(UNSETTLED));
    CountMonotone(s.occs, FuturePlanned(today), HasStatus(UNSETTLED));
  }

  /** With a horizon of one it does return: the very date just skipped is planned again. */
  lemma HorizonOneReplansSkippedDate() returns (calls: seq<Call>, l: Ledger, m: Ledger)
    ensures calls == [Call(DoMaterialize, 0, System), Call(DoSkipNext("k"), 0, Customer)]
    ensures l == Run(Created("s", "o", 7, 0), calls[..1], 1) && m == Run(Created("s", "o", 7, 0), calls, 1)
    ensures |l.occs| == 1 && |m.occs| == 2 && m.occs[0] == l.occs[0].(status := Skipped)
    ensures m.occs[1].status == Planned && m.occs[1].date == l.occs[0].date == 7
  {
    hide Step, Keys.IdempotencyKey;
    var (s, c) := Opening(7, 0);
    calls := [c, Call(DoSkipNext("k"), 0, Customer)];
    FirstPlanning(7, 0, 1);
    RunTwo(s, c, calls[1], 1);
    assert calls[..1] == [c];
    l, m := Run(s, calls[..1], 1), Run(s, calls, 1);
    SkipThenReplan(l);
  }

  lemma SkipThenReplan(l: Ledger)
    requires FreshlyPlanned(l, 7, 0, 1)
    ensures var m := Step(l, Call(DoSkipNext("k"), 0, Customer), 1);
            && |m.occs| == 2 && m.occs[0] == l.occs[0].(status := Skipped) && m.occs[1] == PlannedRow(l.row.id, 2, 7)
  {
    hide Keys.IdempotencyKey, Count, NextRun, WalkDate;
    assert l.occs[0] == PlannedRow("s", 1, 7) && l.occs[..0] == [];
    assert Soonest(l.occs, UNSETTLED) == Some(0);
    var s := SkipAt(l, 0, "k", Customer);
    assert LatestUnsettled(s.occs) == None;
    CountZero(s.occs, FuturePlanned(0));
    WalkFromAnchor(0, 7);
    var dates := PlanDates(s, 0, 1);
    AddRowsAt(s, dates, 0);
    AddRowsAt(s, dates, 1);
  }
}
