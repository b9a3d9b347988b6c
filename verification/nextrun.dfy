/**
 What next_run_date means.  It is written when a transition refreshes it and left alone
 by ArmNext, so it is not simply the earliest planned date: it is the earliest date,
 past the date of the last refresh, among the orders planned now or armed since.
 */
module NextRuns {
  import opened Wrappers
  import opened Cadence
  import opened Ledgers
  import opened Lifecycle
  import opened Invariants
  import opened Histories
  import Keys

  /** A ledger together with its last refresh: the date it used, and the rows armed since. */
  datatype Tracked = Tracked(l: Ledger, asOf: Day, armed: set<nat>)

  function TrackedStep(t: Tracked, c: Call, horizon: int): Tracked {
    var m := Step(t.l, c, horizon);
    if Apply(t.l, c, horizon).Err? then t
    else
      match c.command
      case DoSkipNext(key) => if SkipRecorded(t.l.log, key) then t else Tracked(m, c.today, {})
      case DoDefer(_, key) => if DeferRecorded(t.l.log, key) then t else Tracked(m, c.today, {})
      case DoArmNext => Tracked(m, t.asOf, t.armed + {Soonest(t.l.occs, {Planned}).value})
      case DoMaterialize => if t.l.row.status == ScheduleActive then Tracked(m, c.today, {}) else t
      case _ => Tracked(m, c.today, {})
  }

  function TrackedRun(t: Tracked, calls: seq<Call>, horizon: int): (r: Tracked)
    ensures r.l == Run(t.l, calls, horizon)
  {
    if |calls| == 0 then t
    else TrackedStep(TrackedRun(t, calls[..|calls| - 1], horizon), calls[|calls| - 1], horizon)
  }

  ghost predicate Counted(t: Tracked, k: nat) {
    k < |t.l.occs| && (t.l.occs[k].status == Planned || k in t.armed) && t.l.occs[k].date > t.asOf
  }

  ghost predicate Meaning(t: Tracked) {
    && (forall k :: k in t.armed ==> k < |t.l.occs| && t.l.occs[k].status == Pending)
    && (forall k: nat :: Counted(t, k) ==> t.l.row.nextRun.Some? && t.l.row.nextRun.value <= t.l.occs[k].date)
    && (t.l.row.nextRun.Some? ==> exists k: nat :: Counted(t, k) && t.l.occs[k].date == t.l.row.nextRun.value)
  }

  /** A refresh re-establishes the meaning from nothing. */
  lemma RefreshMeans(l: Ledger, today: Day)
    ensures Meaning(Tracked(Refresh(l, today), today, {}))
  {
    var t := Tracked(Refresh(l, today), today, {});
    var next := NextRun(l.occs, today);
    assert forall k: nat :: Counted(t, k) ==> FuturePlanned(today)(l.occs[k]);
    if next.Some? {
      var k :| 0 <= k < |l.occs| && FuturePlanned(today)(l.occs[k]) && l.occs[k].date == next.value;
      assert Counted(t, k);
    }
  }

  lemma MaterializeMeans(l: Ledger, today: Day, horizon: int)
    requires ValidInterval(l.row.interval) && l.row.status == ScheduleActive
    ensures Meaning(Tracked(Materialize(l, today, horizon).value, today, {}))
  {
    hide Refresh, AddRows, Meaning;
    var missing := Missing(l, today, horizon);
    RefreshMeans(if missing <= 0 then l else AddRows(l, PlanDates(l, today, missing)), today);
  }

  lemma QuietMeans(l: Ledger, today: Day)
    requires Quiet(l)
    ensures Meaning(Tracked(l, today, {}))
  {
  }

  lemma ArmMeans(t: Tracked, c: Call, horizon: int)
    requires Meaning(t) && c.command.DoArmNext?
    ensures Meaning(TrackedStep(t, c, horizon))
  {
    var r := Soonest(t.l.occs, {Planned});
    if t.l.row.status == ScheduleActive && r.Some? {
      var u := TrackedStep(t, c, horizon);
      assert forall k: nat :: Counted(u, k) <==> Counted(t, k);
      if t.l.row.nextRun.Some? {
        var k: nat :| Counted(t, k) && t.l.occs[k].date == t.l.row.nextRun.value;
        assert Counted(u, k);
      }
    }
  }

  lemma StepMeans(t: Tracked, c: Call, horizon: int)
    requires Inv(t.l) && Meaning(t)
    ensures Meaning(TrackedStep(t, c, horizon))
  {
    hide Materialize, Meaning, SkipRecorded, DeferRecorded, Refresh, CancelAll, WellFormed;
    var l, today := t.l, c.today;
    if Apply(l, c, horizon).Ok? {
      StepKeeps(l, c, horizon);
      match c.command
      case DoPause(_) => QuietMeans(Step(l, c, horizon), today);
      case DoCancel(_) => QuietMeans(Step(l, c, horizon), today);
      case DoResume =>
        var row := l.row.(status := ScheduleActive, pausedUntil := None, anchor := today);
        MaterializeMeans(Record(l.(row := row), c.actor, None,
                                ResumedEvent(today, row.interval, today + row.interval)), today, horizon);
      case DoSkipNext(key) =>
        if !SkipRecorded(l.log, key) {
          IntervalStaysValid(l);
          MaterializeMeans(SkipAt(l, Soonest(l.occs, UNSETTLED).value, key, c.actor), today, horizon);
        }
      case DoDefer(days, key) =>
        if !DeferRecorded(l.log, key) {
          RefreshMeans(DeferAt(l, Soonest(l.occs, UNSETTLED).value, days, key, c.actor), today);
        }
      case DoChangeCadence(interval) =>
        if l.row.status == ScheduleActive {
          MaterializeMeans(Reanchored(l, interval, today, c.actor), today, horizon);
        } else {
          QuietMeans(Step(l, c, horizon), today);
        }
      case DoArmNext => ArmMeans(t, c, horizon);
      case DoMaterialize =>
        IntervalStaysValid(l);
        if l.row.status == ScheduleActive {
          MaterializeMeans(l, today, horizon);
        }
    }
  }

  lemma IntervalStaysValid(l: Ledger)
    requires WellFormed(l)
    ensures ValidInterval(l.row.interval)
  {
  }

  /** In every reachable state next_run_date is exactly what it is meant to be. */
  lemma {:induction false} NextRunMeaning(id: string, origin: string, interval: int, anchor: Day, asOf: Day,
                                          calls: seq<Call>, horizon: int)
    requires ValidInterval(interval)
    ensures Meaning(TrackedRun(Tracked(Created(id, origin, interval, anchor), asOf, {}), calls, horizon))
  {
    var t := Tracked(Created(id, origin, interval, anchor), asOf, {});
    if |calls| > 0 {
      var most := calls[..|calls| - 1];
      NextRunMeaning(id, origin, interval, anchor, asOf, most, horizon);
      RunKeeps(t.l, most, horizon, 0);
      StepMeans(TrackedRun(t, most, horizon), calls[|calls| - 1], horizon);
    }
  }

  /** An order armed since the refresh, past its date, that no planned order precedes or
      shares a date with: the first one to come is armed, and nothing planned matches it. */
  ghost predicate ArmedFirst(t: Tracked, k: nat) {
    && k in t.armed && k < |t.l.occs| && t.l.occs[k].date > t.asOf
    && forall j :: 0 <= j < |t.l.occs| && FuturePlanned(t.asOf)(t.l.occs[j]) ==> t.l.occs[j].date > t.l.occs[k].date
  }

  /** The simple reading -- the earliest planned date past a given day -- is right exactly
      while no order armed since the refresh comes before every planned one, the recorded
      date itself is still ahead, and no planned date lies between the two days. */
  lemma NextRunIsEarliestPlannedIff(t: Tracked, today: Day)
    requires Meaning(t)
    ensures t.l.row.nextRun == NextRun(t.l.occs, today)
            <==> && (forall k: nat :: !ArmedFirst(t, k))
                 && (t.l.row.nextRun.Some? ==> t.l.row.nextRun.value > today)
                 && (forall k :: 0 <= k < |t.l.occs| && FuturePlanned(today)(t.l.occs[k]) ==> t.l.occs[k].date > t.asOf)
  {
    var occs, next := t.l.occs, t.l.row.nextRun;
    if k: nat :| ArmedFirst(t, k) {
      assert Counted(t, k);
      assert next != NextRun(occs, today);
    } else {
      AsOfTheRefresh(t);
      if (next.Some? ==> next.value > today)
         && forall k :: 0 <= k < |occs| && FuturePlanned(today)(occs[k]) ==> occs[k].date > t.asOf
      {
        forall k | 0 <= k < |occs| && FuturePlanned(today)(occs[k]) ensures next.Some? && next.value <= occs[k].date {
          assert FuturePlanned(t.asOf)(occs[k]);
        }
        if next.Some? {
          var k :| 0 <= k < |occs| && FuturePlanned(t.asOf)(occs[k]) && occs[k].date == next.value;
          assert FuturePlanned(today)(occs[k]);
        }
        NextRunUnique(occs, today, next);
      } else if k :| 0 <= k < |occs| && FuturePlanned(today)(occs[k]) && occs[k].date <= t.asOf {
        assert next.Some? ==> next.value > t.asOf;
      }
    }
  }

  lemma AsOfTheRefresh(t: Tracked)
    requires Meaning(t) && forall k: nat :: !ArmedFirst(t, k)
    ensures t.l.row.nextRun == NextRun(t.l.occs, t.asOf)
  {
    var occs, next := t.l.occs, t.l.row.nextRun;
    forall k | 0 <= k < |occs| && FuturePlanned(t.asOf)(occs[k]) ensures next.Some? && next.value <= occs[k].date {
      assert Counted(t, k);
    }
    if next.Some? {
      var k: nat :| Counted(t, k) && occs[k].date == next.value;
      if occs[k].status == Planned {
        assert FuturePlanned(t.asOf)(occs[k]);
      } else {
        assert !ArmedFirst(t, k);
        var j :| 0 <= j < |occs| && FuturePlanned(t.asOf)(occs[j]) && occs[j].date <= occs[k].date;
        assert Counted(t, j);
      }
    }
    NextRunUnique(occs, t.asOf, next);
  }

  /** It fails both ways.  Planned for days 7 and 14, the date still reads 7 on day 8; and
      once the first order is armed it reads 7 although 14 is the earliest planned. */
  lemma NextRunFallsBehind() returns (calls: seq<Call>, l: Ledger, m: Ledger)
    ensures calls == [Call(DoMaterialize, 0, System), Call(DoArmNext, 5, System)]
    ensures l == Run(Created("s", "o", 7, 0), calls[..1], 2) && m == Run(Created("s", "o", 7, 0), calls, 2)
    ensures l.row.nextRun == Some(7) && NextRun(l.occs, 8) == Some(14)
    ensures m.row.nextRun == Some(7) && NextRun(m.occs, 5) == Some(14)
  {
    hide Step, NextRun, Keys.IdempotencyKey;
    var (s, c) := Opening(7, 0);
    calls := [c, Call(DoArmNext, 5, System)];
    FirstPlanning(7, 0, 2);
    RunTwo(s, c, calls[1], 2);
    assert calls[..1] == [c];
    l, m := Run(s, calls[..1], 2), Run(s, calls, 2);
    var a, b := PlannedRow("s", 1, 7), PlannedRow("s", 2, 14);
    assert l.occs == [a, b];
    ArmsTheFirst(l, a, b);
    NextRunUnique(l.occs, 8, Some(14)) by {
      assert FuturePlanned(8)(l.occs[1]);
    }
    NextRunUnique(m.occs, 5, Some(14)) by {
      assert FuturePlanned(5)(m.occs[1]);
    }
  }

  lemma ArmsTheFirst(l: Ledger, a: Occurrence, b: Occurrence)
    requires l.row.status == ScheduleActive && l.occs == [a, b] && a.status == Planned && b.status == Planned
    requires a.seqNo < b.seqNo && a.date < b.date
    ensures var m := Step(l, Call(DoArmNext, 5, System), 2);
            m.row == l.row && m.occs == [a.(status := Pending), b]
  {
    SoonestOfTwo(a, b, [], {Planned});
    assert [a, b] + [] == [a, b];
  }
}
