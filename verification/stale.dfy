/**
 The sweeps look before they lock.  What may happen in between without harm, exactly when
 the act that follows is still due, and two histories in which it is not.
 */
module StaleChecks {
  import opened Wrappers
  import opened Cadence
  import opened Ledgers
  import opened Lifecycle
  import opened Invariants
  import opened Audits
  import opened Horizons
  import opened Histories
  import opened Sweeps
  import Keys

  // ----- arming -----

  /** An accepted arming arms an order that is due exactly when, under the lock, the
      schedule has one due. */
  lemma ArmActsOnDueIff(m: Ledger, actor: Actor, local: Day, after: Ledger)
    requires ArmNext(m, actor) == Ok(after)
    ensures |after.log| == |m.log| + 1 && after.log[|m.log|].body.ArmedEvent?
    ensures after.log[|m.log|].body.date - ARM_WINDOW_DAYS <= local <==> DueToArm(m, local)
  {
    SoonestDecidesDue(m, local);
  }

  /** Calls that change nothing, top up, pause or cancel. */
  ghost predicate LeavesOrders(l: Ledger, calls: seq<Call>, horizon: int) {
    |calls| > 0 ==>
      var n := |calls| - 1;
      var p, c := Run(l, calls[..n], horizon), calls[n];
      && LeavesOrders(l, calls[..n], horizon)
      && (c.command.DoMaterialize? || c.command.DoPause? || c.command.DoCancel? || Step(p, c, horizon) == p)
  }

  lemma {:induction false} OrdersStay(l: Ledger, calls: seq<Call>, horizon: int)
    requires Inv(l) && LeavesOrders(l, calls, horizon)
    ensures var m := Run(l, calls, horizon);
            m.row.status == ScheduleActive ==> l.row.status == ScheduleActive && l.occs <= m.occs
  {
    hide Step, Inv;
    if |calls| > 0 {
      var n := |calls| - 1;
      OrdersStay(l, calls[..n], horizon);
      RunKeeps(l, calls[..n], horizon, 0);
      OneCallLeavesOrders(Run(l, calls[..n], horizon), calls[n], horizon);
    }
  }

  lemma OneCallLeavesOrders(p: Ledger, c: Call, horizon: int)
    requires c.command.DoMaterialize? || c.command.DoPause? || c.command.DoCancel? || Step(p, c, horizon) == p
    ensures var m := Step(p, c, horizon);
            m.row.status == ScheduleActive ==> p.row.status == ScheduleActive && p.occs <= m.occs
  {
    hide NextRun, Count, WalkDate, CancelAll;
    if !(c.command.DoMaterialize? || c.command.DoPause? || c.command.DoCancel?) {
      hide Step;
    }
  }

  /** A check the sweep made stays good through any such calls: if the schedule is then
      still active, arming it acts on an order that is due. */
  lemma CheckStaysGood(l: Ledger, calls: seq<Call>, local: Day, actor: Actor, horizon: int)
    requires Inv(l) && DueToArm(l, local) && LeavesOrders(l, calls, horizon)
    ensures var m := Run(l, calls, horizon);
            && (m.row.status == ScheduleActive ==> DueToArm(m, local))
            && (ArmNext(m, actor).Ok? ==> DueToArm(m, local))
  {
    OrdersStay(l, calls, horizon);
    var m := Run(l, calls, horizon);
    if m.row.status == ScheduleActive {
      var k :| 0 <= k < |l.occs| && l.occs[k].status == Planned && l.occs[k].date - ARM_WINDOW_DAYS <= local;
      assert m.occs[k] == l.occs[k];
    }
  }

  // ----- resuming -----

  /** The date the latest pause on record ends, if it does. */
  function LastPauseUntil(log: seq<Event>): Option<Day> {
    if |log| == 0 then None
    else
      match log[|log| - 1].body
      case PausedEvent(until, _) => until
      case _ => LastPauseUntil(log[..|log| - 1])
  }

  lemma {:induction false} PauseDateIsLastPause(id: string, log: seq<Event>)
    requires Audit(id, log).Some? && Audit(id, log).value.status == SchedulePaused
    ensures Audit(id, log).value.pausedUntil == LastPauseUntil(log)
  {
    hide Count, Soonest, CancelAll, Keys.IdempotencyKey;
    if |log| > 1 && !log[|log| - 1].body.PausedEvent? {
      PauseDateIsLastPause(id, log[..|log| - 1]);
    }
  }

  /** In any reachable state an accepted resume ends a pause that is due exactly when the
      latest pause on record has an end and that has come. */
  lemma ResumeActsOnDueIff(id: string, origin: string, interval: int, anchor: Day, calls: seq<Call>, horizon: int,
                           actor: Actor, local: Day)
    requires ValidInterval(interval)
    requires Resume(Run(Created(id, origin, interval, anchor), calls, horizon), local, actor, horizon).Ok?
    ensures var m := Run(Created(id, origin, interval, anchor), calls, horizon);
            DueToResume(m, local) <==> LastPauseUntil(m.log).Some? && LastPauseUntil(m.log).value <= local
  {
    hide Audit, Run, Materialize;
    LogDeterminesState(id, origin, interval, anchor, calls, horizon);
    PauseDateIsLastPause(id, Run(Created(id, origin, interval, anchor), calls, horizon).log);
  }

  /** No pause is accepted on the way. */
  ghost predicate NoNewPause(l: Ledger, calls: seq<Call>, horizon: int) {
    |calls| > 0 ==>
      var n := |calls| - 1;
      && NoNewPause(l, calls[..n], horizon)
      && (calls[n].command.DoPause? ==> Apply(Run(l, calls[..n], horizon), calls[n], horizon).Err?)
  }

  lemma {:induction false} PauseStays(l: Ledger, calls: seq<Call>, horizon: int)
    requires Inv(l) && NoNewPause(l, calls, horizon)
    ensures var m := Run(l, calls, horizon);
            m.row.status == SchedulePaused ==> l.row.status == SchedulePaused && m.row.pausedUntil == l.row.pausedUntil
  {
    hide Apply, Inv;
    if |calls| > 0 {
      var n := |calls| - 1;
      PauseStays(l, calls[..n], horizon);
      RunKeeps(l, calls[..n], horizon, 0);
      OneCallKeepsPause(Run(l, calls[..n], horizon), calls[n], horizon);
    }
  }

  lemma OneCallKeepsPause(p: Ledger, c: Call, horizon: int)
    requires c.command.DoPause? ==> Apply(p, c, horizon).Err?
    ensures var m := Step(p, c, horizon);
            m.row.status == SchedulePaused ==> p.row.status == SchedulePaused && m.row.pausedUntil == p.row.pausedUntil
  {
    hide NextRun, Count, WalkDate, CancelAll, Soonest, LastPlaced, SkipRecorded, DeferRecorded, AddRows;
  }

  /** So a pause the sweep found due is still the one it ends, unless another was accepted
      in between. */
  lemma DuePauseStaysDue(l: Ledger, calls: seq<Call>, local: Day, actor: Actor, horizon: int)
    requires Inv(l) && DueToResume(l, local) && NoNewPause(l, calls, horizon)
    ensures var m := Run(l, calls, horizon);
            Resume(m, local, actor, horizon).Ok? ==> DueToResume(m, local)
  {
    hide Run, Materialize, Inv, NoNewPause;
    PauseStays(l, calls, horizon);
  }

  // ----- two histories in which it goes wrong -----

  /** Planned for days 30 and 60 and checked on day 28; the customer skips the first; the
      sweep arms the second, more than a month early. */
  lemma StaleArmCheck() returns (calls: seq<Call>, l: Ledger, between: Ledger, after: Ledger)
    ensures calls == [Call(DoMaterialize, 0, System), Call(DoSkipNext("k"), 28, Customer), Call(DoArmNext, 28, System)]
    ensures l == Run(Created("s", "o", 30, 0), calls[..1], 2) && DueToArm(l, 28)
    ensures between == Run(Created("s", "o", 30, 0), calls[..2], 2) && !DueToArm(between, 28)
    ensures after == Run(Created("s", "o", 30, 0), calls, 2)
    ensures |between.occs| >= 2 && |after.occs| >= 2 && between.occs[1].date == 60
    ensures between.occs[1].status == Planned && after.occs[1] == between.occs[1].(status := Pending)
  {
    hide Step, Keys.IdempotencyKey;
    var (s, c) := Opening(30, 0);
    calls := [c, Call(DoSkipNext("k"), 28, Customer), Call(DoArmNext, 28, System)];
    FirstPlanning(30, 0, 2);
    RunTwo(s, c, calls[1], 2);
    RunThree(s, c, calls[1], calls[2], 2);
    assert calls[..1] == [c] && calls[..2] == [c, calls[1]];
    l, between, after := Run(s, calls[..1], 2), Run(s, calls[..2], 2), Run(s, calls, 2);
    var a, b := PlannedRow("s", 1, 30), PlannedRow("s", 2, 60);
    assert l.occs == [a, b];
    assert l.occs[0].status == Planned && l.occs[0].date - ARM_WINDOW_DAYS <= 28;
    var rest := SkipsTheFirst(l, a, b);
    ArmsTheSecond(between, a.(status := Skipped), b, rest);
  }

  lemma SkipsTheFirst(l: Ledger, a: Occurrence, b: Occurrence) returns (rest: seq<Occurrence>)
    requires FreshlyPlanned(l, 30, 0, 2) && l.occs == [a, b]
    requires a == PlannedRow("s", 1, 30) && b == PlannedRow("s", 2, 60)
    ensures var m := Step(l, Call(DoSkipNext("k"), 28, Customer), 2);
            m.row.status == ScheduleActive && m.occs == [a.(status := Skipped), b] + rest
    ensures forall k :: 0 <= k < |rest| ==> rest[k].date > 60
  {
    hide Keys.IdempotencyKey, Count, NextRun, WalkDate, FirstAfter, AddRows, LatestUnsettled, ReachLimit;
    SoonestOfTwo(a, b, [], UNSETTLED);
    assert [a, b] + [] == [a, b];
    var s := SkipAt(l, 0, "k", Customer);
    assert s.occs == [a.(status := Skipped), b];
    SecondIsLatest(s, b);
    var missing := Missing(s, 28, 2);
    var n := if missing > 0 then missing else 0;
    var dates := PlanDates(s, 28, n);
    var m := AddRows(s, dates);
    rest := if missing > 0 then m.occs[2..] else [];
    if missing > 0 {
      assert m.occs == [a.(status := Skipped), b] + rest;
    }
    forall k | 0 <= k < |rest| ensures rest[k].date > 60 {
      AddRowsAt(s, dates, k + 2);
      PlanDatesPastFloor(s, 28, n, k);
      FarReach(30);
    }
  }

  lemma FarReach(interval: int)
    requires ValidInterval(interval)
    ensures ReachLimit(0, interval) > 61
  {
    ReachIsFar(interval);
    NthMonotone(0, interval, 500, LastReachable(interval));
    NthMonotone(0, 7, 1, 500);
    assert Nth(0, interval, 500) == 500 * interval;
  }

  lemma SecondIsLatest(s: Ledger, b: Occurrence)
    requires |s.occs| == 2 && s.occs[0].status == Skipped && s.occs[1] == b && b.status == Planned
    ensures LatestUnsettled(s.occs) == Some(b.date)
  {
    LatestIs(s.occs, 1);
  }

  lemma ArmsTheSecond(m: Ledger, gone: Occurrence, b: Occurrence, rest: seq<Occurrence>)
    requires m.row.status == ScheduleActive && m.occs == [gone, b] + rest && gone.status == Skipped
    requires b.status == Planned && b.date == 60 && gone.seqNo < b.seqNo
    requires forall k :: 0 <= k < |rest| ==> rest[k].date > 60
    ensures !DueToArm(m, 28)
    ensures var n := Step(m, Call(DoArmNext, 28, System), 2);
            |n.occs| == |m.occs| && n.occs[1] == b.(status := Pending)
  {
    SoonestOfTwo(gone, b, rest, {Planned});
    assert m.occs[1] == b;
    SoonestDecidesDue(m, 28);
  }

  /** Paused until day 5; on that day the customer resumes and pauses again until day 9;
      the sweep, having listed the first pause, ends the second. */
  lemma StaleResumeCheck() returns (calls: seq<Call>, l: Ledger, again: Ledger, after: Ledger)
    ensures calls == [Call(DoPause(Some(5)), 0, Customer), Call(DoResume, 5, Customer),
                      Call(DoPause(Some(9)), 5, Customer), Call(DoResume, 5, System)]
    ensures l == Run(Created("s", "o", 7, 0), calls[..1], 2) && DueToResume(l, 5)
    ensures again == Run(Created("s", "o", 7, 0), calls[..3], 2)
    ensures again.row.status == SchedulePaused && again.row.pausedUntil == Some(9) && !DueToResume(again, 5)
    ensures after == Run(Created("s", "o", 7, 0), calls, 2) && after.row.status == ScheduleActive
  {
    hide Step, Inv;
    var s := Created("s", "o", 7, 0);
    var c0, c1, c2, c3 := Call(DoPause(Some(5)), 0, Customer), Call(DoResume, 5, Customer),
                          Call(DoPause(Some(9)), 5, Customer), Call(DoResume, 5, System);
    calls := [c0, c1, c2, c3];
    RunTwo(s, c0, c1, 2);
    RunThree(s, c0, c1, c2, 2);
    RunFour(s, c0, c1, c2, c3, 2);
    assert calls[..1] == [c0] && calls[..3] == [c0, c1, c2];
    CreatedIsGood("s", "o", 7, 0);
    l, again, after := Run(s, calls[..1], 2), Run(s, calls[..3], 2), Run(s, calls, 2);
    PausesUntil(s, c0, 5, 2);
    StepKeeps(s, c0, 2);
    var active := Step(l, c1, 2);
    ResumesTo(l, c1, 2);
    StepKeeps(l, c1, 2);
    PausesUntil(active, c2, 9, 2);
    StepKeeps(active, c2, 2);
    ResumesTo(again, c3, 2);
  }

  lemma ResumesTo(l: Ledger, c: Call, horizon: int)
    requires Inv(l) && l.row.status == SchedulePaused && c.command == DoResume && horizon >= 1
    ensures Step(l, c, horizon).row.status == ScheduleActive
  {
    hide Resume;
    ResumeAnnouncesNextRun(l, c.today, c.actor, horizon);
  }
}
