/**
 The event log determines the state.  `Audit` rebuilds a schedule from its events alone
 and gives up at the first event that could not have happened; every reachable ledger
 is what its own log audits to.  What the log conserves is then proved about audited
 logs, once per event rather than once per transition.
 */
module Audits {
  import opened Wrappers
  import opened Cadence
  import opened Ledgers
  import opened Lifecycle
  import opened Invariants
  import Keys

  /** Everything about a schedule except next_run_date, which depends on the calendar. */
  datatype Picture = Picture(status: ScheduleStatus, interval: int, anchor: Day,
                             pausedUntil: Option<Day>, occs: seq<Occurrence>)

  function PictureOf(l: Ledger): Picture {
    Picture(l.row.status, l.row.interval, l.row.anchor, l.row.pausedUntil, l.occs)
  }

  /** The event names the soonest row with a status in ss, and that row's date. */
  predicate Targets(p: Picture, ss: set<OccurrenceStatus>, seqNo: int, date: Day) {
    && p.status == ScheduleActive
    && 1 <= seqNo <= |p.occs|
    && Soonest(p.occs, ss) == Some(seqNo - 1)
    && p.occs[seqNo - 1].date == date
  }

  ghost predicate Plausible(p: Picture, e: Event) {
    match e.body
    case CreatedEvent(_, _) => false
    case PausedEvent(_, n) => p.status == ScheduleActive && n == Count(p.occs, Cancelable(UNSETTLED))
    case ResumedEvent(anchor, interval, next) =>
      p.status == SchedulePaused && interval == p.interval && next == anchor + interval
    case CadenceChangedEvent(old_, new_, _, n) =>
      && p.status in {ScheduleActive, SchedulePaused} && old_ == p.interval && ValidInterval(new_)
      && n == Count(p.occs, Cancelable({Planned}))
    case CanceledEvent(reason, n) =>
      p.status != ScheduleCanceled && reason in CANCELLATION_REASONS && n == Count(p.occs, Cancelable(UNSETTLED))
    case SkippedEvent(s, d) => Targets(p, UNSETTLED, s, d) && e.key.Some? && ValidKey(e.key.value)
    case DeferredEvent(s, d, to, days) =>
      && Targets(p, UNSETTLED, s, d) && e.key.Some? && ValidKey(e.key.value)
      && to == d + days && ValidDeferDays(days)
    case MaterializedEvent(s, d) =>
      p.status == ScheduleActive && s == |p.occs| + 1 && OnCadence(p.anchor, p.interval, d)
    case ArmedEvent(s, d) => Targets(p, {Planned}, s, d)
  }

  function Advance(id: string, p: Picture, b: Body): Picture {
    match b
    case CreatedEvent(_, _) => p
    case PausedEvent(until, _) =>
      p.(status := SchedulePaused, pausedUntil := until, occs := CancelAll(p.occs, UNSETTLED))
    case ResumedEvent(anchor, _, _) => p.(status := ScheduleActive, pausedUntil := None, anchor := anchor)
    case CadenceChangedEvent(_, interval, anchor, _) =>
      p.(interval := interval, anchor := anchor, occs := CancelAll(p.occs, {Planned}))
    case CanceledEvent(_, _) =>
      p.(status := ScheduleCanceled, pausedUntil := None, occs := CancelAll(p.occs, UNSETTLED))
    case SkippedEvent(s, _) =>
      if 1 <= s <= |p.occs| then p.(occs := p.occs[s - 1 := p.occs[s - 1].(status := Skipped)]) else p
    case DeferredEvent(s, _, to, _) =>
      if 1 <= s <= |p.occs| then p.(occs := p.occs[s - 1 := p.occs[s - 1].(date := to)]) else p
    case MaterializedEvent(s, d) => p.(occs := p.occs + [PlannedRow(id, s, d)])
    case ArmedEvent(s, _) =>
      if 1 <= s <= |p.occs| then p.(occs := p.occs[s - 1 := p.occs[s - 1].(status := Pending)]) else p
  }

  ghost function Audit(id: string, log: seq<Event>): Option<Picture> {
    if |log| == 0 then None
    else
      var e := log[|log| - 1];
      if |log| == 1 then
        if e.body.CreatedEvent? && ValidInterval(e.body.interval)
        then Some(Picture(ScheduleActive, e.body.interval, e.body.anchor, None, [])) else None
      else
        match Audit(id, log[..|log| - 1])
        case Some(p) => if Plausible(p, e) then Some(Advance(id, p, e.body)) else None
        case None => None
  }

  ghost predicate Agrees(l: Ledger) {
    Audit(l.row.id, l.log) == Some(PictureOf(l))
  }

  // ----- the log determines the state -----

  lemma OneMore(l: Ledger, m: Ledger, e: Event)
    requires Agrees(l) && m.row.id == l.row.id && m.log == l.log + [e]
    requires Plausible(PictureOf(l), e) && PictureOf(m) == Advance(l.row.id, PictureOf(l), e.body)
    ensures Agrees(m)
  {
    assert m.log[..|m.log| - 1] == l.log;
  }

  lemma {:induction false} AddRowsAgrees(l: Ledger, dates: seq<Day>)
    requires Agrees(l) && l.row.status == ScheduleActive
    requires forall k :: 0 <= k < |dates| ==> OnCadence(l.row.anchor, l.row.interval, dates[k])
    ensures Agrees(AddRows(l, dates))
  {
    hide AddRows, Audit;
    if |dates| == 0 {
      AddRowsNone(l, dates);
    } else {
      var n := |dates| - 1;
      AddRowsAgrees(l, dates[..n]);
      AddRowsAll(l, dates);
      var p := AddRows(l, dates[..n]);
      OneMore(p, AddRow(p, dates[n]), Event(System, None, MaterializedEvent(|p.occs| + 1, dates[n])));
    }
  }

  lemma MaterializeAgrees(l: Ledger, today: Day, horizon: int)
    requires Agrees(l) && ValidInterval(l.row.interval)
    ensures Agrees(Materialize(l, today, horizon).value)
  {
    hide Audit;
    var missing := Missing(l, today, horizon);
    if l.row.status == ScheduleActive && missing > 0 {
      AddRowsAgrees(l, PlanDates(l, today, missing));
    }
  }

  lemma PauseAgrees(l: Ledger, until: Option<Day>, today: Day, actor: Actor)
    requires Agrees(l)
    ensures var r := Pause(l, until, today, actor); r.Ok? ==> Agrees(r.value)
  {
    hide Audit;
    var r := Pause(l, until, today, actor);
    if r.Ok? {
      OneMore(l, r.value, r.value.log[|l.log|]);
    }
  }

  lemma CancelAgrees(l: Ledger, reason: string, actor: Actor)
    requires Agrees(l) && reason in CANCELLATION_REASONS
    ensures var r := Cancel(l, reason, actor); r.Ok? ==> Agrees(r.value)
  {
    hide Audit;
    var r := Cancel(l, reason, actor);
    if r.Ok? {
      OneMore(l, r.value, r.value.log[|l.log|]);
    }
  }

  lemma ResumeAgrees(l: Ledger, today: Day, actor: Actor, horizon: int)
    requires Agrees(l) && ValidInterval(l.row.interval)
    ensures var r := Resume(l, today, actor, horizon); r.Ok? ==> Agrees(r.value)
  {
    hide Audit, Materialize;
    if l.row.status == SchedulePaused {
      var row := l.row.(status := ScheduleActive, pausedUntil := None, anchor := today);
      var m := Record(l.(row := row), actor, None, ResumedEvent(today, row.interval, today + row.interval));
      OneMore(l, m, m.log[|l.log|]);
      MaterializeAgrees(m, today, horizon);
    }
  }

  lemma SkipNextAgrees(l: Ledger, key: string, today: Day, actor: Actor, horizon: int)
    requires Agrees(l) && WellFormed(l) && ValidKey(key)
    ensures var r := SkipNext(l, key, today, actor, horizon); r.Ok? ==> Agrees(r.value)
  {
    hide Audit, Materialize, SkipRecorded;
    var k := Soonest(l.occs, UNSETTLED);
    if l.row.status == ScheduleActive && k.Some? {
      var m := SkipAt(l, k.value, key, actor);
      OneMore(l, m, m.log[|l.log|]);
      MaterializeAgrees(m, today, horizon);
    }
  }

  lemma DeferAgrees(l: Ledger, days: int, key: string, today: Day, actor: Actor)
    requires Agrees(l) && WellFormed(l) && ValidKey(key) && ValidDeferDays(days)
    ensures var r := Defer(l, days, key, today, actor); r.Ok? ==> Agrees(r.value)
  {
    hide Audit, DeferRecorded, NextRun;
    var k := Soonest(l.occs, UNSETTLED);
    if l.row.status == ScheduleActive && k.Some? {
      var m := DeferAt(l, k.value, days, key, actor);
      OneMore(l, m, m.log[|l.log|]);
    }
  }

  lemma ChangeCadenceAgrees(l: Ledger, interval: int, today: Day, actor: Actor, horizon: int)
    requires Agrees(l) && ValidInterval(interval)
    ensures var r := ChangeCadence(l, interval, today, actor, horizon); r.Ok? ==> Agrees(r.value)
  {
    hide Audit, Materialize;
    if l.row.status in AcceptedIn(ActionChangeCadence) {
      var m := Reanchored(l, interval, today, actor);
      OneMore(l, m, m.log[|l.log|]);
      MaterializeAgrees(m, today, horizon);
    }
  }

  lemma ArmNextAgrees(l: Ledger, actor: Actor)
    requires Agrees(l) && WellFormed(l)
    ensures var r := ArmNext(l, actor); r.Ok? ==> Agrees(r.value)
  {
    hide Audit;
    var k := Soonest(l.occs, {Planned});
    if l.row.status == ScheduleActive && k.Some? {
      var m := ArmAt(l, k.value, actor);
      OneMore(l, m, m.log[|l.log|]);
    }
  }

  lemma StepAgrees(l: Ledger, c: Call, horizon: int)
    requires Agrees(l) && Inv(l)
    ensures Agrees(Step(l, c, horizon))
  {
    hide Pause, Resume, SkipNext, Defer, ChangeCadence, Cancel, ArmNext, Materialize, Agrees;
    if ValidArguments(c.command) {
      match c.command
      case DoPause(until) => PauseAgrees(l, until, c.today, c.actor);
      case DoResume => ResumeAgrees(l, c.today, c.actor, horizon);
      case DoSkipNext(key) => SkipNextAgrees(l, key, c.today, c.actor, horizon);
      case DoDefer(days, key) => DeferAgrees(l, days, key, c.today, c.actor);
      case DoChangeCadence(interval) => ChangeCadenceAgrees(l, interval, c.today, c.actor, horizon);
      case DoCancel(reason) => CancelAgrees(l, reason, c.actor);
      case DoArmNext => ArmNextAgrees(l, c.actor);
      case DoMaterialize => MaterializeAgrees(l, c.today, horizon);
    }
  }

  lemma {:induction false} RunAgrees(l: Ledger, calls: seq<Call>, horizon: int)
    requires Agrees(l) && Inv(l)
    ensures Agrees(Run(l, calls, horizon))
  {
    if |calls| > 0 {
      var most := calls[..|calls| - 1];
      RunAgrees(l, most, horizon);
      RunKeeps(l, most, horizon, 0);
      StepAgrees(Run(l, most, horizon), calls[|calls| - 1], horizon);
    }
  }

  /** From creation on, through any mix of accepted, refused and repeated calls, the log
      alone yields the status, pause date, interval, anchor and every occurrence. */
  lemma LogDeterminesState(id: string, origin: string, interval: int, anchor: Day, calls: seq<Call>, horizon: int)
    requires ValidInterval(interval)
    ensures var l := Run(Created(id, origin, interval, anchor), calls, horizon);
            l.row.id == id && Audit(id, l.log) == Some(PictureOf(l))
  {
    var l := Created(id, origin, interval, anchor);
    RunAgrees(l, calls, horizon);
    RunKeeps(l, calls, horizon, 0);
  }

  // ----- what an audited log conserves -----

  /** No order in an audited history carries an order reference, and nothing is to come
      while a schedule is paused or canceled. */
  lemma {:induction false} AuditShape(id: string, log: seq<Event>)
    requires Audit(id, log).Some?
    ensures var p := Audit(id, log).value;
            && ValidInterval(p.interval)
            && (forall k :: 0 <= k < |p.occs| ==>
                  && p.occs[k].orderId == None && p.occs[k].seqNo == k + 1
                  && p.occs[k].status in {Planned, Pending, Skipped, Canceled})
            && (p.status in {SchedulePaused, ScheduleCanceled} ==>
                  forall k :: 0 <= k < |p.occs| ==> p.occs[k].status !in UNSETTLED)
            && (p.pausedUntil.Some? ==> p.status == SchedulePaused)
  {
    hide Count, Soonest, Keys.IdempotencyKey;
    if |log| > 1 {
      AuditShape(id, log[..|log| - 1]);
    }
  }

  ghost predicate DeferredIn(log: seq<Event>, seqNo: int) {
    exists k :: 0 <= k < |log| && log[k].body.DeferredEvent? && log[k].body.seqNo == seqNo
  }

  /** No drift: a planned order nobody deferred sits on the cadence of the current anchor
      and interval, whatever re-anchoring came before. */
  lemma {:induction false} NoDrift(id: string, log: seq<Event>, k: nat)
    requires Audit(id, log).Some?
    ensures var p := Audit(id, log).value;
            k < |p.occs| && p.occs[k].status == Planned && !DeferredIn(log, k + 1)
            ==> OnCadence(p.anchor, p.interval, p.occs[k].date)
  {
    if |log| > 1 {
      var most, e := log[..|log| - 1], log[|log| - 1];
      var p, q := Audit(id, most).value, Audit(id, log).value;
      NoDrift(id, most, k);
      AuditShape(id, most);
      assert forall j :: 0 <= j < |most| ==> most[j] == log[j];
      if e.body.DeferredEvent? && e.body.seqNo == k + 1 {
        assert DeferredIn(log, k + 1);
      }
    }
  }

  /** The date `seqNo` was first planned for. */
  function PlannedFor(log: seq<Event>, seqNo: int): Day {
    if |log| == 0 then 0
    else
      var b := log[|log| - 1].body;
      if b.MaterializedEvent? && b.seqNo == seqNo then b.date else PlannedFor(log[..|log| - 1], seqNo)
  }

  /** All days `seqNo` was ever pushed back. */
  function DaysDeferred(log: seq<Event>, seqNo: int): int {
    if |log| == 0 then 0
    else
      var b := log[|log| - 1].body;
      DaysDeferred(log[..|log| - 1], seqNo) + (if b.DeferredEvent? && b.seqNo == seqNo then b.days else 0)
  }

  lemma {:induction false} NothingYet(id: string, log: seq<Event>, seqNo: int)
    requires Audit(id, log).Some? && seqNo > |Audit(id, log).value.occs|
    ensures DaysDeferred(log, seqNo) == 0
  {
    if |log| > 1 {
      NothingYet(id, log[..|log| - 1], seqNo);
    } else {
      assert DaysDeferred(log[..0], seqNo) == 0;
    }
  }

  /** An order's date is the date it was planned for plus every deferral it was given. */
  lemma {:induction false} DatesAreConserved(id: string, log: seq<Event>, k: nat)
    requires Audit(id, log).Some? && k < |Audit(id, log).value.occs|
    ensures Audit(id, log).value.occs[k].date == PlannedFor(log, k + 1) + DaysDeferred(log, k + 1)
  {
    if |log| > 1 {
      var most := log[..|log| - 1];
      if k < |Audit(id, most).value.occs| {
        DatesAreConserved(id, most, k);
      } else {
        NothingYet(id, most, k + 1);
      }
    }
  }

  function IsSkip(): Event -> bool { (e: Event) => e.body.SkippedEvent? }

  function IsMaterialized(): Event -> bool { (e: Event) => e.body.MaterializedEvent? }

  /** All rows the log says were canceled. */
  function CanceledTotal(log: seq<Event>): int {
    if |log| == 0 then 0
    else
      CanceledTotal(log[..|log| - 1]) +
      match log[|log| - 1].body
      case PausedEvent(_, n) => n
      case CanceledEvent(_, n) => n
      case CadenceChangedEvent(_, _, _, n) => n
      case _ => 0
  }

  lemma {:induction false} CancelAllCounts(occs: seq<Occurrence>, ss: set<OccurrenceStatus>)
    requires ss <= UNSETTLED
    ensures Count(CancelAll(occs, ss), HasStatus({Canceled}))
            == Count(occs, HasStatus({Canceled})) + Count(occs, Cancelable(ss))
    ensures Count(CancelAll(occs, ss), HasStatus({Skipped})) == Count(occs, HasStatus({Skipped}))
  {
    if |occs| > 0 {
      var n := |occs| - 1;
      assert CancelAll(occs, ss)[..n] == CancelAll(occs[..n], ss);
      CancelAllCounts(occs[..n], ss);
    }
  }

  ghost predicate Balanced(log: seq<Event>, occs: seq<Occurrence>) {
    && Count(occs, HasStatus({Skipped})) == Count(log, IsSkip())
    && Count(occs, HasStatus({Canceled})) == CanceledTotal(log)
    && |occs| == Count(log, IsMaterialized())
  }

  lemma RowChangeCounts(occs: seq<Occurrence>, k: nat, o: Occurrence)
    requires k < |occs| && occs[k].status in UNSETTLED
    ensures Count(occs[k := o], HasStatus({Skipped}))
            == Count(occs, HasStatus({Skipped})) + (if o.status == Skipped then 1 else 0)
    ensures Count(occs[k := o], HasStatus({Canceled}))
            == Count(occs, HasStatus({Canceled})) + (if o.status == Canceled then 1 else 0)
  {
    CountUpdate(occs, k, o, HasStatus({Skipped}));
    CountUpdate(occs, k, o, HasStatus({Canceled}));
  }

  lemma AdvanceBalances(id: string, p: Picture, e: Event)
    requires Plausible(p, e)
    ensures var q := Advance(id, p, e.body);
            && Count(q.occs, HasStatus({Skipped}))
               == Count(p.occs, HasStatus({Skipped})) + (if e.body.SkippedEvent? then 1 else 0)
            && Count(q.occs, HasStatus({Canceled})) == Count(p.occs, HasStatus({Canceled})) + CanceledTotal([e])
            && |q.occs| == |p.occs| + (if e.body.MaterializedEvent? then 1 else 0)
  {
    hide Count;
    assert CanceledTotal([e][..0]) == 0;
    match e.body
    case PausedEvent(_, _) => CancelAllCounts(p.occs, UNSETTLED);
    case CanceledEvent(_, _) => CancelAllCounts(p.occs, UNSETTLED);
    case CadenceChangedEvent(_, _, _, _) => CancelAllCounts(p.occs, {Planned});
    case SkippedEvent(s, _) => RowChangeCounts(p.occs, s - 1, p.occs[s - 1].(status := Skipped));
    case DeferredEvent(s, _, to, _) => RowChangeCounts(p.occs, s - 1, p.occs[s - 1].(date := to));
    case ArmedEvent(s, _) => RowChangeCounts(p.occs, s - 1, p.occs[s - 1].(status := Pending));
    case MaterializedEvent(s, d) =>
      CountAppend(p.occs, PlannedRow(id, s, d), HasStatus({Skipped}));
      CountAppend(p.occs, PlannedRow(id, s, d), HasStatus({Canceled}));
    case ResumedEvent(_, _, _) =>
  }

  /** Skipped orders are exactly the skips the log records; canceled orders are exactly
      the sum of the counts its events announce; orders are exactly the materializations. */
  lemma {:induction false} RowsAreConserved(id: string, log: seq<Event>)
    requires Audit(id, log).Some?
    ensures Balanced(log, Audit(id, log).value.occs)
  {
    hide Advance, Plausible;
    if |log| > 1 {
      var most, e := log[..|log| - 1], log[|log| - 1];
      RowsAreConserved(id, most);
      AdvanceBalances(id, Audit(id, most).value, e);
      assert CanceledTotal([e][..0]) == 0;
    } else {
      var none := log[..0];
      assert Count(none, IsSkip()) == Count(none, IsMaterialized()) == CanceledTotal(none) == 0;
      assert Count<Occurrence>([], HasStatus({Skipped})) == Count<Occurrence>([], HasStatus({Canceled})) == 0;
    }
  }

  /** The same for every reachable schedule, row by row. */
  lemma RunsConserve(id: string, origin: string, interval: int, anchor: Day, calls: seq<Call>, horizon: int, k: nat)
    requires ValidInterval(interval)
    ensures var l := Run(Created(id, origin, interval, anchor), calls, horizon);
            && Balanced(l.log, l.occs)
            && (k < |l.occs| ==>
                  && l.occs[k].date == PlannedFor(l.log, k + 1) + DaysDeferred(l.log, k + 1)
                  && (l.occs[k].status == Planned && !DeferredIn(l.log, k + 1)
                      ==> OnCadence(l.row.anchor, l.row.interval, l.occs[k].date)))
  {
    hide Audit, Balanced, Run;
    LogDeterminesState(id, origin, interval, anchor, calls, horizon);
    var l := Run(Created(id, origin, interval, anchor), calls, horizon);
    RowsAreConserved(id, l.log);
    NoDrift(id, l.log, k);
    if k < |l.occs| {
      DatesAreConserved(id, l.log, k);
    }
  }
}
