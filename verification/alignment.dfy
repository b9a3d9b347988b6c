/**
 Which orders are on the cadence.  Planned ones always, unless deferred (`NoDrift`); an
 armed one stays until a cadence change finds it armed, and after the change is on the new
 cadence only if its date happens to be.
 */
module Alignment {
  import opened Wrappers
  import opened Cadence
  import opened Ledgers
  import opened Lifecycle
  import opened Invariants
  import opened Audits
  import opened Histories
  import Keys

  /** Some cadence change found order `seqNo` armed. */
  ghost predicate LeftBehind(id: string, log: seq<Event>, seqNo: int) {
    |log| > 1 &&
    var n := |log| - 1;
    || LeftBehind(id, log[..n], seqNo)
    || (log[n].body.CadenceChangedEvent? &&
        match Audit(id, log[..n])
        case Some(p) => 1 <= seqNo <= |p.occs| && p.occs[seqNo - 1].status == Pending
        case None => false)
  }

  /** Planned or armed, an order nobody deferred sits on the current cadence, unless a
      cadence change once found it armed. */
  lemma {:induction false} UnsettledOnCadence(id: string, log: seq<Event>, k: nat)
    requires Audit(id, log).Some?
    ensures var p := Audit(id, log).value;
            k < |p.occs| && p.occs[k].status in UNSETTLED && !DeferredIn(log, k + 1) && !LeftBehind(id, log, k + 1)
            ==> OnCadence(p.anchor, p.interval, p.occs[k].date)
  {
    hide Plausible, Advance, OnCadence, DeferredIn;
    if |log| > 1 {
      var most, e := log[..|log| - 1], log[|log| - 1];
      UnsettledOnCadence(id, most, k);
      AuditShape(id, most);
      DeferredStays(log, k + 1);
      OneEventOnCadence(id, Audit(id, most).value, e, k);
    }
  }

  /** What one event does to an order: it comes to be on the cadence, stays where it was
      under an unchanged cadence, or is no longer to come. */
  lemma OneEventOnCadence(id: string, p: Picture, e: Event, k: nat)
    requires Plausible(p, e)
    requires p.status in {SchedulePaused, ScheduleCanceled} ==>
               forall j :: 0 <= j < |p.occs| ==> p.occs[j].status !in UNSETTLED
    requires forall j :: 0 <= j < |p.occs| ==> p.occs[j].orderId == None
    ensures var q := Advance(id, p, e.body);
            && k < |q.occs| && q.occs[k].status in UNSETTLED
            && !(e.body.DeferredEvent? && e.body.seqNo == k + 1)
            && !(e.body.CadenceChangedEvent? && k < |p.occs| && p.occs[k].status == Pending)
            ==>
              || OnCadence(q.anchor, q.interval, q.occs[k].date)
              || (k < |p.occs| && p.occs[k].status in UNSETTLED && p.occs[k].date == q.occs[k].date
                  && q.anchor == p.anchor && q.interval == p.interval)
  {
    hide Count, Soonest, Keys.IdempotencyKey, OnCadence, CancelAll;
  }

  lemma DeferredStays(log: seq<Event>, seqNo: int)
    requires |log| > 0
    ensures var n := |log| - 1;
            DeferredIn(log, seqNo)
            <==> DeferredIn(log[..n], seqNo) || (log[n].body.DeferredEvent? && log[n].body.seqNo == seqNo)
  {
    assert forall j :: 0 <= j < |log| - 1 ==> log[..|log| - 1][j] == log[j];
  }

  lemma RunsStayOnCadence(id: string, origin: string, interval: int, anchor: Day, calls: seq<Call>, horizon: int,
                          k: nat)
    requires ValidInterval(interval)
    ensures var l := Run(Created(id, origin, interval, anchor), calls, horizon);
            k < |l.occs| && l.occs[k].status in UNSETTLED
            && !DeferredIn(l.log, k + 1) && !LeftBehind(id, l.log, k + 1)
            ==> OnCadence(l.row.anchor, l.row.interval, l.occs[k].date)
  {
    hide Audit, Run, LeftBehind, DeferredIn, OnCadence;
    LogDeterminesState(id, origin, interval, anchor, calls, horizon);
    UnsettledOnCadence(id, Run(Created(id, origin, interval, anchor), calls, horizon).log, k);
  }

  /** d is the anchor or on the cadence from there. */
  ghost predicate OnGrid(anchor: Day, interval: int, d: Day) {
    exists n :: n >= 0 && d == Nth(anchor, interval, n)
  }

  lemma CadenceIsOnGrid(anchor: Day, interval: int, d: Day)
    ensures OnGrid(anchor, interval, d) <==> d == anchor || OnCadence(anchor, interval, d)
  {
    assert Nth(anchor, interval, 0) == anchor;
    if OnGrid(anchor, interval, d) {
      var n :| n >= 0 && d == Nth(anchor, interval, n);
      assert n == 0 || n >= 1;
    }
  }

  /** How the repository's random test looks at a date. */
  predicate IsAnchorAligned(anchor: Day, interval: int, d: Day)
    requires interval > 0
  {
    DaysUntil(anchor, d) >= 0 && DaysUntil(anchor, d) % interval == 0
  }

  /** It sees exactly the grid as far as a duration reaches, and past that only whether the
      interval divides the longest one. */
  lemma TestSeesGrid(anchor: Day, interval: int, d: Day)
    requires interval > 0
    ensures IsAnchorAligned(anchor, interval, d)
            <==> if d - anchor <= MAX_SPAN then OnGrid(anchor, interval, d) else MAX_SPAN % interval == 0
  {
    DaysUntilSaturates(anchor, d);
    var e := d - anchor;
    if 0 <= e <= MAX_SPAN {
      if e % interval == 0 {
        assert d == Nth(anchor, interval, e / interval);
      }
      if n :| n >= 0 && d == Nth(anchor, interval, n) {
        MultipleHasNoRest(n, interval);
      }
    } else if e < 0 {
      forall n | n >= 0 ensures d != Nth(anchor, interval, n) {
        NthMonotone(anchor, interval, 0, n);
      }
    }
  }

  lemma MultipleHasNoRest(n: int, interval: int)
    requires interval > 0 && n >= 0
    ensures (n * interval) % interval == 0
  {
    var q, r := (n * interval) / interval, (n * interval) % interval;
    assert n * interval == interval * q + r;
    assert interval * (n - q) == r;
    assert n - q >= 1 ==> interval * (n - q) >= interval;
    assert n - q <= -1 ==> interval * (n - q) <= -interval;
  }

  /** What that test asks of every state: each order still to come that nobody deferred is
      the anchor itself or on the cadence from there. */
  ghost predicate Aligned(l: Ledger) {
    forall k :: 0 <= k < |l.occs| && l.occs[k].status in UNSETTLED && !DeferredIn(l.log, k + 1)
      ==> OnGrid(l.row.anchor, l.row.interval, l.occs[k].date)
  }

  /** A cadence change keeps that exactly when each armed order nobody deferred already
      stands on the new cadence. */
  lemma ChangeCadenceAlignsIff(l: Ledger, interval: int, today: Day, actor: Actor, horizon: int, m: Ledger)
    requires Inv(l) && ValidInterval(interval) && ChangeCadence(l, interval, today, actor, horizon) == Ok(m)
    ensures Aligned(m)
            <==> forall k :: 0 <= k < |l.occs| && l.occs[k].status == Pending && !DeferredIn(l.log, k + 1)
                   ==> OnGrid(NewAnchor(l, today), interval, l.occs[k].date)
  {
    hide OnCadence, OnGrid, DeferredIn, NewAnchor;
    ChangeCadenceRows(l, interval, today, actor, horizon, m);
    var a := NewAnchor(l, today);
    forall k | |l.occs| <= k < |m.occs| ensures OnGrid(a, interval, m.occs[k].date) {
      CadenceIsOnGrid(a, interval, m.occs[k].date);
    }
    if Aligned(m) {
      forall k | 0 <= k < |l.occs| && l.occs[k].status == Pending && !DeferredIn(l.log, k + 1)
        ensures OnGrid(a, interval, l.occs[k].date)
      {
        assert m.occs[k] == l.occs[k];
      }
    }
  }

  /** What a cadence change leaves of each row: armed and settled ones as they are, planned
      ones canceled, and the new ones on the new cadence. */
  lemma ChangeCadenceRows(l: Ledger, interval: int, today: Day, actor: Actor, horizon: int, m: Ledger)
    requires Inv(l) && ValidInterval(interval) && ChangeCadence(l, interval, today, actor, horizon) == Ok(m)
    ensures m.row.anchor == NewAnchor(l, today) && m.row.interval == interval && |l.occs| <= |m.occs|
    ensures forall k :: 0 <= k < |l.occs| ==>
              m.occs[k] == if l.occs[k].status == Planned then l.occs[k].(status := Canceled) else l.occs[k]
    ensures forall k :: |l.occs| <= k < |m.occs| ==>
              m.occs[k].status == Planned && OnCadence(NewAnchor(l, today), interval, m.occs[k].date)
    ensures l.log <= m.log
    ensures forall j :: |l.log| <= j < |m.log| ==> !m.log[j].body.DeferredEvent?
    ensures forall k :: DeferredIn(m.log, k) <==> DeferredIn(l.log, k)
  {
    hide NextRun, Count, WalkDate, NewAnchor, Keys.IdempotencyKey, OnCadence, DeferredIn;
    var c := Reanchored(l, interval, today, actor);
    assert forall k :: 0 <= k < |l.occs| ==> (l.occs[k].status == Planned ==> l.occs[k].orderId.None?);
    var missing := Missing(c, today, horizon);
    if l.row.status == ScheduleActive && missing > 0 {
      var dates := PlanDates(c, today, missing);
      forall k | 0 <= k < |m.occs|
        ensures k < |l.occs| ==> m.occs[k] == c.occs[k]
        ensures k >= |l.occs| ==>
                  m.occs[k].status == Planned && OnCadence(NewAnchor(l, today), interval, m.occs[k].date)
      {
        AddRowsAt(c, dates, k);
      }
    }
    NothingDeferredSince(l.log, m.log);
  }

  lemma ChangeIsAccepted(l: Ledger, interval: int, today: Day, actor: Actor, horizon: int)
    requires l.row.status in AcceptedIn(ActionChangeCadence) && ValidInterval(interval)
    ensures ChangeCadence(l, interval, today, actor, horizon).Ok?
  {
  }

  lemma NothingDeferredSince(log: seq<Event>, more: seq<Event>)
    requires log <= more && forall j :: |log| <= j < |more| ==> !more[j].body.DeferredEvent?
    ensures forall k :: DeferredIn(more, k) <==> DeferredIn(log, k)
  {
    assert forall j :: 0 <= j < |log| ==> more[j] == log[j];
  }

  /** It does happen: planned, armed, and then the cadence changed, an order that was on
      the cadence is off it, unmoved. */
  lemma ArmedOrderCanLeaveCadence() returns (calls: seq<Call>, l: Ledger, m: Ledger)
    ensures calls == [Call(DoMaterialize, 0, System), Call(DoArmNext, 4, System),
                      Call(DoChangeCadence(10), 4, Customer)]
    ensures l == Run(Created("s", "o", 7, 0), calls[..2], 1) && m == Run(Created("s", "o", 7, 0), calls, 1)
    ensures Aligned(l) && |l.occs| == 1 && l.occs[0].status == Pending
    ensures |m.occs| >= 1 && m.occs[0] == l.occs[0] && !DeferredIn(m.log, 1) && !Aligned(m)
  {
    hide Step, Materialize, Keys.IdempotencyKey;
    var (s, c0) := Opening(7, 0);
    calls := [c0, Call(DoArmNext, 4, System), Call(DoChangeCadence(10), 4, Customer)];
    FirstPlanning(7, 0, 1);
    RunTwo(s, c0, calls[1], 1);
    RunThree(s, c0, calls[1], calls[2], 1);
    assert calls[..2] == [c0, calls[1]];
    var p := Step(s, c0, 1);
    l := ArmsTheOnly(p);
    m := Run(s, calls, 1);
    StepKeeps(s, c0, 1);
    StepKeeps(p, calls[1], 1);
    assert OnGrid(0, 7, 7) by { assert Nth(0, 7, 1) == 7; }
    ThenChanges(l, m);
  }

  lemma ArmsTheOnly(p: Ledger) returns (l: Ledger)
    requires FreshlyPlanned(p, 7, 0, 1)
    ensures l == Step(p, Call(DoArmNext, 4, System), 1)
    ensures l.row == p.row && l.occs == [PlannedRow("s", 1, 7).(status := Pending)]
    ensures forall k :: !DeferredIn(l.log, k)
  {
    hide Keys.IdempotencyKey;
    assert p.occs[0] == PlannedRow("s", 1, 7) && p.occs[..0] == [];
    assert Soonest(p.occs, {Planned}) == Some(0);
    l := ArmAt(p, 0, System);
  }

  lemma ThenChanges(l: Ledger, m: Ledger)
    requires Inv(l) && l.row.status == ScheduleActive && l.occs == [PlannedRow("s", 1, 7).(status := Pending)]
    requires forall k :: !DeferredIn(l.log, k)
    requires m == Step(l, Call(DoChangeCadence(10), 4, Customer), 1)
    ensures |m.occs| >= 1 && m.occs[0] == l.occs[0] && !DeferredIn(m.log, 1) && !Aligned(m)
  {
    hide Materialize, Reanchored, Keys.IdempotencyKey, Inv;
    StepKeeps(l, Call(DoChangeCadence(10), 4, Customer), 1);
    assert LastPlaced(l.occs) == None;
    ChangeIsAccepted(l, 10, 4, Customer, 1);
    ChangeCadenceRows(l, 10, 4, Customer, 1, m);
    forall n | n >= 1 ensures Nth(4, 10, n) > 7 {
      NthMonotone(4, 10, 1, n);
    }
    CadenceIsOnGrid(4, 10, 7);
  }
}
