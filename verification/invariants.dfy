/**
 What every run keeps: the row and its occurrences agree about being paused, rows are
 numbered 1..N and never lost, settled orders never change, and no two occurrences in
 the database share an idempotency key.
 */
module Invariants {
  import opened Wrappers
  import opened Cadence
  import opened Ledgers
  import opened Lifecycle
  import Keys

  /** Nothing is still to come: neither an occurrence nor a next run. */
  ghost predicate Quiet(l: Ledger) {
    && l.row.nextRun == None
    && forall k :: 0 <= k < |l.occs| ==> l.occs[k].status !in UNSETTLED
  }

  /** Rows may be placed or failed here: nothing below depends on how they got there. */
  ghost predicate Inv(l: Ledger) {
    && WellFormed(l)
    && (l.row.status == SchedulePaused || l.row.status == ScheduleCanceled ==> Quiet(l))
  }

  /** What any later state of a schedule owes to an earlier one. */
  ghost predicate Follows(l: Ledger, m: Ledger) {
    && m.row.id == l.row.id && m.row.origin == l.row.origin
    && l.log <= m.log
    && |l.occs| <= |m.occs|
    && (l.row.status == ScheduleCanceled ==> m.row == l.row && m.occs == l.occs)
    && forall k :: 0 <= k < |l.occs| ==> RowFollows(l.occs[k], m.occs[k])
  }

  ghost predicate RowFollows(o: Occurrence, p: Occurrence) {
    && p.seqNo == o.seqNo && p.key == o.key && p.orderId == o.orderId
    && (IsExecuted(o) ==> p == o)
    && (o.status == Pending ==> p.status in {Pending, Skipped, Canceled})
    && (o.status == Planned ==> p.status in {Planned, Pending, Skipped, Canceled})
    && o.date <= p.date
  }

  lemma FollowsTransitive(l: Ledger, m: Ledger, n: Ledger)
    requires Follows(l, m) && Follows(m, n)
    ensures Follows(l, n)
  {
    forall k | 0 <= k < |l.occs| ensures RowFollows(l.occs[k], n.occs[k]) {
      assert RowFollows(l.occs[k], m.occs[k]) && RowFollows(m.occs[k], n.occs[k]);
    }
  }

  lemma MaterializeKeeps(l: Ledger, today: Day, horizon: int)
    requires Inv(l)
    ensures var r := Materialize(l, today, horizon);
            r.Ok? && Inv(r.value) && Follows(l, r.value) && r.value.row == l.row.(nextRun := r.value.row.nextRun)
  {
    hide NextRun, Count, WalkDate, Keys.IdempotencyKey;
    if l.row.status == ScheduleActive && Missing(l, today, horizon) > 0 {
      var dates := PlanDates(l, today, Missing(l, today, horizon));
      var m := AddRows(l, dates);
      forall k | 0 <= k < |m.occs|
        ensures k < |l.occs| ==> m.occs[k] == l.occs[k]
        ensures k >= |l.occs| ==> m.occs[k] == PlannedRow(l.row.id, k + 1, dates[k - |l.occs|])
      {
        AddRowsAt(l, dates, k);
      }
    }
  }

  lemma CancelAllEmpties(l: Ledger, ss: set<OccurrenceStatus>)
    requires WellFormed(l) && ss <= UNSETTLED
    ensures forall k :: 0 <= k < |l.occs| ==> CancelAll(l.occs, ss)[k].status !in ss
  {
  }

  ghost predicate Kept(l: Ledger, r: Result<Ledger, Error>) {
    match r
    case Ok(m) => Inv(m) && Follows(l, m)
    case Err(e) => e.Refused?
  }

  lemma ThenMaterializeKeeps(l: Ledger, m: Ledger, today: Day, horizon: int)
    requires Inv(m) && Follows(l, m)
    ensures Kept(l, Materialize(m, today, horizon))
  {
    hide Materialize, WellFormed, Follows;
    MaterializeKeeps(m, today, horizon);
    FollowsTransitive(l, m, Materialize(m, today, horizon).value);
  }

  lemma PauseKeeps(l: Ledger, until: Option<Day>, today: Day, actor: Actor)
    requires Inv(l)
    ensures Kept(l, Pause(l, until, today, actor))
  {
    hide Keys.IdempotencyKey, Count;
    CancelAllEmpties(l, UNSETTLED);
  }

  lemma CancelKeeps(l: Ledger, reason: string, actor: Actor)
    requires Inv(l)
    ensures Kept(l, Cancel(l, reason, actor))
  {
    hide Keys.IdempotencyKey, Count;
    CancelAllEmpties(l, UNSETTLED);
  }

  lemma ResumeKeeps(l: Ledger, today: Day, actor: Actor, horizon: int)
    requires Inv(l)
    ensures Kept(l, Resume(l, today, actor, horizon))
  {
    hide Materialize;
    if l.row.status == SchedulePaused {
      var row := l.row.(status := ScheduleActive, pausedUntil := None, anchor := today);
      ThenMaterializeKeeps(l, Record(l.(row := row), actor, None,
                                     ResumedEvent(today, row.interval, today + row.interval)), today, horizon);
    }
  }

  lemma SkipNextKeeps(l: Ledger, key: string, today: Day, actor: Actor, horizon: int)
    requires Inv(l)
    ensures Kept(l, SkipNext(l, key, today, actor, horizon))
  {
    hide Materialize, SkipRecorded;
    var k := Soonest(l.occs, UNSETTLED);
    if l.row.status == ScheduleActive && k.Some? {
      ThenMaterializeKeeps(l, SkipAt(l, k.value, key, actor), today, horizon);
    }
  }

  lemma DeferKeeps(l: Ledger, days: int, key: string, today: Day, actor: Actor)
    requires Inv(l) && ValidDeferDays(days)
    ensures Kept(l, Defer(l, days, key, today, actor))
  {
    hide DeferRecorded, NextRun, Keys.IdempotencyKey;
  }

  lemma ChangeCadenceKeeps(l: Ledger, interval: int, today: Day, actor: Actor, horizon: int)
    requires Inv(l) && ValidInterval(interval)
    ensures Kept(l, ChangeCadence(l, interval, today, actor, horizon))
  {
    hide Materialize;
    if l.row.status == ScheduleActive {
      ThenMaterializeKeeps(l, Reanchored(l, interval, today, actor), today, horizon);
    }
  }

  lemma ArmNextKeeps(l: Ledger, actor: Actor)
    requires Inv(l)
    ensures Kept(l, ArmNext(l, actor))
  {
    hide Keys.IdempotencyKey;
  }

  /** Every transition of the state machine keeps the invariant and only moves forward;
      once its arguments are in range it can fail only by refusing. */
  lemma StepKeeps(l: Ledger, c: Call, horizon: int)
    requires Inv(l)
    ensures ValidArguments(c.command) ==> Kept(l, Apply(l, c, horizon))
    ensures Inv(Step(l, c, horizon)) && Follows(l, Step(l, c, horizon))
  {
    hide Pause, Resume, SkipNext, Defer, ChangeCadence, Cancel, ArmNext, Materialize, WellFormed;
    if ValidArguments(c.command) {
      match c.command
      case DoPause(until) => PauseKeeps(l, until, c.today, c.actor);
      case DoResume => ResumeKeeps(l, c.today, c.actor, horizon);
      case DoSkipNext(key) => SkipNextKeeps(l, key, c.today, c.actor, horizon);
      case DoDefer(days, key) => DeferKeeps(l, days, key, c.today, c.actor);
      case DoChangeCadence(interval) => ChangeCadenceKeeps(l, interval, c.today, c.actor, horizon);
      case DoCancel(reason) => CancelKeeps(l, reason, c.actor);
      case DoArmNext => ArmNextKeeps(l, c.actor);
      case DoMaterialize => MaterializeKeeps(l, c.today, horizon);
    }
  }

  /** Over any run, from any good state: the invariant holds at the end, and every state
      on the way follows every earlier one. */
  lemma {:induction false} RunKeeps(l: Ledger, calls: seq<Call>, horizon: int, n: nat)
    requires Inv(l) && n <= |calls|
    ensures Inv(Run(l, calls, horizon))
    ensures Follows(Run(l, calls[..n], horizon), Run(l, calls, horizon))
  {
    if n == |calls| {
      assert calls[..n] == calls;
      if n > 0 {
        RunKeeps(l, calls[..n - 1], horizon, n - 1);
        StepKeeps(Run(l, calls[..n - 1], horizon), calls[n - 1], horizon);
      }
    } else {
      var most := calls[..|calls| - 1];
      assert most[..n] == calls[..n];
      RunKeeps(l, most, horizon, n);
      StepKeeps(Run(l, most, horizon), calls[|calls| - 1], horizon);
      FollowsTransitive(Run(l, calls[..n], horizon), Run(l, most, horizon), Run(l, calls, horizon));
    }
  }

  lemma CreatedIsGood(id: string, origin: string, interval: int, anchor: Day)
    requires ValidInterval(interval)
    ensures Inv(Created(id, origin, interval, anchor))
  {
  }

  /** A settled order -- placed, skipped, failed or canceled -- is never rewritten, and
      row k is occurrence k + 1 for ever. */
  lemma SettledForever(l: Ledger, calls: seq<Call>, horizon: int, n: nat, k: nat)
    requires Inv(l) && n <= |calls| && k < |Run(l, calls[..n], horizon).occs|
    ensures var early, late := Run(l, calls[..n], horizon), Run(l, calls, horizon);
            && k < |late.occs|
            && late.occs[k].seqNo == k + 1 && late.occs[k].key == early.occs[k].key
            && (early.occs[k].status !in {Planned, Pending} ==> late.occs[k] == early.occs[k])
  {
    RunKeeps(l, calls, horizon, n);
    assert RowFollows(Run(l, calls[..n], horizon).occs[k], Run(l, calls, horizon).occs[k]);
  }

  /** The date a resume announces to the customer is the date it commits. */
  lemma ResumeAnnouncesNextRun(l: Ledger, today: Day, actor: Actor, horizon: int)
    requires Inv(l) && l.row.status == SchedulePaused && horizon >= 1
    ensures Resume(l, today, actor, horizon).Ok?
    ensures var m := Resume(l, today, actor, horizon).value;
            && |m.log| > |l.log|
            && m.log[|l.log|].body == ResumedEvent(today, l.row.interval, today + l.row.interval)
            && m.row.nextRun == Some(today + l.row.interval)
            && m.row.anchor == today && m.row.status == ScheduleActive && m.row.pausedUntil == None
  {
    hide TopUp, Count, NextRun;
    var i := l.row.interval;
    var row := l.row.(status := ScheduleActive, pausedUntil := None, anchor := today);
    FirstTopUp(Record(l.(row := row), actor, None, ResumedEvent(today, i, today + i)), today, horizon);
  }

  /** Planning from scratch at the anchor itself puts the first order one interval out. */
  lemma FirstTopUp(m: Ledger, today: Day, horizon: int)
    requires ValidInterval(m.row.interval) && m.row.anchor == today && horizon >= 1
    requires forall k :: 0 <= k < |m.occs| ==> m.occs[k].status !in UNSETTLED
    ensures TopUp(m, today, horizon).row == m.row.(nextRun := Some(today + m.row.interval))
    ensures m.log <= TopUp(m, today, horizon).log
  {
    hide WalkDate, Nth, FirstAfter, AddRows, NextRun;
    var i := m.row.interval;
    CountZero(m.occs, FuturePlanned(today));
    var dates := PlanDates(m, today, horizon);
    var added := AddRows(m, dates);
    WalkFromAnchor(today, i);
    forall k | 0 <= k < |added.occs| && FuturePlanned(today)(added.occs[k])
      ensures today + i <= added.occs[k].date
    {
      AddRowsAt(m, dates, k);
      if k >= |m.occs| {
        WalkShape(today, i, today, k - |m.occs|);
      }
    }
    AddRowsAt(m, dates, |m.occs|);
    NextRunUnique(added.occs, today, Some(today + i));
  }

  /** No two rows anywhere in the database share a key, so the insert the materializer
      makes under the row lock can never be a duplicate. */
  lemma KeysNeverCollide(ledgers: map<string, Ledger>, a: string, j: nat, b: string, k: nat)
    requires forall id :: id in ledgers ==> ledgers[id].row.id == id && WellFormed(ledgers[id])
    requires a in ledgers && b in ledgers && j < |ledgers[a].occs| && k < |ledgers[b].occs|
    ensures ledgers[a].occs[j].key == ledgers[b].occs[k].key <==> a == b && j == k
    ensures ledgers[a].occs[j].key != Keys.IdempotencyKey(b, |ledgers[b].occs| + 1)
  {
    Keys.IdempotencyKeyInjective(a, j + 1, b, k + 1);
    Keys.IdempotencyKeyInjective(a, j + 1, b, |ledgers[b].occs| + 1);
  }
}
