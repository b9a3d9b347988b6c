/**
 Retry keys: a skip or a deferral is applied once per key, however often it is sent.
 */
module Retries {
  import opened Wrappers
  import opened Cadence
  import opened Ledgers
  import opened Lifecycle
  import opened Invariants
  import opened Audits
  import Keys

  predicate SameKind(a: Body, b: Body) {
    (a.SkippedEvent? && b.SkippedEvent?) || (a.DeferredEvent? && b.DeferredEvent?)
  }

  /** No key is recorded twice for the same kind of action. */
  ghost predicate KeysDistinct(log: seq<Event>) {
    forall i, j :: 0 <= i < j < |log| && SameKind(log[i].body, log[j].body) ==> log[i].key != log[j].key
  }

  lemma MaterializeKeepsKeys(l: Ledger, today: Day, horizon: int)
    requires KeysDistinct(l.log)
    ensures var r := Materialize(l, today, horizon); r.Ok? ==> KeysDistinct(r.value.log)
  {
    hide NextRun, Count;
    var missing := Missing(l, today, horizon);
    if l.row.status == ScheduleActive && ValidInterval(l.row.interval) && missing > 0 {
      var dates := PlanDates(l, today, missing);
      var m := AddRows(l, dates);
      forall i, j | 0 <= i < j < |m.log| && SameKind(m.log[i].body, m.log[j].body)
        ensures m.log[i].key != m.log[j].key
      {
        assert i < |l.log| ==> m.log[i] == l.log[i];
        assert j < |l.log| ==> m.log[j] == l.log[j];
      }
    }
  }

  lemma StepKeepsKeys(l: Ledger, c: Call, horizon: int)
    requires KeysDistinct(l.log)
    ensures KeysDistinct(Step(l, c, horizon).log)
  {
    hide Materialize, NextRun, Count, CancelAll, Soonest, LastPlaced;
    match c.command
    case DoResume =>
      var row := l.row.(status := ScheduleActive, pausedUntil := None, anchor := c.today);
      MaterializeKeepsKeys(Record(l.(row := row), c.actor, None,
                                  ResumedEvent(c.today, row.interval, c.today + row.interval)), c.today, horizon);
    case DoSkipNext(key) =>
      var k := Soonest(l.occs, UNSETTLED);
      if k.Some? && !SkipRecorded(l.log, key) {
        MaterializeKeepsKeys(SkipAt(l, k.value, key, c.actor), c.today, horizon);
      }
    case DoChangeCadence(interval) =>
      MaterializeKeepsKeys(Reanchored(l, interval, c.today, c.actor), c.today, horizon);
    case DoMaterialize => MaterializeKeepsKeys(l, c.today, horizon);
    case _ =>
  }

  lemma {:induction false} RunKeepsKeys(l: Ledger, calls: seq<Call>, horizon: int)
    requires KeysDistinct(l.log)
    ensures KeysDistinct(Run(l, calls, horizon).log)
  {
    if |calls| > 0 {
      RunKeepsKeys(l, calls[..|calls| - 1], horizon);
      StepKeepsKeys(Run(l, calls[..|calls| - 1], horizon), calls[|calls| - 1], horizon);
    }
  }

  /** The keys skips are recorded under. */
  function SkipKeys(log: seq<Event>): (keys: set<string>)
    ensures forall key :: key in keys <==> SkipRecorded(log, key)
  {
    if |log| == 0 then {}
    else
      var n := |log| - 1;
      var rest := SkipKeys(log[..n]);
      assert forall key :: SkipRecorded(log[..n], key) ==> SkipRecorded(log, key) by {
        assert forall j :: 0 <= j < n ==> log[..n][j] == log[j];
      }
      if log[n].body.SkippedEvent? && log[n].key.Some? then rest + {log[n].key.value} else rest
  }

  lemma {:induction false} SkipKeysCount(id: string, log: seq<Event>)
    requires KeysDistinct(log) && Audit(id, log).Some?
    ensures |SkipKeys(log)| == Count(log, IsSkip())
  {
    var n := |log| - 1;
    if n > 0 {
      SkipKeysCount(id, log[..n]);
      if log[n].body.SkippedEvent? {
        assert log[n].key.value !in SkipKeys(log[..n]);
      }
    } else {
      assert SkipKeys(log[..0]) == {} && Count(log[..0], IsSkip()) == 0;
    }
  }

  /** Over any run: skipped orders, skip events and recorded skip keys are equally many. */
  lemma SkipsMatchKeys(id: string, origin: string, interval: int, anchor: Day, calls: seq<Call>, horizon: int)
    requires ValidInterval(interval)
    ensures var l := Run(Created(id, origin, interval, anchor), calls, horizon);
            Count(l.occs, HasStatus({Skipped})) == Count(l.log, IsSkip()) == |SkipKeys(l.log)|
  {
    var l := Run(Created(id, origin, interval, anchor), calls, horizon);
    LogDeterminesState(id, origin, interval, anchor, calls, horizon);
    RowsAreConserved(id, l.log);
    RunKeepsKeys(Created(id, origin, interval, anchor), calls, horizon);
    SkipKeysCount(id, l.log);
  }

  predicate IsRetry(l: Ledger, c: Call) {
    match c.command
    case DoSkipNext(key) => SkipRecorded(l.log, key)
    case DoDefer(_, key) => DeferRecorded(l.log, key)
    case _ => false
  }

  /** The calls of a run without those whose key was already recorded when they came. */
  function WithoutRetries(l: Ledger, calls: seq<Call>, horizon: int): seq<Call> {
    if |calls| == 0 then []
    else
      var n := |calls| - 1;
      var rest := WithoutRetries(l, calls[..n], horizon);
      if IsRetry(Run(l, calls[..n], horizon), calls[n]) then rest else rest + [calls[n]]
  }

  lemma {:induction false} RetriesChangeNothing(l: Ledger, calls: seq<Call>, horizon: int)
    ensures Run(l, WithoutRetries(l, calls, horizon), horizon) == Run(l, calls, horizon)
  {
    hide Apply;
    if |calls| > 0 {
      var n := |calls| - 1;
      var kept := WithoutRetries(l, calls[..n], horizon);
      RetriesChangeNothing(l, calls[..n], horizon);
      if IsRetry(Run(l, calls[..n], horizon), calls[n]) {
        RetryIsNoOp(Run(l, calls[..n], horizon), calls[n], horizon);
      } else {
        assert (kept + [calls[n]])[..|kept|] == kept;
      }
    }
  }

  lemma RetryIsNoOp(l: Ledger, c: Call, horizon: int)
    requires IsRetry(l, c)
    ensures Step(l, c, horizon) == l
  {
  }

  // ----- what a call leaves in the log -----

  /** e is the event an accepted c is recorded as: who asked, under which key, for what. */
  ghost predicate Records(c: Call, e: Event) {
    e.actor == c.actor &&
    match c.command
    case DoPause(until) => e.body.PausedEvent? && e.body.until == until && e.key == None
    case DoResume => e.body.ResumedEvent? && e.body.anchor == c.today && e.key == None
    case DoSkipNext(key) => e.body.SkippedEvent? && e.key == Some(key)
    case DoDefer(days, key) => e.body.DeferredEvent? && e.body.days == days && e.key == Some(key)
    case DoChangeCadence(interval) => e.body.CadenceChangedEvent? && e.body.toInterval == interval && e.key == None
    case DoCancel(reason) => e.body.CanceledEvent? && e.body.reason == reason && e.key == None
    case DoArmNext => e.body.ArmedEvent? && e.key == None
    case DoMaterialize => false
  }

  ghost predicate OnlyPlanning(log: seq<Event>, from: nat) {
    forall j :: from <= j < |log| ==> log[j].actor == System && log[j].key == None && log[j].body.MaterializedEvent?
  }

  lemma MaterializeOnlyPlans(l: Ledger, today: Day, horizon: int)
    requires ValidInterval(l.row.interval)
    ensures var m := Materialize(l, today, horizon).value;
            l.log <= m.log && OnlyPlanning(m.log, |l.log|)
  {
    hide NextRun, Count, WalkDate;
  }

  /** Every accepted call that is not a retry leaves exactly one event of its own, first,
      carrying its actor, key and arguments; all the rest it appends is planning. */
  lemma AcceptedCallIsRecorded(l: Ledger, c: Call, horizon: int)
    requires Inv(l) && Apply(l, c, horizon).Ok? && !IsRetry(l, c) && !c.command.DoMaterialize?
    ensures var m := Step(l, c, horizon);
            && |m.log| > |l.log| && m.log[..|l.log|] == l.log
            && Records(c, m.log[|l.log|]) && OnlyPlanning(m.log, |l.log| + 1)
  {
    hide Materialize, SkipRecorded, DeferRecorded, NextRun, Count, Soonest, CancelAll, Keys.IdempotencyKey;
    match c.command
    case DoResume =>
      var row := l.row.(status := ScheduleActive, pausedUntil := None, anchor := c.today);
      var m := Record(l.(row := row), c.actor, None, ResumedEvent(c.today, row.interval, c.today + row.interval));
      MaterializeOnlyPlans(m, c.today, horizon);
      MaterializeKeeps(m, c.today, horizon);
    case DoSkipNext(key) =>
      var m := SkipAt(l, Soonest(l.occs, UNSETTLED).value, key, c.actor);
      MaterializeOnlyPlans(m, c.today, horizon);
      MaterializeKeeps(m, c.today, horizon);
    case DoChangeCadence(interval) =>
      var m := Reanchored(l, interval, c.today, c.actor);
      if l.row.status == ScheduleActive {
        MaterializeOnlyPlans(m, c.today, horizon);
        MaterializeKeeps(m, c.today, horizon);
      }
    case _ =>
  }

  // ----- once is enough -----

  /** The same kind of request under the same key; the number of days may differ. */
  predicate SameRequest(c: Command, d: Command) {
    match c
    case DoSkipNext(key) => d.DoSkipNext? && d.key == key
    case DoDefer(_, key) => d.DoDefer? && d.key == key
    case _ => false
  }

  lemma RetryStays(l: Ledger, m: Ledger, c: Call, d: Call)
    requires l.log <= m.log && IsRetry(l, c) && SameRequest(c.command, d.command)
    ensures IsRetry(m, d)
  {
    match c.command
    case DoSkipNext(key) =>
      var k :| 0 <= k < |l.log| && l.log[k].body.SkippedEvent? && l.log[k].key == Some(key);
      assert m.log[k] == l.log[k];
    case DoDefer(_, key) =>
      var k :| 0 <= k < |l.log| && l.log[k].body.DeferredEvent? && l.log[k].key == Some(key);
      assert m.log[k] == l.log[k];
  }

  lemma AcceptedBecomesRetry(l: Ledger, c: Call, horizon: int)
    requires Inv(l) && (c.command.DoSkipNext? || c.command.DoDefer?) && Apply(l, c, horizon).Ok?
    ensures IsRetry(Step(l, c, horizon), c)
  {
    hide Apply, Inv;
    if IsRetry(l, c) {
      RetryIsNoOp(l, c, horizon);
    } else {
      AcceptedCallIsRecorded(l, c, horizon);
    }
  }

  lemma KeyStaysRecorded(l: Ledger, calls: seq<Call>, horizon: int, n: nat, m: nat)
    requires Inv(l) && n < m < |calls| && SameRequest(calls[n].command, calls[m].command)
    requires Apply(Run(l, calls[..n], horizon), calls[n], horizon).Ok?
    ensures IsRetry(Run(l, calls[..m], horizon), calls[m])
  {
    hide Inv, Apply, SkipRecorded, DeferRecorded, RowFollows;
    assert calls[..n + 1][..n] == calls[..n];
    RunKeeps(l, calls[..n], horizon, 0);
    AcceptedBecomesRetry(Run(l, calls[..n], horizon), calls[n], horizon);
    assert calls[..m][..n + 1] == calls[..n + 1];
    RunKeeps(l, calls[..m], horizon, n + 1);
    RetryStays(Run(l, calls[..n + 1], horizon), Run(l, calls[..m], horizon), calls[n], calls[m]);
  }

  /** Once a skip or a deferral is accepted, sending its key again -- at any later time, in
      any state, on any date, by anyone, for any number of days -- does nothing. */
  lemma AcceptedKeyWorksOnce(l: Ledger, calls: seq<Call>, horizon: int, n: nat, m: nat)
    requires Inv(l) && n < m < |calls| && SameRequest(calls[n].command, calls[m].command)
    requires Apply(Run(l, calls[..n], horizon), calls[n], horizon).Ok?
    ensures Run(l, calls[..m + 1], horizon) == Run(l, calls[..m], horizon)
  {
    hide Inv, Apply, IsRetry;
    KeyStaysRecorded(l, calls, horizon, n, m);
    assert calls[..m + 1][..m] == calls[..m];
    RetryIsNoOp(Run(l, calls[..m], horizon), calls[m], horizon);
  }
}
