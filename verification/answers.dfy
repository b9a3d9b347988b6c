/**
 What every request is answered: accepted or refused, and with which error, told from the
 schedule and the arguments alone.
 */
module Answers {
  import opened Wrappers
  import opened Cadence
  import opened Ledgers
  import opened Lifecycle
  import opened Invariants
  import opened Retries
  import opened Sweeps
  import Keys

  /** A pause is accepted on an active schedule if it has no end or ends on a later day; and
      an accepted one is not over on the day it was made. */
  lemma PauseAnswers(l: Ledger, until: Option<Day>, today: Day, actor: Actor, horizon: int)
    ensures var r := Apply(l, Call(DoPause(until), today, actor), horizon);
            && (r.Ok? <==> l.row.status == ScheduleActive && (until.Some? ==> until.value > today))
            && (r.Err? ==> r.error == Refused(ActionPause, l.row.status))
            && (r.Ok? ==> r.value.row.status == SchedulePaused && r.value.row.pausedUntil == until
                          && !DueToResume(r.value, today))
  {
    hide CancelAll, Count;
  }

  lemma ResumeAnswers(l: Ledger, today: Day, actor: Actor, horizon: int)
    ensures var r := Apply(l, Call(DoResume, today, actor), horizon);
            && (r.Ok? <==> l.row.status == SchedulePaused && 7 <= l.row.interval <= 180)
            && (r.Err? ==> r.error == if l.row.status == SchedulePaused then BadRequest
                                      else Refused(ActionResume, l.row.status))
            && (r.Ok? ==> r.value.row.status == ScheduleActive && r.value.row.anchor == today)
  {
    hide TopUp;
    if l.row.status == SchedulePaused && ValidInterval(l.row.interval) {
      var row := l.row.(status := ScheduleActive, pausedUntil := None, anchor := today);
      TopUpKeepsRow(Record(l.(row := row), actor, None,
                           ResumedEvent(today, row.interval, today + row.interval)), today, horizon);
    }
  }

  lemma TopUpKeepsRow(l: Ledger, today: Day, horizon: int)
    requires ValidInterval(l.row.interval)
    ensures var m := TopUp(l, today, horizon);
            m.row == l.row.(nextRun := m.row.nextRun) && l.occs <= m.occs && l.log <= m.log
  {
  }

  /** The soonest order still to come, by date and then sequence number. */
  ghost predicate IsSoonest(l: Ledger, k: nat, ss: set<OccurrenceStatus>) {
    && k < |l.occs| && l.occs[k].status in ss
    && forall j :: 0 <= j < |l.occs| && l.occs[j].status in ss ==>
         || l.occs[k].date < l.occs[j].date
         || (l.occs[k].date == l.occs[j].date && l.occs[k].seqNo <= l.occs[j].seqNo)
  }

  lemma SoonestIsIt(l: Ledger, k: nat, ss: set<OccurrenceStatus>)
    requires IsSoonest(l, k, ss) && forall j :: 0 <= j < |l.occs| ==> l.occs[j].seqNo == j + 1
    ensures Soonest(l.occs, ss) == Some(k)
  {
  }

  ghost predicate SkippedUnder(l: Ledger, key: string) {
    exists k :: 0 <= k < |l.log| && l.log[k].body.SkippedEvent? && l.log[k].key == Some(key)
  }

  ghost predicate DeferredUnder(l: Ledger, key: string) {
    exists k :: 0 <= k < |l.log| && l.log[k].body.DeferredEvent? && l.log[k].key == Some(key)
  }

  ghost predicate SomethingToCome(l: Ledger) {
    exists k :: 0 <= k < |l.occs| && (l.occs[k].status == Planned || l.occs[k].status == Pending)
  }

  /** A skip is accepted on an active schedule, under a key of 1 to 200 bytes, if one is
      recorded under that key -- it then changes nothing -- or an order is still to come. */
  lemma SkipAnswers(l: Ledger, key: string, today: Day, actor: Actor, horizon: int)
    requires Inv(l)
    ensures var r := Apply(l, Call(DoSkipNext(key), today, actor), horizon);
            && (r.Ok? <==> 1 <= |key| <= 200 && l.row.status == ScheduleActive
                           && (SkippedUnder(l, key) || SomethingToCome(l)))
            && (r.Err? ==> r.error == if 1 <= |key| <= 200 then Refused(ActionSkipNext, l.row.status) else BadRequest)
            && (r.Ok? && SkippedUnder(l, key) ==> r.value == l)
  {
    hide Materialize, Keys.IdempotencyKey, SkipAt;
    assert SkipRecorded(l.log, key) <==> SkippedUnder(l, key);
    var r := Soonest(l.occs, UNSETTLED);
    if r.Some? && l.row.status == ScheduleActive {
      SkipNextKeeps(l, key, today, actor, horizon);
      SkipIsMaterialized(l, r.value, key, today, actor, horizon);
    }
  }

  lemma SkipIsMaterialized(l: Ledger, k: nat, key: string, today: Day, actor: Actor, horizon: int)
    requires Inv(l) && l.row.status == ScheduleActive && k < |l.occs|
    ensures Materialize(SkipAt(l, k, key, actor), today, horizon).Ok?
  {
    hide TopUp;
  }

  /** What a skip under a new key does: it settles the soonest order, records which one and
      when it was for, and touches no other. */
  lemma SkipTakesSoonest(l: Ledger, k: nat, key: string, today: Day, actor: Actor, horizon: int, m: Ledger)
    requires Inv(l) && !SkippedUnder(l, key) && IsSoonest(l, k, {Planned, Pending})
    requires Apply(l, Call(DoSkipNext(key), today, actor), horizon) == Ok(m)
    ensures |m.log| > |l.log| && l.occs[k := l.occs[k].(status := Skipped)] <= m.occs
    ensures m.log[|l.log|] == Event(actor, Some(key), SkippedEvent(l.occs[k].seqNo, l.occs[k].date))
  {
    hide TopUp, Keys.IdempotencyKey;
    SoonestIsIt(l, k, UNSETTLED);
    hide Soonest, IsSoonest;
    TopUpKeepsRow(SkipAt(l, k, key, actor), today, horizon);
  }

  /** A deferral likewise, by 1 to 180 days. */
  lemma DeferAnswers(l: Ledger, days: int, key: string, today: Day, actor: Actor, horizon: int)
    ensures var r := Apply(l, Call(DoDefer(days, key), today, actor), horizon);
            && (r.Ok? <==> 1 <= days <= 180 && 1 <= |key| <= 200 && l.row.status == ScheduleActive
                           && (DeferredUnder(l, key) || SomethingToCome(l)))
            && (r.Err? ==> r.error == if 1 <= days <= 180 && 1 <= |key| <= 200
                                      then Refused(ActionDefer, l.row.status) else BadRequest)
            && (r.Ok? && DeferredUnder(l, key) ==> r.value == l)
  {
    hide NextRun;
    assert DeferRecorded(l.log, key) <==> DeferredUnder(l, key);
  }

  /** And what it does under a new key: it moves the soonest order, and records from when to
      when. */
  lemma DeferMovesSoonest(l: Ledger, k: nat, days: int, key: string, today: Day, actor: Actor, horizon: int, m: Ledger)
    requires Inv(l) && !DeferredUnder(l, key) && IsSoonest(l, k, {Planned, Pending})
    requires Apply(l, Call(DoDefer(days, key), today, actor), horizon) == Ok(m)
    ensures m.occs == l.occs[k := l.occs[k].(date := l.occs[k].date + days)]
    ensures m.log == l.log + [Event(actor, Some(key), DeferredEvent(l.occs[k].seqNo, l.occs[k].date,
                                                                    l.occs[k].date + days, days))]
  {
    hide NextRun, Keys.IdempotencyKey;
    SoonestIsIt(l, k, UNSETTLED);
  }

  /** The date of the latest placed order, or today if none ever was. */
  ghost predicate MeasuresFrom(l: Ledger, today: Day, anchor: Day) {
    && (forall k :: 0 <= k < |l.occs| && l.occs[k].status == Placed ==> l.occs[k].date <= anchor)
    && ((exists k :: 0 <= k < |l.occs| && l.occs[k].status == Placed && l.occs[k].date == anchor)
        || (anchor == today && forall k :: 0 <= k < |l.occs| ==> l.occs[k].status != Placed))
  }

  lemma NewAnchorMeasures(l: Ledger, today: Day)
    ensures MeasuresFrom(l, today, NewAnchor(l, today))
  {
    var r := LastPlaced(l.occs);
    assert r.Some? ==> l.occs[r.value].status == Placed;
  }

  lemma ChangeCadenceAnswers(l: Ledger, interval: int, today: Day, actor: Actor, horizon: int)
    ensures var r := Apply(l, Call(DoChangeCadence(interval), today, actor), horizon);
            && (r.Ok? <==> 7 <= interval <= 180 && (l.row.status == ScheduleActive || l.row.status == SchedulePaused))
            && (r.Err? ==> r.error == if 7 <= interval <= 180 then Refused(ActionChangeCadence, l.row.status)
                                      else BadRequest)
            && (r.Ok? ==> r.value.row.status == l.row.status && r.value.row.interval == interval)
            && (r.Ok? ==> MeasuresFrom(l, today, r.value.row.anchor))
  {
    hide TopUp, NewAnchor, CancelAll, Count, MeasuresFrom;
    NewAnchorMeasures(l, today);
    if ValidInterval(interval) && l.row.status == ScheduleActive {
      TopUpKeepsRow(Reanchored(l, interval, today, actor), today, horizon);
    }
  }

  lemma CancelAnswers(l: Ledger, reason: string, today: Day, actor: Actor, horizon: int)
    ensures var r := Apply(l, Call(DoCancel(reason), today, actor), horizon);
            var known := reason in ["too_expensive", "too_frequent", "switched_brand", "delivery_issue",
                                    "payment_issue", "no_longer_wanted", "other"];
            && (r.Ok? <==> known && l.row.status != ScheduleCanceled)
            && (r.Err? ==> r.error == if known then Refused(ActionCancel, l.row.status) else BadRequest)
            && (r.Ok? ==> r.value.row.status == ScheduleCanceled && r.value.row.pausedUntil == None)
  {
    hide CancelAll, Count;
  }

  lemma ArmAnswers(l: Ledger, today: Day, actor: Actor, horizon: int)
    ensures var r := Apply(l, Call(DoArmNext, today, actor), horizon);
            && (r.Ok? <==> l.row.status == ScheduleActive
                           && exists k :: 0 <= k < |l.occs| && l.occs[k].status == Planned)
            && (r.Err? ==> r.error == Refused(ActionArm, l.row.status))
  {
    hide ArmAt;
  }

  /** It arms the soonest planned order, and records which. */
  lemma ArmTakesSoonest(l: Ledger, k: nat, today: Day, actor: Actor, horizon: int, m: Ledger)
    requires Inv(l) && IsSoonest(l, k, {Planned})
    requires Apply(l, Call(DoArmNext, today, actor), horizon) == Ok(m)
    ensures m.row == l.row && m.occs == l.occs[k := l.occs[k].(status := Pending)]
    ensures m.log == l.log + [Event(actor, None, ArmedEvent(l.occs[k].seqNo, l.occs[k].date))]
  {
    hide Keys.IdempotencyKey;
    SoonestIsIt(l, k, {Planned});
  }

  /** A top-up is refused only to an active schedule whose stored interval is out of range,
      and does nothing to one that is not active. */
  lemma MaterializeAnswers(l: Ledger, today: Day, actor: Actor, horizon: int)
    ensures var r := Apply(l, Call(DoMaterialize, today, actor), horizon);
            && (r.Ok? <==> l.row.status != ScheduleActive || 7 <= l.row.interval <= 180)
            && (r.Err? ==> r.error == BadRequest)
            && (l.row.status != ScheduleActive ==> r == Ok(l))
  {
    hide TopUp;
  }

  /** Once a skip or a deferral is accepted, the same kind of request under its key, valid in
      itself and on a schedule still active, is accepted again and answered with the schedule
      as it then is: a client that lost the first answer gets a success. */
  lemma RetrySucceeds(l: Ledger, calls: seq<Call>, horizon: int, n: nat, m: nat)
    requires Inv(l) && n < m < |calls| && SameRequest(calls[n].command, calls[m].command)
    requires Apply(Run(l, calls[..n], horizon), calls[n], horizon).Ok?
    requires ValidArguments(calls[m].command) && Run(l, calls[..m], horizon).row.status == ScheduleActive
    ensures Apply(Run(l, calls[..m], horizon), calls[m], horizon) == Ok(Run(l, calls[..m], horizon))
  {
    hide Inv, Run, RowFollows;
    KeyStaysRecorded(l, calls, horizon, n, m);
    RetryIsAccepted(Run(l, calls[..m], horizon), calls[m], horizon);
  }

  lemma RetryIsAccepted(l: Ledger, c: Call, horizon: int)
    requires IsRetry(l, c) && ValidArguments(c.command) && l.row.status == ScheduleActive
    ensures Apply(l, c, horizon) == Ok(l)
  {
  }
}
