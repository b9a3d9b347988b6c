/**
 The service: every transition as one transaction -- lock, validate, apply, record, read
 back -- committed whole or not at all.
 */
module Services {
  import opened Wrappers
  import opened Cadence
  import opened Ledgers
  import opened Lifecycle
  import opened Invariants
  import opened Stores
  import opened Materializers
  import Keys

  /** All a caller can learn: the committed outcome of exactly this call on the state the
      lock guaranteed, or an error and nothing changed.  A reliable database leaves no
      choice between the two. */
  ghost predicate Outcome(before: Tables, after: Tables, id: string, c: Call, mat: Materializer,
                          r: Result<Schedule, Error>) {
    var horizon := mat.horizon;
    match r
    case Ok(row) =>
      && id in before && ValidArguments(c.command)
      && Apply(before[id], c, horizon).Ok?
      && after == before[id := Apply(before[id], c, horizon).value]
      && row == after[id].row
    case Err(e) =>
      && after == before
      && match e
         case Io => !mat.repo.reliable
         case BadRequest => !ValidArguments(c.command)
         case NotFound => id !in before
         case Refused(_, _) => id in before && Apply(before[id], c, horizon) == Err(e)
         case _ => false
  }

  /** What one action's closure leaves in the open transaction. */
  ghost predicate Applied(before: Tables, after: Tables, id: string, spec: Result<Ledger, Error>,
                          reliable: bool, err: Option<Error>) {
    && id in after
    && match err
       case None => spec.Ok? && after == before[id := spec.value]
       case Some(e) => (e == Io && !reliable) || spec == Err(e)
  }

  class Service {
    const repo: Repository
    const mat: Materializer

    constructor (repo: Repository, mat: Materializer)
      requires mat.repo == repo
      ensures this.repo == repo && this.mat == mat
    {
      this.repo := repo;
      this.mat := mat;
    }

    ghost predicate Ready()
      reads repo
    {
      repo.Valid() && !repo.inTx && Sound(repo.committed) && mat.repo == repo
    }

    /** Opens the transaction, locks the row and checks the action against its status. */
    method Open(id: string, c: Call, a: Action) returns (r: Result<Schedule, Error>)
      requires Ready() && ValidArguments(c.command) && ActionOf(c.command) == Some(a)
      modifies repo
      ensures repo.Valid() && repo.committed == old(repo.committed)
      ensures r.Ok? ==> repo.inTx && repo.working == repo.committed && Schema(repo.working) && id in repo.working
                        && Sound(repo.working)
                        && r.value == repo.working[id].row && r.value.status in AcceptedIn(a)
                        && Kept(repo.working[id], Apply(repo.working[id], c, mat.horizon))
      ensures r.Err? ==> !repo.inTx && Outcome(old(repo.committed), repo.committed, id, c, mat, r)
    {
      hide Apply, Inv, WellFormed, Follows;
      var _, err := repo.Begin();
      if err.Some? {
        return Err(err.value);
      }
      SoundIsSchema(repo.working);
      r := repo.GetScheduleForUpdate(id);
      if r.Err? {
        repo.Rollback();
      } else if r.value.status !in AcceptedIn(a) {
        StatusGate(repo.committed[id], c, mat.horizon);
        repo.Rollback();
        r := Err(Refused(a, r.value.status));
      } else {
        StepKeeps(repo.working[id], c, mat.horizon);
      }
    }

    /** Reads back and commits, or rolls everything back. */
    method Close(id: string, err: Option<Error>) returns (r: Result<Schedule, Error>)
      requires repo.Valid() && repo.inTx
      requires err.None? ==> id in repo.working && Sound(repo.working)
      modifies repo
      ensures repo.Valid() && !repo.inTx
      ensures r.Ok? ==> err.None? && repo.committed == old(repo.working) && r.value == repo.committed[id].row
      ensures r.Err? ==> repo.committed == old(repo.committed)
                         && ((r.error == Io && !repo.reliable) || err == Some(r.error))
    {
      if err.Some? {
        repo.Rollback();
        return Err(err.value);
      }
      r := repo.GetSchedule(id);
      if r.Err? {
        repo.Rollback();
        return;
      }
      var failed := repo.Commit(false);
      if failed.Some? {
        r := Err(failed.value);
      }
    }

    method Pause(id: string, until: Option<Day>, today: Day, actor: Actor) returns (r: Result<Schedule, Error>)
      requires Ready()
      modifies repo
      ensures Ready()
      ensures Outcome(old(repo.committed), repo.committed, id, Call(DoPause(until), today, actor), mat, r)
    {
      hide Lifecycle.Pause, Inv, Sound, Follows;
      r := Open(id, Call(DoPause(until), today, actor), ActionPause);
      if r.Ok? {
        ghost var before := repo.working;
        var err := ApplyPause(r.value, until, today, actor);
        if err.None? {
          SoundAfter(before, id, repo.working[id]);
        }
        r := Close(id, err);
      }
    }

    method ApplyPause(s: Schedule, until: Option<Day>, today: Day, actor: Actor) returns (err: Option<Error>)
      requires repo.Valid() && repo.inTx && mat.repo == repo && Schema(repo.working)
      requires s.id in repo.working && s == repo.working[s.id].row && s.status in AcceptedIn(ActionPause)
      modifies repo`working
      ensures repo.Valid()
      ensures Applied(old(repo.working), repo.working, s.id,
                      Lifecycle.Pause(old(repo.working[s.id]), until, today, actor),
                      repo.reliable, err)
    {
      hide Sound, Inv, WellFormed, Count, CancelAll;
      if until.Some? && !(until.value > today) {
        return Some(Refused(ActionPause, s.status));
      }
      ghost var before := repo.working;
      err := repo.UpdateScheduleStatus(s.id, SchedulePaused, until);
      if err.Some? {
        return;
      }
      ghost var l := repo.working[s.id];
      assert repo.working == before[s.id := l];
      var n: nat;
      n, err := repo.CancelOccurrences(s.id, UNSETTLED);
      if err.Some? {
        return;
      }
      assert repo.working == before[s.id := l.(occs := CancelAll(l.occs, UNSETTLED))];
      err := repo.UpdateScheduleNextRun(s.id, None);
      if err.Some? {
        return;
      }
      err := repo.AppendEvent(s.id, Event(actor, None, PausedEvent(until, n)));
    }

    method Resume(id: string, today: Day, actor: Actor) returns (r: Result<Schedule, Error>)
      requires Ready()
      modifies repo
      ensures Ready()
      ensures Outcome(old(repo.committed), repo.committed, id, Call(DoResume, today, actor), mat, r)
    {
      hide Lifecycle.Resume, Inv, Sound, Follows;
      r := Open(id, Call(DoResume, today, actor), ActionResume);
      if r.Ok? {
        ghost var before := repo.working;
        var err := ApplyResume(r.value, today, actor);
        if err.None? {
          SoundAfter(before, id, repo.working[id]);
        }
        r := Close(id, err);
      }
    }

    method ApplyResume(s: Schedule, today: Day, actor: Actor) returns (err: Option<Error>)
      requires repo.Valid() && repo.inTx && mat.repo == repo && Schema(repo.working)
      requires s.id in repo.working && s == repo.working[s.id].row && s.status in AcceptedIn(ActionResume)
      modifies repo`working
      ensures repo.Valid()
      ensures Applied(old(repo.working), repo.working, s.id,
                      Lifecycle.Resume(old(repo.working[s.id]), today, actor, mat.horizon),
                      repo.reliable, err)
    {
      hide Materialize, Sound, Inv, Keys.IdempotencyKey, Missing;
      err := repo.UpdateScheduleStatus(s.id, ScheduleActive, None);
      if err.Some? {
        return;
      }
      err := repo.UpdateScheduleCadence(s.id, s.interval, today);
      if err.Some? {
        return;
      }
      err := repo.AppendEvent(s.id, Event(actor, None, ResumedEvent(today, s.interval, today + s.interval)));
      if err.Some? {
        return;
      }
      var resumed := s.(status := ScheduleActive, anchor := today, pausedUntil := None);
      var _, _, failed := mat.Run(resumed, today);
      err := failed;
    }

    /** The order a skip or a deferral is about: the soonest still to come.  It is never a
        settled one, so the second check always passes. */
    method NextOccurrence(s: Schedule, a: Action) returns (r: Result<nat, Error>)
      requires s.id in repo.working && (a == ActionSkipNext || a == ActionDefer)
      ensures r.Ok? ==> Soonest(repo.working[s.id].occs, UNSETTLED) == Some(r.value)
      ensures r.Err? ==> Soonest(repo.working[s.id].occs, UNSETTLED) == None && r.error == Refused(a, s.status)
    {
      var target := Soonest(repo.working[s.id].occs, UNSETTLED);
      if target.None? {
        return Err(Refused(a, s.status));
      }
      if !CanTarget(repo.working[s.id].occs[target.value], a) {
        assert false;
        return Err(Refused(a, ScheduleActive));
      }
      r := Ok(target.value);
    }

    method SkipNext(id: string, key: string, today: Day, actor: Actor) returns (r: Result<Schedule, Error>)
      requires Ready()
      modifies repo
      ensures Ready()
      ensures Outcome(old(repo.committed), repo.committed, id, Call(DoSkipNext(key), today, actor), mat, r)
    {
      hide Lifecycle.SkipNext, Inv, Sound, Follows;
      if !ValidKey(key) {
        return Err(BadRequest);
      }
      r := Open(id, Call(DoSkipNext(key), today, actor), ActionSkipNext);
      if r.Ok? {
        ghost var before := repo.working;
        var err := ApplySkipNext(r.value, key, today, actor);
        if err.None? {
          SoundAfter(before, id, repo.working[id]);
        }
        r := Close(id, err);
      }
    }

    method ApplySkipNext(s: Schedule, key: string, today: Day, actor: Actor) returns (err: Option<Error>)
      requires repo.Valid() && repo.inTx && mat.repo == repo && Schema(repo.working)
      requires s.id in repo.working && s == repo.working[s.id].row && s.status in AcceptedIn(ActionSkipNext)
      modifies repo`working
      ensures repo.Valid()
      ensures Applied(old(repo.working), repo.working, s.id,
                      Lifecycle.SkipNext(old(repo.working[s.id]), key, today, actor, mat.horizon),
                      repo.reliable, err)
    {
      hide Materialize, Sound, Inv, WellFormed, SkipRecorded, Soonest, Missing;
      ghost var before := repo.working;
      var done := SkipRecorded(repo.working[s.id].log, key);
      if done {
        assert before == before[s.id := before[s.id]];
        return None;
      }
      var target := NextOccurrence(s, ActionSkipNext);
      if target.Err? {
        return Some(target.error);
      }
      SkipFits(before, s.id, target.value, key, actor);
      var o := repo.working[s.id].occs[target.value];
      err := repo.UpdateOccurrenceStatus(s.id, target.value, Skipped);
      if err.Some? {
        return;
      }
      err := repo.AppendEvent(s.id, Event(actor, Some(key), SkippedEvent(o.seqNo, o.date)));
      if err.Some? {
        return;
      }
      assert repo.working == before[s.id := SkipAt(before[s.id], target.value, key, actor)];
      var _, _, failed := mat.Run(s, today);
      err := failed;
    }

    lemma SkipFits(t: Tables, id: string, k: nat, key: string, actor: Actor)
      requires Schema(t) && id in t && k < |t[id].occs| && t[id].occs[k].status in UNSETTLED
      ensures t[id].occs[k].orderId == None
      ensures Schema(t[id := SkipAt(t[id], k, key, actor)])
    {
    }

    method Defer(id: string, days: int, key: string, today: Day, actor: Actor) returns (r: Result<Schedule, Error>)
      requires Ready()
      modifies repo
      ensures Ready()
      ensures Outcome(old(repo.committed), repo.committed, id, Call(DoDefer(days, key), today, actor), mat, r)
    {
      hide Lifecycle.Defer, Inv, Sound, Follows;
      if !ValidDeferDays(days) || !ValidKey(key) {
        return Err(BadRequest);
      }
      r := Open(id, Call(DoDefer(days, key), today, actor), ActionDefer);
      if r.Ok? {
        ghost var before := repo.working;
        var err := ApplyDefer(r.value, days, key, today, actor);
        if err.None? {
          SoundAfter(before, id, repo.working[id]);
        }
        r := Close(id, err);
      }
    }

    method ApplyDefer(s: Schedule, days: int, key: string, today: Day, actor: Actor) returns (err: Option<Error>)
      requires repo.Valid() && repo.inTx && mat.repo == repo && Schema(repo.working)
      requires s.id in repo.working && s == repo.working[s.id].row && s.status in AcceptedIn(ActionDefer)
      modifies repo`working
      ensures repo.Valid()
      ensures Applied(old(repo.working), repo.working, s.id,
                      Lifecycle.Defer(old(repo.working[s.id]), days, key, today, actor),
                      repo.reliable, err)
    {
      hide Refresh, Sound, Inv, WellFormed, DeferRecorded, Soonest;
      ghost var before := repo.working;
      var done := DeferRecorded(repo.working[s.id].log, key);
      if done {
        assert before == before[s.id := before[s.id]];
        return None;
      }
      var target := NextOccurrence(s, ActionDefer);
      if target.Err? {
        return Some(target.error);
      }
      var o := repo.working[s.id].occs[target.value];
      err := repo.UpdateOccurrenceDate(s.id, target.value, o.date + days);
      if err.Some? {
        return;
      }
      err := repo.AppendEvent(s.id, Event(actor, Some(key), DeferredEvent(o.seqNo, o.date, o.date + days, days)));
      if err.Some? {
        return;
      }
      assert repo.working == before[s.id := DeferAt(before[s.id], target.value, days, key, actor)];
      err := mat.RefreshNextRunDate(s.id, today);
    }

    method ChangeCadence(id: string, interval: int, today: Day, actor: Actor) returns (r: Result<Schedule, Error>)
      requires Ready()
      modifies repo
      ensures Ready()
      ensures Outcome(old(repo.committed), repo.committed, id, Call(DoChangeCadence(interval), today, actor), mat, r)
    {
      hide Lifecycle.ChangeCadence, Inv, Sound, Follows;
      if !ValidInterval(interval) {
        return Err(BadRequest);
      }
      r := Open(id, Call(DoChangeCadence(interval), today, actor), ActionChangeCadence);
      if r.Ok? {
        ghost var before := repo.working;
        var err := ApplyChangeCadence(r.value, interval, today, actor);
        if err.None? {
          SoundAfter(before, id, repo.working[id]);
        }
        r := Close(id, err);
      }
    }

    method ApplyChangeCadence(s: Schedule, interval: int, today: Day, actor: Actor) returns (err: Option<Error>)
      requires repo.Valid() && repo.inTx && mat.repo == repo && Schema(repo.working)
      requires s.id in repo.working && s == repo.working[s.id].row && s.status in AcceptedIn(ActionChangeCadence)
      requires ValidInterval(interval)
      modifies repo`working
      ensures repo.Valid()
      ensures Applied(old(repo.working), repo.working, s.id,
                      Lifecycle.ChangeCadence(old(repo.working[s.id]), interval, today, actor, mat.horizon),
                      repo.reliable, err)
    {
      hide Materialize, Sound, Inv, WellFormed, Reanchored, NewAnchor;
      ghost var before := repo.working;
      var anchor;
      anchor, err := Rewrite(s, interval, today, actor);
      if err.Some? {
        return;
      }
      ReanchoredFits(before, s.id, interval, today, actor);
      var changed := s.(interval := interval, anchor := anchor);
      if changed.status != ScheduleActive {
        err := repo.UpdateScheduleNextRun(s.id, None);
        return;
      }
      var _, _, failed := mat.Run(changed, today);
      err := failed;
    }

    /** Moves the anchor to the last placed order, or to today, and clears the planned
        orders the old cadence left; armed ones stay. */
    method Rewrite(s: Schedule, interval: int, today: Day, actor: Actor) returns (anchor: Day, err: Option<Error>)
      requires repo.Valid() && repo.inTx && s.id in repo.working && s == repo.working[s.id].row
      requires ValidInterval(interval)
      modifies repo`working
      ensures repo.Valid() && s.id in repo.working
      ensures err.None? ==>
                var l := old(repo.working[s.id]);
                && repo.working == old(repo.working)[s.id := Reanchored(l, interval, today, actor)]
                && anchor == NewAnchor(l, today)
      ensures err.Some? ==> err.value == Io && !repo.reliable
    {
      hide Sound, Inv, WellFormed, Count, CancelAll, LastPlaced;
      anchor := today;
      var last := LastPlaced(repo.working[s.id].occs);
      if last.Some? {
        anchor := repo.working[s.id].occs[last.value].date;
      }
      err := repo.UpdateScheduleCadence(s.id, interval, anchor);
      if err.Some? {
        return;
      }
      var rewritten: nat;
      rewritten, err := repo.CancelOccurrences(s.id, {Planned});
      if err.Some? {
        return;
      }
      err := repo.AppendEvent(s.id, Event(actor, None, CadenceChangedEvent(s.interval, interval, anchor, rewritten)));
    }

    lemma ReanchoredFits(t: Tables, id: string, interval: int, today: Day, actor: Actor)
      requires Schema(t) && id in t && ValidInterval(interval)
      ensures Schema(t[id := Reanchored(t[id], interval, today, actor)])
      ensures Reanchored(t[id], interval, today, actor).row
              == t[id].row.(interval := interval, anchor := NewAnchor(t[id], today))
    {
    }

    method Cancel(id: string, reason: string, today: Day, actor: Actor) returns (r: Result<Schedule, Error>)
      requires Ready()
      modifies repo
      ensures Ready()
      ensures Outcome(old(repo.committed), repo.committed, id, Call(DoCancel(reason), today, actor), mat, r)
    {
      hide Lifecycle.Cancel, Inv, Sound, Follows;
      if reason !in CANCELLATION_REASONS {
        return Err(BadRequest);
      }
      r := Open(id, Call(DoCancel(reason), today, actor), ActionCancel);
      if r.Ok? {
        ghost var before := repo.working;
        var err := ApplyCancel(r.value, reason, today, actor);
        if err.None? {
          SoundAfter(before, id, repo.working[id]);
        }
        r := Close(id, err);
      }
    }

    method ApplyCancel(s: Schedule, reason: string, today: Day, actor: Actor) returns (err: Option<Error>)
      requires repo.Valid() && repo.inTx && mat.repo == repo && Schema(repo.working)
      requires s.id in repo.working && s == repo.working[s.id].row && s.status in AcceptedIn(ActionCancel)
      modifies repo`working
      ensures repo.Valid()
      ensures Applied(old(repo.working), repo.working, s.id,
                      Lifecycle.Cancel(old(repo.working[s.id]), reason, actor),
                      repo.reliable, err)
    {
      hide Sound, Inv, WellFormed, Count, CancelAll;
      ghost var before := repo.working;
      err := repo.UpdateScheduleStatus(s.id, ScheduleCanceled, None);
      if err.Some? {
        return;
      }
      ghost var l := repo.working[s.id];
      assert repo.working == before[s.id := l];
      var n: nat;
      n, err := repo.CancelOccurrences(s.id, UNSETTLED);
      if err.Some? {
        return;
      }
      assert repo.working == before[s.id := l.(occs := CancelAll(l.occs, UNSETTLED))];
      err := repo.UpdateScheduleNextRun(s.id, None);
      if err.Some? {
        return;
      }
      err := repo.AppendEvent(s.id, Event(actor, None, CanceledEvent(reason, n)));
    }

    method ArmNext(id: string, today: Day, actor: Actor) returns (r: Result<Schedule, Error>)
      requires Ready()
      modifies repo
      ensures Ready()
      ensures Outcome(old(repo.committed), repo.committed, id, Call(DoArmNext, today, actor), mat, r)
    {
      hide Lifecycle.ArmNext, Inv, Sound, Follows;
      r := Open(id, Call(DoArmNext, today, actor), ActionArm);
      if r.Ok? {
        ghost var before := repo.working;
        var err := ApplyArmNext(r.value, today, actor);
        if err.None? {
          SoundAfter(before, id, repo.working[id]);
        }
        r := Close(id, err);
      }
    }

    method ApplyArmNext(s: Schedule, today: Day, actor: Actor) returns (err: Option<Error>)
      requires repo.Valid() && repo.inTx && mat.repo == repo && Schema(repo.working)
      requires s.id in repo.working && s == repo.working[s.id].row && s.status in AcceptedIn(ActionArm)
      modifies repo`working
      ensures repo.Valid()
      ensures Applied(old(repo.working), repo.working, s.id,
                      Lifecycle.ArmNext(old(repo.working[s.id]), actor),
                      repo.reliable, err)
    {
      hide Sound, Inv, Keys.IdempotencyKey;
      var target := Soonest(repo.working[s.id].occs, {Planned});
      if target.None? {
        return Some(Refused(ActionArm, s.status));
      }
      var o := repo.working[s.id].occs[target.value];
      err := repo.UpdateOccurrenceStatus(s.id, target.value, Pending);
      if err.Some? {
        return;
      }
      err := repo.AppendEvent(s.id, Event(actor, None, ArmedEvent(o.seqNo, o.date)));
    }
  }
}
