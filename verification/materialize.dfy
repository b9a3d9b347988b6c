/**
 The materializer: tops up one schedule inside the caller's transaction, and every
 active schedule one transaction at a time.
 */
module Materializers {
  import opened Wrappers
  import opened Cadence
  import opened Ledgers
  import opened Lifecycle
  import opened Invariants
  import opened Stores
  import Keys

  class Materializer {
    const repo: Repository
    const horizon: int

    constructor (repo: Repository, horizon: int)
      ensures this.repo == repo && this.horizon == (if horizon < 1 then 1 else horizon)
    {
      this.repo := repo;
      this.horizon := if horizon < 1 then 1 else horizon;
    }

    /** Recomputes next_run_date from the planned rows. */
    method RefreshNextRunDate(id: string, today: Day) returns (err: Option<Error>)
      requires repo.Valid() && repo.inTx && id in repo.working
      modifies repo`working
      ensures repo.Valid()
      ensures err.None? ==>
                repo.working == old(repo.working)[id := Refresh(old(repo.working[id]), today)]
                && repo.working[id].occs == old(repo.working[id]).occs
      ensures err.Some? ==> repo.working == old(repo.working) && err.value == Io && !repo.reliable
    {
      hide PlannedRows;
      var listed := repo.ListPlannedOccurrences(id);
      if listed.Err? {
        return Some(listed.error);
      }
      var planned := listed.value;
      var next: Option<Day> := None;
      for i := 0 to |planned|
        invariant IsNextRun(planned[..i], today, next)
      {
        var d := planned[i].date;
        assert planned[i] in planned;
        if d > today && (next.None? || d < next.value) {
          next := Some(d);
          assert FuturePlanned(today)(planned[..i + 1][i]);
        } else if next.Some? {
          var j :| 0 <= j < i && FuturePlanned(today)(planned[..i][j]) && planned[..i][j].date == next.value;
          assert planned[..i + 1][j] == planned[..i][j];
        }
        assert planned[..i + 1] == planned[..i] + [planned[i]];
      }
      assert planned[..|planned|] == planned;
      SameNextRun(repo.working[id].occs, planned, today, next);
      err := repo.UpdateScheduleNextRun(id, next);
    }

    lemma SameNextRun(occs: seq<Occurrence>, planned: seq<Occurrence>, today: Day, next: Option<Day>)
      requires forall o :: o in planned <==> o in occs && o.status == Planned
      requires IsNextRun(planned, today, next)
      ensures next == NextRun(occs, today)
    {
      forall k | 0 <= k < |occs| && FuturePlanned(today)(occs[k])
        ensures next.Some? && next.value <= occs[k].date
      {
        assert occs[k] in planned;
        var j :| 0 <= j < |planned| && planned[j] == occs[k];
      }
      if next.Some? {
        var j :| 0 <= j < |planned| && FuturePlanned(today)(planned[j]) && planned[j].date == next.value;
        assert planned[j] in planned;
        var k :| 0 <= k < |occs| && occs[k] == planned[j];
      }
      NextRunUnique(occs, today, next);
    }

    /** Tops up one schedule.  `duplicates` counts inserts the unique constraints turned
        away; under the row lock there are none. */
    method Run(s: Schedule, today: Day) returns (created: nat, duplicates: int, err: Option<Error>)
      requires repo.Valid() && repo.inTx && Schema(repo.working)
      requires s.id in repo.working && s == repo.working[s.id].row
      modifies repo`working
      ensures repo.Valid() && duplicates == 0 && s.id in repo.working
      ensures err.None? ==>
                Materialize(old(repo.working[s.id]), today, horizon).Ok?
                && repo.working == old(repo.working)[s.id := Materialize(old(repo.working[s.id]), today, horizon).value]
                && created == |repo.working[s.id].occs| - |old(repo.working[s.id]).occs|
      ensures err.Some? ==> err.value == Io && !repo.reliable
    {
      hide Count, NextRun, WalkDate, AddRow, Refresh, Inv;
      created, duplicates := 0, 0;
      if s.status != ScheduleActive {
        assert repo.working == repo.working[s.id := repo.working[s.id]];
        return 0, 0, None;
      }
      if !ValidInterval(s.interval) {
        assert false;
        err := Some(BadRequest);
        return;
      }
      var existing := Count(repo.working[s.id].occs, FuturePlanned(today));
      var missing := horizon - existing;
      if missing <= 0 {
        err := RefreshNextRunDate(s.id, today);
        return 0, 0, err;
      }
      created, duplicates, err := PlanMissing(s, today, missing);
      if err.None? {
        err := RefreshNextRunDate(s.id, today);
      }
    }

    /** Walks the cadence forward from the furthest date spoken for, planning each date
        it comes to. */
    method PlanMissing(s: Schedule, today: Day, missing: nat)
      returns (created: nat, duplicates: int, err: Option<Error>)
      requires repo.Valid() && repo.inTx && Schema(repo.working)
      requires s.id in repo.working && s == repo.working[s.id].row
      modifies repo`working
      ensures repo.Valid() && duplicates == 0 && s.id in repo.working
      ensures err.None? ==>
                var l := old(repo.working[s.id]);
                repo.working == old(repo.working)[s.id := AddRows(l, PlanDates(l, today, missing))]
                && created == missing
      ensures err.Some? ==> err.value == Io && !repo.reliable
    {
      hide NextOccurrenceAfter, WalkDate, AddRow, MaxSequenceNo, KeyTaken, SequenceTaken, Sound, Schema;
      var id := s.id;
      ghost var before := repo.working;
      ghost var l := before[id];
      created, duplicates, err := 0, 0, None;
      var seqNo := MaxSequenceNo(repo.working[id].occs);
      NumberedByCount(before, id);
      var cursor := today;
      var latest := LatestUnsettled(repo.working[id].occs);
      if latest.Some? && latest.value > cursor {
        cursor := latest.value;
      }
      ghost var start := cursor;
      ghost var dates := PlanDates(l, today, missing);
      assert start == Cursor(l, today);
      AddRowsNone(l, dates[..0]);
      assert before == before[id := l];
      hide LatestUnsettled, AddRows, Cursor, PlanDates;

      for i := 0 to missing
        invariant repo.Valid() && seqNo == |l.occs| + i && created == i && duplicates == 0
        invariant repo.working == before[id := AddRows(l, dates[..i])]
        invariant cursor == if i == 0 then start else WalkDate(s.anchor, s.interval, start, i - 1)
      {
        var next := NextOccurrenceAfter(s.anchor, s.interval, cursor);
        WalkStep(s.anchor, s.interval, start, i);
        cursor := next.date;
        seqNo := seqNo + 1;
        ghost var here := AddRows(l, dates[..i]);
        var failed := Plan(id, seqNo, cursor);
        if failed == Some(Duplicate) {
          NoDuplicate(before, l, dates[..i], id, seqNo);
          assert false;
          duplicates := duplicates + 1;
        } else if failed.Some? {
          return created, duplicates, failed;
        } else {
          created := created + 1;
        }
        AddRowsOneMore(l, dates, i);
        assert repo.working == before[id := AddRow(here, cursor)];
      }
      assert dates[..missing] == dates;
    }

    /** One planned row, and its event. */
    method Plan(id: string, seqNo: int, date: Day) returns (err: Option<Error>)
      requires repo.Valid() && repo.inTx && id in repo.working && seqNo == |repo.working[id].occs| + 1
      modifies repo`working
      ensures repo.Valid() && id in repo.working
      ensures err.None? ==> repo.working == old(repo.working)[id := AddRow(old(repo.working[id]), date)]
      ensures err == Some(Duplicate) ==>
                KeyTaken(old(repo.working), Keys.IdempotencyKey(id, seqNo))
                || SequenceTaken(old(repo.working)[id], seqNo)
      ensures err.None? || err == Some(Duplicate) || (err == Some(Io) && !repo.reliable)
    {
      err := repo.CreateOccurrence(id, PlannedRow(id, seqNo, date));
      if err.None? {
        err := repo.AppendEvent(id, Event(System, None, MaterializedEvent(seqNo, date)));
      }
    }

    lemma NumberedByCount(t: Tables, id: string)
      requires Schema(t) && id in t
      ensures MaxSequenceNo(t[id].occs) == |t[id].occs| && t[id].row.id == id && ValidInterval(t[id].row.interval)
    {
      MaxSequenceNoIsCount(t[id].occs);
    }

    lemma NoDuplicate(t: Tables, l: Ledger, dates: seq<Day>, id: string, seqNo: int)
      requires Schema(t) && id in t && t[id] == l && seqNo == |l.occs| + |dates| + 1
      ensures var u := t[id := AddRows(l, dates)];
              !KeyTaken(u, Keys.IdempotencyKey(id, seqNo)) && !SequenceTaken(u[id], seqNo)
    {
      var u := t[id := AddRows(l, dates)];
      forall a, j | a in u && 0 <= j < |u[a].occs|
        ensures u[a].occs[j].key != Keys.IdempotencyKey(id, seqNo)
        ensures a == id ==> u[a].occs[j].seqNo != seqNo
      {
        if a == id {
          AddRowsAt(l, dates, j);
        }
        Keys.IdempotencyKeyInjective(a, j + 1, id, seqNo);
      }
    }

    /** How many rows topping up each schedule of a listing once adds in all. */
    static function RowsToPlan(t: Tables, listing: seq<string>, today: Day, horizon: int): int {
      if |listing| == 0 then 0
      else
        var id := listing[|listing| - 1];
        RowsToPlan(t, listing[..|listing| - 1], today, horizon)
        + (if id in t then |ToppedUp(t[id], today, horizon).occs| - |t[id].occs| else 0)
    }

    static function ToppedUp(l: Ledger, today: Day, horizon: int): Ledger {
      Step(l, Call(DoMaterialize, today, System), horizon)
    }

    /** Tops up every active schedule.  The ghost result is the order they came in. */
    method RunAll(today: Day)
      returns (considered: nat, created: int, duplicates: int, err: Option<Error>, ghost listing: seq<string>)
      requires repo.Valid() && !repo.inTx && Sound(repo.committed)
      modifies repo
      ensures repo.Valid() && !repo.inTx && Sound(repo.committed) && duplicates == 0
      ensures err.Some? ==> !repo.reliable
      ensures repo.committed.Keys == old(repo.committed).Keys
      ensures forall id :: id in repo.committed ==>
                var l := old(repo.committed)[id];
                repo.committed[id] == ToppedUp(l, today, horizon) || (err.Some? && repo.committed[id] == l)
      ensures considered == |listing| && forall i, j :: 0 <= i < j < |listing| ==> listing[i] != listing[j]
      ensures err.None? ==>
                && (forall id :: id in listing <==>
                      id in old(repo.committed) && old(repo.committed)[id].row.status == ScheduleActive)
                && created == RowsToPlan(old(repo.committed), listing, today, horizon)
    {
      var listed := repo.ListActiveSchedules();
      if listed.Err? {
        return 0, 0, 0, Some(listed.error), [];
      }
      listing := listed.value;
      considered, created, duplicates, err := RunListed(listed.value, today);
    }

    /** Tops up every schedule of a listing, however old it is, each under its own lock and against the row
        as it stands then.  One failure does not stop the rest. */
    method RunListed(listing: seq<string>, today: Day)
      returns (considered: nat, created: int, duplicates: int, firstErr: Option<Error>)
      requires repo.Valid() && !repo.inTx && Sound(repo.committed)
      requires forall i, j :: 0 <= i < j < |listing| ==> listing[i] != listing[j]
      modifies repo
      ensures repo.Valid() && !repo.inTx && Sound(repo.committed) && duplicates == 0
      ensures firstErr.Some? ==> !repo.reliable
      ensures considered == |listing|
      ensures repo.committed.Keys == old(repo.committed).Keys
      ensures forall id :: id in repo.committed ==>
                var l := old(repo.committed)[id];
                || repo.committed[id] == (if id in listing then ToppedUp(l, today, horizon) else l)
                || (firstErr.Some? && repo.committed[id] == l)
      ensures firstErr.None? ==> created == RowsToPlan(old(repo.committed), listing, today, horizon)
    {
      hide ToppedUp, Sound;
      ghost var before := repo.committed;
      considered, created, duplicates, firstErr := 0, 0, 0, None;
      for i := 0 to |listing|
        invariant repo.Valid() && !repo.inTx && Sound(repo.committed) && duplicates == 0
        invariant repo.committed.Keys == before.Keys
        invariant firstErr.Some? ==> !repo.reliable
        invariant considered == i
        invariant forall id :: id in before && id !in listing[..i] ==> repo.committed[id] == before[id]
        invariant forall id :: id in before && id in listing[..i] ==>
                    || repo.committed[id] == ToppedUp(before[id], today, horizon)
                    || (firstErr.Some? && repo.committed[id] == before[id])
        invariant firstErr.None? ==> created == RowsToPlan(before, listing[..i], today, horizon)
      {
        assert listing[..i + 1][..i] == listing[..i] && listing[..i + 1] == listing[..i] + [listing[i]];
        considered := considered + 1;
        var c, d, err := RunOne(listing[i], today);
        created, duplicates := created + c, duplicates + d;
        if err.Some? && firstErr.None? {
          firstErr := err;
        }
      }
      assert listing[..|listing|] == listing;
    }

    /** One schedule, one transaction: lock, re-read, top up, commit. */
    method RunOne(id: string, today: Day) returns (created: nat, duplicates: int, err: Option<Error>)
      requires repo.Valid() && !repo.inTx && Sound(repo.committed)
      modifies repo
      ensures repo.Valid() && !repo.inTx && Sound(repo.committed) && duplicates == 0
      ensures err.Some? ==> err.value == Io && !repo.reliable
      ensures repo.committed.Keys == old(repo.committed).Keys
      ensures err.Some? || id !in repo.committed ==> repo.committed == old(repo.committed)
      ensures err.None? && id in repo.committed ==>
                repo.committed == old(repo.committed)[id := ToppedUp(old(repo.committed)[id], today, horizon)]
      ensures err.None? ==>
                created == if id in repo.committed
                           then |repo.committed[id].occs| - |old(repo.committed)[id].occs| else 0
    {
      hide Inv, Materialize, Sound, Follows;
      created, duplicates := 0, 0;
      var joined;
      joined, err := repo.Begin();
      if err.Some? {
        return;
      }
      SoundIsSchema(repo.working);
      var current := repo.GetScheduleForUpdate(id);
      if current.Err? {
        repo.Rollback();
        // Deleted since it was listed.
        return 0, 0, if current.error == NotFound then None else Some(current.error);
      }
      ghost var before := repo.committed;
      ToppedUpIsSound(before, id, today);
      created, duplicates, err := Run(current.value, today);
      if err.Some? {
        repo.Rollback();
      } else {
        err := repo.Commit(joined);
      }
    }

    lemma ToppedUpIsSound(t: Tables, id: string, today: Day)
      requires Sound(t) && id in t
      ensures Materialize(t[id], today, horizon) == Ok(ToppedUp(t[id], today, horizon))
      ensures Sound(t[id := ToppedUp(t[id], today, horizon)])
    {
      hide Inv, Materialize, Follows;
      MaterializeKeeps(t[id], today, horizon);
      SoundAfter(t, id, ToppedUp(t[id], today, horizon));
    }
  }
}
