/**
 The repository: the tables, one open transaction at a time, and the statements the
 service issues.  Unless the connection is reliable any statement may fail in the driver
 (Io); a failed one changes nothing.  A row just read is addressed by its schedule's id
 and its position.
 */
module Stores {
  import opened Wrappers
  import opened Cadence
  import opened Ledgers
  import opened Lifecycle
  import opened Invariants

  type Tables = map<string, Ledger>

  ghost predicate Schema(t: Tables) {
    forall id :: id in t ==> t[id].row.id == id && WellFormed(t[id])
  }

  /** No checkout ever established two schedules. */
  ghost predicate OriginsDistinct(t: Tables) {
    forall a, b :: a in t && b in t && t[a].row.origin == t[b].row.origin ==> a == b
  }

  ghost predicate Sound(t: Tables) {
    && (forall id :: id in t ==> t[id].row.id == id && Inv(t[id]))
    && OriginsDistinct(t)
  }

  lemma SoundIsSchema(t: Tables)
    requires Sound(t)
    ensures Schema(t)
  {
    hide OriginsDistinct;
  }

  /** Moving one schedule forward keeps the tables sound. */
  lemma SoundAfter(t: Tables, id: string, next: Ledger)
    requires Sound(t) && id in t && Inv(next) && Follows(t[id], next)
    ensures Sound(t[id := next])
  {
    hide Inv;
    var u := t[id := next];
    forall a, b | a in u && b in u && u[a].row.origin == u[b].row.origin ensures a == b {
      assert t[a].row.origin == u[a].row.origin && t[b].row.origin == u[b].row.origin;
    }
  }

  predicate KeyTaken(t: Tables, key: string) {
    exists id | id in t :: exists k :: 0 <= k < |t[id].occs| && t[id].occs[k].key == key
  }

  predicate SequenceTaken(l: Ledger, seqNo: int) {
    exists k :: 0 <= k < |l.occs| && l.occs[k].seqNo == seqNo
  }

  predicate OriginTaken(t: Tables, origin: string) {
    exists id | id in t :: t[id].row.origin == origin
  }

  class Repository {
    var committed: Tables  // what everyone else sees
    var working: Tables    // what the open transaction sees
    var inTx: bool
    const reliable: bool   // the database never fails on its own account

    ghost predicate Valid()
      reads this
    {
      && (forall id :: id in committed ==> committed[id].row.id == id)
      && (forall id :: id in working ==> working[id].row.id == id)
      && (!inTx ==> working == committed)
    }

    /** What a statement writes to: the open transaction, or else the tables themselves. */
    ghost function Target(): set<object>
      reads this
    {
      if inTx then {} else {this}
    }

    constructor (reliable: bool)
      ensures Valid() && !inTx && committed == map[] && this.reliable == reliable
    {
      committed, working, inTx := map[], map[], false;
      this.reliable := reliable;
    }

    method Fault() returns (fault: bool)
      ensures fault ==> !reliable
    {
      fault := *;
      if reliable {
        fault := false;
      }
    }

    // ----- transactions -----

    /** Opens a transaction, or joins the one already open. */
    method Begin() returns (joined: bool, err: Option<Error>)
      requires Valid()
      modifies Target()
      ensures Valid() && committed == old(committed) && working == old(working)
      ensures joined == old(inTx)
      ensures inTx <==> joined || err.None?
      ensures err.Some? ==> !joined && err.value == Io && !reliable
    {
      joined := inTx;
      if joined {
        return true, None;
      }
      var fault := Fault();
      if fault {
        return false, Some(Io);
      }
      inTx := true;
      err := None;
    }

    /** Commits what Begin opened.  A joined transaction is left to whoever opened it. */
    method Commit(joined: bool) returns (err: Option<Error>)
      requires Valid() && inTx
      modifies if joined then {} else {this}
      ensures Valid() && (inTx <==> joined)
      ensures joined ==> err.None? && committed == old(committed) && working == old(working)
      ensures !joined && err.None? ==> committed == old(working)
      ensures err.Some? ==> committed == old(committed) && err.value == Io && !reliable
    {
      if joined {
        return None;
      }
      inTx := false;
      var fault := Fault();
      if fault {
        working := committed;
        return Some(Io);
      }
      committed := working;
      err := None;
    }

    method Rollback()
      requires Valid()
      modifies this
      ensures Valid() && !inTx && committed == old(committed)
    {
      working, inTx := committed, false;
    }

    // ----- schedule rows -----

    method GetSchedule(id: string) returns (r: Result<Schedule, Error>)
      ensures r.Ok? ==> id in working && r.value == working[id].row
      ensures r.Err? ==> (r.error == Io && !reliable) || (r.error == NotFound && id !in working)
    {
      var fault := Fault();
      if fault {
        return Err(Io);
      }
      if id !in working {
        return Err(NotFound);
      }
      r := Ok(working[id].row);
    }

    method GetScheduleByOriginOrderID(origin: string) returns (r: Result<Schedule, Error>)
      ensures r.Ok? ==> exists id :: id in working && working[id].row.origin == origin && r.value == working[id].row
      ensures r.Err? ==> (r.error == Io && !reliable) || (r.error == NotFound && !OriginTaken(working, origin))
    {
      var fault := Fault();
      if fault {
        return Err(Io);
      }
      if !OriginTaken(working, origin) {
        return Err(NotFound);
      }
      var id :| id in working && working[id].row.origin == origin;
      r := Ok(working[id].row);
    }

    /** Reads and locks, and so is only for an open transaction. */
    method GetScheduleForUpdate(id: string) returns (r: Result<Schedule, Error>)
      ensures r.Ok? ==> inTx && id in working && r.value == working[id].row
      ensures r.Err? ==> (r.error == NoTransaction && !inTx) || (inTx && r.error == Io && !reliable)
                         || (inTx && r.error == NotFound && id !in working)
    {
      if !inTx {
        return Err(NoTransaction);
      }
      r := GetSchedule(id);
    }

    /** The ids of the active schedules, in some order. */
    method ListActiveSchedules() returns (r: Result<seq<string>, Error>)
      ensures r.Err? ==> r.error == Io && !reliable
      ensures r.Ok? ==> (forall i, j :: 0 <= i < j < |r.value| ==> r.value[i] != r.value[j])
      ensures r.Ok? ==> forall id :: id in r.value <==> id in working && working[id].row.status == ScheduleActive
    {
      var fault := Fault();
      if fault {
        return Err(Io);
      }
      var rest := set id | id in working && working[id].row.status == ScheduleActive;
      ghost var all := rest;
      var out := [];
      while rest != {}
        invariant forall i, j :: 0 <= i < j < |out| ==> out[i] != out[j]
        invariant forall id :: id in all <==> id in rest || id in out
        invariant forall id :: id in rest ==> id !in out
        decreases rest
      {
        var id :| id in rest;
        rest := rest - {id};
        out := out + [id];
      }
      r := Ok(out);
    }

    /** Every statement below writes through here: all of it, or a failure and none.
        Outside a transaction it is a transaction of its own. */
    method Write(id: string, next: Ledger) returns (err: Option<Error>)
      requires Valid() && next.row.id == id
      modifies this`working, Target()
      ensures Valid() && inTx == old(inTx)
      ensures err.None? ==> working == old(working)[id := next]
      ensures err.Some? ==> working == old(working) && err.value == Io && !reliable
    {
      var fault := Fault();
      if fault {
        return Some(Io);
      }
      working := working[id := next];
      if !inTx {
        committed := working;
      }
      err := None;
    }

    /** Inserts a schedule, in a transaction of its own unless one is open.  A checkout that
        already has one is reported as such. */
    method CreateSchedule(row: Schedule) returns (err: Option<Error>)
      requires Valid()
      modifies this`working, Target()
      ensures Valid() && inTx == old(inTx)
      ensures err.None? ==>
                && 7 <= row.interval <= 180 && row.id !in old(working)
                && (forall a :: a in old(working) ==> old(working)[a].row.origin != row.origin)
                && working == old(working)[row.id := Ledger(row, [], [])]
      ensures err.Some? ==> working == old(working)
      ensures err.Some? ==> match err.value
                            case BadRequest => !ValidInterval(row.interval)
                            case Rejected => row.id in working
                            case Duplicate => OriginTaken(working, row.origin)
                            case Io => !reliable
                            case _ => false
    {
      if !ValidInterval(row.interval) {
        return Some(BadRequest);
      }
      var joined;
      joined, err := Begin();
      if err.Some? {
        return;
      }
      err := InsertSchedule(row);
      if err.None? {
        err := Commit(joined);
      } else if !joined {
        Rollback();
      }
    }

    method InsertSchedule(row: Schedule) returns (err: Option<Error>)
      requires Valid() && inTx
      modifies this`working
      ensures Valid()
      ensures err.None? ==>
                && row.id !in old(working) && !OriginTaken(old(working), row.origin)
                && working == old(working)[row.id := Ledger(row, [], [])]
      ensures err.Some? ==> working == old(working)
      ensures err.Some? ==> match err.value
                            case Rejected => row.id in working
                            case Duplicate => OriginTaken(working, row.origin)
                            case Io => !reliable
                            case _ => false
    {
      if row.id in working {
        return Some(Rejected);
      }
      if OriginTaken(working, row.origin) {
        return Some(Duplicate);
      }
      err := Write(row.id, Ledger(row, [], []));
    }

    method UpdateScheduleStatus(id: string, status: ScheduleStatus, until: Option<Day>) returns (err: Option<Error>)
      requires Valid()
      modifies this`working, Target()
      ensures Valid() && inTx == old(inTx)
      ensures err.None? ==>
                && id in old(working) && (until.Some? ==> status == SchedulePaused)
                && working == old(working)[id := var l := old(working)[id];
                                                 l.(row := l.row.(status := status, pausedUntil := until))]
      ensures err.Some? ==> working == old(working)
                            && ((err.value == Io && !reliable) || (err.value == NotFound && id !in working)
                                || (err.value == BadRequest && status != SchedulePaused && until.Some?))
    {
      if status != SchedulePaused && until.Some? {
        return Some(BadRequest);
      }
      if id !in working {
        return Some(NotFound);
      }
      var l := working[id];
      err := Write(id, l.(row := l.row.(status := status, pausedUntil := until)));
    }

    method UpdateScheduleCadence(id: string, interval: int, anchor: Day) returns (err: Option<Error>)
      requires Valid()
      modifies this`working, Target()
      ensures Valid() && inTx == old(inTx)
      ensures err.None? ==>
                && id in old(working) && 7 <= interval <= 180
                && working == old(working)[id := var l := old(working)[id];
                                                 l.(row := l.row.(interval := interval, anchor := anchor))]
      ensures err.Some? ==> working == old(working)
                            && ((err.value == Io && !reliable) || (err.value == NotFound && id !in working)
                                || (err.value == BadRequest && !ValidInterval(interval)))
    {
      if !ValidInterval(interval) {
        return Some(BadRequest);
      }
      if id !in working {
        return Some(NotFound);
      }
      var l := working[id];
      err := Write(id, l.(row := l.row.(interval := interval, anchor := anchor)));
    }

    method UpdateScheduleNextRun(id: string, next: Option<Day>) returns (err: Option<Error>)
      requires Valid()
      modifies this`working, Target()
      ensures Valid() && inTx == old(inTx)
      ensures err.None? ==>
                && id in old(working)
                && working == old(working)[id := var l := old(working)[id]; l.(row := l.row.(nextRun := next))]
      ensures err.Some? ==> working == old(working)
                            && ((err.value == Io && !reliable) || (err.value == NotFound && id !in working))
    {
      if id !in working {
        return Some(NotFound);
      }
      var l := working[id];
      err := Write(id, l.(row := l.row.(nextRun := next)));
    }

    // ----- occurrence rows -----

    method CreateOccurrence(id: string, o: Occurrence) returns (err: Option<Error>)
      requires Valid()
      modifies this`working, Target()
      ensures Valid() && inTx == old(inTx)
      ensures err.None? ==>
                && id in old(working)
                && (forall a, k :: a in old(working) && 0 <= k < |old(working)[a].occs| ==>
                      && old(working)[a].occs[k].key != o.key
                      && (a == id ==> old(working)[a].occs[k].seqNo != o.seqNo))
                && working == old(working)[id := var l := old(working)[id]; l.(occs := l.occs + [o])]
      ensures err.Some? ==> working == old(working)
                            && ((err.value == Io && !reliable) || (err.value == Rejected && id !in working)
                                || (err.value == Duplicate
                                    && (KeyTaken(working, o.key)
                                        || (id in working && SequenceTaken(working[id], o.seqNo)))))
    {
      if KeyTaken(working, o.key) || (id in working && SequenceTaken(working[id], o.seqNo)) {
        return Some(Duplicate);
      }
      if id !in working {
        return Some(Rejected);
      }
      var l := working[id];
      err := Write(id, l.(occs := l.occs + [o]));
    }

    /** Never touches a row with an order reference. */
    method UpdateOccurrenceStatus(id: string, k: nat, status: OccurrenceStatus) returns (err: Option<Error>)
      requires Valid()
      modifies this`working, Target()
      ensures Valid() && inTx == old(inTx)
      ensures err.None? ==>
                && id in old(working) && k < |old(working)[id].occs| && old(working)[id].occs[k].orderId.None?
                && working == old(working)[id := var l := old(working)[id];
                                                 l.(occs := l.occs[k := l.occs[k].(status := status)])]
      ensures err.Some? ==> working == old(working)
                            && ((err.value == Io && !reliable)
                                || (err.value == NotFound
                                    && (id in working && k < |working[id].occs| ==> working[id].occs[k].orderId.Some?)))
    {
      if id !in working || k >= |working[id].occs| || working[id].occs[k].orderId.Some? {
        return Some(NotFound);
      }
      var l := working[id];
      err := Write(id, l.(occs := l.occs[k := l.occs[k].(status := status)]));
    }

    /** Moves an unsettled row only. */
    method UpdateOccurrenceDate(id: string, k: nat, date: Day) returns (err: Option<Error>)
      requires Valid()
      modifies this`working, Target()
      ensures Valid() && inTx == old(inTx)
      ensures err.None? ==>
                && id in old(working) && k < |old(working)[id].occs| && old(working)[id].occs[k].status in UNSETTLED
                && working == old(working)[id := var l := old(working)[id];
                                                 l.(occs := l.occs[k := l.occs[k].(date := date)])]
      ensures err.Some? ==> working == old(working)
                            && ((err.value == Io && !reliable)
                                || (err.value == NotFound
                                    && (id in working && k < |working[id].occs|
                                        ==> working[id].occs[k].status !in UNSETTLED)))
    {
      if id !in working || k >= |working[id].occs| || working[id].occs[k].status !in UNSETTLED {
        return Some(NotFound);
      }
      var l := working[id];
      err := Write(id, l.(occs := l.occs[k := l.occs[k].(date := date)]));
    }

    /** One sweep over the rows; returns how many it flipped. */
    method CancelOccurrences(id: string, ss: set<OccurrenceStatus>) returns (n: nat, err: Option<Error>)
      requires Valid()
      modifies this`working, Target()
      ensures Valid() && inTx == old(inTx)
      ensures err.None? && id in old(working) ==>
                n == Count(old(working)[id].occs, Cancelable(ss))
                && working == old(working)[id := var l := old(working)[id]; l.(occs := CancelAll(l.occs, ss))]
      ensures err.None? && id !in old(working) ==> n == 0 && working == old(working)
      ensures err.Some? ==> working == old(working) && err.value == Io && !reliable
    {
      if id !in working {
        var fault := Fault();
        return 0, if fault then Some(Io) else None;
      }
      var l := working[id];
      n := Count(l.occs, Cancelable(ss));
      err := Write(id, l.(occs := CancelAll(l.occs, ss)));
    }

    /** The planned rows, in sequence order. */
    method ListPlannedOccurrences(id: string) returns (r: Result<seq<Occurrence>, Error>)
      ensures r.Ok? ==> r.value == if id in working then PlannedRows(working[id].occs) else []
      ensures r.Err? ==> r.error == Io && !reliable
    {
      var fault := Fault();
      if fault {
        return Err(Io);
      }
      var occs := if id in working then working[id].occs else [];
      var out := [];
      for i := 0 to |occs|
        invariant out == PlannedRows(occs[..i])
      {
        assert occs[..i + 1][..i] == occs[..i];
        if occs[i].status == Planned {
          out := out + [occs[i]];
        }
      }
      assert occs[..|occs|] == occs;
      r := Ok(out);
    }

    // ----- events -----

    method AppendEvent(id: string, e: Event) returns (err: Option<Error>)
      requires Valid()
      modifies this`working, Target()
      ensures Valid() && inTx == old(inTx)
      ensures err.None? ==>
                && id in old(working)
                && working == old(working)[id := var l := old(working)[id]; l.(log := l.log + [e])]
      ensures err.Some? ==> working == old(working)
                            && ((err.value == Io && !reliable) || (err.value == Rejected && id !in working))
    {
      if id !in working {
        return Some(Rejected);
      }
      var l := working[id];
      err := Write(id, l.(log := l.log + [e]));
    }
  }
}
