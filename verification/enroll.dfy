/**
 Checkout: a new schedule and its creation event in one transaction, once per checkout
 order.
 */
module Enrollments {
  import opened Wrappers
  import opened Cadence
  import opened Ledgers
  import opened Lifecycle
  import opened Invariants
  import opened Stores

  class Enrollment {
    const repo: Repository

    constructor (repo: Repository)
      ensures this.repo == repo
    {
      this.repo := repo;
    }

    /** Opens the schedule of a checkout under a new id, or finds the one it already has.
        Whichever it is, from then on the checkout has exactly that one: sending it again
        creates nothing. */
    method Create(id: string, origin: string, interval: int, anchor: Day)
      returns (r: Result<Schedule, Error>, created: bool)
      requires repo.Valid() && !repo.inTx && Sound(repo.committed)
      modifies repo
      ensures repo.Valid() && !repo.inTx && Sound(repo.committed)
      ensures r.Ok? ==>
                && origin != "" && ValidInterval(interval)
                && (created <==> forall a :: a in old(repo.committed) ==> old(repo.committed)[a].row.origin != origin)
                && repo.committed == (if created then old(repo.committed)[id := Created(id, origin, interval, anchor)]
                                      else old(repo.committed))
                && (created ==> id !in old(repo.committed))
                && (created ==> repo.committed[id]
                                == Ledger(Schedule(id, origin, ScheduleActive, interval, anchor, None, None), [],
                                          [Event(System, None, CreatedEvent(anchor, interval))]))
                && (exists a :: a in repo.committed && repo.committed[a].row == r.value && r.value.origin == origin)
      ensures r.Err? ==> repo.committed == old(repo.committed) && !created
      ensures r.Err? ==> match r.error
                         case BadRequest => origin == "" || !ValidInterval(interval)
                         case Rejected => id in repo.committed
                         case Io => !repo.reliable
                         case _ => false
    {
      hide Sound, Inv, WellFormed;
      created := false;
      if origin == "" || !ValidInterval(interval) {
        return Err(BadRequest), false;
      }
      var err := Insert(Schedule(id, origin, ScheduleActive, interval, anchor, None, None));
      if err == Some(Duplicate) {
        r := repo.GetScheduleByOriginOrderID(origin);
        return r, false;
      }
      if err.Some? {
        return Err(err.value), false;
      }
      assert repo.committed[id].row.origin == origin;
      r, created := Ok(repo.committed[id].row), true;
    }

    method Insert(row: Schedule) returns (err: Option<Error>)
      requires repo.Valid() && !repo.inTx && Sound(repo.committed) && ValidInterval(row.interval)
      requires row == Created(row.id, row.origin, row.interval, row.anchor).row
      modifies repo
      ensures repo.Valid() && !repo.inTx && Sound(repo.committed)
      ensures err.None? ==>
                && row.id !in old(repo.committed) && !OriginTaken(old(repo.committed), row.origin)
                && repo.committed
                   == old(repo.committed)[row.id := Created(row.id, row.origin, row.interval, row.anchor)]
      ensures err.Some? ==> repo.committed == old(repo.committed)
      ensures err.Some? ==> match err.value
                            case Rejected => row.id in repo.committed
                            case Duplicate => OriginTaken(repo.committed, row.origin)
                            case Io => !repo.reliable
                            case _ => false
    {
      hide Sound, Inv;
      var joined;
      joined, err := repo.Begin();
      if err.Some? {
        return;
      }
      ghost var before := repo.committed;
      ghost var l := Created(row.id, row.origin, row.interval, row.anchor);
      err := repo.CreateSchedule(row);
      if err.None? {
        err := repo.AppendEvent(row.id, Event(System, None, CreatedEvent(row.anchor, row.interval)));
      }
      if err.Some? {
        repo.Rollback();
      } else {
        assert repo.working[row.id].log == l.log;
        assert repo.working == before[row.id := l];
        NewIsSound(before, l);
        err := repo.Commit(joined);
      }
    }

    lemma NewIsSound(t: Tables, l: Ledger)
      requires Sound(t) && ValidInterval(l.row.interval)
      requires l == Created(l.row.id, l.row.origin, l.row.interval, l.row.anchor)
      requires l.row.id !in t && !OriginTaken(t, l.row.origin)
      ensures Sound(t[l.row.id := l])
    {
      hide Inv;
      CreatedIsGood(l.row.id, l.row.origin, l.row.interval, l.row.anchor);
    }
  }
}
