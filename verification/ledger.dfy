/**
 One schedule as the database holds it: its row, its occurrences in sequence order, and
 its events in append order -- plus the reads the store issues over them.
 */
module Ledgers {
  import opened Wrappers
  import opened Cadence
  import Keys

  datatype ScheduleStatus = ScheduleActive | SchedulePaused | ScheduleCanceled | ScheduleFailed

  datatype OccurrenceStatus = Planned | Pending | Placed | Skipped | Failed | Canceled

  datatype Actor = Customer | Admin | System

  // `origin` is the checkout order that established the subscription.
  datatype Schedule = Schedule(id: string, origin: string, status: ScheduleStatus, interval: int, anchor: Day,
                               nextRun: Option<Day>, pausedUntil: Option<Day>)

  datatype Occurrence = Occurrence(seqNo: int, date: Day, status: OccurrenceStatus,
                                   orderId: Option<string>, key: string)

  datatype Body =
    | CreatedEvent(anchor: Day, interval: int)
    | PausedEvent(until: Option<Day>, canceled: nat)
    | ResumedEvent(anchor: Day, interval: int, nextOrder: Day)
    | CadenceChangedEvent(fromInterval: int, toInterval: int, anchor: Day, rewritten: nat)
    | CanceledEvent(reason: string, canceled: nat)
    | SkippedEvent(seqNo: int, date: Day)
    | DeferredEvent(seqNo: int, fromDate: Day, toDate: Day, days: int)
    | MaterializedEvent(seqNo: int, date: Day)
    | ArmedEvent(seqNo: int, date: Day)

  datatype Event = Event(actor: Actor, key: Option<string>, body: Body)

  datatype Ledger = Ledger(row: Schedule, occs: seq<Occurrence>, log: seq<Event>)

  // The statuses that still stand for an order to come.
  const UNSETTLED := {Planned, Pending}

  predicate IsExecuted(o: Occurrence) {
    o.status == Placed || o.status == Skipped || o.status == Failed || o.status == Canceled
  }

  // ----- counting -----

  function Count<T>(xs: seq<T>, p: T -> bool): nat {
    if |xs| == 0 then 0
    else Count(xs[..|xs| - 1], p) + (if p(xs[|xs| - 1]) then 1 else 0)
  }

  lemma CountAppend<T>(xs: seq<T>, x: T, p: T -> bool)
    ensures Count(xs + [x], p) == Count(xs, p) + (if p(x) then 1 else 0)
  {
    assert (xs + [x])[..|xs|] == xs;
  }

  lemma {:induction false} CountUpdate<T>(xs: seq<T>, k: nat, x: T, p: T -> bool)
    requires k < |xs|
    ensures Count(xs[k := x], p)
            == Count(xs, p) - (if p(xs[k]) then 1 else 0) + (if p(x) then 1 else 0)
  {
    var n := |xs| - 1;
    if k == n {
      assert xs[k := x][..n] == xs[..n];
    } else {
      assert xs[k := x][..n] == xs[..n][k := x];
      CountUpdate(xs[..n], k, x, p);
    }
  }

  lemma {:induction false} CountZero<T>(xs: seq<T>, p: T -> bool)
    ensures Count(xs, p) == 0 <==> forall k :: 0 <= k < |xs| ==> !p(xs[k])
  {
    if |xs| > 0 {
      CountZero(xs[..|xs| - 1], p);
    }
  }

  lemma {:induction false} CountMonotone<T>(xs: seq<T>, p: T -> bool, q: T -> bool)
    requires forall k :: 0 <= k < |xs| && p(xs[k]) ==> q(xs[k])
    ensures Count(xs, p) <= Count(xs, q)
  {
    if |xs| > 0 {
      CountMonotone(xs[..|xs| - 1], p, q);
    }
  }

  function HasStatus(ss: set<OccurrenceStatus>): Occurrence -> bool {
    (o: Occurrence) => o.status in ss
  }

  /** `status = ANY(ss) AND order_id IS NULL` */
  function Cancelable(ss: set<OccurrenceStatus>): Occurrence -> bool {
    (o: Occurrence) => o.status in ss && o.orderId.None?
  }

  function FuturePlanned(today: Day): Occurrence -> bool {
    (o: Occurrence) => o.status == Planned && o.date > today
  }

  // ----- reads -----

  /** ORDER BY scheduled_for, sequence_no */
  predicate Sooner(a: Occurrence, b: Occurrence) {
    a.date < b.date || (a.date == b.date && a.seqNo < b.seqNo)
  }

  /** The first row in that order among those with a status in ss. */
  function Soonest(occs: seq<Occurrence>, ss: set<OccurrenceStatus>): (r: Option<nat>)
    ensures r.Some? ==>
              && r.value < |occs| && occs[r.value].status in ss
              && forall k :: 0 <= k < |occs| && occs[k].status in ss ==>
                   || occs[r.value].date < occs[k].date
                   || (occs[r.value].date == occs[k].date && occs[r.value].seqNo <= occs[k].seqNo)
    ensures r.None? ==> forall k :: 0 <= k < |occs| ==> occs[k].status !in ss
  {
    if |occs| == 0 then None
    else
      var n := |occs| - 1;
      var r := Soonest(occs[..n], ss);
      if occs[n].status in ss && (r.None? || Sooner(occs[n], occs[r.value])) then Some(n) else r
  }

  /** ORDER BY scheduled_for DESC, sequence_no DESC among placed rows. */
  function LastPlaced(occs: seq<Occurrence>): (r: Option<nat>)
    ensures r.Some? ==>
              && r.value < |occs| && occs[r.value].status == Placed
              && forall k :: 0 <= k < |occs| && occs[k].status == Placed ==>
                   || occs[k].date < occs[r.value].date
                   || (occs[k].date == occs[r.value].date && occs[k].seqNo <= occs[r.value].seqNo)
    ensures r.None? ==> forall k :: 0 <= k < |occs| ==> occs[k].status != Placed
  {
    if |occs| == 0 then None
    else
      var n := |occs| - 1;
      var r := LastPlaced(occs[..n]);
      if occs[n].status == Placed && (r.None? || Sooner(occs[r.value], occs[n])) then Some(n) else r
  }

  /** max(scheduled_for) over unsettled rows. */
  function LatestUnsettled(occs: seq<Occurrence>): (r: Option<Day>)
    ensures r.Some? ==> (exists k :: 0 <= k < |occs| && occs[k].status in UNSETTLED && occs[k].date == r.value)
                        && forall k :: 0 <= k < |occs| && occs[k].status in UNSETTLED ==> occs[k].date <= r.value
    ensures r.None? ==> forall k :: 0 <= k < |occs| ==> occs[k].status !in UNSETTLED
  {
    if |occs| == 0 then None
    else
      var n := |occs| - 1;
      var r := LatestUnsettled(occs[..n]);
      if occs[n].status in UNSETTLED && (r.None? || r.value < occs[n].date) then Some(occs[n].date) else r
  }

  function MaxSequenceNo(occs: seq<Occurrence>): int {
    if |occs| == 0 then 0 else Max(MaxSequenceNo(occs[..|occs| - 1]), occs[|occs| - 1].seqNo)
  }

  /** `next` is the earliest planned date past `today`, or None when there is none. */
  ghost predicate IsNextRun(occs: seq<Occurrence>, today: Day, next: Option<Day>) {
    && (forall k :: 0 <= k < |occs| && FuturePlanned(today)(occs[k]) ==> next.Some? && next.value <= occs[k].date)
    && (next.Some? ==> exists k :: 0 <= k < |occs| && FuturePlanned(today)(occs[k]) && occs[k].date == next.value)
  }

  function NextRun(occs: seq<Occurrence>, today: Day): (r: Option<Day>)
    ensures IsNextRun(occs, today, r)
  {
    if |occs| == 0 then None
    else
      var n := |occs| - 1;
      var r := NextRun(occs[..n], today);
      if FuturePlanned(today)(occs[n]) && (r.None? || occs[n].date < r.value) then Some(occs[n].date) else r
  }

  lemma NextRunUnique(occs: seq<Occurrence>, today: Day, next: Option<Day>)
    requires IsNextRun(occs, today, next)
    ensures next == NextRun(occs, today)
  {
  }

  /** Exactly the planned rows, in sequence order. */
  function PlannedRows(occs: seq<Occurrence>): (out: seq<Occurrence>)
    ensures forall o :: o in out <==> o in occs && o.status == Planned
  {
    if |occs| == 0 then []
    else
      var n := |occs| - 1;
      assert occs == occs[..n] + [occs[n]];
      PlannedRows(occs[..n]) + (if occs[n].status == Planned then [occs[n]] else [])
  }

  /** They keep the order of the sequence numbers, and so each appears once. */
  lemma {:induction false} PlannedRowsInOrder(occs: seq<Occurrence>)
    requires forall i, j :: 0 <= i < j < |occs| ==> occs[i].seqNo < occs[j].seqNo
    ensures forall i, j :: 0 <= i < j < |PlannedRows(occs)| ==> PlannedRows(occs)[i].seqNo < PlannedRows(occs)[j].seqNo
  {
    if |occs| > 0 {
      var n := |occs| - 1;
      PlannedRowsInOrder(occs[..n]);
      forall o | o in PlannedRows(occs[..n]) ensures o.seqNo < occs[n].seqNo {
        var i :| 0 <= i < n && occs[..n][i] == o;
      }
      assert forall i :: 0 <= i < |PlannedRows(occs[..n])| ==> PlannedRows(occs[..n])[i] in PlannedRows(occs[..n]);
    }
  }

  // ----- bulk write -----

  function CancelAll(occs: seq<Occurrence>, ss: set<OccurrenceStatus>): (r: seq<Occurrence>)
    ensures |r| == |occs|
    ensures forall k :: 0 <= k < |occs| ==>
              r[k] == if occs[k].status in ss && occs[k].orderId.None? then occs[k].(status := Canceled) else occs[k]
  {
    seq(|occs|, k requires 0 <= k < |occs| =>
      if occs[k].status in ss && occs[k].orderId.None? then occs[k].(status := Canceled) else occs[k])
  }

  // ----- schema -----

  /** What the tables' constraints and the numbering give every stored schedule.  Rows
      are numbered 1..N in creation order, so row k carries sequence number k + 1. */
  ghost predicate WellFormed(l: Ledger) {
    && ValidInterval(l.row.interval)
    && (l.row.pausedUntil.Some? ==> l.row.status == SchedulePaused)
    && (forall k :: 0 <= k < |l.occs| ==>
          && l.occs[k].seqNo == k + 1
          && l.occs[k].key == Keys.IdempotencyKey(l.row.id, k + 1)
          && (l.occs[k].orderId.Some? ==> l.occs[k].status == Placed))
  }

  lemma {:induction false} MaxSequenceNoIsCount(occs: seq<Occurrence>)
    requires forall k :: 0 <= k < |occs| ==> occs[k].seqNo == k + 1
    ensures MaxSequenceNo(occs) == |occs|
  {
    if |occs| > 0 {
      MaxSequenceNoIsCount(occs[..|occs| - 1]);
    }
  }
}
