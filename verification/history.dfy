/**
 Concrete histories: what a schedule looks like after its first planning and the first
 steps from there.  The counterexamples elsewhere are runs built from these.
 */
module Histories {
  import opened Wrappers
  import opened Cadence
  import opened Ledgers
  import opened Lifecycle
  import opened Invariants
  import Keys

  lemma RunTwo(l: Ledger, a: Call, b: Call, horizon: int)
    ensures Run(l, [a], horizon) == Step(l, a, horizon)
    ensures Run(l, [a, b], horizon) == Step(Step(l, a, horizon), b, horizon)
  {
    hide Step;
    RunSnoc(l, [], a, horizon);
    RunSnoc(l, [a], b, horizon);
    assert [] + [a] == [a] && [a] + [b] == [a, b];
  }

  lemma RunThree(l: Ledger, a: Call, b: Call, c: Call, horizon: int)
    ensures Run(l, [a, b, c], horizon) == Step(Step(Step(l, a, horizon), b, horizon), c, horizon)
  {
    hide Step;
    RunTwo(l, a, b, horizon);
    RunSnoc(l, [a, b], c, horizon);
    assert [a, b] + [c] == [a, b, c];
  }

  lemma RunFour(l: Ledger, a: Call, b: Call, c: Call, d: Call, horizon: int)
    ensures Run(l, [a, b, c, d], horizon) == Step(Step(Step(Step(l, a, horizon), b, horizon), c, horizon), d, horizon)
  {
    hide Step;
    RunThree(l, a, b, c, horizon);
    RunSnoc(l, [a, b, c], d, horizon);
    assert [a, b, c] + [d] == [a, b, c, d];
  }

  /** Created on its anchor date and planned at once. */
  function Opening(interval: int, anchor: Day): (Ledger, Call) {
    (Created("s", "o", interval, anchor), Call(DoMaterialize, anchor, System))
  }

  function Planned1(interval: int, anchor: Day, horizon: nat): seq<Occurrence> {
    seq(horizon, k requires 0 <= k < horizon => PlannedRow("s", k + 1, anchor + (k + 1) * interval))
  }

  /** `horizon` orders, one interval apart, and a next run date one interval out. */
  ghost predicate FreshlyPlanned(l: Ledger, interval: int, anchor: Day, horizon: nat) {
    && l.row == Schedule("s", "o", ScheduleActive, interval, anchor, Some(anchor + interval), None)
    && l.occs == Planned1(interval, anchor, horizon)
    && |l.log| == horizon + 1
    && (forall j :: 0 <= j < |l.log| ==> l.log[j].key == None && !l.log[j].body.DeferredEvent?)
  }

  lemma FirstPlanning(interval: int, anchor: Day, horizon: nat)
    requires ValidInterval(interval) && 1 <= horizon <= 500
    ensures var (l, c) := Opening(interval, anchor);
            && Run(l, [c], horizon) == Step(l, c, horizon)
            && FreshlyPlanned(Step(l, c, horizon), interval, anchor, horizon)
  {
    hide WalkDate, FirstAfter, LastReachable, NextRun, Count, AddRows, Keys.IdempotencyKey;
    var (l, c) := Opening(interval, anchor);
    var m := Step(l, c, horizon);
    RunSnoc(l, [], c, horizon);
    assert [] + [c] == [c];
    FirstTopUp(l, anchor, horizon);
    CountZero(l.occs, FuturePlanned(anchor));
    var dates := PlanDates(l, anchor, horizon);
    FirstDates(interval, anchor, horizon);
    forall k | 0 <= k < horizon ensures m.occs[k] == Planned1(interval, anchor, horizon)[k] {
      AddRowsAt(l, dates, k);
    }
    FirstEvents(l, dates);
  }

  lemma FirstDates(interval: int, anchor: Day, n: nat)
    requires ValidInterval(interval) && n <= 500
    ensures forall k :: 0 <= k < n ==> WalkDate(anchor, interval, anchor, k) == anchor + (k + 1) * interval
  {
    LeastAtMost(anchor, interval, anchor, 1);
    ReachIsFar(interval);
    forall k | 0 <= k < n ensures WalkDate(anchor, interval, anchor, k) == anchor + (k + 1) * interval {
      WalkShape(anchor, interval, anchor, k);
    }
  }

  lemma FirstEvents(l: Ledger, dates: seq<Day>)
    requires |l.log| == 1 && l.log[0].key == None && l.log[0].body.CreatedEvent?
    ensures var m := AddRows(l, dates);
            |m.log| == |dates| + 1
            && forall j :: 0 <= j < |m.log| ==> m.log[j].key == None && !m.log[j].body.DeferredEvent?
  {
  }

  /** The first row is the soonest while it stands, and the second once it is settled. */
  lemma SoonestOfTwo(a: Occurrence, b: Occurrence, rest: seq<Occurrence>, ss: set<OccurrenceStatus>)
    requires a.seqNo < b.seqNo && b.status in ss
    requires forall k :: 0 <= k < |rest| ==> Sooner(b, rest[k])
    requires a.status in ss ==> Sooner(a, b)
    ensures Soonest([a, b] + rest, ss) == Some(if a.status in ss then 0 else 1)
  {
    var occs := [a, b] + rest;
    var r := Soonest(occs, ss);
    assert occs[0] == a && occs[1] == b && forall k :: 2 <= k < |occs| ==> occs[k] == rest[k - 2];
    assert !Sooner(if a.status in ss then a else b, occs[r.value]) || r == Some(if a.status in ss then 0 else 1);
  }
}
