/**
 The nightly sweeps.  A sweep lists candidates by the UTC date, one day too wide, and
 narrows each against the customer's own calendar; the two together must act on
 exactly the schedules that are due, and leave alone whoever moved in the meantime.
 */
module Sweeps {
  import opened Wrappers
  import opened Cadence
  import opened Ledgers
  import opened Lifecycle
  import opened Invariants
  import opened Stores
  import opened Services
  import opened Histories
  import Keys

  const SECONDS_PER_DAY := 86400

  /** The calendar date at an instant, in a zone `offset` seconds ahead of UTC. */
  function LocalDate(instant: int, offset: int): Day {
    (instant + offset) / SECONDS_PER_DAY
  }

  /** No timezone is more than 24 hours away from UTC. */
  predicate Plausible(offset: int) {
    -SECONDS_PER_DAY <= offset <= SECONDS_PER_DAY
  }

  predicate PlausibleZones(zones: map<string, int>) {
    forall id :: id in zones ==> Plausible(zones[id])
  }

  /** A schedule whose timezone cannot be read is taken to be in UTC. */
  function Today(zones: map<string, int>, id: string, now: int): Day {
    LocalDate(now, if id in zones then zones[id] else 0)
  }

  /** What one candidate's turn reads off the clock: when it is checked, and when it is
      acted on. */
  datatype Reading = Reading(check: int, act: int)

  /** The clock of one pass: the instant of the listing, and each candidate's own. */
  datatype Clock = Clock(start: int, readings: map<string, Reading>) {
    function At(id: string): Reading {
      if id in readings then readings[id] else Reading(start, start)
    }

    /** It never runs backwards. */
    predicate Runs() {
      forall id :: id in readings ==> start <= readings[id].check <= readings[id].act
    }
  }

  /** The UTC date a pass lists by. */
  function RunDate(clock: Clock): Day { LocalDate(clock.start, 0) }

  function StartDate(zones: map<string, int>, clock: Clock, id: string): Day { Today(zones, id, clock.start) }

  function CheckDate(zones: map<string, int>, clock: Clock, id: string): Day { Today(zones, id, clock.At(id).check) }

  function ActDate(zones: map<string, int>, clock: Clock, id: string): Day { Today(zones, id, clock.At(id).act) }

  // ----- days as the customer counts them -----

  /** d is the day at an instant on this schedule's clock: the one whose 24 hours, in its
      zone, contain it -- in UTC if the zone is not known. */
  ghost predicate LocalDay(zones: map<string, int>, id: string, instant: int, d: Day) {
    if id in zones then d * 86400 <= instant + zones[id] < (d + 1) * 86400
    else d * 86400 <= instant < (d + 1) * 86400
  }

  ghost predicate StartsOn(zones: map<string, int>, clock: Clock, id: string, d: Day) {
    LocalDay(zones, id, clock.start, d)
  }

  ghost predicate CheckedOn(zones: map<string, int>, clock: Clock, id: string, d: Day) {
    LocalDay(zones, id, if id in clock.readings then clock.readings[id].check else clock.start, d)
  }

  ghost predicate ActedOn(zones: map<string, int>, clock: Clock, id: string, d: Day) {
    LocalDay(zones, id, if id in clock.readings then clock.readings[id].act else clock.start, d)
  }

  lemma TodayIsLocalDay(zones: map<string, int>, id: string, instant: int, d: Day)
    ensures LocalDay(zones, id, instant, d) <==> d == Today(zones, id, instant)
  {
    var t := instant + (if id in zones then zones[id] else 0);
    assert t == SECONDS_PER_DAY * (t / SECONDS_PER_DAY) + t % SECONDS_PER_DAY;
  }

  /** The dates a pass goes by are its customers' own. */
  lemma DatesAreLocal(zones: map<string, int>, clock: Clock, id: string, d: Day)
    ensures StartsOn(zones, clock, id, d) <==> d == StartDate(zones, clock, id)
    ensures CheckedOn(zones, clock, id, d) <==> d == CheckDate(zones, clock, id)
    ensures ActedOn(zones, clock, id, d) <==> d == ActDate(zones, clock, id)
  {
    hide LocalDay, Today;
    TodayIsLocalDay(zones, id, clock.start, d);
    TodayIsLocalDay(zones, id, clock.At(id).check, d);
    TodayIsLocalDay(zones, id, clock.At(id).act, d);
  }

  /** A timed pause that ends on d or before. */
  ghost predicate PauseOverBy(l: Ledger, d: Day) {
    l.row.status == SchedulePaused && l.row.pausedUntil.Some? && l.row.pausedUntil.value <= d
  }

  /** An order planned for no more than three days after d. */
  ghost predicate OrderDueBy(l: Ledger, d: Day) {
    l.row.status == ScheduleActive
    && exists k :: 0 <= k < |l.occs| && l.occs[k].status == Planned && l.occs[k].date <= d + 3
  }

  lemma DueIsSpelledOut(l: Ledger, d: Day)
    ensures DueToResume(l, d) <==> PauseOverBy(l, d)
    ensures DueToArm(l, d) <==> OrderDueBy(l, d)
  {
  }

  lemma DatesAscend(zones: map<string, int>, clock: Clock, id: string)
    requires clock.Runs()
    ensures StartDate(zones, clock, id) <= CheckDate(zones, clock, id) <= ActDate(zones, clock, id)
  {
    var o, r := if id in zones then zones[id] else 0, clock.At(id);
    FloorMonotone(clock.start + o, r.check + o);
    FloorMonotone(r.check + o, r.act + o);
  }

  lemma FloorMonotone(a: int, b: int)
    requires a <= b
    ensures a / SECONDS_PER_DAY <= b / SECONDS_PER_DAY
  {
  }

  lemma LocalDateIsNear(instant: int, offset: int)
    requires Plausible(offset)
    ensures LocalDate(instant, 0) - 1 <= LocalDate(instant, offset) <= LocalDate(instant, 0) + 1
  {
  }

  // ----- what is due, and what is listed -----

  predicate DueToResume(l: Ledger, local: Day) {
    l.row.status == SchedulePaused && l.row.pausedUntil.Some? && l.row.pausedUntil.value <= local
  }

  predicate ListedToResume(l: Ledger, on: Day) {
    l.row.status == SchedulePaused && l.row.pausedUntil.Some? && l.row.pausedUntil.value <= on + 1
  }

  /** Some planned order has come within the window. */
  predicate HasDueOrder(l: Ledger, local: Day) {
    exists k :: 0 <= k < |l.occs| && l.occs[k].status == Planned && l.occs[k].date - ARM_WINDOW_DAYS <= local
  }

  predicate DueToArm(l: Ledger, local: Day) {
    l.row.status == ScheduleActive && HasDueOrder(l, local)
  }

  predicate ListedToArm(l: Ledger, on: Day) {
    l.row.status == ScheduleActive
    && exists k :: 0 <= k < |l.occs| && l.occs[k].status == Planned && l.occs[k].date <= on + ARM_WINDOW_DAYS + 1
  }

  /** Listing one day wide misses no one, in any timezone. */
  lemma WindowCoversDue(l: Ledger, instant: int, offset: int)
    requires Plausible(offset)
    ensures DueToResume(l, LocalDate(instant, offset)) ==> ListedToResume(l, LocalDate(instant, 0))
    ensures DueToArm(l, LocalDate(instant, offset)) ==> ListedToArm(l, LocalDate(instant, 0))
  {
    LocalDateIsNear(instant, offset);
  }

  /** And it lists no one in vain: exactly those due somewhere on earth at that instant. */
  lemma WindowIsExact(l: Ledger, instant: int)
    ensures ListedToResume(l, LocalDate(instant, 0))
            <==> exists offset :: Plausible(offset) && DueToResume(l, LocalDate(instant, offset))
    ensures ListedToArm(l, LocalDate(instant, 0))
            <==> exists offset :: Plausible(offset) && DueToArm(l, LocalDate(instant, offset))
  {
    hide ListedToResume, ListedToArm, DueToResume, DueToArm, LocalDate;
    AheadOfAll(l, instant);
    forall offset | Plausible(offset)
      ensures DueToResume(l, LocalDate(instant, offset)) ==> ListedToResume(l, LocalDate(instant, 0))
      ensures DueToArm(l, LocalDate(instant, offset)) ==> ListedToArm(l, LocalDate(instant, 0))
    {
      WindowCoversDue(l, instant, offset);
    }
    assert Plausible(86400);
  }

  lemma AheadOfAll(l: Ledger, instant: int)
    ensures ListedToResume(l, LocalDate(instant, 0)) ==> DueToResume(l, LocalDate(instant, 86400))
    ensures ListedToArm(l, LocalDate(instant, 0)) ==> DueToArm(l, LocalDate(instant, 86400))
  {
    assert LocalDate(instant, 86400) == LocalDate(instant, 0) + 1;
  }

  /** Without the extra day someone would be missed, in either sweep: a customer ahead of
      UTC on the very morning their pause ends, or their order's window opens. */
  lemma WindowIsNeeded() returns (paused: Ledger, planned: Ledger, instant: int, offset: int)
    ensures Plausible(offset)
    ensures paused == Run(Created("s", "o", 7, 0), [Call(DoPause(Some(4)), 0, Customer)], 2)
    ensures DueToResume(paused, LocalDate(instant, offset)) && paused.row.pausedUntil.value > LocalDate(instant, 0)
    ensures planned == Run(Created("s", "o", 7, 0), [Call(DoMaterialize, 0, System)], 2)
    ensures DueToArm(planned, LocalDate(instant, offset))
    ensures forall k :: 0 <= k < |planned.occs| ==> planned.occs[k].date > LocalDate(instant, 0) + ARM_WINDOW_DAYS
  {
    hide Step, Keys.IdempotencyKey;
    var (s, c) := Opening(7, 0);
    instant, offset := 3 * SECONDS_PER_DAY + 80000, 32400;
    assert LocalDate(instant, offset) == 4 && LocalDate(instant, 0) == 3;
    FirstPlanning(7, 0, 2);
    planned := Run(s, [c], 2);
    assert planned.occs[0] == PlannedRow("s", 1, 7) && planned.occs[1] == PlannedRow("s", 2, 14);
    assert planned.occs[0].date - ARM_WINDOW_DAYS <= 4;
    var p := Call(DoPause(Some(4)), 0, Customer);
    RunTwo(s, p, p, 2);
    paused := Run(s, [p], 2);
    PausesUntil(s, p, 4, 2);
  }

  lemma PausesUntil(l: Ledger, p: Call, until: Day, horizon: int)
    requires l.row.status == ScheduleActive && p.command == DoPause(Some(until)) && until > p.today
    ensures var m := Step(l, p, horizon);
            m.row == l.row.(status := SchedulePaused, pausedUntil := Some(until), nextRun := None)
  {
  }

  lemma SoonestDecidesDue(l: Ledger, local: Day)
    ensures var r := Soonest(l.occs, {Planned});
            HasDueOrder(l, local) <==> r.Some? && l.occs[r.value].date - ARM_WINDOW_DAYS <= local
  {
  }

  /** What an undisturbed pass makes of one schedule that it lists on one date, checks on
      another and acts on on a third. */
  function AfterResume(l: Ledger, on: Day, check: Day, act: Day, horizon: int): Ledger {
    if ListedToResume(l, on) && DueToResume(l, check) then Step(l, Call(DoResume, act, System), horizon) else l
  }

  function AfterArm(l: Ledger, on: Day, check: Day, act: Day): Ledger {
    if ListedToArm(l, on) && DueToArm(l, check) then Step(l, Call(DoArmNext, act, System), 1) else l
  }

  /** One pass over an unmoved schedule at a single instant. */
  function AfterArmPass(l: Ledger, local: Day): Ledger {
    if DueToArm(l, local) then Step(l, Call(DoArmNext, local, System), 1) else l
  }

  /** Nobody due when the pass begins is missed; and one who is checked on the date the
      pass began on is acted on exactly if due. */
  lemma PassActsOnDue(l: Ledger, zones: map<string, int>, clock: Clock, id: string)
    requires PlausibleZones(zones)
    ensures var on, start, check := RunDate(clock), StartDate(zones, clock, id), CheckDate(zones, clock, id);
            && (start <= check && DueToResume(l, start) ==> ListedToResume(l, on) && DueToResume(l, check))
            && (start <= check && DueToArm(l, start) ==> ListedToArm(l, on) && DueToArm(l, check))
            && (check == start ==> (ListedToResume(l, on) && DueToResume(l, check) <==> DueToResume(l, start)))
            && (check == start ==> (ListedToArm(l, on) && DueToArm(l, check) <==> DueToArm(l, start)))
            && (check == start ==> AfterArm(l, on, check, check) == AfterArmPass(l, start))
  {
    hide LocalDate, ListedToArm, ListedToResume, Step;
    WindowCoversDue(l, clock.start, if id in zones then zones[id] else 0);
  }

  // ----- the passes -----

  /** What became of one candidate. */
  datatype Verdict = Acted | NotYetDue | AlreadyMoved | Broken(error: Error)

  datatype PassResult = PassResult(considered: nat, acted: nat, notYetDue: nat, alreadyMoved: nat, failed: nat,
                                   firstErr: Option<Error>) {
    function Add(v: Verdict): PassResult {
      match v
      case Acted => this.(considered := considered + 1, acted := acted + 1)
      case NotYetDue => this.(considered := considered + 1, notYetDue := notYetDue + 1)
      case AlreadyMoved => this.(considered := considered + 1, alreadyMoved := alreadyMoved + 1)
      case Broken(e) =>
        this.(considered := considered + 1, failed := failed + 1,
              firstErr := if firstErr.None? then Some(e) else firstErr)
    }
  }

  const NOTHING_DONE := PassResult(0, 0, 0, 0, 0, None)

  /** Every candidate is accounted for; an error is reported when one failed, or when
      there was no listing at all. */
  predicate Consistent(r: PassResult) {
    && r.considered == r.acted + r.notYetDue + r.alreadyMoved + r.failed
    && (r.failed > 0 ==> r.firstErr.Some?) && (r.firstErr.Some? ==> r.failed > 0 || r.considered == 0)
  }

  lemma NothingDoneIsConsistent()
    ensures Consistent(NOTHING_DONE) && Consistent(NOTHING_DONE.(firstErr := Some(Io)))
  {
  }

  lemma AddKeepsConsistent(r: PassResult, v: Verdict)
    requires Consistent(r) && (r.firstErr.Some? ==> r.failed > 0)
    ensures Consistent(r.Add(v)) && (r.Add(v).firstErr.Some? ==> r.Add(v).failed > 0)
    ensures r.Add(v).acted == r.acted + (if v.Acted? then 1 else 0)
    ensures r.Add(v).alreadyMoved == r.alreadyMoved + (if v == AlreadyMoved then 1 else 0)
    ensures r.Add(v).considered == r.considered + 1
    ensures r.Add(v).notYetDue == r.notYetDue + (if v == NotYetDue then 1 else 0)
    ensures r.Add(v).firstErr.Some? <==> r.firstErr.Some? || v.Broken?
  {
  }

  // ----- what a pass is to do, given what it saw and what it finds under the lock -----

  predicate Paused(t: Tables, id: string) {
    id in t && t[id].row.status == SchedulePaused
  }

  /** A resume: listed, its listed pause over when checked, and paused -- still or again --
      under the lock. */
  predicate ResumesNow(listed: Tables, t: Tables, id: string, on: Day, check: Day) {
    id in listed && ListedToResume(listed[id], on) && DueToResume(listed[id], check) && Paused(t, id)
  }

  function ResumeGoal(listed: Tables, t: Tables, zones: map<string, int>, clock: Clock, horizon: int): Tables {
    map id | id in t ::
      if ResumesNow(listed, t, id, RunDate(clock), CheckDate(zones, clock, id))
      then Step(t[id], Call(DoResume, ActDate(zones, clock, id), System), horizon) else t[id]
  }

  function ResumedIds(listed: Tables, t: Tables, zones: map<string, int>, clock: Clock): set<string> {
    set id | id in t && ResumesNow(listed, t, id, RunDate(clock), CheckDate(zones, clock, id))
  }

  predicate Armable(l: Ledger) {
    l.row.status == ScheduleActive && Soonest(l.occs, {Planned}).Some?
  }

  /** An order due when checked, and some order planned under the lock. */
  predicate ArmsIt(checked: Tables, t: Tables, id: string, local: Day) {
    id in checked && HasDueOrder(checked[id], local) && id in t && Armable(t[id])
  }

  predicate ArmsNow(listed: Tables, checked: Tables, t: Tables, id: string, on: Day, local: Day) {
    id in listed && ListedToArm(listed[id], on) && ArmsIt(checked, t, id, local)
  }

  function ArmGoal(listed: Tables, checked: Tables, t: Tables, zones: map<string, int>, clock: Clock): Tables {
    map id | id in t ::
      if ArmsNow(listed, checked, t, id, RunDate(clock), CheckDate(zones, clock, id))
      then Step(t[id], Call(DoArmNext, ActDate(zones, clock, id), System), 1) else t[id]
  }

  function ArmedIds(listed: Tables, checked: Tables, t: Tables, zones: map<string, int>, clock: Clock): set<string> {
    set id | id in t && ArmsNow(listed, checked, t, id, RunDate(clock), CheckDate(zones, clock, id))
  }

  /** Whom a pass considers, and whom it finds not yet due. */
  function ResumeCandidates(listed: Tables, clock: Clock): set<string> {
    set id | id in listed && ListedToResume(listed[id], RunDate(clock))
  }

  function ArmCandidates(listed: Tables, clock: Clock): set<string> {
    set id | id in listed && ListedToArm(listed[id], RunDate(clock))
  }

  function ResumesEarly(listed: Tables, zones: map<string, int>, clock: Clock): set<string> {
    set id | id in listed && ListedToResume(listed[id], RunDate(clock))
             && !DueToResume(listed[id], CheckDate(zones, clock, id))
  }

  function ArmsEarly(listed: Tables, checked: Tables, zones: map<string, int>, clock: Clock): set<string> {
    set id | id in listed && ListedToArm(listed[id], RunDate(clock))
             && !(id in checked && HasDueOrder(checked[id], CheckDate(zones, clock, id)))
  }

  lemma EarlyAt(listed: Tables, checked: Tables, zones: map<string, int>, clock: Clock, id: string)
    requires id in listed
    ensures ListedToResume(listed[id], RunDate(clock)) ==>
              (id in ResumesEarly(listed, zones, clock) <==> !DueToResume(listed[id], CheckDate(zones, clock, id)))
    ensures ListedToArm(listed[id], RunDate(clock)) ==>
              (id in ArmsEarly(listed, checked, zones, clock)
               <==> !(id in checked && HasDueOrder(checked[id], CheckDate(zones, clock, id))))
  {
  }

  /** Who an undisturbed pass acts on. */
  function ResumesDue(t: Tables, zones: map<string, int>, clock: Clock): set<string> {
    set id | id in t && ListedToResume(t[id], RunDate(clock)) && DueToResume(t[id], CheckDate(zones, clock, id))
  }

  function ArmsDue(t: Tables, zones: map<string, int>, clock: Clock): set<string> {
    set id | id in t && ListedToArm(t[id], RunDate(clock)) && DueToArm(t[id], CheckDate(zones, clock, id))
  }

  lemma ResumeGoalAt(listed: Tables, t: Tables, zones: map<string, int>, clock: Clock, horizon: int, id: string)
    ensures ResumeGoal(listed, t, zones, clock, horizon).Keys == t.Keys && ResumedIds(listed, t, zones, clock) <= t.Keys
    ensures id in ResumedIds(listed, t, zones, clock)
            <==> ResumesNow(listed, t, id, RunDate(clock), CheckDate(zones, clock, id))
    ensures id in t ==> ResumeGoal(listed, t, zones, clock, horizon)[id]
                        == if ResumesNow(listed, t, id, RunDate(clock), CheckDate(zones, clock, id))
                           then Step(t[id], Call(DoResume, ActDate(zones, clock, id), System), horizon) else t[id]
  {
  }

  lemma ArmGoalAt(listed: Tables, checked: Tables, t: Tables, zones: map<string, int>, clock: Clock, id: string)
    ensures ArmGoal(listed, checked, t, zones, clock).Keys == t.Keys
    ensures ArmedIds(listed, checked, t, zones, clock) <= t.Keys
    ensures id in ArmedIds(listed, checked, t, zones, clock)
            <==> ArmsNow(listed, checked, t, id, RunDate(clock), CheckDate(zones, clock, id))
    ensures id in t ==> ArmGoal(listed, checked, t, zones, clock)[id]
                        == if ArmsNow(listed, checked, t, id, RunDate(clock), CheckDate(zones, clock, id))
                           then Step(t[id], Call(DoArmNext, ActDate(zones, clock, id), System), 1) else t[id]
  {
  }

  /** With nothing moved since the listing, the act follows the schedule as listed. */
  lemma UndisturbedIsDue(t: Tables, zones: map<string, int>, clock: Clock, horizon: int, id: string)
    requires id in t
    ensures var on, check, act := RunDate(clock), CheckDate(zones, clock, id), ActDate(zones, clock, id);
            && (ResumesNow(t, t, id, on, check) <==> ListedToResume(t[id], on) && DueToResume(t[id], check))
            && (ArmsNow(t, t, t, id, on, check) <==> ListedToArm(t[id], on) && DueToArm(t[id], check))
            && id in ResumeGoal(t, t, zones, clock, horizon) && id in ArmGoal(t, t, t, zones, clock)
            && ResumeGoal(t, t, zones, clock, horizon)[id] == AfterResume(t[id], on, check, act, horizon)
            && ArmGoal(t, t, t, zones, clock)[id] == AfterArm(t[id], on, check, act)
  {
    hide Step, LocalDate, HasDueOrder, ListedToArm, Soonest;
    ListedIsActive(t[id], RunDate(clock));
    SoonestDecidesDue(t[id], CheckDate(zones, clock, id));
  }

  lemma ListedIsActive(l: Ledger, on: Day)
    ensures ListedToArm(l, on) ==> l.row.status == ScheduleActive
  {
  }

  lemma UndisturbedIds(t: Tables, zones: map<string, int>, clock: Clock)
    ensures ResumedIds(t, t, zones, clock) == ResumesDue(t, zones, clock)
    ensures ArmedIds(t, t, t, zones, clock) == ArmsDue(t, zones, clock)
  {
    hide ResumesNow, ArmsNow, DueToResume, DueToArm, Today, LocalDate, ResumeGoal, ArmGoal, ListedToResume, ListedToArm;
    forall id | id in t
      ensures var on, check := RunDate(clock), CheckDate(zones, clock, id);
              && (ResumesNow(t, t, id, on, check) <==> ListedToResume(t[id], on) && DueToResume(t[id], check))
              && (ArmsNow(t, t, t, id, on, check) <==> ListedToArm(t[id], on) && DueToArm(t[id], check))
    {
      UndisturbedIsDue(t, zones, clock, 1, id);
    }
  }

  lemma OneMore(due: set<string>, done: set<string>, id: string)
    requires id !in done
    ensures |due * (done + {id})| == |due * done| + (if id in due then 1 else 0)
  {
    if id in due {
      assert due * (done + {id}) == due * done + {id};
    } else {
      assert due * (done + {id}) == due * done;
    }
  }

  /** The counters of a pass that has done `done`, of whom those in `due` are to be acted on
      and those in `early` are not yet due. */
  ghost predicate Counts(r: PassResult, due: set<string>, early: set<string>, done: set<string>) {
    && Consistent(r) && (r.firstErr.Some? ==> r.failed > 0) && r.considered == |done|
    && (r.firstErr.None? ==> r.acted == |due * done| && r.notYetDue == |early * done|)
  }

  lemma CountsStart(due: set<string>, early: set<string>)
    ensures Counts(NOTHING_DONE, due, early, {}) && NOTHING_DONE.firstErr.None? && NOTHING_DONE.alreadyMoved == 0
  {
    assert due * {} == {} && early * {} == {};
  }

  lemma CountsStep(r: PassResult, v: Verdict, due: set<string>, early: set<string>, done: set<string>, id: string)
    requires Counts(r, due, early, done) && id !in done
    requires !v.Broken? ==> (v == Acted <==> id in due) && (v == NotYetDue <==> id in early)
    ensures Counts(r.Add(v), due, early, done + {id})
    ensures r.Add(v).alreadyMoved == r.alreadyMoved + (if v == AlreadyMoved then 1 else 0)
    ensures r.Add(v).firstErr.Some? <==> r.firstErr.Some? || v.Broken?
  {
    AddKeepsConsistent(r, v);
    hide Consistent, PassResult.Add;
    OneMore(due, done, id);
    OneMore(early, done, id);
  }

  lemma CountsEnd(r: PassResult, due: set<string>, early: set<string>, done: set<string>)
    requires Counts(r, due, early, done) && early <= done && due <= done
    ensures Consistent(r) && r.considered == |done|
    ensures r.firstErr.None? ==> r.acted == |due| && r.notYetDue == |early|
  {
    assert due * done == due && early * done == early;
  }

  /** A pass partway: each schedule it has done stands as `goal` says, unless something
      failed, and the rest are untouched. */
  ghost predicate Partway(before: Tables, goal: Tables, after: Tables, done: set<string>, failed: bool) {
    && after.Keys == before.Keys == goal.Keys
    && forall id :: id in before ==>
         || after[id] == (if id in done then goal[id] else before[id])
         || (failed && after[id] == before[id])
  }

  lemma PartwayStep(before: Tables, goal: Tables, after: Tables, done: set<string>, failed: bool, id: string,
                    next: Tables, failedNow: bool)
    requires Partway(before, goal, after, done, failed) && id !in done
    requires next == if failedNow || id !in before then after else after[id := goal[id]]
    ensures Partway(before, goal, next, done + {id}, failed || failedNow)
  {
  }

  lemma NothingPartway(before: Tables, goal: Tables)
    requires goal.Keys == before.Keys
    ensures Partway(before, goal, before, {}, false)
  {
  }

  lemma PartwayKeys(before: Tables, goal: Tables, after: Tables, done: set<string>, failed: bool, id: string)
    requires Partway(before, goal, after, done, failed) && id !in done
    ensures id in after <==> id in before
    ensures id in before ==> after[id] == before[id]
  {
  }

  lemma PartwayAll(before: Tables, goal: Tables, after: Tables, done: set<string>, failed: bool)
    requires Partway(before, goal, after, done, failed)
    requires forall id :: id in before && id !in done ==> id in goal && goal[id] == before[id]
    ensures after.Keys == before.Keys == goal.Keys
    ensures forall id :: id in before ==> after[id] == goal[id] || (failed && after[id] == before[id])
  {
  }

  class Sweeper {
    const repo: Repository
    const svc: Service
    const zones: map<string, int>  // each schedule's distance from UTC, in seconds

    constructor (repo: Repository, svc: Service, zones: map<string, int>)
      requires svc.repo == repo
      ensures this.repo == repo && this.svc == svc && this.zones == zones
    {
      this.repo := repo;
      this.svc := svc;
      this.zones := zones;
    }

    ghost predicate Ready()
      reads repo
    {
      && svc.repo == repo && svc.mat.repo == repo && repo.Valid() && !repo.inTx && Sound(repo.committed)
      && PlausibleZones(zones)
    }

    /** One candidate of a resume pass: narrowed by the pause date it was listed with, then
        resumed if the lock then finds it paused. */
    method ResumeOne(id: string, listed: Schedule, check: Day, act: Day) returns (v: Verdict)
      requires Ready() && listed.pausedUntil.Some?
      modifies repo
      ensures Ready() && repo.committed.Keys == old(repo.committed).Keys
      ensures v.Broken? ==> !repo.reliable
      ensures v == NotYetDue <==> listed.pausedUntil.value > check
      ensures !v.Broken? ==> (v == Acted <==> listed.pausedUntil.value <= check && Paused(old(repo.committed), id))
      ensures var t := old(repo.committed);
              repo.committed == if v == Acted then t[id := Step(t[id], Call(DoResume, act, System), svc.mat.horizon)]
                                else t
    {
      hide Sound, Materialize;
      if listed.pausedUntil.value > check {
        return NotYetDue;
      }
      ghost var t := repo.committed;
      if id in t {
        ResumeNeedsPause(t, id, act, svc.mat.horizon);
      }
      var r := svc.Resume(id, act, System);
      v := if r.Ok? then Acted else if r.error.Refused? || r.error == NotFound then AlreadyMoved else Broken(r.error);
    }

    lemma ResumeNeedsPause(t: Tables, id: string, today: Day, horizon: int)
      requires Sound(t) && id in t
      ensures Apply(t[id], Call(DoResume, today, System), horizon).Ok? <==> t[id].row.status == SchedulePaused
    {
    }

    /** Resumes whoever's timed pause was over when listed.  The listing may be as old as one
        likes: whoever is no longer paused is left alone. */
    method ResumeListed(listed: Tables, clock: Clock) returns (res: PassResult)
      requires Ready()
      modifies repo
      ensures Ready() && repo.committed.Keys == old(repo.committed).Keys && Consistent(res)
      ensures forall id :: id in repo.committed ==>
                || repo.committed[id] == ResumeGoal(listed, old(repo.committed), zones, clock, svc.mat.horizon)[id]
                || (res.firstErr.Some? && repo.committed[id] == old(repo.committed)[id])
      ensures res.firstErr.Some? ==> !repo.reliable
      ensures res.firstErr.None? ==> res.acted == |ResumedIds(listed, old(repo.committed), zones, clock)|
      ensures res.considered == |ResumeCandidates(listed, clock)|
      ensures res.firstErr.None? ==> res.notYetDue == |ResumesEarly(listed, zones, clock)|
      ensures listed == old(repo.committed) ==> res.alreadyMoved == 0
    {
      hide Counts, ResumeCandidates, ResumesEarly, Consistent, Sound, CheckDate, ActDate, RunDate, PlausibleZones;
      hide ListedToResume, ListedToArm;
      hide DueToResume, ResumedIds, ResumeGoal, ResumesNow, Paused, PassResult.Add, Inv, Step, Partway, Ready;
      ghost var before := repo.committed;
      ghost var goal := ResumeGoal(listed, before, zones, clock, svc.mat.horizon);
      ghost var due := ResumedIds(listed, before, zones, clock);
      ResumeGoalAt(listed, before, zones, clock, svc.mat.horizon, "");
      ghost var early := ResumesEarly(listed, zones, clock);
      var runDate := RunDate(clock);
      var rest := set id | id in listed && ListedToResume(listed[id], runDate);
      ghost var done: set<string> := {};
      res := NOTHING_DONE;
      CountsStart(due, early);
      NothingPartway(before, goal);
      while rest != {}
        invariant forall id :: id in rest ==> id in listed && id !in done && ListedToResume(listed[id], runDate)
        invariant forall id :: id in listed && ListedToResume(listed[id], runDate) ==> id in rest || id in done
        invariant res.firstErr.Some? ==> !repo.reliable
        invariant forall id :: id in done ==> id in listed && ListedToResume(listed[id], runDate)
        invariant Counts(res, due, early, done)
        invariant listed == before ==> res.alreadyMoved == 0
        invariant Ready()
        invariant Partway(before, goal, repo.committed, done, res.firstErr.Some?)
        decreases rest
      {
        var id :| id in rest;
        rest := rest - {id};
        ghost var was, failed := repo.committed, res.firstErr.Some?;
        PartwayKeys(before, goal, was, done, failed, id);
        ResumeGoalAt(listed, before, zones, clock, svc.mat.horizon, id);
        DueIs(listed, was, before, id, runDate, CheckDate(zones, clock, id));
        var v := ResumeOne(id, listed[id].row, CheckDate(zones, clock, id), ActDate(zones, clock, id));
        PartwayStep(before, goal, was, done, failed, id, repo.committed, v.Broken?);
        EarlyAt(listed, listed, zones, clock, id);
        CountsStep(res, v, due, early, done, id);
        res := res.Add(v);
        done := done + {id};
      }
      forall id | id in before && id !in done ensures goal[id] == before[id] && id !in due {
        ResumeGoalAt(listed, before, zones, clock, svc.mat.horizon, id);
        UnlistedIsNotDue(listed, before, id, runDate, CheckDate(zones, clock, id));
      }
      AllConsidered(listed, listed, clock, done);
      assert due <= done;
      CountsEnd(res, due, early, done);
      PartwayAll(before, goal, repo.committed, done, res.firstErr.Some?);
    }

    lemma DueIs(listed: Tables, t: Tables, u: Tables, id: string, on: Day, local: Day)
      requires id in listed && ListedToResume(listed[id], on)
      requires (id in t <==> id in u) && (id in t ==> t[id] == u[id])
      ensures listed[id].row.pausedUntil.Some?
      ensures DueToResume(listed[id], local) <==> listed[id].row.pausedUntil.value <= local
      ensures Paused(t, id) <==> Paused(u, id)
      ensures ResumesNow(listed, u, id, on, local) <==> listed[id].row.pausedUntil.value <= local && Paused(u, id)
      ensures listed == u ==> Paused(u, id)
    {
    }

    lemma AllConsidered(listed: Tables, checked: Tables, clock: Clock, done: set<string>)
      requires forall id :: id in done ==> id in listed
      ensures (forall id :: id in listed ==> (id in done <==> ListedToResume(listed[id], RunDate(clock)))) ==>
                done == ResumeCandidates(listed, clock) && ResumesEarly(listed, zones, clock) <= done
      ensures (forall id :: id in listed ==> (id in done <==> ListedToArm(listed[id], RunDate(clock)))) ==>
                done == ArmCandidates(listed, clock) && ArmsEarly(listed, checked, zones, clock) <= done
    {
      hide ListedToResume, ListedToArm, DueToResume, HasDueOrder, CheckDate, RunDate;
    }

    lemma UnlistedIsNotDue(listed: Tables, t: Tables, id: string, on: Day, check: Day)
      ensures ResumesNow(listed, t, id, on, check) ==> id in listed && ListedToResume(listed[id], on)
    {
    }

    /** One pass over a fresh listing, undisturbed: whoever is listed and their pause over when
        their turn comes; and so everyone whose pause is over when the pass begins. */
    method ResumeDue(clock: Clock) returns (res: PassResult)
      requires Ready()
      modifies repo
      ensures Ready() && repo.committed.Keys == old(repo.committed).Keys && Consistent(res)
      ensures forall id :: id in repo.committed ==>
                var l := old(repo.committed)[id];
                || repo.committed[id]
                   == AfterResume(l, RunDate(clock), CheckDate(zones, clock, id), ActDate(zones, clock, id),
                                  svc.mat.horizon)
                || (res.firstErr.Some? && repo.committed[id] == l)
      ensures clock.Runs() && res.firstErr.None? ==> forall id :: id in repo.committed ==>
                var l := old(repo.committed)[id];
                DueToResume(l, StartDate(zones, clock, id)) ==>
                  repo.committed[id] == Step(l, Call(DoResume, ActDate(zones, clock, id), System), svc.mat.horizon)
      ensures clock.Runs() && res.firstErr.None? ==> forall id, d, e ::
                id in repo.committed && StartsOn(zones, clock, id, d) && ActedOn(zones, clock, id, e)
                && PauseOverBy(old(repo.committed)[id], d) ==>
                  repo.committed[id] == Step(old(repo.committed)[id], Call(DoResume, e, System), svc.mat.horizon)
      ensures forall id, d ::
                id in repo.committed && CheckedOn(zones, clock, id, d)
                && repo.committed[id] != old(repo.committed)[id] ==>
                  PauseOverBy(old(repo.committed)[id], d)
      ensures res.firstErr.Some? ==> !repo.reliable
      ensures res.firstErr.None? ==> res.acted == |ResumesDue(old(repo.committed), zones, clock)|
      ensures res.alreadyMoved == 0
    {
      hide Sound, Consistent, ResumeGoal, ResumedIds, ResumesDue, ArmGoal, ArmedIds, ArmsDue, Step, Inv;
      hide OriginsDistinct;
      hide CheckDate, ActDate, RunDate, StartDate, ListedToResume, ListedToArm, DueToResume, DueToArm, PlausibleZones;
      hide LocalDay, StartsOn, CheckedOn, ActedOn, PauseOverBy, OrderDueBy, Consistent, ResumeCandidates, ArmCandidates;
      var fault := repo.Fault();
      if fault {
        NothingDoneIsConsistent();
        return NOTHING_DONE.(firstErr := Some(Io));
      }
      ghost var before := repo.committed;
      res := ResumeListed(repo.committed, clock);
      UndisturbedIds(before, zones, clock);
      forall id | id in repo.committed
        ensures repo.committed[id]
                == AfterResume(before[id], RunDate(clock), CheckDate(zones, clock, id), ActDate(zones, clock, id),
                               svc.mat.horizon)
                || (res.firstErr.Some? && repo.committed[id] == before[id])
        ensures clock.Runs() && DueToResume(before[id], StartDate(zones, clock, id)) ==>
                  ListedToResume(before[id], RunDate(clock)) && DueToResume(before[id], CheckDate(zones, clock, id))
      {
        UndisturbedIsDue(before, zones, clock, svc.mat.horizon, id);
        PassActsOnDue(before[id], zones, clock, id);
        if clock.Runs() {
          DatesAscend(zones, clock, id);
        }
      }
      forall id, d
        ensures StartsOn(zones, clock, id, d) <==> d == StartDate(zones, clock, id)
      {
        DatesAreLocal(zones, clock, id, d);
      }
      forall id, d
        ensures CheckedOn(zones, clock, id, d) <==> d == CheckDate(zones, clock, id)
      {
        DatesAreLocal(zones, clock, id, d);
      }
      forall id, d
        ensures ActedOn(zones, clock, id, d) <==> d == ActDate(zones, clock, id)
      {
        DatesAreLocal(zones, clock, id, d);
      }
      forall id, d | id in before
        ensures PauseOverBy(before[id], d) <==> DueToResume(before[id], d)
      {
        DueIsSpelledOut(before[id], d);
      }
    }

    /** One candidate of an arm pass.  Its soonest planned order, read without the lock,
        decides; what is armed is whatever is soonest once it is locked. */
    method ArmOne(id: string, checked: Tables, check: Day, act: Day) returns (v: Verdict)
      requires Ready()
      modifies repo
      ensures Ready() && repo.committed.Keys == old(repo.committed).Keys
      ensures v.Broken? ==> !repo.reliable
      ensures !v.Broken? ==> (v == NotYetDue <==> !(id in checked && HasDueOrder(checked[id], check)))
      ensures !v.Broken? ==> (v == Acted <==> ArmsIt(checked, old(repo.committed), id, check))
      ensures var t := old(repo.committed);
              repo.committed == if v == Acted then t[id := Step(t[id], Call(DoArmNext, act, System), 1)] else t
    {
      hide Sound, HasDueOrder;
      var fault := repo.Fault();
      if fault {
        return Broken(Io);
      }
      if id !in checked {
        return NotYetDue;
      }
      SoonestDecidesDue(checked[id], check);
      var occs := checked[id].occs;
      var next := Soonest(occs, {Planned});
      if next.None? || occs[next.value].date - ARM_WINDOW_DAYS > check {
        return NotYetDue;
      }
      ghost var t := repo.committed;
      if id in t {
        ArmableIsAccepted(t[id], act, svc.mat.horizon);
      }
      var r := svc.ArmNext(id, act, System);
      v := if r.Ok? then Acted else if r.error.Refused? || r.error == NotFound then AlreadyMoved else Broken(r.error);
    }

    lemma ArmableIsAccepted(l: Ledger, today: Day, horizon: int)
      ensures Apply(l, Call(DoArmNext, today, System), horizon).Ok? <==> Armable(l)
      ensures Step(l, Call(DoArmNext, today, System), horizon) == Step(l, Call(DoArmNext, today, System), 1)
    {
    }

    lemma ArmsItAlike(checked: Tables, t: Tables, u: Tables, id: string, local: Day)
      requires (id in t <==> id in u) && (id in t ==> t[id] == u[id])
      ensures ArmsIt(checked, t, id, local) <==> ArmsIt(checked, u, id, local)
    {
    }

    lemma ArmsNowMeans(listed: Tables, checked: Tables, t: Tables, id: string, on: Day, local: Day)
      ensures ArmsNow(listed, checked, t, id, on, local)
              <==> id in listed && ListedToArm(listed[id], on) && ArmsIt(checked, t, id, local)
      ensures listed == checked == t && id in t && ListedToArm(t[id], on) && HasDueOrder(t[id], local)
              ==> ArmsIt(checked, t, id, local)
    {
    }

    /** Arms the soonest order of every schedule that was listed and had an order due when
        it was checked, if it still has any. */
    method ArmListed(listed: Tables, checked: Tables, clock: Clock) returns (res: PassResult)
      requires Ready()
      modifies repo
      ensures Ready() && repo.committed.Keys == old(repo.committed).Keys && Consistent(res)
      ensures forall id :: id in repo.committed ==>
                || repo.committed[id] == ArmGoal(listed, checked, old(repo.committed), zones, clock)[id]
                || (res.firstErr.Some? && repo.committed[id] == old(repo.committed)[id])
      ensures res.firstErr.Some? ==> !repo.reliable
      ensures res.firstErr.None? ==> res.acted == |ArmedIds(listed, checked, old(repo.committed), zones, clock)|
      ensures res.considered == |ArmCandidates(listed, clock)|
      ensures res.firstErr.None? ==> res.notYetDue == |ArmsEarly(listed, checked, zones, clock)|
      ensures listed == checked == old(repo.committed) ==> res.alreadyMoved == 0
    {
      hide Counts, ArmCandidates, ArmsEarly, Consistent, Sound, CheckDate, ActDate, RunDate, PlausibleZones;
      hide ListedToResume, ListedToArm, HasDueOrder;
      hide ArmsNow, ArmsIt, OriginsDistinct, ArmedIds, ArmGoal, PassResult.Add, Inv, Step, Partway, Armable, Ready;
      ghost var before := repo.committed;
      ghost var goal := ArmGoal(listed, checked, before, zones, clock);
      ghost var due := ArmedIds(listed, checked, before, zones, clock);
      ArmGoalAt(listed, checked, before, zones, clock, "");
      ghost var early := ArmsEarly(listed, checked, zones, clock);
      var runDate := RunDate(clock);
      var rest := set id | id in listed && ListedToArm(listed[id], runDate);
      ghost var done: set<string> := {};
      res := NOTHING_DONE;
      CountsStart(due, early);
      NothingPartway(before, goal);
      while rest != {}
        invariant forall id :: id in rest ==> id in listed && id !in done && ListedToArm(listed[id], runDate)
        invariant forall id :: id in listed && ListedToArm(listed[id], runDate) ==> id in rest || id in done
        invariant res.firstErr.Some? ==> !repo.reliable
        invariant forall id :: id in done ==> id in listed && ListedToArm(listed[id], runDate)
        invariant Counts(res, due, early, done)
        invariant listed == checked == before ==> res.alreadyMoved == 0
        invariant Ready()
        invariant Partway(before, goal, repo.committed, done, res.firstErr.Some?)
        decreases rest
      {
        var id :| id in rest;
        rest := rest - {id};
        ghost var was, failed := repo.committed, res.firstErr.Some?;
        PartwayKeys(before, goal, was, done, failed, id);
        ArmGoalAt(listed, checked, before, zones, clock, id);
        ArmsNowMeans(listed, checked, before, id, runDate, CheckDate(zones, clock, id));
        ArmsItAlike(checked, was, before, id, CheckDate(zones, clock, id));
        var v := ArmOne(id, checked, CheckDate(zones, clock, id), ActDate(zones, clock, id));
        PartwayStep(before, goal, was, done, failed, id, repo.committed, v.Broken?);
        EarlyAt(listed, checked, zones, clock, id);
        CountsStep(res, v, due, early, done, id);
        res := res.Add(v);
        done := done + {id};
      }
      forall id | id in before && id !in done ensures goal[id] == before[id] && id !in due {
        ArmGoalAt(listed, checked, before, zones, clock, id);
        ArmsNowMeans(listed, checked, before, id, runDate, CheckDate(zones, clock, id));
      }
      AllConsidered(listed, checked, clock, done);
      assert due <= done;
      CountsEnd(res, due, early, done);
      PartwayAll(before, goal, repo.committed, done, res.firstErr.Some?);
    }

    /** One pass over a fresh listing, undisturbed: one order, the soonest, of whoever is listed
        and has one due when their turn comes; and so of everyone with one due when the pass
        begins. */
    method ArmDue(clock: Clock) returns (res: PassResult)
      requires Ready()
      modifies repo
      ensures Ready() && repo.committed.Keys == old(repo.committed).Keys && Consistent(res)
      ensures forall id :: id in repo.committed ==>
                var l := old(repo.committed)[id];
                || repo.committed[id]
                   == AfterArm(l, RunDate(clock), CheckDate(zones, clock, id), ActDate(zones, clock, id))
                || (res.firstErr.Some? && repo.committed[id] == l)
      ensures clock.Runs() && res.firstErr.None? ==> forall id :: id in repo.committed ==>
                var l := old(repo.committed)[id];
                DueToArm(l, StartDate(zones, clock, id)) ==>
                  repo.committed[id] == Step(l, Call(DoArmNext, ActDate(zones, clock, id), System), 1)
      ensures clock.Runs() && res.firstErr.None? ==> forall id, d, e ::
                id in repo.committed && StartsOn(zones, clock, id, d) && ActedOn(zones, clock, id, e)
                && OrderDueBy(old(repo.committed)[id], d) ==>
                  repo.committed[id] == Step(old(repo.committed)[id], Call(DoArmNext, e, System), 1)
      ensures forall id, d ::
                id in repo.committed && CheckedOn(zones, clock, id, d)
                && repo.committed[id] != old(repo.committed)[id] ==>
                  OrderDueBy(old(repo.committed)[id], d)
      ensures res.firstErr.Some? ==> !repo.reliable
      ensures res.firstErr.None? ==> res.acted == |ArmsDue(old(repo.committed), zones, clock)|
      ensures res.alreadyMoved == 0
    {
      hide Sound, Consistent, ResumeGoal, ResumedIds, ResumesDue, ArmGoal, ArmedIds, ArmsDue, Step, Inv;
      hide OriginsDistinct;
      hide CheckDate, ActDate, RunDate, StartDate, ListedToResume, ListedToArm, DueToResume, DueToArm, PlausibleZones;
      hide LocalDay, StartsOn, CheckedOn, ActedOn, PauseOverBy, OrderDueBy, Consistent, ResumeCandidates, ArmCandidates;
      var fault := repo.Fault();
      if fault {
        NothingDoneIsConsistent();
        return NOTHING_DONE.(firstErr := Some(Io));
      }
      ghost var before := repo.committed;
      res := ArmListed(repo.committed, repo.committed, clock);
      UndisturbedIds(before, zones, clock);
      forall id | id in repo.committed
        ensures repo.committed[id]
                == AfterArm(before[id], RunDate(clock), CheckDate(zones, clock, id), ActDate(zones, clock, id))
                || (res.firstErr.Some? && repo.committed[id] == before[id])
        ensures clock.Runs() && DueToArm(before[id], StartDate(zones, clock, id)) ==>
                  ListedToArm(before[id], RunDate(clock)) && DueToArm(before[id], CheckDate(zones, clock, id))
      {
        UndisturbedIsDue(before, zones, clock, svc.mat.horizon, id);
        PassActsOnDue(before[id], zones, clock, id);
        if clock.Runs() {
          DatesAscend(zones, clock, id);
        }
      }
      forall id, d
        ensures StartsOn(zones, clock, id, d) <==> d == StartDate(zones, clock, id)
      {
        DatesAreLocal(zones, clock, id, d);
      }
      forall id, d
        ensures CheckedOn(zones, clock, id, d) <==> d == CheckDate(zones, clock, id)
      {
        DatesAreLocal(zones, clock, id, d);
      }
      forall id, d
        ensures ActedOn(zones, clock, id, d) <==> d == ActDate(zones, clock, id)
      {
        DatesAreLocal(zones, clock, id, d);
      }
      forall id, d | id in before
        ensures OrderDueBy(before[id], d) <==> DueToArm(before[id], d)
      {
        DueIsSpelledOut(before[id], d);
      }
    }
  }

  // ----- repeated arm passes -----

  function ArmPasses(l: Ledger, local: Day, n: nat): Ledger
    decreases n
  {
    if n == 0 then l else ArmPasses(AfterArmPass(l, local), local, n - 1)
  }

  /** Planned rows that come before `o` in (date, sequence) order. */
  function PlannedBefore(o: Occurrence): Occurrence -> bool {
    (p: Occurrence) => p.status == Planned && Sooner(p, o)
  }

  function DuePlanned(local: Day): Occurrence -> bool {
    (p: Occurrence) => p.status == Planned && p.date - ARM_WINDOW_DAYS <= local
  }

  function Rank(occs: seq<Occurrence>, k: nat): nat
    requires k < |occs|
  {
    Count(occs, PlannedBefore(occs[k]))
  }

  lemma ArmPassStep(l: Ledger, local: Day, k: nat)
    requires WellFormed(l) && k < |l.occs| && DueToArm(l, local)
    ensures var s := Soonest(l.occs, {Planned});
            var m := AfterArmPass(l, local);
            && s.Some? && WellFormed(m) && m.row == l.row && |m.occs| == |l.occs| && DuePlanned(local)(l.occs[s.value])
            && m.occs[k] == (if k == s.value then l.occs[k].(status := Pending) else l.occs[k])
            && Rank(l.occs, s.value) == 0
            && (l.occs[k].status == Planned && k != s.value ==> Rank(m.occs, k) == Rank(l.occs, k) - 1)
            && Count(m.occs, DuePlanned(local)) == Count(l.occs, DuePlanned(local)) - 1
  {
    SoonestDecidesDue(l, local);
    hide Soonest, Count, Keys.IdempotencyKey, HasDueOrder;
    var s := Soonest(l.occs, {Planned}).value;
    CountZero(l.occs, PlannedBefore(l.occs[s]));
    CountUpdate(l.occs, s, l.occs[s].(status := Pending), PlannedBefore(l.occs[k]));
    CountUpdate(l.occs, s, l.occs[s].(status := Pending), DuePlanned(local));
  }

  /** n undisturbed passes at one instant arm exactly the n soonest planned orders that
      are due, and never one outside the window. */
  lemma {:induction false} ArmPassesArmSoonest(l: Ledger, local: Day, n: nat, k: nat)
    requires WellFormed(l) && k < |l.occs|
    ensures var m := ArmPasses(l, local, n);
            && m.row == l.row && |m.occs| == |l.occs|
            && m.occs[k] == (if l.row.status == ScheduleActive && DuePlanned(local)(l.occs[k]) && Rank(l.occs, k) < n
                             then l.occs[k].(status := Pending) else l.occs[k])
    decreases n
  {
    hide AfterArmPass, DueToArm, Rank, WellFormed, Count, Soonest;
    if n > 0 {
      if DueToArm(l, local) {
        ArmPassStep(l, local, k);
        ArmPassesArmSoonest(AfterArmPass(l, local), local, n - 1, k);
        NotDueMeans(l, local, k);
      } else {
        NotDueMeans(l, local, k);
        ArmPassesArmSoonest(l, local, n - 1, k);
      }
    }
  }

  lemma NotDueMeans(l: Ledger, local: Day, k: nat)
    requires k < |l.occs|
    ensures !DueToArm(l, local) ==> AfterArmPass(l, local) == l
    ensures l.row.status == ScheduleActive && DuePlanned(local)(l.occs[k]) ==> DueToArm(l, local)
    ensures DueToArm(l, local) ==> l.row.status == ScheduleActive
  {
  }

  lemma {:induction false} IdlePasses(l: Ledger, local: Day, n: nat)
    requires !DueToArm(l, local)
    ensures ArmPasses(l, local, n) == l
    decreases n
  {
    if n > 0 {
      IdlePasses(l, local, n - 1);
    }
  }

  /** As many passes as there are due orders reach a fixpoint: nothing due is left. */
  lemma {:induction false} ArmPassesSettle(l: Ledger, local: Day, n: nat)
    requires WellFormed(l) && n >= Count(l.occs, DuePlanned(local))
    ensures !DueToArm(ArmPasses(l, local, n), local)
    ensures AfterArmPass(ArmPasses(l, local, n), local) == ArmPasses(l, local, n)
    decreases n
  {
    hide Soonest, Count, WellFormed, AfterArmPass;
    if DueToArm(l, local) {
      SoonestDecidesDue(l, local);
      ArmPassStep(l, local, Soonest(l.occs, {Planned}).value);
      ArmPassesSettle(AfterArmPass(l, local), local, n - 1);
    } else {
      IdlePasses(l, local, n);
      IdlePasses(l, local, 1);
    }
  }
}
