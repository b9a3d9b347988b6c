/**
 The schedule state machine as functions: what each transition, committed, makes of a
 ledger, and when it is refused.  The classes Service and Materializer are proved to
 commit exactly these.
 */
module Lifecycle {
  import opened Wrappers
  import opened Cadence
  import opened Ledgers
  import Keys

  const MAX_DEFER_DAYS := MAX_INTERVAL_DAYS
  const MAX_KEY_LENGTH := 200
  const ARM_WINDOW_DAYS := 3

  datatype Action = ActionPause | ActionResume | ActionSkipNext | ActionDefer | ActionChangeCadence
                  | ActionCancel | ActionArm

  datatype Error =
    | NotFound
    | NoTransaction
    | BadRequest
    | Refused(action: Action, status: ScheduleStatus)
    | Duplicate
    | Rejected  // a table constraint the store does not recognise by name
    | Io

  function AcceptedIn(a: Action): set<ScheduleStatus> {
    match a
    case ActionPause => {ScheduleActive}
    case ActionResume => {SchedulePaused}
    case ActionSkipNext => {ScheduleActive}
    case ActionDefer => {ScheduleActive}
    case ActionChangeCadence => {ScheduleActive, SchedulePaused}
    case ActionCancel => {ScheduleActive, SchedulePaused, ScheduleFailed}
    case ActionArm => {ScheduleActive}
  }

  const CANCELLATION_REASONS := {"too_expensive", "too_frequent", "switched_brand", "delivery_issue",
                                 "payment_issue", "no_longer_wanted", "other"}

  /** A skip or a deferral must not rewrite a settled order. */
  predicate CanTarget(o: Occurrence, a: Action) {
    (a == ActionSkipNext || a == ActionDefer) && !IsExecuted(o)
  }

  predicate ValidKey(key: string) { 1 <= |key| <= MAX_KEY_LENGTH }

  predicate ValidDeferDays(days: int) { 1 <= days <= MAX_DEFER_DAYS }

  // ----- the materializer -----

  function PlannedRow(id: string, seqNo: int, date: Day): Occurrence {
    Occurrence(seqNo, date, Planned, None, Keys.IdempotencyKey(id, seqNo))
  }

  function AddRow(l: Ledger, date: Day): Ledger {
    var n := |l.occs| + 1;
    Ledger(l.row, l.occs + [PlannedRow(l.row.id, n, date)],
           l.log + [Event(System, None, MaterializedEvent(n, date))])
  }

  /** Plans `dates` in order, numbering on from the last row, with an event for each. */
  function AddRows(l: Ledger, dates: seq<Day>): (r: Ledger)
    ensures r.row == l.row && |r.occs| == |l.occs| + |dates| && |r.log| == |l.log| + |dates|
    ensures l.occs <= r.occs && l.log <= r.log
  {
    var n := |l.occs|;
    Ledger(l.row,
           l.occs + seq(|dates|, k requires 0 <= k < |dates| => PlannedRow(l.row.id, n + k + 1, dates[k])),
           l.log + seq(|dates|, k requires 0 <= k < |dates| =>
             Event(System, None, MaterializedEvent(n + k + 1, dates[k]))))
  }

  lemma AddRowsNone(l: Ledger, dates: seq<Day>)
    requires |dates| == 0
    ensures AddRows(l, dates) == l
  {
  }

  lemma AddRowsOneMore(l: Ledger, dates: seq<Day>, i: nat)
    requires i < |dates|
    ensures AddRows(l, dates[..i + 1]) == AddRow(AddRows(l, dates[..i]), dates[i])
  {
    var p, q := AddRow(AddRows(l, dates[..i]), dates[i]), AddRows(l, dates[..i + 1]);
    assert q.occs == p.occs;
    assert q.log == p.log;
  }

  lemma AddRowsAll(l: Ledger, dates: seq<Day>)
    requires |dates| > 0
    ensures AddRows(l, dates) == AddRow(AddRows(l, dates[..|dates| - 1]), dates[|dates| - 1])
  {
    AddRowsOneMore(l, dates, |dates| - 1);
    assert dates[..|dates|] == dates;
  }

  lemma AddRowsAt(l: Ledger, dates: seq<Day>, k: nat)
    requires k < |l.occs| + |dates|
    ensures AddRows(l, dates).occs[k]
            == if k < |l.occs| then l.occs[k] else PlannedRow(l.row.id, k + 1, dates[k - |l.occs|])
  {
  }

  function Missing(l: Ledger, today: Day, horizon: int): int {
    horizon - Count(l.occs, FuturePlanned(today))
  }

  /** The date the cadence continues from: the furthest one spoken for, or today. */
  function Cursor(l: Ledger, today: Day): Day {
    match LatestUnsettled(l.occs)
    case Some(d) => Max(today, d)
    case None => today
  }

  function PlanDates(l: Ledger, today: Day, n: nat): (dates: seq<Day>)
    requires ValidInterval(l.row.interval)
    ensures |dates| == n
    ensures forall k :: 0 <= k < n ==>
              dates[k] == WalkDate(l.row.anchor, l.row.interval, Cursor(l, today), k)
  {
    seq(n, k requires 0 <= k < n => WalkDate(l.row.anchor, l.row.interval, Cursor(l, today), k))
  }

  function Refresh(l: Ledger, today: Day): Ledger {
    l.(row := l.row.(nextRun := NextRun(l.occs, today)))
  }

  function TopUp(l: Ledger, today: Day, horizon: int): Ledger
    requires ValidInterval(l.row.interval)
  {
    var missing := Missing(l, today, horizon);
    Refresh(if missing <= 0 then l else AddRows(l, PlanDates(l, today, missing)), today)
  }

  function Materialize(l: Ledger, today: Day, horizon: int): Result<Ledger, Error> {
    if l.row.status != ScheduleActive then Ok(l)
    else if !ValidInterval(l.row.interval) then Err(BadRequest)
    else Ok(TopUp(l, today, horizon))
  }

  // ----- the transitions -----

  function Record(l: Ledger, actor: Actor, key: Option<string>, body: Body): Ledger {
    l.(log := l.log + [Event(actor, key, body)])
  }

  function Pause(l: Ledger, until: Option<Day>, today: Day, actor: Actor): Result<Ledger, Error> {
    if l.row.status !in AcceptedIn(ActionPause) || (until.Some? && until.value <= today)
    then Err(Refused(ActionPause, l.row.status))
    else
      Ok(Record(Ledger(l.row.(status := SchedulePaused, pausedUntil := until, nextRun := None),
                       CancelAll(l.occs, UNSETTLED), l.log),
                actor, None, PausedEvent(until, Count(l.occs, Cancelable(UNSETTLED)))))
  }

  function Resume(l: Ledger, today: Day, actor: Actor, horizon: int): Result<Ledger, Error> {
    if l.row.status !in AcceptedIn(ActionResume) then Err(Refused(ActionResume, l.row.status))
    else if !ValidInterval(l.row.interval) then Err(BadRequest)
    else
      var row := l.row.(status := ScheduleActive, pausedUntil := None, anchor := today);
      Materialize(Record(l.(row := row), actor, None,
                         ResumedEvent(today, row.interval, today + row.interval)), today, horizon)
  }

  predicate SkipRecorded(log: seq<Event>, key: string) {
    exists k :: 0 <= k < |log| && log[k].body.SkippedEvent? && log[k].key == Some(key)
  }

  predicate DeferRecorded(log: seq<Event>, key: string) {
    exists k :: 0 <= k < |log| && log[k].body.DeferredEvent? && log[k].key == Some(key)
  }

  function SkipAt(l: Ledger, k: nat, key: string, actor: Actor): Ledger
    requires k < |l.occs|
  {
    var o := l.occs[k];
    Record(l.(occs := l.occs[k := o.(status := Skipped)]), actor, Some(key), SkippedEvent(o.seqNo, o.date))
  }

  function SkipNext(l: Ledger, key: string, today: Day, actor: Actor, horizon: int): Result<Ledger, Error> {
    if l.row.status !in AcceptedIn(ActionSkipNext) then Err(Refused(ActionSkipNext, l.row.status))
    else if SkipRecorded(l.log, key) then Ok(l)
    else
      match Soonest(l.occs, UNSETTLED)
      case None => Err(Refused(ActionSkipNext, l.row.status))
      case Some(k) => Materialize(SkipAt(l, k, key, actor), today, horizon)
  }

  function DeferAt(l: Ledger, k: nat, days: int, key: string, actor: Actor): Ledger
    requires k < |l.occs|
  {
    var o := l.occs[k];
    Record(l.(occs := l.occs[k := o.(date := o.date + days)]), actor, Some(key),
           DeferredEvent(o.seqNo, o.date, o.date + days, days))
  }

  function Defer(l: Ledger, days: int, key: string, today: Day, actor: Actor): Result<Ledger, Error> {
    if l.row.status !in AcceptedIn(ActionDefer) then Err(Refused(ActionDefer, l.row.status))
    else if DeferRecorded(l.log, key) then Ok(l)
    else
      match Soonest(l.occs, UNSETTLED)
      case None => Err(Refused(ActionDefer, l.row.status))
      case Some(k) => Ok(Refresh(DeferAt(l, k, days, key, actor), today))
  }

  /** A cadence change measures from the last placed order, or from today. */
  function NewAnchor(l: Ledger, today: Day): Day {
    match LastPlaced(l.occs)
    case Some(k) => l.occs[k].date
    case None => today
  }

  function Reanchored(l: Ledger, interval: int, today: Day, actor: Actor): Ledger {
    var anchor := NewAnchor(l, today);
    Record(Ledger(l.row.(interval := interval, anchor := anchor), CancelAll(l.occs, {Planned}), l.log),
           actor, None,
           CadenceChangedEvent(l.row.interval, interval, anchor, Count(l.occs, Cancelable({Planned}))))
  }

  function ChangeCadence(l: Ledger, interval: int, today: Day, actor: Actor, horizon: int): Result<Ledger, Error> {
    if l.row.status !in AcceptedIn(ActionChangeCadence) then Err(Refused(ActionChangeCadence, l.row.status))
    else
      var c := Reanchored(l, interval, today, actor);
      if l.row.status != ScheduleActive then Ok(c.(row := c.row.(nextRun := None)))
      else Materialize(c, today, horizon)
  }

  function Cancel(l: Ledger, reason: string, actor: Actor): Result<Ledger, Error> {
    if l.row.status !in AcceptedIn(ActionCancel) then Err(Refused(ActionCancel, l.row.status))
    else
      Ok(Record(Ledger(l.row.(status := ScheduleCanceled, pausedUntil := None, nextRun := None),
                       CancelAll(l.occs, UNSETTLED), l.log),
                actor, None, CanceledEvent(reason, Count(l.occs, Cancelable(UNSETTLED)))))
  }

  function ArmAt(l: Ledger, k: nat, actor: Actor): Ledger
    requires k < |l.occs|
  {
    var o := l.occs[k];
    Record(l.(occs := l.occs[k := o.(status := Pending)]), actor, None, ArmedEvent(o.seqNo, o.date))
  }

  function ArmNext(l: Ledger, actor: Actor): Result<Ledger, Error> {
    if l.row.status !in AcceptedIn(ActionArm) then Err(Refused(ActionArm, l.row.status))
    else
      match Soonest(l.occs, {Planned})
      case None => Err(Refused(ActionArm, l.row.status))
      case Some(k) => Ok(ArmAt(l, k, actor))
  }

  // ----- runs -----

  datatype Command =
    | DoPause(until: Option<Day>)
    | DoResume
    | DoSkipNext(key: string)
    | DoDefer(days: int, key: string)
    | DoChangeCadence(interval: int)
    | DoCancel(reason: string)
    | DoArmNext
    | DoMaterialize

  /** One request: what is asked, the date it is evaluated at, and who asks.  Dates need
      not ascend from call to call. */
  datatype Call = Call(command: Command, today: Day, actor: Actor)

  /** Requests that fail this never open a transaction. */
  predicate ValidArguments(c: Command) {
    match c
    case DoSkipNext(key) => ValidKey(key)
    case DoDefer(days, key) => ValidDeferDays(days) && ValidKey(key)
    case DoChangeCadence(interval) => ValidInterval(interval)
    case DoCancel(reason) => reason in CANCELLATION_REASONS
    case _ => true
  }

  function Apply(l: Ledger, c: Call, horizon: int): Result<Ledger, Error> {
    if !ValidArguments(c.command) then Err(BadRequest)
    else
      match c.command
      case DoPause(until) => Pause(l, until, c.today, c.actor)
      case DoResume => Resume(l, c.today, c.actor, horizon)
      case DoSkipNext(key) => SkipNext(l, key, c.today, c.actor, horizon)
      case DoDefer(days, key) => Defer(l, days, key, c.today, c.actor)
      case DoChangeCadence(interval) => ChangeCadence(l, interval, c.today, c.actor, horizon)
      case DoCancel(reason) => Cancel(l, reason, c.actor)
      case DoArmNext => ArmNext(l, c.actor)
      case DoMaterialize => Materialize(l, c.today, horizon)
  }

  function ActionOf(c: Command): Option<Action> {
    match c
    case DoPause(_) => Some(ActionPause)
    case DoResume => Some(ActionResume)
    case DoSkipNext(_) => Some(ActionSkipNext)
    case DoDefer(_, _) => Some(ActionDefer)
    case DoChangeCadence(_) => Some(ActionChangeCadence)
    case DoCancel(_) => Some(ActionCancel)
    case DoArmNext => Some(ActionArm)
    case DoMaterialize => None
  }

  /** The status gate comes first: a schedule in the wrong status refuses the action
      whatever else the request says. */
  lemma StatusGate(l: Ledger, c: Call, horizon: int)
    requires ValidArguments(c.command) && ActionOf(c.command).Some?
    requires l.row.status !in AcceptedIn(ActionOf(c.command).value)
    ensures Apply(l, c, horizon) == Err(Refused(ActionOf(c.command).value, l.row.status))
  {
  }

  /** A refused call leaves the ledger as it was. */
  function Step(l: Ledger, c: Call, horizon: int): Ledger {
    match Apply(l, c, horizon)
    case Ok(next) => next
    case Err(_) => l
  }

  function Run(l: Ledger, calls: seq<Call>, horizon: int): Ledger {
    if |calls| == 0 then l
    else Step(Run(l, calls[..|calls| - 1], horizon), calls[|calls| - 1], horizon)
  }

  /** A schedule as checkout creates it, together with its creation event. */
  function Created(id: string, origin: string, interval: int, anchor: Day): Ledger {
    Ledger(Schedule(id, origin, ScheduleActive, interval, anchor, None, None), [],
           [Event(System, None, CreatedEvent(anchor, interval))])
  }

  lemma RunSnoc(l: Ledger, calls: seq<Call>, c: Call, horizon: int)
    ensures Run(l, calls + [c], horizon) == Step(Run(l, calls, horizon), c, horizon)
  {
    assert (calls + [c])[..|calls|] == calls;
  }
}
