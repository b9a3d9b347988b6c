/**
 The notification outbox: runs claim outstanding events, send, and mark the outcome,
 with no lock held in between.  A run dies by its deadline; a claim left open longer
 than the visibility timeout may be taken over.  The marks carry no status guard, so
 everything rests on no two live runs ever holding the same event.
 */
module Outbox {
  type EventId = int
  type Time = int  // seconds

  const MAX_ATTEMPTS := 5
  const VISIBILITY_TIMEOUT := 15 * 60
  const RUN_DEADLINE := 10 * 60

  datatype Status = LogPending | LogSent | LogFailed

  datatype Row = Row(status: Status, attempts: nat, lastAttempt: Time)

  type Rows = map<EventId, Row>

  // ----- the statements -----

  predicate Claimable(rows: Rows, e: EventId, now: Time, visibility: Time) {
    e !in rows || (rows[e].status == LogPending && rows[e].lastAttempt < now - visibility)
  }

  /** INSERT ... ON CONFLICT: a first attempt, or one more on an abandoned row. */
  function Claimed(rows: Rows, ids: set<EventId>, now: Time): Rows {
    map e | e in rows.Keys + ids ::
      if e !in ids then rows[e]
      else if e in rows then rows[e].(attempts := rows[e].attempts + 1, lastAttempt := now)
      else Row(LogPending, 1, now)
  }

  function MarkedSent(rows: Rows, e: EventId): Rows {
    if e in rows then rows[e := rows[e].(status := LogSent)] else rows
  }

  function MarkedFailed(rows: Rows, e: EventId): Rows {
    if e in rows
    then rows[e := rows[e].(status := if rows[e].attempts >= MAX_ATTEMPTS then LogFailed else LogPending)]
    else rows
  }

  // ----- overlapping runs -----

  datatype Dispatch = Dispatch(start: Time, alive: bool, held: set<EventId>)

  /** `rejections` counts the send failures recorded for each event. */
  datatype World = World(now: Time, rows: Rows, runs: map<nat, Dispatch>, rejections: map<EventId, nat>)

  function Rejections(w: World, e: EventId): nat {
    if e in w.rejections then w.rejections[e] else 0
  }

  /** A run can act until its deadline, unless it died before. */
  predicate Live(w: World, r: nat, deadline: Time) {
    r in w.runs && w.runs[r].alive && w.now <= w.runs[r].start + deadline
  }

  predicate Holds(w: World, r: nat, e: EventId, deadline: Time) {
    Live(w, r, deadline) && e in w.runs[r].held
  }

  datatype Move =
    | Tick(seconds: nat)
    | Start(r: nat)
    | Claim(r: nat, ids: set<EventId>)
    | Send(r: nat, e: EventId)
    | Reject(r: nat, e: EventId)
    | GiveUp(r: nat, e: EventId)
    | Die(r: nat)

  predicate Enabled(w: World, m: Move, deadline: Time, visibility: Time) {
    match m
    case Tick(_) => true
    case Start(r) => r !in w.runs
    case Claim(r, ids) => Live(w, r, deadline) && forall e | e in ids :: Claimable(w.rows, e, w.now, visibility)
    case Send(r, e) => Holds(w, r, e, deadline)
    case Reject(r, e) => Holds(w, r, e, deadline)
    case GiveUp(r, e) => Holds(w, r, e, deadline)
    case Die(r) => r in w.runs
  }

  function Released(w: World, r: nat, e: EventId): map<nat, Dispatch>
    requires r in w.runs
  {
    w.runs[r := w.runs[r].(held := w.runs[r].held - {e})]
  }

  function Perform(w: World, m: Move, deadline: Time, visibility: Time): World
    requires Enabled(w, m, deadline, visibility)
  {
    match m
    case Tick(s) => w.(now := w.now + s)
    case Start(r) => w.(runs := w.runs[r := Dispatch(w.now, true, {})])
    case Claim(r, ids) =>
      w.(rows := Claimed(w.rows, ids, w.now),
         runs := w.runs[r := w.runs[r].(held := w.runs[r].held + ids)])
    case Send(r, e) => w.(rows := MarkedSent(w.rows, e), runs := Released(w, r, e))
    case Reject(r, e) =>
      w.(rows := MarkedFailed(w.rows, e), runs := Released(w, r, e),
         rejections := w.rejections[e := Rejections(w, e) + 1])
    case GiveUp(r, e) => w.(runs := Released(w, r, e))
    case Die(r) => w.(runs := w.runs[r := w.runs[r].(alive := false)])
  }

  const EMPTY := World(0, map[], map[], map[])

  ghost predicate Execution(ws: seq<World>, ms: seq<Move>, deadline: Time, visibility: Time) {
    && |ws| == |ms| + 1 && ws[0] == EMPTY
    && forall i :: 0 <= i < |ms| ==>
         Enabled(ws[i], ms[i], deadline, visibility) && ws[i + 1] == Perform(ws[i], ms[i], deadline, visibility)
  }

  // ----- safety -----

  ghost predicate SingleHolder(w: World, deadline: Time) {
    forall r, s, e :: Holds(w, r, e, deadline) && Holds(w, s, e, deadline) ==> r == s
  }

  /** A held event is open, and was claimed since its holder started. */
  ghost predicate ClaimsFresh(w: World, deadline: Time) {
    && (forall r :: r in w.runs ==> w.runs[r].start <= w.now)
    && forall r, e :: Holds(w, r, e, deadline) ==>
         && e in w.rows && w.rows[e].status == LogPending && w.runs[r].start <= w.rows[e].lastAttempt
         && Rejections(w, e) < w.rows[e].attempts
  }

  ghost predicate RejectionsCapped(w: World) {
    && (forall e :: e in w.rejections ==> e in w.rows)
    && forall e :: e in w.rows ==>
         && Rejections(w, e) <= w.rows[e].attempts
         && Rejections(w, e) <= MAX_ATTEMPTS
         && (w.rows[e].status == LogPending ==> Rejections(w, e) < MAX_ATTEMPTS)
         && (w.rows[e].status == LogFailed ==> w.rows[e].attempts >= MAX_ATTEMPTS)
  }

  ghost predicate Safe(w: World, deadline: Time) {
    SingleHolder(w, deadline) && ClaimsFresh(w, deadline) && RejectionsCapped(w)
  }

  /** A row sent or failed for good is final. */
  ghost predicate FinalKept(w: World, v: World) {
    forall e :: e in w.rows && w.rows[e].status != LogPending ==> e in v.rows && v.rows[e] == w.rows[e]
  }

  lemma ClaimIsSafe(w: World, r: nat, ids: set<EventId>, deadline: Time, visibility: Time)
    requires deadline <= visibility && Safe(w, deadline) && Enabled(w, Claim(r, ids), deadline, visibility)
    ensures Safe(Perform(w, Claim(r, ids), deadline, visibility), deadline)
    ensures FinalKept(w, Perform(w, Claim(r, ids), deadline, visibility))
  {
    var v := Perform(w, Claim(r, ids), deadline, visibility);
    forall s, e | Holds(w, s, e, deadline) ensures e !in ids {
      assert !Claimable(w.rows, e, w.now, visibility);
    }
    forall s, e | Holds(v, s, e, deadline)
      ensures if e in ids then s == r else Holds(w, s, e, deadline)
    {
      if s != r {
        assert Holds(w, s, e, deadline);
      }
    }
  }

  lemma MoveIsSafe(w: World, m: Move, deadline: Time, visibility: Time)
    requires deadline <= visibility && Safe(w, deadline) && Enabled(w, m, deadline, visibility)
    ensures Safe(Perform(w, m, deadline, visibility), deadline)
    ensures FinalKept(w, Perform(w, m, deadline, visibility))
  {
    var v := Perform(w, m, deadline, visibility);
    if m.Claim? {
      ClaimIsSafe(w, m.r, m.ids, deadline, visibility);
    } else {
      assert m.Send? || m.Reject? ==> Holds(w, m.r, m.e, deadline);
      forall s, e | Holds(v, s, e, deadline)
        ensures Holds(w, s, e, deadline)
        ensures m.Send? || m.Reject? ==> e != m.e
      {
        assert s in w.runs ==> v.runs[s].held <= w.runs[s].held;
        assert Holds(w, s, e, deadline);
      }
    }
  }

  lemma {:induction false} ExecutionIsSafe(ws: seq<World>, ms: seq<Move>, deadline: Time, visibility: Time, n: nat)
    requires deadline <= visibility && Execution(ws, ms, deadline, visibility) && n < |ws|
    ensures Safe(ws[n], deadline)
  {
    hide Perform, Enabled;
    if n > 0 {
      ExecutionIsSafe(ws, ms, deadline, visibility, n - 1);
      MoveIsSafe(ws[n - 1], ms[n - 1], deadline, visibility);
    }
  }

  /** Sent and failed are for ever, across any crashes and overlaps, and no event
      collects more than five recorded send failures. */
  lemma {:induction false} FinalForever(ws: seq<World>, ms: seq<Move>, deadline: Time, visibility: Time, m: nat, n: nat)
    requires deadline <= visibility && Execution(ws, ms, deadline, visibility) && m <= n < |ws|
    ensures FinalKept(ws[m], ws[n])
    ensures forall e :: Rejections(ws[n], e) <= 5
    ensures forall e :: e in ws[n].rows && ws[n].rows[e].status == LogFailed ==> ws[n].rows[e].attempts >= 5
    decreases n
  {
    hide Perform, Enabled, SingleHolder, ClaimsFresh;
    ExecutionIsSafe(ws, ms, deadline, visibility, n);
    if m < n {
      FinalForever(ws, ms, deadline, visibility, m, n - 1);
      ExecutionIsSafe(ws, ms, deadline, visibility, n - 1);
      MoveIsSafe(ws[n - 1], ms[n - 1], deadline, visibility);
    }
  }

  lemma OneMove(ws: seq<World>, ms: seq<Move>, m: Move, deadline: Time, visibility: Time)
    requires Execution(ws, ms, deadline, visibility) && Enabled(ws[|ms|], m, deadline, visibility)
    ensures Execution(ws + [Perform(ws[|ms|], m, deadline, visibility)], ms + [m], deadline, visibility)
  {
    hide Perform, Enabled;
    var vs, ns := ws + [Perform(ws[|ms|], m, deadline, visibility)], ms + [m];
    forall i | 0 <= i < |ns|
      ensures Enabled(vs[i], ns[i], deadline, visibility) && vs[i + 1] == Perform(vs[i], ns[i], deadline, visibility)
    {
      assert vs[i] == ws[i];
      if i < |ms| {
        assert ns[i] == ms[i] && vs[i + 1] == ws[i + 1];
      }
    }
  }

  /** With a deadline longer than the timeout, two live runs can hold one event. */
  lemma TwoHolders(deadline: Time, visibility: Time) returns (ws: seq<World>, ms: seq<Move>)
    requires 0 <= visibility < deadline
    ensures Execution(ws, ms, deadline, visibility) && !SingleHolder(ws[|ms|], deadline)
    ensures Holds(ws[|ms|], 0, 7, deadline) && Holds(ws[|ms|], 1, 7, deadline)
    ensures 7 in ws[|ms|].rows && ws[|ms|].rows[7] == Row(LogPending, 2, ws[|ms|].now)
  {
    ms := [Start(0), Claim(0, {7}), Tick(visibility + 1), Start(1), Claim(1, {7})];
    var w1 := Perform(EMPTY, ms[0], deadline, visibility);
    var w2 := Perform(w1, ms[1], deadline, visibility);
    var w3 := Perform(w2, ms[2], deadline, visibility);
    var w4 := Perform(w3, ms[3], deadline, visibility);
    var w5 := Perform(w4, ms[4], deadline, visibility);
    ws := [EMPTY, w1, w2, w3, w4, w5];
    assert Holds(w5, 0, 7, deadline) && Holds(w5, 1, 7, deadline);
  }

  /** And then the slower one's failure reopens the row the other has marked sent. */
  lemma SentIsReopened(deadline: Time, visibility: Time) returns (ws: seq<World>, ms: seq<Move>, n: nat)
    requires 0 <= visibility < deadline
    ensures Execution(ws, ms, deadline, visibility) && n + 1 < |ws| && !FinalKept(ws[n], ws[n + 1])
  {
    hide Execution;
    var vs, ns := TwoHolders(deadline, visibility);
    ExecutionLength(vs, ns, deadline, visibility);
    n := |ns| + 1;
    var v := vs[|ns|];
    OneMove(vs, ns, Send(0, 7), deadline, visibility);
    var w := Perform(v, Send(0, 7), deadline, visibility);
    ws, ms := vs + [w], ns + [Send(0, 7)];
    assert Holds(w, 1, 7, deadline) && w.rows[7] == Row(LogSent, 2, v.now);
    OneMove(ws, ms, Reject(1, 7), deadline, visibility);
    var x := Perform(w, Reject(1, 7), deadline, visibility);
    assert x.rows[7].status == LogPending;
    ws, ms := ws + [x], ms + [Reject(1, 7)];
  }

  lemma ExecutionLength(ws: seq<World>, ms: seq<Move>, deadline: Time, visibility: Time)
    requires Execution(ws, ms, deadline, visibility)
    ensures |ws| == |ms| + 1
  {
  }

  ghost predicate AlwaysSingleHolder(deadline: Time, visibility: Time) {
    forall ws, ms, n :: Execution(ws, ms, deadline, visibility) && 0 <= n < |ws| ==> SingleHolder(ws[n], deadline)
  }

  ghost predicate AlwaysFinal(deadline: Time, visibility: Time) {
    forall ws, ms, m, n :: Execution(ws, ms, deadline, visibility) && 0 <= m <= n < |ws| ==> FinalKept(ws[m], ws[n])
  }

  /** The protocol is safe exactly when a run cannot outlive the claims it makes: only then
      does every event have a single holder at all times, and only then is what was marked
      sent or failed never overwritten. */
  lemma SafeIffDeadlineFits(deadline: Time, visibility: Time)
    requires visibility >= 0
    ensures AlwaysSingleHolder(deadline, visibility) <==> deadline <= visibility
    ensures AlwaysFinal(deadline, visibility) <==> deadline <= visibility
  {
    hide SingleHolder, FinalKept;
    if deadline <= visibility {
      forall ws, ms, n | Execution(ws, ms, deadline, visibility) && 0 <= n < |ws|
        ensures SingleHolder(ws[n], deadline)
      {
        ExecutionIsSafe(ws, ms, deadline, visibility, n);
      }
      forall ws, ms, m, n | Execution(ws, ms, deadline, visibility) && 0 <= m <= n < |ws|
        ensures FinalKept(ws[m], ws[n])
      {
        FinalForever(ws, ms, deadline, visibility, m, n);
      }
    } else {
      var ws, ms := TwoHolders(deadline, visibility);
      assert Execution(ws, ms, deadline, visibility) && 0 <= |ms| < |ws|;
      var vs, ns, n := SentIsReopened(deadline, visibility);
      assert Execution(vs, ns, deadline, visibility) && 0 <= n <= n + 1 < |vs|;
    }
  }

  /** Ten minutes fit into fifteen. */
  lemma DeployedTimingIsSafe()
    ensures RUN_DEADLINE == 10 * 60 && VISIBILITY_TIMEOUT == 15 * 60
    ensures AlwaysSingleHolder(RUN_DEADLINE, VISIBILITY_TIMEOUT) && AlwaysFinal(RUN_DEADLINE, VISIBILITY_TIMEOUT)
  {
    SafeIffDeadlineFits(RUN_DEADLINE, VISIBILITY_TIMEOUT);
  }
}
