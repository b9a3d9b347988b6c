/**
 One dispatch run over the outbox: page through the claims, resolve each event, record
 the outcome.  What the run learns about a schedule, an occurrence, the mail provider and
 the log is given per event.
 */
module Dispatching {
  import opened Wrappers
  import opened Outbox
  import Ledgers

  const BATCH_SIZE := 200

  /** What dispatching one event finds out; `recorded` says whether its outcome could be
      written down. */
  datatype Letter = Letter(scheduleReadable: bool, hasAddress: bool, preBilling: bool,
                           occurrence: Option<Ledgers.OccurrenceStatus>, renders: bool, accepted: bool,
                           recorded: bool)
  {
    /** There is someone to write to and something to say, and it is still true: a notice
        of a coming charge only while that order is pending. */
    predicate Deliverable() {
      scheduleReadable && hasAddress && renders && (preBilling ==> occurrence == Some(Ledgers.Pending))
    }

    /** The order moved on between the arming and this run. */
    predicate Overtaken() {
      scheduleReadable && hasAddress && preBilling && occurrence.Some? && occurrence.value != Ledgers.Pending
    }
  }

  /** The event is done with: nobody to tell, nothing left to say, or said. */
  predicate Settles(l: Letter) {
    && l.recorded && l.scheduleReadable
    && (|| !l.hasAddress
        || (l.preBilling && l.occurrence.Some? && l.occurrence.value != Ledgers.Pending)
        || (l.renders && (l.preBilling ==> l.occurrence == Some(Ledgers.Pending)) && l.accepted))
  }

  /** Mail was handed over and turned down. */
  predicate TurnedDown(l: Letter) {
    && l.recorded && l.scheduleReadable && l.hasAddress && l.renders
    && (l.preBilling ==> l.occurrence == Some(Ledgers.Pending)) && !l.accepted
  }

  datatype Outcome = Sent | Skipped | Superseded | SendFailed | Infrastructure

  function OutcomeOf(l: Letter): Outcome {
    if !l.scheduleReadable || !l.recorded then Infrastructure
    else if !l.hasAddress then Skipped
    else if l.Overtaken() then Superseded
    else if !l.Deliverable() then Infrastructure
    else if l.accepted then Sent
    else SendFailed
  }

  /** How a claimed row stands after its event was dispatched. */
  function StatusAfter(l: Letter, attempts: nat): Status {
    match OutcomeOf(l)
    case Infrastructure => LogPending
    case SendFailed => if attempts >= MAX_ATTEMPTS then LogFailed else LogPending
    case _ => LogSent
  }

  datatype Tally = Tally(claimed: nat, sent: nat, skipped: nat, superseded: nat, sendFailed: nat, infrastructure: nat) {
    function Add(o: Outcome): Tally {
      match o
      case Sent => this.(sent := sent + 1)
      case Skipped => this.(skipped := skipped + 1)
      case Superseded => this.(superseded := superseded + 1)
      case SendFailed => this.(sendFailed := sendFailed + 1)
      case Infrastructure => this.(infrastructure := infrastructure + 1)
    }

    /** Each counter is the number of outcomes of its kind. */
    ghost predicate Tallies(os: seq<Outcome>) {
      && sent == multiset(os)[Sent] && skipped == multiset(os)[Skipped]
      && superseded == multiset(os)[Superseded] && sendFailed == multiset(os)[SendFailed]
      && infrastructure == multiset(os)[Infrastructure]
    }
  }

  const ZERO := Tally(0, 0, 0, 0, 0, 0)

  lemma AddTallies(t: Tally, os: seq<Outcome>, o: Outcome)
    requires t.Tallies(os)
    ensures t.Add(o).Tallies(os + [o]) && t.Add(o).claimed == t.claimed
  {
  }

  lemma ClaimTallies(t: Tally, n: nat, os: seq<Outcome>)
    requires t.Tallies(os)
    ensures t.(claimed := n).Tallies(os)
  {
  }

  lemma {:induction false} EveryOutcomeIsOneKind(os: seq<Outcome>)
    ensures var m := multiset(os);
            m[Sent] + m[Skipped] + m[Superseded] + m[SendFailed] + m[Infrastructure] == |os|
  {
    if |os| > 0 {
      EveryOutcomeIsOneKind(os[..|os| - 1]);
      assert os == os[..|os| - 1] + [os[|os| - 1]];
      assert multiset(os) == multiset(os[..|os| - 1]) + multiset{os[|os| - 1]};
      match os[|os| - 1] case Sent => case Skipped => case Superseded => case SendFailed => case Infrastructure =>
    }
  }

  /** Nothing claimed goes unaccounted for. */
  lemma TallyConserves(t: Tally, os: seq<Outcome>)
    requires t.Tallies(os)
    ensures t.sent + t.skipped + t.superseded + t.sendFailed + t.infrastructure == |os|
  {
    EveryOutcomeIsOneKind(os);
  }

  function Outcomes(letters: map<EventId, Letter>, page: seq<EventId>): (os: seq<Outcome>)
    ensures |os| == |page|
  {
    seq(|page|, k requires 0 <= k < |page| =>
      if page[k] in letters then OutcomeOf(letters[page[k]]) else Infrastructure)
  }

  /** The deliverable ones among `page`, in order. */
  function Deliverables(letters: map<EventId, Letter>, page: seq<EventId>): (sent: seq<EventId>)
    ensures forall e :: e in sent <==> e in page && e in letters && letters[e].Deliverable()
  {
    if |page| == 0 then []
    else
      var e := page[|page| - 1];
      Deliverables(letters, page[..|page| - 1]) + (if e in letters && letters[e].Deliverable() then [e] else [])
  }

  lemma {:induction false} DeliverablesAppend(letters: map<EventId, Letter>, a: seq<EventId>, b: seq<EventId>)
    ensures Deliverables(letters, a + b) == Deliverables(letters, a) + Deliverables(letters, b)
  {
    hide Letter.Deliverable;
    if |b| == 0 {
      assert a + b == a;
    } else {
      assert (a + b)[..|a + b| - 1] == a + b[..|b| - 1];
      DeliverablesAppend(letters, a, b[..|b| - 1]);
    }
  }

  ghost predicate Ascending(s: seq<EventId>) {
    forall i, j :: 0 <= i < j < |s| ==> s[i] < s[j]
  }

  function AsSet(s: seq<EventId>): set<EventId> {
    set e | e in s
  }

  lemma {:induction false} AscendingSetSize(s: seq<EventId>)
    requires Ascending(s)
    ensures |AsSet(s)| == |s|
  {
    if |s| > 0 {
      var most := s[..|s| - 1];
      AscendingSetSize(most);
      assert AsSet(s) == AsSet(most) + {s[|s| - 1]};
    }
  }

  function Attempts(rows: Rows, e: EventId): nat {
    if e in rows then rows[e].attempts else 0
  }

  /** A claimed event stays claimed, by this run, since `start`. */
  ghost predicate InHand(rows: Rows, e: EventId, start: Time) {
    e in rows && rows[e].lastAttempt >= start
  }

  /** What a run has done so far: each event it took on had one more attempt, stands as its
      outcome says, and is still the run's own; every other row is as the run found it. */
  ghost predicate Progress(letters: map<EventId, Letter>, before: Rows, rows: Rows, taken: seq<EventId>, start: Time) {
    && (forall e :: e in taken ==> e in letters && InHand(rows, e, start)
                                   && rows[e].status == StatusAfter(letters[e], rows[e].attempts))
    && (forall e :: Attempts(rows, e) == Attempts(before, e) + (if e in taken then 1 else 0))
    && (forall e :: e !in taken ==> (e in rows <==> e in before) && (e in rows ==> rows[e] == before[e]))
  }

  /** Dispatching `page` resolves its rows, and touches neither their attempts and claim
      times nor any other row. */
  ghost predicate Marked(letters: map<EventId, Letter>, claimed: Rows, rows: Rows, page: seq<EventId>) {
    && rows.Keys == claimed.Keys
    && (forall e :: e in rows ==>
          rows[e].attempts == claimed[e].attempts && rows[e].lastAttempt == claimed[e].lastAttempt)
    && (forall e :: e in page && e in rows && e in letters ==>
          rows[e].status == StatusAfter(letters[e], rows[e].attempts))
    && (forall e :: e in rows && e !in page ==> rows[e] == claimed[e])
  }

  ghost predicate Drained(arrived: set<EventId>, rows: Rows, now: Time) {
    forall e :: e in arrived ==> !Claimable(rows, e, now, VISIBILITY_TIMEOUT)
  }

  class Dispatcher {
    const events: seq<EventId>          // every notifiable event there will be, in id order
    var arrived: set<EventId>           // those on record so far
    const letters: map<EventId, Letter>
    var rows: Rows
    var posted: seq<EventId>            // what was handed to the mail provider
    var now: Time
    const reliable: bool                // every claim is granted

    constructor (events: seq<EventId>, arrived: set<EventId>, letters: map<EventId, Letter>, rows: Rows, now: Time,
                 reliable: bool)
      ensures this.events == events && this.letters == letters && this.rows == rows && this.now == now && posted == []
      ensures this.arrived == arrived && this.reliable == reliable
    {
      this.events, this.letters, this.rows, this.now, this.posted := events, letters, rows, now, [];
      this.arrived, this.reliable := arrived, reliable;
    }

    ghost predicate Ready()
      reads this
    {
      Ascending(events) && arrived <= AsSet(events) && forall e :: e in events ==> e in letters
    }

    /** Claims the `limit` oldest claimable events, or fails and claims none. */
    method ClaimNotifiableEvents(limit: nat) returns (batch: Option<seq<EventId>>)
      requires Ready()
      modifies this`rows
      ensures batch.None? ==> rows == old(rows) && !reliable
      ensures batch.Some? ==>
                && Ascending(batch.value) && |batch.value| <= limit
                && (forall e :: e in batch.value ==> e in arrived && Claimable(old(rows), e, now, VISIBILITY_TIMEOUT))
                && (forall e, f :: (e in batch.value && f in arrived && f < e
                                    && Claimable(old(rows), f, now, VISIBILITY_TIMEOUT)) ==> f in batch.value)
                && (|batch.value| < limit ==>
                      forall f :: f in arrived && Claimable(old(rows), f, now, VISIBILITY_TIMEOUT) ==> f in batch.value)
                && rows == Claimed(old(rows), AsSet(batch.value), now)
    {
      var fault := *;
      if fault && !reliable {
        return None;
      }
      var page := [];
      var i := 0;
      while i < |events| && |page| < limit
        invariant i <= |events| && |page| <= limit && Ascending(page)
        invariant forall e :: e in page
                              <==> e in events[..i] && e in arrived && Claimable(rows, e, now, VISIBILITY_TIMEOUT)
      {
        assert events[..i + 1] == events[..i] + [events[i]];
        if events[i] in arrived && Claimable(rows, events[i], now, VISIBILITY_TIMEOUT) {
          assert forall j :: 0 <= j < |page| ==> page[j] in page;
          page := page + [events[i]];
        }
        i := i + 1;
      }
      assert |page| < limit ==> events[..i] == events;
      forall e, f | e in page && f in arrived && f < e && Claimable(rows, f, now, VISIBILITY_TIMEOUT)
        ensures f in page
      {
        var a :| 0 <= a < i && events[a] == e;
        assert f in AsSet(events);
        var b :| 0 <= b < |events| && events[b] == f;
        assert b < a && events[..i][b] == f;
      }
      rows := Claimed(rows, AsSet(page), now);
      batch := Some(page);
    }

    method MarkNotificationSent(e: EventId) returns (ok: bool)
      requires e in letters
      modifies this`rows
      ensures ok <==> letters[e].recorded && e in old(rows)
      ensures rows == if ok then MarkedSent(old(rows), e) else old(rows)
    {
      ok := letters[e].recorded && e in rows;
      if ok {
        rows := MarkedSent(rows, e);
      }
    }

    method MarkNotificationFailed(e: EventId) returns (ok: bool)
      requires e in letters
      modifies this`rows
      ensures ok <==> letters[e].recorded && e in old(rows)
      ensures rows == if ok then MarkedFailed(old(rows), e) else old(rows)
    {
      ok := letters[e].recorded && e in rows;
      if ok {
        rows := MarkedFailed(rows, e);
      }
    }

    /** Resolves one claimed event.  Mail goes out at most once, and exactly when it is
        deliverable; the row ends up as the outcome says. */
    method DispatchOne(e: EventId) returns (o: Outcome)
      requires e in letters && e in rows && rows[e].status == LogPending
      modifies this`rows, this`posted
      ensures o == OutcomeOf(letters[e])
      ensures var l := letters[e];
              && (o == Skipped <==> l.scheduleReadable && !l.hasAddress && l.recorded)
              && (o == Superseded <==> l.scheduleReadable && l.hasAddress && l.preBilling && l.occurrence.Some?
                                       && l.occurrence.value != Ledgers.Pending && l.recorded)
              && (o == SendFailed <==> TurnedDown(l))
              && (o == Sent <==> Settles(l) && o != Skipped && o != Superseded)
      ensures var l := letters[e];
              posted == old(posted) + (if l.scheduleReadable && l.hasAddress && l.renders
                                          && (l.preBilling ==> l.occurrence == Some(Ledgers.Pending)) then [e] else [])
      ensures rows.Keys == old(rows).Keys
      ensures rows[e].attempts == old(rows)[e].attempts && rows[e].lastAttempt == old(rows)[e].lastAttempt
      ensures rows[e].status == LogSent <==> Settles(letters[e])
      ensures rows[e].status == LogFailed <==> TurnedDown(letters[e]) && rows[e].attempts >= 5
      ensures rows == old(rows)[e := old(rows)[e].(status := StatusAfter(letters[e], old(rows)[e].attempts))]
    {
      var l := letters[e];
      if !l.scheduleReadable {
        return Infrastructure;
      }
      if !l.hasAddress {
        var ok := MarkNotificationSent(e);
        return if ok then Skipped else Infrastructure;
      }
      if l.preBilling {
        if l.occurrence.None? {
          return Infrastructure;
        }
        if l.occurrence.value != Ledgers.Pending {
          var ok := MarkNotificationSent(e);
          return if ok then Superseded else Infrastructure;
        }
      }
      if !l.renders {
        return Infrastructure;
      }
      posted := posted + [e];
      if !l.accepted {
        var ok := MarkNotificationFailed(e);
        return if ok then SendFailed else Infrastructure;
      }
      var ok := MarkNotificationSent(e);
      o := if ok then Sent else Infrastructure;
    }

    /** Resolves one page. */
    method DispatchPage(page: seq<EventId>, tally: Tally, ghost soFar: seq<Outcome>) returns (res: Tally)
      requires Ready() && tally.Tallies(soFar) && Ascending(page)
      requires forall e :: e in page ==> e in letters && e in rows && rows[e].status == LogPending
      modifies this`rows, this`posted
      ensures res.claimed == tally.claimed && res.Tallies(soFar + Outcomes(letters, page))
      ensures posted == old(posted) + Deliverables(letters, page)
      ensures Marked(letters, old(rows), rows, page)
    {
      hide Tally.Tallies, Tally.Add, StatusAfter, OutcomeOf, Letter.Deliverable, Letter.Overtaken;
      hide Marked, Outcomes, Deliverables;
      res := tally;
      ghost var before := rows;
      NothingTaken(letters, rows, now);
      assert soFar + Outcomes(letters, page[..0]) == soFar && page[..0] == [];
      for i := 0 to |page|
        invariant res.claimed == tally.claimed && res.Tallies(soFar + Outcomes(letters, page[..i]))
        invariant posted == old(posted) + Deliverables(letters, page[..i])
        invariant Marked(letters, before, rows, page[..i])
      {
        var e := page[i];
        assert e in page && e !in page[..i];
        assert page[..i + 1] == page[..i] + [e];
        ghost var os, mid := soFar + Outcomes(letters, page[..i]), rows;
        OneMorePage(letters, before, mid, page[..i], e);
        DeliverableMeans(letters[e]);
        var o := DispatchOne(e);
        AddTallies(res, os, o);
        assert soFar + Outcomes(letters, page[..i + 1]) == os + [o];
        res := res.Add(o);
      }
      assert page[..|page|] == page;
    }

    lemma DeliverableMeans(l: Letter)
      ensures l.Deliverable() <==> l.scheduleReadable && l.hasAddress && l.renders
                                   && (l.preBilling ==> l.occurrence == Some(Ledgers.Pending))
    {
    }

    /** One event further down the page. */
    lemma OneMorePage(letters: map<EventId, Letter>, before: Rows, mid: Rows, done: seq<EventId>, e: EventId)
      requires Marked(letters, before, mid, done) && e in before && e !in done && e in letters
      ensures e in mid && mid[e] == before[e]
      ensures Marked(letters, before, mid[e := mid[e].(status := StatusAfter(letters[e], mid[e].attempts))], done + [e])
      ensures Outcomes(letters, done + [e]) == Outcomes(letters, done) + [OutcomeOf(letters[e])]
      ensures Deliverables(letters, done + [e])
              == Deliverables(letters, done) + (if letters[e].Deliverable() then [e] else [])
    {
      hide StatusAfter, OutcomeOf, Letter.Deliverable;
      assert (done + [e])[..|done|] == done;
    }

    /** Where a run stands that started with `before` in the log and `sent` already posted:
        nothing was taken on twice, everything taken on is accounted for, and exactly the
        deliverable ones were mailed, in order. */
    ghost predicate UpTo(res: Tally, taken: seq<EventId>, before: Rows, sent: seq<EventId>, start: Time)
      reads this
    {
      && AsSet(taken) <= arrived && |AsSet(taken)| == |taken| == res.claimed
      && res.Tallies(Outcomes(letters, taken))
      && posted == sent + Deliverables(letters, taken)
      && Progress(letters, before, rows, taken, start)
    }

    /** Claims one page and resolves it.  Returns its size, if the claim was granted. */
    method RunPage(tally: Tally, ghost taken: seq<EventId>, ghost before: Rows, ghost sent: seq<EventId>, start: Time)
      returns (res: Tally, ghost page: seq<EventId>, size: Option<nat>)
      requires Ready() && UpTo(tally, taken, before, sent, start) && start <= now <= start + RUN_DEADLINE
      modifies this`rows, this`posted
      ensures UpTo(res, taken + page, before, sent, start)
      ensures size.None? ==> page == [] && !reliable
      ensures |page| <= 200
      ensures size.Some? ==> size.value == |page| && (|page| < BATCH_SIZE ==> Drained(arrived, rows, now))
    {
      hide Tally.Tallies, Tally.Add, Claimable, Claimed, Progress, Marked, Drained, InHand, Attempts, Deliverables;
      hide Outcomes, OutcomeOf, StatusAfter, AsSet;
      res, page, size := tally, [], None;
      assert taken + page == taken;
      ghost var was := rows;
      var batch := ClaimNotifiableEvents(BATCH_SIZE);
      if batch.None? {
        return;
      }
      page, size := batch.value, Some(|batch.value|);
      ClaimedIsPending(was, page, now);
      ClaimTallies(res, res.claimed + |page|, Outcomes(letters, taken));
      DeliverablesAppend(letters, taken, page);
      OutcomesAppend(letters, taken, page);
      HandsOf(letters, before, was, taken, start);
      PageIsNew(arrived, was, taken, page, start, now);
      ArrivedHaveLetters();
      res := DispatchPage(batch.value, res.(claimed := res.claimed + |batch.value|), Outcomes(letters, taken));
      PageProgress(letters, before, was, rows, taken, page, start, now);
      assert posted == sent + Deliverables(letters, taken + page);
      HandsOf(letters, before, rows, taken + page, start);
      if |page| < BATCH_SIZE {
        ShortPageDrains(letters, arrived, was, rows, taken + page, page, start, now);
      }
    }

    /** One run, from its start to its deadline; more events may arrive before each page.
        Returns the tally, the events it took on in order, whether every claim was granted,
        and whether it reports an error. */
    method RunAll() returns (res: Tally, ghost taken: seq<EventId>, drained: bool, failed: bool)
      requires Ready()
      modifies this
      ensures Ready() && old(arrived) <= arrived && old(now) <= now <= old(now) + RUN_DEADLINE
      ensures UpTo(res, taken, old(rows), old(posted), old(now))
      ensures res.sent + res.skipped + res.superseded + res.sendFailed + res.infrastructure == res.claimed
      // With every claim granted nothing on record is left for the next run to pick up now.
      ensures drained ==> Drained(arrived, rows, now)
      ensures reliable ==> drained
      ensures failed <==> !drained || res.sendFailed > 0 || res.infrastructure > 0
      // What is done with is done with: no run ever claims it again.
      ensures forall e :: e in taken ==>
                && e in rows && e in letters
                && (rows[e].status == LogSent <==> Settles(letters[e]))
                && (rows[e].status == LogFailed <==> TurnedDown(letters[e]) && rows[e].attempts >= 5)
      ensures forall e, t :: e in taken && rows[e].status != LogPending ==> !Claimable(rows, e, t, VISIBILITY_TIMEOUT)
    {
      hide Tally.Tallies, Progress, Drained, Deliverables, Outcomes;
      var start := now;
      ghost var before, sent := rows, posted;
      res, taken, drained := ZERO, [], false;
      NothingTaken(letters, rows, start);
      while true
        invariant Ready() && old(arrived) <= arrived && start <= now <= start + RUN_DEADLINE
        invariant UpTo(res, taken, before, sent, start)
        decreases |events| - |taken|
      {
        var later: Time :| now <= later <= start + RUN_DEADLINE;
        var more: set<EventId> :| arrived <= more <= AsSet(events);
        now, arrived := later, more;
        ghost var page;
        var size;
        res, page, size := RunPage(res, taken, before, sent, start);
        taken := taken + page;
        TakenFits(taken, events);
        if size.None? || size.value < BATCH_SIZE {
          drained := size.Some?;
          break;
        }
      }
      TallyConserves(res, Outcomes(letters, taken));
      TakenStand(letters, before, rows, taken, start);
      failed := !drained || res.sendFailed > 0 || res.infrastructure > 0;
    }

    lemma TakenStand(letters: map<EventId, Letter>, before: Rows, rows: Rows, taken: seq<EventId>, start: Time)
      requires Progress(letters, before, rows, taken, start)
      ensures forall e :: e in taken ==>
                && e in rows && e in letters
                && (rows[e].status == LogSent <==> Settles(letters[e]))
                && (rows[e].status == LogFailed <==> TurnedDown(letters[e]) && rows[e].attempts >= 5)
    {
      hide StatusAfter, Settles, TurnedDown;
      forall e | e in taken
        ensures e in rows && e in letters
        ensures rows[e].status == LogSent <==> Settles(letters[e])
        ensures rows[e].status == LogFailed <==> TurnedDown(letters[e]) && rows[e].attempts >= 5
      {
        assert InHand(rows, e, start);
        StatusSays(letters[e], rows[e].attempts);
      }
    }

    lemma StatusSays(l: Letter, attempts: nat)
      ensures StatusAfter(l, attempts) == LogSent <==> Settles(l)
      ensures StatusAfter(l, attempts) == LogFailed <==> TurnedDown(l) && attempts >= 5
    {
    }

    lemma ArrivedHaveLetters()
      requires Ready()
      ensures forall e :: e in arrived ==> e in letters
    {
      forall e | e in arrived ensures e in letters {
        assert e in AsSet(events);
      }
    }

    lemma NothingTaken(letters: map<EventId, Letter>, rows: Rows, start: Time)
      ensures Progress(letters, rows, rows, [], start) && ZERO.Tallies(Outcomes(letters, []))
      ensures Deliverables(letters, []) == [] && Marked(letters, rows, rows, [])
    {
    }

    lemma OutcomesAppend(letters: map<EventId, Letter>, a: seq<EventId>, b: seq<EventId>)
      ensures Outcomes(letters, a + b) == Outcomes(letters, a) + Outcomes(letters, b)
    {
    }

    /** A claim only ever opens pending rows. */
    lemma ClaimedIsPending(was: Rows, page: seq<EventId>, now: Time)
      requires forall e :: e in page ==> Claimable(was, e, now, VISIBILITY_TIMEOUT)
      ensures forall e :: e in page ==>
                e in Claimed(was, AsSet(page), now) && Claimed(was, AsSet(page), now)[e].status == LogPending
    {
    }

    lemma HandsOf(letters: map<EventId, Letter>, before: Rows, rows: Rows, taken: seq<EventId>, start: Time)
      requires Progress(letters, before, rows, taken, start)
      ensures forall e :: e in taken ==> InHand(rows, e, start)
    {
    }

    /** A page is new to the run. */
    lemma PageIsNew(arrived: set<EventId>, was: Rows, taken: seq<EventId>, page: seq<EventId>, start: Time, now: Time)
      requires AsSet(taken) <= arrived && (forall e :: e in page ==> e in arrived)
      requires Ascending(page) && start <= now <= start + RUN_DEADLINE && |AsSet(taken)| == |taken|
      requires forall e :: e in taken ==> InHand(was, e, start)
      requires forall e :: e in page ==> Claimable(was, e, now, VISIBILITY_TIMEOUT)
      ensures AsSet(taken) !! AsSet(page) && AsSet(taken + page) == AsSet(taken) + AsSet(page)
      ensures |AsSet(taken + page)| == |taken + page| && AsSet(taken + page) <= arrived
    {
      AscendingSetSize(page);
      forall e | e in taken ensures e !in page {
        assert InHand(was, e, start);
      }
      assert AsSet(taken + page) == AsSet(taken) + AsSet(page);
    }

    /** Once claimed and resolved, the run has got that page further. */
    lemma PageProgress(letters: map<EventId, Letter>, before: Rows, was: Rows, rows: Rows, taken: seq<EventId>,
                       page: seq<EventId>, start: Time, now: Time)
      requires start <= now && Progress(letters, before, was, taken, start) && AsSet(taken) !! AsSet(page)
      requires forall e :: e in page ==> e in letters
      requires Marked(letters, Claimed(was, AsSet(page), now), rows, page)
      ensures Progress(letters, before, rows, taken + page, start)
    {
      hide StatusAfter;
      var mid := Claimed(was, AsSet(page), now);
      assert forall e :: e !in page ==> (e in mid <==> e in was) && (e in mid ==> mid[e] == was[e]);
      assert forall e :: e in taken ==> e in AsSet(taken) && e !in AsSet(page);
      assert forall e :: e in taken ==> e !in page;
      assert forall e :: e in taken + page <==> e in taken || e in page;
      forall e
        ensures Attempts(rows, e) == Attempts(before, e) + (if e in taken + page then 1 else 0)
      {
        assert Attempts(rows, e) == Attempts(mid, e) == Attempts(was, e) + (if e in page then 1 else 0);
      }
    }

    lemma TakenFits(taken: seq<EventId>, events: seq<EventId>)
      requires Ascending(events) && AsSet(taken) <= AsSet(events) && |AsSet(taken)| == |taken|
      ensures |taken| <= |events|
    {
      AscendingSetSize(events);
      var rest := AsSet(events) - AsSet(taken);
      assert AsSet(taken) + rest == AsSet(events) && AsSet(taken) !! rest;
    }

    lemma ShortPageDrains(letters: map<EventId, Letter>, arrived: set<EventId>, was: Rows, rows: Rows,
                          taken: seq<EventId>, page: seq<EventId>, start: Time, now: Time)
      requires start <= now <= start + RUN_DEADLINE && forall e :: e in page ==> e in taken
      requires forall e :: e in taken ==> InHand(rows, e, start)
      requires Marked(letters, Claimed(was, AsSet(page), now), rows, page)
      requires forall f :: f in arrived && Claimable(was, f, now, VISIBILITY_TIMEOUT) ==> f in page
      ensures Drained(arrived, rows, now)
    {
      forall e | e in arrived ensures !Claimable(rows, e, now, VISIBILITY_TIMEOUT) {
        if e in page {
          assert e in taken;
        }
      }
    }
  }
}
