/**
 Concurrent transactions.  Any number of processes -- customers, the materializer, the
 sweeps -- ask for transactions whenever they like, on whatever stale grounds.  Each
 waits for the row lock, reads the committed row, computes on a private copy, and then
 commits or rolls back; it may also die at any point while it holds the lock.  Checkouts
 open new schedules meanwhile.
 */
module Concurrency {
  import opened Wrappers
  import opened Cadence
  import opened Ledgers
  import opened Lifecycle
  import opened Invariants
  import opened Audits
  import opened Stores

  datatype Txn = Txn(id: string, call: Call)

  datatype Process =
    | Idle
    | Waiting(txn: Txn)
    | Locked(txn: Txn, pos: nat, seen: Ledger)
    | Staged(txn: Txn, pos: nat, result: Result<Ledger, Error>)

  /** One lock acquisition, in lock order -- `committed` once its transaction has -- or one
      committed checkout. */
  datatype Entry =
    | Took(txn: Txn, committed: bool)
    | Opened(id: string, origin: string, interval: int, anchor: Day)

  datatype World = World(db: Tables, locks: map<string, nat>, procs: map<nat, Process>, history: seq<Entry>)

  predicate Busy(p: Process) { p.Locked? || p.Staged? }

  datatype Move =
    | Checkout(id: string, origin: string, interval: int, anchor: Day)
    | Request(p: nat, txn: Txn)
    | Miss(p: nat)
    | Acquire(p: nat)
    | Compute(p: nat)
    | Commit(p: nat)
    | Abort(p: nat)

  predicate Enabled(w: World, a: Move) {
    match a
    case Checkout(id, origin, interval, _) => id !in w.db && !OriginTaken(w.db, origin) && ValidInterval(interval)
    case Request(p, _) => p in w.procs && w.procs[p].Idle?
    case Miss(p) => p in w.procs && w.procs[p].Waiting? && w.procs[p].txn.id !in w.db
    case Acquire(p) =>
      p in w.procs && w.procs[p].Waiting? && w.procs[p].txn.id in w.db && w.procs[p].txn.id !in w.locks
    case Compute(p) => p in w.procs && w.procs[p].Locked?
    case Commit(p) => p in w.procs && w.procs[p].Staged? && w.procs[p].result.Ok?
    case Abort(p) => p in w.procs && Busy(w.procs[p])
  }

  function Perform(w: World, a: Move, horizon: int): World
    requires Enabled(w, a)
  {
    match a
    case Checkout(id, origin, interval, anchor) =>
      w.(db := w.db[id := Created(id, origin, interval, anchor)],
         history := w.history + [Opened(id, origin, interval, anchor)])
    case Request(p, txn) => w.(procs := w.procs[p := Waiting(txn)])
    case Miss(p) => w.(procs := w.procs[p := Idle])
    case Acquire(p) =>
      var q := w.procs[p];
      w.(locks := w.locks[q.txn.id := p],
         procs := w.procs[p := Locked(q.txn, |w.history|, w.db[q.txn.id])],
         history := w.history + [Took(q.txn, false)])
    case Compute(p) =>
      var q := w.procs[p];
      w.(procs := w.procs[p := Staged(q.txn, q.pos, Apply(q.seen, q.txn.call, horizon))])
    case Commit(p) =>
      var q := w.procs[p];
      World(w.db[q.txn.id := q.result.value], w.locks - {q.txn.id}, w.procs[p := Idle],
            if q.pos < |w.history| then w.history[q.pos := Took(q.txn, true)] else w.history)
    case Abort(p) => w.(locks := w.locks - {w.procs[p].txn.id}, procs := w.procs[p := Idle])
  }

  // ----- the serial meaning of a history -----

  function IdOf(e: Entry): string {
    match e
    case Took(txn, _) => txn.id
    case Opened(id, _, _, _) => id
  }

  function Exec(db: Tables, e: Entry, horizon: int): Tables {
    match e
    case Took(txn, committed) =>
      if committed && txn.id in db then db[txn.id := Step(db[txn.id], txn.call, horizon)] else db
    case Opened(id, origin, interval, anchor) =>
      if id in db then db else db[id := Created(id, origin, interval, anchor)]
  }

  /** The checkouts and the committed transactions, one after the other, in lock order. */
  function Serial(init: Tables, history: seq<Entry>, horizon: int): (db: Tables)
    ensures init.Keys <= db.Keys
  {
    if |history| == 0 then init
    else Exec(Serial(init, history[..|history| - 1], horizon), history[|history| - 1], horizon)
  }

  /** Every committed transaction was accepted by the state it follows in that order. */
  ghost predicate WinnersAccepted(init: Tables, history: seq<Entry>, horizon: int) {
    forall k :: 0 <= k < |history| && history[k].Took? && history[k].committed ==>
      history[k].txn.id in Serial(init, history[..k], horizon)
      && Apply(Serial(init, history[..k], horizon)[history[k].txn.id], history[k].txn.call, horizon).Ok?
  }

  // ----- invariant -----

  ghost predicate HolderOk(w: World, p: nat, horizon: int)
    requires p in w.procs && Busy(w.procs[p])
  {
    var q := w.procs[p];
    && q.txn.id in w.locks && w.locks[q.txn.id] == p && q.txn.id in w.db
    && q.pos < |w.history| && w.history[q.pos] == Took(q.txn, false)
    && (forall j :: q.pos < j < |w.history| ==> IdOf(w.history[j]) != q.txn.id)
    && (q.Locked? ==> q.seen == w.db[q.txn.id])
    && (q.Staged? ==> q.result == Apply(w.db[q.txn.id], q.txn.call, horizon))
  }

  ghost predicate Coherent(w: World, init: Tables, horizon: int) {
    && w.db == Serial(init, w.history, horizon)
    && WinnersAccepted(init, w.history, horizon)
    && OpenedGood(w.history)
    && (forall p :: p in w.procs && Busy(w.procs[p]) ==> HolderOk(w, p, horizon))
  }

  predicate OpenedGood(history: seq<Entry>) {
    forall j :: 0 <= j < |history| && history[j].Opened? ==> ValidInterval(history[j].interval)
  }

  predicate Initial(w: World, init: Tables) {
    w.db == init && w.locks == map[] && w.history == [] && forall p :: p in w.procs ==> w.procs[p] == Idle
  }

  /** A pending entry whose schedule nothing later touches. */
  ghost predicate LastOnItsSchedule(history: seq<Entry>, pos: nat) {
    && pos < |history| && history[pos].Took? && !history[pos].committed
    && forall j :: pos < j < |history| ==> IdOf(history[j]) != history[pos].txn.id
  }

  function Flipped(history: seq<Entry>, pos: nat): seq<Entry>
    requires pos < |history| && history[pos].Took?
  {
    history[pos := Took(history[pos].txn, true)]
  }

  lemma ExecElsewhere(db: Tables, e: Entry, id: string, horizon: int)
    requires IdOf(e) != id
    ensures id in Exec(db, e, horizon) <==> id in db
    ensures id in db ==> Exec(db, e, horizon)[id] == db[id]
  {
    hide Step, Created;
  }

  lemma ExecBeside(db: Tables, e: Entry, id: string, l: Ledger, horizon: int)
    requires IdOf(e) != id
    ensures Exec(db[id := l], e, horizon) == Exec(db, e, horizon)[id := l]
  {
    hide Step, Created;
  }

  /** Committing an entry nothing later on the same schedule follows changes that schedule's
      outcome alone, and it acted on what everything before it had left. */
  lemma {:induction false} FlipEntry(init: Tables, history: seq<Entry>, pos: nat, horizon: int)
    requires LastOnItsSchedule(history, pos) && history[pos].txn.id in Serial(init, history, horizon)
    ensures var id := history[pos].txn.id;
            var before, start := Serial(init, history, horizon), Serial(init, history[..pos], horizon);
            && Serial(init, Flipped(history, pos), horizon)
               == before[id := Step(before[id], history[pos].txn.call, horizon)]
            && id in start && before[id] == start[id]
  {
    hide Step, Created;
    var n := |history| - 1;
    var flipped := Flipped(history, pos);
    if pos == n {
      assert flipped[..n] == history[..n];
    } else {
      hide Exec;
      assert flipped[..n] == Flipped(history[..n], pos);
      assert history[..n][..pos] == history[..pos];
      var id, s := history[pos].txn.id, Serial(init, history[..n], horizon);
      assert IdOf(history[n]) != id && LastOnItsSchedule(history[..n], pos);
      ExecElsewhere(s, history[n], id, horizon);
      FlipEntry(init, history[..n], pos, horizon);
      ExecBeside(s, history[n], id, Step(s[id], history[pos].txn.call, horizon), horizon);
    }
  }

  lemma FlipKeepsWinners(init: Tables, history: seq<Entry>, pos: nat, horizon: int)
    requires LastOnItsSchedule(history, pos) && history[pos].txn.id in Serial(init, history, horizon)
    requires WinnersAccepted(init, history, horizon)
    requires Apply(Serial(init, history, horizon)[history[pos].txn.id], history[pos].txn.call, horizon).Ok?
    ensures WinnersAccepted(init, Flipped(history, pos), horizon)
  {
    hide Apply, Step, Serial;
    var flipped := Flipped(history, pos);
    FlipEntry(init, history, pos, horizon);
    forall k | 0 <= k < |flipped| && flipped[k].Took? && flipped[k].committed
      ensures flipped[k].txn.id in Serial(init, flipped[..k], horizon)
              && Apply(Serial(init, flipped[..k], horizon)[flipped[k].txn.id], flipped[k].txn.call, horizon).Ok?
    {
      if k <= pos {
        assert flipped[..k] == history[..k];
      } else {
        assert flipped[..k] == Flipped(history[..k], pos);
        assert IdOf(history[k]) != history[pos].txn.id;
        StillThere(init, history, pos, k, horizon);
        FlipEntry(init, history[..k], pos, horizon);
      }
    }
  }

  lemma {:induction false} StillThere(init: Tables, history: seq<Entry>, pos: nat, k: nat, horizon: int)
    requires LastOnItsSchedule(history, pos) && pos < k <= |history|
    requires history[pos].txn.id in Serial(init, history, horizon)
    ensures LastOnItsSchedule(history[..k], pos) && history[pos].txn.id in Serial(init, history[..k], horizon)
    decreases |history|
  {
    hide Step, Created;
    var n := |history| - 1;
    if k == |history| {
      assert history[..k] == history;
    } else {
      assert history[..n][..k] == history[..k];
      assert IdOf(history[n]) != history[pos].txn.id;
      assert LastOnItsSchedule(history[..n], pos);
      StillThere(init, history[..n], pos, k, horizon);
    }
  }

  /** A new entry at the end leaves what came before as it was. */
  lemma AppendKeepsWinners(init: Tables, history: seq<Entry>, e: Entry, horizon: int)
    requires WinnersAccepted(init, history, horizon) && (e.Took? ==> !e.committed)
    ensures WinnersAccepted(init, history + [e], horizon)
    ensures Serial(init, history + [e], horizon) == Exec(Serial(init, history, horizon), e, horizon)
  {
    hide Apply, Step, Exec;
    var h := history + [e];
    assert h[..|history|] == history;
    forall k | 0 <= k < |h| && h[k].Took? && h[k].committed ensures h[k] == history[k] && h[..k] == history[..k] {
    }
  }

  lemma CheckoutKeeps(w: World, a: Move, init: Tables, horizon: int)
    requires Coherent(w, init, horizon) && a.Checkout? && Enabled(w, a)
    ensures Coherent(Perform(w, a, horizon), init, horizon)
  {
    hide Apply, Step, Created, Serial, WinnersAccepted;
    var v := Perform(w, a, horizon);
    AppendKeepsWinners(init, w.history, Opened(a.id, a.origin, a.interval, a.anchor), horizon);
    forall o | o in v.procs && Busy(v.procs[o]) ensures HolderOk(v, o, horizon) {
      assert HolderOk(w, o, horizon);
    }
  }

  lemma AcquireKeeps(w: World, p: nat, init: Tables, horizon: int)
    requires Coherent(w, init, horizon) && Enabled(w, Acquire(p))
    ensures Coherent(Perform(w, Acquire(p), horizon), init, horizon)
  {
    hide Apply, Step, Serial, WinnersAccepted;
    var v := Perform(w, Acquire(p), horizon);
    AppendKeepsWinners(init, w.history, Took(w.procs[p].txn, false), horizon);
    forall o | o in v.procs && Busy(v.procs[o]) ensures HolderOk(v, o, horizon) {
      if o != p {
        assert HolderOk(w, o, horizon);
      }
    }
  }

  lemma CommitKeeps(w: World, p: nat, init: Tables, horizon: int)
    requires Coherent(w, init, horizon) && Enabled(w, Commit(p))
    ensures Coherent(Perform(w, Commit(p), horizon), init, horizon)
  {
    hide Apply, Serial, WinnersAccepted;
    var q := w.procs[p];
    var v := Perform(w, Commit(p), horizon);
    assert HolderOk(w, p, horizon);
    FlipEntry(init, w.history, q.pos, horizon);
    FlipKeepsWinners(init, w.history, q.pos, horizon);
    forall o | o in v.procs && Busy(v.procs[o]) ensures HolderOk(v, o, horizon) {
      assert HolderOk(w, o, horizon);
    }
  }

  lemma PerformKeeps(w: World, a: Move, init: Tables, horizon: int)
    requires Coherent(w, init, horizon) && Enabled(w, a)
    ensures Coherent(Perform(w, a, horizon), init, horizon)
  {
    hide Apply, Serial, WinnersAccepted;
    match a
    case Checkout(_, _, _, _) => CheckoutKeeps(w, a, init, horizon);
    case Acquire(p) => AcquireKeeps(w, p, init, horizon);
    case Commit(p) => CommitKeeps(w, p, init, horizon);
    case _ =>
      var v := Perform(w, a, horizon);
      forall o | o in v.procs && Busy(v.procs[o]) ensures HolderOk(v, o, horizon) {
        assert HolderOk(w, o, horizon);
      }
  }

  /** And the tables stay sound: each schedule good, no two from one checkout. */
  lemma PerformKeepsSound(w: World, a: Move, init: Tables, horizon: int)
    requires Coherent(w, init, horizon) && Enabled(w, a) && Sound(w.db)
    ensures Sound(Perform(w, a, horizon).db)
  {
    hide Apply, Serial, WinnersAccepted, Inv, Follows;
    match a
    case Checkout(id, origin, interval, anchor) => CreatedIsGood(id, origin, interval, anchor);
    case Commit(p) =>
      var q := w.procs[p];
      assert HolderOk(w, p, horizon);
      StepKeeps(w.db[q.txn.id], q.txn.call, horizon);
      SoundAfter(w.db, q.txn.id, q.result.value);
    case _ =>
  }

  // ----- executions -----

  ghost predicate Execution(ws: seq<World>, acts: seq<Move>, horizon: int) {
    && |ws| == |acts| + 1
    && forall i :: 0 <= i < |acts| ==> Enabled(ws[i], acts[i]) && ws[i + 1] == Perform(ws[i], acts[i], horizon)
  }

  /** Whatever interleaving, crashes, checkouts and stale requests: at every moment the
      committed database is what the committed transactions give one at a time in lock
      order, and each of them was accepted by the very state it then acted on. */
  lemma {:induction false} Serializable(ws: seq<World>, acts: seq<Move>, init: Tables, horizon: int, n: nat)
    requires Execution(ws, acts, horizon) && n < |ws| && Initial(ws[0], init)
    ensures ws[n].db == Serial(init, ws[n].history, horizon)
    ensures WinnersAccepted(init, ws[n].history, horizon)
    ensures Coherent(ws[n], init, horizon)
  {
    hide Apply, Enabled, Perform;
    if n > 0 {
      Serializable(ws, acts, init, horizon, n - 1);
      PerformKeeps(ws[n - 1], acts[n - 1], init, horizon);
    }
  }

  lemma {:induction false} AlwaysSound(ws: seq<World>, acts: seq<Move>, init: Tables, horizon: int, n: nat)
    requires Execution(ws, acts, horizon) && n < |ws| && Initial(ws[0], init) && Sound(init)
    ensures Sound(ws[n].db)
  {
    hide Apply, Enabled, Perform, Coherent;
    if n > 0 {
      AlwaysSound(ws, acts, init, horizon, n - 1);
      Serializable(ws, acts, init, horizon, n - 1);
      PerformKeepsSound(ws[n - 1], acts[n - 1], init, horizon);
    }
  }

  // ----- locks -----

  /** p has the lock on id: it has locked it and is not yet done. */
  ghost predicate WorksOn(w: World, p: nat, id: string) {
    p in w.procs && Busy(w.procs[p]) && w.procs[p].txn.id == id
  }

  /** Every lock has a holder, and that one is busy with the schedule it locked. */
  ghost predicate LocksHeld(w: World) {
    forall id :: id in w.locks ==> WorksOn(w, w.locks[id], id)
  }

  /** A commit and a rollback -- a crash included -- release what they held, and nothing
      else does. */
  lemma PerformKeepsLocks(w: World, a: Move, init: Tables, horizon: int)
    requires Coherent(w, init, horizon) && Enabled(w, a) && LocksHeld(w)
    ensures LocksHeld(Perform(w, a, horizon))
    ensures a.Commit? || a.Abort? ==> w.procs[a.p].txn.id !in Perform(w, a, horizon).locks
  {
    hide Apply, Serial, WinnersAccepted, OpenedGood, Step, Created, OriginTaken;
    var v := Perform(w, a, horizon);
    assert a.Commit? || a.Abort? ==> HolderOk(w, a.p, horizon);
    forall id | id in v.locks ensures WorksOn(v, v.locks[id], id) {
      assert id in w.locks ==> WorksOn(w, w.locks[id], id);
    }
  }

  /** At every moment of any execution a schedule is locked exactly while one process is
      busy with it, and that one alone is. */
  lemma {:induction false} LockedIffBusy(ws: seq<World>, acts: seq<Move>, init: Tables, horizon: int, n: nat)
    requires Execution(ws, acts, horizon) && n < |ws| && Initial(ws[0], init)
    ensures LocksHeld(ws[n])
    ensures forall id :: id in ws[n].locks <==> exists p: nat :: WorksOn(ws[n], p, id)
    ensures forall p: nat, id :: WorksOn(ws[n], p, id) ==> id in ws[n].locks && ws[n].locks[id] == p
  {
    hide Apply, Enabled, Perform;
    Serializable(ws, acts, init, horizon, n);
    if n > 0 {
      LockedIffBusy(ws, acts, init, horizon, n - 1);
      Serializable(ws, acts, init, horizon, n - 1);
      PerformKeepsLocks(ws[n - 1], acts[n - 1], init, horizon);
    }
    forall p: nat, id | WorksOn(ws[n], p, id) ensures id in ws[n].locks && ws[n].locks[id] == p {
      assert HolderOk(ws[n], p, horizon);
    }
  }

  /** So nobody waits on a schedule nobody is working on: a waiting process can take the lock
      as soon as no other is busy with its schedule, and can give up if there is no such
      schedule. */
  lemma WaiterCanAcquire(ws: seq<World>, acts: seq<Move>, init: Tables, horizon: int, n: nat, p: nat)
    requires Execution(ws, acts, horizon) && n < |ws| && Initial(ws[0], init)
    requires p in ws[n].procs && ws[n].procs[p].Waiting?
    ensures var id := ws[n].procs[p].txn.id;
            && (id in ws[n].db && (forall o: nat :: !WorksOn(ws[n], o, id)) <==> Enabled(ws[n], Acquire(p)))
            && (id !in ws[n].db <==> Enabled(ws[n], Miss(p)))
  {
    hide Perform, Execution;
    LockedIffBusy(ws, acts, init, horizon, n);
  }

  /** And a busy process can always finish: it can roll back, and it can compute and then
      commit what was accepted.  Whoever has finished is idle, and can ask again. */
  lemma BusyCanFinish(w: World, p: nat, txn: Txn, horizon: int)
    requires p in w.procs
    ensures Busy(w.procs[p]) ==>
              && Enabled(w, Abort(p)) && Perform(w, Abort(p), horizon).procs[p] == Idle
              && Perform(w, Abort(p), horizon).db == w.db
    ensures w.procs[p].Locked? ==>
              && Enabled(w, Compute(p))
              && (Apply(w.procs[p].seen, w.procs[p].txn.call, horizon).Ok? ==>
                    Enabled(Perform(w, Compute(p), horizon), Commit(p)))
    ensures w.procs[p].Staged? && w.procs[p].result.Ok? ==>
              && Enabled(w, Commit(p)) && Perform(w, Commit(p), horizon).procs[p] == Idle
    ensures w.procs[p].Idle? ==>
              && Enabled(w, Request(p, txn)) && Perform(w, Request(p, txn), horizon).procs[p] == Waiting(txn)
  {
    hide Apply;
  }

  /** A checkout goes through exactly if its id and its order are new and its interval is
      valid, whatever else is going on. */
  lemma CheckoutAnswers(w: World, id: string, origin: string, interval: int, anchor: Day)
    ensures Enabled(w, Checkout(id, origin, interval, anchor))
            <==> && id !in w.db && 7 <= interval <= 180
                 && forall a :: a in w.db ==> w.db[a].row.origin != origin
  {
    hide Apply;
  }

  /** The calls a history commits on one schedule. */
  function CallsOn(history: seq<Entry>, id: string): seq<Call> {
    if |history| == 0 then []
    else
      var e := history[|history| - 1];
      var rest := CallsOn(history[..|history| - 1], id);
      if e.Took? && e.committed && e.txn.id == id then rest + [e.txn.call] else rest
  }

  /** The state a schedule had to begin with, or was opened in. */
  function StartOf(init: Tables, history: seq<Entry>, id: string): Option<Ledger> {
    if |history| == 0 then if id in init then Some(init[id]) else None
    else
      var e := history[|history| - 1];
      match StartOf(init, history[..|history| - 1], id)
      case Some(l) => Some(l)
      case None => if e.Opened? && e.id == id then Some(Created(id, e.origin, e.interval, e.anchor)) else None
  }

  lemma {:induction false} SerialIsRun(init: Tables, history: seq<Entry>, id: string, horizon: int)
    requires WinnersAccepted(init, history, horizon)
    ensures id in Serial(init, history, horizon) <==> StartOf(init, history, id).Some?
    ensures id in Serial(init, history, horizon) ==>
              Serial(init, history, horizon)[id] == Run(StartOf(init, history, id).value, CallsOn(history, id), horizon)
    ensures id !in Serial(init, history, horizon) ==> CallsOn(history, id) == []
  {
    hide Step, Apply, Created;
    if |history| > 0 {
      var n := |history| - 1;
      var e, most := history[n], history[..n];
      forall k | 0 <= k < n && most[k].Took? && most[k].committed
        ensures most[k] == history[k] && most[..k] == history[..k]
      {
      }
      SerialIsRun(init, most, id, horizon);
      var rest := CallsOn(most, id);
      if e.Took? {
        assert (rest + [e.txn.call])[..|rest|] == rest;
      }
    }
  }

  /** A schedule begins as it was found or as its checkout opened it: good either way,
      and with a log that tells its state if the one it was found with did. */
  lemma {:induction false} StartsAreGood(init: Tables, history: seq<Entry>, id: string)
    requires Sound(init) && OpenedGood(history)
    ensures id in init ==> StartOf(init, history, id) == Some(init[id])
    ensures StartOf(init, history, id).Some? ==>
              && Inv(StartOf(init, history, id).value)
              && ((id in init ==> Agrees(init[id])) ==> Agrees(StartOf(init, history, id).value))
  {
    hide Inv, OriginsDistinct, Agrees;
    if |history| > 0 {
      var e := history[|history| - 1];
      StartsAreGood(init, history[..|history| - 1], id);
      if e.Opened? {
        CreatedIsGood(id, e.origin, e.interval, e.anchor);
        CreatedAgrees(id, e.origin, e.interval, e.anchor);
      }
    }
  }

  lemma CreatedAgrees(id: string, origin: string, interval: int, anchor: Day)
    requires ValidInterval(interval)
    ensures Agrees(Created(id, origin, interval, anchor))
  {
  }

  /** So every schedule, at every moment of a concurrent execution, is in a state some
      sequential run reaches from where it began, and what runs keep, concurrency keeps:
      soundness, forward motion, and a log that determines the state. */
  lemma ConcurrencyIsSequential(ws: seq<World>, acts: seq<Move>, init: Tables, horizon: int, n: nat, id: string)
    requires Execution(ws, acts, horizon) && n < |ws| && Initial(ws[0], init) && Sound(init) && id in ws[n].db
    ensures StartOf(init, ws[n].history, id).Some? && Sound(ws[n].db)
    ensures var start := StartOf(init, ws[n].history, id).value;
            && (id in init ==> start == init[id])
            && ws[n].db[id] == Run(start, CallsOn(ws[n].history, id), horizon)
            && Follows(start, ws[n].db[id])
            && ((id in init ==> Agrees(init[id])) ==> Agrees(ws[n].db[id]))
  {
    hide Inv, Agrees, Step, Follows, Execution, OpenedGood, Enabled, Perform, Initial;
    Serializable(ws, acts, init, horizon, n);
    AlwaysSound(ws, acts, init, horizon, n);
    hide WinnersAccepted, HolderOk;
    SerialIsRun(init, ws[n].history, id, horizon);
    StartsAreGood(init, ws[n].history, id);
    var start, calls := StartOf(init, ws[n].history, id).value, CallsOn(ws[n].history, id);
    RunKeeps(start, calls, horizon, 0);
    assert calls[..0] == [];
    if Agrees(start) {
      RunAgrees(start, calls, horizon);
    }
  }
}
