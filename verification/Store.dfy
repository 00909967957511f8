/** The durable side of the dispatcher: claim rows, timer rows and the event outbox,
    with the single-statement transitions and the fire transaction that move them.
    Every operation is one SQLite transaction, so it is modelled as one atomic function. */
module Store {
  import opened Options

  type RunId = nat
  type TimerId = nat

  datatype OverlapPolicy = Skip | QueueOne | Replace | Parallel(cap: nat)

  /** How many claims of one timer may be in its lane. */
  function Limit(policy: OverlapPolicy): nat {
    match policy
    case Parallel(cap) => cap
    case _ => 1
  }

  datatype ClaimStatus = Pending | Active | Finished

  datatype Reason =
    | ActionError | TimerDeleted | OverlapReplace | ReplacedBeforeStart
    | OverlapSkip | OverlapQueueFull | OverlapParallelCap

  datatype Outcome = WakeDelivered | WakeFailed(reason: Reason) | SkippedMisfire(reason: Reason)

  /** Who closed a claim. History only: no operation reads it. */
  datatype Closer = NotClosed | ByWorker | ByFire | ByPump

  datatype Claim = Claim(
    timer: TimerId, seqno: nat, status: ClaimStatus,
    outcome: Option<Outcome>, cancelRequested: bool, closer: Closer)

  datatype EventKind = Fired | Ended(outcome: Outcome)
  datatype Event = Event(run: RunId, kind: EventKind)

  datatype Db = Db(
    claims: map<RunId, Claim>,
    timers: map<TimerId, OverlapPolicy>,
    outbox: seq<Event>)

  predicate Unfinished(c: Claim) { c.status != Finished }

  // -- Single-row transitions ---------------------------------------------

  /** CAS pending → active; the flag reports whether this call made the transition. */
  function Activate(db: Db, r: RunId): (res: (Db, bool)) {
    if r in db.claims && db.claims[r].status == Pending then
      (db.(claims := db.claims[r := db.claims[r].(status := Active)]), true)
    else
      (db, false)
  }

  function Repend(db: Db, r: RunId): Db {
    if r in db.claims && db.claims[r].status == Active then
      db.(claims := db.claims[r := db.claims[r].(status := Pending)])
    else
      db
  }

  function RependAll(db: Db): Db {
    db.(claims := map r | r in db.claims ::
          if db.claims[r].status == Active then db.claims[r].(status := Pending) else db.claims[r])
  }

  /** Close an unfinished claim; a finished one is never rewritten. */
  function Finish(db: Db, r: RunId, outcome: Outcome, closer: Closer): (res: (Db, bool)) {
    if r in db.claims && Unfinished(db.claims[r]) then
      (db.(claims := db.claims[r :=
             db.claims[r].(status := Finished, outcome := Some(outcome), closer := closer)]), true)
    else
      (db, false)
  }

  function Emit(db: Db, e: Event): Db {
    db.(outbox := db.outbox + [e])
  }

  /** The worker completion transaction: the row and its event commit together, and the
      event is written only when this transaction made the transition. */
  function CommitResult(db: Db, r: RunId, outcome: Outcome): Db {
    var (closed, transitioned) := Finish(db, r, outcome, ByWorker);
    if transitioned then Emit(closed, Event(r, Ended(outcome))) else closed
  }

  /** Recovery changes statuses only: every active row becomes pending. */
  lemma RependAllShape(db: Db)
    ensures RependAll(db).claims.Keys == db.claims.Keys && RependAll(db).timers == db.timers
        && RependAll(db).outbox == db.outbox
    ensures forall r | r in db.claims ::
              var c, c' := db.claims[r], RependAll(db).claims[r];
              && c' == c.(status := c'.status) && c'.status == if c.status == Active then Pending else c.status
  {
  }

  // -- The fire transaction -----------------------------------------------

  function ClaimsOf(db: Db, t: TimerId): set<RunId> {
    set r | r in db.claims && db.claims[r].timer == t
  }

  function UnfinishedOf(db: Db, t: TimerId): set<RunId> {
    set r | r in db.claims && db.claims[r].timer == t && Unfinished(db.claims[r])
  }

  function PendingOf(db: Db, t: TimerId): set<RunId> {
    set r | r in db.claims && db.claims[r].timer == t && db.claims[r].status == Pending
  }

  /** COALESCE(MAX(event_sequence), 0) + 1 over the timer's rows. */
  ghost predicate NextSeqno(db: Db, t: TimerId, n: nat) {
    && (forall r | r in ClaimsOf(db, t) :: db.claims[r].seqno < n)
    && (if ClaimsOf(db, t) == {} then n == 1 else exists r | r in ClaimsOf(db, t) :: db.claims[r].seqno + 1 == n)
  }

  /** `rows` lists the timer's pending claims, oldest sequence first. */
  ghost predicate ListsPending(db: Db, t: TimerId, rows: seq<RunId>) {
    && (forall r :: r in rows <==> r in PendingOf(db, t))
    && (forall i, j | 0 <= i < j < |rows| :: rows[i] != rows[j])
    && (forall i, j | 0 <= i < j < |rows| && rows[i] in db.claims && rows[j] in db.claims ::
          db.claims[rows[i]].seqno <= db.claims[rows[j]].seqno)
  }

  /** Replace: close each listed pending claim before it starts, with its own event. */
  function ReplacePending(db: Db, rows: seq<RunId>): Db
    decreases |rows|
  {
    if rows == [] then db
    else
      var outcome := WakeFailed(ReplacedBeforeStart);
      var (closed, transitioned) := Finish(db, rows[0], outcome, ByFire);
      ReplacePending(if transitioned then Emit(closed, Event(rows[0], Ended(outcome))) else closed, rows[1..])
  }

  /** Replace: ask every active claim of the timer to stop. */
  function RequestCancel(db: Db, t: TimerId): Db {
    db.(claims := map r | r in db.claims ::
          if db.claims[r].timer == t && db.claims[r].status == Active
          then db.claims[r].(cancelRequested := true) else db.claims[r])
  }

  /** Why the new claim must not execute, judged from the older executable claims. */
  function SkipReason(policy: OverlapPolicy, older: nat): Option<Reason> {
    match policy
    case Skip => if older >= 1 then Some(OverlapSkip) else None
    case QueueOne => if older >= 2 then Some(OverlapQueueFull) else None
    case Parallel(cap) => if older >= cap then Some(OverlapParallelCap) else None
    case Replace => None
  }

  function FreshClaim(t: TimerId, n: nat): Claim {
    Claim(t, n, Pending, None, false, NotClosed)
  }

  /** Claim row, `fired` event and overlap disposition in one commit. */
  function Fire(db: Db, t: TimerId, r: RunId, n: nat, rows: seq<RunId>): Db
    requires t in db.timers && r !in db.claims
  {
    var claimed := Emit(db.(claims := db.claims[r := FreshClaim(t, n)]), Event(r, Fired));
    if db.timers[t] == Replace then
      // rows and active claims exclude the new one
      var replaced := ReplacePending(Emit(db, Event(r, Fired)), rows);
      var asked := RequestCancel(replaced, t);
      asked.(claims := asked.claims[r := FreshClaim(t, n)])
    else
      match SkipReason(db.timers[t], |UnfinishedOf(db, t)|)
      case None => claimed
      case Some(reason) =>
        Emit(Finish(claimed, r, SkippedMisfire(reason), ByFire).0, Event(r, Ended(SkippedMisfire(reason))))
  }

  // -- What every operation keeps -----------------------------------------

  /** Rows are only added and a row never changes its timer or sequence number;
      `finished` rows are never rewritten; a cancellation request is never withdrawn. */
  ghost predicate Extends(db: Db, db': Db) {
    forall r | r in db.claims ::
      && r in db'.claims
      && db'.claims[r].timer == db.claims[r].timer
      && db'.claims[r].seqno == db.claims[r].seqno
      && (db.claims[r].status == Finished ==> db'.claims[r] == db.claims[r])
      && (db.claims[r].cancelRequested ==> db'.claims[r].cancelRequested)
  }

  lemma ExtendsTransitive(a: Db, b: Db, c: Db)
    requires Extends(a, b) && Extends(b, c)
    ensures Extends(a, c)
  {
  }

  lemma {:induction false} ReplacePendingShape(db: Db, rows: seq<RunId>)
    ensures var d := ReplacePending(db, rows);
      && d.timers == db.timers
      && d.claims.Keys == db.claims.Keys
      && Extends(db, d)
      && (forall r | r in db.claims && r !in rows :: d.claims[r] == db.claims[r])
      && (forall r | r in db.claims && r in rows :: d.claims[r].status == Finished)
    decreases |rows|
  {
    if rows != [] {
      var outcome := WakeFailed(ReplacedBeforeStart);
      var (closed, transitioned) := Finish(db, rows[0], outcome, ByFire);
      var next := if transitioned then Emit(closed, Event(rows[0], Ended(outcome))) else closed;
      ReplacePendingShape(next, rows[1..]);
      assert rows == [rows[0]] + rows[1..];
    }
  }

  lemma FireExtends(db: Db, t: TimerId, r: RunId, n: nat, rows: seq<RunId>)
    requires t in db.timers && r !in db.claims
    ensures Extends(db, Fire(db, t, r, n, rows))
  {
    ReplacePendingShape(Emit(db, Event(r, Fired)), rows);
  }

  // -- Exactly one result per run -----------------------------------------

  /** How many terminal events the outbox holds for a run. */
  function TerminalCount(outbox: seq<Event>, r: RunId): nat {
    if outbox == [] then 0
    else TerminalCount(outbox[..|outbox| - 1], r)
         + (if outbox[|outbox| - 1].run == r && outbox[|outbox| - 1].kind.Ended? then 1 else 0)
  }

  ghost predicate ClosedWithEvent(db: Db, r: RunId) {
    r in db.claims && (db.claims[r].closer == ByWorker || db.claims[r].closer == ByFire)
  }

  ghost predicate OneResult(db: Db, r: RunId) {
    TerminalCount(db.outbox, r) == (if ClosedWithEvent(db, r) then 1 else 0)
  }

  ghost predicate EventTruthful(db: Db, e: Event) {
    e.kind.Ended? ==> e.run in db.claims && db.claims[e.run].outcome == Some(e.kind.outcome)
  }

  ghost predicate RowWellFormed(c: Claim) {
    && (c.outcome.Some? <==> c.status == Finished)
    && (c.closer != NotClosed <==> c.status == Finished)
  }

  /** One terminal event per closed run (none while it is open or when the pump closed an
      orphan), and that event carries the very outcome stored in the row. */
  ghost predicate ResultsAgree(db: Db) {
    && (forall r: RunId :: OneResult(db, r))
    && (forall e | e in db.outbox :: EventTruthful(db, e))
    && (forall r | r in db.claims :: RowWellFormed(db.claims[r]))
  }

  lemma TerminalCountSnoc(outbox: seq<Event>, e: Event, r: RunId)
    ensures TerminalCount(outbox + [e], r) ==
            TerminalCount(outbox, r) + (if e.run == r && e.kind.Ended? then 1 else 0)
  {
    assert (outbox + [e])[..|outbox + [e]| - 1] == outbox;
  }

  /** A step that writes no event and closes no row with one keeps the agreement. */
  lemma QuietStepAgrees(db: Db, db': Db)
    requires ResultsAgree(db) && db'.outbox == db.outbox
    requires forall r | r in db.claims && db.claims[r].status == Finished ::
        r in db'.claims && db'.claims[r] == db.claims[r]
    requires forall r | r in db'.claims :: RowWellFormed(db'.claims[r])
    requires forall r | ClosedWithEvent(db', r) :: ClosedWithEvent(db, r)
    ensures ResultsAgree(db')
  {
    forall r: RunId ensures OneResult(db', r) {
      assert OneResult(db, r);
      if r in db.claims { assert RowWellFormed(db.claims[r]); }
    }
    forall e | e in db'.outbox ensures EventTruthful(db', e) {
      assert EventTruthful(db, e);
      if e.kind.Ended? { assert RowWellFormed(db.claims[e.run]); }
    }
  }

  /** Closing a row and writing its event in the same transaction keeps the agreement. */
  lemma CloseWithEventAgrees(db: Db, r: RunId, outcome: Outcome, closer: Closer)
    requires ResultsAgree(db) && (closer == ByWorker || closer == ByFire)
    requires r in db.claims && Unfinished(db.claims[r])
    ensures ResultsAgree(Emit(Finish(db, r, outcome, closer).0, Event(r, Ended(outcome))))
  {
    var e := Event(r, Ended(outcome));
    var db' := Emit(Finish(db, r, outcome, closer).0, e);
    forall x: RunId ensures OneResult(db', x) {
      assert OneResult(db, x);
      assert RowWellFormed(db.claims[r]);
      TerminalCountSnoc(db.outbox, e, x);
    }
    forall f | f in db'.outbox ensures EventTruthful(db', f) {
      if f in db.outbox {
        assert EventTruthful(db, f);
        assert RowWellFormed(db.claims[r]);
      }
    }
  }

  lemma FiredEventAgrees(db: Db, r: RunId)
    requires ResultsAgree(db)
    ensures ResultsAgree(Emit(db, Event(r, Fired)))
  {
    var db' := Emit(db, Event(r, Fired));
    forall x: RunId ensures OneResult(db', x) {
      assert OneResult(db, x);
      TerminalCountSnoc(db.outbox, Event(r, Fired), x);
    }
    forall f | f in db'.outbox ensures EventTruthful(db', f) {
      if f in db.outbox { assert EventTruthful(db, f); }
    }
  }

  lemma StatusTransitionsAgree(db: Db, r: RunId)
    requires ResultsAgree(db)
    ensures ResultsAgree(Activate(db, r).0)
    ensures ResultsAgree(Repend(db, r))
    ensures ResultsAgree(RependAll(db))
  {
    QuietStepAgrees(db, Activate(db, r).0);
    QuietStepAgrees(db, Repend(db, r));
    QuietStepAgrees(db, RependAll(db));
  }

  lemma ClosingAgrees(db: Db, r: RunId, outcome: Outcome)
    requires ResultsAgree(db)
    ensures ResultsAgree(CommitResult(db, r, outcome))
    ensures ResultsAgree(Finish(db, r, outcome, ByPump).0)
  {
    if r in db.claims && Unfinished(db.claims[r]) {
      CloseWithEventAgrees(db, r, outcome, ByWorker);
      QuietStepAgrees(db, Finish(db, r, outcome, ByPump).0);
    }
  }

  lemma {:induction false} ReplacePendingAgrees(db: Db, rows: seq<RunId>)
    requires ResultsAgree(db)
    ensures ResultsAgree(ReplacePending(db, rows))
    decreases |rows|
  {
    if rows != [] {
      var outcome := WakeFailed(ReplacedBeforeStart);
      var (closed, transitioned) := Finish(db, rows[0], outcome, ByFire);
      if transitioned { CloseWithEventAgrees(db, rows[0], outcome, ByFire); }
      ReplacePendingAgrees(if transitioned then Emit(closed, Event(rows[0], Ended(outcome))) else closed, rows[1..]);
    }
  }

  lemma FireAgrees(db: Db, t: TimerId, r: RunId, n: nat, rows: seq<RunId>)
    requires ResultsAgree(db)
    requires t in db.timers && r !in db.claims
    ensures ResultsAgree(Fire(db, t, r, n, rows))
  {
    FiredEventAgrees(db, r);
    var fired := Emit(db, Event(r, Fired));
    if db.timers[t] == Replace {
      ReplacePendingAgrees(fired, rows);
      ReplacePendingShape(fired, rows);
      var replaced := ReplacePending(fired, rows);
      QuietStepAgrees(replaced, RequestCancel(replaced, t));
      QuietStepAgrees(RequestCancel(replaced, t), Fire(db, t, r, n, rows));
    } else {
      var claimed := fired.(claims := db.claims[r := FreshClaim(t, n)]);
      QuietStepAgrees(fired, claimed);
      match SkipReason(db.timers[t], |UnfinishedOf(db, t)|)
      case None =>
      case Some(reason) => CloseWithEventAgrees(claimed, r, SkippedMisfire(reason), ByFire);
    }
  }
}
