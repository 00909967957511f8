/** What the fire transaction admits, and what the durable outcomes say about execution. */
module Admission {
  import opened Options
  import opened Store
  import opened Lanes
  import opened Dispatcher
  import opened Accounting
  import opened MutualExclusion
  import opened ExactlyOnce

  // -- Open claims per timer ----------------------------------------------

  /** How many claims of one timer may be open under a policy other than Replace. */
  function OpenBound(policy: OverlapPolicy): nat {
    match policy
    case Skip => 1
    case QueueOne => 2
    case Parallel(cap) => cap
    case Replace => 0
  }

  /** The timer, while it exists, has this policy. */
  ghost predicate KeepsPolicy(db: Db, t: TimerId, policy: OverlapPolicy) { t in db.timers ==> db.timers[t] == policy }

  lemma OpenShrinks(db: Db, db': Db, t: TimerId)
    requires Extends(db, db') && db'.claims.Keys == db.claims.Keys
    ensures |UnfinishedOf(db', t)| <= |UnfinishedOf(db, t)|
  {
    assert UnfinishedOf(db', t) <= UnfinishedOf(db, t);
    SubsetCount(UnfinishedOf(db', t), UnfinishedOf(db, t));
  }

  lemma FireOfOther(db: Db, t: TimerId, x: TimerId, r: RunId, n: nat, rows: seq<RunId>)
    requires x in db.timers && x != t && r !in db.claims
    ensures UnfinishedOf(Fire(db, x, r, n, rows), t) <= UnfinishedOf(db, t)
  {
    ReplacePendingShape(Emit(db, Event(r, Fired)), rows);
  }

  lemma FireWithinBound(db: Db, t: TimerId, r: RunId, n: nat, rows: seq<RunId>)
    requires t in db.timers && r !in db.claims && !db.timers[t].Replace?
    requires |UnfinishedOf(db, t)| <= OpenBound(db.timers[t])
    ensures |UnfinishedOf(Fire(db, t, r, n, rows), t)| <= OpenBound(db.timers[t])
  {
    var open, open' := UnfinishedOf(db, t), UnfinishedOf(Fire(db, t, r, n, rows), t);
    match SkipReason(db.timers[t], |open|)
    case None => assert open' == open + {r};
    case Some(reason) => assert open' == open;
  }

  lemma NextWithinBound(s: World, e: Step, s': World, t: TimerId, policy: OverlapPolicy)
    requires Next(s, e, s') && KeepsPolicy(s.db, t, policy) && !policy.Replace?
    requires |UnfinishedOf(s.db, t)| <= OpenBound(policy)
    ensures |UnfinishedOf(s'.db, t)| <= OpenBound(policy)
  {
    NextExtends(s, e, s');
    hide Fire, OpenBound, ThreadStep, UnfinishedOf, Extends;
    match e
    case FireTx(x, r, n, rows) =>
      if x == t { FireWithinBound(s.db, t, r, n, rows); }
      else {
        FireOfOther(s.db, t, x, r, n, rows);
        SubsetCount(UnfinishedOf(s'.db, t), UnfinishedOf(s.db, t));
      }
    case Thread(pid, act) =>
      ThreadAddsNoRow(ViewOf(s, pid), pid, act);
      OpenShrinks(s.db, s'.db, t);
    case _ => OpenShrinks(s.db, s'.db, t);
  }

  /** Main result: a timer that keeps one policy never has more open claims than it admits: one
      under Skip, two under QueueOne, `cap` under Parallel. */
  lemma {:induction false} OpenClaimsBounded(b: Run, i: nat, t: TimerId, policy: OverlapPolicy)
    requires IsRun(b) && i < |b.states| && !policy.Replace?
    requires forall j | 0 <= j < i :: KeepsPolicy(b.states[j].db, t, policy)
    ensures |UnfinishedOf(b.states[i].db, t)| <= OpenBound(policy)
    decreases i
  {
    if i > 0 {
      OpenClaimsBounded(b, i - 1, t, policy);
      NextWithinBound(b.states[i - 1], b.steps[i - 1], b.states[i], t, policy);
    } else {
      assert UnfinishedOf(b.states[0].db, t) == {};
    }
  }

  /** Main result: a fire under Replace leaves its own claim as the only pending one of the timer,
      and every other open claim active and asked to stop; other timers' rows stay as they were. */
  lemma ReplaceLeavesTheNewest(db: Db, t: TimerId, r: RunId, n: nat, rows: seq<RunId>)
    requires t in db.timers && r !in db.claims && db.timers[t] == Replace && ListsPending(db, t, rows)
    ensures var db' := Fire(db, t, r, n, rows);
      && PendingOf(db', t) == {r}
      && (forall x | x in UnfinishedOf(db', t) && x != r ::
          db'.claims[x].status == Active && db'.claims[x].cancelRequested)
      && (forall x | x in db.claims && db.claims[x].timer != t :: x in db'.claims && db'.claims[x] == db.claims[x])
      && (forall x | x in db.claims && x in rows ::
          x in db'.claims && db'.claims[x].outcome == Some(WakeFailed(ReplacedBeforeStart)))
  {
    var fired := Emit(db, Event(r, Fired));
    ReplacePendingShape(fired, rows);
    forall x | x in db.claims && x in rows
      ensures ReplacePending(fired, rows).claims[x].outcome == Some(WakeFailed(ReplacedBeforeStart))
    {
      ReplacedRowOutcome(fired, rows, x);
    }
  }

  lemma {:induction false} ReplacedRowOutcome(db: Db, rows: seq<RunId>, x: RunId)
    requires x in db.claims && x in rows && Unfinished(db.claims[x])
    ensures x in ReplacePending(db, rows).claims
        && ReplacePending(db, rows).claims[x].outcome == Some(WakeFailed(ReplacedBeforeStart))
    decreases |rows|
  {
    var outcome := WakeFailed(ReplacedBeforeStart);
    var (closed, transitioned) := Finish(db, rows[0], outcome, ByFire);
    var next := if transitioned then Emit(closed, Event(rows[0], Ended(outcome))) else closed;
    assert rows == [rows[0]] + rows[1..];
    ReplacePendingShape(next, rows[1..]);
    if rows[0] != x { ReplacedRowOutcome(next, rows[1..], x); }
  }

  // -- What a fire does with its claim ------------------------------------

  /** The events of the closed claims, one each, in the order listed. */
  lemma {:induction false} ReplacedRows(db: Db, rows: seq<RunId>)
    requires forall r | r in rows :: r in db.claims && db.claims[r].status == Pending
    requires forall i, j | 0 <= i < j < |rows| :: rows[i] != rows[j]
    ensures var db' := ReplacePending(db, rows);
      && db'.outbox == db.outbox + seq(|rows|, i requires 0 <= i < |rows| =>
                                         Event(rows[i], Ended(WakeFailed(ReplacedBeforeStart))))
      && db'.claims.Keys == db.claims.Keys && db'.timers == db.timers
      && (forall r | r in db.claims :: db'.claims[r] ==
            if r in rows
            then db.claims[r].(status := Finished, outcome := Some(WakeFailed(ReplacedBeforeStart)), closer := ByFire)
            else db.claims[r])
    decreases |rows|
  {
    if rows != [] {
      var outcome := WakeFailed(ReplacedBeforeStart);
      var next := Emit(Finish(db, rows[0], outcome, ByFire).0, Event(rows[0], Ended(outcome)));
      assert rows == [rows[0]] + rows[1..];
      assert forall r | r in rows[1..] :: r in rows && r != rows[0];
      ReplacedRows(next, rows[1..]);
    }
  }

  /** Main result: a fire's claim is pending exactly when the policy is Replace, or the timer has no
      open claim under Skip, at most one under QueueOne, fewer than the cap under Parallel; otherwise it
      is closed at once, with the policy's own reason and one event. Without Replace no other row
      changes. */
  lemma FireDisposes(db: Db, t: TimerId, r: RunId, n: nat, rows: seq<RunId>)
    requires t in db.timers && r !in db.claims
    ensures var open := |set x | x in db.claims && db.claims[x].timer == t && db.claims[x].status != Finished|;
      var policy, db' := db.timers[t], Fire(db, t, r, n, rows);
      var admitted :=
        match policy
        case Skip => open == 0
        case QueueOne => open <= 1
        case Parallel(cap) => open < cap
        case Replace => true;
      var why :=
        match policy
        case Skip => SkippedMisfire(OverlapSkip)
        case QueueOne => SkippedMisfire(OverlapQueueFull)
        case _ => SkippedMisfire(OverlapParallelCap);
      && db'.timers == db.timers && db'.claims.Keys == db.claims.Keys + {r}
      && db'.claims[r] == (if admitted then Claim(t, n, Pending, None, false, NotClosed)
                           else Claim(t, n, Finished, Some(why), false, ByFire))
      && (policy != Replace ==>
            && (forall x | x in db.claims :: db'.claims[x] == db.claims[x])
            && db'.outbox == db.outbox + [Event(r, Fired)] + if admitted then [] else [Event(r, Ended(why))])
  {
    var open := set x | x in db.claims && db.claims[x].timer == t && db.claims[x].status != Finished;
    assert open == UnfinishedOf(db, t);
    ReplacePendingShape(Emit(db, Event(r, Fired)), rows);
    hide ReplacePending, UnfinishedOf;
  }

  /** Main result: a fire under Replace closes each older pending claim as replaced, with one event each
      after its own, asks each active one to stop, and changes no other row. */
  lemma ReplaceDisposes(db: Db, t: TimerId, r: RunId, n: nat, rows: seq<RunId>)
    requires t in db.timers && r !in db.claims && db.timers[t] == Replace && ListsPending(db, t, rows)
    ensures var db' := Fire(db, t, r, n, rows);
      && (forall x | x in db.claims :: x in db'.claims && db'.claims[x] ==
            if db.claims[x].timer != t || db.claims[x].status == Finished then db.claims[x]
            else if db.claims[x].status == Active then db.claims[x].(cancelRequested := true)
            else db.claims[x].(status := Finished, outcome := Some(WakeFailed(ReplacedBeforeStart)), closer := ByFire))
      && db'.outbox == db.outbox + [Event(r, Fired)]
                       + seq(|rows|,
                             i requires 0 <= i < |rows| => Event(rows[i], Ended(WakeFailed(ReplacedBeforeStart))))
  {
    forall x | x in rows ensures x in db.claims && db.claims[x].status == Pending { assert x in PendingOf(db, t); }
    forall x | x in db.claims ensures x in rows <==> db.claims[x].timer == t && db.claims[x].status == Pending {
      assert x in rows <==> x in PendingOf(db, t);
    }
    ReplacedRows(Emit(db, Event(r, Fired)), rows);
    hide ReplacePending, ListsPending, PendingOf;
  }

  // -- Sequence numbers ---------------------------------------------------

  ghost predicate HasNumber(db: Db, t: TimerId, n: nat) {
    exists r :: r in db.claims && db.claims[r].timer == t && db.claims[r].seqno == n
  }

  /** Claim `r` of `t` has a number from 1 to `count` that no other claim of `t` has. */
  ghost predicate OwnNumber(db: Db, t: TimerId, count: nat, r: RunId) {
    r in db.claims && db.claims[r].timer == t ==>
      && 1 <= db.claims[r].seqno <= count
      && forall x | x in db.claims && db.claims[x].timer == t && x != r :: db.claims[x].seqno != db.claims[r].seqno
  }

  /** The claims of `t` are numbered from 1 without a gap, each number once. */
  ghost predicate Numbered(db: Db, t: TimerId) {
    var count := |ClaimsOf(db, t)|;
    && (forall r :: OwnNumber(db, t, count, r))
    && (forall n: nat | 1 <= n <= count :: HasNumber(db, t, n))
  }

  lemma NumberStays(db: Db, db': Db, t: TimerId, n: nat)
    requires HasNumber(db, t, n) && Extends(db, db')
    ensures HasNumber(db', t, n)
  {
    var r :| r in db.claims && db.claims[r].timer == t && db.claims[r].seqno == n;
    assert r in db'.claims && db'.claims[r].timer == t && db'.claims[r].seqno == n;
  }

  lemma NumberedStays(db: Db, db': Db, t: TimerId)
    requires Numbered(db, t) && Extends(db, db')
    requires forall r | r in db'.claims && db'.claims[r].timer == t :: r in db.claims
    ensures Numbered(db', t)
  {
    hide HasNumber;
    var mine, mine' := ClaimsOf(db, t), ClaimsOf(db', t);
    assert mine' == mine;
    forall r ensures OwnNumber(db', t, |mine|, r) { assert OwnNumber(db, t, |mine|, r); }
    hide OwnNumber;
    forall n: nat | 1 <= n <= |mine| ensures HasNumber(db', t, n) { NumberStays(db, db', t, n); }
  }

  lemma FireNumbers(db: Db, t: TimerId, r: RunId, n: nat, rows: seq<RunId>)
    requires t in db.timers && r !in db.claims && NextSeqno(db, t, n) && Numbered(db, t)
    ensures Numbered(Fire(db, t, r, n, rows), t)
  {
    hide NextSeqno, HasNumber, Numbered;
    FireDisposes(db, t, r, n, rows);
    FireExtends(db, t, r, n, rows);
    NextIsCount(db, t, n);
    hide Fire;
    OneMoreNumber(db, Fire(db, t, r, n, rows), t, r, n);
  }

  lemma OneMoreNumber(db: Db, db': Db, t: TimerId, r: RunId, n: nat)
    requires Numbered(db, t) && Extends(db, db') && db'.claims.Keys == db.claims.Keys + {r} && r !in db.claims
    requires db'.claims[r].timer == t && db'.claims[r].seqno == n == |ClaimsOf(db, t)| + 1
    ensures Numbered(db', t)
  {
    hide HasNumber, OwnNumber, ClaimsOf, Extends;
    OneMoreClaim(db, db', t, r);
    NewNumber(db', t, r);
    forall k: nat | 1 <= k < n ensures HasNumber(db', t, k) { NumberStays(db, db', t, k); }
    forall x ensures OwnNumber(db', t, n, x) { OwnNumberStays(db, db', t, r, |ClaimsOf(db, t)|, x); }
  }

  lemma OneMoreClaim(db: Db, db': Db, t: TimerId, r: RunId)
    requires Extends(db, db') && db'.claims.Keys == db.claims.Keys + {r} && r !in db.claims && db'.claims[r].timer == t
    ensures |ClaimsOf(db', t)| == |ClaimsOf(db, t)| + 1
  {
    assert ClaimsOf(db', t) == ClaimsOf(db, t) + {r};
  }

  lemma OwnNumberStays(db: Db, db': Db, t: TimerId, r: RunId, count: nat, x: RunId)
    requires forall y :: OwnNumber(db, t, count, y)
    requires Extends(db, db') && db'.claims.Keys == db.claims.Keys + {r} && r !in db.claims
    requires db'.claims[r].timer == t && db'.claims[r].seqno == count + 1
    ensures OwnNumber(db', t, count + 1, x)
  {
    if x in db'.claims && db'.claims[x].timer == t {
      assert x != r ==> OwnNumber(db, t, count, x);
      forall y | y in db'.claims && db'.claims[y].timer == t && y != x
        ensures db'.claims[y].seqno != db'.claims[x].seqno
      {
        assert y != r ==> OwnNumber(db, t, count, y);
      }
    }
  }

  lemma NewNumber(db: Db, t: TimerId, r: RunId)
    requires r in db.claims && db.claims[r].timer == t
    ensures HasNumber(db, t, db.claims[r].seqno)
  {
  }

  lemma NextIsCount(db: Db, t: TimerId, n: nat)
    requires NextSeqno(db, t, n) && Numbered(db, t)
    ensures n == |ClaimsOf(db, t)| + 1
  {
    var mine := ClaimsOf(db, t);
    if mine != {} {
      assert HasNumber(db, t, |mine|);
      var x :| x in db.claims && db.claims[x].timer == t && db.claims[x].seqno == |mine|;
      assert x in ClaimsOf(db, t);
      var y :| y in ClaimsOf(db, t) && db.claims[y].seqno + 1 == n;
      assert OwnNumber(db, t, |mine|, y);
    }
  }

  lemma NextNumbered(s: World, e: Step, s': World, t: TimerId)
    requires Next(s, e, s') && Numbered(s.db, t)
    ensures Numbered(s'.db, t)
  {
    hide ThreadStep, Numbered, NextSeqno, ListsPending;
    NextExtends(s, e, s');
    match e
    case FireTx(x, r, n, rows) =>
      if x == t { FireNumbers(s.db, t, r, n, rows); }
      else {
        FireDisposes(s.db, x, r, n, rows);
        hide Fire;
        NumberedStays(s.db, s'.db, t);
      }
    case Thread(pid, act) =>
      ThreadAddsNoRow(ViewOf(s, pid), pid, act);
      NumberedStays(s.db, s'.db, t);
    case _ => NumberedStays(s.db, s'.db, t);
  }

  /** Main result: in every state of every run the claims of a timer carry the numbers from 1 to their
      count, each once. */
  lemma {:induction false} ClaimsAreNumbered(b: Run, i: nat, t: TimerId)
    requires IsRun(b) && i < |b.states|
    ensures Numbered(b.states[i].db, t)
    decreases i
  {
    hide Next, Numbered;
    if i > 0 {
      ClaimsAreNumbered(b, i - 1, t);
      NextNumbered(b.states[i - 1], b.steps[i - 1], b.states[i], t);
    } else {
      NothingNumbered(b.states[0].db, t);
    }
  }

  lemma NothingNumbered(db: Db, t: TimerId)
    requires db.claims == map[]
    ensures Numbered(db, t)
  {
    assert ClaimsOf(db, t) == {};
  }

  // -- Delivered means executed -------------------------------------------

  ghost predicate WorkerTruthful(starts: seq<RunId>, x: Worker) {
    (x.Running? || (x.Closing? && x.outcome == WakeDelivered)) ==> x.run in starts
  }

  ghost predicate RowTruthful(c: Claim, r: RunId, starts: seq<RunId>) {
    c.outcome == Some(WakeDelivered) ==> r in starts
  }

  ghost predicate Truthful(s: World) {
    && (forall r | r in s.db.claims :: RowTruthful(s.db.claims[r], r, s.starts))
    && (forall pid, w | pid in s.procs && 0 <= w < |s.procs[pid].workers| ::
        WorkerTruthful(s.starts, s.procs[pid].workers[w]))
  }

  lemma WorkerKeepsTruth(v: View, w: nat, a: WorkerAct)
    requires w < |v.p.workers| && WorkerStep(v, w, a).Some?
    requires WorkerTruthful(v.starts, v.p.workers[w]) && forall r | r in v.db.claims ::
        RowTruthful(v.db.claims[r], r, v.starts)
    ensures var v' := WorkerStep(v, w, a).value;
      && v'.starts[..|v.starts|] == v.starts <= v'.starts
      && |v'.p.workers| == |v.p.workers| && v'.p.workers == v.p.workers[w := v'.p.workers[w]]
      && WorkerTruthful(v'.starts, v'.p.workers[w])
      && (forall r | r in v'.db.claims :: RowTruthful(v'.db.claims[r], r, v'.starts))
  {
    hide Activated, Left, Dropped, MayRelease, TokenFor, LaneOf;
  }

  lemma OthersKeepTruth(v: View, pid: ProcId, act: Act)
    requires !act.OnWorker? && ThreadStep(v, pid, act).Some?
    requires forall r | r in v.db.claims :: RowTruthful(v.db.claims[r], r, v.starts)
    ensures var v' := ThreadStep(v, pid, act).value;
      && v'.starts == v.starts && v'.p.workers == v.p.workers
      && (forall r | r in v'.db.claims :: RowTruthful(v'.db.claims[r], r, v'.starts))
  {
    hide WorkerStep, PumpStep, BootStep, DownStep, RependAll;
    RependAllShape(v.db);
    match act
    case OnPump(pa) => PumpDb(v, pid, pa); PumpKeepsWorkers(v, pid, pa); PumpStartsNothing(v, pid, pa);
    case _ => CallerDb(v, pid, act); CallerQuiet(v, pid, act);
  }

  lemma FireKeepsTruth(db: Db, t: TimerId, r: RunId, n: nat, rows: seq<RunId>, starts: seq<RunId>)
    requires t in db.timers && r !in db.claims && forall x | x in db.claims :: RowTruthful(db.claims[x], x, starts)
    ensures forall x | x in Fire(db, t, r, n, rows).claims :: RowTruthful(Fire(db, t, r, n, rows).claims[x], x, starts)
  {
    ReplaceKeepsTruth(Emit(db, Event(r, Fired)), rows, starts);
    hide ReplacePending;
  }

  lemma {:induction false} ReplaceKeepsTruth(db: Db, rows: seq<RunId>, starts: seq<RunId>)
    requires forall x | x in db.claims :: RowTruthful(db.claims[x], x, starts)
    ensures forall x | x in ReplacePending(db, rows).claims ::
        RowTruthful(ReplacePending(db, rows).claims[x], x, starts)
    decreases |rows|
  {
    if rows != [] {
      var outcome := WakeFailed(ReplacedBeforeStart);
      var (closed, transitioned) := Finish(db, rows[0], outcome, ByFire);
      ReplaceKeepsTruth(if transitioned then Emit(closed, Event(rows[0], Ended(outcome)))
                        else closed, rows[1..], starts);
    }
  }

  lemma NextTruthful(s: World, e: Step, s': World)
    requires Truthful(s) && Next(s, e, s')
    ensures Truthful(s')
  {
    match e
    case FireTx(t, r, n, rows) => FireKeepsTruth(s.db, t, r, n, rows, s.starts); hide Fire;
    case Thread(pid, OnWorker(w, wa)) =>
      WorkerKeepsTruth(ViewOf(s, pid), w, wa);
      hide WorkerStep;
      assert forall y | y in s.starts :: y in s'.starts;
    case Thread(pid, act) => OthersKeepTruth(ViewOf(s, pid), pid, act); hide ThreadStep;
    case _ =>
  }

  lemma {:induction false} AlwaysTruthful(b: Run, i: nat)
    requires IsRun(b) && i < |b.states|
    ensures Truthful(b.states[i])
    decreases i
  {
    if i > 0 {
      AlwaysTruthful(b, i - 1);
      NextTruthful(b.states[i - 1], b.steps[i - 1], b.states[i]);
    }
  }

  /** Main result: a claim recorded as delivered, in its row or in any event, was really started:
      orphans, skips, replacements and crashes never count as success. */
  lemma DeliveredWasStarted(b: Run, i: nat, r: RunId)
    requires IsRun(b) && i < |b.states|
    requires var db := b.states[i].db;
      (r in db.claims && db.claims[r].outcome == Some(WakeDelivered)) || Event(r, Ended(WakeDelivered)) in db.outbox
    ensures r in b.states[i].starts
  {
    var s := b.states[i];
    AlwaysTruthful(b, i);
    AlwaysAgrees(b, i);
    assert Event(r, Ended(WakeDelivered)) in s.db.outbox ==> EventTruthful(s.db, Event(r, Ended(WakeDelivered)));
    assert RowTruthful(s.db.claims[r], r, s.starts);
  }
}
