/** Exactly-once results over at-least-once execution, and who may be cancelled. */
module ExactlyOnce {
  import opened Options
  import opened Store
  import opened Lanes
  import opened Dispatcher
  import opened Accounting
  import opened MutualExclusion

  // -- One result per run -------------------------------------------------

  lemma WorkerAgrees(v: View, w: nat, a: WorkerAct)
    requires w < |v.p.workers| && WorkerStep(v, w, a).Some? && ResultsAgree(v.db)
    ensures ResultsAgree(WorkerStep(v, w, a).value.db)
  {
    if v.p.workers[w].Busy() { StatusTransitionsAgree(v.db, v.p.workers[w].run); }
    if v.p.workers[w].Closing? { ClosingAgrees(v.db, v.p.workers[w].run, v.p.workers[w].outcome); }
    hide ResultsAgree, Activate, CommitResult, Repend, Activated, Left, Dropped;
  }

  lemma PumpAgrees(v: View, pid: ProcId, a: PumpAct)
    requires PumpStep(v, pid, a).Some? && ResultsAgree(v.db)
    ensures ResultsAgree(PumpStep(v, pid, a).value.db)
  {
    StatusTransitionsAgree(v.db, 0);
    if a.Consider? && v.p.pump.groups[v.p.pump.current.value] != [] {
      ClosingAgrees(v.db, v.p.pump.groups[v.p.pump.current.value][0], WakeFailed(TimerDeleted));
    }
    hide ResultsAgree, RependAll, Finish, Enqueue;
  }

  lemma NextAgrees(s: World, e: Step, s': World)
    requires ResultsAgree(s.db) && Next(s, e, s')
    ensures ResultsAgree(s'.db)
  {
    match e
    case SetTimer(_, _) => QuietStepAgrees(s.db, s'.db);
    case DeleteTimer(_) => QuietStepAgrees(s.db, s'.db);
    case FireTx(t, r, n, rows) => FireAgrees(s.db, t, r, n, rows);
    case Thread(pid, OnWorker(w, wa)) => WorkerAgrees(ViewOf(s, pid), w, wa);
    case Thread(pid, OnPump(pa)) => PumpAgrees(ViewOf(s, pid), pid, pa);
    case Thread(pid, OnBoot(ba)) => StatusTransitionsAgree(s.db, 0); hide ResultsAgree, RependAll;
    case _ =>
  }

  lemma {:induction false} AlwaysAgrees(b: Run, i: nat)
    requires IsRun(b) && i < |b.states|
    ensures ResultsAgree(b.states[i].db)
    decreases i
  {
    if i > 0 {
      AlwaysAgrees(b, i - 1);
      NextAgrees(b.states[i - 1], b.steps[i - 1], b.states[i]);
    } else {
      forall r: RunId ensures OneResult(b.states[0].db, r) { }
    }
  }

  lemma {:induction false} RunExtends(b: Run, i: nat, j: nat)
    requires IsRun(b) && i <= j < |b.states|
    ensures Extends(b.states[i].db, b.states[j].db)
    decreases j - i
  {
    if i < j {
      RunExtends(b, i, j - 1);
      NextExtends(b.states[j - 1], b.steps[j - 1], b.states[j]);
      ExtendsTransitive(b.states[i].db, b.states[j - 1].db, b.states[j].db);
    }
  }

  /** Main result: across every run, with crashes, re-executions and Replace, a run has at most
      one terminal event; it has exactly one when a worker's or a fire's transaction closed it;
      that event tells the stored outcome; and a closed row stays as it is for ever. */
  lemma OneTerminalEvent(b: Run, i: nat, j: nat, r: RunId)
    requires IsRun(b) && i <= j < |b.states|
    ensures TerminalCount(b.states[i].db.outbox, r) <= 1
    ensures TerminalCount(b.states[i].db.outbox, r) == 1 <==>
            r in b.states[i].db.claims && b.states[i].db.claims[r].status == Finished
                && b.states[i].db.claims[r].closer != ByPump
    ensures forall e | e in b.states[i].db.outbox && e.run == r && e.kind.Ended? ::
              r in b.states[i].db.claims && b.states[i].db.claims[r].outcome == Some(e.kind.outcome)
    ensures r in b.states[i].db.claims && b.states[i].db.claims[r].status == Finished ==>
              r in b.states[j].db.claims && b.states[j].db.claims[r] == b.states[i].db.claims[r]
  {
    AlwaysAgrees(b, i);
    RunExtends(b, i, j);
    var db := b.states[i].db;
    assert OneResult(db, r);
    forall e | e in db.outbox && e.run == r && e.kind.Ended?
      ensures r in db.claims && db.claims[r].outcome == Some(e.kind.outcome)
    {
      assert EventTruthful(db, e);
    }
    if r in db.claims { assert RowWellFormed(db.claims[r]); }
  }

  // -- Only a replaced run is ever cancelled ------------------------------

  /** A Replace fire asked this run to stop, and a newer claim of its timer exists. */
  ghost predicate Replaced(db: Db, r: RunId) {
    && r in db.claims && db.claims[r].cancelRequested
    && exists x :: x in db.claims && db.claims[x].timer == db.claims[r].timer && db.claims[r].seqno < db.claims[x].seqno
  }

  ghost predicate RowsReplaced(db: Db) {
    && (forall r | r in db.claims && db.claims[r].cancelRequested :: Replaced(db, r))
    && (forall r | r in db.claims && db.claims[r].outcome == Some(WakeFailed(OverlapReplace)) :: Replaced(db, r))
  }

  ghost predicate CancelsSound(db: Db, p: Proc) {
    && (forall t, r | TokenHeld(p.lanes, t, r) && p.lanes[t].tokens[r] in p.cancelled :: Replaced(db, r))
    && (p.pump.Signal? ==> forall r | r in p.pump.ids :: Replaced(db, r))
    && (forall w | 0 <= w < |p.workers| && p.workers[w].Closing?
        && p.workers[w].outcome == WakeFailed(OverlapReplace) ::
          Replaced(db, p.workers[w].run))
  }

  lemma ReplacedStays(db: Db, db': Db, r: RunId)
    requires Extends(db, db') && Replaced(db, r)
    ensures Replaced(db', r)
  {
    var x :| x in db.claims && db.claims[x].timer == db.claims[r].timer && db.claims[r].seqno < db.claims[x].seqno;
    assert x in db'.claims && db'.claims[x].timer == db'.claims[r].timer && db'.claims[r].seqno < db'.claims[x].seqno;
  }

  /** A step that asks no new run to stop and records no new interruption. */
  lemma RowsReplacedStays(db: Db, db': Db)
    requires RowsReplaced(db) && Extends(db, db')
    requires forall r | r in db'.claims && db'.claims[r].cancelRequested ::
        r in db.claims && db.claims[r].cancelRequested
    requires forall r | r in db'.claims && db'.claims[r].outcome == Some(WakeFailed(OverlapReplace)) :: Replaced(db, r)
    ensures RowsReplaced(db')
  {
    forall r | r in db'.claims
        && (db'.claims[r].cancelRequested || db'.claims[r].outcome == Some(WakeFailed(OverlapReplace)))
      ensures Replaced(db', r)
    {
      ReplacedStays(db, db', r);
    }
  }

  lemma {:induction false} ReplacePendingRows(db: Db, rows: seq<RunId>)
    ensures var d := ReplacePending(db, rows); forall r | r in d.claims ::
      r in db.claims && d.claims[r].cancelRequested == db.claims[r].cancelRequested
      && d.claims[r].timer == db.claims[r].timer && d.claims[r].seqno == db.claims[r].seqno
      && (d.claims[r].outcome == db.claims[r].outcome || d.claims[r].outcome == Some(WakeFailed(ReplacedBeforeStart)))
    decreases |rows|
  {
    if rows != [] {
      var (closed, transitioned) := Finish(db, rows[0], WakeFailed(ReplacedBeforeStart), ByFire);
      ReplacePendingRows(
        if transitioned then Emit(closed, Event(rows[0], Ended(WakeFailed(ReplacedBeforeStart))))
            else closed, rows[1..]);
    }
  }

  lemma FireRowsReplaced(db: Db, t: TimerId, r: RunId, n: nat, rows: seq<RunId>)
    requires RowsReplaced(db) && t in db.timers && r !in db.claims && NextSeqno(db, t, n)
    ensures RowsReplaced(Fire(db, t, r, n, rows))
  {
    var db' := Fire(db, t, r, n, rows);
    FireExtends(db, t, r, n, rows);
    ReplacePendingRows(Emit(db, Event(r, Fired)), rows);
    assert db'.claims[r].timer == t && db'.claims[r].seqno == n && !db'.claims[r].cancelRequested;
    assert db'.claims[r].outcome != Some(WakeFailed(OverlapReplace));
    forall x | x in db'.claims
        && (db'.claims[x].cancelRequested || db'.claims[x].outcome == Some(WakeFailed(OverlapReplace)))
      ensures Replaced(db', x)
    {
      assert x in db.claims;
      if Replaced(db, x) { ReplacedStays(db, db', x); }
      else { assert x in ClaimsOf(db, t) && db.claims[x].seqno < n; }
    }
  }

  ghost predicate CancelsWorld(s: World) {
    RowsReplaced(s.db) && forall pid | pid in s.procs :: CancelsSound(s.db, s.procs[pid])
  }

  lemma CancelsUntouched(db: Db, db': Db, p: Proc, p': Proc)
    requires CancelsSound(db, p) && Extends(db, db')
    requires forall t, r | TokenHeld(p'.lanes, t, r) && p'.lanes[t].tokens[r] in p'.cancelled ::
               TokenHeld(p.lanes, t, r) && p.lanes[t].tokens[r] in p.cancelled
    requires p'.pump.Signal? ==> forall r | r in p'.pump.ids :: Replaced(db, r)
    requires forall w | 0 <= w < |p'.workers| && p'.workers[w].Closing?
        && p'.workers[w].outcome == WakeFailed(OverlapReplace) ::
               Replaced(db, p'.workers[w].run)
    ensures CancelsSound(db', p')
  {
    forall t, r | TokenHeld(p'.lanes, t, r) && p'.lanes[t].tokens[r] in p'.cancelled ensures Replaced(db', r) {
      ReplacedStays(db, db', r);
    }
    if p'.pump.Signal? {
      forall r | r in p'.pump.ids ensures Replaced(db', r) { ReplacedStays(db, db', r); }
    }
    forall w | 0 <= w < |p'.workers| && p'.workers[w].Closing? && p'.workers[w].outcome == WakeFailed(OverlapReplace)
      ensures Replaced(db', p'.workers[w].run)
    {
      ReplacedStays(db, db', p'.workers[w].run);
    }
  }

  lemma GivenBackTokens(lanes: Lanes, x: TimerId, y: RunId, t: TimerId, r: RunId)
    ensures TokenHeld(Left(lanes, x, y), t, r) ==>
              TokenHeld(lanes, t, r) && Left(lanes, x, y)[t].tokens[r] == lanes[t].tokens[r]
    ensures x in lanes && TokenHeld(Dropped(lanes, x, y), t, r) ==>
              TokenHeld(lanes, t, r) && Dropped(lanes, x, y)[t].tokens[r] == lanes[t].tokens[r]
  {
  }

  /** A token present after a worker's step was there before, with the same value. */
  lemma WorkerTokens(v: View, w: nat, a: WorkerAct, t: TimerId, r: RunId)
    requires w < |v.p.workers| && WorkerStep(v, w, a).Some? && Accounts(v.db.claims, v.p)
    requires var p' := WorkerStep(v, w, a).value.p; TokenHeld(p'.lanes, t, r) && p'.lanes[t].tokens[r] in p'.cancelled
    ensures TokenHeld(v.p.lanes, t, r) && v.p.lanes[t].tokens[r] in v.p.cancelled
  {
    hide WorkerStep, Accounts, Activated, Left, Dropped, LaneShape;
    var p, x := v.p, v.p.workers[w];
    AccountsOf(v.db.claims, p, w);
    WorkerLanes(v, w, a);
    if x.Won? { ReserveShape(p.lanes, x.timer, x.run, p.nextToken, Activated(p.lanes, x.timer, x.run, p.nextToken)); }
    if x.Dropping? && a.ReleaseHint? && a.lane.Some? { GivenBackTokens(p.lanes, a.lane.value, x.run, t, r); }
    if x.Leaving? { GivenBackTokens(p.lanes, x.timer, x.run, t, r); }
  }

  lemma WorkerCancels(v: View, w: nat, a: WorkerAct)
    requires w < |v.p.workers| && WorkerStep(v, w, a).Some?
    requires Accounts(v.db.claims, v.p) && CancelsSound(v.db, v.p) && RowsReplaced(v.db)
    ensures var v' := WorkerStep(v, w, a).value; CancelsSound(v'.db, v'.p) && RowsReplaced(v'.db)
  {
    var v', p := WorkerStep(v, w, a).value, v.p;
    WorkerExtends(v, w, a);
    assert WorkerReserved(v.db.claims, p.lanes, p.workers[w]);
    forall t, r | TokenHeld(v'.p.lanes, t, r) && v'.p.lanes[t].tokens[r] in v'.p.cancelled
      ensures TokenHeld(p.lanes, t, r) && p.lanes[t].tokens[r] in p.cancelled
    {
      WorkerTokens(v, w, a, t, r);
    }
    WorkerStays(v, w, a);
    WorkerClosing(v, w, a);
    WorkerRows(v, w, a);
    hide Accounts, WorkerStep, Replaced;
    forall u | 0 <= u < |v'.p.workers| && v'.p.workers[u].Closing?
        && v'.p.workers[u].outcome == WakeFailed(OverlapReplace)
      ensures Replaced(v.db, v'.p.workers[u].run)
    {
      if u != w { assert v'.p.workers[u] == p.workers[u]; }
    }
    CancelsUntouched(v.db, v'.db, p, v'.p);
    RowsReplacedStays(v.db, v'.db);
  }

  /** An interruption is reported only under a cancelled token, which is the run's own. */
  lemma WorkerClosing(v: View, w: nat, a: WorkerAct)
    requires w < |v.p.workers| && WorkerStep(v, w, a).Some?
    requires WorkerReserved(v.db.claims, v.p.lanes, v.p.workers[w]) && CancelsSound(v.db, v.p)
    requires |WorkerStep(v, w, a).value.p.workers| == |v.p.workers|
    ensures var p' := WorkerStep(v, w, a).value.p;
      (p'.workers[w].Closing? && p'.workers[w].outcome == WakeFailed(OverlapReplace) ==>
       Replaced(v.db, p'.workers[w].run))
  {
    hide Replaced, Activate, CommitResult, Repend, Activated, Left, Dropped, MayRelease, TokenFor, LaneOf,
      WorkerReserved, CancelsSound;
    WorkerMayReport(v.db, v.p, w);
  }

  /** A signalled token, and a result already decided, belong to a replaced run. */
  lemma WorkerMayReport(db: Db, p: Proc, w: nat)
    requires w < |p.workers| && WorkerReserved(db.claims, p.lanes, p.workers[w]) && CancelsSound(db, p)
    ensures var x := p.workers[w];
      && (x.HasToken() && x.token in p.cancelled ==> Replaced(db, x.run))
      && (x.Closing? && x.outcome == WakeFailed(OverlapReplace) ==> Replaced(db, x.run))
  {
    hide Replaced;
    var x := p.workers[w];
    if x.HasToken() { assert TokenHeld(p.lanes, x.timer, x.run); }
  }

  lemma WorkerRows(v: View, w: nat, a: WorkerAct)
    requires w < |v.p.workers| && WorkerStep(v, w, a).Some?
    requires CancelsSound(v.db, v.p) && RowsReplaced(v.db)
    ensures var db' := WorkerStep(v, w, a).value.db;
      && (forall r | r in db'.claims && db'.claims[r].cancelRequested ::
          r in v.db.claims && v.db.claims[r].cancelRequested)
      && (forall r | r in db'.claims && db'.claims[r].outcome == Some(WakeFailed(OverlapReplace)) :: Replaced(v.db, r))
  {
    hide WorkerStep, Replaced;
    WorkerDb(v, w, a);
  }

  lemma ConsiderCancels(v: View, groups: Groups, t: TimerId, loadOk: bool, finishOk: bool)
    requires t in groups && v.p.pump.Pass? && v.p.pump.groups == groups
    requires Accounts(v.db.claims, v.p) && CancelsSound(v.db, v.p) && RowsReplaced(v.db)
    requires Extends(v.db, ConsiderClaim(v, groups, t, loadOk, finishOk).db)
    ensures var v' := ConsiderClaim(v, groups, t, loadOk, finishOk); CancelsSound(v'.db, v'.p) && RowsReplaced(v'.db)
  {
    ConsiderShape(v, groups, t, loadOk, finishOk);
    ConsiderRows(v, groups, t, loadOk, finishOk);
    var v', p := ConsiderClaim(v, groups, t, loadOk, finishOk), v.p;
    if groups[t] != [] && !Reserved(p.lanes, t, groups[t][0]) {
      ReserveShape(p.lanes, t, groups[t][0], p.nextToken, Enqueue(p.lanes, t, groups[t][0], p.nextToken));
    }
    assert TokensDistinct(v.p);
    assert t in p.lanes ==> LaneShape(p.lanes[t]);
    hide Accounts, Replaced, ConsiderClaim, Enqueue;
    forall x, r | TokenHeld(v'.p.lanes, x, r) && v'.p.lanes[x].tokens[r] in v'.p.cancelled
      ensures TokenHeld(p.lanes, x, r) && p.lanes[x].tokens[r] in p.cancelled
    {
    }
    CancelsUntouched(v.db, v'.db, p, v'.p);
    RowsReplacedStays(v.db, v'.db);
  }

  lemma SignalCancels(db: Db, p: Proc, p': Proc)
    requires Accounts(db.claims, p) && CancelsSound(db, p) && p.pump.Signal?
    requires p' == p.(pump := Snapshot, cancelled := p.cancelled + TokensOf(p.lanes, p.pump.ids))
    ensures CancelsSound(db, p')
  {
    assert TokensDistinct(p);
    hide Accounts, Replaced;
    forall t, r | TokenHeld(p'.lanes, t, r) && p'.lanes[t].tokens[r] in p'.cancelled ensures Replaced(db, r) {
      if p.lanes[t].tokens[r] !in p.cancelled {
        var t', r' :| t' in p.lanes && r' in p.pump.ids && r' in p.lanes[t'].tokens
            && p.lanes[t'].tokens[r'] == p.lanes[t].tokens[r];
        assert TokenHeld(p.lanes, t', r') && TokenHeld(p.lanes, t, r);
      }
    }
  }

  lemma PumpCancels(v: View, pid: ProcId, a: PumpAct)
    requires PumpStep(v, pid, a).Some?
    requires Accounts(v.db.claims, v.p) && CancelsSound(v.db, v.p) && RowsReplaced(v.db)
    ensures var v' := PumpStep(v, pid, a).value; CancelsSound(v'.db, v'.p) && RowsReplaced(v'.db)
  {
    hide Accounts, Replaced, ConsiderClaim, GroupsPending, CancelRequestedActive, TokensOf, RependAll, Extends,
      CancelsSound, RowsReplaced;
    PumpExtends(v, pid, a);
    var v', p := PumpStep(v, pid, a).value, v.p;
    match a
    case Consider(loadOk, finishOk) => ConsiderCancels(v, p.pump.groups, p.pump.current.value, loadOk, finishOk);
    case SignalTokens => SignalCancels(v.db, p, v'.p);
    case Recover(ok) => RecoverCancels(v.db, p, v'.db, v'.p);
    case Cancels(ok) => RequestsReplaced(v.db); RelabelledCancels(v.db, p, v'.p);
    case _ => RelabelledCancels(v.db, p, v'.p);
  }

  lemma RequestsReplaced(db: Db)
    requires RowsReplaced(db)
    ensures forall r | r in CancelRequestedActive(db) :: Replaced(db, r)
  {
  }

  /** The pump moves on; if it moves to signalling, it signals requested runs. */
  lemma RelabelledCancels(db: Db, p: Proc, p': Proc)
    requires CancelsSound(db, p)
    requires p'.lanes == p.lanes && p'.workers == p.workers && p'.cancelled == p.cancelled
    requires p'.pump.Signal? ==> forall r | r in p'.pump.ids :: Replaced(db, r)
    ensures CancelsSound(db, p')
  {
    hide Replaced;
  }

  lemma RecoverCancels(db: Db, p: Proc, db': Db, p': Proc)
    requires CancelsSound(db, p) && RowsReplaced(db) && Extends(db, db') && (db' == db || db' == RependAll(db))
    requires p'.lanes == p.lanes && p'.workers == p.workers && p'.cancelled == p.cancelled && p'.pump.Starting?
    ensures CancelsSound(db', p') && RowsReplaced(db')
  {
    hide Replaced, RependAll;
    RependAllShape(db);
    CancelsUntouched(db, db', p, p');
    RowsReplacedStays(db, db');
  }

  lemma ConsiderRows(v: View, groups: Groups, t: TimerId, loadOk: bool, finishOk: bool)
    requires t in groups && v.p.pump.Pass? && v.p.pump.groups == groups
    ensures var v' := ConsiderClaim(v, groups, t, loadOk, finishOk);
      && !v'.p.pump.Signal?
      && (forall r | r in v'.db.claims ::
          r in v.db.claims && v'.db.claims[r].cancelRequested == v.db.claims[r].cancelRequested
            && (v'.db.claims[r].outcome == v.db.claims[r].outcome
                || v'.db.claims[r].outcome == Some(WakeFailed(TimerDeleted))))
  {
  }

  lemma CallerKeepsWork(v: View, pid: ProcId, act: Act)
    requires (act.OnBoot? || act.OnDown?) && ThreadStep(v, pid, act).Some?
    ensures var v' := ThreadStep(v, pid, act).value;
      && v'.p.lanes == v.p.lanes && v'.p.workers == v.p.workers && v'.p.cancelled == v.p.cancelled
      && v'.p.pump == v.p.pump
      && (forall r | r in v.db.claims :: r in v'.db.claims && v'.db.claims[r].outcome == v.db.claims[r].outcome
                                           && v'.db.claims[r].cancelRequested == v.db.claims[r].cancelRequested)
      && v'.db.claims.Keys == v.db.claims.Keys
  {
    hide ThreadStep, RependAll;
    CallerDb(v, pid, act);
    CallerQuiet(v, pid, act);
    RependAllShape(v.db);
  }

  lemma CallerCancels(v: View, pid: ProcId, act: Act)
    requires act.OnBoot? || act.OnDown?
    requires ThreadStep(v, pid, act).Some? && CancelsSound(v.db, v.p) && RowsReplaced(v.db)
    ensures var v' := ThreadStep(v, pid, act).value; CancelsSound(v'.db, v'.p) && RowsReplaced(v'.db)
  {
    ThreadExtends(v, pid, act);
    CallerKeepsWork(v, pid, act);
    hide ThreadStep, Replaced;
    var v' := ThreadStep(v, pid, act).value;
    CancelsUntouched(v.db, v'.db, v.p, v'.p);
    RowsReplacedStays(v.db, v'.db);
  }

  lemma NextCancels(s: World, e: Step, s': World)
    requires Accounted(s) && CancelsWorld(s) && Next(s, e, s')
    ensures CancelsWorld(s')
  {
    NextExtends(s, e, s');
    hide ThreadStep, Replaced, RowsReplaced, CancelsSound, Accounts, Fire, Extends, Spawned, NextSeqno;
    if e.Thread? {
      ThreadCancels(ViewOf(s, e.pid), e.pid, e.act);
    } else if e.FireTx? {
      FireRowsReplaced(s.db, e.timer, e.run, e.n, e.rows);
    } else {
      SameRowsReplaced(s.db, s'.db);
    }
    forall q | q in s'.procs ensures CancelsSound(s'.db, s'.procs[q]) {
      if !(e.Thread? && e.pid == q) { OthersCancel(s, e, s', q); }
    }
  }

  lemma OthersCancel(s: World, e: Step, s': World, q: ProcId)
    requires CancelsWorld(s) && Next(s, e, s') && Extends(s.db, s'.db) && q in s'.procs && !(e.Thread? && e.pid == q)
    ensures CancelsSound(s'.db, s'.procs[q])
  {
    hide ThreadStep, Replaced, RowsReplaced, CancelsSound, Fire, Extends, Spawned, NextSeqno;
    if q in s.procs { BystanderCancels(s.db, s'.db, s.procs[q]); }
    else { SpawnedCancels(s'.db, e.workers, e.took); }
  }

  lemma ThreadCancels(v: View, pid: ProcId, act: Act)
    requires ThreadStep(v, pid, act).Some?
    requires Accounts(v.db.claims, v.p) && CancelsSound(v.db, v.p) && RowsReplaced(v.db)
    ensures var v' := ThreadStep(v, pid, act).value; CancelsSound(v'.db, v'.p) && RowsReplaced(v'.db)
  {
    hide WorkerStep, PumpStep, BootStep, DownStep, CancelsSound, RowsReplaced, Accounts;
    match act
    case OnWorker(w, wa) => WorkerCancels(v, w, wa);
    case OnPump(pa) => PumpCancels(v, pid, pa);
    case _ => CallerCancels(v, pid, act);
  }

  lemma BystanderCancels(db: Db, db': Db, p: Proc)
    requires CancelsSound(db, p) && Extends(db, db')
    ensures CancelsSound(db', p)
  {
    CancelsUntouched(db, db', p, p);
  }

  lemma SpawnedCancels(db: Db, workers: nat, took: bool)
    ensures CancelsSound(db, Spawned(workers, took))
  {
  }

  lemma SameRowsReplaced(db: Db, db': Db)
    requires RowsReplaced(db) && db'.claims == db.claims
    ensures RowsReplaced(db')
  {
    RowsReplacedStays(db, db');
  }

  lemma {:induction false} AlwaysCancels(b: Run, i: nat)
    requires IsRun(b) && i < |b.states|
    ensures CancelsWorld(b.states[i])
    decreases i
  {
    if i > 0 {
      AlwaysCancels(b, i - 1);
      AlwaysAccounted(b, i - 1);
      hide CancelsWorld, Accounted, Next;
      NextCancels(b.states[i - 1], b.steps[i - 1], b.states[i]);
    }
  }

  /** Main result: cancellation reaches only a run that a Replace fire of its own timer asked to
      stop, with a newer claim behind it; and only such a run is recorded as `overlap_replace`. */
  lemma OnlyReplacedRunsAreCancelled(b: Run, i: nat, pid: ProcId, w: nat, r: RunId)
    requires IsRun(b) && i < |b.states|
    ensures pid in b.states[i].procs && w < |b.states[i].procs[pid].workers|
            && b.states[i].procs[pid].workers[w].HasToken()
            && b.states[i].procs[pid].workers[w].token in b.states[i].procs[pid].cancelled
            ==> Replaced(b.states[i].db, b.states[i].procs[pid].workers[w].run)
    ensures r in b.states[i].db.claims && b.states[i].db.claims[r].outcome == Some(WakeFailed(OverlapReplace))
            ==> Replaced(b.states[i].db, r)
  {
    AlwaysCancels(b, i);
    AlwaysAccounted(b, i);
    var s := b.states[i];
    assert CancelsWorld(s);
    if pid in s.procs && w < |s.procs[pid].workers| && s.procs[pid].workers[w].HasToken() {
      var x := s.procs[pid].workers[w];
      assert WorkerReserved(s.db.claims, s.procs[pid].lanes, x);
      assert TokenHeld(s.procs[pid].lanes, x.timer, x.run);
    }
  }

  // -- And every replaced run that is held is signalled -------------------

  /** Between reading the requests and signalling, the pump keeps what it read. */
  lemma SignalKept(s: World, e: Step, s': World, pid: ProcId)
    requires Next(s, e, s') && pid in s.procs && pid in s'.procs && s.procs[pid].pump.Signal?
        && s'.procs[pid].pump.Signal?
    ensures s'.procs[pid].pump == s.procs[pid].pump
  {
    hide WorkerStep, PumpStep, BootStep, DownStep, Fire, NextSeqno, ListsPending;
    if e.Thread? && e.pid == pid {
      match e.act
      case OnWorker(w, wa) => WorkerStays(ViewOf(s, pid), w, wa);
      case OnPump(pa) => SignalEnds(ViewOf(s, pid), pid, pa);
      case _ => CallerQuiet(ViewOf(s, pid), pid, e.act);
    }
  }

  lemma SignalEnds(v: View, pid: ProcId, a: PumpAct)
    requires PumpStep(v, pid, a).Some? && v.p.pump.Signal?
    ensures a == SignalTokens && !PumpStep(v, pid, a).value.p.pump.Signal?
  {
    hide ConsiderClaim, GroupsPending, TokensOf, CancelRequestedActive, RependAll;
  }

  lemma {:induction false} SignalKeptAll(b: Run, i: nat, j: nat, pid: ProcId)
    requires IsRun(b) && i < j < |b.states|
    requires forall k | i < k <= j :: pid in b.states[k].procs && b.states[k].procs[pid].pump.Signal?
    ensures b.states[j].procs[pid].pump == b.states[i + 1].procs[pid].pump
    decreases j
  {
    hide Next;
    if i + 1 < j {
      SignalKeptAll(b, i, j - 1, pid);
      SignalKept(b.states[j - 1], b.steps[j - 1], b.states[j], pid);
    }
  }

  lemma ReadsRequests(v: View, pid: ProcId, r: RunId)
    requires PumpStep(v, pid, Cancels(true)).Some?
    requires r in v.db.claims && v.db.claims[r].status == Active && v.db.claims[r].cancelRequested
    ensures var pump := PumpStep(v, pid, Cancels(true)).value.p.pump; pump.Signal? && r in pump.ids
  {
    hide ConsiderClaim, GroupsPending, TokensOf, RependAll;
  }

  lemma SignalsStored(v: View, pid: ProcId, t: TimerId, r: RunId)
    requires PumpStep(v, pid, SignalTokens).Some? && v.p.pump.Signal? && r in v.p.pump.ids
    requires t in v.p.lanes && r in v.p.lanes[t].tokens
    ensures v.p.lanes[t].tokens[r] in PumpStep(v, pid, SignalTokens).value.p.cancelled
  {
    hide ConsiderClaim, GroupsPending, RependAll;
  }

  /** Main result: whatever runs between, once the pump has read the requests and signalled, every run that
      was active and asked to stop when it read them, and whose token is in a lane of the process, is
      cancelled. */
  lemma RequestedRunsAreSignalled(b: Run, i: nat, j: nat, pid: ProcId, t: TimerId, r: RunId)
    requires IsRun(b) && i < j < |b.steps|
    requires b.steps[i] == Thread(pid, OnPump(Cancels(true))) && b.steps[j] == Thread(pid, OnPump(SignalTokens))
    requires forall k | i < k <= j :: pid in b.states[k].procs && b.states[k].procs[pid].pump.Signal?
    requires r in b.states[i].db.claims && b.states[i].db.claims[r].status == Active
             && b.states[i].db.claims[r].cancelRequested
    requires t in b.states[j].procs[pid].lanes && r in b.states[j].procs[pid].lanes[t].tokens
    ensures pid in b.states[j + 1].procs
            && b.states[j].procs[pid].lanes[t].tokens[r] in b.states[j + 1].procs[pid].cancelled
  {
    hide PumpStep, WorkerStep, BootStep, DownStep;
    assert Next(b.states[i], b.steps[i], b.states[i + 1]) && Next(b.states[j], b.steps[j], b.states[j + 1]);
    ReadsRequests(ViewOf(b.states[i], pid), pid, r);
    SignalKeptAll(b, i, j, pid);
    SignalsStored(ViewOf(b.states[j], pid), pid, t, r);
  }

  // -- A reservation keeps its token --------------------------------------

  /** Main result: as long as a lane holds a run's token, step for step, it is the same token; so a signal
      given to a queued claim reaches its execution. */
  lemma TokenIsKept(s: World, e: Step, s': World, pid: ProcId, t: TimerId, r: RunId)
    requires Next(s, e, s') && Accounted(s) && pid in s.procs && pid in s'.procs
    requires t in s.procs[pid].lanes && r in s.procs[pid].lanes[t].tokens
    requires t in s'.procs[pid].lanes && r in s'.procs[pid].lanes[t].tokens
    ensures s'.procs[pid].lanes[t].tokens[r] == s.procs[pid].lanes[t].tokens[r]
  {
    hide WorkerStep, PumpStep, BootStep, DownStep, Fire, NextSeqno, ListsPending, Accounts;
    if e.Thread? && e.pid == pid {
      var v := ViewOf(s, pid);
      match e.act
      case OnWorker(w, wa) => WorkerLanes(v, w, wa);
      case OnPump(pa) => PumpKeepsToken(v, pid, pa, t, r);
      case _ => CallerQuiet(v, pid, e.act);
    }
  }

  lemma PumpKeepsToken(v: View, pid: ProcId, a: PumpAct, t: TimerId, r: RunId)
    requires PumpStep(v, pid, a).Some? && t in v.p.lanes && r in v.p.lanes[t].tokens
    ensures var p' := PumpStep(v, pid, a).value.p;
      t in p'.lanes && r in p'.lanes[t].tokens && p'.lanes[t].tokens[r] == v.p.lanes[t].tokens[r]
  {
    hide ConsiderClaim, TokensOf, GroupsPending, RependAll, CancelRequestedActive;
    if a.Consider? { ConsiderShape(v, v.p.pump.groups, v.p.pump.current.value, a.loadOk, a.finishOk); }
  }
}
