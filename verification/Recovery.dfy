/** Recovery: the lock owner hands claims out only after returning its predecessor's `active`
    claims to `pending`, and from then on every `active` claim is held by one of its workers.
    Stated per timer, for runs in which no store write on that timer's claims fails. */
module Recovery {
  import opened Options
  import opened Store
  import opened Lanes
  import opened Dispatcher
  import opened Accounting
  import opened MutualExclusion

  predicate Of(db: Db, t: TimerId, r: RunId) { r in db.claims && db.claims[r].timer == t }

  /** Worker `w` handles a claim of `t`. */
  predicate Handles(db: Db, p: Proc, w: nat, t: TimerId) {
    w < |p.workers| && p.workers[w].Busy() && Of(db, t, p.workers[w].run)
  }

  /** A write of this act on claims of `t` does not fail: a worker's on one of them, or recovery's on
      all rows. Reads may fail, and so may the writes on other timers' claims. */
  predicate ActWritesOk(db: Db, p: Proc, act: Act, t: TimerId) {
    match act
    case OnWorker(w, Commit(ok)) => ok || !Handles(db, p, w, t)
    case OnWorker(w, RependRun(ok)) => ok || !Handles(db, p, w, t)
    case OnPump(Recover(ok)) => ok
    case OnBoot(BootRepend(ok)) => ok
    case _ => true
  }

  predicate WritesOk(s: World, e: Step, t: TimerId) {
    e.Thread? && e.pid in s.procs ==> ActWritesOk(s.db, s.procs[e.pid], e.act, t)
  }

  ghost predicate Owed(ws: seq<Worker>, r: RunId) {
    exists w :: 0 <= w < |ws| && ws[w].Owes() && ws[w].run == r
  }

  /** Every `active` row of the timer has a worker that owes it a result. */
  ghost predicate AllOwed(db: Db, p: Proc, t: TimerId) {
    forall r | Of(db, t, r) && db.claims[r].status == Active :: Owed(p.workers, r)
  }

  /** The threads of one process start work only after recovery. */
  ghost predicate RecoveredFirst(p: Proc) {
    && (p.shutdown.Serving? ==> !p.pump.Halted? && p.level != Stopping)
    && (p.boot.BootRecover? && !p.pump.Halted? ==> p.ownsLock)
    && (!p.pump.Halted? && (p.level == Started || p.boot.BootPublish?) ==> p.ownsLock && p.recovered)
    && (p.pump.Guard? ==> p.ownsLock)
    && (p.pump.Starting? || p.pump.Guard? || PastGuard(p.pump) ==> p.recovered)
    && ((SomeBusy(p.workers) || p.channel != []) && !Joined(p) ==> p.recovered)
  }

  ghost predicate RecoverySound(s: World, t: TimerId) {
    forall pid | pid in s.procs ::
      && RecoveredFirst(s.procs[pid])
      && (s.lock == Some(pid) && s.procs[pid].recovered ==> AllOwed(s.db, s.procs[pid], t))
  }

  // -- Local ordering of recovery and work --------------------------------

  lemma WorkerRecoveredFirst(v: View, w: nat, a: WorkerAct)
    requires w < |v.p.workers| && WorkerStep(v, w, a).Some?
    requires RecoveredFirst(v.p)
    ensures RecoveredFirst(WorkerStep(v, w, a).value.p)
  {
    WorkerStays(v, w, a);
    hide WorkerStep;
    var p, p' := v.p, WorkerStep(v, w, a).value.p;
    if SomeBusy(p'.workers) && !SomeBusy(p.workers) {
      var u :| 0 <= u < |p'.workers| && p'.workers[u].Busy();
      assert u == w;
    }
  }

  lemma PumpRecoveredFirst(v: View, pid: ProcId, a: PumpAct, t: TimerId)
    requires PumpStep(v, pid, a).Some? && ActWritesOk(v.db, v.p, OnPump(a), t)
    requires RecoveredFirst(v.p) && LockSound(v.lock, pid, v.p)
    ensures RecoveredFirst(PumpStep(v, pid, a).value.p)
  {
    match a
    case Consider(loadOk, finishOk) =>
      ConsiderShape(v, v.p.pump.groups, v.p.pump.current.value, loadOk, finishOk);
      ConsiderStays(v, v.p.pump.groups, v.p.pump.current.value, loadOk, finishOk);
      hide ConsiderClaim;
    case _ =>
  }

  lemma CallerRecoveredFirst(v: View, pid: ProcId, act: Act, t: TimerId)
    requires act.OnBoot? || act.OnDown?
    requires ThreadStep(v, pid, act).Some? && ActWritesOk(v.db, v.p, act, t)
    requires RecoveredFirst(v.p) && LockSound(v.lock, pid, v.p)
    ensures RecoveredFirst(ThreadStep(v, pid, act).value.p)
  {
    hide WorkerStep, PumpStep;
  }

  lemma ThreadRecoveredFirst(v: View, pid: ProcId, act: Act, t: TimerId)
    requires ThreadStep(v, pid, act).Some? && ActWritesOk(v.db, v.p, act, t)
    requires RecoveredFirst(v.p) && LockSound(v.lock, pid, v.p)
    ensures RecoveredFirst(ThreadStep(v, pid, act).value.p)
  {
    hide RecoveredFirst, WorkerStep, PumpStep, BootStep, DownStep;
    match act
    case OnWorker(w, wa) => WorkerRecoveredFirst(v, w, wa);
    case OnPump(pa) => PumpRecoveredFirst(v, pid, pa, t);
    case _ => CallerRecoveredFirst(v, pid, act, t);
  }

  // -- Active rows keep their workers -------------------------------------

  /** A row that is active after a worker's step was active before, or the worker owes it now;
      and the worker stops owing its run only by closing the row or giving it back. */
  lemma WorkerActivity(v: View, w: nat, a: WorkerAct, t: TimerId, r: RunId)
    requires w < |v.p.workers| && WorkerStep(v, w, a).Some? && ActWritesOk(v.db, v.p, OnWorker(w, a), t)
    requires |WorkerStep(v, w, a).value.p.workers| == |v.p.workers|
    requires var db' := WorkerStep(v, w, a).value.db; Of(db', t, r) && db'.claims[r].status == Active
    ensures var x, x' := v.p.workers[w], WorkerStep(v, w, a).value.p.workers[w];
      || (x'.Owes() && x'.run == r)
      || (Of(v.db, t, r) && v.db.claims[r].status == Active && !(x.Owes() && x.run == r))
  {
    hide WorkerStep, ActWritesOk, Activate, CommitResult, Repend;
    WorkerDebt(v, w, a, t);
    DebtRows(v.db, v.p.workers[w], t, r);
  }

  /** How the debt of a worker and the rows change together. */
  lemma WorkerDebt(v: View, w: nat, a: WorkerAct, t: TimerId)
    requires w < |v.p.workers| && WorkerStep(v, w, a).Some? && ActWritesOk(v.db, v.p, OnWorker(w, a), t)
    requires |WorkerStep(v, w, a).value.p.workers| == |v.p.workers|
    ensures var db', x, x' := WorkerStep(v, w, a).value.db, v.p.workers[w], WorkerStep(v, w, a).value.p.workers[w];
      || (db' == v.db && (x.Owes() ==> x'.Owes() && x'.run == x.run))
      || (db' == v.db && x.Owes() && !Of(v.db, t, x.run))
      || (x.Checked? && x'.Won? && x'.run == x.run && db' == Activate(v.db, x.run).0)
      || (x.Checked? && db' == v.db)
      || (x.Checked? && db' == Activate(v.db, x.run).0 && !Activate(v.db, x.run).1)
      || (x.Closing? && db' == CommitResult(v.db, x.run, x.outcome))
      || (x.Repending? && db' == Repend(v.db, x.run))
  {
    hide Activate, CommitResult, Repend, Activated, Left, Dropped, MayRelease, MayReport, TokenFor, LaneOf;
  }

  lemma DebtRows(db: Db, x: Worker, t: TimerId, r: RunId)
    ensures x.Checked? ==> var (db', won) := Activate(db, x.run);
              && (won && Of(db', t, r) && db'.claims[r].status == Active ==>
                    r == x.run || (Of(db, t, r) && db.claims[r].status == Active))
              && (!won ==> db' == db)
    ensures x.Closing? ==> var db' := CommitResult(db, x.run, x.outcome);
              Of(db', t, r) && db'.claims[r].status == Active ==>
                  Of(db, t, r) && db.claims[r].status == Active && r != x.run
    ensures x.Repending? ==> var db' := Repend(db, x.run);
              Of(db', t, r) && db'.claims[r].status == Active ==>
                  Of(db, t, r) && db.claims[r].status == Active && r != x.run
  {
  }

  lemma WorkerAllOwed(v: View, w: nat, a: WorkerAct, t: TimerId)
    requires w < |v.p.workers| && WorkerStep(v, w, a).Some? && ActWritesOk(v.db, v.p, OnWorker(w, a), t)
    requires AllOwed(v.db, v.p, t)
    ensures var v' := WorkerStep(v, w, a).value; AllOwed(v'.db, v'.p, t)
  {
    WorkerStays(v, w, a);
    var v' := WorkerStep(v, w, a).value;
    var ws, ws' := v.p.workers, v'.p.workers;
    forall r | Of(v'.db, t, r) && v'.db.claims[r].status == Active ensures Owed(ws', r) {
      WorkerActivity(v, w, a, t, r);
      hide WorkerStep;
      if !(ws'[w].Owes() && ws'[w].run == r) {
        assert Owed(ws, r);
        var u :| 0 <= u < |ws| && ws[u].Owes() && ws[u].run == r;
        assert ws'[u] == ws[u];
      }
    }
  }

  /** What the pump and the callers can do to rows: never make one active. */
  lemma OthersActivateNothing(v: View, pid: ProcId, act: Act)
    requires !act.OnWorker? && ThreadStep(v, pid, act).Some?
    ensures var v' := ThreadStep(v, pid, act).value;
      && v'.p.workers == v.p.workers
      && (forall r | r in v'.db.claims && v'.db.claims[r].status == Active ::
            r in v.db.claims && v.db.claims[r].status == Active)
      && (v'.p.recovered ==> v.p.recovered || (forall r | r in v'.db.claims :: v'.db.claims[r].status != Active))
      && (v'.lock == Some(pid) && v'.p.recovered ==>
          v.lock == Some(pid) || (forall r | r in v'.db.claims :: v'.db.claims[r].status != Active))
  {
    hide WorkerStep, PumpStep;
    match act
    case OnPump(pa) => PumpActivatesNothing(v, pid, pa);
    case _ =>
  }

  lemma PumpActivatesNothing(v: View, pid: ProcId, a: PumpAct)
    requires PumpStep(v, pid, a).Some?
    ensures var v' := PumpStep(v, pid, a).value;
      && v'.p.workers == v.p.workers
      && (forall r | r in v'.db.claims && v'.db.claims[r].status == Active ::
            r in v.db.claims && v.db.claims[r].status == Active)
      && (v'.p.recovered ==> v.p.recovered || (forall r | r in v'.db.claims :: v'.db.claims[r].status != Active))
      && (v'.lock == Some(pid) && v'.p.recovered ==>
          v.lock == Some(pid) || (forall r | r in v'.db.claims :: v'.db.claims[r].status != Active))
  {
    hide ConsiderClaim, GroupsPending, TokensOf, CancelRequestedActive;
    match a
    case Consider(loadOk, finishOk) =>
      ConsiderShape(v, v.p.pump.groups, v.p.pump.current.value, loadOk, finishOk);
      ConsiderStays(v, v.p.pump.groups, v.p.pump.current.value, loadOk, finishOk);
      ConsiderActivatesNothing(v, v.p.pump.groups, v.p.pump.current.value, loadOk, finishOk);
    case Recover(ok) =>
    case _ =>
  }

  lemma ConsiderActivatesNothing(v: View, groups: Groups, t: TimerId, loadOk: bool, finishOk: bool)
    requires t in groups
    ensures var v' := ConsiderClaim(v, groups, t, loadOk, finishOk);
      forall r | r in v'.db.claims && v'.db.claims[r].status == Active ::
          r in v.db.claims && v.db.claims[r].status == Active
  {
    hide Enqueue, LaneOf, Reserved;
  }

  lemma ThreadAllOwed(v: View, pid: ProcId, act: Act, t: TimerId)
    requires ThreadStep(v, pid, act).Some? && ActWritesOk(v.db, v.p, act, t)
    requires v.lock == Some(pid) && v.p.recovered ==> AllOwed(v.db, v.p, t)
    ensures var v' := ThreadStep(v, pid, act).value;
      v'.lock == Some(pid) && v'.p.recovered ==> AllOwed(v'.db, v'.p, t)
  {
    var v' := ThreadStep(v, pid, act).value;
    match act
    case OnWorker(w, wa) =>
      WorkerStays(v, w, wa);
      if v'.lock == Some(pid) && v'.p.recovered { WorkerAllOwed(v, w, wa, t); }
    case _ => OthersActivateNothing(v, pid, act);
  }

  lemma FireActivatesNothing(db: Db, t: TimerId, r: RunId, n: nat, rows: seq<RunId>)
    requires t in db.timers && r !in db.claims
    ensures forall x | x in Fire(db, t, r, n, rows).claims && Fire(db, t, r, n, rows).claims[x].status == Active ::
              x in db.claims && db.claims[x].status == Active
  {
    ReplacePendingShape(Emit(db, Event(r, Fired)), rows);
  }

  lemma OtherProcessAllOwed(s: World, e: Step, s': World, q: ProcId, t: TimerId)
    requires Locked(s) && Next(s, e, s') && q in s.procs && q in s'.procs && s'.procs[q] == s.procs[q]
    requires !(e.Thread? && e.pid == q)
    requires s.lock == Some(q) && s.procs[q].recovered && AllOwed(s.db, s.procs[q], t)
    ensures AllOwed(s'.db, s'.procs[q], t)
  {
    NextExtends(s, e, s');
    if e.FireTx? { FireActivatesNothing(s.db, e.timer, e.run, e.n, e.rows); }
    if e.Thread? {
      match e.act
      case OnWorker(w, wa) =>
        WorkerStays(ViewOf(s, e.pid), w, wa);
        if s'.db != s.db { WorkerHoldsLock(s, e.pid, w, s.procs[e.pid].workers[w].run); }
      case _ => OthersActivateNothing(ViewOf(s, e.pid), e.pid, e.act);
    }
  }

  lemma NextRecoverySound(s: World, e: Step, s': World, t: TimerId)
    requires Locked(s) && Locked(s') && RecoverySound(s, t) && Next(s, e, s') && WritesOk(s, e, t)
    ensures RecoverySound(s', t)
  {
    forall q | q in s'.procs
      ensures RecoveredFirst(s'.procs[q])
      ensures s'.lock == Some(q) && s'.procs[q].recovered ==> AllOwed(s'.db, s'.procs[q], t)
    {
      hide WorkerStep, PumpStep, BootStep, DownStep, AllOwed, RecoveredFirst;
      if e.Thread? && q == e.pid {
        assert LockSound(s.lock, q, s.procs[q]);
        ThreadRecoveredFirst(ViewOf(s, q), q, e.act, t);
        ThreadAllOwed(ViewOf(s, q), q, e.act, t);
      } else if q in s.procs {
        if s'.lock == Some(q) && s'.procs[q].recovered {
          LockStays(s, e, s', q);
          OtherProcessAllOwed(s, e, s', q, t);
        }
      } else {
        SpawnedRecoveredFirst(e.workers, e.took);
      }
    }
  }

  /** Only the process itself can take the lock for itself. */
  lemma LockStays(s: World, e: Step, s': World, q: ProcId)
    requires Locked(s) && Next(s, e, s') && q in s.procs && q in s'.procs && !(e.Thread? && e.pid == q)
    requires s'.lock == Some(q)
    ensures s.lock == Some(q)
  {
    if e.Thread? {
      ThreadLockSound(ViewOf(s, e.pid), e.pid, e.act);
    }
  }

  lemma SpawnedRecoveredFirst(workers: nat, took: bool)
    ensures RecoveredFirst(Spawned(workers, took)) && !Spawned(workers, took).recovered
  {
  }

  lemma {:induction false} AlwaysRecoverySound(b: Run, i: nat, t: TimerId)
    requires IsRun(b) && i < |b.states| && (forall j | 0 <= j < i :: WritesOk(b.states[j], b.steps[j], t))
    ensures RecoverySound(b.states[i], t)
    decreases i
  {
    if i > 0 {
      AlwaysRecoverySound(b, i - 1, t);
      AlwaysLocked(b, i - 1);
      AlwaysLocked(b, i);
      NextRecoverySound(b.states[i - 1], b.steps[i - 1], b.states[i], t);
    }
  }

  // -- Main results -------------------------------------------------------

  /** While a process serves and is STARTED, it owns the OS lock and every `active` claim of a timer
      whose writes succeed is held by one of its live workers. */
  lemma StartedOwnsEveryActiveClaim(b: Run, i: nat, pid: ProcId, t: TimerId, r: RunId)
    requires IsRun(b) && i < |b.states| && (forall j | 0 <= j < i :: WritesOk(b.states[j], b.steps[j], t))
    requires pid in b.states[i].procs
    requires b.states[i].procs[pid].shutdown.Serving? && b.states[i].procs[pid].level == Started
    ensures b.states[i].lock == Some(pid)
    ensures Of(b.states[i].db, t, r) && b.states[i].db.claims[r].status == Active
            ==> Owed(b.states[i].procs[pid].workers, r)
  {
    AlwaysRecoverySound(b, i, t);
    AlwaysLocked(b, i);
    assert LockSound(b.states[i].lock, pid, b.states[i].procs[pid]);
    assert RecoverySound(b.states[i], t);
  }

  /** No hint is out, and the pump reads no pending row, before recovery has run. */
  lemma NoWorkBeforeRecovery(b: Run, i: nat, pid: ProcId, t: TimerId)
    requires IsRun(b) && i < |b.states| && (forall j | 0 <= j < i :: WritesOk(b.states[j], b.steps[j], t))
    requires pid in b.states[i].procs && !Joined(b.states[i].procs[pid])
    requires b.states[i].procs[pid].channel != [] || PastGuard(b.states[i].procs[pid].pump)
             || SomeBusy(b.states[i].procs[pid].workers)
    ensures b.states[i].procs[pid].recovered && b.states[i].lock == Some(pid)
    ensures AllOwed(b.states[i].db, b.states[i].procs[pid], t)
  {
    AlwaysRecoverySound(b, i, t);
    AlwaysLocked(b, i);
    assert LockSound(b.states[i].lock, pid, b.states[i].procs[pid]);
    assert RecoverySound(b.states[i], t);
  }

  /** A crash or shutdown strands no claim: whichever process holds the lock next, once it has
      recovered every unfinished claim is pending or in the hands of one of its live workers. */
  lemma NothingStranded(b: Run, i: nat, pid: ProcId, t: TimerId, r: RunId)
    requires IsRun(b) && i < |b.states| && (forall j | 0 <= j < i :: WritesOk(b.states[j], b.steps[j], t))
    requires b.states[i].lock == Some(pid) && pid in b.states[i].procs && b.states[i].procs[pid].recovered
    requires Of(b.states[i].db, t, r) && Unfinished(b.states[i].db.claims[r])
    ensures b.states[i].db.claims[r].status == Pending || Owed(b.states[i].procs[pid].workers, r)
    ensures Joined(b.states[i].procs[pid]) ==> b.states[i].db.claims[r].status == Pending
  {
    AlwaysRecoverySound(b, i, t);
    AlwaysLocked(b, i);
    assert RecoverySound(b.states[i], t);
    assert LockSound(b.states[i].lock, pid, b.states[i].procs[pid]);
  }
}
