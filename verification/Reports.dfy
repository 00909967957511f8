/** What the worker pool writes to the store: each row that a worker closes holds what was reported of
    its run, and each of its writes changes that one row and nothing else. */
module Reports {
  import opened Options
  import opened Store
  import opened Lanes
  import opened Dispatcher
  import opened Accounting
  import opened MutualExclusion
  import opened ExactlyOnce

  // -- One write ----------------------------------------------------------

  /** Main result: a worker's completion that succeeds closes the row of its run, if it is still open, with
      the very outcome the worker holds, and appends exactly that one event; a failed one, and one on a
      closed row, changes nothing. */
  lemma CommitRecords(s: World, s': World, pid: ProcId, w: nat, ok: bool)
    requires Next(s, Thread(pid, OnWorker(w, Commit(ok))), s')
    ensures w < |s.procs[pid].workers| == |s'.procs[pid].workers| && s.procs[pid].workers[w].Closing?
    ensures s'.starts == s.starts
            && s'.procs[pid].workers[w] == Leaving(s.procs[pid].workers[w].run, s.procs[pid].workers[w].timer)
    ensures var r, o := s.procs[pid].workers[w].run, s.procs[pid].workers[w].outcome;
      s'.db == if ok && r in s.db.claims && s.db.claims[r].status != Finished
               then Db(s.db.claims[r := s.db.claims[r].(status := Finished, outcome := Some(o), closer := ByWorker)],
                       s.db.timers, s.db.outbox + [Event(r, Ended(o))])
               else s.db
  {
  }

  /** The compare-and-swap of a worker activates a pending row and wins, or changes nothing and loses. */
  lemma CasActivates(s: World, s': World, pid: ProcId, w: nat, ok: bool)
    requires Next(s, Thread(pid, OnWorker(w, Cas(ok))), s')
    ensures w < |s.procs[pid].workers| == |s'.procs[pid].workers| && s.procs[pid].workers[w].Checked?
    ensures var r, t := s.procs[pid].workers[w].run, s.procs[pid].workers[w].timer;
      if ok && r in s.db.claims && s.db.claims[r].status == Pending
      then s'.db == Db(s.db.claims[r := s.db.claims[r].(status := Active)], s.db.timers, s.db.outbox)
           && s'.procs[pid].workers[w] == Won(r, t)
      else s'.db == s.db && s'.procs[pid].workers[w] == Dropping(r)
  {
  }

  /** After a panic or a timer-load error an active row is pending again, and nothing else changes. */
  lemma RependReturns(s: World, s': World, pid: ProcId, w: nat, ok: bool)
    requires Next(s, Thread(pid, OnWorker(w, RependRun(ok))), s')
    ensures w < |s.procs[pid].workers| == |s'.procs[pid].workers| && s.procs[pid].workers[w].Repending?
    ensures s'.starts == s.starts
            && s'.procs[pid].workers[w] == Leaving(s.procs[pid].workers[w].run, s.procs[pid].workers[w].timer)
    ensures var r := s.procs[pid].workers[w].run;
      s'.db == if ok && r in s.db.claims && s.db.claims[r].status == Active
               then Db(s.db.claims[r := s.db.claims[r].(status := Pending)], s.db.timers, s.db.outbox)
               else s.db
  {
  }

  // -- Rows hold what was reported ----------------------------------------

  /** At step `j` worker `w` reported outcome `o` of its run `r`, or found the timer of `r` gone. */
  ghost predicate Reported(b: Run, j: int, pid: ProcId, w: nat, r: RunId, o: Outcome)
    requires |b.states| == |b.steps| + 1
  {
    && 0 <= j < |b.steps| && pid in b.states[j].procs && w < |b.states[j].procs[pid].workers|
    && var x := b.states[j].procs[pid].workers[w];
       || (b.steps[j] == Thread(pid, OnWorker(w, Report(o))) && x.Running? && x.run == r)
       || (b.steps[j] == Thread(pid, OnWorker(w, LoadTimer(true))) && x.Moved? && x.run == r
           && x.timer !in b.states[j].db.timers && o == WakeFailed(TimerDeleted))
  }

  ghost predicate ReportedBefore(b: Run, i: nat, pid: ProcId, w: nat, r: RunId, o: Outcome)
    requires |b.states| == |b.steps| + 1
  {
    exists j :: j < i && Reported(b, j, pid, w, r, o)
  }

  ghost predicate ReportedSomewhere(b: Run, i: nat, r: RunId, o: Outcome)
    requires |b.states| == |b.steps| + 1
  {
    exists pid, w :: ReportedBefore(b, i, pid, w, r, o)
  }

  /** The worker holds the outcome reported of its run. */
  ghost predicate HoldsReport(b: Run, i: nat, pid: ProcId, w: nat)
    requires i < |b.states| == |b.steps| + 1
  {
    pid in b.states[i].procs && w < |b.states[i].procs[pid].workers| && b.states[i].procs[pid].workers[w].Closing? ==>
      var x := b.states[i].procs[pid].workers[w]; ReportedBefore(b, i, pid, w, x.run, x.outcome)
  }

  /** Who comes to hold an outcome, and from where. */
  lemma OutcomeSource(v: View, w: nat, a: WorkerAct)
    requires w < |v.p.workers| && WorkerStep(v, w, a).Some?
    requires |WorkerStep(v, w, a).value.p.workers| == |v.p.workers|
    ensures var x, x' := v.p.workers[w], WorkerStep(v, w, a).value.p.workers[w];
      x'.Closing? ==>
        || (x.Running? && x'.run == x.run && a == Report(x'.outcome))
        || (x.Moved? && x'.run == x.run && a == LoadTimer(true) && x.timer !in v.db.timers
            && x'.outcome == WakeFailed(TimerDeleted))
  {
    hide Activate, CommitResult, Repend, Activated, Left, Dropped, MayRelease, MayReport, TokenFor, LaneOf;
  }

  lemma ReportedLater(b: Run, i: nat, pid: ProcId, w: nat, r: RunId, o: Outcome)
    requires |b.states| == |b.steps| + 1 && ReportedBefore(b, i, pid, w, r, o)
    ensures ReportedBefore(b, i + 1, pid, w, r, o)
  {
    hide Reported;
    var j :| j < i && Reported(b, j, pid, w, r, o);
    assert j < i + 1;
  }

  lemma NextHoldsReport(b: Run, i: nat, pid: ProcId, w: nat)
    requires IsRun(b) && i + 1 < |b.states| && HoldsReport(b, i, pid, w)
    ensures HoldsReport(b, i + 1, pid, w)
  {
    hide WorkerStep, PumpStep, BootStep, DownStep, Fire, NextSeqno, ListsPending, ReportedBefore;
    var s, e, s' := b.states[i], b.steps[i], b.states[i + 1];
    assert Next(s, e, s');
    if pid in s'.procs && w < |s'.procs[pid].workers| && s'.procs[pid].workers[w].Closing? {
      var x' := s'.procs[pid].workers[w];
      SpawnedIdle(e);
      if e.Thread? && e.pid == pid && e.act.OnWorker? && e.act.w == w {
        WorkerStays(ViewOf(s, pid), w, e.act.wa);
        OutcomeSource(ViewOf(s, pid), w, e.act.wa);
        assert Reported(b, i, pid, w, x'.run, x'.outcome);
        ReportedNow(b, i, pid, w, x'.run, x'.outcome);
      } else {
        if e.Thread? && e.pid == pid { OthersWorkersStay(ViewOf(s, pid), pid, e.act, w); }
        ReportedLater(b, i, pid, w, x'.run, x'.outcome);
      }
    }
  }

  lemma ReportedNow(b: Run, i: nat, pid: ProcId, w: nat, r: RunId, o: Outcome)
    requires |b.states| == |b.steps| + 1 && Reported(b, i, pid, w, r, o)
    ensures ReportedBefore(b, i + 1, pid, w, r, o)
  {
    hide Reported;
    assert i < i + 1;
  }

  lemma SpawnedIdle(e: Step)
    ensures e.Spawn? ==> forall w | 0 <= w < |Spawned(e.workers, e.took).workers| ::
        !Spawned(e.workers, e.took).workers[w].Closing?
  {
  }

  lemma OthersWorkersStay(v: View, pid: ProcId, act: Act, w: nat)
    requires ThreadStep(v, pid, act).Some? && !(act.OnWorker? && act.w == w)
    ensures var ws, ws' := v.p.workers, ThreadStep(v, pid, act).value.p.workers;
      |ws'| == |ws| && (w < |ws| ==> ws'[w] == ws[w])
  {
    hide WorkerStep, PumpStep, BootStep, DownStep;
    match act
    case OnWorker(u, wa) => WorkerStays(v, u, wa);
    case OnPump(pa) => PumpKeepsWorkers(v, pid, pa);
    case _ => CallerQuiet(v, pid, act);
  }

  lemma {:induction false} AlwaysHoldsReport(b: Run, i: nat, pid: ProcId, w: nat)
    requires IsRun(b) && i < |b.states|
    ensures HoldsReport(b, i, pid, w)
    decreases i
  {
    hide IsRun, HoldsReport;
    if i > 0 {
      AlwaysHoldsReport(b, i - 1, pid, w);
      NextHoldsReport(b, i - 1, pid, w);
    } else {
      NobodyAtFirst(b, pid, w);
    }
  }

  lemma NobodyAtFirst(b: Run, pid: ProcId, w: nat)
    requires IsRun(b)
    ensures HoldsReport(b, 0, pid, w)
  {
  }

  predicate ClosedByWorker(db: Db, r: RunId) { r in db.claims && db.claims[r].closer == ByWorker }

  /** Only a worker's completion marks a row as closed by a worker. */
  lemma ClosedByWorkerSource(s: World, e: Step, s': World, r: RunId)
    requires Next(s, e, s') && !ClosedByWorker(s.db, r) && ClosedByWorker(s'.db, r)
    ensures e.Thread? && e.act.OnWorker? && e.pid in s.procs && e.act.w < |s.procs[e.pid].workers|
    ensures var x := s.procs[e.pid].workers[e.act.w];
      x.Closing? && x.run == r && s'.db.claims[r].outcome == Some(x.outcome)
  {
    hide WorkerStep, PumpStep, BootStep, DownStep, Fire, NextSeqno, ListsPending;
    match e
    case FireTx(t, x, n, rows) => FireClosesNothingByWorker(s.db, t, x, n, rows, r);
    case Thread(pid, OnWorker(w, wa)) =>
      WorkerDb(ViewOf(s, pid), w, wa);
      WorkerCloses(s.db, s.procs[pid].workers[w], r);
      hide Activate, Repend, CommitResult;
    case Thread(pid, act) => OthersCloseNothingByWorker(ViewOf(s, pid), pid, act, r);
    case _ =>
  }

  lemma WorkerCloses(db: Db, x: Worker, r: RunId)
    ensures x.Checked? && ClosedByWorker(Activate(db, x.run).0, r) ==> ClosedByWorker(db, r)
    ensures x.Repending? && ClosedByWorker(Repend(db, x.run), r) ==> ClosedByWorker(db, r)
    ensures x.Closing? && ClosedByWorker(CommitResult(db, x.run, x.outcome), r) && !ClosedByWorker(db, r) ==>
        x.run == r && CommitResult(db, x.run, x.outcome).claims[r].outcome == Some(x.outcome)
  {
  }

  lemma OthersCloseNothingByWorker(v: View, pid: ProcId, act: Act, r: RunId)
    requires ThreadStep(v, pid, act).Some? && !act.OnWorker? && !ClosedByWorker(v.db, r)
    ensures !ClosedByWorker(ThreadStep(v, pid, act).value.db, r)
  {
    hide WorkerStep, PumpStep, BootStep, DownStep, RependAll;
    RependAllShape(v.db);
    match act
    case OnPump(pa) => PumpDb(v, pid, pa);
    case _ => CallerDb(v, pid, act);
  }

  lemma FireClosesNothingByWorker(db: Db, t: TimerId, x: RunId, n: nat, rows: seq<RunId>, r: RunId)
    requires t in db.timers && x !in db.claims && !ClosedByWorker(db, r)
    ensures !ClosedByWorker(Fire(db, t, x, n, rows), r)
  {
    ReplaceClosers(Emit(db, Event(x, Fired)), rows);
  }

  lemma {:induction false} ReplaceClosers(db: Db, rows: seq<RunId>)
    ensures var db' := ReplacePending(db, rows);
      db'.claims.Keys == db.claims.Keys
      && forall r | r in db.claims :: db'.claims[r].closer == db.claims[r].closer || db'.claims[r].closer == ByFire
    decreases |rows|
  {
    if rows != [] {
      var outcome := WakeFailed(ReplacedBeforeStart);
      var (closed, transitioned) := Finish(db, rows[0], outcome, ByFire);
      ReplaceClosers(if transitioned then Emit(closed, Event(rows[0], Ended(outcome))) else closed, rows[1..]);
    }
  }

  /** A row that a worker closed stays as it is. */
  lemma ClosedRowStays(b: Run, i: nat, r: RunId)
    requires IsRun(b) && i + 1 < |b.states| && ClosedByWorker(b.states[i].db, r)
    ensures r in b.states[i + 1].db.claims && b.states[i + 1].db.claims[r] == b.states[i].db.claims[r]
  {
    hide Next, OneResult;
    AlwaysAgrees(b, i);
    assert RowWellFormed(b.states[i].db.claims[r]);
    NextExtends(b.states[i], b.steps[i], b.states[i + 1]);
  }

  /** Main result: in every run a row closed by a worker holds an outcome that a worker reported of that
      very run, or that its timer was found deleted. */
  lemma {:induction false} RowsHoldReports(b: Run, i: nat, r: RunId)
    requires IsRun(b) && i < |b.states| && ClosedByWorker(b.states[i].db, r)
    ensures b.states[i].db.claims[r].outcome.Some?
    ensures ReportedSomewhere(b, i, r, b.states[i].db.claims[r].outcome.value)
    decreases i
  {
    hide Next, ReportedBefore;
    if i > 0 {
      if ClosedByWorker(b.states[i - 1].db, r) {
        RowsHoldReports(b, i - 1, r);
        ClosedRowStays(b, i - 1, r);
        var o := b.states[i].db.claims[r].outcome.value;
        var pid, w :| ReportedBefore(b, i - 1, pid, w, r, o);
        ReportedLater(b, i - 1, pid, w, r, o);
      } else {
        var s, e := b.states[i - 1], b.steps[i - 1];
        ClosedByWorkerSource(s, e, b.states[i], r);
        AlwaysHoldsReport(b, i - 1, e.pid, e.act.w);
        ReportedLater(b, i - 1, e.pid, e.act.w, r, s.procs[e.pid].workers[e.act.w].outcome);
      }
    }
  }
}
