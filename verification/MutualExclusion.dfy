/** Mutual exclusion over whole multi-process runs: one process works at a time, one worker
    holds a run at a time, and a timer never has more executing claims than its limit. */
module MutualExclusion {
  import opened Options
  import opened Store
  import opened Lanes
  import opened Dispatcher
  import opened Accounting

  predicate PastGuard(pump: Pump) {
    pump.ReadCancels? || pump.Signal? || pump.Snapshot? || pump.LaneWait? || pump.Pass?
  }

  predicate PumpOwns(pump: Pump) { pump.Took? || pump.Recovering? || pump.Starting? || PastGuard(pump) }

  ghost predicate SomeBusy(ws: seq<Worker>) { exists w :: 0 <= w < |ws| && ws[w].Busy() }

  /** The process works on claims: its pump is past the ownership check, or hints are out. */
  ghost predicate Engaged(p: Proc) { PumpOwns(p.pump) || SomeBusy(p.workers) || p.channel != [] }

  /** What a process knows about the OS lock. Between releasing the OS lock and clearing the
      flag (`Clearing`) the flag is stale; by then every thread has been joined. */
  ghost predicate LockSound(lock: Option<ProcId>, pid: ProcId, p: Proc) {
    && (Joined(p) ==> AllExited(p))
    && (p.ownsLock && !p.shutdown.Clearing? ==> lock == Some(pid))
    && (Engaged(p) && !Joined(p) ==> p.ownsLock)
  }

  lemma WorkerLockSound(v: View, pid: ProcId, w: nat, a: WorkerAct)
    requires w < |v.p.workers| && WorkerStep(v, w, a).Some?
    requires LockSound(v.lock, pid, v.p)
    ensures var v' := WorkerStep(v, w, a).value;
      LockSound(v'.lock, pid, v'.p) && v'.lock == v.lock && (a.OpenStore? || a.Recv? || SomeBusy(v.p.workers))
  {
    hide Activate, CommitResult, Repend, Activated, Left, Dropped, MayRelease, MayReport, TokenFor, LaneOf;
    var p, p' := v.p, WorkerStep(v, w, a).value.p;
    assert p'.workers == p.workers[w := p'.workers[w]];
    if SomeBusy(p'.workers) && !SomeBusy(p.workers) {
      var u :| 0 <= u < |p'.workers| && p'.workers[u].Busy();
      assert u == w;
      assert p.channel != [];
    }
  }

  lemma PumpLockSound(v: View, pid: ProcId, a: PumpAct)
    requires PumpStep(v, pid, a).Some?
    requires LockSound(v.lock, pid, v.p)
    ensures var v' := PumpStep(v, pid, a).value;
      && LockSound(v'.lock, pid, v'.p)
      && (v'.lock == v.lock || (v.lock == None && v'.lock == Some(pid)))
  {
    match a
    case Consider(loadOk, finishOk) =>
      ConsiderShape(v, v.p.pump.groups, v.p.pump.current.value, loadOk, finishOk);
      ConsiderStays(v, v.p.pump.groups, v.p.pump.current.value, loadOk, finishOk);
      hide ConsiderClaim;
    case _ =>
  }

  lemma ConsiderStays(v: View, groups: Groups, t: TimerId, loadOk: bool, finishOk: bool)
    requires t in groups
    ensures var v' := ConsiderClaim(v, groups, t, loadOk, finishOk);
      v'.lock == v.lock && v'.starts == v.starts && v'.p.ownsLock == v.p.ownsLock && v'.p.shutdown == v.p.shutdown
      && v'.p.level == v.p.level && v'.p.recovered == v.p.recovered && v'.p.boot == v.p.boot
      && v'.p.sender == v.p.sender
      && (v'.p.pump.Pass? || v'.p.pump.Top?)
  {
  }

  lemma PumpKeepsWorkers(v: View, pid: ProcId, a: PumpAct)
    requires PumpStep(v, pid, a).Some?
    ensures PumpStep(v, pid, a).value.p.workers == v.p.workers
  {
    hide ConsiderClaim, GroupsPending, TokensOf, CancelRequestedActive, RependAll;
    if a.Consider? { ConsiderShape(v, v.p.pump.groups, v.p.pump.current.value, a.loadOk, a.finishOk); }
  }

  lemma PumpStartsNothing(v: View, pid: ProcId, a: PumpAct)
    requires PumpStep(v, pid, a).Some?
    ensures PumpStep(v, pid, a).value.starts == v.starts
  {
    hide ConsiderClaim, GroupsPending, TokensOf, CancelRequestedActive, RependAll;
    if a.Consider? { ConsiderStays(v, v.p.pump.groups, v.p.pump.current.value, a.loadOk, a.finishOk); }
  }

  lemma CallerQuiet(v: View, pid: ProcId, act: Act)
    requires act.OnBoot? || act.OnDown?
    requires ThreadStep(v, pid, act).Some?
    ensures var v' := ThreadStep(v, pid, act).value;
      v'.p.channel == v.p.channel && v'.p.workers == v.p.workers && v'.p.lanes == v.p.lanes && v'.starts == v.starts
      && v'.p.pump == v.p.pump && v'.p.cancelled == v.p.cancelled
  {
    hide WorkerStep, PumpStep, RependAll;
  }

  lemma CallerLockSound(v: View, pid: ProcId, act: Act)
    requires act.OnBoot? || act.OnDown?
    requires ThreadStep(v, pid, act).Some?
    requires LockSound(v.lock, pid, v.p)
    ensures var v' := ThreadStep(v, pid, act).value;
      && LockSound(v'.lock, pid, v'.p)
      && (v'.lock == v.lock || (v.lock == None && v'.lock == Some(pid)) || (v.lock == Some(pid) && v'.lock == None))
  {
    hide WorkerStep, PumpStep, BootStep, DownStep, LockSound;
    if act.OnBoot? { BootLockSound(v, pid, act.ba); } else { DownLockSound(v, pid, act.da); }
  }

  lemma BootLockSound(v: View, pid: ProcId, a: BootAct)
    requires BootStep(v, pid, a).Some? && LockSound(v.lock, pid, v.p)
    ensures var v' := BootStep(v, pid, a).value;
      LockSound(v'.lock, pid, v'.p) && (v'.lock == v.lock || (v.lock == None && v'.lock == Some(pid)))
  {
    hide RependAll;
  }

  lemma DownLockSound(v: View, pid: ProcId, a: DownAct)
    requires DownStep(v, pid, a).Some? && LockSound(v.lock, pid, v.p)
    ensures var v' := DownStep(v, pid, a).value;
      LockSound(v'.lock, pid, v'.p) && (v'.lock == v.lock || (v.lock == Some(pid) && v'.lock == None))
  {
  }

  lemma ThreadLockSound(v: View, pid: ProcId, act: Act)
    requires ThreadStep(v, pid, act).Some?
    requires LockSound(v.lock, pid, v.p)
    ensures var v' := ThreadStep(v, pid, act).value;
      && LockSound(v'.lock, pid, v'.p)
      && (v'.lock == v.lock || (v.lock == None && v'.lock == Some(pid)) || (v.lock == Some(pid) && v'.lock == None))
  {
    hide LockSound, WorkerStep, PumpStep, BootStep, DownStep;
    match act
    case OnWorker(w, wa) => WorkerLockSound(v, pid, w, wa);
    case OnPump(pa) => PumpLockSound(v, pid, pa);
    case _ => CallerLockSound(v, pid, act);
  }

  ghost predicate Locked(s: World) {
    && (s.lock.Some? ==> s.lock.value in s.procs)
    && (forall pid | pid in s.procs :: LockSound(s.lock, pid, s.procs[pid]))
  }

  lemma NextLocked(s: World, e: Step, s': World)
    requires Locked(s) && Next(s, e, s')
    ensures Locked(s')
  {
    forall q | q in s'.procs ensures LockSound(s'.lock, q, s'.procs[q]) {
      if e.Thread? {
        ThreadLockSound(ViewOf(s, e.pid), e.pid, e.act);
        hide ThreadStep;
        if q != e.pid { assert LockSound(s.lock, q, s.procs[q]); }
      } else if q in s.procs { assert LockSound(s.lock, q, s.procs[q]); }
    }
    if e.Thread? { ThreadLockSound(ViewOf(s, e.pid), e.pid, e.act); }
  }

  lemma {:induction false} AlwaysLocked(b: Run, i: nat)
    requires IsRun(b) && i < |b.states|
    ensures Locked(b.states[i])
    decreases i
  {
    if i > 0 {
      AlwaysLocked(b, i - 1);
      NextLocked(b.states[i - 1], b.steps[i - 1], b.states[i]);
    }
  }

  // -- No run is executed twice at once -----------------------------------

  ghost predicate WorksOn(s: World, pid: ProcId, w: nat, r: RunId) {
    pid in s.procs && w < |s.procs[pid].workers| && s.procs[pid].workers[w].Busy() && s.procs[pid].workers[w].run == r
  }

  lemma WorkerHoldsLock(s: World, pid: ProcId, w: nat, r: RunId)
    requires Locked(s) && WorksOn(s, pid, w, r)
    ensures s.lock == Some(pid) && !Joined(s.procs[pid])
  {
    var p := s.procs[pid];
    assert LockSound(s.lock, pid, p);
    assert SomeBusy(p.workers);
  }

  /** Main result: in every state of every run, with crashes, takeovers, panics, store errors
      and stale snapshots, at most one worker in at most one process handles a run. */
  lemma NoRunTwice(b: Run, i: nat, pid: ProcId, w: nat, pid': ProcId, w': nat, r: RunId)
    requires IsRun(b) && i < |b.states|
    requires WorksOn(b.states[i], pid, w, r) && WorksOn(b.states[i], pid', w', r)
    ensures pid == pid' && w == w'
  {
    var s := b.states[i];
    AlwaysLocked(b, i);
    AlwaysAccounted(b, i);
    WorkerHoldsLock(s, pid, w, r);
    WorkerHoldsLock(s, pid', w', r);
    assert Accounts(s.db.claims, s.procs[pid]);
  }

  // -- No timer exceeds its limit -----------------------------------------

  /** Whenever timer `t` exists, its limit is at most `k`. */
  ghost predicate LimitAtMost(db: Db, t: TimerId, k: nat) {
    t in db.timers ==> Limit(db.timers[t]) <= k
  }

  ghost predicate LaneAtMost(s: World, t: TimerId, k: nat) {
    forall pid | pid in s.procs :: InLane(LaneOf(s.procs[pid].lanes, t)) <= k
  }

  lemma WorkerLaneAtMost(v: View, w: nat, a: WorkerAct, t: TimerId, k: nat)
    requires w < |v.p.workers| && WorkerStep(v, w, a).Some?
    requires Accounts(v.db.claims, v.p) && InLane(LaneOf(v.p.lanes, t)) <= k
    ensures InLane(LaneOf(WorkerStep(v, w, a).value.p.lanes, t)) <= k
  {
    hide WorkerStep, Accounts, Activated, Left, Dropped, TokensDistinct, LaneShape;
    var x := v.p.workers[w];
    AccountsOf(v.db.claims, v.p, w);
    WorkerLanes(v, w, a);
    if x.Won? { ActivatedCount(v.p.lanes, x.timer, x.run, v.p.nextToken); }
    if x.Leaving? { ReleaseCount(v.p.lanes, x.timer, x.run); }
    if x.Dropping? && a.ReleaseHint? && a.lane.Some? { ReleaseCount(v.p.lanes, a.lane.value, x.run); }
  }

  lemma ConsiderLaneAtMost(v: View, groups: Groups, x: TimerId, loadOk: bool, finishOk: bool, t: TimerId, k: nat)
    requires x in groups
    requires LimitAtMost(v.db, t, k) && InLane(LaneOf(v.p.lanes, t)) <= k
    ensures InLane(LaneOf(ConsiderClaim(v, groups, x, loadOk, finishOk).p.lanes, t)) <= k
  {
    if groups[x] != [] { EnqueueCount(v.p.lanes, x, groups[x][0], v.p.nextToken); }
  }

  lemma ThreadLaneAtMost(v: View, pid: ProcId, act: Act, t: TimerId, k: nat)
    requires ThreadStep(v, pid, act).Some?
    requires Accounts(v.db.claims, v.p) && InLane(LaneOf(v.p.lanes, t)) <= k && LimitAtMost(v.db, t, k)
    ensures InLane(LaneOf(ThreadStep(v, pid, act).value.p.lanes, t)) <= k
  {
    hide Accounts, WorkerStep, ConsiderClaim, GroupsPending, TokensOf, CancelRequestedActive, RependAll, InLane, LaneOf;
    match act
    case OnWorker(w, wa) => WorkerLaneAtMost(v, w, wa, t, k);
    case OnPump(pa) =>
      if pa.Consider? {
        ConsiderLaneAtMost(v, v.p.pump.groups, v.p.pump.current.value, pa.loadOk, pa.finishOk, t, k);
      }
    case _ =>
  }

  lemma NextLaneAtMost(s: World, e: Step, s': World, t: TimerId, k: nat)
    requires Accounted(s) && Next(s, e, s') && LaneAtMost(s, t, k) && LimitAtMost(s.db, t, k)
    ensures LaneAtMost(s', t, k)
  {
    if e.Thread? {
      assert Accounts(s.db.claims, s.procs[e.pid]);
      ThreadLaneAtMost(ViewOf(s, e.pid), e.pid, e.act, t, k);
      hide ThreadStep;
      forall q | q in s'.procs ensures InLane(LaneOf(s'.procs[q].lanes, t)) <= k { assert q in s.procs; }
    }
  }

  lemma {:induction false} LanesStayWithinLimit(b: Run, i: nat, t: TimerId, k: nat)
    requires IsRun(b) && i < |b.states|
    requires forall j | 0 <= j < i :: LimitAtMost(b.states[j].db, t, k)
    ensures LaneAtMost(b.states[i], t, k)
    decreases i
  {
    hide Next, Accounted, InLane, LaneOf;
    if i > 0 {
      LanesStayWithinLimit(b, i - 1, t, k);
      AlwaysAccounted(b, i - 1);
      NextLaneAtMost(b.states[i - 1], b.steps[i - 1], b.states[i], t, k);
    }
  }

  /** Run `r` of timer `t` is being executed (from activation to lane release) by some worker. */
  ghost predicate ExecutesBy(s: World, pid: ProcId, w: nat, t: TimerId, r: RunId) {
    WorksOn(s, pid, w, r) && s.procs[pid].workers[w].HoldsActive() && s.procs[pid].workers[w].timer == t
  }

  ghost predicate Executes(s: World, t: TimerId, r: RunId) {
    exists pid: ProcId, w: nat :: ExecutesBy(s, pid, w, t, r)
  }

  lemma ExecutingIsActive(s: World, t: TimerId, r: RunId)
    requires Locked(s) && Accounted(s) && Executes(s, t, r)
    ensures s.lock.Some? && s.lock.value in s.procs && ActiveIn(s.procs[s.lock.value].lanes, t, r)
  {
    var pid: ProcId, w: nat :| ExecutesBy(s, pid, w, t, r);
    WorkerHoldsLock(s, pid, w, r);
    assert WorkerReserved(s.db.claims, s.procs[pid].lanes, s.procs[pid].workers[w]);
  }

  /** Main result: if the timer's limit never exceeds `k` in a run, then any set of its runs
      executing at the same time, in all processes together, has at most `k` elements. */
  lemma ExecutingWithinLimit(b: Run, i: nat, t: TimerId, k: nat, rs: set<RunId>)
    requires IsRun(b) && i < |b.states|
    requires forall j | 0 <= j < i :: LimitAtMost(b.states[j].db, t, k)
    requires forall r | r in rs :: Executes(b.states[i], t, r)
    ensures |rs| <= k
  {
    var s := b.states[i];
    AlwaysLocked(b, i);
    AlwaysAccounted(b, i);
    LanesStayWithinLimit(b, i, t, k);
    if rs != {} {
      var r0 :| r0 in rs;
      ExecutingIsActive(s, t, r0);
      var lane := LaneOf(s.procs[s.lock.value].lanes, t);
      forall r | r in rs ensures r in lane.active { ExecutingIsActive(s, t, r); }
      SubsetCount(rs, lane.active);
      assert LaneAtMost(s, t, k);
    }
  }

  /** Main result: a timer that is always Skip, QueueOne or Replace never has two claims executing at
      once, in whatever processes. */
  lemma SerialNeverConcurrent(b: Run, i: nat, t: TimerId, r: RunId, x: RunId)
    requires IsRun(b) && i < |b.states|
    requires forall j | 0 <= j < i && t in b.states[j].db.timers ::
        b.states[j].db.timers[t] == Skip || b.states[j].db.timers[t] == QueueOne || b.states[j].db.timers[t] == Replace
    requires Executes(b.states[i], t, r) && Executes(b.states[i], t, x)
    ensures r == x
  {
    hide Executes;
    ExecutingWithinLimit(b, i, t, 1, {r, x});
    PairCount(r, x);
  }

  lemma PairCount(r: RunId, x: RunId)
    ensures r != x ==> |{r, x}| == 2
  {
  }

  /** Main result: a Parallel timer whose cap never exceeds `c` never has more than `c` claims executing
      at once, in all processes together. */
  lemma ParallelWithinCap(b: Run, i: nat, t: TimerId, c: nat, rs: set<RunId>)
    requires IsRun(b) && i < |b.states|
    requires forall j | 0 <= j < i && t in b.states[j].db.timers ::
        b.states[j].db.timers[t].Parallel? && b.states[j].db.timers[t].cap <= c
    requires forall r | r in rs :: Executes(b.states[i], t, r)
    ensures |rs| <= c
  {
    hide Executes;
    ExecutingWithinLimit(b, i, t, c, rs);
  }
}
