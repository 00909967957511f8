/** Serial order: a timer whose lane admits one claim starts its claims oldest first, unless a hint goes
    out past an unfinished older claim. */
module SerialOrder {
  import opened Options
  import opened Store
  import opened Lanes
  import opened Dispatcher
  import opened Accounting
  import opened MutualExclusion
  import opened Recovery
  import opened Snapshots

  /** A hint of `t` goes out only when every older claim is finished. */
  ghost predicate SendsInOrder(s: World, e: Step, s': World, t: TimerId) {
    forall pid, r | Sends(s, e, s', pid, r) && Of(s.db, t, r) :: Settled(s.db, t, r)
  }

  ghost predicate WorkerOrdered(db: Db, t: TimerId, starts: seq<RunId>, x: Worker) {
    && (x.Busy() && Of(db, t, x.run) ==> Settled(db, t, x.run))
    && (x.Won? || x.Moved? ==> forall y | y in starts && Of(db, t, y) && Of(db, t, x.run) ::
          db.claims[y].seqno <= db.claims[x.run].seqno)
  }

  ghost predicate ProcOrdered(db: Db, t: TimerId, starts: seq<RunId>, p: Proc) {
    && (forall r | r in p.channel && Of(db, t, r) :: Settled(db, t, r))
    && (forall w | 0 <= w < |p.workers| :: WorkerOrdered(db, t, starts, p.workers[w]))
  }

  ghost predicate StartsOrdered(db: Db, t: TimerId, starts: seq<RunId>) {
    && (forall y | y in starts :: y in db.claims)
    && (forall y | y in starts && Of(db, t, y) :: Settled(db, t, y))
    && (forall i, j | 0 <= i < j < |starts| && Of(db, t, starts[i]) && Of(db, t, starts[j]) ::
          db.claims[starts[i]].seqno <= db.claims[starts[j]].seqno)
  }

  ghost predicate Ordered(s: World, t: TimerId) {
    && StartsOrdered(s.db, t, s.starts)
    && (forall pid | pid in s.procs :: ProcOrdered(s.db, t, s.starts, s.procs[pid]))
  }

  // -- Frames -------------------------------------------------------------

  lemma SettledStays(db: Db, db': Db, t: TimerId, c: RunId)
    requires NothingOlder(db, db') && c in db.claims && (Of(db, t, c) ==> Settled(db, t, c))
    ensures Of(db', t, c) ==> Settled(db', t, c)
  {
    forall x | Before(db', t, x, c) ensures db'.claims[x].status == Finished {
      assert Before(db, t, x, c);
    }
  }

  lemma WorkerOrderedStays(db: Db, db': Db, t: TimerId, starts: seq<RunId>, x: Worker)
    requires NothingOlder(db, db') && (x.Busy() ==> x.run in db.claims)
    requires forall y | y in starts :: y in db.claims
    requires WorkerOrdered(db, t, starts, x)
    ensures WorkerOrdered(db', t, starts, x)
  {
    if x.Busy() { SettledStays(db, db', t, x.run); }
  }

  /** A process that takes no step keeps its order while the store moves on. */
  lemma ProcOrderedFrame(db: Db, db': Db, t: TimerId, starts: seq<RunId>, p: Proc)
    requires NothingOlder(db, db') && ProcOrdered(db, t, starts, p) && Accounts(db.claims, p)
    requires forall y | y in starts :: y in db.claims
    ensures ProcOrdered(db', t, starts, p)
  {
    forall r | r in p.channel && Of(db', t, r) ensures Settled(db', t, r) {
      assert HintReserved(db.claims, p.lanes, r);
      SettledStays(db, db', t, r);
    }
    forall w | 0 <= w < |p.workers| ensures WorkerOrdered(db', t, starts, p.workers[w]) {
      assert WorkerReserved(db.claims, p.lanes, p.workers[w]);
      WorkerOrderedStays(db, db', t, starts, p.workers[w]);
    }
  }

  lemma StartsOrderedStays(db: Db, db': Db, t: TimerId, starts: seq<RunId>)
    requires NothingOlder(db, db') && StartsOrdered(db, t, starts)
    ensures StartsOrdered(db', t, starts)
  {
    forall y | y in starts && Of(db', t, y) ensures Settled(db', t, y) { SettledStays(db, db', t, y); }
  }

  // -- Lane of one: at most one reservation -------------------------------

  /** With at most one reservation in the lane, two reserved runs are the same run. */
  lemma OneInLane(l: Lane, x: RunId, y: RunId)
    requires InLane(l) <= 1 && (x in l.queued || x in l.active) && (y in l.queued || y in l.active)
    requires NoDuplicates(l.queued)
    ensures x == y
  {
    if x in l.active { SubsetCount({x}, l.active); }
    if x in l.active && y in l.active && x != y {
      SubsetCount({x, y}, l.active);
    }
    if y in l.active { SubsetCount({y}, l.active); }
  }

  // -- Worker steps -------------------------------------------------------

  /** A pending claim is no older than any start of its timer. */
  lemma PendingIsNotOlder(db: Db, t: TimerId, starts: seq<RunId>, r: RunId)
    requires StartsOrdered(db, t, starts) && Of(db, t, r) && db.claims[r].status == Pending
    ensures forall y | y in starts && Of(db, t, y) :: db.claims[y].seqno <= db.claims[r].seqno
  {
    forall y | y in starts && Of(db, t, y) ensures db.claims[y].seqno <= db.claims[r].seqno {
      assert Settled(db, t, y);
      assert !Before(db, t, r, y);
    }
  }

  /** How a worker gets past the CAS. */
  lemma WinsPending(v: View, w: nat, a: WorkerAct)
    requires w < |v.p.workers| && WorkerStep(v, w, a).Some?
    requires |WorkerStep(v, w, a).value.p.workers| == |v.p.workers|
    ensures var v', x := WorkerStep(v, w, a).value, v.p.workers[w];
      var x' := v'.p.workers[w];
      (x'.Won? || x'.Moved?) ==>
        && v'.starts == v.starts && x.Busy() && x'.run == x.run
        && (x.Won? || (x.run in v.db.claims && v.db.claims[x.run].status == Pending
                       && x.run in v'.db.claims && v'.db.claims[x.run].status == Active))
  {
    hide WorkerStep, Activate;
    WinnerSource(v, w, a);
    WinnerStartsNothing(v, w, a);
    if v.p.workers[w].Busy() { ActivatesPending(v.db, v.p.workers[w].run); }
  }

  lemma WinnerSource(v: View, w: nat, a: WorkerAct)
    requires w < |v.p.workers| && WorkerStep(v, w, a).Some?
    requires |WorkerStep(v, w, a).value.p.workers| == |v.p.workers|
    ensures var v', x := WorkerStep(v, w, a).value, v.p.workers[w];
      var x' := v'.p.workers[w];
      (x'.Won? || x'.Moved?) ==>
        x.Busy() && x'.run == x.run && (x.Won? || (v'.db == Activate(v.db, x.run).0 && Activate(v.db, x.run).1))
  {
    hide Activate, CommitResult, Repend, Activated, Left, Dropped, MayRelease, MayReport, TokenFor, LaneOf;
  }

  lemma WinnerStartsNothing(v: View, w: nat, a: WorkerAct)
    requires w < |v.p.workers| && WorkerStep(v, w, a).Some?
    requires |WorkerStep(v, w, a).value.p.workers| == |v.p.workers|
    ensures var v' := WorkerStep(v, w, a).value;
      v'.p.workers[w].Won? || v'.p.workers[w].Moved? ==> v'.starts == v.starts
  {
    hide Activate, CommitResult, Repend, Activated, Left, Dropped, MayRelease, MayReport, TokenFor, LaneOf;
  }

  lemma ActivatesPending(db: Db, r: RunId)
    ensures Activate(db, r).1 ==>
        r in db.claims && db.claims[r].status == Pending
        && r in Activate(db, r).0.claims && Activate(db, r).0.claims[r].status == Active
  {
  }

  /** A worker's step lets the start log alone, or it is the start of a moved claim. */
  lemma WorkerStarts(v: View, w: nat, a: WorkerAct)
    requires w < |v.p.workers| && WorkerStep(v, w, a).Some?
    ensures var v' := WorkerStep(v, w, a).value;
      v'.starts == v.starts || (v.p.workers[w].Moved? && v'.starts == v.starts + [v.p.workers[w].run])
  {
    hide Activate, CommitResult, Repend, Activated, Left, Dropped, MayRelease, MayReport, TokenFor, LaneOf;
  }

  /** In a lane of one, no other worker is about to start a claim of the same timer. */
  lemma OthersStartNothing(claims: Claims, p: Proc, w: nat, u: nat, t: TimerId)
    requires Accounts(claims, p) && InLane(LaneOf(p.lanes, t)) <= 1
    requires w < |p.workers| && u < |p.workers| && w != u && p.workers[w].Busy() && p.workers[u].Busy()
    ensures !(p.workers[w].run in claims && claims[p.workers[w].run].timer == t
              && p.workers[u].run in claims && claims[p.workers[u].run].timer == t)
  {
    BusyIsReserved(claims, p, w);
    BusyIsReserved(claims, p, u);
    var x, y := p.workers[w].run, p.workers[u].run;
    assert x != y by { assert w < u || u < w; }
    if claims[x].timer == t && claims[y].timer == t {
      assert LaneShape(p.lanes[t]);
      OneInLane(p.lanes[t], x, y);
    }
  }

  lemma WorkerStartsOrdered(v: View, w: nat, a: WorkerAct, t: TimerId, db': Db)
    requires w < |v.p.workers| && WorkerStep(v, w, a).Some? && NothingOlder(v.db, db')
    requires ProcOrdered(v.db, t, v.starts, v.p) && StartsOrdered(v.db, t, v.starts)
    requires WorkerReserved(v.db.claims, v.p.lanes, v.p.workers[w])
    ensures StartsOrdered(db', t, WorkerStep(v, w, a).value.starts)
  {
    WorkerStarts(v, w, a);
    var starts' := WorkerStep(v, w, a).value.starts;
    assert WorkerOrdered(v.db, t, v.starts, v.p.workers[w]);
    hide WorkerStep;
    assert StartsOrdered(v.db, t, starts');
    StartsOrderedStays(v.db, db', t, starts');
  }

  lemma WorkerProcOrdered(v: View, w: nat, a: WorkerAct, t: TimerId)
    requires w < |v.p.workers| && WorkerStep(v, w, a).Some?
    requires NothingOlder(v.db, WorkerStep(v, w, a).value.db)
    requires Accounts(v.db.claims, v.p) && InLane(LaneOf(v.p.lanes, t)) <= 1
    requires ProcOrdered(v.db, t, v.starts, v.p) && StartsOrdered(v.db, t, v.starts)
    ensures var v' := WorkerStep(v, w, a).value;
      ProcOrdered(v'.db, t, v'.starts, v'.p) && StartsOrdered(v'.db, t, v'.starts)
  {
    hide WorkerStep, Accounts, StartsOrdered, NothingOlder, WorkerOrdered, WorkerReserved, Settled, LaneShape,
      TokensDistinct;
    var v', p := WorkerStep(v, w, a).value, v.p;
    AccountsOf(v.db.claims, p, w);
    ReservedRunKnown(v.db.claims, p.lanes, p.workers[w]);
    WorkerStays(v, w, a);
    WorkerStarts(v, w, a);
    WorkerRunSource(v, w, a);
    WinsPending(v, w, a);
    WorkerStartsOrdered(v, w, a, t, v'.db);
    forall r | r in v'.p.channel && Of(v'.db, t, r) ensures Settled(v'.db, t, r) {
      HintSettled(v, t, r, v'.db);
    }
    forall u | 0 <= u < |v'.p.workers| ensures WorkerOrdered(v'.db, t, v'.starts, v'.p.workers[u]) {
      if u == w { StepperOrdered(v, v', w, t); }
      else { BystanderOrdered(v, v', w, u, t); }
    }
  }

  lemma ReservedRunKnown(claims: Claims, lanes: Lanes, x: Worker)
    requires WorkerReserved(claims, lanes, x)
    ensures x.Busy() ==> x.run in claims
  {
  }

  lemma HintSettled(v: View, t: TimerId, r: RunId, db': Db)
    requires Accounts(v.db.claims, v.p) && ProcOrdered(v.db, t, v.starts, v.p) && NothingOlder(v.db, db')
        && r in v.p.channel
    ensures r in v.db.claims && (Of(db', t, r) ==> Settled(db', t, r))
  {
    assert HintReserved(v.db.claims, v.p.lanes, r);
    hide Accounts;
    SettledStays(v.db, db', t, r);
  }

  lemma StepperOrdered(v: View, v': View, w: nat, t: TimerId)
    requires w < |v.p.workers| == |v'.p.workers| && NothingOlder(v.db, v'.db)
    requires Accounts(v.db.claims, v.p)
    requires ProcOrdered(v.db, t, v.starts, v.p) && StartsOrdered(v.db, t, v.starts)
    requires var x, x' := v.p.workers[w], v'.p.workers[w];
      && (x'.Busy() ==> (x.Busy() && x'.run == x.run) || x'.run in v.p.channel)
      && (x'.Won? || x'.Moved? ==> v'.starts == v.starts && x.Busy() && x'.run == x.run && x.run in v.db.claims
                                   && (x.Won? || v.db.claims[x.run].status == Pending))
    ensures WorkerOrdered(v'.db, t, v'.starts, v'.p.workers[w])
  {
    var x, x' := v.p.workers[w], v'.p.workers[w];
    assert WorkerReserved(v.db.claims, v.p.lanes, x);
    assert WorkerOrdered(v.db, t, v.starts, x);
    if x'.Busy() {
      if x'.run in v.p.channel { HintSettled(v, t, x'.run, v'.db); }
      hide Accounts, ProcOrdered;
      SettledStays(v.db, v'.db, t, x'.run);
      if (x'.Won? || x'.Moved?) && Of(v.db, t, x.run) && v.db.claims[x.run].status == Pending {
        PendingIsNotOlder(v.db, t, v.starts, x.run);
      }
    }
  }

  lemma BystanderOrdered(v: View, v': View, w: nat, u: nat, t: TimerId)
    requires w < |v.p.workers| && u < |v.p.workers| && u != w && NothingOlder(v.db, v'.db)
    requires Accounts(v.db.claims, v.p) && InLane(LaneOf(v.p.lanes, t)) <= 1
    requires ProcOrdered(v.db, t, v.starts, v.p) && StartsOrdered(v.db, t, v.starts)
    requires v'.starts == v.starts || (v.p.workers[w].Moved? && v'.starts == v.starts + [v.p.workers[w].run])
    ensures WorkerOrdered(v'.db, t, v'.starts, v.p.workers[u])
  {
    var y := v.p.workers[u];
    assert WorkerReserved(v.db.claims, v.p.lanes, y);
    assert WorkerReserved(v.db.claims, v.p.lanes, v.p.workers[w]);
    assert WorkerOrdered(v.db, t, v.starts, y);
    if v'.starts != v.starts && y.Busy() { OthersStartNothing(v.db.claims, v.p, w, u, t); }
    hide Accounts, ProcOrdered;
    WorkerOrderedStays(v.db, v'.db, t, v.starts, y);
  }

  // -- Pump steps ---------------------------------------------------------

  /** A pump step sends at most one hint, and touches neither workers nor the start log. */
  lemma PumpChannel(v: View, pid: ProcId, a: PumpAct)
    requires PumpStep(v, pid, a).Some?
    ensures var v' := PumpStep(v, pid, a).value;
      && v'.p.workers == v.p.workers && v'.starts == v.starts
      && (v'.p.channel == v.p.channel || exists r :: v'.p.channel == v.p.channel + [r])
  {
    hide ConsiderClaim;
    PumpStartsNothing(v, pid, a);
    PumpKeepsWorkers(v, pid, a);
    if a.Consider? { ConsiderShape(v, v.p.pump.groups, v.p.pump.current.value, a.loadOk, a.finishOk); }
    else { assert PumpStep(v, pid, a).value.p.channel == v.p.channel; }
  }

  lemma PumpProcOrdered(v: View, pid: ProcId, a: PumpAct, t: TimerId)
    requires PumpStep(v, pid, a).Some? && NothingOlder(v.db, PumpStep(v, pid, a).value.db)
    requires Accounts(v.db.claims, v.p) && ProcOrdered(v.db, t, v.starts, v.p) && StartsOrdered(v.db, t, v.starts)
    requires forall r | PumpStep(v, pid, a).value.p.channel == v.p.channel + [r] && Of(v.db, t, r) ::
        Settled(v.db, t, r)
    requires forall r | r in PumpStep(v, pid, a).value.p.channel :: r in v.db.claims
    ensures var v' := PumpStep(v, pid, a).value;
      ProcOrdered(v'.db, t, v'.starts, v'.p) && StartsOrdered(v'.db, t, v'.starts)
  {
    hide PumpStep, Accounts, NothingOlder, Settled, WorkerOrdered;
    var v' := PumpStep(v, pid, a).value;
    PumpChannel(v, pid, a);
    StartsOrderedStays(v.db, v'.db, t, v.starts);
    ProcOrderedFrame(v.db, v'.db, t, v.starts, v.p);
    forall r | r in v'.p.channel && Of(v'.db, t, r) ensures Settled(v'.db, t, r) {
      if r !in v.p.channel { SettledStays(v.db, v'.db, t, r); }
    }
  }

  // -- Every step, every run ----------------------------------------------

  lemma ThreadProcOrdered(v: View, pid: ProcId, act: Act, t: TimerId)
    requires ThreadStep(v, pid, act).Some? && NothingOlder(v.db, ThreadStep(v, pid, act).value.db)
    requires Accounts(v.db.claims, v.p) && PumpKnown(v.db.claims, v.p.pump) && InLane(LaneOf(v.p.lanes, t)) <= 1
    requires ProcOrdered(v.db, t, v.starts, v.p) && StartsOrdered(v.db, t, v.starts)
    requires forall r | act.OnPump? && ThreadStep(v, pid, act).value.p.channel == v.p.channel + [r] && Of(v.db, t, r) ::
        Settled(v.db, t, r)
    requires forall r | act.OnPump? && r in ThreadStep(v, pid, act).value.p.channel :: r in v.db.claims
    ensures var v' := ThreadStep(v, pid, act).value;
      ProcOrdered(v'.db, t, v'.starts, v'.p) && StartsOrdered(v'.db, t, v'.starts)
  {
    hide ProcOrdered, StartsOrdered, Accounts, NothingOlder, WorkerStep, PumpStep, BootStep, DownStep, Settled;
    match act
    case OnWorker(w, wa) => WorkerProcOrdered(v, w, wa, t);
    case OnPump(pa) => PumpProcOrdered(v, pid, pa, t);
    case _ =>
      CallerQuiet(v, pid, act);
      UntouchedProcOrdered(v, ThreadStep(v, pid, act).value, t);
  }

  lemma UntouchedProcOrdered(v: View, v': View, t: TimerId)
    requires NothingOlder(v.db, v'.db) && Accounts(v.db.claims, v.p)
    requires ProcOrdered(v.db, t, v.starts, v.p) && StartsOrdered(v.db, t, v.starts)
    requires v'.p.channel == v.p.channel && v'.p.workers == v.p.workers && v'.starts == v.starts
    ensures ProcOrdered(v'.db, t, v'.starts, v'.p) && StartsOrdered(v'.db, t, v'.starts)
  {
    StartsOrderedStays(v.db, v'.db, t, v.starts);
    ProcOrderedFrame(v.db, v'.db, t, v.starts, v.p);
  }

  /** A process whose threads rest keeps its order although another one starts claims. */
  lemma OtherProcOrdered(s: World, s': World, q: ProcId, t: TimerId)
    requires q in s.procs && Accounts(s.db.claims, s.procs[q])
    requires ProcOrdered(s.db, t, s.starts, s.procs[q]) && StartsOrdered(s.db, t, s.starts) && NothingOlder(s.db, s'.db)
    requires s'.starts != s.starts ==> !SomeBusy(s.procs[q].workers)
    ensures ProcOrdered(s'.db, t, s'.starts, s.procs[q])
  {
    ProcOrderedFrame(s.db, s'.db, t, s.starts, s.procs[q]);
    hide Accounts;
    forall w | 0 <= w < |s.procs[q].workers| ensures WorkerOrdered(s'.db, t, s'.starts, s.procs[q].workers[w]) {
      assert WorkerOrdered(s'.db, t, s.starts, s.procs[q].workers[w]);
      assert s.procs[q].workers[w].Busy() ==> SomeBusy(s.procs[q].workers);
    }
  }

  lemma NextOrdered(s: World, e: Step, s': World, t: TimerId)
    requires Next(s, e, s') && SendsInOrder(s, e, s', t) && Ordered(s, t)
    requires Accounted(s) && Accounted(s') && Locked(s) && LaneAtMost(s, t, 1)
    ensures Ordered(s', t)
  {
    hide NothingOlder, StartsOrdered, ProcOrdered, Accounts, Fire, NextSeqno, ListsPending, SendsInOrder, Accounted,
      Locked, LaneAtMost;
    NextNothingOlder(s, e, s');
    if e.Thread? {
      SteppingProcess(s, e.pid, e.act, s', t);
      StartsNeedLock(s, e.pid, e.act);
      hide ThreadStep;
      forall q | q in s'.procs && q != e.pid ensures ProcOrdered(s'.db, t, s'.starts, s'.procs[q]) {
        if s'.starts != s.starts { RestWithoutLock(s, q); }
        AccountsAt(s, q);
        OtherProcOrdered(s, s', q, t);
      }
    } else {
      StartsOrderedStays(s.db, s'.db, t, s.starts);
      forall q | q in s'.procs ensures ProcOrdered(s'.db, t, s'.starts, s'.procs[q]) {
        if q in s.procs {
          AccountsAt(s, q);
          OtherProcOrdered(s, s', q, t);
        } else {
          SpawnedOrdered(s'.db, t, s'.starts, e.workers, e.took);
        }
      }
    }
  }

  lemma AccountsAt(s: World, pid: ProcId)
    requires Accounted(s) && pid in s.procs
    ensures Accounts(s.db.claims, s.procs[pid]) && PumpKnown(s.db.claims, s.procs[pid].pump)
    ensures forall r | r in s.procs[pid].channel :: r in s.db.claims
  {
    assert forall r | r in s.procs[pid].channel :: HintReserved(s.db.claims, s.procs[pid].lanes, r);
  }

  lemma SteppingProcess(s: World, pid: ProcId, act: Act, s': World, t: TimerId)
    requires Next(s, Thread(pid, act), s') && SendsInOrder(s, Thread(pid, act), s', t) && Ordered(s, t)
    requires NothingOlder(s.db, s'.db) && Accounted(s) && Accounted(s') && LaneAtMost(s, t, 1)
    ensures ProcOrdered(s'.db, t, s'.starts, s'.procs[pid]) && StartsOrdered(s'.db, t, s'.starts)
  {
    hide ThreadStep, Accounts, Accounted, ProcOrdered, StartsOrdered, Settled, NothingOlder;
    AccountsAt(s, pid);
    AccountsAt(s', pid);
    if act.OnPump? { PumpSendsKnown(s, pid, act.pa, s'); }
    forall r | act.OnPump? && s'.procs[pid].channel == s.procs[pid].channel + [r] && Of(s.db, t, r)
      ensures Settled(s.db, t, r)
    {
      assert Sends(s, Thread(pid, act), s', pid, r);
    }
    ThreadProcOrdered(ViewOf(s, pid), pid, act, t);
  }

  /** The pump sends only runs it has read, and adds no row. */
  lemma PumpSendsKnown(s: World, pid: ProcId, a: PumpAct, s': World)
    requires Next(s, Thread(pid, OnPump(a)), s') && Accounted(s')
    ensures forall r | r in s'.procs[pid].channel :: r in s.db.claims
  {
    hide PumpStep, Accounted;
    AccountsAt(s', pid);
    ThreadAddsNoRow(ViewOf(s, pid), pid, OnPump(a));
  }

  /** Only the lock owner starts claims. */
  lemma StartsNeedLock(s: World, pid: ProcId, act: Act)
    requires Locked(s) && pid in s.procs && ThreadStep(ViewOf(s, pid), pid, act).Some?
    ensures ThreadStep(ViewOf(s, pid), pid, act).value.starts != s.starts ==> s.lock == Some(pid)
  {
    hide Locked;
    match act
    case OnWorker(w, wa) =>
      WorkerStarts(ViewOf(s, pid), w, wa);
      hide WorkerStep;
      if s.procs[pid].workers[w].Moved? { WorkerHoldsLock(s, pid, w, s.procs[pid].workers[w].run); }
    case OnPump(pa) => PumpStartsNothing(ViewOf(s, pid), pid, pa);
    case _ => CallerQuiet(ViewOf(s, pid), pid, act);
  }

  lemma RestWithoutLock(s: World, q: ProcId)
    requires Locked(s) && q in s.procs && s.lock != Some(q)
    ensures !SomeBusy(s.procs[q].workers)
  {
    if SomeBusy(s.procs[q].workers) {
      var w :| 0 <= w < |s.procs[q].workers| && s.procs[q].workers[w].Busy();
      WorkerHoldsLock(s, q, w, s.procs[q].workers[w].run);
    }
  }

  lemma SpawnedOrdered(db: Db, t: TimerId, starts: seq<RunId>, workers: nat, took: bool)
    ensures ProcOrdered(db, t, starts, Spawned(workers, took))
  {
  }

  lemma {:induction false} AlwaysOrdered(b: Run, i: nat, t: TimerId)
    requires IsRun(b) && i < |b.states|
    requires forall j | 0 <= j < i ::
        SerialTimer(b.states[j].db, t) && SendsInOrder(b.states[j], b.steps[j], b.states[j + 1], t)
    ensures Ordered(b.states[i], t)
    decreases i
  {
    hide Next, Accounted, Locked, LaneAtMost, ProcOrdered, SendsInOrder;
    if i > 0 {
      AlwaysOrdered(b, i - 1, t);
      AlwaysAccounted(b, i - 1);
      AlwaysAccounted(b, i);
      AlwaysLocked(b, i - 1);
      LanesStayWithinLimit(b, i - 1, t, 1);
      NextOrdered(b.states[i - 1], b.steps[i - 1], b.states[i], t);
    }
  }

  /** Step `j` sends a hint of `t` although the older claim `x` is unfinished. */
  ghost predicate Overtakes(b: Run, j: nat, pid: ProcId, t: TimerId, r: RunId, x: RunId)
    requires j < |b.steps| && |b.states| == |b.steps| + 1
  {
    && Sends(b.states[j], b.steps[j], b.states[j + 1], pid, r)
    && Before(b.states[j].db, t, x, r) && Unfinished(b.states[j].db.claims[x])
  }

  /** Main result: in every run, whatever fails, panics or crashes, the claims of a serial timer start
      out of order only if some hint went out past an unfinished older claim. */
  lemma DisorderNeedsOvertaking(b: Run, i: nat, t: TimerId, m: nat, n: nat)
    requires IsRun(b) && i < |b.states| && forall j | 0 <= j < i :: SerialTimer(b.states[j].db, t)
    requires m < n < |b.states[i].starts|
    requires Before(b.states[i].db, t, b.states[i].starts[n], b.states[i].starts[m])
    ensures exists j: nat, pid, r, x :: j < i && Overtakes(b, j, pid, t, r, x)
  {
    hide Next, SerialTimer, Sends;
    if forall j: nat, pid, r, x | j < i :: !Overtakes(b, j, pid, t, r, x) {
      forall j | 0 <= j < i ensures SendsInOrder(b.states[j], b.steps[j], b.states[j + 1], t) {
        NobodyOvertaken(b, j, t);
      }
      AlwaysOrdered(b, i, t);
    }
  }

  lemma NobodyOvertaken(b: Run, j: nat, t: TimerId)
    requires j < |b.steps| && |b.states| == |b.steps| + 1
    requires forall pid, r, x :: !Overtakes(b, j, pid, t, r, x)
    ensures SendsInOrder(b.states[j], b.steps[j], b.states[j + 1], t)
  {
    hide Sends;
    var s, e, s' := b.states[j], b.steps[j], b.states[j + 1];
    forall pid, r | Sends(s, e, s', pid, r) && Of(s.db, t, r) ensures Settled(s.db, t, r) {
      forall x | Before(s.db, t, x, r) ensures s.db.claims[x].status == Finished {
        assert !Overtakes(b, j, pid, t, r, x);
      }
    }
  }

  ghost predicate NoLateRelease(s: World, e: Step, t: TimerId) { forall pid, x :: !LateRelease(s, e, pid, t, x) }

  /** Main result: when the writes on the timer's claims succeed, with any crashes, takeovers, recoveries,
      panics and timer-load errors, the claims of a serial timer start in non-decreasing sequence order,
      unless a worker releases an unfinished claim of the timer while the pump waits for the lane lock
      with a snapshot of the timer that does not list it. */
  lemma SerialStartsInOrder(b: Run, i: nat, t: TimerId, m: nat, n: nat)
    requires IsRun(b) && i < |b.states|
    requires forall j | 0 <= j < i :: Orderly(b.states[j], b.steps[j], t) && SerialTimer(b.states[j].db, t)
                                      && NoLateRelease(b.states[j], b.steps[j], t)
    requires m < n < |b.states[i].starts|
    requires Of(b.states[i].db, t, b.states[i].starts[m]) && Of(b.states[i].db, t, b.states[i].starts[n])
    ensures b.states[i].db.claims[b.states[i].starts[m]].seqno <= b.states[i].db.claims[b.states[i].starts[n]].seqno
  {
    hide Next, SerialTimer, WritesOk, LateRelease, Overtakes, ReleasedSince;
    if Before(b.states[i].db, t, b.states[i].starts[n], b.states[i].starts[m]) {
      DisorderNeedsOvertaking(b, i, t, m, n);
      var j: nat, pid, r, x :| j < i && Overtakes(b, j, pid, t, r, x);
      OvertakenWasLate(b, j, pid, t, r, x);
    }
  }

  lemma OvertakenWasLate(b: Run, j: nat, pid: ProcId, t: TimerId, r: RunId, x: RunId)
    requires IsRun(b) && j < |b.steps| && Overtakes(b, j, pid, t, r, x)
    requires forall k | 0 <= k < j :: Orderly(b.states[k], b.steps[k], t) && SerialTimer(b.states[k].db, t)
    requires SerialTimer(b.states[j].db, t)
    ensures exists k :: 0 <= k < j && LateRelease(b.states[k], b.steps[k], pid, t, x)
  {
    hide Next, SerialTimer, WritesOk, LateRelease, Sends;
    OvertakesExactly(b, j, pid, t, r, x);
    var k :| ReleasedSince(b, k, j, pid, t, x);
    assert LateSince(b, k, j, pid, t, x);
  }

  // -- When no claim of the timer returns to pending: each starts at most once

  /** The step returns no claim of `t` to `pending`: no worker gives one back, and recovery finds
      none active. */
  ghost predicate ReturnsNone(s: World, e: Step, t: TimerId) {
    e.Thread? && e.pid in s.procs ==>
      match e.act
      case OnWorker(w, RependRun(_)) =>
        w < |s.procs[e.pid].workers| && s.procs[e.pid].workers[w].Repending? ==> s.procs[e.pid].workers[w].timer != t
      case OnPump(Recover(_)) => forall r | Of(s.db, t, r) :: s.db.claims[r].status != Active
      case OnBoot(BootRepend(_)) => forall r | Of(s.db, t, r) :: s.db.claims[r].status != Active
      case _ => true
  }

  /** Past the CAS on a claim of `t`, its start not logged yet. */
  ghost predicate AboutToStart(db: Db, t: TimerId, ws: seq<Worker>, r: RunId) {
    Of(db, t, r) && exists w :: 0 <= w < |ws| && (ws[w].Won? || ws[w].Moved?) && ws[w].run == r
  }

  ghost predicate StaysTaken(db: Db, db': Db, t: TimerId) {
    forall r | Of(db, t, r) && db.claims[r].status != Pending :: r in db'.claims && db'.claims[r].status != Pending
  }

  ghost predicate LoggedOnce(db: Db, t: TimerId, starts: seq<RunId>) {
    && (forall i, j | 0 <= i < j < |starts| && Of(db, t, starts[i]) :: starts[i] != starts[j])
    && (forall y | y in starts :: y in db.claims)
    && (forall y | y in starts && Of(db, t, y) :: db.claims[y].status != Pending)
  }

  ghost predicate StartedOnce(s: World, t: TimerId) {
    && LoggedOnce(s.db, t, s.starts)
    && (forall pid, r | pid in s.procs && AboutToStart(s.db, t, s.procs[pid].workers, r) ::
          s.db.claims[r].status != Pending && r !in s.starts)
  }

  lemma NothingReturns(s: World, e: Step, s': World, t: TimerId)
    requires Next(s, e, s') && ReturnsNone(s, e, t) && Accounted(s)
    ensures StaysTaken(s.db, s'.db, t)
  {
    hide ThreadStep, Accounted, Spawned;
    match e
    case FireTx(x, r, n, rows) =>
      FireExtends(s.db, x, r, n, rows);
      ReplacePendingShape(Emit(s.db, Event(r, Fired)), rows);
    case Thread(pid, act) => ThreadReturnsNone(s, pid, act, t);
    case _ =>
  }

  lemma ThreadReturnsNone(s: World, pid: ProcId, act: Act, t: TimerId)
    requires pid in s.procs && ThreadStep(ViewOf(s, pid), pid, act).Some?
    requires ReturnsNone(s, Thread(pid, act), t) && Accounted(s)
    ensures StaysTaken(s.db, ThreadStep(ViewOf(s, pid), pid, act).value.db, t)
  {
    hide WorkerStep, PumpStep, BootStep, DownStep, Accounts, PumpKnown, RependAll, Finish, StaysTaken;
    NothingActive(s.db, t);
    match act
    case OnWorker(w, wa) =>
      WorkerDb(ViewOf(s, pid), w, wa);
      AccountsOf(s.db.claims, s.procs[pid], w);
      TransitionsKeepTaken(s.db, s.procs[pid].workers[w], t);
    case OnPump(pa) => PumpKeepsTaken(ViewOf(s, pid), pid, pa, t);
    case _ => CallerDb(ViewOf(s, pid), pid, act);
  }

  lemma NothingActive(db: Db, t: TimerId)
    ensures StaysTaken(db, db, t)
    ensures (forall r | Of(db, t, r) :: db.claims[r].status != Active) ==> StaysTaken(db, RependAll(db), t)
  {
    RependAllShape(db);
  }

  lemma TransitionsKeepTaken(db: Db, x: Worker, t: TimerId)
    ensures x.Checked? ==> StaysTaken(db, Activate(db, x.run).0, t)
    ensures x.Closing? ==> StaysTaken(db, CommitResult(db, x.run, x.outcome), t)
    ensures x.Repending? && !Of(db, t, x.run) ==> StaysTaken(db, Repend(db, x.run), t)
  {
  }

  lemma PumpKeepsTaken(v: View, pid: ProcId, a: PumpAct, t: TimerId)
    requires PumpStep(v, pid, a).Some?
    requires a.Recover? ==> forall r | Of(v.db, t, r) :: v.db.claims[r].status != Active
    ensures StaysTaken(v.db, PumpStep(v, pid, a).value.db, t)
  {
    hide PumpStep;
    RependAllShape(v.db);
    PumpDb(v, pid, a);
  }

  /** Who comes to be about to start: a worker that just won the CAS on a pending row. */
  lemma AboutToStartSource(v: View, pid: ProcId, act: Act, t: TimerId, r: RunId)
    requires ThreadStep(v, pid, act).Some? && Accounts(v.db.claims, v.p)
    requires Extends(v.db, ThreadStep(v, pid, act).value.db)
    requires AboutToStart(ThreadStep(v, pid, act).value.db, t, ThreadStep(v, pid, act).value.p.workers, r)
    ensures var v' := ThreadStep(v, pid, act).value;
      || (AboutToStart(v.db, t, v.p.workers, r)
          && (v'.starts == v.starts || exists y :: y != r && v'.starts == v.starts + [y]))
      || (v'.starts == v.starts && Of(v.db, t, r) && v.db.claims[r].status == Pending
          && r in v'.db.claims && v'.db.claims[r].status == Active)
  {
    hide WorkerStep, PumpStep, BootStep, DownStep, QueuedBacked, ActiveBacked, LaneShape, TokensDistinct;
    match act
    case OnWorker(w, wa) =>
      WorkerStays(v, w, wa);
      WorkerStarts(v, w, wa);
      WinsPending(v, w, wa);
      var ws, ws' := v.p.workers, ThreadStep(v, pid, act).value.p.workers;
      var u :| 0 <= u < |ws'| && (ws'[u].Won? || ws'[u].Moved?) && ws'[u].run == r;
      assert WorkerReserved(v.db.claims, v.p.lanes, ws[u]);
      if u != w { assert ws'[u] == ws[u]; }
    case OnPump(pa) =>
      PumpStartsNothing(v, pid, pa);
      PumpKeepsWorkers(v, pid, pa);
      SameWorkersKnown(v, ThreadStep(v, pid, act).value, t, r);
    case _ =>
      CallerQuiet(v, pid, act);
      SameWorkersKnown(v, ThreadStep(v, pid, act).value, t, r);
  }

  lemma SameWorkersKnown(v: View, v': View, t: TimerId, r: RunId)
    requires Accounts(v.db.claims, v.p) && Extends(v.db, v'.db) && v'.p.workers == v.p.workers
    requires AboutToStart(v'.db, t, v'.p.workers, r)
    ensures AboutToStart(v.db, t, v.p.workers, r)
  {
    var w :| 0 <= w < |v.p.workers| && (v.p.workers[w].Won? || v.p.workers[w].Moved?) && v.p.workers[w].run == r;
    assert WorkerReserved(v.db.claims, v.p.lanes, v.p.workers[w]);
  }

  lemma AboutToStartStays(s: World, e: Step, s': World, q: ProcId, t: TimerId, r: RunId)
    requires Next(s, e, s') && StartedOnce(s, t) && Accounted(s) && Locked(s) && StaysTaken(s.db, s'.db, t)
    requires Extends(s.db, s'.db)
    requires q in s'.procs && AboutToStart(s'.db, t, s'.procs[q].workers, r)
    ensures s'.db.claims[r].status != Pending && r !in s'.starts
  {
    hide ThreadStep, Accounts, Locked, Fire, NextSeqno, ListsPending, Extends;
    if e.Thread? && q == e.pid {
      assert Accounts(s.db.claims, s.procs[q]);
      AboutToStartSource(ViewOf(s, q), q, e.act, t, r);
    } else if q in s.procs {
      var v := ViewOf(s, q);
      SameWorkersKnown(v, v.(db := s'.db), t, r);
      if e.Thread? {
        StartsNeedLock(s, e.pid, e.act);
        if s'.starts != s.starts { RestWithoutLock(s, q); AboutToStartIsBusy(s.db, t, s.procs[q].workers, r); }
      }
    } else {
      SpawnedStartsNothing(s'.db, t, e.workers, e.took, r);
    }
  }

  lemma AboutToStartIsBusy(db: Db, t: TimerId, ws: seq<Worker>, r: RunId)
    ensures AboutToStart(db, t, ws, r) ==> SomeBusy(ws)
  {
    if w :| 0 <= w < |ws| && (ws[w].Won? || ws[w].Moved?) && ws[w].run == r { assert ws[w].Busy(); }
  }

  lemma SpawnedStartsNothing(db: Db, t: TimerId, workers: nat, took: bool, r: RunId)
    ensures !AboutToStart(db, t, Spawned(workers, took).workers, r)
  {
  }

  /** A start that is logged was about to happen. */
  lemma StartsAppended(s: World, e: Step, s': World)
    requires Next(s, e, s') && Accounted(s)
    ensures s'.starts == s.starts
            || exists pid, r :: pid in s.procs && r in s.db.claims && s'.starts == s.starts + [r]
                 && AboutToStart(s.db, s.db.claims[r].timer, s.procs[pid].workers, r)
  {
    hide ThreadStep, Accounts, Fire;
    if e.Thread? && s'.starts != s.starts { ThreadAppends(ViewOf(s, e.pid), e.pid, e.act); }
  }

  lemma ThreadAppends(v: View, pid: ProcId, act: Act)
    requires ThreadStep(v, pid, act).Some? && Accounts(v.db.claims, v.p)
    ensures var v' := ThreadStep(v, pid, act).value;
      v'.starts == v.starts || exists r :: v'.starts == v.starts + [r] && r in v.db.claims
                                 && AboutToStart(v.db, v.db.claims[r].timer, v.p.workers, r)
  {
    hide WorkerStep, PumpStep, BootStep, DownStep, Accounts;
    match act
    case OnWorker(w, wa) =>
      WorkerStarts(v, w, wa);
      AccountsOf(v.db.claims, v.p, w);
    case OnPump(pa) => PumpStartsNothing(v, pid, pa);
    case _ => CallerQuiet(v, pid, act);
  }

  lemma NextStartedOnce(s: World, e: Step, s': World, t: TimerId)
    requires Next(s, e, s') && StartedOnce(s, t) && Accounted(s) && Locked(s)
    requires StaysTaken(s.db, s'.db, t) && Extends(s.db, s'.db)
    ensures StartedOnce(s', t)
  {
    hide AboutToStart, Accounted, Locked, Next, Extends, StaysTaken;
    forall q, r | q in s'.procs && AboutToStart(s'.db, t, s'.procs[q].workers, r)
      ensures r in s'.db.claims && s'.db.claims[r].status != Pending && r !in s'.starts
    {
      AboutToStartKnown(s'.db, t, s'.procs[q].workers, r);
      AboutToStartStays(s, e, s', q, t, r);
    }
    StartsAppended(s, e, s');
    if s'.starts == s.starts {
      LogStaysOnce(s, s', t, []);
    } else {
      var pid, r :| pid in s.procs && r in s.db.claims && s'.starts == s.starts + [r]
                    && AboutToStart(s.db, s.db.claims[r].timer, s.procs[pid].workers, r);
      LogStaysOnce(s, s', t, [r]);
    }
  }

  lemma LogStaysOnce(s: World, s': World, t: TimerId, more: seq<RunId>)
    requires LoggedOnce(s.db, t, s.starts) && StaysTaken(s.db, s'.db, t) && Extends(s.db, s'.db)
    requires |more| <= 1 && s'.starts == s.starts + more
    requires forall r | r in more ::
        r in s.db.claims && (Of(s.db, t, r) ==> s.db.claims[r].status != Pending && r !in s.starts)
    ensures LoggedOnce(s'.db, t, s'.starts)
  {
    forall y | y in s'.starts
      ensures y in s'.db.claims && Of(s'.db, t, y) == Of(s.db, t, y)
    {
      assert y in s.db.claims;
    }
  }

  lemma AboutToStartKnown(db: Db, t: TimerId, ws: seq<Worker>, r: RunId)
    requires AboutToStart(db, t, ws, r)
    ensures Of(db, t, r)
  {
  }

  lemma {:induction false} AlwaysStartedOnce(b: Run, i: nat, t: TimerId)
    requires IsRun(b) && i < |b.states|
    requires forall j | 0 <= j < i :: ReturnsNone(b.states[j], b.steps[j], t)
    ensures StartedOnce(b.states[i], t)
    decreases i
  {
    hide Next, Accounted, Locked, ReturnsNone, StaysTaken, AboutToStart, Extends;
    if i > 0 {
      AlwaysStartedOnce(b, i - 1, t);
      AlwaysAccounted(b, i - 1);
      AlwaysLocked(b, i - 1);
      var s, e, s' := b.states[i - 1], b.steps[i - 1], b.states[i];
      NextExtends(s, e, s');
      NothingReturns(s, e, s', t);
      NextStartedOnce(s, e, s', t);
    }
  }

  /** The claim of a worker that is about to release its lane is closed. */
  ghost predicate LeavesClosed(db: Db, p: Proc, t: TimerId) {
    forall w | 0 <= w < |p.workers| && p.workers[w].Leaving? && Of(db, t, p.workers[w].run) ::
      db.claims[p.workers[w].run].status == Finished
  }

  lemma WorkerLeavesClosed(v: View, w: nat, a: WorkerAct, t: TimerId)
    requires w < |v.p.workers| && WorkerStep(v, w, a).Some? && ActWritesOk(v.db, v.p, OnWorker(w, a), t)
    requires a.RependRun? && v.p.workers[w].Repending? ==> !Of(v.db, t, v.p.workers[w].run)
    requires Extends(v.db, WorkerStep(v, w, a).value.db) && LeavesClosed(v.db, v.p, t)
    requires forall u | 0 <= u < |v.p.workers| && v.p.workers[u].Busy() :: v.p.workers[u].run in v.db.claims
    ensures var v' := WorkerStep(v, w, a).value; LeavesClosed(v'.db, v'.p, t)
  {
    hide WorkerStep;
    var v' := WorkerStep(v, w, a).value;
    WorkerStays(v, w, a);
    LeaverCloses(v, w, a, t);
    forall u | 0 <= u < |v'.p.workers| && v'.p.workers[u].Leaving? && Of(v'.db, t, v'.p.workers[u].run)
      ensures v'.db.claims[v'.p.workers[u].run].status == Finished
    {
      if u != w { assert v'.p.workers[u] == v.p.workers[u]; }
    }
  }

  lemma LeaverCloses(v: View, w: nat, a: WorkerAct, t: TimerId)
    requires w < |v.p.workers| && WorkerStep(v, w, a).Some? && ActWritesOk(v.db, v.p, OnWorker(w, a), t)
    requires a.RependRun? && v.p.workers[w].Repending? ==> !Of(v.db, t, v.p.workers[w].run)
    requires v.p.workers[w].Busy() ==> v.p.workers[w].run in v.db.claims
    requires |WorkerStep(v, w, a).value.p.workers| == |v.p.workers|
    ensures var v', x' := WorkerStep(v, w, a).value, WorkerStep(v, w, a).value.p.workers[w];
      x'.Leaving? && Of(v'.db, t, x'.run) ==> v'.db.claims[x'.run].status == Finished
  {
    hide WorkerStep, CommitResult, Repend;
    LeaverSource(v, w, a);
    ClosesRow(v.db, v.p.workers[w]);
    if v.p.workers[w].Busy() { RependsOwnRow(v.db, v.p.workers[w].run, t); }
  }

  /** A worker comes to release its lane by closing its claim or giving it back. */
  lemma LeaverSource(v: View, w: nat, a: WorkerAct)
    requires w < |v.p.workers| && WorkerStep(v, w, a).Some?
    requires |WorkerStep(v, w, a).value.p.workers| == |v.p.workers|
    ensures var v', x := WorkerStep(v, w, a).value, v.p.workers[w];
      var x' := v'.p.workers[w];
      x'.Leaving? ==>
        && x.Busy() && x'.run == x.run
        && (|| (a.Commit? && x.Closing? && v'.db == if a.ok then CommitResult(v.db, x.run, x.outcome) else v.db)
            || (a.RependRun? && x.Repending? && v'.db == if a.ok then Repend(v.db, x.run) else v.db))
  {
    hide Activate, CommitResult, Repend, Activated, Left, Dropped, MayRelease, MayReport, TokenFor, LaneOf;
  }

  lemma ClosesRow(db: Db, x: Worker)
    ensures x.Closing? && x.run in db.claims ==>
        CommitResult(db, x.run, x.outcome).claims[x.run].status == Finished
  {
  }

  lemma RependsOwnRow(db: Db, r: RunId, t: TimerId)
    ensures Of(Repend(db, r), t, r) <==> Of(db, t, r)
  {
  }

  ghost predicate AllLeaveClosed(s: World, t: TimerId) {
    forall pid | pid in s.procs :: LeavesClosed(s.db, s.procs[pid], t)
  }

  lemma NextLeavesClosed(s: World, e: Step, s': World, t: TimerId)
    requires Next(s, e, s') && Orderly(s, e, t) && ReturnsNone(s, e, t) && Accounted(s) && AllLeaveClosed(s, t)
    ensures AllLeaveClosed(s', t)
  {
    hide ThreadStep, Accounts, Fire, NextSeqno, ListsPending;
    NextExtends(s, e, s');
    forall q | q in s'.procs ensures LeavesClosed(s'.db, s'.procs[q], t) {
      if e.Thread? && q == e.pid { StepperLeavesClosed(s, q, e.act, t); }
      else if q in s.procs { AccountsAt(s, q); BusyRunsKnown(s.db.claims, s.procs[q]); }
    }
  }

  lemma BusyRunsKnown(claims: Claims, p: Proc)
    requires Accounts(claims, p)
    ensures forall u | 0 <= u < |p.workers| && p.workers[u].Busy() :: p.workers[u].run in claims
    ensures forall u | 0 <= u < |p.workers| && p.workers[u].HoldsActive() ::
        p.workers[u].run in claims && claims[p.workers[u].run].timer == p.workers[u].timer
  {
    assert forall u | 0 <= u < |p.workers| :: WorkerReserved(claims, p.lanes, p.workers[u]);
  }

  lemma StepperLeavesClosed(s: World, pid: ProcId, act: Act, t: TimerId)
    requires pid in s.procs && ThreadStep(ViewOf(s, pid), pid, act).Some? && Accounts(s.db.claims, s.procs[pid])
    requires Orderly(s, Thread(pid, act), t) && ReturnsNone(s, Thread(pid, act), t)
    requires LeavesClosed(s.db, s.procs[pid], t) && Extends(s.db, ThreadStep(ViewOf(s, pid), pid, act).value.db)
    ensures var v' := ThreadStep(ViewOf(s, pid), pid, act).value; LeavesClosed(v'.db, v'.p, t)
  {
    hide WorkerStep, PumpStep, BootStep, DownStep, Accounts;
    var v := ViewOf(s, pid);
    BusyRunsKnown(s.db.claims, s.procs[pid]);
    match act
    case OnWorker(w, wa) => WorkerLeavesClosed(v, w, wa, t);
    case OnPump(pa) => PumpKeepsWorkers(v, pid, pa);
    case _ => CallerQuiet(v, pid, act);
  }

  lemma {:induction false} AlwaysLeavesClosed(b: Run, i: nat, t: TimerId)
    requires IsRun(b) && i < |b.states|
    requires forall j | 0 <= j < i ::
        Orderly(b.states[j], b.steps[j], t) && ReturnsNone(b.states[j], b.steps[j], t)
    ensures AllLeaveClosed(b.states[i], t)
    decreases i
  {
    hide Next, Accounted, ReturnsNone, WritesOk, LeavesClosed;
    if i > 0 {
      AlwaysLeavesClosed(b, i - 1, t);
      AlwaysAccounted(b, i - 1);
      NextLeavesClosed(b.states[i - 1], b.steps[i - 1], b.states[i], t);
    }
  }

  /** Then no release is late. */
  lemma ClosedIsNotLate(s: World, e: Step, t: TimerId)
    requires AllLeaveClosed(s, t)
    ensures NoLateRelease(s, e, t)
  {
  }

  /** Main result: when moreover no claim of the timer ever returns to `pending`, its starts strictly
      increase, whatever stale snapshots the pump works from. */
  lemma SerialStartsStrictly(b: Run, i: nat, t: TimerId, m: nat, n: nat)
    requires IsRun(b) && i < |b.states|
    requires forall j | 0 <= j < i :: Orderly(b.states[j], b.steps[j], t) && SerialTimer(b.states[j].db, t)
                                      && ReturnsNone(b.states[j], b.steps[j], t)
    requires m < n < |b.states[i].starts|
    requires Of(b.states[i].db, t, b.states[i].starts[m]) && Of(b.states[i].db, t, b.states[i].starts[n])
    ensures b.states[i].db.claims[b.states[i].starts[m]].seqno < b.states[i].db.claims[b.states[i].starts[n]].seqno
  {
    hide Next, WritesOk, ReturnsNone, SerialTimer, LateRelease, AllLeaveClosed;
    forall j | 0 <= j < i ensures NoLateRelease(b.states[j], b.steps[j], t) {
      AlwaysLeavesClosed(b, j, t);
      ClosedIsNotLate(b.states[j], b.steps[j], t);
    }
    SerialStartsInOrder(b, i, t, m, n);
    AlwaysStartedOnce(b, i, t);
    AlwaysDistinctSeqnos(b, i);
    hide NoLateRelease;
    assert b.states[i].starts[m] != b.states[i].starts[n];
  }

  /** Main result: without any condition on order, a claim of the timer starts a second time only
      if some step returned a claim of the timer to `pending`. */
  lemma StartsTwiceOnlyAfterReturn(b: Run, i: nat, t: TimerId, m: nat, n: nat)
    requires IsRun(b) && i < |b.states| && m < n < |b.states[i].starts|
    requires b.states[i].starts[m] == b.states[i].starts[n] && Of(b.states[i].db, t, b.states[i].starts[m])
    ensures exists j :: 0 <= j < i && !ReturnsNone(b.states[j], b.steps[j], t)
  {
    hide Next, ReturnsNone;
    if forall j | 0 <= j < i :: ReturnsNone(b.states[j], b.steps[j], t) {
      AlwaysStartedOnce(b, i, t);
    }
  }
}
