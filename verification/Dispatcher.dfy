/** The fire dispatcher as a step system: several processes share the durable store and one
    OS lock; each has a pump thread, worker threads, a boot caller and a shutdown caller.
    One step is one store transaction, one atomic load or store, one channel operation, or
    one critical section of the lane book. */
module Dispatcher {
  import opened Options
  import opened Store
  import opened Lanes

  type ProcId = nat

  datatype RunLevel = Primed | Started | Stopping

  /** Where a worker thread stands; every constructor from `Hinted` on handles one claim. */
  datatype Worker =
    | Opening                                                  // opening its store
    | Idle                                                     // waiting on the channel
    | Exited
    | Hinted(run: RunId)                                       // received, claim not read yet
    | Checked(run: RunId, timer: TimerId)                      // read as pending, CAS next
    | Dropping(run: RunId)                                     // stale hint, release next
    | Won(run: RunId, timer: TimerId)                          // CAS won, lane move next
    | Moved(run: RunId, timer: TimerId, token: Token)          // reservation active
    | Running(run: RunId, timer: TimerId, token: Token)        // executing the action
    | Closing(run: RunId, timer: TimerId, token: Token, outcome: Outcome)
    | Repending(run: RunId, timer: TimerId, token: Token)      // panic or timer-load error
    | Leaving(run: RunId, timer: TimerId)                      // lane release next
  {
    /** Its reservation is still in the queued part of the lane. */
    predicate HoldsQueued() { Hinted? || Checked? || Dropping? || Won? }

    /** Its reservation is in the active part of the lane. */
    predicate HoldsActive() { Moved? || Running? || Closing? || Repending? || Leaving? }

    predicate Busy() { HoldsQueued() || HoldsActive() }

    predicate HasToken() { Moved? || Running? || Closing? || Repending? }

    /** It won the CAS and has not yet closed the claim or given it back. */
    predicate Owes() { Won? || Moved? || Running? || Closing? || Repending? }
  }

  /** The pending snapshot of one pump pass: per timer, oldest sequence first. */
  type Groups = map<TimerId, seq<RunId>>

  datatype Pump =
    | Top | TryLock | Took | Recovering | Starting | Gate | Guard
    | ReadCancels | Signal(ids: set<RunId>) | Snapshot
    | LaneWait(groups: Groups)                                 // snapshot taken, lane lock not yet
    | Pass(groups: Groups, current: Option<TimerId>)           // holding the lane lock
    | Halted

  datatype Boot = BootIdle | BootLock | BootRecover | BootPublish

  datatype Shutdown = Serving | CloseSender | Joining | Releasing | Clearing | Down

  datatype Proc = Proc(
    level: RunLevel, ownsLock: bool, sender: bool,
    channel: seq<RunId>, lanes: Lanes, workers: seq<Worker>,
    nextToken: Token, cancelled: set<Token>,
    pump: Pump, boot: Boot, shutdown: Shutdown,
    recovered: bool)          // history: recovery has run since this process last took the lock

  function Capacity(p: Proc): nat { 2 * |p.workers| }

  /** All threads of the process have been joined. */
  predicate Joined(p: Proc) { p.shutdown.Releasing? || p.shutdown.Clearing? || p.shutdown.Down? }

  /** What one thread can see and change. */
  datatype View = View(db: Db, lock: Option<ProcId>, starts: seq<RunId>, p: Proc)

  // -- Workers ------------------------------------------------------------

  datatype WorkerAct =
    | OpenStore(ok: bool) | Recv | LoadClaim(ok: bool) | Cas(ok: bool)
    | ReleaseHint(lane: Option<TimerId>) | MoveLane | LoadTimer(ok: bool)
    | Report(outcome: Outcome) | Panic | Commit(ok: bool) | RependRun(ok: bool) | LeaveLane

  function SetWorker(p: Proc, w: nat, x: Worker): Proc
    requires w < |p.workers|
  {
    p.(workers := p.workers[w := x])
  }

  /** The lanes a stale hint's release may pick: any lane that queues it. */
  ghost predicate MayRelease(lanes: Lanes, r: RunId, lane: Option<TimerId>) {
    match lane
    case Some(t) => Queued(lanes, t, r)
    case None => forall t :: !Queued(lanes, t, r)
  }

  /** What the executor may report for a run holding `token`. */
  predicate MayReport(p: Proc, token: Token, outcome: Outcome) {
    || outcome == WakeDelivered
    || outcome == WakeFailed(ActionError)
    || (outcome == WakeFailed(OverlapReplace) && token in p.cancelled)
  }

  ghost function WorkerStep(v: View, w: nat, a: WorkerAct): Option<View>
    requires w < |v.p.workers|
  {
    var p := v.p;
    var x := p.workers[w];
    match a
    case OpenStore(ok) =>
      if x.Opening? then Some(v.(p := SetWorker(p, w, if ok then Idle else Exited))) else None
    case Recv =>
      if !x.Idle? then None
      else if p.channel != [] then
        Some(v.(p := SetWorker(p.(channel := p.channel[1..]), w, Hinted(p.channel[0]))))
      else if !p.sender then Some(v.(p := SetWorker(p, w, Exited)))
      else None
    case LoadClaim(ok) =>
      if !x.Hinted? then None
      else if ok && x.run in v.db.claims && v.db.claims[x.run].status == Pending then
        Some(v.(p := SetWorker(p, w, Checked(x.run, v.db.claims[x.run].timer))))
      else Some(v.(p := SetWorker(p, w, Dropping(x.run))))
    case Cas(ok) =>
      if !x.Checked? then None
      else
        var (db, won) := Activate(v.db, x.run);
        if ok && won then Some(v.(db := db, p := SetWorker(p, w, Won(x.run, x.timer))))
        else Some(v.(p := SetWorker(p, w, Dropping(x.run))))
        // a lost or failed CAS leaves the row alone
    case ReleaseHint(lane) =>
      if !x.Dropping? || p.pump.Pass? || !MayRelease(p.lanes, x.run, lane) then None
      else
        var lanes := if lane.Some? then Dropped(p.lanes, lane.value, x.run) else p.lanes;
        Some(v.(p := SetWorker(p.(lanes := lanes), w, Idle)))
    case MoveLane =>
      if !x.Won? || p.pump.Pass? then None
      else
        var token := TokenFor(LaneOf(p.lanes, x.timer), x.run, p.nextToken);
        Some(v.(p := SetWorker(p.(lanes := Activated(p.lanes, x.timer, x.run, p.nextToken),
                                  nextToken := p.nextToken + 1),
                               w, Moved(x.run, x.timer, token))))
    case LoadTimer(ok) =>
      if !x.Moved? then None
      else if !ok then Some(v.(p := SetWorker(p, w, Repending(x.run, x.timer, x.token))))
      else if x.timer in v.db.timers then
        Some(v.(starts := v.starts + [x.run], p := SetWorker(p, w, Running(x.run, x.timer, x.token))))
      else Some(v.(p := SetWorker(p, w, Closing(x.run, x.timer, x.token, WakeFailed(TimerDeleted)))))
    case Report(outcome) =>
      if !x.Running? || !MayReport(p, x.token, outcome) then None
      else Some(v.(p := SetWorker(p, w, Closing(x.run, x.timer, x.token, outcome))))
    case Panic =>
      if !x.Running? then None
      else Some(v.(p := SetWorker(p, w, Repending(x.run, x.timer, x.token))))
    case Commit(ok) =>
      if !x.Closing? then None
      else Some(v.(db := if ok then CommitResult(v.db, x.run, x.outcome) else v.db,
                   p := SetWorker(p, w, Leaving(x.run, x.timer))))
    case RependRun(ok) =>
      if !x.Repending? then None
      else Some(v.(db := if ok then Repend(v.db, x.run) else v.db,
                   p := SetWorker(p, w, Leaving(x.run, x.timer))))
    case LeaveLane =>
      if !x.Leaving? || p.pump.Pass? then None
      else Some(v.(p := SetWorker(p.(lanes := Left(p.lanes, x.timer, x.run)), w, Idle)))
  }

  // -- Pump ---------------------------------------------------------------

  datatype PumpAct =
    | ReadLevel | TakeLock(ok: bool) | Reload | Recover(ok: bool) | Start | Check | Enter(ok: bool)
    | Cancels(ok: bool) | SignalTokens | TakeSnapshot(ok: bool, groups: Groups) | LockLanes
    | Pick(timer: TimerId) | Consider(loadOk: bool, finishOk: bool) | EndPass

  function CancelRequestedActive(db: Db): set<RunId> {
    set r | r in db.claims && db.claims[r].status == Active && db.claims[r].cancelRequested
  }

  /** The tokens stored under one of these run ids, in any lane. */
  ghost function TokensOf(lanes: Lanes, ids: set<RunId>): set<Token> {
    set t, r | t in lanes && r in ids && r in lanes[t].tokens :: lanes[t].tokens[r]
  }

  /** The pending rows grouped by timer, each group in ascending sequence order. */
  ghost predicate GroupsPending(db: Db, groups: Groups) {
    && (forall t | t in groups :: groups[t] != [] && ListsPending(db, t, groups[t]))
    && (forall r | r in db.claims && db.claims[r].status == Pending :: db.claims[r].timer in groups)
  }

  function Acquire(v: View, pid: ProcId): View {
    v.(lock := Some(pid), p := v.p.(ownsLock := true, recovered := false))
  }

  /** One claim of the lane pass over timer `t`'s group. */
  function ConsiderClaim(v: View, groups: Groups, t: TimerId, loadOk: bool, finishOk: bool): View
    requires t in groups
  {
    var p := v.p;
    var next := v.(p := p.(pump := Pass(groups - {t}, None)));       // leave this timer
    if groups[t] == [] then next
    else
      var r := groups[t][0];
      var popped := p.(pump := Pass(groups[t := groups[t][1..]], Some(t)));
      if Reserved(p.lanes, t, r) then v.(p := popped)
      else if !loadOk then next
      else if t !in v.db.timers then
        v.(db := if finishOk then Finish(v.db, r, WakeFailed(TimerDeleted), ByPump).0 else v.db, p := popped)
      else if Limit(v.db.timers[t]) == 0 then v.(p := popped)
      else if InLane(LaneOf(p.lanes, t)) >= Limit(v.db.timers[t]) then next
      else if p.sender && |p.channel| < Capacity(p) then
        v.(p := popped.(channel := p.channel + [r],
                        lanes := Enqueue(p.lanes, t, r, p.nextToken),
                        nextToken := p.nextToken + 1))
      else
        // full channel or closed sender: the pass ends, the claim stays pending
        v.(p := p.(pump := Top, lanes := p.lanes[t := LaneOf(p.lanes, t)]))
  }

  ghost function PumpStep(v: View, pid: ProcId, a: PumpAct): Option<View> {
    var p := v.p;
    match a
    case ReadLevel =>
      if !p.pump.Top? then None
      else Some(v.(p := p.(pump := if p.level == Stopping then Halted else TryLock)))
    case TakeLock(ok) =>
      if !p.pump.TryLock? then None
      else if !p.ownsLock && ok && v.lock == None then
        var got := Acquire(v, pid);
        Some(got.(p := got.p.(pump := Took)))
      else Some(v.(p := p.(pump := Gate)))
    case Reload =>
      if !p.pump.Took? then None
      else Some(v.(p := p.(pump := if p.level == Stopping then Gate else Recovering)))
    case Recover(ok) =>
      if !p.pump.Recovering? then None
      else if ok then Some(v.(db := RependAll(v.db), p := p.(pump := Starting, recovered := true)))
      else Some(v.(p := p.(pump := Starting)))
    case Start =>
      if !p.pump.Starting? then None else Some(v.(p := p.(pump := Gate, level := Started)))
    case Check =>
      if !p.pump.Gate? then None
      else Some(v.(p := p.(pump := if p.level == Started then Guard else Top)))
    case Enter(ok) =>
      if !p.pump.Guard? then None
      else Some(v.(p := p.(pump := if p.ownsLock && ok then ReadCancels else Top)))
    case Cancels(ok) =>
      if !p.pump.ReadCancels? then None
      else Some(v.(p := p.(pump := Signal(if ok then CancelRequestedActive(v.db) else {}))))
    case SignalTokens =>
      if !p.pump.Signal? then None
      else Some(v.(p := p.(pump := Snapshot, cancelled := p.cancelled + TokensOf(p.lanes, p.pump.ids))))
    case TakeSnapshot(ok, groups) =>
      if !p.pump.Snapshot? || (ok && !GroupsPending(v.db, groups)) then None
      else Some(v.(p := p.(pump := if ok then LaneWait(groups) else Top)))
    case LockLanes =>
      if !p.pump.LaneWait? then None
      else Some(v.(p := p.(pump := Pass(p.pump.groups, None))))
    case Pick(t) =>
      if !p.pump.Pass? || p.pump.current.Some? || t !in p.pump.groups then None
      else Some(v.(p := p.(pump := Pass(p.pump.groups, Some(t)))))
    case Consider(loadOk, finishOk) =>
      if !p.pump.Pass? || p.pump.current.None? || p.pump.current.value !in p.pump.groups then None
      else Some(ConsiderClaim(v, p.pump.groups, p.pump.current.value, loadOk, finishOk))
    case EndPass =>
      if !p.pump.Pass? || p.pump.current.Some? || p.pump.groups != map[] then None
      else Some(v.(p := p.(pump := Top)))
  }

  // -- Boot and shutdown callers ------------------------------------------

  datatype BootAct = BootCall | BootTakeLock(ok: bool) | BootRepend(ok: bool) | BootStart

  function BootStep(v: View, pid: ProcId, a: BootAct): Option<View> {
    var p := v.p;
    match a
    case BootCall =>
      if !p.boot.BootIdle? then None else Some(v.(p := p.(boot := BootLock)))
    case BootTakeLock(ok) =>
      if !p.boot.BootLock? then None
      else if p.ownsLock then Some(v.(p := p.(boot := BootRecover)))
      else if ok && v.lock == None then
        var got := Acquire(v, pid);
        Some(got.(p := got.p.(boot := BootRecover)))
      else Some(v.(p := p.(boot := BootIdle)))
    case BootRepend(ok) =>
      if !p.boot.BootRecover? then None
      else if ok then Some(v.(db := RependAll(v.db), p := p.(boot := BootPublish, recovered := true)))
      else Some(v.(p := p.(boot := BootPublish)))
    case BootStart =>
      if !p.boot.BootPublish? then None else Some(v.(p := p.(boot := BootIdle, level := Started)))
  }

  datatype DownAct = DownCall | DownClose | DownJoin | DownRelease | DownClear

  predicate AllExited(p: Proc) {
    p.pump.Halted? && forall w | 0 <= w < |p.workers| :: p.workers[w].Exited?
  }

  function DownStep(v: View, pid: ProcId, a: DownAct): Option<View> {
    var p := v.p;
    match a
    case DownCall =>
      if !p.shutdown.Serving? then None
      else Some(v.(p := p.(level := Stopping, shutdown := CloseSender)))
    case DownClose =>
      if !p.shutdown.CloseSender? then None
      else Some(v.(p := p.(sender := false, shutdown := Joining)))
    case DownJoin =>
      if !p.shutdown.Joining? || !AllExited(p) then None
      else Some(v.(p := p.(shutdown := Releasing)))
    case DownRelease =>
      if !p.shutdown.Releasing? then None
      else Some(v.(lock := if v.lock == Some(pid) then None else v.lock, p := p.(shutdown := Clearing)))
    case DownClear =>
      if !p.shutdown.Clearing? then None
      else Some(v.(p := p.(ownsLock := false, shutdown := Down)))
  }

  // -- The whole system ---------------------------------------------------

  datatype World = World(db: Db, lock: Option<ProcId>, procs: map<ProcId, Proc>, starts: seq<RunId>)

  datatype Act =
    | OnWorker(w: nat, wa: WorkerAct) | OnPump(pa: PumpAct) | OnBoot(ba: BootAct) | OnDown(da: DownAct)

  datatype Step =
    | Spawn(pid: ProcId, workers: nat, took: bool)
    | Crash(pid: ProcId)
    | SetTimer(timer: TimerId, policy: OverlapPolicy)
    | DeleteTimer(timer: TimerId)
    | FireTx(timer: TimerId, run: RunId, n: nat, rows: seq<RunId>)
    | Thread(pid: ProcId, act: Act)

  function Spawned(workers: nat, took: bool): Proc {
    Proc(Primed, took, true, [], map[], seq(workers, _ => Opening), 0, {}, Top, BootIdle, Serving, false)
  }

  ghost function ThreadStep(v: View, pid: ProcId, act: Act): Option<View> {
    match act
    case OnWorker(w, wa) => if w < |v.p.workers| then WorkerStep(v, w, wa) else None
    case OnPump(pa) => PumpStep(v, pid, pa)
    case OnBoot(ba) => BootStep(v, pid, ba)
    case OnDown(da) => DownStep(v, pid, da)
  }

  function ViewOf(s: World, pid: ProcId): View
    requires pid in s.procs
  {
    View(s.db, s.lock, s.starts, s.procs[pid])
  }

  ghost predicate Next(s: World, e: Step, s': World) {
    match e
    case Spawn(pid, workers, took) =>
      && pid !in s.procs && workers >= 1 && (took ==> s.lock == None)
      && s' == s.(procs := s.procs[pid := Spawned(workers, took)], lock := if took then Some(pid) else s.lock)
    case Crash(pid) =>
      && pid in s.procs
      && s' == s.(procs := s.procs - {pid}, lock := if s.lock == Some(pid) then None else s.lock)
    case SetTimer(t, policy) => s' == s.(db := s.db.(timers := s.db.timers[t := policy]))
    case DeleteTimer(t) => s' == s.(db := s.db.(timers := s.db.timers - {t}))
    case FireTx(t, r, n, rows) =>
      && t in s.db.timers && r !in s.db.claims && NextSeqno(s.db, t, n) && ListsPending(s.db, t, rows)
      && s' == s.(db := Fire(s.db, t, r, n, rows))
    case Thread(pid, act) =>
      && pid in s.procs
      && var next := ThreadStep(ViewOf(s, pid), pid, act);
      && next.Some?
      && s' == World(next.value.db, next.value.lock, s.procs[pid := next.value.p], next.value.starts)
  }

  ghost predicate Init(s: World) {
    s.db.claims == map[] && s.db.outbox == [] && s.lock == None && s.procs == map[] && s.starts == []
  }

  /** A finite run: its states, and the step between each two neighbours. */
  datatype Run = Run(states: seq<World>, steps: seq<Step>)

  ghost predicate IsRun(b: Run) {
    && |b.states| == |b.steps| + 1
    && Init(b.states[0])
    && forall i | 0 <= i < |b.steps| :: Next(b.states[i], b.steps[i], b.states[i + 1])
  }
}
