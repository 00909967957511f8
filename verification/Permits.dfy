/** The dispatcher together with its action limiters: each process has one limiter with as many
    permits as workers, and a worker thread is inside it only while it executes an action. */
module Permits {
  import opened Options
  import opened Store
  import opened Dispatcher
  import opened Accounting
  import opened MutualExclusion
  import L = Limiter

  /** The limiter of one process: its thread `w` is worker `w`. `tried` is history: the workers that took
      a permit and gave it back since they began to execute their claim. */
  datatype PermitGate = PermitGate(sys: L.Sys, tried: set<nat>)

  datatype Joint = Joint(world: World, gates: map<ProcId, PermitGate>)

  datatype JointStep = Dispatch(step: Step) | OnGate(pid: ProcId, act: L.Step)

  /** The thread that takes a limiter step. */
  function Mover(e: L.Step): Option<nat> {
    match e
    case Acquire(i) => Some(i)
    case TryOnce(i) => Some(i)
    case Retake(i) => Some(i)
    case Give(i) => Some(i)
    case Notify(i, _) => Some(i)
    case Spurious(i) => Some(i)
    case ResetAll => None
  }

  /** Only the code that executes an action enters the limiter. */
  predicate MayEnter(p: Proc, e: L.Step) {
    Mover(e).Some? ==> Mover(e).value < |p.workers| && p.workers[Mover(e).value].Running?
  }

  /** Execution ends outside the limiter; an outcome other than an interruption is that of an attempt,
      which ran under a permit. */
  predicate MayEnd(g: PermitGate, act: Act) {
    && (act.OnWorker? && (act.wa.Report? || act.wa.Panic?) ==>
          act.w < |g.sys.threads| && g.sys.threads[act.w] == L.Outside)
    && (NeedsAttempt(act) ==> act.w in g.tried)
  }

  predicate NeedsAttempt(act: Act) { act.OnWorker? && act.wa.Report? && act.wa.outcome != WakeFailed(OverlapReplace) }

  /** The history after a dispatcher step: a worker that begins to execute has tried nothing yet. */
  function GatesAfter(gates: map<ProcId, PermitGate>, e: Step): map<ProcId, PermitGate> {
    match e
    case Spawn(pid, workers, _) => gates[pid := PermitGate(L.Fresh(workers), {})]
    case Crash(pid) => gates - {pid}
    case Thread(pid, OnWorker(w, LoadTimer(_))) =>
      if pid in gates then gates[pid := gates[pid].(tried := gates[pid].tried - {w})] else gates
    case _ => gates
  }

  function GateAfter(g: PermitGate, max: nat, e: L.Step): PermitGate
    requires L.Enabled(g.sys, e)
  {
    PermitGate(L.Do(g.sys, max, e), if e.Give? then g.tried + {e.i} else g.tried)
  }

  ghost predicate JointNext(s: Joint, e: JointStep, s': Joint) {
    match e
    case Dispatch(step) =>
      && Next(s.world, step, s'.world) && s'.gates == GatesAfter(s.gates, step)
      && (step.Spawn? ==> step.workers <= L.USIZE_MAX)
      && (step.Thread? ==> step.pid in s.gates && MayEnd(s.gates[step.pid], step.act))
    case OnGate(pid, act) =>
      && pid in s.world.procs && pid in s.gates && L.Enabled(s.gates[pid].sys, act) && MayEnter(s.world.procs[pid], act)
      && s' == s.(gates := s.gates[pid := GateAfter(s.gates[pid], |s.world.procs[pid].workers|, act)])
  }

  datatype JointRun = JointRun(states: seq<Joint>, steps: seq<JointStep>)

  ghost predicate IsJointRun(b: JointRun) {
    && |b.states| == |b.steps| + 1
    && Init(b.states[0].world) && b.states[0].gates == map[]
    && forall i | 0 <= i < |b.steps| :: JointNext(b.states[i], b.steps[i], b.states[i + 1])
  }

  /** A process and its limiter agree. */
  ghost predicate Matched(p: Proc, g: L.Sys) {
    && |g.threads| == |p.workers| && 1 <= |p.workers| <= L.USIZE_MAX
    && L.Sound(g, |p.workers|) && L.NobodyWaits(g)
    && (forall w | 0 <= w < |p.workers| && g.threads[w] != L.Outside :: p.workers[w].Running?)
  }

  ghost predicate AllMatched(s: Joint) {
    s.gates.Keys == s.world.procs.Keys && forall pid | pid in s.gates :: Matched(s.world.procs[pid], s.gates[pid].sys)
  }

  lemma FreshMatched(workers: nat, took: bool)
    requires 1 <= workers <= L.USIZE_MAX
    ensures Matched(Spawned(workers, took), L.Fresh(workers))
  {
    hide L.Sound;
    L.FreshSound(workers, workers);
  }

  lemma GateMatched(p: Proc, g: L.Sys, e: L.Step)
    requires Matched(p, g) && L.Enabled(g, e) && MayEnter(p, e)
    ensures Matched(p, L.Do(g, |p.workers|, e))
  {
    hide L.Sound, L.NobodyWaits;
    L.DoSound(g, |p.workers|, e);
    L.StillNobodyWaits(g, |p.workers|, e);
    MoverOnly(g, |p.workers|, e);
  }

  /** A step changes no other thread between outside and inside. */
  lemma MoverOnly(g: L.Sys, max: nat, e: L.Step)
    requires L.Enabled(g, e)
    ensures var g' := L.Do(g, max, e);
      && |g'.threads| == |g.threads|
      && (forall w | 0 <= w < |g.threads| && Mover(e) != Some(w) && g'.threads[w] != L.Outside ::
          g.threads[w] != L.Outside)
  {
  }

  /** A worker leaves the executing state only by reporting or panicking. */
  lemma RunsUntilItEnds(v: View, w: nat, a: WorkerAct)
    requires w < |v.p.workers| && WorkerStep(v, w, a).Some?
    ensures v.p.workers[w].Running? ==> a.Report? || a.Panic?
  {
  }

  lemma ThreadMatched(v: View, pid: ProcId, act: Act, g: PermitGate)
    requires ThreadStep(v, pid, act).Some? && Matched(v.p, g.sys) && MayEnd(g, act)
    ensures Matched(ThreadStep(v, pid, act).value.p, g.sys)
  {
    hide WorkerStep, PumpStep, BootStep, DownStep, L.Sound, L.NobodyWaits;
    match act
    case OnWorker(w, wa) =>
      WorkerStays(v, w, wa);
      RunsUntilItEnds(v, w, wa);
    case OnPump(pa) => PumpKeepsWorkers(v, pid, pa);
    case _ => CallerQuiet(v, pid, act);
  }

  lemma JointNextMatched(s: Joint, e: JointStep, s': Joint)
    requires AllMatched(s) && JointNext(s, e, s')
    ensures AllMatched(s')
  {
    hide Matched, ThreadStep, Fire, Spawned, L.Do, L.Fresh, L.Enabled, MayEnter, MayEnd;
    match e
    case Dispatch(step) =>
      if step.Thread? { ThreadMatched(ViewOf(s.world, step.pid), step.pid, step.act, s.gates[step.pid]); }
      if step.Spawn? { FreshMatched(step.workers, step.took); }
    case OnGate(pid, act) => GateMatched(s.world.procs[pid], s.gates[pid].sys, act);
  }

  lemma {:induction false} AlwaysMatched(b: JointRun, i: nat)
    requires IsJointRun(b) && i < |b.states|
    ensures AllMatched(b.states[i])
    decreases i
  {
    hide JointNext, Matched;
    if i > 0 {
      AlwaysMatched(b, i - 1);
      JointNextMatched(b.states[i - 1], b.steps[i - 1], b.states[i]);
    }
  }

  function RunningWorkers(ws: seq<Worker>): set<nat> { set w: nat | w < |ws| && ws[w].Running? }

  lemma {:induction false} HoldersRun(threads: seq<L.Phase>, ws: seq<Worker>)
    requires |threads| == |ws|
    requires forall w | 0 <= w < |ws| && threads[w] != L.Outside :: ws[w].Running?
    ensures L.Count(threads, L.Holding) <= |RunningWorkers(ws)| <= |ws|
    decreases |ws|
  {
    if ws == [] {
      assert RunningWorkers(ws) == {};
    } else {
      var n := |ws| - 1;
      HoldersRun(threads[..n], ws[..n]);
      assert RunningWorkers(ws) == RunningWorkers(ws[..n]) + (if ws[n].Running? then {n} else {});
    }
  }

  /** Main result: in every state of every joint run the permits in use are at most the workers that
      execute an action, and nobody has ever waited for one. */
  lemma PermitsWithinWorkers(b: JointRun, i: nat, pid: ProcId)
    requires IsJointRun(b) && i < |b.states| && pid in b.states[i].world.procs
    ensures var s := b.states[i];
      pid in s.gates
      && var p, g := s.world.procs[pid], s.gates[pid].sys;
      && g.g.inFlight <= |RunningWorkers(p.workers)| <= |p.workers|
      && g.g.queueWaits == 0
      && (forall w | 0 <= w < |g.threads| :: g.threads[w] != L.Sleeping && g.threads[w] != L.Awake)
  {
    hide JointNext;
    AlwaysMatched(b, i);
    assert Matched(b.states[i].world.procs[pid], b.states[i].gates[pid].sys);
    HoldersRun(b.states[i].gates[pid].sys.threads, b.states[i].world.procs[pid].workers);
  }

  /** Main result: no worker blocks inside `acquire`: every call is granted at once. */
  lemma AcquireIsImmediate(b: JointRun, i: nat, pid: ProcId, w: nat)
    requires IsJointRun(b) && i < |b.steps| && b.steps[i] == OnGate(pid, L.Acquire(w))
    ensures pid in b.states[i + 1].gates && L.At(b.states[i + 1].gates[pid].sys, w, L.Holding)
  {
    hide Next;
    AlwaysMatched(b, i);
    var s := b.states[i];
    assert JointNext(s, b.steps[i], b.states[i + 1]);
    assert Matched(s.world.procs[pid], s.gates[pid].sys);
    L.RoomForOutsiders(s.gates[pid].sys, |s.world.procs[pid].workers|, w);
  }

  // -- Every run of the dispatcher, with permits --------------------------

  /** The dispatcher's side of a joint run. */
  ghost function DispatchSteps(steps: seq<JointStep>): seq<Step> {
    if steps == [] then []
    else
      var n := |steps| - 1;
      DispatchSteps(steps[..n]) + if steps[n].Dispatch? then [steps[n].step] else []
  }

  ghost function Worlds(b: JointRun): seq<World>
    requires |b.states| == |b.steps| + 1
    decreases |b.steps|
  {
    if b.steps == [] then [b.states[0].world]
    else
      var n := |b.steps| - 1;
      Worlds(JointRun(b.states[..n + 1], b.steps[..n])) + if b.steps[n].Dispatch? then [b.states[n + 1].world] else []
  }

  predicate Idle(g: L.Sys) { forall w | 0 <= w < |g.threads| :: g.threads[w] == L.Outside }

  ghost predicate AllIdle(s: Joint) { forall pid | pid in s.gates :: Idle(s.gates[pid].sys) }

  /** A joint run with the states and steps of `b` on the dispatcher's side, all limiters at rest. */
  ghost predicate Carries(j: JointRun, b: Run) {
    && IsJointRun(j) && DispatchSteps(j.steps) == b.steps && Worlds(j) == b.states
    && AllIdle(j.states[|j.steps|])
  }

  /** The same up to some step of a longer run; limiters may be in use. */
  ghost predicate Follows(j: JointRun, steps: seq<Step>, states: seq<World>, s: Joint) {
    IsJointRun(j) && DispatchSteps(j.steps) == steps && Worlds(j) == states && j.states[|j.steps|] == s
  }

  lemma Append(j: JointRun, steps: seq<Step>, states: seq<World>, s: Joint, e: JointStep, s': Joint)
    requires Follows(j, steps, states, s) && JointNext(s, e, s')
    ensures Follows(JointRun(j.states + [s'], j.steps + [e]),
                    if e.Dispatch? then steps + [e.step] else steps,
                    if e.Dispatch? then states + [s'.world] else states, s')
  {
    hide JointNext;
    var n := |j.steps|;
    var j' := JointRun(j.states + [s'], j.steps + [e]);
    assert j'.steps[..n] == j.steps && j'.states[..n + 1] == j.states;
    forall k | 0 <= k < |j'.steps| ensures JointNext(j'.states[k], j'.steps[k], j'.states[k + 1]) {
      if k < n { assert JointNext(j.states[k], j.steps[k], j.states[k + 1]); }
    }
  }

  /** A worker of a process at rest takes a permit and gives it back. */
  lemma Attempt(j: JointRun, steps: seq<Step>, states: seq<World>, s: Joint, pid: ProcId, w: nat)
    returns (j': JointRun, s': Joint)
    requires Follows(j, steps, states, s) && AllIdle(s) && AllMatched(s)
    requires pid in s.world.procs && w < |s.world.procs[pid].workers| && s.world.procs[pid].workers[w].Running?
    ensures Follows(j', steps, states, s') && AllIdle(s') && s'.world == s.world && s'.gates.Keys == s.gates.Keys
    ensures pid in s'.gates && w in s'.gates[pid].tried
  {
    hide IsJointRun, L.Sound, DispatchSteps, Worlds;
    var p, g := s.world.procs[pid], s.gates[pid];
    var max := |p.workers|;
    assert Matched(p, g.sys);
    L.RoomForOutsiders(g.sys, max, w);
    var g1 := GateAfter(g, max, L.Acquire(w));
    GateMatched(p, g.sys, L.Acquire(w));
    var s1 := s.(gates := s.gates[pid := g1]);
    Append(j, steps, states, s, OnGate(pid, L.Acquire(w)), s1);
    var j1 := JointRun(j.states + [s1], j.steps + [OnGate(pid, L.Acquire(w))]);
    var g2 := GateAfter(g1, max, L.Give(w));
    var s2 := s1.(gates := s1.gates[pid := g2]);
    Append(j1, steps, states, s1, OnGate(pid, L.Give(w)), s2);
    var j2 := JointRun(j1.states + [s2], j1.steps + [OnGate(pid, L.Give(w))]);
    assert L.Sleeping !in g2.sys.threads;
    var g3 := GateAfter(g2, max, L.Notify(w, -1));
    s' := s2.(gates := s2.gates[pid := g3]);
    Append(j2, steps, states, s2, OnGate(pid, L.Notify(w, -1)), s');
    j' := JointRun(j2.states + [s'], j2.steps + [OnGate(pid, L.Notify(w, -1))]);
  }

  /** Main result: every run of the dispatcher whose processes have machine-sized worker counts is the
      dispatcher's side of a joint run: wherever it reports an attempt's outcome, the worker can take
      its permit at once, run and give it back before. */
  lemma {:induction false} EveryRunIsJoint(b: Run)
    requires IsRun(b) && forall e | e in b.steps && e.Spawn? :: e.workers <= L.USIZE_MAX
    ensures exists j: JointRun :: Carries(j, b)
    decreases |b.steps|
  {
    hide Next, AllIdle;
    if b.steps == [] {
      var j := JointRun([Joint(b.states[0], map[])], []);
      assert AllIdle(j.states[0]) by { NoGatesIdle(j.states[0]); }
      assert Worlds(j) == b.states;
      assert Carries(j, b);
    } else {
      var n := |b.steps| - 1;
      var most := Run(b.states[..n + 1], b.steps[..n]);
      assert forall e | e in most.steps :: e in b.steps;
      EveryRunIsJoint(most);
      var j: JointRun :| Carries(j, most);
      assert Next(b.states[n], b.steps[n], b.states[n + 1]) && b.steps[n] in b.steps;
      assert most.steps + [b.steps[n]] == b.steps && most.states + [b.states[n + 1]] == b.states;
      ExtendJoint(most, b.steps[n], b.states[n + 1], j);
    }
  }

  lemma NoGatesIdle(s: Joint)
    requires s.gates == map[]
    ensures AllIdle(s)
  {
  }

  lemma WorldsEndLast(j: JointRun)
    requires |j.states| == |j.steps| + 1 && IsJointRun(j)
    ensures Worlds(j) != [] && Worlds(j)[|Worlds(j)| - 1] == j.states[|j.steps|].world
    decreases |j.steps|
  {
    hide IsJointRun, JointNext;
    if j.steps != [] {
      var n := |j.steps| - 1;
      AllButLast(j);
      WorldsEndLast(JointRun(j.states[..n + 1], j.steps[..n]));
      GateKeepsWorld(j.states[n], j.steps[n], j.states[n + 1]);
    }
  }

  lemma AllButLast(j: JointRun)
    requires |j.states| == |j.steps| + 1 && IsJointRun(j) && j.steps != []
    ensures var n := |j.steps| - 1;
      IsJointRun(JointRun(j.states[..n + 1], j.steps[..n])) && JointNext(j.states[n], j.steps[n], j.states[n + 1])
  {
    hide JointNext;
    var n := |j.steps| - 1;
    var i := JointRun(j.states[..n + 1], j.steps[..n]);
    forall k | 0 <= k < n ensures JointNext(i.states[k], i.steps[k], i.states[k + 1]) {
      assert JointNext(j.states[k], j.steps[k], j.states[k + 1]);
    }
  }

  lemma GateKeepsWorld(s: Joint, e: JointStep, s': Joint)
    requires JointNext(s, e, s')
    ensures e.OnGate? ==> s'.world == s.world
  {
    hide Next, L.Do, MayEnter, GateAfter;
  }

  lemma ExtendJoint(b: Run, e: Step, world': World, j: JointRun)
    requires |b.states| == |b.steps| + 1 && Carries(j, b) && Next(b.states[|b.steps|], e, world')
    requires e.Spawn? ==> e.workers <= L.USIZE_MAX
    ensures exists j': JointRun :: Carries(j', Run(b.states + [world'], b.steps + [e]))
  {
    hide Next, AllMatched, AllIdle, JointNext, Worlds, DispatchSteps, MayEnd;
    var s := j.states[|j.steps|];
    AlwaysMatched(j, |j.steps|);
    WorldsEndLast(j);
    var j1, s1 := j, s;
    if e.Thread? && NeedsAttempt(e.act) {
      ReportsRunning(s.world, e, world');
      j1, s1 := Attempt(j, b.steps, b.states, s, e.pid, e.act.w);
      AlwaysMatched(j1, |j1.steps|);
    }
    var s' := Joint(world', GatesAfter(s1.gates, e));
    DispatchesAtRest(s1, e, s');
    Append(j1, b.steps, b.states, s1, Dispatch(e), s');
    var j' := JointRun(j1.states + [s'], j1.steps + [Dispatch(e)]);
    assert Carries(j', Run(b.states + [world'], b.steps + [e]));
  }

  lemma ReportsRunning(s: World, e: Step, s': World)
    requires Next(s, e, s') && e.Thread? && NeedsAttempt(e.act)
    ensures e.pid in s.procs && e.act.w < |s.procs[e.pid].workers| && s.procs[e.pid].workers[e.act.w].Running?
  {
    hide PumpStep, BootStep, DownStep;
  }

  lemma DispatchesAtRest(s: Joint, e: Step, s': Joint)
    requires Next(s.world, e, s'.world) && AllMatched(s) && AllIdle(s) && s'.gates == GatesAfter(s.gates, e)
    requires e.Spawn? ==> e.workers <= L.USIZE_MAX
    requires e.Thread? && NeedsAttempt(e.act) ==> e.pid in s.gates && e.act.w in s.gates[e.pid].tried
    ensures JointNext(s, Dispatch(e), s') && AllIdle(s')
  {
    hide WorkerStep, PumpStep, BootStep, DownStep, Fire, L.Sound;
    if e.Thread? { StepsItsWorker(s.world, e, s'.world); }
  }

  lemma StepsItsWorker(s: World, e: Step, s': World)
    requires Next(s, e, s') && e.Thread?
    ensures e.pid in s.procs && (e.act.OnWorker? ==> e.act.w < |s.procs[e.pid].workers|)
  {
    hide WorkerStep, PumpStep, BootStep, DownStep;
  }
}
