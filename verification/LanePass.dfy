/** The lane pass as a whole, step by step among everything else that runs: what it has settled when it
    gives the lane lock back. */
module LanePass {
  import opened Options
  import opened Store
  import opened Lanes
  import opened Dispatcher
  import opened Accounting
  import opened MutualExclusion

  /** The pump of `pid` considers claim `r` of `t`, the head of the current group. */
  ghost predicate Considers(s: World, e: Step, pid: ProcId, t: TimerId, r: RunId) {
    && e.Thread? && e.pid == pid && e.act.OnPump? && e.act.pa.Consider? && pid in s.procs
    && s.procs[pid].pump.Pass? && s.procs[pid].pump.current == Some(t) && t in s.procs[pid].pump.groups
    && s.procs[pid].pump.groups[t] != [] && s.procs[pid].pump.groups[t][0] == r
  }

  /** A lane with `n` reservations takes one more. */
  predicate HasRoom(policy: OverlapPolicy, n: nat) {
    match policy
    case Skip => n == 0
    case QueueOne => n == 0
    case Replace => n == 0
    case Parallel(cap) => n < cap
  }

  /** The claim is reserved already, or its timer is gone and it is closed if the write succeeds, or its
      timer admits nothing, or its hint goes out. */
  ghost predicate Settles(s: World, e: Step, s': World, pid: ProcId, t: TimerId, r: RunId) {
    && Considers(s, e, pid, t, r) && pid in s'.procs
    && var p, p' := s.procs[pid], s'.procs[pid];
       || Reserved(p.lanes, t, r)
       || (t !in s.db.timers && s'.db == if e.act.pa.finishOk then Finish(s.db, r, WakeFailed(TimerDeleted), ByPump).0
           else s.db)
       || (t in s.db.timers && s.db.timers[t] == Parallel(0))
       || (p'.channel == p.channel + [r] && Reserved(p'.lanes, t, r))
  }

  /** The pass leaves the timer: a read failed, or its lane is full. */
  ghost predicate LeavesTimer(s: World, e: Step, pid: ProcId, t: TimerId) {
    exists r :: Considers(s, e, pid, t, r)
                && (!e.act.pa.loadOk
                    || (t in s.db.timers && !HasRoom(s.db.timers[t], InLane(LaneOf(s.procs[pid].lanes, t)))))
  }

  /** The pass gives up: it has a hint to send, and the channel is full or closed. */
  ghost predicate GivesUp(s: World, e: Step, pid: ProcId) {
    exists t, r :: Considers(s, e, pid, t, r) && !Reserved(s.procs[pid].lanes, t, r)
                   && t in s.db.timers && HasRoom(s.db.timers[t], InLane(LaneOf(s.procs[pid].lanes, t)))
                   && (!s.procs[pid].sender || |s.procs[pid].channel| >= Capacity(s.procs[pid]))
  }

  /** Some step from `i` to before `m` settled the claim. */
  ghost predicate SettledIn(b: Run, i: nat, m: nat, pid: ProcId, t: TimerId, r: RunId)
    requires m < |b.states| == |b.steps| + 1
  {
    exists k :: i <= k < m && Settles(b.states[k], b.steps[k], b.states[k + 1], pid, t, r)
  }

  ghost predicate LeftIn(b: Run, i: nat, m: nat, pid: ProcId, t: TimerId)
    requires m < |b.states| == |b.steps| + 1
  {
    exists k :: i <= k < m && LeavesTimer(b.states[k], b.steps[k], pid, t)
  }

  /** The pass is done with the timer: it left it, or settled each of its claims. */
  ghost predicate Served(b: Run, i: nat, m: nat, pid: ProcId, t: TimerId, group: seq<RunId>)
    requires m < |b.states| == |b.steps| + 1
  {
    LeftIn(b, i, m, pid, t) || forall r | r in group :: SettledIn(b, i, m, pid, t, r)
  }

  /** What remains of a timer's group: a rest whose earlier claims are settled, or nothing. */
  ghost predicate Remains(b: Run, i: nat, m: nat, pid: ProcId, t: TimerId, group: seq<RunId>, groups: Groups)
    requires m < |b.states| == |b.steps| + 1
  {
    if t in groups
    then |groups[t]| <= |group| && groups[t] == group[|group| - |groups[t]|..]
         && forall q | 0 <= q < |group| - |groups[t]| :: SettledIn(b, i, m, pid, t, group[q])
    else Served(b, i, m, pid, t, group)
  }

  lemma SettledLater(b: Run, i: nat, m: nat, pid: ProcId, t: TimerId, r: RunId)
    requires m + 1 < |b.states| == |b.steps| + 1 && SettledIn(b, i, m, pid, t, r)
    ensures SettledIn(b, i, m + 1, pid, t, r)
  {
    hide Settles;
    var k :| i <= k < m && Settles(b.states[k], b.steps[k], b.states[k + 1], pid, t, r);
    assert i <= k < m + 1;
  }

  lemma LeftLater(b: Run, i: nat, m: nat, pid: ProcId, t: TimerId)
    requires m + 1 < |b.states| == |b.steps| + 1 && LeftIn(b, i, m, pid, t)
    ensures LeftIn(b, i, m + 1, pid, t)
  {
    hide LeavesTimer;
    var k :| i <= k < m && LeavesTimer(b.states[k], b.steps[k], pid, t);
    assert i <= k < m + 1;
  }

  lemma RemainsLater(b: Run, i: nat, m: nat, pid: ProcId, t: TimerId, group: seq<RunId>, groups: Groups)
    requires m + 1 < |b.states| == |b.steps| + 1 && Remains(b, i, m, pid, t, group, groups)
    ensures Remains(b, i, m + 1, pid, t, group, groups)
  {
    hide SettledIn, LeftIn;
    forall r | SettledIn(b, i, m, pid, t, r) ensures SettledIn(b, i, m + 1, pid, t, r) {
      SettledLater(b, i, m, pid, t, r);
    }
    if LeftIn(b, i, m, pid, t) { LeftLater(b, i, m, pid, t); }
  }

  // -- One step -----------------------------------------------------------

  /** What considering the head of the current group does to the pump. */
  lemma ConsiderVerdict(v: View, t: TimerId, loadOk: bool, finishOk: bool)
    requires v.p.pump.Pass? && v.p.pump.current == Some(t) && t in v.p.pump.groups
    ensures var groups, p, v' := v.p.pump.groups, v.p, ConsiderClaim(v, v.p.pump.groups, t, loadOk, finishOk);
      if groups[t] == [] then v'.p.pump == Pass(groups - {t}, None)
      else
        var r := groups[t][0];
        || (v'.p.pump == Pass(groups - {t}, None)
            && (!loadOk || (t in v.db.timers && !HasRoom(v.db.timers[t], InLane(LaneOf(p.lanes, t))))))
        || (v'.p.pump == Pass(groups[t := groups[t][1..]], Some(t))
            && (|| Reserved(p.lanes, t, r)
                || (t !in v.db.timers && v'.db == if finishOk then Finish(v.db, r, WakeFailed(TimerDeleted), ByPump).0
                    else v.db)
                || (t in v.db.timers && v.db.timers[t] == Parallel(0))
                || (v'.p.channel == p.channel + [r] && Reserved(v'.p.lanes, t, r))))
        || (v'.p.pump == Top && !Reserved(p.lanes, t, r) && t in v.db.timers
            && HasRoom(v.db.timers[t], InLane(LaneOf(p.lanes, t)))
            && (!p.sender || |p.channel| >= Capacity(p)))
  {
    hide Finish;
  }

  /** Main result: the pass sends the hint of the claim it considers exactly when the timer could be
      read and exists, the claim is not reserved, the lane holds fewer reservations than the policy
      admits (one for Skip, QueueOne and Replace, the cap for Parallel), and the channel is open with a
      place free. Nothing else in the lanes changes. */
  lemma HintSentExactly(s: World, e: Step, s': World, pid: ProcId, t: TimerId, r: RunId)
    requires Next(s, e, s') && Considers(s, e, pid, t, r)
    ensures pid in s'.procs
    ensures var p, p' := s.procs[pid], s'.procs[pid];
      var lane := if t in p.lanes then p.lanes[t] else Lane([], {}, map[]);
      var held := |lane.queued| + |lane.active|;
      var sends :=
        && e.act.pa.loadOk && t in s.db.timers && r !in lane.queued && r !in lane.active
        && (match s.db.timers[t]
            case Skip => held < 1
            case QueueOne => held < 1
            case Replace => held < 1
            case Parallel(cap) => held < cap)
        && p.sender && |p.channel| < 2 * |p.workers|;
      && p'.channel == (if sends then p.channel + [r] else p.channel)
      && (sends ==> t in p'.lanes && p'.lanes[t].queued == lane.queued + [r] && p'.lanes[t].active == lane.active)
      && (!sends && t in p'.lanes ==> p'.lanes[t] == lane)
      && (!sends && t in p.lanes ==> t in p'.lanes)
      && (forall x | x != t :: x in p'.lanes <==> x in p.lanes)
      && (forall x | x != t && x in p.lanes :: p'.lanes[x] == p.lanes[x])
  {
    hide WorkerStep, BootStep, DownStep, Finish, TokenFor;
  }

  /** The pass of `pid` goes on: the group of `t` shrinks by a settled claim or disappears. */
  lemma NextRemains(b: Run, i: nat, m: nat, pid: ProcId, t: TimerId, group: seq<RunId>)
    requires IsRun(b) && i <= m && m + 1 < |b.states| && pid in b.states[m].procs && pid in b.states[m + 1].procs
    requires b.states[m].procs[pid].pump.Pass? && b.states[m + 1].procs[pid].pump.Pass?
    requires Remains(b, i, m, pid, t, group, b.states[m].procs[pid].pump.groups)
    ensures Remains(b, i, m + 1, pid, t, group, b.states[m + 1].procs[pid].pump.groups)
  {
    hide Next, Remains, Served, SettledIn, Considers;
    var s, e, s' := b.states[m], b.steps[m], b.states[m + 1];
    assert Next(s, e, s');
    RemainsLater(b, i, m, pid, t, group, s.procs[pid].pump.groups);
    PassStep(s, e, s', pid);
    if ConsidersSome(s, e, pid) {
      var x := s.procs[pid].pump.current.value;
      ConsiderRemains(b, i, m, pid, x, t, group);
    }
  }

  ghost predicate ConsidersSome(s: World, e: Step, pid: ProcId) {
    && e.Thread? && e.pid == pid && e.act.OnPump? && e.act.pa.Consider? && pid in s.procs
    && s.procs[pid].pump.Pass? && s.procs[pid].pump.current.Some?
    && s.procs[pid].pump.current.value in s.procs[pid].pump.groups
  }

  /** Only considering a claim changes the groups of a pass. */
  lemma PassStep(s: World, e: Step, s': World, pid: ProcId)
    requires Next(s, e, s') && pid in s.procs && pid in s'.procs && s.procs[pid].pump.Pass?
    ensures ConsidersSome(s, e, pid)
            || (s'.procs[pid].pump.Pass? && s'.procs[pid].pump.groups == s.procs[pid].pump.groups)
            || (s'.procs[pid].pump.Top? && s.procs[pid].pump.groups == map[])
  {
    hide WorkerStep, PumpStep, BootStep, DownStep, Fire, NextSeqno, ListsPending;
    if e.Thread? && e.pid == pid {
      match e.act
      case OnWorker(w, wa) => WorkerStays(ViewOf(s, pid), w, wa);
      case OnPump(pa) => PumpInPass(ViewOf(s, pid), pid, pa);
      case _ => CallerQuiet(ViewOf(s, pid), pid, e.act);
    }
  }

  lemma PumpInPass(v: View, pid: ProcId, a: PumpAct)
    requires PumpStep(v, pid, a).Some? && v.p.pump.Pass?
    ensures var p' := PumpStep(v, pid, a).value.p;
      || (a.Consider? && v.p.pump.current.Some? && v.p.pump.current.value in v.p.pump.groups)
      || (p'.pump.Pass? && p'.pump.groups == v.p.pump.groups)
      || (p'.pump.Top? && v.p.pump.groups == map[])
  {
    hide ConsiderClaim, GroupsPending, TokensOf, CancelRequestedActive, RependAll;
  }

  lemma ConsiderRemains(b: Run, i: nat, m: nat, pid: ProcId, x: TimerId, t: TimerId, group: seq<RunId>)
    requires m + 1 < |b.states| == |b.steps| + 1 && i <= m
    requires var s, e, s' := b.states[m], b.steps[m], b.states[m + 1];
      && Next(s, e, s') && ConsidersSome(s, e, pid) && s.procs[pid].pump.current == Some(x)
      && pid in s'.procs && s'.procs[pid].pump.Pass?
    requires Remains(b, i, m + 1, pid, t, group, b.states[m].procs[pid].pump.groups)
    ensures Remains(b, i, m + 1, pid, t, group, b.states[m + 1].procs[pid].pump.groups)
  {
    hide ConsiderClaim, Reserved, Finish, LaneOf, InLane, Capacity, WorkerStep, BootStep, DownStep;
    var s, e, s' := b.states[m], b.steps[m], b.states[m + 1];
    var groups, groups' := s.procs[pid].pump.groups, s'.procs[pid].pump.groups;
    ConsiderVerdict(ViewOf(s, pid), x, e.act.pa.loadOk, e.act.pa.finishOk);
    if x == t && groups[t] != [] {
      var r := groups[t][0];
      assert Considers(s, e, pid, t, r);
      if t in groups' {
        assert Settles(s, e, s', pid, t, r);
        HeadSettled(b, i, m + 1, pid, t, group, groups, groups');
      } else {
        assert LeavesTimer(s, e, pid, t);
        assert LeftIn(b, i, m + 1, pid, t);
      }
    } else if x == t {
      assert forall r | r in group :: exists q :: 0 <= q < |group| && group[q] == r;
    }
  }

  lemma HeadSettled(b: Run, i: nat, m: nat, pid: ProcId, t: TimerId, group: seq<RunId>, groups: Groups, groups': Groups)
    requires m < |b.states| == |b.steps| + 1 && Remains(b, i, m, pid, t, group, groups)
    requires t in groups && groups[t] != [] && t in groups' && groups'[t] == groups[t][1..]
    requires exists k :: i <= k < m && Settles(b.states[k], b.steps[k], b.states[k + 1], pid, t, groups[t][0])
    ensures Remains(b, i, m, pid, t, group, groups')
  {
    hide Settles;
    assert SettledIn(b, i, m, pid, t, groups[t][0]);
    var n := |group| - |groups[t]|;
    assert group[n] == groups[t][0] && group[n..][1..] == group[n + 1..];
    hide SettledIn;
  }

  // -- The whole pass -----------------------------------------------------

  /** The pump of `pid` takes the lane lock at step `i` and holds it until step `j`. */
  ghost predicate IsPass(b: Run, i: nat, j: nat, pid: ProcId)
    requires |b.states| == |b.steps| + 1
  {
    && i < j < |b.steps| && b.steps[i] == Thread(pid, OnPump(LockLanes))
    && pid in b.states[i].procs && b.states[i].procs[pid].pump.LaneWait?
    && (forall k | i < k <= j :: pid in b.states[k].procs && b.states[k].procs[pid].pump.Pass?)
    && pid in b.states[j + 1].procs && !b.states[j + 1].procs[pid].pump.Pass?
  }

  lemma LockKeepsGroups(s: World, s': World, pid: ProcId)
    requires Next(s, Thread(pid, OnPump(LockLanes)), s') && s.procs[pid].pump.LaneWait?
    ensures s'.procs[pid].pump.Pass? && s'.procs[pid].pump.groups == s.procs[pid].pump.groups
  {
    hide WorkerStep, BootStep, DownStep, ConsiderClaim, GroupsPending, TokensOf, CancelRequestedActive, RependAll;
  }

  lemma {:induction false} GroupsRemain(b: Run, i: nat, j: nat, m: nat, pid: ProcId, t: TimerId)
    requires IsRun(b) && IsPass(b, i, j, pid) && i < m <= j
    requires t in b.states[i].procs[pid].pump.groups
    ensures Remains(b, i + 1, m, pid, t, b.states[i].procs[pid].pump.groups[t], b.states[m].procs[pid].pump.groups)
    decreases m
  {
    hide Next, SettledIn, Served;
    if m == i + 1 {
      LockKeepsGroups(b.states[i], b.states[m], pid);
    } else {
      GroupsRemain(b, i, j, m - 1, pid, t);
      hide Remains;
      NextRemains(b, i + 1, m - 1, pid, t, b.states[i].procs[pid].pump.groups[t]);
    }
  }

  /** Main result: whatever the other threads and processes do meanwhile, a lane pass ends because the
      channel is full or closed while it has a hint to send, or it is done with every timer of its
      snapshot: a read of the timer failed, its lane was full, or each of its claims was reserved,
      closed as an orphan, barred by limit 0, or sent. */
  lemma PassEndsSettled(b: Run, i: nat, j: nat, pid: ProcId)
    requires IsRun(b) && IsPass(b, i, j, pid)
    ensures var groups := b.states[i].procs[pid].pump.groups;
      || GivesUp(b.states[j], b.steps[j], pid)
      || forall t | t in groups :: Served(b, i + 1, j, pid, t, groups[t])
  {
    hide Next, Served, Remains, GivesUp;
    var s, e, s' := b.states[j], b.steps[j], b.states[j + 1];
    assert Next(s, e, s');
    PassStep(s, e, s', pid);
    if ConsidersSome(s, e, pid) {
      StopGivesUp(s, e, s', pid);
    } else {
      var groups := b.states[i].procs[pid].pump.groups;
      forall t | t in groups ensures Served(b, i + 1, j, pid, t, groups[t]) {
        GroupsRemain(b, i, j, j, pid, t);
        NothingRemains(b, i + 1, j, pid, t, groups[t], s.procs[pid].pump.groups);
      }
    }
  }

  lemma NothingRemains(b: Run, i: nat, m: nat, pid: ProcId, t: TimerId, group: seq<RunId>, groups: Groups)
    requires m < |b.states| == |b.steps| + 1 && Remains(b, i, m, pid, t, group, groups) && groups == map[]
    ensures Served(b, i, m, pid, t, group)
  {
    hide SettledIn, LeftIn;
  }

  lemma StopGivesUp(s: World, e: Step, s': World, pid: ProcId)
    requires Next(s, e, s') && ConsidersSome(s, e, pid) && pid in s'.procs && !s'.procs[pid].pump.Pass?
    ensures GivesUp(s, e, pid)
  {
    hide ConsiderClaim, Reserved, Finish, LaneOf, InLane, WorkerStep, BootStep, DownStep;
    var p := s.procs[pid];
    var t := p.pump.current.value;
    ConsiderVerdict(ViewOf(s, pid), t, e.act.pa.loadOk, e.act.pa.finishOk);
    if p.pump.groups[t] != [] { assert Considers(s, e, pid, t, p.pump.groups[t][0]); }
  }
}
