/** Backpressure: how many reservations can be out at once, that none outlives the work, and that a
    lane pass closes orphans only and sends something whenever nothing is in its way. */
module Backpressure {
  import opened Options
  import opened Store
  import opened Lanes
  import opened Dispatcher
  import opened Accounting
  import opened MutualExclusion

  // -- Reservations are bounded -------------------------------------------

  ghost predicate ChannelFits(s: World) {
    forall pid | pid in s.procs :: |s.procs[pid].channel| <= Capacity(s.procs[pid])
  }

  lemma WorkerChannelFits(v: View, w: nat, a: WorkerAct)
    requires w < |v.p.workers| && WorkerStep(v, w, a).Some? && |v.p.channel| <= Capacity(v.p)
    ensures var p' := WorkerStep(v, w, a).value.p; |p'.channel| <= Capacity(p') && |p'.workers| == |v.p.workers|
  {
    hide Activate, CommitResult, Repend, Activated, Left, Dropped, MayRelease, MayReport, TokenFor, LaneOf;
  }

  lemma PumpChannelFits(v: View, pid: ProcId, a: PumpAct)
    requires PumpStep(v, pid, a).Some? && |v.p.channel| <= Capacity(v.p)
    ensures var p' := PumpStep(v, pid, a).value.p; |p'.channel| <= Capacity(p')
  {
    hide Enqueue, Finish, RependAll, GroupsPending, TokensOf;
  }

  lemma NextChannelFits(s: World, e: Step, s': World)
    requires ChannelFits(s) && Next(s, e, s')
    ensures ChannelFits(s')
  {
    if e.Thread? {
      var v := ViewOf(s, e.pid);
      match e.act
      case OnWorker(w, wa) => WorkerChannelFits(v, w, wa); hide WorkerStep;
      case OnPump(pa) => PumpChannelFits(v, e.pid, pa); hide PumpStep;
      case _ => CallerQuiet(v, e.pid, e.act); hide ThreadStep;
    }
  }

  lemma {:induction false} AlwaysChannelFits(b: Run, i: nat)
    requires IsRun(b) && i < |b.states|
    ensures ChannelFits(b.states[i])
    decreases i
  {
    if i > 0 {
      AlwaysChannelFits(b, i - 1);
      NextChannelFits(b.states[i - 1], b.steps[i - 1], b.states[i]);
    }
  }

  /** The runs with a live reservation, in any lane. */
  ghost function ReservedRuns(lanes: Lanes): set<RunId> {
    set t, r | t in lanes && r in lanes[t].tokens :: r
  }

  function InChannel(channel: seq<RunId>): set<RunId> { set r | r in channel }

  function InHands(ws: seq<Worker>): set<RunId> {
    set w | 0 <= w < |ws| && ws[w].Busy() :: ws[w].run
  }

  lemma {:induction false} InChannelCount(channel: seq<RunId>)
    ensures |InChannel(channel)| <= |channel|
  {
    if channel != [] {
      InChannelCount(channel[1..]);
      assert channel == [channel[0]] + channel[1..];
      assert InChannel(channel) == {channel[0]} + InChannel(channel[1..]);
    }
  }

  lemma {:induction false} InHandsCount(ws: seq<Worker>)
    ensures |InHands(ws)| <= |ws|
  {
    if ws == [] {
      assert InHands(ws) == {};
    } else {
      var n := |ws| - 1;
      InHandsCount(ws[..n]);
      assert InHands(ws) == InHands(ws[..n]) + (if ws[n].Busy() then {ws[n].run} else {});
    }
  }

  /** A reserved run is a hint in the channel or in a worker's hands, under its own timer. */
  lemma ReservedIsHeld(claims: Claims, p: Proc, t: TimerId, r: RunId)
    requires Accounts(claims, p) && TokenHeld(p.lanes, t, r)
    ensures Reserved(p.lanes, t, r) && r in InChannel(p.channel) + InHands(p.workers)
    ensures r in claims && claims[r].timer == t
  {
    assert LaneShape(p.lanes[t]);
    assert QueuedBacked(claims, p, t, r) && ActiveBacked(p, t, r);
    if ActiveIn(p.lanes, t, r) {
      var w :| 0 <= w < |p.workers| && p.workers[w].HoldsActive() && p.workers[w].run == r && p.workers[w].timer == t;
      assert WorkerReserved(claims, p.lanes, p.workers[w]);
    }
  }

  /** Main result: a process never has more live reservations than its channel holds hints plus
      its workers hold claims, hence at most three times its workers; and a run is reserved in
      one lane only. */
  lemma ReservationsBounded(b: Run, i: nat, pid: ProcId)
    requires IsRun(b) && i < |b.states| && pid in b.states[i].procs
    ensures var p := b.states[i].procs[pid];
      && |ReservedRuns(p.lanes)| <= |p.channel| + |InHands(p.workers)| <= 3 * |p.workers|
      && (forall t: TimerId, t': TimerId, r: RunId :: Reserved(p.lanes, t, r) && Reserved(p.lanes, t', r) ==> t == t')
  {
    AlwaysAccounted(b, i);
    AlwaysChannelFits(b, i);
    var s := b.states[i];
    var p := s.procs[pid];
    assert Accounts(s.db.claims, p);
    forall r | r in ReservedRuns(p.lanes) ensures r in InChannel(p.channel) + InHands(p.workers) {
      var t :| t in p.lanes && r in p.lanes[t].tokens;
      ReservedIsHeld(s.db.claims, p, t, r);
    }
    SubsetCount(ReservedRuns(p.lanes), InChannel(p.channel) + InHands(p.workers));
    InChannelCount(p.channel);
    InHandsCount(p.workers);
    forall t: TimerId, t': TimerId, r: RunId | Reserved(p.lanes, t, r) && Reserved(p.lanes, t', r) ensures t == t' {
      assert LaneShape(p.lanes[t]) && LaneShape(p.lanes[t']);
      ReservedIsHeld(s.db.claims, p, t, r);
      ReservedIsHeld(s.db.claims, p, t', r);
    }
  }

  // -- No reservation leaks -----------------------------------------------

  lemma ReservationIsBacked(claims: Claims, p: Proc, t: TimerId)
    requires Accounts(claims, p)
    ensures InLane(LaneOf(p.lanes, t)) > 0 ==> p.channel != [] || SomeBusy(p.workers)
  {
    if t in p.lanes && InLane(p.lanes[t]) > 0 {
      var l := p.lanes[t];
      var r := if l.queued != [] then l.queued[0] else var x :| x in l.active; x;
      assert LaneShape(l);
      ReservedIsHeld(claims, p, t, r);
    }
  }

  /** With the channel empty and every worker idle no lane holds a reservation. */
  lemma IdleHoldsNothing(b: Run, i: nat, pid: ProcId, t: TimerId)
    requires IsRun(b) && i < |b.states| && pid in b.states[i].procs
    requires b.states[i].procs[pid].channel == [] && !SomeBusy(b.states[i].procs[pid].workers)
    ensures InLane(LaneOf(b.states[i].procs[pid].lanes, t)) == 0
  {
    AlwaysAccounted(b, i);
    ReservationIsBacked(b.states[i].db.claims, b.states[i].procs[pid], t);
  }

  // -- A pass closes orphans only -----------------------------------------

  /** Main result: no pump step of the lane pass changes any claim but one whose timer is gone,
      which it records as failed; it writes no event. */
  lemma PassClosesOrphansOnly(b: Run, i: nat, pid: ProcId, loadOk: bool, finishOk: bool, r: RunId)
    requires IsRun(b) && i < |b.steps| && b.steps[i] == Thread(pid, OnPump(Consider(loadOk, finishOk)))
    requires r in b.states[i].db.claims
    ensures var db, db' := b.states[i].db, b.states[i + 1].db;
      && db'.claims.Keys == db.claims.Keys && db'.outbox == db.outbox
      && (db'.claims[r] == db.claims[r]
          || (db.claims[r].timer !in db.timers && db'.claims[r].status == Finished
              && db'.claims[r].outcome == Some(WakeFailed(TimerDeleted))))
  {
    hide PumpStep, Accounts;
    var s := b.states[i];
    assert Next(s, b.steps[i], b.states[i + 1]);
    AlwaysAccounted(b, i);
    assert PumpKnown(s.db.claims, s.procs[pid].pump);
    PumpConsiders(ViewOf(s, pid), pid, loadOk, finishOk);
    PumpDb(ViewOf(s, pid), pid, Consider(loadOk, finishOk));
  }

  lemma PumpConsiders(v: View, pid: ProcId, loadOk: bool, finishOk: bool)
    requires PumpStep(v, pid, Consider(loadOk, finishOk)).Some?
    ensures v.p.pump.Pass? && v.p.pump.current.Some? && v.p.pump.current.value in v.p.pump.groups
  {
  }

  // -- A pass with nothing in its way sends -------------------------------

  ghost predicate Staffed(s: World) { forall pid | pid in s.procs :: |s.procs[pid].workers| >= 1 }

  lemma NextStaffed(s: World, e: Step, s': World)
    requires Staffed(s) && Next(s, e, s')
    ensures Staffed(s')
  {
    hide WorkerStep, PumpStep, BootStep, DownStep, Fire;
    if e.Thread? {
      var v := ViewOf(s, e.pid);
      match e.act
      case OnWorker(w, wa) => WorkerStays(v, w, wa);
      case OnPump(pa) => PumpKeepsWorkers(v, e.pid, pa);
      case _ => CallerQuiet(v, e.pid, e.act);
    }
  }

  lemma {:induction false} AlwaysStaffed(b: Run, i: nat)
    requires IsRun(b) && i < |b.states|
    ensures Staffed(b.states[i])
    decreases i
  {
    if i > 0 {
      AlwaysStaffed(b, i - 1);
      NextStaffed(b.states[i - 1], b.steps[i - 1], b.states[i]);
    }
  }

  /** Nothing is out: no hint, no worker with a claim. */
  ghost predicate NothingOut(p: Proc) { p.channel == [] && !SomeBusy(p.workers) }

  /** The pass still has claims of `t` before it. */
  ghost predicate Waiting(p: Proc, t: TimerId) { p.pump.Pass? && t in p.pump.groups && p.pump.groups[t] != [] }

  /** Nothing is in the way of `t`: the sender is open, the timer exists with a limit above zero, and
      the pass reads its timers without error. */
  ghost predicate WayFree(s: World, e: Step, pid: ProcId, t: TimerId) {
    && pid in s.procs && s.procs[pid].sender
    && t in s.db.timers && s.db.timers[t] != Parallel(0)
    && (e.Thread? && e.pid == pid && e.act.OnPump? && e.act.pa.Consider? ==> e.act.pa.loadOk)
  }

  ghost predicate Sends(p: Proc, p': Proc) { exists r :: p'.channel == p.channel + [r] }

  lemma IdleWorkerStays(v: View, w: nat, a: WorkerAct)
    requires w < |v.p.workers| && WorkerStep(v, w, a).Some? && NothingOut(v.p) && v.p.sender
    ensures NothingOut(WorkerStep(v, w, a).value.p) && WorkerStep(v, w, a).value.p.pump == v.p.pump
  {
    hide WorkerStep;
    WorkerStays(v, w, a);
    var ws, ws' := v.p.workers, WorkerStep(v, w, a).value.p.workers;
    forall u | 0 <= u < |ws'| ensures !ws'[u].Busy() { assert ws[u].Busy() ==> SomeBusy(ws); }
  }

  lemma ConsiderSendsOrGoesOn(v: View, x: TimerId, finishOk: bool, t: TimerId)
    requires v.p.pump.Pass? && x in v.p.pump.groups && Waiting(v.p, t) && v.p.channel == []
    requires forall y :: InLane(LaneOf(v.p.lanes, y)) == 0
    requires v.p.sender && |v.p.workers| >= 1 && t in v.db.timers && Limit(v.db.timers[t]) > 0
    ensures var p' := ConsiderClaim(v, v.p.pump.groups, x, true, finishOk).p;
      && p'.workers == v.p.workers
      && (Sends(v.p, p') || (p'.channel == [] && Waiting(p', t)))
  {
    var groups, p' := v.p.pump.groups, ConsiderClaim(v, v.p.pump.groups, x, true, finishOk).p;
    if groups[x] != [] {
      EmptyLaneReservesNothing(v.p.lanes, x, groups[x][0]);
      assert p'.channel == v.p.channel || p'.channel == v.p.channel + [groups[x][0]];
    }
  }

  lemma EmptyLaneReservesNothing(lanes: Lanes, t: TimerId, r: RunId)
    requires InLane(LaneOf(lanes, t)) == 0
    ensures !Reserved(lanes, t, r)
  {
  }

  lemma PumpSendsOrGoesOn(v: View, pid: ProcId, a: PumpAct, t: TimerId)
    requires PumpStep(v, pid, a).Some? && Waiting(v.p, t) && NothingOut(v.p)
    requires forall y :: InLane(LaneOf(v.p.lanes, y)) == 0
    requires v.p.sender && |v.p.workers| >= 1 && t in v.db.timers && Limit(v.db.timers[t]) > 0
    requires a.Consider? ==> a.loadOk
    ensures var p' := PumpStep(v, pid, a).value.p;
      Sends(v.p, p') || (NothingOut(p') && Waiting(p', t))
  {
    hide ConsiderClaim, InLane, LaneOf, Sends, GroupsPending, TokensOf, RependAll, CancelRequestedActive;
    if a.Consider? { ConsiderSendsOrGoesOn(v, v.p.pump.current.value, a.finishOk, t); }
  }

  lemma NextSendsOrGoesOn(s: World, e: Step, s': World, pid: ProcId, t: TimerId)
    requires Next(s, e, s') && Accounted(s) && Staffed(s) && WayFree(s, e, pid, t) && pid in s'.procs
    requires NothingOut(s.procs[pid]) && Waiting(s.procs[pid], t)
    ensures Sends(s.procs[pid], s'.procs[pid]) || (NothingOut(s'.procs[pid]) && Waiting(s'.procs[pid], t))
  {
    hide WorkerStep, PumpStep, BootStep, DownStep, Fire, Accounts, NothingOut, Waiting, Sends, InLane, LaneOf;
    if e.Thread? && e.pid == pid {
      var v := ViewOf(s, pid);
      match e.act
      case OnWorker(w, wa) => IdleWorkerGoesOn(v, w, wa, t);
      case OnPump(pa) =>
        forall y ensures InLane(LaneOf(v.p.lanes, y)) == 0 { NothingOutReservesNothing(s.db.claims, v.p, y); }
        PumpSendsOrGoesOn(v, pid, pa, t);
      case _ =>
        CallerQuiet(v, pid, e.act);
        SameWork(v.p, s'.procs[pid], t);
    }
  }

  lemma IdleWorkerGoesOn(v: View, w: nat, a: WorkerAct, t: TimerId)
    requires w < |v.p.workers| && WorkerStep(v, w, a).Some? && NothingOut(v.p) && v.p.sender && Waiting(v.p, t)
    ensures NothingOut(WorkerStep(v, w, a).value.p) && Waiting(WorkerStep(v, w, a).value.p, t)
  {
    hide WorkerStep, NothingOut;
    IdleWorkerStays(v, w, a);
  }

  lemma NothingOutReservesNothing(claims: Claims, p: Proc, t: TimerId)
    requires Accounts(claims, p) && NothingOut(p)
    ensures InLane(LaneOf(p.lanes, t)) == 0
  {
    hide Accounts;
    ReservationIsBacked(claims, p, t);
  }

  lemma SameWork(p: Proc, p': Proc, t: TimerId)
    requires NothingOut(p) && Waiting(p, t)
    requires p'.channel == p.channel && p'.workers == p.workers && p'.pump == p.pump
    ensures NothingOut(p') && Waiting(p', t)
  {
  }

  lemma {:induction false} SentOrStillWaiting(b: Run, i: nat, j: nat, pid: ProcId, t: TimerId)
    requires IsRun(b) && i <= j < |b.states| && (forall k | i <= k <= j :: pid in b.states[k].procs)
    requires forall k | i <= k < j :: WayFree(b.states[k], b.steps[k], pid, t)
    requires NothingOut(b.states[i].procs[pid]) && Waiting(b.states[i].procs[pid], t)
    ensures (exists k :: i <= k < j && Sends(b.states[k].procs[pid], b.states[k + 1].procs[pid]))
            || (NothingOut(b.states[j].procs[pid]) && Waiting(b.states[j].procs[pid], t))
    decreases j - i
  {
    hide Next, NothingOut, Waiting, Sends, WayFree, Accounted, Staffed;
    if i < j {
      SentOrStillWaiting(b, i, j - 1, pid, t);
      if NothingOut(b.states[j - 1].procs[pid]) && Waiting(b.states[j - 1].procs[pid], t) {
        AlwaysAccounted(b, j - 1);
        AlwaysStaffed(b, j - 1);
        NextSendsOrGoesOn(b.states[j - 1], b.steps[j - 1], b.states[j], pid, t);
      }
    }
  }

  /** Main result: a lane pass that begins with an empty channel and idle workers, and has a pending
      claim of a timer of non-zero limit before it, does not end without sending a hint, whatever
      the other threads and processes do meanwhile, unless the sender closes, the timer is deleted
      or barred, or a timer read fails. */
  lemma FreePassSends(b: Run, i: nat, j: nat, pid: ProcId, t: TimerId)
    requires IsRun(b) && i <= j < |b.states| && (forall k | i <= k <= j :: pid in b.states[k].procs)
    requires forall k | i <= k < j :: WayFree(b.states[k], b.steps[k], pid, t)
    requires NothingOut(b.states[i].procs[pid]) && Waiting(b.states[i].procs[pid], t)
    requires !b.states[j].procs[pid].pump.Pass?
    ensures exists k :: i <= k < j && Sends(b.states[k].procs[pid], b.states[k + 1].procs[pid])
  {
    hide Next, WayFree, Sends;
    SentOrStillWaiting(b, i, j, pid, t);
  }
}
