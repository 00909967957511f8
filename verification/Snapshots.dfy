/** Stale snapshots: what a pump pass knows about the older claims of a serial timer when it works from
    the pending rows it read earlier, and exactly when it sends a hint past an unfinished older claim. */
module Snapshots {
  import opened Options
  import opened Store
  import opened Lanes
  import opened Dispatcher
  import opened Accounting
  import opened MutualExclusion
  import opened Recovery

  /** No store write of this step on claims of `t` fails. Reads may fail, actions may panic. */
  predicate Orderly(s: World, e: Step, t: TimerId) {
    && WritesOk(s, e, t)
    && (e.Thread? && e.pid in s.procs && e.act.OnPump? ==> PumpWritesOk(s.procs[e.pid].pump, e.act.pa, t))
  }

  /** The pass closes the orphans of `t` that it meets. */
  predicate PumpWritesOk(pump: Pump, a: PumpAct, t: TimerId) {
    a.Consider? && pump.Pass? && pump.current == Some(t) ==> a.finishOk
  }

  /** While it exists, the timer admits exactly one claim to its lane. */
  ghost predicate SerialTimer(db: Db, t: TimerId) {
    t in db.timers ==>
      match db.timers[t]
      case Skip => true
      case QueueOne => true
      case Replace => true
      case Parallel(cap) => cap == 1
  }

  predicate Before(db: Db, t: TimerId, x: RunId, c: RunId) {
    Of(db, t, x) && Of(db, t, c) && db.claims[x].seqno < db.claims[c].seqno
  }

  /** Every older claim of the timer is finished. */
  ghost predicate Settled(db: Db, t: TimerId, c: RunId) {
    forall x | Before(db, t, x, c) :: db.claims[x].status == Finished
  }

  ghost predicate DistinctSeqnos(db: Db) {
    forall x, y | x in db.claims && y in db.claims && x != y && db.claims[x].timer == db.claims[y].timer ::
      db.claims[x].seqno != db.claims[y].seqno
  }

  // -- Rows: what a store step can and cannot put in front of a claim -----

  /** Rows are kept and no new row of the timer is older than an existing one. */
  ghost predicate NothingOlder(db: Db, db': Db) {
    && Extends(db, db')
    && (forall t, x, c | Before(db', t, x, c) && c in db.claims :: x in db.claims)
  }

  lemma NextNothingOlder(s: World, e: Step, s': World)
    requires Next(s, e, s')
    ensures NothingOlder(s.db, s'.db)
  {
    NextExtends(s, e, s');
    match e
    case FireTx(t, r, n, rows) =>
      FireAddsNewest(s.db, t, r, n, rows);
    case Thread(pid, act) => ThreadAddsNoRow(ViewOf(s, pid), pid, act);
    case _ =>
  }

  lemma FireAddsNewest(db: Db, t: TimerId, r: RunId, n: nat, rows: seq<RunId>)
    requires t in db.timers && r !in db.claims && NextSeqno(db, t, n)
    ensures var db' := Fire(db, t, r, n, rows);
      && db'.claims.Keys == db.claims.Keys + {r}
      && db'.claims[r].timer == t && db'.claims[r].seqno == n
      && (forall x | Of(db, t, x) :: db.claims[x].seqno < n)
      && NothingOlder(db, db')
  {
    var db' := Fire(db, t, r, n, rows);
    ReplacePendingShape(Emit(db, Event(r, Fired)), rows);
    FireExtends(db, t, r, n, rows);
    forall x | Of(db, t, x) ensures db.claims[x].seqno < n { assert x in ClaimsOf(db, t); }
  }

  lemma NextDistinctSeqnos(s: World, e: Step, s': World)
    requires Next(s, e, s') && DistinctSeqnos(s.db)
    ensures DistinctSeqnos(s'.db)
  {
    NextExtends(s, e, s');
    match e
    case FireTx(t, r, n, rows) => FireAddsNewest(s.db, t, r, n, rows); hide Next;
    case Thread(pid, act) => ThreadAddsNoRow(ViewOf(s, pid), pid, act); hide Next;
    case _ =>
  }

  lemma {:induction false} AlwaysDistinctSeqnos(b: Run, i: nat)
    requires IsRun(b) && i < |b.states|
    ensures DistinctSeqnos(b.states[i].db)
    decreases i
  {
    hide Next, DistinctSeqnos;
    if i > 0 {
      AlwaysDistinctSeqnos(b, i - 1);
      NextDistinctSeqnos(b.states[i - 1], b.steps[i - 1], b.states[i]);
    } else {
      NoSeqnos(b.states[0].db);
    }
  }

  lemma NoSeqnos(db: Db)
    requires db.claims == map[]
    ensures DistinctSeqnos(db)
  {
  }

  // -- What a snapshot leaves out -----------------------------------------

  /** From the CAS until the lane release a worker keeps its claim. */
  predicate Keeps(x: Worker) { x.Owes() || x.Leaving? }

  ghost predicate Kept(ws: seq<Worker>, r: RunId) { exists w :: 0 <= w < |ws| && Keeps(ws[w]) && ws[w].run == r }

  /** The pump works from a snapshot: it waits for the lane lock or holds it. */
  predicate InPass(pump: Pump) { pump.LaneWait? || pump.Pass? }

  /** A worker releases the lane while its claim `x` of `t` is unfinished and the pump waits for the
      lane lock with a snapshot of `t` that does not list it. */
  ghost predicate ReleasesLate(db: Db, p: Proc, act: Act, t: TimerId, x: RunId) {
    && act.OnWorker? && act.wa.LeaveLane? && act.w < |p.workers|
    && p.workers[act.w].Leaving? && p.workers[act.w].run == x
    && p.pump.LaneWait? && t in p.pump.groups && x !in p.pump.groups[t]
    && Of(db, t, x) && Unfinished(db.claims[x])
  }

  ghost predicate LateRelease(s: World, e: Step, pid: ProcId, t: TimerId, x: RunId) {
    e.Thread? && e.pid == pid && pid in s.procs && ReleasesLate(s.db, s.procs[pid], e.act, t, x)
  }

  /** An older claim that a snapshot group does not list is finished, still held, or released late. */
  ghost predicate Covered(db: Db, t: TimerId, p: Proc, group: seq<RunId>, x: RunId, late: set<RunId>)
    requires x in db.claims
  {
    || x in group
    || db.claims[x].status == Finished
    || x in late
    || Kept(p.workers, x)
    || (p.pump.Pass? && Reserved(p.lanes, t, x))
  }

  ghost predicate GroupOrdered(db: Db, t: TimerId, p: Proc, group: seq<RunId>, late: set<RunId>) {
    && (forall r | r in group :: Of(db, t, r))
    && (forall i, j | 0 <= i < j < |group| :: Before(db, t, group[i], group[j]))
    && (forall c, x | c in group && Before(db, t, x, c) :: Covered(db, t, p, group, x, late))
  }

  lemma GroupOrderedStays(db: Db, db': Db, t: TimerId, p: Proc, p': Proc, group: seq<RunId>,
                          late: set<RunId>, late': set<RunId>)
    requires NothingOlder(db, db') && GroupOrdered(db, t, p, group, late) && late <= late'
    requires forall x | Of(db, t, x) && Kept(p.workers, x) :: x in db'.claims && Covered(db', t, p', group, x, late')
    requires p.pump.Pass? ==> p'.pump.Pass? && forall x | Reserved(p.lanes, t, x) :: Reserved(p'.lanes, t, x)
    ensures GroupOrdered(db', t, p', group, late')
  {
    forall c, x | c in group && Before(db', t, x, c) ensures Covered(db', t, p', group, x, late') {
      assert Before(db, t, x, c);
      assert Covered(db, t, p, group, x, late);
    }
  }

  /** The same workers and lanes keep the group covered. */
  lemma GroupOrderedQuiet(db: Db, db': Db, t: TimerId, p: Proc, p': Proc, group: seq<RunId>,
                          late: set<RunId>, late': set<RunId>)
    requires NothingOlder(db, db') && GroupOrdered(db, t, p, group, late) && late <= late'
    requires p'.workers == p.workers && p'.lanes == p.lanes && (p.pump.Pass? ==> p'.pump.Pass?)
    ensures GroupOrdered(db', t, p', group, late')
  {
    hide GroupOrdered, NothingOlder, Kept, Reserved;
    NothingOlderExtends(db, db');
    GroupOrderedStays(db, db', t, p, p', group, late, late');
  }

  lemma NothingOlderExtends(db: Db, db': Db)
    requires NothingOlder(db, db')
    ensures forall r | r in db.claims :: r in db'.claims
  {
  }

  // -- Worker steps -------------------------------------------------------

  lemma WorkerKeeps(v: View, w: nat, a: WorkerAct)
    requires w < |v.p.workers| && WorkerStep(v, w, a).Some?
    requires |WorkerStep(v, w, a).value.p.workers| == |v.p.workers|
    ensures var x, x' := v.p.workers[w], WorkerStep(v, w, a).value.p.workers[w];
      Keeps(x) ==> (Keeps(x') && x'.run == x.run) || (a.LeaveLane? && x.Leaving? && !v.p.pump.Pass?)
  {
    hide Activate, CommitResult, Repend, Activated, Left, Dropped, MayRelease, MayReport, TokenFor, LaneOf;
  }

  /** The run a worker holds changes only by receiving a hint, which is in the channel. */
  lemma WorkerRunSource(v: View, w: nat, a: WorkerAct)
    requires w < |v.p.workers| && WorkerStep(v, w, a).Some?
    requires |WorkerStep(v, w, a).value.p.workers| == |v.p.workers|
    ensures var x, x' := v.p.workers[w], WorkerStep(v, w, a).value.p.workers[w];
      x'.Busy() ==> (x.Busy() && x'.run == x.run) || x'.run in v.p.channel
    ensures forall r | r in WorkerStep(v, w, a).value.p.channel :: r in v.p.channel
  {
    hide Activate, CommitResult, Repend, Activated, Left, Dropped, MayRelease, MayReport, TokenFor, LaneOf;
    WorkerTakesHint(v, w, a);
  }

  lemma WorkerTakesHint(v: View, w: nat, a: WorkerAct)
    requires w < |v.p.workers| && WorkerStep(v, w, a).Some?
    ensures var p, p' := v.p, WorkerStep(v, w, a).value.p;
      p'.channel == p.channel || (p.channel != [] && p'.channel == p.channel[1..])
  {
    hide Activate, CommitResult, Repend, Activated, Left, Dropped, MayRelease, MayReport, TokenFor, LaneOf;
  }

  lemma WorkerKeepsLanesInPass(v: View, w: nat, a: WorkerAct)
    requires w < |v.p.workers| && WorkerStep(v, w, a).Some?
    ensures v.p.pump.Pass? ==> WorkerStep(v, w, a).value.p.lanes == v.p.lanes
  {
    hide Activate, CommitResult, Repend, Activated, Left, Dropped, MayRelease, MayReport, TokenFor, LaneOf;
  }

  /** Another worker's claim stays kept; this worker's may be released. */
  lemma KeptStays(ws: seq<Worker>, ws': seq<Worker>, w: nat, x: RunId)
    requires w < |ws| == |ws'| && ws' == ws[w := ws'[w]] && Kept(ws, x)
    ensures Kept(ws', x) || (Keeps(ws[w]) && ws[w].run == x && !(Keeps(ws'[w]) && ws'[w].run == x))
  {
    var u :| 0 <= u < |ws| && Keeps(ws[u]) && ws[u].run == x;
    if u != w { assert Keeps(ws'[u]) && ws'[u].run == x; }
    else if Keeps(ws'[w]) && ws'[w].run == x { assert Kept(ws', x); }
  }

  lemma WorkerGroupOrdered(v: View, w: nat, a: WorkerAct, t: TimerId, late: set<RunId>, late': set<RunId>)
    requires w < |v.p.workers| && WorkerStep(v, w, a).Some? && NothingOlder(v.db, WorkerStep(v, w, a).value.db)
    requires InPass(v.p.pump) && t in v.p.pump.groups && late <= late'
    requires GroupOrdered(v.db, t, v.p, v.p.pump.groups[t], late)
    requires forall x | ReleasesLate(v.db, v.p, OnWorker(w, a), t, x) :: x in late'
    ensures var v' := WorkerStep(v, w, a).value; GroupOrdered(v'.db, t, v'.p, v.p.pump.groups[t], late')
  {
    hide WorkerStep, GroupOrdered, NothingOlder;
    var v' := WorkerStep(v, w, a).value;
    var group := v.p.pump.groups[t];
    WorkerStays(v, w, a);
    WorkerKeepsLanesInPass(v, w, a);
    WorkerKeeps(v, w, a);
    NothingOlderExtends(v.db, v'.db);
    forall x | Of(v.db, t, x) && Kept(v.p.workers, x)
      ensures x in v'.db.claims && Covered(v'.db, t, v'.p, group, x, late')
    {
      KeptStays(v.p.workers, v'.p.workers, w, x);
      FinishedStays(v.db, v'.db, x);
      assert a.LeaveLane? && v.p.workers[w].Leaving? && v.p.workers[w].run == x && !v.p.pump.Pass? ==>
          x in group || v.db.claims[x].status == Finished || ReleasesLate(v.db, v.p, OnWorker(w, a), t, x);
    }
    GroupOrderedStays(v.db, v'.db, t, v.p, v'.p, group, late, late');
  }

  lemma FinishedStays(db: Db, db': Db, x: RunId)
    requires NothingOlder(db, db') && x in db.claims
    ensures x in db'.claims && (db.claims[x].status == Finished ==> db'.claims[x].status == Finished)
  {
  }

  // -- Pump steps ---------------------------------------------------------

  /** A fresh snapshot covers every older claim: what it does not list is finished, or active and
      owed by a worker of the recovered lock owner. */
  lemma SnapshotOrdered(db: Db, t: TimerId, p: Proc, groups: Groups, late: set<RunId>)
    requires GroupsPending(db, groups) && AllOwed(db, p, t) && DistinctSeqnos(db) && t in groups
    ensures GroupOrdered(db, t, p, groups[t], late)
  {
    var group := groups[t];
    assert ListsPending(db, t, group);
    forall r | r in group ensures Of(db, t, r) { assert r in PendingOf(db, t); }
    forall i, j | 0 <= i < j < |group| ensures Before(db, t, group[i], group[j]) {
      assert Of(db, t, group[i]) && Of(db, t, group[j]) && group[i] != group[j];
    }
    forall c, x | c in group && Before(db, t, x, c) ensures Covered(db, t, p, group, x, late) {
      if x !in group {
        assert x !in PendingOf(db, t);
        OwedIsKept(p.workers, x);
      }
    }
  }

  lemma OwedIsKept(ws: seq<Worker>, r: RunId)
    ensures Owed(ws, r) ==> Kept(ws, r)
  {
    if w :| 0 <= w < |ws| && ws[w].Owes() && ws[w].run == r { assert Keeps(ws[w]); }
  }

  /** Removing the head of a group, once it is reserved or finished. */
  lemma PopOrdered(db: Db, db': Db, t: TimerId, p: Proc, p': Proc, group: seq<RunId>, late: set<RunId>)
    requires GroupOrdered(db, t, p, group, late) && group != [] && NothingOlder(db, db')
    requires p'.workers == p.workers && p'.pump.Pass?
    requires forall x | Reserved(p.lanes, t, x) :: Reserved(p'.lanes, t, x)
    requires Reserved(p'.lanes, t, group[0]) || (group[0] in db'.claims && db'.claims[group[0]].status == Finished)
    ensures GroupOrdered(db', t, p', group[1..], late)
  {
    forall c, x | c in group[1..] && Before(db', t, x, c) ensures Covered(db', t, p', group[1..], x, late) {
      assert c in group;
      assert Before(db, t, x, c);
      assert Covered(db, t, p, group, x, late);
      assert x in group ==> x == group[0] || x in group[1..];
    }
  }

  /** What happens to timer `t`'s group while timer `x`'s head is considered. */
  lemma ConsiderGroup(v: View, x: TimerId, loadOk: bool, finishOk: bool, t: TimerId, late: set<RunId>)
    requires v.p.pump.Pass? && x in v.p.pump.groups && t in v.p.pump.groups && (x == t ==> finishOk)
    requires GroupKnown(v.db.claims, v.p.pump.groups) && SerialTimer(v.db, t)
    requires GroupOrdered(v.db, t, v.p, v.p.pump.groups[t], late)
    requires NothingOlder(v.db, ConsiderClaim(v, v.p.pump.groups, x, loadOk, finishOk).db)
    requires var v' := ConsiderClaim(v, v.p.pump.groups, x, loadOk, finishOk); v'.p.pump.Pass? && t in v'.p.pump.groups
    ensures var v' := ConsiderClaim(v, v.p.pump.groups, x, loadOk, finishOk);
        GroupOrdered(v'.db, t, v'.p, v'.p.pump.groups[t], late)
  {
    var groups, v' := v.p.pump.groups, ConsiderClaim(v, v.p.pump.groups, x, loadOk, finishOk);
    ConsiderReserves(v, x, loadOk, finishOk, t);
    if x == t {
      assert groups[t] != [];
      assert groups[t][0] in groups[t];
      hide ConsiderClaim, GroupOrdered;
      PopOrdered(v.db, v'.db, t, v.p, v'.p, groups[t], late);
    } else {
      hide ConsiderClaim, GroupOrdered;
      NothingOlderExtends(v.db, v'.db);
      GroupOrderedStays(v.db, v'.db, t, v.p, v'.p, groups[t], late, late);
    }
  }

  /** Reservations only grow during the pass, and a popped head is reserved or finished. */
  lemma ConsiderReserves(v: View, x: TimerId, loadOk: bool, finishOk: bool, t: TimerId)
    requires v.p.pump.Pass? && x in v.p.pump.groups && t in v.p.pump.groups && (x == t ==> finishOk)
    requires GroupKnown(v.db.claims, v.p.pump.groups) && SerialTimer(v.db, t)
    requires var v' := ConsiderClaim(v, v.p.pump.groups, x, loadOk, finishOk); v'.p.pump.Pass? && t in v'.p.pump.groups
    ensures var groups, v' := v.p.pump.groups, ConsiderClaim(v, v.p.pump.groups, x, loadOk, finishOk);
      && v'.p.workers == v.p.workers
      && (forall y | Reserved(v.p.lanes, t, y) :: Reserved(v'.p.lanes, t, y))
      && (x != t ==> v'.p.pump.groups[t] == groups[t])
      && (x == t ==> groups[t] != [] && v'.p.pump.groups[t] == groups[t][1..]
                     && (Reserved(v'.p.lanes, t, groups[t][0])
                         || (groups[t][0] in v'.db.claims && v'.db.claims[groups[t][0]].status == Finished)))
  {
    if v.p.pump.groups[x] != [] { assert v.p.pump.groups[x][0] in v.p.pump.groups[x]; }
  }

  /** Pump steps other than reading rows and the pass itself. */
  lemma PumpQuiet(v: View, pid: ProcId, a: PumpAct)
    requires PumpStep(v, pid, a).Some? && !a.Consider? && !(a.TakeSnapshot? && a.ok)
    ensures var v' := PumpStep(v, pid, a).value;
      && v'.p.channel == v.p.channel && v'.p.workers == v.p.workers && v'.p.lanes == v.p.lanes && v'.starts == v.starts
      && (InPass(v'.p.pump) ==>
            InPass(v.p.pump) && v'.p.pump.groups == v.p.pump.groups && (v.p.pump.Pass? ==> v'.p.pump.Pass?))
  {
    hide ConsiderClaim, GroupsPending, TokensOf, CancelRequestedActive, RependAll;
  }

  lemma PumpGroupOrdered(v: View, pid: ProcId, a: PumpAct, t: TimerId, late: set<RunId>, late': set<RunId>)
    requires PumpStep(v, pid, a).Some? && NothingOlder(v.db, PumpStep(v, pid, a).value.db)
    requires PumpWritesOk(v.p.pump, a, t)
    requires PumpKnown(v.db.claims, v.p.pump) && SerialTimer(v.db, t) && DistinctSeqnos(v.db)
    requires v.p.pump.Snapshot? ==> AllOwed(v.db, v.p, t)
    requires InPass(v.p.pump) ==> late <= late'
    requires InPass(v.p.pump) && t in v.p.pump.groups ==> GroupOrdered(v.db, t, v.p, v.p.pump.groups[t], late)
    requires var p' := PumpStep(v, pid, a).value.p; InPass(p'.pump) && t in p'.pump.groups
    ensures var v' := PumpStep(v, pid, a).value; GroupOrdered(v'.db, t, v'.p, v'.p.pump.groups[t], late')
  {
    hide GroupOrdered, AllOwed, NothingOlder, ConsiderClaim, SerialTimer, DistinctSeqnos, GroupsPending;
    var v' := PumpStep(v, pid, a).value;
    if a.Consider? {
      var x := v.p.pump.current.value;
      ConsiderGroups(v, x, a.loadOk, a.finishOk, t);
      ConsiderGroup(v, x, a.loadOk, a.finishOk, t, late);
      MoreLate(v'.db, t, v'.p, v'.p.pump.groups[t], late, late');
    } else if a.TakeSnapshot? && a.ok {
      SnapshotOrdered(v.db, t, v.p, a.groups, late');
      SameGroup(v.db, t, v.p, v'.p, a.groups[t], late');
    } else {
      PumpQuiet(v, pid, a);
      GroupOrderedQuiet(v.db, v'.db, t, v.p, v'.p, v'.p.pump.groups[t], late, late');
    }
  }

  lemma ConsiderGroups(v: View, x: TimerId, loadOk: bool, finishOk: bool, t: TimerId)
    requires v.p.pump.Pass? && x in v.p.pump.groups
    ensures var p' := ConsiderClaim(v, v.p.pump.groups, x, loadOk, finishOk).p;
      && (InPass(p'.pump) ==> p'.pump.Pass? && (t in p'.pump.groups ==> t in v.p.pump.groups))
  {
  }

  lemma MoreLate(db: Db, t: TimerId, p: Proc, group: seq<RunId>, late: set<RunId>, late': set<RunId>)
    requires GroupOrdered(db, t, p, group, late) && late <= late'
    ensures GroupOrdered(db, t, p, group, late')
  {
    forall c, x | c in group && Before(db, t, x, c) ensures Covered(db, t, p, group, x, late') {
      assert Covered(db, t, p, group, x, late);
    }
  }

  lemma SameGroup(db: Db, t: TimerId, p: Proc, p': Proc, group: seq<RunId>, late: set<RunId>)
    requires GroupOrdered(db, t, p, group, late) && p'.workers == p.workers && p'.lanes == p.lanes && !p.pump.Pass?
    ensures GroupOrdered(db, t, p', group, late)
  {
    forall c, x | c in group && Before(db, t, x, c) ensures Covered(db, t, p', group, x, late) {
      assert Covered(db, t, p, group, x, late);
    }
  }

  // -- Every step, every run ----------------------------------------------

  ghost predicate PassOrdered(s: World, pid: ProcId, t: TimerId, late: set<RunId>) {
    pid in s.procs && InPass(s.procs[pid].pump) && t in s.procs[pid].pump.groups ==>
      GroupOrdered(s.db, t, s.procs[pid], s.procs[pid].pump.groups[t], late)
  }

  lemma NextPassOrdered(s: World, e: Step, s': World, q: ProcId, t: TimerId, late: set<RunId>, late': set<RunId>)
    requires Next(s, e, s') && Orderly(s, e, t) && SerialTimer(s.db, t) && DistinctSeqnos(s.db)
    requires Accounted(s) && Locked(s) && RecoverySound(s, t) && PassOrdered(s, q, t, late)
    requires q in s.procs && q in s'.procs && InPass(s.procs[q].pump) && InPass(s'.procs[q].pump) ==> late <= late'
    requires q in s'.procs && InPass(s'.procs[q].pump) ==> forall x | LateRelease(s, e, q, t, x) :: x in late'
    ensures PassOrdered(s', q, t, late')
  {
    hide NothingOlder, DistinctSeqnos, GroupOrdered, Accounts, AllOwed, Fire, NextSeqno, ListsPending, WritesOk,
      LockSound, SerialTimer, RecoveredFirst;
    NextNothingOlder(s, e, s');
    if q in s'.procs && InPass(s'.procs[q].pump) && t in s'.procs[q].pump.groups {
      if e.Thread? && e.pid == q {
        StepperPassOrdered(s, q, e.act, t, late, late');
      } else if q in s.procs {
        hide ThreadStep;
        GroupOrderedQuiet(s.db, s'.db, t, s.procs[q], s'.procs[q], s.procs[q].pump.groups[t], late, late');
      }
    }
  }

  lemma StepperPassOrdered(s: World, pid: ProcId, act: Act, t: TimerId, late: set<RunId>, late': set<RunId>)
    requires pid in s.procs && ThreadStep(ViewOf(s, pid), pid, act).Some? && Orderly(s, Thread(pid, act), t)
    requires NothingOlder(s.db, ThreadStep(ViewOf(s, pid), pid, act).value.db)
    requires SerialTimer(s.db, t) && DistinctSeqnos(s.db) && Accounted(s) && Locked(s) && RecoverySound(s, t)
    requires PassOrdered(s, pid, t, late) && (InPass(s.procs[pid].pump) ==> late <= late')
    requires forall x | ReleasesLate(s.db, s.procs[pid], act, t, x) :: x in late'
    requires var p' := ThreadStep(ViewOf(s, pid), pid, act).value.p; InPass(p'.pump) && t in p'.pump.groups
    ensures var v' := ThreadStep(ViewOf(s, pid), pid, act).value;
      GroupOrdered(v'.db, t, v'.p, v'.p.pump.groups[t], late')
  {
    hide NothingOlder, DistinctSeqnos, GroupOrdered, Accounts, AllOwed, SerialTimer, WorkerStep, PumpStep, BootStep,
      DownStep;
    var v := ViewOf(s, pid);
    assert LockSound(s.lock, pid, s.procs[pid]);
    assert RecoveredFirst(s.procs[pid]);
    match act
    case OnWorker(w, wa) =>
      WorkerStays(v, w, wa);
      WorkerGroupOrdered(v, w, wa, t, late, late');
    case OnPump(pa) => PumpGroupOrdered(v, pid, pa, t, late, late');
    case _ =>
      CallerQuiet(v, pid, act);
      var v' := ThreadStep(v, pid, act).value;
      GroupOrderedQuiet(v.db, v'.db, t, v.p, v'.p, v.p.pump.groups[t], late, late');
  }

  /** From state `j` to state `i` the pump of `pid` works from one snapshot. */
  ghost predicate SamePass(b: Run, j: nat, i: nat, pid: ProcId)
    requires j <= i < |b.states|
  {
    forall k | j <= k <= i :: pid in b.states[k].procs && InPass(b.states[k].procs[pid].pump)
  }

  /** Step `j` released `x` late, and state `i` is in the same pass. */
  ghost predicate LateSince(b: Run, j: int, i: nat, pid: ProcId, t: TimerId, x: RunId)
    requires i < |b.states| == |b.steps| + 1
  {
    0 <= j < i && LateRelease(b.states[j], b.steps[j], pid, t, x) && SamePass(b, j, i, pid)
  }

  ghost function Late(b: Run, i: nat, pid: ProcId, t: TimerId): set<RunId>
    requires i < |b.states| == |b.steps| + 1
  {
    set x | x in b.states[i].db.claims && exists j :: LateSince(b, j, i, pid, t, x)
  }

  lemma LateGrows(b: Run, i: nat, pid: ProcId, t: TimerId)
    requires IsRun(b) && i + 1 < |b.states|
    requires pid in b.states[i].procs && pid in b.states[i + 1].procs
    requires InPass(b.states[i].procs[pid].pump) && InPass(b.states[i + 1].procs[pid].pump)
    ensures Late(b, i, pid, t) <= Late(b, i + 1, pid, t)
    ensures forall x | LateRelease(b.states[i], b.steps[i], pid, t, x) :: x in Late(b, i + 1, pid, t)
  {
    NextExtends(b.states[i], b.steps[i], b.states[i + 1]);
    hide Next, LateRelease, LateSince, InPass;
    forall x | x in Late(b, i, pid, t) ensures x in Late(b, i + 1, pid, t) {
      var j :| LateSince(b, j, i, pid, t, x);
      LateStays(b, j, i, pid, t, x);
    }
    forall x | LateRelease(b.states[i], b.steps[i], pid, t, x) ensures x in Late(b, i + 1, pid, t) {
      LateNow(b, i, pid, t, x);
      LateIsKnown(b.states[i], b.steps[i], pid, t, x);
    }
  }

  lemma LateStays(b: Run, j: int, i: nat, pid: ProcId, t: TimerId, x: RunId)
    requires i + 1 < |b.states| == |b.steps| + 1 && LateSince(b, j, i, pid, t, x)
    requires pid in b.states[i + 1].procs && InPass(b.states[i + 1].procs[pid].pump)
    ensures LateSince(b, j, i + 1, pid, t, x)
  {
    hide LateRelease;
  }

  lemma LateNow(b: Run, i: nat, pid: ProcId, t: TimerId, x: RunId)
    requires i + 1 < |b.states| == |b.steps| + 1 && LateRelease(b.states[i], b.steps[i], pid, t, x)
    requires pid in b.states[i].procs && InPass(b.states[i].procs[pid].pump)
    requires pid in b.states[i + 1].procs && InPass(b.states[i + 1].procs[pid].pump)
    ensures LateSince(b, i, i + 1, pid, t, x)
  {
    hide LateRelease;
  }

  lemma LateIsKnown(s: World, e: Step, pid: ProcId, t: TimerId, x: RunId)
    requires LateRelease(s, e, pid, t, x)
    ensures Of(s.db, t, x) && InPass(s.procs[pid].pump)
  {
  }

  lemma {:induction false} AlwaysPassOrdered(b: Run, i: nat, pid: ProcId, t: TimerId)
    requires IsRun(b) && i < |b.states|
    requires forall j | 0 <= j < i :: Orderly(b.states[j], b.steps[j], t) && SerialTimer(b.states[j].db, t)
    ensures PassOrdered(b.states[i], pid, t, Late(b, i, pid, t))
    decreases i
  {
    hide Next, Accounted, Locked, RecoverySound, WritesOk, GroupOrdered, DistinctSeqnos, SerialTimer, Late, LateRelease;
    if i > 0 {
      var s, e, s' := b.states[i - 1], b.steps[i - 1], b.states[i];
      AlwaysPassOrdered(b, i - 1, pid, t);
      AlwaysAccounted(b, i - 1);
      AlwaysLocked(b, i - 1);
      AlwaysRecoverySound(b, i - 1, t);
      AlwaysDistinctSeqnos(b, i - 1);
      if pid in s'.procs && InPass(s'.procs[pid].pump) {
        if pid in s.procs && InPass(s.procs[pid].pump) { LateGrows(b, i - 1, pid, t); }
        LateNeedsPass(s, e, pid, t);
        NextPassOrdered(s, e, s', pid, t, Late(b, i - 1, pid, t), Late(b, i, pid, t));
      }
    }
  }

  lemma LateNeedsPass(s: World, e: Step, pid: ProcId, t: TimerId)
    ensures forall x | LateRelease(s, e, pid, t, x) :: pid in s.procs && InPass(s.procs[pid].pump)
  {
  }

  // -- When a hint overtakes ----------------------------------------------

  /** The step sends the hint of `r`. */
  ghost predicate Sends(s: World, e: Step, s': World, pid: ProcId, r: RunId) {
    && e.Thread? && e.pid == pid && e.act.OnPump? && pid in s.procs && pid in s'.procs
    && s'.procs[pid].channel == s.procs[pid].channel + [r]
  }

  /** A Replace fire closes the pending claim `x`. */
  predicate Replaces(s: World, e: Step, x: RunId) {
    e.FireTx? && e.timer in s.db.timers && s.db.timers[e.timer] == Replace && x in e.rows
  }

  /** Step `j` released `x` late in the pass of state `i`, and no fire has closed it since. */
  ghost predicate ReleasedSince(b: Run, j: int, i: nat, pid: ProcId, t: TimerId, x: RunId)
    requires i < |b.states| == |b.steps| + 1
  {
    LateSince(b, j, i, pid, t, x) && forall k | j < k < i :: !Replaces(b.states[k], b.steps[k], x)
  }

  /** An unfinished claim of `t` that the process of a running pass does not hold and will not send. */
  ghost predicate LeftOpen(s: World, pid: ProcId, t: TimerId, x: RunId) {
    && Of(s.db, t, x) && Unfinished(s.db.claims[x])
    && pid in s.procs && InPass(s.procs[pid].pump)
    && x !in s.procs[pid].channel
    && (forall w | 0 <= w < |s.procs[pid].workers| && s.procs[pid].workers[w].Busy() ::
        s.procs[pid].workers[w].run != x)
    && (t in s.procs[pid].pump.groups ==> x !in s.procs[pid].pump.groups[t])
  }

  lemma HeldByNone(ws: seq<Worker>, w: nat, ws': seq<Worker>)
    requires w < |ws| && ws[w].Busy() && ws' == ws[w := Idle]
    requires forall u, v | 0 <= u < v < |ws| && ws[u].Busy() && ws[v].Busy() :: ws[u].run != ws[v].run
    ensures forall u | 0 <= u < |ws'| && ws'[u].Busy() :: ws'[u].run != ws[w].run
  {
    forall u | 0 <= u < |ws'| && ws'[u].Busy() ensures ws'[u].run != ws[w].run {
      assert u != w && ws'[u] == ws[u];
      assert u < w || w < u;
    }
  }

  /** After a late release nobody holds the claim. */
  lemma ReleaseLeavesOpen(s: World, e: Step, s': World, pid: ProcId, t: TimerId, x: RunId)
    requires Next(s, e, s') && Accounted(s) && LateRelease(s, e, pid, t, x)
    ensures LeftOpen(s', pid, t, x)
  {
    hide WorkerStep, Accounts, Accounted;
    var p, w := s.procs[pid], e.act.w;
    PlacesOf(s, pid);
    LeaveStep(ViewOf(s, pid), w);
    HeldByNone(p.workers, w, s'.procs[pid].workers);
    assert p.workers[w].Busy();
  }

  lemma PlacesOf(s: World, pid: ProcId)
    requires Accounted(s) && pid in s.procs
    ensures OnePlaceEach(s.procs[pid])
  {
  }

  lemma LeaveStep(v: View, w: nat)
    requires w < |v.p.workers| && WorkerStep(v, w, LeaveLane).Some?
    ensures var v' := WorkerStep(v, w, LeaveLane).value;
      && v'.db == v.db && v'.p.channel == v.p.channel && v'.p.pump == v.p.pump
      && v'.p.workers == v.p.workers[w := Idle]
  {
    hide Left;
  }

  /** Only a Replace fire can close a dropped claim while the pass lasts, and nobody picks it up. */
  lemma LeftOpenStays(s: World, e: Step, s': World, pid: ProcId, t: TimerId, x: RunId)
    requires Next(s, e, s') && Accounted(s) && Locked(s) && LeftOpen(s, pid, t, x) && !Replaces(s, e, x)
    requires pid in s'.procs && InPass(s'.procs[pid].pump)
    ensures LeftOpen(s', pid, t, x)
  {
    hide ThreadStep, Accounts, LockSound, Fire, NextSeqno, ListsPending;
    NextExtends(s, e, s');
    match e
    case FireTx(y, r, n, rows) => FireSpares(s.db, y, r, n, rows, x);
    case Thread(q, act) =>
      if q == pid { OwnStepSpares(s, pid, act, t, x); } else { OtherStepSpares(s, q, act, pid, t, x); }
    case _ =>
  }

  lemma FireSpares(db: Db, t: TimerId, r: RunId, n: nat, rows: seq<RunId>, x: RunId)
    requires t in db.timers && r !in db.claims && x in db.claims && Unfinished(db.claims[x])
    requires db.timers[t] == Replace ==> x !in rows
    ensures x in Fire(db, t, r, n, rows).claims && Unfinished(Fire(db, t, r, n, rows).claims[x])
  {
    ReplacePendingShape(Emit(db, Event(r, Fired)), rows);
  }

  lemma OtherStepSpares(s: World, q: ProcId, act: Act, pid: ProcId, t: TimerId, x: RunId)
    requires q in s.procs && q != pid && ThreadStep(ViewOf(s, q), q, act).Some? && Locked(s) && LeftOpen(s, pid, t, x)
    ensures var db' := ThreadStep(ViewOf(s, q), q, act).value.db; x in db'.claims && Unfinished(db'.claims[x])
  {
    hide WorkerStep, PumpStep, BootStep, DownStep;
    var v := ViewOf(s, q);
    RependAllShape(s.db);
    assert LockSound(s.lock, pid, s.procs[pid]) && LockSound(s.lock, q, s.procs[q]);
    match act
    case OnWorker(w, wa) =>
      WorkerStays(v, w, wa);
      if s.procs[q].workers[w].Busy() { WorkerHoldsLock(s, q, w, s.procs[q].workers[w].run); }
    case OnPump(pa) =>
      PumpDb(v, q, pa);
      ConsidersInPass(v, q, pa);
    case _ => CallerDb(v, q, act);
  }

  lemma ConsidersInPass(v: View, pid: ProcId, a: PumpAct)
    requires PumpStep(v, pid, a).Some?
    ensures a.Consider? ==> v.p.pump.Pass? && v.p.pump.current.Some? && v.p.pump.current.value in v.p.pump.groups
  {
  }

  /** What a thread of the process itself does to a claim it does not hold. */
  lemma OwnStepSpares(s: World, pid: ProcId, act: Act, t: TimerId, x: RunId)
    requires pid in s.procs && ThreadStep(ViewOf(s, pid), pid, act).Some? && Accounted(s) && LeftOpen(s, pid, t, x)
    requires InPass(ThreadStep(ViewOf(s, pid), pid, act).value.p.pump)
    requires Extends(s.db, ThreadStep(ViewOf(s, pid), pid, act).value.db)
    ensures var v' := ThreadStep(ViewOf(s, pid), pid, act).value;
      LeftOpen(World(v'.db, v'.lock, s.procs[pid := v'.p], v'.starts), pid, t, x)
  {
    hide WorkerStep, PumpStep, BootStep, DownStep, Accounts;
    var v := ViewOf(s, pid);
    RependAllShape(s.db);
    match act
    case OnWorker(w, wa) =>
      WorkerStays(v, w, wa);
      WorkerDb(v, w, wa);
      WorkerRunSource(v, w, wa);
    case OnPump(pa) => PumpSpares(v, pid, pa, t, x);
    case _ =>
      CallerDb(v, pid, act);
      CallerQuiet(v, pid, act);
  }

  lemma PumpSpares(v: View, pid: ProcId, a: PumpAct, t: TimerId, x: RunId)
    requires PumpStep(v, pid, a).Some? && InPass(v.p.pump) && InPass(PumpStep(v, pid, a).value.p.pump)
    requires Of(v.db, t, x) && Unfinished(v.db.claims[x]) && PumpKnown(v.db.claims, v.p.pump)
    requires x !in v.p.channel && (t in v.p.pump.groups ==> x !in v.p.pump.groups[t])
    ensures var v' := PumpStep(v, pid, a).value;
      && x in v'.db.claims && Unfinished(v'.db.claims[x]) && v'.p.workers == v.p.workers && x !in v'.p.channel
      && (t in v'.p.pump.groups ==> x !in v'.p.pump.groups[t])
  {
    hide PumpStep, Finish, RependAll;
    RependAllShape(v.db);
    PumpDb(v, pid, a);
    PumpKeepsWorkers(v, pid, a);
    PassMoves(v, pid, a);
    ConsidersInPass(v, pid, a);
    if a.Consider? {
      var y := v.p.pump.current.value;
      if v.p.pump.groups[y] != [] {
        assert v.p.pump.groups[y][0] in v.p.pump.groups[y];
        FinishSpares(v.db, v.p.pump.groups[y][0], x);
      }
    }
  }

  /** What the pump sends and keeps comes from the groups it had. */
  lemma PassMoves(v: View, pid: ProcId, a: PumpAct)
    requires PumpStep(v, pid, a).Some? && InPass(v.p.pump) && InPass(PumpStep(v, pid, a).value.p.pump)
    ensures var p, p' := v.p, PumpStep(v, pid, a).value.p;
      && (forall r | r in p'.channel && r !in p.channel :: exists t :: t in p.pump.groups && r in p.pump.groups[t])
      && (forall t, r | t in p'.pump.groups && r in p'.pump.groups[t] :: t in p.pump.groups && r in p.pump.groups[t])
  {
    hide Enqueue, LaneOf, InLane, Reserved, RependAll, GroupsPending, TokensOf, CancelRequestedActive, Finish;
    if a.Consider? {
      var y := v.p.pump.current.value;
      if v.p.pump.groups[y] != [] { assert v.p.pump.groups[y][0] in v.p.pump.groups[y]; }
    }
  }

  lemma FinishSpares(db: Db, r: RunId, x: RunId)
    requires x in db.claims && r != x
    ensures var db' := Finish(db, r, WakeFailed(TimerDeleted), ByPump).0;
        x in db'.claims && db'.claims[x] == db.claims[x]
  {
  }

  lemma {:induction false} StaysLeftOpen(b: Run, j: nat, i: nat, pid: ProcId, t: TimerId, x: RunId)
    requires IsRun(b) && j < i < |b.states| && ReleasedSince(b, j, i, pid, t, x)
    ensures LeftOpen(b.states[i], pid, t, x)
    decreases i
  {
    hide Next, LateRelease, LeftOpen, Accounted, Locked, Replaces;
    AlwaysAccounted(b, i - 1);
    AlwaysLocked(b, i - 1);
    if j + 1 == i {
      ReleaseLeavesOpen(b.states[j], b.steps[j], b.states[i], pid, t, x);
    } else {
      StaysLeftOpen(b, j, i - 1, pid, t, x);
      LeftOpenStays(b.states[i - 1], b.steps[i - 1], b.states[i], pid, t, x);
    }
  }

  /** A sent hint is the head of the current group, and in a serial lane it is the only reservation. */
  lemma SendsTheHead(s: World, e: Step, s': World, pid: ProcId, t: TimerId, r: RunId)
    requires Next(s, e, s') && Sends(s, e, s', pid, r) && Accounted(s) && Of(s.db, t, r) && SerialTimer(s.db, t)
    ensures var p := s.procs[pid];
      p.pump.Pass? && t in p.pump.groups && p.pump.groups[t] != [] && p.pump.groups[t][0] == r
      && InLane(LaneOf(p.lanes, t)) == 0
  {
    hide Accounts;
    assert PumpKnown(s.db.claims, s.procs[pid].pump);
    PumpSends(ViewOf(s, pid), pid, e.act.pa, t, r);
  }

  lemma PumpSends(v: View, pid: ProcId, a: PumpAct, t: TimerId, r: RunId)
    requires PumpStep(v, pid, a).Some? && PumpStep(v, pid, a).value.p.channel == v.p.channel + [r]
    requires PumpKnown(v.db.claims, v.p.pump) && Of(v.db, t, r) && SerialTimer(v.db, t)
    ensures v.p.pump.Pass? && t in v.p.pump.groups && v.p.pump.groups[t] != [] && v.p.pump.groups[t][0] == r
      && InLane(LaneOf(v.p.lanes, t)) == 0
  {
    hide Enqueue, RependAll, GroupsPending, TokensOf, CancelRequestedActive, Finish;
    assert |v.p.channel + [r]| == |v.p.channel| + 1;
    if a.Consider? {
      var groups, y := v.p.pump.groups, v.p.pump.current.value;
      if groups[y] != [] {
        assert groups[y][0] in groups[y];
        assert (v.p.channel + [groups[y][0]])[|v.p.channel|] == groups[y][0];
      }
    }
  }

  lemma HeadIsOldest(db: Db, t: TimerId, p: Proc, group: seq<RunId>, late: set<RunId>)
    requires GroupOrdered(db, t, p, group, late) && group != []
    ensures forall x | x in group :: !Before(db, t, x, group[0])
  {
    forall i | 0 < i < |group| ensures !Before(db, t, group[i], group[0]) {
      assert Before(db, t, group[0], group[i]);
    }
  }

  /** With an empty lane, an unfinished claim older than the head was released late. */
  lemma OlderWasLate(db: Db, t: TimerId, p: Proc, group: seq<RunId>, late: set<RunId>, x: RunId)
    requires Accounts(db.claims, p) && GroupOrdered(db, t, p, group, late) && group != []
    requires InLane(LaneOf(p.lanes, t)) == 0 && Before(db, t, x, group[0]) && Unfinished(db.claims[x])
    ensures x in late
  {
    assert Covered(db, t, p, group, x, late);
    KeptIsReserved(db.claims, p, x);
    HeadIsOldest(db, t, p, group, late);
  }

  lemma KeptIsReserved(claims: Claims, p: Proc, x: RunId)
    requires Accounts(claims, p)
    ensures Kept(p.workers, x) ==> x in claims && Reserved(p.lanes, claims[x].timer, x)
  {
    if w :| 0 <= w < |p.workers| && Keeps(p.workers[w]) && p.workers[w].run == x { BusyIsReserved(claims, p, w); }
  }

  lemma BusyIsReserved(claims: Claims, p: Proc, w: nat)
    requires Accounts(claims, p) && w < |p.workers| && p.workers[w].Busy()
    ensures p.workers[w].run in claims && Reserved(p.lanes, claims[p.workers[w].run].timer, p.workers[w].run)
  {
    assert WorkerReserved(claims, p.lanes, p.workers[w]);
  }

  /** Once closed, a claim stays closed. */
  lemma {:induction false} ClosedStays(b: Run, j: nat, i: nat, x: RunId)
    requires IsRun(b) && j <= i < |b.states|
    requires x in b.states[j].db.claims && b.states[j].db.claims[x].status == Finished
    ensures x in b.states[i].db.claims && b.states[i].db.claims[x].status == Finished
    decreases i
  {
    hide Next;
    if j < i {
      ClosedStays(b, j, i - 1, x);
      NextExtends(b.states[i - 1], b.steps[i - 1], b.states[i]);
    }
  }

  lemma ReplacedIsClosed(s: World, e: Step, s': World, x: RunId)
    requires Next(s, e, s') && Replaces(s, e, x)
    ensures x in s'.db.claims && s'.db.claims[x].status == Finished
  {
    assert x in PendingOf(s.db, e.timer);
    ReplacePendingShape(Emit(s.db, Event(e.run, Fired)), e.rows);
  }

  /** Main result: in a run whose writes on the claims of a serial timer succeed, a hint of the timer
      goes out while an older claim is unfinished exactly when a worker released that claim, unfinished
      and unlisted, between this pass's snapshot and its lane lock, and no Replace fire closed it since. */
  lemma OvertakesExactly(b: Run, i: nat, pid: ProcId, t: TimerId, r: RunId, x: RunId)
    requires IsRun(b) && i < |b.steps| && Sends(b.states[i], b.steps[i], b.states[i + 1], pid, r)
    requires forall j | 0 <= j < i :: Orderly(b.states[j], b.steps[j], t) && SerialTimer(b.states[j].db, t)
    requires SerialTimer(b.states[i].db, t) && Before(b.states[i].db, t, x, r)
    ensures Unfinished(b.states[i].db.claims[x]) <==> exists j :: ReleasedSince(b, j, i, pid, t, x)
  {
    hide Next, WritesOk, GroupOrdered, LateRelease, Accounts, PumpKnown, Replaces, SerialTimer;
    var s := b.states[i];
    AlwaysAccounted(b, i);
    SendsTheHead(s, b.steps[i], b.states[i + 1], pid, t, r);
    if Unfinished(s.db.claims[x]) {
      AlwaysPassOrdered(b, i, pid, t);
      OlderWasLate(s.db, t, s.procs[pid], s.procs[pid].pump.groups[t], Late(b, i, pid, t), x);
      var j :| LateSince(b, j, i, pid, t, x);
      forall k | j < k < i ensures !Replaces(b.states[k], b.steps[k], x) {
        if Replaces(b.states[k], b.steps[k], x) {
          ReplacedIsClosed(b.states[k], b.steps[k], b.states[k + 1], x);
          ClosedStays(b, k + 1, i, x);
        }
      }
      assert ReleasedSince(b, j, i, pid, t, x);
    }
    if j :| ReleasedSince(b, j, i, pid, t, x) {
      StaysLeftOpen(b, j, i, pid, t, x);
      assert LeftOpen(s, pid, t, x);
    }
  }
}
