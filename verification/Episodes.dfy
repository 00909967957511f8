/** Whole episodes of one process, undisturbed by the others: what a worker's handling of one hint, a pump
    loop, a takeover and a shutdown leave behind, from any state in which they can begin. */
module Episodes {
  import opened Options
  import opened Store
  import opened Lanes
  import opened Dispatcher

  /** The acts lead from view `v` to view `v'`. */
  ghost predicate Leads(v: View, pid: ProcId, acts: seq<Act>, v': View) {
    if acts == [] then v' == v
    else
      var n := |acts| - 1;
      exists m :: Leads(v, pid, acts[..n], m) && ThreadStep(m, pid, acts[n]) == Some(v')
  }

  lemma Then(v: View, pid: ProcId, acts: seq<Act>, m: View, act: Act, v': View)
    requires Leads(v, pid, acts, m) && ThreadStep(m, pid, act) == Some(v')
    ensures Leads(v, pid, acts + [act], v')
  {
    hide ThreadStep;
    assert (acts + [act])[..|acts|] == acts;
  }

  lemma LeadsNowhere(v: View, pid: ProcId)
    ensures Leads(v, pid, [], v)
  {
  }

  lemma LeadsOn(v: View, pid: ProcId, a: seq<Act>, m: View, b: seq<Act>, v': View)
    requires Leads(v, pid, a, m) && Leads(m, pid, b, v')
    ensures Leads(v, pid, a + b, v')
    decreases |b|
  {
    hide ThreadStep;
    if b == [] {
      assert a + b == a;
    } else {
      var n := |b| - 1;
      var k :| Leads(m, pid, b[..n], k) && ThreadStep(k, pid, b[n]) == Some(v');
      LeadsOn(v, pid, a, m, b[..n], k);
      assert (a + b)[..|a + b| - 1] == a + b[..n];
    }
  }

  // -- The steps of a worker ----------------------------------------------

  /** The view with worker `w` at `x`. */
  function At(v: View, w: nat, x: Worker): View
    requires w < |v.p.workers|
  {
    v.(p := v.p.(workers := v.p.workers[w := x]))
  }

  /** An act of worker `w`, who goes from one place to the next. */
  lemma Works(v: View, pid: ProcId, acts: seq<Act>, q: View, w: nat, x: Worker, a: WorkerAct, q': View, x': Worker)
    requires w < |q.p.workers| && Leads(v, pid, acts, At(q, w, x))
    requires q'.p.workers == q.p.workers && WorkerStep(At(q, w, x), w, a) == Some(At(At(q', w, x), w, x'))
    ensures Leads(v, pid, acts + [OnWorker(w, a)], At(q', w, x'))
  {
    hide WorkerStep, Leads;
    assert q.p.workers[w := x][w := x'] == q.p.workers[w := x'];
    Then(v, pid, acts, At(q, w, x), OnWorker(w, a), At(q', w, x'));
  }

  /** The worker is idle, and the first hint is of a claim of `t`, queued in its lane. */
  predicate HintWaits(v: View, w: nat, t: TimerId, r: RunId) {
    && w < |v.p.workers| && v.p.workers[w] == Idle
    && v.p.channel != [] && v.p.channel[0] == r
    && r in v.db.claims && v.db.claims[r].timer == t
    && t in v.p.lanes && r in v.p.lanes[t].queued && r !in v.p.lanes[t].active
    && !v.p.pump.Pass?
  }

  /** The lanes without the reservation of `r` in lane `t`. */
  ghost predicate Released(lanes: Lanes, lanes': Lanes, t: TimerId, r: RunId)
    requires t in lanes
  {
    && (forall x | x != t :: x in lanes' <==> x in lanes)
    && (forall x | x != t && x in lanes :: lanes'[x] == lanes[x])
    && (t in lanes' ==>
          && (forall y :: y in lanes'[t].queued <==> y in lanes[t].queued && y != r)
          && lanes'[t].active == lanes[t].active - {r} && lanes'[t].tokens == lanes[t].tokens - {r})
    && (t !in lanes' ==> lanes[t].active <= {r} && forall y | y in lanes[t].queued :: y == r)
  }

  lemma LaneReleased(lanes: Lanes, t: TimerId, r: RunId, next: Token)
    requires t in lanes && r in lanes[t].queued && r !in lanes[t].active
    ensures Released(lanes, Left(Activated(lanes, t, r, next), t, r), t, r)
  {
    hide TokenFor;
    var l := lanes[t];
    var a := Activated(lanes, t, r, next)[t];
    assert a.active - {r} == l.active - {r} == l.active;
    assert a.tokens - {r} == l.tokens - {r};
    assert forall y :: y in Without(a.queued, r) <==> y in l.queued && y != r;
  }

  lemma HintReleased(lanes: Lanes, t: TimerId, r: RunId)
    requires t in lanes && r !in lanes[t].active
    ensures Released(lanes, Dropped(lanes, t, r), t, r)
  {
    assert lanes[t].active - {r} == lanes[t].active;
  }

  /** The view without its first hint. */
  function Taken(v: View): View
    requires v.p.channel != []
  {
    v.(p := v.p.(channel := v.p.channel[1..]))
  }

  /** The view after the claim was activated and its reservation moved. */
  function AfterMove(v: View, t: TimerId, r: RunId): View
    requires v.p.channel != [] && r in v.db.claims
  {
    v.(db := v.db.(claims := v.db.claims[r := v.db.claims[r].(status := Active)]),
       p := v.p.(channel := v.p.channel[1..], lanes := Activated(v.p.lanes, t, r, v.p.nextToken),
                 nextToken := v.p.nextToken + 1))
  }

  lemma Receives(v: View, pid: ProcId, w: nat)
    requires w < |v.p.workers| && v.p.workers[w] == Idle && v.p.channel != []
    ensures Leads(v, pid, [OnWorker(w, Recv)], At(Taken(v), w, Hinted(v.p.channel[0])))
  {
    hide Leads;
    LeadsNowhere(v, pid);
    assert v.p.workers[w := Idle] == v.p.workers && At(v, w, Idle) == v;
    assert [] + [OnWorker(w, Recv)] == [OnWorker(w, Recv)];
    Works(v, pid, [], v, w, Idle, Recv, Taken(v), Hinted(v.p.channel[0]));
  }

  /** From the hint to the moved reservation. */
  lemma Activates(v: View, pid: ProcId, w: nat, t: TimerId, r: RunId)
    requires HintWaits(v, w, t, r) && v.db.claims[r].status == Pending
    ensures Leads(v, pid,
                  [OnWorker(w, Recv), OnWorker(w, LoadClaim(true)), OnWorker(w, Cas(true)), OnWorker(w, MoveLane)],
                  At(AfterMove(v, t, r), w, Moved(r, t, TokenFor(v.p.lanes[t], r, v.p.nextToken))))
  {
    hide Leads, Activated, TokenFor;
    Receives(v, pid, w);
    var q := Taken(v);
    var a1 := [OnWorker(w, Recv)];
    Works(v, pid, a1, q, w, Hinted(r), LoadClaim(true), q, Checked(r, t));
    var a2 := a1 + [OnWorker(w, LoadClaim(true))];
    var q' := q.(db := AfterMove(v, t, r).db);
    Works(v, pid, a2, q, w, Checked(r, t), Cas(true), q', Won(r, t));
    var a3 := a2 + [OnWorker(w, Cas(true))];
    Works(v, pid, a3, q', w, Won(r, t), MoveLane, AfterMove(v, t, r),
          Moved(r, t, TokenFor(v.p.lanes[t], r, v.p.nextToken)));
    assert a3 + [OnWorker(w, MoveLane)]
        == [OnWorker(w, Recv), OnWorker(w, LoadClaim(true)), OnWorker(w, Cas(true)), OnWorker(w, MoveLane)];
  }

  /** The row closed by a worker with outcome `o`, and the event of it. */
  function Recorded(db: Db, r: RunId, o: Outcome): Db
    requires r in db.claims
  {
    Db(db.claims[r := db.claims[r].(status := Finished, outcome := Some(o), closer := ByWorker)], db.timers,
       db.outbox + [Event(r, Ended(o))])
  }

  lemma RecordedAnyway(db: Db, r: RunId, o: Outcome)
    requires r in db.claims
    ensures Recorded(db.(claims := db.claims[r := db.claims[r].(status := Active)]), r, o) == Recorded(db, r, o)
  {
  }

  /** The last two steps of a worker that closes its active claim. */
  lemma ClosesAndLeaves(v: View, pid: ProcId, acts: seq<Act>, q: View, w: nat, t: TimerId, r: RunId, token: Token,
                        o: Outcome)
    requires w < |q.p.workers| && q.p.workers[w] == Idle && !q.p.pump.Pass?
    requires r in q.db.claims && q.db.claims[r].status == Active
    requires Leads(v, pid, acts, At(q, w, Closing(r, t, token, o)))
    ensures Leads(v, pid, acts + [OnWorker(w, Commit(true))] + [OnWorker(w, LeaveLane)],
                  q.(db := Recorded(q.db, r, o), p := q.p.(lanes := Left(q.p.lanes, t, r))))
  {
    hide Leads, Left;
    var q' := q.(db := Recorded(q.db, r, o));
    Works(v, pid, acts, q, w, Closing(r, t, token, o), Commit(true), q', Leaving(r, t));
    Leaves(v, pid, acts + [OnWorker(w, Commit(true))], q', w, t, r);
  }

  lemma Leaves(v: View, pid: ProcId, acts: seq<Act>, q: View, w: nat, t: TimerId, r: RunId)
    requires w < |q.p.workers| && q.p.workers[w] == Idle && !q.p.pump.Pass?
    requires Leads(v, pid, acts, At(q, w, Leaving(r, t)))
    ensures Leads(v, pid, acts + [OnWorker(w, LeaveLane)], q.(p := q.p.(lanes := Left(q.p.lanes, t, r))))
  {
    hide Leads, Left;
    var q' := q.(p := q.p.(lanes := Left(q.p.lanes, t, r)));
    Works(v, pid, acts, q, w, Leaving(r, t), LeaveLane, q', Idle);
    assert q'.p.workers[w := Idle] == q'.p.workers && At(q', w, Idle) == q';
  }

  /** Main result: a worker that takes a pending claim of an existing timer and gets the answer `o` leaves
      the row finished with `o`, one event more, one start more, its reservation released, and itself
      idle; it changes nothing else but the token counter. */
  lemma HintIsServed(v: View, pid: ProcId, w: nat, t: TimerId, r: RunId, o: Outcome)
    requires HintWaits(v, w, t, r) && v.db.claims[r].status == Pending && t in v.db.timers
    requires o == WakeDelivered || o == WakeFailed(ActionError)
    ensures exists lanes' ::
              && Released(v.p.lanes, lanes', t, r)
              && Leads(v, pid,
                       [OnWorker(w, Recv), OnWorker(w, LoadClaim(true)), OnWorker(w, Cas(true)), OnWorker(w, MoveLane),
                        OnWorker(w, LoadTimer(true)), OnWorker(w, Report(o)), OnWorker(w, Commit(true)),
                        OnWorker(w, LeaveLane)],
                       View(Recorded(v.db, r, o), v.lock, v.starts + [r],
                            v.p.(channel := v.p.channel[1..], lanes := lanes', nextToken := v.p.nextToken + 1)))
  {
    hide Leads, Activated, Left, TokenFor, Released, Recorded;
    var token := TokenFor(v.p.lanes[t], r, v.p.nextToken);
    Activates(v, pid, w, t, r);
    LaneReleased(v.p.lanes, t, r, v.p.nextToken);
    RecordedAnyway(v.db, r, o);
    var q := AfterMove(v, t, r);
    var a4 := [OnWorker(w, Recv), OnWorker(w, LoadClaim(true)), OnWorker(w, Cas(true)), OnWorker(w, MoveLane)];
    var q' := q.(starts := v.starts + [r]);
    Works(v, pid, a4, q, w, Moved(r, t, token), LoadTimer(true), q', Running(r, t, token));
    var a5 := a4 + [OnWorker(w, LoadTimer(true))];
    Works(v, pid, a5, q', w, Running(r, t, token), Report(o), q', Closing(r, t, token, o));
    var a6 := a5 + [OnWorker(w, Report(o))];
    ClosesAndLeaves(v, pid, a6, q', w, t, r, token, o);
    assert a6 + [OnWorker(w, Commit(true))] + [OnWorker(w, LeaveLane)]
        == [OnWorker(w, Recv), OnWorker(w, LoadClaim(true)), OnWorker(w, Cas(true)), OnWorker(w, MoveLane),
            OnWorker(w, LoadTimer(true)), OnWorker(w, Report(o)), OnWorker(w, Commit(true)), OnWorker(w, LeaveLane)];
  }

  /** Main result: if its timer is gone, the claim is closed as failed and was never started. */
  lemma OrphanIsClosed(v: View, pid: ProcId, w: nat, t: TimerId, r: RunId)
    requires HintWaits(v, w, t, r) && v.db.claims[r].status == Pending && t !in v.db.timers
    ensures exists lanes' ::
              && Released(v.p.lanes, lanes', t, r)
              && Leads(v, pid,
                       [OnWorker(w, Recv), OnWorker(w, LoadClaim(true)), OnWorker(w, Cas(true)), OnWorker(w, MoveLane),
                        OnWorker(w, LoadTimer(true)), OnWorker(w, Commit(true)), OnWorker(w, LeaveLane)],
                       View(Recorded(v.db, r, WakeFailed(TimerDeleted)), v.lock, v.starts,
                            v.p.(channel := v.p.channel[1..], lanes := lanes', nextToken := v.p.nextToken + 1)))
  {
    hide Leads, Activated, Left, TokenFor, Released, Recorded;
    var token, o := TokenFor(v.p.lanes[t], r, v.p.nextToken), WakeFailed(TimerDeleted);
    Activates(v, pid, w, t, r);
    LaneReleased(v.p.lanes, t, r, v.p.nextToken);
    RecordedAnyway(v.db, r, o);
    var q := AfterMove(v, t, r);
    var a4 := [OnWorker(w, Recv), OnWorker(w, LoadClaim(true)), OnWorker(w, Cas(true)), OnWorker(w, MoveLane)];
    Works(v, pid, a4, q, w, Moved(r, t, token), LoadTimer(true), q, Closing(r, t, token, o));
    var a5 := a4 + [OnWorker(w, LoadTimer(true))];
    ClosesAndLeaves(v, pid, a5, q, w, t, r, token, o);
    assert a5 + [OnWorker(w, Commit(true))] + [OnWorker(w, LeaveLane)]
        == [OnWorker(w, Recv), OnWorker(w, LoadClaim(true)), OnWorker(w, Cas(true)), OnWorker(w, MoveLane),
            OnWorker(w, LoadTimer(true)), OnWorker(w, Commit(true)), OnWorker(w, LeaveLane)];
  }

  /** Main result: an action that panics leaves the rows as they were, the claim pending again, one start
      more, the reservation released, and the worker idle. */
  lemma PanicGivesBack(v: View, pid: ProcId, w: nat, t: TimerId, r: RunId)
    requires HintWaits(v, w, t, r) && v.db.claims[r].status == Pending && t in v.db.timers
    ensures exists lanes' ::
              && Released(v.p.lanes, lanes', t, r)
              && Leads(v, pid,
                       [OnWorker(w, Recv), OnWorker(w, LoadClaim(true)), OnWorker(w, Cas(true)), OnWorker(w, MoveLane),
                        OnWorker(w, LoadTimer(true)), OnWorker(w, Panic), OnWorker(w, RependRun(true)),
                        OnWorker(w, LeaveLane)],
                       View(v.db, v.lock, v.starts + [r],
                            v.p.(channel := v.p.channel[1..], lanes := lanes', nextToken := v.p.nextToken + 1)))
  {
    hide Leads, Activated, Left, TokenFor, Released, Repend;
    var token := TokenFor(v.p.lanes[t], r, v.p.nextToken);
    Activates(v, pid, w, t, r);
    LaneReleased(v.p.lanes, t, r, v.p.nextToken);
    RependedAgain(v.db, r);
    var q := AfterMove(v, t, r);
    var a4 := [OnWorker(w, Recv), OnWorker(w, LoadClaim(true)), OnWorker(w, Cas(true)), OnWorker(w, MoveLane)];
    var q' := q.(starts := v.starts + [r]);
    Works(v, pid, a4, q, w, Moved(r, t, token), LoadTimer(true), q', Running(r, t, token));
    var a5 := a4 + [OnWorker(w, LoadTimer(true))];
    Works(v, pid, a5, q', w, Running(r, t, token), Panic, q', Repending(r, t, token));
    var a6 := a5 + [OnWorker(w, Panic)];
    var q'' := q'.(db := v.db);
    Works(v, pid, a6, q', w, Repending(r, t, token), RependRun(true), q'', Leaving(r, t));
    var a7 := a6 + [OnWorker(w, RependRun(true))];
    Leaves(v, pid, a7, q'', w, t, r);
    assert a7 + [OnWorker(w, LeaveLane)]
        == [OnWorker(w, Recv), OnWorker(w, LoadClaim(true)), OnWorker(w, Cas(true)), OnWorker(w, MoveLane),
            OnWorker(w, LoadTimer(true)), OnWorker(w, Panic), OnWorker(w, RependRun(true)), OnWorker(w, LeaveLane)];
  }

  lemma RependedAgain(db: Db, r: RunId)
    requires r in db.claims && db.claims[r].status == Pending
    ensures Repend(db.(claims := db.claims[r := db.claims[r].(status := Active)]), r) == db
  {
    assert db.claims[r := db.claims[r].(status := Active)][r := db.claims[r]] == db.claims;
  }

  /** Main result: a hint whose claim is no longer pending, or cannot be read, changes no row: the worker
      releases the reservation and is idle again. */
  lemma StaleHintIsDropped(v: View, pid: ProcId, w: nat, t: TimerId, r: RunId, ok: bool)
    requires HintWaits(v, w, t, r) && (v.db.claims[r].status != Pending || !ok)
    ensures exists lanes' ::
              && Released(v.p.lanes, lanes', t, r)
              && Leads(v, pid, [OnWorker(w, Recv), OnWorker(w, LoadClaim(ok)), OnWorker(w, ReleaseHint(Some(t)))],
                       v.(p := v.p.(channel := v.p.channel[1..], lanes := lanes')))
  {
    hide Leads, Dropped, Released;
    HintReleased(v.p.lanes, t, r);
    Receives(v, pid, w);
    var q := Taken(v);
    var a1 := [OnWorker(w, Recv)];
    Works(v, pid, a1, q, w, Hinted(r), LoadClaim(ok), q, Dropping(r));
    var a2 := a1 + [OnWorker(w, LoadClaim(ok))];
    var q' := q.(p := q.p.(lanes := Dropped(v.p.lanes, t, r)));
    Works(v, pid, a2, q, w, Dropping(r), ReleaseHint(Some(t)), q', Idle);
    assert q'.p.workers[w := Idle] == q'.p.workers && At(q', w, Idle) == q';
    assert a2 + [OnWorker(w, ReleaseHint(Some(t)))]
        == [OnWorker(w, Recv), OnWorker(w, LoadClaim(ok)), OnWorker(w, ReleaseHint(Some(t)))];
  }

  /** Main result: a running worker may report success or failure at any time, an interruption exactly
      when its token was signalled, and nothing else. */
  lemma ReportsExactly(v: View, w: nat, o: Outcome)
    requires w < |v.p.workers|
    ensures WorkerStep(v, w, Report(o)).Some? <==>
              && v.p.workers[w].Running?
              && (o == WakeDelivered || o == WakeFailed(ActionError)
                  || (o == WakeFailed(OverlapReplace) && v.p.workers[w].token in v.p.cancelled))
  {
  }

  // -- The pump -----------------------------------------------------------

  /** The groups list each timer's pending claims, oldest sequence first, and leave no pending claim out. */
  ghost predicate ListAllPending(db: Db, groups: Groups) {
    && (forall t | t in groups ::
          && groups[t] != []
          && (forall r :: r in groups[t] <==>
              r in db.claims && db.claims[r].timer == t && db.claims[r].status == Pending)
          && (forall i, j | 0 <= i < j < |groups[t]| :: groups[t][i] != groups[t][j])
          && (forall i, j | 0 <= i < j < |groups[t]| ::
                db.claims[groups[t][i]].seqno <= db.claims[groups[t][j]].seqno))
    && (forall r | r in db.claims && db.claims[r].status == Pending :: db.claims[r].timer in groups)
  }

  lemma ListsAreSnapshots(db: Db, groups: Groups)
    ensures GroupsPending(db, groups) <==> ListAllPending(db, groups)
  {
    forall t, r
      ensures r in PendingOf(db, t) <==> r in db.claims && db.claims[r].timer == t && db.claims[r].status == Pending {}
    hide PendingOf;
  }

  /** An act of the pump. */
  lemma Pumps(v: View, pid: ProcId, acts: seq<Act>, q: View, a: PumpAct, q': View)
    requires Leads(v, pid, acts, q) && PumpStep(q, pid, a) == Some(q')
    ensures Leads(v, pid, acts + [OnPump(a)], q')
  {
    hide PumpStep, Leads;
    Then(v, pid, acts, q, OnPump(a), q');
  }

  /** Main result: a pump that is STARTED and owns the lock comes round to holding the lane lock, with the
      groups of all pending claims before it, having signalled exactly the tokens stored under the active
      runs asked to stop. */
  lemma PumpComesRound(v: View, pid: ProcId, groups: Groups, locked: bool)
    requires v.p.pump.Top? && v.p.level == Started && v.p.ownsLock && ListAllPending(v.db, groups)
    ensures exists cancelled' ::
              && (forall k :: k in cancelled' <==> k in v.p.cancelled || exists t, r :: AskedToStop(v, t, r, k))
              && Leads(v, pid, [OnPump(ReadLevel), OnPump(TakeLock(locked)), OnPump(Check), OnPump(Enter(true)),
                                OnPump(Cancels(true)), OnPump(SignalTokens), OnPump(TakeSnapshot(true, groups)),
                                OnPump(LockLanes)],
                       v.(p := v.p.(pump := Pump.Pass(groups, None), cancelled := cancelled')))
  {
    hide Leads, TokensOf, GroupsPending, ListAllPending, CancelRequestedActive, AskedToStop;
    ListsAreSnapshots(v.db, groups);
    SignalledTokens(v);
    PumpEnters(v, pid, locked);
    PumpReads(v.(p := v.p.(pump := ReadCancels)), pid, groups);
    var a := [OnPump(ReadLevel), OnPump(TakeLock(locked)), OnPump(Check), OnPump(Enter(true))];
    var b := [OnPump(Cancels(true)), OnPump(SignalTokens), OnPump(TakeSnapshot(true, groups)), OnPump(LockLanes)];
    var cancelled' := v.p.cancelled + TokensOf(v.p.lanes, CancelRequestedActive(v.db));
    var end := v.(p := v.p.(pump := Pump.Pass(groups, None), cancelled := cancelled'));
    LeadsOn(v, pid, a, v.(p := v.p.(pump := ReadCancels)), b, end);
    assert a + b
        == [OnPump(ReadLevel), OnPump(TakeLock(locked)), OnPump(Check), OnPump(Enter(true)), OnPump(Cancels(true)),
            OnPump(SignalTokens), OnPump(TakeSnapshot(true, groups)), OnPump(LockLanes)];
  }

  lemma PumpEnters(v: View, pid: ProcId, locked: bool)
    requires v.p.pump.Top? && v.p.level == Started && v.p.ownsLock
    ensures Leads(v, pid, [OnPump(ReadLevel), OnPump(TakeLock(locked)), OnPump(Check), OnPump(Enter(true))],
                  v.(p := v.p.(pump := ReadCancels)))
  {
    hide Leads, TokensOf, GroupsPending, CancelRequestedActive, ConsiderClaim, RependAll;
    LeadsNowhere(v, pid);
    var p := v.p;
    Pumps(v, pid, [], v, ReadLevel, v.(p := p.(pump := TryLock)));
    var a1 := [] + [OnPump(ReadLevel)];
    Pumps(v, pid, a1, v.(p := p.(pump := TryLock)), TakeLock(locked), v.(p := p.(pump := Gate)));
    var a2 := a1 + [OnPump(TakeLock(locked))];
    Pumps(v, pid, a2, v.(p := p.(pump := Gate)), Check, v.(p := p.(pump := Guard)));
    var a3 := a2 + [OnPump(Check)];
    Pumps(v, pid, a3, v.(p := p.(pump := Guard)), Enter(true), v.(p := p.(pump := ReadCancels)));
    assert a3 + [OnPump(Enter(true))]
        == [OnPump(ReadLevel), OnPump(TakeLock(locked)), OnPump(Check), OnPump(Enter(true))];
  }

  lemma PumpReads(v: View, pid: ProcId, groups: Groups)
    requires v.p.pump.ReadCancels? && GroupsPending(v.db, groups)
    ensures Leads(v, pid, [OnPump(Cancels(true)), OnPump(SignalTokens), OnPump(TakeSnapshot(true, groups)),
                           OnPump(LockLanes)],
                  v.(p := v.p.(pump := Pump.Pass(groups, None),
                               cancelled := v.p.cancelled + TokensOf(v.p.lanes, CancelRequestedActive(v.db)))))
  {
    hide Leads, TokensOf, GroupsPending, CancelRequestedActive, ConsiderClaim, RependAll;
    LeadsNowhere(v, pid);
    var p, ids := v.p, CancelRequestedActive(v.db);
    Pumps(v, pid, [], v, Cancels(true), v.(p := p.(pump := Signal(ids))));
    var a1 := [] + [OnPump(Cancels(true))];
    var q := p.(cancelled := p.cancelled + TokensOf(p.lanes, ids));
    Pumps(v, pid, a1, v.(p := p.(pump := Signal(ids))), SignalTokens, v.(p := q.(pump := Snapshot)));
    var a2 := a1 + [OnPump(SignalTokens)];
    Pumps(v, pid, a2, v.(p := q.(pump := Snapshot)), TakeSnapshot(true, groups), v.(p := q.(pump := LaneWait(groups))));
    var a3 := a2 + [OnPump(TakeSnapshot(true, groups))];
    Pumps(v, pid, a3, v.(p := q.(pump := LaneWait(groups))), LockLanes, v.(p := q.(pump := Pump.Pass(groups, None))));
    assert a3 + [OnPump(LockLanes)]
        == [OnPump(Cancels(true)), OnPump(SignalTokens), OnPump(TakeSnapshot(true, groups)), OnPump(LockLanes)];
  }

  /** Token `k` is stored in lane `t` under an active run that was asked to stop. */
  ghost predicate AskedToStop(v: View, t: TimerId, r: RunId, k: Token) {
    && t in v.p.lanes && r in v.p.lanes[t].tokens && v.p.lanes[t].tokens[r] == k
    && r in v.db.claims && v.db.claims[r].status == Active && v.db.claims[r].cancelRequested
  }

  lemma TokenStored(lanes: Lanes, ids: set<RunId>, t: TimerId, r: RunId)
    requires t in lanes && r in ids && r in lanes[t].tokens
    ensures lanes[t].tokens[r] in TokensOf(lanes, ids)
  {
  }

  lemma SignalledTokens(v: View)
    ensures forall k :: k in TokensOf(v.p.lanes, CancelRequestedActive(v.db)) <==> exists t, r ::
        AskedToStop(v, t, r, k)
  {
    var lanes, ids := v.p.lanes, CancelRequestedActive(v.db);
    forall k | k in TokensOf(lanes, ids) ensures exists t, r :: AskedToStop(v, t, r, k) {
      var t, r :| t in lanes && r in ids && r in lanes[t].tokens && lanes[t].tokens[r] == k;
      assert AskedToStop(v, t, r, k);
    }
    forall t, r, k | AskedToStop(v, t, r, k) ensures k in TokensOf(lanes, ids) {
      assert r in ids;
      TokenStored(lanes, ids, t, r);
    }
  }

  /** Main result: the pump of a process finds the lock free, takes it, returns every active claim to
      pending and leaves every other row as it was, and is STARTED. */
  lemma PumpTakesOver(v: View, pid: ProcId)
    requires v.p.pump.Top? && v.p.level != Stopping && !v.p.ownsLock && v.lock == None
    ensures exists claims': map<RunId, Claim> ::
              && claims'.Keys == v.db.claims.Keys
              && (forall r | r in v.db.claims :: claims'[r] ==
                    if v.db.claims[r].status == Active then v.db.claims[r].(status := Pending) else v.db.claims[r])
              && Leads(v, pid, [OnPump(ReadLevel), OnPump(TakeLock(true)), OnPump(Reload), OnPump(Recover(true)),
                                OnPump(Start)],
                       View(Db(claims', v.db.timers, v.db.outbox), Some(pid), v.starts,
                            v.p.(pump := Gate, ownsLock := true, recovered := true, level := Started)))
  {
    hide Leads, RependAll, TokensOf, GroupsPending, CancelRequestedActive, ConsiderClaim;
    RependAllShape(v.db);
    LeadsNowhere(v, pid);
    var p := v.p;
    var db' := RependAll(v.db);
    Pumps(v, pid, [], v, ReadLevel, v.(p := p.(pump := TryLock)));
    var a1 := [] + [OnPump(ReadLevel)];
    var got := v.(lock := Some(pid), p := p.(ownsLock := true, recovered := false, pump := Took));
    Pumps(v, pid, a1, v.(p := p.(pump := TryLock)), TakeLock(true), got);
    var a2 := a1 + [OnPump(TakeLock(true))];
    Pumps(v, pid, a2, got, Reload, got.(p := got.p.(pump := Recovering)));
    var a3 := a2 + [OnPump(Reload)];
    var back := got.(db := db', p := got.p.(pump := Starting, recovered := true));
    Pumps(v, pid, a3, got.(p := got.p.(pump := Recovering)), Recover(true), back);
    var a4 := a3 + [OnPump(Recover(true))];
    Pumps(v, pid, a4, back, Start, back.(p := back.p.(pump := Gate, level := Started)));
    assert a4 + [OnPump(Start)]
        == [OnPump(ReadLevel), OnPump(TakeLock(true)), OnPump(Reload), OnPump(Recover(true)), OnPump(Start)];
  }

  // -- Boot and shutdown --------------------------------------------------

  /** Main result: a boot that gets the lock, or has it already, recovers in the same way and is STARTED. */
  lemma BootStarts(v: View, pid: ProcId)
    requires v.p.boot.BootIdle? && (v.p.ownsLock || v.lock == None)
    ensures exists claims': map<RunId, Claim> ::
              && claims'.Keys == v.db.claims.Keys
              && (forall r | r in v.db.claims :: claims'[r] ==
                    if v.db.claims[r].status == Active then v.db.claims[r].(status := Pending) else v.db.claims[r])
              && Leads(v, pid,
                       [OnBoot(BootCall), OnBoot(BootTakeLock(true)), OnBoot(BootRepend(true)), OnBoot(BootStart)],
                       View(Db(claims', v.db.timers, v.db.outbox), if v.p.ownsLock then v.lock else Some(pid), v.starts,
                            v.p.(ownsLock := true, recovered := true, level := Started)))
  {
    hide Leads, RependAll;
    RependAllShape(v.db);
    LeadsNowhere(v, pid);
    var p := v.p;
    var db' := RependAll(v.db);
    Then(v, pid, [], v, OnBoot(BootCall), v.(p := p.(boot := BootLock)));
    var a1 := [] + [OnBoot(BootCall)];
    var got := if p.ownsLock then v.(p := p.(boot := BootRecover))
               else v.(lock := Some(pid), p := p.(ownsLock := true, recovered := false, boot := BootRecover));
    Then(v, pid, a1, v.(p := p.(boot := BootLock)), OnBoot(BootTakeLock(true)), got);
    var a2 := a1 + [OnBoot(BootTakeLock(true))];
    var back := got.(db := db', p := got.p.(boot := BootPublish, recovered := true));
    Then(v, pid, a2, got, OnBoot(BootRepend(true)), back);
    var a3 := a2 + [OnBoot(BootRepend(true))];
    Then(v, pid, a3, back, OnBoot(BootStart), back.(p := back.p.(boot := BootIdle, level := Started)));
    assert a3 + [OnBoot(BootStart)]
        == [OnBoot(BootCall), OnBoot(BootTakeLock(true)), OnBoot(BootRepend(true)), OnBoot(BootStart)];
  }

  /** The first `n` workers exit, one receive each. */
  function EachReceives(n: nat): seq<Act> { if n == 0 then [] else EachReceives(n - 1) + [OnWorker(n - 1, Recv)] }

  lemma {:induction false} WorkersExit(v: View, pid: ProcId, n: nat)
    requires n <= |v.p.workers| && v.p.channel == [] && !v.p.sender && forall w | 0 <= w < |v.p.workers| ::
        v.p.workers[w] == Idle
    ensures Leads(v, pid, EachReceives(n),
                  v.(p := v.p.(workers := seq(n, w => Exited) + v.p.workers[n..])))
  {
    hide Leads;
    var ws := v.p.workers;
    if n == 0 {
      LeadsNowhere(v, pid);
      assert seq(0, w => Exited) + ws == ws;
    } else {
      WorkersExit(v, pid, n - 1);
      var before := seq(n - 1, w => Exited) + ws[n - 1..];
      assert before[n - 1] == Idle;
      assert before[n - 1 := Exited] == seq(n, w => Exited) + ws[n..];
      var m := v.(p := v.p.(workers := before));
      Then(v, pid, EachReceives(n - 1), m, OnWorker(n - 1, Recv), v.(p := v.p.(workers := before[n - 1 := Exited])));
    }
  }

  /** Main result: a process at rest shuts down: its pump halts, its workers exit, and the lock is free. */
  lemma RestingProcessShutsDown(v: View, pid: ProcId)
    requires v.p.shutdown.Serving? && v.p.pump.Top? && v.p.channel == [] && v.lock == Some(pid)
    requires forall w | 0 <= w < |v.p.workers| :: v.p.workers[w] == Idle
    ensures Leads(v, pid, [OnDown(DownCall), OnDown(DownClose), OnPump(ReadLevel)] + EachReceives(|v.p.workers|)
                          + [OnDown(DownJoin), OnDown(DownRelease), OnDown(DownClear)],
                  v.(lock := None,
                     p := v.p.(level := Stopping, sender := false, pump := Halted, ownsLock := false, shutdown := Down,
                               workers := seq(|v.p.workers|, w => Exited))))
  {
    hide Leads, ConsiderClaim, TokensOf, GroupsPending, RependAll, CancelRequestedActive;
    var p, n := v.p, |v.p.workers|;
    LeadsNowhere(v, pid);
    var called := v.(p := p.(level := Stopping, shutdown := CloseSender));
    Then(v, pid, [], v, OnDown(DownCall), called);
    var a1 := [] + [OnDown(DownCall)];
    var closed := called.(p := called.p.(sender := false, shutdown := Joining));
    Then(v, pid, a1, called, OnDown(DownClose), closed);
    var a2 := a1 + [OnDown(DownClose)];
    var halted := closed.(p := closed.p.(pump := Halted));
    Then(v, pid, a2, closed, OnPump(ReadLevel), halted);
    var a3 := a2 + [OnPump(ReadLevel)];
    WorkersExit(halted, pid, n);
    var out := halted.(p := halted.p.(workers := seq(n, w => Exited)));
    assert seq(n, w => Exited) + p.workers[n..] == seq(n, w => Exited);
    LeadsOn(v, pid, a3, halted, EachReceives(n), out);
    LocksDown(v, pid, a3 + EachReceives(n), out);
    assert a3 == [OnDown(DownCall), OnDown(DownClose), OnPump(ReadLevel)];
  }

  lemma LocksDown(v: View, pid: ProcId, acts: seq<Act>, q: View)
    requires Leads(v, pid, acts, q) && q.p.shutdown.Joining? && AllExited(q.p) && q.lock == Some(pid)
    ensures Leads(v, pid, acts + [OnDown(DownJoin), OnDown(DownRelease), OnDown(DownClear)],
                  q.(lock := None, p := q.p.(ownsLock := false, shutdown := Down)))
  {
    hide Leads, AllExited;
    Then(v, pid, acts, q, OnDown(DownJoin), q.(p := q.p.(shutdown := Releasing)));
    var a1 := acts + [OnDown(DownJoin)];
    Then(v, pid, a1, q.(p := q.p.(shutdown := Releasing)), OnDown(DownRelease),
         q.(lock := None, p := q.p.(shutdown := Clearing)));
    var a2 := a1 + [OnDown(DownRelease)];
    Then(v, pid, a2, q.(lock := None, p := q.p.(shutdown := Clearing)), OnDown(DownClear),
         q.(lock := None, p := q.p.(ownsLock := false, shutdown := Down)));
    assert a2 + [OnDown(DownClear)] == acts + [OnDown(DownJoin), OnDown(DownRelease), OnDown(DownClear)];
  }

  // -- Failures -----------------------------------------------------------

  /** Main result: a failed read or write of the pump changes nothing but the pump's place: it goes on
      without the result, or back to the top. The lock is not taken while someone else has it. */
  lemma PumpFailuresOnlyMove(v: View, pid: ProcId, a: PumpAct)
    requires PumpStep(v, pid, a).Some?
    ensures var v' := PumpStep(v, pid, a).value;
      && (a.TakeLock? && (!a.ok || v.p.ownsLock || v.lock != None) ==> v' == v.(p := v.p.(pump := Gate)))
      && (a == Recover(false) ==> v' == v.(p := v.p.(pump := Starting)))
      && (a == Enter(false) ==> v' == v.(p := v.p.(pump := Top)))
      && (a.Enter? && !v.p.ownsLock ==> v' == v.(p := v.p.(pump := Top)))
      && (a == Cancels(false) ==> v' == v.(p := v.p.(pump := Signal({}))))
      && (a.TakeSnapshot? && !a.ok ==> v' == v.(p := v.p.(pump := Top)))
      && (a.Check? && v.p.level != Started ==> v' == v.(p := v.p.(pump := Top)))
      && (a.Reload? && v.p.level == Stopping ==> v' == v.(p := v.p.(pump := Gate)))
      && (a.ReadLevel? && v.p.level == Stopping ==> v' == v.(p := v.p.(pump := Halted)))
      && (a.EndPass? ==> v' == v.(p := v.p.(pump := Top)) && v.p.pump.groups == map[])
  {
    hide ConsiderClaim, TokensOf, GroupsPending, RependAll, CancelRequestedActive;
  }

  /** Main result: a claim whose timer cannot be read goes the way of a panic; a store that does not open
      and an idle worker without a sender end the worker; a failed boot write starts without recovery. */
  lemma OtherFailures(v: View, pid: ProcId, w: nat)
    requires w < |v.p.workers|
    ensures v.p.workers[w].Moved? ==>
        var x := v.p.workers[w];
        WorkerStep(v, w, LoadTimer(false)) == Some(At(v, w, Repending(x.run, x.timer, x.token)))
    ensures v.p.workers[w].Opening? ==> WorkerStep(v, w, OpenStore(false)) == Some(At(v, w, Exited))
                                        && WorkerStep(v, w, OpenStore(true)) == Some(At(v, w, Idle))
    ensures v.p.workers[w].Idle? && v.p.channel == [] ==>
        WorkerStep(v, w, Recv) == if v.p.sender then None else Some(At(v, w, Exited))
    ensures v.p.boot.BootLock? && !v.p.ownsLock ==>
        BootStep(v, pid, BootTakeLock(false)) == Some(v.(p := v.p.(boot := BootIdle)))
    ensures v.p.boot.BootRecover? ==> BootStep(v, pid, BootRepend(false)) == Some(v.(p := v.p.(boot := BootPublish)))
  {
    hide RependAll, Activate, CommitResult, Repend, Activated, Left, Dropped, MayRelease, MayReport, TokenFor, LaneOf;
  }
}
