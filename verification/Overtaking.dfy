/** Why serial order needs its side condition: one run, step by step, in which a panic between
    snapshot and lane pass lets the newer claim of a serial timer go before the older one. */
module Overtaking {
  import opened Options
  import opened Store
  import opened Lanes
  import opened Dispatcher
  import opened Recovery
  import opened Snapshots
  import opened SerialOrder

  const OLDER: RunId := 10
  const NEWER: RunId := 11

  /** No store write of this act fails, of whatever timer. */
  predicate Succeeds(act: Act) {
    match act
    case OnWorker(_, Commit(ok)) => ok
    case OnWorker(_, RependRun(ok)) => ok
    case OnPump(Recover(ok)) => ok
    case OnPump(Consider(_, ok)) => ok
    case OnBoot(BootRepend(ok)) => ok
    case _ => true
  }

  predicate NoWriteFails(e: Step) { e.Thread? ==> Succeeds(e.act) }

  predicate IsPanic(e: Step) { e.Thread? && e.act.OnWorker? && e.act.wa.Panic? }

  /** The only panic of the run is step `k`, in the execution of the older claim. */
  ghost predicate PanicsOnceAt(b: Run, k: nat) {
    && k < |b.steps| < |b.states| && (forall i | 0 <= i < |b.steps| :: IsPanic(b.steps[i]) <==> i == k)
    && b.steps[k] == Thread(0, OnWorker(0, Panic))
    && 0 in b.states[k].procs && |b.states[k].procs[0].workers| == 1
    && b.states[k].procs[0].workers[0].Running? && b.states[k].procs[0].workers[0].run == OLDER
  }

  /** The only late release of the timer is step `j`, of the older claim. */
  ghost predicate LateOnceAt(b: Run, j: nat) {
    && j < |b.steps| < |b.states| && LateRelease(b.states[j], b.steps[j], 0, 0, OLDER)
    && (forall i | 0 <= i < |b.steps| && i != j :: NoLateRelease(b.states[i], b.steps[i], 0))
  }

  /** How far the story has gone: nothing special yet, a panic, and a late release after it. */
  datatype Story = Calm | Panicked | Late

  ghost predicate Told(b: Run, story: Story)
    requires |b.states| == |b.steps| + 1
  {
    match story
    case Calm => forall i | 0 <= i < |b.steps| :: !IsPanic(b.steps[i]) && NoLateRelease(b.states[i], b.steps[i], 0)
    case Panicked =>
      (exists k :: PanicsOnceAt(b, k)) && forall i | 0 <= i < |b.steps| :: NoLateRelease(b.states[i], b.steps[i], 0)
    case Late => exists k, j :: k < j && PanicsOnceAt(b, k) && LateOnceAt(b, j)
  }

  ghost predicate Leads(b: Run, s: World, story: Story) {
    && IsRun(b) && b.states[|b.steps|] == s
    && (forall j | 0 <= j < |b.steps| :: NoWriteFails(b.steps[j]))
    && (forall j | 0 <= j < |b.states| :: SerialTimer(b.states[j].db, 0))
    && Told(b, story)
  }

  /** Some run with this story leads to `s` in which timer 0 is serial throughout and no write fails. */
  ghost predicate Reaches(s: World, story: Story) { exists b :: Leads(b, s, story) }

  /** How a step carries the story on. */
  ghost predicate Turns(s: World, e: Step, story: Story, story': Story) {
    || (story' == story && !IsPanic(e) && NoLateRelease(s, e, 0))
    || (story.Calm? && story'.Panicked? && e == Thread(0, OnWorker(0, Panic)) && NoLateRelease(s, e, 0)
        && 0 in s.procs && |s.procs[0].workers| == 1
        && s.procs[0].workers[0].Running? && s.procs[0].workers[0].run == OLDER)
    || (story.Panicked? && story'.Late? && !IsPanic(e) && LateRelease(s, e, 0, 0, OLDER))
  }

  lemma Follow(s: World, e: Step, s': World, story: Story, story': Story)
    requires Reaches(s, story) && Next(s, e, s') && NoWriteFails(e) && SerialTimer(s'.db, 0)
    requires Turns(s, e, story, story')
    ensures Reaches(s', story')
  {
    hide Next, Turns, Told, SerialTimer, NoWriteFails;
    var b :| Leads(b, s, story);
    var c := Run(b.states + [s'], b.steps + [e]);
    forall j | 0 <= j < |c.steps| ensures Next(c.states[j], c.steps[j], c.states[j + 1]) {
      if j < |b.steps| { assert c.states[j + 1] == b.states[j + 1]; }
    }
    TellsOn(b, e, s', story, story');
    assert Leads(c, s', story');
  }

  lemma TellsOn(b: Run, e: Step, s': World, story: Story, story': Story)
    requires |b.states| == |b.steps| + 1 && Told(b, story) && Turns(b.states[|b.steps|], e, story, story')
    ensures Told(Run(b.states + [s'], b.steps + [e]), story')
  {
    hide NoLateRelease, LateRelease;
    var c, n := Run(b.states + [s'], b.steps + [e]), |b.steps|;
    assert c.steps[n] == e && c.states[n] == b.states[n];
    assert forall i | 0 <= i < n :: c.steps[i] == b.steps[i] && c.states[i] == b.states[i];
    if story.Panicked? {
      var k :| PanicsOnceAt(b, k);
      assert PanicsOnceAt(c, k);
      if story'.Late? { assert LateOnceAt(c, n); }
    } else if story.Late? {
      var k, j :| k < j && PanicsOnceAt(b, k) && LateOnceAt(b, j);
      assert PanicsOnceAt(c, k) && LateOnceAt(c, j);
    } else if story'.Panicked? {
      assert PanicsOnceAt(c, n);
    }
  }

  // -- The actors: timer 0 under QueueOne, process 0 with one worker ------

  function Rows(claims: map<RunId, Claim>, outbox: seq<Event>): Db { Db(claims, map[0 := QueueOne], outbox) }

  function At(db: Db, starts: seq<RunId>, p: Proc): World { World(db, Some(0), map[0 := p], starts) }

  function Worked(x: Worker, channel: seq<RunId>, lanes: Lanes, next: Token, pump: Pump): Proc {
    Proc(Started, true, true, channel, lanes, [x], next, {}, pump, BootIdle, Serving, true)
  }

  lemma Turn(db: Db, starts: seq<RunId>, p: Proc, act: Act, db': Db, starts': seq<RunId>, p': Proc,
             story: Story, story': Story)
    requires Reaches(At(db, starts, p), story) && db'.timers == map[0 := QueueOne]
    requires ThreadStep(View(db, Some(0), starts, p), 0, act) == Some(View(db', Some(0), starts', p'))
    requires Succeeds(act) && Turns(At(db, starts, p), Thread(0, act), story, story')
    ensures Reaches(At(db', starts', p'), story')
  {
    hide ThreadStep, Reaches, Turns;
    assert map[0 := p][0 := p'] == map[0 := p'];
    Follow(At(db, starts, p), Thread(0, act), At(db', starts', p'), story, story');
  }

  /** Neither a panic nor a release while the pump waits. */
  predicate Uneventful(act: Act, pump: Pump) {
    act.OnWorker? ==> !act.wa.Panic? && (act.wa.LeaveLane? ==> !pump.LaneWait?)
  }

  lemma Do(db: Db, starts: seq<RunId>, p: Proc, act: Act, db': Db, starts': seq<RunId>, p': Proc, story: Story)
    requires Reaches(At(db, starts, p), story) && db'.timers == map[0 := QueueOne]
    requires ThreadStep(View(db, Some(0), starts, p), 0, act) == Some(View(db', Some(0), starts', p'))
    requires Succeeds(act) && Uneventful(act, p.pump)
    ensures Reaches(At(db', starts', p'), story)
  {
    hide ThreadStep, Reaches;
    Turn(db, starts, p, act, db', starts', p', story, story);
  }

  /** A step of the one worker. */
  lemma WorkTurn(db: Db, starts: seq<RunId>, p: Proc, a: WorkerAct, db': Db, starts': seq<RunId>, p': Proc,
                 story: Story, story': Story)
    requires Reaches(At(db, starts, p), story) && db'.timers == map[0 := QueueOne]
    requires |p.workers| == 1 && |p'.workers| == 1
    requires WorkerStep(View(db, Some(0), starts, p), 0, a)
             == Some(View(db', Some(0), starts', p'.(workers := p.workers[0 := p'.workers[0]])))
    requires Succeeds(OnWorker(0, a)) && Turns(At(db, starts, p), Thread(0, OnWorker(0, a)), story, story')
    ensures Reaches(At(db', starts', p'), story')
  {
    hide Reaches, WorkerStep, Turns;
    assert p.workers[0 := p'.workers[0]] == p'.workers;
    assert p'.(workers := p.workers[0 := p'.workers[0]]) == p';
    Turn(db, starts, p, OnWorker(0, a), db', starts', p', story, story');
  }

  lemma Work(db: Db, starts: seq<RunId>, p: Proc, a: WorkerAct, db': Db, starts': seq<RunId>, p': Proc, story: Story)
    requires Reaches(At(db, starts, p), story) && db'.timers == map[0 := QueueOne]
    requires |p.workers| == 1 && |p'.workers| == 1
    requires WorkerStep(View(db, Some(0), starts, p), 0, a)
             == Some(View(db', Some(0), starts', p'.(workers := p.workers[0 := p'.workers[0]])))
    requires Succeeds(OnWorker(0, a)) && Uneventful(OnWorker(0, a), p.pump)
    ensures Reaches(At(db', starts', p'), story)
  {
    hide Reaches, WorkerStep;
    WorkTurn(db, starts, p, a, db', starts', p', story, story);
  }

  /** The pump goes from the top of its loop to a snapshot. */
  lemma TakesSnapshot(db: Db, starts: seq<RunId>, x: Worker, channel: seq<RunId>, lanes: Lanes, next: Token,
                      groups: Groups, story: Story)
    requires Reaches(At(db, starts, Worked(x, channel, lanes, next, Top)), story) && db.timers == map[0 := QueueOne]
    requires GroupsPending(db, groups) && forall r | r in db.claims :: !db.claims[r].cancelRequested
    ensures Reaches(At(db, starts, Worked(x, channel, lanes, next, LaneWait(groups))), story)
  {
    hide Reaches;
    var p := Worked(x, channel, lanes, next, Top);
    Do(db, starts, p, OnPump(ReadLevel), db, starts, p.(pump := TryLock), story);
    Do(db, starts, p.(pump := TryLock), OnPump(TakeLock(true)), db, starts, p.(pump := Gate), story);
    Do(db, starts, p.(pump := Gate), OnPump(Check), db, starts, p.(pump := Guard), story);
    Do(db, starts, p.(pump := Guard), OnPump(Enter(true)), db, starts, p.(pump := ReadCancels), story);
    assert CancelRequestedActive(db) == {};
    Do(db, starts, p.(pump := ReadCancels), OnPump(Cancels(true)), db, starts, p.(pump := Signal({})), story);
    assert p.cancelled + TokensOf(lanes, {}) == {};
    Do(db, starts, p.(pump := Signal({})), OnPump(SignalTokens), db, starts, p.(pump := Snapshot), story);
    Do(db, starts, p.(pump := Snapshot), OnPump(TakeSnapshot(true, groups)), db, starts, p.(pump := LaneWait(groups)),
       story);
  }

  /** The pass over a snapshot sends the head of the group; the rest must wait. */
  lemma SendsHead(db: Db, starts: seq<RunId>, x: Worker, next: Token, group: seq<RunId>, story: Story)
    requires Reaches(At(db, starts, Worked(x, [], map[], next, LaneWait(map[0 := group]))), story)
        && db.timers == map[0 := QueueOne]
    requires group != [] && (|group| > 1 ==> group[1] != group[0])
    ensures Reaches(At(db, starts, Worked(x, [group[0]], Enqueue(map[], 0, group[0], next), next + 1, Top)), story)
  {
    hide Reaches, ThreadStep;
    var r, rest := group[0], group[1..];
    var p, q := Worked(x, [], map[], next, Top), Worked(x, [r], Enqueue(map[], 0, r, next), next + 1, Top);
    var g, h := map[0 := group], map[0 := rest];
    LocksAndPicks(db, starts, p, g, story);
    SendStep(db, starts, x, next, group);
    Do(db, starts, p.(pump := Pump.Pass(g, Some(0))), OnPump(Consider(true, true)), db, starts,
       q.(pump := Pump.Pass(h, Some(0))), story);
    WaitStep(db, starts, x, next, r, rest);
    Do(db, starts, q.(pump := Pump.Pass(h, Some(0))), OnPump(Consider(true, true)), db, starts,
       q.(pump := Pump.Pass(map[], None)), story);
    EndStep(db, starts, q, story);
  }

  lemma LocksAndPicks(db: Db, starts: seq<RunId>, p: Proc, g: Groups, story: Story)
    requires Reaches(At(db, starts, p.(pump := LaneWait(g))), story) && db.timers == map[0 := QueueOne] && 0 in g
    ensures Reaches(At(db, starts, p.(pump := Pump.Pass(g, Some(0)))), story)
  {
    hide Reaches;
    Do(db, starts, p.(pump := LaneWait(g)), OnPump(LockLanes), db, starts, p.(pump := Pump.Pass(g, None)), story);
    Do(db, starts, p.(pump := Pump.Pass(g, None)), OnPump(Pick(0)), db, starts, p.(pump := Pump.Pass(g, Some(0))),
       story);
  }

  lemma EndStep(db: Db, starts: seq<RunId>, q: Proc, story: Story)
    requires Reaches(At(db, starts, q.(pump := Pump.Pass(map[], None))), story) && db.timers == map[0 := QueueOne]
    ensures Reaches(At(db, starts, q.(pump := Top)), story)
  {
    hide Reaches;
    Do(db, starts, q.(pump := Pump.Pass(map[], None)), OnPump(EndPass), db, starts, q.(pump := Top), story);
  }

  lemma SendStep(db: Db, starts: seq<RunId>, x: Worker, next: Token, group: seq<RunId>)
    requires group != [] && db.timers == map[0 := QueueOne]
    ensures ThreadStep(View(db, Some(0), starts, Worked(x, [], map[], next, Pump.Pass(map[0 := group], Some(0)))), 0,
                       OnPump(Consider(true, true)))
            == Some(View(db, Some(0), starts,
                         Worked(x, [group[0]], Enqueue(map[], 0, group[0], next), next + 1,
                                Pump.Pass(map[0 := group[1..]], Some(0)))))
  {
    assert map[0 := group][0 := group[1..]] == map[0 := group[1..]];
    assert [] + [group[0]] == [group[0]];
    hide Enqueue, WorkerStep, BootStep, DownStep, GroupsPending, TokensOf;
  }

  lemma WaitStep(db: Db, starts: seq<RunId>, x: Worker, next: Token, r: RunId, rest: seq<RunId>)
    requires (rest != [] ==> rest[0] != r) && db.timers == map[0 := QueueOne]
    ensures var q := Worked(x, [r], Enqueue(map[], 0, r, next), next + 1, Pump.Pass(map[0 := rest], Some(0)));
      ThreadStep(View(db, Some(0), starts, q), 0, OnPump(Consider(true, true)))
      == Some(View(db, Some(0), starts, q.(pump := Pump.Pass(map[], None))))
  {
    hide Enqueue, WorkerStep, BootStep, DownStep, GroupsPending, TokensOf, Activated;
    assert map[0 := rest] - {0} == map[];
    OneLane(r, next);
  }

  lemma OneLane(r: RunId, k: Token)
    ensures Enqueue(map[], 0, r, k) == map[0 := Lane([r], {}, map[r := k])]
    ensures Activated(Enqueue(map[], 0, r, k), 0, r, k + 1) == map[0 := Lane([], {r}, map[r := k])]
  {
    assert [] + [r] == [r] && {} + {r} == {r};
    assert map[][r := k] == map[r := k] == map[r := k][r := k];
    var sent := map[0 := Lane([r], {}, map[r := k])];
    assert map[][0 := Lane([r], {}, map[r := k])] == sent;
    assert Enqueue(map[], 0, r, k) == sent;
    assert Without([r], r) == [];
    assert sent[0 := Lane([], {r}, map[r := k])] == map[0 := Lane([], {r}, map[r := k])];
  }

  /** The worker takes the one hint and wins its claim. */
  lemma WinsClaim(db: Db, starts: seq<RunId>, r: RunId, next: Token, pump: Pump, story: Story)
    requires Reaches(At(db, starts, Worked(Idle, [r], Enqueue(map[], 0, r, next), next + 1, pump)), story)
    requires db.timers == map[0 := QueueOne] && Of(db, 0, r) && db.claims[r].status == Pending && !pump.Pass?
    ensures Reaches(At(Activate(db, r).0, starts, Worked(Won(r, 0), [], Enqueue(map[], 0, r, next), next + 1, pump)),
                    story)
  {
    hide Reaches, Enqueue;
    var lanes := Enqueue(map[], 0, r, next);
    var p := Worked(Idle, [], lanes, next + 1, pump);
    assert [r][1..] == [];
    Work(db, starts, Worked(Idle, [r], lanes, next + 1, pump), Recv, db, starts, p.(workers := [Hinted(r)]), story);
    Work(db, starts, p.(workers := [Hinted(r)]), LoadClaim(true), db, starts, p.(workers := [Checked(r, 0)]), story);
    Work(db, starts, p.(workers := [Checked(r, 0)]), Cas(true), Activate(db, r).0, starts, p.(workers := [Won(r, 0)]),
         story);
  }

  /** The worker takes the one hint and starts its claim. */
  lemma StartsClaim(db: Db, starts: seq<RunId>, r: RunId, next: Token, pump: Pump, story: Story)
    requires Reaches(At(db, starts, Worked(Idle, [r], Enqueue(map[], 0, r, next), next + 1, pump)), story)
    requires db.timers == map[0 := QueueOne] && Of(db, 0, r) && db.claims[r].status == Pending && !pump.Pass?
    ensures Reaches(At(Activate(db, r).0, starts + [r],
                       Worked(Running(r, 0, next), [], map[0 := Lane([], {r}, map[r := next])], next + 2, pump)), story)
  {
    hide Reaches, Activate, Activated, Enqueue;
    WinsClaim(db, starts, r, next, pump, story);
    ActivateKeepsTimers(db, r);
    OneLane(r, next);
    var lanes := Enqueue(map[], 0, r, next);
    var active := map[0 := Lane([], {r}, map[r := next])];
    var db' := Activate(db, r).0;
    var q := Worked(Moved(r, 0, next), [], active, next + 2, pump);
    TokenOfOne(r, next);
    Work(db', starts, Worked(Won(r, 0), [], lanes, next + 1, pump), MoveLane, db', starts, q, story);
    Work(db', starts, q, LoadTimer(true), db', starts + [r], q.(workers := [Running(r, 0, next)]), story);
  }

  lemma ActivateKeepsTimers(db: Db, r: RunId)
    ensures Activate(db, r).0.timers == db.timers
  {
  }

  lemma TokenOfOne(r: RunId, k: Token)
    ensures TokenFor(LaneOf(Enqueue(map[], 0, r, k), 0), r, k + 1) == k
  {
  }

  function InLaneOnly(r: RunId, k: Token): Lanes { map[0 := Lane([], {r}, map[r := k])] }

  lemma LeavesEmpty(r: RunId, k: Token)
    ensures Left(InLaneOnly(r, k), 0, r) == map[]
  {
  }

  /** The older claim's action panics: the claim goes back to pending, and its lane is released while
      the pump waits with a snapshot that does not list it. */
  lemma PanicsAndLeaves(db: Db, starts: seq<RunId>, k: Token, next: Token)
    requires Reaches(At(db, starts, Worked(Running(OLDER, 0, k), [], InLaneOnly(OLDER, k), next,
                                           LaneWait(map[0 := [NEWER]]))), Calm)
    requires db.timers == map[0 := QueueOne] && Of(db, 0, OLDER) && db.claims[OLDER].status == Active
    ensures Reaches(At(Repend(db, OLDER), starts, Worked(Idle, [], map[], next, LaneWait(map[0 := [NEWER]]))), Late)
  {
    hide Reaches;
    LeavesEmpty(OLDER, k);
    var p := Worked(Running(OLDER, 0, k), [], InLaneOnly(OLDER, k), next, LaneWait(map[0 := [NEWER]]));
    var pending := Repend(db, OLDER);
    assert Turns(At(db, starts, p), Thread(0, OnWorker(0, Panic)), Calm, Panicked);
    WorkTurn(db, starts, p, Panic, db, starts, p.(workers := [Repending(OLDER, 0, k)]), Calm, Panicked);
    Work(db, starts, p.(workers := [Repending(OLDER, 0, k)]), RependRun(true), pending, starts,
         p.(workers := [Leaving(OLDER, 0)]), Panicked);
    var q := p.(workers := [Leaving(OLDER, 0)]);
    assert LateRelease(At(pending, starts, q), Thread(0, OnWorker(0, LeaveLane)), 0, 0, OLDER);
    WorkTurn(pending, starts, q, LeaveLane, pending, starts,
             Worked(Idle, [], map[], next, LaneWait(map[0 := [NEWER]])), Panicked, Late);
  }

  lemma DeliversAndLeaves(db: Db, starts: seq<RunId>, r: RunId, k: Token, next: Token, pump: Pump, story: Story)
    requires Reaches(At(db, starts, Worked(Running(r, 0, k), [], InLaneOnly(r, k), next, pump)), story)
    requires !InPass(pump)
    requires db.timers == map[0 := QueueOne] && r in db.claims && db.claims[r].status == Active
    ensures Reaches(At(CommitResult(db, r, WakeDelivered), starts, Worked(Idle, [], map[], next, pump)), story)
  {
    hide Reaches;
    LeavesEmpty(r, k);
    var p := Worked(Running(r, 0, k), [], InLaneOnly(r, k), next, pump);
    var db' := CommitResult(db, r, WakeDelivered);
    Work(db, starts, p, Report(WakeDelivered), db, starts, p.(workers := [Closing(r, 0, k, WakeDelivered)]), story);
    Work(db, starts, p.(workers := [Closing(r, 0, k, WakeDelivered)]), Commit(true), db', starts,
         p.(workers := [Leaving(r, 0)]), story);
    Work(db', starts, p.(workers := [Leaving(r, 0)]), LeaveLane, db', starts, Worked(Idle, [], map[], next, pump),
         story);
  }

  // -- The run ------------------------------------------------------------

  function TwoFired(): Db {
    Rows(map[OLDER := FreshClaim(0, 1), NEWER := FreshClaim(0, 2)], [Event(OLDER, Fired), Event(NEWER, Fired)])
  }

  function OneFired(): Db { Rows(map[OLDER := FreshClaim(0, 1)], [Event(OLDER, Fired)]) }

  lemma FiresOlder()
    ensures Reaches(World(OneFired(), None, map[], []), Calm)
  {
    var s0 := World(Db(map[], map[], []), None, map[], []);
    assert Leads(Run([s0], []), s0, Calm);
    var s1 := World(Rows(map[], []), None, map[], []);
    hide Reaches;
    Follow(s0, SetTimer(0, QueueOne), s1, Calm, Calm);
    assert UnfinishedOf(s1.db, 0) == {} && ClaimsOf(s1.db, 0) == {};
    Follow(s1, FireTx(0, OLDER, 1, []), World(OneFired(), None, map[], []), Calm, Calm);
  }

  lemma FiresTwo()
    ensures Reaches(World(TwoFired(), None, map[], []), Calm)
  {
    FiresOlder();
    hide Reaches;
    var db := OneFired();
    assert ClaimsOf(db, 0) == UnfinishedOf(db, 0) == PendingOf(db, 0) == {OLDER};
    assert db.claims[OLDER].seqno + 1 == 2;
    Follow(World(db, None, map[], []), FireTx(0, NEWER, 2, [OLDER]), World(TwoFired(), None, map[], []), Calm, Calm);
  }

  lemma Boots()
    ensures Reaches(At(TwoFired(), [], Worked(Idle, [], map[], 0, Top)), Calm)
  {
    hide Reaches;
    FiresTwo();
    var db := TwoFired();
    var p := Proc(Primed, true, true, [], map[], [Opening], 0, {}, Top, BootIdle, Serving, false);
    assert Spawned(1, true) == p;
    Follow(World(db, None, map[], []), Spawn(0, 1, true), At(db, [], p), Calm, Calm);
    Do(db, [], p, OnBoot(BootCall), db, [], p.(boot := BootLock), Calm);
    Do(db, [], p.(boot := BootLock), OnBoot(BootTakeLock(true)), db, [], p.(boot := BootRecover), Calm);
    assert RependAll(db) == db;
    var q := p.(recovered := true);
    Do(db, [], p.(boot := BootRecover), OnBoot(BootRepend(true)), db, [], q.(boot := BootPublish), Calm);
    Do(db, [], q.(boot := BootPublish), OnBoot(BootStart), db, [], q.(level := Started), Calm);
    Work(db, [], q.(level := Started), OpenStore(true), db, [], Worked(Idle, [], map[], 0, Top), Calm);
  }

  function WithOlder(a: ClaimStatus): Db {
    var db := TwoFired();
    db.(claims := db.claims[OLDER := FreshClaim(0, 1).(status := a)])
  }

  lemma OlderStarts()
    ensures Reaches(At(WithOlder(Active), [OLDER], Worked(Running(OLDER, 0, 0), [], InLaneOnly(OLDER, 0), 2, Top)),
                    Calm)
  {
    Boots();
    var db := TwoFired();
    hide Reaches;
    SnapshotOfBoth();
    TakesSnapshot(db, [], Idle, [], map[], 0, map[0 := [OLDER, NEWER]], Calm);
    SendsHead(db, [], Idle, 0, [OLDER, NEWER], Calm);
    StartsClaim(db, [], OLDER, 0, Top, Calm);
    assert Activate(db, OLDER).0 == WithOlder(Active) && [] + [OLDER] == [OLDER];
  }

  /** The older claim panics while the pump already holds a snapshot that lists the newer one only. */
  lemma NewerGoesFirst()
    ensures Reaches(At(Activate(WithOlder(Pending), NEWER).0, [OLDER, NEWER],
                       Worked(Running(NEWER, 0, 2), [], InLaneOnly(NEWER, 2), 4, Top)), Late)
  {
    OlderStarts();
    var running := WithOlder(Active);
    hide Reaches;
    SnapshotOfNewer();
    assert Repend(running, OLDER) == WithOlder(Pending);
    hide Repend;
    TakesSnapshot(running, [OLDER], Running(OLDER, 0, 0), [], InLaneOnly(OLDER, 0), 2, map[0 := [NEWER]], Calm);
    PanicsAndLeaves(running, [OLDER], 0, 2);
    SendsHead(WithOlder(Pending), [OLDER], Idle, 2, [NEWER], Late);
    StartsClaim(WithOlder(Pending), [OLDER], NEWER, 2, Top, Late);
    assert [OLDER] + [NEWER] == [OLDER, NEWER];
  }

  lemma SnapshotOfBoth()
    ensures GroupsPending(TwoFired(), map[0 := [OLDER, NEWER]])
  {
    assert PendingOf(TwoFired(), 0) == {OLDER, NEWER};
  }

  lemma SnapshotOfNewer()
    ensures GroupsPending(WithOlder(Active), map[0 := [NEWER]])
  {
    assert PendingOf(WithOlder(Active), 0) == {NEWER};
  }

  function Delivered(): Db { CommitResult(Activate(WithOlder(Pending), NEWER).0, NEWER, WakeDelivered) }

  lemma SnapshotOfOlder()
    ensures GroupsPending(Delivered(), map[0 := [OLDER]])
  {
    assert PendingOf(Delivered(), 0) == {OLDER};
  }

  function StartedAgain(): World {
    At(Activate(Delivered(), OLDER).0, [OLDER, NEWER, OLDER],
       Worked(Running(OLDER, 0, 4), [], InLaneOnly(OLDER, 4), 6, Top))
  }

  lemma OlderStartsAgain()
    ensures Reaches(StartedAgain(), Late)
  {
    hide Reaches;
    var db := Delivered();
    NewerGoesFirst();
    DeliversAndLeaves(Activate(WithOlder(Pending), NEWER).0, [OLDER, NEWER], NEWER, 2, 4, Top, Late);
    SnapshotOfOlder();
    TakesSnapshot(db, [OLDER, NEWER], Idle, [], map[], 4, map[0 := [OLDER]], Late);
    SendsHead(db, [OLDER, NEWER], Idle, 4, [OLDER], Late);
    StartsClaim(db, [OLDER, NEWER], OLDER, 4, Top, Late);
    assert [OLDER, NEWER] + [OLDER] == [OLDER, NEWER, OLDER];
  }

  /** Main result: one panic and one late release after it, both of the older claim, and no failed write
      suffice to break the order: the starts have sequence numbers 1, 2, 1. */
  lemma PanicBreaksSerialOrder()
    ensures exists b: Run, k: nat, j: nat ::
              && IsRun(b) && k < j
              && PanicsOnceAt(b, k) && LateOnceAt(b, j)
              && (forall i, t | 0 <= i < |b.steps| :: Orderly(b.states[i], b.steps[i], t))
              && (forall i | 0 <= i < |b.states| :: SerialTimer(b.states[i].db, 0))
              && var s := b.states[|b.steps|];
                 s.starts == [OLDER, NEWER, OLDER] && Before(s.db, 0, OLDER, NEWER)
  {
    hide Next, PanicsOnceAt, LateOnceAt, NoWriteFails, SerialTimer, StartedAgain, Before, Orderly;
    OlderStartsAgain();
    EndsOutOfOrder();
    var b :| Leads(b, StartedAgain(), Late);
    var k, j :| k < j && PanicsOnceAt(b, k) && LateOnceAt(b, j);
    forall i, t | 0 <= i < |b.steps| ensures Orderly(b.states[i], b.steps[i], t) {
      SuccessIsOrderly(b.states[i], b.steps[i], t);
    }
  }

  lemma EndsOutOfOrder()
    ensures StartedAgain().starts == [OLDER, NEWER, OLDER] && Before(StartedAgain().db, 0, OLDER, NEWER)
  {
  }

  /** A run without failed writes is orderly for every timer. */
  lemma SuccessIsOrderly(s: World, e: Step, t: TimerId)
    requires NoWriteFails(e)
    ensures Orderly(s, e, t)
  {
  }
}
