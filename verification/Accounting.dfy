/** Reservation accounting: in every reachable state the lane book and the threads agree on
    who holds which claim, and cancellation tokens belong to exactly one run. */
module Accounting {
  import opened Options
  import opened Store
  import opened Lanes
  import opened Dispatcher

  type Claims = map<RunId, Claim>

  ghost predicate HeldQueued(ws: seq<Worker>, r: RunId) {
    exists w :: 0 <= w < |ws| && ws[w].HoldsQueued() && ws[w].run == r
  }

  ghost predicate HeldActive(ws: seq<Worker>, t: TimerId, r: RunId) {
    exists w :: 0 <= w < |ws| && ws[w].HoldsActive() && ws[w].run == r && ws[w].timer == t
  }

  /** No run is in two places: two channel slots, two workers, or a slot and a worker. */
  ghost predicate OnePlaceEach(p: Proc) {
    && NoDuplicates(p.channel)
    && (forall w | 0 <= w < |p.workers| && p.workers[w].Busy() :: p.workers[w].run !in p.channel)
    && (forall v, w | 0 <= v < w < |p.workers| && p.workers[v].Busy() && p.workers[w].Busy() ::
          p.workers[v].run != p.workers[w].run)
  }

  ghost predicate HintReserved(claims: Claims, lanes: Lanes, r: RunId) {
    r in claims && Queued(lanes, claims[r].timer, r)
  }

  ghost predicate WorkerReserved(claims: Claims, lanes: Lanes, x: Worker) {
    && (x.Busy() ==> x.run in claims)
    && (x.HoldsQueued() ==> Queued(lanes, claims[x.run].timer, x.run))
    && (x.Checked? || x.Won? ==> x.timer == claims[x.run].timer)
    && (x.HoldsActive() ==> x.timer == claims[x.run].timer && ActiveIn(lanes, x.timer, x.run))
    && (x.HasToken() ==> x.run in lanes[x.timer].tokens && lanes[x.timer].tokens[x.run] == x.token)
  }

  /** Every queued reservation is a hint in the channel or in a worker's hands. */
  ghost predicate QueuedBacked(claims: Claims, p: Proc, t: TimerId, r: RunId) {
    Queued(p.lanes, t, r) ==>
      r in claims && claims[r].timer == t && (r in p.channel || HeldQueued(p.workers, r))
  }

  ghost predicate ActiveBacked(p: Proc, t: TimerId, r: RunId) {
    ActiveIn(p.lanes, t, r) ==> HeldActive(p.workers, t, r)
  }

  ghost predicate LaneShape(l: Lane) {
    && NoDuplicates(l.queued)
    && (forall r :: r in l.tokens <==> r in l.queued || r in l.active)
  }

  ghost predicate TokenHeld(lanes: Lanes, t: TimerId, r: RunId) { t in lanes && r in lanes[t].tokens }

  ghost predicate TokensDistinct(p: Proc) {
    && (forall t, r | TokenHeld(p.lanes, t, r) :: p.lanes[t].tokens[r] < p.nextToken)
    && (forall t, r, t', r' | TokenHeld(p.lanes, t, r) && TokenHeld(p.lanes, t', r') ::
          p.lanes[t].tokens[r] == p.lanes[t'].tokens[r'] ==> t == t' && r == r')
    && (forall k | k in p.cancelled :: k < p.nextToken)
  }

  ghost predicate GroupKnown(claims: Claims, groups: Groups) {
    forall t, r | t in groups && r in groups[t] :: r in claims && claims[r].timer == t
  }

  ghost predicate PumpKnown(claims: Claims, pump: Pump) {
    pump.LaneWait? || pump.Pass? ==> GroupKnown(claims, pump.groups)
  }

  /** The lane book and the threads of one process agree. */
  ghost predicate Accounts(claims: Claims, p: Proc) {
    && OnePlaceEach(p)
    && (forall r | r in p.channel :: HintReserved(claims, p.lanes, r))
    && (forall w | 0 <= w < |p.workers| :: WorkerReserved(claims, p.lanes, p.workers[w]))
    && (forall t, r :: QueuedBacked(claims, p, t, r))
    && (forall t, r :: ActiveBacked(p, t, r))
    && (forall t | t in p.lanes :: LaneShape(p.lanes[t]))
    && TokensDistinct(p)
  }

  ghost predicate ClaimsExtend(claims: Claims, claims': Claims) {
    forall r | r in claims :: r in claims' && claims'[r].timer == claims[r].timer
  }

  lemma AccountsFrame(claims: Claims, claims': Claims, p: Proc, p': Proc)
    requires Accounts(claims, p) && ClaimsExtend(claims, claims')
    requires p'.channel == p.channel && p'.lanes == p.lanes && p'.workers == p.workers && p'.nextToken == p.nextToken
    requires forall k | k in p'.cancelled :: k < p'.nextToken
    ensures Accounts(claims', p')
  {
    forall r | r in p'.channel ensures HintReserved(claims', p'.lanes, r) {
      assert HintReserved(claims, p.lanes, r);
    }
    forall w | 0 <= w < |p'.workers| ensures WorkerReserved(claims', p'.lanes, p'.workers[w]) {
      assert WorkerReserved(claims, p.lanes, p.workers[w]);
    }
    forall t, r ensures QueuedBacked(claims', p', t, r) { assert QueuedBacked(claims, p, t, r); }
    forall t, r ensures ActiveBacked(p', t, r) { assert ActiveBacked(p, t, r); }
  }

  /** Steps that leave channel, lanes, workers and tokens alone. */
  lemma AccountsUntouched(claims: Claims, claims': Claims, p: Proc, p': Proc)
    requires Accounts(claims, p) && ClaimsExtend(claims, claims')
    requires p'.channel == p.channel && p'.lanes == p.lanes && p'.workers == p.workers && p'.nextToken == p.nextToken
    requires p'.cancelled == p.cancelled
    ensures Accounts(claims', p')
  {
    AccountsFrame(claims, claims', p, p');
  }

  /** A worker that keeps its claim stays in its one place. */
  lemma PlaceKept(p: Proc, w: nat, x: Worker, p': Proc)
    requires OnePlaceEach(p) && w < |p.workers|
    requires p'.channel == p.channel && p'.workers == p.workers[w := x]
    requires x.Busy() ==> p.workers[w].Busy() && x.run == p.workers[w].run
    ensures OnePlaceEach(p')
  {
    hide NoDuplicates;
    forall u, v | 0 <= u < v < |p'.workers| && p'.workers[u].Busy() && p'.workers[v].Busy()
      ensures p'.workers[u].run != p'.workers[v].run
    {
      assert p.workers[u].Busy() && p.workers[v].Busy();
    }
  }

  /** A worker moves on without touching its reservation. */
  lemma RelabelAccounts(claims: Claims, p: Proc, w: nat, x: Worker)
    requires Accounts(claims, p) && w < |p.workers|
    requires WorkerReserved(claims, p.lanes, x)
    requires x.HoldsQueued() == p.workers[w].HoldsQueued() && x.HoldsActive() == p.workers[w].HoldsActive()
    requires x.Busy() ==> x.run == p.workers[w].run
    requires x.HoldsActive() ==> x.timer == p.workers[w].timer
    ensures Accounts(claims, SetWorker(p, w, x))
  {
    hide QueuedBacked, ActiveBacked, LaneShape, WorkerReserved, HintReserved, NoDuplicates, OnePlaceEach;
    var p' := SetWorker(p, w, x);
    PlaceKept(p, w, x, p');
    RelabelTokens(p, p');
    forall v | 0 <= v < |p'.workers| ensures WorkerReserved(claims, p'.lanes, p'.workers[v]) {
      assert WorkerReserved(claims, p.lanes, p.workers[v]);
    }
    forall t, r ensures QueuedBacked(claims, p', t, r) && ActiveBacked(p', t, r) {
      assert QueuedBacked(claims, p, t, r) && ActiveBacked(p, t, r);
      RelabelBacked(claims, p, w, x, t, r);
    }
  }

  lemma RelabelTokens(p: Proc, p': Proc)
    requires TokensDistinct(p)
    requires p'.lanes == p.lanes && p'.nextToken == p.nextToken && p'.cancelled == p.cancelled
    ensures TokensDistinct(p')
  {
  }

  lemma RelabelBacked(claims: Claims, p: Proc, w: nat, x: Worker, t: TimerId, r: RunId)
    requires w < |p.workers| && QueuedBacked(claims, p, t, r) && ActiveBacked(p, t, r)
    requires x.HoldsQueued() == p.workers[w].HoldsQueued() && x.HoldsActive() == p.workers[w].HoldsActive()
    requires x.Busy() ==> x.run == p.workers[w].run
    requires x.HoldsActive() ==> x.timer == p.workers[w].timer
    ensures QueuedBacked(claims, SetWorker(p, w, x), t, r) && ActiveBacked(SetWorker(p, w, x), t, r)
  {
    var p' := SetWorker(p, w, x);
    if HeldQueued(p.workers, r) {
      var v :| 0 <= v < |p.workers| && p.workers[v].HoldsQueued() && p.workers[v].run == r;
      assert p'.workers[v].HoldsQueued() && p'.workers[v].run == r;
    }
    if HeldActive(p.workers, t, r) {
      var v :| 0 <= v < |p.workers| && p.workers[v].HoldsActive() && p.workers[v].run == r && p.workers[v].timer == t;
      assert p'.workers[v].HoldsActive() && p'.workers[v].run == r;
    }
  }

  lemma RecvBacked(claims: Claims, p: Proc, w: nat, p': Proc, t: TimerId, r: RunId)
    requires w < |p.workers| && p.workers[w].Idle? && p.channel != []
    requires p' == SetWorker(p.(channel := p.channel[1..]), w, Hinted(p.channel[0]))
    requires QueuedBacked(claims, p, t, r) && ActiveBacked(p, t, r)
    ensures QueuedBacked(claims, p', t, r) && ActiveBacked(p', t, r)
  {
    assert p.channel == [p.channel[0]] + p.channel[1..];
    if HeldQueued(p.workers, r) {
      var v :| 0 <= v < |p.workers| && p.workers[v].HoldsQueued() && p.workers[v].run == r;
      assert p'.workers[v].HoldsQueued() && p'.workers[v].run == r;
    }
    if r == p.channel[0] { assert p'.workers[w].HoldsQueued() && p'.workers[w].run == r; }
    if HeldActive(p.workers, t, r) {
      var v :| 0 <= v < |p.workers| && p.workers[v].HoldsActive() && p.workers[v].run == r && p.workers[v].timer == t;
      assert p'.workers[v].HoldsActive() && p'.workers[v].run == r;
    }
  }

  lemma RecvAccounts(claims: Claims, p: Proc, w: nat)
    requires Accounts(claims, p) && w < |p.workers| && p.workers[w].Idle? && p.channel != []
    ensures Accounts(claims, SetWorker(p.(channel := p.channel[1..]), w, Hinted(p.channel[0])))
  {
    hide QueuedBacked, ActiveBacked, LaneShape, NoDuplicates;
    var r0 := p.channel[0];
    var p' := SetWorker(p.(channel := p.channel[1..]), w, Hinted(r0));
    assert p.channel == [r0] + p.channel[1..];
    NoDuplicatesCons(r0, p.channel[1..]);
    assert HintReserved(claims, p.lanes, r0);
    forall t, r ensures QueuedBacked(claims, p', t, r) && ActiveBacked(p', t, r) {
      assert QueuedBacked(claims, p, t, r) && ActiveBacked(p, t, r);
      RecvBacked(claims, p, w, p', t, r);
    }
    forall r | r in p'.channel ensures HintReserved(claims, p'.lanes, r) { assert r in p.channel; }
    forall v | 0 <= v < |p'.workers| ensures WorkerReserved(claims, p'.lanes, p'.workers[v]) {
      assert WorkerReserved(claims, p.lanes, p.workers[v]);
    }
  }

  /** The release of a stale hint always finds the lane of the claim's own timer. */
  lemma ReleaseFindsOwnLane(claims: Claims, p: Proc, w: nat, lane: Option<TimerId>)
    requires Accounts(claims, p) && w < |p.workers| && p.workers[w].Dropping?
    requires MayRelease(p.lanes, p.workers[w].run, lane)
    ensures p.workers[w].run in claims && lane == Some(claims[p.workers[w].run].timer)
  {
    var r := p.workers[w].run;
    assert WorkerReserved(claims, p.lanes, p.workers[w]);
    if lane.Some? { assert QueuedBacked(claims, p, lane.value, r); }
    assert Queued(p.lanes, claims[r].timer, r);
  }

  /** `lanes'` is `lanes` without the reservation of run `r` in lane `t`. */
  ghost predicate GivenBack(lanes: Lanes, lanes': Lanes, t: TimerId, r: RunId) {
    && (forall x, y :: Queued(lanes', x, y) <==> Queued(lanes, x, y) && !(x == t && y == r))
    && (forall x, y :: ActiveIn(lanes', x, y) <==> ActiveIn(lanes, x, y) && !(x == t && y == r))
    && (forall x, y :: TokenHeld(lanes', x, y) <==> TokenHeld(lanes, x, y) && !(x == t && y == r))
    && (forall x, y | TokenHeld(lanes', x, y) :: lanes'[x].tokens[y] == lanes[x].tokens[y])
    && (forall x | x in lanes' :: LaneShape(lanes'[x]))
  }

  /** Only lane `t` changes, from `l` to `l'`; a lane that is gone counts as empty. */
  lemma GiveBackLane(lanes: Lanes, lanes': Lanes, t: TimerId, r: RunId, l': Lane)
    requires forall x | x in lanes :: LaneShape(lanes[x])
    requires forall x | x != t :: (x in lanes' <==> x in lanes) && (x in lanes ==> lanes'[x] == lanes[x])
    requires t in lanes && LaneShape(l') && LaneOf(lanes', t).queued == l'.queued
        && LaneOf(lanes', t).active == l'.active
    requires LaneOf(lanes', t).tokens == l'.tokens
    requires forall y :: y in l'.queued <==> y in lanes[t].queued && y != r
    requires l'.active == lanes[t].active - {r} && l'.tokens == lanes[t].tokens - {r}
    ensures GivenBack(lanes, lanes', t, r)
  {
    assert forall y :: y in LaneOf(lanes', t).active <==> y in lanes[t].active && y != r;
    assert forall y :: y in LaneOf(lanes', t).tokens <==> y in lanes[t].tokens && y != r;
    forall x, y ensures ActiveIn(lanes', x, y) <==> ActiveIn(lanes, x, y) && !(x == t && y == r) {
      if x == t { assert ActiveIn(lanes', t, y) <==> y in LaneOf(lanes', t).active; }
    }
    forall x, y ensures TokenHeld(lanes', x, y) <==> TokenHeld(lanes, x, y) && !(x == t && y == r) {
      if x == t { assert TokenHeld(lanes', t, y) <==> y in LaneOf(lanes', t).tokens; }
    }
  }

  /** What giving a reservation back leaves in the lanes. */
  lemma GiveBack(lanes: Lanes, lanes': Lanes, t: TimerId, r: RunId)
    requires lanes' == Left(lanes, t, r) || (t in lanes && lanes' == Dropped(lanes, t, r) && r !in lanes[t].active)
    requires forall x | x in lanes :: LaneShape(lanes[x])
    ensures GivenBack(lanes, lanes', t, r)
  {
    if t in lanes {
      assert LaneShape(lanes[t]);
      var rest := Lane(Without(lanes[t].queued, r), lanes[t].active - {r}, lanes[t].tokens - {r});
      assert LaneShape(rest);
      if t !in lanes' {
        assert rest.queued == [] && rest.active == {};
        assert forall y :: y !in rest.tokens;
        assert rest.tokens == map[];
      } else {
        assert lanes[t].active - {r} == lanes'[t].active;
      }
      GiveBackLane(lanes, lanes', t, r, rest);
    }
  }

  lemma GiveBackTokens(p: Proc, lanes': Lanes, p': Proc)
    requires TokensDistinct(p) && p'.lanes == lanes' && p'.nextToken == p.nextToken && p'.cancelled == p.cancelled
    requires forall x, y | TokenHeld(lanes', x, y) ::
        TokenHeld(p.lanes, x, y) && lanes'[x].tokens[y] == p.lanes[x].tokens[y]
    ensures TokensDistinct(p')
  {
  }

  /** The workers that keep the lanes backed when `w` gives up run `r` of timer `t`. */
  lemma GiveBackBacked(claims: Claims, p: Proc, w: nat, lanes': Lanes, t: TimerId, r: RunId)
    requires Accounts(claims, p) && w < |p.workers| && p.workers[w].Busy() && p.workers[w].run == r
    requires forall x, y :: Queued(lanes', x, y) <==> Queued(p.lanes, x, y) && !(x == t && y == r)
    requires forall x, y :: ActiveIn(lanes', x, y) <==> ActiveIn(p.lanes, x, y) && !(x == t && y == r)
    requires r in claims && claims[r].timer == t
    ensures forall a, y :: QueuedBacked(claims, SetWorker(p.(lanes := lanes'), w, Idle), a, y)
    ensures forall a, y :: ActiveBacked(SetWorker(p.(lanes := lanes'), w, Idle), a, y)
  {
    var p' := SetWorker(p.(lanes := lanes'), w, Idle);
    forall a, y ensures QueuedBacked(claims, p', a, y) {
      assert QueuedBacked(claims, p, a, y);
      if Queued(p'.lanes, a, y) && HeldQueued(p.workers, y) {
        var v :| 0 <= v < |p.workers| && p.workers[v].HoldsQueued() && p.workers[v].run == y;
        assert p'.workers[v].HoldsQueued() && p'.workers[v].run == y;
      }
    }
    forall a, y ensures ActiveBacked(p', a, y) {
      assert ActiveBacked(p, a, y);
      if ActiveIn(p'.lanes, a, y) {
        var v :| 0 <= v < |p.workers| && p.workers[v].HoldsActive() && p.workers[v].run == y && p.workers[v].timer == a;
        assert WorkerReserved(claims, p.lanes, p.workers[v]);
        assert p'.workers[v].HoldsActive() && p'.workers[v].run == y;
      }
    }
  }

  lemma DroppingNotActive(claims: Claims, p: Proc, w: nat, t: TimerId)
    requires Accounts(claims, p) && w < |p.workers| && p.workers[w].Dropping?
    ensures !ActiveIn(p.lanes, t, p.workers[w].run)
  {
    assert ActiveBacked(p, t, p.workers[w].run);
  }

  lemma GiveBackWorkers(claims: Claims, p: Proc, w: nat, lanes': Lanes, t: TimerId, r: RunId)
    requires Accounts(claims, p) && w < |p.workers| && p.workers[w].Busy() && p.workers[w].run == r
    requires forall x, y | y != r :: Queued(p.lanes, x, y) ==> Queued(lanes', x, y)
    requires forall x, y | y != r :: ActiveIn(p.lanes, x, y) ==> ActiveIn(lanes', x, y)
    requires forall x, y | y != r && TokenHeld(p.lanes, x, y) ::
               TokenHeld(lanes', x, y) && lanes'[x].tokens[y] == p.lanes[x].tokens[y]
    ensures forall v | 0 <= v < |p.workers| && v != w :: WorkerReserved(claims, lanes', p.workers[v])
  {
    forall v | 0 <= v < |p.workers| && v != w ensures WorkerReserved(claims, lanes', p.workers[v]) {
      assert WorkerReserved(claims, p.lanes, p.workers[v]);
      assert v < w || w < v;
      if p.workers[v].HasToken() { assert TokenHeld(p.lanes, p.workers[v].timer, p.workers[v].run); }
    }
  }

  lemma GivenBackAccounts(claims: Claims, p: Proc, w: nat, lanes': Lanes, t: TimerId, r: RunId)
    requires Accounts(claims, p) && w < |p.workers| && p.workers[w].Busy() && p.workers[w].run == r
    requires r in claims && claims[r].timer == t && GivenBack(p.lanes, lanes', t, r)
    ensures Accounts(claims, SetWorker(p.(lanes := lanes'), w, Idle))
  {
    hide TokensDistinct, QueuedBacked, ActiveBacked, LaneShape, WorkerReserved, HintReserved;
    GiveBackTokens(p, lanes', SetWorker(p.(lanes := lanes'), w, Idle));
    GiveBackBacked(claims, p, w, lanes', t, r);
    GiveBackWorkers(claims, p, w, lanes', t, r);
    GiveBackHints(claims, p, w, lanes', t, r);
    IdleReserved(claims, lanes');
  }

  lemma IdleReserved(claims: Claims, lanes: Lanes)
    ensures WorkerReserved(claims, lanes, Idle)
  {
  }

  lemma GiveBackHints(claims: Claims, p: Proc, w: nat, lanes': Lanes, t: TimerId, r: RunId)
    requires Accounts(claims, p) && w < |p.workers| && p.workers[w].Busy() && p.workers[w].run == r
    requires forall x, y | y != r :: Queued(p.lanes, x, y) ==> Queued(lanes', x, y)
    ensures forall y | y in p.channel :: HintReserved(claims, lanes', y)
  {
    forall y | y in p.channel ensures HintReserved(claims, lanes', y) { assert HintReserved(claims, p.lanes, y); }
  }

  /** Releasing a reservation, by a stale hint or by a finished worker. */
  lemma GiveBackAccounts(claims: Claims, p: Proc, w: nat, lanes': Lanes)
    requires Accounts(claims, p) && w < |p.workers|
    requires p.workers[w].Dropping? || p.workers[w].Leaving?
    requires var r := p.workers[w].run;
      if p.workers[w].Leaving? then lanes' == Left(p.lanes, p.workers[w].timer, r)
      else r in claims && claims[r].timer in p.lanes && lanes' == Dropped(p.lanes, claims[r].timer, r)
    ensures Accounts(claims, SetWorker(p.(lanes := lanes'), w, Idle))
  {
    var r := p.workers[w].run;
    assert WorkerReserved(claims, p.lanes, p.workers[w]);
    var t := claims[r].timer;
    if p.workers[w].Dropping? { DroppingNotActive(claims, p, w, t); }
    GiveBack(p.lanes, lanes', t, r);
    GivenBackAccounts(claims, p, w, lanes', t, r);
  }

  /** `lanes'` is `lanes` plus a reservation of run `r` in lane `t`, under its old or a new token. */
  ghost predicate ReservedToo(lanes: Lanes, lanes': Lanes, t: TimerId, r: RunId, next: Token) {
    && (forall x | x in lanes' :: LaneShape(lanes'[x]))
    && (forall x, y | !(x == t && y == r) :: Queued(lanes', x, y) <==> Queued(lanes, x, y))
    && (forall x, y | !(x == t && y == r) :: ActiveIn(lanes', x, y) <==> ActiveIn(lanes, x, y))
    && (forall x, y :: TokenHeld(lanes', x, y) <==> TokenHeld(lanes, x, y) || (x == t && y == r))
    && (forall x, y | TokenHeld(lanes, x, y) :: TokenHeld(lanes', x, y) && lanes'[x].tokens[y] == lanes[x].tokens[y])
    && TokenHeld(lanes', t, r)
    && lanes'[t].tokens[r] == TokenFor(LaneOf(lanes, t), r, next)
  }

  lemma ReserveShape(lanes: Lanes, t: TimerId, r: RunId, next: Token, lanes': Lanes)
    requires forall x | x in lanes :: LaneShape(lanes[x])
    requires lanes' == Activated(lanes, t, r, next) || (lanes' == Enqueue(lanes, t, r, next) && !Reserved(lanes, t, r))
    ensures ReservedToo(lanes, lanes', t, r, next)
  {
    hide LaneShape, NoDuplicates, TokenFor, ReservedToo;
    var l := LaneOf(lanes, t);
    EmptyLaneShape();
    LaneReserves(l, r, next);
    ReserveLane(lanes, t, r, next, lanes'[t]);
  }

  /** Lane `t` becomes `l'`, which differs from the old lane in run `r` only. */
  lemma ReserveLane(lanes: Lanes, t: TimerId, r: RunId, next: Token, l': Lane)
    requires (forall x | x in lanes :: LaneShape(lanes[x])) && LaneShape(l')
    requires var l := LaneOf(lanes, t);
      && (forall y | y != r :: y in l'.queued <==> y in l.queued)
      && (forall y | y != r :: y in l'.active <==> y in l.active)
      && l'.tokens == l.tokens[r := TokenFor(l, r, next)]
    ensures ReservedToo(lanes, lanes[t := l'], t, r, next)
  {
    hide LaneShape, NoDuplicates, Queued, ActiveIn, TokenHeld;
    var lanes' := lanes[t := l'];
    forall x, y | !(x == t && y == r)
      ensures (Queued(lanes', x, y) <==> Queued(lanes, x, y)) && (ActiveIn(lanes', x, y) <==> ActiveIn(lanes, x, y))
    {
      HeldIn(lanes, x, y);
      HeldIn(lanes', x, y);
    }
    forall x, y ensures TokenHeld(lanes', x, y) <==> TokenHeld(lanes, x, y) || (x == t && y == r) {
      HeldIn(lanes, x, y);
      HeldIn(lanes', x, y);
    }
    ReserveKeepsTokens(lanes, t, r, next, l');
  }

  lemma ReserveKeepsTokens(lanes: Lanes, t: TimerId, r: RunId, next: Token, l': Lane)
    requires l'.tokens == LaneOf(lanes, t).tokens[r := TokenFor(LaneOf(lanes, t), r, next)]
    ensures forall x, y | TokenHeld(lanes, x, y) ::
              TokenHeld(lanes[t := l'], x, y) && lanes[t := l'][x].tokens[y] == lanes[x].tokens[y]
  {
  }

  /** Absent lanes hold what the empty lane holds. */
  lemma HeldIn(lanes: Lanes, x: TimerId, y: RunId)
    ensures Queued(lanes, x, y) <==> y in LaneOf(lanes, x).queued
    ensures ActiveIn(lanes, x, y) <==> y in LaneOf(lanes, x).active
    ensures TokenHeld(lanes, x, y) <==> y in LaneOf(lanes, x).tokens
  {
  }

  lemma EmptyLaneShape()
    ensures LaneShape(EMPTY_LANE)
  {
  }

  lemma LaneReserves(l: Lane, r: RunId, next: Token)
    requires LaneShape(l)
    ensures LaneShape(Lane(Without(l.queued, r), l.active + {r}, l.tokens[r := TokenFor(l, r, next)]))
    ensures r !in l.queued ==> LaneShape(Lane(l.queued + [r], l.active, l.tokens[r := TokenFor(l, r, next)]))
  {
    hide TokenFor;
  }

  lemma ReserveTokens(p: Proc, t: TimerId, r: RunId, lanes': Lanes)
    requires TokensDistinct(p)
    requires ReservedToo(p.lanes, lanes', t, r, p.nextToken)
    ensures TokensDistinct(p.(lanes := lanes', nextToken := p.nextToken + 1))
  {
    assert TokenHeld(p.lanes, t, r) <==> r in LaneOf(p.lanes, t).tokens;
  }

  lemma MoveBacked(claims: Claims, p: Proc, w: nat, x': Worker, lanes': Lanes)
    requires Accounts(claims, p) && w < |p.workers| && p.workers[w].Won?
    requires x'.Moved? && x'.run == p.workers[w].run && x'.timer == p.workers[w].timer
    requires forall x, y | !(x == x'.timer && y == x'.run) :: Queued(lanes', x, y) <==> Queued(p.lanes, x, y)
    requires forall x, y | !(x == x'.timer && y == x'.run) :: ActiveIn(lanes', x, y) <==> ActiveIn(p.lanes, x, y)
    requires !Queued(lanes', x'.timer, x'.run)
    ensures var p' := SetWorker(p.(lanes := lanes', nextToken := p.nextToken + 1), w, x');
      forall a, y :: QueuedBacked(claims, p', a, y) && ActiveBacked(p', a, y)
  {
    var p' := SetWorker(p.(lanes := lanes', nextToken := p.nextToken + 1), w, x');
    assert WorkerReserved(claims, p.lanes, p.workers[w]);
    forall a, y ensures QueuedBacked(claims, p', a, y) {
      assert QueuedBacked(claims, p, a, y);
      if Queued(p'.lanes, a, y) && HeldQueued(p.workers, y) {
        var v :| 0 <= v < |p.workers| && p.workers[v].HoldsQueued() && p.workers[v].run == y;
        assert p'.workers[v].HoldsQueued() && p'.workers[v].run == y;
      }
    }
    forall a, y ensures ActiveBacked(p', a, y) {
      assert ActiveBacked(p, a, y);
      if a == x'.timer && y == x'.run { assert p'.workers[w].HoldsActive() && p'.workers[w].run == y; }
      else if ActiveIn(p'.lanes, a, y) {
        var v :| 0 <= v < |p.workers| && p.workers[v].HoldsActive() && p.workers[v].run == y && p.workers[v].timer == a;
        assert p'.workers[v].HoldsActive() && p'.workers[v].run == y;
      }
    }
  }

  lemma ReservedTooAccounts(claims: Claims, p: Proc, w: nat, x': Worker, lanes': Lanes)
    requires Accounts(claims, p) && w < |p.workers| && p.workers[w].Won?
    requires ReservedToo(p.lanes, lanes', p.workers[w].timer, p.workers[w].run, p.nextToken)
    requires x' == Moved(p.workers[w].run, p.workers[w].timer,
                         TokenFor(LaneOf(p.lanes, p.workers[w].timer), p.workers[w].run, p.nextToken))
    requires !Queued(lanes', x'.timer, x'.run) && ActiveIn(lanes', x'.timer, x'.run)
    ensures Accounts(claims, SetWorker(p.(lanes := lanes', nextToken := p.nextToken + 1), w, x'))
  {
    hide TokensDistinct, QueuedBacked, ActiveBacked, LaneShape, NoDuplicates, WorkerReserved, HintReserved, TokenFor,
      OnePlaceEach, TokenHeld;
    var p0 := p.(lanes := lanes', nextToken := p.nextToken + 1);
    PlaceKept(p, w, x', SetWorker(p0, w, x'));
    ReserveTokens(p, x'.timer, x'.run, lanes');
    RelabelTokens(p0, SetWorker(p0, w, x'));
    MoveBacked(claims, p, w, x', lanes');
    MoveHints(claims, p, w, lanes');
    MoveWorkers(claims, p, w, lanes');
    MovedReserved(claims, p, w, x', lanes');
    ghost var p' := SetWorker(p0, w, x');
    forall v | 0 <= v < |p'.workers| ensures WorkerReserved(claims, p'.lanes, p'.workers[v]) {
      assert v != w ==> p'.workers[v] == p.workers[v];
    }
    assert forall a, y :: QueuedBacked(claims, p', a, y) && ActiveBacked(p', a, y);
  }

  lemma MovedReserved(claims: Claims, p: Proc, w: nat, x': Worker, lanes': Lanes)
    requires w < |p.workers| && p.workers[w].Won? && WorkerReserved(claims, p.lanes, p.workers[w])
    requires ReservedToo(p.lanes, lanes', p.workers[w].timer, p.workers[w].run, p.nextToken)
    requires x' == Moved(p.workers[w].run, p.workers[w].timer,
                         TokenFor(LaneOf(p.lanes, p.workers[w].timer), p.workers[w].run, p.nextToken))
    requires ActiveIn(lanes', x'.timer, x'.run)
    ensures WorkerReserved(claims, lanes', x')
  {
    hide LaneShape, TokenFor;
  }

  lemma MoveHints(claims: Claims, p: Proc, w: nat, lanes': Lanes)
    requires Accounts(claims, p) && w < |p.workers| && p.workers[w].Won?
    requires ReservedToo(p.lanes, lanes', p.workers[w].timer, p.workers[w].run, p.nextToken)
    ensures forall y | y in p.channel :: HintReserved(claims, lanes', y)
  {
    hide TokensDistinct, QueuedBacked, ActiveBacked, LaneShape, NoDuplicates, WorkerReserved, TokenFor;
    forall y | y in p.channel ensures HintReserved(claims, lanes', y) {
      assert HintReserved(claims, p.lanes, y);
    }
  }

  lemma MoveWorkers(claims: Claims, p: Proc, w: nat, lanes': Lanes)
    requires Accounts(claims, p) && w < |p.workers| && p.workers[w].Won?
    requires ReservedToo(p.lanes, lanes', p.workers[w].timer, p.workers[w].run, p.nextToken)
    ensures forall v | 0 <= v < |p.workers| && v != w :: WorkerReserved(claims, lanes', p.workers[v])
  {
    hide TokensDistinct, QueuedBacked, ActiveBacked, LaneShape, NoDuplicates, TokenFor;
    forall v | 0 <= v < |p.workers| && v != w ensures WorkerReserved(claims, lanes', p.workers[v]) {
      assert WorkerReserved(claims, p.lanes, p.workers[v]);
      assert v < w || w < v;
      if p.workers[v].HasToken() { assert TokenHeld(p.lanes, p.workers[v].timer, p.workers[v].run); }
    }
  }

  lemma MoveAccounts(claims: Claims, p: Proc, w: nat)
    requires Accounts(claims, p) && w < |p.workers| && p.workers[w].Won?
    ensures var x := p.workers[w];
      Accounts(claims,
               SetWorker(p.(lanes := Activated(p.lanes, x.timer, x.run, p.nextToken), nextToken := p.nextToken + 1),
                                 w, Moved(x.run, x.timer, TokenFor(LaneOf(p.lanes, x.timer), x.run, p.nextToken))))
  {
    var r, t := p.workers[w].run, p.workers[w].timer;
    assert WorkerReserved(claims, p.lanes, p.workers[w]);
    var lanes' := Activated(p.lanes, t, r, p.nextToken);
    ReserveShape(p.lanes, t, r, p.nextToken, lanes');
    ReservedTooAccounts(claims, p, w, Moved(r, t, TokenFor(LaneOf(p.lanes, t), r, p.nextToken)), lanes');
  }

  /** A sent hint is reserved nowhere else: it was not reserved in its own timer's lane. */
  lemma SendAccounts(claims: Claims, p: Proc, t: TimerId, r: RunId)
    requires Accounts(claims, p)
    requires r in claims && claims[r].timer == t && !Reserved(p.lanes, t, r)
    ensures Accounts(claims, p.(channel := p.channel + [r], lanes := Enqueue(p.lanes, t, r, p.nextToken),
                                nextToken := p.nextToken + 1))
  {
    hide TokensDistinct, QueuedBacked, ActiveBacked, LaneShape, NoDuplicates, WorkerReserved, HintReserved, TokenFor,
      OnePlaceEach, TokenHeld;
    var lanes' := Enqueue(p.lanes, t, r, p.nextToken);
    var p' := p.(channel := p.channel + [r], lanes := lanes', nextToken := p.nextToken + 1);
    ReserveShape(p.lanes, t, r, p.nextToken, lanes');
    ReserveTokens(p, t, r, lanes');
    RelabelTokens(p.(lanes := lanes', nextToken := p.nextToken + 1), p');
    FreshHint(claims, p, t, r);
    PlaceForHint(p, r, p');
    SendWorkers(claims, p, t, r, lanes');
    forall y | y in p'.channel ensures HintReserved(claims, lanes', y) {
      assert y == r || (y in p.channel && HintReserved(claims, p.lanes, y));
      HintStays(claims, p.lanes, t, r, p.nextToken, y);
    }
    forall a, y ensures QueuedBacked(claims, p', a, y) && ActiveBacked(p', a, y) {
      assert QueuedBacked(claims, p, a, y) && ActiveBacked(p, a, y);
      SendBacked(claims, p, t, r, p', a, y);
    }
  }

  /** A run that its own timer's lane does not hold is neither in the channel nor with a worker. */
  lemma FreshHint(claims: Claims, p: Proc, t: TimerId, r: RunId)
    requires Accounts(claims, p) && r in claims && claims[r].timer == t && !Reserved(p.lanes, t, r)
    ensures r !in p.channel && forall w | 0 <= w < |p.workers| && p.workers[w].Busy() :: p.workers[w].run != r
  {
    hide TokensDistinct, QueuedBacked, ActiveBacked, LaneShape, NoDuplicates, TokenHeld;
    assert r in p.channel ==> HintReserved(claims, p.lanes, r);
    forall w | 0 <= w < |p.workers| && p.workers[w].Busy() ensures p.workers[w].run != r {
      assert WorkerReserved(claims, p.lanes, p.workers[w]);
    }
  }

  lemma PlaceForHint(p: Proc, r: RunId, p': Proc)
    requires OnePlaceEach(p) && r !in p.channel && p'.channel == p.channel + [r] && p'.workers == p.workers
    requires forall w | 0 <= w < |p.workers| && p.workers[w].Busy() :: p.workers[w].run != r
    ensures OnePlaceEach(p')
  {
  }

  lemma HintStays(claims: Claims, lanes: Lanes, t: TimerId, r: RunId, next: Token, y: RunId)
    requires r in claims && claims[r].timer == t && (y == r || HintReserved(claims, lanes, y))
    ensures HintReserved(claims, Enqueue(lanes, t, r, next), y)
  {
    hide TokenFor;
  }

  lemma SendBacked(claims: Claims, p: Proc, t: TimerId, r: RunId, p': Proc, a: TimerId, y: RunId)
    requires QueuedBacked(claims, p, a, y) && ActiveBacked(p, a, y) && r in claims && claims[r].timer == t
    requires p'.channel == p.channel + [r] && p'.lanes == Enqueue(p.lanes, t, r, p.nextToken) && p'.workers == p.workers
    ensures QueuedBacked(claims, p', a, y) && ActiveBacked(p', a, y)
  {
    hide TokenFor, HeldQueued, HeldActive;
  }

  lemma SendWorkers(claims: Claims, p: Proc, t: TimerId, r: RunId, lanes': Lanes)
    requires Accounts(claims, p) && ReservedToo(p.lanes, lanes', t, r, p.nextToken)
    requires forall w | 0 <= w < |p.workers| && p.workers[w].Busy() :: p.workers[w].run != r
    ensures forall v | 0 <= v < |p.workers| :: WorkerReserved(claims, lanes', p.workers[v])
  {
    hide TokensDistinct, QueuedBacked, ActiveBacked, LaneShape, NoDuplicates, TokenFor, OnePlaceEach;
    forall v | 0 <= v < |p.workers| ensures WorkerReserved(claims, lanes', p.workers[v]) {
      assert WorkerReserved(claims, p.lanes, p.workers[v]);
      if p.workers[v].HasToken() { assert TokenHeld(p.lanes, p.workers[v].timer, p.workers[v].run); }
    }
  }

  // -- Every step keeps the accounts --------------------------------------

  lemma WorkerExtends(v: View, w: nat, a: WorkerAct)
    requires w < |v.p.workers| && WorkerStep(v, w, a).Some?
    ensures Extends(v.db, WorkerStep(v, w, a).value.db)
  {
  }

  lemma PumpExtends(v: View, pid: ProcId, a: PumpAct)
    requires PumpStep(v, pid, a).Some?
    ensures Extends(v.db, PumpStep(v, pid, a).value.db)
  {
  }

  lemma ThreadExtends(v: View, pid: ProcId, act: Act)
    requires ThreadStep(v, pid, act).Some?
    ensures Extends(v.db, ThreadStep(v, pid, act).value.db)
  {
    match act
    case OnWorker(w, wa) => WorkerExtends(v, w, wa);
    case OnPump(pa) => PumpExtends(v, pid, pa);
    case OnBoot(ba) =>
    case OnDown(da) =>
  }

  /** A worker leaves the other threads' variables alone, and gets claims from the channel only. */
  lemma WorkerStays(v: View, w: nat, a: WorkerAct)
    requires w < |v.p.workers| && WorkerStep(v, w, a).Some?
    ensures var v', p, p' := WorkerStep(v, w, a).value, v.p, WorkerStep(v, w, a).value.p;
      && v'.lock == v.lock && p'.recovered == p.recovered && p'.ownsLock == p.ownsLock
      && p'.level == p.level && p'.pump == p.pump && p'.boot == p.boot && p'.shutdown == p.shutdown
      && |p'.workers| == |p.workers| && p'.workers == p.workers[w := p'.workers[w]]
      && (p'.channel != [] ==> p.channel != [])
      && (p'.workers[w].Busy() ==> p.workers[w].Busy() || p.channel != [])
      && (v'.db != v.db ==> p.workers[w].Busy())
  {
    hide WorkerStep;
    WorkerFrame(v, w, a);
    WorkerMovesAlone(v, w, a);
    WorkerNeedsHint(v, w, a);
  }

  lemma WorkerFrame(v: View, w: nat, a: WorkerAct)
    requires w < |v.p.workers| && WorkerStep(v, w, a).Some?
    ensures var v', p, p' := WorkerStep(v, w, a).value, v.p, WorkerStep(v, w, a).value.p;
      && v'.lock == v.lock && p'.recovered == p.recovered && p'.ownsLock == p.ownsLock
      && p'.level == p.level && p'.pump == p.pump && p'.boot == p.boot && p'.shutdown == p.shutdown
  {
    hide Activate, CommitResult, Repend, Activated, Left, Dropped, MayRelease, MayReport, TokenFor, LaneOf;
  }

  lemma WorkerMovesAlone(v: View, w: nat, a: WorkerAct)
    requires w < |v.p.workers| && WorkerStep(v, w, a).Some?
    ensures var p, p' := v.p, WorkerStep(v, w, a).value.p;
      |p'.workers| == |p.workers| && p'.workers == p.workers[w := p'.workers[w]]
  {
    hide Activate, CommitResult, Repend, Activated, Left, Dropped, MayRelease, MayReport, TokenFor, LaneOf;
  }

  lemma WorkerNeedsHint(v: View, w: nat, a: WorkerAct)
    requires w < |v.p.workers| && WorkerStep(v, w, a).Some? && |WorkerStep(v, w, a).value.p.workers| == |v.p.workers|
    ensures var v', p, p' := WorkerStep(v, w, a).value, v.p, WorkerStep(v, w, a).value.p;
      && (p'.channel != [] ==> p.channel != [])
      && (p'.workers[w].Busy() ==> p.workers[w].Busy() || p.channel != [])
      && (v'.db != v.db ==> p.workers[w].Busy())
  {
    hide Activate, CommitResult, Repend, Activated, Left, Dropped, MayRelease, MayReport, TokenFor, LaneOf;
  }

  /** The store operation of a worker step. */
  lemma WorkerDb(v: View, w: nat, a: WorkerAct)
    requires w < |v.p.workers| && WorkerStep(v, w, a).Some?
    ensures var db', x := WorkerStep(v, w, a).value.db, v.p.workers[w];
      || db' == v.db
      || (x.Checked? && db' == Activate(v.db, x.run).0)
      || (x.Repending? && a.RependRun? && db' == Repend(v.db, x.run))
      || (x.Closing? && db' == CommitResult(v.db, x.run, x.outcome))
  {
    hide Activate, CommitResult, Repend, Activated, Left, Dropped, MayRelease, MayReport, TokenFor, LaneOf;
  }

  /** The lane operation of a worker step. */
  lemma WorkerLanes(v: View, w: nat, a: WorkerAct)
    requires w < |v.p.workers| && WorkerStep(v, w, a).Some?
    ensures var p, p', x := v.p, WorkerStep(v, w, a).value.p, v.p.workers[w];
      && p'.cancelled == p.cancelled
      && (|| p'.lanes == p.lanes
          || (x.Dropping? && a.ReleaseHint? && a.lane.Some? && a.lane.value in p.lanes
              && MayRelease(p.lanes, x.run, a.lane)
              && p'.lanes == Dropped(p.lanes, a.lane.value, x.run))
          || (x.Won? && p'.lanes == Activated(p.lanes, x.timer, x.run, p.nextToken))
          || (x.Leaving? && p'.lanes == Left(p.lanes, x.timer, x.run)))
  {
    hide Activate, CommitResult, Repend, Activated, Left, Dropped, MayRelease, MayReport, TokenFor, LaneOf;
    var x := v.p.workers[w];
    if x.Dropping? && a.ReleaseHint? { ReleasedLaneExists(v.p.lanes, x.run, a.lane); }
  }

  lemma ReleasedLaneExists(lanes: Lanes, r: RunId, lane: Option<TimerId>)
    ensures lane.Some? && MayRelease(lanes, r, lane) ==> lane.value in lanes
  {
  }

  /** The head of the group of `t` was closed because timer `t` is gone. */
  ghost predicate ClosesOrphan(db: Db, groups: Groups, t: TimerId, db': Db) {
    && t in groups && groups[t] != [] && t !in db.timers
    && db' == Finish(db, groups[t][0], WakeFailed(TimerDeleted), ByPump).0
  }

  /** The store operation of a pump step. */
  lemma PumpDb(v: View, pid: ProcId, a: PumpAct)
    requires PumpStep(v, pid, a).Some?
    ensures var db' := PumpStep(v, pid, a).value.db;
      || db' == v.db
      || (a == Recover(true) && db' == RependAll(v.db))
      || (a.Consider? && ClosesOrphan(v.db, v.p.pump.groups, v.p.pump.current.value, db'))
  {
    hide RependAll, Finish, Enqueue, LaneOf, InLane, Reserved, GroupsPending, TokensOf, CancelRequestedActive;
  }

  /** The store operation of a boot or shutdown step. */
  lemma CallerDb(v: View, pid: ProcId, act: Act)
    requires (act.OnBoot? || act.OnDown?) && ThreadStep(v, pid, act).Some?
    ensures var db' := ThreadStep(v, pid, act).value.db;
      db' == v.db || (act == OnBoot(BootRepend(true)) && db' == RependAll(v.db))
  {
    hide RependAll, WorkerStep, PumpStep;
  }

  lemma ThreadAddsNoRow(v: View, pid: ProcId, act: Act)
    requires ThreadStep(v, pid, act).Some?
    ensures ThreadStep(v, pid, act).value.db.claims.Keys == v.db.claims.Keys
  {
    hide WorkerStep, PumpStep, BootStep, DownStep, RependAll;
    RependAllShape(v.db);
    match act
    case OnWorker(w, wa) => WorkerDb(v, w, wa);
    case OnPump(pa) => PumpDb(v, pid, pa);
    case _ => CallerDb(v, pid, act);
  }

  lemma AccountsOf(claims: Claims, p: Proc, w: nat)
    requires Accounts(claims, p) && w < |p.workers|
    ensures WorkerReserved(claims, p.lanes, p.workers[w]) && TokensDistinct(p)
    ensures forall t | t in p.lanes :: LaneShape(p.lanes[t])
  {
  }

  lemma NextExtends(s: World, e: Step, s': World)
    requires Next(s, e, s')
    ensures Extends(s.db, s'.db)
  {
    match e
    case FireTx(t, r, n, rows) => FireExtends(s.db, t, r, n, rows);
    case Thread(pid, act) => ThreadExtends(ViewOf(s, pid), pid, act);
    case _ =>
  }

  /** A worker that only relabels itself, with or without a store transition. */
  lemma RelabelStep(v: View, w: nat, x: Worker, db': Db, starts': seq<RunId>)
    requires Accounts(v.db.claims, v.p) && w < |v.p.workers| && Extends(v.db, db')
    requires WorkerReserved(v.db.claims, v.p.lanes, x)
    requires x.HoldsQueued() == v.p.workers[w].HoldsQueued() && x.HoldsActive() == v.p.workers[w].HoldsActive()
    requires x.Busy() ==> x.run == v.p.workers[w].run
    requires x.HoldsActive() ==> x.timer == v.p.workers[w].timer
    ensures Accounts(db'.claims, SetWorker(v.p, w, x))
  {
    RelabelAccounts(v.db.claims, v.p, w, x);
    AccountsFrame(v.db.claims, db'.claims, SetWorker(v.p, w, x), SetWorker(v.p, w, x));
  }

  lemma WorkerPumpSame(v: View, w: nat, a: WorkerAct)
    requires w < |v.p.workers| && WorkerStep(v, w, a).Some?
    ensures var v' := WorkerStep(v, w, a).value;
      v'.p.pump == v.p.pump && ClaimsExtend(v.db.claims, v'.db.claims)
      && (PumpKnown(v.db.claims, v.p.pump) ==> PumpKnown(v'.db.claims, v'.p.pump))
  {
    hide Activate, CommitResult, Repend, Activated, Left, Dropped, MayRelease, MayReport, TokenFor, LaneOf;
    WorkerExtends(v, w, a);
  }

  predicate TouchesLane(a: WorkerAct) { a.Recv? || a.ReleaseHint? || a.MoveLane? || a.LeaveLane? }

  lemma WorkerRelabels(v: View, w: nat, a: WorkerAct)
    requires w < |v.p.workers| && WorkerStep(v, w, a).Some? && !TouchesLane(a)
    requires WorkerReserved(v.db.claims, v.p.lanes, v.p.workers[w])
    ensures var v', x := WorkerStep(v, w, a).value, v.p.workers[w];
      |v'.p.workers| == |v.p.workers|
      && var x' := v'.p.workers[w];
      && v'.p == SetWorker(v.p, w, x')
      && WorkerReserved(v.db.claims, v.p.lanes, x')
      && x'.HoldsQueued() == x.HoldsQueued() && x'.HoldsActive() == x.HoldsActive()
      && (x'.Busy() ==> x'.run == x.run) && (x'.HoldsActive() ==> x'.timer == x.timer)
  {
    hide WorkerStep, WorkerReserved;
    WorkerOnlyRelabels(v, w, a);
    WorkerStaysReserved(v, w, a);
  }

  lemma WorkerOnlyRelabels(v: View, w: nat, a: WorkerAct)
    requires w < |v.p.workers| && WorkerStep(v, w, a).Some? && !TouchesLane(a)
    ensures var p' := WorkerStep(v, w, a).value.p;
        |p'.workers| == |v.p.workers| && p' == SetWorker(v.p, w, p'.workers[w])
  {
    hide Activate, CommitResult, Repend, Activated, Left, Dropped, MayRelease, MayReport, TokenFor, LaneOf;
  }

  lemma WorkerStaysReserved(v: View, w: nat, a: WorkerAct)
    requires w < |v.p.workers| && WorkerStep(v, w, a).Some? && !TouchesLane(a)
    requires WorkerReserved(v.db.claims, v.p.lanes, v.p.workers[w])
    requires |WorkerStep(v, w, a).value.p.workers| == |v.p.workers|
    ensures var x, x' := v.p.workers[w], WorkerStep(v, w, a).value.p.workers[w];
      && WorkerReserved(v.db.claims, v.p.lanes, x')
      && x'.HoldsQueued() == x.HoldsQueued() && x'.HoldsActive() == x.HoldsActive()
      && (x'.Busy() ==> x'.run == x.run) && (x'.HoldsActive() ==> x'.timer == x.timer)
  {
    hide Activate, CommitResult, Repend, Activated, Left, Dropped, MayRelease, MayReport, TokenFor, LaneOf, Queued,
      ActiveIn;
    match a
    case OpenStore(ok) =>
    case LoadClaim(ok) =>
    case Cas(ok) =>
    case LoadTimer(ok) =>
    case Report(outcome) =>
    case Panic =>
    case Commit(ok) =>
    case RependRun(ok) =>
  }

  lemma WorkerAccounts(v: View, w: nat, a: WorkerAct)
    requires w < |v.p.workers| && WorkerStep(v, w, a).Some?
    requires Accounts(v.db.claims, v.p)
    ensures var v' := WorkerStep(v, w, a).value; Accounts(v'.db.claims, v'.p)
  {
    var p, x := v.p, v.p.workers[w];
    assert WorkerReserved(v.db.claims, p.lanes, x);
    hide Accounts;
    var v' := WorkerStep(v, w, a).value;
    if !TouchesLane(a) {
      WorkerExtends(v, w, a);
      WorkerRelabels(v, w, a);
      hide WorkerStep;
      RelabelStep(v, w, v'.p.workers[w], v'.db, v'.starts);
    } else {
      WorkerLaneAccounts(v, w, a);
    }
  }

  lemma WorkerLaneAccounts(v: View, w: nat, a: WorkerAct)
    requires w < |v.p.workers| && WorkerStep(v, w, a).Some? && TouchesLane(a)
    requires Accounts(v.db.claims, v.p)
    ensures var v' := WorkerStep(v, w, a).value; Accounts(v'.db.claims, v'.p)
  {
    hide Accounts;
    var p, v' := v.p, WorkerStep(v, w, a).value;
    match a
    case Recv =>
      if p.channel != [] { RecvAccounts(v.db.claims, p, w); }
      else { RelabelIdle(v.db.claims, p, w, Exited); }
    case ReleaseHint(lane) =>
      ReleaseFindsOwnLane(v.db.claims, p, w, lane);
      GiveBackAccounts(v.db.claims, p, w, v'.p.lanes);
    case MoveLane => MoveAccounts(v.db.claims, p, w);
    case LeaveLane => GiveBackAccounts(v.db.claims, p, w, v'.p.lanes);
  }

  lemma RelabelIdle(claims: Claims, p: Proc, w: nat, x: Worker)
    requires Accounts(claims, p) && w < |p.workers| && !p.workers[w].Busy() && !x.Busy()
    ensures Accounts(claims, SetWorker(p, w, x))
  {
    RelabelAccounts(claims, p, w, x);
  }

  /** The same reservations under a differently shaped map of lanes. */
  lemma SameReservationsAccounts(claims: Claims, p: Proc, lanes': Lanes)
    requires Accounts(claims, p)
    requires forall x, y :: Queued(lanes', x, y) <==> Queued(p.lanes, x, y)
    requires forall x, y :: ActiveIn(lanes', x, y) <==> ActiveIn(p.lanes, x, y)
    requires forall x, y :: TokenHeld(lanes', x, y) <==> TokenHeld(p.lanes, x, y)
    requires forall x, y | TokenHeld(lanes', x, y) :: lanes'[x].tokens[y] == p.lanes[x].tokens[y]
    requires forall x | x in lanes' :: LaneShape(lanes'[x])
    ensures Accounts(claims, p.(lanes := lanes'))
  {
    var p' := p.(lanes := lanes');
    GiveBackTokens(p, lanes', p.(lanes := lanes'));
    forall r | r in p'.channel ensures HintReserved(claims, lanes', r) { assert HintReserved(claims, p.lanes, r); }
    forall w | 0 <= w < |p'.workers| ensures WorkerReserved(claims, lanes', p'.workers[w]) {
      assert WorkerReserved(claims, p.lanes, p.workers[w]);
      if p.workers[w].HasToken() { assert TokenHeld(p.lanes, p.workers[w].timer, p.workers[w].run); }
    }
    forall x, r ensures QueuedBacked(claims, p', x, r) { assert QueuedBacked(claims, p, x, r); }
    forall x, r ensures ActiveBacked(p', x, r) { assert ActiveBacked(p, x, r); }
  }

  /** `lanes.entry(t).or_default()` on its own reserves nothing. */
  lemma EmptyLaneAccounts(claims: Claims, p: Proc, t: TimerId)
    requires Accounts(claims, p)
    ensures Accounts(claims, p.(lanes := p.lanes[t := LaneOf(p.lanes, t)]))
  {
    var lanes' := p.lanes[t := LaneOf(p.lanes, t)];
    assert LaneShape(LaneOf(p.lanes, t));
    assert forall x :: LaneOf(lanes', x) == LaneOf(p.lanes, x);
    forall x, y ensures Queued(lanes', x, y) <==> Queued(p.lanes, x, y) { }
    SameReservationsAccounts(claims, p, lanes');
  }

  lemma SendStepAccounts(claims: Claims, claims': Claims, p: Proc, p': Proc, t: TimerId, r: RunId)
    requires Accounts(claims, p) && ClaimsExtend(claims, claims')
    requires r in claims && claims[r].timer == t && !Reserved(p.lanes, t, r)
    requires p'.channel == p.channel + [r] && p'.lanes == Enqueue(p.lanes, t, r, p.nextToken)
    requires p'.nextToken == p.nextToken + 1 && p'.workers == p.workers && p'.cancelled == p.cancelled
    ensures Accounts(claims', p')
  {
    hide Accounts, ClaimsExtend, Enqueue;
    SendAccounts(claims, p, t, r);
    AccountsUntouched(claims, claims', p.(channel := p'.channel, lanes := p'.lanes, nextToken := p'.nextToken), p');
  }

  /** What one claim of the lane pass can do to channel and lanes: send, touch the lane, or neither. */
  lemma ConsiderShape(v: View, groups: Groups, t: TimerId, loadOk: bool, finishOk: bool)
    requires t in groups && v.p.pump.Pass? && v.p.pump.groups == groups
    ensures var p, p' := v.p, ConsiderClaim(v, groups, t, loadOk, finishOk).p;
      && p'.workers == p.workers && p'.cancelled == p.cancelled
      && (|| (p'.channel == p.channel && p'.lanes == p.lanes && p'.nextToken == p.nextToken)
          || (p'.channel == p.channel && p'.lanes == p.lanes[t := LaneOf(p.lanes, t)] && p'.nextToken == p.nextToken)
          || (groups[t] != [] && !Reserved(p.lanes, t, groups[t][0])
              && p'.channel == p.channel + [groups[t][0]] && p'.nextToken == p.nextToken + 1
              && p'.lanes == Enqueue(p.lanes, t, groups[t][0], p.nextToken)))
  {
  }

  lemma ConsiderKnown(v: View, groups: Groups, t: TimerId, loadOk: bool, finishOk: bool)
    requires t in groups && v.p.pump.Pass? && v.p.pump.groups == groups && GroupKnown(v.db.claims, groups)
    ensures var v' := ConsiderClaim(v, groups, t, loadOk, finishOk);
      ClaimsExtend(v.db.claims, v'.db.claims) && PumpKnown(v'.db.claims, v'.p.pump)
  {
    var v' := ConsiderClaim(v, groups, t, loadOk, finishOk);
    assert GroupKnown(v.db.claims, groups - {t});
    if groups[t] != [] { assert GroupKnown(v.db.claims, groups[t := groups[t][1..]]); }
    assert ClaimsExtend(v.db.claims, v'.db.claims);
  }

  lemma ConsiderAccounts(v: View, groups: Groups, t: TimerId, loadOk: bool, finishOk: bool)
    requires t in groups && v.p.pump.Pass? && v.p.pump.groups == groups
    requires Accounts(v.db.claims, v.p) && GroupKnown(v.db.claims, groups)
    ensures var v' := ConsiderClaim(v, groups, t, loadOk, finishOk);
      Accounts(v'.db.claims, v'.p) && PumpKnown(v'.db.claims, v'.p.pump)
  {
    ConsiderShape(v, groups, t, loadOk, finishOk);
    ConsiderKnown(v, groups, t, loadOk, finishOk);
    hide Accounts, ConsiderClaim;
    var p, v' := v.p, ConsiderClaim(v, groups, t, loadOk, finishOk);
    if v'.p.channel != p.channel {
      assert groups[t][0] in groups[t];
      SendStepAccounts(v.db.claims, v'.db.claims, p, v'.p, t, groups[t][0]);
    } else if v'.p.lanes == p.lanes {
      AccountsUntouched(v.db.claims, v'.db.claims, p, v'.p);
    } else {
      EmptyLaneAccounts(v.db.claims, p, t);
      AccountsUntouched(v.db.claims, v'.db.claims, p.(lanes := v'.p.lanes), v'.p);
    }
  }

  lemma SignalAccounts(claims: Claims, p: Proc, p': Proc, ids: set<RunId>)
    requires Accounts(claims, p)
    requires p' == p.(pump := p'.pump, cancelled := p.cancelled + TokensOf(p.lanes, ids))
    ensures Accounts(claims, p')
  {
    forall k | k in p'.cancelled ensures k < p'.nextToken {
      if k !in p.cancelled {
        var t, r :| t in p.lanes && r in ids && r in p.lanes[t].tokens && p.lanes[t].tokens[r] == k;
        assert TokenHeld(p.lanes, t, r);
      }
    }
    AccountsFrame(claims, claims, p, p');
  }

  lemma SnapshotKnown(db: Db, groups: Groups)
    requires GroupsPending(db, groups)
    ensures GroupKnown(db.claims, groups)
  {
    forall t, r | t in groups && r in groups[t] ensures r in db.claims && db.claims[r].timer == t {
      assert ListsPending(db, t, groups[t]);
      assert r in PendingOf(db, t);
    }
  }

  lemma ExtendsClaims(db: Db, db': Db)
    requires Extends(db, db')
    ensures ClaimsExtend(db.claims, db'.claims)
  {
  }

  lemma PumpAccounts(v: View, pid: ProcId, a: PumpAct)
    requires PumpStep(v, pid, a).Some?
    requires Accounts(v.db.claims, v.p) && PumpKnown(v.db.claims, v.p.pump)
    ensures var v' := PumpStep(v, pid, a).value; Accounts(v'.db.claims, v'.p) && PumpKnown(v'.db.claims, v'.p.pump)
  {
    hide Accounts, Extends, ConsiderClaim, TokensOf, GroupsPending, RependAll, CancelRequestedActive;
    var v' := PumpStep(v, pid, a).value;
    PumpExtends(v, pid, a);
    ExtendsClaims(v.db, v'.db);
    match a
    case Consider(loadOk, finishOk) => ConsiderAccounts(v, v.p.pump.groups, v.p.pump.current.value, loadOk, finishOk);
    case SignalTokens => SignalAccounts(v.db.claims, v.p, v'.p, v.p.pump.ids);
    case TakeSnapshot(ok, groups) =>
      if ok { SnapshotKnown(v.db, groups); }
      AccountsUntouched(v.db.claims, v'.db.claims, v.p, v'.p);
    case _ => AccountsUntouched(v.db.claims, v'.db.claims, v.p, v'.p);
  }

  lemma RependAllExtends(db: Db)
    ensures ClaimsExtend(db.claims, RependAll(db).claims) && ClaimsExtend(db.claims, db.claims)
  {
    RependAllShape(db);
  }

  lemma PumpStaysKnown(claims: Claims, claims': Claims, pump: Pump)
    requires PumpKnown(claims, pump) && ClaimsExtend(claims, claims')
    ensures PumpKnown(claims', pump)
  {
  }

  lemma BootAccounts(v: View, pid: ProcId, a: BootAct)
    requires BootStep(v, pid, a).Some?
    requires Accounts(v.db.claims, v.p) && PumpKnown(v.db.claims, v.p.pump)
    ensures var v' := BootStep(v, pid, a).value; Accounts(v'.db.claims, v'.p) && PumpKnown(v'.db.claims, v'.p.pump)
  {
    hide Accounts, RependAll, ClaimsExtend, PumpKnown;
    RependAllExtends(v.db);
    var v' := BootStep(v, pid, a).value;
    AccountsUntouched(v.db.claims, v'.db.claims, v.p, v'.p);
    PumpStaysKnown(v.db.claims, v'.db.claims, v.p.pump);
  }

  lemma DownAccounts(v: View, pid: ProcId, a: DownAct)
    requires DownStep(v, pid, a).Some?
    requires Accounts(v.db.claims, v.p) && PumpKnown(v.db.claims, v.p.pump)
    ensures var v' := DownStep(v, pid, a).value; Accounts(v'.db.claims, v'.p) && PumpKnown(v'.db.claims, v'.p.pump)
  {
    hide Accounts;
    var v' := DownStep(v, pid, a).value;
    AccountsUntouched(v.db.claims, v'.db.claims, v.p, v'.p);
  }

  lemma ThreadAccounts(v: View, pid: ProcId, act: Act)
    requires ThreadStep(v, pid, act).Some?
    requires Accounts(v.db.claims, v.p) && PumpKnown(v.db.claims, v.p.pump)
    ensures var v' := ThreadStep(v, pid, act).value;
      Accounts(v'.db.claims, v'.p) && PumpKnown(v'.db.claims, v'.p.pump)
  {
    hide Accounts, PumpKnown, WorkerStep, PumpStep, BootStep, DownStep;
    match act
    case OnWorker(w, wa) => WorkerPumpSame(v, w, wa); WorkerAccounts(v, w, wa);
    case OnPump(pa) => PumpAccounts(v, pid, pa);
    case OnBoot(ba) => BootAccounts(v, pid, ba);
    case OnDown(da) => DownAccounts(v, pid, da);
  }

  /** Every process of the system keeps its accounts. */
  ghost predicate Accounted(s: World) {
    forall pid | pid in s.procs :: Accounts(s.db.claims, s.procs[pid]) && PumpKnown(s.db.claims, s.procs[pid].pump)
  }

  lemma SpawnedAccounts(claims: Claims, workers: nat, took: bool)
    ensures Accounts(claims, Spawned(workers, took)) && PumpKnown(claims, Spawned(workers, took).pump)
  {
  }

  /** A process that takes no part in the step. */
  lemma BystanderAccounts(claims: Claims, claims': Claims, p: Proc)
    requires Accounts(claims, p) && PumpKnown(claims, p.pump) && ClaimsExtend(claims, claims')
    ensures Accounts(claims', p) && PumpKnown(claims', p.pump)
  {
    AccountsUntouched(claims, claims', p, p);
    hide Accounts;
  }

  lemma NextAccounted(s: World, e: Step, s': World)
    requires Accounted(s) && Next(s, e, s')
    ensures Accounted(s')
  {
    NextExtends(s, e, s');
    assert ClaimsExtend(s.db.claims, s'.db.claims);
    hide Accounts, PumpKnown, ThreadStep, Fire, Spawned, ClaimsExtend, Extends, NextSeqno, ListsPending;
    forall q | q in s'.procs ensures Accounts(s'.db.claims, s'.procs[q]) && PumpKnown(s'.db.claims, s'.procs[q].pump) {
      if e.Thread? && q == e.pid {
        ThreadAccounts(ViewOf(s, q), q, e.act);
      } else if q in s.procs {
        BystanderAccounts(s.db.claims, s'.db.claims, s.procs[q]);
      } else {
        SpawnedAccounts(s'.db.claims, e.workers, e.took);
      }
    }
  }

  /** Main result: reservation accounting holds in every state of every run. */
  lemma {:induction false} AlwaysAccounted(b: Run, i: nat)
    requires IsRun(b) && i < |b.states|
    ensures Accounted(b.states[i])
    decreases i
  {
    if i > 0 {
      AlwaysAccounted(b, i - 1);
      NextAccounted(b.states[i - 1], b.steps[i - 1], b.states[i]);
    }
  }
}
