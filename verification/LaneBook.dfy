/** The lane book as the dispatcher keeps it: one object whose map of lanes every operation
    updates in place, and the bounded hint channel the lane pass fills. Each operation is proved
    against the lane functions that the step system uses. */
module LaneBooks {
  import opened Options
  import opened Store
  import opened Lanes
  import opened Dispatcher

  /** What `get_timer` answered for one claim of the pass. */
  datatype Lookup = LoadError | Gone | Found(policy: OverlapPolicy)

  datatype SendResult = Sent | Full | Closed

  datatype PassEnd = Complete | ChannelFull | ChannelClosed

  /** The bounded channel as a log: `hints[received..]` are still inside. */
  class HintChannel {
    const capacity: nat
    var hints: seq<RunId>
    var received: nat
    var open: bool

    ghost predicate Valid() reads this { received <= |hints| && |hints| - received <= capacity }

    function Buffered(): seq<RunId>
      requires Valid()
      reads this
    {
      hints[received..]
    }

    constructor (capacity: nat)
      ensures Valid() && Buffered() == [] && open && this.capacity == capacity
    {
      this.capacity := capacity;
      hints, received, open := [], 0, true;
    }

    /** Workers take up to `n` hints from the front. */
    method Receive(n: nat)
      requires Valid()
      modifies this`received
      ensures Valid() && old(received) <= received <= old(received) + n
      ensures received == if |hints| < old(received) + n then |hints| else old(received) + n
    {
      received := if |hints| < received + n then |hints| else received + n;
    }

    method TrySend(r: RunId) returns (result: SendResult)
      requires Valid()
      modifies this`hints
      ensures Valid()
      ensures result == if !open then Closed else if |old(Buffered())| == capacity then Full else Sent
      ensures hints == if result == Sent then old(hints) + [r] else old(hints)
    {
      if !open {
        result := Closed;
      } else if |hints| - received == capacity {
        result := Full;
      } else {
        hints := hints + [r];
        result := Sent;
      }
    }
  }

  /** A claim the store's answer lets through. */
  predicate Eligible(answer: Lookup) { answer.Found? && Limit(answer.policy) > 0 }

  // -- What a pass leaves behind ------------------------------------------

  /** The pass left timer `t` for good: it could not be read, its lane is full, or each of its
      claims is reserved, an orphan, or barred by a zero limit. */
  ghost predicate Served(lanes: Lanes, t: TimerId, claims: seq<RunId>, lookup: (TimerId, RunId) -> Lookup,
                         closed: seq<RunId>)
  {
    || (exists r :: r in claims && lookup(t, r).LoadError?)
    || (exists r :: r in claims && Eligible(lookup(t, r)) && InLane(LaneOf(lanes, t)) >= Limit(lookup(t, r).policy))
    || (forall r | r in claims :: Handled(lanes, t, r, lookup, closed))
  }

  ghost predicate Handled(lanes: Lanes, t: TimerId, r: RunId, lookup: (TimerId, RunId) -> Lookup, closed: seq<RunId>) {
    || Reserved(lanes, t, r)
    || (lookup(t, r).Gone? && r in closed)
    || (lookup(t, r).Found? && Limit(lookup(t, r).policy) == 0)
  }

  ghost predicate LimitsAtMost(t: TimerId, claims: seq<RunId>, lookup: (TimerId, RunId) -> Lookup, k: nat) {
    forall r | r in claims && lookup(t, r).Found? :: Limit(lookup(t, r).policy) <= k
  }

  /** A hint the pass may send: its claim was listed under the timer and not reserved. */
  ghost predicate MaySend(lanes: Lanes, groups: Groups, lookup: (TimerId, RunId) -> Lookup, t: TimerId, r: RunId) {
    t in groups && r in groups[t] && !Reserved(lanes, t, r) && Eligible(lookup(t, r))
  }

  ghost predicate HandledUpTo(lanes: Lanes, t: TimerId, claims: seq<RunId>, n: nat, lookup: (TimerId, RunId) -> Lookup,
                              closed: seq<RunId>)
    requires n <= |claims|
  {
    forall j | 0 <= j < n :: Handled(lanes, t, claims[j], lookup, closed)
  }

  ghost predicate AllServed(lanes: Lanes, groups: Groups, todo: set<TimerId>, lookup: (TimerId, RunId) -> Lookup,
                            closed: seq<RunId>)
  {
    forall t | t in groups && t !in todo :: Served(lanes, t, groups[t], lookup, closed)
  }

  // -- Closing orphans ----------------------------------------------------

  /** The claim rows as the lane pass writes them. */
  class ClaimRows {
    var db: Db

    constructor (db: Db)
      ensures this.db == db
    {
      this.db := db;
    }

    /** The eventless close; a row that is gone or already closed stays as it is. */
    method FinishRun(r: RunId, outcome: Outcome, ok: bool)
      modifies this
      ensures db == if ok then Finish(old(db), r, outcome, ByPump).0 else old(db)
    {
      if ok && r in db.claims && Unfinished(db.claims[r]) {
        var row := db.claims[r];
        row := row.(status := Finished, outcome := Some(outcome));
        db := db.(claims := db.claims[r := row.(closer := ByPump)]);
      }
    }
  }

  /** The rows after the pass closed these orphans in turn. */
  function ClosedAll(db: Db, orphans: seq<RunId>, finishes: RunId -> bool): Db {
    if orphans == [] then db
    else
      var n := |orphans| - 1;
      var before := ClosedAll(db, orphans[..n], finishes);
      if finishes(orphans[n]) then Finish(before, orphans[n], WakeFailed(TimerDeleted), ByPump).0 else before
  }

  lemma ClosedOneMore(db: Db, orphans: seq<RunId>, r: RunId, finishes: RunId -> bool)
    ensures ClosedAll(db, orphans + [r], finishes) ==
            if finishes(r) then Finish(ClosedAll(db, orphans, finishes), r, WakeFailed(TimerDeleted), ByPump).0
            else ClosedAll(db, orphans, finishes)
  {
    assert (orphans + [r])[..|orphans|] == orphans;
  }

  lemma {:induction false} ClosedInTurn(db: Db, first: seq<RunId>, more: seq<RunId>, finishes: RunId -> bool)
    ensures ClosedAll(ClosedAll(db, first, finishes), more, finishes) == ClosedAll(db, first + more, finishes)
    decreases |more|
  {
    if more == [] {
      assert first + more == first;
    } else {
      var n := |more| - 1;
      ClosedInTurn(db, first, more[..n], finishes);
      assert first + more == (first + more[..n]) + [more[n]];
      ClosedOneMore(db, first + more[..n], more[n], finishes);
    }
  }

  lemma NothingClosed(db: Db, finishes: RunId -> bool)
    ensures ClosedAll(db, [], finishes) == db
  {
  }

  /** Exactly the open orphans whose write succeeds are closed, as failures and without an event. */
  lemma {:induction false} ClosedExactly(db: Db, orphans: seq<RunId>, finishes: RunId -> bool)
    ensures var db' := ClosedAll(db, orphans, finishes);
      && db' == db.(claims := db'.claims) && db'.claims.Keys == db.claims.Keys
      && forall r | r in db.claims :: db'.claims[r] ==
           if r in orphans && finishes(r) && Unfinished(db.claims[r])
           then db.claims[r].(status := Finished, outcome := Some(WakeFailed(TimerDeleted)), closer := ByPump)
           else db.claims[r]
    decreases |orphans|
  {
    if orphans != [] {
      var n := |orphans| - 1;
      ClosedExactly(db, orphans[..n], finishes);
      assert orphans == orphans[..n] + [orphans[n]];
    }
  }

  // -- One claim ----------------------------------------------------------

  /** What the pass does with one claim. */
  datatype Verdict = Skipped | LeftTimer | Orphaned | SentHint | FoundFull | FoundClosed

  function Judge(lanes: Lanes, t: TimerId, r: RunId, answer: Lookup, open: bool, full: bool): Verdict {
    if Reserved(lanes, t, r) then Skipped
    else match answer
      case LoadError => LeftTimer
      case Gone => Orphaned
      case Found(policy) =>
        if Limit(policy) == 0 then Skipped
        else if InLane(LaneOf(lanes, t)) >= Limit(policy) then LeftTimer
        else if !open then FoundClosed
        else if full then FoundFull
        else SentHint
  }

  function LanesAfter(v: Verdict, lanes: Lanes, t: TimerId, r: RunId, next: Token): Lanes {
    match v
    case SentHint => Enqueue(lanes, t, r, next)
    case FoundFull => lanes[t := LaneOf(lanes, t)]
    case FoundClosed => lanes[t := LaneOf(lanes, t)]
    case _ => lanes
  }

  /** The store's answer at view `v`. */
  function Answer(v: View, t: TimerId, loadOk: bool): Lookup {
    if !loadOk then LoadError else if t in v.db.timers then Found(v.db.timers[t]) else Gone
  }

  /** The judgement is the step system's: one `Consider` step of the pump does to rows, lanes, channel
      and pump exactly what the verdict says, and nothing else. */
  lemma JudgeIsTheStep(v: View, groups: Groups, t: TimerId, loadOk: bool, finishOk: bool)
    requires t in groups && groups[t] != []
    ensures var r := groups[t][0];
      var verdict := Judge(v.p.lanes, t, r, Answer(v, t, loadOk), v.p.sender, |v.p.channel| >= Capacity(v.p));
      var pump := match verdict {
        case LeftTimer => Pump.Pass(groups - {t}, None)
        case FoundFull => Top
        case FoundClosed => Top
        case _ => Pump.Pass(groups[t := groups[t][1..]], Some(t))
      };
      ConsiderClaim(v, groups, t, loadOk, finishOk) == v.(
        db := if verdict.Orphaned? then ClosedAll(v.db, [r], _ => finishOk) else v.db,
        p := v.p.(lanes := LanesAfter(verdict, v.p.lanes, t, r, v.p.nextToken),
                  channel := if verdict.SentHint? then v.p.channel + [r] else v.p.channel,
                  nextToken := if verdict.SentHint? then v.p.nextToken + 1 else v.p.nextToken,
                  pump := pump))
  {
    var r := groups[t][0];
    NothingClosed(v.db, _ => finishOk);
    ClosedOneMore(v.db, [], r, _ => finishOk);
    assert [] + [r] == [r];
  }

  /** What one timer's part of the pass does to the lanes. */
  ghost predicate TimerPassed(was: Lanes, lanes: Lanes, t: TimerId, claims: seq<RunId>,
                              lookup: (TimerId, RunId) -> Lookup,
                              sent: seq<RunId>, orphans: seq<RunId>)
  {
    && (forall r | r in sent :: r in claims && !Reserved(was, t, r) && Eligible(lookup(t, r)))
    && (forall x: TimerId, r: RunId :: Reserved(lanes, x, r) <==> Reserved(was, x, r) || (x == t && r in sent))
    && (forall x | x != t :: LaneOf(lanes, x) == LaneOf(was, x))
    && (forall r | r in orphans :: r in claims && !Reserved(was, t, r) && lookup(t, r).Gone?)
    && (forall k: nat | LimitsAtMost(t, claims, lookup, k) && InLane(LaneOf(was, t)) <= k ::
        InLane(LaneOf(lanes, t)) <= k)
  }

  /** What a pass over the timers outside `todo` does: hints go out for unreserved pending claims
      only and each becomes reserved under its timer; only claims whose timer is gone are closed;
      no lane grows past the limits read. */
  ghost predicate Passed(was: Lanes, lanes: Lanes, groups: Groups, todo: set<TimerId>,
                         lookup: (TimerId, RunId) -> Lookup,
                         sent: seq<RunId>, orphans: seq<RunId>)
  {
    && (forall r | r in sent :: exists t :: t !in todo && MaySend(was, groups, lookup, t, r) && Reserved(lanes, t, r))
    && (forall t: TimerId, r: RunId :: Reserved(was, t, r) ==> Reserved(lanes, t, r))
    && (forall t: TimerId, r: RunId :: Reserved(lanes, t, r) ==>
          Reserved(was, t, r) || (r in sent && MaySend(was, groups, lookup, t, r)))
    && (forall r | r in orphans ::
          exists t :: t in groups && r in groups[t] && !Reserved(was, t, r) && lookup(t, r).Gone?)
    && (forall t | t in todo :: LaneOf(lanes, t) == LaneOf(was, t))
    && (forall t, k: nat | t in groups && LimitsAtMost(t, groups[t], lookup, k) && InLane(LaneOf(was, t)) <= k ::
          InLane(LaneOf(lanes, t)) <= k)
  }

  /** Why a pass ended: a send found the channel full or closed, or every timer was served. */
  ghost predicate PassEnded(ended: PassEnd, lanes: Lanes, groups: Groups, lookup: (TimerId, RunId) -> Lookup,
                            closed: seq<RunId>, open: bool, capacity: nat, buffered: nat)
  {
    match ended
    case ChannelFull => open && buffered == capacity
    case ChannelClosed => !open
    case Complete => AllServed(lanes, groups, {}, lookup, closed)
  }

  ghost predicate NothingReserved(lanes: Lanes) { forall t :: InLane(LaneOf(lanes, t)) == 0 }

  /** Some listed claim may be sent, and no timer read of the pass fails. */
  ghost predicate SomethingToSend(groups: Groups, lookup: (TimerId, RunId) -> Lookup) {
    && (exists t, r :: t in groups && r in groups[t] && Eligible(lookup(t, r)))
    && (forall t, r | t in groups && r in groups[t] :: !lookup(t, r).LoadError?)
  }

  /** A pass over empty lanes and an empty channel, with something to send, sends: whichever way
      it ended, an unfinished timer or a full channel is the work of its own hints. */
  lemma PassSends(was: Lanes, lanes: Lanes, groups: Groups, lookup: (TimerId, RunId) -> Lookup, sent: seq<RunId>,
                  orphans: seq<RunId>, ended: PassEnd, open: bool, capacity: nat, buffered: nat)
    requires Passed(was, lanes, groups, {}, lookup, sent, orphans)
    requires PassEnded(ended, lanes, groups, lookup, orphans, open, capacity, buffered)
    requires NothingReserved(was) && SomethingToSend(groups, lookup)
    requires open && 0 < capacity && buffered <= |sent|
    ensures sent != []
  {
    var t, r :| t in groups && r in groups[t] && Eligible(lookup(t, r));
    if ended == Complete {
      assert Served(lanes, t, groups[t], lookup, orphans);
      if forall y | y in groups[t] :: Handled(lanes, t, y, lookup, orphans) {
        assert Handled(lanes, t, r, lookup, orphans);
        OccupiedLaneWasSent(was, lanes, groups, lookup, sent, orphans, t, r);
      } else {
        var l := LaneOf(lanes, t);
        assert InLane(l) > 0;
        var y := if l.queued != [] then l.queued[0] else var x :| x in l.active; x;
        OccupiedLaneWasSent(was, lanes, groups, lookup, sent, orphans, t, y);
      }
    }
  }

  lemma OccupiedLaneWasSent(was: Lanes, lanes: Lanes, groups: Groups, lookup: (TimerId, RunId) -> Lookup,
                            sent: seq<RunId>,
                            orphans: seq<RunId>, t: TimerId, r: RunId)
    requires Passed(was, lanes, groups, {}, lookup, sent, orphans) && NothingReserved(was)
    requires Reserved(lanes, t, r)
    ensures r in sent
  {
    assert InLane(LaneOf(was, t)) == 0;
    assert !Reserved(was, t, r);
  }

  lemma PassedOnce(was: Lanes, before: Lanes, lanes: Lanes, groups: Groups, todo: set<TimerId>, t: TimerId,
                   lookup: (TimerId, RunId) -> Lookup, sent: seq<RunId>, orphans: seq<RunId>, newly: seq<RunId>,
                   gone: seq<RunId>)
    requires Passed(was, before, groups, todo, lookup, sent, orphans) && t in todo && t in groups
    requires TimerPassed(before, lanes, t, groups[t], lookup, newly, gone)
    ensures Passed(was, lanes, groups, todo - {t}, lookup, sent + newly, orphans + gone)
  {
    SameLane(was, before, t);
    forall r | r in sent + newly
      ensures exists x :: x !in todo - {t} && MaySend(was, groups, lookup, x, r) && Reserved(lanes, x, r)
    {
      if r in newly { assert MaySend(was, groups, lookup, t, r) && Reserved(lanes, t, r); }
      else {
        var x :| x !in todo && MaySend(was, groups, lookup, x, r) && Reserved(before, x, r);
        assert Reserved(lanes, x, r);
      }
    }
    forall x: TimerId, r: RunId | Reserved(lanes, x, r)
      ensures Reserved(was, x, r) || (r in sent + newly && MaySend(was, groups, lookup, x, r))
    {
      if !Reserved(before, x, r) { assert x == t && r in newly; }
    }
    forall x, k: nat | x in groups && LimitsAtMost(x, groups[x], lookup, k) && InLane(LaneOf(was, x)) <= k
      ensures InLane(LaneOf(lanes, x)) <= k
    {
      assert InLane(LaneOf(before, x)) <= k;
    }
  }

  lemma TokenIsListed(lanes: Lanes, ids: set<RunId>, t: TimerId, r: RunId)
    requires t in lanes && r in ids && r in lanes[t].tokens
    ensures lanes[t].tokens[r] in TokensOf(lanes, ids)
  {
  }

  ghost predicate StoredAt(lanes: Lanes, t: TimerId, r: RunId, k: Token) {
    t in lanes && r in lanes[t].tokens && lanes[t].tokens[r] == k
  }

  class LaneBook {
    var perTimer: Lanes
    var nextToken: Token

    constructor ()
      ensures perTimer == map[] && nextToken == 0
    {
      perTimer, nextToken := map[], 0;
    }

    /** Release a stale hint: the first lane found queueing it forgets it. */
    method ReleaseQueued(r: RunId) returns (lane: Option<TimerId>)
      modifies this`perTimer
      ensures MayRelease(old(perTimer), r, lane)
      ensures perTimer == if lane.Some? then Dropped(old(perTimer), lane.value, r) else old(perTimer)
    {
      lane := None;
      var todo := perTimer.Keys;
      while todo != {}
        invariant todo <= perTimer.Keys && perTimer == old(perTimer) && lane == None
        invariant forall t | t in perTimer && t !in todo :: r !in perTimer[t].queued
        decreases |todo|
      {
        var t :| t in todo;
        if r in perTimer[t].queued {
          perTimer := perTimer[t := perTimer[t].(queued := Without(perTimer[t].queued, r),
                                                 tokens := perTimer[t].tokens - {r})];
          lane := Some(t);
          return;
        }
        todo := todo - {t};
      }
    }

    /** The reservation moves queued → active; the worker gets the run's own token. */
    method MoveToActive(t: TimerId, r: RunId) returns (token: Token)
      modifies this
      ensures perTimer == Activated(old(perTimer), t, r, old(nextToken))
      ensures token == TokenFor(LaneOf(old(perTimer), t), r, old(nextToken))
      ensures nextToken == old(nextToken) + 1
    {
      var lane := if t in perTimer then perTimer[t] else EMPTY_LANE;
      lane := lane.(queued := Without(lane.queued, r));
      lane := lane.(active := lane.active + {r});
      token := if r in lane.tokens then lane.tokens[r] else nextToken;
      lane := lane.(tokens := lane.tokens[r := token]);
      perTimer, nextToken := perTimer[t := lane], nextToken + 1;
    }

    /** Completion: the lane forgets the run and is removed once it is empty. */
    method FinishLane(t: TimerId, r: RunId)
      modifies this`perTimer
      ensures perTimer == Left(old(perTimer), t, r)
    {
      if t in perTimer {
        var lane := perTimer[t];
        lane := lane.(queued := Without(lane.queued, r));
        lane := lane.(active := lane.active - {r});
        lane := lane.(tokens := lane.tokens - {r});
        if InLane(lane) == 0 {
          perTimer := perTimer - {t};
        } else {
          perTimer := perTimer[t := lane];
        }
      }
    }

    /** Signal the tokens of the runs asked to stop, in whichever lane they are. */
    method Signal(ids: seq<RunId>) returns (signalled: set<Token>)
      ensures signalled == TokensOf(perTimer, set r | r in ids)
    {
      signalled := {};
      var todo := perTimer.Keys;
      while todo != {}
        invariant todo <= perTimer.Keys
        invariant forall k :: k in signalled <==> exists t, r :: t !in todo && r in ids && StoredAt(perTimer, t, r, k)
        decreases |todo|
      {
        var t :| t in todo;
        ghost var before := signalled;
        for i := 0 to |ids|
          invariant forall k :: k in signalled <==> k in before || exists j ::
              0 <= j < i && StoredAt(perTimer, t, ids[j], k)
        {
          if ids[i] in perTimer[t].tokens {
            assert StoredAt(perTimer, t, ids[i], perTimer[t].tokens[ids[i]]);
            signalled := signalled + {perTimer[t].tokens[ids[i]]};
          }
        }
        forall k
          ensures k in signalled <==> exists x, r :: x !in todo - {t} && r in ids && StoredAt(perTimer, x, r, k)
        {
          if x, r :| x !in todo - {t} && r in ids && StoredAt(perTimer, x, r, k) {
            if x == t { var j :| 0 <= j < |ids| && ids[j] == r; assert StoredAt(perTimer, t, ids[j], k); }
          }
          if j :| 0 <= j < |ids| && StoredAt(perTimer, t, ids[j], k) { assert ids[j] in ids; }
        }
        todo := todo - {t};
      }
      ghost var asked := set r | r in ids;
      forall k ensures k in signalled <==> k in TokensOf(perTimer, asked) {
        if k in signalled {
          var t, r :| t !in todo && r in ids && StoredAt(perTimer, t, r, k);
          TokenIsListed(perTimer, asked, t, r);
        }
        if k in TokensOf(perTimer, asked) {
          var t, r :| t in perTimer && r in ids && r in perTimer[t].tokens && perTimer[t].tokens[r] == k;
          assert StoredAt(perTimer, t, r, k);
        }
      }
    }

    /** One claim of the pass, under the lane lock. */
    method Consider(t: TimerId, r: RunId, answer: Lookup, channel: HintChannel) returns (verdict: Verdict)
      requires channel.Valid()
      modifies this, channel`hints
      ensures channel.Valid()
      ensures verdict == Judge(old(perTimer), t, r, answer, channel.open, old(|channel.Buffered()|) == channel.capacity)
      ensures perTimer == LanesAfter(verdict, old(perTimer), t, r, old(nextToken))
      ensures channel.hints == if verdict.SentHint? then old(channel.hints) + [r] else old(channel.hints)
    {
      var reserved := t in perTimer && (r in perTimer[t].queued || r in perTimer[t].active);
      if reserved { return Skipped; }
      if answer.LoadError? { return LeftTimer; }
      if answer.Gone? { return Orphaned; }
      var limit := Limit(answer.policy);
      if limit == 0 { return Skipped; }
      var lane := if t in perTimer then perTimer[t] else EMPTY_LANE;
      if InLane(lane) >= limit {
        verdict := LeftTimer;
        return;
      }
      perTimer := perTimer[t := lane];
      var result := channel.TrySend(r);
      if result == Full { return FoundFull; }
      if result == Closed { return FoundClosed; }
      perTimer := perTimer[t := Lane(lane.queued + [r], lane.active, lane.tokens[r := TokenFor(lane, r, nextToken)])];
      nextToken := nextToken + 1;
      verdict := SentHint;
    }

    /** The pass over one timer's claims, oldest first. */
    method PassTimer(t: TimerId, claims: seq<RunId>, lookup: (TimerId, RunId) -> Lookup, channel: HintChannel,
                     receives: RunId -> nat, rows: ClaimRows, finishes: RunId -> bool)
      returns (ended: PassEnd, orphans: seq<RunId>, ghost sent: seq<RunId>)
      requires channel.Valid()
      modifies this, channel`hints, channel`received, rows
      ensures channel.Valid() && channel.received >= old(channel.received)
      ensures channel.hints == old(channel.hints) + sent
      ensures rows.db == ClosedAll(old(rows.db), orphans, finishes)
      ensures TimerPassed(old(perTimer), perTimer, t, claims, lookup, sent, orphans)
      ensures ended == ChannelFull ==> channel.open && |channel.Buffered()| == channel.capacity
      ensures ended == ChannelClosed ==> !channel.open
      ensures ended == Complete ==> Served(perTimer, t, claims, lookup, orphans)
    {
      hide Served, Handled, Reserved, TimerPassed, HandledUpTo, Judge, LanesAfter, ClosedAll;
      orphans, sent, ended := [], [], Complete;
      ghost var was := perTimer;
      var i := 0;
      TimerStarts(was, t, claims, lookup);
      NothingClosed(rows.db, finishes);
      while i < |claims|
        invariant i <= |claims| && channel.Valid() && channel.received >= old(channel.received) && ended == Complete
        invariant channel.hints == old(channel.hints) + sent
        invariant rows.db == ClosedAll(old(rows.db), orphans, finishes)
        invariant TimerPassed(was, perTimer, t, claims, lookup, sent, orphans)
        invariant HandledUpTo(perTimer, t, claims, i, lookup, orphans)
        invariant i == |claims| ==> Served(perTimer, t, claims, lookup, orphans)
      {
        var r := claims[i];
        channel.Receive(receives(r));
        ghost var before, next := perTimer, nextToken;
        ghost var full := |channel.Buffered()| == channel.capacity;
        var verdict := Consider(t, r, lookup(t, r), channel);
        ClaimConsidered(was, before, t, claims, i, lookup, channel.open, full, next, sent, orphans);
        match verdict {
          case LeftTimer => return;
          case FoundFull => ended := ChannelFull; return;
          case FoundClosed => ended := ChannelClosed; return;
          case Orphaned =>
            // never recorded as success; a failed write leaves the claim pending
            rows.FinishRun(r, WakeFailed(TimerDeleted), finishes(r));
            ClosedOneMore(old(rows.db), orphans, r, finishes);
            orphans := orphans + [r];
          case SentHint => sent := sent + [r];
          case Skipped =>
        }
        i := i + 1;
      }
    }

    /** One pass over the pending snapshot, timer by timer in the map's own order. `receives(r)`
        hints leave the channel, taken by workers, while claim `r` is considered; `lookup` is what
        the store answers for it, `finishes(r)` whether the write that closes it as an orphan succeeds. */
    method Pass(groups: Groups, lookup: (TimerId, RunId) -> Lookup, channel: HintChannel, receives: RunId -> nat,
                rows: ClaimRows, finishes: RunId -> bool)
      returns (ended: PassEnd, orphans: seq<RunId>, ghost sent: seq<RunId>)
      requires channel.Valid()
      modifies this, channel`hints, channel`received, rows
      ensures channel.Valid() && channel.received >= old(channel.received)
      ensures channel.hints == old(channel.hints) + sent
      ensures rows.db == ClosedAll(old(rows.db), orphans, finishes)
      ensures Passed(old(perTimer), perTimer, groups, {}, lookup, sent, orphans)
      ensures PassEnded(ended, perTimer, groups, lookup, orphans, channel.open, channel.capacity, |channel.Buffered()|)
      // with nothing in the way, something goes out
      ensures old(channel.open && channel.Buffered() == [] && NothingReserved(perTimer)) ==>
                (channel.capacity > 0 && SomethingToSend(groups, lookup) ==> sent != [])
    {
      hide ClosedAll, Passed, Served, AllServed, TimerPassed, NothingReserved, SomethingToSend, LaneOf, Reserved,
        InLane;
      orphans, sent, ended := [], [], Complete;
      var todo := groups.Keys;
      ghost var was := perTimer;
      PassStarts(was, groups, lookup);
      NothingClosed(rows.db, finishes);
      while todo != {}
        invariant todo <= groups.Keys && channel.Valid() && channel.received >= old(channel.received)
            && ended == Complete
        invariant channel.hints == old(channel.hints) + sent
        invariant rows.db == ClosedAll(old(rows.db), orphans, finishes)
        invariant Passed(was, perTimer, groups, todo, lookup, sent, orphans)
        invariant AllServed(perTimer, groups, todo, lookup, orphans)
        decreases |todo|
      {
        var t :| t in todo;
        ghost var before := perTimer;
        var more, gone;
        ghost var newly;
        more, gone, newly := PassTimer(t, groups[t], lookup, channel, receives, rows, finishes);
        ClosedInTurn(old(rows.db), orphans, gone, finishes);
        PassedOnce(was, before, perTimer, groups, todo, t, lookup, sent, orphans, newly, gone);
        assert todo == (todo - {t}) + {t};
        ghost var closed := orphans;
        orphans, sent, todo := orphans + gone, sent + newly, todo - {t};
        if more != Complete {
          ended := more;
          PassedStops(was, perTimer, groups, todo, lookup, sent, orphans);
          break;
        }
        AllServedOnce(before, perTimer, groups, todo, t, lookup, newly, closed, gone);
      }
      if NothingReserved(was) && SomethingToSend(groups, lookup) && channel.open && channel.capacity > 0
          && |channel.Buffered()| <= |sent| {
        PassSends(was, perTimer, groups, lookup, sent, orphans, ended, channel.open, channel.capacity,
                  |channel.Buffered()|);
      }
    }
  }

  lemma PassStarts(lanes: Lanes, groups: Groups, lookup: (TimerId, RunId) -> Lookup)
    ensures Passed(lanes, lanes, groups, groups.Keys, lookup, [], [])
        && AllServed(lanes, groups, groups.Keys, lookup, [])
  {
  }

  lemma PassedStops(was: Lanes, lanes: Lanes, groups: Groups, todo: set<TimerId>, lookup: (TimerId, RunId) -> Lookup,
                    sent: seq<RunId>, orphans: seq<RunId>)
    requires Passed(was, lanes, groups, todo, lookup, sent, orphans)
    ensures Passed(was, lanes, groups, {}, lookup, sent, orphans)
  {
  }

  lemma SameLane(lanes: Lanes, lanes': Lanes, t: TimerId)
    requires LaneOf(lanes', t) == LaneOf(lanes, t)
    ensures forall r: RunId :: Reserved(lanes', t, r) <==> Reserved(lanes, t, r)
  {
    assert forall r: RunId :: Reserved(lanes, t, r) <==> r in LaneOf(lanes, t).queued || r in LaneOf(lanes, t).active;
    assert forall r: RunId :: Reserved(lanes', t, r) <==>
        r in LaneOf(lanes', t).queued || r in LaneOf(lanes', t).active;
  }

  lemma ServedStays(lanes: Lanes, lanes': Lanes, t: TimerId, claims: seq<RunId>, lookup: (TimerId, RunId) -> Lookup,
                    closed: seq<RunId>, closed': seq<RunId>)
    requires LaneOf(lanes', t) == LaneOf(lanes, t) && Served(lanes, t, claims, lookup, closed)
    requires forall r | r in closed :: r in closed'
    ensures Served(lanes', t, claims, lookup, closed')
  {
    SameLane(lanes, lanes', t);
    if forall r | r in claims :: Handled(lanes, t, r, lookup, closed) {
      forall r | r in claims ensures Handled(lanes', t, r, lookup, closed') {
        assert Handled(lanes, t, r, lookup, closed);
      }
    }
  }

  lemma AllServedOnce(before: Lanes, lanes: Lanes, groups: Groups, todo: set<TimerId>, t: TimerId,
                      lookup: (TimerId, RunId) -> Lookup, newly: seq<RunId>,
                      closed: seq<RunId>, gone: seq<RunId>)
    requires t in groups && t !in todo && AllServed(before, groups, todo + {t}, lookup, closed)
    requires TimerPassed(before, lanes, t, groups[t], lookup, newly, gone) && Served(lanes, t, groups[t], lookup, gone)
    ensures AllServed(lanes, groups, todo, lookup, closed + gone)
  {
    hide Served;
    forall x | x in groups && x !in todo ensures Served(lanes, x, groups[x], lookup, closed + gone) {
      if x == t { ServedStays(lanes, lanes, t, groups[t], lookup, gone, closed + gone); }
      else { ServedStays(before, lanes, x, groups[x], lookup, closed, closed + gone); }
    }
  }

  lemma TimerStarts(lanes: Lanes, t: TimerId, claims: seq<RunId>, lookup: (TimerId, RunId) -> Lookup)
    ensures TimerPassed(lanes, lanes, t, claims, lookup, [], []) && HandledUpTo(lanes, t, claims, 0, lookup, [])
    ensures claims == [] ==> Served(lanes, t, claims, lookup, [])
  {
  }

  /** One judged claim keeps what the pass over its timer has established. */
  lemma ClaimConsidered(was: Lanes, lanes: Lanes, t: TimerId, claims: seq<RunId>, i: nat,
                        lookup: (TimerId, RunId) -> Lookup,
                        open: bool, full: bool, next: Token, sent: seq<RunId>, orphans: seq<RunId>)
    requires i < |claims| && TimerPassed(was, lanes, t, claims, lookup, sent, orphans)
        && HandledUpTo(lanes, t, claims, i, lookup, orphans)
    ensures var r := claims[i];
      var verdict := Judge(lanes, t, r, lookup(t, r), open, full);
      var lanes' := LanesAfter(verdict, lanes, t, r, next);
      var closed := if verdict.Orphaned? then orphans + [r] else orphans;
      && TimerPassed(was, lanes', t, claims, lookup, if verdict.SentHint? then sent + [r] else sent, closed)
      && (verdict.FoundFull? ==> open && full)
      && (verdict.FoundClosed? ==> !open)
      && (verdict.LeftTimer? ==> Served(lanes', t, claims, lookup, closed))
      && (verdict.Skipped? || verdict.Orphaned? || verdict.SentHint? ==>
            HandledUpTo(lanes', t, claims, i + 1, lookup, closed))
      && (i + 1 == |claims| && HandledUpTo(lanes', t, claims, i + 1, lookup, closed) ==>
            Served(lanes', t, claims, lookup, closed))
  {
    hide TimerPassed, HandledUpTo, Served, Reserved, Judge, LanesAfter;
    ConsideredPasses(was, lanes, t, claims, i, lookup, open, full, next, sent, orphans);
    ConsideredHandles(lanes, t, claims, i, lookup, open, full, next, orphans);
  }

  lemma ConsideredPasses(was: Lanes, lanes: Lanes, t: TimerId, claims: seq<RunId>, i: nat,
                         lookup: (TimerId, RunId) -> Lookup,
                         open: bool, full: bool, next: Token, sent: seq<RunId>, orphans: seq<RunId>)
    requires i < |claims| && TimerPassed(was, lanes, t, claims, lookup, sent, orphans)
    ensures var r := claims[i];
      var verdict := Judge(lanes, t, r, lookup(t, r), open, full);
      TimerPassed(was, LanesAfter(verdict, lanes, t, r, next), t, claims, lookup,
                  if verdict.SentHint? then sent + [r] else sent, if verdict.Orphaned? then orphans + [r] else orphans)
  {
    var r := claims[i];
    var verdict := Judge(lanes, t, r, lookup(t, r), open, full);
    var lanes' := LanesAfter(verdict, lanes, t, r, next);
    EmptyEntry(lanes, t);
    SendReserves(lanes, t, r, next);
    if verdict.SentHint? {
      forall k: nat | LimitsAtMost(t, claims, lookup, k) && InLane(LaneOf(was, t)) <= k
        ensures InLane(LaneOf(lanes', t)) <= k
      {
        assert Limit(lookup(t, r).policy) <= k;
      }
    }
  }

  lemma ConsideredHandles(lanes: Lanes, t: TimerId, claims: seq<RunId>, i: nat, lookup: (TimerId, RunId) -> Lookup,
                          open: bool, full: bool, next: Token, orphans: seq<RunId>)
    requires i < |claims| && HandledUpTo(lanes, t, claims, i, lookup, orphans)
    ensures var r := claims[i];
      var verdict := Judge(lanes, t, r, lookup(t, r), open, full);
      var lanes' := LanesAfter(verdict, lanes, t, r, next);
      var closed := if verdict.Orphaned? then orphans + [r] else orphans;
      && (verdict.FoundFull? ==> open && full)
      && (verdict.FoundClosed? ==> !open)
      && (verdict.LeftTimer? ==> Served(lanes', t, claims, lookup, closed))
      && (verdict.Skipped? || verdict.Orphaned? || verdict.SentHint? ==>
            HandledUpTo(lanes', t, claims, i + 1, lookup, closed))
      && (i + 1 == |claims| && HandledUpTo(lanes', t, claims, i + 1, lookup, closed) ==>
            Served(lanes', t, claims, lookup, closed))
  {
    hide Served;
    var r := claims[i];
    var verdict := Judge(lanes, t, r, lookup(t, r), open, full);
    var lanes' := LanesAfter(verdict, lanes, t, r, next);
    var closed := if verdict.Orphaned? then orphans + [r] else orphans;
    EmptyEntry(lanes, t);
    SendReserves(lanes, t, r, next);
    if verdict.Skipped? || verdict.Orphaned? || verdict.SentHint? {
      assert Handled(lanes', t, r, lookup, closed);
      forall j | 0 <= j < i + 1 ensures Handled(lanes', t, claims[j], lookup, closed) {
        if j < i { assert Handled(lanes, t, claims[j], lookup, orphans); }
      }
    }
    EndServed(lanes', t, claims, i, lookup, closed);
  }

  lemma EndServed(lanes: Lanes, t: TimerId, claims: seq<RunId>, i: nat, lookup: (TimerId, RunId) -> Lookup,
                  closed: seq<RunId>)
    requires i < |claims|
    ensures i + 1 == |claims| && HandledUpTo(lanes, t, claims, i + 1, lookup, closed) ==>
              Served(lanes, t, claims, lookup, closed)
    ensures lookup(t, claims[i]).LoadError? ==> Served(lanes, t, claims, lookup, closed)
    ensures Eligible(lookup(t, claims[i])) && InLane(LaneOf(lanes, t)) >= Limit(lookup(t, claims[i]).policy) ==>
              Served(lanes, t, claims, lookup, closed)
  {
  }

  lemma EmptyEntry(lanes: Lanes, t: TimerId)
    ensures var lanes' := lanes[t := LaneOf(lanes, t)];
      && (forall x :: LaneOf(lanes', x) == LaneOf(lanes, x))
      && (forall x, r :: Reserved(lanes', x, r) <==> Reserved(lanes, x, r))
  {
  }

  lemma SendReserves(lanes: Lanes, t: TimerId, r: RunId, next: Token)
    ensures var lanes' := Enqueue(lanes, t, r, next);
      && (forall x | x != t :: LaneOf(lanes', x) == LaneOf(lanes, x))
      && InLane(LaneOf(lanes', t)) == InLane(LaneOf(lanes, t)) + 1
      && (forall x, y :: Reserved(lanes', x, y) <==> Reserved(lanes, x, y) || (x == t && y == r))
  {
  }
}
