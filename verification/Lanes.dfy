/** Per-timer lane reservations as values: the functions that specify the lane operations
    of the dispatcher, used both by the step system and by the `LaneBook` class. */
module Lanes {
  import opened Options
  import opened Store

  /** The identity of one shared cancellation flag. */
  type Token = nat

  /** Hints sent and not yet activated (oldest first), claims being executed, and the
      cancellation flag of each. */
  datatype Lane = Lane(queued: seq<RunId>, active: set<RunId>, tokens: map<RunId, Token>)

  type Lanes = map<TimerId, Lane>

  const EMPTY_LANE := Lane([], {}, map[])

  function InLane(l: Lane): nat { |l.queued| + |l.active| }

  function LaneOf(lanes: Lanes, t: TimerId): Lane {
    if t in lanes then lanes[t] else EMPTY_LANE
  }

  predicate Queued(lanes: Lanes, t: TimerId, r: RunId) { t in lanes && r in lanes[t].queued }

  predicate ActiveIn(lanes: Lanes, t: TimerId, r: RunId) { t in lanes && r in lanes[t].active }

  predicate Reserved(lanes: Lanes, t: TimerId, r: RunId) { Queued(lanes, t, r) || ActiveIn(lanes, t, r) }

  predicate NoDuplicates<T(==)>(s: seq<T>) { forall i, j | 0 <= i < j < |s| :: s[i] != s[j] }

  lemma NoDuplicatesCons<T>(x: T, s: seq<T>)
    ensures NoDuplicates([x] + s) <==> x !in s && NoDuplicates(s)
  {
    var xs := [x] + s;
    assert forall i | 0 <= i < |s| :: xs[i + 1] == s[i];
    if NoDuplicates(xs) {
      forall i | 0 <= i < |s| ensures s[i] != x { assert xs[0] != xs[i + 1]; }
      forall i, j | 0 <= i < j < |s| ensures s[i] != s[j] { assert xs[i + 1] != xs[j + 1]; }
    }
  }

  /** `retain(|id| id != r)`. */
  function Without(s: seq<RunId>, r: RunId): (res: seq<RunId>)
    ensures forall x :: x in res <==> x in s && x != r
    ensures NoDuplicates(s) ==> NoDuplicates(res)
    ensures |res| <= |s|
    ensures r in s ==> |res| < |s|
    ensures r !in s ==> res == s
  {
    if s == [] then []
    else if s[0] == r then NoDuplicatesCons(s[0], s[1..]); assert s == [s[0]] + s[1..]; Without(s[1..], r)
    else
      assert s == [s[0]] + s[1..];
      NoDuplicatesCons(s[0], s[1..]);
      NoDuplicatesCons(s[0], Without(s[1..], r));
      [s[0]] + Without(s[1..], r)
  }

  /** `tokens.entry(r).or_default()`. */
  function TokenFor(l: Lane, r: RunId, next: Token): Token {
    if r in l.tokens then l.tokens[r] else next
  }

  /** A hint was sent: the reservation starts. */
  function Enqueue(lanes: Lanes, t: TimerId, r: RunId, next: Token): Lanes {
    var l := LaneOf(lanes, t);
    lanes[t := Lane(l.queued + [r], l.active, l.tokens[r := TokenFor(l, r, next)])]
  }

  /** A worker won the claim: its reservation moves queued → active. */
  function Activated(lanes: Lanes, t: TimerId, r: RunId, next: Token): Lanes {
    var l := LaneOf(lanes, t);
    lanes[t := Lane(Without(l.queued, r), l.active + {r}, l.tokens[r := TokenFor(l, r, next)])]
  }

  /** A stale hint gives its reservation in lane `t` back. */
  function Dropped(lanes: Lanes, t: TimerId, r: RunId): Lanes
    requires t in lanes
  {
    lanes[t := lanes[t].(queued := Without(lanes[t].queued, r), tokens := lanes[t].tokens - {r})]
  }

  /** A worker is done: the lane forgets the run, and an empty lane is removed. */
  function Left(lanes: Lanes, t: TimerId, r: RunId): Lanes {
    if t !in lanes then lanes
    else
      var l := Lane(Without(lanes[t].queued, r), lanes[t].active - {r}, lanes[t].tokens - {r});
      if InLane(l) == 0 then lanes - {t} else lanes[t := l]
  }

  lemma EnqueueCount(lanes: Lanes, t: TimerId, r: RunId, next: Token)
    ensures InLane(LaneOf(Enqueue(lanes, t, r, next), t)) == InLane(LaneOf(lanes, t)) + 1
    ensures forall x | x != t :: LaneOf(Enqueue(lanes, t, r, next), x) == LaneOf(lanes, x)
  {
  }

  /** Activation trades a queued reservation for an active one. */
  lemma ActivatedCount(lanes: Lanes, t: TimerId, r: RunId, next: Token)
    requires Queued(lanes, t, r)
    ensures InLane(LaneOf(Activated(lanes, t, r, next), t)) <= InLane(LaneOf(lanes, t))
    ensures forall x | x != t :: LaneOf(Activated(lanes, t, r, next), x) == LaneOf(lanes, x)
  {
  }

  /** Giving a reservation back never grows any lane. */
  lemma ReleaseCount(lanes: Lanes, t: TimerId, r: RunId)
    ensures forall x :: InLane(LaneOf(Left(lanes, t, r), x)) <= InLane(LaneOf(lanes, x))
    ensures t in lanes ==> forall x :: InLane(LaneOf(Dropped(lanes, t, r), x)) <= InLane(LaneOf(lanes, x))
  {
    if t in lanes {
      var smaller := lanes[t].active - {r};
      assert smaller <= lanes[t].active;
      SubsetCount(smaller, lanes[t].active);
    }
  }

  lemma SubsetCount<T>(a: set<T>, b: set<T>)
    requires a <= b
    ensures |a| <= |b|
  {
    assert b == a + (b - a);
    assert |b| == |a| + |b - a|;
  }
}
