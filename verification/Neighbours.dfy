/** The fire-neighbour query of the timer dialog: expand each timer around the candidates, sort the
    hits into buckets per candidate, and flatten them for the panel. Instants are nanoseconds,
    candidates and deltas seconds; names and ids stand for strings in their order. */
module Neighbours {
  import opened Options

  const NANOS := 1_000_000_000
  const MAX_FIRES_PER_TIMER := 48

  datatype Relation = Collision | Nearby

  datatype Timer = Timer(id: nat, name: nat, enabled: bool)

  datatype Hit = Hit(timer: nat, name: nat, fire: int, delta: int)

  /** The second of an instant; `with_nanosecond(0)`. */
  function Second(instant: int): int { instant / NANOS }

  function Abs(n: int): nat { if n < 0 then -n else n }

  function Classify(delta: int, window: nat): Option<Relation> {
    if delta == 0 then Some(Collision) else if Abs(delta) <= window then Some(Nearby) else None
  }

  // -- Expansion ----------------------------------------------------------

  /** `Occurrence::preview` by timer id, cursor and count. */
  type Preview = (nat, int, nat) -> seq<int>

  predicate Ascending(s: seq<int>) { forall i, j | 0 <= i < j < |s| :: s[i] < s[j] }

  /** The contract of one preview: the first `n` fires strictly after the cursor, in order. */
  ghost predicate FirstFires(s: seq<int>, occurs: int -> bool, after: int, n: nat) {
    && |s| <= n && Ascending(s)
    && (forall f | f in s :: occurs(f) && after < f)
    && (forall f | occurs(f) && after < f && f !in s :: |s| == n && forall g | g in s :: g < f)
  }

  function UpTo(fires: seq<int>, end: int): seq<int> {
    if fires == [] then []
    else
      var n := |fires| - 1;
      UpTo(fires[..n], end) + if fires[n] <= end then [fires[n]] else []
  }

  lemma {:induction false} UpToMembers(fires: seq<int>, end: int)
    ensures forall f :: f in UpTo(fires, end) <==> f in fires && f <= end
    decreases |fires|
  {
    if fires != [] {
      UpToMembers(fires[..|fires| - 1], end);
      assert fires == fires[..|fires| - 1] + [fires[|fires| - 1]];
    }
  }

  /** What the scan is about: the cluster of candidates and the span it expands. */
  datatype Query = Query(cands: seq<int>, window: nat, exclude: Option<nat>, preview: Preview)

  function MinOf(s: seq<int>): (m: int)
    requires s != []
    ensures m in s && forall x | x in s :: m <= x
  {
    if |s| == 1 then s[0]
    else
      assert s == [s[0]] + s[1..];
      var m := MinOf(s[1..]);
      if s[0] <= m then s[0] else m
  }

  function MaxOf(s: seq<int>): (m: int)
    requires s != []
    ensures m in s && forall x | x in s :: x <= m
  {
    if |s| == 1 then s[0]
    else
      assert s == [s[0]] + s[1..];
      var m := MaxOf(s[1..]);
      if s[0] >= m then s[0] else m
  }

  function After(q: Query): int
    requires q.cands != []
  {
    (MinOf(q.cands) - (q.window + 1)) * NANOS
  }

  function HorizonEnd(q: Query): int
    requires q.cands != []
  {
    (MaxOf(q.cands) + q.window + 1) * NANOS
  }

  /** Every preview of the query meets the contract. */
  ghost predicate Faithful(q: Query, occurs: (nat, int) -> bool)
    requires q.cands != []
  {
    forall id: nat ::
        FirstFires(q.preview(id, After(q), MAX_FIRES_PER_TIMER), f => occurs(id, f), After(q), MAX_FIRES_PER_TIMER)
  }

  function ExpandFires(q: Query, t: Timer): seq<int>
    requires q.cands != []
  {
    UpTo(q.preview(t.id, After(q), MAX_FIRES_PER_TIMER), HorizonEnd(q))
  }

  predicate Scanned(q: Query, t: Timer) { t.enabled && q.exclude != Some(t.id) }

  // -- Buckets ------------------------------------------------------------

  function MakeHit(t: Timer, f: int, cand: int): Hit { Hit(t.id, t.name, Second(f), Second(f) - cand) }

  function Added(t: Timer, f: int, cand: int, window: nat, rel: Relation): seq<Hit> {
    if Classify(Second(f) - cand, window) == Some(rel) then [MakeHit(t, f, cand)] else []
  }

  function FromFires(t: Timer, fires: seq<int>, cand: int, window: nat, rel: Relation): seq<Hit> {
    if fires == [] then []
    else
      var n := |fires| - 1;
      FromFires(t, fires[..n], cand, window, rel) + Added(t, fires[n], cand, window, rel)
  }

  function Bucket(q: Query, timers: seq<Timer>, cand: int, rel: Relation): seq<Hit>
    requires q.cands != []
  {
    if timers == [] then []
    else
      var n := |timers| - 1;
      Bucket(q, timers[..n], cand, rel)
      + if Scanned(q, timers[n]) then FromFires(timers[n], ExpandFires(q, timers[n]), cand, q.window, rel) else []
  }

  /** Fill the buckets of every candidate, fire by fire. */
  method FillBuckets(q: Query, timers: seq<Timer>) returns (collisions: seq<seq<Hit>>, nearby: seq<seq<Hit>>)
    requires q.cands != []
    ensures |collisions| == |nearby| == |q.cands|
    ensures forall c | 0 <= c < |q.cands| :: collisions[c] == Bucket(q, timers, q.cands[c], Collision)
    ensures forall c | 0 <= c < |q.cands| :: nearby[c] == Bucket(q, timers, q.cands[c], Nearby)
  {
    collisions, nearby := seq(|q.cands|, _ => []), seq(|q.cands|, _ => []);
    for i := 0 to |timers|
      invariant |collisions| == |nearby| == |q.cands|
      invariant forall c | 0 <= c < |q.cands| :: collisions[c] == Bucket(q, timers[..i], q.cands[c], Collision)
      invariant forall c | 0 <= c < |q.cands| :: nearby[c] == Bucket(q, timers[..i], q.cands[c], Nearby)
    {
      var t := timers[i];
      assert timers[..i + 1][..i] == timers[..i];
      if Scanned(q, t) {
        collisions, nearby := ScanTimer(q, t, collisions, nearby);
      }
    }
    assert timers[..|timers|] == timers;
  }

  /** Every bucket grew by what the fires of `t` add to it. */
  ghost predicate Grown(before: seq<seq<Hit>>, after: seq<seq<Hit>>, q: Query, t: Timer, fires: seq<int>,
                        rel: Relation)
  {
    |before| == |after| == |q.cands|
    && forall c | 0 <= c < |q.cands| :: after[c] == before[c] + FromFires(t, fires, q.cands[c], q.window, rel)
  }

  lemma GrowMore(before: seq<seq<Hit>>, middle: seq<seq<Hit>>, after: seq<seq<Hit>>, q: Query, t: Timer,
                 fires: seq<int>, f: int, rel: Relation)
    requires Grown(before, middle, q, t, fires, rel) && |after| == |q.cands|
    requires forall c | 0 <= c < |q.cands| :: after[c] == middle[c] + Added(t, f, q.cands[c], q.window, rel)
    ensures Grown(before, after, q, t, fires + [f], rel)
  {
    hide Added;
    forall c | 0 <= c < |q.cands| ensures after[c] == before[c] + FromFires(t, fires + [f], q.cands[c], q.window, rel) {
      assert (fires + [f])[..|fires|] == fires;
      assert middle[c] == before[c] + FromFires(t, fires, q.cands[c], q.window, rel);
    }
  }

  method ScanTimer(q: Query, t: Timer, collisions0: seq<seq<Hit>>, nearby0: seq<seq<Hit>>)
    returns (collisions: seq<seq<Hit>>, nearby: seq<seq<Hit>>)
    requires q.cands != [] && |collisions0| == |nearby0| == |q.cands|
    ensures Grown(collisions0, collisions, q, t, ExpandFires(q, t), Collision)
    ensures Grown(nearby0, nearby, q, t, ExpandFires(q, t), Nearby)
  {
    collisions, nearby := collisions0, nearby0;
    var fires := ExpandFires(q, t);
    hide ExpandFires, Added;
    for j := 0 to |fires|
      invariant Grown(collisions0, collisions, q, t, fires[..j], Collision)
      invariant Grown(nearby0, nearby, q, t, fires[..j], Nearby)
    {
      ghost var c, n := collisions, nearby;
      collisions, nearby := ScanFire(q, t, fires[j], collisions, nearby);
      assert fires[..j + 1] == fires[..j] + [fires[j]];
      GrowMore(collisions0, c, collisions, q, t, fires[..j], fires[j], Collision);
      GrowMore(nearby0, n, nearby, q, t, fires[..j], fires[j], Nearby);
      hide Grown;
    }
    assert fires[..|fires|] == fires;
  }

  method ScanFire(q: Query, t: Timer, f: int, collisions0: seq<seq<Hit>>, nearby0: seq<seq<Hit>>)
    returns (collisions: seq<seq<Hit>>, nearby: seq<seq<Hit>>)
    requires |collisions0| == |nearby0| == |q.cands|
    ensures |collisions| == |nearby| == |q.cands|
    ensures forall c | 0 <= c < |q.cands| ::
        collisions[c] == collisions0[c] + Added(t, f, q.cands[c], q.window, Collision)
    ensures forall c | 0 <= c < |q.cands| :: nearby[c] == nearby0[c] + Added(t, f, q.cands[c], q.window, Nearby)
  {
    collisions, nearby := collisions0, nearby0;
    for c := 0 to |q.cands|
      invariant |collisions| == |nearby| == |q.cands|
      invariant forall d | 0 <= d < c :: collisions[d] == collisions0[d] + Added(t, f, q.cands[d], q.window, Collision)
      invariant forall d | 0 <= d < c :: nearby[d] == nearby0[d] + Added(t, f, q.cands[d], q.window, Nearby)
      invariant forall d | c <= d < |q.cands| :: collisions[d] == collisions0[d] && nearby[d] == nearby0[d]
    {
      var delta := Second(f) - q.cands[c];
      var relation := Classify(delta, q.window);
      if relation.Some? {
        var hit := Hit(t.id, t.name, Second(f), delta);
        match relation.value {
          case Collision => collisions := collisions[c := collisions[c] + [hit]];
          case Nearby => nearby := nearby[c := nearby[c] + [hit]];
        }
      }
    }
  }

  // -- Membership: the scan against the full schedule ---------------------

  /** Fire `f` of timer `t` stands in relation `rel` to the candidate. */
  ghost predicate Relates(q: Query, t: Timer, f: int, cand: int, rel: Relation) {
    Scanned(q, t) && Classify(Second(f) - cand, q.window) == Some(rel)
  }

  lemma {:induction false} FromFiresMembers(t: Timer, fires: seq<int>, cand: int, window: nat, rel: Relation, h: Hit)
    ensures h in FromFires(t, fires, cand, window, rel) <==>
              exists f :: f in fires && Classify(Second(f) - cand, window) == Some(rel) && h == MakeHit(t, f, cand)
    decreases |fires|
  {
    if fires != [] {
      var n := |fires| - 1;
      FromFiresMembers(t, fires[..n], cand, window, rel, h);
      assert fires == fires[..n] + [fires[n]];
      hide Classify, Second;
    }
  }

  /** Where a hit of a bucket comes from. */
  ghost predicate ComesFrom(q: Query, h: Hit, t: Timer, f: int, cand: int, rel: Relation)
    requires q.cands != []
  {
    f in ExpandFires(q, t) && Relates(q, t, f, cand, rel) && h == MakeHit(t, f, cand)
  }

  lemma {:induction false} BucketMembers(q: Query, timers: seq<Timer>, cand: int, rel: Relation, h: Hit)
    requires q.cands != []
    ensures h in Bucket(q, timers, cand, rel) <==> exists t, f :: t in timers && ComesFrom(q, h, t, f, cand, rel)
    decreases |timers|
  {
    if timers != [] {
      var n := |timers| - 1;
      var t := timers[n];
      hide ExpandFires, FromFires, Classify, Second, MakeHit;
      BucketMembers(q, timers[..n], cand, rel, h);
      FromFiresMembers(t, ExpandFires(q, t), cand, q.window, rel, h);
      assert timers == timers[..n] + [t];
      if h in FromFires(t, ExpandFires(q, t), cand, q.window, rel) && Scanned(q, t) {
        var f :| f in ExpandFires(q, t) && Classify(Second(f) - cand, q.window) == Some(rel)
            && h == MakeHit(t, f, cand);
        assert ComesFrom(q, h, t, f, cand, rel);
      }
      if x, f :| x in timers && ComesFrom(q, h, x, f, cand, rel) {
        if x !in timers[..n] { assert x == t; }
      }
    }
  }

  /** A fire that relates to a candidate lies inside the expanded span. */
  lemma RelatedIsInSpan(q: Query, f: int, cand: int)
    requires cand in q.cands && Classify(Second(f) - cand, q.window).Some?
    ensures After(q) < f <= HorizonEnd(q)
  {
    assert Abs(Second(f) - cand) <= q.window;
    assert MinOf(q.cands) <= cand <= MaxOf(q.cands);
  }

  /** Main result: a bucket holds only real fires of scanned timers in the right relation, and each
      such fire unless its timer had 48 earlier fires after the cursor. */
  lemma BucketsRefineTheSchedule(q: Query, timers: seq<Timer>, occurs: (nat, int) -> bool, cand: int, rel: Relation)
    requires q.cands != [] && cand in q.cands && Faithful(q, occurs)
    ensures forall h | h in Bucket(q, timers, cand, rel) ::
              exists t, f :: t in timers && occurs(t.id, f) && Relates(q, t, f, cand, rel) && h == MakeHit(t, f, cand)
    ensures forall t, f | t in timers && occurs(t.id, f) && Relates(q, t, f, cand, rel) ::
              MakeHit(t, f, cand) in Bucket(q, timers, cand, rel) || CutOff(q, t, f)
  {
    forall h | h in Bucket(q, timers, cand, rel)
      ensures exists t, f :: t in timers && occurs(t.id, f) && Relates(q, t, f, cand, rel) && h == MakeHit(t, f, cand)
    {
      BucketMembers(q, timers, cand, rel, h);
      hide ExpandFires, MakeHit, Relates;
      var t, f :| t in timers && ComesFrom(q, h, t, f, cand, rel);
      ExpandedAre(q, t, occurs, f);
    }
    forall t, f | t in timers && occurs(t.id, f) && Relates(q, t, f, cand, rel)
      ensures MakeHit(t, f, cand) in Bucket(q, timers, cand, rel) || CutOff(q, t, f)
    {
      RelatedIsInSpan(q, f, cand);
      ExpandedAre(q, t, occurs, f);
      BucketMembers(q, timers, cand, rel, MakeHit(t, f, cand));
      hide ExpandFires, MakeHit, Relates, CutOff, Bucket, After, HorizonEnd;
      if f in ExpandFires(q, t) { assert ComesFrom(q, MakeHit(t, f, cand), t, f, cand, rel); }
    }
  }

  /** The timer has 48 fires after the cursor, all earlier than `f`. */
  ghost predicate CutOff(q: Query, t: Timer, f: int)
    requires q.cands != []
  {
    var shown := q.preview(t.id, After(q), MAX_FIRES_PER_TIMER);
    |shown| == MAX_FIRES_PER_TIMER && forall g | g in shown :: After(q) < g < f
  }

  lemma ExpandedAre(q: Query, t: Timer, occurs: (nat, int) -> bool, f: int)
    requires q.cands != [] && Faithful(q, occurs)
    ensures f in ExpandFires(q, t) ==> occurs(t.id, f)
    ensures occurs(t.id, f) && After(q) < f <= HorizonEnd(q) ==> f in ExpandFires(q, t) || CutOff(q, t, f)
  {
    var shown := q.preview(t.id, After(q), MAX_FIRES_PER_TIMER);
    UpToMembers(shown, HorizonEnd(q));
    assert FirstFires(shown, g => occurs(t.id, g), After(q), MAX_FIRES_PER_TIMER);
    hide After, HorizonEnd;
  }

  // -- Sorting and adjacent deduplication ---------------------------------

  /** Order of a list: |delta|, name, timer, fire. */
  predicate Leq(a: Hit, b: Hit) {
    || Abs(a.delta) < Abs(b.delta)
    || (Abs(a.delta) == Abs(b.delta)
        && (a.name < b.name || (a.name == b.name && (a.timer < b.timer || (a.timer == b.timer && a.fire <= b.fire)))))
  }

  predicate Sorted(s: seq<Hit>) { forall i, j | 0 <= i < j < |s| :: Leq(s[i], s[j]) }

  predicate SameKey(a: Hit, b: Hit) { a.timer == b.timer && a.fire == b.fire }

  /** Stable insertion, from the right. */
  function Insert(s: seq<Hit>, h: Hit): seq<Hit> {
    if s == [] || Leq(s[|s| - 1], h) then s + [h] else Insert(s[..|s| - 1], h) + [s[|s| - 1]]
  }

  function Sort(v: seq<Hit>): seq<Hit> {
    if v == [] then [] else Insert(Sort(v[..|v| - 1]), v[|v| - 1])
  }

  /** `dedup_by`: drop an element whose key is that of the last one kept. */
  function Dedup(v: seq<Hit>): seq<Hit> {
    if v == [] then []
    else
      var kept, last := Dedup(v[..|v| - 1]), v[|v| - 1];
      if kept != [] && SameKey(kept[|kept| - 1], last) then kept else kept + [last]
  }

  function SortHits(v: seq<Hit>): seq<Hit> { Dedup(Sort(v)) }

  lemma {:induction false} InsertKeeps(s: seq<Hit>, h: Hit)
    requires Sorted(s)
    ensures Sorted(Insert(s, h)) && (forall x :: x in Insert(s, h) <==> x in s || x == h)
  {
    if s != [] && !Leq(s[|s| - 1], h) {
      var n := |s| - 1;
      InsertKeeps(s[..n], h);
      assert s == s[..n] + [s[n]];
      var r := Insert(s[..n], h);
      forall i | 0 <= i < |r| ensures Leq(r[i], s[n]) {
        assert r[i] in r;
        if r[i] != h { var j :| 0 <= j < n && s[j] == r[i]; }
      }
    }
  }

  lemma {:induction false} SortKeeps(v: seq<Hit>)
    ensures Sorted(Sort(v)) && (forall x :: x in Sort(v) <==> x in v)
    decreases |v|
  {
    if v != [] {
      var n := |v| - 1;
      SortKeeps(v[..n]);
      InsertKeeps(Sort(v[..n]), v[n]);
      assert v == v[..n] + [v[n]];
      hide Insert, Sorted, Leq;
    }
  }

  /** An element that stands for `x` after deduplication: same key, not later in the order. */
  ghost predicate Represents(y: Hit, x: Hit) { SameKey(y, x) && Leq(y, x) }

  ghost predicate Represented(s: seq<Hit>, x: Hit) { exists y :: y in s && Represents(y, x) }

  lemma LeqReflexive(h: Hit)
    ensures Leq(h, h) && Represents(h, h)
  {
  }

  predicate AllBefore(s: seq<Hit>, h: Hit) { forall i | 0 <= i < |s| :: Leq(s[i], h) }

  lemma PrefixSorted(s: seq<Hit>)
    requires Sorted(s) && s != []
    ensures Sorted(s[..|s| - 1]) && AllBefore(s[..|s| - 1], s[|s| - 1])
  {
  }

  lemma SubsetBefore(kept: seq<Hit>, s: seq<Hit>, h: Hit)
    requires AllBefore(s, h) && forall x | x in kept :: x in s
    ensures AllBefore(kept, h)
  {
    hide Leq;
    forall i | 0 <= i < |kept| ensures Leq(kept[i], h) { assert kept[i] in s; }
  }

  lemma SortedSnoc(s: seq<Hit>, h: Hit)
    requires Sorted(s) && AllBefore(s, h)
    ensures Sorted(s + [h])
  {
  }

  lemma {:induction false} DedupSubset(s: seq<Hit>)
    requires Sorted(s)
    ensures Sorted(Dedup(s)) && (forall x | x in Dedup(s) :: x in s)
    decreases |s|
  {
    if s != [] {
      var most, last := s[..|s| - 1], s[|s| - 1];
      PrefixSorted(s);
      DedupSubset(most);
      assert s == most + [last];
      hide Sorted, AllBefore, SameKey;
      SubsetBefore(Dedup(most), most, last);
      SortedSnoc(Dedup(most), last);
    }
  }

  lemma {:induction false} DedupRepresents(s: seq<Hit>, x: Hit)
    requires Sorted(s) && x in s
    ensures Represented(Dedup(s), x)
    decreases |s|
  {
    var most, last := s[..|s| - 1], s[|s| - 1];
    var kept := Dedup(most);
    PrefixSorted(s);
    DedupSubset(most);
    SubsetBefore(kept, most, last);
    LeqReflexive(last);
    assert s == most + [last];
    assert kept != [] ==> Leq(kept[|kept| - 1], last);
    if x in most {
      DedupRepresents(most, x);
      hide Represents, Sorted, AllBefore;
      var y :| y in kept && Represents(y, x);
      assert y in Dedup(s);
    } else if kept != [] && SameKey(kept[|kept| - 1], last) {
      assert Represents(kept[|kept| - 1], x) && kept[|kept| - 1] in Dedup(s);
    } else {
      assert Represents(last, x) && last in Dedup(s);
    }
  }

  /** `d` is a part of `s` that represents all of it. */
  ghost predicate Covers(d: seq<Hit>, s: seq<Hit>) {
    (forall x | x in d :: x in s) && (forall x | x in s :: Represented(d, x))
  }

  lemma SortHitsKeeps(v: seq<Hit>)
    ensures Sorted(SortHits(v)) && Covers(SortHits(v), v)
  {
    SortKeeps(v);
    DedupSubset(Sort(v));
    hide Sorted, Represented, Sort, Dedup;
    forall x | x in v ensures Represented(SortHits(v), x) { DedupRepresents(Sort(v), x); }
  }

  /** Equal keys come with equal |delta| and name, so the order puts them side by side. */
  ghost predicate Coherent(s: seq<Hit>) {
    forall a, b | a in s && b in s && SameKey(a, b) :: Abs(a.delta) == Abs(b.delta) && a.name == b.name
  }

  predicate DistinctKeys(s: seq<Hit>) { forall i, j | 0 <= i < j < |s| :: !SameKey(s[i], s[j]) }

  /** Main result: on a sorted coherent list dropping adjacent repeats drops all repeats. */
  lemma {:induction false} AdjacentIsFull(s: seq<Hit>)
    requires Sorted(s) && Coherent(s)
    ensures DistinctKeys(Dedup(s))
    decreases |s|
  {
    if s != [] {
      var most, last := s[..|s| - 1], s[|s| - 1];
      PrefixSorted(s);
      CoherentPart(most, s);
      AdjacentIsFull(most);
      DedupSubset(most);
      if Dedup(most) != [] { LastDiffers(Dedup(most), most, s); }
    }
  }

  lemma CoherentPart(part: seq<Hit>, s: seq<Hit>)
    requires Coherent(s) && forall i | 0 <= i < |part| :: part[i] in s
    ensures Coherent(part)
  {
    assert forall a | a in part :: a in s;
    hide SameKey;
  }

  lemma LastDiffers(kept: seq<Hit>, most: seq<Hit>, s: seq<Hit>)
    requires s != [] && most == s[..|s| - 1] && Sorted(s) && Coherent(s)
    requires kept != [] && Sorted(kept) && DistinctKeys(kept) && forall x | x in kept :: x in most
    ensures var last := s[|s| - 1];
      !SameKey(kept[|kept| - 1], last) ==> DistinctKeys(kept + [last])
  {
    var m, last := |kept| - 1, s[|s| - 1];
    PrefixSorted(s);
    SubsetBefore(kept, most, last);
    assert Leq(kept[m], last);
    hide AllBefore;
    forall i | 0 <= i <= m ensures SameKey(kept[i], last) ==> SameKey(kept[m], last) {
      assert kept[i] in most;
      if i < m { assert Leq(kept[i], kept[m]); }
      hide Sorted, DistinctKeys;
      Squeezed(kept[i], kept[m], last, s);
    }
  }

  lemma Squeezed(a: Hit, b: Hit, c: Hit, s: seq<Hit>)
    requires Coherent(s) && a in s && c in s
    requires a == b || Leq(a, b)
    requires Leq(b, c)
    ensures SameKey(a, c) ==> SameKey(b, c)
  {
  }

  // -- The flat lists -----------------------------------------------------

  ghost predicate Listed(buckets: seq<seq<Hit>>, h: Hit) { exists c :: 0 <= c < |buckets| && h in buckets[c] }

  ghost predicate HasKey(s: seq<Hit>, h: Hit) { exists y :: y in s && SameKey(y, h) }

  /** A list that holds only listed hits, and for each of them one that represents it. */
  ghost predicate Flattens(s: seq<Hit>, buckets: seq<seq<Hit>>) {
    (forall x | x in s :: Listed(buckets, x)) && (forall x | Listed(buckets, x) :: Represented(s, x))
  }

  lemma RepresentsTransitive(s: seq<Hit>, y: Hit, x: Hit)
    requires Represented(s, y) && Represents(y, x)
    ensures Represented(s, x)
  {
    var z :| z in s && Represents(z, y);
    assert Represents(z, x);
  }

  /** Sorting and deduplicating once more changes neither what a list holds nor what it represents. */
  lemma FlattensStays(s: seq<Hit>, d: seq<Hit>, buckets: seq<seq<Hit>>)
    requires Flattens(s, buckets)
    requires Covers(d, s)
    ensures Flattens(d, buckets)
  {
    hide Represented, Listed;
    forall x | Listed(buckets, x) ensures Represented(d, x) { RepresentedThrough(s, d, x); }
  }

  lemma RepresentedThrough(s: seq<Hit>, d: seq<Hit>, x: Hit)
    requires Represented(s, x) && forall y | y in s :: Represented(d, y)
    ensures Represented(d, x)
  {
    hide Represents;
    var y :| y in s && Represents(y, x);
    RepresentsTransitive(d, y, x);
  }

  /** Concatenate the sorted buckets, sort the whole, drop repeats once more. */
  method FlatList(buckets: seq<seq<Hit>>) returns (flat: seq<Hit>)
    ensures Sorted(flat) && Flattens(flat, buckets)
    ensures CoherentBuckets(buckets) ==> DistinctKeys(flat)
  {
    var all: seq<Hit> := [];
    NothingListed(buckets[..0]);
    hide Flattens, Covers, Represented, Sorted, SortHits, Dedup, Listed, DistinctKeys, CoherentBuckets;
    for c := 0 to |buckets|
      invariant Flattens(all, buckets[..c])
    {
      ExtendFlat(all, buckets[..c], buckets[c]);
      assert buckets[..c + 1] == buckets[..c] + [buckets[c]];
      all := all + SortHits(buckets[c]);
    }
    assert buckets[..|buckets|] == buckets;
    SortHitsKeeps(all);
    var sorted := SortHits(all);
    FlattensStays(all, sorted, buckets);
    DedupFlattens(sorted, buckets);
    flat := Dedup(sorted);
  }

  ghost predicate CoherentBuckets(buckets: seq<seq<Hit>>) {
    forall x, y | Listed(buckets, x) && Listed(buckets, y) && SameKey(x, y) ::
        Abs(x.delta) == Abs(y.delta) && x.name == y.name
  }

  lemma DedupFlattens(s: seq<Hit>, buckets: seq<seq<Hit>>)
    requires Sorted(s) && Flattens(s, buckets)
    ensures Sorted(Dedup(s)) && Flattens(Dedup(s), buckets)
    ensures CoherentBuckets(buckets) ==> DistinctKeys(Dedup(s))
  {
    hide Represented, Sorted, Dedup, Listed, DistinctKeys;
    DedupSubset(s);
    forall x | x in s ensures Represented(Dedup(s), x) { DedupRepresents(s, x); }
    FlattensStays(s, Dedup(s), buckets);
    if CoherentBuckets(buckets) {
      assert Coherent(s);
      AdjacentIsFull(s);
    }
  }

  lemma NothingListed(buckets: seq<seq<Hit>>)
    requires buckets == []
    ensures Flattens([], buckets)
  {
  }

  lemma ExtendFlat(all: seq<Hit>, buckets: seq<seq<Hit>>, bucket: seq<Hit>)
    requires Flattens(all, buckets)
    ensures Flattens(all + SortHits(bucket), buckets + [bucket])
  {
    var more, longer := buckets + [bucket], all + SortHits(bucket);
    hide SortHits, Represents, Sorted;
    SortHitsKeeps(bucket);
    forall x | x in longer ensures Listed(more, x) {
      if x in all {
        var c :| 0 <= c < |buckets| && x in buckets[c];
        assert x in more[c];
      } else {
        assert x in more[|buckets|];
      }
    }
    forall x | Listed(more, x) ensures Represented(longer, x) {
      var c :| 0 <= c < |more| && x in more[c];
      if c < |buckets| {
        assert x in buckets[c];
        assert Listed(buckets, x);
        var y :| y in all && Represents(y, x);
        assert y in longer;
      } else {
        var y :| y in SortHits(bucket) && Represents(y, x);
        assert y in longer;
      }
    }
  }

  ghost predicate Retained(kept: seq<Hit>, hits: seq<Hit>, collisions: seq<Hit>) {
    forall h :: h in kept <==> h in hits && !HasKey(collisions, h)
  }

  /** Keep the hits whose key is no collision's. */
  method RetainOthers(hits: seq<Hit>, collisions: seq<Hit>) returns (kept: seq<Hit>)
    ensures Retained(kept, hits, collisions)
  {
    var keys := set h | h in collisions :: (h.timer, h.fire);
    kept := [];
    for i := 0 to |hits|
      invariant forall h :: h in kept <==> h in hits[..i] && !HasKey(collisions, h)
    {
      assert hits[..i + 1] == hits[..i] + [hits[i]];
      assert (hits[i].timer, hits[i].fire) in keys <==> HasKey(collisions, hits[i]);
      if (hits[i].timer, hits[i].fire) !in keys {
        kept := kept + [hits[i]];
      }
    }
    assert hits[..|hits|] == hits;
  }

  /** `best` holds, per timer, a hit of the smallest |delta|. */
  ghost predicate Nearest(best: map<nat, Hit>, hits: seq<Hit>) {
    && (forall h | h in hits :: h.timer in best && Abs(best[h.timer].delta) <= Abs(h.delta))
    && (forall id | id in best :: best[id] in hits && best[id].timer == id)
  }

  method NearestPerTimer(hits: seq<Hit>) returns (best: map<nat, Hit>)
    ensures Nearest(best, hits)
  {
    best := map[];
    for i := 0 to |hits|
      invariant Nearest(best, hits[..i])
    {
      var h := hits[i];
      assert hits[..i + 1] == hits[..i] + [h];
      if h.timer !in best || Abs(h.delta) < Abs(best[h.timer].delta) {
        best := best[h.timer := h];
      }
    }
    assert hits[..|hits|] == hits;
  }

  predicate OnePerTimer(s: seq<Hit>) { forall i, j | 0 <= i < j < |s| :: s[i].timer != s[j].timer }

  ghost predicate ValuesOf(values: seq<Hit>, best: map<nat, Hit>) {
    forall h :: h in values <==> h.timer in best && best[h.timer] == h
  }

  /** The values of the map, in the map's own order. */
  method Values(best: map<nat, Hit>, ghost hits: seq<Hit>) returns (values: seq<Hit>)
    requires Nearest(best, hits)
    ensures OnePerTimer(values) && ValuesOf(values, best)
  {
    values := [];
    var todo := best.Keys;
    while todo != {}
      invariant todo <= best.Keys && OnePerTimer(values)
      invariant forall h :: h in values <==> h.timer in best && h.timer !in todo && best[h.timer] == h
      decreases |todo|
    {
      var id :| id in todo;
      assert forall j | 0 <= j < |values| :: values[j] in values;
      values, todo := values + [best[id]], todo - {id};
    }
  }

  ghost predicate SameHits(a: seq<Hit>, b: seq<Hit>) { forall h :: h in a <==> h in b }

  /** With one hit per timer the final sort neither loses nor repeats any. */
  lemma SortOnePerTimer(v: seq<Hit>)
    requires OnePerTimer(v)
    ensures OnePerTimer(SortHits(v)) && SameHits(SortHits(v), v) && Sorted(SortHits(v))
  {
    SortHitsKeeps(v);
    SortKeeps(v);
    var s := SortHits(v);
    CoherentSingles(v, Sort(v));
    AdjacentIsFull(Sort(v));
    hide Sort, Dedup, Sorted;
    forall h | h in v ensures h in s {
      assert Represented(s, h);
      var y :| y in s && Represents(y, h);
      SameTimerSame(v, y, h);
    }
    forall i, j | 0 <= i < j < |s| ensures s[i].timer != s[j].timer {
      assert s[i] in s && s[j] in s;
      if s[i].timer == s[j].timer { SameTimerSame(v, s[i], s[j]); }
    }
  }

  lemma SameTimerSame(v: seq<Hit>, a: Hit, b: Hit)
    requires OnePerTimer(v) && a in v && b in v && a.timer == b.timer
    ensures a == b
  {
  }

  lemma CoherentSingles(v: seq<Hit>, s: seq<Hit>)
    requires OnePerTimer(v) && forall x :: x in s <==> x in v
    ensures Coherent(s)
  {
    forall a, b | a in s && b in s && SameKey(a, b) ensures Abs(a.delta) == Abs(b.delta) && a.name == b.name {
      SameTimerSame(v, a, b);
    }
  }

  // -- The query ----------------------------------------------------------

  datatype Response = Response(byCandidate: seq<(int, seq<Hit>, seq<Hit>)>, collisions: seq<Hit>, nearby: seq<Hit>)

  predicate UniqueIds(timers: seq<Timer>) { forall i, j | 0 <= i < j < |timers| :: timers[i].id != timers[j].id }

  lemma BucketHitShape(q: Query, timers: seq<Timer>, cand: int, rel: Relation, h: Hit)
    requires q.cands != [] && h in Bucket(q, timers, cand, rel)
    ensures exists t :: t in timers && h.timer == t.id && h.name == t.name
    ensures Classify(h.delta, q.window) == Some(rel) && h.delta == h.fire - cand
  {
    BucketMembers(q, timers, cand, rel, h);
  }

  /** In one bucket a key fixes the whole hit, so the candidate's sorted list repeats no key. */
  lemma BucketKeysOnce(q: Query, timers: seq<Timer>, cand: int, rel: Relation)
    requires q.cands != [] && UniqueIds(timers)
    ensures DistinctKeys(SortHits(Bucket(q, timers, cand, rel)))
  {
    var v := Bucket(q, timers, cand, rel);
    SortKeeps(v);
    hide Bucket, Sort, Sorted, Dedup, DistinctKeys, Classify;
    forall a, b | a in Sort(v) && b in Sort(v) && SameKey(a, b)
      ensures Abs(a.delta) == Abs(b.delta) && a.name == b.name
    {
      BucketHitShape(q, timers, cand, rel, a);
      BucketHitShape(q, timers, cand, rel, b);
    }
    AdjacentIsFull(Sort(v));
  }

  /** Nearest first, then by name, then by timer, then by second. */
  ghost predicate InOrder(list: seq<Hit>) {
    forall i, j | 0 <= i < j < |list| ::
      var a, b := list[i], list[j];
      var x, y := if a.delta < 0 then -a.delta else a.delta, if b.delta < 0 then -b.delta else b.delta;
      && x <= y
      && (x == y ==> a.name <= b.name)
      && (x == y && a.name == b.name ==> a.timer <= b.timer)
      && (x == y && a.name == b.name && a.timer == b.timer ==> a.fire <= b.fire)
  }

  lemma SortedIsInOrder(list: seq<Hit>)
    requires Sorted(list)
    ensures InOrder(list)
  {
  }

  /** A candidate's list: its bucket in order, each (timer, second) once. */
  ghost predicate ListRight(list: seq<Hit>, bucket: seq<Hit>) {
    InOrder(list) && DistinctKeys(list) && Covers(list, bucket)
  }

  lemma BucketListRight(q: Query, timers: seq<Timer>, cand: int, rel: Relation)
    requires q.cands != [] && UniqueIds(timers)
    ensures ListRight(SortHits(Bucket(q, timers, cand, rel)), Bucket(q, timers, cand, rel))
  {
    hide Bucket, SortHits, Sorted, DistinctKeys, Covers, InOrder;
    BucketKeysOnce(q, timers, cand, rel);
    SortHitsKeeps(Bucket(q, timers, cand, rel));
    SortedIsInOrder(SortHits(Bucket(q, timers, cand, rel)));
  }

  lemma CollisionsCoherent(q: Query, timers: seq<Timer>, buckets: seq<seq<Hit>>)
    requires q.cands != [] && UniqueIds(timers) && |buckets| == |q.cands|
    requires forall c | 0 <= c < |buckets| :: buckets[c] == Bucket(q, timers, q.cands[c], Collision)
    ensures CoherentBuckets(buckets)
  {
    forall x, y | Listed(buckets, x) && Listed(buckets, y) && SameKey(x, y)
      ensures Abs(x.delta) == Abs(y.delta) && x.name == y.name
    {
      var c, d :| 0 <= c < |buckets| && x in buckets[c] && 0 <= d < |buckets| && y in buckets[d];
      BucketHitShape(q, timers, q.cands[c], Collision, x);
      BucketHitShape(q, timers, q.cands[d], Collision, y);
    }
  }

  /** The flat collisions: the (timer, second) pairs that hit some candidate, once each. */
  ghost predicate CollisionsRight(r: Response, collisions: seq<seq<Hit>>) {
    && DistinctKeys(r.collisions) && InOrder(r.collisions)
    && (forall h | h in r.collisions :: Listed(collisions, h))
    && (forall h | Listed(collisions, h) :: HasKey(r.collisions, h))
  }

  /** The nearby panel: per timer the nearest of its hits that collide with no candidate. */
  ghost predicate NearbyRight(r: Response, nearby: seq<seq<Hit>>) {
    && OnePerTimer(r.nearby) && InOrder(r.nearby)
    && (forall h | h in r.nearby :: Listed(nearby, h) && !HasKey(r.collisions, h))
    && (forall h, g | h in r.nearby && Listed(nearby, g) && g.timer == h.timer && !HasKey(r.collisions, g) ::
          Abs(h.delta) <= Abs(g.delta))
    && (forall g | Listed(nearby, g) && !HasKey(r.collisions, g) :: exists h :: h in r.nearby && h.timer == g.timer)
  }

  ghost predicate Buckets(q: Query, timers: seq<Timer>, collisions: seq<seq<Hit>>, nearby: seq<seq<Hit>>)
    requires q.cands != []
  {
    && |collisions| == |nearby| == |q.cands|
    && (forall c | 0 <= c < |q.cands| :: collisions[c] == Bucket(q, timers, q.cands[c], Collision))
    && (forall c | 0 <= c < |q.cands| :: nearby[c] == Bucket(q, timers, q.cands[c], Nearby))
  }

  method RunQuery(q: Query, timers: seq<Timer>)
      returns (r: Response, ghost collisions: seq<seq<Hit>>, ghost nearby: seq<seq<Hit>>)
    requires UniqueIds(timers)
    ensures q.cands == [] ==> r == Response([], [], [])
    ensures q.cands != [] ==>
              && Buckets(q, timers, collisions, nearby)
              && |r.byCandidate| == |q.cands|
              && (forall c | 0 <= c < |q.cands| ::
                    var (cand, hits, others) := r.byCandidate[c];
                    cand == q.cands[c] && ListRight(hits, collisions[c]) && ListRight(others, nearby[c]))
              && CollisionsRight(r, collisions) && NearbyRight(r, nearby)
  {
    hide Bucket, SortHits, DistinctKeys, Sorted, Flattens, CoherentBuckets, Retained, Nearest, ValuesOf, OnePerTimer,
      SameHits, CollisionsRight, NearbyRight, ListRight;
    if q.cands == [] { return Response([], [], []), [], []; }
    var coll, near := FillBuckets(q, timers);
    CollisionsCoherent(q, timers, coll);
    var byCandidate := [];
    for c := 0 to |q.cands|
      invariant |byCandidate| == c
      invariant forall d | 0 <= d < c ::
                  var (cand, hits, others) := byCandidate[d];
                  cand == q.cands[d] && ListRight(hits, coll[d]) && ListRight(others, near[d])
    {
      BucketListRight(q, timers, q.cands[c], Collision);
      BucketListRight(q, timers, q.cands[c], Nearby);
      byCandidate := byCandidate + [(q.cands[c], SortHits(coll[c]), SortHits(near[c]))];
    }
    var allCollisions := FlatList(coll);
    var allNearby := FlatList(near);
    var others := RetainOthers(allNearby, allCollisions);
    var best := NearestPerTimer(others);
    var values := Values(best, others);
    SortOnePerTimer(values);
    r := Response(byCandidate, allCollisions, SortHits(values));
    collisions, nearby := coll, near;
    FlatCollisionsRight(r, coll);
    FlatNearbyRight(r, near, allNearby, others, best, values);
  }

  lemma FlatCollisionsRight(r: Response, collisions: seq<seq<Hit>>)
    requires Flattens(r.collisions, collisions) && DistinctKeys(r.collisions) && Sorted(r.collisions)
    ensures CollisionsRight(r, collisions)
  {
    SortedIsInOrder(r.collisions);
    hide InOrder, Sorted;
    forall h | Listed(collisions, h) ensures HasKey(r.collisions, h) {
      assert Represented(r.collisions, h);
      var y :| y in r.collisions && Represents(y, h);
    }
  }

  lemma FlatNearbyRight(r: Response, nearby: seq<seq<Hit>>, flat: seq<Hit>, others: seq<Hit>, best: map<nat, Hit>,
                        values: seq<Hit>)
    requires Flattens(flat, nearby)
    requires Retained(others, flat, r.collisions) && Nearest(best, others) && ValuesOf(values, best)
    requires OnePerTimer(r.nearby) && SameHits(r.nearby, values) && Sorted(r.nearby)
    ensures NearbyRight(r, nearby)
  {
    hide OnePerTimer, InOrder, Sorted;
    SortedIsInOrder(r.nearby);
    forall g | Listed(nearby, g) && !HasKey(r.collisions, g)
      ensures g.timer in best && best[g.timer] in r.nearby && Abs(best[g.timer].delta) <= Abs(g.delta)
    {
      assert Represented(flat, g);
      var y :| y in flat && Represents(y, g);
      SameKeySameStatus(r.collisions, y, g);
      assert y in others;
    }
  }

  lemma SameKeySameStatus(s: seq<Hit>, y: Hit, g: Hit)
    requires SameKey(y, g)
    ensures HasKey(s, y) <==> HasKey(s, g)
  {
  }

  // -- The answer and the schedule ----------------------------------------

  /** A real fire of a scanned timer. */
  ghost predicate RealFire(q: Query, timers: seq<Timer>, occurs: (nat, int) -> bool, t: Timer, f: int) {
    t in timers && t.enabled && q.exclude != Some(t.id) && occurs(t.id, f)
  }

  predicate ShowsFire(h: Hit, t: Timer, f: int) { h.timer == t.id && h.name == t.name && h.fire == f / 1_000_000_000 }

  /** `x` is no farther from zero than `d`. */
  predicate AsNear(x: int, d: int) { -d <= x <= d || d <= x <= -d }

  /** The timer has 48 fires before `f` and after the start of the window of some candidate, less a second. */
  ghost predicate ManyBefore(q: Query, occurs: (nat, int) -> bool, t: Timer, f: int) {
    exists s: seq<int> ::
      && |s| == 48 && Ascending(s)
      && forall g | g in s ::
           occurs(t.id, g) && g < f && exists c :: c in q.cands && (c - q.window - 1) * 1_000_000_000 < g
  }

  lemma CutOffIsMany(q: Query, occurs: (nat, int) -> bool, t: Timer, f: int)
    requires q.cands != [] && Faithful(q, occurs) && CutOff(q, t, f)
    ensures ManyBefore(q, occurs, t, f)
  {
    var s := q.preview(t.id, After(q), MAX_FIRES_PER_TIMER);
    assert FirstFires(s, g => occurs(t.id, g), After(q), MAX_FIRES_PER_TIMER);
    assert MinOf(q.cands) in q.cands;
  }

  /** The panel's collisions are the real fires on a candidate's second, but for what was cut off. */
  ghost predicate CollisionsAnswer(q: Query, timers: seq<Timer>, occurs: (nat, int) -> bool, r: Response)
    requires q.cands != []
  {
    && (forall h | h in r.collisions ::
          exists t, f :: RealFire(q, timers, occurs, t, f) && ShowsFire(h, t, f) && f / 1_000_000_000 in q.cands)
    && (forall t, f | RealFire(q, timers, occurs, t, f) && f / 1_000_000_000 in q.cands ::
          ManyBefore(q, occurs, t, f) || exists h :: h in r.collisions && ShowsFire(h, t, f))
  }

  /** Fire `f` is on no candidate, and within the window of `cand`. */
  ghost predicate Beside(q: Query, f: int, cand: int) {
    var second := f / 1_000_000_000;
    second !in q.cands && cand in q.cands && cand - q.window <= second <= cand + q.window
  }

  /** A nearby entry is a real fire beside a candidate and on none; each such fire has an entry of its
      timer at least as near, but for what was cut off. */
  ghost predicate NearbyAnswers(q: Query, timers: seq<Timer>, occurs: (nat, int) -> bool, r: Response)
    requires q.cands != []
  {
    && (forall h | h in r.nearby ::
          exists t, f, cand :: RealFire(q, timers, occurs, t, f) && ShowsFire(h, t, f)
                               && Beside(q, f, cand) && h.delta == f / 1_000_000_000 - cand)
    && (forall t, f, cand | RealFire(q, timers, occurs, t, f) && Beside(q, f, cand) ::
          ManyBefore(q, occurs, t, f) || exists h ::
              h in r.nearby && h.timer == t.id && AsNear(h.delta, f / 1_000_000_000 - cand))
  }

  /** A listed hit is the hit of a real fire that was expanded. */
  lemma ListedIsReal(q: Query, timers: seq<Timer>, occurs: (nat, int) -> bool, buckets: seq<seq<Hit>>, rel: Relation,
                     h: Hit)
    requires q.cands != [] && Faithful(q, occurs) && |buckets| == |q.cands| && Listed(buckets, h)
    requires forall c | 0 <= c < |q.cands| :: buckets[c] == Bucket(q, timers, q.cands[c], rel)
    ensures exists t, f, cand ::
        RealFire(q, timers, occurs, t, f) && t in timers && cand in q.cands && ComesFrom(q, h, t, f, cand, rel)
  {
    var c :| 0 <= c < |buckets| && h in buckets[c];
    var cand := q.cands[c];
    BucketMembers(q, timers, cand, rel, h);
    hide Bucket, ExpandFires, Faithful;
    var t, f :| t in timers && ComesFrom(q, h, t, f, cand, rel);
    ExpandedAre(q, t, occurs, f);
  }

  /** The hit of a real fire in relation to a candidate is listed, or the fire was cut off. */
  lemma RealIsListed(q: Query, timers: seq<Timer>, occurs: (nat, int) -> bool, buckets: seq<seq<Hit>>, rel: Relation,
                     t: Timer, f: int, cand: int)
    requires q.cands != [] && Faithful(q, occurs) && |buckets| == |q.cands| && cand in q.cands
    requires forall c | 0 <= c < |q.cands| :: buckets[c] == Bucket(q, timers, q.cands[c], rel)
    requires RealFire(q, timers, occurs, t, f) && Relates(q, t, f, cand, rel)
    ensures Listed(buckets, MakeHit(t, f, cand)) || CutOff(q, t, f)
  {
    hide Bucket, Faithful, CutOff;
    BucketsRefineTheSchedule(q, timers, occurs, cand, rel);
    var c :| 0 <= c < |q.cands| && q.cands[c] == cand;
    assert MakeHit(t, f, cand) in buckets[c] ==> Listed(buckets, MakeHit(t, f, cand));
  }

  /** An expanded fire is listed in each relation it has. */
  lemma ExpandedIsListed(q: Query, timers: seq<Timer>, buckets: seq<seq<Hit>>, rel: Relation, t: Timer, f: int,
                         cand: int)
    requires q.cands != [] && |buckets| == |q.cands| && cand in q.cands && t in timers
    requires forall c | 0 <= c < |q.cands| :: buckets[c] == Bucket(q, timers, q.cands[c], rel)
    requires f in ExpandFires(q, t) && Relates(q, t, f, cand, rel)
    ensures Listed(buckets, MakeHit(t, f, cand))
  {
    hide Bucket, ExpandFires;
    var c :| 0 <= c < |q.cands| && q.cands[c] == cand;
    BucketMembers(q, timers, cand, rel, MakeHit(t, f, cand));
    assert ComesFrom(q, MakeHit(t, f, cand), t, f, cand, rel);
    assert MakeHit(t, f, cand) in buckets[c];
  }

  lemma CollisionsAnswered(q: Query, timers: seq<Timer>, occurs: (nat, int) -> bool, r: Response,
                           collisions: seq<seq<Hit>>)
    requires q.cands != [] && UniqueIds(timers) && Faithful(q, occurs) && |collisions| == |q.cands|
    requires forall c | 0 <= c < |q.cands| :: collisions[c] == Bucket(q, timers, q.cands[c], Collision)
    requires CollisionsRight(r, collisions)
    ensures CollisionsAnswer(q, timers, occurs, r)
  {
    hide Bucket, Faithful, CutOff, Listed, ExpandFires, InOrder, DistinctKeys;
    forall h | h in r.collisions
      ensures exists t, f :: RealFire(q, timers, occurs, t, f) && ShowsFire(h, t, f) && Second(f) in q.cands
    {
      ListedIsReal(q, timers, occurs, collisions, Collision, h);
    }
    forall t, f | RealFire(q, timers, occurs, t, f) && Second(f) in q.cands
      ensures ManyBefore(q, occurs, t, f) || exists h :: h in r.collisions && ShowsFire(h, t, f)
    {
      RealIsListed(q, timers, occurs, collisions, Collision, t, f, Second(f));
      if CutOff(q, t, f) {
        CutOffIsMany(q, occurs, t, f);
      } else {
        var h :| h in r.collisions && SameKey(h, MakeHit(t, f, Second(f)));
        ListedIsReal(q, timers, occurs, collisions, Collision, h);
      }
    }
  }

  lemma NearbyIsReal(q: Query, timers: seq<Timer>, occurs: (nat, int) -> bool, r: Response,
                     collisions: seq<seq<Hit>>, nearby: seq<seq<Hit>>, h: Hit)
    requires q.cands != [] && Faithful(q, occurs) && Buckets(q, timers, collisions, nearby)
    requires CollisionsRight(r, collisions) && Listed(nearby, h) && !HasKey(r.collisions, h)
    ensures exists t, f, cand :: RealFire(q, timers, occurs, t, f) && ShowsFire(h, t, f)
                                 && Beside(q, f, cand) && h.delta == Second(f) - cand
  {
    hide Bucket, Faithful, CutOff, Listed, ExpandFires, InOrder, DistinctKeys;
    ListedIsReal(q, timers, occurs, nearby, Nearby, h);
    var t, f, cand :| RealFire(q, timers, occurs, t, f) && t in timers && cand in q.cands
                      && ComesFrom(q, h, t, f, cand, Nearby);
    if Second(f) in q.cands {
      ExpandedIsListed(q, timers, collisions, Collision, t, f, Second(f));
      SameKeySameStatus(r.collisions, MakeHit(t, f, Second(f)), h);
      assert false;
    }
    assert Beside(q, f, cand);
  }

  lemma NeighbourIsShown(q: Query, timers: seq<Timer>, occurs: (nat, int) -> bool, r: Response,
                         collisions: seq<seq<Hit>>, nearby: seq<seq<Hit>>, t: Timer, f: int, cand: int)
    requires q.cands != [] && Faithful(q, occurs) && Buckets(q, timers, collisions, nearby)
    requires CollisionsRight(r, collisions) && NearbyRight(r, nearby) && CollisionsAnswer(q, timers, occurs, r)
    requires RealFire(q, timers, occurs, t, f) && Beside(q, f, cand)
    ensures ManyBefore(q, occurs, t, f)
            || exists h :: h in r.nearby && h.timer == t.id && AsNear(h.delta, f / 1_000_000_000 - cand)
  {
    hide Bucket, Faithful, CutOff, ManyBefore, Listed, ExpandFires, DistinctKeys, OnePerTimer, InOrder, CollisionsRight,
      CollisionsAnswer, HasKey, Buckets, RealFire;
    var g := MakeHit(t, f, cand);
    NearIsListed(q, timers, occurs, collisions, nearby, t, f, cand);
    NotColliding(q, timers, occurs, r, t, f, cand);
    if CutOff(q, t, f) { CutOffIsMany(q, occurs, t, f); }
  }

  lemma NearIsListed(q: Query, timers: seq<Timer>, occurs: (nat, int) -> bool,
                     collisions: seq<seq<Hit>>, nearby: seq<seq<Hit>>, t: Timer, f: int, cand: int)
    requires q.cands != [] && Faithful(q, occurs) && Buckets(q, timers, collisions, nearby)
    requires RealFire(q, timers, occurs, t, f) && Beside(q, f, cand)
    ensures Listed(nearby, MakeHit(t, f, cand)) || CutOff(q, t, f)
  {
    hide Bucket, Faithful, CutOff, Listed;
    RealIsListed(q, timers, occurs, nearby, Nearby, t, f, cand);
  }

  lemma NotColliding(q: Query, timers: seq<Timer>, occurs: (nat, int) -> bool, r: Response, t: Timer, f: int, cand: int)
    requires q.cands != [] && CollisionsAnswer(q, timers, occurs, r) && Beside(q, f, cand)
    ensures !HasKey(r.collisions, MakeHit(t, f, cand))
  {
    hide ManyBefore, RealFire;
    var g := MakeHit(t, f, cand);
    forall y | y in r.collisions ensures !SameKey(y, g) {
      var x, e :| RealFire(q, timers, occurs, x, e) && ShowsFire(y, x, e) && e / 1_000_000_000 in q.cands;
    }
  }

  /** Main result: with unique timer ids and previews that keep their contract, the answer is about
      the real schedule: its collisions are the real fires on a candidate's second, its nearby
      entries the nearest real fires beside the candidates. */
  lemma AnswerIsTheSchedule(q: Query, timers: seq<Timer>, occurs: (nat, int) -> bool, r: Response,
                            collisions: seq<seq<Hit>>, nearby: seq<seq<Hit>>)
    requires q.cands != [] && UniqueIds(timers) && Faithful(q, occurs) && Buckets(q, timers, collisions, nearby)
    requires CollisionsRight(r, collisions) && NearbyRight(r, nearby)
    ensures CollisionsAnswer(q, timers, occurs, r) && NearbyAnswers(q, timers, occurs, r)
  {
    hide Bucket, Faithful, CollisionsRight, NearbyRight, CollisionsAnswer, NearbyAnswers;
    BucketsApart(q, timers, collisions, nearby);
    CollisionsAnswered(q, timers, occurs, r, collisions);
    NearbyAnswered(q, timers, occurs, r, collisions, nearby);
  }

  lemma BucketsApart(q: Query, timers: seq<Timer>, collisions: seq<seq<Hit>>, nearby: seq<seq<Hit>>)
    requires q.cands != [] && Buckets(q, timers, collisions, nearby)
    ensures |collisions| == |nearby| == |q.cands|
    ensures forall c | 0 <= c < |q.cands| :: collisions[c] == Bucket(q, timers, q.cands[c], Collision)
  {
    hide Bucket;
  }

  lemma NearbyAnswered(q: Query, timers: seq<Timer>, occurs: (nat, int) -> bool, r: Response,
                       collisions: seq<seq<Hit>>, nearby: seq<seq<Hit>>)
    requires q.cands != [] && Faithful(q, occurs) && Buckets(q, timers, collisions, nearby)
    requires CollisionsRight(r, collisions) && NearbyRight(r, nearby) && CollisionsAnswer(q, timers, occurs, r)
    ensures NearbyAnswers(q, timers, occurs, r)
  {
    hide Faithful, Listed, CollisionsRight, CollisionsAnswer, RealFire, ShowsFire, Beside, ManyBefore, Buckets, InOrder,
      OnePerTimer;
    forall h | h in r.nearby
      ensures exists t, f, cand :: RealFire(q, timers, occurs, t, f) && ShowsFire(h, t, f)
                                   && Beside(q, f, cand) && h.delta == f / 1_000_000_000 - cand
    {
      NearbyIsReal(q, timers, occurs, r, collisions, nearby, h);
    }
    forall t, f, cand | RealFire(q, timers, occurs, t, f) && Beside(q, f, cand)
      ensures ManyBefore(q, occurs, t, f)
              || exists h :: h in r.nearby && h.timer == t.id && AsNear(h.delta, f / 1_000_000_000 - cand)
    {
      NeighbourIsShown(q, timers, occurs, r, collisions, nearby, t, f, cand);
    }
  }
}
