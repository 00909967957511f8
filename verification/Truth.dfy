/** The client's calendar truth: recorded entries from past events, merged by run, then upcoming
    fires of the timers where nothing is recorded. Instants are milliseconds, as in `Projection`. */
module Truth {
  import opened Options
  import opened Civil
  import opened DateTexts
  import opened Projection

  datatype Kind = Fired | FiredLate | SkippedMisfire | Coalesced | WakeDelivered | WakeFailed | NoAck | Other

  datatype Outcome = Failed | Skipped | Merged | Late | Delivered | Upcoming

  function KindToOutcome(kind: Kind): Outcome {
    match kind
    case WakeFailed => Failed
    case NoAck => Failed
    case SkippedMisfire => Skipped
    case Coalesced => Merged
    case FiredLate => Late
    case _ => Delivered
  }

  function Rank(o: Outcome): nat {
    match o
    case Failed => 5
    case Skipped => 4
    case Merged => 3
    case Late => 2
    case Delivered => 1
    case Upcoming => 0
  }

  function MergeOutcome(a: Outcome, b: Outcome): Outcome { if Rank(b) >= Rank(a) then b else a }

  /** Ids as the log writes them; an empty or missing one is absent. */
  type Id = string

  /** A log event; `when` is absent if its time cannot be read. */
  datatype Event = Event(kind: Kind, when: Option<int>, timer: Option<Id>, run: Option<Id>)

  /** Reconciliation key: by run, else by timer and second, else the empty string. */
  datatype Key = RunKey(run: Id) | SecondKey(timer: Id, second: int) | EmptyKey

  datatype Entry = Entry(key: Key, timer: Option<Id>, run: Option<Id>, when: int, outcome: Outcome)

  /** The visible days and the current instant. */
  datatype Window = Window(from: int, to: int, now: int)

  predicate Accepted(ev: Event, win: Window) {
    && ev.kind != Other
    && ev.when.Some? && ev.when.value < win.now
    && Shown(ev.when.value / DAY_MS, win.from, win.to)
  }

  function DedupeKey(timer: Option<Id>, instant: int): Key {
    if timer.Some? then SecondKey(timer.value, instant / 1000) else EmptyKey
  }

  function KeyOf(ev: Event): Key
    requires ev.when.Some?
  {
    if ev.run.Some? then RunKey(ev.run.value) else DedupeKey(ev.timer, ev.when.value)
  }

  /** What a new entry adds to the seen keys: its own, and its timer and second. */
  predicate Marks(ev: Event, k: Key)
    requires ev.when.Some?
  {
    k == KeyOf(ev) || (ev.timer.Some? && k == SecondKey(ev.timer.value, ev.when.value / 1000))
  }

  // -- What the recorded entries should be --------------------------------

  predicate Hit(events: seq<Event>, win: Window, i: int, k: Key) {
    0 <= i < |events| && Accepted(events[i], win) && KeyOf(events[i]) == k
  }

  ghost predicate First(events: seq<Event>, win: Window, i: int, k: Key) {
    Hit(events, win, i, k) && forall j | 0 <= j < i :: !Hit(events, win, j, k)
  }

  /** Event `i` opens its run's entry and takes timer and second `k` with it. */
  ghost predicate Claims(events: seq<Event>, win: Window, i: int, k: Key) {
    && 0 <= i < |events| && Accepted(events[i], win) && events[i].run.Some?
    && First(events, win, i, KeyOf(events[i])) && Marks(events[i], k) && k.SecondKey?
  }

  /** A run's entry took key `k` before event `i`. */
  ghost predicate Blocked(events: seq<Event>, win: Window, i: int, k: Key) {
    exists j :: 0 <= j < i && Claims(events, win, j, k)
  }

  /** `o` is the highest-ranked outcome among the events of key `k`. */
  ghost predicate Best(events: seq<Event>, win: Window, k: Key, o: Outcome) {
    && (exists i :: Hit(events, win, i, k) && KindToOutcome(events[i].kind) == o)
    && (forall i | Hit(events, win, i, k) :: Rank(KindToOutcome(events[i].kind)) <= Rank(o))
  }

  ghost predicate Seen(events: seq<Event>, win: Window, k: Key) {
    (exists i :: Hit(events, win, i, k)) || (exists i :: Claims(events, win, i, k))
  }

  /** An entry stands for the first event of its key, with the best outcome of that key. */
  ghost predicate Stands(e: Entry, events: seq<Event>, win: Window) {
    && Best(events, win, e.key, e.outcome)
    && exists i :: First(events, win, i, e.key) && !Blocked(events, win, i, e.key)
                   && events[i].when == Some(e.when) && events[i].timer == e.timer && events[i].run == e.run
  }

  ghost predicate HasEntry(entries: seq<Entry>, k: Key) { exists j :: 0 <= j < |entries| && entries[j].key == k }

  ghost predicate Recorded(entries: seq<Entry>, seen: set<Key>, events: seq<Event>, win: Window) {
    && (forall k :: k in seen <==> Seen(events, win, k))
    && (forall i, j | 0 <= i < j < |entries| :: entries[i].key != entries[j].key)
    && (forall j | 0 <= j < |entries| :: Stands(entries[j], events, win))
    && (forall i, k | First(events, win, i, k) && !Blocked(events, win, i, k) :: HasEntry(entries, k))
  }

  // -- One more event -----------------------------------------------------

  /** Facts about the earlier events survive when one more arrives. */
  lemma OneMore(es: seq<Event>, ev: Event, win: Window)
    ensures var more := es + [ev];
      && (forall i, k | i < |es| :: Hit(more, win, i, k) <==> Hit(es, win, i, k))
      && (forall i, k | i < |es| :: First(more, win, i, k) <==> First(es, win, i, k))
      && (forall i, k | i < |es| :: Claims(more, win, i, k) <==> Claims(es, win, i, k))
      && (forall i, k | i <= |es| :: Blocked(more, win, i, k) <==> Blocked(es, win, i, k))
  {
    hide Shown;
    var more := es + [ev];
    forall i, k | i < |es| ensures Hit(more, win, i, k) <==> Hit(es, win, i, k) {}
    forall i, k | i < |es| ensures First(more, win, i, k) <==> First(es, win, i, k) { FirstStays(es, ev, win, i, k); }
    forall i, k | i < |es| ensures Claims(more, win, i, k) <==> Claims(es, win, i, k) {
      if 0 <= i { assert more[i] == es[i]; if es[i].when.Some? { FirstStays(es, ev, win, i, KeyOf(es[i])); } }
    }
    hide Claims;
    forall i, k | i <= |es| ensures Blocked(more, win, i, k) <==> Blocked(es, win, i, k) {}
  }

  lemma FirstStays(es: seq<Event>, ev: Event, win: Window, i: int, k: Key)
    requires i < |es|
    ensures First(es + [ev], win, i, k) <==> First(es, win, i, k)
  {
    hide Shown;
    assert forall j | j < |es| :: Hit(es + [ev], win, j, k) <==> Hit(es, win, j, k);
    hide Hit;
  }

  /** The new event contributes at its own place and nowhere else. */
  lemma NewHit(es: seq<Event>, ev: Event, win: Window, k: Key)
    ensures Hit(es + [ev], win, |es|, k) <==> Accepted(ev, win) && KeyOf(ev) == k
    ensures First(es + [ev], win, |es|, k) <==> Accepted(ev, win) && KeyOf(ev) == k && forall j :: !Hit(es, win, j, k)
    ensures Claims(es + [ev], win, |es|, k) <==>
              Accepted(ev, win) && ev.run.Some? && Marks(ev, k) && k.SecondKey? && forall j ::
                  !Hit(es, win, j, KeyOf(ev))
  {
    hide Shown;
    assert forall j, x | j < |es| :: Hit(es + [ev], win, j, x) <==> Hit(es, win, j, x);
  }

  lemma SeenGrows(es: seq<Event>, ev: Event, win: Window, k: Key)
    ensures Seen(es + [ev], win, k) <==>
              Seen(es, win, k) || Hit(es + [ev], win, |es|, k) || Claims(es + [ev], win, |es|, k)
  {
    hide Shown;
    OneMore(es, ev, win);
    hide Claims, Hit, First, Blocked;
    var more := es + [ev];
    if i :| Hit(more, win, i, k) { HitInside(more, win, i, k); if i < |es| { assert Hit(es, win, i, k); } }
    if i :| Claims(more, win, i, k) { ClaimInside(more, win, i, k); if i < |es| { assert Claims(es, win, i, k); } }
    if i :| Hit(es, win, i, k) { HitInside(es, win, i, k); assert Hit(more, win, i, k); }
    if i :| Claims(es, win, i, k) { ClaimInside(es, win, i, k); assert Claims(more, win, i, k); }
  }

  lemma HitInside(es: seq<Event>, win: Window, i: int, k: Key)
    requires Hit(es, win, i, k)
    ensures 0 <= i < |es|
  {
  }

  lemma ClaimInside(es: seq<Event>, win: Window, i: int, k: Key)
    requires Claims(es, win, i, k)
    ensures 0 <= i < |es|
  {
  }

  /** An entry whose key the new event does not have keeps standing. */
  lemma StandsStill(e: Entry, es: seq<Event>, ev: Event, win: Window)
    requires Stands(e, es, win) && !Hit(es + [ev], win, |es|, e.key)
    ensures Stands(e, es + [ev], win)
  {
    hide Shown;
    OneMore(es, ev, win);
    var more := es + [ev];
    hide Claims, Blocked;
    var i :| First(es, win, i, e.key) && !Blocked(es, win, i, e.key) && es[i].when == Some(e.when)
        && es[i].timer == e.timer && es[i].run == e.run;
    assert First(more, win, i, e.key) && more[i] == es[i];
    var b :| Hit(es, win, b, e.key) && KindToOutcome(es[b].kind) == e.outcome;
    assert Hit(more, win, b, e.key);
    forall j | Hit(more, win, j, e.key) ensures Rank(KindToOutcome(more[j].kind)) <= Rank(e.outcome) {
      assert j < |es|;
      assert Hit(es, win, j, e.key);
    }
  }

  // -- The four ways the loop handles an event ----------------------------

  lemma Ignored(entries: seq<Entry>, seen: set<Key>, es: seq<Event>, ev: Event, win: Window)
    requires Recorded(entries, seen, es, win) && !Accepted(ev, win)
    ensures Recorded(entries, seen, es + [ev], win)
  {
    hide Shown;
    var more := es + [ev];
    OneMore(es, ev, win);
    forall k ensures !Hit(more, win, |es|, k) && !Claims(more, win, |es|, k) { NewHit(es, ev, win, k); }
    Carried(entries, seen, es, ev, win);
  }

  /** Nothing new was claimed and no new entry is due: the entries of other keys carry over. */
  lemma Carried(entries: seq<Entry>, seen: set<Key>, es: seq<Event>, ev: Event, win: Window)
    requires Recorded(entries, seen, es, win)
    requires forall k :: !Claims(es + [ev], win, |es|, k)
    requires forall k | Hit(es + [ev], win, |es|, k) :: k in seen
    requires forall k | Hit(es + [ev], win, |es|, k) :: !HasEntry(entries, k)
    requires forall k | First(es + [ev], win, |es|, k) :: Blocked(es, win, |es|, k)
    ensures Recorded(entries, seen, es + [ev], win)
  {
    hide Shown;
    var more := es + [ev];
    OneMore(es, ev, win);
    hide Hit, First, Claims, Blocked, Stands, Seen;
    forall k ensures k in seen <==> Seen(more, win, k) { SeenGrows(es, ev, win, k); }
    forall j | 0 <= j < |entries| ensures Stands(entries[j], more, win) {
      assert HasEntry(entries, entries[j].key);
      StandsStill(entries[j], es, ev, win);
    }
    forall i, k | First(more, win, i, k) && !Blocked(more, win, i, k) ensures HasEntry(entries, k) {
      FirstInside(more, win, i, k);
      if i < |es| { assert First(es, win, i, k) && !Blocked(es, win, i, k); }
    }
  }

  lemma FirstInside(es: seq<Event>, win: Window, i: int, k: Key)
    requires First(es, win, i, k)
    ensures 0 <= i < |es|
  {
  }

  /** An accepted event whose key is seen but has no entry is dropped. */
  lemma DroppedEvent(entries: seq<Entry>, seen: set<Key>, es: seq<Event>, ev: Event, win: Window)
    requires Recorded(entries, seen, es, win) && Accepted(ev, win)
    requires KeyOf(ev) in seen && !HasEntry(entries, KeyOf(ev))
    ensures Recorded(entries, seen, es + [ev], win)
  {
    hide Shown;
    SeenWithoutEntry(entries, seen, es, ev, win);
    Carried(entries, seen, es, ev, win);
  }

  lemma SeenWithoutEntry(entries: seq<Entry>, seen: set<Key>, es: seq<Event>, ev: Event, win: Window)
    requires Recorded(entries, seen, es, win) && Accepted(ev, win) && KeyOf(ev) in seen
    ensures forall k :: Hit(es + [ev], win, |es|, k) <==> k == KeyOf(ev)
    ensures forall k :: !Claims(es + [ev], win, |es|, k)
    ensures forall k | First(es + [ev], win, |es|, k) :: Blocked(es, win, |es|, k)
  {
    hide Shown;
    var k0 := KeyOf(ev);
    assert Seen(es, win, k0);
    forall k ensures Hit(es + [ev], win, |es|, k) <==> k == k0 { NewHit(es, ev, win, k); }
    forall k ensures !Claims(es + [ev], win, |es|, k) {
      NewHit(es, ev, win, k);
      if ev.run.Some? { RunKeySeenByHit(es, win, ev.run.value); }
    }
    forall k | First(es + [ev], win, |es|, k) ensures Blocked(es, win, |es|, k) {
      NewHit(es, ev, win, k);
      var i :| Claims(es, win, i, k0);
    }
  }

  /** Only run events carry a run key. */
  lemma RunKeySeenByHit(es: seq<Event>, win: Window, r: Id)
    ensures Seen(es, win, RunKey(r)) ==> exists i :: Hit(es, win, i, RunKey(r))
  {
  }

  lemma MergedEvent(entries: seq<Entry>, seen: set<Key>, es: seq<Event>, ev: Event, win: Window, j: nat)
    requires Recorded(entries, seen, es, win) && Accepted(ev, win)
    requires KeyOf(ev) in seen && j < |entries| && entries[j].key == KeyOf(ev)
    ensures var e := entries[j].(outcome := MergeOutcome(entries[j].outcome, KindToOutcome(ev.kind)));
      Recorded(entries[j := e], seen, es + [ev], win)
  {
    hide Shown;
    var more := es + [ev];
    var k0 := KeyOf(ev);
    var e := entries[j].(outcome := MergeOutcome(entries[j].outcome, KindToOutcome(ev.kind)));
    var entries' := entries[j := e];
    OneMore(es, ev, win);
    SeenWithoutEntry(entries, seen, es, ev, win);
    hide Hit, First, Claims, Blocked, Stands, Seen, MergeOutcome, KindToOutcome, Accepted, HasEntry;
    assert Stands(entries[j], es, win);
    MergedStands(entries[j], es, ev, win);
    forall k ensures k in seen <==> Seen(more, win, k) { SeenGrows(es, ev, win, k); }
    forall i | 0 <= i < |entries'| ensures Stands(entries'[i], more, win) {
      if i != j {
        assert entries[i].key != k0 && Stands(entries[i], es, win);
        StandsStill(entries[i], es, ev, win);
      }
    }
    SameKeys(entries, entries');
    forall i, k | First(more, win, i, k) && !Blocked(more, win, i, k) ensures HasEntry(entries', k) {
      FirstInside(more, win, i, k);
      if i < |es| { assert First(es, win, i, k) && !Blocked(es, win, i, k); }
    }
  }

  lemma SameKeys(entries: seq<Entry>, entries': seq<Entry>)
    requires |entries'| == |entries| && forall i | 0 <= i < |entries| :: entries'[i].key == entries[i].key
    ensures forall k :: HasEntry(entries', k) <==> HasEntry(entries, k)
  {
    forall k ensures HasEntry(entries', k) <==> HasEntry(entries, k) {
      if i :| 0 <= i < |entries| && entries[i].key == k { assert entries'[i].key == k; }
      if i :| 0 <= i < |entries| && entries'[i].key == k { assert entries[i].key == k; }
    }
  }

  /** Merging the outcome of a further event keeps the best. */
  lemma MergedStands(e: Entry, es: seq<Event>, ev: Event, win: Window)
    requires Stands(e, es, win) && Accepted(ev, win) && KeyOf(ev) == e.key
    ensures Stands(e.(outcome := MergeOutcome(e.outcome, KindToOutcome(ev.kind))), es + [ev], win)
  {
    hide Shown;
    var more := es + [ev];
    var o := MergeOutcome(e.outcome, KindToOutcome(ev.kind));
    OneMore(es, ev, win);
    NewHit(es, ev, win, e.key);
    hide Claims, Blocked;
    var i :| First(es, win, i, e.key) && !Blocked(es, win, i, e.key) && es[i].when == Some(e.when)
             && es[i].timer == e.timer && es[i].run == e.run;
    assert First(more, win, i, e.key) && more[i] == es[i];
    var b :| Hit(es, win, b, e.key) && KindToOutcome(es[b].kind) == e.outcome;
    assert Hit(more, win, b, e.key) && Hit(more, win, |es|, e.key);
    assert KindToOutcome(more[b].kind) == e.outcome && more[|es|] == ev;
    NothingRanksHigher(e, es, ev, win);
  }

  lemma NothingRanksHigher(e: Entry, es: seq<Event>, ev: Event, win: Window)
    requires Stands(e, es, win) && Accepted(ev, win) && KeyOf(ev) == e.key
    ensures forall h | Hit(es + [ev], win, h, e.key) ::
        Rank(KindToOutcome((es + [ev])[h].kind)) <= Rank(MergeOutcome(e.outcome, KindToOutcome(ev.kind)))
  {
    hide Shown, First, Claims, Blocked;
    var more := es + [ev];
    forall h | Hit(more, win, h, e.key)
      ensures Rank(KindToOutcome(more[h].kind)) <= Rank(MergeOutcome(e.outcome, KindToOutcome(ev.kind)))
    {
      if h < |es| { assert Hit(es, win, h, e.key); }
    }
  }

  function FromEvent(ev: Event): Entry
    requires ev.when.Some?
  {
    Entry(KeyOf(ev), ev.timer, ev.run, ev.when.value, KindToOutcome(ev.kind))
  }

  function NewMarks(ev: Event): set<Key>
    requires ev.when.Some?
  {
    {KeyOf(ev)} + if ev.timer.Some? then {DedupeKey(ev.timer, ev.when.value)} else {}
  }

  lemma OpenedEvent(entries: seq<Entry>, seen: set<Key>, es: seq<Event>, ev: Event, win: Window)
    requires Recorded(entries, seen, es, win) && Accepted(ev, win) && KeyOf(ev) !in seen
    ensures Recorded(entries + [FromEvent(ev)], seen + NewMarks(ev), es + [ev], win)
  {
    hide Shown, Hit, First, Claims, Blocked, Seen, Stands, HasEntry, KeyOf, NewMarks, FromEvent;
    var more, k0 := es + [ev], KeyOf(ev);
    var entries' := entries + [FromEvent(ev)];
    FromEventKey(ev);
    forall k ensures k in seen + NewMarks(ev) <==> Seen(more, win, k) { OpenedSeen(es, ev, win, k); }
    OpenedStands(es, ev, win);
    forall j | 0 <= j < |entries| ensures entries[j].key != k0 && Stands(entries[j], more, win) {
      assert Stands(entries[j], es, win);
      StandsUnseen(entries[j], es, ev, win);
    }
    OneMore(es, ev, win);
    forall i, k | First(more, win, i, k) && !Blocked(more, win, i, k) ensures HasEntry(entries', k) {
      FirstInside(more, win, i, k);
      NewHit(es, ev, win, k);
      EntryStays(entries, FromEvent(ev), k);
      assert i < |es| ==> First(es, win, i, k) && !Blocked(es, win, i, k);
    }
  }

  lemma FromEventKey(ev: Event)
    requires ev.when.Some?
    ensures FromEvent(ev).key == KeyOf(ev)
  {
  }

  lemma EntryStays(entries: seq<Entry>, e: Entry, k: Key)
    ensures HasEntry(entries + [e], k) <==> HasEntry(entries, k) || e.key == k
  {
    var more := entries + [e];
    if i :| 0 <= i < |entries| && entries[i].key == k { assert more[i].key == k; }
    assert more[|entries|] == e;
  }

  /** An accepted event under a key not seen before marks its key, and the second of its timer. */
  lemma OpenedSeen(es: seq<Event>, ev: Event, win: Window, k: Key)
    requires Accepted(ev, win) && !Seen(es, win, KeyOf(ev))
    ensures Seen(es + [ev], win, k) <==> Seen(es, win, k) || k in NewMarks(ev)
  {
    hide Shown;
    Unseen(es, win, KeyOf(ev));
    SeenGrows(es, ev, win, k);
    NewHit(es, ev, win, k);
    hide Seen, Hit, Claims;
  }

  lemma StandsUnseen(e: Entry, es: seq<Event>, ev: Event, win: Window)
    requires Stands(e, es, win) && Accepted(ev, win) && !Seen(es, win, KeyOf(ev))
    ensures e.key != KeyOf(ev) && Stands(e, es + [ev], win)
  {
    hide Shown;
    Unseen(es, win, KeyOf(ev));
    NewHit(es, ev, win, e.key);
    var i :| First(es, win, i, e.key);
    assert Hit(es, win, i, e.key);
    StandsStill(e, es, ev, win);
  }

  lemma Unseen(es: seq<Event>, win: Window, k: Key)
    requires !Seen(es, win, k)
    ensures forall j :: !Hit(es, win, j, k)
    ensures forall i :: !Blocked(es, win, i, k)
  {
  }

  lemma OpenedStands(es: seq<Event>, ev: Event, win: Window)
    requires Accepted(ev, win) && !Seen(es, win, KeyOf(ev))
    ensures Stands(FromEvent(ev), es + [ev], win)
  {
    hide Shown;
    var more, k0 := es + [ev], KeyOf(ev);
    OneMore(es, ev, win);
    Unseen(es, win, k0);
    NewHit(es, ev, win, k0);
    hide Claims, Blocked;
    assert First(more, win, |es|, k0) && !Blocked(more, win, |es|, k0) && more[|es|] == ev;
    assert Hit(more, win, |es|, k0);
    assert forall h | h < |es| :: Hit(more, win, h, k0) <==> Hit(es, win, h, k0);
  }

  // -- The loops ----------------------------------------------------------

  /** `entries.find` by key; the length if there is none. */
  method FindKey(entries: seq<Entry>, k: Key) returns (j: nat)
    ensures j <= |entries| && (j < |entries| ==> entries[j].key == k) && (j == |entries| ==> !HasEntry(entries, k))
  {
    j := 0;
    while j < |entries| && entries[j].key != k
      invariant j <= |entries| && forall i | 0 <= i < j :: entries[i].key != k
    {
      j := j + 1;
    }
  }

  method Record(events: seq<Event>, win: Window) returns (entries: seq<Entry>, seen: set<Key>)
    ensures Recorded(entries, seen, events, win)
  {
    hide Shown;
    entries, seen := [], {};
    var n := 0;
    assert events[..0] == [];
    hide Accepted;
    while n < |events|
      invariant n <= |events| && Recorded(entries, seen, events[..n], win)
    {
      hide Recorded, HasEntry, KeyOf, MergeOutcome, KindToOutcome;
      var ev := events[n];
      assert events[..n + 1] == events[..n] + [ev];
      if !Accepted(ev, win) {
        Ignored(entries, seen, events[..n], ev, win);
      } else {
        AcceptedHasTime(ev, win);
        var key := KeyOf(ev);
        if key in seen {
          var j := FindKey(entries, key);
          if j < |entries| {
            MergedEvent(entries, seen, events[..n], ev, win, j);
            entries := entries[j := entries[j].(outcome := MergeOutcome(entries[j].outcome, KindToOutcome(ev.kind)))];
          } else {
            DroppedEvent(entries, seen, events[..n], ev, win);
          }
        } else {
          OpenedEvent(entries, seen, events[..n], ev, win);
          seen := seen + NewMarks(ev);
          entries := entries + [FromEvent(ev)];
        }
      }
      n := n + 1;
    }
    assert events[..|events|] == events;
  }

  lemma AcceptedHasTime(ev: Event, win: Window)
    requires Accepted(ev, win)
    ensures ev.when.Some?
  {
  }

  datatype Timer = Timer(id: Id, occ: Occurrence)

  datatype Next = Next(timer: Id, fire: Fire)

  function NextKey(n: Next): Key { SecondKey(n.timer, n.fire.instant / 1000) }

  /** Projected by one of the timers, and its timer and second are not taken by a recorded entry. */
  ghost predicate Due(n: Next, timers: seq<Timer>, seen: set<Key>, win: Window) {
    && NextKey(n) !in seen
    && exists i ::
        0 <= i < |timers| && timers[i].id == n.timer && Projects(timers[i].occ, win.from, win.to, win.now, n.fire)
  }

  method Project(timers: seq<Timer>, seen: set<Key>, win: Window) returns (upcoming: seq<Next>)
    requires win.from >= FIRST_DATE && win.to >= FIRST_DATE
    ensures forall n :: n in upcoming <==> Due(n, timers, seen, win)
  {
    hide Shown, Projects, Due, Walked, Recurs, Ascending, NextKey, Picked, ListsDue;
    NothingDue(seen, win);
    upcoming := [];
    for i := 0 to |timers|
      invariant ListsDue(upcoming, timers[..i], seen, win)
    {
      var t := timers[i];
      var fires := ProjectTimer(t.occ, win.from, win.to, win.now);
      ghost var before := upcoming;
      NothingPicked(before, t.id, seen);
      for j := 0 to |fires|
        invariant Picked(upcoming, before, t.id, fires[..j], seen)
      {
        PickFire(upcoming, before, t.id, fires[..j], fires[j], seen);
        assert fires[..j + 1] == fires[..j] + [fires[j]];
        var next := Next(t.id, fires[j]);
        if NextKey(next) !in seen {
          upcoming := upcoming + [next];
        }
      }
      assert fires[..|fires|] == fires;
      TimerPicked(upcoming, before, timers[..i], t, fires, seen, win);
      assert timers[..i + 1] == timers[..i] + [t];
    }
    assert timers[..|timers|] == timers;
    ListedAreDue(upcoming, timers, seen, win);
  }

  ghost predicate ListsDue(upcoming: seq<Next>, timers: seq<Timer>, seen: set<Key>, win: Window) {
    forall n :: n in upcoming <==> Due(n, timers, seen, win)
  }

  lemma ListedAreDue(upcoming: seq<Next>, timers: seq<Timer>, seen: set<Key>, win: Window)
    requires ListsDue(upcoming, timers, seen, win)
    ensures forall n :: n in upcoming <==> Due(n, timers, seen, win)
  {
    hide Due;
  }

  lemma NothingDue(seen: set<Key>, win: Window)
    ensures ListsDue([], [], seen, win)
  {
    NoTimer(seen, win);
    hide Due;
  }

  /** The list grew by those of a timer's fires that no recorded entry took. */
  ghost predicate Picked(upcoming: seq<Next>, before: seq<Next>, id: Id, fires: seq<Fire>, seen: set<Key>) {
    forall n :: n in upcoming <==> n in before || (n.timer == id && n.fire in fires && NextKey(n) !in seen)
  }

  lemma NothingPicked(before: seq<Next>, id: Id, seen: set<Key>)
    ensures Picked(before, before, id, [], seen)
  {
  }

  lemma PickFire(upcoming: seq<Next>, before: seq<Next>, id: Id, fires: seq<Fire>, f: Fire, seen: set<Key>)
    requires Picked(upcoming, before, id, fires, seen)
    ensures Picked(if NextKey(Next(id, f)) !in seen then upcoming + [Next(id, f)] else upcoming,
                   before, id, fires + [f], seen)
  {
    hide NextKey;
  }

  lemma TimerPicked(upcoming: seq<Next>, before: seq<Next>, timers: seq<Timer>, t: Timer, fires: seq<Fire>,
                    seen: set<Key>, win: Window)
    requires Picked(upcoming, before, t.id, fires, seen)
    requires ListsDue(before, timers, seen, win)
    requires forall f :: f in fires <==> Projects(t.occ, win.from, win.to, win.now, f)
    ensures ListsDue(upcoming, timers + [t], seen, win)
  {
    hide Projects, Due, NextKey;
    forall n ensures n in upcoming <==> Due(n, timers + [t], seen, win) { OneMoreTimer(n, timers, t, seen, win); }
  }

  lemma NoTimer(seen: set<Key>, win: Window)
    ensures forall n :: !Due(n, [], seen, win)
  {
  }

  lemma OneMoreTimer(n: Next, timers: seq<Timer>, t: Timer, seen: set<Key>, win: Window)
    ensures Due(n, timers + [t], seen, win) <==>
              Due(n, timers, seen, win)
              || (n.timer == t.id && Projects(t.occ, win.from, win.to, win.now, n.fire) && NextKey(n) !in seen)
  {
    hide Shown, Projects;
    var more := timers + [t];
    if i :| 0 <= i < |timers| && timers[i].id == n.timer && Projects(timers[i].occ, win.from, win.to, win.now, n.fire) {
      assert more[i] == timers[i];
    }
    assert more[|timers|] == t;
  }

  /** The client-side merge; the caller's list is these two, sorted for display. */
  method BuildClientTruth(timers: seq<Timer>, events: seq<Event>, win: Window)
    returns (entries: seq<Entry>, upcoming: seq<Next>, seen: set<Key>)
    requires win.from >= FIRST_DATE && win.to >= FIRST_DATE
    ensures Recorded(entries, seen, events, win)
    ensures forall n :: n in upcoming <==> Due(n, timers, seen, win)
  {
    hide Shown;
    entries, seen := Record(events, win);
    hide Recorded, Due;
    upcoming := Project(timers, seen, win);
  }

  // -- Main results -------------------------------------------------------

  /** If its year has as many digits as the years of the window, the day lies in the window. */
  predicate InWindow(d: int, win: Window) {
    SameDigits(YearOf(d), YearOf(win.from)) && SameDigits(YearOf(d), YearOf(win.to)) ==> win.from <= d <= win.to
  }

  lemma ShownIsInWindow(d: int, win: Window)
    requires Shown(d, win.from, win.to)
    ensures InWindow(d, win)
  {
    hide Shown, SameDigits;
    if SameDigits(YearOf(d), YearOf(win.from)) && SameDigits(YearOf(d), YearOf(win.to)) {
      ShownInRange(d, win.from, win.to);
    }
  }

  /** Recorded entries lie strictly before now and upcoming ones strictly after, all shown by the
      window's texts, and no upcoming entry shares timer and second with a recorded one. */
  lemma PastAndFuture(entries: seq<Entry>, seen: set<Key>, events: seq<Event>, timers: seq<Timer>, win: Window,
                      j: nat, n: Next)
    requires Recorded(entries, seen, events, win) && j < |entries| && Due(n, timers, seen, win)
    ensures entries[j].when < win.now < n.fire.instant
    ensures Shown(entries[j].when / DAY_MS, win.from, win.to) && Shown(n.fire.day, win.from, win.to)
    ensures InWindow(entries[j].when / DAY_MS, win) && InWindow(n.fire.day, win)
    ensures !(entries[j].timer == Some(n.timer) && entries[j].when / 1000 == n.fire.instant / 1000)
  {
    hide Shown, Copy, Names, InWindow, YearOf;
    var e := entries[j];
    assert Stands(e, events, win);
    EntrySecondSeen(e, events, win);
    EntryAccepted(e, events, win);
    ShownIsInWindow(e.when / DAY_MS, win);
    ShownIsInWindow(n.fire.day, win);
  }

  lemma EntryAccepted(e: Entry, events: seq<Event>, win: Window)
    requires Stands(e, events, win)
    ensures e.when < win.now && Shown(e.when / DAY_MS, win.from, win.to)
  {
    hide Shown;
    var i :| First(events, win, i, e.key) && events[i].when == Some(e.when);
    assert Hit(events, win, i, e.key);
  }

  /** Main result: where a year of the page gets a digit more, as in December 9999, the page is empty,
      whatever is recorded and whatever is scheduled. */
  lemma EmptyPage(entries: seq<Entry>, seen: set<Key>, events: seq<Event>, timers: seq<Timer>, win: Window,
                  upcoming: seq<Next>)
    requires IsPage(win.from, win.to) && !SameDigits(YearOf(win.from), YearOf(win.to))
    requires Recorded(entries, seen, events, win) && forall n :: n in upcoming <==> Due(n, timers, seen, win)
    ensures entries == [] && upcoming == []
  {
    hide Shown, IsPage, SameDigits, YearOf, Copy, Names;
    if entries != [] {
      assert Stands(entries[0], events, win);
      EntryAccepted(entries[0], events, win);
      NothingShown(entries[0].when / DAY_MS, win.from, win.to);
    }
    if upcoming != [] {
      assert upcoming[0] in upcoming;
      NothingShown(upcoming[0].fire.day, win.from, win.to);
    }
  }

  lemma EntrySecondSeen(e: Entry, events: seq<Event>, win: Window)
    requires Stands(e, events, win)
    ensures e.timer.Some? ==> Seen(events, win, SecondKey(e.timer.value, e.when / 1000))
  {
    hide Shown;
    var i :| First(events, win, i, e.key) && events[i].when == Some(e.when) && events[i].timer == e.timer
        && events[i].run == e.run;
    if e.timer.Some? && e.run.Some? {
      assert Claims(events, win, i, SecondKey(e.timer.value, e.when / 1000));
    }
  }

  /** Some event of a key is its first. */
  lemma {:induction false} FirstExists(events: seq<Event>, win: Window, i: nat, k: Key)
    requires Hit(events, win, i, k)
    ensures exists m :: First(events, win, m, k)
    decreases i
  {
    hide Shown;
    if j: nat :| j < i && Hit(events, win, j, k) {
      FirstExists(events, win, j, k);
    } else {
      assert First(events, win, i, k);
    }
  }

  /** Each run with an accepted event has exactly one entry, and its outcome is the highest-ranked
      one among all its accepted events. */
  lemma OneEntryPerRun(entries: seq<Entry>, seen: set<Key>, events: seq<Event>, win: Window, i: nat, r: Id)
    requires Recorded(entries, seen, events, win)
    requires i < |events| && Accepted(events[i], win) && events[i].run == Some(r)
    ensures exists j ::
        0 <= j < |entries| && entries[j].run == Some(r) && Best(events, win, RunKey(r), entries[j].outcome)
    ensures forall j, l | 0 <= j < |entries| && 0 <= l < |entries| && entries[j].run == Some(r)
        && entries[l].run == Some(r) :: j == l
  {
    hide Shown;
    FirstExists(events, win, i, RunKey(r));
    var m :| First(events, win, m, RunKey(r));
    assert !Blocked(events, win, m, RunKey(r));
    assert HasEntry(entries, RunKey(r));
    forall j | 0 <= j < |entries| ensures entries[j].key == RunKey(r) <==> entries[j].run == Some(r) {
      EntryKeyIsItsOwn(entries[j], events, win);
    }
    var j :| 0 <= j < |entries| && entries[j].key == RunKey(r);
    assert Stands(entries[j], events, win);
    hide Best, First, Blocked;
  }

  /** Some accepted event of key `k` is of this kind. */
  ghost predicate Heard(events: seq<Event>, win: Window, k: Key, kind: Kind) {
    exists i :: Hit(events, win, i, k) && events[i].kind == kind
  }

  /** The highest-ranked outcome of a key, by the kinds of its events. */
  lemma BestByKinds(events: seq<Event>, win: Window, k: Key, o: Outcome)
    requires Best(events, win, k, o)
    ensures o == if Heard(events, win, k, WakeFailed) || Heard(events, win, k, NoAck) then Failed
                 else if Heard(events, win, k, SkippedMisfire) then Skipped
                 else if Heard(events, win, k, Coalesced) then Merged
                 else if Heard(events, win, k, FiredLate) then Late
                 else Delivered
    ensures exists kind :: kind != Other && Heard(events, win, k, kind)
  {
    hide Shown, KeyOf;
    var b :| Hit(events, win, b, k) && KindToOutcome(events[b].kind) == o;
    assert Accepted(events[b], win);
    assert Heard(events, win, k, events[b].kind);
    forall kind | Heard(events, win, k, kind) ensures Rank(KindToOutcome(kind)) <= Rank(o) {
      var i :| Hit(events, win, i, k) && events[i].kind == kind;
    }
    hide Hit, Accepted, Best, Heard;
  }

  /** The log says `kind` of run `r`, before now and on a shown date. */
  ghost predicate Said(events: seq<Event>, win: Window, r: Id, kind: Kind) {
    exists i :: 0 <= i < |events| && events[i].run == Some(r) && events[i].kind == kind
                && events[i].when.Some? && events[i].when.value < win.now
                && Shown(events[i].when.value / 86_400_000, win.from, win.to)
  }

  /** Main result: a run has an entry exactly when the log says one of the seven outcome kinds of it, and
      the entry says failed if any of these is a failure or a missing acknowledgement, else skipped,
      merged or late if one of them is, else delivered. */
  lemma RunOutcomeByKinds(entries: seq<Entry>, seen: set<Key>, events: seq<Event>, win: Window, r: Id)
    requires Recorded(entries, seen, events, win)
    ensures (exists j :: 0 <= j < |entries| && entries[j].run == Some(r)) <==>
              (|| Said(events, win, r, Fired) || Said(events, win, r, FiredLate) || Said(events, win, r, SkippedMisfire)
               || Said(events, win, r, Coalesced) || Said(events, win, r, WakeDelivered)
               || Said(events, win, r, WakeFailed) || Said(events, win, r, NoAck))
    ensures forall j | 0 <= j < |entries| && entries[j].run == Some(r) ::
        entries[j].outcome ==
          if Said(events, win, r, WakeFailed) || Said(events, win, r, NoAck) then Failed
          else if Said(events, win, r, SkippedMisfire) then Skipped
          else if Said(events, win, r, Coalesced) then Merged
          else if Said(events, win, r, FiredLate) then Late
          else Delivered
  {
    hide Recorded, Said, Shown, Heard, Hit, Best, Accepted;
    forall kind | kind != Other ensures Heard(events, win, RunKey(r), kind) <==> Said(events, win, r, kind) {
      SaidIsHeard(events, win, r, kind);
    }
    forall j | 0 <= j < |entries| && entries[j].run == Some(r)
      ensures exists kind :: kind != Other && Said(events, win, r, kind)
      ensures entries[j].outcome ==
          if Said(events, win, r, WakeFailed) || Said(events, win, r, NoAck) then Failed
          else if Said(events, win, r, SkippedMisfire) then Skipped
          else if Said(events, win, r, Coalesced) then Merged
          else if Said(events, win, r, FiredLate) then Late
          else Delivered
    {
      EntryIsBest(entries, seen, events, win, j, r);
      BestByKinds(events, win, RunKey(r), entries[j].outcome);
    }
    if kind :| kind != Other && Said(events, win, r, kind) { SaidHasEntry(entries, seen, events, win, r, kind); }
  }

  lemma EntryIsBest(entries: seq<Entry>, seen: set<Key>, events: seq<Event>, win: Window, j: nat, r: Id)
    requires Recorded(entries, seen, events, win) && j < |entries| && entries[j].run == Some(r)
    ensures Best(events, win, RunKey(r), entries[j].outcome)
  {
    hide Shown, Best, First, Blocked;
    assert Stands(entries[j], events, win);
    EntryKeyIsItsOwn(entries[j], events, win);
  }

  lemma SaidHasEntry(entries: seq<Entry>, seen: set<Key>, events: seq<Event>, win: Window, r: Id, kind: Kind)
    requires Recorded(entries, seen, events, win) && Said(events, win, r, kind) && kind != Other
    ensures exists j :: 0 <= j < |entries| && entries[j].run == Some(r)
  {
    hide Shown, Recorded, Best;
    var i: int :| 0 <= i < |events| && events[i].run == Some(r) && events[i].kind == kind
                  && events[i].when.Some? && events[i].when.value < win.now
                  && Shown(events[i].when.value / 86_400_000, win.from, win.to);
    OneEntryPerRun(entries, seen, events, win, i, r);
  }

  lemma SaidIsHeard(events: seq<Event>, win: Window, r: Id, kind: Kind)
    requires kind != Other
    ensures Heard(events, win, RunKey(r), kind) <==> Said(events, win, r, kind)
  {
    hide Shown;
    forall i | 0 <= i < |events| && events[i].kind == kind
      ensures Hit(events, win, i, RunKey(r)) <==>
          events[i].run == Some(r) && events[i].when.Some? && events[i].when.value < win.now
          && Shown(events[i].when.value / 86_400_000, win.from, win.to)
    {
    }
  }

  lemma EntryKeyIsItsOwn(e: Entry, events: seq<Event>, win: Window)
    requires Stands(e, events, win)
    ensures e.key == if e.run.Some? then RunKey(e.run.value) else DedupeKey(e.timer, e.when)
  {
    hide Shown;
    var i :| First(events, win, i, e.key) && events[i].when == Some(e.when) && events[i].timer == e.timer
        && events[i].run == e.run;
    assert Hit(events, win, i, e.key);
  }

  /** The outcome does not depend on the order in which the events arrive. */
  lemma OrderDoesNotMatter(events: seq<Event>, shuffled: seq<Event>, win: Window, k: Key, o: Outcome, p: Outcome)
    requires multiset(events) == multiset(shuffled)
    requires Best(events, win, k, o) && Best(shuffled, win, k, p)
    ensures o == p
  {
    hide Shown;
    BestCarries(events, shuffled, win, k, o, p);
    BestCarries(shuffled, events, win, k, p, o);
  }

  lemma BestCarries(events: seq<Event>, shuffled: seq<Event>, win: Window, k: Key, o: Outcome, p: Outcome)
    requires multiset(events) == multiset(shuffled)
    requires Best(events, win, k, o) && Best(shuffled, win, k, p)
    ensures Rank(o) <= Rank(p)
  {
    hide Shown;
    var i :| Hit(events, win, i, k) && KindToOutcome(events[i].kind) == o;
    assert events[i] in multiset(events);
    assert events[i] in shuffled;
    var j :| 0 <= j < |shuffled| && shuffled[j] == events[i];
    assert Hit(shuffled, win, j, k);
  }

  /** Main result: no projected fire is missing without a cause: it is listed, or the log has an accepted
      event of the same timer in the same second. */
  lemma UpcomingIsComplete(entries: seq<Entry>, seen: set<Key>, events: seq<Event>, timers: seq<Timer>, win: Window,
                           upcoming: seq<Next>, i: nat, f: Fire)
    requires Recorded(entries, seen, events, win) && forall n :: n in upcoming <==> Due(n, timers, seen, win)
    requires i < |timers| && Projects(timers[i].occ, win.from, win.to, win.now, f)
    ensures Next(timers[i].id, f) in upcoming
            || exists j :: 0 <= j < |events| && Accepted(events[j], win) && events[j].timer == Some(timers[i].id)
                           && events[j].when.value / 1000 == f.instant / 1000
    ensures Next(timers[i].id, f) in upcoming ==>
        forall j | 0 <= j < |entries| && entries[j].timer == Some(timers[i].id) ::
            entries[j].when / 1000 != f.instant / 1000
  {
    hide Projects, Shown;
    var k := SecondKey(timers[i].id, f.instant / 1000);
    assert NextKey(Next(timers[i].id, f)) == k;
    if k in seen {
      assert Seen(events, win, k);
      if j :| Hit(events, win, j, k) {
        assert Accepted(events[j], win);
      } else {
        var j :| Claims(events, win, j, k);
        assert Accepted(events[j], win);
      }
    }
    forall j | 0 <= j < |entries| && entries[j].timer == Some(timers[i].id) && k !in seen
      ensures entries[j].when / 1000 != f.instant / 1000
    {
      assert Stands(entries[j], events, win);
      EntrySecondSeen(entries[j], events, win);
    }
  }

  // -- Where events without a run are lost --------------------------------

  lemma FirstIsUnique(events: seq<Event>, win: Window, i: int, m: int, k: Key)
    requires First(events, win, i, k) && First(events, win, m, k)
    ensures i == m
  {
  }

  /** Events without a run keep an entry of their own exactly when no run opened its entry at the
      same timer and second before the first of them. Otherwise their outcomes reach no entry. */
  lemma EntryExactlyWhenUnblocked(entries: seq<Entry>, seen: set<Key>, events: seq<Event>, win: Window, i: nat, k: Key)
    requires Recorded(entries, seen, events, win) && First(events, win, i, k)
    ensures HasEntry(entries, k) <==> !Blocked(events, win, i, k)
  {
    hide Shown;
    if HasEntry(entries, k) {
      var j :| 0 <= j < |entries| && entries[j].key == k;
      assert Stands(entries[j], events, win);
      var m :| First(events, win, m, k) && !Blocked(events, win, m, k);
      FirstIsUnique(events, win, i, m, k);
    }
  }

  /** At noon run "r" of timer "t" is delivered; a skipped misfire, which the log writes without a
      run, names the same timer and second. Logged after the run's event it is lost. */
  lemma LostSkipExample(entries: seq<Entry>, seen: set<Key>, win: Window)
    requires win.now > 43_200_000 && Shown(0, win.from, win.to)
    requires Recorded(entries, seen, [DeliveredAtNoon(), SkippedAtNoon()], win)
    ensures forall e | e in entries :: e.outcome == Delivered
  {
    hide Shown;
    var events := [DeliveredAtNoon(), SkippedAtNoon()];
    var lost := SecondKey("t", 43_200);
    assert Hit(events, win, 0, RunKey("r")) && Hit(events, win, 1, lost) && !Hit(events, win, 0, lost);
    assert First(events, win, 0, RunKey("r"));
    assert Claims(events, win, 0, lost);
    assert First(events, win, 1, lost) && Blocked(events, win, 1, lost);
    EntryExactlyWhenUnblocked(entries, seen, events, win, 1, lost);
    forall j | 0 <= j < |entries| ensures entries[j].outcome == Delivered {
      assert Stands(entries[j], events, win) && entries[j].key != lost;
      var b :| Hit(events, win, b, entries[j].key) && KindToOutcome(events[b].kind) == entries[j].outcome;
      hide Stands, Recorded;
      assert b == 0 || b == 1;
    }
  }

  function DeliveredAtNoon(): Event { Event(WakeDelivered, Some(43_200_000), Some("t"), Some("r")) }

  function SkippedAtNoon(): Event { Event(SkippedMisfire, Some(43_200_000), Some("t"), None) }

  /** Logged before the run's event it has an entry of its own, and so has the run. */
  lemma KeptSkipExample(entries: seq<Entry>, seen: set<Key>, win: Window)
    requires win.now > 43_200_000 && Shown(0, win.from, win.to)
    requires Recorded(entries, seen, [SkippedAtNoon(), DeliveredAtNoon()], win)
    ensures HasEntry(entries, SecondKey("t", 43_200)) && HasEntry(entries, RunKey("r"))
  {
    hide Shown;
    var events := [SkippedAtNoon(), DeliveredAtNoon()];
    var kept := SecondKey("t", 43_200);
    assert Hit(events, win, 0, kept) && Hit(events, win, 1, RunKey("r")) && !Hit(events, win, 0, RunKey("r"));
    assert First(events, win, 0, kept) && !Blocked(events, win, 0, kept);
    assert First(events, win, 1, RunKey("r")) && !Blocked(events, win, 1, RunKey("r"));
  }

  /** All accepted events with neither run nor timer share one entry, whatever their times. */
  lemma AnonymousEventsCollapse(entries: seq<Entry>, seen: set<Key>, events: seq<Event>, win: Window, i: nat)
    requires Recorded(entries, seen, events, win)
    requires i < |events| && Accepted(events[i], win) && events[i].run == None && events[i].timer == None
    ensures HasEntry(entries, EmptyKey)
    ensures forall j, l | 0 <= j < |entries| && 0 <= l < |entries|
              && entries[j].run == None && entries[j].timer == None && entries[l].run == None
              && entries[l].timer == None :: j == l
  {
    hide Shown;
    assert Hit(events, win, i, EmptyKey);
    FirstExists(events, win, i, EmptyKey);
    var m :| First(events, win, m, EmptyKey);
    assert !Blocked(events, win, m, EmptyKey);
    forall j | 0 <= j < |entries| && entries[j].run == None && entries[j].timer == None
      ensures entries[j].key == EmptyKey
    {
      EntryKeyIsItsOwn(entries[j], events, win);
    }
  }

  // -- Keys as texts ------------------------------------------------------

  /** The key as the code spells it. */
  function KeyText(k: Key): string {
    match k
    case RunKey(run) => "run:" + run
    case SecondKey(timer, second) => timer + "|" + Decimal(second)
    case EmptyKey => ""
  }

  lemma DecimalsDiffer(m: int, n: int)
    requires Decimal(m) == Decimal(n)
    ensures m == n
  {
    hide Digits;
    DecimalSign(m);
    DecimalSign(n);
    if m < 0 {
      assert Decimal(m)[1..] == Digits(-m) && Decimal(n)[1..] == Digits(-n);
      DigitsOrder(-m, -n);
    } else {
      DigitsOrder(m, n);
    }
  }

  lemma DecimalSign(n: int)
    ensures |Decimal(n)| >= 1 && (Decimal(n)[0] == '-' <==> n < 0)
  {
    var m: nat := if n < 0 then -n else n;
    DigitsArePlain(m);
    assert Digits(m)[0] in Digits(m);
  }

  lemma DecimalIsPlain(n: int)
    ensures '|' !in Decimal(n)
  {
    DigitsArePlain(if n < 0 then -n else n);
  }

  /** The last bar of a text splits it in one way only. */
  lemma SplitAtBar(a: string, x: string, b: string, y: string)
    requires a + "|" + x == b + "|" + y && '|' !in x && '|' !in y
    ensures a == b && x == y
  {
    NoBarBehind(a, x);
    NoBarBehind(b, y);
    var s := a + "|" + x;
    assert s[..|a|] == a && s[|a| + 1..] == x && s[..|b|] == b && s[|b| + 1..] == y;
  }

  lemma NoBarBehind(a: string, x: string)
    requires '|' !in x
    ensures var s := a + "|" + x; s[|a|] == '|' && forall k | |a| < k < |s| :: s[k] != '|'
  {
    var s := a + "|" + x;
    forall k | |a| < k < |s| ensures s[k] != '|' { assert s[k] == x[k - |a| - 1]; }
  }

  predicate LooksLikeRun(id: Id) { "run:" <= id }

  predicate PlainKey(k: Key) { k.SecondKey? ==> !LooksLikeRun(k.timer) }

  /** Main result: the texts tell the keys apart as long as no timer id begins with "run:". */
  lemma KeysAreTexts(k: Key, l: Key)
    requires PlainKey(k) && PlainKey(l)
    ensures KeyText(k) == KeyText(l) <==> k == l
  {
    if KeyText(k) == KeyText(l) {
      match (k, l)
      case (SecondKey(a, m), SecondKey(b, n)) =>
        DecimalIsPlain(m);
        DecimalIsPlain(n);
        SplitAtBar(a, Decimal(m), b, Decimal(n));
        DecimalsDiffer(m, n);
      case (RunKey(r), RunKey(q)) => assert ("run:" + r)[4..] == r && ("run:" + q)[4..] == q;
      case (RunKey(r), SecondKey(b, n)) => RunIsNoSecond(r, b, n);
      case (SecondKey(a, m), RunKey(q)) => RunIsNoSecond(q, a, m);
      case _ =>
    }
  }

  lemma RunIsNoSecond(r: Id, t: Id, n: int)
    requires !LooksLikeRun(t)
    ensures "run:" + r != t + "|" + Decimal(n)
  {
    var s, u := "run:" + r, t + "|" + Decimal(n);
    assert u[|t|] == '|';
    assert |t| >= 4 ==> t == t[..4] + t[4..] && u[..4] == t[..4];
    assert s[..4] == "run:";
    assert forall k | 0 <= k < 4 :: s[k] == "run:"[k] != '|';
  }

  /** Otherwise a run and a timer can share a key. */
  lemma KeysMayCollide()
    ensures KeyText(RunKey("x|5")) == KeyText(SecondKey("run:x", 5))
  {
    assert "run:" + "x|5" == "run:x" + "|" + "5";
  }
}
