/** The global action limiter: a counting semaphore on a mutex and a condition variable, with
    barging. The critical sections are functions on the guarded counters; `ActionLimiter` performs
    them in place; the step system interleaves them for any number of threads. */
module Limiter {

  /** `usize` on a 64-bit target. */
  const USIZE_MAX: nat := 0xFFFF_FFFF_FFFF_FFFF

  /** Additions on the counters saturate. */
  function SatInc(n: nat): nat { if n >= USIZE_MAX then USIZE_MAX else n + 1 }

  function SatDec(n: nat): nat { if n == 0 then 0 else n - 1 }

  function AtMost(n: nat, bound: nat): nat { if n <= bound then n else bound }

  /** The counters behind the mutex. */
  datatype Counters = Counters(inFlight: nat, peak: nat, completed: nat, queueWaits: nat, waiters: nat)

  function Granted(g: Counters): Counters {
    var n := SatInc(g.inFlight);
    g.(inFlight := n, peak := if n > g.peak then n else g.peak)
  }

  /** First critical section of `acquire`: a permit, or a place among the waiters. */
  function Enter(g: Counters, max: nat): (Counters, bool) {
    if g.inFlight >= max
    then (g.(queueWaits := SatInc(g.queueWaits), waiters := SatInc(g.waiters)), false)
    else (Granted(g), true)
  }

  /** A woken waiter tests the cap again; a barging caller may have taken the permit. */
  function Resume(g: Counters, max: nat): (Counters, bool) {
    if g.inFlight >= max then (g, false) else (Granted(g.(waiters := SatDec(g.waiters))), true)
  }

  function Try(g: Counters, max: nat): (Counters, bool) {
    if g.inFlight >= max then (g, false) else (Granted(g), true)
  }

  function Released(g: Counters): Counters {
    g.(inFlight := SatDec(g.inFlight), completed := SatInc(g.completed))
  }

  function Reset(g: Counters): Counters {
    g.(peak := g.inFlight, completed := 0, queueWaits := 0)
  }

  class ActionLimiter {
    const max: nat
    var inFlight: nat
    var peak: nat
    var completed: nat
    var queueWaits: nat
    var waiters: nat

    function State(): Counters reads this { Counters(inFlight, peak, completed, queueWaits, waiters) }

    constructor (maxConcurrent: nat)
      ensures max == (if maxConcurrent < 1 then 1 else maxConcurrent) && State() == Counters(0, 0, 0, 0, 0)
    {
      max := if maxConcurrent < 1 then 1 else maxConcurrent;
      inFlight, peak, completed, queueWaits, waiters := 0, 0, 0, 0, 0;
    }

    method TakePermit()
      modifies this`inFlight, this`peak
      ensures State() == Granted(old(State()))
    {
      inFlight := SatInc(inFlight);
      if inFlight > peak {
        peak := inFlight;
      }
    }

    /** `acquire`, up to its first wait. */
    method BeginAcquire() returns (granted: bool)
      modifies this
      ensures (State(), granted) == Enter(old(State()), max)
      ensures granted == (old(inFlight) < max)
      ensures granted && old(inFlight) < USIZE_MAX ==> inFlight == old(inFlight) + 1 && waiters == old(waiters)
      ensures !granted && old(waiters) < USIZE_MAX ==> inFlight == old(inFlight) && waiters == old(waiters) + 1
    {
      if inFlight >= max {
        queueWaits := SatInc(queueWaits);
        waiters := SatInc(waiters);
        return false;
      }
      TakePermit();
      granted := true;
    }

    /** `acquire`, from a return of the wait to the next wait or the permit. */
    method ContinueAcquire() returns (granted: bool)
      modifies this
      ensures (State(), granted) == Resume(old(State()), max)
      ensures granted == (old(inFlight) < max)
      ensures granted && 0 < old(waiters) && old(inFlight) < USIZE_MAX ==>
          inFlight == old(inFlight) + 1 && waiters == old(waiters) - 1
    {
      if inFlight >= max { return false; }
      waiters := SatDec(waiters);
      TakePermit();
      granted := true;
    }

    method TryAcquire() returns (granted: bool)
      modifies this
      ensures (State(), granted) == Try(old(State()), max)
      ensures granted == (old(inFlight) < max) && waiters == old(waiters) && queueWaits == old(queueWaits)
      ensures old(inFlight) < USIZE_MAX ==> inFlight == old(inFlight) + if granted then 1 else 0
    {
      if inFlight >= max { return false; }
      TakePermit();
      granted := true;
    }

    method Release()
      modifies this
      ensures State() == Released(old(State()))
      ensures 0 < old(inFlight) && old(completed) < USIZE_MAX ==>
          inFlight == old(inFlight) - 1 && completed == old(completed) + 1 && peak == old(peak)
    {
      inFlight := SatDec(inFlight);
      completed := SatInc(completed);
    }

    method ResetStats()
      modifies this
      ensures State() == Reset(old(State()))
      ensures peak == inFlight == old(inFlight) && completed == queueWaits == 0 && waiters == old(waiters)
    {
      peak := inFlight;
      completed := 0;
      queueWaits := 0;
    }
  }

  // -- Interleavings ------------------------------------------------------

  datatype Phase =
    | Outside
    | Sleeping      // inside the condvar wait
    | Awake         // woken, mutex not yet retaken
    | Holding       // has a permit
    | Notifying     // released its permit, notify not yet delivered

  /** The limiter among its threads. `granted`, `returned` and `blocked` are history since the
      last reset: permits held then or taken since, permits given back, calls that had to wait. */
  datatype Sys = Sys(g: Counters, threads: seq<Phase>, granted: nat, returned: nat, blocked: nat)

  datatype Step =
    | Acquire(i: nat) | TryOnce(i: nat) | Retake(i: nat) | Give(i: nat)
    | Notify(i: nat, woken: int)      // `woken < 0`: nobody was waiting
    | Spurious(i: nat) | ResetAll

  predicate At(s: Sys, i: int, phase: Phase) { 0 <= i < |s.threads| && s.threads[i] == phase }

  predicate Enabled(s: Sys, e: Step) {
    match e
    case Acquire(i) => At(s, i, Outside)
    case TryOnce(i) => At(s, i, Outside)
    case Retake(i) => At(s, i, Awake)
    case Give(i) => At(s, i, Holding)
    case Notify(i, woken) =>
      At(s, i, Notifying) && if woken < 0 then Sleeping !in s.threads else At(s, woken, Sleeping)
    case Spurious(i) => At(s, i, Sleeping)
    case ResetAll => true
  }

  function Do(s: Sys, max: nat, e: Step): Sys
    requires Enabled(s, e)
  {
    match e
    case Acquire(i) =>
      var (g, ok) := Enter(s.g, max);
      if ok then s.(g := g, threads := s.threads[i := Holding], granted := s.granted + 1)
      else s.(g := g, threads := s.threads[i := Sleeping], blocked := s.blocked + 1)
    case TryOnce(i) =>
      var (g, ok) := Try(s.g, max);
      if ok then s.(g := g, threads := s.threads[i := Holding], granted := s.granted + 1) else s.(g := g)
    case Retake(i) =>
      var (g, ok) := Resume(s.g, max);
      if ok then s.(g := g, threads := s.threads[i := Holding], granted := s.granted + 1)
      else s.(g := g, threads := s.threads[i := Sleeping])
    case Give(i) => s.(g := Released(s.g), threads := s.threads[i := Notifying], returned := s.returned + 1)
    case Notify(i, woken) =>
      s.(threads := if woken < 0 then s.threads[i := Outside] else s.threads[i := Outside][woken := Awake])
    case Spurious(i) => s.(threads := s.threads[i := Awake])
    case ResetAll => s.(g := Reset(s.g), granted := s.g.inFlight, returned := 0, blocked := 0)
  }

  function Fresh(n: nat): Sys {
    Sys(Counters(0, 0, 0, 0, 0), seq(n, _ => Outside), 0, 0, 0)
  }

  /** A run of the limiter: any schedule, from `n` threads outside. */
  ghost predicate IsRun(states: seq<Sys>, steps: seq<Step>, max: nat) {
    && |states| == |steps| + 1
    && forall j | 0 <= j < |steps| :: Enabled(states[j], steps[j]) && states[j + 1] == Do(states[j], max, steps[j])
  }

  function Count(ts: seq<Phase>, phase: Phase): nat {
    if ts == [] then 0 else Count(ts[..|ts| - 1], phase) + if ts[|ts| - 1] == phase then 1 else 0
  }

  lemma {:induction false} CountUpdate(ts: seq<Phase>, i: nat, x: Phase, phase: Phase)
    requires i < |ts|
    ensures Count(ts[i := x], phase)
            == Count(ts, phase) - (if ts[i] == phase then 1 else 0) + (if x == phase then 1 else 0)
    decreases |ts|
  {
    var n := |ts| - 1;
    if i < n {
      CountUpdate(ts[..n], i, x, phase);
      assert ts[i := x][..n] == ts[..n][i := x];
    } else {
      assert ts[i := x][..n] == ts[..n];
    }
  }

  lemma {:induction false} CountPositive(ts: seq<Phase>, phase: Phase)
    ensures Count(ts, phase) > 0 <==> phase in ts
    ensures Count(ts, phase) <= |ts|
    ensures Count(ts, phase) == |ts| <==> forall i | 0 <= i < |ts| :: ts[i] == phase
    decreases |ts|
  {
    if ts != [] {
      var n := |ts| - 1;
      CountPositive(ts[..n], phase);
      assert ts == ts[..n] + [ts[n]];
    }
  }

  /** What every interleaving keeps. */
  ghost predicate Sound(s: Sys, max: nat) {
    && s.g.inFlight == Count(s.threads, Holding)
    && s.g.inFlight <= s.g.peak <= max
    && s.granted == s.g.inFlight + s.returned
    && s.g.completed == AtMost(s.returned, USIZE_MAX)
    && s.g.queueWaits == AtMost(s.blocked, USIZE_MAX)
    && (|s.threads| <= USIZE_MAX ==> s.g.waiters == Count(s.threads, Sleeping) + Count(s.threads, Awake))
    && (Sleeping in s.threads ==> max - s.g.inFlight <= Count(s.threads, Awake) + Count(s.threads, Notifying))
  }

  /** One thread changes phase: the count of each phase before and after. */
  ghost predicate Shifted(ts: seq<Phase>, ts': seq<Phase>, from: Phase, to: Phase, phase: Phase) {
    && Count(ts', phase) == Count(ts, phase) - (if from == phase then 1 else 0) + (if to == phase then 1 else 0)
    && (Count(ts, phase) > 0 <==> phase in ts)
    && (Count(ts', phase) > 0 <==> phase in ts')
  }

  lemma PhaseShift(ts: seq<Phase>, i: nat, to: Phase, phase: Phase)
    requires i < |ts|
    ensures Shifted(ts, ts[i := to], ts[i], to, phase)
  {
    CountUpdate(ts, i, to, phase);
    CountPositive(ts, phase);
    CountPositive(ts[i := to], phase);
  }

  lemma PhaseChange(ts: seq<Phase>, i: nat, to: Phase)
    requires i < |ts|
    ensures Shifted(ts, ts[i := to], ts[i], to, Holding)
    ensures Shifted(ts, ts[i := to], ts[i], to, Sleeping)
    ensures Shifted(ts, ts[i := to], ts[i], to, Awake)
    ensures Shifted(ts, ts[i := to], ts[i], to, Notifying)
  {
    PhaseShift(ts, i, to, Holding);
    PhaseShift(ts, i, to, Sleeping);
    PhaseShift(ts, i, to, Awake);
    PhaseShift(ts, i, to, Notifying);
  }

  lemma {:induction false} WaitersBounded(ts: seq<Phase>)
    ensures Count(ts, Sleeping) + Count(ts, Awake) + Count(ts, Outside) + Count(ts, Holding) <= |ts|
    decreases |ts|
  {
    if ts != [] { WaitersBounded(ts[..|ts| - 1]); }
  }

  lemma DoSound(s: Sys, max: nat, e: Step)
    requires Sound(s, max) && Enabled(s, e) && 1 <= max <= USIZE_MAX
    ensures Sound(Do(s, max, e), max)
  {
    hide Count;
    var ts := s.threads;
    WaitersBounded(ts);
    match e
    case Acquire(i) => PhaseChange(ts, i, if s.g.inFlight >= max then Sleeping else Holding);
    case TryOnce(i) => PhaseChange(ts, i, Holding);
    case Retake(i) => PhaseChange(ts, i, if s.g.inFlight >= max then Sleeping else Holding);
    case Give(i) => PhaseChange(ts, i, Notifying);
    case Notify(i, woken) =>
      PhaseChange(ts, i, Outside);
      if woken >= 0 { PhaseChange(ts[i := Outside], woken, Awake); }
    case Spurious(i) => PhaseChange(ts, i, Awake);
    case ResetAll =>
  }

  lemma FreshSound(n: nat, max: nat)
    ensures Sound(Fresh(n), max)
    ensures Count(Fresh(n).threads, Outside) == n
  {
    var ts := Fresh(n).threads;
    CountPositive(ts, Holding);
    CountPositive(ts, Sleeping);
    CountPositive(ts, Awake);
    CountPositive(ts, Outside);
  }

  /** Main result: in every interleaving, with barging callers, spurious wakes and resets, permits
      and peak stay within the cap, no wakeup is lost, and permits are conserved. */
  lemma {:induction false} AlwaysSound(states: seq<Sys>, steps: seq<Step>, n: nat, max: nat, j: nat)
    requires IsRun(states, steps, max) && states[0] == Fresh(n) && 1 <= max <= USIZE_MAX && j < |states|
    ensures Sound(states[j], max) && |states[j].threads| == n
    decreases j
  {
    if j == 0 {
      FreshSound(n, max);
    } else {
      AlwaysSound(states, steps, n, max, j - 1);
      DoSound(states[j - 1], max, steps[j - 1]);
    }
  }

  /** No reset after step `m`, which is the start or follows one. */
  predicate SinceReset(steps: seq<Step>, m: nat, j: nat) {
    m <= j <= |steps| && (m == 0 || steps[m - 1].ResetAll?) && forall k | m <= k < j :: !steps[k].ResetAll?
  }

  /** Main result: the peak is the largest number of permits in use at any time since the last reset. */
  lemma {:induction false} PeakIsTheMost(states: seq<Sys>, steps: seq<Step>, n: nat, max: nat, m: nat, j: nat)
    requires IsRun(states, steps, max) && states[0] == Fresh(n) && 1 <= max <= USIZE_MAX && SinceReset(steps, m, j)
    ensures forall k | m <= k <= j :: states[k].g.inFlight <= states[j].g.peak
    ensures exists k :: m <= k <= j && states[k].g.inFlight == states[j].g.peak
    decreases j
  {
    if m < j {
      PeakIsTheMost(states, steps, n, max, m, j - 1);
      var e, g, g' := steps[j - 1], states[j - 1].g, states[j].g;
      assert states[j] == Do(states[j - 1], max, e);
      PeakGrows(states[j - 1], max, e);
      var k :| m <= k <= j - 1 && states[k].g.inFlight == g.peak;
      assert g'.peak == g.peak || g'.inFlight == g'.peak;
    } else {
      assert m > 0 ==> states[m] == Do(states[m - 1], max, steps[m - 1]);
      assert states[m].g.inFlight == states[m].g.peak;
    }
  }

  lemma PeakGrows(s: Sys, max: nat, e: Step)
    requires Enabled(s, e) && !e.ResetAll?
    ensures var g, g' := s.g, Do(s, max, e).g;
      && g.peak <= g'.peak && (g'.inFlight <= g.inFlight || g'.inFlight <= g'.peak)
      && (g'.peak == g.peak || g'.peak == g'.inFlight)
  {
  }

  // -- No waiter is forgotten ---------------------------------------------

  /** Steps of threads already inside: nobody new arrives, nothing wakes without a notify. */
  predicate Internal(e: Step) { e.Retake? || e.Give? || e.Notify? }

  /** Main result: unless every thread is outside, some inside thread can move on its own. So
      sleepers never wait for a newcomer or a spurious wake. */
  lemma NeverStuck(s: Sys, max: nat)
    requires Sound(s, max) && max >= 1
    requires forall e: Step :: Internal(e) ==> !Enabled(s, e)
    ensures forall i | 0 <= i < |s.threads| :: s.threads[i] == Outside
  {
    var ts := s.threads;
    CountPositive(ts, Holding);
    CountPositive(ts, Awake);
    CountPositive(ts, Notifying);
    if Holding in ts {
      var i :| 0 <= i < |ts| && ts[i] == Holding;
      assert Enabled(s, Give(i));
    }
    if Awake in ts {
      var i :| 0 <= i < |ts| && ts[i] == Awake;
      assert Enabled(s, Retake(i));
    }
    if Notifying in ts {
      var i :| 0 <= i < |ts| && ts[i] == Notifying;
      var woken := if Sleeping in ts then var k :| 0 <= k < |ts| && ts[k] == Sleeping; k else -1;
      assert Enabled(s, Notify(i, woken));
    }
  }

  /** Steps a thread still needs before it is outside again. */
  function Distance(phase: Phase): nat {
    match phase
    case Outside => 0
    case Notifying => 2
    case Holding => 3
    case Sleeping => 4
    case Awake => 5
  }

  function Work(ts: seq<Phase>): nat {
    if ts == [] then 0 else Work(ts[..|ts| - 1]) + Distance(ts[|ts| - 1])
  }

  lemma {:induction false} WorkUpdate(ts: seq<Phase>, i: nat, x: Phase)
    requires i < |ts|
    ensures Work(ts[i := x]) == Work(ts) - Distance(ts[i]) + Distance(x)
    decreases |ts|
  {
    var n := |ts| - 1;
    if i < n {
      WorkUpdate(ts[..n], i, x);
      assert ts[i := x][..n] == ts[..n][i := x];
    } else {
      assert ts[i := x][..n] == ts[..n];
    }
  }

  /** Every internal step brings the threads closer to the outside; a wake sets one thread back by one. */
  lemma WorkFalls(s: Sys, max: nat, e: Step)
    requires Enabled(s, e) && (Internal(e) || e.Spurious?)
    ensures var s' := Do(s, max, e);
      if e.Spurious? then Work(s'.threads) == Work(s.threads) + 1 else Work(s'.threads) < Work(s.threads)
  {
    var ts := s.threads;
    match e
    case Retake(i) => WorkUpdate(ts, i, Holding); WorkUpdate(ts, i, Sleeping);
    case Give(i) => WorkUpdate(ts, i, Notifying);
    case Notify(i, woken) =>
      WorkUpdate(ts, i, Outside);
      if woken >= 0 { WorkUpdate(ts[i := Outside], woken, Awake); }
    case Spurious(i) => WorkUpdate(ts, i, Awake);
  }

  function SpuriousIn(steps: seq<Step>): nat {
    if steps == [] then 0
    else SpuriousIn(steps[..|steps| - 1]) + if steps[|steps| - 1].Spurious? then 1 else 0
  }

  /** Main result: once nobody new arrives every schedule runs out of steps. With `NeverStuck` it
      ends with every caller served, however the scheduler picked. */
  lemma {:induction false} DrainIsBounded(states: seq<Sys>, steps: seq<Step>, max: nat)
    requires IsRun(states, steps, max)
    requires forall e | e in steps :: Internal(e) || e.Spurious?
    ensures |steps| + Work(states[|steps|].threads) <= Work(states[0].threads) + 2 * SpuriousIn(steps)
    decreases |steps|
  {
    if steps != [] {
      var n := |steps| - 1;
      var most := steps[..n];
      assert forall j | 0 <= j < n :: most[j] == steps[j];
      DrainIsBounded(states[..|states| - 1], most, max);
      assert steps[n] in steps;
      WorkFalls(states[n], max, steps[n]);
    }
  }

  /** When all threads are outside the statistics count exactly the permits granted. */
  lemma QuietStatistics(s: Sys, max: nat)
    requires Sound(s, max)
    requires forall i | 0 <= i < |s.threads| :: s.threads[i] == Outside
    ensures s.g.inFlight == 0 && s.granted == s.returned && s.g.completed == AtMost(s.granted, USIZE_MAX)
  {
    CountPositive(s.threads, Holding);
  }

  // -- Workers that share the cap never wait ------------------------------

  /** With no more threads than permits nobody is ever queued. */
  ghost predicate NobodyWaits(s: Sys) {
    && (forall i | 0 <= i < |s.threads| :: s.threads[i] != Sleeping && s.threads[i] != Awake)
    && s.blocked == 0
  }

  lemma RoomForOutsiders(s: Sys, max: nat, i: nat)
    requires Sound(s, max) && |s.threads| <= max && At(s, i, Outside)
    ensures s.g.inFlight < max
  {
    CountPositive(s.threads, Holding);
  }

  lemma StillNobodyWaits(s: Sys, max: nat, e: Step)
    requires Sound(s, max) && |s.threads| <= max && NobodyWaits(s) && Enabled(s, e)
    ensures NobodyWaits(Do(s, max, e))
  {
    if e.Acquire? { RoomForOutsiders(s, max, e.i); }
  }

  /** Main result: as many threads as permits (a dispatcher gives its limiter one permit per
      worker): in no interleaving does `acquire` block, and permits in use never exceed threads. */
  lemma {:induction false} SharersNeverWait(states: seq<Sys>, steps: seq<Step>, n: nat, max: nat, j: nat)
    requires IsRun(states, steps, max) && states[0] == Fresh(n) && 1 <= max <= USIZE_MAX && j < |states|
    requires n <= max
    ensures NobodyWaits(states[j]) && states[j].g.queueWaits == 0 && states[j].g.inFlight <= n
    decreases j
  {
    AlwaysSound(states, steps, n, max, j);
    CountPositive(states[j].threads, Holding);
    if j > 0 {
      SharersNeverWait(states, steps, n, max, j - 1);
      AlwaysSound(states, steps, n, max, j - 1);
      StillNobodyWaits(states[j - 1], max, steps[j - 1]);
    }
  }
}
