/** The cancellable retry loop. What other threads, the launched program and the clock do are
    parameters; everything the loop does that matters to them is recorded in a trace. */
module Executor {

  datatype Answer = Done(message: string) | Failure(error: string) | Panic

  /** The error string that stands for a launch stopped by its token. */
  const CANCELLED := "cancelled by overlap policy (replace)"

  datatype ExecOutcome =
    | Delivered(message: string, attempts: nat)
    | Failed(error: string, attempts: nat)
    | Cancelled

  datatype Exit = Returned(outcome: ExecOutcome) | Unwound

  /** What the loop does, in order. `Took` and `Ended` are the ends of one attempt: the limiter
      permit is held between them and at no other time. */
  datatype Act = Checked(cancelled: bool) | Took | Ended(answer: Answer) | Slept

  /** The surroundings: the answer of each attempt, the token at each check, and how many 20 ms
      slices pass before the clock says that the delay of each backoff is over. */
  datatype Env = Env(answer: nat -> Answer, token: nat -> bool, slices: nat -> nat)

  datatype Retry = Retry(maxRetries: nat, delayIsZero: bool, skipSleep: bool)

  predicate IsSentinel(error: string) { error == CANCELLED }

  /** A failed attempt that the policy may repeat. */
  predicate Retryable(a: Answer) { a.Failure? && !IsSentinel(a.error) }

  function Answers(trace: seq<Act>): seq<Answer> {
    if trace == [] then []
    else
      var n := |trace| - 1;
      Answers(trace[..n]) + if trace[n].Ended? then [trace[n].answer] else []
  }

  function Checks(trace: seq<Act>): seq<bool> {
    if trace == [] then []
    else
      var n := |trace| - 1;
      Checks(trace[..n]) + if trace[n].Checked? then [trace[n].cancelled] else []
  }

  function Sleeps(trace: seq<Act>): nat {
    if trace == [] then 0
    else
      var n := |trace| - 1;
      Sleeps(trace[..n]) + if trace[n].Slept? then 1 else 0
  }

  /** How often the loop slept when `i` attempts were over. */
  function Naps(trace: seq<Act>, i: nat): nat {
    if trace == [] then 0
    else
      var n := |trace| - 1;
      Naps(trace[..n], i) + if trace[n].Slept? && |Answers(trace[..n])| == i then 1 else 0
  }

  lemma Snoc(trace: seq<Act>, a: Act)
    ensures Answers(trace + [a]) == Answers(trace) + (if a.Ended? then [a.answer] else [])
    ensures Checks(trace + [a]) == Checks(trace) + (if a.Checked? then [a.cancelled] else [])
    ensures forall i: nat :: Naps(trace + [a], i) == Naps(trace, i) + if a.Slept? && |Answers(trace)| == i then 1 else 0
  {
    assert (trace + [a])[..|trace|] == trace;
  }

  predicate PacedAt(trace: seq<Act>, i: nat)
    requires i < |trace|
  {
    && (trace[i] == Checked(true) ==> i == |trace| - 1)
    && (trace[i].Took? || trace[i].Slept? ==> i > 0 && trace[i - 1] == Checked(false))
    && (trace[i].Took? ==> i < |trace| - 1 && trace[i + 1].Ended?)
    && (trace[i].Ended? ==> i > 0 && trace[i - 1].Took?)
  }

  /** A check that sees the token set is the last act; every attempt and every sleep comes right
      after a check that saw it clear; a permit taken is given back before anything else. */
  predicate Paced(trace: seq<Act>) { forall i: nat | i < |trace| :: PacedAt(trace, i) }

  /** The trace shows what the surroundings answered. */
  ghost predicate Reports(trace: seq<Act>, env: Env) {
    && (forall j | 0 <= j < |Answers(trace)| :: Answers(trace)[j] == env.answer(j))
    && (forall j | 0 <= j < |Checks(trace)| :: Checks(trace)[j] == env.token(j))
  }

  /** What each way out says about the attempts made. */
  ghost predicate Explains(exit: Exit, trace: seq<Act>, policy: Retry) {
    var made := Answers(trace);
    var n := |made|;
    && n <= policy.maxRetries + 1
    && (forall j | 0 <= j < n - 1 :: made[j].Failure? && made[j].error != "cancelled by overlap policy (replace)")
    && trace != []
    && match exit
       case Returned(Delivered(message, attempts)) =>
         n == attempts + 1 && made[attempts] == Done(message) && trace[|trace| - 1] == Ended(Done(message))
       case Returned(Failed(error, attempts)) =>
         && n == attempts + 1 && attempts == policy.maxRetries && made[attempts] == Failure(error)
         && error != "cancelled by overlap policy (replace)"
         && trace[|trace| - 1] == Ended(Failure(error))
       case Returned(Cancelled) =>
         var last := trace[|trace| - 1];
         last == Checked(true) || last == Ended(Failure("cancelled by overlap policy (replace)"))
       case Unwound => trace[|trace| - 1] == Ended(Panic)
  }

  /** After each of the first `n` attempts the loop slept for as many slices as the delay lasts, or not at
      all if the policy has no delay or sleeping is switched off; it slept at no other time. */
  ghost predicate Waited(trace: seq<Act>, env: Env, policy: Retry, n: nat) {
    && Naps(trace, 0) == 0
    && (forall i: nat | 1 <= i <= n ::
          Naps(trace, i) == if policy.delayIsZero || policy.skipSleep then 0 else env.slices(i - 1))
    && (forall i: nat | n < i :: Naps(trace, i) == 0)
  }

  ghost predicate WaitsInFull(exit: Exit, trace: seq<Act>, env: Env, policy: Retry) {
    match exit
    case Returned(Delivered(_, attempts)) => Waited(trace, env, policy, attempts)
    case Returned(Failed(_, attempts)) => Waited(trace, env, policy, attempts)
    case _ => true
  }

  predicate NotStopped(trace: seq<Act>) { Checked(true) !in trace }

  /** The loop between two attempts. */
  ghost predicate Between(trace: seq<Act>, env: Env, policy: Retry, attempt: nat, checks: nat) {
    && Paced(trace) && Reports(trace, env) && NotStopped(trace)
    && attempt <= policy.maxRetries
    && |Answers(trace)| == attempt && |Checks(trace)| == checks
    && (forall j | 0 <= j < attempt :: Retryable(Answers(trace)[j]))
  }

  /** Paced acts appended to a paced trace that has not seen the token set. */
  lemma PacedAppend(trace: seq<Act>, acts: seq<Act>)
    requires Paced(trace) && Checked(true) !in trace
    requires forall i: nat | |trace| <= i < |trace + acts| :: PacedAt(trace + acts, i)
    ensures Paced(trace + acts)
  {
    var next := trace + acts;
    forall i: nat | i < |next| ensures PacedAt(next, i) {
      if i < |trace| { assert PacedAt(trace, i) && trace[i] in trace && next[i] == trace[i]; }
    }
  }

  lemma PacedNext(trace: seq<Act>, answer: Answer)
    requires Paced(trace) && NotStopped(trace)
    ensures NotStopped(trace + [Checked(false)]) && NotStopped(trace + [Slept])
        && NotStopped(trace + [Took, Ended(answer)])
    ensures Paced(trace + [Checked(false)]) && Paced(trace + [Checked(true)])
    ensures trace != [] && trace[|trace| - 1] == Checked(false) ==>
        Paced(trace + [Slept]) && Paced(trace + [Took, Ended(answer)])
  {
    PacedAppend(trace, [Checked(false)]);
    PacedAppend(trace, [Checked(true)]);
    if trace != [] && trace[|trace| - 1] == Checked(false) {
      PacedAppend(trace, [Slept]);
      PacedAppend(trace, [Took, Ended(answer)]);
    }
  }

  lemma AfterCheck(trace: seq<Act>, env: Env, policy: Retry, attempt: nat, checks: nat)
    requires Between(trace, env, policy, attempt, checks)
    ensures var seen := env.token(checks);
      var next := trace + [Checked(seen)];
      && Paced(next) && Reports(next, env) && Answers(next) == Answers(trace)
      && (forall i: nat :: Naps(next, i) == Naps(trace, i))
      && |Checks(next)| == checks + 1
      && (!seen ==> Between(next, env, policy, attempt, checks + 1))
  {
    hide Paced, NotStopped, Answers, Checks, Naps, Retryable, IsSentinel;
    PacedNext(trace, Panic);
    Snoc(trace, Checked(env.token(checks)));
  }

  lemma AfterSleep(trace: seq<Act>, env: Env, policy: Retry, attempt: nat, checks: nat)
    requires Between(trace, env, policy, attempt, checks) && trace != [] && trace[|trace| - 1] == Checked(false)
    ensures var next := trace + [Slept];
      && Between(next, env, policy, attempt, checks) && Answers(next) == Answers(trace)
      && (forall i: nat :: Naps(next, i) == Naps(trace, i) + if i == attempt then 1 else 0)
  {
    hide Paced, NotStopped, Answers, Checks, Naps, Retryable, IsSentinel;
    PacedNext(trace, Panic);
    Snoc(trace, Slept);
  }

  lemma AttemptRecorded(trace: seq<Act>, answer: Answer)
    ensures var next := trace + [Took, Ended(answer)];
      && Answers(next) == Answers(trace) + [answer] && Checks(next) == Checks(trace)
      && (forall i: nat :: Naps(next, i) == Naps(trace, i))
  {
    Snoc(trace, Took);
    Snoc(trace + [Took], Ended(answer));
    assert trace + [Took] + [Ended(answer)] == trace + [Took, Ended(answer)];
  }

  lemma AttemptReports(trace: seq<Act>, next: seq<Act>, env: Env)
    requires Reports(trace, env)
    requires Answers(next) == Answers(trace) + [env.answer(|Answers(trace)|)] && Checks(next) == Checks(trace)
    ensures Reports(next, env)
  {
    hide Answers, Checks;
  }

  lemma AfterAttempt(trace: seq<Act>, env: Env, policy: Retry, attempt: nat, checks: nat)
    requires Between(trace, env, policy, attempt, checks) && trace != [] && trace[|trace| - 1] == Checked(false)
    ensures var answer := env.answer(attempt);
      var next := trace + [Took, Ended(answer)];
      && Paced(next) && Reports(next, env) && Answers(next) == Answers(trace) + [answer]
      && (forall i: nat :: Naps(next, i) == Naps(trace, i))
      && (Retryable(answer) && attempt < policy.maxRetries ==> Between(next, env, policy, attempt + 1, checks))
  {
    hide Paced, NotStopped, Reports, Answers, Checks, Naps, Retryable, IsSentinel;
    var answer := env.answer(attempt);
    PacedNext(trace, answer);
    AttemptRecorded(trace, answer);
    AttemptReports(trace, trace + [Took, Ended(answer)], env);
  }

  method Backoff(env: Env, policy: Retry, attempt: nat, checks0: nat, trace0: seq<Act>)
    returns (stopped: bool, checks: nat, trace: seq<Act>)
    requires attempt > 0 && Between(trace0, env, policy, attempt, checks0)
    ensures Paced(trace) && Reports(trace, env) && Answers(trace) == Answers(trace0) && |Checks(trace)| == checks
    ensures if stopped then |trace| > 0 && trace[|trace| - 1] == Checked(true)
        else Between(trace, env, policy, attempt, checks)
    ensures forall i: nat | i != attempt :: Naps(trace, i) == Naps(trace0, i)
    ensures !stopped ==> Naps(trace, attempt) == Naps(trace0, attempt)
                         + if policy.delayIsZero || policy.skipSleep then 0 else env.slices(attempt - 1)
  {
    stopped, checks, trace := false, checks0, trace0;
    if !policy.skipSleep && !policy.delayIsZero {
      var left: nat := env.slices(attempt - 1);
      while left > 0
        invariant left <= env.slices(attempt - 1) && Between(trace, env, policy, attempt, checks)
        invariant Answers(trace) == Answers(trace0)
        invariant forall i: nat | i != attempt :: Naps(trace, i) == Naps(trace0, i)
        invariant Naps(trace, attempt) == Naps(trace0, attempt) + env.slices(attempt - 1) - left
      {
        hide Between, Paced, NotStopped, Reports, Retryable, Answers, Checks, Naps;
        var seen := env.token(checks);
        AfterCheck(trace, env, policy, attempt, checks);
        trace, checks := trace + [Checked(seen)], checks + 1;
        if seen { return true, checks, trace; }
        AfterSleep(trace, env, policy, attempt, checks);
        trace, left := trace + [Slept], left - 1;
      }
    }
  }

  lemma NotStarted(env: Env, policy: Retry)
    ensures Between([], env, policy, 0, 0)
  {
  }

  method Execute(env: Env, policy: Retry) returns (exit: Exit, trace: seq<Act>)
    ensures Paced(trace) && Reports(trace, env) && Explains(exit, trace, policy)
        && WaitsInFull(exit, trace, env, policy)
  {
    hide Paced, NotStopped, Reports, PacedAt, Checks;
    NotStarted(env, policy);
    var attempt: nat, checks: nat := 0, 0;
    trace := [];
    while true
      invariant Between(trace, env, policy, attempt, checks) && Waited(trace, env, policy, attempt)
      decreases policy.maxRetries - attempt
    {
      hide IsSentinel, Naps, Answers;
      var seen := env.token(checks);
      AfterCheck(trace, env, policy, attempt, checks);
      trace, checks := trace + [Checked(seen)], checks + 1;
      if seen { return Returned(Cancelled), trace; }
      // one attempt, under a limiter permit
      var answer := env.answer(attempt);
      AfterAttempt(trace, env, policy, attempt, checks);
      trace := trace + [Took, Ended(answer)];
      match answer {
        case Done(message) => return Returned(Delivered(message, attempt)), trace;
        case Panic => return Unwound, trace;
        case Failure(error) =>
          if IsSentinel(error) { return Returned(Cancelled), trace; }
          if attempt >= policy.maxRetries { return Returned(Failed(error, attempt)), trace; }
          attempt := attempt + 1;
          var stopped;
          stopped, checks, trace := Backoff(env, policy, attempt, checks, trace);
          if stopped { return Returned(Cancelled), trace; }
      }
    }
  }

  // -- Consequences of the pacing -----------------------------------------

  function ClearChecks(trace: seq<Act>): nat {
    if trace == [] then 0
    else ClearChecks(trace[..|trace| - 1]) + if trace[|trace| - 1] == Checked(false) then 1 else 0
  }

  function PermitsTaken(trace: seq<Act>): nat {
    if trace == [] then 0
    else PermitsTaken(trace[..|trace| - 1]) + if trace[|trace| - 1].Took? then 1 else 0
  }

  /** Attempts and permits of a prefix: at most one attempt is open, and only right after its start. */
  lemma {:induction false} OpenAttempt(trace: seq<Act>, n: nat)
    requires Paced(trace) && n <= |trace|
    ensures var open := if n > 0 && trace[n - 1].Took? then 1 else 0;
      && PermitsTaken(trace[..n]) == |Answers(trace[..n])| + open
      && PermitsTaken(trace[..n]) + Sleeps(trace[..n]) + (if n > 0 && trace[n - 1] == Checked(false) then 1 else 0)
         <= ClearChecks(trace[..n])
    decreases n
  {
    if n > 0 {
      OpenAttempt(trace, n - 1);
      assert PacedAt(trace, n - 1);
      if n > 1 { assert PacedAt(trace, n - 2); }
      assert trace[..n][..n - 1] == trace[..n - 1];
    }
  }

  lemma {:induction false} ClearChecksCount(trace: seq<Act>)
    ensures ClearChecks(trace) <= |Checks(trace)|
    ensures forall n | 0 <= n < |Checks(trace)| && Checks(trace)[n] :: ClearChecks(trace) < |Checks(trace)|
    decreases |trace|
  {
    if trace != [] { ClearChecksCount(trace[..|trace| - 1]); }
  }

  lemma StopsAt(trace: seq<Act>, i: nat)
    requires Paced(trace) && i < |trace| && trace[i] == Checked(true)
    ensures i == |trace| - 1
  {
    assert PacedAt(trace, i);
  }

  lemma {:induction false} TrueCheckEnds(trace: seq<Act>, n: nat)
    requires Paced(trace) && n < |Checks(trace)| && Checks(trace)[n]
    ensures n == |Checks(trace)| - 1
    decreases |trace|
  {
    var m := |trace| - 1;
    var most := trace[..m];
    if n < |Checks(most)| {
      CheckedIn(most, n);
      var i :| 0 <= i < m && trace[i] == Checked(true);
      StopsAt(trace, i);
    }
  }

  lemma {:induction false} CheckedIn(trace: seq<Act>, n: nat)
    requires n < |Checks(trace)|
    ensures Checked(Checks(trace)[n]) in trace
    decreases |trace|
  {
    var most := trace[..|trace| - 1];
    if n < |Checks(most)| { CheckedIn(most, n); }
  }

  /** Main result: a token that is set by the time of check `n` stops the loop there: at most `n`
      attempts are ever made, and the loop makes no check after it. */
  lemma NoAttemptAfterCancellation(trace: seq<Act>, env: Env, n: nat)
    requires Paced(trace) && Reports(trace, env) && env.token(n)
    ensures |Checks(trace)| <= n + 1 && |Answers(trace)| <= n
    ensures |Checks(trace)| == n + 1 ==> trace[|trace| - 1] == Checked(true)
  {
    if n < |Checks(trace)| {
      TrueCheckEnds(trace, n);
      TrueCheckIsLast(trace);
    }
    assert trace[..|trace|] == trace;
    OpenAttempt(trace, |trace|);
    ClearChecksCount(trace);
  }

  lemma TrueCheckIsLast(trace: seq<Act>)
    requires Paced(trace) && |Checks(trace)| > 0 && Checks(trace)[|Checks(trace)| - 1]
    ensures trace[|trace| - 1] == Checked(true)
  {
    CheckedIn(trace, |Checks(trace)| - 1);
    var i :| 0 <= i < |trace| && trace[i] == Checked(true);
    StopsAt(trace, i);
  }

  /** Main result: every sleep follows a check that saw the token clear, and a check that sees it set ends
      the loop, which then reports the run as cancelled. */
  lemma BackoffIsCancellable(exit: Exit, trace: seq<Act>, policy: Retry, n: nat)
    requires Paced(trace) && Explains(exit, trace, policy) && n < |trace|
    ensures trace[n] == Slept ==> n > 0 && trace[n - 1] == Checked(false)
    ensures trace[n] == Checked(true) ==> n == |trace| - 1 && exit == Returned(Cancelled)
  {
    assert PacedAt(trace, n);
  }

  /** Main result: while the token stays clear the loop reports `Failed` exactly when every one of
      its `maxRetries + 1` attempts fails, and `Delivered` exactly when one of them succeeds after
      retryable failures only. */
  lemma OutcomeIsForced(exit: Exit, trace: seq<Act>, env: Env, policy: Retry)
    requires Paced(trace) && Reports(trace, env) && Explains(exit, trace, policy)
    requires forall n :: !env.token(n)
    ensures exit.Returned? && exit.outcome.Failed? <==> forall j: nat | j <= policy.maxRetries ::
        Retryable(env.answer(j))
    ensures exit.Returned? && exit.outcome.Delivered? <==>
              exists k: nat :: k <= policy.maxRetries && env.answer(k).Done? && forall j: nat | j < k ::
                  Retryable(env.answer(j))
  {
    var made := Answers(trace);
    var last := trace[|trace| - 1];
    if last == Checked(true) { assert Checks(trace)[|Checks(trace)| - 1] == env.token(|Checks(trace)| - 1); }
    assert forall j | 0 <= j < |made| :: made[j] == env.answer(j);
    if last.Ended? { assert made[|made| - 1] == last.answer; }
    if exit.Returned? && exit.outcome.Delivered? {
      var k := exit.outcome.attempts;
      assert env.answer(k).Done? && forall j: nat | j < k :: Retryable(env.answer(j));
    }
  }

  /** Main result: at no check and no sleep of the loop is a limiter permit held. */
  lemma NoPermitAcrossBackoff(trace: seq<Act>, n: nat)
    requires Paced(trace) && n < |trace| && (trace[n].Checked? || trace[n].Slept?)
    ensures PermitsTaken(trace[..n]) == |Answers(trace[..n])|
  {
    OpenAttempt(trace, n);
    if n > 0 { assert PacedAt(trace, n - 1); }
  }
}
