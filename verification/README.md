# Verified model of the Bellman fire dispatcher and its neighbours

Bellman fires timers. A fire commits a durable claim, and a crash-tolerant dispatcher executes it: one
process at a time owns an OS lock, its pump hands pending claims through per-timer lanes into a bounded
channel, and its workers activate, execute and close them. This project models that protocol and the
algorithms around it in Dafny and proves what they promise.

## How the model is built

- `Options`, `Store`, `Lanes`, `Dispatcher`: the model of the protocol. `Store` has the claim rows, the outbox
  and every transaction on them (`crates/bellman-core/src/store/mod.rs:324-430`, `:1597-1646`, `:1812-1923`;
  `crates/bellman-core/src/tree/mod.rs:865-872`, `:992-1048`). `Lanes` has the lane operations as functions.
  `Dispatcher` is a step system over several processes: a worker step is one part of `run_job`
  (`crates/bellman-core/src/actions/dispatcher.rs:525-679`), a pump step one part of `pump_loop` and
  `pump_once` (`:365-515`), and there are steps for `begin_startup` (`:252-278`), `shutdown_drain`
  (`:318-340`), spawn, crash, timer edits and fires. The pending snapshot and the lane pass are separate
  steps, and while the pump holds the lane lock no worker touches a lane. Any read may fail at any step and
  so may any write, unless a theorem says otherwise. `closer`, `recovered` and `starts` record history and no
  step reads them.
- `Accounting`, `MutualExclusion`, `Recovery`, `ExactlyOnce`, `Snapshots`, `SerialOrder`, `Admission`,
  `Backpressure`, `LanePass`: invariants of every reachable state of every run, and what follows from them.
  `Overtaking`: one concrete run.
- `LaneBooks`: the lane book, the hint channel and the claim rows as objects updated in place, with the loops of the source,
  proved against the functions of `Lanes`; `JudgeIsTheStep` ties the pass to the step system.
- `Reports`, `Episodes`: what single writes and whole episodes of one process leave behind, from any state.
- `Limiter`, `Executor`: the action semaphore and the retry loop. `Permits`: the dispatcher and its processes'
  limiters as one system.
- `Utf8`, `Launch`, `Quoting`: captured output and the copyable command.
- `Civil`, `Calendar`, `DateTexts`, `Projection`, `Truth`: the calendar pages. `Neighbours`: the neighbour query.

What lies outside is a parameter: the store's answer to each timer read of a lane pass, how many hints the
workers take meanwhile, the chunks of a pipe, the answers of attempts, what the token shows at each check, how
many slices a backoff lasts, the previews of a schedule, the current instant.

## What turned out different from the promise

- Serial order fails in one window: a worker releases the lane with its claim unfinished, after a panic or a
  timer-load error, while the pump waits for the lane lock with a snapshot that lists other claims of the timer but
  not this one. `DisorderNeedsOvertaking` reduces disorder to hints that go out past an unfinished older claim,
  `OvertakesExactly` says exactly when that happens, and `PanicBreaksSerialOrder` gives a whole run without failed
  writes in which the claims of a QueueOne timer start as 1, 2, 1.
- Standard error of a launch gets too little room. `run_launch` passes the room left under the cap, and
  `push_utf8_capped` subtracts the text's length from it a second time. `StderrLostExample` loses five bytes
  with five free; `StderrKeptWhole`, `AsciiKeepsItsShare` and `BothKeptExactly` say exactly when nothing is lost.
- The captured output can exceed its cap by one byte, the newline; `OutputBound` says exactly when.
- Two-digit years: `new Date(y, m, d)` reads years 0 to 99 as 1900 to 1999. `PartsMeetTheStandard`,
  `SameWeek`, `GridRightExactly` and `DaysInMonthIsLength` give the exact dates for which the calendar is right; from
  year 101 on it always is, and in January 100 the month grid is not (`January100Grid`).
- The pages compare dates as texts whose year is not padded. Where a year gets a digit more, as in the grid of
  December 9999, a page shows nothing: `PageShownExactly`, `PageProjectedExactly`, `EmptyPage`.
- The client's calendar drops an event logged without a run when a run's entry already took its timer and
  second, so a skipped misfire shows or not by the order of the log: `LostSkipExample`,
  `KeptSkipExample`, `EntryExactlyWhenUnblocked`. Events with neither run nor timer all share one entry: `AnonymousEventsCollapse`.
- Comments that the code does not match, where the code is followed: `attempts` in `ExecOutcome` is documented as
  the number of tries including the first (`crates/bellman-core/src/actions/executor.rs:48-57`) and counts the
  retries; the fourteen-day horizon of the neighbour query
  (`src-tauri/src/neighbours.rs:33-35`) is documented as a bound and bounds nothing there.

## Model

| member | source | states |
|---|---|---|
| Accounting.AlwaysAccounted | crates/bellman-core/src/actions/dispatcher.rs:117-139 | In every state of every run, per process: each queued lane id is exactly one hint in the channel or in the hands of one worker that has not moved it, each active id is held by exactly one worker, no run is in two places, a lane's token keys are its queued and active ids, every token belongs to one (timer, run), and an executing worker holds the token stored under its own run |
| Accounting.ReleaseFindsOwnLane | crates/bellman-core/src/actions/dispatcher.rs:709-721 | The search of `release_queued` through all lanes can only find the lane of the claim's own timer, so breaking at the first match is right |
| MutualExclusion.AlwaysLocked | crates/bellman-core/src/actions/dispatcher.rs:151-170 | In every state: a process that believes it owns the lock does own it (but for the moment in shutdown when the lock is already released), and a process with a busy worker, a hint in its channel or a pump past the ownership check owns it until its threads are joined |
| MutualExclusion.NoRunTwice | crates/bellman-core/src/actions/dispatcher.rs:547-585 | With crashes, takeovers, panics, store errors and stale snapshots, no run is ever handled by two workers, in one process or in two |
| MutualExclusion.LanesStayWithinLimit | crates/bellman-core/src/actions/dispatcher.rs:478-492 | If the timer's limit was never above `k`, no lane of it in any process ever holds more than `k` reservations |
| MutualExclusion.ExecutingWithinLimit | crates/bellman-core/src/actions/dispatcher.rs:478-504 | If the timer's limit was never above `k`, at most `k` of its claims execute at once over all processes |
| MutualExclusion.SerialNeverConcurrent | crates/bellman-core/src/actions/dispatcher.rs:478-492 | In every run in which a timer is always Skip, QueueOne or Replace, no two of its claims ever execute at once, in whatever processes |
| MutualExclusion.ParallelWithinCap | crates/bellman-core/src/actions/dispatcher.rs:478-492 | In every run in which a timer is always Parallel with a cap of at most `c`, at most `c` of its claims execute at once over all processes |
| Recovery.AlwaysRecoverySound | crates/bellman-core/src/actions/dispatcher.rs:252-278 | Invariant behind recovery, for runs in which no write on the timer's claims fails: an owner that has recovered has, for every active row of the timer, a worker that owes it a result |
| Recovery.StartedOwnsEveryActiveClaim | crates/bellman-core/src/actions/dispatcher.rs:372-391 | While a process serves and is STARTED, it owns the OS lock and every active claim of a timer whose writes succeed is held by one of its live workers |
| Recovery.NoWorkBeforeRecovery | crates/bellman-core/src/actions/dispatcher.rs:247-251 | No hint is out, no worker is busy and no pending row is read before this owner's recovery has run |
| Recovery.NothingStranded | crates/bellman-core/src/actions/dispatcher.rs:335-339 | After any crash or shutdown, once the next lock owner has recovered, each unfinished claim of such a timer is pending or owed by one of its workers, and pending if all its threads are joined |
| Episodes.PumpTakesOver | crates/bellman-core/src/actions/dispatcher.rs:365-391 | From any state in which a process does not own the lock and it is free: the pump takes it, every active row becomes pending, no other row changes, and the process is STARTED |
| Episodes.BootStarts | crates/bellman-core/src/actions/dispatcher.rs:252-278 | The same for the boot caller, which may own the lock already |
| Episodes.RestingProcessShutsDown | crates/bellman-core/src/actions/dispatcher.rs:318-340 | A process at rest shuts down: its pump halts, its workers exit, its sender is gone, and the lock is free |
| Episodes.PumpFailuresOnlyMove | crates/bellman-core/src/actions/dispatcher.rs:365-440 | A failed read or write of the pump changes nothing but the pump's place in its loop, and a lock held by anyone is not taken |
| Episodes.OtherFailures | crates/bellman-core/src/actions/dispatcher.rs:252-278 | A timer that cannot be read goes the way of a panic; a store that does not open, and a closed channel, end the worker; a failed boot write starts without recovery |
| ExactlyOnce.OneTerminalEvent | crates/bellman-core/src/actions/dispatcher.rs:681-705 | At most one terminal event per run in all histories; exactly one precisely when a worker's or fire's transaction closed the run; the event tells the stored outcome; a closed row never changes again |
| Reports.CommitRecords | crates/bellman-core/src/actions/dispatcher.rs:681-705 | A worker's successful completion closes the row of its run, if still open, with the very outcome it holds, appends exactly that event and leaves every other row; a failed one, and one on a closed row, changes nothing |
| Reports.CasActivates | crates/bellman-core/src/actions/dispatcher.rs:562-577 | The compare-and-swap activates a pending row and wins, or changes nothing and loses |
| Reports.RependReturns | crates/bellman-core/src/actions/dispatcher.rs:605-627 | The return to pending reopens an active row and touches nothing else |
| Reports.RowsHoldReports | crates/bellman-core/src/actions/dispatcher.rs:629-705 | In every run a row closed by a worker holds an outcome that a worker reported of that very run, or `timer_deleted` found by a worker whose timer was gone |
| Episodes.HintIsServed | crates/bellman-core/src/actions/dispatcher.rs:525-679 | From any state with an idle worker and a hint of a pending claim: handling it with answer `o` leaves the row finished with `o`, one event and one start more, the reservation released, the worker idle, and nothing else changed but the token counter |
| Episodes.OrphanIsClosed | crates/bellman-core/src/actions/dispatcher.rs:587-604 | If the timer is gone the claim is closed as failed and never started |
| Episodes.PanicGivesBack | crates/bellman-core/src/actions/dispatcher.rs:613-627 | If the action panics all rows end as they were, the claim pending, with one start more and the reservation released |
| Episodes.StaleHintIsDropped | crates/bellman-core/src/actions/dispatcher.rs:547-577 | A hint of a claim that is no longer pending, or cannot be read, changes no row and gives its reservation back |
| Episodes.ReportsExactly | crates/bellman-core/src/actions/dispatcher.rs:629-679 | An executing worker may report success or failure at any time, an interruption exactly when its token was signalled, and nothing else |
| ExactlyOnce.OnlyReplacedRunsAreCancelled | crates/bellman-core/src/actions/dispatcher.rs:417-432 | If the token that a worker holds is signalled, or a row says `overlap_replace`, then a Replace fire asked this very run to stop and a newer claim of its timer exists: cancellation reaches no other run |
| ExactlyOnce.RequestedRunsAreSignalled | crates/bellman-core/src/actions/dispatcher.rs:417-432 | Whatever runs between: once the pump has read the requests and signalled, every run that was active and asked to stop when it read, and whose token a lane of this process holds, is cancelled |
| ExactlyOnce.TokenIsKept | crates/bellman-core/src/actions/dispatcher.rs:578-585 | While a lane holds a run's token it stays the same one, so a signal to a queued claim reaches its execution |
| Episodes.PumpComesRound | crates/bellman-core/src/actions/dispatcher.rs:393-453 | From the top of its loop a STARTED owner's pump reaches the lane lock with the groups of all pending claims, having signalled exactly the tokens stored under active runs asked to stop |
| Store.FireAgrees | crates/bellman-core/src/tree/mod.rs:992-1048 | The fire transaction, whatever the policy, keeps rows and outbox in agreement: one terminal event per closed run and none for an open one, each with the outcome of its row |
| Store.ClosingAgrees | crates/bellman-core/src/store/mod.rs:1836-1856 | A worker's completion transaction and the pump's eventless close of an orphan keep that agreement, also when another transaction closed the row first |
| Store.StatusTransitionsAgree | crates/bellman-core/src/store/mod.rs:350-391 | Activation and both returns to pending keep that agreement |
| Store.ReplacePendingShape | crates/bellman-core/src/tree/mod.rs:1013-1031 | Closing the older pending claims finishes every listed one, leaves every other row as it was and adds no row |
| Store.FireExtends | crates/bellman-core/src/tree/mod.rs:865-872 | A fire never removes a row, never changes a finished row, a timer id or a sequence number, and withdraws no cancellation request |
| SerialOrder.SerialStartsInOrder | crates/bellman-core/src/actions/dispatcher.rs:442-492 | When no write on the timer's claims fails, but with any crashes, takeovers, recoveries, panics, timer-load errors, stale snapshots and failed writes elsewhere, the claims of a timer with limit 1 start in non-decreasing sequence order, unless a worker releases the lane, its claim unfinished, while the pump waits for the lane lock with a snapshot of the timer that lacks that claim |
| SerialOrder.DisorderNeedsOvertaking | crates/bellman-core/src/actions/dispatcher.rs:442-492 | In every run, whatever fails, the claims of a timer with limit 1 start out of order only if some hint of it went out while an older claim was unfinished |
| Snapshots.OvertakesExactly | crates/bellman-core/src/actions/dispatcher.rs:434-512 | When no write on the timer's claims fails: a hint of a timer with limit 1 goes out while a given older claim is unfinished if and only if, between this pass's snapshot and its lane lock, a worker released that claim unfinished and the snapshot does not list it, and no Replace fire closed it since |
| Snapshots.AlwaysPassOrdered | crates/bellman-core/src/actions/dispatcher.rs:434-453 | Invariant behind it: a group of the pass is oldest first, and an older claim that it does not list is finished, kept by a worker, reserved, or released in that window |
| SerialOrder.SerialStartsStrictly | crates/bellman-core/src/actions/dispatcher.rs:442-492 | If moreover no claim of this timer returns to pending, the sequence numbers of its starts strictly increase, without any condition on releases |
| SerialOrder.StartsTwiceOnlyAfterReturn | crates/bellman-core/src/actions/dispatcher.rs:547-585 | In every run, ordered or not, a claim starts a second time only if a step returned a claim of its timer to pending |
| Overtaking.PanicBreaksSerialOrder | crates/bellman-core/src/actions/dispatcher.rs:613-627 | There is a run without failed writes in which exactly one action panics, that of the older claim of a serial timer, and exactly one release comes in the window, later and of the same claim, and the claims start older, newer, older |
| Admission.OpenClaimsBounded | crates/bellman-core/src/tree/mod.rs:1004-1012 | A timer that keeps one policy never has more open claims than it admits: one under Skip, two under QueueOne, `cap` under Parallel, through all executions, recoveries and crashes |
| Admission.FireDisposes | crates/bellman-core/src/tree/mod.rs:992-1048 | A fire's claim is pending if and only if the policy is Replace, or the timer has no open claim under Skip, at most one under QueueOne, fewer than `cap` under Parallel; otherwise it is closed at once with the policy's own reason and exactly that event; without Replace no other row changes |
| Admission.ClaimsAreNumbered | crates/bellman-core/src/tree/mod.rs:865-872 | In every state of every run the claims of a timer carry the numbers from 1 to their count, each once |
| Admission.ReplaceLeavesTheNewest | crates/bellman-core/src/tree/mod.rs:980-990 | After a fire under Replace the new claim is the timer's only pending one, each other open claim is active with cancellation requested, the closed ones say `overlap_replace_before_start`, and no other timer's row changed |
| Admission.ReplaceDisposes | crates/bellman-core/src/tree/mod.rs:1013-1031 | Row by row: older pending claims are closed as replaced, with one event each in order, active ones asked to stop, all others unchanged |
| Admission.DeliveredWasStarted | crates/bellman-core/src/actions/dispatcher.rs:629-644 | In every run, a claim that its row or an event records as delivered was started; orphans, skips, replacements and crashes are never recorded as success |
| Backpressure.ReservationsBounded | crates/bellman-core/src/actions/dispatcher.rs:176-186 | Live reservations never exceed hints in the channel plus claims in workers' hands, hence three times the workers, and a run is reserved in one lane only |
| Backpressure.IdleHoldsNothing | crates/bellman-core/src/actions/dispatcher.rs:723-737 | With an empty channel and idle workers every lane is empty: no reservation leaks, whatever happened before |
| Backpressure.PassClosesOrphansOnly | crates/bellman-core/src/actions/dispatcher.rs:467-477 | In every run, a step of the lane pass changes no claim but one whose timer is gone, which it closes as failed, and writes no event |
| Backpressure.FreePassSends | crates/bellman-core/src/actions/dispatcher.rs:451-515 | In every run, a lane pass that begins with an empty channel and idle workers, with a claim of a timer of non-zero limit listed, sends a hint before it ends, whatever other threads and processes do, unless the sender closes, the timer is deleted or barred, or a timer read fails |
| LanePass.PassEndsSettled | crates/bellman-core/src/actions/dispatcher.rs:451-515 | In every run, whatever the other threads and processes do meanwhile, a lane pass from lane lock to end either gives up because it has a hint to send and the channel is full or closed, or has left each timer of its snapshot because a read failed or the lane was full, or has found each of its claims reserved, an orphan that it closed, barred by limit 0, or has sent it |
| LanePass.HintSentExactly | crates/bellman-core/src/actions/dispatcher.rs:455-512 | The pass sends the hint of the claim it considers if and only if the timer could be read and exists, the claim is not reserved, its lane holds none under Skip, QueueOne and Replace or fewer than `cap` under Parallel, the sender is open, and fewer hints than twice the workers are waiting; then the reservation is queued last in its lane; no other lane changes |
| Permits.PermitsWithinWorkers | crates/bellman-core/src/actions/dispatcher.rs:176-184 | In every run of dispatcher and limiters together, where a worker reports an attempt's outcome only after it took a permit and gave it back, the permits in use are at most the workers executing an action, and no call has ever waited |
| Permits.AcquireIsImmediate | crates/bellman-core/src/actions/concurrency.rs:94-114 | In every such run a call of `acquire` gets its permit at once |
| Permits.EveryRunIsJoint | crates/bellman-core/src/actions/executor.rs:152-165 | Every run of the dispatcher is, step by step and state by state, the dispatcher part of such a run: before each such report the worker takes a permit at once, runs and gives it back, so the limiter never keeps a worker from going on |
| LaneBooks.JudgeIsTheStep | crates/bellman-core/src/actions/dispatcher.rs:455-512 | One step of the step system's lane pass changes rows, lanes, channel and pump exactly as the verdict that the class method computes, and nothing else |
| LaneBooks.LaneBook.ReleaseQueued | crates/bellman-core/src/actions/dispatcher.rs:709-721 | The loop drops the run from one lane that queues it, with its token, and changes nothing if none does |
| LaneBooks.LaneBook.MoveToActive | crates/bellman-core/src/actions/dispatcher.rs:578-585 | The reservation moves from queued to active; the token handed out is the one already stored under the run, if any |
| LaneBooks.LaneBook.FinishLane | crates/bellman-core/src/actions/dispatcher.rs:723-737 | The lane forgets the run and its token; an empty lane is removed |
| LaneBooks.LaneBook.Signal | crates/bellman-core/src/actions/dispatcher.rs:419-431 | The nested loop signals exactly the tokens stored under the given run ids, in any lane |
| LaneBooks.LaneBook.Consider | crates/bellman-core/src/actions/dispatcher.rs:455-512 | One claim of the pass: the branch taken, the new lanes and the new channel |
| LaneBooks.LaneBook.PassTimer | crates/bellman-core/src/actions/dispatcher.rs:453-513 | The pass over one timer: only its unreserved eligible claims become hints, other lanes stay, no lane grows past the limits read; only unreserved claims whose timer is gone are closed, in the row object, and no row else changes; it ends with a full channel, a closed one, or the timer served, orphans closed included |
| LaneBooks.LaneBook.Pass | crates/bellman-core/src/actions/dispatcher.rs:451-515 | The whole pass, with workers taking hints meanwhile: as for one timer, and unless a send found the channel full or closed every timer is served (load error, full lane, or each claim reserved, closed as an orphan or barred by limit 0); with nothing reserved, an empty open channel and something to send it sends |
| LaneBooks.ClosedExactly | crates/bellman-core/src/actions/dispatcher.rs:470-476 | Of the orphans a pass closes, exactly the open ones whose write succeeds end, as failures and without an event; every other row stays |
| LaneBooks.PassSends | crates/bellman-core/src/actions/dispatcher.rs:505-512 | Whatever way a pass over empty lanes and an empty channel ended, if it had an eligible claim and no timer read failed, it sent a hint |
| Limiter.AlwaysSound | crates/bellman-core/src/actions/concurrency.rs:94-140 | In every interleaving, with barging, spurious wakes and resets: in-flight equals the permits held, in-flight <= peak <= max, grants since the reset = in flight + returned, counters saturate, and while a thread sleeps the free permits are at most the woken waiters plus the notifies under way |
| Limiter.PeakIsTheMost | crates/bellman-core/src/actions/concurrency.rs:155-192 | The peak is the largest number of permits in use at any time since the last reset, and that number was reached |
| Limiter.NeverStuck | crates/bellman-core/src/actions/concurrency.rs:99-109 | Unless all threads are outside, some thread inside can move without a newcomer or a spurious wake |
| Limiter.DrainIsBounded | crates/bellman-core/src/actions/concurrency.rs:94-140 | Once nobody new arrives, every schedule ends within a bound fixed at its start, plus two steps per spurious wake |
| Limiter.QuietStatistics | crates/bellman-core/src/actions/concurrency.rs:167-192 | When all threads are outside, `completed` is the number of permits granted since the reset |
| Limiter.SharersNeverWait | crates/bellman-core/src/actions/dispatcher.rs:176-184 | With no more threads than permits, `acquire` never blocks and permits in use never exceed the threads |
| Limiter.ActionLimiter.BeginAcquire | crates/bellman-core/src/actions/concurrency.rs:94-114 | First critical section of `acquire`: new counters, and whether a permit was granted |
| Limiter.ActionLimiter.ContinueAcquire | crates/bellman-core/src/actions/concurrency.rs:102-113 | One return of the wait: new counters, and whether a permit was granted |
| Limiter.ActionLimiter.TryAcquire | crates/bellman-core/src/actions/concurrency.rs:116-129 | Grants exactly below the cap and changes nothing otherwise |
| Limiter.ActionLimiter.Release | crates/bellman-core/src/actions/concurrency.rs:131-140 | One permit back, one completion more, saturating |
| Limiter.ActionLimiter.ResetStats | crates/bellman-core/src/actions/concurrency.rs:155-164 | Peak restarts from the permits in use; permits and waiters stay |
| Executor.Execute | crates/bellman-core/src/actions/executor.rs:105-150 | The loop's exit and its trace: `Failed` after exactly `max_retries + 1` retryable failures, `Delivered` with `attempts = k` after exactly `k`, `Cancelled` right after a set token or a cancelled launch, a panic passed on; after each attempt but the last exactly as many sleeps as slices of the delay, none if there is no delay or sleeping is off; it terminates |
| Executor.Backoff | crates/bellman-core/src/actions/executor.rs:135-146 | Sleeps slice by slice for exactly the slices of the delay, or not at all without one, unless a check sees the token, and stops there |
| Executor.BackoffIsCancellable | crates/bellman-core/src/actions/executor.rs:135-146 | Every sleep follows a check that saw the token clear; a check that sees it set is the last act, and the loop reports `Cancelled` |
| Executor.OutcomeIsForced | crates/bellman-core/src/actions/executor.rs:115-149 | While the token stays clear: `Failed` if and only if the first `max_retries + 1` answers are retryable failures, `Delivered` if and only if one of them succeeds after retryable failures only |
| Executor.NoAttemptAfterCancellation | crates/bellman-core/src/actions/executor.rs:116-118 | A token set by check `n` allows at most `n` attempts and no check after it |
| Executor.NoPermitAcrossBackoff | crates/bellman-core/src/actions/executor.rs:152-165 | At every check and every sleep the permits taken have been given back |
| Utf8.LossyPrefix | crates/bellman-core/src/actions/launch.rs:211-211 | The first `k` bytes of well-formed UTF-8 decode to the characters that lie whole inside, plus one U+FFFD exactly when the cut splits a character |
| Utf8.DecodeOneIsRight | crates/bellman-core/src/actions/launch.rs:211-211 | A well-formed character at the front is decoded whole; otherwise one U+FFFD stands for the first byte and continuation bytes only |
| Utf8.NothingLostAfter | crates/bellman-core/src/actions/launch.rs:211-211 | Whatever bytes come first, a well-formed text after them is decoded whole |
| Utf8.EncodeExamples | crates/bellman-core/src/actions/launch.rs:211-211 | The encodings of one character of each length, byte by byte |
| Utf8.BoundaryIsPrefix | crates/bellman-core/src/actions/launch.rs:216-220 | The byte test for a boundary holds exactly where a whole number of characters ends |
| Utf8.FloorBoundary | crates/bellman-core/src/actions/launch.rs:217-221 | Walking down from a limit ends at the longest whole-character prefix that fits |
| Utf8.TruncateUtf8 | crates/bellman-core/src/actions/executor.rs:220-230 | Short text unchanged; else the longest whole-character prefix of at most `max` bytes and "…" |
| Launch.ReadCappedPipe | crates/bellman-core/src/actions/launch.rs:182-205 | Reads to the end and keeps exactly the first min(cap, n) bytes for every chunking and interruption; fails if and only if a read fails, at the first failure |
| Launch.Output.PushCapped | crates/bellman-core/src/actions/launch.rs:207-223 | Appends the longest whole-character prefix of the decoded bytes that fits under the cap, counting the text already there |
| Launch.Assemble | crates/bellman-core/src/actions/launch.rs:153-170 | The assembled text: standard output up to the cap, a newline if both parts are there, and as much standard error as the twice-reduced room holds; a broken pipe counts as empty |
| Launch.OutputBound | crates/bellman-core/src/actions/launch.rs:162-170 | At most `cap + 1` bytes, and `cap + 1` exactly when standard output fills a non-zero cap and standard error is not empty |
| Launch.OutputIsText | crates/bellman-core/src/actions/launch.rs:162-170 | The output is well-formed UTF-8 for all bytes captured |
| Launch.StderrKeptWhole | crates/bellman-core/src/actions/launch.rs:168-169 | Standard error is kept whole if and only if its decoded text fits the cap less twice the bytes before it; one subtraction would keep it whole if and only if it fits the cap less them once; the two rooms agree if and only if nothing comes before or no room is left |
| Launch.AsciiKeepsItsShare | crates/bellman-core/src/actions/launch.rs:168-169 | For ASCII text, what is kept equals what one subtraction would keep if and only if nothing comes before, no room is left, or the whole text fits the reduced room |
| Launch.RecordOutput | crates/bellman-core/src/actions/launch.rs:105-170 | From the two pipes to the text: standard output read up to the cap, standard error up to half of it; well-formed and at most `cap + 1` bytes for all pipes |
| Launch.BothKeptExactly | crates/bellman-core/src/actions/launch.rs:162-223 | Well-formed output within the two pipe caps is recorded completely, for every chunking, if and only if standard error fits the cap less twice the bytes before it |
| Launch.AsciiRecorded | crates/bellman-core/src/actions/launch.rs:105-223 | ASCII output of any length: standard output up to the cap, a newline if both parts are there, then standard error up to half the cap and up to the cap less twice the bytes before it |
| Launch.StderrBounded | crates/bellman-core/src/actions/launch.rs:105-223 | Of any standard error only the first `cap / 2` bytes are read, and what is kept fits the cap less twice the bytes before it |
| Launch.StderrKeepsItsShare | crates/bellman-core/src/actions/launch.rs:168-169 | For all bytes: what is kept equals what one subtraction would keep if and only if no whole-character prefix has a size between the two rooms |
| Launch.StderrDroppedFromHalf | crates/bellman-core/src/actions/launch.rs:168-169 | Once the text before it takes half the cap, all of standard error is dropped |
| Launch.StderrLostExample | crates/bellman-core/src/actions/launch.rs:168-169 | A concrete loss with room to spare |
| Launch.WholeOutputKept | crates/bellman-core/src/actions/launch.rs:162-223 | Well-formed standard output of at most `cap` bytes is recorded unchanged for every chunking of the two pipes when standard error is empty |
| Quoting.CommandReadsBack | src-tauri/src/demo.rs:140-148 | A POSIX shell lexer reads the displayed command as exactly four words, the second and fourth being the two paths, for all paths |
| Quoting.LexQuoted | src-tauri/src/demo.rs:128-138 | A quoted argument reads back as one word, whatever follows it |
| Quoting.BareExactlyWhenSafe | src-tauri/src/demo.rs:130-134 | An argument stays unquoted exactly when it is non-empty and made of safe characters |
| Civil.DayFromYearCounts | ui/src/api.js:448-456 | The closed day-number formula behind `new Date(year, month, day)` equals the count of the years' lengths, leap years by the Gregorian rule, for every year |
| Civil.FieldsRoundTrip | ui/src/api.js:352-354 | Year, month and day of the month determine the day, and the day determines them |
| Civil.CopyIsSame | ui/src/api.js:442-444 | The helpers' copy of a date is the same day exactly when its year is not 0 to 99 |
| Calendar.AddDays | ui/src/api.js:441-446 | `days` after the copy of the date |
| Calendar.IsoWeekStart | ui/src/api.js:350-357 | The Monday on or before the copy of the date |
| Calendar.ComputeIsoWeekParts | ui/src/api.js:371-386 | The object-level computation yields the specified parts |
| Calendar.WeekDateRoundTrip | ui/src/api.js:371-386 | By the standard's definition: the week offset is a multiple of 7 days, the week is in 1..53, and week-year, week and weekday give back the date |
| Calendar.WeekOneHoldsFourthJanuary | ui/src/api.js:364-367 | Week 1 is exactly the week that holds 4 January, and exactly the week that holds the first Thursday, of its week-year |
| Calendar.NextWeek | ui/src/api.js:364-386 | The next Monday is the next week of the year or week 1 of the next |
| Calendar.PartsMeetTheStandard | ui/src/api.js:371-386 | The code's parts are the standard's if and only if the date, its Monday and its Thursday all lie outside the years 0 to 99 |
| Calendar.ClearFrom101 | ui/src/api.js:371-386 | From year 101 on that condition always holds |
| Calendar.SameWeek | ui/src/api.js:433-439 | `dateInIsoWeek` agrees with the displayed week and week-year on every date if and only if the Monday of the anchor's week lies outside the years 0 to 99 |
| Calendar.DaysInMonthIsLength | ui/src/api.js:453-456 | The Gregorian month length, if and only if the month is not February of year 0 |
| Calendar.MonthGrid | ui/src/api.js:458-468 | The loop builds 42 days from the Monday on or before the first of the month, consecutive under the condition of `GridRightExactly`, and computes the specified grid for all months |
| Calendar.GridHoldsTheMonth | ui/src/api.js:458-468 | Under that condition: no day twice, the first cell a Monday, each day of the month at its own cell |
| Calendar.GridClearExactly | ui/src/api.js:458-468 | The predicate behind that condition, year by year: the year is not 0 to 99 and the month is not January 100 |
| Calendar.GridRightExactly | ui/src/api.js:458-468 | The grid is the 42 days from the Monday on or before the first of the month if and only if the year is not 0 to 99 and the month is not January 100 |
| Calendar.TwoDigitYearGrid | ui/src/api.js:458-468 | A year from 0 to 99 gets the right grid of the same month of the 1900s |
| Calendar.January100Grid | ui/src/api.js:458-468 | The grid of January 100 opens in the 1900s and is wrong |
| Calendar.MonthTruthRange | ui/src/api.js:503-509 | The requested range is the first and last cell, a Monday and the Sunday 41 days later |
| DateTexts.DateTextOf | ui/src/api.js:525-530 | The text of every date of a year from 0 on: the year with as many digits as it needs, then month and day with two each |
| DateTexts.DateTextExample | ui/src/api.js:525-530 | The leap day of 2024, letter by letter |
| DateTexts.TextOrder | ui/src/api.js:525-530 | Date texts, whose year is not padded, compare as the days do whenever the years have equally many digits |
| DateTexts.TextOrderExactly | ui/src/api.js:525-530 | Two days of the same year or of consecutive ones compare as texts as they do as days if and only if the years have equally many digits |
| DateTexts.PageShownExactly | ui/src/calendar-truth.js:270-272 | The text test of a week or month page lets all its days through if and only if its first and last year have equally many digits, and any day at all if and only if they have |
| DateTexts.December9999Grid | ui/src/api.js:503-509 | No date at all passes the test with the range of the grid of December 9999 |
| Calendar.ShiftMonthYear | ui/src/api.js:476-482 | Terminates for every delta, conserves 12·year + month + delta, and lands in 0..11, which determines the result |
| Calendar.ShiftsCompose | ui/src/api.js:470-482 | Shifting by `a` and then by `b` is shifting by `a + b`, so shifts undo each other |
| Projection.Walk | ui/src/calendar-truth.js:293-332 | The day walk equals the comprehension: one fire for every day from the copy of the first date to the copy of the last whose date text lies between theirs, that the schedule names and whose instant is after now, ascending |
| Projection.ProjectTimer | ui/src/calendar-truth.js:264-348 | The same for every kind of schedule, with the single known fire of the other kinds, tested by its date text |
| Projection.RangeIsProjected | ui/src/calendar-truth.js:270-332 | From year 100 on, if both years have equally many digits, the walk projects exactly the named days of the range still to come |
| Projection.PageProjectedExactly | ui/src/calendar-truth.js:270-332 | With the clock in year 2000 or later, a page gets exactly those if and only if its first and last year have equally many digits or none of its fires is still to come |
| Projection.FiresOfTheDay | ui/src/calendar-truth.js:273-309 | Each fire is midnight of its day plus the time of day; a daily timer has one on every day of the range still to come, a weekly one on the listed ISO weekdays |
| Projection.SingleFire | ui/src/calendar-truth.js:333-346 | Another kind of timer has exactly its one known fire, if still to come and shown |
| Projection.OncePerMonth | ui/src/calendar-truth.js:310-320 | A monthly timer has exactly one fire in each covered month whose time is still to come, on its day or the month's last |
| Projection.OncePerYear | ui/src/calendar-truth.js:321-332 | A yearly timer has exactly one fire in each covered year whose time is still to come |
| Truth.Record | ui/src/calendar-truth.js:127-168 | The loop over events, accepted by date text: one entry per key, standing for the first event of its key with the best outcome of all of them, and the seen keys |
| Truth.Project | ui/src/calendar-truth.js:170-193 | Exactly the projected fires whose timer and second no recorded entry took |
| Truth.BuildClientTruth | ui/src/calendar-truth.js:122-193 | Both together |
| Truth.PastAndFuture | ui/src/calendar-truth.js:106-110 | Recorded entries lie strictly before now, upcoming strictly after, all pass the text test of the window and lie in it if the years have equally many digits, and no upcoming entry shares timer and second with a recorded one |
| Truth.EmptyPage | ui/src/calendar-truth.js:122-193 | A page whose first and last year have different numbers of digits shows nothing, whatever is recorded or scheduled |
| Truth.OneEntryPerRun | ui/src/calendar-truth.js:139-150 | Each run with an accepted event has exactly one entry, with the highest-ranked outcome of its accepted events |
| Truth.RunOutcomeByKinds | ui/src/calendar-truth.js:205-245 | A run has an entry if and only if the log has one of the seven outcome kinds of it before now on a shown date; it says failed if one is a failure or a missing acknowledgement, else skipped, coalesced or late if one is, else delivered |
| Truth.UpcomingIsComplete | ui/src/calendar-truth.js:170-193 | A projected fire is listed, or the log has an accepted event of the same timer and second; if listed, no recorded entry has both |
| Truth.OrderDoesNotMatter | ui/src/calendar-truth.js:243-245 | That outcome is the same for every order of the events |
| Truth.EntryExactlyWhenUnblocked | ui/src/calendar-truth.js:139-151 | A key has an entry if and only if no run took it before its first event |
| Truth.LostSkipExample | ui/src/calendar-truth.js:142-151 | A skipped misfire, logged without a run after a delivered run of the same timer and second, gets no entry |
| Truth.KeptSkipExample | ui/src/calendar-truth.js:142-151 | Logged before it, both have one |
| Truth.AnonymousEventsCollapse | ui/src/calendar-truth.js:99-104 | Events with neither run nor timer share a single entry |
| Truth.KeysAreTexts | ui/src/calendar-truth.js:99-141 | The texts that the code uses as keys tell all keys apart as long as no timer id begins with `run:` |
| Truth.KeysMayCollide | ui/src/calendar-truth.js:99-141 | With such a timer id a run and a timer's second can share a key |
| Neighbours.FillBuckets | src-tauri/src/neighbours.rs:272-320 | The loops fill each candidate's two buckets with the hits of the scanned timers' expanded fires in that relation |
| Neighbours.BucketsRefineTheSchedule | src-tauri/src/neighbours.rs:258-320 | Under the preview contract: a bucket holds only real fires in the right relation, and each such fire unless its timer had 48 earlier fires after the cursor |
| Neighbours.AdjacentIsFull | src-tauri/src/neighbours.rs:322-334 | On a sorted list in which equal keys have equal distance and name, dropping adjacent repeats drops all repeats |
| Neighbours.SortHitsKeeps | src-tauri/src/neighbours.rs:322-334 | Sorting and deduplicating keeps, for every hit, one of the same key that is not farther away |
| Neighbours.FlatList | src-tauri/src/neighbours.rs:340-356 | The flat list holds only hits of the buckets and represents each; no key twice if equal keys are equally far |
| Neighbours.NearestPerTimer | src-tauri/src/neighbours.rs:365-376 | Per timer one hit of smallest distance |
| Neighbours.RunQuery | src-tauri/src/neighbours.rs:235-390 | With unique timer ids: each candidate's two lists are its buckets, nearest first, then by name, timer and second, each (timer, second) once; the flat collisions are the (timer, second) pairs that hit some candidate, once each; the nearby list has one entry per timer, its nearest hit that collides with no candidate, and misses no timer that has one |
| Neighbours.BucketKeysOnce | src-tauri/src/neighbours.rs:322-334 | A candidate's sorted list never repeats a (timer, second) |
| Neighbours.AnswerIsTheSchedule | src-tauri/src/neighbours.rs:235-390 | Under the preview contract the whole answer is about the real schedule: the flat collisions are the real fires on a candidate's second; a nearby entry is a real fire beside a candidate and on none, and each such fire has an entry of its timer at least as near; only fires behind 48 earlier ones may be missed |

## Left out

- SQLite, file locks, threads and clocks: each transaction, atomic access, channel operation and critical section is one step; time appears as parameters.
- A second concurrent call of `begin_startup` or `shutdown_drain` in one process: one boot caller and one shutdown caller per process are modelled.
- Shutdown liveness: `pump_loop` can overwrite STOPPING with STARTED (`crates/bellman-core/src/actions/dispatcher.rs:379-385`), so that threads join is assumed where it matters, never concluded from the flag.
- The lock-free mode without a data directory, which only tests use.
- The wakeups of the pump, which may be lost by design; progress is stated per pass.
- Recovery.StartedOwnsEveryActiveClaim: for runs in which no store write on the timer's claims fails, as the source promises no more.
- SerialOrder.SerialStartsInOrder: an overtaking hint need not lead to a start, so the equivalence is stated where the hint is sent (`Snapshots.OvertakesExactly`).
- LaneBooks.LaneBook.Pass: other writers of the rows during the pass are part of the step system only (`LanePass`).
- Store.FireAgrees: ingestion and supersession of the previous run's reply state inside the fire transaction, which close no claim, are not part of the store model; neither are the closing shortcuts at `crates/bellman-core/src/store/mod.rs:307-317`.
- Process spawning, process groups, job objects and the wait loop of `run_launch`; only its bytes and texts are modelled.
- Daylight saving: civil dates are day numbers, local times milliseconds without zone, and the rounding in `isoWeekParts` has nothing to round.
- Projection.Walk: written dates of years before 0, whose text the code splits at the sign.
- Truth.BuildClientTruth: names, formatted dates and times, and the final display sort of the list are not modelled.
- Truth.Record: keys are values per kind; by `KeysAreTexts` these are the code's texts unless a timer id begins with `run:`.
- Calendar.ShiftMonthYear: years and months are unbounded integers, without the rounding of large JavaScript numbers.
- Neighbours.RunQuery: names and ids are numbers in the order of the strings; local date parts, kind names and statistics of a hit are not modelled.
- Quoting.CommandReadsBack: the lexer knows words, blanks, backslashes and single quotes and rejects everything else; joining the demo path is done by the caller.
- The scheduler, the occurrence engine, the publisher, IPC, the Tauri commands and the Svelte pages: other components or thin wrappers.
- The grouping and normalising helpers of `ui/src/calendar-truth.js`, the formatters of `ui/src/api.js`: easy members.
