# Verified model of Giskard's Claude harness, previews, git parsers and ledgers

Giskard drives one `claude` child process per thread. A *facade* (the harness object the server
calls) looks children up in shared locked maps and enqueues commands; a *supervisor* task owns each
child, a loop over stdout frames, queued commands, a shutdown flag and timers. This project models
that protocol and proves what every run of it keeps, and does the same for four smaller parts of the
repository whose correctness is not evident from reading them: the bounded output preview, the git
record parsers, the capped line reader and the token ledgers.

## How it is laid out

**One supervisor.** `Protocol` holds the vocabulary. `Steps` gives every supervisor operation as a
function from the state it starts in, and what the environment decides (`World`: time passed, whether
the one write succeeded, whether the caller gave up, what the shared maps held), to the state it
leaves; `Step` is one arm of the loop and `Run` any schedule of arms. Each operation appends what it
did to a history. `Trace` is the specification of that history: a monitor that says which
observation may follow which past, and never mentions the supervisor's fields. `Invariant`,
`Preservation` and `Safety` prove that every run from every spawn is accepted by the monitor and
keeps the books the fields stand for; `TraceFacts` and `Guarantees` turn that into statements about
any two moments of any run, and `StopSequence` adds that a stop only moves forward.
`Duties` is a second watch over the same history: from the observations alone it says what each event
(a command, an answer of the CLI, a deadline, a line, a stop) obliges the supervisor to do at once,
with what content. `DutiesKept` proves that every operation does exactly that, `DutyFacts` relates
each observation to the event it is due to, and `Outcomes` states the result in terms of the history
only: what every caller learns, that a turn is the one its command asked for, how a stop treats a live
turn. `Publications` adds that what a frame is to show is shown, once and in order.
`Supervision.Supervisor` is the supervisor as a class whose methods update its fields in place; each
method is proved to do what its `Steps` function says, and `RunTask` to do what `Run` says, so the
guarantees are guarantees about it. `FaithfulCli` adds a CLI that does what it answers and relates
what the supervisor tracks to what that CLI holds; `FaithfulRuns` puts it beside the loop,
`FaithfulHandOffs` follows a whole hand-off through any run of it, `FaithfulTurns` ties it to the
command it serves, and `LagWitness` is a run from a spawn that leaves the supervisor behind.

**The facade and all supervisors together.** `Harness` is a step relation in which every section
that runs under a lock is one step and any task may take the next step; a reap is two steps. A
supervisor's local state is reduced there to the stage it is in.
`HarnessSafety` proves the invariants of every interleaving, `HarnessGuarantees` states what they
mean. `Calls` gives each call of the facade as a function of the other tasks' moves at its awaits and
of whether a child could be spawned, and says when each of its results comes; `Facade.Facade` is the
facade as a class over the shared maps, proved to do what those functions say. `Asks` follows each ask of the
CLI through the pending map, a facade call's hand and the queue; `PendingRequests` is the pending
map as a class.

**One supervisor among the others.** The two layers are joined by proof. `Sections` reads the locked
sections off a supervisor's history and shows that each is one `Harness` allows when it is taken,
whatever the other tasks do in between. `Views` says what each operation adds to that reading and to
the answers written, over the frames of `Frames`. `AskActs` splits the books of `Asks` into what a
supervisor's own acts decide and what its callers may change in between; `AskProjection` proves that
every step of `Steps` is a row of such acts, so that every run, with calls between any two acts, is a
run of `Asks`, and `SectionProjection` that the stage of a child in `Harness` is always the one its
supervisor is in.

**The other parts.** `Text` (bytes, UTF-8, lines), `Preview`, `LineReader`, `GitText`, `GitStatus`,
`GitNumstat`, `GitLog`, `Ledger`.

`hide` statements in proofs only keep definitions out of the solver's way.

## What does not hold

* A withdrawn ask can still be answered although no turn starts between the facade taking the ask
  and enqueueing its answer: a compaction already queued before the answer clears the withdrawal
  when it is served (`Asks.ForgottenAfterTheEnqueue`). A serving child refuses the answer exactly when
  no turn began between the withdrawal and the serving of the answer
  (`Asks.WithdrawnAskIsRefusedUnlessRenewed`).
* An ask the facade took can be lost, and not only when its command cannot be enqueued: an enqueued
  answer is refused by a child that began to stop (`Asks.EnqueuedAnswerCanBeLost`), goes with the
  queue of a child that ended, or fails to be written. `Asks.TakenAskIsLostExactlyWhen` lists the
  steps that lose an ask, and over all runs there are no others.
* A hand-off that does not reach its user line can leave the tracked settings behind the CLI's:
  `LagWitness.FailedHandOffCanLag` is a run from a spawn whose model was accepted and whose effort
  level was refused. The supervisor is sure to track the CLI exactly when the hand-off was refused at
  its mode, at its model, or at its effort with no model changed; or was accepted at its mode or
  read-back and ended there; or fell silent (a deadline, a stop, an exit, a failed write) while asking
  for the mode already set. In every other case an equally possible CLI is left behind
  (`FaithfulHandOffs.EndedHandOffTracksExactly`).
* The byte count in the "line of more than ... bytes" error depends on how stdout was chunked: any
  count above the cap, up to the line's length and to one read buffer (8 KiB) over the cap, can be
  reported, so it is determined exactly when the line is one byte over (`LineReader.ReportedSizes`; two
  chunkings of one line, `LineReader.ReportedSizesDiffer`). The lines returned and whether there is an
  error do not depend on it (`LineReader.ReadsIsDetermined`).
* A rename one of whose paths is nothing but newlines is misread by the log parser: it takes records of
  the next file or commit for its paths, or, with too few records left, is itself not counted.
  That is so exactly for such renames, whatever follows them (`GitLog.RenameStaysAligned`, both
  directions; a log whose one file is lost, `GitLog.RenameCanBeLost`).
* `omitted + shown == original` in a preview fails exactly when the tail its loop starts from is longer
  than the original it is said to come from (`Preview.CountsAddUp`; two bytes said to come from one,
  `Preview.CountsCanDisagree`).

## Model

| member | source | states |
|---|---|---|
| Guarantees.RepliesConserved | crates/giskard-harness-claude/src/session.rs:552-596 | At every moment the reply channels received are those settled plus those held by exactly one of the hand-off in flight and the waiters; the stops collected are those answered plus those the stop sequence holds; none is received twice; after the supervisor's end nothing is held |
| Guarantees.SettledOnce | crates/giskard-harness-claude/src/session.rs:573-595 | No reply channel is settled twice and no stop answered twice, in any run |
| Guarantees.SettledWasReceived | crates/giskard-harness-claude/src/session.rs:1003-1034 | Only a channel that came out of the queue is ever settled |
| Guarantees.ReceivedIsSettled | crates/giskard-harness-claude/src/session.rs:2847-2898 | When the supervisor is gone every channel it received was settled |
| Guarantees.StopIsAnswered | crates/giskard-harness-claude/src/session.rs:915-938 | When the supervisor is gone every collected stop was answered, after exit handling |
| Guarantees.StopAnsweredAfterExit | crates/giskard-harness-claude/src/session.rs:934-938 | A stop is never answered before exit handling |
| Guarantees.RequestsAccounted | crates/giskard-harness-claude/src/session.rs:1084-1128 | Until exit the ids written and unanswered are exactly the disjoint union of the waiters, the hand-off's id and the abandoned ids, those a handshake abandoned included |
| Guarantees.UnmatchedWasAnswered | crates/giskard-harness-claude/src/session.rs:1116-1127 | "Nobody is waiting on" is reached for a written id, those the handshake wrote and abandoned included, only after it was answered |
| Guarantees.RequestsOnce | crates/giskard-harness-claude/src/session.rs:1457-1503 | A request id is written once and answered once |
| Guarantees.UserLineReady | crates/giskard-harness-claude/src/session.rs:1927-1986 | A user line follows its turn's start, which follows the start of this very hand-off, with no turn active and no other hand-off in flight, and with mode, model and requested effort those of the turn |
| Guarantees.UserLineOnce | crates/giskard-harness-claude/src/session.rs:1927-1986 | At most one user line per start-turn command |
| Guarantees.RequestsInOrder | crates/giskard-harness-claude/src/session.rs:1628-1748 | The settings requests of a hand-off go out in strictly increasing stage order under one budget |
| Guarantees.AtMostFourRequests | crates/giskard-harness-claude/src/session.rs:1701-1748 | One hand-off sends at most four settings requests |
| Guarantees.DeadlinesBounded | crates/giskard-harness-claude/src/session.rs:1581-1665 | No stage deadline passes 25 s after the hand-off began or 10 s after its own request |
| Guarantees.ReapedAfterQuiet | crates/giskard-harness-claude/src/session.rs:2495-2551 | A reap comes at least the timeout after a loop top that found the child idle, after the last stdout line and after every busy loop top, with no hand-off and no waiter |
| Guarantees.IdleTimerFiresExactlyWhen | crates/giskard-harness-claude/src/session.rs:2416-2510 | The idle timer fires iff the turn of the loop serves, finds nothing that keeps the child busy, reaping is on, and the child was idle and silent for the timeout |
| Guarantees.NotificationTimerFiresExactlyWhen | crates/giskard-harness-claude/src/session.rs:2481-2490 | The notification timer fires iff the mapper has waited for a turn after a notification for two seconds since the loop first found it waiting |
| Guarantees.ReapedStaysAway | crates/giskard-harness-claude/src/session.rs:1065-1080 | After its reap a child publishes no event, ask or route, touches neither its thread's entry nor log, and records, puts back, clears or drops none of its asks; the two exceptions, a withdrawal by the CLI and the closing of a route, still take pending asks away |
| Guarantees.StoppingServesNothing | crates/giskard-harness-claude/src/session.rs:2616-2692 | After the stop sequence starts no turn, settings request or answer is written, no second sequence starts, and the only control request is the stop's interrupt |
| Guarantees.StdinClosesOnce | crates/giskard-harness-claude/src/session.rs:2695-2747 | Stdin closes once and no control request follows it |
| Guarantees.StdinClosedBeforeKill | crates/giskard-harness-claude/src/session.rs:2749-2775 | A grace kill comes only after stdin was closed |
| Guarantees.AnswerAfterWithdrawal | crates/giskard-harness-claude/src/session.rs:1346-1381 | An answer written after its ask was withdrawn out of the pending map means a turn started, or an earlier answer was refused, in between |
| Outcomes.CallerLearnsItsAnswer | crates/giskard-harness-claude/src/session.rs:573-595 | Over every run, the CLI's answer to a caller's request is what that caller is told, and at once: done or the value on success, the refusal on an error, an odd response otherwise |
| Outcomes.HandOffLearnsItsAnswer | crates/giskard-harness-claude/src/session.rs:1671-1748 | While its caller was told nothing, the answer to a hand-off's request fails the hand-off with that very refusal, an unknown model named as one, or takes it to its next request or its turn |
| Outcomes.DoneMeans | crates/giskard-harness-claude/src/session.rs:1084-1115 | A caller is told that it is done only right after its line or its answer to an ask was written, its request was answered with success, or its task was found ended |
| Outcomes.ValueMeans | crates/giskard-harness-claude/src/session.rs:573-595 | A caller is given a value only if that is the successful answer to its own request |
| Outcomes.TimedOutMeans | crates/giskard-harness-claude/src/session.rs:1887-1911 | A hand-off times out only once the deadline of its own request in flight has passed; its caller learns the stage and the time waited |
| Outcomes.UserLineIsTheCommands | crates/giskard-harness-claude/src/session.rs:1607-1625 | A user line has the line, the turn and the settings of a start-turn command received under its reply channel, comes right behind that turn's start and that command's notice if it has one, with those settings held, and its caller learns whether it was written |
| Outcomes.UserLineIsConfirmed | crates/giskard-harness-claude/src/session.rs:1752-1817 | A user line comes at once after the CLI accepted its hand-off's mode, or after its read-back, which named the model asked for or its resolution, and the effort the line is written under |
| Outcomes.CompactLineIsTheCommands | crates/giskard-harness-claude/src/session.rs:2351-2405 | The same of a compaction: its turn, its notice, its caller |
| Outcomes.RequestIsTheCommands | crates/giskard-harness-claude/src/session.rs:1628-1640 | A settings request of any stage asks for what the start-turn command received under its reply channel names |
| Outcomes.RequestServesItsCommand | crates/giskard-harness-claude/src/session.rs:1443-1503 | Any other control request goes out for the command just received, of that command's kind; a failed write is reported at once |
| Outcomes.AnswerServesItsCommand | crates/giskard-harness-claude/src/session.rs:2016-2195 | An answer to an ask carries the decision of the command just received; its caller learns at once whether it was written, a server request's card being cleared first |
| Outcomes.UngivenAnswerIsExplained | crates/giskard-harness-claude/src/session.rs:2016-2195 | An answer that is refused, or whose ask goes back, was just received, and its caller learns why at once |
| Outcomes.ClearedMeans | crates/giskard-harness-claude/src/session.rs:1346-1381 | A card is cleared only right after its server request was withdrawn, answered or refused |
| Outcomes.WithdrawalClears | crates/giskard-harness-claude/src/session.rs:1346-1381 | A server request withdrawn while pending has its card cleared at once, unless the child was reaped |
| Outcomes.StopInterruptsTheLiveTurn | crates/giskard-harness-claude/src/session.rs:2650-2692 | A stop with a turn live tries to interrupt it before stdin closes, and closes stdin only if that cannot be written; with none live stdin closes at once |
| Outcomes.StdinWaitsForTheTurn | crates/giskard-harness-claude/src/session.rs:2704-2747 | Once the interrupt is written, stdin closes only after a line that leaves no turn live, or five seconds after the stop began |
| Outcomes.TurnEndClosesStdin | crates/giskard-harness-claude/src/session.rs:2704-2747 | And the first such line, or that deadline, does close it |
| Outcomes.KillWaitsForTheExit | crates/giskard-harness-claude/src/session.rs:2749-2775 | A grace kill comes five seconds after stdin was closed, or later |
| Outcomes.RefusedWhileStopping | crates/giskard-harness-claude/src/session.rs:2812-2840 | A command received while the child is stopping is refused, whatever it asks |
| Outcomes.ServedBeforeAnyStop | crates/giskard-harness-claude/src/session.rs:1443-1579 | A command received before any stop is served at once: dropped, refused as busy, answered from what was found, or begun, by what it asks and what the supervisor finds |
| DutiesKept.ReachableIsKept | crates/giskard-harness-claude/src/session.rs:915-1001 | Every reachable supervisor did, at once and in order, what every event obliged it to, and nothing else |
| Publications.FrameShows | crates/giskard-harness-claude/src/session.rs:1053-1212 | A frame of a child that was not reaped shows all its events, asks, withdrawals and routes, each once and in order, up to a write that fails |
| Publications.ExitShows | crates/giskard-harness-claude/src/session.rs:2852-2888 | At exit the open turns and routes are closed as the mapper says, and each route left open is left with its asks |
| StopSequence.StepGoesForward | crates/giskard-harness-claude/src/session.rs:2616-2815 | Every arm moves a stop sequence forward: interrupting, draining under one deadline, ended with its reason and every caller it collected |
| StopSequence.StopOnlyGoesForward | crates/giskard-harness-claude/src/session.rs:943-1034 | So over every run: once stopping, a supervisor never serves again and loses no caller of its stop |
| Safety.StepKeeps | crates/giskard-harness-claude/src/session.rs:943-1001 | Every arm of the loop, whatever the environment decides, keeps the invariant that ties the fields to the history |
| Safety.RunKeeps | crates/giskard-harness-claude/src/session.rs:915-1001 | So does every run |
| Safety.SpawnedIsGood | crates/giskard-harness-claude/src/session.rs:760-806 | A supervisor is spawned with that invariant, the ids its handshake abandoned in its books |
| Safety.FinishTaskKeeps | crates/giskard-harness-claude/src/session.rs:2847-2940 | Exit handling settles the hand-off and every waiter, then the collected stops, and leaves nothing owed |
| Preservation.OnCommandKeeps | crates/giskard-harness-claude/src/session.rs:1004-1034 | A command, served or refused, keeps the invariant |
| Preservation.DispatchKeeps | crates/giskard-harness-claude/src/session.rs:1065-1212 | A mapper output keeps the invariant |
| Preservation.ReapKeeps | crates/giskard-harness-claude/src/session.rs:2521-2597 | A reap, taken, cancelled or found without an entry, keeps the invariant |
| Supervision.Supervisor.RunTask | crates/giskard-harness-claude/src/session.rs:915-1001 | The imperative task does what `Run` specifies for any schedule |
| Supervision.Supervisor.BeginHandOff | crates/giskard-harness-claude/src/session.rs:1581-1625 | Refuses when the caller gave up or a turn or hand-off is live; else the hand-off in flight is the command's own, its mode requested first |
| Supervision.Supervisor.SendSetupRequest | crates/giskard-harness-claude/src/session.rs:1628-1665 | One stage's request, its deadline capped by the budget; a write failure settles the caller |
| Supervision.Supervisor.OnSetupAnswer | crates/giskard-harness-claude/src/session.rs:1671-1700 | Takes the hand-off, then advances or fails it by the answer |
| Supervision.Supervisor.OnModeSet | crates/giskard-harness-claude/src/session.rs:1701-1748 | Chooses model, effort or the user line by what differs |
| Supervision.Supervisor.CheckReadBack | crates/giskard-harness-claude/src/session.rs:1752-1817 | Accepts only the wanted model or its resolution, adopts what was read back, fails on another effort |
| Supervision.Supervisor.FinishHandOff | crates/giskard-harness-claude/src/session.rs:1927-1986 | Turn start, notice, user line, settlement, or their refusals |
| Supervision.Supervisor.OnHandOffDeadline | crates/giskard-harness-claude/src/session.rs:1887-1911 | A stage's deadline abandons its id and fails its caller |
| Supervision.Supervisor.AnswerApproval | crates/giskard-harness-claude/src/session.rs:2016-2105 | Withdrawn, given up, unusable decision, write, in that order |
| Supervision.Supervisor.AnswerServerRequest | crates/giskard-harness-claude/src/session.rs:2117-2195 | The same for a server request, clearing its card |
| Supervision.Supervisor.StopSubAgentTask | crates/giskard-harness-claude/src/session.rs:2201-2275 | Stops a running sub-agent, or answers why not |
| Supervision.Supervisor.RunCompaction | crates/giskard-harness-claude/src/session.rs:2351-2405 | Starts a turn and writes the compaction line unless busy |
| Supervision.Supervisor.OnQueue | crates/giskard-harness-claude/src/session.rs:1004-1034 | A command, a stop, or the end of the channel |
| Supervision.Supervisor.OnResponse | crates/giskard-harness-claude/src/session.rs:1084-1128 | The hand-off, a waiter, an abandoned id or nobody, in that order; a waiter is told what the CLI answered and nothing else happens |
| Supervision.Supervisor.OnCancel | crates/giskard-harness-claude/src/session.rs:1346-1381 | Removes a pending ask or remembers the withdrawal |
| Supervision.Supervisor.DispatchFrame | crates/giskard-harness-claude/src/session.rs:1053-1063 | All outputs of a frame up to the first write failure |
| Supervision.Supervisor.TrackIdleness | crates/giskard-harness-claude/src/session.rs:2437-2478 | Starts, keeps or stops the idle clock |
| Supervision.Supervisor.ReapChild | crates/giskard-harness-claude/src/session.rs:2521-2597 | Routes cold first; then stop, cancel or take |
| Supervision.Supervisor.StartStopping | crates/giskard-harness-claude/src/session.rs:2616-2692 | Joins a running sequence; else abandons the hand-off and interrupts the live turn under a deadline of five seconds, or closes stdin with none live or the interrupt unwritten |
| Supervision.Supervisor.OnStageDeadline | crates/giskard-harness-claude/src/session.rs:2749-2775 | Hand-off timeout, end of interrupting, or grace kill by phase |
| Supervision.Supervisor.HandleExit | crates/giskard-harness-claude/src/session.rs:2847-2905 | Exit handling in its order, the asks of every route still open going with it, a reaped child leaving its thread alone |
| Supervision.Supervisor.LeaveThread | crates/giskard-harness-claude/src/session.rs:2852-2888 | The hand-off fails, the thread's asks go unless the child was reaped, the open turns close, every route left is closed with its asks, routes cool, the log closes |
| Supervision.Supervisor.FinishTask | crates/giskard-harness-claude/src/session.rs:929-938 | Exit handling, then every collected stop answered |
| FaithfulCli.BeginsInStep | crates/giskard-harness-claude/src/harness.rs:2205-2228 | A hand-off begins in step with the CLI whenever the supervisor tracks it |
| FaithfulCli.AnswerInStep | crates/giskard-harness-claude/src/session.rs:1701-1817 | Each faithful answer keeps the hand-off in step or ends it with its settings held |
| FaithfulHandOffs.StepInStep | crates/giskard-harness-claude/src/session.rs:943-1034 | Each step of the loop beside a faithful CLI keeps a hand-off in step, or ends it: at its user line with the requested settings held and tracked, or without one |
| FaithfulHandOffs.HandOffInStep | crates/giskard-harness-claude/src/session.rs:1671-1817 | Over any run of the loop, whatever else is served meanwhile, a hand-off that reaches its user line leaves the CLI with the requested settings, the model up to the catalog's resolution, and the supervisor tracking them; one that ends otherwise tracks them whenever its end assures it |
| FaithfulTurns.HandOffIsItsCommand | crates/giskard-harness-claude/src/session.rs:1607-1625 | The hand-off in flight holds line, turn, model, settings and notice of the start-turn command received under its reply channel |
| FaithfulTurns.StartTurnInStep | crates/giskard-harness-claude/src/session.rs:1671-1817 | So over any run of the loop a turn reaches its user line only with the CLI holding the mode, the effort and the model that its start-turn command names, and the supervisor tracking them |
| FaithfulHandOffs.EndedHandOffTracksExactly | crates/giskard-harness-claude/src/session.rs:1821-1911 | A hand-off ended by a refusal, an answer, a deadline, a stop, an exit or a failed write leaves every faithful CLI of the same run tracked iff its stage, its model change and how it ended assure it |
| LagWitness.FailedHandOffCanLag | crates/giskard-harness-claude/src/session.rs:1821-1885 | A run from a spawn: mode and model accepted, effort refused, the tracked model left behind |
| HarnessSafety.NextIsSound | crates/giskard-harness-claude/src/harness.rs:299-361 | Every locked section of the facade and of every supervisor keeps the system invariant |
| HarnessSafety.RunIsSound | crates/giskard-harness-claude/src/harness.rs:299-361 | So does every interleaving |
| HarnessSafety.RegisterIsSound | crates/giskard-harness-claude/src/harness.rs:819-922 | Registering or refusing a child keeps it |
| HarnessSafety.TakeIsSound | crates/giskard-harness-claude/src/session.rs:2532-2556 | So does the second section of a reap |
| HarnessSafety.LeaveIsSound | crates/giskard-harness-claude/src/session.rs:2899-2905 | So does a child's exit from its entry |
| HarnessSafety.AbortIsSound | crates/giskard-harness-claude/src/harness.rs:579-593 | So does the abort of a child that did not stop in time |
| HarnessSafety.OnlyWriter | crates/giskard-harness-claude/src/session.rs:2885-2887 | An entry with the log of a supervisor that was not reaped holds that very supervisor |
| HarnessGuarantees.ReapedIsUnreachable | crates/giskard-harness-claude/src/session.rs:2512-2556 | A reaped child has an empty queue, and no entry, route or stop leads to it |
| HarnessGuarantees.NothingReachesAReapedChild | crates/giskard-harness-claude/src/session.rs:2512-2556 | Nor does any later step of any task put a command in its queue |
| HarnessGuarantees.NoneRefusedIdle | crates/giskard-harness-claude/src/session.rs:2812-2840 | No command is ever refused by a child stopping for idleness |
| HarnessGuarantees.SendCancelsTheReap | crates/giskard-harness-claude/src/session.rs:2532-2566 | A command enqueued between a reap's two sections cancels it; the entry is as before |
| HarnessGuarantees.TakenChildGetsNothing | crates/giskard-harness-claude/src/harness.rs:299-325 | A command after them is not sent, by the thread's entry or by any route |
| HarnessGuarantees.SentReachesItsChild | crates/giskard-harness-claude/src/harness.rs:299-325 | A sent command is the last of a queue whose child no reap took |
| HarnessGuarantees.OneWriterPerLog | crates/giskard-harness-claude/src/session.rs:1398-1440 | Two supervisors of a log that were not reaped are one |
| HarnessGuarantees.EmptySlotHasAnOpenLog | crates/giskard-harness-claude/src/session.rs:147-169 | An entry without a child has an open log that only reaped supervisors wrote |
| HarnessGuarantees.RegisteredChildInheritsSafely | crates/giskard-harness-claude/src/harness.rs:839-922 | A respawn inherits an open log of reaped writers only; a first child gets a log nobody had |
| HarnessGuarantees.ForeignEntriesStay | crates/giskard-harness-claude/src/session.rs:2505-2510 | No step of a supervisor changes an entry that does not hold its child, nor closes that entry's log |
| HarnessGuarantees.NextIsOnward | crates/giskard-harness-claude/src/session.rs:687-717 | A reap, a shutdown, a drain and what was sent are never undone |
| HarnessGuarantees.DrainedStaysEmpty | crates/giskard-harness-claude/src/harness.rs:1819-1857 | After shutdown's drain the thread map is empty in every later state |
| HarnessGuarantees.RacingChildIsDrainedOrRefused | crates/giskard-harness-claude/src/harness.rs:839-875 | Once drained, every registered child is handed to a stop, was reaped or is past its exit, and every other is refused |
| Calls.SpawnMeans | crates/giskard-harness-claude/src/harness.rs:819-922 | A spawned child is registered exactly when nothing turns it away, into a respawn's own empty slot and log, or as a first child under a new log; each refusal exactly for its cause |
| Calls.EnsureMeans | crates/giskard-harness-claude/src/harness.rs:924-1028 | A child is found live, respawned into its empty slot, or refused because the thread was absent, the shutdown up, the slot taken or the spawn failed at one of the call's own sections; undisturbed, a reaped thread is respawned |
| Calls.TripMeans | crates/giskard-harness-claude/src/harness.rs:299-361 | When each result of one attempt comes: the child's queue has room and its mode does not decline the command, or which of these fails |
| Calls.EnqueueMeans | crates/giskard-harness-claude/src/harness.rs:327-361 | A command is sent exactly when one of two attempts sends it, and given up as reaped twice exactly when both found the slot empty again |
| Calls.AloneItIsSent | crates/giskard-harness-claude/src/harness.rs:327-361 | Nobody in the way, a reaped thread's child is respawned with its log and holds the command alone in its queue |
| Calls.AloneItIsOpened | crates/giskard-harness-claude/src/harness.rs:1859-1978 | Nobody in the way, an absent thread is opened with a first child under a log of its own |
| Calls.OpenMeans | crates/giskard-harness-claude/src/harness.rs:1859-1978 | What an open comes to by what it finds: shut down, live, reaped or absent |
| Calls.InterruptMeans | crates/giskard-harness-claude/src/harness.rs:661-711 | A stop reaches the child that carries the route exactly when that child can take it |
| Calls.PublishedRouteLeads | crates/giskard-harness-claude/src/harness.rs:661-711 | A route its supervisor published leads a stop to that supervisor's child |
| Facade.Facade.Enqueue | crates/giskard-harness-claude/src/harness.rs:299-325 | Look-up and enqueue as one section |
| Facade.Facade.SendNow | crates/giskard-harness-claude/src/harness.rs:1198-1218 | Queue full, queue closed or sent |
| Facade.Facade.EnqueueRespawning | crates/giskard-harness-claude/src/harness.rs:327-361 | Does what `Calls.EnqueueRun` says of the other tasks' moves and the spawn, which `Calls.EnqueueMeans` and `Calls.AloneItIsSent` say: the command goes to a live or respawned child, or the exact reason why not; at most once, and to a child no reap took |
| Facade.Facade.InterruptRoute | crates/giskard-harness-claude/src/harness.rs:661-711 | Enqueue through a live route as one section |
| Facade.Facade.RegisterChild | crates/giskard-harness-claude/src/harness.rs:819-922 | Registers or refuses as one section |
| Facade.Facade.EnsureChild | crates/giskard-harness-claude/src/harness.rs:924-1028 | Does what `Calls.EnsureRun` says: a live child is kept, an empty slot is respawned and registered, and each refusal has its cause (`Calls.EnsureMeans`); a child it spawned ends registered or reaped by it |
| Facade.Facade.Reap | crates/giskard-harness-claude/src/harness.rs:995-1009 | The refused child is reaped by its opener |
| Facade.Facade.OpenThread | crates/giskard-harness-claude/src/harness.rs:1859-1978 | Does what `Calls.OpenRun` says: an absent thread gets a first child under a log of its own, a reaped one is respawned, a live one is kept (`Calls.OpenMeans`) |
| Facade.Facade.StopThread | crates/giskard-harness-claude/src/harness.rs:608-660 | Hands a live child to its stop, else closes the log |
| Facade.Facade.DrainThreads | crates/giskard-harness-claude/src/harness.rs:1819-1840 | Empties the map: every child handed to a stop, every other log closed, no more |
| Facade.Facade.Shutdown | crates/giskard-harness-claude/src/harness.rs:1819-1857 | Whatever races with it, it ends with an empty thread map and every child ever registered handed over, reaped or exited |
| Asks.AnsweredAtMostOnce | crates/giskard-harness-claude/src/harness.rs:2295-2371 | Over every run an ask is answered at most once, and only if the CLI made it |
| Asks.NextNeverCopies | crates/giskard-harness-claude/src/session.rs:266-316 | An ask is in at most one of the pending map, a call's hand, the queue and the answers written |
| Asks.TakenAskIsLostExactlyWhen | crates/giskard-harness-claude/src/harness.rs:2295-2371 | Over every run a taken ask is lost iff its command was not enqueued, a child stopped or went before serving it, its write failed, or it was withdrawn or forgotten; and what is lost stays lost |
| Asks.StepLosesExactly | crates/giskard-harness-claude/src/session.rs:2812-2840 | One step takes the last trace of an ask away iff it is one of those |
| Asks.EnqueuedAnswerCanBeLost | crates/giskard-harness-claude/src/session.rs:1004-1014 | A run in which an enqueued answer is refused because its child began to stop |
| Asks.WithdrawnAskIsRefusedUnlessRenewed | crates/giskard-harness-claude/src/session.rs:1346-1381 | An answer in flight at the withdrawal, served by a serving child, is refused iff no turn began and no other child took over in between, and otherwise written iff it is fit and its write succeeds |
| Asks.ForgottenAfterTheEnqueue | crates/giskard-harness-claude/src/session.rs:2364-2372 | A run in which a compaction queued before the answer makes the withdrawal forgotten |
| AskActs.ActsAlike | crates/giskard-harness-claude/src/session.rs:1003-1034 | An act that finds what the books hold is a move they allow, and does to the supervisor's part of any books the same |
| AskActs.ActsAmongCalls | crates/giskard-harness-claude/src/harness.rs:2295-2371 | So it does however calls of the facade come between the acts |
| AskProjection.CommandProjects | crates/giskard-harness-claude/src/session.rs:1004-1034 | Serving or refusing a command does to the asks what its acts say: refused, kept or written, the withdrawals used up or forgotten |
| AskProjection.FrameProjects | crates/giskard-harness-claude/src/session.rs:1053-1063 | So does a frame, output by output: an ask recorded or withdrawn, a hand-off over, the asks of a closed route gone |
| AskProjection.ReapProjects | crates/giskard-harness-claude/src/session.rs:2521-2597 | So does a reap, taken, cancelled or found without an entry |
| AskProjection.ExitProjects | crates/giskard-harness-claude/src/session.rs:2847-2905 | So does a child's exit: the asks of its thread, unless it was reaped, and of every route go, then its queue |
| AskProjection.StepProjects | crates/giskard-harness-claude/src/session.rs:943-1001 | Every step of the loop is the acts it stands for, each possible where it is done |
| AskProjection.RunProjects | crates/giskard-harness-claude/src/session.rs:915-1001 | From a spawn on, with any calls between any two acts, every act of a run is a move `Asks` allows when it is done, and the books agree with the supervisor on phase, withdrawals, hand-off and answers |
| AskProjection.WritesOneAnswer | crates/giskard-harness-claude/src/session.rs:2016-2195 | So whatever its callers do, a supervisor writes at most one answer to an ask |
| Sections.SectionsLand | crates/giskard-harness-claude/src/session.rs:2521-2597 | Each locked section a supervisor takes is one the system lets its child take, and leaves the child where the supervisor goes |
| Sections.OthersLeaveIt | crates/giskard-harness-claude/src/harness.rs:299-361 | No step of another task moves a child among its sections |
| Sections.BeatsAreLawful | crates/giskard-harness-claude/src/session.rs:2847-2905 | So whatever other tasks do between a supervisor's sections, from its registration to its exit |
| SectionProjection.ReachableIsPlaced | crates/giskard-harness-claude/src/session.rs:915-1001 | Every reachable supervisor's history leads to the stage it is in |
| SectionProjection.KeepsToItsSections | crates/giskard-harness-claude/src/session.rs:2495-2905 | In every interleaving a supervisor takes only sections the system allows its child, and the child stands where the supervisor does |
| PendingRequests.PendingRequests.RemoveApproval | crates/giskard-harness-claude/src/session.rs:285-287 | An approval is taken once |
| PendingRequests.PendingRequests.RemoveServerRequest | crates/giskard-harness-claude/src/session.rs:289-291 | A server request is taken once |
| PendingRequests.PendingRequests.RemoveByRequestId | crates/giskard-harness-claude/src/session.rs:295-316 | Removes one matching ask of that owner, an approval first, and finds none only when there is none |
| PendingRequests.PendingRequests.CountOwner | crates/giskard-harness-claude/src/session.rs:319-325 | Counts the owner's asks in both maps |
| PendingRequests.PendingRequests.RemoveOwner | crates/giskard-harness-claude/src/session.rs:328-333 | Removes exactly the owner's asks and returns how many there were |
| PendingRequests.PendingRequests.RemoveThread | crates/giskard-harness-claude/src/session.rs:336-341 | Removes exactly a thread's asks and returns how many there were |
| PendingRequests.WithdrawalIsComplete | crates/giskard-harness-claude/src/session.rs:293-316 | With unique ids, a withdrawal leaves no copy of its ask behind |
| Preview.TailPreview | crates/giskard-core/src/item.rs:358-381 | The loop terminates and prints the largest count that is true of the tail it leaves, whole text iff it fits; the count read off the marker is that count, the bytes after the marker that tail |
| Preview.MarkerIsRead | crates/giskard-core/src/item.rs:366-377 | The number read off a marker line is the number it was printed with, and the tail behind it is read back whole |
| Preview.LeftOutGrows | crates/giskard-core/src/item.rs:367-380 | Marker length and boundary rounding are monotone, so the count only falls |
| Preview.CountsAddUp | crates/giskard-core/src/item.rs:374-377 | Printed count plus tail is the original size iff the tail the loop starts from is no longer than the original |
| Preview.CountsCanDisagree | crates/giskard-core/src/item.rs:358-381 | Two bytes said to come from one: the preview shows both and counts none omitted |
| Preview.PreviewFits | crates/giskard-core/src/item.rs:369-378 | The preview fits its limit iff its marker does, and a tail one character longer would not fit |
| Preview.PreviewIsUtf8 | crates/giskard-core/src/item.rs:371-378 | Cut on a character boundary, the preview of well-formed UTF-8 is well-formed UTF-8 |
| Preview.PreviewLines | crates/giskard-core/src/item.rs:316-317 | A truncated preview has one line more than its tail |
| Preview.FromDurable | crates/giskard-core/src/item.rs:302-328 | Every descriptor's preview fits 8 KiB and its counts are those of what it holds; the count read off a preview and its tail make the original size whenever the durable text is no longer than the original |
| Text.LogicalLinesCountsLines | crates/giskard-core/src/item.rs:350-356 | Counting newlines, with one more for an unterminated end, counts the lines of a split |
| Text.DecimalIsItsValue | crates/giskard-core/src/item.rs:366 | The printed decimal has the value of its number |
| Text.BoundaryCuts | crates/giskard-core/src/item.rs:371-373 | Cutting well-formed UTF-8 at a boundary leaves two well-formed texts |
| LineReader.LineReader.NextLine | crates/giskard-harness-claude/src/process.rs:224-260 | For any chunks, and given up exactly after as many reads as its caller waits for: the next line, the end, or an overlong line; a call given up loses nothing |
| LineReader.ReadsIsDetermined | crates/giskard-harness-claude/src/process.rs:224-260 | Two uncancelled calls from one place agree whatever their chunks, but for the size they report of an overlong line |
| LineReader.ReportedSizes | crates/giskard-harness-claude/src/process.rs:224-260 | The sizes that can be reported are exactly those above the cap, up to the line's length and one read buffer over the cap; one only iff the line is one byte over |
| LineReader.ReportedSizesDiffer | crates/giskard-harness-claude/src/process.rs:224-260 | One line, two chunkings, two sizes |
| LineReader.ReadLines | crates/giskard-harness-claude/src/process.rs:432-436 | Repeated calls return the input's lines up to the first one over the cap; each call returns a line, is given up, or is the last |
| LineReader.OutcomeIsDetermined | crates/giskard-harness-claude/src/process.rs:432-436 | Two reads of one input that ended agree on the lines and on how it ended; without error iff all lines are within the cap |
| LineReader.DrainStderr | crates/giskard-harness-claude/src/process.rs:368-405 | The tail is the last eight lines kept |
| GitText.SplitTerminated | crates/giskard-git-parser/src/lib.rs:186-202 | Splitting takes printed fields off one by one and keeps the rest whole |
| GitText.RecordsRoundTrip | crates/giskard-git-parser/src/lib.rs:39-41 | Printed NUL-terminated records are read back |
| GitText.CountRoundTrip | crates/giskard-git-parser/src/lib.rs:300-305 | A printed count, `-` included, is read back |
| GitText.NumberReadExactly | crates/giskard-git-parser/src/lib.rs:300-305 | A number is read exactly from its decimal digits, leading zeros and a plus sign allowed, below the 32-bit limit |
| GitStatus.ParseFiles | crates/giskard-git-parser/src/lib.rs:42-131 | The entry loop computes the files of the record list |
| GitStatus.StatusRoundTrip | crates/giskard-git-parser/src/lib.rs:31-202 | Printing any list of ordinary, rename, unmerged and untracked entries and parsing it gives the list back, whatever old paths look like |
| GitStatus.MalformedRenameIsInert | crates/giskard-git-parser/src/lib.rs:77-100 | A malformed rename plus any one record between entries changes nothing |
| GitStatus.OtherRecordsAreInert | crates/giskard-git-parser/src/lib.rs:42-131 | A header or a record of an unknown kind between entries changes nothing |
| GitStatus.NamesAreTold | crates/giskard-git-parser/src/lib.rs:222-255 | The letters of both sides are told by name, and the kind of a file by the side that carries the change |
| GitNumstat.ParseNumstat | crates/giskard-git-parser/src/lib.rs:267-298 | The loop computes the counts of the record list |
| GitNumstat.NumstatRoundTrip | crates/giskard-git-parser/src/lib.rs:267-305 | Printed counts of changed, binary and renamed files are read back |
| GitNumstat.IndexFindsTheLast | crates/giskard-git-parser/src/lib.rs:504-509 | A path is found iff some entry has it, as its last entry |
| GitNumstat.Status.ApplyCounts | crates/giskard-git-parser/src/lib.rs:511-545 | Each file gets its counts, a conflict none, and the totals are the true sums capped at the 32-bit maximum |
| GitLog.ParseLog | crates/giskard-git-parser/src/lib.rs:347-412 | The loop computes the commits of the record list |
| GitLog.LogRoundTrip | crates/giskard-git-parser/src/lib.rs:347-412 | Printing any list of commits with numstat lines, binary files and renames and parsing it gives each its own file count, and the true sums iff they fit 32 bits |
| GitLog.RenameStaysAligned | crates/giskard-git-parser/src/lib.rs:396-403 | Whatever follows it, a rename is counted and takes its own records and no other iff both its paths survive the trim of newlines; else it takes three records, or at the end is not counted |
| GitLog.LastRenameIsLost | crates/giskard-git-parser/src/lib.rs:353-403 | A log that ends in a rename with a path of newlines reports no file for it |
| GitLog.RenameCanBeLost | crates/giskard-git-parser/src/lib.rs:353-403 | One such log, written out |
| GitLog.WordsCounted | crates/giskard-git-parser/src/lib.rs:372-378 | A merge is recognised by its number of parents |
| Ledger.ByModel.Record | crates/giskard-core/src/token.rs:53-60 | Records under one provider and model |
| Ledger.RecordedElsewhere | crates/giskard-core/src/token.rs:53-65 | Recording adds to one model and touches no other |
| Ledger.RecordedAdds | crates/giskard-core/src/token.rs:53-60 | Recording adds its usage to the sum over all models |
| Ledger.SumCountsEach | crates/giskard-core/src/token.rs:22-27 | Every field of a sum is the sum of that field over what was added |
| Ledger.TokenLedger.Record | crates/giskard-core/src/token.rs:88-91 | The total stays the sum over all models plus the unattributed usage |
| Ledger.TokenLedger.RecordUnattributed | crates/giskard-core/src/token.rs:93-97 | So it does for unattributed usage |
| Ledger.TotalBoundsEveryPart | crates/giskard-core/src/token.rs:77-97 | No part exceeds the total, so a total that fits its width means no addition overflowed |
| Ledger.DailyTokenLedger.Record | crates/giskard-core/src/token.rs:113-117 | The total is also the sum over all days |
| Ledger.DailyTokenLedger.RecordUnattributed | crates/giskard-core/src/token.rs:119-123 | So it is for unattributed usage |
| Ledger.DailyTokenLedger.WeeklyTotals | crates/giskard-core/src/token.rs:125-138 | Any key regroups the days: one entry per key that occurs, the sum of its days, nothing lost |
| Ledger.DailyTokenLedger.MonthlyTotals | crates/giskard-core/src/token.rs:140-148 | The months are the days regrouped by their first seven characters |
| Ledger.DailyTokenLedger.MonthTotal | crates/giskard-core/src/token.rs:155-164 | The sum of the days whose date starts with the month |
| Ledger.MonthTotalIsItsEntry | crates/giskard-core/src/token.rs:140-164 | For a month of seven characters it is that month's entry of the monthly totals |

## Left out

- The mapper is an environment: each frame may become any outputs and change any of what the supervisor asks it; only that starting a turn makes it active is assumed. Drift of the expected permission mode is part of it.
- Request ids and the CLI's ask ids are fresh numbers, as UUIDs are taken to be; a command carries a reply channel no earlier command carried.
- Process spawning, pipes, tracing, JSON and wire types: writes and reads succeed or fail as the environment says, messages are reduced to the fields read.
- The handshake's own exchange: the supervisor starts with the ids it abandoned and the lines it read early.
- A faithful CLI changes what it holds only by a settings request it answers or is still to answer, and answers a read-back with what it holds.
- In `Asks` a child that takes over a thread does so when the one before is gone with its queue.
- `AskProjection` follows one supervisor; the child that takes over is followed in `Asks` only.
- In `SectionProjection` commands leave a child's queue at any time, as steps of their own; the queue is matched to what is served in `AskProjection`. An exit that finds its entry gone leaves and drops its queue in one step.
- The `started` time of a stop and other values only logged.
- Route event logs, the supervisor's private list of them and the counters of dropped events: a route is its owner and the child it leads to, and which routes are left at exit, and which asks are a route's or a thread's, the environment says.
- Generation safety of the pending map: `remove_owner` and `remove_thread` name no generation, so none is claimed.
- A supervisor task that panics: its log is then closed by the stop that joins it, its entry is not modelled.
- The per-thread respawn gate: two respawns may reach registration here, where one is refused.
- Overflow of an idle deadline past the clock's range.
- In `Harness`, the models an entry is given by a respawn or a supervisor are arbitrary.
- Lossy decoding of bytes that are not UTF-8: the git parsers work on decoded characters, the line reader returns bytes.
- Branch headers, the four file counters and the boolean flags of a status; ref listings, path lists and name-status records.
- Whitespace in a commit's parent field is ASCII whitespace.
- GitLog.Add32: sums wrap as in a release build; a debug build stops instead.
- Ledger.DailyTokenLedger.MonthlyTotals: requires dates of seven characters or more, where the original stops on a shorter one.
- Token counts are unbounded; `Ledger.TotalBoundsEveryPart` says when that is the same as 64 bits.
- Stripping of colour codes and cutting of stderr lines are a parameter of `LineReader.DrainStderr`.
- Week calendars, context ratios, SHA-256 identities, model tables, exit-text classification and the reasoning preview.
