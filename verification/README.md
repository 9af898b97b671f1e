# hermes-pi-manager: the supervisor's protocols, modelled and proved

The plugin runs long coding-agent tasks, watches them over a JSONL RPC pipe, runs a
verification gate when they settle, sends passive notices to a chat, and resumes the
originating session with one terminal wake per task. All of it meets in one durable
registry with two mutable tables, `tasks` and `notifications`. This project models those
rows, every registry statement that changes them, and the state machines that run over
them, and proves what those machines keep.

Check it with `dafny verify dfyconfig.toml`.

## How the model is built

Each registry method holds one lock across its SQL, so each is one atomic step
(`RegistryDb.Registry`). What a statement does to a row is a function; the class methods
are proved to do exactly that, and the protocol modules reason about the same functions.

A protocol is a state, a set of actions and a total `Apply`: an action that is not possible
in a state leaves the state alone. A run is a fold of `Apply` over an arbitrary sequence of
actions, so a lemma about all sequences is a lemma about every interleaving of workers,
crashes, reloads, stale writers and clock readings. The imperative parts - the two workers,
the manager's handlers, the recovery sweep, the scan, the two process-tree walks, the pipe
reader - are methods over classes and loops. The workers' passes are then shown to be runs
of the protocols, so the protocol results hold of them.

| file | models |
|---|---|
| `Rows`, `Wrappers`, `Text` | row types, Python truthiness and indexing, decimal text and truncation |
| `RegistryDb` | the registry class and its row functions |
| `WakeProtocol`, `WakeWorker` | the terminal wake: any number of workers; the pass of one of them |
| `OutboxProtocol`, `OutboxArrivals`, `OutboxWorker` | the lease queue: any number of workers; lost receipts; the drain pass |
| `StableIds` | notification ids and the dedupe on them |
| `Watchdog`, `WatchdogLaws`, `WatchdogRuns`, `WatchdogTiming` | tick, event, abort and recovery of a task; their laws by columns and clock; what all runs keep; time bounds |
| `Races` | the same handlers split into read and write |
| `Supervisor` | the manager's methods that carry the handlers out on the registry and the task runtime |
| `Settlement`, `LspCheck` | the settle threads, aborts, resumes, ad-hoc verifications and watchdog verdicts write by write, with deaths in between; the boot sweep; the verdict |
| `SettlementCauses`, `SettlementRuns`, `Verdicts` | what opens a wake; particular runs, the sweep's completion, lost wakes; what a gate's exit comes to mean |
| `ProgressNotices` | pacing of progress notices |
| `RpcTransport`, `ProcessTree` | request/response correlation; the walks of the process table |

## Where the code differs from its own description

The model follows the code. Each of these is a theorem with its condition, and a run that
shows it happening:

- A manual abort is documented never to wake (core.py:882-889, 1144-1166). The abort handler
  opens no wake (`AbortOpensNoWake`), but an `agent_settled` that the dying agent still sends,
  before or after the ABORTED write, starts the settle thread; the gate refuses an aborted
  task and the wake is opened all the same (`AbortedTaskCanWake`). Where the manager does not
  die, a task at rest has been woken if and only if a settle event was handled, the watchdog
  passed a verdict - a stall, or the exit of the process that the abort itself terminates - or
  a resume was rejected (`RestingTaskIsWokenExactlyBy`).
- The state transitions are documented never to bring a final task back (registry_db.py:329-337,
  core.py:1024-1031). That holds of events, however stale (`StaleEventsNeverResurrect`). Ticks,
  aborts and recoveries write the state without a guard: over any race a settlement is lost if
  and only if one of them that found the task unsettled comes to its write
  (`SettlementIsLostExactlyToOldWrites`), and all three do it (`SettlementCanBeOverwritten`). A
  capped tick does not: its abort reads the row again (`CappedTickSparesFinal`).
- The comment above the wake methods (registry_db.py:581-584) calls every transition a
  compare-and-set on the current state. `mark_wake_accepted` is not: an uncertain wake can
  still become accepted (`UncertainCanBeAccepted`). The at-most-once result holds all the same
  (`AtMostOneAcceptance`), and the edge is part of `StepsAreLegalMoves`.
- A notification row at 'sent' is not final. A failure recorded late by a worker whose lease
  has run out puts it back to pending or failed: exactly then, and only after an expiry
  (`SentIsLeftExactlyByStaleFailure`, with a run in `SentCanRevert`).
- A changed heartbeat is described as returning an unresponsive task to RUNNING or
  TOOL_RUNNING (core.py:1643-1665). If the task was STALLED before it became unresponsive it
  goes back to STALLED, though it has just made progress. This is the only unearned stall
  (`StallsAreEarnedUnlessRelapse`), and `RelapseHappens` shows it with the shipped thresholds.
- `recover_all` is described as re-running the verifier of every settled row that was left
  undecided (core.py:2065-2074). A row whose persisted spec does not load, and a row left
  PENDING by an ad-hoc verification that died on a task without a spec, get no verdict and, if
  they had none, no wake: exactly these (`SweepResolvesExactlyTheUnstranded`,
  `SweepWakesExactlyTheUnstranded`; runs in `UnloadableStrands` and `DeadVerificationStrands`).
- A recovery failure and a crash are documented to wake. A manager that dies between the final
  state and the wake leaves a row whose wake no later boot opens: of a rejected recovery,
  unless the user resumes the task, exactly then (`RejectionWakesUnlessDeath`,
  `RejectionCanLoseItsWake`), and of a crash too (`CrashCanLoseItsWake`). Only an explicit
  resume recovers it (`LostWakeIsRecoveredByResume`).
- Recovery is documented to restore the verifier across a restart (core.py:2286-2290). From a
  spec that does not load it restores none, so a task resumed with such a spec settles, and
  wakes, without its gate (`ResumeCanSkipGate`).

Two comments describe what the code does not do: the one on `stall_grace_seconds`
(core.py:488-493) says an unchanged snapshot resets the grace, which the code, and `GraceTick`,
keep open; and `_live_descendants` says "newest CPU time first" (core.py:1705), where the rows
come in walk order, about which nothing is proved.

## Model

The results come first; the facts about one step and the methods proved against the functions
follow them.

| member | source | states |
|---|---|---|
| WakeProtocol.AtMostOneAcceptance | registry_db.py:581-718 | In every reachable state of any number of wake workers, with deaths and reloads anywhere: at most one dispatch per task is under way, the gateway has accepted at most one injection for it, and the row says accepted only if it did |
| WakeProtocol.AcceptanceIsForever | wake_worker.py:175-216 | Once the gateway has accepted an injection, no continuation of the run injects the task again and its row is never pending again |
| WakeProtocol.RecordedAcceptanceSticks | registry_db.py:655-665 | An acceptance recorded through an open handle is the last word, also over a row already given up as uncertain |
| WakeProtocol.AcceptedIsAbsorbing | registry_db.py:667-718 | No action of any worker leaves the accepted state |
| WakeProtocol.InjectionsWithinBudget | wake_worker.py:70-82 | Over the whole history a task is injected at most as often as it is claimed, and claimed at most `max(1, max_attempts)` times |
| WakeProtocol.StepsAreLegalMoves | registry_db.py:594-718 | Every action of every run moves a row along the edges of the wake machine only, and the attempt count changes on a claim only, by one |
| WakeProtocol.StepLowersRank | registry_db.py:640-694 | Each wake transition strictly lowers one rank over state and remaining attempts; nothing else changes it |
| WakeProtocol.UncertainCanBeAccepted | registry_db.py:655-665 | A run in which a wake that another worker's pass gave up as uncertain is then recorded as accepted |
| WakeProtocol.WakeComesToRest | registry_db.py:594-718 | A task makes at most 2 * budget + 2 wake transitions in its whole history |
| WakeProtocol.BackoffLookup | wake_worker.py:200-216 | Through an open handle the backoff index is in range and not negative; a closed handle can yield Python index -1, and then nothing is written |
| WakeProtocol.OpenedWakeIsListedFromItsOpening | registry_db.py:594-638 | Over every run, an opened wake that nobody has claimed is due exactly from the moment it was opened, and disabled if and only if the task may not continue |
| WakeProtocol.StepKeepsInv | wake_worker.py:152-216 | The invariant behind these: one flight per task, injections bounded by attempts, an accepted injection only under dispatching, uncertain or accepted |
| WakeWorker.PassOutcome | wake_worker.py:152-173 | A pass dispatches each listed pending wake exactly once and no other row |
| WakeWorker.PassIsRun | wake_worker.py:152-216 | What a pass does to the table is a run of the many-worker protocol, so its results hold of the loop |
| WakeWorker.ExhaustedExactlyAtBudget | wake_worker.py:200-216 | A gateway that never accepts costs exactly the budget: pending again after each earlier failure, exhausted after the last |
| OutboxProtocol.DuplicatesWithinExpiries | outbox.py:403-443 | In every run, stale workers included, undelivered claims plus one if pending plus messages with a receipt is at most one plus the expired leases |
| OutboxArrivals.CopiesWithinExpiriesAndLostReceipts | outbox.py:414-443 | Counting also the sends that raised or reported a failure after the platform had taken the message: at most one copy arrives, plus one per expired lease, plus one per receipt lost that way |
| OutboxArrivals.CopiesWithinClaims | outbox.py:296-312 | However many receipts are lost, no more copies arrive than the row was claimed, at most six plus its expired leases |
| OutboxProtocol.ClaimsWithinBudget | outbox.py:296-312 | A row is claimed at most six times plus once per expired lease of it |
| OutboxProtocol.ClaimableExactlyFrom | registry_db.py:454-507 | An unfinished row is taken up by a claim exactly from a time its own columns tell: the lease deadline or the retry time |
| OutboxProtocol.LeaseProtects | registry_db.py:470-507 | Over every run in which no delivery of the row is recorded and the lease has not run out, a claimed row stays exactly as it was claimed, and the next claim can take it exactly from the end of its lease |
| OutboxProtocol.StatusesAreEarned | outbox.py:414-443 | 'sent' implies a receipt, 'failed' a missing target, an error that is not transient or at least six claims, 'leased' a deadline |
| OutboxProtocol.NoticesAreNeverLost | registry_db.py:423-546 | No run removes a notice or changes its task, kind or target |
| OutboxProtocol.SentIsLeftExactlyByStaleFailure | registry_db.py:509-546 | A sent row is overwritten exactly when a failed delivery of the same row is recorded, and such a delivery exists only after a lease has run out |
| OutboxProtocol.SentCanRevert | registry_db.py:520-532 | It happens: a run in which a sent row goes back to pending |
| OutboxProtocol.StepKeepsInv | registry_db.py:454-546 | Every action keeps the duplicate balance, the attempt balance, the distinctness of claim numbers and the row conditions |
| OutboxWorker.BatchClaimIsRun | registry_db.py:470-507 | The one-statement batch claim reaches exactly the table of a requeue and single claims, so the bounds cover it |
| OutboxWorker.PassIsRun | outbox.py:403-443 | What a whole drain pass does to the table is a run of the many-worker protocol, from any system with that table, so its results hold of the loop |
| OutboxWorker.PassMovesRow | outbox.py:403-443 | Every claimed row of a pass ends closer to a final status; every other row keeps what it had left |
| OutboxWorker.ReadyPassIsProductive | registry_db.py:470-507 | A pass at which the deadlines have come claims something while anything is unfinished, whatever the limit |
| OutboxWorker.DrainIsBounded | outbox.py:403-443 | Whatever the answers, limit and order, a lone worker has at most 6 N productive passes over N rows |
| OutboxWorker.DrainFinishes | outbox.py:403-443 | If each pass runs when the deadlines have come, 6 N passes leave all N rows sent or failed |
| WatchdogTiming.StallVerdictWindow | core.py:1486-1606 | A task silent since its last progress and ticked at least every D seconds is first called STALLED no earlier than threshold plus grace after that progress and less than 2 D later; the threshold is the tool's if a tool was running |
| WatchdogTiming.FrozenAgentStalls | core.py:1458-1606 | Every agent that lives, answers the same each time and never moves is first called STALLED inside that window, whatever active state it froze in |
| WatchdogLaws.DeafAgentIsFoundOut | core.py:1497-1513 | An agent that stops answering, ticked at least every D seconds, is UNRESPONSIVE within heartbeat plus D of its last answer, whatever active state it is in |
| WatchdogLaws.MessagesAreCounted | core.py:990-1023 | Over every run of events the message count is exact: what it was plus the messages begun, up to its cap |
| ProgressNotices.MovingTaskIsAnnounced | core.py:1193-1247 | A live task that has moved, looked at at least every D seconds, gets its next notice within D of the first moment the pacing allows, and not before it |
| WatchdogRuns.OpenGraceIsHonest | core.py:1566-1584 | In every run an open grace began with exactly one abort of its own, after the soft threshold without progress, and progress has not moved since |
| WatchdogRuns.StallsAreEarnedUnlessRelapse | core.py:1582-1606 | Only a tick stalls a task, and the stall follows an abort by the full grace without progress if and only if the tick is not a relapse (a remembered STALLED restored by a changed heartbeat) |
| WatchdogRuns.RelapseHappens | core.py:1643-1665 | With the shipped thresholds a run reaches a tick that enters STALLED at the very moment of progress, without the abort and grace of an earned stall |
| WatchdogRuns.UnresponsiveRemembers | core.py:1633-1641 | UNRESPONSIVE always remembers an active state that is not itself UNRESPONSIVE; TOOL_RUNNING, present or remembered, means the latest boundary event was a tool start or update |
| WatchdogRuns.ProofOfLifeEndsUnresponsive | core.py:1643-1665 | Any event or changed heartbeat ends UNRESPONSIVE, and finds a running tool running again unless the event ends it or the tick ends the task |
| WatchdogRuns.SettledExactlyByAgentSettled | core.py:967-970 | From any reachable state that is not final, a step settles the task if and only if it is the literal `agent_settled` event |
| WatchdogRuns.TicksWakeOnVerdicts | core.py:1484-1496 | A tick opens the wake when it finds the process dead or announces a stall, and otherwise leaves the wake columns alone, at the emergency cap too |
| WatchdogRuns.FinalStatesStay | core.py:1458-1466 | SETTLED is absorbing under every run; CRASHED and ABORTED are left only by an explicit recovery |
| Races.StaleEventsNeverResurrect | registry_db.py:323-352 | Any number of event handlers that read the row before it became final, interleaved in any way with each other and with ticks, aborts and recoveries that read it after, never bring it back |
| Races.SettlementIsLostExactlyToOldWrites | core.py:625-635 | In every race of events, ticks, aborts and recoveries the task is at some point no longer settled if and only if at some point a tick or abort that read it live, or a recovery that read it unsettled, comes to its unguarded write |
| Races.SettlementCanBeOverwritten | core.py:1895-1928 | Runs in which a settlement is overwritten by the WAITING of a tick, the ABORTED of an abort and the WAITING of a reattachment that had read the task before |
| Races.UninterruptedRaceIsOnEvent | core.py:921-1058 | Read and write of an event without interference are the atomic event handler |
| Settlement.SweepResolvesExactlyTheUnstranded | core.py:2065-2096 | One sweep leaves a settled row with a resolved gate and a wake if and only if its spec is absent or loads and, when absent, no ad-hoc gate was left pending |
| Settlement.SweepIsIdempotent | core.py:2065-2096 | A second sweep over settled rows changes nothing |
| Settlement.CrashesLoseNothing | core.py:1283-1378 | In every history of stall and crash verdicts, heals, aborts, explicit resumes, any number of settle events, settle threads and ad-hoc verifications interleaved write by write, with deaths and boots anywhere: the wake is opened at most once; and whenever nothing is left to run, a settled task is resolved if and only if it is not stranded, and woken if and only if the sweep did not pass it over |
| SettlementCauses.UndisturbedTasksFinish | core.py:1088-1191 | In every history without a death, once nothing is left to run a settled task has a wake opened exactly once and a resolved gate, unless it was resumed with a spec that does not load |
| SettlementCauses.RestingTaskIsWokenExactlyBy | core.py:882-913 | In every history without a death, once nothing is left to run a task, an aborted one included, has been woken if and only if an agent_settled was handled at whatever state, the watchdog passed a verdict, or a resume was rejected |
| SettlementCauses.WakesHaveACause | core.py:882-913 | In every history, deaths included, a wake implies a handled agent_settled, a watchdog verdict or a rejected recovery; an abort is no cause |
| SettlementRuns.AbortedTaskCanWake | core.py:1895-1928 | Any started task can end ABORTED and woken, with the settle event on either side of the ABORTED write, and with its gate refused |
| SettlementRuns.SweepWakesExactlyTheUnstranded | core.py:2065-2096 | Wherever in a history a sweep finds the task settled: in that manager's life the task ends up woken if and only if the sweep did not find it unwoken and stranded |
| SettlementRuns.SweepCompletes | core.py:2218-2245 | From any point of any history a death, a boot, the sweep's look and four more steps leave nothing to run, with the row the sweep function computes |
| SettlementRuns.UnloadableStrands | core.py:2286-2300 | A started task whose persisted spec does not load - an empty argv given to `start_task`, or a damaged column - is stranded, unwoken, by a death right after the settle event |
| SettlementRuns.DeadVerificationStrands | tools.py:534-553 | A started task without a spec is stranded, unwoken, by the death of an ad-hoc verification at work |
| SettlementRuns.LateVerdictDoesNotWake | core.py:1327-1378 | A stranded task that is verified again has its verdict, and no continuation without a death wakes it, resumes included |
| SettlementRuns.RejectionWakesUnlessDeath | core.py:2110-2124 | From any point of any history: a rejected recovery of an unwoken task leaves it ABORTED, and under every continuation without an explicit resume its wake is ever opened if and only if the next thing that happens to it is not the manager's death |
| SettlementRuns.RejectionCanLoseItsWake | core.py:2110-2124 | From the start of any task a death, a rejected recovery and a second death leave it ABORTED and unwoken under every continuation without an explicit resume |
| SettlementRuns.CrashCanLoseItsWake | core.py:1483-1492 | A death between the crash verdict and its wake leaves the task CRASHED and unwoken under every continuation without an explicit resume |
| SettlementRuns.LostWakeIsRecoveredByResume | tools.py:501-509 | Every continuation that opens such a lost wake has an explicit resume, and a rejected one after the next boot opens it |
| SettlementRuns.ResumeCanSkipGate | core.py:2098-2104 | A task resumed with a spec that does not load can settle and wake without a verdict, with no death |
| SettlementRuns.ResumeOfSettled | core.py:2218-2245 | An explicit resume of a settled task judges and wakes it if its verdict is missing and its spec loads, and otherwise finds nothing to do |
| Settlement.CompleteOutcomeIsEarned | core.py:384-446 | The wake says "complete outcome" if and only if the task is settled, its gate passed and its last scan that reached a verdict counted nothing; then the last gate exited 0, with its verdict after a settle event |
| Verdicts.VerdictIsTheLastGates | core.py:1327-1378 | Over every history a decided row says what its last gate did: PASS if and only if it exited 0, UNRUNNABLE if and only if it timed out or exited 126 or 127, FAIL otherwise |
| Verdicts.MessageShowsTheLastRuns | core.py:384-446 | Over every history the wake message shows a gate line if and only if a gate has run, opening with its last exit, and the text of the last scan |
| Verdicts.CompleteOutcomeIsReached | core.py:384-446 | Any started task whose spec loads has a run at whose end the complete outcome is said |
| LspCheck.Run | lsp_check.py:138-224 | No verdict without a service or a checked file; otherwise the counts are exact over the files checked within the budget, the quoted findings are those of the first five errors in order, and truncation is told |
| LspCheck.FindingsAreErrors | lsp_check.py:200-213 | There is one finding to quote per counted error |
| LspCheck.NoneCountedMeansNone | lsp_check.py:200-213 | A count is zero exactly when no diagnostic has that severity |
| LspCheck.CountsArePositions | lsp_check.py:200-213 | The counts are the numbers of diagnostics of severity 1, none or 0, and of severity 2 |
| LspCheck.CheckedAreThoseFiles | lsp_check.py:173-199 | The checked files are those with an enabled server that answered and either found something or is known to be running |
| LspCheck.DiagnosticsAreTheirs | lsp_check.py:173-213 | The diagnostics counted are all those of the checked files, and no others |
| LspCheck.FindingsInOrder | lsp_check.py:200-213 | The finding of each error stands at the place the error has among them |
| LspCheck.SummaryOpensByCounts | lsp_check.py:227-263 | The stored, truncated summary opens with "LSP found" exactly when the scan counted an error or a warning |
| LspCheck.SummaryStatesCounts | lsp_check.py:227-263 | The summary opens with the scan's counts of errors, warnings and files |
| LspCheck.SummaryIsStored | core.py:1318-1320 | Of it 600 characters are stored |
| Text.BoundKeepsPrefix | registry_db.py:188-195 | Truncation never changes the answer of a prefix test within the limit |
| Text.DecInjective | outbox.py:144-148 | Decimal renderings of different numbers differ |
| Text.DecReads | outbox.py:144-148 | A decimal text reads as the number it renders |
| Text.BoundKeepsTheLimit | registry_db.py:188-195 | A text within the limit is untouched, of a longer one exactly the limit's worth is kept |
| StableIds.TerminalIdInjective | outbox.py:137-141 | Terminal ids determine task and kind, whatever characters the task id has |
| StableIds.ProgressIdInjective | outbox.py:144-148 | Progress ids determine task and number |
| StableIds.FamiliesDisjoint | outbox.py:137-148 | No terminal id is a progress id |
| StableIds.ProgressIdsHaveNoGap | outbox.py:252-256 | However many enqueues race between count and insert, the progress ids of a task are exactly 1..n |
| StableIds.InsertOutcome | registry_db.py:423-452 | An insert on a current count adds the next id, which is free; one on a stale count is ignored |
| StableIds.OneRowPerTerminalKind | core.py:1599-1604 | However often an outcome is announced, a task has at most one row of each terminal kind |
| StableIds.AnnouncementIsStored | outbox.py:233-283 | After an announcement its row is there under the task and kind: no other task's row ever takes its place |
| ProgressNotices.NoticesAreRationed | core.py:1193-1247 | By task age E there is no notice before the first-notice time, and at most one plus the whole intervals passed since it |
| ProgressNotices.ConsecutiveNoticesDiffer | core.py:1193-1247 | Two consecutive notices never report the same signature |
| ProgressNotices.SilenceIsNeverAnnounced | core.py:1193-1281 | From the boot or a reattachment on, a run of ticks, looks and aborts with no event but the agent's start, and with every heartbeat answered the same or missed, announces nothing, CPU renewals and stall verdicts included |
| ProgressNotices.SilentTickKeepsSignature | core.py:1458-1606 | A tick that learns nothing new moves nothing a notice could report, whatever state it writes |
| RpcTransport.NormalReturnIsOwnSuccess | rpc_transport.py:166-207 | Under all interleavings of senders, timeouts and the end of the stream a command returns normally only with a success response read from the pipe that carries its own id |
| RpcTransport.WokenSenderReturns | rpc_transport.py:200-207 | In every reachable state a woken sender returns normally with r if and only if its box holds r and r reports success, and as failed otherwise |
| RpcTransport.AnsweredCommandReturns | rpc_transport.py:166-207 | From every reachable state in which the sender waits, its response line, the hand-over, the wake-up and the return end the command with that response if it reports success, and as failed if not |
| RpcTransport.UnansweredCommandFails | rpc_transport.py:189-199 | Without an answer a command ends timed out, or closed if its line could not be written |
| RpcTransport.PendingIsExactlyUnreturned | rpc_transport.py:166-207 | The pending keys are exactly the requests begun and not returned |
| RpcTransport.EveryLineGoesSomewhere | rpc_transport.py:271-305 | Each non-blank line read has gone to exactly one of malformed, a waiting request, events |
| RpcTransport.LineIsReadAndFill | rpc_transport.py:271-305 | In every reachable state the two reader steps of one line do to boxes, pending keys and counters what the reader method does to its waiters |
| RpcTransport.EndReleasesWaiters | rpc_transport.py:306-315 | After the end of the stream no sender that was waiting can time out: it ends with its response if one had come, else with a command failure |
| RpcTransport.EndOfStreamLeavesNobodyBehind | rpc_transport.py:306-315 | Over every run, whoever was pending when the reader met the end of the stream and still waits when it has finished with it is signalled and does not end timed out |
| ProcessTree.LiveDescendants | core.py:1734-1756 | On every table, cyclic ones included, it terminates and returns rows below the root, each once, at most the limit, and all of them if it returns fewer |
| ProcessTree.CpuTotal | core.py:1813-1828 | On every table the total is the root's own time plus the sum over exactly the rows below the root, each once, whatever order the walk met them in |
| ProcessTree.RootCountedOnce | core.py:1813-1828 | With distinct pids the root's row is added once, and a second time exactly if the root is its own descendant |
| ProcessTree.CpuAmongIsSum | core.py:1813-1828 | The sum in that total is one: nothing for no rows, and each further row adds its own time |
| ProcessTree.LastRowIsOwn | core.py:1816-1817 | Of several rows with the root's pid the last is its own; none counts as 0 |
| ProcessTree.ClosedContainsReachable | core.py:1740-1756 | A set with the root that is closed under children holds every reachable pid: why a finished walk has missed nothing |
| RegistryDb.RequeueMovesExactlyExpired | registry_db.py:454-468 | A requeue changes exactly the rows whose lease has run out, and leaves none such |
| WakeWorker.TerminalWakeWorker.RunOnce | wake_worker.py:152-173 | One pass gives up stale dispatches, takes the first due wakes by deadline up to the limit, dispatches each once and reports how many |
| WakeWorker.TerminalWakeWorker.DispatchOne | wake_worker.py:175-216 | A claimed wake is injected once; accepted on True, retried after its backoff or exhausted otherwise, an exception counting as a refusal |
| WakeWorker.RefusalWaitsItsBackoff | wake_worker.py:200-216 | A refused wake is due again exactly when the backoff of its attempt has passed, and never once the budget is spent |
| WakeWorker.AcceptedDispatchEnds | wake_worker.py:175-199 | An accepted dispatch records the time and the attempt, and the wake is never due again |
| WakeWorker.TerminalWakeWorker.DispatchAll | wake_worker.py:163-173 | The loop claims and dispatches every listed wake once, in order |
| OutboxWorker.OutboxWorker.RunOnce | outbox.py:403-412 | One drain pass requeues expired leases, claims the oldest due rows up to the limit, delivers each once and leaves every other row alone |
| OutboxWorker.OutboxWorker.DeliverAll | outbox.py:403-412 | The loop over a claimed batch records one outcome for each row of it, each worked out from that row |
| OutboxWorker.OutboxWorker.DeliverOne | outbox.py:414-443 | No target is a permanent failure; a receipt marks sent; an exception is transient; an error text is as it classifies |
| OutboxWorker.OutboxWorker.MarkFailed | outbox.py:296-312 | Transient below six attempts goes back to pending with the backoff of its attempt, everything else to failed |
| OutboxWorker.FailureWaitsItsBackoff | outbox.py:65-71 | A failed delivery is due again exactly after 5, 15, 60, 300 or 900 seconds by its attempt; a permanent failure or the sixth attempt never is |
| OutboxWorker.DeliveryOutcome | outbox.py:414-443 | With a usable target a delivered row is sent if and only if there was a receipt, failed if and only if the error was not transient or there was no receipt at the sixth attempt, pending otherwise |
| WatchdogTiming.EarlyTick | core.py:1516-1530 | Before the threshold a silent tick opens no grace and does not forget that a tool is running |
| WatchdogTiming.OpeningTick | core.py:1566-1584 | The first silent tick past the threshold requests one abort and opens the grace at its own time |
| WatchdogTiming.GraceTick | core.py:1566-1606 | In the grace a silent tick asks for no further abort, and calls the task STALLED exactly when the grace has passed |
| WatchdogRuns.TickEnds | core.py:1458-1606 | Each tick ends in one of six ways, told from its inputs; each fixes the state, grace, remembered state, progress column and abort request |
| WatchdogLaws.DeafAgentIsUnresponsive | core.py:1497-1508 | A due heartbeat left unanswered makes a live task UNRESPONSIVE at once, however recent its progress |
| WatchdogLaws.EarlyTickDoesNotAsk | core.py:1497-1530 | Before its time, on a task that is not too quiet, what the agent would answer makes no difference |
| WatchdogLaws.AnswerIsStored | core.py:1667-1690 | A tick that asks stores the answer, and on a change moves the progress clock, ends the grace and heals the state |
| WatchdogLaws.CapStrikesAtItsAge | core.py:1473-1481 | From the cap's age on a live task is aborted, before it the tick is that of a task without a cap |
| WatchdogLaws.SilentToolIsSparedExactlyOnProof | core.py:1551-1564 | A silent tool is renewed if and only if a sample at most three windows old shows more than half a CPU second since, and opens its grace otherwise |
| WatchdogLaws.OnlyToolsAreSampled | core.py:1551-1564 | Only the process tree of a running tool is sampled |
| WatchdogLaws.IdleTaskWaits | core.py:1516-1530 | A running task idle for the waiting time is WAITING; a tool and a degraded task stay as they are |
| WatchdogLaws.StallVerdictAnnounces | core.py:1584-1604 | A tick that stalls a task without news announces it and opens its wake |
| WatchdogLaws.UnsetClocksAreFresh | core.py:1497-1522 | Clock columns that are NULL or zero count as just now |
| WatchdogLaws.EventPlacesTask | core.py:933-1022 | Where each event leaves a live task, so that none leaves it waiting, stalled or unresponsive |
| WatchdogLaws.EventWrites | core.py:988-1037 | What an event writes besides: progress, tool, streaming, compaction, and at agent_settled PENDING if and only if the runtime has a verifier |
| WatchdogLaws.EventIsNamed | core.py:926-931 | The last event type is spelled as the RPC spells it |
| WatchdogLaws.FinalOrResumed | core.py:921-1058 | An event leaves a final task's state, and a restart resumes exactly the tasks that are not final |
| WatchdogRuns.EventOutcome | core.py:921-1058 | An event clears grace and remembered state, counts as progress, leaves the wake columns, and changes the state only of a task that is not final |
| WatchdogRuns.AbortOpensNoWake | core.py:1895-1928 | The abort handler by itself opens no wake and ends a task that is not final as ABORTED |
| Races.TickLeavesTickState | core.py:1458-1606 | The state a tick of a live, uncapped task is said to write in a race is the one the atomic tick leaves |
| Races.CappedTickSparesFinal | core.py:1473-1481 | A capped tick, however old its read, leaves a task that is final when its abort reads it again |
| Races.UninterruptedTick | core.py:1458-1606 | Read and write of a tick without interference leave the state of the atomic tick |
| Races.UninterruptedCappedTick | core.py:1890-1893 | So do the read, the hand-over and the abort's write of a capped one |
| Races.UninterruptedAbort | core.py:1895-1928 | Read and write of an abort without interference leave the state of the atomic abort |
| Races.UninterruptedRecovery | core.py:2098-2216 | Read and write of a recovery without interference leave the state of the atomic recovery |
| Supervisor.PiManager.SetExecutionState | core.py:625-635 | A plain write of the state column, no guard |
| Supervisor.PiManager.ApplyStateSnapshot | core.py:1667-1690 | Stores a snapshot; only a changed one moves the progress clock, and the result says which it was |
| Supervisor.PiManager.MarkUnresponsive | core.py:1633-1641 | Goes UNRESPONSIVE and remembers the first state it came from |
| Supervisor.PiManager.ApplyChangedHeartbeat | core.py:1643-1665 | Ends the grace and heals WAITING, STALLED and UNRESPONSIVE |
| Supervisor.PiManager.ToolProcessActive | core.py:1830-1842 | Proof of work needs a previous sample, more than half a second of CPU and a recent enough one; every sample is kept |
| Supervisor.PiManager.JudgeQuietTask | core.py:1540-1606 | The tail of a tick: renewal on proof of work, else grace with its abort, then STALLED with wake and notice |
| Supervisor.PiManager.Heartbeat | core.py:1692-1702 | One question; no answer or a changed answer decides the tick, and the row and runtime become what that case says |
| Supervisor.PiManager.EvaluateLive | core.py:1497-1606 | The evaluation of a live process, with the heartbeat asked at most once |
| Supervisor.PiManager.WatchdogTick | core.py:1458-1606 | A tick changes the task's row and runtime exactly as the tick function of all the run results, and no other row |
| Supervisor.PiManager.Abort | core.py:1895-1928 | The kill switch leaves final tasks alone and ends others ABORTED without a wake |
| Supervisor.PiManager.HandleEvent | core.py:921-1058 | The guarded transition followed by the plain columns and the runtime reset is the event function of all the run results |
| Supervisor.PiManager.RunLspCheck | core.py:1302-1325 | Stores the text of a scan that reached a verdict, whose counts are exact, and nothing else |
| Supervisor.PiManager.RunVerifierNow | core.py:1327-1378 | Refused unless the task is settled; then PASS, FAIL or UNRUNNABLE by the exit, with its verdict line |
| Supervisor.PiManager.RecoverInterrupted | core.py:2098-2216 | Rejection aborts and opens the wake; reattachment stores the probed snapshot and waits with a fresh progress clock |
| Supervisor.PiManager.RecoverSettled | core.py:2075-2095 | Reruns an undecided gate that loads and opens the wake, or opens a missing wake of a resolved one |
| Supervisor.PiManager.RecoverAll | core.py:2065-2096 | The sweep over both lists treats every row of the table once, each as its own state asks, and no other |
| Settlement.SweepPlacesInterrupted | core.py:2098-2216 | An interrupted task comes back waiting with a fresh progress clock, or ends ABORTED with its wake opened |
| Verdicts.ExitReads | core.py:1346-1369 | One gate's exit as verdict: 0 passes, 126, 127 and a timeout are unrunnable, all else fails; no other column but the summary changes |
| Verdicts.VerdictLineTells | core.py:353-381 | The verdict line opens with passed, failed or error as the gate exited 0, otherwise, or not at all |
| Verdicts.SweepJudges | core.py:2065-2096 | One sweep keeps a verdict that is there, takes a missing one from a rerun gate if the spec loads, and opens the wake in exactly the listed cases |
| Verdicts.RecoveryWrites | core.py:2098-2216 | What a rejection and a reattachment leave in the columns |
| Verdicts.SettlingWritesTheEventsColumns | core.py:967-970 | The settle thread's first write is that of the event handler |
| LspCheck.Tally | lsp_check.py:200-213 | The inner loop counts errors and warnings exactly and keeps the findings of the first five errors seen so far |
| StableIds.NotificationOutbox.Enqueue | outbox.py:233-283 | Works out the stable id, inserts a pending row or ignores a known id, and returns the id exactly when it inserted |
| StableIds.IdsAreSpelled | outbox.py:137-148 | The spelling of the ids |
| ProgressNotices.NoticeRuntime.NotifyProgress | core.py:1193-1247 | The gates in the code's order send exactly the notice the pacing rules allow and remember it |
| ProgressNotices.NoticeGoesOutExactly | core.py:1207-1240 | A look announces if and only if the task is live and old enough, the interval has passed and one of the three columns has moved |
| ProgressNotices.NoticeRuntime.SeedBaseline | core.py:1249-1273 | The boot baseline is set once |
| ProgressNotices.NoticeRuntime.OnAgentStart | core.py:1042-1055 | An agent start moves the baseline only before the first notice |
| RpcTransport.PiRpcTransport.Register | rpc_transport.py:176-188 | A fresh id and a fresh waiter; no other entry changes |
| RpcTransport.PiRpcTransport.Finish | rpc_transport.py:196-207 | The entry goes whatever the outcome, and only that one; normal with r if and only if signalled with the success response r, timed out if and only if not signalled |
| RpcTransport.PiRpcTransport.HandleLine | rpc_transport.py:271-305 | A line touches only the entry it is for, or counts as malformed or event |
| RpcTransport.PiRpcTransport.HandleEof | rpc_transport.py:306-315 | Every waiter is signalled and no response is invented |
| RegistryDb.SelectFirst | registry_db.py:626-638 | ORDER BY with LIMIT: distinct due rows in the order of key and id, NULL first, as many as the limit allows, none skipped for a later one |
| RegistryDb.OpenedWake | registry_db.py:594-624 | From NULL the wake is disabled if and only if the task may not continue, and otherwise due from now on; nothing else is written |
| RegistryDb.LeaseLasts | registry_db.py:470-507 | A row claimed for some seconds is out of reach for exactly that long, however often it was retried |
| RegistryDb.FirstAreOldest | registry_db.py:470-507 | Everything claimable is claimed if the limit allows, the older rows first |
| RegistryDb.FirstAreEarliest | registry_db.py:626-638 | Everything due is listed if the limit allows, no deadline first, then the earlier ones |
| RegistryDb.IdLeMeans | registry_db.py:632-637 | Ties are broken by the lexicographic order of ids |
| RegistryDb.Registry.ClaimNotifications | registry_db.py:470-507 | Requeue, select the oldest claimable rows and lease them in one step, with their deadline and one more attempt |
| RegistryDb.Registry.RequeueExpiredLeases | registry_db.py:454-468 | The leases past their deadline go back to pending, and the result is how many there were |
| RegistryDb.Registry.SetNotificationSent | registry_db.py:509-518 | Unguarded write of 'sent', lease cleared |
| RegistryDb.Registry.SetNotificationRetry | registry_db.py:520-532 | Unguarded write of 'pending' with its retry time, lease cleared |
| RegistryDb.Registry.FailNotification | registry_db.py:534-546 | Unguarded write of 'failed', lease and retry time cleared |
| RegistryDb.Registry.InsertNotification | registry_db.py:423-437 | INSERT OR IGNORE: a row under the same id wins, and the result says whether it was new |
| RegistryDb.Registry.ProgressSeq | registry_db.py:439-452 | The number of the task's progress rows, 0 on a closed handle |
| RegistryDb.Registry.TransitionTaskState | registry_db.py:323-352 | Compare-and-set that applies exactly to a known task that is not final |
| RegistryDb.Registry.BeginTerminalWake | registry_db.py:594-624 | Opens the wake only from NULL: pending with its time, or disabled without continuation; returns the state afterwards, whoever opened it |
| RegistryDb.Registry.ListWakePending | registry_db.py:626-638 | All wakes that are pending, allowed and due, the earliest first, up to the limit |
| RegistryDb.Registry.ClaimTerminalWake | registry_db.py:640-653 | Won exactly on a pending row, which becomes dispatching with one more attempt |
| RegistryDb.Registry.MarkWakeAccepted | registry_db.py:655-665 | Accepted from any state |
| RegistryDb.Registry.MarkWakeRetry | registry_db.py:667-681 | Back to pending with a new deadline, from dispatching only |
| RegistryDb.Registry.MarkWakeExhausted | registry_db.py:683-694 | Exhausted, from dispatching only |
| RegistryDb.Registry.SettleStaleWakeDispatching | registry_db.py:696-718 | Every dispatching row becomes uncertain, no other changes, and exactly those rows are returned |
| RegistryDb.Registry.UpdateTask | registry_db.py:300-313 | A plain update of a known row on an open handle |
| RegistryDb.Registry.GetTask | registry_db.py:315-321 | The row, or nothing for an unknown task or a closed handle |

## Left out

- SQLite, WAL, schema migration and file paths: tables are maps and each method is one atomic step. The events table, its pruning and `updated_at` are not modelled.
- Processes, signals, `ps`, `git`, the language server, the gateway and the send tool are inputs: arbitrary answers, exceptions included. Which error texts classify as transient (`classify_transient`) and how targets are built (`build_target`) are inputs too.
- The boot of a task: the run results begin at RUNNING. A spawn failure there ends CRASHED without a wake (core.py:763-766).
- In the run and timing results a handler is atomic with one clock reading; handlers split into read and write are in the race results, which follow the state column only, with the snapshot hash as the tick first read it. A settle event that lands inside a reattachment is not modelled.
- The settlement machine follows one task. The tick's state and wake are its only two writes there, and a resume's outcome is one write with its wake as a second; the grace and the heartbeat behind a verdict are in `WatchdogRuns`. Tools wait for the manager's lock until its sweep is over (tools.py:184-197), so none runs beside the sweep's look; another process on the same registry is not modelled.
- WakeProtocol.AtMostOneAcceptance: an injection that raised or returned False counts as not accepted, as the host documents; what the gateway does after raising cannot be seen.
- Races.SettlementIsLostExactlyToOldWrites: the runtime a tick finds is taken not to remember a final state, which `WatchdogRuns.UnresponsiveRemembers` proves of atomic handlers.
- ProgressNotices.SilenceIsNeverAnnounced: an event and its re-baseline are one step; a look between the two is not modelled.
- WakeWorker.RefusalWaitsItsBackoff: holds for one worker; with two, a row listed by both can be claimed by the slower one before its new deadline, since the claim looks at the state only.
- OutboxWorker.PassIsRun: leases of negative length are not considered.
- RegistryDb.Registry.UpdateTask: a method that updates several columns passes the whole new row.
- Supervisor.PiManager.RecoverAll: the rows of each list are visited in any order; each row has its own gate and reattachment outcome, and one clock reading serves the sweep. The registry is not closed in the middle of it.
- Supervisor.PiManager.WatchdogTick: the RPC abort, the diagnostic snapshot, the stall record and notices are reported as results; their texts, the once-per-window suppression of snapshots and error columns are not modelled.
- ProcessTree.CpuTotal: CPU times are numbers; parsing the text of `ps` is not modelled.
- RpcTransport.NormalReturnIsOwnSuccess: ids are numbers in order of issue, never reused, for a counter with a random suffix; a timeout may strike at any moment before the signal.
- The hash of a snapshot is taken to be injective: a snapshot stands for its own hash.
- Wording of messages beyond the opening words of the scan summary and the "complete outcome" line, digest, status, steering, tool schemas, the repeated-verifier warning and the host adapter.
