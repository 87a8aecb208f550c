# MEWS: verified models of its stateful cores

MEWS lets agents run on several hosts behind one Hub and talk to people through Channels. This project
models the parts of it that keep state across many steps and proves what they keep over whole runs:

- **Channel delivery dispatcher** (`Dispatcher*.dfy`): per-destination lanes, ready queue, active set,
  delayed retries and bounded platform calls.
- **Durable inbox** (`TurnKeys.dfy`, `Inbox*.dfy`): messages stored, acknowledged and turned into
  idempotent Hub turns across crashes and redeliveries.
- **ACP runtime pool** (`Pool*.dfy`, `TurnHooks.dfy`): a bounded table of warm processes with sticky
  Session bindings, worker threads and waiting requests as interleaved atomic steps, and the lifecycle
  hooks of one turn.
- **Hub transfer** (`HubTransfer.dfy`, `Activation*.dfy`): receiving a Hub and activating it through any
  number of crashes.
- **Agent turn** (`Messages.dfy`, `ContextBudget.dfy`, `ProviderStream*.dfy`, `ToolBatch*.dfy`,
  `AgentTurn*.dfy`): history trimming, one model call with its single safe replay, the tool batch, and the
  loop around them.
- **Streamed answer** (`StreamDelta.dfy`, `JsonMerge.dfy`, `Updates*.dfy`) and **relay routes**
  (`Relay.dfy`).

Each core has the same shape. A datatype holds the state and the history worth talking about; functions
give its atomic moves; lemmas are about every run of moves. Classes and methods follow the code's own
loops and updates and are proved to compute exactly those moves. Whatever the code cannot decide (answers
of platforms, providers, hooks and tools, the clock, cancellation, schedules, crashes) is an input, so every
result holds for all of it.

Integer widths: delivery attempts saturate at 2^32 - 1; worker and route generations and event ordinals
are 64-bit and wrap, and the results about them hold for runs too short to wrap; byte counts saturate at
2^64 - 1.

## Where the code and its intentions differ

- `crates/mews-acp/src/session.rs:1091-1095` recognises its own restart request by searching the error
  text, and adapter messages are part of that text. The recovery recurses at most once if and only if the
  replacement meets no error from outside that carries the marker (`TurnHooks.RecursesOnceExactly`,
  `TurnHooks.NeverCompletes`).
- `crates/mews-acp/src/session.rs:605-663` reads a worker's load several times, so a worker that becomes idle
  between two reads can be evicted for a request of its own fingerprint. `PoolDecisions.EvictsOwnExactly`
  says when a call does so. Some run leads to it if and only if a fingerprint may have at least two
  processes (`PoolEviction.OwnEvictionExactly`): with the default limits of 4 and 8 and with
  `with_max_processes(n)` for every n >= 2, never for n <= 1. With reads that agree only other fingerprints
  lose a worker (`PoolDecisions.EvictsOnlyIdleOthers`).
- `crates/mews-host/src/lifecycle.rs:894` fails on an active database that cannot be opened, so an armed
  transfer then never completes; that is the only case (`ActivationRuns.Converges`).
- `crates/mews-host/src/lifecycle.rs:883-885` ignores the errors of its closing removals, so a call can succeed
  with the marker, the token or the manifest still there. What stays, and that nothing else is affected, is
  `ActivationRuns.CleanUpSettles`.
- `crates/mews-acp/src/updates.rs:214-216` copies a new field as it is, so a null inside it survives although
  a null field of an existing object is passed over. The result holds a null if and only if a value taken
  over whole or one that stays as it was holds one (`JsonMerge.NullsArriveExactly`,
  `JsonMerge.NullsArriveInto`).
- `crates/mews-agent/src/context_budget.rs:44-75` refuses an empty history exactly when fewer than two bytes are
  left (`ContextBudget.EmptyHistoryFailsExactly`).
- `crates/mews-channel/src/runtime.rs:629-632` continues past the exit check when the queue closes. If nothing
  is outstanding at that moment the dispatcher therefore does not leave and waits for the shutdown channel
  alone; if something is, it leaves at the first iteration that leaves nothing outstanding
  (`DispatcherExit.ClosedLeavesExactly`, `DispatcherExit.LeavesAtFirstQuiet`).
- `crates/mews-agent/src/loop.rs:361`, `:380`, `:392` and `:408` return on a failed signal without closing the
  provider operation. An operation stays open if and only if its stream holds a failing signal that is
  reached (`ProviderStreamRuns.ClosedExactlyOnce`, `ProviderStreamRuns.SignalFailedMeans`).
- `crates/mews-acp/src/session.rs:916` returns a failed start without a `turn_end`; every other answer or
  cancellation has exactly one (`PoolRuns.TurnEndsOnce`).
- `crates/mews-acp/src/session.rs:653-663` drops an evicted worker from the table before its process has
  stopped, so more processes may run than the limits say. Those outside the table take no new work
  (`PoolRuns.UnlistedIsStopping`), and those that do stay within the limit (`PoolRuns.AcceptingWithinLimit`).

## Model

| member | source | states |
|---|---|---|
| DispatcherModel.Dispatcher.WakeDueDeliveries | crates/mews-channel/src/runtime.rs:541-555 | The scan with swap-removal wakes exactly the delays that are over, each at the front of its lane, and equals the specified scan |
| DispatcherModel.Dispatcher.LaunchNext | crates/mews-channel/src/runtime.rs:557-583 | Taking one ready destination starts the call for the oldest delivery of its lane, or drops a destination that is active or has nothing queued |
| DispatcherModel.Dispatcher.LaunchReady | crates/mews-channel/src/runtime.rs:556-584 | The dispatch loop stops only when all workers are busy or no destination is ready |
| DispatcherModel.Dispatcher.Settle | crates/mews-channel/src/runtime.rs:592-627 | A retry is delayed with a saturating attempt number and keeps its destination active; a terminal outcome frees it and readies or removes its lane |
| DispatcherModel.Dispatcher.Enqueue | crates/mews-channel/src/runtime.rs:628-637 | A received delivery goes to the back of its lane, which becomes ready only if it was idle and empty |
| DispatcherModel.Dispatcher.Pass | crates/mews-channel/src/runtime.rs:540-646 | One turn of the loop computes the specified iteration and returns exactly on shutdown or at the final check, which the branch that finds the queue closed skips |
| DispatcherModel.Dispatcher.RunLoop | crates/mews-channel/src/runtime.rs:540-646 | The loop over any sequence of branch choices computes the specified run |
| DispatcherModel.RunSnoc | crates/mews-channel/src/runtime.rs:540-646 | A run extends by one iteration at its end |
| DispatcherLaws.WakeInv | crates/mews-channel/src/runtime.rs:543-551 | Waking a delivery keeps FIFO order, the active set and the ready queue of every destination |
| DispatcherLaws.LaunchInv | crates/mews-channel/src/runtime.rs:556-584 | Starting a call keeps them and never exceeds the worker limit |
| DispatcherLaws.FinishInv | crates/mews-channel/src/runtime.rs:592-627 | Either answer of a platform call keeps them |
| DispatcherLaws.AcceptInv | crates/mews-channel/src/runtime.rs:628-637 | Receiving keeps them |
| DispatcherLaws.RunInv | crates/mews-channel/src/runtime.rs:540-646 | Every run keeps every invariant of the five coupled structures |
| DispatcherRuns.FifoPerDestination | crates/mews-channel/src/runtime.rs:533-646 | For each destination, what was accepted is what is settled, then the one in flight or delayed, then the lane, in order; nothing is lost or duplicated |
| DispatcherRuns.AttemptsPerDestination | crates/mews-channel/src/runtime.rs:594-598 | The calls for a destination are, delivery by delivery, attempts 1, 2, 3, ... (saturating) without another call in between |
| DispatcherRuns.Scheduling | crates/mews-channel/src/runtime.rs:541-584 | At most `worker_limit` calls run; the active set is exactly the destinations in flight or delayed, each once; the ready queue is duplicate free and holds exactly the idle destinations with a non-empty lane; after the dispatch phase all workers are busy or nothing is ready |
| DispatcherRuns.ExitMeansSettled | crates/mews-channel/src/runtime.rs:643-645 | Leaving at the final check means every accepted delivery has its terminal outcome |
| DispatcherExit.ClosedLeavesExactly | crates/mews-channel/src/runtime.rs:540-646 | After the branch that finds the queue closed the dispatcher has not returned; it can leave without the shutdown channel if and only if something was in flight, delayed or queued then; otherwise only branches of that channel are enabled |
| DispatcherExit.LeavesAtFirstQuiet | crates/mews-channel/src/runtime.rs:629-645 | With the queue found closed, an iteration is the last one if and only if it was shut down or leaves nothing outstanding |
| DispatcherRuns.BoundedWork | crates/mews-channel/src/runtime.rs:115-139 | Permits are conserved: what is buffered, queued, running or delayed never exceeds them |
| TurnKeys.BigEndianRoundTrip | crates/mews-channel/src/runtime.rs:490-492 | The eight length bytes give back the length |
| TurnKeys.FramedPrefix | crates/mews-channel/src/runtime.rs:490-493 | Two length-prefixed values that begin the same byte string are equal |
| TurnKeys.KeysInjective | crates/mews-channel/src/runtime.rs:484-495 | The bytes hashed into a turn key determine conversation and external id |
| InboxRuns.MappingStore.Insert | crates/mews-channel/src/mapping.rs:103-109 | A conversation and a Session are mapped at most once |
| InboxRuns.MappingStore.Enqueue | crates/mews-channel/src/mapping.rs:127-139 | A message is appended unless the same id of the same conversation is stored |
| InboxRuns.MappingStore.ConversationOf | crates/mews-channel/src/mapping.rs:92-101 | Finds the conversation of a Session, or says there is none |
| InboxRuns.MappingStore.Next | crates/mews-channel/src/mapping.rs:149-161 | Returns a pending message of the conversation with the least id, or None exactly if there is none |
| InboxRuns.MappingStore.MarkStarted | crates/mews-channel/src/mapping.rs:163-177 | Records the active turn and deletes the message together, unless either column is taken |
| InboxRuns.MappingStore.FinishTurn | crates/mews-channel/src/mapping.rs:185-199 | Removes the record of a turn and returns the Session it belonged to, if any |
| InboxRuns.MappingStore.DiscardPending | crates/mews-channel/src/mapping.rs:179-183 | Exactly the row with that id goes, the rows before and after it stay in order, no other table changes, and an unknown id changes nothing |
| InboxRuns.ChannelRuntime.StartTurn | crates/mews-channel/src/runtime.rs:455-458 | The Hub's idempotent start: the known turn of a key or one new running turn |
| InboxRuns.ChannelRuntime.LaunchRow | crates/mews-channel/src/runtime.rs:433-470 | One round of the launch loop is a launch and a settlement of the model; the pending table shrinks when the turn is over already |
| InboxRuns.ChannelRuntime.LaunchNext | crates/mews-channel/src/runtime.rs:425-471 | The whole launch loop is a run of launches and settlements, and it terminates |
| InboxRuns.ChannelRuntime.HandleInbound | crates/mews-channel/src/runtime.rs:342-423 | An unacceptable message leaves no trace; any other one is mapped, stored, then acknowledged, then launched, as a run of the model |
| InboxRuns.ChannelRuntime.HandleTurnState | crates/mews-channel/src/runtime.rs:324-340 | A terminal turn event frees its Session and launches the next message, as a run of the model |
| InboxRuns.MappingStore.Mappings | crates/mews-channel/src/mapping.rs:111-125 | Every mapping is listed, and nothing else |
| InboxRuns.MappingStore.ActiveTurns | crates/mews-channel/src/mapping.rs:201-213 | Every recorded active turn is listed, and nothing else |
| InboxRuns.ChannelRuntime.Open | crates/mews-channel/src/runtime.rs:174-198 | The two recovery loops are a run of the model from the crashed process to one with nothing in hand |
| InboxRuns.ChannelRuntime.AttachSession | crates/mews-channel/src/runtime.rs:208-214 | A Session, however old, is mapped to a conversation unless either is mapped; otherwise nothing changes |
| InboxSteps.AttachKeeps | crates/mews-channel/src/runtime.rs:208-214 | Attaching a Session keeps the inbox invariant |
| InboxSteps.DoKeeps | crates/mews-channel/src/runtime.rs:150-495 | Every atomic operation, Hub change and crash keeps the inbox invariant |
| InboxSteps.RunKeeps | crates/mews-channel/src/runtime.rs:150-495 | So does every run |
| InboxSteps.LaunchKeeps | crates/mews-channel/src/runtime.rs:425-458 | Asking the Hub keeps it, whether the turn is new or known |
| InboxSteps.SettleKeeps | crates/mews-channel/src/runtime.rs:459-469 | Settling keeps it and violates no table constraint |
| InboxSteps.RecoverKeeps | crates/mews-channel/src/runtime.rs:185-197 | Every item of the recovery loops keeps it |
| InboxRuns.AcknowledgedIsKept | crates/mews-channel/src/runtime.rs:413-422 | Every acknowledged message is pending or has its Hub turn, after any crashes |
| InboxRuns.OneTurnPerMessage | crates/mews-channel/src/runtime.rs:455-467 | Each (conversation, external id) gets at most one turn, and no two share one |
| InboxRuns.TurnsInArrivalOrder | crates/mews-channel/src/mapping.rs:127-161 | Turns of a conversation are created in first-arrival order and the rest waits in that order behind them |
| InboxRuns.OneRunningTurnPerSession | crates/mews-channel/src/runtime.rs:425-470 | A Session never has two running turns created by the Channel, although a crash can separate creating a turn from recording it |
| InboxProgress.StepWatches | crates/mews-channel/src/runtime.rs:150-495 | Every operation keeps: a conversation with pending messages has a recorded turn, or the process still has to look at its Session |
| InboxProgress.NothingStranded | crates/mews-channel/src/runtime.rs:185-197 | With nothing in hand, every conversation with pending messages has a recorded turn of its own Session, and that turn is running or its end can be handled |
| InboxRuns.OnlyCrashesStopIt | crates/mews-channel/src/runtime.rs:425-470 | Only a crash stops the process: no lookup fails and no constraint is violated |
| PoolTable.PruneKeeps | crates/mews-acp/src/session.rs:582-593 | Pruning keeps bounds, unique generations and sound bindings and adds nothing |
| PoolTable.SpawnKeeps | crates/mews-acp/src/session.rs:666-672 | Publishing a new worker below the limits keeps them |
| PoolTable.TryWorkerKeeps | crates/mews-acp/src/session.rs:576-673 | Every call keeps both bounds, unique generations and bindings inside their group, whatever each of its reads returned |
| PoolTable.ExitKeeps | crates/mews-acp/src/session.rs:835-850 | A thread that removes itself keeps them |
| PoolDecisions.LiveBindingHonoured | crates/mews-acp/src/session.rs:596-603 | A Session bound to a worker that still accepts gets that worker |
| PoolDecisions.ReturnedBelongs | crates/mews-acp/src/session.rs:596-672 | The returned worker is in the requested group with the Session bound to it, and was seen accepting or has just been started |
| PoolDecisions.MembersAfter | crates/mews-acp/src/session.rs:582-672 | A call removes exactly the refusing workers and the evicted one and adds exactly the started one |
| PoolDecisions.OtherBindingsKept | crates/mews-acp/src/session.rs:582-672 | No call changes another Session's binding to a worker that stays |
| PoolDecisions.WaitingMeans | crates/mews-acp/src/session.rs:625-663 | A call that hands out nothing either evicted an accepting worker that looked idle, or saw every accepting worker busy and none of its fingerprint |
| PoolDecisions.EvictsOnlyIdleOthers | crates/mews-acp/src/session.rs:610-663 | Taken as one step, a call evicts only an idle worker of another fingerprint, and only if its own has no idle one |
| PoolDecisions.StartsOnlyWhenBusy | crates/mews-acp/src/session.rs:605-672 | Taken as one step, a call starts a process only below the global limit and with no idle worker of its fingerprint |
| PoolDecisions.EvictsOwnExactly | crates/mews-acp/src/session.rs:596-663 | A call evicts a worker of its own fingerprint if and only if the Session has no accepting worker, the fingerprint has accepting workers and fewer than its limit, the least loaded one looked busy at its second read, the table is full and the idle scan meets this fingerprint first |
| PoolDecisions.NoRoomNoOwnEviction | crates/mews-acp/src/session.rs:605-663 | With at most one process for a fingerprint no table and no reads lead to it |
| PoolEviction.OwnEvictionExactly | crates/mews-acp/src/session.rs:528-663 | Over all runs from the empty pool: such an eviction can happen if and only if a fingerprint may have two processes, so for the default limits and for every larger common limit than one |
| PoolCode.RetainAccepting | crates/mews-acp/src/session.rs:583 | The retain pass keeps exactly the accepting workers in order |
| PoolCode.MinByPending | crates/mews-acp/src/session.rs:605-609 | The scan returns the first least-loaded worker |
| PoolCode.FindIdleWorker | crates/mews-acp/src/session.rs:626-632 | The nested search returns the first idle worker in iteration order |
| PoolCode.CountProcesses | crates/mews-acp/src/session.rs:621-624 | The sum over the groups, in any order |
| PoolCode.AcpRuntimePool.constructor | crates/mews-acp/src/session.rs:540-555 | Both limits are at least one |
| PoolCode.AcpRuntimePool.Default | crates/mews-acp/src/session.rs:498-534 | The default limits are 4 and 8 |
| PoolCode.AcpRuntimePool.RetainLive | crates/mews-acp/src/session.rs:582-593 | The pruning loop over the groups |
| PoolCode.AcpRuntimePool.RemoveWorker | crates/mews-acp/src/session.rs:654-662 | A worker leaves with its bindings, its group with its last worker |
| PoolCode.AcpRuntimePool.StartWorker | crates/mews-acp/src/session.rs:675-686 | A generation is used up even by a failed start |
| PoolCode.AcpRuntimePool.AtLimit | crates/mews-acp/src/session.rs:625-663 | The branch at the global limit |
| PoolCode.AcpRuntimePool.TryWorker | crates/mews-acp/src/session.rs:576-673 | The whole method computes the specified decision and table and keeps the invariant |
| PoolWorker.PersistentWorker.Send | crates/mews-acp/src/session.rs:462-479 | A job is queued with the load raised, or handed back with nothing changed |
| PoolWorker.PersistentWorker.StopAccepting | crates/mews-acp/src/session.rs:481-486 | Exactly one Shutdown is queued, behind everything accepted |
| PoolWorker.PersistentWorker.IdleTimeout | crates/mews-acp/src/session.rs:739-756 | A job accepted just as the timer fires is served; otherwise the worker refuses from then on |
| PoolWorker.PersistentWorker.ServeNext | crates/mews-acp/src/session.rs:736-832 | One turn of the worker's loop |
| PoolWorker.ServedMeans | crates/mews-acp/src/session.rs:759-831 | One turn answers exactly the first job and lowers the load by one, or obeys the Shutdown with nothing left behind |
| PoolLaws.WorkSound | crates/mews-acp/src/session.rs:736-832 | Each move of a thread keeps its queue orderly and its load exact |
| PoolLaws.WorkPair | crates/mews-acp/src/session.rs:776-830 | Each move of a thread agrees with the state and place of the job it serves |
| PoolSteps.PushKeeps | crates/mews-acp/src/session.rs:467-479 | The push under the acceptance lock keeps every law |
| PoolSteps.NeverDisconnected | crates/mews-acp/src/session.rs:754-757 | The two Disconnected branches cannot be taken |
| PoolSteps.ThreadKeeps | crates/mews-acp/src/session.rs:736-832 | Every move of a worker keeps every law |
| PoolSteps.NotifyKeeps | crates/mews-acp/src/session.rs:785-829 | So does every notification |
| PoolSteps.RemoveKeeps | crates/mews-acp/src/session.rs:835-850 | So does a thread's removal of itself |
| PoolDecides.DecideListed | crates/mews-acp/src/session.rs:576-673 | After a decision the table still lists every worker that accepts, under its fingerprint |
| PoolDecides.DecideWaits | crates/mews-acp/src/session.rs:625-663 | A request that is about to park leaves a worker that will notify, or has been signalled |
| PoolDecides.DecideKeeps | crates/mews-acp/src/session.rs:576-673 | The decision step keeps every law |
| PoolRuns.RunKeeps | crates/mews-acp/src/session.rs:557-870 | Every interleaving keeps every law |
| PoolRuns.WithinLimits | crates/mews-acp/src/session.rs:576-673 | In every reachable state the table is within both limits, with unique generations and sound bindings |
| PoolRuns.RunsInOwnProcess | crates/mews-acp/src/session.rs:362-385 | A job runs only in a process launched with its own fingerprint |
| PoolRuns.JobInOnePlace | crates/mews-acp/src/session.rs:461-485 | At any moment a job is with its caller, or on exactly one worker and there in exactly one spot, or settled |
| PoolRuns.AcceptedWorkIsServed | crates/mews-acp/src/session.rs:461-485 | A worker with a job is still in its loop, nothing stands behind a Shutdown, and outside the acceptance lock `pending` is queued plus served |
| PoolRuns.UnlistedIsStopping | crates/mews-acp/src/session.rs:624-663 | A running worker outside the table takes no new work: it is exiting with an empty queue, or one Shutdown stands behind all its jobs |
| PoolRuns.AcceptingWithinLimit | crates/mews-acp/src/session.rs:576-673 | The workers that accept never exceed the global limit, whatever lives outside the table |
| PoolRuns.ChannelsNeverBreak | crates/mews-acp/src/session.rs:469-478 | The failing push and the disconnected receive are unreachable |
| PoolRuns.TurnEndsOnce | crates/mews-acp/src/session.rs:913-974 | `turn_end` never runs twice; it ran once for every caller that left with an answer or a cancellation; a failed start runs none |
| PoolHooks.StepEnds | crates/mews-acp/src/session.rs:872-985 | The count goes up exactly by the `turn_end` hooks that the step runs, for an executed turn and for one cancelled before it starts |
| PoolHooks.TurnEndHooksOnce | crates/mews-acp/src/session.rs:872-985 | In every run the hooks of a request are none, those of its executed turn, or the closing ones of its cancellation: `turn_end` at most once, last, and exactly once for a caller that left with an answer or a cancellation |
| PoolRuns.NothingUndone | crates/mews-acp/src/session.rs:406-451 | The winner of the race for a queued job is final, and a job never moves back |
| PoolRuns.NoStrandedWaiter | crates/mews-acp/src/session.rs:557-574 | A request parked without a signal has a worker that is busy, about to notify or exiting |
| PoolRuns.DueCanMove | crates/mews-acp/src/session.rs:736-857 | Such a worker can move, unless it waits for the table mutex or for a push that can happen |
| PoolRuns.SignalIsNear | crates/mews-acp/src/session.rs:736-857 | However steps interleave, it makes at most six more moves before it notifies |
| PoolRuns.NotificationWakesAll | crates/mews-acp/src/session.rs:786-788 | After a notification no request is left parked without a signal |
| TurnHooks.HooksOnce | crates/mews-acp/src/session.rs:1050-1145 | Through any number of restarts, `turn_end` runs exactly once, last, with the status of the last pass, and `turn_start` at most once and only if asked for |
| TurnHooks.SucceededMeans | crates/mews-acp/src/session.rs:1329-1333 | The status `succeeded` is reported only for a session that succeeded |
| TurnHooks.RestartMeans | crates/mews-acp/src/session.rs:1558-1560 | With clean error texts a restart is asked for exactly when a resumed Codex session is lost |
| TurnHooks.RestartsExactly | crates/mews-acp/src/session.rs:1091-1095 | A pass restarts exactly when a resumed Codex session is lost or an error from outside carries the marker text |
| TurnHooks.RecursesOnceExactly | crates/mews-acp/src/session.rs:1091-1122 | The recovery recurses at most once if and only if the replacement meets no such error |
| TurnHooks.AtMostOneRestart | crates/mews-acp/src/session.rs:1091-1122 | With clean error texts the recovery recurses at most once, and exactly when that happens |
| TurnHooks.ForeignMarkerRestarts | crates/mews-acp/src/session.rs:1091-1095 | An adapter error that contains the marker text restarts even a replacement |
| TurnHooks.NeverCompletes | crates/mews-acp/src/session.rs:1091-1117 | If it keeps coming, no number of passes completes the turn |
| TurnHooks.TurnRunner.InvokeTurnStart | crates/mews-acp/src/session.rs:1164-1214 | Runs the hook and returns the sink's error, then the hook's |
| TurnHooks.TurnRunner.FinalizeTurnHooks | crates/mews-acp/src/session.rs:1300-1352 | `after_step` only after success, then `turn_end`, and which of their errors is returned |
| TurnHooks.TurnRunner.RunBody | crates/mews-acp/src/session.rs:1066-1090 | One pass up to its result |
| TurnHooks.TurnRunner.Execute | crates/mews-acp/src/session.rs:1050-1145 | Over whatever passes happen it ends exactly when they complete the turn, with the specified hooks and result; while every pass restarts it has ended nothing |
| HubTransfer.ChunksLandInOrder | crates/mews-host/src/lifecycle.rs:698-712 | Whatever order, repetition or gaps the chunks come with, the database holds the bytes of those that fit, each at its own offset |
| HubTransfer.TransferArms | crates/mews-host/src/lifecycle.rs:651-788 | Begin, chunks, commit and arm that succeed establish an armed transfer of exactly what was sent, touching no active file |
| HubTransfer.TransferRoot.BeginHubTransfer | crates/mews-host/src/lifecycle.rs:651-696 | Removes the eleven stale names and writes the five new files |
| HubTransfer.TransferRoot.WriteHubTransfer | crates/mews-host/src/lifecycle.rs:698-712 | Appends exactly at the end or refuses without a change, and returns the new length |
| HubTransfer.TransferRoot.CommitHubTransfer | crates/mews-host/src/lifecycle.rs:714-776 | All checks come before the first rename; a refusal changes nothing |
| HubTransfer.TransferRoot.ArmHubTransfer | crates/mews-host/src/lifecycle.rs:778-788 | Writes the token only for the manifest's nonce |
| ActivationLaws.InstallStep | crates/mews-host/src/lifecycle.rs:830-831 | Moving a prepared file into place installs its slot |
| ActivationLaws.RetainStep | crates/mews-host/src/lifecycle.rs:903-916 | Retaining leaves the active file as the slot's single backup |
| ActivationLaws.StepKeeps | crates/mews-host/src/lifecycle.rs:791-888 | Every durable operation of every run keeps the order of all slots and lowers the rank by exactly one |
| ActivationRuns.RunKeeps | crates/mews-host/src/lifecycle.rs:791-888 | Operations made and operations remaining always add up to the same number |
| ActivationRuns.FinishMeansComplete | crates/mews-host/src/lifecycle.rs:791-888 | A run is at its end exactly when the result is complete, and exactly when the rank is zero |
| ActivationRuns.FailsOnlyUnreadable | crates/mews-host/src/lifecycle.rs:854-871 | It fails only if the active database cannot be opened, and then never finishes |
| ActivationRuns.Progress | crates/mews-host/src/lifecycle.rs:791-888 | Wherever a run is not over, an operation is possible |
| ActivationRuns.Converges | crates/mews-host/src/lifecycle.rs:791-916 | From an armed transfer, wherever crashes fall, a run at rest has succeeded if and only if the active database was absent or could be opened; it then is complete after exactly as many operations as an uninterrupted run |
| ActivationRuns.ReceiptSettles | crates/mews-host/src/lifecycle.rs:876-882 | With the receipt written everything is in place |
| ActivationRuns.CleanUpSettles | crates/mews-host/src/lifecycle.rs:801-812 | Whatever closing removals of however many calls fail, the transfer stays installed and no later call is refused; a leftover stays if and only if its removal failed in every call up to the one that removed the manifest |
| ActivationRuns.WorkIsBounded | crates/mews-host/src/lifecycle.rs:791-916 | The rank bounds the operations of all attempts together |
| ActivationRuns.FinishedStays | crates/mews-host/src/lifecycle.rs:794-800 | A further run changes nothing |
| ActivationRuns.EndsAlike | crates/mews-host/src/lifecycle.rs:903-916 | Two differently interrupted activations end alike up to the names of backups |
| ActivationCode.HubRoot.RetainPreviousFile | crates/mews-host/src/lifecycle.rs:903-916 | The directory loop and the rename, cut off anywhere, are operations of the model |
| ActivationCode.HubRoot.InstallCredential | crates/mews-host/src/lifecycle.rs:830-851 | One turn of the credential loop |
| ActivationCode.HubRoot.InstallDatabase | crates/mews-host/src/lifecycle.rs:854-871 | The database step |
| ActivationCode.HubRoot.CleanUp | crates/mews-host/src/lifecycle.rs:883-887 | The removals, absent files passed over |
| ActivationCode.HubRoot.ActivateHubTransfer | crates/mews-host/src/lifecycle.rs:791-888 | From any directory and with any budget of operations, the procedure performs a run of the model and finishes, fails or is cut off where the model is |
| ActivationCode.AttemptsConverge | crates/mews-host/src/lifecycle.rs:791-916 | Any number of interrupted calls on an armed transfer reach the same outcome within the same total |
| Messages.TrimKeepsPairs | crates/mews-agent/src/context_budget.rs:66-72 | Cutting a paired history in front of a user message never splits a pair |
| Messages.PairedMeans | crates/mews-agent/src/loop.rs:122-202 | In a paired history every call has one later result with no user message between, and every result answers a call |
| ContextBudget.ArrayBytesMeans | crates/mews-agent/src/context_budget.rs:78-86 | The running fold is the length of the JSON array, saturating |
| ContextBudget.BudgetedIsUnique | crates/mews-agent/src/context_budget.rs:33-76 | The declarative result of trimming is unique |
| ContextBudget.BudgetedFits | crates/mews-agent/src/context_budget.rs:44-50 | Fixed part and retained history never exceed the limit, and trimming again drops nothing |
| ContextBudget.BudgetedKeepsPairs | crates/mews-agent/src/context_budget.rs:66-72 | Trimming keeps a paired history paired |
| ContextBudget.EmptyHistoryFailsExactly | crates/mews-agent/src/context_budget.rs:44-75 | An empty history is refused if and only if the fixed part fits and leaves fewer than two bytes |
| ContextBudget.ModelRequest.MessageArrayBytes | crates/mews-agent/src/context_budget.rs:78-86 | The loop computes the fold |
| ContextBudget.ModelRequest.ApplyContextBudget | crates/mews-agent/src/context_budget.rs:33-76 | A history that fits is unchanged; otherwise exactly the longest user-led suffix that fits is kept, and it fails exactly when there is none |
| ProviderStream.MergedSnoc | crates/mews-agent/src/loop.rs:383-389 | Appending a text delta in place is joining neighbouring texts |
| ProviderStream.ConsumeMeans | crates/mews-agent/src/loop.rs:305-459 | What has been assembled at any point is the meaning of the events read so far |
| ProviderStream.RejectedIsEmpty | crates/mews-agent/src/loop.rs:333-346 | A stream rejected before any evidence of execution leaves nothing behind |
| ProviderStreamRuns.RejectedMeans | crates/mews-agent/src/loop.rs:333-335 | The replay is taken if and only if the cursor is rejected after nothing but starts |
| ProviderStreamRuns.AtMostOneReplay | crates/mews-agent/src/loop.rs:273-346 | At most two requests leave, the second only the full replay without a cursor after such a rejection |
| ProviderStreamRuns.SignalFailedMeans | crates/mews-agent/src/loop.rs:358-443 | Reading ends at a failed signal if and only if the stream holds a text whose signal fails, or a first sign of the start whose signal fails, behind nothing but arriving items |
| ProviderStreamRuns.ClosedExactlyOnce | crates/mews-agent/src/loop.rs:500-511 | Every operation is closed at most once; an opened one stays open if and only if its stream holds such an item |
| ProviderStreamRuns.SuccessMeans | crates/mews-agent/src/loop.rs:460-466 | Response and calls are the meaning of the last stream alone; the returned journal closes its operation as succeeded and one that was replayed before it as failed |
| ProviderStreamRuns.DefaultEventsMean | crates/mews-agent/src/model.rs:185-230 | The default stream's events mean the response they came from |
| ProviderStreamRuns.RoundTrip | crates/mews-agent/src/model.rs:185-230 | Streaming a response by default and assembling it gives back metadata, usage, stop reason, parts with adjacent texts merged, and the calls in order |
| ProviderStreamCode.ResponseReader.FinishProviderCall | crates/mews-agent/src/loop.rs:500-511 | Closes a journaled operation |
| ProviderStreamCode.ResponseReader.StartProviderStream | crates/mews-agent/src/loop.rs:469-498 | Opens, dispatches and on refusal or cancellation closes |
| ProviderStreamCode.ResponseReader.Handle | crates/mews-agent/src/loop.rs:358-443 | One event absorbed in place, or a signal that fails |
| ProviderStreamCode.ResponseReader.Read | crates/mews-agent/src/loop.rs:305-459 | The event loop |
| ProviderStreamCode.ResponseReader.ReplayInFull | crates/mews-agent/src/loop.rs:283-345 | The replay |
| ProviderStreamCode.ResponseReader.StreamResponse | crates/mews-agent/src/loop.rs:267-467 | The whole call computes the specified reply and journal |
| ToolBatchRuns.PrepareMeans | crates/mews-agent/src/loop.rs:541-611 | Preparation keeps calls and order; after a terminal error nothing may start |
| ToolBatchRuns.MayStartMeans | crates/mews-agent/src/loop.rs:550-594 | A call that may start was valid and allowed, and no call of the batch was cancelled |
| ToolBatchRuns.ScheduleKeeps | crates/mews-agent/src/loop.rs:632-637 | Under every schedule the trace holds for every call exactly its own events |
| ToolBatchRuns.ScheduleRan | crates/mews-agent/src/loop.rs:613-651 | Every schedule that runs the batch out satisfies what the results below ask of a run |
| ToolBatchRuns.ScheduleRunsOut | crates/mews-agent/src/loop.rs:613-651 | Whatever moves the runtime prefers, the batch runs until no call can move |
| ToolBatchRuns.ScheduleFollows | crates/mews-agent/src/loop.rs:632-637 | Every schedule that runs the batch out is among those |
| ToolBatchRuns.SequentialIgnores | crates/mews-agent/src/loop.rs:614-631 | One after another there is only one schedule |
| ToolBatchRuns.AtMostEightInFlight | crates/mews-agent/src/loop.rs:633-636 | Calls in flight lie within one window of eight |
| ToolBatchRuns.RecordAllMeans | crates/mews-agent/src/loop.rs:168-202 | Records follow the order of the calls and stop only at a record that fails |
| ToolBatchRuns.BatchGrammar | crates/mews-agent/src/loop.rs:156-202 | Per call the whole trace is registered, started, completed, recorded, each at most once, as far as the call got |
| ToolBatchRuns.CompletedIsRecorded | crates/mews-agent/src/loop.rs:168-202 | An observed effect is recorded exactly once although a later call may break the batch |
| ToolBatchRuns.TerminalStartsNothing | crates/mews-agent/src/loop.rs:596-611 | A terminal error in preparation: no call starts, every call is recorded once |
| ToolBatchRuns.GoingOnMeansAnswered | crates/mews-agent/src/loop.rs:192-205 | A step that goes on has given the model one result for each call, in order |
| ToolBatchCode.BatchRunner.PrepareCalls | crates/mews-agent/src/loop.rs:541-611 | Both preparation passes |
| ToolBatchCode.BatchRunner.RunSequential | crates/mews-agent/src/loop.rs:614-631 | One call after another, stopping at the first that breaks |
| ToolBatchCode.BatchRunner.RunParallel | crates/mews-agent/src/loop.rs:632-651 | Any schedule of the window of eight, outcomes in the order of the calls |
| ToolBatchCode.BatchRunner.Collect | crates/mews-agent/src/loop.rs:638-650 | The first error wins, completed calls are all kept |
| ToolBatchCode.BatchRunner.RecordResults | crates/mews-agent/src/loop.rs:168-202 | The loop of after-tool hooks and records |
| AgentTurn.ExchangeIsPaired | crates/mews-agent/src/loop.rs:122-202 | A response and one result for each of its calls close every call they open |
| AgentTurn.StepGood | crates/mews-agent/src/loop.rs:78-243 | A step that goes on hands a paired request to the next one |
| AgentTurn.EveryRequestIsPaired | crates/mews-agent/src/loop.rs:56-249 | Every request a turn sends is paired, if its start is and hooks and injections keep it so |
| AgentTurn.TurnIds | crates/mews-agent/src/loop.rs:251-265 | Over a turn no call id is accepted twice, each has 1 to 256 bytes, and no step accepts more than 64 |
| AgentTurn.TurnBudget | crates/mews-agent/src/loop.rs:84-95 | Every request sent fits its model's budget, and a turn sends at most two per step |
| AgentTurn.GoingOnMeansClosed | crates/mews-agent/src/loop.rs:203-242 | A step goes on only after each of its calls has been answered |
| AgentTurnTrace.BatchLifecycle | crates/mews-agent/src/loop.rs:156-202 | A call's own batch leaves its events in order, each at most once |
| AgentTurnTrace.AbsentFromStep | crates/mews-agent/src/loop.rs:156-202 | A batch leaves no event of a call that is not its own |
| AgentTurnTrace.TurnTrace | crates/mews-agent/src/loop.rs:56-249 | Over the concatenated batches of a turn, under every schedule, each accepted call is registered, started, completed, recorded, each at most once and in this order; what completed is recorded if the journaling callbacks hold; other ids have no event |
| AgentTurnCode.AgentLoop.PrepareRequest | crates/mews-agent/src/loop.rs:79-92 | Steering, hooks and budget in front of the model call |
| AgentTurnCode.AgentLoop.ValidateToolCallIds | crates/mews-agent/src/loop.rs:251-265 | The id checks |
| AgentTurnCode.AgentLoop.AppendBlocks | crates/mews-agent/src/loop.rs:122-155 | Blocks become history, reasoning does not |
| AgentTurnCode.AgentLoop.RunBatch | crates/mews-agent/src/loop.rs:164-205 | The step's tool batch under the runtime's own schedule: its trace, its results and the recorded messages |
| AgentTurnCode.AgentLoop.HandleResponse | crates/mews-agent/src/loop.rs:96-226 | What a received response leads to |
| AgentTurnCode.AgentLoop.FinishStep | crates/mews-agent/src/loop.rs:207-242 | Uncertainty, stop, update and follow-ups |
| AgentTurnCode.AgentLoop.ExecuteStep | crates/mews-agent/src/loop.rs:78-243 | One step |
| AgentTurnCode.AgentLoop.ExecuteTurn | crates/mews-agent/src/loop.rs:56-249 | The loop computes the specified turn |
| StreamDelta.BoundaryMeans | crates/mews-host/src/lifecycle.rs:567 | In well-formed UTF-8 the one-byte test finds exactly the positions between characters |
| StreamDelta.BoundaryIsNear | crates/mews-host/src/lifecycle.rs:567-569 | Any four neighbouring positions include a boundary, so the inner loop makes progress |
| StreamDelta.SplitStreamDelta | crates/mews-host/src/lifecycle.rs:561-574 | The chunks concatenate to the text, are non-empty, at most 32 KiB and well-formed, and only the last may be shorter by more than three bytes |
| StreamDelta.SplitsExist | crates/mews-host/src/lifecycle.rs:561-574 | Every well-formed text can be cut so |
| JsonMerge.MergeJson | crates/mews-acp/src/updates.rs:205-223 | The in-place loop, in any field order, computes the merge |
| JsonMerge.MergedTwice | crates/mews-acp/src/updates.rs:205-223 | Applying the same update again changes nothing |
| JsonMerge.MergedAt | crates/mews-acp/src/updates.rs:206-219 | Along every path on which both are objects: fields never disappear, null and empty never overwrite, other values are taken over or merged |
| JsonMerge.NullsArriveExactly | crates/mews-acp/src/updates.rs:205-223 | For any two documents: the result holds a null if and only if a value that the update brings whole holds one, or a current value that stays as it is does |
| JsonMerge.NullsArriveInto | crates/mews-acp/src/updates.rs:138-140 | Into a document without nulls, or into the Null that a tool's input starts as, only a value taken over whole brings a null, and a Null update leaves Null |
| Updates.ApplyKeeps | crates/mews-acp/src/updates.rs:47-177 | Every update, refused or not, keeps the answer equal to the emitted deltas and the keys numbered |
| Updates.AnswerIsEmitted | crates/mews-acp/src/updates.rs:43-110 | The final answer is the concatenation of the emitted assistant deltas, and the n-th event has the n-th key |
| Updates.ForwardConserves | crates/mews-host/src/lifecycle.rs:403-419 | Cutting deltas into chunks conserves their text |
| Updates.HubReceivesTheAnswer | crates/mews-host/src/lifecycle.rs:403-419 | The deltas of well-formed updates can always be cut, and the text of the events that the sink took is the answer byte by byte, except for a last event that was refused and ended the turn |
| Updates.ArrivedIsPrefix | crates/mews-host/src/lifecycle.rs:398-460 | If the sink fails between two chunks, what arrived is a prefix of the answer |
| Updates.KeyParts | crates/mews-acp/src/updates.rs:36-42 | A key determines the event's number and the index behind it |
| Updates.ForwardedKeysDistinct | crates/mews-host/src/lifecycle.rs:411-413 | No two forwarded events share a key |
| UpdatesCode.UpdateState.EventKey | crates/mews-acp/src/updates.rs:36-42 | A fresh numbered key |
| UpdatesCode.UpdateState.ApplyMessage | crates/mews-acp/src/updates.rs:76-110 | Break and text are appended and emitted in this order |
| UpdatesCode.UpdateState.AdvanceTool | crates/mews-acp/src/updates.rs:129-157 | One tool's state folded with an update |
| UpdatesCode.UpdateState.ApplyTool | crates/mews-acp/src/updates.rs:112-176 | The tool update and its event |
| UpdatesCode.UpdateState.Apply | crates/mews-acp/src/updates.rs:47-74 | Dispatch by kind; keeps the invariant |
| UpdatesCode.ForwardEvents | crates/mews-host/src/lifecycle.rs:398-419 | The forwarding loop: text conserved, chunks bounded, keys distinct |
| Relay.StepKeeps | crates/mews-relay/src/lib.rs:346-497 | Every step keeps the table and queues sound, and a replaced connection never becomes current again |
| Relay.ReceivedIsPrefix | crates/mews-relay/src/lib.rs:417-468 | What a connection received is a prefix of what its own generation accepted, within its installation and authority, with at most `queue_capacity` waiting; while it is current nothing is missing |
| Relay.ReplacedStep | crates/mews-relay/src/lib.rs:434-497 | A replaced connection's send and drop change nothing for anyone |
| Relay.ReplacedIsFrozen | crates/mews-relay/src/lib.rs:434-468 | For the rest of any run it accepts and receives nothing |
| Relay.RegisteringReplaces | crates/mews-relay/src/lib.rs:367-380 | Registering a peer again replaces its connection at once and for good |
| Relay.RelayRouter.New | crates/mews-relay/src/lib.rs:314-328 | A capacity of zero is refused |
| Relay.RelayRouter.RegisterConnection | crates/mews-relay/src/lib.rs:346-381 | Enrollment, then signature, then the route is replaced by a new generation |
| Relay.RelayRouter.SendFrame | crates/mews-relay/src/lib.rs:417-450 | The refusals in the code's order, otherwise the frame is queued |
| Relay.CancelLosesNothing | crates/mews-relay/src/lib.rs:452-468 | Dropping a waiting receive loses no frame: the next call waits where the dropped one did |
| Relay.RelayRouter.PollReceive | crates/mews-relay/src/lib.rs:452-468 | One poll of a receive: a frame, nothing because the route was replaced, or pending; the steps of the model in each case |
| Relay.RelayRouter.DropReceive | crates/mews-relay/src/lib.rs:452-468 | A waiting receive is dropped |
| Relay.RelayRouter.DropConnection | crates/mews-relay/src/lib.rs:483-497 | Unregisters only its own generation's route |

## Left out

- Sockets, processes, threads, WebSocket and HTTP transport, MCP parsing, serde and SQLite themselves: messages are datatypes, tables are maps and sequences under their stated constraints, a serialized size is a positive function of the message.
- Cryptography: digests and signatures are inputs; the hash behind turn keys is taken to be collision free, so the bytes hashed stand for the key.
- Panics and poisoned locks: every modelled thread runs to its own end or to a crash of the whole process.
- Real time: deadlines, retries, idle timeouts and the `sleep_until` of the dispatcher are steps that may happen at any moment.
- Torn writes inside one private write, loss of a rename that was not synced, and crash recovery of the commit of a transfer, which the code does not provide.
- The store may migrate a database file when it opens it; here opening only reads.
- Validation of a turn's input is one fixed predicate of the message, the same when it arrives, when it is launched and at the Hub; a change of configuration between restarts is not modelled, nor the rejection sent to the platform.
- A Hub request that fails ends the Channel process and is therefore a crash; subscriptions, checkpoints and the outbound events of `handle_event` are not modelled.
- A redelivered message with other content under the same key is refused by the Hub and stops the process; the model's Hub compares keys only.
- The evicted worker's process, its start and its shutdown: a start succeeds or fails as an input, and the event stream between a worker and its caller is not modelled.
- PoolRuns.TurnEndsOnce: counts `turn_end` as a number; the hooks behind the number are in `PoolHooks.TurnEndHooksOnce`. Hooks that hang are not modelled.
- PoolModel: dropping a caller while it runs its own cancellation hooks is not modelled.
- Tool progress reports, the text of error messages beyond what the code inspects, and the wording added by error contexts.
- AgentTurn: a tool definition is an opaque string, the compilation of schemas and the check that hooks left the catalog alone are one input; a call id is a string of bytes.
- Updates: blank text, bounded JSON and the sink's answers are inputs; events with keys made elsewhere (hook outcomes, bindings) are not part of the key result.
- Relay.RelayRouter.PollReceive: one poll without interruption between its two checks; the interleavings are in `Relay.Run`.
- ActivationRuns.Converges: a removal either happens or ends the run; closing removals whose errors are ignored are in `ActivationRuns.CleanUpSettles`.
- HubTransfer: a manifest file is kept as the manifest it parses to, and the size in the manifest is a natural number.
- Client pagination, permission choice, allowlists, the auth store, the model catalogue, resource discovery and the store's SQL projections: calls into libraries and single checks without state of their own.
