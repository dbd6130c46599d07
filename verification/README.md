# CrabCode: verified models of its concurrent and algorithmic cores

CrabCode is an agent runtime. This project models eight of its files in Dafny and proves what
they promise, for every input and every interleaving. `dafny verify dfyconfig.toml` checks it.

## What is modelled

- **Managed agents** (`Agent*.dfy`, `StreamText.dfy`). Spawn, send_input, cancel, wait, abandon,
  session switches, restore and close interleave at their await points. Each await-free stretch is
  one segment; an execution is any sequence of enabled segments, with the query loop, the sinks and
  persistence free to do anything they may. `AgentModel` holds the segments of one run,
  `AgentInvariant` and `AgentEvolution` what each keeps, `AgentRuntime` the whole manager,
  `AgentSafety`, `AgentLedger`, `AgentSettlement` and `AgentFences` the results over executions,
  `AgentDone` what sets and clears a done event, `AgentEdges` admission and refusals,
  `AgentOutcome` what a launch reports, `AgentAnswers` what callers are answered, `AgentSteps` what
  every other event does, `AgentWitness` executions that reach the weak spots, `AgentManager` the class.
- **Computer Use channel** (`Channel*.dfy`). Overlapping requests on one session and agent, late
  completions, release timers, capability refreshes, enabling and disposal. `ChannelTheorems` is
  about who may change what; `ChannelOutcome` and `ChannelShown` about what is then shown.
- **Filesystem workers** (`IoWorker*.dfy`). Two threads per call around eight slots, a guard and a
  child process, with cancellation and emergency aborts racing process creation; `IoWorkerDelivery`
  follows the reply to its caller.
- **Debug Adapter Protocol client** (`Dap*.dfy`). Framing on bytes, also of streams its own sender
  would not write (`DapReading`), the bounded event buffer, and matching responses to
  requests (the "Base Protocol" section of the protocol's specification).
- **Accessibility tree projection** (`Ax*.dfy`). Child index, joined text runs, stack traversal;
  `AxReading` says what its reader sees.
- **Usage ledger** (`Usage*.dfy`). The daily report, the rows its models stand for, and the row of a
  streamed request.
- **Turn grouping** (`TurnProcess.dfy`) and **newline-preserving text files** (`TextIo.dfy`).

The source's loops and stateful classes are methods and classes here. The classes of the manager,
the channel, the workers and the debug client have a predicate `Valid()`, the invariant of all
executions of their model: the constructor establishes it and every public method keeps it, does
the step of the model and says what a caller gains from it. The results over executions are lemmas
about the model.

## What turned out weaker than one might expect

Each of these is proved with its exact condition.

- A `wait_agent` that comes while `send_input` hands over its queued event sets the done event just
  cleared, if the run had an earlier task. The replacement task then returns at once: the call
  answers true, the message is in the history, and nothing runs (`AgentFences.LaunchIsLostIff`,
  reached by `AgentWitness.LostLaunch`).
- A wait between the end of a cancelled task and the resumption of `cancel_agent` takes the stopped
  status and the completion away (`AgentFences.CancelIsForestalledIff`,
  `AgentWitness.ForestalledCancel`).
- `close` does not wait for a task that has set its done event and is still handing over its
  completion (`AgentSettlement.CloseJoinsIff`, `AgentWitness.TaskOutlivesClose`).
- `update_session` without abandon can leave a finished run unsettled until a later wait, abandon,
  restore or close settles it (`AgentSettlement.StrandedIff`, `AgentWitness.StrandingExecution`).
- Only `spawn_agent` checks the limit of active agents. The limit is exceeded at some time exactly if
  `send_input` launches a settled run again while the active agents stand at the limit
  (`AgentEdges.CrossesLimitIff`, `AgentEdges.LimitExceededIff`, reached by
  `AgentWitness.LimitExceeded`).
- `send_input` turns new input away while the callback of an ended run is undelivered, but an input
  that had interrupted the task before it ended is let through: a new epoch begins over the
  undelivered callback exactly when such an input goes on and finds the run current
  (`AgentEdges.NewEpochIff`, reached by `AgentWitness.EpochOverUndelivered`).
- Of two restored entries with one agent id both callbacks are handed back, but only the later run is
  persisted again, so a second restore loses the first callback (`AgentRestore.SameCallbacksIff`).
- A supervisor keeps its slot for ever exactly if its kill or the closing of the child's streams raises
  in the clean-up (`IoWorkerSafety.LostSlotIff`, reached by `IoWorkerSafety.LostSlotExecution`), and an
  abort signals a process id that may be somebody else's exactly if the child was reaped in between
  (`IoWorkerSafety.StraySignalsIff`, reached by `IoWorkerSafety.StrayExecution`).
- Two remembered previews of one session and agent both stay (`ChannelTheorems.RestoringUnique`);
  re-arming a release after a completion is dead code on a live channel
  (`ChannelSafety.ReschedulingIsIdle`).
- Two sessions can share one preview: exactly if one session's name ends in what looks like an agent of
  the other (`ChannelShown.PreviewIsSharedIff`, `ChannelShown.PreviewIsShared`).
- The daily report shows the provider of a request exactly if its name has no slash
  (`UsageModels.CutGivesBackIff`).
- `wait_for_event` puts what it skipped behind the rest (`DapEvents.WaitTakesTheMatch`), and loses
  exactly as many events as what it skipped and what has arrived meanwhile exceed the buffer
  (`DapEvents.WaitLoses`, reached by `DapEvents.LosingExecution`).
- Capturing partial output twice repeats text exactly when the committed text is no prefix of the
  stream (`StreamText.CaptureIdempotent`).

## Model

| member | source | states |
|---|---|---|
| AgentExecution.NextKeeps | packages/core/crabcode_core/agent_manager.py:401-1029 | every segment of spawn, send_input, cancel, wait, session switches, abandon, restore, close, callback reports and of the tasks keeps the invariant of all runs (one live task, who is settled, who owns a task, what the control-lock holder relies on, history) under any interleaving |
| AgentSafety.NeverCurrentAgain | packages/core/crabcode_core/agent_manager.py:376-392 | a run that stops being current (detached, unmapped, older generation, other session, manager closed) never becomes current again over any later stretch of any execution, also when the session id is reused; a foreign run stays foreign |
| AgentSafety.NonCurrentIsSilent | packages/core/crabcode_core/agent_manager.py:1206-1363 | after a run stopped being current no event or completion of it is handed to a sink; after it became foreign no transcript of it is written |
| AgentSafety.CurrentIff | packages/core/crabcode_core/agent_manager.py:376-392 | a run is current exactly if the manager is open with a session and the run is the one under its id, undetached, and of this session and generation |
| AgentSafety.OnlyCurrentSpeaks | packages/core/crabcode_core/agent_manager.py:1206-1363 | whatever is handed to a sink about a run, the run met all of these at every moment before |
| AgentSafety.OneTaskAtATime | packages/core/crabcode_core/agent_manager.py:505-516 | for any interleaving a run never has two unfinished tasks, and an unfinished one is the newest |
| AgentSafety.ReplacementIsOwned | packages/core/crabcode_core/agent_manager.py:784-869 | a replacement task is created only for a run that is current at that moment and whose earlier tasks have all finished |
| AgentSafety.SlotsAreBounded | packages/core/crabcode_core/agent_manager.py:1401-1412 | tasks between semaphore entry and exit plus free slots always equal the configured capacity |
| AgentSafety.RunEvolves | packages/core/crabcode_core/agent_manager.py:734-869 | over any stretch of an execution a run keeps its identity, its history only grows, its epoch never decreases, within an epoch the callback only advances pending, injected, delivered, finished tasks stay finished |
| AgentSafety.MessagesAreKept | packages/core/crabcode_core/agent_manager.py:1542-1559 | a message once in the history is never lost, in particular not to the write-back of an older task |
| AgentSafety.StreamedTextIsChunks | packages/core/crabcode_core/agent_manager.py:1597-1645 | in every run launched here the running text is always the concatenation of the chunk list |
| AgentDone.DoneStep | packages/core/crabcode_core/agent_manager.py:401-1029 | for every event and every run: which events set the done event, and that only a new launch of a current run without a live task clears it |
| AgentSettlement.Settlement | packages/core/crabcode_core/agent_manager.py:687-732 | in every execution: with no operation in flight on a run, a finished task means the done event is set, unless the run was carried over into a newer generation still in the map and undetached; having left the map, or being detached while the manager is open, means it too |
| AgentSettlement.StrandedIff | packages/core/crabcode_core/agent_manager.py:903-945 | a finished run without operations is unsettled exactly if a new generation began while it was unsettled and none of the settling events has come since |
| AgentSettlement.StrandedIsSettledBy | packages/core/crabcode_core/agent_manager.py:561-945 | such a run is settled by an abandon, a restore, a wait that still sees it or the end of its spawn, and by nothing else while the manager is open |
| AgentSettlement.DisciplinedSettlement | packages/core/crabcode_core/agent_manager.py:903-945 | when session switches find every run in the map settled, as they do after abandon or restore, a finished run without operations is settled |
| AgentWitness.StrandingExecution | packages/core/crabcode_core/agent_manager.py:903-923 | an execution from the start in which a switch without abandon leaves a finished run unsettled |
| AgentSettlement.WaiterIsNotLeft | packages/core/crabcode_core/agent_manager.py:561-583 | a wait whose run has finished finds the done event set until the next launch, and no waiter is left on a finished current run without operations |
| AgentSettlement.WaitAnswersItsRun | packages/core/crabcode_core/agent_manager.py:586-602 | what a wait answers is the state of the very run it was called for; unless nobody has the id any more, that run was mapped, undetached and of the current generation at every moment in between |
| AgentSettlement.CancelTrueIsSettled | packages/core/crabcode_core/agent_manager.py:700-732 | whenever a cancel answers true, the task has finished and the run is settled |
| AgentSettlement.ClosedIsSettled | packages/core/crabcode_core/agent_manager.py:959-1029 | when close has ended every run is settled and every tracked task, so every detached one, has finished; any other unfinished task is in one of three places |
| AgentSettlement.CloseJoinsIff | packages/core/crabcode_core/agent_manager.py:988-1029 | between mark and end of close in any execution: a task live at the mark is joined, and so finished at the end, exactly if it is tracked or its run is in the map and unsettled |
| AgentWitness.TaskOutlivesClose | packages/core/crabcode_core/agent_manager.py:988-1029 | an execution in which a task is still handing over its completion when close has ended |
| AgentFences.LaunchFindsDone | packages/core/crabcode_core/agent_manager.py:815-841 | over any stretch in which send_input hands over the queued event of a launch: the done event is set at its end exactly if the run had an earlier task and a wait for the run came in between |
| AgentFences.LaunchIsLostIff | packages/core/crabcode_core/agent_manager.py:815-869 | of a launch answered with true: when its uncancelled task takes its turn in a run still current, it ends at once exactly if such a wait came, and goes on to the semaphore otherwise |
| AgentFences.LostLaunchIsSilent | packages/core/crabcode_core/agent_manager.py:1373-1381 | the task of a lost launch never gets anywhere, at any later time, and none of its segments hands anything over |
| AgentWitness.LostLaunch | packages/core/crabcode_core/agent_manager.py:815-869 | an execution in which send_input answers true, keeps the message and runs nothing |
| AgentFences.CancelIsForestalledIff | packages/core/crabcode_core/agent_manager.py:716-732 | a cancel that awaited the task of a current run answers true without the stopped status, result and completion exactly if the done event was set before, by the task itself or by a wait after it finished; else it reports the run stopped |
| AgentWitness.ForestalledCancel | packages/core/crabcode_core/agent_manager.py:716-732 | an execution in which cancel answers true and the run stays queued |
| AgentOutcome.UnderwayShows | packages/core/crabcode_core/agent_manager.py:1542-1621 | in every execution, while the last launch of a current run is under way, its text is what the query loop has streamed since the launch less what retries took back, its error the last one reported, and its status queued until the task enters its body and running from then on |
| AgentOutcome.EndReports | packages/core/crabcode_core/agent_manager.py:1542-1553 | when the query loop of a current run ends, the run is failed exactly if the last error reported since the launch says something and completed otherwise; result, history, transcript and state event follow from the events of the execution |
| AgentOutcome.FailureReports | packages/core/crabcode_core/agent_manager.py:1563-1577 | when it raises, the run has failed with that error, its result is what was streamed, and the history is completed by what it had not kept |
| AgentOutcome.StopReports | packages/core/crabcode_core/agent_manager.py:1381-1562 | when a cancellation surfaces in the body or before it, the run is stopped with what was streamed by then |
| AgentAnswers.CallIsTakenUp | packages/core/crabcode_core/agent_manager.py:700-755 | a cancel or an input waits for its run exactly if the manager is open, the agent belongs to the session and an input is not blank; otherwise it is answered false and nothing happens |
| AgentAnswers.LockIsTaken | packages/core/crabcode_core/agent_manager.py:704-849 | whoever gets the lock: a run that is not current is refused; an input is refused over an undelivered callback, answered true if its id was answered or is being worked on, refused by an unfinished task unless it interrupts it, and else launches the run with its message, a new epoch and a queued event; a cancel asks the unfinished task to stop or answers false |
| AgentAnswers.HolderGoesOn | packages/core/crabcode_core/agent_manager.py:716-869 | whoever holds the lock goes on: what it is answered and what it leaves, for each place it can wait at and whether handing over raised |
| AgentAnswers.WaitAnswers | packages/core/crabcode_core/agent_manager.py:586-602 | a wait answers with the snapshot of the run it was called for exactly if the id is gone or still that run's, the run undetached and of the generation, and the session fits |
| AgentAnswers.SpawnIsRefusedFor | packages/core/crabcode_core/agent_manager.py:416-438 | a spawn is refused for the first of five reasons that applies |
| AgentSteps.TaskSteps | packages/core/crabcode_core/agent_manager.py:1365-1708 | every step of a task: where it goes, what it hands over, when it settles its run with a completion, and that it takes a slot exactly on entering the body and gives it back exactly on leaving |
| AgentSteps.SpawnSteps | packages/core/crabcode_core/agent_manager.py:401-516 | a spawn is admitted exactly if the manager is open in a session, depth and active agents are below their limits and the profile is known; the new run is as requested, and nothing happens otherwise |
| AgentSteps.SpawnGoesOn | packages/core/crabcode_core/agent_manager.py:518-559 | after the queued event the task may start if the run is still the spawn's own, and else the run is settled, detached, out of the map and its task asked to stop |
| AgentSteps.WaitSteps | packages/core/crabcode_core/agent_manager.py:561-583 | a wait settles a visible run whose task has finished and does nothing else |
| AgentSteps.AbandonSteps | packages/core/crabcode_core/agent_manager.py:925-942 | an abandon stops every unsettled run in the map for its reason, unless it had ended by itself, and touches no other |
| AgentSteps.SwitchSteps | packages/core/crabcode_core/agent_manager.py:903-923 | a new generation begins exactly if the switch is forced or changes session, environment or directory; runs are not touched |
| AgentSteps.RestoreSteps | packages/core/crabcode_core/agent_manager.py:1034-1144 | a restore puts every run out of the map, settled and without its callback if it was unfinished, and maps exactly the restored ones |
| AgentSteps.CloseSteps | packages/core/crabcode_core/agent_manager.py:959-1029 | the mark and the end of close, run by run: who is detached, joined, settled and stopped |
| AgentSteps.CallbackSteps | packages/core/crabcode_core/agent_manager.py:1146-1186 | a report is taken exactly if it is about the mapped run, its session, its epoch and the step before |
| AgentLedger.ExactlyOnce | packages/core/crabcode_core/agent_manager.py:756-869 | for one run no message id is accepted twice, no epoch injected twice and none delivered twice, however calls repeat or overlap |
| AgentLedger.KnownIdIsNotAccepted | packages/core/crabcode_core/agent_manager.py:756-869 | an input under an id the history of the run holds, whoever brought it there, is never accepted at any later time |
| AgentLedger.AcceptedInputIsKept | packages/core/crabcode_core/agent_manager.py:808-815 | an accepted input is in the history for ever after, at one place only |
| AgentLedger.EpochCountsInputs | packages/core/crabcode_core/agent_manager.py:823-827 | the epoch moves only with an accepted input, by exactly one |
| AgentLedger.OneCompletionPerLaunch | packages/core/crabcode_core/agent_manager.py:1344-1363 | a run hands over at most one completion per launch |
| AgentEdges.SpawnRespectsLimit | packages/core/crabcode_core/agent_manager.py:421-438 | a spawn is admitted only below the limit of active agents, counts one more, and the limit still holds |
| AgentEdges.CrossesLimitIff | packages/core/crabcode_core/agent_manager.py:421-869 | in every execution from the start: the step out of a state within the limit of active agents leads beyond it exactly if it launches a settled run again while the active agents stand at the limit |
| AgentEdges.LimitExceededIff | packages/core/crabcode_core/agent_manager.py:421-869 | the limit has been exceeded by some moment of an execution if and only if such a launch came before |
| AgentWitness.LimitExceeded | packages/core/crabcode_core/agent_manager.py:784-869 | an execution from the start that ends with two active agents and a limit of one |
| AgentEdges.RestartIgnoresLimit | packages/core/crabcode_core/agent_manager.py:815-869 | a launch of a settled run adds one active agent, whatever the limit |
| AgentEdges.NewEpochIff | packages/core/crabcode_core/agent_manager.py:767-827 | in every execution a run that has ended with its callback pending or injected starts a new epoch, one higher, if and only if an input that had interrupted its task goes on and finds it current; every other step of every operation leaves the epoch |
| AgentWitness.EpochOverUndelivered | packages/core/crabcode_core/agent_manager.py:784-827 | an execution from the start whose last step begins epoch 1 while the callback of epoch 0 is pending |
| AgentEdges.LateReportIsIgnored | packages/core/crabcode_core/agent_manager.py:1146-1186 | once a run has left an epoch, a report about that epoch changes nothing at any later time |
| AgentRestore.RestoredRunSettled | packages/core/crabcode_core/agent_manager.py:1034-1144 | every restored run is settled, taskless, of this session and generation, and terminal if its persisted status was a known one |
| AgentRestore.CallbacksExactly | packages/core/crabcode_core/agent_manager.py:1034-1144 | the callbacks returned are exactly those of the parsing, session-matching entries still due, in order |
| AgentRestore.DueEntry | packages/core/crabcode_core/agent_manager.py:90-115 | an entry is due if and only if it parses, fits the session, has its callback enabled and pending or injected, and a known status; its epoch is the persisted one |
| AgentRestore.RestoreStable | packages/core/crabcode_core/agent_manager.py:1034-1144 | restoring the projection a restore persisted gives the same run for every agent and leaves nothing to rewrite |
| AgentRestore.DueAgain | packages/core/crabcode_core/agent_manager.py:1034-1144 | the callbacks due after restoring any projection are exactly those of the runs the map held, also when entries had shared an id |
| AgentRestore.ProjectionIsStable | packages/core/crabcode_core/agent_manager.py:342-351 | restoring the projection as it is written gives the listed runs, newest first, and writing that gives the same projection |
| AgentRestore.SameCallbacksIff | packages/core/crabcode_core/agent_manager.py:1034-1144 | the second restore has the same callbacks due exactly if no due entry of the first was followed by another entry with its id; the difference is what those lose |
| AgentRestore.CallbackOrderIsKept | packages/core/crabcode_core/agent_manager.py:1034-1144 | entries in the order a projection is written in, with distinct ids, give the same runs and the same callbacks in the same order |
| AgentRestored.RestoredExactly | packages/core/crabcode_core/agent_manager.py:1058-1144 | every entry that parses and fits the session becomes a run at its place, as it was persisted but bound to the session, and stopped with a reason if it was still queued or running |
| AgentRestored.CallbackSays | packages/core/crabcode_core/agent_manager.py:138-165 | a callback handed back says of its agent what the restored snapshot says |
| AgentRestored.RewriteIff | packages/core/crabcode_core/agent_manager.py:1058-1100 | the projection is rewritten exactly if some entry does not fit or was queued or running |
| StreamText.AnsweredIff | packages/core/crabcode_core/types/message.py:201-228 | a message counts as answered exactly if some reply to it, or descendant of it or of such a reply behind it, is an assistant's last word |
| StreamText.DropChunksKeepsText | packages/core/crabcode_core/agent_manager.py:1611-1621 | taking n characters back from the chunk list takes the same n back from the text the chunks spell |
| StreamText.RetryStream | packages/core/crabcode_core/agent_manager.py:1611-1621 | the retry loop removes exactly min(n, length) trailing characters from text and chunks and keeps them equal |
| StreamText.CaptureCompletes | packages/core/crabcode_core/agent_manager.py:1226-1264 | if the committed text is a prefix of the stream, capture makes them equal up to a rest of white space and never repeats text |
| StreamText.CaptureIdempotent | packages/core/crabcode_core/agent_manager.py:1226-1264 | a second capture changes nothing if and only if nothing was streamed or the committed text is a prefix of the stream |
| StreamText.CaptureAppends | packages/core/crabcode_core/agent_manager.py:1226-1264 | capture adds at most one assistant message, a child of the last one: what was streamed behind the committed text, unless that is blank |
| AgentManager.Manager.constructor | packages/core/crabcode_core/agent_manager.py:210-270 | the manager starts in the initial state, which has the invariant of all executions |
| AgentManager.Manager.CountActive | packages/core/crabcode_core/agent_manager.py:429-433 | the loop counts exactly the agents in the map that are not settled |
| AgentManager.Manager.SpawnAgent | packages/core/crabcode_core/agent_manager.py:401-516 | the five refusals in order, which change nothing, or one more active agent, still within the limit; the invariant is kept |
| AgentManager.Manager.SpawnContinues | packages/core/crabcode_core/agent_manager.py:518-559 | after the queued event the task may start, and unless the run is still the spawn's own it is left settled, detached and out of the map |
| AgentManager.Manager.ContinueControl | packages/core/crabcode_core/agent_manager.py:725-869 | every continuation of cancel and send_input after an await; a cancel answered with true leaves the run settled and its task finished, a launch answered with true leaves a new task that may start |
| AgentManager.Manager.WaitAgent | packages/core/crabcode_core/agent_manager.py:561-583 | a wait reads the done event as clear only while the run's task is live or before it has one |
| AgentManager.Manager.StepTask | packages/core/crabcode_core/agent_manager.py:1365-1708 | one segment of a task: what it does to its run, hands over and reports at its end, as in AgentSteps and AgentOutcome; the tasks inside the semaphore and the free slots add up to its capacity |
| AgentManager.Manager.AbandonActiveAgents | packages/core/crabcode_core/agent_manager.py:925-945 | afterwards every run in the map is settled and none that was unsettled is current |
| AgentManager.Manager.UpdateContext | packages/core/crabcode_core/agent_manager.py:903-923 | after a switch to another context no earlier run is current, and otherwise the same ones are |
| AgentManager.Manager.RestoreSnapshots | packages/core/crabcode_core/agent_manager.py:1034-1144 | every earlier run is settled and out of the map, the new ones are settled and taskless; the callbacks are those of the due entries in order |
| AgentManager.Manager.Close | packages/core/crabcode_core/agent_manager.py:959-978 | closing starts once; from then on no run is current |
| AgentManager.Manager.CloseMarkRuns | packages/core/crabcode_core/agent_manager.py:988-1014 | the loop over all runs joins exactly the tasks that are tracked or of unsettled runs in the map |
| AgentManager.Manager.CloseFinishRuns | packages/core/crabcode_core/agent_manager.py:1014-1029 | afterwards every run is settled and no tracked task is left |
| AgentManager.Manager.MarkCallbackInjected | packages/core/crabcode_core/agent_manager.py:1146-1166 | pending to injected for the matching session and epoch only; a false answer means nothing changed |
| AgentManager.Manager.MarkCallbackDelivered | packages/core/crabcode_core/agent_manager.py:1168-1186 | injected to delivered for the matching session and epoch only; a false answer means nothing changed |
| ChannelTheorems.LateCompletionsNeverWin | packages/computer-use/client/channel.js:547-602 | with unique request ids, in any run: a request that a newer one on its key superseded changes no preview when it completes (a channel that is off shows none) |
| ChannelTheorems.LateCompletion | packages/computer-use/client/channel.js:556-602 | without that assumption: such a completion changes something only if the newest request on the key is in flight under the very same id |
| ChannelTheorems.RequestsRunAtMostOnce | packages/computer-use/client/channel.js:494-546 | from its arrival on, a request invokes the native side at most once, within what it allows; it is answered at most once; a caught error is safe to retry if and only if the native side was never invoked |
| ChannelTheorems.ShownIsConsistent | packages/computer-use/client/channel.js:300-396 | in every reachable state: active if and only if there are previews, at most 100 log lines, timers and deadlines have the same keys while not disposed, both only for shown previews, the armed timers are exactly the channel's |
| ChannelTheorems.PreviewKeysAreUnique | packages/computer-use/client/channel.js:460-493 | preview keys stay unique as long as no registration brings two entries for one key |
| ChannelTheorems.RestoringUnique | packages/computer-use/client/channel.js:335-396 | a registration keeps the keys unique if and only if the entries it restores have unique keys |
| ChannelTheorems.BusyMeansInFlight | packages/computer-use/client/channel.js:461-493 | while the channel lives and no busy preview was restored, a preview is busy only while the newest request on its key is in flight |
| ChannelTheorems.DisabledShowsNothing | packages/computer-use/client/channel.js:161-201 | a channel switched off shows nothing and has no release timer |
| ChannelTheorems.SupersededRefreshIsIgnored | packages/computer-use/client/channel.js:103-134 | a refresh that a later one overtook, or that ends on a disposed or disabled channel, changes nothing, however late it returns |
| ChannelTheorems.ArrivalStopsRelease | packages/computer-use/client/channel.js:457-460 | a request takes back the release pending on its key |
| ChannelTheorems.FiringAfterDispose | packages/computer-use/client/channel.js:319-323 | timers and deadlines part company exactly when a timer runs out on a disposed channel |
| ChannelOutcome.ReturnIsShown | packages/computer-use/client/channel.js:547-602 | in every run: when the newest request of a key still shown returns on a channel that is on, its preview is failed exactly if the native side threw or its result says so, ready otherwise, with the new picture or else the earlier one; other previews stay in place |
| ChannelOutcome.ReturnIsLogged | packages/computer-use/client/channel.js:547-600 | every return is the newest log entry and the only one of its id, with the same verdict; at most 100 entries are kept |
| ChannelOutcome.ReturnSettles | packages/computer-use/client/channel.js:582-605 | the status after a return is busy while any preview is, else the failure of the newest request, else the availability of the host; the error goes with it |
| ChannelOutcome.ReturnIsAnswered | packages/computer-use/client/channel.js:539-612 | the request is answered with what the native side returned, or with the error it threw, not called safe to retry |
| ChannelOutcome.ArrivalIsRecorded | packages/computer-use/client/channel.js:444-546 | a request reaches the native side exactly if none of ten reasons to refuse it applies, with the scope, mode and policy it names or the defaults; else it is answered at once with a reason that does apply, safe to retry |
| ChannelOutcome.ArrivalIsShown | packages/computer-use/client/channel.js:456-605 | a request replaces the preview of its session and agent at once, busy if it was admitted and failed if refused, keeping the picture shown before |
| ChannelOutcome.ArrivalIsLogged | packages/computer-use/client/channel.js:478-600 | and is logged, as going on or with the reason it was refused for |
| ChannelShown.PreviewIsSharedIff | packages/computer-use/client/channel.js:297-299 | two sessions and agents share a preview exactly if their names are the same, or one session name ends in what looks like an agent |
| ChannelShown.PreviewIsShared | packages/computer-use/client/channel.js:297-299 | two different sessions that share a preview |
| ChannelShown.ReleaseIsPending | packages/computer-use/client/channel.js:421-441 | after a release message exactly the previews of that session, or of that agent, have a release pending for its deadline |
| ChannelShown.ReleaseFallsDue | packages/computer-use/client/channel.js:313-334 | a release that falls due on a live channel takes exactly its key's preview away, and what is left decides the status |
| ChannelShown.PreviewsComeBack | packages/computer-use/client/channel.js:335-396 | after a registration the remembered entries that name a session and are not overdue stand behind the previews they do not replace, each as it was, in their order |
| ChannelShown.DeadlinesComeBack | packages/computer-use/client/channel.js:335-396 | the last entry of a key that brings a deadline sets it; other releases stay |
| ChannelShown.RegistrationSpeaks | packages/computer-use/client/channel.js:406-420 | status and error after a registration, and mode and policy of the newest preview if something came back |
| ChannelShown.RefreshIsTaken | packages/computer-use/client/channel.js:103-160 | the newest refresh is taken over unless it is a background one without news; another component takes everything shown and pending with it |
| ChannelShown.SameRefreshIsIgnored | packages/computer-use/client/channel.js:133-137 | a background refresh that finds what was known changes nothing |
| ChannelShown.ReturnWhenOff | packages/computer-use/client/channel.js:546-605 | a request that returns to a channel switched off shows nothing but what is known of the host |
| ChannelShown.SwitchSpeaks | packages/computer-use/client/channel.js:161-201 | what switching on, off and again says and starts |
| ChannelSafety.ReschedulingIsIdle | packages/computer-use/client/channel.js:603-606 | re-arming a release at the end of a completion does something only on a disposed channel |
| ChannelSafety.NextKeeps | packages/computer-use/client/channel.js:103-613 | every event keeps the channel invariant |
| Channel.ComputerUseChannel.Arrive | packages/computer-use/client/channel.js:442-546 | a request is run or refused within the invariant, and no release of its preview is pending any more |
| Channel.ComputerUseChannel.Return | packages/computer-use/client/channel.js:547-612 | a completion that is not of the latest request on its key leaves every preview alone |
| Channel.ComputerUseChannel.CancelAllReleases | packages/computer-use/client/channel.js:307-312 | the loop clears exactly the channel's timers |
| Channel.ComputerUseChannel.TimerFires | packages/computer-use/client/channel.js:319-332 | on a live channel exactly the released preview is gone; the invariant holds after dispose too |
| Channel.ComputerUseChannel.ReleaseMessage | packages/computer-use/client/channel.js:428-440 | the loop arms a timer for every shown preview it concerns and keeps timers, deadlines and previews together |
| Channel.ComputerUseChannel.Registered | packages/computer-use/client/channel.js:335-396 | the restore loops keep the preview keys unique exactly if the entries the gateway remembers have unique keys |
| Channel.ComputerUseChannel.RefreshEnd | packages/computer-use/client/channel.js:133-160 | only the newest refresh of a live, enabled channel is applied; any other changes nothing |
| Channel.ComputerUseChannel.Enable | packages/computer-use/client/channel.js:161-201 | a channel switched off has no previews and no release timers, its own or the platform's |
| Channel.ComputerUseChannel.DisposeChannel | packages/computer-use/client/channel.js:217-234 | no platform timer outlives the channel |
| IoWorkerSafety.NextKeeps | packages/core/crabcode_core/io_worker.py:60-149 | every step of callers, supervisors, children and emergency aborts keeps the invariant |
| IoWorkerSafety.ChildrenAreBounded | packages/core/crabcode_core/io_worker.py:25-27 | free slots plus calls holding one are always eight, and unreaped children never exceed the slots taken |
| IoWorkerSafety.SlotGoesBackOnce | packages/core/crabcode_core/io_worker.py:117-135 | a slot is given back at most once, only with the child reaped for good, and is out exactly while the call has not ended or its clean-up raised |
| IoWorkerSafety.SlotsAtRest | packages/core/crabcode_core/io_worker.py:117-135 | when all calls have ended, all slots are free except one per supervisor whose clean-up raised |
| IoWorkerSafety.EarlyChildNeverWorks | packages/core/crabcode_core/io_worker.py:101-107 | if the caller left before the child was published, the child never receives the request and is killed first, unless the kill raised |
| IoWorkerSafety.AbortedChildIsKilled | packages/core/crabcode_core/io_worker.py:72-78 | for every call whose abort went through, its caller's own or an emergency's: the published child is killed, unless it was reaped or the supervisor's own kill is about to run or raised; a caller that left with its result cancelled had such an abort or a raising one |
| IoWorkerSafety.EmergencyCoversChildren | packages/core/crabcode_core/io_worker.py:52-57 | an emergency abort takes down a callback for every unreaped child and for no finished call |
| IoWorkerSafety.ResultMeansReleased | packages/core/crabcode_core/io_worker.py:80-86 | a caller gets a result only after slot and registration are gone and no child is left |
| IoWorkerDelivery.RepliesArrive | packages/core/crabcode_core/io_worker.py:80-86 | once the supervisor has handed its reply over to an open loop, at every later moment a caller that still waits has its result or finds the delivery queued |
| IoWorkerDelivery.DeliveryAnswers | packages/core/crabcode_core/io_worker.py:80-86 | after the delivery to a caller that still waited the result is set for good, and its next step ends the call without an abort |
| IoWorkerPaths.PartyGoes | packages/core/crabcode_core/io_worker.py:60-166 | every step of a caller, its own abort and a supervisor: where its program goes on, and what it does to the child, the future, the registry and the slots |
| IoWorkerPaths.CallBegins | packages/core/crabcode_core/io_worker.py:63-65 | a call takes a free slot or is turned away without a trace |
| IoWorkerPaths.EmergencyGoes | packages/core/crabcode_core/io_worker.py:52-57 | an emergency abort takes the registered callbacks down one after the other, each from its start, and ends with one that raises |
| IoWorkerSafety.StraySignalsIff | packages/core/crabcode_core/io_worker.py:40-78 | an abort that saw no return code sends its signal to a process id that may be somebody else's exactly if the supervisor reaped the child in between; nothing else counts as stray, in particular no kill of the supervisor |
| IoWorkerSafety.StrayExecution | packages/core/crabcode_core/io_worker.py:72-78 | a run from the start in which that happens |
| IoWorkerSafety.EmergencyServesAll | packages/core/crabcode_core/io_worker.py:52-57 | every call registered when an emergency abort began is waiting for it, being aborted by it or has been aborted, until a kill of it raises; when it ends without that, all have been aborted |
| IoWorkerSafety.LostSlotIff | packages/core/crabcode_core/io_worker.py:117-130 | a supervisor is lost exactly if its kill or the closing of the child's streams has raised in the clean-up; a call that has come to its end misses its slot exactly then |
| IoWorkerSafety.LostSlotExecution | packages/core/crabcode_core/io_worker.py:117-130 | an execution from the start that ends with seven slots free, the one call over and its child alive |
| IoWorkerSafety.RaisingKillKeepsSlot | packages/core/crabcode_core/io_worker.py:120-127 | once a kill raised in the clean-up, at any later time the slot is taken, the child unreaped, the abort registered and the caller unanswered |
| IoWorkerSafety.RaisingKillEndsEmergency | packages/core/crabcode_core/io_worker.py:56-57 | once a kill raised in an emergency abort, that abort never does anything again: the callbacks still to run are dropped |
| IoWorker.Workers.Acquire | packages/core/crabcode_core/io_worker.py:63-65 | a caller without a slot is turned away; unreaped children never exceed the slots taken, and those never exceed eight |
| IoWorker.Workers.PublishChild | packages/core/crabcode_core/io_worker.py:101-106 | whether the caller left before decides for good if the child is killed or gets the request |
| IoWorker.Workers.FeedChild | packages/core/crabcode_core/io_worker.py:107-108 | a child that gets the request was published before its caller left |
| IoWorker.Workers.KillChild | packages/core/crabcode_core/io_worker.py:119-127 | the supervisor's kill never meets a reaped child; one that raises leaves the child and keeps the slot |
| IoWorker.Workers.AbortIoWorkers | packages/core/crabcode_core/io_worker.py:52-57 | the callbacks an emergency abort takes down include every call with an unreaped child |
| IoWorker.Workers.DeliverResult | packages/core/crabcode_core/io_worker.py:80-86 | a caller that still waits gets its result; by then its slot is back and no child left |
| IoWorker.Workers.ReleaseSlot | packages/core/crabcode_core/io_worker.py:128-130 | the slot goes back once, with no child left and the abort callback gone |
| DapFraming.ParsePrinted | packages/debugger/crabcode_debugger/dap.py:217-242 | reading a printed length gives the length back |
| DapFraming.RoundTrip | packages/debugger/crabcode_debugger/dap.py:213-251 | reading the concatenated packets gives exactly the bodies in order and uses up the stream, whatever bytes they hold |
| DapFraming.SentThenTail | packages/debugger/crabcode_debugger/dap.py:213-251 | whatever follows on the stream, the packets before it are read first, whole and in order |
| DapFraming.CutStream | packages/debugger/crabcode_debugger/dap.py:228-250 | a stream cut anywhere gives exactly the messages it holds whole |
| DapFraming.RejectedBody | packages/debugger/crabcode_debugger/dap.py:242-250 | a body that is no JSON ends the reading exactly there |
| DapReading.HeadersRead | packages/debugger/crabcode_debugger/dap.py:228-238 | of any header block the reader keeps, under its name in lower case, the value of the last line with that name in any capitals, white space aside, and no other name |
| DapReading.NoLength | packages/debugger/crabcode_debugger/dap.py:239-241 | a header block without a length is passed over |
| DapReading.LengthIsTaken | packages/debugger/crabcode_debugger/dap.py:239-242 | the last length of a block decides: an empty one is passed over, a text that is no integer or a negative one ends the reading, so does a stream too short for it, and otherwise exactly that many bytes are the body |
| DapReading.IntegerIff | packages/debugger/crabcode_debugger/dap.py:242 | what counts as an integer: behind at most one sign, digits at both ends and digits or single underscores between; a minus changes the sign, an underscore nothing |
| DapFraming.SendAll | packages/debugger/crabcode_debugger/dap.py:213-220 | the sender writes one packet after the other |
| DapFraming.ReadHeaderLines | packages/debugger/crabcode_debugger/dap.py:228-238 | the header loop |
| DapFraming.ReaderLoop | packages/debugger/crabcode_debugger/dap.py:222-251 | the reader loop up to the failure that ends it |
| DapEvents.EventsAreConserved | packages/debugger/crabcode_debugger/dap.py:170-211 | in every run, with events arriving during waits: the buffer stays within its capacity, what arrived is buffered, held by a wait, delivered or lost, and the counters say how many were lost |
| DapEvents.OfferPrefersEvents | packages/debugger/crabcode_debugger/dap.py:267-296 | an event other than output always gets in as the newest; one of its kind is given up only if no output is buffered and then it is the oldest; the others keep their order |
| DapEvents.OutputPushesNothingOut | packages/debugger/crabcode_debugger/dap.py:274-276 | output never displaces anything and is dropped exactly when the buffer is full |
| DapEvents.OfferAccounts | packages/debugger/crabcode_debugger/dap.py:267-296 | one offer: capacity kept, every event kept or counted as dropped |
| DapEvents.WaitTakesTheMatch | packages/debugger/crabcode_debugger/dap.py:190-211 | without arrivals a wait removes exactly the first match, drops nothing, and leaves what it skipped behind what it never looked at |
| DapEvents.GivingBackLoses | packages/debugger/crabcode_debugger/dap.py:209-211 | giving events back loses exactly as many as do not fit |
| DapEvents.WaitLoses | packages/debugger/crabcode_debugger/dap.py:190-211 | in every run the end of a wait loses exactly as many events as what it skipped and what is buffered by then exceed the capacity |
| DapEvents.LosingExecution | packages/debugger/crabcode_debugger/dap.py:190-211 | a run in which an event arrives during a wait and is lost when the wait gives back what it skipped |
| DapRequests.FirstResponseWins | packages/debugger/crabcode_debugger/dap.py:253-260 | a request is answered with the first response bearing its number read since it was started; nothing later changes it |
| DapRequests.NumbersAreFresh | packages/debugger/crabcode_debugger/dap.py:133-146 | every request gets a number no earlier request had |
| DapRequests.OpenRequestsAreReachable | packages/debugger/crabcode_debugger/dap.py:148-163 | an open request has had no response and the next one for it is not missed; a dropped one takes none |
| DapRequests.RequestIsDecidedBy | packages/debugger/crabcode_debugger/dap.py:133-168 | over every execution: an open request is decided by its own response, the reader's failure, the end of its wait or closing, as each says, and by nothing else |
| DapRequests.PendingSteps | packages/debugger/crabcode_debugger/dap.py:133-168 | which requests a response can still find, and under which command, after each step |
| DapRequests.ReaderFailureEndsWaits | packages/debugger/crabcode_debugger/dap.py:246-250 | when the reader fails or the client closes, no started request is left waiting |
| DapClient.DAPClient.QueueEvent | packages/debugger/crabcode_debugger/dap.py:267-296 | the bounded put: its last put cannot fail, an event other than output is in as the newest, output displaces nothing |
| DapClient.DAPClient.MakeRoom | packages/debugger/crabcode_debugger/dap.py:278-293 | the loop that leaves out the oldest output, or else the oldest event |
| DapClient.DAPClient.DrainEvents | packages/debugger/crabcode_debugger/dap.py:170-188 | everything buffered in order, and the number dropped since the last drain |
| DapClient.DAPClient.WaitForEvent | packages/debugger/crabcode_debugger/dap.py:190-211 | the wait loop and the loop that gives back take the first match out of the buffer and nothing else, and drop nothing |
| DapClient.DAPClient.StartRequest | packages/debugger/crabcode_debugger/dap.py:118-146 | a request gets a number no request had and is open; no other changes |
| DapClient.DAPClient.HandleResponse | packages/debugger/crabcode_debugger/dap.py:253-260 | a response answers exactly its own request, if that is open |
| DapClient.DAPClient.FailPending | packages/debugger/crabcode_debugger/dap.py:246-250 | the loop leaves nobody waiting and loses no answer |
| AxPreorder.EveryNodeOnce | packages/core/crabcode_core/computer_use_observation.py:107-126 | for any parent relation, cycles and missing parents included: every node is written once except those merged away, so the element count is nodes minus merged |
| AxPreorder.ForestIsPreorder | packages/core/crabcode_core/computer_use_observation.py:107-124 | when the parent relation is a forest, the output is the preorder in document order, each line indented by its depth up to 64, without the merged nodes |
| AxTree.DfsWritesOnce | packages/core/crabcode_core/computer_use_observation.py:113-124 | the same for any stack and visited set the loop can have |
| AxTree.RunsAreMaximal | packages/core/crabcode_core/computer_use_observation.py:91-106 | a merged run has two or more passive text leaves and none before or behind it |
| AxTree.AwayHasOneRun | packages/core/crabcode_core/computer_use_observation.py:91-106 | every node merged away belongs to exactly one run |
| AxTree.MergedArePassiveLeaves | packages/core/crabcode_core/computer_use_observation.py:95-99 | nobody merged is a control, protected, focused, selected, settable or disabled, or has children; a representative is not merged away itself |
| AxReading.NodesAreLast | packages/core/crabcode_core/computer_use_observation.py:75-79 | every well-formed id has exactly the node last reported for it |
| AxReading.NodesInFirstOrder | packages/core/crabcode_core/computer_use_observation.py:75-79 | nodes stand in the order in which their ids were first reported |
| AxReading.ChildrenExactly | packages/core/crabcode_core/computer_use_observation.py:80-85 | a node is a child of exactly the other node it names, and a root exactly if it names none |
| AxReading.ChildrenInOrder | packages/core/crabcode_core/computer_use_observation.py:80-85 | children are listed once, in the order of the document |
| AxReading.MergedExactly | packages/core/crabcode_core/computer_use_observation.py:91-106 | in every list of siblings a node gives its text away, or speaks for a run, exactly if the fields of it and its neighbours say so |
| AxReading.MergedTextReads | packages/core/crabcode_core/computer_use_observation.py:104-105 | the text of a head is the values of its run in document order, with one space between two of them and nothing else |
| AxReading.LinesShowValues | packages/core/crabcode_core/computer_use_observation.py:119-123 | a head's line shows the merged text, every other line its own value, none indented by more than 64 |
| AxReading.LinesShowDepth | packages/core/crabcode_core/computer_use_observation.py:113-124 | in a forest a line is indented by the number of nodes above its own, up to 64 |
| AxProjection.BuildTable | packages/core/crabcode_core/computer_use_observation.py:75-79 | the node table keeps first positions and last nodes of repeated ids |
| AxProjection.IndexChildren | packages/core/crabcode_core/computer_use_observation.py:80-85 | the child index lists every node under its parent, or as a root, in document order |
| AxProjection.JoinSiblings | packages/core/crabcode_core/computer_use_observation.py:92-106 | the loop over one list of siblings finds exactly the runs of `AxTree.RunsAreMaximal`, with the texts of `AxReading.MergedTextReads` |
| AxProjection.JoinAll | packages/core/crabcode_core/computer_use_observation.py:91-106 | and over all parents |
| AxProjection.Traverse | packages/core/crabcode_core/computer_use_observation.py:107-124 | the stack loop ends and writes the specified lines |
| AxProjection.Compact | packages/core/crabcode_core/computer_use_observation.py:70-127 | the whole projection with its two counts |
| UsageDaily.SummaryIsFold | packages/core/crabcode_core/usage.py:151-211 | every figure of the summary, and every measure of the days, is a plain sum over the selected rows |
| UsageDaily.ModelsSumToTotal | packages/core/crabcode_core/usage.py:175-197 | the models' totals add up to the summary total |
| UsageDaily.PointsSumToModel | packages/core/crabcode_core/usage.py:191-197 | a model's non-null points add up to its total |
| UsageDaily.DaysAddUp | packages/core/crabcode_core/usage.py:162-178 | every row falls on exactly one day: sums by day are sums over rows, for all rows and for each model |
| UsageDaily.DayIsUnique | packages/core/crabcode_core/usage.py:162-163 | an instant of the range falls on a day exactly if that day's two midnights enclose it |
| UsageDaily.ReportIsUnique | packages/core/crabcode_core/usage.py:151-211 | the selected rows, the calendar and the start of tracking leave exactly one report: days, summary, models and the order of the models |
| UsageDaily.DaysAreConsistent | packages/core/crabcode_core/usage.py:166-188 | missing plus partial is unknown on every day, a day with requests is never unavailable, and a day is complete exactly when nothing is unknown and tracking had begun |
| UsageModels.CutGivesBackIff | packages/core/crabcode_core/usage.py:175-193 | the report cuts a model's key back to the row's provider exactly if that has no slash, and then to its model id, a missing one by its stand-in |
| UsageModels.SameKeyIff | packages/core/crabcode_core/usage.py:175 | for providers without a slash two rows fall to one model exactly if they have the same provider and model id |
| UsageModels.ModelsAreTheirRows | packages/core/crabcode_core/usage.py:162-197 | every row belongs to exactly one of the reported models, every model has a row, and its total is what its own rows used |
| UsageReport.Aggregate | packages/core/crabcode_core/usage.py:151-178 | the one pass over the rows builds per-day and per-model sums |
| UsageReport.Cover | packages/core/crabcode_core/usage.py:179-188 | the coverage pass |
| UsageReport.BuildModels | packages/core/crabcode_core/usage.py:191-197 | every model with a row, once, with its total and its points, in ascending order of the keys |
| UsageReport.Daily | packages/core/crabcode_core/usage.py:127-211 | the report for a range, or the error for an empty range or one over 366 days |
| UsageStream.FieldMaxIsGreatest | packages/core/crabcode_core/usage.py:245-252 | the recorded count of a field is the greatest any chunk reported, and absent exactly if none did |
| UsageStream.UsageGrows | packages/core/crabcode_core/usage.py:245-266 | while the stream runs, what is stored of a field never goes away and never shrinks |
| UsageStream.UsageStore.Consume | packages/core/crabcode_core/usage.py:242-266 | while the stream runs the stored row always shows the greatest counts of the chunks seen so far, so also after a crash |
| UsageStream.UsageStore.TrackedStream | packages/core/crabcode_core/usage.py:214-289 | one row per request from begin to finish, with its outcome; other rows are untouched |
| UsageStream.UsageStore.Begin | packages/core/crabcode_core/usage.py:86-96 | a new row, the first tracking time, or an error for a taken id |
| UsageStream.KnownRequests | packages/core/crabcode_core/usage.py:112-125 | a finished request counts as known in the daily report exactly when its stream ran out without an error chunk and reported input and output |
| UsageStream.FinishedRowSays | packages/core/crabcode_core/usage.py:99-125 | a finished row holds for every field the greatest count reported, the total input before the plain one, is complete exactly if input and output were reported and missing exactly if nothing was, and names the last model and stop reason and how the stream ended |
| UsageStream.ReportedAmount | packages/core/crabcode_core/usage.py:169-171 | what the report adds for it is the greatest total, or else the greatest input and output together |
| TurnProcess.GroupsPartition | packages/shared/turnProcess.js:44-59 | grouping splits the items in order into non-empty turns; only first items start a turn, only last items end one, turns part only where something does; only the last turn of a busy conversation can be incomplete |
| TurnProcess.GroupingIsUnique | packages/shared/turnProcess.js:44-59 | and it is the only way to split them like that |
| TurnProcess.TurnsPartExactly | packages/shared/turnProcess.js:3-59 | a turn ends before an item exactly if the user typed that item, neither injected nor steering, or the item before it reports a turn's duration |
| TurnProcess.OnlyLastIsOpen | packages/shared/turnProcess.js:44-59 | a turn is unfinished exactly if it is the last of a busy conversation whose last item is no such report |
| TurnProcess.CompletedTurnsStay | packages/shared/turnProcess.js:44-59 | the completed turns of a busy conversation stay, unchanged and in front, whatever is appended |
| TurnProcess.Group | packages/shared/turnProcess.js:44-59 | the grouping loop |
| TextIo.NormalizeAgain | packages/core/crabcode_core/text_io.py:41-43 | normalizing twice is normalizing to the last newline |
| TextIo.NormalizeIsIdentity | packages/core/crabcode_core/text_io.py:41-43 | normalizing changes nothing if and only if every line break is that newline already |
| TextIo.DetectIsMostFrequent | packages/core/crabcode_core/text_io.py:46-52 | the detected newline is a most frequent one, of equals the first of CRLF, LF and CR; none is detected exactly when there is no line break |
| TextIo.DetectedIsIdentity | packages/core/crabcode_core/text_io.py:41-52 | rewriting with the detected newline changes nothing if and only if all line breaks are alike |
| TextIo.ReadThenWrite | packages/core/crabcode_core/text_io.py:17-38 | reading and writing back with the same mark gives the same bytes |
| TextIo.ReadThenRewrite | packages/core/crabcode_core/text_io.py:17-38 | with the detected newline it does so if and only if all line breaks are alike |
| TextIo.WriteThenRead | packages/core/crabcode_core/text_io.py:17-38 | what is written is read back as written if and only if it carries a mark or does not itself begin with the mark's character |

## Left out

Of the managed agents:

- Run objects are referred to by their number in a list, which stands for object identity.
- The manager's own `_lock` is never held across an await, so it adds no interleaving and is not modelled.
- Callers that vanish while they wait for a control lock, the timeouts of waits, `wait_any`, permission and choice routing, titles, models, usage and loaded tools.
- Times are integers; the source sorts and stores ISO strings.
- What the persistence files look like and when writes fail; a transcript write is an output of the segment.
- Assumed of the environment: generated message and agent ids are new, restored transcripts have distinct ids, `query_loop` only extends the history it was given, a completion sink is installed.
- Also assumed: an id a caller gives to `send_input` that is not in the run's history is not in the history its running query loop has extended either. The source looks in the former only.
- The race in which `asyncio.Event` or `Semaphore` wakes a task that is cancelled in the same loop turn is covered only by letting a cancelled task take either way.

Of the channel:

- Sockets, reconnection, heartbeats, the AX connection id and the native hand-backs of leases; a release message is modelled from where those have returned.
- The wording of messages, screenshots and pixels: frames, cursors and errors are opaque values. Results and capabilities are taken to be well-formed records.

Of the filesystem workers:

- What a child does with a request and how its reply is decoded; the payload is one indivisible write.
- `Thread.start` raising after the thread has begun, Windows job objects, and the order of an abort's system calls beyond look and signal.

Of the debug client:

- JSON is a predicate on bodies; a body that parses but is no object is taken to be handled. The 64 KiB line limit of the stream reader and Python's limit on the digits of an integer are not modelled.
- What a response says: its success flag, message and body are one opaque payload.
- Timeouts: a wait ends when the model says so; a zero timeout that looks at nothing is not covered. Starting and ending the adapter process.

Of the tree projection, the ledger, turns and text:

- The wording of a node's line (`_node_text`), `diff_ax_tree` and its use of difflib.
- SQLite, locking and write failures; real time zones: midnights grow with the days and every instant falls between two of them, which a zone that repeats midnight does not satisfy. `recorded_request_count`.
- `describeTurn` and the collapsing policy: expressions without state.
- The UTF-8 codec is any pair of functions that undo each other and treat the byte order mark as a character.
- The repository's user interfaces, packaging, tools and adapters.
