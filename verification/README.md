# Capture rebinding, live transcription and timeline arithmetic: a verified model

This project models, in Dafny, four parts of a meeting recorder and proves what they promise.

1. **Capture rebinding.** A pure decision function moves each capture binding through Stopped,
   Starting, Running, Stopping, Waiting and Failed; a Windows supervisor with one thread for each
   binding, and a macOS supervisor with one shared stream, carry out its effects and feed reports
   back in any order. (`Rebinding`, `DecisionState`, `RebindingMoves`, `RebindingHistory`,
   `IterationOrder`, `RebindingResponses`, `RebindingRecovery`, `RebindingDefaults`, `WindowsModel`,
   `WindowsProofs`, `WindowsResponses`, `WindowsSupervisor`, `MacosModel`, `MacosProofs`,
   `MacosStream`, `MacosStaleRun`, `MacosResponses`, `MacosShutdown`, `MacosSupervisor`)
2. **The remote track of a live transcription.** A silence gate decides what is sent to a metered
   speech-to-text provider; keepalives inject audio, reconnects restart the provider's clock, and a
   checkpoint list undoes all of it for timestamps. (`GateModel`, `SilenceGate`, `GateReplay`,
   `GateHistory`, `GateRing`, `TimestampMapper`, `RemoteModel`, `RemoteProofs`, `RemoteOrder`,
   `RemoteRuns`, `RemoteLiveness`, `RemoteTrack`)
3. **The outage table.** Two tracks drop, back off, reconnect or give up, and each outage of a second
   or more becomes a row. (`GapModel`, `GapProofs`, `GapLoop`, `GapLedger`)
4. **Timeline arithmetic and transcripts.** Packet alignment, interpolation, the visible transcript
   and re-transcription of gaps. (`Aligner`, `AlignerContent`, `Resample`, `Transcript`,
   `TranscriptOrder`, `Retranscribe`, `RetranscribeRows`)

## How it is built

Each stateful part of the program is a class whose methods change fields in place. Each method is
proved to compute a value specification written beside it (`View()` after the call equals the
specification of `View()` before it), and the theorems are about the specifications over whole runs.
What each input must achieve is stated a second time on events, bindings, tables and buffers alone,
without the specification's own operations (the `Responses`, `Recovery`, `Liveness`, `Loop`, `Ring`,
`Content`, `Order` and `Rows` files).
The environment is unconstrained: capture events, device events, send failures and provider effects
may be anything at any time, except that an outstanding joiner, timer or reconnect attempt reports
once. The order in which a hash map is visited is a parameter that every theorem quantifies over.
Loudness is an arbitrary function of a window, samples have an arbitrary type, and time, effects of
the provider and the index of a failing send are parameters.

## Four properties the code does not have

For each there is a run that shows it and the exact condition under which it holds.

- *The shared stream serves the worker table* (macOS): a rebuild compares only the sets of bindings,
  so when one binding fails and its retry fires before its sibling's error is in, the sets are equal
  again and the old stream stays, with the old epoch (`RetryLeavesStaleStream`; exact condition over
  runs: `StreamServesExactly`, and event by event: `CurrentBreaksExactly`, `StaleRepairsExactly`).
- *A running follower is on the default it follows* (decision): a default that changes while a start
  is under way is recorded, but the start report does not look at it again (`DefaultIsMissed`; exact
  condition over runs: `FollowerOnDefaultExactly`).
- *Timestamps are continuous over an outage* (remote track): samples the gate retained before an
  outage are mapped after it, and samples the gate wanted to send after a failed send in the same
  chunk are not accounted for (`PreRollMappedLate`, `OutageDelaysPreRoll`; exact condition over runs:
  `MappedIsTrueExactly`). The documentation at live_transcription.rs:1274-1295 promises continuity.
- *Wall-clock mapping keeps the order of time*: not once audio has been injected
  (`InjectionReordersTime`; exact condition on the checkpoints: `WallclockOrderExactly`, and after
  any run: `TimesInOrderExactly`; event by event: `HeartbeatReordersExactly`).

## Model

| member | source | states |
|---|---|---|
| `DecisionStates.DecisionState.Decide` | crates/capture-api/src/rebinding.rs:400-441 | the in-place decision leaves exactly the state and emits exactly the effects of the value specification, for some visiting order of the binding map |
| `DecisionStates.DecisionState.HandleObservation` | crates/capture-api/src/rebinding.rs:511-747 | the same for every observation: device changes, process exits and restarts, worker reports; what each must achieve is in `RebindingResponses` and `RebindingRecovery` |
| `DecisionStates.DecisionState.StartBinding` | crates/capture-api/src/rebinding.rs:443-484 | the in-place start: refused at shutdown and outside Stopped/Waiting, otherwise fresh ids and one start, or Waiting without a target |
| `DecisionStates.DecisionState.StopBinding` | crates/capture-api/src/rebinding.rs:489-509 | the in-place stop: only a running binding, one stop carrying its own ids |
| `DecisionStates.DecisionState.HandleWorkerStopped` | crates/capture-api/src/rebinding.rs:671-706 | a stop report counts only with the operation id and epoch being stopped, then follows the stop's plan |
| `DecisionStates.DecisionState.HandleWorkerFailed` | crates/capture-api/src/rebinding.rs:707-747 | a failure report counts only with the current operation id, then retries or gives up at the cap |
| `DecisionStates.DecisionState.HandleRetryTimer` | crates/capture-api/src/rebinding.rs:759-775 | a timer counts only while waiting for that very attempt |
| `RebindingMoves.DecideMoves` | crates/capture-api/src/rebinding.rs:400-775 | for every input and visiting order, each binding makes one of eight moves (stay, begin, halt, come up, rest, retry, give up, park), each with exactly its effects |
| `RebindingMoves.DecideFrames` | crates/capture-api/src/rebinding.rs:400-775 | a decision never loses or adds a binding, never clears shutdown, hands out ids in ascending order and only ids above all earlier ones |
| `RebindingMoves.DecideKeepsWellFormed` | crates/capture-api/src/rebinding.rs:400-775 | ids of held captures are below the counters and shared by no two bindings; the retry counter stays within the cap; Failed means past the cap |
| `RebindingMoves.SelectedIsSound` | crates/capture-api/src/rebinding.rs:521-613 | a device event reaches exactly the bindings it concerns (by selection, target and lifecycle), each once |
| `RebindingHistory.GenerationsAreOrdered` | crates/capture-api/src/rebinding.rs:443-509 | over any run, operation ids and epochs of starts strictly increase; every stop follows the start of the same capture, at most once per start |
| `RebindingHistory.RunsAreRecorded` | crates/capture-api/src/rebinding.rs:443-509 | over any run, a held capture has its start in the log, and a live one has no stop there |
| `RebindingHistory.StoppingWaitsForItsWorker` | crates/capture-api/src/rebinding.rs:671-706 | between a stop and the matching stop report a binding neither moves nor emits anything, whatever else arrives |
| `RebindingHistory.SupersededForever` | crates/capture-api/src/rebinding.rs:643-747 | once no binding carries an operation id, every report about it is a no-op for ever |
| `RebindingHistory.OneAcceptor` | crates/capture-api/src/rebinding.rs:142-144 | no epoch is accepted for two bindings at once |
| `RebindingHistory.AcceptanceIsOneInterval` | crates/capture-api/src/rebinding.rs:235-240 | the moments at which one epoch is accepted form one contiguous interval of one binding |
| `RebindingHistory.StartsAreBounded` | crates/capture-api/src/rebinding.rs:707-747 | without a successful start a binding is started at most MAX_RETRY_ATTEMPTS + 1 times, however many events and timers arrive |
| `RebindingHistory.FailedMeansExhausted` | crates/capture-api/src/rebinding.rs:707-747 | over any run, Failed if and only if the counter is past the cap |
| `RebindingHistory.FailedIsFinal` | crates/capture-api/src/rebinding.rs:443-455 | Failed is absorbing and emits nothing for ever |
| `RebindingHistory.ShutdownQuiesces` | crates/capture-api/src/rebinding.rs:402-426 | after shutdown nothing is ever started, pending restarts included, and each change strictly lowers Starting > Running > Stopping > rest |
| `IterationOrder.OrderOnlyRenumbers` | crates/capture-api/src/rebinding.rs:402-426 | for any two visiting orders of the hash map, a decision yields the same state and, binding by binding, the same effects, up to one permutation of the operation ids and epochs it allocates and one of the effect ids |
| `IterationOrder.StopsIgnoreOrder` | crates/capture-api/src/rebinding.rs:572-595 | shutdown and a removed endpoint yield the very same state in every visiting order |
| `IterationOrder.PassInClosedForm` | crates/capture-api/src/rebinding.rs:521-571 | what a pass over the map does to one binding depends on the order only through the number of starts before it |
| `RebindingResponses.RemovalStops` | crates/capture-api/src/rebinding.rs:572-595 | a removed endpoint stops exactly the microphone or loopback that runs on it, with one stop under its own ids, to wait for the device; every other binding is untouched |
| `RebindingResponses.AdditionStarts` | crates/capture-api/src/rebinding.rs:596-613 | an added endpoint starts, before shutdown, exactly the waiting bindings pinned to it, each with one start on it under ids never used before; every other binding is untouched |
| `RebindingResponses.NewDefaultMoves` | crates/capture-api/src/rebinding.rs:513-571 | a new default stops a running follower that is not on it, leaves one that is, starts a waiting one on it (or parks it without one), and touches nothing else |
| `RebindingResponses.ShutdownStops` | crates/capture-api/src/rebinding.rs:402-427 | shutdown stops exactly what runs, for good |
| `RebindingResponses.ExitStops` | crates/capture-api/src/rebinding.rs:614-628 | a process exit stops exactly the process capture that runs on that pid, to wait for the process |
| `RebindingResponses.RestartMoves` | crates/capture-api/src/rebinding.rs:629-642 | a process restart stops exactly the capture of the old pid, to be started again, and selects the new pid |
| `RebindingResponses.UserStartStarts` | crates/capture-api/src/rebinding.rs:428-484 | a start request starts a stopped or waiting binding where its selection points, parks it without a target, and otherwise changes nothing |
| `RebindingResponses.UserStopStops` | crates/capture-api/src/rebinding.rs:431-509 | a stop request stops a running binding for good and otherwise changes nothing, a start under way included |
| `RebindingResponses.RetryStarts` | crates/capture-api/src/rebinding.rs:759-775 | the retry timer of the attempt waited for starts the binding; any other changes nothing |
| `RebindingResponses.StartReportRuns` | crates/capture-api/src/rebinding.rs:643-670 | a start report of the start under way makes the binding run where the worker says and clears its failures; any other changes nothing |
| `RebindingResponses.FailureReportRetries` | crates/capture-api/src/rebinding.rs:707-747 | a failure report of the operation under way counts one failure and asks for that one retry, or gives up past the fifth; any other changes nothing |
| `RebindingResponses.StopReportFollowsPlan` | crates/capture-api/src/rebinding.rs:671-706 | a stop report of the stop under way leaves the binding stopped, waiting for what was planned, or started where its selection points then; any other changes nothing |
| `RebindingRecovery.FlagsFollowInputs` | crates/capture-api/src/rebinding.rs:400-520 | over any run the default routes are what was last reported, and shutdown is as it was requested |
| `RebindingRecovery.RestLasts` | crates/capture-api/src/rebinding.rs:400-775 | over any run a binding that is stopped, waiting, stopping or failed stays exactly as it is, and asks for nothing, until one of the few inputs that it answers to |
| `RebindingRecovery.RemovedDeviceParks` | crates/capture-api/src/rebinding.rs:572-706 | from the removal of its endpoint, through anything reported meanwhile, to its own stop report: one stop, and the binding waits for a device |
| `RebindingRecovery.ExitedProcessParks` | crates/capture-api/src/rebinding.rs:614-706 | the same from a process exit: one stop, and the capture waits for the process |
| `RebindingRecovery.RequestStops` | crates/capture-api/src/rebinding.rs:402-509 | the same from a stop request or shutdown: one stop, and the binding is stopped |
| `RebindingRecovery.FollowerMoves` | crates/capture-api/src/rebinding.rs:513-706 | the same from a new default: one stop, then one start on what is the default at the stop report, or waiting without one, or stopped if shutdown came |
| `RebindingRecovery.RestartedProcessIsFollowed` | crates/capture-api/src/rebinding.rs:629-706 | the same from a process restart: one stop, then one start on the new pid |
| `RebindingRecovery.WaitingIsWoken` | crates/capture-api/src/rebinding.rs:443-613 | before shutdown the first event that concerns a waiting binding starts it, once, where its selection points then |
| `RebindingRecovery.LostDeviceComesBack` | crates/capture-api/src/rebinding.rs:572-706 | a device that is unplugged and plugged in again is captured again: one stop and one start on the pinned endpoint, whatever else happens between |
| `RebindingDefaults.FollowerOnDefaultExactly` | crates/capture-api/src/rebinding.rs:513-571 | over any run, a running follower is on the default if and only if it came up on what was the default then or the default has been set since |
| `RebindingDefaults.DefaultIsMissed` | crates/capture-api/src/rebinding.rs:564-567 | a run in which a default that changes during a start is missed: the follower goes on running on the old endpoint |
| `WindowsProofs.StepKeeps` | crates/app-service/src/windows_supervisor.rs:215-252 | every event of any channel, in any order, keeps table, joiners, timers, threads, frames and decision state in agreement |
| `WindowsProofs.RunsStayOk` | crates/app-service/src/windows_supervisor.rs:215-252 | every reachable state of every run satisfies that agreement |
| `WindowsProofs.ExecuteKeeps` | crates/app-service/src/windows_supervisor.rs:254-298 | executing the effects of one decision one by one restores that agreement, start, stop and retry alike |
| `WindowsProofs.StartNeverOverwrites` | crates/app-service/src/windows_supervisor.rs:263-279 | at the moment a start is carried out its binding is not in the worker table, so no handle is dropped unjoined and the warning about it is never logged |
| `WindowsProofs.TableAgrees` | crates/app-service/src/windows_supervisor.rs:254-298 | in every reachable state a binding is in the worker table if and only if it is Starting or Running, with the same operation id, epoch and target |
| `WindowsProofs.NoThreadIsLost` | crates/app-service/src/windows_supervisor.rs:300-307 | every thread ever spawned is in exactly one of the table, one joiner, or joined; pending_joins is the number of outstanding joiners |
| `WindowsProofs.StoppingHasOneJoiner` | crates/app-service/src/windows_supervisor.rs:281-296 | a stopping binding has exactly one outstanding joiner, with its operation id and epoch |
| `WindowsProofs.NothingIsStranded` | crates/app-service/src/windows_supervisor.rs:490-507 | before shutdown, for a binding that is Starting, Running, Stopping or waiting to retry, some event that can happen now moves it on |
| `WindowsProofs.FramesFollowGenerations` | crates/app-service/src/windows_supervisor.rs:309-330 | frames passed on for one binding never go back to an earlier epoch, over any run |
| `WindowsProofs.StartIsBuildable` | crates/app-service/src/windows_supervisor.rs:521-545 | no start ever reaches an unreachable arm of build_stream |
| `WindowsProofs.FailureInDetail` | crates/app-service/src/windows_supervisor.rs:365-445 | a failure charged to a registered worker takes its binding out of Starting or Running, schedules the one retry it owes, and touches no other binding and no thread |
| `WindowsProofs.DrainStep` | crates/app-service/src/windows_supervisor.rs:509-518 | one report during the drain lowers pending_joins by one, starts nothing and moves only the binding it is about |
| `WindowsProofs.DrainingStopsWhatRan` | crates/app-service/src/windows_supervisor.rs:243-249 | the drain takes at most pending_joins reports; when all arrive nothing is stopping and whatever ran at shutdown is Stopped |
| `WindowsSupervisors.WindowsSupervisor.Execute` | crates/app-service/src/windows_supervisor.rs:254-298 | the in-place loop over effects computes the specified table, joiners and timers |
| `WindowsSupervisors.WindowsSupervisor.HandleCaptureEvent` | crates/app-service/src/windows_supervisor.rs:309-436 | the in-place handler makes exactly the specified step and keeps the agreement; what each event must achieve is in `WindowsResponses` |
| `WindowsSupervisors.WindowsSupervisor.HandleJoinResult` | crates/app-service/src/windows_supervisor.rs:490-507 | the same for a join report |
| `WindowsSupervisors.WindowsSupervisor.ReapDeadWorker` | crates/app-service/src/windows_supervisor.rs:438-445 | removes the worker only if it still carries the reported operation id, and spawns its joiner |
| `WindowsSupervisors.WindowsSupervisor.DrainPendingJoins` | crates/app-service/src/windows_supervisor.rs:509-518 | the loop terminates with pending_joins as measure and waits for all joiners unless one times out |
| `WindowsSupervisors.WindowsSupervisor.RunUntilShutdown` | crates/app-service/src/windows_supervisor.rs:215-252 | the whole loop is a run; at its end, without a timeout, nothing is stopping and whatever ran is Stopped |
| `WindowsResponses.DeathTakesWorker` | crates/app-service/src/windows_supervisor.rs:343-445 | an error, a lost device or a lost session of a registered capture takes its worker out of the table and its thread to a joiner, its binding out of Starting or Running, counts one failure, schedules one retry until the cap, and changes nothing else |
| `WindowsResponses.NoDeath` | crates/app-service/src/windows_supervisor.rs:350-405 | a stall, a stop on request, and a death or start of a capture that is not registered leave the supervisor as it is |
| `WindowsResponses.StopLeaves` | crates/app-service/src/windows_supervisor.rs:254-307 | a removed endpoint, a default moved away and shutdown take the worker they concern out of the table and its thread to a joiner with the ids of the stop |
| `WindowsResponses.WorkerLeavesExactly` | crates/app-service/src/windows_supervisor.rs:215-445 | a worker leaves the table if and only if its capture dies or is asked to stop, and is never replaced otherwise |
| `WindowsResponses.WorkerStays` | crates/app-service/src/windows_supervisor.rs:215-445 | over any run it stays in the table, the same one, for as long as neither happens |
| `WindowsResponses.PinnedStarts` | crates/app-service/src/windows_supervisor.rs:254-298 | before shutdown a pinned binding at rest gets a worker on its endpoint when it is asked to start, when its endpoint comes back and when its retry is due |
| `WindowsResponses.StartReportConfirms` | crates/app-service/src/windows_supervisor.rs:323-342 | a start report makes the binding of a registered worker run where it was started, with its failures forgotten, and changes nothing else |
| `WindowsResponses.FramesExactly` | crates/app-service/src/windows_supervisor.rs:309-322 | over any run the frames passed on are exactly those that arrived while their binding was running under their epoch |
| `WindowsResponses.TimersExactly` | crates/app-service/src/windows_supervisor.rs:289-298 | only a death schedules a retry timer, and only its own firing takes one away |
| `MacosProofs.StepKeeps` | crates/app-service/src/macos_supervisor.rs:315-359 | every event keeps table, shared stream, threads and timers in agreement and leaves no binding Stopping |
| `MacosProofs.RunsStayOk` | crates/app-service/src/macos_supervisor.rs:315-359 | every reachable state of every run satisfies that agreement |
| `MacosProofs.ExecuteSettles` | crates/app-service/src/macos_supervisor.rs:361-431 | the recursive execute, with decisions nested in its loop, settles every pending effect |
| `MacosProofs.TableAgrees` | crates/app-service/src/macos_supervisor.rs:361-431 | in every reachable state no binding is Stopping, the table holds exactly the Starting or Running bindings with equal ids, and every thread is accounted for |
| `MacosStreams.StepMovesStream` | crates/app-service/src/macos_supervisor.rs:539-628 | with pinned bindings every event either breaks the shared stream, repairs it, or leaves it serving the worker table exactly if it did before; and it is rebuilt only into a stream that serves the table |
| `MacosStreams.CurrentBreaksExactly` | crates/app-service/src/macos_supervisor.rs:582-628 | a stream that serves the table stops serving it if and only if one of several bindings reports an error |
| `MacosStreams.StaleRepairsExactly` | crates/app-service/src/macos_supervisor.rs:434-459 | a stale stream serves the table again if and only if the last awaited error comes in or a binding is stopped; until then it is not touched, even when a restarted binding makes the sets of bindings equal |
| `MacosStreams.StreamServesExactly` | crates/app-service/src/macos_supervisor.rs:582-628 | over any run from pinned bindings, the stream serves the table if and only if every error that came in while a sibling was awaited has been followed by the last awaited error or by a stop |
| `MacosStreams.RebuildServesEveryone` | crates/app-service/src/macos_supervisor.rs:476-536 | every rebuild of every run hands each served binding its own operation id and its own epoch, and asks for the microphone that is to be served |
| `MacosStreams.StepKeepsGeneration` | crates/app-service/src/macos_supervisor.rs:539-628 | a binding that runs before and after an event runs under the same operation and epoch |
| `MacosStreams.SurvivorsStayAccepted` | crates/app-service/src/macos_supervisor.rs:476-491 | over any run, a binding that runs before and after a rebuild keeps its epoch, is handed it, and has the frames that carry it accepted |
| `MacosShutdown.ShutdownStopsAtOnce` | crates/app-service/src/macos_supervisor.rs:350-355 | whatever runs when shutdown is requested is Stopped, and out of the table, after that one step |
| `MacosShutdown.DrainStep` | crates/app-service/src/macos_supervisor.rs:693-703 | one report during the drain lowers pending_joins by one and changes nothing but the account of threads |
| `MacosShutdown.DrainingJoinsWhatRan` | crates/app-service/src/macos_supervisor.rs:705-712 | the drain takes at most pending_joins reports, keeps what ran Stopped, and when all have arrived every thread ever spawned is joined, save that of a stream that still serves a starting binding |
| `MacosStaleRun.RetryLeavesStaleStream` | crates/app-service/src/macos_supervisor.rs:605-626 | a run from two pinned bindings, in which the retry of one fires before the error of the other, ends with a stream that stamps an epoch its worker no longer has |
| `MacosSupervisors.MacosSupervisor.PinDevices` | crates/app-service/src/macos_supervisor.rs:207-230 | binds the microphone and the endpoint loopback to pinned endpoints, stopped |
| `MacosSupervisors.MacosSupervisor.Execute` | crates/app-service/src/macos_supervisor.rs:361-431 | the in-place recursive method terminates (stops left to execute decrease) and computes the specification |
| `MacosSupervisors.MacosSupervisor.ReconcileActiveStream` | crates/app-service/src/macos_supervisor.rs:434-537 | the in-place rebuild computes the specified stream, joiners and counters |
| `MacosSupervisors.MacosSupervisor.HandleStreamError` | crates/app-service/src/macos_supervisor.rs:582-628 | the error arm makes exactly the specified step: decide, drop the worker, execute, rebuild unless siblings are still to report |
| `MacosSupervisors.MacosSupervisor.DrainPendingJoins` | crates/app-service/src/macos_supervisor.rs:705-712 | the loop terminates with pending_joins as measure and waits for all joins unless one times out |
| `MacosSupervisors.MacosSupervisor.RunUntilShutdown` | crates/app-service/src/macos_supervisor.rs:315-359 | the whole loop is a run that keeps every invariant; at its end whatever ran is Stopped and, without a timeout, every thread is joined save that of a stream still starting |
| `MacosResponses.ErrorTakesWorker` | crates/app-service/src/macos_supervisor.rs:582-628 | an error takes the worker out of the table and its binding out of Starting or Running, counts one failure, schedules one retry until the cap, and touches no other binding |
| `MacosResponses.StrayReport` | crates/app-service/src/macos_supervisor.rs:582-637 | a stop on request and a report of a capture that is not registered change nothing |
| `MacosResponses.StartReportConfirms` | crates/app-service/src/macos_supervisor.rs:553-581 | a start report makes the binding of a registered worker run where it was started, with its failures forgotten, and changes nothing else |
| `MacosResponses.RemovedDeviceParks` | crates/app-service/src/macos_supervisor.rs:282-431 | an endpoint that goes away, alone or in a list of changes, takes its worker away within that one event, and the binding waits for a device |
| `MacosResponses.AddedDeviceStarts` | crates/app-service/src/macos_supervisor.rs:238-431 | an endpoint that is there again, alone or in a list, and the request to start get a waiting binding a worker on it under ids never used before; the request also a stopped one |
| `MacosResponses.RetryDueStarts` | crates/app-service/src/macos_supervisor.rs:340-431 | a retry that is due starts the binding that waits for it |
| `MacosResponses.WorkerLeavesExactly` | crates/app-service/src/macos_supervisor.rs:315-628 | a worker leaves the table if and only if its capture reports an error, its endpoint goes away, or shutdown finds it running |
| `MacosResponses.TimersExactly` | crates/app-service/src/macos_supervisor.rs:415-431 | only an error schedules a retry timer, and only its own firing takes one away |
| `SilenceGates.SilenceGate.Process` | crates/app-service/src/silence_gate.rs:167-256 | the in-place walk, with its two run accumulators, yields the gate and the coalesced actions of the window-by-window specification |
| `SilenceGates.SilenceGate.PushPreRoll` | crates/app-service/src/silence_gate.rs:262-277 | the in-place ring buffer holds the specified samples and reports exactly those pushed out; which they are is `RingExactly` |
| `GateReplay.ProcessReplays` | crates/app-service/src/silence_gate.rs:167-256 | replaying the actions of one push over pre-roll ++ samples (sends must equal the next slice, drops skip) consumes it in order and leaves exactly the new pre-roll, which is empty unless silent |
| `GateReplay.PushesReplay` | crates/app-service/src/silence_gate.rs:167-256 | the same over any number of pushes of any sizes: every sample sent, dropped or retained exactly once, in order |
| `GateReplay.PushesConserve` | crates/app-service/src/silence_gate.rs:262-277 | sent + dropped + retained = pre-roll + pushed, in samples, over any pushes |
| `GateReplay.BoundarySplit` | crates/app-service/src/silence_gate.rs:181-256 | cutting a push at a window boundary reaches the same gate and, with adjacent sends and drops merged, the same actions |
| `GateReplay.NothingDroppedWithinHangover` | crates/app-service/src/silence_gate.rs:280-312 | once quiet, nothing is held back until the sample clock is hangover_samples past the first quiet window, for any pushes |
| `GateHistory.StateIsHistory` | crates/app-service/src/silence_gate.rs:280-312 | with thresholds that do not cross, stepping window by window gives the state the whole history calls for: silent before the first speech, speaking until the first quiet window after the last loud one, then hangover for that window and less than hangover_samples, then silent |
| `GateHistory.GateFollowsHistory` | crates/app-service/src/silence_gate.rs:167-256 | the same for the gate itself, after any pushes of any sizes |
| `GateRing.RingExactly` | crates/app-service/src/silence_gate.rs:262-277 | after any pushes the gate holds the newest samples behind the last window that was sent, all of them if there is room, otherwise exactly as many as there is room for |
| `GateRing.VerdictsExactly` | crates/app-service/src/silence_gate.rs:167-256 | what a push makes of each of its windows, from the history: a window that starts speech is sent behind all that is held, one that stays silent drops exactly what there is no room for, any other is sent |
| `GateRing.PushExactly` | crates/app-service/src/silence_gate.rs:167-277 | a push sends stitched audio exactly for its windows that start speech, and drops something if and only if some window leaves more than there is room for |
| `GateRing.WindowsAre` | crates/app-service/src/silence_gate.rs:167-181 | a push is cut into windows of equal length, the last one shorter if need be; each counts with the loudness of its own samples |
| `GateRing.ActionsAreMerged` | crates/app-service/src/silence_gate.rs:167-256 | what a push sends or drops in one stretch is one action |
| `TimestampMappers.TimestampMapper.RecordCheckpoint` | crates/app-service/src/timestamp_mapper.rs:50-58 | recording changes every lookup from its position on, to the new offset, and none before it, and keeps the list strictly sorted |
| `TimestampMappers.TimestampMapper.PartitionPoint` | crates/app-service/src/timestamp_mapper.rs:83 | the halving search finds the boundary between positions at or before the query and those after it |
| `TimestampMappers.TimestampMapper.ToWallclockMs` | crates/app-service/src/timestamp_mapper.rs:71-92 | the search on the compacted list answers as a linear scan of every history that compacts to it |
| `MapperModel.CompactionIsInvisible` | crates/app-service/src/timestamp_mapper.rs:50-58 | in-place compaction changes no lookup, for every history and query |
| `MapperModel.CompactIsSorted` | crates/app-service/src/timestamp_mapper.rs:50-58 | a non-decreasing history compacts to a strictly sorted list with the same last entry |
| `MapperModel.OffsetIsNearest` | crates/app-service/src/timestamp_mapper.rs:110-118 | the millisecond offset is within half a millisecond of the exact quotient, ties go away from zero, and negating samples negates it |
| `MapperModel.NoOtherIsNearer` | crates/app-service/src/timestamp_mapper.rs:110-118 | no other whole number of milliseconds is nearer |
| `MapperModel.WallclockOrderExactly` | crates/app-service/src/timestamp_mapper.rs:71-92 | wall-clock milliseconds keep the order of provider milliseconds if and only if no checkpoint, from the first millisecond it applies to, turns the clock back by more than the millisecond it moves on (or the time before was zero anyway) |
| `MapperModel.OrderKeptExactly` | crates/app-service/src/timestamp_mapper.rs:71-92 | the same for sample positions, before conversion to milliseconds: the order is kept if and only if no checkpoint takes away more than the one position it moves on by |
| `RemoteProofs.StepKeeps` | crates/app-service/src/live_transcription.rs:1164-1329 | every event keeps the accounting between provider clock, mapper, gate and true timeline, whatever the gate decides, whichever send fails and whatever is injected |
| `RemoteProofs.AccountingIsExact` | crates/app-service/src/live_transcription.rs:1164-1329 | samples_sent + total_injected + net_offset + pre-roll + skipped = all that was captured or out, at every point of every run and across reconnects |
| `RemoteProofs.EverySampleIsPlaced` | crates/app-service/src/live_transcription.rs:1202-1251 | every real sample at provider position x is the sample at position x + offset(x) of the timeline the mapper believes in |
| `RemoteProofs.MappedIsTrueExactly` | crates/app-service/src/live_transcription.rs:1164-1329 | that timeline is the true one if and only if no chunk went on sending after a failed send and no outage met a filled pre-roll |
| `RemoteRuns.PreRollMappedLate` | crates/app-service/src/live_transcription.rs:1311-1329 | a run with the default settings in which it is not: 100 ms retained over an outage are looked up late by the outage |
| `RemoteProofs.OutageDelaysPreRoll` | crates/app-service/src/live_transcription.rs:1311-1329 | an outage moves every retained sample exactly its own length further on, while the true timeline grows only at its end |
| `RemoteProofs.LiveSessionIsExact` | crates/app-service/src/live_transcription.rs:1202-1251 | in a live session audio captured since it began comes from its mapped position plus exactly the samples ever lost to dead sessions |
| `RemoteProofs.TimestampsPointAtCapture` | crates/app-service/src/live_transcription.rs:1164-1251 | under the same condition a provider time, mapped to milliseconds, points at the captured sample within half a millisecond and one sample |
| `RemoteProofs.LookupsAreFinal` | crates/app-service/src/live_transcription.rs:1202-1251 | for the rest of a session, whatever happens, what was sent stays and no lookup below the position reached changes |
| `RemoteProofs.TimeKeepsOrder` | crates/app-service/src/live_transcription.rs:1227-1252 | over any run without injected audio, transcript times keep their order |
| `RemoteProofs.TimesInOrderExactly` | crates/app-service/src/live_transcription.rs:1227-1252 | over any run, with injections, they keep their order if and only if no checkpoint held by the mapper turns the clock back |
| `RemoteRuns.InjectionReordersTime` | crates/app-service/src/live_transcription.rs:1233-1242 | a run with the default settings, 100 ms of speech and one heartbeat, in which they do not |
| `RemoteOrder.OnlyInjectionReorders` | crates/app-service/src/live_transcription.rs:1164-1329 | no chunk, failure or disconnect puts transcript times out of order, and a reconnect puts them in order again |
| `RemoteOrder.HeartbeatReordersExactly` | crates/app-service/src/live_transcription.rs:1227-1252 | a heartbeat that takes the provider clock into a later millisecond leaves times in order if and only if they were and, by the counters before it, it takes no more off the offset in whole milliseconds than one (or the time before was zero) |
| `RemoteOrder.TimesStayInOrder` | crates/app-service/src/live_transcription.rs:1227-1252 | over any run, reconnects included, times are in order as long as no heartbeat turns the clock back when it is sent |
| `RemoteTracks.RemoteGateState.HandleChunk` | crates/app-service/src/live_transcription.rs:1164-1180 | the in-place handler, gate and mapper objects included, computes the specified track, with any one send of the chunk failing |
| `RemoteTracks.RemoteGateState.SendUnconditional` | crates/app-service/src/live_transcription.rs:1187-1195 | a send advances the counter even when it fails, and a failure ends the session |
| `RemoteTracks.RemoteGateState.KeepAliveIfIdle` | crates/app-service/src/live_transcription.rs:1227-1252 | injected audio advances the provider clock and takes as much off the offset; a failure ends the session; otherwise only the idle clock moves; what that achieves over runs is `LiveExactly` and `InjectedExactly` |
| `RemoteTracks.RemoteGateState.ApplyReconnectOffset` | crates/app-service/src/live_transcription.rs:1311-1329 | a fresh mapper with one checkpoint that carries position, offset and outage over, counters back at zero |
| `RemoteLiveness.LiveExactly` | crates/app-service/src/live_transcription.rs:1187-1329 | over any run the session is live if and only if it was up at the start or has been reconnected, and since then no send failed, no keepalive that was due failed and no disconnect came |
| `RemoteLiveness.InjectedExactly` | crates/app-service/src/live_transcription.rs:1227-1252 | over any run the provider clock counts exactly the samples that due keepalives put in; one is due five idle seconds after the last gated send, answered keepalive or reconnect |
| `RemoteLiveness.UngatedSendsAll` | crates/app-service/src/live_transcription.rs:1164-1195 | without a gate the provider is sent exactly what was captured while its session was live, and its clock counts exactly that |
| `GapProofs.TurnKeeps` | crates/app-service/src/live_transcription.rs:832-1055 | every arm of the loop keeps sessions, timers, attempts and outage table in agreement with an account kept from the events alone |
| `GapProofs.LedgerIsExact` | crates/app-service/src/live_transcription.rs:465-549 | closed rows are exactly the outages that lasted at least a second, each under one id; rows of a track are disjoint and in order of time |
| `GapProofs.OpenRowsAreOutages` | crates/app-service/src/live_transcription.rs:518-549 | a track has at most one open row, and one exactly while it is down, starting when the outage did however many attempts failed |
| `GapProofs.LiveIsHealthy` | crates/app-service/src/live_transcription.rs:952-988 | a session is live exactly when its track is up, and then there is no open gap, no armed retry and no attempt under way |
| `GapProofs.RetryingNeverStalls` | crates/app-service/src/live_transcription.rs:941-988 | a track down from a retryable error has an armed deadline or an attempt, never both, until the audio closes; one of them can happen within thirty seconds; the outage start never moves |
| `GapProofs.ClosedIsFinal` | crates/app-service/src/live_transcription.rs:870-890 | once the audio is closed all rows are closed, no session or attempt is left, and no later turn installs a session, touches the table or finalizes anything |
| `GapProofs.FinalizedOnce` | crates/app-service/src/live_transcription.rs:896-901 | the sessions live when the audio closes are finalized then, each exactly once, and no others |
| `GapLedger.LiveTranscription.TakeTurn` | crates/app-service/src/live_transcription.rs:832-1055 | each arm, on the objects, makes exactly the specified turn; when the channels are gone is `ChannelExactly` and `LoopEndsExactly` |
| `GapLedger.LiveTranscription.NoteTrackDisconnect` | crates/app-service/src/live_transcription.rs:518-566 | the session goes; a new outage opens one row and arms a retry or gives up; a repeated signal does neither |
| `GapLedger.LiveTranscription.CloseOpenGap` | crates/app-service/src/live_transcription.rs:486-499 | takes the open gap and closes its row, or discards it when it was short |
| `GapLedger.LiveTranscription.CloseAudio` | crates/app-service/src/live_transcription.rs:870-901 | aborts attempts, closes both gaps, finalizes both sessions |
| `GapLedger.LiveTranscription.RunLoop` | crates/app-service/src/live_transcription.rs:832-1055 | whatever happens, the loop takes exactly the turns its arms are polled for until the audio and both event channels are gone; what it takes is a possible run |
| `GapLedger.ReconnectState.NoteDisconnect` | crates/app-service/src/live_transcription.rs:385-389 | keeps the outage start, arms the deadline with the doubled and capped backoff, counts the attempt |
| `GapLedger.ReconnectState.Reset` | crates/app-service/src/live_transcription.rs:396-402 | back to healthy except for the open gap |
| `GapLoop.ChannelExactly` | crates/app-service/src/live_transcription.rs:1000-1055 | a track's event channel is attached if and only if it was up at the start or connected since, and was not closed after the last time it came up |
| `GapLoop.LoopEndsExactly` | crates/app-service/src/live_transcription.rs:832-832 | the loop has ended if and only if the audio was closed and each track's event channel is closed or was never opened |
| `GapLoop.RetryIsDue` | crates/app-service/src/live_transcription.rs:306-389 | while a track is being reconnected its next attempt is due exactly when the wait for the failures of this outage is over, or is under way |
| `GapLoop.BackoffDoubles` | crates/app-service/src/live_transcription.rs:306-310 | the wait begins at half a second and doubles with each failure, up to half a minute |
| `GapLoop.AttemptsWait` | crates/app-service/src/live_transcription.rs:941-948 | no attempt to reconnect is made before the wait for the failures of this outage is over |
| `TimelineAligners.TimelineAligner.Ingest` | crates/audio-timeline/src/aligner.rs:96-147 | the in-place ingest computes the specified output, clock and statistics |
| `TimelineAligners.TimelineAligner.FinalizeUpTo` | crates/audio-timeline/src/aligner.rs:153-162 | pads with silence up to the end and moves the clock there |
| `AlignerModel.LengthBound` | crates/audio-timeline/src/aligner.rs:96-162 | after k packets with g gaps and a final pad, the length is within (k + g + 1)/2 frames of rate times the time spanned plus the time delivered twice; g is the gap statistic |
| `AlignerModel.StatsAddUp` | crates/audio-timeline/src/aligner.rs:45-57 | silence frames + resampled frames + frames copied in hard jumps = output length; every packet and every flagged discontinuity is counted |
| `AlignerModel.FittedLength` | crates/audio-timeline/src/aligner.rs:109-140 | a packet contributes exactly its expected frames, however many it delivered |
| `AlignerModel.TracksEndTogether` | crates/audio-timeline/src/aligner.rs:149-162 | two tracks with the same start, no overlap and whole-frame times end with equal, exact lengths, whatever packets each lost |
| `AlignerModel.AudioIsInPlace` | crates/audio-timeline/src/aligner.rs:96-147 | on such a track every packet's audio lies at the frame of its own time in the finished output |
| `AlignerContent.HardJumpExactly` | crates/audio-timeline/src/aligner.rs:115-130 | a packet is taken over frame by frame if and only if it is flagged or its length is more than a twentieth away from what its time should hold |
| `AlignerContent.FrameInPlace` | crates/audio-timeline/src/aligner.rs:96-147 | on a track without overlap and with whole-frame times, each frame of each packet lies at its place: silence for an empty packet, its own frame or silence behind its last one for one taken over, the interpolated frame otherwise |
| `AlignerContent.SilenceBetween` | crates/audio-timeline/src/aligner.rs:99-107 | and whatever on such a track belongs to no packet is silence |
| `AlignerContent.FinishAddsSilence` | crates/audio-timeline/src/aligner.rs:153-162 | finishing a track adds silence only, and nothing the second time |
| `AlignerContent.RoundsHalfUp` | crates/audio-timeline/src/aligner.rs:70-72 | a time is rounded to the nearest frame, and half a frame up |
| `AlignerContent.OneSampleHeld` | crates/audio-timeline/src/resample.rs:12-23 | where there is nothing to interpolate between, the first sample is held |
| `AlignerContent.JumpsCounted` | crates/audio-timeline/src/aligner.rs:115-122 | the hard jumps counted are the packets taken over, and the deviation reported is the largest of any packet |
| `Resampling.LinearResample` | crates/audio-timeline/src/resample.rs:12-34 | the loop computes the interpolation at every output position, with all indices in range |
| `Resampling.BetweenNeighbours` | crates/audio-timeline/src/resample.rs:25-32 | every output lies between two neighbouring inputs |
| `Resampling.Identity` | crates/audio-timeline/src/resample.rs:12-34 | equal lengths give the identity, for every input |
| `Resampling.EndsKept` | crates/audio-timeline/src/resample.rs:24-32 | both end samples are kept when both lengths exceed one |
| `Resampling.OrderKept` | crates/audio-timeline/src/resample.rs:12-34 | a non-decreasing input gives a non-decreasing output |
| `Resampling.LinesAreExact` | crates/audio-timeline/src/resample.rs:24-32 | a straight line is reproduced exactly at any length |
| `Transcripts.VisibleSegments` | apps/desktop/src/transcript.rs:53-62 | the two passes over a hash map and a set keep exactly the final rows and the last row of each track |
| `Transcripts.VisibleIncrement` | apps/desktop/src/transcript.rs:53-62 | a new row drops its own track's pending interim and is added at the end |
| `Transcripts.FoldIsBatch` | apps/desktop/src/transcript.rs:53-62 | folding row by row gives the batch view |
| `Transcripts.VisibleIs` | apps/desktop/src/transcript.rs:45-52 | every final row is shown once and in order; a track shows at most one interim row, and none of its rows after it |
| `Transcripts.VisibleTwice` | apps/desktop/src/transcript.rs:53-62 | the view of a view is itself |
| `Transcripts.TimelineIsStable` | apps/desktop/src/transcript.rs:86-94 | the merged timeline is in order of time and items at one time keep their order, gaps after visible rows |
| `Transcripts.TimelineIsUnique` | apps/desktop/src/transcript.rs:86-94 | whatever sorts by time and keeps ties yields this timeline |
| `TranscriptOrder.TimelineShowsAll` | apps/desktop/src/transcript.rs:86-94 | the timeline shows every visible row and every gap, each as often as it occurs |
| `TranscriptOrder.TimelineInOrder` | apps/desktop/src/transcript.rs:86-94 | items that carry a time come in the order of their times, a row before a gap of the same time, and rows without a time come last |
| `Retranscription.TranscriptToSegments` | crates/app-service/src/retranscribe.rs:160-196 | the loop yields one row for each run of a split of the words into non-empty maximal same-speaker runs, or one row over the gap without words |
| `Retranscription.SplitIsUnique` | crates/app-service/src/retranscribe.rs:181-195 | there is only one such split |
| `Retranscription.TextIsKept` | crates/app-service/src/retranscribe.rs:141-146 | the texts of the rows, joined, are the words, joined |
| `Retranscription.RowsInOrder` | crates/app-service/src/retranscribe.rs:133-146 | timed words make timed rows: each after the start of the decoded audio, none beginning before an earlier one ends |
| `Retranscription.OverlapIsBlock` | crates/app-service/src/retranscribe.rs:122-131 | the segments that overlap a gap are one block without a hole, and none outside it overlaps |
| `Retranscription.GapIsCovered` | crates/app-service/src/retranscribe.rs:113-131 | every recorded instant of a gap is in a segment found for it |
| `Retranscription.DecodedAudioIsContiguous` | crates/app-service/src/retranscribe.rs:255-266 | the audio decoded for a gap is one stretch of the track, beginning at the sample of its first segment |
| `Retranscription.ChunkAt` | crates/app-service/src/segmenter.rs:15-25 | segment i is the samples of window i, full except the last, on every track alike |
| `Retranscription.CuttingLosesNothing` | crates/app-service/src/segmenter.rs:15-25 | the segments, put together, are the track |
| `RetranscribeRows.RowsTell` | crates/app-service/src/retranscribe.rs:133-196 | each row is said by whoever said its words, from the start of the first to the end of the last, counted from the start of the decoded audio, and no two neighbours have one speaker |
| `RetranscribeRows.FoundExactly` | crates/app-service/src/retranscribe.rs:113-131 | what is decoded for a gap are exactly the segments that share an instant with it |
| `RetranscribeRows.SegmentsAre` | crates/app-service/src/segmenter.rs:15-25 | a track is cut into as many segments as it takes, numbered from 0, each stamped with its place and holding the samples of its own window |

## Left out

- Widths of integers: ids, clocks, counters and sample counts are unbounded, so wrap-around after 2^64 operations, `u32` saturation of the attempt counters and the upper clamp of `saturating_add_signed` are not modelled; the lower clamp at zero is.
- Floating point: samples and ratios are reals, and nanoseconds to frames is exact integer rounding, so `f32`/`f64` rounding and NaN are outside the model.
- Foreign code: WASAPI, CoreAudio, ScreenCaptureKit, device enumeration and diffing, filter construction and decoding of device flows and roles; their results are arbitrary events.
- Early `?` returns, thread panics and failing store calls: the model assumes that effects can be carried out and that gap rows can be written.
- Status reporting, health sinks, logging, broker publishing, transcript persistence and the forwarding of stream-started notices and frame payloads: no decision depends on them.
- The Resolving lifecycle is a case of the datatype but is never constructed, as in the program.
- Retry delays of the supervisors: a scheduled timer may fire at any time; only that it fires at most once is used.
- Bindings of the macOS supervisor are pinned endpoints, as `pin_devices` makes them; followed defaults and processes are in the decision model only.
- Starting bindings at shutdown or at a stop request: the program does not stop them (`ShutdownStops`, `UserStopStops` say so), and nothing is claimed about their end.
- Which dead thread a capture error belongs to: events carry no operation id, so an error is charged to the registered worker, as in the program; and that macOS siblings all report in the end is not claimed.
- TimestampsPointAtCapture: is stated for runs that meet the exact condition of `MappedIsTrueExactly`; outside it `LiveSessionIsExact` says how far off a live session is.
- HeartbeatReordersExactly: says nothing of heartbeats too short to reach a later millisecond; `TimesInOrderExactly` covers them.
- The length of an outage in samples is a parameter: that elapsed seconds times rate equals the audio missed is an assumption of the program itself.
- One failing send for each chunk: after it the session is gone, so a second send of that chunk cannot fail.
- Durations of stored segments come from the segment store, which is not part of this model; they are only assumed not to exceed the cutting interval.
- `timeline_items` sorts with a library sort; the model uses an insertion sort and proves that a stable order of time is unique.
- Rms, `to_turns`, labels, credentials, the batch provider, the upload pipeline, the user interface and the summary: plumbing or display, and easy members only.
