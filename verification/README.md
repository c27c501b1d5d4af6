# Saitek FIP manager: a verified model

The manager in `src/` drives Saitek Flight Instrument Panels over USB: eight button
lamps, one 320x240 screen, six soft keys, two arrow keys and two encoders per panel.
This project models its core in Dafny 4.11 and proves what the code keeps over whole
runs. `dafny verify dfyconfig.toml` checks everything.

## What is modelled

**The command queue and the worker of one panel** (`src/manager.rs`).
`CommandQueues` is the bounded, coalescing queue: the class `CommandChannel` with the
source's fields, and the function `Send`/`TryRecv` it refines. `Panels` says what a
panel shows and who wrote it; `Coalescing` proves when the queue means the same as the
full log of accepted commands. `DeviceWorkers` is the worker, its queue, its panel and
its environment as a labelled state machine: senders, revocations and clock readings
come between any two worker steps, and every USB call may fail, with or without having
reached the panel. `WorkerCode` is the worker's sequential code over mutable objects, with everyone
else acting before each of its steps; each method returns, as ghost labels, the run of
the state machine it performed, so all theorems over runs hold of the code. The theorems
are in `WorkerMeaning` (what the panel shows), `WorkerResidue` (nothing of a lost claim
survives a reset, and exactly when the reset happens), `WorkerStop` (Stop is absorbing,
and exactly when it ends in a reset), `WorkerFailures` (why a worker can fail),
`WorkerErrors` (that nothing which goes wrong is swallowed),
`WorkerEscape` (a reset that never happens), `WorkerFencing` (authority) and
`WorkerFreshness` (the lost-stream notice).

**The supervisor** (`src/manager.rs`). `Supervisors` is the lifecycle state machine over
launched entries, active entries, owned workers, worker threads, their queues, the FIFO
of late reports and the emitted events, with its inductive invariant. `SupervisorRuns`
states what holds in every reachable state. `SupervisorCode` is the `Supervisor` class
itself, every method a run of that machine; `SupervisorTicks` covers whole histories of
discovery ticks, and `WorkerThreads` ties each serving thread to the worker's machine,
which is why waiting for a stopped worker ends. `SupervisorLives` runs the class from its
constructor, through any ticks and reports with everyone else acting in between, to shutdown.
`EventStreams` is the emitted stream and the
routing table the event loop builds from it.

**The device layer.** `UsbInterfaces` (claims, rollback, drop) and `UsbTransfers` (one
deadline for a chunked exchange) model `src/backend.rs`; `ControlPackets` and `HidEdges`
model `src/protocol.rs` and the input half of `src/descriptor.rs`; `Framebuffers` and
`Notices` model `src/image.rs`. `Commands`, `FrameWatchdogs` and `Basics` hold shared
definitions.

## Where the code falls short of its description

* Pending outputs coalesce by control id alone. A raster command addressed to a lamp's
  control is ignored by the panel, yet it cancels the lamp command waiting under that id
  (`Coalescing.RasterOnLampLosesTheLamp`). One send preserves meaning exactly under the
  guard `LosslessSend` (`Coalescing.SendPreservesMeaningIff`), which controllers that
  address rasters to the screen always meet.
* A reset or Stop that has been accepted is not always carried out, even when every USB
  call succeeds. If the worker holds a frame whose image does not decode, the conversion
  error ends the worker before it polls again: no lamp is turned off, the screen is not
  cleared, and what was written under an ended claim stays
  (`WorkerEscape.UndecodableImageSkipsTheReset`). A HID report of one byte does the same
  (`WorkerEscape.ShortReportSkipsTheReset`). These are the only ways, and both can be told
  from the worker at the moment of acceptance. With every call and read answered and
  reports of any length, the reset is carried out in every run exactly when the worker is
  neither doomed nor due to read a HID report before it polls its queue again
  (`WorkerResidue.ResetCompletesIff`, `WorkerStop.StopLeavesCleanIff`). It is due to read
  when it has used up its batch, when the command in hand uses it up, or when it is about to
  check freshness or to read (`WorkerFailures.ReadsFirst`). When every report is long
  enough, only being doomed matters: for parsed commands, holding such a frame under a
  standing claim, or a reset that has already lost a lamp.
* The routing table is keyed by hardware id. Two panels reporting one id leave the
  survivor active but without a route, in a run of the supervisor itself
  (`SupervisorRuns.SupervisorLosesARoute`). Over every run the table is exact after every
  prefix exactly when no two active workers ever stand for one device
  (`SupervisorRuns.RoutingIsExactIffActiveApart`). `FreshRun`, a condition on each launch,
  is sufficient for that and not necessary; ticks against agreeing snapshots meet it
  (`SupervisorTicks.TicksKeepRoutingExact`).
* A failed interface claim only tries to put the kernel driver back. When that call fails
  too, the driver is gone and neither vector knows (`UsbInterfaces.LostDriverIsForgotten`).
  That is the only way the books go wrong: a claim keeps them balanced if and only if it
  does not lose a driver (`UsbInterfaces.ClaimKeepsBalance`), and drop restores every
  driver if and only if no claim lost one (`UsbInterfaces.DropRestoresEverything`).

## Model

| member | source | states |
|---|---|---|
| `Commands.LedIndexBijective` | src/descriptor.rs:139-151 | lamp numbers are a bijection between the eight lamp controls and 1 to 8: the soft keys' own digits, up 7, down 8; the screen has none |
| `CommandQueues.Victim` | src/manager.rs:368-377 | a full queue gives up an output whenever it holds one, never Stop or Reset |
| `CommandQueues.CommandChannel.SendCommand` | src/manager.rs:265-297 | one atomic send refines `Send`, on every queue state; it is refused exactly when the receiver is gone |
| `CommandQueues.CommandChannel.EnqueueBoundedCommand` | src/manager.rs:363-382 | the in-place eviction loop computes the recursive specification for any queue |
| `CommandQueues.CommandChannel.TryReceive` | src/manager.rs:313-327 | one atomic dequeue refines `TryRecv`: the head, else Disconnected without senders, else Empty |
| `CommandQueues.CommandChannel.CloneSender` | src/manager.rs:235-248 | the sender count goes up by one and nothing else changes |
| `CommandQueues.CommandChannel.DropSender` | src/manager.rs:250-262 | the sender count goes down, saturating at zero |
| `CommandQueues.RetainKeeps` | src/manager.rs:364-366 | coalescing removes exactly the entries for the control and keeps the order and shape of the rest |
| `CommandQueues.OneEviction` | src/manager.rs:367-378 | a well-shaped full queue always has an entry to give up, and one is enough |
| `CommandQueues.SendKeepsShape` | src/manager.rs:265-297 | at most 32 entries, one per control, in send order, Reset only at the head, Stop only alone, after any send |
| `CommandQueues.HardwareSendIsEnqueued` | src/manager.rs:363-382 | every output sent before Stop is enqueued at the back with its own context; beyond its own control at most one entry goes, the oldest raster frame first |
| `CommandQueues.QueueOrderAndShape` | src/manager.rs:264-327 | over every run of sends, dequeues, clones and drops, the dequeue history followed by the queue is strictly increasing in send number and each entry is exactly the command sent under that number |
| `CommandQueues.StopLatches` | src/manager.rs:275-285 | once stopping, every later dequeue yields Stop, whatever is sent |
| `Coalescing.DrainByCell` | src/manager.rs:1320-1400 | draining a queue leaves each lamp and the screen as the last command that writes it says |
| `Coalescing.SendPreservesMeaningIff` | src/manager.rs:264-298 | accepting a command and draining later shows, on every panel, what draining first and applying it would show, if and only if the guard `LosslessSend` holds |
| `Coalescing.RasterOnLampLosesTheLamp` | src/manager.rs:176-185 | a raster frame for control s1 cancels a pending lamp command for s1 and shows nothing itself |
| `Coalescing.ActKeepsFaithful` | src/manager.rs:264-327 | each lossless send and each dequeue-and-apply keeps queue and panel in step with the replayed log |
| `Coalescing.CoalescingPreservesMeaning` | src/manager.rs:264-327 | over every interleaving of lossless sends and dequeues, draining the queue shows what replaying the log shows |
| `Coalescing.NeverFull` | src/manager.rs:363-382 | with rasters addressed to the screen, nine controls and one reset are all that can wait, so the queue never overflows |
| `Coalescing.WellAddressedSendIsLossless` | src/manager.rs:264-298 | a raster for the screen, a real lamp or a reset always meets the guard |
| `Coalescing.DrainedQueueMeansFullLog` | src/manager.rs:264-327 | from a fresh queue and any panel, for controllers that address rasters to the screen, the coalesced queue means the same as the full log |
| `DeviceWorkers.StepKeepsInv` | src/manager.rs:1226-1318 | every worker step and every act of the environment keeps the worker's invariant: queue shape, batch bounds, lamps darkened so far during a reset, Stop waiting until taken |
| `DeviceWorkers.WorkMoves` | src/manager.rs:1270-1317 | which phase may follow which; outside polling the worker touches neither its queue nor its latch |
| `DeviceWorkers.PollTakesHead` | src/manager.rs:1272-1284 | polling takes the head of the queue, whatever it is; Stop leads to the leaving reset |
| `DeviceWorkers.EmptyQueuePolled` | src/manager.rs:1272-1288 | polling an empty queue ends the batch, or, once no sender is left, starts the leaving reset |
| `WorkerMeaning.WorkerShowsTheLog` | src/manager.rs:1270-1400 | at every moment of every run of the worker in which no claim ends and every call, decoding and read succeeds, interleaved with senders, finishing the command in hand and draining the queue shows what all accepted commands in order show; only the notice may stand in for the screen |
| `WorkerMeaning.SmoothStepKeepsMeaning` | src/manager.rs:1320-1400 | each worker step, including every single lamp of a reset and the notice, keeps that meaning |
| `WorkerResidue.GoneForGood` | src/manager.rs:1352-1400 | a revoked context absent from panel and flight never comes back, whatever is sent or was dequeued |
| `WorkerResidue.HeadStays` | src/manager.rs:264-298 | an accepted reset or Stop keeps the head of the queue against every later send |
| `WorkerResidue.NoResidue` | src/manager.rs:403-448 | after any history, revocation, any further steps and an accepted ResetDevice or Stop: once a reset completes, no lamp or screen content of the context is present then or later; until then the reset is outstanding, unless the worker has failed for a recorded cause |
| `WorkerResidue.ResetFinishes` | src/manager.rs:1336-1350 | a reset that completes leaves all lamps dark and the screen blank, and the revoked context gone |
| `WorkerResidue.ResetHappens` | src/manager.rs:1270-1287 | an outstanding reset completes within a bounded number of worker steps, against any interference, or the worker fails for a recorded cause |
| `WorkerResidue.ResetRemovesResidue` | src/manager.rs:1270-1400 | 17 worker steps after the reset is accepted the revoked context is gone for good, or the worker has failed for a recorded cause |
| `WorkerResidue.ResetCompletesIff` | src/manager.rs:1270-1400 | with every USB call and HID read answered and reports of any length, an accepted reset or Stop is carried out within 17 worker steps in every run if and only if, when it is accepted, the worker is not doomed and will not read a report before it polls; when all reports are long enough, if and only if it is not doomed; a reset already under way then counts |
| `WorkerEscape.UndecodableImageSkipsTheReset` | src/manager.rs:1381-1381 | a claim ends and a reset or Stop is accepted while an undecodable image is in hand: the worker ends without a reset attempt, no call has failed, and the lamp lit under the claim stays lit |
| `WorkerEscape.NewbornCanBeDoomed` | src/manager.rs:1268-1284 | two ordinary commands to a new worker lead to that situation |
| `WorkerEscape.ShortReportSkipsTheReset` | src/manager.rs:1303-1303 | a HID report too short to decode, read after the reset is accepted, ends the worker without a reset attempt |
| `WorkerFailures.EveryFailureHasACause` | src/manager.rs:1277-1303 | over every run of parsed commands, a failed worker has one of five recorded causes: a failed write, a reset tried and failed, an undecodable frame, a failed HID read, a short HID report |
| `WorkerErrors.FailureIsTheEnd` | src/manager.rs:1277-1303 | over every run, whatever goes wrong (a failed write, notice or read, an undecodable frame, a short report, an unknown lamp or encoding) is the last event and has failed the worker; only a reset that loses a lamp goes on, to try the screen once, and then fails |
| `WorkerErrors.FailedIffSomethingWentWrong` | src/manager.rs:1277-1303 | over every run the worker has failed if and only if something has gone wrong, a reset yet to try its screen aside |
| `WorkerErrors.FailedCallEnds` | src/manager.rs:1336-1400 | from every state that meets the invariant, a lamp, frame, clear, notice or reset call, or a HID read, that fails ends the worker as failed, for a reset after its screen; a report too short does as well |
| `WorkerFailures.RunIsAccounted` | src/manager.rs:1343-1350 | every failed exit is explained by the end of its history, and a reset that fails has tried the screen after its lamps |
| `WorkerFailures.ExecuteFailsIffInfeasible` | src/manager.rs:1363-1399 | with its USB call answered, an output fails exactly for an unknown lamp, an unknown encoding or an undecodable image for the screen |
| `WorkerFailures.ParsedInfeasibleIsUndecodable` | src/manager.rs:775-844 | for parsed commands only the undecodable image for the screen is left |
| `WorkerStop.StopIsAbsorbing` | src/manager.rs:275-285 | once Stop is accepted: only Stop is dequeued, at most the command in hand still writes, the worker exits within its step bound, a clean exit leaves the panel reset, and a failed one has a recorded cause |
| `WorkerStop.StopEndsTheWorker` | src/manager.rs:1274-1276 | 22 worker steps after Stop the worker has left with a reset panel or for a recorded cause, for every history and every interference |
| `WorkerStop.StopLeavesCleanIff` | src/manager.rs:1272-1276 | with every USB call and HID read answered and reports of any length, a stopped worker leaves through a completed reset in every run if and only if, when Stop is accepted, it is not doomed and will not read a report before it polls, a reset that uses up its batch included; when all reports are long enough, if and only if it is not doomed |
| `WorkerStop.ReadsFirstFails` | src/manager.rs:1270-1303 | from any worker due to read before it polls, with every call answered, reports too short to decode end it as failed, and no reset starts on the way |
| `WorkerFailures.PollsFirstStays` | src/manager.rs:1270-1287 | a worker not due to read stays so until it has polled, whatever anybody does, and with a reset or Stop at the head polling starts the reset |
| `WorkerFencing.EveryOutputIsFenced` | src/manager.rs:1352-1400 | over every run, each write for a command directly follows a granted check of that command's context; a frame's last check comes after its conversion, which itself follows a granted check |
| `WorkerFencing.AtMostOneLateWrite` | src/manager.rs:1352-1400 | a revoked context causes at most the one write already past its last check |
| `WorkerFreshness.WatchdogAgreesWithPanel` | src/manager.rs:68-113 | over every run: the notice flag says whether the notice is on the screen; the deadline is that of the last frame and is disarmed by clear alone, never moved by lamps, refused commands or resets; a visible frame is the last one written; notices number at most one more than frames, clears and resets |
| `WorkerFreshness.NoOldFrameLooksLive` | src/manager.rs:99-113 | right after a successful check, the notice is on the screen exactly when the clock has reached the armed deadline (last frame, or start, plus timeout), also before the first frame, and a visible frame was written less than the timeout ago, on the clock's own readings |
| `WorkerCode.FrameWatchdog.Observe` | src/manager.rs:77-97 | the in-place update refines `Observed` |
| `WorkerCode.FrameWatchdog.CheckFreshness` | src/manager.rs:99-113 | the check at the clock's own reading is the state machine's watchdog step; after a good check the notice is up exactly if it was before or the clock has reached last frame plus timeout, and a failed draw fails the check |
| `WorkerCode.Authority.Authorize` | src/manager.rs:1357-1361 | a check is granted exactly when the claim has not ended at that moment |
| `WorkerCode.ClearLeds` | src/manager.rs:1336-1341 | lamps 1 to 8 are turned off in order up to the first failure; it succeeds exactly if no call failed |
| `WorkerCode.ResetDevice` | src/manager.rs:1343-1350 | the screen is tried once, even when a lamp failed; it succeeds exactly if no call failed, and then the panel is fully reset |
| `WorkerCode.ApplyHardwareOutput` | src/manager.rs:1352-1400 | the code's checks, conversion and writes are a run of the state machine, its result is the effect the watchdog must observe, and it succeeds only if no call failed and fails only if one did or the output cannot be carried out |
| `WorkerCode.ApplyRuntimeCommand` | src/manager.rs:1320-1334 | one dequeued command, from queue to panel, is a run of the state machine, and no failed call goes unreported |
| `WorkerCode.Leave` | src/manager.rs:1274-1276 | leaving resets the device, drops the receiver, and is clean exactly if no call failed, with a reset panel |
| `WorkerCode.ServeOne` | src/manager.rs:1273-1284 | one round of the batch takes exactly the head of the queue, as others have left it, and carries it out; an empty queue without senders ends the worker; it goes on only if no call failed |
| `WorkerCode.CarryOut` | src/manager.rs:1277-1282 | a dequeued command is carried out and its effect observed, or the worker ends: only for a failed call or an output it cannot carry out |
| `WorkerCode.ReadOnce` | src/manager.rs:1293-1316 | one HID read extends the HID session by exactly the report the endpoint delivered, and ends the worker exactly when the read fails or the report is too short |
| `WorkerCode.ServePass` | src/manager.rs:1270-1317 | one pass of the loop, with senders and revocations acting before each of its steps, is a run that takes at most four commands and ends with the freshness check and one HID read, or leaves; it continues, or leaves clean, only if no call failed |
| `Supervisors.StepKeepsInv` | src/manager.rs:942-1150 | every supervisor and thread step, including stale reports and panics, keeps the invariant tying both maps, the vector, the threads, the queues, the FIFO and the event stream together |
| `Supervisors.RunKeepsInv` | src/manager.rs:942-1150 | the invariant holds over every run |
| `Supervisors.HandleTerminalClears` | src/manager.rs:1072-1118 | a terminal report leaves no entry for its worker and touches no other entry |
| `SupervisorRuns.NoOrphanedEntries` | src/manager.rs:942-1150 | each launched or active entry has its owned worker or that worker's terminal report still to come; no path is both |
| `SupervisorRuns.BlockedPathHasUnfinishedWorker` | src/manager.rs:977-987 | with the FIFO empty and finished workers joined, a path that cannot be launched has a worker whose thread has yet to finish |
| `SupervisorRuns.NoUnmanagedWorkers` | src/manager.rs:954-1045 | each owned worker is the current entry of its path, or told to stop, or past its loop; owned workers differ in id and path |
| `SupervisorRuns.UnfinishedThreadsAreOwned` | src/manager.rs:998-1016 | over every run each thread that has not finished is in the vector of owned workers, so that it can be joined |
| `SupervisorRuns.IdsNeverReused` | src/manager.rs:988-989 | worker ids only grow and never change path or device |
| `SupervisorRuns.StaleWorkersAreSilent` | src/manager.rs:1020-1120 | a report changes the event stream only when its worker is the current one of its path |
| `SupervisorRuns.CurrentWorkersAreHeard` | src/manager.rs:1020-1120 | in every reachable state the current worker's Connected opens its path, each of its inputs is passed on, its terminal report closes the path, and a stale Connected is told to stop |
| `SupervisorRuns.EventStreamMatchesActive` | src/manager.rs:942-1120 | per path, Connected and Disconnected alternate, Input comes only while open and with the connected device, and the open paths are the keys of the active map |
| `SupervisorRuns.FreshRunsKeepDevicesApart` | src/manager.rs:977-1017 | as long as workers are launched for devices no current entry stands for, no device is ever open on two paths |
| `SupervisorRuns.RoutingTableIsExact` | src/manager.rs:734-773 | after the event loop consumes the stream, the table maps exactly the active device ids to their current workers' queues, and it is exact after every prefix |
| `SupervisorRuns.RoutingIsExactIffActiveApart` | src/manager.rs:734-773 | over every run of the supervisor the table is exact after every prefix if and only if no two active workers ever stand for one device |
| `SupervisorRuns.SupervisorLosesARoute` | src/manager.rs:1030-1051 | a run with two panels of one hardware id leaves the second active and unrouted once the first is unplugged |
| `SupervisorTicks.TicksKeepRoutingExact` | src/manager.rs:919-934 | over every history of ticks against agreeing snapshots, with reports between them and threads acting throughout, the table indexes exactly the active devices |
| `SupervisorTicks.TickIsHistory` | src/manager.rs:919-930 | what one tick of the class does against an agreeing snapshot is such a history, from idle back to idle |
| `SupervisorTicks.HistoryConcat` | src/manager.rs:911-936 | one history after another is a history |
| `SupervisorTicks.HistoriesAreFresh` | src/manager.rs:942-1018 | such histories only ever launch workers for devices no current entry stands for |
| `EventStreams.RoutingIsExactIff` | src/manager.rs:389-400 | for every well-formed stream the table is exact after every prefix if and only if no device is ever open on two paths |
| `EventStreams.SharedDeviceLosesARoute` | src/manager.rs:757-762 | a well-formed stream with one device on two paths whose table ends empty while a path is open |
| `EventStreams.WorkerEventLoop` | src/manager.rs:734-773 | the loop, which ends when the runtime refuses an event, leaves the table of exactly the events it consumed, the refused one included, and has told the runtime all of them but worker failures, in order |
| `EventStreams.AnnouncedIsComplete` | src/manager.rs:739-770 | what the runtime is told is every event consumed except worker failures |
| `EventStreams.SaitekHardwareHandler.Sender` | src/manager.rs:398-400 | a lookup answers exactly for registered devices, with their queue |
| `SupervisorCode.Supervisor.ReconcileUsbPresence` | src/manager.rs:942-1018 | a run of the state machine that keeps exactly the entries still present, leaves every candidate managed, gives only fresh ids, launches for fresh devices when the snapshot agrees with the entries it retains, and keeps serving threads running workers |
| `SupervisorCode.Supervisor.DropMissingActive` | src/manager.rs:948-963 | exactly the absent active paths are removed, each with Stop and a Disconnected event |
| `SupervisorCode.Supervisor.DropMissingLaunched` | src/manager.rs:965-975 | exactly the absent launched paths are removed, each with Stop and no event |
| `SupervisorCode.Supervisor.LaunchMissing` | src/manager.rs:977-1017 | the loop launches along the snapshot, one fresh worker per unmanaged path |
| `SupervisorCode.Supervisor.HandleWorkerReport` | src/manager.rs:1020-1120 | every branch of report handling refines `Handle`, and serving threads stay running workers |
| `SupervisorCode.Supervisor.ProcessOneReport` | src/manager.rs:931-934 | the oldest report is taken and handled; the invariant is kept and serving threads stay running workers |
| `SupervisorCode.Supervisor.ReapFinishedWorkers` | src/manager.rs:1134-1150 | the swap-remove loop joins every finished worker, turns a panic into a failure report, keeps the invariant, and leaves the workers still serving alone |
| `SupervisorCode.Supervisor.DiscoveryTick` | src/manager.rs:919-930 | reap then reconcile, with every finished worker joined before the first entry is dropped, as one run that keeps the invariant and keeps serving threads running workers; its parts are those of a tick in a history |
| `SupervisorCode.Supervisor.RequestStopAllWorkers` | src/manager.rs:1122-1132 | only Stops are sent, and every owned, launched and active worker is stopping or past its loop |
| `SupervisorCode.Supervisor.Join` | src/manager.rs:1157-1159 | with senders, claims and all other threads acting before and after each of its steps, waiting for a thread whose worker has been told to stop ends, by the worker's own bound; finished and panicked are told apart |
| `SupervisorCode.Supervisor.OthersAct` | src/manager.rs:1157-1159 | whatever everyone else does while a thread is awaited, that thread is exactly as near to its end as before, finished threads stay as they are, and nobody who was told to stop is released from it |
| `SupervisorCode.Supervisor.StopAllWorkers` | src/manager.rs:1152-1171 | every owned worker is told to stop and does finish, nothing stays managed, the result says whether some worker panicked, and no thread at all is left running if each unfinished one was owned |
| `SupervisorLives.RunUntilShutdown` | src/manager.rs:911-940 | from the constructor, through any ticks and reports with threads, handlers and claims acting in between, to shutdown: the event stream is well formed, no thread is left running, nothing stays managed, and if each snapshot agreed with the entries it retained the routing table was exact after every prefix |
| `SupervisorLives.LifeIsGood` | src/manager.rs:911-936 | at every moment of such a life each unfinished thread is owned and the stream is well formed; under agreeing snapshots the table is exact after every prefix |
| `WorkerThreads.WorkIsSeen` | src/manager.rs:1201-1222 | each step of a serving worker is, to the supervisor, taking a command, returning from the loop, or nothing |
| `WorkerThreads.TerminalReportsAreTrue` | src/manager.rs:1201-1222 | over every joint run, a terminal report in the FIFO says how its worker ended: Disconnected if and only if it left through a completed reset, Failed if and only if it did not |
| `WorkerThreads.ReportSaysHowItEnded` | src/manager.rs:1201-1222 | also for a thread that never connected, the one report it adds is Disconnected exactly for a clean return |
| `WorkerThreads.InputsAreReported` | src/manager.rs:1307-1314 | an input of a serving thread joins the FIFO as it was made, under the thread's own id, path and device |
| `WorkerThreads.ExitsAreAnnounced` | src/manager.rs:1072-1118 | over every joint run, handling the terminal report of a current worker closes its path and emits the failure event if and only if the worker did not leave through a completed reset |
| `WorkerThreads.PanicsAreAnnounced` | src/manager.rs:1134-1150 | joining a current worker that panicked closes its path and emits the failure event |
| `WorkerThreads.JointKeepsAttended` | src/manager.rs:1190-1224 | every joint step of supervisor, handlers and workers keeps each serving thread a running worker over its own queue |
| `WorkerThreads.WorkIsNearer` | src/manager.rs:1152-1170 | each step of a serving worker leaves every other thread as far from its end as before, and each step of a stopped one brings its own thread nearer |
| `WorkerThreads.JointRunsAreRuns` | src/manager.rs:911-936 | every joint run of supervisor, handlers and workers, to the supervisor, is a run of its machine, and at its end each serving thread is a running worker over its own queue |
| `WorkerThreads.JointRunsStayAttended` | src/manager.rs:911-936 | from the start that holds of every joint run |
| `WorkerThreads.OwnStepsAttend` | src/manager.rs:942-1150 | so does every sequence of the supervisor's own steps: launches, drops, reports, reaps and stops keep serving threads running workers |
| `SupervisorCode.LaunchesAreFresh` | src/manager.rs:977-1017 | launching along an agreeing snapshot only starts workers for devices no entry stands for |
| `UsbInterfaces.Claims.ClaimInterface` | src/backend.rs:439-464 | one claim attempt refines `Claim` for every combination of query, detach, claim and restore results |
| `UsbInterfaces.ClaimKeepsBalance` | src/backend.rs:439-464 | claimed and detached match the device, detached within claimed, after a claim if and only if the claim does not lose a driver; otherwise a failed claim changes neither vectors nor device |
| `UsbInterfaces.LostDriverIsForgotten` | src/backend.rs:451-457 | a claim and its restore both fail: the driver is off the device, in neither vector, and drop does not bring it back |
| `UsbInterfaces.ClaimsStayBalanced` | src/backend.rs:439-464 | after any sequence of claims on distinct interfaces the books balance for every driver not lost |
| `UsbInterfaces.FailedClaimChangesNoVector` | src/backend.rs:439-464 | a failed claim leaves both vectors alone even when the restore fails |
| `UsbInterfaces.Claims.RollbackInterfaces` | src/backend.rs:466-479 | the drains release and reattach everything past the marks, and forget it |
| `UsbInterfaces.RollbackRestores` | src/backend.rs:466-479 | rollback releases each interface, in reverse, before the first reattachment, and lands in the balanced state of the marks |
| `UsbInterfaces.Claims.Drop` | src/backend.rs:297-307 | dropping gives everything back in that order |
| `UsbInterfaces.DropRestoresEverything` | src/backend.rs:297-307 | after any sequence of claims on distinct interfaces with any failures, drop leaves nothing claimed and restores every driver not lost: all of them if and only if none was lost |
| `UsbInterfaces.Claims.ClaimOptional` | src/backend.rs:157-175 | a failed optional claim is rolled back to what was owned before, short of a driver it lost |
| `UsbInterfaces.OpenInterfaces` | src/backend.rs:145-177 | the vendor interface is required, HID is optional, and what is returned balances for every driver not lost; the vendor claim is always tried and opening goes on exactly if it is answered yes; a separate HID interface is then always tried, and there is HID input exactly if its claim is answered yes |
| `UsbInterfaces.ClaimIsTraced` | src/backend.rs:439-464 | the calls of one claim attempt and their order, for every combination of answers; only a claim answered yes succeeds |
| `UsbTransfers.ChunksAreTheData` | src/backend.rs:254-270 | chunks are non-empty, at most a packet, and concatenate to the data |
| `UsbTransfers.ChunksAreFull` | src/backend.rs:254-270 | every chunk but the last is a full packet |
| `UsbTransfers.RemainingMillis` | src/backend.rs:289-295 | a timeout is given exactly when a whole millisecond is left; it is never zero, never runs past the deadline, and is the most whole milliseconds that do not |
| `UsbTransfers.UsbFipHandle.WriteAll` | src/backend.rs:254-270 | the loop stays within the deadline, success sends exactly the chunks, failure a prefix of them, and only because a transfer fell short or time ran out |
| `UsbTransfers.UsbFipHandle.ReadReply` | src/backend.rs:272-286 | only a full-size reply is accepted, and it is the packet received; it is refused only if the transfer fell short or time ran out |
| `UsbTransfers.UsbFipHandle.Transceive` | src/backend.rs:240-252 | an exchange never runs past its start plus the timeout and never passes a zero timeout; on success the chunks sent concatenate to header followed by payload and one reply was read; it fails only if a transfer fell short or time ran out |
| `UsbTransfers.UsbFipHandle.SendImage` | src/backend.rs:212-217 | a frame succeeds only at full size and with a clean acknowledgement; a wrong size costs no time and sends nothing; otherwise it fails only for a transfer that fell short, a lack of time or an unclean acknowledgement |
| `ControlPackets.DecodeEncode` | src/protocol.rs:53-86 | decoding an encoded packet gives it back, for all packets |
| `ControlPackets.EncodeDecode` | src/protocol.rs:62-86 | exactly the 44-byte inputs decode, and encoding gives them back |
| `ControlPackets.FieldsOnTheWire` | src/protocol.rs:37-60 | each of the eleven fields is the big-endian number at its own four bytes |
| `ControlPackets.ToBytes` | src/protocol.rs:53-60 | the word loop writes the encoding |
| `ControlPackets.FromBytes` | src/protocol.rs:62-86 | the word loop computes the decoding, or refuses the length |
| `ControlPackets.WordsOnTheWire` | src/protocol.rs:118-129 | the words of lamp, frame and clear orders as sent: running flag in word 1, gauge in word 6, lamp in word 7, state in word 8 |
| `ControlPackets.LedPacketsDistinct` | src/protocol.rs:114-129 | different lamp orders differ on the wire, and none is another request |
| `ControlPackets.ValidateSetImageReply` | src/protocol.rs:148-173 | no problem is reported exactly for a clean acknowledgement, and each problem reported is real and none is missed |
| `HidEdges.DecodedMaskIsTheNumber` | src/protocol.rs:244-257 | the bits decoded are those of the report's two-byte number in the given order; exactly the too short reports are refused |
| `HidEdges.SeenMasksAreReports` | src/manager.rs:1293-1316 | for every report sequence, the masks seen are the non-empty reports in order, first byte bits 8 to 15 and second byte bits 0 to 7, up to the first report of one byte, on which the session fails |
| `HidEdges.ButtonsFollowTheReports` | src/protocol.rs:191-240 | for every report sequence, up and down are held exactly as bits 0 and 1 of the last report's second byte, s1 to s6 exactly as bits 0 to 5 of its first byte |
| `HidEdges.EncodersFollowTheReports` | src/descriptor.rs:189-220 | for every report sequence, the left encoder's net turn is the rises of bit 7 less those of bit 6 of the first byte, the right one's those of bits 3 and 2 of the second |
| `HidEdges.SessionsAreSensible` | src/descriptor.rs:174-223 | every input names one of the eight buttons or two encoders, and an encoder step is 1 for clockwise and -1 for counterclockwise |
| `HidEdges.EdgesInOrder` | src/protocol.rs:267-278 | the edges of one report come in the order of their bits |
| `HidEdges.UnknownBitsNeverEmit` | src/protocol.rs:267-285 | edges depend on the known bits alone |
| `HidEdges.EdgesLoseNothing` | src/protocol.rs:267-278 | for every report sequence, folding all edges from nothing gives the last mask restricted to the known bits |
| `HidEdges.ButtonsAlternate` | src/descriptor.rs:174-223 | each button's inputs alternate down and up, starting with down, and end as its bit does |
| `HidEdges.EncodersCountRisingEdges` | src/descriptor.rs:189-220 | each encoder's net delta is its clockwise rising edges less its anticlockwise ones |
| `HidEdges.HidReader.OnReport` | src/manager.rs:1293-1316 | one read, its edge loop and the new mask refine `Receive`; a report too short ends the worker |
| `Framebuffers.OffsetBijective` | src/image.rs:106-115 | every byte of a frame is one channel of one pixel and of only one |
| `Framebuffers.SourceInvolutive` | src/image.rs:96-122 | the layout is its own inverse on byte positions |
| `Framebuffers.ConvertedTwice` | src/image.rs:96-122 | converting a full-size frame twice is the identity, for every channel and row order |
| `Framebuffers.PixelLands` | src/image.rs:106-115 | pixel (x, y) lands in the mapped row of its column, channel by mapped channel |
| `Framebuffers.LayoutInNumbers` | src/image.rs:96-149 | the four layouts in plain numbers: 320 pixels to a row, three bytes each, row y at y or 239 - y, channel k at k or 2 - k |
| `Framebuffers.EncodeRgbBytes` | src/image.rs:136-149 | three bytes go out in the channel order and no other byte changes |
| `Framebuffers.FrameFromTopDownRgbBytes` | src/image.rs:96-122 | the two loops compute the conversion and write each pixel exactly once; exactly the full-size inputs are accepted |
| `Notices.BlockOfCell` | src/image.rs:69-76 | a pixel is in a scaled cell's block exactly when dividing by the scale gives the cell |
| `Notices.GlyphsLookRight` | src/image.rs:47-68 | each letter's bits, read from the left, are the dots of its picture |
| `Notices.LineIsCentred` | src/image.rs:45-45 | the margins left and right of a line's letters differ by at most one pixel |
| `Notices.NoticeCorners` | src/image.rs:37-42 | where the headline and the detail line start, pixel by pixel, and in which colour |
| `Notices.DrawNoticeLine` | src/image.rs:44-80 | for text that fits, all writes are in bounds and the picture changes exactly at the pixels whose glyph bit is set, where it holds the colour |
| `Notices.BothLinesFit` | src/image.rs:37-42 | both lines of the notice fit |
| `Notices.LinesApart` | src/image.rs:37-42 | the two lines share no pixel |
| `Notices.MakeStreamLostFrame` | src/image.rs:37-42 | every pixel of the device frame is the notice's pixel in the flipped row with channels swapped |

## Left out

- NATS, Beacon, Concord, session setup and the hardware runtime: they live in a sibling core that is not part of this model. A context is an opaque number whose authority the environment ends once and for good.
- The async hardware and reset handlers: the environment may send any output, reset or Stop at any time, a superset of what the handlers do after their own two checks.
- libusb, endpoint discovery and string reads: results are arbitrary; time is virtual and passes only inside device calls.
- PNG and JPEG decoding and Lanczos resizing: which images decode is an arbitrary fixed set; the frame shown is named by its encoded image.
- Base64, JSON schemas, capability descriptors and parameter parsing: `Parsed` states what parsing guarantees about a command.
- Command-line parsing, hostname rules, logging, signals and retry backoff: single-branch code.
- Probing the device and clearing the lamps at startup: an initial worker state is one that has done both and reported Connected, with any queue it may have been sent by then.
- Interleaving inside one method of `Supervisor`: between the steps of a tick or of report handling only `SupervisorTicks` histories and joint runs let threads act; the class lets them act between its methods and during waits.
- Mutex poisoning and condition variables: production code dequeues without blocking, so sends and dequeues are atomic steps.
- Panics inside the worker: the worker's machine has none; the supervisor's machine lets a live thread panic at any step.
- Opening a device: one step of a thread, which connects, fails or panics; that each exchange behind it ends is what `UsbTransfers` proves.
- The endless worker loop: `ServePass` is one pass, and the state machine runs for any number of passes.
- Aliased queue handles: entries, workers and reports name their worker's queue by the worker's number instead of sharing a reference, and worker ids do not wrap at 64 bits.
- The HID word is a set of bit positions; `HidEdges.DecodedMaskIsTheNumber` ties it to the number.
- The 100 ms and 1 ms HID read timeouts and the one-second discovery interval: they pace the loops without changing a branch that is modelled.
- `Coalescing.DrainedQueueMeansFullLog`: stated before any Stop, because Stop discards what is pending on purpose.
- `WorkerMeaning.WorkerShowsTheLog`: stated for runs in which no claim ends, no call fails and every image decodes; what happens otherwise is stated by the residue, fencing, failure and Stop theorems.
