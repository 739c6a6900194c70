# NDID API server: verified models of its stateful machines

The API server of the NDID digital identity platform takes requests, answers
and data between identity providers (IdP), relying parties (RP) and
authoritative sources (AS). Nodes exchange private messages over message
queues and agree on public facts through a Tendermint blockchain. Much of the
server's correctness rests on a few small machines that live in memory and are
driven by events in any order. This project models them and proves, for all
runs, what the rest of the server relies on.

| module | what it models |
|---|---|
| `BlockTracker` | block heights, app hashes and the ranges of blocks handed out for processing |
| `BlockGate` | inbound messages that wait for a block: handler, cache and block scans, one step for each cache access |
| `Delivery` | what whole runs of the gate deliver, and what a restart makes of parked messages |
| `TaskQueue` | one queue of tasks for each request, wake-ups by `setImmediate`, draining on shutdown |
| `Dispatch` | the gate and the task queues joined: from a message's arrival to the execution of its task |
| `MqLogic`, `RetrySchedule` | timers and retries of outgoing messages; when the copies of one message go out |
| `MqSendSocket` | sockets shared by outgoing copies, five cross-indexed tables |
| `MqSend` | the two joined by synchronous events |
| `DuplicateWindow` | the receiver's duplicate window, and sender and receiver together |
| `Scheduler` | the master's workers and outstanding calls |
| `FanOut` | grouping data requests into messages to AS nodes |
| `AsList` | which AS nodes may serve each data request |
| `RequestStatus` | the status of a request from its totals |
| `PaddedHash` | padding a hash to the size of a key modulus |
| `WsPool` | round-robin choice of a connection |
| `Wrappers`, `Lists`, `Sums`, `Decimals` | shared helpers |

A machine appears twice. A value (`Gate`, `Queues`, `Pool`, `Master`, ...) with
a function for each step carries the invariants and the theorems about whole
runs, in which the environment picks the next step freely. A class with the
source's own fields carries the code: each method is proved to take the value
it stands for (`View()`) exactly where the step function says. Fields marked
"history" record what happened and influence nothing.

Assumptions on the surroundings: heights are integers, and blocks are numbered
from 1; message ids are distinct; sequence ids come
from the counter and a new socket's random id is not in use; equal app hashes
at two heights mean that no transaction lies between; a message that waits for
a block names one that carried a transaction; calls to the cache and the chain
succeed; the chain does not migrate; writes of the saved height to its file
land in the order in which they are made; timers do not fire early; the providers
returned by one lookup are distinct nodes.

## Model

| member | source | states |
|---|---|---|
| `BlockTracker.NewBlockInv` | main-server/src/tendermint/index.js:704-761 | a new block keeps the ranges contiguous up to the chain head, and a range skipped on an equal app hash carries no transaction even while other block handlers are open |
| `BlockTracker.FinishInv` | main-server/src/tendermint/index.js:755-759 | the end of a block handler keeps the same invariant, though it may set the remembered app hash back to an older block's |
| `BlockTracker.RunInv` | main-server/src/tendermint/index.js:704-761 | the invariant holds at every moment of every run from any saved height, null included |
| `BlockTracker.TilesPartition` | main-server/src/tendermint/index.js:727-728 | every height from the first known one to the head minus one lies in exactly one range, any other height in none |
| `BlockTracker.TxHeightHasOwner` | main-server/src/tendermint/index.js:720-757 | a height that carried a transaction is always given to a block handler, never skipped |
| `BlockTracker.OwnerBounds` | main-server/src/tendermint/index.js:727-757 | the handler a height belongs to is the one whose range holds it, is unique, and is launched only above the height |
| `BlockTracker.RestartGapFreeIff` | main-server/src/tendermint/index.js:176-188 | a restart from the saved height loses no unprocessed block exactly when no open handler's range starts below that height |
| `BlockTracker.OverlapCanLeaveGap` | main-server/src/tendermint/index.js:755-759 | two overlapping handlers that end in the wrong order leave such a gap |
| `BlockTracker.SerialRunsRestartCleanly` | main-server/src/tendermint/index.js:176-188 | with blocks handled one at a time, every moment of every run is safe to restart from |
| `BlockTracker.LaunchedIff` | main-server/src/tendermint/index.js:709-759 | in every run with blocks handled one at a time, the range between the head and a new block is handed out if and only if no block has been taken in this run yet or the app hash differs from the head's; otherwise the new height is saved at once |
| `BlockTracker.SerialRunsSee` | main-server/src/tendermint/index.js:705-759 | the remembered app hash is the head's whenever no handler is open and a block has been taken |
| `BlockTracker.SavedNeverFalls` | main-server/src/tendermint/index.js:176-188 | the saved height never falls, in whatever order handlers end |
| `BlockTracker.TendermintBlocks.ProcessNewBlock` | main-server/src/tendermint/index.js:704-751 | the synchronous head of `processNewBlock`: the whole new state, and the range it hands out |
| `BlockTracker.TendermintBlocks.ProcessNewBlockEnd` | main-server/src/tendermint/index.js:755-759 | its tail after the await: the whole new state |
| `BlockTracker.TendermintBlocks.SaveLatestBlockHeight` | main-server/src/tendermint/index.js:176-188 | the saved height becomes the maximum of the old one and the new |
| `BlockGate.RecheckKeeps` | main-server/src/core/request_process_manager.js:78-86 | the second look at the height loses no message and duplicates none: what it parks is in the cache and no scan of its height has begun, what it passes on no scan will deliver |
| `BlockGate.BlockKeeps` | main-server/src/tendermint/index.js:704-751 | a block that arrives between any two steps of a handler keeps every message's invariant |
| `BlockGate.ReadIndexKeeps` | main-server/src/core/request_process_manager.js:97-101 | reading the index catches every parked message of the scan's range |
| `BlockGate.CheckLocksKeeps` | main-server/src/core/request_process_manager.js:102-104 | the lock check drops only messages whose own handler still delivers them |
| `BlockGate.ReadMessageKeeps` | main-server/src/core/request_process_manager.js:105-106 | a message missing at the second read is one that its handler delivers |
| `BlockGate.StepInv` | main-server/src/core/request_process_manager.js:53-159 | every step of handlers, scans, blocks and clean-ups keeps the invariant of every message |
| `BlockGate.RunInv` | main-server/src/core/request_process_manager.js:53-159 | the invariant holds after any interleaving whatever |
| `BlockGate.AtMostOnceNeverEarly` | main-server/src/core/request_process_manager.js:53-159 | in every reachable state a message has reached its queue at most once, never before the head passed its height, and with its own content |
| `BlockGate.ExactlyOnceIff` | main-server/src/core/request_process_manager.js:53-159 | once drained, a message has been queued exactly once if and only if its handler passed it on or some scan covers its height; otherwise it is still in the cache |
| `Delivery.RunLooks` | main-server/src/core/request_process_manager.js:66-88 | a handler that knew the chain head at its last look parks only messages at or above the first height known; one that did not, parks whatever it has |
| `Delivery.ExactlyOnceIffSeen` | main-server/src/core/request_process_manager.js:53-159 | in every run from any start, once drained, a message whose height has passed has been queued exactly once if and only if it lies at or above the first height known or the head was known at its handler's last look; otherwise never, and it stays in the cache |
| `Delivery.ExactlyOnce` | main-server/src/core/request_process_manager.js:53-159 | in every run from a known height, once drained, a message whose height has passed has been queued exactly once, however old its block, with its own content, and accepted unless the server is stopping; of messages left parked by an earlier run this holds at or above the starting height |
| `Delivery.NullStartCanStrand` | main-server/src/tendermint/index.js:709-720 | from a null height there is a run that strands a message: parked before the first block, which launches no scan |
| `Delivery.BelowSavedIsQueued` | main-server/src/tendermint/index.js:176-188 | with blocks handled one at a time, a parked message below the saved height has been queued |
| `Delivery.FoundParked` | main-server/src/core/request_process_manager.js:97-115 | a message found parked at the start is queued exactly once if it is not below the starting height, else never |
| `Delivery.AcrossRestart` | main-server/src/tendermint/index.js:176-188 | across a restart at any moment when no pair of cache operations is half done, blocks handled one at a time: the second run queues exactly the parked messages at or above the saved height, once each, and all that the first run had not queued are among them |
| `Delivery.LockedIsBusy` | main-server/src/core/request_process_manager.js:73-86 | a locked message has a handler at work, or a task that has not completed or was refused by a stopping server |
| `Delivery.RecheckTakesBack` | main-server/src/core/request_process_manager.js:78-86 | a message that passes at its handler's second look stays locked |
| `Delivery.LockedUntilFinished` | main-server/src/core/request_process_manager.js:120-159 | and stays so until its own task has completed |
| `Delivery.QueuedIsRemoved` | main-server/src/core/request_process_manager.js:120-142 | a queued message whose task has completed is in the cache only while its removal is under way |
| `Delivery.NothingLeftBehind` | main-server/src/core/request_process_manager.js:53-159 | once a server that is not stopping has drained and cleaned up, a message that was queued is neither locked nor in the cache |
| `Delivery.CleaningShrinks` | main-server/src/core/request_process_manager.js:124-142 | completions and removals come to an end |
| `Delivery.LateIsNeverCached` | main-server/src/core/request_process_manager.js:66-88 | a message whose height has passed when it arrives is never locked and never written to the cache |
| `BlockGate.NotQuietCanStep` | main-server/src/core/request_process_manager.js:53-159 | there is no deadlock: while anything is pending some step is possible |
| `BlockGate.DrainIsBounded` | main-server/src/core/request_process_manager.js:53-159 | draining ends after a bounded number of steps, and where it ends nothing is pending |
| `BlockGate.RequestProcessManager.HandleMessage` | main-server/src/core/request_process_manager.js:66-77 | first look at the height: lock and save, or pass on at once |
| `BlockGate.RequestProcessManager.HandleMessageSaved` | main-server/src/core/request_process_manager.js:78-86 | second look: park and unlock (false is returned) or take the message back |
| `BlockGate.RequestProcessManager.ProcessMessageInBlocks` | main-server/src/core/request_process_manager.js:102-104 | the scan's loop keeps exactly the ids that are not locked |
| `BlockGate.RequestProcessManager.AddMqMessageTaskToQueue` | main-server/src/core/request_process_manager.js:144-159 | a message passed on reaches the queue, or is refused when stopping |
| `BlockGate.RequestProcessManager.TaskFinished` | main-server/src/core/request_process_manager.js:120-142 | the lock is released, and a scanned message's removals are started |
| `TaskQueue.StepInv` | main-server/src/core/request_process_manager.js:203-299 | each push, wake-up, completion and stop keeps the invariant: one execution per request, a waiting queue is running or will be woken, started then waiting tasks are the pushed ones |
| `TaskQueue.RunInv` | main-server/src/core/request_process_manager.js:203-366 | it holds in every reachable state |
| `TaskQueue.OneAtATimeInOrder` | main-server/src/core/request_process_manager.js:215-267 | in every reachable state a request executes at most one task, and the tasks started are a prefix of those pushed |
| `TaskQueue.OtherRequestsUntouched` | main-server/src/core/request_process_manager.js:205-299 | a step of one request changes nothing of another |
| `TaskQueue.CountersAreExact` | main-server/src/core/request_process_manager.js:368-425 | the three counters always equal the number of queues, the sum of their lengths and the number of running tasks |
| `TaskQueue.NothingPendingNothingWaiting` | main-server/src/core/request_process_manager.js:205-299 | no lost wake-up: with nothing outstanding, no task waits and all pushed tasks have started |
| `TaskQueue.WokenQueueHasTask` | main-server/src/core/request_process_manager.js:217-266 | the clean-up branch of `executeTaskInQueue` is never taken: an idle queue that is woken has a task and starts it |
| `TaskQueue.StopIsFinal` | main-server/src/core/request_process_manager.js:351-366 | when `stop()` resolves nothing is queued or running, and nothing is pushed or started later in the run |
| `TaskQueue.DrainIsBounded` | main-server/src/core/request_process_manager.js:215-299 | without new pushes the queues drain in a bounded number of wake-ups and completions |
| `TaskQueue.StaleIff` | main-server/src/core/request_process_manager.js:216-217 | a wake-up comes to find its queue deleted exactly when a completion deletes the queue with a wake-up outstanding |
| `TaskQueue.StepThrowsIff` | main-server/src/core/request_process_manager.js:215-299 | in a reachable state a step throws a TypeError exactly when it is a wake-up whose queue is gone and has not been pushed to again |
| `TaskQueue.StaleWakeUpIsReachable` | main-server/src/core/request_process_manager.js:212-299 | a run that throws |
| `TaskQueue.TidyRunsNeverThrow` | main-server/src/core/request_process_manager.js:212-299 | a run without such a completion never throws |
| `TaskQueue.ImmediatesFirstNeverThrow` | main-server/src/core/request_process_manager.js:212-299 | an event loop that runs all immediates before the next completion never throws |
| `TaskQueue.RequestQueues.AddTaskToQueue` | main-server/src/core/request_process_manager.js:203-213 | the whole new state after a push, or no change when stopping |
| `TaskQueue.RequestQueues.ExecuteTaskInQueue` | main-server/src/core/request_process_manager.js:215-267 | which task runs, when it throws, and the whole new state |
| `TaskQueue.RequestQueues.OnTaskExecutionFinished` | main-server/src/core/request_process_manager.js:285-299 | the whole new state after a completion, and when it throws (`FinishInv`: never in a reachable state) |
| `TaskQueue.FinishInv` | main-server/src/core/request_process_manager.js:285-299 | a completion always finds its queue and its running mark |
| `TaskQueue.RequestQueues.CleanUpQueue` | main-server/src/core/request_process_manager.js:331-349 | the queue is gone and the last one resolves a waiting `stop()` |
| `TaskQueue.RequestQueues.StopQueues` | main-server/src/core/request_process_manager.js:351-366 | `stop()` waits exactly when a queue exists |
| `Dispatch.StepInv` | main-server/src/core/request_process_manager.js:53-299 | gate and queues keep one account: a task is logged by the gate as often as it was pushed for its request, and counts as open there exactly as long as it has not completed in its queue |
| `Dispatch.CompleteFinishes` | main-server/src/core/request_process_manager.js:285-294 | the completion of a task in its queue is exactly the step that finishes that task in the gate, which is always enabled |
| `Dispatch.StartedInOrder` | main-server/src/core/request_process_manager.js:144-299 | in every reachable state the tasks started for a request are the first ones pushed, from the gate or from elsewhere, in that order, with at most one not completed |
| `Dispatch.GateRun` | main-server/src/core/request_process_manager.js:53-159 | every run of the whole contains a run of the gate alone, so all said of those holds |
| `Dispatch.ExecutedOnce` | main-server/src/core/request_process_manager.js:53-299 | in every run from a known height, once all is drained, a message whose height has passed has been executed exactly once, in its place among the tasks of its request |
| `Dispatch.TaskNamesMessage` | main-server/src/core/request_process_manager.js:107-158 | the queued task determines the message it processes |
| `MqLogic.FireInv` | mq-server/src/mq_module/mq_logic.js:76-93 | a timer that fires finds its copy, and either gives the message up or sends it again |
| `MqLogic.CleanUpInv` | mq-server/src/mq_module/mq_logic.js:36-48 | after a clean-up no timer belongs to the message |
| `MqLogic.Retrier.constructor` | mq-server/src/mq_module/mq_logic.js:26-34 | missing settings get the defaults 120000 and 30000 |
| `MqLogic.Retrier.PerformSendNow` | mq-server/src/mq_module/mq_logic.js:50-74 | a copy goes out under a fresh sequence id with one timer |
| `MqLogic.Retrier.CleanUpMessage` | mq-server/src/mq_module/mq_logic.js:36-48 | the two loops drop exactly the message's copies and timers and report each once |
| `MqLogic.Retrier.Retry` | mq-server/src/mq_module/mq_logic.js:76-93 | gives up exactly when retryCount has reached the fraction totalTimeout/timeout, else sends one more copy |
| `RetrySchedule.RetryTest` | mq-server/src/mq_module/mq_logic.js:28-30 | the comparison with the fraction is a comparison with the number of timeouts rounded up, at least one |
| `RetrySchedule.CopiesCovers` | mq-server/src/mq_module/mq_logic.js:28-30 | that number is the least positive one whose timeouts cover the total |
| `RetrySchedule.NeverTooMany` | mq-server/src/mq_module/mq_logic.js:50-93 | at any moment of any run, among other messages, at most that many copies are out, copy i between i timeouts and i timeouts and lags; a message is given up at most once, with all copies out and no entry or timer left |
| `RetrySchedule.GivesUpInTime` | mq-server/src/mq_module/mq_logic.js:76-93 | once the clock has passed the latest time allowed, all copies are out and the total timeout has been reported |
| `RetrySchedule.NeverBlocked` | mq-server/src/mq_module/mq_logic.js:53-61 | at any moment a timer is due or time may advance |
| `RetrySchedule.FiringShrinksDue` | mq-server/src/mq_module/mq_logic.js:50-93 | each timer that fires leaves fewer timers due, so they cannot fire for ever at one instant |
| `RetrySchedule.ReachesTime` | mq-server/src/mq_module/mq_logic.js:50-93 | every run can go on until any given time |
| `RetrySchedule.GivesUp` | mq-server/src/mq_module/mq_logic.js:50-93 | every run can go on until the message is given up, with all copies out, one report, and no entry or timer left |
| `RetrySchedule.PunctualSchedule` | mq-server/src/mq_module/mq_logic.js:50-93 | with punctual timers the copies go out at exactly the multiples of the timeout and the report comes one timeout after the last |
| `MqSendSocket.FirstFit` | mq-server/src/mq_module/mq_send_socket.js:55-64 | the socket found has room, and none is found only when all are full |
| `MqSendSocket.FirstFitIsFirst` | mq-server/src/mq_module/mq_send_socket.js:55-64 | the sockets before the one found have no room |
| `MqSendSocket.PlaceReachesDest` | mq-server/src/mq_module/mq_send_socket.js:49-83 | a copy is put on a socket connected to its own destination |
| `MqSendSocket.SendReaches` | mq-server/src/mq_module/mq_send_socket.js:49-83 | what is written for a copy is its payload, on a socket to its destination |
| `MqSendSocket.SendKeepsOthers` | mq-server/src/mq_module/mq_send_socket.js:49-83 | copies already under way stay where they are |
| `MqSendSocket.SendInv` | mq-server/src/mq_module/mq_send_socket.js:44-84 | a send keeps all five tables consistent: `socketMap` and `socketUsedBy` inverse, 1 to max users on each socket, one partition by destination, `count` exact |
| `MqSendSocket.CleanUpInv` | mq-server/src/mq_module/mq_send_socket.js:86-121 | so does the clean-up of a message |
| `MqSendSocket.CleanUpRemoves` | mq-server/src/mq_module/mq_send_socket.js:86-92 | a clean-up removes exactly the copies of the message |
| `MqSendSocket.ReleaseFindsEverything` | mq-server/src/mq_module/mq_send_socket.js:94-121 | neither 'Something is wrong' nor a missing table entry is reachable |
| `MqSendSocket.OpenedAtFullLoad` | mq-server/src/mq_module/mq_send_socket.js:55-83 | a socket is opened only when all sockets to the destination are full |
| `MqSendSocket.InFlightIsCopies` | mq-server/src/mq_module/mq_send_socket.js:78-82 | the load of a destination is the number of copies whose socket leads there |
| `MqSendSocket.SendSocket.SendCopy` | mq-server/src/mq_module/mq_send_socket.js:44-84 | the whole new state of the tables |
| `MqSendSocket.SendSocket.ReleaseCopy` | mq-server/src/mq_module/mq_send_socket.js:94-121 | the whole new state, and that it does not throw |
| `MqSendSocket.SendSocket.CleanUpMessage` | mq-server/src/mq_module/mq_send_socket.js:86-92 | the loop releases every copy of the message, without a throw |
| `MqSend.StepInv` | mq-server/src/mq_module/mq_send_controller.js:45-67 | send, timer, ACK and cancel keep both halves consistent and in agreement |
| `MqSend.TablesAgree` | mq-server/src/mq_module/mq_send_controller.js:45-67 | after any run `seqMap`, `socketMap` and `seqIdList` know the same copies, grouped by message alike |
| `MqSend.NoSendAfterAck` | mq-server/src/mq_module/mq_send_controller.js:109-122 | after an ACK or cancel no timer sends that message again, whatever else happens |
| `MqSend.RunCarries` | mq-server/src/mq_module/mq_send_controller.js:45-67 | in every run each send, each armed timer and each copy under way has a destination and payload with which its message was handed to `send`; the copy's socket leads to that destination and that payload was written to it |
| `MqSend.AlwaysTheSame` | mq-server/src/mq_module/mq_logic.js:50-93 | so a message handed over with one destination and payload goes out with just these, first and on every retry |
| `MqSend.CallbackIsKept` | mq-server/src/mq_module/mq_send_controller.js:109-161 | a callback survives retries, cancels and total timeouts, and the first ACK runs it |
| `MqSend.CallbackRunsOnce` | mq-server/src/mq_module/mq_send_controller.js:116-119 | further ACKs of the message run it no more |
| `MqSend.PeakWasReached` | mq-server/src/mq_module/mq_send_socket.js:55-83 | the recorded peak of a destination was its load in some earlier state |
| `MqSend.SocketsWereNeeded` | mq-server/src/mq_module/mq_send_socket.js:55-83 | in every state of every run, some earlier moment had more copies in flight to the destination than one socket fewer can carry |
| `MqSend.MQSender.SendMessage` | mq-server/src/mq_module/mq_send_controller.js:146-161 | the composed objects reach exactly the composed state; an empty message id is refused |
| `MqSend.MQSender.OnAck` | mq-server/src/mq_module/mq_send_controller.js:109-122 | the callback runs once, exactly when one is registered, and both halves are cleaned up |
| `MqSend.MQSender.StopSend` | mq-server/src/mq_module/mq_send_controller.js:163-165 | repeated clean-up events for one message act as one |
| `MqSend.MQSender.OnRetryTimer` | mq-server/src/mq_module/mq_send_controller.js:45-67 | a timer's events leave both halves in the composed state |
| `DuplicateWindow.AcceptedApart` | main-server/src/mq/index.js:227-237 | in every run two acceptances of one message lie at least a window apart, and something is accepted if anything arrives |
| `DuplicateWindow.OneWindow` | main-server/src/mq/index.js:227-237 | copies that arrive within one window are accepted exactly once |
| `DuplicateWindow.SuppressesIff` | main-server/src/mq/index.js:227-237 | over all runs of sender and receiver, exactly one copy is accepted if and only if (copies - 1) timeouts and lags plus the delivery delay fit the window |
| `DuplicateWindow.NotSuppressed` | main-server/src/mq/index.js:227-237 | otherwise there are runs of sender and receiver that accept two copies |
| `DuplicateWindow.EqualWindow` | main-server/src/mq/index.js:232-237 | for a window equal to the total timeout: if and only if the total is a positive multiple of the timeout |
| `DuplicateWindow.DeployedSettings` | mq-server/src/server.js:49-50 | the deployed settings send ten copies and suppress duplicates |
| `DuplicateWindow.IdsAreDistinct` | main-server/src/mq/index.js:229-229 | ids of different senders' messages differ when node ids hold no colon |
| `DuplicateWindow.Inbound.Receive` | main-server/src/mq/index.js:227-237 | accepts exactly when no timer is pending, and then starts one |
| `Scheduler.StepInv` | main-server/src/master-worker-interface/server.js:125-436 | joins, cancels, stops, delegations, broadcasts and results keep the accounting |
| `Scheduler.RunInv` | main-server/src/master-worker-interface/server.js:125-436 | in every run `jobCount` is the number of outstanding calls to that worker object, gone ones included, `stoppingWorkerCount` the number of stopping members, ids are unique |
| `Scheduler.CancelledInv` | main-server/src/master-worker-interface/server.js:144-152 | a cancelled connection removes one member and keeps the counts |
| `Scheduler.JoinsIff` | main-server/src/master-worker-interface/server.js:125-142 | a new id becomes a member, idle and not stopping; a taken one changes nothing |
| `Scheduler.StopsMarks` | main-server/src/master-worker-interface/server.js:238-248 | exactly the member that announces it is stopping is marked, nothing else changes but the count |
| `Scheduler.StoppingGetsNothing` | main-server/src/master-worker-interface/server.js:238-436 | in every run a member that has announced it stays marked, and its jobs never rise but by delegations that name its id |
| `Scheduler.LeavesRemoves` | main-server/src/master-worker-interface/server.js:144-152 | exactly the member with the id is removed, and its outstanding calls stay |
| `Scheduler.DelegatedCalls` | main-server/src/master-worker-interface/server.js:347-384 | a delegation makes one call, under a fresh reference, to the worker chosen, and none when none is |
| `Scheduler.GetWorkerIs` | main-server/src/master-worker-interface/server.js:317-336 | throws exactly when every member is stopping, else returns a least loaded one that is not |
| `Scheduler.LeastLoadedIsFirst` | main-server/src/master-worker-interface/server.js:327-336 | among equals, the first in the list |
| `Scheduler.GetSpecificIs` | main-server/src/master-worker-interface/server.js:337-344 | takes the only member with the id, stopping or not; 'Worker not found' exactly when no member has it and some member is not stopping; 'No worker available' exactly when all are stopping |
| `Scheduler.ReturnUndoesCall` | main-server/src/master-worker-interface/server.js:262-284 | a result undoes its delegation, except for the used reference number |
| `Scheduler.BroadcastReachesEach` | main-server/src/master-worker-interface/server.js:402-435 | one call to each member neither stopping nor excluded, none to others |
| `Scheduler.DelegateKeepsBalance` | main-server/src/master-worker-interface/server.js:327-336 | delegation never widens a spread of loads of one or more |
| `Scheduler.DelegationEvensOut` | main-server/src/master-worker-interface/server.js:327-336 | from any loads, after as many delegations as fill them up to the highest, loads differ by at most one, and so ever after |
| `Scheduler.WorkerServer.AddWorker` | main-server/src/master-worker-interface/server.js:125-142 | a taken id is turned away, otherwise a fresh worker object joins |
| `Scheduler.WorkerServer.ConnectionCancelled` | main-server/src/master-worker-interface/server.js:144-152 | the loop that splices while it runs removes exactly the member with the id |
| `Scheduler.WorkerServer.WorkerStopping` | main-server/src/master-worker-interface/server.js:238-248 | a worker is counted as stopping once |
| `Scheduler.WorkerServer.PickWorker` | main-server/src/master-worker-interface/server.js:317-345 | the scan agrees with the declarative choice |
| `Scheduler.WorkerServer.DelegateToWorker` | main-server/src/master-worker-interface/server.js:347-384 | the whole new state, with a fresh reference; the counter moves even when it throws |
| `Scheduler.WorkerServer.RemoteFnCallToWorkers` | main-server/src/master-worker-interface/server.js:386-436 | the loop makes the calls of the broadcast |
| `Scheduler.WorkerServer.ReturnResult` | main-server/src/master-worker-interface/server.js:262-295 | the whole new state; an unknown reference changes nothing |
| `FanOut.JoinInjective` | main-server/src/core/rp/index.js:216-223 | the joined index string determines the list of indices, order included |
| `Decimals.ReadDecimal` | main-server/src/core/rp/index.js:216-223 | the decimal form reads back as the number |
| `FanOut.ServedIs` | main-server/src/core/rp/index.js:193-228 | the services recorded for a node are those whose lookup lists it, each once |
| `FanOut.ByNodeIs` | main-server/src/core/rp/index.js:193-228 | for every completion order a node's group holds exactly its services, its receiver is that of the first lookup that listed it, and its key spells its services out |
| `FanOut.EachServedOnce` | main-server/src/core/rp/index.js:193-248 | for every order of completion and of visiting, a node occurs in one message, once, with exactly its services, addressed as the first lookup that listed it says, and in none if it has none |
| `FanOut.SendRequestToAS` | main-server/src/core/rp/index.js:193-248 | the loops over the two dictionaries achieve this |
| `AsList.OpenListIff` | main-server/src/core/common/create_request.js:192-282 | without a list: success if and only if enough providers meet the terms, and the list becomes exactly those |
| `AsList.SuppliedListIff` | main-server/src/core/common/create_request.js:200-273 | with a list: success if and only if it is long enough, names no node twice and only providers that meet the terms |
| `AsList.SuppliedListErrors` | main-server/src/core/common/create_request.js:200-273 | which error a supplied list gets, in terms of the nodes offered and qualified |
| `AsList.SameLengthIff` | main-server/src/core/common/create_request.js:223-273 | the comparison of lengths is exact, by pigeonhole |
| `AsList.OkIsGood` | main-server/src/core/common/create_request.js:192-282 | every final list is duplicate-free, of at least `min_as` nodes, all qualified |
| `AsList.DataRequest.Check` | main-server/src/core/common/create_request.js:192-282 | the error reported, and the list written in place only on success |
| `AsList.CheckAsListCondition` | main-server/src/core/common/create_request.js:173-284 | duplicate services are refused before any lookup; else the first failure in completion order is reported, all other requests are still checked and filled in; success makes all lists good |
| `AsList.FirstErrorIsFirst` | main-server/src/core/common/create_request.js:190-283 | the error reported is that of the earliest failure, all checks before it having passed |
| `RequestStatus.GetDetailedRequestStatus` | main-server/src/utils/index.js:412-511 | 'completed' exactly under the stated condition, else what the responses say, undefined included |
| `RequestStatus.CompletedIsPointwise` | main-server/src/utils/index.js:479-503 | with received ≤ signed ≤ min_as, comparing totals is comparing every service |
| `RequestStatus.CompletedIsPointwiseIff` | main-server/src/utils/index.js:479-503 | a request with data services that is 'completed' has every single service complete if and only if these bounds hold |
| `RequestStatus.TotalsCanMislead` | main-server/src/utils/index.js:479-503 | outside these bounds a request can be 'completed' with a service unanswered: a surplus pays for a lack |
| `RequestStatus.EachCompleteSuffices` | main-server/src/utils/index.js:479-503 | the other direction needs no bounds |
| `RequestStatus.CompletedIsFinal` | main-server/src/utils/index.js:412-511 | within the bounds and at most min_idp responses, 'completed' is never left as data only grows |
| `RequestStatus.StaysCompletedIff` | main-server/src/utils/index.js:412-511 | without any bounds, a 'completed' request stays so as data grows if and only if no response is added (without data services), or no answer and no data (with them) |
| `PaddedHash.GrowPadding` | main-server/src/utils/index.js:273-288 | the loop ends with floor(pad / saltLength) whole chunks |
| `PaddedHash.PaddingLength` | main-server/src/utils/index.js:275-288 | n chunks are n times saltLength bytes |
| `PaddedHash.PaddingByte` | main-server/src/utils/index.js:282-287 | each padding byte is a byte of the hash of salt and chunk number |
| `PaddedHash.PadDataHash` | main-server/src/utils/index.js:267-303 | the result has exactly the length of the modulus and encodes (padding, hash) mod the modulus |
| `PaddedHash.SameValue` | main-server/src/utils/index.js:295-300 | that encoding is the only one of this length |
| `PaddedHash.UnchangedIff` | main-server/src/utils/index.js:290-300 | the reduction leaves a full-length padded hash as it is exactly when its number is below the modulus |
| `PaddedHash.DeployedLengths` | main-server/src/config.js:151-151 | salt length 16 fills the 256 bytes of a 2048-bit modulus |
| `WsPool.CallsGoRound` | main-server/src/tendermint/ws_pool.js:112-126 | call j returns the connected client j places on from the current one, counting round |
| `WsPool.RoundRobinIsFair` | main-server/src/tendermint/ws_pool.js:112-126 | any k calls in a row with k connected clients return each exactly once |
| `WsPool.ThrowsIff` | main-server/src/tendermint/ws_pool.js:112-126 | throws exactly when no client is connected |
| `WsPool.Clients.GetNextConnectedIndex` | main-server/src/tendermint/ws_pool.js:79-93 | the two loops find the first connected client going round |
| `WsPool.Clients.GetConnection` | main-server/src/tendermint/ws_pool.js:112-126 | the outcome and the new index |

## Left out

- Network, Redis, gRPC, ZeroMQ, HTTP, files, logging and metrics; SHA-256 is any function to 32 bytes. Failures of cache and chain calls are not modelled.
- BlockGate.RequestProcessManager.HandleMessage: does not model the chain id check, because chain migration (`handleNewChain`, cache re-keying) is left out.
- Delivery.ExactlyOnce: speaks of the in-memory queue. A message refused because the server is stopping survives only in the persistent queue, which is left out.
- Delivery.AcrossRestart: does not speak of a restart between the two operations of one cache update, nor of messages on their way to the queue, whose recovery is left to the persistent queue.
- BlockGate and the master mode: a throw of `delegateToWorker` inside `executeTaskInQueue`, and the code that picks the node id of each message, are not modelled.
- Dispatch.ExecutedOnce: takes the execution of a task as one step from its start to its completion; its result and failure are not modelled.
- Persistent task queue and its restore: `restoreTaskFromPersistentQueue` reads the stored records in another shape than they are written in, so no durability is claimed.
- BlockTracker.TendermintBlocks.ProcessNewBlock: does not model fetching and parsing the transactions of a range, the last-block check, or the transaction counters.
- BlockTracker.TendermintBlocks.SaveLatestBlockHeight: does not model the asynchronous write of the file, only the order assumed of it.
- BlockTracker: heights are natural numbers and a null height is an absent one. The range strings that key `processingBlocks` are modelled by the height of the block, of which each range has its own.
- TaskQueue.RequestQueues.OnTaskExecutionFinished: does not call `onCallbackFinished`; the effect of that call is the gate's step in `Dispatch.CompleteFinishes`.
- TaskQueue: an uncaught TypeError of a stale wake-up is recorded and the run goes on; what the process does with it is not modelled. `getTasks` style monitoring is left out.
- Re-delegation of a lost worker's remaining tasks, `shutdown`, and the streams to the workers.
- Scheduler.WorkerServer.ReturnResult: does not call the stored callback, which runs before the counts change and could delegate again; it is taken to run after.
- MqSend.MQSender.SendMessage: does not model the type checks on the message id, the payload and the callback; all three are typed here.
- MqLogic.Retrier.Retry: divides exactly, where the source divides in floating point; the two agree when the total is a multiple of the timeout.
- `closeAll`, `stopAllRetries`, socket errors and the cap on sockets of the whole process: terminal, or without effect on the tables.
- DuplicateWindow.Inbound.Receive: does not model what happens to an accepted message, the stored timeouts, or their reload at start-up (`initDuplicateInboundMessageTimeout`).
- FanOut.SendRequestToAS: node ids that are names of JavaScript's Object prototype are not modelled; nor are the address lookup before it and the send after it.
- AsList.CheckAsListCondition: takes the lookups as given; a failing lookup is not modelled. `checkIdpListCondition` is a row of guards and would only add easy members.
- RequestStatus.GetDetailedRequestStatus: leaves out the fields that are copied unchanged. `isAllIdpResponsesValid` and `isAllIdpRespondedAndValid` would only add easy members.
- PaddedHash.PadDataHash: is stated for salt lengths 1 to 32 and a modulus above zero. With salt length 0 the source's loop does not end; above 32 the slice is shorter than the salt length. bignum is not part of this model: zero is taken to be one zero byte.
- WsPool.Clients.GetConnection: without any client the source's index becomes NaN; the model reports the TypeError and leaves the index. The connection promise and the connected count are left out.
- Identity operations, callbacks, error tables, configuration and message encoding.
