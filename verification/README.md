# A verified model of the distributed PPO trainer

The repository trains a policy with several workers and one parameter server. A worker pulls the global weights,
collects rollouts in vectorized environments, computes advantages, trains locally, pushes the difference between what
it pulled and what it trained, and waits for an ACK. The server has one handler thread per connection; the last worker
to push fires a round, which averages the pushes, applies them with momentum, acknowledges everybody and sometimes
writes a checkpoint.

The project has five parts.

**The barrier as a protocol** (`Protocol`, `Conservation`, `Barrier`, `BarrierTheorems`, `Acks`, `Alignment`, `Asserts`,
`Replies`, `Stall`, `Progress`, `Liveness`, `Turns`, and with concrete runs `Runs`, `Scenarios`, `Failures`, `Newcomers`). Handlers and clients have program counters and are
interleaved at every lock acquisition and every message: delivery of a request, announcement in the monitor, registration
of the socket, the locked section of `submit` (linearised where it reads the monitor), the update, the reading of the
step, one ACK at a time, the checkpoint test and the write, the copy of the weights, the replies, `mark_dead`,
`unregister`, crashes, and passes of the timeout scan. An `Id` is one connection: no two connections use the same worker
id at the same time, and a worker that comes back after its old handler has unregistered is a fresh `Id`. Deltas have the
names and shapes of the weights.

Four kinds of runs occur in the theorems, and crashes and late joins are always allowed unless a theorem excludes them.
"Synchronous" means `min_ready_workers <= 0`; a run is "quiet" if no pass of the scan turns an ALIVE worker DEAD; it is
"covering", in whatever mode, if every submission that fires finds in the buffer the push of every other worker whose
handler is up; and its rounds "reach the workers that are there" if every submission that fires finds the push of every
other registered worker whose client has not gone, whatever has become of the others. Every quiet synchronous run is
covering (`Barrier.SynchronousCovers`), and the rounds of every covering run reach the workers that are there
(`Acks.CoveringReaches`). What a round's order, base and history are is stated for covering runs; which replies clients
get, and when they are blocked, for runs whose rounds reach the workers that are there. So the theorems say what a
quorum, a crash or a demotion has to keep to for them to hold.

**The server's objects** (`Heartbeat`, `Aggregation`, `Aggregators`, `Store`, `WeightStores`): the monitor, the aggregator
and the weight store as classes updated in place by one thread at a time, each method tied to the value functions that the
protocol uses for its atomic steps.

**Whole runs of updates** (`Federated`, `Momentum`, `Series`, `Sums`): federated averaging, momentum and resuming.

**The worker** (`VectorizedEnvs`, `Episodes`, `Collecting`, `Rollouts`, `Gae`, `Minibatches`, `NetworkUtils`): auto-reset,
episode returns, the rollout buffer, generalised advantage estimation, minibatches and the weight dictionaries.

**The wire** (`Framing`, `Clients`): length-prefixed frames over a stream cut into pieces anywhere, and the client on top.

Numbers are mathematical reals, arrays are sequences of their entries in flat order.

Where the code does not do what its own documentation says, the code is modelled and the difference is proved:

- server/heartbeat_monitor.py:4-5 says that a crashed worker cannot block training forever. The barrier is tested only
  inside `submit`, so it can: `Failures.CrashBlocksSurvivor` gives such a run for every synchronous configuration.
  `Stall.BlockedExactly` says exactly in which states, in every mode, with crashes and demotion, the waiting workers are
  blocked, `Stall.StalledExactly` what that is in quiet synchronous runs, and `Stall.StallCause` which steps lead there.
- server/weight_store.py:42-43 says that with server_lr = 1 and momentum = 0 an update gives the mean of the workers'
  weights. A worker that has just joined may have pulled before the last update: `Newcomers.MeanIsMissed` gives a run in
  which the mean is missed, for every synchronous configuration and every entry of the weights.
  `Federated.FederatedAveraging` states the mean with that drift, and `Federated.MeanOfWorkersExactly` says that the plain
  mean holds if and only if the drift averages to zero.
- server/weight_store.py:4-5 mentions learning rate scheduling; there is none in the store.
- ACKs go to all registered sockets, not to the contributors. `Acks.RoutedExactly` says exactly, in every mode, when that
  is harmless: if every submission that fires finds the push of every other registered worker whose client is there.
  Then no assert in a worker ever fails (`Asserts.NoAssertFails`). With any quorum, and with a timeout demotion, a round
  can leave such a worker out; `Asserts.LeftOutFailsExactly` says exactly which workers' asserts can then fail before the
  next submission, and `Failures.QuorumBreaksClient` and `Failures.DemotionBreaksClient` give runs in which one does, in a
  worker that does nothing wrong. The quorum runs need one worker more than the quorum. In any run whatever an assert
  fails only on an ACK (`Replies.FailsExactly`).
- Counting the pushes of two workers from the moment both have joined, the difference can be two, because one may already
  have a push in the buffer at that moment (`Failures.TwoApart`); `BarrierTheorems.LockstepBetween` is the exact
  difference, and counted from each worker's own joining round it is at most one (`BarrierTheorems.Lockstep`).

## Model

| member | source | states |
|---|---|---|
| Conservation.PushesConserved | server/connection_handler.py:45-86 | in every run of any mode, with crashes and demotion, the n-th push of a worker is in exactly one place: averaged in exactly one round, buffered, overwritten by a later push of the same worker, or dropped because the worker left |
| Conservation.RoundsConserved | server/connection_handler.py:71-87 | every round averages at least max(1, min_ready_workers) workers, is applied at most once, none is lost, and the step is the start step plus the applied rounds |
| Conservation.ProbesDoNotCount | server/connection_handler.py:113-137 | norms and buffer have the same keys, all of them registered; a connection that has not sent a worker_id is neither registered nor ALIVE |
| Conservation.KeptStep | server/connection_handler.py:42-172 | every step of any kind in any mode keeps the four invariants about sockets, store history, rounds and pushes |
| Conservation.FiredSize | server/connection_handler.py:61-84 | a submission that fires takes the submitter's push and at least min_ready_workers pushes |
| Conservation.HistorySteps | server/weight_store.py:61-61 | the k-th store of the history carries the start step plus k |
| Barrier.NoOtherFires | server/connection_handler.py:57-96 | while a round is between the release of the buffer lock and the return from `submit`, no submission of a covering run can fire, because the handler that fired it is up and absent from the cleared buffer |
| Barrier.FireTakesAll | server/connection_handler.py:71-84 | without demotion a synchronous submission that fires finds the push of every other worker whose handler is up in the buffer |
| Barrier.SynchronousCovers | server/connection_handler.py:61-84 | so every synchronous run without timeout demotion is a covering run, and keeps announced workers ALIVE |
| Barrier.BarrierStep | server/connection_handler.py:42-172 | every step of a covering run keeps the barrier's invariant, in any mode |
| BarrierTheorems.OneRoundAtATime | server/connection_handler.py:57-96 | in every covering run at most one handler is after firing and inside `submit`, rounds apply in firing order, and every ACK carries the step right after its own round and reaches a contributor of it |
| BarrierTheorems.Staleness | server/connection_handler.py:130-146 | every averaged delta was computed from the weights standing right before its round; a worker's first one from those or from the ones one update earlier, never older |
| BarrierTheorems.RoundsInOrder | server/connection_handler.py:71-87 | the store's history is one update per fired round, in firing order |
| BarrierTheorems.RepliesAligned | worker/client.py:27-57 | in every covering run a connected client has at most one request and one reply outstanding, the reply has the type its assert wants, and its submissions are its ACKs plus the one buffered or being acknowledged |
| Asserts.NoAssertFails | worker/client.py:27-57 | in a run of any mode, with crashes and demotion, whose rounds reach the workers that are there, no assert of a client fails and no push is overwritten in the buffer |
| Asserts.FailedStops | worker/client.py:27-57 | in every run a worker whose assert has failed is gone and neither sends nor reads any more |
| Replies.FailsExactly | worker/client.py:27-57 | in every run of any mode a step makes an assert of a worker fail if and only if that worker reads an ACK while it waits for weights or for a heartbeat's answer |
| Replies.OnlyAcksStray | server/connection_handler.py:140-157 | so weights and heartbeat answers only ever reach a worker that waits for them, however ACKs go astray |
| Asserts.RepliesStayAligned | worker/client.py:27-57 | in such a run a client that is there has at most one request and one reply under way, the reply is the one it awaits, its submissions are its ACKs plus the one buffered or owed, and at most one handler owes it one |
| Asserts.SynchronousReaches | server/connection_handler.py:61-93 | every quiet synchronous run is of this kind |
| Asserts.LeftOutFailsExactly | worker/client.py:27-57 | after the first round that leaves out a worker that is there, an assert of that worker can fail before the next submission if and only if the worker was between requests, awaiting a heartbeat's answer, awaiting weights not yet sent, or awaiting an ACK already sent or owed |
| Alignment.OrderlyStep | server/connection_handler.py:42-172 | every step of any mode that reaches the workers that are there keeps requests, replies and owed ACKs in order for them, whatever happens to the others |
| BarrierTheorems.Lockstep | server/connection_handler.py:57-84 | in a covering run the pushes of a worker since it joined are the rounds fired since, plus one exactly while its push is buffered; so two workers differ by at most one |
| BarrierTheorems.LockstepExactly | server/connection_handler.py:57-84 | a run of any mode keeps that lockstep at every point if and only if it is covering |
| BarrierTheorems.LockstepBetween | server/connection_handler.py:57-84 | between any two moments at which two workers are connected their numbers of pushes grow by amounts that differ exactly by the change in what they have buffered |
| BarrierTheorems.JoinedStays | server/connection_handler.py:130-137 | a connection registers once and keeps the round it joined before |
| BarrierTheorems.Checkpoints | server/connection_handler.py:98-110 | the k-th automatic checkpoint of a covering run is exactly the store after k intervals of updates; outside a round fewer than an interval of updates are unsaved |
| Stall.SubmitLeavesNoStall | server/connection_handler.py:71-84 | a synchronous submission leaves the buffer empty or some ALIVE registered worker to wait for |
| Stall.SubmitFires | server/connection_handler.py:61-84 | a synchronous submission fires if and only if nobody but the submitter is ALIVE, registered and without a push, and then takes every buffered push; so the next submission releases a stalled barrier |
| Stall.QuorumFires | server/connection_handler.py:61-84 | with min_ready_workers = n > 0 a submission fires if and only if n of the ALIVE workers have a push, whoever else is missing, and takes every buffered push |
| Stall.StallCause | server/connection_handler.py:45-49 | a step leaves pushes waiting for nobody if and only if it is a mark_dead or a demoting scan that removes everybody still waited for; `unregister` never does |
| Stall.BlockedExactly | server/connection_handler.py:51-96 | in a run of any mode, with crashes and demotion, whose rounds reach the workers that are there, when every client still there waits, no handler or client can step towards a reply if and only if each of them has its push in the buffer, is registered, and every other connection has been cleaned up; then only connecting, crashing and scanning can still happen |
| Stall.StalledExactly | server/connection_handler.py:51-96 | in quiet synchronous runs, crashes allowed, that is if and only if the barrier is stalled (pushes waiting for nobody) and every connection settled |
| Stall.NoDeadlock | server/connection_handler.py:51-96 | so in quiet synchronous runs without departures there is always such a step |
| Progress.WaitersAnswered | server/connection_handler.py:51-96 | from any moment at which every client still there waits, in a run of any mode whose rounds reach the workers that are there, at most n (18 + 4 n) such steps can be taken for n connections, in any order, and when none is left some waiting client has its reply or all are blocked as above |
| Progress.SurvivorsAnswered | server/connection_handler.py:51-96 | in quiet synchronous runs with crashes: some waiting client has its reply or the barrier is stalled |
| Progress.StayersAnswered | server/connection_handler.py:51-96 | and while nobody departs some waiting client has its reply |
| Progress.AnsweringEnds | server/connection_handler.py:113-172 | in every mode a run of handler steps and client reads is no longer than the work on the way at its start |
| Liveness.AliveExactly | server/heartbeat_monitor.py:27-56 | at the end of a run of any mode a worker is ALIVE if and only if the server has heard from it (its first message or a heartbeat) and since the last time, at u, its handler has not marked it dead and no scan has come later than u plus the timeout |
| Liveness.BeatKeepsAlive | server/connection_handler.py:148-149 | from the step in which the server hears from a worker on, until it hears from it again: ALIVE exactly as long as neither of the two has happened |
| Liveness.BeatThenScan | server/connection_handler.py:130-149 | a scan right after the first message or after a heartbeat at u leaves the worker ALIVE if and only if it comes no later than u plus the timeout |
| Turns.HeartbeatAnswered | worker/client.py:47-57 | a worker between two requests can always send a heartbeat and get its answer, and nothing comes of it but that the server has heard from it at that time |
| Turns.CleansUp | server/connection_handler.py:162-172 | a handler waiting for a message or sending an answer whose client has gone can always mark it dead and unregister it; then the worker is not ALIVE, not registered and has no push, and nothing has changed for the others |
| Stall.BusyHandlerSteps | server/connection_handler.py:113-172 | a handler that is not waiting for a message always has a step of its own to take |
| Stall.QuietClientBuffered | server/connection_handler.py:51-78 | if nothing can move towards a reply, every waiting client has its push in the buffer |
| Newcomers.NewcomerIsStale | server/connection_handler.py:130-143 | the staleness bound of one update is met under every synchronous configuration: the first delta of a worker that joins between the firing of a round and its update is averaged one update late |
| Newcomers.MeanIsMissed | server/weight_store.py:42-43 | and then, with server_lr = 1 and momentum = 0, the update is not the mean of the contributors' local weights, for any entry of the weights |
| Failures.CrashBlocksSurvivor | server/heartbeat_monitor.py:3-5 | under every synchronous configuration a crash can leave the only remaining worker waiting although its push satisfies the barrier, and no step of the server or of a client can answer it |
| Acks.RoutedExactly | server/connection_handler.py:80-93 | in a run of any mode, with crashes and demotion, no client can ever get an ACK of a round it took no part in if and only if every submission that fired found the push of every other registered worker whose client was there |
| Acks.LeftOutMisled | server/connection_handler.py:80-93 | a round that leaves out such a worker goes on to send it its ACK |
| Acks.LeftOutFails | worker/client.py:27-57 | and from any state at all, if that worker awaits weights or a heartbeat's answer with nothing to read, its assert can fail |
| Acks.AcksStep | server/connection_handler.py:80-93 | every other step keeps ACKs, sent and still to be sent, with their contributors |
| Failures.QuorumBreaksClient | worker/client.py:27-31 | with any quorum of at least one a run without scans sends an ACK to a worker that took no part in the round, and a run ends with a failed assert in a worker that only follows the protocol |
| Failures.DemotionBreaksClient | server/heartbeat_monitor.py:49-56 | under every synchronous configuration runs with exactly one scan do the same |
| Failures.TwoApart | server/connection_handler.py:57-84 | under every synchronous configuration the pushes of two workers since both have joined can be two apart |
| Heartbeat.ScanKeepsRecent | server/heartbeat_monitor.py:49-56 | after a scan a worker is ALIVE if and only if it was and has been seen within the timeout |
| Heartbeat.BeatThenScan | server/heartbeat_monitor.py:32-56 | on the class: after a beat at u and a scan the worker is ALIVE if and only if the scan came within the timeout |
| Heartbeat.ServerMonitor | server/heartbeat_monitor.py:18-25 | the monitor the server creates scans every 10 seconds with a timeout of 30, and knows nobody |
| Heartbeat.HeartbeatMonitor.Register | server/heartbeat_monitor.py:27-30 | in the two dictionaries: last_seen of the worker is now and its status ALIVE, nobody else changes |
| Heartbeat.HeartbeatMonitor.Beat | server/heartbeat_monitor.py:32-35 | the same |
| Heartbeat.HeartbeatMonitor.MarkDead | server/heartbeat_monitor.py:37-39 | only this worker's status changes, to DEAD |
| Heartbeat.HeartbeatMonitor.GetAlive | server/heartbeat_monitor.py:41-43 | exactly the workers whose status is ALIVE |
| Heartbeat.HeartbeatMonitor.Scan | server/heartbeat_monitor.py:49-56 | the loop over last_seen demotes exactly the overdue ALIVE workers |
| Aggregators.GradientAggregator.RegisterSocket | server/connection_handler.py:41-43 | adds or replaces one socket |
| Aggregators.GradientAggregator.Unregister | server/connection_handler.py:45-49 | the worker's socket, push and norm are gone, all others stay |
| Aggregators.GradientAggregator.ShouldApply | server/connection_handler.py:61-75 | without a configuration or with min_ready_workers <= 0: no ALIVE registered worker lacks a push; with min_ready_workers = n > 0: n ALIVE workers have one |
| Aggregators.GradientAggregator.SubmitLocked | server/connection_handler.py:57-84 | buffers the push and its norm, and if the barrier is met as configured takes the whole buffer and all sockets and leaves both dictionaries empty, otherwise returns early; the same as the protocol's atomic step |
| Aggregators.GradientAggregator.SendAcks | server/connection_handler.py:89-93 | every registered socket that is not broken is sent the step exactly once, a broken one nothing |
| Aggregators.GradientAggregator.MaybeCheckpoint | server/connection_handler.py:98-110 | saves the current store if and only if an interval of steps has passed since the last save |
| Aggregators.GradientAggregator.Submit | server/connection_handler.py:51-96 | uninterrupted: it fires if and only if the barrier is met as configured, counting this push; if not, only the push and its norm are buffered; if so, the buffers are empty, the store is updated with the whole batch, each good socket gets one ACK with the step after the update, and a due checkpoint is of that very state |
| Aggregators.GradientAggregator.Finish | server/connection_handler.py:86-96 | the part after the buffer lock: update, ACKs, due checkpoint |
| WeightStores.WeightStore.constructor | server/weight_store.py:18-25 | the given weights, zero momentum buffers, step 0 |
| WeightStores.WeightStore.AverageOf | server/weight_store.py:52-55 | the in-place sum over the list, divided by its length, is the mean of every entry |
| WeightStores.ListMeanIsMean | server/weight_store.py:52-55 | the mean over the list does not depend on the order in which the dictionary lists the workers |
| WeightStores.WeightStore.ApplyGradients | server/weight_store.py:36-62 | the loop over the names gives v = momentum * v + mean and w = w - lr * v on every entry, and step + 1 |
| WeightStores.SaveThenLoad | server/weight_store.py:64-98 | a store that loads the file is in the state the other had when it saved, whatever that one did afterwards |
| WeightStores.WeightStore.SaveCheckpoint | server/weight_store.py:64-77 | each field of the file is the field of the store it is named after |
| WeightStores.WeightStore.LoadCheckpoint | server/weight_store.py:79-98 | sets weights, momentum buffers and step from the fields of the file of these names, and not server_lr and momentum; without a file nothing changes |
| Store.ApplyEntry | server/weight_store.py:57-59 | one entry of an update |
| Federated.FederatedAveraging | server/weight_store.py:36-62 | with server_lr = 1 and momentum = 0 each round of a covering run makes every entry the mean over the contributors of their local weights moved by what the global weights moved since their pull; the plain mean if nobody is a newcomer |
| Federated.MeanOfWorkersExactly | server/weight_store.py:42-43 | it is the plain mean of the workers' weights if and only if the drift since their pulls averages to zero |
| Federated.UpdateIsMean | network/utils.py:42-45 | one update with pseudo-gradients is a mean of rebased local weights |
| Federated.EntryFollows | server/weight_store.py:57-61 | in any mode one entry of the store's history is gradient descent with momentum on the mean deltas |
| Momentum.VelocityUnrolled | server/weight_store.py:57-58 | v_T = mu^T v_0 + sum of mu^(T-1-s) g_s |
| Momentum.WeightsUnrolled | server/weight_store.py:57-59 | w_T = w_0 - lr (mu (1 + ... + mu^(T-1)) v_0 + sum of (1 + ... + mu^(T-1-s)) g_s) |
| Momentum.VelocityBounded | config.py:117-117 | with 0 <= mu < 1 and deltas within G the velocity stays within G / (1 - mu) |
| Momentum.WeightsBounded | config.py:116-117 | T updates move a weight by at most T lr G / (1 - mu) |
| Federated.MomentumUnrolled | server/weight_store.py:47-61 | both closed forms for the store after any number of updates of any run in any mode, from a fresh or a loaded start |
| Federated.MomentumBounded | server/weight_store.py:47-61 | both bounds for every entry of a fresh store over any run |
| Federated.ResumedRun | server/parameter_server.py:45-51 | a server that has loaded a checkpoint of a covering run and averages the deltas of that run's later rounds, under the same server_lr and momentum, goes through exactly the uninterrupted run's weights, velocities and steps, whatever its quorum, interval and interleaving |
| Federated.ResumeReplays | server/weight_store.py:64-98 | replaying the later rounds on any checkpoint of a covering run gives exactly the recorded states |
| Framing.UnpackPack | comms/protocol.py:33-33 | the four header bytes give the length back |
| Framing.PackUnpack | comms/protocol.py:33-33 | and every four bytes are the header of one length |
| Framing.Socket.RecvExactly | comms/protocol.py:36-44 | exactly the next n bytes however they are cut, or ConnectionClosed if there are fewer; the loop terminates |
| Framing.Socket.RecvMessage | comms/protocol.py:53-58 | reads one frame off the stream and nothing beyond it |
| Framing.Socket.SendMessage | comms/protocol.py:47-50 | appends the payload behind four bytes that give its length, most significant byte first; a payload of 2^32 bytes or more raises and sends nothing |
| Framing.ParseFrame | comms/protocol.py:47-58 | one frame in front of anything is read back exactly and the rest is untouched |
| Framing.ParsedIsFrame | comms/protocol.py:53-58 | a message is only returned for a complete frame |
| Framing.CutFrameRaises | comms/protocol.py:36-44 | a stream ending anywhere inside a frame raises |
| Framing.ParseFrames | comms/protocol.py:47-58 | any list of payloads sent one after the other is received exactly, and what follows is untouched |
| Framing.CutStream | comms/protocol.py:36-58 | complete frames before a cut one are still received, then ConnectionClosed |
| Framing.Exchange | comms/protocol.py:36-58 | the round trip through a socket for every way of cutting the stream |
| Clients.ParameterServerClient.Pull | worker/client.py:27-31 | sends one pull, and gives the weights, a failed assert or a closed connection according to the next frame only |
| Clients.ParameterServerClient.Push | worker/client.py:33-45 | the same for a push and its ACK |
| Clients.ParameterServerClient.Beat | worker/client.py:47-57 | the same for a heartbeat |
| Clients.ParameterServerClient.Turn | worker/worker.py:191-232 | push, perhaps heartbeat, pull: with aligned replies on the stream the turn succeeds, gets the new weights and leaves the stream where the next reply starts |
| NetworkUtils.SerializeWeights | network/utils.py:13-20 | exactly the keys "actor." + k and "critic." + k, each with its network's entry |
| NetworkUtils.DeserializeWeights | network/utils.py:23-36 | each network gets exactly the entries under "actor." and "critic.", without the prefix |
| NetworkUtils.RoundTrip | network/utils.py:13-36 | what was serialized loads back exactly |
| NetworkUtils.PartsDetermine | network/utils.py:23-36 | and a flat dictionary is determined by the two networks |
| NetworkUtils.WeightDelta | network/utils.py:39-48 | under "actor." + k and "critic." + k lies what was pulled minus what was trained, entry by entry |
| VectorizedEnvs.VectorizedEnv.Reset | env/vectorized.py:34-41 | every environment starts from a reset |
| VectorizedEnvs.VectorizedEnv.Step | env/vectorized.py:43-80 | every environment takes one step of its own; reward and flag (1 or 0) are those of the step; state and observation are the step's if it was not done, and otherwise those of a reset after it |
| Episodes.EpisodeIsRun | env/vectorized.py:60-73 | between two dones the vectorized environment pays and shows what the environment on its own would |
| Episodes.StartsFresh | env/vectorized.py:70-73 | the state after a done is one fresh from a reset, and the observation shown with it is the one of that same reset |
| Episodes.Accounted | worker/worker.py:129-136 | for one environment everything earned is in the finished returns or in the running one |
| Episodes.FinishedIsEpisode | worker/worker.py:132-136 | each finished return is the reward of the steps from one done up to the next |
| Collecting.Collector.Credit | worker/worker.py:129-136 | credits the rewards and closes exactly the episodes that ended |
| Collecting.Collector.Step | worker/worker.py:116-138 | one timestep: environments, buffer and episode books advance together, the row stored is the current observations and the decision, and the observations kept are the new ones |
| Collecting.Collector.Collect | worker/worker.py:85-138 | after a rollout each column of the buffer holds exactly the rewards and flags of the steps that environment took, the flags being 0 or 1; and row t holds, for every environment, the observation it had shown before its t-th step and the action, value estimate and log probability decided on it |
| Collecting.ShotsHold | worker/worker.py:120-127 | the same array by array: states, actions, values and log_probs at (t, e) |
| Collecting.Collector.FlagsStored | env/vectorized.py:75-80 | a stored flag is 1 exactly where the step ended an episode |
| Collecting.Collector.Trim | worker/worker.py:214-214 | keeps the last twenty returns |
| Collecting.Accounting | worker/worker.py:79-138 | total reward stepped = total of all returns ever appended + total of the running returns |
| Collecting.Collector.ReturnsAccounted | worker/worker.py:79-138 | that holds at every point of a run of any number of rollouts |
| Collecting.Collector.AppendedIsRun | worker/worker.py:132-136 | every appended return is what one environment, on its own and fresh from a reset whose observation was shown, pays for the actions of one episode |
| Rollouts.RolloutBuffer.constructor | worker/rollout_buffer.py:24-34 | an empty buffer of the given size |
| Rollouts.RolloutBuffer.Add | worker/rollout_buffer.py:36-49 | appends one step to every column and changes no earlier one; a full buffer raises and stores nothing |
| Rollouts.RolloutBuffer.ComputeGae | worker/rollout_buffer.py:51-69 | the loop over all environments stores in every column the advantages and returns of that column alone; a wrong number of bootstrap values raises |
| Rollouts.NothingCrosses | worker/rollout_buffer.py:58-69 | of two computed buffers, an environment with the same steps up to f in both has the same advantages and returns there, if f ended an episode or is the last step with the same bootstrap value, whatever the other environments hold and whatever follows f |
| Rollouts.CarriesBack | worker/rollout_buffer.py:61-66 | one pass of the loop takes the advantages of step t + 1 to those of step t |
| Gae.AdvantageIsMixture | worker/rollout_buffer.py:61-66 | the advantage is the lambda mixture of all k-step estimators, masked by the done flags |
| Gae.AdvantageIsResidualSum | worker/rollout_buffer.py:61-66 | and the masked sum of the TD residuals discounted by gamma * lambda |
| Gae.ReturnStep | worker/rollout_buffer.py:61-66 | the k-step returns satisfy the one-step recursion |
| Gae.TargetStep | worker/rollout_buffer.py:61-69 | R_t = r_t + gamma (1 - d_t) ((1 - lambda) V_(t+1) + lambda R_(t+1)) |
| Gae.TargetIsReturn | worker/rollout_buffer.py:61-69 | with lambda = 1 it is the return to the end of the rollout |
| Gae.TargetToDone | worker/rollout_buffer.py:61-69 | with lambda = 1 and a done ahead: the discounted rewards up to and including the first done, no value estimate |
| Gae.TargetToEnd | worker/rollout_buffer.py:61-69 | with lambda = 1 and no done ahead: all rewards plus the discounted bootstrap value |
| Gae.DoneSeparates | worker/rollout_buffer.py:58-69 | columns that agree up to a done have the same advantages and returns there, whatever follows |
| Gae.AdvantageBounded | config.py:109-110 | with rewards within R and values within M every advantage is within (R + (1 + gamma) M) / (1 - gamma lambda) |
| Rollouts.FlattenAt | worker/rollout_buffer.py:76-80 | flattening is row major: step t of environment e lands at t * envs + e |
| Rollouts.RolloutBuffer.GetMinibatches | worker/rollout_buffer.py:71-93 | the batches are the consecutive slices of the permutation; a size of zero raises, a negative one gives none |
| Minibatches.CutBatches | worker/rollout_buffer.py:84-93 | the slicing loop, with all five fields picked by the same slice |
| Rollouts.RolloutBuffer.Partition | worker/rollout_buffer.py:82-93 | in one epoch every step of every environment occurs exactly once, with all five fields of that step; its advantage times (std + 1e-8) is the stored advantage minus the mean of all stored ones |
| Rollouts.RolloutBuffer.EpochTotals | worker/rollout_buffer.py:82-93 | there are ceil(n / size) batches, and the normalised advantages of an epoch sum to zero |
| Minibatches.EachTransitionOnce | worker/rollout_buffer.py:84-93 | the same partition for flat fields and any permutation |
| Minibatches.BatchSizes | worker/rollout_buffer.py:85-86 | no batch is empty and all but the last are full |
| Minibatches.CountIsCeiling | worker/rollout_buffer.py:85-85 | the number of starts of range(0, n, size) is n / size rounded up |
| Minibatches.EpochSum | worker/rollout_buffer.py:84-93 | the advantages handed out in an epoch add up to those of the rollout, whatever the permutation |
| Minibatches.NormalisedAt | worker/rollout_buffer.py:82-82 | entry by entry, times (std + 1e-8) is the advantage minus the mean |
| Minibatches.NormalisedSpread | worker/rollout_buffer.py:82-82 | divided so by their standard deviation, n advantages have squares that add up to n std^2 / (std + 1e-8)^2 |
| Minibatches.NormalisedSumsToZero | worker/rollout_buffer.py:82-82 | normalised advantages sum to zero, for every deviation |

## Left out

- IEEE rounding and float32 conversion: arithmetic is over reals; the standard deviation of the advantages is a given number
  (what is said of it holds for every number, and `Minibatches.NormalisedSpread` for the deviation), and so are the norms
  of the pushes.
- Torch, the networks, autograd, Adam, gradient clipping and the PPO loss: local training is an arbitrary choice of new
  weights of the same shape; actions, values and log probabilities of a rollout are arbitrary.
- Pickle and numpy conversion: the client assumes an encoding that can be undone and is shorter than 2^32 bytes.
- Environment physics: an environment is an arbitrary pair of step and reset.
- Clocks, the shuffling generator and the order in which a dictionary lists its entries are parameters or arbitrary.
- Two connections using the same worker id at the same time, messages without a worker_id and of unknown type.
- Deltas that lack a name or have another shape, for which `apply_gradients` raises in the middle of its loop.
- The handler's receive loop is not a method: its steps are those of the protocol, since other threads run between them.
- The protocol bounds neither the number of heartbeats between an ACK and the next pull nor the time between two messages; a
  run may therefore contain more heartbeats than the interval in the worker allows.
- A send on the socket of a crashed client is accepted and never read, or fails; partial sends are not modelled.
- A protocol run always has a configuration; the missing one is modelled in the aggregator class only.
- Missing directories, a failing disk and corrupt checkpoint files: a checkpoint is a value.
- The final checkpoint written at shutdown, metrics, logging, the dashboard, launching processes and connection retries.
- `state_dict` loading errors and `serialize_gradients`, which would only repeat the prefixing.
- After a round has left out a worker that is there: how often ACKs go astray, which asserts can fail in later rounds, and
  when checkpoints are written with a quorum. Stated is exactly when that first happens and what it can lead to before
  the next submission.
- Learning-rate schedule and configuration asserts: short facts, used as preconditions where needed.
