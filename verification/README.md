# systemd-transition-exporter: a verified model

The exporter watches systemd units, turns what it sees into an ordered stream of UP and DOWN transitions,
keeps the stream in a write-ahead log, and delivers it, together with availability samples, to Prometheus
Remote-Write receivers. This project models the parts that have to stay right under failures and crashes, and
proves what they promise for every input, every run and every interleaving.

| file | what it models |
|---|---|
| `Types.dfy`, `Sorting.dfy`, `Runs.dfy` | the shared records; Go's stable sort and what is known of it; runs of any state machine |
| `PlainCodec.dfy` | a small record encoding that meets what the log asks of one |
| `LogBytes.dfy`, `LogRows.dfy` | `events.jsonl` at byte level: reading, repairing a torn tail, surviving a crash; the file as rows |
| `Wal.dfy`, `WalCalls.dfy` | the write-ahead log: append, deferral on a full disk, lazy state file, reopening; every I/O call may fail; what a call comes to, by how its I/O ends |
| `Sender.dfy`, `SenderReplies.dfy` | retries, batches and the durable checkpoint of one receiver; what a delivery comes to, by the replies |
| `Pipeline.dfy` | engine counter, log, workers and senders together: appends, enqueues, flushes, crashes and restarts |
| `TargetProgress.dfy`, `PipelineRuns.dfy` | one target over the events given to it; every run of the whole |
| `PipelineReplies.dfy` | what a target acknowledges, drops and keeps, by the replies, in every run |
| `PipelineGaps.dfy` | runs in which events are passed over |
| `DurableLog.dfy`, `JointRuns.dfy` | the write-ahead log refines the durable log the pipeline is built on, step by step and over whole runs |
| `Engine.dfy`, `EngineOrder.dfy`, `EngineReplay.dfy` | the transition engine, the order of its stream over all entry points, and what replaying the stream brings back |
| `EngineHistory.dfy` | what the stream tells of a unit's real history |
| `ProbeGating.dfy`, `ProbeRuns.dfy`, `ProbeLate.dfy` | UP transitions withheld until a probe answers; what every such stream tells |
| `SlotGrid.dfy`, `SlotScheduler.dfy` | the slot grid and the timer that samples its edges |
| `Backfill.dfy` | the state timeline of a recovered slot |
| `Backlog.dfy`, `Delivery.dfy`, `DeliveryRuns.dfy`, `DeliveryAnswers.dfy` | the sample backlog compacted in place, the worker, every run of it, and what it does by how its requests end |
| `ProbeRegistry.dfy` | Start, Stop and finish of probe runs, interleaved in any way |

Each stateful part is a class whose methods follow the program's and are proved equal to a function on its
abstract state; the theorems are about those functions. The environment (I/O results, HTTP answers, clocks, the
journal) enters as parameters. `dafny verify dfyconfig.toml` checks everything.

## What is proved

* **The log loses, repeats or reorders no accepted record**, whatever fails, if and only if no failing write leaves
  bytes that could not be taken back (`Wal.RunConservesIff`, `Wal.RunConserves`). Durable records are safe even then:
  over any run with any faults, killed processes and power losses, what is durable only grows
  (`Wal.DurablePrefixGrows`), and a crash at any byte leaves exactly the events whose whole line survived
  (`LogBytes.CrashRepairReopen`). How a call ends follows from the first of its I/O calls that fails
  (`WalCalls.AppendComesTo`, `WalCalls.SaveComesTo`), and one append on a working disk makes durable all that was held
  (`WalCalls.AppendHeals`).
* **At-least-once delivery across crashes**, for each target on its own: what it did not refuse is settled once a
  checkpoint covers it that a power loss might reveal (`PipelineRuns.AtLeastOnce`); a restart sends again exactly what
  was found above the checkpoint it reads (`PipelineRuns.RestartResends`, `PipelineRuns.RefusedFateIff`); a refused
  event that every such checkpoint has passed is never settled (`PipelineRuns.PassedOverForGood`). **No sequence is
  reused** (`PipelineRuns.NoSequenceReuse`) as long as each crash is safe: it takes no event that a checkpoint covers
  and the saved states do not, which is exactly when the restored counter is not behind (`PipelineRuns.HarmlessIff`).
* **Nothing is acknowledged or dropped without a reply that says so**: in every run, what counts as acknowledged is
  accounted for by 2xx replies, a batch to each (`PipelineReplies.AcksAreBacked`), and an event is dropped exactly when a
  batch with it met a 4xx (`PipelineReplies.DroppedIff`); a request is sent exactly when one of its first three replies is
  a 2xx (`SenderReplies.PostIff`).
* **From bytes to receivers**: with fsync on or off, every append, successful or not, and every crash is a step of the
  protocol (`DurableLog.AppendRefines`, `DurableLog.CrashRefines`), and any interleaving of log calls, worker steps and
  crashes is a run of it (`JointRuns.RunRefines`), so every event the log holds was delivered, dropped, waits in the worker,
  or is one of those the target was not given when they were emitted, and once a checkpoint covers it, it no longer just
  waits (`JointRuns.HeldIsDelivered`). The stream goes on in order from the bytes a crash leaves
  to the events of the next process (`DurableLog.StreamGoesOnAfterCrash`).
* **The engine tells the truth**: the events it emits are a subsequence of the real history
  (`EngineHistory.StreamIsSubsequence`), all of it if and only if no more than two transitions fall between looks
  (`EngineHistory.CompleteIff`), in order over every entry point (`EngineOrder.EventOrder`) and across restarts
  (`EngineOrder.StreamGoesOn`). Replaying the emitted stream brings back the counter and the last event of every service
  (`EngineReplay.ReplayRebuilds`). For a probed unit, in any run every DOWN is a real stop and each activation yields one
  UP at most (`ProbeRuns.DownIsReal`, `ProbeRuns.OneUpPerActivation`). The engine tracks the unit if and only if no
  awaited answer is stamped after a stop not seen yet (`ProbeGating.TracksIff`); as long as it does, the stream
  alternates if and only if no look misses a whole activation (`ProbeGating.GatedAlternatesIff`), and the exact
  condition for any answers is `ProbeLate.AlternatesIff`.
* **Samples never overtake transitions, repeat or leave the current slot**, and none is lost other than by a
  permanent rejection or by 10000 newer ones in the backlog (`DeliveryRuns.EveryRun`). After an outage one flush, one
  retry and one heartbeat bring the receiver up to date (`DeliveryAnswers.CatchesUp`).
* **Every slot edge is offered once and in order**, however late the timer, and exactly those older than the newest
  four unsent ones are dropped (`SlotScheduler.SlotTimer.Fire`, `SlotScheduler.DroppedIff`). The fill of a recovered
  slot shows the real state at every one of its timestamps (`Backfill.FillTellsTruth`).
* **At most one probe loop per service** in every interleaving (`ProbeRegistry.OneLoopPerService`).

## Where the program falls short

* The configuration admits the windows 7m30s and 6m40s (internal/config/config.go:277-282), which are not whole
  minutes. `SlotStart` ignores seconds, so an instant can lie outside the slot it is assigned to, contrary to its
  comment, and the scheduler stops advancing: `SlotGrid.ContainmentIff`, `SlotGrid.ConfiguredWindows`,
  `SlotGrid.OpeningsAdvanceIff`, `SlotScheduler.EndsIff`.
* The log ignores a failing truncate. A write that fails, leaves bytes and is not rolled back tears the file or stores
  a record too many; nothing else breaks conservation: `Wal.ConservesIff`, `Wal.RunConservesIff`,
  `Wal.FailedRollbackDuplicates`.
* Opening the log syncs nothing. After a process was killed with a record unsynced, saving a state leaves the log
  writable although that record is not durable: `Wal.KilledIsTightIff`, `Wal.SyncedIff`, `Wal.KilledHidesUnsynced`.
* A crash that takes a deferred event may leave the restored counter behind a checkpoint, and later events are then
  skipped: `PipelineRuns.HarmlessIff`, `PipelineGaps.CrashWhileDeferredRewinds`, `PipelineGaps.CheckpointAheadSkips`.
* An event refused by a full queue, although the log message says that it remains durable, and an event whose append
  failed with its record in the file, are passed over for good once every checkpoint that may be revealed is above them:
  `PipelineRuns.PassedOverForGood`, `DurableLog.UnsyncedIsRefusedByAll`, `PipelineGaps.RefusedEnqueueIsPassedOver`.
* A probe's answer stamped after a stop that no snapshot has shown yet is not discarded, although the comment on
  `ConfirmReady` (internal/engine/engine.go:137-139) says so: UP is emitted, the stop is never reported, and the next
  activation repeats UP: `ProbeGating.StopReportedIff`, `ProbeGating.LateAnswerRepeatsUp`, `ProbeLate.AlternatesIff`.
* An append that fails and stores nothing loses its transition: the engine has moved on, so neither the next snapshot
  nor the journal brings the event back: `EngineOrder.EmittedOnce`.
* Reading the checkpoint syncs nothing either. After a process was killed behind a rename whose directory was not
  synced, a power loss may bring back a checkpoint older than the one in memory; events are then sent again, never
  skipped: `PipelineRuns.KillRevealsTheSame`, `PipelineRuns.AtLeastOnce`.
* A reboot time earlier than the last event of a service that was up puts its DOWN before that event:
  `EngineOrder.RebootOrderlyIff`.
* A whole activation of a probed unit that no snapshot shows makes the stream repeat DOWN:
  `ProbeGating.GatedAlternatesIff`, `ProbeGating.MissedActivationRepeatsDown`.

## Model

| member | source | states |
|---|---|---|
| `LogBytes.ReadRecords` | internal/wal/wal.go:386-420 | the reading loop yields, for any bytes, the decoded events of all whole lines, the counts of undecodable and torn bytes, and the offset behind the last whole line |
| `LogBytes.CompleteIsLastBoundary` | internal/wal/wal.go:384-420 | the offset returned is the last record boundary of the file and the torn bytes are all that lies behind it |
| `LogBytes.Repair` | internal/wal/wal.go:360-382 | the repaired file is the longest prefix that ends at a record boundary |
| `LogBytes.ReadConcat` | internal/wal/wal.go:386-420 | reading is additive at record boundaries: events, counts and offsets of two parts add up |
| `LogBytes.ReadAllAppended` | internal/wal/wal.go:206-242 | records appended to a whole file are read back after what was there, in order, and nothing else changes |
| `LogBytes.CrashRepairReopen` | internal/wal/wal.go:347-382 | from any byte prefix that reaches the last synced byte, opening recovers exactly the events whose whole line survived, every synced one among them, and later appends follow them |
| `LogBytes.CrashDuringAppend` | internal/wal/wal.go:223-242 | a crash at any byte of an append keeps everything before it, and the new record whole or not at all |
| `LogRows.ReadIsRows` | internal/wal/wal.go:386-420 | reading any file yields the events of the rows that are not blank and decode, in order, the number of those that do not decode, and the bytes of an unfinished last row |
| `LogRows.EveryFileHasRows` | internal/wal/wal.go:386-420 | every file consists of such rows and an unfinished one |
| `LogRows.TextIs` | internal/wal/wal.go:399-408 | a row is decoded without the space at its ends and with everything else |
| `PlainCodec.PlainIsFaithful` | internal/wal/wal.go:206-212 | an encoding exists that is one line without space at its ends and decodes to the event |
| `Wal.WriteAheadLog.constructor` | internal/wal/wal.go:77-105 | opening repairs the file left by a kill or a power loss and reloads the saved states, with nothing pending and nothing newly synced |
| `Wal.WriteAheadLog.AppendRecord` | internal/wal/wal.go:226-242 | one line is written, or rolled back on a short or failed write |
| `Wal.WriteAheadLog.WriteEventLocked` | internal/wal/wal.go:206-221 | the record is written and synced; a failing sync is remembered |
| `Wal.WriteAheadLog.WriteStateLocked` | internal/wal/wal.go:286-342 | the state file is replaced as a whole, kept, or missing, and the first failing call is reported |
| `Wal.WriteAheadLog.FlushLocked` | internal/wal/wal.go:178-204 | owed sync, queued records in order, then the owed state file, stopping at the first failure |
| `Wal.WriteAheadLog.AppendEvent` | internal/wal/wal.go:114-139 | the new state of log and queue for every combination of failures |
| `Wal.WriteAheadLog.Save` | internal/wal/wal.go:270-284 | the state is remembered and everything owed is flushed; a full disk defers it |
| `Wal.AppendKeeps` | internal/wal/wal.go:114-139 | unless one of its own writes is torn, an append adds its event exactly once when it reports success, also when only its sync failed, and otherwise adds nothing; success on a writable log leaves nothing owed |
| `Wal.SaveStateKeeps` | internal/wal/wal.go:270-284 | unless one of its own writes is torn, saving a state adds no event and loses none, and keeps every state saved before |
| `Wal.RunConserves` | internal/wal/wal.go:114-139 | over any sequence of calls with any failures and no torn write, file and queue hold the initial records and then every accepted event, once each and in call order |
| `Wal.ConservesIff` | internal/wal/wal.go:226-242 | a call leaves whole records, those held before and what it accepted, if and only if none of its writes failed, left bytes and was not rolled back |
| `Wal.RunConservesIff` | internal/wal/wal.go:114-242 | every call of a run conserves the events if and only if no write of the run is torn |
| `Wal.WritableMeansDurable` | internal/wal/wal.go:141-147 | whenever a call succeeds and leaves the log writable, every accepted event is in the file and every saved state in the state file; with fsync on the file is synced, unless the call only saved a state on a log opened on an unsynced file |
| `Wal.SyncedIff` | internal/wal/wal.go:178-204 | after a successful call on a writable log the file is synced if and only if the call appended, wrote a deferred event, or nothing was unsynced unknown to the log |
| `Wal.KilledIsTightIff` | internal/wal/wal.go:77-105 | a log reopened after a kill is right about its syncs if and only if the file was synced |
| `Wal.KilledHidesUnsynced` | internal/wal/wal.go:270-284 | otherwise saving a state reports success and a writable log with a record unsynced |
| `Wal.DurablePrefixGrows` | internal/wal/wal.go:77-242 | over any run with any faults, torn writes, killed processes and power losses, the durable events stay and only grow at the end |
| `Wal.ReopenKeeps` | internal/wal/wal.go:77-105 | reopening loses nothing durable and invents nothing; after a power loss all that is left is durable, after a kill nothing of the file is lost and nothing more is durable |
| `Wal.FailedRollbackDuplicates` | internal/wal/wal.go:229-241 | a full disk whose rollback fails leaves the record in the file and in the queue |
| `WalCalls.StateFileComesTo` | internal/wal/wal.go:286-342 | the state file holds the new states exactly when every call up to the rename works, and the first failing call is reported |
| `WalCalls.FlushWorks` | internal/wal/wal.go:178-204 | when every attempt at what is owed works, all of it is on the disk and nothing is owed |
| `WalCalls.FlushStops` | internal/wal/wal.go:178-204 | otherwise the first failure is reported, the records before it are in the file and the others wait |
| `WalCalls.AppendComesTo` | internal/wal/wal.go:114-139 | an append is refused exactly when its first failure is not a full disk, blocks exactly when it is one, and with no failure leaves everything owed and its record in the file, synced if so configured, on a writable log |
| `WalCalls.FailedAppendKeeps` | internal/wal/wal.go:114-139 | after a failure the records reached are in the file and the others wait, the new one exactly when the disk was full before its line was in the file |
| `WalCalls.SaveComesTo` | internal/wal/wal.go:270-284 | the same for saving a state; with no failure the state file holds it |
| `WalCalls.AppendHeals` | internal/wal/wal.go:141-147 | an append whose calls all work makes durable everything held until then and its own event |
| `WalCalls.ReopenOwesNothing` | internal/wal/wal.go:77-105 | a reopened log owes nothing, is writable, and has the states of the state file |
| `Sender.PostOutcome` | internal/remote_write/remote_write.go:325-363 | a request is tried at most three times, ends with the first 2xx or 4xx, counts every try once, and reports success exactly when the last try was accepted |
| `SenderReplies.PostIff` | internal/remote_write/remote_write.go:325-363 | a request is sent exactly when one of the first three replies is a 2xx and those before it are neither 2xx nor 4xx nor followed by a cancelled pause; the other ends likewise |
| `SenderReplies.SaveLeaves` | internal/remote_write/remote_write.go:386-440 | which checkpoints a power loss may reveal, for every call of the save that may fail |
| `SenderReplies.ChunksByReplies` | internal/remote_write/remote_write.go:207-244 | a delivery gets acknowledged as many whole batches, from the front, as there were 2xx replies, and ends as the last reply and the last save say |
| `Sender.RemoteWriter.SendSeries` | internal/remote_write/remote_write.go:325-363 | the retry loop ends as specified |
| `Sender.RemoteWriter.constructor` | internal/remote_write/remote_write.go:366-380 | the checkpoint read becomes the one in memory; nothing is synced, and what a power loss could bring back it still can |
| `Sender.RemoteWriter.Save` | internal/remote_write/remote_write.go:386-440 | the checkpoint in memory moves only after the directory is synced; the file may be ahead of it |
| `Sender.RemoteWriter.SendEvents` | internal/remote_write/remote_write.go:207-238 | events above the checkpoint go out in sequence order, batch by batch, each followed by its checkpoint, until one fails |
| `Sender.UnsentIs` | internal/remote_write/remote_write.go:212-221 | what is sent are exactly the events above the checkpoint, strictly by sequence |
| `Sender.UnsentFromMark` | internal/remote_write/remote_write.go:207-221 | raising the checkpoint to the last event of a batch leaves exactly the events behind it |
| `Sender.ChunksOutcome` | internal/remote_write/remote_write.go:223-238 | whatever fails, a contiguous first part is acknowledged, and every checkpoint stays between what was settled and what is acknowledged |
| `Sender.ChunksFiled` | internal/remote_write/remote_write.go:223-238 | sending a stretch again never renames a checkpoint behind the one in the file |
| `Sender.ResumableSend` | internal/remote_write/remote_write.go:207-238 | over any number of calls with any failures, acknowledged events without repeats are a prefix of those above the starting checkpoint; the checkpoint never goes back; each one a power loss may reveal was left by an earlier process, or is not behind memory and not ahead of an acknowledged event |
| `Sender.SuccessfulSend` | internal/remote_write/remote_write.go:207-238 | a call that reports success leaves every event acknowledged and the checkpoint at the last one |
| `Pipeline.TargetWorker.FlushBatch` | internal/delivery/worker.go:140-160 | a delivered batch is emptied, a rejected one dropped and reported unless the context is cancelled, any other kept |
| `Pipeline.TargetWorker.TakeOne` | internal/delivery/worker.go:297-303 | an event moves from the queue to the batch, and a full batch is flushed |
| `Pipeline.TargetWorker.Start` | internal/delivery/worker.go:341-378 | the log above the checkpoint is sent in two parts around the slot start; what could not be sent becomes the batch |
| `Pipeline.SplitAt` | internal/delivery/worker.go:350-355 | the events before the slot end at the first one that is not |
| `PipelineReplies.FlushByReplies` | internal/delivery/worker.go:140-160 | a batch is emptied exactly when it is delivered, dropped exactly when the last reply is a 4xx and the context is not cancelled, and kept otherwise |
| `PipelineReplies.DequeueByReplies` | internal/delivery/worker.go:297-303 | an event taken from the queue has the batch flushed exactly when it fills it |
| `PipelineReplies.StartupByReplies` | internal/delivery/worker.go:341-378 | the second part is sent only when the first was delivered, and the batch is what begins with the first undelivered part |
| `PipelineReplies.RestartSettles` | internal/delivery/worker.go:341-378 | with a receiver that answers, a restart delivers everything found above its checkpoint |
| `PipelineReplies.AcksAreBacked` | internal/remote_write/remote_write.go:207-244 | in every run, crashes included, what a target counts as acknowledged is accounted for by 2xx replies |
| `PipelineReplies.DroppedIff` | internal/delivery/worker.go:140-160 | in every run, an event is dropped exactly when a batch with it met a 4xx as its last reply while the worker was not being stopped |
| `PipelineRuns.StepKeeps` | cmd/systemd-transition-exporter/main.go:366-379 | every step keeps, for each target on its own, its batch and queue a suffix of the events given to it, everything before its checkpoint settled, and every accepted event given, refused or settled |
| `PipelineRuns.AtLeastOnce` | internal/delivery/worker.go:140-160 | at every point of every run in which no crash leaves the target a checkpoint ahead of the counter, an accepted event at or below any checkpoint a power loss could reveal, older ones brought back after a kill included, was acknowledged, reported dropped, or refused by that very target; any other is settled, refused or still waiting |
| `PipelineRuns.RestartResends` | internal/delivery/worker.go:341-378 | after any run and any kill or power loss, an event is acknowledged anew or waits in the batch if and only if it was found and is above the checkpoint read |
| `PipelineRuns.RefusedIsLeftAlone` | cmd/systemd-transition-exporter/main.go:370-376 | a durable event refused by a target is neither settled nor waiting there as long as no restart finds the checkpoint below it |
| `PipelineRuns.RefusedFateIff` | internal/delivery/worker.go:341-378 | a refused event stays unsettled up to the next restart, which sends it again if and only if its checkpoint has not passed the event |
| `PipelineRuns.PassedOverForGood` | internal/remote_write/remote_write.go:207-217 | once every checkpoint a power loss could reveal has passed a refused event, no run settles it any more |
| `PipelineRuns.KillRevealsTheSame` | internal/remote_write/remote_write.go:366-380 | after a kill a power loss may reveal exactly the checkpoints it could before, none of them ahead of the one in memory |
| `PipelineRuns.NoSequenceReuse` | cmd/systemd-transition-exporter/main.go:127-130 | in such a run the counter has passed every event and every checkpoint of the target, in memory or revealed by a power loss, at any time, restarts included, so a new event is never taken for one already sent |
| `PipelineRuns.HarmlessIff` | cmd/systemd-transition-exporter/main.go:127-176 | at any point of any run, the restored counter is at or above a checkpoint left by a crash if and only if every lost event the checkpoint covers is covered by the saved states, or, for one that neither a saved state nor an accepted event accounts for, an event above it was found |
| `PipelineRuns.NothingTakenIsSafe` | cmd/systemd-transition-exporter/main.go:127-176 | as long as saved states never go back, a saved state or an accepted event accounts for every checkpoint, and a crash that takes nothing is safe |
| `PipelineRuns.FlushSettlesAll` | internal/delivery/worker.go:140-160 | once the receiver answers, one flush of an emptied queue settles every accepted event the target did not refuse |
| `PipelineGaps.CrashWhileDeferredRewinds` | internal/wal/wal.go:114-124 | from any state at rest, an event deferred, sent and lost in a crash leaves the counter behind the checkpoint |
| `PipelineGaps.CheckpointAheadSkips` | internal/remote_write/remote_write.go:212-217 | with the checkpoint ahead of the counter, the next durable event is neither sent nor dropped |
| `PipelineGaps.RefusedEnqueueIsPassedOver` | cmd/systemd-transition-exporter/main.go:370-376 | from any state at rest, an event that was not enqueued is passed by the checkpoint of the next one without being settled |
| `DurableLog.AppendRefines` | cmd/systemd-transition-exporter/main.go:366-379 | every append, successful or not, is a step of the protocol: an emit, an emit to no target, or a counter that moved alone; then deferred events become durable |
| `DurableLog.UnsyncedIsRefusedByAll` | cmd/systemd-transition-exporter/main.go:367-369 | an append that fails with its record in the file reports an error, and its event reaches no target |
| `DurableLog.SaveStateRefines` | internal/wal/wal.go:270-284 | saving a state only makes deferred events durable |
| `DurableLog.CrashRefines` | internal/wal/wal.go:77-105 | any kill or power loss, wherever it cuts the file and whatever is deferred, is a restart of the protocol from the events found |
| `DurableLog.WritableIsHealthy` | internal/wal/wal.go:141-147 | with fsync on, a log that is writable after a successful append, or after any successful call when it was right about its syncs, has nothing deferred |
| `DurableLog.RestartedEngineIsAhead` | cmd/systemd-transition-exporter/main.go:127-176 | from any bytes a harmless crash leaves, repair, restoring the states the reopened log loads and replay put the counter at or above every recovered event and the checkpoint |
| `JointRuns.RunRefines` | cmd/systemd-transition-exporter/main.go:366-379 | any interleaving of log calls, worker steps and crashes is a run of the protocol whose end stands for the log, the workers and the counter, and in which a target refuses only events it was not given because its queue was full or the append reported an error |
| `JointRuns.HeldIsDelivered` | internal/delivery/worker.go:140-160 | from an empty disk on, every event the log holds was acknowledged, dropped, waits in the worker, or was not given to the target because its queue was full or the append reported an error; covered by a checkpoint a power loss may reveal, it no longer just waits; and no checkpoint is ahead of the counter |
| `JointRuns.CounterIsRestored` | cmd/systemd-transition-exporter/main.go:127-176 | the counter of a restarted process is the one restoring the states in the file and replaying the recovered log give |
| `JointRuns.SavedStaysRight` | internal/wal/wal.go:286-342 | in every run the saved sequence is the highest in the state file, which may get lost |
| `DurableLog.StreamGoesOnAfterCrash` | cmd/systemd-transition-exporter/main.go:127-176 | every event the restarted engine emits is numbered above the checkpoint and follows every recovered event |
| `Engine.TransitionEngine.ApplySnapshot` | internal/engine/engine.go:78-135 | new state, counter and events for every snapshot |
| `Engine.TransitionEngine.EmitCandidates` | internal/engine/engine.go:104-125 | the loop over the candidates withholds, swallows or emits each of them as specified |
| `Engine.TransitionEngine.Confirm` | internal/engine/engine.go:140-168 | an awaited UP is released later than the last event of its service; any other answer is discarded |
| `Engine.TransitionEngine.Recover` | internal/engine/engine.go:170-190 | a journal event is taken only when newer than what is known |
| `Engine.TransitionEngine.Restore` | internal/engine/engine.go:39-49 | a saved state is taken over and the counter raised to its sequence |
| `Engine.TransitionEngine.ReplayEvent` | internal/engine/engine.go:51-71 | a log event raises the counter and stamps its service unless it is older |
| `Engine.TransitionEngine.Adopt` | internal/engine/engine.go:195-202 | every service takes the boot id and nothing else changes |
| `Engine.TransitionEngine.HostReboot` | internal/engine/engine.go:204-224 | every service that was up goes down, in whatever order they are visited |
| `EngineReplay.ApplyRemembers` | internal/engine/engine.go:78-135 | a snapshot is remembered as it is, the last event is the last one emitted, and no other service changes |
| `EngineReplay.ReadyReleases` | internal/engine/engine.go:140-168 | an awaited answer makes the service up and releases one event not before it; nothing else changes |
| `EngineReplay.RecoveryTakes` | internal/engine/engine.go:170-190 | a journal event is emitted exactly when it is newer, unchanged but for its number, the service then tells it, and it is not taken twice |
| `EngineReplay.RestoredIs` | internal/engine/engine.go:39-49 | each service has the last state saved for it, whole |
| `EngineReplay.ReplayTells` | internal/engine/engine.go:51-71 | each service has state, boot, time and number of the last event with the highest time the log has of it, awaits nothing, and keeps what was seen of its unit |
| `EngineReplay.AdoptChanges` | internal/engine/engine.go:195-202 | nothing but the boot of each service changes |
| `EngineReplay.RebootStops` | internal/engine/engine.go:204-224 | in any order of visits, one DOWN for each service that was up and no other event, numbered without a gap, every service down or as it was and in the new boot |
| `EngineReplay.ReplayRebuilds` | internal/engine/engine.go:51-224 | replaying what any run emitted brings back its counter and the time and number of the last event of every service |
| `EngineOrder.EventOrder` | internal/engine/engine.go:39-224 | over any mix of snapshots, answers, journal events, restored states, replays, adopted boots and reboots, sequences strictly increase and times of a service never decrease; ties across calls only at a reboot |
| `EngineOrder.RebootOrderlyIff` | internal/engine/engine.go:204-224 | a reboot keeps the order if and only if it is not earlier than the last event of any service it stops |
| `EngineOrder.EmittedOnce` | internal/engine/engine.go:73-77 | an emitted event is emitted once: neither the same snapshot nor the journal brings it again |
| `EngineOrder.StreamGoesOn` | internal/engine/engine.go:39-71 | whatever states were saved and whatever log is recovered, each event of any run of the restarted engine follows every event of that log |
| `EngineOrder.ReplayedCounter` | internal/engine/engine.go:51-56 | after replaying, the counter is exactly the highest sequence known |
| `EngineOrder.RestoredCounter` | internal/engine/engine.go:39-49 | after restoring, the counter is exactly the highest of the saved sequences and the one before |
| `EngineOrder.ReplayDecides` | internal/engine/engine.go:51-71 | replaying stamps on each service exactly one deciding event of the log |
| `EngineOrder.ReplayIsIdempotent` | internal/engine/engine.go:51-71 | replaying a log twice gives the same engine as once, from any state |
| `EngineHistory.ApplyReports` | internal/engine/engine.go:78-135 | a snapshot emits exactly the last two transitions since the previous one, or fewer if fewer happened |
| `EngineHistory.StreamTells` | internal/engine/engine.go:78-135 | the stream of any run of snapshots tells exactly those transitions, numbered without gaps |
| `EngineHistory.StreamIsSubsequence` | internal/engine/engine.go:73-135 | the emitted events tell transitions of the real history in order: nothing is invented, repeated or moved |
| `EngineHistory.CompleteIff` | internal/engine/engine.go:78-135 | the emitted events tell the whole history between the first and the last look if and only if at most two transitions fall between consecutive looks |
| `EngineHistory.FirstLook` | internal/engine/engine.go:83-88 | the first snapshot of a boot emits nothing and makes the unit known |
| `ProbeGating.GatedApply` | internal/engine/engine.go:104-135 | a snapshot of a probed unit never emits UP, at most one DOWN, and nothing while an answer is awaited |
| `ProbeGating.GatedAnswer` | internal/engine/engine.go:137-168 | an answer releases exactly the awaited UP, and the engine goes on tracking the unit if and only if the answer is not late |
| `ProbeGating.GatedAlternatesIff` | internal/engine/engine.go:89-168 | with no late answer, the stream of snapshots and answers alternates strictly if and only if no look misses a whole activation |
| `ProbeGating.TracksIff` | internal/engine/engine.go:89-168 | the engine tracks the unit through a run if and only if no awaited answer in it is late |
| `ProbeGating.StopReportedIff` | internal/engine/engine.go:137-168 | after an awaited answer, the look that shows the stop reports it if and only if the answer came before the stop |
| `ProbeGating.LateAnswerRepeatsUp` | internal/engine/engine.go:137-168 | after a late answer the next activation repeats UP |
| `ProbeGating.FirstLookGates` | internal/engine/engine.go:83-88 | the first look emits nothing and awaits nothing; from there on the engine tracks the unit exactly if no answer is late, and then the stream alternates exactly if no look misses an activation |
| `ProbeRuns.DownIsReal` | internal/engine/engine.go:89-135 | in every run, late answers included, only answers emit UP, and everything else in the stream is the DOWN of a real stop |
| `ProbeRuns.FirstLookWatches` | internal/engine/engine.go:83-88 | after the first look at a boot the engine watches the unit, which is all that OneUpPerActivation asks for |
| `ProbeRuns.UpIsDuring` | internal/engine/engine.go:140-168 | with answers neither early nor late, every UP falls into an activation of the unit |
| `ProbeRuns.OneUpPerActivation` | internal/engine/engine.go:140-168 | in every run, late answers included, two UPs of the stream answer different starts, in order |
| `ProbeLate.LookSees` | internal/engine/engine.go:89-135 | for any floor that late answers left, the stop a look tells, if any, and how the engine then sees the unit, follow from the history alone |
| `ProbeLate.AlternatesIff` | internal/engine/engine.go:89-168 | with any answers at any time, the stream alternates if and only if no look tells a stop to a stream that last said DOWN and no awaited answer comes to one that last said UP, as history, looks and answers decide |
| `ProbeLate.FirstLookAlternatesIff` | internal/engine/engine.go:83-168 | the same from the first look at a boot on, whatever was emitted in an earlier one |
| `ProbeGating.MissedActivationRepeatsDown` | internal/engine/engine.go:108-121 | a missed activation makes the stream repeat DOWN |
| `SlotGrid.SlotStartIsFloor` | internal/recovery/backfill.go:29-32 | for whole-minute windows SlotStart is the greatest grid point not after t, t lies in its slot, and it is idempotent |
| `SlotGrid.ContainmentIff` | internal/recovery/backfill.go:27-32 | every instant lies in the slot it is assigned to if and only if the window is a whole number of minutes |
| `SlotGrid.ConfiguredWindows` | internal/config/config.go:277-282 | of the admitted windows only 7m30s and 6m40s are not whole minutes |
| `SlotGrid.OpeningsAdvanceIff` | internal/delivery/worker.go:282-289 | behind every opening the next one is scheduled if and only if the window is a whole number of minutes |
| `SlotGrid.EdgesAlternate` | internal/recovery/backfill.go:36-44 | a slot opens 5 ms after its start, closes 995 ms before its end, and then the next one opens |
| `SlotGrid.NextIsLeast` | internal/recovery/backfill.go:63-102 | each next edge is the first of its kind strictly after now |
| `SlotGrid.DueIsCurrent` | internal/recovery/backfill.go:49-88 | each due edge is the current slot's, exactly when it has been reached |
| `SlotGrid.RecoveryWindowIsCurrentSlot` | internal/recovery/backfill.go:107-116 | the recovered interval starts at the slot of its end and is empty exactly at the slot start |
| `SlotScheduler.EdgesComplete` | internal/delivery/worker.go:270-289 | a run of edges contains every opening and closing instant between its ends |
| `SlotScheduler.SlotTimer.constructor` | internal/delivery/worker.go:108-127 | the edges already due are pending and the next opening and closing scheduled; for whole-minute windows these are the edges reached by now and the first ones after it |
| `SlotScheduler.SlotTimer.EnqueueSlotSample` | internal/delivery/worker.go:270-281 | an instant joins the pending list once, which keeps its newest four |
| `SlotScheduler.SlotTimer.AdvancePast` | internal/delivery/worker.go:282-289 | only the edge that fired moves on |
| `SlotScheduler.SlotTimer.Fire` | internal/delivery/worker.go:316-333 | however late the timer, every edge reached is offered once and in order, the newest four unsent ones are pending, the loop ends, and now is before the next edge |
| `SlotScheduler.SlotTimer.Advance` | internal/delivery/worker.go:316-319 | for any window, the earlier edge is offered and the one behind it scheduled |
| `SlotScheduler.EndsIff` | internal/delivery/worker.go:316-333 | of the admitted windows, the timer gets past every instant, whenever it was set up, if and only if the window is a whole number of minutes |
| `SlotScheduler.DroppedIff` | internal/delivery/worker.go:278-280 | of the edges pending before or offered since, exactly those older than the newest four are dropped |
| `SlotScheduler.SlotTimer.TrySlotSamples` | internal/delivery/worker.go:262-269 | pending instants go out oldest first until one is not accepted |
| `Backfill.GroupByService` | internal/recovery/backfill.go:134-140 | each service gets its own events inside the slot, in their order |
| `Backfill.SortGroups` | internal/recovery/backfill.go:141-145 | every group is sorted by time, stably |
| `Backfill.MergeTimeline` | internal/recovery/backfill.go:155-170 | the two cursors yield every transition and every tick of a service, ties in order, each tick with the state in force |
| `Backfill.BuildStateFill` | internal/recovery/backfill.go:130-179 | the fill is the sorted timelines of all services, or the error of the journal |
| `Backfill.FillHolds` | internal/recovery/backfill.go:147-170 | a sample is in the fill if and only if it is a transition inside the slot or a tick of a listed service with the state the transitions leave |
| `Backfill.FillOrderedAndCounted` | internal/recovery/backfill.go:172-178 | the fill is a permutation of one sample per tick and transition, ordered by timestamp and then service |
| `Backfill.FillInsideSlot` | internal/recovery/backfill.go:135-137 | no sample lies outside the slot |
| `Backfill.FillIsDense` | internal/recovery/backfill.go:155-164 | from start to end, every moment has a sample of every service at most one interval old, up to the rounding to milliseconds |
| `Backfill.FillFailsIff` | internal/recovery/backfill.go:188-203 | the fill is refused if and only if a listed service has no transition, no known current state, and the journal fails |
| `Backfill.FillTellsTruth` | internal/recovery/backfill.go:118-203 | if the recovered transitions are those of the real state, and without any the observed state or the journal is right, every sample shows the real state at its timestamp |
| `Backlog.PendingStates.DropBefore` | internal/delivery/worker.go:396-403 | the filter that overwrites its own input keeps exactly the samples of the slot, in order |
| `Backlog.PendingStates.DropExcess` | internal/delivery/worker.go:405-407 | the overlapping copy leaves exactly the newest samples |
| `Backlog.PendingStates.BufferStates` | internal/delivery/worker.go:383-408 | the backlog becomes the newest at most 10000 samples of the current slot among old and new |
| `Backlog.PrunedHolds` | internal/delivery/worker.go:394-408 | nothing older than the slot start stays, and nothing else goes but what exceeds the newest 10000 |
| `Delivery.Worker.Flush` | internal/delivery/worker.go:140-160 | the batch is emptied when acknowledged or permanently rejected, and kept otherwise |
| `Delivery.Worker.SendRecovery` | internal/delivery/worker.go:161-186 | batch, then fill, then events of the job, stopping at the first failure that is not permanent |
| `Delivery.Worker.DeliverStates` | internal/delivery/worker.go:192-223 | the backlog goes out only with no job, an empty queue and a flushed batch; it is cleared when accepted, rejected for good, or stale |
| `Delivery.Worker.RecordStates` | internal/delivery/worker.go:224-234 | samples are recorded only with no job and an empty queue |
| `Delivery.Worker.Publish` | internal/delivery/worker.go:235-261 | a heartbeat or slot edge records and then delivers |
| `Delivery.Worker.Receive` | internal/delivery/worker.go:297-311 | a command leaves the queue for the batch or the pending job |
| `Delivery.Worker.FilterStale` | internal/delivery/worker.go:415-424 | exactly the samples newer than what was accepted for their service remain, in order |
| `Delivery.Worker.Note` | internal/delivery/worker.go:426-436 | the newest accepted moment of each service is noted |
| `DeliveryRuns.SamplesNeverOvertake` | internal/delivery/worker.go:187-223 | in every run, a request of samples goes out only when every transition and job enqueued by then is settled; nothing enqueued is lost, repeated or reordered |
| `DeliveryRuns.AcceptedSamplesAdvance` | internal/delivery/worker.go:410-436 | in every run, a sample accepted for a service is strictly newer than all accepted before it, and the bookkeeping holds the newest one |
| `DeliveryRuns.ClosedSlotsStayClosed` | internal/delivery/worker.go:391-408 | in every run, no request holds a sample of a slot closed when the backlog was last pruned |
| `DeliveryRuns.NoSampleIsLost` | internal/delivery/worker.go:187-234 | in every run, each recorded sample waits, was accepted or rejected for good, was superseded, fell out of the slot, or was pushed out by 10000 newer ones |
| `DeliveryRuns.EveryRun` | internal/delivery/worker.go:96-339 | all of this holds from startup on |
| `DeliveryAnswers.FlushAnswered` | internal/delivery/worker.go:140-160 | a batch is settled exactly when its request is accepted or rejected for good, and kept otherwise |
| `DeliveryAnswers.RecoveryAnswered` | internal/delivery/worker.go:161-186 | a job is settled exactly when batch, fill and events end so that none is to be sent again |
| `DeliveryAnswers.DeliverAnswered` | internal/delivery/worker.go:192-223 | with no job, an empty queue and a settled batch, exactly the newer samples go out in one request, and its end decides what stays in the backlog |
| `DeliveryAnswers.PublishAnswered` | internal/delivery/worker.go:224-261 | samples are recorded exactly when there are any and nothing waits, and the pruned backlog is then delivered |
| `DeliveryAnswers.ReceiveAnswered` | internal/delivery/worker.go:297-311 | a transition that fills the batch has it flushed; a job joins the pending one |
| `DeliveryAnswers.ArriveTakes` | internal/delivery/worker.go:74-94 | commands join the queue in order as long as it holds fewer than 100000 |
| `DeliveryAnswers.StartsWith` | internal/delivery/worker.go:341-378 | the worker starts with the transitions and the fill that startup could not send |
| `DeliveryAnswers.RunSettles` | internal/delivery/worker.go:140-186 | in every run, transitions and jobs are settled only by a request that was accepted or rejected for good |
| `DeliveryAnswers.CatchesUp` | internal/delivery/worker.go:140-261 | once the receiver accepts, one flush, one retry and one heartbeat settle everything enqueued, cover every sample of the slot and leave nothing waiting |
| `ProbeRegistry.Prober.Start` | internal/sip/probe.go:49-70 | a run with a new id is registered exactly when the service is configured and none is registered |
| `ProbeRegistry.Prober.Unregister` | internal/sip/probe.go:72-85 | the registered run leaves the registry and is handed over for cancelling |
| `ProbeRegistry.Prober.Finish` | internal/sip/probe.go:87-93 | a finishing run removes itself and nothing else |
| `ProbeRegistry.RegistryStaysSound` | internal/sip/probe.go:49-93 | in every interleaving, a run is registered exactly while it has neither finished nor been taken out by Stop |
| `ProbeRegistry.IdsAreUsedOnce` | internal/sip/probe.go:62-65 | an id names one run for ever, and later ids are higher |
| `ProbeRegistry.SuccessorSurvives` | internal/sip/probe.go:87-93 | a registered run stays registered until it finishes or is stopped itself, whatever older runs do |
| `ProbeRegistry.OneLoopPerService` | internal/sip/probe.go:20-21 | at most one run per service is neither finished nor stopped |
| `ProbeRegistry.RegisteredIsNotCancelled` | internal/sip/probe.go:72-85 | the second half of a Stop never hits the run that replaced the stopped one |
| `ProbeRegistry.StoppedRunsAreCancelled` | internal/sip/probe.go:72-85 | once every Stop has returned, an unfinished run is either registered or cancelled |
| `ProbeRegistry.StepsWork` | internal/sip/probe.go:49-93 | starting, stopping, cancelling and finishing do what they are for to one service and one run, and leave the others alone |
| `ProbeRegistry.StopThenStart` | internal/sip/probe.go:49-93 | after a Stop, whatever happens in between, a Start registers a run of its own, and the stopped one is cancelled once that Stop has returned |

## Left out

- JSON: the record encoding is a parameter that must be one line, free of space at its ends, and decodable; invalid UTF-8, which encoding/json replaces, is not covered.
- Read errors of `events.jsonl`, and the Unicode spaces that bytes.TrimSpace also removes.
- Wal.RunConserves: asks that no write of the run is torn; a failing truncate, which `appendRecord` ignores, breaks it exactly as `Wal.RunConservesIff` says.
- PipelineRuns.AtLeastOnce: asks that no crash leaves the target a checkpoint ahead of the restored counter, exactly when that happens being `PipelineRuns.HarmlessIff`; recovery jobs are not part of it, since a later checkpoint passes over their events and only the fill carries them.
- PipelineRuns.NoSequenceReuse: the same runs; the 64-bit counter is unbounded.
- Emit, append and enqueue are one step of the pipeline; the program does not hold one lock over them (cmd/systemd-transition-exporter/main.go:381-416).
- EngineOrder.EventOrder: takes as given that a reboot is not earlier than the last event of the services it stops, since `ApplyReboot` compares no times and also runs after `AdoptBootID` (`EngineOrder.RebootOrderlyIff`); and that a state restored over a known one is not older, since `RestoreState` does not look.
- EngineReplay.ReplayRebuilds: says nothing of what snapshots change without an event (the availability of a first look, an awaited answer), and takes journal events from 1970 on.
- EngineHistory.CompleteIff and the probe theorems: take transitions of a unit in distinct milliseconds.
- ProbeGating.GatedAlternatesIff: asks for answers that are not late; for any answers the exact condition is `ProbeLate.AlternatesIff`.
- SlotScheduler.SlotTimer.Fire: asks for whole-minute windows; for the two others that are admitted its loop need not end (`SlotScheduler.EndsIff`).
- JointRuns.RunRefines: takes as given that no write is torn and that no saved state is ahead of the engine's counter.
- Backfill.FillIsDense and Backfill.FillInsideSlot: timestamps are whole milliseconds, so a bound in nanoseconds holds up to one of them.
- EngineOrder.StreamGoesOn: speaks of logged events with a time not before 1970, the time an engine takes for granted of a service it does not know.
- A power loss is taken to leave only bytes that stay; a renamed state file whose directory was not synced may come back as the old one, and nothing is claimed of saved states after a crash beyond what `DurableLog` asks for.
- The startup fill, which is neither sent nor buffered when the first startup request fails; the model starts either with it buffered or without it.
- Delivery.Worker.BufferStates: keeps the backlog as a sequence; the buffer with its overlapping copies is `Backlog.PendingStates`.
- Zone changes and daylight saving: the zone offset is fixed; the zero `time.Time` is an absent value.
- The exact number of dropped events: a partly delivered batch that is then rejected is counted whole.
- `MigrateCheckpoint`, the log messages with their once-a-minute limits, the sample counters, and the Windows branches.
- HTTP, protobuf, snappy and labels: a request is accepted, rejected, failed or cancelled.
- systemd, D-Bus, the journal subprocess, configuration, identity and metrics: foreign I/O or simple code; snapshots, recovered events and the state before a slot are inputs.
- The dns and agw probers, whose registries are copies of the sip one, and the UDP loops of all three.
