# Walking pad controller, modelled in Dafny

This project models the core of `walkingpad`, a menu-bar controller for
Kingsmith-style walking pads driven over Bluetooth LE. The core has five
parts, each present in a newer and a legacy copy.

- **Command frame codec.** A command is a six-byte frame `247, 162, opcode, argument, checksum, 253`. The checksum is an 8-bit wrap-around sum that `fixCrc` writes in place.
- **Status decoder.** A notification starting `248, 162` carries the speed, the mode and three 24-bit big-endian counters: time, distance and steps.
- **Command queue and writer.** The app's commands (start, stop, change speed) expand into queue entries. A single writer drains the queue, waits out each entry's delay, writes its frame and pauses 700 ms after every write.
- **Scan.** A scan turns advertisements into connection candidates. It skips repeated addresses and stops at the preferred device.
- **Supervisor.** The app's main loop promotes a connected pad to ready. It detects starts and stops made on the pad itself from the change of speed, accumulates the session's time, steps and distance, and reconnects when the link drops.

Modules:

- `Protocol` (`protocol.dfy`): the checksum, the frame builders and the status decoder. Both drivers carry this code byte for byte.
- `Queue` (`queue.dfy`): queue entries, the writer's events, and what draining a queue writes.
- `Walkingpad` (`walkingpad.dfy`): the newer layout's commands, stats and discoverer-based scan.
- `Kingsmith` (`kingsmith.dfy`): the newer driver, as a class whose methods change its queue, status and update buffer.
- `LegacyPad` (`legacy_pad.dfy`): the legacy driver and its scan.
- `Supervisor` (`supervisor.dfy`): the newer app, with its state record and the class whose methods update it.
- `LegacySupervisor` (`legacy_supervisor.dfy`): the legacy app, which holds a legacy pad object.

Integer units replace the source's floats:

- speed in tenths of km/h;
- distance in hundredths of a km;
- time in seconds;
- delays in milliseconds;
- a time of 0 stands for Go's zero time.

Parts of the source become inputs or ghost state:

- The device's writes and pauses go into a ghost trace, and its disconnects into a ghost counter.
- The clock, the Bluetooth scan results, the success of a scan or a connection, and the webhook's "sent" result are parameters.
- For the newer app, whether the pad's stats carry a timestamp is also a parameter.

Every stateful operation is a method proved against a function on values, such as `AfterTick`, `Collected`, `Drain` or `ExpandAll`. The lemmas state the source's promises about those functions.

## Model

| member | source | states |
|---|---|---|
| Protocol.WrapSumIsSumMod256 | internal/walkingpads/kingsmith.go:285-288 | accumulating in a byte that wraps after every addition gives the plain sum mod 256 |
| Protocol.WithCrc | internal/walkingpads/kingsmith.go:282-291 | the fixed frame has the same length; every byte except len-2 is unchanged; byte len-2 is the sum of bytes 1..len-3 mod 256; frames shorter than 2 bytes are returned as they are |
| Protocol.WithCrcIdempotent | walkingpad.go:260-269 | fixing the checksum twice equals fixing it once, because the checksum byte lies outside the summed range |
| Protocol.FixCrc | internal/walkingpads/kingsmith.go:282-291 | the in-place loop leaves the array equal to WithCrc of its old contents |
| Protocol.CommandFrameBytes | internal/walkingpads/kingsmith.go:163-185 | a built frame, once fixed, is exactly 247, 162, opcode, argument, (162 + opcode + argument) mod 256, 253; it is well formed and checksummed |
| Protocol.ChangeSpeedFrameBytes | internal/walkingpads/kingsmith.go:175-181 | a speed frame for 0..60 tenths is 247, 162, 1, tenths, 163 + tenths, 253 |
| Protocol.AskStatsFrameChecksummed | internal/walkingpads/kingsmith.go:183-185 | the hard-coded checksum 162 of the stats request is already correct, so fixing it changes nothing |
| Protocol.BuiltFramesWellFormed | walkingpad.go:178-200 | every built frame is six bytes, starts 247, 162, ends 253, has a correct checksum, and carries opcode 2, 4, 1 or 0 |
| Protocol.Be24 | internal/walkingpads/kingsmith.go:310-311 | a three-byte big-endian counter is below 2^24 |
| Protocol.Be24RoundTrip | walkingpad.go:288-289 | splitting a counter below 2^24 into three bytes and reading it back gives the counter |
| Protocol.Be24Unique | walkingpad.go:288-289 | the bytes of a counter are recovered from its value, so the encoding is one-to-one |
| Protocol.DecodeStatus | walkingpad.go:287-297 | the decoded time, distance and steps are below 2^24 |
| Protocol.DecodeEncode | walkingpad.go:287-297 | decoding the payload of any reading whose counters fit 24 bits gives that reading back |
| Protocol.EncodeDecode | walkingpad.go:287-297 | re-encoding a decoded payload gives back its bytes 1 to 11; byte 0 and anything after byte 11 are never read |
| Protocol.DecodeDependsOnBytes1To11 | internal/walkingpads/kingsmith.go:309-319 | two payloads decode alike if and only if they agree on bytes 1 to 11 |
| Queue.Pushed | internal/walkingpads/kingsmith.go:158-161 | a pushed entry keeps its delay and the presence of its frame; its frame is the given frame with the checksum fixed (WithCrc), so it keeps the length and is checksummed |
| Queue.StartEntriesFromStandby | internal/walkingpads/kingsmith.go:221-228 | from standby a start queues mode-manual, start-belt, a 2500 ms wait and the speed frame, with these exact bytes and in this order |
| Queue.StartEntriesOutsideStandby | internal/walkingpads/kingsmith.go:221-228 | from any other mode a start queues the same entries without the mode change |
| Queue.StopEntryBytes | internal/walkingpads/kingsmith.go:171-173 | stopping the belt queues the speed-0 frame 247, 162, 1, 0, 163, 253 with no delay |
| Queue.AskStatsEntryBytes | internal/walkingpads/kingsmith.go:183-185 | the stats request is queued byte for byte as built |
| Queue.DrainAppend | internal/walkingpads/kingsmith.go:248-261 | draining two queues one after the other is draining their concatenation (FIFO) |
| Queue.DrainWritesBuffers | internal/walkingpads/kingsmith.go:248-261 | the frames a drain writes are exactly the queue's frames in queue order; wait entries write nothing |
| Queue.DrainPausesAfterWrites | internal/walkingpads/kingsmith.go:252-259 | every write in a drain is followed at once by a 700 ms pause, whether or not the write failed |
| Queue.DrainWritesChecksummed | internal/walkingpads/kingsmith.go:158-161 | when every queued frame is checksummed, every frame the writer sends is checksummed |
| Walkingpad.DiscoverByService | internal/walkingpads/kingsmith.go:51-123 | the driver's discoverer, trying the service identifiers in order and returning at the first advertised one, returns the connector exactly when the device advertises one of them, and agrees with ServiceDiscoverer on every device |
| Walkingpad.OnScanResult | internal/walkingpad.go:62-81 | the callback's loop over the discoverers gives the seen set, the appended candidates and the stop flag that Examine gives with the first discoverer |
| Walkingpad.DiscoverCandidates | internal/walkingpad.go:52-87 | the scan loop returns Discovered over the whole scan, starting with nothing seen |
| Walkingpad.DiscoveredInScanOrder | internal/walkingpad.go:69-73 | the candidates' devices are a subsequence of the scan |
| Walkingpad.DiscoveredDistinct | internal/walkingpad.go:63-67 | no two candidates share an address, and none has an address seen before the scan |
| Walkingpad.DiscoveredRecognised | internal/walkingpad.go:69-73 | every candidate comes from the scan and is one the first discoverer recognised, with the connector it returned |
| Walkingpad.DiscoveredStopsAtTarget | internal/walkingpad.go:75-78 | only the last candidate can have the preferred address |
| Walkingpad.OnlyFirstSightingsExamined | internal/walkingpad.go:63-67 | a scan collects the same candidates as the scan of first sightings alone, so a repeated address is never examined again |
| Walkingpad.NoDiscovererNoCandidates | internal/walkingpad.go:62-81 | with no discoverer registered a scan finds nothing |
| Kingsmith.ExpandShape | internal/walkingpads/kingsmith.go:219-234 | a start expands to 4 entries from standby (mode change first) and 3 otherwise (start belt first), ending with the 2500 ms wait and the speed frame; stop and change speed expand to one speed frame each |
| Kingsmith.KingsmithPad.constructor | internal/walkingpads/kingsmith.go:94-101 | a new driver is valid and running, with an empty queue, no updates, an empty trace and no status yet |
| Kingsmith.KingsmithPad.Disconnect | internal/walkingpads/kingsmith.go:145-156 | after any number of calls the driver is stopped and the device was disconnected exactly once |
| Kingsmith.KingsmithPad.PushCmd | internal/walkingpads/kingsmith.go:158-161 | the queue grows by exactly the checksummed entry, and every queued frame stays checksummed |
| Kingsmith.KingsmithPad.ChangeMode | internal/walkingpads/kingsmith.go:163-165 | appends the mode-change entry |
| Kingsmith.KingsmithPad.StartBelt | internal/walkingpads/kingsmith.go:167-169 | appends the start-belt entry |
| Kingsmith.KingsmithPad.StopBelt | internal/walkingpads/kingsmith.go:171-173 | appends the speed-0 entry |
| Kingsmith.KingsmithPad.ChangeSpeed | internal/walkingpads/kingsmith.go:175-181 | for 0 to 6 km/h, appends the speed entry |
| Kingsmith.KingsmithPad.AskStats | internal/walkingpads/kingsmith.go:183-185 | appends the stats request |
| Kingsmith.KingsmithPad.WaitCmd | internal/walkingpads/kingsmith.go:187-189 | appends a wait entry with no frame |
| Kingsmith.KingsmithPad.OnBufferReceive | internal/walkingpads/kingsmith.go:191-214 | a non-status frame changes nothing; a status frame sets the decoded status and its time, and adds its stats update unless the buffer already holds 50 |
| Kingsmith.KingsmithPad.ProcessCmd | internal/walkingpads/kingsmith.go:219-235 | the queue grows by exactly Expand of the command against the last status's mode |
| Kingsmith.KingsmithPad.ProcessEach | internal/walkingpads/kingsmith.go:216-236 | the queue grows by the expansions of all commands, in order |
| Kingsmith.KingsmithPad.ProcessCmds | internal/walkingpads/kingsmith.go:216-243 | after the command loop the driver is stopped, with the device disconnected once and every command's entries queued |
| Kingsmith.KingsmithPad.WriteNext | internal/walkingpads/kingsmith.go:248-260 | one writer round removes the front entry and adds exactly its events to the trace |
| Kingsmith.KingsmithPad.WriteLoop | internal/walkingpads/kingsmith.go:245-262 | the writer empties the queue, adds Drain of the old queue to the trace, and writes only checksummed frames |
| LegacyPad.OnScanResult | walkingpad.go:57-73 | the callback's loop over the service identifiers gives what Collect gives |
| LegacyPad.FindWalkingPadCandidates | walkingpad.go:47-79 | the scan loop returns Collected over the whole scan, starting with nothing seen |
| LegacyPad.CollectedRecognised | walkingpad.go:58-65 | every candidate advertises one of the identifiers, comes from the scan, and was not seen before |
| LegacyPad.CollectedDistinctInOrder | walkingpad.go:60-65 | no two candidates share an address, and they appear in scan order |
| LegacyPad.CollectedStopsAtTarget | walkingpad.go:67-70 | only the last candidate can have the preferred address |
| LegacyPad.CollectedComplete | walkingpad.go:57-73 | without a preferred device, every recognised address of the scan not seen before gets a candidate |
| LegacyPad.NewScanAgreesWithLegacy | walkingpad.go:57-73 | when every sighting of an address advertises alike, the newer scan with a service discoverer finds the same devices as the legacy scan |
| LegacyPad.InconsistentAdvertisingDiffers | walkingpad.go:58-63 | an address first seen without the identifiers and then with them is collected by the legacy scan but skipped by the newer one |
| LegacyPad.WalkingPad.constructor | walkingpad.go:152-159 | a new pad is valid and running, with an empty queue and trace and no status yet |
| LegacyPad.WalkingPad.Disconnect | walkingpad.go:161-171 | after any number of calls the pad is stopped and the device was disconnected exactly once |
| LegacyPad.WalkingPad.PushCmd | walkingpad.go:173-176 | the queue grows by exactly the checksummed entry |
| LegacyPad.WalkingPad.ChangeMode | walkingpad.go:178-180 | appends the mode-change entry |
| LegacyPad.WalkingPad.StartBelt | walkingpad.go:182-184 | appends the start-belt entry |
| LegacyPad.WalkingPad.StopBelt | walkingpad.go:186-188 | appends the speed-0 entry |
| LegacyPad.WalkingPad.ChangeSpeed | walkingpad.go:190-196 | for 0 to 6 km/h, appends the speed entry |
| LegacyPad.WalkingPad.AskStats | walkingpad.go:198-200 | appends the stats request |
| LegacyPad.WalkingPad.WaitCmd | walkingpad.go:202-204 | appends a wait entry with no frame |
| LegacyPad.WalkingPad.OnBufferReceive | walkingpad.go:206-217 | a non-status frame leaves the status and its time unchanged; a status frame sets them to the decoded payload and the current time |
| LegacyPad.WalkingPad.WriteNext | walkingpad.go:226-237 | one writer round removes the front entry and adds exactly its events to the trace |
| LegacyPad.WalkingPad.WriteLoop | walkingpad.go:219-240 | a writer cancelled after n rounds has removed the first n entries and traced their drain |
| Supervisor.AfterBeltStart | internal/app/app.go:348-351 | a start marks the session started at the given time and changes nothing else |
| Supervisor.App.constructor | internal/app/app.go:36-63 | a zero-valued app is disconnected, holds no pad, has every accumulator at zero and keeps the configured target speed, whatever its value |
| Supervisor.App.OnBeltStart | internal/app/app.go:348-351 | the state becomes AfterBeltStart of the old state |
| Supervisor.App.OnBeltStop | internal/app/app.go:353-368 | the state becomes AfterBeltStop of the old state and the webhook's result |
| Supervisor.App.Tick | internal/app/app.go:95-129 | a loop turn with the app not disconnected takes the state to AfterTick and keeps the app valid |
| Supervisor.App.SyncExternal | internal/app/app.go:103-110 | the external start and stop step takes the state to Sync |
| Supervisor.App.AddProgress | internal/app/app.go:112-125 | the accumulation step takes the state to Accumulate |
| Supervisor.App.StartPauseClick | internal/app/app.go:148-155 | a click starts a stopped session and sends Start at the target speed, or stops a running one and sends Stop |
| Supervisor.App.StopClick | internal/app/app.go:156-168 | stops a running session and sends Stop, then clears the start time and all six accumulators |
| Supervisor.App.SelectSpeed | internal/app/app.go:198-208 | sets the target speed, and sends it to the pad only while ready and started |
| Supervisor.App.DisconnectConnectedPad | internal/app/app.go:284-294 | keeps the app valid; always ends with no pad and disconnected, nothing else in the state changing; a held pad is disconnected once |
| Supervisor.App.OnConnectionLost | internal/app/app.go:278-282 | a link loss of the device whose address the app recorded for its pad disconnects it once and leaves the state disconnected with nothing else changed; another device's link loss, or one with no pad held, changes nothing and disconnects nothing |
| Supervisor.App.AttemptToConnect | internal/app/app.go:296-346 | the outcome follows the scan, the candidates and the connection; the app ends connected to the first candidate and records its address, or disconnected on every other exit |
| Supervisor.App.Iterate | internal/app/app.go:82-133 | a whole loop turn takes the state to AfterIteration for the attempt's outcome |
| Supervisor.ReadyPromotion | internal/app/app.go:95-97 | a turn ends ready if and only if the pad was ready, or was connected and its stats carry a timestamp |
| Supervisor.NotReadyResets | internal/app/app.go:126-129 | a turn not ending ready clears started and the stats and changes nothing else |
| Supervisor.ExternalStartStop | internal/app/app.go:103-110 | a rise in speed starts a stopped session at the current time; a drop to 0 stops a running one; a drop to a non-zero speed changes nothing |
| Supervisor.JointAccumulation | internal/app/app.go:113-125 | all six accumulators grow by the pad's progress if and only if the session runs after the sync and no counter went back; otherwise the totals stay, and the since-start ones stay unless an external stop with the webhook sent cleared them first |
| Supervisor.SyncBeforeAccumulate | internal/app/app.go:103-125 | the turn that sees an external start already counts its time, steps and distance, and the turn that sees an external stop counts none of them |
| Supervisor.BeltStopKeepsTotals | internal/app/app.go:353-368 | stopping never touches the totals, and clears the start time and the since-start accumulators exactly when the webhook was sent |
| Supervisor.StopMenuResets | internal/app/app.go:156-168 | the Stop menu leaves the session stopped with every accumulator and the start time at zero |
| Supervisor.TotalsNeverDecrease | internal/app/app.go:117-124 | over any run of turns the three totals never go down |
| Supervisor.WalkTelescopes | internal/app/app.go:99-125 | over a walk with the pad ready and running, the totals grow by exactly the pad's progress from the first to the last reading |
| Supervisor.AttemptSettles | internal/app/app.go:301-306 | an attempt never leaves the app scanning or connecting, and ends connected if and only if a pad was linked |
| Supervisor.IterationSettles | internal/app/app.go:82-93 | a loop turn keeps the app settled; a failed attempt leaves the state as it was; a linked pad is ticked in the same turn |
| LegacySupervisor.LegacyReadyPromotion | app.go:78-109 | connected becomes ready once the pad has reported; a turn not ending ready clears started and the status and nothing else |
| LegacySupervisor.LegacyJointAccumulation | app.go:86-96 | the three accumulators grow by the pad's progress if and only if the session ran before the sync and no counter went back |
| LegacySupervisor.LegacyExternalStartStop | app.go:98-105 | external starts and stops flip the flag on the same speed conditions as the newer app |
| LegacySupervisor.AccumulateBeforeSync | app.go:86-105 | the turn that sees an external start counts none of its time, steps and distance, and the turn that sees an external stop counts all three |
| LegacySupervisor.StuckAfterFailedAttempt | app.go:65-76 | as written, an app left scanning or connecting stays so over any run of turns |
| LegacySupervisor.FailedScanNeverReconnects | app.go:291-293 | as written, a failed scan from disconnected leaves the app scanning whatever later turns bring |
| LegacySupervisor.FixedRunSettles | internal/app/app.go:301-306 | with the deferred reset every run of turns keeps the state settled |
| LegacySupervisor.FixedRecoversFromFailure | internal/app/app.go:301-306 | with the deferred reset a failed attempt ends disconnected, and the next successful attempt links the pad |
| LegacySupervisor.LegacyApp.constructor | app.go:32-53 | a zero-valued app is disconnected, holds no pad, has every accumulator at zero and keeps the configured target speed |
| LegacySupervisor.LegacyApp.Tick | app.go:77-109 | a loop turn takes the state to LegacyAfterTick of the pad's status and report time |
| LegacySupervisor.LegacyApp.AddProgress | app.go:86-96 | the accumulation step takes the state to LegacyAccumulate |
| LegacySupervisor.LegacyApp.SyncExternal | app.go:98-105 | the external start and stop step takes the state to LegacySync |
| LegacySupervisor.LegacyApp.StartPauseClick | app.go:128-142 | a start sets started and queues StartEntries for the app's copy of the mode and the target speed; a pause clears started and queues the speed-0 entry |
| LegacySupervisor.LegacyApp.QueueStart | app.go:132-137 | the pad's queue grows by StartEntries for the given mode and the target speed |
| LegacySupervisor.LegacyApp.StopClick | app.go:143-151 | clears started and the three accumulators, queuing the speed-0 entry only when the session was running |
| LegacySupervisor.LegacyApp.SelectSpeed | app.go:184-190 | sets the target speed, and queues it on the pad only while ready and started |
| LegacySupervisor.LegacyApp.DisconnectConnectedPad | app.go:267-276 | changes nothing without a pad; otherwise disconnects it once, drops it and ends disconnected |
| LegacySupervisor.LegacyApp.AttemptToConnectAsWritten | app.go:278-322 | as written: a failed scan leaves the app scanning, and a failed connection leaves it connecting |
| LegacySupervisor.LegacyApp.AttemptToConnect | app.go:278-322 | the corrected attempt ends connected with a fresh pad, or disconnected on every other exit |
| LegacySupervisor.LegacyApp.OnConnectionLost | app.go:261-265 | a held pad is disconnected once and dropped, and the state becomes disconnected with nothing else changed; with no pad held (scanning or connecting) neither the pad nor the state changes |
| LegacySupervisor.LegacyApp.Iterate | app.go:65-109 | a loop turn with the corrected attempt, whose outcome (when the turn starts disconnected) is OutcomeOf the scan, the candidates Collected and the connection, takes the whole state to LegacyAfterIteration of the outcome and the pad's status and report, and its connection state follows ConnAfterTurn with the fix |
| LegacySupervisor.LegacyApp.IterateAsWritten | app.go:65-109 | a loop turn as written, whose outcome (when the turn starts disconnected) is OutcomeOf the scan, the candidates Collected and the connection, takes the whole state to LegacyAfterIteration without the fix, and its connection state follows ConnAfterTurn without the fix |
| LegacySupervisor.LegacyIterationConn | app.go:65-80 | the connection state of a whole turn is the one ConnAfterTurn gives when no link was lost |
| LegacySupervisor.LegacyFailedTurn | app.go:65-109 | with the fix a failed attempt leaves the whole state as it was; as written a failed scan or connection leaves the app scanning or connecting, and that turn clears the session flag and the status but keeps the accumulators |

## Left out

- The Bluetooth transport is not modelled: scanning, connecting, service and characteristic discovery, notifications and writes. Scan results and the success of a scan or a connection are inputs; writes go to a ghost trace, and device disconnects to a ghost counter.
- A discoverer's connect function is not modelled. A candidate pairs the device with a connector number.
- The legacy connect step (walkingpad.go:81-130) is not modelled beyond its success flag. On success the app holds a fresh pad.
- Goroutines, channels, the wait group and context cancellation are not modelled. The methods run one at a time.
- The 3 s stats ticker (`askStatsLoop`) is not modelled. `AskStats` is.
- The sleeps are not modelled: 700 ms, 2.5 s, 500 ms, 5 s and the scan timeout become pause events or are dropped.
- Kingsmith.KingsmithPad.PushCmd: a queue holding 50 entries blocks the sender in the source; the model's queue is unbounded.
- Kingsmith.KingsmithPad.ProcessCmds ends by calling Disconnect, which the model lets complete. In the source, `wg.Wait` in `Disconnect` (internal/walkingpads/kingsmith.go:241-242, 152) also waits for the command loop itself.
- Kingsmith.KingsmithPad.PushCmd requires that the driver is not stopped: in the source, pushing after `Disconnect` closed the queue panics.
- Kingsmith.KingsmithPad.ProcessCmd, ProcessEach and ProcessCmds inherit the 0 to 60 tenths requirement of ChangeSpeed for the speeds of Start and ChangeSpeed commands. For a Start with an out-of-range speed the source queues the mode change, the start and the 2.5 s wait before it panics; those entries are not modelled.
- LegacySupervisor.LegacyApp.constructor requires the configured target speed to lie within 0 to 6 km/h, which the source does not check: with a larger one the first Start click would panic when it builds the speed frame.
- LegacyPad.WalkingPad.PushCmd: a queue holding 50 entries blocks the sender in the source (walkingpad.go:157); the model's queue is unbounded.
- LegacyPad.WalkingPad.PushCmd requires that the pad is not stopped: in the source, pushing after `Disconnect` closed the queue (walkingpad.go:167) panics. The command methods built on it inherit this.
- Kingsmith.KingsmithPad.OnBufferReceive: the consumer of the update channel is not modelled. Nothing takes from `updates`, so after 50 status frames the model drops every later update, while in the source the newer app's wrapper keeps draining the channel.
- Kingsmith.KingsmithPad.OnBufferReceive requires a status frame to arrive before teardown: sending on the closed update channel panics.
- Kingsmith.KingsmithPad.OnBufferReceive and LegacyPad.WalkingPad.OnBufferReceive require a status frame of at least 14 bytes. The decoder indexes the payload without a length check, so the source would panic on a shorter frame.
- LegacyPad.WalkingPad.WriteLoop takes the number of rounds before cancellation as a parameter. The legacy writer can stop on cancellation with entries left in the queue.
- The default branch of `processCmds` (an unknown command type) is not modelled: the Command datatype has exactly three variants.
- Floating point is not modelled. Speeds are integer tenths, so the model cannot express a speed that is not a whole number of tenths; the source truncates such a speed when it builds the frame (`byte(speed*10.0)`). Distances are integer hundredths, and time is whole seconds.
- Kingsmith.KingsmithPad.ChangeSpeed and LegacyPad.WalkingPad.ChangeSpeed require 0 to 60 tenths; the source panics outside 0 to 6 km/h.
- The UI is not modelled: menu set-up, title formatting, enabling and disabling items, and opening URLs.
- Webhook delivery is not modelled: the HTTP request, URL templating, the JSON log and the minimum-duration threshold. Only its "sent" result is an input.
- Configuration and the UUID tables are not modelled. Service identifiers are strings.
- `internal/app/walkingpad.go` is not modelled. It is a mutex and channel wrapper around a driver; the newer app records the commands it would send in a ghost list.
- The stats timestamp is an input of the newer app's tick. The wrapper's stats type in this snapshot carries no timestamp field.
- The snapshot's signature mismatches are not reconciled. For example, the newer app calls the scan with four arguments while it takes three. The model's scan takes the discoverer list as a parameter.
- Supervisor.App.StartPauseClick requires a linked pad; the source sends to the pad without checking for one.
- LegacySupervisor.LegacyApp.StartPauseClick requires a held pad, for the same reason.
- Supervisor.App.StopClick and LegacySupervisor.LegacyApp.StopClick require a linked pad while the session runs. A Stop click after the link dropped while started would dereference a nil pad in the source.
- LegacySupervisor.LegacyApp.OnConnectionLost stands for a lost link of the held pad only. The address comparison with other devices is modelled in the newer app alone.
- The legacy Start click reads the standby mode from the app's copy of the status, as the source does, not from the pad's last status.
- The status layout follows the code, not the protocol description: payload byte 0 is unused and speed is at byte 1. A payload shorter than 12 bytes is a precondition, not an error result.

## Findings

| source | as written | input that shows it | evidently intended | confidence | as-written member | corrected member |
|---|---|---|---|---|---|---|
| app.go:278-322 | `attemptToConnect` returns on a scan error while scanning and on a connect error while connecting. The main loop (app.go:65-76) only attempts from disconnected, and only a held pad's link loss resets the state, so the app never tries again | a scan that fails once from disconnected, then any sequence of turns: the state stays scanning | every exit that is not connected ends disconnected, as the newer app's deferred reset does (internal/app/app.go:301-306) | not executed | LegacySupervisor.FailedScanNeverReconnects | LegacySupervisor.FixedRecoversFromFailure |
