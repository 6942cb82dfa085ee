# Verification of the home control core

These Dafny 4.11 modules model the parts of the repository that decide whether a command
reaches a relay, and everything those decisions rest on, and prove what they promise
over every run.

**Permit authority and its clock.** `ControlClock` is the latching tick source with its
UTC anchor and recovery fence; `RecoveryFence` proves the fence formula long enough for
drifting clocks, gives the exact threshold in whole ticks, and shows how far the formula
lies above it: one tick with the default bounds, fewer than 2 / (1 - rate) always.
`CommandRecords` holds the durable rows and their constraints, `ControlAuthority` the
operations on them, `PermitLimiter` the limiter seen through the log of what it let
through, and `AuthorityAnswers` says in terms of stored rows, clock and log when each of
them succeeds and with what error it does not. `AuthorityRuns` is the protocol: any
number of epochs, also at the same time, over one store, with real time, drifting
counters, restarts, lost caches and other ledger updates in between.
`AuthorityInvariant` proves its invariant, `AuthorityTheorems` what follows for one
epoch or two, `EpochPermits` bounds the permits of all epochs together. `DeliveryDates`
and `PermitContent` state what every delivery says, and `ControlGateway` adds what the
gateway does with a staged candidate or a permit before it leaves the process, and
proves what is true of everything it publishes (`GatewayTheorems`). `LedgerRuns` shows
the operations of `CommandLedger` to be runs of this protocol.

**Ledger, network and relay.** `CommandLedger` moves one row by acknowledgements, state
reports, publication results and deadlines; `LedgerTrace` gives the same verdict from
the whole history of evidence, without a row. `Submissions` cuts `submit` at its awaits
and commits and `SubmissionRuns` interleaves such pieces with everything else that
touches the table; `SubmissionAnswers` gives the exact conditions. `Relay` is the
software relay with its evicting cache. `EndToEnd` joins ledger and relay, which may
restart with an empty cache, by a network that loses, repeats and reorders (QoS 1 of
OASIS MQTT 3.1.1, section 4.3.2). `EndToEndLive` is its positive counterpart.
`CommandClock` is the clock of software commands.

**Structure and bindings.** `Structure` has the five tables, their constraints, the
services on them and the binding-first lookup; `StructureRuns` runs the same
transactions concurrently, statement by statement, with house locks, and
`StructureLocks` proves which of these locks are needed; `StructureIdentifiers` gives a
condition under which all are found, `StructureAnswers` the exact conditions and writes
of the services.

**Smaller cores.** `ProvisioningState`, `ProvisioningService` and `ProvisioningAnswers`
(attempts and the transactions around them), `DemoUpgrade` (the crash-resumable
upgrade), `AutomationCascade` and `AutomationAnswers` (rules that start rules),
`MqttPayloads` (the JSON bounds) and `MqttTopics` (topic strings).

Times, ticks and counters are integer microseconds. Real time and drift are `real` and
bounded by an explicit assumption (`AuthorityRuns.Honest`), which whole-tick counters
can meet if and only if the configured error is 2 us or more. SHA-256 is an injective
constructor and a UUID is an identifier not in use. One database transaction is one
step, except where the module says that its statements interleave. Clock readings,
look-ups in other tables and authorization results are parameters. A class models each
object whose methods change it; its methods are proved against a step function over the
same state, and the theorems are about runs of such steps.

Some statements that look true are not, and are not claimed: a command marked failed may
still be executed later (`EndToEnd.FailedMayStillBeExecuted`); a restarted relay may
execute a command again (`EndToEnd.RestartMayExecuteAgain`); the recovery fence is not
the least sufficient one (`RecoveryFence.FormulaIsNotLeast`); the relay's evicting cache
is not always as good as an unbounded one, since an identifier reused late enough is
executed again (`Relay.ReusedIdentifierIsExecuted`) and a full cache refuses what an
unbounded one executes (`Relay.FullCacheRefuses`); two unexpired permits for one device
can overlap (two is the proved bound, also over successive epochs,
`EpochPermits.AtMostTwoUnexpiredOverall`); and `completed_at` may lie after
`expires_at`, because the clock is read again after the test.

One promise of the structure guard holds only under a condition. The lock statement does
not notice that the house it names has no row, and an identifier is chosen by the
client. If a house is deleted after a claim in it was admitted but before the claim
locks it, and then created again, the claim goes on without a lock, and the room can
leave that house before the claim commits
(`StructureLocks.DeletedAndRecreatedHouseBreaksAgreement`).
`StructureRuns.BindingAgreesWithTree` therefore asks that no transaction makes accepted
writes without the lock it needs: a claim that of its house; a move, within a house or
across, and a deletion of a floor, room or device that of the house it found its entity
in or of the one the entity is in by then; the deletion of a house, an edit that leaves
the tree alone, and a creation none. `StructureLocks.LockNeededExactlyWhen` shows that
this is exact for each of them: such a transaction is harmless whatever comes next if
and only if it has its lock. A caller can avoid the question: if no house is ever
created under an identifier that an earlier house had, every lock is found and the
agreement holds (`StructureIdentifiers.UniqueIdentifiersAgree`).

The relay compares a repeated command with the remembered one by Python equality, in
which true equals 1; `Relay.Same` keeps that.

`dafny verify dfyconfig.toml` checks the whole project.

## Model

| member | source | states |
|---|---|---|
| `ControlClock.ControlClock.Create` | app/services/control_clock.py:15-39 | a rate of a million ppm or more raises; otherwise the clock starts at its first reading, latched if that is no integer |
| `ControlClock.ControlClock.Tick` | app/services/control_clock.py:41-50 | an accepted reading moves the clock; anything else is refused and, on a qualified clock, latched |
| `ControlClock.ControlClock.Recovered` | app/services/control_clock.py:52-53 | whether the fence has run out, by a fresh reading |
| `ControlClock.ControlClock.LogicalNow` | app/services/control_clock.py:55-60 | anchor plus elapsed ticks, also while a wall fault is latched |
| `ControlClock.ControlClock.Sample` | app/services/control_clock.py:62-75 | time and tick together, refused on any fault, divergence, bad health or open fence |
| `ControlClock.SampleGranted` | app/services/control_clock.py:62-75 | a granted sample comes from two accepted readings, the second past the fence, with the wall clock within a second |
| `ControlClock.SampleGrantedExactlyWhen` | app/services/control_clock.py:62-75 | a sample is granted if and only if the clock is qualified and free of faults, the probe is well, the wall clock is within a second, both ticks follow on and the second is past the fence; which faults a call latches is stated the same way |
| `ControlClock.TickAcceptedExactlyWhen` | app/services/control_clock.py:41-60 | when a reading is accepted, what the fence test and the logical time then say, and what is latched otherwise |
| `ControlClock.ClockOnlyMovesForward` | app/services/control_clock.py:41-75 | no operation moves the clock back, changes its identity or releases a latch; a latched clock grants no sample |
| `RecoveryFence.FenceIsCeiling` | app/services/control_clock.py:36-39 | the formula is the ceiling of (30 s + error)(1 + rate)/(1 - rate) |
| `RecoveryFence.FenceCoversLifetime` | app/services/control_clock.py:36-53 | once a new clock has counted the fence of the formula, every old clock that ran all the while has counted 30 s of whole ticks, for all drifts within the bounds |
| `RecoveryFence.ShorterFenceFails` | app/services/control_clock.py:36-39 | a fence with fence (1 - rate) at most (30 s - 1 + error)(1 + rate) is too short: there are permitted drifts and whole tick counts under which an old clock has not counted 30 s |
| `RecoveryFence.FenceCoversExactlyWhen` | app/services/control_clock.py:36-39 | a whole number of ticks is long enough if and only if fence (1 - rate) exceeds (30 s - 1 + error)(1 + rate) |
| `RecoveryFence.LeastFenceIsLeast` | app/services/control_clock.py:36-39 | LeastFence is the least whole number of ticks that is long enough |
| `RecoveryFence.FormulaAboveLeast` | app/services/control_clock.py:36-39 | the formula is at least that and exceeds it by fewer than 2/(1 - rate) ticks; with a perfect rate the two are equal |
| `RecoveryFence.FormulaIsNotLeast` | app/services/control_clock.py:36-39 | with the default bounds the formula gives 30,061,063 where 30,061,062 suffices; at 900,000 ppm it is 18 ticks above the least |
| `ControlAuthority.ControlAuthority.Initialize` | app/services/control_authority.py:71-98 | one snapshot of the foreign pending commands; the fence starts after it |
| `ControlAuthority.ControlAuthority.ReleaseTerminal` | app/services/control_authority.py:141-151 | a full table loses exactly the windows of terminal commands |
| `ControlAuthority.ControlAuthority.Prepare` | app/services/control_authority.py:121-186 | the whole new state and error of a preparation: checks in order, both rows in one transaction, then the window |
| `ControlAuthority.ControlAuthority.Stage` | app/services/control_authority.py:188-219 | the dispatch mark is stored once, for a current candidate before its tick deadline |
| `ControlAuthority.ControlAuthority.Limit` | app/services/control_authority.py:221-235 | per-device and per-second limiter, in place |
| `ControlAuthority.ControlAuthority.Request` | app/services/control_authority.py:237-338 | a new permit, the stored reply again, or the exact refusal |
| `ControlAuthority.ControlAuthority.Issue` | app/services/control_authority.py:284-338 | consumes the binding and remembers the permit |
| `ControlAuthority.ControlAuthority.ValidateDelivery` | app/services/control_authority.py:340-345 | a delivery is good before the earlier of its two ticks, in its own epoch |
| `ControlAuthority.ControlAuthority.Expired` | app/services/control_authority.py:347-360 | own commands by their window, foreign ones of the snapshot by the fence, all others unavailable |
| `PermitLimiter.LimitKeepsExplanation` | app/services/control_authority.py:221-235 | the limiter state is explained by the log of what it let through, after every call |
| `PermitLimiter.RatesBounded` | app/services/control_authority.py:221-235 | at most 200 devices are remembered |
| `PermitLimiter.RepliesBounded` | app/services/control_authority.py:291-299 | at most 300 permits are alive |
| `PermitLimiter.PassesPerWindow` | app/services/control_authority.py:221-235 | at most 200 requests pass in any window of 1,000,000 ticks |
| `PermitLimiter.AtMostTwoUnexpired` | app/services/control_authority.py:221-235 | when a device gets its third permit, its first has run out |
| `PermitLimiter.LimitedExactlyWhen` | app/services/control_authority.py:221-235 | a request passes if and only if its device had no pass for a million ticks and its calendar second fewer than 100, as long as the table has room |
| `AuthorityInvariant.StepKeepsGood` | app/services/control_authority.py:71-360 | one step of any epoch, restart, cache loss or ledger update keeps the protocol invariant |
| `AuthorityInvariant.RunKeepsGood` | app/services/control_authority.py:71-360 | so does every run |
| `AuthorityTheorems.PermitIsSingleUse` | app/services/control_authority.py:188-338 | over all runs and restarts a command is prepared, staged at most once, then given one and the same permit, whose remaining time is positive, under two seconds and ends before the deadline |
| `AuthorityTheorems.StoredBindingIsGranted` | app/services/control_authority.py:281-338 | the stored binding is that of the permit handed out, and no two commands share one |
| `AuthorityTheorems.BindingIsWrittenOnce` | app/services/control_authority.py:310-329 | in every continuation a stored binding, candidate, digest and epoch stay as they are |
| `AuthorityTheorems.ForeignExpiryIsSound` | app/services/control_authority.py:347-353 | when one epoch reports a foreign command expired, the owner's counter has reached that command's deadline, then and ever after |
| `AuthorityTheorems.NoStageOrGrantAfterDeadline` | app/services/control_authority.py:188-281 | an owner that samples its clock after the deadline refuses to stage or to grant |
| `AuthorityTheorems.ExpiredCommandNeverReturns` | app/services/control_authority.py:188-353 | once another epoch has expired a command, no operation of the owner that samples its clock later stages it or grants a permit for it, in any continuation of the run |
| `AuthorityTheorems.RunsConcatenate` | app/services/control_authority.py:71-360 | a possible run continued by a possible run is one possible run, and conversely |
| `AuthorityTheorems.HonestHardwareExistsExactlyWhen` | app/services/control_clock.py:15-39 | the assumption about counters and drift can be met, for every rate below a million ppm, if and only if the configured error is at least 2 us (the default is 1000) |
| `AuthorityTheorems.EpochsDoNotOverlap` | app/services/control_authority.py:71-98 | if one epoch stopped before another's snapshot, every operation of the new one that samples the clock comes after every deadline of the old one |
| `AuthorityTheorems.TableMatchesLedger` | app/services/control_authority.py:141-186 | every pending command of an epoch has its window, with the stored identity and digest, within the capacity |
| `AuthorityTheorems.OwnExpiryIsCalendarExpiry` | app/services/command_service.py:51-62 | expiry of an own pending command is never unavailable for lack of a window and agrees with the stored calendar deadline |
| `AuthorityTheorems.TickDeadlineIsCalendarDeadline` | app/services/control_authority.py:136-185 | tick at or past the window's deadline if and only if logical time is at or past expires_at |
| `AuthorityTheorems.CapacityNeverRefuses` | app/services/control_authority.py:221-299 | in reachable states neither capacity check of the limiter or the reply cache can refuse |
| `AuthorityTheorems.GrantRateBounded` | app/services/control_authority.py:221-338 | at most 200 new permits in any window of 1,000,000 ticks |
| `AuthorityTheorems.AtMostTwoUnexpiredPermits` | app/services/control_authority.py:221-338 | at most two unexpired permits per device and epoch, in every reachable state |
| `AuthorityAnswers.RoomExactlyWhen` | app/services/control_authority.py:141-151 | after pruning there is room for a window if and only if fewer than 4096 commands of the epoch are pending |
| `AuthorityAnswers.PrepareExactlyWhen` | app/services/control_authority.py:121-186 | in every reachable state: which intents are prepared, what is stored, and the exact error otherwise, in terms of the stored rows and the clock |
| `AuthorityAnswers.StageExactlyWhen` | app/services/control_authority.py:188-219 | which candidates are staged, with the logical time as dispatch mark, and the exact error otherwise |
| `AuthorityAnswers.RequestExactlyWhen` | app/services/control_authority.py:237-338 | a request is answered with a permit if and only if it is admitted, the clock trusted, the request entitled, and either a first permit is due (two ticks before the deadline, limiter free, session new) or the remembered one again; what is stored in either case |
| `AuthorityAnswers.RequestRefusal` | app/services/control_authority.py:237-281 | the exact error of every refusal, which stores nothing |
| `AuthorityAnswers.DeliveryValidExactlyWhen` | app/services/control_authority.py:340-345 | when a delivery passes the last check, and the error otherwise |
| `AuthorityAnswers.InitializeExactlyWhen` | app/services/control_authority.py:71-98 | when initialization succeeds; the snapshot is exactly the set of pending commands of other epochs |
| `AuthorityAnswers.ForeignExpiredExactlyWhen` | app/services/control_authority.py:347-353 | a foreign command is expired exactly when the snapshot has it and an accepted reading is past the fence, and is never reported alive |
| `AuthorityAnswers.OwnExpiredExactlyWhen` | app/services/control_authority.py:354-360 | an own command is overdue from the deadline of its window on |
| `AuthorityAnswers.TamperedIsRefused` | app/services/control_authority.py:196-264 | whatever the state, a candidate whose bytes, digest or row differ from what was prepared is neither staged nor granted |
| `AuthorityAnswers.CapacitiesAre` | app/services/control_authority.py:221-299 | 4096 remembered devices and 1024 live replies are the capacities behind the limiter |
| `AuthorityAnswers.OtherSessionIsRefused` | app/services/control_authority.py:281-292 | whatever the state, once a session is stored no other is given a permit |
| `EpochPermits.EarlierPermitIsOver` | app/services/control_authority.py:71-338 | once an epoch has given a device a permit, every permit of an epoch that stopped before its snapshot is over on its own counter |
| `EpochPermits.AtMostTwoUnexpiredOverall` | app/services/control_authority.py:71-338 | of any three permits of one device, from whichever epochs, one is over, as long as of any two of these epochs one stopped before the snapshot of the other |
| `ControlGateway.MQTTGateway.SendControlCommand` | app/transports/mqtt.py:208-216 | stage, link check, delivery check, publication: the exact new state, error and message |
| `ControlGateway.MQTTGateway.ControlRequest` | app/transports/mqtt.py:218-247 | grant or denial; refusals by conflict or unavailability become a denial, others are raised |
| `DeliveryDates.RunKeepsDates` | app/services/control_authority.py:136-338 | in every run each staged or granted delivery carries its command's epoch and tick deadline, and that deadline is the stored calendar deadline on that epoch's clock |
| `DeliveryDates.NothingLeavesLate` | app/transports/mqtt.py:208-247 | a delivery staged or granted at any time in a run passes the final check only while its epoch's logical time is before the stored deadline, and a permit before it runs out; stage and binding are durable by then |
| `PermitContent.RunTellsTruth` | app/services/control_authority.py:155-186 | in every run each candidate repeats its stored row field by field, and each logged permit is truthful |
| `PermitContent.PermitTellsTruth` | app/services/control_authority.py:303-338 | every permit, new or repeated, carries this very request, as core time the logical time of the tick of its first issue, the stored expires_at of the command, which is later, and a remaining time that ends it before the deadline and within two seconds of that tick |
| `GatewayTheorems.CheckedMayLeave` | app/services/control_authority.py:340-345 | the same for what one stage or request returned, with any possible run between it and the check: right command, epoch, bytes and binding, truthful content, in time |
| `GatewayTheorems.ReactionIsRun` | app/transports/mqtt.py:208-247 | either handler leaves the authority and the store exactly as the run of its authority calls does, with the final check as the last one if the link is up |
| `GatewayTheorems.PublishedMayLeave` | app/transports/mqtt.py:208-247 | whatever either handler publishes in a reachable world is in time by the stored deadline and by its own end, over a fully subscribed connection, with its stage or its binding already in the store; a candidate repeats its row and a permit is truthful |
| `GatewayTheorems.PublishedExactlyWhen` | app/transports/mqtt.py:208-247 | a candidate or permit is published if and only if it was granted, the control topics are subscribed, the clock is trusted once more and it has not run out; otherwise a request is denied or its error raised, and a candidate leaves the exact error |
| `GatewayTheorems.NothingLeavesUnsubscribed` | app/transports/mqtt.py:108-125 | no candidate or permit is published, in any state, unless the last connection event opened a connection whose every subscription, the control one included, was accepted |
| `CommandLedger.CommandService.Expire` | app/services/command_service.py:51-62 | a pending row past its deadline is stored as timed out; control rows are judged by the permit authority |
| `CommandLedger.CommandService.Ack` | app/services/command_service.py:193-224 | the exact new ledger after an acknowledgement |
| `CommandLedger.CommandService.FindByCorrelation` | app/services/command_service.py:233-237 | finds a matching row if there is one |
| `CommandLedger.CommandService.State` | app/services/command_service.py:226-244 | the exact new ledger after a state report, for whichever row matches |
| `CommandLedger.CommandService.Report` | app/services/command_service.py:238-244 | the report applied to the row that was found |
| `CommandLedger.RowOperationsPreserve` | app/services/command_service.py:51-244 | no row operation changes the intent, the idempotency key, the dispatch mark or anything about a terminal row |
| `CommandLedger.OverdueExactlyWhen` | app/services/command_service.py:51-55 | who decides that a command is overdue: the permit authority for control commands, the calendar for others, nobody once it is decided |
| `CommandLedger.AckReaches` | app/services/command_service.py:193-224 | an acknowledgement reaches the row of its identifier if house, device and correlation match, and nothing otherwise |
| `CommandLedger.ReportReaches` | app/services/command_service.py:226-244 | a report reaches the row of its house, device and correlation |
| `LedgerTrace.LedgerFollowsEvidence` | app/services/command_service.py:153-244 | a command ends applied, failed, timed out or open exactly when its whole history of evidence says so in a definition that mentions no row; and so does every stored fact: dispatched or queued, failure code, acknowledgement and report with their stamps, first dispatch, last update, completion |
| `LedgerRuns.TouchIsRun` | app/services/command_service.py:51-72 | every row operation is a possible run of the authority's protocol: expiry test, readings for the stamps, then one row update, or none if the clock refused |
| `LedgerRuns.AckIsRun` | app/services/command_service.py:193-224 | an acknowledgement of a known command is such a run |
| `LedgerRuns.StateIsRun` | app/services/command_service.py:226-244 | so is a state report |
| `LedgerRuns.GetIsRun` | app/services/command_service.py:75-81 | so is a look-up |
| `Submissions.SubmitService.LookUp` | app/services/command_service.py:94-110 | finds the row of the key and the pending row of the device if there are any |
| `Submissions.SubmitService.Begin` | app/services/command_service.py:83-119 | up to the first await: replay, refusal or an open transaction with the overdue row flushed |
| `Submissions.SubmitService.Record` | app/services/command_service.py:119-136 | the new row is committed only if every constraint admits it; otherwise everything is rolled back |
| `Submissions.SubmitService.Settle` | app/services/command_service.py:153-167 | the transaction after the publication: expiry test, then failed or dispatched |
| `Submissions.SubmitService.Answer` | app/services/command_service.py:168-168 | the final read in its own transaction: the row as stored and returned, timed out if it is overdue by then |
| `SubmissionAnswers.ProceedsExactlyWhen` | app/services/command_service.py:83-118 | a submission goes on if and only if the binding is active, the key new, the contract met, the device without an open command in time, online and connected; an overdue command is timed out in the open transaction |
| `SubmissionAnswers.ReplayedExactlyWhen` | app/services/command_service.py:94-104 | a key is replayed if and only if a command under it was for the same device and value |
| `SubmissionAnswers.RefusedBecause` | app/services/command_service.py:83-118 | the exact error of every refusal, which stores nothing |
| `SubmissionAnswers.RecordExactlyWhen` | app/services/command_service.py:119-136 | the new row field by field, and when it is stored |
| `SubmissionAnswers.SettleStores` | app/services/command_service.py:153-167 | how the end of a publication changes the row |
| `SubmissionAnswers.EmitsExactlyWhen` | app/transports/mqtt.py:172-194 | a message can be handed to the broker exactly during the 30 s from its timestamp on |
| `SubmissionAnswers.SuccessMeansSent` | app/services/command_service.py:137-152 | a publication counts as successful only if its message is on the wire |
| `SubmissionAnswers.BeginsExactlyWhen` | app/services/command_service.py:83-118 | in every run a submission that begins is under way if and only if it is admitted in that very state |
| `SubmissionAnswers.UnderWayWasAdmitted` | app/services/command_service.py:83-152 | and every submission under way was admitted when it began, so none for an offline device or a disconnected transport |
| `SubmissionRuns.StepKeepsSound` | app/services/command_service.py:83-244 | one step of any interleaving keeps the invariant and only ever lets rows grow |
| `SubmissionRuns.DurableBeforePublishing` | app/services/command_service.py:119-152 | before a message is handed to the broker an earlier step of the same submission committed its row; the message has that row's house, device, value, correlation and deadline, as committed and in every later state, and leaves inside its validity interval |
| `SubmissionRuns.WireIsEmitted` | app/services/command_service.py:136-152 | every message on the wire was emitted by a submission that was publishing |
| `SubmissionRuns.PublishesAtMostOnce` | app/services/command_service.py:83-168 | each (house, user, key) publishes at most once, in every interleaving |
| `SubmissionRuns.KeyAlwaysAnswersSameCommand` | app/services/command_service.py:94-104 | a key is always answered with the same command, device and value |
| `SubmissionRuns.OnePendingPerDevice` | app/models/device_command.py:35-41 | never two pending rows for one device |
| `SubmissionRuns.TerminalIsForever` | app/services/command_service.py:170-224 | rows stay, keep their intent and key, and never change once terminal |
| `Relay.Relay.Handle` | simulator/mqtt_relay.py:105-161 | the exact new cache and output, the messages sent, and whether the command was refused by an exception |
| `Relay.AnsweredOnceNeverExecutedLater` | simulator/mqtt_relay.py:118-161 | once any copy of a command was answered, no later copy changes the output, however often entries were evicted |
| `Relay.ExecutedAtMostOnce` | simulator/mqtt_relay.py:118-161 | one command changes the output at most once in any run |
| `Relay.SameExactlyWhen` | simulator/mqtt_relay.py:125-126 | repeated content is the same up to 1 for true and 0 for false |
| `Relay.RejectedExactlyWhen` | simulator/mqtt_relay.py:127-142 | which commands are rejected for which reason, in this order, and which are executed |
| `Relay.AnsweredExactlyWhen` | simulator/mqtt_relay.py:118-146 | a delivery is answered if and only if its time has a zone and its identifier is remembered for the same command or new while there is room |
| `Relay.AckStemsFromFirst` | simulator/mqtt_relay.py:121-160 | every acknowledgement is that of the first delivery of this very command |
| `Relay.ExecutionIsReported` | simulator/mqtt_relay.py:145-161 | an executed delivery sets the requested output, acknowledges that and reports the new output; any other leaves the output alone and reports no state |
| `Relay.ReportedExactlyWhen` | simulator/mqtt_relay.py:95-161 | over every run, a state is reported by exactly the executed deliveries, under their correlation, and is the requested one |
| `Relay.EvictingCacheRefinesUnbounded` | simulator/mqtt_relay.py:118-161 | the output is always that of the same relay with a cache, keyed by identifier, that never evicts and is never full, as long as no new identifier meets a full cache and no identifier is used again by different content that outlives the memory of the first |
| `Relay.ReuseDivergesExactlyWhen` | simulator/mqtt_relay.py:118-144 | two commands under one identifier make the outputs differ in some run, in which they are the only reuse and the cache is never full, if and only if one can still be executed more than 300 s after the timestamp of the other |
| `Relay.ReusedIdentifierIsExecuted` | simulator/mqtt_relay.py:118-124 | a concrete reuse that the relay refuses neither time and executes, and the unbounded cache does not |
| `Relay.FullCacheDivergesExactlyWhen` | simulator/mqtt_relay.py:143-146 | a new identifier that meets a full cache makes the outputs differ if and only if its command is executable and asks for the other output |
| `Relay.FullCacheRefuses` | simulator/mqtt_relay.py:143-146 | a concrete run of 4096 commands that fills the cache and one more that the relay refuses and the unbounded cache executes |
| `EndToEnd.AppliedAckMeansExecuted` | simulator/mqtt_relay.py:147-160 | an applied acknowledgement on the network proves an execution, cached answers included |
| `EndToEnd.RunKeepsInv` | app/transports/mqtt.py:161-201 | core, network and relay keep the joint invariant in every run, relay restarts included |
| `EndToEnd.AppliedMeansExecutedOnce` | app/services/command_service.py:180-244 | a software command marked applied was executed in some lifetime of the relay, with the requested value, before its deadline on the relay's clock, and exactly once in that lifetime; so exactly once if the relay never restarted |
| `EndToEnd.TimedOutMeansOver` | app/services/command_service.py:51-62 | timed out is said only at or after the deadline, and what the relay still executes afterwards, restarted or not, happens within the clock skew of it |
| `EndToEnd.FailedMayStillBeExecuted` | app/services/command_service.py:153-158 | a concrete run in which a command marked failed is executed afterwards |
| `EndToEnd.RestartMayExecuteAgain` | simulator/mqtt_relay.py:118-161 | a concrete run in which a restarted relay, whose cache is empty, executes the same command a second time |
| `EndToEndLive.ReportIsRequested` | app/services/command_service.py:226-244 | a report that reaches the core under the correlation of a command carries the requested value and proves an execution |
| `EndToEndLive.HeardMeansApplied` | app/services/command_service.py:180-244 | if acknowledgement and report of the relay reach the core in time, in any order and with anything in between, and the command was not decided before the second of them, it is applied from then on |
| `EndToEndLive.ExecutedCanBeApplied` | app/services/command_service.py:193-244 | from every reachable state, two messages of the relay make an executed open command applied before its deadline |
| `EndToEndLive.CommandIsAccomplished` | app/services/command_service.py:83-244 | a concrete run from submission to applied |
| `Structure.BoundInMeansInside` | app/repositories/physical_device_repository.py:129-146 | the subtree query finds exactly the claimed devices inside the house, floor, room or device |
| `Structure.ChangeKeepsAgreement` | app/services/crud_service.py:37-68 | an allowed move or delete leaves every claimed device in its bound house |
| `Structure.ChangeKeepsConstraints` | app/services/crud_service.py:37-68 | after an allowed change all foreign keys and checks hold, so the database accepts it |
| `Structure.ClaimKeepsAgreement` | app/services/onboarding_service.py:56-92 | a successful claim keeps all constraints and the agreement |
| `Structure.StructureService.RegisterInventory` | app/services/onboarding_service.py:39-54 | registered if and only if neither the device identity nor the hardware is taken |
| `Structure.StructureService.Claim` | app/services/onboarding_service.py:56-92 | the exact outcome and the exact rows written; invariant kept |
| `Structure.StructureService.Transition` | app/services/onboarding_service.py:94-116 | legal lifecycle changes only; invariant kept |
| `Structure.StructureService.Modify` | app/services/onboarding_service.py:147-164 | moves and deletes at every level under the binding guard; invariant kept |
| `Structure.StructureService.HouseId` | app/repositories/device_repository.py:77-95 | binding-first lookup returns what the walk up the tree returns, for every device |
| `StructureRuns.ChangeSparesOthers` | app/services/onboarding_service.py:147-164 | a change under the lock of its house touches nothing in any other house |
| `StructureRuns.StepKeepsSound` | app/services/onboarding_service.py:147-164 | every statement of every concurrent transaction keeps the invariant; a commit that the database accepts does if the transaction has the lock it needs |
| `StructureRuns.BindingAgreesWithTree` | app/repositories/device_repository.py:77-95 | in every interleaving, a claimed device's walk ends in its bound house, provided (LocksFound) no accepted commit lacks the lock it needs |
| `StructureRuns.BindingIsPermanent` | app/repositories/physical_device_repository.py:87-123 | in every interleaving, without any proviso, inventory rows stay, a binding never changes house and revoked is final |
| `StructureLocks.ContinuationStaysSound` | app/services/onboarding_service.py:147-164 | a finished transaction that has its lock does no harm, in any continuation in which the others have theirs |
| `StructureLocks.LockIsNeeded` | app/repositories/physical_device_repository.py:37-46 | for every finished claim, move or deletion that the database would accept without the lock it needs, from every sound world, some continuation in which all others have theirs breaks the agreement |
| `StructureLocks.LockNeededExactlyWhen` | app/repositories/physical_device_repository.py:37-46 | the exact condition: such a transaction is harmless in all those continuations if and only if it has its lock |
| `StructureLocks.DeletedAndRecreatedHouseBreaksAgreement` | app/repositories/house_repository.py:40-52 | a concrete run from the empty store: the house exists when the claim is admitted, is deleted before the claim locks it, is created again under the same identifier, and the claim ends bound to a house it is not in |
| `StructureAnswers.TransitionExactlyWhen` | app/services/onboarding_service.py:94-116 | a lifecycle change is accepted if and only if the device is claimed by the house and the change is none or one of the seven legal pairs; the exact error otherwise |
| `StructureAnswers.ProvisioningCanGoOn` | app/services/onboarding_service.py:94-116 | in every sound world a device in provisioning can become active, inactive or revoked, and every claimed device that is not revoked can be |
| `StructureAnswers.InventoryRowsAre` | app/models/physical_device.py:18-25 | an unclaimed row has its code and no binding, a claimed one is bound to a house and its own device and has none |
| `StructureAnswers.NoWayBack` | app/services/onboarding_service.py:94-116 | over runs no claimed device is unprovisioned again and none returns to provisioning |
| `StructureAnswers.ClaimExactlyWhen` | app/services/onboarding_service.py:56-92 | which claims are accepted, and the exact error of the others |
| `StructureAnswers.ClaimWrites` | app/services/onboarding_service.py:78-92 | all that a claim writes |
| `StructureAnswers.ChangeExactlyWhen` | app/services/onboarding_service.py:147-164 | which moves and deletions are accepted, and the exact error of the others |
| `StructureAnswers.MoveWrites` | app/services/crud_service.py:37-68 | a moved entity hangs under its new parent and nothing else changes |
| `StructureAnswers.DeletionWrites` | app/services/crud_service.py:37-68 | a deletion removes the entity and exactly what hangs in it |
| `StructureAnswers.ClaimAloneIsService` | app/services/onboarding_service.py:56-92 | a claim run statement by statement, left alone, is the claim of the service |
| `StructureAnswers.ChangeAloneIsService` | app/services/onboarding_service.py:147-164 | so is every move and deletion |
| `StructureAnswers.RegistrationWrites` | app/services/onboarding_service.py:39-54 | a registered device is unclaimed and has its code |
| `StructureAnswers.CreationExactlyWhen` | app/services/onboarding_service.py:39-54 | when registrations and creations go through: parents exist, and inventory and device identities exclude each other |
| `StructureIdentifiers.UniqueIdentifiersFindLocks` | app/services/onboarding_service.py:147-164 | if no house ever appears under an identifier that an earlier house had, every accepted commit has the lock it needs, in every run from the empty store |
| `StructureIdentifiers.UniqueIdentifiersAgree` | app/repositories/device_repository.py:77-95 | so under that condition alone a claimed device's walk ends in its bound house, in every interleaving |
| `ProvisioningState.AttemptTellsLegalStory` | app/services/provisioning_state.py:102-166 | any calls on a fresh attempt: what was accepted is one legal story, the snapshot stays valid, the revision counts it, only status, revision, proof and error change |
| `ProvisioningState.ConnectedMeansProvenAndConfirmed` | app/services/provisioning_state.py:102-166 | revision at most 3, and connected if and only if proof, confirmation and connection were accepted in this order |
| `ProvisioningState.LegalStoryIsAccepted` | app/services/provisioning_state.py:102-166 | every legal story whose calls are in order is accepted whole |
| `ProvisioningService.ExpiryNeverFails` | app/services/provisioning_service.py:123-125 | materializing an expiry is always a legal transition |
| `ProvisioningService.ProvisioningService.Apply` | app/services/provisioning_service.py:106-121 | the guarded update: the state machine decides, then status and revision move together |
| `ProvisioningService.ProvisioningService.Expire` | app/services/provisioning_service.py:123-125 | an overdue discovered row becomes expired, any other stays |
| `ProvisioningService.ProvisioningService.Create` | app/services/provisioning_service.py:127-209 | replay, slot reuse after expiry, or the exact refusal with nothing stored |
| `ProvisioningService.ProvisioningService.Get` | app/services/provisioning_service.py:226-233 | reads materialize expiry |
| `ProvisioningService.ProvisioningService.CancelAttempt` | app/services/provisioning_service.py:235-264 | expiry is kept even when the cancellation is refused |
| `ProvisioningRuns.EveryStepIsLegal` | app/services/provisioning_service.py:106-264 | every step moves each attempt by a transition of the state machine or not at all |
| `ProvisioningRuns.OneActiveAttemptPerDevice` | app/models/provisioning_session.py:34-40 | at most one discovered attempt per device |
| `ProvisioningRuns.CreateReplays` | app/services/provisioning_service.py:146-160 | a repeated create is answered with the same session for ever, or with a conflict if the body differs |
| `ProvisioningRuns.CancelReplays` | app/services/provisioning_service.py:235-264 | a successful cancellation is answered in exactly the same way for ever |
| `ProvisioningAnswers.RejectedBecause` | app/services/provisioning_state.py:102-166 | the reason of every rejection, in order |
| `ProvisioningAnswers.SnapshotIsConsistent` | app/services/provisioning_state.py:55-84 | in any run of calls, proof and error code are there exactly in the states that need them |
| `ProvisioningAnswers.GetExactlyWhen` | app/services/provisioning_service.py:226-233 | who reads an attempt, and what the read stores |
| `ProvisioningAnswers.StartedExactlyWhen` | app/services/provisioning_service.py:127-209 | a new attempt is made if and only if access, room, unclaimed hardware and claim code are right, the device is free and the identifier new; its row field by field, and the error otherwise |
| `ProvisioningAnswers.ReplayedExactlyWhen` | app/services/provisioning_service.py:146-160 | what a used key is answered |
| `ProvisioningAnswers.CancelExactlyWhen` | app/services/provisioning_service.py:235-264 | which cancellations succeed, what they store, and the exact fault of the others |
| `DemoUpgrade.Demo.SavePlan` | deploy/demo_upgrade.py:69-72 | the plan file changes in one replace |
| `DemoUpgrade.Demo.MakeBackup` | deploy/demo_upgrade.py:209-264 | a finished backup of the files and schema as they are |
| `DemoUpgrade.Demo.Install` | deploy/demo_upgrade.py:339-360 | migration, then both files, then the containers |
| `DemoUpgrade.Demo.LoadPlan` | deploy/demo_upgrade.py:277-315 | resumes the pending plan, does nothing if already upgraded, or records a new plan |
| `DemoUpgrade.Demo.Secure` | deploy/demo_upgrade.py:316-326 | from a plan to a recorded backup, made at most once |
| `DemoUpgrade.Demo.BackUp` | deploy/demo_upgrade.py:318-326 | backs up, then records the phase |
| `DemoUpgrade.Demo.ApplyUpgrade` | deploy/demo_upgrade.py:277-365 | the whole upgrade does what its single effects add up to |
| `DemoUpgrade.MigrationOnlyAfterBackup` | deploy/demo_upgrade.py:318-353 | for any crashes and re-runs the schema changes only while the recorded plan names a finished backup of the configuration and schema from before the plan |
| `DemoUpgrade.FilesAreWhole` | deploy/demo_upgrade.py:339-360 | the order of the two files and the schema: compose.env has its target value only if state.json has, and that only after the migration; before its turn each has the value from before the plan |
| `DemoUpgrade.OnlyIdentityAndImagesChange` | deploy/demo_upgrade.py:277-315 | at every instant both files keep everything but identity and images, the plan replaces those alone, and private files stay |
| `DemoUpgrade.BeginsExactlyWhen` | deploy/demo_upgrade.py:277-315 | when a process refuses, resumes, has nothing to do, or plans an upgrade |
| `DemoUpgrade.MigratesExactlyTo` | deploy/demo_upgrade.py:340-353 | the migration goes to schema 7, one version at a time |
| `DemoUpgrade.AuditedExactlyWhen` | deploy/demo_upgrade.py:327-338 | what is checked of the backup and the private files before the migration |
| `DemoUpgrade.RerunCompletes` | deploy/demo_upgrade.py:277-365 | from every reachable disk an undisturbed re-run for the same source ends upgraded, or changes nothing if already upgraded |
| `DemoUpgrade.CrashMakesNoDifference` | deploy/demo_upgrade.py:277-365 | from every crash point the re-run ends in exactly what one undisturbed run makes of the prepared demo |
| `AutomationCascade.OperatorsAgree` | app/services/automation_service.py:23-39 | the six operators are mutual negations and mirror images on comparable values; incomparable values satisfy no ordering |
| `AutomationCascade.TimeWindowIsClockwise` | app/services/automation_service.py:42-47 | the time window runs clockwise from after to before, past midnight if need be |
| `AutomationCascade.AutomationService.ConditionsMatch` | app/services/automation_service.py:127-139 | true if and only if every condition holds |
| `AutomationCascade.AutomationService.Execute` | app/services/automation_service.py:141-161 | the actions of one rule up to the first refused one, with the events they cause |
| `AutomationCascade.AutomationService.HandleRule` | app/services/automation_service.py:109-125 | one rule: trigger, validation, conditions, actions |
| `AutomationCascade.AutomationService.HandleEvent` | app/services/automation_service.py:96-125 | all enabled rules of the house in order; nothing at depth eight |
| `AutomationCascade.LoopsAreMicroSteps` | app/services/automation_service.py:96-161 | the two nested loops and the interleavable micro-steps are the same program |
| `AutomationCascade.CascadeIsBounded` | app/services/automation_service.py:96-161 | one change of state is followed by fewer than (K + 1)^8 others, with K the device actions over all rules, under every schedule |
| `AutomationCascade.CascadeDrains` | app/main.py:160-191 | under every schedule a run is no longer than a bound fixed at its start, and no task is left at that bound |
| `AutomationCascade.EverySchedulerFinishes` | app/main.py:160-191 | whatever scheduler takes over from any point of any run, the run comes to an end with no task left |
| `AutomationAnswers.NumbersCompare` | app/services/automation_service.py:23-39 | the operators on numbers |
| `AutomationAnswers.KindsCompare` | app/services/automation_service.py:23-39 | booleans count as 0 and 1, and different kinds satisfy no ordering |
| `AutomationAnswers.TextsCompare` | app/services/automation_service.py:23-39 | texts are ordered by their first difference |
| `AutomationAnswers.SelectedExactlyWhen` | app/services/automation_service.py:100-103 | a rule is selected if and only if it is enabled and of the house |
| `AutomationAnswers.SelectionSplits` | app/services/automation_service.py:100-103 | rules are selected one by one, in their order |
| `AutomationAnswers.FiresExactlyWhen` | app/services/automation_service.py:109-139 | when a rule is triggered, written out |
| `AutomationAnswers.OneRuleActsExactlyWhen` | app/services/automation_service.py:96-161 | a rule goes through its actions if and only if it is enabled, of the house of the change, and triggered |
| `AutomationAnswers.DepthEndsCascade` | app/services/automation_service.py:96-98 | a change at depth eight starts nothing, any other starts the selected rules |
| `AutomationAnswers.UpdateExactlyWhen` | app/services/device_service.py:94-167 | what one update changes, when it is refused, and which change it announces |
| `AutomationAnswers.ActionsOneByOne` | app/services/automation_service.py:141-161 | delays do nothing to devices, updates take effect in order, and the first refused one ends the rule |
| `AutomationAnswers.OnlyTriggeredRulesAct` | app/services/automation_service.py:96-161 | under every schedule, devices change only by an action of an enabled and triggered rule |
| `MqttPayloads.DepthIsNesting` | app/transports/mqtt_models.py:83-87 | the recursive depth counts values nested in each other |
| `MqttPayloads.FitMeansEveryOccurrence` | app/transports/mqtt_models.py:90-102 | the recursive check speaks about every string and key at every level |
| `MqttPayloads.BytesAreUtf8` | app/transports/mqtt_models.py:94-96 | the counted bytes of a code point are those of its UTF-8 encoding (RFC 3629, section 3), which decodes to it again |
| `MqttPayloads.FitsExactlyWhen` | app/transports/mqtt_models.py:94-96 | a string fits if and only if it has no surrogate and at most 1024 bytes of UTF-8 |
| `MqttPayloads.ValidateJsonBounds` | app/transports/mqtt_models.py:90-102 | the stack loop ends, and accepts exactly the trees of depth at most 8 in which every string and key encodes to at most 1024 bytes |
| `MqttTopics.TopicIs` | app/transports/mqtt_topics.py:5-54 | the words of every topic, written out |
| `MqttTopics.IdentifierIs` | app/transports/mqtt_topics.py:7-49 | what an identifier is |
| `MqttTopics.BuildThenParse` | app/transports/mqtt_topics.py:46-69 | parsing a built topic gives back house, device and kind, for one- and two-segment kinds |
| `MqttTopics.ParseThenBuild` | app/transports/mqtt_topics.py:46-69 | building from any parsed topic gives back the very string |
| `MqttTopics.TopicsAreUnambiguous` | app/transports/mqtt_topics.py:51-54 | no two destinations share a topic |
| `CommandClock.AnswersAreMonotone` | app/services/command_clock.py:24-45 | answers never go backwards, each is within one second of its wall reading, and there are none after a refusal |
| `CommandClock.AnsweredExactlyWhen` | app/services/command_clock.py:24-45 | a call is answered if and only if all readings so far were of the right kind, the ticks never went back and the wall clock kept within a second; the answer is the first wall time plus the ticks since |
| `CommandClock.CommandClock.Now` | app/services/command_clock.py:24-45 | the exact new state and answer of one call |

## Left out

- HTTP routes, WebSocket delivery, schema validation of request bodies, JWT, Argon2, the role matrix and refresh tokens.
- SQLAlchemy sessions and dialects: only transactions, row locks and declared constraints remain. On SQLite, which ignores row locks, an open UPDATE blocks other writers; the model of `submit` covers both by keeping a flushed row untouched.
- aiomqtt, TLS, the broker and its ACL files: replaced by an abstract network on whose device topics only that device speaks.
- The float limiter in front of permit requests (app/transports/mqtt.py:222-234): floating-point time; the limiter of the authority is modelled in full.
- The device gate and the physical checks inside prepare, stage and request: their outcome is the parameter `admission`.
- The compare-and-set in the permit UPDATE: inside one atomic transaction it cannot fail, so only the row that it writes is modelled.
- The execution profile column and the length limits of stored payloads: constants of this version.
- The clock readings behind `updated_at`, `completed_at` and similar stamps can themselves fail; such a failure aborts the operation and is the refusal branch of the same step.
- Decoding an envelope in the relay is one parameter, `Inbound.Unusable`.
- Threads calling one authority at the same time: calls into one authority are sequential, as they are between awaits; calls into different epochs overlap freely.
- Row locks on physical devices: the conditional UPDATE statements that make them unnecessary are modelled instead. The continuations in `StructureLocks` may therefore move a device whose inventory row another transaction has read.
- The foreign keys from provisioning sessions to houses and devices: a room, device or house that such a session still refers to can be deleted in the model.
- Scenes, names, icons, state and capability edits of devices: no effect on the tree or the bindings.
- The authorization query of provisioning and the physical inventory it reads: parameters of each transaction.
- Docker, Git, certificates and the contents of private files in the upgrade: opaque steps, with one value for all private files, and image identifiers for the environment values that change.
- Automations with a transport, manual runs and floating-point or structured JSON values in comparisons: the first only publishes commands, the others add no new steps.
- JSON parsing itself and the per-topic size limits.
