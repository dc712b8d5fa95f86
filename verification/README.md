# Durable commands and inspections: a verified model

The system inspects bottles on a simulated line. A failed inspection travels from the device, through a
durable source outbox, over lossy channels to a consumer, which owns it and creates one reject command.
An approved command is executed by a writer service against a native mailbox, under a durable ledger.
Every stage may crash, restart, resend, duplicate, reorder or race with itself. The design promises that
no inspection is dropped before somebody durably owns it, and that no command is initiated twice.
This project states both promises over every run, proves them, and proves the parts they rest on. Beside
what must never happen stands what must: from every reachable state an approved command in time can
complete and a waiting inspection can be handed over, and each step's answer is stated exactly.

| files | what they model |
| --- | --- |
| `Authorization`, `CommandLedger`, `LedgerHistory` | signed approvals, the ledger class over its table functions, and what pruning may forget |
| `WriterProtocol`, `WriterSafety`, `WriterTheorems`, `WriterClearance`, `WriterProgress`, `ActuationPipeline` | concurrent deliveries as processes with program counters over one ledger, with faults, cancellations, zombie writers, crashes and recovery; what each delivery is told and that it can complete; the orchestrator's outcome mapping |
| `InspectionCodec`, `InspectionStream`, `InspectionSampling`, `SourceJournal`, `ModbusSimulator` | the register codec, the inspection generator and what it samples, the outbox, and the device's tick loop and restart |
| `ConsumerStore`, `InspectionOwnership`, `InboxProgress`, `InspectionDelivery`, `DeliveryProgress`, `EndToEnd` | the consumer's inbox and resend outbox, its runs, the whole hand-over as one protocol, that it gets on, and its composition with the writer |
| `DeviceControls`, `DeviceMailbox`, `NativeEncoding` | the equipment behind the mailboxes and one native write interleaved with polls and reboots |
| `Positions` | epoch-fenced producer positions and the consumer's position guard |
| `InspectionRule`, `RuleAdmissions`, `RejectionTracker`, `RejectionOutcomes` | the in-memory decision state, what the rule admits and orders, and how each open rejection ends |
| `ClockEnvelope`, `EvidenceFence`, `RouteCheck`, `Measurement` | evidence arithmetic, captures, the route check and grid normalisation |

Objects the source updates in place are classes whose methods are proved against functions on values; the
run-level theorems are about those functions. Concurrency is a state machine: each ledger transaction,
evidence check, native frame, register write or durable commit is one atomic event, and an event that is
not enabled changes nothing.

Assumptions. The wall clock does not run back. A database transaction is atomic and durable. A digest
determines its command and a digest of an inspection determines the inspection; a signature can only be
built from its key; claim tokens and generated command identities are new. Times are integers
(microseconds, in the clock modules nanoseconds) and measured values are reals.

Five findings about the code are kept as they are; each is stated as an exact condition with a witness. The
mailbox handshake misuses a payload if and only if an earlier command is still waiting
(`DeviceMailbox.QuiescenceIsExact`). An inspection delivered again after the daily sweep is always expired
if and only if it lay no further ahead, when it was owned, than a day less the age limit
(`InspectionOwnership.RedeliveryAfterSweepExpires`). The pruned dedup cache decides otherwise than a memory
without limits would exactly where it forgot the identity, session or bottle or has no room
(`InspectionRule.CacheDivergesExactly`); identical events are never affected. An in-memory evidence snapshot
that calls itself complete is gapless if and only if every record past its cursor was serialised
(`EvidenceFence.CompleteIsExact`). And inside one process the window comparison looks at the middles of the
clock brackets, whose answer holds of the instants themselves if and only if the brackets agree
(`ClockEnvelope.BracketsDecideTheWindow`).

## Model

| member | source | states |
| --- | --- | --- |
| `Authorization.ApprovalIsUnforgeable` | libs/eirvah-contracts/src/eirvah_contracts/authorization.py:65-119 | evidence passes verification exactly when the key holder signed this very command for this writer, not after the check, and its deadline has not passed or expired evidence is allowed; signing refuses an expired command exactly where that is not allowed |
| `CommandLedger.CommandLedger.Lookup` | services/actuation-signal-publisher/src/actuation_signal_publisher/ledger.py:68-80 | prunes, then reports nothing exactly when no row is kept, and otherwise conflict, pending or the stored result marked as told again |
| `CommandLedger.CommandLedger.ClaimCommand` | services/actuation-signal-publisher/src/actuation_signal_publisher/ledger.py:82-100 | a token is granted exactly when pruning leaves no row under the id or a retryable row of this command, which is then preparing under the token with a keep time that never moves back; otherwise the row answers |
| `CommandLedger.CommandLedger.MarkStarted` | services/actuation-signal-publisher/src/actuation_signal_publisher/ledger.py:102-109 | succeeds exactly for the token that holds the active row, and keeps the first start time |
| `CommandLedger.CommandLedger.Complete` | services/actuation-signal-publisher/src/actuation_signal_publisher/ledger.py:111-120 | completes exactly a started row held by this token, with this result kept for the retention, changing nothing otherwise |
| `CommandLedger.CommandLedger.Fail` | services/actuation-signal-publisher/src/actuation_signal_publisher/ledger.py:122-144 | closes exactly an active row held by this token: not executed and retryable if it had not started, unknown if it had |
| `CommandLedger.CommandLedger.Recover` | services/actuation-signal-publisher/src/actuation_signal_publisher/ledger.py:146-168 | the loop over open rows closes each one as retryable or unknown by whether it had started, then prunes |
| `LedgerHistory.PruneKeepsInv` | services/actuation-signal-publisher/src/actuation_signal_publisher/ledger.py:62-66 | pruning keeps the ledger invariant: every initiation ever recorded is still shielded by its row or lies more than the retention past its deadline |
| `LedgerHistory.ClaimKeepsInv` | services/actuation-signal-publisher/src/actuation_signal_publisher/ledger.py:82-100 | a granted claim never opens a second in-time attempt of a command already initiated |
| `LedgerHistory.MarkKeepsInv` | services/actuation-signal-publisher/src/actuation_signal_publisher/ledger.py:102-109 | marking an in-time attempt started is the first initiation of its command |
| `LedgerHistory.CompleteKeepsInv` | services/actuation-signal-publisher/src/actuation_signal_publisher/ledger.py:111-120 | completion keeps the ledger invariant |
| `LedgerHistory.FailKeepsInv` | services/actuation-signal-publisher/src/actuation_signal_publisher/ledger.py:122-144 | failing an attempt keeps the ledger invariant: only an attempt that never started becomes retryable |
| `LedgerHistory.RecoverKeepsInv` | services/actuation-signal-publisher/src/actuation_signal_publisher/ledger.py:146-168 | startup recovery keeps the ledger invariant at any clock readings during the loop |
| `LedgerHistory.RecoveryClosesEveryAttempt` | services/actuation-signal-publisher/src/actuation_signal_publisher/ledger.py:146-168 | after recovery no row is active, each one that was says whether its attempt had started, and no row within its keep time is gone |
| `LedgerHistory.ClaimBinds` | services/actuation-signal-publisher/src/actuation_signal_publisher/ledger.py:82-100 | until its keep time has passed a row stays bound to its command and its keep time does not fall, across claims |
| `LedgerHistory.SettlementsBind` | services/actuation-signal-publisher/src/actuation_signal_publisher/ledger.py:111-144 | the same across completion and failure |
| `LedgerHistory.RecoverBinds` | services/actuation-signal-publisher/src/actuation_signal_publisher/ledger.py:146-168 | the same across startup recovery |
| `WriterSafety.StepKeepsSafe` | services/actuation-signal-publisher/src/actuation_signal_publisher/service.py:152-302 | every event of the writer protocol keeps the whole safety invariant over ledger history, deliveries, frames, acknowledgements and replies |
| `WriterTheorems.RunIsSafe` | services/actuation-signal-publisher/src/actuation_signal_publisher/service.py:152-302 | every run is safe, every stored row stays readable and every writer at work holds its token |
| `WriterTheorems.AtMostOneInitiation` | services/actuation-signal-publisher/src/actuation_signal_publisher/service.py:177-223 | in every run, at most one attempt of a command is ever initiated, although history is pruned |
| `WriterTheorems.FramesCarryTheInitiation` | services/actuation-signal-publisher/src/actuation_signal_publisher/service.py:200-237 | every native frame of a command carries the token of its one initiation, comes from one delivery, and each frame position is used at most once and in order |
| `WriterClearance.FramesAreCleared` | services/actuation-signal-publisher/src/actuation_signal_publisher/service.py:202-223 | in every run each native frame passed its last evidence check after the durable start of its attempt and not past its command's deadline |
| `WriterTheorems.ReusedIdsAreFarApart` | services/actuation-signal-publisher/src/actuation_signal_publisher/ledger.py:62-100 | two initiations under one command id are different commands, more than the retention apart |
| `WriterTheorems.OnlyApprovedCommandsStart` | services/actuation-signal-publisher/src/actuation_signal_publisher/service.py:163-187 | nothing starts without an authentic approval of exactly that command issued beforehand |
| `WriterTheorems.RepliesAreHonest` | services/actuation-signal-publisher/src/actuation_signal_publisher/service.py:225-290 | a completion names a command that was initiated, sent whole and acknowledged by the device; a refusal or conflict names a delivery that sent no frame |
| `WriterTheorems.CompletionReplays` | services/actuation-signal-publisher/src/actuation_signal_publisher/ledger.py:68-80 | until its keep time has passed, a completed command is answered with the same completion time in every continuation of the run, and any other command under its id with conflict |
| `WriterTheorems.RunBinds` | services/actuation-signal-publisher/src/actuation_signal_publisher/ledger.py:62-168 | in every continuation of every run, a row whose keep time has not passed stays bound to its command, its keep time never falls, and a completed or unknown row does not change |
| `WriterTheorems.RowsOutliveDeadlineAndClaims` | services/actuation-signal-publisher/src/actuation_signal_publisher/ledger.py:82-100 | in every run each row is kept for the retention past its command's deadline and past every claim granted for it |
| `WriterTheorems.SettledRowsAreKept` | services/actuation-signal-publisher/src/actuation_signal_publisher/ledger.py:111-144 | a row that an attempt closes is kept for the retention from then on, under the same command, however the run goes on |
| `WriterTheorems.ReportedUntilForgotten` | services/actuation-signal-publisher/src/actuation_signal_publisher/ledger.py:62-80 | while the row of its initiation stands, a further delivery of a command is told its outcome exactly until the row's keep time has passed, or for as long as the attempt is open |
| `WriterTheorems.ForgottenInitiationsAreRefused` | services/actuation-signal-publisher/src/actuation_signal_publisher/service.py:176-182 | a delivery of an initiated command that the ledger lets through came after the retention past the deadline, and is refused as not executed although the command was: the refusal is about that delivery only |
| `WriterProgress.ApprovedRequestsArrive` | services/actuation-signal-publisher/src/actuation_signal_publisher/service.py:156-176 | over every run a request gets past its arrival exactly when it carries an issued approval of its command, before or after the deadline alike; any other is refused as not executed and leaves no trace |
| `WriterProgress.LookupAnswers` | services/actuation-signal-publisher/src/actuation_signal_publisher/service.py:177-182 | over every run the lookup lets a delivery on exactly when the row kept under the id is absent or a retryable row of this command, and otherwise answers what that row says |
| `WriterProgress.ReverifyAnswers` | services/actuation-signal-publisher/src/actuation_signal_publisher/service.py:181-182 | over every run the second check passes exactly until the deadline and then refuses |
| `WriterProgress.ClaimAnswers` | services/actuation-signal-publisher/src/actuation_signal_publisher/service.py:183-187 | over every run a claim reaches writing, with its token in a preparing row, exactly when pruning leaves no row under the id or a retryable row of this command, and otherwise the row answers |
| `WriterProgress.ChecksPassInTime` | services/actuation-signal-publisher/src/actuation_signal_publisher/service.py:202-223 | over every run the checks around a start pass exactly until the deadline and stop the writer after it |
| `WriterProgress.MarksNeedTheRow` | services/actuation-signal-publisher/src/actuation_signal_publisher/ledger.py:102-109 | over every run a start is recorded exactly while the attempt holds its row, and appended to the initiations exactly when it is the first |
| `WriterProgress.FailuresAreTold` | services/actuation-signal-publisher/src/actuation_signal_publisher/service.py:250-251 | over every run a failed write is told safe to retry exactly if it never started and unknown if it had, and the row keeps that answer for the retention |
| `WriterProgress.CompletionsAreTold` | services/actuation-signal-publisher/src/actuation_signal_publisher/service.py:252-264 | over every run an acknowledged write is told completed at its time exactly while its attempt holds a started row, which then keeps that answer |
| `WriterProgress.AbandonedAttemptsAreSettled` | services/actuation-signal-publisher/src/actuation_signal_publisher/service.py:238-284 | over every run a delivery that gives up hears that the outcome is unknown, a cancelled one hears nothing, and with the ledger in reach either leaves its row as a failure does |
| `WriterProgress.RestartsSettleOpenAttempts` | services/actuation-signal-publisher/src/actuation_signal_publisher/service.py:139-144 | a restart settles every open row by whether its attempt had started and keeps every row within its keep time |
| `WriterProgress.InitiationsAreReported` | services/actuation-signal-publisher/src/actuation_signal_publisher/service.py:163-182 | until the retention after its deadline has passed, every approved request for an initiated command hears on arrival and lookup, before and after the deadline, that it completed, is pending or is unknown: never refused, never let through |
| `WriterProgress.CompletionsAreToldAgain` | services/actuation-signal-publisher/src/actuation_signal_publisher/service.py:163-182 | while the row of a completed command is kept, every approved request for it hears that completion with its time |
| `WriterProgress.InTimeDeliveriesComplete` | services/actuation-signal-publisher/src/actuation_signal_publisher/service.py:152-290 | from every reachable state a new delivery of an approved command by its deadline, with the ledger open for it, can run to completion: exactly one start, exactly its one or two frames in order, a completed row and a completed reply |
| `WriterProgress.SafeFailuresCanBeRetried` | services/actuation-signal-publisher/src/actuation_signal_publisher/ledger.py:82-144 | after an attempt that failed before its start the same approved command, delivered again by its deadline, can run to completion with one start |
| `ActuationPipeline.RunPipeline` | services/actuation-control-orchestrator/src/actuation_control_orchestrator/pipeline.py:59-212 | once the writer was asked, a command is rejected exactly for a trusted refusal or conflict, approved exactly for a trusted completion with its time, and otherwise left pending or unknown |
| `ActuationPipeline.PublishReply` | services/actuation-control-orchestrator/src/actuation_control_orchestrator/pipeline.py:149-212 | over every writer run: a published rejection means that delivery put no frame on the wire, a published approval means the command was initiated, sent whole and acknowledged |
| `InspectionCodec.DecodeEncode` | libs/eirvah-contracts/src/eirvah_contracts/inspection.py:26-57 | decoding an encoded inspection gives it back with its time cut to the millisecond |
| `InspectionCodec.EncodeDecode` | libs/eirvah-contracts/src/eirvah_contracts/inspection.py:26-57 | whatever ten registers decode to an inspection are exactly that inspection's encoding |
| `InspectionCodec.RegisterLayout` | libs/eirvah-contracts/src/eirvah_contracts/inspection.py:44-57 | an encoded inspection is ten words: session in four and milliseconds in three with the high words first, sequence, bottle, and one for passed or two for failed |
| `InspectionCodec.DecodingIsExact` | libs/eirvah-contracts/src/eirvah_contracts/inspection.py:26-42 | ten words decode to nothing exactly while the status is zero and to an inspection exactly when every field is in its range |
| `InspectionStream.SnapshotDecodes` | libs/eirvah-controls/src/eirvah_controls/inspection.py:26-45 | the snapshot a due bottle leaves decodes to exactly its session, sequence, bottle, verdict and time |
| `InspectionStream.InspectionStream.Observe` | libs/eirvah-controls/src/eirvah_controls/inspection.py:26-45 | refuses an invalid bottle without change, inspects exactly every n-th bottle, fails exactly every m-th inspection, and fails late when the time does not fit the wire |
| `InspectionStream.InspectionStream.Restore` | services/modbus-simulator/src/modbus_simulator/server.py:142-145 | a restart brings counters, snapshot and sampling intervals back as saved but opens the next session at sequence zero |
| `InspectionSampling.CountsAreExact` | libs/eirvah-controls/src/eirvah_controls/inspection.py:26-38 | over every life with restarts, after n bottles exactly n / every have been inspected and n / every / failEvery inspections have failed |
| `InspectionSampling.InspectionsAreSampled` | libs/eirvah-controls/src/eirvah_controls/inspection.py:26-45 | over every life exactly each every-th bottle is inspected, under the next identity, naming that bottle at its millisecond, and fails exactly as each failEvery-th inspection; at a time the registers cannot carry it is counted but not shown |
| `InspectionSampling.IdentitiesAreNumbered` | libs/eirvah-controls/src/eirvah_controls/inspection.py:31-34 | without restarts the k-th inspection has sequence (k - 1) mod 65535 + 1, session after session |
| `InspectionStream.IdentitiesCollideExactly` | libs/eirvah-controls/src/eirvah_controls/inspection.py:31-34 | over every life of a device two inspections share an identity exactly when the sequence repeats after whole turns of all 2^64 - 1 sessions |
| `InspectionStream.IdentitiesNeverRepeat` | services/modbus-simulator/src/modbus_simulator/server.py:142-149 | until all sessions were used, identities never repeat across sequence wraps, session wraps and reboots |
| `SourceJournal.CommitConserves` | libs/eirvah-controls/src/eirvah_controls/recovery.py:114-148 | an accepted commit keeps created = received + waiting, keeps the outbox within capacity and disturbs no waiting inspection |
| `SourceJournal.CommitIsExact` | libs/eirvah-controls/src/eirvah_controls/recovery.py:114-148 | a commit is refused exactly for a reused identity or a new inspection without room; otherwise it saves the state, files a new inspection under the next serial and forgets exactly the received ones more than a day old |
| `SourceJournal.AckConserves` | libs/eirvah-controls/src/eirvah_controls/recovery.py:164-177 | a receipt keeps the books balanced and takes out of the waiting set only what it names |
| `SourceJournal.AckMarksOneRow` | libs/eirvah-controls/src/eirvah_controls/recovery.py:164-177 | a receipt for an unknown or already received identity changes nothing; otherwise it marks that one row |
| `SourceJournal.AckAloneSkipsAhead` | libs/eirvah-controls/src/eirvah_controls/recovery.py:164-177 | on its own the journal lets a receipt overtake an earlier waiting inspection |
| `SourceJournal.SourceJournal.Commit` | libs/eirvah-controls/src/eirvah_controls/recovery.py:114-148 | refuses a reused identity with other content or a full outbox without any change, otherwise stores event and state together |
| `SourceJournal.SourceJournal.Ack` | libs/eirvah-controls/src/eirvah_controls/recovery.py:164-177 | says whether the identity is known and marks it received once |
| `SourceJournal.SourceJournal.Pending` | libs/eirvah-controls/src/eirvah_controls/recovery.py:154-157 | counts the waiting inspections, which with the received ones make up all created |
| `SourceJournal.SourceJournal.Oldest` | libs/eirvah-controls/src/eirvah_controls/recovery.py:159-163 | gives the waiting inspection of the lowest serial |
| `ConsumerStore.ReceiveKeeps` | libs/eirvah-controls/src/eirvah_controls/recovery.py:250-322 | receiving keeps every command id unique and waiting rows within 128, moves no owned row backwards and forgets only settled rows a day old |
| `ConsumerStore.GivingUpKeeps` | libs/eirvah-controls/src/eirvah_controls/recovery.py:328-343 | what becomes ready to send is a waiting command younger than a day; older ones end unknown |
| `ConsumerStore.SettlingKeeps` | libs/eirvah-controls/src/eirvah_controls/recovery.py:349-376 | a result never changes command, content or ownership time, never reopens a row, and completion is final |
| `ConsumerStore.SettlesOneRow` | libs/eirvah-controls/src/eirvah_controls/recovery.py:349-376 | a result touches at most the one row that asked for exactly it |
| `ConsumerStore.ConsumerStore.ReceiveEvent` | libs/eirvah-controls/src/eirvah_controls/recovery.py:250-322 | owns an inspection once, with its disposition by age, verdict, recent bottle and capacity; a reused identity with other content is refused |
| `ConsumerStore.ConsumerStore.Ready` | libs/eirvah-controls/src/eirvah_controls/recovery.py:328-343 | gives up what has waited more than a day, then offers exactly the waiting rows at most a day old that were last sent more than a second ago |
| `ConsumerStore.ConsumerStore.MarkSent` | libs/eirvah-controls/src/eirvah_controls/recovery.py:345-347 | records the sending time of that row only |
| `ConsumerStore.ConsumerStore.SettleResult` | libs/eirvah-controls/src/eirvah_controls/recovery.py:349-376 | refuses a result of another command's shape, without acknowledgement, or against completion; otherwise settles its row |
| `InspectionOwnership.StepKeepsInv` | services/decision-agent-stub/src/decision_agent_stub/service.py:137-218 | every delivery, resend, settlement and sweep keeps the consumer invariant |
| `InspectionOwnership.OneCommandPerInspection` | libs/eirvah-controls/src/eirvah_controls/recovery.py:250-322 | in every run an inspection gets at most one command, command ids are distinct, and one bottle of a session gets commands more than the age limit and ten seconds apart |
| `InspectionOwnership.ResendsTheSameCommand` | services/decision-agent-stub/src/decision_agent_stub/service.py:202-218 | whatever is resent is the one command created for that failed inspection, for its bottle and by its own deadline |
| `InspectionOwnership.RedeliveryAfterSweepExpires` | libs/eirvah-controls/src/eirvah_controls/recovery.py:269-318 | over all continuations and redelivery instants, an inspection delivered again after the sweep is always expired if and only if it lay no further ahead, when it was owned, than a day less the age limit, or its time has come since |
| `InspectionOwnership.NearInspectionsStayOut` | libs/eirvah-controls/src/eirvah_controls/recovery.py:269-318 | so one that was not ahead of the clock, or by at most a day less five seconds, never comes back |
| `InspectionOwnership.FutureInspectionsComeBack` | libs/eirvah-controls/src/eirvah_controls/recovery.py:269-318 | a witness of the other side: an inspection owned two days ahead of its time is filed as future, swept, and on its day becomes a command |
| `InboxProgress.NeededCommandsAreIssued` | services/decision-agent-stub/src/decision_agent_stub/service.py:137-183 | over every run a delivery creates a command exactly when the inspection is new, failed and fresh, nothing was owned for its bottle within the age limit and ten seconds, and the outbox has room; field by field it asks for that bottle at the configured target by the inspection time plus the age limit |
| `InboxProgress.DeliveriesAreFiled` | libs/eirvah-controls/src/eirvah_controls/recovery.py:250-322 | over every run every other new delivery is owned as future, expired, passed or a bottle duplicate; a conflict and a full outbox change nothing, and a new row sweeps exactly the settled rows more than a day old |
| `InboxProgress.OfferedExactlyWhenDue` | libs/eirvah-controls/src/eirvah_controls/recovery.py:328-347 | over every run a waiting command is offered exactly while its inspection is at most a day old and its latest sending event since it was filed, if any, lies more than a second back |
| `InboxProgress.OldCommandsAreGivenUp` | libs/eirvah-controls/src/eirvah_controls/recovery.py:328-336 | a command waiting more than a day becomes unknown and no other row changes |
| `InboxProgress.ResultsSettleByDecision` | libs/eirvah-controls/src/eirvah_controls/recovery.py:349-376 | over every run a result changes only the one row whose command it answers in every field: approval with its time completes it for good, refusal and unknown settle anything not completed, pending changes nothing |
| `InspectionDelivery.ProduceIsAccepted` | services/modbus-simulator/src/modbus_simulator/server.py:206-230 | with room in the outbox the commit of a new inspection is refused neither for capacity nor for a reused identity |
| `InspectionDelivery.MarkTakesTheHead` | services/modbus-data-subscriber/src/modbus_data_subscriber/service.py:132-160 | whatever was forged, stale or repeated, a written mark takes out nothing but the next inspection in line, and only one the consumer owns |
| `InspectionDelivery.StepKeepsInv` | services/modbus-data-subscriber/src/modbus_data_subscriber/service.py:121-165 | every step of device, subscriber, consumer and channels keeps the hand-over invariant |
| `InspectionDelivery.NothingIsLost` | services/modbus-simulator/src/modbus_simulator/server.py:167-174 | in every run the received inspections are exactly a prefix of those committed, each owned by the consumer with identical content, and all later ones are still in the outbox |
| `InspectionDelivery.OutboxBalances` | libs/eirvah-controls/src/eirvah_controls/recovery.py:154-188 | in every run created = received + waiting, waiting within capacity, and created counts every inspection ever committed |
| `DeliveryProgress.WaitingIsHandedOver` | services/modbus-data-subscriber/src/modbus_data_subscriber/service.py:121-165 | from every reachable state one round of display, publication, ownership, receipt and mark, with a consumer that can take it, moves exactly the next inspection in line from waiting to received |
| `DeliveryProgress.OutboxCanAlwaysDrain` | libs/eirvah-controls/src/eirvah_controls/recovery.py:154-177 | from every reachable state, even with the consumer outbox full, some continuation empties the device outbox without a new inspection |
| `EndToEnd.IssuesAreGrounded` | services/decision-agent-stub/src/decision_agent_stub/service.py:137-174 | every command the consumer ever issues is for a failed bottle the device itself inspected, asks for that bottle, and expires with the inspection |
| `EndToEnd.OneCommandPerIdentity` | libs/eirvah-controls/src/eirvah_controls/recovery.py:250-322 | commands issued for one inspection identity are one command |
| `EndToEnd.FailuresBecomeCommands` | services/decision-agent-stub/src/decision_agent_stub/service.py:137-183 | from every reachable state a fresh failed inspection next in line becomes, in one round, exactly one new command for its bottle |
| `EndToEnd.OneInitiationPerInspection` | services/decision-agent-stub/src/decision_agent_stub/service.py:202-218 | in every pair of a hand-over run and a writer run, one inspection leads to at most one native initiation ever, by an attempt granted before the inspection's own deadline |
| `EndToEnd.OneSetOfFramesPerInspection` | services/actuation-signal-publisher/src/actuation_signal_publisher/service.py:200-237 | all native frames ever sent for one inspection belong to one attempt, each position once |
| `ModbusSimulator.Simulator.constructor` | services/modbus-simulator/src/modbus_simulator/server.py:125-149 | a device without a past starts in the initial state of the hand-over protocol |
| `ModbusSimulator.Simulator.Reopen` | services/modbus-simulator/src/modbus_simulator/server.py:125-170 | a restart from the journal is the protocol's power cycle: saved state, sampling intervals and acknowledgements return, registers come up empty, the session moves on |
| `ModbusSimulator.Simulator.ProcessMark` | services/modbus-simulator/src/modbus_simulator/server.py:167-174 | a written receipt mark is handed to the journal, as one protocol step |
| `ModbusSimulator.Simulator.Acknowledge` | services/modbus-simulator/src/modbus_simulator/server.py:183-199 | an answered command is durable together with its effect and the state when its acknowledgement shows |
| `ModbusSimulator.Simulator.ProcessControls` | services/modbus-simulator/src/modbus_simulator/server.py:167-200 | each mailbox with an unacknowledged command moves its own control once and shows the outcome, any other mailbox and control is untouched, and the outbox only sees idle commits |
| `ModbusSimulator.ServingIsPolling` | services/modbus-simulator/src/modbus_simulator/server.py:175-199 | serving a mailbox is one poll of the write protocol with its journal commit and display: the same control and acknowledgement, durable with its effect before it shows |
| `ModbusSimulator.ControlsServeAlike` | services/modbus-simulator/src/modbus_simulator/server.py:175-199 | conveyor, valve and reject station are served as the write protocol's controls |
| `ModbusSimulator.EveryMailboxIsServed` | services/modbus-simulator/src/modbus_simulator/server.py:175-199 | in one turn each of the three mailboxes with a waiting command has it applied to its own control and its outcome shown under its number, and a mailbox without one is left alone |
| `ModbusSimulator.Simulator.MoveBelt` | services/modbus-simulator/src/modbus_simulator/server.py:77-93 | a jam trips the motor; a running belt numbers the next bottle in 1..65535 and brings it into the reject window |
| `ModbusSimulator.Simulator.Inspect` | services/modbus-simulator/src/modbus_simulator/server.py:215-228 | with room in the outbox the observed inspection is committed as it was observed, and only an unusable clock reading can stop it |
| `ModbusSimulator.Simulator.Work` | services/modbus-simulator/src/modbus_simulator/server.py:205-230 | a full outbox stops the belt and the generator; otherwise a jam trips the motor, a running belt carries the next bottle past, and the state is committed with the inspection it yields before the oldest one is shown |
| `ModbusSimulator.Simulator.Tick` | services/modbus-simulator/src/modbus_simulator/server.py:202-250 | one turn of the loop is a run of the hand-over protocol: mark, idle commits, one inspection exactly when there is room, the belt moved and the bottle is due, and the display of the oldest waiting one |
| `ModbusSimulator.ReachableIsUnused` | services/modbus-simulator/src/modbus_simulator/server.py:142-149 | in every reachable state the identity the next inspection will get has no row in the outbox |
| `ModbusSimulator.YieldIsAccepted` | services/modbus-simulator/src/modbus_simulator/server.py:221-230 | committing an observed inspection succeeds and is the protocol's production of exactly that inspection |
| `DeviceControls.PassingKeeps` | libs/eirvah-controls/src/eirvah_controls/__init__.py:63-71 | a passing bottle joins the window as its newest, the window keeps its newest bottles, and a bottle stays rejected exactly as long as it is in the window |
| `DeviceControls.RejectionHappensOnce` | libs/eirvah-controls/src/eirvah_controls/__init__.py:73-84 | a rejection is applied exactly for a numbered bottle in the window not rejected yet: counted up to 65535, shown as the last, and then only a duplicate; every other request is refused by its reason and changes nothing |
| `DeviceControls.MotorIsInterlocked` | libs/eirvah-controls/src/eirvah_controls/__init__.py:27-46 | the motor moves only on an applied command and exactly as its operation says; a fault stops it, forbids starting it and is cleared by a reset alone |
| `DeviceControls.FaultHoldsUntilReset` | libs/eirvah-controls/src/eirvah_controls/__init__.py:27-46 | however many commands arrive, a tripped motor stays tripped and still until a reset, and after a reset until a start |
| `DeviceControls.ValveFollows` | libs/eirvah-controls/src/eirvah_controls/__init__.py:49-57 | the valve opens on one, closes on zero and refuses anything else |
| `DeviceControls.StaysInWindow` | libs/eirvah-controls/src/eirvah_controls/__init__.py:60-72 | a bottle in the window is still there, and still rejected exactly if it was, after any bottles that do not push it out |
| `DeviceControls.PassedBottlesCanBeRejected` | libs/eirvah-controls/src/eirvah_controls/__init__.py:68-85 | a numbered bottle that has just passed can be rejected once, counted and shown as the last one, until as many bottles have passed as the window holds |
| `DeviceControls.RejectControl.Observe` | libs/eirvah-controls/src/eirvah_controls/__init__.py:67-71 | the window loop drops the oldest bottles with their rejections until the rest fit |
| `DeviceControls.RejectControl.Apply` | libs/eirvah-controls/src/eirvah_controls/__init__.py:73-84 | answers and counts as specified, with the count saturating at 65535 |
| `DeviceMailbox.ChooseSequence` | services/actuation-signal-publisher/src/actuation_signal_publisher/native.py:69-71 | the chosen sequence is a nonzero register value different from the acknowledged one, and the drawn one unless that collides |
| `DeviceMailbox.AppliedAtMostOnce` | services/actuation-signal-publisher/src/actuation_signal_publisher/native.py:82-118 | from a quiescent mailbox, under every interleaving of polls, journal commits, reboots and writer steps, the device acts at most once, under this writer's number, with exactly its operation and value or by refusing an empty payload; success implies one durable applied effect of exactly the command and a mailbox quiescent again; a mailbox left otherwise holds the sequence of a writer still waiting or given up |
| `DeviceMailbox.ConsecutiveWritesApplyOnce` | services/actuation-signal-publisher/src/actuation_signal_publisher/native.py:82-118 | the same for each of any number of writes to one mailbox, as long as every earlier one succeeded |
| `DeviceMailbox.GivingUpLeavesItPending` | services/actuation-signal-publisher/src/actuation_signal_publisher/native.py:110-118 | a writer that gives up after its sequence frame leaves a command waiting, which is where a mailbox that is not quiescent comes from |
| `DeviceMailbox.PendingCommandAppliesTwice` | services/modbus-simulator/src/modbus_simulator/server.py:175-199 | with an earlier command still waiting, some schedule applies the payload twice, once under the old number |
| `DeviceMailbox.QuiescenceIsExact` | services/actuation-signal-publisher/src/actuation_signal_publisher/native.py:82-118 | no schedule misuses the payload if and only if the mailbox was quiescent |
| `DeviceMailbox.AnsweredAsApplied` | services/actuation-signal-publisher/src/actuation_signal_publisher/native.py:74-79 | from a quiescent mailbox a writer that reads its number back succeeds exactly if the device durably applied its command with status one, and fails otherwise |
| `DeviceMailbox.UndisturbedWriteIsCarriedOut` | services/actuation-signal-publisher/src/actuation_signal_publisher/native.py:82-118 | a write nothing comes between is applied once, journalled and shown, and succeeds exactly if its control applied it |
| `DeviceMailbox.UndisturbedWritesApplyInOrder` | services/actuation-signal-publisher/src/actuation_signal_publisher/native.py:82-118 | a series of such writes, refused ones among them, leaves the control as the commands one after another make it and the mailbox quiescent |
| `DeviceMailbox.ControlIsAccounted` | services/modbus-simulator/src/modbus_simulator/server.py:180-199 | under every interleaving with reboots the durable control is what the journalled effects make of it, and a reboot loses at most the one effect not yet journalled |
| `NativeEncoding.NumbersEncodeExactly` | services/actuation-signal-publisher/src/actuation_signal_publisher/native.py:49-66 | at every scale a number is sent as a word exactly when its target takes numbers of its kind, it lies in the range and comes, times the scale, close to the word |
| `NativeEncoding.WholesEncodeExactly` | services/actuation-signal-publisher/src/actuation_signal_publisher/native.py:49-66 | at every scale a whole number is sent exactly as itself times the scale, where that is a word and the number in range |
| `NativeEncoding.FlagsEncodeExactly` | services/actuation-signal-publisher/src/actuation_signal_publisher/native.py:49-66 | on is sent as the scale and off as zero, exactly to a Boolean target whose range has one or zero |
| `NativeEncoding.SwitchesGoOutAsBits` | services/actuation-signal-publisher/src/actuation_signal_publisher/native.py:49-66 | as configured, on goes out as one and off as zero |
| `NativeEncoding.ClosenessIsTight` | services/actuation-signal-publisher/src/actuation_signal_publisher/native.py:63-65 | closeness to a word is certain up to a millionth and excluded from seven hundred-thousandths |
| `NativeEncoding.BottlesEncodeAsThemselves` | services/actuation-signal-publisher/src/actuation_signal_publisher/native.py:49-66 | an in-range bottle number goes out as itself |
| `Positions.ProducerPositions.BeginEpoch` | libs/eirvah-controls/src/eirvah_controls/recovery.py:44-55 | takes the epoch after the newest one and forgets this producer's sequences, nobody else's |
| `Positions.ProducerPositions.Next` | libs/eirvah-controls/src/eirvah_controls/recovery.py:57-83 | succeeds exactly for the instance of the newest epoch, with the next sequence of that node |
| `Positions.PositionGuard.Advance` | libs/eirvah-controls/src/eirvah_controls/recovery.py:205-223 | accepts exactly what moves the durable mark of the topic forward for the same producer, and names every other case |
| `Positions.AcceptsInIssueOrder` | libs/eirvah-controls/src/eirvah_controls/recovery.py:205-223 | with racing and restarting producers and a network that drops, repeats and reorders, the accepted positions of a topic belong to one producer and form a strictly increasing subsequence of the issue order |
| `Positions.SupersededIsFenced` | libs/eirvah-controls/src/eirvah_controls/recovery.py:57-68 | once another instance began an epoch, an older one can issue nothing |
| `Positions.FreshPositionsAreAccepted` | libs/eirvah-controls/src/eirvah_controls/recovery.py:57-223 | over every run the instance of the newest epoch can issue, and its next position is accepted at once on any topic no other identity has used |
| `InspectionRule.InspectionRule.Update` | services/decision-agent-stub/src/decision_agent_stub/inspection.py:35-107 | prunes, judges and records in place as the rule on values does, and returns the command that rule orders |
| `RuleAdmissions.OrdersFollowAdmissions` | services/decision-agent-stub/src/decision_agent_stub/inspection.py:91-107 | over every run the commands returned are, in order, one for each failed inspection admitted, each field by field for its bottle at the configured target, requested then and due by its time plus the age limit |
| `RuleAdmissions.DecisionsAreExact` | services/decision-agent-stub/src/decision_agent_stub/inspection.py:35-95 | over every run an event is admitted exactly when it is fresh and numbered, neither its identity nor its bottle was admitted within the age limit and ten seconds, it fits behind its session, and there is room; each reason of refusal is given exactly in its case |
| `RuleAdmissions.HeadsFollow` | services/decision-agent-stub/src/decision_agent_stub/inspection.py:63-80 | over every run an event judged on its merits becomes the head of its session unless it is late, and the missing count is the gap in numbers to the head before |
| `InspectionRule.CacheIsRecentHistory` | services/decision-agent-stub/src/decision_agent_stub/inspection.py:48-51 | in every run the pruning cache shows exactly what the history of everything it ever recorded shows of the window |
| `InspectionRule.RepeatsAreDuplicates` | services/decision-agent-stub/src/decision_agent_stub/inspection.py:57-62 | over every run, an event identical to one ever admitted gets the same answer from the cache and from the whole history, while fresh it is a duplicate, and it is never admitted again |
| `InspectionRule.CacheDivergesExactly` | services/decision-agent-stub/src/decision_agent_stub/inspection.py:48-95 | over every run, the cache decides otherwise than a memory without limits of age or size would if and only if the identity was forgotten, or the session's head was and the event does not continue it, or the bottle was, or the recent tables have no room |
| `InspectionRule.WithRoomOnlyForgettingMatters` | services/decision-agent-stub/src/decision_agent_stub/inspection.py:48-95 | while the cache has room, the two differ exactly for a forgotten identity, a forgotten head the event does not continue, or a forgotten bottle |
| `InspectionRule.ForgottenBottleIsAdmittedAgain` | services/decision-agent-stub/src/decision_agent_stub/inspection.py:48-95 | a witness: a bottle inspected again after twenty seconds is admitted by the cache and a duplicate to the history |
| `InspectionRule.AdmittedOnce` | services/decision-agent-stub/src/decision_agent_stub/inspection.py:57-95 | no inspection is admitted twice in any run, and one bottle of a session only after more than the age limit and ten seconds |
| `InspectionRule.TablesStayBounded` | services/decision-agent-stub/src/decision_agent_stub/inspection.py:49-89 | in every run the two dedup tables have the same size and no table outgrows the capacity |
| `RejectionTracker.RejectionTracker.Add` | services/decision-agent-stub/src/decision_agent_stub/inspection.py:124-129 | tracks a request exactly while there is room |
| `RejectionTracker.RejectionTracker.Expire` | services/decision-agent-stub/src/decision_agent_stub/inspection.py:131-146 | the loop reports and removes exactly the entries more than ten seconds past their deadline |
| `RejectionTracker.RejectionTracker.Confirm` | services/decision-agent-stub/src/decision_agent_stub/inspection.py:187-213 | the loop reports and removes exactly the acknowledged entries both readings speak for |
| `RejectionTracker.RejectionTracker.Result` | services/decision-agent-stub/src/decision_agent_stub/inspection.py:148-176 | a writer result expires, acknowledges or closes, and then confirms, in that order |
| `RejectionTracker.RejectionTracker.Feedback` | services/decision-agent-stub/src/decision_agent_stub/inspection.py:178-185 | a reading never replaces a newer one, and expiry comes before confirmation |
| `RejectionTracker.EveryRejectionHasOneOutcome` | services/decision-agent-stub/src/decision_agent_stub/inspection.py:118-213 | over every run each tracked rejection is still pending or was reported exactly once: tracked = pending + outcomes |
| `RejectionTracker.ConfirmationHasEvidence` | services/decision-agent-stub/src/decision_agent_stub/inspection.py:187-213 | a rejection is confirmed only after a writer acknowledgement and readings, none older than the request, of its bottle and of a count above its baseline |
| `RejectionOutcomes.OpenRejectionsMeetTheirFate` | services/decision-agent-stub/src/decision_agent_stub/inspection.py:131-213 | over every run each event ends an open rejection exactly so: unknown more than ten seconds overdue, unknown or not confirmed by a result that neither acknowledges nor defers, confirmed once acknowledged and shown by both latest readings, and otherwise it stays open |
| `RejectionOutcomes.ReadingsAreLatest` | services/decision-agent-stub/src/decision_agent_stub/inspection.py:176-183 | over every run the readings compared with are the latest ever sensed |
| `ClockEnvelope.CentreCovers` | scripts/e0_capture.py:132-144 | floor-halving and truncation to a microsecond never leave the stated uncertainty |
| `ClockEnvelope.SlackIsNearlyTight` | scripts/e0_capture.py:144-144 | a slack below 999.5 ns would already exclude a possible instant |
| `ClockEnvelope.EnvelopeIsSound` | scripts/e0_capture.py:93-146 | if the clock offsets at the record lie between their values at the probes and samples, the true instant is within the uncertainty of the calibrated one |
| `ClockEnvelope.EnvelopeIsTight` | scripts/e0_capture.py:111-146 | two scenarios that agree with every reading lie apart by twice the stated uncertainty less the slack, and none lies outside it: the envelope is no wider than the readings allow |
| `ClockEnvelope.CalibrationIsGuarded` | scripts/e0_capture.py:99-131 | a record is calibrated exactly when it shares the clock domain of both probes, lies between them, and the reference clock did not run back |
| `ClockEnvelope.BeforeIsTrue` | scripts/conformance.py:380-400 | for honest records a definite answer is true of real time, except that a tie inside one process reads "no"; on a shared monotonic clock snapshots may overlap, and only without one must a process take them one by one |
| `ClockEnvelope.AnswersMirror` | scripts/conformance.py:380-400 | asked the other way round a definite answer turns over; "no" both ways happens exactly on a tie |
| `ClockEnvelope.BeforeIsAcyclic` | scripts/conformance.py:380-400 | however the three rules mix, a chain of honest records each before the next never closes into a cycle |
| `ClockEnvelope.BeforeIsExact` | scripts/conformance.py:380-400 | the order is told exactly when it is certain: for all instants in the brackets on a shared clock, for all instants within the uncertainties between processes |
| `ClockEnvelope.DishonestClocksCanCycle` | scripts/conformance.py:380-400 | the rules alone do admit a cycle when a wall clock is wrong |
| `ClockEnvelope.WithinWindowIsTrue` | scripts/conformance.py:403-410 | between processes a definite window answer is true of the real distance in time; inside one process, where middles of brackets are compared, it is true up to half of both bracket widths and a nanosecond |
| `ClockEnvelope.WindowIsExact` | scripts/conformance.py:403-410 | between processes "within" is told exactly when it holds of all instants the records may stand for, "beyond" exactly when of none |
| `ClockEnvelope.BracketsDecideTheWindow` | scripts/conformance.py:403-410 | "within" is true whatever the instants in the brackets were if and only if their farthest ends are within the window, "beyond" if and only if their gap exceeds it |
| `ClockEnvelope.MiddlesCanMislead` | scripts/conformance.py:403-410 | a witness: honest records of one process 110 ns apart are called within 100 ns |
| `ClockEnvelope.DeadlineStatusIsExact` | scripts/conformance.py:604-614 | the deadline check passes exactly when every possible instant is on time and fails exactly when every one is late |
| `ClockEnvelope.CalibratedDeadlineIsTrue` | scripts/conformance.py:604-614 | on a calibrated record a passed or failed deadline check is true of the real write instant |
| `EvidenceFence.EvidenceBuffer.Append` | libs/eirvah-observability/src/eirvah_observability/execution.py:110-123 | a stored record gets the next number and evicts only the oldest in memory, and with a directory goes to journal and checkpoint while there is room; one that cannot be serialised only uses up its number |
| `EvidenceFence.EvidenceBuffer.Snapshot` | libs/eirvah-observability/src/eirvah_observability/execution.py:125-138 | refuses a negative cursor, otherwise returns the retained records past it and the completeness claim, to which capacity matters only with a directory |
| `EvidenceFence.BufferHoldsNewest` | libs/eirvah-observability/src/eirvah_observability/execution.py:110-123 | over every run the buffer holds exactly the newest serialised records that fit, and the checkpoint names the last one |
| `EvidenceFence.CompleteIsExact` | libs/eirvah-observability/src/eirvah_observability/execution.py:125-138 | over every run, a snapshot that calls itself complete holds every record serialised past the cursor, and is gapless if and only if every record past the cursor was serialised |
| `EvidenceFence.FenceIsExact` | scripts/e0_capture.py:75-90 | between two probes of one process the fence accepts exactly when every numbered record was serialised and the journal had room, and then holds precisely those records in order |
| `EvidenceFence.CompleteOverlooksLostRecords` | libs/eirvah-observability/src/eirvah_observability/execution.py:125-138 | a witness of the other side: after a record that could not be serialised a snapshot still claims completeness, and the fence over the same run rejects it |
| `RouteCheck.Reachable` | scripts/conformance.py:75-88 | the worklist search ends, and answers true exactly when a walk of the flow avoids every blocked vertex, ends included |
| `RouteCheck.GuardedMeansBlocked` | scripts/conformance.py:199-205 | blocking a role's holders disconnects the route exactly when every walk passes through a holder |
| `RouteCheck.CheckRoute` | scripts/conformance.py:191-205 | a required route has no findings exactly when both ends exist, a walk joins them and every walk passes every required role; the findings name exactly the roles bypassed |
| `Measurement.PolicyIsChecked` | libs/eirvah-contracts/src/eirvah_contracts/measurement.py:19-31 | a policy is accepted exactly when its range is proper, its error is below half a step and its limits are grid points |
| `Measurement.NormalizeIsGuarded` | libs/eirvah-contracts/src/eirvah_contracts/measurement.py:34-51 | a value is refused exactly when it is out of range by more than the encoding error; an accepted one lands on the grid within half a step of the clamped value |
| `Measurement.NormalizeStaysInRange` | libs/eirvah-contracts/src/eirvah_contracts/measurement.py:48-51 | the normalised value lies in the declared range |
| `Measurement.NormalizeIsMonotone` | libs/eirvah-contracts/src/eirvah_contracts/measurement.py:48-51 | normalising keeps order |
| `Measurement.NormalizeIsIdempotent` | libs/eirvah-contracts/src/eirvah_contracts/measurement.py:48-51 | normalising twice is normalising once |
| `Measurement.EncodingErrorIsAbsorbed` | libs/eirvah-contracts/src/eirvah_contracts/measurement.py:34-51 | a value within the encoding error of an in-range grid point becomes exactly that point |
| `Measurement.EncodingsAgree` | libs/eirvah-contracts/src/eirvah_contracts/measurement.py:34-51 | two encodings of one grid value, each within the error, normalise to the same value |
| `Measurement.HalfAStepIsTooMuch` | libs/eirvah-contracts/src/eirvah_contracts/measurement.py:24-25 | an error of exactly half a step already moves every odd grid value, which is why the policy excludes it |

## Left out

- Floating point: timestamps such as milliseconds divided by 1000 and measured values are exact here; decimal text of floats, infinities and non-numbers are not part of this model.
- Malformed requests, and commands without a deadline, are the absent request of the writer protocol; parsing, settings, metrics, logs and health endpoints are not modelled.
- Each transaction reads the clock once, except a claim (twice) and recovery (once for each row); one turn of the simulator's loop uses one reading.
- Identities are pairs of numbers instead of hexadecimal text; digests, signatures, claim tokens and generated identities are symbolic.
- SQLite: tables are maps, a transaction happens whole or not at all; write-ahead logging and file handling are not modelled.
- The journal's boot counter, effect table and statistics, the consumer's result column and state audit, and the order in which ready rows are sent.
- The S7 and OPC UA devices, their input and output loops and process dynamics; the mailbox theorem is about the Modbus order of frames, payload before sequence.
- Modbus writers of two services sharing one mailbox: one writer for each mailbox, as deployed.
- The consumer's decision not to own a fresh failed inspection while its count baseline is unusable: the delivery then simply does not happen.
- Consumer settings and the outbox capacity stay the same across restarts; the age limit lies in its configured range of up to five seconds.
- The simulator's random generator, fill level and throughput registers and the mapping of registers to engineering units.
- The telemetry pipeline, contextualiser, production-mode rule, state tracker, policy validation and the kubectl orchestration of the capture scripts.
- EvidenceFence.EvidenceBuffer.Append: a journal or checkpoint write that itself raises also uses up a number and may leave a row without a checkpoint; neither that nor a line torn by a crash is an outcome here.
- ClockEnvelope.EnvelopeIsSound: that offsets stay between their values at the probes is a premise about the clocks, which no capture can establish.
- The history the dedup cache is compared with records what the cache's own decisions record; a rule that acted on its unlimited memory would drift from it after the first difference.
- RejectionTracker.EveryRejectionHasOneOutcome: command identities are distinct; adding a second rejection under one identity would replace the first.
- NativeEncoding.NumbersEncodeExactly: the multiplication by the target's scale is exact here, not in floating point.
