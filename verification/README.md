# Semantic workspace: what survives crashes, duplicates and interleavings

The workspace is a set of services around one PostgreSQL database. A gateway turns MQTT
telemetry into Kafka messages and dispatches device commands over MQTT; workers consume the
telemetry, run deterministic rules that create commands, and settle commands from the
results that devices and gateways report; a relay and a graph worker keep a Neo4j projection
of the ontology; a dashboard streams the workspace events. All of it runs at least once:
messages are repeated, leases expire, processes crash between any two statements. This
project models these services and proves what the repository's design promises of them.

Each SQL statement or transaction is one atomic step. It is written twice: as a function of
the tables, and as a method of a class that changes its fields the way the service does and
is proved to compute that function. The step machines are built on the functions, and the
theorems quantify over every run of them. What a statement does is said a second time by
theorems that do not mention its function: in the times a diary noted, in plain arithmetic on
readings and thresholds, or row by row of the tables.

| part | files | what it is |
|---|---|---|
| vocabulary | `Prelude`, `Selection`, `Ids`, `Schema` | optional values, oldest-first selection, identifiers and the text the unique keys compare, the records |
| command protocol | `Commands`, `Backoff`, `Simulator`, `CommandStore`, `Adapter` | the statements on `device_command`, the retry delay in 64 bits, the device, the gateway's tick |
| its runs | `Dispatch`, `DispatchSafety`, `DispatchTheorems`, `DispatchProgress`, `DispatchRounds` | N gateways, a lossy and repeating broker, device restarts, the result log, workers; invariants; theorems; termination |
| what an observer sees of them | `DispatchDiary`, `DispatchTimes`, `DeviceRecords` | a diary of times, attempts and settlements, kept beside a run without looking into any statement; when commands are claimed, published, reported and settled, and what the rows hold, in its terms |
| rules and retention | `Rules`, `Transactions`, `LedgerStore`, `LedgerSafety`, `LedgerTheorems`, `RulePasses`, `LedgerRecords`, `CausalTrace` | telemetry, rule passes, retention, explanations |
| both together | `Workspace`, `WorkspaceTheorems`, `Shadowing` | one database, both machines; what a reserved telemetry id keeps out |
| consumption | `Consumer`, `TelemetryWorker` | MQTT acknowledgement, partition log, offsets, dead letters |
| projection | `Ontology`, `Projection`, `ProjectedGraph`, `OutboxRelay`, `GraphConsumer`, `Convergence`, `ConvergenceRuns` | mutations with outbox rows, relays, the four reads, the graph replacement |
| admission | `Admission`, `AdmittedRuns` | what the gateway admits against what the device accepts |
| pages | `Layout`, `Timeline`, `EventStream` | layers and grids of the graph pages, the top-40 timeline, the event stream cursor |

Times are integers (nanoseconds) and JSON bodies are datatypes. Identifiers are structured
values. For commands and audit rows that is the same as comparing their text. For workspace
events it is not: a sensor chooses the ids of its readings, and a chosen id can be the text
of an event the services are about to derive. So an event is stored only if no event with
the same text is, as the unique key demands, and the machines keep a history of the events
that were kept out (`shadowed`). The theorems about events are stated with it, and `Ids`
says exactly which telemetry ids can do this (`Reserved`).

Results that turned out false of the code are kept as lemmas next to the exact condition
under which they hold:

- A derived event can be kept out by a telemetry id (`Shadowing`); it is there exactly
  otherwise (`LedgerTheorems.AtMostOnceEffect`, `DispatchTheorems.OneTerminalEvent`).
- A reconnecting event stream repeats or skips rows if the client sends an `after` parameter
  that is not where it is (`EventStream.ReconnectGoesOnIff`).
- The backoff shift overflows (`Backoff.BackoffExact`), and then a refused command is not
  waited for (`DispatchTimes.OverflowSkipsTheWait`), layers of one to three classes can
  stop short (`Layout.ClassCountDecides`), nodes of unknown kinds can collide
  (`Layout.NodesApart`), messages before the first commit can be missed
  (`Consumer.MissedBeforeFirstCommit`).

## Model

| member | source | states |
|---|---|---|
| CommandStore.Store.CreateDeviceCommand | api/internal/persistence/commands.go:18-37 | the row and the pending event appear together, and a repeated command id changes neither |
| CommandStore.Store.Claim | api/internal/persistence/commands.go:39-137 | a claim takes at most 20 due rows, the oldest that nobody has locked, and gives exactly those to the owner with a new lease; one method stands for the three claims, by stage; who can be claimed when is said by `DispatchTimes` |
| CommandStore.Store.MarkCommandPublished | api/internal/persistence/commands.go:63-66 | publishes exactly a row this owner is publishing, or reports the claim lost and changes nothing |
| CommandStore.Store.ScheduleCommandRetry | api/internal/persistence/commands.go:68-83 | row and retry event change together under this owner's claim, or nothing does; what they then say is `DispatchDiary.StepDiary` and `DispatchTimes.RefusedWaits` |
| CommandStore.Store.MarkCommandPublishExhausted | api/internal/persistence/commands.go:85-88 | hands the row over for a failure report at once, under this owner's claim only |
| CommandStore.Store.DelayCommandFailureResult | api/internal/persistence/commands.go:112-115 | a reported failure is reported again no sooner than two seconds later |
| CommandStore.Store.MarkCommandTimeoutNotified | api/internal/persistence/commands.go:139-142 | a reported timeout restarts the acknowledgement clock |
| CommandStore.Store.ApplyResult | worker/src/persistence/postgres-service.ts:254-286 | settles an unsettled command with row, event and device state in one go; settled ones are duplicates; unknown, mismatched and stateless results change nothing; what the rows and devices then hold is said by `DeviceRecords` |
| Simulator.WorkspaceSimulator.HandleCommand | telemetry-simulator/simulator.py:115-160 | the two dictionaries after a command, and the answer: the cached one for a repeated command id |
| Simulator.FirstAnswerTells | telemetry-simulator/simulator.py:127-160 | a first answer succeeds exactly if the device supports the command and no failure is simulated, then with the new state, else with the text of its reason |
| Backoff.DelayExact | api/internal/mqtt/adapter.go:137-140 | the delay is min(initial * 2^(n-1), max) exactly when the shift fits in 63 bits or its overflow still exceeds the cap |
| Backoff.FirstOverflowIsNegative | api/internal/mqtt/adapter.go:137-140 | the first shift that overflows schedules the retry in the past |
| Backoff.BackoffExact | api/internal/mqtt/adapter.go:132-141 | all delays up to attempt n are the intended ones exactly when initial * 2^(n-1) < 2^63 |
| Backoff.BackoffMonotone | api/internal/mqtt/adapter.go:132-141 | within that range delays are positive, capped and never shrink |
| Backoff.TotalWaitBounded | api/internal/mqtt/adapter.go:132-141 | n scheduled waits add up to at most n times the cap |
| Backoff.DefaultBackoffLimit | api/internal/config/config.go:60-62 | with the default 500 ms the schedule is right up to attempt 35 and the 36th would be retried at once |
| Adapter.Loop.Record | api/internal/mqtt/adapter.go:131-149 | what came of a publish is recorded as published, to be retried after the delay, or exhausted; a statement that fails may have taken effect or not |
| Adapter.Loop.ReportFailures | api/internal/mqtt/adapter.go:155-191 | both reporting passes are runs of the protocol that end at the next stage, claims and marks that fail included |
| Adapter.Loop.DispatchClaimed | api/internal/mqtt/adapter.go:125-150 | claim, publish and mark, command after command, is a run of the protocol, a failing claim or mark included |
| Adapter.Loop.Tick | api/internal/mqtt/adapter.go:115-191 | whatever Kafka, the broker and the database do, a tick is a run of the protocol from a reachable state and leaves the gateway idle, one tick further; if no claim gets through it changes nothing else |
| DispatchSafety.StepInv | api/internal/persistence/commands.go:39-152 | every step of gateways, broker, device and workers keeps the per-status row shape, the fencing, the attempt accounts, the single settlement and the device's history |
| DispatchSafety.StepGrows | worker/src/persistence/postgres-service.ts:254-286 | no step changes a row's command or lowers its attempts, and none touches a settled row |
| DispatchTheorems.UnexpiredLeaseExcludes | api/internal/persistence/commands.go:39-137 | while a claim's lease is unexpired no other gateway claims the row |
| DispatchTheorems.TwoInFlight | api/internal/mqtt/adapter.go:115-191 | two gateways hold the same command only after the earlier lease expired |
| DispatchTheorems.MarkSucceedsIffStillClaimed | api/internal/persistence/commands.go:144-152 | a mark takes effect exactly if nobody has claimed the row since and it is not settled |
| DispatchTheorems.AttemptsPositive | api/internal/mqtt/adapter.go:137 | the shift count of the backoff is never negative |
| DispatchTheorems.AttemptLimit | api/internal/mqtt/adapter.go:130-146 | attempts exceed the limit by no more than the number of expired-lease reclaims |
| DispatchTheorems.RetryEventsAscend | api/internal/persistence/commands.go:68-83 | a retry that takes effect adds a new event, unless its id is taken, whose number is above all the command's earlier ones |
| DispatchTheorems.SettledStays | worker/src/persistence/postgres-service.ts:262-265 | no step changes a settled row or its terminal event |
| DispatchTheorems.TerminalIsFinal | worker/src/persistence/postgres-service.ts:254-286 | the same over every run, in every race of acknowledgement, timeout and exhaustion |
| DispatchTheorems.OneTerminalEvent | worker/src/persistence/postgres-service.ts:266-277 | a terminal event exists exactly for settled commands whose event id was not taken, tells the row's own outcome, and a success wrote the device row once |
| DispatchTheorems.TerminalEventIffSettled | worker/src/persistence/postgres-service.ts:273-277 | in a run in which nothing from outside the protocol takes the id of a command's terminal event, that event exists exactly if the command is settled |
| DispatchTheorems.AtMostOneExecution | telemetry-simulator/simulator.py:124-126 | in no life of its process does the device execute a command twice |
| DispatchTheorems.SuccessIsReal | worker/src/persistence/postgres-service.ts:266-277 | a succeeded command was executed once in the life that answered it, and its stored result is that answer |
| DispatchTheorems.AcksAgree | telemetry-simulator/simulator.py:124-160 | in each life of the device's process all acknowledgements of a command are identical, and every one on its way was issued in some life |
| DispatchTheorems.StoredStateIsReal | worker/src/persistence/postgres-service.ts:266-269 | a stored device state is the seeded one or one the device reached |
| DispatchTheorems.NoResultRejected | worker/src/persistence/postgres-service.ts:258-267 | no result the protocol produces is ever unknown, mismatched or stateless |
| DispatchDiary.ReachableIffRecorded | api/internal/mqtt/adapter.go:115-191 | the reachable states are exactly those with a diary of some run |
| DispatchDiary.StepDiary | api/internal/persistence/commands.go:18-142 | after every step the rows, claims, log and retry events are as an observer noted who sees only which rows changed: leases, due times, attempts, errors, publications |
| DispatchTimes.RefusedWaits | api/internal/mqtt/adapter.go:131-146 | after the gateway that holds the claim records a refused publish of attempt n below the limit, and while the row waits, a claim can take it exactly from its clock + min(initial * 2^(n-1), max) on |
| DispatchTimes.TimeoutClaimIff | api/internal/persistence/commands.go:117-137 | a timeout claim can take exactly a published command without a running claim whose publication or last noted timeout is more than the acknowledgement timeout ago |
| DispatchTimes.FailureClaimIff | api/internal/persistence/commands.go:90-110 | a failure claim can take exactly a finalizing command without a running claim that ran out of attempts, or was last reported two seconds ago |
| DispatchTimes.DispatchClaimIff | api/internal/persistence/commands.go:39-61 | a dispatch claim can take exactly a new command, one whose doubled and capped delay is over, or one whose publisher let its claim run out |
| DispatchTimes.OverflowSkipsTheWait | api/internal/mqtt/adapter.go:137-141 | at the first attempt whose shift overflows a refused command can be taken at once |
| DispatchTimes.ClaimsTakeTheOldest | api/internal/persistence/commands.go:39-137 | a claim passes over a command it could take, and that nobody holds locked, only if it takes twenty that have waited as long: since publication or timeout, last attempt, or creation |
| DispatchTimes.OnePublishPerAttempt | api/internal/mqtt/adapter.go:129-131 | no attempt of a command is published twice |
| DispatchTimes.PublishesApart | api/internal/mqtt/adapter.go:131-146 | attempt n + 1 of a command that was never reclaimed is published after attempt n was published and refused, and not before the delay has passed since the gateway's clock then |
| DispatchTimes.PublishGap | api/internal/mqtt/adapter.go:131-146 | consecutive publishes of such a command are the delay apart, less what the gateway's clock lags |
| DispatchTimes.ResultsAreTold | api/internal/mqtt/adapter.go:155-191 | every entry of the result log is a device's answer without a code, a timeout after more than the acknowledgement timeout, or an exhaustion after all attempts with the error of the last refusal |
| DispatchTimes.TimeoutReportIsDue | api/internal/mqtt/adapter.go:174-191 | an acknowledgement timeout is in the log only if the command was taken for it more than the acknowledgement timeout after its publication or last noted timeout |
| DispatchTimes.ReportSays | api/internal/mqtt/adapter.go:162-184 | what one report adds to the log: the command, its attempts, the gateway's time and what it was taken for |
| DeviceRecords.DevicesFollowSettlements | worker/src/persistence/postgres-service.ts:266-269 | in every run a device's stored state is the one in the stored result of the last settled command that succeeded on it, the initial one if none did; its kind and enabled flag never change |
| DeviceRecords.SettledListed | worker/src/persistence/postgres-service.ts:262-272 | the settled commands are listed once each, in the order of settlement |
| DeviceRecords.SettledRowTells | worker/src/persistence/postgres-service.ts:270-272 | a settled row tells one entry of the result log in status, time, error, code and result; a failure without a code gets device.command.rejected |
| DeviceRecords.UnsettledRowTells | api/internal/persistence/commands.go:63-142 | the failure code and error of an unsettled row fit its status |
| DispatchProgress.LiveStepRank | api/internal/mqtt/adapter.go:122-191 | no step of a live run raises a command's rank |
| DispatchProgress.RoundProgress | api/internal/persistence/commands.go:39-142 | a round in which a waiting command is due lowers the measure, as long as the worker is behind with fewer than twenty commands when it starts |
| DispatchProgress.EveryCommandSettles | api/internal/mqtt/adapter.go:122-191 | with one gateway and Kafka up and a worker never twenty commands behind, every command has its result after RoundsPerDrop * Measure rounds, even if the broker always refuses or the device never answers; and it is settled once the worker has caught up |
| DispatchProgress.TwentyBehindFillAClaim | api/internal/persistence/commands.go:90-110 | twenty commands that only wait for the worker, when they come first, fill a claim, and a due command stays as it is |
| DispatchRounds.RoundExists | api/internal/mqtt/adapter.go:122-150 | whenever the worker is behind with fewer than twenty commands the live gateway can finish another tick and the worker can catch up |
| DispatchRounds.CatchUp | api/internal/mqtt/adapter.go:122-191 | from every reachable state, wherever the gateway is in its loop, it can finish the tick and the worker can catch up |
| DispatchRounds.EveryStateCanSettle | api/internal/mqtt/adapter.go:122-191 | so from every reachable state a live run with a number of rounds known beforehand ends with every command succeeded or failed |
| Ids.EventTextInjective | worker/src/persistence/postgres-service.ts:203-235 | as long as telemetry ids are not reserved, two events have the same event_id text exactly when they are the same event |
| Ids.CollidesIffReserved | worker/src/persistence/postgres-service.ts:203-235 | a telemetry id is the text of some event the services derive exactly if, cut at its last colon, it has the form of one: a generated command id, such an id followed by "pending" or by "retry" and a canonical number, or a rule event id |
| Ids.DerivedTextInjective | worker/src/persistence/postgres-service.ts:203-235 | the texts of derived events are equal exactly for the same event, whatever telemetry ids are in them |
| Ids.CommandTextInjective | worker/src/persistence/postgres-service.ts:219 | generated command ids have the same text exactly when they are the same |
| Ids.AuditTextInjective | worker/src/persistence/postgres-service.ts:203 | audit id texts are equal exactly for the same match or incident |
| Ids.DecimalRoundTrip | api/internal/persistence/commands.go:79 | the decimal attempt number in a retry event id determines the attempt |
| Ids.ReservedTelemetryIdCollides | worker/src/persistence/postgres-service.ts:235 | for every event the services derive there is a telemetry id that takes its text, and it is reserved |
| Ids.ColonInRuleIdCollides | worker/src/persistence/postgres-service.ts:219 | why the generator's rule ids matter: with a colon in them, which it never puts there, different matches would share a command id |
| LedgerStore.PostgresService.InsertTelemetry | worker/src/persistence/postgres-service.ts:17-63 | tombstone, telemetry row and reading event in one go, or a duplicate |
| LedgerStore.PostgresService.SelectRules | worker/src/persistence/postgres-service.ts:192-199 | the enabled rules of the sensor, by creation time |
| LedgerStore.PostgresService.WriteMatch | worker/src/persistence/postgres-service.ts:217-241 | rule clock, rule event, command, pending event and audit row of one match, and nothing else |
| LedgerStore.PostgresService.ApplyRule | worker/src/persistence/postgres-service.ts:202-243 | a rule fires, is passed over, or stops the pass, each under its exact condition |
| LedgerStore.PostgresService.ApplyDeterministicRules | worker/src/persistence/postgres-service.ts:181-252 | the loop over the locked rules computes the pass; an error restores every table |
| LedgerStore.PostgresService.CleanupRetention | worker/src/persistence/postgres-service.ts:65-123 | starts exactly if the advisory lock is free and the interval has passed, and then sweeps one batch per table |
| LedgerStore.PostgresService.InsertDeadLetter | worker/src/persistence/postgres-service.ts:125-156 | one dead letter per source position, the first one |
| LedgerRecords.FirstDeliveryIsStored | worker/src/persistence/postgres-service.ts:21-54 | the first delivery stores tombstone, row, position and reading event, field by field, unless the event's id is taken; a later one changes nothing |
| LedgerRecords.ReadingsAgree | worker/src/persistence/postgres-service.ts:48-54 | over every run a stored reading event says what the stored message of its id says |
| LedgerRecords.EditSetsItsRule | api/internal/persistence/operations.go:140-144 | an edit sets what it is asked to on its one rule and leaves its clock, its creation time and every other rule alone |
| LedgerRecords.SwitchSetsItsRule | api/internal/persistence/operations.go:145-147 | a switch turns its one rule on or off and changes nothing else |
| Rules.MatchesIffSatisfies | worker/src/rules/deterministic-rule.ts:6-16 | a condition matches exactly if the units are equal and the value equals the threshold, or both are numbers and their difference has the sign the operator names |
| RulePasses.CommitsIff | worker/src/persistence/postgres-service.ts:185-216 | a pass commits exactly if the sensor is known, enabled and of the event's kind and unit, and every rule due can act on an enabled device of a fitting kind |
| RulePasses.RecordsExactlyTheDue | worker/src/persistence/postgres-service.ts:192-212 | a committed pass records exactly the enabled rules of the sensor whose condition the reading satisfies and whose last match is a cooldown ago |
| RulePasses.OperatorsDecide | worker/src/rules/deterministic-rule.ts:6-16 | with reading x and threshold y the five operators fire exactly if x > y, x >= y, x < y, x <= y, x = y; other units, non-numbers and other operators never do |
| RulePasses.WritesOfAPass | worker/src/persistence/postgres-service.ts:217-241 | field by field what a pass leaves of each match: clock, rule event, command, pending event, audit row; of every other rule nothing changes |
| LedgerSafety.PassIsTransaction | worker/src/persistence/postgres-service.ts:200-243 | the machine's rule-by-rule pass gives the tables and the matched rules of the transaction |
| LedgerSafety.StepInv | worker/src/persistence/postgres-service.ts:17-252 | every transaction, rule edit and protocol step keeps matches whole, ids unique and generated, deduplication, cooldowns and sweep spacing |
| LedgerSafety.StepKeeps | worker/src/persistence/postgres-service.ts:86-109 | no step removes a tombstone, dead letter, match record or any event but sensor readings, sets a rule's clock back, or stores the rule event of a match later than the match |
| LedgerTheorems.AtMostOnceEffect | worker/src/persistence/postgres-service.ts:203-241 | an (event, rule) pair fires at most once; its audit row and command exist exactly then, its rule event and pending event exactly then unless kept out, and only an inserted, reserved telemetry id keeps one out |
| LedgerTheorems.AllTracesOrNone | worker/src/persistence/postgres-service.ts:203-241 | all four traces of a pair exist or none does, if no sensor ever used either derived id |
| LedgerTheorems.NothingShadowedIfUnreserved | worker/src/persistence/postgres-service.ts:49-53 | as long as no sensor uses a reserved id no derived event is kept out |
| LedgerTheorems.CommandAndAuditIdsCompareByText | worker/src/persistence/postgres-service.ts:203-219 | for commands and audit rows comparing text, as the unique keys do, is comparing ids, whatever sensors send |
| LedgerTheorems.TracesStay | worker/src/persistence/postgres-service.ts:102-109 | the traces of a match never disappear or change, whatever retention runs; its rule event is among them unless a sensor used its id |
| LedgerTheorems.PassAppliesExactlyTheMatches | worker/src/persistence/postgres-service.ts:202-243 | a pass commits exactly if the sensor is known and no firing rule meets an obstacle, and then records exactly the rules that match, are not cooling down and were not applied |
| LedgerTheorems.RepassIsIdle | worker/src/telemetry/telemetry-service.ts:21-25 | passing over an event a second time at the same moment changes nothing: the pass a duplicate delivery repeats after a crash is harmless |
| LedgerTheorems.LaterPassFiresOnlyCooled | worker/src/persistence/postgres-service.ts:202-213 | after a committed pass a later one fires exactly the rules that matched, had not been applied, were cooling down then and no longer are |
| LedgerTheorems.MatchesApart | worker/src/persistence/postgres-service.ts:209-212 | any two matches of a rule are at least the later cooldown apart, with any worker clocks |
| LedgerTheorems.ClockNeverRunsBack | worker/src/persistence/postgres-service.ts:221 | last_triggered_at never decreases over a run |
| LedgerTheorems.ClockMovesOnlyInPasses | api/internal/persistence/operations.go:140-147 | rule edits and switches do not touch last_triggered_at |
| LedgerTheorems.InsertedOnce | worker/src/persistence/postgres-service.ts:21-54 | each telemetry id is inserted at most once in the whole history, and all that is stored has its tombstone |
| LedgerTheorems.DeletedStaysDeleted | worker/src/persistence/postgres-service.ts:21-29 | redelivery after retention does not bring a payload back |
| LedgerTheorems.CleanupIsBounded | worker/src/persistence/postgres-service.ts:86-109 | each deletion takes at most a batch, all of it older than the days its kind is kept and none newer than what stays though it could go; no rule.matched audit row and no event but sensor readings; within an interval of the last one nothing changes |
| LedgerTheorems.CleanupsApart | worker/src/persistence/postgres-service.ts:74-84 | over all workers cleanups start at least an interval apart |
| CausalTrace.Assemble | api/internal/httpapi/events.go:98-200 | the slices and fields the handler builds for an event id are its explanation |
| CausalTrace.StepsCiteEvidence | api/internal/httpapi/events.go:161-176 | every causal step's evidenceId is in the evidence list |
| CausalTrace.ExplanationTells | api/internal/httpapi/events.go:134-160 | device, command, state and failure of the explanation are those of the terminal event; only mqtt.publish.exhausted and device.ack.timeout have a label of their own, and only the first is in the publish phase |
| CausalTrace.CompleteTells | api/internal/httpapi/events.go:161-176 | reading, rule, condition and action of a complete explanation are those of the stored match, each with its step and evidence |
| CausalTrace.RuleExplanationNeverDecays | api/internal/httpapi/events.go:116-181 | a settled rule command's explanation names the event, the rule and a reading that satisfies the condition exactly if the rule event was not kept out, and then never changes, after any later run |
| CausalTrace.CompleteIffFromRule | api/internal/httpapi/events.go:128-133 | a settled command's explanation is complete exactly if a rule issued it and something is stored under its rule event's id; a user's is partial, missing rule and reading |
| CausalTrace.ExplainedIffStored | api/internal/httpapi/events.go:98-112 | a command id has an explanation exactly while its terminal event is stored; never if a reading stands under the id |
| Workspace.ProtocolEvolves | api/internal/persistence/commands.go:18-152 | whatever the protocol does to the shared tables is what the ledger machine allows for |
| Workspace.WorkReaches | worker/src/persistence/postgres-service.ts:217-236 | what a worker's transaction does to the command tables is a run of the protocol |
| Workspace.BothMachinesReachable | worker/src/persistence/postgres-service.ts:181-286 | every joint state projects to reachable states of both machines, which agree on the shared tables |
| WorkspaceTheorems.RuleCommandHasItsMatch | worker/src/persistence/postgres-service.ts:217-241 | a rule's command exists because that rule fired once on the event it names; its rule event is there unless kept out, with a reading that satisfies the condition |
| WorkspaceTheorems.SettledIsRecorded | worker/src/persistence/postgres-service.ts:266-277 | the terminal event of a settled command is there, or a sensor has used its id |
| WorkspaceTheorems.SuccessHasItsReason | api/internal/httpapi/events.go:161-181 | a succeeded rule command was really executed, and its explanation names rule, event and a satisfying reading exactly if neither event was kept out, which takes a telemetry id |
| Shadowing.MatchEventKeptOut | worker/src/persistence/postgres-service.ts:49-53 | for every event, rule that fires on it and either event of the match: if a sensor uses that id first, a run leaves every other trace but not this one |
| Shadowing.TerminalEventKeptOut | worker/src/persistence/postgres-service.ts:273-277 | for every command: if a sensor uses its id first, a run settles it without a terminal event, and its id has no explanation |
| Consumer.NoMessageLost | worker/src/consumer/telemetry-consumer.ts:50-67 | from the first committed offset on, every message below the committed offset was stored and passed over, or is a published dead letter at its position; one the worker cannot parse always is |
| Consumer.AcknowledgedIsLogged | api/internal/mqtt/telemetry.go:18-37 | every event the gateway validates and acknowledges is in the log as the gateway stamps it |
| Consumer.RefusedIffUnknown | worker/src/contracts/telemetry.ts:26-37 | of what the gateway lets through the worker refuses exactly unknown kinds and values that are neither numbers nor booleans, and counts them as validation failures |
| Consumer.EventIsAsSent | api/internal/mqtt/telemetry.go:18-37 | an event the gateway lets through and the worker takes has every field as sent, a missing or empty source as "mqtt" |
| Consumer.ParsesIff | worker/src/contracts/telemetry.ts:18-37 | the worker takes a message exactly if it carries schema, ids, a sequence from zero, a time, a unit, a known kind and a number or boolean; what is refused without being read is no validation failure |
| Consumer.MissedBeforeFirstCommit | worker/src/consumer/telemetry-consumer.ts:45 | before the first commit a consumer starts at the end of the log, however long: whatever valid messages were acknowledged by then, a run commits past all of them without looking at one |
| TelemetryWorker.TelemetryConsumer.Handle | worker/src/telemetry/telemetry-service.ts:19-40 | storing a reading and passing over its rules, for duplicates too, is a run of the partition's machine that ends handled or rejected with the reason |
| TelemetryWorker.TelemetryConsumer.RecordDeadLetter | worker/src/dead-letter/dead-letter-service.ts:26-47 | the letter is stored before it is published, and only then is the message done; the first letter of a position stays |
| TelemetryWorker.TelemetryConsumer.EachMessage | worker/src/consumer/telemetry-consumer.ts:50-67 | each call is a run of the partition's machine: the message is taken care of and its offset committed, or the consumer leaves and the offset stays; a refused event is a validation failure, an empty value or text that is no JSON a processing failure |
| Ontology.InsertSound | infra/postgres/migrations/003_semantic_graph_projection.sql:7-29 | insertions keep every foreign key intact |
| Ontology.InsertUnique | infra/postgres/migrations/003_semantic_graph_projection.sql:1-29 | insertions keep every unique key |
| Ontology.RefusedIffBroken | api/internal/persistence/ontology.go:156-231 | a mutation is refused exactly if the tables with its row would break a unique key, or else a foreign key, and the error says which |
| Ontology.OntologyStore.CreateClass | api/internal/persistence/ontology.go:156-171 | the class and its rebuild request commit together, or the name is taken and nothing changes |
| Ontology.OntologyStore.CreateProperty | api/internal/persistence/ontology.go:173-191 | the property and its rebuild request commit together, or a name or class conflict changes nothing |
| Ontology.OntologyStore.CreateIndividual | api/internal/persistence/ontology.go:193-211 | the individual and its rebuild request commit together, or a conflict changes nothing |
| Ontology.OntologyStore.CreateRelation | api/internal/persistence/ontology.go:213-231 | the relation and its rebuild request commit together, or a conflict changes nothing |
| Ontology.OntologyStore.EnqueueOutbox | api/internal/persistence/ontology.go:233-240 | a requested rebuild waits in the queue behind every earlier request, and no request is lost or reordered |
| Ontology.OntologyStore.QueryClasses | graph-worker/src/projection.rs:46 | all classes, by ascending id |
| Ontology.OntologyStore.QueryProperties | graph-worker/src/projection.rs:50 | the properties with their domain and range names, by ascending id |
| Ontology.OntologyStore.QueryIndividuals | graph-worker/src/projection.rs:54 | the individuals with their class names, by ascending id |
| Ontology.OntologyStore.QueryRelations | graph-worker/src/projection.rs:58 | the relations with their property names, by ascending id |
| Projection.NodeIdsInjective | graph-worker/src/projection.rs:48-62 | Class:, Property: and Individual: ids collide for no two entities |
| Projection.Project | graph-worker/src/projection.rs:44-66 | the loops hand Neo4j the nodes and relations of the four results, and count them |
| Projection.Neo4j.ReplaceProjection | graph-worker/src/neo4j.rs:13-24 | after the replacement the graph is what the three statements make of its arguments, whatever it was before |
| Projection.Neo4j.Connect | graph-worker/src/neo4j.rs:17 | MATCH ... CREATE makes one edge for every pair of nodes with the two ids |
| Projection.EdgeIffAnchored | graph-worker/src/neo4j.rs:17 | with distinct node ids a relation becomes one edge if both ends were captured, and none otherwise |
| Projection.ConsistentReadsMirror | graph-worker/src/projection.rs:44-66 | four reads of one ontology give exactly its image: a node per entity, an edge per relation |
| ProjectedGraph.MirrorsDepicts | graph-worker/src/projection.rs:44-66 | what an exact image is, row by row: each class, property and individual is one node with its own id, kind, name, description, class name or signature and external id, each relation one edge named by its property from its subject to its target, and nothing else |
| Projection.Rebuild | graph-worker/src/projection.rs:22-66 | a rebuild no mutation comes between leaves the exact image in Neo4j and its size in the status row; one that fails leaves the old graph or the exact image, and the status failed or still running |
| OutboxRelay.Relay.NextOutbox | api/internal/persistence/outbox.go:14-21 | the head of the queue of unpublished rows, or none exactly if the queue is empty |
| OutboxRelay.Relay.MarkOutboxPublished | api/internal/persistence/outbox.go:23-26 | takes that row out of the queue for good; the other requests stay in their order |
| OutboxRelay.Relay.PublishAvailable | api/internal/outbox/relay.go:39-67 | the queue goes to the topic in order from its head, what leaves it is in the topic, at most the last one sent is still in it, and unless a turn fails all of it is in the topic and none is left |
| GraphConsumer.Worker.Run | graph-worker/src/consumer.rs:47-90 | every committed message was valid and rebuilt, the loop stops at the first that fails, and readiness is down afterwards |
| GraphConsumer.AcceptedIff | graph-worker/src/consumer.rs:38-44 | a request is accepted exactly with the schema, a scope of the three, and more than white space for id and time |
| Convergence.StepInv | graph-worker/src/projection.rs:22-66 | mutations, relays, the four reads, the replacement and crashes keep the pipeline's invariant |
| Convergence.ProjectionConverges | graph-worker/src/consumer.rs:71-88 | once a rebuild was requested, with the outbox drained and the topic committed Neo4j is exactly the image of the ontology and the status row counts it |
| ProjectedGraph.ConvergedGraphDepicts | graph-worker/src/consumer.rs:71-88 | so with the outbox drained and the topic committed Neo4j holds the rows of the tables, row by row, and nothing else |
| ConvergenceRuns.EveryStateCanConverge | api/internal/outbox/relay.go:39-67 | from every reachable state with a request and no unreadable message ahead, relay and worker can reach the exact image without a further mutation |
| Admission.ValidateRule | api/internal/httpapi/operations.go:119-155 | a rule is valid exactly if its input is well formed, its first-listed sensor measures in its unit and its enabled device takes its action |
| Admission.AdmittedIffSupported | api/internal/httpapi/operations.go:283-326 | a command for an enabled device is admitted exactly if the device supports it |
| Admission.AdmittedNeverUnsupported | telemetry-simulator/simulator.py:132-134 | an admitted command is not answered "unsupported command" |
| Admission.RuleCommandsAreSupported | worker/src/persistence/postgres-service.ts:213-216 | a rule stops a pass exactly if its device does not take its action, and any command it creates is supported |
| Admission.PredictionAgrees | worker/src/rules/deterministic-rule.ts:18-30 | applyAction accepts what the device supports and predicts the state it reaches |
| Admission.DeviceStateIsFold | telemetry-simulator/simulator.py:115-160 | after any deliveries, repeated or failed, a device's state is the fold of applyAction over first deliveries that were not injected failures |
| AdmittedRuns.AdmittedNeverRefused | telemetry-simulator/simulator.py:132-134 | with the seeded devices, in every joint run whose gateway creates only commands it admitted, no answer of the device is "unsupported command" |
| Layout.ComputeDepths | components/ontology/ontology-graph.tsx:29-35 | the nested loops compute the passes of in-place relaxation |
| Layout.LayersAreRight | components/ontology/ontology-graph.tsx:29-35 | with at least four classes or no cycle each depth is min(4, longest chain ending at the class), and a chain witnesses it |
| Layout.TooFewPasses | components/ontology/ontology-graph.tsx:30 | with one to three classes and a self-relation the passes stop short |
| Layout.ClassCountDecides | components/ontology/ontology-graph.tsx:29-35 | all ontologies of n classes are layered right exactly if n is 0 or at least 4 |
| Layout.PlaceIndividuals | components/ontology/ontology-graph.tsx:36-42 | each individual goes one row below the earlier ones of its layer |
| Layout.IndividualsApart | components/ontology/ontology-graph.tsx:36-42 | no two individuals get the same position |
| Layout.PlaceNodes | components/ontology/ontology-graph.tsx:49-56 | each node takes the next cell of its kind's grid |
| Layout.CellOf | components/ontology/ontology-graph.tsx:49-56 | where a cell is: the grids of the kinds side by side, two, two and three columns wide |
| Layout.NodesApart | components/ontology/ontology-graph.tsx:49-56 | two nodes collide exactly if both kinds are unknown and different and the nodes are equally far along in them |
| Timeline.MergeEvents | components/dashboard/workspace-dashboard.tsx:96-100 | the map, the sort and the cut give the merge of both lists |
| Timeline.MergeIsNewest | components/dashboard/workspace-dashboard.tsx:96-100 | a merge is the forty largest ids of the union, descending, each once |
| Timeline.NewestOfNewest | components/dashboard/workspace-dashboard.tsx:99 | cutting to forty before a merge loses nothing a later merge would show |
| Timeline.StreamingIsOneMerge | components/dashboard/workspace-dashboard.tsx:238-268 | from any loaded snapshot, in any order, arrivals, buffering and flushes end with the list one merge of everything gives once anything has been merged; until then the list is the snapshot and nothing else has come |
| Timeline.Page.OnWorkspaceEvent | components/dashboard/workspace-dashboard.tsx:238-247 | an event goes into the list of a visible page and into the buffer of a hidden one |
| Timeline.Page.OnVisibilityChange | components/dashboard/workspace-dashboard.tsx:261-268 | showing the page merges the buffer into the list and empties it |
| EventStream.Connection.ListWorkspaceEventsAfter | api/internal/persistence/events.go:51-58 | the first rows above the id, ascending, up to the clamped limit |
| EventStream.Connection.Tick | api/internal/httpapi/events.go:59-73 | a tick writes the next rows in order and moves the cursor to the last one |
| EventStream.ReceivedExactly | api/internal/httpapi/events.go:38-74 | over polls, broken deliveries and reconnects that resume events come ascending and once, and a passed row was received exactly if it was neither late nor deleted unseen |
| EventStream.NoGapNoRepeat | api/internal/httpapi/events.go:38-74 | when rows become visible in id order and none between the client's start and position is deleted unseen, the client has exactly the rows between the two |
| EventStream.ReconnectGoesOnIff | api/internal/httpapi/events.go:39-47 | a reconnect leaves neither gap nor repeat in all later polls exactly if it sends no `after`, or one between which and the last id seen there is no row and can be none |
| EventStream.OnlyLastIdGoesOn | api/internal/httpapi/events.go:39-47 | while nothing has been deleted, exactly if it sends no `after` or the last id seen |
| EventStream.AfterParameterRepeats | api/internal/httpapi/events.go:39-44 | a client that keeps an `after` parameter gets the same batch again: connect, poll, drop, connect, poll |

## Left out

- CommandStore.Store.Claim: the three claim statements are one method by stage; rows with equal sort keys come in any order.
- Adapter.Loop.Tick: runs one gateway without others in between; the interleavings are those of the machine in `Dispatch`.
- DispatchProgress.EveryCommandSettles: assumes that at the start of each round fewer than twenty commands have results in the log that the worker has not applied, and that the gateway's claims find no locks; with twenty a claim can be filled with commands that only wait for the worker (`DispatchProgress.TwentyBehindFillAClaim`).
- DispatchTheorems.SuccessIsReal: `failed` does not mean that the command was not executed; an acknowledgement may lose the race against a timeout.
- LedgerStore.PostgresService.SelectRules: rules created at the same instant come in any order; how ids compare is up to the database's collation.
- LedgerStore.PostgresService.CleanupRetention: orders by time only, rows of equal time come in any order; a day is 24 hours.
- LedgerTheorems.MatchesApart: speaks of rule ids that are never drawn twice, as random ids are.
- Consumer.NoMessageLost: one partition of the telemetry topic; the command.result topic runs through the same handler and appears in `Dispatch` as a log whose entries are applied in any order and any number of times.
- Convergence.ProjectionConverges: one graph worker at a time; a replacement that Neo4j commits only after the worker that sent it was replaced is not modelled. An unreadable message in the topic stops the worker for good, and then nothing is claimed.
- OutboxRelay.Relay.PublishAvailable: rows of another topic or with an undecodable payload, on which the relay stops, do not arise from the modelled mutations.
- Timeline.StreamingIsOneMerge: the snapshot a refresh loads replaces the list, and the theorem starts anew from it, with whatever is buffered then. Rows are immutable, so the same event id always brings the same event.
- EventStream.NoGapNoRepeat: before a client has received anything, every new connection starts at the row that occurred last, so what appeared in between is not part of the promise.
- CausalTrace.Assemble: headings, summaries and details are given by the values they are formatted from.
- Admission.ValidateRule: texts are given by their trimmed lengths; the trimming itself is not modelled.
- Layout.LayersAreRight: property ends are classes of the ontology, which the foreign keys ensure.
- The device's result envelope carries a correlation id that the model leaves out; its validation before Kafka never rejects what the device sends.
- HTTP routing, authentication of requests, the Next.js routes, rendering and styling.
- Gemini, Mastra and the decision audit: foreign calls; a failing decision appears only as an audit row and as a possible failure of the handler.
- Kafka, MQTT, PostgreSQL and Neo4j themselves: an append-only log with a committed offset, a channel that loses and repeats, atomic statements, an atomic replacement.
- JSON encoding, timestamp parsing, floating point and NaN: datatypes, integers and real numbers.
- Client ids, shared subscriptions, configuration parsing, health servers and deployment files.
- Rate limiting, the bounded Neo4j read query and the sensor simulation: counters and limits without a hard property.
