# Verified model of the migration rehearsal

The repository rehearses an expand/contract migration of an invoice table against a disposable PostgreSQL database,
runs a final gate exactly once behind a durable marker, and serves the rehearsal through a local relay and adapter.
This project models that logic in Dafny and proves what it keeps.

- **Database protocol** (`Sql`, `CompatibilityTrigger`, `Selection`, `InvoiceDatabase`, `Protocol`,
  `TransactionOutcomes`, `ChunkedBackfill`, `ClientSchedules`, `RehearsalDatabase`, `Admission`). `InvoiceDatabase` says
  what each transaction does to the committed state; the class in `RehearsalDatabase` carries the transactions out
  statement by statement and is proved equal to that. `TransactionOutcomes` states them by ledger, phase and rows
  alone; `Protocol`, `ChunkedBackfill` and `ClientSchedules` are about whole runs, `Admission` about every
  interleaving under the advisory lock.
- **Engine** (`RehearsalEngine`, `EngineResponse`): the forward, down, forward, contract script over that class, and
  the response its adapter accepts.
- **Final gate** (`ReportWords`, `FinalReport`, `ReportRendering`, `ScannerOutputs`, `GateRunner`, `DurableWrite`,
  `FinalOnce`, `FinalDirectory`, `FinalHistory`, `CallOutcomes`, `FinalGate`): the report validator, the gate runner
  that produces the report, and the run-once protocol. The executor, the temporary store and every system call of every
  durable operation are inputs that may be anything; histories also contain process deaths and power losses.
- **Relay** (`Pump`, `RelayLifecycle`): the two-way pump, and the interleavings of accept thread, workers and `close`.
- **Smaller protocols** (`CacheRemoval`, `ClientWindow`, `OwnedRuntime`): the bounded cache removal, the barriers of
  the concurrent clients, and the ownership of the local runtime with its receipt.

Some promises hold only under a condition. Each is proved in both directions, with an input that fails it:

- The backfill starts above id 0 and the table has no positivity check, so it completes exactly when no row with an id
  below one is pending (`FinishPassesExactlyWhen`, `InvoiceZeroIsNeverFilled`).
- The trigger refuses a v1 write that names a row still to be filled without changing it. Client writes among batches
  therefore leave what they alone and one fill would leave exactly when no write does that while it changes another row
  (`SchedulesFillLikeAloneExactlyWhen`, `TouchingWriteStalls`); the shipped updates never do (`AdditionsFillLikeAlone`).
- The trigger does not compare the amounts of a row an update leaves unchanged (`UpdateAgreesExactlyWhen`,
  `UnchangedMismatchPasses`).
- The engine compares ordered reads with the fixture's own order, so it reports success exactly on ascending fixtures
  (`Rehearse`, `DescendingFixtureMismatch`). The document pins every scenario to ascending rows, so no shipped scenario
  meets this (`RunEngine`).
- An output whose parse raises anything but a decode error, as deep nesting or very long integers do, or a coverage
  percentage too large for a float, ends the gate run without a report, exactly when the first gate that is not good
  meets it (`RunGates`, `DeepOutputEscapes`, `HugePercentEscapes`).
- A frozen tool version that names a forbidden term makes every report invalid, and nothing else in a report can
  (`OnlyVersionsAreFound`, `PidVersionIsAnInternalError`).
- An error while the report of a failed gate is checked, stored or read back is not caught. A call that ran the effect
  and lived leaves a terminal exactly when its write reached the rename and no such error struck
  (`RanLeavesTerminalExactlyWhen`, `FailureMayLeaveNoTerminal`).
- A temporary entry left beside a terminal blocks every later answer (`SettledAnswersExactlyWhenClean`,
  `AnsweredTerminalMayBeBlocked`).
- A call that finds a terminal answers without syncing the directory. A success whose writer died between the rename
  and the sync can be answered, lost to a power loss and replaced by an interrupted attempt
  (`SuccessIsPermanentExactlyWhenSynced`, `AnsweredSuccessMayBeLost`). Process deaths alone cannot do this
  (`TerminalIsFinal`).
- After the release of the concurrent clients both can only commit unless a party fails, exactly when none has failed
  yet or both have committed (`BothCommitExactlyWhen`, `OneClientMayCommitAlone`).

SHA-256 is modelled by constructors, so equal digests have equal contents. JSON documents are structured values, and
their text is modelled where it is searched; bytes are known by what they parse to, whether they are the canonical
encoding, and their length.

## Model

| member | source | states |
|---|---|---|
| `CompatibilityTrigger.OnInsert` | migrations/0003_compatibility.sql:7-23 | the insert branch under SQL's three-valued logic accepts exactly the rows whose given representations, at least one, name one amount, and completes them |
| `CompatibilityTrigger.OnUpdate` | migrations/0003_compatibility.sql:25-51 | the update branches accept exactly when every representation the update changes names one amount, or nothing changes and both name one |
| `CompatibilityTrigger.InsertStoresOneAmount` | migrations/0003_compatibility.sql:7-23 | which inserts are accepted (three shapes, nothing else), and that the stored row is complete with the caller's amount |
| `CompatibilityTrigger.UpdateAgreesExactlyWhen` | migrations/0003_compatibility.sql:45-51 | an accepted update leaves the two amounts equal if and only if it changed the row or they were equal before |
| `CompatibilityTrigger.UnchangedMismatchPasses` | migrations/0003_compatibility.sql:45-51 | a concrete mismatched row that an update changing nothing lets through |
| `CompatibilityTrigger.UpdateStoresOneAmount` | migrations/0003_compatibility.sql:25-51 | on a pending or complete row every accepted update stores a complete row with the amount that was written |
| `CompatibilityTrigger.FillPasses` | src/migration_rehearsal/contract.py:303-316 | the backfill's own update passes the trigger on every pending or complete row |
| `Protocol.StepKeepsInv` | src/migration_rehearsal/contract.py:81-146 | every transaction, client writes and failed ones included, keeps the joint invariant of ledger, schema, grants, control row and rows |
| `Protocol.EveryReachableStateIsConsistent` | src/migration_rehearsal/contract.py:81-146 | the joint invariant holds after any sequence of transactions from any legal legacy table |
| `Protocol.RowUpdateFits` | migrations/0003_compatibility.sql:25-51 | an accepted row update in any phase keeps what the phase says of the row, never empties a filled row, and stores the written amount |
| `Protocol.FinishMeansComplete` | src/migration_rehearsal/contract.py:349-355 | the check before v2 is enabled passes if and only if every row is complete |
| `Protocol.V1IncrementsAccepted` | src/migration_rehearsal/clients.py:8-13 | with the v1 grant the v1 application's update is accepted if and only if no amount leaves the BIGINT range |
| `Protocol.V2IncrementsAccepted` | src/migration_rehearsal/clients.py:16-22 | once v2 is enabled, until contract, the v2 application's update is accepted if and only if no amount leaves the BIGINT range |
| `Protocol.StepMovesAmounts` | src/migration_rehearsal/contract.py:81-146 | an accepted client transaction posts its amounts; migrations, batches, finish and down change none |
| `Protocol.AmountsFollowWrites` | src/migration_rehearsal/contract.py:261-334 | conservation: after any run the amounts are the starting ones with the accepted writes replayed on a one-column ledger |
| `Protocol.BothViewsFollowTheLedger` | migrations/0003_compatibility.sql:1-56 | every view a client may read, legacy or target, shows the replayed one-column ledger |
| `Protocol.DownIsAnInverse` | src/migration_rehearsal/contract.py:422-497 | in every reachable state a down is accepted if and only if the phase is one of the four middle ones and the migration files are unchanged, and then leaves exactly the initial database of the current amounts |
| `Protocol.BackInInitialIsInitial` | src/migration_rehearsal/contract.py:437-494 | any run that is back in the initial phase, after any number of cycles, is in the initial state of the replayed amounts: nothing of schema, grants, ledger or control row remains |
| `Protocol.CyclesAreTheIdentity` | src/migration_rehearsal/contract.py:437-494 | without client writes any forward and down cycles that end in the initial phase are the identity |
| `Protocol.ContractIsAbsorbing` | migrations/0001_initial.sql:26-48 | no run leaves contract, and only v2 writes are accepted there |
| `Protocol.PhaseFollowsTheChain` | migrations/0001_initial.sql:26-48 | a step keeps the phase, moves one place along the chain, or is a down from a middle phase; client writes and batches never move it |
| `Protocol.EnabledStaysComplete` | src/migration_rehearsal/contract.py:123-133 | from the moment v2 is enabled until the next down no run brings back a null or mismatched row, and 0004 is accepted whenever the phase is backfill |
| `TransactionOutcomes.RefusedLeavesNoTrace` | src/migration_rehearsal/contract.py:81-146 | whatever any transaction is refused for, it leaves the database exactly as it was |
| `TransactionOutcomes.FailingMigrationLeavesNoTrace` | src/migration_rehearsal/contract.py:143-146 | a migration asked to fail before its commit leaves no trace in any state; it is refused for that exactly when the same call without the request would be applied, and otherwise answers the same |
| `TransactionOutcomes.RolledBackBatchLeavesNoTrace` | src/migration_rehearsal/contract.py:324-331 | a batch asked to roll back leaves no trace and answers the count it would have committed |
| `TransactionOutcomes.MigrationOutcome` | src/migration_rehearsal/contract.py:101-146 | by ledger and phase alone: exactly when a migration is skipped, refused for its digest, its phase or the missing v2, or applied; then the ledger has it, the phase has moved one place and no amount has |
| `TransactionOutcomes.StartOutcome` | src/migration_rehearsal/contract.py:248-258 | the backfill starts from compatibility or backfill and nowhere else |
| `TransactionOutcomes.BatchOutcome` | src/migration_rehearsal/contract.py:292-331 | a batch takes the at most 256 smallest pending ids beyond the checkpoint, fills each from its own legacy amount in EUR, moves the checkpoint to the last, counts them, and touches nothing else |
| `TransactionOutcomes.FinishOutcome` | src/migration_rehearsal/contract.py:346-363 | v2 is enabled exactly in the backfill of a complete table, each refusal has its own reason, and only the grant and the flag move |
| `TransactionOutcomes.DownOutcome` | src/migration_rehearsal/contract.py:437-468 | each refusal of a down by phase, by a USD row in contract, by a changed migration file |
| `TransactionOutcomes.ClientOutcome` | src/migration_rehearsal/contract.py:681-697 | a client write is refused for its grant exactly from the switch on for v1 and before v2 is enabled for v2 |
| `TransactionOutcomes.V1UpdateCounts` | src/migration_rehearsal/clients.py:8-13 | an accepted update answers how many of the rows it names are there and leaves every other row alone |
| `TransactionOutcomes.V2UpdateCounts` | src/migration_rehearsal/clients.py:16-22 | the same for v2 |
| `ChunkedBackfill.AnyScheduleFollowsTheLedger` | src/migration_rehearsal/contract.py:303-331 | any schedule of committed and rolled-back batches among client writes, run until a batch finds nothing, completes every row with a positive id at the amount that the writes accepted in that schedule give it |
| `ClientSchedules.SchedulesFillLikeAloneExactlyWhen` | migrations/0003_compatibility.sql:45-51 | wherever the client writes stop, every schedule of them among batches, run dry, leaves what the writes alone and one fill leave, if and only if no write, run alone, names a row still to fill without changing it while it would change another |
| `ClientSchedules.NoStallFillsLikeAlone` | src/migration_rehearsal/contract.py:303-331 | under that condition every dry schedule equals the client-only run followed by one fill |
| `ClientSchedules.FilledIsOneShot` | src/migration_rehearsal/contract.py:303-316 | with positive ids that fill is the unbounded fill of the null rows |
| `ClientSchedules.V1Accepted` | migrations/0003_compatibility.sql:28-34 | a v1 write during the backfill is accepted if and only if its amounts are legal and it changes every pending row it names |
| `ClientSchedules.StallingWriteDepends` | migrations/0003_compatibility.sql:46-48 | a write that fails the condition is refused alone and accepted after a draining batch, and the tables differ |
| `ClientSchedules.TouchingWriteStalls` | migrations/0003_compatibility.sql:46-48 | such a write in a database that a fresh one reaches: 7 cents alone, 9 cents after one batch |
| `ClientSchedules.AdditionsFillLikeAlone` | src/migration_rehearsal/clients.py:8-22 | updates that add amounts to what they find, the shipped ones of both applications among them, leave among batches run dry exactly what they alone and one fill leave |
| `ChunkedBackfill.BatchesMakeProgress` | src/migration_rehearsal/contract.py:303-331 | whatever clients write in between, each committed batch removes 256 rows from the work, or all that is left |
| `ChunkedBackfill.DryBatchMeansFilled` | src/migration_rehearsal/contract.py:303-331 | a batch that finds nothing means every row with a positive id is complete |
| `ChunkedBackfill.DrainCalls` | src/migration_rehearsal/contract.py:366-371 | without clients the loop takes exactly ceil(n/256)+1 calls and leaves nothing above the checkpoint |
| `ChunkedBackfill.DrainIsOneFill` | src/migration_rehearsal/contract.py:303-331 | the loop of 256-row batches equals one fill of all its candidates |
| `ChunkedBackfill.DrainedIsIdempotent` | src/migration_rehearsal/contract.py:811-818 | a further batch after the loop changes nothing and reports zero |
| `ChunkedBackfill.FinishPassesExactlyWhen` | src/migration_rehearsal/contract.py:337-363 | after the loop the finish check passes if and only if no row with an id below one was pending |
| `ChunkedBackfill.IdBelowOneIsNeverFilled` | src/migration_rehearsal/contract.py:303-331 | from every fresh database whose table names an id below one, brought to the backfill by its migrations, the backfill never completes |
| `ChunkedBackfill.InvoiceZeroIsNeverFilled` | migrations/0001_initial.sql:9-12 | a legal table holding invoice 0 is one of those |
| `RehearsalDatabase.ScriptAdvances` | migrations/0004_switch.sql:1-6 | from the expected phase (with v2 enabled for 0004) every statement of each migration succeeds and leaves the shape of the next phase |
| `RehearsalDatabase.UndoReturnsToInitial` | src/migration_rehearsal/contract.py:455-494 | the statements of a down run to the end from each middle phase and leave an initial database |
| `RehearsalDatabase.EveryRowIsRepresentable` | src/migration_rehearsal/contract.py:455-471 | the representability check of a down cannot fire in a reachable state |
| `RehearsalDatabase.UpdateInvoices` | migrations/0003_compatibility.sql:54-56 | an update of several rows: trigger and constraints on each, all rows or none |
| `RehearsalDatabase.InsertAll` | scripts/control_room_engine.py:52-62 | the fixture is inserted whole if and only if its rows satisfy the constraints and its ids are distinct |
| `RehearsalDatabase.Database.ResetFixture` | scripts/control_room_engine.py:52-62 | the table is replaced by the fixture, or nothing changes |
| `RehearsalDatabase.Database.ApplyMigration` | src/migration_rehearsal/contract.py:81-146 | statement by statement: ledger and digest check, phase check, the extra checks of 0004; asked to fail before the commit it leaves the old state, and is refused for that exactly when it would have been applied |
| `RehearsalDatabase.Database.MoveToBackfill` | src/migration_rehearsal/contract.py:248-258 | the phase moves to backfill only from compatibility (or stays) |
| `RehearsalDatabase.Database.RunBackfillBatch` | src/migration_rehearsal/contract.py:261-334 | fills the 256 lowest pending rows above the checkpoint and advances it; asked to roll back it leaves the old state and answers the same count |
| `RehearsalDatabase.Database.FinishBackfillEnableV2` | src/migration_rehearsal/contract.py:337-363 | enables v2 only in backfill and with no pending or mismatched row |
| `RehearsalDatabase.Database.AttemptDown` | src/migration_rehearsal/contract.py:422-497 | refusals in source order, else the undo statements; equals the down transaction |
| `RehearsalDatabase.Database.WriteV1` | src/migration_rehearsal/clients.py:8-13 | any v1 update through grant, trigger and constraints |
| `RehearsalDatabase.Database.WriteV2` | src/migration_rehearsal/clients.py:16-22 | any v2 update through grant, trigger and constraints |
| `RehearsalDatabase.Database.InsertV2` | migrations/0003_compatibility.sql:7-23 | one v2 insert through grant, trigger, constraints and the key |
| `RehearsalDatabase.Database.AttemptV1Write` | src/migration_rehearsal/contract.py:679-697 | the admission check of a v1 client and its update |
| `RehearsalDatabase.Database.ClientActor` | src/migration_rehearsal/contract.py:926-962 | a concurrent client is refused outside backfill or, for v2, before v2 is enabled |
| `RehearsalDatabase.Database.FillAndEnableV2` | src/migration_rehearsal/contract.py:366-371 | the loop takes ceil(n/256)+1 calls and v2 is enabled if and only if no row with an id below one was pending |
| `RehearsalDatabase.Database.RunBatchesUntilDry` | src/migration_rehearsal/contract.py:366-371 | the state and the number of calls are those of the drained backfill; the reported rows add up to the candidates |
| `RehearsalDatabase.BatchUpdate` | src/migration_rehearsal/contract.py:303-331 | a batch's update passes the trigger on every row it takes and moves the checkpoint |
| `Admission.EventKeepsLockInv` | src/migration_rehearsal/contract.py:279-302 | whatever was checked at admission still holds after every event of any other transaction |
| `Admission.WriteKeepsLockInv` | src/migration_rehearsal/contract.py:943-957 | between executing its update and its commit a transaction holds its rows, and nothing others see has changed |
| `Admission.CommitIsAtomic` | src/migration_rehearsal/contract.py:279-331 | what a client wrote, or a batch filled, when it executed its update is at the commit the whole transaction |
| `Admission.InterleavingsAreSerial` | src/migration_rehearsal/contract.py:926-962 | every interleaving of admissions, updates and commits is the serial run of the transactions in commit order, each on the rows it found |
| `Admission.CommitsHonourTheirGate` | src/migration_rehearsal/contract.py:681-697 | no admitted v1 write commits in switch or contract, no actor or batch commits outside backfill, no v2 actor before v2 is enabled |
| `Admission.AdmittedIsPermitted` | src/migration_rehearsal/contract.py:926-962 | an admitted transaction never meets a missing grant or a wrong phase when it executes its update |
| `Admission.ExclusiveIsAlone` | src/migration_rehearsal/contract.py:81-105 | in every interleaving an exclusive transaction is open alone, at most one batch is admitted, and no two sessions have locked the same row |
| `Admission.ClientAndBatchOverlap` | src/migration_rehearsal/contract.py:926-962 | some interleaving commits a client's update while a batch that locks other rows is open, then the batch, and leaves nothing open |
| `Selection.SmallestIsUnique` | src/migration_rehearsal/contract.py:285-302 | the ordered, limited selection of ids is determined by what it must contain |
| `RehearsalEngine.ValidateRows` | src/migration_rehearsal/control_room_adapter.py:180-214 | row validation accepts exactly lists of at most six rows in bounds with distinct ids |
| `RehearsalEngine.TargetReadMatches` | scripts/control_room_engine.py:155-169 | the ordered final read equals the expectation in fixture order if and only if the fixture is ascending |
| `RehearsalEngine.DescendingFixtureMismatch` | scripts/control_room_engine.py:368-377 | a fixture of two rows in descending order that the row validation accepts and whose final read is not the expectation |
| `RehearsalEngine.LegacyReadMatches` | scripts/control_room_engine.py:155-169 | the ordered legacy read gives back an ascending fixture exactly |
| `RehearsalEngine.BackfillCycle` | scripts/control_room_engine.py:139-152 | a cycle succeeds if and only if no row with an id below one is pending, and then reports (n, 0) |
| `RehearsalEngine.Rehearse` | scripts/control_room_engine.py:350-398 | the exact report for every fixture: rejected, a switch mismatch when not ascending, otherwise cycles (n,0) and (n,0), legacy rows restored, every amount in EUR; a passed report is read from the database after exactly the transactions of forward, down, forward and contract |
| `EngineResponse.AcceptedResponseIsUnique` | src/migration_rehearsal/control_room_adapter.py:1038-1252 | for a scenario and rows the response validator accepts exactly one response, up to free texts within their bounds: the one an undisturbed engine builds |
| `EngineResponse.AcceptedTextsAreBounded` | src/migration_rehearsal/control_room_adapter.py:1072-1236 | no accepted text is empty or too long, and each list of texts has its length |
| `EngineResponse.ApprovedDocumentIsUnique` | src/migration_rehearsal/control_room_adapter.py:217-265 | there is exactly one approved document, written out |
| `EngineResponse.RunRows` | scripts/control_room_engine.py:358-398 | on loaded rows the engine answers, with the flags it observed, if and only if they are valid and ascending, and an adapter accepts the answer if and only if the scenario is a runnable one and both read the same migration files |
| `EngineResponse.LoadScenario` | src/migration_rehearsal/control_room_adapter.py:217-271 | a scenario is loaded if and only if the document has exactly the allowed scenarios, in their order, each with its pinned rows; the pinned negative amount is rejected |
| `EngineResponse.PinnedRowsAreValid` | src/migration_rehearsal/control_room_adapter.py:55-63 | the rows a scenario is pinned to are ascending, and valid in every scenario but the rejected one |
| `EngineResponse.RunEngine` | scripts/control_room_engine.py:350-398 | the engine answers if and only if the document is the approved one and the scenario runnable, so it never meets rows out of order; and an adapter with the approved document accepts its answer if and only if it reads the same migration files |
| `FinalReport.NegativeReportHasOneFirstFailure` | src/migration_rehearsal/final_once.py:226-249 | a valid negative report has one first failure with passes before it and nothing run after it, and a cleanup exactly when the start was reached |
| `FinalReport.SuccessReportMeansAllPassed` | src/migration_rehearsal/final_once.py:204-228 | in a valid success report every one of the twelve gates passed with exit code zero |
| `FinalReport.ValidReportsAreClosed` | src/migration_rehearsal/final_once.py:181-214 | what an accepted report is outside its parts: canonical, within 5 MiB, exactly six keys, schema 2, the twelve gates in order, one of two statuses, no forbidden term |
| `FinalReport.ValidRecordsTellOneThing` | src/migration_rehearsal/final_once.py:204-228 | each gate's record is not run, not needed, or an exit code with the status it means and two digests |
| `FinalReport.ValidFreezesAreComplete` | src/migration_rehearsal/final_once.py:252-271 | threshold in range, two prefixed digests, exactly the fourteen tools with versions |
| `FinalReport.ValidCoverageAddsUp` | src/migration_rehearsal/final_once.py:279-325 | covered branches do not exceed the branches, and the percentage is their ratio within 1e-12 |
| `FinalReport.ValidScansAreCounted` | src/migration_rehearsal/final_once.py:302-331 | the four scanners with counts, which in a success are no finding and some target |
| `FinalReport.SuccessReachesTheThreshold` | src/migration_rehearsal/final_once.py:326-331 | a success ran tests, measured branches and reached the frozen threshold |
| `ReportRendering.RenderedMentions` | src/migration_rehearsal/final_once.py:333-334 | the text of any value, with its keys in any order, holds a forbidden term if and only if one of its strings or keys does: no term crosses a quote or a separator, or lies in a number, a literal or a digest |
| `ReportRendering.OnlyVersionsAreFound` | src/migration_rehearsal/final_once.py:333-334 | the search of the rendered text finds a forbidden term, in a report that passes every other check, if and only if a frozen tool version holds one |
| `ReportRendering.ValidContentSearchesTheText` | src/migration_rehearsal/final_once.py:333-334 | the content check of the validator model is the one that searches the rendered text |
| `FinalGate.PidVersionIsAnInternalError` | src/migration_rehearsal/final_once.py:333-334 | the version pid of pytest passes the checks on a freeze, and makes the first call end in an internal error whatever the gates do |
| `ReportWords.WordsAreClean` | src/migration_rehearsal/final_once.py:19-53 | no word that reports are made of, as it is spelled, holds a forbidden term |
| `ReportWords.DigestsAreClean` | src/migration_rehearsal/final_once.py:14-19 | no text of hexadecimal digits, with or without its prefix, holds a forbidden term |
| `GateRunner.SafeExecute` | src/migration_rehearsal/final_runner.py:509-516 | a result has exit code zero if and only if the executor answered this very command with zero |
| `GateRunner.Record` | src/migration_rehearsal/final_runner.py:500-506 | the recorded status follows the exit code and the record carries the digests of both outputs |
| `ScannerOutputs.ScannerSummary` | src/migration_rehearsal/final_runner.py:519-542 | the counting loop: escapes when the parse raises anything but a decode error, and is otherwise valid exactly on non-empty lists of well-formed results; its findings are the number of entries, counted one by one, of the three lists of all results |
| `ScannerOutputs.FindingsAreEntries` | src/migration_rehearsal/final_runner.py:527-542 | the sum over the results is the size of the set of entries (result, list, place) |
| `ScannerOutputs.VulnsAreEntries` | src/migration_rehearsal/final_runner.py:573-578 | the same for the vulnerabilities of an audit |
| `ScannerOutputs.ScanIsCleanExactlyWhen` | src/migration_rehearsal/final_runner.py:519-542 | a trivy output is clean if and only if it lists results, each with its target and with all three lists absent or empty |
| `ScannerOutputs.AuditIsCleanExactlyWhen` | src/migration_rehearsal/final_runner.py:545-582 | an audit is clean if and only if it has its two lists, some dependency with name and version, and no vulnerability of any |
| `ScannerOutputs.LeaksAreListed` | src/migration_rehearsal/final_runner.py:551-554 | a gitleaks output is clean if and only if it is the empty list, and counts each object of any other list |
| `GateRunner.RunImageIdentity` | src/migration_rehearsal/final_runner.py:782-805 | passes exactly when one container is named and its image is the frozen one |
| `GateRunner.CoverageIsGood` | src/migration_rehearsal/final_runner.py:819-875 | the summary of an accepted coverage answer satisfies the report validator and repeats the answer's numbers |
| `GateRunner.ToldIsReported` | src/migration_rehearsal/final_runner.py:1042-1075 | the report repeats, for every passed gate, the digests and counts of its last command |
| `GateRunner.RunCoverage` | src/migration_rehearsal/final_runner.py:806-875 | escapes exactly when the parse or the conversion of the percentage to a float raises; passes exactly on a well-formed answer at or above the threshold, whose numbers the summary repeats |
| `GateRunner.ValidPercentFits` | src/migration_rehearsal/final_runner.py:849-861 | no answer that passes the checks has a percentage too large for a float |
| `GateRunner.DeepOutputEscapes` | src/migration_rehearsal/final_runner.py:545-549 | an environment whose gitleaks output makes the parser raise, after four passed gates |
| `GateRunner.HugePercentEscapes` | src/migration_rehearsal/final_runner.py:849-865 | every coverage answer whose percentage is an integer too large for a float ends the run without a report |
| `GateRunner.RunPipAudit` | src/migration_rehearsal/final_runner.py:876-966 | escapes exactly when the parse of what it prints raises; passes exactly when export, four store operations and audit succeed and there is no finding; on every path the removal of both temporary entries comes last |
| `GateRunner.RunTrivy` | src/migration_rehearsal/final_runner.py:967-1020 | escapes exactly when the parse of what it prints raises; passes exactly when the cache digest is the frozen one before and after and the scan is clean |
| `GateRunner.RunGitleaks` | src/migration_rehearsal/final_runner.py:1021-1041 | escapes exactly when the parse of what it prints raises; passes exactly when the scan succeeds with an empty list of objects |
| `GateRunner.RunGate` | src/migration_rehearsal/final_runner.py:777-1043 | one turn of the loop: escape, pass or fail is decided by the gate's conditions, other summaries are untouched |
| `GateRunner.AssembledPartsAreValid` | src/migration_rehearsal/final_runner.py:1053-1075 | a report assembled by the runner passes every check of its parts |
| `GateRunner.RenderedContent` | src/migration_rehearsal/final_once.py:181-334 | and passes the whole validator if and only if no frozen tool version names a forbidden term |
| `GateRunner.PassedExactlyWhenAllGood` | src/migration_rehearsal/final_runner.py:1053-1057 | a run passes if and only if every gate's condition, the cleanup's included, holds |
| `GateRunner.GoodGatesKeepTheirPromise` | src/migration_rehearsal/final_runner.py:784-1010 | what passed gates saw: one container with the frozen image, an audited export with every temporary entry handled, clean scans between two reads of the frozen scanner database, no leak |
| `GateRunner.GoodCoverageReachesTheThreshold` | src/migration_rehearsal/final_runner.py:818-868 | a passed coverage gate ran tests and covered the branches it states, up to the frozen threshold |
| `GateRunner.RunGates` | src/migration_rehearsal/final_runner.py:608-1075 | for every environment: the run ends without a report exactly when the output that the first gate that is not good parses makes it raise; otherwise the report is valid exactly within the size limit and with clean versions, the run ends normally exactly when all gates are good, every status says what happened a passed gate's record and summary repeat its last command's answer, the first other gate's show the digest of its output and what was found in it, and those after it show nothing; on every path commands run in gate order, none after the first gate that is not good, with one compose down, last, exactly when the start was attempted |
| `GateRunner.CleanUp` | src/migration_rehearsal/final_runner.py:1044-1052 | compose down runs exactly when the start was attempted, and its record decides the status |
| `DurableWrite.OpenFile.WriteAll` | src/migration_rehearsal/final_once.py:75-81 | the file gains exactly the bytes taken, the whole payload unless some write raised, took nothing or was the last |
| `DurableWrite.FullWritesTookSomething` | src/migration_rehearsal/final_once.py:75-81 | the loop goes on exactly as long as every call takes something |
| `DurableWrite.CreatedMeansEveryCall` | src/migration_rehearsal/final_once.py:84-91 | an exclusive write is done if and only if open, writes, sync, close and the three calls on the directory are |
| `DurableWrite.WrittenMeansEveryCall` | src/migration_rehearsal/final_once.py:94-104 | an atomic write is done if and only if open, writes, sync, close, rename and the calls on the directory are; nothing is renamed before it was synced |
| `DurableWrite.ExclusiveOutcomesAreReached` | src/migration_rehearsal/final_once.py:84-91 | each outcome of an exclusive write is where some sequence of its system calls ends |
| `DurableWrite.AtomicOutcomesAreReached` | src/migration_rehearsal/final_once.py:94-104 | each outcome of an atomic write is where some sequence of its system calls ends |
| `DurableWrite.TornTextIsNotCanonical` | src/migration_rehearsal/final_once.py:107-115 | no proper prefix of a canonical document is canonical |
| `FinalDirectory.Directory.WriteMarker` | src/migration_rehearsal/final_once.py:84-91 | for every outcome of its system calls (open, writes, sync, close, directory) the directory is that of the outcome those calls amount to, and a part of the text reads as no marker |
| `FinalDirectory.Directory.WriteReport` | src/migration_rehearsal/final_once.py:94-104 | for every outcome of its system calls (temporary file, writes, sync, close, rename, directory) the directory is that of the outcome they amount to; only the whole text is renamed |
| `FinalDirectory.Directory.Conclude` | src/migration_rehearsal/final_once.py:94-104 | the same for the terminal, which is answered only once it is in place and synced |
| `FinalDirectory.Directory.CleanUp` | src/migration_rehearsal/final_once.py:354-386 | for every outcome of its removals and of syncing the directory, what is left is that of the stage they reach |
| `FinalHistory.RecallAnswersExactlyWhen` | src/migration_rehearsal/final_once.py:506-540 | in any directory a terminal is answered if and only if no temporary is left and it is valid for the marker's attempt and matches the stored report it names, or is valid for no attempt beside a marker that names none |
| `FinalDirectory.Directory.Finish` | src/migration_rehearsal/final_once.py:575-609 | effect, report and terminal: a failed report write turns a success into an internal error and lets a failure escape without a terminal |
| `FinalDirectory.Directory.Attempt` | src/migration_rehearsal/final_once.py:555-609 | preflight, marker, effect, in that order |
| `FinalDirectory.Directory.Protocol` | src/migration_rehearsal/final_once.py:449-611 | the whole call under the lock |
| `FinalDirectory.Directory.Run` | src/migration_rehearsal/final_once.py:614-668 | the outer call, for whatever its system calls do, is the transition of the call they amount to |
| `FinalDirectory.EveryCallIsMet` | src/migration_rehearsal/final_once.py:449-611 | conversely every admitted call that histories are made of is what some system calls amount to |
| `FinalHistory.RunningNeedsAFreshMarker` | src/migration_rehearsal/final_once.py:573-580 | the effect runs only where there was no marker and no terminal, after a valid marker was created and synced; a marker that cannot be lost, torn or not, blocks it for ever |
| `FinalHistory.EffectRunsAtMostOnce` | src/migration_rehearsal/final_once.py:545-580 | over any history of calls, process deaths at any durable operation and power losses, from any directory, the effect runs at most once |
| `FinalHistory.SettledCallChangesNothing` | src/migration_rehearsal/final_once.py:506-540 | a call that finds a terminal changes nothing and answers with it or not at all |
| `FinalHistory.TerminalIsFinal` | src/migration_rehearsal/final_once.py:506-540 | without power loss: once there is a terminal the directory never changes and every answer is that terminal |
| `FinalHistory.SyncedTerminalIsFinal` | src/migration_rehearsal/final_once.py:94-104 | a terminal whose entry was synced stays, and stays the only answer, across power losses |
| `FinalHistory.LeftoverBlocksForever` | src/migration_rehearsal/final_once.py:501-512 | a temporary entry left beside a terminal blocks every later call |
| `FinalHistory.StepKeepsConsistent` | src/migration_rehearsal/final_once.py:449-611 | every call, death and power loss keeps terminal, report and marker consistent with each other |
| `FinalHistory.ReachableIsConsistent` | src/migration_rehearsal/final_once.py:449-611 | every reachable directory is consistent |
| `FinalHistory.RecallOfReachable` | src/migration_rehearsal/final_once.py:506-540 | in a reachable directory the only refusals are a stale temporary and, after a power loss, a torn marker |
| `FinalHistory.SettledAnswersExactlyWhenClean` | src/migration_rehearsal/final_once.py:501-540 | after any calls and deaths on an empty directory, a call that finds a terminal answers with it if and only if the paths are in order, it takes the lock and no temporary was left; it changes nothing and runs nothing |
| `FinalHistory.AnsweredTerminalMayBeBlocked` | src/migration_rehearsal/final_once.py:501-512 | from an empty directory: a call answers, leaves a temporary beside its terminal, and no later call answers |
| `FinalHistory.SuccessMeansEveryGatePassed` | src/migration_rehearsal/final_once.py:527-540 | a reachable success terminal implies the stored report hashes to it and is valid, every gate passed with exit code zero, coverage meets the threshold and no scanner found anything |
| `FinalHistory.SuccessIsPermanentExactlyWhenSynced` | src/migration_rehearsal/final_once.py:94-104 | a success is the only answer of every later history, power losses included, if and only if its entry was synced |
| `FinalHistory.AnsweredSuccessMayBeLost` | src/migration_rehearsal/final_once.py:94-104 | from an empty directory: a history in which a success is answered, lost and replaced by an interrupted attempt |
| `FinalHistory.RanLeavesTerminalExactlyWhen` | src/migration_rehearsal/final_once.py:591-609 | a call that ran the effect and lived leaves a terminal if and only if the terminal's write reached the rename and no error struck while a failed gate's report was checked, stored or read back |
| `CallOutcomes.EffectRunsExactlyWhen` | src/migration_rehearsal/final_once.py:487-575 | the effect runs if and only if paths and lock are in order, there is no terminal and no marker, the cleanup is done, bootstrap, identity and preflight are in order, and the marker was written and synced |
| `CallOutcomes.UnreadyCallKeepsTheAttempt` | src/migration_rehearsal/final_once.py:555-567 | a call that is not in order writes no marker, report or terminal, and is blocked as the first probe that is not in order says |
| `CallOutcomes.UnlockedCallAnswers` | src/migration_rehearsal/final_once.py:464-491 | how a call is answered that does not get the lock, in the order of the checks |
| `CallOutcomes.StoppedCleanupRunsNothing` | src/migration_rehearsal/final_once.py:541-544 | a cleanup that stops runs nothing and is blocked |
| `CallOutcomes.StoppedCleanupLeaves` | src/migration_rehearsal/final_once.py:354-386 | what a stopped cleanup leaves |
| `CallOutcomes.MarkedCallRecordsInterruption` | src/migration_rehearsal/final_once.py:545-553 | a marker without a terminal never runs the effect again and ends as an interruption under its own attempt, or as an internal error of none |
| `CallOutcomes.MarkersNameTheirAttempt` | src/migration_rehearsal/final_once.py:136-153 | exactly which marker documents name an attempt |
| `CallOutcomes.RecallRefusals` | src/migration_rehearsal/final_once.py:501-540 | why a terminal is not answered, reason by reason |
| `CallOutcomes.AnswersAreGenuine` | src/migration_rehearsal/final_once.py:501-540 | every answered terminal is exact, and one that names a report names the stored one, valid for its status |
| `CallOutcomes.StoppedMarkerLeaves` | src/migration_rehearsal/final_once.py:84-91 | what a marker whose write stopped at each point is |
| `CallOutcomes.StoppedReportLeaves` | src/migration_rehearsal/final_once.py:94-104 | what a process that dies while it stores a report leaves, and what a power loss makes of it |
| `CallOutcomes.StoppedTerminalLeaves` | src/migration_rehearsal/final_once.py:94-104 | what a terminal whose write stopped at each point is |
| `CallOutcomes.UnstoredSuccessIsAnError` | src/migration_rehearsal/final_once.py:576-590 | a success whose report cannot be written or read back ends as an internal error |
| `FinalHistory.FailureMayLeaveNoTerminal` | src/migration_rehearsal/final_once.py:591-603 | from an empty directory: a call that ran the effect, raised and left no terminal |
| `FinalHistory.SmoothRecoverySettles` | src/migration_rehearsal/final_once.py:545-553 | after a marker without terminal one undisturbed call writes the interrupted or unreadable terminal, without the effect |
| `FinalHistory.SmoothFirstCallSettles` | src/migration_rehearsal/final_once.py:573-609 | an undisturbed first call writes the terminal of the effect's outcome, with the report it names |
| `FinalGate.RunFinal` | src/migration_rehearsal/final_once.py:573-609 | with the gate runner as effect the call is a transition of the histories; an undisturbed first call ends all-gates-passed exactly when every gate is good, as an internal error exactly when no report was produced or no validator would accept it, and gate-failed otherwise |
| `CacheRemoval.Remover.Remove` | src/migration_rehearsal/final_runner.py:119-150 | the bounded recursive removal succeeds if and only if the forest has no link or special entry, fits the entry and byte limits and the depth; then nothing is left, otherwise a sub-forest with every special entry, and no more than the limits is gone |
| `CacheRemoval.RemoveCache` | src/migration_rehearsal/final_runner.py:102-159 | the whole removal, with the missing cache and the cache that is no directory |
| `CacheRemoval.OrderDoesNotMatter` | src/migration_rehearsal/final_runner.py:124-150 | whether the removal succeeds does not depend on the order of any directory scan |
| `Pump.BoundedFifo` | src/migration_rehearsal/control_room_runtime/relay.py:293-357 | at every moment each side was sent a prefix of what its peer sent, and at most 1048575 + 65536 bytes wait in between |
| `Pump.HalfCloseIsFinal` | src/migration_rehearsal/control_room_runtime/relay.py:304-315 | a side is half-closed at most once, only after its peer ended and everything was delivered, and nothing is sent to it afterwards |
| `Pump.Forwarder.Read` | src/migration_rehearsal/control_room_runtime/relay.py:333-344 | one read appends one chunk to the peer's buffer, or notes the end |
| `Pump.Forwarder.Write` | src/migration_rehearsal/control_room_runtime/relay.py:345-357 | one write removes from the buffer exactly what was taken |
| `Pump.Forwarder.Exchange` | src/migration_rehearsal/control_room_runtime/relay.py:321-357 | one round moves a chunk from each ready, open source and a front of each ready buffer that held something, what was just read included |
| `Pump.Forwarder.Turn` | src/migration_rehearsal/control_room_runtime/relay.py:303-357 | exactly how a turn of the loop ends or that it goes on, that the stop flag ends it at once, what it moves when it goes on, and that it half-closes every side that is due |
| `Pump.Forwarder.Forward` | src/migration_rehearsal/control_room_runtime/relay.py:293-357 | every run keeps buffers and flags equal to what happened on the sockets, and each round it goes through moves exactly what it found ready; it ends complete only with both streams delivered whole and both sides half-closed |
| `Pump.HealthyPumpsComplete` | src/migration_rehearsal/control_room_runtime/relay.py:303-357 | a pump that neither the stop flag, the idle deadline nor an error ends completes: it goes on for at most as many rounds that serve a socket as there are bytes to come, bytes to deliver and ends to see |
| `Pump.SomethingIsAskedFor` | src/migration_rehearsal/control_room_runtime/relay.py:316-331 | until everything is read and delivered, select is asked for at least one socket |
| `RelayLifecycle.StepKeepsInv` | src/migration_rehearsal/control_room_runtime/relay.py:213-291 | every step of accept thread, worker or close keeps slots, registries and open sockets in line with how far each connection has come |
| `RelayLifecycle.SlotsAreBounded` | src/migration_rehearsal/control_room_runtime/relay.py:231-236 | in every interleaving at most twenty connections hold a slot and the semaphore counts exactly those |
| `RelayLifecycle.EverySlotIsReleasedOnce` | src/migration_rehearsal/control_room_runtime/relay.py:284-291 | a connection acquires and releases at most one slot, and has released it when it ends, on every path |
| `RelayLifecycle.CloseJoinsStartedWorkers` | src/migration_rehearsal/control_room_runtime/relay.py:124-148 | close waits only for workers whose thread has started |
| `RelayLifecycle.WaitingWorkersCanMove` | src/migration_rehearsal/control_room_runtime/relay.py:250-304 | a worker that close waits for has ended or has a step that brings it nearer to its end and waits for nobody: the stop flag alone ends its pump |
| `RelayLifecycle.PumpsEndExactlyBy` | src/migration_rehearsal/control_room_runtime/relay.py:303-320 | a pump is left only when a peer or a socket ends it, when the idle deadline passes, or when the stop flag is set |
| `RelayLifecycle.CloseLeavesNothing` | src/migration_rehearsal/control_room_runtime/relay.py:124-148 | when close returns no worker and no socket is registered, none is open, all slots are free, and no later step changes anything |
| `RelayLifecycle.CloseCanReturn` | src/migration_rehearsal/control_room_runtime/relay.py:124-148 | from every reachable state some continuation lets close return: the accept thread can exit, every worker can end, every join can be made |
| `RelayLifecycle.SomeRunPumps` | src/migration_rehearsal/control_room_runtime/relay.py:213-293 | some run serves a connection, so the results about workers are about something |
| `ClientWindow.StepKeepsInv` | src/migration_rehearsal/sync.py:23-51 | every step, abort and timeout keeps the window's invariant |
| `ClientWindow.CoordinatorSeesBothActors` | src/migration_rehearsal/contract.py:971-983 | the coordinator passes the second barrier only after both workers wrote and recorded |
| `ClientWindow.WritersWereBothAdmitted` | src/migration_rehearsal/sync.py:31-32 | a worker writes only after both were admitted |
| `ClientWindow.CommitNeedsRelease` | src/migration_rehearsal/sync.py:40-51 | a worker commits only after the release was called, whatever was aborted or timed out |
| `ClientWindow.BothCommitExactlyWhen` | src/migration_rehearsal/contract.py:943-962 | in any reachable state after the release no worker can fall without a further failure, if and only if no party has fallen yet or both have committed |
| `ClientWindow.BothCanCommit` | src/migration_rehearsal/contract.py:943-962 | after the release, while nobody has fallen, both can still commit and the coordinator return |
| `ClientWindow.FinishedMeansBothCommitted` | src/migration_rehearsal/contract.py:982-993 | in every run the coordinator returns a result only after both clients committed |
| `ClientWindow.SomeRunFinishes` | src/migration_rehearsal/contract.py:965-993 | some run from the start returns a result |
| `ClientWindow.LoneCommitNeedsFailure` | src/migration_rehearsal/sync.py:40-51 | a worker commits while another party falls only in a run in which some party failed or timed out |
| `ClientWindow.OneClientMayCommitAlone` | src/migration_rehearsal/contract.py:980-991 | a run in which one client commits and the other fails between the release and its commit |
| `OwnedRuntime.Runtime.Run` | src/migration_rehearsal/control_room_adapter.py:788-944 | every run succeeds exactly when every action goes well and exactly then leaves a success receipt, starts containers exactly on a verified host without the project's resources, leaves some receipt unless an inventory, an inspection, compose down or the write failed, tells in its receipt the reason and the child's exit that the world determines, claims drift only after it saw it, closes the relay before the cleanup, and runs every compose down right after an inventory of exactly the resources inspected as its own |
| `OwnedRuntime.Runtime.TearDown` | src/migration_rehearsal/control_room_adapter.py:880-896 | compose down runs against an identified set and is confirmed by an empty inventory, or leaves a drift receipt |
| `OwnedRuntime.Runtime.CleanPartial` | src/migration_rehearsal/control_room_adapter.py:897-932 | a start that did not complete is cleaned only after the partial set was identified |
| `OwnedRuntime.ReceiptIsLastAndTrue` | src/migration_rehearsal/control_room_adapter.py:865-942 | a receipt is written last and once; complete follows an empty inventory and a successful down; success needs a proven relay |
| `OwnedRuntime.ReceiptStore.RecordDeliveryFailure` | src/migration_rehearsal/control_room_adapter.py:703-784 | only the success receipt of the same run is rewritten, and only its reason |

## Left out

- PostgreSQL itself: single statements are atomic; row locks and the advisory lock are modelled by the rules of `Admission`, where a batch that meets a locked row waits before it selects; timeouts, roles other than the grants, SQLSTATE observation and connection loss are not modelled.
- Admission.InterleavingsAreSerial: writes of clients that take no advisory lock happen in one step with their commit.
- Migration files: their statements are modelled; their bytes appear only as digests, and 0001 is the constructor of a database.
- `_seed_invoices` and the clients' fixed invoice ranges appear as values; `exercise_*`, `demo.py` and the digest observations only exercise the core.
- `BackfillContentionWindow`: a smaller window of the same kind as `ClientWindow`.
- Pump.Forwarder.Forward: the idle clock and the sockets' readiness are inputs of each round.
- RelayLifecycle.CloseLeavesNothing: concurrent second calls of `close`, which return at once, and the destination probe of `start` are not modelled; a connection attempt ends by its own timeout.
- GateRunner.RunGates: building command lines, environments, timeouts and file descriptors, and the attestation of tools around each command, are inside the executor; percentages that fit a float are reals, without rounding.
- FinalReport.SuccessReportMeansAllPassed: of the Python errors a validator can raise only that of the parse is modelled; an unhashable status or a number too large for a float makes a report invalid here.
- FinalDirectory.Directory.Run: links, inodes, permissions and owners of files are not modelled; a marker or terminal whose parse raises anything but a decode error is unreadable here; a call that finds the lock held is one input, since a held lock excludes every other effect of that call.
- FinalDirectory.Directory.CleanUp: the entries of other steps are summed up as none, removable or not to be touched, and removed as one.
- ReportRendering.RenderedMentions: the order of an object's keys, the digits of a float and those of a digest are inputs; a value that writes a fixed word as another text stands for no document.
- FinalHistory.SuccessMeansEveryGatePassed: hash collisions are excluded by the model of SHA-256.
- CacheRemoval.Remover.Remove: inode changes and failing system calls are not modelled; the method returns what is left instead of changing a file system.
- OwnedRuntime.Runtime.Run: what makes an inspection agree (names, labels, mounts, ports, endpoints) is an input, and the engine child is its exit and whether it raised.
- HTTP, the browser page, process and Docker inspection, provenance checks and downloads are not modelled.
