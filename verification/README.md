# UndoLog, verified

UndoLog journals the tool calls of agents. A call that was already made is replayed from the journal,
an irreversible call waits for a human decision, and the compensable calls of a failed session are
undone in reverse order. This project models the parts of UndoLog where the order of events matters
and proves what they guarantee, in Dafny 4.11. `dafny verify dfyconfig.toml` checks all of it.

## The parts

- **Compensation** (`MockToolServer`, `UndoStack`, `SagaProtocol`, `SagaRollback`, `SagaSchedule`).
  Orchestrator workers walk a persisted undo stack over a network that loses and delays messages, crash
  anywhere and start again, against an endpoint that deduplicates on an idempotency key. `SagaProtocol`
  is the transition system; `SagaRollback` is the code of one run with its retry loop and its walk;
  `SagaSchedule` shows the code to be one schedule of the protocol.
- **Call identity** (`Text`, `CanonicalJson`, `NumberDecoder`, `JsonDecoder`, `RustJson`, `Utf8`,
  `NumberText`, `NumberIdentity`, `DoubleValue`, `CallSignature`, `LockKey`). Canonical JSON as the
  Python SDK and the Rust engine print it, number text and which numbers it tells apart, the
  length-prefixed hash input and the lock key derived from a signature. The standards are sections 3.2.2 and 3.2.3 of RFC 8785, section 7 of
  RFC 8259, section 3 of RFC 3629 and section 2 of draft-eastlake-fnv. The digest itself is an arbitrary collision-free function.
- **Effect engine** (`EffectTables`, `EngineProtocol`, `EngineGuarantees`, `EffectEngine`,
  `SessionCache`, `CachedEngine`, `EngineOperations`). `EffectTables` holds the guarded updates;
  `EngineProtocol` interleaves the statements of any number of intercepts; `EngineGuarantees` draws the
  conclusions and holds the runs that show which conditions are needed; `EffectEngine` is the code,
  shown to be one schedule of the protocol. The session cache is modelled with its clock and evictions;
  `EngineOperations` puts every operation of the engine behind it, for any number of organisations on
  shared tables, and shows it to be invisible.
- **SDK wrapper and local journal** (`DevJournal`, `JournalMachine`, `ApprovalGate`, `AgentReplay`,
  `AgentAgreement`, `AgentCrashes`, `SdkAgent`). The development server's journal and handlers refine one small machine
  per signature. On top of it runs a deterministic agent that is handed values and errors, crashes
  anywhere and is restarted with its step counter at zero, while commits it no longer waits for may
  still arrive. `AgentAgreement` and `AgentCrashes` say exactly when its incarnations agree, and
  `SdkAgent` instantiates the signatures.
- **Bodies and partitions** (`ChunkedBody`, `ChunkedRoundTrip`, `Partitions`, `PartitionCycle`). The
  chunked body reader (section 7.1 of RFC 9112) and the monthly partition window.

Code that changes state is modelled by classes and loops proved against functions; the results about
those functions are lemmas. Runs are sequences of states and steps, and the results about them hold of
every run.

## Where the code and its documentation differ

The model follows the code.

- docs/design/state-machine-verification.md says a terminal effect never changes again. A duplicate
  moves a committed or rejected row to replayed. `EngineGuarantees.TerminalStaysTerminal` states what
  does hold.
- The comments of crates/undolog-store/src/partition.rs count the retention beyond the current month.
  The arithmetic counts the current month in; `PartitionCycle.DroppedIff` is exact. They also take the
  retention to be positive, while the code reads it as a signed 32-bit integer;
  `PartitionCycle.WindowSurvivesIff` gives the condition.
- crates/undolog-engine/src/engine.rs says the advisory lock prevents concurrent writes. The lock is
  released with its own statement, so the model gives it no effect; the unique indexes carry the
  guarantees.
- The orchestrator reports a session compensated even where the guarded update skips one that awaits
  approval. `SagaRollback.ReportedStateIsStoredIff` is exact.
- The chunked reader is documented to keep memory bounded. `ChunkedRoundTrip.ExceedsCeilingIff` says
  exactly for which streams it does not, and `ChunkedRoundTrip.NegativeSizeKeepsAll` gives one.
- docs/explanation/exactly-once-semantics.md promises exactly-once calls across restarts. A call whose
  tool failed runs again after a restart, even where the agent had gone on with the error, and may then
  come out otherwise: `SdkAgent.PassedOverFailureDiverges` gives the run. No tool need fail for that: a
  crash with a commit under way makes the body run again, and the late commit then replaces its result;
  `AgentCrashes.CommitUnderWayDiverges` gives that run. `AgentAgreement.StableIff` and
  `AgentCrashes.SettledIff` say exactly when incarnations agree, without and with such crashes.
- `canonical_json` is documented to print numbers by the ECMAScript rules. Integers are printed with all
  their digits, so an integer and the double equal to it may print differently: from 1e21 on always, and
  below that as soon as fewer digits are enough for the double, which 2^55 is an instance of.
  `DoubleValue.EqualPrintAlikeIff` is exact, and up to 2^53 they always print alike.

## Model

| member | source | states |
|---|---|---|
| MockToolServer.ToolServer.DoPost | infra/mock-tool-server/server.py:347-394 | One request to the deduplicating endpoint: the answer store, the handler runs and the reply become those of the specification, for known and unknown tools and for repeated keys. |
| MockToolServer.PostRunsOncePerKey | infra/mock-tool-server/server.py:368-394 | A keyed request runs its handler exactly if the key is not stored and the tool is known, and then once; stored answers never change; a success reply means the key is stored. |
| UndoStack.KeysAreDistinct | crates/undolog-saga/src/compensation_runner.rs:16-18 | The idempotency keys of two undo entries are equal only if the entries are. |
| UndoStack.LoadedStackIsUnique | crates/undolog-store/src/effect_store.rs:586-612 | With distinct positions the stack query has exactly one possible result. |
| UndoStack.EmptyIffNonePending | crates/undolog-store/src/effect_store.rs:586-612 | The query returns nothing exactly when no row is pending. |
| UndoStack.TailIsLoaded | crates/undolog-store/src/effect_store.rs:586-612 | Once the first entry is no longer pending, the query returns the rest of the stack in the same order. |
| SagaProtocol.RunKeepsInv | crates/undolog-saga/src/orchestrator.rs:228-293 | Every state of every run, with any number of workers, lost and delayed messages, retries, crashes and restarts, satisfies the protocol invariant. |
| SagaProtocol.HandlersRunAtMostOnce | crates/undolog-saga/src/compensation_runner.rs:90-133 | In every run no undo entry's handler runs twice, and every handler run is for an entry of the stack. |
| SagaProtocol.CompensatedEntriesRan | crates/undolog-saga/src/orchestrator.rs:265-267 | An entry marked compensated has run. |
| SagaProtocol.InversionsAreFailedEntries | crates/undolog-saga/src/orchestrator.rs:247-288 | A lower entry runs before a higher one only if the higher one had been marked failed in the state in which the lower one ran; that step is found. |
| SagaProtocol.RunsDescend | crates/undolog-saga/src/orchestrator.rs:244-288 | With distinct positions and no entry marked failed, handlers run in strictly descending position. |
| SagaProtocol.FinishingMeansHandled | crates/undolog-saga/src/orchestrator.rs:291-292 | A worker about to report the session compensated leaves no entry that neither ran nor was marked failed. |
| SagaProtocol.StoredAnswerIsTheRun | infra/mock-tool-server/server.py:368-394 | The stored answer of an entry is what its one handler run returned, and the delivering step is found. |
| SagaProtocol.CompensatedMeansUndoneIff | infra/mock-tool-server/server.py:368-394 | An entry marked compensated was not undone if and only if its handler ran to a failure, a later delivery of the entry was answered from the store, and a worker received that answer. |
| SagaProtocol.DeliveredOnceMeansUndone | infra/mock-tool-server/server.py:368-394 | An entry that was delivered at most once is really undone when it is marked compensated. |
| SagaProtocol.CrashInHaltWindow | crates/undolog-saga/src/compensation_runner.rs:141-142 | A run that crashes after marking an entry failed and before halting the session. |
| SagaProtocol.FailureLostInHaltWindow | crates/undolog-store/src/effect_store.rs:602-603 | From there the next run skips the failed entry, undoes the lower one, reports the session compensated, and the delayed request still runs the higher handler afterwards. |
| SagaProtocol.RefusalRepeatedAsSuccess | infra/mock-tool-server/server.py:369-374 | A handler that reported failure is answered with success from the store on the retry, and its entry is marked compensated. |
| SagaRollback.CallStopsAtFirstDecision | crates/undolog-saga/src/compensation_runner.rs:90-133 | The retry loop stops at the first success or permanent error, or when the attempts exceed the retry limit; attempts are bounded by the limit plus one, and all earlier responses were retryable. |
| SagaRollback.SagaOrchestrator.LoadUndoStack | crates/undolog-store/src/effect_store.rs:586-612 | Exactly the pending rows, highest position first. |
| SagaRollback.SagaOrchestrator.ExecuteEntry | crates/undolog-saga/src/compensation_runner.rs:46-145 | Sends exactly the attempts of the retry policy, and on failure marks the entry and then its effect; a missing endpoint fails without a request. |
| SagaRollback.SagaOrchestrator.CompensateOne | crates/undolog-saga/src/orchestrator.rs:256-288 | One turn of the walk: compensated mark on success, session halted on failure. |
| SagaRollback.SagaOrchestrator.Walk | crates/undolog-saga/src/orchestrator.rs:244-292 | The walk over a loaded stack ends with the store, the statements and the requests of the plan, and returns compensated exactly if every call succeeds. |
| SagaRollback.SagaOrchestrator.CompensateSession | crates/undolog-saga/src/orchestrator.rs:228-293 | Missing session is an error, a terminal one is returned untouched, any other runs the plan of the loaded stack and returns its state. |
| SagaRollback.RollbackSplits | crates/undolog-saga/src/orchestrator.rs:244-292 | A finished run splits the stack: everything above the first failing entry compensated, that entry failed, everything below and outside untouched. |
| SagaRollback.SessionAfterRun | crates/undolog-store/src/session_store.rs:150-209 | The session is halted if some entry failed and otherwise compensated under the guarded update. |
| SagaRollback.ReportedStateIsStoredIff | crates/undolog-store/src/session_store.rs:150-172 | The state returned is the one stored if and only if the session did not begin awaiting approval or some entry failed. |
| SagaRollback.LaterRunIsSilent | crates/undolog-saga/src/orchestrator.rs:239-242 | After a finished run the session is terminal or a later run sends no request. |
| SagaRollback.RequestsPerEntry | crates/undolog-saga/src/compensation_runner.rs:90-133 | A run sends exactly the attempts of the entries down to the first failing one, and nothing for any other entry. |
| SagaRollback.RequestsBounded | crates/undolog-saga/src/compensation_runner.rs:20-37 | No entry gets more than its retry limit plus one requests in one run. |
| SagaRollback.CutAndRerun | crates/undolog-saga/src/orchestrator.rs:239-292 | With fixed verdicts, a run cut after any number of writes and run again ends in the same undo rows if and only if it was not cut between the failure marks and the halt, or no entry lies below the failing one. |
| SagaSchedule.Retries | crates/undolog-saga/src/compensation_runner.rs:90-133 | The retry loop is a sequence of protocol steps that sends the same requests and ends in the same verdict, for any network that brings no permanent error for an entry that has run. |
| SagaSchedule.OrchestratorIsASchedule | crates/undolog-saga/src/orchestrator.rs:228-293 | From any state, also one left by a crash between a delivery and its mark, and whatever the network answers short of a permanent error for an entry that has run: an idle worker can take protocol steps that send exactly the orchestrator's requests in order, leave exactly its rows, effects and session, and return its state. |
| CanonicalJson.EscapeJsonString | sdks/undolog-py/undolog_sdk/signature.py:123-169 | The loop that escapes a string yields the quoted text character by character. |
| CanonicalJson.PrintIsRenderNorm | sdks/undolog-py/undolog_sdk/signature.py:104-120 | Sorting keys while printing equals printing the value with its keys sorted, and its numbers in the form their text has, at every depth. |
| CanonicalJson.NormEqualIffEquiv | sdks/undolog-py/undolog_sdk/signature.py:104-120 | Two values have the same normal form if and only if they are equal up to key order and the form of numbers at every depth. |
| CanonicalJson.NumberNormIff | sdks/undolog-py/undolog_sdk/signature.py:114-117 | Two numbers, integers or floats, have the same normal form if and only if their digits denote the same number, below 1e21 where one is an integer and the other a float. |
| JsonDecoder.CharRoundTrip | sdks/undolog-py/undolog_sdk/signature.py:139-167 | Every escaped character, surrogate pairs included, reads back and never looks like the closing quote. |
| JsonDecoder.StringRoundTrip | sdks/undolog-py/undolog_sdk/signature.py:123-169 | Every escaped string followed by its quote and anything reads back exactly. |
| NumberDecoder.NumberReadsBack | sdks/undolog-py/undolog_sdk/signature.py:21-75 | Every number text reads back as the integer or the float it is the text of. |
| JsonDecoder.RenderRoundTrip | sdks/undolog-py/undolog_sdk/signature.py:78-120 | The decoder recovers a rendered value in normal form and stops where its text ends. |
| JsonDecoder.PrintRoundTrip | sdks/undolog-py/undolog_sdk/signature.py:78-120 | Decoding the canonical text of a value without non-finite floats, followed by any rest, gives its normal form and that rest, if and only if a number is not followed by a character a number could go on with. |
| JsonDecoder.PrintAlikeIffEquiv | sdks/undolog-py/undolog_sdk/signature.py:78-169 | Two values print alike if and only if they are equal up to the order of object keys and the form of numbers at every depth. |
| RustJson.PrintersTight | crates/undolog-types/src/effect.rs:95-126 | The engine's text of a value is never longer than the SDK's, as long exactly on the common values, and there the same text. |
| RustJson.PrintersAgreeIff | crates/undolog-types/src/effect.rs:95-126 | Print-then-sort in Rust and sort-then-print in Python give one text if and only if every string is ASCII and every key needs no escaping, at every depth. |
| Utf8.EncodeIsInjective | sdks/undolog-py/undolog_sdk/signature.py:213-214 | Two strings with the same UTF-8 bytes are equal. |
| Utf8.ByteOrderIsCodePointOrder | crates/undolog-types/src/effect.rs:99-101 | Sorting by UTF-8 bytes is sorting by code point. |
| CallSignature.StreamIsUnambiguous | crates/undolog-types/src/effect.rs:33-59 | For a 16-byte session and texts below 2^32 bytes, equal byte streams have equal session, step, name and arguments. |
| CallSignature.PythonSignature | sdks/undolog-py/undolog_sdk/signature.py:205-236 | The SDK hashes exactly the stream, or fails on a non-finite float or where the step or a length does not fit 32 bits. |
| CallSignature.RustSignature | crates/undolog-types/src/effect.rs:33-59 | The engine hashes exactly the stream, with lengths truncated to 32 bits. |
| CallSignature.PythonStreamIdentifiesCall | sdks/undolog-py/undolog_sdk/signature.py:205-236 | Accepted calls have equal streams if and only if session, step and tool name are equal and the arguments are equal up to key order and the form of numbers. |
| CallSignature.SignatureIdentifiesCall | sdks/undolog-py/undolog_sdk/signature.py:172-236 | With a collision-free digest the same holds of the signatures. |
| CallSignature.StreamsAgreeIff | crates/undolog-types/src/effect.rs:33-59 | SDK and engine hash the same stream if and only if the arguments print alike in both. |
| NumberText.PythonFloat | sdks/undolog-py/undolog_sdk/signature.py:21-75 | Rewriting the repr text of any float gives the ECMAScript text; both zeros give 0 and a non-finite float is an error. |
| NumberText.CutExponent | sdks/undolog-py/undolog_sdk/signature.py:46-54 | The repr text is cut at its exponent and the exponent is read. |
| NumberText.PlacedIsEsBody | sdks/undolog-py/undolog_sdk/signature.py:55-75 | For every digit string and exponent the placed pieces are the text of section 3.2.2.3 of RFC 8785. |
| NumberText.AbsBounds | crates/undolog-types/src/effect.rs:140-156 | The number that digits denote lies between ten to the n-1 and ten to the n, for every digit string and exponent. |
| NumberText.RustFloatIsEsText | crates/undolog-types/src/effect.rs:140-156 | The engine's choice between fixed and exponential notation by comparing the magnitude, with the plus sign put in, gives the same text. |
| NumberIdentity.FloatsPrintAlikeIff | sdks/undolog-py/undolog_sdk/signature.py:21-75 | Two finite floats print alike if and only if their digits denote the same number. |
| NumberIdentity.MixedAlikeIff | sdks/undolog-py/undolog_sdk/signature.py:114-117 | A float and an integer print alike if and only if the float's digits denote the integer, below 1e21 in magnitude. |
| NumberIdentity.NumbersPrintAlikeIff | sdks/undolog-py/undolog_sdk/signature.py:114-117 | Two numbers, integers or floats and zeros of either sign, print alike if and only if their digits denote the same number and, when one is an integer and the other a float, one below 1e21 in magnitude. |
| NumberIdentity.LargeIntegerPrintsOtherwise | sdks/undolog-py/undolog_sdk/signature.py:114-117 | The integer 10^21 and the float with the digits of 1e21 denote the same number and print differently. |
| DoubleValue.DoublesPrintAlikeIff | sdks/undolog-py/undolog_sdk/signature.py:21-75 | With digits that are the fewest that round to a double and the nearest among them, two doubles print alike if and only if they are the same number. |
| DoubleValue.IntegerPrintsLikeDoubleIff | sdks/undolog-py/undolog_sdk/signature.py:114-117 | An integer and a double print alike if and only if the double's digits denote the integer, below 1e21. |
| DoubleValue.NotationByValue | crates/undolog-types/src/effect.rs:140-147 | Comparing a double with the doubles that 1e-6 and 1e21 are read as is comparing the number its digits denote with 1e-6 and 1e21. |
| DoubleValue.EqualPrintAlikeIff | sdks/undolog-py/undolog_sdk/signature.py:114-117 | An integer and a double that are equal print alike if and only if they are below 1e21 and no decimal with fewer significant digits than the integer is read as the double. |
| DoubleValue.SmallPrintAlikeIff | sdks/undolog-py/undolog_sdk/signature.py:114-117 | For integers up to 2^53 in magnitude, an integer and a double print alike if and only if they are equal. |
| DoubleValue.Two55PrintsOtherwise | sdks/undolog-py/undolog_sdk/signature.py:114-117 | The integer and the double 2^55 are equal and print differently, and the integer 2^55 + 2 prints like the double. |
| LockKey.PrimeCancels | crates/undolog-store/src/effect_store.rs:712-720 | Wrapping multiplication by the FNV prime is undone by multiplication with its inverse, and the other way round. |
| LockKey.FoldIsBijection | crates/undolog-store/src/effect_store.rs:712-720 | Hashing any fixed suffix is a bijection on 64-bit states, with an explicit inverse. |
| LockKey.SharedEndsCollideOnlyIfEqual | crates/undolog-store/src/effect_store.rs:712-720 | Two inputs that share a prefix and a suffix around one byte have the same lock key if and only if the bytes are equal. |
| LockKey.OneByteApart | crates/undolog-store/src/effect_store.rs:712-720 | Two signatures that differ in exactly one byte have different signed lock keys. |
| EngineProtocol.RunKeepsInv | crates/undolog-engine/src/engine.rs:184-355 | In every interleaving of the statements of any number of intercepts with reports, decisions, timeouts, rollbacks, crashes and turns of the month, rows, indexes and every intercept's place agree. |
| EngineProtocol.LawfulRunKeepsTables | crates/undolog-engine/src/engine.rs:257-353 | If execution is reported only for ids answered Execute, every compensable row executing or committed has its undo entry and every irreversible row approved or committed has an approved request. |
| EngineGuarantees.GrantedOncePerMonth | crates/undolog-store/src/partition.rs:184-190 | Two intercepts of one logged signature that are let through hold different rows in different monthly partitions. |
| EngineGuarantees.GrantedAtMostOnce | crates/undolog-engine/src/engine.rs:208-353 | With all inserts in one monthly partition, at most one intercept of a signature is ever answered Execute or AwaitingApproval. |
| EngineGuarantees.ExecutedOncePerStep | crates/undolog-store/src/effect_store.rs:205-241 | Whatever the months, at most one compensable intercept of a session's step is ever answered Execute. |
| EngineGuarantees.RequestedOncePerMonth | crates/undolog-store/src/approval_store.rs:31-67 | Every effect has at most one approval request, and two requests for one signature are for rows of different months. |
| EngineGuarantees.RequestedAtMostOnce | crates/undolog-engine/src/engine.rs:309-333 | Within one month at most one approval request is created for a signature. |
| EngineGuarantees.DecisionIsFinal | crates/undolog-store/src/approval_store.rs:73-111 | A request leaves pending at most once. |
| EngineGuarantees.DecisionsMoveTogether | crates/undolog-engine/src/engine.rs:396-518 | A pending request is changed by exactly its own approve, reject or timeout, under exactly their guards; approve and reject move effect and session in the same step. |
| EngineGuarantees.RefusedDecisionChangesNothing | crates/undolog-engine/src/engine.rs:412-449 | An approve or reject whose guard fails changes nothing at all. |
| EngineGuarantees.ApprovedThroughApprove | crates/undolog-engine/src/engine.rs:412-449 | A request found approved was approved by an approve step taken while request, effect and session were waiting. |
| EngineGuarantees.CommittedWasApproved | crates/undolog-engine/src/engine.rs:292-353 | An irreversible effect approved, executing or committed has its own request approved by an approve step, and was none of these up to that step. |
| EngineGuarantees.RefusedNeverRuns | crates/undolog-store/src/approval_store.rs:201-261 | The effect of a rejected, timed-out or auto-approved request is never approved, executing or committed, at any point of the run. |
| EngineGuarantees.UndoRegisteredFirst | crates/undolog-engine/src/engine.rs:257-289 | A compensable effect executing or committed has its undo entry with its effect id at its step index, in place at a state before which it had never been executing. |
| EngineGuarantees.ExecuteMeansUndoable | crates/undolog-engine/src/engine.rs:277-289 | A compensable call answered Execute has its row and its undo entry, whatever is reported. |
| EngineGuarantees.SetExecutingSafeIff | crates/undolog-store/src/effect_store.rs:247-270 | Setting a pending effect executing keeps the tables sound if and only if its undo entry is in place. |
| EngineGuarantees.ReportExecutingSafeIff | crates/undolog-engine/src/engine.rs:359-365 | In any run, reporting a pending effect executing keeps the tables sound if and only if the intercept that drew its id had got past its undo entry. |
| EngineGuarantees.ReportExecutingAfterAnswer | crates/undolog-engine/src/engine.rs:359-365 | Of an intercept answered with that id, not as a replay, the report is safe if and only if the answer was Execute. |
| EngineGuarantees.ResultWasReported | crates/undolog-store/src/effect_store.rs:277-368 | The result a row holds is the one reported last for that very call, by a report its guard let through. |
| EngineGuarantees.ReplayedResultWasReported | crates/undolog-engine/src/engine.rs:219-238 | A result handed to a duplicate was reported earlier for the call it duplicates. |
| EngineGuarantees.ApprovedWithDecidedArgs | crates/undolog-engine/src/engine.rs:409-444 | An approved effect goes ahead with exactly the approver's arguments, or the proposed ones if none were given. |
| EngineGuarantees.TerminalStaysTerminal | crates/undolog-types/src/effect.rs:225-234 | A terminal effect stays terminal; its state changes only to replayed or compensation failed. |
| EngineGuarantees.ReplayIsFinal | crates/undolog-store/src/effect_store.rs:434-450 | After a duplicate was served, the row never becomes pending, approved, executing or committed again. |
| EngineGuarantees.DuplicateBlocksDecision | crates/undolog-store/src/effect_store.rs:434-450 | A duplicate of a call that awaits approval makes approving and rejecting it fail from then on. |
| EngineGuarantees.TwoMonthsTwoRequests | crates/undolog-store/src/partition.rs:184-190 | A run across the turn of a month in which two intercepts of one irreversible call are both let through. |
| EngineGuarantees.DuplicateStopsTheFirst | crates/undolog-store/src/effect_store.rs:434-450 | A run in which a duplicate overtakes the first intercept and neither is told to execute. |
| EngineGuarantees.EagerReportLosesUndo | crates/undolog-engine/src/engine.rs:359-365 | Without the reporting rule: a compensable effect executing with no undo entry. |
| EngineGuarantees.EagerReportSkipsApproval | crates/undolog-engine/src/engine.rs:359-365 | Without the reporting rule: an irreversible effect committed while its request is pending. |
| EffectEngine.Engine.RegisterCompensable | crates/undolog-engine/src/engine.rs:257-290 | Insert, undo entry, executing, in this order; succeeds exactly if signature and undo position are free, and its statements are protocol steps of one caller. |
| EffectEngine.Engine.RequestApproval | crates/undolog-engine/src/engine.rs:292-353 | Insert, request, link, suspend; succeeds exactly if the signature is free in the month, and leaves row and request pending and linked and an active session suspended. |
| EffectEngine.Engine.FindBySignature | crates/undolog-store/src/effect_store.rs:373-400 | Some row with the signature, or none if there is none. |
| EffectEngine.Engine.Intercept | crates/undolog-engine/src/engine.rs:184-355 | An uninterrupted intercept is one schedule of the protocol; it replays exactly if a row with the signature exists, and tables and outcome are those of the intercept function on the ensured session. |
| EffectEngine.PathStaysReachable | crates/undolog-engine/src/engine.rs:184-355 | What one intercept does in a row can be appended to any run, so the guarantees of all runs hold of it. |
| EffectEngine.Engine.Approve | crates/undolog-engine/src/engine.rs:396-467 | The transaction approves request, effect and session together with the approver's arguments, exactly if all three wait; otherwise nothing changes and the first failing guard is the error. |
| EffectEngine.Engine.Reject | crates/undolog-engine/src/engine.rs:474-518 | The transaction rejects request and effect and halts the session, exactly if request and effect wait; otherwise nothing changes. |
| EffectEngine.Engine.ProcessTimeouts | crates/undolog-store/src/approval_store.rs:201-261 | The loop resolves exactly the pending requests past their time, to auto-approved or timed out, touches nothing else, and counts them. |
| SessionCache.Cache.Get | crates/undolog-engine/src/cache.rs:68-105 | A hit is an entry within its time to live; an expired entry is dropped. |
| SessionCache.Cache.OldestKey | crates/undolog-engine/src/cache.rs:122-124 | The scan finds an entry inserted no later than any other. |
| SessionCache.Cache.Insert | crates/undolog-engine/src/cache.rs:111-131 | Replaces the key's entry; a new key at capacity first evicts some oldest entry. |
| SessionCache.SizeIsBounded | crates/undolog-engine/src/cache.rs:117-131 | In every history the size stays within a non-zero capacity. |
| SessionCache.HitIsLatestInsert | crates/undolog-engine/src/cache.rs:68-85 | In every history a hit is the latest insert for its key, not invalidated since, and within its time to live. |
| SessionCache.HitIff | crates/undolog-engine/src/cache.rs:68-105 | With no capacity and a clock that never goes back, a lookup hits if and only if the latest insert is still alive. |
| CachedEngine.Gate.Open | crates/undolog-engine/src/engine.rs:186-206 | Opening a session through cache and store leaves the same sessions as opening it with no cache. |
| CachedEngine.CachedRunIsPlain | crates/undolog-engine/src/engine.rs:184-206 | Whatever the clock, expiries, evictions and invalidations, a cached run is a run of the engine with no cache. |
| CachedEngine.CacheIsInvisible | crates/undolog-engine/src/engine.rs:184-206 | For any operations that keep every session row and its owner, cached and uncached runs give the same outcomes and the same stores. |
| CachedEngine.EngineKeepsSessions | crates/undolog-store/src/session_store.rs:23-68 | No interleaved statement of the engine protocol deletes a session row. |
| EngineOperations.OpeningIsEnsuring | crates/undolog-engine/src/engine.rs:186-206 | Opening a session through the store is creating it on first use, and creates nothing if another organisation has its id. |
| EngineOperations.OperationSparesOthers | crates/undolog-store/src/session_store.rs:23-209 | On tables shared by all organisations, an operation of one leaves the sessions, effects, undo entries and approvals of every other as they were. |
| EngineOperations.UpdatesAsIfAlone | crates/undolog-store/src/effect_store.rs:247-368 | Every operation but an intercept does to its organisation's rows, and answers, what it would if there were no other organisation. |
| EngineOperations.RefusedForOthersIff | crates/undolog-store/src/partition.rs:184-190 | An intercept that its organisation alone would be let through with is refused as a duplicate if and only if it is no replay, its tool is not safe, and another organisation has its signature in the month or, for a compensable call, its undo position. |
| EngineOperations.OperationKeepsSessions | crates/undolog-store/src/session_store.rs:23-209 | Intercept, approve, reject, timeout sweep and the reports of execution, result and failure each keep every session row and its owner. |
| EngineOperations.EngineIgnoresCache | crates/undolog-engine/src/engine.rs:184-518 | Any sequence of intercepts, approvals, rejections, timeout sweeps and reports of execution, result and failure, of any organisations, gives the same answers and the same tables with the cache and without it. |
| DevJournal.RunKeepsValid | sdks/undolog-py/undolog_sdk/dev.py:296-299 | After any serial sequence of requests at most one live row exists per signature, and rows and approvals point at each other. |
| DevJournal.Server.FindLiveEffect | sdks/undolog-py/undolog_sdk/dev.py:486-504 | The live effect of a signature, if any. |
| DevJournal.Server.CreateEffect | sdks/undolog-py/undolog_sdk/dev.py:384-484 | Effect and approval are written together, or refused exactly if the signature is live. |
| DevJournal.Server.UpdateEffect | sdks/undolog-py/undolog_sdk/dev.py:691-722 | An unconditional update by id, refused with the row unchanged exactly if it would make a second live row of its signature. |
| DevJournal.Server.ResolveApproval | sdks/undolog-py/undolog_sdk/dev.py:621-646 | Resolves exactly a pending approval. |
| DevJournal.Server.RespondForLiveEffect | sdks/undolog-py/undolog_sdk/dev.py:1520-1582 | Committed replays, awaiting reports its approval or runs, executing runs again; auto-approve resolves the approval and leaves the effect awaiting. |
| DevJournal.Server.HandleToolCall | sdks/undolog-py/undolog_sdk/dev.py:1359-1518 | One intercept request does to the journal and answers what the specification says, and keeps it valid. |
| DevJournal.Server.HandleEffectAction | sdks/undolog-py/undolog_sdk/dev.py:1599-1642 | One outcome report, including unknown ids and updates refused by the index. |
| DevJournal.Server.HandleApprovalDecision | sdks/undolog-py/undolog_sdk/dev.py:1644-1714 | One decision: unknown, already resolved, or resolved with the effect following unless the index refuses. |
| JournalMachine.UpdateRefines | sdks/undolog-py/undolog_sdk/dev.py:691-722 | An update through the index settles or releases its own signature's machine, is refused exactly if another call holds it, and leaves every other signature alone. |
| JournalMachine.ServeRefines | sdks/undolog-py/undolog_sdk/dev.py:1359-1714 | Serving any request is one step of every signature's machine, and the answer is that of the machine concerned. |
| JournalMachine.StrangerIsNotFound | sdks/undolog-py/undolog_sdk/dev.py:1599-1665 | A report or decision about nothing known changes nothing and is answered not found. |
| JournalMachine.JournalIsFold | sdks/undolog-py/undolog_sdk/dev.py:384-504 | After any serial sequence of requests each signature's rows are its machine folded over the history. |
| JournalMachine.AnswersAreTheMachines | sdks/undolog-py/undolog_sdk/dev.py:1417-1582 | Every answer equals that of the per-signature machine folded over the requests so far. |
| ApprovalGate.IrreversibleNeverExecuted | sdks/undolog-py/undolog_sdk/dev.py:1422-1507 | With auto-approve off throughout and fixed patterns, an irreversible tool is told to wait or given a committed result, never to execute, whatever was reported. |
| ApprovalGate.ExecutedIffAutoApproved | sdks/undolog-py/undolog_sdk/dev.py:1422-1464 | In every run with fixed patterns and any use of auto-approve, an irreversible tool is told to execute if and only if no result is committed and some auto-approved intercept of the call was served since its signature was last free, this one included. |
| ApprovalGate.AwaitingHasItsApprovalIff | sdks/undolog-py/undolog_sdk/dev.py:457-476 | In every run with fixed patterns, an awaiting effect has its pending approval, the one it was created with, if and only if no auto-approved intercept of its call was served since its row was created; otherwise it has none. |
| ApprovalGate.AwaitingHasItsApproval | sdks/undolog-py/undolog_sdk/dev.py:457-476 | With auto-approve off throughout, every awaiting effect has its pending approval. |
| ApprovalGate.AutoModeLeavesAwaiting | sdks/undolog-py/undolog_sdk/dev.py:1546-1565 | One intercept in auto-approve mode leaves an effect awaiting with no pending approval; the next intercept is told to execute although the mode is off again. |
| ApprovalGate.DecisionIsFinal | sdks/undolog-py/undolog_sdk/dev.py:621-646 | A decided approval keeps its decision. |
| ApprovalGate.DecidedAtMostOnce | sdks/undolog-py/undolog_sdk/dev.py:1663-1694 | After one decision request found an approval, every later one is answered as a conflict. |
| AgentReplay.EnvelopeRoundTrip | sdks/undolog-py/undolog_sdk/decorators.py:215-235 | What the execute path wraps, the replay path unwraps. |
| AgentReplay.Ask | sdks/undolog-py/undolog_sdk/decorators.py:132-138 | The wrapper's intercept gets the answer of the signature's machine and leaves every other signature alone. |
| AgentReplay.ReportOutcome | sdks/undolog-py/undolog_sdk/decorators.py:169-202 | A result ends committed in its envelope, a failure frees the signature. |
| AgentReplay.Invoke | sdks/undolog-py/undolog_sdk/decorators.py:98-204 | A call without a signature fails and changes nothing; a committed call is replayed without running the body; otherwise the body runs once and its outcome is reported, or the call waits. |
| AgentReplay.StepKeepsInv | sdks/undolog-py/undolog_sdk/decorators.py:98-204 | Every step keeps, per signature: what is stored is the envelope of a value some body of the call returned, the call in progress holds its signature, values handed over have their call committed, and the counts agree. Steps are those of the wrapper, errors handed to the agent, broken connections, crashes, commits served late, and the traffic of others. |
| AgentReplay.RunKeepsInv | sdks/undolog-py/undolog_sdk/decorators.py:98-204 | The same in every state of every run, for any signing function. |
| AgentReplay.FinishStores | sdks/undolog-py/undolog_sdk/decorators.py:192-202 | The wrapper's commit is always recorded, over whatever late commit came in between. |
| AgentReplay.ValuesStayHeld | sdks/undolog-py/undolog_sdk/decorators.py:149-156 | As long as no late commit overwrites a result, every value handed to any incarnation, or about to be, is what the journal holds for its call. |
| AgentReplay.IncarnationsForkOnFailures | sdks/undolog-py/undolog_sdk/decorators.py:169-190 | As long as no late commit overwrites a result, two incarnations agree up to a first difference, and there one of them was handed a failure. |
| AgentReplay.IncarnationsAgree | sdks/undolog-py/undolog_sdk/decorators.py:98-204 | So of what two incarnations without failures have seen, one is a prefix of the other. |
| AgentReplay.CompletedAgree | sdks/undolog-py/undolog_sdk/decorators.py:98-204 | And two that complete have seen the same. |
| AgentReplay.BodyRunsExactly | sdks/undolog-py/undolog_sdk/decorators.py:169-202 | A call's body runs exactly once for its commit, of which there is at most one, once per time the process left it without seeing its commit, once per time it raised, and once while it is in that window. |
| AgentReplay.LateCommitHarmlessIff | sdks/undolog-py/undolog_sdk/dev.py:691-722 | A second commit of a committed call leaves its replays as they were if and only if it carries the same result. |
| AgentAgreement.QuietKeepsStable | sdks/undolog-py/undolog_sdk/decorators.py:98-204 | A stable state (no failure handed or pending, every value handed still stored, no commit under way that can change a result) stays stable under every step but a new failure or a crash that leaves a commit under way. |
| AgentAgreement.ReplayTo | sdks/undolog-py/undolog_sdk/decorators.py:149-156 | A restarted process is led by replays alone along anything it was handed that the journal still holds, and leaves every slot as it was. |
| AgentAgreement.UnconfirmedDiverges | sdks/undolog-py/undolog_sdk/decorators.py:169-190 | Whenever an incarnation was handed a failure, or a value the journal no longer holds, a restart can be handed something else at that call. |
| AgentAgreement.HarmfulDiverges | sdks/undolog-py/undolog_sdk/dev.py:691-722 | Whenever a commit is under way that is not harmless, some continuation makes two incarnations disagree. |
| AgentAgreement.StableIff | sdks/undolog-py/undolog_sdk/decorators.py:98-204 | From any reachable state: every continuation without new failures and without crashes that leave a commit under way keeps all incarnations agreed if and only if the state is stable. |
| AgentAgreement.FailuresDecide | sdks/undolog-py/undolog_sdk/decorators.py:169-190 | With no commit under way and no result overwritten, every such continuation keeps them agreed if and only if no failure was handed over and none is about to be. |
| AgentCrashes.CalmKeepsSettled | sdks/undolog-py/undolog_sdk/decorators.py:98-204 | A settled state (stable, the journal answering every call the agent makes on its way, no body running) stays settled under every step but a new failure, crashes with a commit under way included. |
| AgentCrashes.SettledIff | sdks/undolog-py/undolog_sdk/decorators.py:98-204 | From any reachable state: every continuation without new failures, whatever crashes it has, keeps all incarnations agreed if and only if the state is settled. |
| AgentCrashes.CommitUnderWayDiverges | sdks/undolog-py/undolog_sdk/decorators.py:192-202 | For every agent that makes a call: one crash with its commit under way, the body run again with another value, the late commit and a restart make two incarnations disagree, and no failure was ever handed over. |
| SdkAgent.SdkSignerIdentifies | sdks/undolog-py/undolog_sdk/signature.py:172-236 | With a collision-free digest, equal signatures of well-formed calls of a session have equal step and tool and arguments equal up to key order and the form of numbers. |
| SdkAgent.SessionsAreApart | sdks/undolog-py/undolog_sdk/signature.py:205-214 | Two sessions never share a signature. |
| SdkAgent.OtherSessionIsForeign | sdks/undolog-py/undolog_sdk/dev.py:1402-1417 | An intercept of another session is foreign traffic to this one. |
| SdkAgent.ReplayedValueIsOwn | sdks/undolog-py/undolog_sdk/decorators.py:149-156 | If signatures identify calls, every value handed at a step was returned by a body of the same step and tool with arguments equal up to key order and the form of numbers. |
| SdkAgent.ReplayedValueIsOwnForSdk | sdks/undolog-py/undolog_sdk/decorators.py:149-156 | The same for the SDK's own signatures, with nothing assumed but a collision-free digest and mappings without repeated keys. |
| SdkAgent.PassedOverFailureDiverges | examples/langchain-support-agent/agent_stateful.py:309-321 | For every agent that makes a call: its tool fails, it goes on with the error and crashes, and its restart is handed a value for the same call; no commit was late. |
| ChunkedBody.Connection.Consume | sdks/undolog-py/undolog_sdk/dev.py:1161-1175 | Discards exactly the given number of bytes in bounded reads, or fails if the stream is shorter. |
| ChunkedBody.Connection.ReadTrailers | sdks/undolog-py/undolog_sdk/dev.py:1140-1143 | Reads trailer lines up to the blank one or the end. |
| ChunkedBody.Connection.ReadChunked | sdks/undolog-py/undolog_sdk/dev.py:1110-1159 | The loop returns what the recursive reader says, and stops where it says, for every stream. |
| ChunkedRoundTrip.SizeLineSplits | sdks/undolog-py/undolog_sdk/dev.py:1125-1129 | A size line with any digits and extension within the limit is read whole and gives its size. |
| ChunkedRoundTrip.RoundTrip | sdks/undolog-py/undolog_sdk/dev.py:1110-1159 | For any chunks, extensions and trailers within the line limit and any following bytes: the reader stops at those bytes, flags overflow if and only if the data exceeds the ceiling, and otherwise returns the body. |
| ChunkedRoundTrip.MinusOneDrains | sdks/undolog-py/undolog_sdk/dev.py:1129-1159 | Where whole chunks below the ceiling lead to a size of minus one, the reader fails holding their data and all that is left of the stream. |
| ChunkedRoundTrip.BelowMinusOneIsRefused | sdks/undolog-py/undolog_sdk/dev.py:1148-1149 | Where they lead to a size below minus one, the buffered reader refuses the count, and only their data is held. |
| ChunkedRoundTrip.DrainsIff | sdks/undolog-py/undolog_sdk/dev.py:1110-1159 | The reader drains a stream if and only if whole chunks below the ceiling lead to a line with a size of minus one. |
| ChunkedRoundTrip.ExceedsCeilingIff | sdks/undolog-py/undolog_sdk/dev.py:1110-1159 | Whatever the stream, the reader comes to hold more than the ceiling if and only if such a line is reached and what the chunks before it carry and what is left after it together exceed the ceiling. |
| ChunkedRoundTrip.BodyWithinCeiling | sdks/undolog-py/undolog_sdk/dev.py:1110-1159 | A returned body never exceeds the ceiling, and where no line of the stream reads as minus one nothing held does. |
| ChunkedRoundTrip.NegativeSizeKeepsAll | sdks/undolog-py/undolog_sdk/dev.py:1129-1159 | A size line of minus one makes the reader hold all that follows before it reports the body truncated. |
| Partitions.NameRoundTrip | crates/undolog-store/src/partition.rs:354-374 | Every partition name reads back as its month. |
| Partitions.NamesDiffer | crates/undolog-store/src/partition.rs:142-143 | Different months have different names. |
| Partitions.WindowTouches | crates/undolog-store/src/partition.rs:269-272 | The months of the window follow each other without gap or overlap, across year ends. |
| Partitions.CutoffIndex | crates/undolog-store/src/partition.rs:297-300 | The cut-off is the retention counted back from the current month inclusive, in the signed 32-bit reading of the retention. |
| Partitions.CutoffExistsIff | crates/undolog-store/src/partition.rs:297-303 | The cut-off exists if and only if the month counted to is in the calendar and not before year zero unless it is a January. |
| PartitionCycle.Manager.CreatePartition | crates/undolog-store/src/partition.rs:142-194 | Creates a month's empty partition unless it exists; fails exactly if the month or the next has no date. |
| PartitionCycle.Manager.EnsureFuturePartitions | crates/undolog-store/src/partition.rs:260-281 | The current month and the following ones all exist afterwards, exactly the missing ones were created, everything else is unchanged; fails exactly if the window leaves the calendar. |
| PartitionCycle.Manager.ListPartitions | crates/undolog-store/src/partition.rs:99-133 | Exactly the listed tables whose names stand for months, with month and row count. |
| PartitionCycle.Manager.DropPartition | crates/undolog-store/src/partition.rs:204-238 | Drops exactly a partition that exists and is empty. |
| PartitionCycle.Manager.DropExpiredPartitions | crates/undolog-store/src/partition.rs:288-328 | Exactly the partitions before the cut-off are gone, named in order, and the rows reported are theirs. |
| PartitionCycle.Manager.RunCycle | crates/undolog-store/src/partition.rs:337-348 | Window ensured, then expired partitions dropped; created and dropped names are exactly the tables gained and lost, and the rows reported are exactly the rows lost. |
| PartitionCycle.RowsAreConserved | crates/undolog-store/src/partition.rs:309-322 | Rows before equal rows kept plus rows of the dropped tables. |
| PartitionCycle.DroppedIff | crates/undolog-store/src/partition.rs:297-310 | A month is dropped if and only if it is older than the last retention months counting the current one. |
| PartitionCycle.WindowSurvivesIff | crates/undolog-store/src/partition.rs:337-348 | A successful cycle leaves the whole ensured window if and only if the retention, as a signed 32-bit integer, is at least one. |
| PartitionCycle.HugeRetentionDropsCurrentMonth | crates/undolog-store/src/partition.rs:297-298 | The largest unsigned retention drops the current month. |

## Left out

- Organisations: the interleaved protocol has one; `EngineOperations` has any number on shared tables, each operation run without interruption.
- The circuit breaker, the concurrency limiter, the tier registry and the dead-letter queue: counters and map lookups that would only add easy members.
- Deleting rows: retention jobs and partition drops are not steps of the engine protocol, whose at-most-once results assume rows stay.
- The advisory lock's retry loop: it is given no power to exclude, so only its key is modelled.
- Timeouts in the engine run as one atomic sweep; the interleaving of two sweeps inside the database is not modelled.
- Replay counters and timestamps of rows: recorded by the code, read by nothing modelled here.
- The compensation retry counter of an undo row and the backoff delays: neither changes what is sent or stored by the orchestrator.
- Database errors in the middle of an orchestrator run: a run that stops at one is a run cut short, which `CutAndRerun` covers.
- Shortest float digits: that they are the fewest that round to the double, and the nearest among those, is assumed of both languages' printers; how they are found is not modelled.
- Integers beyond 64 bits in the engine: serde_json reads them as floats, so where the printers agree is stated for the integers it holds.
- BLAKE3: an arbitrary digest, collision-free where that is needed.
- Two requests served at once by the development server: one HTTP request is one step, so the answer to a call that loses a race for its signature inside one request is not modelled.
- Malformed intercept requests to the development server: they are refused before the journal is touched.
- Events, logging, listings, the dashboard and the metrics of the development server.
- Intercepts and failure reports of the SDK that arrive after their sender gave up: they are served before that or not at all. Commits may arrive any time later.
- Tool results that are not JSON values: what the first execution returns and what JSON makes of it are taken to be the same value.
- Approval-gated tools in the agent runs: the replay results are for compensable tools; `Invoke` covers the gated case of a single call.
- The table names that PostgreSQL would refuse as overlapping partitions: creating a partition fails only where the code computes an invalid date.
- gRPC, HTTP and SQL text, connection pools, the TypeScript SDK and the user interface.
