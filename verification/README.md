# Arxveil presence, telemetry and enrollment: a verified model

Arxveil agents enroll once, keep a permanent credential on disk, and then hold authenticated
streams on which they send heartbeats and telemetry; the server keeps one row per machine, an
append-only log of presence events and a table of telemetry samples in PostgreSQL. This project
models that path from both ends and proves what it promises.

Modules, from the inside out:

- `Presence`, `PresenceHistory`: the presence columns of one machine, the three SQL statements that
  change them, the current-owner register they implement, and what row and event log say about a
  machine's whole history of calls.
- `EventTable`, `Transactions`, `TransactionsRefine`, `TransactionsHistory`, `TransactionsClock`: any
  number of concurrent store calls as transactions, one small step at a time (begin, statement under
  the row lock, event insert, commit, roll back), their refinement to atomic calls, and time.
- `Stream`, `StreamTrace`: the stream handler, as an automaton and as the imperative method, and what
  it does over a whole stream.
- `Fleet`, `FleetTheorems`, `FleetIndependence`: any number of handlers interleaved over one database,
  with enrollments and revocations.
- `FleetProjection`: a run seen from one machine.
- `Concurrent`, `ConcurrentRefine`: the same handlers over the small-step database of `Transactions`,
  where a call takes as many steps as its transaction and returns later than it commits; every run is
  a run of `Fleet`.
- `TransactionsProgress`, `ConcurrentProgress`: what can happen. No call is kept from committing, every
  legal history of calls and every run of `Fleet` is the outcome of some run of small steps.
- `Telemetry`: validation, the keyed upsert, histories of it, and the CHECK constraints.
- `Text`, `EnrollmentInput`, `Base64Url`, `Credentials`: normalisation and validation of enrollment
  input, the secret's encoding (section 5 of RFC 4648), authentication.
- `Database`, `Services`: the tables as a class, the stores and services as methods that update them,
  with a failure possible at every interaction with the database.
- `IdentityStore`, `AgentRun`, `AgentAndServer`: the agent's identity file under failing operations,
  crashes and power failures, its start-up sequence over any history of runs, and the credential's
  way back to the server.

## Assumptions

- A store call succeeds, or reports an error and has no effect. A commit that takes effect but
  reports an error would break the statements about who owns a machine.
- Time: a statement that changes a row reads no time earlier than what the committed statements
  before it read for that row. Statements on different rows, statements that match no row and
  statements that are rolled back are not ordered in time. Only `TransactionsClock` uses this.
- No two sessions of one machine are given the same microsecond. This is a guard of
  `Transactions.Enabled` and `Fleet.Enabled`; `Presence.FencingExactlyWhenTokensDiffer` says exactly
  what is lost without it, and `TransactionsClock.TokenIsNewExactlyWhenRowDiffers` that comparing with
  the row is enough to check it.
- SHA-256 and UUID parsing are arbitrary functions. Only the statement that no other secret is
  accepted assumes that the hash has no collision on the issued secret.
- Rendering an identity and parsing the complete file gives the identity back. Nothing is assumed of
  incomplete files.
- One agent process at a time uses a state directory.
- Clock readings, generated ids, random bytes, received messages and failures are parameters.

## Where the code and a natural reading of it differ

- "Online while some stream is open" is false (`PresenceHistory.OfflineWithAnOpenSession`); online
  means that the newest session has not ended. The two agree exactly unless an older session outlives
  the newest one (`PresenceHistory.OnlineMeansSomeOpenExactlyUnlessOutlived`).
- TouchSession does not test the status, so at the level of the store a session that ended still
  moves `last_seen_at` (`Presence.TouchAfterEndMovesLastSeen`), exactly if it is the newest and has
  ended (`PresenceHistory.TouchNeedsOnlineExactlyUnlessNewestEnded`). No handler does
  (`FleetTheorems.LastSeenMovesOnlyOnline`).
- Samples carry nanoseconds and the table keeps microseconds, so two samples collected at different
  times can be one row (`Telemetry.TwoValidSamplesCanShareARow`), exactly if they fall into one
  microsecond (`Telemetry.LaterSampleReplacesExactlyWithinAMicrosecond`).
- `save_new` refuses to overwrite an identity unless `Path::exists` fails, which it reports as "does
  not exist"; the contract of `IdentityStore.Directory.SaveNew` says so exactly.
- The state directory is not synced after the rename, so a power failure can lose a saved identity
  and the next run enrolls again (`AgentRun.PowerFailureMakesTheAgentEnrollAgain`); no published file is
  safe from that (`IdentityStore.NoPublishedFileIsSafe`).
- Validation accepts NUL characters (`Database.AcceptedInputCanHoldNul`) and the database rejects them;
  the contract of `Services.EnrollmentService.Enroll` gives the exact condition.

## Model

| member | source | states |
|---|---|---|
| Presence.RunRefinesRegister | server/internal/repository/postgres/presence_store.go:39-151 | over every legal run of store calls, the row and the log are those of a register that compares session identities and no timestamps; tokens stay distinct |
| Presence.FencingExactlyWhenTokensDiffer | server/internal/repository/postgres/presence_store.go:95-125 | Touch and End by any session do what the register says for all clock readings if and only if the session's timestamp is not shared with a different owner (for End: a live one) |
| Presence.EqualTokensLetAStaleSessionEndTheOwner | server/internal/repository/postgres/presence_store.go:117-125 | with two Starts in one microsecond the first session's End takes the second offline |
| Presence.TouchAfterEndMovesLastSeen | server/internal/repository/postgres/presence_store.go:95-101 | a legal history after which a heartbeat moves last_seen_at of an offline machine |
| PresenceHistory.TouchNeedsOnlineExactlyUnlessNewestEnded | server/internal/repository/postgres/presence_store.go:95-101 | after any legal history a session's heartbeat can move last_seen_at of a machine that is not online if and only if the session is the newest and has ended |
| PresenceHistory.OnlineIffNewestSessionNotEnded | server/internal/repository/postgres/presence_store.go:50-69 | a machine is online if and only if its most recent Start has no later End of the same session |
| PresenceHistory.OfflineWithAnOpenSession | server/internal/repository/postgres/presence_store.go:117-127 | a newer session that opens and ends leaves the machine offline while an older one is open |
| PresenceHistory.OnlineMeansSomeOpenExactlyUnlessOutlived | server/internal/repository/postgres/presence_store.go:50-69 | "online if and only if some session is open" holds of exactly the legal histories in which no older session outlives the newest |
| PresenceHistory.LogAlternatesAndEndsInStatus | server/internal/repository/postgres/presence_store.go:77-85 | events alternate online, offline, starting with online; the last equals the status; none exactly when unknown; no other status is reached |
| PresenceHistory.EventsCountStartsAndEnds | server/internal/repository/postgres/presence_store.go:77-144 | Starts equal online events plus takeovers of a live session, effective Ends equal offline events |
| PresenceHistory.OneEffectiveEndPerSession | server/internal/repository/postgres/presence_store.go:117-136 | a second End of a session is never effective |
| PresenceHistory.StaleCallsLeaveNoTrace | server/internal/repository/postgres/presence_store.go:94-133 | erasing every Touch and End issued after a newer Start gives the same row, log and tokens |
| PresenceHistory.NothingStaleIsLeft | server/internal/repository/postgres/presence_store.go:94-133 | the erased history has the same newest session, and erasing again erases nothing |
| PresenceHistory.ErasedAreExactlyTheStale | server/internal/repository/postgres/presence_store.go:94-133 | the calls erased are exactly the Touches and Ends of sessions that are not the newest when they arrive |
| EventTable.InsertAppends | server/migrations/000001_create_v1_machine_schema.up.sql:38-43 | an event with an id above all of its machine's appends to that machine's log in id order, however the ids of other machines lie |
| Transactions.NextKeepsInv | server/internal/repository/postgres/presence_store.go:39-151 | every small step keeps: one writer per row, the row under a transaction is the one it read, drawn ids are open and ordered, tokens are distinct, an unmatched statement stays unmatched |
| Transactions.StatementsOnDifferentRowsCommute | server/internal/repository/postgres/presence_store.go:51-63 | statements on different machines that can each run can run in either order, whatever their clock readings, to the same state |
| TransactionsRefine.UncommittedStepShowsNothing | server/internal/repository/postgres/presence_store.go:40-44 | begin, statement, insert and rollback, and commits on other machines, change nothing committed on a machine |
| TransactionsRefine.CommitIsOneAtomicCall | server/internal/repository/postgres/presence_store.go:46-91 | a commit is one whole call applied to the committed state at that moment |
| TransactionsRefine.InterleavingsAreAtomic | server/internal/repository/postgres/presence_store.go:39-151 | after any interleaving each machine's row, id-ordered log and tokens are those of its committed calls run one at a time in commit order |
| TransactionsRefine.InterleavingsRefineRegister | server/internal/repository/postgres/presence_store.go:39-151 | any interleaving of any number of calls refines the current-owner register |
| TransactionsRefine.WritersExclude | server/internal/repository/postgres/presence_store.go:51-56 | two transactions never both hold one machine's row |
| TransactionsRefine.CommittedOnceOrNever | server/internal/repository/postgres/presence_store.go:44-44 | a transaction commits once if it ends committed and never if it rolled back or is open |
| TransactionsProgress.UncontendedCallCommits | server/internal/repository/postgres/presence_store.go:39-151 | on a known row that nobody holds, begin, statement, event insert if the status changes, and commit are possible in turn and have the effect of one atomic call, on that machine alone |
| TransactionsProgress.OpenCallCanRollBack | server/internal/repository/postgres/presence_store.go:40-44 | every open transaction can roll back, leaving nothing behind |
| TransactionsProgress.LockHolderCanCommit | server/internal/repository/postgres/presence_store.go:77-91 | a transaction that holds a row can always go on to commit and free it |
| TransactionsProgress.WaitingCallCanRun | server/internal/repository/postgres/presence_store.go:51-56 | a statement that waits for a row becomes possible, with all that follows it, when the holder rolls back |
| TransactionsProgress.WaitingCallCommits | server/internal/repository/postgres/presence_store.go:51-56 | what it then commits is its own call, as if the other had never been |
| TransactionsProgress.LegalHistoriesHappen | server/internal/repository/postgres/presence_store.go:39-151 | every list of calls the specification allows, with a clock that does not run backwards, is what some run of small steps commits |
| TransactionsHistory.CommittedStateTellsTheHistory | server/internal/repository/postgres/presence_store.go:39-151 | online if and only if the last committed Start is unended, the log's shape and counts, and erasure of stale calls, after any interleaving |
| TransactionsClock.TimestampsNeverMoveBack | server/internal/repository/postgres/presence_store.go:57-63 | between any two points of any interleaving no timestamp of a row moves back or is cleared; offline implies connect no later than disconnect, online implies the reverse |
| TransactionsClock.TokenIsNewExactlyWhenRowDiffers | server/internal/repository/postgres/presence_store.go:60-60 | a token no earlier than the row's differs from all of the machine's tokens if and only if it differs from the one in the row |
| Stream.MessageReachesItsRow | server/internal/agentgrpc/server.go:172-190 | when a message is turned into a sample, when that sample is accepted, and which numbers of the message end in which column, under the session's machine, the CPU usage to the nearest hundredth |
| Stream.OpenReplyIsExact | server/internal/presence/service.go:49-79 | refused if and only if the id does not parse, the secret is blank, or no unrevoked identity with that hash is found; a failure if and only if a query fails or the machine is gone |
| Stream.HandleTelemetry | server/internal/agentgrpc/server.go:152-165 | one telemetry message either lets the loop go on or fails with the code and the calls of the automaton |
| Stream.StreamUpdates | server/internal/agentgrpc/server.go:81-170 | the loop with its `closed` flag and deferred close returns the code and makes the calls of the handler automaton, for every stream and every pattern of replies |
| StreamTrace.ServeStream | server/internal/agentgrpc/server.go:81-170 | running the handler on any stream under any pattern of replies gives the code, the calls and the stored samples computed from the messages and replies alone, and closes once exactly after a successful open |
| StreamTrace.LoopMakesExactlyTheseCalls | server/internal/agentgrpc/server.go:130-169 | messages before the first failure make all their calls in order, the failing one up to its failure, then one Close; the first failure decides the code |
| StreamTrace.StoredSamplesAreTheImages | server/internal/agentgrpc/server.go:152-165 | the stored samples are the images in order of the messages before the stop, plus the stopping message's own if stored before its activity call failed |
| StreamTrace.StreamIsOpenedAndClosedOnce | server/internal/agentgrpc/server.go:89-128 | nothing, or one Open; after a successful Open, and only then, the loop and exactly one Close, also when Close fails |
| Fleet.NextKeepsInv | server/internal/agentgrpc/server.go:81-170 | with many handlers over one store: every session is the one its machine issued to that handler, and the owner's handler is unclosed exactly while the machine is online |
| FleetTheorems.MachineIsARunOfItsCalls | server/internal/presence/service.go:69-93 | each machine's state is a legal run of the calls its own handlers made, so all history properties hold of it |
| FleetTheorems.FleetOnlineIffNewestSessionNotEnded | server/internal/presence/service.go:69-93 | online if and only if the newest session any handler opened on the machine has not been closed successfully |
| FleetTheorems.OnlineIffOwnerUnclosed | server/internal/agentgrpc/server.go:109-128 | the owning session belongs to a handler; the machine is online if and only if that handler runs or its CloseSession reported an error |
| FleetTheorems.LastSeenMovesOnlyOnline | server/internal/agentgrpc/server.go:147-165 | no step of any handler changes last_seen_at of a machine that is not online after it |
| FleetTheorems.NoHandlerIsStuck | server/internal/agentgrpc/server.go:81-170 | in every reachable state a stream that has not returned can go on, whatever it receives and whatever its calls come to |
| FleetTheorems.TableHoldsLastSampleOfAnyHandler | server/internal/repository/postgres/telemetry_store.go:19-56 | across all handlers each key holds the last valid sample whose Record succeeded, and no other key exists |
| FleetTheorems.OneIdentityPerMachine | server/migrations/000001_create_v1_machine_schema.up.sql:21-36 | every machine has exactly one identity and agent ids are unique, in every reachable state |
| FleetTheorems.EnrollmentIsWhatOpensASession | server/internal/presence/service.go:49-72 | in every state after an enrollment a stream naming the agent authenticates, on the enrolled machine, if and only if the identity is not revoked and the secret is not blank and hashes to the stored value |
| FleetTheorems.RevocationIsForGood | server/internal/repository/postgres/presence_store.go:22-37 | in every state after a revocation no secret authenticates as the agent |
| FleetTheorems.IssuedSecretRoundTrip | server/internal/enrollment/service.go:73-103 | the issued secret opens a session on the enrolled machine in every later state; without hash collisions no other secret does |
| FleetTheorems.IssuedSecretOpensAStream | server/internal/agentgrpc/server.go:89-107 | from every later state a new stream with the issued secret connects, is looked up, starts its session and comes to receive messages on the enrolled machine |
| FleetTheorems.SessionsAreGranted | server/internal/presence/service.go:57-72 | every session is on the machine of the identity its handler's lookup found |
| FleetIndependence.MachinesAreIndependent | server/internal/agentgrpc/server.go:180-189 | erasing every step of any handlers that are not on a machine leaves that machine's row, events, tokens and samples unchanged, and the rest of the run possible |
| FleetProjection.ProjectionIsARun | server/internal/agentgrpc/server.go:172-190 | what remains of a run when other machines' handlers, enrollments and revocations are erased is a run that ends in exactly the machine's row, events, tokens, samples, identity and handlers |
| ConcurrentRefine.NextKeepsInv | server/internal/agentgrpc/server.go:81-170 | every step of handlers, transactions and enrollments keeps: a waiting handler's transaction carries exactly its call, and every open transaction is awaited by one handler |
| ConcurrentRefine.StepIsFleetStepOrNothing | server/internal/repository/postgres/presence_store.go:39-151 | a commit or rollback is the successful or failed call of the handler that waits for it; begin, statement, event insert and the return of the call are invisible |
| ConcurrentRefine.ConcurrentRefinesFleet | server/internal/agentgrpc/server.go:81-170 | every interleaving of handlers whose calls are small-step transactions reaches the state of a run of atomic calls, so all that is proved of Fleet holds of it |
| ConcurrentRefine.OnlineIffOwnerUnclosed | server/internal/agentgrpc/server.go:109-128 | with transactions under way, a committed row is online if and only if the owning session's handler is unclosed |
| ConcurrentRefine.OnlineRowHasALiveOrFailedHandler | server/internal/agentgrpc/server.go:109-128 | an online row belongs to a handler that has not returned or whose CloseSession reported an error |
| ConcurrentRefine.LastSeenMovesOnlyOnline | server/internal/agentgrpc/server.go:147-165 | no step of any interleaving changes last_seen_at of a row that is not online after it |
| ConcurrentRefine.EveryCallCanBegin | server/internal/presence/service.go:69-93 | in every reachable state a handler with a call to make can begin its transaction: the session it passes is one the database issued to it |
| ConcurrentProgress.UncontendedCallReaches | server/internal/presence/service.go:69-93 | a call that can begin, on a row nobody holds, can commit and return |
| ConcurrentProgress.CallCanFail | server/internal/presence/service.go:69-93 | a call that can begin can also roll back and return its error, and is then a failed call to Fleet |
| ConcurrentProgress.FleetRunsHappen | server/internal/agentgrpc/server.go:81-170 | conversely to the refinement: every run of Fleet whose clock does not run backwards is what some run of handlers and small steps comes to |
| Telemetry.ValidationAgreesWithChecks | server/internal/telemetry/service.go:49-76 | every accepted sample satisfies the CHECKs, and exactly which samples the CHECKs admit beyond the validation |
| Telemetry.RoundsToNearest | server/migrations/000001_create_v1_machine_schema.up.sql:52-53 | the stored CPU usage is the nearest hundredth, halves away from zero |
| Telemetry.UpsertWritesOneRow | server/internal/repository/postgres/telemetry_store.go:24-44 | the upsert writes the sample's numbers into the row of its machine and microsecond, and no other row changes |
| Telemetry.LastWriterWins | server/internal/repository/postgres/telemetry_store.go:19-56 | after any history the table maps a key to the last successful sample for it and holds no other key |
| Telemetry.DifferentKeysCommute | server/internal/repository/postgres/telemetry_store.go:32-41 | swapping neighbouring records with different keys changes nothing, whatever surrounds them |
| Telemetry.ReplayingTheLatestIsIdempotent | server/internal/repository/postgres/telemetry_store.go:32-41 | sending a key's latest sample again changes at most received_at |
| Telemetry.TwoValidSamplesCanShareARow | server/migrations/000001_create_v1_machine_schema.up.sql:48-62 | two accepted samples collected at different times with one key |
| Telemetry.LaterSampleReplacesExactlyWithinAMicrosecond | server/migrations/000001_create_v1_machine_schema.up.sql:48-62 | a second sample of a machine replaces the first if and only if both fall into one microsecond |
| Text.TrimRemovesExactlyTheBlankEnds | server/internal/enrollment/service.go:145-151 | trimming removes the maximal blank ends and nothing else |
| Text.TrimSpaceIsExact | server/internal/enrollment/service.go:145-151 | TrimSpace takes white space off both ends, leaves none there and takes nothing else |
| Text.SpacesAreWhiteSpace | server/internal/enrollment/service.go:146-146 | white space is the 25 code points with that Unicode property |
| Text.SqlTrimIsExact | server/migrations/000001_create_v1_machine_schema.up.sql:3-8 | trim() takes spaces, and only spaces, off both ends |
| Text.ByteLengthCountsOctets | server/internal/enrollment/service.go:147-147 | the length of a string is the number of octets of its UTF-8 encoding (section 3 of RFC 3629), which is given and decoded |
| EnrollmentInput.NormalizeCapabilities | server/internal/enrollment/service.go:127-140 | the loop with its `seen` map accepts if and only if every trimmed capability is acceptable, and yields the first occurrences |
| EnrollmentInput.ValidateInput | server/internal/enrollment/service.go:105-143 | the sequence of checks computes the declarative validation and accepts if and only if every field and capability, trimmed, is not blank and within its byte limit and there are at most 32 capabilities |
| EnrollmentInput.AcceptanceIsExact | server/internal/enrollment/service.go:105-151 | exactly which input is accepted, and that each field of the result is the trimmed field of the input |
| EnrollmentInput.FirstOccurrencesIsStableDeduplication | server/internal/enrollment/service.go:129-139 | same elements, no duplicates, in the order of first occurrence |
| EnrollmentInput.AcceptedInputIsNormal | server/internal/enrollment/service.go:105-151 | accepted fields are trimmed, not blank and within their byte limits; at most 32 distinct capabilities, the same set as the trimmed ones |
| EnrollmentInput.ValidationIsIdempotent | server/internal/enrollment/service.go:105-143 | validating an accepted result returns it unchanged |
| Base64Url.DecodeEncode | server/internal/enrollment/service.go:153-159 | decoding the encoding of any bytes gives the bytes |
| Base64Url.EncodeWritesTheNumbers | server/internal/enrollment/service.go:158-158 | every group of four digits is the same number as its group of three bytes, short ones completed with zeros |
| Base64Url.DigitsAreTheTable | server/internal/enrollment/service.go:158-158 | the digits are those of the table of section 5 of RFC 4648 |
| Base64Url.EncodeIsInjective | server/internal/enrollment/service.go:153-159 | different random bytes give different secrets |
| Base64Url.SecretShape | server/internal/enrollment/service.go:153-159 | the secret of 32 bytes has 43 characters and nothing to trim |
| Database.PresenceStore.FindActiveIdentity | server/internal/repository/postgres/presence_store.go:22-37 | the unrevoked identity of an agent id, none, or the database's error |
| Database.PresenceStore.StartSession | server/internal/repository/postgres/presence_store.go:39-92 | when it succeeds, the token, and the new row and log as the Start of Presence; an error at any interaction leaves rows and events as they were |
| Database.PresenceStore.TouchSession | server/internal/repository/postgres/presence_store.go:94-107 | the fenced heartbeat; other machines unchanged; an error changes nothing |
| Database.PresenceStore.EndSession | server/internal/repository/postgres/presence_store.go:109-151 | the fenced end with its event; no matching row is no error; an error rolls row and event back |
| Database.TelemetryStore.Record | server/internal/repository/postgres/telemetry_store.go:19-56 | insert or update by key; succeeds exactly for known machines and values the CHECKs admit |
| Database.AcceptedInputPassesChecks | server/migrations/000001_create_v1_machine_schema.up.sql:3-8 | every validated input satisfies the CHECKs on the text columns: bytes bound characters, SQL trimming finds nothing |
| Database.AcceptedInputCanHoldNul | server/internal/enrollment/service.go:105-151 | an input the service accepts, the CHECKs admit and a text column cannot hold |
| Database.StorableTextIsExact | server/migrations/000001_create_v1_machine_schema.up.sql:3-8 | exactly which text the tables take |
| Database.EnrollmentStore.InsertMachine | server/internal/repository/postgres/enrollment_store.go:28-42 | the first insert under the key, the CHECKs and the text type |
| Database.EnrollmentStore.InsertIdentity | server/internal/repository/postgres/enrollment_store.go:44-55 | the second insert under the unique agent id and the one active identity of a machine |
| Database.EnrollmentStore.Enroll | server/internal/repository/postgres/enrollment_store.go:21-63 | both rows or neither, and exactly when the constraints and the fault allow it |
| Services.PresenceService.OpenSession | server/internal/presence/service.go:49-79 | who is refused, who is let in and what is a failure, from the request, the tables and the faults; a session's start is the Start of Presence on its machine and leaves every other machine alone; anything else changes nothing |
| Services.PresenceService.RecordActivity | server/internal/presence/service.go:81-86 | the Touch of the session's token, or an error without effect; other machines unchanged |
| Services.PresenceService.CloseSession | server/internal/presence/service.go:88-93 | the End of the session's token, or an error without effect, each under its exact condition; other machines unchanged |
| Services.TelemetryService.Record | server/internal/telemetry/service.go:37-76 | invalid samples are told apart; a valid one of a known machine is stored unless the database fails |
| Services.RandomCredential | server/internal/enrollment/service.go:153-159 | 43 characters that decode to the random bytes and pass every blank check |
| Services.EnrollmentService.Enroll | server/internal/enrollment/service.go:73-103 | with fresh ids and a working database it succeeds exactly for valid input without NUL, and what it stores is the normalised input; the secret it returns encodes the random bytes and authenticates as the machine it returns; each error under its condition |
| IdentityStore.Directory.Load | agent/src/identity.rs:39-50 | exactly, from the failing operations and the file's content: nothing for a missing file, Io if it cannot be opened, Json if it cannot be read or parsed, the version error, or the identity |
| IdentityStore.Directory.WriteTemporary | agent/src/identity.rs:60-72 | only the temporary file changes; it succeeds if and only if the file is new and all five operations succeed, and then leaves the rendered identity and a newline, synced; which operation failed tells the error |
| IdentityStore.Directory.SaveNew | agent/src/identity.rs:52-85 | under every pattern of failing operations and at every moment of dying, the published entry is the old one or the complete synced new one, the result says which, and an existing one is kept unless `exists` failed; success and every error under their exact conditions |
| IdentityStore.SaveCrashAndLoad | agent/src/identity.rs:39-95 | a first save under any failures and any moment of dying, a crash or power failure, and a load by a new process: nothing or the complete identity, never a parse error; without power failure a reported success is never lost |
| IdentityStore.NoPublishedFileIsSafe | agent/src/identity.rs:74-75 | for every directory with a published file there is a power failure that takes it and one that keeps it |
| AgentRun.Run | agent/src/lib.rs:24-61 | one run is a step of the history relation, whose observations are tied to the server's request count and the failing operations: a stored identity is used whenever the state can be opened and never leads to a request; otherwise one request is sent exactly with configuration, state and metadata, its enrollment is stored whole or lost, and if nothing fails it is stored and used; a new identity has the four fields of the response, whose secret is not blank and whose ids parse |
| AgentRun.PowerFailureKeepsOrLosesTheIdentity | agent/src/identity.rs:68-75 | a power failure keeps the published identity whole or loses it |
| AgentRun.EnrollmentsAreStoredOrLost | agent/src/lib.rs:44-57 | over any history, committed enrollments equal one if an identity is stored plus the lost ones and are at most the requests, and the stored identity is the last one issued |
| AgentRun.StoredIdentityIsUsedByEveryLaterRun | agent/src/lib.rs:27-61 | from the moment an identity is stored until a power failure takes it, every run that can open the state uses exactly it, none sends a request, and the world does not change |
| AgentRun.CleanRunEndsWithAnIdentity | agent/src/lib.rs:27-61 | a run in which nothing fails ends with a stored identity that it uses, issued to it if none was stored |
| AgentRun.PowerFailureMakesTheAgentEnrollAgain | agent/src/lib.rs:27-58 | executing the agent, a power failure and the agent again, with no failing operation, enrolls twice and leaves the second identity |
| AgentAndServer.LoadedIdentityOpensASession | agent/src/enrollment.rs:65-78 | the agent accepts the server's response, what any later run loads is exactly the identity issued, and with it a new stream comes to receive messages on the enrolled machine in every state reached since, unless revoked |

## Left out

- gRPC transport, protobuf code, listeners, health routes, logging, start-up and shutdown: plumbing; `Recv` is a list of results that ends in a transport error.
- The gRPC `Enroll` method of the server: it copies the request's fields into the service's input, maps ErrInvalidInput to InvalidArgument and every other error to Internal, and copies the result back.
- Concurrent: the telemetry upsert is one statement and one step; an enrollment's transaction is one step too, its two inserts being both-or-neither in Database. That a call can always go on is proved; that it does is not, a transaction may stay open for ever.
- Fault model: a commit that takes effect although its call reports an error, and a cancelled call that takes effect late.
- `occurred_at` of events: it is the transaction's start and need not follow the order of ids.
- The `name` column of machines, which repeats the hostname, `created_at`, and the unused columns `last_rotated_at` and `agent_identities.last_connected_at`.
- UUID syntax, JSON rendering, file modes and SHA-256: abstract functions, with the assumptions above.
- Two agent processes in one state directory: the check for an existing file and the rename are two operations.
- CPU usage: a finite value is a real number; the decimal rendering of a float64 on its way into NUMERIC is not modelled.
- Non-unique indexes, the down migration, configuration, metadata collection, the development tool and the desktop app.
