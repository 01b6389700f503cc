# LineageTX migration transaction

LineageTX moves a data producer from an old column to a new one together with its three consumers (a dbt
model, an Airflow mapping and a semantic document), or not at all. This project models the transaction behind
it: a durable, optimistically locked store with an append-only event log; the coordinator that detects,
prepares, waits for the semantic owner, commits or aborts; the publisher that opens the coordination pull
request and releases the Producer gate; the paged DataHub reads, the impact fingerprint and the DataHub
write-back; and the deterministic edits and parsers the participants use. Paths below are relative to the
repository root; all files of the LineageTX package are under `src/data_lineage_fix_agent/lineagetx/`.

The central promise is that the Producer gate is never released once candidate cleanup has begun, and that
cleanup never starts once the gate may be visible. `ProtocolSafety.GateOrCleanup` proves it for any number of
concurrent actors with failures and crashes at every step, from the store's two durable markers
(`StoreTheorems.MarkersExclude`) and the coordinator's order of calls.

How the project is laid out:

- `StoreSpec` gives, per public mutator, the error it raises or the store its write transaction leaves.
  `StoreInvariant`, `StorePreservation` and `StoreRuns` prove one invariant over any calls with any arguments;
  `StoreTheorems` states what it means for readers of the store. `StateStore` is the store as an object whose
  methods update four tables in place, each proved to be one such transaction.
- `Protocol` is the coordinator as a small-step relation: actors running prepare, approve, commit or abort
  interleave over one store, each step being one transaction or one external call that may raise before or
  after it took effect, and each actor may stop anywhere. `ProtocolSafety`, `ProtocolApproval` and
  `ProtocolRecovery` are three inductive invariants over it. `Coordinator` is the same commit and abort as
  methods of an object, run to whatever end the outside world gives them while other holders call the store.
- `Publication`, `Recovery` and `Publisher` are the receipts, reading them back out of the log, and the
  GitHub publisher with its server; `LateReservation` holds small runs that show what can happen to them.
- `Paging`, `SchemaPaging`, `Fingerprint`, `Writeback` and `WritebackOrder` are the DataHub side. A server is
  any function from call number, offset and limit to an answer; `Serves` and `ServesFully` single out those that
  page through one list.
- `SemanticRename`, `IdentifierRename`, `MappingRename`, `StatusParser`, `Policy` and `ResumeSnapshot` are the
  participants' edits, the Git status parser, the discovery policy and the resume sidecar.
- `Wrappers`, `Ordering`, `Json`, `Paths` and `Models` hold the vocabulary.

Three findings about the code, each stated as an exact condition with an input that shows it:

- `reserve_abort_cleanup` (state.py:434-490) does not check whether the migration is terminal. A reservation
  on a COMMITTED migration whose gate was never armed appends an event into COMMITTED without receipts, and
  `_publication_from_state` then refuses to rebuild the publication. `Recovery.RecoveryExact` proves that this is
  the only way to lose it. The coordinator always arms the gate first, so its own commits are never lost
  (`ProtocolRecovery.CommittedPublicationRecovers`). `LateReservation.PublicationLost` is a run from the empty
  store that loses one.
- The semantic adapter accepts any expected occurrence count before the owner is asked, but its approved check
  demands that no mention is left and the edit removes exactly two. An approved document is therefore accepted
  if and only if the old field occurred exactly twice (`SemanticRename.ApprovedIffTwo`); any other count ends in a
  rejection after the approval was recorded, as it does for the document of
  `SemanticRename.ThreeMentionsRejected`.
- `_writeback` (coordinator.py:1234-1273) lists the assets in participant-id order, while `write_assets`
  (writeback.py:275-280) compares that list with the frozen context's, which is in hop order. Participant ids are
  digests, so nothing makes the two agree, and with the owners right and the context refreshed a migration's
  write-backs pass the checks if and only if they do (`WritebackOrder.WritebackPasses`).
  `WritebackOrder.OutOfOrder` is a discovery the policy admits and no write-back of which passes.

Two committers of one migration may each obtain a publication. The store accepts one; the other remembers its own
and then answers COMMITTED. `LateReservation.SecondCommitterDiffers` shows that the two can differ, and
`Coordinator.LineageTXCoordinator.Commit` and `ReconcileCommit` say when the answer is the one in the log.

Event types are caller-chosen strings in the store. Theorems about the two markers assume honest callers,
which do not pass a marker's name as an event type; `StoreTheorems.ForgedMarker` shows that this is needed.
All other store theorems hold for any arguments.

## Model

| member | source | states |
|---|---|---|
| `Models.ReceiptRoundTrip` | src/data_lineage_fix_agent/lineagetx/models.py:526-585 | every well-formed coordination receipt survives its dictionary form; a receipt with `merged` set has no such form |
| `Models.ReceiptsRoundTrip` | src/data_lineage_fix_agent/lineagetx/models.py:564-585 | the same for whole receipt lists, in order |
| `Models.CleanupRoundTrip` | src/data_lineage_fix_agent/lineagetx/models.py:588-630 | every well-formed cleanup receipt survives its dictionary form, lists included |
| `Json.Assign` | src/data_lineage_fix_agent/lineagetx/state.py:520-525 | assigning a payload key makes it readable and leaves every other key's value as it was |
| `Json.StringsRoundTrip` | src/data_lineage_fix_agent/lineagetx/coordinator.py:1217-1222 | a list of strings stored in a payload reads back as itself |
| `Json.LookupAt` | src/data_lineage_fix_agent/lineagetx/models.py:575-585 | a member is found under its key unless an earlier one shadows it |
| `Ordering.BeforeIsOrder` | src/data_lineage_fix_agent/lineagetx/state.py:843-858 | code-point order, as the key columns sort, is a strict total order |
| `Ordering.SortedUnique` | src/data_lineage_fix_agent/lineagetx/datahub_context.py:617-622 | a set has one sorted listing, so sorted results are canonical |
| `Ordering.ListingUnique` | src/data_lineage_fix_agent/lineagetx/state.py:749-757 | any sorted listing of the participant keys is the `ORDER BY` listing |
| `StoreInvariant.MaxIsLength` | src/data_lineage_fix_agent/lineagetx/state.py:222-232 | with sequence numbers 1..n, `MAX(sequence)` is n, so the next event gets n+1 |
| `StoreInvariant.ReplayAppend` | src/data_lineage_fix_agent/lineagetx/state.py:211-252 | appending an event extends exactly the replay of the migration or participant it is about |
| `StorePreservation.MoveMigrationCore` | src/data_lineage_fix_agent/lineagetx/state.py:633-662 | a table edge or a stutter of a migration, logged with its version, keeps row-log agreement, numbering and every referential fact |
| `StorePreservation.MoveParticipantCore` | src/data_lineage_fix_agent/lineagetx/state.py:909-963 | the same for a participant move; JSON copy and columns stay equal and VERIFIED keeps a well-formed commit |
| `StorePreservation.StutterValid` | src/data_lineage_fix_agent/lineagetx/state.py:405-432 | a marker event changes no row and keeps the whole invariant, on terminal migrations too |
| `StorePreservation.CreatedValid` | src/data_lineage_fix_agent/lineagetx/state.py:254-328 | a created migration starts at (DETECTED, 0) with DISCOVERED participants and a log of its own |
| `StoreRuns.TransitionValid` | src/data_lineage_fix_agent/lineagetx/state.py:502-670 | every successful `transition_migration` keeps the invariant and undoes nothing |
| `StoreRuns.AbortAllKeeps` | src/data_lineage_fix_agent/lineagetx/state.py:749-807 | the participant loop of an abort settles every listed participant, one logged event each, and touches no other row |
| `StoreRuns.AbortValid` | src/data_lineage_fix_agent/lineagetx/state.py:672-817 | a whole abort keeps the invariant: the migration is ABORTED and each participant ABORTED or COMMITTED |
| `StoreRuns.MoveValid` | src/data_lineage_fix_agent/lineagetx/state.py:860-965 | every successful participant transition keeps the invariant |
| `StoreRuns.ApproveValid` | src/data_lineage_fix_agent/lineagetx/state.py:967-1044 | every recorded approval is by a listed owner of a semantic participant for the exact mapping |
| `StoreRuns.StepKeeps` | src/data_lineage_fix_agent/lineagetx/state.py:254-1044 | any call of any mutator, whatever its arguments, keeps the invariant and undoes nothing |
| `StoreRuns.RunKeeps` | src/data_lineage_fix_agent/lineagetx/state.py:254-1044 | so does any sequence of calls |
| `StoreTheorems.LogReplaysTables` | src/data_lineage_fix_agent/lineagetx/state.py:211-252 | in every reachable store: sequence numbers are 1..n; every event is a table edge or a stutter; folding the log from (DETECTED,0) and (DISCOVERED,0) gives exactly the stored status and version of every row, and the JSON copies agree |
| `StoreTheorems.TerminalIsPermanent` | src/data_lineage_fix_agent/lineagetx/state.py:886-894 | once COMMITTED or ABORTED, the migration row, the set of its participants and each participant row never change again |
| `StoreTheorems.CommittedIsAccounted` | src/data_lineage_fix_agent/lineagetx/state.py:592-631 | a COMMITTED migration has participants, each VERIFIED or COMMITTED with a well-formed commit that a receipt of its one commit event names |
| `StoreTheorems.LifecycleBounds` | src/data_lineage_fix_agent/lineagetx/models.py:101-156 | each status is met only at its own versions, never above 4; ABORTED settles every participant |
| `StoreTheorems.OneWinnerPerVersion` | src/data_lineage_fix_agent/lineagetx/state.py:546-557 | of all calls expecting one version of a migration, at most one ever changes its status, whatever happens in between |
| `StoreTheorems.StepMarkers` | src/data_lineage_fix_agent/lineagetx/state.py:375-490 | one honest call writes the armed marker exactly if it is a successful arming, and the reserved marker exactly if it is a successful reservation |
| `StoreTheorems.ArmedStatus` | src/data_lineage_fix_agent/lineagetx/state.py:702-713 | from an armed gate every call leaves the status PREPARED or COMMITTED |
| `StoreTheorems.StepExclusive` | src/data_lineage_fix_agent/lineagetx/state.py:375-490 | one honest call keeps the markers exclusive and the armed gate PREPARED or COMMITTED |
| `StoreTheorems.MarkersExclude` | src/data_lineage_fix_agent/lineagetx/state.py:375-490 | over every run of honest calls the log never holds both markers, and gate-armed implies PREPARED or COMMITTED |
| `StoreTheorems.ForgedMarker` | src/data_lineage_fix_agent/lineagetx/state.py:502-512 | honesty is needed: a caller that passes a marker name as its event type reaches a store holding both markers |
| `StateStore.SQLiteStateStore.constructor` | src/data_lineage_fix_agent/lineagetx/state.py:105-110 | a new store is valid and empty |
| `StateStore.SQLiteStateStore.AppendEvent` | src/data_lineage_fix_agent/lineagetx/state.py:211-252 | appends exactly one event, numbered one above the migration's maximum |
| `StateStore.SQLiteStateStore.InsertParticipants` | src/data_lineage_fix_agent/lineagetx/state.py:282-309 | inserts all rows, or reports that some key was taken |
| `StateStore.SQLiteStateStore.CreateMigration` | src/data_lineage_fix_agent/lineagetx/state.py:254-328 | commits exactly the specified new store or changes nothing; a duplicate participant rolls the migration row back too |
| `StateStore.SQLiteStateStore.ArmPublicationGate` | src/data_lineage_fix_agent/lineagetx/state.py:375-432 | arms once, at PREPARED and the expected version, unless cleanup is reserved; otherwise changes nothing |
| `StateStore.SQLiteStateStore.ReserveAbortCleanup` | src/data_lineage_fix_agent/lineagetx/state.py:434-490 | reserves once, at the expected status and version, unless the gate is armed; there is no terminal check |
| `StateStore.SQLiteStateStore.CheckParticipants` | src/data_lineage_fix_agent/lineagetx/state.py:558-631 | refuses PREPARED unless every participant is verified with a commit, and COMMITTED unless every commit is in the receipts |
| `StateStore.SQLiteStateStore.TransitionMigration` | src/data_lineage_fix_agent/lineagetx/state.py:502-670 | commits exactly the specified transition and event, or changes nothing and names the guard that failed |
| `StateStore.SQLiteStateStore.SelectParticipants` | src/data_lineage_fix_agent/lineagetx/state.py:749-757 | selects the migration's participants in key order |
| `StateStore.SQLiteStateStore.AbortParticipant` | src/data_lineage_fix_agent/lineagetx/state.py:760-807 | aborts one unsettled participant, columns, JSON and event together |
| `StateStore.SQLiteStateStore.AbortParticipants` | src/data_lineage_fix_agent/lineagetx/state.py:749-807 | the loop equals aborting the listed participants one after another |
| `StateStore.SQLiteStateStore.AbortMigration` | src/data_lineage_fix_agent/lineagetx/state.py:672-817 | commits migration, participants and all events together, or changes nothing |
| `StateStore.SQLiteStateStore.TransitionParticipant` | src/data_lineage_fix_agent/lineagetx/state.py:860-965 | commits exactly the specified row, commit name, links and event, or changes nothing |
| `StateStore.SQLiteStateStore.UpdateParticipant` | src/data_lineage_fix_agent/lineagetx/state.py:928-963 | writes columns and JSON record of one participant together with its event |
| `StateStore.SQLiteStateStore.RecordApproval` | src/data_lineage_fix_agent/lineagetx/state.py:967-1044 | records one approval and its event, or changes nothing |
| `StateStore.SQLiteStateStore.GetMigration` | src/data_lineage_fix_agent/lineagetx/state.py:339-350 | returns the row, or not-found exactly when there is none |
| `StateStore.SQLiteStateStore.ListParticipants` | src/data_lineage_fix_agent/lineagetx/state.py:843-858 | lists exactly the migration's participants in key order; laying the columns over the JSON changes nothing |
| `Recovery.RecoveryExact` | src/data_lineage_fix_agent/lineagetx/coordinator.py:1162-1201 | in every reachable store the committed publication is rebuilt if and only if no reservation was logged after the commit |
| `Recovery.ReservationLosesPublication` | src/data_lineage_fix_agent/lineagetx/state.py:434-490 | on a COMMITTED migration without markers one reservation call makes the publication unrecoverable: the failing half of RecoveryExact |
| `Recovery.ArmedCommitRecovers` | src/data_lineage_fix_agent/lineagetx/coordinator.py:1162-1201 | committed under an armed gate, the publication is rebuilt exactly after any further honest calls |
| `Recovery.AbortRecovers` | src/data_lineage_fix_agent/lineagetx/coordinator.py:1203-1232 | after any abort and any further calls whatever, the cleanup receipt is rebuilt exactly |
| `Recovery.CommittedEventsAre` | src/data_lineage_fix_agent/lineagetx/state.py:633-662 | an event into COMMITTED is the commit itself or a reservation logged after it |
| `ProtocolSafety.StoreStep` | src/data_lineage_fix_agent/lineagetx/state.py:199-209 | one transaction of any actor keeps the invariant and the exclusion, and takes no marker away |
| `ProtocolSafety.EffectSafe` | src/data_lineage_fix_agent/lineagetx/coordinator.py:645-735 | a step's effect, complete or followed by a raise, leaves every gate call under an armed marker and every cleanup call under a reservation |
| `ProtocolSafety.NextPc` | src/data_lineage_fix_agent/lineagetx/coordinator.py:645-690 | gate calls are entered only from the arming, cleanup calls only from the reservation, requests stay well formed and publications complete |
| `ProtocolSafety.HandlerPc` | src/data_lineage_fix_agent/lineagetx/coordinator.py:636-735 | no exception handler leads to a gate call or to a cleanup call without a new reservation |
| `ProtocolSafety.ActSafe` | src/data_lineage_fix_agent/lineagetx/coordinator.py:525-914 | every action of every actor, crashes and raises included, keeps the safety invariant |
| `ProtocolSafety.WorldSafe` | src/data_lineage_fix_agent/lineagetx/coordinator.py:525-914 | the invariant holds in every reachable world |
| `ProtocolSafety.GateOrCleanup` | src/data_lineage_fix_agent/lineagetx/coordinator.py:658-685 | over every interleaving of any number of actors with arbitrary failures, no migration sees both a reconcile or release call and a candidate cleanup call |
| `ProtocolSafety.ArmedRetains` | src/data_lineage_fix_agent/lineagetx/coordinator.py:852-867 | once the gate is armed, by whichever actor, no candidate is ever cleaned up and the status is PREPARED or COMMITTED |
| `ProtocolSafety.CommitDichotomy` | src/data_lineage_fix_agent/lineagetx/coordinator.py:645-735 | wherever a commit attempt stands or failed: it armed the gate, all candidates are retained and the status is PREPARED or COMMITTED; or it made no reconcile or release call at all |
| `ProtocolApproval.MigrationChanges` | src/data_lineage_fix_agent/lineagetx/state.py:502-817 | only a matching transition, an abort or the announcement changes a migration's status |
| `ProtocolApproval.StatusChanges` | src/data_lineage_fix_agent/lineagetx/state.py:749-965 | only its own move or its migration's abort changes a participant's status |
| `ProtocolApproval.RowStep` | src/data_lineage_fix_agent/lineagetx/coordinator.py:201-305 | a permitted transaction keeps: a verified semantic participant is approved; a waiting migration has both other hops VERIFIED; PREPARED has all three |
| `ProtocolApproval.OpPermits` | src/data_lineage_fix_agent/lineagetx/coordinator.py:411-499 | the coordinator's transactions are permitted: it verifies the semantic candidate only as an approved actor and pauses only after both other hops |
| `ProtocolApproval.NextKnows` | src/data_lineage_fix_agent/lineagetx/coordinator.py:201-305 | what each actor knows where it stands is established by its own transaction and not taken away by any other actor |
| `ProtocolApproval.ActGated` | src/data_lineage_fix_agent/lineagetx/coordinator.py:156-523 | every action of every actor keeps the approval invariant |
| `ProtocolApproval.ApprovalGate` | src/data_lineage_fix_agent/lineagetx/coordinator.py:411-499 | in every reachable world: one participant per hop; at NEEDS_APPROVAL the dbt and Airflow participants are VERIFIED; from PREPARED on all three are; and neither a semantic edit nor a VERIFIED semantic candidate exists without an approval by one of its owners for the exact mapping |
| `ProtocolApproval.PreparedThroughPause` | src/data_lineage_fix_agent/lineagetx/coordinator.py:275-305 | in the log of any coordinator run PREPARED is entered from NEEDS_APPROVAL only |
| `ProtocolRecovery.EffectRecorded` | src/data_lineage_fix_agent/lineagetx/coordinator.py:690-735 | whatever step an actor takes, each COMMITTED migration's commit event keeps recording the publication persisted for it |
| `ProtocolRecovery.CommittedPublicationRecovers` | src/data_lineage_fix_agent/lineagetx/coordinator.py:1162-1201 | in every reachable world a COMMITTED migration's log gives back exactly the validated publication its commit actor persisted |
| `Coordinator.LineageTXCoordinator.CleanSessions` | src/data_lineage_fix_agent/lineagetx/coordinator.py:866-883 | tries every owned session whatever the others did; what is reported deleted and what failed is exactly what the calls said |
| `Coordinator.LineageTXCoordinator.CleanUp` | src/data_lineage_fix_agent/lineagetx/coordinator.py:860-890 | the receipt has no errors exactly when no cleanup raised, and names exactly the branches cleaned |
| `Coordinator.LineageTXCoordinator.Abort` | src/data_lineage_fix_agent/lineagetx/coordinator.py:846-914 | whatever other holders of the store do at each step: an armed gate stops it before any change; any cleanup happens under a reservation; success means ABORTED, all sessions cleaned, and a receipt the log gives back |
| `Coordinator.LineageTXCoordinator.Commit` | src/data_lineage_fix_agent/lineagetx/coordinator.py:525-776 | run to any end while others call the store at every point: with the gate armed afterwards every candidate is retained and the status is PREPARED or COMMITTED; without it no status was posted; success means COMMITTED with the remembered publication, which is the recoverable one when this coordinator committed it |
| `Coordinator.LineageTXCoordinator.AbandonCommit` | src/data_lineage_fix_agent/lineagetx/coordinator.py:645-654 | a failure before the gate cleans candidates only under a reservation of its own, never once the gate is armed |
| `Coordinator.LineageTXCoordinator.CollectRequest` | src/data_lineage_fix_agent/lineagetx/coordinator.py:585-632 | a request names exactly the migration's participants in key order, each VERIFIED, with its session's branch and its stored commit, and is well formed |
| `Coordinator.LineageTXCoordinator.OpenGate` | src/data_lineage_fix_agent/lineagetx/coordinator.py:668-698 | whatever reconcile or release returned is validated against the request before it is used |
| `Coordinator.LineageTXCoordinator.PersistCommit` | src/data_lineage_fix_agent/lineagetx/coordinator.py:701-734 | a transaction that raises before or after taking effect, amid calls of others, is decided by the status read afterwards: success exactly when COMMITTED stands; what was its own commit is recorded as such |
| `Coordinator.LineageTXCoordinator.TryPersist` | src/data_lineage_fix_agent/lineagetx/coordinator.py:702-714 | a successful transaction commits under the armed gate and its publication is the one the log holds, amid calls of others |
| `Coordinator.LineageTXCoordinator.ReconcileCommit` | src/data_lineage_fix_agent/lineagetx/coordinator.py:778-844 | succeeds only on COMMITTED; returns the remembered publication, else the recovered one; the log gives back what is returned when nothing was remembered or this coordinator committed it |
| `Coordinator.CommitHolds` | src/data_lineage_fix_agent/lineagetx/coordinator.py:1162-1201 | a successful commit transaction under an armed gate leaves a commit event recording exactly its publication |
| `Coordinator.HoldsReads` | src/data_lineage_fix_agent/lineagetx/coordinator.py:1162-1201 | a publication so recorded is the one recovered from the log |
| `Coordinator.HoldsKept` | src/data_lineage_fix_agent/lineagetx/coordinator.py:1162-1201 | and stays so after any calls that keep markers and history |
| `Coordinator.RunKept` | src/data_lineage_fix_agent/lineagetx/state.py:375-490 | any honest calls of other holders keep the store's invariant, its history and both markers |
| `LateReservation.PublicationLost` | src/data_lineage_fix_agent/lineagetx/state.py:434-490 | an honest run from the empty store to a COMMITTED, unarmed migration with a recoverable publication that one reservation makes unrecoverable |
| `LateReservation.SecondCommitterDiffers` | src/data_lineage_fix_agent/lineagetx/coordinator.py:700-720 | an honest run after which a second committer's transaction is refused while the publication it holds differs from the one in the log |
| `Policy.ValidateDiscovery` | src/data_lineage_fix_agent/lineagetx/policy.py:70-226 | succeeds if and only if the context is attested (complete, official or permitted transport, source, columns, governance, assets, tool evidence) and the discovery admissible, and then orders the participants dbt, Airflow, semantic |
| `Policy.AdmissibleIsBijection` | src/data_lineage_fix_agent/lineagetx/policy.py:127-209 | an admissible discovery pairs participants and consumers one to one at the hop of their kind, and covers hops 1, 2 and 3 |
| `Policy.HopOrderIs` | src/data_lineage_fix_agent/lineagetx/policy.py:209-215 | sorting by (degree, id) lists the kinds in hop order |
| `Publisher.FindPull` | src/data_lineage_fix_agent/lineagetx/publisher.py:458-480 | finds an open pull request of the head and base exactly if there is one |
| `Publisher.StatusOf` | src/data_lineage_fix_agent/lineagetx/publisher.py:508-528 | finds the latest status of the commit exactly if there is one |
| `Publisher.GitHub.CreatePullRequest` | src/data_lineage_fix_agent/lineagetx/publisher.py:437-456 | creates one pull request unless the request was lost before it arrived; an answer may be lost after |
| `Publisher.GitHub.CreateCommitStatus` | src/data_lineage_fix_agent/lineagetx/publisher.py:482-506 | posts one success status unless the request was lost before it arrived |
| `Publisher.FixedGitHubPublisher.StagePullRequest` | src/data_lineage_fix_agent/lineagetx/publisher.py:551-620 | finds or creates the pull request and remembers stage and request, with every refusal of the source, exactly as specified |
| `Publisher.FixedGitHubPublisher.ResultFromStage` | src/data_lineage_fix_agent/lineagetx/publisher.py:622-645 | builds and remembers the validated result of a stage |
| `Publisher.FixedGitHubPublisher.Reconcile` | src/data_lineage_fix_agent/lineagetx/publisher.py:675-704 | returns the remembered or the observed publication, none, or an error for a gate pointing elsewhere, exactly as specified |
| `Publisher.FixedGitHubPublisher.ReleaseGate` | src/data_lineage_fix_agent/lineagetx/publisher.py:647-673 | posts the status for the staged request only, exactly as specified |
| `Publisher.FixedGitHubPublisher.Publish` | src/data_lineage_fix_agent/lineagetx/publisher.py:706-708 | stage, then reconcile, then release only when nothing was found |
| `Publisher.KeptStageValidates` | src/data_lineage_fix_agent/lineagetx/publisher.py:159-185 | the receipts the publisher makes always pass the stage's validation |
| `Publisher.StageSound` | src/data_lineage_fix_agent/lineagetx/publisher.py:551-604 | staging, with any answer lost, keeps one pull request per head and base and a truthful memory |
| `Publisher.ReconcileSound` | src/data_lineage_fix_agent/lineagetx/publisher.py:675-704 | reconciling posts nothing; answering none means no status stands for the commit |
| `Publisher.ReleaseSound` | src/data_lineage_fix_agent/lineagetx/publisher.py:647-673 | releasing after a reconcile that found nothing keeps one status per commit |
| `Publisher.PublishSound` | src/data_lineage_fix_agent/lineagetx/publisher.py:706-708 | one attempt, whatever answers are lost, keeps all of that and takes nothing off the server |
| `Publisher.EffectivelyOnce` | src/data_lineage_fix_agent/lineagetx/publisher.py:551-708 | over any sequence of publish attempts of any requests, with lost answers and restarts: at most one pull request per head and base, at most one status per commit |
| `Publisher.PublishedIsTrue` | src/data_lineage_fix_agent/lineagetx/publisher.py:129-149 | what `publish` returns is valid and the server holds its pull request and its success status |
| `Publisher.ReachablePublisherScoped` | src/data_lineage_fix_agent/lineagetx/publisher.py:551-604 | whatever attempts were made, every pull request on the server is unmerged and has a URL of the scope's repository |
| `Publisher.RetryConverges` | src/data_lineage_fix_agent/lineagetx/publisher.py:675-708 | once published, a restarted publisher whose reads arrive returns the same pull request and changes nothing on the server, for every state attempts can reach |
| `Paging.DatasetLineage` | src/data_lineage_fix_agent/lineagetx/datahub_context.py:662-749 | returns exactly what the gathered pages mean, or an error |
| `Paging.ColumnLineage` | src/data_lineage_fix_agent/lineagetx/datahub_context.py:542-660 | returns the sorted merge of the gathered items, falls back on the empty first answer, or fails, against any server |
| `Paging.MergePage` | src/data_lineage_fix_agent/lineagetx/datahub_context.py:605-632 | merging a page extends the merge of everything read before it, or fails on a malformed or contradicting item |
| `Paging.SortRows` | src/data_lineage_fix_agent/lineagetx/datahub_context.py:646-651 | one row per consumer in hop-then-URN order, columns sorted |
| `Paging.GatherComplete` | src/data_lineage_fix_agent/lineagetx/datahub_context.py:542-660 | against a server that pages through a list, cutting pages as it likes, a read that succeeds returns the whole list |
| `Paging.GatherExact` | src/data_lineage_fix_agent/lineagetx/datahub_context.py:551-660 | against full pages it succeeds exactly when page size times page limit covers the list |
| `Paging.MergeMeans` | src/data_lineage_fix_agent/lineagetx/datahub_context.py:605-632 | the merge succeeds exactly if all items are well formed and agree on degrees, and then says of each consumer what some item says and nothing else |
| `Paging.MergeIgnoresOrder` | src/data_lineage_fix_agent/lineagetx/datahub_context.py:605-632 | the merge depends neither on the order of items nor on repetitions |
| `Paging.RowsUnique` | src/data_lineage_fix_agent/lineagetx/datahub_context.py:646-651 | a merge has one sorted result |
| `Paging.ColumnCompleteOrFails` | src/data_lineage_fix_agent/lineagetx/datahub_context.py:542-660 | column-level lineage of a non-empty list is the merge of the whole list or a failure, never of a proper part |
| `Paging.ColumnExact` | src/data_lineage_fix_agent/lineagetx/datahub_context.py:542-660 | with full pages it succeeds if and only if the items agree and fit the page budget |
| `Paging.ColumnIndependent` | src/data_lineage_fix_agent/lineagetx/datahub_context.py:542-660 | two successful reads of the same items agree, whatever the page sizes, orders and cuts |
| `Paging.FallbackCompleteOrFails` | src/data_lineage_fix_agent/lineagetx/datahub_context.py:662-749 | the fallback returns the whole, duplicate-free dataset list in order, or fails |
| `SchemaPaging.Schema` | src/data_lineage_fix_agent/lineagetx/datahub_context.py:470-540 | returns exactly what the gathered schema pages mean, or an error, against any server |
| `SchemaPaging.SchemaCompleteOrFails` | src/data_lineage_fix_agent/lineagetx/datahub_context.py:470-540 | the schema is every field in order, no path twice, or a failure |
| `SchemaPaging.SchemaExact` | src/data_lineage_fix_agent/lineagetx/datahub_context.py:470-540 | with full pages it succeeds if and only if the fields are named, distinct and fit the page budget |
| `Fingerprint.ExtractGovernance` | src/data_lineage_fix_agent/lineagetx/datahub_context.py:382-434 | owners and tags as sorted sets, properties as the last association that writes each key |
| `Fingerprint.OtherTagsSorted` | src/data_lineage_fix_agent/lineagetx/datahub_context.py:291-293 | dropping the own tag keeps the order of the others |
| `Fingerprint.FingerprintSeparates` | src/data_lineage_fix_agent/lineagetx/datahub_context.py:259-318 | two reads have one payload if and only if they agree on source, fields, owners, other tags, other properties, degrees, columns and path signatures |
| `Fingerprint.SchemaSame` | src/data_lineage_fix_agent/lineagetx/datahub_context.py:281-289 | sorted field lists are equal exactly when the field sets are |
| `Fingerprint.ConsumersSame` | src/data_lineage_fix_agent/lineagetx/datahub_context.py:301-316 | the consumer list is equal exactly when the same consumers show the same degree, columns and paths |
| `Fingerprint.OwnNamesHidden` | src/data_lineage_fix_agent/lineagetx/writeback.py:17-28 | the four property URNs and qualified names are among those the fingerprint leaves out |
| `Fingerprint.VisibleForeign` | src/data_lineage_fix_agent/lineagetx/datahub_context.py:270-274 | the visible properties depend only on the associations that are not LineageTX's own |
| `Fingerprint.UpsertInvisible` | src/data_lineage_fix_agent/lineagetx/writeback.py:311-338 | one upsert of an own property changes nothing visible |
| `Fingerprint.WritebackInvisible` | src/data_lineage_fix_agent/lineagetx/writeback.py:297-374 | any sequence of own writes to any assets, complete or cut off anywhere, leaves the payload of a re-read unchanged |
| `Writeback.GroupAssets` | src/data_lineage_fix_agent/lineagetx/writeback.py:297-303 | grouping partitions the assets: each in one group, under its own record, no record twice |
| `Writeback.DataHubMigrationWriter.Upsert` | src/data_lineage_fix_agent/lineagetx/writeback.py:311-340 | applies the groups in order until a call does not report success; the journal is numbered 1..n |
| `Writeback.DataHubMigrationWriter.ReadBack` | src/data_lineage_fix_agent/lineagetx/writeback.py:376-462 | proves the write if and only if some attempt within the budget shows all four assets with their own values and the tag; journal numbers go on 1..n |
| `Writeback.DataHubMigrationWriter.Successful` | src/data_lineage_fix_agent/lineagetx/writeback.py:413-436 | counts exactly the matching assets, or those the reported mutations cover when the fetch failed |
| `Writeback.DataHubMigrationWriter.WriteAssets` | src/data_lineage_fix_agent/lineagetx/writeback.py:267-513 | refuses bad input untouched; otherwise changes DataHub by its own writes only, succeeds if and only if a read-back in the budget proves it whatever the mutations reported, and always succeeds without faults and with one true read-back |
| `Writeback.RetrySucceeds` | src/data_lineage_fix_agent/lineagetx/writeback.py:376-476 | from any state earlier attempts left, a run without faults writes what a true read-back proves |
| `Writeback.RunSets` | src/data_lineage_fix_agent/lineagetx/writeback.py:311-338 | a run without faults sets each asset's four properties to its own record's values only |
| `Writeback.LastWriterWins` | src/data_lineage_fix_agent/lineagetx/datahub_context.py:400-428 | a property reads as its last association, values deduplicated |
| `WritebackOrder.Build` | src/data_lineage_fix_agent/lineagetx/coordinator.py:1254-1267 | builds the dictionary in the order of its assignments, or fails exactly on an asset without a usable first owner |
| `WritebackOrder.WriteStage` | src/data_lineage_fix_agent/lineagetx/coordinator.py:1234-1273 | a receipt means that a read-back showed exactly the records built from the stored rows; anything the checks stop writes nothing |
| `WritebackOrder.StoredEver` | src/data_lineage_fix_agent/lineagetx/state.py:254-328 | after any later calls the stored participants of a migration are the discovered ones, with their assets, kinds and owners |
| `WritebackOrder.AcceptedIffHopOrder` | src/data_lineage_fix_agent/lineagetx/writeback.py:275-294 | the coordinator's write-back passes the writer's checks if and only if participant-id order is hop order, owners agree, and COMMITTED comes with a refreshed context |
| `WritebackOrder.WritebackPasses` | src/data_lineage_fix_agent/lineagetx/coordinator.py:1243-1271 | the same for every discovered migration after any later calls, from the listing to the writer |
| `WritebackOrder.OutOfOrder` | src/data_lineage_fix_agent/lineagetx/writeback.py:275-280 | an admissible discovery whose ids are not in hop order: no write-back of it ever passes, whatever is called later |
| `SemanticRename.CountIsMentions` | src/data_lineage_fix_agent/lineagetx/participants/semantic_approval.py:171-183 | the recursive count is the multiplicity of the name among all keys and string leaves |
| `SemanticRename.CountIgnoresKeyOrder` | src/data_lineage_fix_agent/lineagetx/proposals.py:257-265 | writing with sorted keys, at every depth, changes no count |
| `SemanticRename.LookupSorted` | src/data_lineage_fix_agent/lineagetx/participants/semantic_approval.py:117-120 | sorting keys changes no lookup |
| `SemanticRename.EditLowersByTwo` | src/data_lineage_fix_agent/lineagetx/participants/semantic_approval.py:112-118 | on a pending document the edit removes exactly two mentions of the old field |
| `SemanticRename.EditRenames` | src/data_lineage_fix_agent/lineagetx/participants/semantic_approval.py:112-120 | the rewritten document has the dimension and its source renamed and the old one gone |
| `SemanticRename.ApprovedIffTwo` | src/data_lineage_fix_agent/lineagetx/participants/semantic_approval.py:234-253 | the approved check accepts the edit if and only if the count was 2 and both schemas have the new field |
| `SemanticRename.ThreeMentionsRejected` | src/data_lineage_fix_agent/lineagetx/participants/semantic_approval.py:171-253 | a loaded document with three mentions passes the pending check and fails the approved one under any schemas |
| `SemanticRename.SemanticApprovalParticipant.Prepare` | src/data_lineage_fix_agent/lineagetx/participants/semantic_approval.py:55-158 | writes nothing without an approval or after a restored failure; verifies if and only if bound, unchanged since the snapshot, approved, pending with count 2, covered by both schemas and written; the file is left otherwise exactly when the restoring write fails too |
| `IdentifierRename.Subn` | src/data_lineage_fix_agent/lineagetx/participants/dbt_sql.py:93-96 | the loop is the left-to-right scan for boundary-guarded matches |
| `IdentifierRename.Tokens` | src/data_lineage_fix_agent/lineagetx/participants/dbt_sql.py:93-95 | every text is a sequence of maximal identifier runs and other characters |
| `IdentifierRename.SubnRenamesRuns` | src/data_lineage_fix_agent/lineagetx/participants/dbt_sql.py:93-96 | the scan equals renaming the maximal runs equal to the name, and its count is their number |
| `IdentifierRename.TokensUnique` | src/data_lineage_fix_agent/lineagetx/participants/dbt_sql.py:93-96 | a text has only one such sequence |
| `IdentifierRename.NoOldRunRemains` | src/data_lineage_fix_agent/lineagetx/participants/dbt_sql.py:93-112 | afterwards no run is the old name, each old run has become a new one in its place, everything else is as before |
| `IdentifierRename.RenamingBackRestores` | src/data_lineage_fix_agent/lineagetx/participants/dbt_sql.py:93-96 | renaming back restores the text if and only if the new name was not already a run |
| `IdentifierRename.DbtSqlParticipant.Prepare` | src/data_lineage_fix_agent/lineagetx/participants/dbt_sql.py:49-133 | the file, unchanged since its snapshot, is renamed with exactly the expected replacements, or left as it was, or its restoring write failed; when each happens, exactly |
| `MappingRename.RenameMapping` | src/data_lineage_fix_agent/lineagetx/participants/airflow_mapping.py:216-229 | carries each pair to its renamed pair in order; absent and collision exactly when the old name is nowhere, and when both names are keys |
| `MappingRename.NoOldNameLeft` | src/data_lineage_fix_agent/lineagetx/participants/airflow_mapping.py:216-229 | no key or value is the old name afterwards |
| `MappingRename.ReverseRestores` | src/data_lineage_fix_agent/lineagetx/participants/airflow_mapping.py:216-229 | renaming back restores the mapping if and only if the new name was not in it |
| `MappingRename.ProposalAccepted` | src/data_lineage_fix_agent/lineagetx/proposals.py:200-210 | a proposal made from a mapping is accepted exactly when both files still hold that mapping and both schemas have the new name and every other name of it |
| `MappingRename.AcceptedIsTheRename` | src/data_lineage_fix_agent/lineagetx/participants/airflow_mapping.py:94-147 | any accepted candidate holds exactly the renamed pairs of the mapping in the file |
| `MappingRename.AirflowMappingParticipant.WriteBoth` | src/data_lineage_fix_agent/lineagetx/participants/airflow_mapping.py:149-172 | both files new, or both original when the restores succeed; a failed restore is reported and the other file is original |
| `MappingRename.AirflowMappingParticipant.Prepare` | src/data_lineage_fix_agent/lineagetx/participants/airflow_mapping.py:58-176 | refuses untouched if and only if unbound, unparsable or not accepted; otherwise success means both files new, and any failure is what the restores left |
| `StatusParser.GitStatusPaths` | src/data_lineage_fix_agent/lineagetx/worktrees.py:168-197 | the loop yields exactly what the records mean, or rejects them |
| `StatusParser.SplitTerminated` | src/data_lineage_fix_agent/lineagetx/worktrees.py:178-178 | splitting NUL-terminated fields gives the fields back |
| `StatusParser.ParsePrint` | src/data_lineage_fix_agent/lineagetx/worktrees.py:168-197 | parsing what Git prints for any records gives the sorted set of all their paths, both sides of renames and copies, and rejects exactly the outputs with an unsafe path |
| `StatusParser.ParsePrintNormal` | src/data_lineage_fix_agent/lineagetx/worktrees.py:168-197 | on normalised safe paths the result is the sorted set of the paths themselves |
| `StatusParser.TruncatedRenameRejected` | src/data_lineage_fix_agent/lineagetx/worktrees.py:191-193 | a rename or copy cut off before its source path is rejected, with or without its NUL |
| `ResumeSnapshot.WorkRoot.StageForReset` | scripts/run_lineagetx_live.py:87-106 | verifies and moves the one copy aside, or fails without touching it |
| `ResumeSnapshot.WorkRoot.RestoreStaged` | scripts/run_lineagetx_live.py:109-122 | moves the staged copy back, or fails without touching it |
| `ResumeSnapshot.WorkRoot.Resume` | scripts/run_lineagetx_live.py:466-483 | an attempt that dies after any number of effects leaves the specified disk, and works from the snapshot it found |
| `ResumeSnapshot.WorkRoot.ResumeUntilCleanup` | scripts/run_lineagetx_live.py:801-805 | attempt after attempt, the snapshot stays until a cleanup begins |
| `ResumeSnapshot.NeverLostOverAttempts` | scripts/run_lineagetx_live.py:87-122 | from one copy, any number of attempts dying anywhere leaves exactly one copy with the same contents, until a cleanup begins |
| `ResumeSnapshot.FinishesAfterFailures` | scripts/run_lineagetx_live.py:466-483 | after any failed attempts an attempt that runs through still finds its snapshot, and then leaves none |
| `ResumeSnapshot.StagesExactlyOneCopy` | scripts/run_lineagetx_live.py:87-106 | staging goes ahead exactly on one validly signed copy; otherwise nothing changes |

## Left out

- Timestamps, HTTPS URL checks and identifier syntax of the records: `utc_now` and the URLs are parameters or absent, and record constructors check only what later steps rely on.
- JSON text: `json.dumps` followed by `json.loads` is taken to give the same tree, with keys sorted where the source sorts them; payload fields that only document an event are left empty.
- A blank string is one of ASCII blanks; Unicode blanks and digits are not modelled.
- SHA-256 and HMAC: the fingerprint is its payload, a snapshot's signature check is a predicate on its text.
- SQLite, the DataHub MCP transport, the GitHub REST client, Git subprocesses and async scheduling: each is an atomic step that may fail before or after taking effect.
- Request titles and bodies, the repositories of candidates and their changed files: part of the publisher's equality test only.
- `LocalReceiptPublisher`: the same stage, reconcile and release without a server, so only easier members.
- Publishers whose API object lacks `find_pull_request` or `get_commit_status`: without them a retry cannot find what it created.
- Concurrent publish calls, pull requests closed in between and other writers of the status context: excluded, as the source's once-only claim excludes them.
- `prepare` and `approve` as methods of the coordinator object: they are steps of the Protocol module only; the proposal, evidence and session dictionaries they fill appear as the answers of the outside world.
- In the Protocol module a candidate worktree is an entry in the set of written worktrees; that the semantic adapter itself writes nothing before an approval is a separate contract (SemanticApprovalParticipant.Prepare).
- A read followed by a compare-and-set on the value read is one step of the Protocol module: a stale read can only make the transaction fail, which every step may do anyway.
- GitHub approval verification (actor, URL and body checks): an approval reaches the coordinator verified or not at all.
- SQL and Python parsing, DuckDB compilation and the splice of the Python assignment: their results are answers of the outside world.
- Fingerprint.WritebackInvisible: assumes that the four property URNs carry LineageTX's own qualified names or none, and that an upsert replaces all earlier associations of its property; how DataHub orders associations is not modelled.
- Writeback.RetrySucceeds: says nothing about DataHub read-back delays beyond the ten attempts; the pauses between attempts are not modelled.
- Structured property values are strings or real numbers; the text a value of another JSON type would be turned into is not modelled.
- A degree text is its one number, if there is exactly one; a tool trace is the name of its tool.
- The binding of session, trusted policy and proposal in the participants' adapters is one flag, `bound`; file hashes are compared as contents.
- The evidence URL of a write-back is a parameter; that it is an HTTPS URL is not checked.
- `MigrationRecord`, `StateEvent` and listing methods that only read rows, and evidence files and their manifests: only easy members.
- Worktree creation, branch and ref checks and `validate_allowlist`: the behaviour is Git's.
- The single-SQL agent, the live runner outside the resume sidecar, seeding scripts, command line and demo pages.
