/**
  The durable store as a value: four tables, and one function per public mutator
  that says which error it raises or which store its write transaction leaves.
 */
module StoreSpec {
  import opened Wrappers
  import opened Json
  import opened Models
  import opened Ordering

  const GATE_ARMED := "PRODUCER_GATE_RELEASE_ARMED"
  const ABORT_RESERVED := "ABORT_CLEANUP_RESERVED"
  const MIGRATION_ABORTED := "MIGRATION_ABORTED"
  const PARTICIPANT_ABORTED := "PARTICIPANT_ABORTED_WITH_MIGRATION"

  datatype StoreError =
    | MigrationNotFound
    | MigrationAlreadyExists
    | ParticipantNotFound
    | StateConflict
    | IllegalStateTransition
    | PreparationGuardFailed
    | CommitGuardFailed
    | ApprovalGuardFailed
    | VerificationGuardFailed
    | ParentMigrationTerminal
    | AbortCleanupFailed
    | PublicationReconciliationRequired
    | IntegrityError
    | InvalidRequest

  datatype MigrationRow = MigrationRow(intent: Intent, status: MigrationStatus, version: nat)

  /** `record` is the JSON column; `status` and `version` are the separate columns beside it. */
  datatype ParticipantRow = ParticipantRow(
    migrationId: string, record: Participant, status: ParticipantStatus, version: nat)

  /** A NULL `participant_id` column marks an event of the migration itself. */
  datatype Change =
    | MigrationChange(from: Option<MigrationStatus>, to: MigrationStatus)
    | ParticipantChange(participantId: string, before: ParticipantStatus, after: ParticipantStatus)

  datatype Event = Event(
    migrationId: string, sequence: nat, eventType: string, change: Change, version: nat, payload: seq<Member>)

  type ApprovalKey = (string, string, string)

  datatype Store = Store(
    migrations: map<string, MigrationRow>,
    participants: map<string, ParticipantRow>,
    approvals: map<ApprovalKey, ApprovalReceipt>,
    events: seq<Event>)

  const EMPTY := Store(map[], map[], map[], [])

  // ---- queries -------------------------------------------------------------

  function MaxSequence(events: seq<Event>, m: string): nat {
    if events == [] then 0
    else
      var last := events[|events| - 1];
      var rest := MaxSequence(events[..|events| - 1], m);
      if last.migrationId == m && last.sequence > rest then last.sequence else rest
  }

  predicate HasEvent(events: seq<Event>, m: string, eventType: string) {
    exists i :: 0 <= i < |events| && events[i].migrationId == m && events[i].eventType == eventType
  }

  predicate Armed(s: Store, m: string) { HasEvent(s.events, m, GATE_ARMED) }

  predicate Reserved(s: Store, m: string) { HasEvent(s.events, m, ABORT_RESERVED) }

  /** The participant rows of one migration, by key. */
  function ParticipantsOf(s: Store, m: string): set<string> {
    set p | p in s.participants && s.participants[p].migrationId == m
  }

  predicate At(s: Store, m: string, status: MigrationStatus, version: nat) {
    m in s.migrations && s.migrations[m].status == status && s.migrations[m].version == version
  }

  function Shas(s: Store, m: string): set<string> {
    set p | p in s.participants && s.participants[p].migrationId == m :: s.participants[p].record.candidateSha
  }

  function CandidateShas(receipts: seq<CoordinationReceipt>): set<string> {
    set i | 0 <= i < |receipts| && receipts[i].kind.CandidateCommit? :: receipts[i].commitSha
  }

  function Kinds(receipts: seq<CoordinationReceipt>): set<ReceiptKind> {
    set i | 0 <= i < |receipts| :: receipts[i].kind
  }

  // ---- writes --------------------------------------------------------------

  function Append(s: Store, m: string, eventType: string, change: Change, version: nat, payload: seq<Member>): Store {
    s.(events := s.events + [Event(m, MaxSequence(s.events, m) + 1, eventType, change, version, payload)])
  }

  function SetMigration(s: Store, m: string, status: MigrationStatus, version: nat): Store
    requires m in s.migrations
  {
    s.(migrations := s.migrations[m := s.migrations[m].(status := status, version := version)])
  }

  /** Rewrites the JSON column together with the status and version columns. */
  function SetParticipant(s: Store, p: string, record: Participant, status: ParticipantStatus, version: nat): Store
    requires p in s.participants
  {
    s.(participants := s.participants[p :=
      s.participants[p].(record := record.(status := status, version := version),
                         status := status, version := version)])
  }

  function NewRow(p: Participant): ParticipantRow {
    ParticipantRow(
      p.migrationId, p.(status := ParticipantStatus.Discovered, version := 0), ParticipantStatus.Discovered, 0)
  }

  function InsertAll(rows: map<string, ParticipantRow>, ps: seq<Participant>): map<string, ParticipantRow>
    decreases |ps|
  {
    if ps == [] then rows else InsertAll(rows[ps[0].participantId := NewRow(ps[0])], ps[1..])
  }

  function Ids(ps: seq<Participant>): seq<string> {
    seq(|ps|, i requires 0 <= i < |ps| => ps[i].participantId)
  }

  predicate Distinct(xs: seq<string>) {
    forall i, j :: 0 <= i < j < |xs| ==> xs[i] != xs[j]
  }

  function CreateMigration(s: Store, intent: Intent, ps: seq<Participant>): Result<Store, StoreError> {
    if exists i :: 0 <= i < |ps| && ps[i].migrationId != intent.migrationId then Failure(InvalidRequest)
    else if !Distinct(Ids(ps)) then Failure(InvalidRequest)
    else if intent.migrationId in s.migrations then Failure(MigrationAlreadyExists)
    else if exists i :: 0 <= i < |ps| && ps[i].participantId in s.participants then Failure(IntegrityError)
    else
      var t := s.(
        migrations := s.migrations[intent.migrationId := MigrationRow(intent, MigrationStatus.Detected, 0)],
        participants := InsertAll(s.participants, ps));
      Success(Append(t, intent.migrationId, "MIGRATION_DETECTED",
                     MigrationChange(None, MigrationStatus.Detected), 0,
                     [Member("participant_ids", Strings(Ids(ps)))]))
  }

  function ArmedPayload(): seq<Member> {
    [Member("candidate_cleanup_permitted", JBool(false)), Member("recovery", JString("reconcile_publication"))]
  }

  function ReservedPayload(): seq<Member> {
    [Member("scope", JString("unmerged_candidate_changes_only"))]
  }

  function Stutter(s: Store, m: string, eventType: string, payload: seq<Member>): Store
    requires m in s.migrations
  {
    var row := s.migrations[m];
    Append(s, m, eventType, MigrationChange(Some(row.status), row.status), row.version, payload)
  }

  function ArmPublicationGate(s: Store, m: string, expectedVersion: nat): Result<Store, StoreError> {
    if m !in s.migrations then Failure(MigrationNotFound)
    else if !At(s, m, MigrationStatus.Prepared, expectedVersion) then Failure(StateConflict)
    else if Reserved(s, m) then Failure(PublicationReconciliationRequired)
    else if Armed(s, m) then Success(s)
    else Success(Stutter(s, m, GATE_ARMED, ArmedPayload()))
  }

  function ReserveAbortCleanup(s: Store, m: string, expected: MigrationStatus, expectedVersion: nat)
    : Result<Store, StoreError>
  {
    if m !in s.migrations then Failure(MigrationNotFound)
    else if !At(s, m, expected, expectedVersion) then Failure(StateConflict)
    else if Armed(s, m) then Failure(PublicationReconciliationRequired)
    else if Reserved(s, m) then Success(s)
    else Success(Stutter(s, m, ABORT_RESERVED, ReservedPayload()))
  }

  /** Every participant VERIFIED with a well-formed candidate commit, and at least one of them. */
  predicate PreparationGuard(s: Store, m: string) {
    && ParticipantsOf(s, m) != {}
    && forall p :: p in ParticipantsOf(s, m) ==>
         s.participants[p].status.Verified? && IsCommitSha(s.participants[p].record.candidateSha)
  }

  /** Every participant still VERIFIED (or COMMITTED), each commit named by a candidate receipt. */
  predicate CommitGuard(s: Store, m: string, receipts: seq<CoordinationReceipt>) {
    && (forall p :: p in ParticipantsOf(s, m) ==>
          s.participants[p].status.Verified? || s.participants[p].status.Committed?)
    && Shas(s, m) <= CandidateShas(receipts)
  }

  function WithReceipts(payload: seq<Member>, receipts: seq<CoordinationReceipt>): seq<Member> {
    if receipts == [] then payload else Assign(payload, "coordination_receipts", JArray(ReceiptDicts(receipts)))
  }

  function TransitionMigration(
    s: Store, m: string, target: MigrationStatus, expected: MigrationStatus, expectedVersion: nat,
    eventType: string, payload: seq<Member>, receipts: seq<CoordinationReceipt>)
    : Result<Store, StoreError>
  {
    if target.Aborted? then Failure(IllegalStateTransition)
    else if exists i :: 0 <= i < |receipts| && receipts[i].migrationId != m then Failure(InvalidRequest)
    else if target.Committed? && !({CandidateCommit, CoordinatedPr, ProducerGateReleased} <= Kinds(receipts)) then
      Failure(CommitGuardFailed)
    else if m !in s.migrations then Failure(MigrationNotFound)
    else if !At(s, m, expected, expectedVersion) then Failure(StateConflict)
    else if !CanTransition(expected, target) then Failure(IllegalStateTransition)
    else if target.Prepared? && !PreparationGuard(s, m) then Failure(PreparationGuardFailed)
    else if target.Committed? && !CommitGuard(s, m, receipts) then Failure(CommitGuardFailed)
    else
      Success(Append(SetMigration(s, m, target, expectedVersion + 1), m, eventType,
                     MigrationChange(Some(expected), target), expectedVersion + 1, WithReceipts(payload, receipts)))
  }

  predicate IsSettled(status: ParticipantStatus) { status.Committed? || status.Aborted? }

  /** One turn of the participant loop in `abort_migration`. */
  function AbortOne(s: Store, p: string): Store
    requires p in s.participants
  {
    var row := s.participants[p];
    if IsSettled(row.status) then s
    else
      Append(SetParticipant(s, p, row.record, ParticipantStatus.Aborted, row.version + 1),
             row.migrationId, PARTICIPANT_ABORTED,
             ParticipantChange(p, row.status, ParticipantStatus.Aborted), row.version + 1, ReservedScope())
  }

  function ReservedScope(): seq<Member> {
    [Member("cleanup_scope", JString("unmerged_candidate_changes_only"))]
  }

  function AbortAll(s: Store, ps: seq<string>): Store
    requires forall i :: 0 <= i < |ps| ==> ps[i] in s.participants
    decreases |ps|
  {
    if ps == [] then s else AbortAll(AbortOne(s, ps[0]), ps[1..])
  }

  ghost function AbortMigration(
    s: Store, m: string, receipt: CleanupReceipt, expected: MigrationStatus, expectedVersion: nat)
    : Result<Store, StoreError>
  {
    if receipt.migrationId != m then Failure(InvalidRequest)
    else if receipt.cleanupErrors != [] then Failure(AbortCleanupFailed)
    else if m !in s.migrations then Failure(MigrationNotFound)
    else if !At(s, m, expected, expectedVersion) then Failure(StateConflict)
    else if Armed(s, m) then Failure(PublicationReconciliationRequired)
    else if !CanTransition(expected, MigrationStatus.Aborted) then Failure(IllegalStateTransition)
    else
      var t := Append(SetMigration(s, m, MigrationStatus.Aborted, expectedVersion + 1), m, MIGRATION_ABORTED,
                      MigrationChange(Some(expected), MigrationStatus.Aborted), expectedVersion + 1,
                      [Member("cleanup", receipt.ToDict())]);
      var ps := Listing(ParticipantsOf(s, m));
      assert forall i :: 0 <= i < |ps| ==> ps[i] in ps;
      Success(AbortAll(t, ps))
  }

  /** The JSON column after the caller's commit name and evidence links are merged in. */
  function Merged(record: Participant, sha: Option<string>, links: Option<seq<string>>): Participant {
    var withSha := if sha.Some? then record.(candidateSha := sha.value) else record;
    if links.Some? then withSha.(evidenceLinks := links.value) else withSha
  }

  function TransitionParticipant(
    s: Store, p: string, target: ParticipantStatus, expected: ParticipantStatus, expectedVersion: nat,
    eventType: string, payload: seq<Member>, sha: Option<string>, links: Option<seq<string>>)
    : Result<Store, StoreError>
  {
    if p !in s.participants || s.participants[p].migrationId !in s.migrations then Failure(ParticipantNotFound)
    else
      var row := s.participants[p];
      if IsTerminal(s.migrations[row.migrationId].status) then Failure(ParentMigrationTerminal)
      else if row.status != expected || row.version != expectedVersion then Failure(StateConflict)
      else if !CanTransitionParticipant(expected, target) then Failure(IllegalStateTransition)
      else if sha.Some? && sha.value != "" && !IsCommitSha(sha.value) then Failure(VerificationGuardFailed)
      else
        var record := Merged(row.record, sha, links);
        if target.Verified? && !IsCommitSha(record.candidateSha) then Failure(VerificationGuardFailed)
        else
          Success(Append(SetParticipant(s, p, record, target, expectedVersion + 1), row.migrationId, eventType,
                         ParticipantChange(p, expected, target), expectedVersion + 1, payload))
  }

  function RecordApproval(s: Store, receipt: ApprovalReceipt): Result<Store, StoreError> {
    var p := receipt.participantId;
    var key := (receipt.migrationId, p, receipt.ownerUrn);
    if p !in s.participants || s.participants[p].migrationId != receipt.migrationId
       || receipt.migrationId !in s.migrations then Failure(ParticipantNotFound)
    else
      var row := s.participants[p];
      var migration := s.migrations[receipt.migrationId];
      if IsTerminal(migration.status) then Failure(ParentMigrationTerminal)
      else if !row.status.NeedsApproval? then Failure(ApprovalGuardFailed)
      else if !row.record.kind.SemanticApproval? then Failure(ApprovalGuardFailed)
      else if receipt.ownerUrn !in row.record.ownerUrns then Failure(ApprovalGuardFailed)
      else if receipt.approvedMapping != migration.intent.Mapping() then Failure(ApprovalGuardFailed)
      else if key in s.approvals then Failure(StateConflict)
      else
        Success(Append(s.(approvals := s.approvals[key := receipt]), receipt.migrationId, "OWNER_APPROVAL_RECORDED",
                       ParticipantChange(p, row.status, row.status), row.version,
                       [Member("approval", receipt.ToDict())]))
  }

  // ---- runs ----------------------------------------------------------------

  /** One call of one public mutator. */
  datatype Op =
    | Create(intent: Intent, participants: seq<Participant>)
    | Arm(m: string, expectedVersion: nat)
    | Reserve(m: string, expectedStatus: MigrationStatus, expectedVersion: nat)
    | Transition(m: string, target: MigrationStatus, expectedStatus: MigrationStatus, expectedVersion: nat,
                 eventType: string, payload: seq<Member>, receipts: seq<CoordinationReceipt>)
    | Abort(m: string, cleanup: CleanupReceipt, expectedStatus: MigrationStatus, expectedVersion: nat)
    | Move(p: string, goal: ParticipantStatus, expected: ParticipantStatus, expectedVersion: nat,
           eventType: string, payload: seq<Member>, sha: Option<string>, links: Option<seq<string>>)
    | Approve(receipt: ApprovalReceipt)

  ghost function Apply(s: Store, op: Op): Result<Store, StoreError> {
    match op
    case Create(intent, ps) => CreateMigration(s, intent, ps)
    case Arm(m, v) => ArmPublicationGate(s, m, v)
    case Reserve(m, e, v) => ReserveAbortCleanup(s, m, e, v)
    case Transition(m, target, e, v, eventType, payload, receipts) =>
      TransitionMigration(s, m, target, e, v, eventType, payload, receipts)
    case Abort(m, cleanup, e, v) => AbortMigration(s, m, cleanup, e, v)
    case Move(p, target, e, v, eventType, payload, sha, links) =>
      TransitionParticipant(s, p, target, e, v, eventType, payload, sha, links)
    case Approve(receipt) => RecordApproval(s, receipt)
  }

  /** A failed transaction rolls back. */
  ghost function Step(s: Store, op: Op): Store {
    match Apply(s, op)
    case Success(t) => t
    case Failure(_) => s
  }

  ghost function Run(s: Store, ops: seq<Op>): Store
    decreases |ops|
  {
    if ops == [] then s else Run(Step(s, ops[0]), ops[1..])
  }

  /** Callers choose event types freely; an honest one does not forge the two marker names. */
  predicate Honest(op: Op) {
    op.Transition? || op.Move? ==> op.eventType != GATE_ARMED && op.eventType != ABORT_RESERVED
  }
}
