/** What every reachable store satisfies, and what no later operation can change. */
module StoreInvariant {
  import opened Wrappers
  import opened Json
  import opened Models
  import opened Ordering
  import opened StoreSpec

  // ---- replaying the log ----------------------------------------------------

  /** `list_events`: one migration's events in order. */
  function LogOf(events: seq<Event>, m: string): seq<Event> {
    if events == [] then []
    else
      var last := events[|events| - 1];
      LogOf(events[..|events| - 1], m) + if last.migrationId == m then [last] else []
  }

  datatype Position<S> = Fresh | Position(status: S, version: nat) | Broken

  /** A legal migration event: the first one, a table edge one version up, or a stutter. */
  function AdvanceMigration(at: Position<MigrationStatus>, e: Event): Position<MigrationStatus>
    requires e.change.MigrationChange?
  {
    match e.change.from
    case None =>
      if at.Fresh? && e.change.to.Detected? && e.version == 0 then Position(MigrationStatus.Detected, 0) else Broken
    case Some(from) =>
      if at.Position? && at.status == from
         && (if from == e.change.to then e.version == at.version
             else CanTransition(from, e.change.to) && e.version == at.version + 1)
      then Position(e.change.to, e.version) else Broken
  }

  function AdvanceParticipant(at: Position<ParticipantStatus>, e: Event): Position<ParticipantStatus>
    requires e.change.ParticipantChange?
  {
    if at.Position? && at.status == e.change.before
       && (if e.change.before == e.change.after then e.version == at.version
           else CanTransitionParticipant(e.change.before, e.change.after) && e.version == at.version + 1)
    then Position(e.change.after, e.version) else Broken
  }

  /** Fold the log of migration `m`, checking every event on the way. */
  function ReplayMigration(events: seq<Event>, m: string): Position<MigrationStatus> {
    if events == [] then Fresh
    else
      var last := events[|events| - 1];
      var at := ReplayMigration(events[..|events| - 1], m);
      if last.migrationId == m && last.change.MigrationChange? then AdvanceMigration(at, last) else at
  }

  /** Fold the log of participant `p` from (DISCOVERED, 0). */
  function ReplayParticipant(events: seq<Event>, p: string): Position<ParticipantStatus> {
    if events == [] then Position(ParticipantStatus.Discovered, 0)
    else
      var last := events[|events| - 1];
      var at := ReplayParticipant(events[..|events| - 1], p);
      if last.change.ParticipantChange? && last.change.participantId == p then AdvanceParticipant(at, last) else at
  }

  lemma Snoc(events: seq<Event>, e: Event)
    ensures (events + [e])[..|events|] == events
    ensures (events + [e])[|events|] == e
  {}

  lemma ReplayAppend(events: seq<Event>, e: Event, m: string, p: string)
    ensures ReplayMigration(events + [e], m) ==
            if e.migrationId == m && e.change.MigrationChange?
            then AdvanceMigration(ReplayMigration(events, m), e) else ReplayMigration(events, m)
    ensures ReplayParticipant(events + [e], p) ==
            if e.change.ParticipantChange? && e.change.participantId == p
            then AdvanceParticipant(ReplayParticipant(events, p), e) else ReplayParticipant(events, p)
    ensures LogOf(events + [e], m) == LogOf(events, m) + if e.migrationId == m then [e] else []
  {
    Snoc(events, e);
  }

  // ---- numbering ------------------------------------------------------------

  /** Sequence numbers of `m`'s log are exactly 1..n. */
  ghost predicate Numbered(events: seq<Event>, m: string) {
    forall k :: 0 <= k < |LogOf(events, m)| ==> LogOf(events, m)[k].sequence == k + 1
  }

  lemma {:induction false} MaxIsLength(events: seq<Event>, m: string)
    requires Numbered(events, m)
    ensures MaxSequence(events, m) == |LogOf(events, m)|
  {
    if events != [] {
      var init := events[..|events| - 1];
      var log, shorter := LogOf(events, m), LogOf(init, m);
      forall k | 0 <= k < |shorter| ensures shorter[k].sequence == k + 1 {
        assert log[k] == shorter[k];
      }
      MaxIsLength(init, m);
      if events[|events| - 1].migrationId == m { assert log[|shorter|] == events[|events| - 1]; }
    }
  }

  // ---- the invariant --------------------------------------------------------

  ghost predicate MigrationOk(s: Store, m: string)
    requires m in s.migrations
  {
    && s.migrations[m].intent.migrationId == m
    && ReplayMigration(s.events, m) == Position(s.migrations[m].status, s.migrations[m].version)
  }

  ghost predicate ParticipantOk(s: Store, p: string)
    requires p in s.participants
  {
    var row := s.participants[p];
    && row.migrationId in s.migrations
    && row.record.participantId == p
    && row.record.migrationId == row.migrationId
    && row.record.status == row.status
    && row.record.version == row.version
    && (row.status.Verified? ==> IsCommitSha(row.record.candidateSha))
    && ReplayParticipant(s.events, p) == Position(row.status, row.version)
  }

  predicate IsCommitEvent(e: Event, m: string) {
    e.migrationId == m && e.change == MigrationChange(Some(MigrationStatus.Prepared), MigrationStatus.Committed)
  }

  predicate IsAbortEvent(e: Event, m: string) {
    && e.migrationId == m
    && e.change.MigrationChange?
    && e.change.to.Aborted?
    && e.change.from != Some(MigrationStatus.Aborted)
  }

  /** `e` records exactly these coordination receipts. */
  ghost predicate Records(e: Event, receipts: seq<CoordinationReceipt>) {
    Lookup(e.payload, "coordination_receipts") == Some(JArray(ReceiptDicts(receipts)))
  }

  /** A table edge, a stutter, or the announcement of a migration. */
  predicate IsEdgeOrStutter(change: Change) {
    match change
    case MigrationChange(None, to) => to.Detected?
    case MigrationChange(Some(from), to) => from == to || CanTransition(from, to)
    case ParticipantChange(_, before, after) => before == after || CanTransitionParticipant(before, after)
  }

  ghost predicate EventOk(s: Store, e: Event) {
    && e.migrationId in s.migrations
    && IsEdgeOrStutter(e.change)
    && (e.change.ParticipantChange? ==>
          && e.change.participantId in s.participants
          && s.participants[e.change.participantId].migrationId == e.migrationId)
    && (IsCommitEvent(e, e.migrationId) ==> s.migrations[e.migrationId].status.Committed?)
    && (IsAbortEvent(e, e.migrationId) ==>
          && s.migrations[e.migrationId].status.Aborted?
          && e.eventType == MIGRATION_ABORTED
          && exists c: CleanupReceipt :: c.migrationId == e.migrationId && c.cleanupErrors == []
               && Lookup(e.payload, "cleanup") == Some(c.ToDict()))
    && (e.change == MigrationChange(Some(MigrationStatus.Committed), MigrationStatus.Committed) ==>
          e.eventType == ABORT_RESERVED && e.payload == ReservedPayload())
    && (e.change == MigrationChange(Some(MigrationStatus.Aborted), MigrationStatus.Aborted) ==>
          e.eventType == ABORT_RESERVED)
  }

  ghost predicate ApprovalOk(s: Store, key: ApprovalKey)
    requires key in s.approvals
  {
    var r := s.approvals[key];
    && key == (r.migrationId, r.participantId, r.ownerUrn)
    && r.migrationId in s.migrations
    && r.participantId in s.participants
    && var row := s.participants[r.participantId];
    && row.migrationId == r.migrationId
    && row.record.kind.SemanticApproval?
    && r.ownerUrn in row.record.ownerUrns
    && r.approvedMapping == s.migrations[r.migrationId].intent.Mapping()
  }

  ghost predicate MigrationsOk(s: Store) { forall m :: m in s.migrations ==> MigrationOk(s, m) }

  ghost predicate ParticipantsOk(s: Store) { forall p :: p in s.participants ==> ParticipantOk(s, p) }

  ghost predicate EventsOk(s: Store) { forall i :: 0 <= i < |s.events| ==> EventOk(s, s.events[i]) }

  ghost predicate ApprovalsOk(s: Store) { forall k :: k in s.approvals ==> ApprovalOk(s, k) }

  ghost predicate AllNumbered(events: seq<Event>) { forall m :: Numbered(events, m) }

  /** Row by row, table by table: everything that does not depend on the phase of a migration. */
  ghost predicate Core(s: Store) {
    MigrationsOk(s) && ParticipantsOk(s) && EventsOk(s) && ApprovalsOk(s) && AllNumbered(s.events)
  }

  /** A participant of a COMMITTED migration: ready, with a commit that the commit event accounts for. */
  ghost predicate Accounted(row: ParticipantRow, receipts: seq<CoordinationReceipt>) {
    && (row.status.Verified? || row.status.Committed?)
    && IsCommitSha(row.record.candidateSha)
    && row.record.candidateSha in CandidateShas(receipts)
  }

  ghost predicate CommittedBy(s: Store, m: string, i: nat, receipts: seq<CoordinationReceipt>) {
    && i < |s.events|
    && IsCommitEvent(s.events[i], m)
    && Records(s.events[i], receipts)
    && (forall j :: 0 <= j < |s.events| && IsCommitEvent(s.events[j], m) ==> j == i)
    && (forall p :: p in ParticipantsOf(s, m) ==> Accounted(s.participants[p], receipts))
  }

  ghost predicate AbortedBy(s: Store, m: string, i: nat) {
    && i < |s.events|
    && IsAbortEvent(s.events[i], m)
    && (forall j :: 0 <= j < |s.events| && IsAbortEvent(s.events[j], m) ==> j == i)
  }

  /** The versions at which each status can be met. */
  predicate ReachableAt(status: MigrationStatus, version: nat) {
    match status
    case Detected => version == 0
    case Preparing => version == 1
    case NeedsApproval => version == 2
    case Prepared => version == 2 || version == 3
    case Committed => version == 3 || version == 4
    case Aborted => 1 <= version <= 4
  }

  ghost predicate Lifecycle(s: Store, m: string)
    requires m in s.migrations
  {
    var status := s.migrations[m].status;
    && ReachableAt(status, s.migrations[m].version)
    && (status.Prepared? || status.Committed? ==> ParticipantsOf(s, m) != {})
    && (status.Committed? ==> exists i: nat, receipts :: CommittedBy(s, m, i, receipts))
    && (status.Aborted? ==>
          && (forall p :: p in ParticipantsOf(s, m) ==> IsSettled(s.participants[p].status))
          && exists i: nat :: AbortedBy(s, m, i))
  }

  ghost predicate Valid(s: Store) {
    Core(s) && forall m :: m in s.migrations ==> Lifecycle(s, m)
  }

  predicate SameIdentity(a: Participant, b: Participant) {
    && a.participantId == b.participantId && a.migrationId == b.migrationId && a.kind == b.kind
    && a.ownerUrns == b.ownerUrns && a.assetUrn == b.assetUrn && a.files == b.files
  }

  /** What no operation undoes: rows stay, identities stay, settled phases stay, the log only grows. */
  ghost predicate Grows(s: Store, t: Store) {
    && (forall m :: m in s.migrations ==>
          && m in t.migrations
          && t.migrations[m].intent == s.migrations[m].intent
          && s.migrations[m].version <= t.migrations[m].version
          && (t.migrations[m].version == s.migrations[m].version ==> t.migrations[m].status == s.migrations[m].status)
          && (IsTerminal(s.migrations[m].status) ==> t.migrations[m] == s.migrations[m]))
    && (forall p :: p in s.participants ==>
          && p in t.participants
          && t.participants[p].migrationId == s.participants[p].migrationId
          && SameIdentity(t.participants[p].record, s.participants[p].record))
    && (forall k :: k in s.approvals ==> k in t.approvals && t.approvals[k] == s.approvals[k])
    && |s.events| <= |t.events| && s.events == t.events[..|s.events|]
  }

  /** Under honest event names the two markers exclude each other, and an armed gate pins the status. */
  ghost predicate Exclusive(s: Store) {
    && (forall m :: !(Armed(s, m) && Reserved(s, m)))
    && (forall m :: Armed(s, m) ==>
          m in s.migrations && (s.migrations[m].status.Prepared? || s.migrations[m].status.Committed?))
  }
}
