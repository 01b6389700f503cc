/** The store as the object its callers hold: four tables updated in place, one transaction per method. */
module StateStore {
  import opened Wrappers
  import opened Json
  import opened Models
  import opened Ordering
  import opened StoreSpec
  import opened StoreInvariant
  import opened StoreRuns

  /** A transaction either leaves exactly the specified store or changes nothing and reports its error. */
  ghost predicate Transacts<T>(before: Store, after: Store, spec: Result<Store, StoreError>, r: Result<T, StoreError>) {
    match spec
    case Success(t) => r.Success? && after == t
    case Failure(e) => r == Failure(e) && after == before
  }

  lemma NothingMissing<T>(required: set<T>, supplied: set<T>)
    ensures required <= supplied <==> required - supplied == {}
  {
    forall x | x in required && required - supplied == {} ensures x in supplied {
      assert x !in required - supplied;
    }
  }

  lemma ColumnsAgree(s: Store, p: string)
    requires StoreInvariant.Valid(s) && p in s.participants
    ensures s.participants[p].record.status == s.participants[p].status
    ensures s.participants[p].record.version == s.participants[p].version
  {
    assert ParticipantOk(s, p);
  }

  lemma SelectedExist(s: Store, m: string, ids: seq<string>)
    requires ids == Listing(ParticipantsOf(s, m))
    ensures forall i :: 0 <= i < |ids| ==> ids[i] in s.participants
  {
    assert forall i :: 0 <= i < |ids| ==> ids[i] in ids;
  }

  lemma MoveCommits(s: Store, p: string, target: ParticipantStatus, expected: ParticipantStatus, v: nat,
                    eventType: string, payload: seq<Member>, sha: Option<string>, links: Option<seq<string>>)
    requires StoreInvariant.Valid(s)
    ensures var spec := StoreSpec.TransitionParticipant(s, p, target, expected, v, eventType, payload, sha, links);
            spec.Success? ==> StoreInvariant.Valid(spec.value)
  {
    hide StoreInvariant.Valid, Grows, TransitionParticipant;
    StepKeeps(s, Move(p, target, expected, v, eventType, payload, sha, links));
  }

  lemma TransitionCommits(s: Store, m: string, target: MigrationStatus, expected: MigrationStatus, v: nat,
                          eventType: string, payload: seq<Member>, receipts: seq<CoordinationReceipt>)
    requires StoreInvariant.Valid(s)
    ensures var spec := StoreSpec.TransitionMigration(s, m, target, expected, v, eventType, payload, receipts);
            spec.Success? ==> StoreInvariant.Valid(spec.value)
  {
    hide StoreInvariant.Valid, Grows, TransitionMigration;
    StepKeeps(s, Transition(m, target, expected, v, eventType, payload, receipts));
  }

  class SQLiteStateStore {
    var migrations: map<string, MigrationRow>
    var participants: map<string, ParticipantRow>
    var approvals: map<ApprovalKey, ApprovalReceipt>
    var events: seq<Event>

    ghost function State(): Store
      reads this
    {
      Store(migrations, participants, approvals, events)
    }

    ghost predicate Valid()
      reads this
    {
      StoreInvariant.Valid(State())
    }

    constructor ()
      ensures Valid() && State() == EMPTY
    {
      migrations, participants, approvals, events := map[], map[], map[], [];
    }

    predicate HasMigrationEvent(m: string, eventType: string)
      reads this
    {
      HasEvent(events, m, eventType)
    }

    method AppendEvent(m: string, eventType: string, change: Change, version: nat, payload: seq<Member>)
      modifies this`events
      ensures State() == Append(old(State()), m, eventType, change, version, payload)
    {
      var sequence := MaxSequence(events, m) + 1;
      events := events + [Event(m, sequence, eventType, change, version, payload)];
    }

    /** The participant INSERTs of one transaction; a taken primary key stops them half way. */
    method InsertParticipants(ps: seq<Participant>) returns (inserted: bool)
      requires Distinct(Ids(ps))
      modifies this`participants
      ensures inserted <==> forall i :: 0 <= i < |ps| ==> ps[i].participantId !in old(participants)
      ensures inserted ==> participants == InsertAll(old(participants), ps)
    {
      var i := 0;
      assert ps[0..] == ps;
      while i < |ps|
        invariant 0 <= i <= |ps|
        invariant forall j :: 0 <= j < i ==> ps[j].participantId !in old(participants)
        invariant InsertAll(old(participants), ps) == InsertAll(participants, ps[i..])
        invariant forall j :: i <= j < |ps| ==>
                    (ps[j].participantId in participants <==> ps[j].participantId in old(participants))
      {
        if ps[i].participantId in participants { return false; }
        participants := participants[ps[i].participantId := NewRow(ps[i])];
        assert ps[i..][1..] == ps[i + 1..];
        forall j | i < j < |ps| ensures ps[j].participantId != ps[i].participantId {
          assert Ids(ps)[i] != Ids(ps)[j];
        }
        i := i + 1;
      }
      inserted := true;
    }

    method CreateMigration(intent: Intent, ps: seq<Participant>) returns (r: Result<MigrationRow, StoreError>)
      requires Valid()
      modifies this
      ensures Valid()
      ensures Transacts(old(State()), State(), StoreSpec.CreateMigration(old(State()), intent, ps), r)
      ensures r.Success? ==> intent.migrationId in migrations && r.value == migrations[intent.migrationId]
    {
      hide StoreInvariant.Valid, MaxSequence, Grows, InsertAll;
      StepKeeps(State(), Create(intent, ps));
      var m := intent.migrationId;
      if exists i :: 0 <= i < |ps| && ps[i].migrationId != m { return Failure(InvalidRequest); }
      if !Distinct(Ids(ps)) { return Failure(InvalidRequest); }
      if m in migrations { return Failure(MigrationAlreadyExists); }
      var savedMigrations, savedParticipants := migrations, participants;
      migrations := migrations[m := MigrationRow(intent, MigrationStatus.Detected, 0)];
      var inserted := InsertParticipants(ps);
      if !inserted {
        migrations, participants := savedMigrations, savedParticipants;
        return Failure(IntegrityError);
      }
      AppendEvent(m, "MIGRATION_DETECTED", MigrationChange(None, MigrationStatus.Detected), 0,
                  [Member("participant_ids", Strings(Ids(ps)))]);
      r := Success(migrations[m]);
    }

    method ArmPublicationGate(m: string, expectedVersion: nat) returns (r: Result<(), StoreError>)
      requires Valid()
      modifies this`events
      ensures Valid()
      ensures Transacts(old(State()), State(), StoreSpec.ArmPublicationGate(old(State()), m, expectedVersion), r)
    {
      hide StoreInvariant.Valid, MaxSequence, Grows;
      StepKeeps(State(), Arm(m, expectedVersion));
      if m !in migrations { return Failure(MigrationNotFound); }
      var row := migrations[m];
      if !row.status.Prepared? || row.version != expectedVersion { return Failure(StateConflict); }
      if HasMigrationEvent(m, ABORT_RESERVED) { return Failure(PublicationReconciliationRequired); }
      if HasMigrationEvent(m, GATE_ARMED) { return Success(()); }
      AppendEvent(m, GATE_ARMED, MigrationChange(Some(row.status), row.status), row.version, ArmedPayload());
      r := Success(());
    }

    method ReserveAbortCleanup(m: string, expected: MigrationStatus, expectedVersion: nat)
      returns (r: Result<(), StoreError>)
      requires Valid()
      modifies this`events
      ensures Valid()
      ensures Transacts(old(State()), State(),
                        StoreSpec.ReserveAbortCleanup(old(State()), m, expected, expectedVersion), r)
    {
      hide StoreInvariant.Valid, MaxSequence, Grows;
      StepKeeps(State(), Reserve(m, expected, expectedVersion));
      if m !in migrations { return Failure(MigrationNotFound); }
      var row := migrations[m];
      if row.status != expected || row.version != expectedVersion { return Failure(StateConflict); }
      if HasMigrationEvent(m, GATE_ARMED) { return Failure(PublicationReconciliationRequired); }
      if HasMigrationEvent(m, ABORT_RESERVED) { return Success(()); }
      AppendEvent(m, ABORT_RESERVED, MigrationChange(Some(row.status), row.status), row.version, ReservedPayload());
      r := Success(());
    }

    /** The participant guards of PREPARED and COMMITTED, read inside the same transaction. */
    method CheckParticipants(m: string, target: MigrationStatus, receipts: seq<CoordinationReceipt>)
      returns (refused: Option<StoreError>)
      ensures refused ==
              if target.Prepared? && !PreparationGuard(State(), m) then Some(PreparationGuardFailed)
              else if target.Committed? && !CommitGuard(State(), m, receipts) then Some(CommitGuardFailed)
              else None
    {
      hide IsCommitSha;
      var rows := set p | p in participants && participants[p].migrationId == m;
      assert rows == ParticipantsOf(State(), m);
      if target.Prepared? {
        if rows == {} { return Some(PreparationGuardFailed); }
        if exists p :: p in rows &&
                       !(participants[p].status.Verified? && IsCommitSha(participants[p].record.candidateSha)) {
          return Some(PreparationGuardFailed);
        }
      } else if target.Committed? {
        if exists p :: p in rows && !participants[p].status.Verified? && !participants[p].status.Committed? {
          return Some(CommitGuardFailed);
        }
        var expected := set p | p in participants && participants[p].migrationId == m ::
          participants[p].record.candidateSha;
        var supplied := CandidateShas(receipts);
        assert expected == Shas(State(), m);
        NothingMissing(expected, supplied);
        if expected - supplied != {} { return Some(CommitGuardFailed); }
      }
      refused := None;
    }

    method TransitionMigration(
      m: string, target: MigrationStatus, expected: MigrationStatus, expectedVersion: nat,
      eventType: string, payload: seq<Member>, receipts: seq<CoordinationReceipt>)
      returns (r: Result<MigrationRow, StoreError>)
      requires Valid()
      modifies this`migrations, this`events
      ensures Valid()
      ensures Transacts(old(State()), State(),
                        StoreSpec.TransitionMigration(old(State()), m, target, expected, expectedVersion,
                                                      eventType, payload, receipts), r)
      ensures r.Success? ==> m in migrations && r.value == migrations[m]
    {
      hide StoreInvariant.Valid, MaxSequence, Grows, WithReceipts, Kinds, PreparationGuard, CommitGuard;
      TransitionCommits(State(), m, target, expected, expectedVersion, eventType, payload, receipts);
      if target.Aborted? { return Failure(IllegalStateTransition); }
      if exists i :: 0 <= i < |receipts| && receipts[i].migrationId != m { return Failure(InvalidRequest); }
      var eventPayload := WithReceipts(payload, receipts);
      if target.Committed? {
        var required := {CandidateCommit, CoordinatedPr, ProducerGateReleased};
        NothingMissing(required, Kinds(receipts));
        if required - Kinds(receipts) != {} { return Failure(CommitGuardFailed); }
      }
      if m !in migrations { return Failure(MigrationNotFound); }
      var row := migrations[m];
      if row.status != expected || row.version != expectedVersion { return Failure(StateConflict); }
      if !CanTransition(row.status, target) { return Failure(IllegalStateTransition); }
      var refused := CheckParticipants(m, target, receipts);
      if refused.Some? { return Failure(refused.value); }
      migrations := migrations[m := row.(status := target, version := row.version + 1)];
      AppendEvent(m, eventType, MigrationChange(Some(row.status), target), row.version + 1, eventPayload);
      r := Success(migrations[m]);
    }

    /** `SELECT participant_id ... ORDER BY participant_id`. */
    method SelectParticipants(m: string) returns (ids: seq<string>)
      ensures ids == Listing(ParticipantsOf(State(), m))
    {
      BeforeIsOrder();
      ghost var all := ParticipantsOf(State(), m);
      var rest := set p | p in participants && participants[p].migrationId == m;
      ids := [];
      while rest != {}
        invariant rest <= all
        invariant StrictlySorted(ids, Before)
        invariant forall p :: p in all <==> p in rest || p in ids
        decreases rest
      {
        var p :| p in rest;
        ids := Insert(p, ids, Before);
        rest := rest - {p};
      }
      ListingUnique(all, ids);
    }

    /** The UPDATE and the event for one participant of an aborted migration. */
    method AbortParticipant(p: string)
      requires p in participants
      modifies this`participants, this`events
      ensures State() == AbortOne(old(State()), p)
      ensures participants.Keys == old(participants).Keys
    {
      hide MaxSequence;
      var row := participants[p];
      if IsSettled(row.status) { return; }
      var version := row.version + 1;
      participants := participants[p := row.(
        record := row.record.(status := ParticipantStatus.Aborted, version := version),
        status := ParticipantStatus.Aborted, version := version)];
      AppendEvent(row.migrationId, PARTICIPANT_ABORTED,
                  ParticipantChange(p, row.status, ParticipantStatus.Aborted), version, ReservedScope());
    }

    method AbortParticipants(m: string)
      modifies this`participants, this`events
      ensures forall i :: 0 <= i < |Listing(ParticipantsOf(old(State()), m))| ==>
                Listing(ParticipantsOf(old(State()), m))[i] in old(participants)
      ensures State() == AbortAll(old(State()), Listing(ParticipantsOf(old(State()), m)))
    {
      hide AbortOne, Listing, MaxSequence;
      var ids := SelectParticipants(m);
      SelectedExist(State(), m, ids);
      assert ids[0..] == ids;
      var i := 0;
      while i < |ids|
        invariant 0 <= i <= |ids|
        invariant forall j :: 0 <= j < |ids| ==> ids[j] in participants
        invariant AbortAll(old(State()), ids) == AbortAll(State(), ids[i..])
        invariant migrations == old(migrations) && approvals == old(approvals)
      {
        assert ids[i..][1..] == ids[i + 1..];
        AbortParticipant(ids[i]);
        i := i + 1;
      }
    }

    method AbortMigration(m: string, receipt: CleanupReceipt, expected: MigrationStatus, expectedVersion: nat)
      returns (r: Result<MigrationRow, StoreError>)
      requires Valid()
      modifies this`migrations, this`participants, this`events
      ensures Valid()
      ensures Transacts(old(State()), State(),
                        StoreSpec.AbortMigration(old(State()), m, receipt, expected, expectedVersion), r)
      ensures r.Success? ==> m in migrations && r.value == migrations[m]
    {
      hide StoreInvariant.Valid, MaxSequence, Grows, AbortOne, Listing;
      StepKeeps(State(), Abort(m, receipt, expected, expectedVersion));
      if receipt.migrationId != m { return Failure(InvalidRequest); }
      if receipt.cleanupErrors != [] { return Failure(AbortCleanupFailed); }
      if m !in migrations { return Failure(MigrationNotFound); }
      var row := migrations[m];
      if row.status != expected || row.version != expectedVersion { return Failure(StateConflict); }
      if HasMigrationEvent(m, GATE_ARMED) { return Failure(PublicationReconciliationRequired); }
      if !CanTransition(row.status, MigrationStatus.Aborted) { return Failure(IllegalStateTransition); }
      migrations := migrations[m := row.(status := MigrationStatus.Aborted, version := row.version + 1)];
      AppendEvent(m, MIGRATION_ABORTED, MigrationChange(Some(row.status), MigrationStatus.Aborted), row.version + 1,
                  [Member("cleanup", receipt.ToDict())]);
      assert ParticipantsOf(State(), m) == ParticipantsOf(old(State()), m);
      AbortParticipants(m);
      r := Success(migrations[m]);
    }

    method TransitionParticipant(
      p: string, target: ParticipantStatus, expected: ParticipantStatus, expectedVersion: nat,
      eventType: string, payload: seq<Member>, sha: Option<string>, links: Option<seq<string>>)
      returns (r: Result<Participant, StoreError>)
      requires Valid()
      modifies this`participants, this`events
      ensures Valid()
      ensures Transacts(old(State()), State(),
                        StoreSpec.TransitionParticipant(old(State()), p, target, expected, expectedVersion,
                                                        eventType, payload, sha, links), r)
      ensures r.Success? ==> p in participants && r.value == participants[p].record
    {
      hide StoreInvariant.Valid, MaxSequence, Grows, IsCommitSha, Append, ParticipantTargets, SetParticipant;
      MoveCommits(State(), p, target, expected, expectedVersion, eventType, payload, sha, links);
      if p !in participants || participants[p].migrationId !in migrations { return Failure(ParticipantNotFound); }
      var row := participants[p];
      if IsTerminal(migrations[row.migrationId].status) { return Failure(ParentMigrationTerminal); }
      if row.status != expected || row.version != expectedVersion { return Failure(StateConflict); }
      if !CanTransitionParticipant(row.status, target) { return Failure(IllegalStateTransition); }
      var value := row.record;
      if sha.Some? {
        if sha.value != "" && !IsCommitSha(sha.value) { return Failure(VerificationGuardFailed); }
        value := value.(candidateSha := sha.value);
      }
      if links.Some? { value := value.(evidenceLinks := links.value); }
      if target.Verified? && !IsCommitSha(value.candidateSha) { return Failure(VerificationGuardFailed); }
      UpdateParticipant(p, value, target, eventType, payload);
      r := Success(participants[p].record);
    }

    /** The UPDATE of one participant row, both columns and JSON, and its event. */
    method UpdateParticipant(p: string, record: Participant, target: ParticipantStatus, eventType: string,
                             payload: seq<Member>)
      requires p in participants
      modifies this`participants, this`events
      ensures State() == Append(SetParticipant(old(State()), p, record, target, old(participants[p].version) + 1),
                                old(participants[p].migrationId), eventType,
                                ParticipantChange(p, old(participants[p].status), target),
                                old(participants[p].version) + 1, payload)
      ensures p in participants
    {
      hide Append;
      var row := participants[p];
      var value := record.(status := target, version := row.version + 1);
      participants := participants[p := row.(record := value, status := target, version := row.version + 1)];
      AppendEvent(row.migrationId, eventType, ParticipantChange(p, row.status, target), row.version + 1, payload);
    }

    method RecordApproval(receipt: ApprovalReceipt) returns (r: Result<(), StoreError>)
      requires Valid()
      modifies this`approvals, this`events
      ensures Valid()
      ensures Transacts(old(State()), State(), StoreSpec.RecordApproval(old(State()), receipt), r)
    {
      hide StoreInvariant.Valid, MaxSequence, Grows;
      StepKeeps(State(), Approve(receipt));
      var p := receipt.participantId;
      if p !in participants || participants[p].migrationId != receipt.migrationId
         || receipt.migrationId !in migrations { return Failure(ParticipantNotFound); }
      var row := participants[p];
      if IsTerminal(migrations[row.migrationId].status) { return Failure(ParentMigrationTerminal); }
      if !row.status.NeedsApproval? { return Failure(ApprovalGuardFailed); }
      if !row.record.kind.SemanticApproval? { return Failure(ApprovalGuardFailed); }
      if receipt.ownerUrn !in row.record.ownerUrns { return Failure(ApprovalGuardFailed); }
      var intent := migrations[row.migrationId].intent;
      if receipt.approvedMapping != intent.Mapping() { return Failure(ApprovalGuardFailed); }
      var key := (receipt.migrationId, p, receipt.ownerUrn);
      if key in approvals { return Failure(StateConflict); }
      approvals := approvals[key := receipt];
      AppendEvent(receipt.migrationId, "OWNER_APPROVAL_RECORDED", ParticipantChange(p, row.status, row.status),
                  row.version, [Member("approval", receipt.ToDict())]);
      r := Success(());
    }

    method GetMigration(m: string) returns (r: Result<MigrationRow, StoreError>)
      ensures r == if m in migrations then Success(migrations[m]) else Failure(MigrationNotFound)
    {
      if m !in migrations { return Failure(MigrationNotFound); }
      r := Success(migrations[m]);
    }

    /** The participants of `m` in key order, each with the columns laid over its JSON record. */
    method ListParticipants(m: string) returns (r: Result<seq<Participant>, StoreError>)
      requires Valid()
      ensures r.Success? <==> m in migrations
      ensures r.Success? ==>
                && |r.value| == |Listing(ParticipantsOf(State(), m))|
                && forall i :: 0 <= i < |r.value| ==>
                     && Listing(ParticipantsOf(State(), m))[i] in participants
                     && r.value[i] == participants[Listing(ParticipantsOf(State(), m))[i]].record
      ensures r.Failure? ==> r.error == MigrationNotFound
    {
      hide StoreInvariant.Valid, Listing;
      if m !in migrations { return Failure(MigrationNotFound); }
      var ids := SelectParticipants(m);
      SelectedExist(State(), m, ids);
      var rows: seq<Participant> := [];
      var i := 0;
      while i < |ids|
        invariant 0 <= i <= |ids| && |rows| == i
        invariant forall j :: 0 <= j < i ==> rows[j] == participants[ids[j]].record
      {
        var row := participants[ids[i]];
        ColumnsAgree(State(), ids[i]);
        rows := rows + [row.record.(status := row.status, version := row.version)];
        i := i + 1;
      }
      r := Success(rows);
    }
  }
}
