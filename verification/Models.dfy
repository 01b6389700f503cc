/** The LineageTX records: statuses, their transition tables, participants and receipts. */
module Models {
  import opened Wrappers
  import opened Json
  import Paths

  datatype MigrationStatus = Detected | Preparing | NeedsApproval | Prepared | Committed | Aborted

  datatype ParticipantKind = DbtSql | AirflowMapping | SemanticApproval

  datatype ParticipantStatus = Discovered | Preparing | NeedsApproval | Verified | Failed | Committed | Aborted

  datatype ReceiptKind = CandidateCommit | CoordinatedPr | ProducerGateReleased

  function MigrationTargets(current: MigrationStatus): set<MigrationStatus> {
    match current
    case Detected => {MigrationStatus.Preparing, MigrationStatus.Aborted}
    case Preparing => {MigrationStatus.NeedsApproval, MigrationStatus.Prepared, MigrationStatus.Aborted}
    case NeedsApproval => {MigrationStatus.Prepared, MigrationStatus.Aborted}
    case Prepared => {MigrationStatus.Committed, MigrationStatus.Aborted}
    case Committed => {}
    case Aborted => {}
  }

  function ParticipantTargets(current: ParticipantStatus): set<ParticipantStatus> {
    match current
    case Discovered => {ParticipantStatus.Preparing, ParticipantStatus.Failed, ParticipantStatus.Aborted}
    case Preparing =>
      {ParticipantStatus.NeedsApproval, ParticipantStatus.Verified, ParticipantStatus.Failed, ParticipantStatus.Aborted}
    case NeedsApproval => {ParticipantStatus.Preparing, ParticipantStatus.Failed, ParticipantStatus.Aborted}
    case Verified => {ParticipantStatus.Committed, ParticipantStatus.Aborted}
    case Failed => {ParticipantStatus.Preparing, ParticipantStatus.Aborted}
    case Committed => {}
    case Aborted => {}
  }

  predicate CanTransition(current: MigrationStatus, target: MigrationStatus) {
    target in MigrationTargets(current)
  }

  predicate CanTransitionParticipant(current: ParticipantStatus, target: ParticipantStatus) {
    target in ParticipantTargets(current)
  }

  predicate IsTerminal(status: MigrationStatus) {
    status.Committed? || status.Aborted?
  }

  predicate IsHex(c: char) {
    '0' <= c <= '9' || 'a' <= c <= 'f' || 'A' <= c <= 'F'
  }

  /** A 40- or 64-character hexadecimal commit name. */
  predicate IsCommitSha(s: string) {
    (|s| == 40 || |s| == 64) && forall i :: 0 <= i < |s| ==> IsHex(s[i])
  }

  predicate IsBlank(s: string) {
    s == "" || (s[0] in {' ', '\t', '\n', '\r'} && IsBlank(s[1..]))
  }

  datatype Intent = Intent(
    migrationId: string,
    producerRepository: string,
    producerHeadSha: string,
    sourceAssetUrn: string,
    oldField: string,
    newField: string)
  {
    /** The text an owner approves. */
    function Mapping(): string { oldField + " -> " + newField }
  }

  datatype Participant = Participant(
    participantId: string,
    migrationId: string,
    kind: ParticipantKind,
    assetUrn: string,
    ownerUrns: seq<string>,
    files: seq<string>,
    status: ParticipantStatus,
    version: nat,
    candidateSha: string,
    evidenceLinks: seq<string>)

  datatype ApprovalReceipt = ApprovalReceipt(
    migrationId: string,
    participantId: string,
    ownerUrn: string,
    approvedMapping: string,
    evidenceUrl: string)
  {
    function ToDict(): Json {
      JObject([
        Member("approved_mapping", JString(approvedMapping)),
        Member("evidence_url", JString(evidenceUrl)),
        Member("migration_id", JString(migrationId)),
        Member("owner_urn", JString(ownerUrn)),
        Member("participant_id", JString(participantId))])
    }
  }

  function KindName(kind: ReceiptKind): string {
    match kind
    case CandidateCommit => "CANDIDATE_COMMIT"
    case CoordinatedPr => "COORDINATED_PR"
    case ProducerGateReleased => "PRODUCER_GATE_RELEASED"
  }

  function KindNamed(name: string): Option<ReceiptKind> {
    if name == "CANDIDATE_COMMIT" then Some(CandidateCommit)
    else if name == "COORDINATED_PR" then Some(CoordinatedPr)
    else if name == "PRODUCER_GATE_RELEASED" then Some(ProducerGateReleased)
    else None
  }

  datatype CoordinationRecord = CoordinationRecord(
    migrationId: string,
    kind: ReceiptKind,
    reference: string,
    recordedAt: string,
    commitSha: string,
    evidenceUrl: string)
  {
    /** What the constructor demands; `merged` is never true, so it is not a field. */
    predicate WellFormed() {
      && !IsBlank(reference)
      && (kind.CandidateCommit? ==> IsCommitSha(commitSha))
      && (kind.ProducerGateReleased? ==> "check-run:" <= reference)
    }

    function ToDict(): Json {
      JObject([
        Member("commit_sha", JString(commitSha)),
        Member("evidence_url", JString(evidenceUrl)),
        Member("kind", JString(KindName(kind))),
        Member("merged", JBool(false)),
        Member("migration_id", JString(migrationId)),
        Member("recorded_at", JString(recordedAt)),
        Member("reference", JString(reference))])
    }
  }

  type CoordinationReceipt = r: CoordinationRecord | r.WellFormed()
    witness CoordinationRecord("m", CoordinatedPr, "r", "", "", "")

  function ReceiptFromDict(value: Json): Option<CoordinationReceipt> {
    if !value.JObject? then None
    else
      match (StringAt(value.members, "migration_id"), StringAt(value.members, "kind"),
             StringAt(value.members, "reference"), StringAt(value.members, "recorded_at"),
             StringAt(value.members, "commit_sha"), StringAt(value.members, "evidence_url"),
             Lookup(value.members, "merged"))
      case (Some(m), Some(kind), Some(reference), Some(at), Some(sha), Some(url), Some(JBool(false))) =>
        if KindNamed(kind).None? then None
        else
          var r := CoordinationRecord(m, KindNamed(kind).value, reference, at, sha, url);
          if r.WellFormed() then Some(r) else None
      case _ => None
  }

  function ReceiptDicts(receipts: seq<CoordinationReceipt>): (r: seq<Json>)
    ensures |r| == |receipts|
  {
    if receipts == [] then [] else [receipts[0].ToDict()] + ReceiptDicts(receipts[1..])
  }

  function ReceiptsFromDicts(values: seq<Json>): Option<seq<CoordinationReceipt>> {
    if values == [] then Some([])
    else
      match (ReceiptFromDict(values[0]), ReceiptsFromDicts(values[1..]))
      case (Some(r), Some(rest)) => Some([r] + rest)
      case _ => None
  }

  /** Where `ToDict` puts each member of a receipt. */
  lemma ReceiptMembers(r: CoordinationRecord)
    ensures r.ToDict().JObject?
    ensures var ms := r.ToDict().members;
            && |ms| == 7
            && ms[0] == Member("commit_sha", JString(r.commitSha))
            && ms[1] == Member("evidence_url", JString(r.evidenceUrl))
            && ms[2] == Member("kind", JString(KindName(r.kind))) && ms[3] == Member("merged", JBool(false))
            && ms[4] == Member("migration_id", JString(r.migrationId))
            && ms[5] == Member("recorded_at", JString(r.recordedAt))
            && ms[6] == Member("reference", JString(r.reference))
  {}

  lemma KindRoundTrip(kind: ReceiptKind)
    ensures KindNamed(KindName(kind)) == Some(kind)
  {}

  lemma ReceiptRoundTrip(r: CoordinationReceipt)
    ensures ReceiptFromDict(r.ToDict()) == Some(r)
  {
    hide Lookup, KindName, KindNamed, CoordinationRecord.ToDict, CoordinationRecord.WellFormed;
    ReceiptMembers(r);
    var ms := r.ToDict().members;
    KindRoundTrip(r.kind);
    LookupAt(ms, 0);
    LookupAt(ms, 1);
    LookupAt(ms, 2);
    LookupAt(ms, 3);
    LookupAt(ms, 4);
    LookupAt(ms, 5);
    LookupAt(ms, 6);
  }

  lemma {:induction false} ReceiptsRoundTrip(receipts: seq<CoordinationReceipt>)
    ensures ReceiptsFromDicts(ReceiptDicts(receipts)) == Some(receipts)
  {
    if receipts != [] {
      ReceiptRoundTrip(receipts[0]);
      ReceiptsRoundTrip(receipts[1..]);
      var dicts := ReceiptDicts(receipts);
      assert dicts[1..] == ReceiptDicts(receipts[1..]);
      assert receipts == [receipts[0]] + receipts[1..];
    }
  }

  datatype CleanupRecord = CleanupRecord(
    migrationId: string,
    worktreesRemoved: seq<string>,
    branchesDeleted: seq<string>,
    cleanupErrors: seq<string>,
    recordedAt: string)
  {
    /** The constructor's demands; a deployed rollback can never be claimed. */
    predicate WellFormed() {
      && (forall i :: 0 <= i < |worktreesRemoved| ==> Paths.IsSafe(worktreesRemoved[i]))
      && (forall i :: 0 <= i < |branchesDeleted| ==> "lineagetx/" <= branchesDeleted[i])
    }

    function ToDict(): Json {
      JObject([
        Member("candidate_branches_deleted", Strings(branchesDeleted)),
        Member("cleanup_errors", Strings(cleanupErrors)),
        Member("deployed_systems_rolled_back", JBool(false)),
        Member("migration_id", JString(migrationId)),
        Member("recorded_at", JString(recordedAt)),
        Member("scope", JString("unmerged_candidate_changes_only")),
        Member("worktrees_removed", Strings(worktreesRemoved))])
    }
  }

  type CleanupReceipt = r: CleanupRecord | r.WellFormed()
    witness CleanupRecord("m", [], [], [], "")

  function ListAt(members: seq<Member>, key: string): Option<seq<string>> {
    match Lookup(members, key)
    case Some(value) => StringList(value)
    case None => None
  }

  function CleanupFromDict(value: Json): Option<CleanupReceipt> {
    if !value.JObject? then None
    else
      match (StringAt(value.members, "migration_id"), ListAt(value.members, "worktrees_removed"),
             ListAt(value.members, "candidate_branches_deleted"), ListAt(value.members, "cleanup_errors"),
             StringAt(value.members, "recorded_at"), Lookup(value.members, "deployed_systems_rolled_back"))
      case (Some(m), Some(worktrees), Some(branches), Some(errors), Some(at), Some(JBool(false))) =>
        var r := CleanupRecord(m, worktrees, branches, errors, at);
        if r.WellFormed() then Some(r) else None
      case _ => None
  }

  lemma CleanupRoundTrip(r: CleanupReceipt)
    ensures CleanupFromDict(r.ToDict()) == Some(r)
  {
    StringsRoundTrip(r.worktreesRemoved);
    StringsRoundTrip(r.branchesDeleted);
    StringsRoundTrip(r.cleanupErrors);
    var ms := r.ToDict().members;
    forall i | 0 <= i < |ms| ensures Lookup(ms, ms[i].key) == Some(ms[i].value) { LookupAt(ms, i); }
    assert ms[0].key == "candidate_branches_deleted" && ms[1].key == "cleanup_errors";
    assert ms[2].key == "deployed_systems_rolled_back" && ms[3].key == "migration_id";
    assert ms[4].key == "recorded_at" && ms[6].key == "worktrees_removed";
  }
}
