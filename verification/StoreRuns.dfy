/** The invariant over whole runs, and the theorems a reader of the store relies on. */
module StoreRuns {
  import opened Wrappers
  import opened Json
  import opened Models
  import opened Ordering
  import opened StoreSpec
  import opened StoreInvariant
  import opened StorePreservation

  lemma GrowsReflexive(s: Store)
    ensures Grows(s, s)
  {}

  lemma GrowsTransitive(s: Store, t: Store, u: Store)
    requires Grows(s, t) && Grows(t, u)
    ensures Grows(s, u)
  {
    assert s.events == u.events[..|s.events|] by {
      assert s.events == t.events[..|s.events|] == u.events[..|t.events|][..|s.events|];
    }
  }

  // ---- transition_migration -------------------------------------------------

  /** The commit event just appended accounts for every participant. */
  lemma CommittedNow(s: Store, t: Store, m: string, receipts: seq<CoordinationReceipt>)
    requires EventsOk(s) && m in s.migrations && !s.migrations[m].status.Committed?
    requires |t.events| == |s.events| + 1 && t.events[..|s.events|] == s.events
    requires IsCommitEvent(t.events[|s.events|], m) && Records(t.events[|s.events|], receipts)
    requires t.participants == s.participants && CommitGuard(s, m, receipts)
    ensures CommittedBy(t, m, |s.events|, receipts)
  {
    hide Assign, ReceiptDicts, Lookup, IsCommitSha;
    var i := |s.events|;
    forall j | 0 <= j < i ensures !IsCommitEvent(t.events[j], m) {
      assert t.events[j] == s.events[j];
      assert EventOk(s, s.events[j]);
    }
    forall p | p in ParticipantsOf(t, m) ensures Accounted(t.participants[p], receipts) {
      var sha := s.participants[p].record.candidateSha;
      assert p in ParticipantsOf(s, m);
      assert sha in Shas(s, m);
      var k :| 0 <= k < |receipts| && receipts[k].kind.CandidateCommit? && receipts[k].commitSha == sha;
      var r: CoordinationReceipt := receipts[k];
      assert r.WellFormed();
    }
  }

  lemma TransitionedLifecycle(s: Store, m: string, target: MigrationStatus, expected: MigrationStatus, v: nat,
                              eventType: string, payload: seq<Member>, receipts: seq<CoordinationReceipt>)
    requires Valid(s)
    requires TransitionMigration(s, m, target, expected, v, eventType, payload, receipts).Success?
    ensures Lifecycle(TransitionMigration(s, m, target, expected, v, eventType, payload, receipts).value, m)
  {
    hide MigrationsOk, ParticipantsOk, ApprovalsOk, AllNumbered, EventsOk, MaxSequence, CommitGuard, ReceiptDicts;
    var t := TransitionMigration(s, m, target, expected, v, eventType, payload, receipts).value;
    assert ParticipantsOf(t, m) == ParticipantsOf(s, m);
    assert Lifecycle(s, m);
    if target.Committed? {
      assert receipts != [];
      CommittedNow(s, t, m, receipts);
    } else if target.Prepared? {
      assert PreparationGuard(s, m);
    }
  }

  lemma TransitionValid(s: Store, m: string, target: MigrationStatus, expected: MigrationStatus, v: nat,
                        eventType: string, payload: seq<Member>, receipts: seq<CoordinationReceipt>)
    requires Valid(s)
    requires TransitionMigration(s, m, target, expected, v, eventType, payload, receipts).Success?
    ensures Valid(TransitionMigration(s, m, target, expected, v, eventType, payload, receipts).value)
    ensures Grows(s, TransitionMigration(s, m, target, expected, v, eventType, payload, receipts).value)
  {
    hide Core, Lifecycle, Grows, MaxSequence, Kinds, CommitGuard, PreparationGuard;
    var t := TransitionMigration(s, m, target, expected, v, eventType, payload, receipts).value;
    assert t == MoveMigration(s, m, target, v + 1, eventType, WithReceipts(payload, receipts));
    MoveMigrationGrows(s, m, target, v + 1, eventType, WithReceipts(payload, receipts));
    MoveMigrationCore(s, m, target, v + 1, eventType, WithReceipts(payload, receipts));
    forall n | n in t.migrations ensures Lifecycle(t, n) {
      if n == m {
        TransitionedLifecycle(s, m, target, expected, v, eventType, payload, receipts);
      } else {
        LifecycleFrame(s, t, n);
      }
    }
  }

  // ---- abort_migration ------------------------------------------------------

  /** `t` is `s` after some participants of `m` were aborted, each with its own event. */
  ghost predicate AbortedSome(s: Store, t: Store, m: string) {
    && Grows(s, t)
    && t.migrations == s.migrations
    && t.participants.Keys == s.participants.Keys
    && (forall p :: p in s.participants && (s.participants[p].migrationId != m || IsSettled(s.participants[p].status))
          ==> t.participants[p] == s.participants[p])
    && (forall i :: |s.events| <= i < |t.events| ==>
          t.events[i].change.ParticipantChange? && t.events[i].eventType == PARTICIPANT_ABORTED)
  }

  lemma AbortOneKeeps(s: Store, p: string)
    requires Core(s) && p in s.participants
    ensures Core(AbortOne(s, p)) && AbortedSome(s, AbortOne(s, p), s.participants[p].migrationId)
    ensures IsSettled(AbortOne(s, p).participants[p].status)
  {
    hide Core, MaxSequence;
    var row := s.participants[p];
    if !IsSettled(row.status) {
      MoveParticipantCore(s, p, row.record, ParticipantStatus.Aborted, row.version + 1,
                          PARTICIPANT_ABORTED, ReservedScope());
      MoveParticipantGrows(s, p, row.record, ParticipantStatus.Aborted, row.version + 1,
                           PARTICIPANT_ABORTED, ReservedScope());
    }
  }

  lemma AbortedSomeTransitive(s: Store, t: Store, u: Store, m: string)
    requires AbortedSome(s, t, m) && AbortedSome(t, u, m)
    ensures AbortedSome(s, u, m)
  {
    GrowsTransitive(s, t, u);
    forall i | |s.events| <= i < |u.events|
      ensures u.events[i].change.ParticipantChange? && u.events[i].eventType == PARTICIPANT_ABORTED
    {
      if i < |t.events| { assert u.events[i] == t.events[i]; }
    }
  }

  lemma AbortOneStays(s: Store, t: Store, p: string, q: string)
    requires p in s.participants && t == AbortOne(s, p) && q in s.participants
    ensures q in t.participants && t.participants[q].migrationId == s.participants[q].migrationId
  {}

  lemma {:induction false} AbortAllKeeps(s: Store, m: string, ps: seq<string>)
    requires Core(s)
    requires forall i :: 0 <= i < |ps| ==> ps[i] in s.participants && s.participants[ps[i]].migrationId == m
    ensures Core(AbortAll(s, ps)) && AbortedSome(s, AbortAll(s, ps), m)
    ensures forall i :: 0 <= i < |ps| ==> IsSettled(AbortAll(s, ps).participants[ps[i]].status)
    decreases |ps|
  {
    hide Core, Grows, AbortOne, MaxSequence;
    if ps == [] {
      GrowsReflexive(s);
    } else {
      var t := AbortOne(s, ps[0]);
      AbortOneKeeps(s, ps[0]);
      forall i | 0 < i < |ps| ensures ps[i] in t.participants && t.participants[ps[i]].migrationId == m {
        AbortOneStays(s, t, ps[0], ps[i]);
      }
      assert forall i :: 0 <= i < |ps[1..]| ==> ps[1..][i] == ps[i + 1];
      AbortAllKeeps(t, m, ps[1..]);
      var u := AbortAll(s, ps);
      AbortedSomeTransitive(s, t, u, m);
      forall i | 0 <= i < |ps| ensures IsSettled(u.participants[ps[i]].status) {
        if i > 0 { assert ps[1..][i - 1] == ps[i]; }
      }
    }
  }

  /** The migration row and event of an abort, before its participants follow. */
  function AbortRow(s: Store, m: string, receipt: CleanupReceipt): Store
    requires m in s.migrations
  {
    var row := s.migrations[m];
    Append(SetMigration(s, m, MigrationStatus.Aborted, row.version + 1), m, MIGRATION_ABORTED,
           MigrationChange(Some(row.status), MigrationStatus.Aborted), row.version + 1,
           [Member("cleanup", receipt.ToDict())])
  }

  lemma AbortKeeps(s: Store, m: string, receipt: CleanupReceipt, expected: MigrationStatus, v: nat)
    requires Core(s) && AbortMigration(s, m, receipt, expected, v).Success?
    ensures var t := AbortMigration(s, m, receipt, expected, v).value;
            && Core(t)
            && Core(AbortRow(s, m, receipt))
            && Grows(s, AbortRow(s, m, receipt))
            && AbortedSome(AbortRow(s, m, receipt), t, m)
            && forall p :: p in ParticipantsOf(s, m) ==> IsSettled(t.participants[p].status)
  {
    hide Core, Grows, MaxSequence, AbortAll;
    var ps := Listing(ParticipantsOf(s, m));
    var a := AbortRow(s, m, receipt);
    var payload := [Member("cleanup", receipt.ToDict())];
    assert Lookup(payload, "cleanup") == Some(receipt.ToDict());
    assert IsCleanup(payload, m);
    assert a == MoveMigration(s, m, MigrationStatus.Aborted, v + 1, MIGRATION_ABORTED, payload);
    MoveMigrationCore(s, m, MigrationStatus.Aborted, v + 1, MIGRATION_ABORTED, payload);
    MoveMigrationGrows(s, m, MigrationStatus.Aborted, v + 1, MIGRATION_ABORTED, payload);
    forall i | 0 <= i < |ps| ensures ps[i] in ParticipantsOf(s, m) { assert ps[i] in ps; }
    AbortAllKeeps(a, m, ps);
    assert AbortMigration(s, m, receipt, expected, v).value == AbortAll(a, ps);
  }

  lemma AbortedLifecycle(s: Store, a: Store, t: Store, m: string)
    requires Core(s) && m in s.migrations && !s.migrations[m].status.Aborted? && Lifecycle(s, m)
    requires CanTransition(s.migrations[m].status, MigrationStatus.Aborted)
    requires AbortedSome(a, t, m) && Core(t)
    requires |a.events| == |s.events| + 1 && a.events[..|s.events|] == s.events
    requires IsAbortEvent(a.events[|s.events|], m)
    requires At(a, m, MigrationStatus.Aborted, s.migrations[m].version + 1)
    requires ParticipantsOf(t, m) == ParticipantsOf(s, m)
    requires forall p :: p in ParticipantsOf(s, m) ==> IsSettled(t.participants[p].status)
    ensures Lifecycle(t, m)
  {
    hide MigrationsOk, ParticipantsOk, ApprovalsOk, AllNumbered;
    var i := |s.events|;
    assert t.events[i] == a.events[i];
    forall j | 0 <= j < i ensures !IsAbortEvent(t.events[j], m) {
      assert t.events[j] == a.events[j] == s.events[j];
      assert EventOk(s, s.events[j]);
    }
    assert AbortedBy(t, m, i);
  }

  lemma AbortValid(s: Store, m: string, receipt: CleanupReceipt, expected: MigrationStatus, v: nat)
    requires Valid(s) && AbortMigration(s, m, receipt, expected, v).Success?
    ensures Valid(AbortMigration(s, m, receipt, expected, v).value)
    ensures Grows(s, AbortMigration(s, m, receipt, expected, v).value)
  {
    hide Core, MaxSequence, Lifecycle, Listing, AbortAll, Grows;
    var t := AbortMigration(s, m, receipt, expected, v).value;
    var a := AbortRow(s, m, receipt);
    AbortKeeps(s, m, receipt, expected, v);
    GrowsTransitive(s, a, t);
    forall n | n in t.migrations ensures Lifecycle(t, n) {
      assert ParticipantsOf(t, n) == ParticipantsOf(s, n);
      if n == m {
        AbortedLifecycle(s, a, t, m);
      } else {
        AbortFrame(s, a, t, m, n);
      }
    }
  }

  lemma AbortFrame(s: Store, a: Store, t: Store, m: string, n: string)
    requires n != m && n in s.migrations && Lifecycle(s, n)
    requires AbortedSome(a, t, m) && Grows(s, t)
    requires a.participants == s.participants && n in a.migrations && a.migrations[n] == s.migrations[n]
    requires |a.events| == |s.events| + 1 && a.events[..|s.events|] == s.events
    requires a.events[|s.events|].migrationId == m
    requires ParticipantsOf(t, n) == ParticipantsOf(s, n)
    ensures Lifecycle(t, n)
  {
    forall i | |s.events| <= i < |t.events| ensures !IsCommitEvent(t.events[i], n) && !IsAbortEvent(t.events[i], n) {
      if i == |s.events| { assert t.events[i] == a.events[i]; }
    }
    LifecycleFrame(s, t, n);
  }

  // ---- participants and approvals -------------------------------------------

  lemma ParticipantMoved(s: Store, p: string, record: Participant, to: ParticipantStatus, w: nat,
                         eventType: string, payload: seq<Member>)
    requires Valid(s) && p in s.participants
    requires s.participants[p].migrationId in s.migrations
    requires !IsTerminal(s.migrations[s.participants[p].migrationId].status)
    requires ParticipantMove(s.participants[p].status, s.participants[p].version, to, w)
    requires SameIdentity(record, s.participants[p].record)
    requires to.Verified? ==> IsCommitSha(record.candidateSha)
    ensures Valid(MoveParticipant(s, p, record, to, w, eventType, payload))
    ensures Grows(s, MoveParticipant(s, p, record, to, w, eventType, payload))
  {
    hide Core, Grows, MaxSequence, Lifecycle, IsCommitSha;
    var t := MoveParticipant(s, p, record, to, w, eventType, payload);
    MoveParticipantCore(s, p, record, to, w, eventType, payload);
    MoveParticipantGrows(s, p, record, to, w, eventType, payload);
    forall n | n in t.migrations ensures Lifecycle(t, n) {
      assert ParticipantsOf(t, n) == ParticipantsOf(s, n);
      LifecycleFrame(s, t, n);
    }
  }

  lemma MoveValid(s: Store, p: string, target: ParticipantStatus, expected: ParticipantStatus, v: nat,
                  eventType: string, payload: seq<Member>, sha: Option<string>, links: Option<seq<string>>)
    requires Valid(s)
    requires TransitionParticipant(s, p, target, expected, v, eventType, payload, sha, links).Success?
    ensures Valid(TransitionParticipant(s, p, target, expected, v, eventType, payload, sha, links).value)
    ensures Grows(s, TransitionParticipant(s, p, target, expected, v, eventType, payload, sha, links).value)
  {
    hide Core, Lifecycle, Grows, Valid, MaxSequence;
    ParticipantMoved(s, p, Merged(s.participants[p].record, sha, links), target, v + 1, eventType, payload);
  }

  lemma ApproveValid(s: Store, receipt: ApprovalReceipt)
    requires Valid(s) && RecordApproval(s, receipt).Success?
    ensures Valid(RecordApproval(s, receipt).value) && Grows(s, RecordApproval(s, receipt).value)
  {
    hide Lifecycle, Grows, MaxSequence, MigrationsOk, EventsOk, AllNumbered, ReplayParticipant;
    var p := receipt.participantId;
    var row := s.participants[p];
    var payload := [Member("approval", receipt.ToDict())];
    var u := MoveParticipant(s, p, row.record, row.status, row.version, "OWNER_APPROVAL_RECORDED", payload);
    var t := RecordApproval(s, receipt).value;
    assert ParticipantOk(s, p);
    assert row.record.(status := row.status, version := row.version) == row.record;
    assert u == t.(approvals := s.approvals);
    ParticipantMoved(s, p, row.record, row.status, row.version, "OWNER_APPROVAL_RECORDED", payload);
    ApprovalsAdded(u, t);
    GrowsTransitive(s, u, t);
  }

  lemma ApprovalsAdded(u: Store, t: Store)
    requires Valid(u) && u == t.(approvals := u.approvals)
    requires forall k :: k in u.approvals ==> k in t.approvals && t.approvals[k] == u.approvals[k]
    requires forall k :: k in t.approvals && k !in u.approvals ==> ApprovalOk(t, k)
    ensures Valid(t) && Grows(u, t)
  {
    hide MigrationsOk, ParticipantsOk, EventsOk, ApprovalsOk, AllNumbered, Lifecycle, ApprovalOk;
    ApprovalsAddedRows(u, t);
    ApprovalsGrow(u, t);
    forall n | n in t.migrations ensures Lifecycle(t, n) { LifecycleFrame(u, t, n); }
  }

  lemma ApprovalsAddedRows(u: Store, t: Store)
    requires u == t.(approvals := u.approvals)
    ensures MigrationsOk(u) ==> MigrationsOk(t)
    ensures ParticipantsOk(u) ==> ParticipantsOk(t)
    ensures EventsOk(u) ==> EventsOk(t)
  {
    hide ReplayMigration, ReplayParticipant, ReceiptDicts, Lookup, IsCommitSha;
    forall m | m in u.migrations && MigrationOk(u, m) ensures MigrationOk(t, m) {}
    forall p | p in u.participants && ParticipantOk(u, p) ensures ParticipantOk(t, p) {}
    forall i | 0 <= i < |u.events| && EventOk(u, u.events[i]) ensures EventOk(t, t.events[i]) {}
  }

  // ---- runs -----------------------------------------------------------------

  /** One call of any mutator, whatever its arguments, keeps the invariant and undoes nothing. */
  lemma StepKeeps(s: Store, op: Op)
    requires Valid(s)
    ensures Valid(Step(s, op)) && Grows(s, Step(s, op))
  {
    if Apply(s, op).Failure? {
      GrowsReflexive(s);
    } else {
      match op
      case Create(intent, ps) =>
        CreateCreates(s, intent, ps);
        CreatedValid(s, Step(s, op), intent, [Member("participant_ids", Strings(Ids(ps)))]);
        CreatedGrows(s, Step(s, op), intent, [Member("participant_ids", Strings(Ids(ps)))]);
      case Arm(m, v) => StepArm(s, m, v);
      case Reserve(m, e, v) => StepReserve(s, m, e, v);
      case Transition(m, target, e, v, eventType, payload, receipts) =>
        TransitionValid(s, m, target, e, v, eventType, payload, receipts);
      case Abort(m, cleanup, e, v) => AbortValid(s, m, cleanup, e, v);
      case Move(p, target, e, v, eventType, payload, sha, links) =>
        MoveValid(s, p, target, e, v, eventType, payload, sha, links);
      case Approve(receipt) => ApproveValid(s, receipt);
    }
  }

  lemma StepArm(s: Store, m: string, v: nat)
    requires Valid(s) && ArmPublicationGate(s, m, v).Success?
    ensures Valid(ArmPublicationGate(s, m, v).value) && Grows(s, ArmPublicationGate(s, m, v).value)
  {
    hide Valid, Grows, Stutter;
    GrowsReflexive(s);
    StutterValid(s, m, GATE_ARMED, ArmedPayload());
  }

  lemma StepReserve(s: Store, m: string, e: MigrationStatus, v: nat)
    requires Valid(s) && ReserveAbortCleanup(s, m, e, v).Success?
    ensures Valid(ReserveAbortCleanup(s, m, e, v).value) && Grows(s, ReserveAbortCleanup(s, m, e, v).value)
  {
    hide Valid, Grows, Stutter;
    GrowsReflexive(s);
    StutterValid(s, m, ABORT_RESERVED, ReservedPayload());
  }

  lemma {:induction false} RunKeeps(s: Store, ops: seq<Op>)
    requires Valid(s)
    ensures Valid(Run(s, ops)) && Grows(s, Run(s, ops))
    decreases |ops|
  {
    if ops == [] {
      GrowsReflexive(s);
    } else {
      StepKeeps(s, ops[0]);
      RunKeeps(Step(s, ops[0]), ops[1..]);
      GrowsTransitive(s, Step(s, ops[0]), Run(s, ops));
    }
  }

  lemma ReachableValid(ops: seq<Op>)
    ensures Valid(Run(EMPTY, ops))
  {
    RunKeeps(EMPTY, ops);
  }
}
