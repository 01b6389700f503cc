/**
  Small runs from the empty store to a COMMITTED migration.  One commits without arming the gate, and a late
  reservation loses its publication; one is committed by another caller than the one that prepared to.
 */
module LateReservation {
  import opened Wrappers
  import opened Models
  import opened StoreSpec
  import opened StoreInvariant
  import opened StoreRuns
  import opened StoreTheorems
  import opened Publication
  import opened Recovery
  import ProtocolApproval
  import ProtocolRecovery

  /** A store some honest calls leave: one migration with one participant, its gate armed or not, never reserved. */
  ghost predicate Solo(s: Store, m: string, status: MigrationStatus, v: nat, p: string, at: ParticipantStatus, pv: nat,
                       sha: string, armed: bool)
  {
    && HonestlyReachable(s)
    && At(s, m, status, v)
    && ParticipantsOf(s, m) == {p}
    && s.participants[p].status == at && s.participants[p].version == pv
    && s.participants[p].record.candidateSha == sha
    && Armed(s, m) == armed && !Reserved(s, m)
  }

  /** One more honest call. */
  lemma HonestStep(s: Store, op: Op)
    requires HonestlyReachable(s) && Honest(op)
    ensures HonestlyReachable(Step(s, op)) && Valid(s) && Valid(Step(s, op))
  {
    hide Step, Honest, Valid;
    var ops :| s == Run(EMPTY, ops) && forall i :: 0 <= i < |ops| ==> Honest(ops[i]);
    RunAppend(EMPTY, ops, op);
    assert Step(s, op) == Run(EMPTY, ops + [op]);
    ReachableValid(ops);
    ReachableValid(ops + [op]);
  }

  lemma {:induction false} RunAppend(s: Store, ops: seq<Op>, op: Op)
    ensures Run(s, ops + [op]) == Step(Run(s, ops), op)
    decreases |ops|
  {
    hide Step;
    if ops == [] {
      assert [] + [op] == [op] && [op][1..] == [];
    } else {
      assert (ops + [op])[1..] == ops[1..] + [op];
      RunAppend(Step(s, ops[0]), ops[1..], op);
    }
  }

  lemma SoloCreate(intent: Intent, p: Participant)
    requires p.migrationId == intent.migrationId
    ensures Solo(Step(EMPTY, Create(intent, [p])), intent.migrationId, MigrationStatus.Detected, 0, p.participantId,
                 ParticipantStatus.Discovered, 0, p.candidateSha, false)
  {
    hide Valid, HonestlyReachable, MaxSequence;
    var op := Create(intent, [p]);
    EmptyReachable();
    HonestStep(EMPTY, op);
    StepMarkers(EMPTY, op, intent.migrationId);
    CreateOne(intent, p);
    assert Step(EMPTY, op).participants == map[p.participantId := NewRow(p)];
  }

  lemma CreateOne(intent: Intent, p: Participant)
    requires p.migrationId == intent.migrationId
    ensures CreateMigration(EMPTY, intent, [p]).Success?
    ensures CreateMigration(EMPTY, intent, [p]).value.participants == map[p.participantId := NewRow(p)]
  {
    hide MaxSequence;
    var none: map<string, ParticipantRow> := map[];
    assert [p][1..] == [];
    assert InsertAll(none, [p]) == InsertAll(none[p.participantId := NewRow(p)], []);
  }

  lemma EmptyReachable()
    ensures HonestlyReachable(EMPTY) && Valid(EMPTY)
  {
    assert EMPTY == Run(EMPTY, []);
  }

  lemma SoloTransition(s: Store, m: string, target: MigrationStatus, status: MigrationStatus, v: nat, p: string,
                       at: ParticipantStatus, pv: nat, sha: string, armed: bool, receipts: seq<CoordinationReceipt>)
    requires Solo(s, m, status, v, p, at, pv, sha, armed)
    requires TransitionMigration(s, m, target, status, v, "EVENT", [], receipts).Success?
    ensures Solo(Step(s, Transition(m, target, status, v, "EVENT", [], receipts)), m, target, v + 1, p, at, pv, sha,
                 armed)
  {
    hide Valid, HonestlyReachable, Armed, Reserved, MaxSequence, WithReceipts, CommitGuard, PreparationGuard, Kinds;
    var op := Transition(m, target, status, v, "EVENT", [], receipts);
    HonestStep(s, op);
    StepMarkers(s, op, m);
    assert ParticipantsOf(Step(s, op), m) == ParticipantsOf(s, m);
  }

  lemma SoloMove(s: Store, m: string, status: MigrationStatus, v: nat, p: string, goal: ParticipantStatus,
                 at: ParticipantStatus, pv: nat, before: string, sha: string)
    requires Solo(s, m, status, v, p, at, pv, before, false) && !IsTerminal(status)
    requires CanTransitionParticipant(at, goal) && IsCommitSha(sha)
    ensures Solo(Step(s, Move(p, goal, at, pv, "EVENT", [], Some(sha), None)), m, status, v, p, goal, pv + 1, sha,
                 false)
  {
    hide Valid, HonestlyReachable, Armed, Reserved, MaxSequence, IsCommitSha;
    var op := Move(p, goal, at, pv, "EVENT", [], Some(sha), None);
    assert p in ParticipantsOf(s, m);
    HonestStep(s, op);
    StepMarkers(s, op, m);
    assert ParticipantsOf(Step(s, op), m) == ParticipantsOf(s, m);
  }

  lemma SoloArm(s: Store, m: string, v: nat, p: string, at: ParticipantStatus, pv: nat, sha: string)
    requires Solo(s, m, MigrationStatus.Prepared, v, p, at, pv, sha, false)
    ensures Solo(Step(s, Arm(m, v)), m, MigrationStatus.Prepared, v, p, at, pv, sha, true)
  {
    hide Valid, HonestlyReachable, Armed, Reserved, MaxSequence;
    HonestStep(s, Arm(m, v));
    StepMarkers(s, Arm(m, v), m);
    assert ParticipantsOf(Step(s, Arm(m, v)), m) == ParticipantsOf(s, m);
  }

  // ---- one concrete migration ------------------------------------------------------------

  const SHA := "aaaaaaaaaaaaaaaaaaaaaaaaaaaaaaaaaaaaaaaa"

  const INTENT := Intent("m", "owner/producer", SHA, "urn:source", "old", "new")

  const CONSUMER := Participant("p", "m", DbtSql, "urn:consumer", ["urn:owner"], ["a.sql"],
                                ParticipantStatus.Discovered, 0, "", [])

  /** What a publisher returns for it at a given time. */
  function PublicationAt(time: string): (r: Publication)
    ensures r.Complete() && r.candidates[0].commitSha == SHA && r.candidates[0].recordedAt == time
    ensures forall i :: 0 <= i < |r.Receipts()| ==> r.Receipts()[i].migrationId == "m"
  {
    var c := CoordinationRecord("m", CandidateCommit, "refs/heads/lineagetx/c", time, SHA, "");
    var pr := CoordinationRecord("m", CoordinatedPr, "pr", time, "", "");
    var gate := CoordinationRecord("m", ProducerGateReleased, "check-run:gate", time, "", "pr");
    assert c.WellFormed() && pr.WellFormed() && gate.WellFormed();
    Publication([c, c, c], pr, gate)
  }

  /** Create, prepare and verify: PREPARED, without markers. */
  lemma PreparedRun() returns (s: Store)
    ensures Solo(s, "m", MigrationStatus.Prepared, 2, "p", ParticipantStatus.Verified, 2, SHA, false)
  {
    hide Solo, Step;
    SoloCreate(INTENT, CONSUMER);
    var s1 := Step(EMPTY, Create(INTENT, [CONSUMER]));
    Claims(s1);
    SoloTransition(s1, "m", MigrationStatus.Preparing, MigrationStatus.Detected, 0, "p", ParticipantStatus.Discovered,
                   0, "", false, []);
    var s2 := Step(s1, Transition("m", MigrationStatus.Preparing, MigrationStatus.Detected, 0, "EVENT", [], []));
    SoloMove(s2, "m", MigrationStatus.Preparing, 1, "p", ParticipantStatus.Preparing, ParticipantStatus.Discovered, 0,
             "", SHA);
    var s3 := Step(s2, Move("p", ParticipantStatus.Preparing, ParticipantStatus.Discovered, 0, "EVENT", [], Some(SHA),
                            None));
    SoloMove(s3, "m", MigrationStatus.Preparing, 1, "p", ParticipantStatus.Verified, ParticipantStatus.Preparing, 1,
             SHA, SHA);
    var s4 := Step(s3, Move("p", ParticipantStatus.Verified, ParticipantStatus.Preparing, 1, "EVENT", [], Some(SHA),
                            None));
    Prepares(s4);
    SoloTransition(s4, "m", MigrationStatus.Prepared, MigrationStatus.Preparing, 1, "p", ParticipantStatus.Verified, 2,
                   SHA, false, []);
    s := Step(s4, Transition("m", MigrationStatus.Prepared, MigrationStatus.Preparing, 1, "EVENT", [], []));
  }

  lemma Claims(s: Store)
    requires Solo(s, "m", MigrationStatus.Detected, 0, "p", ParticipantStatus.Discovered, 0, "", false)
    ensures TransitionMigration(s, "m", MigrationStatus.Preparing, MigrationStatus.Detected, 0, "EVENT", [],
                                []).Success?
  {
    hide Valid, HonestlyReachable, Armed, Reserved, MaxSequence;
  }

  lemma Prepares(s: Store)
    requires Solo(s, "m", MigrationStatus.Preparing, 1, "p", ParticipantStatus.Verified, 2, SHA, false)
    ensures TransitionMigration(s, "m", MigrationStatus.Prepared, MigrationStatus.Preparing, 1, "EVENT", [],
                                []).Success?
  {
    hide Valid, HonestlyReachable, Armed, Reserved, MaxSequence;
    assert IsCommitSha(SHA);
    assert PreparationGuard(s, "m");
  }

  lemma Commits(s: Store, time: string, armed: bool)
    requires Solo(s, "m", MigrationStatus.Prepared, 2, "p", ParticipantStatus.Verified, 2, SHA, armed)
    ensures TransitionMigration(s, "m", MigrationStatus.Committed, MigrationStatus.Prepared, 2, "EVENT", [],
                                PublicationAt(time).Receipts()).Success?
  {
    hide Valid, HonestlyReachable, Armed, Reserved, MaxSequence, IsCommitSha, WithReceipts;
    var receipts := PublicationAt(time).Receipts();
    KindsOf(PublicationAt(time));
    assert receipts[0] == PublicationAt(time).candidates[0];
    assert SHA in CandidateShas(receipts);
    forall x | x in Shas(s, "m") ensures x == SHA {
      var q :| q in s.participants && s.participants[q].migrationId == "m"
               && s.participants[q].record.candidateSha == x;
      assert q in ParticipantsOf(s, "m");
    }
    assert "p" in ParticipantsOf(s, "m");
  }

  lemma KindsOf(pub: Publication)
    requires pub.Complete()
    ensures {CandidateCommit, CoordinatedPr, ProducerGateReleased} <= Kinds(pub.Receipts())
  {
    var receipts := pub.Receipts();
    assert receipts[0].kind.CandidateCommit? && receipts[3].kind.CoordinatedPr?;
    assert receipts[4].kind.ProducerGateReleased?;
  }

  /** After the commit, its publication is the recorded one. */
  lemma CommittedRun(s: Store, time: string, armed: bool) returns (t: Store)
    requires Solo(s, "m", MigrationStatus.Prepared, 2, "p", ParticipantStatus.Verified, 2, SHA, armed)
    ensures Solo(t, "m", MigrationStatus.Committed, 3, "p", ParticipantStatus.Verified, 2, SHA, armed)
    ensures exists i: nat :: CommittedBy(t, "m", i, PublicationAt(time).Receipts())
  {
    var pub := PublicationAt(time);
    var op := Transition("m", MigrationStatus.Committed, MigrationStatus.Prepared, 2, "EVENT", [], pub.Receipts());
    hide Valid, HonestlyReachable, Step, Armed, Reserved, PublicationAt, CommittedBy;
    Commits(s, time, armed);
    SoloTransition(s, "m", MigrationStatus.Committed, MigrationStatus.Prepared, 2, "p", ParticipantStatus.Verified, 2,
                   SHA, armed, pub.Receipts());
    t := Step(s, op);
    RecordedBy(s, op, pub);
  }

  lemma RecordedBy(s: Store, op: Op, pub: Publication)
    requires HonestlyReachable(s) && Honest(op)
    requires op.Transition? && op.target.Committed? && op.receipts == pub.Receipts()
    requires Apply(s, op).Success? && At(Step(s, op), op.m, MigrationStatus.Committed, op.expectedVersion + 1)
    ensures exists i: nat :: CommittedBy(Step(s, op), op.m, i, pub.Receipts())
  {
    hide HonestlyReachable, Step, Apply, Honest, Core, Records, IsCommitEvent;
    var t := Step(s, op);
    HonestStep(s, op);
    ProtocolRecovery.PersistRecords(s, op);
    assert Lifecycle(t, op.m);
    var i: nat, receipts :| CommittedBy(t, op.m, i, receipts);
    ProtocolRecovery.RecordsOne(t.events[i], receipts, pub.Receipts());
  }

  // ---- the two examples ------------------------------------------------------------------

  /** Some honest calls commit a publication that one more reservation makes unreadable. */
  lemma PublicationLost()
    ensures exists s: Store, pub: Publication, v: nat ::
              && HonestlyReachable(s) && At(s, "m", MigrationStatus.Committed, v) && !Armed(s, "m") && !Reserved(s, "m")
              && PublicationFromLog(LogOf(s.events, "m")) == Some(pub)
              && PublicationFromLog(LogOf(Step(s, Reserve("m", MigrationStatus.Committed, v)).events, "m")) == None
  {
    var prepared := PreparedRun();
    var s := CommittedRun(prepared, "", false);
    hide HonestlyReachable, Armed, Reserved, CommittedBy, PublicationFromLog, Step, PublicationAt;
    HonestIsReachable(s);
    ReservationLosesPublication(s, "m", 3, PublicationAt(""));
    ReachableIsValid(s);
    NoLateReservation(s, "m");
  }

  lemma NoLateReservation(s: Store, m: string)
    requires Valid(s) && !Reserved(s, m)
    ensures !HasLateReservation(s.events, m)
  {
    hide Valid;
    forall j | 0 <= j < |s.events| ensures !LateReservation(s.events[j], m) {
      if LateReservation(s.events[j], m) { CommittedEventsAre(s, m, j); }
    }
  }

  /** Create, prepare, arm and commit. */
  lemma ArmedRun(time: string) returns (s: Store)
    ensures HonestlyReachable(s) && At(s, "m", MigrationStatus.Committed, 3) && Armed(s, "m")
    ensures PublicationFromLog(LogOf(s.events, "m")) == Some(PublicationAt(time))
  {
    hide Step, PublicationAt, CommittedBy, PublicationFromLog, HonestlyReachable, Armed, Reserved;
    var prepared := PreparedRun();
    SoloArm(prepared, "m", 2, "p", ParticipantStatus.Verified, 2, SHA);
    s := CommittedRun(Step(prepared, Arm("m", 2)), time, true);
    CompleteAt(time);
    ArmedCommitRecovers(s, "m", PublicationAt(time));
  }

  lemma CompleteAt(time: string)
    ensures PublicationAt(time).Complete()
  {}

  /** A caller holds a publication, finds the migration COMMITTED under an armed gate, and the log has another one. */
  ghost predicate HoldsAnother(s: Store, m: string, held: Publication) {
    && HonestlyReachable(s) && At(s, m, MigrationStatus.Committed, 3) && Armed(s, m) && held.Complete()
    && TransitionMigration(s, m, MigrationStatus.Committed, MigrationStatus.Prepared, 2, "EVENT", [], held.Receipts())
       == Failure(StateConflict)
    && PublicationFromLog(LogOf(s.events, m)).Some?
    && PublicationFromLog(LogOf(s.events, m)) != Some(held)
  }

  lemma TimesDiffer(a: string, b: string)
    requires a != b
    ensures PublicationAt(a) != PublicationAt(b)
    ensures PublicationAt(b).Complete()
    ensures forall i :: 0 <= i < |PublicationAt(b).Receipts()| ==> PublicationAt(b).Receipts()[i].migrationId == "m"
  {
    assert PublicationAt(a).candidates[0].recordedAt != PublicationAt(b).candidates[0].recordedAt;
  }

  /** Two callers may hold different publications: the second is refused, and the log gives back the first one's. */
  lemma SecondCommitterDiffers()
    ensures exists s: Store, held: Publication :: HoldsAnother(s, "m", held)
  {
    hide HonestlyReachable, Armed, At, PublicationFromLog, TransitionMigration, PublicationAt, LogOf;
    var s := ArmedRun("first");
    TimesDiffer("first", "second");
    SecondRefused(s, PublicationAt("second"));
    assert HoldsAnother(s, "m", PublicationAt("second"));
  }

  lemma SecondRefused(s: Store, held: Publication)
    requires At(s, "m", MigrationStatus.Committed, 3) && held.Complete()
    requires forall i :: 0 <= i < |held.Receipts()| ==> held.Receipts()[i].migrationId == "m"
    ensures TransitionMigration(s, "m", MigrationStatus.Committed, MigrationStatus.Prepared, 2, "EVENT", [],
                                held.Receipts()) == Failure(StateConflict)
  {
    KindsOf(held);
    hide Kinds, CommitGuard;
  }
}
