/** Every mutator keeps the store invariant; by induction every run does. */
module StorePreservation {
  import opened Wrappers
  import opened Json
  import opened Models
  import opened Ordering
  import opened StoreSpec
  import opened StoreInvariant

  lemma NumberedAppend(s: Store, m: string, eventType: string, change: Change, version: nat, payload: seq<Member>)
    requires AllNumbered(s.events)
    ensures AllNumbered(Append(s, m, eventType, change, version, payload).events)
  {
    var t := Append(s, m, eventType, change, version, payload);
    var e := t.events[|s.events|];
    forall n ensures Numbered(t.events, n) {
      ReplayAppend(s.events, e, n, "");
      assert Numbered(s.events, m);
      MaxIsLength(s.events, m);
      assert Numbered(s.events, n);
    }
  }

  lemma EventOkGrows(s: Store, t: Store, e: Event)
    requires Grows(s, t) && EventOk(s, e)
    ensures EventOk(t, e)
  {}

  lemma EventsGrow(s: Store, t: Store, e: Event)
    requires Grows(s, t) && EventsOk(s) && t.events == s.events + [e] && EventOk(t, e)
    ensures EventsOk(t)
  {
    forall i | 0 <= i < |t.events| ensures EventOk(t, t.events[i]) {
      if i < |s.events| { assert EventOk(s, s.events[i]); EventOkGrows(s, t, s.events[i]); }
    }
  }

  lemma ApprovalsGrow(s: Store, t: Store)
    requires Grows(s, t) && ApprovalsOk(s)
    requires forall k :: k in t.approvals && k !in s.approvals ==> ApprovalOk(t, k)
    ensures ApprovalsOk(t)
  {
    forall k | k in t.approvals ensures ApprovalOk(t, k) {
      if k in s.approvals { assert ApprovalOk(s, k); }
    }
  }

  predicate MigrationMove(from: MigrationStatus, v: nat, to: MigrationStatus, w: nat) {
    if from == to then w == v else CanTransition(from, to) && w == v + 1
  }

  predicate ParticipantMove(from: ParticipantStatus, v: nat, to: ParticipantStatus, w: nat) {
    if from == to then w == v else CanTransitionParticipant(from, to) && w == v + 1
  }

  /** One migration event, with its row moved along the same edge (or not moved by a stutter). */
  ghost function MoveMigration(s: Store, m: string, to: MigrationStatus, w: nat, eventType: string,
                               payload: seq<Member>)
    : Store
    requires m in s.migrations
  {
    Append(SetMigration(s, m, to, w), m, eventType, MigrationChange(Some(s.migrations[m].status), to), w, payload)
  }

  ghost predicate IsCleanup(payload: seq<Member>, m: string) {
    exists c: CleanupReceipt :: c.migrationId == m && c.cleanupErrors == []
      && Lookup(payload, "cleanup") == Some(c.ToDict())
  }

  lemma MoveMigrationGrows(s: Store, m: string, to: MigrationStatus, w: nat, eventType: string, payload: seq<Member>)
    requires m in s.migrations
    requires MigrationMove(s.migrations[m].status, s.migrations[m].version, to, w)
    ensures Grows(s, MoveMigration(s, m, to, w, eventType, payload))
  {}

  lemma MoveMigrationRows(s: Store, m: string, to: MigrationStatus, w: nat, eventType: string, payload: seq<Member>)
    requires MigrationsOk(s) && ParticipantsOk(s) && m in s.migrations
    requires MigrationMove(s.migrations[m].status, s.migrations[m].version, to, w)
    ensures MigrationsOk(MoveMigration(s, m, to, w, eventType, payload))
    ensures ParticipantsOk(MoveMigration(s, m, to, w, eventType, payload))
  {
    var t := MoveMigration(s, m, to, w, eventType, payload);
    var e := t.events[|s.events|];
    forall n | n in t.migrations ensures MigrationOk(t, n) {
      ReplayAppend(s.events, e, n, "");
      assert MigrationOk(s, n);
    }
    forall p | p in t.participants ensures ParticipantOk(t, p) {
      ReplayAppend(s.events, e, m, p);
      assert ParticipantOk(s, p);
    }
  }

  lemma MoveMigrationCore(s: Store, m: string, to: MigrationStatus, w: nat, eventType: string, payload: seq<Member>)
    requires Core(s) && m in s.migrations
    requires MigrationMove(s.migrations[m].status, s.migrations[m].version, to, w)
    requires s.migrations[m].status.Committed? ==> payload == ReservedPayload()
    requires IsTerminal(s.migrations[m].status) ==> eventType == ABORT_RESERVED
    requires to.Aborted? && !s.migrations[m].status.Aborted? ==> eventType == MIGRATION_ABORTED && IsCleanup(payload, m)
    ensures Core(MoveMigration(s, m, to, w, eventType, payload))
  {
    hide ParticipantsOk, ApprovalsOk, Grows, ReplayMigration, MaxSequence, LogOf;
    var t := MoveMigration(s, m, to, w, eventType, payload);
    var e := t.events[|s.events|];
    MoveMigrationGrows(s, m, to, w, eventType, payload);
    MoveMigrationRows(s, m, to, w, eventType, payload);
    EventsGrow(s, t, e);
    ApprovalsGrow(s, t);
    NumberedAppend(SetMigration(s, m, to, w), m, eventType, e.change, w, payload);
  }

  /** One participant event, with its row moved along; the immutable columns stay. */
  ghost function MoveParticipant(
    s: Store, p: string, record: Participant, to: ParticipantStatus, w: nat, eventType: string, payload: seq<Member>)
    : Store
    requires p in s.participants
  {
    Append(SetParticipant(s, p, record, to, w), s.participants[p].migrationId, eventType,
           ParticipantChange(p, s.participants[p].status, to), w, payload)
  }

  lemma MoveParticipantGrows(
    s: Store, p: string, record: Participant, to: ParticipantStatus, w: nat, eventType: string, payload: seq<Member>)
    requires p in s.participants && SameIdentity(record, s.participants[p].record)
    ensures Grows(s, MoveParticipant(s, p, record, to, w, eventType, payload))
  {}

  lemma MoveParticipantRows(
    s: Store, p: string, record: Participant, to: ParticipantStatus, w: nat, eventType: string, payload: seq<Member>)
    requires MigrationsOk(s) && ParticipantsOk(s) && p in s.participants
    requires ParticipantMove(s.participants[p].status, s.participants[p].version, to, w)
    requires SameIdentity(record, s.participants[p].record)
    requires to.Verified? ==> IsCommitSha(record.candidateSha)
    ensures MigrationsOk(MoveParticipant(s, p, record, to, w, eventType, payload))
    ensures ParticipantsOk(MoveParticipant(s, p, record, to, w, eventType, payload))
  {
    var t := MoveParticipant(s, p, record, to, w, eventType, payload);
    var e := t.events[|s.events|];
    assert ParticipantOk(s, p);
    forall n | n in t.migrations ensures MigrationOk(t, n) {
      ReplayAppend(s.events, e, n, p);
      assert MigrationOk(s, n);
    }
    forall q | q in t.participants ensures ParticipantOk(t, q) {
      ReplayAppend(s.events, e, "", q);
      assert ParticipantOk(s, q);
    }
  }

  lemma MoveParticipantCore(
    s: Store, p: string, record: Participant, to: ParticipantStatus, w: nat, eventType: string, payload: seq<Member>)
    requires Core(s) && p in s.participants
    requires ParticipantMove(s.participants[p].status, s.participants[p].version, to, w)
    requires SameIdentity(record, s.participants[p].record)
    requires to.Verified? ==> IsCommitSha(record.candidateSha)
    ensures Core(MoveParticipant(s, p, record, to, w, eventType, payload))
  {
    hide MigrationsOk, ApprovalsOk, Grows, ReplayParticipant, IsCommitSha, MaxSequence, LogOf;
    var t := MoveParticipant(s, p, record, to, w, eventType, payload);
    var e := t.events[|s.events|];
    assert ParticipantOk(s, p);
    MoveParticipantGrows(s, p, record, to, w, eventType, payload);
    MoveParticipantRows(s, p, record, to, w, eventType, payload);
    EventsGrow(s, t, e);
    ApprovalsGrow(s, t);
    NumberedAppend(SetParticipant(s, p, record, to, w), e.migrationId, eventType, e.change, w, payload);
  }

  // ---- the phase of a migration ---------------------------------------------

  /** A step that keeps `m`'s row, its participants and its terminal events keeps its phase. */
  lemma LifecycleFrame(s: Store, t: Store, m: string)
    requires m in s.migrations && m in t.migrations && Lifecycle(s, m)
    requires s.migrations[m] == t.migrations[m]
    requires ParticipantsOf(s, m) == ParticipantsOf(t, m)
    requires IsTerminal(s.migrations[m].status) ==>
               forall p :: p in ParticipantsOf(s, m) ==> t.participants[p] == s.participants[p]
    requires |s.events| <= |t.events| && s.events == t.events[..|s.events|]
    requires forall i :: |s.events| <= i < |t.events| ==>
               !IsCommitEvent(t.events[i], m) && !IsAbortEvent(t.events[i], m)
    ensures Lifecycle(t, m)
  {
    if s.migrations[m].status.Committed? {
      var i: nat, receipts :| CommittedBy(s, m, i, receipts);
      forall j | 0 <= j < |t.events| && IsCommitEvent(t.events[j], m) ensures j == i {
        assert s.events[j] == t.events[j];
      }
      assert t.events[i] == s.events[i];
      assert CommittedBy(t, m, i, receipts);
    }
    if s.migrations[m].status.Aborted? {
      var i: nat :| AbortedBy(s, m, i);
      forall j | 0 <= j < |t.events| && IsAbortEvent(t.events[j], m) ensures j == i {
        assert s.events[j] == t.events[j];
      }
      assert t.events[i] == s.events[i];
      assert AbortedBy(t, m, i);
    }
  }

  lemma StutterValid(s: Store, m: string, eventType: string, payload: seq<Member>)
    requires Valid(s) && m in s.migrations
    requires s.migrations[m].status.Committed? ==> payload == ReservedPayload()
    requires IsTerminal(s.migrations[m].status) ==> eventType == ABORT_RESERVED
    ensures Valid(Stutter(s, m, eventType, payload)) && Grows(s, Stutter(s, m, eventType, payload))
  {
    hide Core, Grows, MaxSequence, Lifecycle;
    var row := s.migrations[m];
    var t := Stutter(s, m, eventType, payload);
    assert SetMigration(s, m, row.status, row.version) == s;
    assert t == MoveMigration(s, m, row.status, row.version, eventType, payload);
    MoveMigrationCore(s, m, row.status, row.version, eventType, payload);
    MoveMigrationGrows(s, m, row.status, row.version, eventType, payload);
    forall n | n in t.migrations ensures Lifecycle(t, n) { LifecycleFrame(s, t, n); }
  }

  // ---- create ---------------------------------------------------------------

  predicate IsNewRow(row: ParticipantRow, p: string, m: string) {
    && row.migrationId == m && row.record.migrationId == m && row.record.participantId == p
    && row.status.Discovered? && row.record.status.Discovered? && row.version == 0 && row.record.version == 0
  }

  lemma {:induction false} InsertAllRows(rows: map<string, ParticipantRow>, ps: seq<Participant>, m: string)
    requires Distinct(Ids(ps))
    requires forall i :: 0 <= i < |ps| ==> ps[i].migrationId == m && ps[i].participantId !in rows
    ensures forall p :: p in rows ==> p in InsertAll(rows, ps) && InsertAll(rows, ps)[p] == rows[p]
    ensures forall p :: p in InsertAll(rows, ps) && p !in rows ==> IsNewRow(InsertAll(rows, ps)[p], p, m)
    decreases |ps|
  {
    if ps != [] {
      var rest := ps[1..];
      forall i, j | 0 <= i < j < |rest| ensures Ids(rest)[i] != Ids(rest)[j] {
        assert Ids(ps)[i + 1] != Ids(ps)[j + 1];
      }
      forall i | 0 <= i < |rest| ensures rest[i].participantId != ps[0].participantId {
        assert Ids(ps)[0] != Ids(ps)[i + 1];
      }
      InsertAllRows(rows[ps[0].participantId := NewRow(ps[0])], rest, m);
    }
  }

  lemma {:induction false} ReplayFresh(s: Store, events: seq<Event>, m: string, p: string)
    requires m !in s.migrations && p !in s.participants
    requires forall i :: 0 <= i < |events| ==> EventOk(s, events[i])
    ensures ReplayMigration(events, m) == Fresh
    ensures ReplayParticipant(events, p) == Position(ParticipantStatus.Discovered, 0)
  {
    if events != [] {
      ReplayFresh(s, events[..|events| - 1], m, p);
      assert EventOk(s, events[|events| - 1]);
    }
  }

  lemma {:induction false} FreshMigration(s: Store, events: seq<Event>, m: string)
    requires m !in s.migrations
    requires forall i :: 0 <= i < |events| ==> EventOk(s, events[i])
    ensures ReplayMigration(events, m) == Fresh
  {
    if events != [] {
      FreshMigration(s, events[..|events| - 1], m);
      assert EventOk(s, events[|events| - 1]);
    }
  }

  /** `t` is `s` with migration `intent` and some new participants of it, announced by one event. */
  ghost predicate Created(s: Store, t: Store, intent: Intent, payload: seq<Member>) {
    && intent.migrationId !in s.migrations
    && t.migrations == s.migrations[intent.migrationId := MigrationRow(intent, MigrationStatus.Detected, 0)]
    && t.approvals == s.approvals
    && t.events == Append(s, intent.migrationId, "MIGRATION_DETECTED",
                          MigrationChange(None, MigrationStatus.Detected), 0, payload).events
    && (forall p :: p in s.participants ==> p in t.participants && t.participants[p] == s.participants[p])
    && (forall p :: p in t.participants && p !in s.participants ==>
          IsNewRow(t.participants[p], p, intent.migrationId))
  }

  lemma CreateCreates(s: Store, intent: Intent, ps: seq<Participant>)
    requires CreateMigration(s, intent, ps).Success?
    ensures Created(s, CreateMigration(s, intent, ps).value, intent, [Member("participant_ids", Strings(Ids(ps)))])
  {
    InsertAllRows(s.participants, ps, intent.migrationId);
  }

  lemma CreatedGrows(s: Store, t: Store, intent: Intent, payload: seq<Member>)
    requires Created(s, t, intent, payload)
    ensures Grows(s, t)
  {}

  lemma CreatedMigrationsOk(s: Store, t: Store, intent: Intent, payload: seq<Member>)
    requires Core(s) && Created(s, t, intent, payload)
    ensures MigrationsOk(t)
  {
    hide ParticipantsOk, ApprovalsOk, AllNumbered, MaxSequence, ReplayMigration, ReplayParticipant, LogOf, IsNewRow;
    var m := intent.migrationId;
    var e := t.events[|s.events|];
    assert t.events == s.events + [e];
    forall n | n in t.migrations ensures MigrationOk(t, n) {
      ReplayAppend(s.events, e, n, "");
      if n == m { FreshMigration(s, s.events, m); } else { assert MigrationOk(s, n); }
    }
  }

  lemma CreatedParticipantsOk(s: Store, t: Store, intent: Intent, payload: seq<Member>)
    requires Core(s) && Created(s, t, intent, payload)
    ensures ParticipantsOk(t)
  {
    hide MigrationsOk, ApprovalsOk, AllNumbered, MaxSequence, ReplayMigration, ReplayParticipant, LogOf, IsCommitSha;
    var m := intent.migrationId;
    var e := t.events[|s.events|];
    assert t.events == s.events + [e];
    forall p | p in t.participants ensures ParticipantOk(t, p) {
      ReplayAppend(s.events, e, "", p);
      if p in s.participants { assert ParticipantOk(s, p); } else { ReplayFresh(s, s.events, m, p); }
    }
  }

  lemma CreatedLifecycle(s: Store, t: Store, intent: Intent, payload: seq<Member>, n: string)
    requires Core(s) && Created(s, t, intent, payload) && n in t.migrations
    requires n in s.migrations ==> Lifecycle(s, n)
    ensures Lifecycle(t, n)
  {
    if n in s.migrations {
      assert n != intent.migrationId;
      forall p ensures p in ParticipantsOf(s, n) <==> p in ParticipantsOf(t, n) {}
      LifecycleFrame(s, t, n);
    }
  }

  lemma CreatedCore(s: Store, t: Store, intent: Intent, payload: seq<Member>)
    requires Core(s) && Created(s, t, intent, payload)
    ensures Core(t)
  {
    var e := t.events[|s.events|];
    CreatedGrows(s, t, intent, payload);
    CreatedMigrationsOk(s, t, intent, payload);
    CreatedParticipantsOk(s, t, intent, payload);
    EventsGrow(s, t, e);
    ApprovalsGrow(s, t);
    NumberedAppend(s, intent.migrationId, e.eventType, e.change, 0, payload);
  }

  lemma CreatedValid(s: Store, t: Store, intent: Intent, payload: seq<Member>)
    requires Valid(s) && Created(s, t, intent, payload)
    ensures Valid(t)
  {
    CreatedCore(s, t, intent, payload);
    forall n | n in t.migrations ensures Lifecycle(t, n) { CreatedLifecycle(s, t, intent, payload, n); }
  }
}
