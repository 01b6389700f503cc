/** Reading a committed publication, or an abort's cleanup receipt, back out of the log. */
module Recovery {
  import opened Wrappers
  import opened Json
  import opened Models
  import opened StoreSpec
  import opened StoreInvariant
  import opened StorePreservation
  import opened StoreRuns
  import opened StoreTheorems
  import opened Publication

  function OfKind(receipts: seq<CoordinationReceipt>, kind: ReceiptKind): seq<CoordinationReceipt> {
    if receipts == [] then []
    else (if receipts[0].kind == kind then [receipts[0]] else []) + OfKind(receipts[1..], kind)
  }

  predicate ToCommitted(e: Event) { e.change.MigrationChange? && e.change.to.Committed? }

  predicate ToAborted(e: Event) {
    e.eventType == MIGRATION_ABORTED && e.change.MigrationChange? && e.change.to.Aborted?
  }

  /** `next(event for event in reversed(log) if ...)`. */
  function LastWhere(log: seq<Event>, wanted: Event -> bool): Option<Event> {
    if log == [] then None
    else if wanted(log[|log| - 1]) then Some(log[|log| - 1])
    else LastWhere(log[..|log| - 1], wanted)
  }

  /** `_publication_from_state` over one migration's log. */
  function PublicationFromLog(log: seq<Event>): Option<Publication> {
    match LastWhere(log, ToCommitted)
    case None => None
    case Some(e) =>
      match Lookup(e.payload, "coordination_receipts")
      case Some(JArray(items)) =>
        (match ReceiptsFromDicts(items)
         case None => None
         case Some(receipts) =>
           var candidates := OfKind(receipts, CandidateCommit);
           var prs := OfKind(receipts, CoordinatedPr);
           var gates := OfKind(receipts, ProducerGateReleased);
           if |candidates| != 3 || |prs| != 1 || |gates| != 1 then None
           else Some(Publication(candidates, prs[0], gates[0])))
      case _ => None
  }

  /** `_abort_cleanup_from_state` over one migration's log. */
  function CleanupFromLog(log: seq<Event>): Option<CleanupReceipt> {
    match LastWhere(log, ToAborted)
    case None => None
    case Some(e) =>
      match Lookup(e.payload, "cleanup")
      case Some(value) => CleanupFromDict(value)
      case None => None
  }

  lemma {:induction false} LastWhereIs(events: seq<Event>, m: string, wanted: Event -> bool, k: nat)
    requires k < |events| && events[k].migrationId == m && wanted(events[k])
    requires forall j :: k < j < |events| && events[j].migrationId == m ==> !wanted(events[j])
    ensures LastWhere(LogOf(events, m), wanted) == Some(events[k])
  {
    var init := events[..|events| - 1];
    var last := events[|events| - 1];
    var log := LogOf(events, m);
    if last.migrationId == m {
      assert log[|log| - 1] == last && log[..|log| - 1] == LogOf(init, m);
    } else {
      assert log == LogOf(init, m);
    }
    if k < |events| - 1 { LastWhereIs(init, m, wanted, k); }
  }

  lemma {:induction false} OfKindAppend(xs: seq<CoordinationReceipt>, x: CoordinationReceipt, kind: ReceiptKind)
    ensures OfKind(xs + [x], kind) == OfKind(xs, kind) + if x.kind == kind then [x] else []
  {
    if xs == [] {
      assert xs + [x] == [x];
    } else {
      assert (xs + [x])[1..] == xs[1..] + [x];
      OfKindAppend(xs[1..], x, kind);
    }
  }

  lemma {:induction false} OfKindAll(xs: seq<CoordinationReceipt>, kind: ReceiptKind, other: ReceiptKind)
    requires forall i :: 0 <= i < |xs| ==> xs[i].kind == kind
    ensures OfKind(xs, other) == if other == kind then xs else []
  {
    if xs != [] {
      OfKindAll(xs[1..], kind, other);
      assert xs == [xs[0]] + xs[1..];
    }
  }

  lemma CompleteParts(pub: Publication)
    requires pub.Complete()
    ensures OfKind(pub.Receipts(), CandidateCommit) == pub.candidates
    ensures OfKind(pub.Receipts(), CoordinatedPr) == [pub.pr]
    ensures OfKind(pub.Receipts(), ProducerGateReleased) == [pub.gate]
  {
    var withPr := pub.candidates + [pub.pr];
    assert pub.Receipts() == withPr + [pub.gate];
    forall kind: ReceiptKind
      ensures OfKind(pub.Receipts(), kind) == (if kind.CandidateCommit? then pub.candidates else [])
          + (if kind.CoordinatedPr? then [pub.pr] else []) + (if kind.ProducerGateReleased? then [pub.gate] else [])
    {
      OfKindAppend(withPr, pub.gate, kind);
      OfKindAppend(pub.candidates, pub.pr, kind);
      OfKindAll(pub.candidates, CandidateCommit, kind);
    }
  }

  /** The commit event decodes to the publication it recorded. */
  lemma CommitEventDecodes(log: seq<Event>, e: Event, pub: Publication)
    requires LastWhere(log, ToCommitted) == Some(e) && Records(e, pub.Receipts()) && pub.Complete()
    ensures PublicationFromLog(log) == Some(pub)
  {
    hide LastWhere, Lookup, ReceiptsFromDicts, ReceiptDicts, OfKind;
    ReceiptsRoundTrip(pub.Receipts());
    CompleteParts(pub);
  }

  // ---- where the commit event stands -----------------------------------------

  lemma {:induction false} BrokenStays(events: seq<Event>, m: string, j: nat)
    requires j <= |events| && ReplayMigration(events, m) != Broken
    ensures ReplayMigration(events[..j], m) != Broken
  {
    if j < |events| {
      var init := events[..|events| - 1];
      BrokenStays(init, m, j);
      assert init[..j] == events[..j];
    } else {
      assert events[..j] == events;
    }
  }

  lemma {:induction false} CommittedHasEvent(events: seq<Event>, m: string) returns (i: nat)
    requires ReplayMigration(events, m).Position? && ReplayMigration(events, m).status.Committed?
    ensures i < |events| && IsCommitEvent(events[i], m)
  {
    var last := events[|events| - 1];
    if IsCommitEvent(last, m) {
      i := |events| - 1;
    } else {
      i := CommittedHasEvent(events[..|events| - 1], m);
    }
  }

  /** A reservation logged on an already COMMITTED migration. */
  predicate LateReservation(e: Event, m: string) {
    e.migrationId == m && e.change == MigrationChange(Some(MigrationStatus.Committed), MigrationStatus.Committed)
  }

  ghost predicate HasLateReservation(events: seq<Event>, m: string) {
    exists j :: 0 <= j < |events| && LateReservation(events[j], m)
  }

  /** A late reservation stands after a commit event. */
  lemma LateFollowsCommit(events: seq<Event>, m: string, j: nat) returns (i: nat)
    requires ReplayMigration(events, m) != Broken
    requires j < |events| && LateReservation(events[j], m)
    ensures i < j && IsCommitEvent(events[i], m)
  {
    BrokenStays(events, m, j + 1);
    var prefix := events[..j + 1];
    assert prefix[..j] == events[..j] && prefix[|prefix| - 1] == events[j];
    i := CommittedHasEvent(events[..j], m);
  }

  lemma NotBroken(s: Store, m: string)
    requires Valid(s) && m in s.migrations
    ensures ReplayMigration(s.events, m) != Broken
  {
    assert MigrationOk(s, m);
  }

  lemma CommittedEventsAre(s: Store, m: string, j: nat)
    requires Valid(s) && j < |s.events| && s.events[j].migrationId == m && ToCommitted(s.events[j])
    ensures IsCommitEvent(s.events[j], m) || LateReservation(s.events[j], m)
    ensures LateReservation(s.events[j], m) ==>
              s.events[j].payload == ReservedPayload() && s.events[j].eventType == ABORT_RESERVED
  {
    assert EventOk(s, s.events[j]);
  }

  lemma {:induction false} LastSuch(events: seq<Event>, m: string, j: nat) returns (k: nat)
    requires j < |events| && LateReservation(events[j], m)
    ensures j <= k < |events| && events[k].migrationId == m && ToCommitted(events[k])
    ensures forall i :: k < i < |events| && events[i].migrationId == m ==> !ToCommitted(events[i])
  {
    var last := events[|events| - 1];
    if last.migrationId == m && ToCommitted(last) {
      k := |events| - 1;
    } else {
      k := LastSuch(events[..|events| - 1], m, j);
    }
  }

  /** In any reachable store: the committed publication is rebuilt exactly when no reservation followed the commit. */
  lemma RecoveryExact(s: Store, m: string, i: nat, pub: Publication)
    requires Valid(s) && m in s.migrations && pub.Complete()
    requires CommittedBy(s, m, i, pub.Receipts())
    ensures PublicationFromLog(LogOf(s.events, m)) == Some(pub) <==> !HasLateReservation(s.events, m)
  {
    hide Valid, PublicationFromLog;
    if HasLateReservation(s.events, m) {
      var j :| 0 <= j < |s.events| && LateReservation(s.events[j], m);
      var k := LastSuch(s.events, m, j);
      NotBroken(s, m);
      var commit := LateFollowsCommit(s.events, m, j);
      assert commit == i;
      CommittedEventsAre(s, m, k);
      LastWhereIs(s.events, m, ToCommitted, k);
      LateUnreadable(LogOf(s.events, m), s.events[k]);
    } else {
      forall j | i < j < |s.events| && s.events[j].migrationId == m ensures !ToCommitted(s.events[j]) {
        if ToCommitted(s.events[j]) { CommittedEventsAre(s, m, j); }
      }
      LastWhereIs(s.events, m, ToCommitted, i);
      CommitEventDecodes(LogOf(s.events, m), s.events[i], pub);
    }
  }

  lemma LateUnreadable(log: seq<Event>, e: Event)
    requires LastWhere(log, ToCommitted) == Some(e) && e.payload == ReservedPayload()
    ensures PublicationFromLog(log) == None
  {
    hide LastWhere;
    var ms := ReservedPayload();
    assert ms[0].key == "scope" && ms[1..] == [];
    assert Lookup(ms, "coordination_receipts") == None;
  }

  /** A commit that went through while the gate was armed can be read back. */
  lemma ArmedRecovers(s: Store, m: string, i: nat, pub: Publication)
    requires Valid(s) && Exclusive(s) && m in s.migrations && pub.Complete() && Armed(s, m)
    requires CommittedBy(s, m, i, pub.Receipts())
    ensures PublicationFromLog(LogOf(s.events, m)) == Some(pub)
  {
    hide CommittedBy, PublicationFromLog, Valid;
    RecoveryExact(s, m, i, pub);
    forall j | 0 <= j < |s.events| ensures !LateReservation(s.events[j], m) {
      if LateReservation(s.events[j], m) { CommittedEventsAre(s, m, j); }
    }
  }

  /** ... after any honest calls whatever. */
  lemma ArmedCommitRecovers(s: Store, m: string, pub: Publication)
    requires HonestlyReachable(s) && m in s.migrations && pub.Complete() && Armed(s, m)
    requires exists i: nat :: CommittedBy(s, m, i, pub.Receipts())
    ensures PublicationFromLog(LogOf(s.events, m)) == Some(pub)
  {
    hide Run, CommittedBy, PublicationFromLog, Valid, Exclusive;
    HonestIsReachable(s);
    ReachableIsValid(s);
    MarkersExclude(s);
    var i: nat :| CommittedBy(s, m, i, pub.Receipts());
    ArmedRecovers(s, m, i, pub);
  }

  lemma HonestIsReachable(s: Store)
    requires HonestlyReachable(s)
    ensures Reachable(s)
  {}

  /** An abort's cleanup receipt is rebuilt exactly, after any later calls whatever their arguments. */
  lemma AbortRecovers(s: Store, m: string, receipt: CleanupReceipt, e: MigrationStatus, v: nat, later: seq<Op>)
    requires Valid(s) && AbortMigration(s, m, receipt, e, v).Success?
    ensures CleanupFromLog(LogOf(Run(Step(s, Abort(m, receipt, e, v)), later).events, m)) == Some(receipt)
  {
    hide Valid, Core, Grows, AbortAll, CleanupFromLog;
    var a := AbortRow(s, m, receipt);
    var t := Step(s, Abort(m, receipt, e, v));
    var u := Run(t, later);
    var i := |s.events|;
    AbortRowEvent(s, m, receipt);
    AbortKeepsEvent(s, m, receipt, e, v);
    StepKeeps(s, Abort(m, receipt, e, v));
    RunKeeps(t, later);
    GrowsEvent(t, u, i);
    GrowsMigration(t, u, m);
    AbortEventDecodes(u, m, i, receipt);
  }

  lemma AbortRowEvent(s: Store, m: string, receipt: CleanupReceipt)
    requires m in s.migrations && !s.migrations[m].status.Aborted?
    ensures var e := AbortRow(s, m, receipt).events[|s.events|];
            IsAbortEvent(e, m) && e.eventType == MIGRATION_ABORTED && e.payload == [Member("cleanup", receipt.ToDict())]
  {}

  lemma AbortKeepsEvent(s: Store, m: string, receipt: CleanupReceipt, e: MigrationStatus, v: nat)
    requires Valid(s) && AbortMigration(s, m, receipt, e, v).Success?
    ensures var t := Step(s, Abort(m, receipt, e, v));
            && |s.events| < |t.events|
            && t.events[|s.events|] == AbortRow(s, m, receipt).events[|s.events|]
            && At(t, m, MigrationStatus.Aborted, v + 1)
  {
    hide Core, Lifecycle, AbortAll;
    AbortKeeps(s, m, receipt, e, v);
  }

  lemma GrowsEvent(t: Store, u: Store, i: nat)
    requires Grows(t, u) && i < |t.events|
    ensures i < |u.events| && u.events[i] == t.events[i]
  {}

  lemma AbortEventDecodes(u: Store, m: string, i: nat, receipt: CleanupReceipt)
    requires Valid(u) && m in u.migrations && u.migrations[m].status.Aborted?
    requires i < |u.events| && IsAbortEvent(u.events[i], m) && u.events[i].eventType == MIGRATION_ABORTED
    requires u.events[i].payload == [Member("cleanup", receipt.ToDict())]
    ensures CleanupFromLog(LogOf(u.events, m)) == Some(receipt)
  {
    assert Lifecycle(u, m);
    hide Lifecycle, MigrationsOk, ParticipantsOk, ApprovalsOk, AllNumbered;
    forall j | i < j < |u.events| && u.events[j].migrationId == m ensures !ToAborted(u.events[j]) {
      assert EventOk(u, u.events[j]);
    }
    LastWhereIs(u.events, m, ToAborted, i);
    CleanupRoundTrip(receipt);
    assert Lookup(u.events[i].payload, "cleanup") == Some(receipt.ToDict());
  }

  /** On a COMMITTED migration without markers, one reservation call is enough to lose the recovery. */
  lemma ReservationLosesPublication(s: Store, m: string, v: nat, pub: Publication)
    requires Reachable(s) && At(s, m, MigrationStatus.Committed, v) && !Armed(s, m) && !Reserved(s, m)
    requires pub.Complete() && exists i: nat :: CommittedBy(s, m, i, pub.Receipts())
    ensures PublicationFromLog(LogOf(s.events, m)) == Some(pub) <==> !HasLateReservation(s.events, m)
    ensures PublicationFromLog(LogOf(Step(s, Reserve(m, MigrationStatus.Committed, v)).events, m)) == None
  {
    hide CommittedBy, PublicationFromLog, Valid, MaxSequence;
    ReachableIsValid(s);
    var i: nat :| CommittedBy(s, m, i, pub.Receipts());
    RecoveryExact(s, m, i, pub);
    var t := Step(s, Reserve(m, MigrationStatus.Committed, v));
    LastWhereIs(t.events, m, ToCommitted, |s.events|);
    LateUnreadable(LogOf(t.events, m), t.events[|s.events|]);
  }
}
