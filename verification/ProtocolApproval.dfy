/** The owner's approval stands between every semantic edit, PREPARED state and committed migration. */
module ProtocolApproval {
  import opened Wrappers
  import opened Models
  import opened Ordering
  import opened StoreSpec
  import opened StoreInvariant
  import opened StorePreservation
  import opened StoreRuns
  import opened StoreTheorems
  import opened Protocol
  import opened ProtocolSafety

  // ---- the invariant ----------------------------------------------------------

  ghost predicate Approved(s: Store, m: string, p: string) {
    exists owner :: (m, p, owner) in s.approvals
  }

  predicate Ready(s: Store, p: string) {
    p in s.participants && s.participants[p].status.Verified?
  }

  /** `m` has left PREPARING (and DETECTED) for good. */
  predicate Past(s: Store, m: string) {
    m in s.migrations && !s.migrations[m].status.Detected? && !s.migrations[m].status.Preparing?
  }

  predicate Begun(s: Store, m: string) {
    m in s.migrations && !s.migrations[m].status.Detected?
  }

  /** The participants of `m` are exactly the three of its discovery, one kind per lineage hop. */
  ghost predicate HopsOk(s: Store, o: seq<string>, m: string) {
    && |o| == 3
    && ParticipantsOf(s, m) == {o[0], o[1], o[2]}
    && forall k :: 0 <= k < 3 ==> o[k] in ParticipantsOf(s, m) && s.participants[o[k]].record.kind == HopKind(k)
  }

  predicate Waiting(status: MigrationStatus) { status.NeedsApproval? || status.Prepared? || status.Committed? }

  ghost predicate RowOk(s: Store, o: seq<string>, m: string)
    requires m in s.migrations
  {
    && HopsOk(s, o, m)
    && (Ready(s, o[2]) ==> Approved(s, m, o[2]) && Past(s, m))
    && (Waiting(s.migrations[m].status) ==> Ready(s, o[0]) && Ready(s, o[1]))
    && (s.migrations[m].status.Prepared? || s.migrations[m].status.Committed? ==> Ready(s, o[2]))
  }

  /** The non-semantic participants before hop `i` are done, as long as `m` is still PREPARING. */
  ghost predicate InHand(s: Store, orders: map<string, seq<string>>, m: string, i: nat) {
    && m in orders && |orders[m]| == 3 && Begun(s, m)
    && (s.migrations[m].status.Preparing? && i > 0 ==> Ready(s, orders[m][0]))
    && (s.migrations[m].status.Preparing? && i > 1 ==> Ready(s, orders[m][1]))
  }

  ghost predicate Bound(s: Store, orders: map<string, seq<string>>, m: string, p: string) {
    m in orders && |orders[m]| == 3 && p == orders[m][2] && Past(s, m)
  }

  /** What an actor knows where it stands. */
  ghost predicate Knows(s: Store, orders: map<string, seq<string>>, m: string, pc: Pc) {
    match pc
    case PrepareClaim(_) => m in orders && |orders[m]| == 3
    case PrepareOpen(_, i) => InHand(s, orders, m, i)
    case PrepareAdapt(_, i) => i < 3 && InHand(s, orders, m, i)
    case PrepareRecord(_, i, _) => i < 3 && InHand(s, orders, m, i)
    case PrepareFinish(_, _) => InHand(s, orders, m, 2)
    case ApproveCheck(_, _) => Past(s, m)
    case ApproveRecord(_, approval, _) => Bound(s, orders, m, approval.participantId)
    case ApproveReopen(_, approval, _) =>
      Bound(s, orders, m, approval.participantId) && Approved(s, m, approval.participantId)
    case ApproveAdapt(_, approval) =>
      Bound(s, orders, m, approval.participantId) && Approved(s, m, approval.participantId)
    case ApproveVerify(_, approval, _) =>
      Bound(s, orders, m, approval.participantId) && Approved(s, m, approval.participantId)
    case _ => true
  }

  /** A semantic worktree is written only under a recorded approval. */
  ghost predicate WriteOk(s: Store, orders: map<string, seq<string>>, m: string, p: string) {
    m in orders && |orders[m]| == 3 && (p == orders[m][2] ==> Approved(s, m, p))
  }

  /** PREPARING never steps straight to PREPARED. */
  predicate NoShortcut(e: Event) {
    e.change != MigrationChange(Some(MigrationStatus.Preparing), MigrationStatus.Prepared)
  }

  ghost predicate RowsOk(s: Store, orders: map<string, seq<string>>) {
    orders.Keys == s.migrations.Keys && forall m :: m in s.migrations ==> RowOk(s, orders[m], m)
  }

  ghost predicate EventsHonour(s: Store) { forall i :: 0 <= i < |s.events| ==> NoShortcut(s.events[i]) }

  ghost predicate Gated(w: World) {
    && Valid(w.store)
    && RowsOk(w.store, w.orders)
    && EventsHonour(w.store)
    && (forall id :: id in w.actors ==> Knows(w.store, w.orders, w.actors[id].m, w.actors[id].pc))
    && (forall x :: x in w.written ==> WriteOk(w.store, w.orders, x.0, x.1))
  }

  // ---- what one transaction can do ---------------------------------------------

  /** Statuses only move forward, and a ready participant stays ready unless its migration aborts. */
  ghost predicate Drift(s: Store, t: Store) {
    && (forall m :: Begun(s, m) ==> Begun(t, m))
    && (forall m :: Past(s, m) ==> Past(t, m))
    && (forall p :: Ready(s, p) ==> Ready(t, p) || StatusIs(t, s.participants[p].migrationId, MigrationStatus.Aborted))
    && (forall p :: p in s.participants ==>
          p in t.participants && t.participants[p].migrationId == s.participants[p].migrationId
          && t.participants[p].record.kind == s.participants[p].record.kind)
    && (forall k :: k in s.approvals ==> k in t.approvals)
  }

  lemma Forward(s: Store, t: Store, m: string)
    requires Valid(s) && Valid(t) && Grows(s, t) && m in s.migrations
    ensures Begun(s, m) ==> Begun(t, m)
    ensures Past(s, m) ==> Past(t, m)
  {
    assert Lifecycle(s, m) && Lifecycle(t, m);
    hide Core, Lifecycle;
    assert ReachableAt(s.migrations[m].status, s.migrations[m].version) by { LifecycleVersion(s, m); }
    assert ReachableAt(t.migrations[m].status, t.migrations[m].version) by { LifecycleVersion(t, m); }
  }

  lemma LifecycleVersion(s: Store, m: string)
    requires m in s.migrations && Lifecycle(s, m)
    ensures ReachableAt(s.migrations[m].status, s.migrations[m].version)
  {}

  /** Only a move of its own, or the abort of its migration, changes a participant's status. */
  lemma StatusChanges(s: Store, op: Op, p: string)
    requires Valid(s) && p in s.participants && Apply(s, op).Success?
    ensures p in Step(s, op).participants
    ensures var before, after := s.participants[p].status, Step(s, op).participants[p].status;
            || after == before
            || (op.Move? && op.p == p && before == op.expected && after == op.goal)
            || (op.Abort? && !IsSettled(before) && after.Aborted?
                && StatusIs(Step(s, op), s.participants[p].migrationId, MigrationStatus.Aborted))
  {
    hide Lifecycle, Core, MaxSequence, AbortAll, Listing, CommitGuard, PreparationGuard, Merged, Grows, InsertAll,
         MigrationsOk;
    match op
    case Create(intent, ps) => CreateCreates(s, intent, ps);
    case Abort(m, cleanup, e, v) =>
      AbortKeeps(s, m, cleanup, e, v);
      AbortTouches(s, m, cleanup, e, v, p);
    case _ =>
  }

  lemma AbortTouches(s: Store, m: string, cleanup: CleanupReceipt, e: MigrationStatus, v: nat, p: string)
    requires Core(s) && AbortMigration(s, m, cleanup, e, v).Success? && p in s.participants
    ensures var t := AbortMigration(s, m, cleanup, e, v).value;
            && p in t.participants && StatusIs(t, m, MigrationStatus.Aborted)
            && (t.participants[p].status == s.participants[p].status
                || (s.participants[p].migrationId == m && !IsSettled(s.participants[p].status)
                    && t.participants[p].status.Aborted?))
  {
    hide Core, Listing, MaxSequence, Grows;
    AbortKeeps(s, m, cleanup, e, v);
    var ps := Listing(ParticipantsOf(s, m));
    var a := AbortRow(s, m, cleanup);
    forall i | 0 <= i < |ps| ensures ps[i] in a.participants { assert ps[i] in ps; }
    AbortAllStatus(a, ps, p);
  }

  lemma {:induction false} AbortAllStatus(s: Store, ps: seq<string>, p: string)
    requires forall i :: 0 <= i < |ps| ==> ps[i] in s.participants
    requires p in s.participants
    ensures p in AbortAll(s, ps).participants
    ensures AbortAll(s, ps).participants[p].status == s.participants[p].status
            || (!IsSettled(s.participants[p].status) && AbortAll(s, ps).participants[p].status.Aborted?)
    decreases |ps|
  {
    if ps != [] {
      var t := AbortOne(s, ps[0]);
      AbortAllStatus(t, ps[1..], p);
    }
  }

  /** Only a status transition, an abort, or its announcement changes a migration's status. */
  lemma MigrationChanges(s: Store, op: Op, m: string)
    requires Valid(s) && Apply(s, op).Success? && m in Step(s, op).migrations
    ensures var t := Step(s, op);
            || (m in s.migrations && t.migrations[m].status == s.migrations[m].status)
            || (op.Create? && m !in s.migrations && m == op.intent.migrationId && t.migrations[m].status.Detected?)
            || (op.Transition? && op.m == m && m in s.migrations && s.migrations[m].status == op.expectedStatus
                && t.migrations[m].status == op.target && CanTransition(op.expectedStatus, op.target))
            || (op.Abort? && op.m == m && m in s.migrations && t.migrations[m].status.Aborted?)
  {
    hide Lifecycle, MaxSequence, Core, AbortAll, Listing, CommitGuard, PreparationGuard, Merged, Grows, InsertAll;
    match op
    case Abort(n, cleanup, e, v) => AbortKeeps(s, n, cleanup, e, v);
    case _ =>
  }

  /** The coordinator never moves a verified or committed participant. */
  predicate Gentle(op: Op) {
    op.Move? ==> !op.expected.Verified? && !op.expected.Committed?
  }

  lemma StepDrifts(s: Store, op: Op)
    requires Valid(s) && Gentle(op)
    ensures Drift(s, Step(s, op))
  {
    hide Valid, Grows, Step, Apply;
    var t := Step(s, op);
    StepKeeps(s, op);
    forall m | m in s.migrations ensures (Begun(s, m) ==> Begun(t, m)) && (Past(s, m) ==> Past(t, m)) {
      Forward(s, t, m);
    }
    GrowsIdentities(s, t);
    forall p | Ready(s, p)
      ensures Ready(t, p) || StatusIs(t, s.participants[p].migrationId, MigrationStatus.Aborted)
    {
      if Apply(s, op).Success? { StatusChanges(s, op, p); } else { FailedStep(s, op); }
    }
  }

  lemma FailedStep(s: Store, op: Op)
    requires Apply(s, op).Failure?
    ensures Step(s, op) == s
  {}

  lemma GrowsIdentities(s: Store, t: Store)
    requires Grows(s, t)
    ensures forall p :: p in s.participants ==>
              p in t.participants && t.participants[p].migrationId == s.participants[p].migrationId
              && t.participants[p].record.kind == s.participants[p].record.kind
    ensures forall k :: k in s.approvals ==> k in t.approvals
  {}

  // ---- rows --------------------------------------------------------------------

  /** A semantic candidate is verified only under an approval, and a pause comes only after both other hops. */
  ghost predicate Permits(s: Store, op: Op, o: seq<string>, m: string)
    requires |o| == 3
  {
    && (op.Move? && op.goal.Verified? && op.p == o[2] ==> Approved(s, m, o[2]) && Past(s, m))
    && (op.Transition? && op.m == m && op.target.NeedsApproval? && StatusIs(s, m, MigrationStatus.Preparing) ==>
          Ready(s, o[0]) && Ready(s, o[1]))
  }

  lemma HopsKept(s: Store, t: Store, o: seq<string>, m: string)
    requires HopsOk(s, o, m) && Drift(s, t) && ParticipantsOf(t, m) == ParticipantsOf(s, m)
    ensures HopsOk(t, o, m)
  {}

  lemma ApprovedKept(s: Store, t: Store, m: string, p: string)
    requires Drift(s, t) && Approved(s, m, p)
    ensures Approved(t, m, p)
  {
    var owner :| (m, p, owner) in s.approvals;
    assert (m, p, owner) in t.approvals;
  }

  /** A transition that succeeds to PREPARED has seen every participant VERIFIED. */
  lemma PreparedMeansReady(s: Store, op: Op, o: seq<string>)
    requires op.Transition? && op.target.Prepared? && Apply(s, op).Success? && HopsOk(s, o, op.m)
    ensures Ready(s, o[0]) && Ready(s, o[1]) && Ready(s, o[2])
  {
    hide ReceiptDicts, WithReceipts, MaxSequence, IsCommitSha, Kinds, CommitGuard;
    assert PreparationGuard(s, op.m);
    assert o[0] in ParticipantsOf(s, op.m) && o[1] in ParticipantsOf(s, op.m) && o[2] in ParticipantsOf(s, op.m);
  }

  /** A pause or a later phase is entered only with the hops it needs. */
  lemma EntersReady(s: Store, op: Op, o: seq<string>, m: string)
    requires Valid(s) && m in s.migrations && RowOk(s, o, m) && Permits(s, op, o, m)
    requires op.Transition? && op.m == m && Apply(s, op).Success?
    requires s.migrations[m].status == op.expectedStatus && CanTransition(op.expectedStatus, op.target)
    ensures Waiting(op.target) ==> Ready(s, o[0]) && Ready(s, o[1])
    ensures op.target.Prepared? || op.target.Committed? ==> Ready(s, o[2])
    ensures op.target.Prepared? ==> op.expectedStatus.NeedsApproval?
  {
    hide Apply, Valid;
    if op.target.Prepared? { PreparedMeansReady(s, op, o); }
  }

  lemma RowStep(s: Store, op: Op, o: seq<string>, m: string)
    requires Valid(s) && m in s.migrations && Gentle(op)
    requires RowOk(s, o, m) && Permits(s, op, o, m)
    ensures m in Step(s, op).migrations && RowOk(Step(s, op), o, m)
  {
    hide Valid, Apply, Drift, Permits, Approved;
    if Apply(s, op).Failure? { FailedStep(s, op); return; }
    hide Step;
    var t := Step(s, op);
    StepDrifts(s, op);
    StepKeeps(s, op);
    GrowsMigration(s, t, m);
    StepFreezes(s, op, m);
    assert ParticipantsOf(t, m) == ParticipantsOf(s, m) by { hide ParticipantsOf; }
    HopsKept(s, t, o, m);
    ThirdHop(s, op, o, m);
    MigrationChanges(s, op, m);
    if op.Transition? && op.m == m && s.migrations[m].status == op.expectedStatus
       && CanTransition(op.expectedStatus, op.target) { EntersReady(s, op, o, m); }
    forall k | 0 <= k < 3 && Ready(s, o[k]) && !t.migrations[m].status.Aborted? ensures Ready(t, o[k]) {
      ReadyKept(s, t, o, m, k);
    }
  }

  lemma ReadyKept(s: Store, t: Store, o: seq<string>, m: string, k: nat)
    requires HopsOk(s, o, m) && Drift(s, t) && k < 3 && Ready(s, o[k])
    requires m in t.migrations && !t.migrations[m].status.Aborted?
    ensures Ready(t, o[k])
  {
    assert o[k] in ParticipantsOf(s, m);
  }

  /** The semantic participant is ready only under an approval, after any permitted transaction. */
  lemma ThirdHop(s: Store, op: Op, o: seq<string>, m: string)
    requires Valid(s) && m in s.migrations && Gentle(op) && Apply(s, op).Success?
    requires RowOk(s, o, m) && Permits(s, op, o, m)
    ensures Ready(Step(s, op), o[2]) ==> Approved(Step(s, op), m, o[2]) && Past(Step(s, op), m)
  {
    hide Valid, Apply, Step, Approved;
    var t := Step(s, op);
    assert o[2] in ParticipantsOf(s, m);
    StatusChanges(s, op, o[2]);
    StepDrifts(s, op);
    if Ready(t, o[2]) {
      assert Approved(s, m, o[2]) && Past(s, m);
      ApprovedKept(s, t, m, o[2]);
    }
  }

  // ---- events ------------------------------------------------------------------

  lemma NewEvents(s: Store, op: Op)
    requires Valid(s) && Apply(s, op).Success?
    requires op.Transition? ==> !(op.expectedStatus.Preparing? && op.target.Prepared?)
    ensures forall i :: |s.events| <= i < |Step(s, op).events| ==> NoShortcut(Step(s, op).events[i])
  {
    hide Lifecycle, MaxSequence, Core, AbortAll, Listing, CommitGuard, PreparationGuard, Merged, Grows, InsertAll;
    match op
    case Abort(m, cleanup, e, v) =>
      AbortKeeps(s, m, cleanup, e, v);
      AbortEvents(s, AbortRow(s, m, cleanup), Step(s, op), m);
    case _ =>
  }

  lemma AbortEvents(s: Store, a: Store, t: Store, m: string)
    requires AbortedSome(a, t, m)
    requires |a.events| == |s.events| + 1
    requires a.events[|s.events|].change.MigrationChange? && a.events[|s.events|].change.to.Aborted?
    ensures forall i :: |s.events| <= i < |t.events| ==> NoShortcut(t.events[i])
  {
    assert t.events[|s.events|] == a.events[|s.events|];
  }

  lemma EventsKept(s: Store, op: Op)
    requires Valid(s) && EventsHonour(s)
    requires op.Transition? && Apply(s, op).Success? ==> !(op.expectedStatus.Preparing? && op.target.Prepared?)
    ensures EventsHonour(Step(s, op))
  {
    hide Valid, Apply, NoShortcut;
    if Apply(s, op).Success? {
      hide Step;
      NewEvents(s, op);
      StepKeeps(s, op);
      var t := Step(s, op);
      forall i | 0 <= i < |t.events| ensures NoShortcut(t.events[i]) {
        if i < |s.events| { assert t.events[i] == s.events[i]; }
      }
    }
  }

  // ---- worlds ------------------------------------------------------------------

  lemma OrdersAre(s: Store, orders: map<string, seq<string>>, m: string)
    requires RowsOk(s, orders) && m in orders
    ensures m in s.migrations && HopsOk(s, orders[m], m)
  {
    assert RowOk(s, orders[m], m);
  }

  lemma InHandKept(s: Store, t: Store, orders: map<string, seq<string>>, m: string, i: nat)
    requires RowsOk(s, orders) && Drift(s, t) && InHand(s, orders, m, i)
    ensures InHand(t, orders, m, i)
  {
    hide RowsOk, Approved;
    OrdersAre(s, orders, m);
    var o := orders[m];
    if t.migrations[m].status.Preparing? {
      assert !Past(s, m);
      assert o[0] in ParticipantsOf(s, m) && o[1] in ParticipantsOf(s, m);
    }
  }

  lemma KnowsFollows(s: Store, t: Store, orders: map<string, seq<string>>, m: string, pc: Pc)
    requires Knows(s, orders, m, pc) && (Past(s, m) ==> Past(t, m))
    requires forall p :: Approved(s, m, p) ==> Approved(t, m, p)
    requires forall i :: InHand(s, orders, m, i) ==> InHand(t, orders, m, i)
    ensures Knows(t, orders, m, pc)
  {
    hide InHand, Approved, Past;
  }

  /** No transaction of another actor takes away what an actor knows. */
  lemma KnowsKept(s: Store, t: Store, orders: map<string, seq<string>>, m: string, pc: Pc)
    requires RowsOk(s, orders) && Drift(s, t) && Knows(s, orders, m, pc)
    ensures Knows(t, orders, m, pc)
  {
    hide Approved, InHand, Past, Knows, Drift, RowsOk;
    if Past(s, m) { PastKept(s, t, m); }
    forall p | Approved(s, m, p) ensures Approved(t, m, p) { ApprovedKept(s, t, m, p); }
    forall i | InHand(s, orders, m, i) ensures InHand(t, orders, m, i) { InHandKept(s, t, orders, m, i); }
    KnowsFollows(s, t, orders, m, pc);
  }

  lemma OpIsGentle(w: World, a: Actor)
    requires OpOf(w, a).Some?
    ensures Gentle(OpOf(w, a).value) && !OpOf(w, a).value.Create?
  {}

  /** Which steps verify a candidate, and which pause the migration. */
  lemma OpShape(w: World, a: Actor)
    requires OpOf(w, a).Some?
    ensures var op := OpOf(w, a).value;
            && (op.Move? && op.goal.Verified? ==>
                  || (a.pc.PrepareRecord? && !IsSemantic(w.store, op.p))
                  || (a.pc.ApproveVerify? && op.p == a.pc.approval.participantId))
            && (op.Transition? ==> op.m == a.m && (op.target.NeedsApproval? ==> a.pc.PrepareFinish?))
  {
    hide IsSemantic;
  }

  /** A semantic candidate is verified by an approved actor only. */
  lemma VerifierApproved(w: World, a: Actor, m: string)
    requires RowsOk(w.store, w.orders) && Knows(w.store, w.orders, a.m, a.pc)
    requires a.pc.ApproveVerify? && m in w.store.migrations && |w.orders[m]| == 3
    requires a.pc.approval.participantId == w.orders[m][2]
    ensures Approved(w.store, m, w.orders[m][2]) && Past(w.store, m)
  {
    hide Approved, InHand, RowsOk;
    var s := w.store;
    OrdersAre(s, w.orders, a.m);
    RowsKeys(s, w.orders);
    OrdersAre(s, w.orders, m);
    assert w.orders[a.m][2] in ParticipantsOf(s, a.m) && w.orders[m][2] in ParticipantsOf(s, m);
  }

  lemma OpPermits(w: World, id: nat, m: string)
    requires Gated(w) && id in w.actors && OpOf(w, w.actors[id]).Some? && m in w.store.migrations
    ensures |w.orders[m]| == 3 && Permits(w.store, OpOf(w, w.actors[id]).value, w.orders[m], m)
  {
    hide Valid, EventsHonour, WriteOk, OpOf, Approved, RowsOk, Past;
    var a, s := w.actors[id], w.store;
    var op := OpOf(w, a).value;
    RowsKeys(s, w.orders);
    OrdersAre(s, w.orders, m);
    var o := w.orders[m];
    assert Knows(s, w.orders, a.m, a.pc);
    OpShape(w, a);
    assert o[2] in ParticipantsOf(s, m);
    if op.Move? && op.goal.Verified? && op.p == o[2] { VerifierApproved(w, a, m); }
  }

  lemma RowsKeys(s: Store, orders: map<string, seq<string>>)
    requires RowsOk(s, orders)
    ensures orders.Keys == s.migrations.Keys
  {}

  lemma NoShortcutOp(w: World, id: nat)
    requires Gated(w) && id in w.actors && OpOf(w, w.actors[id]).Some?
    ensures var op := OpOf(w, w.actors[id]).value;
            op.Transition? && Apply(w.store, op).Success? ==> !(op.expectedStatus.Preparing? && op.target.Prepared?)
  {
    hide Valid, EventsHonour, WriteOk, OpOf, Approved, Knows, Permits, Apply;
    var op := OpOf(w, w.actors[id]).value;
    if op.Transition? && op.target.Prepared? && Apply(w.store, op).Success? {
      TransitionStands(w.store, op);
      assert RowOk(w.store, w.orders[op.m], op.m);
      PreparedMeansReady(w.store, op, w.orders[op.m]);
    }
  }

  lemma TransitionStands(s: Store, op: Op)
    requires op.Transition? && Apply(s, op).Success?
    ensures StatusIs(s, op.m, op.expectedStatus)
    ensures StatusIs(Step(s, op), op.m, op.target)
  {
    hide WithReceipts, MaxSequence, Kinds, CommitGuard, PreparationGuard;
  }

  lemma StoreGated(w: World, id: nat)
    requires Gated(w) && id in w.actors
    ensures var t := Effect(w, id).store;
            Valid(t) && Drift(w.store, t) && RowsOk(t, w.orders) && EventsHonour(t)
  {
    hide Valid, EventsHonour, WriteOk, OpOf, Approved, Knows, RowOk, Permits, Step, Apply, CallOf, WriteOf, Drift,
         Gentle;
    var s := w.store;
    if OpOf(w, w.actors[id]).Some? {
      var op := OpOf(w, w.actors[id]).value;
      OpIsGentle(w, w.actors[id]);
      NoShortcutOp(w, id);
      EventsKept(s, op);
      StepKeeps(s, op);
      StepDrifts(s, op);
      SameMigrations(s, op);
      forall m | m in s.migrations ensures RowOk(Step(s, op), w.orders[m], m) {
        OpPermits(w, id, m);
        RowStep(s, op, w.orders[m], m);
      }
    } else {
      DriftReflexive(s);
    }
  }

  lemma DriftReflexive(s: Store)
    ensures Drift(s, s)
  {}

  lemma SameMigrations(s: Store, op: Op)
    requires Valid(s) && !op.Create?
    ensures Step(s, op).migrations.Keys == s.migrations.Keys
  {
    hide Valid, Grows, Apply;
    if Apply(s, op).Failure? { FailedStep(s, op); return; }
    hide Step;
    StepKeeps(s, op);
    forall m ensures m in Step(s, op).migrations <==> m in s.migrations {
      if m in s.migrations { GrowsMigration(s, Step(s, op), m); }
      if m in Step(s, op).migrations { MigrationChanges(s, op, m); }
    }
  }

  lemma WritesOk(w: World, id: nat)
    requires Gated(w) && id in w.actors
    ensures forall x :: x in WriteOf(w, w.actors[id]) ==> WriteOk(w.store, w.orders, x.0, x.1)
  {
    hide Valid, EventsHonour, Approved, OpOf;
    var a := w.actors[id];
    assert Knows(w.store, w.orders, a.m, a.pc);
    if a.m in w.orders {
      OrdersAre(w.store, w.orders, a.m);
      assert w.orders[a.m][2] in ParticipantsOf(w.store, a.m);
    }
  }

  lemma WriteKept(s: Store, t: Store, orders: map<string, seq<string>>, m: string, p: string)
    requires Drift(s, t) && WriteOk(s, orders, m, p)
    ensures WriteOk(t, orders, m, p)
  {
    hide Drift, Approved;
    if Approved(s, m, p) { ApprovedKept(s, t, m, p); }
  }

  lemma EffectGated(w: World, id: nat)
    requires Gated(w) && id in w.actors
    ensures Gated(Effect(w, id))
  {
    hide Valid, EventsHonour, WriteOk, OpOf, Knows, RowsOk, Step, Apply, CallOf, WriteOf, Drift;
    var u := Effect(w, id);
    StoreGated(w, id);
    WritesOk(w, id);
    forall j | j in u.actors ensures Knows(u.store, u.orders, u.actors[j].m, u.actors[j].pc) {
      KnowsKept(w.store, u.store, w.orders, w.actors[j].m, w.actors[j].pc);
    }
    forall x | x in u.written ensures WriteOk(u.store, u.orders, x.0, x.1) {
      WriteKept(w.store, u.store, w.orders, x.0, x.1);
    }
  }

  // ---- moving on ---------------------------------------------------------------

  lemma MoveMoves(s: Store, op: Op)
    requires op.Move? && Apply(s, op).Success?
    ensures op.p in Step(s, op).participants && Step(s, op).participants[op.p].status == op.goal
  {
    hide IsCommitSha, MaxSequence, Merged;
  }

  lemma ApproveApproves(s: Store, op: Op)
    requires op.Approve? && Apply(s, op).Success?
    ensures Approved(Step(s, op), op.receipt.migrationId, op.receipt.participantId)
  {
    hide MaxSequence;
    var r := op.receipt;
    assert (r.migrationId, r.participantId, r.ownerUrn) in Step(s, op).approvals;
  }

  /** The steps whose transaction is what the next step knows. */
  lemma TransactionTaught(w: World, id: nat)
    requires Gated(w) && id in w.actors && Marks(w, w.actors[id])
    ensures var a, t := w.actors[id], Effect(w, id).store;
            && (a.pc.PrepareClaim? ==> Begun(t, a.m))
            && (a.pc.PrepareRecord? && a.pc.i < 2 ==> Ready(t, w.orders[a.m][a.pc.i]))
            && (a.pc.ApproveRecord? ==> Approved(t, a.m, a.pc.approval.participantId))
  {
    hide Valid, EventsHonour, WriteOk, Approved, Apply, CallOf, WriteOf, RowsOk, Step;
    var a, s := w.actors[id], w.store;
    var op := OpOf(w, a).value;
    assert Knows(s, w.orders, a.m, a.pc);
    if a.pc.PrepareClaim? {
      TransitionStands(s, op);
    } else if a.pc.PrepareRecord? && a.pc.i < 2 {
      OrdersAre(s, w.orders, a.m);
      assert w.orders[a.m][a.pc.i] in ParticipantsOf(s, a.m);
      assert !IsSemantic(s, w.orders[a.m][a.pc.i]);
      MoveMoves(s, op);
    } else if a.pc.ApproveRecord? {
      ApproveApproves(s, op);
      KeyedByName(s, a.m);
    }
  }

  lemma KeyedByName(s: Store, m: string)
    requires Valid(s) && m in s.migrations
    ensures s.migrations[m].intent.migrationId == m
  {
    assert MigrationOk(s, m);
  }

  /** The participant an accepted approval names is the semantic one of this migration. */
  lemma ApprovalNamesThird(w: World, m: string, approval: OwnerApproval)
    requires RowsOk(w.store, w.orders) && ApprovalBinds(w, m, approval)
    ensures m in w.orders && |w.orders[m]| == 3 && approval.participantId == w.orders[m][2]
  {
    OrdersAre(w.store, w.orders, m);
  }

  /** Next knows what this step knew, was taught by its transaction, or checked. */
  lemma NextFollows(w: World, a: Actor, o: Oracle, t: Store)
    requires Passes(w, a, o) && Knows(t, w.orders, a.m, a.pc)
    requires a.pc.PrepareEnter? ==> |w.orders[a.m]| == 3
    requires a.pc.PrepareClaim? ==> Begun(t, a.m)
    requires a.pc.PrepareRecord? && a.pc.i < 2 ==> Ready(t, w.orders[a.m][a.pc.i])
    requires a.pc.ApproveEnter? ==> Past(t, a.m)
    requires a.pc.ApproveCheck? ==> Bound(t, w.orders, a.m, a.pc.approval.participantId)
    requires a.pc.ApproveRecord? ==> Approved(t, a.m, a.pc.approval.participantId)
    ensures Knows(t, w.orders, a.m, Next(w, a, o))
  {
    hide Approved, Apply, OpOf, RequestFor, Collectable, ApprovalBinds, Pending, Active, Version, Armed, Ready, Past;
  }

  lemma NextKnows(w: World, id: nat, o: Oracle)
    requires Gated(w) && id in w.actors && Passes(w, w.actors[id], o)
    ensures Knows(Effect(w, id).store, w.orders, w.actors[id].m, Next(w, w.actors[id], o))
  {
    hide Valid, EventsHonour, WriteOk, Approved, Apply, RowsOk, OpOf, Effect, Drift, Knows, Next, ApprovalBinds,
         Ready, Begun;
    var a, s, t := w.actors[id], w.store, Effect(w, id).store;
    StoreGated(w, id);
    KnowsKept(s, t, w.orders, a.m, a.pc);
    TeachingOps(w, a);
    if OpOf(w, a).Some? { PassesMarks(w, a, o); TransactionTaught(w, id); }
    match a.pc {
      case PrepareEnter => OrdersAre(s, w.orders, a.m);
      case ApproveEnter(_) => PastKept(s, t, a.m);
      case ApproveCheck(_, approval) =>
        ApprovalNamesThird(w, a.m, approval);
        CheckKnew(t, w.orders, a.m, a.pc);
      case _ =>
    }
    NextFollows(w, a, o, t);
  }

  lemma CheckKnew(t: Store, orders: map<string, seq<string>>, m: string, pc: Pc)
    requires pc.ApproveCheck? && Knows(t, orders, m, pc)
    ensures Past(t, m)
  {}

  lemma PastKept(s: Store, t: Store, m: string)
    requires Drift(s, t) && Past(s, m)
    ensures Past(t, m)
  {}

  lemma TeachingOps(w: World, a: Actor)
    ensures a.pc.PrepareClaim? || a.pc.PrepareRecord? ==> OpOf(w, a).Some?
    ensures a.pc.ApproveRecord? && a.m in w.store.migrations ==> OpOf(w, a).Some?
  {}

  // ---- the other actions ---------------------------------------------------------

  lemma DistinctTail(ps: seq<Participant>)
    requires ps != [] && Distinct(Ids(ps))
    ensures Distinct(Ids(ps[1..])) && Ids(ps) == [ps[0].participantId] + Ids(ps[1..])
    ensures ps[0].participantId !in Ids(ps[1..])
  {
    var rest := ps[1..];
    forall i, j | 0 <= i < j < |rest| ensures Ids(rest)[i] != Ids(rest)[j] {
      assert Ids(ps)[i + 1] != Ids(ps)[j + 1];
    }
    assert Ids(ps) == [ps[0].participantId] + Ids(rest);
    forall j | 0 <= j < |rest| ensures ps[0].participantId != Ids(rest)[j] {
      assert Ids(ps)[0] != Ids(ps)[j + 1];
    }
  }

  lemma {:induction false} InsertedAre(rows: map<string, ParticipantRow>, ps: seq<Participant>)
    requires Distinct(Ids(ps))
    ensures forall i :: 0 <= i < |ps| ==>
              ps[i].participantId in InsertAll(rows, ps) && InsertAll(rows, ps)[ps[i].participantId] == NewRow(ps[i])
    ensures forall p :: p in InsertAll(rows, ps) ==> p in rows || exists i :: 0 <= i < |ps| && p == ps[i].participantId
    ensures forall p :: p in rows && p !in Ids(ps) ==> p in InsertAll(rows, ps) && InsertAll(rows, ps)[p] == rows[p]
    decreases |ps|
  {
    if ps != [] {
      hide Distinct, Ids;
      var rest := ps[1..];
      DistinctTail(ps);
      InsertedAre(rows[ps[0].participantId := NewRow(ps[0])], rest);
      assert forall i :: 0 < i < |ps| ==> ps[i] == rest[i - 1];
    }
  }

  /** Three kinds on three participants: the order lists each of them once. */
  lemma OrderCovers(intent: Intent, ps: seq<Participant>, order: seq<string>)
    requires IsDiscovery(intent, ps, order)
    ensures forall i :: 0 <= i < 3 ==> ps[i].participantId in {order[0], order[1], order[2]}
  {
    var i0 :| 0 <= i0 < 3 && ps[i0].participantId == order[0] && ps[i0].kind == HopKind(0);
    var i1 :| 0 <= i1 < 3 && ps[i1].participantId == order[1] && ps[i1].kind == HopKind(1);
    var i2 :| 0 <= i2 < 3 && ps[i2].participantId == order[2] && ps[i2].kind == HopKind(2);
    assert i0 != i1 && i1 != i2 && i0 != i2;
  }

  /** A discovery with one participant per hop leaves exactly those three behind the new migration. */
  lemma DetectedHops(s: Store, intent: Intent, ps: seq<Participant>, order: seq<string>)
    requires Valid(s) && IsDiscovery(intent, ps, order) && CreateMigration(s, intent, ps).Success?
    ensures HopsOk(CreateMigration(s, intent, ps).value, order, intent.migrationId)
    ensures forall k :: 0 <= k < 3 ==> !Ready(CreateMigration(s, intent, ps).value, order[k])
  {
    hide Lifecycle, MaxSequence, MigrationsOk, EventsOk, ApprovalsOk, AllNumbered, InsertAll;
    var t, m := CreateMigration(s, intent, ps).value, intent.migrationId;
    InsertedAre(s.participants, ps);
    OrderCovers(intent, ps, order);
    forall k | 0 <= k < 3
      ensures order[k] in ParticipantsOf(t, m) && t.participants[order[k]].record.kind == HopKind(k)
      ensures !Ready(t, order[k])
    {
      var i :| 0 <= i < 3 && ps[i].participantId == order[k] && ps[i].kind == HopKind(k);
      assert t.participants[order[k]] == NewRow(ps[i]);
    }
    hide IsDiscovery, HopKind;
    forall p | p in s.participants ensures p !in ParticipantsOf(t, m) { OldRow(s, intent, ps, p); }
  }

  lemma OldRow(s: Store, intent: Intent, ps: seq<Participant>, p: string)
    requires Valid(s) && CreateMigration(s, intent, ps).Success? && p in s.participants
    ensures p !in ParticipantsOf(CreateMigration(s, intent, ps).value, intent.migrationId)
  {
    hide Lifecycle, MaxSequence, MigrationsOk, EventsOk, ApprovalsOk, AllNumbered;
    CreateCreates(s, intent, ps);
    assert ParticipantOk(s, p);
  }

  lemma KnowsMore(s: Store, orders: map<string, seq<string>>, more: map<string, seq<string>>, m: string, pc: Pc)
    requires Knows(s, orders, m, pc)
    requires forall n :: n in orders ==> n in more && more[n] == orders[n]
    ensures Knows(s, more, m, pc)
  {
    hide Approved, Ready, Begun, Past;
  }

  lemma DetectRows(w: World, intent: Intent, ps: seq<Participant>, order: seq<string>)
    requires Gated(w) && IsDiscovery(intent, ps, order) && Apply(w.store, Create(intent, ps)).Success?
    ensures RowsOk(Step(w.store, Create(intent, ps)), w.orders[intent.migrationId := order])
    ensures intent.migrationId !in w.orders
  {
    hide Valid, EventsHonour, WriteOk, Knows, HopsOk, Approved, IsDiscovery;
    var s, op := w.store, Create(intent, ps);
    var t := Step(s, op);
    CreateCreates(s, intent, ps);
    DetectedHops(s, intent, ps, order);
    forall n | n in t.migrations ensures RowOk(t, w.orders[intent.migrationId := order][n], n) {
      if n != intent.migrationId {
        hide Step, Apply;
        assert RowOk(s, w.orders[n], n);
        assert |w.orders[n]| == 3 by { OrdersAre(s, w.orders, n); HopsAreThree(s, w.orders[n], n); }
        RowStep(s, op, w.orders[n], n);
      } else {
        HopsAreThree(t, order, n);
      }
    }
  }

  lemma HopsAreThree(s: Store, o: seq<string>, m: string)
    requires HopsOk(s, o, m)
    ensures |o| == 3
  {}

  lemma DetectGated(w: World, intent: Intent, ps: seq<Participant>, order: seq<string>)
    requires Gated(w)
    ensures Gated(Act(w, Detect(intent, ps, order)))
  {
    hide Valid, EventsHonour, WriteOk, Knows, RowsOk, Step, Apply, IsDiscovery, Drift;
    var op, u := Create(intent, ps), Act(w, Detect(intent, ps, order));
    if IsDiscovery(intent, ps, order) && Apply(w.store, op).Success? {
      DetectRows(w, intent, ps, order);
      EventsKept(w.store, op);
      StepKeeps(w.store, op);
      StepDrifts(w.store, op);
      forall j | j in u.actors ensures Knows(u.store, u.orders, u.actors[j].m, u.actors[j].pc) {
        KnowsKept(w.store, u.store, w.orders, w.actors[j].m, w.actors[j].pc);
        KnowsMore(u.store, w.orders, u.orders, w.actors[j].m, w.actors[j].pc);
      }
      forall x | x in u.written ensures WriteOk(u.store, u.orders, x.0, x.1) {
        WriteKept(w.store, u.store, w.orders, x.0, x.1);
        WriteMore(u.store, w.orders, u.orders, x.0, x.1);
      }
    }
  }

  lemma WriteMore(s: Store, orders: map<string, seq<string>>, more: map<string, seq<string>>, m: string, p: string)
    requires WriteOk(s, orders, m, p)
    requires forall n :: n in orders ==> n in more && more[n] == orders[n]
    ensures WriteOk(s, more, m, p)
  {}

  lemma JumpGated(w: World, id: nat, pc: Pc)
    requires Gated(w) && id in w.actors && Knows(w.store, w.orders, w.actors[id].m, pc)
    ensures Gated(Jump(w, id, pc))
  {
    hide Valid, EventsHonour, WriteOk, Knows, RowsOk;
  }

  lemma HandlerKnows(w: World, a: Actor, s: Store)
    ensures Knows(s, w.orders, a.m, Handler(w, a)) && Knows(s, w.orders, a.m, Done)
  {
    hide Active;
  }

  lemma EntryKnows(s: Store, orders: map<string, seq<string>>, m: string, pc: Pc)
    requires IsEntry(pc)
    ensures Knows(s, orders, m, pc)
  {}

  lemma StartGated(w: World, id: nat, m: string, entry: Pc)
    requires Gated(w)
    ensures Gated(Act(w, Start(id, m, entry)))
  {
    hide Valid, EventsHonour, WriteOk, Knows, RowsOk, IsEntry;
    if IsEntry(entry) { EntryKnows(w.store, w.orders, m, entry); }
  }

  lemma SameActor(w: World, id: nat)
    requires id in w.actors
    ensures Effect(w, id).actors[id].m == w.actors[id].m && Effect(w, id).orders == w.orders
  {
    hide OpOf, Apply, Step, CallOf, WriteOf;
  }

  lemma ActGated(w: World, action: Action)
    requires Gated(w)
    ensures Gated(Act(w, action))
  {
    hide Gated, Effect, Passes, Next, Handler, Knows, Jump;
    match action
    case Detect(intent, ps, order) => DetectGated(w, intent, ps, order);
    case Start(id, m, entry) => StartGated(w, id, m, entry);
    case Crash(id) =>
      if id in w.actors {
        HandlerKnows(w, w.actors[id], w.store);
        JumpGated(w, id, Done);
      }
    case Go(id, o) =>
      if id in w.actors {
        SameActor(w, id);
        EffectGated(w, id);
        if Passes(w, w.actors[id], o) {
          NextKnows(w, id, o);
          JumpGated(Effect(w, id), id, Next(w, w.actors[id], o));
        } else {
          HandlerKnows(w, w.actors[id], Effect(w, id).store);
          JumpGated(Effect(w, id), id, Handler(w, w.actors[id]));
        }
      }
    case Raise(id, o, effective) =>
      if id in w.actors {
        SameActor(w, id);
        EffectGated(w, id);
        HandlerKnows(w, w.actors[id], Effect(w, id).store);
        HandlerKnows(w, w.actors[id], w.store);
        JumpGated(if effective then Effect(w, id) else w, id, Handler(w, w.actors[id]));
      }
  }

  lemma {:induction false} ActionsGated(w: World, actions: seq<Action>)
    requires Gated(w)
    ensures Gated(Actions(w, actions))
    decreases |actions|
  {
    if actions != [] {
      hide Gated, Act;
      ActGated(w, actions[0]);
      ActionsGated(Act(w, actions[0]), actions[1..]);
    }
  }

  lemma WorldGated(w: World)
    requires ReachableWorld(w)
    ensures Gated(w)
  {
    hide Act;
    var actions :| w == Actions(START, actions);
    StartExclusive();
    ActionsGated(START, actions);
  }

  // ---- the promises ----------------------------------------------------------------

  /** An approval of `p`'s edit, by one of its owners, for exactly this migration's mapping. */
  ghost predicate OwnerApproved(s: Store, m: string, p: string)
    requires m in s.migrations && p in s.participants
  {
    exists owner ::
      && owner in s.participants[p].record.ownerUrns
      && (m, p, owner) in s.approvals
      && s.approvals[(m, p, owner)].approvedMapping == s.migrations[m].intent.Mapping()
  }

  lemma ApprovedByOwner(s: Store, m: string, p: string)
    requires Valid(s) && m in s.migrations && p in s.participants && Approved(s, m, p)
    ensures OwnerApproved(s, m, p)
  {
    hide Lifecycle, MigrationsOk, EventsOk, ParticipantsOk, AllNumbered;
    var owner :| (m, p, owner) in s.approvals;
    assert ApprovalOk(s, (m, p, owner));
  }

  /**
    The pause, over every interleaving: one participant per hop; at NEEDS_APPROVAL the first two are VERIFIED;
    from PREPARED on all three are; and neither an edit of the semantic worktree nor a VERIFIED semantic
    candidate precedes a recorded approval of the exact mapping by one of its owners.
   */
  lemma ApprovalGate(w: World, m: string)
    requires ReachableWorld(w) && m in w.store.migrations
    ensures m in w.orders && HopsOk(w.store, w.orders[m], m)
    ensures var s, o := w.store, w.orders[m];
            var status := s.migrations[m].status;
            && (status.NeedsApproval? ==> Ready(s, o[0]) && Ready(s, o[1]))
            && (status.Prepared? || status.Committed? ==>
                  Ready(s, o[0]) && Ready(s, o[1]) && Ready(s, o[2]) && OwnerApproved(s, m, o[2]))
            && ((m, o[2]) in w.written || Ready(s, o[2]) ==> OwnerApproved(s, m, o[2]))
  {
    hide ReachableWorld, Valid, EventsHonour, Knows, OwnerApproved, Approved, Past;
    WorldGated(w);
    var s, o := w.store, w.orders[m];
    assert RowOk(s, o, m);
    assert o[2] in ParticipantsOf(s, m);
    if (m, o[2]) in w.written { assert WriteOk(s, w.orders, m, o[2]); }
    if Approved(s, m, o[2]) { ApprovedByOwner(s, m, o[2]); }
  }

  /** In the log of any coordinator run, PREPARED is entered from NEEDS_APPROVAL only. */
  lemma PreparedThroughPause(w: World, i: nat)
    requires ReachableWorld(w) && i < |w.store.events|
    requires w.store.events[i].change.MigrationChange? && w.store.events[i].change.to.Prepared?
    ensures w.store.events[i].change.from == Some(MigrationStatus.NeedsApproval)
            || w.store.events[i].change.from == Some(MigrationStatus.Prepared)
  {
    hide ReachableWorld, Lifecycle, MigrationsOk, ParticipantsOk, ApprovalsOk, AllNumbered, Knows, RowsOk;
    WorldGated(w);
    assert EventOk(w.store, w.store.events[i]);
    assert NoShortcut(w.store.events[i]);
  }
}
