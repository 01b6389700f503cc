/**
  The coordinator as the object that drives one store, one publisher and the owned worktrees: `commit` and
  `abort`, run to their end or to whatever failure the outside world serves them.
 */
module Coordinator {
  import opened Wrappers
  import opened Ordering
  import opened Models
  import Paths
  import opened StoreSpec
  import StoreInvariant
  import StoreRuns
  import StoreTheorems
  import opened StateStore
  import Publication
  import opened Publisher
  import ProtocolSafety
  import Recovery
  import ProtocolApproval
  import ProtocolRecovery

  /** An isolated candidate worktree and its branch. */
  datatype Session = Session(worktree: string, branch: string)

  predicate Owned(s: Session) { Paths.IsSafe(s.worktree) && "lineagetx/" <= s.branch }

  /** One cleanup call: whether the branch went away, and whether the call raised. */
  datatype Fate = Fate(removed: bool, raised: bool)

  class WorktreeManager {
    var live: set<string>

    constructor (live: set<string>)
      ensures this.live == live
    {
      this.live := live;
    }

    method Abort(session: Session, fate: Fate) returns (ok: bool)
      modifies this
      ensures live == (if fate.removed then old(live) - {session.branch} else old(live)) && ok == !fate.raised
    {
      if fate.removed { live := live - {session.branch}; }
      ok := !fate.raised;
    }
  }

  datatype CoordinationError = CoordinationError

  /**
    What commit and abort meet outside: checks, publisher weather, cleanup calls, the fate of the commit
    transaction, DataHub write-back, the clock, and the calls other holders of the store make at each point.
   */
  datatype Outside = Outside(
    ready: bool, weather: Weather, fates: Session -> Fate, persisted: Fault, writeback: bool, recordedAt: string,
    others: nat -> seq<Op>)

  /** The other holders do not forge the marker names either. */
  ghost predicate AllHonest(ops: seq<Op>) { forall i :: 0 <= i < |ops| ==> Honest(ops[i]) }

  ghost predicate HonestOthers(outside: Outside) { forall k :: AllHonest(outside.others(k)) }

  lemma TransactsIsStep<T>(before: Store, after: Store, op: Op, r: Result<T, StoreError>)
    requires Transacts(before, after, Apply(before, op), r)
    ensures after == Step(before, op) && (r.Success? <==> Apply(before, op).Success?)
  {}

  /** What no honest caller takes away. */
  ghost predicate Kept(s: Store, t: Store) {
    && StoreInvariant.Valid(t) && StoreInvariant.Exclusive(t) && StoreInvariant.Grows(s, t)
    && (forall n :: Armed(s, n) ==> Armed(t, n))
    && (forall n :: Reserved(s, n) ==> Reserved(t, n))
  }

  lemma KeptTransitive(s: Store, t: Store, u: Store)
    requires Kept(s, t) && Kept(t, u)
    ensures Kept(s, u)
  {
    hide StoreInvariant.Valid, StoreInvariant.Exclusive, StoreInvariant.Grows, Armed, Reserved;
    StoreRuns.GrowsTransitive(s, t, u);
  }

  lemma KeptReflexive(s: Store)
    requires StoreInvariant.Valid(s) && StoreInvariant.Exclusive(s)
    ensures Kept(s, s)
  {
    hide StoreInvariant.Valid, StoreInvariant.Exclusive, StoreInvariant.Grows, Armed, Reserved;
    StoreRuns.GrowsReflexive(s);
  }

  /** One honest transaction, and which markers it writes. */
  lemma StepKept(s: Store, op: Op)
    requires StoreInvariant.Valid(s) && StoreInvariant.Exclusive(s) && Honest(op)
    ensures Kept(s, Step(s, op))
    ensures op.Arm? && Apply(s, op).Success? ==> Armed(Step(s, op), op.m)
    ensures op.Reserve? && Apply(s, op).Success? ==> Reserved(Step(s, op), op.m)
  {
    hide StoreInvariant.Valid, StoreInvariant.Exclusive, StoreInvariant.Grows, Step, Apply, Armed, Reserved, Honest;
    ProtocolSafety.StoreStep(s, op);
    if Apply(s, op).Success? { ProtocolSafety.MarkerTaken(s, op); }
  }

  lemma {:induction false} RunKept(s: Store, ops: seq<Op>)
    requires StoreInvariant.Valid(s) && StoreInvariant.Exclusive(s) && AllHonest(ops)
    ensures Kept(s, Run(s, ops))
    decreases |ops|
  {
    if ops == [] {
      KeptReflexive(s);
    } else {
      hide Kept, Honest, Step, StoreInvariant.Valid, StoreInvariant.Exclusive;
      StepKept(s, ops[0]);
      KeptSafe(s, Step(s, ops[0]));
      RunKept(Step(s, ops[0]), ops[1..]);
      KeptTransitive(s, Step(s, ops[0]), Run(s, ops));
    }
  }

  lemma KeptSafe(s: Store, t: Store)
    requires Kept(s, t)
    ensures StoreInvariant.Valid(t) && StoreInvariant.Exclusive(t)
  {}

  /** One call of another holder of the store. */
  method Perform(store: SQLiteStateStore, op: Op)
    requires store.Valid()
    modifies store
    ensures store.Valid() && store.State() == Step(old(store.State()), op)
  {
    hide StoreInvariant.Valid, Step, Apply;
    ghost var before := store.State();
    match op
    case Create(intent, ps) =>
      var r := store.CreateMigration(intent, ps);
      ApplyIs(before, op);
      TransactsIsStep(before, store.State(), op, r);
    case Arm(m, v) =>
      var r := store.ArmPublicationGate(m, v);
      ApplyIs(before, op);
      TransactsIsStep(before, store.State(), op, r);
    case Reserve(m, e, v) =>
      var r := store.ReserveAbortCleanup(m, e, v);
      ApplyIs(before, op);
      TransactsIsStep(before, store.State(), op, r);
    case Transition(m, target, e, v, eventType, payload, receipts) =>
      var r := store.TransitionMigration(m, target, e, v, eventType, payload, receipts);
      ApplyIs(before, op);
      TransactsIsStep(before, store.State(), op, r);
    case Abort(m, cleanup, e, v) =>
      var r := store.AbortMigration(m, cleanup, e, v);
      ApplyIs(before, op);
      TransactsIsStep(before, store.State(), op, r);
    case Move(p, target, e, v, eventType, payload, sha, links) =>
      var r := store.TransitionParticipant(p, target, e, v, eventType, payload, sha, links);
      ApplyIs(before, op);
      TransactsIsStep(before, store.State(), op, r);
    case Approve(receipt) =>
      var r := store.RecordApproval(receipt);
      ApplyIs(before, op);
      TransactsIsStep(before, store.State(), op, r);
  }

  lemma ApplyIs(s: Store, op: Op)
    ensures Apply(s, op) ==
            match op
            case Create(intent, ps) => CreateMigration(s, intent, ps)
            case Arm(m, v) => ArmPublicationGate(s, m, v)
            case Reserve(m, e, v) => ReserveAbortCleanup(s, m, e, v)
            case Transition(m, target, e, v, eventType, payload, receipts) =>
              TransitionMigration(s, m, target, e, v, eventType, payload, receipts)
            case Abort(m, cleanup, e, v) => AbortMigration(s, m, cleanup, e, v)
            case Move(p, target, e, v, eventType, payload, sha, links) =>
              TransitionParticipant(s, p, target, e, v, eventType, payload, sha, links)
            case Approve(receipt) => RecordApproval(s, receipt)
  {}

  /** What other holders of the store do meanwhile. */
  method Elsewhere(store: SQLiteStateStore, ops: seq<Op>)
    requires store.Valid() && StoreInvariant.Exclusive(store.State()) && AllHonest(ops)
    modifies store
    ensures store.State() == Run(old(store.State()), ops)
    ensures Kept(old(store.State()), store.State())
    ensures store.Valid() && StoreInvariant.Exclusive(store.State())
  {
    hide StoreInvariant.Valid, StoreInvariant.Exclusive, Step, Kept;
    ghost var before := store.State();
    assert ops[0..] == ops;
    var i := 0;
    while i < |ops|
      invariant 0 <= i <= |ops| && store.Valid()
      invariant Run(before, ops) == Run(store.State(), ops[i..])
    {
      assert ops[i..][1..] == ops[i + 1..];
      Perform(store, ops[i]);
      i := i + 1;
    }
    RunKept(before, ops);
    KeptSafe(before, store.State());
  }

  predicate StatusIs(s: Store, m: string, status: MigrationStatus) {
    m in s.migrations && s.migrations[m].status == status
  }

  /** A completed abort can be read back. */
  lemma AbortReadsBack(s: Store, m: string, receipt: CleanupReceipt, e: MigrationStatus, v: nat)
    requires StoreInvariant.Valid(s) && AbortMigration(s, m, receipt, e, v).Success?
    ensures var t := Step(s, Abort(m, receipt, e, v));
            && StatusIs(t, m, MigrationStatus.Aborted)
            && Recovery.CleanupFromLog(StoreInvariant.LogOf(t.events, m)) == Some(receipt)
  {
    hide StoreInvariant.Valid, AbortMigration, Recovery.CleanupFromLog, Step;
    Recovery.AbortRecovers(s, m, receipt, e, v, []);
    Recovery.AbortKeepsEvent(s, m, receipt, e, v);
  }

  /** A commit transaction under an armed gate records its publication. */
  lemma CommitHolds(s: Store, op: Op, pub: Publication.Publication)
    requires StoreInvariant.Valid(s) && StoreInvariant.Exclusive(s) && Honest(op)
    requires op.Transition? && Armed(s, op.m) && op.target.Committed? && op.receipts == pub.Receipts() && pub.Complete()
    requires Apply(s, op).Success?
    ensures Holds(Step(s, op), op.m, pub)
  {
    hide StoreInvariant.Exclusive, StoreInvariant.Core, Step, Apply, Armed, Reserved, Recovery.PublicationFromLog,
         StoreInvariant.Records, StoreInvariant.IsCommitEvent, Honest;
    var m, t := op.m, Step(s, op);
    StepKept(s, op);
    ProtocolRecovery.PersistRecords(s, op);
    ProtocolApproval.TransitionStands(s, op);
    assert StoreInvariant.Lifecycle(t, m);
    var i: nat, receipts :| StoreInvariant.CommittedBy(t, m, i, receipts);
    ProtocolRecovery.RecordsOne(t.events[i], receipts, pub.Receipts());
  }

  /** `m` is COMMITTED under an armed gate, and its commit event records `pub`. */
  ghost predicate Holds(s: Store, m: string, pub: Publication.Publication) {
    && StatusIs(s, m, MigrationStatus.Committed) && Armed(s, m) && pub.Complete()
    && exists i: nat :: StoreInvariant.CommittedBy(s, m, i, pub.Receipts())
  }

  lemma HoldsReads(s: Store, m: string, pub: Publication.Publication)
    requires StoreInvariant.Valid(s) && StoreInvariant.Exclusive(s) && Holds(s, m, pub)
    ensures Recovery.PublicationFromLog(StoreInvariant.LogOf(s.events, m)) == Some(pub)
  {
    hide StoreInvariant.Valid, StoreInvariant.Exclusive, StoreInvariant.CommittedBy, Recovery.PublicationFromLog, Armed;
    var i: nat :| StoreInvariant.CommittedBy(s, m, i, pub.Receipts());
    Recovery.ArmedRecovers(s, m, i, pub);
  }

  /** What a commit recorded stays recorded, whatever anyone calls later. */
  lemma HoldsKept(s: Store, t: Store, m: string, pub: Publication.Publication)
    requires Holds(s, m, pub) && Kept(s, t)
    ensures Holds(t, m, pub)
  {
    hide StoreInvariant.Core, StoreInvariant.Exclusive, Armed, Reserved, StoreInvariant.Records,
         StoreInvariant.IsCommitEvent;
    var i: nat :| StoreInvariant.CommittedBy(s, m, i, pub.Receipts());
    assert t.migrations[m] == s.migrations[m];
    assert StoreInvariant.Lifecycle(t, m);
    var j: nat, receipts :| StoreInvariant.CommittedBy(t, m, j, receipts);
    assert t.events[i] == s.events[i];
    ProtocolRecovery.RecordsOne(t.events[i], receipts, pub.Receipts());
  }

  lemma StageKeepsStatuses(s: State, scope: Scope, request: Publication.Request, w: Weather)
    requires request.WellFormed()
    ensures StageStep(s, scope, request, w).0.hub.statuses == s.hub.statuses
  {}

  type Key = (string, string)

  predicate AllOwned(sessions: map<Key, Session>) { forall k :: k in sessions ==> Owned(sessions[k]) }

  function KeysOf(sessions: map<Key, Session>, m: string): set<Key> { set k | k in sessions && k.0 == m }

  /** `c` is the verified candidate of `p`, on the branch of its own session. */
  predicate Names(p: Participant, sessions: map<Key, Session>, m: string, c: Publication.Candidate) {
    && p.status.Verified?
    && (m, p.participantId) in sessions
    && c == Publication.Candidate(p.participantId, sessions[(m, p.participantId)].branch, p.candidateSha)
  }

  /** The branches whose cleanup reported success. */
  ghost function Deleted(sessions: map<Key, Session>, keys: set<Key>, fates: Session -> Fate): set<string> {
    set k | k in keys && k in sessions && !fates(sessions[k]).raised :: sessions[k].branch
  }

  /** The branches that did go away. */
  ghost function Gone(sessions: map<Key, Session>, keys: set<Key>, fates: Session -> Fate): set<string> {
    set k | k in keys && k in sessions && fates(sessions[k]).removed :: sessions[k].branch
  }

  ghost predicate AllCleaned(sessions: map<Key, Session>, keys: set<Key>, fates: Session -> Fate) {
    forall k :: k in keys && k in sessions ==> !fates(sessions[k]).raised
  }

  lemma OneMore(sessions: map<Key, Session>, done: set<Key>, k: Key, fates: Session -> Fate)
    requires k in sessions
    ensures Deleted(sessions, done + {k}, fates) ==
            Deleted(sessions, done, fates) + if fates(sessions[k]).raised then {} else {sessions[k].branch}
    ensures Gone(sessions, done + {k}, fates) ==
            Gone(sessions, done, fates) + if fates(sessions[k]).removed then {sessions[k].branch} else {}
    ensures AllCleaned(sessions, done + {k}, fates) <==> AllCleaned(sessions, done, fates) && !fates(sessions[k]).raised
  {}

  class LineageTXCoordinator {
    const store: SQLiteStateStore
    const worktrees: WorktreeManager
    const publisher: FixedGitHubPublisher
    var sessions: map<Key, Session>
    var publications: map<string, Publication.Publication>
    /** The migrations whose commit transaction was this coordinator's own. */
    ghost var committedHere: set<string>

    ghost predicate Valid()
      reads this, store
    {
      && StoreInvariant.Valid(store.State())
      && StoreInvariant.Exclusive(store.State())
      && AllOwned(sessions)
      && Remembered(store.State(), publications, committedHere)
    }

    constructor (store: SQLiteStateStore, worktrees: WorktreeManager, publisher: FixedGitHubPublisher)
      requires store.Valid() && StoreInvariant.Exclusive(store.State())
      ensures this.store == store && this.worktrees == worktrees && this.publisher == publisher
      ensures Valid()
    {
      this.store, this.worktrees, this.publisher := store, worktrees, publisher;
      sessions, publications, committedHere := map[], map[], {};
    }

    /** The cleanup loop: every owned session of the migration is tried, whatever the others did. */
    method CleanSessions(m: string, outside: Outside)
      returns (removed: seq<string>, branches: seq<string>, errors: seq<string>)
      requires AllOwned(sessions)
      modifies worktrees
      ensures forall w :: w in removed ==> Paths.IsSafe(w)
      ensures forall b :: b in branches ==> "lineagetx/" <= b
      ensures forall b :: b in branches <==> b in Deleted(sessions, KeysOf(sessions, m), outside.fates)
      ensures errors == [] <==> AllCleaned(sessions, KeysOf(sessions, m), outside.fates)
      ensures worktrees.live == old(worktrees.live) - Gone(sessions, KeysOf(sessions, m), outside.fates)
    {
      hide Paths.IsSafe;
      removed, branches, errors := [], [], [];
      var todo := KeysOf(sessions, m);
      ghost var done: set<Key> := {};
      while todo != {}
        invariant done + todo == KeysOf(sessions, m) && done !! todo
        invariant forall w :: w in removed ==> Paths.IsSafe(w)
        invariant forall b :: b in branches ==> "lineagetx/" <= b
        invariant forall b :: b in branches <==> b in Deleted(sessions, done, outside.fates)
        invariant errors == [] <==> AllCleaned(sessions, done, outside.fates)
        invariant worktrees.live == old(worktrees.live) - Gone(sessions, done, outside.fates)
        decreases todo
      {
        var k :| k in todo;
        var session := sessions[k];
        OneMore(sessions, done, k, outside.fates);
        var ok := worktrees.Abort(session, outside.fates(session));
        if ok {
          removed := removed + [session.worktree];
          branches := branches + [session.branch];
        } else {
          errors := errors + [session.branch + ": error"];
        }
        todo := todo - {k};
        done := done + {k};
      }
      assert done == KeysOf(sessions, m);
    }

    method CleanUp(m: string, outside: Outside) returns (receipt: CleanupReceipt)
      requires AllOwned(sessions)
      modifies worktrees
      ensures receipt.migrationId == m
      ensures receipt.cleanupErrors == [] <==> AllCleaned(sessions, KeysOf(sessions, m), outside.fates)
      ensures forall b :: b in receipt.branchesDeleted <==> b in Deleted(sessions, KeysOf(sessions, m), outside.fates)
      ensures worktrees.live == old(worktrees.live) - Gone(sessions, KeysOf(sessions, m), outside.fates)
    {
      hide Paths.IsSafe, AllOwned, Deleted, Gone, AllCleaned, KeysOf;
      var removed, branches, errors := CleanSessions(m, outside);
      var worktreesRemoved, branchesDeleted := SortStrings(removed), SortStrings(branches);
      var cleanupErrors := SortStrings(errors);
      forall i | 0 <= i < |worktreesRemoved| ensures Paths.IsSafe(worktreesRemoved[i]) {
        assert worktreesRemoved[i] in worktreesRemoved;
      }
      forall i | 0 <= i < |branchesDeleted| ensures "lineagetx/" <= branchesDeleted[i] {
        assert branchesDeleted[i] in branchesDeleted;
      }
      assert errors != [] ==> errors[0] in cleanupErrors;
      assert cleanupErrors != [] ==> cleanupErrors[0] in errors;
      receipt := CleanupRecord(m, worktreesRemoved, branchesDeleted, cleanupErrors, outside.recordedAt);
    }

    /**
      Reserve, clean every session, then persist ABORTED, while others use the store: an armed gate stops it
      before the first cleanup, and a cleanup means the gate can never be armed.
     */
    method Abort(m: string, outside: Outside) returns (r: Result<CleanupReceipt, CoordinationError>)
      requires Valid() && HonestOthers(outside)
      modifies store, worktrees
      ensures Valid() && Kept(old(store.State()), store.State())
      ensures worktrees.live != old(worktrees.live) ==> Reserved(store.State(), m) && !Armed(store.State(), m)
      ensures Armed(old(store.State()), m) ==> worktrees.live == old(worktrees.live) && r.Failure?
      ensures r.Success? ==>
                && StatusIs(store.State(), m, MigrationStatus.Aborted)
                && AllCleaned(sessions, KeysOf(sessions, m), outside.fates)
                && Recovery.CleanupFromLog(StoreInvariant.LogOf(store.State().events, m)) == Some(r.value)
    {
      hide StoreInvariant.Valid, StoreInvariant.Exclusive, Kept, Armed, Reserved, AllCleaned, KeysOf, Gone, Deleted,
           AllOwned, Recovery.CleanupFromLog, StoreInvariant.LogOf, Remembered, AllHonest;
      ghost var s0 := store.State();
      KeptReflexive(s0);
      var migration := store.GetMigration(m);
      if migration.Failure? || IsTerminal(migration.value.status) { return Failure(CoordinationError); }
      var row := migration.value;
      var reserved := Reserve(m, row.status, row.version, outside.others(5));
      KeptMarkers(s0, store.State(), m);
      if !reserved { return Failure(CoordinationError); }
      ghost var s1 := store.State();
      var cleanup := CleanUp(m, outside);
      r := PersistAbort(m, cleanup, row.status, row.version, outside.others(6));
      KeptTransitive(s0, s1, store.State());
      KeptMarkers(s1, store.State(), m);
      if r.Success? && !outside.writeback { return Failure(CoordinationError); }
    }

    method Reserve(m: string, status: MigrationStatus, version: nat, others: seq<Op>) returns (ok: bool)
      requires Valid() && AllHonest(others)
      modifies store
      ensures Valid() && Kept(old(store.State()), store.State())
      ensures ok ==> Reserved(store.State(), m) && !Armed(store.State(), m)
    {
      hide StoreInvariant.Valid, StoreInvariant.Exclusive, Kept, Apply, Step, Armed, Reserved, ReserveAbortCleanup,
           Remembered, AllHonest;
      ghost var s0 := store.State();
      Elsewhere(store, others);
      var op := StoreSpec.Reserve(m, status, version);
      ghost var before := store.State();
      ApplyIs(before, op);
      HonestMarkers(op);
      StepKept(before, op);
      var result := store.ReserveAbortCleanup(m, status, version);
      TransactsIsStep(before, store.State(), op, result);
      KeptTransitive(s0, before, store.State());
      KeptValid(s0, store.State(), publications, committedHere);
      ReservedExcludes(store.State(), m);
      ok := result.Success?;
    }

    method PersistAbort(m: string, cleanup: CleanupReceipt, status: MigrationStatus, version: nat, others: seq<Op>)
      returns (r: Result<CleanupReceipt, CoordinationError>)
      requires Valid() && AllHonest(others)
      modifies store
      ensures Valid() && Kept(old(store.State()), store.State())
      ensures r.Success? ==>
                && r.value == cleanup && cleanup.cleanupErrors == []
                && StatusIs(store.State(), m, MigrationStatus.Aborted)
                && Recovery.CleanupFromLog(StoreInvariant.LogOf(store.State().events, m)) == Some(cleanup)
    {
      hide StoreInvariant.Valid, StoreInvariant.Exclusive, Kept, Apply, Step, Armed, Reserved, StoreSpec.AbortMigration,
           Recovery.CleanupFromLog, StoreInvariant.LogOf, Remembered, AllHonest;
      ghost var s0 := store.State();
      Elsewhere(store, others);
      var op := StoreSpec.Abort(m, cleanup, status, version);
      ghost var before := store.State();
      ApplyIs(before, op);
      AbortIs(before, m, cleanup, status, version);
      HonestMarkers(op);
      StepKept(before, op);
      var result := store.AbortMigration(m, cleanup, status, version);
      TransactsIsStep(before, store.State(), op, result);
      KeptTransitive(s0, before, store.State());
      KeptValid(s0, store.State(), publications, committedHere);
      if result.Failure? { return Failure(CoordinationError); }
      AbortReadsBack(before, m, cleanup, status, version);
      r := Success(cleanup);
    }

    /** `list_participants` and the owned sessions, as a publication request. */
    method CollectRequest(m: string, intent: Intent) returns (r: Option<Publication.Request>)
      requires Valid()
      ensures r.Some? ==> r.value.WellFormed() && r.value.intent == intent
      ensures r.Some? ==>
                var ids := Listing(ParticipantsOf(store.State(), m));
                && |r.value.candidates| == |ids|
                && forall i :: 0 <= i < |ids| ==>
                     && ids[i] in store.participants
                     && Names(store.participants[ids[i]].record, sessions, m, r.value.candidates[i])
    {
      hide StoreInvariant.Valid, StoreInvariant.Exclusive, IsCommitSha, Listing;
      var listed := store.ListParticipants(m);
      if listed.Failure? { return None; }
      var participants := listed.value;
      var candidates: seq<Publication.Candidate> := [];
      var i := 0;
      while i < |participants|
        invariant 0 <= i <= |participants| && |candidates| == i
        invariant forall j :: 0 <= j < i ==> Names(participants[j], sessions, m, candidates[j])
      {
        var p := participants[i];
        if !p.status.Verified? || p.candidateSha == "" || (m, p.participantId) !in sessions { return None; }
        var branch := sessions[(m, p.participantId)].branch;
        candidates := candidates + [Publication.Candidate(p.participantId, branch, p.candidateSha)];
        i := i + 1;
      }
      var request := Publication.Request(intent, candidates, "lineagetx/" + m + "/coordination", "main");
      if !request.WellFormed() { return None; }
      r := Some(request);
    }

    method Arm(m: string, version: nat, others: seq<Op>) returns (ok: bool)
      requires Valid() && AllHonest(others)
      modifies store
      ensures Valid() && Kept(old(store.State()), store.State())
      ensures ok ==> Armed(store.State(), m)
    {
      hide StoreInvariant.Valid, StoreInvariant.Exclusive, Kept, Apply, Step, Armed, Reserved, ArmPublicationGate,
           Remembered, AllHonest;
      ghost var s0 := store.State();
      Elsewhere(store, others);
      var op := StoreSpec.Arm(m, version);
      ghost var before := store.State();
      ApplyIs(before, op);
      HonestMarkers(op);
      StepKept(before, op);
      var result := store.ArmPublicationGate(m, version);
      TransactsIsStep(before, store.State(), op, result);
      KeptTransitive(s0, before, store.State());
      KeptValid(s0, store.State(), publications, committedHere);
      ok := result.Success?;
    }

    /** Reconcile first, release only when nothing was found. */
    method OpenGate(request: Publication.Request, stage: Publication.Stage, outside: Outside)
      returns (r: Result<Publication.Publication, CoordinationError>)
      modifies publisher, publisher.api
      ensures r.Success? ==> r.value.Validates(request)
    {
      hide ReconcileStep, ReleaseStep, Publication.Publication.Validates;
      var reconciled := publisher.Reconcile(request, stage, outside.weather);
      if reconciled.Failure? { return Failure(CoordinationError); }
      var publication: Publication.Publication;
      if reconciled.value.Some? {
        publication := reconciled.value.value;
      } else {
        var released := publisher.ReleaseGate(request, stage, outside.weather);
        if released.Failure? { return Failure(CoordinationError); }
        publication := released.value;
      }
      if !publication.Validates(request) { return Failure(CoordinationError); }
      r := Success(publication);
    }

    /**
      The commit transaction may raise before or after it took effect; the status read afterwards decides.
      `ours`: this transaction is the one that committed.
     */
    method PersistCommit(m: string, version: nat, publication: Publication.Publication, outside: Outside)
      returns (ok: bool, ghost ours: bool)
      requires Valid() && HonestOthers(outside) && Armed(store.State(), m) && publication.Complete()
      requires m in publications && publications[m] == publication
      modifies store, this`committedHere
      ensures Valid() && Kept(old(store.State()), store.State())
      ensures ok <==> StatusIs(store.State(), m, MigrationStatus.Committed)
      ensures committedHere == old(committedHere) + if ours then {m} else {}
      ensures outside.persisted.LostBefore? ==> !ours
    {
      hide StoreInvariant.Valid, StoreInvariant.Exclusive, Kept, Apply, Step, Armed, Reserved, TransitionMigration,
           Remembered, AllHonest, Holds;
      ours := false;
      ghost var s0 := store.State();
      var answered := false;
      if outside.persisted.LostBefore? {
        KeptReflexive(s0);
      } else {
        answered, ours := TryPersist(m, version, publication, outside);
        if !outside.persisted.NoFault? { answered := false; }
      }
      ghost var s1 := store.State();
      Elsewhere(store, outside.others(4));
      KeptValid(s1, store.State(), publications, committedHere);
      KeptTransitive(s0, s1, store.State());
      if answered {
        StillCommitted(s1, store.State(), m);
        return true, ours;
      }
      var current := store.GetMigration(m);
      ok := current.Success? && current.value.status.Committed?;
    }

    /** The transaction itself, after whatever others did. */
    method TryPersist(m: string, version: nat, publication: Publication.Publication, outside: Outside)
      returns (committed: bool, ghost ours: bool)
      requires Valid() && HonestOthers(outside) && Armed(store.State(), m) && publication.Complete()
      requires m in publications && publications[m] == publication
      modifies store, this`committedHere
      ensures Valid() && Kept(old(store.State()), store.State())
      ensures ours == committed
      ensures committedHere == old(committedHere) + if ours then {m} else {}
      ensures committed ==> StatusIs(store.State(), m, MigrationStatus.Committed)
    {
      hide StoreInvariant.Valid, StoreInvariant.Exclusive, Kept, Apply, Step, Armed, Reserved, TransitionMigration,
           Remembered, AllHonest;
      ghost var s0 := store.State();
      Elsewhere(store, outside.others(3));
      KeptMarkers(s0, store.State(), m);
      var op := Transition(m, MigrationStatus.Committed, MigrationStatus.Prepared, version,
                           "COORDINATED_PR_CREATED_AND_PRODUCER_GATE_RELEASED", [], publication.Receipts());
      ghost var before := store.State();
      ApplyIs(before, op);
      HonestMarkers(op);
      StepKept(before, op);
      var result := store.TransitionMigration(m, MigrationStatus.Committed, MigrationStatus.Prepared, version,
                                              "COORDINATED_PR_CREATED_AND_PRODUCER_GATE_RELEASED", [],
                                              publication.Receipts());
      TransactsIsStep(before, store.State(), op, result);
      KeptTransitive(s0, before, store.State());
      KeptValid(s0, store.State(), publications, committedHere);
      committed := result.Success?;
      ours := committed;
      if committed {
        CommitHolds(before, op, publication);
        OneMoreRemembered(store.State(), publications, committedHere, m);
        committedHere := committedHere + {m};
      }
    }

    /**
      The commit dichotomy, wherever the attempt fails and whatever others do to the store meanwhile: with the
      gate armed, by this attempt or another, every candidate is retained and the status is PREPARED or
      COMMITTED; without it, no status was posted.  The log gives back what is returned when this coordinator's
      own transaction committed.
     */
    method Commit(m: string, outside: Outside) returns (r: Result<Publication.Publication, CoordinationError>)
      requires Valid() && HonestOthers(outside)
      modifies this`publications, this`committedHere, store, worktrees, publisher, publisher.api
      ensures Valid() && Kept(old(store.State()), store.State())
      ensures Armed(store.State(), m) ==>
                && worktrees.live == old(worktrees.live)
                && (|| StatusIs(store.State(), m, MigrationStatus.Prepared)
                    || StatusIs(store.State(), m, MigrationStatus.Committed))
      ensures !Armed(store.State(), m) ==> publisher.api.statuses == old(publisher.api.statuses)
      ensures old(committedHere) <= committedHere <= old(committedHere) + {m}
      ensures r.Success? ==>
                && StatusIs(store.State(), m, MigrationStatus.Committed)
                && m in publications && r.value == publications[m]
      ensures r.Success? && m in committedHere ==>
                Recovery.PublicationFromLog(StoreInvariant.LogOf(store.State().events, m)) == Some(r.value)
    {
      hide StoreInvariant.Valid, StoreInvariant.Exclusive, Kept, Armed, Reserved, AllCleaned, KeysOf, Gone, Deleted,
           AllOwned, Recovery.CleanupFromLog, Recovery.PublicationFromLog, StoreInvariant.LogOf, StageStep, Remembered,
           AllHonest, Holds;
      ghost var s0 := store.State();
      KeptReflexive(s0);
      var migration := store.GetMigration(m);
      ArmedStatuses(s0, m);
      if migration.Failure? { return Failure(CoordinationError); }
      var row := migration.value;
      if row.status.Committed? {
        r := ReconcileCommit(m, outside);
        if r.Success? && m in committedHere { RememberedReads(s0, publications, committedHere, m); }
        return;
      }
      if !row.status.Prepared? { return Failure(CoordinationError); }
      NotYetHere(s0, publications, committedHere, m);
      var stage, request := StageCandidates(m, row.intent, outside);
      if stage.None? {
        r := AbandonCommit(m, outside);
        ArmedStatuses(store.State(), m);
        return;
      }
      var armed := Arm(m, row.version, outside.others(1));
      ghost var s1 := store.State();
      ArmedStatuses(s1, m);
      if !armed { return Failure(CoordinationError); }
      Elsewhere(store, outside.others(2));
      ghost var s2 := store.State();
      KeptMarkers(s1, s2, m);
      KeptTransitive(s0, s1, s2);
      KeptValid(s1, s2, publications, committedHere);
      ArmedStatuses(s2, m);
      var publication := OpenGate(request, stage.value, outside);
      if publication.Failure? { return Failure(CoordinationError); }
      OneMorePublication(s2, publications, committedHere, m, publication.value);
      publications := publications[m := publication.value];
      CompletePublication(publication.value, request);
      var persisted;
      ghost var ours;
      persisted, ours := PersistCommit(m, row.version, publication.value, outside);
      KeptMarkers(s2, store.State(), m);
      KeptTransitive(s0, s2, store.State());
      ArmedStatuses(store.State(), m);
      if !persisted || !outside.writeback { return Failure(CoordinationError); }
      r := Success(publication.value);
      if m in committedHere { RememberedReads(store.State(), publications, committedHere, m); }
    }

    /** Failed before the gate: cleaned up only if the status still is PREPARED and the gate not armed. */
    method AbandonCommit(m: string, outside: Outside) returns (r: Result<Publication.Publication, CoordinationError>)
      requires Valid() && HonestOthers(outside)
      modifies store, worktrees
      ensures Valid() && Kept(old(store.State()), store.State()) && r.Failure?
      ensures worktrees.live != old(worktrees.live) ==> Reserved(store.State(), m) && !Armed(store.State(), m)
    {
      hide StoreInvariant.Valid, StoreInvariant.Exclusive, Kept, Armed, Reserved, AllCleaned, KeysOf,
           Recovery.CleanupFromLog, StoreInvariant.LogOf, Remembered, AllHonest;
      ghost var s0 := store.State();
      Elsewhere(store, outside.others(0));
      ghost var s1 := store.State();
      KeptValid(s0, s1, publications, committedHere);
      r := Failure(CoordinationError);
      var current := store.GetMigration(m);
      if current.Success? && current.value.status.Prepared? && !store.HasMigrationEvent(m, GATE_ARMED) {
        var aborted := Abort(m, outside);
        KeptTransitive(s0, s1, store.State());
      }
    }

    /** Everything before the gate: refreshed impact, candidates, the staged pull request. */
    method StageCandidates(m: string, intent: Intent, outside: Outside)
      returns (stage: Option<Publication.Stage>, request: Publication.Request)
      requires Valid()
      modifies publisher, publisher.api
      ensures publisher.api.statuses == old(publisher.api.statuses)
      ensures stage.Some? ==> request.WellFormed()
    {
      hide StoreInvariant.Valid, StoreInvariant.Exclusive, StageStep, Publication.Stage.Validates;
      stage, request := None, Publication.Request(intent, [], "", "");
      if !outside.ready { return; }
      var collected := CollectRequest(m, intent);
      if collected.None? { return; }
      request := collected.value;
      StageKeepsStatuses(publisher.Contents(), publisher.scope, request, outside.weather);
      var staged := publisher.StagePullRequest(request, outside.weather);
      if staged.Failure? || !staged.value.Validates(request) { return; }
      stage := Some(staged.value);
    }

    /** `reconcile_commit`: only the write-back is repeated, from the remembered or recovered publication. */
    method ReconcileCommit(m: string, outside: Outside) returns (r: Result<Publication.Publication, CoordinationError>)
      requires Valid()
      modifies this`publications
      ensures Valid()
      ensures r.Success? ==>
                && StatusIs(store.State(), m, MigrationStatus.Committed)
                && m in publications && r.value == publications[m]
      ensures r.Success? && m in old(publications) ==> r.value == old(publications)[m]
      ensures r.Success? && (m !in old(publications) || m in committedHere) ==>
                Recovery.PublicationFromLog(StoreInvariant.LogOf(store.State().events, m)) == Some(r.value)
    {
      hide StoreInvariant.Valid, StoreInvariant.Exclusive, Recovery.PublicationFromLog, StoreInvariant.LogOf,
           Remembered;
      var migration := store.GetMigration(m);
      if migration.Failure? || !migration.value.status.Committed? { return Failure(CoordinationError); }
      if !outside.ready { return Failure(CoordinationError); }
      if m !in publications {
        var recovered := Recovery.PublicationFromLog(StoreInvariant.LogOf(store.events, m));
        if recovered.None? { return Failure(CoordinationError); }
        NotRememberedHere(store.State(), publications, committedHere, m);
        OneMorePublication(store.State(), publications, committedHere, m, recovered.value);
        publications := publications[m := recovered.value];
      } else if m in committedHere {
        RememberedReads(store.State(), publications, committedHere, m);
      }
      if !outside.writeback { return Failure(CoordinationError); }
      r := Success(publications[m]);
    }
  }

  /** What this coordinator committed is remembered as it was recorded. */
  ghost predicate Remembered(s: Store, publications: map<string, Publication.Publication>, here: set<string>) {
    forall m :: m in here ==> m in publications && Holds(s, m, publications[m])
  }

  lemma KeptValid(s: Store, t: Store, publications: map<string, Publication.Publication>, here: set<string>)
    requires Kept(s, t) && Remembered(s, publications, here)
    ensures StoreInvariant.Valid(t) && StoreInvariant.Exclusive(t) && Remembered(t, publications, here)
  {
    hide Kept, Holds;
    KeptSafe(s, t);
    forall m | m in here ensures Holds(t, m, publications[m]) { HoldsKept(s, t, m, publications[m]); }
  }

  lemma KeptMarkers(s: Store, t: Store, m: string)
    requires Kept(s, t)
    ensures Armed(s, m) ==> Armed(t, m)
    ensures Reserved(s, m) ==> Reserved(t, m) && !Armed(t, m)
  {}

  lemma ReservedExcludes(s: Store, m: string)
    requires StoreInvariant.Exclusive(s)
    ensures Reserved(s, m) ==> !Armed(s, m)
  {}

  lemma StillCommitted(s: Store, t: Store, m: string)
    requires Kept(s, t) && StatusIs(s, m, MigrationStatus.Committed)
    ensures StatusIs(t, m, MigrationStatus.Committed)
  {}

  lemma RememberedReads(s: Store, publications: map<string, Publication.Publication>, here: set<string>, m: string)
    requires StoreInvariant.Valid(s) && StoreInvariant.Exclusive(s) && Remembered(s, publications, here) && m in here
    ensures m in publications
    ensures Recovery.PublicationFromLog(StoreInvariant.LogOf(s.events, m)) == Some(publications[m])
  {
    hide StoreInvariant.Valid, StoreInvariant.Exclusive, Holds, Recovery.PublicationFromLog;
    HoldsReads(s, m, publications[m]);
  }

  lemma NotRememberedHere(s: Store, publications: map<string, Publication.Publication>, here: set<string>, m: string)
    requires Remembered(s, publications, here) && m !in publications
    ensures m !in here
  {}

  lemma NotYetHere(s: Store, publications: map<string, Publication.Publication>, here: set<string>, m: string)
    requires Remembered(s, publications, here) && StatusIs(s, m, MigrationStatus.Prepared)
    ensures m !in here
  {}

  lemma OneMorePublication(s: Store, publications: map<string, Publication.Publication>, here: set<string>, m: string,
                           pub: Publication.Publication)
    requires Remembered(s, publications, here) && m !in here
    ensures Remembered(s, publications[m := pub], here)
  {}

  lemma OneMoreRemembered(s: Store, publications: map<string, Publication.Publication>, here: set<string>, m: string)
    requires Remembered(s, publications, here) && m in publications && Holds(s, m, publications[m])
    ensures Remembered(s, publications, here + {m})
  {}

  /** The coordinator's own event types are none of the marker names. */
  lemma HonestMarkers(op: Op)
    requires op.Transition? ==> op.eventType == "COORDINATED_PR_CREATED_AND_PRODUCER_GATE_RELEASED"
    requires !op.Move?
    ensures Honest(op)
  {}

  lemma ArmedStatuses(s: Store, m: string)
    requires StoreInvariant.Exclusive(s)
    ensures Armed(s, m) ==> StatusIs(s, m, MigrationStatus.Prepared) || StatusIs(s, m, MigrationStatus.Committed)
  {}

  lemma CompletePublication(publication: Publication.Publication, request: Publication.Request)
    requires publication.Validates(request) && request.WellFormed()
    ensures publication.Complete()
  {}

  lemma AbortIs(s: Store, m: string, cleanup: CleanupReceipt, status: MigrationStatus, version: nat)
    ensures StoreSpec.AbortMigration(s, m, cleanup, status, version).Success? ==> cleanup.cleanupErrors == []
  {}
}
