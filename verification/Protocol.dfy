/**
  The coordinator as a small-step relation.  Any number of actors, each running
  `prepare`, `approve`, `commit` or `abort` for some migration, interleave over one
  store.  A step is one store transaction or one external call, and any step may
  instead raise, before or after taking effect, or be the actor's last.

  A read followed by a compare-and-set on the value read is one step: a stale read
  can only make the transaction fail, which every step may do anyway.
 */
module Protocol {
  import opened Wrappers
  import opened Json
  import opened Models
  import opened Ordering
  import opened StoreSpec
  import opened Publication

  /** External calls, in the order they were started. */
  datatype Call =
    | StageCall(actor: nat, m: string)
    | ReconcileCall(actor: nat, m: string)
    | ReleaseCall(actor: nat, m: string)
    | CleanupCall(actor: nat, m: string, session: string)

  datatype OwnerApproval = OwnerApproval(
    migrationId: string, participantId: string, ownerUrn: string, oldField: string, newField: string,
    evidenceUrl: string, approved: bool)

  /** Where an actor stands, with the local variables it will still use. */
  datatype Pc =
    // prepare
    | PrepareEnter
    | PrepareClaim(v: nat)
    | PrepareOpen(v: nat, i: nat)
    | PrepareAdapt(v: nat, i: nat)
    | PrepareRecord(v: nat, i: nat, sha: string)
    | PrepareFinish(v: nat, target: MigrationStatus)
    // approve
    | ApproveEnter(approval: OwnerApproval)
    | ApproveCheck(v: nat, approval: OwnerApproval)
    | ApproveRecord(v: nat, approval: OwnerApproval, pv: nat)
    | ApproveReopen(v: nat, approval: OwnerApproval, pv: nat)
    | ApproveAdapt(v: nat, approval: OwnerApproval)
    | ApproveVerify(v: nat, approval: OwnerApproval, sha: string)
    | ApproveFinish(v: nat, p: string)
    // commit
    | CommitEnter
    | CommitCollect(v: nat)
    | CommitStage(v: nat, request: Request)
    | CommitFallback
    | CommitFallbackArmed
    | CommitArm(v: nat, request: Request)
    | CommitReconcile(v: nat, request: Request)
    | CommitRelease(v: nat, request: Request)
    | CommitPersist(v: nat, pub: Publication)
    | CommitConfirm
    // abort, entered directly or after a failed phase
    | MarkFailed(p: string)
    | AbortEnter
    | AbortReserve(status: MigrationStatus, v: nat)
    | AbortCleanup(status: MigrationStatus, v: nat, todo: seq<string>, errors: seq<string>)
    | AbortPersist(status: MigrationStatus, v: nat, receipt: CleanupReceipt)
    // DataHub write-back of the reached status, inside the phase (a failure aborts) or after it, then nothing
    | PhaseWriteback(p: string)
    | Writeback
    | Done

  /** `armed`: this attempt's `arm_publication_gate` call took effect. */
  datatype Actor = Actor(m: string, armed: bool, pc: Pc)

  datatype World = World(
    store: Store,
    orders: map<string, seq<string>>,
    actors: map<nat, Actor>,
    calls: seq<Call>,
    written: set<(string, string)>,
    published: map<string, Publication>)

  /** What the outside world answers: Git, GitHub, the file system, the owned sessions. */
  datatype Oracle = Oracle(
    sha: string, branches: seq<string>, pub: Option<Publication>, sessions: seq<string>,
    cleaned: bool, receipt: CleanupReceipt, accepted: bool)

  datatype Action =
    | Detect(intent: Intent, participants: seq<Participant>, order: seq<string>)
    | Start(id: nat, m: string, entry: Pc)
    | Crash(id: nat)
    | Go(id: nat, oracle: Oracle)
    | Raise(id: nat, oracle: Oracle, effective: bool)

  function Owner(approval: OwnerApproval, intent: Intent): ApprovalReceipt {
    ApprovalReceipt(intent.migrationId, approval.participantId, approval.ownerUrn, intent.Mapping(),
                    approval.evidenceUrl)
  }

  /** `validate_discovery`: one participant of each kind, ordered by lineage hop. */
  predicate IsDiscovery(intent: Intent, ps: seq<Participant>, order: seq<string>) {
    && |ps| == 3 && |order| == 3 && Distinct(Ids(ps))
    && (forall i :: 0 <= i < 3 ==> ps[i].migrationId == intent.migrationId)
    && (forall k :: 0 <= k < 3 ==>
          exists i :: 0 <= i < 3 && ps[i].participantId == order[k] && ps[i].kind == HopKind(k))
  }

  function HopKind(k: nat): ParticipantKind {
    if k == 0 then DbtSql else if k == 1 then AirflowMapping else SemanticApproval
  }

  function Version(s: Store, p: string): nat {
    if p in s.participants then s.participants[p].version else 0
  }

  predicate IsSemantic(s: Store, p: string) {
    p in s.participants && s.participants[p].record.kind.SemanticApproval?
  }

  /** The participant a prepare actor is working on, or worked on last. */
  function Active(order: seq<string>, i: nat): string {
    if order == [] then "" else if i < |order| then order[i] else order[|order| - 1]
  }

  function Order(w: World, m: string): seq<string> {
    if m in w.orders then w.orders[m] else []
  }

  function Pending(w: World, m: string): set<string> {
    set p | p in Order(w, m) && p in w.store.participants && w.store.participants[p].status.NeedsApproval?
  }

  function Evidence(p: string): Option<seq<string>> { Some([p]) }

  /** The store transaction of an actor's next step, when that step is one. */
  function OpOf(w: World, a: Actor): Option<Op> {
    var s := w.store;
    match a.pc
    case PrepareClaim(v) =>
      Some(Transition(a.m, MigrationStatus.Preparing, MigrationStatus.Detected, v, "LINEAGETX_PREPARING", [], []))
    case PrepareOpen(v, i) =>
      if i < |Order(w, a.m)| then
        var p := Order(w, a.m)[i];
        Some(Move(p, ParticipantStatus.Preparing, ParticipantStatus.Discovered, Version(s, p),
                  "PARTICIPANT_PREPARING_IN_ISOLATED_WORKTREE", [], None, None))
      else None
    case PrepareRecord(v, i, sha) =>
      var p := Active(Order(w, a.m), i);
      if IsSemantic(s, p) then
        Some(Move(p, ParticipantStatus.NeedsApproval, ParticipantStatus.Preparing, Version(s, p),
                  "SEMANTIC_OWNER_APPROVAL_REQUIRED", [], None, None))
      else
        Some(Move(p, ParticipantStatus.Verified, ParticipantStatus.Preparing, Version(s, p),
                  "CANDIDATE_COMMITTED_AND_VERIFIED", [], Some(sha), Evidence(p)))
    case PrepareFinish(v, target) =>
      Some(Transition(a.m, target, MigrationStatus.Preparing, v,
                      if target.Prepared? then "ALL_CONSUMERS_PREPARED" else "MIGRATION_WAITING_FOR_OWNER", [], []))
    case ApproveRecord(v, approval, pv) =>
      if a.m in s.migrations then Some(Approve(Owner(approval, s.migrations[a.m].intent))) else None
    case ApproveReopen(v, approval, pv) =>
      Some(Move(approval.participantId, ParticipantStatus.Preparing, ParticipantStatus.NeedsApproval, pv,
                "APPROVED_SEMANTIC_CANDIDATE_PREPARING", [], None, None))
    case ApproveVerify(v, approval, sha) =>
      var p := approval.participantId;
      Some(Move(p, ParticipantStatus.Verified, ParticipantStatus.Preparing, Version(s, p),
                "CANDIDATE_COMMITTED_AND_VERIFIED", [], Some(sha), Evidence(p)))
    case ApproveFinish(v, p) =>
      Some(Transition(a.m, MigrationStatus.Prepared, MigrationStatus.NeedsApproval, v,
                      "ALL_CONSUMERS_PREPARED_AFTER_OWNER_APPROVAL", [], []))
    case MarkFailed(p) =>
      if p in s.participants && (s.participants[p].status.Preparing? || s.participants[p].status.NeedsApproval?) then
        Some(Move(p, ParticipantStatus.Failed, s.participants[p].status, Version(s, p),
                  "PARTICIPANT_SAFETY_CHECK_FAILED", [], None, None))
      else None
    case CommitArm(v, request) => Some(Arm(a.m, v))
    case CommitPersist(v, pub) =>
      Some(Transition(a.m, MigrationStatus.Committed, MigrationStatus.Prepared, v,
                      "COORDINATED_PR_CREATED_AND_PRODUCER_GATE_RELEASED", [], pub.Receipts()))
    case AbortReserve(status, v) => Some(Reserve(a.m, status, v))
    case AbortPersist(status, v, receipt) => Some(Abort(a.m, receipt, status, v))
    case _ => None
  }

  /** The external call of an actor's next step, when that step makes one. */
  function CallOf(id: nat, a: Actor): seq<Call> {
    match a.pc
    case CommitStage(_, _) => [StageCall(id, a.m)]
    case CommitReconcile(_, _) => [ReconcileCall(id, a.m)]
    case CommitRelease(_, _) => [ReleaseCall(id, a.m)]
    case AbortCleanup(_, _, todo, _) => if todo == [] then [] else [CleanupCall(id, a.m, todo[0])]
    case _ => []
  }

  /** The candidate worktree an adapter's next step edits: never the semantic one without an approval. */
  function WriteOf(w: World, a: Actor): set<(string, string)> {
    match a.pc
    case PrepareAdapt(_, i) =>
      if IsSemantic(w.store, Active(Order(w, a.m), i)) then {} else {(a.m, Active(Order(w, a.m), i))}
    case ApproveAdapt(_, approval) => {(a.m, approval.participantId)}
    case _ => {}
  }

  predicate StatusIs(s: Store, m: string, status: MigrationStatus) {
    m in s.migrations && s.migrations[m].status == status
  }

  /** `list_participants`: the migration's participants in key order. */
  ghost function Listed(w: World, m: string): (r: seq<string>)
    ensures forall i :: 0 <= i < |r| ==> r[i] in w.store.participants
  {
    var r := Listing(ParticipantsOf(w.store, m));
    assert forall i :: 0 <= i < |r| ==> r[i] in r;
    r
  }

  /** Exactly three participants, all VERIFIED, each with its session's branch. */
  ghost predicate Collectable(w: World, m: string, branches: seq<string>) {
    && m in w.store.migrations && |branches| == 3 && |Listed(w, m)| == 3
    && forall i :: 0 <= i < 3 ==> w.store.participants[Listed(w, m)[i]].status.Verified?
  }

  ghost function Candidates(w: World, m: string, branches: seq<string>): seq<Candidate>
    requires Collectable(w, m, branches)
  {
    seq(3, i requires 0 <= i < 3 =>
      Candidate(Listed(w, m)[i], branches[i], w.store.participants[Listed(w, m)[i]].record.candidateSha))
  }

  ghost function RequestFor(w: World, m: string, branches: seq<string>): Request
    requires Collectable(w, m, branches)
  {
    Request(w.store.migrations[m].intent, Candidates(w, m, branches), "lineagetx/" + m + "/coordination", "main")
  }

  /** Every check of the step passes, and its transaction (if any) commits. */
  ghost predicate Passes(w: World, a: Actor, o: Oracle) {
    && (OpOf(w, a).Some? ==> Apply(w.store, OpOf(w, a).value).Success?)
    && match a.pc
       case PrepareEnter => StatusIs(w.store, a.m, MigrationStatus.Detected) && a.m in w.orders
       case PrepareOpen(_, i) => i < |Order(w, a.m)| || |Pending(w, a.m)| <= 1
       case PrepareAdapt(_, _) => o.accepted
       case ApproveEnter(_) => StatusIs(w.store, a.m, MigrationStatus.NeedsApproval)
       case ApproveCheck(_, approval) => ApprovalBinds(w, a.m, approval)
       case ApproveRecord(_, _, _) => a.m in w.store.migrations
       case ApproveAdapt(_, _) => o.accepted
       case PhaseWriteback(_) => o.accepted
       case CommitEnter =>
         StatusIs(w.store, a.m, MigrationStatus.Prepared) || StatusIs(w.store, a.m, MigrationStatus.Committed)
       case CommitCollect(_) =>
         o.accepted && Collectable(w, a.m, o.branches) && RequestFor(w, a.m, o.branches).WellFormed()
       case CommitStage(_, _) => o.accepted
       case CommitFallback => StatusIs(w.store, a.m, MigrationStatus.Prepared)
       case CommitFallbackArmed => a.m in w.store.migrations && !Armed(w.store, a.m)
       case CommitReconcile(_, request) => o.pub.Some? ==> o.pub.value.Validates(request)
       case CommitRelease(_, request) => o.pub.Some? && o.pub.value.Validates(request)
       case CommitConfirm => StatusIs(w.store, a.m, MigrationStatus.Committed)
       case AbortEnter => a.m in w.store.migrations && !IsTerminal(w.store.migrations[a.m].status)
       case AbortCleanup(_, _, todo, errors) =>
         todo == [] ==> o.receipt.migrationId == a.m && multiset(o.receipt.cleanupErrors) == multiset(errors)
       case _ => true
  }

  /** `validate_owner_approval`, and the pending session `_apply_approval` looks up. */
  predicate ApprovalBinds(w: World, m: string, approval: OwnerApproval) {
    var p := approval.participantId;
    && m in w.store.migrations && p in w.store.participants
    && w.store.participants[p].status.NeedsApproval?
    && w.store.participants[p].record.kind.SemanticApproval?
    && approval.migrationId == w.store.migrations[m].intent.migrationId
    && approval.oldField == w.store.migrations[m].intent.oldField
    && approval.newField == w.store.migrations[m].intent.newField
    && approval.ownerUrn in w.store.participants[p].record.ownerUrns
    && approval.approved
    && p in Order(w, m)
  }

  /** Where the actor goes when the step passed; read in the state before the step. */
  ghost function Next(w: World, a: Actor, o: Oracle): Pc {
    match a.pc
    case PrepareEnter => if a.m in w.store.migrations then PrepareClaim(w.store.migrations[a.m].version) else Done
    case PrepareClaim(v) => PrepareOpen(v + 1, 0)
    case PrepareOpen(v, i) =>
      if i < |Order(w, a.m)| then PrepareAdapt(v, i)
      else PrepareFinish(v, if Pending(w, a.m) == {} then MigrationStatus.Prepared else MigrationStatus.NeedsApproval)
    case PrepareAdapt(v, i) => PrepareRecord(v, i, o.sha)
    case PrepareRecord(v, i, _) => PrepareOpen(v, i + 1)
    case PrepareFinish(_, _) => PhaseWriteback(Active(Order(w, a.m), 3))
    case ApproveEnter(approval) =>
      if a.m in w.store.migrations then ApproveCheck(w.store.migrations[a.m].version, approval) else Done
    case ApproveCheck(v, approval) => ApproveRecord(v, approval, Version(w.store, approval.participantId))
    case ApproveRecord(v, approval, pv) => ApproveReopen(v, approval, pv)
    case ApproveReopen(v, approval, _) => ApproveAdapt(v, approval)
    case ApproveAdapt(v, approval) => ApproveVerify(v, approval, o.sha)
    case ApproveVerify(v, approval, _) => ApproveFinish(v, approval.participantId)
    case ApproveFinish(_, p) => PhaseWriteback(p)
    case CommitEnter =>
      if StatusIs(w.store, a.m, MigrationStatus.Prepared) then CommitCollect(w.store.migrations[a.m].version)
      else Writeback
    case CommitCollect(v) =>
      if Collectable(w, a.m, o.branches) then CommitStage(v, RequestFor(w, a.m, o.branches)) else Done
    case CommitStage(v, request) => CommitArm(v, request)
    case CommitFallback => CommitFallbackArmed
    case CommitFallbackArmed => AbortEnter
    case CommitArm(v, request) => CommitReconcile(v, request)
    case CommitReconcile(v, request) => if o.pub.Some? then CommitPersist(v, o.pub.value) else CommitRelease(v, request)
    case CommitRelease(v, _) => if o.pub.Some? then CommitPersist(v, o.pub.value) else Done
    case CommitPersist(_, _) => Writeback
    case CommitConfirm => Writeback
    case MarkFailed(_) => AbortEnter
    case AbortEnter =>
      if a.m in w.store.migrations
      then AbortReserve(w.store.migrations[a.m].status, w.store.migrations[a.m].version) else Done
    case AbortReserve(status, v) => AbortCleanup(status, v, o.sessions, [])
    case AbortCleanup(status, v, todo, errors) =>
      if todo == [] then AbortPersist(status, v, o.receipt)
      else AbortCleanup(status, v, todo[1..], if o.cleaned then errors else errors + [todo[0]])
    case AbortPersist(_, _, _) => Writeback
    case PhaseWriteback(_) => Done
    case Writeback => Done
    case Done => Done
  }

  /** Where the exception handlers take the actor. */
  function Handler(w: World, a: Actor): Pc {
    match a.pc
    case PrepareOpen(_, i) => MarkFailed(Active(Order(w, a.m), i))
    case PrepareAdapt(_, i) => MarkFailed(Active(Order(w, a.m), i))
    case PrepareRecord(_, i, _) => MarkFailed(Active(Order(w, a.m), i))
    case PrepareFinish(_, _) => MarkFailed(Active(Order(w, a.m), 3))
    case PhaseWriteback(p) => MarkFailed(p)
    case ApproveRecord(_, approval, _) => MarkFailed(approval.participantId)
    case ApproveReopen(_, approval, _) => MarkFailed(approval.participantId)
    case ApproveAdapt(_, approval) => MarkFailed(approval.participantId)
    case ApproveVerify(_, approval, _) => MarkFailed(approval.participantId)
    case ApproveFinish(_, p) => MarkFailed(p)
    case CommitCollect(_) => CommitFallback
    case CommitStage(_, _) => CommitFallback
    case CommitPersist(_, _) => CommitConfirm
    case MarkFailed(_) => AbortEnter
    case _ => Done
  }

  /** The step's effect on everything but the program counter. */
  ghost function Effect(w: World, id: nat): (u: World)
    requires id in w.actors
    ensures u.actors.Keys == w.actors.Keys
  {
    var a := w.actors[id];
    var op := OpOf(w, a);
    var took := op.Some? && Apply(w.store, op.value).Success?;
    w.(store := if op.Some? then Step(w.store, op.value) else w.store,
       actors := w.actors[id := a.(armed := a.armed || (a.pc.CommitArm? && took))],
       calls := w.calls + CallOf(id, a),
       written := w.written + WriteOf(w, a),
       published := if a.pc.CommitPersist? && took then w.published[a.m := a.pc.pub] else w.published)
  }

  ghost function Jump(w: World, id: nat, pc: Pc): World
    requires id in w.actors
  {
    w.(actors := w.actors[id := w.actors[id].(pc := pc)])
  }

  predicate IsEntry(pc: Pc) {
    pc.PrepareEnter? || pc.ApproveEnter? || pc.CommitEnter? || pc.AbortEnter?
  }

  /** One action of the environment or of one actor; an action that is not possible changes nothing. */
  ghost function Act(w: World, action: Action): World {
    match action
    case Detect(intent, ps, order) =>
      if IsDiscovery(intent, ps, order) && Apply(w.store, Create(intent, ps)).Success?
      then w.(store := Step(w.store, Create(intent, ps)), orders := w.orders[intent.migrationId := order])
      else w
    case Start(id, m, entry) =>
      if id !in w.actors && IsEntry(entry) then w.(actors := w.actors[id := Actor(m, false, entry)]) else w
    case Crash(id) => if id in w.actors then Jump(w, id, Done) else w
    case Go(id, o) =>
      if id !in w.actors then w
      else if Passes(w, w.actors[id], o) then Jump(Effect(w, id), id, Next(w, w.actors[id], o))
      else Jump(Effect(w, id), id, Handler(w, w.actors[id]))
    case Raise(id, o, effective) =>
      if id !in w.actors then w
      else Jump(if effective then Effect(w, id) else w, id, Handler(w, w.actors[id]))
  }

  const START := World(EMPTY, map[], map[], [], {}, map[])

  ghost function Actions(w: World, actions: seq<Action>): World
    decreases |actions|
  {
    if actions == [] then w else Actions(Act(w, actions[0]), actions[1..])
  }

  ghost predicate ReachableWorld(w: World) {
    exists actions :: w == Actions(START, actions)
  }
}
