/** The gate and the cleanup exclude each other over every interleaving. */
module ProtocolSafety {
  import opened Wrappers
  import opened Models
  import opened StoreSpec
  import opened StoreInvariant
  import opened StoreRuns
  import opened StoreTheorems
  import opened Publication
  import opened Protocol

  predicate IsGateCall(call: Call) { call.ReconcileCall? || call.ReleaseCall? }

  /** A call may stand in the trace only under the marker that permits it. */
  ghost predicate CallOk(w: World, call: Call) {
    && (IsGateCall(call) ==>
          && Armed(w.store, call.m)
          && call.actor in w.actors && w.actors[call.actor].armed && w.actors[call.actor].m == call.m)
    && (call.CleanupCall? ==> Reserved(w.store, call.m))
  }

  /** Past the durable arming, before any gate call. */
  predicate NeedsArmed(pc: Pc) {
    pc.CommitReconcile? || pc.CommitRelease? || pc.CommitPersist? || pc.CommitConfirm?
  }

  /** Past the durable reservation, before any cleanup call. */
  predicate NeedsReserved(pc: Pc) { pc.AbortCleanup? || pc.AbortPersist? }

  /** A request under way is well formed; a publication about to be persisted is complete. */
  predicate DataOk(pc: Pc) {
    match pc
    case CommitStage(_, request) => request.WellFormed()
    case CommitArm(_, request) => request.WellFormed()
    case CommitReconcile(_, request) => request.WellFormed()
    case CommitRelease(_, request) => request.WellFormed()
    case CommitPersist(_, pub) => pub.Complete()
    case _ => true
  }

  ghost predicate ActorOk(s: Store, a: Actor) {
    && (a.armed ==> Armed(s, a.m))
    && (NeedsArmed(a.pc) ==> a.armed)
    && (NeedsReserved(a.pc) ==> Reserved(s, a.m))
    && DataOk(a.pc)
  }

  ghost predicate Safe(w: World) {
    && Valid(w.store) && Exclusive(w.store)
    && (forall id :: id in w.actors ==> ActorOk(w.store, w.actors[id]))
    && (forall k :: 0 <= k < |w.calls| ==> CallOk(w, w.calls[k]))
  }

  /** One honest transaction moves the markers only forward. */
  lemma StoreStep(s: Store, op: Op)
    requires Valid(s) && Exclusive(s) && Honest(op)
    ensures Valid(Step(s, op)) && Exclusive(Step(s, op)) && Grows(s, Step(s, op))
    ensures forall m :: Armed(s, m) ==> Armed(Step(s, op), m)
    ensures forall m :: Reserved(s, m) ==> Reserved(Step(s, op), m)
  {
    hide Valid, Exclusive, Step, Armed, Reserved, Honest;
    StepKeeps(s, op);
    StepExclusive(s, op);
    forall m ensures Armed(s, m) ==> Armed(Step(s, op), m) { StepMarkers(s, op, m); }
    forall m ensures Reserved(s, m) ==> Reserved(Step(s, op), m) { StepMarkers(s, op, m); }
  }

  /** The coordinator never reuses a marker name as an event type. */
  lemma CoordinatorIsHonest(w: World, a: Actor)
    requires OpOf(w, a).Some?
    ensures Honest(OpOf(w, a).value)
  {}

  /** Taking the arm (or reserve) transaction leaves the marker behind. */
  lemma MarkerTaken(s: Store, op: Op)
    requires Valid(s) && Apply(s, op).Success?
    ensures op.Arm? ==> Armed(Step(s, op), op.m)
    ensures op.Reserve? ==> Reserved(Step(s, op), op.m)
  {
    hide Valid, Step;
    if op.Arm? || op.Reserve? { StepMarkers(s, op, op.m); }
  }

  ghost predicate MarkersKept(s: Store, t: Store) {
    (forall m :: Armed(s, m) ==> Armed(t, m)) && (forall m :: Reserved(s, m) ==> Reserved(t, m))
  }

  /** The store after a step's effect, and what every other actor and old call keeps. */
  lemma EffectStore(w: World, id: nat)
    requires Safe(w) && id in w.actors
    ensures var t := Effect(w, id).store;
            Valid(t) && Exclusive(t) && Grows(w.store, t) && MarkersKept(w.store, t)
  {
    hide Valid, Exclusive, Armed, Reserved, ActorOk, CallOk, CallOf, WriteOf, OpOf, Apply, Step;
    var op := OpOf(w, w.actors[id]);
    if op.Some? {
      CoordinatorIsHonest(w, w.actors[id]);
      StoreStep(w.store, op.value);
    } else {
      GrowsReflexive(w.store);
    }
  }

  predicate IsCommitArm(pc: Pc) { pc.CommitArm? }

  predicate IsAbortReserve(pc: Pc) { pc.AbortReserve? }

  /** The marker transactions of the two phases, when they commit. */
  ghost predicate Marks(w: World, a: Actor) {
    OpOf(w, a).Some? && Apply(w.store, OpOf(w, a).value).Success?
  }

  lemma MarkerOps(w: World, a: Actor)
    ensures IsCommitArm(a.pc) ==> OpOf(w, a).Some? && OpOf(w, a).value.Arm? && OpOf(w, a).value.m == a.m
    ensures IsAbortReserve(a.pc) ==> OpOf(w, a).Some? && OpOf(w, a).value.Reserve? && OpOf(w, a).value.m == a.m
  {}

  /** The actor after its step's effect, before it moves on. */
  lemma EffectActor(w: World, id: nat)
    requires Safe(w) && id in w.actors
    ensures var t, b := Effect(w, id).store, Effect(w, id).actors[id];
            && ActorOk(t, b) && b.m == w.actors[id].m && b.pc == w.actors[id].pc
            && (w.actors[id].armed ==> b.armed)
            && (IsCommitArm(b.pc) && Marks(w, w.actors[id]) ==> b.armed)
            && (IsAbortReserve(b.pc) && Marks(w, w.actors[id]) ==> Reserved(t, b.m))
  {
    hide Valid, Exclusive, Armed, Reserved, CallOk, CallOf, WriteOf, Step, Apply, OpOf, DataOk, NeedsArmed,
         NeedsReserved;
    EffectStore(w, id);
    var a := w.actors[id];
    MarkerOps(w, a);
    assert ActorOk(w.store, a);
    if Marks(w, a) { MarkerTaken(w.store, OpOf(w, a).value); }
  }

  lemma EffectSafe(w: World, id: nat)
    requires Safe(w) && id in w.actors
    ensures Safe(Effect(w, id))
  {
    hide Valid, Exclusive, Armed, Reserved, WriteOf, OpOf, Apply, Step;
    EffectStore(w, id);
    EffectActor(w, id);
    var u := Effect(w, id);
    forall j | j in u.actors ensures ActorOk(u.store, u.actors[j]) {
      if j != id { assert ActorOk(w.store, w.actors[j]); }
    }
    forall k | 0 <= k < |u.calls| ensures CallOk(u, u.calls[k]) {
      if k < |w.calls| { assert CallOk(w, w.calls[k]); assert u.calls[k] == w.calls[k]; }
      else { assert u.calls[k] == CallOf(id, w.actors[id])[k - |w.calls|]; }
    }
  }

  lemma JumpSafe(w: World, id: nat, pc: Pc)
    requires Safe(w) && id in w.actors && ActorOk(w.store, w.actors[id].(pc := pc))
    ensures Safe(Jump(w, id, pc))
  {
    hide Valid, Exclusive, Armed, Reserved;
    var u := Jump(w, id, pc);
    forall k | 0 <= k < |u.calls| ensures CallOk(u, u.calls[k]) { assert CallOk(w, w.calls[k]); }
  }

  /** A gate call is entered from the arming, a cleanup from the reservation, nowhere else. */
  lemma NextPc(w: World, a: Actor, o: Oracle)
    requires DataOk(a.pc) && Passes(w, a, o)
    ensures var pc := Next(w, a, o);
            && DataOk(pc)
            && (NeedsArmed(pc) ==> NeedsArmed(a.pc) || IsCommitArm(a.pc))
            && (NeedsReserved(pc) ==> NeedsReserved(a.pc) || IsAbortReserve(a.pc))
  {
    hide Apply, OpOf, RequestFor, Collectable, ApprovalBinds, StatusIs, Armed, Active, Order, Version, Pending;
  }

  lemma HandlerPc(w: World, a: Actor)
    requires DataOk(a.pc)
    ensures var pc := Handler(w, a);
            && DataOk(pc) && (NeedsArmed(pc) ==> NeedsArmed(a.pc)) && !NeedsReserved(pc)
  {
    hide Active, Order;
  }

  /** Where a passing step leads, its preconditions hold. */
  lemma NextOk(w: World, id: nat, o: Oracle)
    requires Safe(w) && id in w.actors && Passes(w, w.actors[id], o)
    ensures ActorOk(Effect(w, id).store, Effect(w, id).actors[id].(pc := Next(w, w.actors[id], o)))
  {
    hide Valid, Exclusive, Armed, Reserved, CallOk, Apply, Effect, OpOf, DataOk, NeedsArmed, NeedsReserved, Next;
    EffectActor(w, id);
    assert ActorOk(w.store, w.actors[id]);
    var a := w.actors[id];
    MarkerOps(w, a);
    if OpOf(w, a).Some? { PassesMarks(w, a, o); }
    NextPc(w, a, o);
  }

  lemma PassesMarks(w: World, a: Actor, o: Oracle)
    requires Passes(w, a, o) && OpOf(w, a).Some?
    ensures Marks(w, a)
  {}

  lemma HandlerOk(w: World, id: nat)
    requires Safe(w) && id in w.actors
    ensures ActorOk(w.store, w.actors[id].(pc := Handler(w, w.actors[id])))
    ensures ActorOk(Effect(w, id).store, Effect(w, id).actors[id].(pc := Handler(w, w.actors[id])))
  {
    hide Valid, Exclusive, Armed, Reserved, CallOk, Effect, DataOk, NeedsArmed, NeedsReserved, Handler;
    EffectActor(w, id);
    assert ActorOk(w.store, w.actors[id]);
    HandlerPc(w, w.actors[id]);
  }

  lemma DetectSafe(w: World, intent: Intent, ps: seq<Participant>, order: seq<string>)
    requires Safe(w)
    ensures Safe(Act(w, Detect(intent, ps, order)))
  {
    hide Valid, Exclusive, Armed, Reserved, IsDiscovery, Apply, Step;
    StoreStep(w.store, Create(intent, ps));
    var u := Act(w, Detect(intent, ps, order));
    forall k | 0 <= k < |u.calls| ensures CallOk(u, u.calls[k]) { assert CallOk(w, w.calls[k]); }
  }

  lemma ActSafe(w: World, action: Action)
    requires Safe(w)
    ensures Safe(Act(w, action))
  {
    hide Safe, Valid, Exclusive, Effect, Passes, Next, Handler, ActorOk, CallOk;
    match action
    case Detect(intent, ps, order) => DetectSafe(w, intent, ps, order);
    case Start(id, m, entry) => StartSafe(w, id, m, entry);
    case Crash(id) => if id in w.actors { DoneOk(w, id); JumpSafe(w, id, Done); }
    case Go(id, o) =>
      if id in w.actors {
        EffectSafe(w, id);
        if Passes(w, w.actors[id], o) {
          NextOk(w, id, o);
          JumpSafe(Effect(w, id), id, Next(w, w.actors[id], o));
        } else {
          HandlerOk(w, id);
          JumpSafe(Effect(w, id), id, Handler(w, w.actors[id]));
        }
      }
    case Raise(id, o, effective) =>
      if id in w.actors {
        EffectSafe(w, id);
        HandlerOk(w, id);
        JumpSafe(if effective then Effect(w, id) else w, id, Handler(w, w.actors[id]));
      }
  }

  lemma DoneOk(w: World, id: nat)
    requires Safe(w) && id in w.actors
    ensures ActorOk(w.store, w.actors[id].(pc := Done))
  {
    assert ActorOk(w.store, w.actors[id]);
  }

  lemma StartSafe(w: World, id: nat, m: string, entry: Pc)
    requires Safe(w)
    ensures Safe(Act(w, Start(id, m, entry)))
  {
    hide Valid, Exclusive, Armed, Reserved;
    var u := Act(w, Start(id, m, entry));
    forall k | 0 <= k < |u.calls| ensures CallOk(u, u.calls[k]) { assert CallOk(w, w.calls[k]); }
  }

  lemma {:induction false} ActionsSafe(w: World, actions: seq<Action>)
    requires Safe(w)
    ensures Safe(Actions(w, actions))
    decreases |actions|
  {
    if actions != [] {
      hide Safe, Act;
      ActSafe(w, actions[0]);
      ActionsSafe(Act(w, actions[0]), actions[1..]);
    }
  }

  lemma WorldSafe(w: World)
    requires ReachableWorld(w)
    ensures Safe(w)
  {
    hide Act;
    var actions :| w == Actions(START, actions);
    StartExclusive();
    ActionsSafe(START, actions);
  }

  // ---- the promises ----------------------------------------------------------

  ghost predicate GateTouched(w: World, m: string) {
    exists k :: 0 <= k < |w.calls| && IsGateCall(w.calls[k]) && w.calls[k].m == m
  }

  ghost predicate CleanupStarted(w: World, m: string) {
    exists k :: 0 <= k < |w.calls| && w.calls[k].CleanupCall? && w.calls[k].m == m
  }

  /** No run of a migration contains both a publisher gate call and a candidate cleanup call. */
  lemma GateOrCleanup(w: World, m: string)
    requires ReachableWorld(w)
    ensures !(GateTouched(w, m) && CleanupStarted(w, m))
  {
    hide ReachableWorld, Valid, Armed, Reserved;
    WorldSafe(w);
  }

  /** Once the gate is armed, whoever armed it, every candidate is retained and the status is PREPARED or COMMITTED. */
  lemma ArmedRetains(w: World, m: string)
    requires ReachableWorld(w) && Armed(w.store, m)
    ensures !CleanupStarted(w, m)
    ensures StatusIs(w.store, m, MigrationStatus.Prepared) || StatusIs(w.store, m, MigrationStatus.Committed)
  {
    hide ReachableWorld, Valid, Armed, Reserved;
    WorldSafe(w);
  }

  /**
    Wherever a commit attempt stands or failed: either it armed the gate, and then no candidate is ever
    cleaned up and the status is PREPARED or COMMITTED; or it made no gate call at all.
   */
  lemma CommitDichotomy(w: World, id: nat)
    requires ReachableWorld(w) && id in w.actors
    ensures var a := w.actors[id];
            if a.armed then
              && Armed(w.store, a.m)
              && !CleanupStarted(w, a.m)
              && (StatusIs(w.store, a.m, MigrationStatus.Prepared) || StatusIs(w.store, a.m, MigrationStatus.Committed))
            else
              forall k :: 0 <= k < |w.calls| && IsGateCall(w.calls[k]) ==> w.calls[k].actor != id
  {
    hide ReachableWorld, Valid, Armed, Reserved;
    WorldSafe(w);
    assert ActorOk(w.store, w.actors[id]);
  }
}
