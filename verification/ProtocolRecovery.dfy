/** What the coordinator committed is what the log gives back. */
module ProtocolRecovery {
  import opened Wrappers
  import opened Json
  import opened Models
  import opened StoreSpec
  import opened StoreInvariant
  import opened StoreRuns
  import opened StoreTheorems
  import opened Publication
  import opened Recovery
  import opened Protocol
  import opened ProtocolSafety
  import opened ProtocolApproval

  /** The commit event of `m` records the publication its actor persisted, under an armed gate. */
  ghost predicate RecordedIn(s: Store, m: string, pub: Publication) {
    && Armed(s, m) && pub.Complete()
    && exists i :: 0 <= i < |s.events| && IsCommitEvent(s.events[i], m) && Records(s.events[i], pub.Receipts())
  }

  ghost predicate Recorded(s: Store, published: map<string, Publication>) {
    forall m :: m in s.migrations && s.migrations[m].status.Committed? ==>
      m in published && RecordedIn(s, m, published[m])
  }

  lemma RecordedKept(s: Store, t: Store, m: string, pub: Publication)
    requires RecordedIn(s, m, pub) && Grows(s, t) && MarkersKept(s, t)
    ensures RecordedIn(t, m, pub)
  {
    hide Armed, Records, IsCommitEvent;
    var i :| 0 <= i < |s.events| && IsCommitEvent(s.events[i], m) && Records(s.events[i], pub.Receipts());
    assert t.events[i] == s.events[i];
  }

  /** The event a commit appends holds its receipts. */
  lemma PersistRecords(s: Store, op: Op)
    requires op.Transition? && op.target.Committed? && Apply(s, op).Success?
    ensures op.expectedStatus.Prepared? && StatusIs(s, op.m, MigrationStatus.Prepared)
    ensures |Step(s, op).events| == |s.events| + 1
    ensures IsCommitEvent(Step(s, op).events[|s.events|], op.m) && Records(Step(s, op).events[|s.events|], op.receipts)
  {
    hide CommitGuard, MaxSequence, ReceiptDicts;
    assert op.receipts != [];
  }

  /** Only the coordinator's persist step commits a migration. */
  lemma CommitOps(w: World, a: Actor)
    requires OpOf(w, a).Some?
    ensures var op := OpOf(w, a).value;
            op.Transition? && op.target.Committed? && op.expectedStatus.Prepared? ==>
              a.pc.CommitPersist? && op.m == a.m && op.receipts == a.pc.pub.Receipts()
    ensures var op := OpOf(w, a).value;
            a.pc.CommitPersist? ==> op.Transition? && op.target.Committed? && op.m == a.m
  {}

  lemma EffectRecorded(w: World, id: nat)
    requires Safe(w) && Gated(w) && Recorded(w.store, w.published) && id in w.actors
    ensures Recorded(Effect(w, id).store, Effect(w, id).published)
  {
    hide Valid, Exclusive, RecordedIn, OpOf, Apply, Step, Grows, MarkersKept, RowsOk, EventsHonour, Knows, WriteOk,
         CallOk, CallOf, WriteOf;
    var a, s, u := w.actors[id], w.store, Effect(w, id);
    EffectStore(w, id);
    if Marks(w, a) {
      var op := OpOf(w, a).value;
      CommitOps(w, a);
      OpIsGentle(w, a);
      forall m | m in u.store.migrations && u.store.migrations[m].status.Committed?
        ensures m in u.published && RecordedIn(u.store, m, u.published[m])
      {
        MigrationChanges(s, op, m);
        if op.Transition? && op.target.Committed? {
          PersistRecords(s, op);
          if op.m == m { PersistedNow(w, id); } else { RecordedKept(s, u.store, m, w.published[m]); }
        } else {
          RecordedKept(s, u.store, m, w.published[m]);
        }
      }
    } else {
      if OpOf(w, a).Some? { FailedStep(s, OpOf(w, a).value); }
    }
  }

  lemma PersistedNow(w: World, id: nat)
    requires Safe(w) && id in w.actors && Marks(w, w.actors[id])
    requires w.actors[id].pc.CommitPersist?
    ensures var a, u := w.actors[id], Effect(w, id);
            a.m in u.published && u.published[a.m] == a.pc.pub && RecordedIn(u.store, a.m, a.pc.pub)
  {
    hide Valid, Exclusive, Apply, Step, Grows, OpOf, CallOk, CallOf, WriteOf, Records, IsCommitEvent, Armed, Reserved;
    var a := w.actors[id];
    EffectStore(w, id);
    CommitOps(w, a);
    PersistRecords(w.store, OpOf(w, a).value);
    assert ActorOk(w.store, a);
  }

  lemma ActRecorded(w: World, action: Action)
    requires Safe(w) && Gated(w) && Recorded(w.store, w.published)
    ensures Recorded(Act(w, action).store, Act(w, action).published)
  {
    hide Safe, Gated, Recorded, Effect, Passes, Next, Handler, Step, Apply;
    match action
    case Detect(intent, ps, order) => DetectRecorded(w, intent, ps);
    case Start(id, m, entry) =>
    case Crash(id) =>
    case Go(id, o) => if id in w.actors { EffectRecorded(w, id); }
    case Raise(id, o, effective) => if id in w.actors { EffectRecorded(w, id); }
  }

  lemma DetectRecorded(w: World, intent: Intent, ps: seq<Participant>)
    requires Safe(w) && Recorded(w.store, w.published)
    ensures Recorded(Step(w.store, Create(intent, ps)), w.published)
  {
    hide Valid, Exclusive, RecordedIn, Apply, Step, Grows, Armed, Reserved;
    var s, op := w.store, Create(intent, ps);
    if Apply(s, op).Failure? { FailedStep(s, op); return; }
    StoreStep(s, op);
    forall m | m in Step(s, op).migrations && Step(s, op).migrations[m].status.Committed?
      ensures m in w.published && RecordedIn(Step(s, op), m, w.published[m])
    {
      MigrationChanges(s, op, m);
      RecordedKept(s, Step(s, op), m, w.published[m]);
    }
  }

  lemma {:induction false} ActionsRecorded(w: World, actions: seq<Action>)
    requires Safe(w) && Gated(w) && Recorded(w.store, w.published)
    ensures Recorded(Actions(w, actions).store, Actions(w, actions).published)
    decreases |actions|
  {
    if actions != [] {
      hide Safe, Gated, Recorded, Act;
      ActSafe(w, actions[0]);
      ActGated(w, actions[0]);
      ActRecorded(w, actions[0]);
      ActionsRecorded(Act(w, actions[0]), actions[1..]);
    }
  }

  lemma WorldRecorded(w: World)
    requires ReachableWorld(w)
    ensures Recorded(w.store, w.published)
  {
    hide Act;
    var actions :| w == Actions(START, actions);
    StartExclusive();
    ActionsRecorded(START, actions);
  }

  lemma RecordsOne(e: Event, xs: seq<CoordinationReceipt>, ys: seq<CoordinationReceipt>)
    requires Records(e, xs) && Records(e, ys)
    ensures xs == ys
  {
    ReceiptsRoundTrip(xs);
    ReceiptsRoundTrip(ys);
  }

  /**
    In every run of any number of actors, restarts included: a COMMITTED migration's log gives back exactly
    the publication its commit actor had validated and persisted.
   */
  lemma CommittedPublicationRecovers(w: World, m: string)
    requires ReachableWorld(w) && StatusIs(w.store, m, MigrationStatus.Committed)
    ensures m in w.published && PublicationFromLog(LogOf(w.store.events, m)) == Some(w.published[m])
  {
    hide ReachableWorld, Core, Exclusive, Armed, Reserved, Records, PublicationFromLog, IsCommitEvent, Gated;
    WorldSafe(w);
    WorldRecorded(w);
    var s, pub := w.store, w.published[m];
    assert Lifecycle(s, m);
    var i: nat, receipts :| CommittedBy(s, m, i, receipts);
    var k :| 0 <= k < |s.events| && IsCommitEvent(s.events[k], m) && Records(s.events[k], pub.Receipts());
    RecordsOne(s.events[i], receipts, pub.Receipts());
    ArmedRecovers(s, m, i, pub);
  }
}
