/** What the store promises over every run, stated for its readers. */
module StoreTheorems {
  import opened Wrappers
  import opened Json
  import opened Models
  import opened Ordering
  import opened StoreSpec
  import opened StoreInvariant
  import opened StorePreservation
  import opened StoreRuns

  /** A store some sequence of calls leaves, whatever their arguments. */
  ghost predicate Reachable(s: Store) {
    exists ops :: s == Run(EMPTY, ops)
  }

  /** A store left by calls that do not forge the two marker names. */
  ghost predicate HonestlyReachable(s: Store) {
    exists ops :: s == Run(EMPTY, ops) && forall i :: 0 <= i < |ops| ==> Honest(ops[i])
  }

  lemma ReachableIsValid(s: Store)
    requires Reachable(s)
    ensures Valid(s)
  {
    var ops :| s == Run(EMPTY, ops);
    ReachableValid(ops);
  }

  // ---- the log is the state --------------------------------------------------

  /** Folding the log, event by legal event, rebuilds both tables; sequence numbers are 1..n. */
  lemma LogReplaysTables(s: Store)
    requires Reachable(s)
    ensures forall m :: m in s.migrations ==>
              ReplayMigration(s.events, m) == Position(s.migrations[m].status, s.migrations[m].version)
    ensures forall p :: p in s.participants ==>
              && ReplayParticipant(s.events, p) == Position(s.participants[p].status, s.participants[p].version)
              && s.participants[p].record.status == s.participants[p].status
              && s.participants[p].record.version == s.participants[p].version
    ensures forall m, k :: 0 <= k < |LogOf(s.events, m)| ==> LogOf(s.events, m)[k].sequence == k + 1
    ensures forall i :: 0 <= i < |s.events| ==> IsEdgeOrStutter(s.events[i].change)
  {
    ReachableIsValid(s);
    forall i | 0 <= i < |s.events| ensures IsEdgeOrStutter(s.events[i].change) { assert EventOk(s, s.events[i]); }
    forall m | m in s.migrations
      ensures ReplayMigration(s.events, m) == Position(s.migrations[m].status, s.migrations[m].version)
    {
      assert MigrationOk(s, m);
    }
    forall p | p in s.participants ensures ParticipantOk(s, p) {}
    forall m, k | 0 <= k < |LogOf(s.events, m)| ensures LogOf(s.events, m)[k].sequence == k + 1 {
      assert Numbered(s.events, m);
    }
  }

  // ---- settled migrations ----------------------------------------------------

  /** The participants of a known migration never come or go; once it is terminal their rows are frozen. */
  ghost predicate Frozen(s: Store, t: Store, m: string) {
    && ParticipantsOf(t, m) == ParticipantsOf(s, m)
    && (m in s.migrations && IsTerminal(s.migrations[m].status) ==>
          forall p :: p in ParticipantsOf(s, m) ==> t.participants[p] == s.participants[p])
  }

  lemma AbortFreezes(s: Store, m: string, receipt: CleanupReceipt, e: MigrationStatus, v: nat, n: string)
    requires Core(s) && n in s.migrations && AbortMigration(s, m, receipt, e, v).Success?
    ensures Frozen(s, AbortMigration(s, m, receipt, e, v).value, n)
  {
    hide Core, Listing, AbortAll, MaxSequence;
    AbortKeeps(s, m, receipt, e, v);
  }

  lemma CreateFreezes(s: Store, intent: Intent, ps: seq<Participant>, m: string)
    requires Core(s) && m in s.migrations && CreateMigration(s, intent, ps).Success?
    ensures Frozen(s, CreateMigration(s, intent, ps).value, m)
  {
    CreateCreates(s, intent, ps);
    CreatedFreezes(s, CreateMigration(s, intent, ps).value, intent, [Member("participant_ids", Strings(Ids(ps)))], m);
  }

  lemma CreatedFreezes(s: Store, t: Store, intent: Intent, payload: seq<Member>, m: string)
    requires Created(s, t, intent, payload) && m in s.migrations
    ensures Frozen(s, t, m)
  {}

  lemma StepFreezes(s: Store, op: Op, m: string)
    requires Valid(s) && m in s.migrations
    ensures Frozen(s, Step(s, op), m)
  {
    hide Lifecycle, MaxSequence, Grows, Merged, Core, CommitGuard, PreparationGuard, CreateMigration, AbortMigration;
    if Apply(s, op).Success? {
      match op
      case Create(intent, ps) => CreateFreezes(s, intent, ps, m);
      case Abort(n, cleanup, e, v) => AbortFreezes(s, n, cleanup, e, v, m);
      case _ =>
    }
  }

  lemma {:induction false} RunFreezes(s: Store, ops: seq<Op>, m: string)
    requires Valid(s) && m in s.migrations
    ensures Frozen(s, Run(s, ops), m)
    decreases |ops|
  {
    if ops != [] {
      hide Valid, Grows;
      var t := Step(s, ops[0]);
      StepKeeps(s, ops[0]);
      StepFreezes(s, ops[0], m);
      assert m in t.migrations && (IsTerminal(s.migrations[m].status) ==> t.migrations[m] == s.migrations[m]) by {
        GrowsMigration(s, t, m);
      }
      RunFreezes(t, ops[1..], m);
    }
  }

  lemma GrowsMigration(s: Store, t: Store, m: string)
    requires Grows(s, t) && m in s.migrations
    ensures m in t.migrations && s.migrations[m].version <= t.migrations[m].version
    ensures IsTerminal(s.migrations[m].status) ==> t.migrations[m] == s.migrations[m]
  {}

  /** Terminal states are permanent: row and participants stay exactly as they are, whatever is called later. */
  lemma TerminalIsPermanent(s: Store, later: seq<Op>, m: string)
    requires Reachable(s) && m in s.migrations && IsTerminal(s.migrations[m].status)
    ensures m in Run(s, later).migrations && Run(s, later).migrations[m] == s.migrations[m]
    ensures Frozen(s, Run(s, later), m)
  {
    hide Valid, Frozen;
    ReachableIsValid(s);
    RunKeeps(s, later);
    RunFreezes(s, later, m);
  }

  /** COMMITTED always means: some participants, each ready, each commit named by a receipt of the commit event. */
  lemma CommittedIsAccounted(s: Store, m: string)
    requires Reachable(s) && m in s.migrations && s.migrations[m].status.Committed?
    ensures ParticipantsOf(s, m) != {}
    ensures exists i: nat, receipts :: CommittedBy(s, m, i, receipts)
  {
    ReachableIsValid(s);
    assert Lifecycle(s, m);
  }

  /** Each status is met at its own versions only, never above 4; ABORTED settles every participant. */
  lemma LifecycleBounds(s: Store, m: string)
    requires Reachable(s) && m in s.migrations
    ensures ReachableAt(s.migrations[m].status, s.migrations[m].version) && s.migrations[m].version <= 4
    ensures s.migrations[m].status.Aborted? ==>
              forall p :: p in ParticipantsOf(s, m) ==> IsSettled(s.participants[p].status)
  {
    ReachableIsValid(s);
    assert Lifecycle(s, m);
  }

  // ---- optimistic locking ----------------------------------------------------

  /** `op` is a call that moves the status of `m` and expects version `v`. */
  predicate Contends(op: Op, m: string, v: nat) {
    (op.Transition? && op.m == m && op.expectedVersion == v) || (op.Abort? && op.m == m && op.expectedVersion == v)
  }

  lemma ContenderBumps(s: Store, op: Op, m: string, v: nat)
    requires Valid(s) && Contends(op, m, v) && Apply(s, op).Success?
    ensures m in s.migrations && s.migrations[m].version == v
    ensures m in Step(s, op).migrations && Step(s, op).migrations[m].version == v + 1
  {
    hide Lifecycle, MaxSequence, Grows, AbortAll, Listing, CommitGuard, PreparationGuard;
    if op.Abort? { AbortKeeps(s, m, op.cleanup, op.expectedStatus, v); }
  }

  /** Of all calls that expect one version, at most one ever changes the status. */
  lemma OneWinnerPerVersion(s: Store, first: Op, between: seq<Op>, second: Op, m: string, v: nat)
    requires Reachable(s)
    requires Contends(first, m, v) && Contends(second, m, v)
    requires Apply(s, first).Success?
    ensures Apply(Run(Step(s, first), between), second).Failure?
  {
    hide Valid, Grows;
    ReachableIsValid(s);
    ContenderBumps(s, first, m, v);
    StepKeeps(s, first);
    var t := Step(s, first);
    RunKeeps(t, between);
    GrowsMigration(t, Run(t, between), m);
    if Apply(Run(t, between), second).Success? { ContenderBumps(Run(t, between), second, m, v); }
  }

  // ---- the two markers -------------------------------------------------------

  lemma HasEventAppend(events: seq<Event>, e: Event, m: string, eventType: string)
    ensures HasEvent(events + [e], m, eventType) <==>
            HasEvent(events, m, eventType) || (e.migrationId == m && e.eventType == eventType)
  {
    var all := events + [e];
    if HasEvent(events, m, eventType) {
      var i :| 0 <= i < |events| && events[i].migrationId == m && events[i].eventType == eventType;
      assert all[i] == events[i];
    }
    assert all[|events|] == e;
  }

  ghost predicate SameMarkers(s: Store, t: Store) {
    forall m :: Armed(t, m) == Armed(s, m) && Reserved(t, m) == Reserved(s, m)
  }

  lemma PlainAppend(s: Store, t: Store)
    requires |t.events| == |s.events| + 1 && t.events[..|s.events|] == s.events
    requires t.events[|s.events|].eventType != GATE_ARMED && t.events[|s.events|].eventType != ABORT_RESERVED
    ensures SameMarkers(s, t)
  {
    var e := t.events[|s.events|];
    assert t.events == s.events + [e];
    forall m ensures Armed(t, m) == Armed(s, m) && Reserved(t, m) == Reserved(s, m) {
      HasEventAppend(s.events, e, m, GATE_ARMED);
      HasEventAppend(s.events, e, m, ABORT_RESERVED);
    }
  }

  /** Events of other types leave a marker where it was. */
  lemma LaterEventsKeepMarkers(a: seq<Event>, t: seq<Event>, n: string, eventType: string)
    requires |a| <= |t| && t[..|a|] == a
    requires forall i :: |a| <= i < |t| ==> t[i].eventType != eventType
    ensures HasEvent(t, n, eventType) == HasEvent(a, n, eventType)
  {
    assert forall i :: 0 <= i < |a| ==> t[i] == a[i];
    if HasEvent(a, n, eventType) {
      var i :| 0 <= i < |a| && a[i].migrationId == n && a[i].eventType == eventType;
      assert t[i] == a[i];
    }
  }

  lemma AbortMarkers(s: Store, m: string, receipt: CleanupReceipt, e: MigrationStatus, v: nat)
    requires Core(s) && AbortMigration(s, m, receipt, e, v).Success?
    ensures SameMarkers(s, AbortMigration(s, m, receipt, e, v).value)
  {
    hide Core, Listing, AbortAll, MaxSequence, HasEvent, IsSettled;
    var a := AbortRow(s, m, receipt);
    var t := AbortMigration(s, m, receipt, e, v).value;
    AbortKeeps(s, m, receipt, e, v);
    PlainAppend(s, a);
    forall n ensures Armed(t, n) == Armed(s, n) && Reserved(t, n) == Reserved(s, n) {
      LaterEventsKeepMarkers(a.events, t.events, n, GATE_ARMED);
      LaterEventsKeepMarkers(a.events, t.events, n, ABORT_RESERVED);
    }
  }

  /** Only `arm_publication_gate` and `reserve_abort_cleanup` write the markers. */
  lemma OtherOpsKeepMarkers(s: Store, op: Op)
    requires Valid(s) && Honest(op) && !op.Arm? && !op.Reserve?
    ensures SameMarkers(s, Step(s, op))
  {
    hide Lifecycle, MaxSequence, Core, Listing, AbortAll, ReplayMigration, CommitGuard, PreparationGuard, Merged;
    if Apply(s, op).Success? {
      if op.Abort? {
        AbortMarkers(s, op.m, op.cleanup, op.expectedStatus, op.expectedVersion);
      } else {
        PlainAppend(s, Step(s, op));
      }
    }
  }

  lemma StutterMarkers(s: Store, m: string, eventType: string, payload: seq<Member>, n: string)
    requires m in s.migrations
    ensures var t := Stutter(s, m, eventType, payload);
            && (Armed(t, n) <==> Armed(s, n) || (n == m && eventType == GATE_ARMED))
            && (Reserved(t, n) <==> Reserved(s, n) || (n == m && eventType == ABORT_RESERVED))
  {
    var t := Stutter(s, m, eventType, payload);
    HasEventAppend(s.events, t.events[|s.events|], n, GATE_ARMED);
    HasEventAppend(s.events, t.events[|s.events|], n, ABORT_RESERVED);
  }

  /** Where the markers stand after one honest call. */
  lemma StepMarkers(s: Store, op: Op, n: string)
    requires Valid(s) && Honest(op)
    ensures var t := Step(s, op);
            && (Armed(t, n) <==> Armed(s, n) || (op.Arm? && op.m == n && Apply(s, op).Success?))
            && (Reserved(t, n) <==> Reserved(s, n) || (op.Reserve? && op.m == n && Apply(s, op).Success?))
  {
    hide Valid, Stutter;
    if !op.Arm? && !op.Reserve? {
      OtherOpsKeepMarkers(s, op);
    } else if Apply(s, op).Success? {
      if op.Arm? && !Armed(s, op.m) { StutterMarkers(s, op.m, GATE_ARMED, ArmedPayload(), n); }
      if op.Reserve? && !Reserved(s, op.m) { StutterMarkers(s, op.m, ABORT_RESERVED, ReservedPayload(), n); }
    }
  }

  /** An armed gate leaves a PREPARED migration only one way out. */
  lemma ArmedStatus(s: Store, op: Op, m: string)
    requires Valid(s) && m in s.migrations && Armed(s, m)
    requires s.migrations[m].status.Prepared? || s.migrations[m].status.Committed?
    ensures m in Step(s, op).migrations
    ensures Step(s, op).migrations[m].status.Prepared? || Step(s, op).migrations[m].status.Committed?
  {
    hide Lifecycle, MaxSequence, Core, Listing, AbortAll, CommitGuard, PreparationGuard, Merged, WithReceipts,
         InsertAll,
         Kinds, Shas, CandidateShas, IsCommitSha, Grows;
    if Apply(s, op).Success? && op.Abort? {
      AbortKeeps(s, op.m, op.cleanup, op.expectedStatus, op.expectedVersion);
    }
  }

  lemma StepExclusive(s: Store, op: Op)
    requires Valid(s) && Exclusive(s) && Honest(op)
    ensures Exclusive(Step(s, op))
  {
    hide Valid;
    var t := Step(s, op);
    forall m ensures !(Armed(t, m) && Reserved(t, m))
                 && (Armed(t, m) ==>
                       m in t.migrations && (t.migrations[m].status.Prepared? || t.migrations[m].status.Committed?))
    {
      hide Armed, Reserved;
      StepMarkers(s, op, m);
      if Armed(s, m) { ArmedStatus(s, op, m); }
    }
  }

  lemma {:induction false} RunExclusive(s: Store, ops: seq<Op>)
    requires Valid(s) && Exclusive(s)
    requires forall i :: 0 <= i < |ops| ==> Honest(ops[i])
    ensures Exclusive(Run(s, ops))
    decreases |ops|
  {
    if ops != [] {
      hide Valid, Exclusive;
      StepKeeps(s, ops[0]);
      StepExclusive(s, ops[0]);
      RunExclusive(Step(s, ops[0]), ops[1..]);
    }
  }

  /** The log never holds both markers, and an armed gate means PREPARED or COMMITTED. */
  lemma MarkersExclude(s: Store)
    requires HonestlyReachable(s)
    ensures Exclusive(s)
  {
    hide Run, Exclusive;
    var ops :| s == Run(EMPTY, ops) && forall i :: 0 <= i < |ops| ==> Honest(ops[i]);
    StartExclusive();
    RunExclusive(EMPTY, ops);
  }

  lemma StartExclusive()
    ensures Valid(EMPTY) && Exclusive(EMPTY)
  {}

  /** A reserved, still DETECTED migration takes one forged event name to hold both markers. */
  lemma ForgedStep(s: Store, m: string)
    requires At(s, m, MigrationStatus.Detected, 0) && Reserved(s, m)
    ensures var t := Step(s, Transition(m, MigrationStatus.Preparing, MigrationStatus.Detected, 0, GATE_ARMED, [], []));
            Armed(t, m) && Reserved(t, m)
  {
    var forge := Transition(m, MigrationStatus.Preparing, MigrationStatus.Detected, 0, GATE_ARMED, [], []);
    var t := Step(s, forge);
    HasEventAppend(s.events, t.events[|s.events|], m, GATE_ARMED);
    HasEventAppend(s.events, t.events[|s.events|], m, ABORT_RESERVED);
  }

  lemma ReservedStart(intent: Intent)
    ensures var s := Step(Step(EMPTY, Create(intent, [])), Reserve(intent.migrationId, MigrationStatus.Detected, 0));
            At(s, intent.migrationId, MigrationStatus.Detected, 0) && Reserved(s, intent.migrationId)
  {
    var m := intent.migrationId;
    var s1 := Step(EMPTY, Create(intent, []));
    assert s1.events[0].eventType == "MIGRATION_DETECTED" && |s1.events| == 1;
    assert !Armed(s1, m) && !Reserved(s1, m);
    StutterMarkers(s1, m, ABORT_RESERVED, ReservedPayload(), m);
  }

  lemma RunThree(s: Store, a: Op, b: Op, c: Op)
    ensures Run(s, [a, b, c]) == Step(Step(Step(s, a), b), c)
  {
    hide Step;
    assert [a, b, c][1..] == [b, c] && [b, c][1..] == [c] && [c][1..] == [];
    assert Run(s, [a, b, c]) == Run(Step(s, a), [b, c]);
    assert Run(Step(s, a), [b, c]) == Run(Step(Step(s, a), b), [c]);
  }

  /** Honesty is needed: a caller that reuses a marker name as its event type puts both markers in the log. */
  lemma ForgedMarker(intent: Intent)
    ensures exists s :: Reachable(s) && Armed(s, intent.migrationId) && Reserved(s, intent.migrationId)
  {
    hide Step, Armed, Reserved, At;
    var m := intent.migrationId;
    var create, reserve := Create(intent, []), Reserve(m, MigrationStatus.Detected, 0);
    var forge := Transition(m, MigrationStatus.Preparing, MigrationStatus.Detected, 0, GATE_ARMED, [], []);
    ReservedStart(intent);
    ForgedStep(Step(Step(EMPTY, create), reserve), m);
    RunThree(EMPTY, create, reserve, forge);
  }
}
