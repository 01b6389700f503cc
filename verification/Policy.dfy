/** The safety policy's discovery check: three participants, one per consumer and hop, in hop order. */
module Policy {
  import opened Wrappers
  import opened Ordering
  import opened Models
  import opened StoreSpec
  import opened Protocol

  /** A consumer as discovered; `degree` is the one number in its degree text, if there is exactly one. */
  datatype Consumer = Consumer(
    urn: string, degree: Option<nat>, columns: seq<string>, hasPaths: bool, fields: seq<string>, owners: seq<string>)

  /**
    The frozen context and the attestation around it.  `assets` are the keys of its asset map, `tools` the tool
    named by each trace ("" where a trace names none).
   */
  datatype Attestation = Attestation(
    discoveryComplete: bool, contextComplete: bool, transport: string,
    sourceUrn: string, sourceColumn: string, replacementColumn: string,
    sourceFields: seq<string>, sourceOwners: seq<string>, sourceTags: seq<string>, sourceProperties: seq<string>,
    assets: set<string>, tools: seq<string>, consumers: seq<Consumer>)

  datatype PolicyViolation = PolicyViolation

  function Calls(tools: seq<string>, tool: string): nat {
    if tools == [] then 0 else Calls(tools[1..], tool) + if tools[0] == tool then 1 else 0
  }

  predicate TransportOk(transport: string, allowTestTransport: bool) {
    || "datahub-oss+official-" <= transport
    || (allowTestTransport && "test-double-for-official-datahub-mcp" <= transport)
  }

  /** The reads that must stand in the trace: schemas of all four assets, paths of all three consumers. */
  predicate EvidenceOk(tools: seq<string>) {
    && "get_lineage" in tools && "get_entities" in tools
    && Calls(tools, "list_schema_fields") >= 4
    && Calls(tools, "get_lineage_paths_between") >= 3
  }

  /** Everything demanded of the context beside its participants. */
  predicate Attested(intent: Intent, a: Attestation, allowTestTransport: bool) {
    && a.discoveryComplete && a.contextComplete && TransportOk(a.transport, allowTestTransport)
    && a.sourceUrn == intent.sourceAssetUrn
    && a.sourceColumn == intent.oldField && a.replacementColumn == intent.newField
    && intent.oldField in a.sourceFields && intent.newField in a.sourceFields
    && a.sourceOwners != [] && (a.sourceTags != [] || a.sourceProperties != [])
    && a.assets == {a.sourceUrn} + (set i | 0 <= i < |a.consumers| :: a.consumers[i].urn)
    && EvidenceOk(a.tools)
  }

  function ExpectedDegree(kind: ParticipantKind): nat {
    match kind
    case DbtSql => 1
    case AirflowMapping => 2
    case SemanticApproval => 3
  }

  predicate DistinctUrns(consumers: seq<Consumer>) {
    forall i, j :: 0 <= i < j < |consumers| ==> consumers[i].urn != consumers[j].urn
  }

  predicate DistinctAssets(ps: seq<Participant>) {
    forall i, j :: 0 <= i < j < |ps| ==> ps[i].assetUrn != ps[j].assetUrn
  }

  /** `consumers_by_urn[urn]`. */
  function Find(consumers: seq<Consumer>, urn: string): (r: Option<Consumer>)
    ensures r.Some? ==> r.value in consumers && r.value.urn == urn
    ensures r.None? ==> forall c :: c in consumers ==> c.urn != urn
  {
    if consumers == [] then None
    else if consumers[0].urn == urn then Some(consumers[0])
    else Find(consumers[1..], urn)
  }

  predicate Subset(xs: seq<string>, ys: seq<string>) { forall x :: x in xs ==> x in ys }

  /** Everything demanded of one participant and its consumer. */
  predicate Bound(intent: Intent, p: Participant, c: Consumer) {
    && p.migrationId == intent.migrationId
    && c.degree == Some(ExpectedDegree(p.kind))
    && intent.oldField in c.columns
    && c.hasPaths
    && Subset(c.columns, c.fields)
    && c.owners != [] && p.ownerUrns != []
    && exists o :: o in p.ownerUrns && o in c.owners
  }

  predicate AllKinds(ps: seq<Participant>) {
    (set i | 0 <= i < |ps| :: ps[i].kind) == {DbtSql, AirflowMapping, SemanticApproval}
  }

  predicate SameUrns(consumers: seq<Consumer>, ps: seq<Participant>) {
    && (forall p :: p in ps ==> Find(consumers, p.assetUrn).Some?)
    && (forall c :: c in consumers ==> exists i :: 0 <= i < |ps| && ps[i].assetUrn == c.urn)
  }

  predicate BoundAll(intent: Intent, consumers: seq<Consumer>, ps: seq<Participant>) {
    forall p :: p in ps ==> Find(consumers, p.assetUrn).Some? && Bound(intent, p, Find(consumers, p.assetUrn).value)
  }

  /** The bijection between participants and consumers the policy proves before anything starts. */
  predicate Admissible(intent: Intent, consumers: seq<Consumer>, ps: seq<Participant>) {
    && |consumers| == 3 && |ps| == 3
    && Distinct(Ids(ps)) && DistinctAssets(ps) && AllKinds(ps)
    && DistinctUrns(consumers) && SameUrns(consumers, ps)
    && BoundAll(intent, consumers, ps)
  }

  // ---- hop order -------------------------------------------------------------------------

  predicate HopBefore(a: (nat, string), b: (nat, string)) {
    a.0 < b.0 || (a.0 == b.0 && Before(a.1, b.1))
  }

  lemma HopBeforeIsOrder()
    ensures StrictTotalOrder(HopBefore)
  {
    hide Before;
    BeforeIsOrder();
  }

  /** `sorted(ordered)`. */
  function SortHops(hops: seq<(nat, string)>): (r: seq<(nat, string)>)
    ensures StrictlySorted(r, HopBefore)
    ensures forall x :: x in r <==> x in hops
  {
    HopBeforeIsOrder();
    Sort(hops, HopBefore)
  }

  function HopsOf(ps: seq<Participant>): (r: seq<(nat, string)>)
    ensures |r| == |ps| && forall i :: 0 <= i < |ps| ==> r[i] == (ExpectedDegree(ps[i].kind), ps[i].participantId)
  {
    seq(|ps|, i requires 0 <= i < |ps| => (ExpectedDegree(ps[i].kind), ps[i].participantId))
  }

  /** Where each of the three kinds stands. */
  lemma KindAt(ps: seq<Participant>, kind: ParticipantKind) returns (i: nat)
    requires AllKinds(ps)
    ensures i < |ps| && ps[i].kind == kind
  {
    assert kind in {DbtSql, AirflowMapping, SemanticApproval};
    assert kind in (set i | 0 <= i < |ps| :: ps[i].kind);
    i :| 0 <= i < |ps| && ps[i].kind == kind;
  }

  /** The sorted hops are dbt, Airflow, semantic, in this order. */
  lemma HopOrderIs(ps: seq<Participant>)
    requires |ps| == 3 && AllKinds(ps)
    ensures var r := SortHops(HopsOf(ps));
            && |r| == 3
            && forall k :: 0 <= k < 3 ==>
                 exists i :: 0 <= i < 3 && ps[i].participantId == r[k].1 && ps[i].kind == HopKind(k)
  {
    HopBeforeIsOrder();
    var a := KindAt(ps, DbtSql);
    var b := KindAt(ps, AirflowMapping);
    var c := KindAt(ps, SemanticApproval);
    var hops := HopsOf(ps);
    var listed := [hops[a], hops[b], hops[c]];
    hide SortHops, AllKinds, Before;
    forall x | x in hops ensures x in listed {
      var i :| 0 <= i < 3 && hops[i] == x;
      assert i == a || i == b || i == c;
    }
    forall x | x in listed ensures x in hops {}
    SortedUnique(SortHops(hops), listed, HopBefore);
  }

  method ValidateDiscovery(intent: Intent, attestation: Attestation, ps: seq<Participant>, allowTestTransport: bool)
    returns (r: Result<seq<string>, PolicyViolation>)
    ensures r.Success? <==> Attested(intent, attestation, allowTestTransport)
                            && Admissible(intent, attestation.consumers, ps)
    ensures r.Success? ==> IsDiscovery(intent, ps, r.value)
  {
    hide Bound, SameUrns, AllKinds, DistinctUrns, DistinctAssets, Distinct, Find, Attested;
    if !Attested(intent, attestation, allowTestTransport) { return Failure(PolicyViolation); }
    var consumers := attestation.consumers;
    if |consumers| != 3 || |ps| != 3 { return Failure(PolicyViolation); }
    if !Distinct(Ids(ps)) || !DistinctAssets(ps) || !AllKinds(ps) { return Failure(PolicyViolation); }
    if !DistinctUrns(consumers) || !SameUrns(consumers, ps) { return Failure(PolicyViolation); }
    var ordered: seq<(nat, string)> := [];
    var i := 0;
    while i < 3
      invariant 0 <= i <= 3 && |ordered| == i
      invariant forall j :: 0 <= j < i ==>
                  && Find(consumers, ps[j].assetUrn).Some?
                  && Bound(intent, ps[j], Find(consumers, ps[j].assetUrn).value)
                  && ordered[j] == HopsOf(ps)[j]
    {
      var found := Find(consumers, ps[i].assetUrn);
      assert ps[i] in ps;
      if found.None? || !Bound(intent, ps[i], found.value) { return Failure(PolicyViolation); }
      BoundDegree(intent, ps[i], found.value);
      ordered := ordered + [(found.value.degree.value, ps[i].participantId)];
      i := i + 1;
    }
    assert ordered == HopsOf(ps);
    HopOrderIs(ps);
    var sorted := SortHops(ordered);
    var order := seq(3, k requires 0 <= k < 3 => sorted[k].1);
    forall j | 0 <= j < 3 ensures ps[j].migrationId == intent.migrationId {
      BoundDegree(intent, ps[j], Find(consumers, ps[j].assetUrn).value);
    }
    r := Success(order);
  }

  lemma BoundDegree(intent: Intent, p: Participant, c: Consumer)
    requires Bound(intent, p, c)
    ensures c.degree == Some(ExpectedDegree(p.kind)) && p.migrationId == intent.migrationId
  {}

  predicate Serves(p: Participant, c: Consumer) {
    p.assetUrn == c.urn && c.degree == Some(ExpectedDegree(p.kind))
  }

  lemma ServesItsConsumer(intent: Intent, consumers: seq<Consumer>, ps: seq<Participant>, i: nat) returns (j: nat)
    requires Admissible(intent, consumers, ps) && i < 3
    ensures j < 3 && Serves(ps[i], consumers[j])
  {
    hide AllKinds, SameUrns, DistinctUrns, DistinctAssets, Distinct;
    assert ps[i] in ps;
    var c := Find(consumers, ps[i].assetUrn).value;
    j :| 0 <= j < 3 && consumers[j] == c;
  }

  predicate ServesSome(p: Participant, consumers: seq<Consumer>) {
    exists j :: 0 <= j < |consumers| && Serves(p, consumers[j])
  }

  predicate IsServed(c: Consumer, ps: seq<Participant>) { exists i :: 0 <= i < |ps| && Serves(ps[i], c) }

  predicate HopFound(consumers: seq<Consumer>, kind: ParticipantKind) {
    exists j :: 0 <= j < |consumers| && consumers[j].degree == Some(ExpectedDegree(kind))
  }

  /** Each participant serves a consumer, each consumer is served, and each of the three hops has its consumer. */
  lemma AdmissibleIsBijection(intent: Intent, consumers: seq<Consumer>, ps: seq<Participant>)
    requires Admissible(intent, consumers, ps)
    ensures forall p :: p in ps ==> ServesSome(p, consumers)
    ensures forall c :: c in consumers ==> IsServed(c, ps)
    ensures forall kind :: HopFound(consumers, kind)
  {
    hide BoundAll, Find, AllKinds;
    forall p | p in ps ensures ServesSome(p, consumers) {
      var i :| 0 <= i < 3 && ps[i] == p;
      var j := ServesItsConsumer(intent, consumers, ps, i);
      assert Serves(p, consumers[j]);
    }
    forall c | c in consumers ensures IsServed(c, ps) {
      var i :| 0 <= i < |ps| && ps[i].assetUrn == c.urn;
      var k := ServesItsConsumer(intent, consumers, ps, i);
      assert consumers[k] == c;
      assert Serves(ps[i], c);
    }
    forall kind ensures HopFound(consumers, kind) {
      var i := KindAt(ps, kind);
      var j := ServesItsConsumer(intent, consumers, ps, i);
      assert consumers[j].degree == Some(ExpectedDegree(kind));
    }
  }
}
