/**
  The coordinator's write-back: one record for the source and one for each participant, in participant-id order,
  handed to a writer that demands the order of its frozen context, which is hop order.
 */
module WritebackOrder {
  import opened Wrappers
  import opened Ordering
  import opened Models
  import opened StoreSpec
  import StoreInvariant
  import StorePreservation
  import StoreRuns
  import StoreTheorems
  import ProtocolApproval
  import Protocol
  import StateStore
  import Policy
  import Writeback

  function MigrationText(status: MigrationStatus): string {
    match status
    case Detected => "DETECTED"
    case Preparing => "PREPARING"
    case NeedsApproval => "NEEDS_APPROVAL"
    case Prepared => "PREPARED"
    case Committed => "COMMITTED"
    case Aborted => "ABORTED"
  }

  function ParticipantText(status: ParticipantStatus): string {
    match status
    case Discovered => "DISCOVERED"
    case Preparing => "PREPARING"
    case NeedsApproval => "NEEDS_APPROVAL"
    case Verified => "VERIFIED"
    case Failed => "FAILED"
    case Committed => "COMMITTED"
    case Aborted => "ABORTED"
  }

  /** The insertion-ordered dictionary of write-backs. */
  datatype Writebacks = Writebacks(order: seq<string>, records: map<string, Writeback.Record>)
  {
    /** `writebacks[urn] = record`: a key already present keeps its place. */
    function Put(urn: string, record: Writeback.Record): Writebacks {
      Writebacks(if urn in records then order else order + [urn], records[urn := record])
    }
  }

  /** The migration, the source asset with its owners, and the evidence URL of the stage. */
  datatype Stage = Stage(m: string, status: MigrationStatus, source: string, owners: seq<string>, evidenceUrl: string)

  /** `owner_urns[0]`, which must look like a DataHub URN. */
  predicate HasOwner(owners: seq<string>) { owners != [] && "urn:li:" <= owners[0] }

  predicate AllOwned(stage: Stage, rows: seq<Participant>) {
    HasOwner(stage.owners) && forall i :: 0 <= i < |rows| ==> HasOwner(rows[i].ownerUrns)
  }

  function SourceRecord(stage: Stage): Writeback.Record
    requires stage.owners != []
  {
    Writeback.Record(stage.m, MigrationText(stage.status), stage.owners[0], stage.evidenceUrl)
  }

  function RecordOf(stage: Stage, p: Participant): Writeback.Record
    requires p.ownerUrns != []
  {
    Writeback.Record(stage.m, ParticipantText(p.status), p.ownerUrns[0], stage.evidenceUrl)
  }

  /** The dictionary as the assignments leave it. */
  function Built(stage: Stage, rows: seq<Participant>): Writebacks
    requires AllOwned(stage, rows)
  {
    if rows == [] then Writebacks([stage.source], map[stage.source := SourceRecord(stage)])
    else
      var last := rows[|rows| - 1];
      Built(stage, rows[..|rows| - 1]).Put(last.assetUrn, RecordOf(stage, last))
  }

  /** What `list_participants` answers. */
  ghost predicate Listed(s: Store, m: string, rows: seq<Participant>) {
    var ids := Listing(ParticipantsOf(s, m));
    && |rows| == |ids|
    && forall k :: 0 <= k < |ids| ==> ids[k] in s.participants && rows[k] == s.participants[ids[k]].record
  }

  /** Builds the dictionary, or fails on a participant without a usable owner. */
  method Build(stage: Stage, rows: seq<Participant>) returns (r: Option<Writebacks>)
    ensures r == if AllOwned(stage, rows) then Some(Built(stage, rows)) else None
  {
    if !HasOwner(stage.owners) { return None; }
    var writebacks := Writebacks([stage.source], map[stage.source := SourceRecord(stage)]);
    var i := 0;
    while i < |rows|
      invariant 0 <= i <= |rows| && AllOwned(stage, rows[..i])
      invariant writebacks == Built(stage, rows[..i])
    {
      if !HasOwner(rows[i].ownerUrns) { return None; }
      assert rows[..i + 1][..i] == rows[..i];
      writebacks := writebacks.Put(rows[i].assetUrn, RecordOf(stage, rows[i]));
      i := i + 1;
    }
    assert rows[..i] == rows;
    r := Some(writebacks);
  }

  /** Nothing stops the write-back before its first call. */
  predicate Passes(writer: Writeback.DataHubMigrationWriter, stage: Stage, rows: seq<Participant>, refreshed: bool) {
    && |rows| == 3 && AllOwned(stage, rows)
    && writer.Accepts(Built(stage, rows).order, Built(stage, rows).records, refreshed)
  }

  /** `_writeback`: a receipt proves the read-back of exactly the dictionary built, and a refusal writes nothing. */
  method WriteStage(store: StateStore.SQLiteStateStore, writer: Writeback.DataHubMigrationWriter, stage: Stage,
                    refreshed: bool, w: Writeback.Weather)
    returns (r: Option<Writeback.Receipt>, ghost rows: seq<Participant>)
    requires store.Valid() && |writer.entityUrns| == 4 && Writeback.Distinct(writer.entityUrns)
    modifies writer.hub
    ensures stage.m in store.migrations ==> Listed(store.State(), stage.m, rows)
    ensures r.Some? ==>
              && stage.m in store.migrations && Passes(writer, stage, rows, refreshed)
              && r.value.records == Built(stage, rows).records
              && exists k :: Writeback.Proves(w.readbacks(k), writer.hub.entities, writer.entityUrns, r.value.records)
    ensures (stage.m in store.migrations && Passes(writer, stage, rows, refreshed))
            || (r.None? && writer.hub.entities == old(writer.hub.entities))
  {
    hide StoreInvariant.Valid, Listing, Writeback.Proves, Writeback.RunWrites, Writeback.Partitions,
         Writeback.Faultless, Writeback.Distinct;
    rows := [];
    var listed := store.ListParticipants(stage.m);
    if listed.Failure? { return None, []; }
    rows := listed.value;
    if |listed.value| != 3 { return None, rows; }
    var built := Build(stage, listed.value);
    if built.None? { return None, rows; }
    ghost var groups;
    var receipt;
    receipt, groups := writer.WriteAssets(built.value.order, built.value.records, refreshed, w);
    if receipt.Failure? { return None, rows; }
    r := Some(receipt.value);
  }

  // ---- the stored participants are the discovered ones ---------------------------------------------

  /** The migration's rows are the discovered participants, whatever has happened to their status. */
  ghost predicate Stored(s: Store, m: string, ps: seq<Participant>) {
    && (forall p :: p in ParticipantsOf(s, m) <==> p in Ids(ps))
    && forall i :: 0 <= i < |ps| ==>
         && ps[i].participantId in s.participants
         && StoreInvariant.SameIdentity(s.participants[ps[i].participantId].record, ps[i])
  }

  lemma StoredAtCreation(s: Store, intent: Intent, ps: seq<Participant>)
    requires StoreInvariant.Valid(s) && CreateMigration(s, intent, ps).Success?
    ensures Stored(CreateMigration(s, intent, ps).value, intent.migrationId, ps)
  {
    hide StoreInvariant.Valid, InsertAll, Distinct;
    var t, m := CreateMigration(s, intent, ps).value, intent.migrationId;
    ProtocolApproval.InsertedAre(s.participants, ps);
    forall i | 0 <= i < |ps| ensures t.participants[ps[i].participantId] == NewRow(ps[i]) {}
    forall p | p in ParticipantsOf(t, m) ensures p in Ids(ps) {
      if p in s.participants { ProtocolApproval.OldRow(s, intent, ps, p); }
      var i :| 0 <= i < |ps| && p == ps[i].participantId;
      assert Ids(ps)[i] == p;
    }
    forall p | p in Ids(ps) ensures p in ParticipantsOf(t, m) {
      var i :| 0 <= i < |ps| && Ids(ps)[i] == p;
      assert t.participants[p] == NewRow(ps[i]);
    }
  }

  /** A discovered migration keeps its participants through every later call. */
  lemma StoredEver(s: Store, intent: Intent, ps: seq<Participant>, later: seq<Op>)
    requires StoreInvariant.Valid(s) && CreateMigration(s, intent, ps).Success?
    ensures Stored(Run(Step(s, Create(intent, ps)), later), intent.migrationId, ps)
  {
    hide StoreInvariant.Valid, CreateMigration, ParticipantsOf;
    var t, m := Step(s, Create(intent, ps)), intent.migrationId;
    StoredAtCreation(s, intent, ps);
    StoreRuns.StepKeeps(s, Create(intent, ps));
    StoreRuns.RunKeeps(t, later);
    assert m in t.migrations by { StorePreservation.CreateCreates(s, intent, ps); }
    StoreTheorems.RunFreezes(t, later, m);
    StoredKept(t, Run(t, later), m, ps);
  }

  lemma StoredKept(s: Store, t: Store, m: string, ps: seq<Participant>)
    requires Stored(s, m, ps) && StoreInvariant.Grows(s, t) && ParticipantsOf(t, m) == ParticipantsOf(s, m)
    ensures Stored(t, m, ps)
  {
    hide ParticipantsOf;
  }

  // ---- when the writer accepts -----------------------------------------------------------------------

  /** The writer is bound to the discovered context: the source, then the consumers by hop. */
  predicate InHopOrder(entityUrns: seq<string>, source: string, consumers: seq<Policy.Consumer>) {
    && |consumers| == 3
    && entityUrns == [source, consumers[0].urn, consumers[1].urn, consumers[2].urn]
    && forall k :: 0 <= k < 3 ==> consumers[k].degree == Some(k + 1)
  }

  /** The owner written to each asset is the one owner the context shows for it. */
  predicate OwnersMatch(stage: Stage, rows: seq<Participant>, owners: map<string, string>)
    requires AllOwned(stage, rows)
  {
    && stage.source in owners && owners[stage.source] == stage.owners[0]
    && forall i :: 0 <= i < |rows| ==> rows[i].assetUrn in owners && owners[rows[i].assetUrn] == rows[i].ownerUrns[0]
  }

  predicate NeedsRefresh(stage: Stage, rows: seq<Participant>) {
    stage.status.Committed? || exists i :: 0 <= i < |rows| && rows[i].status.Committed?
  }

  lemma {:induction false} DistinctLength(xs: seq<string>)
    requires Distinct(xs)
    ensures |set x | x in xs| == |xs|
  {
    if xs != [] {
      DistinctLength(xs[1..]);
      assert (set x | x in xs) == {xs[0]} + (set x | x in xs[1..]);
      assert xs[0] !in xs[1..];
    }
  }

  lemma ListingLength(keys: set<string>, xs: seq<string>)
    requires Distinct(xs) && forall x :: x in keys <==> x in xs
    ensures |Listing(keys)| == |xs| && Distinct(Listing(keys))
  {
    var ids := Listing(keys);
    BeforeIsOrder();
    DistinctLength(xs);
    DistinctLength(ids);
    assert (set x | x in ids) == (set x | x in xs);
  }

  /** The dictionary of four distinct assets. */
  lemma BuiltOfThree(stage: Stage, rows: seq<Participant>)
    requires |rows| == 3 && AllOwned(stage, rows)
    requires Writeback.Distinct([stage.source, rows[0].assetUrn, rows[1].assetUrn, rows[2].assetUrn])
    ensures Built(stage, rows) ==
            Writebacks([stage.source, rows[0].assetUrn, rows[1].assetUrn, rows[2].assetUrn],
                       map[stage.source := SourceRecord(stage),
                           rows[0].assetUrn := RecordOf(stage, rows[0]),
                           rows[1].assetUrn := RecordOf(stage, rows[1]),
                           rows[2].assetUrn := RecordOf(stage, rows[2])])
  {
    var urns := [stage.source, rows[0].assetUrn, rows[1].assetUrn, rows[2].assetUrn];
    assert urns[0] != urns[1] && urns[0] != urns[2] && urns[0] != urns[3];
    assert urns[1] != urns[2] && urns[1] != urns[3] && urns[2] != urns[3];
    hide Writeback.Distinct, RecordOf, SourceRecord;
    assert rows[..2][..1] == rows[..1] && rows[..1][..0] == [];
    assert Built(stage, []) == Writebacks([stage.source], map[stage.source := SourceRecord(stage)]);
    assert Built(stage, rows[..1]) == Built(stage, []).Put(rows[0].assetUrn, RecordOf(stage, rows[0]));
    assert Built(stage, rows[..2]) == Built(stage, rows[..1]).Put(rows[1].assetUrn, RecordOf(stage, rows[1]));
  }

  /** Among the discovered participants, the kind decides the place in the hop order. */
  lemma KindDecides(intent: Intent, ps: seq<Participant>, order: seq<string>, i: nat, k: nat)
    requires Protocol.IsDiscovery(intent, ps, order) && i < 3 && k < 3
    ensures ps[i].kind == Protocol.HopKind(k) <==> ps[i].participantId == order[k]
  {
    var a :| 0 <= a < 3 && ps[a].participantId == order[0] && ps[a].kind == Protocol.HopKind(0);
    var b :| 0 <= b < 3 && ps[b].participantId == order[1] && ps[b].kind == Protocol.HopKind(1);
    var c :| 0 <= c < 3 && ps[c].participantId == order[2] && ps[c].kind == Protocol.HopKind(2);
    assert Ids(ps)[0] != Ids(ps)[1] && Ids(ps)[1] != Ids(ps)[2] && Ids(ps)[0] != Ids(ps)[2];
    assert i == a || i == b || i == c;
  }

  /** Each participant's asset is the consumer of its own hop. */
  lemma AssetOfHop(intent: Intent, consumers: seq<Policy.Consumer>, ps: seq<Participant>, i: nat)
    requires Policy.Admissible(intent, consumers, ps) && i < 3
    requires forall k :: 0 <= k < 3 ==> consumers[k].degree == Some(k + 1)
    ensures ps[i].assetUrn == consumers[Policy.ExpectedDegree(ps[i].kind) - 1].urn
  {
    hide Policy.Admissible;
    var j := Policy.ServesItsConsumer(intent, consumers, ps, i);
  }

  /** A row is the stored form of one discovered participant, at that participant's place in the listing. */
  lemma RowIs(s: Store, m: string, ps: seq<Participant>, rows: seq<Participant>, k: nat) returns (i: nat)
    requires Stored(s, m, ps) && Listed(s, m, rows) && k < |rows|
    ensures i < |ps| && ps[i].participantId == Listing(ParticipantsOf(s, m))[k]
    ensures StoreInvariant.SameIdentity(rows[k], ps[i])
  {
    var ids := Listing(ParticipantsOf(s, m));
    assert ids[k] in ids;
    i :| 0 <= i < |ps| && Ids(ps)[i] == ids[k];
  }

  lemma AcceptsFour(writer: Writeback.DataHubMigrationWriter, stage: Stage, rows: seq<Participant>, refreshed: bool)
    requires |rows| == 3 && AllOwned(stage, rows) && Writeback.Distinct(writer.entityUrns)
    requires writer.entityUrns == [stage.source, rows[0].assetUrn, rows[1].assetUrn, rows[2].assetUrn]
    ensures writer.Accepts(Built(stage, rows).order, Built(stage, rows).records, refreshed) <==>
            OwnersMatch(stage, rows, writer.owners) && (NeedsRefresh(stage, rows) ==> refreshed)
  {
    hide Writeback.Distinct, Built, AllOwned, OwnersMatch, NeedsRefresh;
    BuiltOfThree(stage, rows);
    FourRecords(writer.entityUrns, stage, rows);
    var records := Built(stage, rows).records;
    OwnersAgree(writer.entityUrns, stage, rows, records, writer.owners);
    CommittedAgree(writer.entityUrns, stage, rows, records);
  }

  lemma OwnersAgree(urns: seq<string>, stage: Stage, rows: seq<Participant>, records: map<string, Writeback.Record>,
                    owners: map<string, string>)
    requires |rows| == 3 && AllOwned(stage, rows)
    requires urns == [stage.source, rows[0].assetUrn, rows[1].assetUrn, rows[2].assetUrn]
    requires stage.source in records && records[stage.source] == SourceRecord(stage)
    requires forall i :: 0 <= i < 3 ==>
               rows[i].assetUrn in records && records[rows[i].assetUrn] == RecordOf(stage, rows[i])
    ensures OwnersMatch(stage, rows, owners) <==>
            forall u :: u in urns && u in records ==> u in owners && records[u].owner == owners[u]
  {
    assert urns[0] in urns && urns[1] in urns && urns[2] in urns && urns[3] in urns;
  }

  lemma CommittedAgree(urns: seq<string>, stage: Stage, rows: seq<Participant>, records: map<string, Writeback.Record>)
    requires |rows| == 3 && AllOwned(stage, rows)
    requires urns == [stage.source, rows[0].assetUrn, rows[1].assetUrn, rows[2].assetUrn]
    requires forall u :: u in records ==> u in urns
    requires stage.source in records && records[stage.source] == SourceRecord(stage)
    requires forall i :: 0 <= i < 3 ==>
               rows[i].assetUrn in records && records[rows[i].assetUrn] == RecordOf(stage, rows[i])
    ensures NeedsRefresh(stage, rows) <==> exists u :: u in records && records[u].status == "COMMITTED"
  {
    StatusTexts(stage, rows);
    hide SourceRecord, RecordOf;
    if u :| u in records && records[u].status == "COMMITTED" {
      var k :| 0 <= k < 4 && urns[k] == u;
      if k > 0 { assert u == rows[k - 1].assetUrn; }
    }
    if i :| 0 <= i < 3 && rows[i].status.Committed? { assert records[rows[i].assetUrn].status == "COMMITTED"; }
    if stage.status.Committed? { assert records[stage.source].status == "COMMITTED"; }
  }

  lemma StatusTexts(stage: Stage, rows: seq<Participant>)
    requires AllOwned(stage, rows)
    ensures SourceRecord(stage).status == "COMMITTED" <==> stage.status.Committed?
    ensures forall i :: 0 <= i < |rows| ==>
              (RecordOf(stage, rows[i]).status == "COMMITTED" <==> rows[i].status.Committed?)
  {}

  lemma FourRecords(urns: seq<string>, stage: Stage, rows: seq<Participant>)
    requires |rows| == 3 && AllOwned(stage, rows) && Writeback.Distinct(urns)
    requires urns == [stage.source, rows[0].assetUrn, rows[1].assetUrn, rows[2].assetUrn]
    ensures var records := Built(stage, rows).records;
            && (forall u :: u in records <==> u in urns)
            && stage.source in records && records[stage.source] == SourceRecord(stage)
            && forall i :: 0 <= i < 3 ==>
                 rows[i].assetUrn in records && records[rows[i].assetUrn] == RecordOf(stage, rows[i])
    ensures forall u :: u in Built(stage, rows).records ==> Built(stage, rows).records[u].migrationId == stage.m
  {
    hide Built;
    BuiltOfThree(stage, rows);
    assert urns[0] != urns[1] && urns[0] != urns[2] && urns[0] != urns[3];
    assert urns[1] != urns[2] && urns[1] != urns[3] && urns[2] != urns[3];
    var records := Built(stage, rows).records;
    forall u | u in records ensures u in urns {}
    forall u | u in urns ensures u in records { var k :| 0 <= k < 4 && urns[k] == u; }
  }

  /**
    The write-back of a discovered migration passes the writer's checks if and only if participant-id order is hop
    order, the owners agree, and a COMMITTED write-back comes with a refreshed context.
   */
  lemma AcceptedIffHopOrder(s: Store, writer: Writeback.DataHubMigrationWriter, stage: Stage, refreshed: bool,
                            intent: Intent, consumers: seq<Policy.Consumer>, ps: seq<Participant>, order: seq<string>,
                            rows: seq<Participant>)
    requires Policy.Admissible(intent, consumers, ps) && Protocol.IsDiscovery(intent, ps, order)
    requires Writeback.Distinct(writer.entityUrns) && InHopOrder(writer.entityUrns, stage.source, consumers)
    requires Stored(s, stage.m, ps) && Listed(s, stage.m, rows) && AllOwned(stage, rows)
    ensures |rows| == 3
    ensures writer.Accepts(Built(stage, rows).order, Built(stage, rows).records, refreshed) <==>
            && Before(order[0], order[1]) && Before(order[1], order[2])
            && OwnersMatch(stage, rows, writer.owners) && (NeedsRefresh(stage, rows) ==> refreshed)
  {
    hide Policy.Admissible, Built, OwnersMatch, NeedsRefresh, Stored, Listed, AllOwned;
    ListedThree(s, stage.m, intent, ps, order, rows);
    var ids := Listing(ParticipantsOf(s, stage.m));
    OrderIsListing(s, stage.m, intent, ps, order);
    RowsPlaced(s, writer, stage, intent, consumers, ps, order, rows);
    BuiltOfThree(stage, rows);
    if ids == order {
      assert writer.entityUrns == [stage.source, rows[0].assetUrn, rows[1].assetUrn, rows[2].assetUrn];
      AcceptsFour(writer, stage, rows, refreshed);
    } else {
      var k :| 0 <= k < 3 && ids[k] != order[k];
      assert Built(stage, rows).order[k + 1] != writer.entityUrns[k + 1];
    }
  }

  /** The listing is the hop order exactly when the hop order is sorted. */
  lemma OrderIsListing(s: Store, m: string, intent: Intent, ps: seq<Participant>, order: seq<string>)
    requires Protocol.IsDiscovery(intent, ps, order) && Stored(s, m, ps)
    ensures Listing(ParticipantsOf(s, m)) == order <==> Before(order[0], order[1]) && Before(order[1], order[2])
  {
    hide Before;
    BeforeIsOrder();
    ProtocolApproval.OrderCovers(intent, ps, order);
    if Before(order[0], order[1]) && Before(order[1], order[2]) {
      forall x | x in ParticipantsOf(s, m) ensures x in order { var i :| 0 <= i < 3 && Ids(ps)[i] == x; }
      forall x | x in order ensures x in ParticipantsOf(s, m) {
        var k :| 0 <= k < 3 && order[k] == x;
        var i :| 0 <= i < 3 && ps[i].participantId == order[k] && ps[i].kind == Protocol.HopKind(k);
        assert Ids(ps)[i] == x;
      }
      ListingUnique(ParticipantsOf(s, m), order);
    }
  }

  lemma ListedThree(s: Store, m: string, intent: Intent, ps: seq<Participant>, order: seq<string>,
                    rows: seq<Participant>)
    requires Protocol.IsDiscovery(intent, ps, order) && Stored(s, m, ps) && Listed(s, m, rows)
    ensures |rows| == 3 && |Listing(ParticipantsOf(s, m))| == 3 && Distinct(Listing(ParticipantsOf(s, m)))
  {
    hide ParticipantsOf;
    ListingLength(ParticipantsOf(s, m), Ids(ps));
  }

  /** The rows' assets are those of the consumers, each in its place exactly when its id is. */
  lemma RowsPlaced(s: Store, writer: Writeback.DataHubMigrationWriter, stage: Stage, intent: Intent,
                   consumers: seq<Policy.Consumer>, ps: seq<Participant>, order: seq<string>, rows: seq<Participant>)
    requires Policy.Admissible(intent, consumers, ps) && Protocol.IsDiscovery(intent, ps, order) && |rows| == 3
    requires Writeback.Distinct(writer.entityUrns) && InHopOrder(writer.entityUrns, stage.source, consumers)
    requires Stored(s, stage.m, ps) && Listed(s, stage.m, rows) && Distinct(Listing(ParticipantsOf(s, stage.m)))
    requires |Listing(ParticipantsOf(s, stage.m))| == 3 && |writer.entityUrns| == 4 && |order| == 3
    ensures Writeback.Distinct([stage.source, rows[0].assetUrn, rows[1].assetUrn, rows[2].assetUrn])
    ensures forall k :: 0 <= k < 3 ==>
              (rows[k].assetUrn == writer.entityUrns[k + 1] <==> Listing(ParticipantsOf(s, stage.m))[k] == order[k])
  {
    hide Policy.Admissible, Protocol.IsDiscovery, InHopOrder, Stored, Listed, Distinct, Writeback.Distinct,
         ParticipantsOf, Listing;
    forall k | 0 <= k < 3
      ensures rows[k].assetUrn == writer.entityUrns[k + 1] <==> Listing(ParticipantsOf(s, stage.m))[k] == order[k]
      ensures rows[k].assetUrn != stage.source
    {
      RowPlaced(s, writer, stage, intent, consumers, ps, order, rows, k);
    }
    forall j, k | 0 <= j < k < 3 ensures rows[j].assetUrn != rows[k].assetUrn {
      RowsApart(s, stage.m, intent, consumers, ps, rows, j, k);
    }
    FourDistinct(stage.source, rows[0].assetUrn, rows[1].assetUrn, rows[2].assetUrn);
  }

  lemma FourDistinct(a: string, b: string, c: string, d: string)
    requires a != b && a != c && a != d && b != c && b != d && c != d
    ensures Writeback.Distinct([a, b, c, d])
  {}

  lemma RowsApart(s: Store, m: string, intent: Intent, consumers: seq<Policy.Consumer>, ps: seq<Participant>,
                  rows: seq<Participant>, j: nat, k: nat)
    requires Policy.Admissible(intent, consumers, ps) && j < k < |rows|
    requires Stored(s, m, ps) && Listed(s, m, rows) && Distinct(Listing(ParticipantsOf(s, m)))
    ensures rows[j].assetUrn != rows[k].assetUrn
  {
    var a := RowIs(s, m, ps, rows, j);
    var b := RowIs(s, m, ps, rows, k);
    hide Stored, Listing, ParticipantsOf, Policy.SameUrns, Policy.AllKinds, Policy.BoundAll;
    assert ps[a].assetUrn != ps[b].assetUrn;
  }

  lemma RowPlaced(s: Store, writer: Writeback.DataHubMigrationWriter, stage: Stage, intent: Intent,
                  consumers: seq<Policy.Consumer>, ps: seq<Participant>, order: seq<string>, rows: seq<Participant>,
                  k: nat)
    requires Policy.Admissible(intent, consumers, ps) && Protocol.IsDiscovery(intent, ps, order)
    requires Writeback.Distinct(writer.entityUrns) && InHopOrder(writer.entityUrns, stage.source, consumers)
    requires Stored(s, stage.m, ps) && Listed(s, stage.m, rows) && |rows| == 3 && k < 3
    ensures rows[k].assetUrn == writer.entityUrns[k + 1] <==> Listing(ParticipantsOf(s, stage.m))[k] == order[k]
    ensures rows[k].assetUrn != stage.source
  {
    var i := RowIs(s, stage.m, ps, rows, k);
    KindDecides(intent, ps, order, i, k);
    AssetOfHop(intent, consumers, ps, i);
    hide Policy.Admissible, Protocol.IsDiscovery, Stored, Listed;
    var d := Policy.ExpectedDegree(ps[i].kind);
    assert writer.entityUrns[d] == rows[k].assetUrn;
    assert d == k + 1 <==> ps[i].kind == Protocol.HopKind(k);
    assert writer.entityUrns[0] != writer.entityUrns[d];
  }

  /** So it is for a discovered migration after any later calls. */
  lemma WritebackPasses(s: Store, later: seq<Op>, writer: Writeback.DataHubMigrationWriter, stage: Stage,
                        refreshed: bool, intent: Intent, consumers: seq<Policy.Consumer>, ps: seq<Participant>,
                        order: seq<string>, rows: seq<Participant>)
    requires StoreInvariant.Valid(s) && CreateMigration(s, intent, ps).Success? && stage.m == intent.migrationId
    requires Policy.Admissible(intent, consumers, ps) && Protocol.IsDiscovery(intent, ps, order)
    requires Writeback.Distinct(writer.entityUrns) && InHopOrder(writer.entityUrns, stage.source, consumers)
    requires Listed(Run(Step(s, Create(intent, ps)), later), stage.m, rows)
    ensures Passes(writer, stage, rows, refreshed) <==>
            && Before(order[0], order[1]) && Before(order[1], order[2])
            && AllOwned(stage, rows) && OwnersMatch(stage, rows, writer.owners)
            && (NeedsRefresh(stage, rows) ==> refreshed)
  {
    hide StoreInvariant.Valid, CreateMigration, Policy.Admissible, Writeback.Distinct, Listed, AllOwned, InHopOrder,
         OwnersMatch, NeedsRefresh, Built, Before, Step;
    var t := Run(Step(s, Create(intent, ps)), later);
    StoredEver(s, intent, ps, later);
    if AllOwned(stage, rows) {
      AcceptedIffHopOrder(t, writer, stage, refreshed, intent, consumers, ps, order, rows);
    }
  }

  // ---- a discovery the writer refuses ------------------------------------------------------------------

  const OWNER := "urn:li:corpuser:o"

  function Lettered(id: string, kind: ParticipantKind, urn: string): Participant {
    Participant(id, "m", kind, urn, [OWNER], [], ParticipantStatus.Discovered, 0, "", [])
  }

  function Consuming(urn: string, degree: nat): Policy.Consumer {
    Policy.Consumer(urn, Some(degree), ["old"], true, ["old"], [OWNER])
  }

  function Consumers(): seq<Policy.Consumer> { [Consuming("d", 1), Consuming("a", 2), Consuming("e", 3)] }

  /** One participant per hop, under any three ids. */
  function Trio(x: string, y: string, z: string): seq<Participant> {
    [Lettered(x, DbtSql, "d"), Lettered(y, AirflowMapping, "a"), Lettered(z, SemanticApproval, "e")]
  }

  lemma TrioIsAdmissible(intent: Intent, x: string, y: string, z: string)
    requires intent.migrationId == "m" && intent.oldField == "old" && x != y && x != z && y != z
    ensures Policy.Admissible(intent, Consumers(), Trio(x, y, z))
    ensures Protocol.IsDiscovery(intent, Trio(x, y, z), [x, y, z])
  {
    hide Protocol.IsDiscovery, Policy.BoundAll, Policy.SameUrns, Policy.AllKinds, Policy.DistinctUrns,
         Policy.DistinctAssets, Distinct, Lettered;
    TrioIsDiscovery(intent, x, y, z);
    TrioIsBound(intent, x, y, z);
    TrioIsDistinct(x, y, z);
  }

  lemma TrioIsDiscovery(intent: Intent, x: string, y: string, z: string)
    requires intent.migrationId == "m" && x != y && x != z && y != z
    ensures Protocol.IsDiscovery(intent, Trio(x, y, z), [x, y, z])
  {
    var ps := Trio(x, y, z);
    assert Ids(ps) == [x, y, z];
    assert ps[0].participantId == x && ps[0].kind == Protocol.HopKind(0);
    assert ps[1].participantId == y && ps[1].kind == Protocol.HopKind(1);
    assert ps[2].participantId == z && ps[2].kind == Protocol.HopKind(2);
    forall k | 0 <= k < 3
      ensures exists i :: 0 <= i < 3 && ps[i].participantId == [x, y, z][k] && ps[i].kind == Protocol.HopKind(k)
    {
      assert ps[k].participantId == [x, y, z][k] && ps[k].kind == Protocol.HopKind(k);
    }
  }

  lemma TrioIsDistinct(x: string, y: string, z: string)
    requires x != y && x != z && y != z
    ensures Distinct(Ids(Trio(x, y, z))) && Policy.DistinctAssets(Trio(x, y, z)) && Policy.AllKinds(Trio(x, y, z))
    ensures Policy.DistinctUrns(Consumers())
  {
    var ps := Trio(x, y, z);
    assert ps[0].kind == DbtSql && ps[1].kind == AirflowMapping && ps[2].kind == SemanticApproval;
    assert "d"[0] != "a"[0] && "d"[0] != "e"[0] && "a"[0] != "e"[0];
  }

  lemma TrioIsBound(intent: Intent, x: string, y: string, z: string)
    requires intent.migrationId == "m" && intent.oldField == "old"
    ensures Policy.BoundAll(intent, Consumers(), Trio(x, y, z))
    ensures Policy.SameUrns(Consumers(), Trio(x, y, z))
  {
    var consumers, ps := Consumers(), Trio(x, y, z);
    LetteredFinds(consumers);
    hide Policy.Find;
    LetteredBound(intent, ps[0], consumers[0]);
    LetteredBound(intent, ps[1], consumers[1]);
    LetteredBound(intent, ps[2], consumers[2]);
    hide Policy.Bound;
    forall p | p in ps
      ensures Policy.Find(consumers, p.assetUrn).Some?
      ensures Policy.Bound(intent, p, Policy.Find(consumers, p.assetUrn).value)
    {
      var i :| 0 <= i < 3 && ps[i] == p;
    }
    forall c | c in consumers ensures exists i :: 0 <= i < |ps| && ps[i].assetUrn == c.urn {
      var j :| 0 <= j < 3 && consumers[j] == c;
      assert ps[j].assetUrn == c.urn;
    }
  }

  lemma LetteredBound(intent: Intent, p: Participant, c: Policy.Consumer)
    requires intent.migrationId == "m" && intent.oldField == "old"
    requires p == Lettered(p.participantId, p.kind, p.assetUrn)
    requires c == Consuming(c.urn, Policy.ExpectedDegree(p.kind))
    ensures Policy.Bound(intent, p, c)
  {
    assert OWNER in c.owners;
  }

  lemma LetteredFinds(consumers: seq<Policy.Consumer>)
    requires consumers == Consumers()
    ensures Policy.Find(consumers, "d") == Some(Consuming("d", 1))
    ensures Policy.Find(consumers, "a") == Some(Consuming("a", 2))
    ensures Policy.Find(consumers, "e") == Some(Consuming("e", 3))
  {
    assert consumers[1..] == [Consuming("a", 2), Consuming("e", 3)];
    assert consumers[1..][1..] == [Consuming("e", 3)];
    assert "d"[0] != "a"[0] && "d"[0] != "e"[0] && "a"[0] != "e"[0];
  }

  /** The first hop's participant sorts last: no write-back of this migration is ever sent. */
  lemma OutOfOrder(intent: Intent, later: seq<Op>, writer: Writeback.DataHubMigrationWriter, stage: Stage,
                   refreshed: bool, rows: seq<Participant>)
    requires intent.migrationId == "m" && intent.oldField == "old"
    requires writer.entityUrns == ["s", "d", "a", "e"] && stage.m == "m" && stage.source == "s"
    ensures var ps := Trio("z", "y", "x");
            && CreateMigration(EMPTY, intent, ps).Success?
            && (Listed(Run(Step(EMPTY, Create(intent, ps)), later), "m", rows) ==>
                  !Passes(writer, stage, rows, refreshed))
  {
    hide Passes, Listed, Step, Policy.Admissible, Protocol.IsDiscovery, StoreInvariant.Valid;
    var ps := Trio("z", "y", "x");
    assert "z"[0] != "y"[0] && "z"[0] != "x"[0] && "y"[0] != "x"[0];
    TrioIsAdmissible(intent, "z", "y", "x");
    assert Ids(ps) == ["z", "y", "x"];
    StoreRuns.ReachableValid([]);
    assert "s"[0] != "d"[0] && "s"[0] != "a"[0] && "s"[0] != "e"[0];
    assert "d"[0] != "a"[0] && "d"[0] != "e"[0] && "a"[0] != "e"[0];
    assert !Before("z", "y");
    if Listed(Run(Step(EMPTY, Create(intent, ps)), later), "m", rows) {
      hide CreateMigration, Trio, Before;
      WritebackPasses(EMPTY, later, writer, stage, refreshed, intent, Consumers(), ps, ["z", "y", "x"], rows);
    }
  }
}
