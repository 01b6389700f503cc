/**
  Writing a migration's state to its four DataHub assets: one upsert per distinct record, one tag call,
  and a bounded read-back that alone decides success.
 */
module Writeback {
  import opened Wrappers
  import opened Fingerprint

  const READBACK_ATTEMPTS := 10

  /** The values of the four properties of one asset. */
  datatype Record = Record(migrationId: string, status: string, owner: string, evidenceUrl: string)

  function ValueOf(r: Record, name: PropertyName): string {
    match name
    case MigrationId => r.migrationId
    case Status => r.status
    case Owner => r.owner
    case EvidenceUrl => r.evidenceUrl
  }

  predicate Distinct(urns: seq<string>) { forall i, j :: 0 <= i < j < |urns| ==> urns[i] != urns[j] }

  // ---- grouping --------------------------------------------------------------------------

  datatype Group = Group(record: Record, urns: seq<string>)

  /** `grouped.setdefault(key, ...)[1].append(urn)`; the stable JSON key stands for the record itself. */
  function AddTo(groups: seq<Group>, record: Record, urn: string): seq<Group> {
    if groups == [] then [Group(record, [urn])]
    else if groups[0].record == record then [Group(record, groups[0].urns + [urn])] + groups[1..]
    else [groups[0]] + AddTo(groups[1..], record, urn)
  }

  predicate DistinctRecords(groups: seq<Group>) {
    forall i, j :: 0 <= i < j < |groups| ==> groups[i].record != groups[j].record
  }

  function Members(groups: seq<Group>): multiset<string> {
    if groups == [] then multiset{} else multiset(groups[0].urns) + Members(groups[1..])
  }

  predicate Faithful(groups: seq<Group>, records: map<string, Record>) {
    forall g, u :: g in groups && u in g.urns ==> u in records && records[u] == g.record
  }

  lemma {:induction false} AddToMembers(groups: seq<Group>, record: Record, urn: string)
    ensures Members(AddTo(groups, record, urn)) == Members(groups) + multiset{urn}
  {
    if groups != [] && groups[0].record != record { AddToMembers(groups[1..], record, urn); }
  }

  lemma {:induction false} AddToGroups(groups: seq<Group>, record: Record, urn: string, g: Group)
    requires g in AddTo(groups, record, urn)
    ensures g in groups || (g.record == record && |g.urns| > 0 && g.urns[|g.urns| - 1] == urn
              && (g.urns == [urn] || Group(record, g.urns[..|g.urns| - 1]) in groups))
  {
    if groups != [] {
      if groups[0].record == record {
        if g == Group(record, groups[0].urns + [urn]) {
          assert g.urns[..|g.urns| - 1] == groups[0].urns;
          assert Group(record, groups[0].urns) == groups[0];
        }
      } else if g != groups[0] {
        AddToGroups(groups[1..], record, urn, g);
      }
    }
  }

  lemma {:induction false} AddToDistinct(groups: seq<Group>, record: Record, urn: string)
    requires DistinctRecords(groups)
    ensures DistinctRecords(AddTo(groups, record, urn))
  {
    if groups != [] && groups[0].record != record {
      var rest := AddTo(groups[1..], record, urn);
      AddToDistinct(groups[1..], record, urn);
      forall i | 0 <= i < |rest| ensures rest[i].record != groups[0].record {
        AddToGroups(groups[1..], record, urn, rest[i]);
      }
    }
  }

  lemma AddToKeeps(groups: seq<Group>, record: Record, urn: string, records: map<string, Record>)
    requires DistinctRecords(groups) && Faithful(groups, records) && NonEmpty(groups)
    requires urn in records && records[urn] == record
    ensures DistinctRecords(AddTo(groups, record, urn)) && Faithful(AddTo(groups, record, urn), records)
    ensures NonEmpty(AddTo(groups, record, urn))
    ensures Members(AddTo(groups, record, urn)) == Members(groups) + multiset{urn}
  {
    hide AddTo, Members, DistinctRecords;
    AddToMembers(groups, record, urn);
    AddToDistinct(groups, record, urn);
    var after := AddTo(groups, record, urn);
    forall g, u | g in after && u in g.urns ensures u in records && records[u] == g.record {
      AddToGroups(groups, record, urn, g);
      if g !in groups && u != urn { assert u in g.urns[..|g.urns| - 1]; }
    }
    forall g | g in after ensures g.urns != [] { AddToGroups(groups, record, urn, g); }
  }

  predicate NonEmpty(groups: seq<Group>) { forall g :: g in groups ==> g.urns != [] }

  /** Grouping partitions the assets: each in one group, under its own record; no record twice. */
  ghost predicate Partitions(groups: seq<Group>, urns: seq<string>, records: map<string, Record>) {
    && Members(groups) == multiset(urns)
    && Faithful(groups, records)
    && DistinctRecords(groups)
    && NonEmpty(groups)
  }

  method GroupAssets(urns: seq<string>, records: map<string, Record>) returns (groups: seq<Group>)
    requires forall u :: u in urns ==> u in records
    ensures Partitions(groups, urns, records)
  {
    groups := [];
    var i := 0;
    while i < |urns|
      invariant 0 <= i <= |urns|
      invariant Partitions(groups, urns[..i], records)
    {
      assert urns[..i + 1] == urns[..i] + [urns[i]];
      AddToKeeps(groups, records[urns[i]], urns[i], records);
      groups := AddTo(groups, records[urns[i]], urns[i]);
      i := i + 1;
    }
    assert urns[..|urns|] == urns;
  }

  // ---- mutations ---------------------------------------------------------------------------

  datatype Outcome = Outcome(applied: nat, succeeded: bool)

  function SetAll(urn: string, r: Record, reported: bool): seq<Write> {
    [SetProperty(urn, MigrationId, r.migrationId, reported), SetProperty(urn, Status, r.status, reported),
     SetProperty(urn, Owner, r.owner, reported), SetProperty(urn, EvidenceUrl, r.evidenceUrl, reported)]
  }

  function GroupWrites(r: Record, urns: seq<string>, reported: bool): seq<Write> {
    if urns == [] then [] else GroupWrites(r, urns[..|urns| - 1], reported) + SetAll(urns[|urns| - 1], r, reported)
  }

  function TagWrites(urns: seq<string>): (r: seq<Write>)
    ensures |r| == |urns|
  {
    seq(|urns|, i requires 0 <= i < |urns| => AddTag(urns[i]))
  }

  /** As much of the work as the server did before it answered. */
  function Done(writes: seq<Write>, o: Outcome): seq<Write> {
    if o.applied < |writes| then writes[..o.applied] else writes
  }

  /** The upserts from group `i` on: what took effect, and whether every call reported success. */
  function UpsertsFrom(groups: seq<Group>, i: nat, outcomes: nat -> Outcome, reported: bool): (seq<Write>, bool)
    requires i <= |groups|
    decreases |groups| - i
  {
    if i == |groups| then ([], true)
    else
      var now := Done(GroupWrites(groups[i].record, groups[i].urns, reported), outcomes(i));
      if !outcomes(i).succeeded then (now, false)
      else
        var rest := UpsertsFrom(groups, i + 1, outcomes, reported);
        (now + rest.0, rest.1)
  }

  lemma {:induction false} WriteAllAppend(entities: map<string, Entity>, a: seq<Write>, b: seq<Write>)
    ensures WriteAll(entities, a + b) == WriteAll(WriteAll(entities, a), b)
    decreases |a|
  {
    if a == [] {
      assert a + b == b;
    } else {
      assert (a + b)[1..] == a[1..] + b;
      WriteAllAppend(WriteTo(entities, a[0]), a[1..], b);
    }
  }

  lemma WriteNothing(entities: map<string, Entity>)
    ensures WriteAll(entities, []) == entities
  {}

  // ---- read-back -----------------------------------------------------------------------------

  /** What one `get_entities` call answers: nothing, the server's own state, or something else. */
  datatype Readback = Lost | Live | Other(entities: map<string, Entity>)

  function Observed(answer: Readback, entities: map<string, Entity>, urns: seq<string>): Option<map<string, Entity>> {
    match answer
    case Lost => None
    case Live => (
      if (forall u :: u in urns ==> u in entities) then Some(map u | u in urns && u in entities :: entities[u])
      else None)
    case Other(shown) =>
      if (forall u :: u in urns ==> u in shown) && (forall u :: u in shown ==> u in urns) then Some(shown) else None
  }

  predicate PropertyMatch(entity: Entity, r: Record) {
    var properties := Properties(entity.properties);
    forall name: PropertyName ::
      (if PropertyUrn(name) in properties then Some(properties[PropertyUrn(name)])
       else if QualifiedName(name) in properties then Some(properties[QualifiedName(name)])
       else None) == Some([Text(ValueOf(r, name))])
  }

  predicate FullMatch(entity: Entity, r: Record) {
    PropertyMatch(entity, r) && TAG in GovernanceOf(entity).tagUrns
  }

  /** The read-back shows all four assets, each with its own values and the tag. */
  predicate Proves(answer: Readback, entities: map<string, Entity>, urns: seq<string>, records: map<string, Record>)
    requires forall u :: u in urns ==> u in records
  {
    var seen := Observed(answer, entities, urns);
    seen.Some? && forall u :: u in urns ==> u in seen.value && FullMatch(seen.value[u], records[u])
  }

  // ---- a write-back run ------------------------------------------------------------------------

  datatype JournalEntry = JournalEntry(sequence: nat, operation: string, assets: seq<string>, success: bool)

  predicate Numbered(journal: seq<JournalEntry>) {
    forall i :: 0 <= i < |journal| ==> journal[i].sequence == i + 1
  }

  datatype Receipt = Receipt(records: map<string, Record>, journal: seq<JournalEntry>)

  datatype WriteError =
    | Refused
    | PartialWrite(failedOperation: string, successful: seq<string>, journal: seq<JournalEntry>)

  datatype Weather = Weather(upserts: nat -> Outcome, tag: Outcome, readbacks: nat -> Readback)

  class DataHub {
    var entities: map<string, Entity>
    const reported: bool

    constructor (entities: map<string, Entity>, reported: bool)
      ensures this.entities == entities && this.reported == reported
    {
      this.entities, this.reported := entities, reported;
    }

    method AddStructuredProperties(r: Record, urns: seq<string>, o: Outcome) returns (ok: bool)
      modifies this
      ensures entities == WriteAll(old(entities), Done(GroupWrites(r, urns, reported), o)) && ok == o.succeeded
    {
      entities := WriteAll(entities, Done(GroupWrites(r, urns, reported), o));
      ok := o.succeeded;
    }

    method AddTags(urns: seq<string>, o: Outcome) returns (ok: bool)
      modifies this
      ensures entities == WriteAll(old(entities), Done(TagWrites(urns), o)) && ok == o.succeeded
    {
      entities := WriteAll(entities, Done(TagWrites(urns), o));
      ok := o.succeeded;
    }

    method GetEntities(urns: seq<string>, answer: Readback) returns (seen: Option<map<string, Entity>>)
      ensures seen == Observed(answer, entities, urns)
    {
      seen := Observed(answer, entities, urns);
    }
  }

  /** Everything a run changes, and whether all its mutation calls reported success. */
  function RunWrites(groups: seq<Group>, urns: seq<string>, w: Weather, reported: bool): (seq<Write>, bool) {
    var (writes, ok) := UpsertsFrom(groups, 0, w.upserts, reported);
    if ok then (writes + Done(TagWrites(urns), w.tag), w.tag.succeeded) else (writes, false)
  }

  class DataHubMigrationWriter {
    const hub: DataHub
    const entityUrns: seq<string>
    const owners: map<string, string>

    /** The frozen context names four distinct assets with their one owner each. */
    constructor (hub: DataHub, entityUrns: seq<string>, owners: map<string, string>)
      requires |entityUrns| == 4 && Distinct(entityUrns)
      ensures this.hub == hub && this.entityUrns == entityUrns && this.owners == owners
    {
      this.hub, this.entityUrns, this.owners := hub, entityUrns, owners;
    }

    /** The input checks before anything is written. */
    predicate Accepts(supplied: seq<string>, records: map<string, Record>, refreshed: bool) {
      && supplied == entityUrns
      && (forall u :: u in records ==> u in entityUrns) && (forall u :: u in entityUrns ==> u in records)
      && (forall u, v :: u in records && v in records ==> records[u].migrationId == records[v].migrationId)
      && (forall u :: u in entityUrns && u in records ==> u in owners && records[u].owner == owners[u])
      && ((exists u :: u in records && records[u].status == "COMMITTED") ==> refreshed)
    }

    method Upsert(groups: seq<Group>, w: Weather) returns (journal: seq<JournalEntry>, mutated: set<string>, ok: bool)
      modifies hub
      ensures hub.entities == WriteAll(old(hub.entities), UpsertsFrom(groups, 0, w.upserts, hub.reported).0)
      ensures ok == UpsertsFrom(groups, 0, w.upserts, hub.reported).1
      ensures Numbered(journal)
      ensures ok ==> forall u :: u in Members(groups) ==> u in mutated
    {
      hide WriteAll, GroupWrites, Done;
      journal, mutated, ok := [], {}, true;
      assert groups[0..] == groups;
      assert WriteAll(hub.entities, []) == hub.entities by { WriteNothing(hub.entities); }
      ghost var all := UpsertsFrom(groups, 0, w.upserts, hub.reported).0;
      assert [] + all == all;
      ghost var done: seq<Write> := [];
      var i := 0;
      while i < |groups|
        invariant 0 <= i <= |groups| && Numbered(journal)
        invariant hub.entities == WriteAll(old(hub.entities), done)
        invariant UpsertsFrom(groups, 0, w.upserts, hub.reported) ==
                  (done + UpsertsFrom(groups, i, w.upserts, hub.reported).0,
                   UpsertsFrom(groups, i, w.upserts, hub.reported).1)
        invariant forall u :: u in Members(groups) ==> u in mutated || u in Members(groups[i..])
      {
        ghost var now := Done(GroupWrites(groups[i].record, groups[i].urns, hub.reported), w.upserts(i));
        WriteAllAppend(old(hub.entities), done, now);
        assert groups[i..][1..] == groups[i + 1..];
        var succeeded := hub.AddStructuredProperties(groups[i].record, groups[i].urns, w.upserts(i));
        journal := journal + [JournalEntry(|journal| + 1, "upsert_structured_properties", groups[i].urns, succeeded)];
        if !succeeded {
          return journal, mutated, false;
        }
        ghost var rest := UpsertsFrom(groups, i + 1, w.upserts, hub.reported).0;
        assert done + (now + rest) == (done + now) + rest;
        mutated := mutated + set u | u in groups[i].urns;
        done := done + now;
        i := i + 1;
      }
      assert done + [] == done;
    }

    /** The bounded read-back: stops at the first attempt that proves the write. */
    method ReadBack(records: map<string, Record>, attempts: nat, mutated: set<string>, tagged: bool, w: Weather,
                    journal0: seq<JournalEntry>)
      returns (journal: seq<JournalEntry>, successful: seq<string>, proven: bool)
      requires |entityUrns| == 4 && Distinct(entityUrns)
      requires (forall u :: u in entityUrns ==> u in records) && attempts > 0 && Numbered(journal0)
      ensures Numbered(journal) && journal0 < journal
      ensures proven <==> exists k :: 0 <= k < attempts && Proves(w.readbacks(k), hub.entities, entityUrns, records)
      ensures proven ==> successful == entityUrns
      ensures journal[|journal| - 1] == JournalEntry(|journal|, "readback_match", successful, proven)
    {
      hide FullMatch;
      journal, successful, proven := journal0, [], false;
      var k := 0;
      while k < attempts && !proven
        invariant 0 <= k <= attempts && Numbered(journal) && journal0 <= journal
        invariant proven <==> exists j :: 0 <= j < k && Proves(w.readbacks(j), hub.entities, entityUrns, records)
        invariant proven ==> successful == entityUrns
        invariant k > 0 ==>
                    && journal0 < journal
                    && journal[|journal| - 1] == JournalEntry(|journal|, "readback_match", successful, proven)
      {
        var seen := hub.GetEntities(entityUrns, w.readbacks(k));
        journal := journal + [JournalEntry(|journal| + 1, "readback_fetch", entityUrns, seen.Some?)];
        successful := Successful(records, seen, mutated, tagged);
        proven := seen.Some? && |successful| == 4;
        journal := journal + [JournalEntry(|journal| + 1, "readback_match", successful, proven)];
        k := k + 1;
      }
    }

    /** The assets an attempt counts as fully written. */
    method Successful(records: map<string, Record>, seen: Option<map<string, Entity>>, mutated: set<string>,
                      tagged: bool)
      returns (successful: seq<string>)
      requires |entityUrns| == 4 && (forall u :: u in entityUrns ==> u in records)
      requires seen.Some? ==> forall u :: u in entityUrns ==> u in seen.value
      ensures |successful| <= 4
      ensures seen.Some? ==> forall u :: u in successful <==> u in entityUrns && FullMatch(seen.value[u], records[u])
      ensures seen.None? ==> forall u :: u in successful <==> u in entityUrns && tagged && u in mutated
      ensures |successful| == 4 <==>
              forall u :: u in entityUrns ==>
                (if seen.Some? then FullMatch(seen.value[u], records[u]) else tagged && u in mutated)
      ensures |successful| == 4 ==> successful == entityUrns
    {
      hide FullMatch;
      successful := [];
      var i := 0;
      while i < 4
        invariant 0 <= i <= 4 && |successful| <= i
        invariant forall u :: u in successful <==>
                    && u in entityUrns[..i]
                    && (if seen.Some? then FullMatch(seen.value[u], records[u]) else tagged && u in mutated)
        invariant |successful| == i ==> successful == entityUrns[..i]
        invariant |successful| == i <==> forall u :: u in entityUrns[..i] ==>
                    (if seen.Some? then FullMatch(seen.value[u], records[u]) else tagged && u in mutated)
      {
        var u := entityUrns[i];
        assert u in entityUrns;
        assert entityUrns[..i + 1] == entityUrns[..i] + [u];
        if if seen.Some? then FullMatch(seen.value[u], records[u]) else tagged && u in mutated {
          successful := successful + [u];
        }
        i := i + 1;
      }
      assert entityUrns[..4] == entityUrns;
    }

    method WriteAssets(supplied: seq<string>, records: map<string, Record>, refreshed: bool, w: Weather)
      returns (r: Result<Receipt, WriteError>, ghost groups: seq<Group>)
      requires |entityUrns| == 4 && Distinct(entityUrns)
      modifies hub
      // refused before anything is written
      ensures !Accepts(supplied, records, refreshed) ==> r == Failure(Refused) && hub.entities == old(hub.entities)
      // otherwise the calls, each possibly cut off, are all that changes DataHub
      ensures Accepts(supplied, records, refreshed) ==>
                && Partitions(groups, entityUrns, records)
                && hub.entities == WriteAll(old(hub.entities), RunWrites(groups, entityUrns, w, hub.reported).0)
      // a receipt exactly when a read-back in the budget shows everything, whatever the mutations reported
      ensures Accepts(supplied, records, refreshed) ==>
                (r.Success? <==> exists k ::
                  && 0 <= k < (if RunWrites(groups, entityUrns, w, hub.reported).1 then READBACK_ATTEMPTS else 1)
                  && Proves(w.readbacks(k), hub.entities, entityUrns, records))
      // after anything earlier attempts left behind, an attempt without faults and with one true read-back succeeds
      ensures (&& Accepts(supplied, records, refreshed) && (forall u :: u in entityUrns ==> u in old(hub.entities))
               && Faultless(groups, entityUrns, w, hub.reported)
               && (exists k :: 0 <= k < READBACK_ATTEMPTS && w.readbacks(k).Live?)) ==> r.Success?
      ensures r.Success? ==> r.value.records == records && Numbered(r.value.journal)
      ensures r.Failure? && r.error.PartialWrite? ==> Numbered(r.error.journal)
    {
      hide Proves, UpsertsFrom, Partitions, Faultless;
      groups := [];
      if !Accepts(supplied, records, refreshed) { return Failure(Refused), groups; }
      var grouped := GroupAssets(entityUrns, records);
      groups := grouped;
      var journal, mutated, ok := Upsert(grouped, w);
      var failedOperation := "";
      if !ok { failedOperation := "upsert_structured_properties"; }
      if ok {
        ghost var upserts := UpsertsFrom(grouped, 0, w.upserts, hub.reported).0;
        WriteAllAppend(old(hub.entities), upserts, Done(TagWrites(entityUrns), w.tag));
        ok := hub.AddTags(entityUrns, w.tag);
        journal := journal + [JournalEntry(|journal| + 1, "add_migration_tag", entityUrns, ok)];
        if !ok { failedOperation := "add_migration_tag"; }
      }
      var attempts := if ok then READBACK_ATTEMPTS else 1;
      if Faultless(grouped, entityUrns, w, hub.reported) && forall u :: u in entityUrns ==> u in old(hub.entities) {
        RetrySucceeds(old(hub.entities), grouped, entityUrns, records, w, hub.reported);
      }
      var all, successful, proven := ReadBack(records, attempts, mutated, ok, w, journal);
      if !proven {
        if failedOperation == "" { failedOperation := "readback"; }
        return Failure(PartialWrite(failedOperation, successful, all)), groups;
      }
      r := Success(Receipt(records, all));
    }
  }

  // ---- a failure-free attempt succeeds -------------------------------------------------------------

  predicate Writes(e: Entry, key: string) {
    e.Entry? && KeyOf(e).Some? && (KeyOf(e).value == key || e.propertyUrn == Some(key))
  }

  function LastWriter(entries: seq<Entry>, key: string): Option<Entry> {
    if entries == [] then None
    else if Writes(entries[|entries| - 1], key) then Some(entries[|entries| - 1])
    else LastWriter(entries[..|entries| - 1], key)
  }

  lemma {:induction false} LastWriterWins(entries: seq<Entry>, key: string)
    ensures LastWriter(entries, key).Some? ==>
              && LastWriter(entries, key).value.Entry?
              && key in Properties(entries) && Properties(entries)[key] == Dedup(LastWriter(entries, key).value.values)
  {
    if entries != [] { LastWriterWins(entries[..|entries| - 1], key); }
  }

  lemma {:induction false} WithoutAppend(a: seq<Entry>, e: Entry, urn: string)
    ensures Without(a + [e], urn) == Without(a, urn) + if Named(e, urn) then [] else [e]
  {
    if a == [] {
      assert a + [e] == [e];
    } else {
      assert (a + [e])[1..] == a[1..] + [e];
      WithoutAppend(a[1..], e, urn);
    }
  }

  lemma LastWriterAppend(entries: seq<Entry>, e: Entry, key: string)
    ensures LastWriter(entries + [e], key) == if Writes(e, key) then Some(e) else LastWriter(entries, key)
  {
    assert (entries + [e])[..|entries|] == entries;
  }

  lemma {:induction false} WithoutKeepsWriter(entries: seq<Entry>, key: string, urn: string)
    requires LastWriter(entries, key).Some? && !Named(LastWriter(entries, key).value, urn)
    ensures LastWriter(Without(entries, urn), key) == LastWriter(entries, key)
  {
    var init, e := entries[..|entries| - 1], entries[|entries| - 1];
    assert entries == init + [e];
    WithoutAppend(init, e, urn);
    if !Named(e, urn) { LastWriterAppend(Without(init, urn), e, key); }
    if !Writes(e, key) { WithoutKeepsWriter(init, key, urn); }
    assert Without(init, urn) + [] == Without(init, urn);
  }

  lemma SuffixesDiffer(a: PropertyName, b: PropertyName)
    requires a != b
    ensures PropertyUrn(a) != PropertyUrn(b) && QualifiedName(a) != PropertyUrn(b)
  {
    var prefix := "urn:li:structuredProperty:" + MARKER;
    assert PropertyUrn(a)[|prefix|..] == Suffix(a) && PropertyUrn(b)[|prefix|..] == Suffix(b);
    assert Suffix(a) != Suffix(b) by { assert Suffix(a)[0] != Suffix(b)[0]; }
    assert QualifiedName(a)[0] == 'i' && PropertyUrn(b)[0] == 'u';
  }

  /** The association of `name` with `value` is what a reader of its URN sees. */
  predicate Holds(entity: Entity, name: PropertyName, value: string, reported: bool) {
    LastWriter(entity.properties, PropertyUrn(name)) == Some(Association(name, value, reported))
  }

  lemma UpsertHolds(entity: Entity, w: Write, name: PropertyName, value: string, reported: bool)
    requires w.SetProperty? ==> w.reported == reported
    requires w.SetProperty? && w.name == name ==> w.value == value
    requires (w.SetProperty? && w.name == name) || Holds(entity, name, value, reported)
    ensures Holds(Written(entity, w), name, value, reported)
  {
    hide PropertyUrn, QualifiedName, LastWriter;
    if w.SetProperty? {
      var kept := Without(entity.properties, PropertyUrn(w.name));
      var e := Association(w.name, w.value, reported);
      LastWriterAppend(kept, e, PropertyUrn(name));
      if w.name != name {
        SuffixesDiffer(w.name, name);
        WithoutKeepsWriter(entity.properties, PropertyUrn(name), PropertyUrn(w.name));
      } else {
        NameNotEmpty(name);
      }
    }
  }

  lemma NameNotEmpty(name: PropertyName)
    ensures QualifiedName(name) != ""
  {}

  predicate Sets(w: Write, u: string, name: PropertyName) { w.SetProperty? && w.urn == u && w.name == name }

  lemma {:induction false} SetStays(entities: map<string, Entity>, writes: seq<Write>, u: string, name: PropertyName,
                                    value: string, reported: bool)
    requires u in entities
    requires forall w :: w in writes ==>
               (Sets(w, u, name) ==> w.value == value) && (w.SetProperty? ==> w.reported == reported)
    requires Holds(entities[u], name, value, reported) || exists w :: w in writes && Sets(w, u, name)
    ensures u in WriteAll(entities, writes) && Holds(WriteAll(entities, writes)[u], name, value, reported)
    decreases |writes|
  {
    if writes != [] {
      hide Holds, Written;
      var next := WriteTo(entities, writes[0]);
      assert writes[0] in writes;
      if writes[0].urn == u && (Sets(writes[0], u, name) || Holds(entities[u], name, value, reported)) {
        UpsertHolds(entities[u], writes[0], name, value, reported);
      } else if !Sets(writes[0], u, name) && !Holds(entities[u], name, value, reported) {
        var w :| w in writes && Sets(w, u, name);
        assert w in writes[1..];
      }
      SetStays(next, writes[1..], u, name, value, reported);
    }
  }

  lemma {:induction false} TagStays(entities: map<string, Entity>, writes: seq<Write>, u: string)
    requires u in entities && (Some(TAG) in entities[u].tags || AddTag(u) in writes)
    ensures u in WriteAll(entities, writes) && Some(TAG) in WriteAll(entities, writes)[u].tags
    decreases |writes|
  {
    if writes != [] {
      TagStays(WriteTo(entities, writes[0]), writes[1..], u);
    }
  }

  /** No call fails or is cut off. */
  ghost predicate Faultless(groups: seq<Group>, urns: seq<string>, w: Weather, reported: bool) {
    && (forall i :: 0 <= i < |groups| ==>
          w.upserts(i).succeeded && w.upserts(i).applied >= |GroupWrites(groups[i].record, groups[i].urns, reported)|)
    && w.tag.succeeded && w.tag.applied >= |urns|
  }

  lemma {:induction false} GroupWritesAre(r: Record, urns: seq<string>, reported: bool, x: Write)
    ensures x in GroupWrites(r, urns, reported) <==>
            x.SetProperty? && x.urn in urns && x.value == ValueOf(r, x.name) && x.reported == reported
  {
    if urns != [] {
      var init, last := urns[..|urns| - 1], urns[|urns| - 1];
      GroupWritesAre(r, init, reported, x);
      assert urns == init + [last];
      var four := SetAll(last, r, reported);
      assert x in four <==> x == four[0] || x == four[1] || x == four[2] || x == four[3];
    }
  }

  lemma {:induction false} UpsertsAre(groups: seq<Group>, i: nat, outcomes: nat -> Outcome, reported: bool, x: Write)
    requires i <= |groups|
    requires forall k :: i <= k < |groups| ==>
               outcomes(k).succeeded && outcomes(k).applied >= |GroupWrites(groups[k].record, groups[k].urns, reported)|
    ensures UpsertsFrom(groups, i, outcomes, reported).1
    ensures x in UpsertsFrom(groups, i, outcomes, reported).0 <==>
            && x.SetProperty? && x.reported == reported
            && exists k :: i <= k < |groups| && x.urn in groups[k].urns && x.value == ValueOf(groups[k].record, x.name)
    decreases |groups| - i
  {
    if i < |groups| {
      UpsertsAre(groups, i + 1, outcomes, reported, x);
      GroupWritesAre(groups[i].record, groups[i].urns, reported, x);
    }
  }

  lemma {:induction false} MemberOfSome(groups: seq<Group>, u: string)
    requires u in Members(groups)
    ensures exists k :: 0 <= k < |groups| && u in groups[k].urns
  {
    if u in groups[0].urns {
    } else {
      MemberOfSome(groups[1..], u);
      var k :| 0 <= k < |groups[1..]| && u in groups[1..][k].urns;
      assert u in groups[k + 1].urns;
    }
  }

  /** The upserts of a failure-free run give every asset exactly its own record's values. */
  lemma RunSets(groups: seq<Group>, urns: seq<string>, records: map<string, Record>, w: Weather, reported: bool,
                u: string,
                name: PropertyName)
    requires Partitions(groups, urns, records) && Faultless(groups, urns, w, reported) && u in urns
    ensures u in records && RunWrites(groups, urns, w, reported).1
    ensures var writes := RunWrites(groups, urns, w, reported).0;
            && SetProperty(u, name, ValueOf(records[u], name), reported) in writes
            && AddTag(u) in writes
            && (forall x :: x in writes ==> (Sets(x, u, name) ==> x.value == ValueOf(records[u], name))
                                            && (x.SetProperty? ==> x.reported == reported))
  {
    hide UpsertsFrom, GroupWrites, Members, DistinctRecords;
    assert u in Members(groups);
    MemberOfSome(groups, u);
    var k :| 0 <= k < |groups| && u in groups[k].urns;
    assert groups[k] in groups;
    var (upserts, ok) := UpsertsFrom(groups, 0, w.upserts, reported);
    var writes := RunWrites(groups, urns, w, reported).0;
    UpsertsAre(groups, 0, w.upserts, reported, SetProperty(u, name, ValueOf(records[u], name), reported));
    assert Done(TagWrites(urns), w.tag) == TagWrites(urns);
    var i :| 0 <= i < |urns| && urns[i] == u;
    assert TagWrites(urns)[i] == AddTag(u);
    forall x | x in writes && x.SetProperty?
      ensures x.reported == reported && (Sets(x, u, name) ==> x.value == ValueOf(records[u], name))
    {
      if x in upserts {
        UpsertsAre(groups, 0, w.upserts, reported, x);
        var j :| 0 <= j < |groups| && x.urn in groups[j].urns && x.value == ValueOf(groups[j].record, x.name);
        assert groups[j] in groups;
      }
    }
  }

  lemma HoldsMatches(entity: Entity, r: Record, reported: bool)
    requires forall name :: Holds(entity, name, ValueOf(r, name), reported)
    requires Some(TAG) in entity.tags
    ensures FullMatch(entity, r)
  {
    hide PropertyUrn, QualifiedName, Properties, LastWriter;
    forall name: PropertyName
      ensures PropertyUrn(name) in Properties(entity.properties)
      ensures Properties(entity.properties)[PropertyUrn(name)] == [Text(ValueOf(r, name))]
    {
      assert Holds(entity, name, ValueOf(r, name), reported);
      LastWriterWins(entity.properties, PropertyUrn(name));
      DedupOne(Text(ValueOf(r, name)));
    }
  }

  lemma DedupOne(v: Value)
    ensures Dedup([v]) == [v]
  {}

  /**
    Whatever earlier attempts left behind: when no call fails and one read-back within the budget is the
    server's own, the attempt proves the write.
   */
  lemma RetrySucceeds(entities: map<string, Entity>, groups: seq<Group>, urns: seq<string>,
                      records: map<string, Record>,
                      w: Weather, reported: bool)
    requires Partitions(groups, urns, records) && Faultless(groups, urns, w, reported)
    requires forall u :: u in urns ==> u in entities && u in records
    ensures RunWrites(groups, urns, w, reported).1
    ensures Proves(Live, WriteAll(entities, RunWrites(groups, urns, w, reported).0), urns, records)
  {
    hide RunWrites, WriteAll, Partitions, Faultless, FullMatch, Holds;
    var writes := RunWrites(groups, urns, w, reported).0;
    var after := WriteAll(entities, writes);
    forall u | u in urns ensures u in after && FullMatch(after[u], records[u]) {
      forall name: PropertyName ensures u in after && Holds(after[u], name, ValueOf(records[u], name), reported) {
        RunSets(groups, urns, records, w, reported, u, name);
        assert Sets(SetProperty(u, name, ValueOf(records[u], name), reported), u, name);
        SetStays(entities, writes, u, name, ValueOf(records[u], name), reported);
      }
      RunSets(groups, urns, records, w, reported, u, MigrationId);
      TagStays(entities, writes, u);
      HoldsMatches(after[u], records[u], reported);
    }
    RunReports(groups, urns, records, w, reported);
  }

  lemma RunReports(groups: seq<Group>, urns: seq<string>, records: map<string, Record>, w: Weather, reported: bool)
    requires Faultless(groups, urns, w, reported)
    ensures RunWrites(groups, urns, w, reported).1
  {
    hide UpsertsFrom, GroupWrites;
    UpsertsAre(groups, 0, w.upserts, reported, AddTag(""));
  }
}
