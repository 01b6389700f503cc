/**
  The impact fingerprint.  SHA-256 over the stable JSON text is injective here, so the payload itself
  stands for it: LineageTX's own properties and tag never show in it, everything else does.
 */
module Fingerprint {
  import opened Wrappers
  import opened Ordering
  import Paging
  import SchemaPaging

  // ---- what DataHub returns for an entity -----------------------------------------------

  datatype Value = Text(s: string) | Number(n: real)

  /** One structured property association; `Junk` is an entry of the wrong shape. */
  datatype Entry =
    | Junk
    | Entry(propertyUrn: Option<string>, qualifiedName: Option<string>, values: seq<Value>)

  /** None is an association without a readable URN. */
  datatype Entity = Entity(owners: seq<Option<string>>, tags: seq<Option<string>>, properties: seq<Entry>)

  datatype Governance = Governance(ownerUrns: seq<string>, tagUrns: seq<string>, properties: map<string, seq<Value>>)

  function Known(urns: seq<Option<string>>): (r: seq<string>)
    ensures forall u :: u in r <==> Some(u) in urns
  {
    if urns == [] then []
    else (if urns[0].Some? then [urns[0].value] else []) + Known(urns[1..])
  }

  /** `tuple(dict.fromkeys(values))`. */
  function Dedup(values: seq<Value>): (r: seq<Value>)
    ensures forall v :: v in r <==> v in values
  {
    if values == [] then []
    else
      var init := Dedup(values[..|values| - 1]);
      if values[|values| - 1] in init then init else init + [values[|values| - 1]]
  }

  /** `qualified_name or property_urn`. */
  function KeyOf(e: Entry): Option<string>
    requires e.Entry?
  {
    if e.qualifiedName.Some? && e.qualifiedName.value != "" then e.qualifiedName else e.propertyUrn
  }

  function Put(properties: map<string, seq<Value>>, e: Entry): map<string, seq<Value>> {
    if e.Junk? || KeyOf(e).None? then properties
    else
      var first := properties[KeyOf(e).value := Dedup(e.values)];
      if e.propertyUrn.Some? then first[e.propertyUrn.value := Dedup(e.values)] else first
  }

  function Properties(entries: seq<Entry>): map<string, seq<Value>> {
    if entries == [] then map[] else Put(Properties(entries[..|entries| - 1]), entries[|entries| - 1])
  }

  function GovernanceOf(entity: Entity): Governance {
    Governance(SortStrings(Known(entity.owners)), SortStrings(Known(entity.tags)), Properties(entity.properties))
  }

  method ExtractGovernance(entity: Entity) returns (g: Governance)
    ensures g == GovernanceOf(entity)
  {
    var properties: map<string, seq<Value>> := map[];
    var entries := entity.properties;
    var i := 0;
    while i < |entries|
      invariant 0 <= i <= |entries|
      invariant properties == Properties(entries[..i])
    {
      assert entries[..i + 1][..i] == entries[..i];
      var e := entries[i];
      if e.Entry? && KeyOf(e).Some? {
        var canonical := Dedup(e.values);
        properties := properties[KeyOf(e).value := canonical];
        if e.propertyUrn.Some? { properties := properties[e.propertyUrn.value := canonical]; }
      }
      i := i + 1;
    }
    assert entries[..|entries|] == entries;
    g := Governance(SortStrings(Known(entity.owners)), SortStrings(Known(entity.tags)), properties);
  }

  // ---- the payload ------------------------------------------------------------------------

  const MARKER := "io.lineagetx."

  const TAG := "urn:li:tag:LineageTXMigration"

  /** `part in s`. */
  predicate Contains(s: string, part: string) {
    part <= s || (s != "" && Contains(s[1..], part))
  }

  predicate Hidden(key: string) { Contains(key, MARKER) }

  function Visible(properties: map<string, seq<Value>>): map<string, seq<Value>> {
    map key | key in properties && !Hidden(key) :: properties[key]
  }

  function OtherTags(tags: seq<string>): (r: seq<string>)
    ensures forall t :: t in r <==> t in tags && t != TAG
  {
    if tags == [] then [] else (if tags[0] != TAG then [tags[0]] else []) + OtherTags(tags[1..])
  }

  /** Taking the tag out keeps the order. */
  lemma {:induction false} OtherTagsSorted(tags: seq<string>)
    requires StrictlySorted(tags, Before)
    ensures StrictlySorted(OtherTags(tags), Before)
  {
    if tags != [] {
      var rest := OtherTags(tags[1..]);
      OtherTagsSorted(tags[1..]);
      forall i | 0 <= i < |rest| && tags[0] != TAG ensures Before(tags[0], rest[i]) {
        assert rest[i] in rest;
        assert rest[i] in tags[1..];
      }
    }
  }

  type Schema = seq<SchemaPaging.Field>

  datatype Asset = Asset(schema: Schema, entity: Entity)

  datatype Node = Node(kind: string, urn: string)

  /** One `get_lineage_paths_between` answer: its paths; None is a path, or a path element, of the wrong shape. */
  datatype Evidence = Evidence(paths: seq<Option<seq<Option<Node>>>>)

  datatype Lineage = Lineage(urn: string, degree: string, columns: seq<string>, evidence: seq<Evidence>)

  datatype Context = Context(
    sourceUrn: string, sourceColumn: string, replacementColumn: string,
    consumers: seq<Lineage>, assets: map<string, Asset>)

  /** What `load` guarantees: field paths and consumer URNs do not repeat. */
  predicate WellRead(c: Context) {
    && (forall u :: u in c.assets ==> SchemaPaging.DistinctPaths(c.assets[u].schema))
    && DistinctUrns(c.consumers)
  }

  datatype AssetPayload = AssetPayload(
    urn: string, schema: seq<SchemaPaging.Field>, owners: seq<string>, tags: seq<string>,
    properties: map<string, seq<Value>>)

  /** Path signatures sorted by their text: a multiset. */
  datatype ConsumerPayload = ConsumerPayload(
    urn: string, degree: string, columns: seq<string>, paths: multiset<seq<Node>>)

  datatype Payload = Payload(
    sourceUrn: string, sourceColumn: string, replacementColumn: string,
    assets: seq<AssetPayload>, consumers: seq<ConsumerPayload>)

  function Nodes(path: seq<Option<Node>>): seq<Node> {
    if path == [] then [] else (if path[0].Some? then [path[0].value] else []) + Nodes(path[1..])
  }

  function Signatures(paths: seq<Option<seq<Option<Node>>>>): multiset<seq<Node>> {
    if paths == [] then multiset{}
    else (if paths[0].Some? then multiset{Nodes(paths[0].value)} else multiset{}) + Signatures(paths[1..])
  }

  function PathSignatures(evidence: seq<Evidence>): multiset<seq<Node>> {
    if evidence == [] then multiset{} else Signatures(evidence[0].paths) + PathSignatures(evidence[1..])
  }

  /** The values of a table in the order of its sorted keys. */
  ghost function InOrder<V>(table: map<string, V>, keys: seq<string>): (r: seq<V>)
    requires forall k :: k in keys ==> k in table
    ensures |r| == |keys| && forall i :: 0 <= i < |keys| ==> keys[i] in table && r[i] == table[keys[i]]
  {
    assert forall i :: 0 <= i < |keys| ==> keys[i] in keys;
    seq(|keys|, i requires 0 <= i < |keys| => table[keys[i]])
  }

  ghost function SortedValues<V>(table: map<string, V>): seq<V> { InOrder(table, Listing(table.Keys)) }

  ghost function ByPath(schema: Schema): map<string, SchemaPaging.Field>
    requires SchemaPaging.DistinctPaths(schema)
  {
    map f | f in schema :: f.path := f
  }

  ghost function AssetPayloadOf(urn: string, asset: Asset): AssetPayload
    requires SchemaPaging.DistinctPaths(asset.schema)
  {
    var governance := GovernanceOf(asset.entity);
    AssetPayload(urn, SortedValues(ByPath(asset.schema)), governance.ownerUrns,
                 OtherTags(governance.tagUrns), Visible(governance.properties))
  }

  function ConsumerPayloadOf(c: Lineage): ConsumerPayload {
    ConsumerPayload(c.urn, c.degree, c.columns, PathSignatures(c.evidence))
  }

  predicate DistinctUrns(consumers: seq<Lineage>) {
    forall i, j :: 0 <= i < j < |consumers| ==> consumers[i].urn != consumers[j].urn
  }

  ghost function ByUrn(consumers: seq<Lineage>): (r: map<string, ConsumerPayload>)
    requires DistinctUrns(consumers)
    ensures forall u :: u in r ==> r[u].urn == u
  {
    map c | c in consumers :: c.urn := ConsumerPayloadOf(c)
  }

  /** The hops `_degree_sort_key` sorts by. */
  ghost function Hops(table: map<string, ConsumerPayload>): map<string, Paging.Consumer> {
    map u | u in table :: Paging.Consumer(table[u].degree, {})
  }

  ghost function HopOrder(table: map<string, ConsumerPayload>): (r: seq<string>)
    ensures forall u :: u in r <==> u in table
  {
    Paging.ByHopIsOrder(Hops(table));
    Sort(Listing(table.Keys), Paging.ByHop(Hops(table)))
  }

  ghost function AssetPayloads(assets: map<string, Asset>): (r: map<string, AssetPayload>)
    requires forall u :: u in assets ==> SchemaPaging.DistinctPaths(assets[u].schema)
    ensures r.Keys == assets.Keys && forall u :: u in r ==> r[u].urn == u
  {
    map u | u in assets :: AssetPayloadOf(u, assets[u])
  }

  ghost function PayloadOf(c: Context): Payload
    requires WellRead(c)
  {
    var table := ByUrn(c.consumers);
    Payload(c.sourceUrn, c.sourceColumn, c.replacementColumn,
            SortedValues(AssetPayloads(c.assets)), InOrder(table, HopOrder(table)))
  }

  // ---- what the payload tells apart --------------------------------------------------------

  /** Everything about an asset but LineageTX's own properties and tag. */
  ghost predicate SameAsset(a: Asset, b: Asset) {
    && (forall f :: f in a.schema <==> f in b.schema)
    && (forall o :: Some(o) in a.entity.owners <==> Some(o) in b.entity.owners)
    && (forall t :: t != TAG ==> (Some(t) in a.entity.tags <==> Some(t) in b.entity.tags))
    && Visible(Properties(a.entity.properties)) == Visible(Properties(b.entity.properties))
  }

  ghost predicate Shows(consumers: seq<Lineage>, p: ConsumerPayload) {
    exists i :: 0 <= i < |consumers| && ConsumerPayloadOf(consumers[i]) == p
  }

  ghost predicate SameImpact(a: Context, b: Context) {
    && a.sourceUrn == b.sourceUrn && a.sourceColumn == b.sourceColumn && a.replacementColumn == b.replacementColumn
    && a.assets.Keys == b.assets.Keys
    && (forall u :: u in a.assets ==> SameAsset(a.assets[u], b.assets[u]))
    && (forall p :: Shows(a.consumers, p) <==> Shows(b.consumers, p))
  }

  /** A table whose values carry their key can be read back from its ordered values. */
  lemma InOrderInjective<V>(a: map<string, V>, ka: seq<string>, b: map<string, V>, kb: seq<string>, key: V -> string)
    requires (forall k :: k in ka <==> k in a) && (forall k :: k in kb <==> k in b)
    requires (forall k :: k in a ==> key(a[k]) == k) && (forall k :: k in b ==> key(b[k]) == k)
    requires InOrder(a, ka) == InOrder(b, kb)
    ensures a == b
  {
    var r := InOrder(a, ka);
    forall i | 0 <= i < |r| ensures ka[i] == kb[i] { assert key(r[i]) == ka[i] && key(r[i]) == kb[i]; }
    assert ka == kb;
    forall k | k in a ensures k in b && a[k] == b[k] {
      assert k in ka;
      var i :| 0 <= i < |ka| && ka[i] == k;
      assert a[k] == r[i] == b[k];
    }
    assert a.Keys == b.Keys;
  }

  lemma SchemaSame(a: Schema, b: Schema)
    requires SchemaPaging.DistinctPaths(a) && SchemaPaging.DistinctPaths(b)
    ensures SortedValues(ByPath(a)) == SortedValues(ByPath(b)) <==> forall f :: f in a <==> f in b
  {
    if SortedValues(ByPath(a)) == SortedValues(ByPath(b)) {
      InOrderInjective(ByPath(a), Listing(ByPath(a).Keys), ByPath(b), Listing(ByPath(b).Keys),
                       (f: SchemaPaging.Field) => f.path);
      forall f ensures f in a <==> f in b {
        InByPath(a, f);
        InByPath(b, f);
      }
    }
    if forall f :: f in a <==> f in b {
      forall k ensures k in ByPath(a) <==> k in ByPath(b) {}
      assert ByPath(a) == ByPath(b);
    }
  }

  lemma InByPath(a: Schema, f: SchemaPaging.Field)
    requires SchemaPaging.DistinctPaths(a)
    ensures f in a <==> f.path in ByPath(a) && ByPath(a)[f.path] == f
  {}

  lemma KnownSame(a: seq<Option<string>>, b: seq<Option<string>>)
    ensures SortStrings(Known(a)) == SortStrings(Known(b)) <==> forall u :: Some(u) in a <==> Some(u) in b
  {
    BeforeIsOrder();
    if forall u :: Some(u) in a <==> Some(u) in b {
      SortedUnique(SortStrings(Known(a)), SortStrings(Known(b)), Before);
    }
    if SortStrings(Known(a)) == SortStrings(Known(b)) {
      forall u ensures Some(u) in a <==> Some(u) in b {
        assert u in SortStrings(Known(a)) <==> u in Known(a);
        assert u in SortStrings(Known(b)) <==> u in Known(b);
      }
    }
  }

  lemma TagsSame(a: seq<Option<string>>, b: seq<Option<string>>)
    ensures OtherTags(SortStrings(Known(a))) == OtherTags(SortStrings(Known(b)))
            <==> forall t :: t != TAG ==> (Some(t) in a <==> Some(t) in b)
  {
    BeforeIsOrder();
    var x, y := OtherTags(SortStrings(Known(a))), OtherTags(SortStrings(Known(b)));
    OtherTagsSorted(SortStrings(Known(a)));
    OtherTagsSorted(SortStrings(Known(b)));
    if forall t :: t != TAG ==> (Some(t) in a <==> Some(t) in b) { SortedUnique(x, y, Before); }
    if x == y {
      forall t | t != TAG ensures Some(t) in a <==> Some(t) in b {
        assert t in x <==> t in y;
      }
    }
  }

  lemma AssetSame(u: string, a: Asset, b: Asset)
    requires SchemaPaging.DistinctPaths(a.schema) && SchemaPaging.DistinctPaths(b.schema)
    ensures AssetPayloadOf(u, a) == AssetPayloadOf(u, b) <==> SameAsset(a, b)
  {
    hide SortedValues, ByPath, Known, OtherTags, Visible, Properties;
    SchemaSame(a.schema, b.schema);
    KnownSame(a.entity.owners, b.entity.owners);
    TagsSame(a.entity.tags, b.entity.tags);
  }

  lemma ByUrnSame(a: seq<Lineage>, b: seq<Lineage>)
    requires DistinctUrns(a) && DistinctUrns(b)
    requires forall p :: Shows(a, p) <==> Shows(b, p)
    ensures ByUrn(a) == ByUrn(b)
  {
    forall u ensures u in ByUrn(a) <==> u in ByUrn(b) {
      hide Shows, ByUrn;
      if u in ByUrn(a) { ShownByUrn(a, ByUrn(a)[u]); ShownByUrn(b, ByUrn(a)[u]); }
      if u in ByUrn(b) { ShownByUrn(b, ByUrn(b)[u]); ShownByUrn(a, ByUrn(b)[u]); }
    }
    hide Shows, ByUrn;
    forall u | u in ByUrn(a) ensures ByUrn(a)[u] == ByUrn(b)[u] {
      ShownByUrn(a, ByUrn(a)[u]);
      ShownByUrn(b, ByUrn(a)[u]);
    }
    assert ByUrn(a).Keys == ByUrn(b).Keys;
  }

  lemma ConsumersSame(a: seq<Lineage>, b: seq<Lineage>)
    requires DistinctUrns(a) && DistinctUrns(b)
    ensures InOrder(ByUrn(a), HopOrder(ByUrn(a))) == InOrder(ByUrn(b), HopOrder(ByUrn(b)))
            <==> forall p :: Shows(a, p) <==> Shows(b, p)
  {
    hide HopOrder, ByUrn, Shows;
    if InOrder(ByUrn(a), HopOrder(ByUrn(a))) == InOrder(ByUrn(b), HopOrder(ByUrn(b))) {
      InOrderInjective(ByUrn(a), HopOrder(ByUrn(a)), ByUrn(b), HopOrder(ByUrn(b)), (p: ConsumerPayload) => p.urn);
      forall p ensures Shows(a, p) <==> Shows(b, p) {
        ShownByUrn(a, p);
        ShownByUrn(b, p);
      }
    }
    if forall p :: Shows(a, p) <==> Shows(b, p) { ByUrnSame(a, b); }
  }

  lemma ShownByUrn(a: seq<Lineage>, p: ConsumerPayload)
    requires DistinctUrns(a)
    ensures Shows(a, p) <==> p.urn in ByUrn(a) && ByUrn(a)[p.urn] == p
  {
    if p.urn in ByUrn(a) {
      var c :| c in a && c.urn == p.urn && ByUrn(a)[p.urn] == ConsumerPayloadOf(c);
      var i :| 0 <= i < |a| && a[i] == c;
      if ByUrn(a)[p.urn] == p { assert ConsumerPayloadOf(a[i]) == p; }
    }
  }

  lemma AssetsSame(a: map<string, Asset>, b: map<string, Asset>)
    requires forall u :: u in a ==> SchemaPaging.DistinctPaths(a[u].schema)
    requires forall u :: u in b ==> SchemaPaging.DistinctPaths(b[u].schema)
    ensures SortedValues(AssetPayloads(a)) == SortedValues(AssetPayloads(b))
            <==> a.Keys == b.Keys && forall u :: u in a ==> SameAsset(a[u], b[u])
  {
    hide AssetPayloadOf, SameAsset;
    var x, y := AssetPayloads(a), AssetPayloads(b);
    if SortedValues(x) == SortedValues(y) {
      InOrderInjective(x, Listing(x.Keys), y, Listing(y.Keys), (p: AssetPayload) => p.urn);
    }
    if a.Keys == b.Keys {
      forall u | u in a ensures x[u] == y[u] <==> SameAsset(a[u], b[u]) { AssetSame(u, a[u], b[u]); }
      if forall u :: u in a ==> SameAsset(a[u], b[u]) { assert x == y; }
    }
  }

  /**
    Two reads have one fingerprint exactly when they differ in nothing but LineageTX's own properties and tag:
    schema fields, owners, other tags, other properties, degrees, columns and path signatures all show.
   */
  lemma FingerprintSeparates(a: Context, b: Context)
    requires WellRead(a) && WellRead(b)
    ensures PayloadOf(a) == PayloadOf(b) <==> SameImpact(a, b)
  {
    hide SortedValues, AssetPayloads, InOrder, HopOrder, ByUrn, SameAsset, Shows;
    AssetsSame(a.assets, b.assets);
    ConsumersSame(a.consumers, b.consumers);
  }

  // ---- LineageTX's own writes ----------------------------------------------------------------

  datatype PropertyName = MigrationId | Status | Owner | EvidenceUrl

  function Suffix(name: PropertyName): string {
    match name
    case MigrationId => "migrationId"
    case Status => "status"
    case Owner => "owner"
    case EvidenceUrl => "evidenceUrl"
  }

  function QualifiedName(name: PropertyName): string { MARKER + Suffix(name) }

  function PropertyUrn(name: PropertyName): string { "urn:li:structuredProperty:" + QualifiedName(name) }

  lemma {:induction false} ContainsMiddle(before: string, part: string, after: string)
    ensures Contains(before + part + after, part)
  {
    if before == "" {
      assert before + part + after == part + after;
    } else {
      ContainsMiddle(before[1..], part, after);
      assert (before + part + after)[1..] == before[1..] + part + after;
    }
  }

  lemma OwnNamesHidden(name: PropertyName)
    ensures Hidden(QualifiedName(name)) && Hidden(PropertyUrn(name))
  {
    ContainsMiddle("", MARKER, Suffix(name));
    assert "" + MARKER + Suffix(name) == QualifiedName(name);
    ContainsMiddle("urn:li:structuredProperty:", MARKER, Suffix(name));
    assert "urn:li:structuredProperty:" + MARKER + Suffix(name) == PropertyUrn(name);
  }

  /** Every key the entry writes is LineageTX's own. */
  predicate Own(e: Entry) {
    && e.Entry?
    && (KeyOf(e).Some? ==> Hidden(KeyOf(e).value))
    && (e.propertyUrn.Some? ==> Hidden(e.propertyUrn.value))
  }

  predicate Named(e: Entry, urn: string) { e.Entry? && e.propertyUrn == Some(urn) }

  /** An upsert drops the old association of the property and adds the new one. */
  function Without(entries: seq<Entry>, urn: string): (r: seq<Entry>)
    ensures forall e :: e in r <==> e in entries && !Named(e, urn)
  {
    if entries == [] then [] else (if Named(entries[0], urn) then [] else [entries[0]]) + Without(entries[1..], urn)
  }

  /** DataHub reports a property with its qualified name, or leaves the name out. */
  function Association(name: PropertyName, value: string, reported: bool): Entry {
    Entry(Some(PropertyUrn(name)), if reported then Some(QualifiedName(name)) else None, [Text(value)])
  }

  function Upsert(entries: seq<Entry>, name: PropertyName, value: string, reported: bool): seq<Entry> {
    Without(entries, PropertyUrn(name)) + [Association(name, value, reported)]
  }

  /** One effect of a write-back call on one entity. */
  datatype Write =
    | SetProperty(urn: string, name: PropertyName, value: string, reported: bool)
    | AddTag(urn: string)

  function Written(entity: Entity, w: Write): Entity {
    match w
    case SetProperty(_, name, value, reported) =>
      entity.(properties := Upsert(entity.properties, name, value, reported))
    case AddTag(_) => if Some(TAG) in entity.tags then entity else entity.(tags := entity.tags + [Some(TAG)])
  }

  function WriteTo(entities: map<string, Entity>, w: Write): map<string, Entity> {
    if w.urn in entities then entities[w.urn := Written(entities[w.urn], w)] else entities
  }

  function WriteAll(entities: map<string, Entity>, writes: seq<Write>): map<string, Entity>
    decreases |writes|
  {
    if writes == [] then entities else WriteAll(WriteTo(entities, writes[0]), writes[1..])
  }

  /** The four properties are LineageTX's: no association of theirs carries a foreign qualified name. */
  predicate Registered(entries: seq<Entry>) {
    forall i, name :: 0 <= i < |entries| && Named(entries[i], PropertyUrn(name)) ==> Own(entries[i])
  }

  lemma {:induction false} PropertiesAppend(entries: seq<Entry>, e: Entry)
    ensures Properties(entries + [e]) == Put(Properties(entries), e)
  {
    assert (entries + [e])[..|entries|] == entries;
  }

  /** What is visible depends on the entries that are not LineageTX's own. */
  function Foreign(entries: seq<Entry>): seq<Entry> {
    if entries == [] then []
    else Foreign(entries[..|entries| - 1]) + if Own(entries[|entries| - 1]) then [] else [entries[|entries| - 1]]
  }

  lemma {:induction false} VisibleForeign(entries: seq<Entry>)
    ensures Visible(Properties(entries)) == Visible(Properties(Foreign(entries)))
  {
    if entries != [] {
      hide Hidden;
      var init, e := entries[..|entries| - 1], entries[|entries| - 1];
      VisibleForeign(init);
      VisiblePut(Properties(init), Properties(Foreign(init)), e);
      if Own(e) { assert Foreign(init) + [] == Foreign(init); } else { PropertiesAppend(Foreign(init), e); }
    }
  }

  lemma VisiblePut(a: map<string, seq<Value>>, b: map<string, seq<Value>>, e: Entry)
    requires Visible(a) == Visible(b)
    ensures Visible(Put(a, e)) == Visible(Put(b, e))
    ensures Own(e) ==> Visible(Put(a, e)) == Visible(b)
  {
    hide Hidden, Dedup;
    forall k ensures k in Visible(a) <==> k in Visible(b) {}
    assert forall k :: k in Visible(a) ==> Visible(a)[k] == Visible(b)[k];
    assert forall k :: !Hidden(k) ==> (k in a <==> k in Visible(a)) && (k in b <==> k in Visible(b));
  }

  lemma {:induction false} ForeignAppend(a: seq<Entry>, b: seq<Entry>)
    ensures Foreign(a + b) == Foreign(a) + Foreign(b)
  {
    if b == [] {
      assert a + b == a;
    } else {
      assert (a + b)[..|a + b| - 1] == a + b[..|b| - 1];
      ForeignAppend(a, b[..|b| - 1]);
    }
  }

  lemma {:induction false} ForeignWithout(entries: seq<Entry>, name: PropertyName)
    requires Registered(entries)
    ensures Foreign(Without(entries, PropertyUrn(name))) == Foreign(entries)
  {
    hide Hidden;
    if entries != [] {
      var rest := Without(entries[1..], PropertyUrn(name));
      ForeignWithout(entries[1..], name);
      ForeignAppend([entries[0]], entries[1..]);
      ForeignAppend([entries[0]], rest);
      assert [entries[0]] + entries[1..] == entries;
      assert Foreign([entries[0]]) == if Own(entries[0]) then [] else [entries[0]];
      assert [] + rest == rest;
    }
  }

  lemma UpsertInvisible(entries: seq<Entry>, name: PropertyName, value: string, reported: bool)
    requires Registered(entries)
    ensures Registered(Upsert(entries, name, value, reported))
    ensures Visible(Properties(Upsert(entries, name, value, reported))) == Visible(Properties(entries))
  {
    OwnNamesHidden(name);
    hide Hidden, Properties, Visible, QualifiedName, PropertyUrn, Foreign;
    var e := Association(name, value, reported);
    assert Own(e);
    var kept := Without(entries, PropertyUrn(name));
    ForeignWithout(entries, name);
    ForeignAppend(kept, [e]);
    ForeignOwn(e);
    assert Foreign(kept) + [] == Foreign(kept);
    VisibleForeign(entries);
    VisibleForeign(kept + [e]);
    forall i, n | 0 <= i < |kept + [e]| && Named((kept + [e])[i], PropertyUrn(n)) ensures Own((kept + [e])[i]) {
      if i < |kept| {
        assert kept[i] in kept;
        var j :| 0 <= j < |entries| && entries[j] == kept[i];
        assert Named(entries[j], PropertyUrn(n));
      }
    }
  }

  lemma ForeignOwn(e: Entry)
    requires Own(e)
    ensures Foreign([e]) == []
  {}

  lemma WrittenInvisible(schema: Schema, entity: Entity, w: Write)
    requires Registered(entity.properties)
    ensures Registered(Written(entity, w).properties)
    ensures SameAsset(Asset(schema, entity), Asset(schema, Written(entity, w)))
  {
    hide Properties, Visible, Registered, Upsert;
    if w.SetProperty? { UpsertInvisible(entity.properties, w.name, w.value, w.reported); }
  }

  /** The entities a context reads, after some writes. */
  ghost predicate Reread(a: Context, b: Context, writes: seq<Write>) {
    var entities := WriteAll(map u | u in a.assets :: a.assets[u].entity, writes);
    && b == a.(assets := b.assets) && b.assets.Keys == a.assets.Keys
    && forall u :: u in a.assets ==> u in entities && b.assets[u] == Asset(a.assets[u].schema, entities[u])
  }

  ghost predicate AllRegistered(entities: map<string, Entity>) {
    forall u :: u in entities ==> Registered(entities[u].properties)
  }

  lemma SameAssetTransitive(a: Asset, b: Asset, c: Asset)
    requires SameAsset(a, b) && SameAsset(b, c)
    ensures SameAsset(a, c)
  {}

  lemma WriteInvisible(entities: map<string, Entity>, w: Write, u: string, schema: Schema)
    requires AllRegistered(entities) && u in entities
    ensures WriteTo(entities, w).Keys == entities.Keys && AllRegistered(WriteTo(entities, w))
    ensures SameAsset(Asset(schema, entities[u]), Asset(schema, WriteTo(entities, w)[u]))
  {
    hide Registered, SameAsset, Written;
    SameAssetReflexive(Asset(schema, entities[u]));
    if w.urn in entities { WrittenInvisible(schema, entities[w.urn], w); }
  }

  lemma {:induction false} WritesInvisible(entities: map<string, Entity>, writes: seq<Write>, u: string, schema: Schema)
    requires AllRegistered(entities) && u in entities
    ensures u in WriteAll(entities, writes)
    ensures SameAsset(Asset(schema, entities[u]), Asset(schema, WriteAll(entities, writes)[u]))
    decreases |writes|
  {
    hide AllRegistered, SameAsset, WriteTo;
    if writes == [] {
      SameAssetReflexive(Asset(schema, entities[u]));
    } else {
      var next := WriteTo(entities, writes[0]);
      WriteInvisible(entities, writes[0], u, schema);
      WritesInvisible(next, writes[1..], u, schema);
      SameAssetTransitive(Asset(schema, entities[u]), Asset(schema, next[u]),
                          Asset(schema, WriteAll(entities, writes)[u]));
    }
  }

  lemma SameAssetReflexive(a: Asset)
    ensures SameAsset(a, a)
  {}

  /** Write-back is invisible: any sequence of LineageTX's writes, complete or cut off, keeps the fingerprint. */
  lemma WritebackInvisible(a: Context, b: Context, writes: seq<Write>)
    requires WellRead(a) && Reread(a, b, writes)
    requires forall u :: u in a.assets ==> Registered(a.assets[u].entity.properties)
    ensures WellRead(b) && PayloadOf(b) == PayloadOf(a)
  {
    hide PayloadOf, SameAsset, Registered, Shows;
    var entities := map u | u in a.assets :: a.assets[u].entity;
    assert AllRegistered(entities);
    forall u | u in a.assets ensures SameAsset(a.assets[u], b.assets[u]) {
      WritesInvisible(entities, writes, u, a.assets[u].schema);
      assert a.assets[u] == Asset(a.assets[u].schema, entities[u]);
    }
    FingerprintSeparates(a, b);
  }
}
