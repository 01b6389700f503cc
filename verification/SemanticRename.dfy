/** The semantic participant's edit of a JSON document, and the counts it is checked by. */
module SemanticRename {
  import opened Wrappers
  import opened Ordering
  import opened Json

  // ---- counting ------------------------------------------------------------------------

  /** `_count_string` of the adapter and `_count_exact` of the proposer: keys and string leaves equal to `needle`. */
  function CountString(value: Json, needle: string): nat
    decreases value
  {
    match value
    case JObject(members) => CountMembers(members, needle)
    case JArray(items) => CountItems(items, needle)
    case JString(s) => if s == needle then 1 else 0
    case _ => 0
  }

  function CountMembers(members: seq<Member>, needle: string): nat
    decreases members
  {
    if members == [] then 0
    else
      (if members[0].key == needle then 1 else 0) + CountString(members[0].value, needle)
      + CountMembers(members[1..], needle)
  }

  function CountItems(items: seq<Json>, needle: string): nat
    decreases items
  {
    if items == [] then 0 else CountString(items[0], needle) + CountItems(items[1..], needle)
  }

  /** Every key and every string leaf of a tree, with multiplicity. */
  function Mentions(value: Json): multiset<string>
    decreases value
  {
    match value
    case JObject(members) => MemberMentions(members)
    case JArray(items) => ItemMentions(items)
    case JString(s) => multiset{s}
    case _ => multiset{}
  }

  function MemberMentions(members: seq<Member>): multiset<string>
    decreases members
  {
    if members == [] then multiset{}
    else multiset{members[0].key} + Mentions(members[0].value) + MemberMentions(members[1..])
  }

  function ItemMentions(items: seq<Json>): multiset<string>
    decreases items
  {
    if items == [] then multiset{} else Mentions(items[0]) + ItemMentions(items[1..])
  }

  lemma {:induction false} CountIsMentions(value: Json, needle: string)
    ensures CountString(value, needle) == Mentions(value)[needle]
    decreases value
  {
    match value
    case JObject(members) => CountIsMemberMentions(members, needle);
    case JArray(items) => CountIsItemMentions(items, needle);
    case _ =>
  }

  lemma {:induction false} CountIsMemberMentions(members: seq<Member>, needle: string)
    ensures CountMembers(members, needle) == MemberMentions(members)[needle]
    decreases members
  {
    if members != [] {
      CountIsMentions(members[0].value, needle);
      CountIsMemberMentions(members[1..], needle);
    }
  }

  lemma {:induction false} CountIsItemMentions(items: seq<Json>, needle: string)
    ensures CountItems(items, needle) == ItemMentions(items)[needle]
    decreases items
  {
    if items != [] {
      CountIsMentions(items[0], needle);
      CountIsItemMentions(items[1..], needle);
    }
  }

  // ---- writing and re-reading with sorted keys ---------------------------------------------

  function InsertMember(m: Member, members: seq<Member>): seq<Member> {
    if members == [] || !Before(members[0].key, m.key) then [m] + members
    else [members[0]] + InsertMember(m, members[1..])
  }

  /** `json.loads(json.dumps(value, sort_keys=True))`. */
  function SortedKeys(value: Json): Json
    decreases value
  {
    match value
    case JObject(members) => JObject(SortMembers(members))
    case JArray(items) => JArray(SortItems(items))
    case _ => value
  }

  function SortMembers(members: seq<Member>): seq<Member>
    decreases members
  {
    if members == [] then []
    else InsertMember(Member(members[0].key, SortedKeys(members[0].value)), SortMembers(members[1..]))
  }

  function SortItems(items: seq<Json>): seq<Json>
    decreases items
  {
    if items == [] then [] else [SortedKeys(items[0])] + SortItems(items[1..])
  }

  lemma {:induction false} InsertMentions(m: Member, members: seq<Member>)
    ensures MemberMentions(InsertMember(m, members)) == multiset{m.key} + Mentions(m.value) + MemberMentions(members)
  {
    if members != [] && Before(members[0].key, m.key) { InsertMentions(m, members[1..]); }
  }

  lemma {:induction false} SortKeepsMentions(value: Json)
    ensures Mentions(SortedKeys(value)) == Mentions(value)
    decreases value
  {
    match value
    case JObject(members) => SortKeepsMemberMentions(members);
    case JArray(items) => SortKeepsItemMentions(items);
    case _ =>
  }

  lemma {:induction false} SortKeepsMemberMentions(members: seq<Member>)
    ensures MemberMentions(SortMembers(members)) == MemberMentions(members)
    decreases members
  {
    if members != [] {
      SortKeepsMentions(members[0].value);
      SortKeepsMemberMentions(members[1..]);
      InsertMentions(Member(members[0].key, SortedKeys(members[0].value)), SortMembers(members[1..]));
    }
  }

  lemma {:induction false} SortKeepsItemMentions(items: seq<Json>)
    ensures ItemMentions(SortItems(items)) == ItemMentions(items)
    decreases items
  {
    if items != [] {
      SortKeepsMentions(items[0]);
      SortKeepsItemMentions(items[1..]);
    }
  }

  /** Counting does not see the order of keys, at any depth. */
  lemma CountIgnoresKeyOrder(value: Json, needle: string)
    ensures CountString(SortedKeys(value), needle) == CountString(value, needle)
  {
    CountIsMentions(value, needle);
    CountIsMentions(SortedKeys(value), needle);
    SortKeepsMentions(value);
  }

  lemma {:induction false} LookupInsert(m: Member, members: seq<Member>, key: string)
    requires Lookup(members, m.key).None?
    ensures Lookup(InsertMember(m, members), key) == if key == m.key then Some(m.value) else Lookup(members, key)
  {
    if members != [] && Before(members[0].key, m.key) { LookupInsert(m, members[1..], key); }
  }

  function SortedOption(value: Option<Json>): Option<Json> {
    match value
    case Some(v) => Some(SortedKeys(v))
    case None => None
  }

  lemma {:induction false} LookupAbsent(members: seq<Member>, key: string)
    ensures Lookup(members, key).None? <==> forall i :: 0 <= i < |members| ==> members[i].key != key
  {
    if members != [] && members[0].key != key {
      LookupAbsent(members[1..], key);
      assert forall i :: 0 < i < |members| ==> members[i] == members[1..][i - 1];
    }
  }

  lemma {:induction false} LookupSorted(members: seq<Member>, key: string)
    requires UniqueKeys(members)
    ensures Lookup(SortMembers(members), key) == SortedOption(Lookup(members, key))
  {
    if members != [] {
      var rest := members[1..];
      LookupAbsent(rest, members[0].key);
      LookupSorted(rest, key);
      LookupSorted(rest, members[0].key);
      LookupInsert(Member(members[0].key, SortedKeys(members[0].value)), SortMembers(rest), key);
    }
  }

  // ---- the edit ----------------------------------------------------------------------------

  /** What `json.loads` returns: no object repeats a key. */
  predicate Loaded(value: Json)
    decreases value
  {
    match value
    case JObject(members) => UniqueKeys(members) && forall i :: 0 <= i < |members| ==> Loaded(members[i].value)
    case JArray(items) => forall i :: 0 <= i < |items| ==> Loaded(items[i])
    case _ => true
  }

  /** `members.pop(key)` without its value. */
  function Remove(members: seq<Member>, key: string): seq<Member> {
    if members == [] then []
    else if members[0].key == key then members[1..]
    else [members[0]] + Remove(members[1..], key)
  }

  function ObjectAt(members: seq<Member>, key: string): Option<seq<Member>> {
    match Lookup(members, key)
    case Some(JObject(inner)) => Some(inner)
    case _ => None
  }

  /** `_parse_document` accepts it. */
  predicate IsDocument(document: Json) {
    document.JObject? && ObjectAt(document.members, "dimensions").Some?
  }

  function Dimensions(document: Json): seq<Member>
    requires IsDocument(document)
  {
    ObjectAt(document.members, "dimensions").value
  }

  /** A dimension named `field` whose `source_field` is `field`. */
  predicate NamesField(dimensions: seq<Member>, field: string) {
    && ObjectAt(dimensions, field).Some?
    && Lookup(ObjectAt(dimensions, field).value, "source_field") == Some(JString(field))
  }

  /** `_validate_pending_document`. */
  predicate Pending(document: Json, expected: int, oldField: string, newField: string) {
    && IsDocument(document)
    && Lookup(Dimensions(document), newField).None?
    && NamesField(Dimensions(document), oldField)
    && CountString(document, oldField) == expected
  }

  /** `_validate_approved_document`. */
  predicate Approved(document: Json, oldField: string, newField: string, expanded: seq<string>, contract: seq<string>) {
    && IsDocument(document)
    && Lookup(Dimensions(document), oldField).None?
    && NamesField(Dimensions(document), newField)
    && CountString(document, oldField) == 0
    && newField in expanded && newField in contract
  }

  function EditedDimensions(dimensions: seq<Member>, oldField: string, newField: string): seq<Member>
    requires NamesField(dimensions, oldField)
  {
    var entry := ObjectAt(dimensions, oldField).value;
    Assign(Remove(dimensions, oldField), newField, JObject(Assign(entry, "source_field", JString(newField))))
  }

  function Edit(document: Json, oldField: string, newField: string): Json
    requires IsDocument(document) && NamesField(Dimensions(document), oldField)
  {
    JObject(Assign(document.members, "dimensions", JObject(EditedDimensions(Dimensions(document), oldField, newField))))
  }

  lemma {:induction false} AssignCounts(members: seq<Member>, key: string, value: Json, needle: string)
    ensures CountMembers(Assign(members, key, value), needle)
            + (match Lookup(members, key) case Some(w) => CountString(w, needle) case None => 0)
            == CountMembers(members, needle) + CountString(value, needle)
               + (if Lookup(members, key).None? && key == needle then 1 else 0)
  {
    if members != [] && members[0].key != key { AssignCounts(members[1..], key, value, needle); }
  }

  lemma {:induction false} RemoveCounts(members: seq<Member>, key: string, needle: string)
    requires Lookup(members, key).Some?
    ensures CountMembers(Remove(members, key), needle) + (if key == needle then 1 else 0)
            + CountString(Lookup(members, key).value, needle) == CountMembers(members, needle)
  {
    if members[0].key != key { RemoveCounts(members[1..], key, needle); }
  }

  lemma {:induction false} RemoveLookup(members: seq<Member>, key: string, other: string)
    requires UniqueKeys(members)
    ensures Lookup(Remove(members, key), other) == if other == key then None else Lookup(members, other)
  {
    if members != [] {
      LookupAbsent(members[1..], members[0].key);
      RemoveLookup(members[1..], key, other);
    }
  }

  /** The edit takes away exactly two mentions of the old field: the dimension's name and its source. */
  lemma EditLowersByTwo(document: Json, expected: int, oldField: string, newField: string)
    requires Loaded(document) && Pending(document, expected, oldField, newField)
    ensures CountString(Edit(document, oldField, newField), oldField) + 2 == CountString(document, oldField)
  {
    var dims := Dimensions(document);
    var entry := ObjectAt(dims, oldField).value;
    var newEntry := Assign(entry, "source_field", JString(newField));
    AssignCounts(entry, "source_field", JString(newField), oldField);
    RemoveCounts(dims, oldField, oldField);
    DimensionsLoaded(document);
    RemoveLookup(dims, oldField, newField);
    AssignCounts(Remove(dims, oldField), newField, JObject(newEntry), oldField);
    AssignCounts(document.members, "dimensions", JObject(EditedDimensions(dims, oldField, newField)), oldField);
  }

  lemma {:induction false} LookupLoaded(members: seq<Member>, key: string)
    requires forall i :: 0 <= i < |members| ==> Loaded(members[i].value)
    ensures Lookup(members, key).Some? ==> Loaded(Lookup(members, key).value)
  {
    if members != [] && members[0].key != key { LookupLoaded(members[1..], key); }
  }

  lemma DimensionsLoaded(document: Json)
    requires Loaded(document) && IsDocument(document)
    ensures UniqueKeys(document.members) && UniqueKeys(Dimensions(document))
    ensures forall i :: 0 <= i < |Dimensions(document)| ==> Loaded(Dimensions(document)[i].value)
  {
    LookupLoaded(document.members, "dimensions");
  }

  predicate HasKey(members: seq<Member>, key: string) { exists j :: 0 <= j < |members| && members[j].key == key }

  lemma {:induction false} AssignKeys(members: seq<Member>, key: string, value: Json)
    ensures forall i :: 0 <= i < |Assign(members, key, value)| ==>
              Assign(members, key, value)[i].key == key || HasKey(members, Assign(members, key, value)[i].key)
  {
    if members != [] && members[0].key != key {
      var tail, rest := members[1..], Assign(members[1..], key, value);
      AssignKeys(tail, key, value);
      forall i | 0 <= i < |rest| && rest[i].key != key ensures HasKey(members, rest[i].key) {
        var j :| 0 <= j < |tail| && tail[j].key == rest[i].key;
        assert members[j + 1].key == rest[i].key;
      }
    }
  }

  lemma UniqueCons(head: Member, tail: seq<Member>)
    requires UniqueKeys(tail) && !HasKey(tail, head.key)
    ensures UniqueKeys([head] + tail)
  {
    forall i, j | 0 <= i < j < |[head] + tail| ensures ([head] + tail)[i].key != ([head] + tail)[j].key {
      assert ([head] + tail)[j] == tail[j - 1];
    }
  }

  lemma UniqueTail(members: seq<Member>)
    requires UniqueKeys(members) && members != []
    ensures UniqueKeys(members[1..]) && !HasKey(members[1..], members[0].key)
  {}

  lemma {:induction false} AssignUnique(members: seq<Member>, key: string, value: Json)
    requires UniqueKeys(members)
    ensures UniqueKeys(Assign(members, key, value))
  {
    if members != [] {
      hide UniqueKeys;
      UniqueTail(members);
      if members[0].key == key {
        UniqueCons(Member(key, value), members[1..]);
      } else {
        AssignKeys(members[1..], key, value);
        AssignUnique(members[1..], key, value);
        UniqueCons(members[0], Assign(members[1..], key, value));
      }
    }
  }

  lemma {:induction false} RemoveUnique(members: seq<Member>, key: string)
    requires UniqueKeys(members)
    ensures UniqueKeys(Remove(members, key))
    ensures forall i :: 0 <= i < |Remove(members, key)| ==>
              exists j :: 0 <= j < |members| && members[j].key == Remove(members, key)[i].key
  {
    if members != [] && members[0].key != key {
      var rest := Remove(members[1..], key);
      RemoveUnique(members[1..], key);
      forall i | 0 <= i < |rest|
        ensures rest[i].key != members[0].key
        ensures exists j :: 0 <= j < |members| && members[j].key == rest[i].key
      {
        var j :| 0 <= j < |members[1..]| && members[1..][j].key == rest[i].key;
        assert members[j + 1].key == rest[i].key;
      }
    }
  }

  /** The file the adapter writes, as it reads it back. */
  function Rewritten(document: Json, oldField: string, newField: string): Json
    requires IsDocument(document) && NamesField(Dimensions(document), oldField)
  {
    SortedKeys(Edit(document, oldField, newField))
  }

  /** Sorting the keys of a document keeps what its checks look at. */
  lemma SortedDocument(document: Json, field: string)
    requires IsDocument(document) && UniqueKeys(document.members) && UniqueKeys(Dimensions(document))
    requires ObjectAt(Dimensions(document), field).Some? ==> UniqueKeys(ObjectAt(Dimensions(document), field).value)
    ensures IsDocument(SortedKeys(document))
    ensures Lookup(Dimensions(SortedKeys(document)), field).None? <==> Lookup(Dimensions(document), field).None?
    ensures NamesField(Dimensions(document), field) ==> NamesField(Dimensions(SortedKeys(document)), field)
  {
    LookupSorted(document.members, "dimensions");
    LookupSorted(Dimensions(document), field);
    if NamesField(Dimensions(document), field) {
      LookupSorted(ObjectAt(Dimensions(document), field).value, "source_field");
    }
  }

  /** On a pending document the edited dimensions are renamed as asked. */
  lemma EditRenames(document: Json, expected: int, oldField: string, newField: string)
    requires Loaded(document) && Pending(document, expected, oldField, newField)
    ensures var after := Rewritten(document, oldField, newField);
            && IsDocument(after)
            && Lookup(Dimensions(after), oldField).None?
            && NamesField(Dimensions(after), newField)
  {
    hide CountString, SortedKeys, Loaded;
    var dims := Dimensions(document);
    var entry := ObjectAt(dims, oldField).value;
    var edited := Edit(document, oldField, newField);
    DimensionsLoaded(document);
    EntryUnique(document, oldField);
    RemoveLookup(dims, oldField, oldField);
    RemoveUnique(dims, oldField);
    AssignUnique(Remove(dims, oldField), newField, JObject(Assign(entry, "source_field", JString(newField))));
    AssignUnique(document.members, "dimensions", JObject(EditedDimensions(dims, oldField, newField)));
    AssignUnique(entry, "source_field", JString(newField));
    SortedDocument(edited, newField);
    SortedDocument(edited, oldField);
  }

  lemma EntryUnique(document: Json, field: string)
    requires Loaded(document) && IsDocument(document) && ObjectAt(Dimensions(document), field).Some?
    ensures UniqueKeys(ObjectAt(Dimensions(document), field).value)
  {
    DimensionsLoaded(document);
    LookupLoaded(Dimensions(document), field);
  }

  /** The approved check accepts the edit exactly when the old field occurred twice and both schemas have the new. */
  lemma ApprovedIffTwo(document: Json, expected: int, oldField: string, newField: string,
                       expanded: seq<string>, contract: seq<string>)
    requires Loaded(document) && Pending(document, expected, oldField, newField)
    ensures Approved(Rewritten(document, oldField, newField), oldField, newField, expanded, contract)
            <==> expected == 2 && newField in expanded && newField in contract
  {
    hide CountString, SortedKeys, Loaded;
    EditRenames(document, expected, oldField, newField);
    EditLowersByTwo(document, expected, oldField, newField);
    CountIgnoresKeyOrder(Edit(document, oldField, newField), oldField);
  }

  /** A dimension whose description is also the old field's name: three mentions. */
  function ThreeMentions(): Json {
    JObject([Member("dimensions", JObject([
      Member("old", JObject([Member("source_field", JString("old")), Member("description", JString("old"))]))]))])
  }

  lemma ThreeMentionsPends()
    ensures Loaded(ThreeMentions()) && Pending(ThreeMentions(), 3, "old", "new")
  {
    var entry := [Member("source_field", JString("old")), Member("description", JString("old"))];
    var dims := [Member("old", JObject(entry))];
    assert entry[1..] == [Member("description", JString("old"))] && entry[1..][1..] == [];
    assert CountMembers(entry[1..], "old") == 1 && CountMembers(entry, "old") == 2;
    assert dims[1..] == [] && CountMembers(dims, "old") == 3;
    assert ThreeMentions().members[1..] == [] && CountString(ThreeMentions(), "old") == 3;
  }

  /** It passes the pending check, and no approval and no schemas make its edit pass the approved check. */
  lemma ThreeMentionsRejected(expanded: seq<string>, contract: seq<string>)
    ensures Loaded(ThreeMentions()) && Pending(ThreeMentions(), 3, "old", "new")
    ensures !Approved(Rewritten(ThreeMentions(), "old", "new"), "old", "new", expanded, contract)
  {
    hide ThreeMentions, Approved, Pending, Loaded, Rewritten;
    ThreeMentionsPends();
    PendingRenames(ThreeMentions(), 3, "old", "new");
    ApprovedIffTwo(ThreeMentions(), 3, "old", "new", expanded, contract);
  }

  lemma PendingRenames(document: Json, expected: int, oldField: string, newField: string)
    requires Pending(document, expected, oldField, newField)
    ensures IsDocument(document) && NamesField(Dimensions(document), oldField)
  {}

  // ---- the adapter -------------------------------------------------------------------------

  datatype Preparation = NeedsApproval | Verified

  /** A rejection leaves the file as it was found; a restore that fails leaves it in any state. */
  datatype Rejection = Rejected | NotRestored

  /** The candidate file as it parses; `Garbled` is what a broken write may leave. */
  datatype File = Document(json: Json) | Garbled(text: string)

  datatype WriteFault = Fine | Broken(left: File)

  /**
    `bound`: session and proposal match the trusted policy and the worktree is clean;
    `allowed`: only the allow-listed file changed.
   */
  datatype Outside = Outside(bound: bool, write: WriteFault, allowed: bool, restore: WriteFault)

  function After(file: File, fault: WriteFault): File { if fault.Fine? then file else fault.left }

  /** What must hold before the file is written: `snapshot` is the content the proposal was made for. */
  predicate MayWrite(file: File, snapshot: Json, expected: int, oldField: string, newField: string,
                     expanded: seq<string>, contract: seq<string>, bound: bool)
  {
    && bound && file == Document(snapshot) && Pending(snapshot, expected, oldField, newField)
    && expected == 2 && newField in expanded && newField in contract
  }

  /** The one allow-listed JSON file of the semantic candidate worktree. */
  class SemanticApprovalParticipant {
    var file: File

    constructor (file: File)
      ensures this.file == file
    {
      this.file := file;
    }

    /** `approval`: None before the owner decides, otherwise whether it matches owner and mapping exactly. */
    method Prepare(snapshot: Json, expected: int, oldField: string, newField: string, expanded: seq<string>,
                   contract: seq<string>, approval: Option<bool>, outside: Outside)
      returns (r: Result<Preparation, Rejection>)
      requires Loaded(snapshot)
      modifies this
      // nothing is written before the approval, and nothing stays written after a restored failure
      ensures approval.None? || r == Failure(Rejected) ==> file == old(file)
      ensures r == Success(NeedsApproval) <==>
              && approval.None? && outside.bound && old(file) == Document(snapshot)
              && Pending(snapshot, expected, oldField, newField)
      ensures r == Success(Verified) <==>
              && approval == Some(true)
              && MayWrite(old(file), snapshot, expected, oldField, newField, expanded, contract, outside.bound)
              && outside.write.Fine? && outside.allowed
      ensures r == Success(Verified) ==>
              IsDocument(snapshot) && NamesField(Dimensions(snapshot), oldField)
              && file == Document(Rewritten(snapshot, oldField, newField))
      // the one way to leave the file otherwise: a failed write whose restore fails too
      ensures r == Failure(NotRestored) <==>
              && approval == Some(true)
              && MayWrite(old(file), snapshot, expected, oldField, newField, expanded, contract, outside.bound)
              && !(outside.write.Fine? && outside.allowed) && outside.restore.Broken?
    {
      hide CountString, SortedKeys, Loaded, Approved;
      if !outside.bound || file != Document(snapshot) { return Failure(Rejected); }
      if !IsDocument(snapshot) || !Pending(snapshot, expected, oldField, newField) { return Failure(Rejected); }
      if approval.None? { return Success(NeedsApproval); }
      if !approval.value { return Failure(Rejected); }
      ApprovedIffTwo(snapshot, expected, oldField, newField, expanded, contract);
      var dimensions := Dimensions(snapshot);
      var entry := ObjectAt(dimensions, oldField).value;
      dimensions := Remove(dimensions, oldField);
      entry := Assign(entry, "source_field", JString(newField));
      dimensions := Assign(dimensions, newField, JObject(entry));
      var after := SortedKeys(JObject(Assign(snapshot.members, "dimensions", JObject(dimensions))));
      if !Approved(after, oldField, newField, expanded, contract) { return Failure(Rejected); }
      var before := file;
      file := After(Document(after), outside.write);
      if !outside.write.Fine? || !outside.allowed {
        file := After(before, outside.restore);
        return Failure(if outside.restore.Fine? then Rejected else NotRestored);
      }
      r := Success(Verified);
    }
  }
}
