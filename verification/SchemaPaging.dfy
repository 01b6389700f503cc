/** Reading one asset's schema page by page: every field once, or a failure. */
module SchemaPaging {
  import opened Wrappers
  import Paging

  datatype RawField = RawField(
    path: Option<string>, nativeType: string, nullable: Option<bool>, description: string, editedDescription: string)

  datatype Field = Field(path: string, nativeType: string, nullable: Option<bool>, description: string)

  /** The members a `list_schema_fields` answer may or may not have. */
  datatype Page =
    | NotAnObject
    | Page(fields: Option<seq<RawField>>, total: Option<int>, returned: Option<int>, remaining: Option<int>,
           offset: Option<int>)

  type Server = (nat, nat, nat) -> Page

  predicate WellPaged(a: Page, offset: nat) {
    && a.Page? && a.fields.Some? && a.total.Some? && a.total.value >= 0
    && a.returned.Some? && a.remaining.Some? && a.remaining.value >= 0
    && a.offset == Some(offset) && a.returned.value == |a.fields.value|
  }

  function Snapshot(raw: RawField): Field
    requires raw.path.Some?
  {
    Field(raw.path.value, if raw.nativeType == "" then "UNKNOWN" else raw.nativeType, raw.nullable,
          if raw.description == "" then raw.editedDescription else raw.description)
  }

  predicate AllNamed(raws: seq<RawField>) { forall i :: 0 <= i < |raws| ==> raws[i].path.Some? }

  function Snapshots(raws: seq<RawField>): (r: seq<Field>)
    requires AllNamed(raws)
    ensures |r| == |raws|
  {
    seq(|raws|, i requires 0 <= i < |raws| => Snapshot(raws[i]))
  }

  predicate DistinctPaths(fields: seq<Field>) {
    forall i, j :: 0 <= i < j < |fields| ==> fields[i].path != fields[j].path
  }

  /** The raw fields the pages from `offset` on add up to; None is a failed read. */
  function Gather(server: Server, size: nat, pages: nat, call: nat, offset: nat, expected: Option<int>,
                  acc: seq<RawField>): Option<seq<RawField>>
    decreases pages
  {
    if pages == 0 then None
    else
      var a := server(call, offset, size);
      if !WellPaged(a, offset) || (expected.Some? && a.total.value != expected.value) then None
      else
        var next, all := offset + |a.fields.value|, acc + a.fields.value;
        if a.remaining.value == 0 then (if a.total.value == |all| then Some(all) else None)
        else if a.returned.value == 0 || next >= a.total.value then None
        else Gather(server, size, pages - 1, call + 1, next, a.total, all)
  }

  function SchemaResult(gathered: Option<seq<RawField>>): Result<seq<Field>, Paging.ReadError> {
    if gathered.None? || !AllNamed(gathered.value) || !DistinctPaths(Snapshots(gathered.value)) then
      Failure(Paging.ReadError)
    else
      Success(Snapshots(gathered.value))
  }

  method SnapshotPage(raws: seq<RawField>) returns (r: Option<seq<Field>>)
    ensures r.Some? <==> AllNamed(raws)
    ensures r.Some? ==> r.value == Snapshots(raws)
  {
    var fields: seq<Field> := [];
    var i := 0;
    while i < |raws|
      invariant 0 <= i <= |raws| && |fields| == i
      invariant forall k :: 0 <= k < i ==> raws[k].path.Some? && fields[k] == Snapshot(raws[k])
    {
      if raws[i].path.None? { return None; }
      fields := fields + [Snapshot(raws[i])];
      i := i + 1;
    }
    r := Some(fields);
  }

  lemma NamedMore(acc: seq<RawField>, raws: seq<RawField>)
    requires AllNamed(acc)
    ensures AllNamed(acc + raws) <==> AllNamed(raws)
    ensures AllNamed(raws) ==> Snapshots(acc + raws) == Snapshots(acc) + Snapshots(raws)
  {
    assert forall i :: 0 <= i < |raws| ==> (acc + raws)[|acc| + i] == raws[i];
  }

  /** A field once collected stays in the collection. */
  lemma {:induction false} GatherKeeps(server: Server, size: nat, pages: nat, call: nat, offset: nat,
                                       expected: Option<int>, acc: seq<RawField>)
    ensures var r := Gather(server, size, pages, call, offset, expected, acc); r.Some? ==> acc <= r.value
    decreases pages
  {
    if pages > 0 {
      var a := server(call, offset, size);
      if WellPaged(a, offset) {
        GatherKeeps(server, size, pages - 1, call + 1, offset + |a.fields.value|, a.total, acc + a.fields.value);
      }
    }
  }

  method Schema(server: Server, size: nat, maxPages: nat) returns (r: Result<seq<Field>, Paging.ReadError>)
    requires size > 0 && maxPages > 0
    ensures r == SchemaResult(Gather(server, size, maxPages, 0, 0, None, []))
  {
    var offset: nat := 0;
    var expected: Option<int> := None;
    var fields: seq<Field> := [];
    ghost var acc: seq<RawField> := [];
    var call := 0;
    while call < maxPages
      invariant 0 <= call <= maxPages
      invariant AllNamed(acc) && fields == Snapshots(acc)
      invariant Gather(server, size, maxPages, 0, 0, None, []) ==
                Gather(server, size, maxPages - call, call, offset, expected, acc)
    {
      var a := server(call, offset, size);
      if !WellPaged(a, offset) { return Failure(Paging.ReadError); }
      if expected.None? { expected := a.total; }
      else if a.total.value != expected.value { return Failure(Paging.ReadError); }
      ghost var raws := a.fields.value;
      var page := SnapshotPage(a.fields.value);
      NamedMore(acc, raws);
      if page.None? {
        GatherKeeps(server, size, maxPages - call - 1, call + 1, offset + |raws|, expected, acc + raws);
        return Failure(Paging.ReadError);
      }
      fields := fields + page.value;
      acc := acc + raws;
      offset := offset + |a.fields.value|;
      if a.remaining.value == 0 {
        if expected.value != |fields| { return Failure(Paging.ReadError); }
        if !DistinctPaths(fields) { return Failure(Paging.ReadError); }
        return Success(fields);
      }
      if a.returned.value == 0 || offset >= a.total.value { return Failure(Paging.ReadError); }
      call := call + 1;
    }
    r := Failure(Paging.ReadError);
  }

  // ---- complete or fails -----------------------------------------------------------

  /** One page of `raws`, possibly cut short, with honest counts. */
  predicate ServedPage(a: Page, raws: seq<RawField>, offset: nat, limit: nat)
    requires offset <= |raws|
  {
    && WellPaged(a, offset) && a.total.value == |raws|
    && a.fields.value <= raws[offset..Paging.Min(offset + limit, |raws|)]
    && a.remaining.value == |raws| - offset - |a.fields.value|
  }

  ghost predicate Serves(server: Server, raws: seq<RawField>) {
    forall call: nat, offset: nat, limit: nat :: offset <= |raws| ==>
      ServedPage(server(call, offset, limit), raws, offset, limit)
  }

  ghost predicate ServesFully(server: Server, raws: seq<RawField>) {
    && Serves(server, raws)
    && forall call: nat, offset: nat, limit: nat :: offset <= |raws| ==>
         |server(call, offset, limit).fields.value| == Paging.Min(offset + limit, |raws|) - offset
  }

  lemma PageExtends(raws: seq<RawField>, a: Page, offset: nat, limit: nat)
    requires offset <= |raws| && ServedPage(a, raws, offset, limit)
    ensures offset + |a.fields.value| <= |raws|
    ensures raws[..offset] + a.fields.value == raws[..offset + |a.fields.value|]
    ensures raws[..|raws|] == raws
  {}

  lemma {:induction false} GatherComplete(server: Server, raws: seq<RawField>, size: nat, pages: nat, call: nat,
                                          offset: nat, expected: Option<int>)
    requires Serves(server, raws) && offset <= |raws|
    ensures var r := Gather(server, size, pages, call, offset, expected, raws[..offset]); r.Some? ==> r.value == raws
    decreases pages
  {
    if pages > 0 {
      var a := server(call, offset, size);
      assert ServedPage(a, raws, offset, size);
      PageExtends(raws, a, offset, size);
      var next := offset + |a.fields.value|;
      if a.remaining.value != 0 { GatherComplete(server, raws, size, pages - 1, call + 1, next, a.total); }
    }
  }

  /** One full page: the last one ends the read, any other leads to the next. */
  lemma FullPage(server: Server, raws: seq<RawField>, size: nat, pages: nat, call: nat, offset: nat,
                 expected: Option<int>)
    requires ServesFully(server, raws) && size > 0 && offset <= |raws| && pages > 0
    requires expected.None? || expected.value == |raws|
    ensures Gather(server, size, pages, call, offset, expected, raws[..offset]) ==
            if offset + size >= |raws| then Some(raws)
            else Gather(server, size, pages - 1, call + 1, offset + size, Some(|raws|), raws[..offset + size])
  {
    var a := server(call, offset, size);
    assert ServedPage(a, raws, offset, size);
    assert |a.fields.value| == Paging.Min(offset + size, |raws|) - offset;
    PageExtends(raws, a, offset, size);
  }

  lemma {:induction false} GatherExact(server: Server, raws: seq<RawField>, size: nat, pages: nat, call: nat,
                                       offset: nat,
                                       expected: Option<int>)
    requires ServesFully(server, raws) && size > 0 && offset <= |raws| && pages > 0
    requires expected.None? || expected.value == |raws|
    ensures Gather(server, size, pages, call, offset, expected, raws[..offset]).Some?
            <==> |raws| - offset <= Paging.Room(size, pages)
    decreases pages
  {
    hide Gather, ServesFully;
    FullPage(server, raws, size, pages, call, offset, expected);
    if offset + size < |raws| {
      if pages == 1 { NoPages(server, size, call + 1, offset + size, Some(|raws|), raws[..offset + size]); }
      else { GatherExact(server, raws, size, pages - 1, call + 1, offset + size, Some(|raws|)); }
    }
  }

  lemma NoPages(server: Server, size: nat, call: nat, offset: nat, expected: Option<int>, acc: seq<RawField>)
    ensures Gather(server, size, 0, call, offset, expected, acc) == None
  {}

  /** Against a paging server: every field, in order, each path once, or a failure. */
  lemma SchemaCompleteOrFails(server: Server, raws: seq<RawField>, size: nat, maxPages: nat)
    requires Serves(server, raws)
    ensures var r := SchemaResult(Gather(server, size, maxPages, 0, 0, None, []));
            r.Success? ==> AllNamed(raws) && r.value == Snapshots(raws) && DistinctPaths(r.value)
  {
    hide Gather, Serves;
    GatherComplete(server, raws, size, maxPages, 0, 0, None);
    assert raws[..0] == [];
  }

  /** With full pages it succeeds exactly on named, distinct fields within the page budget. */
  lemma SchemaExact(server: Server, raws: seq<RawField>, size: nat, maxPages: nat)
    requires ServesFully(server, raws) && size > 0 && maxPages > 0
    ensures SchemaResult(Gather(server, size, maxPages, 0, 0, None, [])).Success?
            <==> AllNamed(raws) && DistinctPaths(Snapshots(raws)) && |raws| <= size * maxPages
  {
    hide Gather, Serves;
    GatherComplete(server, raws, size, maxPages, 0, 0, None);
    GatherExact(server, raws, size, maxPages, 0, 0, None);
    Paging.RoomIsProduct(size, maxPages);
    assert raws[..0] == [];
  }
}
