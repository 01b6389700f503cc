/**
  The paged discovery reads.  A server is any function from call number, offset and limit to an
  answer, so it may err, stall or change its mind; `Serves` and `ServesFully` single out those
  that page through one list.  Every read failure is the one `DataHubContextReadError`.
 */
module Paging {
  import opened Wrappers
  import opened Ordering

  datatype ReadError = ReadError

  // ---- one page after another ------------------------------------------------------

  /** The members an answer may or may not have, each of the right type when present. */
  datatype Answer<T> =
    | NotAnObject
    | Answer(results: Option<seq<T>>, total: Option<int>, returned: Option<int>, hasMore: Option<bool>,
             offset: Option<int>)

  type Server<!T> = (nat, nat, nat) -> Answer<T>

  predicate WellPaged<T>(a: Answer<T>, offset: nat) {
    && a.Answer? && a.results.Some? && a.total.Some? && a.total.value >= 0
    && a.returned.Some? && a.hasMore.Some? && a.offset == Some(offset)
    && a.returned.value == |a.results.value|
  }

  /** The items `get_lineage` yields from `offset` on, within `pages` more calls; None is a failed read. */
  function Gather<T>(server: Server<T>, size: nat, pages: nat, call: nat, offset: nat, expected: Option<int>,
                     acc: seq<T>)
    : Option<seq<T>>
    decreases pages
  {
    if pages == 0 then None
    else
      var a := server(call, offset, offset + size);
      if !WellPaged(a, offset) || (expected.Some? && expected.value != a.total.value) then None
      else
        var next, all := offset + |a.results.value|, acc + a.results.value;
        if next > a.total.value then None
        else if next == a.total.value then Some(all)
        else if a.returned.value == 0 then None
        else Gather(server, size, pages - 1, call + 1, next, a.total, all)
  }

  function Min(a: nat, b: nat): nat { if a < b then a else b }

  /** Fetches `limit` items, drops `offset`, and may still cut the page short. */
  ghost predicate Serves<T(!new)>(server: Server<T>, items: seq<T>) {
    forall call: nat, offset: nat, limit: nat :: offset <= |items| && offset <= limit ==>
      ServedPage(server(call, offset, limit), items, offset, limit)
  }

  predicate ServedPage<T(==)>(a: Answer<T>, items: seq<T>, offset: nat, limit: nat)
    requires offset <= |items| && offset <= limit
  {
    && WellPaged(a, offset) && a.total.value == |items|
    && a.results.value <= items[offset..Min(limit, |items|)]
  }

  ghost predicate ServesFully<T(!new)>(server: Server<T>, items: seq<T>) {
    && Serves(server, items)
    && forall call: nat, offset: nat, limit: nat :: offset <= |items| && offset <= limit ==>
         |server(call, offset, limit).results.value| == Min(limit, |items|) - offset
  }

  /** The next page extends the prefix collected so far. */
  lemma PageExtends<T>(items: seq<T>, a: Answer<T>, offset: nat, limit: nat)
    requires offset <= |items| && offset <= limit && ServedPage(a, items, offset, limit)
    ensures offset + |a.results.value| <= Min(limit, |items|) || |a.results.value| == 0
    ensures offset + |a.results.value| <= |items|
    ensures items[..offset] + a.results.value == items[..offset + |a.results.value|]
  {}

  /** A successful read of an honest page has ended on the whole list or goes on behind the page. */
  lemma ServedStep<T(!new)>(
    server: Server<T>, items: seq<T>, size: nat, pages: nat, call: nat, offset: nat, expected: Option<int>)
    requires Serves(server, items) && offset <= |items| && pages > 0
    requires Gather(server, size, pages, call, offset, expected, items[..offset]).Some?
    ensures var a := server(call, offset, offset + size);
            && ServedPage(a, items, offset, offset + size)
            && offset + |a.results.value| <= |items|
            && Gather(server, size, pages, call, offset, expected, items[..offset]) ==
               if offset + |a.results.value| == |items| then Some(items)
               else Gather(server, size, pages - 1, call + 1, offset + |a.results.value|, a.total,
                           items[..offset + |a.results.value|])
  {
    var a := server(call, offset, offset + size);
    assert ServedPage(a, items, offset, offset + size);
    hide Serves;
    PageExtends(items, a, offset, offset + size);
    assert items[..|items|] == items;
  }

  /** Whatever a paging server cuts, a read that succeeds returns the whole list. */
  lemma {:induction false} GatherComplete<T(!new)>(
    server: Server<T>, items: seq<T>, size: nat, pages: nat, call: nat, offset: nat, expected: Option<int>)
    requires Serves(server, items) && offset <= |items|
    ensures var r := Gather(server, size, pages, call, offset, expected, items[..offset]); r.Some? ==> r.value == items
    decreases pages
  {
    hide Gather, Serves;
    NoPages(server, size, call, offset, expected, items[..offset]);
    if Gather(server, size, pages, call, offset, expected, items[..offset]).Some? && pages > 0 {
      ServedStep(server, items, size, pages, call, offset, expected);
      var a := server(call, offset, offset + size);
      var next := offset + |a.results.value|;
      if next < |items| { GatherComplete(server, items, size, pages - 1, call + 1, next, a.total); }
    }
  }

  lemma FullAnswer<T(!new)>(server: Server<T>, items: seq<T>, call: nat, offset: nat, limit: nat)
    requires ServesFully(server, items) && offset <= |items| && offset <= limit
    ensures ServedPage(server(call, offset, limit), items, offset, limit)
    ensures |server(call, offset, limit).results.value| == Min(limit, |items|) - offset
  {}

  lemma GatherStep<T>(server: Server<T>, size: nat, pages: nat, call: nat, offset: nat, expected: Option<int>,
                      acc: seq<T>,
                      a: Answer<T>)
    requires pages > 0 && a == server(call, offset, offset + size) && WellPaged(a, offset)
    requires expected.None? || expected.value == a.total.value
    requires offset + |a.results.value| <= a.total.value && |a.results.value| > 0
    ensures Gather(server, size, pages, call, offset, expected, acc) ==
            if offset + |a.results.value| == a.total.value then Some(acc + a.results.value)
            else Gather(server, size, pages - 1, call + 1, offset + |a.results.value|, a.total, acc + a.results.value)
  {}

  /** One full page: the last one ends the read, any other leads to the next. */
  lemma FullPage<T(!new)>(
    server: Server<T>, items: seq<T>, size: nat, pages: nat, call: nat, offset: nat, expected: Option<int>)
    requires ServesFully(server, items) && size > 0 && offset < |items| && pages > 0
    requires expected.None? || expected.value == |items|
    ensures Gather(server, size, pages, call, offset, expected, items[..offset]) ==
            if offset + size >= |items| then Some(items)
            else Gather(server, size, pages - 1, call + 1, offset + size, Some(|items|), items[..offset + size])
  {
    hide Gather, ServesFully;
    var a := server(call, offset, offset + size);
    FullAnswer(server, items, call, offset, offset + size);
    PageExtends(items, a, offset, offset + size);
    GatherStep(server, size, pages, call, offset, expected, items[..offset], a);
    assert items[..|items|] == items;
  }

  /** How many items `pages` full pages hold. */
  function Room(size: nat, pages: nat): nat { if pages == 0 then 0 else size + Room(size, pages - 1) }

  lemma {:induction false} RoomIsProduct(size: nat, pages: nat)
    ensures Room(size, pages) == size * pages
  {
    if pages > 0 {
      RoomIsProduct(size, pages - 1);
      assert size * pages == size * (pages - 1) + size;
    }
  }

  lemma NoPages<T>(server: Server<T>, size: nat, call: nat, offset: nat, expected: Option<int>, acc: seq<T>)
    ensures Gather(server, size, 0, call, offset, expected, acc) == None
  {}

  /** A server that fills its pages is read to the end exactly when the page budget covers the list. */
  lemma {:induction false} GatherExact<T(!new)>(
    server: Server<T>, items: seq<T>, size: nat, pages: nat, call: nat, offset: nat, expected: Option<int>)
    requires ServesFully(server, items) && size > 0 && offset < |items|
    requires expected.None? || expected.value == |items|
    ensures Gather(server, size, pages, call, offset, expected, items[..offset]).Some?
            <==> |items| - offset <= Room(size, pages)
    decreases pages
  {
    hide Gather, ServesFully;
    if pages == 0 {
      NoPages(server, size, call, offset, expected, items[..offset]);
    } else {
      FullPage(server, items, size, pages, call, offset, expected);
      if offset + size < |items| {
        GatherExact(server, items, size, pages - 1, call + 1, offset + size, Some(|items|));
      }
    }
  }

  // ---- column-level lineage ----------------------------------------------------------

  datatype LineageItem = LineageItem(urn: Option<string>, columns: Option<seq<string>>, degree: Option<string>)

  datatype Consumer = Consumer(degree: string, columns: set<string>)

  predicate IsLineageItem(item: LineageItem) {
    && item.urn.Some? && item.columns.Some? && item.columns.value != []
    && "" !in item.columns.value
  }

  function Hop(text: string): string { if text == "3" then "3+" else text }

  function Degree(item: LineageItem): string {
    Hop(if item.degree.None? || item.degree.value == "" then "unknown" else item.degree.value)
  }

  function ColumnSet(item: LineageItem): set<string> {
    if item.columns.None? then {} else set c | c in item.columns.value
  }

  /** One turn of the merge loop; None when the item is malformed or disagrees on its degree. */
  function Absorb(merged: map<string, Consumer>, item: LineageItem): Option<map<string, Consumer>> {
    if !IsLineageItem(item) then None
    else
      var urn := item.urn.value;
      if urn !in merged then Some(merged[urn := Consumer(Degree(item), ColumnSet(item))])
      else if merged[urn].degree != Degree(item) then None
      else Some(merged[urn := Consumer(Degree(item), merged[urn].columns + ColumnSet(item))])
  }

  function Merge(items: seq<LineageItem>): Option<map<string, Consumer>> {
    if items == [] then Some(map[])
    else
      match Merge(items[..|items| - 1])
      case None => None
      case Some(merged) => Absorb(merged, items[|items| - 1])
  }

  predicate Agree(a: LineageItem, b: LineageItem) { a.urn == b.urn ==> Degree(a) == Degree(b) }

  ghost predicate Mergeable(items: seq<LineageItem>) {
    && (forall i :: 0 <= i < |items| ==> IsLineageItem(items[i]))
    && (forall i, j :: 0 <= i < |items| && 0 <= j < |items| ==> Agree(items[i], items[j]))
  }

  /** `merged` says of every consumer what some item says, and nothing else. */
  ghost predicate MergeOf(merged: map<string, Consumer>, items: seq<LineageItem>) {
    && (forall i, u :: 0 <= i < |items| && items[i].urn == Some(u) ==>
          u in merged && merged[u].degree == Degree(items[i]) && ColumnSet(items[i]) <= merged[u].columns)
    && (forall u :: u in merged ==> exists i :: 0 <= i < |items| && items[i].urn == Some(u))
    && (forall u, c :: u in merged && c in merged[u].columns ==>
          exists i :: 0 <= i < |items| && items[i].urn == Some(u) && c in ColumnSet(items[i]))
  }

  lemma MergeOfMore(merged: map<string, Consumer>, items: seq<LineageItem>, item: LineageItem)
    requires Mergeable(items) && MergeOf(merged, items) && IsLineageItem(item)
    ensures Absorb(merged, item).Some? <==> Mergeable(items + [item])
    ensures Absorb(merged, item).Some? ==> MergeOf(Absorb(merged, item).value, items + [item])
  {
    hide Degree, ColumnSet;
    var all := items + [item];
    var u := item.urn.value;
    assert all[|items|] == item;
    assert forall i :: 0 <= i < |items| ==> all[i] == items[i];
    if u in merged {
      var k :| 0 <= k < |items| && items[k].urn == Some(u);
      assert Agree(all[k], all[|items|]) <==> merged[u].degree == Degree(item);
    }
    if Absorb(merged, item).Some? {
      assert Mergeable(all);
      AbsorbOf(merged, items, item);
    }
  }

  lemma AbsorbOf(merged: map<string, Consumer>, items: seq<LineageItem>, item: LineageItem)
    requires MergeOf(merged, items) && Absorb(merged, item).Some?
    ensures MergeOf(Absorb(merged, item).value, items + [item])
  {
    hide Degree, ColumnSet;
    var all, after, n := items + [item], Absorb(merged, item).value, |items|;
    assert all[n] == item;
    assert forall i :: 0 <= i < n ==> all[i] == items[i];
    forall u | u in after ensures exists i :: 0 <= i < |all| && all[i].urn == Some(u) {
      if u in merged {
        var k :| 0 <= k < n && items[k].urn == Some(u);
        assert all[k].urn == Some(u);
      }
    }
    forall u, c | u in after && c in after[u].columns
      ensures exists i :: 0 <= i < |all| && all[i].urn == Some(u) && c in ColumnSet(all[i])
    {
      if u in merged && c in merged[u].columns {
        var k :| 0 <= k < n && items[k].urn == Some(u) && c in ColumnSet(items[k]);
        assert all[k].urn == Some(u) && c in ColumnSet(all[k]);
      } else {
        assert all[n].urn == Some(u) && c in ColumnSet(all[n]);
      }
    }
  }

  lemma {:induction false} MergeMeans(items: seq<LineageItem>)
    ensures Merge(items).Some? <==> Mergeable(items)
    ensures Merge(items).Some? ==> MergeOf(Merge(items).value, items)
  {
    if items != [] {
      var init, last := items[..|items| - 1], items[|items| - 1];
      MergeMeans(init);
      assert items == init + [last];
      if Mergeable(init) && IsLineageItem(last) {
        MergeOfMore(Merge(init).value, init, last);
      } else if !Mergeable(init) {
        assert forall i :: 0 <= i < |init| ==> init[i] == items[i];
      }
    }
  }

  lemma MergeOfUnique(a: map<string, Consumer>, b: map<string, Consumer>, xs: seq<LineageItem>, ys: seq<LineageItem>)
    requires forall x :: x in xs <==> x in ys
    requires MergeOf(a, xs) && MergeOf(b, ys)
    ensures forall u :: u in a ==> u in b && a[u].degree == b[u].degree && a[u].columns <= b[u].columns
  {
    hide Degree, ColumnSet, IsLineageItem;
    forall u | u in a ensures u in b && a[u].degree == b[u].degree && a[u].columns <= b[u].columns {
      var i :| 0 <= i < |xs| && xs[i].urn == Some(u);
      assert xs[i] in ys;
      var j :| 0 <= j < |ys| && ys[j] == xs[i];
      forall c | c in a[u].columns ensures c in b[u].columns {
        var k :| 0 <= k < |xs| && xs[k].urn == Some(u) && c in ColumnSet(xs[k]);
        assert xs[k] in ys;
        var l :| 0 <= l < |ys| && ys[l] == xs[k];
        assert ColumnSet(ys[l]) <= b[u].columns;
      }
    }
  }

  /** The merge does not depend on the order of the items, nor on repetitions. */
  lemma MergeIgnoresOrder(xs: seq<LineageItem>, ys: seq<LineageItem>)
    requires forall x :: x in xs <==> x in ys
    ensures Merge(xs) == Merge(ys)
  {
    hide Merge, MergeOf, Mergeable;
    MergeMeans(xs);
    MergeMeans(ys);
    if Mergeable(ys) { MergeableIgnoresOrder(ys, xs); }
    if Mergeable(xs) {
      MergeableIgnoresOrder(xs, ys);
      MergeOfUnique(Merge(xs).value, Merge(ys).value, xs, ys);
      MergeOfUnique(Merge(ys).value, Merge(xs).value, ys, xs);
      var a, b := Merge(xs).value, Merge(ys).value;
      assert a.Keys == b.Keys;
      forall u | u in a ensures a[u] == b[u] { assert a[u].columns == b[u].columns; }
      assert a == b;
    }
  }

  lemma MergeableIgnoresOrder(xs: seq<LineageItem>, ys: seq<LineageItem>)
    requires (forall x :: x in xs <==> x in ys) && Mergeable(xs)
    ensures Mergeable(ys)
  {
    hide IsLineageItem, Agree;
    forall i | 0 <= i < |ys| ensures IsLineageItem(ys[i]) { assert ys[i] in xs; }
    forall i, j | 0 <= i < |ys| && 0 <= j < |ys| ensures Agree(ys[i], ys[j]) { assert ys[i] in xs && ys[j] in xs; }
  }

  lemma {:induction false} MergeFailsForGood(items: seq<LineageItem>, more: seq<LineageItem>)
    requires Merge(items).None?
    ensures Merge(items + more).None?
  {
    if more == [] {
      assert items + more == items;
    } else {
      var all := items + more;
      assert all[..|all| - 1] == items + more[..|more| - 1];
      MergeFailsForGood(items, more[..|more| - 1]);
    }
  }

  // ---- the sorted result ---------------------------------------------------------------

  datatype Row = Row(urn: string, degree: string, columns: seq<string>)

  predicate IsDigit(c: char) { '0' <= c <= '9' }

  function Digits(text: string): string {
    if text == "" then "" else (if IsDigit(text[0]) then [text[0]] else "") + Digits(text[1..])
  }

  /** `int(digits)`. */
  function Value(digits: string): nat {
    if digits == "" || !IsDigit(digits[|digits| - 1]) then 0
    else 10 * Value(digits[..|digits| - 1]) + (digits[|digits| - 1] as int - '0' as int)
  }

  function Rank(degree: string): nat { if Digits(degree) == "" then 1_000_000 else Value(Digits(degree)) }

  function RankOf(merged: map<string, Consumer>, urn: string): nat {
    if urn in merged then Rank(merged[urn].degree) else 0
  }

  /** `_degree_sort_key`: hop first, then URN. */
  predicate Earlier(merged: map<string, Consumer>, a: string, b: string) {
    RankOf(merged, a) < RankOf(merged, b) || (RankOf(merged, a) == RankOf(merged, b) && Before(a, b))
  }

  function ByHop(merged: map<string, Consumer>): (string, string) -> bool { (a, b) => Earlier(merged, a, b) }

  lemma ByHopIsOrder(merged: map<string, Consumer>)
    ensures StrictTotalOrder(ByHop(merged))
  {
    hide RankOf, Before;
    BeforeIsOrder();
  }

  /** `row` is what the merge says of its URN. */
  ghost predicate RowOf(merged: map<string, Consumer>, row: Row) {
    && row.urn in merged
    && row.degree == merged[row.urn].degree
    && StrictlySorted(row.columns, Before)
    && forall c :: c in row.columns <==> c in merged[row.urn].columns
  }

  ghost predicate RowsOf(merged: map<string, Consumer>, rows: seq<Row>) {
    && (forall i :: 0 <= i < |rows| ==> RowOf(merged, rows[i]))
    && (forall i, j :: 0 <= i < j < |rows| ==> ByHop(merged)(rows[i].urn, rows[j].urn))
    && (forall u :: u in merged ==> exists i :: 0 <= i < |rows| && rows[i].urn == u)
  }

  function Urns(rows: seq<Row>): (r: seq<string>)
    ensures |r| == |rows| && forall i :: 0 <= i < |rows| ==> r[i] == rows[i].urn
  {
    seq(|rows|, i requires 0 <= i < |rows| => rows[i].urn)
  }

  /** A merge has one sorted result. */
  lemma RowsUnique(merged: map<string, Consumer>, a: seq<Row>, b: seq<Row>)
    requires RowsOf(merged, a) && RowsOf(merged, b)
    ensures a == b
  {
    hide ByHop, Before;
    ByHopIsOrder(merged);
    BeforeIsOrder();
    UrnsCover(merged, a);
    UrnsCover(merged, b);
    SortedUnique(Urns(a), Urns(b), ByHop(merged));
    assert |Urns(a)| == |a| && |Urns(b)| == |b|;
    forall i | 0 <= i < |a| ensures a[i] == b[i] {
      assert Urns(a)[i] == Urns(b)[i];
      assert RowOf(merged, a[i]) && RowOf(merged, b[i]);
      SortedUnique(a[i].columns, b[i].columns, Before);
    }
  }

  lemma UrnsCover(merged: map<string, Consumer>, rows: seq<Row>)
    requires RowsOf(merged, rows)
    ensures StrictlySorted(Urns(rows), ByHop(merged))
    ensures forall u :: u in Urns(rows) <==> u in merged
  {
    hide ByHop, Before;
    forall i | 0 <= i < |rows| ensures rows[i].urn in merged { assert RowOf(merged, rows[i]); }
    forall u | u in merged ensures u in Urns(rows) {
      var i :| 0 <= i < |rows| && rows[i].urn == u;
      assert Urns(rows)[i] == u;
    }
  }

  method SortedSet(all: set<string>, lt: (string, string) -> bool) returns (r: seq<string>)
    requires StrictTotalOrder(lt)
    ensures StrictlySorted(r, lt)
    ensures forall x :: x in r <==> x in all
  {
    r := [];
    var rest := all;
    while rest != {}
      invariant rest <= all
      invariant StrictlySorted(r, lt)
      invariant forall x :: x in all <==> x in rest || x in r
      decreases rest
    {
      var x :| x in rest;
      r := Insert(x, r, lt);
      rest := rest - {x};
    }
  }

  method SortRows(merged: map<string, Consumer>) returns (rows: seq<Row>)
    ensures RowsOf(merged, rows)
  {
    hide Before;
    ByHopIsOrder(merged);
    BeforeIsOrder();
    var urns := SortedSet(merged.Keys, ByHop(merged));
    rows := [];
    var i := 0;
    while i < |urns|
      invariant 0 <= i <= |urns| && |rows| == i
      invariant forall k :: 0 <= k < i ==> rows[k].urn == urns[k] && RowOf(merged, rows[k])
    {
      assert urns[i] in urns;
      var columns := SortedSet(merged[urns[i]].columns, Before);
      var row := Row(urns[i], merged[urns[i]].degree, columns);
      assert RowOf(merged, row);
      rows := rows + [row];
      i := i + 1;
    }
    forall u | u in merged ensures exists k :: 0 <= k < |rows| && rows[k].urn == u {
      assert u in urns;
      var k :| 0 <= k < |urns| && urns[k] == u;
      assert rows[k].urn == u;
    }
  }

  // ---- dataset-level fallback ------------------------------------------------------------

  predicate IsDatasetItem(item: LineageItem) {
    item.urn.Some? && item.urn.value != "" && item.degree.Some?
  }

  function DatasetRow(item: LineageItem, column: string): Row
    requires IsDatasetItem(item)
  {
    Row(item.urn.value, Hop(item.degree.value), [column])
  }

  predicate DistinctUrns(rows: seq<Row>) {
    forall i, j :: 0 <= i < j < |rows| ==> rows[i].urn != rows[j].urn
  }

  predicate AllDataset(items: seq<LineageItem>) { forall i :: 0 <= i < |items| ==> IsDatasetItem(items[i]) }

  function DatasetRows(items: seq<LineageItem>, column: string): (r: seq<Row>)
    requires AllDataset(items)
    ensures |r| == |items|
  {
    seq(|items|, i requires 0 <= i < |items| => DatasetRow(items[i], column))
  }

  /** What `_dataset_lineage` makes of the items it gathered. */
  function DatasetResult(gathered: Option<seq<LineageItem>>, column: string): Result<seq<Row>, ReadError> {
    if gathered.None? || gathered.value == [] || !AllDataset(gathered.value) then Failure(ReadError)
    else if !DistinctUrns(DatasetRows(gathered.value, column)) then Failure(ReadError)
    else Success(DatasetRows(gathered.value, column))
  }

  method DatasetLineage(server: Server<LineageItem>, column: string, size: nat, maxPages: nat)
    returns (r: Result<seq<Row>, ReadError>)
    requires size > 0 && maxPages > 0
    ensures r == DatasetResult(Gather(server, size, maxPages, 0, 0, None, []), column)
  {
    var offset: nat := 0;
    var expected: Option<int> := None;
    var discovered: seq<Row> := [];
    ghost var acc: seq<LineageItem> := [];
    assert AllDataset(acc);
    hide AllDataset, IsDatasetItem;
    var call := 0;
    while call < maxPages
      invariant 0 <= call <= maxPages
      invariant AllDataset(acc) && discovered == DatasetRows(acc, column)
      invariant Gather(server, size, maxPages, 0, 0, None, []) ==
                Gather(server, size, maxPages - call, call, offset, expected, acc)
    {
      var a := server(call, offset, offset + size);
      if !WellPaged(a, offset) { return Failure(ReadError); }
      if expected.None? { expected := a.total; }
      else if a.total.value != expected.value { return Failure(ReadError); }
      var page := DatasetPage(a.results.value, column);
      ghost var items := a.results.value;
      AllDatasetMore(acc, items, column);
      if page.None? {
        GatherKeeps(server, size, maxPages - call - 1, call + 1, offset + |items|, expected, acc + items);
        return Failure(ReadError);
      }
      discovered := discovered + page.value;
      acc := acc + items;
      offset := offset + |a.results.value|;
      if offset >= a.total.value {
        if offset != a.total.value || discovered == [] { return Failure(ReadError); }
        if !DistinctUrns(discovered) { return Failure(ReadError); }
        return Success(discovered);
      }
      if a.returned.value == 0 { return Failure(ReadError); }
      call := call + 1;
    }
    r := Failure(ReadError);
  }

  lemma AllDatasetMore(acc: seq<LineageItem>, items: seq<LineageItem>, column: string)
    requires AllDataset(acc)
    ensures AllDataset(acc + items) <==> AllDataset(items)
    ensures AllDataset(items) ==>
              DatasetRows(acc + items, column) == DatasetRows(acc, column) + DatasetRows(items, column)
  {
    assert forall i :: 0 <= i < |items| ==> (acc + items)[|acc| + i] == items[i];
  }

  /** Items once collected stay in the collection. */
  lemma {:induction false} GatherKeeps<T>(
    server: Server<T>, size: nat, pages: nat, call: nat, offset: nat, expected: Option<int>, acc: seq<T>)
    ensures var r := Gather(server, size, pages, call, offset, expected, acc); r.Some? ==> acc <= r.value
    decreases pages
  {
    if pages > 0 {
      var a := server(call, offset, offset + size);
      if WellPaged(a, offset) {
        GatherKeeps(server, size, pages - 1, call + 1, offset + |a.results.value|, a.total, acc + a.results.value);
      }
    }
  }

  method DatasetPage(items: seq<LineageItem>, column: string) returns (r: Option<seq<Row>>)
    ensures r.Some? <==> AllDataset(items)
    ensures r.Some? ==> r.value == DatasetRows(items, column)
  {
    var rows: seq<Row> := [];
    var i := 0;
    while i < |items|
      invariant 0 <= i <= |items| && |rows| == i
      invariant forall k :: 0 <= k < i ==> IsDatasetItem(items[k]) && rows[k] == DatasetRow(items[k], column)
    {
      if !IsDatasetItem(items[i]) { return None; }
      rows := rows + [DatasetRow(items[i], column)];
      i := i + 1;
    }
    r := Some(rows);
  }

  // ---- column-level reads ------------------------------------------------------------------

  /** The empty first answer that sends the reader to dataset-level lineage. */
  predicate NothingFound(a: Answer<LineageItem>, offset: nat) {
    && offset == 0 && a.Answer? && a.total == Some(0)
    && a.results in {None, Some([])} && a.returned in {None, Some(0)}
    && a.hasMore in {None, Some(false)} && a.offset in {None, Some(0)}
  }

  /** What `_column_lineage` may return of the items it gathered. */
  ghost predicate ColumnResult(gathered: Option<seq<LineageItem>>, r: Result<seq<Row>, ReadError>) {
    if gathered.None? || gathered.value == [] || Merge(gathered.value).None? then r == Failure(ReadError)
    else r.Success? && RowsOf(Merge(gathered.value).value, r.value)
  }

  ghost predicate ColumnOutcome(server: Server<LineageItem>, datasets: Server<LineageItem>, column: string,
                                size: nat, maxPages: nat, r: Result<seq<Row>, ReadError>)
  {
    if NothingFound(server(0, 0, size), 0) then
      r == DatasetResult(Gather(datasets, size, maxPages, 0, 0, None, []), column)
    else
      ColumnResult(Gather(server, size, maxPages, 0, 0, None, []), r)
  }

  lemma MergeOne(acc: seq<LineageItem>, items: seq<LineageItem>, i: nat)
    requires i < |items| && Merge(acc + items[..i]).Some?
    ensures Merge(acc + items[..i + 1]) == Absorb(Merge(acc + items[..i]).value, items[i])
    ensures Merge(acc + items[..i + 1]).None? ==> Merge(acc + items).None?
  {
    hide Absorb;
    var prefix := acc + items[..i + 1];
    assert prefix[..|prefix| - 1] == acc + items[..i] && prefix[|prefix| - 1] == items[i];
    if Merge(prefix).None? {
      MergeFailsForGood(prefix, items[i + 1..]);
      assert prefix + items[i + 1..] == acc + items;
    }
  }

  method MergePage(merged: map<string, Consumer>, items: seq<LineageItem>, ghost acc: seq<LineageItem>)
    returns (r: Option<map<string, Consumer>>)
    requires Merge(acc) == Some(merged)
    ensures r == Merge(acc + items)
  {
    hide Merge, Absorb;
    r := Some(merged);
    var i := 0;
    assert acc + items[..0] == acc;
    while i < |items|
      invariant 0 <= i <= |items| && r.Some? && r == Merge(acc + items[..i])
    {
      MergeOne(acc, items, i);
      r := Absorb(r.value, items[i]);
      if r.None? { return; }
      i := i + 1;
    }
    assert items[..|items|] == items;
  }

  lemma GatheredBad(server: Server<LineageItem>, size: nat, pages: nat, call: nat, offset: nat, expected: Option<int>,
                    acc: seq<LineageItem>)
    requires Merge(acc).None?
    ensures var g := Gather(server, size, pages, call, offset, expected, acc); g.Some? ==> Merge(g.value).None?
  {
    hide Merge, Gather;
    GatherKeeps(server, size, pages, call, offset, expected, acc);
    var g := Gather(server, size, pages, call, offset, expected, acc);
    if g.Some? {
      MergeFailsForGood(acc, g.value[|acc|..]);
      assert acc + g.value[|acc|..] == g.value;
    }
  }

  lemma {:induction false} MergeEmpty(items: seq<LineageItem>)
    ensures Merge(items).Some? && items != [] ==> Merge(items).value != map[]
  {
    if items != [] && Merge(items).Some? {
      var last := items[|items| - 1];
      assert last.urn.value in Merge(items).value;
    }
  }

  method ColumnLineage(server: Server<LineageItem>, datasets: Server<LineageItem>, column: string,
                       size: nat, maxPages: nat)
    returns (r: Result<seq<Row>, ReadError>)
    requires size > 0 && maxPages > 0
    ensures ColumnOutcome(server, datasets, column, size, maxPages, r)
  {
    hide Merge, RowsOf;
    var offset: nat := 0;
    var expected: Option<int> := None;
    var merged: map<string, Consumer> := map[];
    ghost var acc: seq<LineageItem> := [];
    MergeNothing();
    var call := 0;
    while call < maxPages
      invariant 0 <= call <= maxPages && (call == 0 <==> offset == 0)
      invariant Merge(acc) == Some(merged)
      invariant call > 0 ==> !NothingFound(server(0, 0, size), 0)
      invariant Gather(server, size, maxPages, 0, 0, None, []) ==
                Gather(server, size, maxPages - call, call, offset, expected, acc)
    {
      var a := server(call, offset, offset + size);
      if NothingFound(a, offset) {
        r := DatasetLineage(datasets, column, size, maxPages);
        return;
      }
      if !WellPaged(a, offset) { return Failure(ReadError); }
      if expected.None? { expected := a.total; }
      else if a.total.value != expected.value { return Failure(ReadError); }
      ghost var items := a.results.value;
      var next := MergePage(merged, a.results.value, acc);
      if next.None? {
        GatheredBad(server, size, maxPages - call - 1, call + 1, offset + |items|, expected, acc + items);
        return Failure(ReadError);
      }
      merged := next.value;
      acc := acc + items;
      offset := offset + |a.results.value|;
      if offset >= a.total.value {
        MergeEmpty(acc);
        if offset != a.total.value || merged == map[] { MergeNothing(); return Failure(ReadError); }
        MergeNothing();
        var rows := SortRows(merged);
        return Success(rows);
      }
      if a.returned.value == 0 { return Failure(ReadError); }
      call := call + 1;
    }
    r := Failure(ReadError);
  }

  lemma MergeNothing()
    ensures Merge([]) == Some(map[])
  {}

  // ---- complete or fails ---------------------------------------------------------------------

  lemma FirstAnswer<T(!new)>(server: Server<T>, items: seq<T>, size: nat)
    requires Serves(server, items)
    ensures ServedPage(server(0, 0, size), items, 0, size)
  {}

  /** Against a paging server: the merge of the whole list, in hop order, or a failure; never a proper part. */
  lemma ColumnCompleteOrFails(server: Server<LineageItem>, datasets: Server<LineageItem>, column: string,
                              items: seq<LineageItem>, size: nat, maxPages: nat, r: Result<seq<Row>, ReadError>)
    requires Serves(server, items) && items != []
    requires ColumnOutcome(server, datasets, column, size, maxPages, r)
    ensures r.Success? ==> Mergeable(items) && Merge(items).Some? && RowsOf(Merge(items).value, r.value)
  {
    hide Gather, Merge, RowsOf, Serves, Mergeable, MergeOf;
    FirstAnswer(server, items, size);
    GatherComplete(server, items, size, maxPages, 0, 0, None);
    assert items[..0] == [];
    MergeMeans(items);
  }

  /** With full pages it succeeds exactly when the items agree and the page budget covers them. */
  lemma ColumnExact(server: Server<LineageItem>, datasets: Server<LineageItem>, column: string,
                    items: seq<LineageItem>, size: nat, maxPages: nat, r: Result<seq<Row>, ReadError>)
    requires ServesFully(server, items) && items != [] && size > 0
    requires ColumnOutcome(server, datasets, column, size, maxPages, r)
    ensures r.Success? <==> Mergeable(items) && |items| <= size * maxPages
  {
    hide Gather, Merge, RowsOf, Serves, Mergeable, MergeOf;
    FirstAnswer(server, items, size);
    GatherComplete(server, items, size, maxPages, 0, 0, None);
    GatherExact(server, items, size, maxPages, 0, 0, None);
    RoomIsProduct(size, maxPages);
    assert items[..0] == [];
    MergeMeans(items);
  }

  /** Two successful reads of the same items agree, whatever the page sizes, the order and the cuts. */
  lemma ColumnIndependent(
    server1: Server<LineageItem>, server2: Server<LineageItem>,
    datasets1: Server<LineageItem>, datasets2: Server<LineageItem>,
    column: string, items1: seq<LineageItem>, items2: seq<LineageItem>, size1: nat, size2: nat,
    maxPages1: nat, maxPages2: nat, r1: Result<seq<Row>, ReadError>, r2: Result<seq<Row>, ReadError>)
    requires Serves(server1, items1) && Serves(server2, items2) && items1 != []
    requires forall x :: x in items1 <==> x in items2
    requires ColumnOutcome(server1, datasets1, column, size1, maxPages1, r1)
    requires ColumnOutcome(server2, datasets2, column, size2, maxPages2, r2)
    requires r1.Success? && r2.Success?
    ensures r1 == r2
  {
    hide ColumnOutcome, Serves, RowsOf, Merge;
    assert items1[0] in items2;
    ColumnCompleteOrFails(server1, datasets1, column, items1, size1, maxPages1, r1);
    ColumnCompleteOrFails(server2, datasets2, column, items2, size2, maxPages2, r2);
    MergeIgnoresOrder(items1, items2);
    RowsUnique(Merge(items1).value, r1.value, r2.value);
  }

  /** An empty column-level answer yields the whole dataset-level list or a failure. */
  lemma FallbackCompleteOrFails(server: Server<LineageItem>, datasets: Server<LineageItem>, column: string,
                                items: seq<LineageItem>, size: nat, maxPages: nat, r: Result<seq<Row>, ReadError>)
    requires NothingFound(server(0, 0, size), 0) && Serves(datasets, items)
    requires ColumnOutcome(server, datasets, column, size, maxPages, r)
    ensures r.Success? ==>
              && items != [] && AllDataset(items)
              && r.value == DatasetRows(items, column) && DistinctUrns(r.value)
  {
    hide Gather, Serves;
    GatherComplete(datasets, items, size, maxPages, 0, 0, None);
    assert items[..0] == [];
  }
}
