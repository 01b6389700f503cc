/** Parsing `git status --porcelain=v1 -z`: every changed path, both sides of a rename included. */
module StatusParser {
  import opened Wrappers
  import opened Ordering
  import opened Paths

  const NUL := '\0'

  datatype WorktreeError = WorktreeError

  predicate IsRename(status: string) { 'R' in status || 'C' in status }

  /** The paths of `records` from `index` on, appended to `acc`; None is a rejected output. */
  function Collect(records: seq<string>, index: nat, acc: seq<string>): Option<seq<string>>
    requires index <= |records|
    decreases |records| - index
  {
    if index == |records| then Some(acc)
    else
      var record := records[index];
      if record == "" then Collect(records, index + 1, acc)
      else if |record| < 4 || record[2] != ' ' || !IsSafe(record[3..]) then None
      else
        var paths := acc + [Normal(record[3..])];
        if !IsRename(record[..2]) then Collect(records, index + 1, paths)
        else if index + 1 >= |records| || records[index + 1] == "" || !IsSafe(records[index + 1]) then None
        else Collect(records, index + 2, paths + [Normal(records[index + 1])])
  }

  /** `git_status_paths` on the command's output. */
  function Parse(output: string): Result<seq<string>, WorktreeError> {
    match Collect(Split(output, NUL), 0, [])
    case None => Failure(WorktreeError)
    case Some(paths) => Success(SortStrings(paths))
  }

  method GitStatusPaths(output: string) returns (r: Result<seq<string>, WorktreeError>)
    ensures r == Parse(output)
  {
    var records := Split(output, NUL);
    var paths: seq<string> := [];
    var index := 0;
    while index < |records|
      invariant 0 <= index <= |records|
      invariant Collect(records, 0, []) == Collect(records, index, paths)
    {
      var record := records[index];
      index := index + 1;
      if record != "" {
        if |record| < 4 || record[2] != ' ' { return Failure(WorktreeError); }
        var status := record[..2];
        if !IsSafe(record[3..]) { return Failure(WorktreeError); }
        paths := paths + [Normal(record[3..])];
        if IsRename(status) {
          if index >= |records| || records[index] == "" { return Failure(WorktreeError); }
          if !IsSafe(records[index]) { return Failure(WorktreeError); }
          paths := paths + [Normal(records[index])];
          index := index + 1;
        }
      }
    }
    r := Success(SortStrings(paths));
  }

  // ---- printing ------------------------------------------------------------------------

  /** One status record; a rename or copy names its destination first, then its source. */
  datatype Change = Plain(status: string, path: string) | Moved(status: string, path: string, source: string)

  predicate NoNul(s: string) { NUL !in s }

  /** What Git can print: a two-letter status that says whether a source follows, and paths without NUL. */
  predicate Printable(c: Change) {
    && |c.status| == 2 && NoNul(c.status) && NoNul(c.path)
    && (c.Moved? <==> IsRename(c.status))
    && (c.Moved? ==> NoNul(c.source))
  }

  predicate AllPrintable(cs: seq<Change>) { forall i :: 0 <= i < |cs| ==> Printable(cs[i]) }

  function PathsOf(c: Change): seq<string> { if c.Moved? then [c.path, c.source] else [c.path] }

  function AllPaths(cs: seq<Change>): seq<string> { if cs == [] then [] else PathsOf(cs[0]) + AllPaths(cs[1..]) }

  function FieldsOf(c: Change): seq<string> {
    [c.status + " " + c.path] + if c.Moved? then [c.source] else []
  }

  function Fields(cs: seq<Change>): seq<string> { if cs == [] then [] else FieldsOf(cs[0]) + Fields(cs[1..]) }

  /** Every field ends in NUL. */
  function Terminated(fields: seq<string>): string {
    if fields == [] then "" else fields[0] + [NUL] + Terminated(fields[1..])
  }

  function Print(cs: seq<Change>): string { Terminated(Fields(cs)) }

  lemma {:induction false} SplitField(field: string, rest: string)
    requires NoNul(field)
    ensures Split(field + [NUL] + rest, NUL) == [field] + Split(rest, NUL)
    decreases field
  {
    var s := field + [NUL] + rest;
    if field == "" {
      assert s[1..] == rest;
    } else {
      assert s[1..] == field[1..] + [NUL] + rest;
      assert field == [field[0]] + field[1..];
      SplitField(field[1..], rest);
    }
  }

  lemma {:induction false} SplitLast(tail: string)
    requires NoNul(tail)
    ensures Split(tail, NUL) == [tail]
  {
    if tail != "" {
      SplitLast(tail[1..]);
      assert tail == [tail[0]] + tail[1..];
    }
  }

  lemma {:induction false} SplitTerminated(fields: seq<string>, tail: string)
    requires (forall i :: 0 <= i < |fields| ==> NoNul(fields[i])) && NoNul(tail)
    ensures Split(Terminated(fields) + tail, NUL) == fields + [tail]
  {
    if fields == [] {
      assert Terminated(fields) + tail == tail;
      SplitLast(tail);
    } else {
      SplitTerminated(fields[1..], tail);
      SplitField(fields[0], Terminated(fields[1..]) + tail);
      assert Terminated(fields) + tail == fields[0] + [NUL] + (Terminated(fields[1..]) + tail);
      assert fields + [tail] == [fields[0]] + (fields[1..] + [tail]);
    }
  }

  lemma {:induction false} FieldsNoNul(cs: seq<Change>)
    requires AllPrintable(cs)
    ensures forall i :: 0 <= i < |Fields(cs)| ==> NoNul(Fields(cs)[i])
  {
    if cs != [] {
      assert Printable(cs[0]);
      FieldsNoNul(cs[1..]);
    }
  }

  predicate AllSafe(paths: seq<string>) { forall i :: 0 <= i < |paths| ==> IsSafe(paths[i]) }

  function Normals(paths: seq<string>): seq<string> {
    if paths == [] then [] else [Normal(paths[0])] + Normals(paths[1..])
  }

  lemma EmptyUnsafe()
    ensures !IsSafe("")
  {
    assert Split("", '/') == [""];
    assert Parts([""]) == Parts([]);
  }

  /** `fields` stand in `records` from `index` on. */
  predicate StandAt(records: seq<string>, index: nat, fields: seq<string>) {
    index + |fields| <= |records| && records[index..index + |fields|] == fields
  }

  lemma NormalsTwo(a: string, b: string)
    ensures Normals([a, b]) == [Normal(a), Normal(b)]
  {
    assert [a, b][1..] == [b] && [b][1..] == [];
    assert Normals([b]) == [Normal(b)];
  }

  /** One printed record is read back, or rejected for an unsafe path. */
  lemma CollectOne(records: seq<string>, index: nat, c: Change, acc: seq<string>)
    requires Printable(c) && StandAt(records, index, FieldsOf(c))
    ensures Collect(records, index, acc) ==
            if AllSafe(PathsOf(c)) then Collect(records, index + |FieldsOf(c)|, acc + Normals(PathsOf(c))) else None
  {
    hide IsSafe, Normal;
    EmptyUnsafe();
    var record := c.status + " " + c.path;
    assert records[index] == FieldsOf(c)[0] == record;
    assert record[..2] == c.status && record[2] == ' ' && record[3..] == c.path;
    assert c.path != "" ==> |record| >= 4;
    var paths := PathsOf(c);
    if c.Moved? {
      NormalsTwo(c.path, c.source);
      assert records[index + 1] == FieldsOf(c)[1] == c.source;
      assert acc + [Normal(c.path)] + [Normal(c.source)] == acc + Normals(paths);
      assert paths[0] == c.path && paths[1] == c.source;
    } else {
      assert paths[0] == c.path;
      assert acc + [Normal(c.path)] == acc + Normals(paths);
    }
  }

  lemma {:induction false} NormalsAppend(a: seq<string>, b: seq<string>)
    ensures Normals(a + b) == Normals(a) + Normals(b)
  {
    if a == [] {
      assert a + b == b;
    } else {
      assert (a + b)[1..] == a[1..] + b;
      NormalsAppend(a[1..], b);
    }
  }

  lemma AllSafeAppend(a: seq<string>, b: seq<string>)
    ensures AllSafe(a + b) <==> AllSafe(a) && AllSafe(b)
  {
    hide IsSafe;
    var ab := a + b;
    assert forall i :: 0 <= i < |a| ==> ab[i] == a[i];
    assert forall i :: 0 <= i < |b| ==> ab[|a| + i] == b[i];
  }

  lemma StandSplit(records: seq<string>, index: nat, a: seq<string>, b: seq<string>)
    requires StandAt(records, index, a + b)
    ensures StandAt(records, index, a) && StandAt(records, index + |a|, b)
  {
    assert records[index..index + |a|] == (a + b)[..|a|];
    assert records[index + |a|..index + |a| + |b|] == (a + b)[|a|..];
  }

  lemma PathsOfRest(cs: seq<Change>, acc: seq<string>)
    requires cs != []
    ensures AllSafe(AllPaths(cs)) <==> AllSafe(PathsOf(cs[0])) && AllSafe(AllPaths(cs[1..]))
    ensures acc + Normals(PathsOf(cs[0])) + Normals(AllPaths(cs[1..])) == acc + Normals(AllPaths(cs))
    ensures Fields(cs) == FieldsOf(cs[0]) + Fields(cs[1..])
  {
    hide IsSafe, AllSafe, Normals, PathsOf, FieldsOf;
    AllSafeAppend(PathsOf(cs[0]), AllPaths(cs[1..]));
    NormalsAppend(PathsOf(cs[0]), AllPaths(cs[1..]));
  }

  lemma NothingPrinted(acc: seq<string>)
    ensures Fields([]) == [] && AllSafe(AllPaths([])) && acc + Normals(AllPaths([])) == acc
  {}

  lemma {:induction false} CollectPrinted(records: seq<string>, index: nat, cs: seq<Change>, acc: seq<string>)
    requires AllPrintable(cs) && StandAt(records, index, Fields(cs))
    ensures Collect(records, index, acc) ==
            if AllSafe(AllPaths(cs)) then Collect(records, index + |Fields(cs)|, acc + Normals(AllPaths(cs))) else None
    decreases |cs|
  {
    hide Collect, Printable, AllSafe, StandAt, Normals, Fields, FieldsOf, AllPaths, PathsOf;
    if cs == [] {
      NothingPrinted(acc);
    } else {
      PathsOfRest(cs, acc);
      var next, acc2 := index + |FieldsOf(cs[0])|, acc + Normals(PathsOf(cs[0]));
      StandSplit(records, index, FieldsOf(cs[0]), Fields(cs[1..]));
      CollectOne(records, index, cs[0], acc);
      CollectPrinted(records, next, cs[1..], acc2);
    }
  }

  /**
    Parsing what Git prints: the sorted set of all paths, normalised, both sides of every rename and copy;
    and exactly the outputs with an unsafe path are rejected.
   */
  lemma ParsePrint(cs: seq<Change>)
    requires AllPrintable(cs)
    ensures Parse(Print(cs)) ==
            if AllSafe(AllPaths(cs)) then Success(SortStrings(Normals(AllPaths(cs)))) else Failure(WorktreeError)
  {
    hide IsSafe, Normal, Split;
    FieldsNoNul(cs);
    SplitTerminated(Fields(cs), "");
    var records := Fields(cs) + [""];
    assert Print(cs) + "" == Print(cs);
    assert records[0..|Fields(cs)|] == Fields(cs);
    CollectPrinted(records, 0, cs, []);
    var paths := Normals(AllPaths(cs));
    assert [] + paths == paths;
    CollectEnd(records, |Fields(cs)|, paths);
  }

  lemma CollectEnd(records: seq<string>, index: nat, acc: seq<string>)
    requires index + 1 == |records| && records[index] == ""
    ensures Collect(records, index, acc) == Some(acc)
  {}

  lemma {:induction false} NormalsSame(paths: seq<string>)
    requires forall i :: 0 <= i < |paths| ==> Normal(paths[i]) == paths[i]
    ensures Normals(paths) == paths
  {
    if paths != [] {
      NormalsSame(paths[1..]);
      assert paths == [paths[0]] + paths[1..];
    }
  }

  /** On normalised safe paths the result is the sorted set of the paths themselves. */
  lemma ParsePrintNormal(cs: seq<Change>)
    requires AllPrintable(cs) && AllSafe(AllPaths(cs))
    requires forall i :: 0 <= i < |AllPaths(cs)| ==> Normal(AllPaths(cs)[i]) == AllPaths(cs)[i]
    ensures var r := Parse(Print(cs));
            r.Success? && StrictlySorted(r.value, Before) && forall p :: p in r.value <==> p in AllPaths(cs)
  {
    hide IsSafe, Normal, Parse, AllPaths, Print;
    ParsePrint(cs);
    NormalsSame(AllPaths(cs));
  }

  /** A rename record cut off before its source path is rejected, with or without its NUL. */
  lemma TruncatedRenameRejected(cs: seq<Change>, status: string, path: string, terminated: bool)
    requires AllPrintable(cs)
    requires |status| == 2 && NoNul(status) && NoNul(path) && IsRename(status)
    ensures Parse(Print(cs) + (status + " " + path) + (if terminated then [NUL] else "")) == Failure(WorktreeError)
  {
    hide IsSafe, Normal, Split;
    var record := status + " " + path;
    FieldsNoNul(cs);
    var output := Print(cs) + record + (if terminated then [NUL] else "");
    var records := Fields(cs) + if terminated then [record, ""] else [record];
    if terminated {
      var all := Fields(cs) + [record];
      SplitTerminated(all, "");
      TerminatedAppend(Fields(cs), record);
      assert output == Terminated(all) + "";
      assert all + [""] == records;
    } else {
      SplitTerminated(Fields(cs), record);
      assert output == Terminated(Fields(cs)) + record;
    }
    assert Split(output, NUL) == records;
    assert records[0..|Fields(cs)|] == Fields(cs);
    CollectPrinted(records, 0, cs, []);
    assert record[..2] == status;
    CollectCut(records, |Fields(cs)|, [] + Normals(AllPaths(cs)));
  }

  lemma {:induction false} TerminatedAppend(fields: seq<string>, last: string)
    ensures Terminated(fields + [last]) == Terminated(fields) + last + [NUL]
  {
    if fields == [] {
      assert fields + [last] == [last];
      assert Terminated([last]) == last + [NUL] + "";
    } else {
      assert (fields + [last])[1..] == fields[1..] + [last];
      TerminatedAppend(fields[1..], last);
      var rest := Terminated(fields[1..]);
      assert fields[0] + [NUL] + (rest + last + [NUL]) == fields[0] + [NUL] + rest + last + [NUL];
    }
  }

  lemma CollectCut(records: seq<string>, index: nat, acc: seq<string>)
    requires index < |records| && records[index] != "" && |records[index]| >= 2 && IsRename(records[index][..2])
    requires index + 1 == |records| || (index + 2 == |records| && records[index + 1] == "")
    ensures Collect(records, index, acc).None?
  {}
}
