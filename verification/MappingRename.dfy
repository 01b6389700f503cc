/** The Airflow participant: a key-and-value rename of an ordered mapping kept in two files. */
module MappingRename {
  import opened Wrappers

  datatype Pair = Pair(key: string, value: string)

  /** A string-to-string dictionary in insertion order. */
  predicate DistinctKeys(m: seq<Pair>) { forall i, j :: 0 <= i < j < |m| ==> m[i].key != m[j].key }

  predicate HasKey(m: seq<Pair>, key: string) { exists i :: 0 <= i < |m| && m[i].key == key }

  predicate HasValue(m: seq<Pair>, value: string) { exists i :: 0 <= i < |m| && m[i].value == value }

  predicate Mentions(m: seq<Pair>, name: string) { HasKey(m, name) || HasValue(m, name) }

  function Rename(s: string, oldName: string, newName: string): string { if s == oldName then newName else s }

  function RenamePair(p: Pair, oldName: string, newName: string): Pair {
    Pair(Rename(p.key, oldName, newName), Rename(p.value, oldName, newName))
  }

  function RenameAll(m: seq<Pair>, oldName: string, newName: string): (r: seq<Pair>)
    ensures |r| == |m|
    ensures forall i :: 0 <= i < |m| ==> r[i] == RenamePair(m[i], oldName, newName)
  {
    seq(|m|, i requires 0 <= i < |m| => RenamePair(m[i], oldName, newName))
  }

  datatype Rejected = Absent | Collision

  /** A pair whose renamed key is free keeps the two names from both being keys. */
  lemma NoCollisionYet(before: seq<Pair>, after: seq<Pair>, i: nat, oldName: string, newName: string)
    requires i < |before| && |after| == i
    requires forall j :: 0 <= j < i ==> after[j] == RenamePair(before[j], oldName, newName)
    requires !HasKey(after, Rename(before[i].key, oldName, newName))
    requires oldName != newName && HasKey(before[..i], oldName) ==> !HasKey(before[..i], newName)
    ensures oldName != newName && HasKey(before[..i + 1], oldName) ==> !HasKey(before[..i + 1], newName)
  {
    var prefix, longer := before[..i], before[..i + 1];
    assert longer == prefix + [before[i]];
    forall key ensures HasKey(longer, key) <==> HasKey(prefix, key) || before[i].key == key {
      assert longer[i] == before[i] && forall j :: 0 <= j < i ==> longer[j] == prefix[j];
    }
    forall j | 0 <= j < i && (prefix[j].key == oldName || prefix[j].key == newName)
      ensures Rename(before[i].key, oldName, newName) != newName
    {
      assert after[j].key == newName;
    }
  }

  /** `_rename_mapping`, and the proposer's own loop over the same mapping. */
  method RenameMapping(before: seq<Pair>, oldName: string, newName: string) returns (r: Result<seq<Pair>, Rejected>)
    requires DistinctKeys(before)
    ensures r == Failure(Absent) <==> !Mentions(before, oldName)
    ensures r == Failure(Collision) <==> oldName != newName && HasKey(before, oldName) && HasKey(before, newName)
    ensures r.Success? ==> r.value == RenameAll(before, oldName, newName) && DistinctKeys(r.value)
  {
    if !Mentions(before, oldName) { return Failure(Absent); }
    var after: seq<Pair> := [];
    var i := 0;
    while i < |before|
      invariant 0 <= i <= |before| && |after| == i
      invariant forall j :: 0 <= j < i ==> after[j] == RenamePair(before[j], oldName, newName)
      invariant DistinctKeys(after)
      invariant oldName != newName && HasKey(before[..i], oldName) ==> !HasKey(before[..i], newName)
    {
      var pair := RenamePair(before[i], oldName, newName);
      if HasKey(after, pair.key) {
        var j :| 0 <= j < |after| && after[j].key == pair.key;
        assert before[j].key != before[i].key;
        assert before[j].key == oldName || before[i].key == oldName;
        return Failure(Collision);
      }
      NoCollisionYet(before, after, i, oldName, newName);
      after := after + [pair];
      i := i + 1;
    }
    assert before[..i] == before;
    assert after == RenameAll(before, oldName, newName);
    r := Success(after);
  }

  // ---- what a renamed mapping looks like ------------------------------------------------------

  /** No old name is left, in a key or in a value. */
  lemma NoOldNameLeft(m: seq<Pair>, oldName: string, newName: string)
    requires oldName != newName
    ensures !Mentions(RenameAll(m, oldName, newName), oldName)
  {}

  /** Renaming back gives the mapping itself exactly when the new name was not in it. */
  lemma ReverseRestores(m: seq<Pair>, oldName: string, newName: string)
    requires oldName != newName
    ensures RenameAll(RenameAll(m, oldName, newName), newName, oldName) == m <==> !Mentions(m, newName)
  {
    var back := RenameAll(RenameAll(m, oldName, newName), newName, oldName);
    if Mentions(m, newName) {
      if HasKey(m, newName) {
        var i :| 0 <= i < |m| && m[i].key == newName;
        assert back[i] != m[i];
      } else {
        var i :| 0 <= i < |m| && m[i].value == newName;
        assert back[i] != m[i];
      }
    } else {
      forall i | 0 <= i < |m| ensures back[i] == m[i] {
        assert m[i].key != newName && m[i].value != newName;
      }
    }
  }

  /** Dictionary equality: the order of insertion does not matter. */
  predicate SameDict(a: seq<Pair>, b: seq<Pair>) { (forall p :: p in a ==> p in b) && (forall p :: p in b ==> p in a) }

  /** `_validate_schema_variants`. */
  predicate Covers(columns: seq<string>, m: seq<Pair>) {
    forall i :: 0 <= i < |m| ==> m[i].key in columns && m[i].value in columns
  }

  /** Everything `prepare` demands of a proposal before a file is touched. */
  predicate Accepts(expected: seq<Pair>, proposed: seq<Pair>, python: seq<Pair>, json: seq<Pair>,
                    oldName: string, newName: string, expanded: seq<string>, contract: seq<string>)
  {
    && DistinctKeys(expected) && DistinctKeys(proposed)
    && Mentions(expected, oldName)
    && !(oldName != newName && HasKey(expected, oldName) && HasKey(expected, newName))
    && SameDict(proposed, RenameAll(expected, oldName, newName))
    && SameDict(python, expected) && SameDict(json, expected)
    && Covers(expanded, proposed) && Covers(contract, proposed)
  }

  /** The schema has the new name and every name of the mapping but the old one. */
  predicate HasOthers(columns: seq<string>, m: seq<Pair>, oldName: string, newName: string) {
    && newName in columns
    && forall i :: 0 <= i < |m| ==>
         (m[i].key == oldName || m[i].key in columns) && (m[i].value == oldName || m[i].value in columns)
  }

  lemma CoversRenamed(columns: seq<string>, m: seq<Pair>, oldName: string, newName: string)
    requires Mentions(m, oldName)
    ensures Covers(columns, RenameAll(m, oldName, newName)) <==> HasOthers(columns, m, oldName, newName)
  {
    var r := RenameAll(m, oldName, newName);
    assert forall i :: 0 <= i < |m| ==> r[i] == RenamePair(m[i], oldName, newName);
    if Covers(columns, r) {
      var i :| 0 <= i < |m| && (m[i].key == oldName || m[i].value == oldName);
      assert r[i].key == newName || r[i].value == newName;
      forall j | 0 <= j < |m|
        ensures (m[j].key == oldName || m[j].key in columns) && (m[j].value == oldName || m[j].value in columns)
      {
        assert r[j].key in columns && r[j].value in columns;
      }
    }
  }

  /**
    A proposal made from `mapping` is accepted exactly when both files still hold that mapping and both schemas have
    the new name and the other names.
   */
  lemma ProposalAccepted(mapping: seq<Pair>, python: seq<Pair>, json: seq<Pair>, oldName: string, newName: string,
                         expanded: seq<string>, contract: seq<string>)
    requires DistinctKeys(mapping) && Mentions(mapping, oldName)
    requires !(oldName != newName && HasKey(mapping, oldName) && HasKey(mapping, newName))
    ensures Accepts(mapping, RenameAll(mapping, oldName, newName), python, json, oldName, newName, expanded, contract)
            <==> && SameDict(python, mapping) && SameDict(json, mapping)
                 && HasOthers(expanded, mapping, oldName, newName) && HasOthers(contract, mapping, oldName, newName)
  {
    hide HasOthers, Covers;
    RenamedDistinct(mapping, oldName, newName);
    CoversRenamed(expanded, mapping, oldName, newName);
    CoversRenamed(contract, mapping, oldName, newName);
  }

  lemma RenamedDistinct(m: seq<Pair>, oldName: string, newName: string)
    requires DistinctKeys(m) && !(oldName != newName && HasKey(m, oldName) && HasKey(m, newName))
    ensures DistinctKeys(RenameAll(m, oldName, newName))
  {
    var r := RenameAll(m, oldName, newName);
    forall i, j | 0 <= i < j < |r| ensures r[i].key != r[j].key {
      assert m[i].key != m[j].key;
    }
  }

  /** Any accepted candidate carries every pair to its renamed pair and nothing else. */
  lemma AcceptedIsTheRename(expected: seq<Pair>, proposed: seq<Pair>, python: seq<Pair>, json: seq<Pair>,
                            oldName: string, newName: string, expanded: seq<string>, contract: seq<string>, q: Pair)
    requires oldName != newName
    requires Accepts(expected, proposed, python, json, oldName, newName, expanded, contract)
    ensures q in proposed <==> exists p :: p in json && RenamePair(p, oldName, newName) == q
    ensures !Mentions(proposed, oldName)
  {
    var r := RenameAll(expected, oldName, newName);
    if q in proposed {
      assert q in r;
      var i :| 0 <= i < |r| && r[i] == q;
      assert expected[i] in expected;
      assert expected[i] in json && RenamePair(expected[i], oldName, newName) == q;
    }
    if exists p :: p in json && RenamePair(p, oldName, newName) == q {
      var p :| p in json && RenamePair(p, oldName, newName) == q;
      assert p in expected;
      var i :| 0 <= i < |expected| && expected[i] == p;
      assert r[i] == q;
    }
    NoOldNameLeft(expected, oldName, newName);
    forall i | 0 <= i < |proposed| ensures proposed[i].key != oldName && proposed[i].value != oldName {
      assert proposed[i] in proposed;
      assert proposed[i] in r;
      var j :| 0 <= j < |r| && r[j] == proposed[i];
    }
  }

  // ---- two files ------------------------------------------------------------------------------

  /** A failing write leaves the file in any state at all. */
  datatype WriteFault = Fine | Broken(left: string)

  function After(text: string, fault: WriteFault): string { if fault.Fine? then text else fault.left }

  datatype Weather = Weather(python: WriteFault, json: WriteFault, allowed: bool,
                             restorePython: WriteFault, restoreJson: WriteFault)

  datatype Written = BothNew | BothRestored | RestoreFailed

  /** `Refused` before any write, else how the two-file write failed. */
  datatype Rejection = Refused | Failed(written: Written)

  /**
    What parsing the two files yields: `python` the assigned literal mapping, `json` the configured one, each only
    if it is there; `patched`: the spliced texts parse back to the proposed mapping.
   */
  datatype Parsed = Parsed(python: Option<seq<Pair>>, json: Option<seq<Pair>>, patched: bool)

  class AirflowMappingParticipant {
    var python: string
    var json: string

    constructor (python: string, json: string)
      ensures this.python == python && this.json == json
    {
      this.python, this.json := python, json;
    }

    /** Writes both files, or puts both originals back. */
    method WriteBoth(pythonAfter: string, jsonAfter: string, w: Weather) returns (r: Written)
      modifies this
      ensures r.BothNew? <==> w.python.Fine? && w.json.Fine? && w.allowed
      ensures r.BothNew? ==> python == pythonAfter && json == jsonAfter
      ensures !r.BothNew? ==> (r.BothRestored? <==> w.restorePython.Fine? && w.restoreJson.Fine?)
      ensures r.BothRestored? ==> python == old(python) && json == old(json)
      ensures r.RestoreFailed? && w.restorePython.Fine? ==> python == old(python)
      ensures r.RestoreFailed? && w.restoreJson.Fine? ==> json == old(json)
    {
      var pythonBefore, jsonBefore := python, json;
      var ok := w.python.Fine?;
      python := After(pythonAfter, w.python);
      if ok {
        json := After(jsonAfter, w.json);
        ok := w.json.Fine? && w.allowed;
      }
      if ok { return BothNew; }
      python := After(pythonBefore, w.restorePython);
      json := After(jsonBefore, w.restoreJson);
      r := if w.restorePython.Fine? && w.restoreJson.Fine? then BothRestored else RestoreFailed;
    }

    /**
      Checks everything, then writes both files.  `bound`: session, proposal and file hashes match and the
      worktree is clean.
     */
    method Prepare(expected: seq<Pair>, proposed: seq<Pair>, parsed: Parsed, oldName: string, newName: string,
                   expanded: seq<string>, contract: seq<string>, pythonAfter: string, jsonAfter: string,
                   bound: bool, w: Weather)
      returns (r: Result<(), Rejection>)
      modifies this
      ensures r != Failure(Refused) <==>
              && bound && parsed.patched && parsed.python.Some? && parsed.json.Some?
              && Accepts(expected, proposed, parsed.python.value, parsed.json.value, oldName, newName, expanded,
                         contract)
      ensures r == Failure(Refused) ==> python == old(python) && json == old(json)
      ensures r.Success? ==> python == pythonAfter && json == jsonAfter
      ensures r != Failure(Refused) ==> (r.Success? <==> w.python.Fine? && w.json.Fine? && w.allowed)
      ensures r.Failure? && r.error.Failed? ==>
                && !r.error.written.BothNew?
                && (r.error.written.BothRestored? <==> w.restorePython.Fine? && w.restoreJson.Fine?)
                && (w.restorePython.Fine? ==> python == old(python))
                && (w.restoreJson.Fine? ==> json == old(json))
    {
      if !bound { return Failure(Refused); }
      if !DistinctKeys(expected) || !DistinctKeys(proposed) { return Failure(Refused); }
      var derived := RenameMapping(expected, oldName, newName);
      assert derived.Failure? ==> derived.error.Absent? || derived.error.Collision?;
      if derived.Failure? || !SameDict(proposed, derived.value) { return Failure(Refused); }
      if parsed.python.None? || !SameDict(parsed.python.value, expected) { return Failure(Refused); }
      if parsed.json.None? || !SameDict(parsed.json.value, expected) { return Failure(Refused); }
      if !parsed.patched { return Failure(Refused); }
      if !Covers(expanded, proposed) || !Covers(contract, proposed) { return Failure(Refused); }
      var written := WriteBoth(pythonAfter, jsonAfter, w);
      if !written.BothNew? { return Failure(Failed(written)); }
      r := Success(());
    }
  }
}
