/**
  The dbt rename: `re.subn` of a field name between identifier boundaries, scanned from the left,
  is the same as renaming the maximal identifier runs that equal the field.
 */
module IdentifierRename {
  import opened Wrappers

  /** `[A-Za-z0-9_]`. */
  predicate IsWord(c: char) { 'A' <= c <= 'Z' || 'a' <= c <= 'z' || '0' <= c <= '9' || c == '_' }

  predicate AllWord(s: string) { forall i :: 0 <= i < |s| ==> IsWord(s[i]) }

  /** `[A-Za-z_][A-Za-z0-9_]*`, as `_validate_identifiers` demands. */
  predicate IsIdentifier(s: string) { s != "" && AllWord(s) && !('0' <= s[0] <= '9') }

  // ---- the scan --------------------------------------------------------------------------

  /** The pattern matches at `at`: the name, with no identifier character just before or after. */
  predicate MatchAt(s: string, at: nat, name: string) {
    && at + |name| <= |s|
    && s[at..at + |name|] == name
    && (at > 0 ==> !IsWord(s[at - 1]))
    && (at + |name| < |s| ==> !IsWord(s[at + |name|]))
  }

  /** `identifier.subn(newName, s)` from position `at` on: the new text and the number of replacements. */
  function Scan(s: string, at: nat, name: string, newName: string): (string, nat)
    requires at <= |s| && name != ""
    decreases |s| - at
  {
    if at == |s| then ("", 0)
    else if MatchAt(s, at, name) then
      var rest := Scan(s, at + |name|, name, newName);
      (newName + rest.0, rest.1 + 1)
    else
      var rest := Scan(s, at + 1, name, newName);
      ([s[at]] + rest.0, rest.1)
  }

  method Subn(s: string, name: string, newName: string) returns (after: string, replacements: nat)
    requires name != ""
    ensures (after, replacements) == Scan(s, 0, name, newName)
  {
    after, replacements := "", 0;
    var at := 0;
    ghost var whole := Scan(s, 0, name, newName);
    assert "" + whole.0 == whole.0;
    while at < |s|
      invariant 0 <= at <= |s|
      invariant Scan(s, 0, name, newName) ==
                (after + Scan(s, at, name, newName).0, replacements + Scan(s, at, name, newName).1)
    {
      if MatchAt(s, at, name) {
        ghost var rest := Scan(s, at + |name|, name, newName).0;
        assert after + (newName + rest) == (after + newName) + rest;
        after, replacements, at := after + newName, replacements + 1, at + |name|;
      } else {
        ghost var rest := Scan(s, at + 1, name, newName).0;
        assert after + ([s[at]] + rest) == (after + [s[at]]) + rest;
        after, at := after + [s[at]], at + 1;
      }
    }
    assert after + "" == after;
  }

  // ---- runs ------------------------------------------------------------------------------

  /** A piece of text: a maximal identifier run, or one other character. */
  datatype Piece = Run(text: string) | Other(c: char)

  predicate IsRun(p: Piece) { p.Run? && p.text != "" && AllWord(p.text) }

  predicate Proper(p: Piece) { if p.Run? then IsRun(p) else !IsWord(p.c) }

  /** Proper pieces, no two runs side by side. */
  predicate Pieces(ps: seq<Piece>) {
    && (forall i :: 0 <= i < |ps| ==> Proper(ps[i]))
    && (forall i :: 0 < i < |ps| ==> !(ps[i - 1].Run? && ps[i].Run?))
  }

  function Text(p: Piece): string { if p.Run? then p.text else [p.c] }

  function Flat(ps: seq<Piece>): string { if ps == [] then "" else Text(ps[0]) + Flat(ps[1..]) }

  lemma PiecesTail(ps: seq<Piece>)
    requires Pieces(ps) && ps != []
    ensures Proper(ps[0]) && Pieces(ps[1..]) && (|ps| > 1 ==> !(ps[0].Run? && ps[1].Run?))
    ensures |ps| > 1 ==> Proper(ps[1])
  {
    hide Proper;
    var rest := ps[1..];
    forall i | 0 <= i < |rest| ensures Proper(rest[i]) { assert rest[i] == ps[i + 1]; }
    forall i | 0 < i < |rest| ensures !(rest[i - 1].Run? && rest[i].Run?) { assert rest[i] == ps[i + 1]; }
  }

  /** A proper piece in front, not a run before a run. */
  lemma Cons(p: Piece, ps: seq<Piece>)
    requires Proper(p) && Pieces(ps) && !(p.Run? && ps != [] && ps[0].Run?)
    ensures Pieces([p] + ps) && Flat([p] + ps) == Text(p) + Flat(ps)
  {
    hide Proper;
    var all := [p] + ps;
    assert all[1..] == ps;
    forall i | 0 <= i < |all| ensures Proper(all[i]) { if i > 0 { assert all[i] == ps[i - 1]; } }
    forall i | 0 < i < |all| ensures !(all[i - 1].Run? && all[i].Run?) { assert all[i] == ps[i - 1]; }
  }

  /** A character before a run joins it. */
  lemma Join(c: char, ps: seq<Piece>)
    requires IsWord(c) && Pieces(ps) && ps != [] && ps[0].Run?
    ensures var r := [Run([c] + ps[0].text)] + ps[1..]; Pieces(r) && Flat(r) == [c] + Flat(ps)
  {
    hide Pieces, Flat;
    PiecesTail(ps);
    Cons(Run([c] + ps[0].text), ps[1..]);
    assert Flat(ps) == ps[0].text + Flat(ps[1..]) by { FlatHead(ps); }
    assert [c] + (ps[0].text + Flat(ps[1..])) == ([c] + ps[0].text) + Flat(ps[1..]);
  }

  lemma FlatHead(ps: seq<Piece>)
    requires ps != []
    ensures Flat(ps) == Text(ps[0]) + Flat(ps[1..])
  {}

  /** One character before some pieces: it joins a run that follows it. */
  function Prepend(c: char, ps: seq<Piece>): (r: seq<Piece>)
    requires Pieces(ps)
    ensures Pieces(r) && Flat(r) == [c] + Flat(ps)
  {
    if !IsWord(c) then
      Cons(Other(c), ps);
      [Other(c)] + ps
    else if ps != [] && ps[0].Run? then
      Join(c, ps);
      [Run([c] + ps[0].text)] + ps[1..]
    else
      Cons(Run([c]), ps);
      [Run([c])] + ps
  }

  /** The pieces of a text, read from the right. */
  function Tokens(s: string): (ps: seq<Piece>)
    ensures Pieces(ps) && Flat(ps) == s
  {
    if s == "" then []
    else
      assert s == [s[0]] + s[1..];
      Prepend(s[0], Tokens(s[1..]))
  }

  /** Rename the runs that equal `name`; leave everything else. */
  function Renamed(p: Piece, name: string, newName: string): Piece { if p == Run(name) then Run(newName) else p }

  function RenameAll(ps: seq<Piece>, name: string, newName: string): seq<Piece> {
    if ps == [] then [] else [Renamed(ps[0], name, newName)] + RenameAll(ps[1..], name, newName)
  }

  lemma {:induction false} RenameAllAt(ps: seq<Piece>, name: string, newName: string)
    ensures var r := RenameAll(ps, name, newName);
            |r| == |ps| && forall i :: 0 <= i < |ps| ==> r[i] == Renamed(ps[i], name, newName)
  {
    if ps != [] { RenameAllAt(ps[1..], name, newName); }
  }

  function RunCount(ps: seq<Piece>, name: string): nat {
    if ps == [] then 0 else (if ps[0] == Run(name) then 1 else 0) + RunCount(ps[1..], name)
  }

  // ---- the scan renames runs -----------------------------------------------------------------

  /** A stretch without a match is copied. */
  lemma {:induction false} ScanCopies(s: string, a: nat, b: nat, name: string, newName: string)
    requires a <= b <= |s| && name != ""
    requires forall i :: a <= i < b ==> !MatchAt(s, i, name)
    ensures Scan(s, a, name, newName) == (s[a..b] + Scan(s, b, name, newName).0, Scan(s, b, name, newName).1)
    decreases b - a
  {
    if a == b {
      assert s[a..b] + Scan(s, b, name, newName).0 == Scan(s, b, name, newName).0;
    } else {
      ScanCopies(s, a + 1, b, name, newName);
      assert s[a..b] == [s[a]] + s[a + 1..b];
      assert [s[a]] + (s[a + 1..b] + Scan(s, b, name, newName).0) == s[a..b] + Scan(s, b, name, newName).0;
    }
  }

  /** `text` stands at `at` in `s` as a maximal run. */
  predicate RunAt(s: string, at: nat, text: string) {
    && text != "" && AllWord(text) && at + |text| <= |s| && s[at..at + |text|] == text
    && (at > 0 ==> !IsWord(s[at - 1]))
    && (at + |text| < |s| ==> !IsWord(s[at + |text|]))
  }

  lemma WordsAt(s: string, at: nat, text: string)
    requires AllWord(text) && at + |text| <= |s| && s[at..at + |text|] == text
    ensures forall k :: at <= k < at + |text| ==> IsWord(s[k])
  {
    forall k | at <= k < at + |text| ensures IsWord(s[k]) { assert s[k] == text[k - at]; }
  }

  /** Within a maximal run the pattern matches only the whole run. */
  lemma RunMatches(s: string, at: nat, text: string, name: string)
    requires RunAt(s, at, text) && name != "" && AllWord(name)
    ensures MatchAt(s, at, name) <==> text == name
    ensures forall i :: at < i < at + |text| ==> !MatchAt(s, i, name)
  {
    WordsAt(s, at, text);
    if MatchAt(s, at, name) { WordsAt(s, at, name); }
  }

  /** `ps` are the pieces of `s` from `at` on, and `at` does not split a run. */
  predicate StandsAt(s: string, at: nat, ps: seq<Piece>) {
    && Pieces(ps) && at <= |s| && s[at..] == Flat(ps)
    && (at > 0 && ps != [] && ps[0].Run? ==> !IsWord(s[at - 1]))
  }

  /** The first piece stands at `at`, and the others behind it. */
  lemma HeadStands(s: string, at: nat, ps: seq<Piece>)
    requires StandsAt(s, at, ps) && ps != []
    ensures ps[0].Run? ==> RunAt(s, at, ps[0].text)
    ensures ps[0].Other? ==> at < |s| && s[at] == ps[0].c && !IsWord(s[at])
    ensures StandsAt(s, at + |Text(ps[0])|, ps[1..])
  {
    hide Pieces;
    PiecesTail(ps);
    var text, next := Text(ps[0]), at + |Text(ps[0])|;
    assert s[at..][..|text|] == text && s[at..][|text|..] == Flat(ps[1..]);
    assert s[at..next] == text && s[next..] == Flat(ps[1..]);
    assert s[next - 1] == text[|text| - 1];
    if |ps| > 1 { assert Flat(ps[1..])[0] == Text(ps[1])[0]; }
  }

  lemma ScanRun(s: string, at: nat, text: string, name: string, newName: string)
    requires RunAt(s, at, text) && name != "" && AllWord(name)
    ensures Scan(s, at, name, newName) ==
            ((if text == name then newName else text) + Scan(s, at + |text|, name, newName).0,
             Scan(s, at + |text|, name, newName).1 + if text == name then 1 else 0)
  {
    RunMatches(s, at, text, name);
    if text != name { ScanCopies(s, at, at + |text|, name, newName); }
  }

  lemma ScanOther(s: string, at: nat, name: string, newName: string)
    requires at < |s| && !IsWord(s[at]) && name != "" && AllWord(name)
    ensures Scan(s, at, name, newName) == ([s[at]] + Scan(s, at + 1, name, newName).0, Scan(s, at + 1, name, newName).1)
  {
    if MatchAt(s, at, name) { WordsAt(s, at, name); }
  }

  lemma FlatRenamed(ps: seq<Piece>, name: string, newName: string)
    requires ps != []
    ensures Flat(RenameAll(ps, name, newName)) ==
            Text(Renamed(ps[0], name, newName)) + Flat(RenameAll(ps[1..], name, newName))
  {
    hide Renamed;
    var r := RenameAll(ps, name, newName);
    assert r[1..] == RenameAll(ps[1..], name, newName);
  }

  lemma ScanEnd(s: string, at: nat, name: string, newName: string)
    requires StandsAt(s, at, []) && name != ""
    ensures Scan(s, at, name, newName) == ("", 0)
  {
    hide Pieces;
    assert at == |s|;
  }

  lemma {:induction false} ScanRenames(s: string, at: nat, ps: seq<Piece>, name: string, newName: string)
    requires StandsAt(s, at, ps) && name != "" && AllWord(name)
    ensures at <= |s| && Scan(s, at, name, newName) == (Flat(RenameAll(ps, name, newName)), RunCount(ps, name))
    decreases |ps|
  {
    hide Scan, AllWord, RunAt, Pieces;
    if ps == [] {
      ScanEnd(s, at, name, newName);
    } else {
      FlatRenamed(ps, name, newName);
      HeadStands(s, at, ps);
      hide StandsAt, Flat, RenameAll;
      if ps[0].Run? { ScanRun(s, at, ps[0].text, name, newName); } else { ScanOther(s, at, name, newName); }
      ScanRenames(s, at + |Text(ps[0])|, ps[1..], name, newName);
    }
  }

  /** The boundary-guarded scan is the renaming of maximal runs, and counts them. */
  lemma SubnRenamesRuns(s: string, name: string, newName: string)
    requires name != "" && AllWord(name)
    ensures Scan(s, 0, name, newName) == (Flat(RenameAll(Tokens(s), name, newName)), RunCount(Tokens(s), name))
  {
    assert s[0..] == s;
    ScanRenames(s, 0, Tokens(s), name, newName);
  }

  // ---- what a renamed text looks like ---------------------------------------------------------

  lemma FlatEmpty(ps: seq<Piece>)
    requires Pieces(ps)
    ensures Flat(ps) == "" <==> ps == []
  {
    if ps != [] { assert Proper(ps[0]); }
  }

  lemma SameHead(a: seq<Piece>, b: seq<Piece>)
    requires a != [] && b != [] && Pieces(a) && Pieces(b) && Flat(a) == Flat(b)
    ensures a[0] == b[0]
  {
    assert Proper(a[0]) && Proper(b[0]);
    assert Flat(a)[0] == Text(a[0])[0] && Flat(b)[0] == Text(b[0])[0];
    assert Flat(a)[0..] == Flat(a);
    if a[0].Run? && b[0].Run? {
      HeadStands(Flat(a), 0, a);
      HeadStands(Flat(a), 0, b);
      RunMatches(Flat(a), 0, a[0].text, b[0].text);
    }
  }

  /** A text has one tokenization. */
  lemma {:induction false} TokensUnique(a: seq<Piece>, b: seq<Piece>)
    requires Pieces(a) && Pieces(b) && Flat(a) == Flat(b)
    ensures a == b
    decreases |a|
  {
    FlatEmpty(a);
    FlatEmpty(b);
    if a != [] {
      SameHead(a, b);
      assert Flat(a[1..]) == Flat(a)[|Text(a[0])|..];
      assert Flat(b[1..]) == Flat(b)[|Text(b[0])|..];
      TokensUnique(a[1..], b[1..]);
      assert a == [a[0]] + a[1..] && b == [b[0]] + b[1..];
    }
  }

  lemma RenamedPieces(ps: seq<Piece>, name: string, newName: string)
    requires Pieces(ps) && IsIdentifier(newName)
    ensures Pieces(RenameAll(ps, name, newName))
  {
    var r := RenameAll(ps, name, newName);
    RenameAllAt(ps, name, newName);
    forall i | 0 <= i < |r| ensures Proper(r[i]) { assert Proper(ps[i]); }
    forall i | 0 < i < |r| ensures !(r[i - 1].Run? && r[i].Run?) { assert !(ps[i - 1].Run? && ps[i].Run?); }
  }

  lemma {:induction false} RenamedCounts(ps: seq<Piece>, name: string, newName: string)
    requires name != newName
    ensures RunCount(RenameAll(ps, name, newName), name) == 0
    ensures RunCount(RenameAll(ps, name, newName), newName) == RunCount(ps, newName) + RunCount(ps, name)
  {
    if ps != [] { RenamedCounts(ps[1..], name, newName); }
  }

  lemma {:induction false} RenameBack(ps: seq<Piece>, name: string, newName: string)
    requires RunCount(ps, newName) == 0
    ensures RenameAll(RenameAll(ps, name, newName), newName, name) == ps
  {
    if ps != [] {
      RenameBack(ps[1..], name, newName);
      assert ps == [ps[0]] + ps[1..];
    }
  }

  lemma TokensOfRenamed(s: string, name: string, newName: string)
    requires IsIdentifier(name) && IsIdentifier(newName)
    ensures Tokens(Scan(s, 0, name, newName).0) == RenameAll(Tokens(s), name, newName)
  {
    SubnRenamesRuns(s, name, newName);
    RenamedPieces(Tokens(s), name, newName);
    TokensUnique(Tokens(Scan(s, 0, name, newName).0), RenameAll(Tokens(s), name, newName));
  }

  /** After the rename no run equals the old name, and every old run has become a new one, in its place. */
  lemma NoOldRunRemains(s: string, name: string, newName: string)
    requires IsIdentifier(name) && IsIdentifier(newName) && name != newName
    ensures var (after, replacements) := Scan(s, 0, name, newName);
            && RunCount(Tokens(after), name) == 0
            && RunCount(Tokens(after), newName) == RunCount(Tokens(s), newName) + replacements
            && |Tokens(after)| == |Tokens(s)|
            && forall i :: 0 <= i < |Tokens(s)| ==> Tokens(after)[i] == Renamed(Tokens(s)[i], name, newName)
  {
    SubnRenamesRuns(s, name, newName);
    TokensOfRenamed(s, name, newName);
    RenameAllAt(Tokens(s), name, newName);
    RenamedCounts(Tokens(s), name, newName);
  }

  /** Renaming back restores the text exactly when the new name was not already there. */
  lemma RenamingBackRestores(s: string, name: string, newName: string)
    requires IsIdentifier(name) && IsIdentifier(newName) && name != newName
    ensures Scan(Scan(s, 0, name, newName).0, 0, newName, name).0 == s <==> RunCount(Tokens(s), newName) == 0
  {
    var after := Scan(s, 0, name, newName).0;
    TokensOfRenamed(s, name, newName);
    SubnRenamesRuns(after, newName, name);
    if RunCount(Tokens(s), newName) == 0 {
      RenameBack(Tokens(s), name, newName);
    } else {
      TokensOfRenamed(after, newName, name);
      RenamedCounts(Tokens(after), newName, name);
    }
  }

  // ---- the adapter -----------------------------------------------------------------------------

  /** A rejection leaves the file as it was found; a restore that fails leaves it in any state. */
  datatype Rejection = Rejected | NotRestored

  datatype WriteFault = Fine | Broken(left: string)

  function After(text: string, fault: WriteFault): string { if fault.Fine? then text else fault.left }

  /**
    `bound`: session and proposal match the trusted policy and the worktree is clean.  `bounded`, `before`,
    `oldAfter` and `newAfter` are what parsing says: one bounded SELECT before and after, and its references
    to the two names.  `compiles`: only this file changed and both schema variants compile.
   */
  datatype Outside = Outside(
    bound: bool, bounded: bool, before: nat, oldAfter: nat, newAfter: nat,
    write: WriteFault, compiles: bool, restore: WriteFault)

  /** What must hold before the file is written: `snapshot` is the content the proposal was made for. */
  predicate MayWrite(sql: string, snapshot: string, name: string, newName: string, expected: int, outside: Outside) {
    && outside.bound && sql == snapshot
    && IsIdentifier(name) && IsIdentifier(newName) && outside.bounded
    && expected > 0 && outside.before == expected && RunCount(Tokens(sql), name) == expected
    && outside.oldAfter == 0 && outside.newAfter >= expected
  }

  class DbtSqlParticipant {
    var sql: string

    constructor (sql: string)
      ensures this.sql == sql
    {
      this.sql := sql;
    }

    /** The file is renamed as a whole, with exactly the expected replacements, or restored. */
    method Prepare(snapshot: string, name: string, newName: string, expected: int, outside: Outside)
      returns (r: Result<nat, Rejection>)
      requires name != newName
      modifies this
      ensures r == Failure(Rejected) ==> sql == old(sql)
      ensures r.Success? <==>
              MayWrite(old(sql), snapshot, name, newName, expected, outside) && outside.write.Fine? && outside.compiles
      ensures r.Success? ==>
                && r.value == expected
                && Tokens(sql) == RenameAll(Tokens(old(sql)), name, newName)
                && RunCount(Tokens(sql), name) == 0
      ensures r == Failure(NotRestored) <==>
              && MayWrite(old(sql), snapshot, name, newName, expected, outside)
              && !(outside.write.Fine? && outside.compiles) && outside.restore.Broken?
    {
      if !outside.bound || !IsIdentifier(name) || !IsIdentifier(newName) { return Failure(Rejected); }
      if sql != snapshot || !outside.bounded { return Failure(Rejected); }
      if expected <= 0 || outside.before != expected { return Failure(Rejected); }
      SubnRenamesRuns(sql, name, newName);
      TokensOfRenamed(sql, name, newName);
      RenamedCounts(Tokens(sql), name, newName);
      var after, replacements := Subn(sql, name, newName);
      if replacements != expected { return Failure(Rejected); }
      if outside.oldAfter != 0 || outside.newAfter < expected { return Failure(Rejected); }
      var before := sql;
      sql := After(after, outside.write);
      if !outside.write.Fine? || !outside.compiles {
        sql := After(before, outside.restore);
        return Failure(if outside.restore.Fine? then Rejected else NotRestored);
      }
      r := Success(replacements);
    }
  }
}
