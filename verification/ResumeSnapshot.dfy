/**
  The signed approval snapshot across a resume: staged outside the work root before the reset wipes it,
  restored after.  Renames are atomic; the process may die between any two effects.
 */
module ResumeSnapshot {
  import opened Wrappers

  /** The two places a snapshot can be, by contents. */
  datatype Disk = Disk(active: Option<string>, staged: Option<string>)

  datatype ResumeError = ResumeSnapshotError

  /** `_stage_resume_snapshot_for_reset`; `valid` is the signature check. */
  function Staged(d: Disk, valid: string -> bool): Result<Disk, ResumeError> {
    if d.active.Some? && d.staged.Some? then Failure(ResumeSnapshotError)
    else
      var source := if d.active.Some? then d.active else d.staged;
      if source.None? || !valid(source.value) then Failure(ResumeSnapshotError)
      else Success(if d.active.Some? then Disk(None, d.active) else d)
  }

  /** `_restore_staged_resume_snapshot`. */
  function Restored(d: Disk): Result<Disk, ResumeError> {
    if d.staged.None? || d.active.Some? then Failure(ResumeSnapshotError) else Success(Disk(d.staged, None))
  }

  /**
    How far one attempt gets: the number of disk effects it performs before it dies (any number it never
    reaches lets it finish), and whether everything between restore and cleanup succeeds.
   */
  datatype Attempt = Attempt(effects: nat, proceeds: bool)

  /** The disk after one resume attempt, and whether its final cleanup began. */
  function AfterResume(d: Disk, valid: string -> bool, a: Attempt): (Disk, bool) {
    if a.effects == 0 || Staged(d, valid).Failure? then (d, false)
    else
      var d1 := Staged(d, valid).value;
      if a.effects == 1 then (d1, false)
      else
        var d2 := d1.(active := None);
        if a.effects == 2 || Restored(d2).Failure? then (d2, false)
        else
          var d3 := Restored(d2).value;
          if a.effects == 3 || !a.proceeds then (d3, false)
          else if a.effects == 4 then (Disk(None, d3.staged), true)
          else (Disk(None, None), true)
  }

  class WorkRoot {
    var active: Option<string>
    var staged: Option<string>

    ghost function Contents(): Disk
      reads this
    {
      Disk(active, staged)
    }

    constructor (active: Option<string>, staged: Option<string>)
      ensures Contents() == Disk(active, staged)
    {
      this.active, this.staged := active, staged;
    }

    method StageForReset(valid: string -> bool) returns (r: Result<string, ResumeError>)
      modifies this
      ensures r.Success? <==> Staged(old(Contents()), valid).Success?
      ensures Contents() == if r.Success? then Staged(old(Contents()), valid).value else old(Contents())
      ensures r.Success? ==> staged == Some(r.value) && valid(r.value)
    {
      if active.Some? && staged.Some? { return Failure(ResumeSnapshotError); }
      var source := if active.Some? then active else staged;
      if source.None? || !valid(source.value) { return Failure(ResumeSnapshotError); }
      if active.Some? { active, staged := None, active; }
      r := Success(source.value);
    }

    method RestoreStaged() returns (r: Result<(), ResumeError>)
      modifies this
      ensures r.Success? <==> Restored(old(Contents())).Success?
      ensures Contents() == if r.Success? then Restored(old(Contents())).value else old(Contents())
    {
      if staged.None? || active.Some? { return Failure(ResumeSnapshotError); }
      active, staged := staged, None;
      r := Success(());
    }

    /** One resume attempt: `snapshot` is the approval state it works from, once it has read one. */
    method Resume(valid: string -> bool, a: Attempt) returns (snapshot: Option<string>, cleaning: bool)
      modifies this
      ensures (Contents(), cleaning) == AfterResume(old(Contents()), valid, a)
      ensures snapshot.Some? ==> valid(snapshot.value) && (old(active) == snapshot || old(staged) == snapshot)
    {
      snapshot, cleaning := None, false;
      if a.effects == 0 { return; }
      var stage := StageForReset(valid);
      if stage.Failure? { return; }
      snapshot := Some(stage.value);
      if a.effects == 1 { return; }
      active := None;
      if a.effects == 2 { return; }
      var restore := RestoreStaged();
      if restore.Failure? { return; }
      if a.effects == 3 || !a.proceeds { return; }
      cleaning := true;
      active := None;
      if a.effects == 4 { return; }
      staged := None;
    }

    /** Attempt after attempt, until one begins its cleanup. */
    method ResumeUntilCleanup(valid: string -> bool, attempts: seq<Attempt>, ghost s: string) returns (cleaning: bool)
      requires OneCopy(Contents(), s)
      modifies this
      ensures !cleaning ==> OneCopy(Contents(), s)
      ensures (Contents(), cleaning) == AfterAttempts(old(Contents()), valid, attempts)
    {
      cleaning := false;
      var i := 0;
      assert attempts[0..] == attempts;
      while i < |attempts|
        invariant 0 <= i <= |attempts| && OneCopy(Contents(), s)
        invariant AfterAttempts(old(Contents()), valid, attempts) == AfterAttempts(Contents(), valid, attempts[i..])
      {
        assert attempts[i..][1..] == attempts[i + 1..];
        if !AfterResume(Contents(), valid, attempts[i]).1 { NeverLost(Contents(), valid, attempts[i], s); }
        var snapshot;
        snapshot, cleaning := Resume(valid, attempts[i]);
        if cleaning { return; }
        i := i + 1;
      }
    }
  }

  /** Exactly one of the two places holds a snapshot, and it is `s`. */
  predicate OneCopy(d: Disk, s: string) { d == Disk(Some(s), None) || d == Disk(None, Some(s)) }

  function AfterAttempts(d: Disk, valid: string -> bool, attempts: seq<Attempt>): (Disk, bool)
    decreases |attempts|
  {
    if attempts == [] then (d, false)
    else
      var next := AfterResume(d, valid, attempts[0]);
      if next.1 then next else AfterAttempts(next.0, valid, attempts[1..])
  }

  /** Wherever one attempt dies before its cleanup, one copy with the same contents is left. */
  lemma NeverLost(d: Disk, valid: string -> bool, a: Attempt, s: string)
    requires OneCopy(d, s) && !AfterResume(d, valid, a).1
    ensures OneCopy(AfterResume(d, valid, a).0, s)
  {}

  /** Any number of attempts, each dying anywhere, never loses or duplicates the snapshot before a cleanup begins. */
  lemma {:induction false} NeverLostOverAttempts(d: Disk, valid: string -> bool, attempts: seq<Attempt>, s: string)
    requires OneCopy(d, s)
    ensures !AfterAttempts(d, valid, attempts).1 ==> OneCopy(AfterAttempts(d, valid, attempts).0, s)
    decreases |attempts|
  {
    if attempts != [] && !AfterResume(d, valid, attempts[0]).1 {
      NeverLost(d, valid, attempts[0], s);
      NeverLostOverAttempts(AfterResume(d, valid, attempts[0]).0, valid, attempts[1..], s);
    }
  }

  /** After any failed attempts, an attempt that runs through still finds its snapshot, and then leaves none. */
  lemma FinishesAfterFailures(d: Disk, valid: string -> bool, attempts: seq<Attempt>, last: Attempt, s: string)
    requires OneCopy(d, s) && valid(s) && !AfterAttempts(d, valid, attempts).1
    requires last.effects >= 5 && last.proceeds
    ensures AfterResume(AfterAttempts(d, valid, attempts).0, valid, last) == (Disk(None, None), true)
  {
    NeverLostOverAttempts(d, valid, attempts, s);
  }

  /** Staging goes ahead exactly on one validly signed copy; otherwise the attempt changes nothing. */
  lemma StagesExactlyOneCopy(d: Disk, valid: string -> bool, a: Attempt)
    ensures Staged(d, valid).Success? <==> exists s :: OneCopy(d, s) && valid(s)
    ensures Staged(d, valid).Failure? ==> AfterResume(d, valid, a) == (d, false)
  {
    if Staged(d, valid).Success? {
      var s := if d.active.Some? then d.active.value else d.staged.value;
      assert OneCopy(d, s) && valid(s);
    }
  }
}
