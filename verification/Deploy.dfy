/**
  The installation of `deploy-workspace-harbor`: files are staged, the originals backed up, the
  staged files moved into place and verified; any ordinary exception rolls the replaced files back.
 */
module Deploy {
  import opened Wrappers

  datatype File = File(bytes: seq<char>, mode: nat)

  const EXECUTABLE_MODE: nat := 0x1ED   // 0755
  const MODULE_MODE: nat := 0x1A4       // 0644

  /** The regular files of a directory by name. */
  type Directory = map<string, File>

  /** What is to be installed. */
  datatype Release = Release(executables: seq<string>, modules: seq<string>, contents: map<string, seq<char>>)

  function Names(r: Release): seq<string> {
    r.executables + r.modules
  }

  predicate Complete(r: Release) {
    forall n | n in Names(r) :: n in r.contents
  }

  function Expected(r: Release, name: string): File
    requires name in r.contents
  {
    File(r.contents[name], if name in r.executables then EXECUTABLE_MODE else MODULE_MODE)
  }

  /** Which steps raise: staging, the backup after so many copies, a replacement, a verification. */
  datatype Faults = Faults(staging: bool, backup: Option<nat>, replace: Option<nat>, verify: Option<nat>)

  predicate RaisesBefore(fault: Option<nat>, count: nat) {
    fault.Some? && fault.value < count
  }

  /** The names that are files of the destination. */
  function Originals(destination: Directory, names: seq<string>): set<string> {
    set n | n in names && n in destination
  }

  // ---------------------------------------------------------------------------------
  // Replacing and rolling back
  // ---------------------------------------------------------------------------------

  /** Moves staged files into place, one after another, until one move raises; a moved file is gone
      from the stage. Yields the destination and how many were replaced. */
  function Replace(destination: Directory, stage: Directory, names: seq<string>, fault: Option<nat>): (Directory, nat)
    decreases |names|
  {
    if names == [] || fault == Some(0) || names[0] !in stage then (destination, 0)
    else
      var next := if fault.Some? then Some(fault.value - 1) else None;
      var (d, k) := Replace(destination[names[0] := stage[names[0]]], stage - {names[0]}, names[1..], next);
      (d, k + 1)
  }

  /** Undoes the replacement of one name. */
  function Restore(destination: Directory, backups: Directory, originals: set<string>, name: string): Directory {
    if name in originals && name in backups then destination[name := backups[name]] else destination - {name}
  }

  /** `for name in reversed(replaced)`. */
  function Rollback(destination: Directory, backups: Directory, originals: set<string>, replaced: seq<string>): Directory
    decreases |replaced|
  {
    if replaced == [] then destination
    else Restore(Rollback(destination, backups, originals, replaced[1..]), backups, originals, replaced[0])
  }

  /** A destination that differs from the original one at most in some names. */
  predicate SameOutside(a: Directory, b: Directory, names: set<string>) {
    && (forall n | n in a && n !in names :: n in b && b[n] == a[n])
    && (forall n | n in b && n !in names :: n in a)
  }

  lemma {:induction false} ReplaceTouchesThePrefix(destination: Directory, stage: Directory, names: seq<string>, fault: Option<nat>)
    ensures
      var (d, k) := Replace(destination, stage, names, fault);
      && k <= |names| && SameOutside(destination, d, set i | 0 <= i < k :: names[i])
      && (forall i | 0 <= i < k :: names[i] in stage)
    decreases |names|
  {
    if names != [] && fault != Some(0) && names[0] in stage {
      var next := if fault.Some? then Some(fault.value - 1) else None;
      var d1 := destination[names[0] := stage[names[0]]];
      ReplaceTouchesThePrefix(d1, stage - {names[0]}, names[1..], next);
      var (d, k) := Replace(d1, stage - {names[0]}, names[1..], next);
      var tail, all := set i | 0 <= i < k :: names[1..][i], set i | 0 <= i < k + 1 :: names[i];
      forall n | n in tail ensures n in all {
        var i :| 0 <= i < k && names[1..][i] == n;
        assert names[i + 1] == n;
      }
      assert names[0] in all;
      assert forall i | 0 < i < k + 1 :: names[i] == names[1..][i - 1];
    }
  }

  /** The backups of these names hold what the files were. */
  predicate BackedUp(was: Directory, backups: Directory, names: set<string>) {
    forall n | n in names && n in was :: n in backups && backups[n] == was[n]
  }

  lemma {:induction false} RollbackAt(now: Directory, backups: Directory, originals: set<string>, replaced: seq<string>)
    ensures
      var back := Rollback(now, backups, originals, replaced);
      && (forall n | n in replaced ::
            && (n in back <==> n in originals && n in backups)
            && (n in back ==> back[n] == backups[n]))
      && (forall n | n !in replaced :: (n in back <==> n in now) && (n in now ==> back[n] == now[n]))
    decreases |replaced|
  {
    if replaced != [] {
      RollbackAt(now, backups, originals, replaced[1..]);
      assert forall n | n in replaced :: n == replaced[0] || n in replaced[1..];
    }
  }

  /**
    Restoring every replaced name brings back the directory as it was exactly when the backups of the
    replaced originals hold what those files were.
   */
  lemma {:induction false} RollbackRestores(was: Directory, now: Directory, backups: Directory, originals: set<string>,
                                            replaced: seq<string>)
    requires forall n | n in replaced :: n in originals <==> n in was
    requires SameOutside(was, now, set n | n in replaced)
    ensures Rollback(now, backups, originals, replaced) == was <==> BackedUp(was, backups, set n | n in replaced)
  {
    RollbackAt(now, backups, originals, replaced);
    var back := Rollback(now, backups, originals, replaced);
    if BackedUp(was, backups, set n | n in replaced) {
      forall n ensures (n in back <==> n in was) && (n in was ==> back[n] == was[n]) {
        if n !in replaced {
          assert n in was <==> n in now;
        }
      }
      assert back == was;
    }
  }

  /** Rolling back undoes any replacement, whichever move raised, from complete backups. */
  lemma {:induction false} RollbackUndoesReplace(destination: Directory, stage: Directory, names: seq<string>, fault: Option<nat>,
                                                 backups: Directory)
    requires BackedUp(destination, backups, Originals(destination, names))
    ensures
      var (d, k) := Replace(destination, stage, names, fault);
      k <= |names| && Rollback(d, backups, Originals(destination, names), names[..k]) == destination
  {
    ReplaceTouchesThePrefix(destination, stage, names, fault);
    var (d, k) := Replace(destination, stage, names, fault);
    assert (set i | 0 <= i < k :: names[i]) == (set n | n in names[..k]);
    RollbackRestores(destination, d, backups, Originals(destination, names), names[..k]);
  }

  predicate Distinct(names: seq<string>) {
    forall i, j | 0 <= i < j < |names| :: names[i] != names[j]
  }

  /** Everything is replaced exactly when nothing raises, every name is staged and none comes twice. */
  lemma {:induction false} ReplacesAll(destination: Directory, stage: Directory, names: seq<string>, fault: Option<nat>)
    ensures
      var (d, k) := Replace(destination, stage, names, fault);
      && (k == |names| <==> !RaisesBefore(fault, |names|) && Distinct(names) && forall n | n in names :: n in stage)
      && (k == |names| ==> forall n | n in names :: n in d && d[n] == stage[n])
    decreases |names|
  {
    if names != [] {
      if fault != Some(0) && names[0] in stage {
        var next := if fault.Some? then Some(fault.value - 1) else None;
        var d1 := destination[names[0] := stage[names[0]]];
        ReplacesAll(d1, stage - {names[0]}, names[1..], next);
        ReplaceTouchesThePrefix(d1, stage - {names[0]}, names[1..], next);
        assert names == [names[0]] + names[1..];
        DistinctHead(names);
        assert (forall n | n in names[1..] :: n in stage - {names[0]})
          <==> (names[0] !in names[1..] && forall n | n in names[1..] :: n in stage);
      } else {
        assert names[0] in names;
      }
    }
  }

  lemma DistinctHead(names: seq<string>)
    requires names != []
    ensures Distinct(names) <==> (names[0] !in names[1..] && Distinct(names[1..]))
  {
  }

  // ---------------------------------------------------------------------------------
  // The installation
  // ---------------------------------------------------------------------------------

  /** The deployment that succeeds: no step raises, and what was staged is what is expected. */
  ghost predicate Sound(r: Release, destination: Directory, stage: Directory, faults: Faults) {
    && !faults.staging
    && !RaisesBefore(faults.backup, |Originals(destination, Names(r))|)
    && !RaisesBefore(faults.replace, |Names(r)|) && !RaisesBefore(faults.verify, |Names(r)|)
    && Distinct(Names(r)) && Complete(r)
    && (forall n | n in Names(r) :: n in stage && AsReleased(r, n, stage[n]))
  }

  /** The released bytes, with mode 0755 for an executable and 0644 for a module. */
  predicate AsReleased(r: Release, name: string, file: File)
    requires name in r.contents
  {
    file.bytes == r.contents[name] && file.mode == if name in r.executables then 0x1ED else 0x1A4
  }

  class Installation {
    var destination: Directory
    var backups: Directory

    /** The backup directory carries a fresh timestamp, so it starts empty. */
    constructor (destination: Directory)
      ensures this.destination == destination && backups == map[]
    {
      this.destination, backups := destination, map[];
    }

    /** `stage` holds what staging left on disk; verification is what compares it with the release. */
    method Install(r: Release, pythonAvailable: bool, dryRun: bool, stage: Directory, faults: Faults)
      returns (code: nat)
      requires backups == map[]
      modifies this
      ensures code == 2 <==> !(Complete(r) && pythonAvailable)
      ensures code != 0 || dryRun ==> destination == old(destination)
      ensures code != 2 && !dryRun ==> (code == 0 <==> Sound(r, old(destination), stage, faults))
      ensures code == 0 && !dryRun ==>
                && (forall n | n in Names(r) :: n in destination && AsReleased(r, n, destination[n]))
                && SameOutside(old(destination), destination, set n | n in Names(r))
                && backups.Keys == Originals(old(destination), Names(r))
                && BackedUp(old(destination), backups, Originals(old(destination), Names(r)))
      ensures code in {0, 1, 2}
    {
      var names := Names(r);
      if !Complete(r) || !pythonAvailable { return 2; }
      if dryRun { return 0; }
      if faults.staging { return 1; }
      ghost var was := destination;
      var originals := Originals(destination, names);
      var backedUp := BackUp(originals, faults.backup);
      if !backedUp { return 1; }
      var replaced := MoveIntoPlace(names, stage, faults.replace);
      ReplacesAll(was, stage, names, faults.replace);
      var verified := false;
      if |replaced| == |names| {
        verified := Verify(r, faults.verify);
      }
      if !verified {
        UndoReplacements(originals, replaced);
        RollbackUndoesReplace(was, stage, names, faults.replace, backups);
        return 1;
      }
      ReplaceTouchesThePrefix(was, stage, names, faults.replace);
      assert replaced == names;
      assert (set i | 0 <= i < |names| :: names[i]) == (set n | n in names);
      code := 0;
    }

    /** Copies the originals into the backup directory, in some order, until a copy raises. */
    method BackUp(originals: set<string>, fault: Option<nat>) returns (ok: bool)
      requires originals <= destination.Keys && backups == map[]
      modifies this`backups
      ensures ok <==> !RaisesBefore(fault, |originals|)
      ensures backups.Keys <= originals && forall n | n in backups :: backups[n] == destination[n]
      ensures ok ==> backups.Keys == originals
    {
      var todo := originals;
      var copied := 0;
      while todo != {}
        invariant todo <= originals && backups.Keys == originals - todo
        invariant forall n | n in backups :: backups[n] == destination[n]
        invariant copied + |todo| == |originals| && !RaisesBefore(fault, copied)
        decreases |todo|
      {
        if fault == Some(copied) { return false; }
        var name :| name in todo;
        backups := backups[name := destination[name]];
        todo := todo - {name};
        copied := copied + 1;
      }
      ok := true;
    }

    method MoveIntoPlace(names: seq<string>, stage: Directory, fault: Option<nat>) returns (replaced: seq<string>)
      modifies this`destination
      ensures destination == Replace(old(destination), stage, names, fault).0
      ensures |replaced| == Replace(old(destination), stage, names, fault).1 <= |names| && replaced == names[..|replaced|]
    {
      var staged, left := stage, fault;
      replaced := [];
      var i := 0;
      while i < |names|
        invariant 0 <= i <= |names| && replaced == names[..i]
        invariant
          var (d, k) := Replace(old(destination), stage, names, fault);
          var (d', k') := Replace(destination, staged, names[i..], left);
          d == d' && k == k' + i
      {
        assert names[i..][1..] == names[i + 1..];
        if left == Some(0) || names[i] !in staged { return; }
        destination := destination[names[i] := staged[names[i]]];
        staged := staged - {names[i]};
        left := if left.Some? then Some(left.value - 1) else None;
        replaced := replaced + [names[i]];
        i := i + 1;
      }
    }

    /** Compares every deployed file with the release. */
    method Verify(r: Release, fault: Option<nat>) returns (ok: bool)
      requires Complete(r) && forall n | n in Names(r) :: n in destination
      ensures ok <==> (!RaisesBefore(fault, |Names(r)|) && forall n | n in Names(r) :: AsReleased(r, n, destination[n]))
    {
      var names := Names(r);
      for i := 0 to |names|
        invariant !RaisesBefore(fault, i) && forall j | 0 <= j < i :: AsReleased(r, names[j], destination[names[j]])
      {
        if fault == Some(i) { return false; }
        if destination[names[i]] != Expected(r, names[i]) { return false; }
      }
      ok := true;
    }

    method UndoReplacements(originals: set<string>, replaced: seq<string>)
      modifies this`destination
      ensures destination == Rollback(old(destination), backups, originals, replaced)
    {
      var i := |replaced|;
      assert replaced[i..] == [];
      while i > 0
        invariant 0 <= i <= |replaced|
        invariant destination == Rollback(old(destination), backups, originals, replaced[i..])
      {
        i := i - 1;
        assert replaced[i..][1..] == replaced[i + 1..];
        destination := Restore(destination, backups, originals, replaced[i]);
      }
      assert replaced[0..] == replaced;
    }
  }
}
