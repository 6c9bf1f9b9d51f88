// The identity commands as they run, on a machine that may stop before any write: each
// makes the writes of RotationFiles in order, as far as it gets.
module RotationConsole {
  import opened RotationFiles

  function Min(a: nat, b: nat): nat {
    if a < b then a else b
  }

  // What became of a list of writes when only left of them could be made.
  predicate Ran(d: Disk, left: nat, ws: seq<Write>, d': Disk, left': nat, done: bool) {
    && d' == Exec(d, ws[..Min(left, |ws|)])
    && left' == left - Min(left, |ws|)
    && (done <==> |ws| <= left)
  }

  lemma RanThen(d: Disk, left: nat, a: seq<Write>, d': Disk, left': nat,
                b: seq<Write>, d'': Disk, left'': nat, done: bool)
    requires Ran(d, left, a, d', left', true) && Ran(d', left', b, d'', left'', done)
    ensures Ran(d, left, a + b, d'', left'', done)
  {
    assert a[..|a|] == a;
    var n := Min(left', |b|);
    assert (a + b)[..|a| + n] == a + b[..n];
    ExecAppend(d, a, b[..n]);
  }

  lemma RanShort(d: Disk, left: nat, a: seq<Write>, d': Disk, left': nat, b: seq<Write>)
    requires Ran(d, left, a, d', left', false)
    ensures Ran(d, left, a + b, d', left', false)
  {
    assert (a + b)[..left] == a[..left];
  }

  lemma RanIsStopped(d: Disk, left: nat, c: Command, d': Disk, left': nat, done: bool)
    requires Ran(d, left, Writes(d, c), d', left', done)
    ensures d' == Stopped(d, Attempt(c, left))
  {
    assert Writes(d, c)[..|Writes(d, c)|] == Writes(d, c);
  }

  class Console {
    var disk: Disk
    var left: nat

    constructor (disk: Disk, left: nat)
      ensures this.disk == disk && this.left == left
    {
      this.disk, this.left := disk, left;
    }

    method Do(w: Write) returns (done: bool)
      modifies this
      ensures Ran(old(disk), old(left), [w], disk, left, done)
    {
      assert [w][1..] == [];
      assert [w][..1] == [w];
      if left == 0 {
        return false;
      }
      disk, left := Apply(disk, w), left - 1;
      return true;
    }

    method FinishNewRecovery(id: Identity) returns (done: bool)
      modifies this
      ensures Ran(old(disk), old(left), Finish(old(disk), id), disk, left, done)
    {
      if disk.new_.Absent? {
        return true;
      }
      if disk.new_.Recovery? && disk.new_.states == id.keySeq + 1
         && KeyOf(disk.new_.seed, disk.new_.states) == id.commitment {
        done := Do(RenameNew);
      } else {
        done := Do(RemoveNew);
      }
    }

    // done is whether every write was made; the command reports an error when one was
    // not, or when the rotation failed.
    method RotateTo(id: Identity, seed: Seed, newFile: bool, rotates: bool) returns (done: bool)
      modifies this
      ensures Ran(old(disk), old(left), RotateOnce(id, seed, newFile, rotates), disk, left, done)
    {
      hide Ran;
      ghost var ws := RotateOnce(id, seed, newFile, rotates);
      done := true;
      NothingRan(disk, left);
      ghost var made: seq<Write> := [];
      if newFile {
        done := Do(WriteNew(Recovery(seed, id.keySeq + 2)));
        made := [WriteNew(Recovery(seed, id.keySeq + 2))];
        if !done {
          RanShort(old(disk), old(left), made, disk, left, ws[1..]);
          assert ws == made + ws[1..];
          return;
        }
      }
      if !rotates {
        if newFile {
          ghost var d, l := disk, left;
          done := Do(RemoveNew);
          RanThen(old(disk), old(left), made, d, l, [RemoveNew], disk, left, done);
          assert ws == made + [RemoveNew];
        }
        return;
      }
      ghost var d, l := disk, left;
      var save := SaveIdentity(Rotated(id, seed));
      done := Do(save);
      RanThen(old(disk), old(left), made, d, l, [save], disk, left, done);
      made := made + [save];
      if !newFile {
        assert ws == made;
        return;
      }
      if !done {
        RanShort(old(disk), old(left), made, disk, left, [RenameNew]);
        assert ws == made + [RenameNew];
        return;
      }
      d, l := disk, left;
      done := Do(RenameNew);
      RanThen(old(disk), old(left), made, d, l, [RenameNew], disk, left, done);
      assert ws == made + [RenameNew];
    }

    lemma NothingRan(d: Disk, left: nat)
      ensures Ran(d, left, [], d, left, true)
    {
    }

    // rotate, with the recovery file it has.
    method RunRotate(rotates: bool) returns (done: bool)
      modifies this
      ensures Ran(old(disk), old(left), Writes(old(disk), Rotate(rotates)), disk, left, done)
      ensures disk == Stopped(old(disk), Attempt(Rotate(rotates), old(left)))
      ensures Safe(old(disk)) ==> Safe(disk)
    {
      ghost var c := Rotate(rotates);
      done := TryRotate(rotates);
      RanIsStopped(old(disk), old(left), c, disk, left, done);
      if Safe(old(disk)) {
        CommandSafe(old(disk), Attempt(c, old(left)));
      }
    }

    method TryRotate(rotates: bool) returns (done: bool)
      modifies this
      ensures Ran(old(disk), old(left), RotateWrites(old(disk), rotates), disk, left, done)
    {
      hide Ran;
      if disk.saved.None? || !RecoverySet(disk.saved.value) {
        NothingRan(disk, left);
        return true;
      }
      var id := disk.saved.value;
      ghost var finish := Finish(disk, id);
      done := FinishNewRecovery(id);
      if !done {
        RanShort(old(disk), old(left), finish, disk, left, RotateWrites(old(disk), rotates)[|finish|..]);
        assert RotateWrites(old(disk), rotates) == finish + RotateWrites(old(disk), rotates)[|finish|..];
        return;
      }
      RanAll(old(disk), old(left), finish, disk, left);
      var seed := Open(disk.path, id);
      if seed.None? {
        return;
      }
      ghost var d, l := disk, left;
      done := RotateTo(id, seed.value, false, rotates);
      RanThen(old(disk), old(left), finish, d, l, RotateOnce(id, seed.value, false, rotates), disk, left, done);
    }

    // rotate --new-recovery: twice, to a new seed.
    method RunRenew(seed: Seed, first: bool, second: bool) returns (done: bool)
      modifies this
      ensures disk == Stopped(old(disk), Attempt(Renew(seed, first, second), old(left)))
      ensures Safe(old(disk)) ==> Safe(disk)
    {
      ghost var c := Renew(seed, first, second);
      done := TryRenew(seed, first, second);
      RanIsStopped(old(disk), old(left), c, disk, left, done);
      if Safe(old(disk)) {
        CommandSafe(old(disk), Attempt(c, old(left)));
      }
    }

    method TryRenew(seed: Seed, first: bool, second: bool) returns (done: bool)
      modifies this
      ensures Ran(old(disk), old(left), RenewWrites(old(disk), seed, first, second), disk, left, done)
    {
      hide Ran;
      if disk.saved.None? || !RecoverySet(disk.saved.value) {
        NothingRan(disk, left);
        return true;
      }
      var id := disk.saved.value;
      ghost var ws, made := RenewWrites(disk, seed, first, second), Finish(disk, id);
      done := FinishNewRecovery(id);
      if !done {
        RanShort(old(disk), old(left), made, disk, left, ws[|made|..]);
        assert ws == made + ws[|made|..];
        return;
      }
      RanAll(old(disk), old(left), made, disk, left);
      if Open(disk.path, id).None? {
        return;
      }
      ghost var d, l := disk, left;
      done := RotateTo(id, seed, true, first);
      RanThen(old(disk), old(left), made, d, l, RotateOnce(id, seed, true, first), disk, left, done);
      made := made + RotateOnce(id, seed, true, first);
      if !first {
        return;
      }
      if !done {
        RanShort(old(disk), old(left), made, disk, left, RotateOnce(Rotated(id, seed), seed, true, second));
        return;
      }
      d, l := disk, left;
      done := RotateTo(Rotated(id, seed), seed, true, second);
      RanThen(old(disk), old(left), made, d, l, RotateOnce(Rotated(id, seed), seed, true, second), disk, left, done);
    }

    method RunSetupRecovery(seed: Seed, given: bool, rotates: bool) returns (done: bool)
      modifies this
      ensures disk == Stopped(old(disk), Attempt(Setup(seed, given, rotates), old(left)))
      ensures Safe(old(disk)) ==> Safe(disk)
    {
      ghost var c := Setup(seed, given, rotates);
      done := TrySetup(seed, given, rotates);
      RanIsStopped(old(disk), old(left), c, disk, left, done);
      if Safe(old(disk)) {
        CommandSafe(old(disk), Attempt(c, old(left)));
      }
    }

    method TrySetup(seed: Seed, given: bool, rotates: bool) returns (done: bool)
      modifies this
      ensures Ran(old(disk), old(left), SetupWrites(old(disk), seed, given, rotates), disk, left, done)
    {
      hide Ran;
      var newHub := disk.saved.None?;
      var id := if newHub then Identity(0, HotKey) else disk.saved.value;
      if !RecoverySet(id) && given && !disk.path.Absent? {
        NothingRan(disk, left);
        return true;
      }
      ghost var ws, made := SetupWrites(disk, seed, given, rotates), Finish(disk, id);
      done := FinishNewRecovery(id);
      if !done {
        RanShort(old(disk), old(left), made, disk, left, ws[|made|..]);
        assert ws == made + ws[|made|..];
        return;
      }
      RanAll(old(disk), old(left), made, disk, left);
      if RecoverySet(id) || !disk.path.Absent? {
        return;
      }
      ghost var d, l := disk, left;
      if newHub {
        done := Do(SaveIdentity(id));
        RanThen(old(disk), old(left), made, d, l, [SaveIdentity(id)], disk, left, done);
        made := made + [SaveIdentity(id)];
        if !done {
          RanShort(old(disk), old(left), made, disk, left, RotateOnce(id, seed, true, rotates));
          return;
        }
      } else {
        assert made + [] == made;
      }
      d, l := disk, left;
      done := RotateTo(id, seed, true, rotates);
      RanThen(old(disk), old(left), made, d, l, RotateOnce(id, seed, true, rotates), disk, left, done);
    }

    lemma RanAll(d: Disk, left: nat, ws: seq<Write>, d': Disk, left': nat)
      requires Ran(d, left, ws, d', left', true)
      ensures d' == Exec(d, ws)
    {
      assert ws[..|ws|] == ws;
    }
  }
}
