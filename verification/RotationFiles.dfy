// The hub identity and its recovery file through setup and rotations that may stop at
// any write (cmd/anet-hub/identity_ops.go). Each write to disk is one step: writing
// path.new, saving the identity, renaming path.new over path, removing path.new.
module RotationFiles {
  import opened Basics

  type Seed = nat

  // What an identity commits to for its next key: the key a recovery seed derives for a
  // seq, or, of an identity that was never rotated, its own hot key. Digests are
  // injective, so the seed and the seq stand for the digest.
  datatype Commitment = HotKey | KeyOf(seed: Seed, keySeq: nat)

  datatype Identity = Identity(keySeq: nat, commitment: Commitment)

  predicate RecoverySet(id: Identity) {
    id.commitment.KeyOf?
  }

  // A file: a recovery file of this identity sealing a seed and stating the key it
  // commits, something else, or none.
  datatype File = Absent | Other | Recovery(seed: Seed, states: nat)

  datatype Disk = Disk(path: File, new_: File, saved: Option<Identity>)

  datatype Write = WriteNew(file: File) | SaveIdentity(id: Identity) | RenameNew | RemoveNew

  function Apply(d: Disk, w: Write): Disk {
    match w
    case WriteNew(f) => d.(new_ := f)
    case SaveIdentity(id) => d.(saved := Some(id))
    case RenameNew => if d.new_.Absent? then d else d.(path := d.new_, new_ := Absent)
    case RemoveNew => d.(new_ := Absent)
  }

  function Exec(d: Disk, ws: seq<Write>): Disk
    decreases |ws|
  {
    if ws == [] then d else Exec(Apply(d, ws[0]), ws[1..])
  }

  // ---- the commands, as the writes they make ----

  // Whether a .new file states the key the identity commits to.
  predicate StatesCommitment(f: File, id: Identity) {
    f.Recovery? && f.states == id.keySeq + 1 && KeyOf(f.seed, f.states) == id.commitment
  }

  // finishNewRecovery.
  function Finish(d: Disk, id: Identity): seq<Write> {
    if d.new_.Absent? then []
    else if StatesCommitment(d.new_, id) then [RenameNew]
    else [RemoveNew]
  }

  function Rotated(id: Identity, seed: Seed): Identity {
    Identity(id.keySeq + 1, KeyOf(seed, id.keySeq + 2))
  }

  // rotateOnce; rotates is whether the rotation itself succeeds.
  function RotateOnce(id: Identity, seed: Seed, newFile: bool, rotates: bool): seq<Write> {
    var file := Recovery(seed, id.keySeq + 2);
    if !rotates then (if newFile then [WriteNew(file), RemoveNew] else [])
    else if newFile then [WriteNew(file), SaveIdentity(Rotated(id, seed)), RenameNew]
    else [SaveIdentity(Rotated(id, seed))]
  }

  // openRecovery: the seed in the file at path, when it still derives the key the
  // identity committed.
  function Open(f: File, id: Identity): Option<Seed> {
    if f.Recovery? && KeyOf(f.seed, id.keySeq + 1) == id.commitment then Some(f.seed) else None
  }

  // setup-recovery with a fresh seed, and whether the file's place was given; rotate;
  // and rotate to a new recovery seed; each with the outcomes of the rotations it tries.
  datatype Command =
    | Setup(seed: Seed, given: bool, rotates: bool)
    | Rotate(rotates: bool)
    | Renew(seed: Seed, first: bool, second: bool)

  function SetupWrites(d: Disk, seed: Seed, given: bool, rotates: bool): seq<Write> {
    var id := if d.saved.Some? then d.saved.value else Identity(0, HotKey);
    var finish := Finish(d, id);
    if !RecoverySet(id) && given && !d.path.Absent? then []
    else if RecoverySet(id) || !Exec(d, finish).path.Absent? then finish
    else
      finish
      + (if d.saved.None? then [SaveIdentity(id)] else [])
      + RotateOnce(id, seed, true, rotates)
  }

  function RotateWrites(d: Disk, rotates: bool): seq<Write> {
    if d.saved.None? || !RecoverySet(d.saved.value) then []
    else
      var id := d.saved.value;
      var finish := Finish(d, id);
      match Open(Exec(d, finish).path, id)
      case None => finish
      case Some(seed) => finish + RotateOnce(id, seed, false, rotates)
  }

  function RenewWrites(d: Disk, seed: Seed, first: bool, second: bool): seq<Write> {
    if d.saved.None? || !RecoverySet(d.saved.value) then []
    else
      var id := d.saved.value;
      var finish := Finish(d, id);
      if Open(Exec(d, finish).path, id).None? then finish
      else if !first then finish + RotateOnce(id, seed, true, false)
      else finish + RotateOnce(id, seed, true, true) + RotateOnce(Rotated(id, seed), seed, true, second)
  }

  function Writes(d: Disk, c: Command): seq<Write> {
    match c
    case Setup(seed, given, rotates) => SetupWrites(d, seed, given, rotates)
    case Rotate(rotates) => RotateWrites(d, rotates)
    case Renew(seed, first, second) => RenewWrites(d, seed, first, second)
  }

  // ---- what every write keeps ----

  // Once recovery is set, the file at path derives the key the identity commits to, or
  // the one at path.new states it.
  predicate Safe(d: Disk) {
    d.saved.Some? && RecoverySet(d.saved.value) ==>
      Open(d.path, d.saved.value).Some? || StatesCommitment(d.new_, d.saved.value)
  }

  // Finishing leaves that file at path, and no .new beside it.
  lemma FinishLeavesTheRightFile(d: Disk)
    requires Safe(d) && d.saved.Some?
    ensures var e := Exec(d, Finish(d, d.saved.value));
            && e.new_ == Absent && e.saved == d.saved
            && (RecoverySet(d.saved.value) ==> Open(e.path, d.saved.value).Some?)
  {
  }

  // Every prefix of the writes leaves the disk safe.
  ghost predicate SafeThroughout(d: Disk, ws: seq<Write>) {
    forall k :: 0 <= k <= |ws| ==> Safe(Exec(d, ws[..k]))
  }

  lemma {:induction false} ExecAppend(d: Disk, a: seq<Write>, b: seq<Write>)
    ensures Exec(d, a + b) == Exec(Exec(d, a), b)
    decreases |a|
  {
    if a == [] {
      assert a + b == b;
    } else {
      assert (a + b)[1..] == a[1..] + b;
      ExecAppend(Apply(d, a[0]), a[1..], b);
    }
  }

  lemma SafeAppend(d: Disk, a: seq<Write>, b: seq<Write>)
    requires SafeThroughout(d, a) && SafeThroughout(Exec(d, a), b)
    ensures SafeThroughout(d, a + b)
  {
    forall k | 0 <= k <= |a + b| ensures Safe(Exec(d, (a + b)[..k])) {
      if k <= |a| {
        assert (a + b)[..k] == a[..k];
      } else {
        assert (a + b)[..k] == a + b[..k - |a|];
        ExecAppend(d, a, b[..k - |a|]);
      }
    }
  }

  lemma SafeSteps(d: Disk, ws: seq<Write>)
    requires Safe(d)
    requires ws == [] || SafeThroughout(Apply(d, ws[0]), ws[1..])
    ensures SafeThroughout(d, ws)
  {
    forall k | 0 <= k <= |ws| ensures Safe(Exec(d, ws[..k])) {
      if k > 0 {
        assert ws[..k][1..] == ws[1..][..k - 1];
      }
    }
  }

  lemma FinishSafe(d: Disk, id: Identity)
    requires Safe(d) && (d.saved.Some? ==> id == d.saved.value)
    ensures SafeThroughout(d, Finish(d, id))
  {
  }

  // From a disk whose file at path is right, or whose identity has no recovery yet, a
  // rotation is safe at every write.
  lemma RotateOnceSafe(d: Disk, id: Identity, seed: Seed, newFile: bool, rotates: bool)
    requires d.saved == Some(id) && (RecoverySet(id) ==> Open(d.path, id).Some?)
    requires !newFile ==> Open(d.path, id) == Some(seed)
    ensures SafeThroughout(d, RotateOnce(id, seed, newFile, rotates))
  {
    var ws := RotateOnce(id, seed, newFile, rotates);
    if |ws| == 3 {
      var d1 := Apply(d, ws[0]);
      var d2 := Apply(d1, ws[1]);
      SafeSteps(Apply(d2, ws[2]), []);
      assert ws[1..][1..] == [ws[2]] && [ws[2]][1..] == [];
      SafeSteps(d2, [ws[2]]);
      SafeSteps(d1, ws[1..]);
    } else if |ws| == 2 {
      var d1 := Apply(d, ws[0]);
      SafeSteps(Apply(d1, ws[1]), []);
      assert ws[1..] == [ws[1]] && [ws[1]][1..] == [];
      SafeSteps(d1, ws[1..]);
    } else if |ws| == 1 {
      SafeSteps(Apply(d, ws[0]), []);
      assert ws[1..] == [];
    }
    SafeSteps(d, ws);
  }

  // Where a whole rotation with a new file ends.
  lemma RotateOnceEnds(d: Disk, id: Identity, seed: Seed)
    ensures Exec(d, RotateOnce(id, seed, true, true)) ==
            Disk(Recovery(seed, id.keySeq + 2), Absent, Some(Rotated(id, seed)))
  {
    var ws := RotateOnce(id, seed, true, true);
    assert ws[1..][1..] == [ws[2]] && [ws[2]][1..] == [];
    assert Exec(Apply(Apply(d, ws[0]), ws[1]), [ws[2]]) == Exec(Apply(Apply(Apply(d, ws[0]), ws[1]), ws[2]), []);
  }

  lemma FinishEnds(d: Disk, id: Identity)
    ensures var e := Exec(d, Finish(d, id)); e.saved == d.saved && e.new_ == Absent
    ensures Exec(d, Finish(d, id)).path == if StatesCommitment(d.new_, id) then d.new_ else d.path
  {
  }

  lemma SetupSafe(d: Disk, seed: Seed, given: bool, rotates: bool)
    requires Safe(d)
    ensures SafeThroughout(d, SetupWrites(d, seed, given, rotates))
  {
    var id := if d.saved.Some? then d.saved.value else Identity(0, HotKey);
    var finish := Finish(d, id);
    FinishSafe(d, id);
    FinishEnds(d, id);
    var e := Exec(d, finish);
    SafeSteps(d, []);
    if !RecoverySet(id) && !(given && !d.path.Absent?) && e.path.Absent? {
      var save := if d.saved.None? then [SaveIdentity(id)] else [];
      if save != [] {
        SafeSteps(Apply(e, save[0]), []);
        assert save[1..] == [];
      }
      SafeSteps(e, save);
      SafeAppend(d, finish, save);
      ExecAppend(d, finish, save);
      var f := Exec(e, save);
      assert f.saved == Some(id);
      RotateOnceSafe(f, id, seed, true, rotates);
      SafeAppend(d, finish + save, RotateOnce(id, seed, true, rotates));
    }
  }

  lemma RotateSafe(d: Disk, rotates: bool)
    requires Safe(d)
    ensures SafeThroughout(d, RotateWrites(d, rotates))
  {
    if d.saved.Some? && RecoverySet(d.saved.value) {
      var id := d.saved.value;
      var finish := Finish(d, id);
      FinishSafe(d, id);
      FinishEnds(d, id);
      var seed := Open(Exec(d, finish).path, id);
      if seed.Some? {
        RotateOnceSafe(Exec(d, finish), id, seed.value, false, rotates);
        SafeAppend(d, finish, RotateOnce(id, seed.value, false, rotates));
      }
    } else {
      SafeSteps(d, []);
    }
  }

  lemma RenewSafe(d: Disk, seed: Seed, first: bool, second: bool)
    requires Safe(d)
    ensures SafeThroughout(d, RenewWrites(d, seed, first, second))
  {
    if d.saved.Some? && RecoverySet(d.saved.value) {
      var id := d.saved.value;
      var finish := Finish(d, id);
      FinishSafe(d, id);
      FinishEnds(d, id);
      var e := Exec(d, finish);
      if Open(e.path, id).Some? {
        RotateOnceSafe(e, id, seed, true, first);
        SafeAppend(d, finish, RotateOnce(id, seed, true, first));
        if first {
          RotateOnceEnds(e, id, seed);
          ExecAppend(d, finish, RotateOnce(id, seed, true, true));
          RotateOnceSafe(Exec(e, RotateOnce(id, seed, true, true)), Rotated(id, seed), seed, true, second);
          SafeAppend(d, finish + RotateOnce(id, seed, true, true), RotateOnce(Rotated(id, seed), seed, true, second));
        }
      }
    } else {
      SafeSteps(d, []);
    }
  }

  // ---- the promises ----

  // A command that stops after any number of its writes.
  datatype Attempt = Attempt(command: Command, writes: nat)

  function Stopped(d: Disk, a: Attempt): Disk {
    var ws := Writes(d, a.command);
    Exec(d, if a.writes < |ws| then ws[..a.writes] else ws)
  }

  function Life(d: Disk, attempts: seq<Attempt>): Disk
    decreases |attempts|
  {
    if attempts == [] then d else Life(Stopped(d, attempts[0]), attempts[1..])
  }

  lemma CommandSafe(d: Disk, a: Attempt)
    requires Safe(d)
    ensures Safe(Stopped(d, a))
  {
    var ws := Writes(d, a.command);
    match a.command {
      case Setup(seed, given, rotates) => SetupSafe(d, seed, given, rotates);
      case Rotate(rotates) => RotateSafe(d, rotates);
      case Renew(seed, first, second) => RenewSafe(d, seed, first, second);
    }
    assert ws[..|ws|] == ws;
    assert SafeThroughout(d, ws);
  }

  // However many commands stopped, wherever they stopped: once recovery is set, one of
  // the two files holds a seed that derives the key the saved identity commits to, and
  // the next command's first step leaves that file at path and no other.
  lemma {:induction false} NeverLosesTheSeed(d: Disk, attempts: seq<Attempt>)
    requires Safe(d)
    ensures var e := Life(d, attempts);
            && Safe(e)
            && (e.saved.Some? && RecoverySet(e.saved.value) ==>
                 && (Open(e.path, e.saved.value).Some? || Open(e.new_, e.saved.value).Some?)
                 && var f := Exec(e, Finish(e, e.saved.value));
                    Open(f.path, e.saved.value).Some? && f.new_ == Absent)
    decreases |attempts|
  {
    if attempts == [] {
      if d.saved.Some? {
        FinishLeavesTheRightFile(d);
      }
    } else {
      CommandSafe(d, attempts[0]);
      NeverLosesTheSeed(Stopped(d, attempts[0]), attempts[1..]);
    }
  }

  // A change of recovery that completes leaves the identity two keys on,
  // committed to the new seed's key, and the new seed's file alone at path.
  lemma RenewEnds(d: Disk, seed: Seed)
    requires Safe(d) && d.saved.Some? && RecoverySet(d.saved.value)
    ensures var id := d.saved.value;
            Exec(d, RenewWrites(d, seed, true, true)) ==
              Disk(Recovery(seed, id.keySeq + 3), Absent, Some(Identity(id.keySeq + 2, KeyOf(seed, id.keySeq + 3))))
  {
    var id := d.saved.value;
    var finish, one := Finish(d, id), RotateOnce(id, seed, true, true);
    FinishLeavesTheRightFile(d);
    ExecAppend(d, finish, one);
    RotateOnceEnds(Exec(d, finish), id, seed);
    ExecAppend(d, finish + one, RotateOnce(Rotated(id, seed), seed, true, true));
    RotateOnceEnds(Exec(d, finish + one), Rotated(id, seed), seed);
  }

  // A rotation that completes leaves the identity one key on, committed to the next key of
  // the seed it had, and the file at path still opening to it.
  lemma RotateEnds(d: Disk)
    requires Safe(d) && d.saved.Some? && RecoverySet(d.saved.value)
    ensures var id := d.saved.value; var e := Exec(d, RotateWrites(d, true));
            && e.saved == Some(Identity(id.keySeq + 1, KeyOf(id.commitment.seed, id.keySeq + 2)))
            && Open(e.path, e.saved.value) == Some(id.commitment.seed) && e.new_ == Absent
  {
    var id := d.saved.value;
    var finish := Finish(d, id);
    FinishLeavesTheRightFile(d);
    var once := RotateOnce(id, id.commitment.seed, false, true);
    ExecAppend(d, finish, once);
    assert once[1..] == [];
  }

  // A setup that completes, on a new hub or one never rotated, leaves the new seed's file
  // alone at path and the identity committed to its key.
  lemma SetupEnds(d: Disk, seed: Seed, given: bool)
    requires d.path.Absent? && (d.saved.Some? ==> d.saved.value.commitment.HotKey?)
    ensures var id := if d.saved.Some? then d.saved.value else Identity(0, HotKey);
            Exec(d, SetupWrites(d, seed, given, true)) ==
              Disk(Recovery(seed, id.keySeq + 2), Absent, Some(Identity(id.keySeq + 1, KeyOf(seed, id.keySeq + 2))))
  {
    var id := if d.saved.Some? then d.saved.value else Identity(0, HotKey);
    var finish := Finish(d, id);
    FinishEnds(d, id);
    var save := if d.saved.None? then [SaveIdentity(id)] else [];
    ExecAppend(d, finish + save, RotateOnce(id, seed, true, true));
    RotateOnceEnds(Exec(d, finish + save), id, seed);
  }

  lemma RefusedOnceEnds(d: Disk, id: Identity, seed: Seed, newFile: bool)
    requires newFile || d.new_.Absent?
    ensures Exec(d, RotateOnce(id, seed, newFile, false)) == d.(new_ := Absent)
  {
    var ws := RotateOnce(id, seed, newFile, false);
    if newFile {
      assert ws[1..] == [RemoveNew] && [RemoveNew][1..] == [];
    }
  }

  // What a setup of any disk leaves. A file at path, of whatever kind, is never replaced
  // but by the file of a setup that stopped; with its place given nothing is touched at all.
  // A rotation that is refused leaves the identity of a new hub and no file.
  lemma SetupIsExact(d: Disk, seed: Seed, given: bool, rotates: bool)
    ensures var id := if d.saved.Some? then d.saved.value else Identity(0, HotKey);
            Exec(d, SetupWrites(d, seed, given, rotates)) ==
              if id.commitment.KeyOf? then
                d.(new_ := Absent, path := if StatesCommitment(d.new_, id) then d.new_ else d.path)
              else if d.path != Absent then (if given then d else d.(new_ := Absent))
              else if rotates then
                Disk(Recovery(seed, id.keySeq + 2), Absent, Some(Identity(id.keySeq + 1, KeyOf(seed, id.keySeq + 2))))
              else Disk(Absent, Absent, Some(id))
  {
    var id := if d.saved.Some? then d.saved.value else Identity(0, HotKey);
    FinishEnds(d, id);
    if !RecoverySet(id) && d.path.Absent? {
      if rotates {
        SetupEnds(d, seed, given);
      } else {
        var finish, save := Finish(d, id), if d.saved.None? then [SaveIdentity(id)] else [];
        ExecAppend(d, finish, save);
        ExecAppend(d, finish + save, RotateOnce(id, seed, true, false));
        assert save != [] ==> save[1..] == [];
        RefusedOnceEnds(Exec(d, finish + save), id, seed, true);
      }
    }
  }

  lemma OpensToItsSeed(f: File, id: Identity)
    ensures Open(f, id).Some? <==> f.Recovery? && id.commitment == KeyOf(f.seed, id.keySeq + 1)
    ensures Open(f, id).Some? ==> id.commitment.KeyOf? && Open(f, id) == Some(id.commitment.seed)
  {
  }

  // What a rotation of any disk leaves: nothing changes before recovery is set; then a change
  // that stopped is finished, and the identity rotates to the next key of the seed it has,
  // when the file at path opens to it and the rotation is not refused.
  lemma RotateIsExact(d: Disk, rotates: bool)
    ensures var e := Exec(d, RotateWrites(d, rotates));
            if d.saved.None? || d.saved.value.commitment.HotKey? then e == d
            else
              var id := d.saved.value; var seed := id.commitment.seed;
              var path := if StatesCommitment(d.new_, id) then d.new_ else d.path;
              && e.path == path && e.new_ == Absent
              && e.saved ==
                   Some(if !rotates || Open(path, id).None? then id
                        else Identity(id.keySeq + 1, KeyOf(seed, id.keySeq + 2)))
  {
    if d.saved.Some? && RecoverySet(d.saved.value) {
      var id := d.saved.value;
      var finish := Finish(d, id);
      FinishEnds(d, id);
      OpensToItsSeed(Exec(d, finish).path, id);
      if Open(Exec(d, finish).path, id).Some? {
        var once := RotateOnce(id, id.commitment.seed, false, rotates);
        ExecAppend(d, finish, once);
        assert rotates ==> once[1..] == [];
      }
    }
  }

  // And a change of recovery of any disk: refused before its first rotation, or with a file
  // that does not open, it changes nothing but what a stopped one left; after its first it
  // leaves the identity one key on, already committed to the new seed, with its file at path.
  // A refused one had its file written, and removed again.
  lemma RenewIsExact(d: Disk, seed: Seed, first: bool, second: bool)
    ensures var ws := RenewWrites(d, seed, first, second); var e := Exec(d, ws);
            if d.saved.None? || d.saved.value.commitment.HotKey? then e == d && ws == []
            else
              var id := d.saved.value; var n := id.keySeq + if second then 2 else 1;
              var path := if StatesCommitment(d.new_, id) then d.new_ else d.path;
              if first && Open(path, id).Some? then
                e == Disk(Recovery(seed, n + 1), Absent, Some(Identity(n, KeyOf(seed, n + 1))))
              else
                && e == d.(new_ := Absent, path := path)
                && (Open(path, id).Some? ==>
                      |ws| >= 2 && ws[|ws| - 2..] == [WriteNew(Recovery(seed, id.keySeq + 2)), RemoveNew])
  {
    if d.saved.Some? && RecoverySet(d.saved.value) {
      var id := d.saved.value;
      var finish, one := Finish(d, id), RotateOnce(id, seed, true, first);
      FinishEnds(d, id);
      if Open(Exec(d, finish).path, id).Some? {
        ExecAppend(d, finish, one);
        if !first {
          RefusedOnceEnds(Exec(d, finish), id, seed, true);
          assert (finish + one)[|finish + one| - 2..] == one;
        } else {
          RotateOnceEnds(Exec(d, finish), id, seed);
          ExecAppend(d, finish + one, RotateOnce(Rotated(id, seed), seed, true, second));
          if second {
            RotateOnceEnds(Exec(d, finish + one), Rotated(id, seed), seed);
          } else {
            RefusedOnceEnds(Exec(d, finish + one), Rotated(id, seed), seed, true);
          }
        }
      }
    }
  }

  // Wherever a change of recovery stops, what the next command finishes and opens is the
  // seed the saved identity commits to, the old one or the new.
  lemma StoppedRenewOpens(d: Disk, seed: Seed, n: nat)
    requires Safe(d) && d.saved.Some? && RecoverySet(d.saved.value)
    ensures var e := Stopped(d, Attempt(Renew(seed, true, true), n));
            && e.saved.Some? && RecoverySet(e.saved.value)
            && Open(Exec(e, Finish(e, e.saved.value)).path, e.saved.value) == Some(e.saved.value.commitment.seed)
  {
    var e := Stopped(d, Attempt(Renew(seed, true, true), n));
    CommandSafe(d, Attempt(Renew(seed, true, true), n));
    var ws := RenewWrites(d, seed, true, true);
    StaysSet(d, if n < |ws| then ws[..n] else ws);
    FinishLeavesTheRightFile(e);
  }

  lemma {:induction false} StaysSet(d: Disk, ws: seq<Write>)
    requires d.saved.Some? && RecoverySet(d.saved.value)
    requires forall i :: 0 <= i < |ws| && ws[i].SaveIdentity? ==> RecoverySet(ws[i].id)
    ensures Exec(d, ws).saved.Some? && RecoverySet(Exec(d, ws).saved.value)
    decreases |ws|
  {
    if ws != [] {
      StaysSet(Apply(d, ws[0]), ws[1..]);
    }
  }
}
