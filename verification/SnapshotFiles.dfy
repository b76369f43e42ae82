/** The artifact-store's handlers and the pool-manager's boot as sequential code over the
    files of one function, and the runs of the step machine they are when nobody
    interrupts them. */
module SnapshotFiles {
  import opened Options
  import opened SnapshotMachine

  /** How buildAndStore goes: an early failure, a rename into place, or a copy across
      devices that ends well or not. */
  datatype BuildOutcome = BuildFails | Renamed | Copied | CopyFails

  /** How far snapshotFunction gets. */
  datatype SnapOutcome = BootFails | CreateFails | FirstRenameFails | SecondRenameFails | Complete

  /** The files after buildAndStore has built image and finished at now. */
  function AfterBuild(files: Files, o: BuildOutcome, image: Image, now: int): Files {
    match o
    case BuildFails => files
    case Renamed => files.(code := Some(image))
    case Copied => files.(code := Some(Image(image.gen, now)))
    case CopyFails => files.(code := Some(Image(image.gen, now)))
  }

  /** The files after snapshotFunction, with a snapshot named id written at now. */
  function AfterSnapshot(files: Files, o: SnapOutcome, id: nat, now: int): Files {
    var cleared := files.(snapTmp := None, memTmp := None);
    if files.code.None? || files.base.None? then cleared
    else
      var x := Snap(id, files.code.value.gen, files.base.value.gen, now);
      match o
      case BootFails => cleared
      case CreateFails => cleared
      case FirstRenameFails => cleared.(snapTmp := Some(x), memTmp := Some(id))
      case SecondRenameFails => cleared.(snap := Some(x), memTmp := Some(id))
      case Complete => cleared.(snap := Some(x), mem := Some(id))
  }

  /** The whole deploy: build, then snapshot or drop the old one. */
  function AfterDeploy(files: Files, b: BuildOutcome, image: Image, builtAt: int, wanted: bool, o: SnapOutcome,
                       id: nat, now: int): Files {
    var built := AfterBuild(files, b, image, builtAt);
    if b.BuildFails? || b.CopyFails? then built
    else if wanted then AfterSnapshot(built, o, id, now)
    else built.(snap := None, mem := None)
  }

  /** How a boot under a cap of one ends when nobody touches the files meanwhile, and the
      files after it. */
  function BootEnd(files: Files, restoreOk: bool, coldOk: bool): (Boot, Files) {
    if files.code.None? then (Failed(ImageMissing), files)
    else
      var cold := if coldOk then Boot.Up(false) else Failed(ColdBootFailed);
      if !SnapshotUsable(files) then (cold, files)
      else if restoreOk then (Boot.Up(true), files)
      else (cold, files.(snap := None, mem := None))
  }

  /** A complete deploy leaves a usable pair made from the image just installed, as long as
      the clock has moved on since that image and the base image were written. */
  lemma CompleteDeployIsUsable(files: Files, b: BuildOutcome, image: Image, builtAt: int, id: nat, now: int)
    requires (b.Renamed? || b.Copied?) && files.base.Some? && files.base.value.mtime < now
    requires image.mtime < now && builtAt < now
    ensures var f := AfterDeploy(files, b, image, builtAt, true, Complete, id, now);
            && SnapshotUsable(f) && f.snap.value.id == id == f.mem.value
            && f.snap.value.code == image.gen && f.snap.value.base == files.base.value.gen
  {
  }

  /** No deploy, however it ends, makes an old snapshot pass for one of the new image. */
  lemma DeployNeverRevivesOldSnapshot(files: Files, b: BuildOutcome, image: Image, builtAt: int, wanted: bool,
                                      o: SnapOutcome, id: nat, now: int)
    requires image.mtime <= builtAt && !b.BuildFails?
    requires files.snap.Some? ==> files.snap.value.mtime <= image.mtime
    ensures var f := AfterDeploy(files, b, image, builtAt, wanted, o, id, now);
            SnapshotUsable(f) ==> wanted && (o.Complete? || o.SecondRenameFails?) && f.snap.value.id == id
                                  && f.snap.value.code == image.gen
  {
  }

  /** What each way of deploying leaves of the pair, the temporary files and the images. */
  ghost predicate LeavesPair(before: Files, after: Files, b: BuildOutcome, gen: nat, wanted: bool, o: SnapOutcome,
                             id: nat) {
    var snapped := wanted && before.base.Some?;
    && after.base == before.base
    && (b.BuildFails? ==> after == before)
    && (!b.BuildFails? ==> after.code.Some? && after.code.value.gen == gen)
    && (b.CopyFails? ==> after == before.(code := after.code))
    && (b.Renamed? || b.Copied? ==>
          && (!wanted ==> after == before.(code := after.code, snap := None, mem := None))
          && (snapped && (o.Complete? || o.SecondRenameFails?) ==>
                after.snap.Some? && after.snap.value.id == id && after.snap.value.code == gen
                && after.snap.value.base == before.base.value.gen)
          && (wanted && !(snapped && (o.Complete? || o.SecondRenameFails?)) ==> after.snap == before.snap)
          && (snapped && o.Complete? ==> after.mem.Some? && after.mem.value == id)
          && (wanted && !(snapped && o.Complete?) ==> after.mem == before.mem)
          && (wanted && !(snapped && o.FirstRenameFails?) ==> after.snapTmp.None?)
          && (wanted && !(snapped && (o.FirstRenameFails? || o.SecondRenameFails?)) ==> after.memTmp.None?))
  }

  lemma DeployLeavesPair(files: Files, b: BuildOutcome, image: Image, builtAt: int, wanted: bool, o: SnapOutcome,
                         id: nat, now: int)
    ensures LeavesPair(files, AfterDeploy(files, b, image, builtAt, wanted, o, id, now), b, image.gen, wanted, o, id)
  {
  }

  class FunctionDir {
    var code: Option<Image>
    var base: Option<Image>
    var snap: Option<Snap>
    var mem: Option<nat>
    var snapTmp: Option<Snap>
    var memTmp: Option<nat>

    function Contents(): Files
      reads this
    {
      Files(code, base, snap, mem, snapTmp, memTmp)
    }

    constructor (files: Files)
      ensures Contents() == files
    {
      code, base, snap := files.code, files.base, files.snap;
      mem, snapTmp, memTmp := files.mem, files.snapTmp, files.memTmp;
    }

    /** Removing a file that is not there is not an error. */
    method RemoveFile(f: File)
      modifies this
      ensures Contents() == Without(old(Contents()), f)
    {
      match f {
        case CodeFile => code := None;
        case SnapFile => snap := None;
        case MemFile => mem := None;
        case SnapTmpFile => snapTmp := None;
        case MemTmpFile => memTmp := None;
      }
    }

    /** handleDelete's loop over the suffixes. */
    method HandleDelete()
      modifies this
      ensures Contents() == Files(None, old(base), None, None, None, None)
    {
      var suffixes := [CodeFile, SnapFile, MemFile, SnapTmpFile, MemTmpFile];
      for i := 0 to |suffixes|
        invariant base == old(base)
        invariant i > 0 ==> code == None
        invariant i > 1 ==> snap == None
        invariant i > 2 ==> mem == None
        invariant i > 3 ==> snapTmp == None
        invariant i > 4 ==> memTmp == None
      {
        RemoveFile(suffixes[i]);
      }
    }

    method BuildAndStore(o: BuildOutcome, image: Image, now: int) returns (ok: bool)
      modifies this
      ensures Contents() == AfterBuild(old(Contents()), o, image, now)
      ensures ok <==> o.Renamed? || o.Copied?
    {
      if o.BuildFails? {
        return false;
      }
      if o.Renamed? {
        code := Some(image);
        return true;
      }
      code := Some(Image(image.gen, now));
      ok := o.Copied?;
    }

    method SnapshotFunction(o: SnapOutcome, id: nat, now: int) returns (ok: bool)
      modifies this
      ensures Contents() == AfterSnapshot(old(Contents()), o, id, now)
      ensures ok <==> o.Complete? && code.Some? && base.Some?
    {
      RemoveFile(SnapTmpFile);
      RemoveFile(MemTmpFile);
      if o.BootFails? || code.None? || base.None? {
        return false;
      }
      var fromCode, fromBase := code.value.gen, base.value.gen;
      snapTmp, memTmp := Some(Snap(id, fromCode, fromBase, now)), Some(id);
      if o.CreateFails? {
        RemoveFile(SnapTmpFile);
        RemoveFile(MemTmpFile);
        return false;
      }
      if o.FirstRenameFails? {
        return false;
      }
      snap, snapTmp := snapTmp, None;
      if o.SecondRenameFails? {
        return false;
      }
      mem, memTmp := memTmp, None;
      ok := true;
    }

    /** handleDeploy, from the build on. It succeeds once the image is in place, whatever
        becomes of the snapshot. */
    method HandleDeploy(b: BuildOutcome, image: Image, builtAt: int, wanted: bool, o: SnapOutcome, id: nat, now: int)
      returns (ok: bool, snapshotOk: bool)
      modifies this
      ensures Contents() == AfterDeploy(old(Contents()), b, image, builtAt, wanted, o, id, now)
      ensures LeavesPair(old(Contents()), Contents(), b, image.gen, wanted, o, id)
      ensures ok <==> b.Renamed? || b.Copied?
      ensures snapshotOk <==> ok && wanted && o.Complete? && base.Some?
    {
      DeployLeavesPair(Contents(), b, image, builtAt, wanted, o, id, now);
      snapshotOk := false;
      ok := BuildAndStore(b, image, builtAt);
      if !ok {
        return;
      }
      if !wanted {
        RemoveFile(SnapFile);
        RemoveFile(MemFile);
      } else {
        snapshotOk := SnapshotFunction(o, id, now);
      }
    }

    method RemoveSnapshot()
      modifies this
      ensures Contents() == old(Contents()).(snap := None, mem := None)
    {
      RemoveFile(SnapFile);
      RemoveFile(MemFile);
    }

    method IsSnapshotUsable() returns (usable: bool)
      ensures usable <==> SnapshotUsable(Contents())
    {
      if snap.None? {
        return false;
      }
      if mem.None? {
        return false;
      }
      if code.None? || !(snap.value.mtime > code.value.mtime) {
        return false;
      }
      if base.None? || !(snap.value.mtime > base.value.mtime) {
        return false;
      }
      usable := true;
    }

    /** bootVM: how a restore and a cold boot would go is decided outside. It fails only for
        a missing image or a failed cold boot, and a snapshot that fails is removed. */
    method BootVM(maxVMs: int, restoreOk: bool, coldOk: bool) returns (r: Boot)
      modifies this
      ensures r.Up? || r.Failed?
      ensures maxVMs == 1 ==> (r, Contents()) == BootEnd(old(Contents()), restoreOk, coldOk)
      ensures r == Failed(ImageMissing) <==> old(code).None?
      ensures r == Up(true) <==> maxVMs == 1 && SnapshotUsable(old(Contents())) && restoreOk
      ensures r == Failed(ColdBootFailed) <==>
                (old(code).Some? && !coldOk && !(maxVMs == 1 && SnapshotUsable(old(Contents())) && restoreOk))
      ensures Contents() == if maxVMs == 1 && SnapshotUsable(old(Contents())) && !restoreOk
                            then old(Contents()).(snap := None, mem := None) else old(Contents())
    {
      if code.None? {
        return Failed(ImageMissing);
      }
      if maxVMs == 1 {
        var usable := IsSnapshotUsable();
        if usable {
          if restoreOk {
            return Up(true);
          }
          RemoveSnapshot();
        }
      }
      r := if coldOk then Up(false) else Failed(ColdBootFailed);
    }
  }
}
