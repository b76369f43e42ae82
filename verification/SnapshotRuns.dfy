/** The handlers of SnapshotFiles as runs of the step machine, and runs that show what
    serial deploys, quiet base rebuilds and both renames are needed for. */
module SnapshotRuns {
  import opened Options
  import opened SnapshotMachine
  import opened SnapshotSafety
  import opened SnapshotFiles

  /** The labels of deploy i alone, with the passing of time in between. */
  ghost predicate OfDeploy(i: nat, ls: seq<Label>) {
    forall k | 0 <= k < |ls| :: ls[k].Tick? || (ls[k].DeployStep? && ls[k].i == i)
  }

  /** From a to b by steps of deploy i and ticks only. */
  ghost predicate Leads(i: nat, a: State, b: State) {
    exists ls: seq<Label> :: OfDeploy(i, ls) && Run(a, ls) == Some(b)
  }

  lemma LeadsNowhere(i: nat, a: State)
    ensures Leads(i, a, a)
  {
    assert OfDeploy(i, []) && Run(a, []) == Some(a);
  }

  lemma LeadsOn(i: nat, a: State, b: State, l: Label, c: State)
    requires Leads(i, a, b) && (l.Tick? || (l.DeployStep? && l.i == i))
    requires Next(b, l).Some? && Next(b, l).value == c
    ensures Leads(i, a, c)
  {
    hide Next;
    var ls: seq<Label> :| OfDeploy(i, ls) && Run(a, ls) == Some(b);
    RunSplit(a, ls, [l]);
    assert Run(b, [l]) == Run(c, [l][1..]);
    assert OfDeploy(i, ls + [l]) && Run(a, ls + [l]) == Some(c);
  }

  lemma {:induction false} OfDeployIsSerial(i: nat, s: State, ls: seq<Label>)
    requires OfDeploy(i, ls)
    ensures SerialRun(s, ls)
    decreases |ls|
  {
    if ls != [] && Next(s, ls[0]).Some? {
      assert OfDeploy(i, ls[1..]);
      OfDeployIsSerial(i, Next(s, ls[0]).value, ls[1..]);
    }
  }

  lemma LeadsKeepsReachable(i: nat, a: State, b: State)
    requires Reachable(a) && Leads(i, a, b)
    ensures Reachable(b)
  {
    hide Next, OfDeploy;
    var ls: seq<Label> :| OfDeploy(i, ls) && Run(a, ls) == Some(b);
    var base: Image, ls0: seq<Label> :| SerialRun(Init(base), ls0) && Run(Init(base), ls0) == Some(a);
    OfDeployIsSerial(i, a, ls);
    SerialSplit(Init(base), ls0, ls);
    RunSplit(Init(base), ls0, ls);
    assert Run(Init(base), ls0 + ls) == Some(b);
  }

  lemma LeadsKeepsPossible(i: nat, a: State, b: State)
    requires Possible(a) && Leads(i, a, b)
    ensures Possible(b)
  {
    hide Next, OfDeploy;
    var ls: seq<Label> :| OfDeploy(i, ls) && Run(a, ls) == Some(b);
    var base: Image, ls0: seq<Label> :| Run(Init(base), ls0) == Some(a);
    RunSplit(Init(base), ls0, ls);
    assert Run(Init(base), ls0 + ls) == Some(b);
  }

  lemma At(s: State, i: nat, d: Deploy, e: Deploy)
    requires i < |s.deploys|
    ensures s.deploys[i := d][i := e] == s.deploys[i := e]
  {
  }

  /** buildAndStore's end: deploy i has built image and puts it in place at now. */
  function InstalledState(s: State, i: nat, image: Image): State
    requires i < |s.deploys|
  {
    s.(files := s.files.(code := Some(image)), deploys := s.deploys[i := Installed])
  }

  /** Building and installing by rename, with time passing before the image is written. */
  lemma RenameIsARun(s: State, i: nat, ms: nat)
    requires i < |s.deploys| && s.deploys[i].Building?
    ensures var image := Image(s.nextGen, s.clock + ms);
            && Leads(i, s, InstalledState(s, i, image).(clock := s.clock + ms, nextGen := s.nextGen + 1))
            && AfterBuild(s.files, Renamed, image, s.clock + ms) == InstalledState(s, i, image).files
  {
    hide Leads;
    var image := Image(s.nextGen, s.clock + ms);
    LeadsNowhere(i, s);
    var s1 := s.(clock := s.clock + ms);
    LeadsOn(i, s, s, Tick(ms), s1);
    var s2 := s1.(deploys := s.deploys[i := Built(image)], nextGen := s.nextGen + 1);
    LeadsOn(i, s, s1, DeployStep(i, Go), s2);
    At(s, i, Built(image), Installed);
    LeadsOn(i, s, s2, DeployStep(i, Go),
            InstalledState(s, i, image).(clock := s.clock + ms, nextGen := s.nextGen + 1));
  }

  /** What deploy i leaves when its build is over: the image is written ms from now, and a copy
      across devices takes copyMs more. */
  function BuildEnd(s: State, i: nat, o: BuildOutcome, ms: nat, copyMs: nat): State
    requires i < |s.deploys|
  {
    var built := s.(clock := s.clock + ms, nextGen := s.nextGen + 1);
    var copied := Image(s.nextGen, s.clock + ms + copyMs);
    match o
    case BuildFails => s.(deploys := s.deploys[i := Idle])
    case Renamed => InstalledState(built, i, Image(s.nextGen, s.clock + ms))
    case Copied => InstalledState(built, i, copied).(clock := s.clock + ms + copyMs)
    case CopyFails =>
      built.(clock := s.clock + ms + copyMs, files := s.files.(code := Some(copied)), deploys := s.deploys[i := Idle])
  }

  lemma CopyIsARun(s: State, i: nat, ms: nat, copyMs: nat, ok: bool)
    requires i < |s.deploys| && s.deploys[i].Building?
    ensures Leads(i, s, BuildEnd(s, i, if ok then Copied else CopyFails, ms, copyMs))
  {
    hide Leads;
    var gen, now := s.nextGen, s.clock + ms;
    LeadsNowhere(i, s);
    var s1 := s.(clock := now);
    LeadsOn(i, s, s, Tick(ms), s1);
    var s2 := s1.(deploys := s.deploys[i := Built(Image(gen, now))], nextGen := s.nextGen + 1);
    LeadsOn(i, s, s1, DeployStep(i, Go), s2);
    At(s, i, Built(Image(gen, now)), Copying(gen));
    var s3 := s2.(deploys := s.deploys[i := Copying(gen)], files := s.files.(code := Some(Image(gen, now))));
    LeadsOn(i, s, s2, DeployStep(i, AcrossDevices), s3);
    var s4 := s3.(clock := now + copyMs);
    LeadsOn(i, s, s3, Tick(copyMs), s4);
    At(s, i, Copying(gen), if ok then Installed else Idle);
    LeadsOn(i, s, s4, DeployStep(i, if ok then Go else Fails),
            BuildEnd(s, i, if ok then Copied else CopyFails, ms, copyMs));
  }

  /** buildAndStore, for every way it can go, is a run of the machine, and leaves the files the
      method leaves. */
  lemma BuildIsARun(s: State, i: nat, o: BuildOutcome, ms: nat, copyMs: nat)
    requires i < |s.deploys| && s.deploys[i].Building?
    ensures var end := BuildEnd(s, i, o, ms, copyMs);
            && Leads(i, s, end)
            && end.files == AfterBuild(s.files, o, Image(s.nextGen, s.clock + ms), s.clock + ms + copyMs)
            && end.deploys == s.deploys[i := if o.Renamed? || o.Copied? then Installed else Idle]
  {
    match o
    case BuildFails =>
      LeadsNowhere(i, s);
      LeadsOn(i, s, s, DeployStep(i, Fails), s.(deploys := s.deploys[i := Idle]));
    case Renamed => RenameIsARun(s, i, ms);
    case Copied => CopyIsARun(s, i, ms, copyMs, true);
    case CopyFails => CopyIsARun(s, i, ms, copyMs, false);
  }

  /** Deploy i's machine has booted and opened its drives. */
  function BootedState(s: State, i: nat): State
    requires i < |s.deploys| && s.files.code.Some? && s.files.base.Some?
  {
    s.(files := s.files.(snapTmp := None, memTmp := None),
       deploys := s.deploys[i := Booted(s.files.code.value.gen, s.files.base.value.gen)])
  }

  /** The old temporary files are gone. */
  function ClearedState(s: State, i: nat, next: Deploy): State
    requires i < |s.deploys|
  {
    s.(deploys := s.deploys[i := next], files := s.files.(snapTmp := None, memTmp := None))
  }

  lemma ClearIsARun(s: State, i: nat)
    requires i < |s.deploys| && s.deploys[i].Installed?
    ensures Leads(i, s, ClearedState(s, i, Booting))
  {
    hide Leads;
    LeadsNowhere(i, s);
    var s1 := s.(deploys := s.deploys[i := ClearingSnap]);
    LeadsOn(i, s, s, DeployStep(i, Go), s1);
    At(s, i, ClearingSnap, ClearingMem);
    var s2 := s.(deploys := s.deploys[i := ClearingMem], files := s.files.(snapTmp := None));
    LeadsOn(i, s, s1, DeployStep(i, Go), s2);
    At(s, i, ClearingMem, Booting);
    LeadsOn(i, s, s2, DeployStep(i, Go), ClearedState(s, i, Booting));
  }

  lemma BootIsARun(s: State, i: nat)
    requires i < |s.deploys| && s.deploys[i].Installed? && s.files.code.Some? && s.files.base.Some?
    ensures Leads(i, s, BootedState(s, i))
  {
    hide Leads;
    ClearIsARun(s, i);
    At(s, i, Booting, Booted(s.files.code.value.gen, s.files.base.value.gen));
    LeadsOn(i, s, ClearedState(s, i, Booting), DeployStep(i, Go), BootedState(s, i));
  }

  /** The machine does not boot, or there is no image to boot. */
  lemma FailedBootIsARun(s: State, i: nat)
    requires i < |s.deploys| && s.deploys[i].Installed?
    ensures Leads(i, s, ClearedState(s, i, Idle))
  {
    hide Leads;
    ClearIsARun(s, i);
    At(s, i, Booting, Idle);
    LeadsOn(i, s, ClearedState(s, i, Booting), DeployStep(i, Fails), ClearedState(s, i, Idle));
  }

  /** What a deploy leaves that creates the snapshot ms after booting, for the three ways
      the renames can go. */
  function SnapshotEnd(s: State, i: nat, o: SnapOutcome, ms: nat): State
    requires i < |s.deploys| && s.deploys[i].Booted?
  {
    var x := Snap(s.nextId, s.deploys[i].code, s.deploys[i].base, s.clock + ms);
    var end := s.(clock := s.clock + ms, nextId := s.nextId + 1, deploys := s.deploys[i := Idle]);
    match o
    case BootFails => s
    case CreateFails => end.(files := s.files.(snapTmp := None, memTmp := None))
    case FirstRenameFails => end.(files := s.files.(snapTmp := Some(x), memTmp := Some(s.nextId)))
    case SecondRenameFails =>
      end.(files := s.files.(snap := Some(x), snapTmp := None, memTmp := Some(s.nextId)),
           installs := s.installs + 1, torn := true)
    case Complete =>
      end.(files := s.files.(snap := Some(x), snapTmp := None, mem := Some(s.nextId), memTmp := None),
           installs := s.installs + 1, torn := false)
  }

  function CreatedState(s: State, i: nat, ms: nat, next: Deploy): State
    requires i < |s.deploys| && s.deploys[i].Booted?
  {
    s.(clock := s.clock + ms, nextId := s.nextId + 1, deploys := s.deploys[i := next],
       files := s.files.(snapTmp := Some(Snap(s.nextId, s.deploys[i].code, s.deploys[i].base, s.clock + ms)),
                         memTmp := Some(s.nextId)))
  }

  lemma CreateIsARun(s: State, i: nat, ms: nat, ok: bool)
    requires i < |s.deploys| && s.deploys[i].Booted?
    ensures Leads(i, s, CreatedState(s, i, ms, if ok then Created(s.nextId) else UndoingSnap))
  {
    hide Leads;
    LeadsNowhere(i, s);
    var s1 := s.(clock := s.clock + ms);
    LeadsOn(i, s, s, Tick(ms), s1);
    LeadsOn(i, s, s1, DeployStep(i, if ok then Go else Fails),
            CreatedState(s, i, ms, if ok then Created(s.nextId) else UndoingSnap));
  }

  lemma UndoIsARun(s: State, i: nat, ms: nat)
    requires i < |s.deploys| && s.deploys[i].Booted?
    ensures Leads(i, s, SnapshotEnd(s, i, CreateFails, ms))
  {
    hide Leads;
    CreateIsARun(s, i, ms, false);
    var s1 := CreatedState(s, i, ms, UndoingSnap);
    At(s, i, UndoingSnap, UndoingMem);
    var s2 := CreatedState(s, i, ms, UndoingMem).(files := s1.files.(snapTmp := None));
    LeadsOn(i, s, s1, DeployStep(i, Go), s2);
    At(s, i, UndoingMem, Idle);
    LeadsOn(i, s, s2, DeployStep(i, Go), SnapshotEnd(s, i, CreateFails, ms));
  }

  lemma RenamesAreARun(s: State, i: nat, o: SnapOutcome, ms: nat)
    requires i < |s.deploys| && s.deploys[i].Booted?
    requires o.FirstRenameFails? || o.SecondRenameFails? || o.Complete?
    ensures Leads(i, s, SnapshotEnd(s, i, o, ms))
  {
    hide Leads;
    CreateIsARun(s, i, ms, true);
    var id := s.nextId;
    var s1 := CreatedState(s, i, ms, Created(id));
    At(s, i, Created(id), Idle);
    if o.FirstRenameFails? {
      LeadsOn(i, s, s1, DeployStep(i, Fails), SnapshotEnd(s, i, o, ms));
    } else {
      At(s, i, Created(id), RenamedSnap(id));
      var s2 := CreatedState(s, i, ms, RenamedSnap(id))
                .(files := s1.files.(snap := s1.files.snapTmp, snapTmp := None),
                  installs := s.installs + 1, torn := true);
      LeadsOn(i, s, s1, DeployStep(i, Go), s2);
      At(s, i, RenamedSnap(id), Idle);
      LeadsOn(i, s, s2, DeployStep(i, if o.Complete? then Go else Fails), SnapshotEnd(s, i, o, ms));
    }
  }

  lemma LeadsThen(i: nat, a: State, b: State, c: State)
    requires Leads(i, a, b) && Leads(i, b, c)
    ensures Leads(i, a, c)
  {
    hide Next;
    var x: seq<Label> :| OfDeploy(i, x) && Run(a, x) == Some(b);
    var y: seq<Label> :| OfDeploy(i, y) && Run(b, y) == Some(c);
    RunSplit(a, x, y);
    assert OfDeploy(i, x + y) && Run(a, x + y) == Some(c);
  }

  lemma CreatedSnapshotIsARun(s: State, i: nat, o: SnapOutcome, ms: nat)
    requires i < |s.deploys| && s.deploys[i].Installed? && s.files.code.Some? && s.files.base.Some? && !o.BootFails?
    ensures Leads(i, s, SnapshotEnd(BootedState(s, i), i, o, ms))
  {
    BootIsARun(s, i);
    var b := BootedState(s, i);
    if o.CreateFails? {
      UndoIsARun(b, i, ms);
    } else {
      RenamesAreARun(b, i, o, ms);
    }
    LeadsThen(i, s, b, SnapshotEnd(b, i, o, ms));
  }

  /** snapshotFunction, for every way it can go, is a run of the machine, and leaves the files the
      method leaves. */
  lemma SnapshotIsARun(s: State, i: nat, o: SnapOutcome, ms: nat) returns (end: State)
    requires i < |s.deploys| && s.deploys[i].Installed?
    ensures Leads(i, s, end) && end.files == AfterSnapshot(s.files, o, s.nextId, s.clock + ms)
    ensures end.deploys == s.deploys[i := Idle]
  {
    if o.BootFails? || s.files.code.None? || s.files.base.None? {
      FailedBootIsARun(s, i);
      end := ClearedState(s, i, Idle);
    } else {
      CreatedSnapshotIsARun(s, i, o, ms);
      end := SnapshotEnd(BootedState(s, i), i, o, ms);
      At(s, i, BootedState(s, i).deploys[i], Idle);
    }
  }

  lemma OptOutIsARun(s: State, i: nat)
    requires i < |s.deploys| && s.deploys[i].Installed?
    ensures Leads(i, s, s.(files := s.files.(snap := None, mem := None), deploys := s.deploys[i := Idle]))
  {
    hide Leads;
    LeadsNowhere(i, s);
    var s1 := s.(deploys := s.deploys[i := DroppingSnap]);
    LeadsOn(i, s, s, DeployStep(i, WithoutSnapshot), s1);
    At(s, i, DroppingSnap, DroppingMem);
    var s2 := s.(deploys := s.deploys[i := DroppingMem], files := s.files.(snap := None));
    LeadsOn(i, s, s1, DeployStep(i, Go), s2);
    At(s, i, DroppingMem, Idle);
    LeadsOn(i, s, s2, DeployStep(i, Go),
            s.(files := s.files.(snap := None, mem := None), deploys := s.deploys[i := Idle]));
  }

  /** When the build of a deploy is over. */
  function BuiltAt(s: State, b: BuildOutcome, ms: nat, copyMs: nat): int {
    s.clock + ms + if b.Renamed? then 0 else copyMs
  }

  /** handleDeploy, for every way it can go, is a run of the machine, and leaves the files the
      method leaves. */
  lemma DeployIsARun(s: State, i: nat, b: BuildOutcome, ms: nat, copyMs: nat, wanted: bool, o: SnapOutcome,
                     snapMs: nat) returns (end: State)
    requires i < |s.deploys| && s.deploys[i].Building?
    ensures var at := BuiltAt(s, b, ms, copyMs);
            end.files == AfterDeploy(s.files, b, Image(s.nextGen, s.clock + ms), at, wanted, o, s.nextId, at + snapMs)
    ensures Leads(i, s, end) && end.deploys == s.deploys[i := Idle]
  {
    BuildIsARun(s, i, b, ms, copyMs);
    var built := BuildEnd(s, i, b, ms, copyMs);
    hide Leads;
    if b.BuildFails? || b.CopyFails? {
      end := built;
    } else {
      At(s, i, Installed, Idle);
      if wanted {
        end := SnapshotIsARun(built, i, o, snapMs);
      } else {
        OptOutIsARun(built, i);
        end := built.(files := built.files.(snap := None, mem := None), deploys := built.deploys[i := Idle]);
      }
      LeadsThen(i, s, built, end);
    }
  }

  /** From any reachable state, a deploy that nobody interrupts leaves a usable snapshot if and only
      if its image was installed, a snapshot was wanted, the base image is there, the clock has moved
      on since the image was written, and the snapshot came at least as far as its first rename with
      a memory file, its own or an old one, beside it. A usable snapshot is then of this deploy. */
  lemma DeployOutcome(s: State, i: nat, b: BuildOutcome, ms: nat, copyMs: nat, wanted: bool, o: SnapOutcome,
                      snapMs: nat) returns (end: State)
    requires Reachable(s) && i < |s.deploys| && s.deploys[i].Building?
    ensures Reachable(end) && end.deploys == s.deploys[i := Idle]
    ensures LeavesPair(s.files, end.files, b, s.nextGen, wanted, o, s.nextId)
    ensures b.BuildFails? ==> end.files == s.files
    ensures !b.BuildFails? ==>
              (SnapshotUsable(end.files) <==>
                && (b.Renamed? || b.Copied?) && wanted && s.files.base.Some? && snapMs > 0
                && (o.Complete? || (o.SecondRenameFails? && s.files.mem.Some?)))
    ensures !b.BuildFails? && SnapshotUsable(end.files) ==>
              end.files.snap.value.id == s.nextId && end.files.snap.value.code == s.nextGen == end.files.code.value.gen
  {
    end := DeployIsARun(s, i, b, ms, copyMs, wanted, o, snapMs);
    LeadsKeepsReachable(i, s, end);
    ReachableInv(s);
    hide Leads, Reachable, LeavesPair;
    DeployLeavesPair(s.files, b, Image(s.nextGen, s.clock + ms), BuiltAt(s, b, ms, copyMs), wanted, o, s.nextId,
                     BuiltAt(s, b, ms, copyMs) + snapMs);
    DeployedFiles(s.files, s.clock, b, Image(s.nextGen, s.clock + ms), BuiltAt(s, b, ms, copyMs), wanted, o, s.nextId,
                  snapMs);
  }

  lemma DeployedFiles(files: Files, clock: int, b: BuildOutcome, image: Image, at: int, wanted: bool, o: SnapOutcome,
                      id: nat, snapMs: nat)
    requires clock <= image.mtime <= at && (b.Renamed? ==> image.mtime == at)
    requires files.base.Some? ==> files.base.value.mtime <= clock
    requires files.snap.Some? ==> files.snap.value.mtime <= clock
    ensures var f := AfterDeploy(files, b, image, at, wanted, o, id, at + snapMs);
            && (b.BuildFails? ==> f == files)
            && (!b.BuildFails? ==>
                  (SnapshotUsable(f) <==>
                    && (b.Renamed? || b.Copied?) && wanted && files.base.Some? && snapMs > 0
                    && (o.Complete? || (o.SecondRenameFails? && files.mem.Some?))))
            && (!b.BuildFails? && SnapshotUsable(f) ==>
                  f.snap.value.id == id && f.snap.value.code == image.gen == f.code.value.gen)
  {
  }

  // A boot that nobody interrupts.

  ghost predicate BootLeads(a: State, b: State) {
    exists ls: seq<Label> :: (forall k | 0 <= k < |ls| :: ls[k].BootStep?) && Run(a, ls) == Some(b)
  }

  lemma BootLeadsNowhere(a: State)
    ensures BootLeads(a, a)
  {
    assert Run(a, []) == Some(a);
  }

  lemma BootLeadsOn(a: State, b: State, ok: bool)
    requires BootLeads(a, b)
    ensures BootLeads(a, NextBoot(b, ok))
  {
    var ls: seq<Label> :| (forall k | 0 <= k < |ls| :: ls[k].BootStep?) && Run(a, ls) == Some(b);
    hide NextBoot;
    RunSplit(a, ls, [BootStep(ok)]);
    assert Run(b, [BootStep(ok)]) == Run(NextBoot(b, ok), [BootStep(ok)][1..]);
    assert Run(a, ls + [BootStep(ok)]) == Some(NextBoot(b, ok));
  }

  /** The four stats find a usable snapshot, or end in a cold boot. */
  lemma StatsAreARun(s: State)
    requires s.boot.Resting? && s.files.code.Some?
    ensures SnapshotUsable(s.files) ==>
              BootLeads(s, s.(boot := Usable(s.files.snap.value, s.files.code.value, s.files.base.value)))
    ensures !SnapshotUsable(s.files) ==> BootLeads(s, s.(boot := ColdBooting))
  {
    hide BootLeads;
    BootLeadsNowhere(s);
    BootLeadsOn(s, s, true);
    var s1 := NextBoot(s, true);
    BootLeadsOn(s, s1, true);
    if s.files.snap.Some? {
      var s2 := NextBoot(s1, true);
      BootLeadsOn(s, s2, true);
      if s.files.mem.Some? {
        var s3 := NextBoot(s2, true);
        BootLeadsOn(s, s3, true);
        if NewerThan(s.files.snap.value, s.files.code) {
          BootLeadsOn(s, NextBoot(s3, true), true);
        }
      }
    }
  }

  /** bootVM, for every way a restore and a cold boot can go, is a run of the machine that
      ends as the method does, and counts one failed restore exactly when it removes the pair. */
  lemma BootVMIsARun(s: State, restoreOk: bool, coldOk: bool)
    requires s.boot.Resting?
    ensures var (r, files) := BootEnd(s.files, restoreOk, coldOk);
            var failed := s.files.code.Some? && SnapshotUsable(s.files) && !restoreOk;
            BootLeads(s, s.(boot := r, files := files, failures := s.failures + if failed then 1 else 0))
  {
    hide BootLeads;
    if s.files.code.None? {
      BootLeadsNowhere(s);
      BootLeadsOn(s, s, true);
    } else {
      StatsAreARun(s);
      if SnapshotUsable(s.files) {
        var s1 := s.(boot := Usable(s.files.snap.value, s.files.code.value, s.files.base.value));
        BootLeadsOn(s, s1, restoreOk);
        if !restoreOk {
          var s2 := NextBoot(s1, false);
          BootLeadsOn(s, s2, true);
          BootLeadsOn(s, NextBoot(s2, true), true);
          BootLeadsOn(s, NextBoot(NextBoot(s2, true), true), coldOk);
        }
      } else {
        BootLeadsOn(s, s.(boot := ColdBooting), coldOk);
      }
    }
  }

  // What the assumptions are for.

  const BASE := Image(0, 0)

  lemma InitReachable()
    ensures Reachable(Init(BASE)) && Possible(Init(BASE))
  {
    assert SerialRun(Init(BASE), []) && Run(Init(BASE), []) == Some(Init(BASE));
  }

  function Started(): State {
    Init(BASE).(deploys := [Building])
  }

  /** The first deploy has installed its image, of generation 1, at time 1, and its machine
      is up. */
  function FirstBooted(): State {
    Started().(files := Init(BASE).files.(code := Some(Image(1, 1))), clock := 1, nextGen := 2,
               deploys := [Booted(1, 0)])
  }

  lemma FirstBoots()
    ensures Reachable(FirstBooted()) && Possible(FirstBooted())
  {
    InitReachable();
    ReachableNext(Init(BASE), StartDeploy, Started());
    PossibleNext(Init(BASE), StartDeploy, Started());
    RenameIsARun(Started(), 0, 1);
    var s1 := InstalledState(Started(), 0, Image(1, 1)).(clock := 1, nextGen := 2);
    BootIsARun(s1, 0);
    assert BootedState(s1, 0) == FirstBooted();
    LeadsThen(0, Started(), s1, FirstBooted());
    LeadsKeepsReachable(0, Started(), FirstBooted());
    LeadsKeepsPossible(0, Started(), FirstBooted());
  }

  /** One complete deploy. */
  function FirstDone(): State {
    SnapshotEnd(FirstBooted(), 0, Complete, 1)
  }

  lemma FirstCompletes()
    ensures Reachable(FirstDone()) && SnapshotUsable(FirstDone().files) && !FirstDone().torn
  {
    FirstBoots();
    RenamesAreARun(FirstBooted(), 0, Complete, 1);
    LeadsKeepsReachable(0, FirstBooted(), FirstDone());
  }

  /** A second deploy whose second rename fails. */
  function SecondBooted(): State {
    FirstDone().(files := FirstDone().files.(code := Some(Image(2, 3))), clock := 3, nextGen := 3,
                 deploys := [Idle, Booted(2, 0)])
  }

  function MismatchedPair(): State {
    SnapshotEnd(SecondBooted(), 1, SecondRenameFails, 1)
  }

  lemma SecondBoots()
    ensures Reachable(SecondBooted())
  {
    FirstCompletes();
    var s0 := FirstDone().(deploys := [Idle, Building]);
    ReachableNext(FirstDone(), StartDeploy, s0);
    RenameIsARun(s0, 1, 1);
    var s1 := InstalledState(s0, 1, Image(2, 3)).(clock := 3, nextGen := 3);
    BootIsARun(s1, 1);
    assert BootedState(s1, 1) == SecondBooted();
    LeadsThen(1, s0, s1, SecondBooted());
    LeadsKeepsReachable(1, s0, SecondBooted());
  }

  /** With serial deploys, a missed second rename leaves a snapshot that snapshotUsable
      accepts beside the memory file of another one. */
  lemma UsableButMismatched()
    ensures Reachable(MismatchedPair()) && SnapshotUsable(MismatchedPair().files)
    ensures MismatchedPair().files.snap.value.id != MismatchedPair().files.mem.value
  {
    SecondBoots();
    RenamesAreARun(SecondBooted(), 1, SecondRenameFails, 1);
    LeadsKeepsReachable(1, SecondBooted(), MismatchedPair());
  }

  /** A base image rebuilt while a deploy's machine runs. */
  function RebuiltUnderneath(): State {
    FirstBooted().(files := FirstBooted().files.(base := Some(Image(2, 1))), nextGen := 3)
  }

  /** A base rebuild in the middle of a deploy can leave a snapshot of the old base image
      that snapshotUsable accepts. */
  lemma RebuildMustNotOverlap()
    ensures var s := SnapshotEnd(RebuiltUnderneath(), 0, Complete, 1);
            Possible(s) && SnapshotUsable(s.files) && s.files.snap.value.base != s.files.base.value.gen
  {
    FirstBoots();
    PossibleNext(FirstBooted(), RebuildBase, RebuiltUnderneath());
    RenamesAreARun(RebuiltUnderneath(), 0, Complete, 1);
    LeadsKeepsPossible(0, RebuiltUnderneath(), SnapshotEnd(RebuiltUnderneath(), 0, Complete, 1));
  }

  /** Two deploys at once: the second builds its image before the first takes its snapshot,
      and installs it, by rename, afterwards. */
  function BothBuilding(): State {
    Init(BASE).(deploys := [Building, Building])
  }

  function FirstInstalled(): State {
    BothBuilding().(files := Init(BASE).files.(code := Some(Image(1, 1))), clock := 1, nextGen := 2,
                    deploys := [Installed, Building])
  }

  function BothBooted(): State {
    FirstInstalled().(nextGen := 3, deploys := [Booted(1, 0), Built(Image(2, 1))])
  }

  function StaleButUsable(): State {
    SnapshotEnd(BothBooted(), 0, Complete, 1)
    .(files := SnapshotEnd(BothBooted(), 0, Complete, 1).files.(code := Some(Image(2, 1))),
      deploys := [Idle, Installed])
  }

  lemma BothBoot()
    ensures Possible(BothBooted())
  {
    InitReachable();
    PossibleNext(Init(BASE), StartDeploy, Started());
    PossibleNext(Started(), StartDeploy, BothBuilding());
    RenameIsARun(BothBuilding(), 0, 1);
    assert InstalledState(BothBuilding(), 0, Image(1, 1)).(clock := 1, nextGen := 2) == FirstInstalled();
    LeadsKeepsPossible(0, BothBuilding(), FirstInstalled());
    var s1 := FirstInstalled().(nextGen := 3, deploys := [Installed, Built(Image(2, 1))]);
    PossibleNext(FirstInstalled(), DeployStep(1, Go), s1);
    BootIsARun(s1, 0);
    assert BootedState(s1, 0) == BothBooted();
    LeadsKeepsPossible(0, s1, BothBooted());
  }

  /** Overlapping deploys can leave a snapshot of replaced code that snapshotUsable accepts. */
  lemma DeploysMustNotOverlap()
    ensures Possible(StaleButUsable()) && SnapshotUsable(StaleButUsable().files)
    ensures StaleButUsable().files.snap.value.code != StaleButUsable().files.code.value.gen
  {
    BothBoot();
    RenamesAreARun(BothBooted(), 0, Complete, 1);
    var s1 := SnapshotEnd(BothBooted(), 0, Complete, 1);
    LeadsKeepsPossible(0, BothBooted(), s1);
    PossibleNext(s1, DeployStep(1, Go), StaleButUsable());
  }
}
