/** A usable snapshot is one of the current code and base images; when its memory file
    belongs to it; and how often a restore can fail. */
module SnapshotSafety {
  import opened Options
  import opened SnapshotMachine

  /** A snapshot newer than an image was made from that image. */
  ghost predicate Trustworthy(s: State, x: Snap) {
    && x.mtime <= s.clock && x.id < s.nextId
    && (NewerThan(x, s.files.code) ==> x.code == s.files.code.value.gen)
    && (NewerThan(x, s.files.base) ==> x.base == s.files.base.value.gen)
  }

  function SeenBy(b: Boot): Option<Snap> {
    if b.SawSnap? || b.SawMem? || b.SawCode? || b.Usable? then Some(b.x) else None
  }

  /** Every snapshot file there is, and the one a boot has looked at, is trustworthy. */
  ghost predicate AllTrustworthy(s: State) {
    && (s.files.snap.Some? ==> Trustworthy(s, s.files.snap.value))
    && (s.files.snapTmp.Some? ==> Trustworthy(s, s.files.snapTmp.value))
    && (SeenBy(s.boot).Some? ==> Trustworthy(s, SeenBy(s.boot).value))
  }

  /** None of them is newer than time. */
  ghost predicate NoneAfter(s: State, time: int) {
    && (s.files.snap.Some? ==> s.files.snap.value.mtime <= time)
    && (s.files.snapTmp.Some? ==> s.files.snapTmp.value.mtime <= time)
    && (SeenBy(s.boot).Some? ==> SeenBy(s.boot).value.mtime <= time)
  }

  /** What a deploy in progress knows. */
  ghost predicate DeployOk(s: State, d: Deploy) {
    match d
    case Built(image) => image.mtime <= s.clock && NoneAfter(s, image.mtime)
    case Booted(code, base) =>
      && (s.files.code.Some? ==> s.files.code.value.gen == code)
      && (s.files.base.Some? ==> s.files.base.value.gen == base)
    case Created(id) =>
      && id < s.nextId
      && (s.files.snap.Some? ==> s.files.snap.value.id != id)
      && (s.files.mem.Some? ==> s.files.mem.value != id)
      && (s.files.snapTmp.Some? ==> s.files.snapTmp.value.id == id)
      && (s.files.memTmp.Some? ==> s.files.memTmp.value == id)
    case RenamedSnap(id) =>
      && s.torn
      && (s.files.snap.Some? ==> s.files.snap.value.id == id)
      && (s.files.mem.Some? ==> s.files.mem.value != id)
      && (s.files.memTmp.Some? ==> s.files.memTmp.value == id)
    case _ => true
  }

  /** What a boot has established by the stats it has done. */
  ghost predicate BootOk(b: Boot) {
    && (b.SawCode? ==> b.x.code == b.c.gen)
    && (b.Usable? ==> b.x.code == b.c.gen && b.x.base == b.b.gen)
  }

  ghost predicate OneDeploy(s: State) {
    forall i, j | 0 <= i < |s.deploys| && 0 <= j < |s.deploys| && i != j :: s.deploys[i].Idle? || s.deploys[j].Idle?
  }

  /** Both files together are of one snapshot exactly when the pair is not torn. */
  ghost predicate PairOk(s: State) {
    && (s.files.snap.Some? && s.files.mem.Some? ==> (s.files.snap.value.id == s.files.mem.value <==> !s.torn))
    && (s.files.mem.Some? ==> s.files.mem.value < s.nextId)
    && (s.files.memTmp.Some? ==> s.files.memTmp.value < s.nextId)
  }

  ghost predicate Dated(s: State) {
    && (s.files.code.Some? ==> s.files.code.value.mtime <= s.clock)
    && (s.files.base.Some? ==> s.files.base.value.mtime <= s.clock)
  }

  ghost predicate Inv(s: State) {
    && Dated(s) && OneDeploy(s) && BootOk(s.boot) && PairOk(s)
    && AllTrustworthy(s)
    && (forall i | 0 <= i < |s.deploys| :: DeployOk(s, s.deploys[i]))
  }

  lemma BuildKeeps(s: State, i: nat, c: Choice)
    requires Inv(s) && i < |s.deploys| && IsBuilding(s.deploys[i])
    ensures Inv(BuildStep(s, i, c))
  {
  }

  /** The one active deploy moves on and the others stay idle. */
  lemma OthersIdle(s: State, s': State, i: nat)
    requires OneDeploy(s) && i < |s.deploys| && !s.deploys[i].Idle?
    requires |s'.deploys| == |s.deploys| && s'.deploys == s.deploys[i := s'.deploys[i]]
    requires DeployOk(s', s'.deploys[i])
    ensures OneDeploy(s') && forall j | 0 <= j < |s'.deploys| :: DeployOk(s', s'.deploys[j])
  {
    forall j | 0 <= j < |s'.deploys| ensures DeployOk(s', s'.deploys[j]) {
      if j != i {
        assert s'.deploys[j] == Idle;
      }
    }
  }

  /** Steps that only decide or remove. */
  lemma TidyKeeps(s: State, i: nat, c: Choice)
    requires Inv(s) && i < |s.deploys|
    requires var d := s.deploys[i];
             d.Installed? || d.DroppingSnap? || d.DroppingMem? || d.ClearingSnap? || d.ClearingMem? || d.UndoingSnap?
             || d.UndoingMem?
    ensures Inv(SnapshotStep(s, i, c))
  {
    OthersIdle(s, SnapshotStep(s, i, c), i);
  }

  lemma BootingKeeps(s: State, i: nat, c: Choice)
    requires Inv(s) && i < |s.deploys| && s.deploys[i].Booting?
    ensures Inv(SnapshotStep(s, i, c))
  {
    OthersIdle(s, SnapshotStep(s, i, c), i);
  }

  lemma CreateKeeps(s: State, i: nat, c: Choice)
    requires Inv(s) && i < |s.deploys| && s.deploys[i].Booted?
    ensures Inv(SnapshotStep(s, i, c))
  {
    assert DeployOk(s, s.deploys[i]);
    OthersIdle(s, SnapshotStep(s, i, c), i);
  }

  lemma RenameSnapKeeps(s: State, i: nat, c: Choice)
    requires Inv(s) && i < |s.deploys| && s.deploys[i].Created?
    ensures Inv(SnapshotStep(s, i, c))
  {
    assert DeployOk(s, s.deploys[i]);
    OthersIdle(s, SnapshotStep(s, i, c), i);
  }

  lemma RenameMemKeeps(s: State, i: nat, c: Choice)
    requires Inv(s) && i < |s.deploys| && s.deploys[i].RenamedSnap?
    ensures Inv(SnapshotStep(s, i, c))
  {
    assert DeployOk(s, s.deploys[i]);
    OthersIdle(s, SnapshotStep(s, i, c), i);
  }

  lemma SnapshotKeeps(s: State, i: nat, c: Choice)
    requires Inv(s) && i < |s.deploys| && !IsBuilding(s.deploys[i]) && !s.deploys[i].Idle?
    ensures Inv(SnapshotStep(s, i, c))
  {
    hide Inv, SnapshotStep;
    match s.deploys[i]
    case Booting => BootingKeeps(s, i, c);
    case Booted(_, _) => CreateKeeps(s, i, c);
    case Created(_) => RenameSnapKeeps(s, i, c);
    case RenamedSnap(_) => RenameMemKeeps(s, i, c);
    case _ => TidyKeeps(s, i, c);
  }

  lemma RemoveKeeps(s: State, f: File)
    requires Inv(s)
    ensures Inv(s.(files := Without(s.files, f)))
  {
    var s' := s.(files := Without(s.files, f));
    forall i | 0 <= i < |s'.deploys| ensures DeployOk(s', s'.deploys[i]) {
      assert DeployOk(s, s.deploys[i]);
      RemoveKeepsDeploy(s, f, s.deploys[i]);
    }
    RemoveKeepsFiles(s, f);
    hide DeployOk, AllTrustworthy, PairOk, Dated, BootOk, Without;
    assert OneDeploy(s');
  }

  lemma RemoveKeepsDeploy(s: State, f: File, d: Deploy)
    requires DeployOk(s, d)
    ensures DeployOk(s.(files := Without(s.files, f)), d)
  {
  }

  lemma RemoveKeepsFiles(s: State, f: File)
    requires Dated(s) && PairOk(s) && AllTrustworthy(s)
    ensures var s' := s.(files := Without(s.files, f)); Dated(s') && PairOk(s') && AllTrustworthy(s')
  {
  }

  lemma TickKeeps(s: State, ms: nat)
    requires Inv(s)
    ensures Inv(s.(clock := s.clock + ms))
  {
  }

  lemma StartOrStopKeeps(s: State, deploys: seq<Deploy>)
    requires Inv(s)
    requires (deploys == s.deploys + [Building] && AllIdle(s))
             || forall i | 0 <= i < |deploys| :: deploys[i].Idle?
    ensures Inv(s.(deploys := deploys))
  {
  }

  lemma RebuildKeeps(s: State)
    requires Inv(s) && AllIdle(s)
    ensures Inv(Next(s, RebuildBase).value)
  {
  }

  lemma WorldKeeps(s: State, l: Label)
    requires Inv(s) && Serial(s, l) && (l.Tick? || l.StartDeploy? || l.RebuildBase? || l.StopStore?)
    ensures Inv(Next(s, l).value)
  {
    hide Inv;
    match l
    case Tick(ms) => TickKeeps(s, ms);
    case RebuildBase => RebuildKeeps(s);
    case StartDeploy => StartOrStopKeeps(s, s.deploys + [Building]);
    case StopStore => StartOrStopKeeps(s, Next(s, StopStore).value.deploys);
  }

  /** Stopping the store ends every deploy where it is and touches no file. */
  lemma StoppedStoreIsIdle(s: State)
    ensures Next(s, StopStore).Some? && AllIdle(Next(s, StopStore).value)
    ensures Next(s, StopStore).value == s.(deploys := Next(s, StopStore).value.deploys)
    ensures |Next(s, StopStore).value.deploys| == |s.deploys|
  {
  }

  /** Whatever writes an image dates it: installed by a copy, it is as new as the copy; installed by a
      rename, as old as its build, and no older than anything there was before. */
  lemma ImagesAreDated(s: State, i: nat, c: Choice)
    requires Inv(s) && i < |s.deploys| && s.deploys[i].Built?
    ensures var s', image := BuildStep(s, i, c), s.deploys[i].image;
            && (c.AcrossDevices? ==> s'.files.code == Some(Image(image.gen, s.clock)) && s'.deploys[i].Copying?)
            && (c.Go? ==> s'.files.code == Some(image) && s'.deploys[i].Installed?
                          && (s.files.snap.Some? ==> s.files.snap.value.mtime <= image.mtime <= s.clock))
  {
    assert DeployOk(s, s.deploys[i]);
  }

  /** A boot that changes no file: what it has seen was there, or is forgotten. */
  lemma StatKeeps(s: State, b: Boot, failures: nat)
    requires Inv(s) && BootOk(b)
    requires SeenBy(b).Some? ==> s.files.snap == SeenBy(b) || SeenBy(s.boot) == SeenBy(b)
    ensures Inv(s.(boot := b, failures := failures))
  {
    var s' := s.(boot := b, failures := failures);
    forall j | 0 <= j < |s'.deploys| ensures DeployOk(s', s'.deploys[j]) {
      assert DeployOk(s, s.deploys[j]);
    }
  }

  lemma DropKeeps(s: State, ok: bool)
    requires Inv(s) && (s.boot.DropSnap? || s.boot.DropMem?)
    ensures Inv(NextBoot(s, ok))
  {
    var s' := NextBoot(s, ok);
    forall j | 0 <= j < |s'.deploys| ensures DeployOk(s', s'.deploys[j]) {
      assert DeployOk(s, s.deploys[j]);
    }
  }

  lemma BootKeeps(s: State, ok: bool)
    requires Inv(s)
    ensures Inv(NextBoot(s, ok))
  {
    if s.boot.DropSnap? || s.boot.DropMem? {
      DropKeeps(s, ok);
    } else {
      StatKeeps(s, NextBoot(s, ok).boot, NextBoot(s, ok).failures);
    }
  }

  lemma InvStep(s: State, l: Label)
    requires Inv(s) && Serial(s, l) && Next(s, l).Some?
    ensures Inv(Next(s, l).value)
  {
    hide Inv, Serial;
    match l
    case DeployStep(i, c) => if IsBuilding(s.deploys[i]) { BuildKeeps(s, i, c); } else { SnapshotKeeps(s, i, c); }
    case Remove(f) => RemoveKeeps(s, f);
    case BootStep(ok) => BootKeeps(s, ok);
    case _ => WorldKeeps(s, l);
  }

  lemma {:induction false} InvRun(s: State, ls: seq<Label>)
    requires Inv(s) && SerialRun(s, ls) && Run(s, ls).Some?
    ensures Inv(Run(s, ls).value)
    decreases |ls|
  {
    hide Inv, Next, Serial;
    if ls != [] {
      InvStep(s, ls[0]);
      InvRun(Next(s, ls[0]).value, ls[1..]);
    }
  }

  /** Every run of serial deploys, from an empty directory, with any deletes, base rebuilds,
      stops and boots in between. */
  ghost predicate Reachable(s: State) {
    exists base: Image, ls: seq<Label> :: SerialRun(Init(base), ls) && Run(Init(base), ls) == Some(s)
  }

  lemma ReachableInv(s: State)
    requires Reachable(s)
    ensures Inv(s)
  {
    var base: Image, ls: seq<Label> :| SerialRun(Init(base), ls) && Run(Init(base), ls) == Some(s);
    InvRun(Init(base), ls);
  }

  /** A snapshot that snapshotUsable accepts was made from the images that its stats saw,
      even when files change between the stats. */
  lemma UsableIsFresh(s: State)
    requires Reachable(s) && s.boot.Usable?
    ensures s.boot.x.code == s.boot.c.gen && s.boot.x.base == s.boot.b.gen
  {
    ReachableInv(s);
  }

  /** When nothing changes during the stats, it was made from the current code and base
      images. */
  lemma UsableNowIsFresh(s: State)
    requires Reachable(s) && SnapshotUsable(s.files)
    ensures s.files.snap.value.code == s.files.code.value.gen && s.files.snap.value.base == s.files.base.value.gen
  {
    ReachableInv(s);
  }

  /** Two files that are both there belong together exactly when the last rename onto .snap
      has been followed by one onto .mem; in particular, whenever no deploy is between its
      renames and no second rename has been missed. */
  lemma PairMatches(s: State)
    requires Reachable(s) && s.files.snap.Some? && s.files.mem.Some?
    ensures s.files.snap.value.id == s.files.mem.value <==> !s.torn
  {
    ReachableInv(s);
  }

  // Failed restores.

  /** One restore may still fail on the snapshot that is there, or that a boot has seen. */
  function Credit(s: State): nat {
    if s.boot.DropSnap? then 0
    else if s.files.snap.Some? || SeenBy(s.boot).Some? then 1
    else 0
  }

  lemma CreditStep(s: State, l: Label)
    requires Next(s, l).Some?
    ensures var s' := Next(s, l).value;
            s'.failures + Credit(s') + s.installs <= s.failures + Credit(s) + s'.installs
  {
    if l.DeployStep? {
      CreditOfDeploy(s, l.i, l.c);
    }
  }

  lemma CreditOfDeploy(s: State, i: nat, c: Choice)
    requires Next(s, DeployStep(i, c)).Some?
    ensures var s' := Next(s, DeployStep(i, c)).value;
            s'.failures == s.failures && Credit(s') + s.installs <= Credit(s) + s'.installs
  {
  }

  /** Along any run, serial or not, failed restores never exceed the .snap files that were
      there at the start or have been put in place since. */
  lemma {:induction false} FailuresAreBounded(s: State, ls: seq<Label>)
    requires Run(s, ls).Some? && s.failures + Credit(s) <= s.installs
    ensures var s' := Run(s, ls).value; s'.failures + Credit(s') <= s'.installs
    decreases |ls|
  {
    hide Next, Credit;
    if ls != [] {
      CreditStep(s, ls[0]);
      FailuresAreBounded(Next(s, ls[0]).value, ls[1..]);
    }
  }

  lemma ReachableFailuresAreBounded(s: State)
    requires Reachable(s)
    ensures s.failures <= s.installs
  {
    var base: Image, ls: seq<Label> :| SerialRun(Init(base), ls) && Run(Init(base), ls) == Some(s);
    FailuresAreBounded(Init(base), ls);
  }

  /** A boot step ends in failure only at its beginning, without an image, or at its cold boot. */
  ghost predicate FailsHere(s: State, ok: bool, reason: Reason) {
    match reason
    case ImageMissing => s.boot.Resting? && s.files.code.None?
    case ColdBootFailed => s.boot.ColdBooting? && !ok
  }

  /** Along any run, serial or not: a boot that has failed did so by a step of its own after
      which no boot step followed, and that step either began the boot without an image or was a
      cold boot that failed. What deletes, deploys and bad snapshots do cannot make a boot fail. */
  lemma {:induction false} FailuresHaveACause(s: State, ls: seq<Label>) returns (k: nat)
    requires Run(s, ls).Some? && !s.boot.Failed? && Run(s, ls).value.boot.Failed?
    ensures k < |ls| && ls[k].BootStep? && Run(s, ls[..k]).Some?
    ensures FailsHere(Run(s, ls[..k]).value, ls[k].ok, Run(s, ls).value.boot.reason)
    ensures forall j | k < j < |ls| :: !ls[j].BootStep?
    decreases |ls|
  {
    var s1 := Next(s, ls[0]).value;
    if s1.boot.Failed? && (forall j | 0 < j < |ls| :: !ls[j].BootStep?) {
      k := 0;
      BootStaysPut(s1, ls[1..]);
    } else {
      var i: nat;
      if s1.boot.Failed? {
        i := NextCause(s1, ls[1..]);
      } else {
        i := FailuresHaveACause(s1, ls[1..]);
      }
      k := i + 1;
      assert ls[..k][1..] == ls[1..][..i];
      assert forall j | k < j < |ls| :: ls[j] == ls[1..][j - 1];
    }
  }

  /** From a failed boot whose failure is reported, the next boot starts afresh. */
  lemma {:induction false} NextCause(s: State, ls: seq<Label>) returns (k: nat)
    requires Run(s, ls).Some? && s.boot.Failed? && Run(s, ls).value.boot.Failed?
    requires exists j :: 0 <= j < |ls| && ls[j].BootStep?
    ensures k < |ls| && ls[k].BootStep? && Run(s, ls[..k]).Some?
    ensures FailsHere(Run(s, ls[..k]).value, ls[k].ok, Run(s, ls).value.boot.reason)
    ensures forall j | k < j < |ls| :: !ls[j].BootStep?
    decreases |ls|
  {
    var s1 := Next(s, ls[0]).value;
    var i: nat;
    if ls[0].BootStep? {
      i := FailuresHaveACause(s1, ls[1..]);
    } else {
      var j :| 0 <= j < |ls| && ls[j].BootStep?;
      assert ls[1..][j - 1] == ls[j];
      i := NextCause(s1, ls[1..]);
    }
    k := i + 1;
    assert ls[..k][1..] == ls[1..][..i];
    assert forall j | k < j < |ls| :: ls[j] == ls[1..][j - 1];
  }

  lemma {:induction false} BootStaysPut(s: State, ls: seq<Label>)
    requires Run(s, ls).Some? && forall j | 0 <= j < |ls| :: !ls[j].BootStep?
    ensures Run(s, ls).value.boot == s.boot
    decreases |ls|
  {
    if ls != [] {
      DropsOn(s, ls[0]);
      hide Next;
      BootStaysPut(Next(s, ls[0]).value, ls[1..]);
    }
  }

  lemma DropsOn(s: State, l: Label)
    requires Next(s, l).Some? && (l.BootStep? ==> s.boot.DropSnap? || s.boot.DropMem?)
    ensures var s' := Next(s, l).value;
            && s'.failures == s.failures
            && s'.boot == (if !l.BootStep? then s.boot else if s.boot.DropSnap? then DropMem else ColdBooting)
  {
  }

  function BootSteps(ls: seq<Label>): nat {
    if ls == [] then 0 else (if ls[0].BootStep? then 1 else 0) + BootSteps(ls[1..])
  }

  /** After a failed restore the boot drops both files and comes to a cold boot, whatever
      deploys, deletes and rebuilds do meanwhile. */
  lemma {:induction false} FailedRestoreComesToColdBoot(s: State, ls: seq<Label>)
    requires Run(s, ls).Some? && BootSteps(ls) == if s.boot.DropSnap? then 2 else if s.boot.DropMem? then 1 else 0
    requires s.boot.DropSnap? || s.boot.DropMem? || s.boot.ColdBooting?
    ensures Run(s, ls).value.boot.ColdBooting? && Run(s, ls).value.failures == s.failures
    decreases |ls|
  {
    if ls != [] {
      DropsOn(s, ls[0]);
      hide Next;
      FailedRestoreComesToColdBoot(Next(s, ls[0]).value, ls[1..]);
    }
  }

  /** A boot ends in failure only because the image is missing or the cold boot failed; a
      bad snapshot is dropped and followed by a cold boot. */
  lemma BadSnapshotFallsBack(s: State)
    requires s.boot.Usable?
    ensures var s1 := NextBoot(s, false);
            var s2 := NextBoot(s1, true);
            var s3 := NextBoot(s2, true);
            && s1.failures == s.failures + 1 && s3.failures == s1.failures
            && s3.boot == ColdBooting && s3.files == s.files.(snap := None, mem := None)
            && NextBoot(s3, true).boot == Up(false) && NextBoot(s3, false).boot == Failed(ColdBootFailed)
  {
  }

  // What the assumptions are for.

  lemma {:induction false} RunSplit(s: State, a: seq<Label>, b: seq<Label>)
    requires Run(s, a).Some?
    ensures Run(s, a + b) == Run(Run(s, a).value, b)
    decreases |a|
  {
    hide Next;
    if a == [] {
      assert a + b == b;
    } else {
      assert (a + b)[1..] == a[1..] + b;
      RunSplit(Next(s, a[0]).value, a[1..], b);
    }
  }

  /** Reached by some run, serial or not. */
  ghost predicate Possible(s: State) {
    exists base: Image, ls: seq<Label> :: Run(Init(base), ls) == Some(s)
  }

  lemma PossibleNext(s: State, l: Label, n: State)
    requires Possible(s) && Next(s, l).Some? && Next(s, l).value == n
    ensures Possible(n)
  {
    hide Next;
    var base: Image, ls: seq<Label> :| Run(Init(base), ls) == Some(s);
    RunSplit(Init(base), ls, [l]);
    assert Run(s, [l]) == Run(n, [l][1..]);
    assert Run(Init(base), ls + [l]) == Some(n);
  }

  lemma {:induction false} SerialSplit(s: State, a: seq<Label>, b: seq<Label>)
    requires SerialRun(s, a) && Run(s, a).Some? && SerialRun(Run(s, a).value, b)
    ensures SerialRun(s, a + b)
    decreases |a|
  {
    hide Next, Serial;
    if a == [] {
      assert a + b == b;
    } else {
      assert (a + b)[1..] == a[1..] + b;
      SerialSplit(Next(s, a[0]).value, a[1..], b);
    }
  }

  lemma ReachableNext(s: State, l: Label, n: State)
    requires Reachable(s) && Serial(s, l) && Next(s, l).Some? && Next(s, l).value == n
    ensures Reachable(n)
  {
    hide Next, Serial;
    var base: Image, ls: seq<Label> :| SerialRun(Init(base), ls) && Run(Init(base), ls) == Some(s);
    RunSplit(Init(base), ls, [l]);
    assert Run(s, [l]) == Run(n, [l][1..]);
    assert SerialRun(n, [l][1..]) && SerialRun(s, [l]);
    SerialSplit(Init(base), ls, [l]);
    assert Run(Init(base), ls + [l]) == Some(n);
  }
}
