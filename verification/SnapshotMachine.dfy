/** The files of one function and everybody who touches them: deploys and deletes in the
    artifact-store, a rebuild of the base image, and the pool-manager's boots under a cap
    of one. Every file operation is one step; the clock never goes back. Contents are
    named by generation: an image by the build that made it, a snapshot by the images
    its machine was booted from. */
module SnapshotMachine {
  import opened Options

  datatype Image = Image(gen: nat, mtime: int)
  datatype Snap = Snap(id: nat, code: nat, base: nat, mtime: int)

  /** The memory file, of which only its existence is ever checked, is named by the
      snapshot it was created with. */
  datatype Files = Files(code: Option<Image>, base: Option<Image>, snap: Option<Snap>, mem: Option<nat>,
                         snapTmp: Option<Snap>, memTmp: Option<nat>)

  /** A deploy handler. Idle also stands for one that has returned. */
  datatype Deploy =
    | Idle
    | Building                            // unpacking and mkfs in a temporary directory
    | Built(image: Image)                 // before the rename into place
    | Copying(gen: nat)                   // the rename crossed devices; copying over the image
    | Installed                           // before the snapshot decision
    | DroppingSnap | DroppingMem          // snapshot=false
    | ClearingSnap | ClearingMem          // removing old temporary files
    | Booting                             // before the machine opens its drives
    | Booted(code: nat, base: nat)        // before the snapshot is created
    | UndoingSnap | UndoingMem            // creation failed
    | Created(id: nat)                    // before the first rename
    | RenamedSnap(id: nat)                // between the renames

  datatype Reason = ImageMissing | ColdBootFailed

  /** A boot in the pool-manager. snapshotUsable is four separate stats. */
  datatype Boot =
    | Resting
    | Checking
    | SawSnap(x: Snap)
    | SawMem(x: Snap)
    | SawCode(x: Snap, c: Image)
    | Usable(x: Snap, c: Image, b: Image)
    | DropSnap | DropMem                  // removeSnapshot after a failed restore
    | ColdBooting
    | Up(restored: bool)
    | Failed(reason: Reason)

  datatype State = State(
    files: Files,
    clock: int,
    nextGen: nat,
    nextId: nat,
    deploys: seq<Deploy>,
    boot: Boot,
    installs: nat,    // .snap files present at the start or renamed into place since
    failures: nat,    // failed restores
    torn: bool        // the last rename onto .snap has not been followed by one onto .mem
  )

  datatype File = CodeFile | SnapFile | MemFile | SnapTmpFile | MemTmpFile

  datatype Label =
    | Tick(ms: nat)
    | StartDeploy
    | DeployStep(i: nat, c: Choice)
    | Remove(f: File)          // one removal of a delete, at any time
    | RebuildBase
    | StopStore                // the artifact-store is stopped; its deploys end where they are
    | BootStep(ok: bool)

  datatype Choice =
    | Go | Fails
    | AcrossDevices            // the install rename fails and copyFile takes over
    | WithoutSnapshot

  function Without(files: Files, f: File): Files {
    match f
    case CodeFile => files.(code := None)
    case SnapFile => files.(snap := None)
    case MemFile => files.(mem := None)
    case SnapTmpFile => files.(snapTmp := None)
    case MemTmpFile => files.(memTmp := None)
  }

  function Touch(image: Option<Image>, now: int): Option<Image> {
    if image.None? then None else Some(image.value.(mtime := now))
  }

  function Goto(s: State, i: nat, d: Deploy): State
    requires i < |s.deploys|
  {
    s.(deploys := s.deploys[i := d])
  }

  /** buildAndStore. */
  function BuildStep(s: State, i: nat, c: Choice): State
    requires i < |s.deploys|
  {
    match s.deploys[i]
    case Building =>
      if c.Go? then Goto(s, i, Built(Image(s.nextGen, s.clock))).(nextGen := s.nextGen + 1) else Goto(s, i, Idle)
    case Built(image) =>
      if c.Go? then Goto(s, i, Installed).(files := s.files.(code := Some(image)))
      else if c.AcrossDevices? then
        Goto(s, i, Copying(image.gen)).(files := s.files.(code := Some(Image(image.gen, s.clock))))
      else Goto(s, i, Idle)
    case Copying(gen) =>
      Goto(s, i, if c.Go? then Installed else Idle).(files := s.files.(code := Touch(s.files.code, s.clock)))
    case _ => s
  }

  /** handleDeploy's snapshot decision, and snapshotFunction. */
  function SnapshotStep(s: State, i: nat, c: Choice): State
    requires i < |s.deploys|
  {
    match s.deploys[i]
    case Installed => Goto(s, i, if c.WithoutSnapshot? then DroppingSnap else ClearingSnap)
    case DroppingSnap => Goto(s, i, DroppingMem).(files := s.files.(snap := None))
    case DroppingMem => Goto(s, i, Idle).(files := s.files.(mem := None))
    case ClearingSnap => Goto(s, i, ClearingMem).(files := s.files.(snapTmp := None))
    case ClearingMem => Goto(s, i, Booting).(files := s.files.(memTmp := None))
    case Booting =>
      if c.Go? && s.files.code.Some? && s.files.base.Some?
      then Goto(s, i, Booted(s.files.code.value.gen, s.files.base.value.gen)) else Goto(s, i, Idle)
    case Booted(code, base) =>
      // firecracker writes both files, completely or not
      Goto(s, i, if c.Go? then Created(s.nextId) else UndoingSnap)
      .(files := s.files.(snapTmp := Some(Snap(s.nextId, code, base, s.clock)), memTmp := Some(s.nextId)),
        nextId := s.nextId + 1)
    case UndoingSnap => Goto(s, i, UndoingMem).(files := s.files.(snapTmp := None))
    case UndoingMem => Goto(s, i, Idle).(files := s.files.(memTmp := None))
    case Created(id) =>
      if c.Go? && s.files.snapTmp.Some?
      then Goto(s, i, RenamedSnap(id)).(files := s.files.(snap := s.files.snapTmp, snapTmp := None),
                                        installs := s.installs + 1, torn := true)
      else Goto(s, i, Idle)
    case RenamedSnap(_) =>
      if c.Go? && s.files.memTmp.Some?
      then Goto(s, i, Idle).(files := s.files.(mem := s.files.memTmp, memTmp := None), torn := false)
      else Goto(s, i, Idle)
    case _ => s
  }

  predicate IsBuilding(d: Deploy) {
    d.Building? || d.Built? || d.Copying?
  }

  function NewerThan(x: Snap, image: Option<Image>): bool {
    image.Some? && x.mtime > image.value.mtime
  }

  /** bootVM with its stats, a restore, removeSnapshot and the cold boot. */
  function NextBoot(s: State, ok: bool): State {
    match s.boot
    case Resting => s.(boot := if s.files.code.None? then Failed(ImageMissing) else Checking)
    case Checking => s.(boot := if s.files.snap.Some? then SawSnap(s.files.snap.value) else ColdBooting)
    case SawSnap(x) => s.(boot := if s.files.mem.Some? then SawMem(x) else ColdBooting)
    case SawMem(x) => s.(boot := if NewerThan(x, s.files.code) then SawCode(x, s.files.code.value) else ColdBooting)
    case SawCode(x, c) =>
      s.(boot := if NewerThan(x, s.files.base) then Usable(x, c, s.files.base.value) else ColdBooting)
    case Usable(_, _, _) => if ok then s.(boot := Up(true)) else s.(boot := DropSnap, failures := s.failures + 1)
    case DropSnap => s.(boot := DropMem, files := s.files.(snap := None))
    case DropMem => s.(boot := ColdBooting, files := s.files.(mem := None))
    case ColdBooting => s.(boot := if ok then Up(false) else Failed(ColdBootFailed))
    case Up(_) => s.(boot := Resting)
    case Failed(_) => s.(boot := Resting)
  }

  function Next(s: State, l: Label): Option<State> {
    match l
    case Tick(ms) => Some(s.(clock := s.clock + ms))
    case StartDeploy => Some(s.(deploys := s.deploys + [Building]))
    case DeployStep(i, c) =>
      if i >= |s.deploys| || s.deploys[i].Idle? then None
      else if IsBuilding(s.deploys[i]) then Some(BuildStep(s, i, c)) else Some(SnapshotStep(s, i, c))
    case Remove(f) => Some(s.(files := Without(s.files, f)))
    case RebuildBase =>
      Some(s.(files := s.files.(base := Some(Image(s.nextGen, s.clock))), nextGen := s.nextGen + 1))
    case StopStore => Some(s.(deploys := seq(|s.deploys|, i => Idle)))
    case BootStep(ok) => Some(NextBoot(s, ok))
  }

  predicate AllIdle(s: State) {
    forall i | 0 <= i < |s.deploys| :: s.deploys[i].Idle?
  }

  /** Deploys are serial, and the base image is rebuilt only while there are none. */
  predicate Serial(s: State, l: Label) {
    l.StartDeploy? || l.RebuildBase? ==> AllIdle(s)
  }

  function Run(s: State, ls: seq<Label>): Option<State>
    decreases |ls|
  {
    if ls == [] then Some(s)
    else
      var n := Next(s, ls[0]);
      if n.None? then None else Run(n.value, ls[1..])
  }

  ghost predicate SerialRun(s: State, ls: seq<Label>)
    decreases |ls|
  {
    ls != [] ==> Serial(s, ls[0]) && (Next(s, ls[0]).Some? ==> SerialRun(Next(s, ls[0]).value, ls[1..]))
  }

  /** Nothing deployed yet. */
  function Init(base: Image): State {
    State(Files(None, Some(base), None, None, None, None), base.mtime, base.gen + 1, 0, [], Resting, 0, 0, false)
  }

  /** What snapshotUsable answers when nothing changes during its stats. */
  predicate SnapshotUsable(files: Files) {
    && files.snap.Some? && files.mem.Some?
    && NewerThan(files.snap.value, files.code) && NewerThan(files.snap.value, files.base)
  }
}
