/** The instance-manager with every effect as a step of its own, and operations on different
    instances interleaved. An operation in flight is the script of effects it has still to carry
    out; operations on one instance do not overlap. */
module InstanceSteps {
  import opened Options
  import opened InstanceHost
  import opened InstanceSafety

  /** The effects, all on one instance's own resources. */
  datatype Cmd =
    | LinkDel | LinkAdd
    | AppendOutside | AppendLocal | RemoveOutside | RemoveLocal
    | RemoveSocket
    | SpawnVm(pid: int) | KillVm(pid: int)
    | Enroll(pid: int)        // the lock section that makes the entry in the map
    | WriteRecord(pid: int) | RemoveRecord
    | RemoveDisk

  datatype Script = Done | Then(cmd: Cmd, rest: Script)

  function RunCmd(s: St, spec: Spec, cmd: Cmd): St {
    match cmd
    case LinkDel => s.(host := DelTap(s.host, TapName(spec.id)))
    case LinkAdd => s.(host := AddTap(s.host, TapName(spec.id)))
    case AppendOutside => s.(host := AddRule(s.host, Outside(spec)))
    case AppendLocal => s.(host := AddRule(s.host, Local(spec)))
    case RemoveOutside => s.(host := DelRule(s.host, Outside(spec)))
    case RemoveLocal => s.(host := DelRule(s.host, Local(spec)))
    case RemoveSocket => s.(host := DelSocket(s.host, SocketPath(spec.id)))
    case SpawnVm(pid) => s.(host := Spawn(s.host, pid, spec.id))
    case KillVm(pid) => s.(host := Kill(s.host, pid))
    case Enroll(pid) => s.(running := s.running[spec.id := RecordOf(spec, pid)])
    case WriteRecord(pid) => s.(host := WriteFile(s.host, spec.id, Saved(RecordOf(spec, pid))))
    case RemoveRecord => s.(host := DelFile(s.host, spec.id))
    case RemoveDisk => s.(host := DelDisk(s.host, spec.id))
  }

  // The operations as scripts.

  function BringUp(rest: Script): Script {
    Then(LinkDel, Then(LinkAdd, Then(AppendOutside, Then(AppendLocal, Then(RemoveSocket, rest)))))
  }

  function TearDown(rest: Script): Script {
    Then(RemoveOutside, Then(RemoveLocal, Then(LinkDel, rest)))
  }

  function StartScript(o: StartOutcome): Script {
    match o
    case TapFails(at) => if at.TuntapAdd? then Then(LinkDel, Done) else Then(LinkDel, Then(LinkAdd, Done))
    case ForwardFails(rule) =>
      var undo := Then(LinkDel, Done);
      Then(LinkDel, Then(LinkAdd, if rule.AppendPrerouting? then undo else Then(AppendOutside, undo)))
    case SpawnFails => BringUp(TearDown(Done))
    case ConfigureFails(pid) => BringUp(Then(SpawnVm(pid), Then(KillVm(pid), TearDown(Then(RemoveSocket, Done)))))
    case Starts(pid, recorded) =>
      BringUp(Then(SpawnVm(pid), Then(Enroll(pid), if recorded then Then(WriteRecord(pid), Done) else Done)))
  }

  /** Stop, after it has taken the entry out of the map. */
  function StopScript(pid: int): Script {
    Then(KillVm(pid), TearDown(Then(RemoveSocket, Then(RemoveRecord, Done))))
  }

  /** Delete, after it has taken the entry, if any, out of the map. */
  function DeleteScript(entry: Option<int>): Script {
    var rest := TearDown(Then(RemoveRecord, Then(RemoveDisk, Done)));
    if entry.Some? then Then(KillVm(entry.value), TearDown(Then(RemoveSocket, rest))) else rest
  }

  function RunScript(s: St, spec: Spec, todo: Script): St
    decreases todo
  {
    if todo.Done? then s else RunScript(RunCmd(s, spec, todo.cmd), spec, todo.rest)
  }

  // The system.

  /** What there is of an instance: on the host, and its entry. A process in `alive` may have
      exited by itself; no other process of the instance runs. */
  datatype Pieces = Pieces(tap: bool, outside: nat, local: nat, socket: bool, alive: set<int>, known: set<int>,
                           entry: Option<int>, file: Option<int>)

  datatype Job = StartJob(o: StartOutcome) | StopJob | DeleteJob

  /** The phase an instance is in, with the pieces it should have there. */
  datatype Phase = Idle(at: Pieces) | Busy(job: Job, at: Pieces, todo: Script)

  datatype Sys = Sys(st: St, phases: map<string, Phase>)

  datatype Event =
    | Begin(id: string, job: Job)
    | Go(id: string)              // the next effect of the operation in flight
    | Exits(pid: int)             // a process ends by itself
    | Provisions(id: string)
    | Crashes(names: seq<string>) // the manager dies and a new one adopts

  function After(x: Pieces, cmd: Cmd): Pieces {
    match cmd
    case LinkDel => x.(tap := false)
    case LinkAdd => x.(tap := true)
    case AppendOutside => x.(outside := x.outside + 1)
    case AppendLocal => x.(local := x.local + 1)
    case RemoveOutside => x.(outside := if x.outside > 0 then x.outside - 1 else 0)
    case RemoveLocal => x.(local := if x.local > 0 then x.local - 1 else 0)
    case RemoveSocket => x.(socket := false)
    case SpawnVm(pid) => x.(alive := x.alive + {pid}, known := x.known + {pid}, socket := true)
    case KillVm(pid) => x.(alive := x.alive - {pid})
    case Enroll(pid) => x.(entry := Some(pid))
    case WriteRecord(pid) => x.(file := Some(pid))
    case RemoveRecord => x.(file := None)
    case RemoveDisk => x
  }

  const NOTHING := Pieces(false, 0, 0, false, {}, {}, None, None)

  function Everything(pid: int): Pieces {
    Pieces(true, 1, 1, true, {pid}, {pid}, Some(pid), Some(pid))
  }

  /** A crash here loses nothing: a restart finds the instance gone, attached, or dead with its
      record. */
  predicate CrashSafe(x: Pieces) {
    || (x.file.None? && !x.tap && !x.socket && x.outside == 0 && x.local == 0 && x.alive == {})
    || (x.file.Some? && x.tap && x.socket && x.outside == 1 && x.local == 1 && x.alive <= {x.file.value})
    || (x.file.Some? && x.alive == {} && x.outside <= 1 && x.local <= 1)
  }

  predicate FreshFor(h: Host, cmd: Cmd) {
    cmd.SpawnVm? ==> cmd.pid > 0 && cmd.pid !in h.pids && cmd.pid !in h.procs
  }

  function SetPhase(c: Sys, st: St, id: string, p: Phase): Sys {
    Sys(st, c.phases[id := p])
  }

  /** Where an operation begins: its checks and, for stop and delete, the lock section that takes
      the entry out of the map. */
  function Started(c: Sys, id: string, at: Pieces, job: Job): Sys {
    var s := c.st;
    match job
    case StartJob(o) =>
      if id in s.running || id !in s.host.disks then c else SetPhase(c, s, id, Busy(job, at, StartScript(o)))
    case StopJob =>
      if id !in s.running then c
      else
        SetPhase(c, s.(running := s.running - {id}), id,
                 Busy(job, at.(entry := None), StopScript(s.running[id].pid)))
    case DeleteJob =>
      var entry := if id in s.running then Some(s.running[id].pid) else None;
      SetPhase(c, s.(running := s.running - {id}), id, Busy(job, at.(entry := None), DeleteScript(entry)))
  }

  function Carried(at: Pieces, job: Job, rest: Script): Phase {
    if rest.Done? then Idle(at) else Busy(job, at, rest)
  }

  /** What a restart leaves of an instance. */
  function Adopted(s: St, id: string): Phase {
    Idle(if id in s.running then Everything(s.running[id].pid) else NOTHING)
  }

  function Next(reg: map<string, Spec>, c: Sys, e: Event): Option<Sys> {
    match e
    case Begin(id, job) =>
      if id in reg && id in c.phases && c.phases[id].Idle? then Some(Started(c, id, c.phases[id].at, job)) else None
    case Go(id) =>
      if id in reg && id in c.phases && c.phases[id].Busy? && c.phases[id].todo.Then? then
        var p := c.phases[id];
        if FreshFor(c.st.host, p.todo.cmd) then
          Some(SetPhase(c, RunCmd(c.st, reg[id], p.todo.cmd), id,
                        Carried(After(p.at, p.todo.cmd), p.job, p.todo.rest)))
        else None
      else None
    case Exits(pid) => Some(c.(st := c.st.(host := Kill(c.st.host, pid))))
    case Provisions(id) => Some(c.(st := c.st.(host := c.st.host.(disks := c.st.host.disks + {id}))))
    case Crashes(names) =>
      if (forall id | id in c.phases :: CrashSafe(c.phases[id].at)) && (forall f | f in c.st.host.files :: f in names)
      then
        var s := Restarted(c.st.host, names);
        Some(Sys(s, map id | id in c.phases :: Adopted(s, id)))
      else None
  }

  function Run(reg: map<string, Spec>, c: Sys, es: seq<Event>): Option<Sys>
    decreases |es|
  {
    if es == [] then Some(c)
    else
      var n := Next(reg, c, es[0]);
      if n.None? then None else Run(reg, n.value, es[1..])
  }

  /** No instances, and a host with none of their resources. */
  ghost predicate Fresh(reg: map<string, Spec>, c: Sys) {
    && c.st.running == map[] && c.st.host.files == map[]
    && (forall id | id in reg :: HostDetached(c.st.host, reg[id]))
    && c.phases.Keys == reg.Keys && (forall id | id in reg :: c.phases[id] == Idle(NOTHING))
  }
}
