/** Long-lived instances: what the instance-manager keeps in memory and on the host, and
    its operations as functions of both. */
module InstanceHost {
  import opened Options

  datatype Spec = Spec(id: string, guestIP: string, sshHostPort: int)

  /** The in-memory entry of a running machine, and what its run-state file holds. */
  datatype RunRecord = RunRecord(id: string, pid: int, socket: string, tap: string, guestIP: string, port: int)

  datatype RunFile = Unreadable | Garbage | Saved(r: RunRecord)

  /** A DNAT rule to the guest's SSH port, in the chain for outside or for local traffic. */
  datatype Rule = Prerouting(port: int, ip: string) | Output(port: int, ip: string)

  /** The host: tap devices, DNAT rules (iptables -A may add one twice), live processes and
      the instance each runs, every pid given out so far (none is given out twice), API
      sockets, run-state files and disks. */
  datatype Host = Host(taps: set<string>, rules: multiset<Rule>, procs: map<int, string>, pids: set<int>,
                       sockets: set<string>, files: map<string, RunFile>, disks: set<string>)

  datatype St = St(running: map<string, RunRecord>, host: Host)

  /** Interface names cap at 15 characters, so only the last eight of the id are used. */
  function TapName(id: string): string {
    "fctap" + (if |id| > 8 then id[|id| - 8..] else id)
  }

  lemma TapNameFits(id: string, other: string)
    ensures |TapName(id)| <= 13 && TapName(id)[..5] == "fctap"
    ensures |id| <= 8 ==> TapName(id)[5..] == id
    ensures |id| > 8 ==> TapName(id)[5..] == id[|id| - 8..]
    ensures |id| >= 8 && |other| >= 8 ==>
              (TapName(id) == TapName(other) <==> id[|id| - 8..] == other[|other| - 8..])
  {
    assert TapName(id)[5..] == if |id| > 8 then id[|id| - 8..] else id;
    if |id| >= 8 && |other| >= 8 {
      assert TapName(id)[5..] == id[|id| - 8..] && TapName(other)[5..] == other[|other| - 8..];
    }
  }

  function SocketPath(id: string): string {
    "/tmp/fc-inst-" + id + ".sock"
  }

  /** The path of an instance's API socket. */
  lemma SocketPathSpelled(id: string)
    ensures |SocketPath(id)| == |id| + 18 && SocketPath(id)[..13] == "/tmp/fc-inst-"
    ensures SocketPath(id)[13..13 + |id|] == id && SocketPath(id)[13 + |id|..] == ".sock"
  {
  }

  lemma SocketPathsDiffer(id: string, other: string)
    requires SocketPath(id) == SocketPath(other)
    ensures id == other
  {
    assert |SocketPath(id)| == 13 + |id| + 5 && |SocketPath(other)| == 13 + |other| + 5;
    assert id == SocketPath(id)[13..13 + |id|] && other == SocketPath(other)[13..13 + |other|];
  }

  function RecordOf(spec: Spec, pid: int): RunRecord {
    RunRecord(spec.id, pid, SocketPath(spec.id), TapName(spec.id), spec.guestIP, spec.sshHostPort)
  }

  // The helpers, as effects.

  function DelTap(h: Host, tap: string): Host { h.(taps := h.taps - {tap}) }
  function AddTap(h: Host, tap: string): Host { h.(taps := h.taps + {tap}) }
  function AddRule(h: Host, r: Rule): Host { h.(rules := h.rules + multiset{r}) }
  function DelRule(h: Host, r: Rule): Host { h.(rules := h.rules - multiset{r}) }
  function Kill(h: Host, pid: int): Host { h.(procs := h.procs - {pid}) }
  function DelSocket(h: Host, socket: string): Host { h.(sockets := h.sockets - {socket}) }
  function DelFile(h: Host, id: string): Host { h.(files := h.files - {id}) }
  function DelDisk(h: Host, id: string): Host { h.(disks := h.disks - {id}) }
  function WriteFile(h: Host, id: string, f: RunFile): Host { h.(files := h.files[id := f]) }

  /** Firecracker is up, with its API socket. */
  function Spawn(h: Host, pid: int, id: string): Host {
    h.(procs := h.procs[pid := id], pids := h.pids + {pid}, sockets := h.sockets + {SocketPath(id)})
  }

  function RemovePortForward(h: Host, port: int, ip: string): Host {
    DelRule(DelRule(h, Prerouting(port, ip)), Output(port, ip))
  }

  function TeardownNet(h: Host, tap: string, port: int, ip: string): Host {
    DelTap(if port > 0 && ip != "" then RemovePortForward(h, port, ip) else h, tap)
  }

  // The operations.

  /** The commands of createTap and addPortForward. Neither undoes what it has done when a later
      command fails. */
  datatype TapCommand = TuntapAdd | SetMaster | SetUp
  datatype RuleCommand = AppendPrerouting | AppendOutput

  /** How a start goes; for the helpers, at which command they fail. The run-state write's error is
      ignored. */
  datatype StartOutcome =
    | TapFails(at: TapCommand)
    | ForwardFails(rule: RuleCommand)
    | SpawnFails
    | ConfigureFails(pid: int)     // configuring or starting the machine fails
    | Starts(pid: int, recorded: bool)

  /** No helper fails after its first command, and the record is not lost. */
  predicate Tidy(o: StartOutcome) {
    && (o.TapFails? ==> o.at.TuntapAdd?)
    && (o.ForwardFails? ==> o.rule.AppendPrerouting?)
    && (o.Starts? ==> o.recorded)
  }

  /** createTap up to the command that fails, if any: only the first one makes the device, the
      others set it up. */
  function CreateTap(h: Host, tap: string, fails: Option<TapCommand>): Host {
    var cleared := DelTap(h, tap);
    if fails == Some(TuntapAdd) then cleared else AddTap(cleared, tap)
  }

  /** addPortForward up to the command that fails, if any. */
  function AddPortForward(h: Host, port: int, ip: string, fails: Option<RuleCommand>): Host {
    match fails
    case Some(AppendPrerouting) => h
    case Some(AppendOutput) => AddRule(h, Prerouting(port, ip))
    case None => AddRule(AddRule(h, Prerouting(port, ip)), Output(port, ip))
  }

  /** The host when both helpers have succeeded and the stale socket is gone. */
  function NetUp(h: Host, spec: Spec): Host {
    DelSocket(AddPortForward(CreateTap(h, TapName(spec.id), None), spec.sshHostPort, spec.guestIP, None),
              SocketPath(spec.id))
  }

  /** Start's `fail` rollback: kill, tear down the network, remove the socket. */
  function RollBack(h: Host, spec: Spec, pid: int): Host {
    DelSocket(TeardownNet(Kill(h, pid), TapName(spec.id), spec.sshHostPort, spec.guestIP), SocketPath(spec.id))
  }

  /** Start's host effects, once it has decided to boot. */
  function BootEffects(h: Host, spec: Spec, o: StartOutcome): Host {
    var tap := TapName(spec.id);
    match o
    case TapFails(at) => CreateTap(h, tap, Some(at))
    case ForwardFails(rule) =>
      DelTap(AddPortForward(CreateTap(h, tap, None), spec.sshHostPort, spec.guestIP, Some(rule)), tap)
    case SpawnFails => TeardownNet(NetUp(h, spec), tap, spec.sshHostPort, spec.guestIP)
    case ConfigureFails(pid) => RollBack(Spawn(NetUp(h, spec), pid, spec.id), spec, pid)
    case Starts(pid, recorded) =>
      var up := Spawn(NetUp(h, spec), pid, spec.id);
      if recorded then WriteFile(up, spec.id, Saved(RecordOf(spec, pid))) else up
  }

  function StartSpec(s: St, spec: Spec, o: StartOutcome): (St, bool) {
    if spec.id in s.running then (s, true)
    else if spec.id !in s.host.disks then (s, false)
    else
      (St(if o.Starts? then s.running[spec.id := RecordOf(spec, o.pid)] else s.running, BootEffects(s.host, spec, o)),
       o.Starts?)
  }

  /** Stop's host effects for the entry it has taken out of the map. */
  function StopEffects(h: Host, vm: RunRecord, id: string): Host {
    DelFile(DelSocket(TeardownNet(Kill(h, vm.pid), vm.tap, vm.port, vm.guestIP), vm.socket), id)
  }

  function StopSpec(s: St, id: string): St {
    if id !in s.running then s
    else St(s.running - {id}, StopEffects(s.host, s.running[id], id))
  }

  function DeleteSpec(s: St, spec: Spec): St {
    var h := if spec.id in s.running then
               var vm := s.running[spec.id];
               DelSocket(TeardownNet(Kill(s.host, vm.pid), vm.tap, vm.port, vm.guestIP), vm.socket)
             else s.host;
    St(s.running - {spec.id},
       DelDisk(DelFile(TeardownNet(h, TapName(spec.id), spec.sshHostPort, spec.guestIP), spec.id), spec.id))
  }

  /** adopt's treatment of one run-state file. */
  function AdoptOne(s: St, id: string): St {
    if id !in s.host.files then s
    else
      match s.host.files[id]
      case Unreadable => s
      case Garbage => s.(host := DelFile(s.host, id))
      case Saved(rs) =>
        if rs.pid > 0 && rs.pid in s.host.procs then s.(running := s.running[rs.id := rs])
        else s.(host := DelFile(DelSocket(TeardownNet(s.host, rs.tap, rs.port, rs.guestIP), rs.socket), id))
  }

  function AdoptAll(s: St, names: seq<string>): St
    decreases |names|
  {
    if names == [] then s else AdoptAll(AdoptOne(s, names[0]), names[1..])
  }

  /** A new manager process: memory is empty, the host is as the old one left it. */
  function Restarted(h: Host, names: seq<string>): St {
    AdoptAll(St(map[], h), names)
  }
}
