/** Carried out without interruption, the scripts are the operations: what the manager's methods
    do is one way for the interleaved system to go. */
module InstanceScripts {
  import opened Options
  import opened InstanceHost
  import opened InstanceSafety
  import opened InstanceSteps

  lemma RunBringUp(s: St, spec: Spec, rest: Script)
    ensures RunScript(s, spec, BringUp(rest)) == RunScript(s.(host := NetUp(s.host, spec)), spec, rest)
  {
    var s2 := RunCmd(RunCmd(s, spec, LinkDel), spec, LinkAdd);
    var t3 := Then(AppendOutside, Then(AppendLocal, Then(RemoveSocket, rest)));
    assert RunScript(s, spec, BringUp(rest)) == RunScript(s2, spec, t3);
    var s4 := RunCmd(RunCmd(s2, spec, AppendOutside), spec, AppendLocal);
    assert RunScript(s2, spec, t3) == RunScript(s4, spec, Then(RemoveSocket, rest));
  }

  lemma RunTearDown(s: St, spec: Spec, rest: Script)
    requires spec.sshHostPort > 0 && spec.guestIP != ""
    ensures RunScript(s, spec, TearDown(rest))
         == RunScript(s.(host := TeardownNet(s.host, TapName(spec.id), spec.sshHostPort, spec.guestIP)), spec, rest)
  {
    hide RunScript, DelRule, DelTap;
    RunTwoThen(s, spec, RemoveOutside, RemoveLocal, Then(LinkDel, rest));
    RunFirst(RunCmd(RunCmd(s, spec, RemoveOutside), spec, RemoveLocal), spec, LinkDel, rest);
  }

  lemma RunOne(s: St, spec: Spec, cmd: Cmd)
    ensures RunScript(s, spec, Then(cmd, Done)) == RunCmd(s, spec, cmd)
  {
  }

  lemma RunTwo(s: St, spec: Spec, a: Cmd, b: Cmd)
    ensures RunScript(s, spec, Then(a, Then(b, Done))) == RunCmd(RunCmd(s, spec, a), spec, b)
  {
    RunOne(RunCmd(s, spec, a), spec, b);
  }

  lemma SpawnFailureIsStart(s: St, spec: Spec)
    requires spec.id !in s.running && spec.id in s.host.disks && spec.sshHostPort > 0 && spec.guestIP != ""
    ensures RunScript(s, spec, StartScript(SpawnFails)) == StartSpec(s, spec, SpawnFails).0
  {
    hide RunScript, NetUp, TeardownNet;
    var net := s.(host := NetUp(s.host, spec));
    RunBringUp(s, spec, TearDown(Done));
    RunTearDown(net, spec, Done);
    RunNone(net.(host := TeardownNet(net.host, TapName(spec.id), spec.sshHostPort, spec.guestIP)), spec);
  }

  lemma RunNone(s: St, spec: Spec)
    ensures RunScript(s, spec, Done) == s
  {
  }

  lemma ConfigureFailureIsStart(s: St, spec: Spec, pid: int)
    requires spec.id !in s.running && spec.id in s.host.disks && spec.sshHostPort > 0 && spec.guestIP != ""
    ensures RunScript(s, spec, StartScript(ConfigureFails(pid))) == StartSpec(s, spec, ConfigureFails(pid)).0
  {
    hide RunScript, NetUp, TeardownNet;
    var net := s.(host := NetUp(s.host, spec));
    var down := TearDown(Then(RemoveSocket, Done));
    RunBringUp(s, spec, Then(SpawnVm(pid), Then(KillVm(pid), down)));
    var killed := RunCmd(RunCmd(net, spec, SpawnVm(pid)), spec, KillVm(pid));
    RunTwoThen(net, spec, SpawnVm(pid), KillVm(pid), down);
    RunTearDown(killed, spec, Then(RemoveSocket, Done));
    RunOne(killed.(host := TeardownNet(killed.host, TapName(spec.id), spec.sshHostPort, spec.guestIP)), spec,
           RemoveSocket);
  }

  lemma SuccessIsStart(s: St, spec: Spec, pid: int, recorded: bool)
    requires spec.id !in s.running && spec.id in s.host.disks
    ensures RunScript(s, spec, StartScript(Starts(pid, recorded))) == StartSpec(s, spec, Starts(pid, recorded)).0
  {
    hide RunScript, NetUp;
    var net := s.(host := NetUp(s.host, spec));
    var end := if recorded then Then(WriteRecord(pid), Done) else Done;
    RunBringUp(s, spec, Then(SpawnVm(pid), Then(Enroll(pid), end)));
    RunTwoThen(net, spec, SpawnVm(pid), Enroll(pid), end);
    var enrolled := RunCmd(RunCmd(net, spec, SpawnVm(pid)), spec, Enroll(pid));
    if recorded {
      RunOne(enrolled, spec, WriteRecord(pid));
    } else {
      RunNone(enrolled, spec);
    }
  }

  lemma TapFailureIsStart(s: St, spec: Spec, at: TapCommand)
    requires spec.id !in s.running && spec.id in s.host.disks
    ensures RunScript(s, spec, StartScript(TapFails(at))) == StartSpec(s, spec, TapFails(at)).0
  {
    if at.TuntapAdd? {
      RunOne(s, spec, LinkDel);
    } else {
      RunTwo(s, spec, LinkDel, LinkAdd);
    }
  }

  /** An uninterrupted start does what StartSpec says, for every way it can go. */
  lemma StartScriptIsStart(s: St, spec: Spec, o: StartOutcome)
    requires spec.id !in s.running && spec.id in s.host.disks && spec.sshHostPort > 0 && spec.guestIP != ""
    ensures RunScript(s, spec, StartScript(o)) == StartSpec(s, spec, o).0
  {
    hide RunScript, StartScript, StartSpec;
    match o
    case TapFails(at) => TapFailureIsStart(s, spec, at);
    case ForwardFails(rule) => ForwardFailureIsStart(s, spec, rule);
    case SpawnFails => SpawnFailureIsStart(s, spec);
    case ConfigureFails(pid) => ConfigureFailureIsStart(s, spec, pid);
    case Starts(pid, recorded) => SuccessIsStart(s, spec, pid, recorded);
  }

  lemma RunTwoThen(s: St, spec: Spec, a: Cmd, b: Cmd, rest: Script)
    ensures RunScript(s, spec, Then(a, Then(b, rest))) == RunScript(RunCmd(RunCmd(s, spec, a), spec, b), spec, rest)
  {
    assert RunScript(RunCmd(s, spec, a), spec, Then(b, rest))
        == RunScript(RunCmd(RunCmd(s, spec, a), spec, b), spec, rest);
  }

  lemma ForwardFailureIsStart(s: St, spec: Spec, rule: RuleCommand)
    requires spec.id !in s.running && spec.id in s.host.disks
    ensures RunScript(s, spec, StartScript(ForwardFails(rule))) == StartSpec(s, spec, ForwardFails(rule)).0
  {
    var undo := Then(LinkDel, Done);
    var s2 := RunCmd(RunCmd(s, spec, LinkDel), spec, LinkAdd);
    if rule.AppendPrerouting? {
      RunTwoThen(s, spec, LinkDel, LinkAdd, undo);
      RunOne(s2, spec, LinkDel);
    } else {
      RunTwoThen(s, spec, LinkDel, LinkAdd, Then(AppendOutside, undo));
      RunTwo(s2, spec, AppendOutside, LinkDel);
    }
  }

  /** An uninterrupted stop does what StopSpec says. */
  lemma StopScriptIsStop(s: St, spec: Spec, pid: int)
    requires spec.id in s.running && s.running[spec.id] == RecordOf(spec, pid)
    requires spec.sshHostPort > 0 && spec.guestIP != ""
    ensures RunScript(s.(running := s.running - {spec.id}), spec, StopScript(pid)) == StopSpec(s, spec.id)
  {
    var s0 := s.(running := s.running - {spec.id});
    var killed := RunCmd(s0, spec, KillVm(pid));
    var last := Then(RemoveSocket, Then(RemoveRecord, Done));
    assert RunScript(s0, spec, StopScript(pid)) == RunScript(killed, spec, TearDown(last));
    RunTearDown(killed, spec, last);
    var torn := killed.(host := TeardownNet(killed.host, TapName(spec.id), spec.sshHostPort, spec.guestIP));
    RunTwo(torn, spec, RemoveSocket, RemoveRecord);
  }

  /** Delete's last part. */
  lemma DeleteTail(s: St, spec: Spec)
    requires spec.sshHostPort > 0 && spec.guestIP != ""
    ensures RunScript(s, spec, TearDown(Then(RemoveRecord, Then(RemoveDisk, Done))))
         == s.(host := DelDisk(DelFile(TeardownNet(s.host, TapName(spec.id), spec.sshHostPort, spec.guestIP), spec.id),
                               spec.id))
  {
    hide RunScript, TeardownNet;
    RunTearDown(s, spec, Then(RemoveRecord, Then(RemoveDisk, Done)));
    var torn := s.(host := TeardownNet(s.host, TapName(spec.id), spec.sshHostPort, spec.guestIP));
    RunTwo(torn, spec, RemoveRecord, RemoveDisk);
  }

  /** The network of a running instance that Delete takes down first. */
  function TakenDown(s: St, spec: Spec, pid: int): St {
    var h := TeardownNet(Kill(s.host, pid), TapName(spec.id), spec.sshHostPort, spec.guestIP);
    St(s.running - {spec.id}, DelSocket(h, SocketPath(spec.id)))
  }

  lemma RunTakeDown(s: St, spec: Spec, pid: int, rest: Script)
    requires spec.sshHostPort > 0 && spec.guestIP != ""
    ensures RunScript(s.(running := s.running - {spec.id}), spec,
                      Then(KillVm(pid), TearDown(Then(RemoveSocket, rest))))
         == RunScript(TakenDown(s, spec, pid), spec, rest)
  {
    hide RunScript, TeardownNet, TearDown;
    var s0 := s.(running := s.running - {spec.id});
    var killed := RunCmd(s0, spec, KillVm(pid));
    RunFirst(s0, spec, KillVm(pid), TearDown(Then(RemoveSocket, rest)));
    RunTearDown(killed, spec, Then(RemoveSocket, rest));
    var torn := killed.(host := TeardownNet(killed.host, TapName(spec.id), spec.sshHostPort, spec.guestIP));
    RunFirst(torn, spec, RemoveSocket, rest);
  }

  /** An uninterrupted delete does what DeleteSpec says, running or not. */
  lemma DeleteScriptIsDelete(s: St, spec: Spec, entry: Option<int>)
    requires spec.id in s.running <==> entry.Some?
    requires entry.Some? ==> s.running[spec.id] == RecordOf(spec, entry.value)
    requires spec.sshHostPort > 0 && spec.guestIP != ""
    ensures RunScript(s.(running := s.running - {spec.id}), spec, DeleteScript(entry)) == DeleteSpec(s, spec)
  {
    var rest := TearDown(Then(RemoveRecord, Then(RemoveDisk, Done)));
    if entry.Some? {
      RunTakeDown(s, spec, entry.value, rest);
      DeleteTail(TakenDown(s, spec, entry.value), spec);
      hide RunScript, TeardownNet, TearDown;
    } else {
      DeleteTail(s.(running := s.running - {spec.id}), spec);
    }
  }

  lemma RunFirst(s: St, spec: Spec, cmd: Cmd, rest: Script)
    ensures RunScript(s, spec, Then(cmd, rest)) == RunScript(RunCmd(s, spec, cmd), spec, rest)
  {
  }
}
