/** Every instance is fully attached or not attached at all: after each operation, and
    after a restart that follows a crash anywhere in a teardown. */
module InstanceSafety {
  import opened Options
  import opened InstanceHost

  /** The rows of the instance table: every id has its own port, address and tap name. */
  ghost predicate Registry(reg: map<string, Spec>) {
    && (forall id | id in reg :: reg[id].id == id && reg[id].sshHostPort > 0 && reg[id].guestIP != "")
    && (forall a, b | a in reg && b in reg && a != b ::
          reg[a].sshHostPort != reg[b].sshHostPort && TapName(a) != TapName(b))
  }

  /** What belongs to one instance on the host. */
  ghost predicate HasTap(h: Host, spec: Spec) { TapName(spec.id) in h.taps }
  ghost predicate HasSocket(h: Host, spec: Spec) { SocketPath(spec.id) in h.sockets }
  function Outside(spec: Spec): Rule { Prerouting(spec.sshHostPort, spec.guestIP) }
  function Local(spec: Spec): Rule { Output(spec.sshHostPort, spec.guestIP) }

  ghost predicate NoProc(h: Host, id: string) {
    forall pid | pid in h.procs :: h.procs[pid] != id
  }

  /** Network, socket and run-state file are all there, once; no process of the instance
      runs but the recorded one. That one may have exited by itself. */
  ghost predicate HostAttached(h: Host, spec: Spec, vm: RunRecord) {
    && vm.pid > 0 && vm.pid in h.pids && vm == RecordOf(spec, vm.pid)
    && spec.id in h.files && h.files[spec.id] == Saved(vm)
    && HasTap(h, spec) && HasSocket(h, spec)
    && h.rules[Outside(spec)] == 1 && h.rules[Local(spec)] == 1
    && (forall pid | pid in h.procs && h.procs[pid] == spec.id :: pid == vm.pid)
    && (vm.pid in h.procs ==> h.procs[vm.pid] == spec.id)
  }

  /** Nothing of the instance is left on the host but perhaps its disk. */
  ghost predicate HostDetached(h: Host, spec: Spec) {
    && spec.id !in h.files && !HasTap(h, spec) && !HasSocket(h, spec)
    && h.rules[Outside(spec)] == 0 && h.rules[Local(spec)] == 0
    && NoProc(h, spec.id)
  }

  /** Its machine is dead and its run-state file still there; of the rest, anything may
      have been taken down already. */
  ghost predicate HostHalfDown(h: Host, spec: Spec, vm: RunRecord) {
    && vm.pid in h.pids && vm == RecordOf(spec, vm.pid) && vm.pid !in h.procs
    && spec.id in h.files && h.files[spec.id] == Saved(vm)
    && h.rules[Outside(spec)] <= 1 && h.rules[Local(spec)] <= 1
    && NoProc(h, spec.id)
  }

  ghost predicate Attached(s: St, spec: Spec) {
    spec.id in s.running && HostAttached(s.host, spec, s.running[spec.id])
  }

  ghost predicate Detached(s: St, spec: Spec) {
    spec.id !in s.running && HostDetached(s.host, spec)
  }

  ghost predicate Settled(s: St, spec: Spec) {
    Attached(s, spec) || Detached(s, spec)
  }

  /** The state between operations. */
  ghost predicate Consistent(reg: map<string, Spec>, s: St) {
    && s.running.Keys <= reg.Keys && s.host.files.Keys <= reg.Keys
    && (forall id | id in reg :: Settled(s, reg[id]))
  }

  /** What a restart can put right: instances attached, detached, or half taken down. */
  ghost predicate Fixable(h: Host, spec: Spec) {
    || HostDetached(h, spec)
    || (exists pid :: HostAttached(h, spec, RecordOf(spec, pid)))
    || (exists pid :: HostHalfDown(h, spec, RecordOf(spec, pid)))
  }

  ghost predicate Recoverable(reg: map<string, Spec>, h: Host) {
    && h.files.Keys <= reg.Keys
    && (forall id | id in reg :: Fixable(h, reg[id]))
  }

  /** The two hosts differ in nothing but the named instance's own resources. */
  ghost predicate OnlyTouches(spec: Spec, h: Host, h': Host) {
    && (forall t | t != TapName(spec.id) :: t in h'.taps <==> t in h.taps)
    && (forall r: Rule | r != Outside(spec) && r != Local(spec) :: h'.rules[r] == h.rules[r])
    && (forall x | x != SocketPath(spec.id) :: x in h'.sockets <==> x in h.sockets)
    && h'.files - {spec.id} == h.files - {spec.id}
    && (forall pid | pid in h.procs && h.procs[pid] != spec.id :: pid in h'.procs && h'.procs[pid] == h.procs[pid])
    && (forall pid | pid in h'.procs && h'.procs[pid] != spec.id :: pid in h.procs && h.procs[pid] == h'.procs[pid])
    && (forall pid | pid in h'.procs && h'.procs[pid] == spec.id ::
          (pid in h.procs && h.procs[pid] == spec.id) || pid !in h.pids)
    && h.pids <= h'.pids
    && (forall id | id != spec.id :: id in h'.disks <==> id in h.disks)
  }

  lemma OnlyTouchesTrans(spec: Spec, a: Host, b: Host, c: Host)
    requires OnlyTouches(spec, a, b) && OnlyTouches(spec, b, c)
    ensures OnlyTouches(spec, a, c)
  {
  }

  /** Another instance's attachment is untouched. */
  lemma OthersStay(reg: map<string, Spec>, a: string, b: string, h: Host, h': Host)
    requires Registry(reg) && a in reg && b in reg && a != b && OnlyTouches(reg[a], h, h')
    ensures HostDetached(h, reg[b]) ==> HostDetached(h', reg[b])
    ensures forall pid ::
              HostAttached(h, reg[b], RecordOf(reg[b], pid)) ==> HostAttached(h', reg[b], RecordOf(reg[b], pid))
    ensures forall pid ::
              HostHalfDown(h, reg[b], RecordOf(reg[b], pid)) ==> HostHalfDown(h', reg[b], RecordOf(reg[b], pid))
  {
    if SocketPath(a) == SocketPath(b) {
      SocketPathsDiffer(a, b);
    }
    assert b in h'.files <==> b in h'.files - {a};
    assert b in h.files <==> b in h.files - {a};
    assert b in h.files ==> (h.files - {a})[b] == h.files[b];
    assert b in h'.files ==> (h'.files - {a})[b] == h'.files[b];
  }

  lemma TouchKeepsRecoverable(reg: map<string, Spec>, id: string, h: Host, h': Host)
    requires Registry(reg) && id in reg && Recoverable(reg, h)
    requires OnlyTouches(reg[id], h, h') && Fixable(h', reg[id])
    ensures Recoverable(reg, h')
  {
    forall b | b in reg ensures Fixable(h', reg[b]) {
      if b != id {
        OtherStaysFixable(reg, id, b, h, h');
      }
    }
    forall f | f in h'.files ensures f in reg {
      if f != id {
        assert f in h'.files - {id};
      }
    }
  }

  lemma OtherStaysFixable(reg: map<string, Spec>, a: string, b: string, h: Host, h': Host)
    requires Registry(reg) && a in reg && b in reg && a != b && OnlyTouches(reg[a], h, h') && Fixable(h, reg[b])
    ensures Fixable(h', reg[b])
  {
    OthersStay(reg, a, b, h, h');
    hide OnlyTouches, Registry, HostDetached, HostAttached, HostHalfDown;
    if HostDetached(h, reg[b]) {
    } else if pid :| HostAttached(h, reg[b], RecordOf(reg[b], pid)) {
      assert HostAttached(h', reg[b], RecordOf(reg[b], pid));
    } else {
      var pid :| HostHalfDown(h, reg[b], RecordOf(reg[b], pid));
      assert HostHalfDown(h', reg[b], RecordOf(reg[b], pid));
    }
  }

  /** Every other instance that was attached, not there, or half taken down, still is. */
  ghost predicate OthersStayPut(reg: map<string, Spec>, id: string, s: St, s': St) {
    forall b | b in reg && b != id ::
      && (Attached(s, reg[b]) ==> Attached(s', reg[b])) && (Detached(s, reg[b]) ==> Detached(s', reg[b]))
      && (forall pid :: HostHalfDown(s.host, reg[b], RecordOf(reg[b], pid)) ==>
                          HostHalfDown(s'.host, reg[b], RecordOf(reg[b], pid)))
  }

  lemma TouchLeavesOthers(reg: map<string, Spec>, id: string, s: St, s': St)
    requires Registry(reg) && id in reg
    requires OnlyTouches(reg[id], s.host, s'.host) && s'.running - {id} == s.running - {id}
    ensures OthersStayPut(reg, id, s, s')
  {
    forall b | b in reg && b != id
      ensures (Attached(s, reg[b]) ==> Attached(s', reg[b])) && (Detached(s, reg[b]) ==> Detached(s', reg[b]))
      ensures forall pid :: HostHalfDown(s.host, reg[b], RecordOf(reg[b], pid)) ==>
                              HostHalfDown(s'.host, reg[b], RecordOf(reg[b], pid))
    {
      OthersStay(reg, id, b, s.host, s'.host);
      assert b in s'.running <==> b in s'.running - {id};
      assert b in s.running <==> b in s.running - {id};
      assert b in s.running ==> (s.running - {id})[b] == s.running[b];
      assert b in s'.running ==> (s'.running - {id})[b] == s'.running[b];
    }
  }

  /** An operation on one instance that leaves it settled keeps everything consistent. */
  lemma TouchKeepsConsistent(reg: map<string, Spec>, id: string, s: St, s': St)
    requires Registry(reg) && id in reg && Consistent(reg, s)
    requires OnlyTouches(reg[id], s.host, s'.host) && s'.running - {id} == s.running - {id} && Settled(s', reg[id])
    ensures Consistent(reg, s')
  {
    TouchLeavesOthers(reg, id, s, s');
    forall f | f in s'.host.files ensures f in reg {
      if f != id {
        assert f in s'.host.files - {id};
      }
    }
    forall f | f in s'.running ensures f in reg {
      if f != id {
        assert f in s'.running - {id};
      }
    }
  }

  // Start.

  ghost predicate Spawnable(h: Host, o: StartOutcome) {
    o.Starts? || o.ConfigureFails? ==> o.pid > 0 && o.pid !in h.pids && o.pid !in h.procs
  }

  lemma NetTouches(h: Host, spec: Spec)
    ensures OnlyTouches(spec, h, NetUp(h, spec))
  {
  }

  lemma TeardownTouches(h: Host, spec: Spec)
    ensures OnlyTouches(spec, h, TeardownNet(h, TapName(spec.id), spec.sshHostPort, spec.guestIP))
  {
  }

  lemma SpawnTouches(h: Host, spec: Spec, pid: int)
    requires pid !in h.pids && pid !in h.procs
    ensures OnlyTouches(spec, h, Spawn(h, pid, spec.id))
  {
  }

  lemma KillTouches(h: Host, spec: Spec, pid: int)
    requires pid in h.procs ==> h.procs[pid] == spec.id
    ensures OnlyTouches(spec, h, Kill(h, pid))
  {
  }

  lemma SocketTouches(h: Host, spec: Spec)
    ensures OnlyTouches(spec, h, DelSocket(h, SocketPath(spec.id)))
  {
  }

  lemma FileTouches(h: Host, spec: Spec, f: RunFile)
    ensures OnlyTouches(spec, h, WriteFile(h, spec.id, f))
  {
    assert (h.files[spec.id := f]) - {spec.id} == h.files - {spec.id};
  }

  lemma RollBackTouches(h: Host, spec: Spec, pid: int)
    requires pid in h.procs ==> h.procs[pid] == spec.id
    ensures OnlyTouches(spec, h, RollBack(h, spec, pid))
  {
    hide OnlyTouches, TeardownNet;
    KillTouches(h, spec, pid);
    var h1 := Kill(h, pid);
    TeardownTouches(h1, spec);
    var h2 := TeardownNet(h1, TapName(spec.id), spec.sshHostPort, spec.guestIP);
    OnlyTouchesTrans(spec, h, h1, h2);
    SocketTouches(h2, spec);
    OnlyTouchesTrans(spec, h, h2, RollBack(h, spec, pid));
  }

  lemma EarlyFailureTouches(h: Host, spec: Spec, o: StartOutcome)
    requires o.TapFails? || o.ForwardFails?
    ensures OnlyTouches(spec, h, BootEffects(h, spec, o))
  {
    if o.TapFails? {
    } else {
    }
  }

  lemma BootTouchesOne(h: Host, spec: Spec, o: StartOutcome)
    requires Spawnable(h, o)
    ensures OnlyTouches(spec, h, BootEffects(h, spec, o))
  {
    hide OnlyTouches, TeardownNet, NetUp, RollBack;
    var net := NetUp(h, spec);
    NetTouches(h, spec);
    match o
    case TapFails(_) => EarlyFailureTouches(h, spec, o);
    case ForwardFails(_) => EarlyFailureTouches(h, spec, o);
    case SpawnFails =>
      TeardownTouches(net, spec);
      OnlyTouchesTrans(spec, h, net, BootEffects(h, spec, o));
    case ConfigureFails(pid) =>
      NetKeepsProcs(h, spec);
      var up := Spawn(net, pid, spec.id);
      SpawnTouches(net, spec, pid);
      OnlyTouchesTrans(spec, h, net, up);
      RollBackTouches(up, spec, pid);
      OnlyTouchesTrans(spec, h, up, BootEffects(h, spec, o));
    case Starts(pid, recorded) =>
      NetKeepsProcs(h, spec);
      var up := Spawn(net, pid, spec.id);
      SpawnTouches(net, spec, pid);
      OnlyTouchesTrans(spec, h, net, up);
      if recorded {
        FileTouches(up, spec, Saved(RecordOf(spec, pid)));
        OnlyTouchesTrans(spec, h, up, BootEffects(h, spec, o));
      }
  }

  lemma NetKeepsProcs(h: Host, spec: Spec)
    ensures NetUp(h, spec).procs == h.procs && NetUp(h, spec).pids == h.pids
  {
  }

  /** A tidy start attaches the instance or leaves nothing of it. */
  lemma BootSettles(h: Host, spec: Spec, o: StartOutcome)
    requires HostDetached(h, spec) && Spawnable(h, o) && spec.sshHostPort > 0 && spec.guestIP != ""
    ensures o.Starts? && o.recorded ==> HostAttached(BootEffects(h, spec, o), spec, RecordOf(spec, o.pid))
    ensures !o.Starts? && Tidy(o) ==> HostDetached(BootEffects(h, spec, o), spec)
  {
    hide BootEffects, HostDetached, HostAttached;
    match o
    case TapFails(_) => if Tidy(o) { EarlyFailureSettles(h, spec, o); }
    case ForwardFails(_) => if Tidy(o) { EarlyFailureSettles(h, spec, o); }
    case SpawnFails => SpawnFailureSettles(h, spec);
    case ConfigureFails(pid) => ConfigureFailureSettles(h, spec, pid);
    case Starts(pid, _) => if o.recorded { SuccessSettles(h, spec, pid); }
  }

  lemma EarlyFailureSettles(h: Host, spec: Spec, o: StartOutcome)
    requires HostDetached(h, spec) && Tidy(o) && (o.TapFails? || o.ForwardFails?)
    ensures HostDetached(BootEffects(h, spec, o), spec)
  {
    if o.TapFails? {
    } else {
    }
  }

  lemma SpawnFailureSettles(h: Host, spec: Spec)
    requires HostDetached(h, spec) && spec.sshHostPort > 0 && spec.guestIP != ""
    ensures HostDetached(BootEffects(h, spec, SpawnFails), spec)
  {
  }

  lemma ConfigureFailureSettles(h: Host, spec: Spec, pid: int)
    requires HostDetached(h, spec) && Spawnable(h, ConfigureFails(pid)) && spec.sshHostPort > 0 && spec.guestIP != ""
    ensures HostDetached(BootEffects(h, spec, ConfigureFails(pid)), spec)
  {
  }

  lemma SuccessSettles(h: Host, spec: Spec, pid: int)
    requires HostDetached(h, spec) && Spawnable(h, Starts(pid, true))
    ensures HostAttached(BootEffects(h, spec, Starts(pid, true)), spec, RecordOf(spec, pid))
  {
  }

  /** A failed start restores the network if and only if no helper failed after its first command:
      when the bridge cannot be set, or the device not brought up, the tap stays; when the second
      rule cannot be appended, the first one stays. */
  lemma FailedStartRestoresNetwork(s: St, spec: Spec, o: StartOutcome)
    requires Detached(s, spec) && Spawnable(s.host, o) && spec.sshHostPort > 0 && spec.guestIP != ""
    requires !StartSpec(s, spec, o).1
    ensures var h := StartSpec(s, spec, o).0.host;
            (h.taps == s.host.taps && h.rules == s.host.rules) <==>
            (spec.id in s.host.disks ==>
              o != TapFails(SetMaster) && o != TapFails(SetUp) && o != ForwardFails(AppendOutput))
    ensures var h := StartSpec(s, spec, o).0.host;
            spec.id in s.host.disks ==>
              && (h.taps != s.host.taps <==> o == TapFails(SetMaster) || o == TapFails(SetUp))
              && (h.rules != s.host.rules <==> o == ForwardFails(AppendOutput))
  {
    hide BootEffects, HostDetached;
    if spec.id in s.host.disks {
      if Tidy(o) {
        BootSettles(s.host, spec, o);
        BootTouchesOne(s.host, spec, o);
        SameNetwork(s.host, BootEffects(s.host, spec, o), spec);
      } else if o.TapFails? {
        TapResidue(s.host, spec, o.at);
      } else {
        RuleResidue(s.host, spec);
      }
    }
  }

  /** The device stays when a command after the one that makes it fails. */
  lemma TapResidue(h: Host, spec: Spec, at: TapCommand)
    requires HostDetached(h, spec) && !at.TuntapAdd?
    ensures BootEffects(h, spec, TapFails(at)).taps != h.taps
    ensures BootEffects(h, spec, TapFails(at)).rules == h.rules
  {
    assert TapName(spec.id) in BootEffects(h, spec, TapFails(at)).taps && TapName(spec.id) !in h.taps;
  }

  /** The first rule stays when the second cannot be appended; the device goes. */
  lemma RuleResidue(h: Host, spec: Spec)
    requires HostDetached(h, spec)
    ensures BootEffects(h, spec, ForwardFails(AppendOutput)).taps == h.taps
    ensures BootEffects(h, spec, ForwardFails(AppendOutput)).rules != h.rules
  {
    var h' := BootEffects(h, spec, ForwardFails(AppendOutput));
    assert h'.rules[Outside(spec)] == 1 && h.rules[Outside(spec)] == 0;
    forall t ensures t in h'.taps <==> t in h.taps {
    }
  }

  lemma SameNetwork(h: Host, h': Host, spec: Spec)
    requires HostDetached(h, spec) && HostDetached(h', spec) && OnlyTouches(spec, h, h')
    ensures h'.taps == h.taps && h'.rules == h.rules
  {
    forall t ensures t in h'.taps <==> t in h.taps {
      if t == TapName(spec.id) {
      }
    }
    forall r: Rule ensures h'.rules[r] == h.rules[r] {
    }
  }

  // Stop and Delete, step by step.

  lemma KillHalfDowns(h: Host, spec: Spec, vm: RunRecord)
    requires HostAttached(h, spec, vm)
    ensures HostHalfDown(Kill(h, vm.pid), spec, vm) && OnlyTouches(spec, h, Kill(h, vm.pid))
  {
  }

  /** Taking down one more piece of a dead instance. */
  lemma DelRuleHalfDown(h: Host, spec: Spec, vm: RunRecord, r: Rule)
    requires HostHalfDown(h, spec, vm) && (r == Outside(spec) || r == Local(spec))
    ensures HostHalfDown(DelRule(h, r), spec, vm) && OnlyTouches(spec, h, DelRule(h, r))
    ensures DelRule(h, r).rules[r] == 0
  {
  }

  lemma DelTapHalfDown(h: Host, spec: Spec, vm: RunRecord)
    requires HostHalfDown(h, spec, vm)
    ensures HostHalfDown(DelTap(h, TapName(spec.id)), spec, vm) && OnlyTouches(spec, h, DelTap(h, TapName(spec.id)))
  {
  }

  lemma DelSocketHalfDown(h: Host, spec: Spec, vm: RunRecord)
    requires HostHalfDown(h, spec, vm)
    ensures HostHalfDown(DelSocket(h, SocketPath(spec.id)), spec, vm)
    ensures OnlyTouches(spec, h, DelSocket(h, SocketPath(spec.id)))
  {
  }

  lemma DelFileDetaches(h: Host, spec: Spec, vm: RunRecord)
    requires HostHalfDown(h, spec, vm) && !HasTap(h, spec) && !HasSocket(h, spec)
    requires h.rules[Outside(spec)] == 0 && h.rules[Local(spec)] == 0
    ensures HostDetached(DelFile(h, spec.id), spec) && OnlyTouches(spec, h, DelFile(h, spec.id))
  {
  }

  /** Tearing down what is not there changes nothing. */
  lemma TeardownOfNothing(h: Host, spec: Spec)
    requires !HasTap(h, spec) && h.rules[Outside(spec)] == 0 && h.rules[Local(spec)] == 0
    ensures TeardownNet(h, TapName(spec.id), spec.sshHostPort, spec.guestIP) == h
    ensures DelRule(h, Outside(spec)) == h && DelRule(h, Local(spec)) == h && DelTap(h, TapName(spec.id)) == h
  {
    assert h.taps - {TapName(spec.id)} == h.taps;
    assert h.rules - multiset{Outside(spec)} == h.rules;
    assert h.rules - multiset{Local(spec)} == h.rules;
  }

  /** The network of a dead instance, taken down as a whole. */
  lemma TeardownHalfDown(h: Host, spec: Spec, vm: RunRecord)
    requires HostHalfDown(h, spec, vm) && spec.sshHostPort > 0 && spec.guestIP != ""
    ensures var h' := TeardownNet(h, vm.tap, vm.port, vm.guestIP);
            && HostHalfDown(h', spec, vm) && OnlyTouches(spec, h, h')
            && !HasTap(h', spec) && h'.rules[Outside(spec)] == 0 && h'.rules[Local(spec)] == 0
  {
    var h1 := DelRule(h, Outside(spec));
    DelRuleHalfDown(h, spec, vm, Outside(spec));
    var h2 := DelRule(h1, Local(spec));
    DelRuleHalfDown(h1, spec, vm, Local(spec));
    assert h2.rules[Outside(spec)] == 0;
    OnlyTouchesTrans(spec, h, h1, h2);
    DelTapHalfDown(h2, spec, vm);
    OnlyTouchesTrans(spec, h, h2, DelTap(h2, TapName(spec.id)));
  }

  /** The part of a teardown that Stop, Delete and adopt share, for a dead instance. */
  lemma CleanUpDetaches(h: Host, spec: Spec, vm: RunRecord)
    requires HostHalfDown(h, spec, vm) && spec.sshHostPort > 0 && spec.guestIP != ""
    ensures var h' := DelFile(DelSocket(TeardownNet(h, vm.tap, vm.port, vm.guestIP), vm.socket), spec.id);
            HostDetached(h', spec) && OnlyTouches(spec, h, h')
  {
    TeardownHalfDown(h, spec, vm);
    var h1 := TeardownNet(h, vm.tap, vm.port, vm.guestIP);
    DelSocketHalfDown(h1, spec, vm);
    var h2 := DelSocket(h1, vm.socket);
    OnlyTouchesTrans(spec, h, h1, h2);
    DelFileDetaches(h2, spec, vm);
    OnlyTouchesTrans(spec, h, h2, DelFile(h2, spec.id));
  }

  lemma StopDetaches(reg: map<string, Spec>, s: St, id: string)
    requires Registry(reg) && id in reg && Settled(s, reg[id])
    ensures Detached(StopSpec(s, id), reg[id])
    ensures OnlyTouches(reg[id], s.host, StopSpec(s, id).host)
  {
    assert reg[id].id == id;
    if id in s.running {
      var vm := s.running[id];
      assert Attached(s, reg[id]);
      KillHalfDowns(s.host, reg[id], vm);
      CleanUpDetaches(Kill(s.host, vm.pid), reg[id], vm);
      OnlyTouchesTrans(reg[id], s.host, Kill(s.host, vm.pid), StopSpec(s, id).host);
    } else {
      assert Detached(s, reg[id]);
    }
  }

  lemma DiskTouches(h: Host, spec: Spec)
    ensures OnlyTouches(spec, h, DelDisk(h, spec.id))
    ensures HostDetached(h, spec) ==> HostDetached(DelDisk(h, spec.id), spec)
  {
  }

  /** Delete's first half: kill, tear down, remove the socket. */
  lemma DeadWithoutNet(h: Host, spec: Spec, vm: RunRecord)
    requires HostAttached(h, spec, vm) && spec.sshHostPort > 0 && spec.guestIP != ""
    ensures var h' := DelSocket(TeardownNet(Kill(h, vm.pid), vm.tap, vm.port, vm.guestIP), vm.socket);
            && HostHalfDown(h', spec, vm) && OnlyTouches(spec, h, h')
            && !HasTap(h', spec) && !HasSocket(h', spec)
            && h'.rules[Outside(spec)] == 0 && h'.rules[Local(spec)] == 0
  {
    KillHalfDowns(h, spec, vm);
    var h1 := Kill(h, vm.pid);
    TeardownHalfDown(h1, spec, vm);
    var h2 := TeardownNet(h1, vm.tap, vm.port, vm.guestIP);
    OnlyTouchesTrans(spec, h, h1, h2);
    DelSocketHalfDown(h2, spec, vm);
    OnlyTouchesTrans(spec, h, h2, DelSocket(h2, vm.socket));
  }

  lemma DeleteDetaches(reg: map<string, Spec>, s: St, id: string)
    requires Registry(reg) && id in reg && Settled(s, reg[id])
    ensures Detached(DeleteSpec(s, reg[id]), reg[id]) && id !in DeleteSpec(s, reg[id]).host.disks
    ensures OnlyTouches(reg[id], s.host, DeleteSpec(s, reg[id]).host)
  {
    var spec := reg[id];
    assert Settled(s, spec);
    if id in s.running {
      var vm := s.running[id];
      DeadWithoutNet(s.host, spec, vm);
      var h := DelSocket(TeardownNet(Kill(s.host, vm.pid), vm.tap, vm.port, vm.guestIP), vm.socket);
      TeardownOfNothing(h, spec);
      DelFileDetaches(h, spec, vm);
      OnlyTouchesTrans(spec, s.host, h, DelFile(h, id));
      DiskTouches(DelFile(h, id), spec);
      OnlyTouchesTrans(spec, s.host, DelFile(h, id), DeleteSpec(s, spec).host);
    } else {
      TeardownOfNothing(s.host, spec);
      assert s.host.files - {id} == s.host.files;
      DiskTouches(s.host, spec);
    }
  }

  // Adoption after a restart.

  /** While adopt works through the files: what it has put into the map is attached and
      alive, and everything else can still be put right. */
  ghost predicate Adopting(reg: map<string, Spec>, s: St) {
    && s.running.Keys <= reg.Keys && s.host.files.Keys <= reg.Keys
    && (forall id | id in reg :: if id in s.running then Attached(s, reg[id]) && s.running[id].pid in s.host.procs
                                 else Fixable(s.host, reg[id]))
  }

  lemma AdoptingIsRecoverable(reg: map<string, Spec>, s: St)
    requires Adopting(reg, s)
    ensures Recoverable(reg, s.host)
  {
    hide HostDetached, HostAttached, HostHalfDown, Fixable;
    forall id | id in reg ensures Fixable(s.host, reg[id]) {
      if id in s.running {
        AttachedIsFixable(s.host, reg[id], s.running[reg[id].id]);
      }
    }
  }

  /** The files adopt still has to deal with. */
  ghost predicate Covers(names: seq<string>, s: St) {
    forall f | f in s.host.files && f !in s.running :: f in names
  }

  lemma DeadIsHalfDown(h: Host, spec: Spec, pid: int)
    requires HostAttached(h, spec, RecordOf(spec, pid)) && pid !in h.procs
    ensures HostHalfDown(h, spec, RecordOf(spec, pid))
  {
  }

  /** A file that adopt finds belongs to an instance that is attached and alive, or dead. */
  lemma FileMeans(h: Host, spec: Spec)
    requires Fixable(h, spec) && spec.id in h.files
    ensures h.files[spec.id].Saved?
    ensures var rs := h.files[spec.id].r;
            && rs == RecordOf(spec, rs.pid)
            && (rs.pid in h.procs ==> rs.pid > 0 && HostAttached(h, spec, rs))
            && (rs.pid !in h.procs ==> HostHalfDown(h, spec, rs))
  {
    if pid :| HostAttached(h, spec, RecordOf(spec, pid)) {
      if pid !in h.procs {
        DeadIsHalfDown(h, spec, pid);
      }
    } else {
      var pid :| HostHalfDown(h, spec, RecordOf(spec, pid));
    }
  }

  lemma AdoptDead(reg: map<string, Spec>, s: St, id: string)
    requires Registry(reg) && Adopting(reg, s) && id in reg && id in s.host.files && id !in s.running
    requires s.host.files[id].Saved? && s.host.files[id].r.pid !in s.host.procs
    ensures Adopting(reg, AdoptOne(s, id)) && AdoptOne(s, id).host.procs == s.host.procs
    ensures AdoptOne(s, id).host.files == s.host.files - {id} && AdoptOne(s, id).running == s.running
  {
    var spec := reg[id];
    FileMeans(s.host, spec);
    var rs := s.host.files[id].r;
    CleanUpDetaches(s.host, spec, rs);
    var s' := AdoptOne(s, id);
    hide OnlyTouches, HostDetached, HostHalfDown, TeardownNet;
    AdoptDeadKeeps(reg, s, s', id);
    TeardownKeepsProcs(s.host, rs.tap, rs.port, rs.guestIP);
  }

  lemma TeardownKeepsProcs(h: Host, tap: string, port: int, ip: string)
    ensures TeardownNet(h, tap, port, ip).procs == h.procs && TeardownNet(h, tap, port, ip).files == h.files
  {
  }

  lemma AdoptDeadKeeps(reg: map<string, Spec>, s: St, s': St, id: string)
    requires Registry(reg) && Adopting(reg, s) && id in reg && id !in s.running && s'.running == s.running
    requires OnlyTouches(reg[id], s.host, s'.host) && HostDetached(s'.host, reg[id])
    ensures Adopting(reg, s')
  {
    forall b | b in reg
      ensures if b in s'.running then Attached(s', reg[b]) && s'.running[b].pid in s'.host.procs
              else Fixable(s'.host, reg[b])
    {
      if b != id {
        OthersStay(reg, id, b, s.host, s'.host);
        if b !in s.running {
          OtherStaysFixable(reg, id, b, s.host, s'.host);
        }
      }
    }
    forall f | f in s'.host.files ensures f in reg {
      if f != id {
        assert f in s'.host.files - {id};
      }
    }
  }

  lemma AdoptStep(reg: map<string, Spec>, s: St, id: string)
    requires Registry(reg) && Adopting(reg, s)
    ensures Adopting(reg, AdoptOne(s, id)) && AdoptOne(s, id).host.procs == s.host.procs
    ensures forall f | f in AdoptOne(s, id).host.files && f !in AdoptOne(s, id).running ::
              f in s.host.files && f !in s.running && f != id
  {
    if id in s.host.files {
      var spec := reg[id];
      if id in s.running {
        assert Attached(s, spec);
        var s' := AdoptOne(s, id);
        assert s'.running == s.running;
      } else {
        FileMeans(s.host, spec);
        var rs := s.host.files[id].r;
        if rs.pid in s.host.procs {
          AdoptLive(reg, s, id);
        } else {
          AdoptDead(reg, s, id);
        }
      }
    }
  }

  lemma AdoptLive(reg: map<string, Spec>, s: St, id: string)
    requires Registry(reg) && Adopting(reg, s) && id in reg && id in s.host.files && id !in s.running
    requires s.host.files[id].Saved? && s.host.files[id].r.pid in s.host.procs
    ensures AdoptOne(s, id) == St(s.running[id := s.host.files[id].r], s.host) && Adopting(reg, AdoptOne(s, id))
  {
    FileMeans(s.host, reg[id]);
    hide HostAttached, HostDetached, HostHalfDown;
    var s' := AdoptOne(s, id);
    forall b | b in reg
      ensures if b in s'.running then Attached(s', reg[b]) && s'.running[b].pid in s'.host.procs
              else Fixable(s'.host, reg[b])
    {
      if b != id && b in s.running {
        assert Attached(s, reg[b]);
      }
    }
  }

  lemma {:induction false} AdoptAllKeeps(reg: map<string, Spec>, s: St, names: seq<string>)
    requires Registry(reg) && Adopting(reg, s) && Covers(names, s)
    ensures var s' := AdoptAll(s, names);
            Adopting(reg, s') && Covers([], s') && s'.host.procs == s.host.procs
    decreases |names|
  {
    hide Registry, Adopting, AdoptOne;
    if names != [] {
      AdoptStep(reg, s, names[0]);
      AdoptAllKeeps(reg, AdoptOne(s, names[0]), names[1..]);
    }
  }

  lemma NoFileMeansDetached(h: Host, spec: Spec)
    requires Fixable(h, spec) && spec.id !in h.files
    ensures HostDetached(h, spec)
  {
  }

  lemma AdoptedIsConsistent(reg: map<string, Spec>, s: St)
    requires Registry(reg) && Adopting(reg, s) && Covers([], s)
    ensures Consistent(reg, s)
  {
    hide HostDetached, HostAttached, Fixable;
    forall id | id in reg ensures Settled(s, reg[id]) {
      if id !in s.running {
        assert id !in s.host.files;
        NoFileMeansDetached(s.host, reg[id]);
      }
    }
  }

  /** The instance is running as its run-state file says. */
  ghost predicate RecordedAlive(h: Host, id: string) {
    id in h.files && h.files[id].Saved? && h.files[id].r.pid in h.procs
  }

  /** A restart puts everything right, whatever the order in which adopt reads the files:
      every instance is attached or not there at all, and exactly those whose recorded
      process is alive are running. */
  lemma RestartRecovers(reg: map<string, Spec>, h: Host, names: seq<string>)
    requires Registry(reg) && Recoverable(reg, h) && forall f | f in h.files :: f in names
    ensures var s := Restarted(h, names);
            && Consistent(reg, s)
            && (forall id | id in s.running :: s.running[id].pid in s.host.procs)
            && (forall id | id in reg :: id in s.running <==> RecordedAlive(h, id))
  {
    var s0 := St(map[], h);
    assert Adopting(reg, s0) && Covers(names, s0);
    AdoptAllKeeps(reg, s0, names);
    var s := Restarted(h, names);
    AdoptedIsConsistent(reg, s);
    forall id | id in reg ensures id in s.running <==> RecordedAlive(h, id) {
      RunningIsRecorded(reg, s0, names, id);
    }
  }

  lemma {:induction false} RunningIsRecorded(reg: map<string, Spec>, s: St, names: seq<string>, id: string)
    requires Registry(reg) && Adopting(reg, s) && Covers(names, s) && id in reg
    requires id in s.running ==> RecordedAlive(s.host, id)
    ensures var s' := AdoptAll(s, names); id in s'.running <==> RecordedAlive(s.host, id)
    decreases |names|
  {
    if names == [] {
      assert id !in s.running ==> id !in s.host.files;
    } else {
      hide Registry, Adopting, AdoptOne, RecordedAlive;
      AdoptStep(reg, s, names[0]);
      StepKeepsRecorded(reg, s, names[0], id);
      RunningIsRecorded(reg, AdoptOne(s, names[0]), names[1..], id);
    }
  }

  lemma StepKeepsRecorded(reg: map<string, Spec>, s: St, name: string, id: string)
    requires Registry(reg) && Adopting(reg, s) && id in reg
    requires id in s.running ==> RecordedAlive(s.host, id)
    ensures RecordedAlive(AdoptOne(s, name).host, id) <==> RecordedAlive(s.host, id)
    ensures id in AdoptOne(s, name).running ==> RecordedAlive(s.host, id)
  {
    if name in s.host.files && name !in s.running {
      FileMeans(s.host, reg[name]);
      if s.host.files[name].r.pid in s.host.procs {
        AdoptLive(reg, s, name);
      } else {
        AdoptDead(reg, s, name);
        assert id in s.host.files && id != name ==> (s.host.files - {name})[id] == s.host.files[id];
      }
    } else if name in s.host.files {
      assert Attached(s, reg[name]);
      assert AdoptOne(s, name).host == s.host && AdoptOne(s, name).running == s.running;
    }
  }

  /** Between operations everything can be put right. */
  lemma ConsistentIsRecoverable(reg: map<string, Spec>, s: St)
    requires Registry(reg) && Consistent(reg, s)
    ensures Recoverable(reg, s.host)
  {
    hide HostDetached, HostAttached;
    forall id | id in reg ensures Fixable(s.host, reg[id]) {
      assert Settled(s, reg[id]);
      if Attached(s, reg[id]) {
        AttachedIsFixable(s.host, reg[id], s.running[id]);
      }
    }
  }

  lemma AttachedIsFixable(h: Host, spec: Spec, vm: RunRecord)
    requires HostAttached(h, spec, vm)
    ensures Fixable(h, spec)
  {
    assert HostAttached(h, spec, RecordOf(spec, vm.pid));
  }

  // Any serial history.

  datatype Op =
    | Provision(id: string)
    | Start(id: string, o: StartOutcome)
    | Stop(id: string)
    | Delete(id: string)
    | Exit(pid: int)                     // a machine's process ends by itself
    | Restart(names: seq<string>)

  ghost predicate Allowed(reg: map<string, Spec>, s: St, op: Op) {
    match op
    case Provision(id) => id in reg
    case Start(id, o) => id in reg && Spawnable(s.host, o)
    case Stop(id) => id in reg
    case Delete(id) => id in reg
    case Exit(_) => true
    case Restart(names) => forall f | f in s.host.files :: f in names
  }

  /** No helper fails half-way and no run-state write is lost. */
  predicate TidyOp(op: Op) {
    op.Start? ==> Tidy(op.o)
  }

  function OpNext(reg: map<string, Spec>, s: St, op: Op): St {
    match op
    case Provision(id) => s.(host := s.host.(disks := s.host.disks + {id}))
    case Start(id, o) => if id in reg then StartSpec(s, reg[id], o).0 else s
    case Stop(id) => StopSpec(s, id)
    case Delete(id) => if id in reg then DeleteSpec(s, reg[id]) else s
    case Exit(pid) => s.(host := Kill(s.host, pid))
    case Restart(names) => Restarted(s.host, names)
  }

  lemma StartKeeps(reg: map<string, Spec>, s: St, id: string, o: StartOutcome)
    requires Registry(reg) && Consistent(reg, s) && id in reg && Spawnable(s.host, o) && Tidy(o)
    ensures Consistent(reg, StartSpec(s, reg[id], o).0)
    ensures StartSpec(s, reg[id], o).1 ==> Attached(StartSpec(s, reg[id], o).0, reg[id])
  {
    hide OnlyTouches, HostAttached, HostDetached, BootEffects;
    assert Settled(s, reg[id]);
    if id !in s.running && id in s.host.disks {
      BootTouchesOne(s.host, reg[id], o);
      BootSettles(s.host, reg[id], o);
      assert StartSpec(s, reg[id], o).0.running - {id} == s.running - {id};
      TouchKeepsConsistent(reg, id, s, StartSpec(s, reg[id], o).0);
    }
  }

  lemma StopKeeps(reg: map<string, Spec>, s: St, id: string)
    requires Registry(reg) && Consistent(reg, s) && id in reg
    ensures Consistent(reg, StopSpec(s, id)) && Detached(StopSpec(s, id), reg[id])
  {
    hide OnlyTouches, HostAttached, HostDetached, StopEffects;
    assert Settled(s, reg[id]);
    StopDetaches(reg, s, id);
    var s' := StopSpec(s, id);
    assert s'.running - {id} == s.running - {id};
    hide Registry, Consistent, StopSpec, Attached;
    TouchKeepsConsistent(reg, id, s, s');
  }

  lemma DeleteKeeps(reg: map<string, Spec>, s: St, id: string)
    requires Registry(reg) && Consistent(reg, s) && id in reg
    ensures Consistent(reg, DeleteSpec(s, reg[id])) && Detached(DeleteSpec(s, reg[id]), reg[id])
  {
    hide OnlyTouches, HostAttached, HostDetached, TeardownNet;
    assert Settled(s, reg[id]) && reg[id].id == id;
    DeleteDetaches(reg, s, id);
    var s' := DeleteSpec(s, reg[id]);
    assert s'.running - {id} == s.running - {id};
    hide Registry, Consistent, DeleteSpec, Attached;
    TouchKeepsConsistent(reg, id, s, s');
  }

  lemma ExitKeeps(reg: map<string, Spec>, s: St, pid: int)
    requires Registry(reg) && Consistent(reg, s)
    ensures Consistent(reg, s.(host := Kill(s.host, pid)))
  {
    var s' := s.(host := Kill(s.host, pid));
    forall id | id in reg ensures Settled(s', reg[id]) {
      assert Settled(s, reg[id]);
    }
  }

  lemma ProvisionKeeps(reg: map<string, Spec>, s: St, id: string)
    requires Consistent(reg, s)
    ensures Consistent(reg, s.(host := s.host.(disks := s.host.disks + {id})))
  {
    var s' := s.(host := s.host.(disks := s.host.disks + {id}));
    forall b | b in reg ensures Settled(s', reg[b]) {
      assert Settled(s, reg[b]);
    }
  }

  lemma OpKeeps(reg: map<string, Spec>, s: St, op: Op)
    requires Registry(reg) && Consistent(reg, s) && Allowed(reg, s, op) && TidyOp(op)
    ensures Consistent(reg, OpNext(reg, s, op))
  {
    hide Registry, Consistent, StartSpec, StopSpec, DeleteSpec, Spawnable;
    match op
    case Provision(id) => ProvisionKeeps(reg, s, id);
    case Start(id, o) => StartKeeps(reg, s, id, o);
    case Stop(id) => StopKeeps(reg, s, id);
    case Delete(id) => DeleteKeeps(reg, s, id);
    case Exit(pid) => ExitKeeps(reg, s, pid);
    case Restart(names) =>
      ConsistentIsRecoverable(reg, s);
      RestartRecovers(reg, s.host, names);
  }

  /** A start (however it goes), a stop and a delete touch nothing of any other instance, whatever
      state that one is in. Of their own instance they only need that it is attached or gone; a start
      not even that. */
  lemma OpDisturbsNobodyElse(reg: map<string, Spec>, s: St, op: Op)
    requires Registry(reg) && Allowed(reg, s, op) && (op.Start? || op.Stop? || op.Delete?)
    requires op.Start? || Settled(s, reg[op.id])
    ensures var s' := OpNext(reg, s, op);
            && OnlyTouches(reg[op.id], s.host, s'.host)
            && s'.running - {op.id} == s.running - {op.id}
            && OthersStayPut(reg, op.id, s, s')
  {
    hide HostAttached, HostDetached, BootEffects, StopEffects, TeardownNet;
    var s' := OpNext(reg, s, op);
    assert OnlyTouches(reg[op.id], s.host, s.host) && reg[op.id].id == op.id;
    hide OnlyTouches, Registry;
    match op {
      case Start(id, o) => BootTouchesOne(s.host, reg[id], o);
      case Stop(id) => StopDetaches(reg, s, id);
      case Delete(id) => DeleteDetaches(reg, s, id);
    }
    assert s'.running - {op.id} == s.running - {op.id};
    TouchLeavesOthers(reg, op.id, s, s');
  }

  function OpRun(reg: map<string, Spec>, s: St, ops: seq<Op>): St
    decreases |ops|
  {
    if ops == [] then s else OpRun(reg, OpNext(reg, s, ops[0]), ops[1..])
  }

  ghost predicate AllAllowed(reg: map<string, Spec>, s: St, ops: seq<Op>)
    decreases |ops|
  {
    ops != [] ==> Allowed(reg, s, ops[0]) && TidyOp(ops[0]) && AllAllowed(reg, OpNext(reg, s, ops[0]), ops[1..])
  }

  /** After any serial history of tidy operations, exits and restarts, the ids in the map,
      the tap devices, the pairs of rules and the run-state files are the same set. */
  lemma {:induction false} HistoryKeepsOneSet(reg: map<string, Spec>, s: St, ops: seq<Op>)
    requires Registry(reg) && Consistent(reg, s) && AllAllowed(reg, s, ops)
    ensures var s' := OpRun(reg, s, ops);
            && Consistent(reg, s')
            && s'.running.Keys == s'.host.files.Keys
            && (forall id | id in reg ::
                  && (id in s'.running <==> HasTap(s'.host, reg[id]))
                  && (id in s'.running <==> s'.host.rules[Outside(reg[id])] == 1)
                  && (id in s'.running <==> s'.host.rules[Local(reg[id])] == 1)
                  && s'.host.rules[Outside(reg[id])] <= 1 && s'.host.rules[Local(reg[id])] <= 1)
    decreases |ops|
  {
    if ops == [] {
      OneSet(reg, s);
    } else {
      OpKeeps(reg, s, ops[0]);
      hide Registry, Consistent, OpNext, Allowed;
      HistoryKeepsOneSet(reg, OpNext(reg, s, ops[0]), ops[1..]);
    }
  }

  lemma OneSet(reg: map<string, Spec>, s: St)
    requires Registry(reg) && Consistent(reg, s)
    ensures s.running.Keys == s.host.files.Keys
    ensures forall id | id in reg ::
              && (id in s.running <==> HasTap(s.host, reg[id]))
              && (id in s.running <==> s.host.rules[Outside(reg[id])] == 1)
              && (id in s.running <==> s.host.rules[Local(reg[id])] == 1)
              && s.host.rules[Outside(reg[id])] <= 1 && s.host.rules[Local(reg[id])] <= 1
  {
    forall id | id in reg
      ensures id in s.running <==> id in s.host.files
      ensures id in s.running <==> HasTap(s.host, reg[id])
      ensures id in s.running <==> s.host.rules[Outside(reg[id])] == 1
      ensures id in s.running <==> s.host.rules[Local(reg[id])] == 1
      ensures s.host.rules[Outside(reg[id])] <= 1 && s.host.rules[Local(reg[id])] <= 1
    {
      assert Settled(s, reg[id]);
    }
  }

  /** A start whose run-state write is lost runs, but the next restart does not find it: the
      process and its network stay behind without an entry. */
  lemma LostRecordIsNotAdopted(reg: map<string, Spec>, s: St, id: string, pid: int, names: seq<string>)
    requires Registry(reg) && id in reg && Detached(s, reg[id]) && id in s.host.disks
    requires Spawnable(s.host, Starts(pid, false))
    ensures var s' := StartSpec(s, reg[id], Starts(pid, false)).0;
            && id in s'.running && id !in s'.host.files && !Fixable(s'.host, reg[id])
            && HasTap(s'.host, reg[id]) && pid in s'.host.procs
            && AdoptOne(St(map[], s'.host), id) == St(map[], s'.host)
  {
  }

  ghost predicate NoRecordOf(h: Host, id: string) {
    forall f | f in h.files && h.files[f].Saved? :: h.files[f].r.id != id
  }

  lemma AdoptOneSkips(s: St, name: string, id: string)
    requires id !in s.running && NoRecordOf(s.host, id)
    ensures id !in AdoptOne(s, name).running && NoRecordOf(AdoptOne(s, name).host, id)
  {
  }

  /** Nobody is adopted without a record. */
  lemma {:induction false} AdoptAllSkips(s: St, names: seq<string>, id: string)
    requires id !in s.running && NoRecordOf(s.host, id)
    ensures id !in AdoptAll(s, names).running
    decreases |names|
  {
    hide AdoptOne, NoRecordOf;
    if names != [] {
      AdoptOneSkips(s, names[0], id);
      AdoptAllSkips(AdoptOne(s, names[0]), names[1..], id);
    }
  }

  lemma OthersRecordsOnly(reg: map<string, Spec>, s: St, id: string)
    requires Registry(reg) && Consistent(reg, s) && id in reg && Detached(s, reg[id])
    ensures NoRecordOf(s.host, id)
  {
    forall f | f in s.host.files && s.host.files[f].Saved? ensures s.host.files[f].r.id != id {
      assert f in reg && Settled(s, reg[f]);
    }
  }

  /** An instance that has been started is found again after a restart if and only if its run-state
      write went through. */
  lemma FoundAgainExactlyIfRecorded(reg: map<string, Spec>, s: St, id: string, pid: int, recorded: bool,
                                    names: seq<string>)
    requires Registry(reg) && Consistent(reg, s) && id in reg && Detached(s, reg[id]) && id in s.host.disks
    requires Spawnable(s.host, Starts(pid, recorded))
    requires forall f | f in StartSpec(s, reg[id], Starts(pid, recorded)).0.host.files :: f in names
    ensures id in Restarted(StartSpec(s, reg[id], Starts(pid, recorded)).0.host, names).running <==> recorded
  {
    var s' := StartSpec(s, reg[id], Starts(pid, recorded)).0;
    assert reg[id].id == id;
    StartedHost(s, reg[id], pid, recorded);
    hide Registry, Consistent, StartSpec, Restarted, Detached, BootEffects;
    if recorded {
      StartKeeps(reg, s, id, Starts(pid, true));
      ConsistentIsRecoverable(reg, s');
      RestartRecovers(reg, s'.host, names);
    } else {
      OthersRecordsOnly(reg, s, id);
      AdoptsNoneWithout(s'.host, names, id);
    }
  }

  lemma StartedHost(s: St, spec: Spec, pid: int, recorded: bool)
    requires spec.id !in s.running && spec.id in s.host.disks
    ensures var h := StartSpec(s, spec, Starts(pid, recorded)).0.host;
            && (recorded ==> RecordedAlive(h, spec.id))
            && (!recorded ==> h.files == s.host.files)
  {
  }

  lemma AdoptsNoneWithout(h: Host, names: seq<string>, id: string)
    requires NoRecordOf(h, id)
    ensures id !in Restarted(h, names).running
  {
    AdoptAllSkips(St(map[], h), names, id);
  }

  // What is answered, and what is kept.

  /** A start answers well if and only if the instance is in the map afterwards. One that is in the map
      already is left as it is, and so is one without a disk, which is refused; otherwise the answer is
      how the boot went. Disks stay. */
  lemma StartAnswers(s: St, spec: Spec, o: StartOutcome)
    ensures var (s', ok) := StartSpec(s, spec, o);
            && (ok <==> spec.id in s'.running)
            && (spec.id in s.running ==> ok && s' == s)
            && (spec.id !in s.running && spec.id !in s.host.disks ==> !ok && s' == s)
            && (spec.id !in s.running && spec.id in s.host.disks ==> (ok <==> o.Starts?))
            && s'.host.disks == s.host.disks
  {
    hide DelTap, AddTap, AddRule, DelRule;
    StartKeepsDisks(s.host, spec, o);
  }

  lemma StartKeepsDisks(h: Host, spec: Spec, o: StartOutcome)
    ensures BootEffects(h, spec, o).disks == h.disks
  {
    match o
    case TapFails(_) =>
    case ForwardFails(_) =>
    case SpawnFails =>
    case ConfigureFails(_) =>
    case Starts(_, _) =>
  }

  /** A stop keeps every disk, and leaves alone what is not running; a delete takes one disk. */
  lemma DisksAreKept(s: St, spec: Spec)
    ensures StopSpec(s, spec.id).host.disks == s.host.disks
    ensures spec.id !in s.running ==> StopSpec(s, spec.id) == s
    ensures DeleteSpec(s, spec).host.disks == s.host.disks - {spec.id}
  {
    if spec.id in s.running {
      var vm := s.running[spec.id];
      TeardownKeepsRest(Kill(s.host, vm.pid), vm.tap, vm.port, vm.guestIP);
      var h := DelSocket(TeardownNet(Kill(s.host, vm.pid), vm.tap, vm.port, vm.guestIP), vm.socket);
      TeardownKeepsRest(h, TapName(spec.id), spec.sshHostPort, spec.guestIP);
    } else {
      TeardownKeepsRest(s.host, TapName(spec.id), spec.sshHostPort, spec.guestIP);
    }
    hide TeardownNet;
  }

  lemma TeardownKeepsRest(h: Host, tap: string, port: int, ip: string)
    ensures var h' := TeardownNet(h, tap, port, ip);
            SameRest(h, h')
  {
    SmallEffects(h, tap, Prerouting(port, ip));
    var h1 := DelRule(h, Prerouting(port, ip));
    SmallEffects(h1, tap, Output(port, ip));
    SmallEffects(DelRule(h1, Output(port, ip)), tap, Output(port, ip));
    hide DelRule, DelTap;
    if port > 0 && ip != "" {
    } else {
    }
  }

  /** Nothing but the network, the map and the sockets may differ. */
  ghost predicate SameRest(h: Host, h': Host) {
    h'.procs == h.procs && h'.files == h.files && h'.disks == h.disks && h'.pids == h.pids
  }

  lemma SmallEffects(h: Host, tap: string, r: Rule)
    ensures SameRest(h, DelRule(h, r)) && SameRest(h, DelTap(h, tap))
  {
  }

  /** Whatever lingers on the host, a start that fails leaves no device and, once it has come past the
      helpers, no socket, except a device that could not be set up. */
  lemma StaleThingsGo(h: Host, spec: Spec, o: StartOutcome)
    requires !o.Starts? && spec.sshHostPort > 0 && spec.guestIP != ""
    ensures HasTap(BootEffects(h, spec, o), spec) <==> o.TapFails? && !o.at.TuntapAdd?
    ensures o.SpawnFails? || o.ConfigureFails? ==> !HasSocket(BootEffects(h, spec, o), spec)
  {
    hide AddRule, DelRule;
    match o
    case TapFails(at) =>
    case ForwardFails(rule) =>
    case SpawnFails => GoneAfterTeardown(NetUp(h, spec), spec);
    case ConfigureFails(pid) => GoneAfterTeardown(Kill(Spawn(NetUp(h, spec), pid, spec.id), pid), spec);
  }

  lemma GoneAfterTeardown(h: Host, spec: Spec)
    ensures var h' := TeardownNet(h, TapName(spec.id), spec.sshHostPort, spec.guestIP);
            !HasTap(h', spec) && h'.sockets == h.sockets
  {
  }

  /** A delete sweeps up whatever may linger: entry, device, one rule of each kind, record and disk. */
  lemma DeleteSweepsUp(s: St, spec: Spec)
    requires spec.sshHostPort > 0 && spec.guestIP != "" && spec.id !in s.running
    ensures var s' := DeleteSpec(s, spec);
            && spec.id !in s'.running && !HasTap(s'.host, spec)
            && spec.id !in s'.host.files && spec.id !in s'.host.disks
            && s'.host.rules == s.host.rules - multiset{Outside(spec)} - multiset{Local(spec)}
  {
    TeardownWithoutAddress(s.host, TapName(spec.id), spec.sshHostPort, spec.guestIP);
    hide TeardownNet;
  }

  /** Without an address there are no rules to remove; the tap goes all the same. */
  lemma TeardownWithoutAddress(h: Host, tap: string, port: int, ip: string)
    ensures TeardownNet(h, tap, port, ip).taps == h.taps - {tap}
    ensures port <= 0 || ip == "" ==> TeardownNet(h, tap, port, ip).rules == h.rules
    ensures port > 0 && ip != "" ==>
              TeardownNet(h, tap, port, ip).rules
              == h.rules - multiset{Prerouting(port, ip)} - multiset{Output(port, ip)}
  {
  }

  /** A run-state file of a machine that runs. */
  predicate LiveRecord(f: RunFile, procs: map<int, string>) {
    f.Saved? && f.r.pid > 0 && f.r.pid in procs
  }

  /** What adopt does to one file, whatever host it finds. */
  lemma AdoptOneOutcome(s: St, id: string)
    ensures var s' := AdoptOne(s, id);
            && s'.host.procs == s.host.procs && s'.host.disks == s.host.disks && s'.host.pids == s.host.pids
            && (id in s.host.files && s.host.files[id].Garbage? ==>
                  s' == St(s.running, s.host.(files := s.host.files - {id})))
            && (id !in s.host.files || s.host.files[id].Unreadable? ==> s' == s)
            && s'.host.files == (if id in s.host.files && !s.host.files[id].Unreadable?
                                    && !LiveRecord(s.host.files[id], s.host.procs)
                                 then s.host.files - {id} else s.host.files)
            && s'.running == (if id in s.host.files && LiveRecord(s.host.files[id], s.host.procs)
                              then s.running[s.host.files[id].r.id := s.host.files[id].r] else s.running)
  {
    if id in s.host.files && s.host.files[id].Saved? {
      var rs := s.host.files[id].r;
      TeardownKeepsRest(s.host, rs.tap, rs.port, rs.guestIP);
    }
    hide TeardownNet;
    if id in s.host.files {
      match s.host.files[id]
      case Unreadable =>
      case Garbage =>
      case Saved(_) =>
    }
  }

  /** What a restart does to the run-state files and the map, on any host at all: a file stays if and
      only if it cannot be read or its machine runs; garbage goes, and so do the files of the dead; and
      the map has exactly the machines that run. No process and no disk is touched. */
  lemma {:induction false} AdoptionOutcome(s: St, names: seq<string>)
    ensures var s' := AdoptAll(s, names);
            && s'.host.procs == s.host.procs && s'.host.disks == s.host.disks
            && (forall f :: f in s'.host.files <==>
                  f in s.host.files
                  && (f in names ==> s.host.files[f].Unreadable? || LiveRecord(s.host.files[f], s.host.procs)))
            && (forall f | f in s'.host.files :: s'.host.files[f] == s.host.files[f])
            && (forall f | f in names && f in s.host.files && LiveRecord(s.host.files[f], s.host.procs) ::
                  s.host.files[f].r.id in s'.running)
            && (forall id | id in s'.running && id !in s.running :: exists f ::
                  && f in names && f in s.host.files && LiveRecord(s.host.files[f], s.host.procs)
                  && s.host.files[f].r.id == id)
            && s.running.Keys <= s'.running.Keys
    decreases |names|
  {
    if names != [] {
      AdoptOneOutcome(s, names[0]);
      hide AdoptOne, LiveRecord;
      var s1 := AdoptOne(s, names[0]);
      AdoptionOutcome(s1, names[1..]);
      var s' := AdoptAll(s, names);
      forall f ensures f in names <==> f == names[0] || f in names[1..] {
      }
      forall id | id in s'.running && id !in s.running
        ensures exists f ::
                  && f in names && f in s.host.files && LiveRecord(s.host.files[f], s.host.procs)
                  && s.host.files[f].r.id == id
      {
        if id in s1.running {
          assert names[0] in names;
        } else {
          var f :| f in names[1..] && f in s1.host.files && LiveRecord(s1.host.files[f], s1.host.procs)
                   && s1.host.files[f].r.id == id;
          assert f in names;
        }
      }
    }
  }
}
