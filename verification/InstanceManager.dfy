/** The instance-manager itself, changing the map and the host one step at a time. Each
    host effect is recorded, so that a crash can be placed after any of them. */
module InstanceManager {
  import opened Options
  import opened InstanceHost
  import opened InstanceSafety

  /** Every machine in the map is alive. */
  ghost predicate AllAlive(s: St) {
    forall id | id in s.running :: s.running[id].pid in s.host.procs
  }

  /** If the manager dies here, the next one finds every instance attached, with its machine
      alive, or not there at all, in whatever order it reads the run-state files. */
  ghost predicate SurvivesCrash(reg: map<string, Spec>, h: Host) {
    forall names: seq<string> | (forall f | f in h.files :: f in names) ::
      Consistent(reg, Restarted(h, names)) && AllAlive(Restarted(h, names))
  }

  lemma RecoverableSurvivesCrash(reg: map<string, Spec>, h: Host)
    requires Registry(reg) && Recoverable(reg, h)
    ensures SurvivesCrash(reg, h)
  {
    forall names: seq<string> | (forall f | f in h.files :: f in names)
      ensures Consistent(reg, Restarted(h, names)) && AllAlive(Restarted(h, names))
    {
      RestartRecovers(reg, h, names);
    }
  }

  /** A point inside the teardown of one instance. */
  lemma HalfDownSurvives(reg: map<string, Spec>, id: string, h: Host, h': Host, vm: RunRecord)
    requires Registry(reg) && id in reg && Recoverable(reg, h)
    requires OnlyTouches(reg[id], h, h') && HostHalfDown(h', reg[id], vm)
    ensures SurvivesCrash(reg, h') && Recoverable(reg, h')
  {
    hide OnlyTouches, HostHalfDown, Registry, Recoverable, SurvivesCrash;
    HalfDownIsFixable(h', reg[id], vm);
    TouchKeepsRecoverable(reg, id, h, h');
    RecoverableSurvivesCrash(reg, h');
  }

  lemma HalfDownIsFixable(h: Host, spec: Spec, vm: RunRecord)
    requires HostHalfDown(h, spec, vm)
    ensures Fixable(h, spec)
  {
    assert HostHalfDown(h, spec, RecordOf(spec, vm.pid));
  }

  lemma DetachedSurvives(reg: map<string, Spec>, id: string, h: Host, h': Host)
    requires Registry(reg) && id in reg && Recoverable(reg, h)
    requires OnlyTouches(reg[id], h, h') && HostDetached(h', reg[id])
    ensures SurvivesCrash(reg, h') && Recoverable(reg, h')
  {
    hide OnlyTouches, HostDetached, Registry, Recoverable, SurvivesCrash;
    assert Fixable(h', reg[id]);
    TouchKeepsRecoverable(reg, id, h, h');
    RecoverableSurvivesCrash(reg, h');
  }

  /** The hosts a full teardown goes through, after the kill at h1. */
  lemma TeardownSurvives(reg: map<string, Spec>, id: string, h: Host, h1: Host, vm: RunRecord)
    requires Registry(reg) && id in reg && Recoverable(reg, h)
    requires OnlyTouches(reg[id], h, h1) && HostHalfDown(h1, reg[id], vm)
    ensures var h2 := DelRule(h1, Outside(reg[id]));
            var h3 := DelRule(h2, Local(reg[id]));
            var h4 := DelTap(h3, vm.tap);
            var h5 := DelSocket(h4, vm.socket);
            && SurvivesCrash(reg, h1) && SurvivesCrash(reg, h2) && SurvivesCrash(reg, h3)
            && SurvivesCrash(reg, h4) && SurvivesCrash(reg, h5)
            && HostHalfDown(h5, reg[id], vm) && OnlyTouches(reg[id], h, h5)
  {
    assert vm.tap == TapName(reg[id].id) && vm.socket == SocketPath(reg[id].id);
    hide OnlyTouches, HostHalfDown, SurvivesCrash, Registry, Recoverable;
    var spec := reg[id];
    HalfDownSurvives(reg, id, h, h1, vm);
    var h2 := DelRule(h1, Outside(spec));
    DelRuleHalfDown(h1, spec, vm, Outside(spec));
    OnlyTouchesTrans(spec, h, h1, h2);
    HalfDownSurvives(reg, id, h, h2, vm);
    var h3 := DelRule(h2, Local(spec));
    DelRuleHalfDown(h2, spec, vm, Local(spec));
    OnlyTouchesTrans(spec, h, h2, h3);
    HalfDownSurvives(reg, id, h, h3, vm);
    var h4 := DelTap(h3, vm.tap);
    DelTapHalfDown(h3, spec, vm);
    OnlyTouchesTrans(spec, h, h3, h4);
    HalfDownSurvives(reg, id, h, h4, vm);
    var h5 := DelSocket(h4, vm.socket);
    DelSocketHalfDown(h4, spec, vm);
    OnlyTouchesTrans(spec, h, h4, h5);
    HalfDownSurvives(reg, id, h, h5, vm);
  }

  /** Every host from the n-th on survives a crash. */
  ghost predicate SafeFrom(reg: map<string, Spec>, hosts: seq<Host>, n: nat) {
    n <= |hosts| && forall k | n <= k < |hosts| :: SurvivesCrash(reg, hosts[k])
  }

  lemma SafeAfter(reg: map<string, Spec>, before: seq<Host>, hosts: seq<Host>)
    requires SafeFrom(reg, hosts, 0)
    ensures SafeFrom(reg, before + hosts, |before|)
  {
    hide SurvivesCrash;
  }

  lemma NoneSince(reg: map<string, Spec>, hosts: seq<Host>)
    ensures SafeFrom(reg, hosts, |hosts|)
  {
  }

  lemma SafeJoin(reg: map<string, Spec>, a: seq<Host>, b: seq<Host>)
    requires SafeFrom(reg, a, 0) && SafeFrom(reg, b, 0)
    ensures SafeFrom(reg, a + b, 0)
  {
    hide SurvivesCrash;
  }

  /** The hosts that taking a running machine down goes through. */
  ghost function TakeDownTrail(h: Host, vm: RunRecord): seq<Host> {
    var h1 := Kill(h, vm.pid);
    var h2 := DelRule(h1, Prerouting(vm.port, vm.guestIP));
    var h3 := DelRule(h2, Output(vm.port, vm.guestIP));
    var h4 := DelTap(h3, vm.tap);
    [h1, h2, h3, h4, DelSocket(h4, vm.socket)]
  }

  /** Those that taking the network down goes through. */
  ghost function NetTrail(h: Host, tap: string, port: int, ip: string): seq<Host> {
    var h1 := DelRule(h, Prerouting(port, ip));
    var h2 := DelRule(h1, Output(port, ip));
    [h1, h2, DelTap(h2, tap)]
  }

  ghost function WipeOutTrail(h: Host, spec: Spec): seq<Host> {
    var cleared := TeardownNet(h, TapName(spec.id), spec.sshHostPort, spec.guestIP);
    NetTrail(h, TapName(spec.id), spec.sshHostPort, spec.guestIP)
    + [DelFile(cleared, spec.id), DelDisk(DelFile(cleared, spec.id), spec.id)]
  }

  class Manager {
    ghost const reg: map<string, Spec>
    var running: map<string, RunRecord>
    var host: Host
    ghost var trail: seq<Host>   // the host after each effect so far

    function State(): St
      reads this
    {
      St(running, host)
    }

    /** Other instances may be in the middle of anything. */
    ghost predicate Valid()
      reads this
    {
      Registry(reg) && running.Keys <= reg.Keys
    }

    /** Nothing is in the middle of anything. */
    ghost predicate Quiet()
      reads this
    {
      Consistent(reg, State())
    }

    /** A crash after any effect since the trail had n entries is survived. */
    ghost predicate CrashSafeSince(n: nat)
      reads this
    {
      SafeFrom(reg, trail, n)
    }

    /** A new manager process adopts what the old one left. */
    constructor (ghost reg: map<string, Spec>, host: Host, names: seq<string>)
      requires Registry(reg) && Recoverable(reg, host) && forall f | f in host.files :: f in names
      ensures Valid() && Quiet() && this.reg == reg && State() == Restarted(host, names)
      ensures AllAlive(State())
      ensures CrashSafeSince(0)
    {
      this.reg, this.host, running, trail := reg, host, map[], [];
      new;
      RestartRecovers(reg, host, names);
      assert Adopting(reg, State());
      Adopt(names);
    }

    method Do(h: Host)
      modifies this`host, this`trail
      ensures host == h && trail == old(trail) + [h]
    {
      host := h;
      trail := trail + [h];
    }

    /** adopt's treatment of one run-state file. */
    method AdoptFile(id: string)
      modifies this
      ensures State() == AdoptOne(old(State()), id)
      ensures |trail| >= old(|trail|) && trail[..old(|trail|)] == old(trail)
      ensures host.procs == old(host).procs && host.disks == old(host).disks
      ensures id in old(host).files && old(host).files[id].Garbage? ==>
                State() == St(old(running), old(host).(files := old(host).files - {id}))
      ensures id in old(host).files && old(host).files[id].Unreadable? ==> State() == old(State())
      ensures old(Registry(reg) && Adopting(reg, State())) ==> Adopting(reg, State()) && CrashSafeSince(old(|trail|))
    {
      AdoptOneOutcome(State(), id);
      hide SurvivesCrash, Registry, Adopting, TeardownNet;
      if id in host.files {
        ghost var s0 := State();
        match host.files[id]
        case Unreadable =>
        case Garbage =>
          Do(DelFile(host, id));
          RecordsAreReadable(s0, id);
        case Saved(rs) =>
          if rs.pid > 0 && rs.pid in host.procs {
            running := running[rs.id := rs];
          } else {
            CleanUp(id, rs);
            CleanUpSurvives(s0, id);
          }
      }
      AdoptingStep(old(State()), id);
    }

    /** What is left of an instance that died: network, socket and run-state file go. */
    method CleanUp(id: string, rs: RunRecord)
      modifies this`host, this`trail
      ensures host == DelFile(DelSocket(TeardownNet(old(host), rs.tap, rs.port, rs.guestIP), rs.socket), id)
      ensures |trail| >= old(|trail|) && trail[..old(|trail|)] == old(trail)
      ensures rs.port > 0 && rs.guestIP != "" ==>
                var h1 := DelRule(old(host), Prerouting(rs.port, rs.guestIP));
                var h2 := DelRule(h1, Output(rs.port, rs.guestIP));
                var h3 := DelTap(h2, rs.tap);
                var h4 := DelSocket(h3, rs.socket);
                trail == old(trail) + [h1, h2, h3, h4, DelFile(h4, id)]
    {
      TearDown(rs.tap, rs.port, rs.guestIP);
      Do(DelSocket(host, rs.socket));
      Do(DelFile(host, id));
    }

    lemma AdoptingStep(s: St, id: string)
      ensures Registry(reg) && Adopting(reg, s) ==> Adopting(reg, AdoptOne(s, id))
    {
      if Registry(reg) && Adopting(reg, s) {
        AdoptStep(reg, s, id);
      }
    }

    lemma RecordsAreReadable(s: St, id: string)
      requires id in s.host.files && !s.host.files[id].Saved?
      ensures !(Registry(reg) && Adopting(reg, s))
    {
      if Registry(reg) && Adopting(reg, s) {
        AdoptingIsRecoverable(reg, s);
        FileMeans(s.host, reg[id]);
      }
    }

    /** The hosts that cleaning up after a dead instance goes through. */
    lemma CleanUpSurvives(s: St, id: string)
      requires id in s.host.files && s.host.files[id].Saved?
      requires s.host.files[id].r.pid <= 0 || s.host.files[id].r.pid !in s.host.procs
      ensures Registry(reg) && Adopting(reg, s) ==>
                var rs := s.host.files[id].r;
                var h1 := DelRule(s.host, Prerouting(rs.port, rs.guestIP));
                var h2 := DelRule(h1, Output(rs.port, rs.guestIP));
                var h3 := DelTap(h2, rs.tap);
                var h4 := DelSocket(h3, rs.socket);
                && rs.port > 0 && rs.guestIP != ""
                && SurvivesCrash(reg, h1) && SurvivesCrash(reg, h2) && SurvivesCrash(reg, h3)
                && SurvivesCrash(reg, h4) && SurvivesCrash(reg, DelFile(h4, id))
    {
      if Registry(reg) && Adopting(reg, s) {
        AdoptingIsRecoverable(reg, s);
        var spec := reg[id];
        FileMeans(s.host, spec);
        var rs := s.host.files[id].r;
        assert OnlyTouches(spec, s.host, s.host);
        TeardownSurvives(reg, id, s.host, s.host, rs);
        CleanUpDetaches(s.host, spec, rs);
        var torn := TeardownNet(s.host, rs.tap, rs.port, rs.guestIP);
        DetachedSurvives(reg, id, s.host, DelFile(DelSocket(torn, rs.socket), id));
      }
    }

    /** A crash in the middle of it is survived like one in a Stop. */
    method Adopt(names: seq<string>)
      modifies this
      ensures State() == AdoptAll(old(State()), names)
      ensures old(Registry(reg) && Adopting(reg, State())) ==> CrashSafeSince(old(|trail|))
    {
      hide SurvivesCrash, Registry, Adopting;
      for i := 0 to |names|
        invariant AdoptAll(State(), names[i..]) == AdoptAll(old(State()), names)
        invariant |trail| >= old(|trail|)
        invariant old(Registry(reg) && Adopting(reg, State())) ==>
                    Adopting(reg, State()) && CrashSafeSince(old(|trail|))
      {
        assert names[i..][1..] == names[i + 1..];
        ghost var before := trail;
        AdoptFile(names[i]);
        assert forall k | 0 <= k < |before| :: trail[k] == trail[..|before|][k] == before[k];
      }
    }

    /** teardownNet: both rules, if there can be any, then the tap. */
    method TearDown(tap: string, port: int, ip: string)
      modifies this`host, this`trail
      ensures host == TeardownNet(old(host), tap, port, ip)
      ensures trail == old(trail) + if port > 0 && ip != "" then NetTrail(old(host), tap, port, ip) else [host]
    {
      if port > 0 && ip != "" {
        Do(DelRule(host, Prerouting(port, ip)));
        Do(DelRule(host, Output(port, ip)));
      }
      Do(DelTap(host, tap));
    }

    /** createTap: a stale device goes first; only the first command makes the new one. */
    method MakeTap(tap: string, fails: Option<TapCommand>) returns (ok: bool)
      modifies this`host, this`trail
      ensures host == CreateTap(old(host), tap, fails) && (ok <==> fails.None?)
    {
      Do(DelTap(host, tap));
      if fails.Some? && fails.value.TuntapAdd? {
        return false;
      }
      Do(AddTap(host, tap));
      ok := !(fails.Some? && (fails.value.SetMaster? || fails.value.SetUp?));
    }

    /** addPortForward: what has been appended stays when the next command fails. */
    method Forward(port: int, ip: string, fails: Option<RuleCommand>) returns (ok: bool)
      modifies this`host, this`trail
      ensures host == AddPortForward(old(host), port, ip, fails) && (ok <==> fails.None?)
    {
      if fails.Some? && fails.value.AppendPrerouting? {
        return false;
      }
      Do(AddRule(host, Prerouting(port, ip)));
      if fails.Some? && fails.value.AppendOutput? {
        return false;
      }
      Do(AddRule(host, Output(port, ip)));
      ok := true;
    }

    method Start(spec: Spec, o: StartOutcome) returns (ok: bool)
      requires Valid() && spec.id in reg && reg[spec.id] == spec && Spawnable(host, o)
      modifies this
      ensures Valid() && (State(), ok) == StartSpec(old(State()), spec, o)
      ensures OnlyTouches(spec, old(host), host) && running - {spec.id} == old(running) - {spec.id}
      ensures ok <==> spec.id in running
      ensures spec.id in old(running) ==> ok && State() == old(State()) && trail == old(trail)
      ensures spec.id !in old(running) && spec.id !in old(host).disks ==>
                !ok && State() == old(State()) && trail == old(trail)
      ensures spec.id !in old(running) && spec.id in old(host).disks ==> (ok <==> o.Starts?)
      ensures host.disks == old(host).disks
      ensures old(Settled(State(), spec)) && Tidy(o) ==> Settled(State(), spec) && (ok ==> Attached(State(), spec))
      ensures old(Quiet()) && Tidy(o) ==> Quiet()
    {
      hide Registry, OnlyTouches, Consistent, HostAttached, HostDetached, Settled, Attached, Spawnable, Kill, DelTap,
           AddTap, DelSocket, Spawn, WriteFile, CreateTap, AddPortForward, TeardownNet;
      StartHolds(State(), spec, o);
      StartAnswers(State(), spec, o);
      if spec.id in running {
        return true;
      }
      if spec.id !in host.disks {
        return false;
      }
      var tap := TapName(spec.id);
      var tapOk := MakeTap(tap, if o.TapFails? then Some(o.at) else None);
      if !tapOk {
        return false;
      }
      var forwardOk := Forward(spec.sshHostPort, spec.guestIP, if o.ForwardFails? then Some(o.rule) else None);
      if !forwardOk {
        Do(DelTap(host, tap));
        return false;
      }
      Do(DelSocket(host, SocketPath(spec.id)));
      if o.SpawnFails? {
        TearDown(tap, spec.sshHostPort, spec.guestIP);
        return false;
      }
      Do(Spawn(host, o.pid, spec.id));
      if o.ConfigureFails? {
        Do(Kill(host, o.pid));
        TearDown(tap, spec.sshHostPort, spec.guestIP);
        Do(DelSocket(host, SocketPath(spec.id)));
        return false;
      }
      running := running[spec.id := RecordOf(spec, o.pid)];
      if o.recorded {
        Do(WriteFile(host, spec.id, Saved(RecordOf(spec, o.pid))));
      }
      ok := true;
    }

    /** Kill, tear down, remove the socket: what Stop and Delete do to a running machine. */
    method TakeDown(vm: RunRecord)
      requires vm.port > 0 && vm.guestIP != ""
      modifies this`host, this`trail
      ensures host == DelSocket(TeardownNet(Kill(old(host), vm.pid), vm.tap, vm.port, vm.guestIP), vm.socket)
      ensures trail == old(trail) + TakeDownTrail(old(host), vm)
    {
      Do(Kill(host, vm.pid));
      TearDown(vm.tap, vm.port, vm.guestIP);
      Do(DelSocket(host, vm.socket));
    }

    /** Asks the guest to power down and kills it after the grace period: either way its
        process is gone before the network is taken down. */
    method Stop(id: string)
      requires Valid() && id in reg && Settled(State(), reg[id])
      modifies this
      ensures Valid() && State() == StopSpec(old(State()), id) && Detached(State(), reg[id])
      ensures host.disks == old(host).disks
      ensures id !in old(running) ==> State() == old(State()) && trail == old(trail)
      ensures OnlyTouches(reg[id], old(host), host) && running - {id} == old(running) - {id}
      ensures old(Recoverable(reg, host)) ==> Recoverable(reg, host) && CrashSafeSince(old(|trail|))
      ensures old(Quiet()) ==> Quiet()
    {
      hide Consistent, Registry, SurvivesCrash, HostDetached, Detached, OnlyTouches, Recoverable, Settled, TeardownNet,
           SafeFrom, TakeDownTrail, Kill, DelSocket, DelFile;
      StopHolds(State(), id);
      DisksAreKept(State(), reg[id]);
      assert reg[id].id == id by { EntryIsNamed(id); }
      if id !in running {
        NoneSince(reg, trail);
        return;
      }
      var vm := running[id];
      EntryOfSettled(State(), id);
      StopSurvives(State(), id);
      ghost var before, h := trail, host;
      running := running - {id};
      TakeDown(vm);
      Do(DelFile(host, id));
      assert trail == before + (TakeDownTrail(h, vm) + [host]);
      if old(Recoverable(reg, host)) {
        SafeAfter(reg, before, TakeDownTrail(h, vm) + [host]);
      }
    }

    lemma EntryIsNamed(id: string)
      requires Registry(reg) && id in reg
      ensures reg[id].id == id
    {
    }

    lemma StopHolds(s: St, id: string)
      requires Registry(reg) && id in reg && Settled(s, reg[id]) && s.running.Keys <= reg.Keys
      ensures var s' := StopSpec(s, id);
              && Detached(s', reg[id]) && OnlyTouches(reg[id], s.host, s'.host)
              && s'.running - {id} == s.running - {id} && s'.running.Keys <= reg.Keys
              && (Recoverable(reg, s.host) ==> Recoverable(reg, s'.host))
              && (Consistent(reg, s) ==> Consistent(reg, s'))
    {
      StopDetaches(reg, s, id);
      var s' := StopSpec(s, id);
      hide OnlyTouches, HostDetached, HostAttached, StopEffects, Registry;
      assert s'.running - {id} == s.running - {id};
      if Recoverable(reg, s.host) {
        TouchKeepsRecoverable(reg, id, s.host, s'.host);
      }
      if Consistent(reg, s) {
        StopKeeps(reg, s, id);
      }
    }

    lemma TouchesNothing(h: Host, spec: Spec)
      ensures OnlyTouches(spec, h, h)
    {
    }

    lemma StartTouches(s: St, spec: Spec, o: StartOutcome)
      requires Spawnable(s.host, o)
      ensures OnlyTouches(spec, s.host, StartSpec(s, spec, o).0.host)
      ensures StartSpec(s, spec, o).0.running - {spec.id} == s.running - {spec.id}
    {
      hide OnlyTouches, BootEffects, Spawnable;
      BootTouchesOne(s.host, spec, o);
      TouchesNothing(s.host, spec);
      var s' := StartSpec(s, spec, o).0;
      assert s'.running - {spec.id} == s.running - {spec.id};
    }

    lemma StartSettles(s: St, spec: Spec, o: StartOutcome)
      requires spec.sshHostPort > 0 && spec.guestIP != "" && Spawnable(s.host, o) && Settled(s, spec) && Tidy(o)
      ensures var (s', ok) := StartSpec(s, spec, o);
              Settled(s', spec) && (ok ==> Attached(s', spec))
    {
      hide HostAttached, HostDetached, BootEffects;
      if spec.id !in s.running && spec.id in s.host.disks {
        BootSettles(s.host, spec, o);
      }
    }

    lemma StartHolds(s: St, spec: Spec, o: StartOutcome)
      requires Registry(reg) && spec.id in reg && reg[spec.id] == spec && Spawnable(s.host, o)
      requires s.running.Keys <= reg.Keys
      ensures var (s', ok) := StartSpec(s, spec, o);
              && OnlyTouches(spec, s.host, s'.host) && s'.running - {spec.id} == s.running - {spec.id}
              && s'.running.Keys <= reg.Keys
              && (Settled(s, spec) && Tidy(o) ==> Settled(s', spec) && (ok ==> Attached(s', spec)))
              && (Consistent(reg, s) && Tidy(o) ==> Consistent(reg, s'))
    {
      assert spec.sshHostPort > 0 && spec.guestIP != "";
      StartTouches(s, spec, o);
      hide OnlyTouches, BootEffects, Settled, Registry, Attached, Spawnable;
      if Settled(s, spec) && Tidy(o) {
        StartSettles(s, spec, o);
      }
      hide Consistent;
      if Consistent(reg, s) && Tidy(o) {
        StartKeeps(reg, s, spec.id, o);
      }
    }

    lemma EntryOfSettled(s: St, id: string)
      requires Registry(reg) && id in reg && Settled(s, reg[id]) && id in s.running
      ensures s.running[id] == RecordOf(reg[id], s.running[id].pid) && reg[id].id == id
      ensures reg[id].sshHostPort > 0 && reg[id].guestIP != ""
    {
    }

    lemma DeadAfterKill(s: St, id: string)
      requires Registry(reg) && id in reg && Settled(s, reg[id]) && id in s.running
      ensures var h1 := Kill(s.host, s.running[id].pid);
              HostHalfDown(h1, reg[id], s.running[id]) && OnlyTouches(reg[id], s.host, h1)
      ensures var vm := s.running[id];
              Outside(reg[id]) == Prerouting(vm.port, vm.guestIP) && Local(reg[id]) == Output(vm.port, vm.guestIP)
    {
      EntryOfSettled(s, id);
      KillHalfDowns(s.host, reg[id], s.running[id]);
    }

    lemma TakeDownSurvives(s: St, id: string)
      requires Registry(reg) && id in reg && Settled(s, reg[id]) && id in s.running && Recoverable(reg, s.host)
      ensures SafeFrom(reg, TakeDownTrail(s.host, s.running[id]), 0)
    {
      hide SurvivesCrash, Registry, Recoverable, OnlyTouches, HostHalfDown, Settled, Kill, DelRule, DelTap, DelSocket,
           Outside, Local;
      DeadAfterKill(s, id);
      var vm := s.running[id];
      TeardownSurvives(reg, id, s.host, Kill(s.host, vm.pid), vm);
    }

    lemma StopSurvives(s: St, id: string)
      requires Registry(reg) && id in reg && Settled(s, reg[id]) && id in s.running
      ensures Recoverable(reg, s.host) ==>
                SafeFrom(reg, TakeDownTrail(s.host, s.running[id]) + [StopSpec(s, id).host], 0)
    {
      hide SurvivesCrash, Registry, Recoverable, OnlyTouches, HostDetached, TakeDownTrail, StopSpec, Settled;
      if Recoverable(reg, s.host) {
        TakeDownSurvives(s, id);
        StopDetaches(reg, s, id);
        DetachedSurvives(reg, id, s.host, StopSpec(s, id).host);
        SafeJoin(reg, TakeDownTrail(s.host, s.running[id]), [StopSpec(s, id).host]);
      }
    }

    /** Hard-kills the instance and removes its disk with everything else of it. */
    method Delete(spec: Spec)
      requires Valid() && spec.id in reg && reg[spec.id] == spec && Settled(State(), spec)
      modifies this
      ensures Valid() && State() == DeleteSpec(old(State()), spec) && Detached(State(), spec)
      ensures host.disks == old(host).disks - {spec.id}
      ensures OnlyTouches(spec, old(host), host) && running - {spec.id} == old(running) - {spec.id}
      ensures old(Recoverable(reg, host)) ==> Recoverable(reg, host) && CrashSafeSince(old(|trail|))
      ensures old(Quiet()) ==> Quiet()
    {
      hide Consistent, Registry, SurvivesCrash, HostDetached, Detached, OnlyTouches, Recoverable, Settled, TeardownNet,
           SafeFrom, TakeDownTrail, WipeOutTrail, Kill, DelSocket, DelFile, DelDisk;
      var id := spec.id;
      DeleteHolds(State(), id);
      DeleteSurvives(State(), id);
      DisksAreKept(State(), spec);
      ghost var s0, before := State(), trail;
      if id in running {
        var vm := running[id];
        EntryOfSettled(State(), id);
        running := running - {id};
        TakeDown(vm);
      }
      assert running == s0.running - {id} && host == TakenDown(s0, id);
      WipeOut(spec);
      assert trail == before + DeleteTrail(s0, id);
      if old(Recoverable(reg, host)) {
        SafeAfter(reg, before, DeleteTrail(s0, id));
      }
    }

    /** Whatever may linger of the instance, its record and its disk. */
    method WipeOut(spec: Spec)
      requires spec.sshHostPort > 0 && spec.guestIP != ""
      modifies this`host, this`trail
      ensures host == DelDisk(DelFile(TeardownNet(old(host), TapName(spec.id), spec.sshHostPort, spec.guestIP),
                                      spec.id), spec.id)
      ensures trail == old(trail) + WipeOutTrail(old(host), spec)
    {
      hide TeardownNet, NetTrail;
      TearDown(TapName(spec.id), spec.sshHostPort, spec.guestIP);
      Do(DelFile(host, spec.id));
      Do(DelDisk(host, spec.id));
    }

    /** The hosts a deletion goes through. */
    ghost function DeleteTrail(s: St, id: string): seq<Host>
      requires id in reg
    {
      (if id in s.running then TakeDownTrail(s.host, s.running[id]) else []) + WipeOutTrail(TakenDown(s, id), reg[id])
    }

    /** The host after the kill part of a deletion. */
    static ghost function TakenDown(s: St, id: string): Host {
      if id in s.running then
        var vm := s.running[id];
        DelSocket(TeardownNet(Kill(s.host, vm.pid), vm.tap, vm.port, vm.guestIP), vm.socket)
      else s.host
    }

    lemma DeleteHolds(s: St, id: string)
      requires Registry(reg) && id in reg && Settled(s, reg[id]) && s.running.Keys <= reg.Keys
      ensures var s' := DeleteSpec(s, reg[id]);
              && Detached(s', reg[id]) && id !in s'.host.disks && OnlyTouches(reg[id], s.host, s'.host)
              && s'.running - {id} == s.running - {id} && s'.running.Keys <= reg.Keys
              && (Recoverable(reg, s.host) ==> Recoverable(reg, s'.host))
              && (Consistent(reg, s) ==> Consistent(reg, s'))
    {
      assert reg[id].id == id;
      hide OnlyTouches, HostDetached, HostAttached, TeardownNet, Registry, Settled;
      DeleteDetaches(reg, s, id);
      var s' := DeleteSpec(s, reg[id]);
      assert s'.running - {id} == s.running - {id};
      if Recoverable(reg, s.host) {
        TouchKeepsRecoverable(reg, id, s.host, s'.host);
      }
      if Consistent(reg, s) {
        DeleteKeeps(reg, s, id);
      }
    }

    /** After the kill part, taking the network down changes nothing more. */
    lemma NothingToTearDown(s: St, id: string)
      requires Registry(reg) && id in reg && Settled(s, reg[id])
      ensures reg[id].id == id && reg[id].sshHostPort > 0 && reg[id].guestIP != ""
      ensures var spec, h := reg[id], TakenDown(s, id);
              && TeardownNet(h, TapName(id), spec.sshHostPort, spec.guestIP) == h
              && NetTrail(h, TapName(id), spec.sshHostPort, spec.guestIP) == [h, h, h]
    {
      if id in s.running {
        DeadWithoutNet(s.host, reg[id], s.running[id]);
      }
      TeardownOfNothing(TakenDown(s, id), reg[id]);
    }

    lemma DeleteSurvives(s: St, id: string)
      requires Registry(reg) && id in reg && Settled(s, reg[id])
      ensures reg[id].id == id && reg[id].sshHostPort > 0 && reg[id].guestIP != ""
      ensures Recoverable(reg, s.host) ==> SafeFrom(reg, DeleteTrail(s, id), 0)
    {
      hide Registry, Settled, Recoverable, SurvivesCrash, TakenDown, TakeDownTrail, NetTrail, TeardownNet, DelFile,
           DelDisk, SafeFrom;
      NothingToTearDown(s, id);
      if Recoverable(reg, s.host) {
        WipeOutSurvives(s, id);
        if id in s.running {
          TakeDownSurvives(s, id);
        } else {
          NoHosts();
        }
        var first := if id in s.running then TakeDownTrail(s.host, s.running[id]) else [];
        SafeJoin(reg, first, WipeOutTrail(TakenDown(s, id), reg[id]));
      }
    }

    lemma NoHosts()
      ensures SafeFrom(reg, [], 0)
    {
    }

    lemma WipeOutSurvives(s: St, id: string)
      requires Registry(reg) && id in reg && Settled(s, reg[id]) && Recoverable(reg, s.host)
      ensures SafeFrom(reg, WipeOutTrail(TakenDown(s, id), reg[id]), 0)
    {
      hide Registry, Settled, Recoverable, SurvivesCrash, TakenDown, NetTrail, TeardownNet, DelFile, DelDisk;
      NothingToTearDown(s, id);
      TakenDownSurvives(s, id);
      var h := TakenDown(s, id);
      assert WipeOutTrail(h, reg[id]) == [h, h, h] + [DelFile(h, id), DelDisk(DelFile(h, id), id)];
    }

    lemma TakenDownSurvives(s: St, id: string)
      requires Registry(reg) && id in reg && Settled(s, reg[id]) && Recoverable(reg, s.host)
      ensures var h := TakenDown(s, id);
              && SurvivesCrash(reg, h) && SurvivesCrash(reg, DelFile(h, id))
              && SurvivesCrash(reg, DelDisk(DelFile(h, id), id))
    {
      var spec, h := reg[id], TakenDown(s, id);
      if id in s.running {
        var vm := s.running[id];
        DeadWithoutNet(s.host, spec, vm);
        HalfDownSurvives(reg, id, s.host, h, vm);
        DelFileDetaches(h, spec, vm);
      } else {
        RecoverableSurvivesCrash(reg, h);
        assert h.files - {id} == h.files;
      }
      DeletedSurvives(s, id, h);
    }

    lemma DeletedSurvives(s: St, id: string, h: Host)
      requires Registry(reg) && id in reg && Recoverable(reg, h)
      requires HostDetached(DelFile(h, id), reg[id]) && OnlyTouches(reg[id], h, DelFile(h, id))
      ensures SurvivesCrash(reg, DelFile(h, id)) && SurvivesCrash(reg, DelDisk(DelFile(h, id), id))
    {
      var gone := DelFile(h, id);
      DetachedSurvives(reg, id, h, gone);
      DiskTouches(gone, reg[id]);
      DetachedSurvives(reg, id, gone, DelDisk(gone, id));
    }
  }
}
