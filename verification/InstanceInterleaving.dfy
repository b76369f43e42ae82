/** What holds while operations on different instances are in flight at the same time: each
    instance has exactly the pieces its phase names, a crash is survived whenever no start is in
    flight, and what is not in flight is attached or gone. */
module InstanceInterleaving {
  import opened Options
  import opened InstanceHost
  import opened InstanceSafety
  import opened InstanceSteps
  import opened InstanceManager

  /** The pid was given to this instance, and to no other since. */
  ghost predicate Own(h: Host, id: string, pid: int) {
    pid > 0 && pid in h.pids && (pid in h.procs ==> h.procs[pid] == id)
  }

  ghost predicate NetIs(h: Host, spec: Spec, x: Pieces) {
    && (HasTap(h, spec) <==> x.tap) && (HasSocket(h, spec) <==> x.socket)
    && h.rules[Outside(spec)] == x.outside && h.rules[Local(spec)] == x.local
  }

  ghost predicate ProcsAre(h: Host, spec: Spec, x: Pieces) {
    && (forall pid | pid in h.procs && h.procs[pid] == spec.id :: pid in x.alive)
    && (forall pid | pid in x.known :: Own(h, spec.id, pid))
    && x.alive <= x.known
  }

  ghost predicate RecordsAre(s: St, spec: Spec, x: Pieces) {
    && (spec.id in s.running <==> x.entry.Some?) && (spec.id in s.host.files <==> x.file.Some?)
    && (x.entry.Some? ==> x.entry.value in x.known && s.running[spec.id] == RecordOf(spec, x.entry.value))
    && (x.file.Some? ==> x.file.value in x.known && s.host.files[spec.id] == Saved(RecordOf(spec, x.file.value)))
  }

  /** The host and the map have exactly these pieces of the instance. */
  ghost predicate Has(s: St, spec: Spec, x: Pieces) {
    NetIs(s.host, spec, x) && ProcsAre(s.host, spec, x) && RecordsAre(s, spec, x)
  }

  // One effect moves its own instance's pieces and nobody else's.

  predicate Fits(x: Pieces, cmd: Cmd) {
    cmd.KillVm? || cmd.Enroll? || cmd.WriteRecord? ==> cmd.pid in x.known
  }

  lemma CmdMovesNet(s: St, spec: Spec, x: Pieces, cmd: Cmd)
    requires NetIs(s.host, spec, x)
    ensures NetIs(RunCmd(s, spec, cmd).host, spec, After(x, cmd))
  {
  }

  lemma CmdMovesProcs(s: St, spec: Spec, x: Pieces, cmd: Cmd)
    requires ProcsAre(s.host, spec, x) && FreshFor(s.host, cmd)
    ensures ProcsAre(RunCmd(s, spec, cmd).host, spec, After(x, cmd))
  {
  }

  lemma CmdMovesRecords(s: St, spec: Spec, x: Pieces, cmd: Cmd)
    requires RecordsAre(s, spec, x) && Fits(x, cmd)
    ensures RecordsAre(RunCmd(s, spec, cmd), spec, After(x, cmd))
  {
  }

  lemma CmdMoves(s: St, spec: Spec, x: Pieces, cmd: Cmd)
    requires Has(s, spec, x) && Fits(x, cmd) && FreshFor(s.host, cmd)
    ensures Has(RunCmd(s, spec, cmd), spec, After(x, cmd))
  {
    CmdMovesNet(s, spec, x, cmd);
    CmdMovesProcs(s, spec, x, cmd);
    CmdMovesRecords(s, spec, x, cmd);
  }

  lemma CmdTouchesOne(s: St, spec: Spec, x: Pieces, cmd: Cmd)
    requires Has(s, spec, x) && Fits(x, cmd) && FreshFor(s.host, cmd)
    ensures OnlyTouches(spec, s.host, RunCmd(s, spec, cmd).host)
    ensures RunCmd(s, spec, cmd).running - {spec.id} == s.running - {spec.id}
  {
    hide NetIs, RecordsAre, OnlyTouches;
    var s' := RunCmd(s, spec, cmd);
    match cmd
    case SpawnVm(pid) => SpawnTouches(s.host, spec, pid);
    case KillVm(pid) => KillTouches(s.host, spec, pid);
    case RemoveSocket => SocketTouches(s.host, spec);
    case WriteRecord(pid) => FileTouches(s.host, spec, Saved(RecordOf(spec, pid)));
    case RemoveRecord => RecordTouches(s.host, spec);
    case RemoveDisk => DiskTouches(s.host, spec);
    case Enroll(pid) =>
      Untouched(spec, s.host);
      assert s'.running - {spec.id} == s.running - {spec.id};
    case _ => NetCmdTouches(s, spec, cmd);
  }

  lemma RecordTouches(h: Host, spec: Spec)
    ensures OnlyTouches(spec, h, DelFile(h, spec.id))
  {
    assert (h.files - {spec.id}) - {spec.id} == h.files - {spec.id};
  }

  lemma NetCmdTouches(s: St, spec: Spec, cmd: Cmd)
    requires cmd.LinkDel? || cmd.LinkAdd? || cmd.AppendOutside? || cmd.AppendLocal? || cmd.RemoveOutside?
             || cmd.RemoveLocal?
    ensures OnlyTouches(spec, s.host, RunCmd(s, spec, cmd).host)
  {
    match cmd
    case LinkDel =>
    case LinkAdd =>
    case AppendOutside =>
    case AppendLocal =>
    case RemoveOutside =>
    case RemoveLocal =>
  }

  lemma OthersKeepPieces(reg: map<string, Spec>, a: string, b: string, s: St, s': St, x: Pieces)
    requires Registry(reg) && a in reg && b in reg && a != b && Has(s, reg[b], x)
    requires OnlyTouches(reg[a], s.host, s'.host) && s'.running - {a} == s.running - {a}
    ensures Has(s', reg[b], x)
  {
    OthersKeepNet(reg, a, b, s.host, s'.host, x);
    OthersKeepProcs(reg, a, b, s.host, s'.host, x);
    OthersKeepRecords(reg, a, b, s, s', x);
  }

  lemma OthersKeepNet(reg: map<string, Spec>, a: string, b: string, h: Host, h': Host, x: Pieces)
    requires Registry(reg) && a in reg && b in reg && a != b && NetIs(h, reg[b], x) && OnlyTouches(reg[a], h, h')
    ensures NetIs(h', reg[b], x)
  {
    if SocketPath(a) == SocketPath(b) {
      SocketPathsDiffer(a, b);
    }
  }

  lemma OthersKeepProcs(reg: map<string, Spec>, a: string, b: string, h: Host, h': Host, x: Pieces)
    requires Registry(reg) && a in reg && b in reg && a != b && ProcsAre(h, reg[b], x) && OnlyTouches(reg[a], h, h')
    ensures ProcsAre(h', reg[b], x)
  {
  }

  lemma OthersKeepRecords(reg: map<string, Spec>, a: string, b: string, s: St, s': St, x: Pieces)
    requires Registry(reg) && a in reg && b in reg && a != b && RecordsAre(s, reg[b], x)
    requires s'.host.files - {a} == s.host.files - {a} && s'.running - {a} == s.running - {a}
    ensures RecordsAre(s', reg[b], x)
  {
    assert b in s'.running <==> b in s'.running - {a};
    assert b in s.running <==> b in s.running - {a};
    assert b in s.running ==> (s.running - {a})[b] == s.running[b];
    assert b in s'.running ==> (s'.running - {a})[b] == s'.running[b];
    assert b in s'.host.files <==> b in s'.host.files - {a};
    assert b in s.host.files <==> b in s.host.files - {a};
    assert b in s.host.files ==> (s.host.files - {a})[b] == s.host.files[b];
    assert b in s'.host.files ==> (s'.host.files - {a})[b] == s'.host.files[b];
  }

  // (i) On every interleaving each instance has the pieces its phase names.

  function Learn(known: set<int>, cmd: Cmd): set<int> {
    if cmd.SpawnVm? then known + {cmd.pid} else known
  }

  /** Every effect still to come finds its pid known. */
  predicate AllFit(known: set<int>, todo: Script)
    decreases todo
  {
    todo.Then? ==>
      && (todo.cmd.KillVm? || todo.cmd.Enroll? || todo.cmd.WriteRecord? ==> todo.cmd.pid in known)
      && AllFit(Learn(known, todo.cmd), todo.rest)
  }

  lemma FitsOn(x: Pieces, todo: Script)
    requires AllFit(x.known, todo) && todo.Then?
    ensures Fits(x, todo.cmd) && AllFit(After(x, todo.cmd).known, todo.rest)
  {
    assert After(x, todo.cmd).known == Learn(x.known, todo.cmd);
  }

  ghost predicate PhaseOk(s: St, spec: Spec, p: Phase) {
    Has(s, spec, p.at) && (p.Busy? ==> p.todo.Then? && AllFit(p.at.known, p.todo))
  }

  ghost predicate InPhase(reg: map<string, Spec>, c: Sys) {
    && c.phases.Keys == reg.Keys && c.st.running.Keys <= reg.Keys && c.st.host.files.Keys <= reg.Keys
    && (forall id | id in reg :: PhaseOk(c.st, reg[id], c.phases[id]))
  }

  lemma BringUpFits(known: set<int>, rest: Script)
    ensures AllFit(known, BringUp(rest)) <==> AllFit(known, rest)
  {
    var t1 := Then(RemoveSocket, rest);
    var t2 := Then(AppendLocal, t1);
    var t3 := Then(AppendOutside, t2);
    assert AllFit(known, t1) <==> AllFit(known, rest);
    assert AllFit(known, t3) <==> AllFit(known, t1);
  }

  lemma TearDownFits(known: set<int>, rest: Script)
    ensures AllFit(known, TearDown(rest)) <==> AllFit(known, rest)
  {
    assert AllFit(known, Then(LinkDel, rest)) <==> AllFit(known, rest);
  }

  lemma StartFits(known: set<int>, o: StartOutcome)
    ensures AllFit(known, StartScript(o))
  {
    match o
    case TapFails(at) => assert AllFit(known, Done);
    case ForwardFails(rule) =>
      assert AllFit(known, Then(LinkDel, Done));
      assert AllFit(known, Then(AppendOutside, Then(LinkDel, Done)));
    case SpawnFails =>
      TearDownFits(known, Done);
      BringUpFits(known, TearDown(Done));
    case ConfigureFails(pid) =>
      var down := TearDown(Then(RemoveSocket, Done));
      TearDownFits(known + {pid}, Then(RemoveSocket, Done));
      assert AllFit(known + {pid}, Then(KillVm(pid), down));
      BringUpFits(known, Then(SpawnVm(pid), Then(KillVm(pid), down)));
    case Starts(pid, recorded) =>
      var end := if recorded then Then(WriteRecord(pid), Done) else Done;
      assert AllFit(known + {pid}, end);
      assert AllFit(known + {pid}, Then(Enroll(pid), end));
      BringUpFits(known, Then(SpawnVm(pid), Then(Enroll(pid), end)));
  }

  lemma StopFits(known: set<int>, pid: int)
    requires pid in known
    ensures AllFit(known, StopScript(pid))
  {
    var last := Then(RemoveSocket, Then(RemoveRecord, Done));
    TearDownFits(known, last);
    assert AllFit(known, last);
  }

  lemma DeleteFits(known: set<int>, entry: Option<int>)
    requires entry.Some? ==> entry.value in known
    ensures AllFit(known, DeleteScript(entry))
  {
    var last := Then(RemoveRecord, Then(RemoveDisk, Done));
    assert AllFit(known, last);
    TearDownFits(known, last);
    TearDownFits(known, Then(RemoveSocket, TearDown(last)));
    assert AllFit(known, Then(RemoveSocket, TearDown(last)));
  }

  /** Changing one instance's phase, when only that instance is touched. */
  lemma OneMoves(reg: map<string, Spec>, c: Sys, id: string, s': St, p': Phase)
    requires Registry(reg) && InPhase(reg, c) && id in reg
    requires OnlyTouches(reg[id], c.st.host, s'.host) && s'.running - {id} == c.st.running - {id}
    requires PhaseOk(s', reg[id], p')
    ensures InPhase(reg, SetPhase(c, s', id, p'))
  {
    assert reg[id].id == id;
    hide OnlyTouches, Has, Registry;
    var c' := SetPhase(c, s', id, p');
    forall b | b in reg ensures PhaseOk(s', reg[b], c'.phases[b]) {
      if b != id {
        assert PhaseOk(c.st, reg[b], c.phases[b]);
        OthersKeepPieces(reg, id, b, c.st, s', c.phases[b].at);
      }
    }
    KeysStay(reg, id, c.st, s');
  }

  lemma KeysStay(reg: map<string, Spec>, id: string, s: St, s': St)
    requires id in reg && s.running.Keys <= reg.Keys && s.host.files.Keys <= reg.Keys && reg[id].id == id
    requires OnlyTouches(reg[id], s.host, s'.host) && s'.running - {id} == s.running - {id}
    ensures s'.running.Keys <= reg.Keys && s'.host.files.Keys <= reg.Keys
  {
    forall f | f in s'.host.files ensures f in reg {
      if f != id {
        assert f in s'.host.files - {id};
      }
    }
    forall f | f in s'.running ensures f in reg {
      if f != id {
        assert f in s'.running - {id};
      }
    }
  }

  lemma Untouched(spec: Spec, h: Host)
    ensures OnlyTouches(spec, h, h)
  {
  }

  lemma LosesEntry(s: St, spec: Spec, x: Pieces)
    requires Has(s, spec, x)
    ensures Has(s.(running := s.running - {spec.id}), spec, x.(entry := None))
    ensures (s.running - {spec.id}) - {spec.id} == s.running - {spec.id}
  {
  }

  /** Stop and delete begin by taking the entry out of the map. */
  lemma TakesEntry(reg: map<string, Spec>, c: Sys, id: string, job: Job, todo: Script)
    requires Registry(reg) && InPhase(reg, c) && id in reg && todo.Then?
    requires AllFit(c.phases[id].at.known, todo)
    ensures InPhase(reg, SetPhase(c, c.st.(running := c.st.running - {id}), id,
                                  Busy(job, c.phases[id].at.(entry := None), todo)))
  {
    assert reg[id].id == id;
    hide Registry, Has, OnlyTouches, AllFit;
    assert PhaseOk(c.st, reg[id], c.phases[id]);
    hide InPhase;
    Untouched(reg[id], c.st.host);
    LosesEntry(c.st, reg[id], c.phases[id].at);
    OneMoves(reg, c, id, c.st.(running := c.st.running - {id}), Busy(job, c.phases[id].at.(entry := None), todo));
  }

  lemma EntryIsKnown(s: St, spec: Spec, x: Pieces)
    requires Has(s, spec, x) && spec.id in s.running
    ensures s.running[spec.id].pid in x.known
  {
  }

  lemma BeginKeeps(reg: map<string, Spec>, c: Sys, id: string, job: Job)
    requires Registry(reg) && InPhase(reg, c) && id in reg && c.phases[id].Idle?
    ensures InPhase(reg, Started(c, id, c.phases[id].at, job))
  {
    var x := c.phases[id].at;
    assert PhaseOk(c.st, reg[id], c.phases[id]) && reg[id].id == id;
    if id in c.st.running {
      EntryIsKnown(c.st, reg[id], x);
    }
    Untouched(reg[id], c.st.host);
    hide InPhase, Registry, Has, OnlyTouches, AllFit, StartScript, StopScript, DeleteScript;
    match job
    case StartJob(o) =>
      StartFits(x.known, o);
      ScriptsStart(o, 0, None);
      if id !in c.st.running && id in c.st.host.disks {
        OneMoves(reg, c, id, c.st, Busy(job, x, StartScript(o)));
      }
    case StopJob =>
      if id in c.st.running {
        var pid := c.st.running[id].pid;
        StopFits(x.known, pid);
        ScriptsStart(SpawnFails, pid, None);
        TakesEntry(reg, c, id, job, StopScript(pid));
      }
    case DeleteJob =>
      var entry := if id in c.st.running then Some(c.st.running[id].pid) else None;
      DeleteFits(x.known, entry);
      ScriptsStart(SpawnFails, 0, entry);
      TakesEntry(reg, c, id, job, DeleteScript(entry));
  }

  lemma ScriptsStart(o: StartOutcome, pid: int, entry: Option<int>)
    ensures StartScript(o).Then? && StopScript(pid).Then? && DeleteScript(entry).Then?
  {
  }

  lemma GoKeeps(reg: map<string, Spec>, c: Sys, id: string)
    requires Registry(reg) && InPhase(reg, c) && Next(reg, c, Go(id)).Some?
    ensures InPhase(reg, Next(reg, c, Go(id)).value)
  {
    var p := c.phases[id];
    assert PhaseOk(c.st, reg[id], p);
    FitsOn(p.at, p.todo);
    CmdMoves(c.st, reg[id], p.at, p.todo.cmd);
    CmdTouchesOne(c.st, reg[id], p.at, p.todo.cmd);
    hide Has, OnlyTouches, InPhase, RunCmd, After, AllFit, Fits, Registry;
    OneMoves(reg, c, id, RunCmd(c.st, reg[id], p.todo.cmd), Carried(After(p.at, p.todo.cmd), p.job, p.todo.rest));
  }

  lemma ExitKeepsPieces(s: St, spec: Spec, x: Pieces, pid: int)
    requires Has(s, spec, x)
    ensures Has(s.(host := Kill(s.host, pid)), spec, x)
  {
  }

  lemma DiskKeepsPieces(s: St, spec: Spec, x: Pieces, disks: set<string>)
    requires Has(s, spec, x)
    ensures Has(s.(host := s.host.(disks := disks)), spec, x)
  {
  }

  // Restarts.

  lemma SafeIsFixable(s: St, spec: Spec, x: Pieces)
    requires Has(s, spec, x) && CrashSafe(x)
    ensures Fixable(s.host, spec)
  {
    if x.file.None? {
      assert HostDetached(s.host, spec);
    } else if x.alive == {} && x.outside <= 1 && x.local <= 1 {
      assert HostHalfDown(s.host, spec, RecordOf(spec, x.file.value));
    } else {
      assert HostAttached(s.host, spec, RecordOf(spec, x.file.value));
    }
  }

  lemma SafeIsRecoverable(reg: map<string, Spec>, c: Sys)
    requires InPhase(reg, c) && forall id | id in reg :: CrashSafe(c.phases[id].at)
    ensures Recoverable(reg, c.st.host)
  {
    forall id | id in reg ensures Fixable(c.st.host, reg[id]) {
      assert PhaseOk(c.st, reg[id], c.phases[id]);
      SafeIsFixable(c.st, reg[id], c.phases[id].at);
    }
  }

  lemma SettledHas(s: St, spec: Spec)
    requires Settled(s, spec) && (spec.id in s.running ==> spec.id in s.host.files)
    ensures Has(s, spec, if spec.id in s.running then Everything(s.running[spec.id].pid) else NOTHING)
  {
  }

  lemma RestartedIsIdle(reg: map<string, Spec>, c: Sys, s: St)
    requires Registry(reg) && c.phases.Keys == reg.Keys && Consistent(reg, s)
    ensures InPhase(reg, Sys(s, map id | id in c.phases :: Adopted(s, id)))
  {
    var c' := Sys(s, map id | id in c.phases :: Adopted(s, id));
    hide HostAttached, HostDetached, Has, Settled;
    forall id | id in reg ensures PhaseOk(s, reg[id], c'.phases[id]) {
      assert Settled(s, reg[id]);
      AttachedHasFile(s, reg[id]);
      SettledHas(s, reg[id]);
    }
  }

  lemma CrashKeeps(reg: map<string, Spec>, c: Sys, names: seq<string>)
    requires Registry(reg) && InPhase(reg, c) && forall f | f in c.st.host.files :: f in names
    requires forall id | id in c.phases :: CrashSafe(c.phases[id].at)
    ensures var s := Restarted(c.st.host, names);
            InPhase(reg, Sys(s, map id | id in c.phases :: Adopted(s, id)))
  {
    SafeIsRecoverable(reg, c);
    RestartRecovers(reg, c.st.host, names);
    hide Recoverable, Consistent, Restarted, PhaseOk;
    RestartedIsIdle(reg, c, Restarted(c.st.host, names));
  }

  lemma AttachedHasFile(s: St, spec: Spec)
    requires Settled(s, spec)
    ensures spec.id in s.running ==> spec.id in s.host.files
  {
  }

  lemma StepKeepsPhases(reg: map<string, Spec>, c: Sys, e: Event)
    requires Registry(reg) && InPhase(reg, c) && Next(reg, c, e).Some?
    ensures InPhase(reg, Next(reg, c, e).value)
  {
    match e
    case Begin(id, job) => BeginKeeps(reg, c, id, job);
    case Go(id) => GoKeeps(reg, c, id);
    case Exits(pid) =>
      forall id | id in reg ensures PhaseOk(Next(reg, c, e).value.st, reg[id], c.phases[id]) {
        assert PhaseOk(c.st, reg[id], c.phases[id]);
        ExitKeepsPieces(c.st, reg[id], c.phases[id].at, pid);
      }
    case Provisions(d) =>
      forall id | id in reg ensures PhaseOk(Next(reg, c, e).value.st, reg[id], c.phases[id]) {
        assert PhaseOk(c.st, reg[id], c.phases[id]);
        DiskKeepsPieces(c.st, reg[id], c.phases[id].at, c.st.host.disks + {d});
      }
    case Crashes(names) => CrashKeeps(reg, c, names);
  }

  lemma FreshIsInPhase(reg: map<string, Spec>, c: Sys)
    requires Registry(reg) && Fresh(reg, c)
    ensures InPhase(reg, c)
  {
    forall id | id in reg ensures PhaseOk(c.st, reg[id], c.phases[id]) {
      assert HostDetached(c.st.host, reg[id]);
    }
  }

  /** On any interleaving of operations on different instances, with process exits and crashes in
      between, each instance has exactly the pieces that its phase names. Starts may fail at any
      command and leave residue, and may lose their record. */
  lemma {:induction false} EveryPhaseHolds(reg: map<string, Spec>, c: Sys, es: seq<Event>)
    requires Registry(reg) && InPhase(reg, c) && Run(reg, c, es).Some?
    ensures InPhase(reg, Run(reg, c, es).value)
    decreases |es|
  {
    hide Registry, InPhase, Next;
    if es != [] {
      StepKeepsPhases(reg, c, es[0]);
      EveryPhaseHolds(reg, Next(reg, c, es[0]).value, es[1..]);
    }
  }

  // (ii) and (iii): when no helper fails half-way and no record is lost.

  predicate Whole(x: Pieces) {
    x.entry.Some? && x.file.Some? && x.entry.value == x.file.value
    && x.tap && x.socket && x.outside == 1 && x.local == 1 && x.alive <= {x.file.value}
  }

  predicate Bare(x: Pieces) {
    x.entry.None? && x.file.None? && !x.tap && !x.socket && x.outside == 0 && x.local == 0 && x.alive == {}
  }

  function Final(x: Pieces, todo: Script): Pieces
    decreases todo
  {
    if todo.Done? then x else Final(After(x, todo.cmd), todo.rest)
  }

  predicate StaysSafe(x: Pieces, todo: Script)
    decreases todo
  {
    CrashSafe(x) && (todo.Then? ==> StaysSafe(After(x, todo.cmd), todo.rest))
  }

  /** Idle instances are there with everything or not at all; a start ends that way; a stop or a
      delete ends with nothing and is safe to interrupt all along. */
  predicate OrderlyPhase(p: Phase) {
    match p
    case Idle(at) => Whole(at) || Bare(at)
    case Busy(StartJob(_), at, todo) => Whole(Final(at, todo)) || Bare(Final(at, todo))
    case Busy(_, at, todo) => StaysSafe(at, todo) && Bare(Final(at, todo))
  }

  ghost predicate Orderly(c: Sys) {
    forall id | id in c.phases :: OrderlyPhase(c.phases[id])
  }

  predicate TidyEvent(e: Event) {
    e.Begin? && e.job.StartJob? ==> Tidy(e.job.o)
  }

  predicate StartInFlight(p: Phase) {
    p.Busy? && p.job.StartJob?
  }

  // The scripts.

  function Up(x: Pieces): Pieces {
    Pieces(true, x.outside + 1, x.local + 1, false, x.alive, x.known, x.entry, x.file)
  }

  function Torn(x: Pieces): Pieces {
    Pieces(false, if x.outside > 0 then x.outside - 1 else 0, if x.local > 0 then x.local - 1 else 0, x.socket, x.alive,
           x.known, x.entry, x.file)
  }

  lemma BringUpFinal(x: Pieces, rest: Script)
    ensures Final(x, BringUp(rest)) == Final(Up(x), rest)
  {
    var x2 := After(After(x, LinkDel), LinkAdd);
    var t3 := Then(AppendOutside, Then(AppendLocal, Then(RemoveSocket, rest)));
    assert Final(x, BringUp(rest)) == Final(x2, t3);
    var x4 := After(After(x2, AppendOutside), AppendLocal);
    assert Final(x2, t3) == Final(x4, Then(RemoveSocket, rest));
    assert After(x4, RemoveSocket) == Up(x);
  }

  lemma TearDownFinal(x: Pieces, rest: Script)
    ensures Final(x, TearDown(rest)) == Final(Torn(x), rest)
  {
    var x1 := After(x, RemoveOutside);
    assert Final(x, TearDown(rest)) == Final(x1, Then(RemoveLocal, Then(LinkDel, rest)));
    var x2 := After(x1, RemoveLocal);
    assert Final(x1, Then(RemoveLocal, Then(LinkDel, rest))) == Final(x2, Then(LinkDel, rest));
    assert After(x2, LinkDel) == Torn(x);
  }

  lemma OneCmd(x: Pieces, a: Cmd)
    ensures Final(x, Then(a, Done)) == After(x, a)
  {
  }

  lemma TwoCmds(x: Pieces, a: Cmd, b: Cmd)
    ensures Final(x, Then(a, Then(b, Done))) == After(After(x, a), b)
  {
    OneCmd(After(x, a), b);
  }

  /** A tidy start that begins with nothing ends with everything or nothing. */
  lemma StartEnds(x: Pieces, o: StartOutcome)
    requires Bare(x) && Tidy(o)
    ensures Whole(Final(x, StartScript(o))) || Bare(Final(x, StartScript(o)))
  {
    hide Final;
    match o
    case TapFails(at) => OneCmd(x, LinkDel);
    case ForwardFails(rule) => ForwardFailureEnds(x);
    case SpawnFails =>
      BringUpFinal(x, TearDown(Done));
      TearDownFinal(Up(x), Done);
      DoneEnds(Torn(Up(x)));
    case ConfigureFails(pid) => ConfigureFailureEnds(x, pid);
    case Starts(pid, recorded) => SuccessEnds(x, pid);
  }

  lemma DoneEnds(x: Pieces)
    ensures Final(x, Done) == x
  {
  }

  lemma ForwardFailureEnds(x: Pieces)
    requires Bare(x)
    ensures Bare(Final(x, Then(LinkDel, Then(LinkAdd, Then(LinkDel, Done)))))
  {
    TwoCmds(After(x, LinkDel), LinkAdd, LinkDel);
  }

  lemma ConfigureFailureEnds(x: Pieces, pid: int)
    requires Bare(x)
    ensures Bare(Final(x, StartScript(ConfigureFails(pid))))
  {
    var down := TearDown(Then(RemoveSocket, Done));
    BringUpFinal(x, Then(SpawnVm(pid), Then(KillVm(pid), down)));
    var spawned := After(Up(x), SpawnVm(pid));
    var killed := After(spawned, KillVm(pid));
    assert Final(Up(x), Then(SpawnVm(pid), Then(KillVm(pid), down))) == Final(spawned, Then(KillVm(pid), down))
        == Final(killed, down);
    TearDownFinal(killed, Then(RemoveSocket, Done));
    OneCmd(Torn(killed), RemoveSocket);
  }

  lemma SuccessEnds(x: Pieces, pid: int)
    requires Bare(x)
    ensures Whole(Final(x, StartScript(Starts(pid, true))))
  {
    var end := Then(Enroll(pid), Then(WriteRecord(pid), Done));
    BringUpFinal(x, Then(SpawnVm(pid), end));
    var spawned := After(Up(x), SpawnVm(pid));
    assert Final(Up(x), Then(SpawnVm(pid), end)) == Final(spawned, end);
    TwoCmds(spawned, Enroll(pid), WriteRecord(pid));
  }

  /** Nothing alive and at most one of each rule, with a record; or nothing at all. */
  predicate Clearable(x: Pieces) {
    CrashSafe(x) && x.alive == {} && x.outside <= 1 && x.local <= 1
  }

  lemma TearDownStaysSafe(x: Pieces, rest: Script)
    requires Clearable(x) && StaysSafe(Torn(x), rest)
    ensures StaysSafe(x, TearDown(rest))
  {
    var x1 := After(x, RemoveOutside);
    var x2 := After(x1, RemoveLocal);
    assert After(x2, LinkDel) == Torn(x);
    assert StaysSafe(x2, Then(LinkDel, rest));
    assert StaysSafe(x1, Then(RemoveLocal, Then(LinkDel, rest)));
  }

  lemma StopEnds(x: Pieces)
    requires Whole(x)
    ensures var y := x.(entry := None);
            StaysSafe(y, StopScript(x.entry.value)) && Bare(Final(y, StopScript(x.entry.value)))
  {
    var y := x.(entry := None);
    var killed := After(y, KillVm(x.entry.value));
    var last := Then(RemoveSocket, Then(RemoveRecord, Done));
    assert killed.alive == {};
    LastStaysSafe(Torn(killed), RemoveRecord);
    TearDownStaysSafe(killed, last);
    TearDownFinal(killed, last);
    TwoCmds(Torn(killed), RemoveSocket, RemoveRecord);
  }

  /** Removing the socket and then the record of a dead instance whose network is gone. */
  lemma LastStaysSafe(x: Pieces, cmd: Cmd)
    requires x.file.Some? && x.alive == {} && !x.tap && x.outside == 0 && x.local == 0 && cmd.RemoveRecord?
    ensures StaysSafe(x, Then(RemoveSocket, Then(cmd, Done)))
  {
    var x1 := After(x, RemoveSocket);
    assert StaysSafe(After(x1, cmd), Done);
    assert StaysSafe(x1, Then(cmd, Done));
  }

  lemma DeleteTailEnds(x: Pieces)
    requires x.entry.None? && x.alive == {} && !x.tap && !x.socket && x.outside == 0 && x.local == 0
    ensures var rest := TearDown(Then(RemoveRecord, Then(RemoveDisk, Done)));
            StaysSafe(x, rest) && Bare(Final(x, rest))
  {
    var last := Then(RemoveRecord, Then(RemoveDisk, Done));
    assert Torn(x) == x;
    var x1 := After(x, RemoveRecord);
    assert StaysSafe(x1, Then(RemoveDisk, Done));
    assert StaysSafe(x, last);
    TearDownStaysSafe(x, last);
    TearDownFinal(x, last);
    TwoCmds(x, RemoveRecord, RemoveDisk);
  }

  lemma DeleteEnds(x: Pieces)
    requires Whole(x) || Bare(x)
    ensures var y := x.(entry := None);
            StaysSafe(y, DeleteScript(x.entry)) && Bare(Final(y, DeleteScript(x.entry)))
  {
    var y := x.(entry := None);
    var rest := TearDown(Then(RemoveRecord, Then(RemoveDisk, Done)));
    if Whole(x) {
      var killed := After(y, KillVm(x.entry.value));
      assert killed.alive == {};
      var cleared := After(Torn(killed), RemoveSocket);
      DeleteTailEnds(cleared);
      hide DeleteScript, TearDown;
      TearDownStaysSafe(killed, Then(RemoveSocket, rest));
      TearDownFinal(killed, Then(RemoveSocket, rest));
      DeleteUnfolds(y, x.entry.value, rest);
    } else {
      DeleteTailEnds(y);
    }
  }

  lemma DeleteUnfolds(y: Pieces, pid: int, rest: Script)
    requires rest == TearDown(Then(RemoveRecord, Then(RemoveDisk, Done)))
    ensures var down := TearDown(Then(RemoveSocket, rest));
            && (CrashSafe(y) && StaysSafe(After(y, KillVm(pid)), down) ==> StaysSafe(y, DeleteScript(Some(pid))))
            && Final(y, DeleteScript(Some(pid))) == Final(After(y, KillVm(pid)), down)
  {
  }

  // Orderly phases stay orderly.

  lemma BeginIsOrderly(reg: map<string, Spec>, c: Sys, id: string, job: Job)
    requires InPhase(reg, c) && Orderly(c) && id in reg && reg[id].id == id && c.phases[id].Idle?
    requires job.StartJob? ==> Tidy(job.o)
    ensures Orderly(Started(c, id, c.phases[id].at, job))
  {
    var x := c.phases[id].at;
    assert PhaseOk(c.st, reg[id], c.phases[id]) && OrderlyPhase(c.phases[id]);
    EntryIs(c.st, reg[id], x);
    hide InPhase, PhaseOk, Has, StartScript, StopScript, DeleteScript, Final, StaysSafe;
    match job
    case StartJob(o) =>
      if id !in c.st.running {
        StartEnds(x, o);
      }
    case StopJob =>
      if id in c.st.running {
        StopEnds(x);
      }
    case DeleteJob => DeleteEnds(x);
  }

  lemma EntryIs(s: St, spec: Spec, x: Pieces)
    requires Has(s, spec, x)
    ensures spec.id in s.running <==> x.entry.Some?
    ensures spec.id in s.running ==> x.entry.Some? && s.running[spec.id].pid == x.entry.value
  {
  }

  lemma GoIsOrderly(reg: map<string, Spec>, c: Sys, id: string)
    requires Orderly(c) && Next(reg, c, Go(id)).Some?
    ensures Orderly(Next(reg, c, Go(id)).value)
  {
    var p := c.phases[id];
    assert OrderlyPhase(p);
    CarriesOn(p);
    hide OrderlyPhase, RunCmd, After;
  }

  lemma CarriesOn(p: Phase)
    requires p.Busy? && p.todo.Then? && OrderlyPhase(p)
    ensures OrderlyPhase(Carried(After(p.at, p.todo.cmd), p.job, p.todo.rest))
  {
    assert Final(p.at, p.todo) == Final(After(p.at, p.todo.cmd), p.todo.rest);
    if p.todo.rest.Done? {
      DoneEnds(After(p.at, p.todo.cmd));
    }
    hide After;
  }

  lemma StepIsOrderly(reg: map<string, Spec>, c: Sys, e: Event)
    requires Registry(reg) && InPhase(reg, c) && Orderly(c) && TidyEvent(e) && Next(reg, c, e).Some?
    ensures Orderly(Next(reg, c, e).value)
  {
    match e
    case Begin(id, job) =>
      assert reg[id].id == id;
      BeginIsOrderly(reg, c, id, job);
    case Go(id) => GoIsOrderly(reg, c, id);
    case Exits(_) =>
    case Provisions(_) =>
    case Crashes(names) =>
      hide Restarted, InPhase, Registry;
  }

  predicate AllTidy(es: seq<Event>) {
    forall k | 0 <= k < |es| :: TidyEvent(es[k])
  }

  lemma {:induction false} RunIsOrderly(reg: map<string, Spec>, c: Sys, es: seq<Event>)
    requires Registry(reg) && InPhase(reg, c) && Orderly(c) && AllTidy(es) && Run(reg, c, es).Some?
    ensures InPhase(reg, Run(reg, c, es).value) && Orderly(Run(reg, c, es).value)
    decreases |es|
  {
    if es != [] {
      assert TidyEvent(es[0]);
      assert AllTidy(es[1..]);
      hide Registry, InPhase, Orderly, Next, AllTidy, TidyEvent;
      StepKeepsPhases(reg, c, es[0]);
      StepIsOrderly(reg, c, es[0]);
      RunIsOrderly(reg, Next(reg, c, es[0]).value, es[1..]);
    }
  }

  lemma {:induction false} SafeNow(x: Pieces, todo: Script)
    requires StaysSafe(x, todo)
    ensures CrashSafe(x)
  {
  }

  /** Nothing is before its run-state write. */
  ghost predicate NoStartInFlight(c: Sys) {
    forall id | id in c.phases :: !StartInFlight(c.phases[id])
  }

  lemma AllSafe(c: Sys)
    requires Orderly(c) && NoStartInFlight(c)
    ensures forall id | id in c.phases :: CrashSafe(c.phases[id].at)
  {
    forall id | id in c.phases ensures CrashSafe(c.phases[id].at) {
      var p := c.phases[id];
      assert OrderlyPhase(p) && !StartInFlight(p);
      if p.Busy? {
        SafeNow(p.at, p.todo);
      }
    }
  }

  lemma SafeSurvives(reg: map<string, Spec>, c: Sys)
    requires Registry(reg) && InPhase(reg, c) && forall id | id in c.phases :: CrashSafe(c.phases[id].at)
    ensures SurvivesCrash(reg, c.st.host)
    ensures forall names: seq<string> | (forall f | f in c.st.host.files :: f in names) ::
              Next(reg, c, Crashes(names)).Some?
  {
    SafeIsRecoverable(reg, c);
    hide Recoverable, Registry, PhaseOk, SurvivesCrash, CrashSafe;
    RecoverableSurvivesCrash(reg, c.st.host);
  }

  /** (ii) Whatever stops and deletes are in flight: when no start is before its run-state write, a
      crash can happen, and the next manager finds every instance attached and alive, or gone, in
      whatever order it reads the files. */
  lemma CrashAmidTeardowns(reg: map<string, Spec>, c: Sys, es: seq<Event>)
    requires Registry(reg) && Fresh(reg, c) && AllTidy(es) && Run(reg, c, es).Some?
    requires NoStartInFlight(Run(reg, c, es).value)
    ensures var end := Run(reg, c, es).value;
            && SurvivesCrash(reg, end.st.host)
            && forall names: seq<string> | (forall f | f in end.st.host.files :: f in names) ::
                 Next(reg, end, Crashes(names)).Some?
  {
    FreshIsInPhase(reg, c);
    FreshIsOrderly(reg, c);
    hide Registry, Fresh, InPhase, Orderly, Next, Run, AllTidy, SurvivesCrash, NoStartInFlight;
    RunIsOrderly(reg, c, es);
    AllSafe(Run(reg, c, es).value);
    SafeSurvives(reg, Run(reg, c, es).value);
  }

  lemma FreshIsOrderly(reg: map<string, Spec>, c: Sys)
    requires Fresh(reg, c)
    ensures Orderly(c)
  {
  }

  /** In the map exactly if it has its run-state file, its tap and each of its rules, once; and
      attached or gone. */
  ghost predicate AttachedOrGone(s: St, spec: Spec) {
    && Settled(s, spec)
    && (spec.id in s.running <==> spec.id in s.host.files)
    && (spec.id in s.running <==> HasTap(s.host, spec))
    && (spec.id in s.running <==> s.host.rules[Outside(spec)] == 1)
    && (spec.id in s.running <==> s.host.rules[Local(spec)] == 1)
    && s.host.rules[Outside(spec)] <= 1 && s.host.rules[Local(spec)] <= 1
  }

  lemma RestIsSettled(s: St, spec: Spec, x: Pieces)
    requires Has(s, spec, x) && (Whole(x) || Bare(x))
    ensures AttachedOrGone(s, spec)
  {
  }

  /** (iii) Whatever is in flight on other instances, one with nothing in flight is attached or gone. */
  lemma IdleIsAttachedOrGone(reg: map<string, Spec>, c: Sys, es: seq<Event>)
    requires Registry(reg) && Fresh(reg, c) && AllTidy(es) && Run(reg, c, es).Some?
    ensures var end := Run(reg, c, es).value;
            && end.phases.Keys == reg.Keys
            && forall id | id in reg && end.phases[id].Idle? :: AttachedOrGone(end.st, reg[id])
  {
    FreshIsInPhase(reg, c);
    FreshIsOrderly(reg, c);
    hide Fresh, Next, Run, AllTidy, AttachedOrGone, Registry, Has;
    RunIsOrderly(reg, c, es);
    var end := Run(reg, c, es).value;
    forall id | id in reg && end.phases[id].Idle? ensures AttachedOrGone(end.st, reg[id]) {
      assert PhaseOk(end.st, reg[id], end.phases[id]) && OrderlyPhase(end.phases[id]);
      RestIsSettled(end.st, reg[id], end.phases[id].at);
    }
  }
}
