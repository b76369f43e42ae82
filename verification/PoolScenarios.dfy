/** Runs of the pool that show what the interleavings allow, and the sweep on its own. */
module PoolScenarios {
  import opened Options
  import opened Folds
  import opened PoolTypes
  import opened PoolMachine
  import opened PoolAccounting
  import opened PoolInvariant
  import opened PoolHistory
  import opened PoolSafety

  lemma {:induction false} RunSplit(cfg: Config, s: State, a: seq<Label>, b: seq<Label>)
    requires Run(cfg, s, a).Some?
    ensures Run(cfg, s, a + b) == Run(cfg, Run(cfg, s, a).value, b)
    decreases |a|
  {
    hide Next;
    if a == [] {
      assert a + b == b;
    } else {
      assert (a + b)[1..] == a[1..] + b;
      RunSplit(cfg, Next(cfg, s, a[0]).value, a[1..], b);
    }
  }

  lemma ReachNext(cfg: Config, s: State, l: Label, n: State)
    requires Reachable(cfg, s) && Next(cfg, s, l).Some? && Next(cfg, s, l).value == n
    ensures Reachable(cfg, n)
  {
    hide Next;
    var ls: seq<Label> :| Run(cfg, Init(), ls) == Some(s);
    RunSplit(cfg, Init(), ls, [l]);
    assert Run(cfg, s, [l]) == Run(cfg, n, [l][1..]);
    assert Run(cfg, Init(), ls + [l]) == Some(n);
  }

  lemma InitReachable(cfg: Config)
    ensures Reachable(cfg, Init())
  {
    assert Run(cfg, Init(), []) == Some(Init());
  }

  // A cap of one: goroutine 1 boots a machine, serves with it, and is about to return it.

  function Fresh(cfg: Config): VM {
    NO_VM.(functionName := cfg.functionName)
  }

  function ServedVm(cfg: Config): VM {
    VM(cfg.functionName, Cold, 7, false, 9, [Record(Cold, 7, false)])
  }

  function Booting1(cfg: Config, pc: PC): State {
    Init().(pool := PoolView([], [], 1), threads := [SweepIdle, pc])
  }

  function Up(cfg: Config, pc: PC, vm: VM): State {
    Booting1(cfg, pc).(vms := [vm], procs := {0})
  }

  lemma ServeOne(cfg: Config)
    requires cfg.maxVMs == 1
    ensures Reachable(cfg, Up(cfg, Returning(0), ServedVm(cfg)))
  {
    hide Reachable;
    InitReachable(cfg);
    var s1 := Init().(threads := [SweepIdle, Arrived]);
    ReachNext(cfg, Init(), Arrive, s1);
    var s2 := s1.(threads := [SweepIdle, MissedWarm]);
    ReachNext(cfg, s1, Step(1, Go), s2);
    ReachNext(cfg, s2, Step(1, Go), Booting1(cfg, BootCheck(ForRequest)));
    ServeTheBoot(cfg);
  }

  lemma ServeTheBoot(cfg: Config)
    requires cfg.maxVMs == 1 && Reachable(cfg, Booting1(cfg, BootCheck(ForRequest)))
    ensures Reachable(cfg, Up(cfg, Returning(0), ServedVm(cfg)))
  {
    hide Reachable;
    var s1 := Booting1(cfg, ColdSpawn(ForRequest));
    ReachNext(cfg, Booting1(cfg, BootCheck(ForRequest)), Step(1, BootCold), s1);
    var s2 := Up(cfg, ColdWait(ForRequest, 0), Fresh(cfg));
    ReachNext(cfg, s1, Step(1, Go), s2);
    AnswerOne(cfg);
  }

  lemma AnswerOne(cfg: Config)
    requires Reachable(cfg, Up(cfg, ColdWait(ForRequest, 0), Fresh(cfg)))
    ensures Reachable(cfg, Up(cfg, Returning(0), ServedVm(cfg)))
  {
    hide Reachable;
    var s1 := Up(cfg, Serving(0, Cold, 7), Fresh(cfg).(bootMs := 7));
    ReachNext(cfg, Up(cfg, ColdWait(ForRequest, 0), Fresh(cfg)), Step(1, Ready(7)), s1);
    assert [] + [Record(Cold, 7, false)] == [Record(Cold, 7, false)];
    ReachNext(cfg, s1, Step(1, Replied(9)), Up(cfg, Returning(0), ServedVm(cfg)));
  }

  // A request that queues between returnVM's lock section and its push.

  /** One machine idle in the warm channel, one live request asleep in the queue, nobody
      on the way to wake it. */
  function Asleep(cfg: Config): State {
    State(PoolView([0], [0], 1), [SweepIdle, Finished, Waiting(0)], [Chan(Empty, 0, false)], [ServedVm(cfg)], {}, {0},
          {}, false)
  }

  /** A wake-up can be lost: a live request sleeps beside an idle warm machine, although
      the pool has no other work, and no goroutine but the sweeper can take a step. */
  lemma WakeUpCanBeLost(cfg: Config)
    requires cfg.maxVMs == 1 && cfg.warmPoolSize == 1
    ensures Reachable(cfg, Asleep(cfg))
    ensures 0 !in Asleep(cfg).gone && Asleep(cfg).pool.warm != []
    ensures forall t, c | 0 < t < |Asleep(cfg).threads| ::
              EffectOf(cfg, Asleep(cfg), Asleep(cfg).threads[t], c).None?
  {
    hide Reachable;
    ServeOne(cfg);
    var s0 := Up(cfg, Returning(0), ServedVm(cfg));
    var s1 := s0.(threads := [SweepIdle, Pushing(0)]);
    ReachNext(cfg, s0, Step(1, Go), s1);
    var s2 := s1.(threads := [SweepIdle, Pushing(0), Arrived]);
    ReachNext(cfg, s1, Arrive, s2);
    var s3 := s1.(threads := [SweepIdle, Pushing(0), MissedWarm]);
    ReachNext(cfg, s2, Step(2, Go), s3);
    QueueThenPush(cfg, s3);
  }

  lemma QueueThenPush(cfg: Config, s: State)
    requires cfg.maxVMs == 1 && cfg.warmPoolSize == 1 && Reachable(cfg, s)
    requires s == Up(cfg, Returning(0), ServedVm(cfg)).(threads := [SweepIdle, Pushing(0), MissedWarm])
    ensures Reachable(cfg, Asleep(cfg))
  {
    hide Reachable;
    var s1 := s.(pool := PoolView([], [0], 1), threads := [SweepIdle, Pushing(0), Waiting(0)], chans := [NO_CHAN]);
    ReachNext(cfg, s, Step(2, Go), s1);
    ReachNext(cfg, s1, Step(1, Go), Asleep(cfg));
  }

  // A delivery that meets a cancellation.

  function Lost(cfg: Config): State {
    State(PoolView([], [], 1), [SweepIdle, Finished, Finished], [Chan(Full(0), 1, true)], [ServedVm(cfg)], {0}, {0},
          {}, false)
  }

  /** A machine can be lost: its receiver takes the cancellation after the delivery, and
      with a cap of one the pool can then never serve again. */
  lemma MachineCanBeLost(cfg: Config)
    requires cfg.maxVMs == 1
    ensures Reachable(cfg, Lost(cfg)) && Sum(Lost(cfg).chans, Orphaned) == cfg.maxVMs
  {
    ServeOne(cfg);
    hide Reachable;
    var s0 := Up(cfg, Returning(0), ServedVm(cfg));
    var s1 := s0.(threads := [SweepIdle, Returning(0), Arrived]);
    ReachNext(cfg, s0, Arrive, s1);
    var s2 := s0.(threads := [SweepIdle, Returning(0), MissedWarm]);
    ReachNext(cfg, s1, Step(2, Go), s2);
    var s3 := s0.(pool := PoolView([], [0], 1), threads := [SweepIdle, Returning(0), Waiting(0)], chans := [NO_CHAN]);
    ReachNext(cfg, s2, Step(2, Go), s3);
    DeliverThenCancel(cfg, s3);
    SumPush([], Chan(Full(0), 1, true), Orphaned);
    assert [] + [Chan(Full(0), 1, true)] == Lost(cfg).chans;
  }

  lemma DeliverThenCancel(cfg: Config, s: State)
    requires cfg.maxVMs == 1 && Reachable(cfg, s)
    requires s == Up(cfg, Returning(0), ServedVm(cfg)).(pool := PoolView([], [0], 1), chans := [NO_CHAN],
                    threads := [SweepIdle, Returning(0), Waiting(0)])
    ensures Reachable(cfg, Lost(cfg))
  {
    hide Reachable;
    var s1 := s.(pool := PoolView([], [], 1), threads := [SweepIdle, Handing(0, 0), Waiting(0)]);
    ReachNext(cfg, s, Step(1, Go), s1);
    var s2 := s1.(threads := [SweepIdle, Finished, Waiting(0)], chans := [Chan(Full(0), 1, false)]);
    ReachNext(cfg, s1, Step(1, Go), s2);
    var s3 := s2.(gone := {0});
    ReachNext(cfg, s2, Disconnect(0), s3);
    ReachNext(cfg, s3, Step(2, GiveUp), Lost(cfg));
  }

  // The sweep of one pool, with no other goroutine in between.

  function AsSet(q: seq<VmId>): set<VmId> {
    set v | v in q
  }

  /** n steps of goroutine t alone. */
  function Alone(t: nat, n: nat): seq<Label> {
    if n == 0 then [] else [Step(t, Go)] + Alone(t, n - 1)
  }

  lemma {:induction false} AloneSplit(t: nat, a: nat, b: nat)
    ensures Alone(t, a + b) == Alone(t, a) + Alone(t, b)
  {
    if a > 0 {
      AloneSplit(t, a - 1, b);
    }
  }

  /** Two stretches of goroutine t running alone, one after the other. */
  lemma AloneThen(cfg: Config, t: nat, s: State, a: nat, s1: State, b: nat, s2: State)
    requires Run(cfg, s, Alone(t, a)) == Some(s1) && Run(cfg, s1, Alone(t, b)) == Some(s2)
    ensures Run(cfg, s, Alone(t, a + b)) == Some(s2)
  {
    AloneSplit(t, a, b);
    RunSplit(cfg, s, Alone(t, a), Alone(t, b));
  }

  lemma AloneOnce(cfg: Config, t: nat, s: State, n: State)
    requires Next(cfg, s, Step(t, Go)).Some? && Next(cfg, s, Step(t, Go)).value == n
    ensures Run(cfg, s, Alone(t, 1)) == Some(n)
  {
    assert Alone(t, 1) == [Step(t, Go)] && [Step(t, Go)][1..] == [];
    assert Run(cfg, n, []) == Some(n);
  }

  lemma Relabel(s: State, t: nat, a: PC, b: PC)
    requires t < |s.threads|
    ensures s.threads[t := a][t := b] + [] == s.threads[t := b]
    ensures s.threads[t := b] + [] == s.threads[t := b]
    ensures s.threads[t] == a ==> s.threads[t := a] == s.threads
  {
  }

  /** Receiving a machine that is not stale. */
  lemma KeepsOne(cfg: Config, s: State, t: nat, now: int, live: seq<VmId>)
    requires t < |s.threads| && s.threads[t] == SweepScan(now, live) && s.pool.warm != []
    requires !IdleTooLong(now, VmAt(s, s.pool.warm[0]).lastUsed)
    ensures Run(cfg, s, Alone(t, 1)) == Some(
              s.(pool := s.pool.(warm := s.pool.warm[1..]),
                 threads := s.threads[t := SweepScan(now, live + [s.pool.warm[0]])]))
  {
    var next := SweepScan(now, live + [s.pool.warm[0]]);
    Relabel(s, t, s.threads[t], next);
    AloneOnce(cfg, t, s, s.(pool := s.pool.(warm := s.pool.warm[1..]), threads := s.threads[t := next]));
  }

  /** Receiving a stale machine. */
  lemma ReceivesStale(cfg: Config, s: State, t: nat, now: int, live: seq<VmId>)
    requires t < |s.threads| && s.threads[t] == SweepScan(now, live) && s.pool.warm != []
    requires IdleTooLong(now, VmAt(s, s.pool.warm[0]).lastUsed)
    ensures Run(cfg, s, Alone(t, 1)) == Some(
              s.(pool := s.pool.(warm := s.pool.warm[1..]),
                 threads := s.threads[t := SweepKill(now, live, s.pool.warm[0])]))
  {
    var next := SweepKill(now, live, s.pool.warm[0]);
    Relabel(s, t, s.threads[t], next);
    AloneOnce(cfg, t, s, s.(pool := s.pool.(warm := s.pool.warm[1..]), threads := s.threads[t := next]));
  }

  /** Killing it, and giving its slot back. */
  lemma KillsStale(cfg: Config, s: State, t: nat, now: int, live: seq<VmId>, v: VmId)
    requires t < |s.threads| && s.threads[t] == SweepKill(now, live, v)
    ensures Run(cfg, s, Alone(t, 2)) == Some(
              s.(pool := s.pool.(booted := s.pool.booted - 1), threads := s.threads[t := SweepScan(now, live)],
                 procs := s.procs - {v}, killed := s.killed + {v}))
  {
    hide Run, Alone;
    var s1 := s.(threads := s.threads[t := SweepDec(now, live)], procs := s.procs - {v}, killed := s.killed + {v});
    Relabel(s, t, s.threads[t], SweepDec(now, live));
    AloneOnce(cfg, t, s, s1);
    var s2 := s1.(pool := s.pool.(booted := s.pool.booted - 1), threads := s.threads[t := SweepScan(now, live)]);
    Relabel(s, t, SweepDec(now, live), SweepScan(now, live));
    AloneOnce(cfg, t, s1, s2);
    hide *;
    AloneThen(cfg, t, s, 1, s1, 1, s2);
  }

  /** Receiving a stale machine, killing it and giving its slot back. */
  lemma ReapsOne(cfg: Config, s: State, t: nat, now: int, live: seq<VmId>)
    requires t < |s.threads| && s.threads[t] == SweepScan(now, live) && s.pool.warm != []
    requires IdleTooLong(now, VmAt(s, s.pool.warm[0]).lastUsed)
    ensures var v := s.pool.warm[0];
            Run(cfg, s, Alone(t, 3)) == Some(
              s.(pool := s.pool.(warm := s.pool.warm[1..], booted := s.pool.booted - 1),
                 procs := s.procs - {v}, killed := s.killed + {v}))
  {
    hide Run, Alone;
    var v, p1 := s.pool.warm[0], s.pool.(warm := s.pool.warm[1..]);
    var s1 := s.(pool := p1, threads := s.threads[t := SweepKill(now, live, v)]);
    ReceivesStale(cfg, s, t, now, live);
    var s2 := s.(pool := p1.(booted := s.pool.booted - 1), procs := s.procs - {v}, killed := s.killed + {v});
    KillsStale(cfg, s1, t, now, live, v);
    assert s1.threads[t := SweepScan(now, live)] == s.threads;
    hide *;
    AloneThen(cfg, t, s, 1, s1, 2, s2);
  }

  /** The state when a scan that had collected live has emptied the warm channel. */
  function Scanned(s: State, t: nat, now: int, live: seq<VmId>): State
    requires t < |s.threads|
  {
    var stale := Stale(s.vms, now, s.pool.warm);
    s.(pool := s.pool.(warm := [], booted := s.pool.booted - |stale|),
       threads := s.threads[t := SweepScan(now, live + Recent(s.vms, now, s.pool.warm))],
       procs := s.procs - AsSet(stale), killed := s.killed + AsSet(stale))
  }

  lemma ScannedAfterKeep(s: State, t: nat, now: int, live: seq<VmId>)
    requires t < |s.threads| && s.pool.warm != []
    requires !IdleTooLong(now, VmAt(s, s.pool.warm[0]).lastUsed)
    ensures var v := s.pool.warm[0];
            var s1 := s.(pool := s.pool.(warm := s.pool.warm[1..]),
                         threads := s.threads[t := SweepScan(now, live + [v])]);
            Scanned(s1, t, now, live + [v]) == Scanned(s, t, now, live)
  {
    var v, rest := s.pool.warm[0], s.pool.warm[1..];
    assert Stale(s.vms, now, s.pool.warm) == Stale(s.vms, now, rest);
    assert live + Recent(s.vms, now, s.pool.warm) == (live + [v]) + Recent(s.vms, now, rest);
  }

  lemma ScannedAfterReap(s: State, t: nat, now: int, live: seq<VmId>)
    requires t < |s.threads| && s.pool.warm != []
    requires IdleTooLong(now, VmAt(s, s.pool.warm[0]).lastUsed)
    ensures var v := s.pool.warm[0];
            var s1 := s.(pool := s.pool.(warm := s.pool.warm[1..], booted := s.pool.booted - 1),
                         procs := s.procs - {v}, killed := s.killed + {v});
            Scanned(s1, t, now, live) == Scanned(s, t, now, live)
  {
    var v, rest := s.pool.warm[0], s.pool.warm[1..];
    var stale := Stale(s.vms, now, rest);
    assert Stale(s.vms, now, s.pool.warm) == [v] + stale;
    assert AsSet([v] + stale) == {v} + AsSet(stale);
    assert Recent(s.vms, now, s.pool.warm) == Recent(s.vms, now, rest);
  }

  lemma {:induction false} ScanAll(cfg: Config, s: State, t: nat, now: int, live: seq<VmId>) returns (n: nat)
    requires t < |s.threads| && s.threads[t] == SweepScan(now, live)
    ensures Run(cfg, s, Alone(t, n)) == Some(Scanned(s, t, now, live))
    decreases |s.pool.warm|
  {
    hide Next, Run, Alone;
    if s.pool.warm == [] {
      n := 0;
      ScanNothing(cfg, s, t, now, live);
    } else {
      var v := s.pool.warm[0];
      if IdleTooLong(now, VmAt(s, v).lastUsed) {
        var s1 := s.(pool := s.pool.(warm := s.pool.warm[1..], booted := s.pool.booted - 1),
                     procs := s.procs - {v}, killed := s.killed + {v});
        ReapsOne(cfg, s, t, now, live);
        n := ScanAll(cfg, s1, t, now, live);
        ScannedAfterReap(s, t, now, live);
        AloneThen(cfg, t, s, 3, s1, n, Scanned(s, t, now, live));
        n := 3 + n;
      } else {
        var s1 := s.(pool := s.pool.(warm := s.pool.warm[1..]), threads := s.threads[t := SweepScan(now, live + [v])]);
        KeepsOne(cfg, s, t, now, live);
        n := ScanAll(cfg, s1, t, now, live + [v]);
        ScannedAfterKeep(s, t, now, live);
        AloneThen(cfg, t, s, 1, s1, n, Scanned(s, t, now, live));
        n := 1 + n;
      }
    }
  }

  lemma ScanNothing(cfg: Config, s: State, t: nat, now: int, live: seq<VmId>)
    requires t < |s.threads| && s.threads[t] == SweepScan(now, live) && s.pool.warm == []
    ensures Run(cfg, s, Alone(t, 0)) == Some(Scanned(s, t, now, live))
  {
    assert live + [] == live;
    Relabel(s, t, SweepScan(now, live), SweepScan(now, live));
    assert s.procs - AsSet([]) == s.procs && s.killed + AsSet([]) == s.killed;
  }

  /** The put-back loop, while there is room for everything it holds. */
  lemma {:induction false} PutAll(cfg: Config, s: State, t: nat, live: seq<VmId>)
    requires t < |s.threads| && s.threads[t] == SweepPut(live) && |s.pool.warm| + |live| <= cfg.warmPoolSize
    ensures Run(cfg, s, Alone(t, |live| + 1)) == Some(
              s.(pool := s.pool.(warm := s.pool.warm + live), threads := s.threads[t := SweepIdle]))
    decreases |live|
  {
    if live == [] {
      assert s.pool.warm + live == s.pool.warm;
      Relabel(s, t, SweepPut(live), SweepIdle);
      AloneOnce(cfg, t, s, s.(threads := s.threads[t := SweepIdle]));
    } else {
      var s1 := s.(pool := s.pool.(warm := s.pool.warm + [live[0]]), threads := s.threads[t := SweepPut(live[1..])]);
      Relabel(s, t, SweepPut(live), SweepPut(live[1..]));
      Relabel(s, t, SweepPut(live[1..]), SweepIdle);
      AloneOnce(cfg, t, s, s1);
      PutAll(cfg, s1, t, live[1..]);
      var end := s.(pool := s.pool.(warm := s.pool.warm + live), threads := s.threads[t := SweepIdle]);
      assert s1.pool.warm + live[1..] == end.pool.warm && s1.threads[t := SweepIdle] == end.threads;
      hide *;
      AloneThen(cfg, t, s, 1, s1, |live[1..]| + 1, end);
    }
  }

  /** What a sweep does to the pool: a filter. */
  function Swept(s: State, now: int): State {
    var stale := Stale(s.vms, now, s.pool.warm);
    s.(pool := s.pool.(warm := Recent(s.vms, now, s.pool.warm), booted := s.pool.booted - |stale|),
       procs := s.procs - AsSet(stale), killed := s.killed + AsSet(stale))
  }

  /** An uninterrupted sweep is a filter: the warm machines that have not been idle too
      long stay, in order; exactly the others are killed; the counter falls by their
      number; and nothing else changes. */
  lemma UninterruptedSweep(cfg: Config, s: State, t: nat, now: int) returns (n: nat)
    requires Inv(cfg, s) && t < |s.threads| && s.threads[t].SweepIdle?
    ensures Run(cfg, s, [Step(t, Tick(now))] + Alone(t, n)) == Some(Swept(s, now))
  {
    hide Next, Inv, Reachable, Run, Alone;
    var s1 := s.(threads := s.threads[t := SweepScan(now, [])]);
    var s2 := Scanned(s1, t, now, []);
    var live := Recent(s.vms, now, s.pool.warm);
    n := ScanAll(cfg, s1, t, now, []);
    RecentFits(cfg, s, now);
    assert [] + live == live;
    Relabel(s, t, SweepIdle, SweepScan(now, []));
    FinishSweep(cfg, s, s2, t, now);
    AloneThen(cfg, t, s1, n, s2, |live| + 2, Swept(s, now));
    n := n + (|live| + 2);
    StartSweep(cfg, s, t, now, n);
  }

  /** What a sweep kills, on the clock: the warm machines that stay were used within the last two
      minutes, those that go were not; both keep their order; the killed lose their processes and
      their slots; nothing else changes. */
  lemma SweepKillsTheIdle(cfg: Config, s: State, t: nat, now: int) returns (n: nat, dead: seq<VmId>)
    requires Inv(cfg, s) && t < |s.threads| && s.threads[t].SweepIdle?
    ensures Run(cfg, s, [Step(t, Tick(now))] + Alone(t, n)).Some?
    ensures var s' := Run(cfg, s, [Step(t, Tick(now))] + Alone(t, n)).value;
            && (forall v | v in s'.pool.warm :: now - Look(s.vms, v).lastUsed <= 120_000)
            && (forall v | v in dead :: now - Look(s.vms, v).lastUsed > 120_000)
            && Merges(s'.pool.warm, dead, s.pool.warm)
            && s'.pool == PoolView(s'.pool.warm, s.pool.waiting, s.pool.booted - |dead|)
            && s'.killed == s.killed + (set v | v in dead) && s'.procs == s.procs - (set v | v in dead)
            && s'.threads == s.threads && s'.chans == s.chans && s'.vms == s.vms
  {
    n := UninterruptedSweep(cfg, s, t, now);
    dead := Stale(s.vms, now, s.pool.warm);
    SplitByAge(s.vms, now, s.pool.warm);
  }

  lemma RecentFits(cfg: Config, s: State, now: int)
    requires Inv(cfg, s)
    ensures |Recent(s.vms, now, s.pool.warm)| <= cfg.warmPoolSize
  {
    RecentIsShorter(s.vms, now, s.pool.warm);
  }

  lemma StartSweep(cfg: Config, s: State, t: nat, now: int, n: nat)
    requires t < |s.threads| && s.threads[t].SweepIdle?
    ensures Run(cfg, s, [Step(t, Tick(now))] + Alone(t, n))
         == Run(cfg, s.(threads := s.threads[t := SweepScan(now, [])]), Alone(t, n))
  {
    var s1 := s.(threads := s.threads[t := SweepScan(now, [])]);
    Relabel(s, t, SweepIdle, SweepScan(now, []));
    assert Next(cfg, s, Step(t, Tick(now))).Some? && Next(cfg, s, Step(t, Tick(now))).value == s1;
    var ls := [Step(t, Tick(now))] + Alone(t, n);
    assert ls[1..] == Alone(t, n);
  }

  lemma FinishSweep(cfg: Config, s: State, s2: State, t: nat, now: int)
    requires t < |s.threads| && s.threads[t].SweepIdle?
    requires |Recent(s.vms, now, s.pool.warm)| <= cfg.warmPoolSize
    requires s2 == Swept(s, now).(pool := Swept(s, now).pool.(warm := []),
                     threads := s.threads[t := SweepScan(now, Recent(s.vms, now, s.pool.warm))])
    ensures Run(cfg, s2, Alone(t, |Recent(s.vms, now, s.pool.warm)| + 2)) == Some(Swept(s, now))
  {
    var live := Recent(s.vms, now, s.pool.warm);
    var s3 := s2.(threads := s.threads[t := SweepPut(live)]);
    Relabel(s, t, SweepScan(now, live), SweepPut(live));
    AloneOnce(cfg, t, s2, s3);
    PutAll(cfg, s3, t, live);
    assert [] + live == live;
    Relabel(s, t, SweepPut(live), SweepIdle);
    Relabel(s, t, SweepIdle, SweepIdle);
    assert s3.pool.warm + live == Swept(s, now).pool.warm && s3.threads[t := SweepIdle] == Swept(s, now).threads;
    hide *;
    AloneThen(cfg, t, s2, 1, s3, |live| + 1, Swept(s, now));
  }
}
