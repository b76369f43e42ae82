/** What single operations of the pool come to: how a boot goes for everything the outside can
    decide, what an invocation leaves, and in which order machines leave the warm channel. */
module PoolOutcomes {
  import opened Options
  import opened PoolTypes
  import opened PoolMachine
  import opened PoolScenarios

  /** Goroutine t's next steps, alone, with these decisions. */
  function Steps(t: nat, cs: seq<Choice>): seq<Label> {
    if cs == [] then [] else [Step(t, cs[0])] + Steps(t, cs[1..])
  }

  lemma StepsOn(cfg: Config, s: State, t: nat, c: Choice, cs: seq<Choice>)
    requires Next(cfg, s, Step(t, c)).Some?
    ensures Run(cfg, s, Steps(t, [c] + cs)) == Run(cfg, Next(cfg, s, Step(t, c)).value, Steps(t, cs))
  {
    hide Next;
    assert ([c] + cs)[1..] == cs;
    assert ([Step(t, c)] + Steps(t, cs))[1..] == Steps(t, cs);
  }

  lemma NoSteps(cfg: Config, s: State, t: nat)
    ensures Run(cfg, s, Steps(t, [])) == Some(s)
  {
  }

  /** What t has in hand when its machine is up: it serves with it, or hands it to the waiter. */
  function InHand(k: Cont, v: VmId, kind: StartType, ms: int): PC {
    match k
    case ForRequest => Serving(v, kind, ms)
    case ForWaiter(w) => Handing(v, w)
  }

  /** What t has to do when there is no machine: a waiter's channel is closed first. */
  function WithNothing(k: Cont): PC {
    match k
    case ForRequest => BootUndo
    case ForWaiter(w) => CloseFailed(w)
  }

  /** Machine v is the pool's newest, up as kind after ms, and has served nobody. */
  ghost predicate UpAs(cfg: Config, s: State, t: nat, k: Cont, v: VmId, kind: StartType, ms: int) {
    && t < |s.threads| && s.threads[t] == InHand(k, v, kind, ms)
    && |s.vms| == v + 1 && v in s.procs && v !in s.killed
    && s.vms[v].functionName == cfg.functionName && s.vms[v].history == []
    && s.vms[v].bootKind == kind && s.vms[v].bootMs == ms && (s.vms[v].isFresh <==> k.ForWaiter?)
  }

  /** A machine numbered v has been spawned by t, and t is at pc. */
  function SpawnedState(cfg: Config, s: State, t: nat, pc: PC): State
    requires t < |s.threads|
  {
    s.(threads := s.threads[t := pc], vms := s.vms + [VM(cfg.functionName, Cold, 0, false, 0, [])],
       procs := s.procs + {|s.vms|})
  }

  lemma NoFork(s: State, t: nat, pc: PC)
    requires t < |s.threads|
    ensures s.threads[t := pc] + [] == s.threads[t := pc]
  {
  }

  // Boots, step by step.

  /** The state when a boot that has checked its files goes on at pc. */
  function AtPC(s: State, t: nat, pc: PC): State
    requires t < |s.threads|
  {
    s.(threads := s.threads[t := pc])
  }

  /** The machine has been killed. */
  function KilledState(s: State, t: nat, v: VmId, pc: PC): State
    requires t < |s.threads|
  {
    s.(threads := s.threads[t := pc], procs := s.procs - {v}, killed := s.killed + {v})
  }

  ghost predicate Goes(cfg: Config, s: State, t: nat, c: Choice, n: State) {
    Next(cfg, s, Step(t, c)) == Some(n)
  }

  lemma Checks(cfg: Config, s: State, t: nat, k: Cont, c: Choice)
    requires t < |s.threads| && s.threads[t] == BootCheck(k)
    requires c.BootCold? || c.ImageMissing? || (c.TrySnapshot? && cfg.maxVMs == 1)
    ensures Goes(cfg, s, t, c, AtPC(s, t, if c.BootCold? then ColdSpawn(k)
                                          else if c.TrySnapshot? then RestoreSpawn(k) else WithNothing(k)))
  {
    var pc := if c.BootCold? then ColdSpawn(k) else if c.TrySnapshot? then RestoreSpawn(k) else WithNothing(k);
    NoFork(s, t, pc);
  }

  lemma Spawns(cfg: Config, s: State, t: nat, k: Cont)
    requires t < |s.threads|
    ensures s.threads[t] == RestoreSpawn(k) ==>
              Goes(cfg, s, t, Go, SpawnedState(cfg, s, t, RestoreWait(k, |s.vms|)))
    ensures s.threads[t] == ColdSpawn(k) ==> Goes(cfg, s, t, Go, SpawnedState(cfg, s, t, ColdWait(k, |s.vms|)))
  {
    NoFork(s, t, RestoreWait(k, |s.vms|));
    NoFork(s, t, ColdWait(k, |s.vms|));
  }

  lemma RestoreFails(cfg: Config, s: State, t: nat, k: Cont)
    requires t < |s.threads|
    ensures s.threads[t] == RestoreSpawn(k) ==> Goes(cfg, s, t, Fails, AtPC(s, t, ColdSpawn(k)))
    ensures forall v: VmId | s.threads[t] == RestoreWait(k, v) ::
              Goes(cfg, s, t, Fails, KilledState(s, t, v, ColdSpawn(k)))
  {
    NoFork(s, t, ColdSpawn(k));
  }

  /** The spawned machine is ready. */
  lemma Readies(cfg: Config, s0: State, t: nat, k: Cont, kind: StartType, ms: int)
    requires t < |s0.threads| && !kind.Warm? && forall v | v in s0.killed :: v < |s0.vms|
    ensures var v := |s0.vms|;
            var s := SpawnedState(cfg, s0, t, if kind.Restored? then RestoreWait(k, v) else ColdWait(k, v));
            && Next(cfg, s, Step(t, Ready(ms))).Some?
            && var n := Next(cfg, s, Step(t, Ready(ms))).value;
               && UpAs(cfg, n, t, k, v, kind, ms)
               && n.pool == s0.pool && n.killed == s0.killed && n.procs == s0.procs + {v}
  {
    if kind.Restored? {
      if k.ForRequest? { }
    } else {
      if k.ForRequest? { }
    }
  }

  // Boots as a whole.

  /** From the spawn on, one that goes well. */
  lemma SpawnedBoot(cfg: Config, s: State, t: nat, k: Cont, kind: StartType, ms: int)
    requires t < |s.threads| && forall v | v in s.killed :: v < |s.vms|
    requires (kind.Restored? && s.threads[t] == RestoreSpawn(k)) || (kind.Cold? && s.threads[t] == ColdSpawn(k))
    ensures Run(cfg, s, Steps(t, [Go, Ready(ms)])).Some?
    ensures var n := Run(cfg, s, Steps(t, [Go, Ready(ms)])).value;
            && UpAs(cfg, n, t, k, |s.vms|, kind, ms)
            && n.pool == s.pool && n.killed == s.killed && n.procs == s.procs + {|s.vms|}
  {
    hide Next, Run, Steps, UpAs, SpawnedState;
    Spawns(cfg, s, t, k);
    var s1 := SpawnedState(cfg, s, t, if kind.Restored? then RestoreWait(k, |s.vms|) else ColdWait(k, |s.vms|));
    Readies(cfg, s, t, k, kind, ms);
    StepsOn(cfg, s, t, Go, [Ready(ms)]);
    assert [Go] + [Ready(ms)] == [Go, Ready(ms)];
    StepsOn(cfg, s1, t, Ready(ms), []);
    assert [Ready(ms)] + [] == [Ready(ms)];
    NoSteps(cfg, Next(cfg, s1, Step(t, Ready(ms))).value, t);
  }

  /** Without a usable snapshot, a boot that goes well is a cold one. */
  lemma ColdBoot(cfg: Config, s: State, t: nat, k: Cont, ms: int)
    requires t < |s.threads| && s.threads[t] == BootCheck(k) && forall v | v in s.killed :: v < |s.vms|
    ensures Run(cfg, s, Steps(t, [BootCold, Go, Ready(ms)])).Some?
    ensures var n := Run(cfg, s, Steps(t, [BootCold, Go, Ready(ms)])).value;
            UpAs(cfg, n, t, k, |s.vms|, Cold, ms) && n.pool == s.pool && n.killed == s.killed
  {
    hide Next, Run, Steps, UpAs;
    Checks(cfg, s, t, k, BootCold);
    StepsOn(cfg, s, t, BootCold, [Go, Ready(ms)]);
    assert [BootCold] + [Go, Ready(ms)] == [BootCold, Go, Ready(ms)];
    SpawnedBoot(cfg, AtPC(s, t, ColdSpawn(k)), t, k, Cold, ms);
  }

  /** With one, under a cap of one, it is a restore. */
  lemma RestoredBoot(cfg: Config, s: State, t: nat, k: Cont, ms: int)
    requires t < |s.threads| && s.threads[t] == BootCheck(k) && forall v | v in s.killed :: v < |s.vms|
    requires cfg.maxVMs == 1
    ensures Run(cfg, s, Steps(t, [TrySnapshot, Go, Ready(ms)])).Some?
    ensures var n := Run(cfg, s, Steps(t, [TrySnapshot, Go, Ready(ms)])).value;
            UpAs(cfg, n, t, k, |s.vms|, Restored, ms) && n.pool == s.pool && n.killed == s.killed
  {
    hide Next, Run, Steps, UpAs;
    Checks(cfg, s, t, k, TrySnapshot);
    StepsOn(cfg, s, t, TrySnapshot, [Go, Ready(ms)]);
    assert [TrySnapshot] + [Go, Ready(ms)] == [TrySnapshot, Go, Ready(ms)];
    SpawnedBoot(cfg, AtPC(s, t, RestoreSpawn(k)), t, k, Restored, ms);
  }

  /** A restore that fails before its process runs is followed by a cold boot. */
  lemma RestoreNotSpawned(cfg: Config, s: State, t: nat, k: Cont, ms: int)
    requires t < |s.threads| && s.threads[t] == BootCheck(k) && forall v | v in s.killed :: v < |s.vms|
    requires cfg.maxVMs == 1
    ensures Run(cfg, s, Steps(t, [TrySnapshot, Fails, Go, Ready(ms)])).Some?
    ensures var n := Run(cfg, s, Steps(t, [TrySnapshot, Fails, Go, Ready(ms)])).value;
            UpAs(cfg, n, t, k, |s.vms|, Cold, ms) && n.pool == s.pool && n.killed == s.killed
  {
    hide Next, Run, Steps, UpAs;
    Checks(cfg, s, t, k, TrySnapshot);
    StepsOn(cfg, s, t, TrySnapshot, [Fails, Go, Ready(ms)]);
    assert [TrySnapshot] + [Fails, Go, Ready(ms)] == [TrySnapshot, Fails, Go, Ready(ms)];
    var s0 := AtPC(s, t, RestoreSpawn(k));
    RestoreFails(cfg, s0, t, k);
    StepsOn(cfg, s0, t, Fails, [Go, Ready(ms)]);
    assert [Fails] + [Go, Ready(ms)] == [Fails, Go, Ready(ms)];
    SpawnedBoot(cfg, AtPC(s0, t, ColdSpawn(k)), t, k, Cold, ms);
  }

  /** A restore that fails later is killed and followed by a cold boot of another machine. */
  lemma FailedRestoreBoot(cfg: Config, s: State, t: nat, k: Cont, ms: int)
    requires t < |s.threads| && s.threads[t] == BootCheck(k) && forall v | v in s.killed :: v < |s.vms|
    requires cfg.maxVMs == 1
    ensures Run(cfg, s, Steps(t, [TrySnapshot, Go, Fails, Go, Ready(ms)])).Some?
    ensures var n := Run(cfg, s, Steps(t, [TrySnapshot, Go, Fails, Go, Ready(ms)])).value;
            && UpAs(cfg, n, t, k, |s.vms| + 1, Cold, ms) && n.pool == s.pool
            && n.killed == s.killed + {|s.vms|} && |s.vms| !in n.procs
  {
    hide Next, Run, Steps, UpAs;
    Checks(cfg, s, t, k, TrySnapshot);
    StepsOn(cfg, s, t, TrySnapshot, [Go, Fails, Go, Ready(ms)]);
    assert [TrySnapshot] + [Go, Fails, Go, Ready(ms)] == [TrySnapshot, Go, Fails, Go, Ready(ms)];
    var s0 := AtPC(s, t, RestoreSpawn(k));
    Spawns(cfg, s0, t, k);
    var s1 := SpawnedState(cfg, s0, t, RestoreWait(k, |s.vms|));
    StepsOn(cfg, s0, t, Go, [Fails, Go, Ready(ms)]);
    assert [Go] + [Fails, Go, Ready(ms)] == [Go, Fails, Go, Ready(ms)];
    RestoreFails(cfg, s1, t, k);
    var s2 := KilledState(s1, t, |s.vms|, ColdSpawn(k));
    StepsOn(cfg, s1, t, Fails, [Go, Ready(ms)]);
    assert [Fails] + [Go, Ready(ms)] == [Fails, Go, Ready(ms)];
    SpawnedBoot(cfg, s2, t, k, Cold, ms);
  }

  /** Without an image, or when the cold boot fails, there is no machine; one that was spawned is
      killed. A waiter's channel is the first thing to be closed then. */
  lemma FailedBoot(cfg: Config, s: State, t: nat, k: Cont)
    requires t < |s.threads|
    ensures s.threads[t] == BootCheck(k) ==>
              Next(cfg, s, Step(t, ImageMissing)) == Some(AtPC(s, t, WithNothing(k)))
    ensures s.threads[t] == ColdSpawn(k) ==> Next(cfg, s, Step(t, Fails)) == Some(AtPC(s, t, WithNothing(k)))
    ensures forall v: VmId | s.threads[t] == ColdWait(k, v) ::
              Next(cfg, s, Step(t, Fails)) == Some(KilledState(s, t, v, WithNothing(k)))
  {
    NoFork(s, t, WithNothing(k));
  }

  // Invocations.

  /** A healthy answer leaves one more record without an error, and the machine, used now, on its way
      back; a transport failure or an infra error leaves one with an error, and the machine dead. */
  lemma InvocationEnds(cfg: Config, s: State, t: nat, now: int)
    requires t < |s.threads| && s.threads[t].Serving? && s.threads[t].v < |s.vms|
    ensures Next(cfg, s, Step(t, Replied(now))).Some? && Next(cfg, s, Step(t, Broke)).Some?
    ensures var pc, s' := s.threads[t], Next(cfg, s, Step(t, Replied(now))).value;
            && s'.threads[t] == Returning(pc.v) && s'.procs == s.procs && s'.pool == s.pool
            && s'.vms[pc.v].history == s.vms[pc.v].history + [Record(pc.startType, pc.bootMs, false)]
            && s'.vms[pc.v].lastUsed == now
    ensures var pc, s' := s.threads[t], Next(cfg, s, Step(t, Broke)).value;
            && s'.threads[t] == Discarding(pc.v) && s'.pool == s.pool
            && s'.vms[pc.v].history == s.vms[pc.v].history + [Record(pc.startType, pc.bootMs, true)]
            && Next(cfg, s', Step(t, Go)).Some?
            && Next(cfg, s', Step(t, Go)).value.procs == s.procs - {pc.v}
            && Next(cfg, s', Step(t, Go)).value.threads[t] == DiscardKilled
  {
  }

  /** So the first record of a machine that has come up says how. */
  lemma FirstRecord(cfg: Config, s: State, t: nat, v: VmId, kind: StartType, ms: int, now: int)
    requires UpAs(cfg, s, t, ForRequest, v, kind, ms)
    ensures Next(cfg, s, Step(t, Replied(now))).Some? && Next(cfg, s, Step(t, Broke)).Some?
    ensures Next(cfg, s, Step(t, Replied(now))).value.vms[v].history == [Record(kind, ms, false)]
    ensures Next(cfg, s, Step(t, Broke)).value.vms[v].history == [Record(kind, ms, true)]
  {
    InvocationEnds(cfg, s, t, now);
    assert [] + [Record(kind, ms, false)] == [Record(kind, ms, false)];
    assert [] + [Record(kind, ms, true)] == [Record(kind, ms, true)];
  }

  /** A machine booted for a waiter reaches it fresh: its first invocation is recorded as its boot. A
      machine that is handed on after an invocation is recorded as warm. */
  lemma DeliveredServes(cfg: Config, s: State, t: nat, u: nat, v: VmId, w: WaiterId)
    requires t < |s.threads| && u < |s.threads| && t != u && v < |s.vms|
    requires s.threads[t] == Handing(v, w) && s.threads[u] == Waiting(w)
    requires w < |s.chans| && s.chans[w].buffer.Empty?
    ensures Next(cfg, s, Step(t, Go)).Some?
    ensures var s1 := Next(cfg, s, Step(t, Go)).value;
            && Next(cfg, s1, Step(u, Receive)).Some?
            && var s2 := Next(cfg, s1, Step(u, Receive)).value;
               && s2.threads[u] == (if s.vms[v].isFresh then Serving(v, s.vms[v].bootKind, s.vms[v].bootMs)
                                    else Serving(v, Warm, 0))
               && !s2.vms[v].isFresh && s2.threads[t] == Finished
  {
  }

  // The warm channel.

  /** Machines leave the warm channel in the order in which they entered it, whoever takes them. */
  lemma WarmIsAQueue(cfg: Config, s: State, l: Label)
    requires Next(cfg, s, l).Some?
    ensures var before, after := s.pool.warm, Next(cfg, s, l).value.pool.warm;
            || after == before
            || (before != [] && after == before[1..])
            || (|before| < cfg.warmPoolSize && |after| == |before| + 1 && after[..|before|] == before)
  {
    if l.Step? {
      WarmEffect(cfg, s, s.threads[l.t], l.c);
      hide EffectOf;
    }
  }

  lemma WarmEffect(cfg: Config, s: State, pc: PC, c: Choice)
    requires EffectOf(cfg, s, pc, c).Some?
    ensures var before, after := s.pool.warm, EffectOf(cfg, s, pc, c).value.pool.warm;
            || after == before
            || (before != [] && after == before[1..])
            || (|before| < cfg.warmPoolSize && |after| == |before| + 1 && after[..|before|] == before)
  {
  }

  /** A request reuses the oldest warm machine, with or without the lock. */
  lemma OldestIsReused(cfg: Config, s: State, t: nat)
    requires t < |s.threads| && (s.threads[t].Arrived? || s.threads[t].MissedWarm?) && s.pool.warm != []
    ensures Next(cfg, s, Step(t, Go)).Some?
    ensures var s' := Next(cfg, s, Step(t, Go)).value;
            s'.threads[t] == Serving(s.pool.warm[0], Warm, 0) && s'.pool.warm == s.pool.warm[1..]
  {
  }

  /** On any interleaving the sweeper sets out to kill a machine exactly if its last use is more than
      two minutes before the tick. */
  lemma SweeperJudgesByAge(cfg: Config, s: State, t: nat)
    requires t < |s.threads| && s.threads[t].SweepScan? && s.pool.warm != [] && s.pool.warm[0] < |s.vms|
    ensures Next(cfg, s, Step(t, Go)).Some?
    ensures var pc, v, s' := s.threads[t], s.pool.warm[0], Next(cfg, s, Step(t, Go)).value;
            s'.threads[t] == (if pc.now - s.vms[v].lastUsed > 120_000 then SweepKill(pc.now, pc.live, v)
                              else SweepScan(pc.now, pc.live + [v]))
  {
  }

  /** What the world does by itself: a process that dies is gone, a client that disconnects is too,
      and a request that arrives has a goroutine of its own; nothing else changes. */
  lemma WorldSteps(cfg: Config, s: State, v: VmId, w: WaiterId)
    ensures Next(cfg, s, Dies(v)).Some? && v !in Next(cfg, s, Dies(v)).value.procs
    ensures Next(cfg, s, Dies(v)).value == s.(procs := Next(cfg, s, Dies(v)).value.procs)
    ensures forall x | x != v :: x in Next(cfg, s, Dies(v)).value.procs <==> x in s.procs
    ensures Next(cfg, s, Disconnect(w)).Some? && w in Next(cfg, s, Disconnect(w)).value.gone
    ensures Next(cfg, s, Disconnect(w)).value == s.(gone := Next(cfg, s, Disconnect(w)).value.gone)
    ensures forall x | x != w :: x in Next(cfg, s, Disconnect(w)).value.gone <==> x in s.gone
    ensures Next(cfg, s, Arrive) == Some(s.(threads := s.threads + [Arrived]))
  {
  }
}
