/** What holds in every state that some interleaving of the pool's goroutines reaches. */
module PoolSafety {
  import opened Options
  import opened Folds
  import opened PoolTypes
  import opened PoolMachine
  import opened PoolAccounting
  import opened PoolInvariant
  import opened PoolHistory

  // The places a slot can be in.

  function Booting(pc: PC): nat {
    if pc.BootCheck? || pc.RestoreSpawn? || pc.RestoreWait? || pc.ColdSpawn? || pc.ColdWait? then 1 else 0
  }

  function Busy(pc: PC): nat {
    if pc.Serving? then 1 else 0
  }

  /** Machines between two places: with a returner, a discarder, a replacement or the sweeper. */
  function Carried(pc: PC): nat {
    match pc
    case Returning(_) | Handing(_, _) | Pushing(_) | KillingSurplus(_) | Discarding(_) => 1
    case SweepScan(_, live) => |live|
    case SweepKill(_, live, _) => |live| + 1
    case SweepDec(_, live) => |live|
    case SweepPut(live) => |live|
    case SweepPutKill(live, _) => |live| + 1
    case SweepPutDec(live) => |live|
    case _ => 0
  }

  /** Killed machines and failed boots whose slot has not been given back yet. */
  function NotGivenBack(pc: PC): nat {
    match pc
    case SurplusKilled | DiscardKilled | BootUndo | CloseFailed(_) | SweepDec(_, _) | SweepPutDec(_) => 1
    case _ => 0
  }

  /** Delivered to a receiver that is still in its select. */
  function Delivered(ch: Chan): nat {
    if ch.buffer.Full? && !ch.abandoned then 1 else 0
  }

  /** Delivered to a receiver that took the cancellation instead. */
  function Orphaned(ch: Chan): nat {
    if ch.buffer.Full? && ch.abandoned then 1 else 0
  }

  lemma {:induction false} SlotsByPlace(pcs: seq<PC>)
    ensures Sum(pcs, Slots) == Sum(pcs, Booting) + Sum(pcs, Busy) + Sum(pcs, Carried) + Sum(pcs, NotGivenBack)
  {
    if pcs != [] {
      SlotsByPlace(pcs[..|pcs| - 1]);
      var pc := pcs[|pcs| - 1];
      assert Slots(pc) == Booting(pc) + Busy(pc) + Carried(pc) + NotGivenBack(pc);
    }
  }

  lemma {:induction false} ChansByPlace(chans: seq<Chan>)
    ensures Sum(chans, ChanSlots) == Sum(chans, Delivered) + Sum(chans, Orphaned)
  {
    if chans != [] {
      ChansByPlace(chans[..|chans| - 1]);
    }
  }

  /** Slot conservation: the counter is the disjoint sum of the places a slot can be in;
      every machine is in at most one place, a live one in exactly one, a killed one in none. */
  lemma Conservation(cfg: Config, s: State)
    requires Reachable(cfg, s)
    ensures s.pool.booted == Sum(s.threads, Booting) + Sum(s.threads, Busy) + |s.pool.warm|
                             + Sum(s.chans, Delivered) + Sum(s.chans, Orphaned) + Sum(s.threads, Carried)
                             + Sum(s.threads, NotGivenBack)
    ensures forall v: VmId :: Held(s, v) <= 1
    ensures forall v | v in s.procs :: Held(s, v) == 1
    ensures forall v | v in s.killed :: Held(s, v) == 0
  {
    ReachableInv(cfg, s);
    SlotsByPlace(s.threads);
    ChansByPlace(s.chans);
  }

  // Live processes never outnumber the counter.

  ghost function VmsOf(pc: PC): multiset<nat> {
    match pc
    case Serving(x, _, _) => multiset{x}
    case Returning(x) => multiset{x}
    case Handing(x, _) => multiset{x}
    case Pushing(x) => multiset{x}
    case KillingSurplus(x) => multiset{x}
    case Discarding(x) => multiset{x}
    case RestoreWait(_, x) => multiset{x}
    case ColdWait(_, x) => multiset{x}
    case SweepScan(_, live) => multiset(live)
    case SweepKill(_, live, x) => multiset(live) + multiset{x}
    case SweepDec(_, live) => multiset(live)
    case SweepPut(live) => multiset(live)
    case SweepPutKill(live, x) => multiset(live) + multiset{x}
    case SweepPutDec(live) => multiset(live)
    case _ => multiset{}
  }

  ghost function VmIn(ch: Chan): multiset<nat> {
    if ch.buffer.Full? then multiset{ch.buffer.v} else multiset{}
  }

  lemma {:induction false} OccIsCount(q: seq<nat>, x: nat)
    ensures Occ(q, x) == multiset(q)[x]
  {
    if q != [] {
      OccIsCount(q[1..], x);
      assert q == [q[0]] + q[1..];
    }
  }

  predicate Sweeping(pc: PC) {
    pc.SweepScan? || pc.SweepKill? || pc.SweepDec? || pc.SweepPut? || pc.SweepPutKill? || pc.SweepPutDec?
  }

  lemma OneMoreIsCount(q: seq<nat>, y: nat, x: nat)
    ensures Occ(q, x) + Is(y, x) == (multiset(q) + multiset{y})[x]
  {
    OccIsCount(q, x);
  }

  lemma KillerHoldingIsCount(pc: PC, v: VmId)
    requires pc.SweepKill? || pc.SweepPutKill?
    ensures VmsOf(pc)[v] == Holding(pc, v)
  {
    hide Occ;
    OneMoreIsCount(pc.live, pc.v, v);
  }

  lemma SweeperHoldingIsCount(pc: PC, v: VmId)
    requires Sweeping(pc)
    ensures VmsOf(pc)[v] == Holding(pc, v)
  {
    hide Occ;
    if pc.SweepKill? || pc.SweepPutKill? {
      KillerHoldingIsCount(pc, v);
    } else {
      OccIsCount(pc.live, v);
    }
  }

  lemma HoldingIsCount(pc: PC, v: VmId)
    ensures VmsOf(pc)[v] == Holding(pc, v)
  {
    if Sweeping(pc) {
      SweeperHoldingIsCount(pc, v);
    }
  }

  lemma VmsWithinSlots(pc: PC)
    ensures |VmsOf(pc)| <= Slots(pc)
  {
  }

  lemma {:induction false} ThreadsCount(pcs: seq<PC>, v: VmId)
    ensures Gather(pcs, VmsOf)[v] == Sum(pcs, Holds(v))
  {
    hide Holding, VmsOf;
    if pcs != [] {
      ThreadsCount(pcs[..|pcs| - 1], v);
      HoldingIsCount(pcs[|pcs| - 1], v);
    }
  }

  lemma ThreadsWithinSlots(pcs: seq<PC>)
    ensures |Gather(pcs, VmsOf)| <= Sum(pcs, Slots)
  {
    forall i | 0 <= i < |pcs| ensures |VmsOf(pcs[i])| <= Slots(pcs[i]) {
      VmsWithinSlots(pcs[i]);
    }
    GatherWithinSum(pcs, VmsOf, Slots);
  }

  lemma {:induction false} ChansCount(chans: seq<Chan>, v: VmId)
    ensures Gather(chans, VmIn)[v] == Sum(chans, Buffers(v))
    ensures |Gather(chans, VmIn)| == Sum(chans, ChanSlots)
  {
    if chans != [] {
      ChansCount(chans[..|chans| - 1], v);
    }
  }

  lemma ProcsWithinCharged(s: State)
    requires Exclusive(s)
    ensures |s.procs| <= Charged(s)
  {
    var all := Gather(s.threads, VmsOf) + multiset(s.pool.warm) + Gather(s.chans, VmIn);
    ThreadsWithinSlots(s.threads);
    ChansCount(s.chans, 0);
    forall v | v in s.procs ensures v in all {
      ThreadsCount(s.threads, v);
      ChansCount(s.chans, v);
      OccIsCount(s.pool.warm, v);
      assert all[v] == Held(s, v);
    }
    SetWithin(s.procs, all);
  }

  /** Live processes never outnumber the counter, and the counter never exceeds the cap. */
  lemma CapHolds(cfg: Config, s: State)
    requires Reachable(cfg, s)
    ensures 0 <= |s.procs| <= s.pool.booted
    ensures cfg.maxVMs > 0 ==> s.pool.booted <= cfg.maxVMs
  {
    ReachableInv(cfg, s);
    ProcsWithinCharged(s);
  }

  /** When restoreVM is about to take the function's canonical vsock path, no process of
      any machine of the pool is alive. */
  lemma RestoreTakesAFreePath(cfg: Config, s: State, t: nat)
    requires Reachable(cfg, s) && t < |s.threads| && s.threads[t].RestoreSpawn?
    ensures s.procs == {}
  {
    ReachableInv(cfg, s);
    assert KnowsItsVms(cfg, s.vms, s.threads[t]);
    SumHas(s.threads, t, Slots);
    forall v | v in s.procs ensures false {
      assert Held(s, v) > 0;
      HeldIsCharged(s, t, v);
    }
  }

  /** A machine held anywhere is paid for beside a goroutine that owes a slot of its own. */
  lemma HeldIsCharged(s: State, t: nat, v: VmId)
    requires t < |s.threads| && s.threads[t].RestoreSpawn? && Held(s, v) > 0
    ensures Charged(s) >= 2
  {
    var all := Gather(s.threads, VmsOf) + multiset(s.pool.warm) + Gather(s.chans, VmIn);
    ThreadsCount(s.threads, v);
    ChansCount(s.chans, v);
    OccIsCount(s.pool.warm, v);
    SetWithin({v}, all);
    OwingIsExtra(s.threads, t);
  }

  lemma OwingIsExtra(pcs: seq<PC>, t: nat)
    requires t < |pcs| && pcs[t].RestoreSpawn?
    ensures |Gather(pcs, VmsOf)| + 1 <= Sum(pcs, Slots)
  {
    forall i | 0 <= i < |pcs| ensures |VmsOf(pcs[i])| <= Slots(pcs[i]) {
      VmsWithinSlots(pcs[i]);
    }
    GatherBelowSum(pcs, t, VmsOf, Slots);
  }

  /** Each waiter channel has had at most one send or close; nothing has panicked; a goroutine
      about to send never blocks; and whoever sends or closes finds the channel empty and unused. */
  lemma ChannelsAreSingleUse(cfg: Config, s: State)
    requires Reachable(cfg, s)
    ensures forall w | 0 <= w < |s.chans| :: s.chans[w].uses <= 1
    ensures !s.panicked
    ensures forall t | 0 <= t < |s.threads| && s.threads[t].Handing? ::
              EffectOf(cfg, s, s.threads[t], Go).Some? && !Panics(s, Send(s.threads[t].w, s.threads[t].v))
    ensures forall t, c | 0 <= t < |s.threads| && EffectOf(cfg, s, s.threads[t], c).Some? ::
              var op := EffectOf(cfg, s, s.threads[t], c).value.chan;
              op.Send? || op.Close? ==> op.w < |s.chans| && s.chans[op.w].buffer.Empty? && s.chans[op.w].uses == 0
  {
    ReachableInv(cfg, s);
    forall t, c | 0 <= t < |s.threads| && EffectOf(cfg, s, s.threads[t], c).Some?
      ensures var op := EffectOf(cfg, s, s.threads[t], c).value.chan;
              op.Send? || op.Close? ==> op.w < |s.chans| && s.chans[op.w].buffer.Empty? && s.chans[op.w].uses == 0
    {
      SingleUseOperand(cfg, s, t, c);
    }
    hide Core;
    forall t | 0 <= t < |s.threads| && s.threads[t].Handing?
      ensures EffectOf(cfg, s, s.threads[t], Go).Some? && !Panics(s, Send(s.threads[t].w, s.threads[t].v))
    {
      TicketMeansUnused(s, t, s.threads[t].w);
    }
  }

  /** No machine serves two requests at once; what has been killed is neither warm nor in
      a waiter's channel, nor alive. */
  lemma OneRequestPerMachine(cfg: Config, s: State)
    requires Reachable(cfg, s)
    ensures forall t, u | 0 <= t < |s.threads| && 0 <= u < |s.threads| && t != u
              && s.threads[t].Serving? && s.threads[u].Serving? :: s.threads[t].v != s.threads[u].v
    ensures forall v | v in s.killed ::
              v !in s.pool.warm && v !in s.procs && forall w | 0 <= w < |s.chans| :: s.chans[w].buffer != Full(v)
  {
    ReachableInv(cfg, s);
    forall t, u | 0 <= t < |s.threads| && 0 <= u < |s.threads| && t != u
                  && s.threads[t].Serving? && s.threads[u].Serving?
      ensures s.threads[t].v != s.threads[u].v
    {
      OnlyThread(s, t, u, s.threads[t].v);
    }
    forall v | v in s.killed
      ensures v !in s.pool.warm && v !in s.procs
      ensures forall w | 0 <= w < |s.chans| :: s.chans[w].buffer != Full(v)
    {
      assert Held(s, v) == 0;
      forall i | 0 <= i < |s.pool.warm| ensures s.pool.warm[i] != v {
        WarmHolds(s, i);
      }
      forall w | 0 <= w < |s.chans| ensures s.chans[w].buffer != Full(v) {
        ChanHolds(s, w, v);
      }
    }
  }

  /** The records of a machine: its own boot once, with its boot time, then only warm
      starts; an error is the last of them; a restored machine exists only under a cap of
      one; a warm machine is never fresh; and every machine is of the pool's function. */
  lemma StartTypesTellTheLife(cfg: Config, s: State, v: VmId)
    requires Reachable(cfg, s) && v < |s.vms|
    ensures var vm := s.vms[v];
            && vm.functionName == cfg.functionName
            && (forall i | 0 <= i < |vm.history| ::
                  && vm.history[i].startType == (if i == 0 then vm.bootKind else Warm)
                  && vm.history[i].bootMs == (if i == 0 then vm.bootMs else 0)
                  && (vm.history[i].infraError ==> i == |vm.history| - 1))
            && (vm.bootKind.Restored? ==> cfg.maxVMs == 1)
            && (v in s.pool.warm ==> !vm.isFresh && vm.history != [])
  {
    ReachableInv(cfg, s);
    assert VmOk(cfg, s.vms[v]);
    if v in s.pool.warm {
      var i :| 0 <= i < |s.pool.warm| && s.pool.warm[i] == v;
      assert Settled(VmAt(s, s.pool.warm[i]));
    }
  }
}
