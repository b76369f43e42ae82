/** Exactly which steps lose a wake-up, and exactly which lose a machine. */
module PoolLosses {
  import opened Options
  import opened Folds
  import opened PoolTypes
  import opened PoolMachine
  import opened PoolAccounting
  import opened PoolInvariant
  import opened PoolHistory
  import opened PoolSafety
  import opened PoolScenarios

  // Wake-ups.

  /** Whoever waits, waits for a reason: nothing is warm and the cap is reached. */
  ghost predicate AwakeAt(cfg: Config, p: PoolView) {
    p.waiting != [] ==> p.warm == [] && p.booted == cfg.maxVMs
  }

  ghost predicate Awake(cfg: Config, s: State) {
    AwakeAt(cfg, s.pool)
  }

  ghost predicate OnlyCappedQueues(cfg: Config, s: State) {
    cfg.maxVMs <= 0 ==> s.pool.waiting == []
  }

  /** The steps that make a slot or a machine available without looking at the queue: a push
      with room, whether by returnVM or by the sweeper; and the decrements of returnVM, the
      sweeper and a failed boot. */
  predicate FreesUnseen(cfg: Config, s: State, pc: PC) {
    match pc
    case Pushing(_) => |s.pool.warm| < cfg.warmPoolSize
    case SweepPut(live) => live != [] && |s.pool.warm| < cfg.warmPoolSize
    case SurplusKilled | SweepDec(_, _) | SweepPutDec(_) | BootUndo => true
    case _ => false
  }

  /** Such a step while somebody is queued. */
  predicate Loses(cfg: Config, s: State, l: Label) {
    l.Step? && l.t < |s.threads| && s.pool.waiting != [] && FreesUnseen(cfg, s, s.threads[l.t])
  }

  ghost predicate Alert(cfg: Config, s: State) {
    && AwakeAt(cfg, s.pool) && OnlyCappedQueues(cfg, s)
    && (cfg.maxVMs > 0 ==> s.pool.booted <= cfg.maxVMs)
  }

  lemma ReturnWakes(cfg: Config, s: State, v: VmId)
    requires Alert(cfg, s)
    ensures AwakeAt(cfg, ReturnSection(s, v).pool)
    ensures cfg.maxVMs <= 0 ==> ReturnSection(s, v).pool.waiting == []
  {
    if s.pool.waiting == [] {
      assert AfterFirstLive(s.pool.waiting, s.gone) == [];
    }
  }

  lemma DiscardWakes(cfg: Config, s: State)
    requires Alert(cfg, s)
    ensures AwakeAt(cfg, DiscardSection(cfg, s).pool)
    ensures cfg.maxVMs <= 0 ==> DiscardSection(cfg, s).pool.waiting == []
  {
    LiveIsEmpty(s.pool.waiting, s.gone);
    if s.pool.waiting == [] {
      assert AfterFirstLive(s.pool.waiting, s.gone) == [];
    }
    hide FirstLive, AfterFirstLive;
    if FirstLive(s.pool.waiting, s.gone).Some? {
    } else {
    }
  }

  lemma QueueWakes(cfg: Config, s: State, pc: PC)
    requires Alert(cfg, s)
    requires pc.Arrived? || pc.MissedWarm? || pc.Returning? || pc.DiscardKilled? || pc.Draining?
    requires EffectOf(cfg, s, pc, Go).Some?
    ensures AwakeAt(cfg, EffectOf(cfg, s, pc, Go).value.pool)
    ensures cfg.maxVMs <= 0 ==> EffectOf(cfg, s, pc, Go).value.pool.waiting == []
  {
    hide FirstLive, AfterFirstLive;
    match pc
    case Returning(v) => ReturnWakes(cfg, s, v);
    case DiscardKilled => DiscardWakes(cfg, s);
    case _ =>
  }

  lemma FreeWakes(cfg: Config, s: State, pc: PC)
    requires Alert(cfg, s)
    requires pc.Pushing? || pc.SurplusKilled? || pc.BootUndo?
             || pc.SweepScan? || pc.SweepDec? || pc.SweepPut? || pc.SweepPutDec?
    requires EffectOf(cfg, s, pc, Go).Some?
    ensures var p := EffectOf(cfg, s, pc, Go).value.pool;
            && (AwakeAt(cfg, p) <==> !(s.pool.waiting != [] && FreesUnseen(cfg, s, pc)))
            && p.waiting == s.pool.waiting
  {
  }

  lemma PoolStepsGo(cfg: Config, s: State, pc: PC, c: Choice)
    requires !AwayFromPool(pc) && EffectOf(cfg, s, pc, c).Some?
    ensures c.Go?
  {
  }

  lemma WakingEffect(cfg: Config, s: State, pc: PC, c: Choice)
    requires Alert(cfg, s) && EffectOf(cfg, s, pc, c).Some?
    ensures var p := EffectOf(cfg, s, pc, c).value.pool;
            && (AwakeAt(cfg, p) <==> !(s.pool.waiting != [] && FreesUnseen(cfg, s, pc)))
            && (cfg.maxVMs <= 0 ==> p.waiting == [])
  {
    if AwayFromPool(pc) {
      AwayKeepsPool(cfg, s, pc, c);
    } else {
      PoolStepsGo(cfg, s, pc, c);
      hide EffectOf, AwakeAt;
      if pc.Arrived? || pc.MissedWarm? || pc.Returning? || pc.DiscardKilled? || pc.Draining? {
        QueueWakes(cfg, s, pc);
      } else {
        FreeWakes(cfg, s, pc);
      }
    }
  }

  /** From a state in which nobody sleeps beside an opportunity, a step leads to one in which
      somebody does if and only if it frees something unseen while the queue is nonempty. */
  lemma WakeUpIsLostExactlyBy(cfg: Config, s: State, l: Label)
    requires Core(cfg, s) && OnlyCappedQueues(cfg, s) && Awake(cfg, s) && Next(cfg, s, l).Some?
    ensures Awake(cfg, Next(cfg, s, l).value) <==> !Loses(cfg, s, l)
    ensures OnlyCappedQueues(cfg, Next(cfg, s, l).value)
  {
    if l.Step? {
      hide EffectOf, FreesUnseen;
      WakingEffect(cfg, s, s.threads[l.t], l.c);
    }
  }

  ghost predicate AlwaysAwake(cfg: Config, s: State, ls: seq<Label>)
    requires Run(cfg, s, ls).Some?
    decreases |ls|
  {
    Awake(cfg, s) && (ls != [] ==> AlwaysAwake(cfg, Next(cfg, s, ls[0]).value, ls[1..]))
  }

  ghost predicate NeverLoses(cfg: Config, s: State, ls: seq<Label>)
    requires Run(cfg, s, ls).Some?
    decreases |ls|
  {
    ls != [] ==> !Loses(cfg, s, ls[0]) && NeverLoses(cfg, Next(cfg, s, ls[0]).value, ls[1..])
  }

  lemma {:induction false} AwakeExactlyIf(cfg: Config, s: State, ls: seq<Label>)
    requires Inv(cfg, s) && OnlyCappedQueues(cfg, s) && Awake(cfg, s) && Run(cfg, s, ls).Some?
    ensures AlwaysAwake(cfg, s, ls) <==> NeverLoses(cfg, s, ls)
    decreases |ls|
  {
    hide Next, Core, Histories, Awake, Loses, OnlyCappedQueues;
    if ls != [] {
      var s' := Next(cfg, s, ls[0]).value;
      InvStep(cfg, s, ls[0]);
      WakeUpIsLostExactlyBy(cfg, s, ls[0]);
      if Awake(cfg, s') {
        AwakeExactlyIf(cfg, s', ls[1..]);
      }
    }
  }

  /** On any run of the pool, nobody ever sleeps beside a warm machine or a free slot if and
      only if no step frees something unseen while somebody is queued. */
  lemma NoLostWakeUpExactlyIf(cfg: Config, ls: seq<Label>)
    requires Run(cfg, Init(), ls).Some?
    ensures AlwaysAwake(cfg, Init(), ls) <==> NeverLoses(cfg, Init(), ls)
  {
    InvInit(cfg);
    AwakeExactlyIf(cfg, Init(), ls);
  }

  // Machines.

  /** The select takes the cancellation although a machine has been delivered, or a machine
      is sent to a channel whose receiver has already gone. */
  predicate Strands(s: State, l: Label) {
    l.Step? && l.t < |s.threads|
    && match s.threads[l.t]
       case Waiting(w) => l.c.GiveUp? && ChanAt(s, w).buffer.Full?
       case Handing(_, w) => ChanAt(s, w).abandoned
       case _ => false
  }

  /** What a channel operation does to the number of stranded machines. */
  lemma OrphansOfOp(s: State, op: ChanOp)
    requires OperandIsReady(s, op) && (op.Take? || op.Abandon? ==> !s.chans[op.w].abandoned)
    ensures Sum(ApplyChan(s.chans, op), Orphaned)
         == Sum(s.chans, Orphaned) + One((op.Send? && s.chans[op.w].abandoned)
                                         || (op.Abandon? && s.chans[op.w].buffer.Full?))
  {
    match op
    case NoChan =>
    case Open => SumPush(s.chans, NO_CHAN, Orphaned);
    case Send(w, v) =>
      SumSet(s.chans, w, s.chans[w].(buffer := Full(v), uses := s.chans[w].uses + 1), Orphaned);
    case Close(w) =>
      SumSet(s.chans, w, s.chans[w].(buffer := Closed, uses := s.chans[w].uses + 1), Orphaned);
    case Take(w) => SumSet(s.chans, w, s.chans[w].(buffer := Empty), Orphaned);
    case Abandon(w) => SumSet(s.chans, w, s.chans[w].(abandoned := true), Orphaned);
  }

  lemma StrandsByOp(cfg: Config, s: State, t: nat, c: Choice)
    requires Core(cfg, s) && t < |s.threads| && EffectOf(cfg, s, s.threads[t], c).Some?
    ensures var op := EffectOf(cfg, s, s.threads[t], c).value.chan;
            && OperandIsReady(s, op)
            && (op.Take? || op.Abandon? ==> !s.chans[op.w].abandoned)
            && (Strands(s, Step(t, c)) <==>
                (op.Send? && s.chans[op.w].abandoned) || (op.Abandon? && s.chans[op.w].buffer.Full?))
  {
    SingleUseOperand(cfg, s, t, c);
    OperandOf(cfg, s, s.threads[t], c);
    var op := EffectOf(cfg, s, s.threads[t], c).value.chan;
    if op.Take? || op.Abandon? {
      WaitingMeansOpen(s, t, op.w);
    }
  }

  /** A step strands a machine, one, if and only if it is such a cancellation or such a send. */
  lemma MachineIsLostExactlyBy(cfg: Config, s: State, l: Label)
    requires Core(cfg, s) && Next(cfg, s, l).Some?
    ensures Sum(Next(cfg, s, l).value.chans, Orphaned) == Sum(s.chans, Orphaned) + One(Strands(s, l))
  {
    if l.Step? {
      StrandsByOp(cfg, s, l.t, l.c);
      OrphansOfOp(s, EffectOf(cfg, s, s.threads[l.t], l.c).value.chan);
    }
  }

  /** How many such steps a run has. */
  function Strandings(cfg: Config, s: State, ls: seq<Label>): nat
    requires Run(cfg, s, ls).Some?
    decreases |ls|
  {
    if ls == [] then 0
    else (if Strands(s, ls[0]) then 1 else 0) + Strandings(cfg, Next(cfg, s, ls[0]).value, ls[1..])
  }

  /** Along any run the machines stranded are exactly as many as such steps. */
  lemma {:induction false} LostMachinesAreCounted(cfg: Config, s: State, ls: seq<Label>)
    requires Inv(cfg, s) && Run(cfg, s, ls).Some?
    ensures Sum(Run(cfg, s, ls).value.chans, Orphaned) == Sum(s.chans, Orphaned) + Strandings(cfg, s, ls)
    decreases |ls|
  {
    hide Next, Core, Histories, Strands;
    if ls != [] {
      InvStep(cfg, s, ls[0]);
      MachineIsLostExactlyBy(cfg, s, ls[0]);
      LostMachinesAreCounted(cfg, Next(cfg, s, ls[0]).value, ls[1..]);
    }
  }

  ghost predicate NeverStranded(cfg: Config, s: State, ls: seq<Label>)
    requires Run(cfg, s, ls).Some?
    decreases |ls|
  {
    Sum(s.chans, Orphaned) == 0 && (ls != [] ==> NeverStranded(cfg, Next(cfg, s, ls[0]).value, ls[1..]))
  }

  lemma {:induction false} StrandedIf(cfg: Config, s: State, ls: seq<Label>)
    requires Inv(cfg, s) && Run(cfg, s, ls).Some? && Sum(s.chans, Orphaned) == 0
    ensures NeverStranded(cfg, s, ls) <==> Strandings(cfg, s, ls) == 0
    decreases |ls|
  {
    hide Next, Core, Histories, Strands;
    if ls != [] {
      InvStep(cfg, s, ls[0]);
      MachineIsLostExactlyBy(cfg, s, ls[0]);
      var s' := Next(cfg, s, ls[0]).value;
      if Sum(s'.chans, Orphaned) == 0 {
        StrandedIf(cfg, s', ls[1..]);
      }
    }
  }

  /** On any run of the pool, no machine is ever stranded if and only if no step is a
      cancellation beside a delivery or a send to an abandoned channel. */
  lemma NoLostMachineExactlyIf(cfg: Config, ls: seq<Label>)
    requires Run(cfg, Init(), ls).Some?
    ensures NeverStranded(cfg, Init(), ls) <==> Strandings(cfg, Init(), ls) == 0
    ensures Sum(Run(cfg, Init(), ls).value.chans, Orphaned) == Strandings(cfg, Init(), ls)
  {
    InvInit(cfg);
    assert Sum(Init().chans, Orphaned) == 0;
    StrandedIf(cfg, Init(), ls);
    LostMachinesAreCounted(cfg, Init(), ls);
  }
}
