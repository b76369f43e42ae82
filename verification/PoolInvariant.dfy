/** The invariant of the pool's step machine: machines and tickets are in exactly one
    place, the booted counter pays for exactly what is there, and no channel is used
    twice. Each part is carried over a step by one lemma. */
module PoolInvariant {
  import opened Options
  import opened Folds
  import opened PoolTypes
  import opened PoolMachine
  import opened PoolAccounting

  /** Every machine is in at most one place, what has been killed is in none, and every
      live process belongs to a machine that is somewhere. */
  ghost predicate Exclusive(s: State) {
    && (forall v: VmId :: Held(s, v) <= 1)
    && (forall v: VmId :: Held(s, v) > 0 ==> v < |s.vms| && v !in s.killed)
    && (forall v | v in s.procs :: Held(s, v) > 0)
    && (forall v | v in s.killed :: v < |s.vms|)
  }

  /** The counter equals what it is charged for, and stays within the configured cap. */
  ghost predicate Solvent(cfg: Config, s: State) {
    && s.pool.booted == Charged(s)
    && (cfg.maxVMs > 0 ==> s.pool.booted <= cfg.maxVMs)
    && |s.pool.warm| <= cfg.warmPoolSize
  }

  /** A channel somebody is committed to use is unused and empty; nobody else is
      committed to it; no channel is used twice; nothing has panicked. */
  ghost predicate SingleUse(s: State) {
    && (forall w: WaiterId :: Tickets(s, w) <= 1)
    && (forall w: WaiterId :: Tickets(s, w) > 0 ==> w < |s.chans| && s.chans[w].uses == 0)
    && (forall w | 0 <= w < |s.chans| ::
          s.chans[w].uses <= 1 && (s.chans[w].uses == 0 ==> s.chans[w].buffer.Empty?))
    && !s.panicked
  }

  /** A channel has at most one receiver, and none once its receiver has given up. */
  ghost predicate OneReceiver(s: State) {
    forall w: WaiterId :: Awaits(s, w) <= 1 && (Awaits(s, w) > 0 ==> w < |s.chans| && !s.chans[w].abandoned)
  }

  /** A channel operation names an existing channel. */
  ghost predicate ChanFits(s: State, op: ChanOp) {
    !op.NoChan? && !op.Open? ==> op.w < |s.chans|
  }

  // Sums over the changed sequences.

  lemma ThreadSum(s: State, t: nat, next: PC, fork: Option<PC>, f: PC -> nat)
    requires t < |s.threads| && f(Finished) == 0
    ensures Sum(s.threads[t := next] + (if fork.Some? then [fork.value] else []), f) + f(s.threads[t])
         == Sum(s.threads, f) + f(next) + f(Forked(fork))
  {
    SumSet(s.threads, t, next, f);
    if fork.Some? {
      SumPush(s.threads[t := next], fork.value, f);
    } else {
      assert s.threads[t := next] + [] == s.threads[t := next];
    }
  }

  lemma ChanSum(s: State, op: ChanOp, f: Chan -> nat)
    requires ChanFits(s, op) && f(NO_CHAN) == 0
    requires forall ch: Chan, n: nat, b: bool :: f(Chan(ch.buffer, n, b)) == f(ch)
    ensures Sum(ApplyChan(s.chans, op), f) + f(Touched(s, op)) == Sum(s.chans, f) + f(TouchedAfter(s, op))
  {
    match op
    case NoChan =>
    case Open => SumPush(s.chans, NO_CHAN, f);
    case Send(w, v) =>
      var ch := s.chans[w];
      SumSet(s.chans, w, ch.(buffer := Full(v), uses := ch.uses + 1), f);
      assert f(Chan(Full(v), ch.uses + 1, ch.abandoned)) == f(Chan(Full(v), ch.uses, ch.abandoned));
    case Close(w) =>
      var ch := s.chans[w];
      SumSet(s.chans, w, ch.(buffer := Closed, uses := ch.uses + 1), f);
      assert f(Chan(Closed, ch.uses + 1, ch.abandoned)) == f(Chan(Closed, ch.uses, ch.abandoned));
    case Take(w) => SumSet(s.chans, w, s.chans[w].(buffer := Empty), f);
    case Abandon(w) =>
      var ch := s.chans[w];
      SumSet(s.chans, w, ch.(abandoned := true), f);
      assert f(Chan(ch.buffer, ch.uses, true)) == f(ch);
  }

  lemma HeldStep(cfg: Config, s: State, t: nat, e: Effect, v: VmId)
    requires t < |s.threads| && ChanFits(s, e.chan) && MovesVm(s, s.threads[t], e, v)
    ensures Held(Apply(cfg, s, t, e), v) + One(e.vm == Kill(v))
         == Held(s, v) + One(e.vm.Spawn? && v == |s.vms|)
  {
    ThreadSum(s, t, e.next, e.fork, Holds(v));
    ChanSum(s, e.chan, Buffers(v));
  }

  lemma ChargedStep(cfg: Config, s: State, t: nat, e: Effect)
    requires t < |s.threads| && ChanFits(s, e.chan) && MovesSlots(s, s.threads[t], e)
    ensures Charged(Apply(cfg, s, t, e)) + s.pool.booted == Charged(s) + e.pool.booted
  {
    ThreadSum(s, t, e.next, e.fork, Slots);
    ChanSum(s, e.chan, ChanSlots);
  }

  lemma TicketsStep(cfg: Config, s: State, t: nat, e: Effect, w: WaiterId)
    requires t < |s.threads| && MovesTicket(s, s.threads[t], e, w)
    ensures Kept(Tickets(Apply(cfg, s, t, e), w) + One((e.chan.Send? || e.chan.Close?) && e.chan.w == w),
                 Tickets(s, w) + One(e.chan.Open? && w == |s.chans|), w in s.gone)
  {
    ThreadSum(s, t, e.next, e.fork, Keeps(w));
  }

  lemma AwaitsStep(cfg: Config, s: State, t: nat, e: Effect, w: WaiterId)
    requires t < |s.threads| && MovesQueue(s, s.threads[t], e)
    ensures Awaits(Apply(cfg, s, t, e), w) + Awaiting(s.threads[t], w)
         == Awaits(s, w) + One(e.chan.Open? && w == |s.chans|)
  {
    ThreadSum(s, t, e.next, e.fork, AwaitsAt(w));
  }

  // What a goroutine's own commitments say about the shared state.

  /** A goroutine committed to a channel finds it existing, unused and empty. */
  lemma TicketMeansUnused(s: State, t: nat, w: WaiterId)
    requires SingleUse(s) && t < |s.threads| && Ticket(s.threads[t], w) > 0
    ensures w < |s.chans| && s.chans[w].uses == 0 && s.chans[w].buffer.Empty?
  {
    SumHas(s.threads, t, Keeps(w));
    assert Keeps(w)(s.threads[t]) == Ticket(s.threads[t], w);
    assert Tickets(s, w) > 0;
  }

  lemma WaitingMeansOpen(s: State, t: nat, w: WaiterId)
    requires OneReceiver(s) && t < |s.threads| && s.threads[t] == Waiting(w)
    ensures w < |s.chans| && !s.chans[w].abandoned && Awaits(s, w) == 1
  {
    SumHas(s.threads, t, AwaitsAt(w));
    assert Awaiting(s.threads[t], w) == 1;
    assert Awaits(s, w) >= 1;
  }

  lemma ClosesAreSafe(s: State, t: nat)
    requires SingleUse(s) && t < |s.threads|
    ensures ClosesSafely(s, s.threads[t])
  {
    var pc := s.threads[t];
    if pc.CloseFailed? {
      TicketMeansUnused(s, t, pc.w);
    } else if pc.Closing? && pc.ws != [] {
      TicketMeansUnused(s, t, pc.ws[0]);
    }
  }

  /** The channel a step operates on. */
  lemma OperandOf(cfg: Config, s: State, pc: PC, c: Choice)
    requires EffectOf(cfg, s, pc, c).Some?
    ensures var op := EffectOf(cfg, s, pc, c).value.chan;
            && (op.Send? || op.Close? ==> Ticket(pc, op.w) > 0)
            && (op.Take? || op.Abandon? ==> pc == Waiting(op.w))
            && (op.Send? ==> !ChanAt(s, op.w).buffer.Full?)
  {
  }

  /** Program counters whose next step leaves the pool's own fields alone. */
  predicate AwayFromPool(pc: PC) {
    || pc.Waiting? || pc.Serving? || pc.Handing? || pc.KillingSurplus? || pc.Discarding?
    || pc.BootCheck? || pc.RestoreSpawn? || pc.RestoreWait? || pc.ColdSpawn? || pc.ColdWait?
    || pc.CloseFailed? || pc.Closing? || pc.Finished? || pc.SweepIdle? || pc.SweepKill? || pc.SweepPutKill?
  }

  lemma AwayKeepsPool(cfg: Config, s: State, pc: PC, c: Choice)
    requires AwayFromPool(pc) && EffectOf(cfg, s, pc, c).Some?
    ensures EffectOf(cfg, s, pc, c).value.pool == s.pool
  {
  }

  ghost predicate Core(cfg: Config, s: State) {
    Exclusive(s) && Solvent(cfg, s) && SingleUse(s) && OneReceiver(s)
  }

  lemma ChanFitsStep(cfg: Config, s: State, t: nat, c: Choice)
    requires SingleUse(s) && OneReceiver(s) && t < |s.threads| && EffectOf(cfg, s, s.threads[t], c).Some?
    ensures ChanFits(s, EffectOf(cfg, s, s.threads[t], c).value.chan)
  {
    OperandOf(cfg, s, s.threads[t], c);
    var op := EffectOf(cfg, s, s.threads[t], c).value.chan;
    if op.Send? || op.Close? {
      TicketMeansUnused(s, t, op.w);
    } else if op.Take? || op.Abandon? {
      WaitingMeansOpen(s, t, op.w);
    }
  }

  /** The counter only grows under MayBoot, and warm only below its capacity. */
  lemma StepBounds(cfg: Config, s: State, pc: PC, c: Choice)
    requires EffectOf(cfg, s, pc, c).Some?
    ensures var p := EffectOf(cfg, s, pc, c).value.pool;
            && (p.booted <= s.pool.booted || (p.booted == s.pool.booted + 1 && MayBoot(cfg.maxVMs, s.pool.booted)))
            && (|p.warm| <= |s.pool.warm| || (|p.warm| == |s.pool.warm| + 1 && |s.pool.warm| < cfg.warmPoolSize))
  {
  }

  lemma ExclusiveStep(cfg: Config, s: State, t: nat, c: Choice)
    requires Core(cfg, s) && t < |s.threads| && EffectOf(cfg, s, s.threads[t], c).Some?
    ensures Exclusive(Apply(cfg, s, t, EffectOf(cfg, s, s.threads[t], c).value))
  {
    hide Balanced;
    var e := EffectOf(cfg, s, s.threads[t], c).value;
    var s' := Apply(cfg, s, t, e);
    ChanFitsStep(cfg, s, t, c);
    ClosesAreSafe(s, t);
    forall v: VmId
      ensures Held(s', v) + One(e.vm == Kill(v)) == Held(s, v) + One(e.vm.Spawn? && v == |s.vms|)
    {
      BalancedVm(cfg, s, s.threads[t], c, v);
      HeldStep(cfg, s, t, e, v);
    }
    ExclusiveFrom(cfg, s, t, e);
  }

  lemma BalancedVm(cfg: Config, s: State, pc: PC, c: Choice, v: VmId)
    requires EffectOf(cfg, s, pc, c).Some? && ClosesSafely(s, pc)
    ensures MovesVm(s, pc, EffectOf(cfg, s, pc, c).value, v)
  {
    hide MovesVm, MovesSlots, MovesTicket, MovesQueue, EffectOf, ClosesSafely;
    StepIsBalanced(cfg, s, pc, c, v, 0);
  }

  lemma BalancedRest(cfg: Config, s: State, pc: PC, c: Choice, w: WaiterId)
    requires EffectOf(cfg, s, pc, c).Some? && ClosesSafely(s, pc)
    ensures var e := EffectOf(cfg, s, pc, c).value;
            MovesSlots(s, pc, e) && MovesTicket(s, pc, e, w) && MovesQueue(s, pc, e)
  {
    hide MovesVm, MovesSlots, MovesTicket, MovesQueue, EffectOf, ClosesSafely;
    StepIsBalanced(cfg, s, pc, c, 0, w);
  }

  lemma ExclusiveFrom(cfg: Config, s: State, t: nat, e: Effect)
    requires Exclusive(s) && t < |s.threads|
    requires forall v: VmId ::
               Held(Apply(cfg, s, t, e), v) + One(e.vm == Kill(v)) == Held(s, v) + One(e.vm.Spawn? && v == |s.vms|)
    ensures Exclusive(Apply(cfg, s, t, e))
  {
    hide Held;
    var s' := Apply(cfg, s, t, e);
    assert Held(s, |s.vms|) == 0;
    if e.vm.Kill? {
      assert Held(s', e.vm.v) + 1 == Held(s, e.vm.v);
    }
  }

  lemma SolventStep(cfg: Config, s: State, t: nat, c: Choice)
    requires Core(cfg, s) && t < |s.threads| && EffectOf(cfg, s, s.threads[t], c).Some?
    ensures Solvent(cfg, Apply(cfg, s, t, EffectOf(cfg, s, s.threads[t], c).value))
  {
    hide MovesSlots, MovesTicket, MovesQueue, EffectOf, ClosesSafely, Exclusive, SingleUse, OneReceiver, Charged;
    var e := EffectOf(cfg, s, s.threads[t], c).value;
    ChanFitsStep(cfg, s, t, c);
    ClosesAreSafe(s, t);
    StepBounds(cfg, s, s.threads[t], c);
    BalancedRest(cfg, s, s.threads[t], c, 0);
    ChargedStep(cfg, s, t, e);
  }

  lemma SingleUseStep(cfg: Config, s: State, t: nat, c: Choice)
    requires Core(cfg, s) && t < |s.threads| && EffectOf(cfg, s, s.threads[t], c).Some?
    ensures SingleUse(Apply(cfg, s, t, EffectOf(cfg, s, s.threads[t], c).value))
  {
    var e := EffectOf(cfg, s, s.threads[t], c).value;
    var s' := Apply(cfg, s, t, e);
    SingleUseOperand(cfg, s, t, c);
    hide MovesVm, MovesSlots, MovesTicket, MovesQueue, EffectOf, ClosesSafely, Exclusive, Solvent, OneReceiver, Tickets;
    ClosesAreSafe(s, t);
    forall w: WaiterId
      ensures Tickets(s', w) + One((e.chan.Send? || e.chan.Close?) && e.chan.w == w)
           <= Tickets(s, w) + One(e.chan.Open? && w == |s.chans|)
    {
      BalancedRest(cfg, s, s.threads[t], c, w);
      TicketsStep(cfg, s, t, e, w);
    }
    SingleUseFrom(cfg, s, t, e);
  }

  /** A send or close finds its channel unused; a receive or cancellation finds it existing. */
  ghost predicate OperandIsReady(s: State, op: ChanOp) {
    && ChanFits(s, op)
    && (op.Send? || op.Close? ==> s.chans[op.w].uses == 0 && s.chans[op.w].buffer.Empty?)
    && (op.Take? ==> s.chans[op.w].buffer.Full?)
  }

  lemma SingleUseOperand(cfg: Config, s: State, t: nat, c: Choice)
    requires Core(cfg, s) && t < |s.threads| && EffectOf(cfg, s, s.threads[t], c).Some?
    ensures OperandIsReady(s, EffectOf(cfg, s, s.threads[t], c).value.chan)
  {
    ChanFitsStep(cfg, s, t, c);
    OperandOf(cfg, s, s.threads[t], c);
    var op := EffectOf(cfg, s, s.threads[t], c).value.chan;
    if op.Send? || op.Close? {
      TicketMeansUnused(s, t, op.w);
    }
  }

  lemma SingleUseFrom(cfg: Config, s: State, t: nat, e: Effect)
    requires SingleUse(s) && t < |s.threads| && OperandIsReady(s, e.chan)
    requires forall w: WaiterId ::
               Tickets(Apply(cfg, s, t, e), w) + One((e.chan.Send? || e.chan.Close?) && e.chan.w == w)
               <= Tickets(s, w) + One(e.chan.Open? && w == |s.chans|)
    ensures SingleUse(Apply(cfg, s, t, e))
  {
    hide Tickets;
    var s' := Apply(cfg, s, t, e);
    assert Tickets(s, |s.chans|) == 0;
    forall w: WaiterId | Tickets(s', w) > 0
      ensures w < |s'.chans| && s'.chans[w].uses == 0
    {
      if e.chan.Open? && w == |s.chans| {
      } else {
        assert Tickets(s, w) > 0;
      }
    }
  }

  lemma OneReceiverStep(cfg: Config, s: State, t: nat, c: Choice)
    requires Core(cfg, s) && t < |s.threads| && EffectOf(cfg, s, s.threads[t], c).Some?
    ensures OneReceiver(Apply(cfg, s, t, EffectOf(cfg, s, s.threads[t], c).value))
  {
    var e := EffectOf(cfg, s, s.threads[t], c).value;
    var s' := Apply(cfg, s, t, e);
    OperandOf(cfg, s, s.threads[t], c);
    ChanFitsStep(cfg, s, t, c);
    ClosesAreSafe(s, t);
    BalancedRest(cfg, s, s.threads[t], c, 0);
    forall w: WaiterId
      ensures Awaits(s', w) + Awaiting(s.threads[t], w) == Awaits(s, w) + One(e.chan.Open? && w == |s.chans|)
    {
      AwaitsStep(cfg, s, t, e, w);
    }
    OneReceiverFrom(cfg, s, t, e);
  }

  lemma OneReceiverFrom(cfg: Config, s: State, t: nat, e: Effect)
    requires OneReceiver(s) && t < |s.threads| && ChanFits(s, e.chan)
    requires e.chan.Abandon? ==> s.threads[t] == Waiting(e.chan.w)
    requires forall w: WaiterId ::
               Awaits(Apply(cfg, s, t, e), w) + Awaiting(s.threads[t], w)
               == Awaits(s, w) + One(e.chan.Open? && w == |s.chans|)
    ensures OneReceiver(Apply(cfg, s, t, e))
  {
    hide Awaits;
    assert Awaits(s, |s.chans|) == 0;
    if e.chan.Abandon? {
      assert Awaiting(s.threads[t], e.chan.w) == 1;
    }
  }

  lemma {:induction false} EmptySums(f: PC -> nat)
    requires f(SweepIdle) == 0
    ensures Sum([SweepIdle], f) == 0
  {
    SumPush([], SweepIdle, f);
    assert [] + [SweepIdle] == [SweepIdle];
  }

  lemma CoreInit(cfg: Config)
    ensures Core(cfg, Init())
  {
    var s := Init();
    EmptySums(Slots);
    forall v: VmId ensures Held(s, v) == 0 {
      EmptySums(Holds(v));
    }
    forall w: WaiterId ensures Tickets(s, w) == 0 && Awaits(s, w) == 0 {
      EmptySums(Keeps(w));
      EmptySums(AwaitsAt(w));
    }
  }

  /** A new request changes nothing that is counted. */
  lemma ArriveKeepsCore(cfg: Config, s: State)
    requires Core(cfg, s)
    ensures Core(cfg, s.(threads := s.threads + [Arrived]))
  {
    var s' := s.(threads := s.threads + [Arrived]);
    SumPush(s.threads, Arrived, Slots);
    forall v: VmId ensures Held(s', v) == Held(s, v) {
      SumPush(s.threads, Arrived, Holds(v));
    }
    forall w: WaiterId ensures Tickets(s', w) == Tickets(s, w) && Awaits(s', w) == Awaits(s, w) {
      SumPush(s.threads, Arrived, Keeps(w));
      SumPush(s.threads, Arrived, AwaitsAt(w));
    }
  }

  lemma WorldKeepsCore(cfg: Config, s: State, gone: set<WaiterId>, procs: set<VmId>)
    requires Core(cfg, s) && procs <= s.procs
    ensures Core(cfg, s.(gone := gone, procs := procs))
  {
    var s' := s.(gone := gone, procs := procs);
    forall v: VmId ensures Held(s', v) == Held(s, v) {
    }
    forall w: WaiterId ensures Tickets(s', w) == Tickets(s, w) && Awaits(s', w) == Awaits(s, w) {
    }
  }

  /** Every step of every goroutine, and of the world, keeps the core invariant. */
  lemma CoreStep(cfg: Config, s: State, l: Label)
    requires Core(cfg, s) && Next(cfg, s, l).Some?
    ensures Core(cfg, Next(cfg, s, l).value)
  {
    hide Exclusive, Solvent, SingleUse, OneReceiver, EffectOf, Apply;
    match l
    case Arrive => ArriveKeepsCore(cfg, s);
    case Disconnect(w) => WorldKeepsCore(cfg, s, s.gone + {w}, s.procs);
    case Dies(v) => WorldKeepsCore(cfg, s, s.gone, s.procs - {v});
    case Step(t, c) =>
      ExclusiveStep(cfg, s, t, c);
      SolventStep(cfg, s, t, c);
      SingleUseStep(cfg, s, t, c);
      OneReceiverStep(cfg, s, t, c);
  }
}
