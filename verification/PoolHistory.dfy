/** What each machine's invocation records look like over its life. */
module PoolHistory {
  import opened Options
  import opened Folds
  import opened PoolTypes
  import opened PoolMachine
  import opened PoolAccounting
  import opened PoolInvariant

  ghost predicate Clean(vm: VM) {
    forall r | r in vm.history :: !r.infraError
  }

  /** The first record is the machine's own boot, all later ones are warm, and only the
      last may be an error: a machine never serves again after one. */
  ghost predicate HistoryOk(vm: VM) {
    && (vm.history != [] ==> vm.history[0].startType == vm.bootKind && vm.history[0].bootMs == vm.bootMs)
    && (forall i | 0 < i < |vm.history| :: vm.history[i].startType == Warm && vm.history[i].bootMs == 0)
    && (forall i | 0 <= i < |vm.history| - 1 :: !vm.history[i].infraError)
  }

  ghost predicate VmOk(cfg: Config, vm: VM) {
    && vm.functionName == cfg.functionName
    && !vm.bootKind.Warm?
    && (vm.bootKind.Restored? ==> cfg.maxVMs == 1)
    && HistoryOk(vm)
  }

  /** Has served, always well, and may serve again. */
  ghost predicate Settled(vm: VM) {
    !vm.isFresh && vm.history != [] && Clean(vm)
  }

  /** May be given to a queued request. */
  ghost predicate Deliverable(vm: VM) {
    Settled(vm) || (vm.isFresh && vm.history == [])
  }

  /** The start type and boot time the running invocation is about to record. */
  ghost predicate ServesAs(vm: VM, startType: StartType, bootMs: int) {
    && !vm.isFresh && Clean(vm)
    && (vm.history == [] ==> startType == vm.bootKind && bootMs == vm.bootMs)
    && (vm.history != [] ==> startType == Warm && bootMs == 0)
  }

  ghost predicate AllSettled(vms: seq<VM>, vs: seq<VmId>) {
    forall i | 0 <= i < |vs| :: Settled(Look(vms, vs[i]))
  }

  /** What a goroutine knows about the machines it holds. */
  ghost predicate KnowsItsVms(cfg: Config, vms: seq<VM>, pc: PC) {
    match pc
    case Serving(v, startType, bootMs) => ServesAs(Look(vms, v), startType, bootMs)
    case Returning(v) => Settled(Look(vms, v))
    case Pushing(v) => Settled(Look(vms, v))
    case Handing(v, _) => Deliverable(Look(vms, v))
    case RestoreSpawn(_) => cfg.maxVMs == 1
    case RestoreWait(_, v) => cfg.maxVMs == 1 && Look(vms, v).history == []
    case ColdWait(_, v) => Look(vms, v).history == []
    case SweepScan(_, live) => AllSettled(vms, live)
    case SweepKill(_, live, _) => AllSettled(vms, live)
    case SweepDec(_, live) => AllSettled(vms, live)
    case SweepPut(live) => AllSettled(vms, live)
    case SweepPutKill(live, _) => AllSettled(vms, live)
    case SweepPutDec(live) => AllSettled(vms, live)
    case _ => true
  }

  ghost predicate ChanOk(vms: seq<VM>, ch: Chan) {
    ch.buffer.Full? ==> Deliverable(Look(vms, ch.buffer.v))
  }

  ghost predicate Histories(cfg: Config, s: State) {
    && (forall v | 0 <= v < |s.vms| :: VmOk(cfg, s.vms[v]))
    && (forall t | 0 <= t < |s.threads| :: KnowsItsVms(cfg, s.vms, s.threads[t]))
    && AllSettled(s.vms, s.pool.warm)
    && (forall w | 0 <= w < |s.chans| :: ChanOk(s.vms, s.chans[w]))
  }

  /** The machine whose record a step may change: it ends up with the stepping goroutine. */
  function Changed(s: State, op: VmOp): Option<VmId> {
    match op
    case Spawn => Some(|s.vms|)
    case Update(v, _) => Some(v)
    case _ => None
  }

  lemma ChangedIsHeld(cfg: Config, s: State, pc: PC, c: Choice)
    requires EffectOf(cfg, s, pc, c).Some?
    ensures var e := EffectOf(cfg, s, pc, c).value;
            var ch := Changed(s, e.vm);
            ch.Some? ==> Holding(e.next, ch.value) > 0
  {
  }

  lemma OthersUnchanged(cfg: Config, s: State, op: VmOp, v: VmId)
    requires Changed(s, op) != Some(v)
    ensures Look(ApplyVms(cfg, s.vms, op), v) == Look(s.vms, v)
  {
  }

  lemma {:induction false} OccHas(q: seq<nat>, i: nat)
    requires i < |q|
    ensures Occ(q, q[i]) > 0
  {
    if i > 0 {
      OccHas(q[1..], i - 1);
    }
  }

  lemma AllSettledFrame(vms: seq<VM>, vms': seq<VM>, vs: seq<VmId>)
    requires AllSettled(vms, vs)
    requires forall v: VmId | Occ(vs, v) > 0 :: Look(vms', v) == Look(vms, v)
    ensures AllSettled(vms', vs)
  {
    forall i | 0 <= i < |vs| ensures Settled(Look(vms', vs[i])) {
      OccHas(vs, i);
    }
  }

  lemma KnowsFrame(cfg: Config, vms: seq<VM>, vms': seq<VM>, pc: PC)
    requires KnowsItsVms(cfg, vms, pc)
    requires forall v: VmId | Holding(pc, v) > 0 :: Look(vms', v) == Look(vms, v)
    ensures KnowsItsVms(cfg, vms', pc)
  {
    match pc
    case SweepScan(_, live) => AllSettledFrame(vms, vms', live);
    case SweepKill(_, live, _) => AllSettledFrame(vms, vms', live);
    case SweepDec(_, live) => AllSettledFrame(vms, vms', live);
    case SweepPut(live) => AllSettledFrame(vms, vms', live);
    case SweepPutKill(live, _) => AllSettledFrame(vms, vms', live);
    case SweepPutDec(live) => AllSettledFrame(vms, vms', live);
    case Serving(v, _, _) => assert Holding(pc, v) > 0;
    case Returning(v) => assert Holding(pc, v) > 0;
    case Pushing(v) => assert Holding(pc, v) > 0;
    case Handing(v, _) => assert Holding(pc, v) > 0;
    case RestoreWait(_, v) => assert Holding(pc, v) > 0;
    case ColdWait(_, v) => assert Holding(pc, v) > 0;
    case _ =>
  }

  // Machines that are somewhere exist.

  lemma ThreadHolds(s: State, t: nat, v: VmId)
    requires t < |s.threads|
    ensures Holding(s.threads[t], v) <= Held(s, v)
  {
    SumHas(s.threads, t, Holds(v));
    assert Holds(v)(s.threads[t]) == Holding(s.threads[t], v);
  }

  lemma WarmHolds(s: State, i: nat)
    requires i < |s.pool.warm|
    ensures Held(s, s.pool.warm[i]) > 0
  {
    OccHas(s.pool.warm, i);
  }

  lemma ChanHolds(s: State, w: WaiterId, v: VmId)
    requires w < |s.chans|
    ensures Buffered(s.chans[w], v) <= Held(s, v)
  {
    SumHas(s.chans, w, Buffers(v));
    assert Buffers(v)(s.chans[w]) == Buffered(s.chans[w], v);
  }

  /** The local obligations of a step: what the goroutine knows afterwards, what it has put
      into the warm channel or into a waiter's channel, and the record it has changed. */
  ghost predicate KeepsHistories(cfg: Config, s: State, e: Effect) {
    && KnowsItsVms(cfg, ApplyVms(cfg, s.vms, e.vm), e.next)
    && KnowsItsVms(cfg, s.vms, Forked(e.fork))
    && AllSettled(s.vms, e.pool.warm)
    && (e.chan.Send? ==> Deliverable(VmAt(s, e.chan.v)))
    && (e.vm.Update? ==> e.vm.v < |s.vms| && VmOk(cfg, e.vm.vm))
  }

  lemma TakeWarmHistory(cfg: Config, s: State)
    requires Core(cfg, s) && Histories(cfg, s) && s.pool.warm != []
    ensures KeepsHistories(cfg, s, TakeWarm(s))
  {
    WarmHolds(s, 0);
    assert Settled(VmAt(s, s.pool.warm[0]));
    assert AllSettled(s.vms, s.pool.warm[1..]);
  }

  lemma ReceiveHistory(cfg: Config, s: State, w: WaiterId)
    requires Core(cfg, s) && Histories(cfg, s) && w < |s.chans| && ReceiveFrom(s, w).Some?
    ensures KeepsHistories(cfg, s, ReceiveFrom(s, w).value)
  {
    if s.chans[w].buffer.Full? {
      var v := s.chans[w].buffer.v;
      ChanHolds(s, w, v);
      assert Held(s, v) > 0;
      assert ChanOk(s.vms, s.chans[w]);
    }
  }

  lemma EmitHistory(cfg: Config, vm: VM, startType: StartType, bootMs: int, infraError: bool, lastUsed: int)
    requires VmOk(cfg, vm) && ServesAs(vm, startType, bootMs)
    ensures var vm' := vm.(history := vm.history + [Record(startType, bootMs, infraError)], lastUsed := lastUsed);
            VmOk(cfg, vm') && (!infraError ==> Settled(vm'))
  {
  }

  lemma FinishHistory(cfg: Config, s: State, t: nat, c: Choice)
    requires Core(cfg, s) && Histories(cfg, s) && t < |s.threads| && s.threads[t].Serving?
    requires Finish(s, s.threads[t], c).Some?
    ensures KeepsHistories(cfg, s, Finish(s, s.threads[t], c).value)
  {
    var pc := s.threads[t];
    ThreadHolds(s, t, pc.v);
    assert Held(s, pc.v) > 0;
    assert KnowsItsVms(cfg, s.vms, pc);
    var vm := s.vms[pc.v];
    assert VmOk(cfg, vm);
    if c.Replied? {
      EmitHistory(cfg, vm, pc.startType, pc.bootMs, false, c.now);
    } else {
      EmitHistory(cfg, vm, pc.startType, pc.bootMs, true, vm.lastUsed);
    }
  }

  lemma RequestHistory(cfg: Config, s: State, t: nat, c: Choice)
    requires Core(cfg, s) && Histories(cfg, s) && t < |s.threads|
    requires var pc := s.threads[t]; pc.Arrived? || pc.MissedWarm? || pc.Waiting? || pc.Serving?
    requires EffectOf(cfg, s, s.threads[t], c).Some?
    ensures KeepsHistories(cfg, s, EffectOf(cfg, s, s.threads[t], c).value)
  {
    hide Core;
    match s.threads[t]
    case Arrived => if s.pool.warm != [] { TakeWarmHistory(cfg, s); }
    case MissedWarm => if s.pool.warm != [] { TakeWarmHistory(cfg, s); }
    case Waiting(w) =>
      assert w < |s.chans| by {
        assert Core(cfg, s);
        WaitingInRange(cfg, s, t);
      }
      if c.Receive? { ReceiveHistory(cfg, s, w); }
    case Serving(_, _, _) => FinishHistory(cfg, s, t, c);
  }

  lemma WaitingInRange(cfg: Config, s: State, t: nat)
    requires Core(cfg, s) && t < |s.threads| && s.threads[t].Waiting?
    ensures s.threads[t].w < |s.chans|
  {
    WaitingMeansOpen(s, t, s.threads[t].w);
  }

  lemma ReleaseHistory(cfg: Config, s: State, t: nat, c: Choice)
    requires Histories(cfg, s) && t < |s.threads|
    requires var pc := s.threads[t];
             pc.Returning? || pc.Handing? || pc.Pushing? || pc.KillingSurplus? || pc.SurplusKilled?
             || pc.Discarding? || pc.DiscardKilled?
    requires EffectOf(cfg, s, s.threads[t], c).Some?
    ensures KeepsHistories(cfg, s, EffectOf(cfg, s, s.threads[t], c).value)
  {
    assert KnowsItsVms(cfg, s.vms, s.threads[t]);
  }

  lemma StartBootHistory(cfg: Config, s: State, t: nat, c: Choice)
    requires Histories(cfg, s) && t < |s.threads|
    requires s.threads[t].BootCheck? || s.threads[t].RestoreSpawn? || s.threads[t].ColdSpawn?
    requires EffectOf(cfg, s, s.threads[t], c).Some?
    ensures KeepsHistories(cfg, s, EffectOf(cfg, s, s.threads[t], c).value)
  {
    assert KnowsItsVms(cfg, s.vms, s.threads[t]);
  }

  lemma EndBootHistory(cfg: Config, s: State, t: nat, c: Choice)
    requires Core(cfg, s) && Histories(cfg, s) && t < |s.threads|
    requires s.threads[t].RestoreWait? || s.threads[t].ColdWait?
    requires EffectOf(cfg, s, s.threads[t], c).Some?
    ensures KeepsHistories(cfg, s, EffectOf(cfg, s, s.threads[t], c).value)
  {
    var pc := s.threads[t];
    assert KnowsItsVms(cfg, s.vms, pc);
    ThreadHolds(s, t, pc.v);
    assert pc.v < |s.vms| by {
      assert Held(s, pc.v) > 0;
    }
    hide Core;
    assert VmOk(cfg, s.vms[pc.v]);
    if pc.RestoreWait? {
    } else {
    }
  }

  lemma FailHistory(cfg: Config, s: State, t: nat, c: Choice)
    requires Histories(cfg, s) && t < |s.threads|
    requires var pc := s.threads[t];
             pc.CloseFailed? || pc.BootUndo? || pc.Draining? || pc.Closing? || pc.Finished?
    requires EffectOf(cfg, s, s.threads[t], c).Some?
    ensures KeepsHistories(cfg, s, EffectOf(cfg, s, s.threads[t], c).value)
  {
  }

  lemma SweepHistory(cfg: Config, s: State, t: nat, c: Choice)
    requires Histories(cfg, s) && t < |s.threads|
    requires var pc := s.threads[t];
             pc.SweepIdle? || pc.SweepScan? || pc.SweepKill? || pc.SweepDec? || pc.SweepPut?
             || pc.SweepPutKill? || pc.SweepPutDec?
    requires EffectOf(cfg, s, s.threads[t], c).Some?
    ensures KeepsHistories(cfg, s, EffectOf(cfg, s, s.threads[t], c).value)
  {
    var pc := s.threads[t];
    assert KnowsItsVms(cfg, s.vms, pc);
    if pc.SweepScan? {
      ScanHistory(cfg, s, pc);
    } else if pc.SweepPut? {
      PutHistory(cfg, s, pc);
    }
  }

  lemma ScanHistory(cfg: Config, s: State, pc: PC)
    requires Histories(cfg, s) && pc.SweepScan? && AllSettled(s.vms, pc.live)
    ensures KeepsHistories(cfg, s, Scan(s, pc.now, pc.live))
  {
  }

  lemma PutHistory(cfg: Config, s: State, pc: PC)
    requires Histories(cfg, s) && pc.SweepPut? && AllSettled(s.vms, pc.live)
    ensures KeepsHistories(cfg, s, PutBack(cfg, s, pc.live))
  {
  }

  lemma LocalHistory(cfg: Config, s: State, t: nat, c: Choice)
    requires Core(cfg, s) && Histories(cfg, s) && t < |s.threads|
    requires EffectOf(cfg, s, s.threads[t], c).Some?
    ensures KeepsHistories(cfg, s, EffectOf(cfg, s, s.threads[t], c).value)
  {
    hide Core, Histories, EffectOf, KeepsHistories;
    var pc := s.threads[t];
    if pc.Arrived? || pc.MissedWarm? || pc.Waiting? || pc.Serving? {
      RequestHistory(cfg, s, t, c);
    } else if pc.Returning? || pc.Handing? || pc.Pushing? || pc.KillingSurplus? || pc.SurplusKilled?
              || pc.Discarding? || pc.DiscardKilled? {
      ReleaseHistory(cfg, s, t, c);
    } else if pc.BootCheck? || pc.RestoreSpawn? || pc.ColdSpawn? {
      StartBootHistory(cfg, s, t, c);
    } else if pc.RestoreWait? || pc.ColdWait? {
      EndBootHistory(cfg, s, t, c);
    } else if pc.CloseFailed? || pc.BootUndo? || pc.Draining? || pc.Closing? || pc.Finished? {
      FailHistory(cfg, s, t, c);
    } else {
      SweepHistory(cfg, s, t, c);
    }
  }

  // Whatever the stepping goroutine holds after its step, nobody else does.

  lemma OnlyThread(s: State, t: nat, u: nat, v: VmId)
    requires Exclusive(s) && t < |s.threads| && u < |s.threads| && t != u && Holding(s.threads[t], v) > 0
    ensures Holding(s.threads[u], v) == 0
  {
    SumHasBoth(s.threads, if t < u then t else u, if t < u then u else t, Holds(v));
    assert Holds(v)(s.threads[t]) == Holding(s.threads[t], v);
    assert Holds(v)(s.threads[u]) == Holding(s.threads[u], v);
    assert Held(s, v) <= 1;
  }

  lemma NotElsewhere(s: State, t: nat, v: VmId)
    requires Exclusive(s) && t < |s.threads| && Holding(s.threads[t], v) > 0
    ensures Occ(s.pool.warm, v) == 0
    ensures forall w | 0 <= w < |s.chans| :: Buffered(s.chans[w], v) == 0
  {
    SumHas(s.threads, t, Holds(v));
    assert Holds(v)(s.threads[t]) == Holding(s.threads[t], v);
    assert Held(s, v) <= 1;
    forall w | 0 <= w < |s.chans| ensures Buffered(s.chans[w], v) == 0 {
      SumHas(s.chans, w, Buffers(v));
      assert Buffers(v)(s.chans[w]) == Buffered(s.chans[w], v);
    }
  }

  lemma OtherThreadsKnow(cfg: Config, s: State, t: nat, e: Effect, u: nat)
    requires t < |s.threads| && Exclusive(Apply(cfg, s, t, e))
    requires u < |Apply(cfg, s, t, e).threads| && u != t
    requires KnowsItsVms(cfg, s.vms, Apply(cfg, s, t, e).threads[u])
    requires Changed(s, e.vm).Some? ==> Holding(e.next, Changed(s, e.vm).value) > 0
    ensures KnowsItsVms(cfg, ApplyVms(cfg, s.vms, e.vm), Apply(cfg, s, t, e).threads[u])
  {
    var s' := Apply(cfg, s, t, e);
    var pc := s'.threads[u];
    forall v: VmId | Holding(pc, v) > 0
      ensures Look(ApplyVms(cfg, s.vms, e.vm), v) == Look(s.vms, v)
    {
      if Changed(s, e.vm) == Some(v) {
        assert s'.threads[t] == e.next;
        OnlyThread(s', t, u, v);
      }
      OthersUnchanged(cfg, s, e.vm, v);
    }
    KnowsFrame(cfg, s.vms, ApplyVms(cfg, s.vms, e.vm), pc);
  }

  lemma ThreadsKnow(cfg: Config, s: State, t: nat, e: Effect)
    requires t < |s.threads| && Histories(cfg, s) && Exclusive(Apply(cfg, s, t, e)) && KeepsHistories(cfg, s, e)
    requires Changed(s, e.vm).Some? ==> Holding(e.next, Changed(s, e.vm).value) > 0
    ensures var s' := Apply(cfg, s, t, e);
            forall u | 0 <= u < |s'.threads| :: KnowsItsVms(cfg, s'.vms, s'.threads[u])
  {
    var s' := Apply(cfg, s, t, e);
    forall u | 0 <= u < |s'.threads| ensures KnowsItsVms(cfg, s'.vms, s'.threads[u]) {
      hide KnowsItsVms, Holding, Exclusive;
      if u != t {
        if u < |s.threads| {
          assert s'.threads[u] == s.threads[u];
        } else {
          assert s'.threads[u] == Forked(e.fork);
        }
        OtherThreadsKnow(cfg, s, t, e, u);
      }
    }
  }

  /** The machine whose record changes is neither warm nor in a channel afterwards. */
  lemma ChangedIsNotElsewhere(cfg: Config, s: State, t: nat, e: Effect)
    requires t < |s.threads| && Exclusive(Apply(cfg, s, t, e))
    requires Changed(s, e.vm).Some? ==> Holding(e.next, Changed(s, e.vm).value) > 0
    ensures NotPlaced(Apply(cfg, s, t, e), Changed(s, e.vm))
  {
    hide Holding;
    var s' := Apply(cfg, s, t, e);
    var ch := Changed(s, e.vm);
    assert s'.threads[t] == e.next;
    if ch.Some? {
      NotElsewhere(s', t, ch.value);
    }
  }

  ghost predicate NotPlaced(s: State, v: Option<VmId>) {
    v.Some? ==> Occ(s.pool.warm, v.value) == 0 && forall w | 0 <= w < |s.chans| :: Buffered(s.chans[w], v.value) == 0
  }

  lemma PlacesOk(cfg: Config, s: State, t: nat, e: Effect)
    requires t < |s.threads| && Histories(cfg, s) && KeepsHistories(cfg, s, e)
    requires NotPlaced(Apply(cfg, s, t, e), Changed(s, e.vm)) && ChanFits(s, e.chan)
    ensures var s' := Apply(cfg, s, t, e);
            && AllSettled(s'.vms, s'.pool.warm)
            && (forall w | 0 <= w < |s'.chans| :: ChanOk(s'.vms, s'.chans[w]))
  {
    hide KnowsItsVms, Holding;
    var s' := Apply(cfg, s, t, e);
    var ch := Changed(s, e.vm);
    forall v: VmId | ch != Some(v) ensures Look(s'.vms, v) == Look(s.vms, v) {
      OthersUnchanged(cfg, s, e.vm, v);
    }
    AllSettledFrame(s.vms, s'.vms, s'.pool.warm);
    ChansOk(s, s', e.chan, ch);
  }

  lemma ChansOk(s: State, s': State, op: ChanOp, changed: Option<VmId>)
    requires ChanFits(s, op) && s'.chans == ApplyChan(s.chans, op)
    requires forall w | 0 <= w < |s.chans| :: ChanOk(s.vms, s.chans[w])
    requires op.Send? ==> Deliverable(VmAt(s, op.v))
    requires forall v: VmId | changed != Some(v) :: Look(s'.vms, v) == Look(s.vms, v)
    requires changed.Some? ==> forall w | 0 <= w < |s'.chans| :: Buffered(s'.chans[w], changed.value) == 0
    ensures forall w | 0 <= w < |s'.chans| :: ChanOk(s'.vms, s'.chans[w])
  {
    forall w | 0 <= w < |s'.chans| ensures ChanOk(s'.vms, s'.chans[w]) {
      if s'.chans[w].buffer.Full? {
        var v := s'.chans[w].buffer.v;
        assert Buffered(s'.chans[w], v) == 1;
        assert Look(s'.vms, v) == Look(s.vms, v);
      }
    }
  }

  lemma HistoriesStep(cfg: Config, s: State, t: nat, c: Choice)
    requires Core(cfg, s) && Histories(cfg, s) && t < |s.threads|
    requires EffectOf(cfg, s, s.threads[t], c).Some?
    ensures Histories(cfg, Apply(cfg, s, t, EffectOf(cfg, s, s.threads[t], c).value))
  {
    hide EffectOf, KnowsItsVms, Holding;
    var e := EffectOf(cfg, s, s.threads[t], c).value;
    LocalHistory(cfg, s, t, c);
    ChangedIsHeld(cfg, s, s.threads[t], c);
    ChanFitsStep(cfg, s, t, c);
    ExclusiveStep(cfg, s, t, c);
    ThreadsKnow(cfg, s, t, e);
    ChangedIsNotElsewhere(cfg, s, t, e);
    PlacesOk(cfg, s, t, e);
  }

  ghost predicate Inv(cfg: Config, s: State) {
    Core(cfg, s) && Histories(cfg, s)
  }

  lemma InvStep(cfg: Config, s: State, l: Label)
    requires Inv(cfg, s) && Next(cfg, s, l).Some?
    ensures Inv(cfg, Next(cfg, s, l).value)
  {
    hide Core, EffectOf, Apply;
    CoreStep(cfg, s, l);
    if l.Step? {
      HistoriesStep(cfg, s, l.t, l.c);
    }
  }

  /** Every state of every run satisfies the invariant. */
  lemma {:induction false} InvRun(cfg: Config, s: State, ls: seq<Label>)
    requires Inv(cfg, s) && Run(cfg, s, ls).Some?
    ensures Inv(cfg, Run(cfg, s, ls).value)
    decreases |ls|
  {
    hide Inv, Next;
    if ls != [] {
      InvStep(cfg, s, ls[0]);
      InvRun(cfg, Next(cfg, s, ls[0]).value, ls[1..]);
    }
  }

  lemma InvInit(cfg: Config)
    ensures Inv(cfg, Init())
  {
    CoreInit(cfg);
  }

  /** The states that some interleaving reaches. */
  ghost predicate Reachable(cfg: Config, s: State) {
    exists ls: seq<Label> :: Run(cfg, Init(), ls) == Some(s)
  }

  lemma ReachableInv(cfg: Config, s: State)
    requires Reachable(cfg, s)
    ensures Inv(cfg, s)
  {
    var ls: seq<Label> :| Run(cfg, Init(), ls) == Some(s);
    InvInit(cfg);
    InvRun(cfg, Init(), ls);
  }
}
