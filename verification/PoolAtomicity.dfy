/** The operations of PoolOps are runs of the step machine in which one goroutine is not
    interrupted. */
module PoolAtomicity {
  import opened Options
  import opened Folds
  import opened PoolTypes
  import opened PoolMachine
  import opened PoolAccounting
  import opened PoolInvariant
  import opened PoolHistory
  import opened PoolScenarios
  import PoolOps

  ghost predicate At(s: State, t: nat, pc: PC) {
    t < |s.threads| && s.threads[t] == pc
  }

  /** A goroutine that is about to return a machine, give back a discarded machine's slot or
      undo a failed boot has a slot besides those of the warm machines. */
  lemma HolderHasASlot(cfg: Config, s: State, t: nat)
    requires Core(cfg, s) && t < |s.threads|
    requires s.threads[t].Returning? || s.threads[t].DiscardKilled? || s.threads[t].BootUndo?
    ensures PoolOps.SlotInUse(s.pool)
  {
    SumHas(s.threads, t, Slots);
  }

  /** Invoke's admission, from the unlocked receive on. */
  lemma AdmissionIsARun(cfg: Config, s: State, t: nat) returns (n: nat)
    requires t < |s.threads| && s.threads[t].Arrived?
    ensures Run(cfg, s, Alone(t, n)).Some?
    ensures var s', (p, a) := Run(cfg, s, Alone(t, n)).value, PoolOps.Arrive(cfg, s.pool, |s.chans|);
            && s'.pool == p
            && (a.Reuse? ==> At(s', t, Serving(a.v, Warm, 0)))
            && (a.Boot? ==> At(s', t, BootCheck(ForRequest)))
            && (a.Queue? ==> At(s', t, Waiting(a.w)) && s'.chans == s.chans + [NO_CHAN])
  {
    var s1 := Next(cfg, s, Step(t, Go)).value;
    AloneOnce(cfg, t, s, s1);
    if s.pool.warm != [] {
      n := 1;
    } else {
      var s2 := Next(cfg, s1, Step(t, Go)).value;
      AloneOnce(cfg, t, s1, s2);
      AloneThen(cfg, t, s, 1, s1, 1, s2);
      n := 2;
    }
  }

  /** The run ends with what the operation as one step leaves. */
  ghost predicate Returned(cfg: Config, s: State, t: nat, s': State)
    requires t < |s.threads| && s.threads[t].Returning?
  {
    var v, (p, r) := s.threads[t].v, PoolOps.Return(cfg, s.pool, s.threads[t].v, s.gone);
    && s'.pool == p && At(s', t, Finished)
    && (r.HandedTo? ==> r.w < |s'.chans| && s'.chans[r.w].buffer == Full(v))
    && (!r.HandedTo? ==> s'.chans == s.chans)
    && (r.Surplus? ==> v in s'.killed)
  }

  lemma HandsOver(cfg: Config, s: State, t: nat, s1: State) returns (n: nat)
    requires Inv(cfg, s1) && t < |s.threads| && s.threads[t].Returning? && FirstLive(s.pool.waiting, s.gone).Some?
    requires s1.pool == s.pool.(waiting := AfterFirstLive(s.pool.waiting, s.gone))
    requires At(s1, t, Handing(s.threads[t].v, FirstLive(s.pool.waiting, s.gone).value))
    ensures Run(cfg, s1, Alone(t, n)).Some? && Returned(cfg, s, t, Run(cfg, s1, Alone(t, n)).value)
  {
    hide Inv, Next, Run, Alone, FirstLive, AfterFirstLive;
    n := HandIsARun(cfg, s1, t, s.threads[t].v, FirstLive(s.pool.waiting, s.gone).value);
  }

  lemma KeepsOrKills(cfg: Config, s: State, t: nat, s1: State) returns (n: nat)
    requires t < |s.threads| && s.threads[t].Returning? && FirstLive(s.pool.waiting, s.gone).None?
    requires s1.pool == s.pool.(waiting := AfterFirstLive(s.pool.waiting, s.gone)) && s1.chans == s.chans
    requires At(s1, t, Pushing(s.threads[t].v))
    ensures Run(cfg, s1, Alone(t, n)).Some? && Returned(cfg, s, t, Run(cfg, s1, Alone(t, n)).value)
  {
    hide Next, Run, Alone, FirstLive, AfterFirstLive;
    n := PushIsARun(cfg, s1, t, s.threads[t].v);
  }

  /** returnVM, from its lock section to its end: the pool changes as PoolOps says, a machine
      handed over is in the waiter's channel, and otherwise no channel is touched. */
  lemma ReturnIsARun(cfg: Config, s: State, t: nat) returns (n: nat)
    requires Inv(cfg, s) && t < |s.threads| && s.threads[t].Returning?
    ensures PoolOps.SlotInUse(s.pool)
    ensures Run(cfg, s, Alone(t, n)).Some? && Returned(cfg, s, t, Run(cfg, s, Alone(t, n)).value)
  {
    HolderHasASlot(cfg, s, t);
    hide Inv, Next, Run, Alone, FirstLive, AfterFirstLive, Returned;
    ReturnSectionStep(cfg, s, t);
    var s1 := Next(cfg, s, Step(t, Go)).value;
    AloneOnce(cfg, t, s, s1);
    InvStep(cfg, s, Step(t, Go));
    if FirstLive(s.pool.waiting, s.gone).Some? {
      n := HandsOver(cfg, s, t, s1);
    } else {
      n := KeepsOrKills(cfg, s, t, s1);
    }
    AloneThen(cfg, t, s, 1, s1, n, Run(cfg, s1, Alone(t, n)).value);
    n := 1 + n;
  }

  lemma ReturnSectionStep(cfg: Config, s: State, t: nat)
    requires t < |s.threads| && s.threads[t].Returning?
    ensures Next(cfg, s, Step(t, Go)).Some?
    ensures Next(cfg, s, Step(t, Go)).value.chans == s.chans
    ensures var s1, first := Next(cfg, s, Step(t, Go)).value, FirstLive(s.pool.waiting, s.gone);
            && s1.pool == s.pool.(waiting := AfterFirstLive(s.pool.waiting, s.gone))
            && At(s1, t, if first.Some? then Handing(s.threads[t].v, first.value) else Pushing(s.threads[t].v))
  {
  }

  lemma HandIsARun(cfg: Config, s: State, t: nat, v: VmId, w: WaiterId) returns (n: nat)
    requires Inv(cfg, s) && t < |s.threads| && s.threads[t] == Handing(v, w)
    ensures Run(cfg, s, Alone(t, n)).Some?
    ensures var s' := Run(cfg, s, Alone(t, n)).value;
            s'.pool == s.pool && At(s', t, Finished) && w < |s'.chans| && s'.chans[w].buffer == Full(v)
  {
    TicketMeansUnused(s, t, w);
    n := 1;
    AloneOnce(cfg, t, s, Next(cfg, s, Step(t, Go)).value);
  }

  lemma PushIsARun(cfg: Config, s: State, t: nat, v: VmId) returns (n: nat)
    requires t < |s.threads| && s.threads[t] == Pushing(v)
    ensures Run(cfg, s, Alone(t, n)).Some?
    ensures var s' := Run(cfg, s, Alone(t, n)).value;
            && At(s', t, Finished) && s'.chans == s.chans
            && s'.pool == (if |s.pool.warm| < cfg.warmPoolSize then s.pool.(warm := s.pool.warm + [v])
                           else s.pool.(booted := s.pool.booted - 1))
            && (|s.pool.warm| >= cfg.warmPoolSize ==> v in s'.killed)
  {
    var s1 := Next(cfg, s, Step(t, Go)).value;
    AloneOnce(cfg, t, s, s1);
    if |s.pool.warm| < cfg.warmPoolSize {
      n := 1;
    } else {
      assert s1.threads[t] == KillingSurplus(v);
      var s2 := Next(cfg, s1, Step(t, Go)).value;
      AloneOnce(cfg, t, s1, s2);
      assert s2.threads[t] == SurplusKilled;
      var s3 := Next(cfg, s2, Step(t, Go)).value;
      AloneOnce(cfg, t, s2, s3);
      AloneThen(cfg, t, s, 1, s1, 1, s2);
      AloneThen(cfg, t, s, 2, s2, 1, s3);
      n := 3;
    }
  }

  /** discardVM's lock part is one step; the reserved slot belongs to a goroutine that boots
      a replacement for the popped waiter. */
  lemma DiscardIsAStep(cfg: Config, s: State, t: nat)
    requires Inv(cfg, s) && t < |s.threads| && s.threads[t].DiscardKilled?
    ensures PoolOps.SlotInUse(s.pool) && Next(cfg, s, Step(t, Go)).Some?
    ensures var s', (p, w) := Next(cfg, s, Step(t, Go)).value, PoolOps.Discard(cfg, s.pool, s.gone);
            && s'.pool == p
            && s'.threads == s.threads[t := Finished] + (if w.Some? then [BootCheck(ForWaiter(w.value))] else [])
  {
    HolderHasASlot(cfg, s, t);
    hide Inv, FirstLive, AfterFirstLive;
  }

  ghost predicate AllClosed(s: State, ws: seq<WaiterId>) {
    forall i | 0 <= i < |ws| :: ws[i] < |s.chans| && s.chans[ws[i]].buffer.Closed?
  }

  lemma CloseOne(cfg: Config, s: State, t: nat, done: seq<WaiterId>, ws: seq<WaiterId>)
    requires Inv(cfg, s) && At(s, t, Closing(ws)) && AllClosed(s, done) && ws != []
    ensures Next(cfg, s, Step(t, Go)).Some?
    ensures var s1 := Next(cfg, s, Step(t, Go)).value;
            s1.pool == s.pool && At(s1, t, Closing(ws[1..])) && AllClosed(s1, done + [ws[0]])
  {
    hide Inv;
    assert ws[0] < |s.chans| by {
      TicketInRange(cfg, s, t, ws[0]);
    }
  }

  lemma TicketInRange(cfg: Config, s: State, t: nat, w: WaiterId)
    requires Inv(cfg, s) && t < |s.threads| && Ticket(s.threads[t], w) > 0
    ensures w < |s.chans|
  {
    TicketMeansUnused(s, t, w);
  }

  /** failWaiters' loop closes every channel it took, in as many steps. */
  lemma {:induction false} CloseAll(cfg: Config, s: State, t: nat, done: seq<WaiterId>, ws: seq<WaiterId>)
    requires Inv(cfg, s) && At(s, t, Closing(ws)) && AllClosed(s, done)
    ensures Run(cfg, s, Alone(t, |ws| + 1)).Some?
    ensures var s' := Run(cfg, s, Alone(t, |ws| + 1)).value;
            s'.pool == s.pool && At(s', t, Finished) && AllClosed(s', done + ws)
    decreases |ws|
  {
    hide Inv, Next, Run, Alone, AllClosed;
    if ws == [] {
      assert done + ws == done;
      CloseNone(cfg, s, t, done);
    } else {
      CloseOne(cfg, s, t, done, ws);
      var s1 := Next(cfg, s, Step(t, Go)).value;
      AloneOnce(cfg, t, s, s1);
      InvStep(cfg, s, Step(t, Go));
      CloseAll(cfg, s1, t, done + [ws[0]], ws[1..]);
      assert (done + [ws[0]]) + ws[1..] == done + ws;
      AloneThen(cfg, t, s, 1, s1, |ws|, Run(cfg, s1, Alone(t, |ws|)).value);
    }
  }

  lemma CloseNone(cfg: Config, s: State, t: nat, done: seq<WaiterId>)
    requires At(s, t, Closing([])) && AllClosed(s, done)
    ensures Run(cfg, s, Alone(t, 1)) == Some(s.(threads := s.threads[t := Finished]))
    ensures AllClosed(s.(threads := s.threads[t := Finished]), done)
  {
    assert s.threads[t := Finished] + [] == s.threads[t := Finished];
    AloneOnce(cfg, t, s, s.(threads := s.threads[t := Finished]));
  }

  lemma UndoAndDrain(cfg: Config, s: State, t: nat)
    requires At(s, t, BootUndo)
    ensures Next(cfg, s, Step(t, Go)).Some? && Next(cfg, Next(cfg, s, Step(t, Go)).value, Step(t, Go)).Some?
    ensures var s2 := Next(cfg, Next(cfg, s, Step(t, Go)).value, Step(t, Go)).value;
            && s2.pool == PoolOps.FailBoot(s.pool).0 && At(s2, t, Closing(s.pool.waiting))
            && s2.chans == s.chans
  {
    var s1 := Next(cfg, s, Step(t, Go)).value;
    assert At(s1, t, Draining);
  }

  /** From BootUndo on, when the channels in done are closed already. */
  lemma UndoIsARun(cfg: Config, s: State, t: nat, done: seq<WaiterId>) returns (n: nat)
    requires Inv(cfg, s) && At(s, t, BootUndo) && AllClosed(s, done)
    ensures Run(cfg, s, Alone(t, n)).Some?
    ensures var s', (p, ws) := Run(cfg, s, Alone(t, n)).value, PoolOps.FailBoot(s.pool);
            s'.pool == p && At(s', t, Finished) && AllClosed(s', done + ws)
  {
    UndoAndDrain(cfg, s, t);
    var s1 := Next(cfg, s, Step(t, Go)).value;
    var s2 := Next(cfg, s1, Step(t, Go)).value;
    assert AllClosed(s2, done);
    hide Inv, Next, Run, Alone, AllClosed;
    AloneOnce(cfg, t, s, s1);
    InvStep(cfg, s, Step(t, Go));
    AloneOnce(cfg, t, s1, s2);
    InvStep(cfg, s1, Step(t, Go));
    var ws := s.pool.waiting;
    CloseAll(cfg, s2, t, done, ws);
    AloneThen(cfg, t, s, 1, s1, 1, s2);
    AloneThen(cfg, t, s, 2, s2, |ws| + 1, Run(cfg, s2, Alone(t, |ws| + 1)).value);
    n := 2 + (|ws| + 1);
  }

  /** A request's failed boot and its drain: the slot is given back, the queue is emptied, and
      every channel that was in it is closed. */
  lemma FailedBootIsARun(cfg: Config, s: State, t: nat) returns (n: nat)
    requires Inv(cfg, s) && At(s, t, BootUndo)
    ensures Run(cfg, s, Alone(t, n)).Some?
    ensures var s', (p, ws) := Run(cfg, s, Alone(t, n)).value, PoolOps.FailBoot(s.pool);
            s'.pool == p && At(s', t, Finished) && AllClosed(s', ws)
    ensures PoolOps.SlotInUse(s.pool)
  {
    HolderHasASlot(cfg, s, t);
    n := UndoIsARun(cfg, s, t, []);
    assert [] + s.pool.waiting == s.pool.waiting;
  }

  /** A replacement's failed boot: the popped waiter's channel is closed and every channel that was
      in the queue; the slot is given back, the queue is empty, nothing else of the pool changes. */
  lemma FailedReplacementIsARun(cfg: Config, s: State, t: nat, w: WaiterId) returns (n: nat)
    requires Inv(cfg, s) && At(s, t, CloseFailed(w))
    ensures Run(cfg, s, Alone(t, n)).Some?
    ensures var s' := Run(cfg, s, Alone(t, n)).value;
            && s'.pool == PoolView(s.pool.warm, [], s.pool.booted - 1) && At(s', t, Finished)
            && w < |s'.chans| && s'.chans[w].buffer.Closed?
            && (forall i | 0 <= i < |s.pool.waiting| ::
                  s.pool.waiting[i] < |s'.chans| && s'.chans[s.pool.waiting[i]].buffer.Closed?)
            && (s'.pool, [w] + s.pool.waiting) == PoolOps.FailReplacement(s.pool, w)
            && AllClosed(s', PoolOps.FailReplacement(s.pool, w).1)
    ensures PoolOps.SlotInUse(s.pool)
  {
    ClosesPopped(cfg, s, t, w);
    var s1 := Next(cfg, s, Step(t, Go)).value;
    AloneOnce(cfg, t, s, s1);
    hide Inv, Next, Run, Alone;
    InvStep(cfg, s, Step(t, Go));
    HolderHasASlot(cfg, s1, t);
    n := UndoIsARun(cfg, s1, t, [w]);
    var s' := Run(cfg, s1, Alone(t, n)).value;
    AloneThen(cfg, t, s, 1, s1, n, s');
    n := 1 + n;
    var ws := s.pool.waiting;
    assert ([w] + ws)[0] == w;
    forall i | 0 <= i < |ws| ensures ws[i] < |s'.chans| && s'.chans[ws[i]].buffer.Closed? {
      assert ([w] + ws)[i + 1] == ws[i];
    }
  }

  lemma ClosesPopped(cfg: Config, s: State, t: nat, w: WaiterId)
    requires Inv(cfg, s) && At(s, t, CloseFailed(w))
    ensures Next(cfg, s, Step(t, Go)).Some?
    ensures var s1 := Next(cfg, s, Step(t, Go)).value;
            s1.pool == s.pool && At(s1, t, BootUndo) && AllClosed(s1, [w])
  {
    TicketMeansUnused(s, t, w);
  }

  /** A sweep that nobody interrupts changes the pool as PoolOps says. */
  lemma SweepIsARun(cfg: Config, s: State, t: nat, now: int) returns (n: nat)
    requires Inv(cfg, s) && t < |s.threads| && s.threads[t].SweepIdle?
    ensures Run(cfg, s, [Step(t, Tick(now))] + Alone(t, n)).Some?
    ensures var s' := Run(cfg, s, [Step(t, Tick(now))] + Alone(t, n)).value;
            s'.pool == PoolOps.Sweep(s.pool, s.vms, now).0 && At(s', t, SweepIdle)
  {
    n := UninterruptedSweep(cfg, s, t, now);
  }
}
