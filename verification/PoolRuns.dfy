/** What holds along every run of the pool, whatever the interleaving. */
module PoolRuns {
  import opened Options
  import opened Folds
  import opened PoolTypes
  import opened PoolMachine
  import opened PoolAccounting
  import opened PoolInvariant
  import opened PoolHistory
  import opened PoolSafety

  // Bounded waiting.

  /** The step is a lock section of returnVM, discardVM or failWaiters. */
  predicate PopsQueue(s: State, l: Label) {
    l.Step? && l.t < |s.threads|
    && (s.threads[l.t].Returning? || s.threads[l.t].DiscardKilled? || s.threads[l.t].Draining?)
  }

  /** How many such sections a run goes through. */
  function Pops(cfg: Config, s: State, ls: seq<Label>): nat
    requires Run(cfg, s, ls).Some?
    decreases |ls|
  {
    if ls == [] then 0
    else (if PopsQueue(s, ls[0]) then 1 else 0) + Pops(cfg, Next(cfg, s, ls[0]).value, ls[1..])
  }

  lemma QueueStep(cfg: Config, s: State, t: nat, c: Choice)
    requires Core(cfg, s) && t < |s.threads| && EffectOf(cfg, s, s.threads[t], c).Some?
    ensures MovesQueue(s, s.threads[t], EffectOf(cfg, s, s.threads[t], c).value)
  {
    hide Balanced, EffectOf, MovesVm, MovesSlots, MovesTicket, MovesQueue, ClosesSafely;
    ClosesAreSafe(s, t);
    BalancedRest(cfg, s, s.threads[t], c, 0);
  }

  /** Each of the three sections shortens a nonempty queue. In discardVM the capacity guard
      always lets it, because the counter has just gone below the cap. */
  lemma PopsShorten(cfg: Config, s: State, l: Label)
    requires Core(cfg, s) && Next(cfg, s, l).Some? && PopsQueue(s, l) && s.pool.waiting != []
    ensures |Next(cfg, s, l).value.pool.waiting| < |s.pool.waiting|
  {
    PopShortens(s.pool.waiting, s.gone);
  }

  /** A queued waiter keeps its place or moves forward, and moves forward at each section. */
  lemma PlaceAfterStep(cfg: Config, s: State, l: Label, k: nat) returns (k': nat)
    requires Core(cfg, s) && Next(cfg, s, l).Some? && k < |s.pool.waiting|
    requires s.pool.waiting[k] in Next(cfg, s, l).value.pool.waiting
    ensures var q := Next(cfg, s, l).value.pool.waiting; k' < |q| && q[k'] == s.pool.waiting[k]
    ensures k' <= k && (PopsQueue(s, l) ==> k' < k)
  {
    var q, q' := s.pool.waiting, Next(cfg, s, l).value.pool.waiting;
    hide EffectOf;
    if PopsQueue(s, l) {
      PopsShorten(cfg, s, l);
    }
    if l.Step? {
      QueueStep(cfg, s, l.t, l.c);
    }
    if |q'| > |q| || !l.Step? {
      k' := k;
    } else {
      assert IsSuffix(q', q) by { QueueOnlyShrinks(cfg, s, l); }
      var i :| 0 <= i < |q'| && q'[i] == q[k];
      TicketOccursOnce(s, q[k]);
      OnlyPlace(q, k, |q| - |q'| + i);
      k' := i;
    }
  }

  lemma QueueOnlyShrinks(cfg: Config, s: State, l: Label)
    requires Core(cfg, s) && Next(cfg, s, l).Some? && l.Step?
    requires |Next(cfg, s, l).value.pool.waiting| <= |s.pool.waiting|
    ensures IsSuffix(Next(cfg, s, l).value.pool.waiting, s.pool.waiting)
  {
    QueueStep(cfg, s, l.t, l.c);
  }

  lemma TicketOccursOnce(s: State, w: WaiterId)
    requires SingleUse(s)
    ensures Occ(s.pool.waiting, w) <= 1
  {
    assert Tickets(s, w) <= 1;
  }

  lemma {:induction false} OnlyPlace(q: seq<nat>, i: nat, j: nat)
    requires i < |q| && j < |q| && q[i] == q[j] && Occ(q, q[i]) <= 1
    ensures i == j
  {
    if i > 0 && j > 0 {
      OnlyPlace(q[1..], i - 1, j - 1);
    } else if i != j {
      OccHas(q[1..], i + j - 1);
    }
  }

  /** Who has left the queue never comes back. */
  lemma NeverRequeued(cfg: Config, s: State, l: Label, w: WaiterId)
    requires Core(cfg, s) && Next(cfg, s, l).Some? && w < |s.chans| && w !in s.pool.waiting
    ensures var s' := Next(cfg, s, l).value; w !in s'.pool.waiting && w < |s'.chans|
  {
    if l.Step? {
      QueueStep(cfg, s, l.t, l.c);
    }
  }

  lemma {:induction false} NeverRequeuedRun(cfg: Config, s: State, ls: seq<Label>, w: WaiterId)
    requires Inv(cfg, s) && Run(cfg, s, ls).Some? && w < |s.chans| && w !in s.pool.waiting
    ensures w !in Run(cfg, s, ls).value.pool.waiting
    decreases |ls|
  {
    hide Next, Core, Histories;
    if ls != [] {
      InvStep(cfg, s, ls[0]);
      NeverRequeued(cfg, s, ls[0], w);
      NeverRequeuedRun(cfg, Next(cfg, s, ls[0]).value, ls[1..], w);
    }
  }

  lemma QueuedExists(s: State, k: nat)
    requires SingleUse(s) && k < |s.pool.waiting|
    ensures s.pool.waiting[k] < |s.chans|
  {
    OccHas(s.pool.waiting, k);
    assert Tickets(s, s.pool.waiting[k]) > 0;
  }

  /** Bounded waiting: on every interleaving, a request with k others ahead of it has left
      the queue once k + 1 of these sections have run. */
  lemma {:induction false} BoundedWaiting(cfg: Config, s: State, ls: seq<Label>, k: nat)
    requires Inv(cfg, s) && Run(cfg, s, ls).Some?
    requires k < |s.pool.waiting| && Pops(cfg, s, ls) > k
    ensures s.pool.waiting[k] !in Run(cfg, s, ls).value.pool.waiting
    decreases |ls|
  {
    hide Next, Histories, Exclusive, Solvent, SingleUse, OneReceiver, PopsQueue;
    var w, s' := s.pool.waiting[k], Next(cfg, s, ls[0]).value;
    InvStep(cfg, s, ls[0]);
    if w in s'.pool.waiting {
      var k' := PlaceAfterStep(cfg, s, ls[0], k);
      BoundedWaiting(cfg, s', ls[1..], k');
    } else {
      QueuedExists(s, k);
      ChansGrow(cfg, s, ls[0]);
      NeverRequeuedRun(cfg, s', ls[1..], w);
    }
  }

  lemma ChansGrow(cfg: Config, s: State, l: Label)
    requires Next(cfg, s, l).Some?
    ensures |Next(cfg, s, l).value.chans| >= |s.chans|
  {
  }

  // Killed machines.

  lemma {:induction false} KilledGrows(cfg: Config, s: State, ls: seq<Label>)
    requires Run(cfg, s, ls).Some?
    ensures s.killed <= Run(cfg, s, ls).value.killed
    decreases |ls|
  {
    if ls != [] {
      KilledGrows(cfg, Next(cfg, s, ls[0]).value, ls[1..]);
    }
  }

  // Machines orphaned in an abandoned channel.

  lemma OrphanStays(cfg: Config, s: State, l: Label, w: WaiterId)
    requires Core(cfg, s) && Next(cfg, s, l).Some? && w < |s.chans| && Orphaned(s.chans[w]) == 1
    ensures var s' := Next(cfg, s, l).value; w < |s'.chans| && s'.chans[w] == s.chans[w]
  {
    if l.Step? {
      var op := EffectOf(cfg, s, s.threads[l.t], l.c).value.chan;
      SingleUseOperand(cfg, s, l.t, l.c);
      OperandOf(cfg, s, s.threads[l.t], l.c);
      if op.Take? || op.Abandon? {
        WaitingMeansOpen(s, l.t, op.w);
      }
    }
  }

  lemma {:induction false} OrphansOfPointwise(a: seq<Chan>, b: seq<Chan>)
    requires |a| <= |b|
    requires forall w | 0 <= w < |a| :: Orphaned(a[w]) <= Orphaned(b[w])
    ensures Sum(a, Orphaned) <= Sum(b, Orphaned)
    decreases |b|
  {
    if |a| < |b| {
      OrphansOfPointwise(a, b[..|b| - 1]);
    } else if a != [] {
      OrphansOfPointwise(a[..|a| - 1], b[..|b| - 1]);
    }
  }

  lemma OrphansGrowStep(cfg: Config, s: State, l: Label)
    requires Core(cfg, s) && Next(cfg, s, l).Some?
    ensures Sum(s.chans, Orphaned) <= Sum(Next(cfg, s, l).value.chans, Orphaned)
  {
    ChansGrow(cfg, s, l);
    var s' := Next(cfg, s, l).value;
    forall w | 0 <= w < |s.chans| ensures Orphaned(s.chans[w]) <= Orphaned(s'.chans[w]) {
      if Orphaned(s.chans[w]) == 1 {
        OrphanStays(cfg, s, l, w);
      }
    }
    OrphansOfPointwise(s.chans, s'.chans);
  }

  lemma {:induction false} OrphansGrow(cfg: Config, s: State, ls: seq<Label>)
    requires Inv(cfg, s) && Run(cfg, s, ls).Some?
    ensures Sum(s.chans, Orphaned) <= Sum(Run(cfg, s, ls).value.chans, Orphaned)
    decreases |ls|
  {
    hide Next, Core, Histories;
    if ls != [] {
      InvStep(cfg, s, ls[0]);
      OrphansGrowStep(cfg, s, ls[0]);
      OrphansGrow(cfg, Next(cfg, s, ls[0]).value, ls[1..]);
    }
  }

  /** On every continuation an orphaned machine stays in its channel. */
  lemma {:induction false} OrphanStaysRun(cfg: Config, s: State, ls: seq<Label>, w: WaiterId)
    requires Inv(cfg, s) && Run(cfg, s, ls).Some? && w < |s.chans| && Orphaned(s.chans[w]) == 1
    ensures var s' := Run(cfg, s, ls).value; w < |s'.chans| && s'.chans[w] == s.chans[w]
    decreases |ls|
  {
    hide Next, Core, Histories;
    if ls != [] {
      InvStep(cfg, s, ls[0]);
      OrphanStays(cfg, s, ls[0], w);
      OrphanStaysRun(cfg, Next(cfg, s, ls[0]).value, ls[1..], w);
    }
  }

  /** Every machine lost to a cancellation takes a slot of the cap away for good: from then
      on, at most maxVMs minus that many slots serve, boot, wait warm or travel. */
  lemma OrphansCostCapacity(cfg: Config, s: State, ls: seq<Label>)
    requires Reachable(cfg, s) && cfg.maxVMs > 0 && Run(cfg, s, ls).Some?
    ensures var s' := Run(cfg, s, ls).value;
            Sum(s'.threads, Booting) + Sum(s'.threads, Busy) + Sum(s'.threads, Carried) + |s'.pool.warm|
            + Sum(s.chans, Orphaned) <= cfg.maxVMs
  {
    ReachableInv(cfg, s);
    OrphansGrow(cfg, s, ls);
    InvRun(cfg, s, ls);
    var s' := Run(cfg, s, ls).value;
    SlotsByPlace(s'.threads);
    ChansByPlace(s'.chans);
  }

  /** Once as many machines are orphaned as the cap allows, the pool never serves again. */
  lemma OrphanedPoolIsDead(cfg: Config, s: State, ls: seq<Label>, t: nat)
    requires Reachable(cfg, s) && cfg.maxVMs > 0 && Run(cfg, s, ls).Some?
    requires Sum(s.chans, Orphaned) == cfg.maxVMs && t < |Run(cfg, s, ls).value.threads|
    ensures !Run(cfg, s, ls).value.threads[t].Serving?
  {
    OrphansCostCapacity(cfg, s, ls);
    SumHas(Run(cfg, s, ls).value.threads, t, Busy);
  }

  // The kill-because-full branches.

  predicate Surplus(pc: PC) {
    pc.KillingSurplus? || pc.SurplusKilled? || pc.SweepPutKill? || pc.SweepPutDec?
  }

  ghost predicate NoSurplus(s: State) {
    forall t | 0 <= t < |s.threads| :: !Surplus(s.threads[t])
  }

  lemma NoSurplusNext(cfg: Config, s: State, pc: PC, c: Choice)
    requires EffectOf(cfg, s, pc, c).Some? && !Surplus(pc)
    requires pc.Pushing? || (pc.SweepPut? && pc.live != []) ==> |s.pool.warm| < cfg.warmPoolSize
    ensures !Surplus(EffectOf(cfg, s, pc, c).value.next)
    ensures !Surplus(Forked(EffectOf(cfg, s, pc, c).value.fork))
  {
  }

  lemma NoSurplusStep(cfg: Config, s: State, l: Label)
    requires Core(cfg, s) && NoSurplus(s) && 0 < cfg.maxVMs <= cfg.warmPoolSize && Next(cfg, s, l).Some?
    ensures NoSurplus(Next(cfg, s, l).value)
  {
    if l.Step? {
      SumHas(s.threads, l.t, Slots);
      NoSurplusNext(cfg, s, s.threads[l.t], l.c);
      hide EffectOf;
      var s' := Next(cfg, s, l).value;
      forall u | 0 <= u < |s'.threads| ensures !Surplus(s'.threads[u]) {
        if u < |s.threads| && u != l.t {
          assert s'.threads[u] == s.threads[u];
        }
      }
    }
  }

  /** With 0 < maxVMs <= warmPoolSize the warm channel always has room for a machine that
      comes back, so neither returnVM nor the sweeper ever kills one because it is full. */
  lemma {:induction false} NeverKillsBecauseFull(cfg: Config, s: State, ls: seq<Label>)
    requires Inv(cfg, s) && NoSurplus(s) && 0 < cfg.maxVMs <= cfg.warmPoolSize && Run(cfg, s, ls).Some?
    ensures NoSurplus(Run(cfg, s, ls).value)
    decreases |ls|
  {
    hide Next, Core, Histories, NoSurplus;
    if ls != [] {
      InvStep(cfg, s, ls[0]);
      NoSurplusStep(cfg, s, ls[0]);
      NeverKillsBecauseFull(cfg, Next(cfg, s, ls[0]).value, ls[1..]);
    }
  }

  lemma ReachableNeverKillsBecauseFull(cfg: Config, s: State)
    requires Reachable(cfg, s) && 0 < cfg.maxVMs <= cfg.warmPoolSize
    ensures NoSurplus(s)
  {
    var ls: seq<Label> :| Run(cfg, Init(), ls) == Some(s);
    InvInit(cfg);
    NeverKillsBecauseFull(cfg, Init(), ls);
  }
}
