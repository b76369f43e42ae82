/** No request is forgotten: as long as its client is there, a queued request either can receive
    its answer or somebody still has to give it one, and whoever has to, can move on. */
module PoolPromises {
  import opened Options
  import opened Folds
  import opened PoolTypes
  import opened PoolMachine
  import opened PoolAccounting
  import opened PoolInvariant
  import opened PoolHistory

  /** A live client's channel has been used, or its ticket still exists. */
  ghost predicate Promised(s: State) {
    forall w: WaiterId | w < |s.chans| && w !in s.gone :: s.chans[w].uses + Tickets(s, w) >= 1
  }

  /** What has been sent or closed for a receiver that is still there, is still there too. */
  ghost predicate Undelivered(s: State) {
    forall w: WaiterId | w < |s.chans| && Awaits(s, w) > 0 :: s.chans[w].uses > 0 ==> !s.chans[w].buffer.Empty?
  }

  lemma PromisedStep(cfg: Config, s: State, t: nat, c: Choice)
    requires Core(cfg, s) && Promised(s) && t < |s.threads| && EffectOf(cfg, s, s.threads[t], c).Some?
    ensures Promised(Apply(cfg, s, t, EffectOf(cfg, s, s.threads[t], c).value))
  {
    var e := EffectOf(cfg, s, s.threads[t], c).value;
    var s' := Apply(cfg, s, t, e);
    SingleUseOperand(cfg, s, t, c);
    hide MovesVm, MovesSlots, MovesTicket, MovesQueue, EffectOf, ClosesSafely, Exclusive, Solvent, OneReceiver, Tickets;
    ClosesAreSafe(s, t);
    forall w: WaiterId | w < |s'.chans| && w !in s'.gone ensures s'.chans[w].uses + Tickets(s', w) >= 1 {
      BalancedRest(cfg, s, s.threads[t], c, w);
      TicketsStep(cfg, s, t, e, w);
    }
  }

  lemma UndeliveredStep(cfg: Config, s: State, t: nat, c: Choice)
    requires Core(cfg, s) && Undelivered(s) && t < |s.threads| && EffectOf(cfg, s, s.threads[t], c).Some?
    ensures Undelivered(Apply(cfg, s, t, EffectOf(cfg, s, s.threads[t], c).value))
  {
    var e := EffectOf(cfg, s, s.threads[t], c).value;
    var s' := Apply(cfg, s, t, e);
    SingleUseOperand(cfg, s, t, c);
    OperandOf(cfg, s, s.threads[t], c);
    if e.chan.Take? {
      WaitingMeansOpen(s, t, e.chan.w);
    }
    hide MovesVm, MovesSlots, MovesTicket, MovesQueue, EffectOf, ClosesSafely, Exclusive, Solvent, SingleUse, Awaits;
    ClosesAreSafe(s, t);
    forall w: WaiterId | w < |s'.chans| && Awaits(s', w) > 0
      ensures s'.chans[w].uses > 0 ==> !s'.chans[w].buffer.Empty?
    {
      BalancedRest(cfg, s, s.threads[t], c, w);
      AwaitsStep(cfg, s, t, e, w);
    }
  }

  lemma StartsPromised(cfg: Config)
    ensures Promised(Init()) && Undelivered(Init())
  {
  }

  lemma WorldKeepsPromises(s: State, s': State)
    requires Promised(s) && Undelivered(s)
    requires s'.chans == s.chans && s'.pool.waiting == s.pool.waiting && s.gone <= s'.gone
    requires s'.threads == s.threads || s'.threads == s.threads + [Arrived]
    ensures Promised(s') && Undelivered(s')
  {
    forall w: WaiterId ensures Tickets(s', w) == Tickets(s, w) && Awaits(s', w) == Awaits(s, w) {
      if s'.threads != s.threads {
        SumPush(s.threads, Arrived, Keeps(w));
        SumPush(s.threads, Arrived, AwaitsAt(w));
      }
    }
  }

  lemma PromisesStep(cfg: Config, s: State, l: Label)
    requires Core(cfg, s) && Promised(s) && Undelivered(s) && Next(cfg, s, l).Some?
    ensures Promised(Next(cfg, s, l).value) && Undelivered(Next(cfg, s, l).value)
  {
    hide Core, Promised, Undelivered, EffectOf, Apply;
    match l
    case Step(t, c) =>
      PromisedStep(cfg, s, t, c);
      UndeliveredStep(cfg, s, t, c);
    case _ => WorldKeepsPromises(s, Next(cfg, s, l).value);
  }

  lemma {:induction false} PromisesRun(cfg: Config, s: State, ls: seq<Label>)
    requires Inv(cfg, s) && Promised(s) && Undelivered(s) && Run(cfg, s, ls).Some?
    ensures Promised(Run(cfg, s, ls).value) && Undelivered(Run(cfg, s, ls).value)
    decreases |ls|
  {
    hide Next, Core, Histories, Promised, Undelivered;
    if ls != [] {
      InvStep(cfg, s, ls[0]);
      PromisesStep(cfg, s, ls[0]);
      PromisesRun(cfg, Next(cfg, s, ls[0]).value, ls[1..]);
    }
  }

  lemma ReachableKeepsPromises(cfg: Config, s: State)
    requires Reachable(cfg, s)
    ensures Inv(cfg, s) && Promised(s) && Undelivered(s)
  {
    var ls: seq<Label> :| Run(cfg, Init(), ls) == Some(s);
    hide Inv, Promised, Undelivered;
    InvInit(cfg);
    StartsPromised(cfg);
    PromisesRun(cfg, Init(), ls);
    InvRun(cfg, Init(), ls);
  }

  lemma {:induction false} OccMeansIn(q: seq<nat>, x: nat)
    requires Occ(q, x) > 0
    ensures x in q
  {
    if q[0] != x {
      OccMeansIn(q[1..], x);
    }
  }

  lemma {:induction false} HolderOf(pcs: seq<PC>, w: WaiterId) returns (u: nat)
    requires Sum(pcs, Keeps(w)) > 0
    ensures u < |pcs| && Ticket(pcs[u], w) > 0
  {
    var n := |pcs| - 1;
    if Ticket(pcs[n], w) > 0 {
      u := n;
    } else {
      assert Keeps(w)(pcs[n]) == 0;
      u := HolderOf(pcs[..n], w);
    }
  }

  /** In every reachable state, the channel of a client that is still there has been used once, or
      exactly one place, the queue or one goroutine, still has to send on it or close it. */
  lemma NobodyIsForgotten(cfg: Config, s: State, w: WaiterId)
    requires Reachable(cfg, s) && w < |s.chans| && w !in s.gone
    ensures s.chans[w].uses == 1 || s.chans[w].uses == 0
    ensures s.chans[w].uses == 1 <==> Tickets(s, w) == 0
    ensures s.chans[w].uses == 0 <==> Tickets(s, w) == 1
    ensures s.chans[w].uses == 0 ==>
              w in s.pool.waiting || exists u :: 0 <= u < |s.threads| && Ticket(s.threads[u], w) == 1
  {
    ReachableKeepsPromises(cfg, s);
    assert Tickets(s, w) <= 1;
    if Occ(s.pool.waiting, w) > 0 {
      OccMeansIn(s.pool.waiting, w);
    } else if Tickets(s, w) > 0 {
      var u := HolderOf(s.threads, w);
      SumHas(s.threads, u, Keeps(w));
      assert Keeps(w)(s.threads[u]) == Ticket(s.threads[u], w);
    }
  }

  /** A waiting request whose client is there can receive its machine, or the closing that ends it;
      or else one place still has to answer it. */
  lemma WaitingIsAnswered(cfg: Config, s: State, t: nat)
    requires Reachable(cfg, s) && t < |s.threads| && s.threads[t].Waiting? && s.threads[t].w !in s.gone
    ensures var w := s.threads[t].w;
            && w < |s.chans|
            && (Tickets(s, w) == 1 || Next(cfg, s, Step(t, Receive)).Some?)
            && (Tickets(s, w) == 1 <==> s.chans[w].buffer.Empty?)
            && (s.chans[w].buffer.Closed? ==> Next(cfg, s, Step(t, Receive)).value.threads[t] == Finished)
            && (s.chans[w].buffer.Full? ==>
                  var pc := Next(cfg, s, Step(t, Receive)).value.threads[t];
                  pc.Serving? && pc.v == s.chans[w].buffer.v)
  {
    var w := s.threads[t].w;
    ReachableKeepsPromises(cfg, s);
    WaitingMeansOpen(s, t, w);
    NobodyIsForgotten(cfg, s, w);
  }

  /** No goroutine but one that waits, or has finished, is ever stuck; in particular, whoever has to
      answer a request can move on. */
  lemma NobodyIsStuck(cfg: Config, s: State, t: nat) returns (c: Choice)
    requires Reachable(cfg, s) && t < |s.threads| && !s.threads[t].Waiting? && !s.threads[t].Finished?
    ensures Next(cfg, s, Step(t, c)).Some?
  {
    var pc := s.threads[t];
    if pc.Handing? {
      ReachableInv(cfg, s);
      TicketMeansUnused(s, t, pc.w);
    }
    c := if pc.BootCheck? then BootCold
         else if pc.RestoreWait? || pc.ColdWait? then Fails
         else if pc.Serving? then Broke
         else if pc.SweepIdle? then Tick(0)
         else Go;
  }
}
