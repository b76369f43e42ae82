/** The pool with every operation as one uninterrupted step: Invoke's admission,
    returnVM, discardVM's lock part, a failed boot with its drain, and one pool's sweep.
    This is the assumption under which wake-ups are never lost; PoolScenarios shows a
    run of the step machine that loses one without it. */
module PoolOps {
  import opened Options
  import opened PoolTypes

  datatype Admission = Reuse(v: VmId) | Boot | Queue(w: WaiterId)
  datatype Returned = HandedTo(w: WaiterId) | Kept | Surplus

  /** With operations as single steps, requests wait only when every slot is in use:
      nothing is warm and the counter is at the cap. */
  ghost predicate OpInv(cfg: Config, p: PoolView) {
    && |p.warm| <= cfg.warmPoolSize && |p.warm| <= p.booted
    && (cfg.maxVMs > 0 ==> p.booted <= cfg.maxVMs)
    && (p.waiting != [] ==> p.warm == [] && cfg.maxVMs > 0 && p.booted == cfg.maxVMs)
  }

  /** Somebody other than the warm channel has a slot: a request, a boot or a delivery. */
  ghost predicate SlotInUse(p: PoolView) {
    |p.warm| < p.booted
  }

  // The operations as functions of the pool's fields.

  function Arrive(cfg: Config, p: PoolView, w: WaiterId): (PoolView, Admission) {
    if p.warm != [] then (p.(warm := p.warm[1..]), Reuse(p.warm[0]))
    else if MayBoot(cfg.maxVMs, p.booted) then (p.(booted := p.booted + 1), Boot)
    else (p.(waiting := p.waiting + [w]), Queue(w))
  }

  function Return(cfg: Config, p: PoolView, v: VmId, gone: set<WaiterId>): (PoolView, Returned) {
    var first := FirstLive(p.waiting, gone);
    var q := p.(waiting := AfterFirstLive(p.waiting, gone));
    if first.Some? then (q, HandedTo(first.value))
    else if |q.warm| < cfg.warmPoolSize then (q.(warm := q.warm + [v]), Kept)
    else (q.(booted := q.booted - 1), Surplus)
  }

  function Discard(cfg: Config, p: PoolView, gone: set<WaiterId>): (PoolView, Option<WaiterId>) {
    var q := p.(booted := p.booted - 1);
    if !MayBoot(cfg.maxVMs, q.booted) then (q, None)
    else
      var first := FirstLive(q.waiting, gone);
      (q.(waiting := AfterFirstLive(q.waiting, gone), booted := if first.Some? then q.booted + 1 else q.booted),
       first)
  }

  function FailBoot(p: PoolView): (PoolView, seq<WaiterId>) {
    (p.(waiting := [], booted := p.booted - 1), p.waiting)
  }

  /** The replacement booted for w has failed: w first, then everybody in the queue. */
  function FailReplacement(p: PoolView, w: WaiterId): (PoolView, seq<WaiterId>) {
    (FailBoot(p).0, [w] + FailBoot(p).1)
  }

  function Sweep(p: PoolView, vms: seq<VM>, now: int): (PoolView, seq<VmId>) {
    var stale := Stale(vms, now, p.warm);
    (p.(warm := Recent(vms, now, p.warm), booted := p.booted - |stale|), stale)
  }

  // Each operation keeps the invariant; no wake-up is lost between them.

  lemma ArriveKeeps(cfg: Config, p: PoolView, w: WaiterId)
    requires OpInv(cfg, p)
    ensures OpInv(cfg, Arrive(cfg, p, w).0)
    ensures Arrive(cfg, p, w).1.Queue? ==> Arrive(cfg, p, w).0.waiting == p.waiting + [w]
    ensures !Arrive(cfg, p, w).1.Queue? ==> p.waiting == [] && SlotInUse(Arrive(cfg, p, w).0)
  {
  }

  lemma ReturnKeeps(cfg: Config, p: PoolView, v: VmId, gone: set<WaiterId>)
    requires OpInv(cfg, p) && SlotInUse(p)
    ensures OpInv(cfg, Return(cfg, p, v, gone).0)
  {
    LiveIsEmpty(p.waiting, gone);
  }

  lemma DiscardKeeps(cfg: Config, p: PoolView, gone: set<WaiterId>)
    requires OpInv(cfg, p) && SlotInUse(p)
    ensures OpInv(cfg, Discard(cfg, p, gone).0)
  {
    LiveIsEmpty(p.waiting, gone);
  }

  lemma FailBootKeeps(cfg: Config, p: PoolView)
    requires OpInv(cfg, p) && SlotInUse(p)
    ensures OpInv(cfg, FailBoot(p).0)
  {
  }

  lemma SweepKeeps(cfg: Config, p: PoolView, vms: seq<VM>, now: int)
    requires OpInv(cfg, p)
    ensures OpInv(cfg, Sweep(p, vms, now).0)
  {
    RecentIsShorter(vms, now, p.warm);
  }

  lemma SplitFirst(vms: seq<VM>, now: int, q: seq<VmId>)
    requires q != []
    ensures var stale := IdleTooLong(now, Look(vms, q[0]).lastUsed);
            && Recent(vms, now, q) == (if stale then Recent(vms, now, q[1..]) else [q[0]] + Recent(vms, now, q[1..]))
            && Stale(vms, now, q) == (if stale then [q[0]] + Stale(vms, now, q[1..]) else Stale(vms, now, q[1..]))
  {
  }

  lemma SplitNone(vms: seq<VM>, now: int)
    ensures Recent(vms, now, []) == [] && Stale(vms, now, []) == []
  {
  }

  /** A function's pool. The contexts that are done, and the machines' last uses, belong to
      the outside and are passed in. */
  class Pool {
    const cfg: Config
    var warm: seq<VmId>
    var waiting: seq<WaiterId>
    var booted: int

    function View(): PoolView
      reads this
    {
      PoolView(warm, waiting, booted)
    }

    ghost predicate Valid()
      reads this
    {
      OpInv(cfg, View())
    }

    constructor (cfg: Config)
      ensures Valid() && this.cfg == cfg && View() == PoolView([], [], 0)
    {
      this.cfg := cfg;
      warm, waiting, booted := [], [], 0;
    }

    /** Drops departed waiters until it finds a live one. */
    method PopWaiter(gone: set<WaiterId>) returns (w: Option<WaiterId>)
      modifies this`waiting
      ensures w == FirstLive(old(waiting), gone) && waiting == AfterFirstLive(old(waiting), gone)
    {
      while waiting != []
        invariant FirstLive(waiting, gone) == FirstLive(old(waiting), gone)
        invariant AfterFirstLive(waiting, gone) == AfterFirstLive(old(waiting), gone)
        decreases |waiting|
      {
        var first := waiting[0];
        waiting := waiting[1..];
        if first !in gone {
          return Some(first);
        }
      }
      w := None;
    }

    /** Invoke up to the point where it boots, queues or has a machine. */
    method Admit(w: WaiterId) returns (a: Admission)
      requires Valid()
      modifies this
      ensures Valid() && (View(), a) == Arrive(cfg, old(View()), w)
      ensures cfg.maxVMs > 0 ==> (a.Queue? <==> old(booted) - |old(warm)| == cfg.maxVMs)
      ensures old(waiting) != [] ==> a.Queue?
    {
      ArriveKeeps(cfg, View(), w);
      if warm != [] {
        a := Reuse(warm[0]);
        warm := warm[1..];
      } else if MayBoot(cfg.maxVMs, booted) {
        booted := booted + 1;
        a := Boot;
      } else {
        waiting := waiting + [w];
        a := Queue(w);
      }
    }

    method ReturnVM(v: VmId, gone: set<WaiterId>) returns (r: Returned)
      requires Valid() && SlotInUse(View())
      modifies this
      ensures Valid() && (View(), r) == Return(cfg, old(View()), v, gone)
      ensures r.Surplus? ==> |warm| == cfg.warmPoolSize
    {
      ReturnKeeps(cfg, View(), v, gone);
      var w := PopWaiter(gone);
      if w.Some? {
        return HandedTo(w.value);
      }
      if |warm| < cfg.warmPoolSize {
        warm := warm + [v];
        r := Kept;
      } else {
        booted := booted - 1;
        r := Surplus;
      }
    }

    method DiscardVM(gone: set<WaiterId>) returns (w: Option<WaiterId>)
      requires Valid() && SlotInUse(View())
      modifies this
      ensures Valid() && (View(), w) == Discard(cfg, old(View()), gone)
      ensures w.Some? ==> booted == old(booted)
      ensures w.None? ==> booted == old(booted) - 1 && waiting == []
    {
      DiscardKeeps(cfg, View(), gone);
      LiveIsEmpty(waiting, gone);
      booted := booted - 1;
      w := None;
      if MayBoot(cfg.maxVMs, booted) {
        w := PopWaiter(gone);
        if w.Some? {
          booted := booted + 1;
        }
      }
    }

    /** Empties the queue and closes every channel that was in it, in order. */
    method FailWaiters() returns (closed: seq<WaiterId>)
      modifies this`waiting
      ensures waiting == [] && closed == old(waiting)
    {
      var waiters := waiting;
      waiting := [];
      closed := [];
      for i := 0 to |waiters|
        invariant waiting == [] && closed == waiters[..i]
      {
        closed := closed + [waiters[i]];
      }
    }

    /** A request's own boot has failed. */
    method BootFailed() returns (closed: seq<WaiterId>)
      requires Valid() && SlotInUse(View())
      modifies this
      ensures Valid() && (View(), closed) == FailBoot(old(View()))
      ensures closed == old(waiting) && waiting == [] && booted == old(booted) - 1 && warm == old(warm)
    {
      booted := booted - 1;
      closed := FailWaiters();
    }

    /** The replacement booted for w has failed: w first, then everybody in the queue. */
    method ReplacementFailed(w: WaiterId) returns (closed: seq<WaiterId>)
      requires Valid() && SlotInUse(View())
      modifies this
      ensures Valid() && (View(), closed) == FailReplacement(old(View()), w)
      ensures closed == [w] + old(waiting) && waiting == [] && booted == old(booted) - 1 && warm == old(warm)
    {
      var rest := BootFailed();
      closed := [w] + rest;
    }

    /** The sweeper's first loop: empty the warm channel and kill what is stale. */
    method EmptyWarm(vms: seq<VM>, now: int) returns (live: seq<VmId>, killed: seq<VmId>)
      modifies this`warm, this`booted
      ensures warm == [] && booted == old(booted) - |killed|
      ensures live == Recent(vms, now, old(warm)) && killed == Stale(vms, now, old(warm))
      ensures forall v | v in live :: now - Look(vms, v).lastUsed <= 120_000
      ensures forall v | v in killed :: now - Look(vms, v).lastUsed > 120_000
      ensures Merges(live, killed, old(warm))
    {
      SplitByAge(vms, now, warm);
      hide Recent, Stale;
      live, killed := [], [];
      while warm != []
        invariant live + Recent(vms, now, warm) == Recent(vms, now, old(warm))
        invariant killed + Stale(vms, now, warm) == Stale(vms, now, old(warm))
        invariant booted == old(booted) - |killed|
        decreases |warm|
      {
        var v := warm[0];
        SplitFirst(vms, now, warm);
        warm := warm[1..];
        assert live + ([v] + Recent(vms, now, warm)) == (live + [v]) + Recent(vms, now, warm);
        assert killed + ([v] + Stale(vms, now, warm)) == (killed + [v]) + Stale(vms, now, warm);
        if IdleTooLong(now, Look(vms, v).lastUsed) {
          killed := killed + [v];
          booted := booted - 1;
        } else {
          live := live + [v];
        }
      }
      assert live + [] == live && killed + [] == killed;
      SplitNone(vms, now);
    }

    /** The sweeper's second loop. When nobody else pushes in between it never finds the
        channel full. */
    method PutBack(live: seq<VmId>)
      requires warm == [] && |live| <= cfg.warmPoolSize
      modifies this`warm
      ensures warm == live
    {
      for i := 0 to |live|
        invariant warm == live[..i]
      {
        if |warm| < cfg.warmPoolSize {
          warm := warm + [live[i]];
        } else {
          assert false;  // the kill-because-full branch
        }
      }
    }

    /** One pool's share of a sweep. */
    method SweepPool(vms: seq<VM>, now: int) returns (killed: seq<VmId>)
      requires Valid()
      modifies this
      ensures Valid() && (View(), killed) == Sweep(old(View()), vms, now)
      ensures waiting == old(waiting) && booted == old(booted) - |killed|
      ensures forall v | v in warm :: now - Look(vms, v).lastUsed <= 120_000
      ensures forall v | v in killed :: now - Look(vms, v).lastUsed > 120_000
      ensures Merges(warm, killed, old(warm))
    {
      SplitByAge(vms, now, warm);
      SweepKeeps(cfg, View(), vms, now);
      RecentIsShorter(vms, now, warm);
      var live;
      live, killed := EmptyWarm(vms, now);
      PutBack(live);
    }
  }

  /** One pool per function, made on first use. */
  class PoolManager {
    const maxVMs: int
    const warmPoolSize: nat
    var pools: map<string, Pool>

    /** Each pool is its function's own, and no two functions share one. */
    ghost predicate Valid()
      reads this
    {
      && (forall f | f in pools :: pools[f].cfg == Config(f, maxVMs, warmPoolSize))
      && (forall f, g | f in pools && g in pools && f != g :: pools[f] != pools[g])
    }

    constructor (maxVMs: int, warmPoolSize: nat)
      ensures Valid() && pools == map[]
      ensures this.maxVMs == maxVMs && this.warmPoolSize == warmPoolSize
    {
      this.maxVMs, this.warmPoolSize := maxVMs, warmPoolSize;
      pools := map[];
    }

    method GetPool(functionName: string) returns (pool: Pool)
      requires Valid()
      modifies this
      ensures Valid() && functionName in pools && pools[functionName] == pool
      ensures functionName in old(pools) ==> pools == old(pools)
      ensures functionName !in old(pools) ==>
                fresh(pool) && pool.View() == PoolView([], [], 0) && pools == old(pools)[functionName := pool]
    {
      if functionName in pools {
        return pools[functionName];
      }
      pool := new Pool(Config(functionName, maxVMs, warmPoolSize));
      pools := pools[functionName := pool];
    }
  }
}
