/** One function's pool as a step machine. Every goroutine has a program counter, and
    one step is one lock section, one channel operation, one kill, one spawn, one
    decrement or one environment call. Steps of different goroutines interleave
    freely. Kill is immediate and machine identifiers are never reused. */
module PoolMachine {
  import opened Options
  import opened PoolTypes

  /** Who a boot is for: the request that runs it, or a queued waiter that a
      discarded machine's slot was reserved for. */
  datatype Cont = ForRequest | ForWaiter(w: WaiterId)

  datatype PC =
    // Invoke
    | Arrived                                              // before the unlocked receive
    | MissedWarm                                           // before the lock section
    | Waiting(w: WaiterId)                                 // in the select on its channel
    | Serving(v: VmId, startType: StartType, bootMs: int)  // the invocation is running
    // returnVM
    | Returning(v: VmId)
    | Handing(v: VmId, w: WaiterId)                        // also the replacement's send
    | Pushing(v: VmId)
    | KillingSurplus(v: VmId)
    | SurplusKilled
    // discardVM
    | Discarding(v: VmId)
    | DiscardKilled
    // bootVM
    | BootCheck(k: Cont)
    | RestoreSpawn(k: Cont)
    | RestoreWait(k: Cont, v: VmId)
    | ColdSpawn(k: Cont)
    | ColdWait(k: Cont, v: VmId)
    // boot failure and failWaiters
    | CloseFailed(w: WaiterId)
    | BootUndo
    | Draining
    | Closing(ws: seq<WaiterId>)
    | Finished
    // idleSweeper, on this pool
    | SweepIdle
    | SweepScan(now: int, live: seq<VmId>)
    | SweepKill(now: int, live: seq<VmId>, v: VmId)
    | SweepDec(now: int, live: seq<VmId>)
    | SweepPut(live: seq<VmId>)
    | SweepPutKill(live: seq<VmId>, v: VmId)
    | SweepPutDec(live: seq<VmId>)

  datatype Buffer = Empty | Full(v: VmId) | Closed

  /** A waiter's one-slot channel. `uses` counts the sends and closes it has had;
      `abandoned` says that its receiver took the cancellation. */
  datatype Chan = Chan(buffer: Buffer, uses: nat, abandoned: bool)

  datatype State = State(
    pool: PoolView,
    threads: seq<PC>,
    chans: seq<Chan>,
    vms: seq<VM>,
    gone: set<WaiterId>,    // waiters whose client has disconnected
    procs: set<VmId>,       // machines whose process is alive
    killed: set<VmId>,      // machines the pool has killed
    panicked: bool          // a send on, or a close of, a closed channel happened
  )

  /** What the outside world decides about a step. */
  datatype Choice =
    | Go                    // nothing to decide
    | Fails                 // spawn, snapshot load or readiness wait fails
    | Ready(ms: int)        // the machine came up after ms
    | Receive | GiveUp      // which ready case the select takes
    | ImageMissing | TrySnapshot | BootCold
    | Replied(now: int)     // a healthy response
    | Broke                 // a transport failure or a response marked InfraError
    | Tick(now: int)        // the sweeper's ticker

  datatype Label =
    | Arrive                         // a new request's goroutine starts
    | Disconnect(w: WaiterId)        // a client goes away
    | Dies(v: VmId)                  // a process dies by itself
    | Step(t: nat, c: Choice)

  /** The effect of one step on everything the stepping goroutine shares. */
  datatype ChanOp = NoChan | Open | Send(w: WaiterId, v: VmId) | Close(w: WaiterId) | Take(w: WaiterId)
    | Abandon(w: WaiterId)
  datatype VmOp = NoVm | Spawn | Kill(v: VmId) | Update(v: VmId, vm: VM)
  datatype Effect = Effect(next: PC, fork: Option<PC>, pool: PoolView, chan: ChanOp, vm: VmOp)

  // Like NO_VM, this default is never read in a reachable state.
  const NO_CHAN := Chan(Empty, 0, false)

  function VmAt(s: State, v: VmId): VM {
    Look(s.vms, v)
  }

  function ChanAt(s: State, w: WaiterId): Chan {
    if w < |s.chans| then s.chans[w] else NO_CHAN
  }

  function Quiet(s: State, next: PC): Effect {
    Effect(next, None, s.pool, NoChan, NoVm)
  }

  /** Invoke takes hold of a machine: it is no longer fresh. */
  function Taken(s: State, v: VmId): VM {
    VmAt(s, v).(isFresh := false)
  }

  function TakeWarm(s: State): Effect
    requires s.pool.warm != []
  {
    var v := s.pool.warm[0];
    Effect(Serving(v, Warm, 0), None, s.pool.(warm := s.pool.warm[1..]), NoChan,
           Update(v, Taken(s, v)))
  }

  /** bootVM has returned a machine of the given kind. */
  function Booted(s: State, k: Cont, v: VmId, kind: StartType, ms: int): Effect {
    var vm := VmAt(s, v).(bootKind := kind, bootMs := ms);
    match k
    case ForRequest => Effect(Serving(v, kind, ms), None, s.pool, NoChan, Update(v, vm.(isFresh := false)))
    case ForWaiter(w) => Effect(Handing(v, w), None, s.pool, NoChan, Update(v, vm.(isFresh := true)))
  }

  /** Where a failed bootVM leaves its caller. */
  function BootFailed(k: Cont): PC {
    match k
    case ForRequest => BootUndo
    case ForWaiter(w) => CloseFailed(w)
  }

  // Invoke

  function TryWarm(s: State): Effect {
    if s.pool.warm != [] then TakeWarm(s) else Quiet(s, MissedWarm)
  }

  /** The lock section: re-check the warm channel, then boot or queue. */
  function Admit(cfg: Config, s: State): Effect {
    if s.pool.warm != [] then TakeWarm(s)
    else if MayBoot(cfg.maxVMs, s.pool.booted) then
      Effect(BootCheck(ForRequest), None, s.pool.(booted := s.pool.booted + 1), NoChan, NoVm)
    else
      var w := |s.chans|;
      Effect(Waiting(w), None, s.pool.(waiting := s.pool.waiting + [w]), Open, NoVm)
  }

  /** The select's receive case; a closed channel yields nil, which ends the request. */
  function ReceiveFrom(s: State, w: WaiterId): Option<Effect> {
    match ChanAt(s, w).buffer
    case Empty => None
    case Closed => Some(Quiet(s, Finished))
    case Full(v) =>
      var vm := VmAt(s, v);
      if vm.isFresh then Some(Effect(Serving(v, vm.bootKind, vm.bootMs), None, s.pool, Take(w), Update(v, Taken(s, v))))
      else Some(Effect(Serving(v, Warm, 0), None, s.pool, Take(w), Update(v, Taken(s, v))))
  }

  /** The select's cancellation case, ready whether or not a machine has been delivered. */
  function Cancel(s: State, w: WaiterId): Option<Effect> {
    if w in s.gone then Some(Effect(Finished, None, s.pool, Abandon(w), NoVm)) else None
  }

  function Emit(s: State, v: VmId, r: Record): VM {
    VmAt(s, v).(history := VmAt(s, v).history + [r])
  }

  function Finish(s: State, pc: PC, c: Choice): Option<Effect>
    requires pc.Serving?
  {
    match c
    case Replied(now) =>
      Some(Effect(Returning(pc.v), None, s.pool, NoChan,
                  Update(pc.v, Emit(s, pc.v, Record(pc.startType, pc.bootMs, false)).(lastUsed := now))))
    case Broke =>
      Some(Effect(Discarding(pc.v), None, s.pool, NoChan,
                  Update(pc.v, Emit(s, pc.v, Record(pc.startType, pc.bootMs, true)))))
    case _ => None
  }

  // returnVM and discardVM

  function ReturnSection(s: State, v: VmId): Effect {
    var first := FirstLive(s.pool.waiting, s.gone);
    var pool := s.pool.(waiting := AfterFirstLive(s.pool.waiting, s.gone));
    if first.Some? then Effect(Handing(v, first.value), None, pool, NoChan, NoVm)
    else Effect(Pushing(v), None, pool, NoChan, NoVm)
  }

  /** The send on a waiter's channel; it blocks while the one-slot buffer is full. */
  function Hand(s: State, v: VmId, w: WaiterId): Option<Effect> {
    if ChanAt(s, w).buffer.Full? then None else Some(Effect(Finished, None, s.pool, Send(w, v), NoVm))
  }

  function Push(cfg: Config, s: State, v: VmId): Effect {
    if |s.pool.warm| < cfg.warmPoolSize
    then Effect(Finished, None, s.pool.(warm := s.pool.warm + [v]), NoChan, NoVm)
    else Quiet(s, KillingSurplus(v))
  }

  function GiveBack(s: State, next: PC): Effect {
    Effect(next, None, s.pool.(booted := s.pool.booted - 1), NoChan, NoVm)
  }

  /** discardVM's lock section: give the slot back, then reserve it again for the first
      live waiter, whose replacement boots in a goroutine of its own. */
  function DiscardSection(cfg: Config, s: State): Effect {
    if !MayBoot(cfg.maxVMs, s.pool.booted - 1) then GiveBack(s, Finished)
    else
      var first := FirstLive(s.pool.waiting, s.gone);
      var rest := AfterFirstLive(s.pool.waiting, s.gone);
      if first.Some?
      then Effect(Finished, Some(BootCheck(ForWaiter(first.value))), s.pool.(waiting := rest), NoChan, NoVm)
      else Effect(Finished, None, s.pool.(waiting := rest, booted := s.pool.booted - 1), NoChan, NoVm)
  }

  // bootVM, restoreVM and coldBootVM

  function CheckFiles(cfg: Config, s: State, k: Cont, c: Choice): Option<Effect> {
    match c
    case ImageMissing => Some(Quiet(s, BootFailed(k)))
    case TrySnapshot => if cfg.maxVMs == 1 then Some(Quiet(s, RestoreSpawn(k))) else None
    case BootCold => Some(Quiet(s, ColdSpawn(k)))
    case _ => None
  }

  function SpawnFor(s: State, c: Choice, up: PC, down: PC): Option<Effect> {
    match c
    case Go => Some(Effect(up, None, s.pool, NoChan, Spawn))
    case Fails => Some(Quiet(s, down))
    case _ => None
  }

  function AwaitReady(s: State, k: Cont, v: VmId, kind: StartType, c: Choice, down: PC): Option<Effect> {
    match c
    case Ready(ms) => Some(Booted(s, k, v, kind, ms))
    case Fails => Some(KillVm(s, v, down))
    case _ => None
  }

  // failWaiters

  function Drain(s: State): Effect {
    Effect(Closing(s.pool.waiting), None, s.pool.(waiting := []), NoChan, NoVm)
  }

  function CloseNext(s: State, ws: seq<WaiterId>): Effect {
    if ws == [] then Quiet(s, Finished) else Effect(Closing(ws[1..]), None, s.pool, Close(ws[0]), NoVm)
  }

  // idleSweeper, restricted to this pool

  function Scan(s: State, now: int, live: seq<VmId>): Effect {
    if s.pool.warm == [] then Quiet(s, SweepPut(live))
    else
      var v := s.pool.warm[0];
      var pool := s.pool.(warm := s.pool.warm[1..]);
      if IdleTooLong(now, VmAt(s, v).lastUsed) then Effect(SweepKill(now, live, v), None, pool, NoChan, NoVm)
      else Effect(SweepScan(now, live + [v]), None, pool, NoChan, NoVm)
  }

  function PutBack(cfg: Config, s: State, live: seq<VmId>): Effect {
    if live == [] then Quiet(s, SweepIdle)
    else if |s.pool.warm| < cfg.warmPoolSize then
      Effect(SweepPut(live[1..]), None, s.pool.(warm := s.pool.warm + [live[0]]), NoChan, NoVm)
    else Quiet(s, SweepPutKill(live[1..], live[0]))
  }

  function KillVm(s: State, v: VmId, next: PC): Effect {
    Effect(next, None, s.pool, NoChan, Kill(v))
  }

  function If<T>(b: bool, x: T): Option<T> {
    if b then Some(x) else None
  }

  /** The step of a goroutine at pc, when the outside world decides c. */
  function EffectOf(cfg: Config, s: State, pc: PC, c: Choice): Option<Effect> {
    match pc
    case Arrived => If(c.Go?, TryWarm(s))
    case MissedWarm => If(c.Go?, Admit(cfg, s))
    case Waiting(w) => if c.Receive? then ReceiveFrom(s, w) else if c.GiveUp? then Cancel(s, w) else None
    case Serving(_, _, _) => Finish(s, pc, c)
    case Returning(v) => If(c.Go?, ReturnSection(s, v))
    case Handing(v, w) => if c.Go? then Hand(s, v, w) else None
    case Pushing(v) => If(c.Go?, Push(cfg, s, v))
    case KillingSurplus(v) => If(c.Go?, KillVm(s, v, SurplusKilled))
    case SurplusKilled => If(c.Go?, GiveBack(s, Finished))
    case Discarding(v) => If(c.Go?, KillVm(s, v, DiscardKilled))
    case DiscardKilled => If(c.Go?, DiscardSection(cfg, s))
    case BootCheck(k) => CheckFiles(cfg, s, k, c)
    case RestoreSpawn(k) => SpawnFor(s, c, RestoreWait(k, |s.vms|), ColdSpawn(k))
    case RestoreWait(k, v) => AwaitReady(s, k, v, Restored, c, ColdSpawn(k))
    case ColdSpawn(k) => SpawnFor(s, c, ColdWait(k, |s.vms|), BootFailed(k))
    case ColdWait(k, v) => AwaitReady(s, k, v, Cold, c, BootFailed(k))
    case CloseFailed(w) => If(c.Go?, Effect(BootUndo, None, s.pool, Close(w), NoVm))
    case BootUndo => If(c.Go?, GiveBack(s, Draining))
    case Draining => If(c.Go?, Drain(s))
    case Closing(ws) => If(c.Go?, CloseNext(s, ws))
    case Finished => None
    case SweepIdle => if c.Tick? then Some(Quiet(s, SweepScan(c.now, []))) else None
    case SweepScan(now, live) => If(c.Go?, Scan(s, now, live))
    case SweepKill(now, live, v) => If(c.Go?, KillVm(s, v, SweepDec(now, live)))
    case SweepDec(now, live) => If(c.Go?, GiveBack(s, SweepScan(now, live)))
    case SweepPut(live) => If(c.Go?, PutBack(cfg, s, live))
    case SweepPutKill(live, v) => If(c.Go?, KillVm(s, v, SweepPutDec(live)))
    case SweepPutDec(live) => If(c.Go?, GiveBack(s, SweepPut(live)))
  }

  function ApplyChan(chans: seq<Chan>, op: ChanOp): seq<Chan> {
    match op
    case NoChan => chans
    case Open => chans + [NO_CHAN]
    case Send(w, v) =>
      if w < |chans| then chans[w := chans[w].(buffer := Full(v), uses := chans[w].uses + 1)] else chans
    case Close(w) =>
      if w < |chans| then chans[w := chans[w].(buffer := Closed, uses := chans[w].uses + 1)] else chans
    case Take(w) => if w < |chans| then chans[w := chans[w].(buffer := Empty)] else chans
    case Abandon(w) => if w < |chans| then chans[w := chans[w].(abandoned := true)] else chans
  }

  /** Sending on, or closing, a closed channel panics. */
  predicate Panics(s: State, op: ChanOp) {
    (op.Send? || op.Close?) && ChanAt(s, op.w).buffer.Closed?
  }

  function ApplyVms(cfg: Config, vms: seq<VM>, op: VmOp): seq<VM> {
    match op
    case Spawn => vms + [NO_VM.(functionName := cfg.functionName)]
    case Update(v, vm) => if v < |vms| then vms[v := vm] else vms
    case _ => vms
  }

  function Apply(cfg: Config, s: State, t: nat, e: Effect): State
    requires t < |s.threads|
  {
    State(e.pool,
          s.threads[t := e.next] + (if e.fork.Some? then [e.fork.value] else []),
          ApplyChan(s.chans, e.chan),
          ApplyVms(cfg, s.vms, e.vm),
          s.gone,
          if e.vm.Spawn? then s.procs + {|s.vms|} else if e.vm.Kill? then s.procs - {e.vm.v} else s.procs,
          if e.vm.Kill? then s.killed + {e.vm.v} else s.killed,
          s.panicked || Panics(s, e.chan))
  }

  /** One labelled step, or nothing when it is not enabled. */
  function Next(cfg: Config, s: State, l: Label): Option<State> {
    match l
    case Arrive => Some(s.(threads := s.threads + [Arrived]))
    case Disconnect(w) => Some(s.(gone := s.gone + {w}))
    case Dies(v) => Some(s.(procs := s.procs - {v}))
    case Step(t, c) =>
      if t >= |s.threads| then None
      else
        var e := EffectOf(cfg, s, s.threads[t], c);
        if e.None? then None else Some(Apply(cfg, s, t, e.value))
  }

  /** A fresh pool, with the sweeper as its only goroutine. */
  function Init(): State {
    State(PoolView([], [], 0), [SweepIdle], [], [], {}, {}, {}, false)
  }

  function Run(cfg: Config, s: State, ls: seq<Label>): Option<State>
    decreases |ls|
  {
    if ls == [] then Some(s)
    else
      var n := Next(cfg, s, ls[0]);
      if n.None? then None else Run(cfg, n.value, ls[1..])
  }
}
