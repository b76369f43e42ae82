/** Where machines, slots and tickets are, and the proof that every step moves them
    without losing or copying one. A slot is one unit of the pool's booted counter; a
    ticket is the right to send on, or close, one waiter's channel. */
module PoolAccounting {
  import opened Options
  import opened Folds
  import opened PoolTypes
  import opened PoolMachine

  function Is(x: nat, y: nat): nat {
    if x == y then 1 else 0
  }

  /** How often x occurs in q. */
  ghost function Occ(q: seq<nat>, x: nat): nat {
    if q == [] then 0 else Is(q[0], x) + Occ(q[1..], x)
  }

  /** How many references to machine v a goroutine holds. */
  ghost function Holding(pc: PC, v: VmId): nat {
    match pc
    case Serving(x, _, _) => Is(x, v)
    case Returning(x) => Is(x, v)
    case Handing(x, _) => Is(x, v)
    case Pushing(x) => Is(x, v)
    case KillingSurplus(x) => Is(x, v)
    case Discarding(x) => Is(x, v)
    case RestoreWait(_, x) => Is(x, v)
    case ColdWait(_, x) => Is(x, v)
    case SweepScan(_, live) => Occ(live, v)
    case SweepKill(_, live, x) => Occ(live, v) + Is(x, v)
    case SweepDec(_, live) => Occ(live, v)
    case SweepPut(live) => Occ(live, v)
    case SweepPutKill(live, x) => Occ(live, v) + Is(x, v)
    case SweepPutDec(live) => Occ(live, v)
    case _ => 0
  }

  /** One when the goroutine is charged for a slot it has no live machine for: a boot
      before its process exists, or a killed or failed slot not yet given back. */
  function Owed(pc: PC): nat {
    match pc
    case SurplusKilled | DiscardKilled | BootUndo => 1
    case BootCheck(_) | RestoreSpawn(_) | ColdSpawn(_) | CloseFailed(_) => 1
    case SweepDec(_, _) | SweepPutDec(_) => 1
    case _ => 0
  }

  /** The slots a goroutine is charged for: one per machine it holds, plus what it owes. */
  function Slots(pc: PC): nat {
    match pc
    case Serving(_, _, _) | Returning(_) | Handing(_, _) | Pushing(_) | KillingSurplus(_) | Discarding(_) => 1
    case RestoreWait(_, _) | ColdWait(_, _) => 1
    case SweepScan(_, live) => |live|
    case SweepKill(_, live, _) => |live| + 1
    case SweepDec(_, live) => |live| + 1
    case SweepPut(live) => |live|
    case SweepPutKill(live, _) => |live| + 1
    case SweepPutDec(live) => |live| + 1
    case _ => Owed(pc)
  }

  function ContTicket(k: Cont, w: WaiterId): nat {
    match k
    case ForRequest => 0
    case ForWaiter(x) => Is(x, w)
  }

  /** How many times a goroutine is committed to send on, or close, channel w. */
  ghost function Ticket(pc: PC, w: WaiterId): nat {
    match pc
    case Handing(_, x) => Is(x, w)
    case CloseFailed(x) => Is(x, w)
    case Closing(ws) => Occ(ws, w)
    case BootCheck(k) => ContTicket(k, w)
    case RestoreSpawn(k) => ContTicket(k, w)
    case RestoreWait(k, _) => ContTicket(k, w)
    case ColdSpawn(k) => ContTicket(k, w)
    case ColdWait(k, _) => ContTicket(k, w)
    case _ => 0
  }

  function Awaiting(pc: PC, w: WaiterId): nat {
    if pc.Waiting? then Is(pc.w, w) else 0
  }

  function Buffered(ch: Chan, v: VmId): nat {
    if ch.buffer.Full? then Is(ch.buffer.v, v) else 0
  }

  function ChanSlots(ch: Chan): nat {
    if ch.buffer.Full? then 1 else 0
  }

  /** The number of places where the pool keeps machine v. */
  ghost function Held(s: State, v: VmId): nat {
    Sum(s.threads, Holds(v)) + Occ(s.pool.warm, v) + Sum(s.chans, Buffers(v))
  }

  ghost function Holds(v: VmId): PC -> nat {
    (pc: PC) => Holding(pc, v)
  }

  ghost function Buffers(v: VmId): Chan -> nat {
    (ch: Chan) => Buffered(ch, v)
  }

  /** The number of places that keep the ticket of waiter w. */
  ghost function Tickets(s: State, w: WaiterId): nat {
    Occ(s.pool.waiting, w) + Sum(s.threads, Keeps(w))
  }

  ghost function Keeps(w: WaiterId): PC -> nat {
    (pc: PC) => Ticket(pc, w)
  }

  /** The number of goroutines waiting on channel w. */
  ghost function Awaits(s: State, w: WaiterId): nat {
    Sum(s.threads, AwaitsAt(w))
  }

  ghost function AwaitsAt(w: WaiterId): PC -> nat {
    (pc: PC) => Awaiting(pc, w)
  }

  /** Everything the booted counter has to pay for. */
  ghost function Charged(s: State): nat {
    Sum(s.threads, Slots) + |s.pool.warm| + Sum(s.chans, ChanSlots)
  }

  // What one effect adds and removes, seen from the stepping goroutine alone.

  /** The channel an effect touches, before it does. */
  ghost function Touched(s: State, op: ChanOp): Chan {
    if op.NoChan? || op.Open? then NO_CHAN else ChanAt(s, op.w)
  }

  ghost function TouchedAfter(s: State, op: ChanOp): Chan {
    match op
    case NoChan | Open => NO_CHAN
    case Send(w, v) => ChanAt(s, w).(buffer := Full(v))
    case Close(w) => ChanAt(s, w).(buffer := Closed)
    case Take(w) => ChanAt(s, w).(buffer := Empty)
    case Abandon(w) => ChanAt(s, w)
  }

  /** The goroutine an effect starts, if any; Finished holds nothing. */
  function Forked(fork: Option<PC>): PC {
    if fork.Some? then fork.value else Finished
  }

  ghost function One(b: bool): nat {
    if b then 1 else 0
  }

  /** The effect moves machine v between the goroutine, the warm channel and the touched
      waiter channel, unless it spawns or kills it. */
  ghost predicate MovesVm(s: State, pc: PC, e: Effect, v: VmId) {
    Holding(e.next, v) + Holding(Forked(e.fork), v) + Occ(e.pool.warm, v) + Buffered(TouchedAfter(s, e.chan), v)
      + One(e.vm == Kill(v))
    == Holding(pc, v) + Occ(s.pool.warm, v) + Buffered(Touched(s, e.chan), v) + One(e.vm.Spawn? && v == |s.vms|)
  }

  /** The effect changes the counter by exactly the slots it takes on or gives back. */
  ghost predicate MovesSlots(s: State, pc: PC, e: Effect) {
    Slots(e.next) + Slots(Forked(e.fork)) + |e.pool.warm| + ChanSlots(TouchedAfter(s, e.chan)) + s.pool.booted
    == Slots(pc) + |s.pool.warm| + ChanSlots(Touched(s, e.chan)) + e.pool.booted
  }

  /** Tickets are kept, unless their client has left. */
  ghost predicate Kept(after: nat, before: nat, gone: bool) {
    after <= before && (!gone ==> after == before)
  }

  /** The effect may drop the ticket of a departed client, uses a ticket up on a send or close,
      and makes one only for a channel it opens; it never drops a live client's. */
  ghost predicate MovesTicket(s: State, pc: PC, e: Effect, w: WaiterId) {
    Kept(Ticket(e.next, w) + Ticket(Forked(e.fork), w) + Occ(e.pool.waiting, w)
           + One((e.chan.Send? || e.chan.Close?) && e.chan.w == w),
         Ticket(pc, w) + Occ(s.pool.waiting, w) + One(e.chan.Open? && w == |s.chans|),
         w in s.gone)
  }

  /** The queue loses a prefix and gains at most the channel just opened; a receiver
      stays a receiver only by not moving. */
  ghost predicate MovesQueue(s: State, pc: PC, e: Effect) {
    && (e.chan.Open? ==> e.pool.waiting == s.pool.waiting + [|s.chans|] && e.next == Waiting(|s.chans|))
    && (!e.chan.Open? ==> IsSuffix(e.pool.waiting, s.pool.waiting) && !e.next.Waiting?)
    && (e.chan.Open? ==> !pc.Waiting?)
    && (e.chan.Take? || e.chan.Abandon? ==> pc == Waiting(e.chan.w))
    && !Forked(e.fork).Waiting?
  }

  ghost predicate Balanced(s: State, pc: PC, e: Effect, v: VmId, w: WaiterId) {
    MovesVm(s, pc, e, v) && MovesSlots(s, pc, e) && MovesTicket(s, pc, e, w) && MovesQueue(s, pc, e)
  }

  lemma {:induction false} OccPush(q: seq<nat>, y: nat, x: nat)
    ensures Occ(q + [y], x) == Occ(q, x) + Is(y, x)
  {
    if q == [] {
      assert q + [y] == [y];
    } else {
      assert (q + [y])[1..] == q[1..] + [y];
      OccPush(q[1..], y, x);
    }
  }

  /** Popping neither invents nor copies a waiter, and drops only departed ones. */
  lemma {:induction false} PopKeepsWaiters(queue: seq<WaiterId>, gone: set<WaiterId>, w: WaiterId)
    ensures var first := FirstLive(queue, gone);
            Kept((if first.Some? then Is(first.value, w) else 0) + Occ(AfterFirstLive(queue, gone), w),
                 Occ(queue, w), w in gone)
  {
    if queue != [] {
      PopKeepsWaiters(queue[1..], gone, w);
    }
  }

  lemma KillBalanced(s: State, x: VmId, pc: PC, next: PC, v: VmId, w: WaiterId)
    requires Holding(pc, v) == Holding(next, v) + Is(x, v) && Slots(pc) == Slots(next)
    requires Ticket(pc, w) == Ticket(next, w) && !next.Waiting?
    ensures Balanced(s, pc, KillVm(s, x, next), v, w)
  {
  }

  lemma GiveBackBalanced(s: State, pc: PC, next: PC, v: VmId, w: WaiterId)
    requires Holding(pc, v) == Holding(next, v) && Slots(pc) == Slots(next) + 1
    requires Ticket(pc, w) == Ticket(next, w) && !next.Waiting?
    ensures Balanced(s, pc, GiveBack(s, next), v, w)
  {
  }

  lemma CancelBalanced(s: State, i: WaiterId, v: VmId, w: WaiterId)
    ensures Balanced(s, Waiting(i), Effect(Finished, None, s.pool, Abandon(i), NoVm), v, w)
  {
  }

  lemma CloseFailedBalanced(s: State, i: WaiterId, v: VmId, w: WaiterId)
    requires !ChanAt(s, i).buffer.Full?
    ensures Balanced(s, CloseFailed(i), Effect(BootUndo, None, s.pool, Close(i), NoVm), v, w)
  {
  }

  lemma DrainBalanced(s: State, v: VmId, w: WaiterId)
    ensures Balanced(s, Draining, Drain(s), v, w)
  {
  }

  lemma QuietBalanced(s: State, pc: PC, next: PC, v: VmId, w: WaiterId)
    requires Holding(pc, v) == Holding(next, v) && Slots(pc) == Slots(next)
    requires Ticket(pc, w) == Ticket(next, w) && !next.Waiting?
    ensures Balanced(s, pc, Quiet(s, next), v, w)
  {
  }

  lemma TakeWarmBalanced(s: State, pc: PC, v: VmId, w: WaiterId)
    requires s.pool.warm != [] && (pc.Arrived? || pc.MissedWarm?)
    ensures Balanced(s, pc, TakeWarm(s), v, w)
  {
  }

  lemma AdmitBalanced(cfg: Config, s: State, v: VmId, w: WaiterId)
    ensures Balanced(s, MissedWarm, Admit(cfg, s), v, w)
  {
    OccPush(s.pool.waiting, |s.chans|, w);
    if s.pool.warm != [] {
      TakeWarmBalanced(s, MissedWarm, v, w);
    }
  }

  lemma ReceiveBalanced(s: State, i: WaiterId, v: VmId, w: WaiterId)
    requires ReceiveFrom(s, i).Some?
    ensures Balanced(s, Waiting(i), ReceiveFrom(s, i).value, v, w)
  {
    if ChanAt(s, i).buffer.Closed? {
    } else if VmAt(s, ChanAt(s, i).buffer.v).isFresh {
    } else {
    }
  }

  lemma FinishBalanced(s: State, pc: PC, c: Choice, v: VmId, w: WaiterId)
    requires pc.Serving? && Finish(s, pc, c).Some?
    ensures Balanced(s, pc, Finish(s, pc, c).value, v, w)
  {
    if c.Broke? {
    } else {
    }
  }

  lemma ReturnPops(s: State, x: VmId, first: Option<WaiterId>, rest: seq<WaiterId>, v: VmId, w: WaiterId)
    requires Kept((if first.Some? then Is(first.value, w) else 0) + Occ(rest, w), Occ(s.pool.waiting, w), w in s.gone)
    requires IsSuffix(rest, s.pool.waiting)
    ensures Balanced(s, Returning(x), Effect(if first.Some? then Handing(x, first.value) else Pushing(x), None,
                                             s.pool.(waiting := rest), NoChan, NoVm), v, w)
  {
    hide IsSuffix, Occ;
    if first.Some? {
    } else {
    }
  }

  lemma ReturnBalanced(s: State, x: VmId, v: VmId, w: WaiterId)
    ensures Balanced(s, Returning(x), ReturnSection(s, x), v, w)
  {
    hide Balanced, IsSuffix, FirstLive, AfterFirstLive, Occ;
    PopKeepsWaiters(s.pool.waiting, s.gone, w);
    PopShortens(s.pool.waiting, s.gone);
    ReturnPops(s, x, FirstLive(s.pool.waiting, s.gone), AfterFirstLive(s.pool.waiting, s.gone), v, w);
  }

  lemma HandBalanced(s: State, x: VmId, i: WaiterId, v: VmId, w: WaiterId)
    requires Hand(s, x, i).Some?
    ensures Balanced(s, Handing(x, i), Hand(s, x, i).value, v, w)
  {
  }

  lemma PushBalanced(cfg: Config, s: State, x: VmId, v: VmId, w: WaiterId)
    ensures Balanced(s, Pushing(x), Push(cfg, s, x), v, w)
  {
    OccPush(s.pool.warm, x, v);
  }

  lemma DiscardReserves(s: State, i: WaiterId, rest: seq<WaiterId>, v: VmId, w: WaiterId)
    requires Kept(Is(i, w) + Occ(rest, w), Occ(s.pool.waiting, w), w in s.gone)
    requires IsSuffix(rest, s.pool.waiting)
    ensures Balanced(s, DiscardKilled, Effect(Finished, Some(BootCheck(ForWaiter(i))), s.pool.(waiting := rest),
                                              NoChan, NoVm), v, w)
  {
    hide IsSuffix, Occ;
  }

  lemma DiscardEmpties(s: State, rest: seq<WaiterId>, v: VmId, w: WaiterId)
    requires Kept(Occ(rest, w), Occ(s.pool.waiting, w), w in s.gone)
    requires IsSuffix(rest, s.pool.waiting)
    ensures Balanced(s, DiscardKilled, Effect(Finished, None, s.pool.(waiting := rest, booted := s.pool.booted - 1),
                                              NoChan, NoVm), v, w)
  {
    hide IsSuffix, Occ;
  }

  lemma DiscardSectionReserves(cfg: Config, s: State, v: VmId, w: WaiterId)
    requires MayBoot(cfg.maxVMs, s.pool.booted - 1) && FirstLive(s.pool.waiting, s.gone).Some?
    ensures Balanced(s, DiscardKilled, DiscardSection(cfg, s), v, w)
  {
    hide Balanced, FirstLive, AfterFirstLive, Occ, IsSuffix;
    PopKeepsWaiters(s.pool.waiting, s.gone, w);
    PopShortens(s.pool.waiting, s.gone);
    DiscardReserves(s, FirstLive(s.pool.waiting, s.gone).value, AfterFirstLive(s.pool.waiting, s.gone), v, w);
  }

  lemma DiscardSectionEmpties(cfg: Config, s: State, v: VmId, w: WaiterId)
    requires MayBoot(cfg.maxVMs, s.pool.booted - 1) && FirstLive(s.pool.waiting, s.gone).None?
    ensures Balanced(s, DiscardKilled, DiscardSection(cfg, s), v, w)
  {
    hide Balanced, FirstLive, AfterFirstLive, Occ, IsSuffix;
    PopKeepsWaiters(s.pool.waiting, s.gone, w);
    PopShortens(s.pool.waiting, s.gone);
    DiscardEmpties(s, AfterFirstLive(s.pool.waiting, s.gone), v, w);
  }

  lemma DiscardBalanced(cfg: Config, s: State, v: VmId, w: WaiterId)
    ensures Balanced(s, DiscardKilled, DiscardSection(cfg, s), v, w)
  {
    hide Balanced, FirstLive, AfterFirstLive;
    if !MayBoot(cfg.maxVMs, s.pool.booted - 1) {
      GiveBackBalanced(s, DiscardKilled, Finished, v, w);
    } else if FirstLive(s.pool.waiting, s.gone).Some? {
      DiscardSectionReserves(cfg, s, v, w);
    } else {
      DiscardSectionEmpties(cfg, s, v, w);
    }
  }

  lemma CheckBalanced(cfg: Config, s: State, k: Cont, c: Choice, v: VmId, w: WaiterId)
    requires CheckFiles(cfg, s, k, c).Some?
    ensures Balanced(s, BootCheck(k), CheckFiles(cfg, s, k, c).value, v, w)
  {
    hide Balanced;
    match c
    case ImageMissing => QuietBalanced(s, BootCheck(k), BootFailed(k), v, w);
    case TrySnapshot => QuietBalanced(s, BootCheck(k), RestoreSpawn(k), v, w);
    case BootCold => QuietBalanced(s, BootCheck(k), ColdSpawn(k), v, w);
  }

  lemma SpawnBalanced(s: State, c: Choice, pc: PC, up: PC, down: PC, v: VmId, w: WaiterId)
    requires SpawnFor(s, c, up, down).Some?
    requires pc.RestoreSpawn? || pc.ColdSpawn?
    requires pc.RestoreSpawn? ==> up == RestoreWait(pc.k, |s.vms|) && down == ColdSpawn(pc.k)
    requires pc.ColdSpawn? ==> up == ColdWait(pc.k, |s.vms|) && down == BootFailed(pc.k)
    ensures Balanced(s, pc, SpawnFor(s, c, up, down).value, v, w)
  {
    if c.Fails? {
      QuietBalanced(s, pc, down, v, w);
    } else {
      UpBalanced(s, pc, up, v, w);
    }
  }

  lemma UpBalanced(s: State, pc: PC, up: PC, v: VmId, w: WaiterId)
    requires (pc.RestoreSpawn? && up == RestoreWait(pc.k, |s.vms|)) || (pc.ColdSpawn? && up == ColdWait(pc.k, |s.vms|))
    ensures Balanced(s, pc, Effect(up, None, s.pool, NoChan, Spawn), v, w)
  {
    if pc.RestoreSpawn? {
    } else {
    }
  }

  lemma BootedMovesVm(s: State, pc: PC, kind: StartType, ms: int, v: VmId)
    requires pc.RestoreWait? || pc.ColdWait?
    ensures MovesVm(s, pc, Booted(s, pc.k, pc.v, kind, ms), v)
  {
    if pc.k.ForRequest? {
    } else {
    }
  }

  lemma BootedBalanced(s: State, pc: PC, kind: StartType, ms: int, v: VmId, w: WaiterId)
    requires pc.RestoreWait? || pc.ColdWait?
    ensures Balanced(s, pc, Booted(s, pc.k, pc.v, kind, ms), v, w)
  {
    BootedMovesVm(s, pc, kind, ms, v);
    hide MovesVm;
    if pc.k.ForRequest? {
    } else {
    }
  }

  lemma ReadyBalanced(s: State, pc: PC, kind: StartType, c: Choice, down: PC, v: VmId, w: WaiterId)
    requires pc.RestoreWait? || pc.ColdWait?
    requires down == if pc.RestoreWait? then ColdSpawn(pc.k) else BootFailed(pc.k)
    requires AwaitReady(s, pc.k, pc.v, kind, c, down).Some?
    ensures Balanced(s, pc, AwaitReady(s, pc.k, pc.v, kind, c, down).value, v, w)
  {
    if c.Fails? {
      KillBalanced(s, pc.v, pc, down, v, w);
    } else {
      BootedBalanced(s, pc, kind, c.ms, v, w);
    }
  }

  lemma CloseBalanced(s: State, ws: seq<WaiterId>, v: VmId, w: WaiterId)
    requires ws != [] ==> !ChanAt(s, ws[0]).buffer.Full?
    ensures Balanced(s, Closing(ws), CloseNext(s, ws), v, w)
  {
  }

  lemma ScanTakes(s: State, now: int, live: seq<VmId>, kill: bool, v: VmId, w: WaiterId)
    requires s.pool.warm != []
    ensures var x := s.pool.warm[0];
            Balanced(s, SweepScan(now, live),
                     Effect(if kill then SweepKill(now, live, x) else SweepScan(now, live + [x]), None,
                            s.pool.(warm := s.pool.warm[1..]), NoChan, NoVm), v, w)
  {
    OccPush(live, s.pool.warm[0], v);
    if kill {
    } else {
    }
  }

  lemma ScanBalanced(s: State, now: int, live: seq<VmId>, v: VmId, w: WaiterId)
    ensures Balanced(s, SweepScan(now, live), Scan(s, now, live), v, w)
  {
    if s.pool.warm != [] {
      ScanTakes(s, now, live, IdleTooLong(now, VmAt(s, s.pool.warm[0]).lastUsed), v, w);
    }
  }

  lemma PutBackPushes(s: State, live: seq<VmId>, v: VmId, w: WaiterId)
    requires live != []
    ensures Balanced(s, SweepPut(live), Effect(SweepPut(live[1..]), None, s.pool.(warm := s.pool.warm + [live[0]]),
                                               NoChan, NoVm), v, w)
  {
    OccPush(s.pool.warm, live[0], v);
  }

  lemma PutBackBalanced(cfg: Config, s: State, live: seq<VmId>, v: VmId, w: WaiterId)
    ensures Balanced(s, SweepPut(live), PutBack(cfg, s, live), v, w)
  {
    hide Balanced;
    if live == [] {
      QuietBalanced(s, SweepPut(live), SweepIdle, v, w);
    } else if |s.pool.warm| < cfg.warmPoolSize {
      PutBackPushes(s, live, v, w);
    } else {
      QuietBalanced(s, SweepPut(live), SweepPutKill(live[1..], live[0]), v, w);
    }
  }

  lemma RequestBalanced(cfg: Config, s: State, pc: PC, c: Choice, v: VmId, w: WaiterId)
    requires pc.Arrived? || pc.MissedWarm? || pc.Waiting? || pc.Serving?
    requires EffectOf(cfg, s, pc, c).Some?
    ensures Balanced(s, pc, EffectOf(cfg, s, pc, c).value, v, w)
  {
    hide Balanced;
    match pc
    case Arrived =>
      if s.pool.warm != [] { TakeWarmBalanced(s, pc, v, w); } else { QuietBalanced(s, pc, MissedWarm, v, w); }
    case MissedWarm => AdmitBalanced(cfg, s, v, w);
    case Waiting(i) => if c.Receive? { ReceiveBalanced(s, i, v, w); } else { CancelBalanced(s, i, v, w); }
    case Serving(_, _, _) => FinishBalanced(s, pc, c, v, w);
  }

  lemma BootBalanced(cfg: Config, s: State, pc: PC, c: Choice, v: VmId, w: WaiterId)
    requires pc.BootCheck? || pc.RestoreSpawn? || pc.RestoreWait? || pc.ColdSpawn? || pc.ColdWait?
    requires EffectOf(cfg, s, pc, c).Some?
    ensures Balanced(s, pc, EffectOf(cfg, s, pc, c).value, v, w)
  {
    hide Balanced;
    match pc
    case BootCheck(k) => CheckBalanced(cfg, s, k, c, v, w);
    case RestoreSpawn(k) => SpawnBalanced(s, c, pc, RestoreWait(k, |s.vms|), ColdSpawn(k), v, w);
    case RestoreWait(k, _) => ReadyBalanced(s, pc, Restored, c, ColdSpawn(k), v, w);
    case ColdSpawn(k) => SpawnBalanced(s, c, pc, ColdWait(k, |s.vms|), BootFailed(k), v, w);
    case ColdWait(k, _) => ReadyBalanced(s, pc, Cold, c, BootFailed(k), v, w);
  }

  /** A goroutine about to close a channel finds no machine in it. */
  ghost predicate ClosesSafely(s: State, pc: PC) {
    && (pc.CloseFailed? ==> !ChanAt(s, pc.w).buffer.Full?)
    && (pc.Closing? && pc.ws != [] ==> !ChanAt(s, pc.ws[0]).buffer.Full?)
  }

  lemma FailBalanced(cfg: Config, s: State, pc: PC, c: Choice, v: VmId, w: WaiterId)
    requires pc.CloseFailed? || pc.BootUndo? || pc.Draining? || pc.Closing? || pc.Finished?
    requires EffectOf(cfg, s, pc, c).Some? && ClosesSafely(s, pc)
    ensures Balanced(s, pc, EffectOf(cfg, s, pc, c).value, v, w)
  {
    hide Balanced;
    match pc
    case CloseFailed(i) => CloseFailedBalanced(s, i, v, w);
    case BootUndo => GiveBackBalanced(s, pc, Draining, v, w);
    case Draining => DrainBalanced(s, v, w);
    case Closing(ws) => CloseBalanced(s, ws, v, w);
    case Finished =>
  }

  lemma ScanPhaseBalanced(cfg: Config, s: State, pc: PC, c: Choice, v: VmId, w: WaiterId)
    requires pc.SweepIdle? || pc.SweepScan? || pc.SweepKill? || pc.SweepDec?
    requires EffectOf(cfg, s, pc, c).Some?
    ensures Balanced(s, pc, EffectOf(cfg, s, pc, c).value, v, w)
  {
    hide Balanced;
    match pc
    case SweepIdle => QuietBalanced(s, pc, SweepScan(c.now, []), v, w);
    case SweepScan(now, live) => ScanBalanced(s, now, live, v, w);
    case SweepKill(now, live, x) => KillBalanced(s, x, pc, SweepDec(now, live), v, w);
    case SweepDec(now, live) => GiveBackBalanced(s, pc, SweepScan(now, live), v, w);
  }

  /** Every step of every goroutine is balanced, as long as a close meets an empty buffer. */
  lemma StepIsBalanced(cfg: Config, s: State, pc: PC, c: Choice, v: VmId, w: WaiterId)
    requires EffectOf(cfg, s, pc, c).Some? && ClosesSafely(s, pc)
    ensures Balanced(s, pc, EffectOf(cfg, s, pc, c).value, v, w)
  {
    hide Balanced;
    if pc.Arrived? || pc.MissedWarm? || pc.Waiting? || pc.Serving? {
      RequestBalanced(cfg, s, pc, c, v, w);
    } else if pc.BootCheck? || pc.RestoreSpawn? || pc.RestoreWait? || pc.ColdSpawn? || pc.ColdWait? {
      BootBalanced(cfg, s, pc, c, v, w);
    } else if pc.CloseFailed? || pc.BootUndo? || pc.Draining? || pc.Closing? || pc.Finished? {
      FailBalanced(cfg, s, pc, c, v, w);
    } else if pc.SweepIdle? || pc.SweepScan? || pc.SweepKill? || pc.SweepDec? {
      ScanPhaseBalanced(cfg, s, pc, c, v, w);
    } else {
      match pc
      case Returning(x) => ReturnBalanced(s, x, v, w);
      case Handing(x, i) => HandBalanced(s, x, i, v, w);
      case Pushing(x) => PushBalanced(cfg, s, x, v, w);
      case KillingSurplus(x) => KillBalanced(s, x, pc, SurplusKilled, v, w);
      case SurplusKilled => GiveBackBalanced(s, pc, Finished, v, w);
      case Discarding(x) => KillBalanced(s, x, pc, DiscardKilled, v, w);
      case DiscardKilled => DiscardBalanced(cfg, s, v, w);
      case SweepPut(live) => PutBackBalanced(cfg, s, live, v, w);
      case SweepPutKill(live, x) => KillBalanced(s, x, pc, SweepPutDec(live), v, w);
      case SweepPutDec(live) => GiveBackBalanced(s, pc, SweepPut(live), v, w);
    }
  }
}
