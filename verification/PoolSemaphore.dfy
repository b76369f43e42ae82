/** The pool with whole operations as steps is a first-come-first-served semaphore. */
module PoolSemaphore {
  import opened Options
  import opened PoolTypes
  import opened PoolOps

  /** A counting semaphore whose waiters are served strictly in order. */
  datatype Sem = Sem(slots: int, used: int, queue: seq<WaiterId>)

  datatype Op =
    | Acquire(w: WaiterId)      // a request arrives; w names it if it has to wait
    | Release(v: VmId)          // returnVM
    | ReleaseBroken             // discardVM
    | FailAll                   // a boot has failed
    | Leave(w: WaiterId)        // a client disconnects
    | Clean(now: int)           // the idle sweep

  datatype Out = Granted | Queued | Passed(w: WaiterId) | Freed | Failed(ws: seq<WaiterId>) | Silent

  function Without(q: seq<WaiterId>, w: WaiterId): seq<WaiterId> {
    if q == [] then [] else (if q[0] == w then [] else [q[0]]) + Without(q[1..], w)
  }

  function SemNext(s: Sem, op: Op): (Sem, Out) {
    match op
    case Acquire(w) =>
      if s.used < s.slots then (s.(used := s.used + 1), Granted) else (s.(queue := s.queue + [w]), Queued)
    case Release(_) =>
      if s.queue == [] then (s.(used := s.used - 1), Freed) else (s.(queue := s.queue[1..]), Passed(s.queue[0]))
    case ReleaseBroken =>
      if s.queue == [] then (s.(used := s.used - 1), Freed) else (s.(queue := s.queue[1..]), Passed(s.queue[0]))
    case FailAll => (s.(used := s.used - 1, queue := []), Failed(s.queue))
    case Leave(w) => (s.(queue := Without(s.queue, w)), Silent)
    case Clean(_) => (s, Silent)
  }

  /** The pool's own state: its fields, the machine table and the contexts that are done. */
  datatype OpState = OpState(p: PoolView, vms: seq<VM>, gone: set<WaiterId>)

  function OutOfAdmission(a: Admission): Out {
    if a.Queue? then Queued else Granted
  }

  function OpNext(cfg: Config, s: OpState, op: Op): (OpState, Out) {
    match op
    case Acquire(w) =>
      var (p, a) := Arrive(cfg, s.p, w);
      (s.(p := p), OutOfAdmission(a))
    case Release(v) =>
      var (p, r) := Return(cfg, s.p, v, s.gone);
      (s.(p := p), if r.HandedTo? then Passed(r.w) else Freed)
    case ReleaseBroken =>
      var (p, w) := Discard(cfg, s.p, s.gone);
      (s.(p := p), if w.Some? then Passed(w.value) else Freed)
    case FailAll =>
      var (p, ws) := FailBoot(s.p);
      (s.(p := p), Failed(Live(ws, s.gone)))
    case Leave(w) => (s.(gone := s.gone + {w}), Silent)
    case Clean(now) => (s.(p := Sweep(s.p, s.vms, now).0), Silent)
  }

  /** Slots in use are those not parked in the warm channel; the queue is what clients see. */
  function Abs(cfg: Config, s: OpState): Sem {
    Sem(cfg.maxVMs, s.p.booted - |s.p.warm|, Live(s.p.waiting, s.gone))
  }

  /** A request arrives under a new name, and only who has a slot gives one back. */
  ghost predicate Allowed(s: OpState, op: Op) {
    match op
    case Acquire(w) => w !in s.gone
    case Release(_) => SlotInUse(s.p)
    case ReleaseBroken => SlotInUse(s.p)
    case FailAll => SlotInUse(s.p)
    case Leave(_) => true
    case Clean(_) => true
  }

  lemma {:induction false} LiveAfterLeave(q: seq<WaiterId>, gone: set<WaiterId>, w: WaiterId)
    ensures Live(q, gone + {w}) == Without(Live(q, gone), w)
  {
    if q != [] {
      LiveAfterLeave(q[1..], gone, w);
      var rest := Live(q[1..], gone);
      if q[0] in gone {
        assert Live(q, gone) == rest;
      } else {
        assert Live(q, gone) == [q[0]] + rest && ([q[0]] + rest)[1..] == rest;
      }
    }
  }

  lemma AcquireRefines(cfg: Config, s: OpState, w: WaiterId)
    requires cfg.maxVMs > 0 && OpInv(cfg, s.p) && w !in s.gone
    ensures var (n, out) := OpNext(cfg, s, Acquire(w));
            SemNext(Abs(cfg, s), Acquire(w)) == (Abs(cfg, n), out)
  {
    LiveOfAppend(s.p.waiting, [w], s.gone);
    assert Live([w], s.gone) == [w];
  }

  lemma ReleaseRefines(cfg: Config, s: OpState, v: VmId)
    requires cfg.maxVMs > 0 && OpInv(cfg, s.p) && SlotInUse(s.p)
    ensures var (n, out) := OpNext(cfg, s, Release(v));
            SemNext(Abs(cfg, s), Release(v)) == (Abs(cfg, n), out)
  {
    LiveIsEmpty(s.p.waiting, s.gone);
    if FirstLive(s.p.waiting, s.gone).Some? {
      PopTakesLiveHead(s.p.waiting, s.gone);
    }
  }

  lemma ReleaseBrokenRefines(cfg: Config, s: OpState)
    requires cfg.maxVMs > 0 && OpInv(cfg, s.p) && SlotInUse(s.p)
    ensures var (n, out) := OpNext(cfg, s, ReleaseBroken);
            SemNext(Abs(cfg, s), ReleaseBroken) == (Abs(cfg, n), out)
  {
    LiveIsEmpty(s.p.waiting, s.gone);
    if FirstLive(s.p.waiting, s.gone).Some? {
      PopTakesLiveHead(s.p.waiting, s.gone);
    }
  }

  lemma CleanRefines(cfg: Config, s: OpState, now: int)
    ensures var (n, out) := OpNext(cfg, s, Clean(now));
            SemNext(Abs(cfg, s), Clean(now)) == (Abs(cfg, n), out)
  {
    RecentIsShorter(s.vms, now, s.p.warm);
  }

  /** One operation of the pool is one operation of the semaphore, with the same outcome. */
  lemma OpRefines(cfg: Config, s: OpState, op: Op)
    requires cfg.maxVMs > 0 && OpInv(cfg, s.p) && Allowed(s, op)
    ensures var (n, out) := OpNext(cfg, s, op);
            SemNext(Abs(cfg, s), op) == (Abs(cfg, n), out) && OpInv(cfg, n.p)
  {
    match op
    case Acquire(w) =>
      AcquireRefines(cfg, s, w);
      ArriveKeeps(cfg, s.p, w);
    case Release(v) =>
      ReleaseRefines(cfg, s, v);
      ReturnKeeps(cfg, s.p, v, s.gone);
    case ReleaseBroken =>
      ReleaseBrokenRefines(cfg, s);
      DiscardKeeps(cfg, s.p, s.gone);
    case FailAll =>
    case Leave(w) => LiveAfterLeave(s.p.waiting, s.gone, w);
    case Clean(now) =>
      CleanRefines(cfg, s, now);
      SweepKeeps(cfg, s.p, s.vms, now);
  }

  function OpRun(cfg: Config, s: OpState, ops: seq<Op>): (OpState, seq<Out>)
    decreases |ops|
  {
    if ops == [] then (s, [])
    else
      var (n, out) := OpNext(cfg, s, ops[0]);
      var (end, outs) := OpRun(cfg, n, ops[1..]);
      (end, [out] + outs)
  }

  function SemRun(s: Sem, ops: seq<Op>): (Sem, seq<Out>)
    decreases |ops|
  {
    if ops == [] then (s, [])
    else
      var (n, out) := SemNext(s, ops[0]);
      var (end, outs) := SemRun(n, ops[1..]);
      (end, [out] + outs)
  }

  ghost predicate AllAllowed(cfg: Config, s: OpState, ops: seq<Op>)
    decreases |ops|
  {
    ops != [] ==> Allowed(s, ops[0]) && AllAllowed(cfg, OpNext(cfg, s, ops[0]).0, ops[1..])
  }

  /** Any sequence of operations on the pool gives the same grants, queueings, hand-overs
      and failures, in the same order, as the semaphore. */
  lemma {:induction false} PoolIsASemaphore(cfg: Config, s: OpState, ops: seq<Op>)
    requires cfg.maxVMs > 0 && OpInv(cfg, s.p) && AllAllowed(cfg, s, ops)
    ensures var (end, outs) := OpRun(cfg, s, ops);
            SemRun(Abs(cfg, s), ops) == (Abs(cfg, end), outs) && OpInv(cfg, end.p)
    decreases |ops|
  {
    if ops != [] {
      OpRefines(cfg, s, ops[0]);
      hide OpNext, SemNext, Abs, OpInv, Allowed;
      PoolIsASemaphore(cfg, OpNext(cfg, s, ops[0]).0, ops[1..]);
    }
  }

  // What the semaphore promises, and therefore the pool.

  ghost predicate SemInv(s: Sem) {
    0 <= s.used <= s.slots && (s.queue != [] ==> s.used == s.slots)
  }

  /** The pool's queue is nonempty only when every slot is in use, so a newcomer is granted
      a slot only if no live request is waiting. */
  lemma NoBarging(cfg: Config, s: OpState, w: WaiterId)
    requires cfg.maxVMs > 0 && OpInv(cfg, s.p) && w !in s.gone
    ensures SemInv(Abs(cfg, s))
    ensures OpNext(cfg, s, Acquire(w)).1 == Granted <==> s.p.booted - |s.p.warm| < cfg.maxVMs
    ensures OpNext(cfg, s, Acquire(w)).1 == Granted ==> Live(s.p.waiting, s.gone) == []
  {
    LiveOfAppend(s.p.waiting, [w], s.gone);
  }

  /** Without a cap every request is granted a slot at once, whatever has happened before. */
  lemma {:induction false} UncappedNeverQueues(cfg: Config, s: OpState, ops: seq<Op>)
    requires cfg.maxVMs <= 0 && OpInv(cfg, s.p) && AllAllowed(cfg, s, ops)
    ensures Queued !in OpRun(cfg, s, ops).1 && OpRun(cfg, s, ops).0.p.waiting == []
    decreases |ops|
  {
    if ops != [] {
      UncappedStep(cfg, s, ops[0]);
      hide OpNext, OpInv, Allowed;
      UncappedNeverQueues(cfg, OpNext(cfg, s, ops[0]).0, ops[1..]);
    } else {
      assert OpInv(cfg, s.p);
    }
  }

  lemma UncappedStep(cfg: Config, s: OpState, op: Op)
    requires cfg.maxVMs <= 0 && OpInv(cfg, s.p) && Allowed(s, op)
    ensures OpInv(cfg, OpNext(cfg, s, op).0.p) && OpNext(cfg, s, op).1 != Queued
  {
    match op
    case Clean(now) => SweepKeeps(cfg, s.p, s.vms, now);
    case _ =>
  }
}
