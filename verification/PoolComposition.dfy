/** Runs of the step machine in which the pool's operations are not interrupted, put together
    from the operations: they give the semaphore's outcomes. Steps that leave the pool's
    fields alone may come anywhere in between. */
module PoolComposition {
  import opened Options
  import opened PoolTypes
  import opened PoolMachine
  import opened PoolInvariant
  import opened PoolHistory
  import opened PoolScenarios
  import opened PoolAtomicity
  import opened PoolSemaphore
  import PoolOps

  /** A stretch of a run: an operation as n uninterrupted steps of goroutine t, or a single
      step away from the pool's fields. */
  datatype Part = Whole(op: Op, t: nat, n: nat) | Other(l: Label)

  function Labels(part: Part): seq<Label> {
    match part
    case Other(l) => [l]
    case Whole(op, t, n) =>
      match op
      case Acquire(_) => [Arrive] + Alone(t, n)
      case Clean(now) => [Step(t, Tick(now))] + Alone(t, n)
      case Leave(w) => [Disconnect(w)]
      case _ => Alone(t, n)
  }

  /** Where a part may begin. A new request has a new goroutine, and gets the next waiter's
      name if it has to queue; a client is known by that name from then on. */
  ghost predicate Begins(s: State, part: Part) {
    match part
    case Other(Dies(_)) => true
    case Other(Step(t, c)) => t < |s.threads| && AwayFromPool(s.threads[t]) && !c.Tick?
    case Other(_) => false
    case Whole(op, t, _) =>
      match op
      case Acquire(w) => t == |s.threads| && w == |s.chans|
      case Release(v) => At(s, t, Returning(v))
      case ReleaseBroken => At(s, t, DiscardKilled)
      case FailAll => At(s, t, BootUndo)
      case Leave(w) => w < |s.chans|
      case Clean(_) => At(s, t, SweepIdle)
  }

  /** The goroutine has nothing more to do by itself. */
  ghost predicate Blocked(cfg: Config, s: State, t: nat) {
    Next(cfg, s, Step(t, Go)).None?
  }

  ghost predicate Ends(cfg: Config, s': State, part: Part) {
    part.Whole? && !part.op.Leave? ==> Blocked(cfg, s', part.t)
  }

  ghost predicate Uninterrupted(cfg: Config, s: State, part: Part) {
    && Begins(s, part)
    && Run(cfg, s, Labels(part)).Some?
    && Ends(cfg, Run(cfg, s, Labels(part)).value, part)
  }

  /** What the machine itself shows of an operation's outcome. */
  ghost predicate Shows(s: State, s': State, op: Op, t: nat, out: Out) {
    match op
    case Acquire(w) =>
      || (out == Queued && At(s', t, Waiting(w)))
      || (out == Granted && t < |s'.threads| && (s'.threads[t].Serving? || s'.threads[t].BootCheck?))
    case Release(v) =>
      || (out.Passed? && out.w < |s'.chans| && s'.chans[out.w].buffer == Full(v))
      || (out == Freed && s'.chans == s.chans && (v in s'.pool.warm || v in s'.killed))
    case ReleaseBroken =>
      && t < |s.threads|
      && (|| (out.Passed? && s'.threads == s.threads[t := Finished] + [BootCheck(ForWaiter(out.w))])
          || (out == Freed && s'.threads == s.threads[t := Finished]))
    case FailAll => out.Failed? && AllClosed(s', out.ws)
    case Leave(_) => out == Silent
    case Clean(_) => out == Silent
  }

  // A stretch that ends where its goroutine is blocked is determined by its beginning.

  lemma {:induction false} AloneIsUnique(cfg: Config, s: State, t: nat, a: nat, b: nat)
    requires Run(cfg, s, Alone(t, a)).Some? && Blocked(cfg, Run(cfg, s, Alone(t, a)).value, t)
    requires Run(cfg, s, Alone(t, b)).Some? && Blocked(cfg, Run(cfg, s, Alone(t, b)).value, t)
    ensures a == b
    decreases a
  {
    hide Next;
    if a > 0 && b > 0 {
      AloneUnfolds(t, a);
      AloneUnfolds(t, b);
      AloneIsUnique(cfg, Next(cfg, s, Step(t, Go)).value, t, a - 1, b - 1);
    } else if a > 0 {
      AloneUnfolds(t, a);
    } else if b > 0 {
      AloneUnfolds(t, b);
    }
  }

  lemma AloneUnfolds(t: nat, n: nat)
    requires n > 0
    ensures Alone(t, n) != [] && Alone(t, n)[0] == Step(t, Go) && Alone(t, n)[1..] == Alone(t, n - 1)
  {
  }

  lemma GoKeepsGone(cfg: Config, s: State, t: nat)
    requires Next(cfg, s, Step(t, Go)).Some?
    ensures Next(cfg, s, Step(t, Go)).value.gone == s.gone
    ensures |Next(cfg, s, Step(t, Go)).value.chans| >= |s.chans|
  {
    hide EffectOf;
  }

  lemma {:induction false} AloneKeepsGone(cfg: Config, s: State, t: nat, n: nat)
    requires Run(cfg, s, Alone(t, n)).Some?
    ensures Run(cfg, s, Alone(t, n)).value.gone == s.gone
    ensures |Run(cfg, s, Alone(t, n)).value.chans| >= |s.chans|
    decreases n
  {
    if n > 0 {
      AloneUnfolds(t, n);
      GoKeepsGone(cfg, s, t);
      hide Next;
      AloneKeepsGone(cfg, Next(cfg, s, Step(t, Go)).value, t, n - 1);
    }
  }

  lemma EndsAreBlocked(cfg: Config, s: State, t: nat)
    requires t < |s.threads|
    requires var pc := s.threads[t];
             pc.Finished? || pc.Serving? || pc.BootCheck? || pc.Waiting? || pc.SweepIdle?
    ensures Blocked(cfg, s, t)
  {
  }

  // Each part is a move of the semaphore, or none.

  function AbsOf(cfg: Config, s: State): Sem {
    Abs(cfg, OpState(s.pool, s.vms, s.gone))
  }

  ghost predicate GoneAreQueued(s: State) {
    forall w | w in s.gone :: w < |s.chans|
  }

  /** Between parts: the invariant of the machine and that of the operations. */
  ghost predicate Between(cfg: Config, s: State) {
    cfg.maxVMs > 0 && Inv(cfg, s) && PoolOps.OpInv(cfg, s.pool) && GoneAreQueued(s)
  }

  ghost predicate Refines(cfg: Config, s: State, s': State, op: Op, t: nat) {
    var (sem, out) := SemNext(AbsOf(cfg, s), op);
    sem == AbsOf(cfg, s') && Shows(s, s', op, t, out) && PoolOps.OpInv(cfg, s'.pool)
  }

  lemma AcquireIsAMove(cfg: Config, s: State, t: nat, n: nat)
    requires Between(cfg, s) && Uninterrupted(cfg, s, Whole(Acquire(|s.chans|), t, n))
    ensures Refines(cfg, s, Run(cfg, s, [Arrive] + Alone(t, n)).value, Acquire(|s.chans|), t)
  {
    var op := Acquire(|s.chans|);
    var s1 := s.(threads := s.threads + [Arrived]);
    ArrivesFirst(cfg, s, t, n);
    var m := AdmissionIsARun(cfg, s1, t);
    var s' := Run(cfg, s1, Alone(t, m)).value;
    hide Next, Run, Alone, Inv;
    EndsAreBlocked(cfg, s', t);
    AloneIsUnique(cfg, s1, t, n, m);
    AloneKeepsGone(cfg, s1, t, m);
    OpRefines(cfg, OpState(s.pool, s.vms, s.gone), op);
  }

  lemma ArrivesFirst(cfg: Config, s: State, t: nat, n: nat)
    ensures Run(cfg, s, [Arrive] + Alone(t, n)) == Run(cfg, s.(threads := s.threads + [Arrived]), Alone(t, n))
  {
    assert ([Arrive] + Alone(t, n))[1..] == Alone(t, n);
  }

  lemma ReleaseIsAMove(cfg: Config, s: State, v: VmId, t: nat, n: nat)
    requires Between(cfg, s) && Uninterrupted(cfg, s, Whole(Release(v), t, n))
    ensures Refines(cfg, s, Run(cfg, s, Alone(t, n)).value, Release(v), t)
  {
    var m := ReturnIsARun(cfg, s, t);
    var s' := Run(cfg, s, Alone(t, m)).value;
    hide Next, Run, Alone, Inv, FirstLive, AfterFirstLive;
    EndsAreBlocked(cfg, s', t);
    AloneIsUnique(cfg, s, t, n, m);
    AloneKeepsGone(cfg, s, t, m);
    OpRefines(cfg, OpState(s.pool, s.vms, s.gone), Release(v));
  }

  lemma DiscardIsAMove(cfg: Config, s: State, t: nat, n: nat)
    requires Between(cfg, s) && Uninterrupted(cfg, s, Whole(ReleaseBroken, t, n))
    ensures Refines(cfg, s, Run(cfg, s, Alone(t, n)).value, ReleaseBroken, t)
  {
    DiscardIsAStep(cfg, s, t);
    var s' := Next(cfg, s, Step(t, Go)).value;
    AloneOnce(cfg, t, s, s');
    hide Next, Run, Alone, Inv, FirstLive, AfterFirstLive;
    EndsAreBlocked(cfg, s', t);
    AloneIsUnique(cfg, s, t, n, 1);
    AloneKeepsGone(cfg, s, t, 1);
    OpRefines(cfg, OpState(s.pool, s.vms, s.gone), ReleaseBroken);
  }

  lemma {:induction false} LiveAreThere(q: seq<WaiterId>, gone: set<WaiterId>, w: WaiterId)
    requires w in Live(q, gone)
    ensures w in q
  {
    if q != [] && w != q[0] {
      LiveAreThere(q[1..], gone, w);
    }
  }

  lemma FailIsAMove(cfg: Config, s: State, t: nat, n: nat)
    requires Between(cfg, s) && Uninterrupted(cfg, s, Whole(FailAll, t, n))
    ensures Refines(cfg, s, Run(cfg, s, Alone(t, n)).value, FailAll, t)
  {
    var m := FailedBootIsARun(cfg, s, t);
    var s' := Run(cfg, s, Alone(t, m)).value;
    hide Next, Run, Alone, Inv;
    EndsAreBlocked(cfg, s', t);
    AloneIsUnique(cfg, s, t, n, m);
    AloneKeepsGone(cfg, s, t, m);
    OpRefines(cfg, OpState(s.pool, s.vms, s.gone), FailAll);
    var live := Live(s.pool.waiting, s.gone);
    forall i | 0 <= i < |live| ensures live[i] < |s'.chans| && s'.chans[live[i]].buffer.Closed? {
      LiveAreThere(s.pool.waiting, s.gone, live[i]);
    }
  }

  lemma LeaveIsAMove(cfg: Config, s: State, w: WaiterId, t: nat)
    requires Between(cfg, s) && w < |s.chans|
    ensures Refines(cfg, s, s.(gone := s.gone + {w}), Leave(w), t)
  {
    hide Inv;
    OpRefines(cfg, OpState(s.pool, s.vms, s.gone), Leave(w));
  }

  lemma TicksFirst(cfg: Config, s: State, t: nat, now: int, n: nat)
    requires At(s, t, SweepIdle)
    ensures var s1 := s.(threads := s.threads[t := SweepScan(now, [])]);
            Run(cfg, s, [Step(t, Tick(now))] + Alone(t, n)) == Run(cfg, s1, Alone(t, n))
  {
    StartSweep(cfg, s, t, now, n);
  }

  lemma CleanIsAMove(cfg: Config, s: State, now: int, t: nat, n: nat)
    requires Between(cfg, s) && Uninterrupted(cfg, s, Whole(Clean(now), t, n))
    ensures Refines(cfg, s, Run(cfg, s, [Step(t, Tick(now))] + Alone(t, n)).value, Clean(now), t)
  {
    var s1 := s.(threads := s.threads[t := SweepScan(now, [])]);
    var m := SweepIsARun(cfg, s, t, now);
    TicksFirst(cfg, s, t, now, m);
    TicksFirst(cfg, s, t, now, n);
    var s' := Run(cfg, s1, Alone(t, m)).value;
    hide Next, Run, Alone, Inv;
    EndsAreBlocked(cfg, s', t);
    AloneIsUnique(cfg, s1, t, n, m);
    AloneKeepsGone(cfg, s1, t, m);
    OpRefines(cfg, OpState(s.pool, s.vms, s.gone), Clean(now));
  }

  lemma OneStep(cfg: Config, s: State, l: Label)
    ensures Run(cfg, s, [l]) == Next(cfg, s, l)
  {
    hide Next;
    if Next(cfg, s, l).Some? {
      assert Run(cfg, Next(cfg, s, l).value, [l][1..]) == Next(cfg, s, l);
    }
  }

  /** An operation carried out without interruption is a move of the semaphore, and its outcome
      can be seen in the machine. */
  lemma OperationIsAMove(cfg: Config, s: State, part: Part)
    requires Between(cfg, s) && part.Whole? && Uninterrupted(cfg, s, part)
    ensures Refines(cfg, s, Run(cfg, s, Labels(part)).value, part.op, part.t)
  {
    hide Between, Refines;
    match part.op
    case Acquire(_) => AcquireIsAMove(cfg, s, part.t, part.n);
    case Release(v) => ReleaseIsAMove(cfg, s, v, part.t, part.n);
    case ReleaseBroken => DiscardIsAMove(cfg, s, part.t, part.n);
    case FailAll => FailIsAMove(cfg, s, part.t, part.n);
    case Leave(w) =>
      OneStep(cfg, s, Disconnect(w));
      LeaveIsAMove(cfg, s, w, part.t);
    case Clean(now) => CleanIsAMove(cfg, s, now, part.t, part.n);
  }

  lemma OtherIsInvisible(cfg: Config, s: State, l: Label)
    requires Begins(s, Other(l)) && Next(cfg, s, l).Some?
    ensures var s' := Next(cfg, s, l).value;
            s'.pool == s.pool && s'.gone == s.gone
  {
    if l.Step? {
      AwayKeepsPool(cfg, s, s.threads[l.t], l.c);
    }
  }

  lemma StepKeepsGone(cfg: Config, s: State, l: Label)
    requires GoneAreQueued(s) && Next(cfg, s, l).Some? && (l.Disconnect? ==> l.w < |s.chans|)
    ensures GoneAreQueued(Next(cfg, s, l).value)
  {
  }

  lemma {:induction false} RunKeepsGone(cfg: Config, s: State, ls: seq<Label>)
    requires GoneAreQueued(s) && Run(cfg, s, ls).Some?
    requires forall k | 0 <= k < |ls| :: ls[k].Disconnect? ==> ls[k].w < |s.chans|
    ensures GoneAreQueued(Run(cfg, s, ls).value)
    decreases |ls|
  {
    hide Next, GoneAreQueued;
    if ls != [] {
      StepKeepsGone(cfg, s, ls[0]);
      ChansOnlyGrow(cfg, s, ls[0]);
      RunKeepsGone(cfg, Next(cfg, s, ls[0]).value, ls[1..]);
    }
  }

  lemma ChansOnlyGrow(cfg: Config, s: State, l: Label)
    requires Next(cfg, s, l).Some?
    ensures |Next(cfg, s, l).value.chans| >= |s.chans|
  {
  }

  lemma {:induction false} AloneNeverDisconnects(t: nat, n: nat)
    ensures forall k | 0 <= k < |Alone(t, n)| :: Alone(t, n)[k] == Step(t, Go)
  {
    if n > 0 {
      AloneNeverDisconnects(t, n - 1);
    }
  }

  lemma PartKeepsBetween(cfg: Config, s: State, part: Part)
    requires Between(cfg, s) && Uninterrupted(cfg, s, part)
    ensures Between(cfg, Run(cfg, s, Labels(part)).value)
    ensures part.Other? ==> AbsOf(cfg, Run(cfg, s, Labels(part)).value) == AbsOf(cfg, s)
  {
    var s' := Run(cfg, s, Labels(part)).value;
    InvRun(cfg, s, Labels(part));
    if part.Whole? {
      OperationIsAMove(cfg, s, part);
      AloneNeverDisconnects(part.t, part.n);
    } else {
      OneStep(cfg, s, part.l);
      OtherIsInvisible(cfg, s, part.l);
    }
    assert PoolOps.OpInv(cfg, s'.pool);
    hide Next, Run, Inv, Alone, Refines;
    RunKeepsGone(cfg, s, Labels(part));
  }

  // Whole runs.

  ghost predicate AllUninterrupted(cfg: Config, s: State, parts: seq<Part>)
    decreases |parts|
  {
    parts != [] ==>
      && Uninterrupted(cfg, s, parts[0])
      && AllUninterrupted(cfg, Run(cfg, s, Labels(parts[0])).value, parts[1..])
  }

  function Ops(parts: seq<Part>): seq<Op> {
    if parts == [] then [] else (if parts[0].Whole? then [parts[0].op] else []) + Ops(parts[1..])
  }

  ghost function After(cfg: Config, s: State, parts: seq<Part>): State
    requires AllUninterrupted(cfg, s, parts)
    decreases |parts|
  {
    if parts == [] then s else After(cfg, Run(cfg, s, Labels(parts[0])).value, parts[1..])
  }

  /** The machine shows outs, one for each operation, in this order. */
  ghost predicate AllShow(cfg: Config, s: State, parts: seq<Part>, outs: seq<Out>)
    requires AllUninterrupted(cfg, s, parts)
    decreases |parts|
  {
    if parts == [] then outs == []
    else
      var s' := Run(cfg, s, Labels(parts[0])).value;
      if parts[0].Other? then AllShow(cfg, s', parts[1..], outs)
      else
        && outs != []
        && Shows(s, s', parts[0].op, parts[0].t, outs[0])
        && AllShow(cfg, s', parts[1..], outs[1..])
  }

  lemma {:induction false} PartsAreMoves(cfg: Config, s: State, parts: seq<Part>)
    requires Between(cfg, s) && AllUninterrupted(cfg, s, parts)
    ensures var (sem, outs) := SemRun(AbsOf(cfg, s), Ops(parts));
            sem == AbsOf(cfg, After(cfg, s, parts)) && AllShow(cfg, s, parts, outs)
    decreases |parts|
  {
    if parts != [] {
      assert Run(cfg, s, Labels(parts[0])).Some?;
      hide Between, Uninterrupted, Run, Labels, SemNext, AbsOf, Shows;
      var s' := Run(cfg, s, Labels(parts[0])).value;
      PartKeepsBetween(cfg, s, parts[0]);
      PartsAreMoves(cfg, s', parts[1..]);
      if parts[0].Whole? {
        OperationIsAMove(cfg, s, parts[0]);
        MovesFirst(AbsOf(cfg, s), parts[0].op, Ops(parts[1..]));
        assert Ops(parts) == [parts[0].op] + Ops(parts[1..]);
      } else {
        assert Ops(parts) == [] + Ops(parts[1..]) == Ops(parts[1..]);
      }
    }
  }

  lemma MovesFirst(s: Sem, op: Op, ops: seq<Op>)
    ensures var (n, out) := SemNext(s, op);
            var (end, outs) := SemRun(n, ops);
            SemRun(s, [op] + ops) == (end, [out] + outs)
  {
    assert ([op] + ops)[1..] == ops;
  }

  /** A pool whose operations are not interrupted is a first-come-first-served semaphore: from
      the empty pool on, whatever else happens in between, every request is granted or queued,
      every slot passed on or freed and every queue failed as the semaphore says. */
  lemma UninterruptedPoolIsASemaphore(cfg: Config, parts: seq<Part>)
    requires cfg.maxVMs > 0 && AllUninterrupted(cfg, Init(), parts)
    ensures var (sem, outs) := SemRun(Sem(cfg.maxVMs, 0, []), Ops(parts));
            sem == AbsOf(cfg, After(cfg, Init(), parts)) && AllShow(cfg, Init(), parts, outs)
  {
    InvInit(cfg);
    assert Between(cfg, Init());
    assert AbsOf(cfg, Init()) == Sem(cfg.maxVMs, 0, []);
    PartsAreMoves(cfg, Init(), parts);
  }
}
