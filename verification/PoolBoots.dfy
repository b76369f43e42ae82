/** How machines come up, and what is recorded of them: on any run, the kind and the time of a boot
    are those of the one step at which it was ready. */
module PoolBoots {
  import opened Options
  import opened Folds
  import opened PoolTypes
  import opened PoolMachine
  import opened PoolAccounting
  import opened PoolInvariant
  import opened PoolHistory

  datatype Up = Up(kind: StartType, ms: int)

  /** The step at which machine v is ready, and as what. */
  function ReadyAs(s: State, l: Label, v: VmId): Option<Up> {
    if !l.Step? || l.t >= |s.threads| || !l.c.Ready? then None
    else
      match s.threads[l.t]
      case RestoreWait(_, x) => if x == v then Some(Up(Restored, l.c.ms)) else None
      case ColdWait(_, x) => if x == v then Some(Up(Cold, l.c.ms)) else None
      case _ => None
  }

  /** The step at which machine v is spawned, and what for. */
  function SpawnedAs(s: State, l: Label, v: VmId): Option<StartType> {
    if !l.Step? || l.t >= |s.threads| || !l.c.Go? || v != |s.vms| then None
    else
      match s.threads[l.t]
      case RestoreSpawn(_) => Some(Restored)
      case ColdSpawn(_) => Some(Cold)
      case _ => None
  }

  /** All the times machine v was ready along a run. */
  function Ups(cfg: Config, s: State, ls: seq<Label>, v: VmId): seq<Up>
    requires Run(cfg, s, ls).Some?
    decreases |ls|
  {
    if ls == [] then []
    else
      var up := ReadyAs(s, ls[0], v);
      (if up.Some? then [up.value] else []) + Ups(cfg, Next(cfg, s, ls[0]).value, ls[1..], v)
  }

  /** What machine v was spawned for along a run. */
  function SpawnedFor(cfg: Config, s: State, ls: seq<Label>, v: VmId): Option<StartType>
    requires Run(cfg, s, ls).Some?
    decreases |ls|
  {
    if ls == [] then None
    else if SpawnedAs(s, ls[0], v).Some? then SpawnedAs(s, ls[0], v)
    else SpawnedFor(cfg, Next(cfg, s, ls[0]).value, ls[1..], v)
  }

  predicate WaitsFor(pc: PC, v: VmId, kind: StartType) {
    (pc.RestoreWait? && pc.v == v && kind.Restored?) || (pc.ColdWait? && pc.v == v && kind.Cold?)
  }

  /** Goroutine t waits for machine v to come up as kind. */
  ghost predicate ComingUp(s: State, t: nat, v: VmId, kind: StartType) {
    v < |s.vms| && t < |s.threads| && WaitsFor(s.threads[t], v, kind)
  }

  /** Machine v has come up, or has been killed. */
  ghost predicate Over(s: State, v: VmId) {
    && v < |s.vms|
    && (forall t | 0 <= t < |s.threads| ::
          !WaitsFor(s.threads[t], v, Restored) && !WaitsFor(s.threads[t], v, Cold))
  }

  // Steps.

  /** A goroutine starts to wait only for the machine it has just spawned. */
  lemma WaitsForItsSpawn(cfg: Config, s: State, pc: PC, c: Choice, v: VmId, kind: StartType)
    requires EffectOf(cfg, s, pc, c).Some?
    ensures WaitsFor(EffectOf(cfg, s, pc, c).value.next, v, kind) ==>
              && v == |s.vms| && EffectOf(cfg, s, pc, c).value.vm.Spawn? && c.Go?
              && (kind.Restored? ==> pc.RestoreSpawn?) && (kind.Cold? ==> pc.ColdSpawn?)
    ensures !WaitsFor(Forked(EffectOf(cfg, s, pc, c).value.fork), v, kind)
    ensures EffectOf(cfg, s, pc, c).value.vm.Spawn? ==>
              c.Go? && ((pc.RestoreSpawn? && WaitsFor(EffectOf(cfg, s, pc, c).value.next, |s.vms|, Restored))
                        || (pc.ColdSpawn? && WaitsFor(EffectOf(cfg, s, pc, c).value.next, |s.vms|, Cold)))
  {
  }

  /** Kind and time of a boot change only where the machine is ready, to what it is ready as. */
  lemma ReadyDecides(cfg: Config, s: State, t: nat, c: Choice, v: VmId)
    requires t < |s.threads| && EffectOf(cfg, s, s.threads[t], c).Some? && v < |s.vms|
    ensures var s', up := Apply(cfg, s, t, EffectOf(cfg, s, s.threads[t], c).value), ReadyAs(s, Step(t, c), v);
            && v < |s'.vms|
            && s'.vms[v].bootKind == (if up.Some? then up.value.kind else s.vms[v].bootKind)
            && s'.vms[v].bootMs == (if up.Some? then up.value.ms else s.vms[v].bootMs)
            && (up.Some? ==> s'.vms[v].history == s.vms[v].history)
  {
    ReadyEffect(cfg, s, t, c, v);
    hide EffectOf;
  }

  lemma ReadyEffect(cfg: Config, s: State, t: nat, c: Choice, v: VmId)
    requires t < |s.threads| && EffectOf(cfg, s, s.threads[t], c).Some? && v < |s.vms|
    ensures var op, up := EffectOf(cfg, s, s.threads[t], c).value.vm, ReadyAs(s, Step(t, c), v);
            && (op.Update? && op.v == v ==>
                  && op.vm.bootKind == (if up.Some? then up.value.kind else s.vms[v].bootKind)
                  && op.vm.bootMs == (if up.Some? then up.value.ms else s.vms[v].bootMs)
                  && (up.Some? ==> op.vm.history == s.vms[v].history))
            && (!(op.Update? && op.v == v) ==> up.None?)
  {
    match s.threads[t]
    case RestoreWait(k, x) => if k.ForRequest? { }
    case ColdWait(k, x) => if k.ForRequest? { }
    case _ =>
  }

  lemma WaiterHolds(s: State, t: nat, v: VmId, kind: StartType)
    requires t < |s.threads| && WaitsFor(s.threads[t], v, kind)
    ensures Held(s, v) > 0
  {
    SumHas(s.threads, t, Holds(v));
    assert Holds(v)(s.threads[t]) == Holding(s.threads[t], v) == 1;
  }

  /** The machine a step makes ready is waited for by the stepping goroutine. */
  lemma ReadyIsHeld(s: State, l: Label, v: VmId)
    requires ReadyAs(s, l, v).Some?
    ensures l.Step? && l.t < |s.threads| && WaitsFor(s.threads[l.t], v, ReadyAs(s, l, v).value.kind)
    ensures Held(s, v) > 0
  {
    WaiterHolds(s, l.t, v, ReadyAs(s, l, v).value.kind);
  }

  lemma NextHeld(cfg: Config, s: State, t: nat, c: Choice, v: VmId)
    requires Core(cfg, s) && t < |s.threads| && EffectOf(cfg, s, s.threads[t], c).Some?
    ensures var e := EffectOf(cfg, s, s.threads[t], c).value;
            Held(Apply(cfg, s, t, e), v) + One(e.vm == Kill(v)) == Held(s, v) + One(e.vm.Spawn? && v == |s.vms|)
  {
    hide Balanced, EffectOf, MovesVm;
    var e := EffectOf(cfg, s, s.threads[t], c).value;
    ChanFitsStep(cfg, s, t, c);
    ClosesAreSafe(s, t);
    BalancedVm(cfg, s, s.threads[t], c, v);
    HeldStep(cfg, s, t, e, v);
  }

  lemma NextHolds(cfg: Config, s: State, t: nat, e: Effect, x: VmId)
    requires t < |s.threads| && Holding(e.next, x) > 0
    ensures Held(Apply(cfg, s, t, e), x) > 0
  {
    var s' := Apply(cfg, s, t, e);
    assert s'.threads[t] == e.next;
    SumHas(s'.threads, t, Holds(x));
    assert Holds(x)(s'.threads[t]) == Holding(e.next, x);
  }

  /** A machine that is nowhere stays as it is. */
  lemma NowhereStep(cfg: Config, s: State, l: Label, v: VmId)
    requires Core(cfg, s) && Next(cfg, s, l).Some? && v < |s.vms| && Held(s, v) == 0
    ensures var s' := Next(cfg, s, l).value;
            v < |s'.vms| && Held(s', v) == 0 && s'.vms[v] == s.vms[v] && ReadyAs(s, l, v).None?
  {
    if ReadyAs(s, l, v).Some? {
      ReadyIsHeld(s, l, v);
    }
    match l
    case Step(t, c) =>
      var e := EffectOf(cfg, s, s.threads[t], c).value;
      NextHeld(cfg, s, t, c, v);
      ChangedIsHeld(cfg, s, s.threads[t], c);
      hide EffectOf, Core, Held;
      if Changed(s, e.vm) == Some(v) {
        NextHolds(cfg, s, t, e, v);
      }
      OthersUnchanged(cfg, s, e.vm, v);
    case Arrive => SumPush(s.threads, Arrived, Holds(v));
    case _ =>
  }

  lemma {:induction false} NowhereRun(cfg: Config, s: State, ls: seq<Label>, v: VmId)
    requires Inv(cfg, s) && Run(cfg, s, ls).Some? && v < |s.vms| && Held(s, v) == 0
    ensures var s' := Run(cfg, s, ls).value; v < |s'.vms| && s'.vms[v] == s.vms[v] && Ups(cfg, s, ls, v) == []
    decreases |ls|
  {
    hide Next, Core, Histories, ReadyAs;
    if ls != [] {
      InvStep(cfg, s, ls[0]);
      NowhereStep(cfg, s, ls[0], v);
      NowhereRun(cfg, Next(cfg, s, ls[0]).value, ls[1..], v);
    }
  }

  /** Once it has come up, a machine never comes up again. */
  lemma OverStep(cfg: Config, s: State, l: Label, v: VmId)
    requires Next(cfg, s, l).Some? && Over(s, v)
    ensures var s' := Next(cfg, s, l).value;
            && Over(s', v) && ReadyAs(s, l, v).None?
            && s'.vms[v].bootKind == s.vms[v].bootKind && s'.vms[v].bootMs == s.vms[v].bootMs
  {
    match l
    case Step(t, c) =>
      WaitsForItsSpawn(cfg, s, s.threads[t], c, v, Restored);
      WaitsForItsSpawn(cfg, s, s.threads[t], c, v, Cold);
      ReadyDecides(cfg, s, t, c, v);
      hide EffectOf;
    case _ =>
  }

  lemma {:induction false} OverRun(cfg: Config, s: State, ls: seq<Label>, v: VmId)
    requires Run(cfg, s, ls).Some? && Over(s, v)
    ensures var s' := Run(cfg, s, ls).value;
            && v < |s'.vms| && Ups(cfg, s, ls, v) == []
            && s'.vms[v].bootKind == s.vms[v].bootKind && s'.vms[v].bootMs == s.vms[v].bootMs
    decreases |ls|
  {
    hide Next, ReadyAs, Over;
    if ls != [] {
      OverStep(cfg, s, ls[0], v);
      OverRun(cfg, Next(cfg, s, ls[0]).value, ls[1..], v);
    }
    assert v < |s.vms| by {
      OverExists(s, v);
    }
  }

  lemma OverExists(s: State, v: VmId)
    requires Over(s, v)
    ensures v < |s.vms|
  {
  }

  /** What a machine's record says agrees with when it was ready, and as what. */
  ghost predicate TrueToBoot(vm: VM, ups: seq<Up>, kind: StartType) {
    || (ups == [] && vm.history == [] && vm.bootKind.Cold?)
    || (|ups| == 1 && ups[0].kind == kind && vm.bootKind == kind && vm.bootMs == ups[0].ms)
  }

  /** Only its own goroutine can make a machine ready, or end its boot. */
  lemma OtherStep(cfg: Config, s: State, l: Label, t: nat, v: VmId, kind: StartType)
    requires Core(cfg, s) && Next(cfg, s, l).Some? && ComingUp(s, t, v, kind) && !(l.Step? && l.t == t)
    ensures var s' := Next(cfg, s, l).value;
            ComingUp(s', t, v, kind) && ReadyAs(s, l, v).None? && s'.vms[v] == s.vms[v]
  {
    assert Holding(s.threads[t], v) == 1;
    if l.Step? {
      OnlyThread(s, t, l.t, v);
      if ReadyAs(s, l, v).Some? {
        ReadyIsHeld(s, l, v);
      }
      var e := EffectOf(cfg, s, s.threads[l.t], l.c).value;
      ChangedIsHeld(cfg, s, s.threads[l.t], l.c);
      hide EffectOf;
      if Changed(s, e.vm) == Some(v) {
        BothHold(cfg, s, l.t, l.c, t, v);
      }
      OthersUnchanged(cfg, s, e.vm, v);
    }
  }

  lemma BothHold(cfg: Config, s: State, u: nat, c: Choice, t: nat, v: VmId)
    requires Core(cfg, s) && u < |s.threads| && EffectOf(cfg, s, s.threads[u], c).Some?
    requires t < |s.threads| && t != u && Holding(s.threads[t], v) > 0
    ensures Holding(EffectOf(cfg, s, s.threads[u], c).value.next, v) == 0
  {
    hide EffectOf, Core;
    var e := EffectOf(cfg, s, s.threads[u], c).value;
    ExclusiveStep(cfg, s, u, c);
    var s' := Apply(cfg, s, u, e);
    assert s'.threads[t] == s.threads[t] && s'.threads[u] == e.next;
    OnlyThread(s', t, u, v);
  }

  /** Its own step: the machine is ready, or it is killed. */
  lemma OwnStep(cfg: Config, s: State, t: nat, c: Choice, v: VmId, kind: StartType)
    requires Core(cfg, s) && Next(cfg, s, Step(t, c)).Some? && ComingUp(s, t, v, kind)
    ensures var s', up := Next(cfg, s, Step(t, c)).value, ReadyAs(s, Step(t, c), v);
            && v < |s'.vms|
            && (up.Some? ==> up.value.kind == kind && Over(s', v) && s'.vms[v].bootKind == kind
                             && s'.vms[v].bootMs == up.value.ms)
            && (up.None? ==> Held(s', v) == 0 && s'.vms[v] == s.vms[v])
  {
    var up := ReadyAs(s, Step(t, c), v);
    ReadyDecides(cfg, s, t, c, v);
    NextHeld(cfg, s, t, c, v);
    WaiterHolds(s, t, v, kind);
    assert Holding(s.threads[t], v) == 1;
    if up.Some? {
      NobodyElseWaits(cfg, s, t, c, v);
    } else {
      FailedBootKills(cfg, s, t, c, v, kind);
    }
  }

  lemma FailedBootKills(cfg: Config, s: State, t: nat, c: Choice, v: VmId, kind: StartType)
    requires Next(cfg, s, Step(t, c)).Some? && ComingUp(s, t, v, kind) && !c.Ready?
    ensures EffectOf(cfg, s, s.threads[t], c).value.vm == Kill(v)
    ensures Next(cfg, s, Step(t, c)).value.vms == s.vms
  {
  }

  lemma NobodyElseWaits(cfg: Config, s: State, t: nat, c: Choice, v: VmId)
    requires Core(cfg, s) && Next(cfg, s, Step(t, c)).Some? && v < |s.vms| && Holding(s.threads[t], v) > 0
    requires s.threads[t].RestoreWait? || s.threads[t].ColdWait?
    ensures Over(Next(cfg, s, Step(t, c)).value, v)
  {
    WaitsForItsSpawn(cfg, s, s.threads[t], c, v, Restored);
    WaitsForItsSpawn(cfg, s, s.threads[t], c, v, Cold);
    var s' := Next(cfg, s, Step(t, c)).value;
    hide EffectOf, Core;
    forall u | 0 <= u < |s'.threads|
      ensures !WaitsFor(s'.threads[u], v, Restored) && !WaitsFor(s'.threads[u], v, Cold)
    {
      if u < |s.threads| && u != t {
        assert Core(cfg, s);
        OthersHoldNothing(cfg, s, t, u, v);
      }
    }
  }

  lemma OthersHoldNothing(cfg: Config, s: State, t: nat, u: nat, v: VmId)
    requires Core(cfg, s) && t < |s.threads| && u < |s.threads| && t != u && Holding(s.threads[t], v) > 0
    ensures !WaitsFor(s.threads[u], v, Restored) && !WaitsFor(s.threads[u], v, Cold)
  {
    OnlyThread(s, t, u, v);
  }

  lemma {:induction false} ComingUpRun(cfg: Config, s: State, ls: seq<Label>, t: nat, v: VmId, kind: StartType)
    requires Inv(cfg, s) && Run(cfg, s, ls).Some? && ComingUp(s, t, v, kind)
    requires s.vms[v].history == [] && s.vms[v].bootKind.Cold?
    ensures var s' := Run(cfg, s, ls).value;
            v < |s'.vms| && TrueToBoot(s'.vms[v], Ups(cfg, s, ls, v), kind)
    decreases |ls|
  {
    assert v < |s.vms|;
    hide Next, Core, Histories, ReadyAs, ComingUp, Over;
    if ls != [] {
      var s1 := Next(cfg, s, ls[0]).value;
      InvStep(cfg, s, ls[0]);
      if ls[0].Step? && ls[0].t == t {
        OwnStep(cfg, s, t, ls[0].c, v, kind);
        if ReadyAs(s, ls[0], v).Some? {
          OverRun(cfg, s1, ls[1..], v);
        } else {
          NowhereRun(cfg, s1, ls[1..], v);
        }
      } else {
        OtherStep(cfg, s, ls[0], t, v, kind);
        ComingUpRun(cfg, s1, ls[1..], t, v, kind);
      }
    }
  }

  /** Before it exists. */
  lemma BeforeSpawn(cfg: Config, s: State, l: Label, v: VmId)
    requires Core(cfg, s) && Next(cfg, s, l).Some? && v >= |s.vms|
    ensures var s', kind := Next(cfg, s, l).value, SpawnedAs(s, l, v);
            && ReadyAs(s, l, v).None?
            && (kind.None? ==> v >= |s'.vms|)
            && (kind.Some? ==>
                  && l.Step? && ComingUp(s', l.t, v, kind.value)
                  && s'.vms[v].history == [] && s'.vms[v].bootKind.Cold?)
  {
    if ReadyAs(s, l, v).Some? {
      ReadyIsHeld(s, l, v);
    }
    if l.Step? {
      WaitsForItsSpawn(cfg, s, s.threads[l.t], l.c, v, Restored);
      WaitsForItsSpawn(cfg, s, s.threads[l.t], l.c, v, Cold);
      SpawnStep(cfg, s, l.t, l.c);
      hide EffectOf;
    }
  }

  lemma SpawnStep(cfg: Config, s: State, t: nat, c: Choice)
    requires t < |s.threads| && EffectOf(cfg, s, s.threads[t], c).Some?
    ensures EffectOf(cfg, s, s.threads[t], c).value.vm.Spawn? <==> SpawnedAs(s, Step(t, c), |s.vms|).Some?
  {
  }

  lemma {:induction false} FromSpawn(cfg: Config, s: State, ls: seq<Label>, v: VmId)
    requires Inv(cfg, s) && Run(cfg, s, ls).Some? && v >= |s.vms|
    ensures var s' := Run(cfg, s, ls).value;
            v < |s'.vms| ==>
              && SpawnedFor(cfg, s, ls, v).Some?
              && TrueToBoot(s'.vms[v], Ups(cfg, s, ls, v), SpawnedFor(cfg, s, ls, v).value)
    decreases |ls|
  {
    hide Next, Core, Histories, ReadyAs, SpawnedAs, ComingUp, TrueToBoot;
    if ls != [] {
      var s1 := Next(cfg, s, ls[0]).value;
      InvStep(cfg, s, ls[0]);
      BeforeSpawn(cfg, s, ls[0], v);
      assert Ups(cfg, s, ls, v) == Ups(cfg, s1, ls[1..], v);
      if SpawnedAs(s, ls[0], v).Some? {
        ComingUpRun(cfg, s1, ls[1..], ls[0].t, v, SpawnedAs(s, ls[0], v).value);
      } else {
        FromSpawn(cfg, s1, ls[1..], v);
      }
    }
  }

  /** On any run from the empty pool, a machine comes up at most once, as what it was spawned for; its
      kind is Restored if and only if it was spawned for a restore and came up; the first record of it
      has the kind and the time of that one step, all later ones are warm; and every machine that has
      served, serves or is warm has come up. */
  lemma BootsAreRecorded(cfg: Config, ls: seq<Label>, v: VmId)
    requires Run(cfg, Init(), ls).Some? && v < |Run(cfg, Init(), ls).value.vms|
    ensures var s, ups, kind := Run(cfg, Init(), ls).value, Ups(cfg, Init(), ls, v), SpawnedFor(cfg, Init(), ls, v);
            var vm := s.vms[v];
            && kind.Some? && |ups| <= 1
            && (ups != [] ==> ups[0].kind == kind.value && vm.bootKind == kind.value && vm.bootMs == ups[0].ms)
            && (vm.bootKind.Restored? <==> ups != [] && kind.value.Restored?)
            && (vm.history != [] ==>
                  ups != [] && vm.history[0].startType == ups[0].kind && vm.history[0].bootMs == ups[0].ms)
            && (forall i | 1 <= i < |vm.history| :: vm.history[i].startType.Warm? && vm.history[i].bootMs == 0)
            && (v in s.pool.warm ==> ups != [])
  {
    InvInit(cfg);
    FromSpawn(cfg, Init(), ls, v);
    InvRun(cfg, Init(), ls);
    var s := Run(cfg, Init(), ls).value;
    SpawnKinds(cfg, Init(), ls, v);
    hide Run, Ups, SpawnedFor, Core;
    assert VmOk(cfg, s.vms[v]);
    if v in s.pool.warm {
      var i :| 0 <= i < |s.pool.warm| && s.pool.warm[i] == v;
      assert Settled(VmAt(s, s.pool.warm[i]));
    }
  }

  lemma {:induction false} SpawnKinds(cfg: Config, s: State, ls: seq<Label>, v: VmId)
    requires Run(cfg, s, ls).Some? && SpawnedFor(cfg, s, ls, v).Some?
    ensures !SpawnedFor(cfg, s, ls, v).value.Warm?
    decreases |ls|
  {
    hide Next;
    if SpawnedAs(s, ls[0], v).None? {
      SpawnKinds(cfg, Next(cfg, s, ls[0]).value, ls[1..], v);
    }
  }
}
