/** The data the VM pool works on, and the queue rule its lock sections share. */
module PoolTypes {
  import opened Options

  /** Machines and waiters are named by the order in which they were created. */
  type VmId = nat
  type WaiterId = nat

  datatype StartType = Cold | Restored | Warm

  /** What one invocation reports to the metrics service. */
  datatype Record = Record(startType: StartType, bootMs: int, infraError: bool)

  /** A machine, with every invocation record emitted for it so far. */
  datatype VM = VM(functionName: string, bootKind: StartType, bootMs: int, isFresh: bool, lastUsed: int,
                   history: seq<Record>)

  datatype Config = Config(functionName: string, maxVMs: int, warmPoolSize: nat)

  /** The fields the pool's mutex and its warm channel protect. */
  datatype PoolView = PoolView(warm: seq<VmId>, waiting: seq<WaiterId>, booted: int)

  /** Times are milliseconds. */
  const IDLE_TIMEOUT := 120_000

  /** Identifiers in reachable states are always in range (proved as part of the pool's
      invariant), so this default is never read. */
  const NO_VM := VM("", Cold, 0, false, 0, [])

  function Look(vms: seq<VM>, v: VmId): VM {
    if v < |vms| then vms[v] else NO_VM
  }

  predicate MayBoot(maxVMs: int, booted: int) {
    maxVMs <= 0 || booted < maxVMs
  }

  predicate IdleTooLong(now: int, lastUsed: int) {
    now - lastUsed > IDLE_TIMEOUT
  }

  /** The first waiter whose client is still there. */
  function FirstLive(queue: seq<WaiterId>, gone: set<WaiterId>): Option<WaiterId> {
    if queue == [] then None
    else if queue[0] in gone then FirstLive(queue[1..], gone)
    else Some(queue[0])
  }

  /** The queue once the first live waiter, and everybody before it, has left. */
  function AfterFirstLive(queue: seq<WaiterId>, gone: set<WaiterId>): seq<WaiterId> {
    if queue == [] then []
    else if queue[0] in gone then AfterFirstLive(queue[1..], gone)
    else queue[1..]
  }

  ghost predicate IsSuffix(rest: seq<WaiterId>, queue: seq<WaiterId>) {
    |rest| <= |queue| && rest == queue[|queue| - |rest|..]
  }

  /** Popping removes a nonempty prefix of a nonempty queue. */
  lemma {:induction false} PopShortens(queue: seq<WaiterId>, gone: set<WaiterId>)
    ensures IsSuffix(AfterFirstLive(queue, gone), queue)
    ensures queue != [] ==> |AfterFirstLive(queue, gone)| < |queue|
  {
    if queue != [] && queue[0] in gone {
      PopShortens(queue[1..], gone);
    }
  }

  /** The queue as a client sees it: the waiters that are still there. */
  function Live(queue: seq<WaiterId>, gone: set<WaiterId>): seq<WaiterId> {
    if queue == [] then []
    else (if queue[0] in gone then [] else [queue[0]]) + Live(queue[1..], gone)
  }

  lemma {:induction false} LiveIsEmpty(queue: seq<WaiterId>, gone: set<WaiterId>)
    ensures FirstLive(queue, gone).None? <==> Live(queue, gone) == []
    ensures FirstLive(queue, gone).None? ==> AfterFirstLive(queue, gone) == []
  {
    if queue != [] {
      LiveIsEmpty(queue[1..], gone);
    }
  }

  /** Popping takes exactly the head of the queue as clients see it. */
  lemma {:induction false} PopTakesLiveHead(queue: seq<WaiterId>, gone: set<WaiterId>)
    requires FirstLive(queue, gone).Some?
    ensures Live(queue, gone) == [FirstLive(queue, gone).value] + Live(AfterFirstLive(queue, gone), gone)
  {
    if queue[0] in gone {
      PopTakesLiveHead(queue[1..], gone);
    }
  }

  lemma {:induction false} LiveOfAppend(a: seq<WaiterId>, b: seq<WaiterId>, gone: set<WaiterId>)
    ensures Live(a + b, gone) == Live(a, gone) + Live(b, gone)
  {
    if a == [] {
      assert a + b == b;
    } else {
      assert (a + b)[1..] == a[1..] + b;
      LiveOfAppend(a[1..], b, gone);
    }
  }

  /** The machines of q that have not been idle too long, in order. */
  function Recent(vms: seq<VM>, now: int, q: seq<VmId>): seq<VmId> {
    if q == [] then []
    else (if IdleTooLong(now, Look(vms, q[0]).lastUsed) then [] else [q[0]]) + Recent(vms, now, q[1..])
  }

  function Stale(vms: seq<VM>, now: int, q: seq<VmId>): seq<VmId> {
    if q == [] then []
    else (if IdleTooLong(now, Look(vms, q[0]).lastUsed) then [q[0]] else []) + Stale(vms, now, q[1..])
  }

  lemma {:induction false} RecentIsShorter(vms: seq<VM>, now: int, q: seq<VmId>)
    ensures |Recent(vms, now, q)| + |Stale(vms, now, q)| == |q|
  {
    if q != [] {
      RecentIsShorter(vms, now, q[1..]);
    }
  }

  /** q is made of a and b, both in their own order. */
  ghost predicate Merges(a: seq<VmId>, b: seq<VmId>, q: seq<VmId>)
    decreases |q|
  {
    if q == [] then a == [] && b == []
    else
      || (a != [] && a[0] == q[0] && Merges(a[1..], b, q[1..]))
      || (b != [] && b[0] == q[0] && Merges(a, b[1..], q[1..]))
  }

  lemma {:induction false} MergeIsUnion(a: seq<VmId>, b: seq<VmId>, q: seq<VmId>)
    requires Merges(a, b, q)
    ensures |a| + |b| == |q| && multiset(a) + multiset(b) == multiset(q)
    decreases |q|
  {
    if q != [] {
      assert q == [q[0]] + q[1..];
      if a != [] && a[0] == q[0] && Merges(a[1..], b, q[1..]) {
        assert a == [a[0]] + a[1..];
        MergeIsUnion(a[1..], b, q[1..]);
      } else {
        assert b == [b[0]] + b[1..];
        MergeIsUnion(a, b[1..], q[1..]);
      }
    }
  }

  /** A machine is stale if and only if its last use is more than two minutes ago; the recent and the
      stale ones together are all of them, each in their order. */
  lemma {:induction false} SplitByAge(vms: seq<VM>, now: int, q: seq<VmId>)
    ensures forall v | v in Recent(vms, now, q) :: now - Look(vms, v).lastUsed <= 120_000
    ensures forall v | v in Stale(vms, now, q) :: now - Look(vms, v).lastUsed > 120_000
    ensures Merges(Recent(vms, now, q), Stale(vms, now, q), q)
  {
    if q != [] {
      SplitByAge(vms, now, q[1..]);
      var a, b := Recent(vms, now, q[1..]), Stale(vms, now, q[1..]);
      if IdleTooLong(now, Look(vms, q[0]).lastUsed) {
        assert Stale(vms, now, q) == [q[0]] + b && ([q[0]] + b)[1..] == b && Recent(vms, now, q) == a;
      } else {
        assert Recent(vms, now, q) == [q[0]] + a && ([q[0]] + a)[1..] == a && Stale(vms, now, q) == b;
      }
    }
  }
}
