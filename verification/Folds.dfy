/** Sums and multiset unions over a sequence, and how they react to changing one
    element. The pool's accounting is stated with them: every goroutine and every
    channel contributes the slots, machines and tickets it holds. */
module Folds {

  ghost function Sum<T>(xs: seq<T>, f: T -> nat): nat {
    if xs == [] then 0 else Sum(xs[..|xs| - 1], f) + f(xs[|xs| - 1])
  }

  ghost function Gather<T>(xs: seq<T>, f: T -> multiset<nat>): multiset<nat> {
    if xs == [] then multiset{} else Gather(xs[..|xs| - 1], f) + f(xs[|xs| - 1])
  }

  lemma SumPush<T>(xs: seq<T>, x: T, f: T -> nat)
    ensures Sum(xs + [x], f) == Sum(xs, f) + f(x)
  {
    assert (xs + [x])[..|xs|] == xs;
  }

  lemma {:induction false} SumSet<T>(xs: seq<T>, i: nat, x: T, f: T -> nat)
    requires i < |xs|
    ensures Sum(xs[i := x], f) + f(xs[i]) == Sum(xs, f) + f(x)
  {
    var n := |xs| - 1;
    if i == n {
      assert xs[i := x][..n] == xs[..n];
    } else {
      SumSet(xs[..n], i, x, f);
      assert xs[i := x][..n] == xs[..n][i := x];
    }
  }

  lemma {:induction false} SumHas<T>(xs: seq<T>, i: nat, f: T -> nat)
    requires i < |xs|
    ensures f(xs[i]) <= Sum(xs, f)
  {
    var n := |xs| - 1;
    if i < n {
      SumHas(xs[..n], i, f);
    }
  }

  lemma {:induction false} SumHasBoth<T>(xs: seq<T>, i: nat, j: nat, f: T -> nat)
    requires i < j < |xs|
    ensures f(xs[i]) + f(xs[j]) <= Sum(xs, f)
  {
    var n := |xs| - 1;
    if j < n {
      SumHasBoth(xs[..n], i, j, f);
    } else {
      SumHas(xs[..n], i, f);
    }
  }

  /** If each element holds at most as many items as it is charged for, so do all. */
  lemma {:induction false} GatherWithinSum<T>(xs: seq<T>, g: T -> multiset<nat>, f: T -> nat)
    requires forall i | 0 <= i < |xs| :: |g(xs[i])| <= f(xs[i])
    ensures |Gather(xs, g)| <= Sum(xs, f)
  {
    if xs != [] {
      var front := xs[..|xs| - 1];
      assert forall i | 0 <= i < |front| :: front[i] == xs[i];
      GatherWithinSum(front, g, f);
    }
  }

  /** One element that is charged for more than it holds leaves the total with room. */
  lemma {:induction false} GatherBelowSum<T>(xs: seq<T>, t: nat, g: T -> multiset<nat>, f: T -> nat)
    requires t < |xs| && |g(xs[t])| < f(xs[t])
    requires forall i | 0 <= i < |xs| :: |g(xs[i])| <= f(xs[i])
    ensures |Gather(xs, g)| < Sum(xs, f)
  {
    var n := |xs| - 1;
    var front := xs[..n];
    assert forall i | 0 <= i < |front| :: front[i] == xs[i];
    if t < n {
      GatherBelowSum(front, t, g, f);
    } else {
      GatherWithinSum(front, g, f);
    }
  }

  /** A set whose elements all occur in a multiset is no larger than it. */
  lemma {:induction false} SetWithin(s: set<nat>, m: multiset<nat>)
    requires forall v | v in s :: v in m
    ensures |s| <= |m|
  {
    if s != {} {
      var v :| v in s;
      SetWithin(s - {v}, m - multiset{v});
    }
  }
}
