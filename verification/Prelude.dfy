/** Vocabulary shared by the protocol models: optional values, runs of a step
    system, and sums and multisets over the per-thread parts of a state. */
module Prelude {

  datatype Option<+T> = None | Some(value: T)

  // A step system is a pair (enabled, step).  A run is a sequence of actions,
  // each enabled in the state its predecessors lead to; quantifying over the
  // sequence quantifies over every interleaving.

  predicate CanRun<S, A>(enabled: (S, A) -> bool, step: (S, A) -> S, s: S, acts: seq<A>)
  {
    acts == [] || (enabled(s, acts[0]) && CanRun(enabled, step, step(s, acts[0]), acts[1..]))
  }

  function Run<S, A>(step: (S, A) -> S, s: S, acts: seq<A>): S
  {
    if acts == [] then s else Run(step, step(s, acts[0]), acts[1..])
  }

  lemma {:induction false} RunAppend<S, A>(enabled: (S, A) -> bool, step: (S, A) -> S, s: S, acts: seq<A>, more: seq<A>)
    ensures Run(step, s, acts + more) == Run(step, Run(step, s, acts), more)
    ensures CanRun(enabled, step, s, acts + more)
      <==> CanRun(enabled, step, s, acts) && CanRun(enabled, step, Run(step, s, acts), more)
  {
    if acts == [] {
      assert acts + more == more;
    } else {
      assert (acts + more)[0] == acts[0] && (acts + more)[1..] == acts[1..] + more;
      RunAppend(enabled, step, step(s, acts[0]), acts[1..], more);
    }
  }

  lemma RunExtend<S, A>(enabled: (S, A) -> bool, step: (S, A) -> S, s: S, acts: seq<A>, a: A)
    requires CanRun(enabled, step, s, acts) && enabled(Run(step, s, acts), a)
    ensures CanRun(enabled, step, s, acts + [a])
    ensures Run(step, s, acts + [a]) == step(Run(step, s, acts), a)
  {
    RunAppend(enabled, step, s, acts, [a]);
    assert CanRun(enabled, step, Run(step, s, acts), [a]);
    assert Run(step, Run(step, s, acts), [a]) == Run(step, step(Run(step, s, acts), a), []);
  }

  lemma RunPrefix<S, A>(enabled: (S, A) -> bool, step: (S, A) -> S, s: S, acts: seq<A>, k: nat)
    requires CanRun(enabled, step, s, acts) && k < |acts|
    ensures CanRun(enabled, step, s, acts[..k]) && enabled(Run(step, s, acts[..k]), acts[k])
    ensures Run(step, s, acts[..k + 1]) == step(Run(step, s, acts[..k]), acts[k])
  {
    assert acts == acts[..k] + acts[k..] && acts[..k + 1] == acts[..k] + [acts[k]];
    RunAppend(enabled, step, s, acts[..k], acts[k..]);
    RunExtend(enabled, step, s, acts[..k], acts[k]);
  }

  /** The last step of a run before which a predicate holds that holds at first and not at
      the end. */
  lemma {:induction false} LastSwitch<S, A>(
    enabled: (S, A) -> bool, step: (S, A) -> S, p: S -> bool, s: S, acts: seq<A>)
    returns (k: nat)
    requires CanRun(enabled, step, s, acts) && p(s) && !p(Run(step, s, acts))
    ensures k < |acts| && p(Run(step, s, acts[..k])) && forall j :: k < j <= |acts| ==> !p(Run(step, s, acts[..j]))
    decreases |acts|
  {
    var last := |acts| - 1;
    RunPrefix(enabled, step, s, acts, last);
    assert acts[..|acts|] == acts;
    if p(Run(step, s, acts[..last])) {
      k := last;
    } else {
      k := LastSwitch(enabled, step, p, s, acts[..last]);
      forall j | k < j <= |acts| ensures !p(Run(step, s, acts[..j])) {
        assert j < |acts| ==> acts[..last][..j] == acts[..j];
      }
      assert acts[..last][..k] == acts[..k];
    }
  }

  /** What every step keeps, every run keeps. */
  lemma {:induction false} RunKeeps<S(!new), A(!new)>(
    enabled: (S, A) -> bool, step: (S, A) -> S, inv: S -> bool, s: S, acts: seq<A>)
    requires inv(s) && CanRun(enabled, step, s, acts)
    requires forall s, a :: inv(s) && enabled(s, a) ==> inv(step(s, a))
    ensures inv(Run(step, s, acts))
  {
    if acts != [] {
      RunKeeps(enabled, step, inv, step(s, acts[0]), acts[1..]);
    }
  }

  /** Callers who observe more rules run less. */
  lemma {:induction false} RunWeakens<S(!new), A(!new)>(
    strict: (S, A) -> bool, lax: (S, A) -> bool, step: (S, A) -> S, s: S, acts: seq<A>)
    requires CanRun(strict, step, s, acts) && forall s, a :: strict(s, a) ==> lax(s, a)
    ensures CanRun(lax, step, s, acts)
  {
    if acts != [] {
      RunWeakens(strict, lax, step, step(s, acts[0]), acts[1..]);
    }
  }

  /** If what is `now` so will `ever` have been so, and nothing else will, then what has ever
      been so in a run was so in one of its states. */
  lemma {:induction false} EverWas<S(!new), A(!new)>(
    enabled: (S, A) -> bool, step: (S, A) -> S, inv: S -> bool, now: S -> bool, ever: S -> bool, s: S, acts: seq<A>)
    requires inv(s) && CanRun(enabled, step, s, acts) && (ever(s) ==> now(s))
    requires forall s :: now(s) ==> ever(s)
    requires forall s, a :: inv(s) && enabled(s, a) ==>
               && inv(step(s, a)) && (ever(s) ==> ever(step(s, a)))
               && (ever(step(s, a)) ==> ever(s) || now(step(s, a)))
    ensures inv(Run(step, s, acts))
    ensures ever(Run(step, s, acts)) <==> exists k :: 0 <= k <= |acts| && now(Run(step, s, acts[..k]))
    decreases |acts|
  {
    assert acts[..|acts|] == acts;
    if acts == [] {
      assert ever(s) <==> now(Run(step, s, acts[..0]));
    } else {
      var before := acts[..|acts| - 1];
      RunPrefix(enabled, step, s, acts, |acts| - 1);
      EverWas(enabled, step, inv, now, ever, s, before);
      assert forall k :: 0 <= k <= |before| ==> before[..k] == acts[..k];
      if ever(Run(step, s, before)) {
        var k :| 0 <= k <= |before| && now(Run(step, s, before[..k]));
        assert now(Run(step, s, acts[..k]));
      }
    }
  }

  /** The number of actions of a run that satisfy a predicate. */
  function Count<A>(p: A -> bool, acts: seq<A>): nat
  {
    if acts == [] then 0 else (if p(acts[0]) then 1 else 0) + Count(p, acts[1..])
  }

  lemma {:induction false} CountAll<A>(p: A -> bool, acts: seq<A>)
    ensures (forall a :: a in acts ==> p(a)) ==> Count(p, acts) == |acts|
    ensures (forall a :: a in acts ==> !p(a)) ==> Count(p, acts) == 0
  {
    if acts != [] {
      assert acts[0] in acts && forall a :: a in acts[1..] ==> a in acts;
      CountAll(p, acts[1..]);
    }
  }

  /** A step system whose `idle` steps raise a measure by at most `raise`, and whose
      other steps lower it, takes a bounded number of other steps. */
  lemma {:induction false} RunIsBounded<S(!new), A(!new)>(
    enabled: (S, A) -> bool, step: (S, A) -> S, inv: S -> bool, measure: S -> nat,
    idle: A -> bool, work: A -> bool, raise: nat, s: S, acts: seq<A>)
    requires inv(s) && CanRun(enabled, step, s, acts)
    requires forall a :: a in acts ==> idle(a) != work(a)
    requires forall s, a :: inv(s) && enabled(s, a) ==> inv(step(s, a))
    requires forall s, a :: inv(s) && enabled(s, a) && work(a) ==> measure(step(s, a)) < measure(s)
    requires forall s, a :: inv(s) && enabled(s, a) && idle(a) ==> measure(step(s, a)) <= measure(s) + raise
    ensures Count(work, acts) + measure(Run(step, s, acts)) <= measure(s) + raise * Count(idle, acts)
  {
    if acts != [] {
      RunIsBounded(enabled, step, inv, measure, idle, work, raise, step(s, acts[0]), acts[1..]);
    }
  }

  // Sums and multisets over sequences, and what replacing one element does to them.

  function Sum(xs: seq<nat>): nat
  {
    if xs == [] then 0 else xs[0] + Sum(xs[1..])
  }

  lemma {:induction false} SumUpdate(xs: seq<nat>, i: nat, x: nat)
    requires i < |xs|
    ensures Sum(xs[i := x]) + xs[i] == Sum(xs) + x
  {
    if i == 0 {
      assert xs[0 := x][1..] == xs[1..];
    } else {
      assert xs[i := x][1..] == xs[1..][i - 1 := x];
      SumUpdate(xs[1..], i - 1, x);
    }
  }

  lemma {:induction false} SumBound(xs: seq<nat>, b: nat)
    requires forall i :: 0 <= i < |xs| ==> xs[i] <= b
    ensures Sum(xs) <= b * |xs|
  {
    if xs != [] {
      SumBound(xs[1..], b);
    }
  }

  /** Flags add up to their number exactly if all are set. */
  lemma {:induction false} AllOnes(xs: seq<nat>)
    requires forall i :: 0 <= i < |xs| ==> xs[i] <= 1
    ensures Sum(xs) <= |xs|
    ensures Sum(xs) == |xs| <==> forall i :: 0 <= i < |xs| ==> xs[i] == 1
    ensures Sum(xs) == 0 <==> forall i :: 0 <= i < |xs| ==> xs[i] == 0
  {
    if xs != [] {
      AllOnes(xs[1..]);
      assert forall i :: 1 <= i < |xs| ==> xs[i] == xs[1..][i - 1];
    }
  }

  /** What a slot holds, and what all of the given slots hold together. */
  function Bag<T>(x: Option<T>): multiset<T>
  {
    if x.Some? then multiset{x.value} else multiset{}
  }

  function Filled<T>(xs: seq<Option<T>>): multiset<T>
  {
    if xs == [] then multiset{} else Bag(xs[0]) + Filled(xs[1..])
  }

  lemma AddToBoth<T>(a: multiset<T>, b: multiset<T>, c: multiset<T>, d: multiset<T>, e: multiset<T>)
    requires b + c == d + e
    ensures (a + b) + c == (a + d) + e
  {
    assert (a + b) + c == a + (b + c);
    assert (a + d) + e == a + (d + e);
  }

  /** Double entry: what moves between two accounts leaves their total right. */
  lemma Balance<T>(total: multiset<T>, total': multiset<T>, a: multiset<T>, a': multiset<T>,
                   b: multiset<T>, b': multiset<T>, outA: multiset<T>, inA: multiset<T>,
                   inB: multiset<T>, inTotal: multiset<T>)
    requires total == a + b && a' + outA == a + inA && b' == b + inB && total' == total + inTotal
    requires inA + inB == outA + inTotal
    ensures total' == a' + b'
  {
    forall e: T
      ensures total'[e] == (a' + b')[e]
    {
      assert (a' + outA)[e] == (a + inA)[e];
      assert (inA + inB)[e] == (outA + inTotal)[e];
    }
  }

  lemma {:induction false} FilledUpdate<T>(xs: seq<Option<T>>, i: nat, x: Option<T>)
    requires i < |xs|
    ensures Filled(xs[i := x]) + Bag(xs[i]) == Filled(xs) + Bag(x)
  {
    var rest := xs[1..];
    if i == 0 {
      assert xs[i := x][1..] == rest;
    } else {
      assert xs[i := x][1..] == rest[i - 1 := x];
      FilledUpdate(rest, i - 1, x);
      AddToBoth(Bag(xs[0]), Filled(rest[i - 1 := x]), Bag(rest[i - 1]), Filled(rest), Bag(x));
    }
  }

  lemma {:induction false} FilledNone<T>(xs: seq<Option<T>>)
    requires forall i :: 0 <= i < |xs| ==> xs[i].None?
    ensures Filled(xs) == multiset{}
  {
    if xs != [] {
      FilledNone(xs[1..]);
    }
  }

  lemma {:induction false} AllFilled<T>(xs: seq<Option<T>>)
    ensures |Filled(xs)| <= |xs|
    ensures (forall i :: 0 <= i < |xs| ==> xs[i].Some?) ==> |Filled(xs)| == |xs|
  {
    if xs != [] {
      AllFilled(xs[1..]);
    }
  }

  lemma {:induction false} FilledHas<T>(xs: seq<Option<T>>, i: nat)
    requires i < |xs| && xs[i].Some?
    ensures xs[i].value in Filled(xs)
  {
    if i > 0 {
      FilledHas(xs[1..], i - 1);
    }
  }
}
