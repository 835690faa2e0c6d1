/** The fork-join quicksort of parallel_quick_sort.cpp.

    Every activation of do_sort hands its lower half to the thread pool and recurses on the
    higher one.  A thread that waits for a lower half runs other pending halves meanwhile, on
    top of its own stack; the partition is any that std::partition may deliver. */
module ParallelSort {
  import opened Prelude

  // ---- Sorting ----

  ghost predicate StrictOrder<T(!new)>(less: (T, T) -> bool)
  {
    (forall x :: !less(x, x)) && (forall x, y, z :: less(x, y) && less(y, z) ==> less(x, z))
  }

  ghost predicate Sorted<T>(less: (T, T) -> bool, xs: seq<T>)
  {
    forall i, j :: 0 <= i < j < |xs| ==> !less(xs[j], xs[i])
  }

  ghost predicate Sorts<T>(less: (T, T) -> bool, xs: seq<T>, ys: seq<T>)
  {
    Sorted(less, ys) && multiset(ys) == multiset(xs)
  }

  /** What std::partition guarantees of the rest of a chunk and its first element. */
  ghost predicate Divides<T>(less: (T, T) -> bool, chunk: seq<T>, pivot: T, lower: seq<T>, higher: seq<T>)
  {
    && multiset(chunk) == multiset(lower) + multiset{pivot} + multiset(higher)
    && (forall x :: x in multiset(lower) ==> less(x, pivot))
    && (forall x :: x in multiset(higher) ==> !less(x, pivot))
  }

  lemma Joins<T(!new)>(less: (T, T) -> bool, chunk: seq<T>, pivot: T, lower: seq<T>, higher: seq<T>,
                          lo: seq<T>, hi: seq<T>)
    requires StrictOrder(less) && Divides(less, chunk, pivot, lower, higher)
    requires Sorts(less, lower, lo) && Sorts(less, higher, hi)
    ensures Sorts(less, chunk, lo + [pivot] + hi)
  {
    var ys := lo + [pivot] + hi;
    forall i, j | 0 <= i < j < |ys| ensures !less(ys[j], ys[i]) {
      assert i < |lo| ==> lo[i] in multiset(lo) && ys[i] == lo[i];
      assert j > |lo| ==> ys[j] == hi[j - |lo| - 1] && hi[j - |lo| - 1] in multiset(hi);
    }
  }

  lemma Sizes<T>(less: (T, T) -> bool, chunk: seq<T>, pivot: T, lower: seq<T>, higher: seq<T>)
    requires Divides(less, chunk, pivot, lower, higher)
    ensures |chunk| == |lower| + 1 + |higher|
  {
    assert |multiset(chunk)| == |multiset(lower)| + 1 + |multiset(higher)|;
  }

  ghost predicate Partitions<T(!new)>(less: (T, T) -> bool, partition: (seq<T>, T) -> (seq<T>, nat))
  {
    forall xs: seq<T>, p: T :: (
      var (ys, n) := partition(xs, p);
      n <= |ys| && multiset(ys) == multiset(xs)
      && (forall i :: 0 <= i < n ==> less(ys[i], p)) && (forall i :: n <= i < |ys| ==> !less(ys[i], p)))
  }

  lemma PartitionDivides<T(!new)>(less: (T, T) -> bool, partition: (seq<T>, T) -> (seq<T>, nat), rest: seq<T>, p: T)
    requires Partitions(less, partition)
    ensures var (ys, n) := partition(rest, p); n <= |ys| && Divides(less, [p] + rest, p, ys[..n], ys[n..])
  {
    var (ys, n) := partition(rest, p);
    assert ys == ys[..n] + ys[n..];
    assert multiset([p] + rest) == multiset{p} + multiset(rest);
  }

  lemma EmptySorts<T>(less: (T, T) -> bool)
    ensures Sorts(less, [], [])
  {
  }

  /** do_sort by a single thread, for any partition. */
  method DoSort<T(!new)>(less: (T, T) -> bool, partition: (seq<T>, T) -> (seq<T>, nat), chunk: seq<T>)
    returns (result: seq<T>)
    requires StrictOrder(less) && Partitions(less, partition)
    ensures Sorts(less, chunk, result)
    decreases |chunk|
  {
    hide Divides, Sorts, Partitions, StrictOrder;
    if chunk == [] {
      EmptySorts(less);
      return chunk;
    }
    var chunkData := chunk[1..];
    result := [chunk[0]];
    assert chunk == [chunk[0]] + chunkData;
    PartitionDivides(less, partition, chunkData, chunk[0]);
    var (divided, dividePoint) := partition(chunkData, chunk[0]);
    var newLowerChunk := divided[..dividePoint];
    chunkData := divided[dividePoint..];
    Sizes(less, chunk, chunk[0], newLowerChunk, chunkData);
    var newLower := DoSort(less, partition, newLowerChunk);
    var newHigher := DoSort(less, partition, chunkData);
    Joins(less, chunk, chunk[0], newLowerChunk, chunkData, newLower, newHigher);
    result := result + newHigher;
    result := newLower + result;
    assert result == newLower + [chunk[0]] + newHigher;
  }

  // ---- All schedules ----

  datatype Dest = Root | ToCall(i: nat) | ToFuture(f: nat)

  /** Where an activation is: at its start; in its recursive call `callee`; in the loop that
      waits for future `lower`; or returned. */
  datatype Stage<T> =
    | Begin
    | Recursing(pivot: T, lower: nat, higher: seq<T>, callee: nat)
    | Waiting(pivot: T, lower: nat, higher: seq<T>, sorted: seq<T>)
    | Ended

  /** An activation of do_sort on the stack of thread `th`. */
  datatype Call<T> = Call(th: nat, input: seq<T>, dest: Dest, stage: Stage<T>)

  datatype Status<T> = Queued | Started(call: nat) | Ready(result: seq<T>)

  /** The pending half that activation `owner` has forked. */
  datatype Future<T> = Future(owner: nat, input: seq<T>, status: Status<T>)

  /** Activations are numbered in the order of their start, so a thread's stack is the
      sequence of its activations that have not ended. */
  datatype State<T> = State(calls: seq<Call<T>>, futures: seq<Future<T>>, result: Option<seq<T>>)

  datatype Action<T> =
    | Divide(i: nat, lower: seq<T>, higher: seq<T>)   // partition, fork, recurse
    | ReturnEmpty(i: nat)
    | Join(i: nat)                                    // the future is ready: return
    | Help(i: nat, f: nat)                            // it is not: run a queued future
    | Take(th: nat, f: nat)                           // an idle pool thread runs one

  /** Thread 0 is the caller of the sort, the others are the pool's. */
  function Init<T>(input: seq<T>): State<T> { State([Call(0, input, Root, Begin)], [], None) }

  ghost predicate Top<T>(s: State<T>, i: nat)
  {
    && i < |s.calls| && !s.calls[i].stage.Ended?
    && forall j :: i < j < |s.calls| && s.calls[j].th == s.calls[i].th ==> s.calls[j].stage.Ended?
  }

  ghost predicate Enabled<T>(less: (T, T) -> bool, threads: nat, s: State<T>, a: Action<T>)
  {
    match a
    case Divide(i, lower, higher) =>
      Top(s, i) && s.calls[i].stage.Begin? && s.calls[i].input != []
      && Divides(less, s.calls[i].input, s.calls[i].input[0], lower, higher)
    case ReturnEmpty(i) => Top(s, i) && s.calls[i].stage.Begin? && s.calls[i].input == []
    case Join(i) =>
      Top(s, i) && s.calls[i].stage.Waiting? && s.calls[i].stage.lower < |s.futures|
      && s.futures[s.calls[i].stage.lower].status.Ready?
    case Help(i, f) =>
      Top(s, i) && s.calls[i].stage.Waiting? && s.calls[i].stage.lower < |s.futures|
      && !s.futures[s.calls[i].stage.lower].status.Ready? && f < |s.futures| && s.futures[f].status.Queued?
    case Take(th, f) =>
      0 < th <= threads && (forall j :: 0 <= j < |s.calls| && s.calls[j].th == th ==> s.calls[j].stage.Ended?)
      && f < |s.futures| && s.futures[f].status.Queued?
  }

  function SetStage<T>(calls: seq<Call<T>>, i: nat, stage: Stage<T>): seq<Call<T>>
  {
    if i < |calls| then calls[i := calls[i].(stage := stage)] else calls
  }

  function Returned<T>(c: Call<T>, r: seq<T>): Call<T>
  {
    if c.stage.Recursing? then c.(stage := Waiting(c.stage.pivot, c.stage.lower, c.stage.higher, r)) else c
  }

  /** Activation `i` ends with result `r`. */
  function Return<T>(s: State<T>, i: nat, r: seq<T>): State<T>
    requires i < |s.calls|
  {
    var calls := SetStage(s.calls, i, Ended);
    match s.calls[i].dest
    case Root => s.(calls := calls, result := Some(r))
    case ToCall(k) => s.(calls := if k < |calls| then calls[k := Returned(calls[k], r)] else calls)
    case ToFuture(f) =>
      s.(calls := calls,
         futures := if f < |s.futures| then s.futures[f := s.futures[f].(status := Ready(r))] else s.futures)
  }

  function Start<T>(s: State<T>, th: nat, f: nat): State<T>
    requires f < |s.futures|
  {
    s.(calls := s.calls + [Call(th, s.futures[f].input, ToFuture(f), Begin)],
       futures := s.futures[f := s.futures[f].(status := Started(|s.calls|))])
  }

  function Fork<T>(s: State<T>, i: nat, lower: seq<T>, higher: seq<T>): State<T>
    requires i < |s.calls| && s.calls[i].input != []
  {
    var c := s.calls[i];
    s.(calls := SetStage(s.calls, i, Recursing(c.input[0], |s.futures|, higher, |s.calls|))
                + [Call(c.th, higher, ToCall(i), Begin)],
       futures := s.futures + [Future(i, lower, Queued)])
  }

  ghost function Step<T>(less: (T, T) -> bool, threads: nat, s: State<T>, a: Action<T>): State<T>
  {
    if !Enabled(less, threads, s, a) then s else
    match a
    case Divide(i, lower, higher) => Fork(s, i, lower, higher)
    case ReturnEmpty(i) => Return(s, i, [])
    case Join(i) =>
      var w := s.calls[i].stage;
      Return(s, i, s.futures[w.lower].status.result + [w.pivot] + w.sorted)
    case Help(i, f) => Start(s, s.calls[i].th, f)
    case Take(th, f) => Start(s, th, f)
  }

  ghost function May<T>(less: (T, T) -> bool, threads: nat): (State<T>, Action<T>) -> bool
  {
    (s: State<T>, a: Action<T>) => Enabled(less, threads, s, a)
  }

  ghost function Does<T>(less: (T, T) -> bool, threads: nat): (State<T>, Action<T>) -> State<T>
  {
    (s: State<T>, a: Action<T>) => Step(less, threads, s, a)
  }

  ghost predicate IsRun<T>(less: (T, T) -> bool, threads: nat, input: seq<T>, acts: seq<Action<T>>)
  {
    CanRun(May(less, threads), Does(less, threads), Init(input), acts)
  }

  ghost function After<T>(less: (T, T) -> bool, threads: nat, input: seq<T>, acts: seq<Action<T>>): State<T>
  {
    Run(Does(less, threads), Init(input), acts)
  }

  // ---- The invariant ----

  /** The lower half of activation `i`: a division of its input, started after it. */
  ghost predicate LowerOk<T>(less: (T, T) -> bool, s: State<T>, i: nat, pivot: T, lower: nat, higher: seq<T>)
    requires i < |s.calls|
  {
    && lower < |s.futures|
    && Divides(less, s.calls[i].input, pivot, s.futures[lower].input, higher)
    && (s.futures[lower].status.Started? ==> i < s.futures[lower].status.call)
  }

  ghost predicate StageOk<T>(less: (T, T) -> bool, s: State<T>, i: nat)
    requires i < |s.calls|
  {
    match s.calls[i].stage
    case Begin => true
    case Ended => true
    case Recursing(pivot, lower, higher, callee) =>
      && LowerOk(less, s, i, pivot, lower, higher)
      && i < callee < |s.calls| && !s.calls[callee].stage.Ended?
      && s.calls[callee].dest == ToCall(i) && s.calls[callee].input == higher
    case Waiting(pivot, lower, higher, sorted) =>
      LowerOk(less, s, i, pivot, lower, higher) && Sorts(less, higher, sorted)
  }

  ghost predicate DestOk<T>(s: State<T>, i: nat)
    requires i < |s.calls|
  {
    !s.calls[i].stage.Ended? ==>
      match s.calls[i].dest
      case Root => i == 0
      case ToCall(k) => k < i && s.calls[k].stage.Recursing? && s.calls[k].stage.callee == i
      case ToFuture(f) => f < |s.futures| && s.futures[f].status == Started(i)
  }

  /** An activation needs its future until it returns. */
  predicate WaitsFor<T>(stage: Stage<T>, f: nat)
  {
    (stage.Recursing? || stage.Waiting?) && stage.lower == f
  }

  /** A future that is not ready has an owner that has not returned. */
  ghost predicate FutureOk<T>(less: (T, T) -> bool, s: State<T>, f: nat)
    requires f < |s.futures|
  {
    var x := s.futures[f];
    (!x.status.Ready? ==> x.owner < |s.calls| && WaitsFor(s.calls[x.owner].stage, f)) &&
    match x.status
    case Queued => true
    case Started(j) =>
      && j < |s.calls| && !s.calls[j].stage.Ended?
      && s.calls[j].dest == ToFuture(f) && s.calls[j].input == x.input
    case Ready(r) => Sorts(less, x.input, r)
  }

  ghost predicate RootOk<T>(less: (T, T) -> bool, s: State<T>, input: seq<T>)
  {
    && s.calls != [] && s.calls[0].input == input && s.calls[0].dest == Root
    && (s.result.Some? ==> Sorts(less, input, s.result.value))
    && (s.result.Some? <==> s.calls[0].stage.Ended?)
  }

  ghost predicate Inv<T>(less: (T, T) -> bool, s: State<T>, input: seq<T>)
  {
    && RootOk(less, s, input)
    && (forall i :: 0 <= i < |s.calls| ==> StageOk(less, s, i) && DestOk(s, i))
    && (forall f :: 0 <= f < |s.futures| ==> FutureOk(less, s, f))
  }

  lemma ForkInv<T(!new)>(less: (T, T) -> bool, s: State<T>, input: seq<T>, i: nat, lower: seq<T>, higher: seq<T>)
    requires Inv(less, s, input) && i < |s.calls| && s.calls[i].stage.Begin? && s.calls[i].input != []
    requires Divides(less, s.calls[i].input, s.calls[i].input[0], lower, higher)
    ensures Inv(less, Fork(s, i, lower, higher), input)
  {
    hide Divides;
    var s' := Fork(s, i, lower, higher);
    forall k | 0 <= k < |s.calls| ensures StageOk(less, s', k) && DestOk(s', k) {
      assert StageOk(less, s, k) && DestOk(s, k);
    }
    assert s'.calls[|s.calls|] == Call(s.calls[i].th, higher, ToCall(i), Begin);
    forall f | 0 <= f < |s'.futures| ensures FutureOk(less, s', f) {
      assert f < |s.futures| ==> FutureOk(less, s, f);
    }
  }

  lemma StartInv<T(!new)>(less: (T, T) -> bool, s: State<T>, input: seq<T>, th: nat, f: nat)
    requires Inv(less, s, input) && f < |s.futures| && s.futures[f].status.Queued?
    ensures Inv(less, Start(s, th, f), input)
  {
    hide Divides, Sorts;
    var s' := Start(s, th, f);
    forall k | 0 <= k < |s.calls| ensures StageOk(less, s', k) && DestOk(s', k) {
      assert StageOk(less, s, k) && DestOk(s, k);
    }
    forall g | 0 <= g < |s'.futures| ensures FutureOk(less, s', g) {
      assert FutureOk(less, s, g);
    }
  }

  /** An activation returns from its start, or with its future ready. */
  ghost predicate MayReturn<T>(s: State<T>, i: nat)
    requires i < |s.calls|
  {
    var stage := s.calls[i].stage;
    stage.Begin? || (stage.Waiting? && stage.lower < |s.futures| && s.futures[stage.lower].status.Ready?)
  }

  lemma ReturnInv<T(!new)>(less: (T, T) -> bool, s: State<T>, input: seq<T>, i: nat, r: seq<T>)
    requires Inv(less, s, input) && i < |s.calls| && Sorts(less, s.calls[i].input, r)
    requires MayReturn(s, i)
    ensures Inv(less, Return(s, i, r), input)
  {
    hide StageOk, DestOk, FutureOk, Return;
    ReturnRoot(less, s, input, i, r);
    forall k | 0 <= k < |s.calls| ensures StageOk(less, Return(s, i, r), k) && DestOk(Return(s, i, r), k) {
      ReturnCall(less, s, input, i, r, k);
      ReturnDest(less, s, input, i, r, k);
    }
    ReturnFutures(less, s, input, i, r);
  }

  lemma ReturnRoot<T(!new)>(less: (T, T) -> bool, s: State<T>, input: seq<T>, i: nat, r: seq<T>)
    requires Inv(less, s, input) && i < |s.calls| && Sorts(less, s.calls[i].input, r) && MayReturn(s, i)
    ensures RootOk(less, Return(s, i, r), input) && |Return(s, i, r).calls| == |s.calls|
  {
    hide Sorts;
    assert StageOk(less, s, i) && DestOk(s, i);
  }

  lemma ReturnCall<T(!new)>(less: (T, T) -> bool, s: State<T>, input: seq<T>, i: nat, r: seq<T>, k: nat)
    requires Inv(less, s, input) && i < |s.calls| && Sorts(less, s.calls[i].input, r) && MayReturn(s, i)
    requires k < |s.calls| == |Return(s, i, r).calls|
    ensures StageOk(less, Return(s, i, r), k)
  {
    hide Divides, Sorts;
    assert DestOk(s, i) && StageOk(less, s, k);
  }

  lemma ReturnDest<T(!new)>(less: (T, T) -> bool, s: State<T>, input: seq<T>, i: nat, r: seq<T>, k: nat)
    requires Inv(less, s, input) && i < |s.calls| && MayReturn(s, i) && k < |s.calls| == |Return(s, i, r).calls|
    ensures DestOk(Return(s, i, r), k)
  {
    hide Divides, Sorts, StageOk;
    assert DestOk(s, i) && DestOk(s, k);
  }

  lemma ReturnFutures<T(!new)>(less: (T, T) -> bool, s: State<T>, input: seq<T>, i: nat, r: seq<T>)
    requires Inv(less, s, input) && i < |s.calls| && Sorts(less, s.calls[i].input, r)
    requires MayReturn(s, i)
    ensures var s' := Return(s, i, r); forall g :: 0 <= g < |s'.futures| ==> FutureOk(less, s', g)
  {
    hide Divides, Sorts;
    var s' := Return(s, i, r);
    assert DestOk(s, i);
    forall g | 0 <= g < |s'.futures| ensures FutureOk(less, s', g) {
      assert FutureOk(less, s, g);
    }
  }

  lemma JoinSorts<T(!new)>(less: (T, T) -> bool, s: State<T>, i: nat)
    requires StrictOrder(less) && i < |s.calls| && StageOk(less, s, i) && s.calls[i].stage.Waiting?
    requires s.futures[s.calls[i].stage.lower].status.Ready? && FutureOk(less, s, s.calls[i].stage.lower)
    ensures var w := s.calls[i].stage;
      Sorts(less, s.calls[i].input, s.futures[w.lower].status.result + [w.pivot] + w.sorted)
  {
    var w := s.calls[i].stage;
    Joins(less, s.calls[i].input, w.pivot, s.futures[w.lower].input, w.higher,
          s.futures[w.lower].status.result, w.sorted);
  }

  lemma StepInv<T(!new)>(less: (T, T) -> bool, threads: nat, s: State<T>, input: seq<T>, a: Action<T>)
    requires StrictOrder(less) && Inv(less, s, input) && Enabled(less, threads, s, a)
    ensures Inv(less, Step(less, threads, s, a), input)
  {
    match a
    case Divide(i, lower, higher) => ForkInv(less, s, input, i, lower, higher);
    case ReturnEmpty(i) => ReturnInv(less, s, input, i, []);
    case Join(i) =>
      JoinSorts(less, s, i);
      var w := s.calls[i].stage;
      ReturnInv(less, s, input, i, s.futures[w.lower].status.result + [w.pivot] + w.sorted);
    case Help(i, f) => StartInv(less, s, input, s.calls[i].th, f);
    case Take(th, f) => StartInv(less, s, input, th, f);
  }

  lemma RunInv<T(!new)>(less: (T, T) -> bool, threads: nat, input: seq<T>, acts: seq<Action<T>>)
    requires StrictOrder(less) && IsRun(less, threads, input, acts)
    ensures Inv(less, After(less, threads, input, acts), input)
  {
    hide Inv, Step, Enabled;
    assert Inv(less, Init(input), input) by {
      InitInv(less, input);
    }
    forall s, a | Inv(less, s, input) && May(less, threads)(s, a) ensures Inv(less, Does(less, threads)(s, a), input) {
      StepInv(less, threads, s, input, a);
    }
    RunKeeps(May(less, threads), Does(less, threads), (s: State<T>) => Inv(less, s, input), Init(input), acts);
  }

  lemma InitInv<T(!new)>(less: (T, T) -> bool, input: seq<T>)
    ensures Inv(less, Init(input), input)
  {
  }

  // ---- What every schedule guarantees ----

  /** Whatever the order, the partitions and the schedule, a result is a sorted permutation
      of the input. */
  lemma EveryScheduleSorts<T(!new)>(less: (T, T) -> bool, threads: nat, input: seq<T>, acts: seq<Action<T>>)
    requires StrictOrder(less) && IsRun(less, threads, input, acts)
    requires After(less, threads, input, acts).result.Some?
    ensures Sorts(less, input, After(less, threads, input, acts).result.value)
  {
    RunInv(less, threads, input, acts);
  }

  lemma {:induction false} NobodyIsAlive<T(!new)>(less: (T, T) -> bool, s: State<T>, input: seq<T>, i: nat)
    requires Inv(less, s, input) && s.result.Some? && i < |s.calls|
    ensures s.calls[i].stage.Ended?
    decreases i
  {
    assert StageOk(less, s, i) && DestOk(s, i);
    if !s.calls[i].stage.Ended? {
      match s.calls[i].dest
      case Root => assert false;
      case ToCall(k) => NobodyIsAlive(less, s, input, k);
      case ToFuture(f) =>
        var owner := s.futures[f].owner;
        assert FutureOk(less, s, f) && StageOk(less, s, owner);
        NobodyIsAlive(less, s, input, owner);
    }
  }

  /** When there is a result, no activation is left on any stack and no half in the pool: the
      sorter can go. */
  lemma NothingIsLeftBehind<T(!new)>(less: (T, T) -> bool, threads: nat, input: seq<T>, acts: seq<Action<T>>)
    requires StrictOrder(less) && IsRun(less, threads, input, acts)
    requires After(less, threads, input, acts).result.Some?
    ensures forall c :: c in After(less, threads, input, acts).calls ==> c.stage.Ended?
    ensures forall x :: x in After(less, threads, input, acts).futures ==> x.status.Ready?
  {
    var s := After(less, threads, input, acts);
    RunInv(less, threads, input, acts);
    forall i | 0 <= i < |s.calls| ensures s.calls[i].stage.Ended? {
      NobodyIsAlive(less, s, input, i);
    }
    forall f | 0 <= f < |s.futures| ensures s.futures[f].status.Ready? {
      assert FutureOk(less, s, f);
    }
  }

  ghost predicate LastAlive<T>(calls: seq<Call<T>>, i: nat)
  {
    i < |calls| && !calls[i].stage.Ended? && forall j :: i < j < |calls| ==> calls[j].stage.Ended?
  }

  lemma {:induction false} SomeLastAlive<T>(calls: seq<Call<T>>, k: nat) returns (i: nat)
    requires k < |calls| && !calls[k].stage.Ended?
    ensures LastAlive(calls, i)
    decreases |calls| - k
  {
    if j :| k < j < |calls| && !calls[j].stage.Ended? {
      i := SomeLastAlive(calls, j);
    } else {
      i := k;
    }
  }

  /** A legal division exists: the one that std::partition computes. */
  lemma {:induction false} SomeDivision<T(!new)>(less: (T, T) -> bool, rest: seq<T>, p: T)
    returns (lower: seq<T>, higher: seq<T>)
    ensures Divides(less, [p] + rest, p, lower, higher)
  {
    if rest == [] {
      lower, higher := [], [];
    } else {
      var x := rest[0];
      lower, higher := SomeDivision(less, rest[1..], p);
      DivisionGrows(less, rest[1..], p, lower, higher, x);
      assert rest == [x] + rest[1..];
      if less(x, p) {
        lower := lower + [x];
      } else {
        higher := higher + [x];
      }
    }
  }

  lemma DivisionGrows<T>(less: (T, T) -> bool, rest: seq<T>, p: T, lower: seq<T>, higher: seq<T>, x: T)
    requires Divides(less, [p] + rest, p, lower, higher)
    ensures less(x, p) ==> Divides(less, [p] + ([x] + rest), p, lower + [x], higher)
    ensures !less(x, p) ==> Divides(less, [p] + ([x] + rest), p, lower, higher + [x])
  {
    assert multiset([p] + ([x] + rest)) == multiset([p] + rest) + multiset{x};
  }

  /** Threads nest the halves they run while waiting, so one half can bury another.  Yet the
      activation started last waits for nothing that is buried: until there is a result,
      somebody can go on, even with no pool thread at all. */
  lemma NoDeadlock<T(!new)>(less: (T, T) -> bool, threads: nat, input: seq<T>, acts: seq<Action<T>>)
    returns (a: Action<T>)
    requires StrictOrder(less) && IsRun(less, threads, input, acts)
    requires After(less, threads, input, acts).result.None?
    ensures Enabled(less, threads, After(less, threads, input, acts), a)
  {
    hide Divides, IsRun, After;
    RunInv(less, threads, input, acts);
    var s := After(less, threads, input, acts);
    var i := SomeLastAlive(s.calls, 0);
    assert Top(s, i) && StageOk(less, s, i);
    var c := s.calls[i];
    if c.stage.Begin? && c.input == [] {
      a := ReturnEmpty(i);
    } else if c.stage.Begin? {
      var lower, higher := SomeDivision(less, c.input[1..], c.input[0]);
      assert [c.input[0]] + c.input[1..] == c.input;
      a := Divide(i, lower, higher);
    } else {
      assert c.stage.Waiting? && FutureOk(less, s, c.stage.lower);
      a := if s.futures[c.stage.lower].status.Ready? then Join(i) else Help(i, c.stage.lower);
    }
  }

  /** Threads do not hold each other up: the last activation on any stack can go on at once,
      unless it waits for a half that another thread is running, with none left to help with. */
  lemma ThreadsAreIndependent<T(!new)>(less: (T, T) -> bool, threads: nat, s: State<T>, i: nat) returns (a: Action<T>)
    requires i < |s.calls| && (s.calls[i].stage.Begin? || s.calls[i].stage.Waiting?)
    requires forall j :: i < j < |s.calls| && s.calls[j].th == s.calls[i].th ==> s.calls[j].stage.Ended?
    requires s.calls[i].stage.Waiting? ==>
               && s.calls[i].stage.lower < |s.futures|
               && (s.futures[s.calls[i].stage.lower].status.Ready? || exists x :: x in s.futures && x.status.Queued?)
    ensures Enabled(less, threads, s, a)
    ensures match a
      case Divide(k, _, _) => k == i
      case ReturnEmpty(k) => k == i
      case Join(k) => k == i
      case Help(k, _) => k == i
      case Take(_, _) => false
  {
    hide Divides;
    var c := s.calls[i];
    if c.stage.Begin? && c.input == [] {
      a := ReturnEmpty(i);
    } else if c.stage.Begin? {
      var lower, higher := SomeDivision(less, c.input[1..], c.input[0]);
      assert [c.input[0]] + c.input[1..] == c.input;
      a := Divide(i, lower, higher);
    } else if s.futures[c.stage.lower].status.Ready? {
      a := Join(i);
    } else {
      var f :| 0 <= f < |s.futures| && s.futures[f].status.Queued?;
      a := Help(i, f);
    }
  }

  /** And an idle pool thread can take any half that nobody runs. */
  lemma IdleThreadsTake<T(!new)>(less: (T, T) -> bool, threads: nat, s: State<T>, th: nat, f: nat)
    requires 0 < th <= threads && f < |s.futures| && s.futures[f].status.Queued?
    requires forall j :: 0 <= j < |s.calls| && s.calls[j].th == th ==> s.calls[j].stage.Ended?
    ensures Enabled(less, threads, s, Take(th, f))
    ensures var s' := Step(less, threads, s, Take(th, f)); (
      && s'.futures[f].status == Started(|s.calls|)
      && s'.calls == s.calls + [Call(th, s.futures[f].input, ToFuture(f), Begin)])
  {
  }

  // ---- Every schedule ends ----

  function CallWeight<T>(c: Call<T>): nat
  {
    match c.stage
    case Begin => 5 * |c.input| + 1
    case Recursing(_, _, _, _) => 2
    case Waiting(_, _, _, _) => 1
    case Ended => 0
  }

  function FutureWeight<T>(x: Future<T>): nat { if x.status.Queued? then 5 * |x.input| + 2 else 0 }

  function CallWeights<T>(calls: seq<Call<T>>): (ws: seq<nat>)
  {
    seq(|calls|, i requires 0 <= i < |calls| => CallWeight(calls[i]))
  }

  function FutureWeights<T>(fs: seq<Future<T>>): (ws: seq<nat>)
  {
    seq(|fs|, f requires 0 <= f < |fs| => FutureWeight(fs[f]))
  }

  function Work<T>(s: State<T>): nat { Sum(CallWeights(s.calls)) + Sum(FutureWeights(s.futures)) }

  lemma CallChanges<T>(calls: seq<Call<T>>, i: nat, c: Call<T>)
    requires i < |calls|
    ensures Sum(CallWeights(calls[i := c])) + CallWeight(calls[i]) == Sum(CallWeights(calls)) + CallWeight(c)
  {
    assert CallWeights(calls[i := c]) == CallWeights(calls)[i := CallWeight(c)];
    SumUpdate(CallWeights(calls), i, CallWeight(c));
  }

  lemma FutureChanges<T>(fs: seq<Future<T>>, f: nat, x: Future<T>)
    requires f < |fs|
    ensures Sum(FutureWeights(fs[f := x])) + FutureWeight(fs[f]) == Sum(FutureWeights(fs)) + FutureWeight(x)
  {
    assert FutureWeights(fs[f := x]) == FutureWeights(fs)[f := FutureWeight(x)];
    SumUpdate(FutureWeights(fs), f, FutureWeight(x));
  }

  lemma {:induction false} SumPush(xs: seq<nat>, x: nat)
    ensures Sum(xs + [x]) == Sum(xs) + x
  {
    if xs != [] {
      assert (xs + [x])[1..] == xs[1..] + [x];
      SumPush(xs[1..], x);
    }
  }

  lemma CallAdded<T>(calls: seq<Call<T>>, c: Call<T>)
    ensures Sum(CallWeights(calls + [c])) == Sum(CallWeights(calls)) + CallWeight(c)
  {
    assert CallWeights(calls + [c]) == CallWeights(calls) + [CallWeight(c)];
    SumPush(CallWeights(calls), CallWeight(c));
  }

  lemma FutureAdded<T>(fs: seq<Future<T>>, x: Future<T>)
    ensures Sum(FutureWeights(fs + [x])) == Sum(FutureWeights(fs)) + FutureWeight(x)
  {
    assert FutureWeights(fs + [x]) == FutureWeights(fs) + [FutureWeight(x)];
    SumPush(FutureWeights(fs), FutureWeight(x));
  }

  lemma ForkLowers<T(!new)>(less: (T, T) -> bool, s: State<T>, i: nat, lower: seq<T>, higher: seq<T>)
    requires i < |s.calls| && s.calls[i].stage.Begin? && s.calls[i].input != []
    requires Divides(less, s.calls[i].input, s.calls[i].input[0], lower, higher)
    ensures Work(Fork(s, i, lower, higher)) < Work(s)
  {
    hide Sum, Divides;
    var c := s.calls[i];
    var c' := c.(stage := Recursing(c.input[0], |s.futures|, higher, |s.calls|));
    Sizes(less, c.input, c.input[0], lower, higher);
    CallChanges(s.calls, i, c');
    CallAdded(s.calls[i := c'], Call(c.th, higher, ToCall(i), Begin));
    FutureAdded(s.futures, Future(i, lower, Queued));
  }

  lemma StartLowers<T>(s: State<T>, th: nat, f: nat)
    requires f < |s.futures| && s.futures[f].status.Queued?
    ensures Work(Start(s, th, f)) < Work(s)
  {
    hide Sum;
    CallAdded(s.calls, Call(th, s.futures[f].input, ToFuture(f), Begin));
    FutureChanges(s.futures, f, s.futures[f].(status := Started(|s.calls|)));
  }

  lemma ReturnLowers<T>(s: State<T>, i: nat, r: seq<T>)
    requires i < |s.calls| && !s.calls[i].stage.Ended?
    ensures Work(Return(s, i, r)) < Work(s)
  {
    hide Sum;
    var calls := s.calls[i := s.calls[i].(stage := Ended)];
    CallChanges(s.calls, i, calls[i]);
    match s.calls[i].dest
    case Root =>
    case ToCall(k) =>
      if k < |calls| {
        CallChanges(calls, k, Returned(calls[k], r));
      }
    case ToFuture(f) =>
      if f < |s.futures| {
        FutureChanges(s.futures, f, s.futures[f].(status := Ready(r)));
      }
  }

  lemma StepLowers<T(!new)>(less: (T, T) -> bool, threads: nat, s: State<T>, a: Action<T>)
    requires Enabled(less, threads, s, a)
    ensures Work(Step(less, threads, s, a)) < Work(s)
  {
    hide Work, Divides;
    match a
    case Divide(i, lower, higher) => ForkLowers(less, s, i, lower, higher);
    case ReturnEmpty(i) => ReturnLowers(s, i, []);
    case Join(i) =>
      var w := s.calls[i].stage;
      ReturnLowers(s, i, s.futures[w.lower].status.result + [w.pivot] + w.sorted);
    case Help(i, f) => StartLowers(s, s.calls[i].th, f);
    case Take(th, f) => StartLowers(s, th, f);
  }

  /** No schedule takes more than 5n + 1 steps to sort n elements. */
  lemma EveryScheduleEnds<T(!new)>(less: (T, T) -> bool, threads: nat, input: seq<T>, acts: seq<Action<T>>)
    requires IsRun(less, threads, input, acts)
    ensures |acts| <= 5 * |input| + 1
  {
    hide Work, Step, Enabled;
    forall s, a | May(less, threads)(s, a) ensures Work(Does(less, threads)(s, a)) < Work(s) {
      StepLowers(less, threads, s, a);
    }
    var all := (a: Action<T>) => true;
    RunIsBounded(May(less, threads), Does(less, threads), (s: State<T>) => true, (s: State<T>) => Work(s),
                 (a: Action<T>) => false, all, 0, Init(input), acts);
    CountAll(all, acts);
    InitWork(input);
  }

  lemma InitWork<T>(input: seq<T>)
    ensures Work(Init(input)) == 5 * |input| + 1
  {
    assert CallWeights(Init(input).calls) == [5 * |input| + 1];
    assert Sum([5 * |input| + 1]) == 5 * |input| + 1 + Sum([]);
  }
}
