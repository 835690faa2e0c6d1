/** The producer and its consumers of perf_condition_variable.cpp.

    All threads share one mutex and one condition variable, on which they call
    notify_all after having given the mutex back. */
module PingPong {
  import opened Prelude

  datatype Shared = Shared(counter: nat, semaphore: nat)

  // ---- The sections under the mutex; None is a guard that makes the thread wait ----

  function Produce(sh: Shared, consumers: nat): Option<Shared>
  {
    if consumers != sh.semaphore then None else Some(Shared(sh.counter + 1, 0))
  }

  function Consume(sh: Shared, counter: nat): Option<Shared>
  {
    if counter == sh.counter then None else Some(Shared(sh.counter, sh.semaphore + 1))
  }

  /** The object that the threads share. */
  class SharedData {
    const iterations: nat
    var counter: nat
    var semaphore: nat

    function State(): Shared
      reads this
    {
      Shared(counter, semaphore)
    }

    constructor (iterations: nat, consumers: nat)
      ensures this.iterations == iterations && State() == Shared(0, consumers)
    {
      this.iterations, counter, semaphore := iterations, 0, consumers;
    }

    method ProducerSection(consumers: nat) returns (done: bool)
      modifies this
      ensures done <==> Produce(old(State()), consumers).Some?
      ensures State() == if done then Produce(old(State()), consumers).value else old(State())
    {
      if consumers != semaphore {
        return false;
      }
      semaphore := 0;
      counter := counter + 1;
      return true;
    }

    method ConsumerSection(local: nat) returns (done: bool, local': nat)
      modifies this
      ensures done <==> Consume(old(State()), local).Some?
      ensures State() == if done then Consume(old(State()), local).value else old(State())
      ensures local' == if done then counter else local
    {
      if local == counter {
        return false, local;
      }
      local' := counter;
      semaphore := semaphore + 1;
      done := true;
    }
  }

  // ---- The threads ----

  /** Notify is the moment between unlocking the mutex and notify_all. */
  datatype Pc = Start | Want | Asleep(signalled: bool) | Notify | Done

  /** `expected` is the producer's unlocked first read of the semaphore. */
  datatype Producer = Producer(pc: Pc, expected: nat, rounds: nat)

  datatype Consumer = Consumer(pc: Pc, counter: nat)

  datatype State = State(iterations: nat, sh: Shared, prod: Producer, cons: seq<Consumer>)

  datatype Action = Produces | Consumes(c: nat) | SpuriousProducer | SpuriousConsumer(c: nat)

  function Init(iterations: nat, consumers: nat): State
  {
    State(iterations, Shared(0, consumers), Producer(Start, 0, iterations),
          seq(consumers, i => Consumer(if iterations == 0 then Done else Want, 0)))
  }

  predicate CanAct(pc: Pc) { pc != Done && pc != Asleep(false) }

  function Signalled(pc: Pc): Pc { if pc.Asleep? then Asleep(true) else pc }

  function NotifyAll(s: State): State
  {
    s.(prod := s.prod.(pc := Signalled(s.prod.pc)),
       cons := seq(|s.cons|, i requires 0 <= i < |s.cons| => s.cons[i].(pc := Signalled(s.cons[i].pc))))
  }

  function ProducerStep(s: State): State
    requires CanAct(s.prod.pc)
  {
    var p := s.prod;
    match p.pc
    case Start => s.(prod := Producer(if p.rounds == 0 then Done else Want, s.sh.semaphore, p.rounds))
    case Want =>
      var sh := Produce(s.sh, p.expected);
      if sh.None? then s.(prod := p.(pc := Asleep(false)))
      else s.(sh := sh.value, prod := p.(pc := Notify, rounds := if p.rounds > 0 then p.rounds - 1 else 0))
    case Asleep(_) => s.(prod := p.(pc := Want))
    case Done => s
    case Notify => NotifyAll(s).(prod := p.(pc := if p.rounds == 0 then Done else Want))
  }

  function SetConsumer(s: State, c: nat, k: Consumer): State
    requires c < |s.cons|
  {
    s.(cons := s.cons[c := k])
  }

  function ConsumerStep(s: State, c: nat): State
    requires c < |s.cons| && CanAct(s.cons[c].pc)
  {
    var k := s.cons[c];
    match k.pc
    case Start => SetConsumer(s, c, k.(pc := Want))
    case Want =>
      var sh := Consume(s.sh, k.counter);
      if sh.None? then SetConsumer(s, c, k.(pc := Asleep(false)))
      else SetConsumer(s, c, Consumer(Notify, s.sh.counter)).(sh := sh.value)
    case Asleep(_) => SetConsumer(s, c, k.(pc := Want))
    case Done => s
    case Notify => SetConsumer(NotifyAll(s), c, k.(pc := if k.counter == s.iterations then Done else Want))
  }

  predicate Enabled(s: State, a: Action)
  {
    match a
    case Produces => CanAct(s.prod.pc)
    case Consumes(c) => c < |s.cons| && CanAct(s.cons[c].pc)
    case SpuriousProducer => s.prod.pc.Asleep?
    case SpuriousConsumer(c) => c < |s.cons| && s.cons[c].pc.Asleep?
  }

  function Step(s: State, a: Action): State
  {
    if !Enabled(s, a) then s else
    match a
    case Produces => ProducerStep(s)
    case Consumes(c) => ConsumerStep(s, c)
    case SpuriousProducer => s.(prod := s.prod.(pc := Want))
    case SpuriousConsumer(c) => SetConsumer(s, c, s.cons[c].(pc := Want))
  }

  predicate IsRun(iterations: nat, consumers: nat, acts: seq<Action>)
  {
    CanRun(Enabled, Step, Init(iterations, consumers), acts)
  }

  function After(iterations: nat, consumers: nat, acts: seq<Action>): State
  {
    Run(Step, Init(iterations, consumers), acts)
  }

  // ---- The invariant ----

  function UpToDate(cons: seq<Consumer>, counter: nat): (flags: seq<nat>)
  {
    seq(|cons|, i requires 0 <= i < |cons| => if cons[i].counter == counter then 1 else 0)
  }

  ghost predicate Counting(s: State)
  {
    && s.sh.semaphore == Sum(UpToDate(s.cons, s.sh.counter))
    && s.sh.counter + s.prod.rounds == s.iterations
    && (forall c :: 0 <= c < |s.cons| ==>
          s.cons[c].counter == s.sh.counter || s.cons[c].counter + 1 == s.sh.counter)
  }

  ghost predicate ProducerOk(s: State)
  {
    && (s.prod.pc.Start? ==> s.sh.counter == 0 && s.sh.semaphore == |s.cons|)
    && (!s.prod.pc.Start? ==> s.prod.expected == |s.cons|)
    && (s.prod.pc.Want? || s.prod.pc.Asleep? ==> s.prod.rounds > 0)
    && (s.prod.pc.Done? ==> s.prod.rounds == 0)
    && (s.prod.pc == Asleep(false) ==>
          s.sh.semaphore != |s.cons| || exists c :: 0 <= c < |s.cons| && s.cons[c].pc.Notify?)
  }

  ghost predicate ConsumerOk(s: State, k: Consumer)
  {
    && !k.pc.Start?
    && (k.pc.Done? ==> k.counter == s.iterations)
    && (k.pc.Want? || k.pc.Asleep? ==> k.counter < s.iterations)
    && (k.pc == Asleep(false) ==> k.counter == s.sh.counter || s.prod.pc.Notify?)
  }

  ghost predicate ConsumersOk(s: State)
  {
    forall c :: 0 <= c < |s.cons| ==> ConsumerOk(s, s.cons[c])
  }

  ghost predicate Inv(s: State)
  {
    Counting(s) && ProducerOk(s) && ConsumersOk(s)
  }

  lemma SemaphoreIsFull(s: State)
    requires Counting(s)
    ensures s.sh.semaphore <= |s.cons|
    ensures s.sh.semaphore == |s.cons| <==> forall c :: 0 <= c < |s.cons| ==> s.cons[c].counter == s.sh.counter
  {
    var flags := UpToDate(s.cons, s.sh.counter);
    AllOnes(flags);
    assert forall c :: 0 <= c < |s.cons| ==> (flags[c] == 1 <==> s.cons[c].counter == s.sh.counter);
  }

  lemma InitInv(iterations: nat, consumers: nat)
    ensures Inv(Init(iterations, consumers))
  {
    AllOnes(UpToDate(Init(iterations, consumers).cons, 0));
  }

  lemma NotifyKeepsCounts(s: State)
    ensures UpToDate(NotifyAll(s).cons, s.sh.counter) == UpToDate(s.cons, s.sh.counter)
  {
  }

  /** The producer starts a round only when everyone has finished the last one, so nobody is
      up to date when it has. */
  lemma ProduceCounts(s: State)
    requires Inv(s) && s.prod.pc.Want? && Produce(s.sh, s.prod.expected).Some?
    ensures Inv(ProducerStep(s))
    ensures forall c :: 0 <= c < |s.cons| ==> s.cons[c].counter == s.sh.counter
  {
    var s' := ProducerStep(s);
    SemaphoreIsFull(s);
    var flags := UpToDate(s'.cons, s'.sh.counter);
    SumBound(flags, 0);
  }

  lemma ProducerInv(s: State)
    requires Inv(s) && CanAct(s.prod.pc)
    ensures Inv(ProducerStep(s))
  {
    NotifyKeepsCounts(s);
    if s.prod.pc.Want? && Produce(s.sh, s.prod.expected).Some? {
      ProduceCounts(s);
    }
  }

  lemma FlagsUpdate(cons: seq<Consumer>, counter: nat, c: nat, k: Consumer)
    requires c < |cons|
    ensures Sum(UpToDate(cons[c := k], counter)) + (if cons[c].counter == counter then 1 else 0)
         == Sum(UpToDate(cons, counter)) + if k.counter == counter then 1 else 0
  {
    var x: nat := if k.counter == counter then 1 else 0;
    assert UpToDate(cons[c := k], counter) == UpToDate(cons, counter)[c := x];
    SumUpdate(UpToDate(cons, counter), c, x);
  }

  lemma ConsumeInv(s: State, c: nat)
    requires Inv(s) && c < |s.cons| && s.cons[c].pc.Want? && Consume(s.sh, s.cons[c].counter).Some?
    ensures Inv(ConsumerStep(s, c)) && ConsumerStep(s, c).cons[c].counter == s.cons[c].counter + 1
  {
    var s' := ConsumerStep(s, c);
    FlagsUpdate(s.cons, s.sh.counter, c, s'.cons[c]);
    SemaphoreIsFull(s);
    assert s'.cons[c].pc.Notify?;
  }

  lemma MoveInv(s: State, c: nat, pc: Pc)
    requires Inv(s) && c < |s.cons| && !s.cons[c].pc.Notify?
    requires (pc.Want? && s.cons[c].pc.Asleep?)
             || (s.cons[c].pc.Want? && pc == Asleep(false) && s.cons[c].counter == s.sh.counter)
    ensures Inv(SetConsumer(s, c, s.cons[c].(pc := pc)))
  {
    var s' := SetConsumer(s, c, s.cons[c].(pc := pc));
    FlagsUpdate(s.cons, s.sh.counter, c, s'.cons[c]);
    assert forall d :: 0 <= d < |s.cons| && s.cons[d].pc.Notify? ==> s'.cons[d].pc.Notify?;
  }

  lemma NotifyInv(s: State, c: nat)
    requires Inv(s) && c < |s.cons| && s.cons[c].pc.Notify?
    ensures Inv(ConsumerStep(s, c))
  {
    var s' := ConsumerStep(s, c);
    NotifyKeepsCounts(s);
    FlagsUpdate(NotifyAll(s).cons, s.sh.counter, c, s'.cons[c]);
  }

  lemma ConsumerInv(s: State, c: nat)
    requires Inv(s) && c < |s.cons| && CanAct(s.cons[c].pc)
    ensures Inv(ConsumerStep(s, c))
  {
    var k := s.cons[c];
    assert ConsumerOk(s, k);
    match k.pc
    case Want => if Consume(s.sh, k.counter).Some? { ConsumeInv(s, c); } else { MoveInv(s, c, Asleep(false)); }
    case Asleep(_) => MoveInv(s, c, Want);
    case _ => NotifyInv(s, c);
  }

  lemma StepInv(s: State, a: Action)
    requires Inv(s) && Enabled(s, a)
    ensures Inv(Step(s, a))
  {
    match a
    case Produces => ProducerInv(s);
    case Consumes(c) => ConsumerInv(s, c);
    case SpuriousProducer =>
    case SpuriousConsumer(c) => MoveInv(s, c, Want);
  }

  lemma RunInv(iterations: nat, consumers: nat, acts: seq<Action>)
    requires IsRun(iterations, consumers, acts)
    ensures Inv(After(iterations, consumers, acts))
  {
    hide Inv;
    InitInv(iterations, consumers);
    forall s, a | Inv(s) && Enabled(s, a) ensures Inv(Step(s, a)) {
      StepInv(s, a);
    }
    RunKeeps(Enabled, Step, Inv, Init(iterations, consumers), acts);
  }

  // ---- What every run guarantees ----

  /** The semaphore counts the consumers that have taken the current round, none is more
      than one round behind, the producer's first unlocked read saw all of them, and no
      counter outgrows its bound. */
  lemma NobodyRunsAhead(iterations: nat, consumers: nat, acts: seq<Action>)
    requires IsRun(iterations, consumers, acts)
    ensures var s := After(iterations, consumers, acts); (
      && s.sh.semaphore == Sum(UpToDate(s.cons, s.sh.counter)) <= |s.cons|
      && (forall c :: 0 <= c < |s.cons| ==>
            s.cons[c].counter == s.sh.counter || s.cons[c].counter + 1 == s.sh.counter)
      && s.sh.counter + s.prod.rounds == s.iterations
      && (!s.prod.pc.Start? ==> s.prod.expected == |s.cons|))
  {
    RunInv(iterations, consumers, acts);
    SemaphoreIsFull(After(iterations, consumers, acts));
  }

  /** A new round begins only when every consumer has taken the last one; a consumer that
      gets through takes exactly the next one. */
  lemma RoundsAreTakenInStep(iterations: nat, consumers: nat, acts: seq<Action>)
    requires IsRun(iterations, consumers, acts)
    ensures var s := After(iterations, consumers, acts); (
      && (s.prod.pc.Want? && Produce(s.sh, s.prod.expected).Some? ==>
            forall c :: 0 <= c < |s.cons| ==> s.cons[c].counter == s.sh.counter)
      && (forall c :: 0 <= c < |s.cons| && s.cons[c].pc.Want? && Consume(s.sh, s.cons[c].counter).Some? ==>
            s.cons[c].counter + 1 == s.sh.counter))
  {
    var s := After(iterations, consumers, acts);
    RunInv(iterations, consumers, acts);
    if s.prod.pc.Want? && Produce(s.sh, s.prod.expected).Some? {
      ProduceCounts(s);
    }
  }

  /** Nobody sleeps unsignalled while free to go on, unless another thread has changed the
      shared state and is about to call notify_all. */
  lemma NoWakeUpIsLost(iterations: nat, consumers: nat, acts: seq<Action>)
    requires IsRun(iterations, consumers, acts)
    ensures var s := After(iterations, consumers, acts); (
      && (s.prod.pc == Asleep(false) && Produce(s.sh, s.prod.expected).Some? ==>
            exists c :: 0 <= c < |s.cons| && s.cons[c].pc.Notify?)
      && (forall c :: 0 <= c < |s.cons| && s.cons[c].pc == Asleep(false) && Consume(s.sh, s.cons[c].counter).Some? ==>
            s.prod.pc.Notify?))
  {
    RunInv(iterations, consumers, acts);
  }

  ghost predicate Quiet(s: State)
  {
    !CanAct(s.prod.pc) && forall c :: 0 <= c < |s.cons| ==> !CanAct(s.cons[c].pc)
  }

  ghost predicate Completed(s: State)
  {
    && s.prod.pc.Done? && s.sh.counter == s.iterations
    && forall c :: 0 <= c < |s.cons| ==> s.cons[c] == Consumer(Done, s.iterations)
  }

  /** The only states in which nobody can move are those in which everybody is done. */
  lemma NobodyIsStuck(iterations: nat, consumers: nat, acts: seq<Action>)
    requires IsRun(iterations, consumers, acts)
    ensures Quiet(After(iterations, consumers, acts)) <==> Completed(After(iterations, consumers, acts))
  {
    var s := After(iterations, consumers, acts);
    RunInv(iterations, consumers, acts);
    if Quiet(s) {
      SemaphoreIsFull(s);
      assert forall c :: 0 <= c < |s.cons| ==> ConsumerOk(s, s.cons[c]);
    }
  }

  // ---- Termination ----

  // A round costs what it can cause: a notification that wakes all other threads, each of
  // which may look at its guard once and go back to sleep.

  function Round(n: nat): nat { 2 * n + 5 }

  function RoundsLoad(n: nat, rounds: nat): nat
  {
    if rounds == 0 then 0 else Round(n) + RoundsLoad(n, rounds - 1)
  }

  function PcLoad(n: nat, pc: Pc): nat
  {
    match pc
    case Start => 2
    case Want => 1
    case Asleep(signalled) => if signalled then 2 else 0
    case Notify => 2 * n + 4
    case Done => 0
  }

  function ConsumerLoad(n: nat, iterations: nat, k: Consumer): nat
  {
    PcLoad(n, k.pc) + if k.counter < iterations then RoundsLoad(n, iterations - k.counter) else 0
  }

  function ConsumerLoads(n: nat, iterations: nat, cons: seq<Consumer>): (loads: seq<nat>)
  {
    seq(|cons|, c requires 0 <= c < |cons| => ConsumerLoad(n, iterations, cons[c]))
  }

  function Load(s: State): nat
  {
    var n := |s.cons|;
    PcLoad(n, s.prod.pc) + RoundsLoad(n, s.prod.rounds) + Sum(ConsumerLoads(n, s.iterations, s.cons))
  }

  lemma ConsumerLoadsUpdate(n: nat, iterations: nat, cons: seq<Consumer>, c: nat, k: Consumer)
    requires c < |cons|
    ensures Sum(ConsumerLoads(n, iterations, cons[c := k])) + ConsumerLoad(n, iterations, cons[c])
         == Sum(ConsumerLoads(n, iterations, cons)) + ConsumerLoad(n, iterations, k)
  {
    assert ConsumerLoads(n, iterations, cons[c := k])
        == ConsumerLoads(n, iterations, cons)[c := ConsumerLoad(n, iterations, k)];
    SumUpdate(ConsumerLoads(n, iterations, cons), c, ConsumerLoad(n, iterations, k));
  }

  lemma {:induction false} SumWithin(xs: seq<nat>, ys: seq<nat>, b: nat)
    requires |xs| == |ys| && forall i :: 0 <= i < |xs| ==> ys[i] <= xs[i] + b
    ensures Sum(ys) <= Sum(xs) + b * |xs|
  {
    if xs != [] {
      SumWithin(xs[1..], ys[1..], b);
    }
  }

  lemma NotifyRaises(s: State)
    ensures PcLoad(|s.cons|, Signalled(s.prod.pc)) <= PcLoad(|s.cons|, s.prod.pc) + 2
    ensures Sum(ConsumerLoads(|s.cons|, s.iterations, NotifyAll(s).cons))
         <= Sum(ConsumerLoads(|s.cons|, s.iterations, s.cons)) + 2 * |s.cons|
  {
    SumWithin(ConsumerLoads(|s.cons|, s.iterations, s.cons),
              ConsumerLoads(|s.cons|, s.iterations, NotifyAll(s).cons), 2);
  }

  lemma ProducerLowers(s: State)
    requires Inv(s) && CanAct(s.prod.pc)
    ensures Load(ProducerStep(s)) < Load(s)
  {
    NotifyRaises(s);
  }

  lemma ConsumerLowers(s: State, c: nat)
    requires Inv(s) && c < |s.cons| && CanAct(s.cons[c].pc)
    ensures Load(ConsumerStep(s, c)) < Load(s)
  {
    assert ConsumerOk(s, s.cons[c]);
    if s.cons[c].pc.Notify? {
      NotifierLowers(s, c);
    } else {
      hide Sum;
      ConsumerLoadsUpdate(|s.cons|, s.iterations, s.cons, c, ConsumerStep(s, c).cons[c]);
    }
  }

  lemma NotifierLowers(s: State, c: nat)
    requires c < |s.cons| && s.cons[c].pc.Notify?
    ensures Load(ConsumerStep(s, c)) < Load(s)
  {
    hide Sum, RoundsLoad;
    NotifyRaises(s);
    ConsumerLoadsUpdate(|s.cons|, s.iterations, NotifyAll(s).cons, c, ConsumerStep(s, c).cons[c]);
  }

  predicate IsSpurious(a: Action) { a.SpuriousProducer? || a.SpuriousConsumer? }

  predicate IsOwn(a: Action) { a.Produces? || a.Consumes? }

  lemma SpuriousRaises(s: State, a: Action)
    requires Enabled(s, a) && IsSpurious(a)
    ensures Load(Step(s, a)) <= Load(s) + 1
  {
    if a.SpuriousConsumer? {
      ConsumerLoadsUpdate(|s.cons|, s.iterations, s.cons, a.c, s.cons[a.c].(pc := Want));
    }
  }

  /** For any number of consumers, any number of rounds and any schedule: a run has a bounded
      number of steps, spurious wake-ups adding at most one each, and one that cannot go on
      has brought the producer and every consumer to the last round. */
  lemma EveryRunCompletes(iterations: nat, consumers: nat, acts: seq<Action>)
    requires IsRun(iterations, consumers, acts)
    ensures Count(IsOwn, acts) <= Load(Init(iterations, consumers)) + Count(IsSpurious, acts)
    ensures Quiet(After(iterations, consumers, acts)) ==> Completed(After(iterations, consumers, acts))
  {
    hide Inv, Load, Step, Enabled, Quiet, Completed;
    var s0 := Init(iterations, consumers);
    InitInv(iterations, consumers);
    forall s, a | Inv(s) && Enabled(s, a) ensures Inv(Step(s, a)) {
      StepInv(s, a);
    }
    forall s, a | Inv(s) && Enabled(s, a) && IsOwn(a) ensures Load(Step(s, a)) < Load(s) {
      OwnStepLowers(s, a);
    }
    forall s, a | Inv(s) && Enabled(s, a) && IsSpurious(a) ensures Load(Step(s, a)) <= Load(s) + 1 {
      SpuriousRaises(s, a);
    }
    RunIsBounded(Enabled, Step, Inv, Load, IsSpurious, IsOwn, 1, s0, acts);
    NobodyIsStuck(iterations, consumers, acts);
  }

  lemma OwnStepLowers(s: State, a: Action)
    requires Inv(s) && Enabled(s, a) && IsOwn(a)
    ensures Load(Step(s, a)) < Load(s)
  {
    match a
    case Produces => ProducerLowers(s);
    case Consumes(c) => ConsumerLowers(s, c);
  }
}
