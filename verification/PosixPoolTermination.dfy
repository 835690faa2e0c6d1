/** Every run of the queued pool without new calls is finite, so every shutdown ends. */
module PosixPoolTermination {
  import opened Prelude
  import opened PosixPool
  import opened PosixPoolControl
  import opened PosixPoolSafety
  import opened PosixPoolTheorems
  import opened PosixPoolProgress

  // Each part of the state carries the number of steps it may still cause: in a pool of
  // n managers a scan costs two steps a manager, a wake-up of the dispatcher a scan more,
  // and a task in a slot the wake-up that its completion sends.

  function Wake(n: nat): nat { 2 * n + 3 }

  function SlotCost(n: nat): nat { 2 * n + 5 }

  function QueueCost(n: nat): nat { 4 * n + 8 }

  function Less(n: nat, i: nat): nat { if i < n then n - i else 0 }

  function WorkerLoad(n: nat, m: Manager): nat
  {
    (if m.task.Some? then SlotCost(n) else 0) +
    match m.pc
    case Ready => 1
    case Asleep(signalled) => if signalled then 2 else 0
    case Running => 0
    case Notifying => Wake(n) + 1
    case Exited => 0
  }

  function DispatcherLoad(n: nat, d: Dispatcher): nat
  {
    match d
    case DReady(_) => 2 * n + 2
    case DAsleep(_, signalled) => if signalled then Wake(n) else 0
    case DScan(_, i, idle) => 2 * Less(n, i) + if idle then 0 else 1
    case DExited => 0
  }

  function ClientLoad(n: nat, k: Client): nat
  {
    match k
    case Idle => 0
    case Answered(_) => 0
    case Destroyed => 0
    case Exec(_) => QueueCost(n) + Wake(n) + 1
    case Query => n + 3
    case QueryPool => n + 2
    case QueryScan(i) => Less(n, i) + 1
    case TermQueue(_) => 5 * n + 8 + Wake(n)
    case TermPool(_) => 5 * n + 7
    case TermStop(_, i) => 4 * n + Less(n, i) + 6
    case TermDelete(_, i) => 4 * Less(n, i) + 5
    case TermJoin(_, i) => 4 * Less(n, i) + 2
    case JoinDispatcher => 4
    case Drain => 3
    case FinalPool(left) => left + 1
  }

  function WorkerLoads(n: nat, ms: seq<Manager>): (loads: seq<nat>)
  {
    seq(|ms|, i requires 0 <= i < |ms| => WorkerLoad(n, ms[i]))
  }

  function ClientLoads(n: nat, cs: seq<Client>): (loads: seq<nat>)
  {
    seq(|cs|, i requires 0 <= i < |cs| => ClientLoad(n, cs[i]))
  }

  function QueueLoad(n: nat, length: nat): nat
  {
    if length == 0 then 0 else QueueCost(n) + QueueLoad(n, length - 1)
  }

  function PoolLoad(s: State): nat
  {
    DispatcherLoad(|s.ms|, s.disp) + Sum(WorkerLoads(|s.ms|, s.ms)) + QueueLoad(|s.ms|, |s.queue|)
  }

  function Load(s: State): nat
  {
    PoolLoad(s) + Sum(ClientLoads(|s.ms|, s.clients))
  }

  lemma WorkerLoadsUpdate(n: nat, ms: seq<Manager>, i: nat, m: Manager)
    requires i < |ms|
    ensures Sum(WorkerLoads(n, ms[i := m])) + WorkerLoad(n, ms[i]) == Sum(WorkerLoads(n, ms)) + WorkerLoad(n, m)
  {
    assert WorkerLoads(n, ms[i := m]) == WorkerLoads(n, ms)[i := WorkerLoad(n, m)];
    SumUpdate(WorkerLoads(n, ms), i, WorkerLoad(n, m));
  }

  lemma ClientLoadsUpdate(n: nat, cs: seq<Client>, c: nat, k: Client)
    requires c < |cs|
    ensures Sum(ClientLoads(n, cs[c := k])) + ClientLoad(n, cs[c]) == Sum(ClientLoads(n, cs)) + ClientLoad(n, k)
  {
    assert ClientLoads(n, cs[c := k]) == ClientLoads(n, cs)[c := ClientLoad(n, k)];
    SumUpdate(ClientLoads(n, cs), c, ClientLoad(n, k));
  }

  lemma WorkerLowers(s: State, i: nat)
    requires i < |s.ms| && WorkerEnabled(s.ms[i]) && ManagerOk(s.ms[i])
    ensures Load(WorkerStep(s, i)) < Load(s)
  {
    WorkerLoadsUpdate(|s.ms|, s.ms, i, WorkerNext(s.ms[i]));
  }

  lemma AssignedLowers(s: State, t: Task, i: nat)
    requires i < |s.ms| && s.ms[i].task.None? && ManagerOk(s.ms[i]) && s.queue != []
    ensures PoolLoad(Assigned(s, t, i).(disp := DScan(t, 0, false))) < PoolLoad(s.(disp := DScan(t, i, true)))
  {
    WorkerLoadsUpdate(|s.ms|, s.ms, i, SetTask(s.ms[i], t));
  }

  lemma DispatcherLowers(s: State)
    requires Control(s) && DispatcherEnabled(s)
    ensures Load(DispatcherStep(s)) < Load(s)
  {
    hide Sum, WorkerLoads, ClientLoads, QueueLoad;
    if s.disp.DScan? && s.disp.i < |s.ms| && s.ms[s.disp.i].task.None? && s.disp.idle {
      assert ManagerOk(s.ms[s.disp.i]);
      AssignedLowers(s, s.disp.t, s.disp.i);
      assert s.(disp := DScan(s.disp.t, s.disp.i, true)) == s;
    }
  }

  lemma StopLowers(s: State, k: Client)
    requires k.TermStop? && k.i <= |s.ms|
    ensures PoolLoad(Effect(s, k)) + ClientLoad(|s.ms|, Next(s, k)) < PoolLoad(s) + ClientLoad(|s.ms|, k)
  {
    hide Sum, WorkerLoads, QueueLoad;
    if k.i < |s.ms| {
      WorkerLoadsUpdate(|s.ms|, s.ms, k.i, Stop(s.ms[k.i]));
    }
  }

  lemma DeleteLowers(s: State, k: Client)
    requires k.TermDelete? && k.i <= |s.ms|
    ensures PoolLoad(Effect(s, k)) + ClientLoad(|s.ms|, Next(s, k)) < PoolLoad(s) + ClientLoad(|s.ms|, k)
  {
    hide Sum, WorkerLoads, QueueLoad;
    if k.i < |s.ms| {
      WorkerLoadsUpdate(|s.ms|, s.ms, k.i, Retire(s.ms[k.i]));
    }
  }

  lemma EffectLowers(s: State, k: Client)
    requires ClientOk(s, k) && (k.TermStop? || k.TermDelete? ==> k.i <= |s.ms|) && (k.TermJoin? ==> k.i < |s.ms|)
    requires !k.Idle? && !k.Answered? && !k.Destroyed?
    ensures PoolLoad(Effect(s, k)) + ClientLoad(|s.ms|, Next(s, k)) < PoolLoad(s) + ClientLoad(|s.ms|, k)
  {
    hide Sum, WorkerLoads;
    if k.TermStop? {
      StopLowers(s, k);
    } else if k.TermDelete? {
      DeleteLowers(s, k);
    }
  }

  lemma EffectKeeps(s: State, k: Client)
    ensures |Effect(s, k).ms| == |s.ms| && Effect(s, k).clients == s.clients
  {
  }

  lemma ClientLowers(s: State, c: nat)
    requires Control(s) && ClientEnabled(s, c)
    ensures Load(ClientStep(s, c)) < Load(s)
  {
    hide Effect, Next, PoolLoad, ClientLoads, Sum;
    var k := s.clients[c];
    assert ClientOk(s, k);
    ShutdownPhase(s, c);
    EffectLowers(s, k);
    EffectKeeps(s, k);
    ClientLoadsUpdate(|s.ms|, s.clients, c, Next(s, k));
    assert PoolLoad(ClientStep(s, c)) == PoolLoad(Effect(s, k)) by {
      MoveKeepsPoolLoad(Effect(s, k), c, Next(s, k));
    }
  }

  lemma MoveKeepsPoolLoad(s: State, c: nat, k: Client)
    requires c < |s.clients|
    ensures PoolLoad(Move(s, c, k)) == PoolLoad(s)
  {
  }

  predicate IsSpurious(a: Action) { a.SpuriousDispatcher? || a.SpuriousWorker? }

  predicate IsOwn(a: Action) { a.ClientAct? || a.DispatcherAct? || a.WorkerAct? }

  lemma OwnStepLowers(s: State, a: Action)
    requires Control(s) && Enabled(s, a) && IsOwn(a)
    ensures Load(Step(s, a)) < Load(s)
  {
    match a
    case ClientAct(c) => ClientLowers(s, c);
    case DispatcherAct => DispatcherLowers(s);
    case WorkerAct(i) =>
      assert ManagerOk(s.ms[i]);
      WorkerLowers(s, i);
  }

  lemma SpuriousStepRaises(s: State, a: Action)
    requires Control(s) && Enabled(s, a) && IsSpurious(a)
    ensures Load(Step(s, a)) <= Load(s) + 2 * |s.ms| + 2
  {
    if a.SpuriousWorker? {
      WorkerLoadsUpdate(|s.ms|, s.ms, a.i, s.ms[a.i].(pc := Ready));
    }
  }

  /** From any reachable state, a run in which no new call enters takes a bounded number of
      steps, however the threads are scheduled; each spurious wake-up buys at most one more
      round of the dispatcher. */
  lemma PoolSettles(size: nat, clients: nat, acts: seq<Action>, more: seq<Action>)
    requires IsRun(size, clients, acts) && CanRun(Enabled, Step, After(size, clients, acts), more)
    requires forall a :: a in more ==> IsOwn(a) || IsSpurious(a)
    ensures Count(IsOwn, more) <= Load(After(size, clients, acts)) + (2 * size + 2) * Count(IsSpurious, more)
  {
    hide Step, Enabled, Control, Load;
    var inv := (s: State) => Control(s) && Sized(s, size, clients);
    RunControl(size, clients, acts);
    RunSize(size, clients, acts);
    forall s, a | inv(s) && Enabled(s, a) ensures inv(Step(s, a)) {
      StepControl(s, a);
      StepSize(s, a);
    }
    forall s, a | inv(s) && Enabled(s, a) && IsOwn(a) ensures Load(Step(s, a)) < Load(s) {
      OwnStepLowers(s, a);
    }
    forall s, a | inv(s) && Enabled(s, a) && IsSpurious(a) ensures Load(Step(s, a)) <= Load(s) + (2 * size + 2) {
      SpuriousStepRaises(s, a);
    }
    RunIsBounded(Enabled, Step, inv, Load, IsSpurious, IsOwn, 2 * size + 2, After(size, clients, acts), more);
  }

  /** Once the destructor has been called, the steps that the threads of the pool can still
      take are bounded in number, and when none is left every task has been deleted. */
  lemma ShutdownEnds(size: nat, clients: nat, acts: seq<Action>, more: seq<Action>)
    requires IsRun(size, clients, acts + more) && After(size, clients, acts + more).destroying
    requires forall a :: a in more ==> IsOwn(a)
    ensures |more| <= Load(After(size, clients, acts))
    ensures Quiet(After(size, clients, acts + more)) ==> AllDeletedOnce(After(size, clients, acts + more).h, size)
  {
    hide Control, AllDeletedOnce, Load, Quiet, AtRest, Step, Enabled;
    RunAppend(Enabled, Step, Init(size, clients), acts, more);
    CountAll(IsOwn, more);
    CountAll(IsSpurious, more);
    PoolSettles(size, clients, acts, more);
    QuietMeansAtRest(size, clients, acts + more);
    if AtRest(After(size, clients, acts + more)) {
      RestedDestructorIsDone(size, clients, acts + more);
    }
  }
}
