/** When the queued pool makes its callers wait.

    The dispatcher keeps the queue lock for a whole scan, and the scan waits for the lock of
    each manager on its way, which a worker keeps while it runs a task. */
module PosixPoolBlocking {
  import opened Prelude
  import opened PosixPool
  import opened PosixPoolControl
  import opened PosixPoolSafety
  import opened PosixPoolProgress
  import opened PosixPoolStranding

  /** The execute of client `c` waits for `b`, who waits for the task that worker `i` runs. */
  ghost predicate HeldUpBy(s: State, c: nat, b: Agent, i: nat)
  {
    && c < |s.clients| && s.clients[c].Exec? && WaitsFor(s, TheClient(c), b)
    && i < |s.ms| && s.ms[i].pc.Running? && WaitsFor(s, b, TheWorker(i))
  }

  ghost predicate HeldUp(s: State) { exists c: nat, b, i: nat :: HeldUpBy(s, c, b, i) }

  /** The dispatcher waits for a running task with another in hand, and a worker is free. */
  ghost predicate Wasteful(s: State)
  {
    && s.queue != [] && (exists i: nat :: i < |s.ms| && s.ms[i].pc.Running? && WaitsFor(s, TheDispatcher, TheWorker(i)))
    && exists j :: 0 <= j < |s.ms| && s.ms[j] == RESTING
  }

  ghost predicate Reaches(size: nat, limit: nat, p: State -> bool)
  {
    exists clients: nat, acts: seq<Action> ::
      CanRun(Executing(limit), Step, Init(size, clients), acts) && p(After(size, clients, acts))
  }

  ghost predicate CanHoldUp(size: nat, limit: nat) { Reaches(size, limit, HeldUp) }

  ghost predicate CanWaste(size: nat, limit: nat) { Reaches(size, limit, Wasteful) }

  // ---- A single unfinished task holds nobody up ----

  ghost predicate JustExecuting(s: State, size: nat, limit: nat)
  {
    && Good(s) && s.go && |s.ms| == size && Unfinished(s) <= limit
    && forall c :: 0 <= c < |s.clients| ==> s.clients[c].Idle? || s.clients[c].Exec?
  }

  lemma EffectCounts(s: State, k: Client)
    requires k.Idle? || k.Exec?
    ensures var s' := Effect(s, k); (
      && |s'.ms| == |s.ms| && s'.go == s.go && s'.clients == s.clients && Next(s, k).Idle?
      && Unfinished(s') <= Unfinished(s) + if k.Exec? then 1 else 0)
  {
  }

  lemma WorkerCounts(s: State, i: nat)
    requires i < |s.ms| && WorkerEnabled(s.ms[i])
    ensures var s' := WorkerStep(s, i); |s'.ms| == |s.ms| && s'.go == s.go && Unfinished(s') <= Unfinished(s)
    ensures WorkerStep(s, i).clients == s.clients
  {
    hide WorkerNext;
  }

  lemma StepExecuting(s: State, size: nat, limit: nat, a: Action)
    requires JustExecuting(s, size, limit) && Executing(limit)(s, a)
    ensures JustExecuting(Step(s, a), size, limit)
  {
    hide Good, DispatcherStep, WorkerStep, Effect, Next;
    StepGood(s, a);
    match a
    case ClientAct(c) => EffectCounts(s, s.clients[c]);
    case DispatcherAct => DispatcherCounts(s);
    case WorkerAct(i) => WorkerCounts(s, i);
    case Enter(_, _) =>
    case Return(_) =>
    case SpuriousDispatcher =>
    case SpuriousWorker(_) =>
  }

  lemma RunExecuting(size: nat, limit: nat, clients: nat, acts: seq<Action>)
    requires CanRun(Executing(limit), Step, Init(size, clients), acts)
    ensures JustExecuting(After(size, clients, acts), size, limit)
  {
    hide Good, Step, Enabled;
    InitGood(size, clients);
    forall s, a | JustExecuting(s, size, limit) && Executing(limit)(s, a)
      ensures JustExecuting(Step(s, a), size, limit)
    {
      StepExecuting(s, size, limit, a);
    }
    RunKeeps(Executing(limit), Step, (s: State) => JustExecuting(s, size, limit), Init(size, clients), acts);
  }

  /** Where the dispatcher waits for a running task, there are two unfinished ones. */
  lemma TwoTasks(s: State, size: nat, limit: nat, i: nat)
    requires JustExecuting(s, size, limit) && s.disp.DScan? && i < |s.ms| && s.ms[i].pc.Running?
    ensures limit > 1
  {
    RunningLedger(s);
    UnfinishedAre(s);
    assert AtFront(s, s.disp.t) && ManagerOk(s.ms[i]);
    FilledHas(Slots(s.ms), i);
  }

  /** Whoever is waited for by an execute is the dispatcher. */
  lemma HolderScans(s: State, size: nat, limit: nat, c: nat, b: Agent, i: nat)
    requires JustExecuting(s, size, limit) && HeldUpBy(s, c, b, i)
    ensures s.disp.DScan?
  {
    assert s.ql == Some(Dispatching);
  }

  // ---- Two are enough ----

  /** Worker 0 runs task 0, and the dispatcher, with task 1, has come to it. */
  lemma DispatcherMeetsATask(size: nat, limit: nat) returns (acts: seq<Action>)
    requires size > 0 && limit > 1
    ensures LimitedRun(size, limit, acts) && HeldUp(After(size, 1, acts))
    ensures size > 1 ==> Wasteful(After(size, 1, acts))
  {
    hide CanRun, Run;
    acts := WorkersFallAsleep(size, limit);
    acts := TasksAreQueued(size, limit, acts, 2);
    Extend(size, limit, acts, DispatcherAct);
    acts := acts + [DispatcherAct];
    Extend(size, limit, acts, DispatcherAct);
    acts := acts + [DispatcherAct];
    Extend(size, limit, acts, DispatcherAct);
    acts := acts + [DispatcherAct];
    Extend(size, limit, acts, WorkerAct(0));
    acts := acts + [WorkerAct(0)];
    Extend(size, limit, acts, WorkerAct(0));
    acts := acts + [WorkerAct(0)];
    Extend(size, limit, acts, Enter(0, Execute(2)));
    acts := acts + [Enter(0, Execute(2))];
    var s := After(size, 1, acts);
    assert HeldUpBy(s, 0, TheDispatcher, 0);
    assert size > 1 ==> s.ms[1] == RESTING;
  }

  /** An execute is held up by a running task, though the header says that it never blocks,
      exactly if there are workers and callers who do not wait for every task to end before
      they submit the next. */
  lemma BlockingThreshold(size: nat, limit: nat)
    ensures CanHoldUp(size, limit) <==> size > 0 && limit > 1
  {
    hide CanRun, Run, JustExecuting;
    if size > 0 && limit > 1 {
      var acts := DispatcherMeetsATask(size, limit);
    }
    forall clients: nat, acts: seq<Action> |
      CanRun(Executing(limit), Step, Init(size, clients), acts) && HeldUp(After(size, clients, acts))
      ensures size > 0 && limit > 1
    {
      var s := After(size, clients, acts);
      RunExecuting(size, limit, clients, acts);
      var c, b, i :| HeldUpBy(s, c, b, i);
      HolderScans(s, size, limit, c, b, i);
      TwoTasks(s, size, limit, i);
      WorkersAre(s, size, limit);
    }
  }

  lemma WorkersAre(s: State, size: nat, limit: nat)
    requires JustExecuting(s, size, limit)
    ensures |s.ms| == size
  {
  }

  /** A queued task waits for another one to end, with a worker free to take it, exactly if
      there are two workers and callers who do not wait for every task to end. */
  lemma WasteThreshold(size: nat, limit: nat)
    ensures CanWaste(size, limit) <==> size > 1 && limit > 1
  {
    hide CanRun, Run, JustExecuting;
    if size > 1 && limit > 1 {
      var acts := DispatcherMeetsATask(size, limit);
    }
    forall clients: nat, acts: seq<Action> |
      CanRun(Executing(limit), Step, Init(size, clients), acts) && Wasteful(After(size, clients, acts))
      ensures size > 1 && limit > 1
    {
      var s := After(size, clients, acts);
      RunExecuting(size, limit, clients, acts);
      var i: nat :| i < |s.ms| && s.ms[i].pc.Running? && WaitsFor(s, TheDispatcher, TheWorker(i));
      var j :| 0 <= j < |s.ms| && s.ms[j] == RESTING;
      assert i != j;
      TwoTasks(s, size, limit, i);
      WorkersAre(s, size, limit);
    }
  }
}
